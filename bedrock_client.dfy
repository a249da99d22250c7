/** The deterministic part of the Bedrock client of the frontend: shaping of
    knowledge-base retrieval results into citations, prompt assembly, the
    choice of request format and response path from the model id, and the
    cached model listing. Every call into AWS is an input: the outcome of a
    retrieval, of a model invocation or of a model listing is passed in. */
module BedrockClient {
  import opened Common
  import opened Text

  /** Why an operation raised. */
  datatype Failure =
    | IndexError                    // a list index out of range
    | ServiceError(message: string) // an AWS call failed

  /** The `location` of a retrieval result as the knowledge base returns it:
      its `type` and the `uri` under `s3Location` (`""` when either is absent). */
  datatype RawLocation = RawLocation(locType: Option<string>, s3Uri: string)

  /** A location after `_extract_location_info`: an S3 location split into
      bucket and key, or any other location, passed through untouched. */
  datatype Location =
    | S3(uri: string, bucket: string, key: string)
    | Unchanged(raw: RawLocation)

  predicate IsS3(loc: RawLocation) { loc.locType == Some("S3") }

  /** `_extract_location_info`: an S3 URI `s3://bucket/key...` is split on '/';
      the third piece is the bucket and the pieces after it, joined again, the
      key. A non-empty URI with fewer than three pieces raises on the index. */
  function ExtractLocationInfo(loc: RawLocation): (r: Result<Location, Failure>)
    ensures r.Err? <==> IsS3(loc) && loc.s3Uri != "" && Count(loc.s3Uri, '/') < 2
    ensures r.Err? ==> r.error == IndexError
    ensures !IsS3(loc) ==> r == Ok(Unchanged(loc))
    ensures r.Ok? && IsS3(loc) ==> r.value.S3? && r.value.uri == loc.s3Uri && '/' !in r.value.bucket
    ensures IsS3(loc) && loc.s3Uri == "" ==> r == Ok(S3("", "", ""))
  {
    if IsS3(loc) then
      if loc.s3Uri == "" then Ok(S3("", "", ""))
      else
        var parts := Split(loc.s3Uri, '/');
        if |parts| < 3 then Err(IndexError)
        else Ok(S3(loc.s3Uri, parts[2], Join(parts[3..], "/")))
    else Ok(Unchanged(loc))
  }

  /** For a URI `scheme//bucket/key` (no '/' in the scheme or the bucket) the
      bucket and the key come back exactly, so rejoining them gives the URI. */
  lemma S3UriRoundTrip(scheme: string, bucket: string, key: string)
    requires '/' !in scheme && '/' !in bucket
    ensures var uri := scheme + "//" + bucket + "/" + key;
      ExtractLocationInfo(RawLocation(Some("S3"), uri)) == Ok(S3(uri, bucket, key))
  {
    var uri := scheme + "//" + bucket + "/" + key;
    assert uri == scheme + ['/'] + ("" + ['/'] + (bucket + ['/'] + key));
    SplitAfter(scheme, "" + ['/'] + (bucket + ['/'] + key), '/');
    SplitAfter("", bucket + ['/'] + key, '/');
    SplitAfter(bucket, key, '/');
    var parts := Split(uri, '/');
    assert parts == [scheme, "", bucket] + Split(key, '/');
    assert parts[3..] == Split(key, '/');
    JoinSplit(key, '/');
  }

  /** Whatever S3 URI is split, its first two pieces, the bucket and (when
      there was a fourth piece) the key, joined with '/', give back the URI. */
  lemma ExtractedS3Rejoins(loc: RawLocation)
    requires IsS3(loc) && ExtractLocationInfo(loc).Ok? && loc.s3Uri != ""
    ensures var parts := Split(loc.s3Uri, '/');
      var l := ExtractLocationInfo(loc).value;
      && loc.s3Uri == parts[0] + "/" + parts[1] + "/" + l.bucket + (if |parts| > 3 then "/" + l.key else "")
      && (|parts| == 3 ==> l.key == "")
  {
    var parts := Split(loc.s3Uri, '/');
    JoinSplit(loc.s3Uri, '/');
    assert parts[1..][1..] == parts[2..];
    assert parts[2..][1..] == parts[3..];
    assert Join(parts, "/") == parts[0] + "/" + parts[1] + "/" + Join(parts[2..], "/");
  }

  /** One knowledge-base hit after `query_knowledge_base` has shaped it. */
  datatype KbResult = KbResult(content: string, location: Location)

  /** A source citation built by `_format_sources`. */
  datatype Citation = Citation(
    index: nat,
    contentPreview: string,
    location: Location,
    documentName: Option<string>)

  const PreviewLimit: nat := 200
  const Ellipsis: string := "..."

  /** The content, cut to its first 200 characters plus "..." when longer. */
  function Preview(content: string): (p: string)
    ensures |p| <= PreviewLimit + |Ellipsis|
    ensures |content| <= PreviewLimit ==> p == content
    ensures |content| > PreviewLimit ==> |p| == PreviewLimit + |Ellipsis| && p[PreviewLimit..] == Ellipsis
    ensures var n := if |content| < PreviewLimit then |content| else PreviewLimit;
      p[..n] == content[..n]
  {
    if |content| > PreviewLimit then content[..PreviewLimit] + Ellipsis else content
  }

  /** The file name of an S3 location: the key's last '/'-segment, present only
      for an S3 location with a non-empty key. */
  function DocumentName(loc: Location): (d: Option<string>)
    ensures d.Some? <==> loc.S3? && loc.key != ""
    ensures d.Some? ==> '/' !in d.value && |d.value| <= |loc.key|
    ensures d.Some? ==> loc.key[|loc.key| - |d.value|..] == d.value
    ensures d.Some? && |d.value| < |loc.key| ==> loc.key[|loc.key| - |d.value| - 1] == '/'
  {
    if loc.S3? && loc.key != "" then
      LastSegmentIsSuffix(loc.key, '/');
      Some(LastSegment(loc.key, '/'))
    else None
  }

  /** The citation for the result at 0-based `position`. */
  function CitationFor(result: KbResult, position: nat): Citation
  {
    Citation(position + 1, Preview(result.content), result.location, DocumentName(result.location))
  }

  /** `_format_sources`: one citation per result, in order, numbered from 1. */
  method FormatSources(results: seq<KbResult>) returns (sources: seq<Citation>)
    ensures |sources| == |results|
    ensures forall i :: 0 <= i < |results| ==> sources[i] == CitationFor(results[i], i)
    ensures forall i :: 0 <= i < |sources| ==> sources[i].index == i + 1
  {
    sources := [];
    var i := 0;
    while i < |results|
      invariant 0 <= i <= |results|
      invariant |sources| == i
      invariant forall j :: 0 <= j < i ==> sources[j] == CitationFor(results[j], j)
    {
      sources := sources + [CitationFor(results[i], i)];
      i := i + 1;
    }
  }

  /** At most this many snippets go into the prompt. */
  const MaxContextSnippets: nat := 3
  const SnippetSeparator: string := "\n\n"

  /** The first (at most three) context snippets, separated by a blank line. */
  function ContextText(context: seq<string>): (t: string)
    ensures context == [] ==> t == ""
    ensures |context| == 1 ==> t == context[0]
    ensures |context| == 2 ==> t == context[0] + "\n\n" + context[1]
    ensures |context| >= 3 ==> t == context[0] + "\n\n" + context[1] + "\n\n" + context[2]
    ensures forall i :: 0 <= i < |context| && i < MaxContextSnippets ==> Contains(t, context[i])
  {
    if context == [] then ""
    else
      var n := if |context| < MaxContextSnippets then |context| else MaxContextSnippets;
      JoinCarriesParts(context[..n], SnippetSeparator);
      JoinUpToThree(context[..n], SnippetSeparator);
      Join(context[..n], SnippetSeparator)
  }

  /** `sep.join` of one, two or three parts written out. */
  lemma JoinUpToThree(parts: seq<string>, sep: string)
    ensures |parts| == 1 ==> Join(parts, sep) == parts[0]
    ensures |parts| == 2 ==> Join(parts, sep) == parts[0] + sep + parts[1]
    ensures |parts| == 3 ==> Join(parts, sep) == parts[0] + sep + parts[1] + sep + parts[2]
  {
    if |parts| == 3 {
      assert parts[1..][1..] == [parts[2]];
      assert Join(parts[1..], sep) == parts[1] + sep + parts[2];
    }
  }

  /** Every part is contained in the join of the parts. */
  lemma JoinCarriesParts(parts: seq<string>, sep: string)
    ensures forall i :: 0 <= i < |parts| ==> Contains(Join(parts, sep), parts[i])
  {
    forall i | 0 <= i < |parts| ensures Contains(Join(parts, sep), parts[i]) {
      JoinHasPart(parts, sep, i);
      ContainsIff(Join(parts, sep), parts[i]);
    }
  }

  const ContextIntro: string :=
    "Based on the following context, please answer the question. If the context doesn't contain "
    + "enough information to answer the question, please say so and provide what information you can."
  const ContextPreamble: string := ContextIntro + "\n\nContext:\n"
  const NoContextPreamble: string :=
    "I don't have specific context to answer this question, but I'll provide what general information I can."

  /** The closing lines of every prompt. */
  function QuestionTail(query: string): string
  {
    "Question: " + query + "\n\nAnswer:"
  }

  /** The generation prompt of `generate_response`. */
  function Prompt(query: string, context: seq<string>): (p: string)
    ensures ContextText(context) != "" ==>
      p == ContextIntro + "\n\nContext:\n" + ContextText(context) + "\n\n" + "Question: " + query + "\n\nAnswer:"
    ensures ContextText(context) == "" ==>
      p == NoContextPreamble + "\n\n" + "Question: " + query + "\n\nAnswer:"
    ensures ContextText(context) != "" ==>
      |ContextPreamble| <= |p| && p[..|ContextPreamble|] == ContextPreamble
    ensures ContextText(context) == "" ==>
      |NoContextPreamble| <= |p| && p[..|NoContextPreamble|] == NoContextPreamble
  {
    var text := ContextText(context);
    if text != "" then
      Regroup(ContextIntro, "\n\nContext:\n", text, SnippetSeparator, "Question: ", query, "\n\nAnswer:");
      ContextPreamble + text + (SnippetSeparator + QuestionTail(query))
    else
      Regroup(NoContextPreamble, [], [], SnippetSeparator, "Question: ", query, "\n\nAnswer:");
      NoContextPreamble + SnippetSeparator + QuestionTail(query)
  }

  /** Regrouping the pieces of a prompt. */
  lemma Regroup(a: string, b: string, c: string, d: string, e: string, f: string, g: string)
    ensures (a + b) + c + (d + (e + f + g)) == a + b + c + d + e + f + g
  {
  }

  lemma {:induction false} JoinEmptyIff(parts: seq<string>, sep: string)
    requires sep != ""
    ensures Join(parts, sep) == "" <==> parts == [] || parts == [""]
  {
    if |parts| > 1 {
      assert |Join(parts, sep)| >= |sep|;
    }
  }

  /** The no-context template is used exactly when there is no context or
      only one empty snippet. */
  lemma NoContextIff(query: string, context: seq<string>)
    ensures ContextText(context) == "" <==> context == [] || context == [""]
  {
    if context != [] {
      var n := if |context| < MaxContextSnippets then |context| else MaxContextSnippets;
      JoinEmptyIff(context[..n], SnippetSeparator);
      if context[..n] == [""] {
        assert |context| == 1;
      }
    }
  }

  /** Snippets beyond the third never reach the prompt. */
  lemma PromptIgnoresExtraContext(query: string, context: seq<string>, extra: seq<string>)
    requires |context| >= MaxContextSnippets
    ensures Prompt(query, context + extra) == Prompt(query, context)
  {
    assert (context + extra)[..MaxContextSnippets] == context[..MaxContextSnippets];
  }

  lemma {:induction false} JoinHasPart(parts: seq<string>, sep: string, i: nat)
    requires i < |parts|
    ensures exists k :: OccursAt(Join(parts, sep), parts[i], k)
  {
    if |parts| == 1 {
      assert OccursAt(Join(parts, sep), parts[i], 0);
    } else if i == 0 {
      assert Join(parts, sep)[0..|parts[0]|] == parts[0];
      assert OccursAt(Join(parts, sep), parts[i], 0);
    } else {
      JoinHasPart(parts[1..], sep, i - 1);
      var k :| OccursAt(Join(parts[1..], sep), parts[1..][i - 1], k);
      var off := |parts[0]| + |sep|;
      var whole := Join(parts, sep);
      assert whole == parts[0] + sep + Join(parts[1..], sep);
      assert whole[off + k..off + k + |parts[i]|] == Join(parts[1..], sep)[k..k + |parts[i]|];
      assert OccursAt(whole, parts[i], off + k);
    }
  }

  /** A prompt built with context carries every one of the first three snippets. */
  lemma PromptCarriesSnippet(query: string, context: seq<string>, i: nat)
    requires i < |context| && i < MaxContextSnippets
    requires ContextText(context) != ""
    ensures Contains(Prompt(query, context), context[i])
  {
    var p := Prompt(query, context);
    var text := ContextText(context);
    var n := if |context| < MaxContextSnippets then |context| else MaxContextSnippets;
    assert context[..n][i] == context[i];
    JoinHasPart(context[..n], SnippetSeparator, i);
    var k :| OccursAt(text, context[i], k);
    OccursInConcat(ContextPreamble, text, SnippetSeparator + QuestionTail(query), context[i], k);
    ContainsIff(p, context[i]);
  }

  /** Every prompt, with or without context, ends by asking the question. */
  lemma PromptEndsWithQuestion(query: string, context: seq<string>)
    ensures var p := Prompt(query, context);
      |QuestionTail(query)| <= |p| && p[|p| - |QuestionTail(query)|..] == QuestionTail(query)
  {
    var text := ContextText(context);
    if text != "" {
      SuffixOfConcat(ContextPreamble + text + SnippetSeparator, QuestionTail(query));
      assert ContextPreamble + text + (SnippetSeparator + QuestionTail(query))
        == ContextPreamble + text + SnippetSeparator + QuestionTail(query);
    } else {
      SuffixOfConcat(NoContextPreamble + SnippetSeparator, QuestionTail(query));
    }
  }

  /** The request-body format, and the response path, chosen from the model id. */
  datatype Family = Claude | Titan | Jurassic | OtherModel

  /** The branches are tried in this order: "anthropic.claude", then
      "amazon.titan", then "ai21.j2". */
  function FamilyOf(modelId: string): (f: Family)
    ensures f == Claude <==> exists i :: OccursAt(modelId, "anthropic.claude", i)
    ensures f == Titan <==>
      && (forall i :: !OccursAt(modelId, "anthropic.claude", i))
      && (exists i :: OccursAt(modelId, "amazon.titan", i))
    ensures f == Jurassic <==>
      && (forall i :: !OccursAt(modelId, "anthropic.claude", i))
      && (forall i :: !OccursAt(modelId, "amazon.titan", i))
      && (exists i :: OccursAt(modelId, "ai21.j2", i))
  {
    ContainsIff(modelId, "anthropic.claude");
    ContainsIff(modelId, "amazon.titan");
    ContainsIff(modelId, "ai21.j2");
    if Contains(modelId, "anthropic.claude") then Claude
    else if Contains(modelId, "amazon.titan") then Titan
    else if Contains(modelId, "ai21.j2") then Jurassic
    else OtherModel
  }

  const AnthropicVersion: string := "bedrock-2023-05-31"
  const TitanTopP: real := 0.9

  /** The request bodies of the three formats (the JSON encoding is left out). */
  datatype RequestBody =
    | MessagesRequest(anthropicVersion: string, maxTokens: int, temperature: real, role: string, content: string)
    | TitanRequest(inputText: string, maxTokenCount: int, temperature: real, topP: real)
    | Ai21Request(prompt: string, maxTokens: int, temperature: real)

  /** The request body for a model id; any id outside the three known
      families falls back to the Claude messages format. */
  function RequestFor(modelId: string, prompt: string, maxTokens: int, temperature: real): (b: RequestBody)
    ensures b.MessagesRequest? <==> FamilyOf(modelId) in {Claude, OtherModel}
    ensures b.TitanRequest? <==> FamilyOf(modelId) == Titan
    ensures b.MessagesRequest? ==> b.content == prompt && b.role == "user" && b.anthropicVersion == AnthropicVersion
    ensures b.TitanRequest? ==> b.inputText == prompt && b.topP == TitanTopP
    ensures b.Ai21Request? ==> b.prompt == prompt
    ensures b.MessagesRequest? ==> b.maxTokens == maxTokens && b.temperature == temperature
    ensures b.TitanRequest? ==> b.maxTokenCount == maxTokens && b.temperature == temperature
    ensures b.Ai21Request? ==> b.maxTokens == maxTokens && b.temperature == temperature
  {
    match FamilyOf(modelId)
    case Titan => TitanRequest(prompt, maxTokens, temperature, TitanTopP)
    case Jurassic => Ai21Request(prompt, maxTokens, temperature)
    case _ => MessagesRequest(AnthropicVersion, maxTokens, temperature, "user", prompt)
  }

  /** A decoded model response, reduced to the paths the client reads:
      `content[0].text`, `results[0].outputText`, `completions[0].data.text`,
      and `str(body)` for an unknown model. A list that is absent is `None`. */
  datatype TextItem = TextItem(text: Option<string>)
  datatype Completion = Completion(data: Option<TextItem>)
  datatype ResponseBody = ResponseBody(
    content: Option<seq<TextItem>>,
    results: Option<seq<TextItem>>,
    completions: Option<seq<Completion>>,
    rendered: string)

  const NoResponse: string := "No response generated"

  /** `body.get(list, [{}])[0].get(field, default)`: an absent list reads as one
      empty item; a present but empty list raises. */
  function FirstText(items: Option<seq<TextItem>>): (r: Result<string, Failure>)
    ensures r.Err? <==> items == Some([])
    ensures items.None? ==> r == Ok(NoResponse)
    ensures items.Some? && items.value != [] ==> r == Ok(items.value[0].text.GetOr(NoResponse))
  {
    match items
    case None => Ok(NoResponse)
    case Some(xs) => if xs == [] then Err(IndexError) else Ok(xs[0].text.GetOr(NoResponse))
  }

  /** The same for `completions[0].data.text`, where `data` may be absent too. */
  function FirstCompletionText(items: Option<seq<Completion>>): (r: Result<string, Failure>)
    ensures r.Err? <==> items == Some([])
    ensures items.None? ==> r == Ok(NoResponse)
    ensures items.Some? && items.value != [] && items.value[0].data.None? ==> r == Ok(NoResponse)
    ensures items.Some? && items.value != [] && items.value[0].data.Some? ==>
      r == Ok(items.value[0].data.value.text.GetOr(NoResponse))
  {
    match items
    case None => Ok(NoResponse)
    case Some(xs) =>
      if xs == [] then Err(IndexError)
      else Ok(xs[0].data.GetOr(TextItem(None)).text.GetOr(NoResponse))
  }

  /** The response text, read along the same branch order as the request. */
  function ResponseText(modelId: string, body: ResponseBody): (r: Result<string, Failure>)
    ensures r.Err? <==>
      || (FamilyOf(modelId) == Claude && body.content == Some([]))
      || (FamilyOf(modelId) == Titan && body.results == Some([]))
      || (FamilyOf(modelId) == Jurassic && body.completions == Some([]))
    ensures FamilyOf(modelId) == OtherModel ==> r == Ok(body.rendered)
    ensures FamilyOf(modelId) == Claude ==> r == FirstText(body.content)
    ensures FamilyOf(modelId) == Titan ==> r == FirstText(body.results)
    ensures FamilyOf(modelId) == Jurassic ==> r == FirstCompletionText(body.completions)
  {
    match FamilyOf(modelId)
    case Claude => FirstText(body.content)
    case Titan => FirstText(body.results)
    case Jurassic => FirstCompletionText(body.completions)
    case OtherModel => Ok(body.rendered)
  }

  /** The result of `generate_response` (timings and timestamps left out). */
  datatype Generation = Generation(
    response: string,
    modelId: string,
    temperature: real,
    maxTokens: int,
    contextUsed: nat,
    promptLength: nat)

  /** The decoded answer of the model invocation `generate_response` makes. */
  function Invocation(
    query: string, context: seq<string>, modelId: string, temperature: real, maxTokens: int,
    invoke: (string, RequestBody) -> Result<ResponseBody, Failure>): Result<ResponseBody, Failure>
  {
    invoke(modelId, RequestFor(modelId, Prompt(query, context), maxTokens, temperature))
  }

  /** `generate_response`: `invoke` stands for the model invocation and the
      decoding of its answer. It succeeds exactly when the invocation does and
      the text can be read from the answer; the response is that text stripped. */
  function GenerateResponse(
    query: string, context: seq<string>, modelId: string, temperature: real, maxTokens: int,
    invoke: (string, RequestBody) -> Result<ResponseBody, Failure>): (r: Result<Generation, Failure>)
    ensures var reply := Invocation(query, context, modelId, temperature, maxTokens, invoke);
      r.Ok? <==> reply.Ok? && ResponseText(modelId, reply.value).Ok?
    ensures var reply := Invocation(query, context, modelId, temperature, maxTokens, invoke);
      r.Ok? && reply.Ok? && ResponseText(modelId, reply.value).Ok? ==>
        r.value.response == Strip(ResponseText(modelId, reply.value).value)
    ensures r.Ok? ==> r.value.modelId == modelId && r.value.temperature == temperature && r.value.maxTokens == maxTokens
    ensures r.Ok? ==> r.value.contextUsed == |context|
    ensures r.Ok? ==> r.value.promptLength == |Prompt(query, context)|
    ensures r.Ok? ==> (r.value.response == [] ||
      (!IsSpace(r.value.response[0]) && !IsSpace(r.value.response[|r.value.response| - 1])))
    ensures Invocation(query, context, modelId, temperature, maxTokens, invoke).Err? ==> r.Err?
  {
    var reply := Invocation(query, context, modelId, temperature, maxTokens, invoke);
    if reply.Err? then Err(reply.error)
    else
      var text := ResponseText(modelId, reply.value);
      if text.Err? then Err(text.error)
      else Ok(Generation(Strip(text.value), modelId, temperature, maxTokens, |context|, |Prompt(query, context)|))
  }

  /** A raw retrieval hit: `content.text` (`""` when absent) and its location. */
  datatype RetrievalItem = RetrievalItem(text: string, location: RawLocation)

  /** The result of `query_knowledge_base` (timings left out). */
  datatype KbQuery = KbQuery(query: string, results: seq<KbResult>, totalResults: nat, searchType: string)

  /** `query_knowledge_base`: `retrieved` stands for the retrieve call. Each hit
      keeps its text and gets its location extracted; the first extraction that
      raises aborts the query. */
  method QueryKnowledgeBase(query: string, searchType: string, retrieved: Result<seq<RetrievalItem>, Failure>)
    returns (r: Result<KbQuery, Failure>)
    ensures retrieved.Err? ==> r == Err(retrieved.error)
    ensures r.Ok? ==> retrieved.Ok? && r.value.query == query && r.value.searchType == searchType
    ensures r.Ok? ==> r.value.totalResults == |r.value.results| == |retrieved.value|
    ensures r.Ok? ==> forall i :: 0 <= i < |retrieved.value| ==>
      r.value.results[i].content == retrieved.value[i].text &&
      ExtractLocationInfo(retrieved.value[i].location) == Ok(r.value.results[i].location)
    ensures retrieved.Ok? && r.Err? ==> (r.error == IndexError &&
      exists i :: 0 <= i < |retrieved.value| && ExtractLocationInfo(retrieved.value[i].location).Err?)
    ensures retrieved.Ok? && (forall i :: 0 <= i < |retrieved.value| ==> ExtractLocationInfo(retrieved.value[i].location).Ok?) ==> r.Ok?
  {
    if retrieved.Err? {
      return Err(retrieved.error);
    }
    var items := retrieved.value;
    var results: seq<KbResult> := [];
    var i := 0;
    while i < |items|
      invariant 0 <= i <= |items|
      invariant |results| == i
      invariant forall j :: 0 <= j < i ==>
        results[j].content == items[j].text && ExtractLocationInfo(items[j].location) == Ok(results[j].location)
    {
      var loc := ExtractLocationInfo(items[i].location);
      if loc.Err? {
        return Err(loc.error);
      }
      results := results + [KbResult(items[i].text, loc.value)];
      i := i + 1;
    }
    r := Ok(KbQuery(query, results, |results|, searchType));
  }

  /** The text of every hit, in order: the context `query_and_generate` passes on. */
  function Contents(items: seq<RetrievalItem>): (texts: seq<string>)
    ensures |texts| == |items|
    ensures forall i :: 0 <= i < |items| ==> texts[i] == items[i].text
  {
    seq(|items|, i requires 0 <= i < |items| => items[i].text)
  }

  /** The metadata of a combined answer (timings and timestamp left out). */
  datatype RagMetadata = RagMetadata(totalResults: nat, modelId: string, searchType: string, temperature: real)

  /** The combined answer of `query_and_generate`. */
  datatype RagResponse = RagResponse(query: string, response: string, sources: seq<Citation>, metadata: RagMetadata)

  /** `query_and_generate`: retrieve, pass every hit's content as context,
      generate, and cite every hit. Any failure propagates. */
  method QueryAndGenerate(
    query: string, modelId: string, temperature: real, maxTokens: int, searchType: string,
    retrieved: Result<seq<RetrievalItem>, Failure>,
    invoke: (string, RequestBody) -> Result<ResponseBody, Failure>)
    returns (r: Result<RagResponse, Failure>)
    ensures retrieved.Err? ==> r.Err?
    ensures r.Ok? <==>
      && retrieved.Ok?
      && (forall i :: 0 <= i < |retrieved.value| ==> ExtractLocationInfo(retrieved.value[i].location).Ok?)
      && GenerateResponse(query, Contents(retrieved.value), modelId, temperature, maxTokens, invoke).Ok?
    ensures r.Ok? ==> retrieved.Ok? && |r.value.sources| == |retrieved.value| == r.value.metadata.totalResults
    ensures r.Ok? ==> forall i :: 0 <= i < |r.value.sources| ==>
      && ExtractLocationInfo(retrieved.value[i].location).Ok?
      && r.value.sources[i] ==
        CitationFor(KbResult(retrieved.value[i].text, ExtractLocationInfo(retrieved.value[i].location).value), i)
    ensures r.Ok? ==> forall i :: 0 <= i < |r.value.sources| ==>
      r.value.sources[i].index == i + 1 &&
      r.value.sources[i].contentPreview == Preview(retrieved.value[i].text)
    ensures r.Ok? ==>
      var g := GenerateResponse(query, Contents(retrieved.value), modelId, temperature, maxTokens, invoke);
      g.Ok? && r.value.response == g.value.response
    ensures r.Ok? ==> r.value.query == query
    ensures r.Ok? ==> r.value.metadata.modelId == modelId && r.value.metadata.searchType == searchType
    ensures r.Ok? ==> r.value.metadata.temperature == temperature
  {
    var kb := QueryKnowledgeBase(query, searchType, retrieved);
    if kb.Err? {
      return Err(kb.error);
    }
    var results := kb.value.results;
    var context := seq(|results|, i requires 0 <= i < |results| => results[i].content);
    assert context == Contents(retrieved.value);
    var generation := GenerateResponse(query, context, modelId, temperature, maxTokens, invoke);
    if generation.Err? {
      return Err(generation.error);
    }
    var sources := FormatSources(results);
    CitationsOfHits(retrieved.value, results, sources);
    r := Ok(RagResponse(query, generation.value.response, sources,
      RagMetadata(kb.value.totalResults, modelId, searchType, temperature)));
  }

  /** Citations built from the extracted results are the citations of the
      hits themselves, each with the hit's extracted location. */
  lemma CitationsOfHits(items: seq<RetrievalItem>, results: seq<KbResult>, sources: seq<Citation>)
    requires |results| == |items| == |sources|
    requires forall i :: 0 <= i < |items| ==>
      results[i].content == items[i].text && ExtractLocationInfo(items[i].location) == Ok(results[i].location)
    requires forall i :: 0 <= i < |results| ==> sources[i] == CitationFor(results[i], i)
    ensures forall i :: 0 <= i < |sources| ==>
      && ExtractLocationInfo(items[i].location).Ok?
      && sources[i] == CitationFor(KbResult(items[i].text, ExtractLocationInfo(items[i].location).value), i)
      && sources[i].index == i + 1
      && sources[i].contentPreview == Preview(items[i].text)
  {
    forall i | 0 <= i < |sources|
      ensures ExtractLocationInfo(items[i].location).Ok?
      ensures sources[i] == CitationFor(KbResult(items[i].text, ExtractLocationInfo(items[i].location).value), i)
    {
      assert results[i] == KbResult(items[i].text, ExtractLocationInfo(items[i].location).value);
    }
  }

  /** A model summary as listed by the service; absent fields are `None`. */
  datatype RawModelSummary = RawModelSummary(
    modelId: Option<string>,
    modelName: Option<string>,
    providerName: Option<string>,
    inputModalities: Option<seq<string>>,
    outputModalities: Option<seq<string>>,
    responseStreamingSupported: Option<bool>,
    customizationsSupported: Option<seq<string>>,
    inferenceTypesSupported: Option<seq<string>>)

  /** The model information kept by `list_available_models`. */
  datatype ModelInfo = ModelInfo(
    modelId: string,
    modelName: string,
    providerName: string,
    inputModalities: seq<string>,
    outputModalities: seq<string>,
    responseStreamingSupported: bool,
    customizationsSupported: seq<string>,
    inferenceTypesSupported: seq<string>)

  /** One summary as model information: the id, name and provider are required
      (a missing one raises), the rest default to empty or false. */
  function ToModelInfo(m: RawModelSummary): Option<ModelInfo>
  {
    if m.modelId.None? || m.modelName.None? || m.providerName.None? then None
    else Some(ModelInfo(m.modelId.value, m.modelName.value, m.providerName.value,
      m.inputModalities.GetOr([]), m.outputModalities.GetOr([]),
      m.responseStreamingSupported.GetOr(false),
      m.customizationsSupported.GetOr([]), m.inferenceTypesSupported.GetOr([])))
  }

  /** Every summary converted, or `None` when any of them raises. */
  function ToModelInfos(raw: seq<RawModelSummary>): (r: Option<seq<ModelInfo>>)
    ensures r.Some? <==> forall i :: 0 <= i < |raw| ==> ToModelInfo(raw[i]).Some?
    ensures r.Some? ==> (|r.value| == |raw| &&
      forall i :: 0 <= i < |raw| ==> ToModelInfo(raw[i]) == Some(r.value[i]))
  {
    if raw == [] then Some([])
    else
      match (ToModelInfo(raw[0]), ToModelInfos(raw[1..]))
      case (Some(m), Some(ms)) => Some([m] + ms)
      case _ => None
  }

  /** `get_model_info`'s search: the first model with the id, if any. */
  method FindModel(models: seq<ModelInfo>, modelId: string) returns (r: Option<ModelInfo>)
    ensures r.None? <==> forall i :: 0 <= i < |models| ==> models[i].modelId != modelId
    ensures r.Some? ==> exists i :: (0 <= i < |models| && models[i] == r.value &&
      r.value.modelId == modelId && forall j :: 0 <= j < i ==> models[j].modelId != modelId)
  {
    var i := 0;
    while i < |models|
      invariant 0 <= i <= |models|
      invariant forall j :: 0 <= j < i ==> models[j].modelId != modelId
    {
      if models[i].modelId == modelId {
        return Some(models[i]);
      }
      i := i + 1;
    }
    return None;
  }

  /** The client's mutable state: the model cache (`_model_cache`), whose
      `'models'` entry is either absent or the cached list. */
  class Client {
    var modelCache: Option<seq<ModelInfo>>

    constructor()
      ensures modelCache == None
    {
      modelCache := None;
    }

    /** `list_available_models`: a cached list is returned as it is and
        `fetched` (the listing call) is not consulted. Otherwise the listing is
        converted and cached; a failure returns [] and leaves the cache unset. */
    method ListAvailableModels(fetched: Result<seq<RawModelSummary>, Failure>) returns (models: seq<ModelInfo>)
      modifies this
      ensures old(modelCache).Some? ==> models == old(modelCache).value && modelCache == old(modelCache)
      ensures old(modelCache).None? && fetched.Ok? && ToModelInfos(fetched.value).Some? ==>
        models == ToModelInfos(fetched.value).value && modelCache == Some(models)
      ensures old(modelCache).None? && (fetched.Err? || ToModelInfos(fetched.value).None?) ==>
        models == [] && modelCache == None
    {
      if modelCache.Some? {
        return modelCache.value;
      }
      if fetched.Err? {
        return [];
      }
      var raw := fetched.value;
      var built: seq<ModelInfo> := [];
      var i := 0;
      while i < |raw|
        invariant 0 <= i <= |raw|
        invariant modelCache == None
        invariant ToModelInfos(raw[..i]).Some? && ToModelInfos(raw[..i]).value == built
      {
        var info := ToModelInfo(raw[i]);
        if info.None? {
          assert !ToModelInfo(raw[i]).Some?;
          assert ToModelInfos(raw).None?;
          return [];
        }
        ToModelInfosPrefix(raw, i + 1);
        built := built + [info.value];
        i := i + 1;
      }
      assert raw[..i] == raw;
      modelCache := Some(built);
      models := built;
    }

    /** `get_model_info`: the first listed model with the id, or `None`. */
    method GetModelInfo(modelId: string, fetched: Result<seq<RawModelSummary>, Failure>) returns (r: Option<ModelInfo>)
      modifies this
      ensures old(modelCache).Some? ==> modelCache == old(modelCache)
      ensures old(modelCache).None? && fetched.Ok? && ToModelInfos(fetched.value).Some? ==>
        modelCache == ToModelInfos(fetched.value)
      ensures old(modelCache).None? && (fetched.Err? || ToModelInfos(fetched.value).None?) ==> modelCache == None
      ensures r.Some? ==> r.value.modelId == modelId && modelCache.Some? && r.value in modelCache.value
      ensures r.Some? ==> exists i :: (0 <= i < |modelCache.value| && modelCache.value[i] == r.value &&
        forall j :: 0 <= j < i ==> modelCache.value[j].modelId != modelId)
      ensures r.None? <==> modelCache.None? || forall m :: m in modelCache.value ==> m.modelId != modelId
    {
      var models := ListAvailableModels(fetched);
      r := FindModel(models, modelId);
    }
  }

  /** Converting a prefix succeeds exactly when every summary in it converts,
      and then one more converted summary extends it by one. */
  lemma {:induction false} ToModelInfosPrefix(raw: seq<RawModelSummary>, n: nat)
    requires n <= |raw|
    ensures ToModelInfos(raw[..n]).Some? <==> forall i :: 0 <= i < n ==> ToModelInfo(raw[i]).Some?
    ensures n > 0 && ToModelInfos(raw[..n]).Some? ==>
      ToModelInfos(raw[..n]).value == ToModelInfos(raw[..n - 1]).value + [ToModelInfo(raw[n - 1]).value]
  {
    if n > 0 {
      var p := raw[..n];
      var q := raw[..n - 1];
      assert p == q + [raw[n - 1]];
      if ToModelInfos(p).Some? {
        var ms := ToModelInfos(p).value;
        assert ToModelInfos(q).Some?;
        var qs := ToModelInfos(q).value;
        assert |ms| == |qs| + 1;
        forall i | 0 <= i < n - 1 ensures ms[i] == qs[i] {
          assert p[i] == q[i];
        }
        assert ms == qs + [ToModelInfo(raw[n - 1]).value];
      }
    }
  }
}
