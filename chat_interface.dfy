/** The chat transcript of the frontend: the message list kept in the session,
    the operations that append to it, annotate it, regenerate an answer in it
    and replace it, and the model list offered beside it. The retrieval-and-
    generation call and the clock are inputs. */
module ChatInterface {
  import opened Common
  import opened Text
  import BedrockClient
  import ConfigLoader

  /** The `metadata` entry of an assistant message: `{}` when hidden. */
  datatype MetadataField = EmptyMetadata | Metadata(value: BedrockClient.RagMetadata)

  /** One message of the transcript. Keys a message does not carry are `None`
      (`error` is absent, hence false, on every message but a failure reply). */
  datatype Message = Message(
    role: string,
    content: string,
    timestamp: string,
    sources: Option<seq<BedrockClient.Citation>>,
    metadata: Option<MetadataField>,
    error: bool,
    feedback: Option<string>,
    feedbackTimestamp: Option<string>)

  /** The keyword arguments of `_generate_response`. */
  datatype ResponseOptions = ResponseOptions(
    modelId: string,
    maxResults: nat,
    searchType: string,
    temperature: real,
    maxTokens: nat,
    showSources: bool,
    showMetadata: bool)

  const DefaultModelId: string := "anthropic.claude-3-5-sonnet-20240620-v1:0"

  /** The options `_regenerate_response` passes, which are also the defaults
      `_generate_response` falls back on. */
  const RegenerateOptions: ResponseOptions :=
    ResponseOptions(DefaultModelId, 5, "HYBRID", 0.7, 4096, true, false)

  /** The default model is dispatched in the messages format. */
  lemma DefaultModelIsClaude()
    ensures BedrockClient.FamilyOf(DefaultModelId) == BedrockClient.Claude
  {
    assert OccursAt(DefaultModelId, "anthropic.claude", 0);
    ContainsIff(DefaultModelId, "anthropic.claude");
  }

  /** The second fallback model is dispatched in the messages format. */
  lemma HaikuModelIsClaude()
    ensures BedrockClient.FamilyOf(FallbackModelIds[1]) == BedrockClient.Claude
  {
    var id := FallbackModelIds[1];
    assert OccursAt(id, "anthropic.claude", 0);
    ContainsIff(id, "anthropic.claude");
  }

  /** The third fallback model is dispatched in the Titan format. */
  lemma ExpressModelIsTitan()
    ensures BedrockClient.FamilyOf(FallbackModelIds[2]) == BedrockClient.Titan
  {
    var id := FallbackModelIds[2];
    assert OccursAt(id, "amazon.titan", 0);
    ContainsIff(id, "amazon.titan");
    assert 'h' !in id;
    MissingCharNotContained(id, "anthropic.claude", 3);
  }

  /** `query_and_generate` as the chat sees it: the combined answer, or the
      text of the exception it raised. */
  type RagCall = (string, ResponseOptions) -> Result<BedrockClient.RagResponse, string>

  const ErrorPrefix: string := "I apologize, but I encountered an error while processing your request: "

  /** The user's message as appended to the transcript. */
  function UserMessage(content: string, now: string): (m: Message)
    ensures m.role == "user" && m.content == content && m.timestamp == now && !m.error
    ensures m.sources.None? && m.metadata.None? && m.feedback.None? && m.feedbackTimestamp.None?
  {
    Message("user", content, now, None, None, false, None, None)
  }

  /** The assistant message `_generate_response` appends for one outcome: the
      answer with its sources and metadata shown only when asked for, or an
      apology carrying the exception text and flagged as an error. */
  function AssistantReply(outcome: Result<BedrockClient.RagResponse, string>, options: ResponseOptions, now: string): (m: Message)
    ensures m.role == "assistant" && m.timestamp == now && m.feedback.None? && m.feedbackTimestamp.None?
    ensures m.error <==> outcome.Err?
    ensures outcome.Err? ==>
      && m.content == ErrorPrefix + outcome.error
      && m.content[..|ErrorPrefix|] == ErrorPrefix
      && m.sources.None? && m.metadata.None?
    ensures outcome.Ok? ==>
      && m.content == outcome.value.response
      && m.sources.Some? && m.metadata.Some?
      && (options.showSources ==> m.sources.value == outcome.value.sources)
      && (!options.showSources ==> m.sources.value == [])
      && (m.metadata.value.Metadata? <==> options.showMetadata)
      && (options.showMetadata ==> m.metadata.value.value == outcome.value.metadata)
  {
    match outcome
    case Ok(result) =>
      Message("assistant", result.response, now,
        Some(if options.showSources then result.sources else []),
        Some(if options.showMetadata then Metadata(result.metadata) else EmptyMetadata),
        false, None, None)
    case Err(message) =>
      Message("assistant", ErrorPrefix + message, now, None, None, true, None, None)
  }

  /** A message with the user's feedback attached; nothing else about it changes. */
  function WithFeedback(m: Message, feedbackType: string, now: string): (r: Message)
    ensures r.feedback == Some(feedbackType) && r.feedbackTimestamp == Some(now)
    ensures r.(feedback := m.feedback, feedbackTimestamp := m.feedbackTimestamp) == m
  {
    m.(feedback := Some(feedbackType), feedbackTimestamp := Some(now))
  }

  /** Python's `messages[i]` for a possibly negative index: the position it
      denotes, or `None` when it raises `IndexError`. */
  function Position(i: int, length: nat): (p: Option<nat>)
    ensures p.Some? <==> -(length as int) <= i < length
    ensures p.Some? ==> p.value < length && (p.value == i || p.value == length + i)
  {
    if 0 <= i < length then Some(i)
    else if -(length as int) <= i < 0 then Some(length + i)
    else None
  }

  /** The text models among a listing, in order: the ids of those whose output
      modalities include "TEXT". */
  function TextModelIds(models: seq<BedrockClient.ModelInfo>): seq<string>
  {
    if models == [] then []
    else
      (if "TEXT" in models[0].outputModalities then [models[0].modelId] else [])
      + TextModelIds(models[1..])
  }

  /** An id is offered exactly when some text model carries it. */
  lemma {:induction false} TextModelIdsIff(models: seq<BedrockClient.ModelInfo>, id: string)
    ensures id in TextModelIds(models) <==>
      exists i :: 0 <= i < |models| && "TEXT" in models[i].outputModalities && models[i].modelId == id
  {
    if models != [] {
      TextModelIdsIff(models[1..], id);
      if id in TextModelIds(models[1..]) {
        var i :| 0 <= i < |models[1..]| && "TEXT" in models[1..][i].outputModalities && models[1..][i].modelId == id;
        assert models[i + 1] == models[1..][i];
      }
      if exists i :: 0 <= i < |models| && "TEXT" in models[i].outputModalities && models[i].modelId == id {
        var i :| 0 <= i < |models| && "TEXT" in models[i].outputModalities && models[i].modelId == id;
        if i > 0 {
          assert models[1..][i - 1] == models[i];
        }
      }
    }
  }

  /** Filtering distributes over concatenation, so the list is built in order. */
  lemma {:induction false} TextModelIdsAppend(a: seq<BedrockClient.ModelInfo>, b: seq<BedrockClient.ModelInfo>)
    ensures TextModelIds(a + b) == TextModelIds(a) + TextModelIds(b)
  {
    if a == [] {
      assert a + b == b;
    } else {
      assert (a + b)[0] == a[0];
      assert (a + b)[1..] == a[1..] + b;
      TextModelIdsAppend(a[1..], b);
    }
  }

  const FallbackModelIds: seq<string> := [
    DefaultModelId,
    "anthropic.claude-3-haiku-20240307-v1:0",
    "amazon.titan-text-express-v1"]

  /** The models the chat offers for a listing, or for the exception raised
      while listing. */
  function ModelChoices(listed: Result<seq<BedrockClient.ModelInfo>, string>): (ids: seq<string>)
    ensures ids != []
    ensures listed.Err? ==> ids == [DefaultModelId]
    ensures listed.Ok? && TextModelIds(listed.value) != [] ==> ids == TextModelIds(listed.value)
    ensures listed.Ok? && TextModelIds(listed.value) == [] ==> ids == FallbackModelIds
  {
    match listed
    case Err(_) => [DefaultModelId]
    case Ok(models) =>
      var text := TextModelIds(models);
      if text == [] then FallbackModelIds else text
  }

  /** `_get_available_models`: the filtering loop over the listing. */
  method GetAvailableModels(listed: Result<seq<BedrockClient.ModelInfo>, string>) returns (ids: seq<string>)
    ensures ids == ModelChoices(listed)
    ensures listed.Ok? ==> forall id :: id in ids ==> (id in FallbackModelIds ||
      exists i :: 0 <= i < |listed.value| && "TEXT" in listed.value[i].outputModalities && listed.value[i].modelId == id)
  {
    if listed.Err? {
      return [DefaultModelId];
    }
    var models := listed.value;
    var textModels: seq<string> := [];
    var i := 0;
    while i < |models|
      invariant 0 <= i <= |models|
      invariant textModels == TextModelIds(models[..i])
    {
      TextModelIdsAppend(models[..i], [models[i]]);
      assert models[..i + 1] == models[..i] + [models[i]];
      if "TEXT" in models[i].outputModalities {
        textModels := textModels + [models[i].modelId];
      }
      i := i + 1;
    }
    assert models[..i] == models;
    if textModels == [] {
      textModels := FallbackModelIds;
    }
    ids := textModels;
    forall id | id in ids && id !in FallbackModelIds
      ensures exists j :: 0 <= j < |models| && "TEXT" in models[j].outputModalities && models[j].modelId == id
    {
      TextModelIdsIff(models, id);
    }
  }

  /** An imported conversation; either key may be absent. */
  datatype Conversation = Conversation(
    messages: Option<seq<Message>>,
    userPreferences: Option<map<string, ConfigLoader.Value>>)

  /** The preferences a fresh session starts with. */
  const DefaultPreferences: map<string, ConfigLoader.Value> := map[
    "theme" := ConfigLoader.Str("light"),
    "auto_scroll" := ConfigLoader.Bool(true),
    "show_source_citations" := ConfigLoader.Bool(true),
    "max_results" := ConfigLoader.Int(5),
    "temperature" := ConfigLoader.Real(0.7)]

  /** The session state the chat reads and changes. */
  class Session {
    var messages: seq<Message>
    var userPreferences: map<string, ConfigLoader.Value>

    /** A fresh session: no messages, and the five default preferences. */
    constructor()
      ensures messages == []
      ensures userPreferences.Keys == {"theme", "auto_scroll", "show_source_citations", "max_results", "temperature"}
      ensures userPreferences["theme"] == ConfigLoader.Str("light")
      ensures userPreferences["auto_scroll"] == ConfigLoader.Bool(true)
      ensures userPreferences["show_source_citations"] == ConfigLoader.Bool(true)
      ensures userPreferences["max_results"] == ConfigLoader.Int(5)
      ensures userPreferences["temperature"] == ConfigLoader.Real(0.7)
    {
      messages := [];
      userPreferences := DefaultPreferences;
    }

    /** `_generate_response`: exactly one assistant message is appended, on
        success and on failure alike. */
    method GenerateResponse(query: string, options: ResponseOptions, rag: RagCall, now: string)
      modifies this
      ensures messages == old(messages) + [AssistantReply(rag(query, options), options, now)]
      ensures userPreferences == old(userPreferences)
    {
      var outcome := rag(query, options);
      messages := messages + [AssistantReply(outcome, options, now)];
    }

    /** `_handle_user_message`: the user's message, then the reply to it. */
    method HandleUserMessage(message: string, options: ResponseOptions, rag: RagCall, sentAt: string, repliedAt: string)
      modifies this
      ensures messages == old(messages) + [UserMessage(message, sentAt), AssistantReply(rag(message, options), options, repliedAt)]
      ensures |messages| == |old(messages)| + 2
      ensures userPreferences == old(userPreferences)
    {
      messages := messages + [UserMessage(message, sentAt)];
      GenerateResponse(message, options, rag, repliedAt);
    }

    /** The chat form after a rerun: "Clear Chat" empties the transcript and
        restarts the page; otherwise "Send" with text that is not blank sends
        the stripped text. */
    method SubmitChatInput(
      input: string, sendPressed: bool, clearPressed: bool,
      options: ResponseOptions, rag: RagCall, sentAt: string, repliedAt: string)
      modifies this
      ensures clearPressed ==> messages == []
      ensures !clearPressed && sendPressed && Strip(input) != "" ==>
        messages == old(messages) + [UserMessage(Strip(input), sentAt),
                                     AssistantReply(rag(Strip(input), options), options, repliedAt)]
      ensures !clearPressed && !(sendPressed && Strip(input) != "") ==> messages == old(messages)
      ensures userPreferences == old(userPreferences)
    {
      if clearPressed {
        messages := [];
        return;
      }
      if sendPressed && Strip(input) != "" {
        HandleUserMessage(Strip(input), options, rag, sentAt, repliedAt);
      }
    }

    /** `_handle_feedback`: an index below the length (negative ones counting
        from the end) annotates that message alone; one past the end is
        ignored; one before the start raises `IndexError`. */
    method HandleFeedback(index: int, feedbackType: string, now: string) returns (raised: bool)
      modifies this
      ensures raised <==> index < -(|old(messages)| as int)
      ensures |messages| == |old(messages)|
      ensures !raised && index < |old(messages)| ==>
        var p := Position(index, |old(messages)|).value;
        messages == old(messages)[p := WithFeedback(old(messages)[p], feedbackType, now)]
      ensures raised || index >= |old(messages)| ==> messages == old(messages)
      ensures userPreferences == old(userPreferences)
    {
      raised := false;
      if index < |messages| {
        var p := Position(index, |messages|);
        if p.None? {
          raised := true;
          return;
        }
        messages := messages[p.value := WithFeedback(messages[p.value], feedbackType, now)];
      }
    }

    /** `_regenerate_response`: when the message at `index` follows a user
        message, it is removed and a fresh reply to that user message is
        appended at the end, with the fixed options. */
    method RegenerateResponse(index: int, rag: RagCall, now: string)
      modifies this
      ensures |messages| == |old(messages)|
      ensures 0 < index < |old(messages)| && old(messages)[index - 1].role == "user" ==>
        messages == old(messages)[..index] + old(messages)[index + 1..] +
          [AssistantReply(rag(old(messages)[index - 1].content, RegenerateOptions), RegenerateOptions, now)]
      ensures !(0 < index < |old(messages)| && old(messages)[index - 1].role == "user") ==>
        messages == old(messages)
      ensures userPreferences == old(userPreferences)
    {
      if 0 < index < |messages| {
        var userMessage := messages[index - 1];
        if userMessage.role == "user" {
          messages := messages[..index] + messages[index + 1..];
          GenerateResponse(userMessage.content, RegenerateOptions, rag, now);
        }
      }
    }

    /** `import_conversation`: the transcript is replaced, and the preferences
        are updated only when the conversation carries some. */
    method ImportConversation(data: Conversation)
      modifies this
      ensures messages == data.messages.GetOr([])
      ensures data.userPreferences.None? ==> userPreferences == old(userPreferences)
      ensures data.userPreferences.Some? ==>
        && userPreferences.Keys == old(userPreferences).Keys + data.userPreferences.value.Keys
        && (forall k :: k in data.userPreferences.value ==> userPreferences[k] == data.userPreferences.value[k])
        && (forall k :: k in old(userPreferences) && k !in data.userPreferences.value ==>
              userPreferences[k] == old(userPreferences)[k])
    {
      messages := data.messages.GetOr([]);
      if data.userPreferences.Some? {
        userPreferences := userPreferences + data.userPreferences.value;
      }
    }
  }
}
