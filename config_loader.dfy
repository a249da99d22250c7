/** The configuration loader of the frontend: environment variables first,
    the parameter store on top, then local-development placeholders, type
    coercion and validation applied to the dictionary in place. The parameter
    store and the JSON decoder are inputs. */
module ConfigLoader {
  import opened Common
  import opened Text

  /** A configuration value as Python holds it after environment parsing or
      JSON decoding; a float is a `real` (rounding is not modelled). */
  datatype Value =
    | Null
    | Str(s: string)
    | Int(i: int)
    | Real(x: real)
    | Bool(b: bool)
    | List(items: seq<Value>)
    | Dict(entries: map<string, Value>)

  /** Python truthiness: `None`, `""`, `0`, `False`, `[]` and `{}` are false. */
  predicate Truthy(v: Value)
    ensures Truthy(v) <==> v !in {Null, Str(""), Int(0), Real(0.0), Bool(false), List([]), Dict(map[])}
  {
    match v
    case Null => false
    case Str(s) => s != ""
    case Int(i) => i != 0
    case Real(x) => x != 0.0
    case Bool(b) => b
    case List(xs) => xs != []
    case Dict(m) => m != map[]
  }

  /** A configuration key. The keys the loader knows by name are constructors;
      any other key read from the parameter store is `OtherKey`. */
  datatype Key =
    | KnowledgeBaseId | CollectionEndpoint | DocumentsBucket | Region | Environment
    | EmbeddingModel | IndexName | VectorDimensions | ChunkSize | ChunkOverlap
    | MaxDocumentSize | SupportedFormats | EnableOcr | EnableWebScraping
    | OtherKey(name: string)

  /** The key's name in the dictionary. */
  function KeyName(k: Key): string
  {
    match k
    case KnowledgeBaseId => "knowledgeBaseId"
    case CollectionEndpoint => "collectionEndpoint"
    case DocumentsBucket => "documentsBucket"
    case Region => "region"
    case Environment => "environment"
    case EmbeddingModel => "embeddingModel"
    case IndexName => "indexName"
    case VectorDimensions => "vectorDimensions"
    case ChunkSize => "chunkSize"
    case ChunkOverlap => "chunkOverlap"
    case MaxDocumentSize => "maxDocumentSize"
    case SupportedFormats => "supportedFormats"
    case EnableOcr => "enableOcr"
    case EnableWebScraping => "enableWebScraping"
    case OtherKey(name) => name
  }

  /** The key a name denotes; naming it back gives the name, so distinct names
      give distinct keys. */
  function KeyOf(name: string): (k: Key)
    ensures KeyName(k) == name
  {
    match name
    case "knowledgeBaseId" => KnowledgeBaseId
    case "collectionEndpoint" => CollectionEndpoint
    case "documentsBucket" => DocumentsBucket
    case "region" => Region
    case "environment" => Environment
    case "embeddingModel" => EmbeddingModel
    case "indexName" => IndexName
    case "vectorDimensions" => VectorDimensions
    case "chunkSize" => ChunkSize
    case "chunkOverlap" => ChunkOverlap
    case "maxDocumentSize" => MaxDocumentSize
    case "supportedFormats" => SupportedFormats
    case "enableOcr" => EnableOcr
    case "enableWebScraping" => EnableWebScraping
    case _ => OtherKey(name)
  }

  type Config = map<Key, Value>

  /** A decoded JSON object as a configuration, key by key. */
  function FromObject(m: map<string, Value>): (c: Config)
    ensures forall name :: name in m ==> KeyOf(name) in c && c[KeyOf(name)] == m[name]
    ensures forall k :: k in c ==> KeyName(k) in m && KeyOf(KeyName(k)) == k
  {
    map k | k in (set name | name in m :: KeyOf(name)) :: m[KeyName(k)]
  }

  /** The process environment. */
  type Env = map<string, string>

  /** `config.get(key, default)`. */
  function Get(c: Config, key: Key, default: Value := Null): Value
  {
    if key in c then c[key] else default
  }

  /** `os.environ.get(name, default)`. */
  function EnvGet(env: Env, name: string, default: string): string
  {
    if name in env then env[name] else default
  }

  /** `os.environ.get(name)`, `None` when unset. */
  function EnvValue(env: Env, name: string): Value
  {
    if name in env then Str(env[name]) else Null
  }

  /** Why loading raised. */
  datatype ConfigError =
    | NotAnInteger(variable: string)    // `int()` of an environment variable failed
    | JsonDecodeError(variable: string) // `json.loads` of an environment variable failed
    | MissingFields(fields: seq<Key>)

  /** `json.loads`: the decoded value, or `None` when the text is not JSON. */
  type JsonDecoder = string -> Option<Value>

  const DefaultFormatsJson: string := "[\"pdf\", \"docx\", \"txt\", \"md\"]"
  const DefaultFormats: Value := List([Str("pdf"), Str("docx"), Str("txt"), Str("md")])

  /** `s.lower() == "true"`. */
  predicate IsTrueFlag(s: string) { Lower(s) == "true" }

  /** `int(os.environ.get(name, default))` for one of the four sizes: an unset
      variable gives the default itself (`EnvIntDefaults` shows this is what
      parsing the default's text gives), a set one is parsed. */
  function EnvInt(env: Env, name: string, default: int): (r: Option<int>)
    ensures name !in env ==> r == Some(default)
    ensures name in env ==> r == ParseInt(env[name])
  {
    if name in env then ParseInt(env[name]) else Some(default)
  }

  /** Reading a missing size as its integer default is the same as parsing the
      default text the source passes to `os.environ.get`. */
  lemma EnvIntDefaults(env: Env, name: string, default: int)
    ensures EnvInt(env, name, default) == ParseInt(EnvGet(env, name, IntToString(default)))
  {
    ParseIntToString(default);
  }

  /** The formats as `json.loads` decodes the environment variable or its default. */
  function EnvFormats(env: Env, json: JsonDecoder): Option<Value>
  {
    json(EnvGet(env, "SUPPORTED_FORMATS", DefaultFormatsJson))
  }

  /** What every `json.loads` does with the default formats text of
      `_load_from_env`: it decodes to the list of the four default formats. */
  predicate DecodesDefault(json: JsonDecoder)
  {
    json(DefaultFormatsJson) == Some(DefaultFormats)
  }

  /** With SUPPORTED_FORMATS unset the formats are the four defaults, so
      loading the environment then fails only on a size, never on the JSON. */
  lemma UnsetFormatsAreDefault(env: Env, region: string, environment: string, json: JsonDecoder)
    requires "SUPPORTED_FORMATS" !in env && DecodesDefault(json)
    ensures EnvFormats(env, json) == Some(DefaultFormats)
    ensures var r := LoadFromEnv(env, region, environment, json);
      && (r.Err? ==> r.error.NotAnInteger?)
      && (r.Ok? ==> SupportedFormats in r.value && r.value[SupportedFormats] == DefaultFormats)
  {
    var r := LoadFromEnv(env, region, environment, json);
    if r.Ok? {
      EnvConvertedValues(env, region, environment,
        EnvInt(env, "VECTOR_DIMENSIONS", 1024).value, EnvInt(env, "CHUNK_SIZE", 1000).value,
        EnvInt(env, "CHUNK_OVERLAP", 200).value, EnvInt(env, "MAX_DOCUMENT_SIZE", 50).value,
        DefaultFormats);
    }
  }

  /** `_load_from_env`: the four sizes go through `int()` and the formats
      through `json.loads`, in that order; the first that fails raises. */
  function LoadFromEnv(env: Env, region: string, environment: string, json: JsonDecoder): (r: Result<Config, ConfigError>)
    ensures r.Ok? <==>
      && EnvInt(env, "VECTOR_DIMENSIONS", 1024).Some? && EnvInt(env, "CHUNK_SIZE", 1000).Some?
      && EnvInt(env, "CHUNK_OVERLAP", 200).Some? && EnvInt(env, "MAX_DOCUMENT_SIZE", 50).Some?
      && EnvFormats(env, json).Some?
    ensures EnvInt(env, "VECTOR_DIMENSIONS", 1024).None? ==> r == Err(NotAnInteger("VECTOR_DIMENSIONS"))
    ensures EnvInt(env, "VECTOR_DIMENSIONS", 1024).Some? && EnvInt(env, "CHUNK_SIZE", 1000).None? ==>
      r == Err(NotAnInteger("CHUNK_SIZE"))
    ensures (EnvInt(env, "VECTOR_DIMENSIONS", 1024).Some? && EnvInt(env, "CHUNK_SIZE", 1000).Some? &&
             EnvInt(env, "CHUNK_OVERLAP", 200).None?) ==> r == Err(NotAnInteger("CHUNK_OVERLAP"))
    ensures (EnvInt(env, "VECTOR_DIMENSIONS", 1024).Some? && EnvInt(env, "CHUNK_SIZE", 1000).Some? &&
             EnvInt(env, "CHUNK_OVERLAP", 200).Some? && EnvInt(env, "MAX_DOCUMENT_SIZE", 50).None?) ==>
      r == Err(NotAnInteger("MAX_DOCUMENT_SIZE"))
    ensures r.Err? && r.error.JsonDecodeError? <==>
      && EnvInt(env, "VECTOR_DIMENSIONS", 1024).Some? && EnvInt(env, "CHUNK_SIZE", 1000).Some?
      && EnvInt(env, "CHUNK_OVERLAP", 200).Some? && EnvInt(env, "MAX_DOCUMENT_SIZE", 50).Some?
      && EnvFormats(env, json).None?
    ensures r.Err? && r.error.JsonDecodeError? ==> r.error.variable == "SUPPORTED_FORMATS"
    ensures r.Ok? ==>
      && EnvInt(env, "VECTOR_DIMENSIONS", 1024).Some? && EnvInt(env, "CHUNK_SIZE", 1000).Some?
      && EnvInt(env, "CHUNK_OVERLAP", 200).Some? && EnvInt(env, "MAX_DOCUMENT_SIZE", 50).Some?
      && EnvFormats(env, json).Some?
      && r.value == EnvConfig(env, region, environment,
        EnvInt(env, "VECTOR_DIMENSIONS", 1024).value, EnvInt(env, "CHUNK_SIZE", 1000).value,
        EnvInt(env, "CHUNK_OVERLAP", 200).value, EnvInt(env, "MAX_DOCUMENT_SIZE", 50).value,
        EnvFormats(env, json).value)
  {
    match EnvInt(env, "VECTOR_DIMENSIONS", 1024)
    case None => Err(NotAnInteger("VECTOR_DIMENSIONS"))
    case Some(dims) =>
      match EnvInt(env, "CHUNK_SIZE", 1000)
      case None => Err(NotAnInteger("CHUNK_SIZE"))
      case Some(chunk) =>
        match EnvInt(env, "CHUNK_OVERLAP", 200)
        case None => Err(NotAnInteger("CHUNK_OVERLAP"))
        case Some(overlap) =>
          match EnvInt(env, "MAX_DOCUMENT_SIZE", 50)
          case None => Err(NotAnInteger("MAX_DOCUMENT_SIZE"))
          case Some(maxSize) =>
            match EnvFormats(env, json)
            case None => Err(JsonDecodeError("SUPPORTED_FORMATS"))
            case Some(formats) => Ok(EnvConfig(env, region, environment, dims, chunk, overlap, maxSize, formats))
  }

  /** The dictionary `_load_from_env` returns once its conversions succeeded:
      the three identifiers as set (or `None`), the region and environment the
      loader was built with, the remaining strings with their defaults, the
      converted sizes and formats, and the two flags. */
  function EnvConfig(
    env: Env, region: string, environment: string,
    dims: int, chunk: int, overlap: int, maxSize: int, formats: Value): Config
  {
    map k | k in EnvKeys :: EnvEntry(k, env, region, environment, dims, chunk, overlap, maxSize, formats)
  }

  /** The value `_load_from_env` gives one of its keys. */
  function EnvEntry(
    k: Key, env: Env, region: string, environment: string,
    dims: int, chunk: int, overlap: int, maxSize: int, formats: Value): Value
  {
    match k
    case KnowledgeBaseId => EnvValue(env, "KNOWLEDGE_BASE_ID")
    case CollectionEndpoint => EnvValue(env, "COLLECTION_ENDPOINT")
    case DocumentsBucket => EnvValue(env, "DOCUMENTS_BUCKET")
    case Region => Str(region)
    case Environment => Str(environment)
    case EmbeddingModel => Str(EnvGet(env, "EMBEDDING_MODEL", "amazon.titan-embed-text-v2:0"))
    case IndexName => Str(EnvGet(env, "INDEX_NAME", "rag-documents"))
    case VectorDimensions => Int(dims)
    case ChunkSize => Int(chunk)
    case ChunkOverlap => Int(overlap)
    case MaxDocumentSize => Int(maxSize)
    case SupportedFormats => formats
    case EnableOcr => Bool(IsTrueFlag(EnvGet(env, "ENABLE_OCR", "true")))
    case EnableWebScraping => Bool(IsTrueFlag(EnvGet(env, "ENABLE_WEB_SCRAPING", "false")))
    case OtherKey(_) => Null
  }


  /** `_load_from_env` sets exactly its fourteen keys. */
  lemma EnvConfigKeys(
    env: Env, region: string, environment: string,
    dims: int, chunk: int, overlap: int, maxSize: int, formats: Value)
    ensures EnvConfig(env, region, environment, dims, chunk, overlap, maxSize, formats).Keys == EnvKeys
  {
  }

  /** The identifiers are read as set, or `None`; the region and environment
      are the loader's own; the sizes and formats are the converted values. */
  lemma EnvConfigValues(
    env: Env, region: string, environment: string,
    dims: int, chunk: int, overlap: int, maxSize: int, formats: Value)
    ensures var c := EnvConfig(env, region, environment, dims, chunk, overlap, maxSize, formats);
      && KnowledgeBaseId in c && c[KnowledgeBaseId] == EnvValue(env, "KNOWLEDGE_BASE_ID")
      && CollectionEndpoint in c && c[CollectionEndpoint] == EnvValue(env, "COLLECTION_ENDPOINT")
      && DocumentsBucket in c && c[DocumentsBucket] == EnvValue(env, "DOCUMENTS_BUCKET")
      && EmbeddingModel in c && c[EmbeddingModel] == Str(EnvGet(env, "EMBEDDING_MODEL", "amazon.titan-embed-text-v2:0"))
      && IndexName in c && c[IndexName] == Str(EnvGet(env, "INDEX_NAME", "rag-documents"))
      && Region in c && c[Region] == Str(region)
      && Environment in c && c[Environment] == Str(environment)
      && VectorDimensions in c && c[VectorDimensions] == Int(dims)
      && ChunkSize in c && c[ChunkSize] == Int(chunk)
      && ChunkOverlap in c && c[ChunkOverlap] == Int(overlap)
      && MaxDocumentSize in c && c[MaxDocumentSize] == Int(maxSize)
      && SupportedFormats in c && c[SupportedFormats] == formats
  {
    EnvTextValues(env, region, environment, dims, chunk, overlap, maxSize, formats);
    EnvConvertedValues(env, region, environment, dims, chunk, overlap, maxSize, formats);
  }

  /** The entries read as text from the environment or the loader. */
  lemma EnvTextValues(
    env: Env, region: string, environment: string,
    dims: int, chunk: int, overlap: int, maxSize: int, formats: Value)
    ensures var c := EnvConfig(env, region, environment, dims, chunk, overlap, maxSize, formats);
      && KnowledgeBaseId in c && c[KnowledgeBaseId] == EnvValue(env, "KNOWLEDGE_BASE_ID")
      && CollectionEndpoint in c && c[CollectionEndpoint] == EnvValue(env, "COLLECTION_ENDPOINT")
      && DocumentsBucket in c && c[DocumentsBucket] == EnvValue(env, "DOCUMENTS_BUCKET")
      && EmbeddingModel in c && c[EmbeddingModel] == Str(EnvGet(env, "EMBEDDING_MODEL", "amazon.titan-embed-text-v2:0"))
      && IndexName in c && c[IndexName] == Str(EnvGet(env, "INDEX_NAME", "rag-documents"))
      && Region in c && c[Region] == Str(region)
      && Environment in c && c[Environment] == Str(environment)
  {
  }

  /** The entries converted from text: the four sizes and the formats. */
  lemma EnvConvertedValues(
    env: Env, region: string, environment: string,
    dims: int, chunk: int, overlap: int, maxSize: int, formats: Value)
    ensures var c := EnvConfig(env, region, environment, dims, chunk, overlap, maxSize, formats);
      && VectorDimensions in c && c[VectorDimensions] == Int(dims)
      && ChunkSize in c && c[ChunkSize] == Int(chunk)
      && ChunkOverlap in c && c[ChunkOverlap] == Int(overlap)
      && MaxDocumentSize in c && c[MaxDocumentSize] == Int(maxSize)
      && SupportedFormats in c && c[SupportedFormats] == formats
  {
  }

  const EnvKeys: set<Key> := {
    KnowledgeBaseId, CollectionEndpoint, DocumentsBucket, Region, Environment,
    EmbeddingModel, IndexName, VectorDimensions, ChunkSize, ChunkOverlap,
    MaxDocumentSize, SupportedFormats, EnableOcr, EnableWebScraping}

  /** OCR is on unless ENABLE_OCR is set to something other than a spelling of
      "true"; web scraping is off unless ENABLE_WEB_SCRAPING is such a spelling. */
  lemma EnvFlags(env: Env, region: string, environment: string, json: JsonDecoder)
    requires LoadFromEnv(env, region, environment, json).Ok?
    ensures var c := LoadFromEnv(env, region, environment, json).value;
      && EnableOcr in c && EnableWebScraping in c
      && (c[EnableOcr] == Bool(true) <==>
            "ENABLE_OCR" !in env || (|env["ENABLE_OCR"]| == 4 && IsTrueSpelling(env["ENABLE_OCR"])))
      && (c[EnableWebScraping] == Bool(true) <==>
            "ENABLE_WEB_SCRAPING" in env && |env["ENABLE_WEB_SCRAPING"]| == 4 && IsTrueSpelling(env["ENABLE_WEB_SCRAPING"]))
  {
    LowerIsTrue(EnvGet(env, "ENABLE_OCR", "true"));
    LowerIsTrue(EnvGet(env, "ENABLE_WEB_SCRAPING", "false"));
  }

  /** A four-character string that spells "true" in any mix of cases. */
  predicate IsTrueSpelling(s: string)
    requires |s| == 4
  {
    && (s[0] == 't' || s[0] == 'T') && (s[1] == 'r' || s[1] == 'R')
    && (s[2] == 'u' || s[2] == 'U') && (s[3] == 'e' || s[3] == 'E')
  }

  /** `dict.update`: keys of `over` win, the others keep their value. */
  function Merge(base: Config, over: Config): (r: Config)
    ensures r.Keys == base.Keys + over.Keys
    ensures forall k :: k in over ==> r[k] == over[k]
    ensures forall k :: k in base && k !in over ==> r[k] == base[k]
  {
    base + over
  }

  /** Updating an empty dictionary copies the other one. */
  lemma MergeIntoEmpty(c: Config)
    ensures Merge(map[], c) == c
  {
    assert Merge(map[], c).Keys == c.Keys;
  }

  /** A parameter-store lookup, as the client reports it: the value, one of
      the two kinds of `ClientError` the loader tells apart, or an exception
      that is not a `ClientError` at all (a connection failure, say). */
  datatype SsmReply = Found(value: string) | ParameterNotFound | OtherClientError | NonClientError

  /** The parameter store: the reply to `get_parameter(Name=...)`. */
  type Ssm = string -> SsmReply

  function ParamName(environment: string, suffix: string): string
  {
    "/rag-demo/" + environment + "/" + suffix
  }

  /** The four keys of the fallback, in the order they are fetched, with the
      parameter each is read from. */
  const IndividualKeys: seq<Key> := [KnowledgeBaseId, CollectionEndpoint, DocumentsBucket, Region]

  function IndividualSuffix(key: Key): string
  {
    match key
    case KnowledgeBaseId => "frontend-knowledge-base-id"
    case CollectionEndpoint => "frontend-collection-endpoint"
    case DocumentsBucket => "documents-bucket-name"
    case _ => "frontend-region"
  }

  /** The reply for one key of the fallback. */
  function IndividualReply(ssm: Ssm, environment: string, key: Key): SsmReply
  {
    ssm(ParamName(environment, IndividualSuffix(key)))
  }

  /** The fallback run over `keys` in order, `reply` giving each key's lookup:
      a found parameter is written, a missing one or another client error is
      skipped, and an exception that is not a client error ends the run with
      `None`. */
  function Fallback(reply: Key -> SsmReply, keys: seq<Key>): Option<Config>
    decreases |keys|
  {
    if keys == [] then Some(map[])
    else
      match Fallback(reply, keys[..|keys| - 1])
      case None => None
      case Some(c) =>
        var key := keys[|keys| - 1];
        match reply(key)
        case NonClientError => None
        case Found(v) => Some(c[key := Str(v)])
        case _ => Some(c)
  }

  /** The fallback's result. */
  function IndividualConfig(ssm: Ssm, environment: string): Option<Config>
  {
    Fallback(k => IndividualReply(ssm, environment, k), IndividualKeys)
  }

  /** The fallback raises exactly when some lookup raises an exception that is
      not a client error; otherwise it holds exactly the keys whose parameter
      was found, each with the parameter's text. */
  lemma FallbackFacts(reply: Key -> SsmReply, keys: seq<Key>)
    ensures var r := Fallback(reply, keys);
      && (r.None? <==> exists i :: 0 <= i < |keys| && reply(keys[i]).NonClientError?)
      && (r.Some? ==> forall k :: k in r.value <==> k in keys && reply(k).Found?)
      && (r.Some? ==> forall k :: k in r.value ==> r.value[k] == Str(reply(k).value))
  {
    FallbackRaises(reply, keys);
    if Fallback(reply, keys).Some? {
      FallbackHolds(reply, keys);
    }
  }

  /** The fallback raises exactly when some lookup raises. */
  lemma {:induction false} FallbackRaises(reply: Key -> SsmReply, keys: seq<Key>)
    ensures Fallback(reply, keys).None? <==> exists i :: 0 <= i < |keys| && reply(keys[i]).NonClientError?
    decreases |keys|
  {
    if keys != [] {
      var init := keys[..|keys| - 1];
      var last := keys[|keys| - 1];
      FallbackRaises(reply, init);
      if Fallback(reply, init).None? {
        var i :| 0 <= i < |init| && reply(init[i]).NonClientError?;
        assert keys[i] == init[i];
      } else if !reply(last).NonClientError? {
        forall i | 0 <= i < |keys| ensures !reply(keys[i]).NonClientError? {
          if i < |init| {
            assert keys[i] == init[i];
          }
        }
      }
    }
  }

  /** A fallback that does not raise holds exactly the found keys, each with
      its parameter's text. */
  lemma {:induction false} FallbackHolds(reply: Key -> SsmReply, keys: seq<Key>)
    requires Fallback(reply, keys).Some?
    ensures forall k :: k in Fallback(reply, keys).value <==> k in keys && reply(k).Found?
    ensures forall k :: k in Fallback(reply, keys).value ==> Fallback(reply, keys).value[k] == Str(reply(k).value)
    decreases |keys|
  {
    if keys != [] {
      var init := keys[..|keys| - 1];
      var last := keys[|keys| - 1];
      assert Fallback(reply, init).Some?;
      FallbackHolds(reply, init);
      assert keys == init + [last];
      assert forall k :: k in keys <==> k in init || k == last;
    }
  }

  /** Once the fallback has raised, fetching more keys does not undo it. */
  lemma {:induction false} FallbackStaysRaised(reply: Key -> SsmReply, keys: seq<Key>, n: nat)
    requires n <= |keys| && Fallback(reply, keys[..n]).None?
    ensures Fallback(reply, keys).None?
    decreases |keys| - n
  {
    if n < |keys| {
      assert keys[..n + 1][..n] == keys[..n];
      FallbackStaysRaised(reply, keys, n + 1);
    } else {
      assert keys[..n] == keys;
    }
  }

  /** `_load_individual_ssm_parameters`: fetch each key in turn; a missing
      parameter or any other client error skips that key, and an exception
      that is not a client error aborts the fallback. */
  method LoadIndividualSsmParameters(ssm: Ssm, environment: string) returns (r: Option<Config>)
    ensures r == IndividualConfig(ssm, environment)
  {
    ghost var reply := k => IndividualReply(ssm, environment, k);
    var c: Config := map[];
    var i := 0;
    while i < |IndividualKeys|
      invariant 0 <= i <= |IndividualKeys|
      invariant Fallback(reply, IndividualKeys[..i]) == Some(c)
    {
      var key := IndividualKeys[i];
      assert IndividualKeys[..i + 1][..i] == IndividualKeys[..i];
      var answer := ssm(ParamName(environment, IndividualSuffix(key)));
      assert answer == reply(key);
      if answer.NonClientError? {
        FallbackStaysRaised(reply, IndividualKeys, i + 1);
        return None;
      }
      if answer.Found? {
        c := c[key := Str(answer.value)];
      }
      i := i + 1;
    }
    assert IndividualKeys[..i] == IndividualKeys;
    r := Some(c);
  }

  /** One item of a list passed to `dict.update`, read as a key/value pair: a
      two-element list whose first element is a string, or a two-character
      string (its characters are the key and the value). Anything else raises. */
  function PairOf(item: Value): (p: Option<(Key, Value)>)
    ensures p.Some? <==> (item.List? && |item.items| == 2 && item.items[0].Str?) || (item.Str? && |item.s| == 2)
    ensures p.Some? && item.List? ==> KeyName(p.value.0) == item.items[0].s && p.value.1 == item.items[1]
    ensures p.Some? && item.Str? ==> KeyName(p.value.0) == item.s[..1] && p.value.1 == Str(item.s[1..])
  {
    match item
    case List(xs) => if |xs| == 2 && xs[0].Str? then Some((KeyOf(xs[0].s), xs[1])) else None
    case Str(t) => if |t| == 2 then Some((KeyOf(t[..1]), Str(t[1..]))) else None
    case _ => None
  }

  /** What `dict.update(items)` has written when it stops: the pairs before the
      first item that is not a pair, a later pair overriding an earlier one. */
  function LeadingPairs(items: seq<Value>): (c: Config)
    ensures items == [] || PairOf(items[0]).None? ==> c == map[]
    ensures forall k :: k in c ==> exists i :: 0 <= i < |items| && WrittenBy(items, i, k, c[k])
  {
    if items == [] then map[]
    else
      match PairOf(items[0])
      case None => map[]
      case Some(pair) =>
        var rest := LeadingPairs(items[1..]);
        ShiftProvenance(items, rest);
        assert WrittenBy(items, 0, pair.0, pair.1);
        map[pair.0 := pair.1] + rest
  }

  /** What the rest of a list writes, after a first item that is a pair, is
      written by the same items of the whole list. */
  lemma ShiftProvenance(items: seq<Value>, rest: Config)
    requires |items| > 0 && PairOf(items[0]).Some?
    requires forall k :: k in rest ==> exists i :: 0 <= i < |items[1..]| && WrittenBy(items[1..], i, k, rest[k])
    ensures forall k :: k in rest ==> exists i :: 1 <= i < |items| && WrittenBy(items, i, k, rest[k])
  {
    forall k | k in rest
      ensures exists i :: 1 <= i < |items| && WrittenBy(items, i, k, rest[k])
    {
      var i :| 0 <= i < |items[1..]| && WrittenBy(items[1..], i, k, rest[k]);
      WrittenAfterPair(items, i, k, rest[k]);
    }
  }

  /** Item `i` is the pair `(k, v)`, and every item up to it is a pair, so
      `dict.update` reaches it. */
  predicate WrittenBy(items: seq<Value>, i: int, k: Key, v: Value)
    requires 0 <= i < |items|
  {
    PairOf(items[i]) == Some((k, v)) && forall j :: 0 <= j < i ==> PairOf(items[j]).Some?
  }

  /** A pair the rest of the list reaches is reached from one item earlier
      when that item is a pair. */
  lemma WrittenAfterPair(items: seq<Value>, i: nat, k: Key, v: Value)
    requires 0 < |items| && i < |items| - 1 && PairOf(items[0]).Some?
    requires WrittenBy(items[1..], i, k, v)
    ensures WrittenBy(items, i + 1, k, v)
  {
    forall j | 0 <= j <= i ensures items[1..][j] == items[j + 1] {
    }
  }

  /** Nothing at or after the first item that is not a pair is written. */
  lemma {:induction false} LeadingPairsStops(items: seq<Value>, n: nat)
    requires n < |items| && PairOf(items[n]).None?
    requires forall j :: 0 <= j < n ==> PairOf(items[j]).Some?
    ensures LeadingPairs(items) == LeadingPairs(items[..n])
  {
    if n > 0 {
      assert items[..n][0] == items[0];
      assert items[..n][1..] == items[1..][..n - 1];
      forall j | 0 <= j < n - 1 ensures PairOf(items[1..][j]).Some? {
        assert items[1..][j] == items[j + 1];
      }
      LeadingPairsStops(items[1..], n - 1);
    }
  }

  /** When every item is a pair, the last pair for a key gives its value. */
  lemma {:induction false} LastPairWins(items: seq<Value>, i: nat)
    requires forall j :: 0 <= j < |items| ==> PairOf(items[j]).Some?
    requires i < |items|
    requires forall j :: i < j < |items| ==> PairOf(items[j]).value.0 != PairOf(items[i]).value.0
    ensures var pair := PairOf(items[i]).value;
      pair.0 in LeadingPairs(items) && LeadingPairs(items)[pair.0] == pair.1
  {
    var pair := PairOf(items[i]).value;
    var first := PairOf(items[0]).value;
    var rest := LeadingPairs(items[1..]);
    assert LeadingPairs(items) == map[first.0 := first.1] + rest;
    forall j | 0 <= j < |items[1..]| ensures items[1..][j] == items[j + 1] {
    }
    if i == 0 {
      forall j | 0 <= j < |items[1..]| ensures PairOf(items[1..][j]).value.0 != pair.0 {
        assert items[1..][j] == items[j + 1];
      }
      assert pair.0 !in rest;
    } else {
      LastPairWins(items[1..], i - 1);
    }
  }

  /** The entries `config.update(value)` writes for a decoded parameter value
      before it returns or raises: a JSON object key by key, a list pair by
      pair up to its first item that is not a pair; an empty string writes
      nothing, and any other value raises before writing anything. */
  function UpdateEntries(v: Value): (c: Config)
    ensures v.Dict? ==> c == FromObject(v.entries)
    ensures v.List? ==> c == LeadingPairs(v.items)
    ensures !v.Dict? && !v.List? ==> c == map[]
  {
    match v
    case Dict(m) => FromObject(m)
    case List(items) => LeadingPairs(items)
    case _ => map[]
  }

  /** What `_load_from_ssm` lets `load_config` write into the dictionary: the
      entries of the decoded frontend-config parameter, the fallback when that
      parameter does not exist, or `None` when it raises first (another client
      error, an exception that is not a client error, undecodable text). */
  function SsmConfig(ssm: Ssm, environment: string, json: JsonDecoder): Option<Config>
  {
    match ssm(ParamName(environment, "frontend-config"))
    case Found(text) =>
      (match json(text)
       case Some(v) => Some(UpdateEntries(v))
       case None => None)
    case ParameterNotFound => IndividualConfig(ssm, environment)
    case _ => None
  }

  /** `_load_from_ssm`. */
  method LoadFromSsm(ssm: Ssm, environment: string, json: JsonDecoder) returns (r: Option<Config>)
    ensures r == SsmConfig(ssm, environment, json)
    ensures ssm(ParamName(environment, "frontend-config")).ParameterNotFound? ==> r == IndividualConfig(ssm, environment)
    ensures ssm(ParamName(environment, "frontend-config")).Found? ==>
      var decoded := json(ssm(ParamName(environment, "frontend-config")).value);
      (r.None? <==> decoded.None?) && (decoded.Some? && decoded.value.Dict? ==> r == Some(FromObject(decoded.value.entries)))
  {
    var reply := ssm(ParamName(environment, "frontend-config"));
    match reply
    case Found(text) =>
      var decoded := json(text);
      if decoded.Some? {
        r := Some(UpdateEntries(decoded.value));
      } else {
        r := None;
      }
    case ParameterNotFound =>
      r := LoadIndividualSsmParameters(ssm, environment);
    case OtherClientError =>
      r := None;
    case NonClientError =>
      r := None;
  }

  const PlaceholderKnowledgeBaseId: string := "local-dev-placeholder-kb-id"
  const PlaceholderBucket: string := "local-dev-placeholder-bucket"
  const PlaceholderEndpoint: string := "https://local-dev-placeholder.us-east-1.aoss.amazonaws.com"

  /** Local-development mode: no knowledge base id and not running as a Lambda. */
  predicate IsLocalDev(c: Config, env: Env)
    ensures IsLocalDev(c, env) <==>
      && !Truthy(Get(c, KnowledgeBaseId))
      && ("AWS_LAMBDA_FUNCTION_NAME" !in env || env["AWS_LAMBDA_FUNCTION_NAME"] == "")
  {
    !Truthy(Get(c, KnowledgeBaseId)) && EnvGet(env, "AWS_LAMBDA_FUNCTION_NAME", "") == ""
  }

  /** `value` under `key` unless the key already holds something truthy. */
  function FillIfFalsy(c: Config, key: Key, value: string): Config
  {
    if Truthy(Get(c, key)) then c else c[key := Str(value)]
  }

  /** The placeholders of local-development mode. */
  function WithPlaceholders(c: Config, env: Env): (r: Config)
    ensures forall k :: k in c && Truthy(c[k]) ==> k in r && r[k] == c[k]
    ensures forall k :: k !in {KnowledgeBaseId, DocumentsBucket, CollectionEndpoint} ==>
      (k in r <==> k in c) && (k in c ==> r[k] == c[k])
    ensures !IsLocalDev(c, env) ==> r == c
    ensures IsLocalDev(c, env) ==>
      Truthy(Get(r, KnowledgeBaseId)) && Truthy(Get(r, DocumentsBucket)) && Truthy(Get(r, CollectionEndpoint))
    ensures IsLocalDev(c, env) ==> Get(r, KnowledgeBaseId) == Str(PlaceholderKnowledgeBaseId)
    ensures IsLocalDev(c, env) && !Truthy(Get(c, DocumentsBucket)) ==> Get(r, DocumentsBucket) == Str(PlaceholderBucket)
    ensures IsLocalDev(c, env) && !Truthy(Get(c, CollectionEndpoint)) ==>
      Get(r, CollectionEndpoint) == Str(PlaceholderEndpoint)
  {
    if IsLocalDev(c, env) then
      FillIfFalsy(FillIfFalsy(FillIfFalsy(c, KnowledgeBaseId, PlaceholderKnowledgeBaseId),
        DocumentsBucket, PlaceholderBucket), CollectionEndpoint, PlaceholderEndpoint)
    else c
  }

  /** Python's `int(v)`: integers as they are, booleans as 0 or 1, floats
      truncated toward zero, strings parsed; anything else raises. */
  function ToInt(v: Value): (r: Option<int>)
    ensures r.Some? <==> !v.Null? && !v.List? && !v.Dict? && (v.Str? ==> ParseInt(v.s).Some?)
    ensures v.Int? ==> r == Some(v.i)
    ensures v.Bool? ==> r == Some(if v.b then 1 else 0)
    ensures v.Str? ==> r == ParseInt(v.s)
  {
    match v
    case Int(i) => Some(i)
    case Real(x) => Some(if x >= 0.0 then x.Floor else -((-x).Floor))
    case Bool(b) => Some(if b then 1 else 0)
    case Str(s) => ParseInt(s)
    case _ => None
  }

  /** `int(x)` on a float truncates toward zero: it drops less than one, and
      never moves away from zero. */
  lemma ToIntTruncates(x: real)
    ensures ToInt(Real(x)).Some?
    ensures var n := ToInt(Real(x)).value as real;
      && (x >= 0.0 ==> 0.0 <= n <= x < n + 1.0)
      && (x < 0.0 ==> n - 1.0 < x <= n <= 0.0)
  {
  }

  /** The four integer fields and their defaults. */
  const IntFields: set<Key> := {VectorDimensions, ChunkSize, ChunkOverlap, MaxDocumentSize}
  const DefaultInts: Config := map[
    VectorDimensions := Int(1024), ChunkSize := Int(1000),
    ChunkOverlap := Int(200), MaxDocumentSize := Int(50)]

  /** The integer a field coerces to, reading a missing field as its default. */
  function CoerceField(c: Config, key: Key): Option<int>
    requires key in DefaultInts
  {
    ToInt(Get(c, key, DefaultInts[key]))
  }

  /** Setting one key leaves the coercion of another unchanged. */
  lemma CoerceFieldFrame(c: Config, key: Key, other: Key, v: Value)
    requires key in DefaultInts && key != other
    ensures CoerceField(c[other := v], key) == CoerceField(c, key)
  {
    assert Get(c[other := v], key, DefaultInts[key]) == Get(c, key, DefaultInts[key]);
  }

  /** Resetting the four fields erases an earlier update of one of them. */
  lemma ResetAfterUpdate(c: Config, key: Key, v: Value)
    requires key in DefaultInts
    ensures c[key := v] + DefaultInts == c + DefaultInts
  {
  }

  predicate AllCoerce(c: Config)
  {
    && CoerceField(c, VectorDimensions).Some? && CoerceField(c, ChunkSize).Some?
    && CoerceField(c, ChunkOverlap).Some? && CoerceField(c, MaxDocumentSize).Some?
  }

  /** The four fields coerced, or all four reset when any one fails. */
  function WithCoercedInts(c: Config): Config
  {
    if AllCoerce(c) then
      c[VectorDimensions := Int(CoerceField(c, VectorDimensions).value)]
       [ChunkSize := Int(CoerceField(c, ChunkSize).value)]
       [ChunkOverlap := Int(CoerceField(c, ChunkOverlap).value)]
       [MaxDocumentSize := Int(CoerceField(c, MaxDocumentSize).value)]
    else c + DefaultInts
  }

  /** One field that fails to coerce resets all four. */
  lemma CoercionResets(c: Config)
    requires !AllCoerce(c)
    ensures WithCoercedInts(c) == c + DefaultInts
  {
  }

  /** When every field coerces, each is written in turn. */
  lemma CoercionKeeps(c: Config)
    requires AllCoerce(c)
    ensures WithCoercedInts(c) ==
      c[VectorDimensions := Int(CoerceField(c, VectorDimensions).value)]
       [ChunkSize := Int(CoerceField(c, ChunkSize).value)]
       [ChunkOverlap := Int(CoerceField(c, ChunkOverlap).value)]
       [MaxDocumentSize := Int(CoerceField(c, MaxDocumentSize).value)]
  {
  }

  /** Coercion touches only the four integer fields. */
  lemma CoercionKeepsOthers(c: Config, key: Key)
    requires key !in IntFields
    ensures key in WithCoercedInts(c) <==> key in c
    ensures key in c ==> WithCoercedInts(c)[key] == c[key]
  {
    assert key !in DefaultInts;
  }

  /** Coercion is all-or-nothing: the four fields either all hold their
      coerced values or all hold their defaults, and one bad field is enough
      to reset all four. Every other key is untouched. */
  lemma CoercionAllOrNothing(c: Config)
    ensures var r := WithCoercedInts(c);
      && r.Keys == c.Keys + IntFields
      && (forall k :: k in c && k !in IntFields ==> r[k] == c[k])
      && ((forall k :: k in DefaultInts ==> CoerceField(c, k).Some? && r[k] == Int(CoerceField(c, k).value))
          || (forall k :: k in DefaultInts ==> r[k] == DefaultInts[k]))
      && ((exists k :: k in DefaultInts && CoerceField(c, k).None?) ==>
          forall k :: k in DefaultInts ==> r[k] == DefaultInts[k])
      && ((forall k :: k in DefaultInts ==> CoerceField(c, k).Some?) ==>
          forall k :: k in DefaultInts ==> CoerceField(c, k).Some? && r[k] == Int(CoerceField(c, k).value))
  {
    var r := WithCoercedInts(c);
    assert DefaultInts.Keys == IntFields;
    if AllCoerce(c) {
      forall k | k in DefaultInts ensures CoerceField(c, k).Some? && r[k] == Int(CoerceField(c, k).value) {
        assert k == VectorDimensions || k == ChunkSize || k == ChunkOverlap || k == MaxDocumentSize;
      }
    } else {
      assert r == c + DefaultInts;
      assert !forall k :: k in DefaultInts ==> CoerceField(c, k).Some? by {
        assert VectorDimensions in DefaultInts && ChunkSize in DefaultInts;
        assert ChunkOverlap in DefaultInts && MaxDocumentSize in DefaultInts;
      }
    }
  }

  /** `supportedFormats` made a list: a string is decoded, and anything that
      does not end up a list becomes the default four formats. */
  function WithFormatsList(c: Config, json: JsonDecoder): (r: Config)
    ensures r.Keys == c.Keys + {SupportedFormats}
    ensures r[SupportedFormats].List?
    ensures forall k :: k in c && k != SupportedFormats ==> r[k] == c[k]
    ensures Get(c, SupportedFormats).List? ==> r == c
    ensures var v := Get(c, SupportedFormats);
      v.Str? && json(v.s).Some? && json(v.s).value.List? ==> r[SupportedFormats] == json(v.s).value
    ensures var v := Get(c, SupportedFormats);
      v.Str? && (json(v.s).None? || !json(v.s).value.List?) ==> r[SupportedFormats] == DefaultFormats
    ensures var v := Get(c, SupportedFormats);
      !v.Str? && !v.List? ==> r[SupportedFormats] == DefaultFormats
  {
    var v := Get(c, SupportedFormats);
    var decoded := if v.Str? then json(v.s).GetOr(DefaultFormats) else v;
    c[SupportedFormats := if decoded.List? then decoded else DefaultFormats]
  }

  /** Everything `_apply_development_defaults` does to the dictionary. */
  function WithDefaults(c: Config, env: Env, json: JsonDecoder): Config
  {
    WithFormatsList(WithCoercedInts(WithPlaceholders(c, env)), json)
  }

  /** The fields `_validate_config` requires, in the order it reports them. */
  const RequiredFields: seq<Key> := [KnowledgeBaseId, Region, Environment]

  /** The fields of `fields` that are falsy in `c`, in order. */
  function Missing(fields: seq<Key>, c: Config): seq<Key>
  {
    if fields == [] then []
    else (if Truthy(Get(c, fields[0])) then [] else [fields[0]]) + Missing(fields[1..], c)
  }

  /** A field is reported missing exactly when it is required and falsy. */
  lemma {:induction false} MissingIff(fields: seq<Key>, c: Config, f: Key)
    ensures f in Missing(fields, c) <==> f in fields && !Truthy(Get(c, f))
  {
    if fields != [] {
      MissingIff(fields[1..], c, f);
      assert f in fields <==> f == fields[0] || f in fields[1..];
    }
  }

  /** In local-development mode the knowledge base id is never the cause of a
      validation failure, and the placeholders fill it and the other two. */
  lemma LocalDevNeverMissesKnowledgeBase(c: Config, env: Env, json: JsonDecoder)
    requires IsLocalDev(c, env)
    ensures KnowledgeBaseId !in Missing(RequiredFields, WithDefaults(c, env, json))
    ensures var r := WithDefaults(c, env, json);
      Truthy(Get(r, DocumentsBucket)) && Truthy(Get(r, CollectionEndpoint))
  {
    var r := WithDefaults(c, env, json);
    DefaultsKeepPlaceholders(c, env, json, KnowledgeBaseId);
    DefaultsKeepPlaceholders(c, env, json, DocumentsBucket);
    DefaultsKeepPlaceholders(c, env, json, CollectionEndpoint);
    MissingIff(RequiredFields, r, KnowledgeBaseId);
  }

  /** Coercion and the formats list leave the three placeholder keys as the
      placeholders left them. */
  lemma DefaultsKeepPlaceholders(c: Config, env: Env, json: JsonDecoder, key: Key)
    requires key == KnowledgeBaseId || key == DocumentsBucket || key == CollectionEndpoint
    ensures Get(WithDefaults(c, env, json), key) == Get(WithPlaceholders(c, env), key)
  {
    CoercionKeepsOthers(WithPlaceholders(c, env), key);
  }


  /** The mutable dictionary that `load_config` builds and the validators change in place. */
  class ConfigDict {
    var entries: Config

    constructor()
      ensures entries == map[]
    {
      entries := map[];
    }

    /** `dict.update(other)`. */
    method Update(other: Config)
      modifies this
      ensures entries == Merge(old(entries), other)
    {
      entries := entries + other;
    }

    /** `_apply_development_defaults`: placeholders, then integer coercion,
        then the formats list, each changing the dictionary in place. */
    method ApplyDevelopmentDefaults(env: Env, json: JsonDecoder)
      modifies this
      ensures entries == WithDefaults(old(entries), env, json)
    {
      FillPlaceholders(env);
      CoerceSizes();
      NormaliseFormats(json);
    }

    /** The local-development block: each of the three keys is set only when falsy. */
    method FillPlaceholders(env: Env)
      modifies this
      ensures entries == WithPlaceholders(old(entries), env)
    {
      if IsLocalDev(entries, env) {
        if !Truthy(Get(entries, KnowledgeBaseId)) {
          entries := entries[KnowledgeBaseId := Str(PlaceholderKnowledgeBaseId)];
        }
        if !Truthy(Get(entries, DocumentsBucket)) {
          entries := entries[DocumentsBucket := Str(PlaceholderBucket)];
        }
        if !Truthy(Get(entries, CollectionEndpoint)) {
          entries := entries[CollectionEndpoint := Str(PlaceholderEndpoint)];
        }
      }
    }

    /** The four `int()` conversions in turn; the first that raises resets all four. */
    method CoerceSizes()
      modifies this
      ensures entries == WithCoercedInts(old(entries))
    {
      ghost var start := entries;
      var dims := CoerceField(entries, VectorDimensions);
      if dims.None? {
        CoercionResets(start);
        entries := entries + DefaultInts;
        return;
      }
      entries := entries[VectorDimensions := Int(dims.value)];
      ghost var step1 := entries;
      CoerceFieldFrame(start, ChunkSize, VectorDimensions, Int(dims.value));
      CoerceFieldFrame(start, ChunkOverlap, VectorDimensions, Int(dims.value));
      CoerceFieldFrame(start, MaxDocumentSize, VectorDimensions, Int(dims.value));
      ResetAfterUpdate(start, VectorDimensions, Int(dims.value));
      var chunk := CoerceField(entries, ChunkSize);
      if chunk.None? {
        CoercionResets(start);
        entries := entries + DefaultInts;
        return;
      }
      entries := entries[ChunkSize := Int(chunk.value)];
      ghost var step2 := entries;
      CoerceFieldFrame(step1, ChunkOverlap, ChunkSize, Int(chunk.value));
      CoerceFieldFrame(step1, MaxDocumentSize, ChunkSize, Int(chunk.value));
      ResetAfterUpdate(step1, ChunkSize, Int(chunk.value));
      var overlap := CoerceField(entries, ChunkOverlap);
      if overlap.None? {
        CoercionResets(start);
        entries := entries + DefaultInts;
        return;
      }
      entries := entries[ChunkOverlap := Int(overlap.value)];
      CoerceFieldFrame(step2, MaxDocumentSize, ChunkOverlap, Int(overlap.value));
      ResetAfterUpdate(step2, ChunkOverlap, Int(overlap.value));
      var maxSize := CoerceField(entries, MaxDocumentSize);
      if maxSize.None? {
        CoercionResets(start);
        entries := entries + DefaultInts;
        return;
      }
      CoercionKeeps(start);
      entries := entries[MaxDocumentSize := Int(maxSize.value)];
    }

    /** The two format checks: a string is decoded (the defaults when it is not
        JSON), and whatever is not then a list becomes the defaults. */
    method NormaliseFormats(json: JsonDecoder)
      modifies this
      ensures entries == WithFormatsList(old(entries), json)
    {
      var formats := Get(entries, SupportedFormats);
      if formats.Str? {
        var decoded := json(formats.s);
        entries := entries[SupportedFormats := if decoded.Some? then decoded.value else DefaultFormats];
      }
      if !Get(entries, SupportedFormats).List? {
        entries := entries[SupportedFormats := DefaultFormats];
      }
    }

    /** `_validate_config`: apply the defaults, then report the required
        fields that are still falsy (the source raises when any are). */
    method ValidateConfig(env: Env, json: JsonDecoder) returns (missing: seq<Key>)
      modifies this
      ensures entries == WithDefaults(old(entries), env, json)
      ensures missing == Missing(RequiredFields, entries)
    {
      ApplyDevelopmentDefaults(env, json);
      missing := FindMissingFields(RequiredFields, entries);
    }
  }

  /** The missing fields of two lists, one after the other, are those of the
      first followed by those of the second. */
  lemma {:induction false} MissingConcat(a: seq<Key>, b: seq<Key>, c: Config)
    ensures Missing(a + b, c) == Missing(a, c) + Missing(b, c)
  {
    if a != [] {
      var head: seq<Key> := if Truthy(Get(c, a[0])) then [] else [a[0]];
      assert (a + b)[0] == a[0] && (a + b)[1..] == a[1..] + b;
      assert Missing(a + b, c) == head + Missing(a[1..] + b, c);
      MissingConcat(a[1..], b, c);
      assert head + (Missing(a[1..], c) + Missing(b, c)) == (head + Missing(a[1..], c)) + Missing(b, c);
    } else {
      assert a + b == b;
    }
  }

  /** The loop of `_validate_config` that collects the falsy required fields. */
  method FindMissingFields(fields: seq<Key>, c: Config) returns (missing: seq<Key>)
    ensures missing == Missing(fields, c)
  {
    missing := [];
    var i := 0;
    while i < |fields|
      invariant 0 <= i <= |fields|
      invariant missing == Missing(fields[..i], c)
    {
      var field := fields[i];
      assert fields[..i + 1] == fields[..i] + [field];
      MissingConcat(fields[..i], [field], c);
      assert Missing([field], c) == (if Truthy(Get(c, field)) then [] else [field]) + Missing([], c);
      if !Truthy(Get(c, field)) {
        missing := missing + [field];
      }
      i := i + 1;
    }
    assert fields[..i] == fields;
  }


  /** After the defaults the four sizes are integers and the formats a list,
      whatever the dictionary held before. */
  lemma DefaultsShape(c: Config, env: Env, json: JsonDecoder)
    ensures var r := WithDefaults(c, env, json);
      && (forall k :: k in IntFields ==> k in r && r[k].Int?)
      && SupportedFormats in r && r[SupportedFormats].List?
  {
    CoercedAreInts(WithPlaceholders(c, env));
  }

  /** Coercion leaves the four sizes integers, one way or the other. */
  lemma CoercedAreInts(c: Config)
    ensures forall k :: k in IntFields ==> k in WithCoercedInts(c) && WithCoercedInts(c)[k].Int?
  {
    var q := WithCoercedInts(c);
    assert q[VectorDimensions].Int? && q[ChunkSize].Int? && q[ChunkOverlap].Int? && q[MaxDocumentSize].Int?;
  }

  /** `_validate_config` on a merged dictionary: the defaulted dictionary, or
      the falsy required fields when there are any. */
  function Validated(c: Config, env: Env, json: JsonDecoder): (r: Result<Config, ConfigError>)
    ensures r.Ok? ==> r.value == WithDefaults(c, env, json)
    ensures r.Ok? ==>
      && (forall f :: f in RequiredFields ==> Truthy(Get(r.value, f)))
      && (forall k :: k in IntFields ==> k in r.value && r.value[k].Int?)
      && SupportedFormats in r.value && r.value[SupportedFormats].List?
    ensures r.Err? ==> (r.error.MissingFields? && r.error.fields != []
      && forall f :: f in r.error.fields <==> f in RequiredFields && !Truthy(Get(WithDefaults(c, env, json), f)))
  {
    var result := WithDefaults(c, env, json);
    var missing := Missing(RequiredFields, result);
    DefaultsShape(c, env, json);
    MissingIffAll(RequiredFields, result);
    if missing == [] then Ok(result) else Err(MissingFields(missing))
  }

  /** `MissingIff` for every key at once. */
  lemma MissingIffAll(fields: seq<Key>, c: Config)
    ensures forall f :: f in Missing(fields, c) <==> f in fields && !Truthy(Get(c, f))
  {
    forall f ensures f in Missing(fields, c) <==> f in fields && !Truthy(Get(c, f)) {
      MissingIff(fields, c, f);
    }
  }

  /** The environment's dictionary updated with the parameter store's, when that loaded. */
  function Overlay(fromEnv: Config, fromSsm: Option<Config>): (c: Config)
    ensures fromSsm.None? ==> c == fromEnv
    ensures fromSsm.Some? ==> c.Keys == fromEnv.Keys + fromSsm.value.Keys
    ensures fromSsm.Some? ==> forall k :: k in fromSsm.value ==> c[k] == fromSsm.value[k]
    ensures fromSsm.Some? ==> forall k :: k in fromEnv && k !in fromSsm.value ==> c[k] == fromEnv[k]
  {
    match fromSsm
    case Some(over) => Merge(fromEnv, over)
    case None => fromEnv
  }

  /** What `load_config` returns or raises, stated on values: the environment
      config, overlaid key by key with the parameter store's when that loads,
      then defaulted and validated. */
  function LoadedConfig(env: Env, region: string, environment: string, ssm: Ssm, json: JsonDecoder): Result<Config, ConfigError>
  {
    match LoadFromEnv(env, region, environment, json)
    case Err(e) => Err(e)
    case Ok(fromEnv) => Validated(Overlay(fromEnv, SsmConfig(ssm, environment, json)), env, json)
  }

  /** Once the environment has loaded, the result is the validated overlay. */
  lemma LoadedAfterEnv(env: Env, region: string, environment: string, ssm: Ssm, json: JsonDecoder)
    requires LoadFromEnv(env, region, environment, json).Ok?
    ensures LoadedConfig(env, region, environment, ssm, json) ==
      Validated(Overlay(LoadFromEnv(env, region, environment, json).value, SsmConfig(ssm, environment, json)), env, json)
  {
  }

  /** A loaded configuration always has the required fields set, the four
      sizes as integers and the formats as a list; a load that fails is the
      environment's conversion error or the list of falsy required fields. */
  lemma LoadedConfigIsValid(env: Env, region: string, environment: string, ssm: Ssm, json: JsonDecoder)
    ensures var r := LoadedConfig(env, region, environment, ssm, json);
      && (r.Ok? ==>
        && (forall f :: f in RequiredFields ==> Truthy(Get(r.value, f)))
        && (forall k :: k in IntFields ==> k in r.value && r.value[k].Int?)
        && SupportedFormats in r.value && r.value[SupportedFormats].List?)
      && (r.Err? ==>
        || (LoadFromEnv(env, region, environment, json).Err? && r.error == LoadFromEnv(env, region, environment, json).error)
        || (r.error.MissingFields? && r.error.fields != []))
  {
  }

  /** The parameter store only overrides: a key it does not set keeps the
      environment's value, and when it fails the environment alone is used. */
  lemma SsmOverridesEnv(env: Env, region: string, environment: string, ssm: Ssm, json: JsonDecoder, key: Key)
    requires LoadFromEnv(env, region, environment, json).Ok?
    requires key !in DefaultedKeys
    requires LoadedConfig(env, region, environment, ssm, json).Ok?
    ensures var fromEnv := LoadFromEnv(env, region, environment, json).value;
      var c := LoadedConfig(env, region, environment, ssm, json).value;
      match SsmConfig(ssm, environment, json)
      case Some(fromSsm) =>
        (key in fromSsm ==> key in c && c[key] == fromSsm[key]) &&
        (key !in fromSsm && key in fromEnv ==> key in c && c[key] == fromEnv[key])
      case None => key in fromEnv ==> key in c && c[key] == fromEnv[key]
  {
    var merged := Overlay(LoadFromEnv(env, region, environment, json).value, SsmConfig(ssm, environment, json));
    assert LoadedConfig(env, region, environment, ssm, json) == Validated(merged, env, json);
    DefaultsKeepOtherKeys(merged, env, json, key);
  }

  /** The keys `_apply_development_defaults` may write. */
  const DefaultedKeys: set<Key> :=
    IntFields + {SupportedFormats, KnowledgeBaseId, DocumentsBucket, CollectionEndpoint}

  /** The defaults touch no key outside `DefaultedKeys`. */
  lemma DefaultsKeepOtherKeys(c: Config, env: Env, json: JsonDecoder, key: Key)
    requires key !in DefaultedKeys
    ensures key in WithDefaults(c, env, json) <==> key in c
    ensures key in c ==> WithDefaults(c, env, json)[key] == c[key]
  {
    CoercionKeepsOthers(WithPlaceholders(c, env), key);
  }

  /** The loader; `REGION` and `ENVIRONMENT` are read once when it is made. */
  class Loader {
    const region: string
    const environment: string

    constructor(env: Env)
      ensures region == EnvGet(env, "REGION", "us-east-1")
      ensures environment == EnvGet(env, "ENVIRONMENT", "dev")
    {
      region := EnvGet(env, "REGION", "us-east-1");
      environment := EnvGet(env, "ENVIRONMENT", "dev");
    }

    /** `load_config`: build the dictionary from the environment, update it with
        the parameter store (a failure there is logged and skipped), validate
        it in place and return it. */
    method LoadConfig(env: Env, ssm: Ssm, json: JsonDecoder) returns (r: Result<Config, ConfigError>)
      ensures r == LoadedConfig(env, region, environment, ssm, json)
    {
      var fromEnv := LoadFromEnv(env, region, environment, json);
      if fromEnv.Err? {
        return Err(fromEnv.error);
      }
      LoadedAfterEnv(env, region, environment, ssm, json);
      var config := new ConfigDict();
      config.Update(fromEnv.value);
      MergeIntoEmpty(fromEnv.value);
      var fromSsm := LoadFromSsm(ssm, environment, json);
      if fromSsm.Some? {
        config.Update(fromSsm.value);
      }
      assert config.entries == Overlay(fromEnv.value, fromSsm);
      ghost var merged := config.entries;
      var missing := config.ValidateConfig(env, json);
      if missing != [] {
        return Err(MissingFields(missing));
      }
      r := Ok(config.entries);
    }
  }
}
