# RAG demo frontend: a verified model of its deterministic core

The frontend of the RAG demo is a Streamlit app. It answers questions by
querying an AWS Bedrock knowledge base and passing what comes back to a
foundation model. This project models the three pieces of the frontend that
hold logic you can state. Every call into AWS or Streamlit is passed in as a
parameter.

- **The Bedrock client** (`bedrock_client.dfy`, module `BedrockClient`)
  - Splits an S3 location into bucket and key.
  - Turns retrieval hits into numbered citations, each with a 200-character
    preview and a document name.
  - Builds the generation prompt from at most three context snippets.
  - Chooses the request format and the response path from substrings of the
    model id.
  - Chains retrieval, generation and citation into one answer.
  - Keeps the model listing in a cache (`class Client`).
- **The configuration loader** (`config_loader.dfy`, module `ConfigLoader`)
  - Loads the environment variables first; the parameter store then
    overrides them key by key. A parameter-store failure is skipped.
  - Mutates the dictionary in place (`class ConfigDict`):
    - writes local-development placeholders only for falsy values;
    - coerces the four integer sizes all-or-nothing;
    - makes `supportedFormats` a list;
    - validates the three required fields.
  - `class Loader` reads `REGION` and `ENVIRONMENT` once and runs
    `load_config`.
- **The chat transcript** (`chat_interface.dfy`, module `ChatInterface`)
  - The session's message list and preferences live in `class Session`.
  - Its operations:
    - append a user message and an assistant reply;
    - attach feedback at a Python index;
    - regenerate an answer (remove at an index, append at the end);
    - import a conversation;
    - filter the model list (`GetAvailableModels`).

Two support modules, `common.dfy` (`Option`, `Result`) and `text.dfy`
(`Text`), model the Python string operations the code relies on:
- `split` and `join`, and `in` on strings;
- `strip` over Python's whitespace set;
- ASCII `lower`;
- `int()` on strings.

Each stateful operation is a method specified by a pure function of the old
state: `WithPlaceholders`, `WithCoercedInts`, `WithFormatsList`, `Missing`,
`LoadedConfig`, `AssistantReply`, `ModelChoices`, `TextModelIds` and others.
The lemmas state what the source promises about those functions.

External inputs:
- The knowledge-base `retrieve` outcome.
- The model invocation: a function from model id and request body to a
  decoded body, or a failure.
- The `list_foundation_models` outcome.
- The parameter store: a function from parameter name to `Found(value)`,
  `ParameterNotFound`, another client error, or an exception that is not a
  client error.
- `json.loads`: a partial function from text to value. Where a property needs it, `DecodesDefault` says that the decoder reads the default formats text `["pdf", "docx", "txt", "md"]` as that list, which Python's `json.loads` does.
- The chat's `query_and_generate` call: a function from query and options to
  an answer, or to the exception text.
- The clock: timestamps are opaque strings.

## Model

| member | source | states |
|---|---|---|
| BedrockClient.ExtractLocationInfo | frontend/utils/bedrock_client.py:356-366 | A non-S3 location comes back unchanged. An S3 location with an empty URI gives empty bucket and key. A non-empty URI raises an index error exactly when it has fewer than two '/'. Otherwise the bucket holds no '/' and the URI is kept. |
| BedrockClient.S3UriRoundTrip | frontend/utils/bedrock_client.py:358-365 | For a URI `scheme//B/K` with no '/' in the scheme or in B, the bucket is exactly B and the key exactly K (K may contain '/'), so rejoining them gives back the URI. |
| BedrockClient.ExtractedS3Rejoins | frontend/utils/bedrock_client.py:363-364 | For every S3 URI that splits without error, the first two pieces, the bucket and (when a fourth piece exists) the key, joined with '/', rebuild the URI. With exactly three pieces the key is "". |
| BedrockClient.Preview | frontend/utils/bedrock_client.py:374 | The preview is the content itself when it has at most 200 characters. Otherwise it is the first 200 characters followed by exactly "...". It never exceeds 203. |
| BedrockClient.DocumentName | frontend/utils/bedrock_client.py:380-383 | A name is present iff the location is S3 with a non-empty key. It is then a '/'-free suffix of the key, and it is the whole key or preceded by a '/' (the last '/'-segment). |
| BedrockClient.FormatSources | frontend/utils/bedrock_client.py:368-387 | Exactly one citation per result, in order: citation i is built from result i and numbered i + 1. |
| BedrockClient.ContextText | frontend/utils/bedrock_client.py:122 | An empty context gives "". Otherwise the text is the first snippet, or the first two, or the first three, in order, each separated from the next by a blank line ("\n\n"); further snippets are dropped, and each of the first three is contained in the text. |
| BedrockClient.Prompt | frontend/utils/bedrock_client.py:124-138 | A non-empty context text gives the context template: the instruction, a blank line, "Context:" on its own line, the context text, a blank line, "Question: q", a blank line and "Answer:". An empty one gives the no-context sentence, a blank line, and the same question and answer lines. |
| BedrockClient.NoContextIff | frontend/utils/bedrock_client.py:122-138 | The no-context template is used iff the context is empty or is one empty snippet. |
| BedrockClient.PromptIgnoresExtraContext | frontend/utils/bedrock_client.py:122 | Once three snippets are present, further snippets do not change the prompt. |
| BedrockClient.PromptCarriesSnippet | frontend/utils/bedrock_client.py:122-132 | A prompt built with context contains each of the first three snippets. |
| BedrockClient.PromptEndsWithQuestion | frontend/utils/bedrock_client.py:125-138 | Both templates end with "Question: q" followed by a blank line and "Answer:". |
| BedrockClient.FamilyOf | frontend/utils/bedrock_client.py:141-180 | The family follows the source's branch order: Claude iff "anthropic.claude" occurs in the id; Titan iff it does not and "amazon.titan" does; Jurassic iff neither does and "ai21.j2" does; otherwise unknown. |
| BedrockClient.RequestFor | frontend/utils/bedrock_client.py:141-180 | The Titan body is chosen iff the first matching substring is "amazon.titan". The messages body is chosen iff it is "anthropic.claude" or nothing matches, so unknown ids fall back to the Claude format. Every body carries the prompt and the caller's token limit and temperature (`max_tokens`, `maxTokenCount` or `maxTokens`); the Titan body carries topP 0.9. |
| BedrockClient.FirstText | frontend/utils/bedrock_client.py:192-194 | `body.get(list, [{}])[0]` raises iff the list is present and empty. An absent list reads "No response generated". Otherwise the text is the first item's `text`, or "No response generated" when that item has none. |
| BedrockClient.FirstCompletionText | frontend/utils/bedrock_client.py:196 | The AI21 path raises iff `completions` is present and empty. Otherwise the text is the first completion's `data.text`, and "No response generated" when `completions`, `data` or `text` is absent. |
| BedrockClient.ResponseText | frontend/utils/bedrock_client.py:191-198 | The response path follows the request's branch order: Claude reads `content[0].text`, Titan `results[0].outputText` (through `FirstText`), Jurassic `completions[0].data.text`. Extraction fails iff the chosen family's list is present and empty. An unknown model returns the body's rendering. |
| BedrockClient.GenerateResponse | frontend/utils/bedrock_client.py:97-218 | Succeeds iff the invocation succeeds and its response text can be extracted. The response is then that text stripped. The model id, temperature and token limit are carried. `context_used` is the full context count, not the capped one. `prompt_length` is the length of the prompt. A failed invocation makes the call fail. |
| BedrockClient.QueryKnowledgeBase | frontend/utils/bedrock_client.py:30-95 | A failed retrieve propagates. On success there is one result per hit, in order, with the hit's text and its extracted location, and `total_results` equals the number of results. The query fails iff some location extraction raises. |
| BedrockClient.QueryAndGenerate | frontend/utils/bedrock_client.py:220-282 | Succeeds iff the retrieve succeeds, every hit's location extracts and generation over the hits' contents succeeds. The answer is then the generated response. Citation i is exactly `CitationFor` of hit i with its extracted location: numbered i + 1, with the hit's preview. The answer's query is the caller's query, and the metadata carries the hit count, the model id, the caller's temperature and the search type. |
| BedrockClient.ToModelInfos | frontend/utils/bedrock_client.py:294-305 | The listing converts iff every summary has an id, a name and a provider. The converted list then matches the listing one for one. |
| BedrockClient.ToModelInfosPrefix | frontend/utils/bedrock_client.py:294-305 | A prefix converts iff each of its summaries does, and converting one more summary extends the list by that one. |
| BedrockClient.FindModel | frontend/utils/bedrock_client.py:319-322 | Returns None iff no model has the id, and otherwise the first model that has it. |
| BedrockClient.Client.constructor | frontend/utils/bedrock_client.py:28 | The model cache starts empty. |
| BedrockClient.Client.ListAvailableModels | frontend/utils/bedrock_client.py:284-314 | A cached list is returned as it is and the cache is unchanged. Otherwise a successful listing is converted, cached and returned. A failure returns [] and leaves the cache unset. |
| BedrockClient.Client.GetModelInfo | frontend/utils/bedrock_client.py:316-322 | An unset cache is filled from a listing that converts and stays unset otherwise; an existing cache is never replaced. A result is the first cached model with the requested id. None holds iff there is no cache or no cached model has the id. |
| Text.Split | frontend/utils/bedrock_client.py:363-364 | `str.split(c)` yields one more piece than there are separators, and no piece contains the separator. |
| Text.JoinSplit | frontend/utils/bedrock_client.py:364 | Joining the pieces of a split with the separator gives back the string. |
| Text.SplitAfter | frontend/utils/bedrock_client.py:363-364 | Splitting `a + c + b`, with no `c` in `a`, gives `a` followed by the pieces of `b`. |
| Text.SplitNoSeparator | frontend/utils/bedrock_client.py:363 | A string without the separator splits into itself alone. |
| Text.LastSegmentIsSuffix | frontend/utils/bedrock_client.py:383 | `s.split(c)[-1]` is a separator-free suffix of `s`. It is all of `s` when there is no separator, and otherwise it is preceded by a separator. |
| Text.ContainsIff | frontend/utils/bedrock_client.py:141 | Python's substring test holds iff the substring occurs at some index. |
| Text.TrimStart | frontend/utils/bedrock_client.py:203 | Removes exactly the leading whitespace: a suffix whose dropped prefix is all whitespace and whose first character is not. |
| Text.TrimEnd | frontend/utils/bedrock_client.py:203 | Removes exactly the trailing whitespace: a prefix whose dropped suffix is all whitespace and whose last character is not. |
| Text.Strip | frontend/utils/bedrock_client.py:203 | `str.strip()` returns the substring of the input left after removing whitespace at both ends: everything before and after it is whitespace, and it neither starts nor ends with whitespace. |
| Text.StripEmptyIff | frontend/components/chat_interface.py:285 | The stripped input is empty iff every character is whitespace. |
| Text.StripIdempotent | frontend/components/chat_interface.py:285-286 | Stripping twice is stripping once. |
| Text.LowerIsTrue | frontend/utils/config_loader.py:63-65 | `s.lower() == "true"` holds iff `s` has four characters and spells "true" in any mix of cases. |
| Text.NatToString | frontend/utils/config_loader.py:56-59 | The decimal rendering of a natural number is a non-empty string of digits. |
| Text.DigitsOfNat | frontend/utils/config_loader.py:56-59 | Reading the rendered digits back gives the number. |
| Text.ParseIntToString | frontend/utils/config_loader.py:56-59 | `int(str(n)) == n` for every integer. |
| ConfigLoader.KeyOf | frontend/utils/config_loader.py:46-66 | Naming the key a name denotes gives back the name, so distinct names give distinct keys. |
| ConfigLoader.FromObject | frontend/utils/config_loader.py:78 | The decoded parameter-store object becomes a config with exactly its names as keys and its values. |
| ConfigLoader.EnvInt | frontend/utils/config_loader.py:56-59 | An unset variable gives the default itself; a set one gives exactly `int()` of its text, which fails when the text is not an integer. |
| ConfigLoader.UnsetFormatsAreDefault | frontend/utils/config_loader.py:60-62 | For any decoder that decodes the default formats text as `json.loads` does, an unset SUPPORTED_FORMATS gives the four default formats. Loading the environment can then fail only on a size, never with a JSON error, and a loaded config holds the default formats. |
| ConfigLoader.EnvIntDefaults | frontend/utils/config_loader.py:56-59 | Reading a size as the environment value or its default, then parsing, equals parsing the default rendered as text. |
| ConfigLoader.LoadFromEnv | frontend/utils/config_loader.py:44-66 | Loading succeeds iff the four sizes parse and the formats decode. Each size is the error exactly when it fails and the sizes before it (vectorDimensions, chunkSize, chunkOverlap, maxDocumentSize) parsed, naming its variable. The JSON error occurs iff every size parsed and SUPPORTED_FORMATS does not decode. On success the config holds the converted values. |
| ConfigLoader.EnvConfigKeys | frontend/utils/config_loader.py:46-66 | The environment config has exactly the fourteen keys of `_load_from_env`. |
| ConfigLoader.EnvConfigValues | frontend/utils/config_loader.py:47-62 | The identifiers (knowledge base, bucket, collection endpoint) are the variables as set, or None. The embedding model and index name default to "amazon.titan-embed-text-v2:0" and "rag-documents". The region and environment are the loader's. The sizes and formats are the converted values. |
| ConfigLoader.EnvFlags | frontend/utils/config_loader.py:63-65 | `enableOcr` is true iff ENABLE_OCR is unset or spells "true" in some case. `enableWebScraping` is true iff ENABLE_WEB_SCRAPING is set and spells "true" in some case. |
| ConfigLoader.Overlay | frontend/utils/config_loader.py:29-37 | A failed parameter-store load leaves the environment config. A loaded one gives the union of keys, with the parameter store's values winning and environment-only keys keeping theirs. |
| ConfigLoader.PairOf | frontend/utils/config_loader.py:33-34 | An item is a pair iff it is a two-element list whose first element is a string, or a two-character string. The key and value are then the list's two elements, or the string's two characters. |
| ConfigLoader.Merge | frontend/utils/config_loader.py:29-34 | `dict.update`: the keys are the union, the new dictionary's values win, and the other keys keep theirs. |
| ConfigLoader.LoadIndividualSsmParameters | frontend/utils/config_loader.py:90-115 | The loop returns the fallback `IndividualConfig`: it stops with no result as soon as a lookup raises an exception that is not a client error, and otherwise collects every found parameter. |
| ConfigLoader.FallbackFacts | frontend/utils/config_loader.py:90-115 | The fallback raises iff some lookup raises an exception that is not a client error. Otherwise it holds exactly the keys whose parameter was found, each with the parameter's text; missing parameters and other client errors are skipped, not defaulted. |
| ConfigLoader.LeadingPairs | frontend/utils/config_loader.py:33-34 | `dict.update` with a list writes nothing when the first item is not a pair, and every key it writes comes, with its value, from a pair of the list that is preceded only by pairs, so nothing after the first non-pair is written. |
| ConfigLoader.LeadingPairsStops | frontend/utils/config_loader.py:33-34 | The first non-pair ends the update: the list writes exactly what its items before that non-pair write. |
| ConfigLoader.LastPairWins | frontend/utils/config_loader.py:33-34 | When every item is a pair, a key takes the value of its last pair. |
| ConfigLoader.UpdateEntries | frontend/utils/config_loader.py:33-34 | A decoded object writes its entries, a list writes its leading pairs, and any other value writes nothing. |
| ConfigLoader.LoadFromSsm | frontend/utils/config_loader.py:68-88 | A missing frontend-config parameter gives the individual fallback. A found one gives no result iff its text does not decode, and a decoded object gives exactly its entries. Any other error gives no result. |
| ConfigLoader.Truthy | frontend/utils/config_loader.py:130 | A value is falsy exactly when it is None, "", 0, 0.0, False, [] or {}. |
| ConfigLoader.IsLocalDev | frontend/utils/config_loader.py:140-142 | Local-development mode holds iff the knowledge-base id is falsy and AWS_LAMBDA_FUNCTION_NAME is unset or empty. |
| ConfigLoader.WithPlaceholders | frontend/utils/config_loader.py:139-167 | Outside local-development mode nothing changes. In that mode the knowledge-base id is always the placeholder id, and a falsy bucket or endpoint becomes its placeholder string. Truthy bucket and endpoint values are kept, and no other key changes. |
| ConfigLoader.ToInt | frontend/utils/config_loader.py:171-174 | `int()` of a configuration value fails exactly on None, a list, a dictionary and a string that is not an integer. An integer is kept, a boolean becomes 1 or 0, and a string is parsed. |
| ConfigLoader.ToIntTruncates | frontend/utils/config_loader.py:171-174 | `int()` of a float always succeeds and truncates toward zero. |
| ConfigLoader.CoercionKeepsOthers | frontend/utils/config_loader.py:170-185 | Coercion touches no key outside the four sizes. |
| ConfigLoader.CoercionAllOrNothing | frontend/utils/config_loader.py:170-185 | When every size coerces, each holds its own coerced integer. Otherwise all four hold 1024/1000/200/50: one field that fails is enough to reset all four. Every other key is untouched. |
| ConfigLoader.CoercedAreInts | frontend/utils/config_loader.py:170-185 | After coercion the four sizes are present and are integers, whatever they held before. |
| ConfigLoader.WithFormatsList | frontend/utils/config_loader.py:187-195 | `supportedFormats` is always present and a list afterwards, and no other key changes. A list is kept. A string that decodes to a list becomes that list. A string that does not, and any other value, becomes the default four formats. |
| ConfigLoader.DefaultsShape | frontend/utils/config_loader.py:136-195 | After the defaults the four sizes are integers and the formats are a list. |
| ConfigLoader.MissingIff | frontend/utils/config_loader.py:128-131 | A field is reported missing iff it is required and falsy in the config. |
| ConfigLoader.MissingIffAll | frontend/utils/config_loader.py:128-131 | The same, for every field at once. |
| ConfigLoader.LocalDevNeverMissesKnowledgeBase | frontend/utils/config_loader.py:140-152 | In local-development mode `knowledgeBaseId` is never reported missing, and the bucket and endpoint are truthy. |
| ConfigLoader.DefaultsKeepPlaceholders | frontend/utils/config_loader.py:151-195 | Coercion and format normalisation leave the three identifiers as the placeholder step left them. |
| ConfigLoader.DefaultsKeepOtherKeys | frontend/utils/config_loader.py:136-195 | The defaults write no key outside the four sizes, the formats and the three identifiers. |
| ConfigLoader.Validated | frontend/utils/config_loader.py:117-134 | On success the config is the defaulted one: its required fields are truthy, its sizes are integers and its formats are a list. On failure it raises with a non-empty list holding exactly the falsy required fields. |
| ConfigLoader.LoadedConfigIsValid | frontend/utils/config_loader.py:24-42 | A loaded config has truthy required fields, integer sizes and a list of formats. A failed load is the environment's conversion error or a non-empty missing-field list. |
| ConfigLoader.SsmOverridesEnv | frontend/utils/config_loader.py:28-37 | A key the parameter store sets takes its value. A key it does not set keeps the environment's value. When the store fails, the environment alone is used. This holds for keys the defaults do not write. |
| ConfigLoader.ConfigDict.constructor | frontend/utils/config_loader.py:26 | The dictionary starts empty. |
| ConfigLoader.ConfigDict.Update | frontend/utils/config_loader.py:29-34 | The dictionary becomes the merge of itself with the other one. |
| ConfigLoader.ConfigDict.FillPlaceholders | frontend/utils/config_loader.py:139-167 | The dictionary becomes `WithPlaceholders` of its old contents. |
| ConfigLoader.ConfigDict.CoerceSizes | frontend/utils/config_loader.py:169-185 | The dictionary becomes `WithCoercedInts` of its old contents. |
| ConfigLoader.ConfigDict.NormaliseFormats | frontend/utils/config_loader.py:187-195 | The dictionary becomes `WithFormatsList` of its old contents. |
| ConfigLoader.ConfigDict.ApplyDevelopmentDefaults | frontend/utils/config_loader.py:136-195 | The dictionary becomes `WithDefaults` of its old contents: placeholders, then coercion, then formats. |
| ConfigLoader.ConfigDict.ValidateConfig | frontend/utils/config_loader.py:117-134 | Applies the defaults in place and returns the falsy required fields, in the order they are required. |
| ConfigLoader.FindMissingFields | frontend/utils/config_loader.py:128-131 | The loop collects exactly `Missing(fields, c)`, in order. |
| ConfigLoader.Loader.constructor | frontend/utils/config_loader.py:19-22 | The region defaults to "us-east-1" and the environment to "dev". |
| ConfigLoader.Loader.LoadConfig | frontend/utils/config_loader.py:24-42 | The result is `LoadedConfig`: the environment config updated with the parameter store's, then defaulted and validated. |
| ChatInterface.DefaultModelIsClaude | frontend/components/chat_interface.py:352-354 | The default model id takes the Claude request format. |
| ChatInterface.HaikuModelIsClaude | frontend/components/chat_interface.py:444 | The second fallback model takes the Claude request format. |
| ChatInterface.ExpressModelIsTitan | frontend/components/chat_interface.py:445 | The third fallback model takes the Titan request format. |
| ChatInterface.UserMessage | frontend/components/chat_interface.py:331-337 | A user message carries the text and the timestamp `now`, is not an error, and has no sources, metadata, feedback or feedback timestamp. |
| ChatInterface.AssistantReply | frontend/components/chat_interface.py:361-390 | Always an assistant message, flagged as an error iff the call raised. An error's content is the apology prefix followed by the exception text. On success sources are [] unless shown, and metadata is `{}` unless shown. |
| ChatInterface.WithFeedback | frontend/components/chat_interface.py:395-397 | Sets the feedback and its timestamp and changes nothing else in the message. |
| ChatInterface.Position | frontend/components/chat_interface.py:394-395 | Python indexing: defined iff -n ≤ i < n, and then the position is i or n + i. |
| ChatInterface.TextModelIdsIff | frontend/components/chat_interface.py:435-438 | An id is kept iff some model with "TEXT" among its output modalities has it. |
| ChatInterface.TextModelIdsAppend | frontend/components/chat_interface.py:436-438 | Filtering distributes over concatenation, so the ids keep the listing's order. |
| ChatInterface.ModelChoices | frontend/components/chat_interface.py:429-452 | The choices are never empty: the text models, or the three defaults when there are none, or the single default on an exception. |
| ChatInterface.GetAvailableModels | frontend/components/chat_interface.py:429-452 | The loop returns `ModelChoices`, and every id it returns is a default or belongs to a listed text model. |
| ChatInterface.Session.constructor | frontend/app.py:125-140 | The transcript starts empty. The preferences start as exactly theme "light", auto-scroll on, citations shown, 5 results and temperature 0.7. |
| ChatInterface.Session.GenerateResponse | frontend/components/chat_interface.py:344-390 | Exactly one assistant message is appended on every path, and the preferences are unchanged. |
| ChatInterface.Session.HandleUserMessage | frontend/components/chat_interface.py:328-342 | The transcript grows by exactly two: the user message, then the reply to it. |
| ChatInterface.Session.SubmitChatInput | frontend/components/chat_interface.py:280-286 | Clear empties the transcript. Send with input that is not blank appends the stripped message and its reply. Anything else changes nothing. |
| ChatInterface.Session.HandleFeedback | frontend/components/chat_interface.py:392-397 | An index below the length annotates that one message, counting negative indices from the end. A larger index changes nothing. An index below -n raises. The length never changes. |
| ChatInterface.Session.RegenerateResponse | frontend/components/chat_interface.py:405-427 | When 0 < index < n and the previous message is from the user, the message at index is removed and one fresh reply with the fixed options is appended, so the length is unchanged. Otherwise nothing changes. |
| ChatInterface.Session.ImportConversation | frontend/components/chat_interface.py:463-469 | The transcript becomes the imported messages, or [] when there are none. The preferences are updated key by key only when the conversation carries some, and are left untouched otherwise. |

Helpers with contracts that only serve the proofs above and model nothing of
their own: `Text.SuffixOfConcat`, `Text.OccursInConcat`,
`Text.MissingCharNotContained`, `Text.BetweenBlanks`,
`BedrockClient.JoinEmptyIff`, `BedrockClient.JoinHasPart`,
`BedrockClient.JoinUpToThree`, `BedrockClient.Regroup`,
`BedrockClient.JoinCarriesParts`, `BedrockClient.Contents`,
`BedrockClient.CitationsOfHits`, `ConfigLoader.WrittenAfterPair`,
`ConfigLoader.ShiftProvenance`, `ConfigLoader.CoercionResets`,
`ConfigLoader.CoercionKeeps`,
`ConfigLoader.MergeIntoEmpty`, `ConfigLoader.ResetAfterUpdate`,
`ConfigLoader.CoerceFieldFrame`, `ConfigLoader.EnvTextValues`,
`ConfigLoader.EnvConvertedValues`, `ConfigLoader.FallbackRaises`,
`ConfigLoader.FallbackHolds`, `ConfigLoader.FallbackStaysRaised`,
`ConfigLoader.MissingConcat` and `ConfigLoader.LoadedAfterEnv`.

## Left out

- AWS calls are inputs, not models: `retrieve`, `invoke_model`, `list_foundation_models`, SSM `get_parameter`, STS and S3. Their outcomes are passed in.
- Request and response bodies are not JSON-encoded or decoded.
  - The decoded response body is reduced to the paths the client reads.
  - An unknown model's `str(response_body)` is an opaque string.
  - The parameter store's value and `SUPPORTED_FORMATS` go through an abstract decoder.
- Floating-point values are not modelled:
  - score and its rounding to three places;
  - `query_time`, `generation_time` and `total_time`;
  - Temperature is a `real` that is only passed along.
  - A float configuration value is an exact `real`: `int()` truncates it toward zero and it is truthy iff non-zero. NaN and infinities are not modelled.
- Timestamps from `datetime.now`, `utcnow` and `time.time` are opaque string parameters.
- Logging and the Streamlit UI are not modelled: rendering, widgets, spinners, the feedback toasts, the sample questions and the rest of `frontend/app.py` (only its initial preferences are modelled).
- `st.rerun()` is not modelled. The clear button ends the script run, which is why `SubmitChatInput` does nothing further after clearing.
- These operations are not part of this model: `test_model_connectivity`, `get_embedding_info`, `get_aws_credentials_info`, `export_conversation`, and the rest of the chat page, which only displays values.
- `render` copies the sidebar widgets' max results, temperature, citation and auto-scroll settings into the session preferences (`frontend/components/chat_interface.py:91-98`). The widgets are not modelled, so neither is that write.
- Retrieval hit metadata (`include_metadata`) is not carried in the results, because nothing in the core reads it.
- Text.Lower: only ASCII letters are folded. Python's Unicode lower-casing is not modelled.
- Text.ParseInt: `int()` accepts only ASCII digits with an optional sign and surrounding whitespace. Underscore separators and non-ASCII digits are not modelled.
- ConfigLoader.FindMissingFields returns the list, and the caller turns a non-empty list into the `MissingFields` error instead of raising `ValueError`.
- ChatInterface.Session.HandleFeedback: the message is a new value in the sequence. Aliasing of the same message dictionary elsewhere in the session is not modelled.
- ChatInterface.Session.ImportConversation: imported messages are already typed records. A message without `role` or `content`, which would raise later, is not modelled.
- ChatInterface.Session.GenerateResponse: the keyword arguments are a complete `ResponseOptions` record. The defaults `_generate_response` fills in for missing ones are the values of `RegenerateOptions`.
- The index-creation routine and the infrastructure stacks are not part of this model.
- ConfigLoader.UpdateEntries: a list item that is a two-key object (which `dict.update` would read as a pair of its keys) is treated as a non-pair, and a pair whose key is not a string is treated as a non-pair, because configuration keys are names.
