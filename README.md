# LiteLLM companion: proxy rewriting, sync scheduling and provider presets

This project is a Dafny model of three parts of a service that sits in front of
a LiteLLM gateway and keeps that gateway's model list in step with upstream
providers:

- **The OpenAI-compatible proxy** (`proxy/api.py`). It reads its two
  logging switches, `PROXY_LOG_REQUESTS` and `PROXY_LOG_BODY`, through a
  boolean environment-flag parser. It flattens chat `messages` into a single
  completion `prompt` and repairs messages whose `content` is missing or
  null (an empty string is kept). Before forwarding a request to LiteLLM it reshapes the request body:
  - turns a Responses-style `input` or a list-of-messages `prompt` into
    `messages`;
  - applies the per-model "completion" compatibility mode;
  - drops keys the target endpoint does not accept;
  - reroutes chat requests to `/v1/completions` when the body is prompt-shaped.

  When a chat request was rerouted, it converts the completion answer back
  into a chat answer. It does this both for a whole JSON body and for a
  server-sent-event stream.
- **The sync worker** (`backend/sync_worker.py`). It is an object with a
  `running` flag and a map from provider id to the time of that provider's
  last successful sync. Every pass it:
  - snapshots the providers with their effective interval (the provider's own
    one, or the global one when the provider's is unset or 0);
  - selects the providers that are due;
  - syncs them one at a time, recording a timestamp only on success.

  A SIGTERM/SIGINT handler clears `running`, and the loop stops after the pass
  in progress.
- **The free-tier provider presets** (`shared/provider_presets.py`). This is a
  table of ten presets with a case-insensitive lookup by name and a listing
  for the UI.

JSON values are the `Json` datatype (`json.dfy`). Objects are
insertion-ordered key/value lists, as Python dicts are. The Python string
built-ins the code relies on (`strip`, `lower`, `startswith`, `endswith`, `rstrip("/")`, `join`,
`str(int)`)
are in `py_text.dfy`. `Option`/`Result` are in `wrappers.dfy`.

Each imperative routine is a `method` whose loop is proved equal to a
specification function. The properties the code promises are lemmas about
those functions:
- sanitising is idempotent, and every sanitised message has usable content;
- the key filter splits the keys exactly;
- only the first stream chunk carries the assistant role;
- `[DONE]` ends the stream;
- only a successful sync moves a provider's timestamp;
- every preset is found under any casing of its name;
- and others listed in the table below.

## Model

| member | source | states |
|---|---|---|
| ProxyRequest.EnvFlagCases | proxy/api.py:24-28 | an unset variable gives the default; a set one ignores the default and is true exactly when it is one of 1, true, yes, on in any letter case, with any white space around it |
| ProxyRequest.EnvFlagNormalises | proxy/api.py:24-28 | surrounding white space and letter case never change a flag's value |
| ProxyMessages.ContentToText | proxy/api.py:40-48 | the loop over a list content yields exactly the string `text` values of its dict items, in order, joined by newlines; a string content is kept as is; any other content gives "" |
| ProxyMessages.MessagesToPrompt | proxy/api.py:31-53 | the prompt is the non-empty parts of the dict messages ("role: text" stripped when the role is truthy, the text alone otherwise), joined by newlines; a non-list gives "" |
| ProxyMessages.PromptAppend | proxy/api.py:31-53 | the prompt of two message lists concatenated is the two prompts glued by a newline, with an empty side dropping out |
| ProxyMessages.PromptOfOne | proxy/api.py:31-53 | a single message contributes its own part when it is a dict and nothing otherwise |
| ProxyMessages.PromptWithoutDicts | proxy/api.py:31-53 | a list with no dict message, or a non-list, yields the empty prompt |
| ProxyMessages.ContentTextAppend | proxy/api.py:40-46 | the text of a content list split in two is the two texts joined by a newline, a side without text items dropping out |
| ProxyMessages.ContentTextOfItem | proxy/api.py:40-48 | a one-item content list yields that item's text exactly when it is a text item |
| ProxyMessages.SanitizeOne | proxy/api.py:62-66 | a missing or null `content` becomes "", so the repaired message always has usable content; every other key is unchanged; a message already usable is returned as is |
| ProxyMessages.SanitizeMessages | proxy/api.py:56-68 | the loop returns the dict messages of a list, each repaired, in order (non-dicts dropped; a non-list gives []) |
| ProxyMessages.SanitizedUsable | proxy/api.py:56-68 | every sanitised message has usable content |
| ProxyMessages.SanitizedAppend | proxy/api.py:56-68 | sanitising works message by message: it distributes over concatenation |
| ProxyMessages.SanitizedFixpoint | proxy/api.py:56-68 | a list whose messages are all usable is left unchanged |
| ProxyMessages.SanitizeIdempotent | proxy/api.py:56-68 | sanitising a sanitised list changes nothing |
| ProxyRequest.InputRewrite | proxy/api.py:111-123 | without `messages`, a list `input` becomes `messages`, and a string `input` becomes `prompt` and forces the completion route; `input` is removed, other keys keep their values, and the body is marked normalised; anything else is untouched |
| ProxyRequest.PromptRewrite | proxy/api.py:125-136 | without `messages`, a list `prompt` of dicts becomes `messages`; a list of strings becomes the newline-joined string; a mixed list, or a `prompt` that is not a list, is untouched; other keys keep their values |
| ProxyRequest.ReshapeBody | proxy/api.py:106-136 | the method's result is the input rewrite followed by the prompt rewrite |
| ProxyRequest.CompatModeOf | proxy/api.py:138-148 | the mode is the one recorded for the body's string `model` when a compat provider serves it, and null otherwise |
| ProxyRequest.CompatRewrite | proxy/api.py:146-154 | in "completion" mode a body with `messages` gets `prompt` from the flattened messages, loses `messages`, keeps every other key's value, and is marked normalised and forced to the completion route; otherwise it is untouched |
| ProxyRequest.SanitizeRewrite | proxy/api.py:156-161 | a body with `messages` has them replaced by the sanitised list, every other key keeping its value and the key set unchanged, and is marked normalised exactly when it already was or the sanitised list differs; a body without `messages` is untouched |
| ProxyRequest.NormalizePayload | proxy/api.py:106-161 | the method's payload, flags and compatibility mode are exactly the four rewrites applied in order |
| ProxyRequest.KeepAllowedContents | proxy/api.py:163-209 | the filtered body has only allowed keys, and every allowed key keeps its value |
| ProxyRequest.DroppedKeys | proxy/api.py:163-209 | a key is reported dropped exactly when it was present and not allowed |
| ProxyRequest.FilterSplitsKeys | proxy/api.py:163-209 | kept plus dropped keys account for every key, and nothing is dropped exactly when the body is unchanged |
| ProxyRequest.KeptInOrder | proxy/api.py:163-209 | filtering keeps the original key order |
| ProxyRequest.DroppedInOrder | proxy/api.py:163-209 | dropped keys are reported in body order |
| ProxyRequest.FilterPayload | proxy/api.py:163-209 | the method's result is the allow-listed body plus the dropped keys; non-dict bodies pass through; the result is unchanged exactly when nothing was dropped |
| ProxyRequest.RerouteCases | proxy/api.py:219-233 | non-chat paths are never rerouted; a chat path goes to the completion path exactly when the compatibility mode is "completion", the route was forced, a `prompt` key or the text `"prompt"` in the body comes with `messages` that is not a non-empty list, or the body is null |
| ProxyRequest.ChatPathIsNotCompletionPath | proxy/api.py:219-233 | a path ending in the chat path never ends in the completion path, so a chat request is converted back only when it was rerouted |
| ProxyRequest.RouteRequest | proxy/api.py:219-233 | the method returns the routed path |
| ProxyRequest.PrepareRequest | proxy/api.py:96-282 | an unconfigured LiteLLM URL is the only failure (status 400); otherwise the payload is the normalised and filtered body, the target is the routed path, and conversion is requested exactly when a chat path was rerouted |
| ProxyRequest.ForwardHeaders | proxy/api.py:263-272 | no header name occurs twice and only authorization and content-type are sent; the caller's Authorization is forwarded, else a Bearer key when one is configured, else none; content-type is sent exactly when the caller gave one, with its value |
| ProxyResponse.ConvertCompletionBody | proxy/api.py:366-385 | a non-dict body passes through; a dict whose `choices` cannot be iterated fails; otherwise the chat body carries the upstream id, created and usage, the upstream model or else the requested one, and one assistant message per completion choice, carrying the choice's index (0 when absent or not a dict), text (or "") and finish reason |
| ProxyResponse.ConvertChoices | proxy/api.py:370-376 | the loop builds exactly one chat choice per completion choice, in order |
| ProxyResponse.ChatChoiceFields | proxy/api.py:370-376 | each converted choice has the choice's index (0 when absent or not a dict), role "assistant", content the choice's text or "", and the choice's finish reason |
| ProxyResponse.ChatBodyFields | proxy/api.py:377-384 | the chat body has object "chat.completion", the upstream id, created and usage, the upstream model or else the requested one, and the converted choices |
| ProxyResponse.ClassifyPayload | proxy/api.py:324-331 | a non-dict payload raises; a dict without truthy `choices` is skipped; a chunk is emitted exactly when `choices` is a non-empty list whose first item is a dict, and it carries that item and the payload; any other truthy `choices` raises |
| ProxyResponse.ClassifyLine | proxy/api.py:315-331 | a line that is not a data line is skipped; a data line finishes exactly when its stripped data is "[DONE]"; otherwise undecodable data is skipped and decoded data is classified as its payload; an emitted chunk comes from the decoded data of that line |
| ProxyResponse.DoneLineFinishes | proxy/api.py:316-323 | a data line whose stripped data is "[DONE]", with any white space around the marker, finishes the stream |
| ProxyResponse.ConvertLines | proxy/api.py:314-353 | the stream loop produces exactly the events and the raised flag of the line-by-line conversion specification |
| ProxyResponse.ConvertStream | proxy/api.py:314-353 | the SSE conversion of a list of lines equals its specification |
| ProxyResponse.DeltaFields | proxy/api.py:332-338 | a delta carries the assistant role exactly when the role has not been sent, and content exactly when the choice's text is a non-empty string |
| ProxyResponse.DeltaOfChunk | proxy/api.py:340-352 | the delta inside an emitted chunk is the choice's delta |
| ProxyResponse.RoleOnlyInFirstChunk | proxy/api.py:332-335 | in any stream only the first chunk carries the role |
| ProxyResponse.DoneIsLast | proxy/api.py:320-323 | a done event can only be the last event |
| ProxyResponse.DoneEndsStream | proxy/api.py:320-323 | a "data: [DONE]" line, with any white space around the marker, ends the stream with the single done event, whatever follows |
| ProxyResponse.SkippedLine | proxy/api.py:316-330 | a blank, non-data, undecodable or choice-less line changes nothing in the output |
| ProxyResponse.EventsBounded | proxy/api.py:314-353 | the stream never has more events than input lines |
| ProxyResponse.ContentOnlyForText | proxy/api.py:336-338 | every content field in the stream is a non-empty string |
| SyncScheduler.Snapshot | backend/sync_worker.py:86-94 | the snapshot keeps id, name and enabled flag; the interval is the provider's own when set and non-zero, else the global one (an own interval of 0 does not disable syncing) |
| SyncScheduler.SyncWorker.ProviderSnapshots | backend/sync_worker.py:85-94 | the loop returns the snapshot of every row, in order |
| SyncScheduler.SyncWorker.DueProviders | backend/sync_worker.py:104-120 | the loop returns exactly the due providers, in provider order, and leaves the state alone |
| SyncScheduler.DueIdsExactly | backend/sync_worker.py:107-120 | an id is selected exactly when some snapshot with that id is due |
| SyncScheduler.DueIdsAppend | backend/sync_worker.py:107-120 | selection keeps provider order |
| SyncScheduler.SelectionRule | backend/sync_worker.py:107-120 | with distinct ids, a disabled provider or one with interval 0 is never selected; otherwise it is selected exactly when it was never synced or its interval has elapsed |
| SyncScheduler.Classify | backend/sync_worker.py:146-212 | a provider counts as synced exactly when it still exists, is enabled, has a target (compat providers need a LiteLLM URL), and its call completes; the recorded time is the completion time |
| SyncScheduler.SyncWorker.SyncProviders | backend/sync_worker.py:140-212 | the loop leaves the timestamps as the in-order recording of every success and keeps `running` |
| SyncScheduler.OnlySuccessWrites | backend/sync_worker.py:187-212 | an id's timestamp changes only if one of its syncs succeeded, and then it holds that sync's time |
| SyncScheduler.RecordSyncsKeepsKeys | backend/sync_worker.py:140-212 | syncing never forgets a provider's timestamp |
| SyncScheduler.FailedStaysDue | backend/sync_worker.py:210-212 | a due provider whose syncs all fail is still due at any later time |
| SyncScheduler.LastSuccessRecorded | backend/sync_worker.py:207-208 | when a position synced and its id does not occur later in the list, the map holds that sync's finishing time for the id |
| SyncScheduler.CompatWithoutTargetUntouched | backend/sync_worker.py:158-190 | with no LiteLLM URL, a compat or completion provider's timestamp is neither added nor changed |
| SyncScheduler.SyncWorker.constructor | backend/sync_worker.py:42-46 | a new worker is running and has no timestamps |
| SyncScheduler.SyncWorker.HandleShutdown | backend/sync_worker.py:214-217 | the handler clears `running` and leaves the timestamps |
| SyncScheduler.SyncWorker.RunCheck | backend/sync_worker.py:80-125 | one pass leaves the timestamps as the recording of the sync of the providers due in that pass |
| SyncScheduler.SyncWorker.Run | backend/sync_worker.py:77-132 | a running worker performs the passes up to and including the first signalled one; a stopped worker does nothing; afterwards it runs exactly when no pass was signalled |
| SyncScheduler.SignalStopsLoop | backend/sync_worker.py:77-132 | passes after the first signalled one have no effect |
| ProviderPresets.MatchIndex | shared/provider_presets.py:164-170 | the first position whose lower-cased name equals the key, or none exactly when no name matches |
| ProviderPresets.ScanPresets | shared/provider_presets.py:164-170 | the case-insensitive scan returns the first matching preset of any table |
| ProviderPresets.GetPresetByName | shared/provider_presets.py:164-170 | the method returns the first preset whose name matches ignoring case, or none |
| ProviderPresets.EveryPresetFound | shared/provider_presets.py:30-170 | every preset is found under any casing of its name |
| ProviderPresets.NamesDistinctIgnoringCase | shared/provider_presets.py:30-161 | no two presets have names that differ only in case |
| ProviderPresets.LookupIgnoresCase | shared/provider_presets.py:164-170 | a name and its lower-cased form find the same preset |
| ProviderPresets.PresetShape | shared/provider_presets.py:30-161 | each preset is of type openai or ollama, needs a key with a key URL, syncs every 3600 or 7200 seconds, and has a default Ollama mode exactly when it is of type ollama |
| ProviderPresets.TableShape | shared/provider_presets.py:30-161 | every preset in the table has that shape |
| ProviderPresets.ListPresets | shared/provider_presets.py:173-188 | the listing has one entry per preset, in order, with the nine listed fields |
| ProviderPresets.ListingRoundTrip | shared/provider_presets.py:164-188 | every listed name finds the preset it was listed from |

## Left out

- HTTP transport is outside the model. This covers the FastAPI routing, the
  httpx client, its timeouts, logging, and the request/response previews. A
  stream whose upstream status is 400 or more, or that does not need
  conversion, is relayed byte for byte (proxy/api.py:296-312); that relay is
  not modelled.
- Request bodies are the `Json` datatype. Floats are not modelled: numbers are
  integers. `json.loads` of a stream's data line is the `decode` parameter.
- The raw body is not modelled as bytes. Its `"prompt"` test is the
  `rawMentionsPrompt` parameter. After normalisation, the re-dumped body is
  tested structurally by `MentionsPrompt`.
- The database is modelled as parameters:
  - the compat-provider lookup of the proxy is the `compatModes` map;
  - the provider rows of each pass are in `Check.rows`;
  - the rows re-read at sync time are in `Check.db`.
- Calls to code outside the model are outcomes: the reconcile or sync call of
  each position is a `CallOutcome` (completed at a time, or raised).
- Time is an integer clock in seconds.
- The 30-second and 60-second sleeps, the signal registration and the engine
  set-up and disposal are not modelled.
- An exception escaping a pass in `get_config`/`get_all_providers` is not
  modelled.
- `_ConfigWrapper` and the pricing fields of the configuration snapshot are
  not modelled; they are passed through to code outside the model.
- The global interval is an `int`. A null global interval, which would reach
  the comparison at line 119 as `None`, is not modelled.
- `str.strip()` and `str.lower()` are modelled on ASCII white space and ASCII
  letters only.
- PyRepr: a truthy non-string role is rendered into the prompt line by
  `str()`/`repr()` (proxy/api.py:50). The model always puts nested strings in
  single quotes without escaping; Python's choice of double quotes for a
  string holding a single quote, and its escapes, are not modelled.
- ProxyResponse.ConvertStream: the stream properties are stated over the
  per-line classification. They therefore hold for any `decode`, not only for
  Python's JSON parser.
- SyncScheduler.SyncWorker.SyncProviders: the per-provider session and the
  `get_provider_by_id` re-read (backend/sync_worker.py:147-148) run outside
  the `try` at line 156. An exception there leaves `sync_providers`, is
  caught by the loop at line 130, and skips the rest of the pass: the later
  providers of that pass keep their old timestamps. The model reads each row
  from a map that cannot fail, so it always goes on to the later providers.
- SyncScheduler.SyncWorker.SyncProviders: syncing is sequential, one provider
  after another, as the code does it. This model has no concurrent syncing.
