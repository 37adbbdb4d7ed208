# magic-agent, modelled in Dafny

magic-agent drives DaVinci Resolve from the command line and from natural-language requests.
The Rust side (`magic-agent` CLI and library) turns a request into an execution plan through an
LLM client, or builds a single operation from command-line flags, and sends every operation as one
JSON command to a Python bridge script. The script (`python/resolve_bridge.py`) looks the
operation up in its `OPERATIONS` table, runs the handler against Resolve's scripting API and
prints one JSON response envelope (`{"success": true, "result": ...}` or
`{"success": false, "error": ..., "code": ...}`), which the Rust bridge decodes back into a
result.

This project models that core:

- the operation registry and its agreement with the Python table (`Operations`, `OperationsOrder`);
- the error codes (`MagicErrors`);
- configuration loading and defaults (`Config`);
- prompt assembly (`Prompt`);
- the LLM client's construction, provider routing, model listing and JSON extraction (`Client`);
- the subprocess bridge (`Bridge`);
- the CLI's parameter builders, `op` and `batch` (`Commands`);
- the agent (`Agent`);
- the Python dispatcher (`PyBridge`);
- a set of its handlers (`PyHandlers`);
- the beat-marker bookkeeping of `detect_beats` (`BeatMarkers`);
- the lemmas that connect the two sides (`Interop`).

The Python subprocess is the class `Bridge.Backend`. It keeps the log of commands sent (`sent`)
and answers each one through a function of the bridge, that log and the command (`respond`). A
deterministic backend with state is, in general, such a function. Resolve's API calls, the file
system, the environment, the HTTP services and the JSON/TOML parsers all become function
parameters of the members that use them.

JSON values (`JsonValue.Json`) hold integers only. Python truthiness is `JsonValue.Truthy`.

## Model

| member | source | states |
|---|---|---|
| OperationsOrder.NoDuplicates | src/resolve/operations.rs:1-128 | no operation name appears twice in the registry `ALL` |
| OperationsOrder.ThumbnailUnregistered | src/resolve/operations.rs:1-128 | `get_current_clip_thumbnail`, which the CLI sends, is not in the registry |
| OperationsOrder.GrabAllStillsUnregistered | src/resolve/operations.rs:1-128 | `grab_all_stills`, which the CLI sends, is not in the registry |
| OperationsOrder.CreateProjectUnregistered | src/resolve/operations.rs:1-128 | `create_project`, which the CLI sends, is not in the registry |
| OperationsOrder.RegistryInSorted | src/resolve/operations.rs:1-128 | every registry entry sits at its rank in a strictly increasing copy of the registry, the certificate behind `NoDuplicates` |
| MagicErrors.Code | src/error.rs:64-84 | every error has a non-empty code |
| MagicErrors.Message | src/error.rs:8-60 | every error has a non-empty display message |
| MagicErrors.CodeIdentifiesVariant | src/error.rs:64-84 | two errors have the same code exactly when they are the same variant, so the code identifies the variant |
| Config.FromRaw | src/config.rs:7-74 | each missing section or field of the file takes its default (provider `anthropic`, format `json`, no key, model, or Python path); a present field is kept |
| Config.EmptyFileIsDefault | src/config.rs:24-74 | a file with no sections yields the default configuration |
| Config.Model | src/config.rs:36-45 | a configured model wins; otherwise the provider's default model |
| Config.OpenRouterDefaultIsAnthropicModel | src/config.rs:36-45 | OpenRouter's default model is the Anthropic default under the `anthropic/` prefix |
| Config.ModelFallsBackToGpt4o | src/config.rs:36-45 | without a configured model, a provider that is not listed gets `gpt-4o`, whatever the key |
| Config.KeyVariable | src/config.rs:119-144 | exactly `anthropic`, `openai` and `openrouter` have an API-key environment variable |
| Config.WithEnvFallbacks | src/config.rs:119-129 | an unset key is taken from the provider's environment variable, when there is one; nothing else changes |
| Config.EnvFallbacksIdempotent | src/config.rs:119-129 | applying the environment fallbacks twice is the same as applying them once |
| Config.ApiKey | src/config.rs:131-144 | the key when one is set; otherwise an error naming the provider's environment variable |
| Config.ApiKeyAfterFallbacks | src/config.rs:119-144 | after the fallbacks a key is available exactly when it was configured or the provider's variable is set; a configured key is returned unchanged |
| Config.Load | src/config.rs:78-100 | a missing file gives the defaults; an unreadable file and a file that does not parse give their two distinct errors |
| Config.LoadWithoutFile | src/config.rs:78-100 | loading without a file is the default configuration with the environment fallbacks applied: provider `anthropic`, no model set (so the Anthropic default), output `json`, no Python path |
| Config.LoadFromFile | src/config.rs:78-100 | a parsed file is the parse result completed with defaults, then with the environment fallbacks |
| Config.PythonPath | src/config.rs:146-165 | a configured Python path wins; otherwise the first candidate that runs, or `python3` when none runs |
| Prompt.FormatContext | src/interpreter/prompt.rs:102-105 | the serialised context, or `{}` when serialisation fails |
| Prompt.PromptFrame | src/interpreter/prompt.rs:107-114 | the prompt starts with the system prompt and ends with the request, both verbatim |
| Prompt.SplitBuildPrompt | src/interpreter/prompt.rs:107-114 | a prompt built from a context with no blank line, as pretty-printed JSON is, splits back into that context and that request, so the prompt loses neither |
| Prompt.SplitAtRequestOfBuilt | src/interpreter/prompt.rs:107-114 | after a context with no blank line, the first request header is the one the builder put there |
| Prompt.HeaderNotInContext | src/interpreter/prompt.rs:107-114 | no request header starts inside a context with no blank line |
| Prompt.FallbackContextHasNoBlankLine | src/interpreter/prompt.rs:102-105 | the fallback context `{}` has no blank line, so a prompt built on it splits back too |
| Client.NewClient | src/interpreter/client.rs:42-51 | a client is built exactly when a key is set; it takes the key, provider, model and base URL; otherwise it gives the configuration's missing-key error |
| Client.NewWithoutAuth | src/interpreter/client.rs:53-61 | always builds a client, with an empty key when none is set |
| Client.ConstructorsAgreeWithKey | src/interpreter/client.rs:42-61 | with a key set, both constructors build the same client |
| Client.NoKeyNoAuthorization | src/interpreter/client.rs:53-61 | a client built without a key sends no authorization header |
| Client.RouteFor | src/interpreter/client.rs:109-114 | `anthropic`, the three OpenAI-compatible names and `openrouter` each have their own route; every other provider has none |
| Client.KeyedProvidersAreRouted | src/interpreter/client.rs:109-114 | every provider with an API-key variable has a route |
| Client.LocalServerNeedsConfiguredKey | src/interpreter/client.rs:42-51 | `lmstudio` and `custom` are routed to the OpenAI-compatible call but have no environment fallback, so a client exists only with a configured key; the placeholder key `dummy` sends no authorization header |
| Client.ModelsUrl | src/interpreter/client.rs:63-104 | the URL is the base URL with exactly its trailing slashes removed (a prefix of it, every removed character a slash, the kept text not ending in one), followed by `/models` |
| Client.ModelsUrlIgnoresTrailingSlashes | src/interpreter/client.rs:63-104 | extra trailing slashes on the base URL do not change the models URL |
| Client.CollectModelIds | src/interpreter/client.rs:63-104 | the loop collects the string `id` of every entry of `data`, in order, skipping entries without one |
| Client.IdsOfMembers | src/interpreter/client.rs:63-104 | a name is listed exactly when some entry has it as its string `id` |
| Client.IdsOfAllNamed | src/interpreter/client.rs:63-104 | when every entry has a string id, the list is the ids one for one |
| Client.IdsOfConcat | src/interpreter/client.rs:63-104 | listing the ids of two runs of entries is listing each and concatenating |
| Client.NoDataNoModels | src/interpreter/client.rs:63-104 | a response without a `data` array lists no models |
| Client.AfterOpening | src/interpreter/client.rs:131-145 | the text after an opening fence is found exactly when the trimmed text starts with a fence |
| Client.ExtractJson | src/interpreter/client.rs:131-145 | the result is trimmed; text that does not start with a fence is only trimmed |
| Client.ExtractJsonFenced | src/interpreter/client.rs:131-145 | a ```` ```json ```` block is reduced to its trimmed body |
| Client.ExtractPlainFenced | src/interpreter/client.rs:131-145 | a plain ```` ``` ```` block is reduced to its trimmed body |
| Client.ExtractBlock | src/interpreter/client.rs:131-145 | when the reply opens with a fence and the fence after the body is the last one, whatever text follows it, the trimmed body is returned |
| Client.ClosingFenceIsLast | src/interpreter/client.rs:131-145 | `rfind` finds the fence after the body when no fence starts in what follows it |
| Client.LastFenceIsClosing | src/interpreter/client.rs:131-145 | the closing fence is the last fence, so a body holding fences of its own is kept whole |
| Client.JsonOpeningNeedsJsonBody | src/interpreter/client.rs:131-145 | a plain fence is read as a ```` ```json ```` opening only when the body starts with `json` |
| Client.ExtractUnclosed | src/interpreter/client.rs:131-145 | a fenced text with no fence after its opening is only trimmed |
| Client.GeneratePlan | src/interpreter/client.rs:106-128 | an unknown provider fails with its name; a returned plan comes from the provider's route, the extracted JSON, a successful parse and a successful validation |
| Bridge.Backend.Run | src/resolve/bridge.rs:82-133 | running a command appends it to the log and returns the backend's answer to it |
| Bridge.CommandJson | src/resolve/bridge.rs:17-22 | the command holds `op`, and holds `params` exactly when there are params |
| Bridge.OptionalString | src/resolve/bridge.rs:25-33 | an optional string field is absent, null or a string; any other value fails to decode |
| Bridge.DecodeResponse | src/resolve/bridge.rs:25-33 | only an object or an array decodes; an object decodes exactly when its `success` is a boolean and its `error` and `code` are optional strings, a missing `result` being null and a string `error` or `code` carried as given |
| Bridge.OptionalElement | src/resolve/bridge.rs:25-33 | an optional string element is missing, null or a string; any other value fails to decode |
| Bridge.SequenceFormDecodes | src/resolve/bridge.rs:25-33 | the sequence form `[success, result?, error?, code?]` decodes exactly when it has one to four elements, a boolean first and optional strings third and fourth, a missing `result` being null |
| Bridge.SequenceFormResponse | src/resolve/bridge.rs:120-131 | `[false, null, "boom"]` is reported as `[PYTHON_ERROR] boom`, `[true]` as a null result, and a five-element array as a parse failure |
| Bridge.DecodedOptionalFields | src/resolve/bridge.rs:25-33 | a decoded response carries `error` and `code` as the optional-string reading of those fields or elements, absent and null alike being none |
| Bridge.ResponseToResult | src/resolve/bridge.rs:82-133 | success gives the result; failure gives `[code] error`, with `PYTHON_ERROR` and `Unknown error` standing in for missing parts |
| Bridge.Interpret | src/resolve/bridge.rs:82-133 | a spawn failure names the Python path; output that does not decode is reported with the raw stdout; only a decoded response can succeed |
| Bridge.InterpretDecoded | src/resolve/bridge.rs:82-133 | every response that decodes, failed ones included, becomes the result `ResponseToResult` gives it |
| Bridge.MissingResultIsNull | src/resolve/bridge.rs:25-33 | a success envelope without `result` gives null |
| Bridge.FailureDefaults | src/resolve/bridge.rs:82-133 | a failure envelope without error or code reads `[PYTHON_ERROR] Unknown error` |
| Bridge.NonBooleanSuccessRejected | src/resolve/bridge.rs:25-33 | a `success` that is not a boolean makes the response undecodable |
| Bridge.Execute | src/resolve/bridge.rs:82-133 | exactly one command is sent, and the result is that command's answer, interpreted |
| Bridge.Outcomes | src/resolve/bridge.rs:82-133 | each command of a sequence is answered after the ones before it, in order |
| Bridge.ExecuteOperation | src/resolve/bridge.rs:149-152 | sends the operation with its params and interprets the answer |
| Bridge.Query | src/resolve/bridge.rs:135-147 | sends a command without params and decodes a successful result |
| Bridge.CheckConnection | src/resolve/bridge.rs:135-140 | sends `check_connection` without params and decodes the result |
| Bridge.GetContext | src/resolve/bridge.rs:142-147 | sends `get_context` without params and decodes the result |
| Bridge.CheckPython | src/resolve/bridge.rs:154-172 | a Python that does not run is an error naming its path; otherwise the trimmed stdout, or the trimmed stderr when stdout is blank |
| Bridge.VersionOnStdout | src/resolve/bridge.rs:154-172 | a version printed on stdout, with any padding, is reported exactly |
| Bridge.VersionOnStderr | src/resolve/bridge.rs:154-172 | with blank stdout, a version printed on stderr is reported exactly |
| Bridge.Join | src/resolve/bridge.rs:50-79 | joins a directory and a name with exactly one separator |
| Bridge.ScriptCandidates | src/resolve/bridge.rs:50-79 | the candidates are, in order, the executable directory's script (when known), the manifest directory's (when set) and the bare script name, and nothing else |
| Bridge.FindScriptPath | src/resolve/bridge.rs:50-79 | the first candidate that is a file, or the bare name when none is |
| Bridge.NewBridge | src/resolve/bridge.rs:37-48 | the configured Python path, otherwise the first candidate interpreter that runs or `python3`; the first script candidate that exists, or the bare name |
| Commands.DecodeBatchOperation | src/cli/commands.rs:21-26 | an object step decodes exactly when it has a string `op`, a missing `params` becoming null; an array step decodes exactly when it is `[op]` or `[op, params]` with a string `op`; any other value fails |
| Commands.DecodeBatchOperations | src/cli/commands.rs:104-129 | a list decodes exactly when every step does, step for step |
| Commands.DecodeBatchValue | src/cli/commands.rs:104-129 | an array of steps, or an object with an `operations` array, each with its own error message; anything else is the shape error |
| Commands.WrapperSameAsArray | src/cli/commands.rs:104-129 | the wrapped form `{"operations": [...]}` decodes to the same steps as the bare array |
| Commands.MissingParamsIsNull | src/cli/commands.rs:21-26 | a step without `params` decodes with null params, not `{}` |
| Commands.ArrayFormStep | src/cli/commands.rs:21-26 | `[op, params]` decodes to that step and `[op]` to the step with null params |
| Commands.BatchText | src/cli/commands.rs:104-129 | exactly one of `--file` and `--stdin` must be given; the file must be readable |
| Commands.ParseBatchInput | src/cli/commands.rs:104-129 | input errors come first, then parse errors; steps come only from readable input that parses |
| Commands.BatchCommands | src/cli/commands.rs:467-509 | one command per step, carrying the step's op and params |
| Commands.BatchRecord | src/cli/commands.rs:467-509 | each step's record holds its index, op and status, with the result on success and the error on failure |
| Commands.BatchResults | src/cli/commands.rs:467-509 | the i-th record reports the i-th step's outcome, each step answered after those before it |
| Commands.RunSteps | src/cli/commands.rs:467-509 | the loop sends every step in order and records every outcome, without stopping at a failure |
| Commands.BatchResultsStep | src/cli/commands.rs:467-509 | the record of step `i` is built from the outcome of sending it after the steps before it |
| Commands.Batch | src/cli/commands.rs:467-509 | bad input sends nothing; a dry run sends nothing and reports the count; otherwise every step is sent and reported |
| Commands.BatchReportsEveryStep | src/cli/commands.rs:467-509 | the report's i-th entry is the i-th step's record |
| Commands.SourceCount | src/cli/commands.rs:75-102 | counts the params sources given, which is zero exactly when none is given |
| Commands.ParseParams | src/cli/commands.rs:75-102 | more than one source is an error; none gives `{}`; otherwise the single source is read and parsed |
| Commands.Op | src/cli/commands.rs:460-465 | bad params send nothing; otherwise exactly the named operation is sent with the parsed params |
| Commands.ParseI64 | src/cli/commands.rs:131-153 | an optional leading sign and then one or more ASCII digits parse, to their value, exactly when that value is in the signed 64-bit range; any other character, a lone sign or the empty string does not parse |
| Commands.ParseI64OfIntToString | src/cli/commands.rs:131-153 | every signed 64-bit integer parses back from its decimal text |
| Commands.ParsePropertyValue | src/cli/commands.rs:131-153 | `true`/`false` in any ASCII case are booleans; then a 64-bit integer; then the float parse; then the JSON parse when the text opens with `{`, `[` or `"`; otherwise the trimmed text as a string |
| Commands.IntegerPropertyRoundTrip | src/cli/commands.rs:131-153 | a 64-bit integer written as text reads back as that integer |
| Commands.SplitAtEquals | src/cli/commands.rs:155-167 | splits at the first `=`; without one, the whole item is the key and the value is empty |
| Commands.KeyValue | src/cli/commands.rs:155-167 | a pair is accepted exactly when both its trimmed key and trimmed value are non-empty |
| Commands.Property | src/cli/commands.rs:155-167 | an accepted pair's value is parsed as a property value |
| Commands.InsertPairs | src/cli/commands.rs:155-167 | the loop fails at an item that does not parse, and otherwise inserts every item in order |
| Commands.ParseKeyValuePairs | src/cli/commands.rs:155-167 | succeeds exactly when every item is a valid pair and then yields the object of the parsed pairs; on failure some item is invalid |
| Commands.PairsMapAppend | src/cli/commands.rs:155-167 | inserting one more pair overrides that key |
| Commands.LastKeyWins | src/cli/commands.rs:155-167 | a key's value is that of its last occurrence |
| Commands.PairsMapKeys | src/cli/commands.rs:155-167 | the object's keys are exactly the keys given |
| Commands.RequireToggle | src/cli/commands.rs:169-175 | exactly one of enable and disable must be given, and the result is whether enable was |
| Commands.RequireLinkToggle | src/cli/commands.rs:177-183 | exactly one of link and unlink must be given, and the result is whether link was |
| Commands.RequireSingleSelector | src/cli/commands.rs:185-200 | accepts exactly when one selector of all, index and name is given |
| Commands.BuildClipSelector | src/cli/commands.rs:202-229 | with exactly one selector given, the object holds the track and that one selector |
| Commands.MarkerAddParams | src/cli/commands.rs:515-535 | `frame` and `color` always; `relative` only when set; each of name, note and duration when given; nothing else |
| Commands.MarkerDeleteParams | src/cli/commands.rs:536-552 | needs a frame or a colour; holds exactly the ones given, and `relative` when set |
| Commands.TimelineSetParams | src/cli/commands.rs:602-618 | exactly one of name and index, sent on its own |
| Commands.ClipColorParams | src/cli/commands.rs:781-806 | colour or clear, not both and not neither, then exactly one selector; the selector holds exactly the track, the track type and that one selector key; clearing sends no colour |
| Commands.ClipDeleteParams | src/cli/commands.rs:807-828 | all or indices, not both and not neither; one index is sent as `index`, several as `indices`; the selector holds exactly the track, the track type and that one key; ripple always |
| Commands.ClipLinkParams | src/cli/commands.rs:829-840 | exactly one of link and unlink, and at least two indices |
| Commands.OpsList | src/cli/commands.rs:412-421 | lists every registered operation, in registry order |
| Agent.PlanCommands | src/lib.rs:52-115 | one command per planned operation, carrying its op and params |
| Agent.OperationRecord | src/lib.rs:52-115 | a record holds op and status, with the result on success and the error on failure |
| Agent.PlanResults | src/lib.rs:52-115 | the i-th record reports the i-th planned operation's outcome, in order |
| Agent.CountSuccesses | src/lib.rs:52-115 | at most the number of records, and equal to it exactly when every record succeeded |
| Agent.CountsAgree | src/lib.rs:52-115 | counting successful records counts the successful outcomes |
| Agent.SuccessesAreOkOutcomes | src/lib.rs:52-115 | the success count of a run is the number of operations whose answer was a success |
| Agent.ReportCounts | src/lib.rs:52-115 | the report holds all the records, their total and how many succeeded |
| Agent.PlanErrorMessage | src/lib.rs:76-80 | a plan that signals an error is reported as its error (`Unknown error` when absent), then ` Suggestion: ` and its suggestion (empty when absent), in all four combinations |
| Agent.ClientFor | src/lib.rs:133-139 | a cached client is reused; otherwise one is built from the configuration |
| Agent.PlanForRequest | src/lib.rs:52-115 | a context query error, a context decode error, a client error and a plan generation error each stop the request with that error; a plan that signals an error gives its error message; any other plan is the one generated from the formatted context and the request |
| Agent.MagicAgent.WithConfig | src/lib.rs:37-50 | keeps the configuration, starts with no client, and builds the bridge from the configuration: the configured or first running interpreter, and the first existing script |
| Agent.MagicAgent.LlmClient | src/lib.rs:133-139 | builds the client at most once and caches it; a failure leaves the cache empty |
| Agent.MagicAgent.ExecuteRequest | src/lib.rs:52-115 | queries the context, asks for a plan, then sends every planned operation in order and reports each outcome; any earlier failure sends nothing more |
| Agent.MagicAgent.GetContext | src/lib.rs:118-121 | one `get_context` command, its result decoded |
| Agent.MagicAgent.CheckConnection | src/lib.rs:123-126 | one `check_connection` command, its result decoded |
| Agent.MagicAgent.UpdateConfig | src/lib.rs:141-143 | replaces the configuration and keeps the bridge and the cached client |
| Agent.RunPlan | src/lib.rs:52-115 | the loop sends every planned operation in order and records every outcome |
| Agent.PlanResultsStep | src/lib.rs:52-115 | the record of operation `i` is built from the outcome of sending it after the operations before it |
| PyBridge.Success | python/resolve_bridge.py:35-37 | a success envelope; a falsy result becomes `{}` |
| PyBridge.Error | python/resolve_bridge.py:40-42 | a failure envelope with the message and the code |
| PyBridge.ReorderedGroupsAgree | python/resolve_bridge.py:3495-3644 | the two groups listed in another order in `OPERATIONS` hold the same names as the Rust groups |
| PyBridge.PyStr | python/resolve_bridge.py:3660-3662 | Python's `str` of a scalar: a string is itself and `None` is `None` |
| PyBridge.RunScript | python/resolve_bridge.py:3647-3671 | bad JSON fails with exit status 1; a command that is not an object, or whose `op` is a list or an object, crashes; an unregistered `op` is "Unknown operation" with status 1; a registered op prints the handler's response with status 0, or crashes when the handler raises |
| PyBridge.UnknownOpAnswered | python/resolve_bridge.py:3657-3662 | a string `op` missing from the table is answered "Unknown operation: <op>" with status 1 |
| PyBridge.MissingOpIsUnknown | python/resolve_bridge.py:3657-3662 | a command without `op` is answered "Unknown operation: None" with status 1 |
| PyBridge.UnknownOpIgnoresHandlers | python/resolve_bridge.py:3657-3662 | the answer to an unknown op does not depend on the handlers |
| PyBridge.ParamsDefaultOnlyWhenAbsent | python/resolve_bridge.py:3657-3669 | a missing `params` reaches the handler as `{}`, an explicit null as `None` |
| PyHandlers.TimelineCheck | python/resolve_bridge.py:395-401 | no application raises; no project and no timeline give their error envelopes; an open timeline passes |
| PyHandlers.PyInt | python/resolve_bridge.py:403-406 | Python's `int()` on a decoded value: an integer is kept, a boolean is 0 or 1, a string is parsed, anything else fails |
| PyHandlers.NormalizeFrame | python/resolve_bridge.py:408-412 | with `relative` true the frame is an offset from the timeline start; unflagged, a frame before the start is one too; any other flag keeps the frame |
| PyHandlers.NormalizeUnflaggedIdempotent | python/resolve_bridge.py:408-412 | normalising an unflagged non-negative frame twice gives the same frame as once |
| PyHandlers.MarkerName | python/resolve_bridge.py:392-393 | an empty name becomes a single space; other names are kept |
| PyHandlers.AddMarker | python/resolve_bridge.py:383-417 | params that are not an object raise; the connection checks, then the frame check, come first; with an open timeline and an integer frame the response is the normalised frame when the application adds the marker, and "Failed to add marker" otherwise |
| PyHandlers.DeleteMarker | python/resolve_bridge.py:489-522 | a given frame is normalised like `add_marker`'s and deleted; without a frame, markers are deleted by colour |
| PyHandlers.DeleteFindsAddedFrame | python/resolve_bridge.py:408-514 | for the same params, `delete_marker` addresses the frame `add_marker` would have used |
| PyHandlers.IndexValue | python/resolve_bridge.py:348-365 | an index is an integer or a boolean |
| PyHandlers.ClipAt | python/resolve_bridge.py:348-365 | an empty track selects nothing; an index in range selects that clip; one out of range selects nothing; an index that is not a number raises |
| PyHandlers.ClipsNamed | python/resolve_bridge.py:348-365 | selects exactly the clips with the given name |
| PyHandlers.PropertyTargets | python/resolve_bridge.py:335-377 | `all` selects the whole track; otherwise `index` selects the clip in range, else `name` selects the clips of that name, else nothing; only clips of the addressed track are selected |
| PyHandlers.IndexedClips | python/resolve_bridge.py:832-837 | selects only clips of the track that are not excluded, at most one per index |
| PyHandlers.IndexedClipsInOrder | python/resolve_bridge.py:832-837 | indices that are all in range select their clips one for one, in order |
| PyHandlers.KeptPositions | python/resolve_bridge.py:832-837 | the positions kept are increasing and are exactly those whose index is in range and not the excluded clip |
| PyHandlers.IndexedClipsKeepsInOrder | python/resolve_bridge.py:832-837 | with every index a number, the loop appends the clips at exactly the kept positions, in order, passing over indices out of range or naming the excluded clip |
| PyHandlers.CollectIndexed | python/resolve_bridge.py:832-837 | the loop selects what `IndexedClips` specifies |
| PyHandlers.IndexedClipsRaises | python/resolve_bridge.py:832-837 | an index that is not a number makes the handler raise |
| PyHandlers.FusionTargets | python/resolve_bridge.py:812-850 | `all` selects the whole track; otherwise `indices` run the loop (nothing on an empty track, raising when not iterable), else `index` selects the clip in range, else nothing; only clips of the addressed track are selected |
| PyHandlers.CreateFusionClip | python/resolve_bridge.py:812-850 | the connection checks come first; a selection that raises raises; an empty selection is "No clips selected"; otherwise the response names the new item, or is "Failed to create Fusion clip" when the application makes none |
| PyHandlers.SourceClipAsWritten | python/resolve_bridge.py:1880-1887 | as written: an empty track or an index at or past the end selects no source, while a negative index selects a clip |
| PyHandlers.NegativeSourceIndexWraps | python/resolve_bridge.py:1880-1887 | source index -1 on a two-clip track selects the second clip as written and no clip in the corrected form |
| PyHandlers.SourceClip | python/resolve_bridge.py:1880-1887 | a source is selected exactly when the index is within the track |
| PyHandlers.SourceClipAgreesInRange | python/resolve_bridge.py:1880-1887 | for non-negative indices the corrected source agrees with the code as written |
| PyHandlers.ClipsOtherThan | python/resolve_bridge.py:1889-1904 | all clips of the track except the source |
| PyHandlers.GradeTargets | python/resolve_bridge.py:1889-1904 | `all` gives the track without the source; `indices` run the loop excluding the source (nothing on an empty track); otherwise nothing; targets never include the source |
| PyHandlers.CopyGrades | python/resolve_bridge.py:1867-1911 | as written: params or a source that are not objects raise; the connection checks come first; the source is picked as `SourceClipAsWritten` picks it, then the grade is copied as `GradeCopy` states |
| PyHandlers.GradeCopy | python/resolve_bridge.py:1885-1911 | no source is "Source clip not found"; no targets is "No target clips found"; otherwise the response counts the targets when the application copies the grade, and is "Failed to copy grades" otherwise; a success never copies a clip onto itself |
| PyHandlers.CopyGradesCorrected | python/resolve_bridge.py:1867-1911 | the same handler with the source picked by `SourceClip`; a success has a source index within the track |
| PyHandlers.CopyGradesNegativeIndex | python/resolve_bridge.py:1880-1888 | source index -1 on a track of two distinct clips: as written the second clip's grade goes to the first; corrected, the source is not found |
| PyHandlers.ClipMarkerFrame | python/resolve_bridge.py:469-474 | a timeline frame is made relative to the clip's start; a clip frame is kept |
| PyHandlers.SkippedCount | python/resolve_bridge.py:476-479 | at most one skip per clip |
| PyHandlers.TallyAccountsForEveryClip | python/resolve_bridge.py:465-486 | every clip is added, failed or skipped, and the skipped ones are exactly those whose marker falls outside them |
| PyHandlers.TallyMarkers | python/resolve_bridge.py:465-486 | the loop's three counters are those `TallyOf` specifies and add up to the number of clips |
| PyHandlers.ClipMarkerTargets | python/resolve_bridge.py:449-461 | `all` selects every clip of the track; otherwise `index` selects the clip in range, else `name` the clips of that name, else nothing |
| PyHandlers.AddClipMarker | python/resolve_bridge.py:420-486 | the connection and frame checks come first; a selector that is not an object raises; an empty track is "No clips found" and an empty selection "No clips selected"; otherwise the response is the tally of marking the selected clips, every clip counted once |
| PyHandlers.TallyJson | python/resolve_bridge.py:486 | the response object has exactly the keys `added`, `failed` and `skipped`, holding the three counts |
| PyHandlers.Basename | python/resolve_bridge.py:225-228 | the suffix of the path after its last `/` |
| PyHandlers.BasenameOfJoin | python/resolve_bridge.py:225-228 | the basename of `dir/name` is `name` for any slash-free name |
| PyHandlers.ImportOutcome | python/resolve_bridge.py:219-230 | every path is either imported or failed |
| PyHandlers.FailedPathsAreRejected | python/resolve_bridge.py:219-230 | the failed paths are exactly those that do not exist or that the media pool refused, in order |
| PyHandlers.ImportAll | python/resolve_bridge.py:219-230 | the loop's two lists are those `ImportOutcome` specifies |
| PyHandlers.PathList | python/resolve_bridge.py:208-232 | a list of strings is iterated as given, a string as its characters; any other value (a list holding a non-string included) is modelled as raising |
| PyHandlers.ImportMedia | python/resolve_bridge.py:208-232 | no paths is an error before any connection check; no project is an error; otherwise each path is imported or failed in order and the response lists the imported basenames and the failed paths |
| PyHandlers.ExportType | python/resolve_bridge.py:777-784 | every string format maps to a known export type, unknown formats to Final Cut Pro XML |
| PyHandlers.AsciiLowerIdempotent | python/resolve_bridge.py:777-784 | lowering a lowered format changes nothing |
| PyHandlers.ExportTypeIgnoresCase | python/resolve_bridge.py:777-784 | the format's case does not matter, and the named formats map as listed |
| BeatMarkers.FramesOfUpdate | python/resolve_bridge.py:3268-3272 | storing a marker moves its frame into its own colour's set only |
| BeatMarkers.ColoursPartitionFrames | python/resolve_bridge.py:3255-3272 | blue and red markers split the stored frames between them |
| BeatMarkers.BeatRecorder.constructor | python/resolve_bridge.py:3250 | both counters start at zero with no markers |
| BeatMarkers.BeatRecorder.StartClip | python/resolve_bridge.py:3298 | each clip starts with no markers while the counters carry on |
| BeatMarkers.BeatRecorder.RecordMarker | python/resolve_bridge.py:3255-3272 | the same colour again is a no-op, a beat never replaces a downbeat, a downbeat replacing a beat moves one count over, and a new frame adds one count; both counters always match the colours stored |
| BeatMarkers.BeatRecorder.CountersMatchMarkers | python/resolve_bridge.py:3255-3272 | over a clip, the two counters together grow by the number of frames that got a marker |
| Interop.SuccessEnvelopeIsOk | src/resolve/bridge.rs:82-133 | Python's success envelope reaches the Rust caller as its result, `{}` for a falsy one |
| Interop.ErrorEnvelopeIsErr | src/resolve/bridge.rs:82-133 | Python's error envelope reaches the Rust caller as `[code] message` |
| Interop.SharedErrorTexts | src/error.rs:64-84 | Python's default code, the bridge's default code and `PythonError`'s code are one string; the not-running message is shared |
| Interop.RegistriesAgree | python/resolve_bridge.py:3495-3644 | the Rust registry and Python's `OPERATIONS` hold the same names, as often |
| Interop.RegisteredOnBothSides | python/resolve_bridge.py:3495-3644 | a name is in the Rust registry exactly when it is in Python's table |
| Interop.UnregisteredOperationFails | python/resolve_bridge.py:3657-3662 | a name the registry lacks comes back to the Rust caller as `[PYTHON_ERROR] Unknown operation: <name>` |
| Interop.UnknownToPython | python/resolve_bridge.py:3657-3662 | a name missing from Python's table is printed as an "Unknown operation" error that the Rust bridge reads as `[PYTHON_ERROR] Unknown operation: <name>` |
| Interop.CliOnlyOperationsUnknown | src/cli/commands.rs:652-658 | three of the names the command line sends (src/cli/commands.rs:652, 658 and 1029) are in neither the Rust registry nor the Python table |
| Interop.BatchStepWithoutParamsCrashes | src/cli/commands.rs:21-26 | a batch `add_marker` step without params is sent with null params, and the Python script then crashes instead of answering |
| Interop.CliMarkerFrame | src/cli/commands.rs:515-535 | `marker add` without `--relative` gets a frame before the timeline start read as an offset; with it, every frame is one |

## Left out

- Process spawning, HTTP requests, TOML and JSON parsing, the file system, environment variables and the clock are parameters (`respond`, `PlanService`, `parseToml`, `parseJson`, `readFile`, `isFile`, `runs`, `Env`).
- src/main.rs, the clap argument definitions in src/cli/mod.rs, `print_json`, and the `doctor`, `status`, `track`, `media`, `render`, `project`, `page`, `timecode`, `storage`, `gallery`, `node` and `layout` commands. Their parameter building is not modelled. Many of the names they send are registered on neither side: at least 45 distinct operation names sent from src/cli/commands.rs are in neither `ALL` nor Python's `OPERATIONS` (for example `load_project` at line 1051, `replace_clip` at 862, `transcribe_audio` at 878, `delete_project` at 1034, `get_layout_presets` at 1298), so such a command always ends in `[PYTHON_ERROR] Unknown operation: <name>`, as `Interop.UnregisteredOperationFails` states for any unregistered name; `Interop.CliOnlyOperationsUnknown` proves the absence for three of them.
- `MagicAgent::new`: it reads the configuration file from the user's home directory, which is I/O. `MagicAgent::bridge` is a field read.
- `ResolveContext` and its serialisation (src/resolve/context.rs is not part of this model). The context is a type parameter with a decode function and a serialiser.
- `Plan::validate` and `Plan::is_error` (the schema module is not part of this model). They are predicates passed to `Agent.PlanForRequest` and `Client.GeneratePlan`.
- The system prompt's text. It is a parameter of `Prompt.BuildPrompt`.
- `LlmConfig::base_url` is not defined in the files modelled. The base URL is a parameter of the client constructors.
- `ops schema` and the `ops.json` schema file.
- That every registry name is snake_case. This is a property of the constants that the registry proofs do not need.
- Floating-point values. `Json` holds integers only, and the float branch of `parse_property_value` is an oracle.
- The Python handlers other than `check_connection`'s messages, `import_media`, `set_clip_property`'s clip selection, `add_marker`, `add_clip_marker`, `delete_marker`, `export_timeline`'s format map, `create_fusion_clip`, `copy_grades` and `detect_beats`' `record_marker`. The other handlers are straight calls into Resolve's API that add no logic to model.
- PyHandlers.PropertyTargets: models which clips `set_clip_property` selects, not the per-property API calls or the `modified` count.
- PyHandlers.ImportMedia: `paths` given as a dictionary or with entries that are not strings is modelled as raising. Python would iterate a dictionary's keys or pass numbers to `os.path.exists`.
- PyHandlers.ExportType: lowers ASCII letters only. Python's Unicode `lower()` maps no other character onto the letters of the four keys except the Kelvin sign, which lowers to `k`, a letter no key contains.
- `detect_beats` apart from `record_marker`: the audio analysis, the per-beat loop, the `AddMarker` calls from `frame_markers` and the skipped-clip list. These depend on numeric beat tracking.
- The Python process's exit status. The Rust bridge ignores it, so `PyBridge.RunScript` reports it and nothing reads it.
- Config's `&mut self` methods (`apply_env_fallbacks`, `load`) are value-returning functions. `Config` is a plain owned value, so no aliasing is lost.
- `PyBridge.PyStr` covers scalars only. An `op` that is a list or an object makes `main` raise before it is printed.
- Pairing of `get_resolve()` failure with handlers: a missing application is `Editor.NotRunning`, under which handlers that call it raise.

## Notes where the code is followed

- A batch step without `params` is sent with `"params": null`, not `{}`. `#[serde(default)]` on a `serde_json::Value` field yields `Value::Null`. Python then hands `None` to the handler (`Interop.BatchStepWithoutParamsCrashes`).
- `batch` does not reject an empty op name. Such a step is sent and answered as an unknown operation.

## Findings

| source | as written | input that shows it | evidently intended | confidence | as-written member | corrected member |
|---|---|---|---|---|---|---|
| python/resolve_bridge.py:1880-1887 | `copy_grades` rejects a source index only when it is at or past the end of the track, so Python's negative indexing lets `-1` pick the last clip | a video track with clips a and b, `source: {"index": -1}`: clip b becomes the grade source | reject negative indices, as the `0 <= idx < len(items)` checks of the other handlers do | medium, not executed | PyHandlers.CopyGrades, PyHandlers.SourceClipAsWritten, PyHandlers.NegativeSourceIndexWraps, PyHandlers.CopyGradesNegativeIndex | PyHandlers.SourceClip, PyHandlers.CopyGradesCorrected |
