# REST mock model adapter and ordered-list scorer, in Dafny

This project models two pieces of an LLM-evaluation repository.

- **The REST mock model adapter** (`MockRestAPI`). It builds the JSON body and the headers of a POST to `/v1/chat/completions` from a chat request: messages, tools, a tool-choice policy, generation settings, and extra keyword arguments given at construction. It turns the JSON reply into the framework's `ModelOutput`. It converts every failure of the exchange into an output that carries the error text. It classifies failures for the framework's retry and authentication logic, and reports the key under which connections are pooled.
- **The `ordered_list` scorer** of the US-government knowledge task. It splits a completion on commas, normalises each piece and each target, and compares the two lists, either position by position or by membership when the sample's metadata sets `ignore_order`.

Files and modules:

| file | module | contents |
|---|---|---|
| `wrappers.dfy` | `Wrappers` | `Option` (Python `None`) and `Result` (a computation that may raise) |
| `json.dfy` | `Json` | JSON values. A `dict` is an ordered list of fields: lookup finds the first, insert replaces in place or appends, and `update` is a run of inserts. Also Python truthiness and `for`-loop iteration. |
| `decimal.dfy` | `Decimal` | Python's `str(int)`, and reading it back |
| `framework.dfy` | `Framework` | the framework's value objects (messages, tools, tool choice, config, output) and `Hooks`, the framework functions the adapter calls but does not define |
| `mockrest.dfy` | `MockRest` | the adapter: construction, headers, request body, response parsing, `generate`, retry and auth classification |
| `us_government.dfy` | `UsGovernment` | comma splitting and the scorer |

Three kinds of behaviour enter as parameters:

- **The HTTP exchange.** An `Exchange` value says whether the exchange raised (a status error, a transport error, anything else) or delivered a decoded body.
- **The environment.** `Create` takes an explicit `map<string, string>`.
- **The framework's functions.** `Hooks` supplies the message text accessor, `as_stop_reason` and Python's `str(ex)` of a runtime error. The scorer takes `_normalize` as a `string -> string` parameter.

A reply that is not shaped as the code expects makes `_parse_response` raise a Python runtime error. Examples are `.get` on a list, or a `for` loop over `null`. The model carries that error as a `TypeFault`, and `Generate` reports it under the broad `except Exception` branch as `Unexpected error: …`.

`tool_choice` is forwarded only when it is a string or a dict (source lines 266-270). The framework's named-function selector is neither, so it sends nothing, although the class docstring (line 49) shows a `{"type": "function", …}` form. `ToolChoice.FunctionChoice` stands for that selector.

## Model

| member | source | states |
|---|---|---|
| `MockRest.Create` | src/inspect_ai/model/_providers/mockrest.py:109-124 | Construction succeeds exactly when an explicit base URL or `MOCKREST_BASE_URL` is non-empty; the explicit one wins; otherwise it fails with the exact `ValueError` text. A non-empty explicit API key wins over `MOCKREST_API_KEY`, which may be absent. |
| `MockRest.ConnectionKey` | src/inspect_ai/model/_providers/mockrest.py:374-377 | The key is the base URL when it is non-empty, otherwise `"mockrest"`. |
| `MockRest.CreatedConnectionKey` | src/inspect_ai/model/_providers/mockrest.py:109-117 | Every constructed adapter is keyed by the base URL it resolved, so the `"mockrest"` fallback is never reached for one. |
| `MockRest.BuildHeaders` | src/inspect_ai/model/_providers/mockrest.py:220-227 | `Content-Type: application/json` is always present; `Authorization` is present exactly when the API key is non-empty, as `Bearer <key>`; no other header is present. |
| `MockRest.HeaderCarriesKey` | src/inspect_ai/model/_providers/mockrest.py:225-226 | A server that strips the `Bearer ` scheme from the header reads back exactly the configured key. |
| `MockRest.MessagesJson` | src/inspect_ai/model/_providers/mockrest.py:238-244 | One `{role, content}` object per input message, in input order, with the message's role name and text. |
| `MockRest.ToolsJson` | src/inspect_ai/model/_providers/mockrest.py:253-263 | One `{type: "function", function: {name, description, parameters}}` per tool, in order. |
| `MockRest.OptionalEntries` | src/inspect_ai/model/_providers/mockrest.py:251-284 | The optional keys are inserted in source order: `tools`, `tool_choice`, then the six generation parameters. |
| `MockRest.OptionalKeysDistinct` | src/inspect_ai/model/_providers/mockrest.py:251-284 | The ten keys of the structured body are pairwise different, so no insertion overwrites another. |
| `MockRest.StructuredOptional` | src/inspect_ai/model/_providers/mockrest.py:251-284 | Before the extra arguments, each optional key holds its value when that value is given and is absent otherwise. |
| `MockRest.StructuredModelAndMessages` | src/inspect_ai/model/_providers/mockrest.py:246-249 | Before the extra arguments, `model` is the adapter's model name and `messages` the converted input. |
| `MockRest.StructuredOthers` | src/inspect_ai/model/_providers/mockrest.py:246-284 | Before the extra arguments, no key other than the ten structured ones is present. |
| `MockRest.RequestShape` | src/inspect_ai/model/_providers/mockrest.py:246-289 | The body is a dict without repeated keys, and it opens with `model` then `messages`, even when extra arguments override them. |
| `MockRest.RequestGet` | src/inspect_ai/model/_providers/mockrest.py:286-287 | Every key of the body holds the last value the extra arguments give it, if they give one, and the structured value otherwise. |
| `MockRest.ExtraArgsWin` | src/inspect_ai/model/_providers/mockrest.py:287 | Extra arguments are merged last, so each of their keys carries the extra value, `model` and `messages` included. |
| `MockRest.RequestModelAndMessages` | src/inspect_ai/model/_providers/mockrest.py:238-249 | When not overridden, `model` is the model name and `messages` has one `{role, content}` per message, in order. |
| `MockRest.RequestTools` | src/inspect_ai/model/_providers/mockrest.py:251-263 | When not overridden, `tools` is present exactly when the tool list is non-empty, and then it lists every tool in order. |
| `MockRest.RequestToolChoice` | src/inspect_ai/model/_providers/mockrest.py:265-270 | When not overridden, `tool_choice` is present exactly when the policy is a string or a dict, and it is that value unchanged. |
| `MockRest.RequestFloatParameters` | src/inspect_ai/model/_providers/mockrest.py:273-278 | When not overridden, `temperature` and `top_p` are present exactly when set, with the configured value; zero counts as set. |
| `MockRest.RequestIntParameters` | src/inspect_ai/model/_providers/mockrest.py:275-284 | When not overridden, `max_tokens`, `top_k` and `seed` are present exactly when set, with the configured value; zero counts as set. |
| `MockRest.RequestStop` | src/inspect_ai/model/_providers/mockrest.py:281-282 | When not overridden, `stop` is present exactly when stop sequences are set (an empty list counts), as the same strings in order. |
| `MockRest.RequestNoOtherKeys` | src/inspect_ai/model/_providers/mockrest.py:246-289 | The body holds only the ten structured keys and the extra arguments' keys. |
| `MockRest.ParseEach` | src/inspect_ai/model/_providers/mockrest.py:311-321 | Parsing every item of a list succeeds exactly when every item parses, giving the items' results in order; otherwise it fails with the error of the first item that fails. |
| `MockRest.ParseToolCall` | src/inspect_ai/model/_providers/mockrest.py:313-321 | A tool call parses exactly when it and its `function` part are dicts. Missing `id`, `name`, `arguments` and `type` read as `""`, `""`, `{}` and `"function"`; present values are taken unchanged. |
| `MockRest.ParseToolCalls` | src/inspect_ai/model/_providers/mockrest.py:306-327 | A falsy `tool_calls` attaches nothing. A truthy list attaches its calls exactly when every entry parses, one call per entry in order. A truthy value that is not a list raises. |
| `MockRest.ParseChoice` | src/inspect_ai/model/_providers/mockrest.py:295-334 | A choice or message that is not a dict raises. Otherwise the choice parses exactly when its `tool_calls` do, whatever else is missing. Content then defaults to `""`, and the finish reason defaults to `"stop"` and goes through `as_stop_reason`. The message carries the given model and source `"generate"`. |
| `MockRest.ParseUsage` | src/inspect_ai/model/_providers/mockrest.py:336-344 | Usage is absent when the `usage` value is missing, null or empty. A truthy dict always yields usage, with each count defaulting to 0. Any other truthy value raises. |
| `MockRest.ParseResponse` | src/inspect_ai/model/_providers/mockrest.py:291-350 | Parsing succeeds exactly when the response is a dict, its `choices` is iterable, every choice parses and the usage parses. The output keeps the choices in order, takes the model from the reply or else from the adapter, and carries no error. |
| `MockRest.ParseEachAll` | src/inspect_ai/model/_providers/mockrest.py:294 | A list whose every item parses to an expected value parses to exactly the expected list. |
| `MockRest.ToolCallRoundTrip` | src/inspect_ai/model/_providers/mockrest.py:313-321 | A tool call written in the wire format parses back to its id, name, arguments and type. |
| `MockRest.ToolCallsRoundTrip` | src/inspect_ai/model/_providers/mockrest.py:306-327 | A message's wire `tool_calls` parses back to the calls, and to no tool calls when the message has none. |
| `MockRest.ChoiceRoundTrip` | src/inspect_ai/model/_providers/mockrest.py:295-334 | A choice written in the wire format parses back to its content, tool calls and normalised finish reason. |
| `MockRest.UsageRoundTrip` | src/inspect_ai/model/_providers/mockrest.py:337-344 | Wire usage counts (for example 10/20/30) come back as input, output and total tokens unchanged. |
| `MockRest.ReplyLookup` | src/inspect_ai/model/_providers/mockrest.py:294 | In a wire reply, `model`, `choices` and `usage` are found with the values written. |
| `MockRest.ParseResponseOf` | src/inspect_ai/model/_providers/mockrest.py:291-350 | A response whose model, choices and usage each parse to the corresponding part of an expected output parses to that output. |
| `MockRest.ChoicesRoundTrip` | src/inspect_ai/model/_providers/mockrest.py:294-334 | Every wire choice of a reply parses to its meaning. |
| `MockRest.ReplyRoundTrip` | src/inspect_ai/model/_providers/mockrest.py:291-350 | A well-formed reply parses to its meaning: every choice in order, the reply's model, and its usage, or none. |
| `MockRest.MissingToolCallId` | src/inspect_ai/model/_providers/mockrest.py:316 | A tool call without an `id` gets the empty string as its id. |
| `MockRest.Generate` | src/inspect_ai/model/_providers/mockrest.py:156-218 | The recorded request is the built body. The recorded response is the decoded body, or `{}` when none was decoded. A raised failure becomes an error output; a parse failure becomes `Unexpected error: …`; a parsed reply passes through unchanged. |
| `MockRest.GenerateErrorIff` | src/inspect_ai/model/_providers/mockrest.py:183-218 | The output carries an error exactly when the exchange raised or the body did not parse. Then it is one choice whose content is the error text, with stop reason `unknown`, no usage and the adapter's model name. |
| `MockRest.GenerateReply` | src/inspect_ai/model/_providers/mockrest.py:168-181 | A well-formed reply comes out of `generate` as its meaning, with the body recorded. |
| `MockRest.StatusReadBack` | src/inspect_ai/model/_providers/mockrest.py:184 | The status code can be read back from an HTTP error text, whatever the response text after it. |
| `MockRest.ErrorKindReadBack` | src/inspect_ai/model/_providers/mockrest.py:183-208 | Status errors, transport errors and other failures produce texts with different prefixes, so each kind can be told from its text. |
| `MockRest.ShouldRetry` | src/inspect_ai/model/_providers/mockrest.py:356-365 | A 429 or any status of 500 and above is retried; a transport failure is retried; any other status or failure is not. |
| `MockRest.IsAuthFailure` | src/inspect_ai/model/_providers/mockrest.py:367-372 | A failure is an authentication failure exactly when it is a 401 status. |
| `MockRest.ClientErrorsNotRetried` | src/inspect_ai/model/_providers/mockrest.py:359-361 | A 4xx status other than 429 is never retried, and among those only 401 is an authentication failure. |
| `MockRest.AuthFailureNotRetried` | src/inspect_ai/model/_providers/mockrest.py:356-372 | No failure is both retried and an authentication failure. |
| `Json.Put` | src/inspect_ai/model/_providers/mockrest.py:253 | `d[k] = v` makes `k` hold `v` and leaves every other key's value alone. |
| `Json.PutShape` | src/inspect_ai/model/_providers/mockrest.py:253 | `d[k] = v` adds exactly `k` to the keys, keeps a dict a dict, and keeps existing keys in place. |
| `Json.PutEachGet` | src/inspect_ai/model/_providers/mockrest.py:273-284 | After a run of optional inserts with distinct keys, each key holds its value when given and its earlier value otherwise. |
| `Json.PutEachOther` | src/inspect_ai/model/_providers/mockrest.py:273-284 | A run of optional inserts leaves every key it does not name alone. |
| `Json.PutEachShape` | src/inspect_ai/model/_providers/mockrest.py:273-284 | A run of optional inserts keeps a dict a dict and only appends keys. |
| `Json.MergeGet` | src/inspect_ai/model/_providers/mockrest.py:287 | After `d.update(args)`, a key of `args` holds its last value there, and every other key keeps its value. |
| `Json.MergeKeys` | src/inspect_ai/model/_providers/mockrest.py:287 | `d.update(args)` neither loses nor invents a key. |
| `Json.MergeShape` | src/inspect_ai/model/_providers/mockrest.py:287 | `d.update(args)` keeps a dict a dict and keeps existing keys in place. |
| `Json.LastGetUnique` | src/inspect_ai/model/_providers/mockrest.py:287 | In a dict, the last field with a key is also the first. |
| `Json.Iterate` | src/inspect_ai/model/_providers/mockrest.py:294 | A `for` loop visits a list's items, a string's characters or a dict's keys; anything else raises. |
| `Decimal.IntRoundTrip` | src/inspect_ai/model/_providers/mockrest.py:184 | Reading back a rendered integer gives the integer, so a rendered status code or count identifies the number. |
| `UsGovernment.Split` | examples/us_government.py:93 | Splitting on `","` gives at least one piece, and no piece contains a comma. |
| `UsGovernment.JoinSplit` | examples/us_government.py:93 | Joining the pieces with commas gives back the completion: splitting loses nothing. |
| `UsGovernment.SplitJoin` | examples/us_government.py:93 | Comma-free pieces survive a join and a split unchanged. |
| `UsGovernment.SplitCount` | examples/us_government.py:93 | There is one more piece than there are commas. |
| `UsGovernment.Normalized` | examples/us_government.py:93-94 | Normalising keeps the count and normalises each item in place. |
| `UsGovernment.FirstMismatch` | examples/us_government.py:111-118 | Finds nothing exactly when the lists are equal; otherwise the first position where they differ. |
| `UsGovernment.FirstMissing` | examples/us_government.py:104-110 | Finds nothing exactly when every target occurs among the answers; otherwise the first target that does not. |
| `UsGovernment.OrderedList` | examples/us_government.py:92-120 | CORRECT exactly when the counts agree and either (ordered) the lists are equal or (`ignore_order`) every target is an answer. A count mismatch is INCORRECT and gives both counts. An ordered failure names the first mismatching position, 1-based, with both items. An unordered failure names the first missing target. The answer is always the raw completion. |
| `UsGovernment.IgnoreOrderDefault` | examples/us_government.py:103 | Without an `ignore_order` entry the comparison is ordered. |
| `UsGovernment.OrderedImpliesUnordered` | examples/us_government.py:103-120 | Whatever passes in order also passes with `ignore_order`. |
| `UsGovernment.DuplicateTargetsPass` | examples/us_government.py:103-110 | Membership is not multiset equality: with `ignore_order`, targets `x, x` accept the completion `x,y`. |
| `UsGovernment.DistinctOnce` | examples/us_government.py:104-105 | In a list without repeats, every item occurs at most once. |
| `UsGovernment.UnorderedIsPermutationForDistinctTargets` | examples/us_government.py:96-120 | With pairwise different targets, `ignore_order` scoring is CORRECT exactly when the answers are a rearrangement of the targets. |
| `Framework.RoleOf` | src/inspect_ai/model/_providers/mockrest.py:241 | A role's wire name identifies the role: reading a name back gives the role with that name, and nothing for other names. |

## Left out

- HTTP I/O: the `httpx` client, `post`, `raise_for_status` and `response.json()`. Their outcome is the `Exchange` parameter. A body that is not JSON is `Raised(OtherError(…))`, with `{}` recorded as the response, because `response_data` is assigned only after decoding.
- `aclose`, the client's construction, and the request timeout. The timeout is stored; its effect shows up only as a transport error.
- Logging of error messages.
- The framework's base-class constructor (`ModelAPI.__init__`, including its own `api_key_vars` lookup). `Create` models only the adapter's own resolution, lines 109-124.
- Pydantic validation inside `ChatMessageAssistant`, `ToolCall`, `ModelUsage` and `ModelOutput`. Response values are carried as JSON, so a reply whose content or counts have the wrong type is accepted by the model where validation would raise.
- `ModelCall.create` is modelled as the plain pair `(request, response)`.
- `msg.text` (or `str(msg.content)`), `as_stop_reason`, `_normalize` and `str(ex)` are framework code. They are parameters (`Hooks`, `normalize`) and are assumed not to raise.
- Floats are `real`s; they are only forwarded.
- `ShouldRetry` and `IsAuthFailure` take the adapter's own failure kinds. Any exception that is not an `httpx` error is `OtherError`. `generate` itself never raises, so these classifications apply to failures the framework observes around the call.
- `ShouldRetry`: statuses of 600 and above also count as retryable, as the code's `>= 500` says. No upper bound is imposed.
- Statuses, timeouts and token counts are unbounded integers; the source does no fixed-width arithmetic on them.
- `src/inspect_ai/model/_providers/rest_mockllm.py` and `examples/movie_reviews.py` are not part of this model: they are a reduced variant and an unrelated task.
- The `@task` function `us_government_knowledge` in `examples/us_government.py` (dataset, prompt template, solver and tools) is static configuration.
- A decoded response is a Python dict, so its keys are unique. `Json` values may repeat a key; `Get` then reads the first field. For dicts without repeats this is the same as Python's lookup (`Json.GetUnique`).
