# Firecrawl agent backend: lifecycle and request processing

This project models the core of a small chat backend. A single `FirecrawlAgent` owns a
language-model client, a stdio connection to the `firecrawl-mcp` tool subprocess, the
tool-protocol session, the discovered tools and the reasoning agent built from them.
It is initialised once and cleaned up at shutdown. Each `/chat` request gets the caller's
history formatted behind a fixed system turn and then the truncated user message. It gets
back a structured response built from the agent's message trace, a timeout or an exception.

Modules, leaves first:

- `Wrappers`: Option, Result and Outcome, in place of `None` and exceptions.
- `Text`: Python's `str.isspace`, `strip()`, slicing and `in` on strings.
- `Messages`: history entries, role-tagged turns, the agent's trace messages, the response
  records, the three exception classes and the fixed response texts.
- `History`: the history formatter as functions, plus lemmas (one turn per user/bot entry, in order).
- `Processing`: input truncation, the agent input, the trace walk as functions, and the
  response for each way the invocation can end.
- `Lifecycle`: a snapshot of the agent's fields. `InitializeSpec` and `CleanupSpec` describe
  `initialize` and `cleanup`, with lemmas stating what each leaves behind.
- `Agent`: the class `FirecrawlAgent`. Its methods `Initialize`, `Cleanup`,
  `FormatHistoryForAgent` and `ProcessMessage` update fields and loop as the source does.
  Each is proved against the functions above. `WalkTrace` is the nested loop over the trace.
- `Boundary`: the `message` validator, the validation errors of the request model, and the
  400/422 decision of the validation handler.
- `Endpoints`: `/health`, `/tools`, the background-loop dispatcher and `/chat`.

External steps are inputs. `InitSteps` gives each step's outcome: model construction, the
stdio client and its `__aenter__`, the session with its `__aenter__` and handshake, tool
loading, agent creation, and the two closes cleanup may perform. The agent invocation is a
function `invoke` from the message list to an `Invocation`, which is `Trace(msgs)`,
`Timeout` or `Exn(text)`. The environment is a map, and whether the background event loop
exists is the boolean field `hasLoop`.

Two facts about the lifecycle shape the model:

- A failed `initialize` keeps what it acquired. `cleanup` returns at once unless
  `_initialized` is set (app.py:151-152). So the failure-path `cleanup` (app.py:146) does
  nothing on a fresh agent, and the model, stdio client, session and tools acquired so far
  stay set. `FailedInitializeKeepsAcquired` states exactly which ones.
- `_initialized` implies that every reference is held, but not the converse (`ValidState`).
  After `cleanup` the model, tools and agent stay set while the flag is down (app.py:157-182).

## Model

| member | source | states |
|---|---|---|
| Text.LStrip | app.py:59 | the result is a suffix of the input whose removed prefix is all whitespace and which starts with a non-space |
| Text.RStrip | app.py:59 | the result is a prefix of the input whose removed suffix is all whitespace and which ends with a non-space |
| Text.StripEmptyIff | app.py:59 | `s.strip()` is empty exactly when every character of `s` is whitespace |
| Text.Prefix | app.py:261 | Python's `s[:n]` has length min(\|s\|, n) and is a prefix of `s` |
| Text.Contains | app.py:351 | Python's `sub in s` holds iff `sub` occurs at some index of `s` |
| History.ConvertEntry | app.py:241-245 | an entry yields a turn iff its type is "user" or "bot"; "user" maps to role user, "bot" to assistant, never system; a missing content becomes "" |
| History.ChatEntries | app.py:241-245 | the reference filter keeps only user/bot entries and is no longer than the history |
| History.ChatTurnsAppend | app.py:241-247 | formatting a concatenation of histories is the concatenation of their formatted turns (the order is kept) |
| History.ChatTurnsMatchEntries | app.py:241-247 | the kept turns correspond one to one, in order, to the user and bot entries |
| History.FormatHistoryShape | app.py:186-247 | output is the system turn followed by one converted turn per user/bot entry in order, so its length is 1 plus their number |
| History.DropsOtherEntry | app.py:241-245 | an entry of any other type is dropped without changing the other turns or their order |
| Processing.TruncateInput | app.py:261-265 | the user turn is the prefix of the input of length min(\|input\|, 175000), and is the input itself when it fits |
| Processing.DisplayCopy | app.py:291 | the display copy equals the full content when it has at most 1000 characters, else its first 1000 plus "..."; never more than 1003 characters |
| Processing.AgentInput | app.py:258-265 | the agent receives the formatted history and then one user turn holding the truncated input; its length is 2 plus the number of user/bot entries |
| Processing.ConvertCalls | app.py:281-286 | one response record per tool-call request, in order, each taking the defaults "Unknown", {} and "" for absent keys |
| Processing.ResponseFor | app.py:267-318 | success iff the invocation returned a trace; a timeout gives the fixed timeout error, any other exception gives `str(e)`; failures carry no tool records, and the message for the user is never empty |
| Processing.ToolCallsOfAppend | app.py:279-287 | the tool calls of a concatenated trace are those of its parts, in order |
| Processing.ToolOutputsOfAppend | app.py:288-294 | the tool outputs of a concatenated trace are those of its parts, in order |
| Processing.ToolCallsInEmissionOrder | app.py:279-287 | a message contributes every call of its `tool_calls` (converted with defaults, in order) exactly when it is an AI message with non-empty `tool_calls`, at its position in the trace |
| Processing.ToolOutputsInEmissionOrder | app.py:288-294 | a tool message contributes one output record at its position in the trace |
| Processing.ToolOutputsBounded | app.py:289-293 | every tool output keeps the full content, shows its display copy, is at most 1003 characters, and equals the full content when that has at most 1000 |
| Processing.LastAiTextIsLast | app.py:275-296 | the accumulated text is empty iff no AI message without tool calls has non-empty content, and otherwise is the content of the last such message |
| Processing.TraceResponseAiMessage | app.py:295-300 | a completed invocation answers with the last final AI text, or with the fixed fallback when there is none |
| Lifecycle.InitializeSucceedsIff | app.py:89-143 | initialization succeeds iff the key is present and all five external steps succeed, and then the agent is initialised with every reference set and built from Gemini and the loaded tools |
| Lifecycle.InitializeFailureTagged | app.py:93-147 | on failure `_initialized` stays false and the error is ConfigurationError for the key or model step, AgentError for stdio connect, session or agent creation, ToolError for tool loading |
| Lifecycle.MissingKeySetsNothing | app.py:93-94 | a missing or empty FIRECRAWL_API_KEY raises ConfigurationError before any reference is set |
| Lifecycle.FailedInitializeKeepsAcquired | app.py:97-152 | on an agent not yet initialised, a failed initialization keeps every reference acquired before the failing step (the failure-path cleanup is a no-op) and leaves the others untouched |
| Lifecycle.InitializeKeepsValid | app.py:89-147 | after initialization, in every outcome, an initialised agent holds all of its references |
| Lifecycle.CleanupReleases | app.py:149-182 | when not initialised nothing changes; otherwise session and stdio client are dropped whatever the closes did, the flag is false, and model, tools and agent are untouched |
| Lifecycle.CleanupIdempotent | app.py:149-182 | a second cleanup changes nothing and attempts no close |
| Lifecycle.CleanupAttemptsInOrder | app.py:156-174 | cleanup attempts to close each held resource, the session before the stdio client, and the stdio close is attempted even when the session close failed |
| Agent.WalkTrace | app.py:275-296 | the loop collects exactly the tool calls, the tool outputs and the last final text that the trace functions define |
| Agent.FirecrawlAgent.constructor | app.py:79-87 | a new agent holds no references, is not initialised and has no event loop |
| Agent.FirecrawlAgent.AttachLoop | app.py:444 | storing the event loop changes none of the lifecycle fields |
| Agent.FirecrawlAgent.Cleanup | app.py:149-182 | the new fields are `CleanupSpec` of the old ones, the attempted closes are `CleanupAttempts`, and the invariant holds afterwards |
| Agent.FirecrawlAgent.CleanupAndRaise | app.py:145-147 | the except clause runs cleanup and re-raises the same error |
| Agent.FirecrawlAgent.Initialize | app.py:89-147 | the new fields and the raised error are those of `InitializeSpec`, and the invariant holds afterwards |
| Agent.FirecrawlAgent.FormatHistoryForAgent | app.py:184-247 | the loop builds exactly the system turn followed by the converted user/bot entries |
| Agent.FirecrawlAgent.ProcessMessage | app.py:249-318 | raises AgentError without invoking the agent when not initialised or without an agent; otherwise sends exactly `AgentInput` of the history (None meaning []) and the input, and returns the response for what the agent returned |
| Agent.FirecrawlAgent.GetAvailableTools | app.py:320-324 | the tool names in order, one per tool; [] when no tools were loaded |
| Boundary.MessageMustNotBeEmpty | app.py:57-61 | a message is rejected iff it is empty or whitespace only, and an accepted one is unchanged |
| Boundary.ValidateChatRequest | app.py:53-61 | a body is accepted iff its `message` is present and not blank, and then keeps that message with `history` defaulting to []; otherwise there is exactly one error at `body.message`, of type `missing` when the message is absent and `value_error` with the validator's text when it is blank |
| Boundary.HasEmptyMessageError | app.py:350-351 | true iff some error has type `value_error` and a message containing "empty" |
| Boundary.ValidationExceptionHandler | app.py:347-361 | 400 with `{"detail": "Empty message"}` iff some error reports an empty message, else 422 carrying the errors |
| Boundary.BlankMessageGets400 | app.py:57-61 | any present message that is empty or whitespace only is answered 400 with `{"detail": "Empty message"}` (the handler at app.py:347-361) |
| Boundary.MissingMessageGets422 | test_app.py:120-129 | a body without `message` fails validation and is answered 422 |
| Boundary.NonBlankMessageAccepted | app.py:53-61 | a message with a non-whitespace character passes unchanged and a missing history becomes [] |
| Boundary.EmptyStringGets400 | test_app.py:94-105 | the message "" is answered 400 |
| Boundary.WhitespaceStringGets400 | test_app.py:107-118 | the message "   \n\t  " is answered 400 |
| Endpoints.GetTools | app.py:382-385 | `/tools` lists as many names as there are loaded tools, 0 when none |
| Endpoints.HealthCheck | app.py:373-379 | status is "healthy" iff initialised, else "initializing"; `tools_available` equals the length of the `/tools` list |
| Endpoints.HealthBeforeInitialization | app.py:376-379 | a freshly constructed agent reports "initializing" with 0 tools |
| Endpoints.RunAsyncTask | app.py:364-370 | None when no background loop exists (the agent is not invoked); otherwise the outcome of processing, its AgentError included |
| Endpoints.Chat | app.py:388-422 | "Agent is not initialized" before dispatching when not initialised; "Failed to process message" when the dispatcher returns None; the text of a raised error; otherwise the processing response for the agent input; success iff no error, and there is always a message for the user |

## Left out

- The language model, the MCP stdio subprocess, the session handshake, `load_mcp_tools` and `create_react_agent` are foreign library calls. They appear only as step outcomes in `InitSteps` and as the `invoke` function.
- The asyncio/threading bridge is concurrency across event loops and is not modelled. This covers `run_coroutine_threadsafe`, the background thread, `run_event_loop`, the 2-second startup sleep and shutdown's `call_soon_threadsafe(stop)`. Whether the loop exists is the field `hasLoop`, set by `AttachLoop`.
- The 120-second `asyncio.wait_for` and the 0.1-second sleep in cleanup are wall-clock time. A timeout is the `Timeout` outcome. Cancellation of the sleep is not modelled.
- The system prompt is kept as its opening sentence only. The formatting guidelines that follow are opaque text, and no property depends on them.
- Logging, including the truncation warning, the CORS middleware, the uvicorn launch and the PORT variable are I/O and configuration plumbing.
- The 500 response of `chat` (app.py:424-429) is not modelled. None of the modelled steps can raise outside the inner `try`.
- Argument values of tool calls are kept as strings, and trace message content as text. The `str(msg.content)` of a non-string content is not modelled.
- History entries and tool-call requests: a key present with the value `None` is treated like an absent key. A history `content` that is present but not a string (a number, a list) is not modelled; the source passes it through `msg.get("content", "")` unchanged (app.py:243, 245).
- The validation errors of the request model are assumed in the pydantic 2 form: `value_error` with "Value error, " before the validator's text, and `missing` with "Field required". Schema errors are not modelled beyond an absent `message`. This covers a `message` present but not a string (a number, `null`), which the request model rejects with a `string_type` error and the handler answers with 422, and errors in `history`.
- test_app.py is live HTTP integration testing and run_tests.py launches processes. Only the boundary assertions of test_app.py are stated, as lemmas. The concurrency test is out of scope with the bridge.
