/**
 * The values that flow through the agent backend: caller-supplied history entries,
 * the role-tagged turns handed to the reasoning agent, the message trace it returns,
 * the records of a chat response, and the three exception classes of the core.
 */
module Messages {
  import opened Wrappers

  /** AgentError, ToolError and ConfigurationError; `msg` is `str(e)`. */
  datatype Error =
    | ConfigurationError(msg: string)
    | AgentError(msg: string)
    | ToolError(msg: string)
  {
    /** `str(e)` */
    function Text(): string {
      match this
      case ConfigurationError(m) => m
      case AgentError(m) => m
      case ToolError(m) => m
    }
  }

  /** One entry of the caller's `history` list: the values of the optional keys `type` and `content`. */
  datatype HistoryEntry = HistoryEntry(kind: Option<string>, content: Option<string>)

  datatype Role = System | User | Assistant

  /** A `{"role": ..., "content": ...}` message handed to the agent. */
  datatype Turn = Turn(role: Role, content: string)

  /** Tool arguments; argument values are kept as their text. */
  type Args = map<string, string>

  /** One entry of an AI message's `tool_calls`: the values of the keys `name`, `args` and `id`, each possibly absent. */
  datatype ToolCallRequest = ToolCallRequest(name: Option<string>, args: Option<Args>, id: Option<string>)

  /** A message of the trace the agent returns. */
  datatype Msg =
    | AIMsg(content: string, toolCalls: seq<ToolCallRequest>)
    | ToolMsg(name: Option<string>, content: string)
    | OtherMsg(content: string)   // human and system messages echoed back in the trace

  /** What the agent invocation under `asyncio.wait_for` ends with. */
  datatype Invocation = Trace(msgs: seq<Msg>) | Timeout | Exn(text: string)

  /** An entry of the response's `tool_calls`. */
  datatype ToolCall = ToolCall(name: string, args: Args, id: string)

  /** An entry of the response's `tool_outputs`. */
  datatype ToolOutput = ToolOutput(name: Option<string>, content: string, fullContent: string)

  /** The `ChatResponse` model; fields left out of a result dict take its defaults. */
  datatype ChatResponse = ChatResponse(
    success: bool,
    aiMessage: string,
    toolCalls: seq<ToolCall>,
    toolOutputs: seq<ToolOutput>,
    error: Option<string>)

  /** The `HealthResponse` model. */
  datatype HealthResponse = HealthResponse(status: string, toolsAvailable: nat)

  /** The `ToolsResponse` model. */
  datatype ToolsResponse = ToolsResponse(tools: seq<string>)

  /** The `ChatRequest` model after validation. */
  datatype ChatRequest = ChatRequest(message: string, history: seq<HistoryEntry>)

  // Limits of the request path.
  const MaxInputLength: nat := 175000
  const MaxDisplayLength: nat := 1000
  const Ellipsis: string := "..."

  /** The fixed system instruction; only its opening sentence is kept, the guidelines after it are opaque text. */
  const SystemPrompt: string := "You are a helpful AI assistant with web scraping and data extraction capabilities."

  const FallbackAiMessage: string :=
    "\U{2705} Task completed successfully! Let me know if you need any clarification or have additional questions."

  const TimeoutError: string := "Request timed out. Please try a simpler query or check your connection."

  const TimeoutAiMessage: string :=
    "\U{23F1}\U{FE0F} **Request Timeout**\n\nYour request is taking longer than expected. This might be due to:\n"
    + "\U{2022} Complex query processing\n\U{2022} Network connectivity issues\n\n**Try this:**\n"
    + "\U{2022} Break your question into smaller parts\n\U{2022} Rephrase with simpler terms\n"
    + "\U{2022} Check your internet connection"

  function ProcessingErrorAiMessage(e: string): string {
    "\U{26A0}\U{FE0F} **Processing Error**\n\nI encountered an issue: " + e
    + "\n\n**Next steps:**\n\U{2022} Try rephrasing your question\n\U{2022} Make sure your request is clear\n"
    + "\U{2022} Contact support if this persists"
  }

  const NotInitializedError: string := "Agent is not initialized"

  const NotInitializedAiMessage: string :=
    "\U{1F680} **Starting Up**\n\nI'm still getting my tools ready! Give me a moment and try again.\n\n"
    + "\U{2022} Loading web scraping capabilities\n\U{2022} Connecting to Firecrawl services\n\U{2022} Preparing AI models"

  const DispatchFailedError: string := "Failed to process message"

  const DispatchFailedAiMessage: string :=
    "\U{1F527} **Technical Difficulties**\n\nI'm having some issues right now. Please try again in a moment!\n\n"
    + "\U{2022} System is recovering\n\U{2022} Tools are reconnecting\n\U{2022} Should be back shortly"

  function TechnicalIssueAiMessage(e: string): string {
    "\U{26A0}\U{FE0F} **Technical Issue**\n\nSomething went wrong: " + e
    + "\n\n**Try this:**\n\U{2022} Rephrase your question\n\U{2022} Try a simpler request\n"
    + "\U{2022} Wait a moment and try again"
  }

  const NotProperlyInitialized: string := "Agent is not properly initialized"
}
