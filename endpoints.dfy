/**
 * The HTTP endpoints around the single global agent: health, tools and chat, and the
 * dispatcher that hands a request to the background event loop.
 */
module Endpoints {
  import opened Wrappers
  import opened Messages
  import opened Processing
  import opened Lifecycle
  import opened Agent

  /** `GET /tools` */
  function GetTools(a: FirecrawlAgent): (r: ToolsResponse)
    reads a
    ensures |r.tools| == (if a.tools.Some? then |a.tools.value| else 0)
  {
    ToolsResponse(a.GetAvailableTools())
  }

  /** `GET /health`: healthy once initialised, with as many tools as `/tools` lists. */
  function HealthCheck(a: FirecrawlAgent): (h: HealthResponse)
    reads a
    ensures h.status == "healthy" <==> a.initialized
    ensures h.status == "initializing" <==> !a.initialized
    ensures h.toolsAvailable == |GetTools(a).tools|
  {
    HealthResponse(
      if a.initialized then "healthy" else "initializing",
      if a.tools.Some? && a.tools.value != [] then |a.tools.value| else 0)
  }

  /** A freshly constructed agent reports `{"status": "initializing", "tools_available": 0}`. */
  lemma HealthBeforeInitialization(a: FirecrawlAgent)
    requires a.State() == Fresh
    ensures HealthCheck(a) == HealthResponse("initializing", 0)
  {
  }

  /**
   * `run_async_task(agent.process_message_async(...))`: no result (`None`) when the background
   * loop does not exist yet, in which case the agent is not invoked; otherwise the outcome of
   * processing, an exception included.
   */
  method RunAsyncTask(a: FirecrawlAgent, message: string, history: seq<HistoryEntry>, invoke: seq<Turn> -> Invocation)
    returns (r: Option<Result<ChatResponse, Error>>)
    ensures !a.hasLoop ==> r.None?
    ensures a.hasLoop && (!a.initialized || a.agent.None?) ==>
      r == Some(Failure(AgentError(NotProperlyInitialized)))
    ensures a.hasLoop && a.initialized && a.agent.Some? ==>
      r == Some(Success(ResponseFor(invoke(AgentInput(history, message)))))
  {
    if !a.hasLoop {
      return None;
    }
    var result, _ := a.ProcessMessage(message, Some(history), invoke);
    r := Some(result);
  }

  /**
   * `POST /chat` after validation. Answers "Agent is not initialized" before dispatching when
   * the agent is not initialised, "Failed to process message" when there is no background
   * loop, the error text of an exception raised by processing, and otherwise the processing
   * result. Every answer is a structured record with a message for the user.
   */
  method Chat(a: FirecrawlAgent, request: ChatRequest, invoke: seq<Turn> -> Invocation) returns (resp: ChatResponse)
    ensures !a.initialized ==>
      resp == ChatResponse(false, NotInitializedAiMessage, [], [], Some(NotInitializedError))
    ensures a.initialized && !a.hasLoop ==>
      resp == ChatResponse(false, DispatchFailedAiMessage, [], [], Some(DispatchFailedError))
    ensures a.initialized && a.hasLoop && a.agent.None? ==>
      resp == ChatResponse(false, TechnicalIssueAiMessage(NotProperlyInitialized), [], [], Some(NotProperlyInitialized))
    ensures a.Valid() && a.initialized && a.hasLoop ==>
      resp == ResponseFor(invoke(AgentInput(request.history, request.message)))
    ensures resp.success <==> resp.error.None?
    ensures resp.aiMessage != []
  {
    if !a.initialized {
      return ChatResponse(false, NotInitializedAiMessage, [], [], Some(NotInitializedError));
    }
    var result := RunAsyncTask(a, request.message, request.history, invoke);
    match result {
      case None =>
        resp := ChatResponse(false, DispatchFailedAiMessage, [], [], Some(DispatchFailedError));
      case Some(Success(r)) =>
        resp := r;
      case Some(Failure(e)) =>
        resp := ChatResponse(false, TechnicalIssueAiMessage(e.Text()), [], [], Some(e.Text()));
    }
  }
}
