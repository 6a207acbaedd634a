/**
 * The agent lifecycle: the references the agent holds, the fail-fast initialization
 * sequence and the guarded, best-effort cleanup, as functions on a snapshot of the state.
 * The class `FirecrawlAgent` (module Agent) updates its fields step by step and is proved
 * to end in the state these functions describe.
 */
module Lifecycle {
  import opened Wrappers
  import opened Messages

  /** The language-model client, with its configuration. */
  datatype ChatModel = ChatModel(name: string, temperature: real)

  /** How the tool subprocess is launched. */
  datatype StdioParams = StdioParams(command: string, args: seq<string>, env: map<string, string>)

  /** The stdio client context for the tool subprocess. */
  datatype StdioContext = StdioContext(params: StdioParams)

  /** The tool-protocol session; `ready` once it was entered and its handshake completed. */
  datatype Session = Session(ready: bool)

  /** A discovered tool. */
  datatype Tool = Tool(name: string)

  /** The reasoning agent composed from the model and the tools. */
  datatype ReactAgent = ReactAgent(model: ChatModel, tools: seq<Tool>)

  /** The fields `model`, `stdio_context`, `session`, `tools`, `agent` and `_initialized`. */
  datatype AgentState = AgentState(
    model: Option<ChatModel>,
    stdioContext: Option<StdioContext>,
    session: Option<Session>,
    tools: Option<seq<Tool>>,
    agent: Option<ReactAgent>,
    initialized: bool)

  /** How a step that first assigns a field and then enters it can end. */
  datatype TwoPhase = Entered | ConstructFailed(msg: string) | EnterFailed(msg: string)

  /** The outcomes of closing the session and the stdio client, should cleanup run. */
  datatype CloseOutcomes = CloseOutcomes(session: Outcome, stdio: Outcome)

  /**
   * The outcomes of the external calls made by `initialize`: model construction,
   * `stdio_client(...)` and its `__aenter__`, `ClientSession(...)` and its `__aenter__` and
   * `initialize()`, `load_mcp_tools`, and `create_react_agent`.
   */
  datatype InitSteps = InitSteps(
    model: Outcome,
    connect: TwoPhase,
    session: TwoPhase,
    tools: Result<seq<Tool>, string>,
    agent: Outcome,
    closes: CloseOutcomes)

  /** A resource cleanup tries to close. */
  datatype Resource = SessionResource | StdioResource

  /** One close that cleanup attempted, and how it ended. */
  datatype CloseAttempt = CloseAttempt(resource: Resource, outcome: Outcome)

  datatype InitResult = InitResult(state: AgentState, error: Option<Error>)

  const ApiKeyVar: string := "FIRECRAWL_API_KEY"
  const GeminiModel: ChatModel := ChatModel("gemini-2.0-flash", 0.1)

  const MissingKeyText: string := "FIRECRAWL_API_KEY environment variable is required"
  const ModelFailedText: string := "Failed to initialize Google Generative AI model: "
  const ClientFailedText: string := "Failed to initialize MCP client: "
  const SessionFailedText: string := "Failed to initialize MCP session: "
  const ToolsFailedText: string := "Failed to load MCP tools: "
  const AgentFailedText: string := "Failed to create agent: "

  /** The state of a freshly constructed agent. */
  const Fresh: AgentState := AgentState(None, None, None, None, None, false)

  /** `os.getenv("FIRECRAWL_API_KEY")` is truthy: set and non-empty. */
  predicate HasApiKey(env: map<string, string>) {
    ApiKeyVar in env && env[ApiKeyVar] != ""
  }

  /** The parameters of the `npx firecrawl-mcp` subprocess, which receives the key in its environment. */
  function ServerParams(key: string): StdioParams {
    StdioParams("npx", ["firecrawl-mcp"], map[ApiKeyVar := key])
  }

  /** The object invariant: an initialised agent holds every reference, built from each other. */
  predicate ValidState(s: AgentState) {
    s.initialized ==>
      && s.model.Some? && s.stdioContext.Some? && s.session.Some? && s.session.value.ready
      && s.tools.Some? && s.agent == Some(ReactAgent(s.model.value, s.tools.value))
  }

  /** `cleanup`: nothing when not initialised; otherwise the session and the stdio client are dropped. */
  function CleanupSpec(s: AgentState): AgentState {
    if !s.initialized then s
    else s.(session := None, stdioContext := None, initialized := false)
  }

  /** The closes `cleanup` attempts, session first, each whatever the other's outcome. */
  function CleanupAttempts(s: AgentState, closes: CloseOutcomes): seq<CloseAttempt> {
    if !s.initialized then []
    else
      (if s.session.Some? then [CloseAttempt(SessionResource, closes.session)] else [])
      + (if s.stdioContext.Some? then [CloseAttempt(StdioResource, closes.stdio)] else [])
  }

  /** The `except` clause of `initialize`: run `cleanup`, then re-raise. */
  function Abort(s: AgentState, e: Error): InitResult {
    InitResult(CleanupSpec(s), Some(e))
  }

  /** `initialize`, step by step, on a snapshot of the state. */
  function InitializeSpec(s: AgentState, env: map<string, string>, steps: InitSteps): InitResult {
    if !HasApiKey(env) then Abort(s, ConfigurationError(MissingKeyText))
    else if steps.model.Fail? then Abort(s, ConfigurationError(ModelFailedText + steps.model.msg))
    else
      var s1 := s.(model := Some(GeminiModel));
      if steps.connect.ConstructFailed? then Abort(s1, AgentError(ClientFailedText + steps.connect.msg))
      else
        var s2 := s1.(stdioContext := Some(StdioContext(ServerParams(env[ApiKeyVar]))));
        if steps.connect.EnterFailed? then Abort(s2, AgentError(ClientFailedText + steps.connect.msg))
        else if steps.session.ConstructFailed? then Abort(s2, AgentError(SessionFailedText + steps.session.msg))
        else
          var s3 := s2.(session := Some(Session(steps.session.Entered?)));
          if steps.session.EnterFailed? then Abort(s3, AgentError(SessionFailedText + steps.session.msg))
          else if steps.tools.Failure? then Abort(s3, ToolError(ToolsFailedText + steps.tools.error))
          else
            var s4 := s3.(tools := Some(steps.tools.value));
            if steps.agent.Fail? then Abort(s4, AgentError(AgentFailedText + steps.agent.msg))
            else InitResult(s4.(agent := Some(ReactAgent(GeminiModel, steps.tools.value)), initialized := true), None)
  }

  /**
   * Reference definition of how far `initialize` gets: the number of leading steps that
   * succeed, out of key check, model, stdio client, session, tools and agent.
   */
  function StepsCompleted(env: map<string, string>, steps: InitSteps): nat {
    if !HasApiKey(env) then 0
    else if steps.model.Fail? then 1
    else if !steps.connect.Entered? then 2
    else if !steps.session.Entered? then 3
    else if steps.tools.Failure? then 4
    else if steps.agent.Fail? then 5
    else 6
  }

  datatype ErrorKind = ConfigurationKind | AgentKind | ToolKind

  function KindOf(e: Error): ErrorKind {
    match e
    case ConfigurationError(_) => ConfigurationKind
    case AgentError(_) => AgentKind
    case ToolError(_) => ToolKind
  }

  /** The exception class each step is tagged with when it is the one that fails. */
  function ExpectedKind(failedStep: nat): ErrorKind {
    if failedStep <= 1 then ConfigurationKind
    else if failedStep == 4 then ToolKind
    else AgentKind
  }

  /** `initialize` succeeds exactly when every step does, and then the agent is fully assembled. */
  lemma InitializeSucceedsIff(s: AgentState, env: map<string, string>, steps: InitSteps)
    ensures var r := InitializeSpec(s, env, steps);
      (r.error.None? <==> StepsCompleted(env, steps) == 6)
      && (r.error.None? ==>
            r.state.initialized && ValidState(r.state)
            && r.state.model == Some(GeminiModel)
            && r.state.stdioContext == Some(StdioContext(ServerParams(env[ApiKeyVar])))
            && r.state.session == Some(Session(true))
            && r.state.tools == Some(steps.tools.value))
  {
  }

  /** Any failure leaves the agent uninitialised, tagged with the failing step's exception class. */
  lemma InitializeFailureTagged(s: AgentState, env: map<string, string>, steps: InitSteps)
    ensures var r := InitializeSpec(s, env, steps);
      r.error.Some? ==> !r.state.initialized && KindOf(r.error.value) == ExpectedKind(StepsCompleted(env, steps))
  {
  }

  /** A missing key is reported before any reference is set. */
  lemma MissingKeySetsNothing(s: AgentState, env: map<string, string>, steps: InitSteps)
    requires !s.initialized && !HasApiKey(env)
    ensures InitializeSpec(s, env, steps) == InitResult(s, Some(ConfigurationError(MissingKeyText)))
  {
  }

  /**
   * On an agent that was not initialised, the failure path's cleanup does nothing, so every
   * reference acquired before the failing step stays set and the others are untouched.
   */
  lemma FailedInitializeKeepsAcquired(s: AgentState, env: map<string, string>, steps: InitSteps)
    requires !s.initialized
    ensures var r := InitializeSpec(s, env, steps); var n := StepsCompleted(env, steps);
      r.error.Some? ==>
        && r.state.model == (if n >= 2 then Some(GeminiModel) else s.model)
        && r.state.stdioContext == (if n >= 3 || (n == 2 && steps.connect.EnterFailed?)
                                    then Some(StdioContext(ServerParams(env[ApiKeyVar]))) else s.stdioContext)
        && r.state.session == (if n >= 4 then Some(Session(true))
                               else if n == 3 && steps.session.EnterFailed? then Some(Session(false))
                               else s.session)
        && r.state.tools == (if n >= 5 then Some(steps.tools.value) else s.tools)
        && r.state.agent == s.agent
  {
  }

  /** `initialize` always leaves a state that satisfies the object invariant. */
  lemma InitializeKeepsValid(s: AgentState, env: map<string, string>, steps: InitSteps)
    ensures ValidState(InitializeSpec(s, env, steps).state)
  {
  }

  /**
   * After `cleanup` of an initialised agent the session and the stdio client are gone and
   * the flag is down, whatever the closes did; model, tools and agent are kept. On an agent
   * that is not initialised it changes nothing.
   */
  lemma CleanupReleases(s: AgentState)
    ensures !s.initialized ==> CleanupSpec(s) == s
    ensures s.initialized ==>
      && CleanupSpec(s).session.None? && CleanupSpec(s).stdioContext.None? && !CleanupSpec(s).initialized
      && CleanupSpec(s).model == s.model && CleanupSpec(s).tools == s.tools && CleanupSpec(s).agent == s.agent
  {
  }

  /** A second `cleanup` is a no-op and attempts no close. */
  lemma CleanupIdempotent(s: AgentState, closes: CloseOutcomes)
    ensures CleanupSpec(CleanupSpec(s)) == CleanupSpec(s)
    ensures CleanupAttempts(CleanupSpec(s), closes) == []
  {
  }

  /**
   * Cleanup of an initialised agent attempts to close every resource it holds, the session
   * before the stdio client, and attempts the stdio close even when closing the session failed.
   */
  lemma CleanupAttemptsInOrder(s: AgentState, closes: CloseOutcomes)
    requires s.initialized
    ensures var a := CleanupAttempts(s, closes);
      && (exists i :: 0 <= i < |a| && a[i] == CloseAttempt(SessionResource, closes.session)) == s.session.Some?
      && (exists i :: 0 <= i < |a| && a[i] == CloseAttempt(StdioResource, closes.stdio)) == s.stdioContext.Some?
      && forall i, j :: 0 <= i < j < |a| ==> a[i].resource == SessionResource && a[j].resource == StdioResource
  {
    var a := CleanupAttempts(s, closes);
    if s.session.Some? {
      assert a[0] == CloseAttempt(SessionResource, closes.session);
    }
    if s.stdioContext.Some? {
      assert a[|a| - 1] == CloseAttempt(StdioResource, closes.stdio);
    }
  }
}
