/**
 * The `FirecrawlAgent` class: its fields are updated in place by `Initialize` and `Cleanup`,
 * and `ProcessMessage` builds the agent input and walks the returned trace with loops.
 */
module Agent {
  import opened Wrappers
  import opened Text
  import opened Messages
  import opened History
  import opened Processing
  import opened Lifecycle

  /**
   * The walk over the agent's returned messages: tool calls and tool outputs are collected
   * in emission order, and the last final text is kept.
   */
  method WalkTrace(msgs: seq<Msg>) returns (aiText: string, calls: seq<ToolCall>, outputs: seq<ToolOutput>)
    ensures aiText == LastAiText(msgs)
    ensures calls == ToolCallsOf(msgs)
    ensures outputs == ToolOutputsOf(msgs)
  {
    aiText, calls, outputs := "", [], [];
    for i := 0 to |msgs|
      invariant aiText == LastAiText(msgs[..i])
      invariant calls == ToolCallsOf(msgs[..i])
      invariant outputs == ToolOutputsOf(msgs[..i])
    {
      var m := msgs[i];
      assert msgs[..i + 1][..i] == msgs[..i];
      if m.AIMsg? && m.toolCalls != [] {
        for j := 0 to |m.toolCalls|
          invariant calls == ToolCallsOf(msgs[..i]) + ConvertCalls(m.toolCalls[..j])
        {
          var tc := m.toolCalls[j];
          assert m.toolCalls[..j + 1][..j] == m.toolCalls[..j];
          calls := calls + [ToolCall(tc.name.GetOr("Unknown"), tc.args.GetOr(map[]), tc.id.GetOr(""))];
        }
        assert m.toolCalls[..|m.toolCalls|] == m.toolCalls;
      } else if m.ToolMsg? {
        outputs := outputs + [ToolOutput(m.name, DisplayCopy(m.content), m.content)];
      } else if m.AIMsg? && m.content != "" {
        aiText := m.content;
      }
    }
    assert msgs[..|msgs|] == msgs;
  }

  class FirecrawlAgent {
    var model: Option<ChatModel>
    var session: Option<Session>
    var stdioContext: Option<StdioContext>
    var agent: Option<ReactAgent>
    var tools: Option<seq<Tool>>
    var initialized: bool
    /** Whether the background event loop `_loop` has been created. */
    var hasLoop: bool

    /** The lifecycle fields as one value. */
    function State(): AgentState
      reads this
    {
      AgentState(model, stdioContext, session, tools, agent, initialized)
    }

    predicate Valid()
      reads this
    {
      ValidState(State())
    }

    constructor ()
      ensures State() == Fresh && !hasLoop && Valid()
    {
      model, session, stdioContext, agent, tools := None, None, None, None, None;
      initialized, hasLoop := false, false;
    }

    /** The background thread creates the event loop and stores it in `_loop`. */
    method AttachLoop()
      modifies this
      ensures hasLoop && State() == old(State())
    {
      hasLoop := true;
    }

    /**
     * Guarded, best-effort cleanup: closes the session, then the stdio client; a failed close
     * is swallowed and the reference is dropped anyway.
     */
    method Cleanup(closes: CloseOutcomes) returns (attempts: seq<CloseAttempt>)
      modifies this
      ensures State() == CleanupSpec(old(State()))
      ensures attempts == CleanupAttempts(old(State()), closes)
      ensures hasLoop == old(hasLoop)
      ensures Valid()
    {
      attempts := [];
      if !initialized {
        return;
      }
      if session.Some? {
        attempts := attempts + [CloseAttempt(SessionResource, closes.session)];
        session := None;
      }
      if stdioContext.Some? {
        attempts := attempts + [CloseAttempt(StdioResource, closes.stdio)];
        stdioContext := None;
      }
      initialized := false;
    }

    /** The `except` clause of `initialize`: clean up, then re-raise `e`. */
    method CleanupAndRaise(e: Error, closes: CloseOutcomes) returns (error: Option<Error>)
      modifies this
      ensures InitResult(State(), error) == Lifecycle.Abort(old(State()), e)
      ensures hasLoop == old(hasLoop)
    {
      var _ := Cleanup(closes);
      error := Some(e);
    }

    /** The fail-fast initialization sequence; `error` is the exception it raises, if any. */
    method Initialize(env: map<string, string>, steps: InitSteps) returns (error: Option<Error>)
      modifies this
      ensures InitResult(State(), error) == InitializeSpec(old(State()), env, steps)
      ensures hasLoop == old(hasLoop)
      ensures Valid()
    {
      if !HasApiKey(env) {
        error := CleanupAndRaise(ConfigurationError(MissingKeyText), steps.closes);
        return;
      }
      if steps.model.Fail? {
        error := CleanupAndRaise(ConfigurationError(ModelFailedText + steps.model.msg), steps.closes);
        return;
      }
      model := Some(GeminiModel);
      var params := ServerParams(env[ApiKeyVar]);
      if steps.connect.ConstructFailed? {
        error := CleanupAndRaise(AgentError(ClientFailedText + steps.connect.msg), steps.closes);
        return;
      }
      stdioContext := Some(StdioContext(params));
      if steps.connect.EnterFailed? {
        error := CleanupAndRaise(AgentError(ClientFailedText + steps.connect.msg), steps.closes);
        return;
      }
      if steps.session.ConstructFailed? {
        error := CleanupAndRaise(AgentError(SessionFailedText + steps.session.msg), steps.closes);
        return;
      }
      session := Some(Session(false));
      if steps.session.EnterFailed? {
        error := CleanupAndRaise(AgentError(SessionFailedText + steps.session.msg), steps.closes);
        return;
      }
      session := Some(Session(true));
      if steps.tools.Failure? {
        error := CleanupAndRaise(ToolError(ToolsFailedText + steps.tools.error), steps.closes);
        return;
      }
      tools := Some(steps.tools.value);
      if steps.agent.Fail? {
        error := CleanupAndRaise(AgentError(AgentFailedText + steps.agent.msg), steps.closes);
        return;
      }
      agent := Some(ReactAgent(model.value, tools.value));
      initialized := true;
      error := None;
    }

    /** The system turn followed by the user and bot entries of `history`, converted, in order. */
    method FormatHistoryForAgent(history: seq<HistoryEntry>) returns (messages: seq<Turn>)
      ensures messages == FormatHistory(history)
    {
      messages := [SystemTurn];
      for i := 0 to |history|
        invariant messages == [SystemTurn] + ChatTurns(history[..i])
      {
        var msg := history[i];
        assert history[..i + 1][..i] == history[..i];
        if msg.kind == Some("user") {
          messages := messages + [Turn(User, msg.content.GetOr(""))];
        } else if msg.kind == Some("bot") {
          messages := messages + [Turn(Assistant, msg.content.GetOr(""))];
        }
      }
      assert history[..|history|] == history;
    }

    /**
     * One chat request against the agent. Raises AgentError, without invoking the agent,
     * when the agent is not initialised; otherwise hands the formatted history and the
     * truncated input to `invoke` (returned as `sent`) and turns what it returns into a
     * response record.
     */
    method ProcessMessage(userInput: string, history: Option<seq<HistoryEntry>>, invoke: seq<Turn> -> Invocation)
      returns (result: Result<ChatResponse, Error>, sent: Option<seq<Turn>>)
      ensures !initialized || agent.None? ==>
        result == Failure(AgentError(NotProperlyInitialized)) && sent.None?
      ensures initialized && agent.Some? ==>
        && sent == Some(AgentInput(history.GetOr([]), userInput))
        && result == Success(ResponseFor(invoke(sent.value)))
    {
      if !initialized || agent.None? {
        return Failure(AgentError(NotProperlyInitialized)), None;
      }
      var h := history.GetOr([]);
      var messages := FormatHistoryForAgent(h);
      var truncated := Prefix(userInput, MaxInputLength);
      messages := messages + [Turn(User, truncated)];
      sent := Some(messages);
      var outcome := invoke(messages);
      match outcome {
        case Trace(msgs) =>
          var text, calls, outputs := WalkTrace(msgs);
          var aiMessage := if text != "" then text else FallbackAiMessage;
          result := Success(ChatResponse(true, aiMessage, calls, outputs, None));
        case Timeout =>
          result := Success(ChatResponse(false, TimeoutAiMessage, [], [], Some(TimeoutError)));
        case Exn(e) =>
          result := Success(ChatResponse(false, ProcessingErrorAiMessage(e), [], [], Some(e)));
      }
    }

    /** The names of the discovered tools, in order; none before tools were loaded. */
    function GetAvailableTools(): (names: seq<string>)
      reads this
      ensures tools.None? ==> names == []
      ensures tools.Some? ==> |names| == |tools.value|
      ensures tools.Some? ==> forall k :: 0 <= k < |names| ==> names[k] == tools.value[k].name
    {
      if tools.None? || tools.value == [] then []
      else
        var ts := tools.value;
        seq(|ts|, k requires 0 <= k < |ts| => ts[k].name)
    }
  }
}
