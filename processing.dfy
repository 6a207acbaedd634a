/**
 * Request processing: what is handed to the agent (formatted history plus the truncated
 * user turn), and how the message trace it returns, a timeout or an exception becomes a
 * structured chat response.
 */
module Processing {
  import opened Wrappers
  import opened Text
  import opened Messages
  import opened History

  /** `user_input[:175000]`: the input itself when it fits, else its first 175000 characters. */
  function TruncateInput(s: string): (r: string)
    ensures |s| <= MaxInputLength ==> r == s
    ensures |s| > MaxInputLength ==> |r| == MaxInputLength && r == s[..MaxInputLength]
    ensures |r| == Min(|s|, MaxInputLength) && r == s[..|r|]
  {
    Prefix(s, MaxInputLength)
  }

  /** The display copy of a tool output: `full[:1000] + ("..." if len(full) > 1000 else "")`. */
  function DisplayCopy(full: string): (r: string)
    ensures |full| <= MaxDisplayLength ==> r == full
    ensures |full| > MaxDisplayLength ==> r == full[..MaxDisplayLength] + Ellipsis
    ensures |r| <= MaxDisplayLength + |Ellipsis|
  {
    Prefix(full, MaxDisplayLength) + (if |full| > MaxDisplayLength then Ellipsis else "")
  }

  /** The `messages` handed to the agent: formatted history, then the truncated user turn. */
  function AgentInput(h: seq<HistoryEntry>, input: string): (r: seq<Turn>)
    ensures |r| == 2 + |ChatEntries(h)|
    ensures r[0] == SystemTurn
    ensures r[|r| - 1] == Turn(User, TruncateInput(input))
    ensures r[..|r| - 1] == FormatHistory(h)
  {
    FormatHistoryShape(h);
    FormatHistory(h) + [Turn(User, TruncateInput(input))]
  }

  /** A response record for one tool-call request, with the defaults for absent keys. */
  function ConvertCall(req: ToolCallRequest): ToolCall {
    ToolCall(req.name.GetOr("Unknown"), req.args.GetOr(map[]), req.id.GetOr(""))
  }

  /** The records of a message's tool calls, one per request, in order. */
  function ConvertCalls(reqs: seq<ToolCallRequest>): (r: seq<ToolCall>)
    ensures |r| == |reqs|
    ensures forall k :: 0 <= k < |reqs| ==> r[k] == ConvertCall(reqs[k])
  {
    if reqs == [] then [] else ConvertCalls(reqs[..|reqs| - 1]) + [ConvertCall(reqs[|reqs| - 1])]
  }

  /** An AI message that requests tools. */
  predicate RequestsTools(m: Msg) {
    m.AIMsg? && m.toolCalls != []
  }

  /** An AI message with no tool calls and non-empty content: a candidate final answer. */
  predicate IsFinalText(m: Msg) {
    m.AIMsg? && m.toolCalls == [] && m.content != ""
  }

  function CallsOf(m: Msg): seq<ToolCall> {
    if RequestsTools(m) then ConvertCalls(m.toolCalls) else []
  }

  function OutputsOf(m: Msg): seq<ToolOutput> {
    if m.ToolMsg? then [ToolOutput(m.name, DisplayCopy(m.content), m.content)] else []
  }

  /** The `tool_calls` a trace yields. */
  function ToolCallsOf(msgs: seq<Msg>): seq<ToolCall> {
    if msgs == [] then [] else ToolCallsOf(msgs[..|msgs| - 1]) + CallsOf(msgs[|msgs| - 1])
  }

  /** The `tool_outputs` a trace yields. */
  function ToolOutputsOf(msgs: seq<Msg>): seq<ToolOutput> {
    if msgs == [] then [] else ToolOutputsOf(msgs[..|msgs| - 1]) + OutputsOf(msgs[|msgs| - 1])
  }

  /** The accumulator `ai_message_content` after the walk ("" when no final text was seen). */
  function LastAiText(msgs: seq<Msg>): string {
    if msgs == [] then ""
    else if IsFinalText(msgs[|msgs| - 1]) then msgs[|msgs| - 1].content
    else LastAiText(msgs[..|msgs| - 1])
  }

  /** The result dict of `process_message_async` for each way the agent invocation can end. */
  function ResponseFor(inv: Invocation): (r: ChatResponse)
    ensures r.success <==> inv.Trace?
    ensures r.success <==> r.error.None?
    ensures r.aiMessage != []
    ensures inv.Timeout? ==> r.error == Some(TimeoutError)
    ensures inv.Exn? ==> r.error == Some(inv.text)
    ensures !r.success ==> r.toolCalls == [] && r.toolOutputs == []
  {
    match inv
    case Trace(msgs) =>
      var text := LastAiText(msgs);
      ChatResponse(true, if text != "" then text else FallbackAiMessage, ToolCallsOf(msgs), ToolOutputsOf(msgs), None)
    case Timeout =>
      ChatResponse(false, TimeoutAiMessage, [], [], Some(TimeoutError))
    case Exn(e) =>
      ChatResponse(false, ProcessingErrorAiMessage(e), [], [], Some(e))
  }

  lemma {:induction false} ToolCallsOfAppend(a: seq<Msg>, b: seq<Msg>)
    ensures ToolCallsOf(a + b) == ToolCallsOf(a) + ToolCallsOf(b)
    decreases |b|
  {
    if b == [] {
      assert a + b == a;
    } else {
      var b' := b[..|b| - 1];
      assert (a + b)[..|a + b| - 1] == a + b';
      assert (a + b)[|a + b| - 1] == b[|b| - 1];
      ToolCallsOfAppend(a, b');
    }
  }

  lemma {:induction false} ToolOutputsOfAppend(a: seq<Msg>, b: seq<Msg>)
    ensures ToolOutputsOf(a + b) == ToolOutputsOf(a) + ToolOutputsOf(b)
    decreases |b|
  {
    if b == [] {
      assert a + b == a;
    } else {
      var b' := b[..|b| - 1];
      assert (a + b)[..|a + b| - 1] == a + b';
      assert (a + b)[|a + b| - 1] == b[|b| - 1];
      ToolOutputsOfAppend(a, b');
    }
  }

  /**
   * The tool calls of a trace are those of the messages before `m`, then every call of `m`
   * when `m` is an AI message requesting tools (converted with defaults, in order), then
   * those of the messages after it.
   */
  lemma ToolCallsInEmissionOrder(a: seq<Msg>, m: Msg, b: seq<Msg>)
    ensures ToolCallsOf(a + [m] + b) == ToolCallsOf(a) + CallsOf(m) + ToolCallsOf(b)
    ensures |CallsOf(m)| == (if RequestsTools(m) then |m.toolCalls| else 0)
    ensures RequestsTools(m) ==> forall k :: 0 <= k < |m.toolCalls| ==> CallsOf(m)[k] == ConvertCall(m.toolCalls[k])
  {
    assert ToolCallsOf([m]) == CallsOf(m) by {
      assert [m][..0] == [];
    }
    ToolCallsOfAppend(a + [m], b);
    ToolCallsOfAppend(a, [m]);
  }

  /**
   * The tool outputs of a trace are those before `m`, then one record for `m` when it is a
   * tool message, then those after it.
   */
  lemma ToolOutputsInEmissionOrder(a: seq<Msg>, m: Msg, b: seq<Msg>)
    ensures ToolOutputsOf(a + [m] + b) == ToolOutputsOf(a) + OutputsOf(m) + ToolOutputsOf(b)
  {
    assert ToolOutputsOf([m]) == OutputsOf(m) by {
      assert [m][..0] == [];
    }
    ToolOutputsOfAppend(a + [m], b);
    ToolOutputsOfAppend(a, [m]);
  }

  /** Every tool output keeps its full content and shows at most 1003 characters of it. */
  lemma {:induction false} ToolOutputsBounded(msgs: seq<Msg>)
    ensures forall k :: 0 <= k < |ToolOutputsOf(msgs)| ==>
      var o := ToolOutputsOf(msgs)[k];
      o.content == DisplayCopy(o.fullContent) && |o.content| <= MaxDisplayLength + |Ellipsis|
    ensures forall k :: 0 <= k < |ToolOutputsOf(msgs)| ==>
      var o := ToolOutputsOf(msgs)[k];
      |o.fullContent| <= MaxDisplayLength ==> o.content == o.fullContent
  {
    if msgs != [] {
      ToolOutputsBounded(msgs[..|msgs| - 1]);
    }
  }

  /**
   * The walk's text is empty exactly when the trace has no final-text AI message, and
   * otherwise it is the content of the last such message.
   */
  lemma {:induction false} LastAiTextIsLast(msgs: seq<Msg>)
    ensures LastAiText(msgs) == "" <==> forall i :: 0 <= i < |msgs| ==> !IsFinalText(msgs[i])
    ensures LastAiText(msgs) != "" ==>
      exists i :: 0 <= i < |msgs| && IsFinalText(msgs[i]) && msgs[i].content == LastAiText(msgs)
        && forall j :: i < j < |msgs| ==> !IsFinalText(msgs[j])
  {
    if msgs != [] {
      var init := msgs[..|msgs| - 1];
      LastAiTextIsLast(init);
      if !IsFinalText(msgs[|msgs| - 1]) {
        assert forall i :: 0 <= i < |init| ==> init[i] == msgs[i];
        if LastAiText(msgs) != "" {
          var i :| 0 <= i < |init| && IsFinalText(init[i]) && init[i].content == LastAiText(init)
            && forall j :: i < j < |init| ==> !IsFinalText(init[j]);
          assert forall j :: i < j < |msgs| ==> !IsFinalText(msgs[j]) by {
            forall j | i < j < |msgs| ensures !IsFinalText(msgs[j]) {
              if j < |init| { assert msgs[j] == init[j]; }
            }
          }
        }
      }
    }
  }

  /**
   * A completed invocation answers with the last final text of the trace, or with the
   * fixed fallback when there is none.
   */
  lemma TraceResponseAiMessage(msgs: seq<Msg>)
    ensures (forall i :: 0 <= i < |msgs| ==> !IsFinalText(msgs[i])) ==>
      ResponseFor(Trace(msgs)).aiMessage == FallbackAiMessage
    ensures (exists i :: 0 <= i < |msgs| && IsFinalText(msgs[i])) ==>
      exists i :: 0 <= i < |msgs| && IsFinalText(msgs[i]) && msgs[i].content == ResponseFor(Trace(msgs)).aiMessage
        && forall j :: i < j < |msgs| ==> !IsFinalText(msgs[j])
  {
    LastAiTextIsLast(msgs);
  }
}
