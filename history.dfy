/**
 * The history formatter: caller-supplied turns become the role-tagged messages the agent
 * expects, behind one fixed system turn.
 */
module History {
  import opened Wrappers
  import opened Messages

  /** The system turn that opens every conversation handed to the agent. */
  const SystemTurn: Turn := Turn(System, SystemPrompt)

  /** An entry the formatter keeps: its `type` is "user" or "bot". */
  predicate IsChatEntry(e: HistoryEntry) {
    e.kind == Some("user") || e.kind == Some("bot")
  }

  /** The turn one history entry becomes; entries of any other type become nothing. */
  function ConvertEntry(e: HistoryEntry): (t: Option<Turn>)
    ensures t.Some? <==> IsChatEntry(e)
    ensures t.Some? ==> t.value.role != System
    ensures t.Some? ==> (t.value.role == User <==> e.kind == Some("user"))
    ensures t.Some? ==> (t.value.role == Assistant <==> e.kind == Some("bot"))
    ensures t.Some? ==> t.value.content == e.content.GetOr("")
  {
    if e.kind == Some("user") then Some(Turn(User, e.content.GetOr("")))
    else if e.kind == Some("bot") then Some(Turn(Assistant, e.content.GetOr("")))
    else None
  }

  function TurnsOf(e: HistoryEntry): seq<Turn> {
    match ConvertEntry(e)
    case Some(t) => [t]
    case None => []
  }

  /** The turns the loop over `history` appends, in the order of the entries. */
  function ChatTurns(h: seq<HistoryEntry>): seq<Turn> {
    if h == [] then [] else ChatTurns(h[..|h| - 1]) + TurnsOf(h[|h| - 1])
  }

  /** What `format_history_for_agent` returns. */
  function FormatHistory(h: seq<HistoryEntry>): seq<Turn> {
    [SystemTurn] + ChatTurns(h)
  }

  /** Reference definition: the entries that are kept, in their original order. */
  function ChatEntries(h: seq<HistoryEntry>): (r: seq<HistoryEntry>)
    ensures |r| <= |h|
    ensures forall k :: 0 <= k < |r| ==> IsChatEntry(r[k])
  {
    if h == [] then []
    else (if IsChatEntry(h[0]) then [h[0]] else []) + ChatEntries(h[1..])
  }

  /** Formatting two pieces of history one after the other is formatting their concatenation. */
  lemma {:induction false} ChatTurnsAppend(a: seq<HistoryEntry>, b: seq<HistoryEntry>)
    ensures ChatTurns(a + b) == ChatTurns(a) + ChatTurns(b)
    decreases |b|
  {
    if b == [] {
      assert a + b == a;
    } else {
      var b' := b[..|b| - 1];
      assert (a + b)[..|a + b| - 1] == a + b';
      assert (a + b)[|a + b| - 1] == b[|b| - 1];
      ChatTurnsAppend(a, b');
    }
  }

  /** The kept turns correspond one to one, in order, to the user and bot entries. */
  lemma {:induction false} ChatTurnsMatchEntries(h: seq<HistoryEntry>)
    ensures |ChatTurns(h)| == |ChatEntries(h)|
    ensures forall k :: 0 <= k < |ChatEntries(h)| ==> ConvertEntry(ChatEntries(h)[k]) == Some(ChatTurns(h)[k])
  {
    if h != [] {
      assert h == [h[0]] + h[1..];
      ChatTurnsAppend([h[0]], h[1..]);
      assert [h[0]][..0] == [];
      assert ChatTurns([h[0]]) == TurnsOf(h[0]);
      ChatTurnsMatchEntries(h[1..]);
    }
  }

  /**
   * The formatted history is the system turn followed by one converted turn per user or
   * bot entry, in the original order; so its length is one plus the number of such entries.
   */
  lemma FormatHistoryShape(h: seq<HistoryEntry>)
    ensures |FormatHistory(h)| == 1 + |ChatEntries(h)|
    ensures FormatHistory(h)[0] == SystemTurn
    ensures forall k :: 0 <= k < |ChatEntries(h)| ==> ConvertEntry(ChatEntries(h)[k]) == Some(FormatHistory(h)[k + 1])
  {
    ChatTurnsMatchEntries(h);
  }

  /** An entry whose type is neither "user" nor "bot" is dropped without disturbing the others. */
  lemma DropsOtherEntry(a: seq<HistoryEntry>, e: HistoryEntry, b: seq<HistoryEntry>)
    requires !IsChatEntry(e)
    ensures FormatHistory(a + [e] + b) == FormatHistory(a + b)
  {
    assert ChatTurns([e]) == [] by {
      assert [e][..0] == [];
    }
    calc {
      ChatTurns(a + [e] + b);
      { ChatTurnsAppend(a + [e], b); }
      ChatTurns(a + [e]) + ChatTurns(b);
      { ChatTurnsAppend(a, [e]); }
      ChatTurns(a) + ChatTurns(b);
      { ChatTurnsAppend(a, b); }
      ChatTurns(a + b);
    }
  }
}
