/** Message tables, written row by row, on which history and compaction do what their comments rule
    out. */
module HistoryWitnesses {
  import opened Wrappers
  import opened Messages
  import opened Compaction
  import opened Reloads
  import opened RunLoop

  const CALL := ToolUse("x", "dispatch_to_agent", "{}")
  const ANSWER := ToolResult("x", "ok", false)
  const HELLO := Text("hello")

  lemma Blocks()
    ensures Uses([CALL]) == ["x"] && Answers([CALL]) == []
    ensures Uses([ANSWER]) == [] && Answers([ANSWER]) == ["x"]
    ensures Uses([HELLO]) == [] && Answers([HELLO]) == []
  {
    assert [CALL][1..] == [] && [ANSWER][1..] == [] && [HELLO][1..] == [];
  }

  // ---- Forty rows with one pair -----------------------------------------------

  /** Row `call` calls a tool and the next one answers it; all others are plain. */
  function ContentAt(i: nat, call: nat): seq<Block> {
    if i == call then [CALL] else if i == call + 1 then [ANSWER] else [HELLO]
  }

  function RoleAt(i: nat, call: nat): Role {
    if i == call then Assistant else User
  }

  /** Ten milliseconds apart, except that rows 29 and 30 fall into the same one. */
  function TimeAt(i: nat): int {
    if i == 30 then 290 else 10 * i
  }

  function RowAt(conv: string, call: nat, i: nat): Message {
    NewMessage(conv, RoleAt(i, call), ContentAt(i, call), Stamp(i, TimeAt(i), true))
  }

  function Written(conv: string, call: nat, n: nat): (t: Table)
    ensures ValidTable(t) && forall id :: id in t ==> id < n
  {
    if n == 0 then map[]
    else Persisted(Written(conv, call, n - 1), conv, RoleAt(n - 1, call), ContentAt(n - 1, call), Stamp(n - 1, TimeAt(n - 1), true))
  }

  function Rows(conv: string, call: nat, n: nat): seq<Message> {
    seq(n, i requires 0 <= i < n => RowAt(conv, call, i))
  }

  lemma EmptyHistory(conv: string)
    ensures ValidTable(map[]) && History(map[], conv) == [] && PairedHistory(map[], conv)
    ensures forall stamp :: SortsLast(map[], conv, stamp)
  {
    assert Active(map[], conv) == {};
    HistoryIs(map[], conv, []);
    assert Turns([]) == [];
  }

  lemma {:induction false} WrittenHistory(conv: string, call: nat, n: nat)
    ensures History(Written(conv, call, n), conv) == Rows(conv, call, n)
  {
    if n == 0 {
      EmptyHistory(conv);
    } else {
      WrittenHistory(conv, call, n - 1);
      RowIsWritten(Written(conv, call, n - 1), conv, call, n - 1);
    }
  }

  lemma RowIsWritten(t: Table, conv: string, call: nat, n: nat)
    requires ValidTable(t) && n !in t && History(t, conv) == Rows(conv, call, n)
    ensures var t' := Persisted(t, conv, RoleAt(n, call), ContentAt(n, call), Stamp(n, TimeAt(n), true));
            ValidTable(t') && History(t', conv) == Rows(conv, call, n + 1)
  {
    NextSortsLast(t, conv, call, n);
    HistoryAfterPersist(t, conv, RoleAt(n, call), ContentAt(n, call), Stamp(n, TimeAt(n), true));
    assert Rows(conv, call, n) + [RowAt(conv, call, n)] == Rows(conv, call, n + 1);
  }

  lemma NextSortsLast(t: Table, conv: string, call: nat, n: nat)
    requires ValidTable(t) && History(t, conv) == Rows(conv, call, n)
    ensures SortsLast(t, conv, Stamp(n, TimeAt(n), true))
  {
    forall m | m in Active(t, conv)
      ensures Before(m, NewMessage(conv, User, [], Stamp(n, TimeAt(n), true)))
    {
      assert m in Elements(History(t, conv));
      var i :| 0 <= i < n && Rows(conv, call, n)[i] == m;
    }
  }

  lemma RowsArePaired(conv: string, call: nat, n: nat)
    requires call + 1 < n
    ensures WellPaired(Turns(Rows(conv, call, n)))
  {
    var ts := Turns(Rows(conv, call, n));
    Blocks();
    forall i | 0 <= i < |ts|
      ensures FitsAt([], ts, i)
    {
      assert ts[i] == Turn(RoleAt(i, call), ContentAt(i, call));
      if i > 0 {
        assert ts[i - 1] == Turn(RoleAt(i - 1, call), ContentAt(i - 1, call));
      }
    }
    PairedMeans([], ts);
    assert ts[|ts| - 1] == Turn(RoleAt(n - 1, call), ContentAt(n - 1, call));
  }

  /** A compaction that succeeds. */
  const SUMMARISES := LoadIo(Some("summary"), 40, true, true)

  /** The fourth row calls a tool: compacting tears the pair apart. */
  lemma CompactionSplitsPair(conv: string)
    ensures var t := Written(conv, 3, 40);
            && ValidTable(t) && PairedHistory(t, conv)
            && !WellPaired(Sent(Turns(LoadedMessages(t, conv, History(t, conv), SUMMARISES))))
  {
    var t, msgs := Written(conv, 3, 40), Rows(conv, 3, 40);
    WrittenHistory(conv, 3, 40);
    RowsArePaired(conv, 3, 40);
    Blocks();
    assert Uses(msgs[3].content) == ["x"];
    CompactedPromptExactly(conv, msgs, 40, "summary");
  }

  /** Row 30 calls a tool in the millisecond of row 29 and is answered later: the summary sorts
      between the two. The list sent at once is well-paired, and what is loaded next differs from
      it and is not. */
  lemma SummarySplitsPair(conv: string)
    ensures var t := Written(conv, 30, 40);
            var after := TableAfterLoad(t, conv, History(t, conv), SUMMARISES);
            && ValidTable(t) && PairedHistory(t, conv) && ValidTable(after)
            && WellPaired(Sent(Turns(LoadedMessages(t, conv, History(t, conv), SUMMARISES))))
            && History(after, conv) != LoadedMessages(t, conv, History(t, conv), SUMMARISES)
            && !PairedHistory(after, conv)
  {
    var t, msgs := Written(conv, 30, 40), Rows(conv, 30, 40);
    WrittenHistory(conv, 30, 40);
    RowsArePaired(conv, 30, 40);
    Blocks();
    SummaryAmongRows(conv);
    CompactingLoad(t, conv, msgs, SUMMARISES);
    CompactionKeepsPairsExactly(conv, msgs, 40, "summary");
  }

  lemma SummaryAmongRows(conv: string)
    ensures var msgs := Rows(conv, 30, 40);
            && CutsBetweenPairs(msgs)
            && Overtaken(Tail(msgs), Summary(conv, msgs, 40, "summary")) == 1
            && !ReloadKeepsPairs(msgs, 1)
  {
    var msgs := Rows(conv, 30, 40);
    var summary := Summary(conv, msgs, 40, "summary");
    Blocks();
    assert Middle(msgs)[|Middle(msgs)| - 1] == msgs[29];
    assert summary.createdAt == 291;
    assert Tail(msgs)[0] == msgs[30] && Tail(msgs)[1..][0] == msgs[31];
    assert Before(msgs[30], summary) && !Before(msgs[31], summary);
  }

  // ---- One dispatch -----------------------------------------------------------

  /** A round whose reply makes the one call. */
  function Dispatch(first: Stamp, second: Stamp): Round {
    Round(LoadIo(None, 0, true, true), Some(Reply(ToolCalls, [CALL])),
          _ => CallIo(None, None, Some(Ok("ok"))), None, first, second)
  }

  lemma DispatchWrites(first: Stamp, second: Stamp)
    ensures TextAndCalls([CALL]) == [CALL] && Calls([CALL]) == [CALL]
    ensures ResultBlocks([CALL], Dispatch(first, second).tools) == [ANSWER]
  {
    assert [CALL][..0] == [] && [CALL][1..] == [];
    assert [] + [CALL] == [CALL] && [CALL] + [] == [CALL];
  }

  /** Call and results are written in the same millisecond, and the results draw the smaller id. */
  lemma SameMillisecondSplitsPair(conv: string)
    ensures var o := AfterReply(map[], conv, Dispatch(Stamp(1, 5, true), Stamp(0, 5, true)));
            o.exit == Looping && ValidTable(o.table) && !PairedHistory(o.table, conv)
  {
    var first, second := Stamp(1, 5, true), Stamp(0, 5, true);
    var a, u := NewMessage(conv, Assistant, [CALL], first), NewMessage(conv, User, [ANSWER], second);
    DispatchWrites(first, second);
    Blocks();
    var t := AfterReply(map[], conv, Dispatch(first, second)).table;
    assert t == map[1 := a, 0 := u];
    assert t[1] == a && t[0] == u;
    assert Active(t, conv) == {a, u};
    assert Turns([]) == [];
    ReloadedPairExactly([], a, u, History(t, conv));
  }

  /** The database refuses the results: the calls stay open. */
  lemma RefusedResultsLeaveCallsOpen(conv: string)
    ensures var o := AfterReply(map[], conv, Dispatch(Stamp(0, 0, true), Stamp(1, 1, false)));
            o.exit == Errored && ValidTable(o.table) && !PairedHistory(o.table, conv) && Unanswered(o.table, conv)
  {
    var r := Dispatch(Stamp(0, 0, true), Stamp(1, 1, false));
    EmptyHistory(conv);
    DispatchWrites(r.first, r.second);
    CallIsStored(conv);
    ReplyKeepsPairsExactly(map[], conv, r);
    RefusedResultsAreMissed(map[], conv, r);
  }

  /** After the first of the two writes. */
  lemma CallIsStored(conv: string)
    ensures var t := Persisted(map[], conv, Assistant, [CALL], Stamp(0, 0, true));
            && ValidTable(t) && History(t, conv) == [NewMessage(conv, Assistant, [CALL], Stamp(0, 0, true))]
            && (forall stamp: Stamp :: stamp.now > 0 ==> SortsLast(t, conv, stamp))
  {
    EmptyHistory(conv);
    HistoryAfterPersist(map[], conv, Assistant, [CALL], Stamp(0, 0, true));
    var t := Persisted(map[], conv, Assistant, [CALL], Stamp(0, 0, true));
    forall m | m in Active(t, conv)
      ensures m.createdAt == 0
    {
      assert m in Elements(History(t, conv));
    }
  }

  /** The subagent that the call dispatches loads the history before the results are written. */
  lemma SubAgentSeesOpenCall(conv: string, io: LoadIo, instruction: string)
    ensures var mid := Persisted(map[], conv, Assistant, [CALL], Stamp(0, 0, true));
            ValidTable(mid) && !WellPaired(SubAgentPrompt(mid, conv, io, instruction))
  {
    EmptyHistory(conv);
    Blocks();
    MidDispatchPromptExactly(map[], conv, [CALL], Dispatch(Stamp(0, 0, true), Stamp(1, 1, true)), io, instruction);
  }

  /** And its reply is written before them, too. */
  lemma SubAgentReplySplitsPair(conv: string)
    ensures var mid := Persisted(map[], conv, Assistant, [CALL], Stamp(0, 0, true));
            var replied := Persisted(mid, conv, Assistant, [HELLO], Stamp(1, 1, true));
            var t := Persisted(replied, conv, User, [ANSWER], Stamp(2, 2, true));
            ValidTable(t) && |History(t, conv)| == 3 && !PairedHistory(t, conv)
  {
    var a, x, u := NewMessage(conv, Assistant, [CALL], Stamp(0, 0, true)), NewMessage(conv, Assistant, [HELLO], Stamp(1, 1, true)),
                   NewMessage(conv, User, [ANSWER], Stamp(2, 2, true));
    Blocks();
    var t := map[0 := a, 1 := x, 2 := u];
    assert t[0] == a && t[1] == x && t[2] == u;
    assert Active(t, conv) == {a, u, x};
    assert Turns([]) == [];
    InterveningMessageExactly([], a, u, x, History(t, conv));
    assert Elements([a, x, u]) == {a, u, x};
    HistoryIs(t, conv, [a, x, u]);
    assert Persisted(Persisted(Persisted(map[], conv, Assistant, [CALL], Stamp(0, 0, true)), conv, Assistant, [HELLO], Stamp(1, 1, true)),
                     conv, User, [ANSWER], Stamp(2, 2, true)) == t;
  }
}
