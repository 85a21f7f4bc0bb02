/** What the next load of a conversation reads after a compaction, when the summary may sort into
    the tail: the rows, and whether their tool calls and results are still paired. */
module Reloads {
  import opened Wrappers
  import opened Messages
  import opened Compaction

  /** How many leading rows sort before `x`. */
  function Overtaken(rows: seq<Message>, x: Message): (k: nat)
    ensures k <= |rows|
  {
    if rows == [] || !Before(rows[0], x) then 0 else 1 + Overtaken(rows[1..], x)
  }

  lemma {:induction false} OvertakenSplits(rows: seq<Message>, x: Message)
    requires Sorted(rows) && forall m :: m in rows ==> m.id != x.id
    ensures var k := Overtaken(rows, x);
            && k <= |rows|
            && (forall i :: 0 <= i < k ==> Before(rows[i], x))
            && (forall i :: k <= i < |rows| ==> Before(x, rows[i]))
  {
    if rows != [] {
      if Before(rows[0], x) {
        OvertakenSplits(rows[1..], x);
        assert forall i :: 1 <= i < |rows| ==> rows[i] == rows[1..][i - 1];
      } else {
        assert Before(x, rows[0]);
      }
    }
  }

  /** The rows with the summary at its place among the tail. */
  function Reloaded(msgs: seq<Message>, summary: Message): seq<Message>
    requires |msgs| >= THRESHOLD && Overtaken(Tail(msgs), summary) <= LIVE_TAIL
  {
    var k := Overtaken(Tail(msgs), summary);
    Head(msgs) + Tail(msgs)[..k] + [summary] + Tail(msgs)[k..]
  }

  /** Where the summary sorts. */
  lemma SummaryPlace(t: Table, conv: string, msgs: seq<Message>, id: MessageId, text: string)
    requires ValidTable(t) && IsListing(msgs, Active(t, conv)) && |msgs| >= THRESHOLD && id !in t
    ensures var summary := Summary(conv, msgs, id, text);
            var k := Overtaken(Tail(msgs), summary);
            && k <= LIVE_TAIL
            && (forall i :: 0 <= i < |msgs| - LIVE_TAIL + k ==> Before(msgs[i], summary))
            && (forall i :: |msgs| - LIVE_TAIL + k <= i < |msgs| ==> Before(summary, msgs[i]))
  {
    var summary := Summary(conv, msgs, id, text);
    var split := |msgs| - LIVE_TAIL;
    forall m | m in msgs
      ensures m.id != id
    {
      assert m in Elements(msgs);
    }
    OvertakenSplits(Tail(msgs), summary);
    assert Middle(msgs)[|Middle(msgs)| - 1] == msgs[split - 1];
    assert Before(msgs[split - 1], summary);
    forall i | 0 <= i < split
      ensures Before(msgs[i], summary)
    {
      assert i == split - 1 || Before(msgs[i], msgs[split - 1]);
    }
    assert forall i :: split <= i < |msgs| ==> msgs[i] == Tail(msgs)[i - split];
  }

  /** After both writes of a compaction the ordered query returns the head, then the tail with the
      summary at its place. */
  lemma ReloadIs(t: Table, conv: string, msgs: seq<Message>, id: MessageId, text: string, q: seq<Message>)
    requires ValidTable(t) && IsListing(msgs, Active(t, conv)) && |msgs| >= THRESHOLD && id !in t
    requires IsListing(q, Active(Marked(t[id := Summary(conv, msgs, id, text)], Ids(Middle(msgs))), conv))
    ensures var summary := Summary(conv, msgs, id, text);
            Overtaken(Tail(msgs), summary) <= LIVE_TAIL && q == Reloaded(msgs, summary)
  {
    var summary := Summary(conv, msgs, id, text);
    SummaryPlace(t, conv, msgs, id, text);
    ActiveAfterCompaction(t, conv, msgs, id, text);
    ReloadedIsSorted(msgs, summary);
    ReloadedHolds(msgs, summary);
    ListingIsUnique(q, Reloaded(msgs, summary));
  }

  lemma ReloadedIsSorted(msgs: seq<Message>, summary: Message)
    requires Sorted(msgs) && |msgs| >= THRESHOLD && Overtaken(Tail(msgs), summary) <= LIVE_TAIL
    requires var at := |msgs| - LIVE_TAIL + Overtaken(Tail(msgs), summary);
             (forall i :: 0 <= i < at ==> Before(msgs[i], summary)) && (forall i :: at <= i < |msgs| ==> Before(summary, msgs[i]))
    ensures Sorted(Reloaded(msgs, summary))
  {
    var k := Overtaken(Tail(msgs), summary);
    var a, b1, b2 := Head(msgs), Tail(msgs)[..k], Tail(msgs)[k..];
    JoinSorted(a, b1);
    JoinSorted(a + b1, [summary]);
    JoinSorted(a + b1 + [summary], b2);
  }

  /** The same messages as the list handed on. */
  lemma ReloadedHolds(msgs: seq<Message>, summary: Message)
    requires |msgs| >= THRESHOLD && Overtaken(Tail(msgs), summary) <= LIVE_TAIL
    ensures Elements(Reloaded(msgs, summary)) == Elements(Compacted(msgs, summary))
  {
    var k := Overtaken(Tail(msgs), summary);
    var a, b1, b2 := Head(msgs), Tail(msgs)[..k], Tail(msgs)[k..];
    ElementsAppend(a, b1);
    ElementsAppend(a + b1, [summary]);
    ElementsAppend(a + b1 + [summary], b2);
    ElementsAppend(a, [summary]);
    ElementsAppend(a + [summary], Tail(msgs));
    ElementsAppend(b1, b2);
    assert Tail(msgs) == b1 + b2;
  }

  /** After the insert alone it returns the old rows with the summary at its place. */
  lemma StrandedIs(t: Table, conv: string, msgs: seq<Message>, id: MessageId, text: string, q: seq<Message>)
    requires ValidTable(t) && IsListing(msgs, Active(t, conv)) && |msgs| >= THRESHOLD && id !in t
    requires IsListing(q, Active(t[id := Summary(conv, msgs, id, text)], conv))
    ensures var summary := Summary(conv, msgs, id, text);
            var at := |msgs| - LIVE_TAIL + Overtaken(Tail(msgs), summary);
            at <= |msgs| && q == msgs[..at] + [summary] + msgs[at..]
  {
    var summary := Summary(conv, msgs, id, text);
    SummaryPlace(t, conv, msgs, id, text);
    var at := |msgs| - LIVE_TAIL + Overtaken(Tail(msgs), summary);
    ActiveAfterInsert(t, conv, summary);
    InsertBetween(msgs, at, summary);
    ListingIsUnique(q, msgs[..at] + [summary] + msgs[at..]);
  }

  // ---- Pairs ------------------------------------------------------------------

  /** A plain turn after `b1`, which follows `a` in place of what it followed before. */
  lemma MovedBehind(a: seq<Turn>, c: seq<string>, b1: seq<Turn>, plain: Turn, b2: seq<Turn>)
    requires PairedAfter([], a) && PairedAfter(c, b1 + b2) && b1 != [] && CallsLeft(c, b1 + b2) == []
    requires Uses(plain.content) == [] && Answers(plain.content) == []
    ensures WellPaired(a + b1 + [plain] + b2) <==>
            Answers(b1[0].content) == CallsLeft([], a) && Uses(b1[|b1| - 1].content) == []
  {
    PairedConcat(c, b1, b2);
    PairedElsewhere(c, CallsLeft([], a), b1);
    PairedConcat([], a, b1);
    PairedAppend([], a + b1, plain);
    PairedConcat([], a + b1 + [plain], b2);
  }

  /** The condition on a compaction whose summary sorts behind the first `k` tail rows. */
  predicate ReloadKeepsPairs(msgs: seq<Message>, k: nat)
    requires |msgs| >= THRESHOLD && k <= LIVE_TAIL
  {
    if k == 0 then CutsBetweenPairs(msgs)
    else Answers(Tail(msgs)[0].content) == Uses(msgs[PINNED_HEAD - 1].content) && Uses(Tail(msgs)[k - 1].content) == []
  }

  /** What later loads read after a compaction of a well-paired history is well-paired if and only
      if the cuts fall between pairs, where the summary sorts before the tail; and otherwise, the
      head's last calls happen to be those the tail answers first, and the summary does not fall
      between a call and its result. */
  lemma ReloadPairsExactly(t: Table, conv: string, msgs: seq<Message>, id: MessageId, text: string, q: seq<Message>)
    requires ValidTable(t) && IsListing(msgs, Active(t, conv)) && |msgs| >= THRESHOLD && id !in t
    requires IsListing(q, Active(Marked(t[id := Summary(conv, msgs, id, text)], Ids(Middle(msgs))), conv))
    requires WellPaired(Turns(msgs))
    ensures var k := Overtaken(Tail(msgs), Summary(conv, msgs, id, text));
            k <= LIVE_TAIL && (WellPaired(Turns(q)) <==> ReloadKeepsPairs(msgs, k))
  {
    ReloadIs(t, conv, msgs, id, text, q);
    ReloadedPairs(msgs, Summary(conv, msgs, id, text), conv, id, text);
  }

  lemma ReloadedPairs(msgs: seq<Message>, summary: Message, conv: string, id: MessageId, text: string)
    requires |msgs| >= THRESHOLD && WellPaired(Turns(msgs)) && summary == Summary(conv, msgs, id, text)
    requires Overtaken(Tail(msgs), summary) <= LIVE_TAIL
    ensures WellPaired(Turns(Reloaded(msgs, summary))) <==> ReloadKeepsPairs(msgs, Overtaken(Tail(msgs), summary))
  {
    var k := Overtaken(Tail(msgs), summary);
    if k == 0 {
      CompactionKeepsPairsExactly(conv, msgs, id, text);
      assert Reloaded(msgs, summary) == Compacted(msgs, summary);
    } else {
      SummaryIsPlain(conv, msgs, id, text);
      TurnsOfReload(msgs, summary);
      MovedInTail(Turns(msgs), Turns(Head(msgs)), Turns(Middle(msgs)), Turns(Tail(msgs)[..k]), TurnOf(summary), Turns(Tail(msgs)[k..]));
    }
  }

  lemma TurnsOfReload(msgs: seq<Message>, summary: Message)
    requires |msgs| >= THRESHOLD && Overtaken(Tail(msgs), summary) <= LIVE_TAIL
    ensures var k := Overtaken(Tail(msgs), summary);
            var b1, b2 := Turns(Tail(msgs)[..k]), Turns(Tail(msgs)[k..]);
            && Turns(msgs) == Turns(Head(msgs)) + Turns(Middle(msgs)) + (b1 + b2)
            && Turns(Reloaded(msgs, summary)) == Turns(Head(msgs)) + b1 + [TurnOf(summary)] + b2
  {
    var k := Overtaken(Tail(msgs), summary);
    assert msgs == Head(msgs) + Middle(msgs) + Tail(msgs);
    assert Tail(msgs) == Tail(msgs)[..k] + Tail(msgs)[k..];
    TurnsOfThree(Head(msgs), Middle(msgs), Tail(msgs));
    TurnsAppend(Tail(msgs)[..k], Tail(msgs)[k..]);
    TurnsOfThree(Head(msgs), Tail(msgs)[..k], [summary]);
    TurnsAppend(Head(msgs) + Tail(msgs)[..k] + [summary], Tail(msgs)[k..]);
    assert Turns([summary]) == [TurnOf(summary)];
  }

  lemma TurnsOfThree(a: seq<Message>, b: seq<Message>, c: seq<Message>)
    ensures Turns(a + b + c) == Turns(a) + Turns(b) + Turns(c)
  {
    TurnsAppend(a, b);
    TurnsAppend(a + b, c);
  }

  /** The last part of a paired list, with a plain turn inside, moved behind the first part. */
  lemma MovedInTail(ts: seq<Turn>, a: seq<Turn>, m: seq<Turn>, b1: seq<Turn>, plain: Turn, b2: seq<Turn>)
    requires WellPaired(ts) && ts == a + m + (b1 + b2) && a != [] && m != [] && b1 != []
    requires Uses(plain.content) == [] && Answers(plain.content) == []
    ensures WellPaired(a + b1 + [plain] + b2) <==>
            Answers(b1[0].content) == Uses(a[|a| - 1].content) && Uses(b1[|b1| - 1].content) == []
  {
    JoinedPairs(ts, a + m, b1 + b2);
    PairedConcat([], a, m);
    PairedConcat([], a + m, b1 + b2);
    MovedBehind(a, Uses((a + m)[|a + m| - 1].content), b1, plain, b2);
  }

  lemma SummaryIsPlain(conv: string, msgs: seq<Message>, id: MessageId, text: string)
    requires |msgs| >= THRESHOLD
    ensures Uses(Summary(conv, msgs, id, text).content) == [] && Answers(Summary(conv, msgs, id, text).content) == []
  {
    assert Summary(conv, msgs, id, text).content[1..] == [];
  }

  /** With the summary inserted but nothing marked, later loads read a well-paired history if and
      only if the row in front of the summary calls no tool. */
  lemma StrandedPairsExactly(t: Table, conv: string, msgs: seq<Message>, id: MessageId, text: string, q: seq<Message>)
    requires ValidTable(t) && IsListing(msgs, Active(t, conv)) && |msgs| >= THRESHOLD && id !in t
    requires IsListing(q, Active(t[id := Summary(conv, msgs, id, text)], conv))
    requires WellPaired(Turns(msgs))
    ensures var at := |msgs| - LIVE_TAIL + Overtaken(Tail(msgs), Summary(conv, msgs, id, text));
            at <= |msgs| && (WellPaired(Turns(q)) <==> Uses(msgs[at - 1].content) == [])
  {
    var summary := Summary(conv, msgs, id, text);
    var at := |msgs| - LIVE_TAIL + Overtaken(Tail(msgs), summary);
    StrandedIs(t, conv, msgs, id, text, q);
    SummaryIsPlain(conv, msgs, id, text);
    var ts := Turns(msgs);
    PlainInserted(ts, at, TurnOf(summary));
    assert Turns(q) == ts[..at] + [TurnOf(summary)] + ts[at..];
  }

  lemma PlainInserted(ts: seq<Turn>, at: nat, plain: Turn)
    requires WellPaired(ts) && 0 < at <= |ts| && Uses(plain.content) == [] && Answers(plain.content) == []
    ensures WellPaired(ts[..at] + [plain] + ts[at..]) <==> Uses(ts[at - 1].content) == []
  {
    if at == |ts| {
      assert ts[..at] == ts && ts[at..] == [];
      assert ts[..at] + [plain] + ts[at..] == ts + [plain];
      PairedAppend([], ts, plain);
    } else {
      SplicingPairs(ts, at, plain, at);
      AnsweredByNext(ts, at);
    }
  }

  // ---- What is sent at once ---------------------------------------------------

  lemma {:induction false} SentAppend(a: seq<Turn>, b: seq<Turn>)
    ensures Sent(a + b) == Sent(a) + Sent(b)
  {
    if b == [] {
      assert a + b == a;
    } else {
      var front, last := b[..|b| - 1], b[|b| - 1];
      SentAppend(a, front);
      assert (a + b)[..|a + b| - 1] == a + front;
    }
  }

  /** The first turn behind some calls answers them. */
  lemma {:induction false} FirstAnswers(calls: seq<string>, b: seq<Turn>)
    requires PairedAfter(calls, b) && b != []
    ensures Answers(b[0].content) == calls
  {
    PairedElsewhere(calls, calls, b);
  }

  /** Where a turn carries blocks, it stays the first one. */
  lemma {:induction false} FirstIsSent(b: seq<Turn>)
    requires b != [] && b[0].content != []
    ensures Sent(b) != [] && Sent(b)[0] == b[0]
  {
    if |b| > 1 {
      FirstIsSent(b[..|b| - 1]);
    }
  }

  /** Leaving out empty messages repairs nothing: the list sent right after the compaction of a
      well-paired history is well-paired if and only if both cuts fall between pairs. */
  lemma CompactedPromptExactly(conv: string, msgs: seq<Message>, id: MessageId, text: string)
    requires |msgs| >= THRESHOLD && WellPaired(Turns(msgs))
    ensures WellPaired(Sent(Turns(Compacted(msgs, Summary(conv, msgs, id, text))))) <==> CutsBetweenPairs(msgs)
  {
    var summary := Summary(conv, msgs, id, text);
    if CutsBetweenPairs(msgs) {
      CompactionKeepsPairsExactly(conv, msgs, id, text);
      SentStaysPaired(Turns(Compacted(msgs, summary)));
    } else {
      SummaryIsPlain(conv, msgs, id, text);
      TurnsOfThree(Head(msgs), [summary], Tail(msgs));
      assert Turns([summary]) == [TurnOf(summary)];
      TurnsOfThree(Head(msgs), Middle(msgs), Tail(msgs));
      assert msgs == Head(msgs) + Middle(msgs) + Tail(msgs);
      PairedConcat([], Turns(Head(msgs)), Turns(Middle(msgs)));
      PairedConcat([], Turns(Head(msgs)) + Turns(Middle(msgs)), Turns(Tail(msgs)));
      CutInsidePair(Turns(Head(msgs)), TurnOf(summary), Turns(Tail(msgs)));
    }
  }

  lemma CutInsidePair(a: seq<Turn>, plain: Turn, b: seq<Turn>)
    requires PairedAfter([], a) && plain.content != [] && Uses(plain.content) == [] && Answers(plain.content) == [] && b != []
    requires CallsLeft([], a) != [] || Answers(b[0].content) != []
    ensures !WellPaired(Sent(a + [plain] + b))
  {
    SentAppend(a, [plain]);
    SentAppend(a + [plain], b);
    assert [plain][..0] == [];
    assert Sent([plain]) == [plain];
    SkippingEmptyTurns(a);
    PairedAppend([], Sent(a), plain);
    PairedConcat([], Sent(a) + [plain], Sent(b));
    if CallsLeft([], a) == [] && PairedAfter([], Sent(b)) {
      FirstIsSent(b);
      FirstAnswers([], Sent(b));
    }
  }
}
