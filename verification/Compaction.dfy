/** History compaction: the split into a pinned head, a summarised middle and a live tail, and
    what the next load of the same conversation sees. */
module Compaction {
  import opened Wrappers
  import opened Messages

  const THRESHOLD := 40
  const PINNED_HEAD := 4
  const LIVE_TAIL := 10

  function Head(msgs: seq<Message>): seq<Message>
    requires |msgs| >= THRESHOLD
  {
    msgs[..PINNED_HEAD]
  }

  function Middle(msgs: seq<Message>): seq<Message>
    requires |msgs| >= THRESHOLD
  {
    msgs[PINNED_HEAD..|msgs| - LIVE_TAIL]
  }

  function Tail(msgs: seq<Message>): seq<Message>
    requires |msgs| >= THRESHOLD
  {
    msgs[|msgs| - LIVE_TAIL..]
  }

  /** The summary row: a user text placed one millisecond after the last middle message. */
  function Summary(conv: string, msgs: seq<Message>, id: MessageId, text: string): Message
    requires |msgs| >= THRESHOLD
  {
    var middle := Middle(msgs);
    Message(id, conv, User, None, false,
            [Text("[Context summary]\n" + (if text == "" then "(summary unavailable)" else text))],
            middle[|middle| - 1].createdAt + 1)
  }

  /** The in-memory history after a successful compaction. */
  function Compacted(msgs: seq<Message>, summary: Message): seq<Message>
    requires |msgs| >= THRESHOLD
  {
    Head(msgs) + [summary] + Tail(msgs)
  }

  function Ids(msgs: seq<Message>): set<MessageId> {
    set m | m in msgs :: m.id
  }

  /** `UPDATE ... SET compacted = 1 WHERE id IN ids`. */
  function Marked(t: Table, ids: set<MessageId>): Table {
    map id | id in t :: if id in ids then t[id].(compacted := true) else t[id]
  }

  // ---- In memory against the next load ----------------------------------------

  lemma SameIdSameMessage(t: Table, conv: string, msgs: seq<Message>, i: nat, j: nat)
    requires ValidTable(t) && IsListing(msgs, Active(t, conv)) && i < |msgs| && j < |msgs| && msgs[i].id == msgs[j].id
    ensures i == j
  {
    assert msgs[i] in Active(t, conv) && msgs[j] in Active(t, conv);
  }

  /** Which messages of a listing are marked. */
  lemma MarkedExactly(t: Table, conv: string, msgs: seq<Message>, k: nat)
    requires ValidTable(t) && IsListing(msgs, Active(t, conv)) && |msgs| >= THRESHOLD && k < |msgs|
    ensures msgs[k].id in t && t[msgs[k].id] == msgs[k] && msgs[k] in Active(t, conv)
    ensures msgs[k].id in Ids(Middle(msgs)) <==> PINNED_HEAD <= k < |msgs| - LIVE_TAIL
  {
    assert msgs[k] in Elements(msgs);
    if PINNED_HEAD <= k < |msgs| - LIVE_TAIL {
      assert Middle(msgs)[k - PINNED_HEAD] == msgs[k];
    }
    if msgs[k].id in Ids(Middle(msgs)) {
      var j :| 0 <= j < |Middle(msgs)| && Middle(msgs)[j].id == msgs[k].id;
      SameIdSameMessage(t, conv, msgs, k, j + PINNED_HEAD);
    }
  }

  /** A message of the compacted list other than the summary, and where it was. */
  function Origin(msgs: seq<Message>, k: nat): nat
    requires |msgs| >= THRESHOLD && k < PINNED_HEAD + 1 + LIVE_TAIL
  {
    if k < PINNED_HEAD then k else |msgs| - LIVE_TAIL + k - PINNED_HEAD - (if k == PINNED_HEAD then 0 else 1)
  }

  lemma CompactedAt(msgs: seq<Message>, summary: Message, k: nat)
    requires |msgs| >= THRESHOLD && k < PINNED_HEAD + 1 + LIVE_TAIL
    ensures |Compacted(msgs, summary)| == PINNED_HEAD + 1 + LIVE_TAIL && Origin(msgs, k) < |msgs|
    ensures Compacted(msgs, summary)[k] == if k == PINNED_HEAD then summary else msgs[Origin(msgs, k)]
  {
  }

  lemma SummaryIdIsFresh(t: Table, conv: string, msgs: seq<Message>, id: MessageId)
    requires ValidTable(t) && IsListing(msgs, Active(t, conv)) && |msgs| >= THRESHOLD && id !in t
    ensures id !in Ids(Middle(msgs))
  {
    if id in Ids(Middle(msgs)) {
      var j :| 0 <= j < |Middle(msgs)| && Middle(msgs)[j].id == id;
      MarkedExactly(t, conv, msgs, j + PINNED_HEAD);
    }
  }

  lemma ActiveIsCompacted(t: Table, conv: string, msgs: seq<Message>, id: MessageId, text: string, m: Message)
    requires ValidTable(t) && IsListing(msgs, Active(t, conv)) && |msgs| >= THRESHOLD && id !in t
    requires m in Active(Marked(t[id := Summary(conv, msgs, id, text)], Ids(Middle(msgs))), conv)
    ensures m in Elements(Compacted(msgs, Summary(conv, msgs, id, text)))
  {
    var summary := Summary(conv, msgs, id, text);
    SummaryIdIsFresh(t, conv, msgs, id);
    if m.id == id {
      CompactedAt(msgs, summary, PINNED_HEAD);
      assert m == summary;
    } else {
      assert m.id in t && t[m.id] == m && m in Active(t, conv);
      assert m in Elements(msgs);
      var i :| 0 <= i < |msgs| && msgs[i] == m;
      MarkedExactly(t, conv, msgs, i);
      var k := if i < PINNED_HEAD then i else i - (|msgs| - LIVE_TAIL) + PINNED_HEAD + 1;
      CompactedAt(msgs, summary, k);
      assert Compacted(msgs, summary)[k] == m;
    }
  }

  lemma CompactedIsActive(t: Table, conv: string, msgs: seq<Message>, id: MessageId, text: string, k: nat)
    requires ValidTable(t) && IsListing(msgs, Active(t, conv)) && |msgs| >= THRESHOLD && id !in t
    requires k < PINNED_HEAD + 1 + LIVE_TAIL
    ensures var summary := Summary(conv, msgs, id, text);
            Compacted(msgs, summary)[k] in Active(Marked(t[id := summary], Ids(Middle(msgs))), conv)
  {
    var summary := Summary(conv, msgs, id, text);
    var after := Marked(t[id := summary], Ids(Middle(msgs)));
    SummaryIdIsFresh(t, conv, msgs, id);
    CompactedAt(msgs, summary, k);
    if k == PINNED_HEAD {
      assert after[id] == summary;
    } else {
      var m := msgs[Origin(msgs, k)];
      MarkedExactly(t, conv, msgs, Origin(msgs, k));
      assert after[m.id] == m;
    }
  }

  /** After marking the middle and inserting the summary, the uncompacted rows are exactly the
      messages of the compacted list. */
  lemma ActiveAfterCompaction(t: Table, conv: string, msgs: seq<Message>, id: MessageId, text: string)
    requires ValidTable(t) && IsListing(msgs, Active(t, conv)) && |msgs| >= THRESHOLD && id !in t
    ensures var summary := Summary(conv, msgs, id, text);
            Active(Marked(t[id := summary], Ids(Middle(msgs))), conv) == Elements(Compacted(msgs, summary))
  {
    var summary := Summary(conv, msgs, id, text);
    var after := Marked(t[id := summary], Ids(Middle(msgs)));
    forall m | m in Active(after, conv)
      ensures m in Elements(Compacted(msgs, summary))
    {
      ActiveIsCompacted(t, conv, msgs, id, text, m);
    }
    forall m | m in Elements(Compacted(msgs, summary))
      ensures m in Active(after, conv)
    {
      var k :| 0 <= k < |Compacted(msgs, summary)| && Compacted(msgs, summary)[k] == m;
      CompactedIsActive(t, conv, msgs, id, text, k);
    }
  }

  /** The compacted list is in listing order exactly when the summary sorts before the tail. */
  lemma CompactedIsSortedExactly(conv: string, msgs: seq<Message>, id: MessageId, text: string)
    requires Sorted(msgs) && |msgs| >= THRESHOLD
    ensures var summary := Summary(conv, msgs, id, text);
            Sorted(Compacted(msgs, summary)) <==> Before(summary, Tail(msgs)[0])
  {
    var summary := Summary(conv, msgs, id, text);
    var result := Compacted(msgs, summary);
    var split := |msgs| - LIVE_TAIL;
    assert result[PINNED_HEAD] == summary && result[PINNED_HEAD + 1] == Tail(msgs)[0] == msgs[split];
    assert Middle(msgs)[|Middle(msgs)| - 1] == msgs[split - 1];
    if Before(summary, Tail(msgs)[0]) {
      forall i, j | 0 <= i < j < |result|
        ensures Before(result[i], result[j])
      {
        CompactedAt(msgs, summary, i);
        CompactedAt(msgs, summary, j);
        assert i < PINNED_HEAD ==> Before(msgs[i], msgs[split - 1]);
        assert j > PINNED_HEAD ==> Origin(msgs, j) == split || Before(msgs[split], msgs[Origin(msgs, j)]);
      }
    }
  }

  /** In memory against reload: `q`, what the ordered query returns after a successful
      compaction, always holds the same messages as the list handed to the model, and it is the
      same list exactly when the first tail message sorts after the summary. */
  lemma ReloadMatchesExactly(t: Table, conv: string, msgs: seq<Message>, id: MessageId, text: string, q: seq<Message>)
    requires ValidTable(t) && IsListing(msgs, Active(t, conv)) && |msgs| >= THRESHOLD && id !in t
    requires IsListing(q, Active(Marked(t[id := Summary(conv, msgs, id, text)], Ids(Middle(msgs))), conv))
    ensures var result := Compacted(msgs, Summary(conv, msgs, id, text));
            && |result| == PINNED_HEAD + 1 + LIVE_TAIL
            && multiset(q) == multiset(result)
            && (q == result <==> Before(result[PINNED_HEAD], Tail(msgs)[0]))
  {
    var summary := Summary(conv, msgs, id, text);
    var result := Compacted(msgs, summary);
    ActiveAfterCompaction(t, conv, msgs, id, text);
    CompactedIsSortedExactly(conv, msgs, id, text);
    if Sorted(result) {
      ListingIsUnique(q, result);
    }
    forall i, j | 0 <= i < j < |result|
      ensures result[i] != result[j]
    {
      CompactedAt(msgs, summary, i);
      CompactedAt(msgs, summary, j);
      MarkedExactly(t, conv, msgs, Origin(msgs, i));
      MarkedExactly(t, conv, msgs, Origin(msgs, j));
      if i != PINNED_HEAD && j != PINNED_HEAD {
        assert Before(msgs[Origin(msgs, i)], msgs[Origin(msgs, j)]);
      }
    }
    SortedHasNoDuplicates(q);
    DistinctAsMultiset(q);
    DistinctAsMultiset(result);
  }

  // ---- Tool pairs across the cuts ---------------------------------------------

  /** The two cuts fall between pairs, not inside one. */
  predicate CutsBetweenPairs(msgs: seq<Message>)
    requires |msgs| >= THRESHOLD
  {
    Uses(msgs[PINNED_HEAD - 1].content) == [] && Answers(msgs[|msgs| - LIVE_TAIL].content) == []
  }

  /** Tight form: compacting a well-paired history of at least 40 messages leaves it well-paired
      if and only if its fourth message calls no tool and its tenth message from the end
      answers none. */
  lemma CompactionKeepsPairsExactly(conv: string, msgs: seq<Message>, id: MessageId, text: string)
    requires |msgs| >= THRESHOLD && WellPaired(Turns(msgs))
    ensures WellPaired(Turns(Compacted(msgs, Summary(conv, msgs, id, text)))) <==> CutsBetweenPairs(msgs)
  {
    var summary := Summary(conv, msgs, id, text);
    var split := |msgs| - LIVE_TAIL;
    assert summary.content[1..] == [];
    assert Turns(Compacted(msgs, summary)) == Turns(msgs)[..PINNED_HEAD] + [TurnOf(summary)] + Turns(msgs)[split..];
    SplicingPairs(Turns(msgs), PINNED_HEAD, TurnOf(summary), split);
  }
}
