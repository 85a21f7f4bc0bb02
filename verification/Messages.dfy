/** The message table, its listing order, and the pairing of tool calls with their results. */
module Messages {
  import opened Wrappers

  /** A message id, standing for its rank in the collation order of the id column. */
  type MessageId = nat

  datatype Block =
    | Text(text: string)
    | ToolUse(id: string, name: string, input: string)
    | ToolResult(useId: string, content: string, isError: bool)

  datatype Role = User | Assistant

  /** `createdAt` is in milliseconds, the resolution of the column. */
  datatype Message = Message(
    id: MessageId, conv: string, role: Role, agent: Option<string>,
    compacted: bool, content: seq<Block>, createdAt: int)

  type Table = map<MessageId, Message>

  ghost predicate ValidTable(t: Table) {
    forall id :: id in t ==> t[id].id == id
  }

  // ---- Listings ---------------------------------------------------------------

  /** The order `created_at ASC, id ASC`. */
  predicate Before(a: Message, b: Message) {
    a.createdAt < b.createdAt || (a.createdAt == b.createdAt && a.id < b.id)
  }

  ghost predicate Sorted(q: seq<Message>) {
    forall i, j :: 0 <= i < j < |q| ==> Before(q[i], q[j])
  }

  /** The uncompacted rows of a conversation. */
  ghost function Active(t: Table, conv: string): set<Message> {
    set m | m in t.Values && m.conv == conv && !m.compacted
  }

  lemma ActiveAfterInsert(t: Table, conv: string, m: Message)
    requires ValidTable(t) && m.id !in t && m.conv == conv && !m.compacted
    ensures Active(t[m.id := m], conv) == Active(t, conv) + {m} && m !in Active(t, conv)
  {
    assert t[m.id := m][m.id] == m;
    forall x | x in Active(t, conv)
      ensures x in Active(t[m.id := m], conv)
    {
      assert t[m.id := m][x.id] == x;
    }
  }

  /** What an ordered query over the rows `s` returns. */
  ghost predicate IsListing(q: seq<Message>, s: set<Message>) {
    Sorted(q) && Elements(q) == s
  }

  lemma SortedHasNoDuplicates(q: seq<Message>)
    requires Sorted(q)
    ensures NoDuplicates(q)
  {
  }

  /** A listing is determined by its rows. */
  lemma {:induction false} ListingIsUnique(p: seq<Message>, q: seq<Message>)
    requires Sorted(p) && Sorted(q) && Elements(p) == Elements(q)
    ensures p == q
  {
    ElementsEmpty(p);
    ElementsEmpty(q);
    if p != [] {
      assert p[0] in Elements(q);
      assert q[0] in Elements(p);
      assert p[0] == q[0];
      forall m
        ensures m in Elements(p[1..]) <==> m in Elements(q[1..])
      {
        assert m in Elements(p[1..]) <==> m in Elements(p) && m != p[0];
        assert m in Elements(q[1..]) <==> m in Elements(q) && m != q[0];
      }
      ListingIsUnique(p[1..], q[1..]);
      assert p == [p[0]] + p[1..] && q == [q[0]] + q[1..];
    }
  }

  function InsertInOrder(q: seq<Message>, m: Message): seq<Message> {
    if q == [] || Before(m, q[0]) then [m] + q else [q[0]] + InsertInOrder(q[1..], m)
  }

  lemma {:induction false} InsertInOrderSorts(q: seq<Message>, m: Message)
    requires Sorted(q) && forall x :: x in q ==> x.id != m.id
    ensures Sorted(InsertInOrder(q, m)) && Elements(InsertInOrder(q, m)) == Elements(q) + {m}
  {
    if q == [] || Before(m, q[0]) {
      ElementsAppend([m], q);
    } else {
      InsertInOrderSorts(q[1..], m);
      var rest := InsertInOrder(q[1..], m);
      ElementsAppend([q[0]], rest);
      ElementsAppend([q[0]], q[1..]);
      assert q == [q[0]] + q[1..];
      forall x | x in rest
        ensures Before(q[0], x)
      {
        assert x in Elements(q[1..]) + {m};
      }
    }
  }

  lemma JoinSorted(a: seq<Message>, b: seq<Message>)
    requires Sorted(a) && Sorted(b) && (a != [] && b != [] ==> Before(a[|a| - 1], b[0]))
    ensures Sorted(a + b)
  {
    forall i, j | 0 <= i < |a| <= j < |a| + |b|
      ensures Before((a + b)[i], (a + b)[j])
    {
      assert i == |a| - 1 || Before(a[i], a[|a| - 1]);
      assert j == |a| || Before(b[0], b[j - |a|]);
    }
  }

  /** A row goes where the rows in front of it sort before it, and those behind it after. */
  lemma InsertBetween(msgs: seq<Message>, at: nat, x: Message)
    requires Sorted(msgs) && at <= |msgs|
    requires at > 0 ==> Before(msgs[at - 1], x)
    requires at < |msgs| ==> Before(x, msgs[at])
    ensures IsListing(msgs[..at] + [x] + msgs[at..], Elements(msgs) + {x})
  {
    var a, b := msgs[..at], msgs[at..];
    JoinSorted(a, [x]);
    JoinSorted(a + [x], b);
    assert msgs == a + b;
    ElementsAppend(a, b);
    ElementsAppend(a, [x]);
    ElementsAppend(a + [x], b);
    assert Elements([x]) == {x};
  }

  ghost predicate DistinctIds(s: set<Message>) {
    forall x, y :: x in s && y in s && x.id == y.id ==> x == y
  }

  ghost function SortRows(s: set<Message>): (q: seq<Message>)
    requires DistinctIds(s)
    ensures IsListing(q, s)
  {
    if s == {} then []
    else
      var m :| m in s;
      var rest := SortRows(s - {m});
      assert forall x :: x in rest ==> x in Elements(rest);
      InsertInOrderSorts(rest, m);
      InsertInOrder(rest, m)
  }

  /** `ORDER BY created_at ASC, id ASC` over the selected rows. */
  method Order(s: set<Message>) returns (q: seq<Message>)
    requires DistinctIds(s)
    ensures q == SortRows(s)
  {
    q := [];
    var left := s;
    while left != {}
      invariant left <= s && IsListing(q, s - left)
      decreases left
    {
      var m :| m in left;
      assert forall x :: x in q ==> x in Elements(q);
      InsertInOrderSorts(q, m);
      q := InsertInOrder(q, m);
      left := left - {m};
      assert s - left == (s - (left + {m})) + {m};
    }
    ListingIsUnique(q, SortRows(s));
  }

  /** What loading the uncompacted messages of a conversation returns. */
  ghost function History(t: Table, conv: string): (q: seq<Message>)
    requires ValidTable(t)
    ensures IsListing(q, Active(t, conv))
  {
    SortRows(Active(t, conv))
  }

  lemma {:induction false} DistinctAsMultiset<T>(s: seq<T>)
    requires NoDuplicates(s)
    ensures multiset(s) == multiset(Elements(s))
  {
    if s != [] {
      var front, x := s[..|s| - 1], s[|s| - 1];
      DistinctAsMultiset(front);
      assert s == front + [x];
      assert Elements(s) == Elements(front) + {x} && x !in Elements(front);
    }
  }

  // ---- Turns sent to the model ------------------------------------------------

  datatype Turn = Turn(role: Role, content: seq<Block>)

  /** The ids of the tool calls of a message, in order. */
  function Uses(content: seq<Block>): seq<string> {
    if content == [] then []
    else if content[0].ToolUse? then [content[0].id] + Uses(content[1..])
    else Uses(content[1..])
  }

  /** The ids of the calls that a message answers, in order. */
  function Answers(content: seq<Block>): seq<string> {
    if content == [] then []
    else if content[0].ToolResult? then [content[0].useId] + Answers(content[1..])
    else Answers(content[1..])
  }

  function TurnOf(m: Message): Turn {
    Turn(m.role, m.content)
  }

  function Turns(q: seq<Message>): seq<Turn> {
    seq(|q|, i requires 0 <= i < |q| => TurnOf(q[i]))
  }

  lemma TurnsOfOne(m: Message)
    ensures Turns([m]) == [Turn(m.role, m.content)]
    ensures Sent([Turn(m.role, m.content)]) == if m.content == [] then [] else [Turn(m.role, m.content)]
  {
    var t := Turn(m.role, m.content);
    assert [t][..0] == [];
  }

  lemma TurnsAppend(a: seq<Message>, b: seq<Message>)
    ensures Turns(a + b) == Turns(a) + Turns(b)
  {
  }

  /** Only assistants call, only users answer, and the turn answers exactly `calls`, in order. */
  predicate Fits(t: Turn, calls: seq<string>) {
    && (Uses(t.content) != [] ==> t.role == Assistant)
    && (Answers(t.content) != [] ==> t.role == User)
    && Answers(t.content) == calls
  }

  /** The calls left open at the end of turns that follow a turn making `calls`. */
  function CallsLeft(calls: seq<string>, ts: seq<Turn>): seq<string> {
    if ts == [] then calls else Uses(ts[|ts| - 1].content)
  }

  /** Behind a turn making `calls`, every turn answers exactly the calls of the turn before it,
      with the same ids in the same order; the last turn may leave calls open. */
  predicate PairedAfter(calls: seq<string>, ts: seq<Turn>) {
    ts == [] ||
    (PairedAfter(calls, ts[..|ts| - 1]) && Fits(ts[|ts| - 1], CallsLeft(calls, ts[..|ts| - 1])))
  }

  predicate WellPaired(ts: seq<Turn>) {
    PairedAfter([], ts) && CallsLeft([], ts) == []
  }

  predicate FitsAt(calls: seq<string>, ts: seq<Turn>, i: nat)
    requires i < |ts|
  {
    Fits(ts[i], if i == 0 then calls else Uses(ts[i - 1].content))
  }

  /** The same, position by position. */
  lemma {:induction false} PairedMeans(calls: seq<string>, ts: seq<Turn>)
    ensures PairedAfter(calls, ts) <==> forall i :: 0 <= i < |ts| ==> FitsAt(calls, ts, i)
  {
    if ts != [] {
      var front, n := ts[..|ts| - 1], |ts| - 1;
      PairedMeans(calls, front);
      forall i | 0 <= i < n
        ensures FitsAt(calls, front, i) <==> FitsAt(calls, ts, i)
      {
      }
      assert FitsAt(calls, ts, n) <==> Fits(ts[n], CallsLeft(calls, front));
    }
  }

  /** What it means for a whole list: every turn answers exactly the calls of the turn before it, with
      the same ids in the same order, the first answers nothing and the last calls nothing; only
      assistants call and only users answer. */
  lemma WellPairedMeans(ts: seq<Turn>)
    ensures WellPaired(ts) <==>
              (forall i :: 0 <= i < |ts| ==> FitsAt([], ts, i)) && (ts != [] ==> Uses(ts[|ts| - 1].content) == [])
    ensures forall i :: 0 <= i < |ts| ==>
              (FitsAt([], ts, i) <==>
                && Answers(ts[i].content) == (if i == 0 then [] else Uses(ts[i - 1].content))
                && (Uses(ts[i].content) != [] ==> ts[i].role == Assistant)
                && (Answers(ts[i].content) != [] ==> ts[i].role == User))
  {
    PairedMeans([], ts);
  }

  /** The ids of calls and answers, block by block. */
  lemma IdsOfOne(b: Block)
    ensures Uses([b]) == if b.ToolUse? then [b.id] else []
    ensures Answers([b]) == if b.ToolResult? then [b.useId] else []
  {
    assert [b][1..] == [];
    assert Uses([b][1..]) == [] && Answers([b][1..]) == [];
  }

  /** The turns that carry at least one block. */
  function Sent(ts: seq<Turn>): seq<Turn> {
    if ts == [] then []
    else
      var last := ts[|ts| - 1];
      if last.content == [] then Sent(ts[..|ts| - 1]) else Sent(ts[..|ts| - 1]) + [last]
  }

  /** One more turn that answers what is open. */
  lemma PairedAppend(calls: seq<string>, ts: seq<Turn>, t: Turn)
    ensures PairedAfter(calls, ts + [t]) <==> PairedAfter(calls, ts) && Fits(t, CallsLeft(calls, ts))
    ensures CallsLeft(calls, ts + [t]) == Uses(t.content)
  {
    assert (ts + [t])[..|ts|] == ts;
  }

  lemma {:induction false} PairedConcat(calls: seq<string>, a: seq<Turn>, b: seq<Turn>)
    ensures PairedAfter(calls, a + b) <==> PairedAfter(calls, a) && PairedAfter(CallsLeft(calls, a), b)
    ensures CallsLeft(calls, a + b) == CallsLeft(CallsLeft(calls, a), b)
  {
    if b == [] {
      assert a + b == a;
    } else {
      var front, last := b[..|b| - 1], b[|b| - 1];
      PairedConcat(calls, a, front);
      assert a + b == (a + front) + [last];
      PairedAppend(calls, a + front, last);
    }
  }

  /** Whether a paired list fits behind other turns depends on its first turn alone. */
  lemma {:induction false} PairedElsewhere(c: seq<string>, d: seq<string>, b: seq<Turn>)
    requires PairedAfter(c, b) && b != []
    ensures Answers(b[0].content) == c
    ensures PairedAfter(d, b) <==> Answers(b[0].content) == d
  {
    if |b| > 1 {
      PairedElsewhere(c, d, b[..|b| - 1]);
    }
  }

  /** A plain turn between two paired lists fits exactly when it separates no call from its
      answer. */
  lemma PlainBetween(a: seq<Turn>, plain: Turn, b: seq<Turn>, c: seq<string>)
    requires PairedAfter([], a) && PairedAfter(c, b) && b != [] && Uses(b[|b| - 1].content) == []
    requires Uses(plain.content) == [] && Answers(plain.content) == []
    ensures WellPaired(a + [plain] + b) <==> CallsLeft([], a) == [] && Answers(b[0].content) == []
  {
    PairedElsewhere(c, [], b);
    PairedAppend([], a, plain);
    PairedConcat([], a + [plain], b);
  }

  lemma JoinedPairs(ts: seq<Turn>, a: seq<Turn>, b: seq<Turn>)
    requires ts == a + b && PairedAfter([], ts) && a != []
    ensures PairedAfter([], a) && CallsLeft([], a) == Uses(a[|a| - 1].content)
    ensures PairedAfter(Uses(a[|a| - 1].content), b)
  {
    PairedConcat([], a, b);
  }

  /** Both parts of a paired list are paired, the second behind the calls of the first. */
  lemma CutInTwo(ts: seq<Turn>, k: nat)
    requires PairedAfter([], ts) && 0 < k < |ts|
    ensures PairedAfter([], ts[..k]) && CallsLeft([], ts[..k]) == Uses(ts[k - 1].content)
    ensures PairedAfter(Uses(ts[k - 1].content), ts[k..])
  {
    JoinedPairs(ts, ts[..k], ts[k..]);
  }

  /** Replacing the turns from `h` up to `split` by one plain turn keeps the pairing exactly
      when neither cut separates a call from its answer. */
  lemma SplicingPairs(ts: seq<Turn>, h: nat, plain: Turn, split: nat)
    requires WellPaired(ts) && 0 < h <= split < |ts|
    requires Uses(plain.content) == [] && Answers(plain.content) == []
    ensures WellPaired(ts[..h] + [plain] + ts[split..]) <==>
              Uses(ts[h - 1].content) == [] && Answers(ts[split].content) == []
  {
    CutInTwo(ts, h);
    CutInTwo(ts, split);
    PlainBetween(ts[..h], plain, ts[split..], Uses(ts[split - 1].content));
  }

  /** A turn of a paired list answers the turn before it. */
  lemma AnsweredByNext(ts: seq<Turn>, i: nat)
    requires PairedAfter([], ts) && 0 < i < |ts|
    ensures Answers(ts[i].content) == Uses(ts[i - 1].content)
  {
    CutInTwo(ts, i);
    PairedElsewhere(Uses(ts[i - 1].content), [], ts[i..]);
  }

  lemma {:induction false} SkippingEmptyTurns(ts: seq<Turn>)
    requires PairedAfter([], ts)
    ensures PairedAfter([], Sent(ts)) && CallsLeft([], Sent(ts)) == CallsLeft([], ts)
  {
    if ts != [] {
      var front, last := ts[..|ts| - 1], ts[|ts| - 1];
      SkippingEmptyTurns(front);
      PairedAppend([], Sent(front), last);
    }
  }

  /** Leaving out messages without blocks, as the history conversion does, keeps the pairing. */
  lemma SentStaysPaired(ts: seq<Turn>)
    requires WellPaired(ts)
    ensures WellPaired(Sent(ts))
  {
    SkippingEmptyTurns(ts);
  }

  // ---- Blocks of joined contents -----------------------------------------------

  lemma {:induction false} UsesAppend(a: seq<Block>, b: seq<Block>)
    ensures Uses(a + b) == Uses(a) + Uses(b)
  {
    if a == [] {
      assert a + b == b;
    } else {
      UsesAppend(a[1..], b);
      assert (a + b)[1..] == a[1..] + b;
    }
  }

  lemma {:induction false} AnswersAppend(a: seq<Block>, b: seq<Block>)
    ensures Answers(a + b) == Answers(a) + Answers(b)
  {
    if a == [] {
      assert a + b == b;
    } else {
      AnswersAppend(a[1..], b);
      assert (a + b)[1..] == a[1..] + b;
    }
  }
}
