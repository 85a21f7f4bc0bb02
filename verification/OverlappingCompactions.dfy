/** Compactions of one conversation that overlap: what is still conserved, and the run that breaks
    the amortised bound. */
module OverlappingCompactions {
  import opened Wrappers
  import Machines
  import opened Messages
  import opened Compaction
  import opened CompactionRuns

  ghost function CompactedIds(t: Table): set<MessageId> {
    set id | id in t && t[id].compacted
  }

  /** The compactions between their two writes. */
  ghost function HalfDone(jobs: map<JobId, Job>): set<JobId> {
    set j | j in jobs && jobs[j].summary.Some?
  }

  /** Every row is either part of the history or compacted. */
  lemma {:induction false} ActivePlusCompacted(t: Table, conv: string)
    requires ValidTable(t) && forall id :: id in t ==> t[id].conv == conv
    ensures |Active(t, conv)| + |CompactedIds(t)| == |t|
  {
    if t != map[] {
      var id :| id in t;
      var rest := t - {id};
      ActivePlusCompacted(rest, conv);
      assert t == rest[id := t[id]];
      if t[id].compacted {
        assert Active(t, conv) == Active(rest, conv);
        assert CompactedIds(t) == CompactedIds(rest) + {id};
      } else {
        ActiveAfterInsert(rest, conv, t[id]);
        assert CompactedIds(t) == CompactedIds(rest);
      }
    } else {
      assert Active(t, conv) == {};
    }
  }

  lemma JobSet(jobs: map<JobId, Job>, j: JobId, job: Job)
    requires j in jobs ==> jobs[j].summary.None?
    ensures |HalfDone(jobs[j := job])| == |HalfDone(jobs)| + (if job.summary.Some? then 1 else 0)
  {
    assert HalfDone(jobs[j := job]) == HalfDone(jobs) + (if job.summary.Some? then {j} else {});
  }

  lemma JobEnded(jobs: map<JobId, Job>, j: JobId)
    requires j in jobs
    ensures |HalfDone(jobs - {j})| == |HalfDone(jobs)| - (if jobs[j].summary.Some? then 1 else 0)
  {
    assert HalfDone(jobs - {j}) == HalfDone(jobs) - {j};
  }

  lemma StepKeepsRowCount(conv: string, s: State, a: Action)
    requires Next(conv, s, a).Some?
    requires |s.table| == s.persisted + s.compactions + s.stranded + |HalfDone(s.jobs)|
    ensures var t := Next(conv, s, a).value; |t.table| == t.persisted + t.compactions + t.stranded + |HalfDone(t.jobs)|
  {
    match a
    case Persist(_) =>
    case Load(j, msgs) => JobSet(s.jobs, j, Job(msgs, None));
    case Abandon(j) => JobEnded(s.jobs, j);
    case InsertSummary(j, id, _) => JobSet(s.jobs, j, Job(s.jobs[j].msgs, Some(id)));
    case Mark(j) =>
      JobEnded(s.jobs, j);
      MarkedKeepsCount(s.table, Ids(Middle(s.jobs[j].msgs)));
    case MarkFails(j, _) =>
      JobEnded(s.jobs, j);
      MarkedKeepsCount(s.table, Ids(Middle(s.jobs[j].msgs)));
  }

  lemma MarkedKeepsCount(t: Table, ids: set<MessageId>)
    ensures |Marked(t, ids)| == |t|
  {
    assert Marked(t, ids).Keys == t.Keys;
    assert |Marked(t, ids).Keys| == |Marked(t, ids)|;
  }

  lemma {:induction false} RowCount(conv: string, acts: seq<Action>)
    requires RunFrom(conv, START, acts).Some?
    ensures var s := RunFrom(conv, START, acts).value;
            |s.table| == s.persisted + s.compactions + s.stranded + |HalfDone(s.jobs)|
  {
    if acts != [] {
      RowCount(conv, acts[..|acts| - 1]);
      StepKeepsRowCount(conv, RunFrom(conv, START, acts[..|acts| - 1]).value, acts[|acts| - 1]);
    }
  }

  /** Conservation, however compactions overlap and fail: the rows in the history and the compacted
      rows are together the messages persisted and one summary for each compaction that got past
      its insert. So the bound of `HistoryStaysSmall` holds in a state if and only if at least 26
      rows are compacted for each compaction completed. */
  lemma RowsAreConserved(conv: string, acts: seq<Action>)
    requires RunFrom(conv, START, acts).Some?
    ensures var s := RunFrom(conv, START, acts).value;
            && |Active(s.table, conv)| + |CompactedIds(s.table)| ==
               s.persisted + s.compactions + s.stranded + |HalfDone(s.jobs)|
            && (25 * s.compactions + |Active(s.table, conv)| <= s.persisted + s.stranded + |HalfDone(s.jobs)| <==>
                  26 * s.compactions <= |CompactedIds(s.table)|)
  {
    RunKeepsInv(conv, START, acts);
    RowCount(conv, acts);
    ActivePlusCompacted(RunFrom(conv, START, acts).value.table, conv);
  }

  /** How far the bound of `HistoryStaysSmall` is from breaking. */
  ghost function Slack(conv: string, s: State): int {
    s.persisted + s.stranded + |HalfDone(s.jobs)| - 25 * s.compactions - |Active(s.table, conv)|
  }

  /** The rows an update of `ids` would newly compact. */
  ghost function Newly(t: Table, ids: set<MessageId>): set<MessageId> {
    set id | id in t && !t[id].compacted && id in ids
  }

  ghost function NewlyCompacted(s: State, j: JobId): set<MessageId>
    requires j in s.jobs && |s.jobs[j].msgs| >= THRESHOLD
  {
    Newly(s.table, Ids(Middle(s.jobs[j].msgs)))
  }

  lemma MarkedActive(conv: string, t: Table, ids: set<MessageId>)
    requires ValidTable(t) && forall id :: id in t ==> t[id].conv == conv
    ensures |Active(Marked(t, ids), conv)| == |Active(t, conv)| - |Newly(t, ids)|
  {
    ActivePlusCompacted(t, conv);
    ActivePlusCompacted(Marked(t, ids), conv);
    MarkedKeepsCount(t, ids);
    assert CompactedIds(Marked(t, ids)) == CompactedIds(t) + Newly(t, ids);
  }

  /** The step law: a completed compaction changes the slack by the rows it newly compacts less 26,
      an update whose error hid its effect only adds to it, and no other step changes it. */
  lemma SlackStep(conv: string, s: State, a: Action)
    requires Inv(conv, s) && Next(conv, s, a).Some?
    ensures var t := Next(conv, s, a).value;
            Slack(conv, t) - Slack(conv, s) ==
            match a
            case Mark(j) => |NewlyCompacted(s, j)| - 26
            case MarkFails(j, applied) => if applied then |NewlyCompacted(s, j)| else 0
            case _ => 0
  {
    if a.Mark? || a.MarkFails? {
      SlackAfterUpdate(conv, s, a);
    } else {
      SlackAfterInsert(conv, s, a);
    }
  }

  lemma SlackAfterInsert(conv: string, s: State, a: Action)
    requires TableInv(conv, s) && Next(conv, s, a).Some? && !a.Mark? && !a.MarkFails?
    ensures Slack(conv, Next(conv, s, a).value) == Slack(conv, s)
  {
    match a
    case Persist(m) => ActiveAfterInsert(s.table, conv, m);
    case Load(j, msgs) => JobSet(s.jobs, j, Job(msgs, None));
    case Abandon(j) => JobEnded(s.jobs, j);
    case InsertSummary(j, id, text) =>
      JobSet(s.jobs, j, Job(s.jobs[j].msgs, Some(id)));
      ActiveAfterInsert(s.table, conv, Summary(conv, s.jobs[j].msgs, id, text));
    case _ =>
  }

  lemma SlackAfterUpdate(conv: string, s: State, a: Action)
    requires TableInv(conv, s) && Next(conv, s, a).Some? && (a.Mark? || a.MarkFails?)
    ensures a.j in s.jobs && |s.jobs[a.j].msgs| >= THRESHOLD
    ensures Slack(conv, Next(conv, s, a).value) - Slack(conv, s) ==
            if a.Mark? then |NewlyCompacted(s, a.j)| - 26 else if a.applied then |NewlyCompacted(s, a.j)| else 0
  {
    JobEnded(s.jobs, a.j);
    MarkedActive(conv, s.table, Ids(Middle(s.jobs[a.j].msgs)));
  }

  /** So the bound first breaks at an update that finds fewer than 26 of its rows uncompacted. */
  lemma {:induction false} BoundBreaksAtMark(conv: string, acts: seq<Action>, a: Action)
    requires RunFrom(conv, START, acts).Some? && Next(conv, RunFrom(conv, START, acts).value, a).Some?
    requires Slack(conv, RunFrom(conv, START, acts).value) >= 0
    ensures var s := RunFrom(conv, START, acts).value;
            Slack(conv, Next(conv, s, a).value) < 0 <==>
              && a.Mark? && a.j in s.jobs && |s.jobs[a.j].msgs| >= THRESHOLD
              && Slack(conv, s) + |NewlyCompacted(s, a.j)| < 26
  {
    RunKeepsInv(conv, START, acts);
    SlackStep(conv, RunFrom(conv, START, acts).value, a);
  }

  // Two loads of the same 40 messages, both compacted.

  function Nth(conv: string, i: nat): Message {
    Message(i, conv, User, None, false, [Text("hello")], 10 * i)
  }

  function FirstRows(conv: string, n: nat): Table {
    map i: nat | i < n :: Nth(conv, i)
  }

  function Rows(conv: string, n: nat): seq<Message> {
    seq(n, i requires 0 <= i < n => Nth(conv, i))
  }

  function Persisting(conv: string, n: nat): seq<Action> {
    seq(n, i requires 0 <= i < n => Persist(Nth(conv, i)))
  }

  lemma {:induction false} RowsArePersisted(conv: string, n: nat)
    ensures var s := RunFrom(conv, START, Persisting(conv, n));
            s.Some? && s.value.table == FirstRows(conv, n) && s.value.jobs == map[] && s.value.compactions == 0
  {
    if n > 0 {
      RowsArePersisted(conv, n - 1);
      assert Persisting(conv, n)[..n - 1] == Persisting(conv, n - 1);
      var before := RunFrom(conv, START, Persisting(conv, n - 1)).value;
      assert before.table[n - 1 := Nth(conv, n - 1)] == FirstRows(conv, n);
    }
  }

  lemma RowsAreListed(conv: string, n: nat)
    ensures IsListing(Rows(conv, n), Active(FirstRows(conv, n), conv))
  {
    var t, q := FirstRows(conv, n), Rows(conv, n);
    forall m | m in Active(t, conv)
      ensures m in Elements(q)
    {
      assert m == Nth(conv, m.id) == q[m.id];
    }
    forall m | m in Elements(q)
      ensures m in Active(t, conv)
    {
      assert t[m.id] == m;
    }
  }

  function Loading(msgs: seq<Message>, id: MessageId): seq<Action> {
    [Load(0, msgs), Load(1, msgs), InsertSummary(0, id, "")]
  }

  function Finishing(id: MessageId): seq<Action> {
    [InsertSummary(1, id + 1, ""), Mark(0), Mark(1)]
  }

  ghost function Loaded(conv: string, s: State, msgs: seq<Message>, id: MessageId): State
    requires |msgs| >= THRESHOLD
  {
    Inserted(s, Summary(conv, msgs, id, "")).(
      covers := s.covers[id := Ids(Middle(msgs))], jobs := map[0 := Job(msgs, Some(id)), 1 := Job(msgs, None)])
  }

  lemma LoadingRuns(conv: string, s: State, msgs: seq<Message>, id: MessageId)
    requires s.jobs == map[] && IsListing(msgs, Active(s.table, conv)) && |msgs| >= THRESHOLD && id !in s.table
    ensures RunFrom(conv, s, Loading(msgs, id)) == Some(Loaded(conv, s, msgs, id))
  {
    var a := Loading(msgs, id);
    var s1 := s.(jobs := map[0 := Job(msgs, None)]);
    assert Next(conv, s, a[0]).value.jobs == s1.jobs;
    var s2 := s.(jobs := map[0 := Job(msgs, None), 1 := Job(msgs, None)]);
    assert Next(conv, s1, a[1]).value.jobs == s2.jobs;
    assert Next(conv, s2, a[2]).value.jobs == Loaded(conv, s, msgs, id).jobs;
    Machines.ThreeSteps((before, act) => Next(conv, before, act), s, a[0], a[1], a[2]);
  }

  lemma MarkRuns(conv: string, s: State, j: JobId)
    requires j in s.jobs && s.jobs[j].summary.Some? && |s.jobs[j].msgs| >= THRESHOLD
    ensures var t := Next(conv, s, Mark(j));
            && t.Some? && t.value.compactions == s.compactions + 1 && t.value.jobs == s.jobs - {j}
            && CompactedIds(t.value.table) <= CompactedIds(s.table) + Ids(Middle(s.jobs[j].msgs))
  {
  }

  lemma SummaryRuns(conv: string, s: State, j: JobId, id: MessageId)
    requires j in s.jobs && s.jobs[j].summary.None? && |s.jobs[j].msgs| >= THRESHOLD && id !in s.table
    ensures var t := Next(conv, s, InsertSummary(j, id, ""));
            && t.Some? && t.value.compactions == s.compactions && t.value.jobs == s.jobs[j := Job(s.jobs[j].msgs, Some(id))]
            && CompactedIds(t.value.table) <= CompactedIds(s.table)
  {
  }

  lemma FinishingRuns(conv: string, s: State, msgs: seq<Message>, id: MessageId)
    requires |msgs| >= THRESHOLD && s.jobs == map[0 := Job(msgs, Some(id)), 1 := Job(msgs, None)] && id + 1 !in s.table
    ensures var t := RunFrom(conv, s, Finishing(id));
            && t.Some? && t.value.compactions == s.compactions + 2 && t.value.jobs == map[]
            && CompactedIds(t.value.table) <= CompactedIds(s.table) + Ids(Middle(msgs))
  {
    SummaryRuns(conv, s, 1, id + 1);
    var s1 := Next(conv, s, InsertSummary(1, id + 1, "")).value;
    MarkRuns(conv, s1, 0);
    var s2 := Next(conv, s1, Mark(0)).value;
    MarkRuns(conv, s2, 1);
    Machines.ThreeSteps((before, act) => Next(conv, before, act), s, InsertSummary(1, id + 1, ""), Mark(0), Mark(1));
  }

  /** Any two loads of the same listing may both complete their compaction, and together they
      retire no more rows than one. */
  lemma OverlapRuns(conv: string, s: State, msgs: seq<Message>, id: MessageId)
    requires s.jobs == map[] && IsListing(msgs, Active(s.table, conv)) && |msgs| >= THRESHOLD
    requires id !in s.table && id + 1 !in s.table
    ensures var t := RunFrom(conv, s, Loading(msgs, id) + Finishing(id));
            && t.Some? && t.value.compactions == s.compactions + 2 && t.value.jobs == map[]
            && CompactedIds(t.value.table) <= CompactedIds(s.table) + Ids(Middle(msgs))
  {
    LoadingRuns(conv, s, msgs, id);
    var loaded := Loaded(conv, s, msgs, id);
    assert CompactedIds(loaded.table) <= CompactedIds(s.table);
    FinishingRuns(conv, loaded, msgs, id);
    Machines.RunAppend((before, act) => Next(conv, before, act), s, Loading(msgs, id), Finishing(id));
  }

  /** So the amortised bound fails for overlapping compactions. */
  lemma OverlapBreaksTheBound(conv: string)
    ensures exists acts :: RunFrom(conv, START, acts).Some?
                           && var s := RunFrom(conv, START, acts).value;
                              s.jobs == map[] && 25 * s.compactions + |Active(s.table, conv)| > s.persisted + s.stranded
  {
    var n := THRESHOLD;
    var start := Persisting(conv, n);
    RowsArePersisted(conv, n);
    RowsAreListed(conv, n);
    var msgs := Rows(conv, n);
    var s := RunFrom(conv, START, start).value;
    OverlapRuns(conv, s, msgs, n);
    var acts := start + (Loading(msgs, n) + Finishing(n));
    Machines.RunAppend((before, act) => Next(conv, before, act), START, start, (Loading(msgs, n) + Finishing(n)));
    var t := RunFrom(conv, START, acts).value;
    RowsAreConserved(conv, acts);
    assert CompactedIds(s.table) == {};
    FewAreCompacted(t.table, msgs);
    assert HalfDone(t.jobs) == {};
  }

  lemma FewAreCompacted(t: Table, msgs: seq<Message>)
    requires |msgs| == THRESHOLD && CompactedIds(t) <= Ids(Middle(msgs))
    ensures |CompactedIds(t)| <= 26
  {
    IdsAreFew(Middle(msgs));
    SubsetSize(CompactedIds(t), Ids(Middle(msgs)));
  }

  lemma {:induction false} IdsAreFew(msgs: seq<Message>)
    ensures |Ids(msgs)| <= |msgs|
  {
    if msgs != [] {
      var front, last := msgs[..|msgs| - 1], msgs[|msgs| - 1];
      IdsAreFew(front);
      assert Ids(msgs) <= Ids(front) + {last.id};
      SubsetSize(Ids(msgs), Ids(front) + {last.id});
    }
  }
}
