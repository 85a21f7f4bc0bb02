/** Any number of history loads of one conversation, each of which may compact, interleaved with
    persisted messages and with failures after the summarising call, at the insert and at the
    update. */
module CompactionRuns {
  import opened Wrappers
  import Machines
  import opened Messages
  import opened Compaction

  type JobId = nat

  /** A load that found enough messages; `summary` is set once its summary row is inserted. */
  datatype Job = Job(msgs: seq<Message>, summary: Option<MessageId>)

  /** `stamp` orders the inserts; `covers` remembers what each summary summarises; the last three
      fields count messages persisted, compactions completed and summaries left stranded. */
  datatype State = State(
    table: Table, stamp: map<MessageId, nat>, covers: map<MessageId, set<MessageId>>, jobs: map<JobId, Job>,
    persisted: nat, compactions: nat, stranded: nat)

  const START := State(map[], map[], map[], map[], 0, 0, 0)

  datatype Action =
    | Persist(m: Message)
    | Load(j: JobId, msgs: seq<Message>)
    | Abandon(j: JobId)                       // the summarising call or the insert failed
    | InsertSummary(j: JobId, id: MessageId, text: string)
    | Mark(j: JobId)
    | MarkFails(j: JobId, applied: bool)      // the update reported an error, applied or not

  function Inserted(s: State, m: Message): State {
    s.(table := s.table[m.id := m], stamp := s.stamp[m.id := |s.stamp|])
  }

  ghost function Next(conv: string, s: State, a: Action): Option<State> {
    match a
    case Persist(m) =>
      if m.id in s.table || m.conv != conv || m.compacted then None
      else Some(Inserted(s, m).(persisted := s.persisted + 1))
    case Load(j, msgs) =>
      if j in s.jobs || !IsListing(msgs, Active(s.table, conv)) || |msgs| < THRESHOLD then None
      else Some(s.(jobs := s.jobs[j := Job(msgs, None)]))
    case Abandon(j) =>
      if j !in s.jobs || s.jobs[j].summary.Some? then None else Some(s.(jobs := s.jobs - {j}))
    case InsertSummary(j, id, text) =>
      if j !in s.jobs || s.jobs[j].summary.Some? || id in s.table || |s.jobs[j].msgs| < THRESHOLD then None
      else
        var msgs := s.jobs[j].msgs;
        Some(Inserted(s, Summary(conv, msgs, id, text)).(
          covers := s.covers[id := Ids(Middle(msgs))], jobs := s.jobs[j := Job(msgs, Some(id))]))
    case Mark(j) =>
      if j !in s.jobs || s.jobs[j].summary.None? || |s.jobs[j].msgs| < THRESHOLD then None
      else Some(s.(table := Marked(s.table, Ids(Middle(s.jobs[j].msgs))), jobs := s.jobs - {j},
                   compactions := s.compactions + 1))
    case MarkFails(j, applied) =>
      if j !in s.jobs || s.jobs[j].summary.None? || |s.jobs[j].msgs| < THRESHOLD then None
      else Some(s.(table := if applied then Marked(s.table, Ids(Middle(s.jobs[j].msgs))) else s.table,
                   jobs := s.jobs - {j}, stranded := s.stranded + 1))
  }

  ghost function RunFrom(conv: string, s: State, acts: seq<Action>): Option<State> {
    Machines.Run((before, act) => Next(conv, before, act), s, acts)
  }

  /** A message can be persisted under any new id, and any current listing of 40 or more can be
      loaded for compaction; such a job may give up before its insert, insert its summary under any
      new id, and then find its update done, refused, or done although it reported an error. */
  lemma WaysOfAJob(conv: string, s: State, m: Message, j: JobId, msgs: seq<Message>, id: MessageId, text: string)
    ensures m.id !in s.table && m.conv == conv && !m.compacted ==>
              (Next(conv, s, Persist(m)).Some? && Next(conv, s, Persist(m)).value.table == s.table[m.id := m])
    ensures j !in s.jobs && IsListing(msgs, Active(s.table, conv)) && |msgs| >= 40 ==>
              Next(conv, s, Load(j, msgs)) == Some(s.(jobs := s.jobs[j := Job(msgs, None)]))
    ensures j in s.jobs && s.jobs[j].summary.None? ==> Next(conv, s, Abandon(j)) == Some(s.(jobs := s.jobs - {j}))
    ensures j in s.jobs && |s.jobs[j].msgs| >= 40 && s.jobs[j].summary.None? && id !in s.table ==>
              Next(conv, s, InsertSummary(j, id, text)).Some?
    ensures j in s.jobs && |s.jobs[j].msgs| >= 40 && s.jobs[j].summary.Some? ==>
              var done, hidden := Next(conv, s, Mark(j)), Next(conv, s, MarkFails(j, true));
              && done.Some? && hidden.Some? && hidden.value.table == done.value.table
              && Next(conv, s, MarkFails(j, false)) == Some(s.(jobs := s.jobs - {j}, stranded := s.stranded + 1))
  {
  }

  // ---- Coverage ---------------------------------------------------------------

  ghost predicate TableInv(conv: string, s: State) {
    && ValidTable(s.table) && s.stamp.Keys == s.table.Keys
    && (forall id :: id in s.table ==> s.table[id].conv == conv)
    && (forall id :: id in s.stamp ==> s.stamp[id] < |s.stamp|)
  }

  /** Each summary is younger than everything it covers. */
  ghost predicate CoversInv(s: State) {
    && s.covers.Keys <= s.table.Keys && s.stamp.Keys == s.table.Keys
    && (forall id, m :: id in s.covers && m in s.covers[id] ==> m in s.table && s.stamp[m] < s.stamp[id])
  }

  ghost predicate IsCovered(s: State, m: MessageId) {
    exists id :: id in s.covers && m in s.covers[id]
  }

  ghost predicate CompactedInv(s: State) {
    forall m :: m in s.table && s.table[m].compacted ==> IsCovered(s, m)
  }

  ghost predicate JobsInv(s: State) {
    forall j :: j in s.jobs ==> JobInv(s, s.jobs[j])
  }

  ghost predicate JobInv(s: State, job: Job) {
    && |job.msgs| >= THRESHOLD
    && (forall i :: 0 <= i < |job.msgs| ==> job.msgs[i].id in s.table)
    && (forall i, k :: 0 <= i < k < |job.msgs| ==> job.msgs[i].id != job.msgs[k].id)
    && (job.summary.Some? ==> job.summary.value in s.covers && s.covers[job.summary.value] == Ids(Middle(job.msgs)))
  }

  ghost predicate Inv(conv: string, s: State) {
    TableInv(conv, s) && CoversInv(s) && CompactedInv(s) && JobsInv(s)
  }

  lemma MiddleIdsAreStored(s: State, job: Job)
    requires JobInv(s, job)
    ensures Ids(Middle(job.msgs)) <= s.table.Keys
  {
    forall m | m in Middle(job.msgs)
      ensures m.id in s.table
    {
      var i :| 0 <= i < |Middle(job.msgs)| && Middle(job.msgs)[i] == m;
      assert m == job.msgs[i + PINNED_HEAD];
    }
  }

  lemma StampGrows(stamp: map<MessageId, nat>, id: MessageId)
    requires id !in stamp && forall k :: k in stamp ==> stamp[k] < |stamp|
    ensures var after := stamp[id := |stamp|];
            after.Keys == stamp.Keys + {id} && forall k :: k in after ==> after[k] < |after|
  {
    var after := stamp[id := |stamp|];
    assert after.Keys == stamp.Keys + {id};
    assert |after| == |after.Keys| == |stamp.Keys| + 1;
  }

  lemma InsertKeepsTable(conv: string, s: State, m: Message)
    requires TableInv(conv, s) && m.id !in s.table && m.conv == conv
    ensures TableInv(conv, Inserted(s, m))
  {
    StampGrows(s.stamp, m.id);
  }

  lemma MarkKeepsTable(conv: string, s: State, ids: set<MessageId>)
    requires TableInv(conv, s)
    ensures TableInv(conv, s.(table := Marked(s.table, ids)))
  {
    assert Marked(s.table, ids).Keys == s.table.Keys;
  }

  lemma StepKeepsTable(conv: string, s: State, a: Action)
    requires TableInv(conv, s) && Next(conv, s, a).Some?
    ensures TableInv(conv, Next(conv, s, a).value)
  {
    match a
    case Persist(m) => InsertKeepsTable(conv, s, m);
    case InsertSummary(j, id, text) => InsertKeepsTable(conv, s, Summary(conv, s.jobs[j].msgs, id, text));
    case Mark(j) => MarkKeepsTable(conv, s, Ids(Middle(s.jobs[j].msgs)));
    case MarkFails(j, _) => MarkKeepsTable(conv, s, Ids(Middle(s.jobs[j].msgs)));
    case _ =>
  }

  lemma InsertKeepsCovers(s: State, m: Message)
    requires CoversInv(s) && m.id !in s.table
    ensures CoversInv(Inserted(s, m)) && m.id !in s.covers
  {
    var t := Inserted(s, m);
    InsertedKeys(s, m);
    forall id, k | id in t.covers && k in t.covers[id]
      ensures k in t.table && t.stamp[k] < t.stamp[id]
    {
      assert k in s.table && s.stamp[k] < s.stamp[id];
    }
  }

  lemma InsertedKeys(s: State, m: Message)
    requires s.covers.Keys <= s.table.Keys && s.stamp.Keys == s.table.Keys && m.id !in s.table
    ensures var t := Inserted(s, m);
            && t.stamp.Keys == t.table.Keys == s.table.Keys + {m.id} && t.covers.Keys <= t.table.Keys
            && (forall k :: k in s.stamp ==> t.stamp[k] == s.stamp[k])
  {
    KeyAdded(s.stamp, m.id, |s.stamp|);
    KeyAdded(s.table, m.id, m);
  }

  lemma KeyAdded<K, V>(m: map<K, V>, k: K, v: V)
    ensures m[k := v].Keys == m.Keys + {k}
  {
  }

  lemma CoverKeepsCovers(s: State, id: MessageId, covered: set<MessageId>)
    requires CoversInv(s) && id in s.table && covered <= s.table.Keys
    requires forall k :: k in covered ==> s.stamp[k] < s.stamp[id]
    ensures CoversInv(s.(covers := s.covers[id := covered]))
  {
  }

  lemma StepKeepsCovers(conv: string, s: State, a: Action)
    requires TableInv(conv, s) && CoversInv(s) && JobsInv(s) && Next(conv, s, a).Some?
    ensures CoversInv(Next(conv, s, a).value)
  {
    var t := Next(conv, s, a).value;
    match a
    case Persist(m) =>
      InsertKeepsCovers(s, m);
      CoversIgnoreTheRest(Inserted(s, m), t);
    case InsertSummary(j, id, text) =>
      var summary := Summary(conv, s.jobs[j].msgs, id, text);
      var covered := Ids(Middle(s.jobs[j].msgs));
      MiddleIdsAreStored(s, s.jobs[j]);
      InsertKeepsCovers(s, summary);
      CoverKeepsCovers(Inserted(s, summary), id, covered);
      CoversIgnoreTheRest(Inserted(s, summary).(covers := s.covers[id := covered]), t);
    case _ =>
      CoversIgnoreTheRest(s, t);
  }

  lemma CoversIgnoreTheRest(s: State, t: State)
    requires CoversInv(s) && t.table.Keys == s.table.Keys && t.stamp == s.stamp && t.covers == s.covers
    ensures CoversInv(t)
  {
  }

  lemma StepKeepsCompacted(conv: string, s: State, a: Action)
    requires CoversInv(s) && CompactedInv(s) && JobsInv(s) && Next(conv, s, a).Some?
    ensures CompactedInv(Next(conv, s, a).value)
  {
    var t := Next(conv, s, a).value;
    forall m | m in t.table && t.table[m].compacted
      ensures IsCovered(t, m)
    {
      if m in s.table && s.table[m].compacted {
        var id :| id in s.covers && m in s.covers[id];
        assert id in t.covers && m in t.covers[id];
      } else {
        assert a.Mark? || a.MarkFails?;
        var job := s.jobs[a.j];
        assert JobInv(s, job);
        assert m in t.covers[job.summary.value];
      }
    }
  }

  /** A job of the present state is still one when rows are added and nothing is uncovered. */
  lemma JobSurvives(s: State, t: State, job: Job)
    requires JobInv(s, job) && s.table.Keys <= t.table.Keys
    requires forall id :: id in s.covers ==> id in t.covers && t.covers[id] == s.covers[id]
    ensures JobInv(t, job)
  {
  }

  lemma LoadedJob(conv: string, s: State, msgs: seq<Message>)
    requires TableInv(conv, s) && IsListing(msgs, Active(s.table, conv)) && |msgs| >= THRESHOLD
    ensures JobInv(s, Job(msgs, None))
  {
    forall i | 0 <= i < |msgs|
      ensures msgs[i].id in s.table
    {
      assert msgs[i] in Active(s.table, conv);
    }
    forall i, k | 0 <= i < k < |msgs|
      ensures msgs[i].id != msgs[k].id
    {
      if msgs[i].id == msgs[k].id {
        SameIdSameMessage(s.table, conv, msgs, i, k);
      }
    }
  }

  /** Steps only add rows and coverage. */
  lemma StepGrows(conv: string, s: State, a: Action)
    requires CoversInv(s) && Next(conv, s, a).Some?
    ensures var t := Next(conv, s, a).value;
            && s.table.Keys <= t.table.Keys
            && (forall id :: id in s.covers ==> id in t.covers && t.covers[id] == s.covers[id])
            && (forall j :: j in t.jobs && j in s.jobs ==> t.jobs[j] == s.jobs[j] || (a.InsertSummary? && j == a.j))
            && (forall j :: j in t.jobs && j !in s.jobs ==> a.Load? && j == a.j && t.jobs[j] == Job(a.msgs, None))
            && (a.InsertSummary? ==>
                  && a.j in s.jobs && a.j in t.jobs && t.jobs[a.j] == Job(s.jobs[a.j].msgs, Some(a.id))
                  && |s.jobs[a.j].msgs| >= THRESHOLD
                  && a.id in t.covers && t.covers[a.id] == Ids(Middle(s.jobs[a.j].msgs)))
  {
  }

  lemma StepKeepsJobs(conv: string, s: State, a: Action)
    requires TableInv(conv, s) && CoversInv(s) && JobsInv(s) && Next(conv, s, a).Some?
    ensures JobsInv(Next(conv, s, a).value)
  {
    var t := Next(conv, s, a).value;
    StepGrows(conv, s, a);
    if a.Load? {
      LoadedJob(conv, s, a.msgs);
      JobSurvives(s, t, Job(a.msgs, None));
    }
    forall j | j in t.jobs
      ensures JobInv(t, t.jobs[j])
    {
      if j in s.jobs {
        JobSurvives(s, t, s.jobs[j]);
      }
    }
  }

  lemma {:induction false} RunKeepsInv(conv: string, s: State, acts: seq<Action>)
    requires Inv(conv, s) && RunFrom(conv, s, acts).Some?
    ensures Inv(conv, RunFrom(conv, s, acts).value)
  {
    if acts != [] {
      RunKeepsInv(conv, s, acts[..|acts| - 1]);
      var t, a := RunFrom(conv, s, acts[..|acts| - 1]).value, acts[|acts| - 1];
      StepKeepsTable(conv, t, a);
      StepKeepsCovers(conv, t, a);
      StepKeepsCompacted(conv, t, a);
      StepKeepsJobs(conv, t, a);
    }
  }

  /** Each row of the path is covered by the next, which is younger. */
  ghost predicate IsCoverPath(s: State, path: seq<MessageId>) {
    && path != []
    && (forall i :: 0 <= i < |path| ==> path[i] in s.table && path[i] in s.stamp)
    && (forall i :: 0 < i < |path| ==> path[i] in s.covers && path[i - 1] in s.covers[path[i]])
    && (forall i, k :: 0 <= i < k < |path| ==> s.stamp[path[i]] < s.stamp[path[k]])
  }

  lemma {:induction false} CoverPath(conv: string, s: State, m: MessageId) returns (path: seq<MessageId>)
    requires Inv(conv, s) && m in s.table
    ensures IsCoverPath(s, path) && path[0] == m && !s.table[path[|path| - 1]].compacted
    decreases |s.stamp| - s.stamp[m]
  {
    if !s.table[m].compacted {
      path := [m];
    } else {
      assert IsCovered(s, m);
      var id :| id in s.covers && m in s.covers[id];
      var rest := CoverPath(conv, s, id);
      path := [m] + rest;
    }
  }

  /** Nothing is lost to compaction: whatever loads overlap and wherever they fail, every row of
      the conversation leads, through ever younger summaries each of which covers the one before,
      to a row that is still part of the history. The links never form a cycle. */
  lemma {:induction false} NothingIsLost(conv: string, acts: seq<Action>, m: MessageId)
    requires RunFrom(conv, START, acts).Some? && m in RunFrom(conv, START, acts).value.table
    ensures var s := RunFrom(conv, START, acts).value;
            exists path :: IsCoverPath(s, path) && path[0] == m && !s.table[path[|path| - 1]].compacted
    ensures var s := RunFrom(conv, START, acts).value;
            s.table[m].compacted ==> IsCovered(s, m)
  {
    RunKeepsInv(conv, START, acts);
    var path := CoverPath(conv, RunFrom(conv, START, acts).value, m);
  }

  // ---- The pinned head --------------------------------------------------------

  /** `head` are the first rows of the conversation, none of them compacted or about to be. */
  ghost predicate PinnedInv(conv: string, s: State, head: seq<Message>) {
    && |head| == PINNED_HEAD && Sorted(head)
    && (forall h :: h in head ==> h.id in s.table && s.table[h.id] == h && !h.compacted)
    && (forall id :: id in s.table && s.table[id] !in head ==> Before(head[PINNED_HEAD - 1], s.table[id]))
    && (forall j, h :: j in s.jobs && |s.jobs[j].msgs| >= THRESHOLD && h in head ==> h.id !in Ids(Middle(s.jobs[j].msgs)))
    && (forall j :: j in s.jobs && |s.jobs[j].msgs| >= THRESHOLD ==>
          forall m :: m in Middle(s.jobs[j].msgs) ==> Before(head[PINNED_HEAD - 1], m))
  }

  /** A listing starts with the rows that sort before all its others. */
  lemma {:induction false} ListingStartsWith(msgs: seq<Message>, head: seq<Message>)
    requires Sorted(msgs) && Sorted(head) && Elements(head) <= Elements(msgs)
    requires forall m, h :: m in msgs && m !in head && h in head ==> Before(h, m)
    ensures |head| <= |msgs| && msgs[..|head|] == head
  {
    if head != [] {
      assert head[0] in Elements(head);
      assert head[0] in msgs;
      assert msgs[0] in msgs;
      assert msgs[0] == head[0] || Before(msgs[0], head[0]);
      assert msgs[0] in head ==> msgs[0] == head[0] || Before(head[0], msgs[0]);
      forall h | h in head[1..]
        ensures h in msgs[1..]
      {
        assert h in Elements(head);
        assert h in msgs && h != msgs[0];
      }
      forall m, h | m in msgs[1..] && m !in head[1..] && h in head[1..]
        ensures Before(h, m)
      {
        assert m != head[0];
        assert m in msgs && m !in head && h in head;
      }
      ListingStartsWith(msgs[1..], head[1..]);
      assert msgs == [msgs[0]] + msgs[1..] && head == [head[0]] + head[1..];
    }
  }

  lemma LoadSparesHead(conv: string, s: State, head: seq<Message>, msgs: seq<Message>)
    requires TableInv(conv, s) && PinnedInv(conv, s, head)
    requires IsListing(msgs, Active(s.table, conv)) && |msgs| >= THRESHOLD
    ensures Head(msgs) == head
    ensures forall h :: h in head ==> h.id !in Ids(Middle(msgs))
    ensures forall m :: m in Middle(msgs) ==> Before(head[PINNED_HEAD - 1], m)
  {
    forall h | h in head
      ensures h in msgs
    {
      assert h in s.table.Values;
      assert h in Active(s.table, conv);
      assert h in Elements(msgs);
    }
    forall m, h | m in msgs && m !in head && h in head
      ensures Before(h, m)
    {
      assert m in Active(s.table, conv);
      assert s.table[m.id] == m;
    }
    ListingStartsWith(msgs, head);
    forall m | m in Middle(msgs)
      ensures Before(head[PINNED_HEAD - 1], m) && forall h :: h in head ==> h.id != m.id
    {
      var k :| 0 <= k < |Middle(msgs)| && Middle(msgs)[k] == m;
      MiddleIsBehindHead(conv, s.table, head, msgs, k);
    }
  }

  lemma MiddleIsBehindHead(conv: string, t: Table, head: seq<Message>, msgs: seq<Message>, k: nat)
    requires ValidTable(t) && IsListing(msgs, Active(t, conv)) && |msgs| >= THRESHOLD && Head(msgs) == head
    requires k < |Middle(msgs)|
    ensures Before(head[PINNED_HEAD - 1], Middle(msgs)[k])
    ensures forall h :: h in head ==> h.id != Middle(msgs)[k].id
  {
    assert msgs[k + PINNED_HEAD] == Middle(msgs)[k] && msgs[PINNED_HEAD - 1] == head[PINNED_HEAD - 1];
    forall h | h in head
      ensures h.id != Middle(msgs)[k].id
    {
      var i :| 0 <= i < |head| && head[i] == h;
      assert msgs[i] == h;
      if h.id == Middle(msgs)[k].id { SameIdSameMessage(t, conv, msgs, i, k + PINNED_HEAD); }
    }
  }

  lemma InsertSparesHead(conv: string, s: State, head: seq<Message>, m: Message)
    requires PinnedInv(conv, s, head) && m.id !in s.table && Before(head[PINNED_HEAD - 1], m)
    ensures PinnedInv(conv, Inserted(s, m), head)
  {
  }

  lemma MarkSparesHead(conv: string, s: State, head: seq<Message>, j: JobId)
    requires TableInv(conv, s) && PinnedInv(conv, s, head) && j in s.jobs && |s.jobs[j].msgs| >= THRESHOLD
    ensures PinnedInv(conv, s.(table := Marked(s.table, Ids(Middle(s.jobs[j].msgs)))), head)
  {
    var t := Marked(s.table, Ids(Middle(s.jobs[j].msgs)));
    forall h | h in head
      ensures h.id in t && t[h.id] == h
    {
    }
    forall id | id in t && t[id] !in head
      ensures Before(head[PINNED_HEAD - 1], t[id])
    {
      assert s.table[id] !in head;
    }
  }

  lemma PinnedIgnoresJobs(conv: string, s: State, head: seq<Message>, t: State)
    requires PinnedInv(conv, s, head) && t.table == s.table
    requires forall j :: j in t.jobs ==> j in s.jobs && t.jobs[j].msgs == s.jobs[j].msgs
    ensures PinnedInv(conv, t, head)
  {
  }

  lemma SummarySparesHead(conv: string, s: State, head: seq<Message>, a: Action)
    requires PinnedInv(conv, s, head) && a.InsertSummary? && Next(conv, s, a).Some?
    ensures PinnedInv(conv, Next(conv, s, a).value, head)
  {
    var msgs := s.jobs[a.j].msgs;
    var middle := Middle(msgs);
    assert middle[|middle| - 1] in middle;
    var summary := Summary(conv, msgs, a.id, a.text);
    InsertSparesHead(conv, s, head, summary);
    PinnedIgnoresJobs(conv, Inserted(s, summary), head, Next(conv, s, a).value);
  }

  lemma MarkStepSparesHead(conv: string, s: State, head: seq<Message>, a: Action)
    requires TableInv(conv, s) && PinnedInv(conv, s, head) && (a.Mark? || a.MarkFails?) && Next(conv, s, a).Some?
    ensures PinnedInv(conv, Next(conv, s, a).value, head)
  {
    var t := Next(conv, s, a).value;
    MarkSparesHead(conv, s, head, a.j);
    PinnedIgnoresJobs(conv, s.(table := t.table), head, t);
  }

  lemma StepKeepsPinned(conv: string, s: State, head: seq<Message>, a: Action)
    requires TableInv(conv, s) && PinnedInv(conv, s, head) && Next(conv, s, a).Some?
    requires a.Persist? ==> Before(head[PINNED_HEAD - 1], a.m)
    ensures PinnedInv(conv, Next(conv, s, a).value, head)
  {
    match a
    case Persist(m) =>
      InsertSparesHead(conv, s, head, m);
      PinnedIgnoresJobs(conv, Inserted(s, m), head, Next(conv, s, a).value);
    case Load(_, msgs) => LoadSparesHead(conv, s, head, msgs);
    case Abandon(_) => PinnedIgnoresJobs(conv, s, head, Next(conv, s, a).value);
    case InsertSummary(_, _, _) => SummarySparesHead(conv, s, head, a);
    case _ => MarkStepSparesHead(conv, s, head, a);
  }

  /** With four messages no load can have found forty. */
  lemma NoJobsAmongFour(conv: string, s: State, head: seq<Message>)
    requires Inv(conv, s) && |head| == PINNED_HEAD && Elements(head) == s.table.Values
    ensures s.jobs == map[]
  {
    if s.jobs != map[] {
      var j :| j in s.jobs;
      var msgs := s.jobs[j].msgs;
      var few := {head[0].id, head[1].id, head[2].id, head[3].id};
      forall id | id in s.table
        ensures id in few
      {
        assert s.table[id] in Elements(head);
      }
      var ids := seq(|msgs|, i requires 0 <= i < |msgs| => msgs[i].id);
      NoDuplicatesCount(ids);
      SubsetSize(Elements(ids), few);
      assert false;
    }
  }

  /** If every message persisted later sorts after the fourth one, the first four messages are
      never compacted, in any run from the moment they are the whole conversation, and every
      load sees them first. */
  lemma {:induction false} FirstFourArePinned(conv: string, s: State, head: seq<Message>, acts: seq<Action>)
    requires Inv(conv, s)
    requires |head| == PINNED_HEAD && IsListing(head, Active(s.table, conv)) && Elements(head) == s.table.Values
    requires forall k :: 0 <= k < |acts| && acts[k].Persist? ==> Before(head[PINNED_HEAD - 1], acts[k].m)
    requires RunFrom(conv, s, acts).Some?
    ensures var t := RunFrom(conv, s, acts).value;
            && PinnedInv(conv, t, head)
            && (forall h :: h in head ==> h.id in t.table && !t.table[h.id].compacted)
            && (forall msgs :: IsListing(msgs, Active(t.table, conv)) && |msgs| >= THRESHOLD ==> Head(msgs) == head)
  {
    if acts == [] {
      NoJobsAmongFour(conv, s, head);
      forall h | h in head
        ensures h.id in s.table && s.table[h.id] == h && !h.compacted
      {
        assert h in Elements(head);
      }
      forall id | id in s.table
        ensures s.table[id] in head
      {
        assert s.table[id] in s.table.Values;
      }
    } else {
      var front := acts[..|acts| - 1];
      FirstFourArePinned(conv, s, head, front);
      RunKeepsInv(conv, s, front);
      StepKeepsPinned(conv, RunFrom(conv, s, front).value, head, acts[|acts| - 1]);
    }
    RunKeepsInv(conv, s, acts);
    var t := RunFrom(conv, s, acts).value;
    forall msgs | IsListing(msgs, Active(t.table, conv)) && |msgs| >= THRESHOLD
      ensures Head(msgs) == head
    {
      LoadSparesHead(conv, t, head, msgs);
    }
  }

  // ---- Amortised size ---------------------------------------------------------

  /** No load starts while another compaction is under way. */
  ghost predicate NonOverlapping(conv: string, acts: seq<Action>) {
    forall i :: 0 <= i < |acts| && acts[i].Load? ==> NobodyCompacts(conv, acts[..i])
  }

  ghost predicate NobodyCompacts(conv: string, acts: seq<Action>) {
    var s := RunFrom(conv, START, acts);
    s.Some? ==> s.value.jobs == map[]
  }

  /** One summary waits for its middle to be marked. */
  ghost function InFlight(s: State): nat {
    if exists j :: j in s.jobs && s.jobs[j].summary.Some? then 1 else 0
  }

  ghost predicate SizeInv(conv: string, s: State) {
    && (forall j, k :: j in s.jobs && k in s.jobs ==> j == k)
    && (forall j :: j in s.jobs ==> Sorted(s.jobs[j].msgs)
                                    && forall m :: m in s.jobs[j].msgs ==> m in Active(s.table, conv))
    && 25 * s.compactions + |Active(s.table, conv)| <= s.persisted + s.stranded + InFlight(s)
  }

  /** Marking removes the whole middle, at least 26 messages, from the history. */
  lemma ActiveAfterMark(conv: string, s: State, job: Job)
    requires TableInv(conv, s) && JobInv(s, job) && Sorted(job.msgs)
    requires forall m :: m in job.msgs ==> m in Active(s.table, conv)
    ensures |Active(Marked(s.table, Ids(Middle(job.msgs))), conv)| + 26 <= |Active(s.table, conv)|
  {
    var middle := Middle(job.msgs);
    var after := Marked(s.table, Ids(middle));
    forall m | m in Elements(middle)
      ensures m in Active(s.table, conv)
    {
      assert m in job.msgs;
    }
    forall m | m in Active(after, conv)
      ensures m in Active(s.table, conv) - Elements(middle)
    {
      assert m.id !in Ids(middle);
    }
    assert Sorted(middle);
    SortedHasNoDuplicates(middle);
    NoDuplicatesCount(middle);
    SubsetSize(Active(after, conv), Active(s.table, conv) - Elements(middle));
  }

  lemma SubsetSize<T>(a: set<T>, b: set<T>)
    requires a <= b
    ensures |a| <= |b|
  {
    assert b == a + (b - a);
  }

  /** Messages of the one job stay in the history while rows are only added. */
  lemma InsertKeepsSize(conv: string, s: State, m: Message)
    requires TableInv(conv, s) && m.id !in s.table && m.conv == conv && !m.compacted
    ensures |Active(Inserted(s, m).table, conv)| == |Active(s.table, conv)| + 1
    ensures Active(s.table, conv) <= Active(Inserted(s, m).table, conv)
  {
    ActiveAfterInsert(s.table, conv, m);
  }

  lemma SummaryKeepsSize(conv: string, s: State, a: Action)
    requires Inv(conv, s) && SizeInv(conv, s) && a.InsertSummary? && Next(conv, s, a).Some?
    ensures SizeInv(conv, Next(conv, s, a).value)
  {
    var t := Next(conv, s, a).value;
    InsertKeepsSize(conv, s, Summary(conv, s.jobs[a.j].msgs, a.id, a.text));
    assert InFlight(s) == 0;
    assert a.j in t.jobs && t.jobs[a.j].summary.Some?;
  }

  lemma MarkKeepsSize(conv: string, s: State, a: Action)
    requires Inv(conv, s) && SizeInv(conv, s) && (a.Mark? || a.MarkFails?) && Next(conv, s, a).Some?
    ensures SizeInv(conv, Next(conv, s, a).value)
  {
    var t := Next(conv, s, a).value;
    assert JobInv(s, s.jobs[a.j]);
    ActiveAfterMark(conv, s, s.jobs[a.j]);
    assert t.jobs == map[];
    assert InFlight(s) == 1 && InFlight(t) == 0;
  }

  lemma LoadKeepsSize(conv: string, s: State, a: Action)
    requires SizeInv(conv, s) && (a.Load? || a.Abandon?) && Next(conv, s, a).Some?
    requires a.Load? ==> s.jobs == map[]
    ensures SizeInv(conv, Next(conv, s, a).value)
  {
    if a.Load? {
      assert forall m :: m in a.msgs ==> m in Elements(a.msgs);
    } else {
      assert InFlight(s) == 0;
    }
  }

  lemma StepKeepsSize(conv: string, s: State, a: Action)
    requires Inv(conv, s) && SizeInv(conv, s) && Next(conv, s, a).Some?
    requires a.Load? ==> s.jobs == map[]
    ensures SizeInv(conv, Next(conv, s, a).value)
  {
    match a
    case Persist(m) => InsertKeepsSize(conv, s, m);
    case InsertSummary(_, _, _) => SummaryKeepsSize(conv, s, a);
    case Mark(_) => MarkKeepsSize(conv, s, a);
    case MarkFails(_, _) => MarkKeepsSize(conv, s, a);
    case _ => LoadKeepsSize(conv, s, a);
  }

  /** Amortised size: as long as compactions of the conversation do not overlap, 25 times the
      compactions completed plus the rows still in the history never exceeds the messages
      persisted plus the summaries whose marking failed, plus the one summary in flight. */
  lemma {:induction false} HistoryStaysSmall(conv: string, acts: seq<Action>)
    requires RunFrom(conv, START, acts).Some? && NonOverlapping(conv, acts)
    ensures SizeInv(conv, RunFrom(conv, START, acts).value)
    ensures var s := RunFrom(conv, START, acts).value;
            s.jobs == map[] ==> 25 * s.compactions + |Active(s.table, conv)| <= s.persisted + s.stranded
  {
    if acts == [] {
      assert Active(START.table, conv) == {};
    } else {
      var front := acts[..|acts| - 1];
      forall i | 0 <= i < |front| && front[i].Load?
        ensures NobodyCompacts(conv, front[..i])
      {
        assert front[..i] == acts[..i] && acts[i].Load?;
      }
      assert acts[|acts| - 1].Load? ==> NobodyCompacts(conv, front);
      HistoryStaysSmall(conv, front);
      RunKeepsInv(conv, START, front);
      StepKeepsSize(conv, RunFrom(conv, START, front).value, acts[|acts| - 1]);
    }
  }
}
