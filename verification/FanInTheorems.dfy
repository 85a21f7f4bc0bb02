/** What the fan-in protocol guarantees over whole runs. */
module FanInTheorems {
  import opened Wrappers
  import Machines
  import opened EventHub
  import opened DispatchRegistry
  import opened FanIn
  import opened FanInProofs

  // ---- Fan-in completeness ----------------------------------------------------

  function AddedStep(added: set<ThreadId>, a: Action): set<ThreadId> {
    match a
    case Orchestrate(AddDispatch(t)) => added + {t}
    case Orchestrate(DrainResults) => {}
    case _ => added
  }

  function CompletedStep(completed: seq<SubAgentResult>, a: Action): seq<SubAgentResult> {
    match a
    case Work(_, RecordResult(r)) => completed + [r]
    case Orchestrate(DrainResults) => []
    case _ => completed
  }

  /** The threads added to the registry since the results were last drained. */
  function AddedSince(acts: seq<Action>): set<ThreadId> {
    if acts == [] then {} else AddedStep(AddedSince(acts[..|acts| - 1]), acts[|acts| - 1])
  }

  /** The results recorded since the last drain, in the order they were recorded. */
  function CompletedSince(acts: seq<Action>): seq<SubAgentResult> {
    if acts == [] then [] else CompletedStep(CompletedSince(acts[..|acts| - 1]), acts[|acts| - 1])
  }

  function ThreadsOf(results: seq<SubAgentResult>): set<ThreadId> {
    set r | r in results :: r.thread
  }

  lemma ThreadsOfAppend(results: seq<SubAgentResult>, r: SubAgentResult)
    ensures ThreadsOf(results + [r]) == ThreadsOf(results) + {r.thread}
  {
    forall t | t in ThreadsOf(results) + {r.thread}
      ensures t in ThreadsOf(results + [r])
    {
      if t == r.thread {
        assert r in results + [r];
      } else {
        var q :| q in results && q.thread == t;
        assert q in results + [r];
      }
    }
  }

  lemma {:induction false} ThreadsOfCount(results: seq<SubAgentResult>)
    requires forall i, j :: 0 <= i < j < |results| ==> results[i].thread != results[j].thread
    ensures |ThreadsOf(results)| == |results|
  {
    if results != [] {
      var front, r := results[..|results| - 1], results[|results| - 1];
      ThreadsOfCount(front);
      assert results == front + [r];
      ThreadsOfAppend(front, r);
    }
  }

  ghost predicate RegistryShows(p: Protocol, added: set<ThreadId>, completed: seq<SubAgentResult>) {
    p.slot.outs == completed && Live(p) + ThreadsOf(completed) == added
  }

  lemma StepKeepsRegistry(p: Protocol, a: Action, q: Protocol, added: set<ThreadId>, completed: seq<SubAgentResult>)
    requires RegistryShows(p, added, completed) && Effect(p, a, q)
    requires a == Orchestrate(DrainResults) ==> Live(p) == {}
    requires a.Work? && a.w.RecordResult? ==> a.w.r.thread == a.t && a.t in Live(p)
    ensures RegistryShows(q, AddedStep(added, a), CompletedStep(completed, a))
  {
    if a.Work? && a.w.RecordResult? {
      ThreadsOfAppend(completed, a.w.r);
    }
  }

  /** Side conditions of the step lemma, from the invariant. */
  lemma RecordingIsLive(p: Protocol, a: Action)
    requires Control(p) && Results(p) && ProtocolNext(p, a).Some?
    ensures a == Orchestrate(DrainResults) ==> Live(p) == {}
    ensures a.Work? && a.w.RecordResult? ==> a.w.r.thread == a.t && a.t in Live(p)
  {
  }

  /** Over any run, the threads added since the last drain are those still live and those whose
      result is waiting to be drained. */
  lemma {:induction false} RegistryMatchesTrace(acts: seq<Action>)
    requires After(acts).Some?
    ensures RegistryShows(After(acts).value.protocol, AddedSince(acts), CompletedSince(acts))
  {
    if acts == [] {
      assert Live(START.protocol) == {} && ThreadsOf([]) == {};
    } else {
      var before, a := acts[..|acts| - 1], acts[|acts| - 1];
      RegistryMatchesTrace(before);
      EveryReachableStateIsConsistent(before);
      var p := After(before).value.protocol;
      RecordingIsLive(p, a);
      StepEffect(p, a);
      StepKeepsRegistry(p, a, ProtocolNext(p, a).value, AddedSince(before), CompletedSince(before));
    }
  }

  /** When the wait has returned, every subagent with a recorded result has left `Done`. */
  lemma JoinedMeansExited(p: Protocol, added: set<ThreadId>, completed: seq<SubAgentResult>)
    requires Control(p) && Results(p) && p.orch.Joined? && RegistryShows(p, added, completed)
    ensures ThreadsOf(completed) == added && |completed| == |added|
    ensures forall t :: t in added ==> t in p.agents && p.agents[t] == Exited
  {
    ThreadsOfCount(completed);
    forall t | t in added
      ensures t in p.agents && p.agents[t] == Exited
    {
      assert t !in Live(p) && t !in Late(p);
    }
  }

  /** The batch drained after the wait holds exactly one result for every subagent added since
      the previous drain, whichever run added it, in the order the subagents completed. */
  lemma FanInIsComplete(acts: seq<Action>)
    requires After(acts + [Orchestrate(DrainResults)]).Some?
    ensures var p := After(acts + [Orchestrate(DrainResults)]).value.protocol;
            && p.orch == FannedIn(CompletedSince(acts)) && p.slot == Vacant()
            && ThreadsOf(CompletedSince(acts)) == AddedSince(acts)
            && |CompletedSince(acts)| == |AddedSince(acts)|
            && (forall t :: t in AddedSince(acts) ==> t in p.agents && p.agents[t] == Exited)
  {
    var all := acts + [Orchestrate(DrainResults)];
    assert all[..|all| - 1] == acts;
    EveryReachableStateIsConsistent(acts);
    RegistryMatchesTrace(acts);
    JoinedMeansExited(After(acts).value.protocol, AddedSince(acts), CompletedSince(acts));
  }

  /** After an `end_turn` reply the fan-in is skipped exactly when every subagent added since the
      last drain has recorded its result. All those results then stay behind for a later run. */
  lemma FanInIsSkippedExactly(acts: seq<Action>)
    requires After(acts + [Orchestrate(ReadPending)]).Some?
    ensures var p := After(acts + [Orchestrate(ReadPending)]).value.protocol;
            && (p.orch == Ending(EndTurn) <==> AddedSince(acts) == ThreadsOf(CompletedSince(acts)))
            && (p.orch == Ending(EndTurn) || p.orch == Joining)
            && p.slot.outs == CompletedSince(acts)
  {
    var all := acts + [Orchestrate(ReadPending)];
    assert all[..|all| - 1] == acts;
    EveryReachableStateIsConsistent(acts);
    RegistryMatchesTrace(acts);
    SkippedExactly(After(acts).value.protocol, After(all).value.protocol, AddedSince(acts), CompletedSince(acts));
  }

  lemma SkippedExactly(p: Protocol, q: Protocol, added: set<ThreadId>, completed: seq<SubAgentResult>)
    requires Counts(p) && Results(p) && RegistryShows(p, added, completed) && Orchestrated(p, ReadPending) == Some(q)
    ensures q.orch == Ending(EndTurn) <==> added == ThreadsOf(completed)
    ensures (q.orch == Ending(EndTurn) || q.orch == Joining) && q.slot.outs == completed
  {
    PendingMeansUnrecorded(p, added, completed);
  }

  lemma PendingMeansUnrecorded(p: Protocol, added: set<ThreadId>, completed: seq<SubAgentResult>)
    requires Counts(p) && Results(p) && RegistryShows(p, added, completed)
    ensures p.slot.pending > 0 <==> added != ThreadsOf(completed)
  {
    forall t | t in Live(p)
      ensures t !in ThreadsOf(completed)
    {
    }
  }

  /** What a run leaves in the registry, whatever way it ended: the results recorded since the last
      drain, in order, and one pending count for each subagent that has not recorded yet. That is
      nothing exactly if no subagent was added since the last drain; and after a clean end nobody
      is pending, so that every subagent added has left its result. */
  lemma RegistryWhenIdle(acts: seq<Action>)
    requires After(acts).Some? && After(acts).value.protocol.orch.Idle?
    ensures var p := After(acts).value.protocol;
            && p.slot.outs == CompletedSince(acts)
            && p.slot.pending == |AddedSince(acts)| - |CompletedSince(acts)|
            && (p.slot.outs == [] && p.slot.pending == 0 <==> AddedSince(acts) == {})
            && (p.orch == Idle(Some(EndTurn)) ==> p.slot.pending == 0 && ThreadsOf(p.slot.outs) == AddedSince(acts))
  {
    EveryReachableStateIsConsistent(acts);
    RegistryMatchesTrace(acts);
    CleanEndIsRecorded(acts);
    RegistryCounts(After(acts).value.protocol, AddedSince(acts), CompletedSince(acts));
  }

  lemma RegistryCounts(p: Protocol, added: set<ThreadId>, completed: seq<SubAgentResult>)
    requires Counts(p) && Results(p) && RegistryShows(p, added, completed)
    ensures p.slot.pending == |added| - |completed|
    ensures p.slot.outs == [] && p.slot.pending == 0 <==> added == {}
  {
    ThreadsOfCount(completed);
    forall t | t in Live(p)
      ensures t !in ThreadsOf(completed)
    {
    }
    assert |Live(p) + ThreadsOf(completed)| == |Live(p)| + |ThreadsOf(completed)|;
  }

  /** After a clean end every subagent has recorded its result. */
  lemma {:induction false} CleanEndIsRecorded(acts: seq<Action>)
    requires After(acts).Some?
    ensures EndedCleanly(After(acts).value.protocol.orch) ==> Live(After(acts).value.protocol) == {}
  {
    if acts != [] {
      var front, a := acts[..|acts| - 1], acts[|acts| - 1];
      CleanEndIsRecorded(front);
      EveryReachableStateIsConsistent(front);
      RecordedStep(After(front).value, a, After(acts).value);
    }
  }

  lemma RecordedStep(s: State, a: Action, s': State)
    requires Counts(s.protocol) && Control(s.protocol) && Rows(s.protocol, s.table) && Next(s, a) == Some(s')
    requires EndedCleanly(s.protocol.orch) ==> Live(s.protocol) == {}
    ensures EndedCleanly(s'.protocol.orch) ==> Live(s'.protocol) == {}
  {
    StepEffect(s.protocol, a);
    if EndedCleanly(s'.protocol.orch) {
      CleanEndStep(s.protocol, a);
    }
  }

  /** A clean end comes only from reading a count of zero. */
  lemma CleanEndStep(p: Protocol, a: Action)
    requires Counts(p) && ProtocolNext(p, a).Some? && EndedCleanly(ProtocolNext(p, a).value.orch)
    ensures EndedCleanly(p.orch) || Live(p) == {}
    ensures !(a.Orchestrate? && a.o.AddDispatch?)
  {
  }

  // ---- Counters and waiting ---------------------------------------------------

  /** In every reachable state the wait group counts the pending subagents and those between
      their unlock and their signal; no counter ever goes below zero. */
  lemma CountersAgree(acts: seq<Action>)
    requires After(acts).Some?
    ensures var p := After(acts).value.protocol;
            && p.slot.pending == |Live(p)|
            && (p.slot.wg.Some? ==> p.slot.wg.value in p.groups
                                    && p.groups[p.slot.wg.value] == p.slot.pending + |Late(p)|)
            && (forall w :: w in p.groups ==> p.groups[w] >= 0)
            && (forall t :: t in Late(p) ==> p.slot.wg.Some? && p.agents[t].wg == p.slot.wg)
  {
    EveryReachableStateIsConsistent(acts);
  }

  /** What the blocked orchestrator is still waiting for. */
  function Outstanding(p: Protocol): nat {
    2 * |Live(p)| + |Late(p)|
  }

  /** While the orchestrator is blocked nothing is added, each half of a subagent's `Done`
      brings it strictly closer, no step takes it further away, and it can go on exactly when
      nothing is outstanding. */
  lemma WaitingMakesProgress(acts: seq<Action>, a: Action)
    requires After(acts).Some? && After(acts).value.protocol.orch.Waiting?
    requires Next(After(acts).value, a).Some?
    ensures var p, q := After(acts).value.protocol, Next(After(acts).value, a).value.protocol;
            && (a == Orchestrate(WaitReturns) || (q.orch == p.orch && q.agents.Keys == p.agents.Keys))
            && Outstanding(q) <= Outstanding(p)
            && (a.Work? && (a.w.RecordResult? || a.w.SignalGroup?) ==> Outstanding(q) < Outstanding(p))
            && (Next(After(acts).value, Orchestrate(WaitReturns)).Some? <==> Outstanding(p) == 0)
  {
    EveryReachableStateIsConsistent(acts);
    WaitProgress(After(acts).value, a, Next(After(acts).value, a).value);
  }

  lemma WaitProgress(s: State, a: Action, s': State)
    requires Counts(s.protocol) && Control(s.protocol) && s.protocol.orch.Waiting? && Next(s, a) == Some(s')
    ensures a == Orchestrate(WaitReturns)
            || (s'.protocol.orch == s.protocol.orch && s'.protocol.agents.Keys == s.protocol.agents.Keys)
    ensures Outstanding(s'.protocol) <= Outstanding(s.protocol)
    ensures a.Work? && (a.w.RecordResult? || a.w.SignalGroup?) ==> Outstanding(s'.protocol) < Outstanding(s.protocol)
    ensures Next(s, Orchestrate(WaitReturns)).Some? <==> Outstanding(s.protocol) == 0
  {
    WaitStep(s.protocol, a);
    StepEffect(s.protocol, a);
    EffectOnOutstanding(s.protocol, a, s'.protocol);
  }

  lemma WaitStep(p: Protocol, a: Action)
    requires Counts(p) && Control(p) && p.orch.Waiting? && ProtocolNext(p, a).Some?
    ensures var q := ProtocolNext(p, a).value;
            a == Orchestrate(WaitReturns) || (a.Work? && q.orch == p.orch && q.agents.Keys == p.agents.Keys) || q == p
    ensures a.Work? && a.w.RecordResult? ==> a.t in Live(p) && a.t !in Late(p)
    ensures a.Work? && a.w.SignalGroup? ==> a.t in Late(p)
    ensures ProtocolNext(p, Orchestrate(WaitReturns)).Some? <==> Outstanding(p) == 0
  {
  }

  lemma EffectOnOutstanding(p: Protocol, a: Action, q: Protocol)
    requires Effect(p, a, q) && !(a.Orchestrate? && a.o.AddDispatch?)
    requires a.Work? && a.w.RecordResult? ==> a.t in Live(p) && a.t !in Late(p)
    requires a.Work? && a.w.SignalGroup? ==> a.t in Late(p)
    ensures Outstanding(q) <= Outstanding(p)
    ensures a.Work? && (a.w.RecordResult? || a.w.SignalGroup?) ==> Outstanding(q) < Outstanding(p)
  {
    if a.Work? && a.w.RecordResult? {
      assert |Live(p) - {a.t}| == |Live(p)| - 1 && |Late(p) + {a.t}| == |Late(p)| + 1;
    }
  }

  /** How many steps a subagent still has to take. */
  function StepsLeft(stage: Stage): nat {
    match stage
    case NotLaunched => 6
    case Streaming => 5
    case Settled(_) => 4
    case Recorded(_) => 3
    case Announced(_) => 2
    case Unlocked(_) => 1
    case Exited => 0
  }

  function NextChore(t: ThreadId, stage: Stage): AgentAction {
    match stage
    case Streaming => AgentSettles(SubAgentResult("", t, "", None))
    case Settled(r) => WriteStatus(r, true)
    case Recorded(r) => Announce(r)
    case Announced(r) => RecordResult(r)
    case _ => SignalGroup
  }

  ghost predicate OnlyWork(acts: seq<Action>) {
    forall k :: 0 <= k < |acts| ==> acts[k].Work?
  }

  /** With a push as one step, a launched subagent is never blocked. */
  lemma ChoreIsEnabled(s: State, t: ThreadId)
    requires t in s.protocol.agents && !s.protocol.agents[t].NotLaunched? && !s.protocol.agents[t].Exited?
    ensures var stage := s.protocol.agents[t];
            var next := Next(s, Work(t, NextChore(t, stage)));
            && next.Some? && next.value.protocol.orch == s.protocol.orch
            && t in next.value.protocol.agents
            && next.value.protocol.agents == s.protocol.agents[t := next.value.protocol.agents[t]]
            && StepsLeft(next.value.protocol.agents[t]) < StepsLeft(stage)
            && !next.value.protocol.agents[t].NotLaunched?
            && (stage.Recorded? ==> next.value.hub.pushed != [] && Last(next.value.hub.pushed).StatusChanged?)
            && (MayPush(stage) && !stage.Recorded? ==> MayPush(next.value.protocol.agents[t]))
  {
  }

  /** With a push as one step, a launched subagent can always run to its end. */
  lemma {:induction false} AgentCanFinish(s: State, t: ThreadId) returns (more: seq<Action>)
    requires t in s.protocol.agents && !s.protocol.agents[t].NotLaunched?
    ensures OnlyWork(more) && RunFrom(s, more).Some?
    ensures var q := RunFrom(s, more).value.protocol;
            q.orch == s.protocol.orch && q.agents == s.protocol.agents[t := Exited]
    decreases StepsLeft(s.protocol.agents[t])
  {
    var stage := s.protocol.agents[t];
    if stage.Exited? {
      more := [];
      assert s.protocol.agents == s.protocol.agents[t := Exited];
    } else {
      var a := Work(t, NextChore(t, stage));
      ChoreIsEnabled(s, t);
      Machines.OneStep(Next, s, a);
      var rest := AgentCanFinish(Next(s, a).value, t);
      more := [a] + rest;
      Machines.RunAppend(Next, s, [a], rest);
    }
  }

  /** Letting one unfinished subagent exit leaves less to wait for. */
  lemma ExitShrinks(p: Protocol, q: Protocol, t: ThreadId)
    requires t in Live(p) + Late(p) && q.agents == p.agents[t := Exited]
    ensures |Live(q)| + |Late(q)| < |Live(p)| + |Late(p)|
  {
    assert Live(q) == Live(p) - {t} && Late(q) == Late(p) - {t};
    if t in Live(p) {
      assert |Live(p) - {t}| == |Live(p)| - 1;
    } else {
      assert |Late(p) - {t}| == |Late(p)| - 1;
    }
  }

  lemma NothingLeft(s: State)
    requires Counts(s.protocol) && Control(s.protocol) && s.protocol.orch.Waiting?
    requires Live(s.protocol) == {} && Late(s.protocol) == {}
    ensures Next(s, Orchestrate(WaitReturns)).Some?
  {
  }

  function Unfinished(p: Protocol): nat {
    |Live(p)| + |Late(p)|
  }

  /** While the orchestrator waits, some unfinished subagent can exit. */
  lemma SomeoneCanFinish(s: State) returns (first: seq<Action>, s': State)
    requires ProtocolInv(s.protocol, s.table) && s.protocol.orch.Waiting? && Live(s.protocol) + Late(s.protocol) != {}
    ensures OnlyWork(first) && RunFrom(s, first) == Some(s')
    ensures ProtocolInv(s'.protocol, s'.table) && s'.protocol.orch == s.protocol.orch && Unfinished(s'.protocol) < Unfinished(s.protocol)
  {
    var t :| t in Live(s.protocol) + Late(s.protocol);
    first := AgentCanFinish(s, t);
    s' := RunFrom(s, first).value;
    ExitShrinks(s.protocol, s'.protocol, t);
    RunKeepsProtocol(s, first);
  }

  /** Some steps of the subagents alone after which the wait can return. */
  ghost predicate LetsWaitReturn(s: State, more: seq<Action>) {
    OnlyWork(more) && RunFrom(s, more + [Orchestrate(WaitReturns)]).Some?
  }

  lemma LetsWaitReturnLater(s: State, first: seq<Action>, s': State, rest: seq<Action>)
    requires OnlyWork(first) && RunFrom(s, first) == Some(s') && LetsWaitReturn(s', rest)
    ensures LetsWaitReturn(s, first + rest)
  {
    assert (first + rest) + [Orchestrate(WaitReturns)] == first + (rest + [Orchestrate(WaitReturns)]);
    Machines.RunAppend(Next, s, first, rest + [Orchestrate(WaitReturns)]);
  }

  /** No deadlock in the registry: with a push as one step, from every state in which the
      orchestrator waits the subagents alone can bring it to the point where the wait returns. */
  lemma {:induction false} WaitCanReturn(s: State) returns (more: seq<Action>)
    requires ProtocolInv(s.protocol, s.table) && s.protocol.orch.Waiting?
    ensures LetsWaitReturn(s, more)
    decreases Unfinished(s.protocol)
  {
    if Live(s.protocol) + Late(s.protocol) == {} {
      more := [];
      assert [] + [Orchestrate(WaitReturns)] == [Orchestrate(WaitReturns)];
      NothingLeft(s);
      Machines.OneStep(Next, s, Orchestrate(WaitReturns));
    } else {
      var first, s' := SomeoneCanFinish(s);
      var rest := WaitCanReturn(s');
      more := first + rest;
      LetsWaitReturnLater(s, first, s', rest);
    }
  }

  lemma FanInCannotHang(acts: seq<Action>)
    requires After(acts).Some? && After(acts).value.protocol.orch.Waiting?
    ensures exists more :: LetsWaitReturn(After(acts).value, more)
  {
    EveryReachableStateIsConsistent(acts);
    var more := WaitCanReturn(After(acts).value);
  }

  // ---- Terminal signals -------------------------------------------------------

  /** When a run has ended on `end_turn`, `queue_drained` is the last push of the run and of all
      its subagents, nothing can be pushed before the next run starts, and the event is either
      the last one queued or the last one the reader received. */
  lemma CleanEndDelivers(acts: seq<Action>, a: Action)
    requires After(acts).Some? && After(acts).value.protocol.orch == Idle(Some(EndTurn))
    ensures var h := After(acts).value.hub;
            && h.pushed != [] && Last(h.pushed) == QueueDrained
            && (h.buffer != [] ==> Last(h.buffer) == QueueDrained)
            && (h.buffer == [] ==> h.received != [] && Last(h.received) == QueueDrained)
    ensures Next(After(acts).value, a).Some? && Emits(a).Some? ==> a == Orchestrate(StartRun(true))
  {
    EveryReachableStateIsConsistent(acts);
    var s := After(acts).value;
    assert s.hub.buffer == [] ==> s.hub.received + s.hub.buffer == s.hub.received;
    if Next(s, a).Some? {
      OnlyPushersSpeak(s, a);
    }
  }

  /** Between runs only a subagent that has yet to announce itself, or a new run, pushes. */
  lemma OnlyPushersSpeak(s: State, a: Action)
    requires s.protocol.orch.Idle? && Next(s, a).Some?
    ensures Emits(a).Some? ==> a == Orchestrate(StartRun(true)) || (a.Work? && a.t in Pushers(s.protocol))
    ensures !StartsRun(a) ==> Next(s, a).value.protocol.orch == s.protocol.orch
    ensures a != Orchestrate(DrainResults) && !(a.Orchestrate? && a.o.AddDispatch?)
  {
  }

  predicate StartsRun(a: Action) {
    a.Orchestrate? && a.o.StartRun?
  }

  ghost predicate NoRunStarts(acts: seq<Action>) {
    forall k :: 0 <= k < |acts| ==> !StartsRun(acts[k])
  }

  /** An ended run with no pushers left stays silent. */
  lemma {:induction false} SilenceLasts(s: State, more: seq<Action>)
    requires Control(s.protocol) && s.protocol.orch.Idle? && Pushers(s.protocol) == {}
    requires NoRunStarts(more) && RunFrom(s, more).Some?
    ensures var s' := RunFrom(s, more).value;
            && s'.protocol.orch == s.protocol.orch && Pushers(s'.protocol) == {}
            && Control(s'.protocol) && s'.hub.pushed == s.hub.pushed
  {
    if more != [] {
      var front, a := more[..|more| - 1], more[|more| - 1];
      SilenceLasts(s, front);
      SilentStep(RunFrom(s, front).value, a);
    }
  }

  lemma SilentStep(s: State, a: Action)
    requires Control(s.protocol) && s.protocol.orch.Idle? && Pushers(s.protocol) == {}
    requires !StartsRun(a) && Next(s, a).Some?
    ensures var s' := Next(s, a).value;
            && s'.protocol.orch == s.protocol.orch && Pushers(s'.protocol) == {}
            && Control(s'.protocol) && s'.hub.pushed == s.hub.pushed
  {
    OnlyPushersSpeak(s, a);
    StepEffect(s.protocol, a);
    if a.Work? {
      AgentKeepsControl(s.protocol, a.t, a.w);
    }
  }

  /** Any subagent that has not yet announced itself can still get an event in. */
  lemma {:induction false} PusherCanSpeak(s: State, t: ThreadId) returns (more: seq<Action>)
    requires t in Pushers(s.protocol) && !s.protocol.agents[t].NotLaunched?
    ensures NoRunStarts(more) && RunFrom(s, more).Some?
    ensures var h := RunFrom(s, more).value.hub; h.pushed != [] && Last(h.pushed).StatusChanged?
    decreases StepsLeft(s.protocol.agents[t])
  {
    var stage := s.protocol.agents[t];
    var a := Work(t, NextChore(t, stage));
    ChoreIsEnabled(s, t);
    Machines.OneStep(Next, s, a);
    if stage.Recorded? {
      more := [a];
    } else {
      var rest := PusherCanSpeak(Next(s, a).value, t);
      more := [a] + rest;
      Machines.RunAppend(Next, s, [a], rest);
    }
  }

  /** The last push after some further steps is no longer `queue_drained`. */
  ghost predicate Overtaken(s: State, more: seq<Action>) {
    && NoRunStarts(more) && RunFrom(s, more).Some?
    && var h := RunFrom(s, more).value.hub;
       h.pushed == [] || Last(h.pushed) != QueueDrained
  }

  lemma OvertakenExactly(s: State)
    requires Control(s.protocol) && s.protocol.orch.Idle?
    requires s.hub.pushed != [] && Last(s.hub.pushed) == QueueDrained
    ensures (exists more :: Overtaken(s, more)) <==> Pushers(s.protocol) != {}
  {
    if Pushers(s.protocol) == {} {
      forall more | NoRunStarts(more) && RunFrom(s, more).Some?
        ensures !Overtaken(s, more)
      {
        SilenceLasts(s, more);
      }
    } else {
      var t :| t in Pushers(s.protocol);
      var more := PusherCanSpeak(s, t);
      assert Overtaken(s, more);
    }
  }

  lemma LastStepWasQueueDrained(p: Protocol, h: HubState)
    requires Orchestrated(p, SendQueueDrained).Some?
    ensures Orchestrated(p, SendQueueDrained).value.orch.Idle?
    ensures Pushed(h, QueueDrained).pushed != [] && Last(Pushed(h, QueueDrained).pushed) == QueueDrained
  {
  }

  /** However a run ended, its `queue_drained` can be followed by a later push before the next
      run starts exactly when some subagent had not yet announced its end. Only an `end_turn`
      that found nothing pending rules that out. */
  lemma QueueDrainedIsLastExactly(acts: seq<Action>)
    requires After(acts).Some? && acts != [] && acts[|acts| - 1] == Orchestrate(SendQueueDrained)
    ensures var s := After(acts).value;
            && s.hub.pushed != [] && Last(s.hub.pushed) == QueueDrained
            && ((exists more :: Overtaken(s, more)) <==> Pushers(s.protocol) != {})
            && (s.protocol.orch == Idle(Some(EndTurn)) ==> Pushers(s.protocol) == {})
  {
    EveryReachableStateIsConsistent(acts);
    var before := After(acts[..|acts| - 1]).value;
    LastStepWasQueueDrained(before.protocol, before.hub);
    OvertakenExactly(After(acts).value);
  }

  // ---- Thread rows ------------------------------------------------------------

  /** No step takes a thread out of the terminal states, and a cancel only ever turns a thread
      that is not terminal at that moment into a cancelled one. */
  lemma TerminalIsForever(d: Table, a: Action, t: ThreadId)
    requires t in d.threads && TableNext(d, a).Some?
    ensures var d' := TableNext(d, a).value;
            && t in d'.threads
            && (IsFinal(d.threads[t]) <==> d.threads[t] in {ThreadStatus.Done, ThreadStatus.Cancelled, ThreadStatus.Error})
            && (IsFinal(d.threads[t]) ==> IsFinal(d'.threads[t]))
            && (a.CancelListed? || a.CancelElsewhere? ==>
                  d'.threads[t] == (if a.c == t && !IsFinal(d.threads[t]) then ThreadStatus.Cancelled else d.threads[t]))
  {
  }

  /** The cancel endpoint lists exactly the threads that are not terminal at that moment, each of
      which it then has to update. */
  lemma ListsOpenThreads(d: Table)
    requires d.left == {}
    ensures var d' := TableNext(d, ListThreads);
            && d'.Some? && d'.value.threads == d.threads && d'.value.left == d'.value.listed
            && forall t :: t in d'.value.listed <==>
                 t in d.threads && d.threads[t] != ThreadStatus.Done && d.threads[t] != ThreadStatus.Cancelled
                 && d.threads[t] != ThreadStatus.Error
  {
  }

  /** So a thread that is terminal after some steps is terminal after any further ones. */
  lemma {:induction false} TerminalOverRuns(s: State, more: seq<Action>, t: ThreadId)
    requires RunFrom(s, more).Some? && t in s.table.threads && IsFinal(s.table.threads[t])
    ensures var d := RunFrom(s, more).value.table; t in d.threads && IsFinal(d.threads[t])
  {
    if more != [] {
      TerminalOverRuns(s, more[..|more| - 1], t);
      TerminalIsForever(RunFrom(s, more[..|more| - 1]).value.table, more[|more| - 1], t);
    }
  }

  /** A finished `CancelAllThreads` leaves every thread it listed terminal, whatever ran beside it. */
  lemma CancelLeavesListedTerminal(acts: seq<Action>)
    requires After(acts).Some? && After(acts).value.table.left == {}
    ensures var d := After(acts).value.table;
            forall t :: t in d.listed ==> t in d.threads && IsFinal(d.threads[t])
  {
    EveryReachableStateIsConsistent(acts);
  }

  /** Each result of a drained batch belongs to a thread whose row, if its update succeeded,
      shows that very result: `error` exactly if it carries an error, and `done` otherwise. */
  lemma DrainedThreadsAreTerminal(acts: seq<Action>)
    requires After(acts).Some? && After(acts).value.protocol.orch.FannedIn?
    ensures var s := After(acts).value;
            forall r :: r in s.protocol.orch.batch && r.thread !in s.table.unwritten ==>
              && r.thread in s.table.threads
              && (s.table.threads[r.thread] == ThreadStatus.Error <==> r.err.Some?)
              && (s.table.threads[r.thread] == ThreadStatus.Done <==> r.err.None?)
  {
    EveryReachableStateIsConsistent(acts);
  }

  /** What a cancelled row of a dispatched subagent shows: `cancelled` until the subagent's own
      status update, and after it exactly if that update failed. */
  ghost predicate CancelledSurvives(s: State, t: ThreadId) {
    && t in s.protocol.agents && t in s.table.threads
    && if Reported(s.protocol.agents[t])
       then IsFinal(s.table.threads[t]) && (s.table.threads[t] == Cancelled <==> t in s.table.unwritten)
       else s.table.threads[t] == Cancelled && t !in s.table.unwritten
  }

  /** A subagent gets past its status update by that update alone. */
  lemma ReportingStep(p: Protocol, a: Action, t: ThreadId)
    requires Control(p) && t in p.agents && (p.orch.RowInserted? ==> p.orch.thread !in p.agents)
    requires ProtocolNext(p, a).Some?
    ensures var q := ProtocolNext(p, a).value;
            && t in q.agents
            && (a.Work? && a.t == t && a.w.WriteStatus? ==> !Reported(p.agents[t]) && Reported(q.agents[t]))
            && (!(a.Work? && a.t == t && a.w.WriteStatus?) ==> (Reported(p.agents[t]) <==> Reported(q.agents[t])))
  {
  }

  lemma RowStep(d: Table, a: Action, t: ThreadId)
    requires t in d.threads && IsFinal(d.threads[t]) && TableNext(d, a).Some?
    ensures var d' := TableNext(d, a).value;
            && t in d'.threads
            && (a.Work? && a.t == t && a.w.WriteStatus? ==>
                  && d'.threads[t] == (if a.w.ok then FinalStatus(a.w.r) else d.threads[t])
                  && (t in d'.unwritten <==> !a.w.ok || t in d.unwritten))
            && (!(a.Work? && a.t == t && a.w.WriteStatus?) ==>
                  d'.threads[t] == d.threads[t] && (t in d'.unwritten <==> t in d.unwritten))
  {
  }

  lemma CancelledStep(s: State, a: Action, t: ThreadId)
    requires Control(s.protocol) && Rows(s.protocol, s.table) && CancelledSurvives(s, t) && Next(s, a).Some?
    ensures CancelledSurvives(Next(s, a).value, t)
  {
    ReportingStep(s.protocol, a, t);
    RowStep(s.table, a, t);
  }

  lemma {:induction false} CancelledSurvivesRun(s: State, more: seq<Action>, t: ThreadId)
    requires ProtocolInv(s.protocol, s.table) && t in s.protocol.agents && !Reported(s.protocol.agents[t])
    requires t in s.table.threads && s.table.threads[t] == Cancelled
    requires RunFrom(s, more).Some?
    ensures CancelledSurvives(RunFrom(s, more).value, t)
  {
    if more != [] {
      var front := more[..|more| - 1];
      CancelledSurvivesRun(s, front, t);
      RunKeepsProtocol(s, front);
      CancelledStep(RunFrom(s, front).value, more[|more| - 1], t);
    }
  }

  /** Cancelled is not final: from any moment at which a subagent that has yet to report shows as
      cancelled, whatever happens next, once it has reported its row is still cancelled if and
      only if its own status update failed. */
  lemma {:induction false} CancelledSurvivesExactly(acts: seq<Action>, more: seq<Action>, t: ThreadId)
    requires After(acts).Some? && RunFrom(After(acts).value, more).Some?
    requires var s := After(acts).value;
             && t in s.protocol.agents && !Reported(s.protocol.agents[t])
             && t in s.table.threads && s.table.threads[t] == Cancelled
    ensures CancelledSurvives(RunFrom(After(acts).value, more).value, t)
  {
    EveryReachableStateIsConsistent(acts);
    CancelledSurvivesRun(After(acts).value, more, t);
  }
}
