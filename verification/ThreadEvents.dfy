/** What a stream reader learns of the subagents, and that every run can come to each of its ends. */
module ThreadEvents {
  import opened Wrappers
  import Machines
  import opened EventHub
  import opened DispatchRegistry
  import opened FanIn
  import opened FanInProofs
  import opened FanInTheorems

  // ---- Status events ----------------------------------------------------------

  /** The event tells of the result `r`: `error` exactly if it carries one, and `done` otherwise. */
  predicate Tells(e: Event, r: SubAgentResult) {
    && e.StatusChanged? && e.thread == r.thread
    && (e.status == ThreadStatus.Error <==> r.err.Some?) && (e.status == ThreadStatus.Done <==> r.err.None?)
  }

  /** The subagent stands right before recording that result, or has recorded it. */
  ghost predicate HasTold(acts: seq<Action>, p: Protocol, e: Event) {
    exists r :: Tells(e, r) && IsRecordedFrom(acts, p, r)
  }

  ghost predicate IsRecordedFrom(acts: seq<Action>, p: Protocol, r: SubAgentResult) {
    || (r.thread in p.agents && p.agents[r.thread] == Announced(r))
    || Work(r.thread, RecordResult(r)) in acts
  }

  lemma RecordedStays(acts: seq<Action>, s: State, a: Action, r: SubAgentResult)
    requires Control(s.protocol) && Rows(s.protocol, s.table) && ProtocolNext(s.protocol, a).Some?
    requires IsRecordedFrom(acts, s.protocol, r)
    ensures IsRecordedFrom(acts + [a], ProtocolNext(s.protocol, a).value, r)
  {
    if Work(r.thread, RecordResult(r)) !in acts {
      AnnouncedStays(s.protocol, a, r);
    }
  }

  lemma AnnouncedStays(p: Protocol, a: Action, r: SubAgentResult)
    requires Control(p) && (p.orch.RowInserted? ==> p.orch.thread !in p.agents) && ProtocolNext(p, a).Some?
    requires r.thread in p.agents && p.agents[r.thread] == Announced(r)
    ensures var q := ProtocolNext(p, a).value;
            (r.thread in q.agents && q.agents[r.thread] == Announced(r)) || a == Work(r.thread, RecordResult(r))
  {
  }

  /** The only step that pushes a status event announces the result it tells of. */
  lemma AnnouncementTells(p: Protocol, a: Action)
    requires Results(p) && ProtocolNext(p, a).Some? && Emits(a).Some? && Emits(a).value.StatusChanged?
    ensures a.Work? && a.w.Announce? && Tells(Emits(a).value, a.w.r)
    ensures var q := ProtocolNext(p, a).value; a.w.r.thread in q.agents && q.agents[a.w.r.thread] == Announced(a.w.r)
  {
  }

  /** Every status event ever pushed tells of a result of its own thread, which is the one that the
      subagent records next or has recorded. */
  lemma {:induction false} StatusEventsTellResults(acts: seq<Action>)
    requires After(acts).Some?
    ensures var s := After(acts).value;
            forall e :: e in s.hub.pushed && e.StatusChanged? ==> HasTold(acts, s.protocol, e)
  {
    if acts != [] {
      var front, a := acts[..|acts| - 1], acts[|acts| - 1];
      StatusEventsTellResults(front);
      EveryReachableStateIsConsistent(front);
      StatusStep(front, After(front).value, a);
      assert front + [a] == acts;
    }
  }

  lemma StatusStep(acts: seq<Action>, s: State, a: Action)
    requires ProtocolInv(s.protocol, s.table) && Next(s, a).Some?
    requires forall e :: e in s.hub.pushed && e.StatusChanged? ==> HasTold(acts, s.protocol, e)
    ensures var t := Next(s, a).value;
            forall e :: e in t.hub.pushed && e.StatusChanged? ==> HasTold(acts + [a], t.protocol, e)
  {
    HubStepPushes(s.hub, a);
    var t := Next(s, a).value;
    forall e | e in t.hub.pushed && e.StatusChanged?
      ensures HasTold(acts + [a], t.protocol, e)
    {
      if e in s.hub.pushed {
        ToldStays(acts, s, a, e);
      } else {
        AnnouncementTells(s.protocol, a);
        assert IsRecordedFrom(acts + [a], t.protocol, a.w.r);
      }
    }
  }

  lemma ToldStays(acts: seq<Action>, s: State, a: Action, e: Event)
    requires Control(s.protocol) && Rows(s.protocol, s.table) && ProtocolNext(s.protocol, a).Some?
    requires HasTold(acts, s.protocol, e)
    ensures HasTold(acts + [a], ProtocolNext(s.protocol, a).value, e)
  {
    var r :| Tells(e, r) && IsRecordedFrom(acts, s.protocol, r);
    RecordedStays(acts, s, a, r);
  }

  /** The record of a result is preceded by its event. */
  lemma {:induction false} ResultsAreTold(acts: seq<Action>, t: ThreadId, r: SubAgentResult)
    requires After(acts + [Work(t, RecordResult(r))]).Some?
    ensures exists e :: e in After(acts).value.hub.pushed && Tells(e, r)
  {
    Machines.StepAfter(Next, START, acts, Work(t, RecordResult(r)));
    RecordsWhatIsAnnounced(After(acts).value, t, r);
    AnnouncedIsTold(acts, t, r);
  }

  lemma RecordsWhatIsAnnounced(s: State, t: ThreadId, r: SubAgentResult)
    requires Next(s, Work(t, RecordResult(r))).Some?
    ensures t in s.protocol.agents && s.protocol.agents[t] == Announced(r)
  {
  }

  lemma {:induction false} AnnouncedIsTold(acts: seq<Action>, t: ThreadId, r: SubAgentResult)
    requires After(acts).Some? && t in After(acts).value.protocol.agents
    requires After(acts).value.protocol.agents[t] == Announced(r)
    ensures exists e :: e in After(acts).value.hub.pushed && Tells(e, r)
  {
    if acts != [] {
      var front, a := acts[..|acts| - 1], acts[|acts| - 1];
      EveryReachableStateIsConsistent(front);
      var s := After(front).value;
      HubStepKeepsInv(s.hub, a);
      if t in s.protocol.agents && s.protocol.agents[t] == Announced(r) {
        AnnouncedIsTold(front, t, r);
        var e :| e in s.hub.pushed && Tells(e, r);
        assert e in After(acts).value.hub.pushed;
      } else {
        NewlyAnnounced(s.protocol, a, t, r);
        assert Emits(a).value in After(acts).value.hub.pushed;
      }
    }
  }

  lemma NewlyAnnounced(p: Protocol, a: Action, t: ThreadId, r: SubAgentResult)
    requires Results(p) && ProtocolNext(p, a).Some?
    requires t in ProtocolNext(p, a).value.agents && ProtocolNext(p, a).value.agents[t] == Announced(r)
    requires !(t in p.agents && p.agents[t] == Announced(r))
    ensures a == Work(t, Announce(r)) && Emits(a).Some? && Tells(Emits(a).value, r)
  {
  }

  // ---- What a reply pushes ----------------------------------------------------

  /** A thinking orchestrator and a streaming subagent push exactly their block events, and the
      orchestrator its requests for approval; each push changes the hub alone. */
  lemma StreamingPushes(s: State, t: ThreadId, e: Event)
    ensures s.protocol.orch.Thinking? ==>
              (Next(s, Orchestrate(Stream(e))) ==
               if e.BlockStart? || e.BlockDelta? || e.BlockStop? || e.ApprovalRequested?
               then Some(s.(hub := Pushed(s.hub, e))) else None)
    ensures t in s.protocol.agents && s.protocol.agents[t].Streaming? ==>
              (Next(s, Work(t, AgentStreams(e))) ==
               if e.BlockStart? || e.BlockDelta? || e.BlockStop? then Some(s.(hub := Pushed(s.hub, e))) else None)
  {
  }

  // ---- Every end can be reached -----------------------------------------------

  /** After some steps without a new run the orchestrator is idle with this exit, and the last two
      events pushed are the terminal signals. */
  ghost predicate Ends(s: State, exit: Exit, more: seq<Action>) {
    && NoRunStarts(more) && RunFrom(s, more).Some?
    && var t := RunFrom(s, more).value;
       && t.protocol.orch == Idle(Some(exit))
       && |t.hub.pushed| >= 2 && t.hub.pushed[|t.hub.pushed| - 2..] == [RoundDone, QueueDrained]
  }

  lemma EndsLater(s: State, first: seq<Action>, exit: Exit, rest: seq<Action>)
    requires NoRunStarts(first) && RunFrom(s, first).Some? && Ends(RunFrom(s, first).value, exit, rest)
    ensures Ends(s, exit, first + rest)
  {
    Machines.RunAppend(Next, s, first, rest);
  }

  const SIGNALS: seq<Action> := [Orchestrate(SendRoundDone), Orchestrate(SendQueueDrained)]

  lemma EndingEnds(s: State)
    requires s.protocol.orch.Ending?
    ensures Ends(s, s.protocol.orch.exit, SIGNALS)
  {
    Machines.TwoSteps(Next, s, SIGNALS[0], SIGNALS[1]);
    assert s.hub.pushed + [RoundDone] + [QueueDrained] == s.hub.pushed + [RoundDone, QueueDrained];
  }

  lemma StepThenEnds(s: State, a: Action, exit: Exit, rest: seq<Action>)
    requires !StartsRun(a) && Next(s, a).Some? && Ends(Next(s, a).value, exit, rest)
    ensures Ends(s, exit, [a] + rest)
  {
    Machines.OneStep(Next, s, a);
    EndsLater(s, [a], exit, rest);
  }

  lemma UncleanEnd(s: State, exit: Exit) returns (more: seq<Action>)
    requires s.protocol.orch.Thinking? && exit != EndTurn
    ensures Ends(s, exit, more)
  {
    var a := Orchestrate(if exit == OtherStop then OtherReply else RunFails);
    EndingEnds(Next(s, a).value);
    StepThenEnds(s, a, exit, SIGNALS);
    more := [a] + SIGNALS;
  }

  /** With nobody pending an `end_turn` reply ends the run. */
  lemma ImmediateEnd(s: State) returns (more: seq<Action>)
    requires s.protocol.orch.Thinking? && s.protocol.slot.pending <= 0
    ensures Ends(s, EndTurn, more)
  {
    var a, b := Orchestrate(EndTurnReply), Orchestrate(ReadPending);
    var u := Next(s, a).value;
    EndingEnds(Next(u, b).value);
    StepThenEnds(u, b, EndTurn, SIGNALS);
    StepThenEnds(s, a, EndTurn, [b] + SIGNALS);
    more := [a] + ([b] + SIGNALS);
  }

  /** After a fan-in nobody is pending. */
  lemma EndAfterJoin(s: State) returns (more: seq<Action>)
    requires s.protocol.orch.Joined?
    ensures Ends(s, EndTurn, more)
  {
    var a, b := Orchestrate(DrainResults), Orchestrate(PersistFanIn);
    var u := Next(s, a).value;
    var rest := ImmediateEnd(Next(u, b).value);
    StepThenEnds(u, b, EndTurn, rest);
    StepThenEnds(s, a, EndTurn, [b] + rest);
    more := [a] + ([b] + rest);
  }

  lemma EndAfterWait(s: State) returns (more: seq<Action>)
    requires ProtocolInv(s.protocol, s.table) && s.protocol.orch.Waiting?
    ensures Ends(s, EndTurn, more)
  {
    var work := WaitCanReturn(s);
    var first := work + [Orchestrate(WaitReturns)];
    Machines.StepAfter(Next, s, work, Orchestrate(WaitReturns));
    var rest := EndAfterJoin(RunFrom(s, first).value);
    EndsLater(s, first, EndTurn, rest);
    more := first + rest;
  }

  lemma EndAfterReply(s: State) returns (more: seq<Action>)
    requires ProtocolInv(s.protocol, s.table) && s.protocol.orch.Thinking?
    ensures Ends(s, EndTurn, more)
  {
    if s.protocol.slot.pending <= 0 {
      more := ImmediateEnd(s);
    } else {
      ReplyEntersWait(s);
      RunKeepsProtocol(s, ENTERING);
      var rest := EndAfterWait(RunFrom(s, ENTERING).value);
      EndsLater(s, ENTERING, EndTurn, rest);
      more := ENTERING + rest;
    }
  }

  const ENTERING: seq<Action> := [Orchestrate(EndTurnReply), Orchestrate(ReadPending), Orchestrate(EnterWait)]

  /** With somebody pending an `end_turn` reply leads to the wait. */
  lemma ReplyEntersWait(s: State)
    requires s.protocol.orch.Thinking? && s.protocol.slot.pending > 0
    ensures RunFrom(s, ENTERING) == Some(s.(protocol := s.protocol.(orch := Waiting(s.protocol.slot.wg))))
  {
    Machines.ThreeSteps(Next, s, ENTERING[0], ENTERING[1], ENTERING[2]);
  }

  /** From every reachable state in which the model's reply is awaited the run can come to each of
      its three ends, and whichever it is, it pushes both terminal signals: on `end_turn`, on
      another stop reason, and on an error. */
  lemma EveryRunCanEnd(acts: seq<Action>, exit: Exit)
    requires After(acts).Some? && After(acts).value.protocol.orch.Thinking?
    ensures exists more :: Ends(After(acts).value, exit, more)
  {
    EveryReachableStateIsConsistent(acts);
    var more;
    if exit == EndTurn {
      more := EndAfterReply(After(acts).value);
    } else {
      more := UncleanEnd(After(acts).value, exit);
    }
  }

  /** A run can start whenever none is active; one whose context is gone ends at once, with its
      signals but without having started. */
  lemma RunCanStart(s: State)
    requires s.protocol.orch.Idle?
    ensures Next(s, Orchestrate(StartRun(true))) ==
            Some(s.(protocol := s.protocol.(orch := Thinking), hub := Pushed(s.hub, AgentStart)))
    ensures var t := Next(s, Orchestrate(StartRun(false)));
            t.Some? && t.value.hub == s.hub && Ends(t.value, Failed, SIGNALS)
  {
    EndingEnds(Next(s, Orchestrate(StartRun(false))).value);
  }

  /** A failed write of the subagents' report ends the run, too. */
  lemma RefusedReportEnds(s: State)
    requires s.protocol.orch.FannedIn?
    ensures Next(s, Orchestrate(RunFails)).Some? && Ends(Next(s, Orchestrate(RunFails)).value, Failed, SIGNALS)
  {
    EndingEnds(Next(s, Orchestrate(RunFails)).value);
  }

  /** A call of `dispatch_to_agent` writes a running row under a fresh id, adds the subagent to the
      registry and launches it, and the orchestrator goes on. */
  lemma DispatchLaunches(s: State, t: ThreadId)
    requires s.protocol.orch.Thinking? && t !in s.table.threads
    ensures var u := RunFrom(s, [Orchestrate(InsertThread(t)), Orchestrate(AddDispatch(t)), Orchestrate(Launch)]);
            && u.Some? && u.value.protocol.orch == Thinking && u.value.hub == s.hub
            && u.value.table == s.table.(threads := s.table.threads[t := ThreadStatus.Running])
            && t in u.value.protocol.agents && u.value.protocol.agents[t] == Streaming
            && u.value.protocol.slot.pending == s.protocol.slot.pending + 1
  {
    Machines.ThreeSteps(Next, s, Orchestrate(InsertThread(t)), Orchestrate(AddDispatch(t)), Orchestrate(Launch));
  }

  /** A subagent's turn may end with any output and any error; its row and its event show it. */
  lemma SubAgentReports(s: State, t: ThreadId, r: SubAgentResult)
    requires t in s.protocol.agents && s.protocol.agents[t].Streaming? && r.thread == t && t in s.table.threads
    ensures var u := RunFrom(s, [Work(t, AgentSettles(r)), Work(t, WriteStatus(r, true)), Work(t, Announce(r))]);
            && u.Some? && u.value.protocol.agents[t] == Announced(r)
            && u.value.table.threads == s.table.threads[t := if r.err.Some? then ThreadStatus.Error else ThreadStatus.Done]
            && u.value.hub == Pushed(s.hub, StatusChanged(t, if r.err.Some? then ThreadStatus.Error else ThreadStatus.Done))
  {
    Machines.ThreeSteps(Next, s, Work(t, AgentSettles(r)), Work(t, WriteStatus(r, true)), Work(t, Announce(r)));
  }
}
