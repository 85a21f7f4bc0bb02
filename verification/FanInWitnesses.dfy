/** Runs in which the runtime does what its comments rule out: a cancelled thread that ends as
    done, a last signal that is overtaken, and a result that its run never fans in. */
module FanInWitnesses {
  import opened Wrappers
  import Machines
  import opened EventHub
  import opened DispatchRegistry
  import opened FanIn
  import opened FanInProofs
  import opened FanInTheorems

  const RESULT := SubAgentResult("writer", 0, "text", None)

  /** One subagent, dispatched in the first run; nobody reads the hub. */
  function Scene(orch: Orchestrator, stage: Stage, slot: Slot<nat>, count: int,
                 status: ThreadStatus, unwritten: set<ThreadId>, pushed: seq<Event>): State {
    State(Protocol(orch, map[0 := stage], slot, map[0 := count], 1),
          Table(map[0 := status], unwritten, {}, {}), HubState(pushed, [], pushed, 0))
  }

  /** A step, part by part. */
  lemma StepIs(s: State, a: Action, t: State)
    requires ProtocolNext(s.protocol, a).Some?
    requires var p := ProtocolNext(s.protocol, a).value;
             && p.orch == t.protocol.orch && p.agents == t.protocol.agents && p.slot == t.protocol.slot
             && p.groups == t.protocol.groups && p.nextGroup == t.protocol.nextGroup
    requires TableNext(s.table, a).Some?
    requires var d := TableNext(s.table, a).value;
             && d.threads == t.table.threads && d.unwritten == t.table.unwritten
             && d.listed == t.table.listed && d.left == t.table.left
    requires HubNext(s.hub, a).Some?
    requires var h := HubNext(s.hub, a).value;
             && h.pushed == t.hub.pushed && h.received == t.hub.received
             && h.buffer == t.hub.buffer && h.drains == t.hub.drains
    ensures Next(s, a) == Some(t)
  {
  }

  const DISPATCHING: seq<Action> := [
    Orchestrate(StartRun(true)), Orchestrate(InsertThread(0)), Orchestrate(AddDispatch(0)), Orchestrate(Launch)]

  const ONE_PENDING := Slot(1, Some(0), [])

  const DISPATCHED := Scene(Thinking, Streaming, ONE_PENDING, 1, Running, {}, [AgentStart])

  lemma DispatchedIsReached()
    ensures After(DISPATCHING) == Some(DISPATCHED)
  {
    var hub := HubState([AgentStart], [], [AgentStart], 0);
    var started := START.(protocol := START.protocol.(orch := Thinking), hub := hub);
    StepIs(START, DISPATCHING[0], started);
    var inserted := State(START.protocol.(orch := RowInserted(0)), Table(map[0 := Running], {}, {}, {}), hub);
    StepIs(started, DISPATCHING[1], inserted);
    var added := Scene(Counted(0), NotLaunched, ONE_PENDING, 1, Running, {}, [AgentStart]);
    StepIs(inserted, DISPATCHING[2], added);
    StepIs(added, DISPATCHING[3], DISPATCHED);
    Machines.ThreeSteps(Next, START, DISPATCHING[0], DISPATCHING[1], DISPATCHING[2]);
    assert DISPATCHING == DISPATCHING[..3] + [DISPATCHING[3]];
    assert DISPATCHING[..3] == [DISPATCHING[0], DISPATCHING[1], DISPATCHING[2]];
    Machines.StepAfter(Next, START, DISPATCHING[..3], DISPATCHING[3]);
  }

  // ---- Cancelled is not final -------------------------------------------------

  const CANCELLED_THEN_DONE: seq<Action> := [CancelElsewhere(0), Work(0, AgentSettles(RESULT)), Work(0, WriteStatus(RESULT, true))]

  /** The thread shows as cancelled while its subagent is still running, and then as done. */
  lemma CancelIsOverwritten()
    ensures After(DISPATCHING + CANCELLED_THEN_DONE[..1]) ==
            Some(Scene(Thinking, Streaming, ONE_PENDING, 1, Cancelled, {}, [AgentStart]))
    ensures After(DISPATCHING + CANCELLED_THEN_DONE) ==
            Some(Scene(Thinking, Recorded(RESULT), ONE_PENDING, 1, Done, {}, [AgentStart]))
  {
    DispatchedIsReached();
    var cancelled := Scene(Thinking, Streaming, ONE_PENDING, 1, Cancelled, {}, [AgentStart]);
    StepIs(DISPATCHED, CANCELLED_THEN_DONE[0], cancelled);
    assert CANCELLED_THEN_DONE[..1] == [CANCELLED_THEN_DONE[0]];
    Machines.StepAfter(Next, START, DISPATCHING, CANCELLED_THEN_DONE[0]);
    var settled := Scene(Thinking, Settled(RESULT), ONE_PENDING, 1, Cancelled, {}, [AgentStart]);
    StepIs(cancelled, CANCELLED_THEN_DONE[1], settled);
    StepIs(settled, CANCELLED_THEN_DONE[2], Scene(Thinking, Recorded(RESULT), ONE_PENDING, 1, Done, {}, [AgentStart]));
    Machines.ThreeSteps(Next, DISPATCHED, CANCELLED_THEN_DONE[0], CANCELLED_THEN_DONE[1], CANCELLED_THEN_DONE[2]);
    Machines.RunAppend(Next, START, DISPATCHING, CANCELLED_THEN_DONE);
  }

  // ---- The last signal is overtaken -------------------------------------------

  const OTHER_END: seq<Action> := [Orchestrate(OtherReply), Orchestrate(SendRoundDone), Orchestrate(SendQueueDrained)]

  const ENDED := Scene(Idle(Some(OtherStop)), Streaming, ONE_PENDING, 1, Running, {}, [AgentStart, RoundDone, QueueDrained])

  lemma EndedIsReached()
    ensures After(DISPATCHING + OTHER_END) == Some(ENDED)
  {
    DispatchedIsReached();
    var ending := Scene(Ending(OtherStop), Streaming, ONE_PENDING, 1, Running, {}, [AgentStart]);
    StepIs(DISPATCHED, OTHER_END[0], ending);
    var ended := Scene(Ended(OtherStop), Streaming, ONE_PENDING, 1, Running, {}, [AgentStart, RoundDone]);
    assert [AgentStart] + [RoundDone] == [AgentStart, RoundDone];
    StepIs(ending, OTHER_END[1], ended);
    assert [AgentStart, RoundDone] + [QueueDrained] == [AgentStart, RoundDone, QueueDrained];
    StepIs(ended, OTHER_END[2], ENDED);
    Machines.ThreeSteps(Next, DISPATCHED, OTHER_END[0], OTHER_END[1], OTHER_END[2]);
    Machines.RunAppend(Next, START, DISPATCHING, OTHER_END);
  }

  /** A run stops for another reason than `end_turn` while its subagent is still streaming. */
  lemma QueueDrainedIsOvertaken()
    ensures After(DISPATCHING + OTHER_END) == Some(ENDED)
    ensures Last(ENDED.hub.pushed) == QueueDrained && exists more :: Overtaken(ENDED, more)
  {
    EndedIsReached();
    EveryReachableStateIsConsistent(DISPATCHING + OTHER_END);
    assert 0 in Pushers(ENDED.protocol);
    OvertakenExactly(ENDED);
  }

  // ---- A result its own run never fans in -------------------------------------

  const REPORTING: seq<Action> := [Work(0, AgentSettles(RESULT)), Work(0, WriteStatus(RESULT, true)), Work(0, Announce(RESULT))]
  const LEAVING: seq<Action> := [Work(0, RecordResult(RESULT)), Orchestrate(EndTurnReply), Orchestrate(ReadPending)]

  const REPORTED := Scene(Thinking, Announced(RESULT), ONE_PENDING, 1, Done, {}, [AgentStart, StatusChanged(0, Done)])

  lemma ReportedIsReached()
    ensures After(DISPATCHING + REPORTING) == Some(REPORTED)
  {
    DispatchedIsReached();
    var settled := Scene(Thinking, Settled(RESULT), ONE_PENDING, 1, Running, {}, [AgentStart]);
    StepIs(DISPATCHED, REPORTING[0], settled);
    var written := Scene(Thinking, Recorded(RESULT), ONE_PENDING, 1, Done, {}, [AgentStart]);
    StepIs(settled, REPORTING[1], written);
    assert [AgentStart] + [StatusChanged(0, Done)] == [AgentStart, StatusChanged(0, Done)];
    StepIs(written, REPORTING[2], REPORTED);
    Machines.ThreeSteps(Next, DISPATCHED, REPORTING[0], REPORTING[1], REPORTING[2]);
    Machines.RunAppend(Next, START, DISPATCHING, REPORTING);
  }

  /** The subagent is quicker than the orchestrator's reply: the run ends with the result still
      in the registry. */
  lemma ResultStaysBehind()
    ensures var s := After((DISPATCHING + REPORTING) + LEAVING);
            s.Some? && s.value.protocol.orch == Ending(EndTurn) && s.value.protocol.slot.outs == [RESULT]
  {
    ReportedIsReached();
    var pushed := [AgentStart, StatusChanged(0, Done)];
    var slot := Slot(0, Some(0), [RESULT]);
    var unlocked := Scene(Thinking, Unlocked(Some(0)), slot, 1, Done, {}, pushed);
    assert [] + [RESULT] == [RESULT];
    StepIs(REPORTED, LEAVING[0], unlocked);
    var checking := Scene(Checking, Unlocked(Some(0)), slot, 1, Done, {}, pushed);
    StepIs(unlocked, LEAVING[1], checking);
    StepIs(checking, LEAVING[2], Scene(Ending(EndTurn), Unlocked(Some(0)), slot, 1, Done, {}, pushed));
    Machines.ThreeSteps(Next, REPORTED, LEAVING[0], LEAVING[1], LEAVING[2]);
    Machines.RunAppend(Next, START, DISPATCHING + REPORTING, LEAVING);
  }
}
