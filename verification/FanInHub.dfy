/** The fan-in protocol over the hub whose drain loop is taken apart: a push occupies its goroutine
    from the moment it holds the hub's mutex to the final send, and other goroutines, the stream
    reader among them, move in between. */
module FanInHub {
  import opened Wrappers
  import Machines
  import opened EventHub
  import opened DispatchRegistry
  import opened FanIn
  import opened FanInProofs
  import FanInTheorems
  import Hub = HubInterleaving

  /** `pushing` is the step whose event is being pushed by the goroutine that holds the mutex. */
  datatype Whole = Whole(protocol: Protocol, table: Table, hub: Hub.State, pushing: Option<Action>)

  datatype Move =
    | Quiet(a: Action)      // a step that pushes nothing
    | Begin(a: Action)      // the push of a step's event takes the mutex
    | Drain(h: Hub.Action)  // one half of a turn of the drain loop
    | Finish                // the send, and with it the step
    | Read
    | Close

  const START := Whole(FanIn.START.protocol, FanIn.START.table, Hub.START, None)

  /** Two steps of one goroutine. */
  predicate SameGoroutine(a: Action, b: Action) {
    (a.Orchestrate? && b.Orchestrate?) || (a.Work? && b.Work? && a.t == b.t)
  }

  /** The goroutine of the step is not in the middle of a push. */
  predicate IsFree(s: Whole, a: Action) {
    s.pushing.Some? ==> !SameGoroutine(s.pushing.value, a)
  }

  /** The step, apart from its event. */
  function Performed(s: Whole, a: Action): Option<Whole> {
    var p, d := ProtocolNext(s.protocol, a), TableNext(s.table, a);
    if p.Some? && d.Some? then Some(s.(protocol := p.value, table := d.value)) else None
  }

  function WithHub(s: Whole, hub: Option<Hub.State>): Option<Whole> {
    if hub.None? then None else Some(s.(hub := hub.value))
  }

  function Next(s: Whole, m: Move): Option<Whole> {
    match m
    case Quiet(a) =>
      if Emits(a).Some? || a.ReadEvent? || !IsFree(s, a) then None else Performed(s, a)
    case Begin(a) =>
      if Emits(a).None? || !IsFree(s, a) || Performed(s, a).None? then None
      else
        var hub := Hub.Next(s.hub, Hub.Begin(Emits(a).value));
        if hub.None? then None
        else if s.hub.closed then Performed(s, a)
        else Some(s.(hub := hub.value, pushing := Some(a)))
    case Drain(h) =>
      if !h.Test? && !h.Take? then None else WithHub(s, Hub.Next(s.hub, h))
    case Finish =>
      var hub := Hub.Next(s.hub, Hub.Send);
      if hub.None? || s.pushing.None? || Performed(s, s.pushing.value).None? then None
      else Some(Performed(s, s.pushing.value).value.(hub := hub.value, pushing := None))
    case Read => WithHub(s, Hub.Next(s.hub, Hub.Read))
    case Close => WithHub(s, Hub.Next(s.hub, Hub.Close))
  }

  function RunFrom(s: Whole, moves: seq<Move>): Option<Whole> {
    Machines.Run(Next, s, moves)
  }

  function After(moves: seq<Move>): Option<Whole> {
    RunFrom(START, moves)
  }

  // ---- The invariant ----------------------------------------------------------

  /** The hub's pusher is the goroutine in the middle of a push, and its step is still its turn. */
  ghost predicate PushInv(s: Whole) {
    && (s.pushing.Some? <==> !s.hub.pusher.Free?)
    && (s.pushing.Some? ==> Emits(s.pushing.value).Some? && Performed(s, s.pushing.value).Some?)
  }

  ghost predicate WholeInv(s: Whole) {
    ProtocolInv(s.protocol, s.table) && Hub.Inv(s.hub) && PushInv(s)
  }

  lemma PerformedKeepsInv(s: Whole, a: Action)
    requires ProtocolInv(s.protocol, s.table) && Performed(s, a).Some?
    ensures ProtocolInv(Performed(s, a).value.protocol, Performed(s, a).value.table)
  {
    StepKeepsProtocol(s.protocol, a);
    StepKeepsRows(s.protocol, s.table, a);
  }

  /** A goroutine in the middle of a push keeps its turn while others move. */
  lemma TurnIsKept(s: Whole, a: Action, b: Action)
    requires Control(s.protocol) && Rows(s.protocol, s.table)
    requires Emits(a).Some? && Performed(s, a).Some?
    requires Performed(s, b).Some? && !SameGoroutine(a, b)
    ensures Performed(Performed(s, b).value, a).Some?
  {
  }

  lemma MoveKeepsInv(s: Whole, m: Move)
    requires WholeInv(s) && Next(s, m).Some?
    ensures WholeInv(Next(s, m).value)
  {
    match m
    case Quiet(a) =>
      PerformedKeepsInv(s, a);
      if s.pushing.Some? { TurnIsKept(s, s.pushing.value, a); }
    case Begin(a) =>
      PerformedKeepsInv(s, a);
      Hub.NextKeepsInv(s.hub, Hub.Begin(Emits(a).value));
    case Drain(h) => Hub.NextKeepsInv(s.hub, h);
    case Finish =>
      PerformedKeepsInv(s, s.pushing.value);
      Hub.NextKeepsInv(s.hub, Hub.Send);
    case Read => Hub.NextKeepsInv(s.hub, Hub.Read);
    case Close => Hub.NextKeepsInv(s.hub, Hub.Close);
  }

  lemma {:induction false} RunKeepsInv(s: Whole, moves: seq<Move>)
    requires WholeInv(s) && RunFrom(s, moves).Some?
    ensures WholeInv(RunFrom(s, moves).value)
  {
    if moves != [] {
      RunKeepsInv(s, moves[..|moves| - 1]);
      MoveKeepsInv(RunFrom(s, moves[..|moves| - 1]).value, moves[|moves| - 1]);
    }
  }

  lemma EveryReachableStateIsConsistent(moves: seq<Move>)
    requires After(moves).Some?
    ensures WholeInv(After(moves).value)
  {
    Hub.StartInv();
    RunKeepsInv(START, moves);
  }

  // ---- When the wait hangs ----------------------------------------------------

  /** The pusher waits for an event that only a pusher could send. */
  predicate HubIsStuck(hub: Hub.State) {
    hub.pusher.Taking? && hub.buffer == []
  }

  const WAIT_RETURNS := Quiet(Orchestrate(WaitReturns))

  ghost predicate LetsWaitReturn(s: Whole, more: seq<Move>) {
    RunFrom(s, more + [WAIT_RETURNS]).Some?
  }

  /** With the hub stuck in the push of a subagent, the orchestrator waits for that subagent. */
  ghost predicate Hung(s: Whole) {
    && WholeInv(s) && HubIsStuck(s.hub) && s.protocol.orch.Waiting?
    && s.pushing.Some? && s.pushing.value.Work?
  }

  lemma HungStays(s: Whole, m: Move)
    requires Hung(s) && Next(s, m).Some?
    ensures m != WAIT_RETURNS && Hung(Next(s, m).value)
  {
    MoveKeepsInv(s, m);
    var t := s.pushing.value.t;
    assert t in Live(s.protocol);
    if m.Quiet? {
      QuietWhileWaiting(s.protocol, m.a);
    }
  }

  lemma QuietWhileWaiting(p: Protocol, a: Action)
    requires Counts(p) && Control(p) && p.orch.Waiting? && Live(p) != {} && ProtocolNext(p, a).Some?
    ensures a != Orchestrate(WaitReturns) && ProtocolNext(p, a).value.orch == p.orch
  {
    assert |Live(p)| > 0;
  }

  lemma {:induction false} HungForEver(s: Whole, more: seq<Move>)
    requires Hung(s) && RunFrom(s, more).Some?
    ensures Hung(RunFrom(s, more).value) && !LetsWaitReturn(s, more)
  {
    if more != [] {
      HungForEver(s, more[..|more| - 1]);
      HungStays(RunFrom(s, more[..|more| - 1]).value, more[|more| - 1]);
    }
    Machines.StepAfter(Next, s, more, WAIT_RETURNS);
    var t := RunFrom(s, more).value;
    if Next(t, WAIT_RETURNS).Some? {
      HungStays(t, WAIT_RETURNS);
    }
  }

  // ---- When it does not -------------------------------------------------------

  lemma MovesOn(s: Whole, m: Move, rest: seq<Move>)
    requires Next(s, m).Some?
    ensures RunFrom(s, [m] + rest) == RunFrom(Next(s, m).value, rest)
  {
    Machines.OneStep(Next, s, m);
    Machines.RunAppend(Next, s, [m], rest);
  }

  /** How many halves of turns the drain loop still takes. */
  function TurnsLeft(hub: Hub.State): nat {
    match hub.pusher
    case Draining(_) => 2 * |hub.buffer| + 1
    case Taking(_) => 2 * |hub.buffer|
    case _ => 0
  }

  /** A push that is not stuck can be brought to its end. */
  lemma {:induction false} PushCanFinish(s: Whole) returns (more: seq<Move>)
    requires WholeInv(s) && s.pushing.Some? && !HubIsStuck(s.hub)
    ensures var t := RunFrom(s, more);
            && t.Some? && WholeInv(t.value) && t.value.pushing.None?
            && Some(t.value.protocol) == ProtocolNext(s.protocol, s.pushing.value)
            && Some(t.value.table) == TableNext(s.table, s.pushing.value)
    decreases TurnsLeft(s.hub)
  {
    var m := if s.hub.pusher.Sending? then Finish
             else if s.hub.pusher.Draining? then Drain(Hub.Test) else Drain(Hub.Take);
    MoveKeepsInv(s, m);
    if m.Finish? {
      more := [m];
      Machines.OneStep(Next, s, m);
    } else {
      var rest := PushCanFinish(Next(s, m).value);
      MovesOn(s, m, rest);
      more := [m] + rest;
    }
  }

  /** A step of a subagent, push and all, with nobody else moving. */
  lemma WorkCanBeDone(s: Whole, a: Action) returns (more: seq<Move>)
    requires WholeInv(s) && s.pushing.None? && a.Work? && Performed(s, a).Some?
    ensures var t := RunFrom(s, more);
            && t.Some? && WholeInv(t.value) && t.value.pushing.None?
            && Some(t.value.protocol) == ProtocolNext(s.protocol, a)
            && Some(t.value.table) == TableNext(s.table, a)
  {
    var m := if Emits(a).Some? then Begin(a) else Quiet(a);
    MoveKeepsInv(s, m);
    if m.Quiet? || s.hub.closed {
      more := [m];
      Machines.OneStep(Next, s, m);
    } else {
      var rest := PushCanFinish(Next(s, m).value);
      MovesOn(s, m, rest);
      more := [m] + rest;
    }
  }

  /** Any run of subagents in the machine with the atomic hub can be played here. */
  lemma {:induction false} WorkCanBePlayed(s: Whole, f: State, acts: seq<Action>) returns (more: seq<Move>)
    requires WholeInv(s) && s.pushing.None? && s.protocol == f.protocol && s.table == f.table
    requires FanInTheorems.OnlyWork(acts) && FanIn.RunFrom(f, acts).Some?
    ensures var t, g := RunFrom(s, more), FanIn.RunFrom(f, acts).value;
            && t.Some? && WholeInv(t.value) && t.value.pushing.None?
            && t.value.protocol == g.protocol && t.value.table == g.table
  {
    more := [];
    if acts != [] {
      var front, a := acts[..|acts| - 1], acts[|acts| - 1];
      var before := WorkCanBePlayed(s, f, front);
      var t := RunFrom(s, before).value;
      var last := WorkCanBeDone(t, a);
      Machines.RunAppend(Next, s, before, last);
      more := before + last;
    }
  }

  lemma WaitCanReturn(s: Whole) returns (more: seq<Move>)
    requires WholeInv(s) && s.protocol.orch.Waiting? && s.pushing.None?
    ensures LetsWaitReturn(s, more)
  {
    var f := State(s.protocol, s.table, EMPTY);
    var acts := FanInTheorems.WaitCanReturn(f);
    Machines.StepAfter(FanIn.Next, f, acts, Orchestrate(WaitReturns));
    more := WorkCanBePlayed(s, f, acts);
    Machines.StepAfter(Next, s, more, WAIT_RETURNS);
  }

  /** The orchestrator pushes nothing while it waits, so it is a subagent that is pushing. */
  lemma SubAgentIsPushing(s: Whole)
    requires PushInv(s) && s.protocol.orch.Waiting? && s.pushing.Some?
    ensures s.pushing.value.Work? && ProtocolNext(s.protocol, s.pushing.value).value.orch == s.protocol.orch
  {
  }

  lemma UnstuckWaitReturns(s: Whole) returns (more: seq<Move>)
    requires WholeInv(s) && s.protocol.orch.Waiting? && !HubIsStuck(s.hub)
    ensures LetsWaitReturn(s, more)
  {
    if s.pushing.None? {
      more := WaitCanReturn(s);
    } else {
      SubAgentIsPushing(s);
      var first := PushCanFinish(s);
      var t := RunFrom(s, first).value;
      var rest := WaitCanReturn(t);
      more := first + rest;
      assert more + [WAIT_RETURNS] == first + (rest + [WAIT_RETURNS]);
      Machines.RunAppend(Next, s, first, rest + [WAIT_RETURNS]);
    }
  }

  /** Fan-in hangs exactly when the hub is stuck: a waiting orchestrator can go on in some
      continuation unless a reader has taken the last event between the loop test and the receive
      of a subagent's push. */
  lemma {:induction false} FanInHangsExactly(moves: seq<Move>)
    requires After(moves).Some? && After(moves).value.protocol.orch.Waiting?
    ensures (forall more :: !LetsWaitReturn(After(moves).value, more)) <==> HubIsStuck(After(moves).value.hub)
  {
    EveryReachableStateIsConsistent(moves);
    HangsExactly(After(moves).value);
  }

  lemma HangsExactly(s: Whole)
    requires WholeInv(s) && s.protocol.orch.Waiting?
    ensures (forall more :: !LetsWaitReturn(s, more)) <==> HubIsStuck(s.hub)
  {
    if HubIsStuck(s.hub) {
      SubAgentIsPushing(s);
      forall more
        ensures !LetsWaitReturn(s, more)
      {
        if RunFrom(s, more).Some? {
          HungForEver(s, more);
        } else {
          Machines.StepAfter(Next, s, more, WAIT_RETURNS);
        }
      }
    } else {
      var more := UnstuckWaitReturns(s);
    }
  }

  // ---- The last signal --------------------------------------------------------

  function Delivered(hub: Hub.State): seq<Event> {
    hub.received + hub.buffer
  }

  /** Between two pushes the last event pushed is the last one delivered. */
  ghost predicate LastIsDelivered(hub: Hub.State) {
    hub.pusher.Free? && hub.pushed != [] ==> Delivered(hub) != [] && Last(Delivered(hub)) == Last(hub.pushed)
  }

  /** An open hub has been pushed what the orchestrator's position implies, and a push in progress is
      of its step's event. */
  ghost predicate SignalInv(s: Whole) {
    && (!s.hub.closed ==> LastPush(s.protocol.orch, s.hub.pushed))
    && (s.pushing.Some? && !s.hub.pusher.Free? ==> Emits(s.pushing.value) == Some(s.hub.pusher.e))
  }

  lemma HubStepKeepsLast(hub: Hub.State, h: Hub.Action)
    requires Hub.Next(hub, h).Some? && LastIsDelivered(hub)
    ensures LastIsDelivered(Hub.Next(hub, h).value)
  {
    if h.Read? {
      assert Delivered(Hub.Next(hub, h).value) == Delivered(hub);
    }
  }

  lemma MoveKeepsDelivered(s: Whole, m: Move)
    requires LastIsDelivered(s.hub) && Next(s, m).Some?
    ensures LastIsDelivered(Next(s, m).value.hub)
  {
    match m
    case Quiet(_) =>
    case Begin(a) => HubStepKeepsLast(s.hub, Hub.Begin(Emits(a).value));
    case Drain(h) => HubStepKeepsLast(s.hub, h);
    case Finish => HubStepKeepsLast(s.hub, Hub.Send);
    case Read => HubStepKeepsLast(s.hub, Hub.Read);
    case Close => HubStepKeepsLast(s.hub, Hub.Close);
  }

  /** Of the hub's own steps only the send pushes, and none opens a closed hub. */
  lemma HubStepPushes(hub: Hub.State, h: Hub.Action)
    requires Hub.Next(hub, h).Some?
    ensures var after := Hub.Next(hub, h).value;
            && after.pushed == (if h.Send? then hub.pushed + [hub.pusher.e] else hub.pushed)
            && (hub.closed ==> after.closed)
            && (!h.Begin? && !after.pusher.Free? ==> !hub.pusher.Free? && after.pusher.e == hub.pusher.e)
  {
  }

  /** A step that is performed, with or without its event. */
  lemma PerformedKeepsSignal(s: Whole, a: Action, after: seq<Event>)
    requires Control(s.protocol) && LastPush(s.protocol.orch, s.hub.pushed) && Performed(s, a).Some?
    requires after == match Emits(a) case None => s.hub.pushed case Some(e) => s.hub.pushed + [e]
    ensures LastPush(Performed(s, a).value.protocol.orch, after)
  {
    StepKeepsLastPush(s.protocol, s.hub.pushed, a, after);
  }

  lemma MoveKeepsSignal(s: Whole, m: Move)
    requires Control(s.protocol) && PushInv(s) && SignalInv(s) && Next(s, m).Some?
    ensures SignalInv(Next(s, m).value)
  {
    match m
    case Quiet(a) =>
      if !s.hub.closed { PerformedKeepsSignal(s, a, s.hub.pushed); }
    case Begin(a) => HubStepPushes(s.hub, Hub.Begin(Emits(a).value));
    case Drain(h) => HubStepPushes(s.hub, h);
    case Finish =>
      HubStepPushes(s.hub, Hub.Send);
      if !s.hub.closed { PerformedKeepsSignal(s, s.pushing.value, s.hub.pushed + [s.hub.pusher.e]); }
    case Read => HubStepPushes(s.hub, Hub.Read);
    case Close => HubStepPushes(s.hub, Hub.Close);
  }

  lemma {:induction false} RunKeepsSignal(moves: seq<Move>)
    requires After(moves).Some?
    ensures WholeInv(After(moves).value) && LastIsDelivered(After(moves).value.hub) && SignalInv(After(moves).value)
  {
    if moves == [] {
      Hub.StartInv();
    } else {
      RunKeepsSignal(moves[..|moves| - 1]);
      var before := After(moves[..|moves| - 1]).value;
      MoveKeepsInv(before, moves[|moves| - 1]);
      MoveKeepsDelivered(before, moves[|moves| - 1]);
      MoveKeepsSignal(before, moves[|moves| - 1]);
    }
  }

  /** Over the two-step drain, too: when a run has ended on `end_turn` and the hub is open, nobody is
      pushing, `queue_drained` is the last event pushed, and it is the last one queued or received. */
  lemma CleanEndDelivers(moves: seq<Move>)
    requires After(moves).Some? && After(moves).value.protocol.orch == Idle(Some(EndTurn))
    requires !After(moves).value.hub.closed
    ensures var s := After(moves).value;
            && (s.pushing.Some? ==> s.pushing.value == Orchestrate(StartRun(true)))
            && s.hub.pushed != [] && Last(s.hub.pushed) == QueueDrained
            && (s.pushing.None? ==> Delivered(s.hub) != [] && Last(Delivered(s.hub)) == QueueDrained)
  {
    RunKeepsSignal(moves);
    if After(moves).value.pushing.Some? {
      OnlyPushersPush(After(moves).value);
    }
  }

  lemma OnlyPushersPush(s: Whole)
    requires PushInv(s) && s.protocol.orch.Idle? && s.pushing.Some?
    ensures s.pushing.value == Orchestrate(StartRun(true)) || (s.pushing.value.Work? && s.pushing.value.t in Pushers(s.protocol))
  {
  }

  // ---- A hang is reached ------------------------------------------------------

  /** Steps of the drain loop, as moves. */
  function Drains(hs: seq<Hub.Action>): seq<Move> {
    seq(|hs|, i requires 0 <= i < |hs| => Drain(hs[i]))
  }

  lemma {:induction false} DrainsRun(s: Whole, hs: seq<Hub.Action>)
    requires forall h :: h in hs ==> h.Test? || h.Take?
    requires Hub.RunFrom(s.hub, hs).Some?
    ensures RunFrom(s, Drains(hs)) == Some(s.(hub := Hub.RunFrom(s.hub, hs).value))
  {
    if hs != [] {
      DrainsRun(s, hs[..|hs| - 1]);
      assert Drains(hs)[..|hs| - 1] == Drains(hs[..|hs| - 1]);
    }
  }

  lemma {:induction false} TurnsAreDrains(n: nat)
    ensures forall h :: h in Hub.Turns(n) ==> h.Test? || h.Take?
  {
    if n > 0 {
      TurnsAreDrains(n - 1);
    }
  }

  /** A push into a full hub can get stuck. */
  lemma FullPushSticks(s: Whole, a: Action) returns (more: seq<Move>)
    requires s.pushing.None? && s.hub.pusher.Free? && !s.hub.closed && |s.hub.buffer| == CAPACITY
    requires Emits(a).Some? && Performed(s, a).Some?
    ensures RunFrom(s, more).Some? && RunFrom(s, more).value.protocol == s.protocol
    ensures HubIsStuck(RunFrom(s, more).value.hub)
  {
    var e := Emits(a).value;
    var begun := s.(hub := s.hub.(pusher := Hub.Draining(e)), pushing := Some(a));
    assert Next(s, Begin(a)) == Some(begun);
    var n := CAPACITY - 1;
    Hub.TurnsRun(e, begun.hub, n);
    TurnsAreDrains(n);
    DrainsRun(begun, Hub.Turns(n));
    var left := RunFrom(begun, Drains(Hub.Turns(n))).value;
    OneLeftSticks(left);
    Machines.RunAppend(Next, begun, Drains(Hub.Turns(n)), [Drain(Hub.Test), Read]);
    MovesOn(s, Begin(a), Drains(Hub.Turns(n)) + [Drain(Hub.Test), Read]);
    more := [Begin(a)] + (Drains(Hub.Turns(n)) + [Drain(Hub.Test), Read]);
  }

  lemma OneLeftSticks(s: Whole)
    requires s.hub.pusher.Draining? && |s.hub.buffer| == 1
    ensures var t := RunFrom(s, [Drain(Hub.Test), Read]);
            t.Some? && t.value.protocol == s.protocol && HubIsStuck(t.value.hub)
  {
    Machines.TwoSteps(Next, s, Drain(Hub.Test), Read);
  }

  /** `n` whole pushes of one step. */
  function Pushes(a: Action, n: nat): seq<Move> {
    if n == 0 then [] else Pushes(a, n - 1) + [Begin(a), Finish]
  }

  /** A subagent's streaming fills the hub and changes nothing else. */
  lemma {:induction false} StreamingFills(s: Whole, t: ThreadId, e: Event, n: nat)
    requires t in s.protocol.agents && s.protocol.agents[t].Streaming? && e.BlockDelta?
    requires s.pushing.None? && s.hub.pusher.Free? && !s.hub.closed && |s.hub.buffer| + n <= CAPACITY
    ensures var u := RunFrom(s, Pushes(Work(t, AgentStreams(e)), n));
            && u.Some? && u.value.protocol == s.protocol && u.value.table == s.table && u.value.pushing.None?
            && u.value.hub.pusher.Free? && !u.value.hub.closed && |u.value.hub.buffer| == |s.hub.buffer| + n
  {
    if n > 0 {
      var a := Work(t, AgentStreams(e));
      StreamingFills(s, t, e, n - 1);
      var u := RunFrom(s, Pushes(a, n - 1)).value;
      PushIsDone(u, a);
      Machines.RunAppend(Next, s, Pushes(a, n - 1), [Begin(a), Finish]);
    }
  }

  lemma PushIsDone(s: Whole, a: Action)
    requires s.pushing.None? && s.hub.pusher.Free? && !s.hub.closed && |s.hub.buffer| < CAPACITY
    requires Emits(a).Some? && Performed(s, a).Some?
    ensures RunFrom(s, [Begin(a), Finish]) ==
            Some(Performed(s, a).value.(hub := s.hub.(buffer := s.hub.buffer + [Emits(a).value],
                                                      pushed := s.hub.pushed + [Emits(a).value])))
  {
    Machines.TwoSteps(Next, s, Begin(a), Finish);
  }

  /** One subagent dispatched and streaming, and the orchestrator waiting for it. */
  const WAITING := Protocol(Waiting(Some(0)), map[0 := Streaming], Slot(1, Some(0), []), map[0 := 1], 1)

  const DISPATCHING: seq<Move> := [
    Quiet(Orchestrate(InsertThread(0))), Quiet(Orchestrate(AddDispatch(0))), Quiet(Orchestrate(Launch))]
  const JOINING: seq<Move> := [
    Quiet(Orchestrate(EndTurnReply)), Quiet(Orchestrate(ReadPending)), Quiet(Orchestrate(EnterWait))]

  lemma DispatchingRuns(s: Whole)
    requires s.pushing.None? && s.protocol == FanIn.START.protocol.(orch := Thinking) && s.table == FanIn.START.table
    ensures var t := RunFrom(s, DISPATCHING);
            && t.Some? && t.value.protocol == WAITING.(orch := Thinking) && t.value.pushing.None? && t.value.hub == s.hub
  {
    var s1 := Next(s, DISPATCHING[0]).value;
    var s2 := Next(s1, DISPATCHING[1]).value;
    var s3 := Next(s2, DISPATCHING[2]).value;
    assert s3.protocol.agents == map[0 := Streaming] && s3.protocol.groups == map[0 := 1];
    Machines.ThreeSteps(Next, s, DISPATCHING[0], DISPATCHING[1], DISPATCHING[2]);
  }

  lemma JoiningRuns(s: Whole)
    requires s.pushing.None? && s.protocol == WAITING.(orch := Thinking)
    ensures RunFrom(s, JOINING) == Some(s.(protocol := WAITING))
  {
    var s1 := s.(protocol := WAITING.(orch := Checking));
    assert Next(s, JOINING[0]) == Some(s1);
    var s2 := s.(protocol := WAITING.(orch := Joining));
    assert Next(s1, JOINING[1]) == Some(s2);
    Machines.ThreeSteps(Next, s, JOINING[0], JOINING[1], JOINING[2]);
  }

  lemma WaitingIsReached() returns (moves: seq<Move>)
    ensures After(moves).Some?
    ensures var s := After(moves).value;
            s.protocol == WAITING && s.pushing.None? && s.hub.pusher.Free? && !s.hub.closed && |s.hub.buffer| == 1
  {
    var a := Orchestrate(StartRun(true));
    PushIsDone(START, a);
    var begun := RunFrom(START, [Begin(a), Finish]).value;
    DispatchingRuns(begun);
    JoiningRuns(RunFrom(begun, DISPATCHING).value);
    Machines.RunAppend(Next, START, [Begin(a), Finish], DISPATCHING);
    Machines.RunAppend(Next, START, [Begin(a), Finish] + DISPATCHING, JOINING);
    moves := [Begin(a), Finish] + DISPATCHING + JOINING;
  }

  /** A chatty subagent, a reader that takes one event at the wrong moment, and the run never ends. */
  lemma FanInCanHang(e: Event)
    requires e.BlockDelta?
    ensures exists moves :: && After(moves).Some? && After(moves).value.protocol.orch.Waiting?
                            && forall more :: !LetsWaitReturn(After(moves).value, more)
  {
    var a := Work(0, AgentStreams(e));
    var first := WaitingIsReached();
    var s := After(first).value;
    StreamingFills(s, 0, e, CAPACITY - 1);
    var second := Pushes(a, CAPACITY - 1);
    var full := RunFrom(s, second).value;
    var third := FullPushSticks(full, a);
    Machines.RunAppend(Next, START, first, second);
    Machines.RunAppend(Next, START, first + second, third);
    FanInHangsExactly(first + second + third);
  }
}
