/** Which terminal signals the reader gets, over every run from the moment they are pushed: a
    reader may read and a straggling subagent may push between and after them. */
module TerminalSignals {
  import opened Wrappers
  import Machines
  import opened EventHub
  import opened DispatchRegistry
  import opened FanIn
  import opened FanInProofs
  import opened FanInTheorems
  import FanInWitnesses

  /** What the reader has received and, if it goes on reading, receives next. */
  function Delivered(h: HubState): seq<Event> {
    h.received + h.buffer
  }

  /** The `j`-th event delivered is `e`. */
  predicate Keeps(h: HubState, j: nat, e: Event) {
    j < |Delivered(h)| && Delivered(h)[j] == e
  }

  /** The push of this step finds a full queue that still holds the `j`-th event. */
  predicate DropsUnread(h: HubState, a: Action, j: nat) {
    Emits(a).Some? && |h.buffer| == CAPACITY && |h.received| <= j
  }

  /** Some push of the stretch does. */
  ghost predicate IsDropped(s: State, more: seq<Action>, j: nat) {
    exists i :: 0 <= i < |more| && DropsAt(s, more, j, i)
  }

  predicate DropsAt(s: State, more: seq<Action>, j: nat, i: nat)
    requires i < |more|
  {
    RunFrom(s, more[..i]).Some? && DropsUnread(RunFrom(s, more[..i]).value.hub, more[i], j)
  }

  lemma StepKeepsExactly(h: HubState, a: Action, j: nat, e: Event)
    requires |h.buffer| <= CAPACITY && HubNext(h, a).Some? && Emits(a) != Some(e)
    ensures Keeps(HubNext(h, a).value, j, e) <==> Keeps(h, j, e) && !DropsUnread(h, a, j)
  {
  }

  /** The run has already pushed this signal. */
  predicate IsPast(o: Orchestrator, e: Event) {
    (e == RoundDone && o.Ended?) || (IsTerminal(e) && o.Idle?)
  }

  /** Until the next run, a signal already pushed is not pushed again. */
  lemma SignalIsPast(p: Protocol, a: Action, e: Event)
    requires IsPast(p.orch, e) && !StartsRun(a) && ProtocolNext(p, a).Some?
    ensures Emits(a) != Some(e) && IsPast(ProtocolNext(p, a).value.orch, e)
  {
  }

  lemma {:induction false} StretchKeepsExactly(s: State, more: seq<Action>, j: nat, e: Event)
    requires |s.hub.buffer| <= CAPACITY && IsPast(s.protocol.orch, e) && NoRunStarts(more) && RunFrom(s, more).Some?
    ensures var t := RunFrom(s, more).value;
            && |t.hub.buffer| <= CAPACITY && IsPast(t.protocol.orch, e)
            && (Keeps(t.hub, j, e) <==> Keeps(s.hub, j, e) && !IsDropped(s, more, j))
  {
    if more != [] {
      var n := |more| - 1;
      var front, a := more[..n], more[n];
      StretchKeepsExactly(s, front, j, e);
      var u := RunFrom(s, front).value;
      SignalIsPast(u.protocol, a, e);
      HubStepPushes(u.hub, a);
      StepKeepsExactly(u.hub, a, j, e);
      LastDrop(s, more, j);
    }
  }

  lemma LastDrop(s: State, more: seq<Action>, j: nat)
    requires more != [] && RunFrom(s, more[..|more| - 1]).Some?
    ensures IsDropped(s, more, j) <==>
            IsDropped(s, more[..|more| - 1], j) || DropsUnread(RunFrom(s, more[..|more| - 1]).value.hub, more[|more| - 1], j)
  {
    var front := more[..|more| - 1];
    forall i | 0 <= i < |front|
      ensures DropsAt(s, more, j, i) <==> DropsAt(s, front, j, i)
    {
      assert more[..i] == front[..i];
    }
    assert DropsAt(s, more, j, |front|) <==> DropsUnread(RunFrom(s, front).value.hub, more[|front|], j);
  }

  lemma PushedIsDelivered(h: HubState, e: Event)
    ensures var g := Pushed(h, e); Delivered(g) != [] && Last(Delivered(g)) == e
  {
  }

  /** The step that pushes a terminal signal. */
  function Sends(e: Event): Action
    requires IsTerminal(e)
  {
    Orchestrate(if e == RoundDone then SendRoundDone else SendQueueDrained)
  }

  /** However a run ends, each of its two terminal signals reaches the reader, in every stretch from
      its push on and before the next run starts, exactly if no push of that stretch finds 256
      events queued while the signal is unread. */
  lemma {:induction false} SignalArrivesExactly(acts: seq<Action>, e: Event, more: seq<Action>)
    requires IsTerminal(e) && After(acts + [Sends(e)]).Some?
    requires NoRunStarts(more) && RunFrom(After(acts + [Sends(e)]).value, more).Some?
    ensures var s := After(acts + [Sends(e)]).value;
            && Delivered(s.hub) != [] && Last(Delivered(s.hub)) == e
            && var j := |Delivered(s.hub)| - 1;
               (Keeps(RunFrom(s, more).value.hub, j, e) <==> !IsDropped(s, more, j))
  {
    Machines.StepAfter(Next, FanIn.START, acts, Sends(e));
    EveryReachableStateIsConsistent(acts + [Sends(e)]);
    var before, s := After(acts).value, After(acts + [Sends(e)]).value;
    SendPushes(before, e);
    StretchKeepsExactly(s, more, |Delivered(s.hub)| - 1, e);
  }

  lemma SendPushes(s: State, e: Event)
    requires IsTerminal(e) && Next(s, Sends(e)).Some?
    ensures Next(s, Sends(e)).value.hub == Pushed(s.hub, e) && IsPast(Next(s, Sends(e)).value.protocol.orch, e)
    ensures Delivered(Pushed(s.hub, e)) != [] && Last(Delivered(Pushed(s.hub, e))) == e
  {
    PushedIsDelivered(s.hub, e);
  }

  /** A clean end: only the reader moves between the two signals, so whether `round_done` arrives is
      decided when `queue_drained` is pushed. With room in the queue everything unread and then
      `queue_drained` arrive; in a full queue `queue_drained` replaces all of it, `round_done` too. */
  lemma CleanPairExactly(acts: seq<Action>)
    requires After(acts).Some? && After(acts).value.protocol.orch == Ended(EndTurn)
    ensures var h := After(acts).value.hub;
            var g := Next(After(acts).value, Orchestrate(SendQueueDrained));
            && g.Some? && Delivered(h) != [] && Last(Delivered(h)) == RoundDone
            && (Delivered(g.value.hub) == Delivered(h) + [QueueDrained] <==> |h.buffer| < 256)
            && (|h.buffer| == 256 ==>
                  Last(h.buffer) == RoundDone && Delivered(g.value.hub) == h.received + [QueueDrained])
  {
    EveryReachableStateIsConsistent(acts);
    CleanPair(After(acts).value);
  }

  lemma CleanPair(s: State)
    requires HubInv(s.hub) && LastPush(s.protocol.orch, s.hub.pushed) && s.protocol.orch == Ended(EndTurn)
    ensures var h := s.hub;
            var g := Next(s, Orchestrate(SendQueueDrained));
            && g.Some? && Delivered(h) != [] && Last(Delivered(h)) == RoundDone
            && (Delivered(g.value.hub) == Delivered(h) + [QueueDrained] <==> |h.buffer| < CAPACITY)
            && (|h.buffer| == CAPACITY ==>
                  Last(h.buffer) == RoundDone && Delivered(g.value.hub) == h.received + [QueueDrained])
  {
    var h := s.hub;
    var g := Pushed(h, QueueDrained);
    assert Next(s, Orchestrate(SendQueueDrained)).value.hub == g;
    if |h.buffer| < CAPACITY {
      assert Delivered(g) == Delivered(h) + [QueueDrained];
    } else {
      assert |Delivered(g)| == |h.received| + 1;
    }
  }

  /** After a clean end `queue_drained` is not lost any more. */
  lemma {:induction false} CleanQueueDrainedArrives(acts: seq<Action>, more: seq<Action>)
    requires After(acts + [Sends(QueueDrained)]).Some?
    requires After(acts + [Sends(QueueDrained)]).value.protocol.orch == Idle(Some(EndTurn))
    requires NoRunStarts(more) && RunFrom(After(acts + [Sends(QueueDrained)]).value, more).Some?
    ensures var s := After(acts + [Sends(QueueDrained)]).value;
            Keeps(RunFrom(s, more).value.hub, |Delivered(s.hub)| - 1, QueueDrained)
  {
    SignalArrivesExactly(acts, QueueDrained, more);
    EveryReachableStateIsConsistent(acts + [Sends(QueueDrained)]);
    NobodyDrops(After(acts + [Sends(QueueDrained)]).value, more);
  }

  lemma NobodyDrops(s: State, more: seq<Action>)
    requires Control(s.protocol) && s.protocol.orch == Idle(Some(EndTurn)) && NoRunStarts(more) && RunFrom(s, more).Some?
    ensures forall j: nat :: !IsDropped(s, more, j)
  {
    forall j: nat, i | 0 <= i < |more|
      ensures !DropsAt(s, more, j, i)
    {
      Machines.PrefixRuns(Next, s, more, i);
      SilenceLasts(s, more[..i]);
      OnlyPushersSpeak(RunFrom(s, more[..i]).value, more[i]);
    }
  }

  // ---- It does not depend on the 255 alone ------------------------------------

  /** `n` events of a subagent. */
  function Streams(t: ThreadId, e: Event, n: nat): seq<Action> {
    seq(n, _ => Work(t, AgentStreams(e)))
  }

  lemma {:induction false} StreamsFill(s: State, t: ThreadId, e: Event, n: nat)
    requires t in s.protocol.agents && s.protocol.agents[t].Streaming? && e.BlockDelta?
    requires |s.hub.buffer| + n <= CAPACITY
    ensures var u := RunFrom(s, Streams(t, e, n));
            && u.Some? && u.value.protocol == s.protocol && u.value.table == s.table
            && u.value.hub.received == s.hub.received && |u.value.hub.buffer| == |s.hub.buffer| + n
  {
    if n > 0 {
      StreamsFill(s, t, e, n - 1);
      assert Streams(t, e, n)[..n - 1] == Streams(t, e, n - 1);
    }
  }

  /** A run about to end on another stop reason, with `n` events queued and its subagent streaming. */
  lemma EndingWith(e: Event, n: nat) returns (acts: seq<Action>)
    requires e.BlockDelta? && 0 < n <= CAPACITY
    ensures After(acts).Some?
    ensures var s := After(acts).value;
            && s.protocol.orch == Ending(OtherStop) && 0 in s.protocol.agents && s.protocol.agents[0].Streaming?
            && s.hub.received == [] && |s.hub.buffer| == n
  {
    var first := StreamingWith(e, n);
    Machines.StepAfter(Next, FanIn.START, first, Orchestrate(OtherReply));
    acts := first + [Orchestrate(OtherReply)];
  }

  lemma StreamingWith(e: Event, n: nat) returns (acts: seq<Action>)
    requires e.BlockDelta? && 0 < n <= CAPACITY
    ensures After(acts).Some?
    ensures var s := After(acts).value;
            && s.protocol == FanInWitnesses.DISPATCHED.protocol && s.table == FanInWitnesses.DISPATCHED.table
            && s.hub.received == [] && |s.hub.buffer| == n
  {
    FanInWitnesses.DispatchedIsReached();
    StreamsFill(FanInWitnesses.DISPATCHED, 0, e, n - 1);
    var first := FanInWitnesses.DISPATCHING;
    Machines.RunAppend(Next, FanIn.START, first, Streams(0, e, n - 1));
    acts := first + Streams(0, e, n - 1);
  }

  function Straggling(e: Event): seq<Action> {
    [Orchestrate(SendRoundDone), Work(0, AgentStreams(e)), Orchestrate(SendQueueDrained)]
  }

  /** A straggler between the two signals: `round_done` is lost although only 254 events were queued
      before it. */
  lemma StragglerLosesRoundDone(e: Event)
    requires e.BlockDelta?
    ensures exists acts :: After(acts).Some? && |After(acts).value.hub.buffer| == 254
                           && RunFrom(After(acts).value, Straggling(e)).Some?
                           && Delivered(RunFrom(After(acts).value, Straggling(e)).value.hub) == [QueueDrained]
  {
    var acts := EndingWith(e, CAPACITY - 2);
    Machines.ThreeSteps(Next, After(acts).value, Orchestrate(SendRoundDone), Work(0, AgentStreams(e)), Orchestrate(SendQueueDrained));
  }

  function StragglingLate(e: Event): seq<Action> {
    [Orchestrate(SendRoundDone), Orchestrate(SendQueueDrained), Work(0, AgentStreams(e))]
  }

  /** A straggler after them: both are lost. */
  lemma StragglerLosesBoth(e: Event)
    requires e.BlockDelta?
    ensures exists acts :: After(acts).Some? && RunFrom(After(acts).value, StragglingLate(e)).Some?
                           && Delivered(RunFrom(After(acts).value, StragglingLate(e)).value.hub) == [e]
  {
    var acts := EndingWith(e, CAPACITY - 2);
    Machines.ThreeSteps(Next, After(acts).value, Orchestrate(SendRoundDone), Orchestrate(SendQueueDrained), Work(0, AgentStreams(e)));
  }

  const READING: seq<Action> := [Orchestrate(SendRoundDone), ReadEvent, Orchestrate(SendQueueDrained)]

  lemma ReadingKeepsBoth(s: State)
    requires s.protocol.orch.Ending? && |s.hub.buffer| == CAPACITY - 1
    ensures var t := RunFrom(s, READING);
            t.Some? && Delivered(t.value.hub) == Delivered(s.hub) + [RoundDone, QueueDrained]
  {
    Machines.ThreeSteps(Next, s, READING[0], READING[1], READING[2]);
  }

  /** A reader between them: both arrive although 255 were queued. */
  lemma ReaderSavesRoundDone(e: Event)
    requires e.BlockDelta?
    ensures exists acts :: After(acts).Some? && |After(acts).value.hub.buffer| == 255
                           && RunFrom(After(acts).value, READING).Some?
                           && IsSuffix([RoundDone, QueueDrained], Delivered(RunFrom(After(acts).value, READING).value.hub))
  {
    var acts := EndingWith(e, CAPACITY - 1);
    ReadingKeepsBoth(After(acts).value);
  }
}
