/** The hub with the drain loop taken apart: the loop test and the receive inside the loop
    are two steps, and the stream handler, which holds no lock, may read between them. */
module HubInterleaving {
  import opened Wrappers
  import opened EventHub
  import Machines

  /** Where the one goroutine that holds the hub's mutex stands inside `Push`. */
  datatype Pusher =
    | Free                // nobody holds the mutex
    | Draining(e: Event)  // about to test whether anything is left to discard
    | Taking(e: Event)    // the test said yes; about to receive
    | Sending(e: Event)   // about to send the event itself

  datatype State = State(
    pusher: Pusher, closed: bool, buffer: seq<Event>,
    pushed: seq<Event>, received: seq<Event>, discarded: nat)

  const START := State(Free, false, [], [], [], 0)

  datatype Action = Begin(e: Event) | Test | Take | Send | Read | Close

  /** One step, or `None` where the goroutine that would take it is blocked. */
  function Next(s: State, a: Action): Option<State> {
    match a
    case Begin(e) =>
      if !s.pusher.Free? then None
      else if s.closed then Some(s)
      else if |s.buffer| == CAPACITY then Some(s.(pusher := Draining(e)))
      else Some(s.(pusher := Sending(e)))
    case Test =>
      if !s.pusher.Draining? then None
      else if |s.buffer| > 0 then Some(s.(pusher := Taking(s.pusher.e)))
      else Some(s.(pusher := Sending(s.pusher.e)))
    case Take =>
      if !s.pusher.Taking? || s.buffer == [] then None
      else Some(s.(pusher := Draining(s.pusher.e), buffer := s.buffer[1..], discarded := s.discarded + 1))
    case Send =>
      if !s.pusher.Sending? || |s.buffer| == CAPACITY then None
      else Some(s.(pusher := Free, buffer := s.buffer + [s.pusher.e], pushed := s.pushed + [s.pusher.e]))
    case Read =>
      if s.buffer == [] then None
      else Some(s.(received := s.received + [s.buffer[0]], buffer := s.buffer[1..]))
    case Close =>
      if !s.pusher.Free? then None else Some(s.(closed := true))
  }

  function RunFrom(s: State, acts: seq<Action>): Option<State> {
    Machines.Run(Next, s, acts)
  }

  ghost predicate Reachable(s: State) {
    exists acts :: RunFrom(START, acts) == Some(s)
  }

  /** No goroutine can ever move again: neither a pusher, nor the reader, nor `Close`. */
  ghost predicate Stuck(s: State) {
    forall a :: Next(s, a).None?
  }

  ghost predicate Inv(s: State) {
    && |s.buffer| <= CAPACITY
    && (s.pusher.Sending? ==> |s.buffer| < CAPACITY)
    && |s.pushed| == |s.received| + |s.buffer| + s.discarded
    && IsSubsequence(s.received + s.buffer, s.pushed)
  }

  /** Dropping the element at position `k` leaves a subsequence. */
  lemma SubsequenceDrops(a: seq<Event>, k: nat, b: seq<Event>)
    requires IsSubsequence(a, b) && k < |a|
    ensures IsSubsequence(a[..k] + a[k + 1..], b)
  {
    var at :| Embeds(at, a, b);
    assert Embeds(at[..k] + at[k + 1..], a[..k] + a[k + 1..], b);
  }

  lemma NextKeepsInv(s: State, a: Action)
    requires Inv(s) && Next(s, a).Some?
    ensures Inv(Next(s, a).value)
  {
    var t := Next(s, a).value;
    match a
    case Take =>
      var all := s.received + s.buffer;
      SubsequenceDrops(all, |s.received|, s.pushed);
      assert all[..|s.received|] + all[|s.received| + 1..] == t.received + t.buffer;
    case Send =>
      var all := s.received + s.buffer;
      SubsequenceExtends(all, |all|, s.pushed, s.pusher.e);
      assert all[..|all|] + [s.pusher.e] == t.received + t.buffer;
    case Read =>
      assert t.received + t.buffer == s.received + s.buffer;
    case _ =>
  }

  /** Under every interleaving nothing is reordered, duplicated or invented, what is lost is
      exactly what the drain discarded, and the final send of a push never blocks. */
  lemma {:induction false} EveryInterleavingIsSafe(acts: seq<Action>)
    requires RunFrom(START, acts).Some?
    ensures var s := RunFrom(START, acts).value;
            && Inv(s)
            && (s.pusher.Sending? ==> Next(s, Send).Some?)
  {
    if acts == [] {
      StartInv();
    } else {
      var front := acts[..|acts| - 1];
      EveryInterleavingIsSafe(front);
      NextKeepsInv(RunFrom(START, front).value, acts[|acts| - 1]);
    }
  }

  lemma StartInv()
    ensures Inv(START)
  {
    EmptyHubInv();
    assert EMPTY.received + EMPTY.buffer == START.received + START.buffer;
  }

  /** Exactly when the hub stops for good: a reader takes the last queued event between the
      loop test and the receive it guards. The pusher then waits for an event that only a
      pusher could send, and it holds the mutex every pusher needs. */
  lemma StuckExactly(s: State, a: Action)
    requires Reachable(s) && Next(s, a).Some?
    ensures Stuck(Next(s, a).value) <==> s.pusher.Taking? && |s.buffer| == 1 && a == Read
  {
    var acts :| RunFrom(START, acts) == Some(s);
    EveryInterleavingIsSafe(acts);
    StuckStep(s, a);
  }

  lemma StuckStep(s: State, a: Action)
    requires Inv(s) && Next(s, a).Some?
    ensures Stuck(Next(s, a).value) <==> s.pusher.Taking? && |s.buffer| == 1 && a == Read
  {
    NextKeepsInv(s, a);
    StuckShape(Next(s, a).value);
  }

  lemma StuckShape(t: State)
    requires Inv(t)
    ensures Stuck(t) <==> t.pusher.Taking? && t.buffer == []
  {
    match t.pusher
    case Free => assert Next(t, Close).Some?;
    case Draining(_) => assert Next(t, Test).Some?;
    case Sending(_) => assert Next(t, Send).Some?;
    case Taking(_) =>
      if t.buffer != [] { assert Next(t, Take).Some?; }
  }

  // ---- The stuck state is reached ---------------------------------------------

  function Repeat(e: Event, n: nat): seq<Event> {
    seq(n, _ => e)
  }

  /** `n` complete pushes into a hub nobody reads. */
  function Filling(e: Event, n: nat): seq<Action> {
    if n == 0 then [] else Filling(e, n - 1) + [Begin(e), Send]
  }

  /** `n` turns of the drain loop. */
  function Turns(n: nat): seq<Action> {
    if n == 0 then [] else Turns(n - 1) + [Test, Take]
  }

  lemma {:induction false} FillingRuns(e: Event, n: nat)
    requires n <= CAPACITY
    ensures RunFrom(START, Filling(e, n)) == Some(State(Free, false, Repeat(e, n), Repeat(e, n), [], 0))
  {
    if n == 0 {
      assert Repeat(e, 0) == [];
    } else {
      FillingRuns(e, n - 1);
      Machines.RunAppend(Next, START, Filling(e, n - 1), [Begin(e), Send]);
      Machines.TwoSteps(Next, State(Free, false, Repeat(e, n - 1), Repeat(e, n - 1), [], 0), Begin(e), Send);
      assert Repeat(e, n - 1) + [e] == Repeat(e, n);
    }
  }

  lemma {:induction false} TurnsRun(e: Event, s: State, n: nat)
    requires s.pusher == Draining(e) && n < |s.buffer|
    ensures RunFrom(s, Turns(n)) == Some(s.(buffer := s.buffer[n..], discarded := s.discarded + n))
  {
    if n == 0 {
      assert s.buffer[0..] == s.buffer;
    } else {
      TurnsRun(e, s, n - 1);
      Machines.RunAppend(Next, s, Turns(n - 1), [Test, Take]);
      Machines.TwoSteps(Next, s.(buffer := s.buffer[n - 1..], discarded := s.discarded + (n - 1)), Test, Take);
      assert s.buffer[n - 1..][1..] == s.buffer[n..];
    }
  }

  function Full(e: Event): State {
    State(Free, false, Repeat(e, CAPACITY), Repeat(e, CAPACITY), [], 0)
  }

  /** `n` unread pushes of `e`, and a push of `d` that discards all but the last. */
  function UpToLastTest(e: Event, d: Event, n: nat): seq<Action>
    requires n > 0
  {
    Filling(e, n) + ([Begin(d)] + Turns(n - 1))
  }

  /** From any full hub, a push of `d` that discards all but the last event. */
  lemma DrainToLast(s: State, d: Event, n: nat)
    requires s.pusher == Free && !s.closed && |s.buffer| == CAPACITY == n
    ensures RunFrom(s, [Begin(d)] + Turns(n - 1)) ==
            Some(s.(pusher := Draining(d), buffer := s.buffer[n - 1..], discarded := s.discarded + (n - 1)))
  {
    var draining := s.(pusher := Draining(d));
    assert [Begin(d)][..0] == [];
    assert RunFrom(s, []) == Some(s);
    assert RunFrom(s, [Begin(d)]) == Some(draining);
    TurnsRun(d, draining, n - 1);
    Machines.RunAppend(Next, s, [Begin(d)], Turns(n - 1));
  }

  lemma LastTestIsReached(e: Event, d: Event, n: nat)
    requires n == CAPACITY
    ensures RunFrom(START, UpToLastTest(e, d, n)) ==
            Some(Full(e).(pusher := Draining(d), buffer := [e], discarded := n - 1))
  {
    FillingRuns(e, n);
    DrainToLast(Full(e), d, n);
    assert Full(e).buffer[n - 1..] == [e];
    Machines.RunAppend(Next, START, Filling(e, n), [Begin(d)] + Turns(n - 1));
  }

  lemma ReadBeforeLastTake(e: Event, d: Event, acts: seq<Action>, discarded: nat)
    requires RunFrom(START, acts) == Some(Full(e).(pusher := Draining(d), buffer := [e], discarded := discarded))
    ensures RunFrom(START, acts + [Test, Read]) ==
            Some(Full(e).(pusher := Taking(d), buffer := [], received := [e], discarded := discarded))
  {
    var last := RunFrom(START, acts).value;
    Machines.TwoSteps(Next, last, Test, Read);
    Machines.RunAppend(Next, START, acts, [Test, Read]);
    assert [e][1..] == [] && [] + [e] == [e];
  }

  lemma BlocksAfter(e: Event, d: Event, n: nat)
    requires n == CAPACITY
    ensures exists s :: Reachable(s) && Stuck(s) && s.pusher == Taking(d) && s.pushed == Repeat(e, n)
  {
    var acts := UpToLastTest(e, d, n);
    LastTestIsReached(e, d, n);
    ReadBeforeLastTake(e, d, acts, n - 1);
    var s := RunFrom(START, acts + [Test, Read]).value;
    assert Reachable(s);
    EveryInterleavingIsSafe(acts + [Test, Read]);
    StuckShape(s);
  }

  /** The promise that a terminal signal is never blocked fails: after 256 unread events the
      push of `queue_drained` can be left waiting for ever. */
  lemma QueueDrainedCanBlockForEver(e: Event)
    ensures exists s :: && Reachable(s) && Stuck(s)
                        && s.pusher == Taking(QueueDrained) && s.pushed == Repeat(e, 256)
  {
    BlocksAfter(e, QueueDrained, CAPACITY);
  }

  /** A closed hub takes no further event: once no push is under way, what has been pushed is all
      that is ever pushed, and every later push returns at once. */
  lemma {:induction false} ClosedTakesNoMore(s: State, more: seq<Action>, e: Event)
    requires s.closed && s.pusher.Free? && RunFrom(s, more).Some?
    ensures var t := RunFrom(s, more).value;
            t.closed && t.pusher.Free? && t.pushed == s.pushed && Next(t, Begin(e)) == Some(t)
  {
    if more != [] {
      ClosedTakesNoMore(s, more[..|more| - 1], e);
    }
  }

  /** Closing waits for a push under way, and for nothing else. */
  lemma ClosesExactly(s: State)
    ensures Next(s, Close) == if s.pusher.Free? then Some(s.(closed := true)) else None
  {
  }

  // ---- Without a read in between, the drain is one step -----------------------

  ghost predicate ViewedAs(s: State, h: HubState) {
    s.pushed == h.pushed && s.received == h.received && s.buffer == h.buffer
  }

  /** What holds between `Begin(e)` and the send when no reader interferes. */
  ghost predicate InsidePush(h: HubState, e: Event, t: State) {
    && t.pushed == h.pushed && t.received == h.received && !t.pusher.Free? && t.pusher.e == e
    && if |h.buffer| == CAPACITY
       then (t.pusher.Sending? ==> t.buffer == []) && (t.pusher.Taking? ==> t.buffer != [])
       else t.pusher.Sending? && t.buffer == h.buffer
  }

  /** An undisturbed push is the atomic push: any run that starts with `Begin(e)`, holds no
      `Read` and has not begun another push is either still inside that push, and then not
      stuck, or has performed exactly `Pushed`. */
  lemma {:induction false} UndisturbedPushIsAtomic(s: State, h: HubState, e: Event, rest: seq<Action>)
    requires s.pusher.Free? && !s.closed && |s.buffer| <= CAPACITY && ViewedAs(s, h)
    requires forall k :: 0 <= k < |rest| ==> rest[k].Test? || rest[k].Take? || rest[k].Send?
    requires RunFrom(s, [Begin(e)] + rest).Some?
    ensures var t := RunFrom(s, [Begin(e)] + rest).value;
            if t.pusher.Free? then ViewedAs(t, Pushed(h, e)) else InsidePush(h, e, t) && !Stuck(t)
  {
    var acts := [Begin(e)] + rest;
    if rest == [] {
      assert acts[..0] == [];
      assert RunFrom(s, []) == Some(s);
      var t := RunFrom(s, acts).value;
      assert Next(t, Test).Some? || Next(t, Send).Some?;
    } else {
      var front := rest[..|rest| - 1];
      assert acts[..|acts| - 1] == [Begin(e)] + front;
      UndisturbedPushIsAtomic(s, h, e, front);
      var t := RunFrom(s, acts).value;
      assert t.pusher.Free? || Next(t, Test).Some? || Next(t, Take).Some? || Next(t, Send).Some?;
    }
  }
}
