/** The server-sent-event hub of one conversation: a queue of capacity 256 that
    discards everything it holds when an event arrives and it is full. */
module EventHub {
  import opened Wrappers

  const CAPACITY := 256

  datatype ThreadStatus = Pending | Running | Done | Cancelled | Error

  datatype Event =
    | AgentStart
    | BlockStart(blockId: string)
    | BlockDelta(blockId: string, text: string)
    | BlockStop(blockId: string)
    | ApprovalRequested(blockId: string)
    | StatusChanged(thread: nat, status: ThreadStatus)
    | RoundDone
    | QueueDrained

  predicate IsTerminal(e: Event) {
    e.RoundDone? || e.QueueDrained?
  }

  /** `pushed` and `received` are the whole history of the two ends of the queue;
      `drains` counts how often a push found the queue full. */
  datatype HubState = HubState(pushed: seq<Event>, received: seq<Event>, buffer: seq<Event>, drains: nat)

  const EMPTY := HubState([], [], [], 0)

  /** One push, with the drain taken as one step. */
  function Pushed(h: HubState, e: Event): HubState {
    if |h.buffer| == CAPACITY
    then HubState(h.pushed + [e], h.received, [e], h.drains + 1)
    else HubState(h.pushed + [e], h.received, h.buffer + [e], h.drains)
  }

  /** One receive by the stream handler. */
  function Read(h: HubState): HubState
    requires h.buffer != []
  {
    h.(received := h.received + [h.buffer[0]], buffer := h.buffer[1..])
  }

  ghost predicate IsSuffix(a: seq<Event>, b: seq<Event>) {
    |a| <= |b| && a == b[|b| - |a|..]
  }

  /** `at` lists, in increasing order, the positions of `b` that spell `a`. */
  ghost predicate Embeds(at: seq<nat>, a: seq<Event>, b: seq<Event>) {
    && |at| == |a|
    && (forall i :: 0 <= i < |at| ==> at[i] < |b| && b[at[i]] == a[i])
    && (forall i, j :: 0 <= i < j < |at| ==> at[i] < at[j])
  }

  ghost predicate IsSubsequence(a: seq<Event>, b: seq<Event>) {
    exists at :: Embeds(at, a, b)
  }

  ghost predicate HubInv(h: HubState) {
    && |h.buffer| <= CAPACITY
    && IsSuffix(h.buffer, h.pushed)
    && IsSubsequence(h.received + h.buffer, h.pushed)
    && |h.pushed| == |h.received| + |h.buffer| + CAPACITY * h.drains
    && (h.pushed != [] ==> h.received + h.buffer != [] && Last(h.received + h.buffer) == Last(h.pushed))
  }

  function Last(s: seq<Event>): Event
    requires s != []
  {
    s[|s| - 1]
  }

  lemma SubsequenceExtends(a: seq<Event>, keep: nat, b: seq<Event>, e: Event)
    requires IsSubsequence(a, b) && keep <= |a|
    ensures IsSubsequence(a[..keep] + [e], b + [e])
  {
    var at :| Embeds(at, a, b);
    assert Embeds(at[..keep] + [|b|], a[..keep] + [e], b + [e]);
  }

  lemma EmptyHubInv()
    ensures HubInv(EMPTY)
  {
    assert EMPTY.received + EMPTY.buffer == [];
    assert Embeds([], [], []);
  }

  lemma PushKeepsInv(h: HubState, e: Event)
    requires HubInv(h)
    ensures HubInv(Pushed(h, e))
    ensures Pushed(h, e).pushed == h.pushed + [e]
    ensures Last(Pushed(h, e).buffer) == e
  {
    var g := Pushed(h, e);
    var all := h.received + h.buffer;
    if |h.buffer| == CAPACITY {
      SubsequenceExtends(all, |h.received|, h.pushed, e);
      assert all[..|h.received|] + [e] == g.received + g.buffer;
    } else {
      SubsequenceExtends(all, |all|, h.pushed, e);
      assert all[..|all|] + [e] == g.received + g.buffer;
    }
  }

  lemma ReadKeepsInv(h: HubState)
    requires HubInv(h) && h.buffer != []
    ensures HubInv(Read(h))
  {
    var g := Read(h);
    assert g.received + g.buffer == h.received + h.buffer;
  }

  // ---- Whole runs -------------------------------------------------------------

  datatype HubAction = Push(e: Event) | Receive

  /** The state after a run of pushes and receives; a receive from an empty queue waits. */
  function HubAfter(acts: seq<HubAction>): HubState {
    if acts == [] then EMPTY
    else
      var h := HubAfter(acts[..|acts| - 1]);
      match acts[|acts| - 1]
      case Push(e) => Pushed(h, e)
      case Receive => if h.buffer == [] then h else Read(h)
  }

  function PushLog(acts: seq<HubAction>): seq<Event> {
    if acts == [] then []
    else
      var log := PushLog(acts[..|acts| - 1]);
      match acts[|acts| - 1]
      case Push(e) => log + [e]
      case Receive => log
  }

  /** Refinement of the append-only log: whatever the interleaving of pushes and receives,
      the queue is a suffix of the push log, what was received followed by what is queued is
      an ordered subsequence of it, and the only loss is 256 events for each drain. */
  lemma {:induction false} HubRefinesLog(acts: seq<HubAction>)
    ensures HubInv(HubAfter(acts))
    ensures HubAfter(acts).pushed == PushLog(acts)
    ensures var h := HubAfter(acts);
            |h.buffer| <= 256 && |h.pushed| == |h.received| + |h.buffer| + 256 * h.drains
  {
    if acts == [] {
      EmptyHubInv();
    } else {
      var before := acts[..|acts| - 1];
      HubRefinesLog(before);
      match acts[|acts| - 1]
      case Push(e) => PushKeepsInv(HubAfter(before), e);
      case Receive =>
        if HubAfter(before).buffer != [] { ReadKeepsInv(HubAfter(before)); }
    }
  }

  lemma PairAfter(h: HubState)
    requires |h.buffer| <= CAPACITY
    ensures var g := Pushed(Pushed(h, RoundDone), QueueDrained);
            && (|h.buffer| == CAPACITY ==> g.buffer == [RoundDone, QueueDrained])
            && (|h.buffer| == CAPACITY - 1 ==> g.buffer == [QueueDrained])
            && (|h.buffer| < CAPACITY - 1 ==> g.buffer == h.buffer + [RoundDone, QueueDrained])
  {
    if |h.buffer| == CAPACITY {
      assert Pushed(h, RoundDone).buffer == [RoundDone];
      assert [RoundDone] + [QueueDrained] == [RoundDone, QueueDrained];
    } else {
      assert Pushed(h, RoundDone).buffer == h.buffer + [RoundDone];
      assert h.buffer + [RoundDone] + [QueueDrained] == h.buffer + [RoundDone, QueueDrained];
    }
  }

  /** The two terminal pushes with nothing in between: `queue_drained` survives, and `round_done`
      survives right before it unless exactly 255 events were queued. */
  lemma {:induction false} TerminalPairExact(acts: seq<HubAction>)
    ensures var h := HubAfter(acts);
            var g := Pushed(Pushed(h, RoundDone), QueueDrained);
            && g.buffer != [] && Last(g.buffer) == QueueDrained
            && (IsSuffix([RoundDone, QueueDrained], g.buffer) <==> |h.buffer| != 255)
            && (|h.buffer| == 255 ==> g.buffer == [QueueDrained])
  {
    HubRefinesLog(acts);
    PairAfter(HubAfter(acts));
  }

  /** `n` pushes that nobody reads. */
  function Unread(e: Event, n: nat): seq<HubAction> {
    seq(n, _ => Push(e))
  }

  lemma {:induction false} UnreadFills(e: Event, n: nat)
    requires n <= CAPACITY
    ensures HubAfter(Unread(e, n)).received == [] && |HubAfter(Unread(e, n)).buffer| == n
  {
    if n > 0 {
      UnreadFills(e, n - 1);
      assert Unread(e, n)[..n - 1] == Unread(e, n - 1);
    }
  }

  /** The losing state of an undisturbed pair is reached: after 255 unread events the reader never
      sees `round_done`. */
  lemma RoundDoneGetsLost(e: Event)
    ensures var h := HubAfter(Unread(e, CAPACITY - 1));
            var g := Pushed(Pushed(h, RoundDone), QueueDrained);
            |h.buffer| == 255 && g.received + g.buffer == [QueueDrained]
  {
    UnreadFills(e, CAPACITY - 1);
    TerminalPairExact(Unread(e, CAPACITY - 1));
  }

  // ---- The object -------------------------------------------------------------

  class Hub {
    var ch: seq<Event>
    var closed: bool
    ghost var history: HubState

    ghost predicate Valid()
      reads this
    {
      history.buffer == ch && HubInv(history)
    }

    constructor ()
      ensures Valid() && !closed && history == EMPTY
    {
      ch, closed, history := [], false, EMPTY;
      EmptyHubInv();
    }

    method Push(e: Event)
      requires Valid()
      modifies this
      ensures Valid() && closed == old(closed)
      ensures history == if closed then old(history) else Pushed(old(history), e)
    {
      if closed {
        return;
      }
      if |ch| == CAPACITY {
        while |ch| > 0
          invariant closed == old(closed) && history == old(history)
        {
          ch := ch[1..];
        }
      }
      ch := ch + [e];
      PushKeepsInv(history, e);
      history := Pushed(history, e);
      assert [] + [e] == [e];
    }

    /** The receive of the stream handler, which blocks on an open empty channel; `None` is what
        it gets from a closed, emptied one, and then the stream ends. */
    method Receive() returns (e: Option<Event>)
      requires Valid() && (ch != [] || closed)
      modifies this
      ensures Valid() && closed == old(closed)
      ensures old(ch) == [] ==> e == None && history == old(history)
      ensures old(ch) != [] ==> e == Some(old(ch)[0]) && history == Read(old(history))
    {
      if ch == [] {
        return None;
      }
      e := Some(ch[0]);
      ch := ch[1..];
      ReadKeepsInv(history);
      history := Read(history);
    }

    method Close()
      requires Valid()
      modifies this
      ensures Valid() && closed && history == old(history)
    {
      if !closed {
        closed := true;
      }
    }
  }
}
