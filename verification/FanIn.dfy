/** One conversation at run time: the orchestrator goroutine, the subagent goroutines it
    dispatches, the cancel endpoint and the stream reader, interleaved step by step. One run is
    active at a time, and the conversation's hub is not deleted. */
module FanIn {
  import opened Wrappers
  import Machines
  import opened EventHub
  import opened DispatchRegistry

  /** How a run ended: on `end_turn`, on any other stop reason, or with an error. */
  datatype Exit = EndTurn | OtherStop | Failed

  datatype Orchestrator =
    | Idle(last: Option<Exit>)          // no run is active
    | Thinking                          // loading history, streaming, dispatching tools
    | RowInserted(thread: ThreadId)     // dispatch_to_agent: thread row written, not yet added
    | Counted(thread: ThreadId)         // added to the registry, goroutine not yet launched
    | Checking                          // end_turn reply persisted, about to read the pending count
    | Joining                           // the count was positive; about to load the wait group
    | Waiting(wg: Option<nat>)          // blocked on the wait group
    | Joined                            // the wait returned
    | FannedIn(batch: seq<SubAgentResult>)  // the results were drained
    | Ending(exit: Exit)                // about to push round_done
    | Ended(exit: Exit)                 // about to push queue_drained

  datatype Stage =
    | NotLaunched
    | Streaming
    | Settled(result: SubAgentResult)    // entered the deferred block
    | Recorded(result: SubAgentResult)   // thread status update attempted
    | Announced(result: SubAgentResult)  // thread_status event pushed
    | Unlocked(wg: Option<nat>)          // result recorded, wait group not yet signalled
    | Exited

  datatype OrchestratorAction =
    | StartRun(live: bool)
    | Stream(e: Event)
    | InsertThread(t: ThreadId)
    | AddDispatch(t: ThreadId)
    | Launch
    | EndTurnReply
    | OtherReply
    | RunFails
    | ReadPending
    | EnterWait
    | WaitReturns
    | DrainResults
    | PersistFanIn
    | SendRoundDone
    | SendQueueDrained

  datatype AgentAction =
    | AgentStreams(e: Event)
    | AgentSettles(r: SubAgentResult)
    | WriteStatus(r: SubAgentResult, ok: bool)
    | Announce(r: SubAgentResult)
    | RecordResult(r: SubAgentResult)
    | SignalGroup

  datatype Action =
    | Orchestrate(o: OrchestratorAction)
    | Work(t: ThreadId, w: AgentAction)
    | ListThreads                    // CancelAllThreads reads the non-terminal threads
    | CancelListed(c: ThreadId)      // and updates one of them
    | CancelElsewhere(c: ThreadId)   // another such call updates one
    | ReadEvent                      // the stream handler receives one event

  // ---- The goroutines and the registry ----------------------------------------

  datatype Protocol = Protocol(
    orch: Orchestrator,
    agents: map<ThreadId, Stage>,
    slot: Slot<nat>,
    groups: map<nat, int>,      // the counter of every wait group made so far
    nextGroup: nat)

  /** What a streamed reply pushes. */
  predicate IsBlockEvent(e: Event) {
    e.BlockStart? || e.BlockDelta? || e.BlockStop?
  }

  function Orchestrated(p: Protocol, o: OrchestratorAction): Option<Protocol> {
    match o
    case StartRun(live) =>
      if p.orch.Idle? then Some(p.(orch := if live then Thinking else Ending(Failed))) else None
    case Stream(e) =>
      if p.orch.Thinking? && (IsBlockEvent(e) || e.ApprovalRequested?) then Some(p) else None
    case InsertThread(t) =>
      if p.orch.Thinking? then Some(p.(orch := RowInserted(t))) else None
    case AddDispatch(t) =>
      if p.orch != RowInserted(t) then None
      else
        var slot := Added(p.slot, p.nextGroup);
        var w := slot.wg.value;
        Some(Protocol(Counted(t), p.agents[t := NotLaunched], slot,
                      p.groups[w := (if w in p.groups then p.groups[w] else 0) + 1], p.nextGroup + 1))
    case Launch =>
      if p.orch.Counted? then Some(p.(orch := Thinking, agents := p.agents[p.orch.thread := Streaming])) else None
    case EndTurnReply =>
      if p.orch.Thinking? then Some(p.(orch := Checking)) else None
    case OtherReply =>
      if p.orch.Thinking? then Some(p.(orch := Ending(OtherStop))) else None
    case RunFails =>
      if p.orch.Thinking? || p.orch.FannedIn? then Some(p.(orch := Ending(Failed))) else None
    case ReadPending =>
      if p.orch.Checking? then Some(p.(orch := if p.slot.pending > 0 then Joining else Ending(EndTurn))) else None
    case EnterWait =>
      if p.orch.Joining? then Some(p.(orch := Waiting(p.slot.wg))) else None
    case WaitReturns =>
      if p.orch.Waiting? && (p.orch.wg.Some? ==> p.orch.wg.value in p.groups && p.groups[p.orch.wg.value] == 0)
      then Some(p.(orch := Joined)) else None
    case DrainResults =>
      if p.orch.Joined? then Some(p.(orch := FannedIn(p.slot.outs), slot := Vacant())) else None
    case PersistFanIn =>
      if p.orch.FannedIn? then Some(p.(orch := Thinking)) else None
    case SendRoundDone =>
      if p.orch.Ending? then Some(p.(orch := Ended(p.orch.exit))) else None
    case SendQueueDrained =>
      if p.orch.Ended? then Some(p.(orch := Idle(Some(p.orch.exit)))) else None
  }

  function Worked(p: Protocol, t: ThreadId, w: AgentAction): Option<Protocol>
    requires t in p.agents
  {
    var stage := p.agents[t];
    match w
    case AgentStreams(e) =>
      if stage.Streaming? && IsBlockEvent(e) then Some(p) else None
    case AgentSettles(r) =>
      if stage.Streaming? && r.thread == t then Some(p.(agents := p.agents[t := Settled(r)])) else None
    case WriteStatus(r, _) =>
      if stage == Settled(r) then Some(p.(agents := p.agents[t := Recorded(r)])) else None
    case Announce(r) =>
      if stage == Recorded(r) then Some(p.(agents := p.agents[t := Announced(r)])) else None
    case RecordResult(r) =>
      if stage == Announced(r)
      then Some(p.(agents := p.agents[t := Unlocked(p.slot.wg)], slot := Finished(p.slot, r))) else None
    case SignalGroup =>
      if !stage.Unlocked? then None
      else if stage.wg.None? || stage.wg.value !in p.groups then Some(p.(agents := p.agents[t := Exited]))
      else Some(p.(agents := p.agents[t := Exited],
                   groups := p.groups[stage.wg.value := p.groups[stage.wg.value] - 1]))
  }

  function ProtocolNext(p: Protocol, a: Action): Option<Protocol> {
    match a
    case Orchestrate(o) => Orchestrated(p, o)
    case Work(t, w) => if t in p.agents then Worked(p, t, w) else None
    case _ => Some(p)
  }

  // ---- The thread table -------------------------------------------------------

  /** Thread rows, the threads whose final status update failed, and one tracked
      `CancelAllThreads` call: what it listed and what it has still to update. */
  datatype Table = Table(
    threads: map<ThreadId, ThreadStatus>, unwritten: set<ThreadId>,
    listed: set<ThreadId>, left: set<ThreadId>)

  predicate IsFinal(st: ThreadStatus) {
    st.Done? || st.Cancelled? || st.Error?
  }

  function FinalStatus(r: SubAgentResult): ThreadStatus {
    if r.err.None? then Done else Error
  }

  /** The conditional update of `CancelAllThreads`: terminal rows stay as they are. */
  function CancelledStatus(st: ThreadStatus): ThreadStatus {
    if IsFinal(st) then st else Cancelled
  }

  function CancelRow(threads: map<ThreadId, ThreadStatus>, t: ThreadId): map<ThreadId, ThreadStatus> {
    if t in threads then threads[t := CancelledStatus(threads[t])] else threads
  }

  function TableNext(d: Table, a: Action): Option<Table> {
    match a
    case Orchestrate(InsertThread(t)) =>
      if t in d.threads then None else Some(d.(threads := d.threads[t := Running]))
    case Work(t, WriteStatus(r, ok)) =>
      if !ok then Some(d.(unwritten := d.unwritten + {t}))
      else if t in d.threads then Some(d.(threads := d.threads[t := FinalStatus(r)]))
      else Some(d)
    case ListThreads =>
      var open := set t | t in d.threads && !IsFinal(d.threads[t]);
      if d.left == {} then Some(d.(listed := open, left := open)) else None
    case CancelListed(t) =>
      if t in d.left then Some(d.(threads := CancelRow(d.threads, t), left := d.left - {t})) else None
    case CancelElsewhere(t) =>
      Some(d.(threads := CancelRow(d.threads, t)))
    case _ => Some(d)
  }

  // ---- The event hub ----------------------------------------------------------

  /** The event a step pushes, if any. */
  function Emits(a: Action): Option<Event> {
    match a
    case Orchestrate(StartRun(live)) => if live then Some(AgentStart) else None
    case Orchestrate(Stream(e)) => Some(e)
    case Orchestrate(SendRoundDone) => Some(RoundDone)
    case Orchestrate(SendQueueDrained) => Some(QueueDrained)
    case Work(_, AgentStreams(e)) => Some(e)
    case Work(t, Announce(r)) => Some(StatusChanged(t, FinalStatus(r)))
    case _ => None
  }

  function HubNext(h: HubState, a: Action): Option<HubState> {
    if Emits(a).Some? then Some(Pushed(h, Emits(a).value))
    else if !a.ReadEvent? then Some(h)
    else if h.buffer == [] then None
    else Some(Read(h))
  }

  // ---- The whole system -------------------------------------------------------

  datatype State = State(protocol: Protocol, table: Table, hub: HubState)

  const START := State(Protocol(Idle(None), map[], Slot(0, None, []), map[], 0), Table(map[], {}, {}, {}), EMPTY)

  /** One step of one goroutine, or `None` where that goroutine is elsewhere or blocked. */
  function Next(s: State, a: Action): Option<State> {
    var p, d, h := ProtocolNext(s.protocol, a), TableNext(s.table, a), HubNext(s.hub, a);
    if p.Some? && d.Some? && h.Some? then Some(State(p.value, d.value, h.value)) else None
  }

  /** The state after a whole run of steps from `s`, or `None` if some step was blocked. */
  function RunFrom(s: State, acts: seq<Action>): Option<State> {
    Machines.Run(Next, s, acts)
  }

  function After(acts: seq<Action>): Option<State> {
    RunFrom(START, acts)
  }

  // ---- The invariant ----------------------------------------------------------

  predicate IsLive(stage: Stage) {
    !stage.Unlocked? && !stage.Exited?
  }

  /** Has yet to push an event. */
  predicate MayPush(stage: Stage) {
    stage.NotLaunched? || stage.Streaming? || stage.Settled? || stage.Recorded?
  }

  predicate HasResult(stage: Stage) {
    stage.Settled? || stage.Recorded? || stage.Announced?
  }

  /** Subagents that have not recorded their result. */
  function Live(p: Protocol): set<ThreadId> {
    set t | t in p.agents && IsLive(p.agents[t])
  }

  /** Subagents between the unlock in `Done` and the wait group's `Done`. */
  function Late(p: Protocol): set<ThreadId> {
    set t | t in p.agents && p.agents[t].Unlocked?
  }

  /** The subagents that can still push an event. */
  function Pushers(p: Protocol): set<ThreadId> {
    set t | t in p.agents && MayPush(p.agents[t])
  }

  /** The pending count, the wait group's counter and the goroutines agree. */
  ghost predicate Counts(p: Protocol) {
    && p.slot.pending == |Live(p)|
    && (p.slot.wg.None? ==> Live(p) == {} && Late(p) == {})
    && (p.slot.wg.Some? ==> p.slot.wg.value in p.groups
                            && p.groups[p.slot.wg.value] == |Live(p)| + |Late(p)|)
    && (forall t :: t in Late(p) ==> p.agents[t].wg == p.slot.wg)
    && (forall w :: w in p.groups ==> w < p.nextGroup && p.groups[w] >= 0)
  }

  /** What the orchestrator's position implies. */
  ghost predicate Control(p: Protocol) {
    && (forall t :: t in p.agents && p.agents[t].NotLaunched? ==> p.orch == Counted(t))
    && (p.orch.Counted? ==> p.orch.thread in p.agents && p.agents[p.orch.thread].NotLaunched?)
    && (p.orch.Joining? ==> p.slot.wg.Some?)
    && (p.orch.Waiting? ==> p.orch.wg == p.slot.wg && p.slot.wg.Some?)
    && (p.orch.Joined? ==> Live(p) == {} && Late(p) == {})
    && (EndedCleanly(p.orch) ==> Pushers(p) == {})
  }

  /** The orchestrator has found no subagent pending after an `end_turn` reply. */
  predicate EndedCleanly(o: Orchestrator) {
    o == Ending(EndTurn) || o == Ended(EndTurn) || o == Idle(Some(EndTurn))
  }

  /** Each recorded result belongs to its own finished subagent. */
  ghost predicate Results(p: Protocol) {
    && (forall t :: t in p.agents && HasResult(p.agents[t]) ==> p.agents[t].result.thread == t)
    && (forall r :: r in p.slot.outs ==> r.thread in p.agents && !IsLive(p.agents[r.thread]))
    && (p.orch.FannedIn? ==> forall r :: r in p.orch.batch ==> r.thread in p.agents && !IsLive(p.agents[r.thread]))
    && (forall i, j :: 0 <= i < j < |p.slot.outs| ==> p.slot.outs[i].thread != p.slot.outs[j].thread)
  }

  /** The row of a result's thread exists and, if its update succeeded, shows that result. */
  ghost predicate ResultWritten(d: Table, r: SubAgentResult) {
    && r.thread in d.threads
    && (r.thread !in d.unwritten ==> d.threads[r.thread] == FinalStatus(r))
  }

  ghost predicate Rows(p: Protocol, d: Table) {
    && p.agents.Keys <= d.threads.Keys
    && (p.orch.RowInserted? ==> p.orch.thread in d.threads && p.orch.thread !in p.agents)
    && (forall t :: t in p.agents && (p.agents[t].Recorded? || p.agents[t].Announced?)
          ==> ResultWritten(d, p.agents[t].result))
    && (forall t :: t in d.unwritten ==> t in p.agents && Reported(p.agents[t]))
    && (forall r :: r in p.slot.outs ==> ResultWritten(d, r))
    && (p.orch.FannedIn? ==> forall r :: r in p.orch.batch ==> ResultWritten(d, r))
    && d.left <= d.listed <= d.threads.Keys
    && (forall t :: t in d.listed && t !in d.left ==> IsFinal(d.threads[t]))
  }

  /** Past the status update of the deferred block. */
  predicate Reported(stage: Stage) {
    stage.Recorded? || stage.Announced? || stage.Unlocked? || stage.Exited?
  }

  /** After a clean end the terminal signals are the last pushes. */
  ghost predicate LastPush(o: Orchestrator, pushed: seq<Event>) {
    && (o == Ended(EndTurn) ==> pushed != [] && Last(pushed) == RoundDone)
    && (o == Idle(Some(EndTurn)) ==> pushed != [] && Last(pushed) == QueueDrained)
  }

  /** The part of the invariant that does not concern the hub. */
  ghost predicate ProtocolInv(p: Protocol, d: Table) {
    Counts(p) && Control(p) && Results(p) && Rows(p, d)
  }

  ghost predicate Inv(s: State) {
    ProtocolInv(s.protocol, s.table) && HubInv(s.hub) && LastPush(s.protocol.orch, s.hub.pushed)
  }
}
