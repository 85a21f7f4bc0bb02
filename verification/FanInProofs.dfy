/** The invariant of the fan-in protocol is kept by every step. */
module FanInProofs {
  import opened Wrappers
  import opened EventHub
  import opened DispatchRegistry
  import opened FanIn

  /** How one step changes the sets the counters stand for. */
  lemma OrchestratorSets(p: Protocol, o: OrchestratorAction)
    requires Control(p) && Orchestrated(p, o).Some?
    requires p.orch.RowInserted? ==> p.orch.thread !in p.agents
    ensures var q := Orchestrated(p, o).value;
            && Live(q) == (if o.AddDispatch? then Live(p) + {o.t} else Live(p))
            && Late(q) == Late(p)
            && Pushers(q) == (if o.AddDispatch? then Pushers(p) + {o.t} else Pushers(p))
  {
  }

  lemma AgentSets(p: Protocol, t: ThreadId, w: AgentAction)
    requires t in p.agents && Worked(p, t, w).Some?
    ensures var q := Worked(p, t, w).value;
            && Live(q) == (if w.RecordResult? then Live(p) - {t} else Live(p))
            && Late(q) == (if w.RecordResult? then Late(p) + {t} else if w.SignalGroup? then Late(p) - {t} else Late(p))
            && Pushers(q) == (if w.Announce? then Pushers(p) - {t} else Pushers(p))
  {
  }

  lemma AddKeepsCounts(p: Protocol, t: ThreadId)
    requires Counts(p) && Control(p) && t !in p.agents && p.orch == RowInserted(t)
    ensures Counts(Orchestrated(p, AddDispatch(t)).value)
  {
    OrchestratorSets(p, AddDispatch(t));
    var q := Orchestrated(p, AddDispatch(t)).value;
    assert |Live(q)| == |Live(p)| + 1;
  }

  lemma OrchestratorKeepsCounts(p: Protocol, o: OrchestratorAction)
    requires Counts(p) && Control(p) && Orchestrated(p, o).Some?
    requires p.orch.RowInserted? ==> p.orch.thread !in p.agents
    ensures Counts(Orchestrated(p, o).value)
  {
    if o.AddDispatch? {
      AddKeepsCounts(p, o.t);
    } else {
      OrchestratorSets(p, o);
    }
  }

  /** A count of zero means nobody is left, and a positive one that there is a group to wait on. */
  lemma NobodyPending(p: Protocol)
    requires Counts(p)
    ensures p.slot.pending > 0 ==> p.slot.wg.Some?
    ensures p.slot.pending <= 0 ==> Pushers(p) == {}
    ensures p.slot.wg.Some? && p.groups[p.slot.wg.value] == 0 ==> Live(p) == {} && Late(p) == {}
  {
    assert Pushers(p) <= Live(p);
  }

  lemma OrchestratorKeepsControl(p: Protocol, o: OrchestratorAction)
    requires Control(p) && Orchestrated(p, o).Some?
    requires p.orch.RowInserted? ==> p.orch.thread !in p.agents
    requires p.slot.pending > 0 ==> p.slot.wg.Some?
    requires p.slot.pending <= 0 ==> Pushers(p) == {}
    requires p.slot.wg.Some? && p.slot.wg.value in p.groups && p.groups[p.slot.wg.value] == 0
             ==> Live(p) == {} && Late(p) == {}
    ensures Control(Orchestrated(p, o).value)
  {
    OrchestratorSets(p, o);
    var q := Orchestrated(p, o).value;
    if o.AddDispatch? || o.Launch? {
      assert !EndedCleanly(q.orch);
    } else {
      assert q.agents == p.agents;
    }
  }

  lemma RecordKeepsCounts(p: Protocol, t: ThreadId, r: SubAgentResult)
    requires Counts(p) && t in p.agents && p.agents[t] == Announced(r)
    ensures Counts(Worked(p, t, RecordResult(r)).value)
  {
    AgentSets(p, t, RecordResult(r));
    assert t in Live(p) && t !in Late(p);
    assert |Live(p) - {t}| == |Live(p)| - 1 && |Late(p) + {t}| == |Late(p)| + 1;
  }

  lemma SignalKeepsCounts(p: Protocol, t: ThreadId)
    requires Counts(p) && t in p.agents && p.agents[t].Unlocked?
    ensures Counts(Worked(p, t, SignalGroup).value)
  {
    AgentSets(p, t, SignalGroup);
    assert t in Late(p);
    assert |Late(p) - {t}| == |Late(p)| - 1;
  }

  lemma AgentKeepsCounts(p: Protocol, t: ThreadId, w: AgentAction)
    requires Counts(p) && t in p.agents && Worked(p, t, w).Some?
    ensures Counts(Worked(p, t, w).value)
  {
    match w
    case RecordResult(r) => RecordKeepsCounts(p, t, r);
    case SignalGroup => SignalKeepsCounts(p, t);
    case _ => AgentSets(p, t, w);
  }

  lemma AgentKeepsControl(p: Protocol, t: ThreadId, w: AgentAction)
    requires Control(p) && t in p.agents && Worked(p, t, w).Some?
    ensures Control(Worked(p, t, w).value)
  {
    AgentSets(p, t, w);
  }

  lemma OrchestratorKeepsResults(p: Protocol, o: OrchestratorAction)
    requires Results(p) && Control(p) && Orchestrated(p, o).Some?
    requires p.orch.RowInserted? ==> p.orch.thread !in p.agents
    ensures Results(Orchestrated(p, o).value)
  {
  }

  lemma AgentKeepsResults(p: Protocol, t: ThreadId, w: AgentAction)
    requires Results(p) && t in p.agents && Worked(p, t, w).Some?
    ensures Results(Worked(p, t, w).value)
  {
  }

  lemma OrchestratorKeepsRows(p: Protocol, d: Table, o: OrchestratorAction)
    requires Control(p) && Rows(p, d) && Orchestrated(p, o).Some? && TableNext(d, Orchestrate(o)).Some?
    ensures Rows(Orchestrated(p, o).value, TableNext(d, Orchestrate(o)).value)
  {
  }

  lemma AgentKeepsRows(p: Protocol, d: Table, t: ThreadId, w: AgentAction)
    requires Results(p) && Rows(p, d) && t in p.agents && Worked(p, t, w).Some? && TableNext(d, Work(t, w)).Some?
    ensures Rows(Worked(p, t, w).value, TableNext(d, Work(t, w)).value)
  {
  }

  lemma CancelKeepsRows(p: Protocol, d: Table, a: Action)
    requires Rows(p, d) && !a.Orchestrate? && !a.Work? && TableNext(d, a).Some?
    ensures Rows(p, TableNext(d, a).value)
  {
  }

  /** A step appends its event to the push log, if it has one. */
  lemma HubStepPushes(h: HubState, a: Action)
    requires HubNext(h, a).Some?
    ensures HubNext(h, a).value.pushed == match Emits(a) case None => h.pushed case Some(e) => h.pushed + [e]
    ensures |h.buffer| <= CAPACITY ==> |HubNext(h, a).value.buffer| <= CAPACITY
  {
  }

  lemma HubStepKeepsInv(h: HubState, a: Action)
    requires HubInv(h) && HubNext(h, a).Some?
    ensures HubInv(HubNext(h, a).value)
    ensures Emits(a).None? ==> HubNext(h, a).value.pushed == h.pushed
    ensures Emits(a).Some? ==> HubNext(h, a).value.pushed == h.pushed + [Emits(a).value]
  {
    if Emits(a).Some? {
      PushKeepsInv(h, Emits(a).value);
    } else if a.ReadEvent? {
      ReadKeepsInv(h);
    }
  }

  /** After a clean end only the orchestrator itself pushes. */
  lemma SilenceAfterCleanEnd(p: Protocol, a: Action)
    requires Control(p) && ProtocolNext(p, a).Some? && EndedCleanly(ProtocolNext(p, a).value.orch)
    ensures a.Work? ==> Emits(a).None?
    ensures ProtocolNext(p, a).value.orch == Ended(EndTurn) ==> a == Orchestrate(SendRoundDone) || (Emits(a).None? && p.orch == Ended(EndTurn))
    ensures ProtocolNext(p, a).value.orch == Idle(Some(EndTurn)) ==> a == Orchestrate(SendQueueDrained) || (Emits(a).None? && p.orch == Idle(Some(EndTurn)))
  {
    if a.Work? {
      assert p.orch == ProtocolNext(p, a).value.orch;
      assert a.t !in Pushers(p);
    }
  }

  lemma StepKeepsLastPush(p: Protocol, pushed: seq<Event>, a: Action, after: seq<Event>)
    requires Control(p) && LastPush(p.orch, pushed) && ProtocolNext(p, a).Some?
    requires Emits(a).None? ==> after == pushed
    requires Emits(a).Some? ==> after == pushed + [Emits(a).value]
    ensures LastPush(ProtocolNext(p, a).value.orch, after)
  {
    if EndedCleanly(ProtocolNext(p, a).value.orch) {
      SilenceAfterCleanEnd(p, a);
    }
  }

  lemma StepKeepsProtocol(p: Protocol, a: Action)
    requires Counts(p) && Control(p) && Results(p) && ProtocolNext(p, a).Some?
    requires p.orch.RowInserted? ==> p.orch.thread !in p.agents
    ensures var q := ProtocolNext(p, a).value; Counts(q) && Control(q) && Results(q)
  {
    match a
    case Orchestrate(o) =>
      OrchestratorKeepsCounts(p, o);
      NobodyPending(p);
      OrchestratorKeepsControl(p, o);
      OrchestratorKeepsResults(p, o);
    case Work(t, w) =>
      AgentKeepsCounts(p, t, w);
      AgentKeepsControl(p, t, w);
      AgentKeepsResults(p, t, w);
    case _ =>
  }

  lemma StepKeepsRows(p: Protocol, d: Table, a: Action)
    requires Control(p) && Results(p) && Rows(p, d) && ProtocolNext(p, a).Some? && TableNext(d, a).Some?
    ensures Rows(ProtocolNext(p, a).value, TableNext(d, a).value)
  {
    match a
    case Orchestrate(o) => OrchestratorKeepsRows(p, d, o);
    case Work(t, w) => AgentKeepsRows(p, d, t, w);
    case _ => CancelKeepsRows(p, d, a);
  }

  lemma StepKeepsInv(s: State, a: Action)
    requires Inv(s) && Next(s, a).Some?
    ensures Inv(Next(s, a).value)
  {
    StepKeepsProtocol(s.protocol, a);
    StepKeepsRows(s.protocol, s.table, a);
    HubStepKeepsInv(s.hub, a);
    StepKeepsLastPush(s.protocol, s.hub.pushed, a, HubNext(s.hub, a).value.pushed);
  }

  /** The effect of a step on the three sets, the recorded results and the orchestrator. */
  ghost predicate Effect(p: Protocol, a: Action, q: Protocol) {
    && Live(q) == (match a
                   case Orchestrate(AddDispatch(t)) => Live(p) + {t}
                   case Work(t, RecordResult(_)) => Live(p) - {t}
                   case _ => Live(p))
    && Late(q) == (match a
                   case Work(t, RecordResult(_)) => Late(p) + {t}
                   case Work(t, SignalGroup) => Late(p) - {t}
                   case _ => Late(p))
    && Pushers(q) == (match a
                      case Orchestrate(AddDispatch(t)) => Pushers(p) + {t}
                      case Work(t, Announce(_)) => Pushers(p) - {t}
                      case _ => Pushers(p))
    && q.slot.outs == (match a
                       case Orchestrate(DrainResults) => []
                       case Work(_, RecordResult(r)) => p.slot.outs + [r]
                       case _ => p.slot.outs)
    && (!a.Orchestrate? ==> q.orch == p.orch)
  }

  lemma StepEffect(p: Protocol, a: Action)
    requires Control(p) && (p.orch.RowInserted? ==> p.orch.thread !in p.agents)
    requires ProtocolNext(p, a).Some?
    ensures Effect(p, a, ProtocolNext(p, a).value)
  {
    match a
    case Orchestrate(o) => OrchestratorSets(p, o);
    case Work(t, w) => AgentSets(p, t, w);
    case _ =>
  }

  lemma {:induction false} RunKeepsProtocol(s: State, acts: seq<Action>)
    requires ProtocolInv(s.protocol, s.table) && RunFrom(s, acts).Some?
    ensures ProtocolInv(RunFrom(s, acts).value.protocol, RunFrom(s, acts).value.table)
  {
    if acts != [] {
      RunKeepsProtocol(s, acts[..|acts| - 1]);
      var t := RunFrom(s, acts[..|acts| - 1]).value;
      StepKeepsProtocol(t.protocol, acts[|acts| - 1]);
      StepKeepsRows(t.protocol, t.table, acts[|acts| - 1]);
    }
  }

  lemma {:induction false} EveryReachableStateIsConsistent(acts: seq<Action>)
    requires After(acts).Some?
    ensures Inv(After(acts).value)
  {
    if acts == [] {
      EmptyHubInv();
    } else {
      EveryReachableStateIsConsistent(acts[..|acts| - 1]);
      StepKeepsInv(After(acts[..|acts| - 1]).value, acts[|acts| - 1]);
    }
  }
}
