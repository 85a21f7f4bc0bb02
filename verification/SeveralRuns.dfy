/** The registry of one conversation under several runs at once, which nothing rules out: each run
    adds, waits and drains as if it were alone. */
module SeveralRuns {
  import opened Wrappers
  import Machines
  import opened DispatchRegistry

  /** The calls of all runs and of their subagents, in the order in which they take the lock. */
  datatype Call =
    | Add(t: ThreadId)
    | Record(t: ThreadId, r: SubAgentResult)  // the locked half of Done
    | Drain

  /** `live` are the subagents added that have not recorded; `forgotten` those of them that were
      live when somebody last drained. */
  datatype State = State(slot: Slot<nat>, groups: nat, live: set<ThreadId>, forgotten: set<ThreadId>, gone: set<ThreadId>)

  const START := State(Vacant(), 0, {}, {}, {})

  function Next(s: State, c: Call): Option<State> {
    match c
    case Add(t) =>
      if t in s.live || t in s.gone then None
      else Some(s.(slot := Added(s.slot, s.groups), groups := s.groups + 1, live := s.live + {t}))
    case Record(t, r) =>
      if t !in s.live || r.thread != t then None
      else Some(s.(slot := Finished(s.slot, r), live := s.live - {t}, gone := s.gone + {t}))
    case Drain => Some(s.(slot := Vacant(), forgotten := s.live))
  }

  function After(calls: seq<Call>): Option<State> {
    Machines.Run(Next, START, calls)
  }

  ghost predicate Inv(s: State) {
    && s.slot.pending == |s.live| - |s.forgotten|
    && s.live !! s.gone && s.forgotten <= s.live + s.gone
    && (s.slot.wg.None? ==> s.live <= s.forgotten)
  }

  lemma StepKeepsInv(s: State, c: Call)
    requires Inv(s) && Next(s, c).Some?
    ensures Inv(Next(s, c).value)
  {
    if c.Record? {
      assert |s.live - {c.t}| == |s.live| - 1;
    }
  }

  lemma {:induction false} EveryReachableStateIsConsistent(calls: seq<Call>)
    requires After(calls).Some?
    ensures Inv(After(calls).value)
  {
    if calls != [] {
      EveryReachableStateIsConsistent(calls[..|calls| - 1]);
      StepKeepsInv(After(calls[..|calls| - 1]).value, calls[|calls| - 1]);
    }
  }

  /** The pending count is short by the subagents that were still live at the last drain, whoever
      drained. So it is right exactly if there were none, which a run that is alone makes sure of by
      waiting first. */
  lemma PendingIsRightExactly(calls: seq<Call>)
    requires After(calls).Some?
    ensures var s := After(calls).value;
            && s.slot.pending == |s.live| - |s.forgotten|
            && (s.slot.pending == |s.live| <==> s.forgotten == {})
  {
    EveryReachableStateIsConsistent(calls);
  }

  /** And it can be brought below zero exactly then: once every live subagent has recorded. */
  lemma {:induction false} AllRecord(s: State) returns (more: seq<Call>)
    requires Inv(s)
    ensures forall c :: c in more ==> !c.Drain?
    ensures var t := Machines.Run(Next, s, more);
            t.Some? && t.value.live == {} && t.value.forgotten == s.forgotten && t.value.slot.pending == -|s.forgotten|
    decreases s.live
  {
    more := [];
    if s.live != {} {
      var t :| t in s.live;
      var c := Record(t, SubAgentResult("", t, "", None));
      StepKeepsInv(s, c);
      var rest := AllRecord(Next(s, c).value);
      Machines.OneStep(Next, s, c);
      Machines.RunAppend(Next, s, [c], rest);
      more := [c] + rest;
    }
  }

  lemma {:induction false} PendingTurnsNegativeExactly(calls: seq<Call>)
    requires After(calls).Some?
    ensures (exists more :: RecordsBelowZero(After(calls).value, more)) <==> After(calls).value.forgotten != {}
  {
    EveryReachableStateIsConsistent(calls);
    TurnsNegativeExactly(After(calls).value);
  }

  lemma TurnsNegativeExactly(s: State)
    requires Inv(s)
    ensures (exists more :: RecordsBelowZero(s, more)) <==> s.forgotten != {}
  {
    if s.forgotten != {} {
      var more := AllRecord(s);
      assert |s.forgotten| > 0;
      assert RecordsBelowZero(s, more);
    } else {
      forall more: seq<Call> | (forall c :: c in more ==> !c.Drain?) && Machines.Run(Next, s, more).Some?
        ensures !RecordsBelowZero(s, more)
      {
        NobodyIsForgotten(s, more);
      }
    }
  }

  /** Without a further drain the count drops below zero. */
  ghost predicate RecordsBelowZero(s: State, more: seq<Call>) {
    && (forall c :: c in more ==> !c.Drain?)
    && Machines.Run(Next, s, more).Some? && Machines.Run(Next, s, more).value.slot.pending < 0
  }

  lemma {:induction false} NobodyIsForgotten(s: State, more: seq<Call>)
    requires Inv(s) && s.forgotten == {} && (forall c :: c in more ==> !c.Drain?) && Machines.Run(Next, s, more).Some?
    ensures var t := Machines.Run(Next, s, more).value; Inv(t) && t.forgotten == {} && t.slot.pending >= 0
  {
    if more != [] {
      NobodyIsForgotten(s, more[..|more| - 1]);
      NoneForgottenStep(Machines.Run(Next, s, more[..|more| - 1]).value, more[|more| - 1]);
    }
  }

  lemma NoneForgottenStep(s: State, c: Call)
    requires Inv(s) && s.forgotten == {} && !c.Drain? && Next(s, c).Some?
    ensures var t := Next(s, c).value; Inv(t) && t.forgotten == {} && t.slot.pending >= 0
  {
    StepKeepsInv(s, c);
  }

  /** One run has waited for its subagent 0; before it drains, another run adds subagent 1. */
  const INTERLEAVED: seq<Call> := [Add(0), Record(0, SubAgentResult("", 0, "", None)), Add(1), Drain]

  /** Subagent 1 is live, and yet nobody is pending: the other run would skip its fan-in, and when
      the subagent records, the count goes to -1 and there is no group to signal. */
  lemma AddBeforeDrainIsForgotten()
    ensures var s := After(INTERLEAVED);
            && s.Some? && s.value.live == {1} && s.value.slot == Vacant()
            && var t := Next(s.value, Record(1, SubAgentResult("", 1, "", None)));
               t.Some? && t.value.slot.pending == -1 && t.value.slot.wg.None?
  {
    Machines.ThreeSteps(Next, START, INTERLEAVED[0], INTERLEAVED[1], INTERLEAVED[2]);
    assert INTERLEAVED == [INTERLEAVED[0], INTERLEAVED[1], INTERLEAVED[2]] + [Drain];
    Machines.StepAfter(Next, START, [INTERLEAVED[0], INTERLEAVED[1], INTERLEAVED[2]], Drain);
  }
}
