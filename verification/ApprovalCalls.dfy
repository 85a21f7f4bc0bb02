/** What the gate does with each tool, told by the tools' names and the steps of a run alone. */
module ApprovalCalls {
  import opened Wrappers
  import Machines
  import opened Approval
  import opened ApprovalProofs
  import opened ApprovalTheorems

  /** The tool of the last call that round `r` has begun. */
  function LastCall(acts: seq<Action>, r: RoundId): string {
    if acts == [] then ""
    else
      match acts[|acts| - 1]
      case InRound(q, Call(tool)) => if q == r then tool else LastCall(acts[..|acts| - 1], r)
      case _ => LastCall(acts[..|acts| - 1], r)
  }

  predicate IsAtTool(place: Place, tool: string) {
    match place
    case Between => true
    case Asking(t) => t == tool
    case Inserted(t, _) => t == tool
    case Waiting(t, _, _) => t == tool
    case Returning(t, _, _) => t == tool
    case Cleared(t) => t == tool
  }

  lemma StepKeepsTool(rounds: map<RoundId, Round>, a: Action, r: RoundId, tool: string)
    requires RoundsNext(rounds, a).Some? && r in RoundsNext(rounds, a).value
    requires r in rounds ==> IsAtTool(rounds[r].place, tool)
    requires !(a.InRound? && a.r == r && a.a.Call?)
    ensures IsAtTool(RoundsNext(rounds, a).value[r].place, tool)
  {
    RoundsStep(rounds, a);
  }

  lemma CallSetsTool(rounds: map<RoundId, Round>, r: RoundId, tool: string)
    requires RoundsNext(rounds, InRound(r, Call(tool))).Some?
    ensures r in rounds && IsAtTool(RoundsNext(rounds, InRound(r, Call(tool))).value[r].place, tool)
  {
  }

  /** A round is always busy with the call it began last. */
  lemma {:induction false} PlaceIsLastCall(acts: seq<Action>, r: RoundId)
    requires After(acts).Some? && r in After(acts).value.rounds
    ensures IsAtTool(After(acts).value.rounds[r].place, LastCall(acts, r))
  {
    if acts != [] {
      var front, a := acts[..|acts| - 1], acts[|acts| - 1];
      var s := After(front).value;
      if r in s.rounds {
        PlaceIsLastCall(front, r);
      } else {
        RoundsStep(s.rounds, a);
      }
      if a.InRound? && a.r == r && a.a.Call? {
        CallSetsTool(s.rounds, r, a.a.tool);
      } else {
        StepKeepsTool(s.rounds, a, r, LastCall(front, r));
      }
    }
  }

  /** Fail-closed safety, in the steps of a run alone: when a round executes the call it began last
      and that is a `write_file`, an `edit_file` or a `run_command`, a row that this very round
      inserted, for its conversation, is written approved. */
  lemma RiskyToolNeedsApproval(acts: seq<Action>, r: RoundId)
    requires After(acts + [InRound(r, Execute)]).Some?
    requires LastCall(acts, r) == "write_file" || LastCall(acts, r) == "edit_file" || LastCall(acts, r) == "run_command"
    ensures After(acts).Some? && r in After(acts).value.rounds
    ensures var s := After(acts).value;
            exists b :: b in s.rows && s.rows[b].status == Approved && s.rows[b].round == r
                        && s.rounds[r].conv == Some(s.rows[b].conv)
  {
    Machines.StepAfter(Next, START, acts, InRound(r, Execute));
    EveryReachableStateIsConsistent(acts);
    PlaceIsLastCall(acts, r);
    ExecutedIsApproved(After(acts).value, r, LastCall(acts, r));
  }

  lemma ExecutedIsApproved(s: State, r: RoundId, tool: string)
    requires RoundsInv(s.rounds, s.rows, s.channels) && r in s.rounds && IsAtTool(s.rounds[r].place, tool)
    requires Next(s, InRound(r, Execute)).Some?
    requires tool == "write_file" || tool == "edit_file" || tool == "run_command"
    ensures exists b :: b in s.rows && s.rows[b].status == Approved && s.rows[b].round == r
                        && s.rounds[r].conv == Some(s.rows[b].conv)
  {
    assert RoundInv(r, s.rounds[r], s.rows, s.channels);
    assert s.rounds[r].place == Cleared(tool);
    assert s.rounds[r].settledBy in s.rows;
  }

  /** The log says so: an executed call is logged with its tool, and nothing else logs one. */
  lemma ExecutionIsLogged(acts: seq<Action>, a: Action)
    requires After(acts + [a]).Some?
    ensures After(acts).Some?
    ensures var s, t := After(acts).value, After(acts + [a]).value;
            if a.InRound? && a.a == Execute
            then a.r in s.rounds && t.log == s.log + [Entered(a.r, s.rounds[a.r].calls, LastCall(acts, a.r), true)]
            else t.log == s.log || (|t.log| == |s.log| + 1 && t.log[..|s.log|] == s.log && !t.log[|s.log|].executed)
  {
    Machines.StepAfter(Next, START, acts, a);
    if a.InRound? && a.a == Execute {
      PlaceIsLastCall(acts, a.r);
    }
  }

  /** Any other tool passes the approval hook in every state of its round, without a row. */
  lemma OrdinaryToolPasses(s: State, r: RoundId, tool: string)
    requires r in s.rounds && s.rounds[r].place.Between?
    requires tool != "write_file" && tool != "edit_file" && tool != "run_command"
    ensures Next(s, InRound(r, Call(tool))) == Some(s.(rounds := s.rounds[r := s.rounds[r].(place := Cleared(tool))]))
    ensures Next(Next(s, InRound(r, Call(tool))).value, InRound(r, Execute)).Some?
  {
  }

  /** A risky tool is refused in a rejected round, passes in an approved one, and is about to ask in
      an undecided one. */
  lemma RiskyToolIsGated(s: State, r: RoundId, tool: string)
    requires r in s.rounds && s.rounds[r].place.Between?
    requires tool == "write_file" || tool == "edit_file" || tool == "run_command"
    ensures var t := Next(s, InRound(r, Call(tool)));
            && t.Some? && r in t.value.rounds && t.value.rows == s.rows && t.value.channels == s.channels
            && t.value.rounds[r] ==
               (if s.rounds[r].state.rejected then s.rounds[r].(calls := s.rounds[r].calls + 1)
                else s.rounds[r].(place := if s.rounds[r].state.approved then Cleared(tool) else Asking(tool)))
  {
  }

  /** Where a round asks, the row may be accepted or refused; where it waits, the timer may fire or
      its context end at any moment. An earlier pre-hook may refuse any call. */
  lemma WaysToEnd(s: State, r: RoundId, block: string)
    requires r in s.rounds
    ensures s.rounds[r].place.Between? ==>
              Next(s, InRound(r, SecurityDenies)) ==
              Some(s.(rounds := s.rounds[r := s.rounds[r].(calls := s.rounds[r].calls + 1)],
                      log := s.log + [Entered(r, s.rounds[r].calls, "", false)]))
    ensures s.rounds[r].place.Asking? && s.rounds[r].conv.None? ==> Next(s, InRound(r, NoConversation)).Some?
    ensures s.rounds[r].place.Asking? && s.rounds[r].conv.Some? ==>
              && Next(s, InRound(r, Insert(block, false))).Some?
              && (Next(s, InRound(r, Insert(block, true))).Some? <==> block !in s.rows)
    ensures s.rounds[r].place.Waiting? ==>
              Next(s, InRound(r, TimeOut)).Some? && Next(s, InRound(r, ContextDone)).Some?
  {
  }

  // ---- Who decides ------------------------------------------------------------

  /** The step is a request of this conversation that writes this decision into the row. */
  predicate Decides(a: Action, b: string, row: Row) {
    && a.DecideHit? && a.block == b && a.conv == row.conv
    && (row.status == Approved <==> a.v) && (row.status == Rejected <==> !a.v)
  }

  /** Every decided row was decided by a request for that block that named the row's conversation. */
  lemma {:induction false} RowsAreDecidedByRequests(acts: seq<Action>, b: string)
    requires After(acts).Some? && b in After(acts).value.rows && After(acts).value.rows[b].status != Pending
    ensures exists i :: 0 <= i < |acts| && Decides(acts[i], b, After(acts).value.rows[b])
  {
    var front, a := acts[..|acts| - 1], acts[|acts| - 1];
    var s := After(front).value;
    RowsAreStable(s.rows, s.rounds, a);
    if b in s.rows && s.rows[b].status != Pending {
      RowsAreDecidedByRequests(front, b);
      var i :| 0 <= i < |front| && Decides(front[i], b, s.rows[b]);
      assert Decides(acts[i], b, After(acts).value.rows[b]);
    } else {
      DecidingStep(s, a, b);
      assert Decides(acts[|acts| - 1], b, After(acts).value.rows[b]);
    }
  }

  lemma DecidingStep(s: State, a: Action, b: string)
    requires Next(s, a).Some? && b in Next(s, a).value.rows && Next(s, a).value.rows[b].status != Pending
    requires b in s.rows ==> s.rows[b].status == Pending
    ensures b in s.rows && Decides(a, b, Next(s, a).value.rows[b])
  {
  }

  /** A request writes its decision exactly if the row is there, pending and of its conversation;
      otherwise it finds none. */
  lemma DecisionIsWrittenExactly(s: State, d: DeciderId, b: string, conv: string, v: bool, reported: bool)
    requires d !in s.deciders
    ensures Next(s, DecideHit(d, b, conv, v, reported)).Some? <==>
              b in s.rows && s.rows[b].status == Pending && s.rows[b].conv == conv
    ensures Next(s, DecideMiss(b, conv)).Some? <==>
              !(b in s.rows && s.rows[b].status == Pending && s.rows[b].conv == conv)
  {
  }
}
