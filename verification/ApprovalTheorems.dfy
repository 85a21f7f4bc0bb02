/** What the approval gate guarantees over all interleavings of rounds, decision requests,
    timeouts and cancellations. */
module ApprovalTheorems {
  import opened Wrappers
  import opened Approval
  import opened ApprovalProofs

  /** Fail-closed safety: whenever a high-risk tool has been executed, a row inserted by that
      very round, for that round's conversation, is written approved. */
  lemma HighRiskNeedsApproval(acts: seq<Action>, i: nat)
    requires After(acts).Some? && i < |After(acts).value.log|
    requires After(acts).value.log[i].executed && IsHighRisk(After(acts).value.log[i].tool)
    ensures var s := After(acts).value;
            exists b :: && b in s.rows && s.rows[b].status == Approved && s.rows[b].round == s.log[i].round
                        && s.log[i].round in s.rounds && s.rounds[s.log[i].round].conv == Some(s.rows[b].conv)
  {
    EveryReachableStateIsConsistent(acts);
    var s := After(acts).value;
    assert RoundInv(s.log[i].round, s.rounds[s.log[i].round], s.rows, s.channels);
  }

  // ---- Decisions --------------------------------------------------------------

  /** A row leaves `pending` at most once: a decision, once written, is never changed. */
  lemma {:induction false} DecidedOnce(s: State, more: seq<Action>)
    requires RunFrom(s, more).Some?
    ensures Grew(s.rows, RunFrom(s, more).value.rows)
  {
    if more != [] {
      DecidedOnce(s, more[..|more| - 1]);
      var t := RunFrom(s, more[..|more| - 1]).value;
      RowsAreStable(t.rows, t.rounds, more[|more| - 1]);
    }
  }

  /** Each channel carries at most one value: a request that reaches its channel always finds
      it empty and never used, so the non-blocking send never takes its default branch. */
  lemma SignalNeverFindsChannelFull(acts: seq<Action>, d: DeciderId)
    requires After(acts).Some? && d in After(acts).value.deciders && After(acts).value.deciders[d].Loaded?
    ensures var s := After(acts).value;
            var ch := s.deciders[d].ch;
            && ch !in s.channels.sent
            && Next(s, SendHit(d, ch, s.deciders[d].v)).Some?
            && Next(s, SendFull(d, ch)).None?
  {
    EveryReachableStateIsConsistent(acts);
    LoadedRequestSends(After(acts).value, d);
  }

  lemma LoadedRequestSends(s: State, d: DeciderId)
    requires OwnersInv(s.channels, s.rows) && SentInv(s.channels, s.rows, s.deciders)
    requires d in s.deciders && s.deciders[d].Loaded?
    ensures var ch := s.deciders[d].ch;
            && ch !in s.channels.sent
            && Next(s, SendHit(d, ch, s.deciders[d].v)).Some?
            && Next(s, SendFull(d, ch)).None?
  {
    LoadedChannelIsFresh(s.channels, s.rows, s.deciders, d);
  }

  lemma LoadedChannelIsFresh(c: Channels, rows: map<string, Row>, ds: map<DeciderId, Decider>, d: DeciderId)
    requires OwnersInv(c, rows) && SentInv(c, rows, ds) && d in ds && ds[d].Loaded?
    ensures ds[d].ch !in c.sent && ds[d].ch in c.buffers && c.buffers[ds[d].ch] == []
  {
  }

  /** What a waiting round receives is what its row says. */
  lemma ReceivedIsRecorded(acts: seq<Action>, r: RoundId, ch: ChannelId, v: bool)
    requires After(acts).Some? && Next(After(acts).value, InRound(r, Receive(ch, v))).Some?
    ensures var s := After(acts).value;
            && r in s.rounds && s.rounds[r].place.Waiting? && s.rounds[r].place.block in s.rows
            && s.rows[s.rounds[r].place.block].status == Verdict(v)
  {
    EveryReachableStateIsConsistent(acts);
    var s := After(acts).value;
    assert RoundInv(r, s.rounds[r], s.rows, s.channels);
  }

  /** Approved and rejected are never both set; once one is, it stays, the round inserts no
      further row, and every later high-risk call is decided by it without asking. */
  lemma SettledRoundStaysSettled(acts: seq<Action>, a: Action, r: RoundId)
    requires After(acts).Some? && Next(After(acts).value, a).Some? && r in After(acts).value.rounds
    ensures var state := After(acts).value.rounds[r].state;
            && !(state.approved && state.rejected)
            && r in Next(After(acts).value, a).value.rounds
            && (state != UNDECIDED ==> Next(After(acts).value, a).value.rounds[r].state == state)
            && (state != UNDECIDED && a.InRound? && a.r == r ==>
                  && !a.a.Insert?
                  && (a.a.Call? && IsHighRisk(a.a.tool) ==>
                        (Next(After(acts).value, a).value.rounds[r].place == Cleared(a.a.tool) <==> state.approved)))
  {
    EveryReachableStateIsConsistent(acts);
    var s := After(acts).value;
    SettledByStep(s.rounds, RoundsNext(s.rounds, a).value, a, r, s.rows, s.channels);
  }

  lemma SettledByStep(rounds: map<RoundId, Round>, after: map<RoundId, Round>, a: Action, r: RoundId,
                      rows: map<string, Row>, c: Channels)
    requires r in rounds && RoundInv(r, rounds[r], rows, c) && RoundsNext(rounds, a) == Some(after)
    ensures var state := rounds[r].state;
            && !(state.approved && state.rejected)
            && r in after
            && (state != UNDECIDED ==> after[r].state == state)
            && (state != UNDECIDED && a.InRound? && a.r == r ==>
                  && !a.a.Insert?
                  && (a.a.Call? && IsHighRisk(a.a.tool) ==> (after[r].place == Cleared(a.a.tool) <==> state.approved)))
  {
    RoundsStep(rounds, a);
  }

  // ---- Refused calls never run ------------------------------------------------

  /** Nobody will ever send on a channel of this decided block. */
  ghost predicate Mute(s: State, b: string) {
    && b in s.rows && s.rows[b].status != Pending
    && (forall d :: d in s.deciders ==> s.deciders[d].block != b)
    && (forall ch :: ch in s.channels.owner && s.channels.owner[ch] == b ==> ch !in s.channels.sent)
  }

  ghost predicate NeverRan(s: State, r: RoundId, k: nat) {
    forall i :: 0 <= i < |s.log| && s.log[i].round == r && s.log[i].call == k ==> !s.log[i].executed
  }

  /** Call `k` of round `r` has been refused, or is bound to be. */
  ghost predicate Doomed(s: State, r: RoundId, k: nat) {
    && r in s.rounds && NeverRan(s, r, k)
    && var round := s.rounds[r];
       || round.calls > k
       || (round.calls == k && round.place.Returning? && !round.place.ok)
       || (round.calls == k && (round.place.Inserted? || round.place.Waiting?) && Mute(s, round.place.block))
  }

  lemma MuteStays(s: State, a: Action, b: string)
    requires SentInv(s.channels, s.rows, s.deciders) && OwnersInv(s.channels, s.rows) && Mute(s, b) && Next(s, a).Some?
    ensures Mute(Next(s, a).value, b)
  {
    RowsAreStable(s.rows, s.rounds, a);
    var t := Next(s, a).value;
    NoNewDeciders(s.deciders, a, b);
    if a.SendHit? {
      assert s.channels.owner[a.ch] == s.deciders[a.d].block;
    }
    NoNewSends(s.channels, a, b);
  }

  lemma NoNewDeciders(ds: map<DeciderId, Decider>, a: Action, b: string)
    requires (forall d :: d in ds ==> ds[d].block != b) && DecidersNext(ds, a).Some?
    requires a.DecideHit? ==> a.block != b
    ensures forall d :: d in DecidersNext(ds, a).value ==> DecidersNext(ds, a).value[d].block != b
  {
  }

  lemma NoNewSends(c: Channels, a: Action, b: string)
    requires c.owner.Keys == c.buffers.Keys && ChannelsNext(c, a).Some?
    requires forall ch :: ch in c.sent ==> ch in c.owner
    requires forall ch :: ch in c.owner && c.owner[ch] == b ==> ch !in c.sent
    requires a.SendHit? && a.ch in c.owner ==> c.owner[a.ch] != b
    ensures var c' := ChannelsNext(c, a).value;
            forall ch :: ch in c'.owner && c'.owner[ch] == b ==> ch !in c'.sent
  {
  }

  /** Only `Execute` records a run, and it does so for the call in hand. */
  lemma NeverRanStays(s: State, a: Action, r: RoundId, k: nat)
    requires NeverRan(s, r, k) && Next(s, a).Some?
    requires a == InRound(r, Execute) && r in s.rounds ==> s.rounds[r].calls != k
    ensures NeverRan(Next(s, a).value, r, k)
  {
  }

  /** A step of a round whose call `k` is being refused. */
  lemma RefusalProceeds(round: Round, a: RoundAction, k: nat)
    requires RoundNext(round, a).Some?
    ensures round.calls > k ==> RoundNext(round, a).value.calls > k
    ensures round.calls == k && round.place.Returning? && !round.place.ok ==> RoundNext(round, a).value.calls > k
    ensures round.calls == k && (round.place.Inserted? || round.place.Waiting?) ==>
              var after := RoundNext(round, a).value;
              && after.calls == k
              && (a.Open? ==> after.place.Waiting? && after.place.block == round.place.block)
              && (a.TimeOut? || a.ContextDone? ==> after.place.Returning? && !after.place.ok)
              && (a.Open? || a.TimeOut? || a.ContextDone? || (a.Receive? && round.place.Waiting? && a.ch == round.place.ch))
    ensures round.place.Inserted? || round.place.Waiting? || (round.place.Returning? && !round.place.ok) ==> a != Execute
  {
  }

  lemma DoomedStays(s: State, a: Action, r: RoundId, k: nat)
    requires Inv(s) && Doomed(s, r, k) && Next(s, a).Some?
    ensures Doomed(Next(s, a).value, r, k)
  {
    RoundsStep(s.rounds, a);
    var round := s.rounds[r];
    if round.calls == k && (round.place.Inserted? || round.place.Waiting?) {
      MuteStays(s, a, round.place.block);
      NothingToReceive(s, r);
    }
    if a.InRound? && a.r == r {
      RefusalProceeds(round, a.a, k);
    }
    NeverRanStays(s, a, r, k);
  }

  lemma NothingToReceive(s: State, r: RoundId)
    requires SentInv(s.channels, s.rows, s.deciders) && r in s.rounds && RoundInv(r, s.rounds[r], s.rows, s.channels)
    requires s.rounds[r].place.Waiting? ==> Mute(s, s.rounds[r].place.block)
    ensures forall ch, v :: s.rounds[r].place.Waiting? && s.rounds[r].place.ch == ch ==>
              ChannelsNext(s.channels, InRound(r, Receive(ch, v))).None?
  {
  }

  lemma {:induction false} DoomedForEver(s: State, more: seq<Action>, r: RoundId, k: nat)
    requires Inv(s) && Doomed(s, r, k) && RunFrom(s, more).Some?
    ensures Inv(RunFrom(s, more).value) && Doomed(RunFrom(s, more).value, r, k)
  {
    if more != [] {
      var front := more[..|more| - 1];
      DoomedForEver(s, front, r, k);
      DoomedStays(RunFrom(s, front).value, more[|more| - 1], r, k);
      StepKeepsInv(RunFrom(s, front).value, more[|more| - 1]);
    }
  }

  /** A denial by another hook, a settled rejection, a failed insert, a missing conversation, a
      rejection, a timeout or a cancellation ends its call for good: in no continuation has that call's handler run. */
  lemma RefusedCallNeverRuns(acts: seq<Action>, r: RoundId, a: RoundAction, more: seq<Action>)
    requires After(acts).Some? && r in After(acts).value.rounds && Next(After(acts).value, InRound(r, a)).Some?
    requires || a.SecurityDenies? || a.NoConversation? || (a.Insert? && !a.ok) || (a.Receive? && !a.v) || a.TimeOut? || a.ContextDone?
             || (a.Call? && a.tool in {"write_file", "edit_file", "run_command"} && After(acts).value.rounds[r].state.rejected)
    requires RunFrom(Next(After(acts).value, InRound(r, a)).value, more).Some?
    ensures NeverRan(RunFrom(Next(After(acts).value, InRound(r, a)).value, more).value, r, After(acts).value.rounds[r].calls)
  {
    EveryReachableStateIsConsistent(acts);
    var s := After(acts).value;
    StepKeepsInv(s, InRound(r, a));
    RoundsStep(s.rounds, InRound(r, a));
    DoomedForEver(Next(s, InRound(r, a)).value, more, r, s.rounds[r].calls);
  }

  // ---- When a decision gets lost ----------------------------------------------

  predicate HoldsChannel(place: Place, b: string) {
    (place.Waiting? || place.Returning?) && place.block == b
  }

  /** A block has an open channel exactly while its round waits on it or is returning from it. */
  ghost predicate OpenAt(open: map<string, ChannelId>, rows: map<string, Row>, rounds: map<RoundId, Round>, b: string) {
    b in open <==> b in rows && rows[b].round in rounds && HoldsChannel(rounds[rows[b].round].place, b)
  }

  ghost predicate OpenInv(s: State) {
    forall b :: OpenAt(s.channels.open, s.rows, s.rounds, b)
  }

  /** How a step of a round moves it with respect to one block. */
  lemma RoundStepOpens(r: Round, a: RoundAction, b: string)
    requires RoundNext(r, a).Some?
    ensures HoldsChannel(RoundNext(r, a).value.place, b) <==>
              if a.Open? then a.block == b
              else HoldsChannel(r.place, b) && !a.Close?
    ensures a.Open? ==> r.place.Inserted? && r.place.block == a.block
    ensures a.Close? ==> r.place.Returning? && r.place.block == a.block
    ensures a.Insert? && a.ok ==> RoundNext(r, a).value.place.Inserted?
  {
  }

  lemma OpenStep(c: Channels, a: Action, b: string)
    requires ChannelsNext(c, a).Some?
    ensures b in ChannelsNext(c, a).value.open <==>
              if a.InRound? && a.a.Open? && a.a.block == b then true
              else b in c.open && !(a.InRound? && a.a.Close? && a.a.block == b)
  {
  }

  lemma StepKeepsOpenAt(s: State, a: Action, b: string)
    requires RoundsInv(s.rounds, s.rows, s.channels) && OpenAt(s.channels.open, s.rows, s.rounds, b) && Next(s, a).Some?
    ensures OpenAt(Next(s, a).value.channels.open, Next(s, a).value.rows, Next(s, a).value.rounds, b)
  {
    RoundsStep(s.rounds, a);
    RowsAreStable(s.rows, s.rounds, a);
    NewRowsHaveRounds(s, a);
    OpenStep(s.channels, a, b);
    if a.InRound? && a.r in s.rounds {
      assert RoundInv(a.r, s.rounds[a.r], s.rows, s.channels);
      RoundStepOpens(s.rounds[a.r], a.a, b);
    }
  }

  lemma {:induction false} OpenExactly(acts: seq<Action>)
    requires After(acts).Some?
    ensures OpenInv(After(acts).value)
  {
    if acts != [] {
      OpenExactly(acts[..|acts| - 1]);
      EveryReachableStateIsConsistent(acts[..|acts| - 1]);
      forall b
        ensures OpenAt(After(acts).value.channels.open, After(acts).value.rows, After(acts).value.rounds, b)
      {
        StepKeepsOpenAt(After(acts[..|acts| - 1]).value, acts[|acts| - 1], b);
      }
    }
  }

  /** A request whose row's round has not stored its channel yet, once it has found none,
      leaves the block mute. */
  lemma MissedSignalMutes(s: State, d: DeciderId, b: string)
    requires Inv(s) && d in s.deciders && s.deciders[d] == Decided(b, s.deciders[d].v)
    requires Next(s, LoadMiss(d, b)).Some?
    ensures Mute(Next(s, LoadMiss(d, b)).value, b)
  {
  }

  lemma MissedSignalDooms(s: State, d: DeciderId, b: string)
    requires Inv(s) && d in s.deciders && s.deciders[d] == Decided(b, s.deciders[d].v)
    requires Next(s, LoadMiss(d, b)).Some? && b in s.rows && s.rows[b].round in s.rounds
    requires s.rounds[s.rows[b].round].place.Inserted? && s.rounds[s.rows[b].round].place.block == b
    ensures var t := Next(s, LoadMiss(d, b)).value;
            Inv(t) && Doomed(t, s.rows[b].round, s.rounds[s.rows[b].round].calls)
  {
    StepKeepsInv(s, LoadMiss(d, b));
    MissedSignalMutes(s, d, b);
  }

  /** A request finds no channel to signal exactly when it looks while the asking round has
      inserted its row but not yet stored the channel, or has already deleted it. */
  lemma LookupMissesExactly(acts: seq<Action>, d: DeciderId)
    requires After(acts).Some? && d in After(acts).value.deciders && After(acts).value.deciders[d].Decided?
    ensures var s := After(acts).value;
            var b := s.deciders[d].block;
            && b in s.rows && s.rows[b].round in s.rounds
            && (Next(s, LoadMiss(d, b)).Some? <==> !HoldsChannel(s.rounds[s.rows[b].round].place, b))
  {
    EveryReachableStateIsConsistent(acts);
    OpenExactly(acts);
    var s := After(acts).value;
    assert OpenAt(s.channels.open, s.rows, s.rounds, s.deciders[d].block);
  }

  /** A request that looks for its channel while the row is inserted but the channel not yet
      stored keeps the gate closed: even an approved call never runs. */
  lemma EarlyDecisionRefuses(acts: seq<Action>, d: DeciderId, b: string, more: seq<Action>)
    requires After(acts).Some? && d in After(acts).value.deciders && After(acts).value.deciders[d].Decided?
    requires b == After(acts).value.deciders[d].block && b in After(acts).value.rows
    requires After(acts).value.rows[b].round in After(acts).value.rounds
    requires var place := After(acts).value.rounds[After(acts).value.rows[b].round].place; place.Inserted? && place.block == b
    requires Next(After(acts).value, LoadMiss(d, b)).Some?
    requires RunFrom(Next(After(acts).value, LoadMiss(d, b)).value, more).Some?
    ensures var r := After(acts).value.rows[b].round;
            NeverRan(RunFrom(Next(After(acts).value, LoadMiss(d, b)).value, more).value, r, After(acts).value.rounds[r].calls)
  {
    EveryReachableStateIsConsistent(acts);
    var s := After(acts).value;
    MissedSignalDooms(s, d, b);
    DoomedForEver(Next(s, LoadMiss(d, b)).value, more, s.rows[b].round, s.rounds[s.rows[b].round].calls);
  }
}
