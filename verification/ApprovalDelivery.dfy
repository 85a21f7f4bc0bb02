/** When a recorded decision reaches the call that asked for it. */
module ApprovalDelivery {
  import opened Wrappers
  import Machines
  import opened Approval
  import opened ApprovalProofs
  import opened ApprovalTheorems

  /** The decision of the block is written. */
  predicate IsDecided(rows: map<string, Row>, b: string) {
    b in rows && rows[b].status != Pending
  }

  /** The round that inserted the block's row has yet to take a value for it. */
  predicate MayTake(s: State, b: string) {
    && b in s.rows && s.rows[b].round in s.rounds
    && var place := s.rounds[s.rows[b].round].place;
       (place.Inserted? || place.Waiting?) && place.block == b
  }

  /** A request is on its way to signal the block, or has already left its value in the slot. */
  ghost predicate Carried(s: State, b: string) {
    || (exists d :: d in s.deciders && s.deciders[d].block == b)
    || (exists ch :: ch in s.channels.owner && s.channels.owner[ch] == b && ch in s.channels.buffers
                     && s.channels.buffers[ch] != [])
  }

  /** Some round can take a value for the block right now. */
  ghost predicate Receives(s: State, b: string) {
    exists r, ch, v :: TakesNow(s, b, r, ch, v)
  }

  predicate TakesNow(s: State, b: string, r: RoundId, ch: ChannelId, v: bool) {
    && r in s.rounds && s.rounds[r].place.Waiting? && s.rounds[r].place.block == b
    && Next(s, InRound(r, Receive(ch, v))).Some?
  }

  /** After the steps `more` the decision of the block is received. */
  ghost predicate Delivers(s: State, b: string, more: seq<Action>) {
    RunFrom(s, more).Some? && Receives(RunFrom(s, more).value, b)
  }

  // ---- What rules delivery out ------------------------------------------------

  /** A decided block whose value can no longer arrive. */
  ghost predicate OutOfReach(s: State, b: string) {
    IsDecided(s.rows, b) && !(MayTake(s, b) && Carried(s, b))
  }

  /** Only the round's own `Insert` puts it in front of its block, and that comes first. */
  lemma TakingEnds(s: State, a: Action, b: string)
    requires RoundsInv(s.rounds, s.rows, s.channels) && b in s.rows && !MayTake(s, b) && Next(s, a).Some?
    ensures !MayTake(Next(s, a).value, b)
  {
    RowsAreStable(s.rows, s.rounds, a);
    RoundsStep(s.rounds, a);
    var r := s.rows[b].round;
    if a.InRound? && a.r == r {
      PlaceStep(s.rounds[r], a.a, b);
    }
  }

  /** How a step of a round moves it in front of a block. */
  lemma PlaceStep(round: Round, a: RoundAction, b: string)
    requires RoundNext(round, a).Some?
    ensures var after := RoundNext(round, a).value.place;
            && ((after.Inserted? || after.Waiting?) && after.block == b ==>
                  || a == Insert(b, true)
                  || ((round.place.Inserted? || round.place.Waiting?) && round.place.block == b))
  {
  }

  /** A decided block gets no new request, and without one no value. */
  lemma CarryingEnds(s: State, a: Action, b: string)
    requires OwnersInv(s.channels, s.rows) && SentInv(s.channels, s.rows, s.deciders)
    requires IsDecided(s.rows, b) && !Carried(s, b) && Next(s, a).Some?
    ensures !Carried(Next(s, a).value, b)
  {
    var t := Next(s, a).value;
    NoNewDeciders(s.deciders, a, b);
    if a.SendHit? {
      assert s.channels.owner[a.ch] == s.deciders[a.d].block;
    }
    forall ch | ch in t.channels.owner && t.channels.owner[ch] == b && ch in t.channels.buffers
      ensures t.channels.buffers[ch] == []
    {
      BufferStep(s.channels, a, ch);
    }
  }

  /** Only a send fills a buffer. */
  lemma BufferStep(c: Channels, a: Action, ch: ChannelId)
    requires ChannelsNext(c, a).Some? && c.owner.Keys == c.buffers.Keys
    requires ch in ChannelsNext(c, a).value.buffers
    ensures var c' := ChannelsNext(c, a).value;
            c'.buffers[ch] != [] && !(a.SendHit? && a.ch == ch) ==> ch in c.buffers && c.buffers[ch] != [] && ch in c.owner && c'.owner[ch] == c.owner[ch]
  {
  }

  lemma OutOfReachStays(s: State, a: Action, b: string)
    requires Inv(s) && OutOfReach(s, b) && Next(s, a).Some?
    ensures OutOfReach(Next(s, a).value, b)
  {
    RowsAreStable(s.rows, s.rounds, a);
    if MayTake(s, b) {
      CarryingEnds(s, a, b);
    } else {
      TakingEnds(s, a, b);
    }
  }

  lemma TakenIsCarried(s: State, b: string, r: RoundId, ch: ChannelId, v: bool)
    requires Inv(s) && TakesNow(s, b, r, ch, v)
    ensures MayTake(s, b) && Carried(s, b) && s.rows[b].status == Verdict(v) && s.rows[b].round == r
  {
    assert RoundInv(r, s.rounds[r], s.rows, s.channels);
    assert s.channels.owner[ch] == b && s.channels.buffers[ch] != [];
  }

  lemma {:induction false} OutOfReachForEver(s: State, b: string, more: seq<Action>)
    requires Inv(s) && OutOfReach(s, b) && RunFrom(s, more).Some?
    ensures Inv(RunFrom(s, more).value) && OutOfReach(RunFrom(s, more).value, b) && !Delivers(s, b, more)
  {
    if more != [] {
      var front := more[..|more| - 1];
      OutOfReachForEver(s, b, front);
      OutOfReachStays(RunFrom(s, front).value, more[|more| - 1], b);
      StepKeepsInv(RunFrom(s, front).value, more[|more| - 1]);
    }
    var t := RunFrom(s, more).value;
    if Receives(t, b) {
      var r, ch, v :| TakesNow(t, b, r, ch, v);
      TakenIsCarried(t, b, r, ch, v);
    }
  }

  // ---- What brings it about ---------------------------------------------------

  ghost predicate Ready(s: State, b: string) {
    Inv(s) && OpenInv(s) && MayTake(s, b)
  }

  lemma StepKeepsOpen(s: State, a: Action)
    requires Inv(s) && OpenInv(s) && Next(s, a).Some?
    ensures Inv(Next(s, a).value) && OpenInv(Next(s, a).value)
  {
    StepKeepsInv(s, a);
    forall b
      ensures OpenAt(Next(s, a).value.channels.open, Next(s, a).value.rows, Next(s, a).value.rounds, b)
    {
      StepKeepsOpenAt(s, a, b);
    }
  }

  lemma DeliversLater(s: State, a: Action, b: string, rest: seq<Action>)
    requires Next(s, a).Some? && Delivers(Next(s, a).value, b, rest)
    ensures Delivers(s, b, [a] + rest)
  {
    Machines.OneStep(Next, s, a);
    Machines.RunAppend(Next, s, [a], rest);
  }

  /** A value in the slot of a block whose round has yet to take it. */
  lemma BufferedIsTaken(s: State, b: string, ch: ChannelId)
    requires Ready(s, b) && ch in s.channels.owner && s.channels.owner[ch] == b
    requires ch in s.channels.buffers && s.channels.buffers[ch] != []
    ensures s.rounds[s.rows[b].round].place.Waiting?
    ensures TakesNow(s, b, s.rows[b].round, ch, s.channels.buffers[ch][0])
  {
    assert RoundInv(s.rows[b].round, s.rounds[s.rows[b].round], s.rows, s.channels);
  }

  lemma BufferedArrives(s: State, b: string, ch: ChannelId) returns (more: seq<Action>)
    requires Ready(s, b) && ch in s.channels.owner && s.channels.owner[ch] == b
    requires ch in s.channels.buffers && s.channels.buffers[ch] != []
    ensures Delivers(s, b, more) && s.rounds[s.rows[b].round].place.Waiting?
  {
    BufferedIsTaken(s, b, ch);
    more := [];
  }

  lemma LoadedArrives(s: State, b: string, d: DeciderId) returns (more: seq<Action>)
    requires Ready(s, b) && d in s.deciders && s.deciders[d].Loaded? && s.deciders[d].block == b
    ensures Delivers(s, b, more) && s.rounds[s.rows[b].round].place.Waiting?
  {
    var a := SendHit(d, s.deciders[d].ch, s.deciders[d].v);
    SendFills(s, b, d);
    StepKeepsOpen(s, a);
    var rest := BufferedArrives(Next(s, a).value, b, s.deciders[d].ch);
    DeliversLater(s, a, b, rest);
    more := [a] + rest;
  }

  lemma SendStep(s: State, d: DeciderId)
    requires d in s.deciders && s.deciders[d].Loaded?
    requires s.deciders[d].ch in s.channels.buffers && s.channels.buffers[s.deciders[d].ch] == []
    ensures var ch, v := s.deciders[d].ch, s.deciders[d].v;
            var c := s.channels;
            Next(s, SendHit(d, ch, v)) ==
            Some(s.(channels := c.(buffers := c.buffers[ch := [] + [v]], sent := c.sent[ch := v]), deciders := s.deciders - {d}))
  {
  }

  lemma SendFills(s: State, b: string, d: DeciderId)
    requires OwnersInv(s.channels, s.rows) && SentInv(s.channels, s.rows, s.deciders) && MayTake(s, b)
    requires d in s.deciders && s.deciders[d].Loaded? && s.deciders[d].block == b
    ensures var t := Next(s, SendHit(d, s.deciders[d].ch, s.deciders[d].v));
            && t.Some? && MayTake(t.value, b) && t.value.rows == s.rows && t.value.rounds == s.rounds
            && s.deciders[d].ch in t.value.channels.owner && t.value.channels.owner[s.deciders[d].ch] == b
            && s.deciders[d].ch in t.value.channels.buffers && t.value.channels.buffers[s.deciders[d].ch] != []
  {
    LoadedChannelIsFresh(s.channels, s.rows, s.deciders, d);
    SendStep(s, d);
  }

  lemma DecidedArrives(s: State, b: string, d: DeciderId) returns (more: seq<Action>)
    requires Ready(s, b) && d in s.deciders && s.deciders[d].Decided? && s.deciders[d].block == b
    requires s.rounds[s.rows[b].round].place.Waiting?
    ensures Delivers(s, b, more)
  {
    LookupFinds(s, b, d);
    var a := LoadHit(d, b, s.channels.open[b]);
    StepKeepsOpen(s, a);
    var rest := LoadedArrives(Next(s, a).value, b, d);
    DeliversLater(s, a, b, rest);
    more := [a] + rest;
  }

  lemma LookupStep(s: State, d: DeciderId)
    requires d in s.deciders && s.deciders[d].Decided? && s.deciders[d].block in s.channels.open
    ensures var b := s.deciders[d].block;
            Next(s, LoadHit(d, b, s.channels.open[b])) ==
            Some(s.(deciders := s.deciders[d := Loaded(b, s.channels.open[b], s.deciders[d].v)]))
  {
  }

  lemma LookupFinds(s: State, b: string, d: DeciderId)
    requires OpenInv(s) && MayTake(s, b) && d in s.deciders && s.deciders[d].Decided? && s.deciders[d].block == b
    requires s.rounds[s.rows[b].round].place.Waiting?
    ensures b in s.channels.open
    ensures var t := Next(s, LoadHit(d, b, s.channels.open[b]));
            && t.Some? && t.value.rows == s.rows && t.value.rounds == s.rounds && MayTake(t.value, b)
            && d in t.value.deciders && t.value.deciders[d].Loaded? && t.value.deciders[d].block == b
  {
    WaitingIsOpen(s, b);
    LookupStep(s, d);
  }

  lemma WaitingIsOpen(s: State, b: string)
    requires OpenInv(s) && MayTake(s, b) && s.rounds[s.rows[b].round].place.Waiting?
    ensures b in s.channels.open
  {
    assert OpenAt(s.channels.open, s.rows, s.rounds, b);
  }

  lemma EarlyArrives(s: State, b: string, d: DeciderId) returns (more: seq<Action>)
    requires Ready(s, b) && d in s.deciders && s.deciders[d].Decided? && s.deciders[d].block == b
    requires s.rounds[s.rows[b].round].place.Inserted?
    ensures Delivers(s, b, more)
  {
    var ch := FreshNumber(s.channels.buffers.Keys);
    var a := InRound(s.rows[b].round, Open(b, ch));
    StepKeepsOpen(s, a);
    var rest := DecidedArrives(Next(s, a).value, b, d);
    DeliversLater(s, a, b, rest);
    more := [a] + rest;
  }

  lemma CarriedArrives(s: State, b: string) returns (more: seq<Action>)
    requires Ready(s, b) && Carried(s, b)
    ensures Delivers(s, b, more)
  {
    if d :| d in s.deciders && s.deciders[d].block == b {
      if s.deciders[d].Loaded? {
        more := LoadedArrives(s, b, d);
      } else if s.rounds[s.rows[b].round].place.Waiting? {
        more := DecidedArrives(s, b, d);
      } else {
        more := EarlyArrives(s, b, d);
      }
    } else {
      var ch :| ch in s.channels.owner && s.channels.owner[ch] == b && ch in s.channels.buffers && s.channels.buffers[ch] != [];
      more := BufferedArrives(s, b, ch);
    }
  }

  // ---- Exactly ----------------------------------------------------------------

  /** Whether a recorded decision can still arrive: exactly while the round that asked has yet to
      take a value for it, and a request is on its way to signal it or has left it in the slot. */
  lemma {:induction false} DecisionArrivesExactly(acts: seq<Action>, b: string)
    requires After(acts).Some? && IsDecided(After(acts).value.rows, b)
    ensures var s := After(acts).value;
            (exists more :: Delivers(s, b, more)) <==> MayTake(s, b) && Carried(s, b)
  {
    EveryReachableStateIsConsistent(acts);
    OpenExactly(acts);
    ArrivesExactly(After(acts).value, b);
  }

  lemma ArrivesExactly(s: State, b: string)
    requires Inv(s) && OpenInv(s) && IsDecided(s.rows, b)
    ensures (exists more :: Delivers(s, b, more)) <==> MayTake(s, b) && Carried(s, b)
  {
    if MayTake(s, b) && Carried(s, b) {
      var more := CarriedArrives(s, b);
    } else {
      forall more | RunFrom(s, more).Some?
        ensures !Delivers(s, b, more)
      {
        OutOfReachForEver(s, b, more);
      }
    }
  }

  /** For a request that is still on its way: its decision can arrive exactly while the round
      waits for it, or has inserted its row and the request has not looked for the channel yet. */
  lemma {:induction false} RequestArrivesExactly(acts: seq<Action>, d: DeciderId)
    requires After(acts).Some? && d in After(acts).value.deciders
    ensures var s := After(acts).value;
            var b := s.deciders[d].block;
            && b in s.rows && s.rows[b].round in s.rounds
            && var place := s.rounds[s.rows[b].round].place;
               ((exists more :: Delivers(s, b, more)) <==>
                  HasBlock(place) && place.block == b
                  && (place.Waiting? || (place.Inserted? && s.deciders[d].Decided?)))
  {
    EveryReachableStateIsConsistent(acts);
    OpenExactly(acts);
    RequestArrives(After(acts).value, d);
  }

  lemma RequestArrives(s: State, d: DeciderId)
    requires Inv(s) && OpenInv(s) && d in s.deciders
    ensures var b := s.deciders[d].block;
            && b in s.rows && s.rows[b].round in s.rounds
            && var place := s.rounds[s.rows[b].round].place;
               ((exists more :: Delivers(s, b, more)) <==>
                  HasBlock(place) && place.block == b
                  && (place.Waiting? || (place.Inserted? && s.deciders[d].Decided?)))
  {
    var b := s.deciders[d].block;
    ArrivesExactly(s, b);
    assert RoundInv(s.rows[b].round, s.rounds[s.rows[b].round], s.rows, s.channels);
  }

  /** For a value that is already in the slot: exactly while the round waits. */
  lemma {:induction false} BufferedArrivesExactly(acts: seq<Action>, ch: ChannelId)
    requires After(acts).Some? && ch in After(acts).value.channels.buffers && After(acts).value.channels.buffers[ch] != []
    ensures var s := After(acts).value;
            && ch in s.channels.owner
            && var b := s.channels.owner[ch];
            && b in s.rows && s.rows[b].round in s.rounds
            && var place := s.rounds[s.rows[b].round].place;
               ((exists more :: Delivers(s, b, more)) <==> place.Waiting? && place.block == b)
  {
    EveryReachableStateIsConsistent(acts);
    OpenExactly(acts);
    BufferedArrivesIff(After(acts).value, ch);
  }

  lemma BufferedArrivesIff(s: State, ch: ChannelId)
    requires Inv(s) && OpenInv(s) && ch in s.channels.buffers && s.channels.buffers[ch] != []
    ensures ch in s.channels.owner
    ensures var b := s.channels.owner[ch];
            && b in s.rows && s.rows[b].round in s.rounds
            && var place := s.rounds[s.rows[b].round].place;
               ((exists more :: Delivers(s, b, more)) <==> place.Waiting? && place.block == b)
  {
    var b := s.channels.owner[ch];
    ArrivesExactly(s, b);
    assert RoundInv(s.rows[b].round, s.rounds[s.rows[b].round], s.rows, s.channels);
  }

  /** A row update that took effect but was reported as failed is never signalled: its decision
      stands in the row and arrives in no continuation. */
  lemma {:induction false} UnreportedNeverArrives(acts: seq<Action>, d: DeciderId, b: string, conv: string, v: bool, more: seq<Action>)
    requires After(acts).Some? && Next(After(acts).value, DecideHit(d, b, conv, v, false)).Some?
    ensures var t := Next(After(acts).value, DecideHit(d, b, conv, v, false)).value;
            IsDecided(t.rows, b) && t.rows[b].status == Verdict(v) && !Delivers(t, b, more)
  {
    EveryReachableStateIsConsistent(acts);
    var s := After(acts).value;
    StepKeepsInv(s, DecideHit(d, b, conv, v, false));
    NobodyCarriesPending(s, b);
    var t := Next(s, DecideHit(d, b, conv, v, false)).value;
    assert t.deciders == s.deciders && t.channels == s.channels;
    if RunFrom(t, more).Some? {
      OutOfReachForEver(t, b, more);
    }
  }

  lemma NobodyCarriesPending(s: State, b: string)
    requires Inv(s) && b in s.rows && s.rows[b].status == Pending
    ensures !Carried(s, b)
  {
  }

  // ---- And then the call runs -------------------------------------------------

  /** The call waiting under the block has been refused, or is bound to be. */
  ghost predicate Shut(s: State, b: string, k: nat) {
    && IsDecided(s.rows, b) && s.rows[b].round in s.rounds
    && NeverRan(s, s.rows[b].round, k)
    && var round := s.rounds[s.rows[b].round];
       || round.calls > k
       || (round.calls == k && round.place.Returning? && !round.place.ok)
       || (round.calls == k && MayTake(s, b) && !(Carried(s, b) && s.rows[b].status == Approved))
  }

  lemma ShutStays(s: State, a: Action, b: string, k: nat)
    requires Inv(s) && Shut(s, b, k) && Next(s, a).Some?
    ensures Shut(Next(s, a).value, b, k)
  {
    var r := s.rows[b].round;
    RowsAreStable(s.rows, s.rounds, a);
    RoundsStep(s.rounds, a);
    if a.InRound? && a.r == r {
      ShutRoundProceeds(s, a.a, b, k);
    }
    if MayTake(s, b) && !Carried(s, b) {
      CarryingEnds(s, a, b);
    }
    NeverRanStays(s, a, r, k);
  }

  lemma ShutRoundProceeds(s: State, a: RoundAction, b: string, k: nat)
    requires Inv(s) && Shut(s, b, k) && Next(s, InRound(s.rows[b].round, a)).Some?
    ensures s.rounds[s.rows[b].round].calls <= k ==> a != Execute
    ensures RoundNext(s.rounds[s.rows[b].round], a).Some?
    ensures var after := RoundNext(s.rounds[s.rows[b].round], a).value;
            || after.calls > k
            || (after.calls == k && after.place.Returning? && !after.place.ok)
            || (after.calls == k && (after.place.Inserted? || after.place.Waiting?) && after.place.block == b
                && MayTake(s, b) && !(Carried(s, b) && s.rows[b].status == Approved))
  {
    var r := s.rows[b].round;
    RoundsStep(s.rounds, InRound(r, a));
    RefusalProceeds(s.rounds[r], a, k);
    if a.Receive? && MayTake(s, b) {
      assert TakesNow(s, b, r, a.ch, a.v);
      TakenIsCarried(s, b, r, a.ch, a.v);
    }
  }

  lemma {:induction false} ShutForEver(s: State, b: string, k: nat, more: seq<Action>)
    requires Inv(s) && Shut(s, b, k) && RunFrom(s, more).Some?
    ensures Inv(RunFrom(s, more).value) && Shut(RunFrom(s, more).value, b, k)
    ensures RunFrom(s, more).value.rows[b].round == s.rows[b].round
  {
    if more != [] {
      var front := more[..|more| - 1];
      ShutForEver(s, b, k, front);
      var t := RunFrom(s, front).value;
      ShutStays(t, more[|more| - 1], b, k);
      StepKeepsInv(t, more[|more| - 1]);
      RowsAreStable(t.rows, t.rounds, more[|more| - 1]);
    }
  }

  /** As long as the round has yet to take the block's value it is at the same call. */
  lemma {:induction false} SameCall(s: State, b: string, more: seq<Action>)
    requires Inv(s) && MayTake(s, b) && RunFrom(s, more).Some? && MayTake(RunFrom(s, more).value, b)
    ensures var t := RunFrom(s, more).value;
            && Inv(t) && t.rows[b].round == s.rows[b].round
            && t.rounds[s.rows[b].round].calls == s.rounds[s.rows[b].round].calls
            && (IsDecided(s.rows, b) ==> t.rows[b].status == s.rows[b].status)
  {
    if more != [] {
      var front, a := more[..|more| - 1], more[|more| - 1];
      RunKeepsInv(s, front);
      var t := RunFrom(s, front).value;
      DecidedOnce(s, front);
      if !MayTake(t, b) {
        TakingEnds(t, a, b);
      }
      SameCall(s, b, front);
      StepKeepsInv(t, a);
      RowsAreStable(t.rows, t.rounds, a);
      SameCallStep(t, a, b);
    }
  }

  lemma SameCallStep(s: State, a: Action, b: string)
    requires MayTake(s, b) && Next(s, a).Some? && MayTake(Next(s, a).value, b)
    requires Next(s, a).value.rows[b].round == s.rows[b].round
    ensures Next(s, a).value.rounds[s.rows[b].round].calls == s.rounds[s.rows[b].round].calls
  {
    RoundsStep(s.rounds, a);
  }

  /** A round that takes an approval can go on to run its call. */
  lemma TakenApprovalRuns(s: State, b: string, r: RoundId, ch: ChannelId)
    requires TakesNow(s, b, r, ch, true)
    ensures var last := [InRound(r, Receive(ch, true)), InRound(r, Close(b)), InRound(r, Execute)];
            RunFrom(s, last).Some? && !NeverRan(RunFrom(s, last).value, r, s.rounds[r].calls)
  {
    var a1, a2, a3 := InRound(r, Receive(ch, true)), InRound(r, Close(b)), InRound(r, Execute);
    var s1 := Next(s, a1).value;
    var s2 := Next(s1, a2).value;
    var s3 := Next(s2, a3).value;
    assert s3.log[|s3.log| - 1] == Entered(r, s.rounds[r].calls, s.rounds[r].place.tool, true);
    Machines.ThreeSteps(Next, s, a1, a2, a3);
  }

  lemma ArrivedApprovalRuns(s: State, b: string, more: seq<Action>) returns (all: seq<Action>)
    requires Inv(s) && MayTake(s, b) && IsDecided(s.rows, b) && s.rows[b].status == Approved && Delivers(s, b, more)
    ensures RunFrom(s, all).Some? && !NeverRan(RunFrom(s, all).value, s.rows[b].round, s.rounds[s.rows[b].round].calls)
  {
    var t := RunFrom(s, more).value;
    RunKeepsInv(s, more);
    var r, ch, v :| TakesNow(t, b, r, ch, v);
    TakenIsCarried(t, b, r, ch, v);
    SameCall(s, b, more);
    TakenApprovalRuns(t, b, r, ch);
    var last := [InRound(r, Receive(ch, true)), InRound(r, Close(b)), InRound(r, Execute)];
    Machines.RunAppend(Next, s, more, last);
    all := more + last;
  }

  /** A call whose row is decided while it has yet to take a value can still run exactly when the
      decision is an approval and somebody still carries it. */
  lemma {:induction false} ApprovedCallRunsExactly(acts: seq<Action>, b: string)
    requires After(acts).Some? && IsDecided(After(acts).value.rows, b) && MayTake(After(acts).value, b)
    ensures var s := After(acts).value;
            var r := s.rows[b].round;
            (exists more :: RunFrom(s, more).Some? && !NeverRan(RunFrom(s, more).value, r, s.rounds[r].calls)) <==>
              Carried(s, b) && s.rows[b].status == Approved
  {
    EveryReachableStateIsConsistent(acts);
    OpenExactly(acts);
    RunsExactly(After(acts).value, b);
  }

  lemma RunsExactly(s: State, b: string)
    requires Ready(s, b) && IsDecided(s.rows, b)
    ensures var r := s.rows[b].round;
            (exists more :: RunFrom(s, more).Some? && !NeverRan(RunFrom(s, more).value, r, s.rounds[r].calls)) <==>
              Carried(s, b) && s.rows[b].status == Approved
  {
    var r := s.rows[b].round;
    var k := s.rounds[r].calls;
    if Carried(s, b) && s.rows[b].status == Approved {
      var more := CarriedArrives(s, b);
      var all := ArrivedApprovalRuns(s, b, more);
    } else {
      forall more | RunFrom(s, more).Some?
        ensures NeverRan(RunFrom(s, more).value, r, k)
      {
        ShutForEver(s, b, k, more);
      }
    }
  }

  // ---- Lost approvals ---------------------------------------------------------

  /** The approval of the block stands in its row, but it arrives in no continuation. */
  ghost predicate ApprovalIsLost(s: State, b: string) {
    b in s.rows && s.rows[b].status == Approved && forall more :: !Delivers(s, b, more)
  }

  lemma LostWhenOutOfReach(acts: seq<Action>, b: string)
    requires After(acts).Some? && OutOfReach(After(acts).value, b) && After(acts).value.rows[b].status == Approved
    ensures ApprovalIsLost(After(acts).value, b)
  {
    DecisionArrivesExactly(acts, b);
  }

  /** One round, asking for one call under block `b`, and at most one request. */
  function Scene(place: Place, state: RoundState, settledBy: string, status: Status,
                 c: Channels, ds: map<DeciderId, Decider>): State {
    State(map[0 := Round(Some("c"), state, settledBy, place, 0)], map["b" := Row("c", status, 0)], c, ds, [])
  }

  const NO_CHANNEL := Channels(map[], map[], map[], map[])
  const ONE_CHANNEL := Channels(map["b" := 0], map[0 := []], map[0 := "b"], map[])
  const HANDLED: map<DeciderId, Decider> := map[]
  const DECIDED: map<DeciderId, Decider> := map[0 := Decided("b", true)]

  /** A step, map by map. */
  lemma StepIs(s: State, a: Action, t: State)
    requires RoundsNext(s.rounds, a).Some? && RoundsNext(s.rounds, a).value == t.rounds
    requires RowsNext(s.rows, s.rounds, a).Some? && RowsNext(s.rows, s.rounds, a).value == t.rows
    requires ChannelsNext(s.channels, a).Some?
    requires var c := ChannelsNext(s.channels, a).value;
             && c.open == t.channels.open && c.buffers == t.channels.buffers
             && c.owner == t.channels.owner && c.sent == t.channels.sent
    requires DecidersNext(s.deciders, a).Some? && DecidersNext(s.deciders, a).value == t.deciders
    requires t.log == if Finishes(s.rounds, a).Some? then s.log + [Finishes(s.rounds, a).value] else s.log
    ensures Next(s, a) == Some(t)
  {
  }

  /** The round inserts its row. */
  const ASKING: seq<Action> := [InRound(0, Begin(Some("c"))), InRound(0, Call("write_file")), InRound(0, Insert("b", true))]

  const ASKED := Scene(Inserted("write_file", "b"), UNDECIDED, "", Pending, NO_CHANNEL, HANDLED)

  lemma AskedIsReached()
    ensures After(ASKING) == Some(ASKED)
  {
    var begun := START.(rounds := map[0 := Round(Some("c"), UNDECIDED, "", Between, 0)]);
    StepIs(START, ASKING[0], begun);
    var called := START.(rounds := map[0 := Round(Some("c"), UNDECIDED, "", Asking("write_file"), 0)]);
    StepIs(begun, ASKING[1], called);
    StepIs(called, ASKING[2], ASKED);
    Machines.ThreeSteps(Next, START, ASKING[0], ASKING[1], ASKING[2]);
  }

  /** The request looks for the channel before it is stored. */
  const EARLY: seq<Action> := [DecideHit(0, "b", "c", true, true), LoadMiss(0, "b")]

  const MISSED := Scene(Inserted("write_file", "b"), UNDECIDED, "", Approved, NO_CHANNEL, HANDLED)

  lemma EarlyLookupLosesApproval()
    ensures After(ASKING + EARLY) == Some(MISSED) && ApprovalIsLost(MISSED, "b")
  {
    AskedIsReached();
    StepIs(ASKED, EARLY[0], Scene(Inserted("write_file", "b"), UNDECIDED, "", Approved, NO_CHANNEL, DECIDED));
    Machines.TwoSteps(Next, ASKED, EARLY[0], EARLY[1]);
    Machines.RunAppend(Next, START, ASKING, EARLY);
    LostWhenOutOfReach(ASKING + EARLY, "b");
  }

  /** The timer fires between the row's update and the request's lookup. */
  const LATE: seq<Action> := [InRound(0, Open("b", 0)), DecideHit(0, "b", "c", true, true), InRound(0, TimeOut)]

  const TIMED_OUT := Scene(Returning("write_file", "b", false), RoundState(false, true), "b", Approved, ONE_CHANNEL, DECIDED)

  lemma TimedOutIsReached()
    ensures After(ASKING + LATE) == Some(TIMED_OUT)
  {
    AskedIsReached();
    var waiting := Scene(Waiting("write_file", "b", 0), UNDECIDED, "", Pending, ONE_CHANNEL, HANDLED);
    StepIs(ASKED, LATE[0], waiting);
    var approved := Scene(Waiting("write_file", "b", 0), UNDECIDED, "", Approved, ONE_CHANNEL, DECIDED);
    StepIs(waiting, LATE[1], approved);
    StepIs(approved, LATE[2], TIMED_OUT);
    Machines.ThreeSteps(Next, ASKED, LATE[0], LATE[1], LATE[2]);
    Machines.RunAppend(Next, START, ASKING, LATE);
  }

  /** The lookup still finds the channel, and yet the approval is lost. */
  lemma TimeoutBeforeLookupLosesApproval()
    ensures After(ASKING + LATE) == Some(TIMED_OUT)
    ensures Next(TIMED_OUT, LoadHit(0, "b", 0)).Some? && Next(TIMED_OUT, LoadMiss(0, "b")).None?
    ensures ApprovalIsLost(TIMED_OUT, "b")
  {
    TimedOutIsReached();
    LostWhenOutOfReach(ASKING + LATE, "b");
  }

  /** The request goes on to send its value, and the round to end its call. */
  const SENT_LATE: seq<Action> := [LoadHit(0, "b", 0), SendHit(0, 0, true), InRound(0, Close("b"))]

  /** The approval sits in the slot of a call that has ended in a denial. */
  const UNREAD := State(
    map[0 := Round(Some("c"), RoundState(false, true), "b", Between, 1)], map["b" := Row("c", Approved, 0)],
    Channels(map[], map[0 := [true]], map[0 := "b"], map[0 := true]), HANDLED, [Entered(0, 0, "write_file", false)])

  lemma UnreadIsReached()
    ensures After((ASKING + LATE) + SENT_LATE) == Some(UNREAD)
  {
    TimedOutIsReached();
    var loaded := TIMED_OUT.(deciders := map[0 := Loaded("b", 0, true)]);
    StepIs(TIMED_OUT, SENT_LATE[0], loaded);
    var sent := TIMED_OUT.(deciders := HANDLED,
                           channels := Channels(map["b" := 0], map[0 := [true]], map[0 := "b"], map[0 := true]));
    assert loaded.channels.buffers[0] + [true] == [true];
    StepIs(loaded, SENT_LATE[1], sent);
    StepIs(sent, SENT_LATE[2], UNREAD);
    Machines.ThreeSteps(Next, TIMED_OUT, SENT_LATE[0], SENT_LATE[1], SENT_LATE[2]);
    Machines.RunAppend(Next, START, ASKING + LATE, SENT_LATE);
  }

  lemma SentApprovalIsLost()
    ensures After((ASKING + LATE) + SENT_LATE) == Some(UNREAD) && ApprovalIsLost(UNREAD, "b")
  {
    UnreadIsReached();
    LostWhenOutOfReach((ASKING + LATE) + SENT_LATE, "b");
  }
}
