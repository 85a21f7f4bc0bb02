/** Every step of the approval gate keeps its invariant. */
module ApprovalProofs {
  import opened Wrappers
  import opened Approval

  /** A row keeps its conversation and its round, and once decided it keeps its decision. */
  lemma RowsAreStable(rows: map<string, Row>, rounds: map<RoundId, Round>, a: Action)
    requires RowsNext(rows, rounds, a).Some?
    ensures var after := RowsNext(rows, rounds, a).value;
            Grew(rows, after)
  {
  }

  ghost predicate Grew(rows: map<string, Row>, after: map<string, Row>) {
    forall b :: b in rows ==>
      && b in after && after[b].conv == rows[b].conv && after[b].round == rows[b].round
      && (rows[b].status != Pending ==> after[b] == rows[b])
  }

  lemma StepKeepsDeciders(s: State, a: Action)
    requires DecidersInv(s.deciders, s.rows) && Next(s, a).Some?
    ensures DecidersInv(Next(s, a).value.deciders, Next(s, a).value.rows)
  {
    RowsAreStable(s.rows, s.rounds, a);
  }

  lemma OpenKeepsOwners(c: Channels, block: string, ch: ChannelId, rows: map<string, Row>)
    requires OwnersInv(c, rows) && block in rows && ch !in c.buffers
    requires forall k :: k in c.owner ==> c.owner[k] != block
    ensures OwnersInv(c.(open := c.open[block := ch], buffers := c.buffers[ch := []], owner := c.owner[ch := block]), rows)
  {
  }

  lemma OwnersSurviveGrowth(c: Channels, rows: map<string, Row>, after: map<string, Row>)
    requires OwnersInv(c, rows) && Grew(rows, after)
    ensures OwnersInv(c, after)
  {
  }

  lemma ChannelStepKeepsOwners(c: Channels, a: Action, rows: map<string, Row>, after: map<string, Row>)
    requires OwnersInv(c, rows) && Grew(rows, after) && ChannelsNext(c, a).Some?
    requires a.InRound? && a.a.Open? ==> a.a.block in rows && forall ch :: ch in c.owner ==> c.owner[ch] != a.a.block
    ensures OwnersInv(ChannelsNext(c, a).value, after)
  {
    OwnersSurviveGrowth(c, rows, after);
    if a.InRound? && a.a.Open? {
      OpenKeepsOwners(c, a.a.block, a.a.ch, after);
    } else {
      OtherChannelSteps(c, a);
      OwnersKeepOnShrink(c, ChannelsNext(c, a).value, after);
    }
  }

  /** Only `Open` makes channels or map entries. */
  lemma OtherChannelSteps(c: Channels, a: Action)
    requires ChannelsNext(c, a).Some? && !(a.InRound? && a.a.Open?)
    ensures var c' := ChannelsNext(c, a).value;
            && c'.owner == c.owner && c'.buffers.Keys == c.buffers.Keys
            && forall b :: b in c'.open ==> b in c.open && c'.open[b] == c.open[b]
  {
  }

  lemma OwnersKeepOnShrink(c: Channels, c': Channels, rows: map<string, Row>)
    requires OwnersInv(c, rows) && c'.owner == c.owner && c'.buffers.Keys == c.buffers.Keys
    requires forall b :: b in c'.open ==> b in c.open && c'.open[b] == c.open[b]
    ensures OwnersInv(c', rows)
  {
  }

  /** A round opens a channel only for the row it has just inserted. */
  lemma OpenIsFirst(s: State, a: Action)
    requires RoundsInv(s.rounds, s.rows, s.channels) && RoundsNext(s.rounds, a).Some?
    requires a.InRound? && a.a.Open?
    ensures a.a.block in s.rows && s.rows[a.a.block].round == a.r
    ensures forall ch :: ch in s.channels.owner ==> s.channels.owner[ch] != a.a.block
  {
    assert RoundInv(a.r, s.rounds[a.r], s.rows, s.channels);
  }

  lemma SendHitKeepsSent(c: Channels, rows: map<string, Row>, ds: map<DeciderId, Decider>, d: DeciderId, ch: ChannelId, v: bool)
    requires DecidersInv(ds, rows) && OwnersInv(c, rows) && SentInv(c, rows, ds)
    requires d in ds && ds[d].Loaded? && ds[d].ch == ch && ds[d].v == v && ch in c.buffers && |c.buffers[ch]| < 1
    ensures SentInv(c.(buffers := c.buffers[ch := c.buffers[ch] + [v]], sent := c.sent[ch := v]), rows, ds - {d})
  {
    assert c.owner[ch] == ds[d].block;
    assert c.buffers[ch] + [v] == [v];
    assert forall k :: k in c.owner && k != ch ==> c.owner[k] != c.owner[ch];
  }

  lemma DroppedDeciderKeepsSent(c: Channels, rows: map<string, Row>, ds: map<DeciderId, Decider>, d: DeciderId)
    requires SentInv(c, rows, ds)
    ensures SentInv(c, rows, ds - {d})
  {
  }

  lemma LoadedDeciderKeepsSent(c: Channels, rows: map<string, Row>, ds: map<DeciderId, Decider>, d: DeciderId, block: string, ch: ChannelId)
    requires OwnersInv(c, rows) && SentInv(c, rows, ds)
    requires d in ds && ds[d].Decided? && ds[d].block == block && block in c.open && c.open[block] == ch
    ensures SentInv(c, rows, ds[d := Loaded(block, ch, ds[d].v)])
  {
  }

  lemma SendStepKeepsSent(c: Channels, rows: map<string, Row>, ds: map<DeciderId, Decider>, a: Action)
    requires DecidersInv(ds, rows) && OwnersInv(c, rows) && SentInv(c, rows, ds)
    requires a.SendHit? || a.SendFull? || a.LoadHit? || a.LoadMiss?
    requires ChannelsNext(c, a).Some? && DecidersNext(ds, a).Some?
    ensures SentInv(ChannelsNext(c, a).value, rows, DecidersNext(ds, a).value)
  {
    match a
    case SendHit(d, ch, v) => SendHitKeepsSent(c, rows, ds, d, ch, v);
    case LoadHit(d, block, ch) => LoadedDeciderKeepsSent(c, rows, ds, d, block, ch);
    case LoadMiss(d, _) => DroppedDeciderKeepsSent(c, rows, ds, d);
    case SendFull(d, _) => DroppedDeciderKeepsSent(c, rows, ds, d);
    case _ =>
  }

  lemma SentSurvivesGrowth(c: Channels, rows: map<string, Row>, after: map<string, Row>, ds: map<DeciderId, Decider>)
    requires OwnersInv(c, rows) && SentInv(c, rows, ds) && Grew(rows, after)
    ensures SentInv(c, after, ds)
  {
  }

  lemma RoundStepKeepsSent(c: Channels, rows: map<string, Row>, ds: map<DeciderId, Decider>, a: Action)
    requires c.owner.Keys == c.buffers.Keys && SentInv(c, rows, ds) && a.InRound?
    requires ChannelsNext(c, a).Some?
    ensures SentInv(ChannelsNext(c, a).value, rows, ds)
  {
    match a.a
    case Open(block, ch) =>
      var c' := ChannelsNext(c, a).value;
      assert forall k :: k in c.owner ==> k in c'.owner && c'.owner[k] == c.owner[k];
      assert forall k :: k in c.buffers ==> c'.buffers[k] == c.buffers[k];
    case Receive(ch, v) =>
    case Close(block) =>
    case _ =>
  }

  /** Nothing has been sent for a block that is still pending. */
  lemma NothingSentYet(c: Channels, rows: map<string, Row>, ds: map<DeciderId, Decider>, block: string)
    requires SentInv(c, rows, ds) && block in rows && rows[block].status == Pending
    ensures forall ch :: ch in c.sent ==> c.owner[ch] != block
  {
  }

  lemma NewDeciderKeepsSent(c: Channels, rows: map<string, Row>, ds: map<DeciderId, Decider>, d: DeciderId, block: string, v: bool)
    requires SentInv(c, rows, ds) && d !in ds && forall ch :: ch in c.sent ==> c.owner[ch] != block
    ensures SentInv(c, rows, ds[d := Decided(block, v)])
  {
  }

  lemma DecideStepKeepsSent(c: Channels, rows: map<string, Row>, after: map<string, Row>, ds: map<DeciderId, Decider>, a: Action)
    requires OwnersInv(c, rows) && SentInv(c, rows, ds) && Grew(rows, after) && a.DecideHit?
    requires MayDecide(rows, a.block, a.conv) && DecidersNext(ds, a).Some?
    ensures SentInv(c, after, DecidersNext(ds, a).value)
  {
    SentSurvivesGrowth(c, rows, after, ds);
    NothingSentYet(c, rows, ds, a.block);
    if a.reported {
      NewDeciderKeepsSent(c, after, ds, a.d, a.block, a.v);
    }
  }

  lemma StepKeepsSent(s: State, a: Action)
    requires DecidersInv(s.deciders, s.rows) && OwnersInv(s.channels, s.rows)
    requires SentInv(s.channels, s.rows, s.deciders) && Next(s, a).Some?
    ensures SentInv(Next(s, a).value.channels, Next(s, a).value.rows, Next(s, a).value.deciders)
  {
    RowsAreStable(s.rows, s.rounds, a);
    var after := RowsNext(s.rows, s.rounds, a).value;
    match a
    case InRound(_, _) =>
      SentSurvivesGrowth(s.channels, s.rows, after, s.deciders);
      RoundStepKeepsSent(s.channels, after, s.deciders, a);
    case DecideHit(_, _, _, _, _) => DecideStepKeepsSent(s.channels, s.rows, after, s.deciders, a);
    case DecideMiss(_, _) =>
    case _ => SendStepKeepsSent(s.channels, s.rows, s.deciders, a);
  }

  /** Channels made later belong to blocks of other rounds. */
  lemma OtherRoundsKeep(r: RoundId, round: Round, rows: map<string, Row>, c: Channels,
                        after: map<string, Row>, c': Channels)
    requires RoundInv(r, round, rows, c) && Grew(rows, after)
    requires forall ch :: ch in c.owner ==> ch in c'.owner && c'.owner[ch] == c.owner[ch]
    requires forall ch :: ch in c'.owner && ch !in c.owner ==>
               c'.owner[ch] in after && (after[c'.owner[ch]].round != r || !round.place.Inserted?)
    ensures RoundInv(r, round, after, c')
  {
  }

  /** The acting round keeps its own invariant. */
  lemma ActingRoundKeeps(s: State, r: RoundId, act: RoundAction)
    requires OwnersInv(s.channels, s.rows) && SentInv(s.channels, s.rows, s.deciders)
    requires r in s.rounds && RoundInv(r, s.rounds[r], s.rows, s.channels) && RoundNext(s.rounds[r], act).Some?
    requires ChannelsNext(s.channels, InRound(r, act)).Some? && RowsNext(s.rows, s.rounds, InRound(r, act)).Some?
    ensures RoundInv(r, RoundNext(s.rounds[r], act).value, RowsNext(s.rows, s.rounds, InRound(r, act)).value,
                     ChannelsNext(s.channels, InRound(r, act)).value)
  {
  }

  lemma OwnersGrow(c: Channels, a: Action)
    requires ChannelsNext(c, a).Some? && c.owner.Keys == c.buffers.Keys
    ensures var c' := ChannelsNext(c, a).value;
            && (forall ch :: ch in c.owner ==> ch in c'.owner && c'.owner[ch] == c.owner[ch])
            && (forall ch :: ch in c'.owner && ch !in c.owner ==> a.InRound? && a.a.Open? && c'.owner[ch] == a.a.block)
  {
  }

  lemma StepKeepsOtherRounds(s: State, a: Action, r: RoundId)
    requires OwnersInv(s.channels, s.rows) && RoundsInv(s.rounds, s.rows, s.channels) && Next(s, a).Some?
    requires r in s.rounds && (a.InRound? ==> a.r != r)
    ensures RoundInv(r, s.rounds[r], Next(s, a).value.rows, Next(s, a).value.channels)
  {
    RowsAreStable(s.rows, s.rounds, a);
    OwnersGrow(s.channels, a);
    if a.InRound? && a.a.Open? {
      OpenIsFirst(s, a);
    }
    OtherRoundsKeep(r, s.rounds[r], s.rows, s.channels, Next(s, a).value.rows, Next(s, a).value.channels);
  }

  /** How a step changes the map of rounds. */
  lemma RoundsStep(rounds: map<RoundId, Round>, a: Action)
    requires RoundsNext(rounds, a).Some?
    ensures var after := RoundsNext(rounds, a).value;
            && rounds.Keys <= after.Keys
            && (forall r :: r in rounds && (a.InRound? ==> a.r != r) ==> after[r] == rounds[r])
            && (forall r :: r in after && r !in rounds ==> a.InRound? && r == a.r && a.a.Begin?
                                                           && after[r] == Round(a.a.conv, UNDECIDED, "", Between, 0))
            && (a.InRound? && a.r in rounds ==> !a.a.Begin? && RoundNext(rounds[a.r], a.a) == Some(after[a.r]))
  {
  }

  /** New rows belong to the round that inserts them. */
  lemma NewRowsHaveRounds(s: State, a: Action)
    requires RowsNext(s.rows, s.rounds, a).Some? && RoundsNext(s.rounds, a).Some?
    ensures forall b :: b in RowsNext(s.rows, s.rounds, a).value && b !in s.rows ==>
              a.InRound? && a.r in s.rounds && RowsNext(s.rows, s.rounds, a).value[b].round == a.r
  {
  }

  lemma StepKeepsRounds(s: State, a: Action)
    requires OwnersInv(s.channels, s.rows) && SentInv(s.channels, s.rows, s.deciders)
    requires RoundsInv(s.rounds, s.rows, s.channels) && Next(s, a).Some?
    ensures RoundsInv(Next(s, a).value.rounds, Next(s, a).value.rows, Next(s, a).value.channels)
  {
    var t := Next(s, a).value;
    RoundsStep(s.rounds, a);
    RowsAreStable(s.rows, s.rounds, a);
    NewRowsHaveRounds(s, a);
    forall r | r in t.rounds
      ensures RoundInv(r, t.rounds[r], t.rows, t.channels)
    {
      if r !in s.rounds {
      } else if a.InRound? && a.r == r {
        ActingRoundKeeps(s, r, a.a);
      } else {
        StepKeepsOtherRounds(s, a, r);
      }
    }
  }

  /** A step that ends a call counts it, and only a cleared round executes. */
  lemma EndingStep(rounds: map<RoundId, Round>, a: Action)
    requires RoundsNext(rounds, a).Some?
    ensures var ends, after := Finishes(rounds, a), RoundsNext(rounds, a).value;
            && (ends.Some? ==> ends.value.round in rounds && ends.value.call == rounds[ends.value.round].calls
                               && after[ends.value.round].calls == ends.value.call + 1
                               && after[ends.value.round].state == rounds[ends.value.round].state
                               && (ends.value.executed ==> rounds[ends.value.round].place == Cleared(ends.value.tool)))
            && (forall r :: r in rounds ==> r in after && rounds[r].calls <= after[r].calls
                                            && (rounds[r].state.approved ==> after[r].state.approved))
  {
    RoundsStep(rounds, a);
  }

  lemma LogGrows(log: seq<Entered>, rounds: map<RoundId, Round>, after: map<RoundId, Round>)
    requires LogInv(log, rounds)
    requires forall r :: r in rounds ==> r in after && rounds[r].calls <= after[r].calls
                                         && (rounds[r].state.approved ==> after[r].state.approved)
    ensures LogInv(log, after)
  {
  }

  lemma StepKeepsLog(s: State, a: Action)
    requires RoundsInv(s.rounds, s.rows, s.channels) && LogInv(s.log, s.rounds) && Next(s, a).Some?
    ensures LogInv(Next(s, a).value.log, Next(s, a).value.rounds)
  {
    EndingStep(s.rounds, a);
    LogGrows(s.log, s.rounds, RoundsNext(s.rounds, a).value);
    var ends := Finishes(s.rounds, a);
    if ends.Some? {
      assert RoundInv(ends.value.round, s.rounds[ends.value.round], s.rows, s.channels);
      LogEntryAdded(s.log, RoundsNext(s.rounds, a).value, s.rounds, ends.value);
    }
  }

  lemma LogEntryAdded(log: seq<Entered>, after: map<RoundId, Round>, rounds: map<RoundId, Round>, e: Entered)
    requires LogInv(log, after) && LogInv(log, rounds)
    requires e.round in rounds && e.call == rounds[e.round].calls
    requires e.round in after && e.call < after[e.round].calls
    requires e.executed && IsHighRisk(e.tool) ==> after[e.round].state.approved
    ensures LogInv(log + [e], after)
  {
  }

  lemma StepKeepsInv(s: State, a: Action)
    requires Inv(s) && Next(s, a).Some?
    ensures Inv(Next(s, a).value)
  {
    StepKeepsDeciders(s, a);
    RowsAreStable(s.rows, s.rounds, a);
    if a.InRound? && a.a.Open? { OpenIsFirst(s, a); }
    ChannelStepKeepsOwners(s.channels, a, s.rows, RowsNext(s.rows, s.rounds, a).value);
    StepKeepsSent(s, a);
    StepKeepsRounds(s, a);
    StepKeepsLog(s, a);
  }

  lemma {:induction false} RunKeepsInv(s: State, acts: seq<Action>)
    requires Inv(s) && RunFrom(s, acts).Some?
    ensures Inv(RunFrom(s, acts).value)
  {
    if acts != [] {
      RunKeepsInv(s, acts[..|acts| - 1]);
      StepKeepsInv(RunFrom(s, acts[..|acts| - 1]).value, acts[|acts| - 1]);
    }
  }

  lemma EveryReachableStateIsConsistent(acts: seq<Action>)
    requires After(acts).Some?
    ensures Inv(After(acts).value)
  {
    RunKeepsInv(START, acts);
  }
}
