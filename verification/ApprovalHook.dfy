/** The approval hook and the decision endpoint as objects. A ghost field holds the gate's machine,
    and each method, one stretch of code that runs without waiting, performs a run of its steps, so
    that what is proved of all runs of the machine holds of every sequence of calls. */
module ApprovalHook {
  import opened Wrappers
  import Machines
  import opened Approval
  import opened ApprovalProofs

  /** A channel with one slot. */
  class Slot {
    var buffer: seq<bool>

    constructor ()
      ensures buffer == []
    {
      buffer := [];
    }
  }

  class RoundApproval {
    var approved: bool
    var rejected: bool

    function State(): RoundState
      reads this
    {
      RoundState(approved, rejected)
    }

    constructor ()
      ensures State() == UNDECIDED
    {
      approved, rejected := false, false;
    }
  }

  /** What ends the wait of a round: a value on its channel, the timer, or its context. */
  datatype Outcome = Decision(v: bool) | TimedOut | ContextEnded

  datatype Prompted = Proceed | Refused | Blocked(ch: Slot)

  /** How the database answers a row update; an error may hide an update that took effect. */
  datatype Write = Written | NotWritten | WrittenUnreported

  datatype HttpStatus = NoContent | BadRequest | NotFound | ServerError

  /** The event that asks the user for a decision. */
  datatype Request = Request(conv: string, block: string, tool: string)

  // ---- The steps a method stands for ------------------------------------------

  function AskSteps(id: RoundId, tool: string, block: string, ch: ChannelId): seq<Action> {
    [InRound(id, Call(tool)), InRound(id, Insert(block, true)), InRound(id, Open(block, ch))]
  }

  function PromptSteps(id: RoundId, tool: string, gate: Gate, conv: Option<string>, block: string, inserted: bool, ch: ChannelId): seq<Action> {
    if !gate.Ask? then [InRound(id, Call(tool))]
    else if conv.None? then [InRound(id, Call(tool)), InRound(id, NoConversation)]
    else if !inserted then [InRound(id, Call(tool)), InRound(id, Insert(block, false))]
    else AskSteps(id, tool, block, ch)
  }

  function ResumeSteps(id: RoundId, block: string, ch: ChannelId, outcome: Outcome): seq<Action> {
    [InRound(id, match outcome case Decision(v) => Receive(ch, v) case TimedOut => TimeOut case ContextEnded => ContextDone),
     InRound(id, Close(block))]
  }

  function SignalSteps(c: Channels, d: DeciderId, block: string, v: bool): seq<Action> {
    if block !in c.open then [LoadMiss(d, block)]
    else if c.open[block] in c.buffers && |c.buffers[c.open[block]]| < 1
    then [LoadHit(d, block, c.open[block]), SendHit(d, c.open[block], v)]
    else [LoadHit(d, block, c.open[block]), SendFull(d, c.open[block])]
  }

  function DecideSteps(s: State, d: DeciderId, block: string, conv: string, decision: string, db: Write): seq<Action> {
    var v := decision == "approved";
    if decision != "approved" && decision != "rejected" then []
    else if db.NotWritten? then []
    else if !MayDecide(s.rows, block, conv) then if db.Written? then [DecideMiss(block, conv)] else []
    else if db.WrittenUnreported? then [DecideHit(d, block, conv, v, false)]
    else [DecideHit(d, block, conv, v, true)] + SignalSteps(s.channels, d, block, v)
  }

  // ---- Those steps in the machine ---------------------------------------------

  ghost predicate Reachable(s: State) {
    exists acts :: After(acts) == Some(s)
  }

  lemma StaysReachable(s: State, steps: seq<Action>, t: State)
    requires Reachable(s) && RunFrom(s, steps) == Some(t)
    ensures Reachable(t)
  {
    var acts :| After(acts) == Some(s);
    Machines.RunAppend(Next, START, acts, steps);
    assert After(acts + steps) == Some(t);
  }

  lemma StartIsReachable()
    ensures Reachable(START)
  {
    assert After([]) == Some(START);
  }

  /** The call passes, or is refused by the round's settled decision. */
  lemma UnaskedRuns(s: State, id: RoundId, tool: string) returns (t: State)
    requires Reachable(s) && id in s.rounds && s.rounds[id].place.Between? && !Entry(s.rounds[id].state, tool).Ask?
    ensures RunFrom(s, [InRound(id, Call(tool))]) == Some(t) && Reachable(t)
    ensures t.rows == s.rows && t.channels == s.channels && id in t.rounds
    ensures t.rounds[id] == if Entry(s.rounds[id].state, tool).Allow? then s.rounds[id].(place := Cleared(tool))
                            else Ended(s.rounds[id])
  {
    t := Next(s, InRound(id, Call(tool))).value;
    Machines.OneStep(Next, s, InRound(id, Call(tool)));
    StaysReachable(s, [InRound(id, Call(tool))], t);
  }

  lemma AskingRuns(s: State, id: RoundId, tool: string)
    requires id in s.rounds && s.rounds[id].place.Between? && Entry(s.rounds[id].state, tool).Ask?
    ensures Next(s, InRound(id, Call(tool))) == Some(s.(rounds := s.rounds[id := s.rounds[id].(place := Asking(tool))]))
  {
  }

  /** The call would ask, but has no conversation or no row. */
  lemma UnaskableRuns(s: State, id: RoundId, tool: string, refusal: RoundAction) returns (t: State)
    requires Reachable(s) && id in s.rounds && s.rounds[id].place.Between? && Entry(s.rounds[id].state, tool).Ask?
    requires (s.rounds[id].conv.None? && refusal.NoConversation?) || (s.rounds[id].conv.Some? && refusal.Insert? && !refusal.ok)
    ensures RunFrom(s, [InRound(id, Call(tool)), InRound(id, refusal)]) == Some(t) && Reachable(t)
    ensures t.rows == s.rows && t.channels == s.channels && id in t.rounds && t.rounds[id] == Ended(s.rounds[id])
  {
    AskingRuns(s, id, tool);
    t := Next(Next(s, InRound(id, Call(tool))).value, InRound(id, refusal)).value;
    Machines.TwoSteps(Next, s, InRound(id, Call(tool)), InRound(id, refusal));
    StaysReachable(s, [InRound(id, Call(tool)), InRound(id, refusal)], t);
  }

  /** The call asks: its row is inserted and its channel stored. */
  lemma AskRuns(s: State, id: RoundId, tool: string, conv: string, block: string, ch: ChannelId) returns (t: State)
    requires Reachable(s) && id in s.rounds && s.rounds[id].place.Between? && Entry(s.rounds[id].state, tool).Ask?
    requires s.rounds[id].conv == Some(conv) && block !in s.rows && ch !in s.channels.buffers
    ensures RunFrom(s, AskSteps(id, tool, block, ch)) == Some(t)
    ensures Reachable(t) && t.rows == s.rows[block := Row(conv, Pending, id)]
    ensures t.channels == s.channels.(open := s.channels.open[block := ch], buffers := s.channels.buffers[ch := []],
                                      owner := s.channels.owner[ch := block])
    ensures id in t.rounds && t.rounds[id] == s.rounds[id].(place := Waiting(tool, block, ch))
  {
    AskingRuns(s, id, tool);
    var m := Next(s, InRound(id, Call(tool))).value;
    var n := Next(m, InRound(id, Insert(block, true))).value;
    assert n.rounds[id].place == Inserted(tool, block);
    t := Next(n, InRound(id, Open(block, ch))).value;
    Machines.ThreeSteps(Next, s, InRound(id, Call(tool)), InRound(id, Insert(block, true)), InRound(id, Open(block, ch)));
    StaysReachable(s, AskSteps(id, tool, block, ch), t);
  }

  /** A waiting round is undecided, and a value in its slot is the only one. */
  lemma WaitingIsUndecided(s: State, id: RoundId)
    requires Reachable(s) && id in s.rounds && s.rounds[id].place.Waiting?
    ensures s.rounds[id].state == UNDECIDED
    ensures var ch := s.rounds[id].place.ch;
            ch in s.channels.buffers && s.channels.buffers[ch] != [] ==> s.channels.buffers[ch][1..] == []
  {
    var acts :| After(acts) == Some(s);
    EveryReachableStateIsConsistent(acts);
    assert RoundInv(id, s.rounds[id], s.rows, s.channels);
  }

  /** The decision a round stands at once its wait has ended. */
  function Concluded(outcome: Outcome): RoundState {
    match outcome
    case Decision(v) => RoundState(v, !v)
    case TimedOut => RoundState(false, true)
    case ContextEnded => UNDECIDED
  }

  lemma ResumeRuns(s: State, id: RoundId, outcome: Outcome) returns (t: State)
    requires Reachable(s) && id in s.rounds && s.rounds[id].place.Waiting?
    requires var ch := s.rounds[id].place.ch;
             outcome.Decision? ==> ch in s.channels.buffers && s.channels.buffers[ch] != [] && s.channels.buffers[ch][0] == outcome.v
    ensures var r := s.rounds[id];
            && RunFrom(s, ResumeSteps(id, r.place.block, r.place.ch, outcome)) == Some(t) && Reachable(t)
            && t.rows == s.rows && t.channels.open == s.channels.open - {r.place.block}
            && t.channels.buffers == (if outcome.Decision? then s.channels.buffers[r.place.ch := []] else s.channels.buffers)
            && id in t.rounds && r.state == UNDECIDED && t.rounds[id].state == Concluded(outcome)
            && t.rounds[id].place == (if outcome == Decision(true) then Cleared(r.place.tool) else Between)
  {
    var r := s.rounds[id];
    var steps := ResumeSteps(id, r.place.block, r.place.ch, outcome);
    WaitingIsUndecided(s, id);
    var m := Next(s, steps[0]).value;
    assert id in m.rounds && m.rounds[id].place == Returning(r.place.tool, r.place.block, outcome == Decision(true));
    t := Next(m, steps[1]).value;
    Machines.TwoSteps(Next, s, steps[0], steps[1]);
    StaysReachable(s, steps, t);
  }

  lemma UnsignalledSlotIsEmpty(s: State, d: DeciderId, block: string)
    requires Reachable(s) && d in s.deciders && s.deciders[d].block == block && block in s.channels.open
    ensures s.channels.open[block] in s.channels.buffers && s.channels.buffers[s.channels.open[block]] == []
  {
    var acts :| After(acts) == Some(s);
    EveryReachableStateIsConsistent(acts);
  }

  lemma SignalRuns(s: State, d: DeciderId, block: string, v: bool) returns (t: State)
    requires Reachable(s) && d in s.deciders && s.deciders[d] == Decided(block, v)
    ensures RunFrom(s, SignalSteps(s.channels, d, block, v)) == Some(t) && Reachable(t)
    ensures t.rows == s.rows && t.rounds == s.rounds && t.channels.open == s.channels.open
    ensures block in s.channels.open ==> s.channels.open[block] in s.channels.buffers && s.channels.buffers[s.channels.open[block]] == []
    ensures t.channels.buffers == if block in s.channels.open then s.channels.buffers[s.channels.open[block] := [v]] else s.channels.buffers
  {
    if block !in s.channels.open {
      t := Next(s, LoadMiss(d, block)).value;
      Machines.OneStep(Next, s, LoadMiss(d, block));
    } else {
      var ch := s.channels.open[block];
      UnsignalledSlotIsEmpty(s, d, block);
      assert s.channels.buffers[ch] + [v] == [v];
      var m := s.(deciders := s.deciders[d := Loaded(block, ch, v)]);
      assert Next(s, LoadHit(d, block, ch)) == Some(m);
      t := Next(m, SendHit(d, ch, v)).value;
      Machines.TwoSteps(Next, s, LoadHit(d, block, ch), SendHit(d, ch, v));
    }
    StaysReachable(s, SignalSteps(s.channels, d, block, v), t);
  }

  // ---- The objects ------------------------------------------------------------

  class Hook {
    var rows: map<string, Row>        // the approvals table
    var channels: map<string, Slot>
    var pushed: seq<Request>
    ghost var model: State
    ghost var made: map<ChannelId, Slot>

    /** The machine's channels are the slots: the stored ones and those made so far. */
    ghost predicate Holds(open: map<string, ChannelId>, buffers: map<ChannelId, seq<bool>>)
      reads this`channels, this`made, made.Values
    {
      && buffers.Keys == made.Keys && open.Keys == channels.Keys
      && (forall c :: c in made ==> made[c].buffer == buffers[c])
      && (forall c, e :: c in made && e in made && made[c] == made[e] ==> c == e)
      && (forall b :: b in channels ==> open[b] in made && made[open[b]] == channels[b])
    }

    /** The objects show the rows and channels of a reachable state of the machine. */
    ghost predicate Valid()
      reads this, made.Values
    {
      Reachable(model) && model.rows == rows && Holds(model.channels.open, model.channels.buffers)
    }

    constructor ()
      ensures Valid() && rows == map[] && channels == map[] && pushed == [] && model == START
    {
      rows, channels, pushed, model, made := map[], map[], [], START, map[];
      StartIsReachable();
    }

    /** A tool dispatch injects a fresh decision for its round. */
    method StartRound(conv: Option<string>, id: RoundId) returns (round: RoundApproval)
      requires Valid() && id !in model.rounds
      modifies this
      ensures Valid() && rows == old(rows) && channels == old(channels) && pushed == old(pushed) && made == old(made)
      ensures fresh(round) && round.State() == UNDECIDED
      ensures RunFrom(old(model), [InRound(id, Begin(conv))]) == Some(model)
      ensures id in model.rounds && model.rounds[id] == Round(conv, round.State(), "", Between, 0)
    {
      round := new RoundApproval();
      ghost var t := Next(model, InRound(id, Begin(conv))).value;
      Machines.OneStep(Next, model, InRound(id, Begin(conv)));
      StaysReachable(model, [InRound(id, Begin(conv))], t);
      model := t;
    }

    /** `RunPre` up to the point where it blocks. A row that cannot be inserted, because the
        database fails or the block already has one, refuses the call. */
    method Prompt(round: RoundApproval, tool: string, conv: Option<string>, block: string, dbOk: bool, id: RoundId)
      returns (p: Prompted, ghost ch: ChannelId)
      requires Valid() && id in model.rounds
      requires model.rounds[id].place.Between? && model.rounds[id].conv == conv && model.rounds[id].state == round.State()
      modifies this
      ensures Valid() && round.State() == old(round.State())
      ensures RunFrom(old(model), PromptSteps(id, tool, Entry(round.State(), tool), conv, block, dbOk && block !in old(rows), ch)) == Some(model)
      ensures id in model.rounds && model.rounds[id].state == round.State()
      ensures match p
              case Proceed => model.rounds[id].place == Cleared(tool)
              case Refused => model.rounds[id] == Ended(old(model).rounds[id])
              case Blocked(slot) => model.rounds[id].place == Waiting(tool, block, ch) && ch in made && made[ch] == slot && fresh(slot)
      ensures var risky := tool == "write_file" || tool == "edit_file" || tool == "run_command";
              && (p.Proceed? <==> !risky || (round.approved && !round.rejected))
              && (p.Blocked? <==> risky && !round.approved && !round.rejected && conv.Some? && dbOk && block !in old(rows))
      ensures !p.Blocked? ==> rows == old(rows) && channels == old(channels)
      ensures p.Blocked? ==> rows == old(rows)[block := Row(conv.value, Pending, id)] && channels == old(channels)[block := p.ch]
      ensures pushed == old(pushed) + if p.Blocked? && conv.Some? then [Request(conv.value, block, tool)] else []
    {
      ch := 0;
      if !Entry(round.State(), tool).Ask? {
        model := UnaskedRuns(model, id, tool);
      }
      if !IsHighRisk(tool) {
        return Proceed, ch;
      }
      if round.rejected {
        return Refused, ch;
      }
      if round.approved {
        return Proceed, ch;
      }
      if conv.None? {
        model := UnaskableRuns(model, id, tool, NoConversation);
        return Refused, ch;
      }
      if !dbOk || block in rows {
        model := UnaskableRuns(model, id, tool, Insert(block, false));
        return Refused, ch;
      }
      var slot;
      slot, ch := Ask(tool, conv.value, block, id);
      p := Blocked(slot);
    }

    /** The part of `RunPre` that inserts the row, stores the channel and tells the user. */
    method Ask(tool: string, conv: string, block: string, id: RoundId) returns (slot: Slot, ghost ch: ChannelId)
      requires Valid() && id in model.rounds && block !in rows
      requires model.rounds[id].place.Between? && model.rounds[id].conv == Some(conv) && Entry(model.rounds[id].state, tool).Ask?
      modifies this
      ensures Valid() && fresh(slot) && ch in made && made[ch] == slot
      ensures RunFrom(old(model), AskSteps(id, tool, block, ch)) == Some(model)
      ensures id in model.rounds && model.rounds[id] == old(model).rounds[id].(place := Waiting(tool, block, ch))
      ensures rows == old(rows)[block := Row(conv, Pending, id)] && channels == old(channels)[block := slot]
      ensures pushed == old(pushed) + [Request(conv, block, tool)]
    {
      ghost var before := model;
      ch := FreshNumber(made.Keys);
      ghost var after := AskRuns(model, id, tool, conv, block, ch);
      model := after;
      rows := rows[block := Row(conv, Pending, id)];
      slot := Store(block, ch, before.channels.open, before.channels.buffers);
      pushed := pushed + [Request(conv, block, tool)];
    }

    /** A new channel for the block. */
    method Store(block: string, ghost ch: ChannelId, ghost open: map<string, ChannelId>, ghost buffers: map<ChannelId, seq<bool>>)
      returns (slot: Slot)
      requires Holds(open, buffers) && ch !in made
      modifies this`channels, this`made
      ensures fresh(slot) && made == old(made)[ch := slot] && channels == old(channels)[block := slot]
      ensures Holds(open[block := ch], buffers[ch := []])
    {
      slot := new Slot();
      made := made[ch := slot];
      channels := channels[block := slot];
    }

    /** `RunPre` from the end of its wait, with the deferred deletion of the channel. */
    method Resume(round: RoundApproval, block: string, slot: Slot, outcome: Outcome, id: RoundId) returns (ok: bool)
      requires Valid() && id in model.rounds && model.rounds[id].place.Waiting? && model.rounds[id].place.block == block
      requires model.rounds[id].place.ch in made && made[model.rounds[id].place.ch] == slot
      requires model.rounds[id].state == round.State()
      requires outcome.Decision? ==> slot.buffer != [] && slot.buffer[0] == outcome.v
      modifies this, round, slot
      ensures Valid() && rows == old(rows) && pushed == old(pushed) && made == old(made)
      ensures RunFrom(old(model), ResumeSteps(id, block, old(model).rounds[id].place.ch, outcome)) == Some(model)
      ensures id in model.rounds && model.rounds[id].state == round.State()
      ensures ok <==> outcome == Decision(true)
      ensures round.approved <==> outcome == Decision(true)
      ensures round.rejected <==> outcome == Decision(false) || outcome == TimedOut
      ensures model.rounds[id].place == if ok then Cleared(old(model).rounds[id].place.tool) else Between
      ensures channels == old(channels) - {block}
    {
      ghost var before := model;
      WaitingIsUndecided(model, id);
      ghost var after := ResumeRuns(model, id, outcome);
      model := after;
      match outcome {
        case Decision(v) =>
          if !v {
            round.rejected := true;
            ok := false;
          } else {
            round.approved := true;
            ok := true;
          }
        case TimedOut =>
          round.rejected := true;
          ok := false;
        case ContextEnded =>
          ok := false;
      }
      Leave(block, slot, outcome, before.rounds[id].place.ch, before.channels.open, before.channels.buffers);
    }

    /** A round takes its value, if there is one, and deletes its channel from the map. */
    method Leave(block: string, slot: Slot, outcome: Outcome, ghost ch: ChannelId,
                 ghost open: map<string, ChannelId>, ghost buffers: map<ChannelId, seq<bool>>)
      requires Holds(open, buffers) && ch in made && made[ch] == slot
      requires outcome.Decision? ==> slot.buffer != [] && slot.buffer[1..] == []
      modifies this`channels, slot
      ensures channels == old(channels) - {block}
      ensures Holds(open - {block}, if outcome.Decision? then buffers[ch := []] else buffers)
    {
      if outcome.Decision? {
        slot.buffer := slot.buffer[1..];
      }
      channels := channels - {block};
    }

    /** The non-blocking send of a request that has updated its row. In every reachable state it
        succeeds exactly when the block has a channel; the full slot never occurs. */
    method Signal(block: string, v: bool, ghost d: DeciderId) returns (sent: bool)
      requires Valid() && d in model.deciders && model.deciders[d] == Decided(block, v)
      modifies this`model, channels.Values
      ensures Valid()
      ensures RunFrom(old(model), SignalSteps(old(model).channels, d, block, v)) == Some(model)
      ensures sent <==> block in channels
      ensures sent ==> old(channels[block].buffer) == [] && channels[block].buffer == [v]
      ensures forall slot :: slot in channels.Values && !(sent && slot == channels[block]) ==> slot.buffer == old(slot.buffer)
      ensures model.rows == old(model).rows && model.rounds == old(model).rounds
    {
      model := SignalRuns(model, d, block, v);
      if block !in channels {
        return false;
      }
      var slot := channels[block];
      if |slot.buffer| >= 1 {
        return false;
      }
      slot.buffer := slot.buffer + [v];
      sent := true;
    }

    /** The conditional update of a row that is still pending. */
    method Record(conv: string, block: string, v: bool, reported: bool, ghost d: DeciderId)
      requires Valid() && d !in model.deciders && MayDecide(rows, block, conv)
      modifies this`rows, this`model
      ensures Valid() && rows == old(rows)[block := old(rows)[block].(status := Verdict(v))]
      ensures RunFrom(old(model), [DecideHit(d, block, conv, v, reported)]) == Some(model)
      ensures model.rounds == old(model).rounds && model.channels == old(model).channels
      ensures reported ==> d in model.deciders && model.deciders[d] == Decided(block, v)
    {
      ghost var update := DecideHit(d, block, conv, v, reported);
      ghost var before := model;
      Machines.OneStep(Next, model, update);
      model := Next(model, update).value;
      StaysReachable(before, [update], model);
      rows := rows[block := rows[block].(status := Verdict(v))];
    }

    /** A reported update and the signal that follows it. */
    method Settle(conv: string, block: string, v: bool, ghost d: DeciderId)
      requires Valid() && d !in model.deciders && MayDecide(rows, block, conv)
      modifies this`rows, this`model, channels.Values
      ensures Valid() && rows == old(rows)[block := old(rows)[block].(status := Verdict(v))]
      ensures RunFrom(old(model), [DecideHit(d, block, conv, v, true)] + SignalSteps(old(model).channels, d, block, v)) == Some(model)
      ensures model.rounds == old(model).rounds
      ensures forall slot :: slot in channels.Values && slot.buffer != old(slot.buffer) ==>
                block in channels && slot == channels[block] && old(slot.buffer) == [] && slot.buffer == [v]
    {
      ghost var before := model;
      Record(conv, block, v, true, d);
      var _ := Signal(block, v, d);
      Machines.RunAppend(Next, before, [DecideHit(d, block, conv, v, true)], SignalSteps(before.channels, d, block, v));
    }

    /** The decision endpoint: the row first, and only a row this very request took out of
        `pending` is signalled. */
    method Decide(conv: string, block: string, decision: string, db: Write, ghost d: DeciderId) returns (status: HttpStatus)
      requires Valid() && d !in model.deciders
      modifies this`rows, this`model, channels.Values
      ensures Valid()
      ensures RunFrom(old(model), DecideSteps(old(model), d, block, conv, decision, db)) == Some(model)
      ensures model.rounds == old(model).rounds
      ensures status == BadRequest <==> decision != "approved" && decision != "rejected"
      ensures status == NoContent <==>
                && decision in {"approved", "rejected"} && db.Written?
                && block in old(rows) && old(rows)[block].conv == conv && old(rows)[block].status == Pending
      ensures status == ServerError <==> decision in {"approved", "rejected"} && !db.Written?
      ensures rows == if && decision in {"approved", "rejected"} && !db.NotWritten?
                         && block in old(rows) && old(rows)[block].conv == conv && old(rows)[block].status == Pending
                      then old(rows)[block := old(rows)[block].(status := if decision == "approved" then Approved else Rejected)]
                      else old(rows)
      ensures forall slot :: slot in channels.Values && slot.buffer != old(slot.buffer) ==>
                status == NoContent && block in channels && slot == channels[block]
                && old(slot.buffer) == [] && slot.buffer == [decision == "approved"]
    {
      if decision != "approved" && decision != "rejected" {
        return BadRequest;
      }
      var v := decision == "approved";
      var hit := MayDecide(rows, block, conv);
      if db.NotWritten? || (db.WrittenUnreported? && !hit) {
        return ServerError;
      }
      if !hit {
        NothingDecided(model, block, conv);
        return NotFound;
      }
      if db.WrittenUnreported? {
        Record(conv, block, v, false, d);
        return ServerError;
      }
      Settle(conv, block, v, d);
      status := NoContent;
    }
  }

  lemma NothingDecided(s: State, block: string, conv: string)
    requires !MayDecide(s.rows, block, conv)
    ensures RunFrom(s, [DecideMiss(block, conv)]) == Some(s)
  {
    Machines.OneStep(Next, s, DecideMiss(block, conv));
  }
}
