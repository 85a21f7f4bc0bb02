/** The approval gate: tool-dispatch rounds that ask before a high-risk call, the decision
    endpoint, and the one-slot channels between them. */
module Approval {
  import opened Wrappers
  import Machines

  type RoundId = nat
  type ChannelId = nat
  type DeciderId = nat

  predicate IsHighRisk(tool: string) {
    tool == "write_file" || tool == "edit_file" || tool == "run_command"
  }

  datatype Status = Pending | Approved | Rejected

  function Verdict(v: bool): Status {
    if v then Approved else Rejected
  }

  /** An approval row; `round` records which round inserted it. */
  datatype Row = Row(conv: string, status: Status, round: RoundId)

  // ---- The rows: an insert on a primary key and a conditional update ----------

  /** The conditional update of the decision endpoint applies to one pending row. */
  predicate MayDecide(rows: map<string, Row>, block: string, conv: string) {
    block in rows && rows[block].conv == conv && rows[block].status == Pending
  }

  // ---- The per-round decision -------------------------------------------------

  datatype Gate = Ask | Allow | Deny

  datatype RoundState = RoundState(approved: bool, rejected: bool)

  const UNDECIDED := RoundState(false, false)

  /** What the hook does with a call before it would ask the user. */
  function Entry(state: RoundState, tool: string): Gate {
    if !IsHighRisk(tool) then Allow
    else if state.rejected then Deny
    else if state.approved then Allow
    else Ask
  }

  // ---- One dispatch round -----------------------------------------------------

  /** Where the round's goroutine stands. */
  datatype Place =
    | Between                                   // before the next tool call
    | Asking(tool: string)                      // about to insert the row
    | Inserted(tool: string, block: string)     // row inserted, channel not yet stored
    | Waiting(tool: string, block: string, ch: ChannelId)
    | Returning(tool: string, block: string, ok: bool)  // about to delete the channel entry
    | Cleared(tool: string)                     // every pre-hook returned nil

  /** `calls` counts the calls that have ended; `settledBy` is the block whose row settled the round. */
  datatype Round = Round(conv: Option<string>, state: RoundState, settledBy: string, place: Place, calls: nat)

  datatype RoundAction =
    | Begin(conv: Option<string>)
    | SecurityDenies
    | Call(tool: string)
    | NoConversation
    | Insert(block: string, ok: bool)
    | Open(block: string, ch: ChannelId)
    | Receive(ch: ChannelId, v: bool)
    | TimeOut
    | ContextDone
    | Close(block: string)
    | Execute

  datatype Action =
    | InRound(r: RoundId, a: RoundAction)
    | DecideHit(d: DeciderId, block: string, conv: string, v: bool, reported: bool)
    | DecideMiss(block: string, conv: string)
    | LoadHit(d: DeciderId, block: string, ch: ChannelId)
    | LoadMiss(d: DeciderId, block: string)
    | SendHit(d: DeciderId, ch: ChannelId, v: bool)
    | SendFull(d: DeciderId, ch: ChannelId)

  function Ended(r: Round): Round {
    r.(place := Between, calls := r.calls + 1)
  }

  function RoundNext(r: Round, a: RoundAction): Option<Round> {
    match a
    case Begin(_) => None
    case SecurityDenies =>
      if r.place.Between? then Some(Ended(r)) else None
    case Call(tool) =>
      if !r.place.Between? then None
      else (match Entry(r.state, tool)
            case Allow => Some(r.(place := Cleared(tool)))
            case Deny => Some(Ended(r))
            case Ask => Some(r.(place := Asking(tool))))
    case NoConversation =>
      if r.place.Asking? && r.conv.None? then Some(Ended(r)) else None
    case Insert(block, ok) =>
      if !r.place.Asking? || r.conv.None? then None
      else if ok then Some(r.(place := Inserted(r.place.tool, block)))
      else Some(Ended(r))
    case Open(block, ch) =>
      if r.place.Inserted? && r.place.block == block then Some(r.(place := Waiting(r.place.tool, block, ch))) else None
    case Receive(ch, v) =>
      if !r.place.Waiting? || r.place.ch != ch then None
      else Some(r.(place := Returning(r.place.tool, r.place.block, v), settledBy := r.place.block,
                   state := if v then r.state.(approved := true) else r.state.(rejected := true)))
    case TimeOut =>
      if !r.place.Waiting? then None
      else Some(r.(place := Returning(r.place.tool, r.place.block, false), settledBy := r.place.block,
                   state := r.state.(rejected := true)))
    case ContextDone =>
      if !r.place.Waiting? then None else Some(r.(place := Returning(r.place.tool, r.place.block, false)))
    case Close(block) =>
      if !r.place.Returning? || r.place.block != block then None
      else if r.place.ok then Some(r.(place := Cleared(r.place.tool)))
      else Some(Ended(r))
    case Execute =>
      if r.place.Cleared? then Some(Ended(r)) else None
  }

  function RoundsNext(rounds: map<RoundId, Round>, a: Action): Option<map<RoundId, Round>> {
    match a
    case InRound(r, Begin(conv)) =>
      if r in rounds then None else Some(rounds[r := Round(conv, UNDECIDED, "", Between, 0)])
    case InRound(r, act) =>
      if r !in rounds then None
      else
        var next := RoundNext(rounds[r], act);
        if next.None? then None else Some(rounds[r := next.value])
    case _ => Some(rounds)
  }

  // ---- Rows -------------------------------------------------------------------

  /** The conversation of the asking round, which the inserted row carries. */
  function ConvOf(rounds: map<RoundId, Round>, r: RoundId): string {
    if r in rounds && rounds[r].conv.Some? then rounds[r].conv.value else ""
  }

  function RowsNext(rows: map<string, Row>, rounds: map<RoundId, Round>, a: Action): Option<map<string, Row>> {
    match a
    case InRound(r, Insert(block, ok)) =>
      if !ok then Some(rows)
      else if block in rows then None
      else Some(rows[block := Row(ConvOf(rounds, r), Pending, r)])
    case DecideHit(_, block, conv, v, _) =>
      if MayDecide(rows, block, conv) then Some(rows[block := rows[block].(status := Verdict(v))]) else None
    case DecideMiss(block, conv) =>
      if MayDecide(rows, block, conv) then None else Some(rows)
    case _ => Some(rows)
  }

  // ---- Channels ---------------------------------------------------------------

  /** The hook's map from blocks to channels and the channels' contents; `owner` and `sent`
      remember, for every channel ever made, its block and the value ever sent on it. */
  datatype Channels = Channels(
    open: map<string, ChannelId>, buffers: map<ChannelId, seq<bool>>,
    owner: map<ChannelId, string>, sent: map<ChannelId, bool>)

  function ChannelsNext(c: Channels, a: Action): Option<Channels> {
    match a
    case InRound(_, Open(block, ch)) =>
      if ch in c.buffers then None
      else Some(c.(open := c.open[block := ch], buffers := c.buffers[ch := []], owner := c.owner[ch := block]))
    case InRound(_, Receive(ch, v)) =>
      if ch in c.buffers && c.buffers[ch] != [] && c.buffers[ch][0] == v
      then Some(c.(buffers := c.buffers[ch := c.buffers[ch][1..]])) else None
    case InRound(_, Close(block)) =>
      Some(c.(open := c.open - {block}))
    case LoadHit(_, block, ch) =>
      if block in c.open && c.open[block] == ch then Some(c) else None
    case LoadMiss(_, block) =>
      if block in c.open then None else Some(c)
    case SendHit(_, ch, v) =>
      if ch in c.buffers && |c.buffers[ch]| < 1
      then Some(c.(buffers := c.buffers[ch := c.buffers[ch] + [v]], sent := c.sent[ch := v])) else None
    case SendFull(_, ch) =>
      if ch in c.buffers && |c.buffers[ch]| < 1 then None else Some(c)
    case _ => Some(c)
  }

  // ---- Decision requests ------------------------------------------------------

  /** A request that has updated its row and is on its way to signal the waiting round. */
  datatype Decider =
    | Decided(block: string, v: bool)
    | Loaded(block: string, ch: ChannelId, v: bool)

  function DecidersNext(ds: map<DeciderId, Decider>, a: Action): Option<map<DeciderId, Decider>> {
    match a
    case DecideHit(d, block, _, v, reported) =>
      if d in ds then None
      else if reported then Some(ds[d := Decided(block, v)])
      else Some(ds)
    case LoadHit(d, block, ch) =>
      if d in ds && ds[d].Decided? && ds[d].block == block then Some(ds[d := Loaded(block, ch, ds[d].v)]) else None
    case LoadMiss(d, block) =>
      if d in ds && ds[d].Decided? && ds[d].block == block then Some(ds - {d}) else None
    case SendHit(d, ch, v) =>
      if d in ds && ds[d].Loaded? && ds[d].ch == ch && ds[d].v == v then Some(ds - {d}) else None
    case SendFull(d, ch) =>
      if d in ds && ds[d].Loaded? && ds[d].ch == ch then Some(ds - {d}) else None
    case _ => Some(ds)
  }

  // ---- The log of finished calls ----------------------------------------------

  /** How one call ended: with its handler run, or with a denial as its result. */
  datatype Entered = Entered(round: RoundId, call: nat, tool: string, executed: bool)

  /** The call a step ends, if any. */
  function Finishes(rounds: map<RoundId, Round>, a: Action): Option<Entered> {
    if !a.InRound? || a.r !in rounds then None
    else
      var r := rounds[a.r];
      match a.a
      case SecurityDenies => Some(Entered(a.r, r.calls, "", false))
      case Call(tool) => if Entry(r.state, tool).Deny? then Some(Entered(a.r, r.calls, tool, false)) else None
      case NoConversation => if r.place.Asking? then Some(Entered(a.r, r.calls, r.place.tool, false)) else None
      case Insert(_, ok) => if !ok && r.place.Asking? then Some(Entered(a.r, r.calls, r.place.tool, false)) else None
      case Close(_) => if r.place.Returning? && !r.place.ok then Some(Entered(a.r, r.calls, r.place.tool, false)) else None
      case Execute => if r.place.Cleared? then Some(Entered(a.r, r.calls, r.place.tool, true)) else None
      case _ => None
  }

  datatype State = State(
    rounds: map<RoundId, Round>, rows: map<string, Row>, channels: Channels,
    deciders: map<DeciderId, Decider>, log: seq<Entered>)

  const START := State(map[], map[], Channels(map[], map[], map[], map[]), map[], [])

  function Next(s: State, a: Action): Option<State> {
    var rounds, rows := RoundsNext(s.rounds, a), RowsNext(s.rows, s.rounds, a);
    var channels, deciders := ChannelsNext(s.channels, a), DecidersNext(s.deciders, a);
    var ends := Finishes(s.rounds, a);
    if rounds.Some? && rows.Some? && channels.Some? && deciders.Some?
    then Some(State(rounds.value, rows.value, channels.value, deciders.value,
                    if ends.Some? then s.log + [ends.value] else s.log))
    else None
  }

  function RunFrom(s: State, acts: seq<Action>): Option<State> {
    Machines.Run(Next, s, acts)
  }

  function After(acts: seq<Action>): Option<State> {
    RunFrom(START, acts)
  }

  // ---- The invariant ----------------------------------------------------------

  /** Each request in flight carries the decision its row shows, and no two carry the same row. */
  ghost predicate DecidersInv(ds: map<DeciderId, Decider>, rows: map<string, Row>) {
    && (forall d :: d in ds ==> ds[d].block in rows && rows[ds[d].block].status == Verdict(ds[d].v))
    && (forall d, e :: d in ds && e in ds && ds[d].block == ds[e].block ==> d == e)
  }

  /** A block has at most one channel ever. */
  ghost predicate OwnersInv(c: Channels, rows: map<string, Row>) {
    && c.owner.Keys == c.buffers.Keys
    && (forall ch :: ch in c.owner ==> c.owner[ch] in rows)
    && (forall c1, c2 :: c1 in c.owner && c2 in c.owner && c.owner[c1] == c.owner[c2] ==> c1 == c2)
    && (forall b :: b in c.open ==> c.open[b] in c.owner && c.owner[c.open[b]] == b)
  }

  /** What was sent on a channel is the decision of its row, and nobody will send again. */
  ghost predicate SentInv(c: Channels, rows: map<string, Row>, ds: map<DeciderId, Decider>) {
    && (forall ch :: ch in c.sent ==> ch in c.owner && c.owner[ch] in rows && rows[c.owner[ch]].status == Verdict(c.sent[ch]))
    && (forall ch, d :: ch in c.sent && d in ds ==> ch in c.owner && ds[d].block != c.owner[ch])
    && (forall ch :: ch in c.buffers && c.buffers[ch] != [] ==> ch in c.sent && c.buffers[ch] == [c.sent[ch]])
    && (forall d :: d in ds && ds[d].Loaded? ==> ds[d].ch in c.owner && c.owner[ds[d].ch] == ds[d].block)
  }

  predicate HasBlock(place: Place) {
    place.Inserted? || place.Waiting? || place.Returning?
  }

  /** A round and the row it inserted. */
  ghost predicate RoundInv(r: RoundId, round: Round, rows: map<string, Row>, c: Channels) {
    && (HasBlock(round.place) ==>
          && round.place.block in rows && rows[round.place.block].round == r
          && round.conv == Some(rows[round.place.block].conv))
    && (round.place.Inserted? ==> forall ch :: ch in c.owner ==> c.owner[ch] != round.place.block)
    && (round.place.Waiting? ==> round.place.ch in c.owner && c.owner[round.place.ch] == round.place.block)
    && !(round.state.approved && round.state.rejected)
    && (round.state.approved ==>
          round.settledBy in rows && rows[round.settledBy].status == Approved && rows[round.settledBy].round == r
          && round.conv == Some(rows[round.settledBy].conv))
    && (round.place.Asking? || round.place.Inserted? || round.place.Waiting? ==> round.state == UNDECIDED)
    && (round.place.Returning? && round.place.ok ==> round.state.approved)
    && (round.place.Cleared? && IsHighRisk(round.place.tool) ==> round.state.approved)
  }

  ghost predicate RoundsInv(rounds: map<RoundId, Round>, rows: map<string, Row>, c: Channels) {
    && (forall r :: r in rounds ==> RoundInv(r, rounds[r], rows, c))
    && (forall b :: b in rows ==> rows[b].round in rounds)
  }

  ghost predicate LogInv(log: seq<Entered>, rounds: map<RoundId, Round>) {
    && (forall i :: 0 <= i < |log| ==> log[i].round in rounds && log[i].call < rounds[log[i].round].calls)
    && (forall i, j :: 0 <= i < j < |log| ==> log[i].round != log[j].round || log[i].call != log[j].call)
    && (forall i :: 0 <= i < |log| && log[i].executed && IsHighRisk(log[i].tool) ==> rounds[log[i].round].state.approved)
  }

  ghost predicate Inv(s: State) {
    && DecidersInv(s.deciders, s.rows) && OwnersInv(s.channels, s.rows)
    && SentInv(s.channels, s.rows, s.deciders)
    && RoundsInv(s.rounds, s.rows, s.channels) && LogInv(s.log, s.rounds)
  }
}
