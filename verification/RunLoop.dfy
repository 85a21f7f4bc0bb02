/** The orchestrator's loop over the message table: load the history, compacting it when it is
    long, send it to the model, and persist what the reply and its tools produce. The model's
    replies, the tools' outcomes, the clock, the ids and the failures of the database are given. */
module RunLoop {
  import opened Wrappers
  import opened Messages
  import opened Compaction
  import opened Reloads

  // ---- What the environment decides -------------------------------------------

  /** Id and time of a row to insert, and whether the database accepts it. */
  datatype Stamp = Stamp(id: MessageId, now: int, ok: bool)

  /** The summarising call (`None` when it fails), the summary's id, and the two writes. */
  datatype LoadIo = LoadIo(summary: Option<string>, id: MessageId, insertOk: bool, markOk: bool)

  datatype ToolOutcome =
    | Denied(reason: string)
    | ToolFailed(error: string)
    | ToolSucceeded(result: string)
    | UnknownTool

  /** What happens to one call: the refusal of a pre-hook, the answer of the MCP client its name is
      routed to, and the answer of the builtin tool of that name. */
  datatype CallIo = CallIo(denied: Option<string>, mcp: Option<Result<string, string>>, builtin: Option<Result<string, string>>)

  /** A denial comes first, then the MCP route, then the builtin tools. */
  function OutcomeOf(io: CallIo): ToolOutcome {
    match io
    case CallIo(Some(reason), _, _) => Denied(reason)
    case CallIo(None, Some(Ok(result)), _) => ToolSucceeded(result)
    case CallIo(None, Some(Err(error)), _) => ToolFailed(error)
    case CallIo(None, None, Some(Ok(result))) => ToolSucceeded(result)
    case CallIo(None, None, Some(Err(error))) => ToolFailed(error)
    case CallIo(None, None, None) => UnknownTool
  }

  datatype StopReason = EndTurn | ToolCalls | OtherStop

  /** A streamed reply; blocks other than text and tool calls are those of type `ToolResult`. */
  datatype Reply = Reply(stop: StopReason, content: seq<Block>)

  /** One turn of the loop. `fanIn` is the subagents' report when some were pending. */
  datatype Round = Round(
    io: LoadIo, reply: Option<Reply>, tools: nat -> CallIo, fanIn: Option<string>,
    first: Stamp, second: Stamp)

  datatype Exit = Looping | Finished | Errored

  // ---- Persisting -------------------------------------------------------------

  function NewMessage(conv: string, role: Role, content: seq<Block>, stamp: Stamp): Message {
    Message(stamp.id, conv, role, None, false, content, stamp.now)
  }

  predicate Accepts(t: Table, stamp: Stamp) {
    stamp.ok && stamp.id !in t
  }

  function Persisted(t: Table, conv: string, role: Role, content: seq<Block>, stamp: Stamp): Table {
    if Accepts(t, stamp) then t[stamp.id := NewMessage(conv, role, content, stamp)] else t
  }

  // ---- Loading ----------------------------------------------------------------

  /** Whether a load of `msgs` gets as far as inserting its summary. */
  predicate Summarises(t: Table, msgs: seq<Message>, io: LoadIo) {
    |msgs| >= THRESHOLD && io.summary.Some? && io.insertOk && io.id !in t
  }

  function TableAfterLoad(t: Table, conv: string, msgs: seq<Message>, io: LoadIo): Table {
    if !Summarises(t, msgs, io) then t
    else
      var inserted := t[io.id := Summary(conv, msgs, io.id, io.summary.value)];
      if io.markOk then Marked(inserted, Ids(Middle(msgs))) else inserted
  }

  function LoadedMessages(t: Table, conv: string, msgs: seq<Message>, io: LoadIo): seq<Message> {
    if Summarises(t, msgs, io) && io.markOk then Compacted(msgs, Summary(conv, msgs, io.id, io.summary.value)) else msgs
  }

  // ---- Dispatching tools ------------------------------------------------------

  function Calls(content: seq<Block>): seq<Block> {
    if content == [] then []
    else if content[0].ToolUse? then [content[0]] + Calls(content[1..])
    else Calls(content[1..])
  }

  /** Text and tool calls of a reply, in order. */
  function TextAndCalls(content: seq<Block>): seq<Block> {
    if content == [] then []
    else if content[|content| - 1].ToolResult? then TextAndCalls(content[..|content| - 1])
    else TextAndCalls(content[..|content| - 1]) + [content[|content| - 1]]
  }

  function TextOnly(content: seq<Block>): seq<Block> {
    if content == [] then []
    else if content[|content| - 1].Text? then TextOnly(content[..|content| - 1]) + [content[|content| - 1]]
    else TextOnly(content[..|content| - 1])
  }

  function ResultText(name: string, o: ToolOutcome): string {
    match o
    case Denied(reason) => "tool call denied: " + reason
    case ToolFailed(error) => "tool error: " + error
    case ToolSucceeded(result) => result
    case UnknownTool => "unknown tool: " + name
  }

  /** The result block of one call; only a denial is flagged as an error. */
  function ResultBlock(call: Block, o: ToolOutcome): Block
    requires call.ToolUse?
  {
    ToolResult(call.id, ResultText(call.name, o), o.Denied?)
  }

  function ResultBlocks(calls: seq<Block>, tools: nat -> CallIo): seq<Block>
    requires forall c :: c in calls ==> c.ToolUse?
  {
    seq(|calls|, k requires 0 <= k < |calls| => ResultBlock(calls[k], OutcomeOf(tools(k))))
  }

  lemma {:induction false} CallsAreCalls(content: seq<Block>)
    ensures forall c :: c in Calls(content) ==> c.ToolUse?
    ensures |Calls(content)| == |Uses(content)|
    ensures forall k :: 0 <= k < |Calls(content)| ==> Calls(content)[k].ToolUse? && Calls(content)[k].id == Uses(content)[k]
  {
    if content != [] {
      CallsAreCalls(content[1..]);
    }
  }

  lemma {:induction false} AnswersOfResults(results: seq<Block>)
    requires forall k :: 0 <= k < |results| ==> results[k].ToolResult?
    ensures |Answers(results)| == |results| && Uses(results) == []
    ensures forall k :: 0 <= k < |results| ==> Answers(results)[k] == results[k].useId
  {
    if results != [] {
      AnswersOfResults(results[1..]);
    }
  }

  /** The results of a round answer exactly its calls, in order, whatever mix of denials, tool
      errors and unknown tools occurred. */
  lemma ResultsAnswerCalls(content: seq<Block>, tools: nat -> CallIo)
    ensures forall c :: c in Calls(content) ==> c.ToolUse?
    ensures Answers(ResultBlocks(Calls(content), tools)) == Uses(content)
    ensures Uses(ResultBlocks(Calls(content), tools)) == []
  {
    CallsAreCalls(content);
    var calls := Calls(content);
    var results := ResultBlocks(calls, tools);
    forall k | 0 <= k < |results|
      ensures results[k].ToolResult? && results[k].useId == calls[k].id
    {
      assert results[k] == ResultBlock(calls[k], OutcomeOf(tools(k)));
    }
    AnswersOfResults(results);
  }

  lemma {:induction false} FilteredBlocks(content: seq<Block>)
    ensures Answers(TextAndCalls(content)) == []
    ensures Uses(TextOnly(content)) == [] && Answers(TextOnly(content)) == []
  {
    if content != [] {
      var front, last := content[..|content| - 1], content[|content| - 1];
      FilteredBlocks(front);
      UsesAppend(TextOnly(front), [last]);
      AnswersAppend(TextOnly(front), [last]);
      AnswersAppend(TextAndCalls(front), [last]);
      assert [last][1..] == [];
    }
  }

  // ---- One turn of the loop ---------------------------------------------------

  datatype Outcome = Outcome(table: Table, exit: Exit)

  function AfterToolCalls(t: Table, conv: string, content: seq<Block>, r: Round): Outcome {
    CallsAreCalls(content);
    var called := Persisted(t, conv, Assistant, content, r.first);
    if !Accepts(t, r.first) then Outcome(t, Errored)
    else if Calls(content) == [] then Outcome(called, Looping)
    else
      var results := ResultBlocks(Calls(content), r.tools);
      Outcome(Persisted(called, conv, User, results, r.second), if Accepts(called, r.second) then Looping else Errored)
  }

  function AfterEndTurn(t: Table, conv: string, content: seq<Block>, r: Round): Outcome {
    var replied := Persisted(t, conv, Assistant, TextOnly(content), r.first);
    if !Accepts(t, r.first) then Outcome(t, Errored)
    else if r.fanIn.None? then Outcome(replied, Finished)
    else Outcome(Persisted(replied, conv, User, [Text(r.fanIn.value)], r.second),
                 if Accepts(replied, r.second) then Looping else Errored)
  }

  function AfterOtherStop(t: Table, conv: string, content: seq<Block>, r: Round): Outcome {
    Outcome(if TextOnly(content) == [] then t else Persisted(t, conv, Assistant, TextOnly(content), r.first), Finished)
  }

  function AfterReply(t: Table, conv: string, r: Round): Outcome {
    if r.reply.None? then Outcome(t, Errored)
    else
      match r.reply.value.stop
      case EndTurn => AfterEndTurn(t, conv, r.reply.value.content, r)
      case ToolCalls => AfterToolCalls(t, conv, TextAndCalls(r.reply.value.content), r)
      case OtherStop => AfterOtherStop(t, conv, r.reply.value.content, r)
  }

  lemma StepKeepsValid(t: Table, conv: string, msgs: seq<Message>, r: Round)
    requires ValidTable(t)
    ensures ValidTable(TableAfterLoad(t, conv, msgs, r.io))
    ensures ValidTable(AfterReply(TableAfterLoad(t, conv, msgs, r.io), conv, r).table)
  {
  }

  /** The whole run: the final table, what the model was sent at every call, and the exit. */
  datatype Played = Played(table: Table, prompts: seq<seq<Turn>>, exit: Exit)

  ghost function Play(t: Table, conv: string, rounds: seq<Round>): Played
    requires ValidTable(t)
    decreases |rounds|
  {
    if rounds == [] then Played(t, [], Looping)
    else
      var msgs := History(t, conv);
      var r := rounds[0];
      var prompt := Sent(Turns(LoadedMessages(t, conv, msgs, r.io)));
      var next := AfterReply(TableAfterLoad(t, conv, msgs, r.io), conv, r);
      StepKeepsValid(t, conv, msgs, r);
      if next.exit != Looping then Played(next.table, [prompt], next.exit)
      else
        var rest := Play(next.table, conv, rounds[1..]);
        Played(rest.table, [prompt] + rest.prompts, rest.exit)
  }

  // ---- What a load, a reply and a dispatch do ---------------------------------

  /** A load that gets past its insert writes one new row: an uncompacted user message of the
      conversation that holds the summary, or says that there is none, one millisecond after the
      eleventh message from the end. If the update succeeds it marks the messages between the first
      four and the last ten, and the first four, the new row and the last ten are handed on;
      otherwise nothing else changes and the old list is. */
  lemma LoadWritesSummary(t: Table, conv: string, msgs: seq<Message>, io: LoadIo)
    requires |msgs| >= 40 && io.summary.Some? && io.insertOk && io.id !in t && forall m :: m in msgs ==> m.id in t
    ensures var t' := TableAfterLoad(t, conv, msgs, io);
            var n, text := |msgs|, io.summary.value;
            var row := Message(io.id, conv, User, None, false,
                               [Text(if text == "" then "[Context summary]\n(summary unavailable)" else "[Context summary]\n" + text)],
                               msgs[n - 11].createdAt + 1);
            && t'.Keys == t.Keys + {io.id} && t'[io.id] == row
            && (forall id :: id in t ==>
                  t'[id] == if io.markOk && (exists k :: 4 <= k < n - 10 && msgs[k].id == id) then t[id].(compacted := true) else t[id])
            && LoadedMessages(t, conv, msgs, io) == if io.markOk then msgs[..4] + [row] + msgs[n - 10..] else msgs
  {
    var n := |msgs|;
    var middle := Middle(msgs);
    assert middle[|middle| - 1] == msgs[n - 11];
    assert "[Context summary]\n" + "(summary unavailable)" == "[Context summary]\n(summary unavailable)";
    forall id
      ensures id in Ids(middle) <==> exists k :: 4 <= k < n - 10 && msgs[k].id == id
    {
      if id in Ids(middle) {
        var j :| 0 <= j < |middle| && middle[j].id == id;
        assert msgs[j + 4].id == id;
      }
      if k :| 4 <= k < n - 10 && msgs[k].id == id {
        assert middle[k - 4] == msgs[k];
      }
    }
    forall m | m in middle
      ensures m.id in t
    {
      var j :| 0 <= j < |middle| && middle[j] == m;
      assert msgs[j + 4] == m;
    }
  }

  /** With fewer messages, without a summary, or with the insert refused, a load changes nothing. */
  lemma LoadWithoutSummary(t: Table, conv: string, msgs: seq<Message>, io: LoadIo)
    requires |msgs| < 40 || io.summary.None? || !io.insertOk || io.id in t
    ensures TableAfterLoad(t, conv, msgs, io) == t && LoadedMessages(t, conv, msgs, io) == msgs
  {
  }

  /** What the reply's filters keep, block by block. */
  lemma KeptOfOne(b: Block)
    ensures TextOnly([b]) == if b.Text? then [b] else []
    ensures TextAndCalls([b]) == if b.Text? || b.ToolUse? then [b] else []
    ensures Calls([b]) == if b.ToolUse? then [b] else []
  {
    assert [b][..0] == [] && [b][1..] == [];
    assert Calls([b][1..]) == [];
    assert [] + [b] == [b] && [b] + [] == [b];
  }

  lemma {:induction false} KeptAppend(a: seq<Block>, b: seq<Block>)
    ensures TextOnly(a + b) == TextOnly(a) + TextOnly(b)
    ensures TextAndCalls(a + b) == TextAndCalls(a) + TextAndCalls(b)
  {
    if b == [] {
      assert a + b == a;
    } else {
      KeptAppend(a, b[..|b| - 1]);
      assert (a + b)[..|a + b| - 1] == a + b[..|b| - 1];
    }
  }

  lemma {:induction false} CallsAppend(a: seq<Block>, b: seq<Block>)
    ensures Calls(a + b) == Calls(a) + Calls(b)
  {
    if a == [] {
      assert a + b == b;
    } else {
      CallsAppend(a[1..], b);
      assert (a + b)[1..] == a[1..] + b;
    }
  }

  lemma {:induction false} NoCallsExactly(content: seq<Block>)
    ensures Calls(content) == [] <==> forall b :: b in content ==> !b.ToolUse?
  {
    if content != [] {
      NoCallsExactly(content[1..]);
      assert content == [content[0]] + content[1..];
    }
  }

  lemma {:induction false} KeptCalls(content: seq<Block>)
    ensures Calls(TextAndCalls(content)) == [] <==> forall b :: b in content ==> !b.ToolUse?
    ensures TextOnly(content) == [] <==> forall b :: b in content ==> !b.Text?
  {
    if content != [] {
      var front, last := content[..|content| - 1], content[|content| - 1];
      KeptCalls(front);
      assert content == front + [last];
      CallsAppend(TextAndCalls(front), [last]);
      KeptOfOne(last);
    }
  }

  /** The result of each call, in order: flagged as an error exactly if a pre-hook denied the call,
      whose reason it then gives, whatever a handler would have said; otherwise the answer of the
      MCP client the name is routed to; otherwise that of the builtin tool; otherwise that the tool
      is unknown. A failed handler is told as an error of the tool and not flagged. */
  lemma ResultSays(calls: seq<Block>, tools: nat -> CallIo, k: nat)
    requires (forall c :: c in calls ==> c.ToolUse?) && k < |calls|
    ensures |ResultBlocks(calls, tools)| == |calls| && calls[k].ToolUse?
    ensures var b, io := ResultBlocks(calls, tools)[k], tools(k);
            && b.ToolResult? && b.useId == calls[k].id && (b.isError <==> io.denied.Some?)
            && (io.denied.Some? ==> b.content == "tool call denied: " + io.denied.value)
            && (io.denied.None? && io.mcp.Some? ==>
                  b.content == if io.mcp.value.Ok? then io.mcp.value.value else "tool error: " + io.mcp.value.error)
            && (io.denied.None? && io.mcp.None? && io.builtin.Some? ==>
                  b.content == if io.builtin.value.Ok? then io.builtin.value.value else "tool error: " + io.builtin.value.error)
            && (io.denied.None? && io.mcp.None? && io.builtin.None? ==> b.content == "unknown tool: " + calls[k].name)
  {
  }

  /** So the message that a dispatch persists after its calls is a user message with one result for
      each call, of which this is so. */
  lemma DispatchPersistsAnswers(t: Table, conv: string, content: seq<Block>, r: Round, k: nat)
    requires r.first.ok && r.first.id !in t && r.second.ok && r.second.id !in t && r.second.id != r.first.id
    requires k < |Calls(content)|
    ensures var after := AfterToolCalls(t, conv, content, r).table;
            && r.second.id in after && after[r.second.id].role == User && after[r.second.id].conv == conv
            && |after[r.second.id].content| == |Calls(content)| && Calls(content)[k].ToolUse?
            && var b, io := after[r.second.id].content[k], r.tools(k);
               && b.ToolResult? && b.useId == Calls(content)[k].id && (b.isError <==> io.denied.Some?)
               && (io.denied.Some? ==> b.content == "tool call denied: " + io.denied.value)
               && (io.denied.None? && io.mcp.Some? ==>
                     b.content == if io.mcp.value.Ok? then io.mcp.value.value else "tool error: " + io.mcp.value.error)
               && (io.denied.None? && io.mcp.None? && io.builtin.Some? ==>
                     b.content == if io.builtin.value.Ok? then io.builtin.value.value else "tool error: " + io.builtin.value.error)
               && (io.denied.None? && io.mcp.None? && io.builtin.None? ==> b.content == "unknown tool: " + Calls(content)[k].name)
  {
    CallsAreCalls(content);
    ResultSays(Calls(content), r.tools, k);
  }

  /** How a turn of the loop ends: it finishes exactly on an `end_turn` that is written and has
      nothing to fan in, and on every stop reason that is not `end_turn` or `tool_use`; it loops
      exactly on an `end_turn` whose reply and report are written, and on tool calls whose message
      and, if it calls any tool, results are written; it fails in all other cases. */
  lemma ReplyExits(t: Table, conv: string, r: Round)
    ensures var exit := AfterReply(t, conv, r).exit;
            var first := r.first.ok && r.first.id !in t;
            var second := r.second.ok && r.second.id !in t && r.second.id != r.first.id;
            && (exit == Finished <==>
                  && r.reply.Some?
                  && (r.reply.value.stop == OtherStop || (r.reply.value.stop == EndTurn && first && r.fanIn.None?)))
            && (exit == Looping <==>
                  && r.reply.Some? && first
                  && ((r.reply.value.stop == EndTurn && r.fanIn.Some? && second)
                      || (r.reply.value.stop == ToolCalls && ((forall b :: b in r.reply.value.content ==> !b.ToolUse?) || second))))
  {
    if r.reply.Some? {
      KeptCalls(r.reply.value.content);
    }
  }

  /** The rows a reply adds, in the order of its writes. */
  lemma ReplyWrites(t: Table, conv: string, r: Round)
    requires r.reply.Some?
    ensures forall c :: c in Calls(TextAndCalls(r.reply.value.content)) ==> c.ToolUse?
    ensures var content, after := r.reply.value.content, AfterReply(t, conv, r).table;
            var first := r.first.ok && r.first.id !in t;
            var second := r.second.ok && r.second.id !in t && r.second.id != r.first.id;
            match r.reply.value.stop
            case EndTurn =>
              var replied := t[r.first.id := Message(r.first.id, conv, Assistant, None, false, TextOnly(content), r.first.now)];
              if !first then after == t
              else if r.fanIn.None? || !second then after == replied
              else after == replied[r.second.id := Message(r.second.id, conv, User, None, false, [Text(r.fanIn.value)], r.second.now)]
            case ToolCalls =>
              var called := t[r.first.id := Message(r.first.id, conv, Assistant, None, false, TextAndCalls(content), r.first.now)];
              if !first then after == t
              else if (forall b :: b in content ==> !b.ToolUse?) || !second then after == called
              else after == called[r.second.id := Message(r.second.id, conv, User, None, false,
                                                          ResultBlocks(Calls(TextAndCalls(content)), r.tools), r.second.now)]
            case OtherStop =>
              after == if first && (exists b :: b in content && b.Text?)
                       then t[r.first.id := Message(r.first.id, conv, Assistant, None, false, TextOnly(content), r.first.now)]
                       else t
  {
    KeptCalls(r.reply.value.content);
    CallsAreCalls(TextAndCalls(r.reply.value.content));
  }

  /** Without a reply nothing is written. */
  lemma NoReplyWritesNothing(t: Table, conv: string, r: Round)
    requires r.reply.None?
    ensures AfterReply(t, conv, r).table == t
  {
  }

  /** What the first round leaves. */
  ghost function FirstOutcome(t: Table, conv: string, rounds: seq<Round>): Outcome
    requires ValidTable(t) && rounds != []
  {
    AfterReply(TableAfterLoad(t, conv, History(t, conv), rounds[0].io), conv, rounds[0])
  }

  /** The table before round `k`, if every round before it looped. */
  ghost function TableAt(t: Table, conv: string, rounds: seq<Round>, k: nat): Table
    requires ValidTable(t) && k <= |rounds|
    decreases k
  {
    if k == 0 then t
    else
      StepKeepsValid(t, conv, History(t, conv), rounds[0]);
      TableAt(FirstOutcome(t, conv, rounds).table, conv, rounds[1..], k - 1)
  }

  /** And the exit of that round. */
  ghost function ExitAt(t: Table, conv: string, rounds: seq<Round>, k: nat): Exit
    requires ValidTable(t) && k < |rounds|
    decreases k
  {
    if k == 0 then FirstOutcome(t, conv, rounds).exit
    else
      StepKeepsValid(t, conv, History(t, conv), rounds[0]);
      ExitAt(FirstOutcome(t, conv, rounds).table, conv, rounds[1..], k - 1)
  }

  ghost predicate LoopsBefore(t: Table, conv: string, rounds: seq<Round>, n: nat)
    requires ValidTable(t) && n <= |rounds|
  {
    forall k :: 0 <= k < n ==> ExitAt(t, conv, rounds, k) == Looping
  }

  /** The first `n` rounds are taken, and the last of them is the first that does not loop, if any. */
  ghost predicate Takes(t: Table, conv: string, rounds: seq<Round>, n: nat, exit: Exit)
    requires ValidTable(t)
  {
    && n <= |rounds|
    && (exit == Looping ==> n == |rounds| && LoopsBefore(t, conv, rounds, n))
    && (exit != Looping ==> n > 0 && ExitAt(t, conv, rounds, n - 1) == exit && LoopsBefore(t, conv, rounds, n - 1))
  }

  /** What a run says of itself: the rounds it takes, its exit and its table. */
  ghost predicate StopsRight(t: Table, conv: string, rounds: seq<Round>, p: Played)
    requires ValidTable(t)
  {
    Takes(t, conv, rounds, |p.prompts|, p.exit) && p.table == TableAt(t, conv, rounds, |p.prompts|)
  }

  lemma StopsLater(t: Table, conv: string, rounds: seq<Round>, p: Played, rest: Played)
    requires ValidTable(t) && rounds != [] && FirstOutcome(t, conv, rounds).exit == Looping
    requires ValidTable(FirstOutcome(t, conv, rounds).table)
    requires StopsRight(FirstOutcome(t, conv, rounds).table, conv, rounds[1..], rest)
    requires p.table == rest.table && p.exit == rest.exit && |p.prompts| == 1 + |rest.prompts|
    ensures StopsRight(t, conv, rounds, p)
  {
    var next := FirstOutcome(t, conv, rounds).table;
    var n := if p.exit == Looping then |p.prompts| else |p.prompts| - 1;
    forall k | 0 <= k < n
      ensures ExitAt(t, conv, rounds, k) == Looping
    {
      assert k > 0 ==> ExitAt(t, conv, rounds, k) == ExitAt(next, conv, rounds[1..], k - 1);
    }
  }

  lemma StopsAtOnce(t: Table, conv: string, rounds: seq<Round>, p: Played)
    requires ValidTable(t) && rounds != []
    requires FirstOutcome(t, conv, rounds) == Outcome(p.table, p.exit) && p.exit != Looping && |p.prompts| == 1
    ensures StopsRight(t, conv, rounds, p)
  {
    StepKeepsValid(t, conv, History(t, conv), rounds[0]);
    assert TableAt(t, conv, rounds, 1) == p.table;
  }

  /** A run sends one prompt for each round it takes, goes on exactly while rounds loop, and stops at
      the first that does not, with its exit and its table. */
  lemma {:induction false} RunStopsAtFirstExit(t: Table, conv: string, rounds: seq<Round>)
    requires ValidTable(t)
    ensures StopsRight(t, conv, rounds, Play(t, conv, rounds))
    decreases |rounds|
  {
    if rounds != [] {
      StepKeepsValid(t, conv, History(t, conv), rounds[0]);
      var next := FirstOutcome(t, conv, rounds);
      if next.exit != Looping {
        StopsAtOnce(t, conv, rounds, Play(t, conv, rounds));
      } else {
        RunStopsAtFirstExit(next.table, conv, rounds[1..]);
        StopsLater(t, conv, rounds, Play(t, conv, rounds), Play(next.table, conv, rounds[1..]));
      }
    }
  }

  // ---- When the pairing is kept -----------------------------------------------

  /** A row that sorts after the whole history. */
  ghost predicate SortsLast(t: Table, conv: string, stamp: Stamp) {
    forall m :: m in Active(t, conv) ==> Before(m, NewMessage(conv, User, [], stamp))
  }

  /** A load that leaves every pair in one piece. If it inserts a summary and marks the middle, both
      cuts fall between pairs, and the summary sorts neither behind a cut pair nor into one; if it
      only inserts the summary, that does not sort between a call and its result. */
  ghost predicate CleanLoad(t: Table, conv: string, msgs: seq<Message>, io: LoadIo) {
    Summarises(t, msgs, io) ==>
      var k := Overtaken(Tail(msgs), Summary(conv, msgs, io.id, io.summary.value));
      if io.markOk then CutsBetweenPairs(msgs) && ReloadKeepsPairs(msgs, k)
      else Uses(msgs[|msgs| - LIVE_TAIL + k - 1].content) == []
  }

  /** Every message persisted in this round sorts last when it is persisted. */
  ghost predicate CleanWrites(t: Table, conv: string, r: Round) {
    && SortsLast(t, conv, r.first)
    && (r.reply.Some? && r.reply.value.stop == ToolCalls ==>
          SortsLast(Persisted(t, conv, Assistant, TextAndCalls(r.reply.value.content), r.first), conv, r.second))
    && (r.reply.Some? && r.reply.value.stop == EndTurn ==>
          SortsLast(Persisted(t, conv, Assistant, TextOnly(r.reply.value.content), r.first), conv, r.second))
  }

  ghost predicate Clean(t: Table, conv: string, rounds: seq<Round>)
    requires ValidTable(t)
    decreases |rounds|
  {
    rounds == [] ||
    (var msgs := History(t, conv);
     var r := rounds[0];
     var loaded := TableAfterLoad(t, conv, msgs, r.io);
     var next := AfterReply(loaded, conv, r);
     StepKeepsValid(t, conv, msgs, r);
     && CleanLoad(t, conv, msgs, r.io) && CleanWrites(loaded, conv, r)
     && (next.exit == Looping ==> Clean(next.table, conv, rounds[1..])))
  }

  lemma HistoryIs(t: Table, conv: string, q: seq<Message>)
    requires ValidTable(t) && IsListing(q, Active(t, conv))
    ensures History(t, conv) == q
  {
    ListingIsUnique(History(t, conv), q);
  }

  /** A row that sorts last is appended to the history. */
  lemma HistoryAfterPersist(t: Table, conv: string, role: Role, content: seq<Block>, stamp: Stamp)
    requires ValidTable(t) && Accepts(t, stamp) && SortsLast(t, conv, stamp)
    ensures var t' := Persisted(t, conv, role, content, stamp);
            ValidTable(t') && History(t', conv) == History(t, conv) + [NewMessage(conv, role, content, stamp)]
  {
    var m := NewMessage(conv, role, content, stamp);
    var q := History(t, conv);
    ActiveAfterInsert(t, conv, m);
    ElementsAppend(q, [m]);
    forall i | 0 <= i < |q|
      ensures Before(q[i], m)
    {
      assert q[i] in Elements(q);
    }
    HistoryIs(Persisted(t, conv, role, content, stamp), conv, q + [m]);
  }

  ghost predicate PairedHistory(t: Table, conv: string)
    requires ValidTable(t)
  {
    WellPaired(Turns(History(t, conv)))
  }

  /** The history is paired except that its last message makes `calls`. */
  ghost predicate HistoryAwaits(t: Table, conv: string, calls: seq<string>)
    requires ValidTable(t)
  {
    var ts := Turns(History(t, conv));
    PairedAfter([], ts) && CallsLeft([], ts) == calls
  }

  /** A row that sorts last and answers what is open extends the pairing. */
  lemma PersistExtendsPairs(t: Table, conv: string, role: Role, content: seq<Block>, stamp: Stamp, calls: seq<string>)
    requires ValidTable(t) && HistoryAwaits(t, conv, calls) && SortsLast(t, conv, stamp) && Accepts(t, stamp)
    requires Fits(Turn(role, content), calls)
    ensures ValidTable(Persisted(t, conv, role, content, stamp))
    ensures HistoryAwaits(Persisted(t, conv, role, content, stamp), conv, Uses(content))
  {
    HistoryAfterPersist(t, conv, role, content, stamp);
    var q, m := History(t, conv), NewMessage(conv, role, content, stamp);
    PairedAppend([], Turns(q), TurnOf(m));
    assert Turns(q + [m]) == Turns(q) + [TurnOf(m)];
  }

  /** A plain message, without calls or answers, keeps the history paired. */
  lemma PlainKeepsPairs(t: Table, conv: string, role: Role, content: seq<Block>, stamp: Stamp)
    requires ValidTable(t) && PairedHistory(t, conv) && SortsLast(t, conv, stamp)
    requires Uses(content) == [] && Answers(content) == []
    ensures ValidTable(Persisted(t, conv, role, content, stamp)) && PairedHistory(Persisted(t, conv, role, content, stamp), conv)
  {
    if Accepts(t, stamp) {
      PersistExtendsPairs(t, conv, role, content, stamp, []);
    }
  }

  /** The database takes the assistant's calls and then refuses their results. */
  predicate RefusesResults(t: Table, conv: string, content: seq<Block>, r: Round) {
    && Calls(content) != [] && Accepts(t, r.first)
    && !Accepts(Persisted(t, conv, Assistant, content, r.first), r.second)
  }

  /** The assistant's calls followed by their results keep the history paired, and without their
      results leave them open. */
  lemma CallsAndResultsPairExactly(t: Table, conv: string, content: seq<Block>, r: Round)
    requires ValidTable(t) && PairedHistory(t, conv) && Answers(content) == []
    requires SortsLast(t, conv, r.first) && SortsLast(Persisted(t, conv, Assistant, content, r.first), conv, r.second)
    ensures ValidTable(AfterToolCalls(t, conv, content, r).table)
    ensures PairedHistory(AfterToolCalls(t, conv, content, r).table, conv) <==> !RefusesResults(t, conv, content, r)
    ensures RefusesResults(t, conv, content, r) ==>
              Uses(content) != [] && HistoryAwaits(AfterToolCalls(t, conv, content, r).table, conv, Uses(content))
  {
    if Accepts(t, r.first) {
      PersistExtendsPairs(t, conv, Assistant, content, r.first, []);
      ResultsAnswerCalls(content, r.tools);
      CallsAreCalls(content);
      var called := Persisted(t, conv, Assistant, content, r.first);
      if Calls(content) != [] && Accepts(called, r.second) {
        PersistExtendsPairs(called, conv, User, ResultBlocks(Calls(content), r.tools), r.second, Uses(content));
      }
    }
  }

  /** The reply's tool calls are persisted and their results are not. */
  predicate LeavesCallsOpen(t: Table, conv: string, r: Round) {
    r.reply.Some? && r.reply.value.stop == ToolCalls && RefusesResults(t, conv, TextAndCalls(r.reply.value.content), r)
  }

  /** Whatever the reply and whichever writes are refused, a paired history stays paired if and only
      if it is not the results of accepted calls that are refused. */
  lemma ReplyKeepsPairsExactly(t: Table, conv: string, r: Round)
    requires ValidTable(t) && PairedHistory(t, conv) && CleanWrites(t, conv, r)
    ensures ValidTable(AfterReply(t, conv, r).table)
    ensures PairedHistory(AfterReply(t, conv, r).table, conv) <==> !LeavesCallsOpen(t, conv, r)
    ensures LeavesCallsOpen(t, conv, r) ==> AfterReply(t, conv, r).exit == Errored
  {
    if r.reply.Some? {
      var content := r.reply.value.content;
      FilteredBlocks(content);
      match r.reply.value.stop
      case ToolCalls =>
        CallsAndResultsPairExactly(t, conv, TextAndCalls(content), r);
      case EndTurn =>
        PlainKeepsPairs(t, conv, Assistant, TextOnly(content), r.first);
        if r.fanIn.Some? {
          var report := [Text(r.fanIn.value)];
          assert report[1..] == [];
          PlainKeepsPairs(Persisted(t, conv, Assistant, TextOnly(content), r.first), conv, User, report, r.second);
        }
      case OtherStop =>
        PlainKeepsPairs(t, conv, Assistant, TextOnly(content), r.first);
    }
  }

  /** A load of a well-paired history sends a well-paired list and leaves a well-paired history if
      and only if it is clean. */
  lemma LoadKeepsPairsExactly(t: Table, conv: string, io: LoadIo)
    requires ValidTable(t) && PairedHistory(t, conv)
    ensures var msgs := History(t, conv);
            && ValidTable(TableAfterLoad(t, conv, msgs, io))
            && (CleanLoad(t, conv, msgs, io) <==>
                  && WellPaired(Sent(Turns(LoadedMessages(t, conv, msgs, io))))
                  && PairedHistory(TableAfterLoad(t, conv, msgs, io), conv))
  {
    var msgs := History(t, conv);
    if !Summarises(t, msgs, io) {
      SentStaysPaired(Turns(msgs));
    } else if io.markOk {
      CompactingLoad(t, conv, msgs, io);
    } else {
      SentStaysPaired(Turns(msgs));
      StrandingLoad(t, conv, msgs, io);
    }
  }

  lemma CompactingLoad(t: Table, conv: string, msgs: seq<Message>, io: LoadIo)
    requires ValidTable(t) && msgs == History(t, conv) && WellPaired(Turns(msgs)) && Summarises(t, msgs, io) && io.markOk
    ensures var summary := Summary(conv, msgs, io.id, io.summary.value);
            var after := TableAfterLoad(t, conv, msgs, io);
            && ValidTable(after)
            && (WellPaired(Sent(Turns(Compacted(msgs, summary)))) <==> CutsBetweenPairs(msgs))
            && (PairedHistory(after, conv) <==> ReloadKeepsPairs(msgs, Overtaken(Tail(msgs), summary)))
  {
    CompactedPromptExactly(conv, msgs, io.id, io.summary.value);
    ReloadPairsExactly(t, conv, msgs, io.id, io.summary.value, History(TableAfterLoad(t, conv, msgs, io), conv));
  }

  lemma StrandingLoad(t: Table, conv: string, msgs: seq<Message>, io: LoadIo)
    requires ValidTable(t) && msgs == History(t, conv) && WellPaired(Turns(msgs)) && Summarises(t, msgs, io) && !io.markOk
    ensures var summary := Summary(conv, msgs, io.id, io.summary.value);
            var after := TableAfterLoad(t, conv, msgs, io);
            && ValidTable(after)
            && (PairedHistory(after, conv) <==> Uses(msgs[|msgs| - LIVE_TAIL + Overtaken(Tail(msgs), summary) - 1].content) == [])
  {
    StrandedPairsExactly(t, conv, msgs, io.id, io.summary.value, History(TableAfterLoad(t, conv, msgs, io), conv));
  }

  /** At every call of a run the model is sent a well-paired history, provided the run starts
      from one, every message sorts last when it is persisted, and every compaction on the way
      is clean; and a run that does not fail leaves a well-paired history behind. */
  lemma {:induction false} EveryPromptIsPaired(t: Table, conv: string, rounds: seq<Round>)
    requires ValidTable(t) && PairedHistory(t, conv) && Clean(t, conv, rounds)
    ensures forall k :: 0 <= k < |Play(t, conv, rounds).prompts| ==> WellPaired(Play(t, conv, rounds).prompts[k])
    ensures ValidTable(Play(t, conv, rounds).table)
    ensures Play(t, conv, rounds).exit != Errored ==> PairedHistory(Play(t, conv, rounds).table, conv)
    decreases |rounds|
  {
    if rounds != [] {
      var msgs, r := History(t, conv), rounds[0];
      LoadKeepsPairsExactly(t, conv, r.io);
      var loaded := TableAfterLoad(t, conv, msgs, r.io);
      StepKeepsValid(t, conv, msgs, r);
      ReplyKeepsPairsExactly(loaded, conv, r);
      if AfterReply(loaded, conv, r).exit == Looping {
        EveryPromptIsPaired(AfterReply(loaded, conv, r).table, conv, rounds[1..]);
      }
    }
  }

  lemma OrderedPair(ts: seq<Turn>, a: Turn, u: Turn)
    requires WellPaired(ts) && Fits(a, []) && Fits(u, Uses(a.content)) && Uses(u.content) == []
    ensures WellPaired(ts + [a, u])
  {
    PairedAppend([], ts, a);
    PairedAppend([], ts + [a], u);
    assert ts + [a] + [u] == ts + [a, u];
  }

  lemma SwappedPair(ts: seq<Turn>, a: Turn, u: Turn)
    requires WellPaired(ts) && Answers(u.content) != []
    ensures !WellPaired(ts + [u, a])
  {
    PairedAppend([], ts, u);
    PairedAppend([], ts + [u], a);
    assert ts + [u] + [a] == ts + [u, a];
  }

  /** Two rows written in the same millisecond are ordered by their ids alone. Behind a paired
      history, a message with calls and the message with their results load back as a pair
      exactly when the first sorts before the second. */
  lemma ReloadedPairExactly(q: seq<Message>, a: Message, u: Message, p: seq<Message>)
    requires WellPaired(Turns(q)) && Sorted(q)
    requires a.role == Assistant && Answers(a.content) == [] && Uses(a.content) != []
    requires u.role == User && Uses(u.content) == [] && Answers(u.content) == Uses(a.content)
    requires a.id != u.id && forall m :: m in q ==> Before(m, a) && Before(m, u)
    requires IsListing(p, Elements(q) + {a, u})
    ensures WellPaired(Turns(p)) <==> Before(a, u)
  {
    if Before(a, u) {
      AppendedListing(q, a, u, p);
      OrderedPair(Turns(q), TurnOf(a), TurnOf(u));
    } else {
      AppendedListing(q, u, a, p);
      SwappedPair(Turns(q), TurnOf(a), TurnOf(u));
    }
  }

  lemma AppendedListing(q: seq<Message>, x: Message, y: Message, p: seq<Message>)
    requires Sorted(q) && Before(x, y) && forall m :: m in q ==> Before(m, x) && Before(m, y)
    requires IsListing(p, Elements(q) + {x, y})
    ensures p == q + [x, y] && Turns(p) == Turns(q) + [TurnOf(x), TurnOf(y)]
  {
    ElementsAppend(q, [x, y]);
    assert Elements([x, y]) == {x, y};
    ListingIsUnique(p, q + [x, y]);
  }

  // ---- Calls left open --------------------------------------------------------

  /** What a load that does not compact sends is not well-paired. */
  ghost predicate Unanswered(t: Table, conv: string)
    requires ValidTable(t)
  {
    !WellPaired(Sent(Turns(History(t, conv))))
  }

  /** Refused results leave their calls unanswered. */
  lemma RefusedResultsAreMissed(t: Table, conv: string, r: Round)
    requires ValidTable(t) && PairedHistory(t, conv) && CleanWrites(t, conv, r) && LeavesCallsOpen(t, conv, r)
    ensures ValidTable(AfterReply(t, conv, r).table) && Unanswered(AfterReply(t, conv, r).table, conv)
  {
    var content := TextAndCalls(r.reply.value.content);
    FilteredBlocks(r.reply.value.content);
    CallsAndResultsPairExactly(t, conv, content, r);
    SkippingEmptyTurns(Turns(History(AfterReply(t, conv, r).table, conv)));
  }

  lemma SentAfterPersist(t: Table, conv: string, role: Role, content: seq<Block>, stamp: Stamp)
    requires ValidTable(t) && Accepts(t, stamp) && SortsLast(t, conv, stamp)
    ensures var t' := Persisted(t, conv, role, content, stamp);
            var before := Sent(Turns(History(t, conv)));
            && ValidTable(t')
            && Sent(Turns(History(t', conv))) == if content == [] then before else before + [Turn(role, content)]
  {
    HistoryAfterPersist(t, conv, role, content, stamp);
    var q, m := History(t, conv), NewMessage(conv, role, content, stamp);
    TurnsAppend(q, [m]);
    assert Turns([m]) == [Turn(role, content)];
    assert (Turns(q) + [Turn(role, content)])[..|q|] == Turns(q);
  }

  /** A message that answers nothing, from whomever, answers no open call; and from then on nothing
      else does. */
  lemma PersistKeepsUnanswered(t: Table, conv: string, role: Role, content: seq<Block>, stamp: Stamp)
    requires ValidTable(t) && Unanswered(t, conv) && SortsLast(t, conv, stamp)
    requires Answers(content) == [] || !PairedAfter([], Sent(Turns(History(t, conv))))
    ensures var t' := Persisted(t, conv, role, content, stamp);
            && ValidTable(t') && Unanswered(t', conv)
            && (Accepts(t, stamp) && content != [] ==> !PairedAfter([], Sent(Turns(History(t', conv)))))
  {
    if Accepts(t, stamp) {
      SentAfterPersist(t, conv, role, content, stamp);
      PairedAppend([], Sent(Turns(History(t, conv))), Turn(role, content));
    }
  }

  lemma ReplyKeepsUnanswered(t: Table, conv: string, r: Round)
    requires ValidTable(t) && Unanswered(t, conv) && CleanWrites(t, conv, r)
    ensures ValidTable(AfterReply(t, conv, r).table) && Unanswered(AfterReply(t, conv, r).table, conv)
  {
    if r.reply.Some? {
      var content := r.reply.value.content;
      FilteredBlocks(content);
      match r.reply.value.stop
      case ToolCalls =>
        var calls := TextAndCalls(content);
        PersistKeepsUnanswered(t, conv, Assistant, calls, r.first);
        CallsAreCalls(calls);
        if Accepts(t, r.first) && Calls(calls) != [] {
          PersistKeepsUnanswered(Persisted(t, conv, Assistant, calls, r.first), conv, User, ResultBlocks(Calls(calls), r.tools), r.second);
        }
      case EndTurn =>
        PersistKeepsUnanswered(t, conv, Assistant, TextOnly(content), r.first);
        if r.fanIn.Some? {
          var report := [Text(r.fanIn.value)];
          assert Answers(report) == [] by { assert report[1..] == []; }
          PersistKeepsUnanswered(Persisted(t, conv, Assistant, TextOnly(content), r.first), conv, User, report, r.second);
        }
      case OtherStop =>
        PersistKeepsUnanswered(t, conv, Assistant, TextOnly(content), r.first);
    }
  }

  /** Every message sorts last when it is persisted, and no load compacts. */
  ghost predicate Uncompacted(t: Table, conv: string, rounds: seq<Round>)
    requires ValidTable(t)
    decreases |rounds|
  {
    rounds == [] ||
    (var r := rounds[0];
     var next := AfterReply(t, conv, r);
     StepKeepsValid(t, conv, History(t, conv), r);
     && !Summarises(t, History(t, conv), r.io) && CleanWrites(t, conv, r)
     && (next.exit == Looping ==> Uncompacted(next.table, conv, rounds[1..])))
  }

  /** Until a compaction, nothing repairs calls left open: every later call of the model is sent
      a list that is not well-paired, and the table is left as bad as it was for the run after
      this one. */
  lemma {:induction false} OpenCallsStayOpen(t: Table, conv: string, rounds: seq<Round>)
    requires ValidTable(t) && Unanswered(t, conv) && Uncompacted(t, conv, rounds)
    ensures forall k :: 0 <= k < |Play(t, conv, rounds).prompts| ==> !WellPaired(Play(t, conv, rounds).prompts[k])
    ensures ValidTable(Play(t, conv, rounds).table) && Unanswered(Play(t, conv, rounds).table, conv)
    decreases |rounds|
  {
    if rounds != [] {
      var r := rounds[0];
      StepKeepsValid(t, conv, History(t, conv), r);
      ReplyKeepsUnanswered(t, conv, r);
      if AfterReply(t, conv, r).exit == Looping {
        OpenCallsStayOpen(AfterReply(t, conv, r).table, conv, rounds[1..]);
      }
    }
  }

  // ---- Other readers and writers in the middle of a dispatch ------------------

  /** What a subagent sends: the history it loads, followed by its instruction. */
  ghost function SubAgentPrompt(t: Table, conv: string, io: LoadIo, instruction: string): seq<Turn>
    requires ValidTable(t)
  {
    Sent(Turns(LoadedMessages(t, conv, History(t, conv), io))) + [Turn(User, [Text(instruction)])]
  }

  /** A subagent that loads the history between the two writes of a dispatch is sent an unpaired
      prompt whenever the reply calls a tool, and its own dispatch is such a call; a load that
      leaves pairs in one piece sends a paired one exactly if the reply calls none. */
  lemma MidDispatchPromptExactly(t: Table, conv: string, content: seq<Block>, r: Round, io: LoadIo, instruction: string)
    requires ValidTable(t) && PairedHistory(t, conv) && Answers(content) == []
    requires SortsLast(t, conv, r.first) && Accepts(t, r.first)
    ensures var mid := Persisted(t, conv, Assistant, content, r.first);
            && ValidTable(mid)
            && (Uses(content) != [] ==> !WellPaired(SubAgentPrompt(mid, conv, io, instruction)))
            && (CleanLoad(mid, conv, History(mid, conv), io) ==>
                  (WellPaired(SubAgentPrompt(mid, conv, io, instruction)) <==> Uses(content) == []))
  {
    var mid := Persisted(t, conv, Assistant, content, r.first);
    HistoryAfterPersist(t, conv, Assistant, content, r.first);
    var msgs := History(mid, conv);
    var loaded := LoadedMessages(mid, conv, msgs, io);
    if Uses(content) != [] {
      LastIsSent(loaded);
      OpenCallsBeforeText(Sent(Turns(loaded)), instruction);
    } else if CleanLoad(mid, conv, msgs, io) {
      PersistExtendsPairs(t, conv, Assistant, content, r.first, []);
      LoadKeepsPairsExactly(mid, conv, io);
      OpenCallsBeforeText(Sent(Turns(loaded)), instruction);
    }
  }

  lemma LastIsSent(q: seq<Message>)
    requires q != [] && q[|q| - 1].content != []
    ensures Sent(Turns(q)) != []
    ensures CallsLeft([], Sent(Turns(q))) == Uses(q[|q| - 1].content)
  {
    var front, last := Turns(q)[..|q| - 1], Turns(q)[|q| - 1];
    assert Sent(Turns(q)) == Sent(front) + [last];
  }

  /** A text behind some turns is paired only if they leave nothing open. */
  lemma OpenCallsBeforeText(ts: seq<Turn>, text: string)
    ensures WellPaired(ts + [Turn(User, [Text(text)])]) <==> WellPaired(ts)
  {
    var plain := Turn(User, [Text(text)]);
    assert plain.content[1..] == [];
    assert Uses(plain.content) == [];
    assert Answers(plain.content) == [] by {
      assert Answers(plain.content[1..]) == [];
    }
    PairedAppend([], ts, plain);
  }

  /** Another writer's plain message, a subagent's or the user's, breaks a pair exactly when it
      sorts between the calls and their results. */
  lemma InterveningMessageExactly(q: seq<Message>, a: Message, u: Message, x: Message, p: seq<Message>)
    requires WellPaired(Turns(q)) && Sorted(q)
    requires a.role == Assistant && Answers(a.content) == [] && Uses(a.content) != []
    requires u.role == User && Uses(u.content) == [] && Answers(u.content) == Uses(a.content)
    requires Uses(x.content) == [] && Answers(x.content) == []
    requires Before(a, u) && x.id != a.id && x.id != u.id
    requires forall m :: m in q ==> Before(m, a) && Before(m, u) && Before(m, x)
    requires IsListing(p, Elements(q) + {a, u, x})
    ensures WellPaired(Turns(p)) <==> !(Before(a, x) && Before(x, u))
  {
    if Before(x, a) {
      ThreeMore(q, x, a, u, p);
    } else if Before(x, u) {
      ThreeMore(q, a, x, u, p);
    } else {
      ThreeMore(q, a, u, x, p);
    }
  }

  /** Three rows behind a listing, turn by turn. */
  lemma ThreeMore(q: seq<Message>, x: Message, y: Message, z: Message, p: seq<Message>)
    requires Sorted(q) && WellPaired(Turns(q)) && Before(x, y) && Before(y, z)
    requires forall m :: m in q ==> Before(m, x) && Before(m, y) && Before(m, z)
    requires IsListing(p, Elements(q) + {x, y, z})
    ensures WellPaired(Turns(p)) <==>
              && Fits(TurnOf(x), []) && Fits(TurnOf(y), Uses(x.content)) && Fits(TurnOf(z), Uses(y.content))
              && Uses(z.content) == []
  {
    ElementsAppend(q, [x, y, z]);
    assert Elements([x, y, z]) == {x, y, z};
    ListingIsUnique(p, q + [x, y, z]);
    assert Turns(p) == Turns(q) + [TurnOf(x)] + [TurnOf(y)] + [TurnOf(z)];
    PairedAppend([], Turns(q), TurnOf(x));
    PairedAppend([], Turns(q) + [TurnOf(x)], TurnOf(y));
    PairedAppend([], Turns(q) + [TurnOf(x)] + [TurnOf(y)], TurnOf(z));
  }
}
