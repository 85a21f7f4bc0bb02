/** The message table as an object with the agent service's methods over it, each proved against
    the functions of the loop's specification. */
module MessageStore {
  import opened Wrappers
  import opened Messages
  import opened Compaction
  import opened RunLoop

  class Store {
    var rows: Table

    ghost predicate Valid()
      reads this
    {
      ValidTable(rows)
    }

    constructor ()
      ensures Valid() && rows == map[]
    {
      rows := map[];
    }

    /** `WHERE conversation_id = ? AND compacted = 0 ORDER BY created_at ASC, id ASC`. */
    method Select(conv: string) returns (q: seq<Message>)
      requires Valid()
      ensures q == History(rows, conv)
      ensures forall m :: m in q <==> m in rows.Values && m.conv == conv && !m.compacted
      ensures forall i, j :: 0 <= i < j < |q| ==>
                q[i].createdAt < q[j].createdAt || (q[i].createdAt == q[j].createdAt && q[i].id < q[j].id)
    {
      q := Order(set m | m in rows.Values && m.conv == conv && !m.compacted);
      assert Elements(q) == Active(rows, conv);
      assert forall m :: m in q <==> m in Elements(q);
      assert forall i, j :: 0 <= i < j < |q| ==> Before(q[i], q[j]);
    }

    method PersistMessage(conv: string, role: Role, content: seq<Block>, stamp: Stamp) returns (ok: bool)
      requires Valid()
      modifies this
      ensures Valid()
      ensures ok == Accepts(old(rows), stamp) && rows == Persisted(old(rows), conv, role, content, stamp)
      ensures ok <==> stamp.ok && stamp.id !in old(rows)
      ensures rows == if ok then old(rows)[stamp.id := Message(stamp.id, conv, role, None, false, content, stamp.now)] else old(rows)
    {
      ok := stamp.ok && stamp.id !in rows;
      if ok {
        rows := rows[stamp.id := NewMessage(conv, role, content, stamp)];
      }
    }

    /** On an error the caller falls back to the messages it passed in. */
    method MaybeCompact(conv: string, msgs: seq<Message>, io: LoadIo) returns (result: seq<Message>, failed: bool)
      requires Valid()
      modifies this
      ensures Valid()
      ensures rows == TableAfterLoad(old(rows), conv, msgs, io)
      ensures failed <==> |msgs| >= 40 && !(io.summary.Some? && io.insertOk && io.id !in old(rows) && io.markOk)
      ensures result == LoadedMessages(old(rows), conv, msgs, io)
    {
      if |msgs| < THRESHOLD {
        return msgs, false;
      }
      var head := msgs[..PINNED_HEAD];
      var tail := msgs[|msgs| - LIVE_TAIL..];
      if io.summary.None? {
        return msgs, true;
      }
      var summary := Summary(conv, msgs, io.id, io.summary.value);
      if !io.insertOk || io.id in rows {
        return msgs, true;
      }
      rows := rows[io.id := summary];
      if !io.markOk {
        return msgs, true;
      }
      rows := Marked(rows, Ids(Middle(msgs)));
      result := head + [summary] + tail;
      failed := false;
    }

    method LoadHistory(conv: string, io: LoadIo) returns (params: seq<Turn>)
      requires Valid()
      modifies this
      ensures Valid()
      ensures var msgs := History(old(rows), conv);
              && rows == TableAfterLoad(old(rows), conv, msgs, io)
              && params == Sent(Turns(LoadedMessages(old(rows), conv, msgs, io)))
    {
      var selected := Select(conv);
      var msgs, failed := MaybeCompact(conv, selected, io);
      if failed {
        msgs := selected;
      }
      params := Convert(msgs);
    }

    /** Messages without blocks are left out. */
    method Convert(msgs: seq<Message>) returns (params: seq<Turn>)
      ensures params == Sent(Turns(msgs))
    {
      params := [];
      var turns := Turns(msgs);
      for k := 0 to |msgs|
        invariant params == Sent(turns[..k])
      {
        assert turns[..k + 1][..k] == turns[..k];
        if msgs[k].content != [] {
          params := params + [Turn(msgs[k].role, msgs[k].content)];
        }
      }
      assert turns[..|msgs|] == turns;
    }

    /** The assistant message is persisted once, before any tool runs; the results follow as one
        user message, one result per call, in the order of the calls. */
    method DispatchTools(conv: string, content: seq<Block>, r: Round) returns (ok: bool)
      requires Valid()
      modifies this
      ensures Valid()
      ensures var o := AfterToolCalls(old(rows), conv, content, r);
              rows == o.table && (ok <==> o.exit == Looping)
    {
      var pending: seq<Block> := [];
      for k := 0 to |content|
        invariant pending == Calls(content[..k]) && rows == old(rows)
      {
        CallsAppend(content[..k], [content[k]]);
        KeptOfOne(content[k]);
        assert content[..k + 1] == content[..k] + [content[k]];
        if content[k].ToolUse? {
          pending := pending + [content[k]];
        }
      }
      assert content[..|content|] == content;
      CallsAreCalls(content);
      ok := PersistMessage(conv, Assistant, content, r.first);
      if !ok {
        return;
      }
      var results: seq<Block> := [];
      for k := 0 to |pending|
        invariant results == ResultBlocks(pending, r.tools)[..k]
        invariant rows == Persisted(old(rows), conv, Assistant, content, r.first)
      {
        var io := r.tools(k);
        var result: string;
        if io.denied.Some? {
          result := "tool call denied: " + io.denied.value;
        } else if io.mcp.Some? {
          result := if io.mcp.value.Ok? then io.mcp.value.value else "tool error: " + io.mcp.value.error;
        } else if io.builtin.Some? {
          result := if io.builtin.value.Ok? then io.builtin.value.value else "tool error: " + io.builtin.value.error;
        } else {
          result := "unknown tool: " + pending[k].name;
        }
        results := results + [ToolResult(pending[k].id, result, io.denied.Some?)];
      }
      assert results == ResultBlocks(pending, r.tools);
      if |results| > 0 {
        ok := PersistMessage(conv, User, results, r.second);
      }
    }

    method TextBlocks(content: seq<Block>) returns (blocks: seq<Block>)
      ensures blocks == TextOnly(content)
    {
      blocks := [];
      for k := 0 to |content|
        invariant blocks == TextOnly(content[..k])
      {
        assert content[..k + 1][..k] == content[..k];
        if content[k].Text? {
          blocks := blocks + [content[k]];
        }
      }
      assert content[..|content|] == content;
    }

    method AssistantBlocks(content: seq<Block>) returns (blocks: seq<Block>)
      ensures blocks == TextAndCalls(content)
    {
      blocks := [];
      for k := 0 to |content|
        invariant blocks == TextAndCalls(content[..k])
      {
        assert content[..k + 1][..k] == content[..k];
        match content[k] {
          case Text(_) => blocks := blocks + [content[k]];
          case ToolUse(_, _, _) => blocks := blocks + [content[k]];
          case ToolResult(_, _, _) =>
        }
      }
      assert content[..|content|] == content;
    }

    /** What one streamed reply leads to. */
    method HandleReply(conv: string, r: Round) returns (exit: Exit)
      requires Valid()
      modifies this
      ensures Valid()
      ensures Outcome(rows, exit) == AfterReply(old(rows), conv, r)
    {
      if r.reply.None? {
        return Errored;
      }
      var content := r.reply.value.content;
      var ok: bool;
      match r.reply.value.stop {
        case EndTurn =>
          var blocks := TextBlocks(content);
          ok := PersistMessage(conv, Assistant, blocks, r.first);
          if !ok {
            return Errored;
          }
          if r.fanIn.Some? {
            ok := PersistMessage(conv, User, [Text(r.fanIn.value)], r.second);
            return if ok then Looping else Errored;
          }
          return Finished;
        case ToolCalls =>
          var blocks := AssistantBlocks(content);
          ok := DispatchTools(conv, blocks, r);
          return if ok then Looping else Errored;
        case OtherStop =>
          var blocks := TextBlocks(content);
          if |blocks| > 0 {
            ok := PersistMessage(conv, Assistant, blocks, r.first);
          }
          return Finished;
      }
    }

    /** One turn of the loop; `rest` are the turns to come. */
    method TakeTurn(conv: string, r: Round, ghost rest: seq<Round>) returns (params: seq<Turn>, exit: Exit)
      requires Valid()
      modifies this
      ensures Valid()
      ensures Play(old(rows), conv, [r] + rest) ==
              Preceded([params], if exit != Looping then Played(rows, [], exit) else Play(rows, conv, rest))
    {
      PlayTurn(rows, conv, [r] + rest);
      assert ([r] + rest)[1..] == rest;
      params := LoadHistory(conv, r.io);
      exit := HandleReply(conv, r);
    }

    /** The orchestrator's loop, for as many turns as are given or until the run ends. */
    method Run(conv: string, rounds: seq<Round>) returns (prompts: seq<seq<Turn>>, exit: Exit)
      requires Valid()
      modifies this
      ensures Valid()
      ensures Played(rows, prompts, exit) == Play(old(rows), conv, rounds)
    {
      prompts, exit := [], Looping;
      var i := 0;
      while i < |rounds|
        invariant 0 <= i <= |rounds| && Valid()
        invariant exit == Looping
        invariant Play(old(rows), conv, rounds) == Preceded(prompts, Play(rows, conv, rounds[i..]))
      {
        assert rounds[i..] == [rounds[i]] + rounds[i + 1..];
        ghost var before := prompts;
        var params;
        params, exit := TakeTurn(conv, rounds[i], rounds[i + 1..]);
        prompts := prompts + [params];
        if exit != Looping {
          PrecededByOne(before, params, Played(rows, [], exit));
          return;
        }
        PrecededByOne(before, params, Play(rows, conv, rounds[i + 1..]));
        i := i + 1;
      }
    }
  }

  /** A run that continues `rest` after having sent `prompts`. */
  function Preceded(prompts: seq<seq<Turn>>, rest: Played): Played {
    rest.(prompts := prompts + rest.prompts)
  }

  lemma PrecededByOne(prompts: seq<seq<Turn>>, prompt: seq<Turn>, rest: Played)
    ensures Preceded(prompts, Preceded([prompt], rest)) == Preceded(prompts + [prompt], rest)
    ensures rest.prompts == [] ==> Preceded(prompts + [prompt], rest) == rest.(prompts := prompts + [prompt])
  {
    assert prompts + ([prompt] + rest.prompts) == prompts + [prompt] + rest.prompts;
  }

  /** One turn of a run. */
  lemma PlayTurn(t: Table, conv: string, rounds: seq<Round>)
    requires ValidTable(t) && rounds != []
    ensures var msgs := History(t, conv);
            var prompt := Sent(Turns(LoadedMessages(t, conv, msgs, rounds[0].io)));
            var next := AfterReply(TableAfterLoad(t, conv, msgs, rounds[0].io), conv, rounds[0]);
            && ValidTable(next.table)
            && Play(t, conv, rounds) ==
               Preceded([prompt], if next.exit != Looping then Played(next.table, [], next.exit)
                                  else Play(next.table, conv, rounds[1..]))
  {
    StepKeepsValid(t, conv, History(t, conv), rounds[0]);
  }
}
