/** Counts the subagents in flight for each conversation and keeps their results for fan-in. */
module DispatchRegistry {
  import opened Wrappers

  type ThreadId = nat

  datatype SubAgentResult = SubAgentResult(agentName: string, thread: ThreadId, output: string, err: Option<string>)

  /** What the registry's three maps hold for one conversation; an absent key reads as the zero
      value. `W` names wait groups, whose counters live outside the registry. */
  datatype Slot<W> = Slot(pending: int, wg: Option<W>, outs: seq<SubAgentResult>)

  function Vacant<W>(): Slot<W> {
    Slot(0, None, [])
  }

  function Added<W>(s: Slot<W>, newGroup: W): Slot<W> {
    Slot(s.pending + 1, if s.wg.None? then Some(newGroup) else s.wg, s.outs)
  }

  function Finished<W>(s: Slot<W>, r: SubAgentResult): Slot<W> {
    Slot(s.pending - 1, s.wg, s.outs + [r])
  }

  class WaitGroup {
    var count: int

    constructor ()
      ensures count == 0
    {
      count := 0;
    }
  }

  class Registry {
    var pending: map<string, int>
    var wgs: map<string, WaitGroup>
    var outs: map<string, seq<SubAgentResult>>

    /** Conversations never share a wait group. */
    ghost predicate Valid()
      reads this
    {
      forall c, d :: c in wgs && d in wgs && c != d ==> wgs[c] != wgs[d]
    }

    function SlotOf(conv: string): Slot<WaitGroup>
      reads this
    {
      Slot(
        if conv in pending then pending[conv] else 0,
        if conv in wgs then Some(wgs[conv]) else None,
        if conv in outs then outs[conv] else [])
    }

    constructor ()
      ensures Valid()
      ensures forall c :: SlotOf(c) == Vacant()
    {
      pending, wgs, outs := map[], map[], map[];
    }

    method Add(conv: string)
      requires Valid()
      modifies this, wgs.Values
      ensures Valid()
      ensures conv in wgs && SlotOf(conv) == Added(old(SlotOf(conv)), wgs[conv])
      ensures old(SlotOf(conv)).wg.None? ==> fresh(wgs[conv])
      ensures wgs[conv].count == (if conv in old(wgs) then old(wgs[conv].count) else 0) + 1
      ensures forall c :: c != conv ==> SlotOf(c) == old(SlotOf(c))
      ensures forall c :: c != conv && c in old(wgs) ==> c in wgs && wgs[c].count == old(wgs[c].count)
    {
      if conv !in wgs {
        var wg := new WaitGroup();
        wgs := wgs[conv := wg];
      }
      wgs[conv].count := wgs[conv].count + 1;
      pending := pending[conv := (if conv in pending then pending[conv] else 0) + 1];
    }

    /** The locked half of `Done`: the wait group it found is signalled after the unlock. */
    method DoneLocked(conv: string, result: SubAgentResult) returns (wg: Option<WaitGroup>)
      requires Valid()
      modifies this
      ensures Valid() && wgs == old(wgs)
      ensures SlotOf(conv) == Finished(old(SlotOf(conv)), result) && wg == SlotOf(conv).wg
      ensures forall c :: c != conv ==> SlotOf(c) == old(SlotOf(c))
    {
      outs := outs[conv := (if conv in outs then outs[conv] else []) + [result]];
      wg := if conv in wgs then Some(wgs[conv]) else None;
      pending := pending[conv := (if conv in pending then pending[conv] else 0) - 1];
    }

    /** A wait group's counter must not go below zero, so the caller has to have been added. */
    method Done(conv: string, result: SubAgentResult)
      requires Valid()
      requires conv in wgs ==> wgs[conv].count > 0
      modifies this, wgs.Values
      ensures Valid()
      ensures SlotOf(conv) == Finished(old(SlotOf(conv)), result)
      ensures conv in wgs ==> wgs[conv].count == old(wgs[conv].count) - 1
      ensures forall c :: c != conv ==> SlotOf(c) == old(SlotOf(c))
      ensures forall c :: c != conv && c in old(wgs) ==> c in wgs && wgs[c].count == old(wgs[c].count)
    {
      var wg := DoneLocked(conv, result);
      if wg.Some? {
        wg.value.count := wg.value.count - 1;
      }
    }

    method Pending(conv: string) returns (n: int)
      ensures n == SlotOf(conv).pending
    {
      n := if conv in pending then pending[conv] else 0;
    }

    method Drain(conv: string) returns (results: seq<SubAgentResult>)
      requires Valid()
      modifies this
      ensures Valid()
      ensures results == old(SlotOf(conv)).outs && SlotOf(conv) == Vacant()
      ensures forall c :: c != conv ==> SlotOf(c) == old(SlotOf(c))
    {
      results := if conv in outs then outs[conv] else [];
      outs := outs - {conv};
      wgs := wgs - {conv};
      pending := pending - {conv};
    }
  }
}
