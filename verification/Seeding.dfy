/** Seeding system agents and skills: find-or-create on a unique name, raced by any number of
    callers, and the startup sequence that links agents to their skills. */
module Seeding {
  import opened Wrappers
  import Machines

  type RowId = nat
  type CallerId = nat

  // ---- Racing callers ---------------------------------------------------------

  /** Where a caller of find-or-create for `name` stands. */
  datatype Caller =
    | Looking(name: string)
    | Creating(name: string)      // nothing was found
    | Refetching(name: string)    // the insert met the unique index
    | Returned(name: string, id: RowId)
    | Failed(name: string)        // the second lookup found nothing

  /** Rows by primary key; the unique index on the name is enforced by the insert. */
  datatype Race = Race(rows: map<RowId, string>, callers: map<CallerId, Caller>)

  datatype RaceAction =
    | Enter(c: CallerId, name: string)
    | Find(c: CallerId, id: RowId)
    | FindNothing(c: CallerId)
    | Insert(c: CallerId, id: RowId)
    | InsertElsewhere(id: RowId, name: string)   // the create endpoint

  predicate NameTaken(rows: map<RowId, string>, name: string) {
    exists id :: id in rows && rows[id] == name
  }

  ghost function RaceNext(s: Race, a: RaceAction): Option<Race> {
    match a
    case Enter(c, name) =>
      if c in s.callers then None else Some(s.(callers := s.callers[c := Looking(name)]))
    case Find(c, id) =>
      if c !in s.callers || !(s.callers[c].Looking? || s.callers[c].Refetching?) then None
      else if id !in s.rows || s.rows[id] != s.callers[c].name then None
      else Some(s.(callers := s.callers[c := Returned(s.callers[c].name, id)]))
    case FindNothing(c) =>
      if c !in s.callers || !(s.callers[c].Looking? || s.callers[c].Refetching?) then None
      else if NameTaken(s.rows, s.callers[c].name) then None
      else Some(s.(callers := s.callers[c := if s.callers[c].Looking? then Creating(s.callers[c].name)
                                             else Failed(s.callers[c].name)]))
    case Insert(c, id) =>
      if c !in s.callers || !s.callers[c].Creating? || id in s.rows then None
      else if NameTaken(s.rows, s.callers[c].name)
      then Some(s.(callers := s.callers[c := Refetching(s.callers[c].name)]))
      else Some(Race(s.rows[id := s.callers[c].name], s.callers[c := Returned(s.callers[c].name, id)]))
    case InsertElsewhere(id, name) =>
      if id in s.rows || NameTaken(s.rows, name) then None else Some(s.(rows := s.rows[id := name]))
  }

  ghost function RaceAfter(acts: seq<RaceAction>): Option<Race> {
    Machines.Run(RaceNext, Race(map[], map[]), acts)
  }

  ghost predicate RaceInv(s: Race) {
    && (forall i, j :: i in s.rows && j in s.rows && s.rows[i] == s.rows[j] ==> i == j)
    && (forall c :: c in s.callers && s.callers[c].Returned? ==>
          s.callers[c].id in s.rows && s.rows[s.callers[c].id] == s.callers[c].name)
    && (forall c :: c in s.callers && s.callers[c].Refetching? ==> NameTaken(s.rows, s.callers[c].name))
    && (forall c :: c in s.callers ==> !s.callers[c].Failed?)
  }

  lemma InsertKeepsNames(rows: map<RowId, string>, id: RowId, name: string)
    requires id !in rows
    ensures forall n :: NameTaken(rows, n) ==> NameTaken(rows[id := name], n)
  {
    forall n | NameTaken(rows, n)
      ensures NameTaken(rows[id := name], n)
    {
      var i :| i in rows && rows[i] == n;
      assert i in rows[id := name] && rows[id := name][i] == n;
    }
  }

  lemma RaceStepKeepsInv(s: Race, a: RaceAction)
    requires RaceInv(s) && RaceNext(s, a).Some?
    ensures RaceInv(RaceNext(s, a).value)
  {
    match a
    case Insert(c, id) => InsertKeepsNames(s.rows, id, s.callers[c].name);
    case InsertElsewhere(id, name) => InsertKeepsNames(s.rows, id, name);
    case _ =>
  }

  /** However many callers race, one name gets one row, every caller that returns gets that row's
      id, and none fails: nothing is deleted or renamed meanwhile. */
  lemma {:induction false} RaceLeavesOneRow(acts: seq<RaceAction>)
    requires RaceAfter(acts).Some?
    ensures RaceInv(RaceAfter(acts).value)
    ensures var s := RaceAfter(acts).value;
            forall c, d :: (&& c in s.callers && d in s.callers && s.callers[c].Returned? && s.callers[d].Returned?
                            && s.callers[c].name == s.callers[d].name) ==> s.callers[c].id == s.callers[d].id
  {
    if acts != [] {
      RaceLeavesOneRow(acts[..|acts| - 1]);
      RaceStepKeepsInv(RaceAfter(acts[..|acts| - 1]).value, acts[|acts| - 1]);
    }
  }

  /** After the steps `more` the caller has returned. */
  ghost predicate ReturnsAfter(s: Race, c: CallerId, name: string, more: seq<RaceAction>) {
    var t := Machines.Run(RaceNext, s, more);
    t.Some? && c in t.value.callers && t.value.callers[c].Returned? && t.value.callers[c].name == name
  }

  lemma ReturnsLater(s: Race, c: CallerId, name: string, a: RaceAction, rest: seq<RaceAction>)
    requires RaceNext(s, a).Some? && ReturnsAfter(RaceNext(s, a).value, c, name, rest)
    ensures ReturnsAfter(s, c, name, [a] + rest)
  {
    Machines.OneStep(RaceNext, s, a);
    Machines.RunAppend(RaceNext, s, [a], rest);
  }

  lemma FinderReturns(s: Race, c: CallerId, name: string) returns (more: seq<RaceAction>)
    requires c in s.callers && (s.callers[c] == Looking(name) || s.callers[c] == Refetching(name)) && NameTaken(s.rows, name)
    ensures ReturnsAfter(s, c, name, more)
  {
    var id :| id in s.rows && s.rows[id] == name;
    Machines.OneStep(RaceNext, s, Find(c, id));
    more := [Find(c, id)];
  }

  lemma CreatorReturns(s: Race, c: CallerId, name: string) returns (more: seq<RaceAction>)
    requires c in s.callers && s.callers[c] == Creating(name)
    ensures ReturnsAfter(s, c, name, more)
  {
    var id := FreshNumber(s.rows.Keys);
    var a := Insert(c, id);
    if NameTaken(s.rows, name) {
      var rest := FinderReturns(RaceNext(s, a).value, c, name);
      ReturnsLater(s, c, name, a, rest);
      more := [a] + rest;
    } else {
      Machines.OneStep(RaceNext, s, a);
      more := [a];
    }
  }

  /** No caller is ever stuck: by steps of its own it can return from wherever it is. */
  lemma EveryCallerCanReturn(acts: seq<RaceAction>, c: CallerId)
    requires RaceAfter(acts).Some? && c in RaceAfter(acts).value.callers
    ensures exists more :: ReturnsAfter(RaceAfter(acts).value, c, RaceAfter(acts).value.callers[c].name, more)
  {
    RaceLeavesOneRow(acts);
    var s := RaceAfter(acts).value;
    var name := s.callers[c].name;
    match s.callers[c]
    case Returned(_, _) =>
      assert ReturnsAfter(s, c, name, []);
    case Creating(_) =>
      var more := CreatorReturns(s, c, name);
    case Refetching(_) =>
      var more := FinderReturns(s, c, name);
    case Looking(_) =>
      if NameTaken(s.rows, name) {
        var more := FinderReturns(s, c, name);
      } else {
        var rest := CreatorReturns(RaceNext(s, FindNothing(c)).value, c, name);
        ReturnsLater(s, c, name, FindNothing(c), rest);
      }
    case Failed(_) =>
  }

  // ---- Startup ----------------------------------------------------------------

  datatype AgentDef = AgentDef(name: string, skills: seq<string>)

  /** Agents and skills by unique name, the join table, and the next fresh id. */
  datatype Db = Db(agents: map<string, RowId>, skills: map<string, RowId>, links: set<(RowId, RowId)>, next: RowId)

  /** Every id is below the next fresh one, and links join existing rows. */
  ghost predicate ValidDb(db: Db) {
    && (forall n :: n in db.agents ==> db.agents[n] < db.next)
    && (forall n :: n in db.skills ==> db.skills[n] < db.next)
    && (forall l :: l in db.links ==> l.0 in db.agents.Values && l.1 in db.skills.Values)
    && (forall m, n :: m in db.skills && n in db.skills && db.skills[m] == db.skills[n] ==> m == n)
  }

  function WithAgent(db: Db, name: string): Db {
    if name in db.agents then db else db.(agents := db.agents[name := db.next], next := db.next + 1)
  }

  function WithSkill(db: Db, name: string): Db {
    if name in db.skills then db else db.(skills := db.skills[name := db.next], next := db.next + 1)
  }

  /** Links to those of the named skills that exist. */
  function WithLinks(db: Db, agent: RowId, names: seq<string>): Db {
    if names == [] then db
    else
      var d := WithLinks(db, agent, names[..|names| - 1]);
      var name := names[|names| - 1];
      if name in d.skills then d.(links := d.links + {(agent, d.skills[name])}) else d
  }

  function WithDef(db: Db, def: AgentDef): Db {
    var d := WithAgent(db, def.name);
    WithLinks(d, d.agents[def.name], def.skills)
  }

  function AgentsSeeded(db: Db, defs: seq<AgentDef>): Db {
    if defs == [] then db else WithDef(AgentsSeeded(db, defs[..|defs| - 1]), defs[|defs| - 1])
  }

  function SkillsSeeded(db: Db, order: seq<string>): Db {
    if order == [] then db else WithSkill(SkillsSeeded(db, order[..|order| - 1]), order[|order| - 1])
  }

  /** One start of the server: the agents are seeded before the skills; the skills come from a
      map, so their order may differ from start to start. */
  function Started(db: Db, defs: seq<AgentDef>, order: seq<string>): Db {
    SkillsSeeded(AgentsSeeded(db, defs), order)
  }

  /** The agent exists and is linked to every one of its skills that exists in `skills`. */
  ghost predicate HasLoadout(db: Db, def: AgentDef, skills: map<string, RowId>) {
    && def.name in db.agents
    && forall n :: n in def.skills && n in skills ==> (db.agents[def.name], skills[n]) in db.links
  }

  ghost predicate FullLoadouts(db: Db, defs: seq<AgentDef>) {
    forall k :: 0 <= k < |defs| ==> HasLoadout(db, defs[k], db.skills)
  }

  /** Rows and links are only ever added. */
  ghost predicate Extends(db: Db, after: Db) {
    && (forall n :: n in db.agents ==> n in after.agents && after.agents[n] == db.agents[n])
    && (forall n :: n in db.skills ==> n in after.skills && after.skills[n] == db.skills[n])
    && db.links <= after.links && db.next <= after.next
  }

  lemma {:induction false} LinksAdded(db: Db, agent: RowId, names: seq<string>)
    ensures var d := WithLinks(db, agent, names);
            && d.agents == db.agents && d.skills == db.skills && d.next == db.next && db.links <= d.links
            && (forall n :: n in names && n in db.skills ==> (agent, db.skills[n]) in d.links)
            && (forall l :: l in d.links ==> l in db.links || (l.0 == agent && l.1 in db.skills.Values))
            && (forall l :: l in d.links && l !in db.links ==> exists n :: n in names && n in db.skills && l == (agent, db.skills[n]))
  {
    if names != [] {
      LinksAdded(db, agent, names[..|names| - 1]);
      forall n | n in names
        ensures n in names[..|names| - 1] || n == names[|names| - 1]
      {
      }
    }
  }

  lemma WithDefExtends(db: Db, def: AgentDef)
    requires ValidDb(db)
    ensures var d := WithDef(db, def);
            ValidDb(d) && Extends(db, d) && d.skills == db.skills && HasLoadout(d, def, db.skills)
  {
    var e := WithAgent(db, def.name);
    LinksAdded(e, e.agents[def.name], def.skills);
    assert e.agents[def.name] in e.agents.Values;
    forall l | l in db.links
      ensures l.0 in e.agents.Values
    {
      var n :| n in db.agents && db.agents[n] == l.0;
      assert e.agents[n] == l.0;
    }
  }

  lemma ExtendsTransitive(a: Db, b: Db, c: Db)
    requires Extends(a, b) && Extends(b, c)
    ensures Extends(a, c)
  {
  }

  lemma LoadoutsSurvive(db: Db, after: Db, defs: seq<AgentDef>)
    requires FullLoadouts(db, defs) && Extends(db, after) && after.skills == db.skills
    ensures FullLoadouts(after, defs)
  {
    forall k | 0 <= k < |defs|
      ensures HasLoadout(after, defs[k], after.skills)
    {
      assert HasLoadout(db, defs[k], db.skills);
    }
  }

  lemma {:induction false} AgentsSeededExtends(db: Db, defs: seq<AgentDef>)
    requires ValidDb(db)
    ensures var d := AgentsSeeded(db, defs);
            ValidDb(d) && Extends(db, d) && d.skills == db.skills && FullLoadouts(d, defs)
  {
    if defs != [] {
      var front, last := defs[..|defs| - 1], defs[|defs| - 1];
      AgentsSeededExtends(db, front);
      var before := AgentsSeeded(db, front);
      WithDefExtends(before, last);
      ExtendsTransitive(db, before, WithDef(before, last));
      LoadoutsSurvive(before, WithDef(before, last), front);
    }
  }

  /** Seeding agents adds no agent but the given ones, and no link but from one of them to a skill it
      wants. */
  lemma {:induction false} AgentsSeededAddsOnly(db: Db, defs: seq<AgentDef>)
    requires ValidDb(db)
    ensures var d := AgentsSeeded(db, defs);
            && (forall n :: n in d.agents ==> n in db.agents || exists k :: 0 <= k < |defs| && defs[k].name == n)
            && (forall l :: l in d.links ==> l in db.links || IsWanted(d, defs, db.skills, l))
  {
    if defs != [] {
      var front, last := defs[..|defs| - 1], defs[|defs| - 1];
      AgentsSeededAddsOnly(db, front);
      AgentsSeededExtends(db, front);
      AddsOnlyOne(db, AgentsSeeded(db, front), defs, front, last);
    }
  }

  /** The link joins one of the agents with a skill it wants. */
  ghost predicate IsWanted(d: Db, defs: seq<AgentDef>, skills: map<string, RowId>, l: (RowId, RowId)) {
    exists k, n :: 0 <= k < |defs| && n in defs[k].skills && n in skills && defs[k].name in d.agents
                   && l == (d.agents[defs[k].name], skills[n])
  }

  lemma AddsOnlyOne(db: Db, before: Db, defs: seq<AgentDef>, front: seq<AgentDef>, last: AgentDef)
    requires ValidDb(before) && before.skills == db.skills && defs == front + [last]
    requires forall n :: n in before.agents ==> n in db.agents || exists k :: 0 <= k < |front| && front[k].name == n
    requires forall l :: l in before.links ==> l in db.links || IsWanted(before, front, db.skills, l)
    ensures var d := WithDef(before, last);
            && (forall n :: n in d.agents ==> n in db.agents || exists k :: 0 <= k < |defs| && defs[k].name == n)
            && (forall l :: l in d.links ==> l in db.links || IsWanted(d, defs, db.skills, l))
  {
    var d := WithDef(before, last);
    WithDefExtends(before, last);
    LinksAdded(WithAgent(before, last.name), WithAgent(before, last.name).agents[last.name], last.skills);
    forall n | n in d.agents
      ensures n in db.agents || exists k :: 0 <= k < |defs| && defs[k].name == n
    {
      if n in before.agents && n !in db.agents {
        var k :| 0 <= k < |front| && front[k].name == n;
        assert defs[k].name == n;
      }
      assert n in before.agents || n == last.name;
      assert defs[|defs| - 1] == last;
    }
    forall l | l in d.links && l !in db.links
      ensures IsWanted(d, defs, db.skills, l)
    {
      if l in before.links {
        var k, n :| 0 <= k < |front| && n in front[k].skills && n in db.skills && front[k].name in before.agents
                    && l == (before.agents[front[k].name], db.skills[n]);
        assert defs[k] == front[k];
      } else {
        var n :| n in last.skills && n in db.skills && l == (d.agents[last.name], db.skills[n]);
        assert defs[|defs| - 1] == last;
      }
    }
  }

  lemma WithSkillExtends(db: Db, name: string)
    requires ValidDb(db)
    ensures ValidDb(WithSkill(db, name)) && Extends(db, WithSkill(db, name))
  {
    var d := WithSkill(db, name);
    forall l | l in db.links
      ensures l.1 in d.skills.Values
    {
      var n :| n in db.skills && db.skills[n] == l.1;
      assert d.skills[n] == l.1;
    }
  }

  /** `d` is `db` with the named skills added. */
  ghost predicate SkillsAdded(db: Db, d: Db, names: set<string>) {
    && ValidDb(d) && Extends(db, d) && d.agents == db.agents && d.links == db.links
    && d.skills.Keys == db.skills.Keys + names
    && (forall n :: n in d.skills && n !in db.skills ==> d.skills[n] >= db.next)
  }

  lemma SkillStep(db: Db, before: Db, names: set<string>, name: string)
    requires SkillsAdded(db, before, names)
    ensures SkillsAdded(db, WithSkill(before, name), names + {name})
  {
    WithSkillExtends(before, name);
    ExtendsTransitive(db, before, WithSkill(before, name));
  }

  lemma {:induction false} SkillsSeededExtends(db: Db, order: seq<string>)
    requires ValidDb(db)
    ensures SkillsAdded(db, SkillsSeeded(db, order), Elements(order))
  {
    if order != [] {
      var front, last := order[..|order| - 1], order[|order| - 1];
      SkillsSeededExtends(db, front);
      SkillStep(db, SkillsSeeded(db, front), Elements(front), last);
      assert order == front + [last];
      ElementsAppend(front, [last]);
      assert Elements([last]) == {last};
    }
  }

  lemma {:induction false} LinksSettled(db: Db, agent: RowId, names: seq<string>)
    requires forall n :: n in names && n in db.skills ==> (agent, db.skills[n]) in db.links
    ensures WithLinks(db, agent, names) == db
  {
    if names != [] {
      LinksSettled(db, agent, names[..|names| - 1]);
      assert names[|names| - 1] in names;
      assert names[|names| - 1] in db.skills ==> db.links + {(agent, db.skills[names[|names| - 1]])} == db.links;
    }
  }

  lemma {:induction false} AgentsSettled(db: Db, defs: seq<AgentDef>)
    requires FullLoadouts(db, defs)
    ensures AgentsSeeded(db, defs) == db
  {
    if defs != [] {
      AgentsSettled(db, defs[..|defs| - 1]);
      var def := defs[|defs| - 1];
      assert HasLoadout(db, def, db.skills);
      LinksSettled(db, db.agents[def.name], def.skills);
    }
  }

  lemma {:induction false} SkillsSettled(db: Db, order: seq<string>)
    requires Elements(order) <= db.skills.Keys
    ensures SkillsSeeded(db, order) == db
  {
    if order != [] {
      var front := order[..|order| - 1];
      assert Elements(order) == Elements(front) + {order[|order| - 1]};
      SkillsSettled(db, front);
    }
  }

  /** The comment on agent seeding asks for the skills to be there first, but the startup order
      seeds agents first. So one start completes the loadouts exactly when every system skill an
      agent wants already existed before it. */
  lemma FirstStartCompletesExactly(db: Db, defs: seq<AgentDef>, order: seq<string>)
    requires ValidDb(db)
    ensures FullLoadouts(Started(db, defs, order), defs) <==>
              forall k, n :: 0 <= k < |defs| && n in defs[k].skills && n in order ==> n in db.skills
  {
    AgentsSeededExtends(db, defs);
    var mid := AgentsSeeded(db, defs);
    SkillsSeededExtends(mid, order);
    var d := Started(db, defs, order);
    if forall k, n :: 0 <= k < |defs| && n in defs[k].skills && n in order ==> n in db.skills {
      forall k | 0 <= k < |defs|
        ensures HasLoadout(d, defs[k], d.skills)
      {
        assert HasLoadout(mid, defs[k], mid.skills);
      }
    }
    if FullLoadouts(d, defs) {
      forall k, n | 0 <= k < |defs| && n in defs[k].skills && n in order
        ensures n in db.skills
      {
        assert HasLoadout(d, defs[k], d.skills);
        assert n in Elements(order);
        NewSkillIsUnlinked(mid, d, n, d.agents[defs[k].name]);
      }
    }
  }

  /** The very first start of an empty installation leaves an agent without its skill. */
  lemma FirstStartLeavesSkillOut(agent: string, skill: string)
    ensures var defs := [AgentDef(agent, [skill])];
            var d := Started(Db(map[], map[], {}, 0), defs, [skill]);
            agent in d.agents && skill in d.skills && d.links == {} && !FullLoadouts(d, defs)
  {
    var empty := Db(map[], map[], {}, 0);
    var def := AgentDef(agent, [skill]);
    var defs := [def];
    assert defs[..0] == [] && [skill][..0] == [];
    assert AgentsSeeded(empty, []) == empty;
    var seeded := Db(map[agent := 0], map[], {}, 1);
    assert WithDef(empty, def) == seeded by {
      assert WithLinks(seeded, 0, []) == seeded;
    }
    assert AgentsSeeded(empty, defs) == seeded;
    assert SkillsSeeded(seeded, []) == seeded;
    var d := SkillsSeeded(seeded, [skill]);
    assert d == WithSkill(seeded, skill);
    assert !HasLoadout(d, defs[0], d.skills);
  }

  /** No link can point at a skill row that did not exist when the links were written. */
  lemma NewSkillIsUnlinked(mid: Db, d: Db, n: string, agent: RowId)
    requires ValidDb(mid) && n in d.skills && (n !in mid.skills ==> d.skills[n] >= mid.next)
    requires (agent, d.skills[n]) in mid.links
    ensures n in mid.skills
  {
    var m :| m in mid.skills && mid.skills[m] == d.skills[n];
  }

  /** Whatever was there before and in whatever order the skills are iterated, two starts reach
      full loadouts, and every further start changes nothing. */
  lemma TwoStartsReachFixedPoint(db: Db, defs: seq<AgentDef>, o1: seq<string>, o2: seq<string>, o3: seq<string>)
    requires ValidDb(db) && Elements(o1) == Elements(o2) == Elements(o3)
    ensures var d := Started(Started(db, defs, o1), defs, o2);
            FullLoadouts(d, defs) && Started(d, defs, o3) == d
  {
    AgentsSeededExtends(db, defs);
    SkillsSeededExtends(AgentsSeeded(db, defs), o1);
    var d1 := Started(db, defs, o1);
    AgentsSeededExtends(d1, defs);
    SkillsSettled(AgentsSeeded(d1, defs), o2);
    var d2 := Started(d1, defs, o2);
    AgentsSettled(d2, defs);
    SkillsSettled(d2, o3);
  }

  // ---- The services -----------------------------------------------------------

  /** How the database answers one find-or-create, and whether a rival comes in between. */
  datatype DbIo = DbIo(lookupOk: bool, rival: bool, createOk: bool, refetchOk: bool)

  /** The answers of a whole start, by agent and skill index. */
  datatype StartIo = StartIo(agent: nat -> DbIo, findSkill: (nat, nat) -> bool, link: (nat, nat) -> bool, skill: nat -> DbIo)

  ghost predicate NeverFails(io: StartIo) {
    && (forall i: nat :: io.agent(i).lookupOk && io.agent(i).createOk && io.agent(i).refetchOk)
    && (forall i: nat :: io.skill(i).lookupOk && io.skill(i).createOk && io.skill(i).refetchOk)
    && (forall i: nat, j: nat :: io.findSkill(i, j) && io.link(i, j))
  }

  class SeedingService {
    var agents: map<string, RowId>
    var skills: map<string, RowId>
    var links: set<(RowId, RowId)>
    var next: RowId

    function View(): Db
      reads this
    {
      Db(agents, skills, links, next)
    }

    constructor ()
      ensures View() == Db(map[], map[], {}, 0)
    {
      agents, skills, links, next := map[], map[], {}, 0;
    }

    /** Find-or-create. A rival's insert of the same name may come between the lookup and this
        caller's own insert, which then meets the unique index. */
    method GetOrCreateSystemAgent(name: string, io: DbIo) returns (id: Option<RowId>)
      modifies this
      ensures id.Some? ==> View() == WithAgent(old(View()), name) && name in agents && id.value == agents[name]
      ensures id.None? ==> View() == old(View()) || View() == WithAgent(old(View()), name)
      ensures io.lookupOk && io.createOk && io.refetchOk ==> id.Some?
    {
      if !io.lookupOk {
        return None;
      }
      if name in agents {
        return Some(agents[name]);
      }
      if io.rival {
        agents, next := agents[name := next], next + 1;
      }
      if !io.createOk {
        return None;
      }
      if name in agents { // the insert met the unique index: fetch the winner
        return if io.refetchOk then Some(agents[name]) else None;
      }
      id := Some(next);
      agents, next := agents[name := next], next + 1;
    }

    method GetOrCreateSystemSkill(name: string, io: DbIo) returns (id: Option<RowId>)
      modifies this
      ensures id.Some? ==> View() == WithSkill(old(View()), name) && name in skills && id.value == skills[name]
      ensures id.None? ==> View() == old(View()) || View() == WithSkill(old(View()), name)
      ensures io.lookupOk && io.createOk && io.refetchOk ==> id.Some?
    {
      if !io.lookupOk {
        return None;
      }
      if name in skills {
        return Some(skills[name]);
      }
      if io.rival {
        skills, next := skills[name := next], next + 1;
      }
      if !io.createOk {
        return None;
      }
      if name in skills { // the insert met the unique index: fetch the winner
        return if io.refetchOk then Some(skills[name]) else None;
      }
      id := Some(next);
      skills, next := skills[name := next], next + 1;
    }

    /** A link that is already there is left alone. */
    method LoadSkill(agent: RowId, skill: RowId, dbOk: bool) returns (ok: bool)
      modifies this`links
      ensures ok <==> dbOk && agent in agents.Values && skill in skills.Values
      ensures links == if ok then old(links) + {(agent, skill)} else old(links)
    {
      if !dbOk || agent !in agents.Values || skill !in skills.Values {
        return false;
      }
      if (agent, skill) !in links {
        links := links + {(agent, skill)};
      }
      ok := true;
    }

    /** Links one agent to those of its skills that exist; the first error ends the loop. */
    method LoadSkills(agent: RowId, names: seq<string>, findOk: nat -> bool, linkOk: nat -> bool) returns (done: nat)
      requires agent in agents.Values
      modifies this`links
      ensures done <= |names| && View() == WithLinks(old(View()), agent, names[..done])
      ensures (forall j: nat :: findOk(j) && linkOk(j)) ==> done == |names|
    {
      done := 0;
      while done < |names|
        invariant done <= |names| && View() == WithLinks(old(View()), agent, names[..done])
      {
        assert names[..done + 1][..done] == names[..done];
        if !findOk(done) {
          return;
        }
        if names[done] in skills {
          assert skills[names[done]] in skills.Values;
          var ok := LoadSkill(agent, skills[names[done]], linkOk(done));
          if !ok {
            return;
          }
        }
        done := done + 1;
      }
    }

    /** An error ends the seeding; what it has added by then is kept, and nothing else is changed. */
    method InitAgents(defs: seq<AgentDef>, io: StartIo) returns (ok: bool)
      requires ValidDb(View())
      modifies this
      ensures ok ==> View() == AgentsSeeded(old(View()), defs)
      ensures ValidDb(View()) && Extends(old(View()), View()) && skills == old(skills)
      ensures NeverFails(io) ==> ok
    {
      var i := 0;
      AgentsSeededExtends(View(), []);
      while i < |defs|
        invariant i <= |defs| && View() == AgentsSeeded(old(View()), defs[..i])
      {
        ghost var before := View();
        AgentsSeededExtends(old(View()), defs[..i]);
        ok := InitAgent(defs[i], io.agent(i), (j: nat) => io.findSkill(i, j), (j: nat) => io.link(i, j));
        ExtendsTransitive(old(View()), before, View());
        if !ok {
          return;
        }
        assert defs[..i + 1][..i] == defs[..i];
        i := i + 1;
      }
      assert defs[..|defs|] == defs;
      AgentsSeededExtends(old(View()), defs);
      ok := true;
    }

    method InitAgent(def: AgentDef, io: DbIo, findOk: nat -> bool, linkOk: nat -> bool) returns (ok: bool)
      requires ValidDb(View())
      modifies this
      ensures ok ==> View() == WithDef(old(View()), def)
      ensures ValidDb(View()) && Extends(old(View()), View()) && skills == old(skills)
      ensures io.lookupOk && io.createOk && io.refetchOk && (forall j: nat :: findOk(j) && linkOk(j)) ==> ok
    {
      ghost var before := View();
      var agent := GetOrCreateSystemAgent(def.name, io);
      WithDefExtends(before, AgentDef(def.name, []));
      if agent.None? {
        return false;
      }
      assert agents[def.name] in agents.Values;
      var done := LoadSkills(agent.value, def.skills, findOk, linkOk);
      WithDefExtends(before, AgentDef(def.name, def.skills[..done]));
      assert def.skills[..|def.skills|] == def.skills;
      ok := done == |def.skills|;
    }

    method InitSkills(order: seq<string>, io: nat -> DbIo) returns (ok: bool)
      requires ValidDb(View())
      modifies this
      ensures ok ==> View() == SkillsSeeded(old(View()), order)
      ensures ValidDb(View()) && Extends(old(View()), View())
      ensures (forall i: nat :: io(i).lookupOk && io(i).createOk && io(i).refetchOk) ==> ok
    {
      var i := 0;
      while i < |order|
        invariant i <= |order| && View() == SkillsSeeded(old(View()), order[..i])
      {
        assert order[..i + 1][..i] == order[..i];
        ghost var before := View();
        SkillsSeededExtends(old(View()), order[..i]);
        var id := GetOrCreateSystemSkill(order[i], io(i));
        if id.None? {
          WithSkillExtends(before, order[i]);
          ExtendsTransitive(old(View()), before, View());
          return false;
        }
        i := i + 1;
      }
      assert order[..|order|] == order;
      SkillsSeededExtends(old(View()), order);
      ok := true;
    }

    /** An error ends the start, and the server does not come up. What is left is a database from
        which the next starts go on. */
    method Start(defs: seq<AgentDef>, order: seq<string>, io: StartIo) returns (ok: bool)
      requires ValidDb(View())
      modifies this
      ensures ok ==> View() == Started(old(View()), defs, order)
      ensures ValidDb(View()) && Extends(old(View()), View())
      ensures NeverFails(io) ==> ok
    {
      ok := InitAgents(defs, io);
      if !ok {
        return;
      }
      ghost var seeded := View();
      ok := InitSkills(order, io.skill);
      ExtendsTransitive(old(View()), seeded, View());
    }
  }
}
