/** Tools gated behind skills, and what keeps the gates true to the context
    (skill/state.go, skill/tools.go, skill/bind.go). */
module Skill {

  import opened Llm
  import opened Convo

  const LOAD := "load_skill"
  const UNLOAD := "unload_skill"

  /** The id of no call: an activation under it cannot be told from one made
      outside a dispatch. */
  const NO_ID := Id("")

  /** Loaded skills with the call whose result carries each body. */
  type Active = map<string, Id>

  /** One tool call, as far as skills go. */
  datatype Call = Load(id: Id, skill: string) | Unload(skill: string) | Other(tool: string)

  datatype Said = Unknown | Body | Stub | Unloaded | NotActive | Ran | Refused

  // ----- one call -----

  function Answer(skills: set<string>, gates: map<string, string>, active: Active, call: Call): Said {
    match call
    case Load(_, name) => if name !in skills then Unknown else if name in active then Stub else Body
    case Unload(name) => if name !in skills then Unknown else if name in active then Unloaded else NotActive
    case Other(t) => if t in gates && gates[t] !in active then Refused else Ran
  }

  function Next(skills: set<string>, active: Active, call: Call): Active {
    match call
    case Load(id, name) => if name in skills && name !in active then active[name := id] else active
    case Unload(name) => if name in skills then active - {name} else active
    case Other(_) => active
  }

  /** Calls dispatched one after another. */
  function AfterCalls(skills: set<string>, active: Active, calls: seq<Call>): Active {
    if calls == [] then active else Next(skills, AfterCalls(skills, active, Front(calls)), Last(calls))
  }

  // ----- one turn -----

  /** Absence says nothing about an activation under no id. */
  predicate Held(id: Id, present: set<Id>) {
    id == NO_ID || id in present
  }

  /** Retires every skill whose body is known to be gone. */
  function Reconciled(active: Active, present: set<Id>): Active {
    map k | k in active && Held(active[k], present) :: active[k]
  }

  /** The base tools whose gate, if they have one, is open. */
  function Offered(base: seq<string>, gates: map<string, string>, active: Active): seq<string> {
    if base == [] then []
    else if Last(base) in gates && gates[Last(base)] !in active then Offered(Front(base), gates, active)
    else Offered(Front(base), gates, active) + [Last(base)]
  }

  /** The tools of `base` without a gate or with an open one, from the front. */
  function Opened(base: seq<string>, gates: map<string, string>, active: Active): seq<string> {
    if base == [] then []
    else (if base[0] in gates ==> gates[base[0]] in active then [base[0]] else []) + Opened(base[1..], gates, active)
  }

  lemma {:induction false} OpenedSnoc(base: seq<string>, t: string, gates: map<string, string>, active: Active)
    ensures Opened(base + [t], gates, active) ==
            if t in gates ==> gates[t] in active then Opened(base, gates, active) + [t] else Opened(base, gates, active)
  {
    if base == [] {
      assert base + [t] == [t] && [t][1..] == [];
    } else {
      OpenedSnoc(base[1..], t, gates, active);
      assert (base + [t])[0] == base[0] && (base + [t])[1..] == base[1..] + [t];
    }
  }

  lemma {:induction false} OfferedIsOpened(base: seq<string>, gates: map<string, string>, active: Active)
    ensures Offered(base, gates, active) == Opened(base, gates, active)
  {
    if base != [] {
      OfferedIsOpened(Front(base), gates, active);
      assert base == Front(base) + [Last(base)];
      OpenedSnoc(Front(base), Last(base), gates, active);
    }
  }

  /** The observations in a request, then the calls its reply makes. */
  datatype Round = Round(present: set<Id>, calls: seq<Call>)

  function AfterRounds(skills: set<string>, rounds: seq<Round>): Active {
    if rounds == [] then map[]
    else AfterCalls(skills, Reconciled(AfterRounds(skills, Front(rounds)), Last(rounds).present), Last(rounds).calls)
  }

  // ----- the code -----

  class State {
    var active: Active

    constructor ()
      ensures active == map[]
    {
      active := map[];
    }

    method Activate(name: string, body: Id)
      modifies this
      ensures active == old(active)[name := body]
    {
      active := active[name := body];
    }

    method Deactivate(name: string)
      modifies this
      ensures active == old(active) - {name}
    {
      active := active - {name};
    }

    predicate IsActive(name: string)
      reads this
    {
      name in active
    }

    method Reconcile(present: set<Id>)
      modifies this
      ensures active == Reconciled(old(active), present)
      ensures forall k :: k in active <==> k in old(active) && (old(active)[k] == Id("") || old(active)[k] in present)
      ensures forall k :: k in active ==> active[k] == old(active)[k]
    {
      var names := active.Keys;
      while names != {}
        invariant names <= active.Keys <= old(active).Keys
        invariant forall k :: k in active ==> active[k] == old(active)[k]
        invariant forall k :: k in old(active) && k !in names ==>
                    (k in active <==> Held(old(active)[k], present))
        decreases |names|
      {
        var name :| name in names;
        names := names - {name};
        var body := active[name];
        if body != NO_ID && body !in present {
          Deactivate(name);
        }
      }
    }

    /** `load_skill`: the body once, then a stub for as long as it is active. */
    method LoadSkill(skills: set<string>, id: Id, name: string) returns (said: Said)
      modifies this
      ensures said == Answer(skills, map[], old(active), Load(id, name))
      ensures active == Next(skills, old(active), Load(id, name))
      ensures said == if name !in skills then Unknown else if name in old(active) then Stub else Body
      ensures active == if said == Body then old(active)[name := id] else old(active)
    {
      if name !in skills {
        return Unknown;
      }
      if IsActive(name) {
        return Stub;
      }
      Activate(name, id);
      return Body;
    }

    method UnloadSkill(skills: set<string>, name: string) returns (said: Said)
      modifies this
      ensures said == Answer(skills, map[], old(active), Unload(name))
      ensures active == Next(skills, old(active), Unload(name))
      ensures said == if name !in skills then Unknown else if name in old(active) then Unloaded else NotActive
      ensures active == if said == Unloaded then old(active) - {name} else old(active)
    {
      if name !in skills {
        return Unknown;
      }
      if !IsActive(name) {
        return NotActive;
      }
      Deactivate(name);
      return Unloaded;
    }

    /** The ungated and the opened tools in the order they came in; loading and
        unloading are always possible. */
    method Visible(base: seq<string>, gates: map<string, string>) returns (out: seq<string>)
      ensures out == Offered(base, gates, active) + [LOAD, UNLOAD]
      ensures out == Opened(base, gates, active) + ["load_skill", "unload_skill"]
    {
      out := [];
      for i := 0 to |base|
        invariant out == Offered(base[..i], gates, active)
      {
        assert Front(base[..i + 1]) == base[..i];
        if !(base[i] in gates && !IsActive(gates[base[i]])) {
          out := out + [base[i]];
        }
      }
      assert base[..|base|] == base;
      OfferedIsOpened(base, gates, active);
      out := out + [LOAD, UNLOAD];
    }

    /** Enforcement at the call itself: a closed gate answers with a refusal,
        and the two meta tools have no gate. */
    method Run(gates: map<string, string>, tool: string) returns (said: Said)
      ensures tool == LOAD || tool == UNLOAD ==> said == Ran
      ensures tool != LOAD && tool != UNLOAD ==> said == Answer({}, gates, active, Other(tool))
      ensures said == Ran || said == Refused
      ensures said == Refused <==>
              tool != "load_skill" && tool != "unload_skill" && tool in gates && gates[tool] !in active
    {
      if tool == LOAD || tool == UNLOAD {
        return Ran;
      }
      if tool in gates && !IsActive(gates[tool]) {
        return Refused;
      }
      return Ran;
    }
  }

  /** The ids of all results that `msgs` contains. */
  method ObservationsIn(msgs: Transcript) returns (present: set<Id>)
    ensures SetOf(present, Answers(Blocks(msgs)))
  {
    present := {};
    for i := 0 to |msgs|
      invariant SetOf(present, Answers(Blocks(msgs[..i])))
    {
      var content := msgs[i].content;
      ghost var before := present;
      for j := 0 to |content|
        invariant SetOf(present, Answers(Blocks(msgs[..i])) + Answers(content[..j]))
      {
        ScanStep(content, j);
        if content[j].ToolResult? {
          present := present + {content[j].useId};
        }
      }
      assert content[..|content|] == content;
      BlocksStep(msgs, i);
      AsksAppend(Blocks(msgs[..i]), content);
    }
    assert msgs[..|msgs|] == msgs;
  }

  // ----- laws -----

  /** Call `j` of round `i` is the one that brought in the body of a skill. */
  ghost predicate LoadedAt(skills: set<string>, rounds: seq<Round>, i: nat, j: nat, name: string, id: Id) {
    && i < |rounds| && j < |rounds[i].calls|
    && rounds[i].calls[j] == Load(id, name)
    && Answer(skills, map[],
              AfterCalls(skills, Reconciled(AfterRounds(skills, rounds[..i]), rounds[i].present), rounds[i].calls[..j]),
              rounds[i].calls[j]) == Body
  }

  ghost predicate Loaded(skills: set<string>, rounds: seq<Round>, name: string, id: Id) {
    exists i: nat, j: nat :: LoadedAt(skills, rounds, i, j, name, id)
  }

  lemma LoadedLater(skills: set<string>, rounds: seq<Round>, name: string, id: Id)
    requires rounds != [] && Loaded(skills, Front(rounds), name, id)
    ensures Loaded(skills, rounds, name, id)
  {
    var i: nat, j: nat :| LoadedAt(skills, Front(rounds), i, j, name, id);
    assert rounds[..i] == Front(rounds)[..i];
    assert LoadedAt(skills, rounds, i, j, name, id);
  }

  /** What is active after some calls was active before them or loaded by one. */
  lemma {:induction false} ActiveByLoad(skills: set<string>, active: Active, calls: seq<Call>, name: string)
    requires name in AfterCalls(skills, active, calls)
    ensures || (name in active && AfterCalls(skills, active, calls)[name] == active[name])
            || exists j: nat :: j < |calls| && calls[j].Load? && calls[j].skill == name
                 && AfterCalls(skills, active, calls)[name] == calls[j].id
                 && Answer(skills, map[], AfterCalls(skills, active, calls[..j]), calls[j]) == Body
  {
    if calls != [] {
      var before, call := AfterCalls(skills, active, Front(calls)), Last(calls);
      if call.Load? && call.skill == name && name !in before {
        assert calls[..|calls| - 1] == Front(calls) && calls[|calls| - 1] == call;
      } else {
        ActiveByLoad(skills, active, Front(calls), name);
        if !(name in active && before[name] == active[name]) {
          var j: nat :| j < |calls| - 1 && Front(calls)[j].Load? && Front(calls)[j].skill == name
                        && before[name] == Front(calls)[j].id
                        && Answer(skills, map[], AfterCalls(skills, active, Front(calls)[..j]), Front(calls)[j]) == Body;
          assert calls[..j] == Front(calls)[..j] && calls[j] == Front(calls)[j];
        }
      }
    }
  }

  /** Every activation rests on a load that answered with the body. */
  lemma {:induction false} ActivationsAreLoads(skills: set<string>, rounds: seq<Round>, name: string)
    requires name in AfterRounds(skills, rounds)
    ensures Loaded(skills, rounds, name, AfterRounds(skills, rounds)[name])
  {
    var was := AfterRounds(skills, Front(rounds));
    var start := Reconciled(was, Last(rounds).present);
    var calls := Last(rounds).calls;
    ActiveByLoad(skills, start, calls, name);
    if name in start && AfterCalls(skills, start, calls)[name] == start[name] {
      ActivationsAreLoads(skills, Front(rounds), name);
      LoadedLater(skills, rounds, name, was[name]);
    } else {
      var j: nat :| j < |calls| && calls[j].Load? && calls[j].skill == name
                    && AfterCalls(skills, start, calls)[name] == calls[j].id
                    && Answer(skills, map[], AfterCalls(skills, start, calls[..j]), calls[j]) == Body;
      assert rounds[..|rounds| - 1] == Front(rounds);
      assert LoadedAt(skills, rounds, |rounds| - 1, j, name, calls[j].id);
    }
  }

  lemma {:induction false} OfferedExact(base: seq<string>, gates: map<string, string>, active: Active, t: string)
    ensures t in Offered(base, gates, active) <==> t in base && (t in gates ==> gates[t] in active)
  {
    if base != [] {
      OfferedExact(Front(base), gates, active, t);
      assert t in base <==> t in Front(base) || t == Last(base);
    }
  }

  /** Surface follows context: after any rounds, a gated tool is offered with a
      request if and only if its skill is active and the call that loaded it
      still has its result in that request, or has no id to look for; and every
      other tool of the base is offered. */
  lemma SurfaceFollowsContext(
      skills: set<string>, gates: map<string, string>, base: seq<string>, rounds: seq<Round>, present: set<Id>, t: string)
    requires t in base
    ensures var active := Reconciled(AfterRounds(skills, rounds), present);
            t in Offered(base, gates, active) <==>
              (t in gates ==> exists id :: Held(id, present) && Loaded(skills, rounds, gates[t], id)
                                        && gates[t] in AfterRounds(skills, rounds)
                                        && AfterRounds(skills, rounds)[gates[t]] == id)
  {
    var was := AfterRounds(skills, rounds);
    OfferedExact(base, gates, Reconciled(was, present), t);
    if t in gates && gates[t] in was {
      ActivationsAreLoads(skills, rounds, gates[t]);
    }
  }

  /** A stub means the skill was active before the batch or an earlier call of
      the batch brought its body in. */
  lemma StubComesFrom(skills: set<string>, start: Active, calls: seq<Call>, j: nat)
    requires j < |calls| && calls[j].Load?
    requires Answer(skills, map[], AfterCalls(skills, start, calls[..j]), calls[j]) == Stub
    ensures || calls[j].skill in start
            || (exists i: nat :: i < j && calls[i].Load? && calls[i].skill == calls[j].skill
                  && Answer(skills, map[], AfterCalls(skills, start, calls[..i]), calls[i]) == Body)
  {
    var name := calls[j].skill;
    ActiveByLoad(skills, start, calls[..j], name);
    if name !in start {
      var i: nat :| i < j && calls[..j][i].Load? && calls[..j][i].skill == name
                    && Answer(skills, map[], AfterCalls(skills, start, calls[..j][..i]), calls[..j][i]) == Body;
      assert calls[i] == calls[..j][i] && calls[..j][..i] == calls[..i];
    }
  }

  /** What a stub points at: a load that has its result in the request the model
      answered or has no id, or an earlier call of the same reply. */
  lemma StubIsTruthful(skills: set<string>, rounds: seq<Round>, present: set<Id>, calls: seq<Call>, j: nat)
    requires j < |calls| && calls[j].Load?
    requires var start := Reconciled(AfterRounds(skills, rounds), present);
             Answer(skills, map[], AfterCalls(skills, start, calls[..j]), calls[j]) == Stub
    ensures || (exists id :: Held(id, present) && Loaded(skills, rounds, calls[j].skill, id))
            || (exists i: nat :: i < j && calls[i].Load? && calls[i].skill == calls[j].skill
                  && Answer(skills, map[], AfterCalls(skills, Reconciled(AfterRounds(skills, rounds), present), calls[..i]),
                            calls[i]) == Body)
  {
    var start := Reconciled(AfterRounds(skills, rounds), present);
    StubComesFrom(skills, start, calls, j);
    if calls[j].skill in start {
      ActivationsAreLoads(skills, rounds, calls[j].skill);
    }
  }
}
