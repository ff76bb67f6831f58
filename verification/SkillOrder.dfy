/** Loads and unloads of one reply on parallel workers: looking whether a skill is
    active and changing that are two steps of a handler (skill/tools.go), which
    those of other calls may come between. */
module SkillOrder {
  import opened Llm
  import opened Convo
  import opened Run
  import opened RunLaws
  import opened SkillRun
  import S = Skill

  /** The two critical sections of the handler of call `call`. */
  datatype Step = Look(call: nat) | Act(call: nat)

  /** The activations, and what each call that looked saw of its skill. */
  datatype Work = Work(active: S.Active, saw: map<nat, bool>)

  function Do(skills: set<string>, calls: seq<S.Call>, w: Work, step: Step): Work {
    if step.call >= |calls| then w
    else
      var j, call := step.call, calls[step.call];
      if call.Other? || call.skill !in skills then w
      else if step.Look? then w.(saw := w.saw[j := call.skill in w.active])
      else if j !in w.saw then w
      else if call.Load? then (if w.saw[j] then w else w.(active := w.active[call.skill := call.id]))
      else if w.saw[j] then w.(active := w.active - {call.skill})
      else w
  }

  function Worked(skills: set<string>, calls: seq<S.Call>, start: S.Active, steps: seq<Step>): Work {
    if steps == [] then Work(start, map[])
    else Do(skills, calls, Worked(skills, calls, start, Front(steps)), Last(steps))
  }

  /** Step `p` activates a skill for load `j`, which goes on to answer with the
      body. */
  predicate Activates(skills: set<string>, calls: seq<S.Call>, start: S.Active, steps: seq<Step>, j: nat, p: nat) {
    && j < |calls| && calls[j].Load? && calls[j].skill in skills
    && p < |steps| && steps[p] == Act(j)
    && var saw := Worked(skills, calls, start, steps[..p]).saw;
       j in saw && !saw[j]
  }

  /** What is active after the batch was active before it or is the work of a load
      in it, in whatever order the steps came. */
  lemma {:induction false} ActiveByWork(skills: set<string>, calls: seq<S.Call>, start: S.Active, steps: seq<Step>, name: string)
    requires name in Worked(skills, calls, start, steps).active
    ensures var active := Worked(skills, calls, start, steps).active;
            || (name in start && active[name] == start[name])
            || exists j: nat, p: nat :: Activates(skills, calls, start, steps, j, p)
                 && calls[j].skill == name && active[name] == calls[j].id
  {
    if steps != [] {
      var before := Worked(skills, calls, start, Front(steps));
      var active := Worked(skills, calls, start, steps).active;
      var q := |steps| - 1;
      assert steps[..q] == Front(steps);
      if name in before.active && active[name] == before.active[name] {
        ActiveByWork(skills, calls, start, Front(steps), name);
        if !(name in start && active[name] == start[name]) {
          var j: nat, p: nat :| Activates(skills, calls, start, Front(steps), j, p)
                                && calls[j].skill == name && active[name] == calls[j].id;
          assert Front(steps)[..p] == steps[..p];
          assert Activates(skills, calls, start, steps, j, p);
        }
      } else {
        assert Activates(skills, calls, start, steps, Last(steps).call, q);
      }
    }
  }

  /** Two loads of one skill that both look before either acts: both go on to
      answer with the body, and the later one is what the activation rests on. */
  lemma RacingLoads(skills: set<string>, name: string, a: Id, b: Id)
    requires name in skills
    ensures var calls, steps := [S.Load(a, name), S.Load(b, name)], [Look(0), Look(1), Act(0), Act(1)];
            && Activates(skills, calls, map[], steps, 0, 2) && Activates(skills, calls, map[], steps, 1, 3)
            && Worked(skills, calls, map[], steps).active == map[name := b]
  {
    var calls, steps := [S.Load(a, name), S.Load(b, name)], [Look(0), Look(1), Act(0), Act(1)];
    var none: S.Active := map[];
    assert steps[..0] == [] && Front(steps[..1]) == steps[..0] && Front(steps[..2]) == steps[..1];
    assert Front(steps[..3]) == steps[..2] && Front(steps) == steps[..3];
    assert Worked(skills, calls, none, steps[..1]) == Work(none, map[0 := false]);
    assert Worked(skills, calls, none, steps[..2]) == Work(none, map[0 := false, 1 := false]);
    assert Worked(skills, calls, none, steps[..3]) == Work(none[name := a], map[0 := false, 1 := false]);
  }

  // ----- over a run -----

  /** The order of the workers' steps in each iteration. */
  type Schedule = nat -> seq<Step>

  /** What `v` starts its batch with, after the iterations `before`. */
  function StartAny(cfg: Config, g: Gating, before: seq<Visit>, sched: Schedule, v: Visit): S.Active
    decreases |before|, 1
  {
    S.Reconciled(ActiveAny(cfg, g, before, sched), Present(Trimmed(cfg, v)))
  }

  function ActiveAny(cfg: Config, g: Gating, visits: seq<Visit>, sched: Schedule): S.Active
    decreases |visits|, 0
  {
    if visits == [] then map[]
    else
      var v := Last(visits);
      Worked(g.skills.Keys, CallsOf(cfg, g, v), StartAny(cfg, g, Front(visits), sched, v), sched(|visits| - 1)).active
  }

  function OfferedAny(cfg: Config, g: Gating, visits: seq<Visit>, sched: Schedule, i: nat): seq<string>
    requires i < |visits|
  {
    S.Offered(g.base, g.gates, StartAny(cfg, g, visits[..i], sched, visits[i]))
  }

  /** Call `j` of iteration `n` is a load of `name` that activates it. */
  ghost predicate LoadsAny(cfg: Config, g: Gating, visits: seq<Visit>, sched: Schedule, n: nat, j: nat, name: string) {
    && n < |visits| && j < |DispatchedBy(cfg, visits[n])|
    && CallsOf(cfg, g, visits[n])[j] == S.Load(DispatchedBy(cfg, visits[n])[j].id, name)
    && exists p: nat :: Activates(g.skills.Keys, CallsOf(cfg, g, visits[n]),
                                  StartAny(cfg, g, visits[..n], sched, visits[n]), sched(n), j, p)
  }

  ghost predicate BroughtAny(cfg: Config, g: Gating, visits: seq<Visit>, sched: Schedule, name: string, n: nat, j: nat) {
    && LoadsAny(cfg, g, visits, sched, n, j, name)
    && name in ActiveAny(cfg, g, visits, sched)
    && ActiveAny(cfg, g, visits, sched)[name] == DispatchedBy(cfg, visits[n])[j].id
  }

  lemma LoadsLater(cfg: Config, g: Gating, visits: seq<Visit>, sched: Schedule, n: nat, j: nat, name: string)
    requires visits != [] && LoadsAny(cfg, g, Front(visits), sched, n, j, name)
    ensures LoadsAny(cfg, g, visits, sched, n, j, name)
  {
    assert Front(visits)[..n] == visits[..n] && Front(visits)[n] == visits[n];
  }

  /** What an activation rests on is a dispatched load that reached its handler. */
  lemma {:induction false} AnyIsBrought(cfg: Config, g: Gating, visits: seq<Visit>, sched: Schedule, name: string)
      returns (n: nat, j: nat)
    requires name in ActiveAny(cfg, g, visits, sched)
    ensures BroughtAny(cfg, g, visits, sched, name, n, j)
  {
    var v := Last(visits);
    var calls, start := CallsOf(cfg, g, v), StartAny(cfg, g, Front(visits), sched, v);
    var steps := sched(|visits| - 1);
    ActiveByWork(g.skills.Keys, calls, start, steps, name);
    if name in start && ActiveAny(cfg, g, visits, sched)[name] == start[name] {
      n, j := AnyIsBrought(cfg, g, Front(visits), sched, name);
      LoadsLater(cfg, g, visits, sched, n, j, name);
    } else {
      var p: nat;
      n := |visits| - 1;
      j, p :| Activates(g.skills.Keys, calls, start, steps, j, p)
              && calls[j].skill == name && ActiveAny(cfg, g, visits, sched)[name] == calls[j].id;
      LoadIsDispatched(cfg, g, v, j, name, calls[j].id);
      assert visits[..n] == Front(visits);
    }
  }

  lemma AnyIsBacked(cfg: Config, g: Gating, env: nat -> Turn, input: Transcript, sched: Schedule, i: nat, name: string)
      returns (n: nat, j: nat)
    requires Valid(input) && Faithful(cfg, env, Initial(input), 1) && i < |VisitsOf(cfg, env, input)|
    requires var visits := VisitsOf(cfg, env, input); name in StartAny(cfg, g, visits[..i], sched, visits[i])
    ensures var visits := VisitsOf(cfg, env, input);
            n < i && BroughtAny(cfg, g, visits[..i], sched, name, n, j) && Backed(cfg, visits, i, n, j)
  {
    var visits := VisitsOf(cfg, env, input);
    n, j := AnyIsBrought(cfg, g, visits[..i], sched, name);
    if DispatchedBy(cfg, visits[n])[j].id != S.NO_ID {
      PresentResult(cfg, env, input, i, n, j);
    }
  }

  lemma BackedAny(cfg: Config, g: Gating, visits: seq<Visit>, sched: Schedule, i: nat, name: string, n: nat, j: nat)
    requires n < i < |visits| && BroughtAny(cfg, g, visits[..i], sched, name, n, j) && Backed(cfg, visits, i, n, j)
    ensures name in StartAny(cfg, g, visits[..i], sched, visits[i])
  {
    if DispatchedBy(cfg, visits[n])[j].id != S.NO_ID {
      PresentIs(Trimmed(cfg, visits[i]), ResultAt(cfg, visits[n], j).useId);
    }
  }

  /** Surface follows context however parallel workers interleave: in every
      iteration of every run a gated tool is offered if and only if a load that
      reached its handler earlier in the run activated its skill, and the result
      of that very load is in what the strategy made of the transcript or has no
      id; every other tool of the base is offered. */
  lemma SurfaceAnyOrder(cfg: Config, g: Gating, env: nat -> Turn, input: Transcript, sched: Schedule, i: nat, t: string)
    requires Valid(input) && Faithful(cfg, env, Initial(input), 1)
    requires i < |VisitsOf(cfg, env, input)| && t in g.base
    ensures var visits := VisitsOf(cfg, env, input);
            t in OfferedAny(cfg, g, visits, sched, i) <==>
              (t in g.gates ==> exists n: nat, j: nat :: n < i && BroughtAny(cfg, g, visits[..i], sched, g.gates[t], n, j)
                                  && Backed(cfg, visits, i, n, j))
  {
    var visits := VisitsOf(cfg, env, input);
    S.OfferedExact(g.base, g.gates, StartAny(cfg, g, visits[..i], sched, visits[i]), t);
    if t in g.gates {
      var name := g.gates[t];
      if name in StartAny(cfg, g, visits[..i], sched, visits[i]) {
        var n, j := AnyIsBacked(cfg, g, env, input, sched, i, name);
      }
      forall n: nat, j: nat | n < i && BroughtAny(cfg, g, visits[..i], sched, name, n, j) && Backed(cfg, visits, i, n, j)
        ensures name in StartAny(cfg, g, visits[..i], sched, visits[i])
      {
        BackedAny(cfg, g, visits, sched, i, name, n, j);
      }
    }
  }

  // ----- one call after another -----

  function InOrder(n: nat): seq<Step> {
    if n == 0 then [] else InOrder(n - 1) + [Look(n - 1)] + [Act(n - 1)]
  }

  lemma BothSteps(skills: set<string>, calls: seq<S.Call>, w: Work, j: nat)
    requires j < |calls|
    ensures Do(skills, calls, Do(skills, calls, w, Look(j)), Act(j)).active == S.Next(skills, w.active, calls[j])
  {
  }

  /** Calls one after another do what the sequential machine does. */
  lemma {:induction false} InOrderIsAfterCalls(skills: set<string>, calls: seq<S.Call>, start: S.Active, n: nat)
    requires n <= |calls|
    ensures Worked(skills, calls, start, InOrder(n)).active == S.AfterCalls(skills, start, calls[..n])
  {
    if n > 0 {
      InOrderIsAfterCalls(skills, calls, start, n - 1);
      var before := Worked(skills, calls, start, InOrder(n - 1));
      var looked := InOrder(n - 1) + [Look(n - 1)];
      BothSteps(skills, calls, before, n - 1);
      assert Front(InOrder(n)) == looked && Front(looked) == InOrder(n - 1);
      assert Front(calls[..n]) == calls[..n - 1] && Last(calls[..n]) == calls[n - 1];
    }
  }

  /** The default dispatcher is one such order, so the sequential law is an
      instance. */
  lemma {:induction false} DefaultOrder(cfg: Config, g: Gating, visits: seq<Visit>, sched: Schedule)
    requires forall i :: 0 <= i < |visits| ==> sched(i) == InOrder(|CallsOf(cfg, g, visits[i])|)
    ensures ActiveAny(cfg, g, visits, sched) == ActiveAt(cfg, g, visits, |visits|)
  {
    assert visits[..|visits|] == visits;
    if visits != [] {
      var n := |visits| - 1;
      DefaultOrder(cfg, g, Front(visits), sched);
      var calls := CallsOf(cfg, g, Last(visits));
      InOrderIsAfterCalls(g.skills.Keys, calls, StartAny(cfg, g, Front(visits), sched, Last(visits)), |calls|);
      assert calls[..|calls|] == calls;
      assert Front(visits)[..n] == Front(visits);
      assert Front(RoundsOf(cfg, g, visits)) == RoundsOf(cfg, g, Front(visits));
    }
  }
}
