/** Run-level budgets shared by a parent and its sub-agents
    (governor/governor.go), and the step check of the loop (run.go). Every
    method holds the budget's lock, so each is one atomic step. */
module Governor {
  import opened Llm

  /** A field that is not positive means no limit. */
  datatype Limits = Limits(costUSD: real, steps: int, toolCalls: int, subagentDepth: int, repeatedToolCalls: int)

  datatype Reason = BudgetExhausted | StepLimit | WallClock | ToolCallLimit | ToolLoop | Abandoned

  /** The identity of a tool call; `None` stands for the empty string, which
      opts out of loop detection. */
  type Key = Option<string>

  /** What reaches a budget, from any goroutine: spend, an iteration, a tool
      call, and a cancellation from outside it. */
  datatype Action = Spent(usd: real) | Stepped | Called(key: Key) | Ended(reason: Reason)

  // ----- what a log adds up to -----

  function Spend(log: seq<Action>): real {
    if log == [] then 0.0 else Spend(Front(log)) + (if Last(log).Spent? then Last(log).usd else 0.0)
  }

  function Calls(log: seq<Action>): nat {
    if log == [] then 0 else Calls(Front(log)) + (if Last(log).Spent? then 1 else 0)
  }

  function Steps(log: seq<Action>): nat {
    if log == [] then 0 else Steps(Front(log)) + (if Last(log).Stepped? then 1 else 0)
  }

  /** The keys of all tool calls, in order. */
  function Keys(log: seq<Action>): seq<Key> {
    if log == [] then []
    else if Last(log).Called? then Keys(Front(log)) + [Last(log).key]
    else Keys(Front(log))
  }

  /** How many calls in a row carried the last key; none if that opts out. */
  function RunOf(keys: seq<Key>): nat {
    if keys == [] || Last(keys) == None then 0
    else if |keys| > 1 && keys[|keys| - 2] == Last(keys) then RunOf(Front(keys)) + 1
    else 1
  }

  /** The limit the last action of `log` breaches. */
  function Breach(l: Limits, log: seq<Action>): Option<Reason>
    requires log != []
  {
    match Last(log)
    case Spent(_) => if l.costUSD > 0.0 && Spend(log) >= l.costUSD then Some(BudgetExhausted) else None
    case Stepped => if l.steps > 0 && Steps(log) >= l.steps then Some(StepLimit) else None
    case Called(_) =>
      if l.toolCalls > 0 && |Keys(log)| >= l.toolCalls then Some(ToolCallLimit)
      else if l.repeatedToolCalls > 0 && RunOf(Keys(log)) >= l.repeatedToolCalls then Some(ToolLoop)
      else None
    case Ended(reason) => Some(reason)
  }

  /** Why the run is cancelled: the first breach in the log. */
  function Cause(l: Limits, log: seq<Action>): Option<Reason> {
    if log == [] then None
    else if Cause(l, Front(log)).Some? then Cause(l, Front(log))
    else Breach(l, log)
  }

  // ----- the budget -----

  lemma RunStep(keys: seq<Key>, key: Key)
    ensures RunOf(keys + [key]) ==
              if key == None then 0
              else if keys != [] && Last(keys) == key then RunOf(keys) + 1
              else 1
  {
    assert Front(keys + [key]) == keys;
  }

  /** The loop of one agent records a step and then looks at the context; in
      between, anything may reach the shared budget. */
  datatype Move = Step(agent: nat) | Look(agent: nat) | Other(action: Action)

  class Budget {
    const limits: Limits
    var usd: real
    var calls: nat
    var steps: nat
    var toolCalls: nat
    var depth: nat
    var lastCall: Key
    var repeatRun: nat
    /** The cause of the cancelled context. */
    var cause: Option<Reason>
    ghost var log: seq<Action>

    ghost predicate Valid()
      reads this
    {
      && usd == Spend(log) && calls == Calls(log) && steps == Steps(log) && toolCalls == |Keys(log)|
      && repeatRun == RunOf(Keys(log))
      && lastCall == (if Keys(log) == [] then None else Last(Keys(log)))
      && cause == Cause(limits, log)
      && (limits.subagentDepth > 0 ==> depth <= limits.subagentDepth)
    }

    constructor (l: Limits)
      ensures Valid() && limits == l && log == [] && depth == 0
    {
      limits := l;
      usd, calls, steps, toolCalls, depth := 0.0, 0, 0, 0, 0;
      lastCall, repeatRun, cause, log := None, 0, None, [];
    }

    /** Cancels the run; only the first reason sticks. */
    method Abort(reason: Reason)
      modifies this`cause
      ensures cause == if old(cause) == None then Some(reason) else old(cause)
    {
      if cause == None {
        cause := Some(reason);
      }
    }

    method AddCall(cost: real)
      requires Valid()
      modifies this
      ensures Valid() && log == old(log) + [Spent(cost)] && depth == old(depth)
    {
      usd, calls := usd + cost, calls + 1;
      log := log + [Spent(cost)];
      assert Front(log) == old(log);
      if limits.costUSD > 0.0 && usd >= limits.costUSD {
        Abort(BudgetExhausted);
      }
    }

    method Step()
      requires Valid()
      modifies this
      ensures Valid() && log == old(log) + [Stepped] && depth == old(depth)
    {
      steps := steps + 1;
      log := log + [Stepped];
      assert Front(log) == old(log);
      if limits.steps > 0 && steps >= limits.steps {
        Abort(StepLimit);
      }
    }

    /** Extends the run of identical calls, or starts a new one. */
    method CountRun(key: Key, ghost keys: seq<Key>)
      requires repeatRun == RunOf(keys) && lastCall == if keys == [] then None else Last(keys)
      modifies this`lastCall, this`repeatRun
      ensures repeatRun == RunOf(keys + [key]) && lastCall == key
    {
      RunStep(keys, key);
      if key == None {
        lastCall, repeatRun := None, 0;
      } else if key == lastCall {
        repeatRun := repeatRun + 1;
      } else {
        lastCall, repeatRun := key, 1;
      }
    }

    method AddToolCall(key: Key)
      requires Valid()
      modifies this
      ensures Valid() && log == old(log) + [Called(key)] && depth == old(depth)
    {
      toolCalls := toolCalls + 1;
      log := log + [Called(key)];
      assert Front(log) == old(log);
      if limits.toolCalls > 0 && toolCalls >= limits.toolCalls {
        Abort(ToolCallLimit);
      }
      CountRun(key, Keys(old(log)));
      if key != None && limits.repeatedToolCalls > 0 && repeatRun >= limits.repeatedToolCalls {
        Abort(ToolLoop);
      }
    }

    /** The deadline, or the parent's own cancellation. */
    method End(reason: Reason)
      requires Valid()
      modifies this
      ensures Valid() && log == old(log) + [Ended(reason)] && depth == old(depth)
    {
      log := log + [Ended(reason)];
      assert Front(log) == old(log);
      Abort(reason);
    }

    /** Nests one level deeper, or refuses at the cap and changes nothing. */
    method EnterSubagent() returns (ok: bool)
      requires Valid()
      modifies this`depth
      ensures Valid() && ok == (limits.subagentDepth <= 0 || old(depth) < limits.subagentDepth)
      ensures depth == old(depth) + (if ok then 1 else 0)
    {
      if limits.subagentDepth > 0 && depth >= limits.subagentDepth {
        return false;
      }
      depth := depth + 1;
      return true;
    }

    method ExitSubagent()
      requires Valid()
      modifies this`depth
      ensures Valid() && depth == if old(depth) > 0 then old(depth) - 1 else 0
    {
      if depth > 0 {
        depth := depth - 1;
      }
    }
  }

  // ----- laws -----

  /** `n` calls in a row, no more: the last `n` keys are the last key, and the
      one before them is not. */
  predicate LongestRun(keys: seq<Key>, n: nat) {
    && n <= |keys|
    && (forall i :: |keys| - n <= i < |keys| ==> keys[i] == Last(keys) != None)
    && (n < |keys| ==> Last(keys) == None || keys[|keys| - n - 1] != Last(keys))
  }

  lemma {:induction false} RunIsLongest(keys: seq<Key>)
    ensures LongestRun(keys, RunOf(keys))
  {
    if keys != [] && Last(keys) != None && |keys| > 1 && keys[|keys| - 2] == Last(keys) {
      RunIsLongest(Front(keys));
    }
  }

  /** While the run is not cancelled, every tally is below its limit. */
  lemma {:induction false} UnderLimits(l: Limits, log: seq<Action>)
    requires Cause(l, log) == None
    ensures l.costUSD > 0.0 ==> Spend(log) < l.costUSD
    ensures l.steps > 0 ==> Steps(log) < l.steps
    ensures l.toolCalls > 0 ==> |Keys(log)| < l.toolCalls
    ensures l.repeatedToolCalls > 0 ==> RunOf(Keys(log)) < l.repeatedToolCalls
  {
    if log != [] {
      UnderLimits(l, Front(log));
    }
  }

  /** The last action of `log` is a reason to cancel, and this is it. */
  ghost predicate Breaches(l: Limits, log: seq<Action>, r: Reason) {
    log != [] &&
    (|| Last(log) == Ended(r)
     || match r
        case BudgetExhausted => Last(log).Spent? && 0.0 < l.costUSD <= Spend(log)
        case StepLimit => Last(log).Stepped? && 0 < l.steps <= Steps(log)
        case ToolCallLimit => Last(log).Called? && 0 < l.toolCalls <= |Keys(log)|
        case ToolLoop =>
          && Last(log).Called? && !(0 < l.toolCalls <= |Keys(log)|)
          && exists n: nat :: LongestRun(Keys(log), n) && 0 < l.repeatedToolCalls <= n
        case _ => false)
  }

  ghost predicate BreachAt(l: Limits, log: seq<Action>, i: nat, r: Reason) {
    i < |log| && Breaches(l, log[..i + 1], r)
  }

  /** Action `i` is the first that is a reason to cancel. */
  ghost predicate FirstBreach(l: Limits, log: seq<Action>, i: nat, r: Reason) {
    BreachAt(l, log, i, r) && forall j: nat, q :: j < i ==> !BreachAt(l, log, j, q)
  }

  lemma RunUnique(keys: seq<Key>, m: nat, n: nat)
    requires LongestRun(keys, m) && LongestRun(keys, n)
    ensures m >= n
  {
  }

  lemma BreachExact(l: Limits, log: seq<Action>, r: Reason)
    requires log != []
    ensures Breach(l, log) == Some(r) <==> Breaches(l, log, r)
  {
    var run := RunOf(Keys(log));
    RunIsLongest(Keys(log));
    forall n: nat | LongestRun(Keys(log), n)
      ensures n == run
    {
      RunUnique(Keys(log), n, run);
      RunUnique(Keys(log), run, n);
    }
  }

  lemma BreachFront(l: Limits, log: seq<Action>, i: nat, r: Reason)
    requires log != []
    ensures BreachAt(l, log, i, r) <==>
            if i < |log| - 1 then BreachAt(l, Front(log), i, r) else i == |log| - 1 && Breach(l, log) == Some(r)
  {
    if i < |log| - 1 {
      assert Front(log)[..i + 1] == log[..i + 1];
    } else if i == |log| - 1 {
      assert log[..i + 1] == log;
      BreachExact(l, log, r);
    }
  }

  lemma {:induction false} CauseMeans(l: Limits, log: seq<Action>)
    ensures Cause(l, log) == None ==> forall i: nat, q :: !BreachAt(l, log, i, q)
    ensures Cause(l, log).Some? ==> exists i: nat :: FirstBreach(l, log, i, Cause(l, log).value)
  {
    if log != [] {
      CauseMeans(l, Front(log));
      forall i: nat, q
        ensures BreachAt(l, log, i, q) <==>
                if i < |log| - 1 then BreachAt(l, Front(log), i, q) else i == |log| - 1 && Breach(l, log) == Some(q)
      {
        BreachFront(l, log, i, q);
      }
      if Cause(l, Front(log)).Some? {
        var i: nat :| FirstBreach(l, Front(log), i, Cause(l, Front(log)).value);
        assert FirstBreach(l, log, i, Cause(l, log).value);
      } else if Breach(l, log).Some? {
        assert FirstBreach(l, log, |log| - 1, Breach(l, log).value);
      }
    }
  }

  /** A run is cancelled for `r` exactly when `r` is its first breach. */
  lemma CauseExact(l: Limits, log: seq<Action>, r: Reason)
    ensures Cause(l, log) == Some(r) <==> exists i: nat :: FirstBreach(l, log, i, r)
  {
    CauseMeans(l, log);
    if i: nat :| FirstBreach(l, log, i, r) {
      var c := Cause(l, log).value;
      var k: nat :| FirstBreach(l, log, k, c);
      assert !(i < k) && !(k < i);
      BreachExact(l, log[..i + 1], r);
      BreachExact(l, log[..i + 1], c);
    }
  }

  // ----- the step check, under any interleaving -----

  /** `waiting` holds the agents that stepped and have not looked yet; `passed`
      counts the iterations that began. */
  datatype World = World(log: seq<Action>, waiting: set<nat>, passed: nat)

  function Moved(l: Limits, w: World, m: Move): World {
    match m
    case Step(a) =>
      if a in w.waiting then w
      else World(w.log + [Stepped], w.waiting + {a}, w.passed)
    case Look(a) =>
      if a !in w.waiting then w
      else World(w.log, w.waiting - {a}, w.passed + (if Cause(l, w.log) == None then 1 else 0))
    case Other(action) =>
      w.(log := w.log + [action])
  }

  function Reached(l: Limits, moves: seq<Move>): World {
    if moves == [] then World([], {}, 0) else Moved(l, Reached(l, Front(moves)), Last(moves))
  }

  lemma StepsSnoc(log: seq<Action>, a: Action)
    ensures Steps(log + [a]) == Steps(log) + (if a.Stepped? then 1 else 0)
  {
    assert Front(log + [a]) == log;
  }

  /** However the parent and its sub-agents interleave, fewer iterations than
      the step limit ever begin. */
  lemma {:induction false} IterationsBounded(l: Limits, moves: seq<Move>)
    ensures Reached(l, moves).passed + |Reached(l, moves).waiting| <= Steps(Reached(l, moves).log)
    ensures l.steps > 0 ==> Reached(l, moves).passed <= l.steps - 1
  {
    if moves != [] {
      IterationsBounded(l, Front(moves));
      var w := Reached(l, Front(moves));
      match Last(moves) {
        case Step(a) => StepsSnoc(w.log, Stepped);
        case Other(action) => StepsSnoc(w.log, action);
        case Look(a) =>
          if a in w.waiting && Cause(l, w.log) == None {
            UnderLimits(l, w.log);
          }
      }
    }
  }

  /** `n` iterations of an agent on its own. */
  function Alone(n: nat): seq<Move> {
    if n == 0 then [] else Alone(n - 1) + [Step(0)] + [Look(0)]
  }

  /** The bound is met: alone and under no other limit, an agent gets exactly
      one iteration less than the step limit. */
  lemma {:induction false} AloneGetsAllButOne(l: Limits, n: nat)
    requires l.steps > 0
    ensures var w := Reached(l, Alone(n));
            && w.waiting == {} && Steps(w.log) == n
            && (Cause(l, w.log) == None <==> n < l.steps)
            && w.passed == if n < l.steps then n else l.steps - 1
  {
    if n > 0 {
      AloneGetsAllButOne(l, n - 1);
      var w := Reached(l, Alone(n - 1));
      assert Front(Alone(n)) == Alone(n - 1) + [Step(0)];
      assert Front(Alone(n - 1) + [Step(0)]) == Alone(n - 1);
      StepsSnoc(w.log, Stepped);
      assert Front(w.log + [Stepped]) == w.log;
    }
  }
}
