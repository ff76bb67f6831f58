/** The bounded event log with resumable followers, shared by `buffered.go` and
    `httpapi/session.go`, as a transition system whose atomic steps are the
    critical sections of the source. */
module EventLog {
  /** `events[i]` carries sequence `base + i`. `gen` names the channel a follower
      would wait on now; every earlier generation has been closed. */
  datatype Log<E> = Log(events: seq<E>, base: nat, gen: nat, over: bool) {
    function End(): nat {
      base + |events|
    }
  }

  function Appended<E>(l: Log<E>, e: E, cap: nat): Log<E> {
    var events := l.events + [e];
    if |events| > cap
    then Log(events[|events| - cap..], l.base + (|events| - cap), l.gen + 1, l.over)
    else Log(events, l.base, l.gen + 1, l.over)
  }

  function AppendedAll<E>(l: Log<E>, es: seq<E>, cap: nat): Log<E> {
    if es == [] then l
    else Appended(AppendedAll(l, es[..|es| - 1], cap), es[|es| - 1], cap)
  }

  function Finished<E>(l: Log<E>): Log<E> {
    l.(over := true, gen := l.gen + 1)
  }

  /** What one pass of a follower reads under the lock: where it now stands, and
      the events from there on. */
  function ReadAt<E>(l: Log<E>, at: nat): (nat, seq<E>) {
    var from := if at < l.base then l.base else at;
    (from, if from - l.base < |l.events| then l.events[from - l.base..] else [])
  }

  datatype Cause = Over | Stopped | Gone

  datatype Phase<E> =
    | Ready
    | Delivering(batch: seq<E>)
    | Parked(gen: nat)
    | Ended(cause: Cause)

  /** A follower: where it started, the next sequence it wants, what it was
      yielded so far. */
  datatype Follower<E> = Follower(from: nat, at: nat, phase: Phase<E>, yielded: seq<(nat, E)>)

  /** `history` is the unbounded log the bounded one stands for. */
  datatype System<E> = System(log: Log<E>, history: seq<E>, followers: seq<Follower<E>>)

  datatype Step<E> =
    | Append(event: E)
    | AppendLast(event: E)
    | Finish
    | Join(from: int)
    | Read(who: nat)
    | Yield(who: nat, more: bool)
    | Wake(who: nat)
    | Cancel(who: nat)

  function Initial<E>(): System<E> {
    System(Log([], 0, 0, false), [], [])
  }

  function FollowerRead<E>(l: Log<E>, f: Follower<E>): Follower<E> {
    var (at, batch) := ReadAt(l, f.at);
    f.(at := at, phase := if batch != [] then Delivering(batch) else if l.over then Ended(Over) else Parked(l.gen))
  }

  function FollowerYield<E>(f: Follower<E>, more: bool): Follower<E>
    requires f.phase.Delivering? && f.phase.batch != []
  {
    var rest := f.phase.batch[1..];
    Follower(
      f.from,
      f.at + 1,
      if !more then Ended(Stopped) else if rest == [] then Ready else Delivering(rest),
      f.yielded + [(f.at, f.phase.batch[0])])
  }

  function FollowerStep<E>(l: Log<E>, f: Follower<E>, step: Step<E>): Follower<E> {
    match step
    case Read(_) => if f.phase.Ready? then FollowerRead(l, f) else f
    case Yield(_, more) => if f.phase.Delivering? && f.phase.batch != [] then FollowerYield(f, more) else f
    case Wake(_) => if f.phase.Parked? && f.phase.gen != l.gen then f.(phase := Ready) else f
    case Cancel(_) => if f.phase.Parked? then f.(phase := Ended(Gone)) else f
    case _ => f
  }

  /** A disabled step changes nothing. Nothing is appended once the log is over. */
  function Do<E>(s: System<E>, step: Step<E>, cap: nat): System<E> {
    match step
    case Append(e) =>
      if s.log.over then s else s.(log := Appended(s.log, e, cap), history := s.history + [e])
    case AppendLast(e) =>
      if s.log.over then s
      else s.(log := Appended(s.log, e, cap).(over := true), history := s.history + [e])
    case Finish => s.(log := Finished(s.log))
    case Join(from) =>
      var start := if from < 0 then 0 else from;
      s.(followers := s.followers + [Follower(start, start, Ready, [])])
    case _ =>
      if step.who < |s.followers|
      then s.(followers := s.followers[step.who := FollowerStep(s.log, s.followers[step.who], step)])
      else s
  }

  function Reach<E>(steps: seq<Step<E>>, cap: nat): System<E> {
    if steps == [] then Initial()
    else Do(Reach(steps[..|steps| - 1], cap), steps[|steps| - 1], cap)
  }

  // ----- the invariant -----

  /** The bounded log is the end of the unbounded one. */
  ghost predicate LogOk<E>(l: Log<E>, history: seq<E>, cap: nat) {
    && l.End() == |history| && l.events == history[l.base..]
    && |l.events| <= cap && (l.base > 0 ==> |l.events| == cap)
  }

  ghost predicate WasYielded<E>(f: Follower<E>, q: nat) {
    exists k :: 0 <= k < |f.yielded| && f.yielded[k].0 == q
  }

  /** What was yielded is the unbounded log, in order, less evicted entries. */
  ghost predicate YieldedOk<E>(history: seq<E>, base: nat, f: Follower<E>) {
    && f.from <= f.at
    && (forall k :: 0 <= k < |f.yielded| ==>
          f.from <= f.yielded[k].0 < f.at && f.yielded[k].0 < |history| && f.yielded[k].1 == history[f.yielded[k].0])
    && (forall j, k :: 0 <= j < k < |f.yielded| ==> f.yielded[j].0 < f.yielded[k].0)
    && (forall q :: f.from <= q < f.at && base <= q ==> WasYielded(f, q))
  }

  ghost predicate PhaseOk<E>(l: Log<E>, history: seq<E>, f: Follower<E>) {
    match f.phase
    case Ready => true
    case Delivering(batch) =>
      batch != [] && f.at + |batch| <= |history| && batch == history[f.at..f.at + |batch|]
    case Parked(gen) => gen <= l.gen && (gen == l.gen ==> f.at >= |history| && !l.over)
    case Ended(cause) => cause.Over? ==> l.over && f.at >= |history|
  }

  ghost predicate FollowerOk<E>(l: Log<E>, history: seq<E>, f: Follower<E>) {
    YieldedOk(history, l.base, f) && PhaseOk(l, history, f)
  }

  ghost predicate Inv<E>(s: System<E>, cap: nat) {
    && LogOk(s.log, s.history, cap)
    && forall i :: 0 <= i < |s.followers| ==> FollowerOk(s.log, s.history, s.followers[i])
  }

  lemma AppendedOk<E>(l: Log<E>, history: seq<E>, e: E, cap: nat)
    requires LogOk(l, history, cap)
    ensures LogOk(Appended(l, e, cap), history + [e], cap)
    ensures Appended(l, e, cap).base >= l.base && Appended(l, e, cap).gen > l.gen
  {
  }

  /** A follower survives whatever happens to the log around it: entries already
      read stay as read, and a new generation releases whoever is parked. */
  lemma FollowerKept<E>(l: Log<E>, history: seq<E>, f: Follower<E>, l': Log<E>, history': seq<E>)
    requires FollowerOk(l, history, f)
    requires history <= history' && l.base <= l'.base && l.gen < l'.gen
    requires l.over ==> l'.over && history' == history
    ensures FollowerOk(l', history', f)
  {
    if f.phase.Delivering? {
      var batch := f.phase.batch;
      assert history'[f.at..f.at + |batch|] == history[f.at..f.at + |batch|];
    }
  }

  /** What is read is a stretch of the unbounded log. */
  lemma ReadIsStretch<E>(l: Log<E>, history: seq<E>, at: nat, cap: nat)
    requires LogOk(l, history, cap)
    ensures var (from, batch) := ReadAt(l, at);
            && from == (if at < l.base then l.base else at)
            && (batch != [] ==> from + |batch| == |history| && batch == history[from..from + |batch|])
            && (batch == [] ==> from >= |history|)
  {
    var (from, batch) := ReadAt(l, at);
    if from < |history| {
      assert history[l.base..][from - l.base..] == history[from..];
    }
  }

  lemma FollowerReadOk<E>(l: Log<E>, history: seq<E>, f: Follower<E>, cap: nat)
    requires LogOk(l, history, cap) && FollowerOk(l, history, f)
    ensures FollowerOk(l, history, FollowerRead(l, f))
  {
    var f' := FollowerRead(l, f);
    ReadIsStretch(l, history, f.at, cap);
    forall q | f'.from <= q < f'.at && l.base <= q
      ensures WasYielded(f', q)
    {
      assert WasYielded(f, q);
    }
  }

  lemma FollowerYieldOk<E>(l: Log<E>, history: seq<E>, f: Follower<E>, more: bool)
    requires FollowerOk(l, history, f) && f.phase.Delivering?
    ensures FollowerOk(l, history, FollowerYield(f, more))
  {
    var f' := FollowerYield(f, more);
    var batch := f.phase.batch;
    assert batch[0] == history[f.at];
    assert batch[1..] == history[f.at + 1..f.at + |batch|];
    forall q | f'.from <= q < f'.at && l.base <= q
      ensures WasYielded(f', q)
    {
      if q < f.at {
        assert WasYielded(f, q);
        var k :| 0 <= k < |f.yielded| && f.yielded[k].0 == q;
        assert f'.yielded[k].0 == q;
      } else {
        assert f'.yielded[|f.yielded|].0 == q;
      }
    }
  }

  lemma FollowerStepOk<E>(l: Log<E>, history: seq<E>, f: Follower<E>, step: Step<E>, cap: nat)
    requires LogOk(l, history, cap) && FollowerOk(l, history, f)
    ensures FollowerOk(l, history, FollowerStep(l, f, step))
  {
    if step.Read? && f.phase.Ready? {
      FollowerReadOk(l, history, f, cap);
    } else if step.Yield? && f.phase.Delivering? {
      FollowerYieldOk(l, history, f, step.more);
    } else if FollowerStep(l, f, step) != f {
      assert forall q :: WasYielded(f, q) ==> WasYielded(FollowerStep(l, f, step), q);
    }
  }

  lemma StepKeeps<E>(s: System<E>, step: Step<E>, cap: nat)
    requires Inv(s, cap)
    ensures Inv(Do(s, step, cap), cap)
  {
    var s' := Do(s, step, cap);
    if step.Append? || step.AppendLast? || step.Finish? {
      if !s.log.over || step.Finish? {
        if !step.Finish? {
          AppendedOk(s.log, s.history, step.event, cap);
        }
        forall i | 0 <= i < |s'.followers|
          ensures FollowerOk(s'.log, s'.history, s'.followers[i])
        {
          FollowerKept(s.log, s.history, s.followers[i], s'.log, s'.history);
        }
      }
    } else if !step.Join? && step.who < |s.followers| {
      FollowerStepOk(s.log, s.history, s.followers[step.who], step, cap);
    }
  }

  /** The invariant holds after any interleaving whatever. */
  lemma {:induction false} AlwaysInv<E>(steps: seq<Step<E>>, cap: nat)
    ensures Inv(Reach(steps, cap), cap)
  {
    if steps != [] {
      AlwaysInv(steps[..|steps| - 1], cap);
      StepKeeps(Reach(steps[..|steps| - 1], cap), steps[|steps| - 1], cap);
    }
  }

  // ----- what a consumer relies on -----

  /** Under any interleaving of appends, evictions and followers, a follower is
      yielded the unbounded log: the right event at each sequence, sequences
      strictly rising, nothing skipped but what has been evicted. */
  lemma FollowersRefineLog<E>(steps: seq<Step<E>>, cap: nat, i: nat)
    requires i < |Reach(steps, cap).followers|
    ensures var s := Reach(steps, cap);
            var f := s.followers[i];
            && (forall k :: 0 <= k < |f.yielded| ==>
                  f.yielded[k].0 < |s.history| && f.yielded[k].1 == s.history[f.yielded[k].0])
            && (forall j, k :: 0 <= j < k < |f.yielded| ==> f.yielded[j].0 < f.yielded[k].0)
            && (forall q :: f.from <= q < f.at ==> WasYielded(f, q) || q < s.log.base)
  {
    AlwaysInv(steps, cap);
  }

  /** No lost wakeup: a parked follower with something to read, or with nothing
      left to wait for, holds a channel that has been closed. */
  lemma NoLostWakeup<E>(steps: seq<Step<E>>, cap: nat, i: nat)
    requires i < |Reach(steps, cap).followers|
    requires Reach(steps, cap).followers[i].phase.Parked?
    ensures var s := Reach(steps, cap);
            var f := s.followers[i];
            f.at < |s.history| || s.log.over ==> Do(s, Wake(i), cap).followers[i].phase.Ready?
  {
    AlwaysInv(steps, cap);
  }

  /** A follower that ends because the log is over has been offered every entry
      from where it started: each was yielded, or evicted before it got there. */
  lemma OverMeansAll<E>(steps: seq<Step<E>>, cap: nat, i: nat)
    requires i < |Reach(steps, cap).followers|
    requires Reach(steps, cap).followers[i].phase == Ended(Over)
    ensures var s := Reach(steps, cap);
            var f := s.followers[i];
            s.log.over && forall q :: f.from <= q < |s.history| ==> WasYielded(f, q) || q < s.log.base
  {
    AlwaysInv(steps, cap);
  }

  lemma {:induction false} RisingAtLeast<E>(history: seq<E>, f: Follower<E>, k: nat)
    requires YieldedOk(history, 0, f) && k < |f.yielded|
    ensures f.yielded[k].0 >= f.from + k
  {
    if k > 0 {
      RisingAtLeast(history, f, k - 1);
      assert f.yielded[k - 1].0 < f.yielded[k].0;
    }
  }

  /** Strictly rising sequences that miss nothing are consecutive. */
  lemma YieldedDense<E>(history: seq<E>, f: Follower<E>)
    requires YieldedOk(history, 0, f) && f.from <= |history| <= f.at
    ensures |f.yielded| == |history| - f.from
    ensures forall k :: 0 <= k < |f.yielded| ==> f.yielded[k] == (f.from + k, history[f.from + k])
  {
    var n := |history| - f.from;
    if f.yielded != [] {
      RisingAtLeast(history, f, |f.yielded| - 1);
    }
    var k := 0;
    while k < n
      invariant 0 <= k <= n && k <= |f.yielded|
      invariant forall j :: 0 <= j < k ==> f.yielded[j].0 == f.from + j
    {
      var q := f.from + k;
      assert WasYielded(f, q);
      var m :| 0 <= m < |f.yielded| && f.yielded[m].0 == q;
      assert m >= k;
      RisingAtLeast(history, f, k);
      k := k + 1;
    }
  }

  /** When nothing was evicted it was yielded the log itself, from its start to
      the last entry. */
  lemma OverYieldsLog<E>(steps: seq<Step<E>>, cap: nat, i: nat)
    requires i < |Reach(steps, cap).followers|
    requires Reach(steps, cap).followers[i].phase == Ended(Over)
    requires |Reach(steps, cap).history| <= cap
    ensures var s := Reach(steps, cap);
            var f := s.followers[i];
            f.from <= |s.history| ==>
              f.yielded == seq(|s.history| - f.from, k requires 0 <= k < |s.history| - f.from => (f.from + k, s.history[f.from + k]))
  {
    AlwaysInv(steps, cap);
    var s := Reach(steps, cap);
    var f := s.followers[i];
    if f.from <= |s.history| && s.log.base == 0 {
      YieldedDense(s.history, f);
    }
  }

  // ----- why a follower ends, and that until then it gets on -----

  /** A cause other than the end of the log is somebody's doing. */
  ghost predicate Excused<E>(f: Follower<E>, steps: seq<Step<E>>, i: nat) {
    && (f.phase == Ended(Stopped) ==> Yield(i, false) in steps)
    && (f.phase == Ended(Gone) ==> Cancel(i) in steps)
  }

  lemma FollowerExcused<E>(l: Log<E>, f: Follower<E>, before: seq<Step<E>>, step: Step<E>, i: nat)
    requires Excused(f, before, i)
    requires step.Read? || step.Yield? || step.Wake? || step.Cancel? ==> step.who == i
    ensures Excused(FollowerStep(l, f, step), before + [step], i)
    ensures Excused(f, before + [step], i)
  {
    var now := before + [step];
    assert now[|before|] == step;
    assert forall s :: s in before ==> s in now;
  }

  /** A follower stops only because its consumer wanted no more, and goes only
      because its consumer went away. */
  lemma {:induction false} WhyEnded<E>(steps: seq<Step<E>>, cap: nat, i: nat)
    requires i < |Reach(steps, cap).followers|
    ensures Excused(Reach(steps, cap).followers[i], steps, i)
  {
    var before, step := steps[..|steps| - 1], steps[|steps| - 1];
    assert steps == before + [step];
    var s := Reach(before, cap);
    if i < |s.followers| {
      WhyEnded(before, cap, i);
      if step.Read? || step.Yield? || step.Wake? || step.Cancel? {
        if step.who == i {
          FollowerExcused(s.log, s.followers[i], before, step, i);
        } else {
          FollowerExcused(s.log, s.followers[i], before, Finish, i);
          assert forall t :: t in before ==> t in steps;
        }
      } else {
        FollowerExcused(s.log, s.followers[i], before, step, i);
      }
    }
  }

  /** The entries of the unbounded log from `at` on, with their sequences. */
  function Entries<E>(history: seq<E>, at: nat): seq<(nat, E)> {
    seq(if at < |history| then |history| - at else 0, k requires 0 <= k && at + k < |history| => (at + k, history[at + k]))
  }

  /** The consumer takes `n` entries and wants more. */
  function TakeMany<E>(s: System<E>, i: nat, n: nat, cap: nat): System<E> {
    if n == 0 then s else Do(TakeMany(s, i, n - 1, cap), Yield(i, true), cap)
  }

  function Numbered<E>(at: nat, batch: seq<E>, n: nat): seq<(nat, E)>
    requires n <= |batch|
  {
    seq(n, k requires 0 <= k < n => (at + k, batch[k]))
  }

  function PhaseAfter<E>(batch: seq<E>, n: nat): Phase<E>
    requires n <= |batch|
  {
    if n == |batch| then Ready else Delivering(batch[n..])
  }

  lemma TakeOnce<E>(s: System<E>, i: nat, batch: seq<E>, n: nat, cap: nat)
    requires i < |s.followers| && n < |batch| && s.followers[i].phase == Delivering(batch[n..])
    ensures var f := s.followers[i];
            Do(s, Yield(i, true), cap) == s.(followers := s.followers[i :=
              Follower(f.from, f.at + 1, PhaseAfter(batch, n + 1), f.yielded + [(f.at, batch[n])])])
  {
    assert batch[n..][1..] == batch[n + 1..] && batch[n..][0] == batch[n];
  }

  lemma NumberedSnoc<E>(yielded: seq<(nat, E)>, at: nat, batch: seq<E>, n: nat)
    requires n < |batch|
    ensures yielded + Numbered(at, batch, n) + [(at + n, batch[n])] == yielded + Numbered(at, batch, n + 1)
  {
    assert Numbered(at, batch, n + 1) == Numbered(at, batch, n) + [(at + n, batch[n])];
  }

  lemma {:induction false} TakenExact<E>(s: System<E>, i: nat, f: Follower<E>, batch: seq<E>, n: nat, cap: nat)
    requires i < |s.followers| && s.followers[i] == f && f.phase == Delivering(batch) && n <= |batch| && batch != []
    ensures TakeMany(s, i, n, cap) == s.(followers := s.followers[i :=
              Follower(f.from, f.at + n, PhaseAfter(batch, n), f.yielded + Numbered(f.at, batch, n))])
  {
    if n == 0 {
      assert f.yielded + Numbered(f.at, batch, 0) == f.yielded && batch[0..] == batch;
    } else {
      TakenExact(s, i, f, batch, n - 1, cap);
      TakeOnce(TakeMany(s, i, n - 1, cap), i, batch, n - 1, cap);
      NumberedSnoc(f.yielded, f.at, batch, n - 1);
    }
  }

  /** What becomes of a follower that reads at `at` and takes what it read. */
  ghost predicate GotOn<E>(s: System<E>, f: Follower<E>, at: nat, f': Follower<E>) {
    && f'.from == f.from && f'.yielded == f.yielded + Entries(s.history, at)
    && f'.at == (if at < |s.history| then |s.history| else at)
    && f'.phase == if at < |s.history| then Ready else if s.log.over then Ended(Over) else Parked(s.log.gen)
  }

  /** Where a follower that reads now goes on from: past what was evicted. */
  function Standing<E>(s: System<E>, i: nat): nat
    requires i < |s.followers|
  {
    if s.followers[i].at < s.log.base then s.log.base else s.followers[i].at
  }

  /** Follower `i` reads, and its consumer takes everything from there on. */
  function Drained<E>(s: System<E>, i: nat, cap: nat): System<E>
    requires i < |s.followers|
  {
    var at := Standing(s, i);
    TakeMany(Do(s, Read(i), cap), i, if at < |s.history| then |s.history| - at else 0, cap)
  }

  lemma NumberedAll<E>(history: seq<E>, at: nat, batch: seq<E>)
    requires at + |batch| == |history| && batch == history[at..]
    ensures Numbered(at, batch, |batch|) == Entries(history, at)
  {
  }

  lemma ReadAtExact<E>(l: Log<E>, history: seq<E>, cap: nat, from: nat, at: nat)
    requires LogOk(l, history, cap) && at == (if from < l.base then l.base else from) && at < |history|
    ensures ReadAt(l, from) == (at, history[at..])
  {
    ReadIsStretch(l, history, from, cap);
    var batch := ReadAt(l, from).1;
    assert history[at..at + |batch|] == history[at..];
  }

  lemma ReadStarts<E>(s: System<E>, cap: nat, i: nat, f: Follower<E>, at: nat, batch: seq<E>)
    requires i < |s.followers| && s.followers[i] == f && f.phase.Ready?
    requires ReadAt(s.log, f.at) == (at, batch) && batch != []
    ensures Do(s, Read(i), cap) == s.(followers := s.followers[i := Follower(f.from, at, Delivering(batch), f.yielded)])
  {
  }

  lemma UpdateTwice<T>(s: seq<T>, i: nat, x: T, y: T)
    requires i < |s|
    ensures s[i := x][i := y] == s[i := y]
  {
  }

  lemma ReadDelivers<E>(s: System<E>, cap: nat, i: nat, f: Follower<E>, at: nat) returns (f': Follower<E>)
    requires LogOk(s.log, s.history, cap) && i < |s.followers| && s.followers[i] == f && f.phase.Ready?
    requires at == Standing(s, i) < |s.history|
    ensures Drained(s, i, cap) == s.(followers := s.followers[i := f']) && GotOn(s, f, at, f')
  {
    var batch := s.history[at..];
    var f1 := Follower(f.from, at, Delivering(batch), f.yielded);
    ReadAtExact(s.log, s.history, cap, f.at, at);
    ReadStarts(s, cap, i, f, at, batch);
    TakenExact(s.(followers := s.followers[i := f1]), i, f1, batch, |batch|, cap);
    NumberedAll(s.history, at, batch);
    f' := Follower(f.from, |s.history|, Ready, f.yielded + Entries(s.history, at));
    UpdateTwice(s.followers, i, f1, f');
  }

  lemma ReadGetsOn<E>(s: System<E>, cap: nat, i: nat, f: Follower<E>, at: nat) returns (f': Follower<E>)
    requires LogOk(s.log, s.history, cap) && i < |s.followers| && s.followers[i] == f && f.phase.Ready? && at == Standing(s, i)
    ensures Drained(s, i, cap) == s.(followers := s.followers[i := f']) && GotOn(s, f, at, f')
  {
    if at < |s.history| {
      f' := ReadDelivers(s, cap, i, f, at);
    } else {
      ReadIsStretch(s.log, s.history, f.at, cap);
      f' := FollowerRead(s.log, f);
      assert f.yielded + Entries(s.history, at) == f.yielded;
      assert TakeMany(Do(s, Read(i), cap), i, 0, cap) == Do(s, Read(i), cap);
    }
  }

  /** Progress: in any reachable state a follower that reads, and whose consumer
      then takes what it read, is yielded every retained entry it has not had, in
      order, and is ready to read on. With nothing to read it ends if the log is
      over, and parks otherwise. Nothing else changes. */
  lemma FollowerGetsOn<E>(steps: seq<Step<E>>, cap: nat, i: nat, s: System<E>) returns (f': Follower<E>)
    requires s == Reach(steps, cap) && i < |s.followers| && s.followers[i].phase.Ready?
    ensures Drained(s, i, cap) == s.(followers := s.followers[i := f'])
    ensures GotOn(s, s.followers[i], Standing(s, i), f')
  {
    AlwaysInv(steps, cap);
    f' := ReadGetsOn(s, cap, i, s.followers[i], Standing(s, i));
  }

  /** The log was closed by one of these steps. */
  ghost predicate Closes<E>(steps: seq<Step<E>>) {
    exists k :: 0 <= k < |steps| && (steps[k].Finish? || steps[k].AppendLast?)
  }

  /** What was appended up to the step that closed the log. */
  function Emitted<E>(steps: seq<Step<E>>): seq<E> {
    if steps == [] then []
    else
      match steps[0]
      case Append(e) => [e] + Emitted(steps[1..])
      case AppendLast(e) => [e]
      case Finish => []
      case _ => Emitted(steps[1..])
  }

  lemma {:induction false} EmittedSnoc<E>(steps: seq<Step<E>>, step: Step<E>)
    ensures Emitted(steps + [step]) ==
            if (step.Append? || step.AppendLast?) && !Closes(steps) then Emitted(steps) + [step.event] else Emitted(steps)
  {
    var all := steps + [step];
    if steps == [] {
      assert all == [step] && [step][1..] == [];
    } else {
      assert all[0] == steps[0] && all[1..] == steps[1..] + [step];
      if !steps[0].Finish? && !steps[0].AppendLast? {
        EmittedSnoc(steps[1..], step);
        ClosesRest(steps);
      }
    }
  }

  lemma ClosesRest<E>(steps: seq<Step<E>>)
    requires steps != [] && !steps[0].Finish? && !steps[0].AppendLast?
    ensures Closes(steps) <==> Closes(steps[1..])
  {
    if Closes(steps) {
      var k :| 0 <= k < |steps| && (steps[k].Finish? || steps[k].AppendLast?);
      assert steps[1..][k - 1] == steps[k];
    }
    if Closes(steps[1..]) {
      var k :| 0 <= k < |steps[1..]| && (steps[1..][k].Finish? || steps[1..][k].AppendLast?);
      assert steps[k + 1] == steps[1..][k];
    }
  }

  lemma ClosesSnoc<E>(steps: seq<Step<E>>, step: Step<E>)
    ensures Closes(steps + [step]) <==> Closes(steps) || step.Finish? || step.AppendLast?
  {
    var all := steps + [step];
    assert forall k :: 0 <= k < |steps| ==> all[k] == steps[k];
    assert all[|steps|] == step;
  }

  /** The unbounded log is what was appended before the log was closed, whatever
      the followers do in between. */
  lemma {:induction false} HistoryExact<E>(steps: seq<Step<E>>, cap: nat)
    ensures Reach(steps, cap).history == Emitted(steps)
    ensures Reach(steps, cap).log.over <==> Closes(steps)
  {
    if steps != [] {
      var before, step := steps[..|steps| - 1], steps[|steps| - 1];
      assert steps == before + [step];
      HistoryExact(before, cap);
      EmittedSnoc(before, step);
      ClosesSnoc(before, step);
    }
  }

  /** A follower joins at the sequence it asked for, the first one if that is
      negative, and is ready. Nobody else notices. */
  lemma JoinExact<E>(s: System<E>, from: int, cap: nat)
    ensures var s', n := Do(s, Join(from), cap), |s.followers|;
            && s'.log == s.log && s'.history == s.history
            && |s'.followers| == n + 1 && s'.followers[..n] == s.followers
            && s'.followers[n] == Follower(if from < 0 then 0 else from, if from < 0 then 0 else from, Ready, [])
  {
  }
}
