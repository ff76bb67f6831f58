/** The order in which a tape comes back when appends may fail. A call locks the
    tape twice, to ask and later to record, so other calls may come between;
    these are the steps. */
module TapeOrder {
  import opened Llm
  import opened Tape

  datatype Step<R> = Ask(key: RecKey) | Put(key: RecKey, resp: R, wrote: bool)

  function DoStep<R>(s: State<R>, mode: Mode, step: Step<R>): State<R> {
    match step
    case Ask(k) =>
      if mode == Record then s.(stats := s.stats.(misses := s.stats.misses + 1)) else Take(s, k).0
    case Put(k, resp, wrote) => Append(s, k, resp, wrote)
  }

  function DoAll<R>(s: State<R>, mode: Mode, steps: seq<Step<R>>): State<R> {
    if steps == [] then s else DoStep(DoAll(s, mode, Front(steps)), mode, Last(steps))
  }

  /** The attempts to append under `k`, in the order they were made. */
  function Puts<R>(steps: seq<Step<R>>, k: RecKey): seq<(R, bool)> {
    if steps == [] then []
    else if Last(steps).Put? && Last(steps).key == k
    then Puts(Front(steps), k) + [(Last(steps).resp, Last(steps).wrote)]
    else Puts(Front(steps), k)
  }

  /** The entries such attempts leave when the next number is `n`: each attempt
      uses up a number, the failed ones too. */
  function Written<R>(k: RecKey, n: nat, puts: seq<(R, bool)>): seq<Entry<R>> {
    if puts == [] then []
    else if Last(puts).1 then Written(k, n, Front(puts)) + [Entry(k, n + |puts| - 1, Last(puts).0)]
    else Written(k, n, Front(puts))
  }

  // ----- any interleaving of asks and records -----

  lemma {:induction false} StepsKeepPool<R>(s: State<R>, mode: Mode, steps: seq<Step<R>>)
    ensures DoAll(s, mode, steps).loaded == s.loaded && DoAll(s, mode, steps).writable == s.writable
  {
    if steps != [] {
      StepsKeepPool(s, mode, Front(steps));
    }
  }

  lemma StepWrites<R>(s: State<R>, mode: Mode, step: Step<R>, k: RecKey)
    requires s.writable
    ensures var s' := DoStep(s, mode, step);
            if step.Put? && step.key == k then
              && Count(s'.next, k) == Count(s.next, k) + 1
              && Of(s'.file, k) == if step.wrote then Of(s.file, k) + [Entry(k, Count(s.next, k), step.resp)] else Of(s.file, k)
            else Count(s'.next, k) == Count(s.next, k) && Of(s'.file, k) == Of(s.file, k)
  {
    if step.Put? && step.wrote {
      OfSnoc(s.file, Entry(step.key, Count(s.next, step.key), step.resp), k);
    }
  }

  /** One more attempt under `k`. */
  lemma WrittenSnoc<R>(k: RecKey, es: seq<Entry<R>>, n: nat, puts: seq<(R, bool)>, was: seq<Entry<R>>, now: seq<Entry<R>>)
    requires puts != [] && was == es + Written(k, n, Front(puts))
    requires now == if Last(puts).1 then was + [Entry(k, n + |puts| - 1, Last(puts).0)] else was
    ensures now == es + Written(k, n, puts)
  {
  }

  /** However calls interleave, the file gains under each key what was recorded
      under it, in the order it was recorded. */
  lemma {:induction false} StepsWrite<R>(s: State<R>, mode: Mode, steps: seq<Step<R>>, k: RecKey)
    requires s.writable
    ensures var s' := DoAll(s, mode, steps);
            && Of(s'.file, k) == Of(s.file, k) + Written(k, Count(s.next, k), Puts(steps, k))
            && Count(s'.next, k) == Count(s.next, k) + |Puts(steps, k)|
  {
    if steps == [] {
      assert Of(s.file, k) + [] == Of(s.file, k);
    } else {
      StepsWrite(s, mode, Front(steps), k);
      StepsKeepPool(s, mode, Front(steps));
      var was, puts := DoAll(s, mode, Front(steps)), Puts(steps, k);
      StepWrites(was, mode, Last(steps), k);
      if Last(steps).Put? && Last(steps).key == k {
        assert Last(puts) == (Last(steps).resp, Last(steps).wrote) && Front(puts) == Puts(Front(steps), k);
        WrittenSnoc(k, Of(s.file, k), Count(s.next, k), puts, Of(was.file, k), Of(DoAll(s, mode, steps).file, k));
      }
    }
  }

  function AskedOf<R>(steps: seq<Step<R>>, k: RecKey): nat {
    if steps == [] then 0
    else AskedOf(Front(steps), k) + if Last(steps) == Ask(k) then 1 else 0
  }

  lemma {:induction false} StepsAsk<R>(s: State<R>, mode: Mode, steps: seq<Step<R>>, k: RecKey)
    requires mode != Record && k in s.loaded && Count(s.cursor, k) == 0
    ensures Count(DoAll(s, mode, steps).cursor, k) == Min(AskedOf(steps, k), |s.loaded[k]|)
  {
    if steps != [] {
      StepsAsk(s, mode, Front(steps), k);
      StepsKeepPool(s, mode, Front(steps));
    }
  }

  /** However calls interleave, each ask of a key is answered by its own position
      in what was loaded, and the last entry repeats; nothing recorded in
      between is seen. */
  lemma StepsAnswer<R>(file: seq<Entry<R>>, mode: Mode, steps: seq<Step<R>>, k: RecKey)
    requires mode != Record
    ensures var pool := Responses(Sorted(Of(file, k)));
            Take(DoAll(Open(file, mode), mode, steps), k).1
              == if pool == [] then None else Some(pool[Min(AskedOf(steps, k), |pool| - 1)])
  {
    var s := Open(file, mode);
    OfKeys(file, k);
    SortedStable(Of(file, k));
    StepsKeepPool(s, mode, steps);
    if k in s.loaded {
      StepsAsk(s, mode, steps, k);
    }
  }

  // ----- numbers after failed appends -----

  function Failures<R>(puts: seq<(R, bool)>): nat {
    if puts == [] then 0 else Failures(Front(puts)) + if Last(puts).1 then 0 else 1
  }

  predicate AnyWrote<R>(puts: seq<(R, bool)>) {
    puts != [] && (Last(puts).1 || AnyWrote(Front(puts)))
  }

  /** Failed appends before the last one that went through: numbers burnt. */
  function Burnt<R>(puts: seq<(R, bool)>): nat {
    if puts == [] then 0
    else if Last(puts).1 then Failures(puts)
    else Burnt(Front(puts))
  }

  /** Failed appends before the first one that went through. */
  function Lead<R>(puts: seq<(R, bool)>): nat {
    if puts == [] then 0
    else if Last(puts).1 || AnyWrote(Front(puts)) then Lead(Front(puts))
    else Lead(Front(puts)) + 1
  }

  lemma {:induction false} LeadOfNone<R>(puts: seq<(R, bool)>)
    requires !AnyWrote(puts)
    ensures Lead(puts) == |puts| == Failures(puts)
  {
    if puts != [] {
      LeadOfNone(Front(puts));
    }
  }

  lemma {:induction false} WrittenNumbers<R>(k: RecKey, n: nat, puts: seq<(R, bool)>)
    ensures var w := Written(k, n, puts);
            && Ordered(w) && |w| + Failures(puts) == |puts|
            && (w != [] <==> AnyWrote(puts))
            && (w != [] ==> w[0].seqNo == n + Lead(puts) && Last(w).seqNo == n + |w| - 1 + Burnt(puts))
            && (forall i :: 0 <= i < |w| ==> w[i].seqNo < n + |puts|)
  {
    if puts != [] {
      var front := Front(puts);
      WrittenNumbers(k, n, front);
      if Last(puts).1 && !AnyWrote(front) {
        LeadOfNone(front);
      }
    }
  }

  /** Two runs of ascending numbers ascend together when they meet in order. */
  lemma OrderedConcat<R>(a: seq<Entry<R>>, b: seq<Entry<R>>)
    requires Ordered(b)
    ensures Ordered(a + b) <==> Ordered(a) && (a == [] || b == [] || Last(a).seqNo <= b[0].seqNo)
  {
    var c := a + b;
    if Ordered(c) {
      assert forall i :: 0 <= i < |a| ==> c[i] == a[i];
      if a != [] && b != [] {
        assert c[|a| - 1] == Last(a) && c[|a|] == b[0];
      }
    }
    if Ordered(a) && a != [] && b != [] && Last(a).seqNo <= b[0].seqNo {
      forall i, j | 0 <= i < j < |c|
        ensures c[i].seqNo <= c[j].seqNo
      {
        assert i < |a| ==> a[i].seqNo <= Last(a).seqNo;
        assert j >= |a| ==> b[0].seqNo <= b[j - |a|].seqNo;
      }
    }
  }

  // ----- any number of sessions -----

  /** The steps of one process between open and close. */
  datatype Process<R> = Process(mode: Mode, steps: seq<Step<R>>)

  function FileAfter<R>(file: seq<Entry<R>>, ps: seq<Process<R>>): seq<Entry<R>> {
    if ps == [] then file
    else
      var before := FileAfter(file, Front(ps));
      DoAll(Open(before, Last(ps).mode), Last(ps).mode, Last(ps).steps).file
  }

  /** A replaying process holds the file closed to writes. */
  function PutsBy<R>(p: Process<R>, k: RecKey): seq<(R, bool)> {
    if p.mode == Replay then [] else Puts(p.steps, k)
  }

  /** What the last process that wrote under `k` had burnt by then. */
  function LastBurnt<R>(ps: seq<Process<R>>, k: RecKey): nat {
    if ps == [] then 0
    else if AnyWrote(PutsBy(Last(ps), k)) then Burnt(PutsBy(Last(ps), k))
    else LastBurnt(Front(ps), k)
  }

  /** No process starts to write below where an earlier one stopped: it has
      itself burnt all but one of the numbers that one had burnt. */
  predicate MadeUp<R>(ps: seq<Process<R>>, k: RecKey) {
    ps == [] ||
    (MadeUp(Front(ps), k) &&
     (AnyWrote(PutsBy(Last(ps), k)) ==> LastBurnt(Front(ps), k) <= Lead(PutsBy(Last(ps), k)) + 1))
  }

  lemma {:induction false} ReplayWritesNothing<R>(s: State<R>, steps: seq<Step<R>>)
    requires !s.writable
    ensures DoAll(s, Replay, steps).file == s.file
  {
    if steps != [] {
      ReplayWritesNothing(s, Front(steps));
      StepsKeepPool(s, Replay, Front(steps));
    }
  }

  lemma ProcessWrites<R>(file: seq<Entry<R>>, p: Process<R>, k: RecKey)
    ensures Of(DoAll(Open(file, p.mode), p.mode, p.steps).file, k)
         == Of(file, k) + Written(k, |Of(file, k)|, PutsBy(p, k))
  {
    OfKeys(file, k);
    assert Count(Open(file, p.mode).next, k) == |Of(file, k)|;
    if p.mode == Replay {
      ReplayWritesNothing(Open(file, p.mode), p.steps);
      assert Of(file, k) + [] == Of(file, k);
    } else {
      StepsWrite(Open(file, p.mode), p.mode, p.steps, k);
    }
  }

  lemma ProcessOrder<R>(k: RecKey, es: seq<Entry<R>>, puts: seq<(R, bool)>, burnt: nat)
    requires es != [] ==> Last(es).seqNo == |es| - 1 + burnt
    requires es == [] ==> burnt == 0
    ensures var all, wrote := es + Written(k, |es|, puts), AnyWrote(puts);
            && (Ordered(all) <==> Ordered(es) && (wrote ==> burnt <= Lead(puts) + 1))
            && (all != [] ==> Last(all).seqNo == |all| - 1 + if wrote then Burnt(puts) else burnt)
            && (all == [] ==> !wrote && burnt == 0)
  {
    var w := Written(k, |es|, puts);
    WrittenNumbers(k, |es|, puts);
    OrderedConcat(es, w);
    assert es + w == if w == [] then es else es + w;
  }

  /** Across any number of sessions with any failed appends, a key's entries come
      back in file order if and only if every later process made up for the
      numbers the last writer before it had burnt. */
  lemma {:induction false} FileOrderExact<R>(file: seq<Entry<R>>, ps: seq<Process<R>>, k: RecKey)
    requires Sequential(file)
    ensures var es := Of(FileAfter(file, ps), k);
            && (Ordered(es) <==> MadeUp(ps, k))
            && (es != [] ==> Last(es).seqNo == |es| - 1 + LastBurnt(ps, k))
            && (es == [] ==> LastBurnt(ps, k) == 0)
  {
    if ps != [] {
      FileOrderExact(file, Front(ps), k);
      var before := FileAfter(file, Front(ps));
      var es, puts := Of(before, k), PutsBy(Last(ps), k);
      ProcessWrites(before, Last(ps), k);
      ProcessOrder(k, es, puts, LastBurnt(Front(ps), k));
    }
  }

  /** What is replayed is the file's own order exactly then. */
  lemma ReplayOrderExact<R>(file: seq<Entry<R>>, ps: seq<Process<R>>, k: RecKey)
    requires Sequential(file)
    ensures Sorted(Of(FileAfter(file, ps), k)) == Of(FileAfter(file, ps), k) <==> MadeUp(ps, k)
  {
    FileOrderExact(file, ps, k);
    SortedIdentity(Of(FileAfter(file, ps), k));
  }

  /** One burnt number a session does no harm, whatever the next one does. */
  lemma {:induction false} OneFailureIsHarmless<R>(ps: seq<Process<R>>, k: RecKey)
    requires forall i :: 0 <= i < |ps| ==> Burnt(PutsBy(ps[i], k)) <= 1
    ensures MadeUp(ps, k) && LastBurnt(ps, k) <= 1
  {
    if ps != [] {
      OneFailureIsHarmless(Front(ps), k);
    }
  }

  // ----- calls made one after another -----

  predicate GoesLive<R>(file: seq<Entry<R>>, mode: Mode, c: Call<R>) {
    c.live.Some? && (mode == Record || (mode == Auto && Of(file, c.key) == []))
  }

  /** The steps of a session in which no call starts before the last has ended. */
  function StepsOf<R>(file: seq<Entry<R>>, mode: Mode, calls: seq<Call<R>>): seq<Step<R>> {
    if calls == [] then []
    else
      var before, c := StepsOf(file, mode, Front(calls)), Last(calls);
      if GoesLive(file, mode, c) then before + [Ask(c.key)] + [Put(c.key, c.live.value, c.wrote)]
      else before + [Ask(c.key)]
  }

  lemma DoSnoc<R>(s: State<R>, mode: Mode, steps: seq<Step<R>>, step: Step<R>)
    ensures DoAll(s, mode, steps + [step]) == DoStep(DoAll(s, mode, steps), mode, step)
  {
    assert Front(steps + [step]) == steps;
  }

  lemma CallIsSteps<R>(file: seq<Entry<R>>, mode: Mode, s: State<R>, c: Call<R>)
    requires s.loaded == Pool(file)
    ensures Intercept(s, mode, c).0 ==
              var asked := DoStep(s, mode, Ask(c.key));
              if GoesLive(file, mode, c) then DoStep(asked, mode, Put(c.key, c.live.value, c.wrote)) else asked
  {
    OfKeys(file, c.key);
    SortedStable(Of(file, c.key));
  }

  /** Such a session is its steps. */
  lemma {:induction false} SessionIsSteps<R>(file: seq<Entry<R>>, mode: Mode, calls: seq<Call<R>>)
    ensures Session(Open(file, mode), mode, calls).0 == DoAll(Open(file, mode), mode, StepsOf(file, mode, calls))
  {
    if calls != [] {
      SessionIsSteps(file, mode, Front(calls));
      var s, c := Session(Open(file, mode), mode, Front(calls)).0, Last(calls);
      var before := StepsOf(file, mode, Front(calls));
      PoolKept(Open(file, mode), mode, Front(calls));
      CallIsSteps(file, mode, s, c);
      DoSnoc(Open(file, mode), mode, before, Ask(c.key));
      if GoesLive(file, mode, c) {
        DoSnoc(Open(file, mode), mode, before + [Ask(c.key)], Put(c.key, c.live.value, c.wrote));
      }
    }
  }

  /** The processes of sessions made of calls. */
  function Processes<R>(file: seq<Entry<R>>, runs: seq<(Mode, seq<Call<R>>)>): seq<Process<R>> {
    if runs == [] then []
    else
      var before := Processes(file, Front(runs));
      before + [Process(Last(runs).0, StepsOf(Sessions(file, Front(runs)), Last(runs).0, Last(runs).1))]
  }

  lemma {:induction false} SessionsAreProcesses<R>(file: seq<Entry<R>>, runs: seq<(Mode, seq<Call<R>>)>)
    ensures Sessions(file, runs) == FileAfter(file, Processes(file, runs))
  {
    if runs != [] {
      SessionsAreProcesses(file, Front(runs));
      var ps := Processes(file, runs);
      assert Front(ps) == Processes(file, Front(runs));
      SessionIsSteps(Sessions(file, Front(runs)), Last(runs).0, Last(runs).1);
    }
  }

  /** The same for sessions of calls: any session may have any failed appends. */
  lemma SessionsOrderExact<R>(file: seq<Entry<R>>, runs: seq<(Mode, seq<Call<R>>)>, k: RecKey)
    requires Sequential(file)
    ensures Ordered(Of(Sessions(file, runs), k)) <==> MadeUp(Processes(file, runs), k)
  {
    SessionsAreProcesses(file, runs);
    FileOrderExact(file, Processes(file, runs), k);
  }
}
