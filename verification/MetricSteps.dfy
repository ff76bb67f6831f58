/** A counter under concurrent use: finding the series of an amount and adding to
    it are two steps, which those of other callers may come between
    (metric/metric.go). */
module MetricSteps {
  import opened Llm
  import opened Utf8
  import opened Metric

  /** An amount whose series was found, and whether it was added yet. */
  datatype Job = Job(key: Bytes, x: real, slot: Bytes, added: bool)

  /** The series, the calls so far, and the amounts in the order they were added. */
  datatype Shared = Shared(series: Landed, jobs: seq<Job>, log: seq<Hit>)

  /** `Find` runs under the lock of the instrument; `Put` is the atomic addition of
      call `job`. */
  datatype Step = Find(key: Bytes, x: real) | Put(job: nat)

  function Do(o: Bytes, s: Shared, step: Step): Shared {
    match step
    case Find(key, x) =>
      var slot := Slot(o, s.series, key);
      Shared(s.series[slot := if slot in s.series then s.series[slot] else []], s.jobs + [Job(key, x, slot, false)], s.log)
    case Put(i) =>
      if i >= |s.jobs| || s.jobs[i].added || s.jobs[i].slot !in s.series then s
      else
        var j := s.jobs[i];
        Shared(s.series[j.slot := s.series[j.slot] + [j.x]], s.jobs[i := j.(added := true)], s.log + [Hit(j.key, j.x)])
  }

  function Run(o: Bytes, steps: seq<Step>): Shared {
    if steps == [] then Shared(map[], [], []) else Do(o, Run(o, Front(steps)), Last(steps))
  }

  // ----- what every interleaving keeps -----

  /** A call found its own series, or the overflow one once there was no room. */
  predicate Placed(o: Bytes, series: Landed, j: Job) {
    && j.slot in series
    && (j.slot == j.key || (j.slot == o && j.key !in series && |series| >= MAX_SERIES))
  }

  ghost predicate Sound(o: Bytes, s: Shared) {
    && (forall i :: 0 <= i < |s.jobs| ==> Placed(o, s.series, s.jobs[i]))
    && |s.series| <= MAX_SERIES + 1
    && (|s.series| == MAX_SERIES + 1 ==> o in s.series)
    && forall k :: k in s.series && k != o ==> s.series[k] == ValuesFor(s.log, k)
  }

  /** A key that has no series was never recorded under its own name. */
  ghost predicate Unseen(o: Bytes, s: Shared) {
    forall k :: k !in s.series && k != o && |s.series| < MAX_SERIES ==> ValuesFor(s.log, k) == []
  }

  lemma GrownSeries(series: Landed, slot: Bytes)
    ensures |series[slot := []]| == |series| + if slot in series then 0 else 1
  {
    assert series[slot := []].Keys == series.Keys + {slot};
    assert |series[slot := []].Keys| == |series[slot := []]| && |series.Keys| == |series|;
  }

  lemma FindKeeps(o: Bytes, s: Shared, key: Bytes, x: real)
    requires Sound(o, s) && Unseen(o, s)
    ensures Sound(o, Do(o, s, Find(key, x))) && Unseen(o, Do(o, s, Find(key, x)))
  {
    var s' := Do(o, s, Find(key, x));
    var slot := Slot(o, s.series, key);
    GrownSeries(s.series, slot);
    assert s'.series.Keys == s.series[slot := []].Keys;
    assert |s'.series.Keys| == |s'.series| && |s.series[slot := []].Keys| == |s.series[slot := []]|;
    forall i | 0 <= i < |s'.jobs|
      ensures Placed(o, s'.series, s'.jobs[i])
    {
      if i < |s.jobs| {
        assert Placed(o, s.series, s.jobs[i]) && s'.jobs[i] == s.jobs[i];
      }
    }
  }

  lemma PutKeeps(o: Bytes, s: Shared, i: nat)
    requires Sound(o, s) && Unseen(o, s)
    ensures Sound(o, Do(o, s, Put(i))) && Unseen(o, Do(o, s, Put(i)))
  {
    var s' := Do(o, s, Put(i));
    if s' != s {
      var j := s.jobs[i];
      assert Placed(o, s.series, j);
      assert s'.series.Keys == s.series.Keys;
      assert |s'.series.Keys| == |s'.series| && |s.series.Keys| == |s.series|;
      assert Front(s'.log) == s.log && Last(s'.log) == Hit(j.key, j.x);
      forall k | 0 <= k < |s'.jobs|
        ensures Placed(o, s'.series, s'.jobs[k])
      {
        assert Placed(o, s.series, s.jobs[k]);
      }
    }
  }

  lemma {:induction false} AlwaysSound(o: Bytes, steps: seq<Step>)
    ensures Sound(o, Run(o, steps)) && Unseen(o, Run(o, steps))
  {
    if steps != [] {
      AlwaysSound(o, Front(steps));
      match Last(steps)
      case Find(key, x) => FindKeeps(o, Run(o, Front(steps)), key, x);
      case Put(i) => PutKeeps(o, Run(o, Front(steps)), i);
    }
  }

  /** However calls interleave, there are at most 257 series, and one other than
      the overflow series holds exactly what was added under its labels. */
  lemma SeriesExactAnyOrder(o: Bytes, steps: seq<Step>, key: Bytes)
    ensures |Run(o, steps).series| <= 257
    ensures key != o && key in Run(o, steps).series ==> Run(o, steps).series[key] == ValuesFor(Run(o, steps).log, key)
    ensures key != o && key !in Run(o, steps).series && ValuesFor(Run(o, steps).log, key) != []
            ==> |Run(o, steps).series| >= 256
  {
    AlwaysSound(o, steps);
  }

  // ----- nothing is lost -----

  /** The sum of `f` over the amounts that were added. */
  function AddedWeight(f: real -> real, jobs: seq<Job>): real {
    if jobs == [] then 0.0 else AddedWeight(f, Front(jobs)) + if Last(jobs).added then f(Last(jobs).x) else 0.0
  }

  lemma {:induction false} MarkAdded(f: real -> real, jobs: seq<Job>, i: nat)
    requires i < |jobs| && !jobs[i].added
    ensures AddedWeight(f, jobs[i := jobs[i].(added := true)]) == AddedWeight(f, jobs) + f(jobs[i].x)
  {
    var after := jobs[i := jobs[i].(added := true)];
    if i == |jobs| - 1 {
      assert Front(after) == Front(jobs);
    } else {
      MarkAdded(f, Front(jobs), i);
      assert Front(after) == Front(jobs)[i := jobs[i].(added := true)];
    }
  }

  lemma {:induction false} AnyOrderTotals(o: Bytes, f: real -> real, steps: seq<Step>)
    ensures TotalWeight(f, Run(o, steps).series) == AddedWeight(f, Run(o, steps).jobs)
    ensures WeightOf(f, Run(o, steps).log) == AddedWeight(f, Run(o, steps).jobs)
  {
    if steps != [] {
      AnyOrderTotals(o, f, Front(steps));
      var s, s' := Run(o, Front(steps)), Run(o, steps);
      match Last(steps) {
        case Find(key, x) =>
          var slot := Slot(o, s.series, key);
          TotalUpdate(f, s.series, slot, if slot in s.series then s.series[slot] else []);
          assert Front(s'.jobs) == s.jobs;
        case Put(i) =>
          if s' != s {
            var j := s.jobs[i];
            assert Front(s.series[j.slot] + [j.x]) == s.series[j.slot];
            TotalUpdate(f, s.series, j.slot, s.series[j.slot] + [j.x]);
            MarkAdded(f, s.jobs, i);
            assert Front(s'.log) == s.log;
          }
      }
    }
  }

  /** However calls interleave, over all series any weight adds up to that of the
      amounts added so far: one call adds once, to a series that is there. */
  lemma TotalsAnyOrder(o: Bytes, f: real -> real, steps: seq<Step>)
    ensures TotalWeight(f, Run(o, steps).series) == AddedWeight(f, Run(o, steps).jobs)
    ensures forall i :: 0 <= i < |Run(o, steps).jobs| ==> Run(o, steps).jobs[i].slot in Run(o, steps).series
  {
    AnyOrderTotals(o, f, steps);
    AlwaysSound(o, steps);
    forall i | 0 <= i < |Run(o, steps).jobs|
      ensures Run(o, steps).jobs[i].slot in Run(o, steps).series
    {
      assert Placed(o, Run(o, steps).series, Run(o, steps).jobs[i]);
    }
  }

  /** One call after another is the landing of its amount. */
  lemma AloneIsLanding(o: Bytes, s: Shared, key: Bytes, x: real)
    ensures var s' := Do(o, Do(o, s, Find(key, x)), Put(|s.jobs|));
            s'.series == Landing(o, s.series, key, x) && s'.log == s.log + [Hit(key, x)]
  {
    LandingInSteps(o, s.series, key, x, Do(o, s, Find(key, x)).series);
  }
}
