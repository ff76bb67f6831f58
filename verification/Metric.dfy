/** Counters and histograms split by label set, with a cap on the number of
    series (metric/metric.go). Floats are reals, and NaN. */
module Metric {
  import opened Llm
  import opened Utf8
  import opened Labels

  /** The label sets one instrument tracks before it folds the rest. */
  const MAX_SERIES := 256

  /** A float, without the infinities. */
  datatype Num = NaN | Finite(x: real)

  function OverflowLabels(): seq<Label> {
    [Label(Encode("overflow"), Encode("true"))]
  }

  // ----- where a value lands; `o` is the key of the overflow series -----

  /** The values each series received, oldest first. */
  type Landed = map<Bytes, seq<real>>

  datatype Hit = Hit(key: Bytes, x: real)

  function Slot<T>(o: Bytes, children: map<Bytes, T>, key: Bytes): Bytes {
    if key in children || |children| < MAX_SERIES then key else o
  }

  function Landing(o: Bytes, m: Landed, key: Bytes, x: real): Landed {
    var slot := Slot(o, m, key);
    m[slot := (if slot in m then m[slot] else []) + [x]]
  }

  function LandAll(o: Bytes, h: seq<Hit>): Landed {
    if h == [] then map[] else Landing(o, LandAll(o, Front(h)), Last(h).key, Last(h).x)
  }

  /** Every value recorded under one key, oldest first. */
  function ValuesFor(h: seq<Hit>, key: Bytes): seq<real> {
    if h == [] then []
    else if Last(h).key == key then ValuesFor(Front(h), key) + [Last(h).x]
    else ValuesFor(Front(h), key)
  }

  function KeysOf(h: seq<Hit>): set<Bytes> {
    if h == [] then {} else KeysOf(Front(h)) + {Last(h).key}
  }

  /** The sum of `f` over a series: its total for the identity, its count for
      the constant one. */
  function Weight(f: real -> real, s: seq<real>): real {
    if s == [] then 0.0 else Weight(f, Front(s)) + f(Last(s))
  }

  function WeightOf(f: real -> real, h: seq<Hit>): real {
    if h == [] then 0.0 else WeightOf(f, Front(h)) + f(Last(h).x)
  }

  ghost function TotalWeight(f: real -> real, m: Landed): real
    decreases |m|
  {
    if m == map[] then 0.0
    else
      var k :| k in m;
      Weight(f, m[k]) + TotalWeight(f, m - {k})
  }

  lemma LandingInSteps(o: Bytes, m: Landed, key: Bytes, x: real, mid: Landed)
    requires mid == m[Slot(o, m, key) := if Slot(o, m, key) in m then m[Slot(o, m, key)] else []]
    ensures Slot(o, m, key) in mid
    ensures mid[Slot(o, m, key) := mid[Slot(o, m, key)] + [x]] == Landing(o, m, key, x)
  {
  }

  // ----- laws of the fold -----

  /** The series never outgrow the cap by more than the overflow series. */
  lemma {:induction false} SeriesCapped(o: Bytes, h: seq<Hit>)
    ensures |LandAll(o, h)| <= 257
    ensures |LandAll(o, h)| == 257 ==> o in LandAll(o, h)
  {
    if h != [] {
      SeriesCapped(o, Front(h));
      var m := LandAll(o, Front(h));
      var slot := Slot(o, m, Last(h).key);
      assert LandAll(o, h).Keys == m.Keys + {slot};
    }
  }

  lemma {:induction false} KeysOfValues(h: seq<Hit>, key: Bytes)
    ensures key in KeysOf(h) <==> ValuesFor(h, key) != []
  {
    if h != [] {
      KeysOfValues(Front(h), key);
    }
  }

  lemma CardinalityGrows<T>(a: set<T>, b: set<T>)
    requires a <= b
    ensures |a| <= |b|
  {
    assert b == a + (b - a);
  }

  /** A series other than the overflow one holds exactly the values recorded
      under its own labels; a label set without a series was folded at the cap. */
  lemma {:induction false} SeriesExact(o: Bytes, h: seq<Hit>, key: Bytes)
    requires key != o
    ensures key in LandAll(o, h) ==> LandAll(o, h)[key] == ValuesFor(h, key)
    ensures key !in LandAll(o, h) && key in KeysOf(h) ==> |LandAll(o, h)| >= 256
  {
    if h != [] {
      SeriesExact(o, Front(h), key);
      KeysOfValues(Front(h), key);
      var m := LandAll(o, Front(h));
      assert LandAll(o, h).Keys == m.Keys + {Slot(o, m, Last(h).key)};
      CardinalityGrows(m.Keys, LandAll(o, h).Keys);
    }
  }

  /** Up to the cap nothing is folded: the series are the label sets seen, each
      with its own values. */
  lemma {:induction false} NothingFoldedBelowCap(o: Bytes, h: seq<Hit>)
    requires |KeysOf(h)| <= 256
    ensures LandAll(o, h).Keys == KeysOf(h)
    ensures forall k :: k in LandAll(o, h) ==> LandAll(o, h)[k] == ValuesFor(h, k)
  {
    if h != [] {
      var x := Last(h);
      CardinalityGrows(KeysOf(Front(h)), KeysOf(h));
      NothingFoldedBelowCap(o, Front(h));
      var m := LandAll(o, Front(h));
      KeysOfValues(Front(h), x.key);
      if x.key !in m {
        assert |m.Keys + {x.key}| == |m| + 1;
      }
      assert Slot(o, m, x.key) == x.key;
    }
  }

  /** `TotalWeight` does not depend on the order the series are taken in. */
  lemma {:induction false} TotalWithout(f: real -> real, m: Landed, k: Bytes)
    requires k in m
    ensures TotalWeight(f, m) == Weight(f, m[k]) + TotalWeight(f, m - {k})
    decreases |m|
  {
    var j :| j in m && TotalWeight(f, m) == Weight(f, m[j]) + TotalWeight(f, m - {j});
    if j != k {
      TotalWithout(f, m - {j}, k);
      TotalWithout(f, m - {k}, j);
      assert m - {j} - {k} == m - {k} - {j};
    }
  }

  lemma TotalUpdate(f: real -> real, m: Landed, k: Bytes, s: seq<real>)
    ensures TotalWeight(f, m[k := s])
         == TotalWeight(f, m) + Weight(f, s) - (if k in m then Weight(f, m[k]) else 0.0)
  {
    TotalWithout(f, m[k := s], k);
    if k in m {
      TotalWithout(f, m, k);
      assert m[k := s] - {k} == m - {k};
    } else {
      assert m[k := s] - {k} == m;
    }
  }

  /** Folding loses the breakdown and never the total: over all series, any
      weight adds up to that of every value ever recorded. */
  lemma {:induction false} TotalsSurviveFolding(o: Bytes, f: real -> real, h: seq<Hit>)
    ensures TotalWeight(f, LandAll(o, h)) == WeightOf(f, h)
  {
    if h != [] {
      TotalsSurviveFolding(o, f, Front(h));
      var m := LandAll(o, Front(h));
      var slot := Slot(o, m, Last(h).key);
      var before := if slot in m then m[slot] else [];
      assert Front(before + [Last(h).x]) == before;
      TotalUpdate(f, m, slot, before + [Last(h).x]);
    }
  }

  // ----- the counter -----

  datatype Sample = Sample(labels: seq<Label>, value: real)

  function Total(s: seq<real>): real {
    Weight(x => x, s)
  }

  class Counter {
    const overflow: seq<Label>
    var children: map<Bytes, Sample>

    /** What each series was given, and everything accepted so far. */
    ghost var landed: Landed
    ghost var hits: seq<Hit>

    ghost predicate Mirrors()
      reads this
    {
      && children.Keys == landed.Keys
      && forall k :: k in children ==>
           LabelKey(children[k].labels) == k && children[k].value == Total(landed[k])
    }

    ghost predicate Valid()
      reads this
    {
      Mirrors() && landed == LandAll(LabelKey(overflow), hits)
    }

    constructor ()
      ensures Valid() && hits == [] && children == map[] && overflow == OverflowLabels()
    {
      overflow := OverflowLabels();
      children, landed, hits := map[], map[], [];
    }

    method Admit(key: Bytes, labels: seq<Label>)
      requires Mirrors() && key !in children && key == LabelKey(labels)
      modifies `children, `landed
      ensures Mirrors() && landed == old(landed)[key := []]
    {
      children := children[key := Sample(labels, 0.0)];
      landed := landed[key := []];
    }

    /** Finds or creates the series `labels` belong to. */
    method Get(labels: seq<Label>) returns (slot: Bytes)
      requires Mirrors()
      modifies `children, `landed
      ensures Mirrors()
      ensures slot == Slot(LabelKey(overflow), old(landed), KeyOf(labels))
      ensures landed == old(landed)[slot := if slot in old(landed) then old(landed)[slot] else []]
    {
      var canon, key := Canonicalize(labels);
      assert |children.Keys| == |children| && |landed.Keys| == |landed|;
      if key in children {
        return key;
      }
      if |children| >= MAX_SERIES {
        slot := MakeKey(overflow);
        if slot in children {
          return;
        }
        Admit(slot, overflow);
        return;
      }
      Admit(key, canon);
      return key;
    }

    method Bump(key: Bytes, x: real)
      requires Mirrors() && key in children
      modifies `children, `landed
      ensures Mirrors() && landed == old(landed)[key := old(landed)[key] + [x]]
    {
      var s := children[key];
      assert Front(landed[key] + [x]) == landed[key];
      children := children[key := s.(value := s.value + x)];
      landed := landed[key := landed[key] + [x]];
    }

    /** A negative or NaN amount is dropped; any other lands on one series. */
    method Add(v: Num, labels: seq<Label>)
      requires Valid()
      modifies this
      ensures Valid()
      ensures hits == old(hits) + (if v.Finite? && v.x >= 0.0 then [Hit(KeyOf(labels), v.x)] else [])
    {
      if v.NaN? || v.x < 0.0 {
        assert hits == old(hits) + [];
        return;
      }
      var slot := Get(labels);
      LandingInSteps(LabelKey(overflow), old(landed), KeyOf(labels), v.x, landed);
      Bump(slot, v.x);
      assert Front(hits + [Hit(KeyOf(labels), v.x)]) == hits;
      hits := hits + [Hit(KeyOf(labels), v.x)];
    }
  }

  /** A counter's series reads the sum of everything accepted under its labels,
      unless it is the overflow series; there are at most 257 of them, and no
      other carries the same label list. */
  lemma CounterReads(c: Counter, key: Bytes)
    requires c.Valid() && key in c.children && key != LabelKey(c.overflow)
    ensures c.children[key].value == Total(ValuesFor(c.hits, key))
    ensures |c.children| <= 257
    ensures forall k :: k in c.children && c.children[k].labels == c.children[key].labels ==> k == key
  {
    SeriesExact(LabelKey(c.overflow), c.hits, key);
    SeriesCapped(LabelKey(c.overflow), c.hits);
    assert |c.children.Keys| == |c.landed.Keys|;
  }

  ghost function TotalOf(children: map<Bytes, Sample>): real
    decreases |children|
  {
    if children == map[] then 0.0
    else
      var k :| k in children;
      children[k].value + TotalOf(children - {k})
  }

  /** Series by series, the values are the weights. */
  lemma {:induction false} TotalOfIsWeight(children: map<Bytes, Sample>, landed: Landed)
    requires children.Keys == landed.Keys
    requires forall k :: k in children ==> children[k].value == Total(landed[k])
    ensures TotalOf(children) == TotalWeight(x => x, landed)
    decreases |children|
  {
    if children != map[] {
      var k :| k in children && TotalOf(children) == children[k].value + TotalOf(children - {k});
      TotalOfIsWeight(children - {k}, landed - {k});
      TotalWithout(x => x, landed, k);
    }
  }

  function TotalHits(h: seq<Hit>): real {
    WeightOf(x => x, h)
  }

  /** The values of all series of a counter, folded or not, add up to everything
      it ever accepted. */
  lemma CounterTotals(c: Counter)
    requires c.Valid()
    ensures TotalOf(c.children) == TotalHits(c.hits)
  {
    TotalOfIsWeight(c.children, c.landed);
    TotalsSurviveFolding(LabelKey(c.overflow), x => x, c.hits);
  }

  // ----- the histogram -----

  function SearchFrom(buckets: seq<real>, v: real, i: nat): (r: nat)
    requires i <= |buckets|
    ensures i <= r <= |buckets| && (r < |buckets| ==> buckets[r] >= v)
    ensures forall j :: i <= j < r ==> buckets[j] < v
    decreases |buckets| - i
  {
    if i == |buckets| || buckets[i] >= v then i else SearchFrom(buckets, v, i + 1)
  }

  /** The smallest bound that is not below `v`; their number if there is none. */
  function FirstAtLeast(buckets: seq<real>, v: real): (i: nat)
    ensures i <= |buckets| && (i < |buckets| ==> buckets[i] >= v)
    ensures forall j :: 0 <= j < i ==> buckets[j] < v
  {
    SearchFrom(buckets, v, 0)
  }

  predicate StrictBounds(b: seq<real>) {
    forall i, j :: 0 <= i < j < |b| ==> b[i] < b[j]
  }

  /** How many values fall into bucket `i` alone. */
  function InBucket(buckets: seq<real>, s: seq<real>, i: nat): nat {
    if s == [] then 0
    else InBucket(buckets, Front(s), i) + (if FirstAtLeast(buckets, Last(s)) == i then 1 else 0)
  }

  function AtMost(s: seq<real>, le: real): nat {
    if s == [] then 0 else AtMost(Front(s), le) + (if Last(s) <= le then 1 else 0)
  }

  function Running(buckets: seq<real>, s: seq<real>, n: nat): nat {
    if n == 0 then 0 else Running(buckets, s, n - 1) + InBucket(buckets, s, n - 1)
  }

  lemma {:induction false} RunningSnoc(buckets: seq<real>, s: seq<real>, n: nat)
    requires s != []
    ensures Running(buckets, s, n)
         == Running(buckets, Front(s), n) + (if FirstAtLeast(buckets, Last(s)) < n then 1 else 0)
  {
    if n > 0 {
      RunningSnoc(buckets, s, n - 1);
    }
  }

  lemma {:induction false} RunningNone(buckets: seq<real>, n: nat)
    ensures Running(buckets, [], n) == 0
  {
    if n > 0 {
      RunningNone(buckets, n - 1);
    }
  }

  /** Added up, the buckets up to a bound count the values that do not exceed
      it. */
  lemma {:induction false} CumulativeExact(buckets: seq<real>, s: seq<real>, i: nat)
    requires StrictBounds(buckets) && i < |buckets|
    ensures Running(buckets, s, i + 1) == AtMost(s, buckets[i])
  {
    if s != [] {
      CumulativeExact(buckets, Front(s), i);
      RunningSnoc(buckets, s, i + 1);
    } else {
      RunningNone(buckets, i + 1);
    }
  }

  /** One label set of a histogram. */
  class HistogramSeries {
    const buckets: seq<real>
    var counts: seq<nat>
    var sum: real
    var count: nat
    ghost var values: seq<real>

    ghost predicate Valid()
      reads this
    {
      && StrictBounds(buckets) && |counts| == |buckets| + 1
      && (forall i :: 0 <= i < |counts| ==> counts[i] == InBucket(buckets, values, i))
      && sum == Total(values) && count == |values|
    }

    constructor (bounds: seq<real>)
      requires StrictBounds(bounds)
      ensures Valid() && buckets == bounds && values == []
    {
      buckets, counts := bounds, seq(|bounds| + 1, _ => 0);
      sum, count, values := 0.0, 0, [];
    }

    method Observe(v: Num)
      requires Valid()
      modifies this
      ensures Valid() && values == old(values) + (if v.Finite? then [v.x] else [])
    {
      if v.NaN? {
        assert values == old(values) + [];
        return;
      }
      var i := FirstAtLeast(buckets, v.x);
      assert Front(values + [v.x]) == values;
      counts := counts[i := counts[i] + 1];
      sum, count, values := sum + v.x, count + 1, values + [v.x];
    }

    /** The cumulative buckets: each bound with the number of values that do not
        exceed it, then the number of all values. */
    method Snapshot() returns (cumulative: seq<nat>, total: real, n: nat)
      requires Valid()
      ensures |cumulative| == |buckets| + 1
      ensures forall i :: 0 <= i < |buckets| ==> cumulative[i] == AtMost(values, buckets[i])
      ensures cumulative[|buckets|] == n == |values| && total == Total(values)
    {
      cumulative := [];
      var running: nat := 0;
      for i := 0 to |buckets|
        invariant |cumulative| == i && running == Running(buckets, values, i)
        invariant forall j :: 0 <= j < i ==> cumulative[j] == AtMost(values, buckets[j])
      {
        CumulativeExact(buckets, values, i);
        running := running + counts[i];
        cumulative := cumulative + [running];
      }
      cumulative, total, n := cumulative + [count], sum, count;
    }
  }

  // ----- bucket bounds -----

  datatype Bound = NotANumber | PosInf | At(x: real)

  function Placed(b: seq<real>, x: real): seq<real> {
    if b == [] || Last(b) <= x then b + [x] else Placed(Front(b), x) + [Last(b)]
  }

  function SortedReals(b: seq<real>): seq<real> {
    if b == [] then [] else Placed(SortedReals(Front(b)), Last(b))
  }

  predicate AscendingBounds(b: seq<real>) {
    forall i, j :: 0 <= i < j < |b| ==> b[i] <= b[j]
  }

  predicate Below(b: seq<real>, top: real) {
    forall i :: 0 <= i < |b| ==> b[i] <= top
  }

  lemma {:induction false} PlacedBelow(b: seq<real>, x: real, top: real)
    requires Below(b, top) && x <= top
    ensures Below(Placed(b, x), top)
  {
    if b != [] && Last(b) > x {
      PlacedBelow(Front(b), x, top);
    }
  }

  lemma {:induction false} PlacedAscending(b: seq<real>, x: real)
    requires AscendingBounds(b)
    ensures AscendingBounds(Placed(b, x))
  {
    if b != [] && Last(b) > x {
      PlacedAscending(Front(b), x);
      PlacedBelow(Front(b), x, Last(b));
    }
  }

  lemma {:induction false} PlacedMembers(b: seq<real>, x: real, y: real)
    ensures y in Placed(b, x) <==> y == x || y in b
  {
    if b != [] {
      assert y in b <==> y in Front(b) || y == Last(b);
      if Last(b) > x {
        PlacedMembers(Front(b), x, y);
      }
    }
  }

  lemma {:induction false} SortedRealsAscending(b: seq<real>)
    ensures AscendingBounds(SortedReals(b))
  {
    if b != [] {
      SortedRealsAscending(Front(b));
      PlacedAscending(SortedReals(Front(b)), Last(b));
    }
  }

  lemma {:induction false} SortedRealsMembers(b: seq<real>, y: real)
    ensures y in SortedReals(b) <==> y in b
  {
    if b != [] {
      SortedRealsMembers(Front(b), y);
      PlacedMembers(SortedReals(Front(b)), Last(b), y);
      assert y in b <==> y in Front(b) || y == Last(b);
    }
  }

  method Compact(s: seq<real>) returns (kept: seq<real>)
    requires AscendingBounds(s)
    ensures StrictBounds(kept) && forall y :: y in kept <==> y in s
  {
    kept := [];
    for i := 0 to |s|
      invariant StrictBounds(kept) && forall y :: y in kept <==> y in s[..i]
      invariant i > 0 ==> kept != [] && Last(kept) == s[i - 1]
    {
      if i == 0 || s[i] != s[i - 1] {
        forall j | 0 <= j < |kept| ensures kept[j] < s[i] {
          assert kept[j] in kept && kept[j] in s[..i];
        }
        kept := kept + [s[i]];
      }
    }
  }

  /** Bounds come out strictly ascending, and they are the finite ones given. */
  method NormalizeBuckets(bs: seq<Bound>) returns (kept: seq<real>)
    ensures StrictBounds(kept)
    ensures forall y :: y in kept <==> At(y) in bs
  {
    var out: seq<real> := [];
    for i := 0 to |bs|
      invariant forall y :: y in out <==> At(y) in bs[..i]
    {
      if bs[i].At? {
        out := out + [bs[i].x];
      }
    }
    SortedRealsAscending(out);
    forall y ensures y in SortedReals(out) <==> y in out {
      SortedRealsMembers(out, y);
    }
    kept := Compact(SortedReals(out));
  }
}
