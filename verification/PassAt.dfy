/** The pass@k estimator of `rl/group.go`, over exact reals, against the
    fraction of k-subsets of the samples that contain a success. */
module PassAt {
  datatype FailureKind = Success | OtherFailure(name: string)

  /** A sample slot; a slot that was never filled is `Missing`. */
  datatype Sample = Missing | Episode(failure: FailureKind, reward: real)

  predicate Won(ep: Sample) {
    ep.Episode? && ep.failure.Success?
  }

  function WinsIn(eps: seq<Sample>): nat {
    if eps == [] then 0
    else WinsIn(eps[..|eps| - 1]) + if Won(eps[|eps| - 1]) then 1 else 0
  }

  method Successes(eps: seq<Sample>) returns (c: nat)
    ensures c == WinsIn(eps) && c <= |eps|
  {
    c := 0;
    var i := 0;
    while i < |eps|
      invariant 0 <= i <= |eps| && c == WinsIn(eps[..i]) && c <= i
    {
      assert eps[..i + 1][..i] == eps[..i];
      if Won(eps[i]) {
        c := c + 1;
      }
      i := i + 1;
    }
    assert eps[..i] == eps;
  }

  // ----- subsets of the samples -----

  function Indices(n: nat): (s: set<nat>)
    ensures forall x: nat :: x in s <==> x < n
  {
    if n == 0 then {} else Indices(n - 1) + {n - 1}
  }

  /** The sets of `k` sample indices below `n`. */
  ghost function Subsets(n: nat, k: nat): set<set<nat>> {
    set s: set<nat> | s <= Indices(n) && |s| == k
  }

  ghost predicate NoneWon(eps: seq<Sample>, s: set<nat>) {
    forall x :: x in s && x < |eps| ==> !Won(eps[x])
  }

  /** The subsets of which no sample succeeded. */
  ghost function Losing(eps: seq<Sample>, k: nat): set<set<nat>> {
    set s | s in Subsets(|eps|, k) && NoneWon(eps, s)
  }

  // ----- counting -----

  function Choose(n: nat, k: nat): nat {
    if k == 0 then 1 else if n == 0 then 0 else Choose(n - 1, k) + Choose(n - 1, k - 1)
  }

  /** Each set of the family, with `x` added. */
  ghost function With(family: set<set<nat>>, x: nat): set<set<nat>> {
    set s | s in family :: s + {x}
  }

  ghost predicate Excludes(family: set<set<nat>>, x: nat) {
    forall s :: s in family ==> x !in s
  }

  lemma WithMember(family: set<set<nat>>, x: nat, t: set<nat>)
    requires Excludes(family, x)
    ensures t in With(family, x) <==> x in t && t - {x} in family
  {
    if t in With(family, x) {
      var s :| s in family && s + {x} == t;
      assert t - {x} == s;
    }
    if x in t {
      assert (t - {x}) + {x} == t;
    }
  }

  lemma WithOneMore(rest: set<set<nat>>, s: set<nat>, x: nat)
    requires Excludes(rest, x) && x !in s && s !in rest
    ensures |With(rest + {s}, x)| == |With(rest, x)| + 1
  {
    forall t
      ensures t in With(rest + {s}, x) <==> t in With(rest, x) + {s + {x}}
    {
      WithMember(rest + {s}, x, t);
      WithMember(rest, x, t);
      assert t == s + {x} <==> x in t && t - {x} == s;
    }
    WithMember(rest, x, s + {x});
    assert (s + {x}) - {x} == s;
    assert With(rest + {s}, x) == With(rest, x) + {s + {x}};
  }

  lemma {:induction false} WithCount(family: set<set<nat>>, x: nat)
    requires Excludes(family, x)
    ensures |With(family, x)| == |family|
  {
    if family != {} {
      var s :| s in family;
      var rest := family - {s};
      WithCount(rest, x);
      WithOneMore(rest, s, x);
      assert family == rest + {s};
    }
  }

  /** A family over smaller indices, and one with a new index in every set. */
  lemma UnionCount(family: set<set<nat>>, other: set<set<nat>>, x: nat)
    requires Excludes(family, x) && Excludes(other, x)
    ensures |family + With(other, x)| == |family| + |other|
  {
    WithCount(other, x);
    forall t | t in With(other, x)
      ensures t !in family
    {
      WithMember(other, x, t);
    }
    assert family !! With(other, x);
  }

  lemma SubsetsExclude(n: nat, k: nat)
    ensures Excludes(Subsets(n, k), n)
  {
  }

  /** A set of indices up to `n` either leaves `n` out or adds it to a smaller one. */
  lemma SplitAt(n: nat, k: nat, s: set<nat>)
    requires k > 0
    ensures s in Subsets(n + 1, k) <==> if n in s then s - {n} in Subsets(n, k - 1) else s in Subsets(n, k)
  {
    if n in s {
      assert s == (s - {n}) + {n};
      assert |s| == |s - {n}| + 1;
      assert s <= Indices(n + 1) <==> s - {n} <= Indices(n);
    } else {
      assert s <= Indices(n + 1) <==> s <= Indices(n);
    }
  }

  lemma SubsetsStep(n: nat, k: nat)
    requires k > 0
    ensures |Subsets(n + 1, k)| == |Subsets(n, k)| + |Subsets(n, k - 1)|
  {
    var same, fewer := Subsets(n, k), Subsets(n, k - 1);
    SubsetsExclude(n, k);
    SubsetsExclude(n, k - 1);
    var right := same + With(fewer, n);
    forall s
      ensures s in Subsets(n + 1, k) <==> s in right
    {
      SplitAt(n, k, s);
      WithMember(fewer, n, s);
    }
    assert Subsets(n + 1, k) == right;
    UnionCount(same, fewer, n);
  }

  lemma OnlyEmpty(s: set<nat>)
    requires s <= Indices(0)
    ensures s == {}
  {
  }

  lemma SubsetsOfEmpty(k: nat)
    requires k > 0
    ensures Subsets(0, k) == {} && |Subsets(0, k)| == 0
  {
    forall s: set<nat>
      ensures s !in Subsets(0, k)
    {
      if s <= Indices(0) {
        OnlyEmpty(s);
      }
    }
  }

  lemma SubsetsOfNone(n: nat)
    ensures Subsets(n, 0) == {{}} && |Subsets(n, 0)| == 1
  {
    forall s: set<nat>
      ensures s in Subsets(n, 0) <==> s in {{}}
    {
      assert |s| == 0 <==> s == {};
    }
  }

  lemma {:induction false} SubsetsCount(n: nat, k: nat)
    ensures |Subsets(n, k)| == Choose(n, k)
  {
    if k == 0 {
      SubsetsOfNone(n);
    } else if n == 0 {
      SubsetsOfEmpty(k);
    } else {
      SubsetsStep(n - 1, k);
      SubsetsCount(n - 1, k);
      SubsetsCount(n - 1, k - 1);
    }
  }

  lemma NoneWonSplit(eps: seq<Sample>, s: set<nat>)
    requires eps != []
    ensures var n := |eps| - 1;
            NoneWon(eps, s) <==> NoneWon(eps[..n], s - {n}) && (n in s ==> !Won(eps[n]))
  {
    var n := |eps| - 1;
    assert forall x :: 0 <= x < n ==> eps[..n][x] == eps[x];
  }

  /** The last sample either won, and is in no losing subset, or may join one. */
  lemma LosingStep(eps: seq<Sample>, k: nat, s: set<nat>)
    requires eps != [] && k > 0
    ensures var n := |eps| - 1;
            s in Losing(eps, k) <==>
            if n in s then !Won(eps[n]) && s - {n} in Losing(eps[..n], k - 1) else s in Losing(eps[..n], k)
  {
    var n := |eps| - 1;
    SplitAt(n, k, s);
    NoneWonSplit(eps, s);
    if n !in s {
      assert s - {n} == s;
    }
  }

  lemma LosingCountStep(eps: seq<Sample>, k: nat)
    requires eps != [] && k > 0
    ensures var n := |eps| - 1;
            |Losing(eps, k)| == |Losing(eps[..n], k)| + if Won(eps[n]) then 0 else |Losing(eps[..n], k - 1)|
  {
    var n := |eps| - 1;
    var same, fewer := Losing(eps[..n], k), Losing(eps[..n], k - 1);
    SubsetsExclude(n, k);
    SubsetsExclude(n, k - 1);
    var right := if Won(eps[n]) then same else same + With(fewer, n);
    forall s
      ensures s in Losing(eps, k) <==> s in right
    {
      LosingStep(eps, k, s);
      WithMember(fewer, n, s);
    }
    assert Losing(eps, k) == right;
    UnionCount(same, fewer, n);
  }

  lemma LosingEdge(eps: seq<Sample>, k: nat)
    requires k == 0 || eps == []
    ensures |Losing(eps, k)| == if k == 0 then 1 else 0
  {
    if k == 0 {
      SubsetsOfNone(|eps|);
      assert Losing(eps, 0) == {{}};
    } else {
      SubsetsOfEmpty(k);
      assert Losing(eps, k) == {};
    }
  }

  lemma {:induction false} WinsBounded(eps: seq<Sample>)
    ensures WinsIn(eps) <= |eps|
  {
    if eps != [] {
      WinsBounded(eps[..|eps| - 1]);
    }
  }

  lemma {:induction false} LosingCount(eps: seq<Sample>, k: nat)
    ensures WinsIn(eps) <= |eps| && |Losing(eps, k)| == Choose(|eps| - WinsIn(eps), k)
  {
    WinsBounded(eps);
    if k == 0 || eps == [] {
      LosingEdge(eps, k);
    } else {
      var front := eps[..|eps| - 1];
      LosingCountStep(eps, k);
      LosingCount(front, k);
      LosingCount(front, k - 1);
    }
  }

  // ----- binomials -----

  lemma {:induction false} ChooseBelow(n: nat, k: nat)
    ensures k > n ==> Choose(n, k) == 0
    ensures k <= n ==> Choose(n, k) > 0
  {
    if n > 0 && k > 0 {
      ChooseBelow(n - 1, k);
      ChooseBelow(n - 1, k - 1);
    }
  }

  lemma PascalAlgebra(a: int, b: int, c: int, n: int, k: int)
    requires a * (k + 1) == b * (n - 1 - k) && b * k == c * (n - k)
    ensures (a + b) * (k + 1) == (b + c) * (n - k)
  {
    assert (a + b) * (k + 1) == a * (k + 1) + b * k + b;
    assert (b + c) * (n - k) == b * (n - 1 - k) + b + c * (n - k);
  }

  /** (k+1) C(n, k+1) == (n-k) C(n, k). */
  lemma {:induction false} ChooseStep(n: nat, k: nat)
    ensures Choose(n, k + 1) * (k + 1) == Choose(n, k) * (n - k)
  {
    if n == 0 {
      ChooseBelow(0, k + 1);
      ChooseBelow(0, k);
      if k == 0 {
        assert Choose(0, 1) == 0;
      }
    } else if k == 0 {
      ChooseStep(n - 1, 0);
      assert Choose(n, 1) == Choose(n - 1, 1) + Choose(n - 1, 0);
    } else {
      ChooseStep(n - 1, k);
      ChooseStep(n - 1, k - 1);
      PascalAlgebra(Choose(n - 1, k + 1), Choose(n - 1, k), Choose(n - 1, k - 1), n, k);
    }
  }

  // ----- ratios -----

  /** `a / b`, over exact reals. */
  function Ratio(a: int, b: int): real {
    if b == 0 then 0.0 else a as real / b as real
  }

  lemma RatioIs(a: int, b: int, q: real)
    requires b != 0 && q * b as real == a as real
    ensures Ratio(a, b) == q
  {
    var r := Ratio(a, b);
    assert r * b as real == a as real;
    assert (r - q) * b as real == 0.0;
  }

  lemma RatioTimes(a: int, b: int)
    requires b != 0
    ensures Ratio(a, b) * b as real == a as real
  {
  }

  lemma RatioComplement(lost: int, all: int)
    requires all != 0
    ensures Ratio(all - lost, all) == 1.0 - Ratio(lost, all)
  {
    RatioTimes(lost, all);
    var q := 1.0 - Ratio(lost, all);
    assert q * all as real == all as real - Ratio(lost, all) * all as real;
    RatioIs(all - lost, all, q);
  }

  lemma AsRealTimes(a: int, b: int)
    ensures (a * b) as real == a as real * b as real
  {
  }

  lemma ProductStep(p: real, q: real, a: real, b: real, c: real, d: real, x: real, y: real, k: real)
    requires p * b == a && q * y == x && k != 0.0
    requires c * k == a * x && d * k == b * y
    ensures (p * q) * d == c
  {
    assert (p * q) * (b * y) == (p * b) * (q * y);
    assert ((p * q) * d) * k == (p * q) * (d * k);
    assert ((p * q) * d - c) * k == 0.0;
  }

  /** Ratios whose terms grow by the factors x and y. */
  lemma RatioStep(a: int, b: int, c: int, d: int, x: int, y: int, k: int)
    requires b != 0 && d != 0 && y != 0 && k != 0
    requires c * k == a * x && d * k == b * y
    ensures Ratio(c, d) == Ratio(a, b) * Ratio(x, y)
  {
    RatioTimes(a, b);
    RatioTimes(x, y);
    AsRealTimes(c, k);
    AsRealTimes(a, x);
    AsRealTimes(d, k);
    AsRealTimes(b, y);
    ProductStep(Ratio(a, b), Ratio(x, y), a as real, b as real, c as real, d as real, x as real, y as real, k as real);
    RatioIs(c, d, Ratio(a, b) * Ratio(x, y));
  }

  lemma RatioUnit(a: int, b: int)
    requires 0 <= a <= b && b > 0
    ensures 0.0 <= Ratio(a, b) <= 1.0
  {
  }

  lemma RatioMonotone(a: int, b: int, d: int)
    requires a <= b && d > 0
    ensures Ratio(a, d) <= Ratio(b, d)
  {
  }

  lemma ScaleDown(r: real, q: real, p: real)
    requires p == r * q && r >= 0.0 && (q <= 1.0 || r == 0.0)
    ensures p <= r
  {
    if r != 0.0 {
      assert r - p == r * (1.0 - q);
    }
  }

  // ----- the estimator -----

  /** The share of the k-subsets of the samples that contain a success. */
  ghost function SuccessShare(eps: seq<Sample>, k: nat): real {
    Ratio(|Subsets(|eps|, k) - Losing(eps, k)|, |Subsets(|eps|, k)|)
  }

  /** The ratio the running product holds after `i` factors. */
  function LossRatio(failures: nat, n: nat, i: nat): real {
    Ratio(Choose(failures, i), Choose(n, i))
  }

  lemma DifferenceCount(all: set<set<nat>>, part: set<set<nat>>)
    requires part <= all
    ensures |all - part| == |all| - |part|
  {
    assert all == part + (all - part);
  }

  lemma ShareAsBinomials(eps: seq<Sample>, k: nat)
    requires k <= |eps|
    ensures WinsIn(eps) <= |eps|
    ensures SuccessShare(eps, k) == 1.0 - LossRatio(|eps| - WinsIn(eps), |eps|, k)
  {
    SubsetsCount(|eps|, k);
    ChooseBelow(|eps|, k);
    LosingCount(eps, k);
    DifferenceCount(Subsets(|eps|, k), Losing(eps, k));
    RatioComplement(|Losing(eps, k)|, |Subsets(|eps|, k)|);
  }

  lemma LossRatioStep(failures: nat, n: nat, i: nat)
    requires i < n
    ensures LossRatio(failures, n, i + 1) == LossRatio(failures, n, i) * Ratio(failures - i, n - i)
  {
    ChooseBelow(n, i);
    ChooseBelow(n, i + 1);
    ChooseStep(failures, i);
    ChooseStep(n, i);
    RatioStep(Choose(failures, i), Choose(n, i), Choose(failures, i + 1), Choose(n, i + 1), failures - i, n - i, i + 1);
  }

  /** The running product. */
  method LossProduct(failures: nat, n: nat, k: nat) returns (p: real)
    requires k <= n
    ensures p == LossRatio(failures, n, k)
  {
    p := 1.0;
    var i := 0;
    while i < k
      invariant 0 <= i <= k && p == LossRatio(failures, n, i)
    {
      LossRatioStep(failures, n, i);
      p := p * Ratio(failures - i, n - i);
      i := i + 1;
    }
  }

  /** The estimate is the share, exactly, for every k; 0 outside 1..n. */
  method PassAt(eps: seq<Sample>, k: int) returns (p: real)
    ensures p == if 0 < k <= |eps| then SuccessShare(eps, k) else 0.0
  {
    var n := |eps|;
    var c := Successes(eps);
    if k <= 0 || k > n {
      return 0.0;
    }
    ShareAsBinomials(eps, k);
    if n - c < k {
      ChooseBelow(n - c, k);
      return 1.0;
    }
    var q := LossProduct(n - c, n, k);
    p := 1.0 - q;
  }

  // ----- laws -----

  /** The estimate is a probability. */
  lemma ShareInUnit(eps: seq<Sample>, k: nat)
    requires k <= |eps|
    ensures 0.0 <= SuccessShare(eps, k) <= 1.0
  {
    SubsetsCount(|eps|, k);
    ChooseBelow(|eps|, k);
    DifferenceCount(Subsets(|eps|, k), Losing(eps, k));
    RatioUnit(|Subsets(|eps|, k) - Losing(eps, k)|, |Subsets(|eps|, k)|);
  }

  lemma LossRatioEnds(f: nat, n: nat, k: nat)
    requires k <= n
    ensures f < k ==> LossRatio(f, n, k) == 0.0
    ensures f == n ==> LossRatio(f, n, k) == 1.0
  {
    ChooseBelow(n, k);
    ChooseBelow(f, k);
    RatioIs(0, Choose(n, k), 0.0);
    RatioIs(Choose(n, k), Choose(n, k), 1.0);
  }

  /** It is 1 when fewer than k samples failed and 0 when all did. */
  lemma ShareExtremes(eps: seq<Sample>, k: nat)
    requires k <= |eps|
    ensures |eps| - WinsIn(eps) < k ==> SuccessShare(eps, k) == 1.0
    ensures WinsIn(eps) == 0 ==> SuccessShare(eps, k) == 0.0
  {
    ShareAsBinomials(eps, k);
    LossRatioEnds(|eps| - WinsIn(eps), |eps|, k);
  }

  lemma LossRatioFalls(f: nat, n: nat, k: nat)
    requires f <= n && k < n
    ensures LossRatio(f, n, k + 1) <= LossRatio(f, n, k)
  {
    LossRatioStep(f, n, k);
    ChooseBelow(n, k);
    ChooseBelow(f, k);
    RatioMonotone(0, Choose(f, k), Choose(n, k));
    RatioMonotone(f - k, n - k, n - k);
    var r, q := LossRatio(f, n, k), Ratio(f - k, n - k);
    assert q <= 1.0 by { RatioIs(n - k, n - k, 1.0); }
    assert r >= 0.0 by { RatioIs(0, Choose(n, k), 0.0); }
    ScaleDown(r, q, LossRatio(f, n, k + 1));
  }

  /** More draws never lower the estimate. */
  lemma ShareMonotoneInK(eps: seq<Sample>, k: nat)
    requires k < |eps|
    ensures SuccessShare(eps, k) <= SuccessShare(eps, k + 1)
  {
    ShareAsBinomials(eps, k);
    ShareAsBinomials(eps, k + 1);
    LossRatioFalls(|eps| - WinsIn(eps), |eps|, k);
  }

  lemma {:induction false} ChooseMonotone(a: nat, b: nat, k: nat)
    requires a <= b
    ensures Choose(a, k) <= Choose(b, k)
  {
    if a < b {
      ChooseMonotone(a, b - 1, k);
    }
  }

  /** Nor do more wins, wherever they are. */
  lemma ShareMonotoneInWins(eps: seq<Sample>, better: seq<Sample>, k: nat)
    requires k <= |eps| == |better| && WinsIn(eps) <= WinsIn(better)
    ensures SuccessShare(eps, k) <= SuccessShare(better, k)
  {
    var n := |eps|;
    ShareAsBinomials(eps, k);
    ShareAsBinomials(better, k);
    ChooseMonotone(n - WinsIn(better), n - WinsIn(eps), k);
    ChooseBelow(n, k);
    RatioMonotone(Choose(n - WinsIn(better), k), Choose(n - WinsIn(eps), k), Choose(n, k));
  }
}
