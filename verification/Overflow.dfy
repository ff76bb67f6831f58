/** Recovery from a request the provider rejects as too large (`overflow.go`):
    climb a ladder of strategies, never down again for the rest of the run. */
module Overflow {
  import opened Llm
  import opened Convo
  import opened Strategy
  import opened Compose

  /** What one completed call did: the transcripts sent, in order, and the level
      it leaves behind. */
  datatype Attempts = Attempts(sent: seq<Transcript>, level: nat)

  /** The transcript at a level; level 0 is the one the agent produced. */
  function AtLevel(ladder: seq<Strategy>, level: nat, original: Transcript, infos: Infos): Transcript {
    if level == 0 || level > |ladder| then original else Apply(ladder[level - 1], original, infos)
  }

  /** The first rung from `l` on that is shorter than `size`, or 0. */
  function NextRung(ladder: seq<Strategy>, l: nat, size: nat, original: Transcript, infos: Infos): nat
    requires l > 0
    decreases |ladder| + 1 - l
  {
    if l > |ladder| then 0
    else if |AtLevel(ladder, l, original, infos)| < size then l
    else NextRung(ladder, l + 1, size, original, infos)
  }

  lemma {:induction false} NextRungLeast(ladder: seq<Strategy>, l: nat, size: nat, original: Transcript, infos: Infos)
    requires l > 0
    ensures var r := NextRung(ladder, l, size, original, infos);
            && (r != 0 ==> l <= r <= |ladder| && |AtLevel(ladder, r, original, infos)| < size)
            && forall k :: l <= k <= |ladder| && (r == 0 || k < r) ==> |AtLevel(ladder, k, original, infos)| >= size
    decreases |ladder| + 1 - l
  {
    if l <= |ladder| && |AtLevel(ladder, l, original, infos)| >= size {
      NextRungLeast(ladder, l + 1, size, original, infos);
    }
  }

  /** How far up the ladder there is left to climb. */
  function Headroom(ladder: seq<Strategy>, level: nat): nat {
    if level > |ladder| then 0 else |ladder| - level
  }

  /** One logical call, from attempt `k` on: `tooBig` says which attempts the
      provider rejects for their size. */
  function Complete(ladder: seq<Strategy>, level: nat, original: Transcript, infos: Infos, tooBig: nat -> bool, k: nat): Attempts
    decreases Headroom(ladder, level)
  {
    var current := AtLevel(ladder, level, original, infos);
    if !tooBig(k) then Attempts([current], level)
    else
      NextRungLeast(ladder, level + 1, |current|, original, infos);
      var next := NextRung(ladder, level + 1, |current|, original, infos);
      if next == 0 then Attempts([current], level)
      else
        var rest := Complete(ladder, next, original, infos, tooBig, k + 1);
        Attempts([current] + rest.sent, rest.level)
  }

  ghost function After(sent: seq<Transcript>, rest: Attempts): Attempts {
    Attempts(sent + rest.sent, rest.level)
  }

  lemma AfterStep(sent: seq<Transcript>, current: Transcript, rest: Attempts)
    ensures After(sent, Attempts([current] + rest.sent, rest.level)) == After(sent + [current], rest)
  {
    assert sent + ([current] + rest.sent) == sent + [current] + rest.sent;
  }

  /** The first rung from `from` on whose output is shorter than `size`, or 0. */
  method FindRung(ladder: seq<Strategy>, from: nat, size: nat, original: Transcript, infos: Infos) returns (rung: nat)
    requires from > 0
    ensures rung == NextRung(ladder, from, size, original, infos)
    ensures rung != 0 ==> from <= rung <= |ladder|
  {
    rung := from;
    while rung <= |ladder|
      invariant from <= rung
      invariant NextRung(ladder, rung, size, original, infos) == NextRung(ladder, from, size, original, infos)
    {
      var shrunk := Materialize(ladder[rung - 1], original, infos);
      if |shrunk| < size {
        return;
      }
      rung := rung + 1;
    }
    rung := 0;
  }

  /** The level a run has needed so far. */
  class OverflowState {
    var n: nat

    constructor ()
      ensures n == 0
    {
      n := 0;
    }

    method Raise(to: nat)
      modifies this
      ensures n == if to > old(n) then to else old(n)
    {
      if to > n {
        n := to;
      }
    }

    /** The retry loop. */
    method Call(ladder: seq<Strategy>, original: Transcript, infos: Infos, tooBig: nat -> bool) returns (sent: seq<Transcript>)
      modifies this
      ensures Attempts(sent, n) == Complete(ladder, old(n), original, infos, tooBig, 0)
    {
      sent := [];
      var k := 0;
      while true
        invariant Complete(ladder, old(n), original, infos, tooBig, 0) ==
                  After(sent, Complete(ladder, n, original, infos, tooBig, k))
        decreases Headroom(ladder, n)
      {
        var current := AtLevel(ladder, n, original, infos);
        ghost var before := sent;
        sent := sent + [current];
        if !tooBig(k) {
          return;
        }
        var next := FindRung(ladder, n + 1, |current|, original, infos);
        if next == 0 {
          return;
        }
        Raise(next);
        k := k + 1;
        AfterStep(before, current, Complete(ladder, n, original, infos, tooBig, k));
      }
    }
  }

  // ----- laws -----

  /** One call makes at most one attempt more than there are rungs left, and one
      attempt more than the levels it climbs; the level never falls. */
  lemma {:induction false} CallsBounded(ladder: seq<Strategy>, level: nat, original: Transcript, infos: Infos, tooBig: nat -> bool, k: nat)
    ensures var r := Complete(ladder, level, original, infos, tooBig, k);
            && 1 <= |r.sent| <= Headroom(ladder, level) + 1
            && |r.sent| <= r.level - level + 1
            && level <= r.level && (level <= |ladder| ==> r.level <= |ladder|)
    decreases Headroom(ladder, level)
  {
    var size := |AtLevel(ladder, level, original, infos)|;
    NextRungLeast(ladder, level + 1, size, original, infos);
    var next := NextRung(ladder, level + 1, size, original, infos);
    if tooBig(k) && next != 0 {
      CallsBounded(ladder, next, original, infos, tooBig, k + 1);
    }
  }

  /** Levels rise and transcripts shrink. */
  ghost predicate Descends(sent: seq<Transcript>, levels: seq<nat>) {
    && |sent| == |levels|
    && forall i, j :: 0 <= i < j < |sent| ==> levels[i] < levels[j] && |sent[j]| < |sent[i]|
  }

  lemma DescendsCons(first: Transcript, level: nat, sent: seq<Transcript>, levels: seq<nat>)
    requires Descends(sent, levels) && sent != []
    requires level < levels[0] && |sent[0]| < |first|
    ensures Descends([first] + sent, [level] + levels)
  {
    var s, l := [first] + sent, [level] + levels;
    forall i, j | 0 <= i < j < |s|
      ensures l[i] < l[j] && |s[j]| < |s[i]|
    {
      assert s[j] == sent[j - 1] && l[j] == levels[j - 1];
      if i == 0 {
        assert j > 1 ==> levels[0] < levels[j - 1] && |sent[j - 1]| < |sent[0]|;
      } else {
        assert s[i] == sent[i - 1] && l[i] == levels[i - 1];
      }
    }
  }

  /** No rung strictly between two levels shortens a transcript of `size`. */
  ghost predicate Skippable(ladder: seq<Strategy>, lo: nat, hi: nat, size: nat, original: Transcript, infos: Infos) {
    forall r :: 0 <= r < |ladder| && lo <= r && r + 1 < hi ==> |Apply(ladder[r], original, infos)| >= size
  }

  lemma NextRungSkips(ladder: seq<Strategy>, level: nat, size: nat, original: Transcript, infos: Infos)
    ensures var next := NextRung(ladder, level + 1, size, original, infos);
            Skippable(ladder, level, if next == 0 then |ladder| + 1 else next, size, original, infos)
  {
    NextRungLeast(ladder, level + 1, size, original, infos);
    var next := NextRung(ladder, level + 1, size, original, infos);
    forall r | 0 <= r < |ladder| && level <= r && (next == 0 || r + 1 < next)
      ensures |Apply(ladder[r], original, infos)| >= size
    {
      assert AtLevel(ladder, r + 1, original, infos) == Apply(ladder[r], original, infos);
    }
  }

  /** The transcript of an attempt at `level`. */
  ghost predicate Rung(ladder: seq<Strategy>, level: nat, original: Transcript, infos: Infos, sent: Transcript) {
    sent == if 0 < level <= |ladder| then Apply(ladder[level - 1], original, infos) else original
  }

  /** Each attempt is at the first rung that shortens the one before it. */
  ghost predicate Leaps(ladder: seq<Strategy>, original: Transcript, infos: Infos, sent: seq<Transcript>, levels: seq<nat>) {
    |sent| == |levels| &&
    forall i :: 0 < i < |sent| ==> Skippable(ladder, levels[i - 1], levels[i], |sent[i - 1]|, original, infos)
  }

  /** Attempt `i` of a call is the rung at `levels[i]` applied to the original,
      which is level 0; each is the first rung that shortens the transcript just
      rejected, and the call ends on an accepted attempt or on one that no rung
      left would shorten. */
  ghost predicate Climb(ladder: seq<Strategy>, original: Transcript, infos: Infos, tooBig: nat -> bool, k: nat,
                        sent: seq<Transcript>, levels: seq<nat>) {
    && |sent| == |levels| > 0
    && (forall i :: 0 <= i < |sent| ==> Rung(ladder, levels[i], original, infos, sent[i]))
    && Descends(sent, levels)
    && Leaps(ladder, original, infos, sent, levels)
    && (forall t :: k <= t < k + |sent| - 1 ==> tooBig(t))
    && (tooBig(k + |sent| - 1) ==> Skippable(ladder, Last(levels), |ladder| + 1, |Last(sent)|, original, infos))
  }

  lemma LastOfCons(level: nat, tail: seq<nat>)
    requires tail != []
    ensures Last([level] + tail) == Last(tail) && ([level] + tail)[0] == level
  {
  }

  lemma ClimbOnce(ladder: seq<Strategy>, original: Transcript, infos: Infos, tooBig: nat -> bool, k: nat, level: nat, t: Transcript)
    requires Rung(ladder, level, original, infos, t)
    requires tooBig(k) ==> Skippable(ladder, level, |ladder| + 1, |t|, original, infos)
    ensures Climb(ladder, original, infos, tooBig, k, [t], [level])
  {
  }

  lemma RungsCons(ladder: seq<Strategy>, original: Transcript, infos: Infos,
                  level: nat, first: Transcript, sent: seq<Transcript>, levels: seq<nat>)
    requires |sent| == |levels| && Rung(ladder, level, original, infos, first)
    requires forall i :: 0 <= i < |sent| ==> Rung(ladder, levels[i], original, infos, sent[i])
    ensures var s, l := [first] + sent, [level] + levels;
            forall i :: 0 <= i < |s| ==> Rung(ladder, l[i], original, infos, s[i])
  {
    var s, l := [first] + sent, [level] + levels;
    forall i | 0 <= i < |s|
      ensures Rung(ladder, l[i], original, infos, s[i])
    {
      assert i > 0 ==> s[i] == sent[i - 1] && l[i] == levels[i - 1];
    }
  }

  lemma LeapsCons(ladder: seq<Strategy>, original: Transcript, infos: Infos,
                  level: nat, first: Transcript, sent: seq<Transcript>, levels: seq<nat>)
    requires Leaps(ladder, original, infos, sent, levels) && sent != []
    requires Skippable(ladder, level, levels[0], |first|, original, infos)
    ensures Leaps(ladder, original, infos, [first] + sent, [level] + levels)
  {
    var s, l := [first] + sent, [level] + levels;
    forall i | 0 < i < |s|
      ensures Skippable(ladder, l[i - 1], l[i], |s[i - 1]|, original, infos)
    {
      assert s[i] == sent[i - 1] && l[i] == levels[i - 1];
      assert i > 1 ==> s[i - 1] == sent[i - 2] && l[i - 1] == levels[i - 2];
    }
  }

  lemma ClimbStep(ladder: seq<Strategy>, original: Transcript, infos: Infos, tooBig: nat -> bool, k: nat,
                  level: nat, first: Transcript, sent: seq<Transcript>, levels: seq<nat>)
    requires Climb(ladder, original, infos, tooBig, k + 1, sent, levels)
    requires Rung(ladder, level, original, infos, first)
    requires tooBig(k) && level < levels[0] && |sent[0]| < |first|
    requires Skippable(ladder, level, levels[0], |first|, original, infos)
    ensures Climb(ladder, original, infos, tooBig, k, [first] + sent, [level] + levels)
  {
    var s, l := [first] + sent, [level] + levels;
    DescendsCons(first, level, sent, levels);
    RungsCons(ladder, original, infos, level, first, sent, levels);
    LeapsCons(ladder, original, infos, level, first, sent, levels);
    assert Last(l) == Last(levels) && Last(s) == Last(sent);
    assert k + 1 + |sent| - 1 == k + |s| - 1;
  }

  lemma {:induction false} CompleteClimbs(ladder: seq<Strategy>, level: nat, original: Transcript, infos: Infos, tooBig: nat -> bool, k: nat)
    returns (levels: seq<nat>)
    ensures var r := Complete(ladder, level, original, infos, tooBig, k);
            && Climb(ladder, original, infos, tooBig, k, r.sent, levels)
            && levels[0] == level && Last(levels) == r.level
    decreases Headroom(ladder, level)
  {
    var current := AtLevel(ladder, level, original, infos);
    NextRungLeast(ladder, level + 1, |current|, original, infos);
    NextRungSkips(ladder, level, |current|, original, infos);
    var next := NextRung(ladder, level + 1, |current|, original, infos);
    if !tooBig(k) || next == 0 {
      levels := [level];
      ClimbOnce(ladder, original, infos, tooBig, k, level, current);
      assert Complete(ladder, level, original, infos, tooBig, k) == Attempts([current], level);
    } else {
      var rest := Complete(ladder, next, original, infos, tooBig, k + 1);
      var tail := CompleteClimbs(ladder, next, original, infos, tooBig, k + 1);
      levels := [level] + tail;
      ClimbStep(ladder, original, infos, tooBig, k, level, current, rest.sent, tail);
      LastOfCons(level, tail);
      assert Complete(ladder, level, original, infos, tooBig, k) == Attempts([current] + rest.sent, rest.level);
    }
  }

  /** What the rungs demand of a transcript, each on its own. */
  function RungNeed(ladder: seq<Strategy>): Need {
    if ladder == [] then Anything else Stronger(Demand(Last(ladder), Anything), RungNeed(Front(ladder)))
  }

  lemma {:induction false} RungDemand(ladder: seq<Strategy>, i: nat)
    requires i < |ladder|
    ensures Demand(ladder[i], Anything).Rank() <= RungNeed(ladder).Rank()
  {
    if i < |ladder| - 1 {
      RungDemand(Front(ladder), i);
    }
  }

  lemma {:induction false} RungNeedBelow(ladder: seq<Strategy>)
    ensures RungNeed(ladder) != Filled
  {
    if ladder != [] {
      RungNeedBelow(Front(ladder));
      DemandBelow(Last(ladder), Anything);
    }
  }

  lemma RungValid(ladder: seq<Strategy>, level: nat, original: Transcript, infos: Infos)
    requires Valid(original) && Shape(RungNeed(ladder), original)
    ensures Valid(AtLevel(ladder, level, original, infos))
  {
    if 0 < level <= |ladder| {
      RungDemand(ladder, level - 1);
      ShapeWeaken(RungNeed(ladder), Demand(ladder[level - 1], Anything), original);
      ApplyReady(ladder[level - 1], Anything, original, infos);
    }
  }

  /** Every attempt of a call is sendable. */
  lemma {:induction false} AttemptsValid(ladder: seq<Strategy>, level: nat, original: Transcript, infos: Infos, tooBig: nat -> bool, k: nat)
    requires Valid(original) && Shape(RungNeed(ladder), original)
    ensures forall i :: 0 <= i < |Complete(ladder, level, original, infos, tooBig, k).sent| ==>
                          Valid(Complete(ladder, level, original, infos, tooBig, k).sent[i])
    decreases Headroom(ladder, level)
  {
    var current := AtLevel(ladder, level, original, infos);
    RungValid(ladder, level, original, infos);
    NextRungLeast(ladder, level + 1, |current|, original, infos);
    var next := NextRung(ladder, level + 1, |current|, original, infos);
    if tooBig(k) && next != 0 {
      AttemptsValid(ladder, next, original, infos, tooBig, k + 1);
    }
  }
}
