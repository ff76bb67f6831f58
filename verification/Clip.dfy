/** Shortening a tool's output to a byte budget (tool/middleware.go). */
module Clip {
  import opened Utf8

  /** The smallest half worth keeping. */
  const MIN_CLIP_SIDE := 64

  /** The two notices, as functions of the numbers they print: bytes left out
      or shown, then the total. */
  datatype Wording = Wording(middle: (nat, nat) -> Bytes, head: (nat, nat) -> Bytes)

  ghost predicate Clean(w: Wording) {
    forall a: nat, b: nat :: ValidUtf8(w.middle(a, b)) && ValidUtf8(w.head(a, b))
  }

  const EM_DASH: Bytes := [0xE2, 0x80, 0x94]

  function Dashed(a: string, b: string): Bytes {
    Encode(a) + EM_DASH + Encode(b)
  }

  function Numbered(gap: Bytes, a: nat, of: Bytes, b: nat, end: Bytes): Bytes {
    gap + Decimal(a) + of + Decimal(b) + end
  }

  function MiddleNotice(omitted: nat, total: nat): Bytes {
    Numbered(Encode("\n\n[... "), omitted, Encode(" of "), total,
            Dashed(" bytes omitted from the middle ",
                   " what follows is the TAIL, not a continuation. Narrow the request to see between them ...]\n\n"))
  }

  function HeadNotice(shown: nat, total: nat): Bytes {
    Numbered(Encode("\n\n[truncated: showing the first "), shown, Encode(" of "), total, Encode(" bytes, "))
    + Decimal(if shown <= total then total - shown else 0)
    + Dashed(" omitted ", " narrow the request to see the rest]")
  }

  /** The notices the code prints. */
  function Shipped(): Wording {
    Wording(MiddleNotice, HeadNotice)
  }

  /** `s` with its bytes `h..t` replaced by a notice. */
  function Around(s: Bytes, h: nat, t: nat, notice: Bytes): (r: Bytes)
    requires h <= t <= |s|
    ensures |r| == h + |notice| + (|s| - t)
  {
    s[..h] + notice + s[t..]
  }

  /** Steps `i` forward to the nearest rune start. */
  function NextStart(s: Bytes, i: nat): (r: nat)
    requires i <= |s|
    ensures i <= r <= |s|
    ensures r == |s| || RuneStart(s[r])
    ensures forall j :: i <= j < r ==> !RuneStart(s[j])
    decreases |s| - i
  {
    if i < |s| && !RuneStart(s[i]) then NextStart(s, i + 1) else i
  }

  // ----- what a clipped string is -----

  /** `r` is the first `h` bytes of `s` and a notice that counts the rest. */
  predicate Front(w: Wording, s: Bytes, r: Bytes, h: nat) {
    h <= |s| && r == Around(s, h, |s|, w.head(h, |s|))
  }

  /** `r` is the first `h` bytes of `s`, a notice that counts what is missing,
      and `s` again from `t` on. */
  predicate Split(w: Wording, s: Bytes, r: Bytes, h: nat, t: nat) {
    h <= t <= |s| && r == Around(s, h, t, w.middle(t - h, |s|))
  }

  function HeadCut(w: Wording, s: Bytes, limit: nat): Bytes {
    var cut := Boundary(s, limit);
    Around(s, cut, |s|, w.head(cut, |s|))
  }

  function TailStart(s: Bytes, limit: nat): (t: nat)
    requires limit < |s|
    ensures Boundary(s, limit / 2) <= t <= |s| && (t == |s| || RuneStart(s[t]))
    ensures |s| - t <= limit - Boundary(s, limit / 2)
  {
    NextStart(s, |s| - (limit - Boundary(s, limit / 2)))
  }

  function MiddleCut(w: Wording, s: Bytes, limit: nat): Bytes
    requires limit < |s|
  {
    var head := Boundary(s, limit / 2);
    var tail := TailStart(s, limit);
    Around(s, head, tail, w.middle(tail - head, |s|))
  }

  /** Candidate `i` is shorter, and no earlier one is. */
  predicate FirstShorter(original: Bytes, candidates: seq<Bytes>, i: nat) {
    i < |candidates| && |candidates[i]| < |original| && forall j :: 0 <= j < i ==> |candidates[j]| >= |original|
  }

  /** The first candidate that is really shorter, or the original. */
  function ShorterOf(original: Bytes, candidates: seq<Bytes>): (r: Bytes)
    ensures if forall i :: 0 <= i < |candidates| ==> |candidates[i]| >= |original| then r == original
            else exists i: nat :: FirstShorter(original, candidates, i) && r == candidates[i]
  {
    if candidates == [] then original
    else if |candidates[0]| < |original| then
      assert FirstShorter(original, candidates, 0);
      candidates[0]
    else
      assert forall i: nat :: FirstShorter(original, candidates[1..], i) ==>
               FirstShorter(original, candidates, i + 1) && candidates[i + 1] == candidates[1..][i];
      ShorterOf(original, candidates[1..])
  }

  function HeadClipped(w: Wording, s: Bytes, limit: int): Bytes {
    if limit <= 0 || |s| <= limit then s
    else ShorterOf(s, [HeadCut(w, s, limit)])
  }

  function Clipped(w: Wording, s: Bytes, limit: int): Bytes {
    if limit <= 0 || |s| <= limit then s
    else if limit < 2 * MIN_CLIP_SIDE then HeadClipped(w, s, limit)
    else ShorterOf(s, [MiddleCut(w, s, limit), HeadClipped(w, s, limit)])
  }

  // ----- the code -----

  method ClipHead(w: Wording, s: Bytes, limit: int) returns (r: Bytes)
    ensures r == HeadClipped(w, s, limit)
  {
    if limit <= 0 || |s| <= limit {
      return s;
    }
    var cut := FindBoundary(s, limit);
    var out := Around(s, cut, |s|, w.head(cut, |s|));
    return ShorterOf(s, [out]);
  }

  method ClipText(w: Wording, s: Bytes, limit: int) returns (r: Bytes)
    ensures r == Clipped(w, s, limit)
  {
    if limit <= 0 || |s| <= limit {
      return s;
    }
    if limit < 2 * MIN_CLIP_SIDE {
      r := ClipHead(w, s, limit);
      return;
    }
    var head := FindBoundary(s, limit / 2);
    var start := |s| - (limit - head);
    while start < |s| && !RuneStart(s[start])
      invariant |s| - (limit - head) <= start <= |s|
      invariant NextStart(s, start) == TailStart(s, limit)
    {
      start := start + 1;
    }
    var out := Around(s, head, start, w.middle(start - head, |s|));
    var front := ClipHead(w, s, limit);
    return ShorterOf(s, [out, front]);
  }

  // ----- what it promises -----

  /** The middle cut wins where there is room for two halves and it is shorter,
      then the head cut if that is shorter; else the input is left alone. */
  lemma ClipChooses(w: Wording, s: Bytes, limit: int)
    requires 0 < limit < |s|
    ensures
      var r := Clipped(w, s, limit);
      if 128 <= limit && |MiddleCut(w, s, limit)| < |s| then r == MiddleCut(w, s, limit)
      else if |HeadCut(w, s, limit)| < |s| then r == HeadCut(w, s, limit)
      else r == s
  {
    var middle, head := MiddleCut(w, s, limit), HeadCut(w, s, limit);
    var front := HeadClipped(w, s, limit);
    assert [middle, front][0] == middle && [middle, front][1] == front;
    assert [head][0] == head;
  }

  /** The number the digits `d` print. */
  ghost predicate Prints(d: Bytes, n: nat) {
    Digits(d) && Value(d) == n
  }

  /** The middle notice prints how many bytes are left out, then the total. */
  lemma MiddlePrints(omitted: nat, total: nat) returns (a: Bytes, b: Bytes)
    ensures Prints(a, omitted) && Prints(b, total)
    ensures MiddleNotice(omitted, total) == Encode("\n\n[... ") + a + Encode(" of ") + b +
              Dashed(" bytes omitted from the middle ",
                     " what follows is the TAIL, not a continuation. Narrow the request to see between them ...]\n\n")
  {
    a, b := Decimal(omitted), Decimal(total);
    DecimalValue(omitted);
    DecimalValue(total);
  }

  /** The head notice prints how many are shown, the total, and the difference. */
  lemma HeadPrints(shown: nat, total: nat) returns (a: Bytes, b: Bytes, c: Bytes)
    requires shown <= total
    ensures Prints(a, shown) && Prints(b, total) && Prints(c, total - shown)
    ensures HeadNotice(shown, total) ==
              (Encode("\n\n[truncated: showing the first ") + a + Encode(" of ") + b + Encode(" bytes, ")) + c +
              Dashed(" omitted ", " narrow the request to see the rest]")
  {
    a, b, c := Decimal(shown), Decimal(total), Decimal(total - shown);
    DecimalValue(shown);
    DecimalValue(total);
    DecimalValue(total - shown);
  }

  /** The result is the input, or it is strictly shorter and made of one or two
      disjoint pieces of the input, at most `limit` bytes of them, around a
      notice that counts exactly the bytes that are gone. */
  lemma ClipSound(w: Wording, s: Bytes, limit: int)
    ensures
      var r := Clipped(w, s, limit);
      || r == s
      || (0 < limit && |r| < |s| &&
          ((exists h: nat :: Front(w, s, r, h) && h <= limit)
           || (exists h: nat, t: nat :: Split(w, s, r, h, t) && h + (|s| - t) <= limit)))
  {
    if 0 < limit < |s| {
      ClipChooses(w, s, limit);
      assert Front(w, s, HeadCut(w, s, limit), Boundary(s, limit));
      assert Split(w, s, MiddleCut(w, s, limit), Boundary(s, limit / 2), TailStart(s, limit));
    }
  }

  /** `r` holds at most `limit` bytes beside its notice. */
  predicate Capped(w: Wording, s: Bytes, r: Bytes, limit: nat, h: nat, t: nat) {
    Split(w, s, r, h, t) && |r| <= limit + |w.middle(t - h, |s|)|
  }

  lemma MiddleCapped(w: Wording, s: Bytes, limit: nat)
    requires limit < |s|
    ensures Capped(w, s, MiddleCut(w, s, limit), limit, Boundary(s, limit / 2), TailStart(s, limit))
  {
  }

  lemma HeadCapped(w: Wording, s: Bytes, limit: nat)
    ensures |HeadCut(w, s, limit)| <= limit + |w.head(Boundary(s, limit), |s|)|
  {
  }

  /** The budget is soft by one notice, never more. */
  lemma ClipSoftCap(w: Wording, s: Bytes, limit: int)
    requires 0 < limit < |s|
    ensures
      var r := Clipped(w, s, limit);
      || |r| <= limit + |w.head(Boundary(s, limit), |s|)|
      || exists h: nat, t: nat :: Capped(w, s, r, limit, h, t)
  {
    ClipChooses(w, s, limit);
    MiddleCapped(w, s, limit);
    HeadCapped(w, s, limit);
  }

  /** The string is within the limit, or no cut makes it shorter. */
  predicate Whole(w: Wording, s: Bytes, limit: int) {
    || limit <= 0
    || |s| <= limit
    || (|HeadCut(w, s, limit)| >= |s| && (2 * MIN_CLIP_SIDE <= limit ==> |MiddleCut(w, s, limit)| >= |s|))
  }

  /** Nothing is lost exactly then. */
  lemma ClipWhole(w: Wording, s: Bytes, limit: int)
    ensures Clipped(w, s, limit) == s <==> Whole(w, s, limit)
  {
    if 0 < limit < |s| {
      var middle, head, front := MiddleCut(w, s, limit), HeadCut(w, s, limit), HeadClipped(w, s, limit);
      assert [middle, front][0] == middle && [middle, front][1] == front;
      assert [head][0] == head;
    }
  }

  lemma HeadNoticeShort(shown: nat, total: nat, d: nat)
    requires 0 < d && shown <= total < TenTo(d)
    ensures |HeadNotice(shown, total)| <= 92 + 3 * d
  {
    DecimalShort(shown, d);
    DecimalShort(total, d);
    DecimalShort(total - shown, d);
  }

  /** A string beyond the limit by more than the notice for `d` digits is cut. */
  lemma LongIsCut(s: Bytes, limit: nat, d: nat)
    requires 0 < limit && 0 < d && limit + 92 + 3 * d < |s| < TenTo(d)
    ensures !Whole(Shipped(), s, limit)
  {
    HeadNoticeShort(Boundary(s, limit), |s|, d);
  }

  /** Every four neighbouring bytes of a valid string hold a rune start. */
  lemma {:induction false} StartNear(s: Bytes, i: nat, from: nat)
    requires from <= i && i + 3 < |s| && ValidFrom(s, from)
    ensures exists j :: i <= j <= i + 3 && RuneStart(s[j])
    decreases |s| - from
  {
    var n := Announced(s[from]);
    RuneHead(s, from, n);
    if from < i {
      if i < from + n {
        RuneHead(s, from + n, Announced(s[from + n]));
        assert i <= from + n <= i + 3;
      } else {
        StartNear(s, i, from + n);
      }
    }
  }

  /** On a valid string each cut gives up at most three bytes of its share. */
  lemma CutsWasteLittle(s: Bytes, limit: int)
    requires ValidUtf8(s) && 0 < limit < |s|
    ensures Boundary(s, limit) >= limit - 3
    ensures Boundary(s, limit / 2) >= limit / 2 - 3
    ensures Boundary(s, limit / 2) + (|s| - TailStart(s, limit)) >= limit - 3
  {
    forall n | 0 <= n < |s| ensures Boundary(s, n) >= n - 3 {
      if n >= 3 {
        StartNear(s, n - 3, 0);
      }
    }
    var from := |s| - (limit - Boundary(s, limit / 2));
    if from + 3 < |s| {
      StartNear(s, from, 0);
    }
  }

  lemma NumberedValid(gap: Bytes, a: nat, of: Bytes, b: nat, end: Bytes)
    requires ValidUtf8(gap) && ValidUtf8(of) && ValidUtf8(end)
    ensures ValidUtf8(Numbered(gap, a, of, b, end))
  {
    AsciiValid(Decimal(a));
    AsciiValid(Decimal(b));
    ValidConcat(gap, Decimal(a));
    ValidConcat(gap + Decimal(a), of);
    ValidConcat(gap + Decimal(a) + of, Decimal(b));
    ValidConcat(gap + Decimal(a) + of + Decimal(b), end);
  }

  lemma NumberValid(front: Bytes, n: nat, end: Bytes)
    requires ValidUtf8(front) && ValidUtf8(end)
    ensures ValidUtf8(front + Decimal(n) + end)
  {
    AsciiValid(Decimal(n));
    ValidConcat(front, Decimal(n));
    ValidConcat(front + Decimal(n), end);
  }

  lemma TextValid(s: string)
    ensures ValidUtf8(Encode(s))
  {
    AsciiValid(Encode(s));
  }

  lemma DashedValid(a: string, b: string)
    ensures ValidUtf8(Dashed(a, b))
  {
    AsciiValid(Encode(a));
    AsciiValid(Encode(b));
    assert RuneAt(EM_DASH, 0, 3);
    ValidConcat(Encode(a), EM_DASH);
    ValidConcat(Encode(a) + EM_DASH, Encode(b));
  }

  lemma MiddleNoticeValid(omitted: nat, total: nat)
    ensures ValidUtf8(MiddleNotice(omitted, total))
  {
    var a, b := " bytes omitted from the middle ",
                " what follows is the TAIL, not a continuation. Narrow the request to see between them ...]\n\n";
    TextValid("\n\n[... ");
    TextValid(" of ");
    DashedValid(a, b);
    NumberedValid(Encode("\n\n[... "), omitted, Encode(" of "), total, Dashed(a, b));
  }

  lemma HeadNoticeValid(shown: nat, total: nat)
    ensures ValidUtf8(HeadNotice(shown, total))
  {
    var a, b := " omitted ", " narrow the request to see the rest]";
    var start, bytes := Encode("\n\n[truncated: showing the first "), Encode(" bytes, ");
    TextValid("\n\n[truncated: showing the first ");
    TextValid(" of ");
    TextValid(" bytes, ");
    DashedValid(a, b);
    NumberedValid(start, shown, Encode(" of "), total, bytes);
    NumberValid(Numbered(start, shown, Encode(" of "), total, bytes),
                if shown <= total then total - shown else 0, Dashed(a, b));
  }

  lemma ShippedClean()
    ensures Clean(Shipped())
  {
    forall a: nat, b: nat ensures ValidUtf8(Shipped().middle(a, b)) {
      MiddleNoticeValid(a, b);
    }
    forall a: nat, b: nat ensures ValidUtf8(Shipped().head(a, b)) {
      HeadNoticeValid(a, b);
    }
  }

  lemma AroundValid(s: Bytes, h: nat, t: nat, notice: Bytes)
    requires ValidUtf8(s) && ValidUtf8(notice) && h <= t
    requires CutPlace(s, h) && CutPlace(s, t)
    ensures ValidUtf8(Around(s, h, t, notice))
  {
    ValidCut(s, h);
    ValidCut(s, t);
    ValidConcat(s[..h], notice);
    ValidConcat(s[..h] + notice, s[t..]);
  }

  lemma HeadCutValid(w: Wording, s: Bytes, limit: nat)
    requires ValidUtf8(s) && Clean(w)
    ensures ValidUtf8(HeadCut(w, s, limit))
  {
    var cut := Boundary(s, limit);
    AroundValid(s, cut, |s|, w.head(cut, |s|));
  }

  lemma MiddleCutValid(w: Wording, s: Bytes, limit: nat)
    requires ValidUtf8(s) && Clean(w) && limit < |s|
    ensures ValidUtf8(MiddleCut(w, s, limit))
  {
    var h, t := Boundary(s, limit / 2), TailStart(s, limit);
    AroundValid(s, h, t, w.middle(t - h, |s|));
  }

  lemma ChosenValid(r: Bytes, a: Bytes, b: Bytes, c: Bytes)
    requires ValidUtf8(a) && ValidUtf8(b) && ValidUtf8(c) && (r == a || r == b || r == c)
    ensures ValidUtf8(r)
  {
  }

  /** Valid UTF-8 stays valid: no cut splits a rune. */
  lemma ClipKeepsUtf8(w: Wording, s: Bytes, limit: int)
    requires ValidUtf8(s) && Clean(w)
    ensures ValidUtf8(Clipped(w, s, limit))
  {
    if 0 < limit < |s| {
      ClipChooses(w, s, limit);
      HeadCutValid(w, s, limit);
      MiddleCutValid(w, s, limit);
      ChosenValid(Clipped(w, s, limit), HeadCut(w, s, limit), MiddleCut(w, s, limit), s);
    }
  }
}
