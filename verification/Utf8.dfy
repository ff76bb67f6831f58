/** Byte strings and UTF-8 as section 4 of RFC 3629 defines it. */
module Utf8 {

  newtype byte = x: int | 0 <= x < 256

  type Bytes = seq<byte>

  /** `utf8.RuneStart`: every byte but a continuation byte. */
  predicate RuneStart(b: byte) {
    !(0x80 <= b <= 0xBF)
  }

  predicate Tail(b: byte) {
    0x80 <= b <= 0xBF
  }

  /** How many bytes a leading byte announces; 0 for one that cannot lead. */
  function Announced(b: byte): nat {
    if b <= 0x7F then 1
    else if b < 0xC2 then 0
    else if b <= 0xDF then 2
    else if b <= 0xEF then 3
    else if b <= 0xF4 then 4
    else 0
  }

  /** The second byte's range depends on the first: no overlong forms, no
      surrogates, nothing past U+10FFFF. */
  predicate Second(a: byte, b: byte) {
    && Tail(b)
    && (a == 0xE0 ==> b >= 0xA0)
    && (a == 0xED ==> b <= 0x9F)
    && (a == 0xF0 ==> b >= 0x90)
    && (a == 0xF4 ==> b <= 0x8F)
  }

  /** A well-formed sequence of `n` bytes stands at position `i` of `s`. */
  predicate RuneAt(s: Bytes, i: nat, n: nat) {
    && 1 <= n && i + n <= |s|
    && Announced(s[i]) == n
    && (n > 1 ==> Second(s[i], s[i + 1]))
    && (n > 2 ==> Tail(s[i + 2]))
    && (n > 3 ==> Tail(s[i + 3]))
  }

  predicate ValidFrom(s: Bytes, i: nat)
    requires i <= |s|
    decreases |s| - i
  {
    i == |s| || (RuneAt(s, i, Announced(s[i])) && ValidFrom(s, i + Announced(s[i])))
  }

  predicate ValidUtf8(s: Bytes) {
    ValidFrom(s, 0)
  }

  /** Only the first byte of a rune can start one. */
  lemma RuneHead(s: Bytes, i: nat, n: nat)
    requires RuneAt(s, i, n)
    ensures n <= 4 && RuneStart(s[i]) && forall k :: i < k < i + n ==> !RuneStart(s[k])
  {
  }

  predicate SameTail(s: Bytes, i: nat, t: Bytes, j: nat) {
    |s| - i == |t| - j >= 0 && forall k: nat :: i <= k < |s| ==> s[k] == t[k - i + j]
  }

  lemma {:induction false} ValidSame(s: Bytes, i: nat, t: Bytes, j: nat)
    requires SameTail(s, i, t, j)
    ensures ValidFrom(s, i) == ValidFrom(t, j)
    decreases |s| - i
  {
    if i < |s| {
      var n := Announced(s[i]);
      assert RuneAt(s, i, n) == RuneAt(t, j, n);
      if RuneAt(s, i, n) {
        ValidSame(s, i + n, t, j + n);
      }
    }
  }

  lemma {:induction false} ConcatFrom(s: Bytes, t: Bytes, i: nat)
    requires i <= |s| && ValidFrom(s, i) && ValidUtf8(t)
    ensures ValidFrom(s + t, i)
    decreases |s| - i
  {
    if i == |s| {
      ValidSame(s + t, i, t, 0);
    } else {
      var n := Announced(s[i]);
      ConcatFrom(s, t, i + n);
      assert RuneAt(s + t, i, n);
    }
  }

  lemma ValidConcat(s: Bytes, t: Bytes)
    requires ValidUtf8(s) && ValidUtf8(t)
    ensures ValidUtf8(s + t)
  {
    ConcatFrom(s, t, 0);
  }

  lemma {:induction false} CutFrom(s: Bytes, p: nat, i: nat)
    requires i <= p <= |s| && ValidFrom(s, i) && (p == |s| || RuneStart(s[p]))
    ensures ValidFrom(s[..p], i) && ValidFrom(s, p)
    decreases |s| - i
  {
    if i < p {
      var n := Announced(s[i]);
      RuneHead(s, i, n);
      CutFrom(s, p, i + n);
      assert RuneAt(s[..p], i, n);
    }
  }

  predicate CutPlace(s: Bytes, p: nat) {
    p <= |s| && (p == 0 || p == |s| || RuneStart(s[p]))
  }

  /** A valid string can be cut before any byte that may start a rune: both
      pieces are valid. */
  lemma ValidCut(s: Bytes, p: nat)
    requires ValidUtf8(s) && CutPlace(s, p)
    ensures ValidUtf8(s[..p]) && ValidUtf8(s[p..])
  {
    if p > 0 {
      CutFrom(s, p, 0);
    }
    ValidSame(s, p, s[p..], 0);
  }

  /** `n` moved back to a rune start, or to an end of `s`. */
  function Boundary(s: Bytes, n: nat): (r: nat)
    ensures r <= |s| && r <= n
    ensures r == |s| || r == 0 || RuneStart(s[r])
    ensures n < |s| ==> forall i :: r < i <= n ==> !RuneStart(s[i])
    decreases n
  {
    if n >= |s| then |s|
    else if n > 0 && !RuneStart(s[n]) then Boundary(s, n - 1)
    else n
  }

  method FindBoundary(s: Bytes, n: nat) returns (r: nat)
    ensures r == Boundary(s, n)
  {
    if n >= |s| {
      return |s|;
    }
    r := n;
    while r > 0 && !RuneStart(s[r])
      invariant r <= n && Boundary(s, r) == Boundary(s, n)
    {
      r := r - 1;
    }
  }

  predicate Ascii(s: Bytes) {
    forall i :: 0 <= i < |s| ==> s[i] <= 0x7F
  }

  lemma {:induction false} AsciiFrom(s: Bytes, i: nat)
    requires Ascii(s) && i <= |s|
    ensures ValidFrom(s, i)
    decreases |s| - i
  {
    if i < |s| {
      AsciiFrom(s, i + 1);
    }
  }

  lemma AsciiValid(s: Bytes)
    requires Ascii(s)
    ensures ValidUtf8(s)
  {
    AsciiFrom(s, 0);
  }

  /** The bytes of ASCII text; a character outside it becomes a question mark. */
  function Encode(s: string): (r: Bytes)
    ensures |r| == |s| && Ascii(r)
  {
    seq(|s|, i requires 0 <= i < |s| => if s[i] < 128 as char then s[i] as int as byte else 0x3F)
  }

  /** Text with one character for each byte. */
  function Chars(b: Bytes): (s: string)
    ensures |s| == |b|
  {
    seq(|b|, i requires 0 <= i < |b| => b[i] as int as char)
  }

  lemma CharsInjective(a: Bytes, b: Bytes)
    ensures Chars(a) == Chars(b) <==> a == b
  {
    if Chars(a) == Chars(b) {
      assert |a| == |b|;
      forall i | 0 <= i < |a|
        ensures a[i] == b[i]
      {
        assert Chars(a)[i] == Chars(b)[i];
      }
    }
  }

  // ----- decimal numerals -----

  predicate Digits(s: Bytes) {
    forall i :: 0 <= i < |s| ==> '0' as int <= s[i] as int <= '9' as int
  }

  function Decimal(n: nat): (r: Bytes)
    ensures r != [] && Digits(r)
  {
    if n < 10 then [(n + '0' as int) as byte]
    else Decimal(n / 10) + [(n % 10 + '0' as int) as byte]
  }

  function Value(s: Bytes): nat
    requires Digits(s)
  {
    if s == [] then 0 else 10 * Value(s[..|s| - 1]) + (s[|s| - 1] as int - '0' as int)
  }

  lemma {:induction false} DecimalValue(n: nat)
    ensures Value(Decimal(n)) == n
  {
    if n < 10 {
      assert Decimal(n)[..0] == [];
    } else {
      DecimalValue(n / 10);
      assert Decimal(n)[..|Decimal(n)| - 1] == Decimal(n / 10);
    }
  }

  function TenTo(d: nat): nat {
    if d == 0 then 1 else 10 * TenTo(d - 1)
  }

  lemma {:induction false} DecimalShort(n: nat, d: nat)
    requires 0 < d && n < TenTo(d)
    ensures |Decimal(n)| <= d
  {
    if n >= 10 {
      assert TenTo(d) == 10 * TenTo(d - 1);
      assert d > 1 by {
        assert TenTo(0) == 1;
      }
      DecimalShort(n / 10, d - 1);
    }
  }
}
