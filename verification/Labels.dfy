/** Label sets and the map keys made of them (metric/metric.go). */
module Labels {
  import opened Llm
  import opened Utf8

  /** The longest label value kept. */
  const MAX_LABEL_VALUE_BYTES := 128

  datatype Label = Label(key: Bytes, value: Bytes)

  // ----- names and values -----

  predicate Letter(c: byte) {
    0x61 <= c <= 0x7A || 0x41 <= c <= 0x5A || c == 0x5F
  }

  predicate Digit(c: byte) {
    0x30 <= c <= 0x39
  }

  predicate LegalAt(c: byte, i: nat) {
    Letter(c) || (Digit(c) && i > 0)
  }

  predicate LegalName(s: Bytes) {
    forall i :: 0 <= i < |s| ==> LegalAt(s[i], i)
  }

  function Sanitized(s: Bytes): (r: Bytes)
    ensures |r| == |s| && LegalName(r)
    ensures LegalName(s) ==> r == s
    ensures forall i :: 0 <= i < |s| && LegalAt(s[i], i) ==> r[i] == s[i]
  {
    seq(|s|, i requires 0 <= i < |s| => if LegalAt(s[i], i) then s[i] else 0x5F)
  }

  /** A name keeps its ASCII letters, its underscores and every digit but one at
      its start; each other byte becomes an underscore. */
  ghost predicate NameOf(s: Bytes, r: Bytes) {
    && |r| == |s|
    && forall i :: 0 <= i < |s| ==>
         var c := s[i] as int;
         r[i] as int ==
           if || 'a' as int <= c <= 'z' as int || 'A' as int <= c <= 'Z' as int || c == '_' as int
              || ('0' as int <= c <= '9' as int && i > 0)
           then c else '_' as int
  }

  lemma SanitizedExact(s: Bytes)
    ensures NameOf(s, Sanitized(s))
  {
  }

  method Sanitize(s: Bytes) returns (r: Bytes)
    ensures r == Sanitized(s)
  {
    r := s;
    for i := 0 to |s|
      invariant |r| == |s| && forall k :: 0 <= k < i ==> r[k] == Sanitized(s)[k]
      invariant forall k :: i <= k < |s| ==> r[k] == s[k]
    {
      if !LegalAt(s[i], i) {
        r := r[i := 0x5F];
      }
    }
  }

  function Truncated(s: Bytes): Bytes {
    s[..Boundary(s, MAX_LABEL_VALUE_BYTES)]
  }

  /** A value is all of what was given, or as much of it as ends before a byte that
      may start a rune, at most 128 bytes. */
  ghost predicate ValueOf(s: Bytes, r: Bytes) {
    && r <= s
    && if |s| <= 128 then r == s
       else
         && |r| <= 128 && (r != [] ==> !(0x80 <= s[|r|] <= 0xBF))
         && forall k :: |r| < k <= 128 ==> 0x80 <= s[k] <= 0xBF
  }

  /** A value is a prefix of what was given, short enough, and valid UTF-8 when
      the input is. */
  lemma TruncatedValue(s: Bytes)
    ensures Truncated(s) <= s && |Truncated(s)| <= MAX_LABEL_VALUE_BYTES
    ensures |s| <= MAX_LABEL_VALUE_BYTES ==> Truncated(s) == s
    ensures ValidUtf8(s) ==> ValidUtf8(Truncated(s))
    ensures ValueOf(s, Truncated(s))
  {
    if ValidUtf8(s) {
      ValidCut(s, Boundary(s, MAX_LABEL_VALUE_BYTES));
    }
  }

  // ----- byte order -----

  predicate LessFrom(a: Bytes, b: Bytes, i: nat)
    requires i <= |a| && i <= |b|
    decreases |a| - i
  {
    i < |b| && (i == |a| || a[i] < b[i] || (a[i] == b[i] && LessFrom(a, b, i + 1)))
  }

  predicate Less(a: Bytes, b: Bytes) {
    LessFrom(a, b, 0)
  }

  lemma {:induction false} LessTotalFrom(a: Bytes, b: Bytes, i: nat)
    requires i <= |a| && i <= |b| && a[..i] == b[..i]
    ensures LessFrom(a, b, i) || LessFrom(b, a, i) || a == b
    ensures !(LessFrom(a, b, i) && LessFrom(b, a, i))
    ensures LessFrom(a, b, i) ==> a != b
    decreases |a| - i
  {
    if i < |a| && i < |b| && a[i] == b[i] {
      assert a[..i + 1] == a[..i] + [a[i]] == b[..i + 1];
      LessTotalFrom(a, b, i + 1);
    } else if i == |a| && i == |b| {
      assert a == a[..i] == b[..i] == b;
    }
  }

  /** `a` is a proper prefix of `b`, or is smaller where they first differ, at `k`. */
  ghost predicate BelowAt(a: Bytes, b: Bytes, k: nat) {
    k <= |a| && k < |b| && a[..k] == b[..k] && (k < |a| ==> a[k] < b[k])
  }

  lemma BelowLater(a: Bytes, b: Bytes, i: nat, k: nat)
    requires i < k && BelowAt(a, b, k)
    ensures i < |a| && i < |b| && a[i] == b[i]
  {
    assert a[..k][i] == b[..k][i];
  }

  lemma {:induction false} LessExactFrom(a: Bytes, b: Bytes, i: nat)
    requires i <= |a| && i <= |b| && a[..i] == b[..i]
    ensures LessFrom(a, b, i) <==> exists k: nat :: i <= k && BelowAt(a, b, k)
    decreases |a| - i
  {
    if i < |a| && i < |b| && a[i] == b[i] {
      assert a[..i + 1] == a[..i] + [a[i]] == b[..i + 1];
      LessExactFrom(a, b, i + 1);
    } else {
      forall k: nat | i <= k && BelowAt(a, b, k)
        ensures k == i
      {
        if i < k {
          BelowLater(a, b, i, k);
        }
      }
      assert LessFrom(a, b, i) ==> BelowAt(a, b, i);
    }
  }

  /** The byte order is lexicographic. */
  lemma LessExact(a: Bytes, b: Bytes)
    ensures Less(a, b) <==> exists k: nat :: BelowAt(a, b, k)
  {
    LessExactFrom(a, b, 0);
    assert forall k: nat :: BelowAt(a, b, k) ==> 0 <= k;
  }

  lemma LessTotal(a: Bytes, b: Bytes)
    ensures Less(a, b) || Less(b, a) || a == b
    ensures !(Less(a, b) && Less(b, a)) && (Less(a, b) ==> a != b)
  {
    LessTotalFrom(a, b, 0);
  }

  lemma {:induction false} LessTransFrom(a: Bytes, b: Bytes, c: Bytes, i: nat)
    requires i <= |a| && i <= |b| && i <= |c| && LessFrom(a, b, i) && LessFrom(b, c, i)
    ensures LessFrom(a, c, i)
    decreases |a| - i
  {
    if i < |a| && a[i] == b[i] == c[i] {
      LessTransFrom(a, b, c, i + 1);
    }
  }

  // ----- canonical form -----

  /** What a label list means: each name's last value. */
  function Meaning(ls: seq<Label>): map<Bytes, Bytes> {
    if ls == [] then map[] else Meaning(Front(ls))[Last(ls).key := Last(ls).value]
  }

  /** Names sanitized, values truncated, nameless labels dropped. */
  function Cleaned(ls: seq<Label>): seq<Label> {
    if ls == [] then []
    else if Last(ls).key == [] then Cleaned(Front(ls))
    else Cleaned(Front(ls)) + [Label(Sanitized(Last(ls).key), Truncated(Last(ls).value))]
  }

  /** The labels that have a name. */
  function Named(ls: seq<Label>): seq<Label> {
    if ls == [] then [] else (if ls[0].key == [] then [] else [ls[0]]) + Named(ls[1..])
  }

  lemma {:induction false} NamedSnoc(ls: seq<Label>, l: Label)
    ensures Named(ls + [l]) == if l.key == [] then Named(ls) else Named(ls) + [l]
  {
    if ls == [] {
      assert ls + [l] == [l] && [l][1..] == [];
    } else {
      NamedSnoc(ls[1..], l);
      assert (ls + [l])[0] == ls[0] && (ls + [l])[1..] == ls[1..] + [l];
    }
  }

  /** Label `c` is `l` with its name and value cleaned. */
  ghost predicate CleanOf(l: Label, c: Label) {
    NameOf(l.key, c.key) && ValueOf(l.value, c.value)
  }

  /** Every label with a name is kept, in order, under its cleaned name and value. */
  lemma {:induction false} CleanedExact(ls: seq<Label>)
    ensures |Cleaned(ls)| == |Named(ls)|
    ensures forall k :: 0 <= k < |Named(ls)| ==> CleanOf(Named(ls)[k], Cleaned(ls)[k])
  {
    if ls != [] {
      var front, l := Front(ls), Last(ls);
      CleanedExact(front);
      assert ls == front + [l];
      NamedSnoc(front, l);
      SanitizedExact(l.key);
      TruncatedValue(l.value);
    }
  }

  /** Puts `x` behind every label whose name is not greater. */
  function Insert(s: seq<Label>, x: Label): seq<Label> {
    if s == [] || !Less(x.key, Last(s).key) then s + [x] else Insert(Front(s), x) + [Last(s)]
  }

  /** Stable sort by name. */
  function Sorted(ls: seq<Label>): seq<Label> {
    if ls == [] then [] else Insert(Sorted(Front(ls)), Last(ls))
  }

  /** Of neighbours with one name, the last. */
  function KeepLast(ls: seq<Label>): (r: seq<Label>)
    ensures ls != [] ==> r != [] && Last(r) == Last(ls)
  {
    if ls == [] then []
    else
      var k := KeepLast(Front(ls));
      if k != [] && Last(k).key == Last(ls).key then Front(k) + [Last(ls)] else k + [Last(ls)]
  }

  function Canonical(ls: seq<Label>): seq<Label> {
    KeepLast(Sorted(Cleaned(ls)))
  }

  // ----- keys -----

  const COLON: byte := 0x3A

  function Field(s: Bytes): Bytes {
    Decimal(|s|) + [COLON] + s
  }

  /** The key of the labels from position `i` on: every name and value behind
      its length. */
  function KeyFrom(ls: seq<Label>, i: nat): Bytes
    requires i <= |ls|
    decreases |ls| - i
  {
    if i == |ls| then [] else Field(ls[i].key) + (Field(ls[i].value) + KeyFrom(ls, i + 1))
  }

  function LabelKey(ls: seq<Label>): Bytes {
    KeyFrom(ls, 0)
  }

  function KeyOf(ls: seq<Label>): Bytes {
    LabelKey(Canonical(ls))
  }

  // ----- the code -----

  method Clean(labels: seq<Label>) returns (out: seq<Label>)
    ensures out == Cleaned(labels)
  {
    out := [];
    for i := 0 to |labels|
      invariant out == Cleaned(labels[..i])
    {
      assert Front(labels[..i + 1]) == labels[..i];
      var name := Sanitize(labels[i].key);
      if name != [] {
        var cut := FindBoundary(labels[i].value, MAX_LABEL_VALUE_BYTES);
        out := out + [Label(name, labels[i].value[..cut])];
      }
    }
    assert labels[..|labels|] == labels;
  }

  /** Drops every label whose successor has the same name. */
  method CompactSorted(out: seq<Label>) returns (kept: seq<Label>)
    ensures kept == KeepLast(out)
  {
    kept := [];
    for i := 0 to |out|
      invariant kept == (if 0 < i < |out| && out[i].key == out[i - 1].key
                         then Front(KeepLast(out[..i])) else KeepLast(out[..i]))
    {
      assert Front(out[..i + 1]) == out[..i];
      if !(i + 1 < |out| && out[i + 1].key == out[i].key) {
        kept := kept + [out[i]];
      }
    }
    assert out[..|out|] == out;
  }

  method MakeKey(ls: seq<Label>) returns (b: Bytes)
    ensures b == LabelKey(ls)
  {
    b := [];
    for i := 0 to |ls|
      invariant b + KeyFrom(ls, i) == LabelKey(ls)
    {
      b := b + (Field(ls[i].key) + Field(ls[i].value));
    }
  }

  method Canonicalize(labels: seq<Label>) returns (canon: seq<Label>, key: Bytes)
    ensures canon == Canonical(labels) && key == KeyOf(labels)
  {
    var out := Clean(labels);
    canon := CompactSorted(Sorted(out));
    key := MakeKey(canon);
  }

  // ----- the key is injective -----

  /** Digits end where the colon stands. */
  lemma PrefixesAgree(d: Bytes, e: Bytes, x: Bytes, y: Bytes)
    requires Digits(d) && Digits(e)
    requires d + [COLON] + x == e + [COLON] + y
    ensures d == e && x == y
  {
    var s := d + [COLON] + x;
    assert s[|d|] == COLON && s[|e|] == COLON;
    assert forall i :: 0 <= i < |d| ==> s[i] == d[i] && s[i] != COLON;
    assert forall i :: 0 <= i < |e| ==> s[i] == e[i] && s[i] != COLON;
    assert d == s[..|d|] && x == s[|d| + 1..];
    assert e == s[..|e|] && y == s[|e| + 1..];
  }

  /** A length-prefixed field can be read back, whatever follows it. */
  lemma FieldInjective(a: Bytes, b: Bytes, x: Bytes, y: Bytes)
    requires Field(a) + x == Field(b) + y
    ensures a == b && x == y
  {
    assert Field(a) + x == Decimal(|a|) + [COLON] + (a + x);
    assert Field(b) + y == Decimal(|b|) + [COLON] + (b + y);
    PrefixesAgree(Decimal(|a|), Decimal(|b|), a + x, b + y);
    DecimalValue(|a|);
    DecimalValue(|b|);
    assert (a + x)[..|a|] == a && (b + y)[..|b|] == b;
    assert (a + x)[|a|..] == x && (b + y)[|b|..] == y;
  }

  lemma {:induction false} KeyInjectiveFrom(a: seq<Label>, b: seq<Label>, i: nat)
    requires i <= |a| && i <= |b| && KeyFrom(a, i) == KeyFrom(b, i)
    ensures |a| == |b| && forall k :: i <= k < |a| ==> a[k] == b[k]
    decreases |a| - i
  {
    if i < |a| && i < |b| {
      FieldInjective(a[i].key, b[i].key, Field(a[i].value) + KeyFrom(a, i + 1),
                     Field(b[i].value) + KeyFrom(b, i + 1));
      FieldInjective(a[i].value, b[i].value, KeyFrom(a, i + 1), KeyFrom(b, i + 1));
      KeyInjectiveFrom(a, b, i + 1);
    }
  }

  /** Two label lists share a key only when they are the same list. */
  lemma LabelKeyInjective(a: seq<Label>, b: seq<Label>)
    requires LabelKey(a) == LabelKey(b)
    ensures a == b
  {
    KeyInjectiveFrom(a, b, 0);
  }

  // ----- the canonical form is exactly the meaning -----

  predicate Ascending(s: seq<Label>) {
    forall i, j :: 0 <= i < j < |s| ==> !Less(s[j].key, s[i].key)
  }

  predicate Strict(s: seq<Label>) {
    forall i, j :: 0 <= i < j < |s| ==> Less(s[i].key, s[j].key)
  }

  lemma LessTrans(a: Bytes, b: Bytes, c: Bytes)
    requires Less(a, b) && Less(b, c)
    ensures Less(a, c)
  {
    LessTransFrom(a, b, c, 0);
  }

  /** `!Less` the other way round is transitive too. */
  lemma NotLessTrans(a: Bytes, b: Bytes, c: Bytes)
    requires !Less(b, a) && !Less(c, b)
    ensures !Less(c, a)
  {
    LessTotal(a, b);
    LessTotal(b, c);
    if Less(c, a) && Less(a, b) {
      LessTrans(c, a, b);
    }
  }

  lemma AscendingSnoc(s: seq<Label>, x: Label)
    requires Ascending(s) && (s != [] ==> !Less(x.key, Last(s).key))
    ensures Ascending(s + [x])
  {
    forall i | 0 <= i < |s| ensures !Less(x.key, s[i].key) {
      if i < |s| - 1 {
        NotLessTrans(s[i].key, Last(s).key, x.key);
      }
    }
  }

  /** Nothing above the bound gets in. */
  lemma {:induction false} InsertBelow(s: seq<Label>, x: Label, bound: Bytes)
    requires !Less(bound, x.key) && forall i :: 0 <= i < |s| ==> !Less(bound, s[i].key)
    ensures forall i :: 0 <= i < |Insert(s, x)| ==> !Less(bound, Insert(s, x)[i].key)
  {
    if s != [] && Less(x.key, Last(s).key) {
      InsertBelow(Front(s), x, bound);
    }
  }

  lemma {:induction false} InsertAscending(s: seq<Label>, x: Label)
    requires Ascending(s)
    ensures Ascending(Insert(s, x))
  {
    if s == [] || !Less(x.key, Last(s).key) {
      AscendingSnoc(s, x);
    } else {
      InsertAscending(Front(s), x);
      LessTotal(x.key, Last(s).key);
      InsertBelow(Front(s), x, Last(s).key);
      AscendingSnoc(Insert(Front(s), x), Last(s));
    }
  }

  lemma MeaningSnoc(s: seq<Label>, x: Label)
    ensures Meaning(s + [x]) == Meaning(s)[x.key := x.value]
  {
    assert Front(s + [x]) == s;
  }

  lemma {:induction false} InsertMeaning(s: seq<Label>, x: Label)
    ensures Meaning(Insert(s, x)) == Meaning(s)[x.key := x.value]
  {
    if s == [] || !Less(x.key, Last(s).key) {
      MeaningSnoc(s, x);
    } else {
      InsertMeaning(Front(s), x);
      LessTotal(x.key, Last(s).key);
      MeaningSnoc(Insert(Front(s), x), Last(s));
    }
  }

  lemma {:induction false} SortedKeeps(ls: seq<Label>)
    ensures Ascending(Sorted(ls)) && Meaning(Sorted(ls)) == Meaning(ls)
  {
    if ls != [] {
      SortedKeeps(Front(ls));
      InsertAscending(Sorted(Front(ls)), Last(ls));
      InsertMeaning(Sorted(Front(ls)), Last(ls));
    }
  }

  lemma StrictReplace(k: seq<Label>, x: Label)
    requires Strict(k) && k != [] && Last(k).key == x.key
    ensures Strict(Front(k) + [x])
  {
    forall i | 0 <= i < |k| - 1 ensures Less(k[i].key, x.key) {
      assert Less(k[i].key, k[|k| - 1].key);
    }
  }

  lemma StrictSnoc(k: seq<Label>, x: Label)
    requires Strict(k) && k != [] && Less(Last(k).key, x.key)
    ensures Strict(k + [x])
  {
    forall i | 0 <= i < |k| ensures Less(k[i].key, x.key) {
      if i < |k| - 1 {
        LessTrans(k[i].key, Last(k).key, x.key);
      }
    }
  }

  lemma {:induction false} KeepLastStrict(ls: seq<Label>)
    requires Ascending(ls)
    ensures Strict(KeepLast(ls))
  {
    if ls != [] {
      var k, x := KeepLast(Front(ls)), Last(ls);
      KeepLastStrict(Front(ls));
      if k != [] && Last(k).key == x.key {
        StrictReplace(k, x);
      } else if k != [] {
        assert Last(k) == Last(Front(ls)) == ls[|ls| - 2];
        LessTotal(Last(k).key, x.key);
        StrictSnoc(k, x);
      }
    }
  }

  lemma {:induction false} KeepLastMeaning(ls: seq<Label>)
    ensures Meaning(KeepLast(ls)) == Meaning(ls)
  {
    if ls != [] {
      var k, x := KeepLast(Front(ls)), Last(ls);
      KeepLastMeaning(Front(ls));
      if k != [] && Last(k).key == x.key {
        MeaningSnoc(Front(k), x);
      } else {
        MeaningSnoc(k, x);
      }
    }
  }

  lemma {:induction false} MeaningKeys(s: seq<Label>)
    ensures forall k :: k in Meaning(s) <==> exists i :: 0 <= i < |s| && s[i].key == k
  {
    if s != [] {
      MeaningKeys(Front(s));
      assert s[|s| - 1] == Last(s);
    }
  }

  /** A name means the value of its last label. */
  lemma {:induction false} MeaningLast(s: seq<Label>, i: nat)
    requires i < |s| && forall j :: i < j < |s| ==> s[j].key != s[i].key
    ensures s[i].key in Meaning(s) && Meaning(s)[s[i].key] == s[i].value
  {
    if i < |s| - 1 {
      MeaningLast(Front(s), i);
      assert s[|s| - 1].key != s[i].key;
    }
  }

  lemma MeaningEmpty(s: seq<Label>)
    ensures Meaning(s) == map[] <==> s == []
  {
    if s != [] {
      assert Last(s).key in Meaning(s);
    }
  }

  lemma LastGreatest(a: seq<Label>, b: seq<Label>)
    requires Strict(a) && Strict(b) && a != [] && b != [] && Meaning(a) == Meaning(b)
    ensures Last(a).key == Last(b).key || Less(Last(b).key, Last(a).key)
  {
    MeaningKeys(a);
    MeaningKeys(b);
    assert Last(b).key in Meaning(b);
    var i :| 0 <= i < |a| && a[i].key == Last(b).key;
  }

  lemma {:induction false} FrontMeans(a: seq<Label>)
    requires Strict(a) && a != []
    ensures Meaning(Front(a)) == Meaning(a) - {Last(a).key}
    ensures Last(a).key in Meaning(a) && Meaning(a)[Last(a).key] == Last(a).value
  {
    MeaningKeys(Front(a));
    forall i | 0 <= i < |a| - 1 ensures a[i].key != Last(a).key {
      LessTotal(a[i].key, Last(a).key);
    }
  }

  /** A strictly ascending list is determined by what it means. */
  lemma {:induction false} StrictUnique(a: seq<Label>, b: seq<Label>)
    requires Strict(a) && Strict(b) && Meaning(a) == Meaning(b)
    ensures a == b
  {
    MeaningEmpty(a);
    MeaningEmpty(b);
    if a != [] && b != [] {
      LastGreatest(a, b);
      LastGreatest(b, a);
      LessTotal(Last(a).key, Last(b).key);
      FrontMeans(a);
      FrontMeans(b);
      StrictUnique(Front(a), Front(b));
      assert a == Front(a) + [Last(a)] && b == Front(b) + [Last(b)];
    }
  }

  /** The canonical form is sorted without repeats and keeps each name's last
      value. */
  lemma CanonicalKeeps(ls: seq<Label>)
    ensures Strict(Canonical(ls)) && Meaning(Canonical(ls)) == Meaning(Cleaned(ls))
  {
    SortedKeeps(Cleaned(ls));
    KeepLastStrict(Sorted(Cleaned(ls)));
    KeepLastMeaning(Sorted(Cleaned(ls)));
  }

  /** Two label lists fall on one series exactly when every name ends up with
      the same value in both, whatever the order and the repeats. */
  lemma KeyIdentifies(a: seq<Label>, b: seq<Label>)
    ensures KeyOf(a) == KeyOf(b) <==> Meaning(Cleaned(a)) == Meaning(Cleaned(b))
  {
    CanonicalKeeps(a);
    CanonicalKeeps(b);
    if KeyOf(a) == KeyOf(b) {
      LabelKeyInjective(Canonical(a), Canonical(b));
    }
    if Meaning(Cleaned(a)) == Meaning(Cleaned(b)) {
      StrictUnique(Canonical(a), Canonical(b));
    }
  }
}
