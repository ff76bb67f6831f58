/** Surgical removal from `strategy.go`: dropping whole tool_use / tool_result
    pairs and restoring the turn structure around the holes. */
module Normalize {
  import opened Llm
  import opened Convo

  /** Whether `b` is one half of a pair named in `ids`. */
  predicate Named(b: Block, ids: set<Id>) {
    (b.ToolUse? && b.id in ids) || (b.ToolResult? && b.useId in ids)
  }

  function Kept(bs: seq<Block>, ids: set<Id>): seq<Block> {
    if bs == [] then []
    else if Named(Last(bs), ids) then Kept(Front(bs), ids)
    else Kept(Front(bs), ids) + [Last(bs)]
  }

  function Trim(m: Message, ids: set<Id>): Message {
    Message(m.role, Kept(m.content, ids))
  }

  function TrimAll(c: Transcript, ids: set<Id>): Transcript {
    seq(|c|, i requires 0 <= i < |c| => Trim(c[i], ids))
  }

  /** Merges neighbours of one role and forgets empty turns. */
  function Gather(c: Transcript): Transcript {
    if c == [] then [] else Append(Gather(Front(c)), Last(c))
  }

  function StripLead(c: Transcript): Transcript {
    if c != [] && c[0].role != User then StripLead(c[1..]) else c
  }

  function Normalized(c: Transcript): Transcript {
    StripLead(Gather(c))
  }

  function DropPairs(c: Transcript, ids: set<Id>): Transcript {
    if ids == {} then c else Normalized(TrimAll(c, ids))
  }

  // ----- the loops of the source -----

  method Normalize(c: Transcript) returns (out: Transcript)
    ensures out == Normalized(c)
  {
    out := [];
    var i := 0;
    while i < |c|
      invariant 0 <= i <= |c| && out == Gather(c[..i])
    {
      assert Front(c[..i + 1]) == c[..i];
      var m := c[i];
      if m.content != [] {
        var n := |out|;
        if n > 0 && out[n - 1].role == m.role {
          out := out[n - 1 := Message(m.role, out[n - 1].content + m.content)];
        } else {
          out := out + [m];
        }
      }
      i := i + 1;
    }
    assert c[..i] == c;
    while |out| > 0 && out[0].role != User
      invariant StripLead(out) == Normalized(c)
      decreases |out|
    {
      out := out[1..];
    }
  }

  method RemovePairs(c: Transcript, ids: set<Id>) returns (out: Transcript)
    ensures out == DropPairs(c, ids)
  {
    if ids == {} {
      return c;
    }
    out := [];
    var i := 0;
    while i < |c|
      invariant 0 <= i <= |c| && Gather(out) == Gather(TrimAll(c[..i], ids))
    {
      var kept := [];
      var j := 0;
      while j < |c[i].content|
        invariant 0 <= j <= |c[i].content| && kept == Kept(c[i].content[..j], ids)
      {
        assert Front(c[i].content[..j + 1]) == c[i].content[..j];
        if !Named(c[i].content[j], ids) {
          kept := kept + [c[i].content[j]];
        }
        j := j + 1;
      }
      assert c[i].content[..j] == c[i].content;
      assert Front(TrimAll(c[..i + 1], ids)) == TrimAll(c[..i], ids);
      if kept != [] {
        assert Front(out + [Message(c[i].role, kept)]) == out;
        out := out + [Message(c[i].role, kept)];
      }
      i := i + 1;
    }
    assert c[..i] == c;
    out := Normalize(out);
  }

  // ----- what removal keeps -----

  /** `after` is `before` without the named ids. */
  ghost predicate Pruned(before: multiset<Id>, after: multiset<Id>, ids: set<Id>) {
    forall id :: after[id] == if id in ids then 0 else before[id]
  }

  lemma PrunedEmpty(before: multiset<Id>, after: multiset<Id>, ids: set<Id>)
    requires Pruned(before, after, ids) && before == multiset{}
    ensures after == multiset{}
  {
    assert forall id :: after[id] == 0;
  }

  lemma {:induction false} KeptPruned(bs: seq<Block>, ids: set<Id>)
    ensures Pruned(Asks(bs), Asks(Kept(bs, ids)), ids)
    ensures Pruned(Answers(bs), Answers(Kept(bs, ids)), ids)
  {
    if bs != [] {
      var k, b := Kept(Front(bs), ids), Last(bs);
      KeptPruned(Front(bs), ids);
      if !Named(b, ids) {
        assert Front(k + [b]) == k && Last(k + [b]) == b;
        assert Asks(k + [b]) == if b.ToolUse? then Asks(k) + multiset{b.id} else Asks(k);
        assert Answers(k + [b]) == if b.ToolResult? then Answers(k) + multiset{b.useId} else Answers(k);
      }
    }
  }

  lemma {:induction false} KeptAppend(a: seq<Block>, b: seq<Block>, ids: set<Id>)
    ensures Kept(a + b, ids) == Kept(a, ids) + Kept(b, ids)
  {
    if b == [] {
      assert a + b == a;
    } else {
      KeptAppend(a, Front(b), ids);
      assert Front(a + b) == a + Front(b);
    }
  }

  lemma {:induction false} TrimBlocks(c: Transcript, ids: set<Id>)
    ensures Blocks(TrimAll(c, ids)) == Kept(Blocks(c), ids)
  {
    if c != [] {
      TrimBlocks(Front(c), ids);
      assert Front(TrimAll(c, ids)) == TrimAll(Front(c), ids);
      KeptAppend(Blocks(Front(c)), Last(c).content, ids);
    }
  }

  lemma TrimFollows(prev: Message, m: Message, ids: set<Id>)
    requires Follows(prev, m)
    ensures Follows(Trim(prev, ids), Trim(m, ids))
  {
    KeptPruned(prev.content, ids);
    KeptPruned(m.content, ids);
  }

  /** Trimming alone already keeps the chain; only emptiness is left to mend. */
  lemma TrimChained(c: Transcript, ids: set<Id>)
    requires Chained(c)
    ensures Chained(TrimAll(c, ids))
  {
    var d := TrimAll(c, ids);
    forall i | 0 <= i < |d|
      ensures Placed(d[i])
    {
      assert Placed(c[i]);
      KeptPruned(c[i].content, ids);
      if c[i].role.User? {
        PrunedEmpty(Asks(c[i].content), Asks(d[i].content), ids);
      } else {
        PrunedEmpty(Answers(c[i].content), Answers(d[i].content), ids);
      }
    }
    forall i: nat
      ensures Linked(d, i)
    {
      assert Linked(c, i);
      if 0 < i < |c| {
        TrimFollows(c[i - 1], c[i], ids);
      }
    }
    TrimBlocks(c, ids);
    KeptPruned(Blocks(c), ids);
  }

  ghost predicate NonEmptyTurns(c: Transcript) {
    forall i :: 0 <= i < |c| ==> c[i].content != []
  }

  /** Everything `Gather` leaves of a chain that starts with a non-empty turn. */
  ghost predicate GatheredFrom(d: Transcript, g: Transcript) {
    && g != [] && d != []
    && Chained(g) && NonEmptyTurns(g)
    && Blocks(g) == Blocks(d)
    && g[0].role == d[0].role && Answers(g[0].content) == Answers(d[0].content)
    && Asks(Last(g).content) == Asks(Last(d).content)
    && (Last(d).content != [] ==> Last(g).role == Last(d).role)
  }

  lemma MergeLast(g: Transcript, m: Message)
    requires g != [] && Chained(g) && m.content != [] && Last(g).role == m.role
    requires Placed(m) && Asks(Last(g).content) == multiset{} && Answers(m.content) == multiset{}
    requires Distinct(AllAsks(Append(g, m)))
    ensures var r := Append(g, m);
            && Chained(r) && |r| == |g| && Front(r) == Front(g)
            && Asks(Last(r).content) == Asks(m.content)
            && Answers(Last(r).content) == Answers(Last(g).content)
  {
    ChainMerge(g, m);
    AppendBlocks(g, m);
    AsksAppend(Last(g).content, m.content);
    assert Placed(Last(g));
    assert multiset{} + Asks(m.content) == Asks(m.content);
    assert Answers(Last(g).content) + multiset{} == Answers(Last(g).content);
  }

  /** The step: an emptied turn means its calls and answers went together, so a
      merge can only join a turn without calls to one without answers. */
  lemma GatherStep(d: Transcript, m: Message, g: Transcript)
    requires GatheredFrom(d, g)
    requires Placed(m) && Follows(Last(d), m) && Distinct(AllAsks(d + [m]))
    ensures GatheredFrom(d + [m], Append(g, m))
  {
    SnocBlocks(d, m);
    AppendBlocks(g, m);
    if m.content == [] {
      assert Append(g, m) == g && Blocks(d) + [] == Blocks(d);
    } else if Last(g).role == m.role {
      MergeLast(g, m);
    } else {
      ChainSnoc(g, m);
    }
  }

  lemma {:induction false} GatherChained(d: Transcript)
    requires d != [] && Chained(d) && d[0].content != []
    ensures GatheredFrom(d, Gather(d))
  {
    var front, m := Front(d), Last(d);
    assert d == front + [m];
    ChainSnoc(front, m);
    if |d| == 1 {
      assert front == [] && Gather(front) == [] && Gather(d) == [m];
    } else {
      assert front[0] == d[0];
      GatherChained(front);
      GatherStep(front, m, Gather(front));
    }
  }

  // ----- the opening turn -----

  /** Before turn `i` no user turn has content. */
  ghost predicate NoUserContentBefore(d: Transcript, i: nat) {
    i <= |d| && forall k :: 0 <= k < i && d[k].role.User? ==> d[k].content == []
  }

  /** Turn `i` is the first user turn with content. */
  ghost predicate FirstUserContent(d: Transcript, i: nat) {
    i < |d| && d[i].role.User? && d[i].content != [] && NoUserContentBefore(d, i)
  }

  /** The first user turn with content exists and answers nothing. */
  ghost predicate OpensClean(d: Transcript) {
    exists i: nat :: FirstUserContent(d, i) && Answers(d[i].content) == multiset{}
  }

  lemma {:induction false} GatherLead(d: Transcript)
    requires NoUserContentBefore(d, |d|)
    ensures |Gather(d)| <= 1 && (Gather(d) != [] ==> Gather(d)[0].role.Assistant?)
  {
    if d != [] {
      GatherLead(Front(d));
    }
  }

  lemma AppendRight(x: Transcript, s: Transcript, m: Message)
    requires s != []
    ensures Append(x + s, m) == x + Append(s, m)
    ensures Append(s, m) != [] && Append(s, m)[0].role == s[0].role
  {
    assert Front(x + s) == x + Front(s);
  }

  /** Nothing merges across the first user content. */
  lemma {:induction false} GatherSplit(d: Transcript, i: nat)
    requires FirstUserContent(d, i)
    ensures Gather(d) == Gather(d[..i]) + Gather(d[i..])
    ensures Gather(d[i..]) != [] && Gather(d[i..])[0].role.User?
  {
    assert Front(d[i..]) == Front(d)[i..] && Front(d)[..i] == d[..i];
    if |d| == i + 1 {
      GatherLead(Front(d));
      assert Front(d) == d[..i] && Gather(Front(d)[i..]) == [];
    } else {
      GatherSplit(Front(d), i);
      AppendRight(Gather(d[..i]), Gather(Front(d)[i..]), Last(d));
      assert Front(d)[i..][0] == d[i] && Last(d[i..]) == Last(d);
    }
  }

  lemma NormalizedFrom(d: Transcript, i: nat)
    requires FirstUserContent(d, i)
    ensures Normalized(d) == Gather(d[i..])
  {
    GatherSplit(d, i);
    GatherLead(d[..i]);
    var g := Gather(d);
    var h := Gather(d[i..]);
    assert StripLead(h) == h;
    if Gather(d[..i]) != [] {
      assert g[1..] == h;
    } else {
      assert g == h;
    }
  }

  lemma ChainedSuffix(c: Transcript, k: nat)
    requires Chained(c) && k <= |c|
    ensures Chained(c[k..])
  {
    var d := c[k..];
    forall i | 0 <= i < |d|
      ensures Placed(d[i])
    {
      assert d[i] == c[k + i];
    }
    forall i: nat
      ensures Linked(d, i)
    {
      assert Linked(c, k + i);
    }
    PrefixAsksWithin(c, k);
    DistinctParts(AllAsks(c[..k]), AllAsks(d));
  }

  /** What normalizing a chain from its first user content leaves. */
  lemma NormalizedChained(d: Transcript, i: nat)
    requires Chained(d) && FirstUserContent(d, i) && Asks(Last(d).content) == multiset{}
    ensures GatheredFrom(d[i..], Normalized(d))
    ensures Valid(Normalized(d)) <==> Answers(d[i].content) == multiset{}
  {
    NormalizedFrom(d, i);
    ChainedSuffix(d, i);
    GatherChained(d[i..]);
  }

  lemma FirstUserContentExists(d: Transcript) returns (i: nat)
    ensures i <= |d| && NoUserContentBefore(d, i)
    ensures i < |d| ==> FirstUserContent(d, i)
  {
    i := 0;
    while i < |d| && (d[i].role != User || d[i].content == [])
      invariant i <= |d| && NoUserContentBefore(d, i)
    {
      i := i + 1;
    }
  }

  /** Normalizing a chain with no open call yields a valid transcript exactly
      when the first user turn with content answers nothing. */
  lemma NormalizedExact(d: Transcript)
    requires d != [] && Chained(d) && Asks(Last(d).content) == multiset{}
    ensures Valid(Normalized(d)) <==> OpensClean(d)
  {
    var i := FirstUserContentExists(d);
    if i < |d| {
      NormalizedChained(d, i);
      forall k | FirstUserContent(d, k)
        ensures k == i
      {
      }
    } else {
      GatherLead(d);
      assert Gather(d) != [] ==> Gather(d)[1..] == [] && StripLead(Gather(d)[1..]) == [];
      assert Normalized(d) == [];
    }
  }

  /** `DropPairs` on a valid transcript: valid exactly when something is left of
      a user turn and the first such turn lost the calls it answered with it. */
  lemma DropPairsExact(c: Transcript, ids: set<Id>)
    requires Valid(c)
    ensures Valid(DropPairs(c, ids)) <==> ids == {} || OpensClean(TrimAll(c, ids))
  {
    if ids != {} {
      var d := TrimAll(c, ids);
      TrimChained(c, ids);
      KeptPruned(Last(c).content, ids);
      PrunedEmpty(Asks(Last(c).content), Asks(Last(d).content), ids);
      NormalizedExact(d);
    }
  }

  lemma {:induction false} KeptAll(bs: seq<Block>, ids: set<Id>)
    requires Asks(bs) == multiset{} && Answers(bs) == multiset{}
    ensures Kept(bs, ids) == bs
  {
    if bs != [] {
      assert bs == Front(bs) + [Last(bs)];
      KeptAll(Front(bs), ids);
    }
  }

  lemma {:induction false} KeptNone(bs: seq<Block>)
    ensures Kept(bs, {}) == bs
  {
    if bs != [] {
      assert bs == Front(bs) + [Last(bs)];
      KeptNone(Front(bs));
    }
  }

  /** With content in turn 0 removal always keeps the protocol, empties no turn,
      and keeps exactly the blocks of the other pairs, in order. */
  lemma DropPairsKeeps(c: Transcript, ids: set<Id>)
    requires Valid(c) && c[0].content != []
    ensures Valid(DropPairs(c, ids))
    ensures Blocks(DropPairs(c, ids)) == Kept(Blocks(c), ids)
    ensures ids != {} ==> NonEmptyTurns(DropPairs(c, ids))
    ensures DropPairs(c, ids)[0].content != []
  {
    if ids == {} {
      KeptNone(Blocks(c));
    } else {
      var d := TrimAll(c, ids);
      TrimChained(c, ids);
      KeptPruned(Last(c).content, ids);
      PrunedEmpty(Asks(Last(c).content), Asks(Last(d).content), ids);
      assert Placed(c[0]);
      KeptAll(c[0].content, ids);
      NormalizedChained(d, 0);
      assert d[0..] == d;
      TrimBlocks(c, ids);
    }
  }

  /** A transcript that `Validate` accepts although its first turn is empty. */
  function EmptyOpening(): Transcript {
    [
      Message(User, []),
      Message(Assistant, [ToolUse(Id("a"), "t", ""), ToolUse(Id("b"), "t", "")]),
      Message(User, [ToolResult(Id("a"), "", false), ToolResult(Id("b"), "", false)])
    ]
  }

  lemma AsksOne(x: Block)
    ensures Asks([x]) == if x.ToolUse? then multiset{x.id} else multiset{}
    ensures Answers([x]) == if x.ToolResult? then multiset{x.useId} else multiset{}
  {
    assert Front([x]) == [];
  }

  lemma AsksTwo(x: Block, y: Block)
    ensures Asks([x, y]) == Asks([x]) + Asks([y])
    ensures Answers([x, y]) == Answers([x]) + Answers([y])
  {
    assert [x] + [y] == [x, y];
    AsksAppend([x], [y]);
  }

  lemma EmptyOpeningValid()
    ensures Valid(EmptyOpening())
    ensures AllAsks(EmptyOpening()) == multiset{Id("a"), Id("b")}
  {
    var c := EmptyOpening();
    assert Id("a").key[0] != Id("b").key[0];
    AsksOne(c[1].content[0]);
    AsksOne(c[1].content[1]);
    AsksTwo(c[1].content[0], c[1].content[1]);
    AsksOne(c[2].content[0]);
    AsksOne(c[2].content[1]);
    AsksTwo(c[2].content[0], c[2].content[1]);
    SnocBlocks([], c[0]);
    SnocBlocks([c[0]], c[1]);
    SnocBlocks([c[0], c[1]], c[2]);
    ChainSnoc([], c[0]);
    ChainSnoc([c[0]], c[1]);
    ChainSnoc([c[0], c[1]], c[2]);
    assert [] + [c[0]] == [c[0]] && [c[0]] + [c[1]] == [c[0], c[1]] && [c[0], c[1]] + [c[2]] == c;
  }

  /** Without content in turn 0 the law fails: the emptied opening goes, the
      first assistant turn is stripped after it, and its answer is orphaned. */
  lemma DropPairsOrphans()
    ensures Valid(EmptyOpening()) && !Valid(DropPairs(EmptyOpening(), {Id("a")}))
  {
    var c, ids := EmptyOpening(), {Id("a")};
    EmptyOpeningValid();
    var d := TrimAll(c, ids);
    assert Id("b").key[0] != Id("a").key[0];
    AsksOne(c[2].content[0]);
    AsksOne(c[2].content[1]);
    AsksTwo(c[2].content[0], c[2].content[1]);
    KeptPruned(c[2].content, ids);
    assert Answers(d[2].content)[Id("b")] == 1;
    assert FirstUserContent(d, 2);
    assert forall i :: FirstUserContent(d, i) ==> i == 2;
    DropPairsExact(c, ids);
  }
}
