/** What every composition of the shipped strategies keeps, and where the cut of
    the sliding window stands still. */
module StrategyLaws {
  import opened Llm
  import opened Convo
  import opened Normalize
  import opened Strategy

  // ----- changing text only -----

  ghost predicate SameShape(m: Message, n: Message) {
    m.role == n.role && Asks(m.content) == Asks(n.content) && Answers(m.content) == Answers(n.content)
  }

  /** The protocol reads roles and ids only. */
  lemma {:induction false} SameShapeAsks(c: Transcript, d: Transcript)
    requires |c| == |d| && forall i :: 0 <= i < |c| ==> SameShape(c[i], d[i])
    ensures AllAsks(c) == AllAsks(d)
  {
    if c != [] {
      SameShapeAsks(Front(c), Front(d));
      assert SameShape(Last(c), Last(d));
      AsksAppend(Blocks(Front(c)), Last(c).content);
      AsksAppend(Blocks(Front(d)), Last(d).content);
    }
  }

  lemma SameShapeChained(c: Transcript, d: Transcript)
    requires Chained(c) && |c| == |d| && forall i :: 0 <= i < |c| ==> SameShape(c[i], d[i])
    ensures Chained(d)
  {
    SameShapeAsks(c, d);
    forall i | 0 <= i < |d|
      ensures Placed(d[i])
    {
      assert Placed(c[i]);
    }
    forall i: nat
      ensures Linked(d, i)
    {
      assert Linked(c, i);
      if 0 < i < |d| {
        assert SameShape(c[i - 1], d[i - 1]) && SameShape(c[i], d[i]);
      }
    }
  }

  lemma SameShapeValid(c: Transcript, d: Transcript)
    requires Valid(c) && |c| == |d| && forall i :: 0 <= i < |c| ==> SameShape(c[i], d[i])
    ensures Valid(d)
  {
    SameShapeChained(c, d);
    assert SameShape(c[0], d[0]) && SameShape(Last(c), Last(d));
  }

  lemma TextIsShapeless(s: string, bs: seq<Block>)
    ensures Asks([Text(s)] + bs) == Asks(bs) && Answers([Text(s)] + bs) == Answers(bs)
    ensures Asks(bs + [Text(s)]) == Asks(bs) && Answers(bs + [Text(s)]) == Answers(bs)
  {
    AsksOne(Text(s));
    AsksAppend([Text(s)], bs);
    AsksAppend(bs, [Text(s)]);
  }

  // ----- each strategy -----

  lemma PrependKeeps(c: Transcript, s: string)
    requires Valid(c)
    ensures Valid(Prepend(c, UserText(s)))
    ensures UserTurnsFilled(c) ==> UserTurnsFilled(Prepend(c, UserText(s)))
  {
    var d := Prepend(c, UserText(s));
    TextIsShapeless(s, c[0].content);
    assert d == [Message(c[0].role, [Text(s)] + c[0].content)] + c[1..];
    forall i | 0 <= i < |c|
      ensures SameShape(c[i], d[i])
    {
      assert i > 0 ==> d[i] == c[i];
    }
    SameShapeValid(c, d);
  }

  /** A cut alone needs no more of its input than `Validate` does. */
  lemma WindowKeepsValid(trigger: int, keep: int, c: Transcript)
    requires Valid(c)
    ensures Valid(ApplyWindow(trigger, keep, c))
    ensures UserTurnsFilled(c) ==> UserTurnsFilled(ApplyWindow(trigger, keep, c))
  {
    SafeCutLargest(c, Anchor(trigger, keep, |c|));
    CutKeeps(c, WindowCut(trigger, keep, c));
  }

  lemma CompactedKeepsValid(at: int, keep: int, fn: Compactor, c: Transcript)
    requires Valid(c)
    ensures Valid(ApplyCompacted(at, keep, fn, c))
    ensures UserTurnsFilled(c) ==> UserTurnsFilled(ApplyCompacted(at, keep, fn, c))
  {
    if !CompactIdle(at, keep, fn, c) {
      var cut := SafeCut(c, |c| - keep);
      SafeCutLargest(c, |c| - keep);
      CutKeeps(c, cut);
      PrependKeeps(c[cut..], SummaryText(fn.summarize(c[..cut])));
    }
  }

  /** A non-empty turn 0 is not enough once strategies compose: a window may cut
      to an empty user turn, and removal then orphans what follows it. */
  function EmptyMiddle(): Transcript {
    [UserText("hi"), Message(Assistant, [Text("yes")])] + EmptyOpening()
  }

  lemma TwoParts(first: Strategy, second: Strategy, c: Transcript, infos: Infos)
    ensures Apply(Sequence([first, second]), c, infos) == Apply(second, Apply(first, c, infos), infos)
  {
    var mid := Apply(first, c, infos);
    assert [first, second][1..] == [second] && [second][1..] == [];
    assert ApplyAll([second], mid, infos) == ApplyAll([], Apply(second, mid, infos), infos);
  }

  function OldInfos(): Infos {
    map[Id("a") := ResultInfo("t", ["old"], 0)]
  }

  lemma WindowPromotes()
    ensures Apply(Window(0, 3), EmptyMiddle(), OldInfos()) == EmptyOpening()
  {
    var c := EmptyMiddle();
    assert c[2] == EmptyOpening()[0] && SafeStart(c[2]);
    assert c[2..] == EmptyOpening();
  }

  lemma OldVictims()
    ensures Victims(EmptyOpening(), 0, ["old"], OldInfos()) == {Id("a")}
  {
    var c, a, b := EmptyOpening(), Id("a"), Id("b");
    EmptyOpeningValid();
    UsesMembers(Blocks(c));
    assert c[..3] == c;
    assert HasTag(OldInfos(), a, ["old"][0]);
    assert b !in OldInfos() by { assert b.key[0] != a.key[0]; }
    assert !HasAnyTag(OldInfos(), b, ["old"]);
  }

  lemma DropsOld(c: Transcript, infos: Infos)
    requires c == EmptyOpening() && infos == OldInfos()
    ensures Apply(DropTagged(0, 0, ["old"]), c, infos) == DropPairs(c, {Id("a")})
  {
    OldVictims();
    assert Id("a") in infos && ["old"][0] == "old";
  }

  lemma ChainConcat(c: Transcript, d: Transcript)
    requires c != [] && d != [] && Chained(c) && Chained(d) && Follows(Last(c), d[0])
    requires Distinct(AllAsks(c) + AllAsks(d))
    ensures Chained(c + d)
  {
    var e := c + d;
    AllAsksAppend(c, d);
    forall i | 0 <= i < |e|
      ensures Placed(e[i])
    {
      assert e[i] == if i < |c| then c[i] else d[i - |c|];
    }
    forall i: nat
      ensures Linked(e, i)
    {
      if i < |c| {
        assert Linked(c, i);
      } else {
        assert Linked(d, i - |c|);
      }
    }
  }

  lemma PreludeValid(s: string, t: string, tail: Transcript)
    requires Valid(tail)
    ensures Valid([UserText(s), Message(Assistant, [Text(t)])] + tail)
  {
    var u, a := UserText(s), Message(Assistant, [Text(t)]);
    TextIsShapeless(s, []);
    TextIsShapeless(t, []);
    assert [Text(s)] + [] == u.content && [Text(t)] + [] == a.content;
    ChainSnoc([], u);
    ChainSnoc([u], a);
    SnocBlocks([], u);
    SnocBlocks([u], a);
    assert [] + [u] == [u] && [u] + [a] == [u, a];
    assert AllAsks([u, a]) + AllAsks(tail) == AllAsks(tail);
    ChainConcat([u, a], tail);
    assert Last([u, a] + tail) == Last(tail);
  }

  lemma CompositionNeedsFilledTurns()
    ensures Valid(EmptyMiddle()) && EmptyMiddle()[0].content != []
    ensures !Valid(Apply(Sequence([Window(0, 3), DropTagged(0, 0, ["old"])]), EmptyMiddle(), OldInfos()))
  {
    var c, tail, infos := EmptyMiddle(), EmptyOpening(), OldInfos();
    EmptyOpeningValid();
    PreludeValid("hi", "yes", tail);
    WindowPromotes();
    DropsOld(tail, infos);
    DropPairsOrphans();
    TwoParts(Window(0, 3), DropTagged(0, 0, ["old"]), c, infos);
  }

  // ----- tagged eviction at the edge of the protected messages -----

  lemma UsedOnce(c: Transcript, p: nat, i: nat, id: Id)
    requires Distinct(AllAsks(c)) && p <= i < |c|
    requires id in Asks(c[i].content)
    ensures id !in AllAsks(c[..p])
  {
    PrefixAsksWithin(c, p);
    DistinctParts(AllAsks(c[..p]), AllAsks(c[p..]));
    assert c[p..][i - p] == c[i];
    TurnAsksWithin(c[p..], i - p);
  }

  /** In the last `keep` messages no call is ever dropped, but an answer is:
      exactly when it sits in the first of them and its call is tagged. */
  lemma TaggedEdge(c: Transcript, keep: int, tags: seq<string>, infos: Infos, i: nat, j: nat)
    requires Valid(c) && Unprotected(c, keep) <= i < |c| && j < |c[i].content|
    ensures var b := c[i].content[j];
            Named(b, Victims(c, keep, tags, infos)) <==>
            b.ToolResult? && i == Unprotected(c, keep) && HasAnyTag(infos, b.useId, tags)
  {
    var p, b := Unprotected(c, keep), c[i].content[j];
    BlockWithin(c[i].content, j);
    UsesMembers(Blocks(c[..p]));
    if b.ToolUse? {
      UsedOnce(c, p, i, b.id);
    } else if b.ToolResult? {
      ResultIsTimely(c, i, j);
      if i > p {
        UsedOnce(c, p, i - 1, b.useId);
      } else {
        assert c[..p][i - 1] == c[i - 1];
        TurnAsksWithin(c[..p], i - 1);
      }
    }
  }

  // ----- the anchor of the sliding window -----

  lemma MulMonotone(a: nat, b: nat, d: nat)
    ensures a <= b ==> a * d <= b * d
  {
    if a <= b {
      assert b * d - a * d == (b - a) * d;
    }
  }

  lemma MulStep(p: nat, q: nat, d: nat)
    ensures p > q ==> p * d >= q * d + d
  {
    if p > q {
      MulMonotone(q + 1, p, d);
    }
  }

  lemma DivMonotone(a: nat, b: nat, d: nat)
    requires a <= b && d > 0
    ensures a / d * d <= b / d * d
  {
    var p, q := a / d, b / d;
    assert p * d <= a && b < q * d + d;
    MulStep(p, q, d);
    MulMonotone(p, q, d);
  }

  lemma AnchorMonotone(trigger: int, keep: int, n: nat, m: nat)
    requires n <= m
    ensures 0 <= Anchor(trigger, keep, n) <= Anchor(trigger, keep, m)
    ensures Anchor(trigger, keep, n) == 0 || Anchor(trigger, keep, n) <= n - keep
  {
    var d := trigger - keep;
    if keep > 0 && trigger > 0 && d > 0 && m >= trigger {
      if n >= trigger {
        DivMonotone(n - keep, m - keep, d);
      }
    }
  }

  /** `SafeCut` reads nothing past the position it is asked about. */
  lemma {:induction false} LastSafeStable(msgs: Transcript, more: Transcript, i: nat, k: nat)
    requires i <= k < |msgs + more| && i < |msgs|
    ensures LastSafe(msgs, i) == LastSafe(msgs + more, i) <= LastSafe(msgs + more, k)
    decreases k
  {
    if i < k {
      LastSafeStable(msgs, more, i, k - 1);
    } else if i > 0 {
      assert (msgs + more)[i] == msgs[i];
      LastSafeStable(msgs, more, i - 1, i - 1);
    }
  }

  /** As whole messages are appended the cut never moves backward. */
  lemma WindowCutMonotone(trigger: int, keep: int, msgs: Transcript, more: Transcript)
    ensures WindowCut(trigger, keep, msgs) <= WindowCut(trigger, keep, msgs + more)
  {
    var a, b := Anchor(trigger, keep, |msgs|), Anchor(trigger, keep, |msgs + more|);
    AnchorMonotone(trigger, keep, |msgs|, |msgs + more|);
    AnchorMonotone(trigger, keep, |msgs + more|, |msgs + more|);
    if a > 0 {
      LastSafeStable(msgs, more, a, b);
    }
  }

  lemma ShortOfTrigger(n: nat, keep: nat, d: nat)
    requires keep <= n && d > 0
    ensures n < keep + d ==> (n - keep) / d * d == 0
  {
  }

  /** While the transcript grows inside one block of `trigger - keep` lengths the
      cut stands still, so each request extends the one before it. */
  lemma WindowPrefixStable(trigger: int, keep: int, msgs: Transcript, more: Transcript)
    requires 0 < keep < trigger && keep <= |msgs|
    requires (|msgs| - keep) / (trigger - keep) == (|msgs + more| - keep) / (trigger - keep)
    ensures WindowCut(trigger, keep, msgs) == WindowCut(trigger, keep, msgs + more)
    ensures ApplyWindow(trigger, keep, msgs + more) == ApplyWindow(trigger, keep, msgs) + more
  {
    var d := trigger - keep;
    var a := Anchor(trigger, keep, |msgs|);
    AnchorMonotone(trigger, keep, |msgs|, |msgs + more|);
    ShortOfTrigger(|msgs|, keep, d);
    ShortOfTrigger(|msgs + more|, keep, d);
    assert a == Anchor(trigger, keep, |msgs + more|);
    if a > 0 {
      LastSafeStable(msgs, more, a, a);
    }
  }

  lemma BlockRemainder(n: nat, d: nat)
    requires d > 0
    ensures n - d < n / d * d <= n
  {
  }

  lemma BlockIsPositive(n: nat, d: nat)
    requires 0 < d <= n
    ensures n / d * d >= d
  {
    DivMonotone(d, n, d);
  }

  /** The floor on what survives is `keep`; the ceiling is `trigger - 1` whenever
      the anchor itself is safe to cut at. */
  lemma WindowSurvivors(trigger: int, keep: int, msgs: Transcript)
    ensures keep > 0 ==> |ApplyWindow(trigger, keep, msgs)| >= if |msgs| < keep then |msgs| else keep
    ensures var a := Anchor(trigger, keep, |msgs|);
            0 < keep < trigger && (a == 0 || SafeStart(msgs[a])) ==> |ApplyWindow(trigger, keep, msgs)| < trigger
  {
    var a := Anchor(trigger, keep, |msgs|);
    AnchorMonotone(trigger, keep, |msgs|, |msgs|);
    SafeCutLargest(msgs, a);
    if 0 < keep < trigger && |msgs| >= trigger {
      BlockRemainder(|msgs| - keep, trigger - keep);
      BlockIsPositive(|msgs| - keep, trigger - keep);
    }
  }

  // ----- exactly what each strategy sends -----

  /** Where a window over `n` messages wants to cut: it leaves the last `keep`, or,
      with a trigger, a multiple of `trigger - keep` less once that many are there. */
  ghost predicate Wanted(trigger: int, keep: int, n: nat, want: int) {
    if keep <= 0 || n <= keep then want == 0
    else if trigger <= 0 then want == n - keep
    else if trigger <= keep || n < trigger then want == 0
    else
      var d := trigger - keep;
      want / d * d == want && n - keep - d < want <= n - keep
  }

  lemma AnchorWanted(trigger: int, keep: int, n: nat)
    ensures Wanted(trigger, keep, n, Anchor(trigger, keep, n))
  {
    if 0 < keep < trigger <= n {
      BlockRemainder(n - keep, trigger - keep);
      MultipleOf((n - keep) / (trigger - keep), trigger - keep);
    }
  }

  lemma MultipleOf(q: nat, d: nat)
    requires d > 0
    ensures q * d / d * d == q * d
  {
    var n := q * d;
    var p := n / d;
    BlockRemainder(n, d);
    MulStep(q, p, d);
    MulStep(p, q, d);
  }

  /** A window sends the transcript from the last valid cut it may make. */
  lemma WindowExact(trigger: int, keep: int, c: Transcript) returns (want: int, cut: nat)
    requires Valid(c)
    ensures Wanted(trigger, keep, |c|, want) && LastValidCut(c, want, cut) && cut <= |c|
    ensures ApplyWindow(trigger, keep, c) == c[cut..]
  {
    want := Anchor(trigger, keep, |c|);
    AnchorWanted(trigger, keep, |c|);
    SafeCutMaximal(c, want);
    cut := SafeCut(c, want);
  }

  lemma FirstBlocks(m: Message, c: Transcript)
    ensures Blocks([m] + c) == m.content + Blocks(c)
  {
    SnocBlocks([], m);
    assert [] + [m] == [m] && Blocks([]) + m.content == m.content;
    BlocksAppend([m], c);
  }

  lemma PrependBlocks(c: Transcript, s: string)
    ensures Blocks(Prepend(c, UserText(s))) == [Text(s)] + Blocks(c)
  {
    var m := UserText(s);
    if c != [] && c[0].role == User {
      var first, rest := Message(User, m.content + c[0].content), Blocks(c[1..]);
      FirstBlocks(first, c[1..]);
      FirstBlocks(c[0], c[1..]);
      assert c == [c[0]] + c[1..];
      assert m.content + c[0].content + rest == m.content + (c[0].content + rest);
    } else {
      assert Prepend(c, m) == [m] + c;
      FirstBlocks(m, c);
    }
  }

  /** Compaction acts once there are `at` messages: it hands everything before the
      last valid cut to the summarizer and sends the summary, in its tags, before
      what is left. */
  lemma CompactedExact(at: int, keep: int, summarize: seq<Message> -> string, c: Transcript) returns (cut: nat)
    requires Valid(c) && 0 < keep < |c| && 0 < at <= |c|
    ensures LastValidCut(c, |c| - keep, cut) && cut <= |c|
    ensures var out := ApplyCompacted(at, keep, Compactor(summarize), c);
            if cut == 0 then out == c
            else if summarize(c[..cut]) == "" then out == c[cut..]
            else Blocks(out) ==
                 [Text("<conversation_summary>\n" + summarize(c[..cut]) + "\n</conversation_summary>")] + Blocks(c[cut..])
  {
    cut := SafeCut(c, |c| - keep);
    SafeCutMaximal(c, |c| - keep);
    if cut > 0 {
      PrependBlocks(c[cut..], SummaryText(summarize(c[..cut])));
    }
  }

  /** Below its threshold, or with nothing it is told to do, a strategy sends the
      transcript as it is. */
  lemma IdleExact(limit: int, keep: int, fn: Compactor, tags: seq<string>, c: Transcript, infos: Infos)
    ensures fn.NoCompactor? || keep <= 0 || limit <= 0 || |c| < limit || |c| <= keep ==>
              ApplyCompacted(limit, keep, fn, c) == c
    ensures tags == [] || |c| < limit ==> ApplyTagged(limit, keep, tags, c, infos) == c
  {
  }

  /** A call among the messages before the last `keep`. */
  ghost predicate CalledBefore(c: Transcript, keep: int, id: Id) {
    exists i, j :: 0 <= i < |c| && i < |c| - keep && 0 <= j < |c[i].content| && CallAt(c[i], j, id)
  }

  ghost predicate CallAt(m: Message, j: nat, id: Id) {
    j < |m.content| && m.content[j].ToolUse? && m.content[j].id == id
  }

  lemma {:induction false} UsedAt(bs: seq<Block>, id: Id)
    ensures id in Uses(bs) <==> exists j :: 0 <= j < |bs| && bs[j].ToolUse? && bs[j].id == id
  {
    if bs != [] {
      UsedAt(Front(bs), id);
      assert forall j :: 0 <= j < |Front(bs)| ==> Front(bs)[j] == bs[j];
      assert bs[|bs| - 1] == Last(bs);
    }
  }

  lemma {:induction false} CalledExact(c: Transcript, p: nat, id: Id)
    requires p <= |c|
    ensures id in Uses(Blocks(c[..p])) <==> exists i, j :: 0 <= i < p && 0 <= j < |c[i].content| && CallAt(c[i], j, id)
  {
    if p > 0 {
      CalledExact(c, p - 1, id);
      BlocksStep(c, p - 1);
      UsesAppend(Blocks(c[..p - 1]), c[p - 1].content);
      UsedAt(c[p - 1].content, id);
      if id in Uses(c[p - 1].content) {
        var j :| 0 <= j < |c[p - 1].content| && c[p - 1].content[j].ToolUse? && c[p - 1].content[j].id == id;
        assert CallAt(c[p - 1], j, id);
      }
    }
  }

  /** Both halves of every pair in `gone` are left out. */
  function Without(bs: seq<Block>, gone: set<Id>): seq<Block> {
    if bs == [] then []
    else
      var rest := Without(bs[1..], gone);
      match bs[0]
      case ToolUse(id, _, _) => if id in gone then rest else [bs[0]] + rest
      case ToolResult(id, _, _) => if id in gone then rest else [bs[0]] + rest
      case _ => [bs[0]] + rest
  }

  lemma {:induction false} WithoutSnoc(bs: seq<Block>, b: Block, gone: set<Id>)
    ensures Without(bs + [b], gone) == if Named(b, gone) then Without(bs, gone) else Without(bs, gone) + [b]
  {
    var all := bs + [b];
    if bs == [] {
      assert all == [b] && [b][1..] == [];
    } else {
      assert all[0] == bs[0] && all[1..] == bs[1..] + [b];
      WithoutSnoc(bs[1..], b, gone);
    }
  }

  lemma {:induction false} KeptIsWithout(bs: seq<Block>, gone: set<Id>)
    ensures Kept(bs, gone) == Without(bs, gone)
  {
    if bs != [] {
      KeptIsWithout(Front(bs), gone);
      assert bs == Front(bs) + [Last(bs)];
      WithoutSnoc(Front(bs), Last(bs), gone);
    }
  }

  /** Eviction acts once there are `trigger` messages: it leaves out, with both
      halves, exactly the calls before the last `keep` messages that carry one of
      the tags. */
  lemma TaggedExact(trigger: int, keep: int, tags: seq<string>, c: Transcript, infos: Infos) returns (gone: set<Id>)
    requires Valid(c) && c[0].content != [] && trigger <= |c|
    ensures forall id :: id in gone <==> CalledBefore(c, keep, id) && id in infos && exists t :: t in tags && t in infos[id].tags
    ensures Blocks(ApplyTagged(trigger, keep, tags, c, infos)) == Without(Blocks(c), gone)
  {
    var p := Unprotected(c, keep);
    gone := Victims(c, keep, tags, infos);
    forall id
      ensures id in gone <==> CalledBefore(c, keep, id) && id in infos && exists t :: t in tags && t in infos[id].tags
    {
      CalledExact(c, p, id);
      TagsExact(infos, id, tags);
    }
    DropPairsKeeps(c, gone);
    KeptIsWithout(Blocks(c), gone);
    if TagsIdle(trigger, tags, c, infos) {
      KeptNone(Blocks(c));
      assert gone == {};
    }
  }

  lemma TagsExact(infos: Infos, id: Id, tags: seq<string>)
    ensures HasAnyTag(infos, id, tags) <==> id in infos && exists t :: t in tags && t in infos[id].tags
  {
    if HasAnyTag(infos, id, tags) {
      var k :| 0 <= k < |tags| && HasTag(infos, id, tags[k]);
      assert tags[k] in tags;
    }
    if id in infos && exists t :: t in tags && t in infos[id].tags {
      var t :| t in tags && t in infos[id].tags;
      var k :| 0 <= k < |tags| && tags[k] == t;
      assert HasTag(infos, id, tags[k]);
    }
  }
}
