/** When compositions of the shipped strategies keep a transcript sendable. A
    cut may promote an empty user turn to turn 0, and a later removal then
    strips the assistant turn behind it. */
module Compose {
  import opened Llm
  import opened Convo
  import opened Normalize
  import opened Strategy
  import opened StrategyLaws

  predicate EmptyUser(c: Transcript, k: nat) {
    k < |c| && c[k].role.User? && c[k].content == []
  }

  // ----- the shape of a transcript -----

  /** Behind every empty user turn the first user turn with content answers
      nothing, so that it can open the transcript. */
  ghost predicate Steady(c: Transcript) {
    forall k: nat :: EmptyUser(c, k) ==> OpensClean(c[k..])
  }

  /** What is asked of a transcript beyond `Valid`, each more than the one before. */
  datatype Need = Anything | Opening | Everywhere | Filled {
    function Rank(): nat {
      match this
      case Anything => 0
      case Opening => 1
      case Everywhere => 2
      case Filled => 3
    }
  }

  function Stronger(a: Need, b: Need): Need {
    if a.Rank() < b.Rank() then b else a
  }

  ghost predicate Shape(n: Need, c: Transcript) {
    match n
    case Anything => true
    case Opening => OpensClean(c)
    case Everywhere => Steady(c)
    case Filled => UserTurnsFilled(c)
  }

  lemma ShapeWeaken(n: Need, m: Need, c: Transcript)
    requires Opens(c) && Shape(n, c) && m.Rank() <= n.Rank()
    ensures Shape(m, c)
  {
    if n != m && m == Opening {
      assert c[0..] == c;
      if c[0].content == [] {
        assert EmptyUser(c, 0);
      } else {
        assert FirstUserContent(c, 0);
      }
    }
  }

  lemma NonEmptyShape(n: Need, c: Transcript)
    requires Opens(c) && NonEmptyTurns(c)
    ensures Shape(n, c)
  {
    ShapeWeaken(Filled, n, c);
  }

  lemma CutShape(n: Need, c: Transcript, k: nat)
    requires n != Opening && Shape(n, c) && k < |c|
    ensures Shape(n, c[k..])
  {
    if n == Everywhere {
      forall j: nat | EmptyUser(c[k..], j)
        ensures OpensClean(c[k..][j..])
      {
        assert EmptyUser(c, k + j);
        assert c[k..][j..] == c[k + j..];
      }
    }
  }

  /** The opening survives whatever is appended behind it. */
  lemma AppendOpensClean(c: Transcript, m: Message)
    requires OpensClean(c)
    requires Last(c).role.User? && m.role.User? ==> Answers(m.content) == multiset{}
    ensures OpensClean(Append(c, m))
  {
    var d := Append(c, m);
    var i: nat :| FirstUserContent(c, i) && Answers(c[i].content) == multiset{};
    assert forall j :: 0 <= j < |c| - 1 ==> d[j] == c[j];
    AsksAppend(Last(c).content, m.content);
    assert d[i] == c[i] || (i == |c| - 1 && d[i].content == Last(c).content + m.content);
    assert FirstUserContent(d, i);
  }

  lemma AppendSuffix(c: Transcript, m: Message, k: nat)
    requires k < |c|
    ensures Append(c, m)[k..] == Append(c[k..], m)
  {
    assert Last(c[k..]) == Last(c);
    assert Front(c[k..]) == Front(c)[k..];
  }

  lemma AppendShape(n: Need, c: Transcript, m: Message)
    requires c != [] && Shape(n, c)
    requires Last(c).role.User? && m.role.User? ==> Answers(m.content) == multiset{}
    ensures Shape(n, Append(c, m))
  {
    match n
    case Anything =>
    case Opening => AppendOpensClean(c, m);
    case Filled => AppendFilled(c, m);
    case Everywhere =>
      var d := Append(c, m);
      forall k: nat | EmptyUser(d, k)
        ensures OpensClean(d[k..])
      {
        assert EmptyUser(c, k);
        AppendSuffix(c, m, k);
        AppendOpensClean(c[k..], m);
      }
  }

  /** A text in front fills turn 0 and leaves every other turn alone. */
  lemma PrependIs(c: Transcript, s: string)
    requires Opens(c)
    ensures var d := Prepend(c, UserText(s));
            && |d| == |c| && d[0].role.User? && d[0].content != [] && Answers(d[0].content) == multiset{}
            && (forall i :: 0 < i < |c| ==> d[i] == c[i])
            && (forall k :: 0 < k < |c| ==> d[k..] == c[k..])
  {
    var d := Prepend(c, UserText(s));
    TextIsShapeless(s, c[0].content);
    assert d == [Message(User, [Text(s)] + c[0].content)] + c[1..];
  }

  lemma PrependSteady(c: Transcript, d: Transcript)
    requires Steady(c) && |d| == |c| > 0 && d[0].content != []
    requires forall k :: 0 < k < |c| ==> d[k] == c[k] && d[k..] == c[k..]
    ensures Steady(d)
  {
    forall k: nat | EmptyUser(d, k)
      ensures OpensClean(d[k..])
    {
      assert k > 0 && EmptyUser(c, k);
    }
  }

  lemma PrependShape(n: Need, c: Transcript, s: string)
    requires Opens(c) && Shape(n, c)
    ensures Shape(n, Prepend(c, UserText(s)))
  {
    PrependIs(c, s);
    var d := Prepend(c, UserText(s));
    match n
    case Anything =>
    case Opening => assert FirstUserContent(d, 0);
    case Filled =>
    case Everywhere => PrependSteady(c, d);
  }

  /** Removal from a transcript that opens clean: valid, and no empty turn left. */
  lemma DropShape(c: Transcript, ids: set<Id>)
    requires Valid(c) && OpensClean(c)
    ensures Valid(DropPairs(c, ids))
    ensures ids != {} ==> NonEmptyTurns(DropPairs(c, ids))
  {
    if ids != {} {
      var d := TrimAll(c, ids);
      var i: nat :| FirstUserContent(c, i) && Answers(c[i].content) == multiset{};
      assert Placed(c[i]);
      KeptAll(c[i].content, ids);
      TrimChained(c, ids);
      KeptPruned(Last(c).content, ids);
      PrunedEmpty(Asks(Last(c).content), Asks(Last(d).content), ids);
      assert FirstUserContent(d, i);
      NormalizedChained(d, i);
    }
  }

  // ----- what a composition demands -----

  function DemandAll(parts: seq<Strategy>, later: Need): Need
    decreases parts, 1, |parts|
  {
    if parts == [] then later else Demand(parts[0], DemandAll(parts[1..], later))
  }

  /** What must hold of a transcript for `st` to be safe on it and for `later` to
      hold of the result. */
  function Demand(st: Strategy, later: Need): Need
    decreases st, 0
  {
    match st
    case Flat => later
    case Window(_, _) => if later == Opening then Everywhere else later
    case Compacted(_, _, _) => if later == Opening then Everywhere else later
    case DropTagged(_, _, _) => Stronger(Opening, later)
    case Sequence(parts) => DemandAll(parts, later)
  }

  lemma {:induction false} DemandAllFilled(parts: seq<Strategy>)
    ensures DemandAll(parts, Filled) == Filled
    decreases parts, 1, |parts|
  {
    if parts != [] {
      DemandFilled(parts[0]);
      DemandAllFilled(parts[1..]);
    }
  }

  /** Turn content everywhere meets any demand. */
  lemma DemandFilled(st: Strategy)
    ensures Demand(st, Filled) == Filled
    decreases st, 0
  {
    if st.Sequence? {
      DemandAllFilled(st.parts);
    }
  }

  lemma {:induction false} DemandAllBelow(parts: seq<Strategy>, later: Need)
    ensures later != Filled ==> DemandAll(parts, later) != Filled
    decreases parts, 1, |parts|
  {
    if parts != [] {
      DemandAllBelow(parts[1..], later);
      DemandBelow(parts[0], DemandAll(parts[1..], later));
    }
  }

  /** No composition demands more than `Steady` unless more is wanted after it. */
  lemma DemandBelow(st: Strategy, later: Need)
    ensures later != Filled ==> Demand(st, later) != Filled
    decreases st, 0
  {
    if st.Sequence? {
      DemandAllBelow(st.parts, later);
    }
  }

  lemma CutReady(later: Need, c: Transcript, k: nat)
    requires Valid(c) && k < |c| && (k == 0 || SafeStart(c[k]))
    requires Shape(if later == Opening then Everywhere else later, c)
    ensures Valid(c[k..]) && Shape(later, c[k..])
  {
    CutKeeps(c, k);
    var n := if later == Opening then Everywhere else later;
    CutShape(n, c, k);
    ShapeWeaken(n, later, c[k..]);
  }

  lemma SummarizedReady(n: Need, tail: Transcript, summary: string)
    requires Valid(tail) && Shape(n, tail)
    ensures Valid(Summarized(tail, summary)) && Shape(n, Summarized(tail, summary))
  {
    if summary != "" {
      PrependKeeps(tail, SummaryText(summary));
      PrependShape(n, tail, SummaryText(summary));
    }
  }

  lemma CompactedReady(at: int, keep: int, fn: Compactor, later: Need, c: Transcript)
    requires Valid(c) && Shape(if later == Opening then Everywhere else later, c)
    ensures Valid(ApplyCompacted(at, keep, fn, c)) && Shape(later, ApplyCompacted(at, keep, fn, c))
  {
    var d, cut := ApplyCompacted(at, keep, fn, c), SafeCut(c, |c| - keep);
    SafeCutLargest(c, |c| - keep);
    ShapeWeaken(if later == Opening then Everywhere else later, later, c);
    if d != c {
      var summary := fn.summarize(c[..cut]);
      CutReady(later, c, cut);
      SummarizedReady(later, c[cut..], summary);
      assert d == Summarized(c[cut..], summary);
    }
  }

  lemma TaggedReady(trigger: int, keep: int, tags: seq<string>, later: Need, c: Transcript, infos: Infos)
    requires Valid(c) && Shape(Stronger(Opening, later), c)
    ensures Valid(ApplyTagged(trigger, keep, tags, c, infos)) && Shape(later, ApplyTagged(trigger, keep, tags, c, infos))
  {
    ShapeWeaken(Stronger(Opening, later), Opening, c);
    ShapeWeaken(Stronger(Opening, later), later, c);
    var ids := Victims(c, keep, tags, infos);
    DropShape(c, ids);
    if ids != {} {
      NonEmptyShape(later, DropPairs(c, ids));
    }
  }

  lemma {:induction false} ApplyAllReady(parts: seq<Strategy>, later: Need, c: Transcript, infos: Infos)
    requires Valid(c) && Shape(DemandAll(parts, later), c)
    ensures Valid(ApplyAll(parts, c, infos)) && Shape(later, ApplyAll(parts, c, infos))
    decreases parts, 1, |parts|
  {
    if parts != [] {
      ApplyReady(parts[0], DemandAll(parts[1..], later), c, infos);
      ApplyAllReady(parts[1..], later, Apply(parts[0], c, infos), infos);
    }
  }

  /** A composition whose demand is met makes a valid transcript again, and
      leaves what is wanted after it. */
  lemma ApplyReady(st: Strategy, later: Need, c: Transcript, infos: Infos)
    requires Valid(c) && Shape(Demand(st, later), c)
    ensures Valid(Apply(st, c, infos)) && Shape(later, Apply(st, c, infos))
    decreases st, 0
  {
    match st
    case Flat =>
    case Window(trigger, keep) =>
      SafeCutLargest(c, Anchor(trigger, keep, |c|));
      CutReady(later, c, WindowCut(trigger, keep, c));
    case DropTagged(trigger, keep, tags) => TaggedReady(trigger, keep, tags, later, c, infos);
    case Compacted(at, keep, fn) => CompactedReady(at, keep, fn, later, c);
    case Sequence(parts) => ApplyAllReady(parts, later, c, infos);
  }

  /** Content in every user turn survives every composition. */
  lemma ApplyKeeps(st: Strategy, c: Transcript, infos: Infos)
    requires Solid(c)
    ensures Solid(Apply(st, c, infos))
  {
    DemandFilled(st);
    ApplyReady(st, Filled, c, infos);
  }

  // ----- exactly when any composition will do -----

  /** Cutting to turn `k` and removing `ids` there leaves a sendable transcript. */
  ghost predicate Withstands(c: Transcript, k: nat, ids: set<Id>)
    requires k < |c|
  {
    ids != {} && (forall id :: id in ids ==> id in Uses(Blocks(c[k..]))) ==> OpensClean(TrimAll(c[k..], ids))
  }

  /** No removal behind an empty user turn orphans an answer. */
  ghost predicate Robust(c: Transcript) {
    forall k: nat, ids :: EmptyUser(c, k) ==> Withstands(c, k, ids)
  }

  lemma CutRobust(c: Transcript, k: nat)
    requires Robust(c) && k < |c|
    ensures Robust(c[k..])
  {
    forall j: nat, ids | EmptyUser(c[k..], j)
      ensures Withstands(c[k..], j, ids)
    {
      assert EmptyUser(c, k + j) && Withstands(c, k + j, ids);
      assert c[k..][j..] == c[k + j..];
    }
  }

  lemma PrependRobust(c: Transcript, s: string)
    requires Opens(c) && Robust(c)
    ensures Robust(Prepend(c, UserText(s)))
  {
    PrependIs(c, s);
    var d := Prepend(c, UserText(s));
    forall k: nat, ids | EmptyUser(d, k)
      ensures Withstands(d, k, ids)
    {
      assert k > 0 && d[k..] == c[k..] && EmptyUser(c, k) && Withstands(c, k, ids);
    }
  }

  lemma DropRobust(c: Transcript, ids: set<Id>)
    requires Valid(c) && Robust(c) && forall id :: id in ids ==> id in Uses(Blocks(c))
    ensures Valid(DropPairs(c, ids)) && Robust(DropPairs(c, ids))
  {
    if ids != {} {
      assert c[0..] == c;
      if c[0].content == [] {
        assert EmptyUser(c, 0) && Withstands(c, 0, ids);
      } else {
        DropPairsKeeps(c, ids);
      }
      DropPairsExact(c, ids);
      var d := TrimAll(c, ids);
      var i: nat :| FirstUserContent(d, i) && Answers(d[i].content) == multiset{};
      TrimChained(c, ids);
      KeptPruned(Last(c).content, ids);
      PrunedEmpty(Asks(Last(c).content), Asks(Last(d).content), ids);
      NormalizedChained(d, i);
    }
  }

  lemma VictimsAreUses(c: Transcript, keep: int, tags: seq<string>, infos: Infos)
    ensures forall id :: id in Victims(c, keep, tags, infos) ==> id in Uses(Blocks(c))
  {
    var n := Unprotected(c, keep);
    UsesMembers(Blocks(c));
    UsesMembers(Blocks(c[..n]));
    PrefixAsksWithin(c, n);
  }

  lemma CompactedRobust(at: int, keep: int, fn: Compactor, c: Transcript)
    requires Valid(c) && Robust(c)
    ensures Robust(ApplyCompacted(at, keep, fn, c))
  {
    if !CompactIdle(at, keep, fn, c) {
      var cut := SafeCut(c, |c| - keep);
      SafeCutLargest(c, |c| - keep);
      CutKeeps(c, cut);
      CutRobust(c, cut);
      PrependRobust(c[cut..], SummaryText(fn.summarize(c[..cut])));
    }
  }

  lemma {:induction false} RobustApplyAll(parts: seq<Strategy>, c: Transcript, infos: Infos)
    requires Valid(c) && Robust(c)
    ensures Valid(ApplyAll(parts, c, infos)) && Robust(ApplyAll(parts, c, infos))
    decreases parts, 1, |parts|
  {
    if parts != [] {
      RobustApply(parts[0], c, infos);
      RobustApplyAll(parts[1..], Apply(parts[0], c, infos), infos);
    }
  }

  lemma RobustApply(st: Strategy, c: Transcript, infos: Infos)
    requires Valid(c) && Robust(c)
    ensures Valid(Apply(st, c, infos)) && Robust(Apply(st, c, infos))
    decreases st, 0
  {
    match st
    case Flat =>
    case Window(trigger, keep) =>
      WindowKeepsValid(trigger, keep, c);
      CutRobust(c, WindowCut(trigger, keep, c));
    case DropTagged(trigger, keep, tags) =>
      VictimsAreUses(c, keep, tags, infos);
      DropRobust(c, Victims(c, keep, tags, infos));
    case Compacted(at, keep, fn) =>
      CompactedKeepsValid(at, keep, fn, c);
      CompactedRobust(at, keep, fn, c);
    case Sequence(parts) => RobustApplyAll(parts, c, infos);
  }

  // ----- a cut to an empty turn, and a removal behind it -----

  /** Cuts `n` messages from the end of the transcript and then removes every
      call tagged `tag`. */
  function CutThenDrop(n: nat, tag: string): Strategy {
    Sequence([Window(0, n), DropTagged(0, 0, [tag])])
  }

  lemma CutThenDropIs(c: Transcript, k: nat, tag: string, infos: Infos)
    requires EmptyUser(c, k)
    ensures Apply(CutThenDrop(|c| - k, tag), c, infos) == ApplyTagged(0, 0, [tag], c[k..], infos)
  {
    assert SafeStart(c[k]) && Anchor(0, |c| - k, |c|) == k;
    assert WindowCut(0, |c| - k, c) == k;
    TwoParts(Window(0, |c| - k), DropTagged(0, 0, [tag]), c, infos);
  }

  /** Of an unprotected transcript the victims are its tagged calls. */
  lemma VictimsTagged(d: Transcript, tag: string, infos: Infos, id: Id)
    ensures id in Victims(d, 0, [tag], infos) <==> id in Uses(Blocks(d)) && HasTag(infos, id, tag)
  {
    assert d[..|d|] == d;
    assert [tag][0] == tag;
    assert HasAnyTag(infos, id, [tag]) <==> HasTag(infos, id, tag);
  }

  function Tagging(ids: set<Id>, tag: string): Infos {
    map id | id in ids :: ResultInfo("", [tag], 0)
  }

  lemma DropTaggedIs(d: Transcript, tag: string, infos: Infos, ids: set<Id>)
    requires ids != {} && forall id :: id in ids <==> id in Uses(Blocks(d)) && HasTag(infos, id, tag)
    ensures ApplyTagged(0, 0, [tag], d, infos) == DropPairs(d, ids)
  {
    forall id
      ensures id in Victims(d, 0, [tag], infos) <==> id in ids
    {
      VictimsTagged(d, tag, infos, id);
    }
    assert Victims(d, 0, [tag], infos) == ids;
    var id :| id in ids;
    assert id in infos;
  }

  /** Where removing the tagged calls behind an empty turn leaves no clean
      opening, the composition breaks the transcript. */
  lemma CutThenDropBreaks(c: Transcript, k: nat, tag: string, infos: Infos, ids: set<Id>)
    requires Valid(c) && EmptyUser(c, k) && ids != {} && !OpensClean(TrimAll(c[k..], ids))
    requires forall id :: id in ids <==> id in Uses(Blocks(c[k..])) && HasTag(infos, id, tag)
    ensures !Valid(Apply(CutThenDrop(|c| - k, tag), c, infos))
  {
    CutThenDropIs(c, k, tag, infos);
    DropTaggedIs(c[k..], tag, infos, ids);
    CutKeeps(c, k);
    DropPairsExact(c[k..], ids);
  }

  lemma CompositionBreaks(c: Transcript, k: nat, ids: set<Id>)
    requires Valid(c) && EmptyUser(c, k) && !Withstands(c, k, ids)
    ensures !Valid(Apply(CutThenDrop(|c| - k, "x"), c, Tagging(ids, "x")))
  {
    assert forall id :: HasTag(Tagging(ids, "x"), id, "x") <==> id in ids by {
      assert ["x"][0] == "x";
    }
    CutThenDropBreaks(c, k, "x", Tagging(ids, "x"), ids);
  }

  ghost predicate SurvivesAll(c: Transcript) {
    forall st, infos :: Valid(Apply(st, c, infos))
  }

  /** A valid transcript survives every composition of the shipped strategies,
      with any tags and any compactor, if and only if it is robust. */
  lemma CompositionExact(c: Transcript)
    requires Valid(c)
    ensures SurvivesAll(c) <==> Robust(c)
  {
    if Robust(c) {
      forall st, infos
        ensures Valid(Apply(st, c, infos))
      {
        RobustApply(st, c, infos);
      }
    }
    if SurvivesAll(c) {
      forall k: nat, ids | EmptyUser(c, k)
        ensures Withstands(c, k, ids)
      {
        if !Withstands(c, k, ids) {
          CompositionBreaks(c, k, ids);
        }
      }
    }
  }

  // ----- the same condition, closed -----

  /** What starts at an empty user turn and survives every removal of its calls:
      it opens clean, or it has no call, or it has one and opens clean without. */
  ghost predicate Holdable(d: Transcript) {
    || OpensClean(d)
    || Uses(Blocks(d)) == []
    || exists id :: Uses(Blocks(d)) == [id] && OpensClean(TrimAll(d, {id}))
  }

  /** A clean opening survives any removal. */
  lemma CleanTrims(d: Transcript, ids: set<Id>)
    requires Chained(d) && OpensClean(d)
    ensures OpensClean(TrimAll(d, ids))
  {
    var i: nat :| FirstUserContent(d, i) && Answers(d[i].content) == multiset{};
    assert Placed(d[i]);
    KeptAll(d[i].content, ids);
    assert FirstUserContent(TrimAll(d, ids), i);
  }

  /** An answer that stays in the first user turn with content keeps it unclean,
      and no removal brings user content in. */
  lemma UncleanTrims(d: Transcript, i: nat, ids: set<Id>)
    requires i <= |d| && NoUserContentBefore(d, i)
    requires i < |d| ==> FirstUserContent(d, i) && exists x :: x in Answers(d[i].content) && x !in ids
    ensures !OpensClean(TrimAll(d, ids))
  {
    var t := TrimAll(d, ids);
    assert NoUserContentBefore(t, i);
    if i < |d| {
      var x :| x in Answers(d[i].content) && x !in ids;
      KeptPruned(d[i].content, ids);
      assert x in Answers(t[i].content);
      assert FirstUserContent(t, i);
    }
  }

  /** Of two calls there is one whose removal leaves an answer in front. */
  lemma TwoCallsBreak(d: Transcript) returns (id: Id)
    requires !OpensClean(d) && Distinct(AllAsks(d)) && |Uses(Blocks(d))| > 1
    ensures id in Uses(Blocks(d)) && !OpensClean(TrimAll(d, {id}))
  {
    DistinctUses(Blocks(d));
    var i := FirstUserContentExists(d);
    id := Uses(Blocks(d))[0];
    if i < |d| {
      assert Answers(d[i].content) != multiset{};
      var x :| x in Answers(d[i].content);
      if x == id {
        id := Uses(Blocks(d))[1];
      }
      assert x !in {id};
    }
    UncleanTrims(d, i, {id});
  }

  lemma WithstandsExact(c: Transcript, k: nat)
    requires Valid(c) && EmptyUser(c, k)
    ensures (forall ids :: Withstands(c, k, ids)) <==> Holdable(c[k..])
  {
    var d := c[k..];
    var uses := Uses(Blocks(d));
    ChainedSuffix(c, k);
    if OpensClean(d) {
      forall ids ensures Withstands(c, k, ids) {
        CleanTrims(d, ids);
      }
    } else if |uses| > 1 {
      var id := TwoCallsBreak(d);
      assert !Withstands(c, k, {id});
    } else if |uses| == 1 {
      assert uses == [uses[0]];
      assert Withstands(c, k, {uses[0]}) <==> OpensClean(TrimAll(d, {uses[0]}));
      if OpensClean(TrimAll(d, {uses[0]})) {
        forall ids ensures Withstands(c, k, ids) {
          assert ids != {} && (forall id :: id in ids ==> id in uses) ==> ids == {uses[0]};
        }
      }
    }
  }

  /** A valid transcript survives every composition if and only if what starts at
      each of its empty user turns opens clean, or has no call, or has one and
      opens clean without it. */
  lemma CompositionClosed(c: Transcript)
    requires Valid(c)
    ensures SurvivesAll(c) <==> forall k: nat :: EmptyUser(c, k) ==> Holdable(c[k..])
  {
    CompositionExact(c);
    forall k: nat | EmptyUser(c, k)
      ensures (forall ids :: Withstands(c, k, ids)) <==> Holdable(c[k..])
    {
      WithstandsExact(c, k);
    }
    if Robust(c) {
      forall k: nat, ids | EmptyUser(c, k) ensures Withstands(c, k, ids) {
      }
    }
  }
}
