/** Which tool results a strategy leaves in a transcript (`strategy.go`). */
module Survive {
  import opened Llm
  import opened Convo
  import opened Normalize
  import opened Strategy
  import opened StrategyLaws

  predicate HeldFrom(c: Transcript, cut: nat, b: Block) {
    exists i :: cut <= i < |c| && b in c[i].content
  }

  predicate Holds(c: Transcript, b: Block) {
    HeldFrom(c, 0, b)
  }

  lemma {:induction false} HoldsBlocks(c: Transcript, b: Block)
    ensures Holds(c, b) <==> b in Blocks(c)
  {
    if c != [] {
      HoldsBlocks(Front(c), b);
      assert c == Front(c) + [Last(c)];
      if b in Last(c).content {
        assert b in c[|c| - 1].content;
      }
      if Holds(Front(c), b) {
        var i :| 0 <= i < |Front(c)| && b in Front(c)[i].content;
        assert b in c[i].content;
      }
      if Holds(c, b) && b !in Last(c).content {
        var i :| 0 <= i < |c| && b in c[i].content;
        assert b in Front(c)[i].content;
      }
    }
  }

  predicate SparesAll(parts: seq<Strategy>, msgs: Transcript, infos: Infos, b: Block)
    requires b.ToolResult?
    decreases parts, 1, |parts|
  {
    parts == [] || (Spares(parts[0], msgs, infos, b) && SparesAll(parts[1..], Apply(parts[0], msgs, infos), infos, b))
  }

  /** Whether one strategy leaves the result `b` in the request: it stands behind
      the cut, or its call is not among the evicted. */
  predicate Spares(st: Strategy, msgs: Transcript, infos: Infos, b: Block)
    requires b.ToolResult?
    decreases st, 0
  {
    match st
    case Flat => true
    case Window(trigger, keep) => HeldFrom(msgs, WindowCut(trigger, keep, msgs), b)
    case DropTagged(trigger, keep, tags) =>
      TagsIdle(trigger, tags, msgs, infos) || b.useId !in Victims(msgs, keep, tags, infos)
    case Compacted(at, keep, fn) =>
      CompactIdle(at, keep, fn, msgs) || HeldFrom(msgs, SafeCut(msgs, |msgs| - keep), b)
    case Sequence(parts) => SparesAll(parts, msgs, infos, b)
  }

  // ----- cuts -----

  lemma CutHolds(c: Transcript, cut: nat, b: Block)
    requires cut <= |c|
    ensures Holds(c[cut..], b) <==> HeldFrom(c, cut, b)
    ensures HeldFrom(c, cut, b) ==> Holds(c, b)
  {
    if Holds(c[cut..], b) {
      var i :| 0 <= i < |c[cut..]| && b in c[cut..][i].content;
      assert b in c[cut + i].content;
    }
    if HeldFrom(c, cut, b) {
      var i :| cut <= i < |c| && b in c[i].content;
      assert b in c[cut..][i - cut].content;
    }
  }

  lemma PrependHolds(c: Transcript, text: string, b: Block)
    requires b.ToolResult?
    ensures Holds(Prepend(c, UserText(text)), b) <==> Holds(c, b)
  {
    var m := UserText(text);
    var d := Prepend(c, m);
    if c != [] && c[0].role.User? {
      assert |d| == |c| && d[0].content == [Text(text)] + c[0].content && forall i :: 0 < i < |c| ==> d[i] == c[i];
      assert forall i :: 0 <= i < |c| ==> (b in d[i].content <==> b in c[i].content);
    } else {
      assert d == [m] + c;
      if Holds(c, b) {
        var i :| 0 <= i < |c| && b in c[i].content;
        assert b in d[i + 1].content;
      }
      if Holds(d, b) {
        var i :| 0 <= i < |d| && b in d[i].content;
        assert b in c[i - 1].content;
      }
    }
  }

  // ----- removal -----

  lemma {:induction false} KeptMembers(bs: seq<Block>, ids: set<Id>, b: Block)
    ensures b in Kept(bs, ids) <==> b in bs && !Named(b, ids)
  {
    if bs != [] {
      KeptMembers(Front(bs), ids, b);
      assert b in bs <==> b in Front(bs) || b == Last(bs);
    }
  }

  lemma {:induction false} GatherBlocks(d: Transcript)
    ensures Blocks(Gather(d)) == Blocks(d)
  {
    if d != [] {
      GatherBlocks(Front(d));
      AppendBlocks(Gather(Front(d)), Last(d));
    }
  }

  /** Before the first user content stands no result. */
  lemma NoResultBefore(d: Transcript, i: nat, b: Block)
    requires Chained(d) && NoUserContentBefore(d, i) && b.ToolResult?
    ensures !Holds(d[..i], b)
  {
    forall j | 0 <= j < i
      ensures b !in d[..i][j].content
    {
      assert Placed(d[j]);
      if b in d[j].content {
        var k :| 0 <= k < |d[j].content| && d[j].content[k] == b;
        BlockWithin(d[j].content, k);
      }
    }
  }

  lemma NormalizedAway(d: Transcript)
    requires NoUserContentBefore(d, |d|)
    ensures Normalized(d) == []
  {
    GatherLead(d);
    var g := Gather(d);
    assert g != [] ==> g[1..] == [] && StripLead(g[1..]) == [];
  }

  lemma NormalizedHolds(d: Transcript, b: Block)
    requires Chained(d) && b.ToolResult?
    ensures Holds(Normalized(d), b) <==> Holds(d, b)
    ensures Chained(Normalized(d))
  {
    var i := FirstUserContentExists(d);
    NoResultBefore(d, i, b);
    assert d == d[..i] + d[i..];
    BlocksAppend(d[..i], d[i..]);
    HoldsBlocks(d, b);
    HoldsBlocks(d[..i], b);
    HoldsBlocks(Normalized(d), b);
    if i < |d| {
      NormalizedFrom(d, i);
      GatherBlocks(d[i..]);
      ChainedSuffix(d, i);
      GatherChained(d[i..]);
    } else {
      NormalizedAway(d);
      assert d[i..] == [];
    }
  }

  lemma DropPairsHolds(c: Transcript, ids: set<Id>, b: Block)
    requires Chained(c) && b.ToolResult?
    ensures Holds(DropPairs(c, ids), b) <==> Holds(c, b) && b.useId !in ids
    ensures Chained(DropPairs(c, ids))
  {
    if ids != {} {
      var d := TrimAll(c, ids);
      TrimChained(c, ids);
      NormalizedHolds(d, b);
      TrimBlocks(c, ids);
      HoldsBlocks(c, b);
      HoldsBlocks(d, b);
      KeptMembers(Blocks(c), ids, b);
    }
  }

  // ----- every strategy -----

  lemma SummarizedHolds(tail: Transcript, summary: string, b: Block)
    requires Chained(tail) && tail != [] && tail[0].role.User? && b.ToolResult?
    ensures Holds(Summarized(tail, summary), b) <==> Holds(tail, b)
    ensures Chained(Summarized(tail, summary))
  {
    if summary != "" {
      var text := SummaryText(summary);
      var d := Prepend(tail, UserText(text));
      PrependHolds(tail, text, b);
      TextIsShapeless(text, tail[0].content);
      assert d == [Message(User, [Text(text)] + tail[0].content)] + tail[1..];
      assert forall i :: 0 < i < |tail| ==> d[i] == tail[i];
      SameShapeChained(tail, d);
    }
  }

  lemma CompactedHolds(at: int, keep: int, fn: Compactor, msgs: Transcript, b: Block)
    requires Chained(msgs) && b.ToolResult?
    ensures var d := ApplyCompacted(at, keep, fn, msgs);
            && Chained(d)
            && (Holds(d, b) <==>
                Holds(msgs, b) && (CompactIdle(at, keep, fn, msgs) || HeldFrom(msgs, SafeCut(msgs, |msgs| - keep), b)))
  {
    var cut := SafeCut(msgs, |msgs| - keep);
    if !CompactIdle(at, keep, fn, msgs) && cut > 0 {
      SafeCutLargest(msgs, |msgs| - keep);
      CutHolds(msgs, cut, b);
      ChainedSuffix(msgs, cut);
      assert msgs[cut..][0] == msgs[cut];
      SummarizedHolds(msgs[cut..], fn.summarize(msgs[..cut]), b);
    }
  }

  lemma WindowHolds(trigger: int, keep: int, msgs: Transcript, b: Block)
    requires Chained(msgs) && b.ToolResult?
    ensures var d := ApplyWindow(trigger, keep, msgs);
            Chained(d) && (Holds(d, b) <==> Holds(msgs, b) && HeldFrom(msgs, WindowCut(trigger, keep, msgs), b))
  {
    CutHolds(msgs, WindowCut(trigger, keep, msgs), b);
    ChainedSuffix(msgs, WindowCut(trigger, keep, msgs));
  }

  lemma TaggedHolds(trigger: int, keep: int, tags: seq<string>, msgs: Transcript, infos: Infos, b: Block)
    requires Chained(msgs) && b.ToolResult?
    ensures var d := ApplyTagged(trigger, keep, tags, msgs, infos);
            && Chained(d)
            && (Holds(d, b) <==>
                Holds(msgs, b) && (TagsIdle(trigger, tags, msgs, infos) || b.useId !in Victims(msgs, keep, tags, infos)))
  {
    if !TagsIdle(trigger, tags, msgs, infos) {
      DropPairsHolds(msgs, Victims(msgs, keep, tags, infos), b);
    }
  }

  /** A strategy that is no sequence leaves exactly the results it spares. */
  lemma OneStrategy(st: Strategy, msgs: Transcript, infos: Infos, b: Block)
    requires Chained(msgs) && b.ToolResult? && !st.Sequence?
    ensures Holds(Apply(st, msgs, infos), b) <==> Holds(msgs, b) && Spares(st, msgs, infos, b)
    ensures Chained(Apply(st, msgs, infos))
  {
    if st.Window? {
      WindowHolds(st.trigger, st.keep, msgs, b);
    } else if st.DropTagged? {
      TaggedHolds(st.trigger, st.keep, st.tags, msgs, infos, b);
    } else if st.Compacted? {
      CompactedHolds(st.at, st.keep, st.fn, msgs, b);
    }
  }

  lemma {:induction false} SparedByAll(parts: seq<Strategy>, msgs: Transcript, infos: Infos, b: Block)
    requires Chained(msgs) && b.ToolResult?
    ensures Holds(ApplyAll(parts, msgs, infos), b) <==> Holds(msgs, b) && SparesAll(parts, msgs, infos, b)
    ensures Chained(ApplyAll(parts, msgs, infos))
    decreases parts, 1, |parts|
  {
    if parts != [] {
      SparedIsHeld(parts[0], msgs, infos, b);
      SparedByAll(parts[1..], Apply(parts[0], msgs, infos), infos, b);
    }
  }

  /** A result is in what any nesting of strategies makes of a transcript exactly
      when it was there and every strategy on the way spares it; none brings a
      result that was not there. */
  lemma SparedIsHeld(st: Strategy, msgs: Transcript, infos: Infos, b: Block)
    requires Chained(msgs) && b.ToolResult?
    ensures Holds(Apply(st, msgs, infos), b) <==> Holds(msgs, b) && Spares(st, msgs, infos, b)
    ensures Chained(Apply(st, msgs, infos))
    decreases st, 0
  {
    if st.Sequence? {
      SparedByAll(st.parts, msgs, infos, b);
    } else {
      OneStrategy(st, msgs, infos, b);
    }
  }
}
