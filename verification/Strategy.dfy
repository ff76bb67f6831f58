/** Transcript strategies from `strategy.go`: which slice of a conversation is
    sent for one model call. */
module Strategy {
  import opened Llm
  import opened Convo
  import opened Normalize

  /** Facts kept about a call once it was dispatched. */
  datatype ResultInfo = ResultInfo(tool: string, tags: seq<string>, bytes: nat)

  type Infos = map<Id, ResultInfo>

  datatype Compactor = NoCompactor | Compactor(summarize: seq<Message> -> string)

  datatype Strategy =
    | Flat
    | Window(trigger: int, keep: int)
    | DropTagged(trigger: int, keep: int, tags: seq<string>)
    | Compacted(at: int, keep: int, fn: Compactor)
    | Sequence(parts: seq<Strategy>)

  // ----- SafeCut -----

  /** A fresh instruction: cutting before it orphans nothing. */
  predicate SafeStart(m: Message) {
    m.role.User? && forall j :: 0 <= j < |m.content| ==> !m.content[j].ToolResult?
  }

  lemma {:induction false} NoResultsNoAnswers(bs: seq<Block>)
    ensures Answers(bs) == multiset{} <==> forall j :: 0 <= j < |bs| ==> !bs[j].ToolResult?
  {
    if bs != [] {
      NoResultsNoAnswers(Front(bs));
      assert forall j :: 0 <= j < |bs| - 1 ==> Front(bs)[j] == bs[j];
      assert Last(bs).ToolResult? ==> Last(bs).useId in Answers(bs);
    }
  }

  function LastSafe(msgs: Transcript, i: nat): (cut: nat)
    requires i < |msgs|
    ensures cut <= i
  {
    if i == 0 then 0 else if SafeStart(msgs[i]) then i else LastSafe(msgs, i - 1)
  }

  function SafeCut(msgs: Transcript, want: int): (cut: nat)
    ensures cut == 0 || cut < |msgs|
  {
    if want <= 0 || msgs == [] then 0
    else LastSafe(msgs, if want >= |msgs| then |msgs| - 1 else want)
  }

  /** `cut` is the largest safe boundary at or before `want`, or 0. */
  ghost predicate LargestSafe(msgs: Transcript, want: int, cut: nat) {
    && (cut > 0 ==> cut <= want && cut < |msgs| && SafeStart(msgs[cut]))
    && (forall i :: cut < i < |msgs| && i <= want ==> !SafeStart(msgs[i]))
  }

  lemma {:induction false} LastSafeLargest(msgs: Transcript, i: nat)
    requires i < |msgs|
    ensures LargestSafe(msgs, i, LastSafe(msgs, i))
  {
    if i > 0 && !SafeStart(msgs[i]) {
      LastSafeLargest(msgs, i - 1);
    }
  }

  lemma SafeCutLargest(msgs: Transcript, want: int)
    ensures LargestSafe(msgs, want, SafeCut(msgs, want))
    ensures SafeCut(msgs, want) == 0 || SafeCut(msgs, want) <= want
  {
    if want > 0 && msgs != [] {
      LastSafeLargest(msgs, if want >= |msgs| then |msgs| - 1 else want);
    }
  }

  lemma CutKeeps(c: Transcript, k: nat)
    requires Valid(c) && k < |c| && (k == 0 || SafeStart(c[k]))
    ensures Valid(c[k..])
    ensures UserTurnsFilled(c) ==> UserTurnsFilled(c[k..])
  {
    ChainedSuffix(c, k);
    NoResultsNoAnswers(c[k].content);
    assert c[k..][0] == c[k] && Last(c[k..]) == Last(c);
  }

  /** Of the suffixes of a valid transcript, those that start at a safe boundary
      are exactly the valid ones. */
  lemma SafeStartExact(c: Transcript, k: nat)
    requires Valid(c) && 0 < k < |c|
    ensures SafeStart(c[k]) <==> Valid(c[k..])
  {
    assert c[k..][0] == c[k];
    if SafeStart(c[k]) {
      CutKeeps(c, k);
    }
    NoResultsNoAnswers(c[k].content);
  }

  /** `cut` is the last position at or before `want` from which the transcript is
      still valid, or 0 if none is. */
  ghost predicate LastValidCut(c: Transcript, want: int, cut: nat) {
    && (cut > 0 ==> cut <= want && cut < |c| && Valid(c[cut..]))
    && (forall k :: cut < k < |c| && k <= want ==> !Valid(c[k..]))
  }

  /** The search drops as much of a valid transcript as it may. */
  lemma SafeCutMaximal(c: Transcript, want: int)
    requires Valid(c)
    ensures LastValidCut(c, want, SafeCut(c, want))
  {
    var cut := SafeCut(c, want);
    SafeCutLargest(c, want);
    if cut > 0 {
      SafeStartExact(c, cut);
    }
    forall k | cut < k < |c| && k <= want
      ensures !Valid(c[k..])
    {
      SafeStartExact(c, k);
    }
  }

  /** The backward search. */
  method FindSafeCut(msgs: Transcript, want: int) returns (cut: nat)
    ensures cut == SafeCut(msgs, want) && LargestSafe(msgs, want, cut)
    ensures Valid(msgs) ==> LastValidCut(msgs, want, cut)
  {
    SafeCutLargest(msgs, want);
    if Valid(msgs) {
      SafeCutMaximal(msgs, want);
    }
    if want <= 0 || |msgs| == 0 {
      return 0;
    }
    var i := if want >= |msgs| then |msgs| - 1 else want;
    while i > 0
      invariant 0 <= i < |msgs| && LastSafe(msgs, i) == SafeCut(msgs, want)
    {
      var m := msgs[i];
      if m.role == User {
        var answersATool := false;
        var j := 0;
        while j < |m.content|
          invariant 0 <= j <= |m.content|
          invariant answersATool <==> exists k :: 0 <= k < j && m.content[k].ToolResult?
        {
          if m.content[j].ToolResult? {
            answersATool := true;
          }
          j := j + 1;
        }
        if !answersATool {
          return i;
        }
      }
      i := i - 1;
    }
    return 0;
  }

  // ----- the sliding window -----

  /** Where the window wants to cut: quantized when a trigger is set. */
  function Anchor(trigger: int, keep: int, n: nat): int {
    if keep <= 0 || n <= keep then 0
    else if trigger > 0 then
      if n < trigger || trigger - keep <= 0 then 0
      else (n - keep) / (trigger - keep) * (trigger - keep)
    else n - keep
  }

  function WindowCut(trigger: int, keep: int, msgs: Transcript): nat {
    SafeCut(msgs, Anchor(trigger, keep, |msgs|))
  }

  // ----- tagged eviction -----

  predicate HasTag(infos: Infos, id: Id, tag: string) {
    id in infos && tag in infos[id].tags
  }

  predicate HasAnyTag(infos: Infos, id: Id, tags: seq<string>) {
    exists k :: 0 <= k < |tags| && HasTag(infos, id, tags[k])
  }

  /** How many leading messages the last `keep` leave unprotected. */
  function Unprotected(msgs: Transcript, keep: int): nat {
    if |msgs| - keep < 0 then 0 else if keep < 0 then |msgs| else |msgs| - keep
  }

  function Victims(msgs: Transcript, keep: int, tags: seq<string>, infos: Infos): set<Id> {
    set id | id in Uses(Blocks(msgs[..Unprotected(msgs, keep)])) && HasAnyTag(infos, id, tags)
  }

  // ----- compaction -----

  function SummaryText(summary: string): string {
    "<conversation_summary>\n" + summary + "\n</conversation_summary>"
  }

  function Prepend(c: Transcript, m: Message): Transcript {
    if c == [] then [m]
    else if c[0].role != m.role then [m] + c
    else [Message(c[0].role, m.content + c[0].content)] + c[1..]
  }

  // ----- Apply -----

  predicate TagsIdle(trigger: int, tags: seq<string>, msgs: Transcript, infos: Infos) {
    tags == [] || infos == map[] || (trigger > 0 && |msgs| < trigger)
  }

  predicate CompactIdle(at: int, keep: int, fn: Compactor, msgs: Transcript) {
    fn.NoCompactor? || keep <= 0 || at <= 0 || |msgs| < at || |msgs| <= keep
  }

  function ApplyWindow(trigger: int, keep: int, msgs: Transcript): Transcript {
    msgs[WindowCut(trigger, keep, msgs)..]
  }

  function ApplyTagged(trigger: int, keep: int, tags: seq<string>, msgs: Transcript, infos: Infos): Transcript {
    if TagsIdle(trigger, tags, msgs, infos) then msgs
    else DropPairs(msgs, Victims(msgs, keep, tags, infos))
  }

  /** A summary takes the place of what was cut; an empty one is left out. */
  function Summarized(tail: Transcript, summary: string): Transcript {
    if summary == "" then tail else Prepend(tail, UserText(SummaryText(summary)))
  }

  function ApplyCompacted(at: int, keep: int, fn: Compactor, msgs: Transcript): Transcript {
    if CompactIdle(at, keep, fn, msgs) then msgs
    else
      var cut := SafeCut(msgs, |msgs| - keep);
      if cut == 0 then msgs
      else Summarized(msgs[cut..], fn.summarize(msgs[..cut]))
  }

  /** Function composition, leftmost part first. */
  function ApplyAll(parts: seq<Strategy>, msgs: Transcript, infos: Infos): Transcript
    decreases parts, 1, |parts|
  {
    if parts == [] then msgs else ApplyAll(parts[1..], Apply(parts[0], msgs, infos), infos)
  }

  function Apply(st: Strategy, msgs: Transcript, infos: Infos): Transcript
    decreases st, 0
  {
    match st
    case Flat => msgs
    case Window(trigger, keep) => ApplyWindow(trigger, keep, msgs)
    case DropTagged(trigger, keep, tags) => ApplyTagged(trigger, keep, tags, msgs, infos)
    case Compacted(at, keep, fn) => ApplyCompacted(at, keep, fn, msgs)
    case Sequence(parts) => ApplyAll(parts, msgs, infos)
  }

  // ----- the same, as the loops of the source -----

  method FindVictims(msgs: Transcript, keep: int, tags: seq<string>, infos: Infos) returns (victims: set<Id>)
    ensures victims == Victims(msgs, keep, tags, infos)
  {
    var limit := Unprotected(msgs, keep);
    victims := {};
    var i := 0;
    while i < limit
      invariant 0 <= i <= limit
      invariant forall id :: id in victims <==> id in Uses(Blocks(msgs[..i])) && HasAnyTag(infos, id, tags)
    {
      var j := 0;
      assert Uses(msgs[i].content[..0]) == [];
      while j < |msgs[i].content|
        invariant 0 <= j <= |msgs[i].content|
        invariant forall id :: id in victims <==>
                  (id in Uses(Blocks(msgs[..i])) || id in Uses(msgs[i].content[..j])) && HasAnyTag(infos, id, tags)
      {
        assert Front(msgs[i].content[..j + 1]) == msgs[i].content[..j];
        var b := msgs[i].content[j];
        if b.ToolUse? {
          var k := 0;
          while k < |tags| && !HasTag(infos, b.id, tags[k])
            invariant 0 <= k <= |tags|
            invariant forall l :: 0 <= l < k ==> !HasTag(infos, b.id, tags[l])
          {
            k := k + 1;
          }
          if k < |tags| {
            victims := victims + {b.id};
          }
        }
        j := j + 1;
      }
      assert msgs[i].content[..j] == msgs[i].content;
      BlocksStep(msgs, i);
      UsesAppend(Blocks(msgs[..i]), msgs[i].content);
      i := i + 1;
    }
  }

  method MaterializeTagged(trigger: int, keep: int, tags: seq<string>, msgs: Transcript, infos: Infos)
    returns (out: Transcript)
    ensures out == ApplyTagged(trigger, keep, tags, msgs, infos)
  {
    if tags == [] || infos == map[] || (trigger > 0 && |msgs| < trigger) {
      return msgs;
    }
    var victims := FindVictims(msgs, keep, tags, infos);
    out := RemovePairs(msgs, victims);
  }

  method MaterializeCompacted(at: int, keep: int, fn: Compactor, msgs: Transcript) returns (out: Transcript)
    ensures out == ApplyCompacted(at, keep, fn, msgs)
  {
    if fn.NoCompactor? || keep <= 0 || at <= 0 || |msgs| < at || |msgs| <= keep {
      return msgs;
    }
    var cut := FindSafeCut(msgs, |msgs| - keep);
    if cut == 0 {
      return msgs;
    }
    var summary := fn.summarize(msgs[..cut]);
    if summary == "" {
      return msgs[cut..];
    }
    out := Prepend(msgs[cut..], UserText(SummaryText(summary)));
  }

  /** `Apply`, with every strategy carried out by its own loop. */
  method Materialize(st: Strategy, msgs: Transcript, infos: Infos) returns (out: Transcript)
    ensures out == Apply(st, msgs, infos)
    decreases st
  {
    match st
    case Flat => out := msgs;
    case Window(trigger, keep) =>
      var cut := FindSafeCut(msgs, Anchor(trigger, keep, |msgs|));
      out := msgs[cut..];
    case DropTagged(trigger, keep, tags) => out := MaterializeTagged(trigger, keep, tags, msgs, infos);
    case Compacted(at, keep, fn) => out := MaterializeCompacted(at, keep, fn, msgs);
    case Sequence(parts) =>
      out := msgs;
      var i := 0;
      while i < |parts|
        invariant 0 <= i <= |parts|
        invariant ApplyAll(parts[i..], out, infos) == ApplyAll(parts, msgs, infos)
      {
        assert parts[i..][0] == parts[i] && parts[i..][1..] == parts[i + 1..];
        out := Materialize(parts[i], out, infos);
        i := i + 1;
      }
  }
}
