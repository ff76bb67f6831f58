/** Exactly which inputs every run is safe on. */
module RunExact {
  import opened Llm
  import opened Convo
  import opened Normalize
  import opened Strategy
  import opened StrategyLaws
  import opened Compose
  import opened Overflow
  import opened Dispatch
  import opened Resume
  import opened Run
  import opened RunLaws

  // ----- fresh ids -----

  lemma {:induction false} LongerThanAll(ids: seq<Id>) returns (n: nat)
    ensures forall id :: id in ids ==> |id.key| < n
  {
    if ids == [] {
      n := 0;
    } else {
      n := LongerThanAll(Front(ids));
      n := if |Last(ids).key| < n then n else |Last(ids).key| + 1;
      assert forall id :: id in ids ==> id in Front(ids) || id == Last(ids);
    }
  }

  /** Every transcript leaves two ids unused. */
  lemma FreshIds(c: Transcript) returns (a: Id, b: Id)
    ensures a != b && a !in AllAsks(c) && b !in AllAsks(c)
  {
    var n := LongerThanAll(Uses(Blocks(c)));
    UsesMembers(Blocks(c));
    a, b := Id(seq(n, _ => 'x')), Id(seq(n + 1, _ => 'x'));
    assert |a.key| == n && |b.key| == n + 1;
  }

  // ----- a run that fails -----

  const TAG := "old"

  /** Two calls to one tool. */
  function TwoCalls(a: Id, b: Id): seq<Block> {
    [ToolUse(a, "t", ""), ToolUse(b, "t", "")]
  }

  function TwoResults(a: Id, b: Id): seq<Block> {
    [ToolResult(a, "", false), ToolResult(b, "", false)]
  }

  /** The provider asks for both and then fails; the first result is tagged. */
  function TwoCallsThenFault(a: Id, b: Id): nat -> Turn {
    (iter: nat) => Turn(
      false, false, "",
      (k: nat) => Attempt("", 0, if iter == 1 then Response(TwoCalls(a, b), ToolUseStop) else Fault("")),
      (i: nat) => Returned("", if i == 0 then [TAG] else []),
      (i: nat) => true)
  }

  function CutAndDrop(keep: nat): Config {
    Config(CutThenDrop(keep, TAG), [], 2, 0, {"t"}, {}, {})
  }

  /** The transcript after the two calls were answered. */
  function Answered(c: Transcript, a: Id, b: Id): Transcript {
    PushToolResults(PushAssistant(c, TwoCalls(a, b)), TwoResults(a, b))
  }

  /** What the harness knows after the two calls. */
  function TwoInfos(a: Id, b: Id): Infos {
    Noted(map[], Dispatched(TwoCalls(a, b), {"t"}, TwoCallsThenFault(a, b)(1).outcomes))
  }

  lemma TwoDispatched(a: Id, b: Id)
    ensures var rs := Dispatched(TwoCalls(a, b), {"t"}, TwoCallsThenFault(a, b)(1).outcomes);
            && rs == [Result(a, "t", "", None, [TAG]), Result(b, "t", "", None, [])]
            && ResultBlocks(rs) == TwoResults(a, b)
  {
    var outcomes := TwoCallsThenFault(a, b)(1).outcomes;
    var rs := Dispatched(TwoCalls(a, b), {"t"}, outcomes);
    assert outcomes(0) == Returned("", [TAG]) && outcomes(1) == Returned("", []);
    var known := {"t"};
    assert TwoCalls(a, b)[0].name in known && TwoCalls(a, b)[1].name in known;
    assert rs[0] == Result(a, "t", "", None, [TAG]) && rs[1] == Result(b, "t", "", None, []);
    assert |rs| == 2;
    assert ResultBlocks(rs)[0] == TwoResults(a, b)[0] && ResultBlocks(rs)[1] == TwoResults(a, b)[1];
  }

  lemma {:induction false} NoUse(uses: seq<Block>)
    ensures FindUse({}, uses).None?
  {
    if uses != [] {
      NoUse(uses[1..]);
    }
  }

  lemma TwoInfosTag(a: Id, b: Id, id: Id)
    requires a != b
    ensures HasTag(TwoInfos(a, b), id, TAG) <==> id == a
  {
    var rs := Dispatched(TwoCalls(a, b), {"t"}, TwoCallsThenFault(a, b)(1).outcomes);
    TwoDispatched(a, b);
    assert Front(rs) == [Result(a, "t", "", None, [TAG])];
    assert Front(Front(rs)) == [];
    assert Noted(map[], Front(rs)) == map[a := ResultInfo("t", [TAG], 0)];
    assert TwoInfos(a, b) == map[a := ResultInfo("t", [TAG], 0)][b := ResultInfo("t", [], 0)];
    assert [TAG][0] == TAG;
  }

  lemma TwoCallsAre(a: Id, b: Id)
    ensures Asks(TwoCalls(a, b)) == multiset{a, b} && Answers(TwoCalls(a, b)) == multiset{}
  {
    AsksOne(ToolUse(a, "t", ""));
    AsksOne(ToolUse(b, "t", ""));
    AsksTwo(ToolUse(a, "t", ""), ToolUse(b, "t", ""));
  }

  lemma TwoResultsAre(a: Id, b: Id)
    ensures Answers(TwoResults(a, b)) == multiset{a, b} && Asks(TwoResults(a, b)) == multiset{}
  {
    AsksOne(ToolResult(a, "", false));
    AsksOne(ToolResult(b, "", false));
    AsksTwo(ToolResult(a, "", false), ToolResult(b, "", false));
  }

  lemma TwoUsesAre(a: Id, b: Id)
    ensures ToolUses(TwoCalls(a, b)) == TwoCalls(a, b)
  {
    var x, y := ToolUse(a, "t", ""), ToolUse(b, "t", "");
    assert Front([x, y]) == [x] && Front([x]) == [];
    assert ToolUses([x]) == [x];
  }

  /** The first iteration answers the two calls and goes on. */
  lemma FirstTurn(cfg: Config, turn: Turn, c: Transcript, keep: nat, a: Id, b: Id)
    requires cfg == CutAndDrop(keep) && turn == TwoCallsThenFault(a, b)(1)
    ensures var (s, stop) := Iterate(cfg, Initial(c), turn);
            !stop && s.convo == Answered(c, a, b) && s.infos == TwoInfos(a, b) && s.level == 0
  {
    var call := Called(cfg, Initial(c), turn);
    assert !TooBig(turn)(0);
    assert call == Attempts([Materialized(cfg, Initial(c), turn)], 0);
    TwoUsesAre(a, b);
    var content := TwoCalls(a, b);
    NoUse(content);
    TwoDispatched(a, b);
  }

  lemma {:induction false} KeptOthers(bs: seq<Block>, a: Id)
    requires a !in Asks(bs) && a !in Answers(bs)
    ensures Kept(bs, {a}) == bs
  {
    if bs != [] {
      var front, b := Front(bs), Last(bs);
      assert bs == front + [b];
      assert !Named(b, {a});
      KeptOthers(front, a);
    }
  }

  /** In a valid transcript an id nobody asked for is not answered either. */
  lemma UnusedId(c: Transcript, i: nat, id: Id)
    requires Valid(c) && i < |c| && id !in AllAsks(c)
    ensures id !in Asks(c[i].content) && id !in Answers(c[i].content)
  {
    TurnAsksWithin(c, i);
    if i > 0 {
      assert Linked(c, i);
      TurnAsksWithin(c, i - 1);
    }
  }

  /** Turns in front of an answer do not make for a clean opening if their user
      turns did not before. */
  lemma StaysUnclean(base: Transcript, t: Transcript)
    requires |t| > |base| && !OpensClean(base) && Answers(Last(t).content) != multiset{}
    requires forall j :: 0 <= j < |base| && base[j].role.User? ==> t[j] == base[j]
    requires forall j :: 0 <= j < |t| - 1 && t[j].role.User? ==> j < |base| && base[j].role.User?
    ensures !OpensClean(t)
  {
    forall i: nat | FirstUserContent(t, i)
      ensures Answers(t[i].content) != multiset{}
    {
      if i < |t| - 1 {
        assert FirstUserContent(base, i);
      }
    }
  }

  lemma FirstRemoved(a: Id, b: Id)
    requires a != b
    ensures Answers(Kept(TwoResults(a, b), {a})) != multiset{}
  {
    TwoResultsAre(a, b);
    KeptPruned(TwoResults(a, b), {a});
    assert Answers(Kept(TwoResults(a, b), {a}))[b] == 1;
  }

  /** Removing the pair of `a` leaves what answered before, and the result of `b`. */
  lemma TrimAnswered(base: Transcript, a: Id, b: Id)
    requires base != [] && a != b
    requires forall i :: 0 <= i < |base| ==> a !in Asks(base[i].content) && a !in Answers(base[i].content)
    ensures var t := TrimAll(Answered(base, a, b), {a});
            && |t| > |base| && Answers(Last(t).content) != multiset{}
            && (forall j :: 0 <= j < |base| && base[j].role.User? ==> t[j] == base[j])
            && (forall j :: 0 <= j < |t| - 1 && t[j].role.User? ==> j < |base| && base[j].role.User?)
  {
    var e := PushAssistant(base, TwoCalls(a, b));
    var u := Message(User, TwoResults(a, b));
    assert Answered(base, a, b) == e + [u];
    var t := TrimAll(e + [u], {a});
    FirstRemoved(a, b);
    assert t[|e|] == Trim(u, {a});
    forall j | 0 <= j < |base| && base[j].role.User?
      ensures t[j] == base[j]
    {
      assert e[j] == base[j] && t[j] == Trim(base[j], {a});
      KeptOthers(base[j].content, a);
    }
  }

  lemma AnsweredSuffix(c: Transcript, k: nat, a: Id, b: Id)
    requires k < |c|
    ensures |Answered(c, a, b)| > |c| && Answered(c, a, b)[k..] == Answered(c[k..], a, b)
    ensures c[k].role.User? ==> Answered(c, a, b)[k] == c[k]
  {
    var e := PushAssistant(c, TwoCalls(a, b));
    AppendSuffix(c, Message(Assistant, TwoCalls(a, b)), k);
    AppendSuffix(e, Message(User, TwoResults(a, b)), k);
  }

  lemma AnsweredValid(c: Transcript, a: Id, b: Id)
    requires Valid(c) && FreshReply(c, TwoCalls(a, b))
    ensures Valid(Answered(c, a, b))
  {
    TwoCallsAre(a, b);
    TwoResultsAre(a, b);
    PushAssistantExact(c, TwoCalls(a, b));
    PushAnswersExact(PushAssistant(c, TwoCalls(a, b)), TwoResults(a, b));
  }

  lemma FreshPair(c: Transcript, a: Id, b: Id)
    requires Valid(c) && a != b && a !in AllAsks(c) && b !in AllAsks(c)
    ensures FreshReply(c, TwoCalls(a, b))
  {
    TwoCallsAre(a, b);
    DistinctAdd(AllAsks(c), a);
    DistinctAdd(AllAsks(c) + multiset{a}, b);
    assert AllAsks(c) + multiset{a} + multiset{b} == AllAsks(c) + multiset{a, b};
  }

  lemma BreaksAt(d: Transcript, k: nat, infos: Infos, a: Id)
    requires Valid(d) && EmptyUser(d, k) && !OpensClean(TrimAll(d[k..], {a}))
    requires forall id :: id in {a} <==> id in Uses(Blocks(d[k..])) && HasTag(infos, id, TAG)
    ensures !Valid(Apply(CutThenDrop(|d| - k, TAG), d, infos))
  {
    CutThenDropBreaks(d, k, TAG, infos, {a});
  }

  lemma UncleanBehind(c: Transcript, k: nat, a: Id, b: Id)
    requires Valid(c) && k < |c| && !OpensClean(c[k..]) && a != b && a !in AllAsks(c)
    ensures !OpensClean(TrimAll(Answered(c[k..], a, b), {a}))
  {
    var base := c[k..];
    forall i | 0 <= i < |base|
      ensures a !in Asks(base[i].content) && a !in Answers(base[i].content)
    {
      assert base[i] == c[k + i];
      UnusedId(c, k + i, a);
    }
    TrimAnswered(base, a, b);
    StaysUnclean(base, TrimAll(Answered(base, a, b), {a}));
  }

  lemma AskedBehind(c: Transcript, k: nat, a: Id, b: Id)
    requires k < |c|
    ensures a in Uses(Blocks(Answered(c, a, b)[k..]))
  {
    AnsweredSuffix(c, k, a, b);
    var e := PushAssistant(c[k..], TwoCalls(a, b));
    TwoCallsAre(a, b);
    AppendBlocks(c[k..], Message(Assistant, TwoCalls(a, b)));
    AppendBlocks(e, Message(User, TwoResults(a, b)));
    UsesMembers(Blocks(Answered(c[k..], a, b)));
  }

  /** The second request cuts to the empty turn and drops the pair of `a`. */
  lemma SecondRequest(c: Transcript, k: nat, a: Id, b: Id)
    requires Valid(c) && EmptyUser(c, k) && !OpensClean(c[k..])
    requires a != b && a !in AllAsks(c) && b !in AllAsks(c)
    ensures var d := Answered(c, a, b);
            |d| > k && !Valid(Apply(CutThenDrop(|d| - k, TAG), d, TwoInfos(a, b)))
  {
    var d := Answered(c, a, b);
    FreshPair(c, a, b);
    AnsweredValid(c, a, b);
    AnsweredSuffix(c, k, a, b);
    AskedBehind(c, k, a, b);
    UncleanBehind(c, k, a, b);
    forall id
      ensures id in {a} <==> id in Uses(Blocks(d[k..])) && HasTag(TwoInfos(a, b), id, TAG)
    {
      TwoInfosTag(a, b, id);
    }
    BreaksAt(d, k, TwoInfos(a, b), a);
  }

  lemma SecondTurn(cfg: Config, env: nat -> Turn, c: Transcript, keep: nat, a: Id, b: Id)
    requires Valid(c) && FreshReply(c, TwoCalls(a, b))
    requires cfg == CutAndDrop(keep) && env == TwoCallsThenFault(a, b)
    ensures Faithful(cfg, env, Initial(c), 1)
    ensures |RunOf(cfg, env, c).requests| == 2
    ensures RunOf(cfg, env, c).requests[1] == Apply(CutThenDrop(keep, TAG), Answered(c, a, b), TwoInfos(a, b))
  {
    FirstTurn(cfg, env(1), c, keep, a, b);
    var s := Iterate(cfg, Initial(c), env(1)).0;
    var t := Iterate(cfg, s, env(2)).0;
    IterateSends(cfg, Initial(c), env(1));
    IterateSends(cfg, s, env(2));
    assert !TooBig(env(1))(0) && !TooBig(env(2))(0);
    assert Called(cfg, s, env(2)).sent == [Apply(CutThenDrop(keep, TAG), Answered(c, a, b), TwoInfos(a, b))];
    assert Faithful(cfg, env, s, 2);
    assert Loop(cfg, env, s, 2) == t;
  }

  /** A run whose second request is invalid, on an input that is not steady. */
  lemma RunBreaks(c: Transcript, k: nat, a: Id, b: Id)
    requires Valid(c) && EmptyUser(c, k) && !OpensClean(c[k..])
    requires a != b && a !in AllAsks(c) && b !in AllAsks(c)
    ensures var cfg, env := CutAndDrop(|Answered(c, a, b)| - k), TwoCallsThenFault(a, b);
            && Faithful(cfg, env, Initial(c), 1)
            && |RunOf(cfg, env, c).requests| == 2 && !Valid(RunOf(cfg, env, c).requests[1])
  {
    var keep := |Answered(c, a, b)| - k;
    var cfg, env := CutAndDrop(keep), TwoCallsThenFault(a, b);
    var request := Apply(CutThenDrop(keep, TAG), Answered(c, a, b), TwoInfos(a, b));
    assert !Valid(request) by {
      SecondRequest(c, k, a, b);
    }
    FreshPair(c, a, b);
    SecondTurn(cfg, env, c, keep, a, b);
    assert RunOf(cfg, env, c).requests[1] == request;
  }

  // ----- the exact condition -----

  ghost predicate AlwaysSends(input: Transcript) {
    forall cfg, env :: Faithful(cfg, env, Initial(input), 1) ==> AllSent(RunOf(cfg, env, input))
  }

  /** Of a valid input every run, under every configuration of the shipped
      strategies and against every provider with fresh replies, sends valid
      requests only, if and only if behind each empty user turn the first user
      turn with content answers nothing. */
  lemma RunSafeExact(input: Transcript)
    requires Valid(input)
    ensures AlwaysSends(input) <==> Steady(input)
  {
    if Steady(input) {
      forall cfg, env | Faithful(cfg, env, Initial(input), 1)
        ensures AllSent(RunOf(cfg, env, input))
      {
        RungNeedBelow(cfg.ladder);
        DemandBelow(cfg.strategy, RungNeed(cfg.ladder));
        ShapeWeaken(Everywhere, NeedOf(cfg), input);
        RunSafe(cfg, env, input);
      }
    }
    if !Steady(input) {
      var k: nat :| EmptyUser(input, k) && !OpensClean(input[k..]);
      var a, b := FreshIds(input);
      RunBreaks(input, k, a, b);
      assert !AllSent(RunOf(CutAndDrop(|Answered(input, a, b)| - k), TwoCallsThenFault(a, b), input));
    }
  }

  lemma AnsweredSize(c: Transcript, a: Id, b: Id)
    requires c != [] && Last(c).role.User?
    ensures |Answered(c, a, b)| == |c| + 2
  {
  }

  lemma NeverClean(m: Message)
    requires m.content == []
    ensures !OpensClean([m])
  {
  }

  /** A transcript the loop accepts, with content in turn 0. */
  function EmptyEnd(): Transcript {
    [UserText("hi"), Message(Assistant, [Text("yes")]), Message(User, [])]
  }

  lemma EmptyEndValid()
    ensures Valid(EmptyEnd())
  {
    var m := Message(User, []);
    ChainSnoc([], m);
    SnocBlocks([], m);
    assert [] + [m] == [m];
    PreludeValid("hi", "yes", [m]);
    assert EmptyEnd() == [UserText("hi"), Message(Assistant, [Text("yes")])] + [m];
  }

  lemma EmptyEndAsks()
    ensures AllAsks(EmptyEnd()) == multiset{}
  {
    var c := EmptyEnd();
    BlocksThree(c[0], c[1], c[2]);
    TextOnly("hi");
    TextOnly("yes");
  }

  /** Content in turn 0 is not enough: here the strategy keeps the last three
      messages and drops what is tagged, and the second request is invalid. */
  lemma ContentInTurnZeroIsNotEnough()
    ensures var cfg, env := CutAndDrop(3), TwoCallsThenFault(Id("a"), Id("b"));
            && Valid(EmptyEnd()) && EmptyEnd()[0].content != [] && Faithful(cfg, env, Initial(EmptyEnd()), 1)
            && |RunOf(cfg, env, EmptyEnd()).requests| == 2 && !Valid(RunOf(cfg, env, EmptyEnd()).requests[1])
  {
    var c, a, b := EmptyEnd(), Id("a"), Id("b");
    EmptyEndValid();
    EmptyEndAsks();
    assert a.key[0] != b.key[0];
    AnsweredSize(c, a, b);
    NeverClean(c[2]);
    assert c[2..] == [c[2]];
    RunBreaks(c, 2, a, b);
  }
}
