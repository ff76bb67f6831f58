/** Runs in which the model loads one skill, and what they leave for the request
    after that. */
module OneLoad {
  import opened Llm
  import opened Convo
  import opened Normalize
  import opened Strategy
  import opened Compose
  import opened Overflow
  import opened Dispatch
  import opened Resume
  import opened Run
  import opened RunLaws
  import opened SkillRun
  import opened Utf8
  import S = Skill

  const TAG := "skill"

  function Use(id: Id): Block {
    ToolUse(id, S.LOAD, "")
  }

  function Question(): Transcript {
    [UserText("q")]
  }

  /** The first reply is one load, which a middleware keeps from its handler
      unless it is `reached`; `again` answers the second request. */
  datatype Case = Case(
    st: Strategy,
    ladder: seq<Strategy>,
    id: Id,
    outcome: CallOutcome,
    reached: bool,
    again: nat -> Attempt)
  {
    function Cfg(): Config {
      Config(st, ladder, 2, 0, {S.LOAD}, {}, {})
    }

    function Env(): nat -> Turn {
      (iter: nat) => Turn(
        false, false, "",
        (k: nat) => if iter == 1 then Attempt("", 0, Response([Use(id)], ToolUseStop)) else again(k),
        (i: nat) => outcome,
        (i: nat) => iter != 1 || reached)
    }

    function Answered(): Result {
      ResultOf(Use(id), {S.LOAD}, outcome)
    }

    function After(): Transcript {
      [UserText("q"), Message(Assistant, [Use(id)]), Message(User, [ResultBlock(Answered())])]
    }

    function Infos(): Infos {
      map[id := ResultInfo(S.LOAD, Answered().tags, |Answered().output|)]
    }

    function First(): Visit {
      Visit(Initial(Question()), Env()(1))
    }

    function Second(): Visit {
      Visit(Iterate(Cfg(), Initial(Question()), Env()(1)).0, Env()(2))
    }

    /** The strategy has nothing to do on the question. */
    predicate Begins() {
      Apply(st, Question(), map[]) == Question()
    }
  }

  /** One skill, which gates one tool. */
  function OneGate(body: Bytes, limit: int): Gating {
    Gating(map["s" := body], (name: string, active: set<string>) => [], limit, map["t" := "s"], ["t"], input => "s")
  }

  /** What a served load of it returns. */
  function Served(body: Bytes, limit: int): CallOutcome {
    Returned(Shown(OneGate(body, limit), body), [TAG])
  }

  lemma QuestionValid()
    ensures Solid(Question()) && AllAsks(Question()) == multiset{}
  {
    var m := UserText("q");
    TextOnly("q");
    ChainSnoc([], m);
    SnocBlocks([], m);
    assert [] + [m] == [m];
  }

  lemma OneUse(id: Id)
    ensures var uses := [Use(id)];
            && ToolUses(uses) == uses && Asks(uses) == multiset{id} && Answers(uses) == multiset{}
            && FindUse({}, uses).None?
  {
    AsksOne(Use(id));
    assert Front([Use(id)]) == [] && [Use(id)][1..] == [];
  }

  lemma OneDispatched(c: Case)
    ensures var rs := Dispatched([Use(c.id)], {S.LOAD}, c.Env()(1).outcomes);
            && rs == [c.Answered()] && Noted(map[], rs) == c.Infos() && ResultBlocks(rs) == [ResultBlock(c.Answered())]
  {
    var uses := [Use(c.id)];
    var rs := Dispatched(uses, {S.LOAD}, c.Env()(1).outcomes);
    assert |rs| == 1 && rs[0] == c.Answered();
    assert Front(rs) == [] && Noted(map[], Front(rs)) == map[];
  }

  lemma FirstFresh(id: Id)
    ensures FreshReply(Question(), [Use(id)])
  {
    OneUse(id);
    QuestionValid();
    DistinctAdd(AllAsks(Question()), id);
    assert AllAsks(Question()) + multiset{id} == multiset{id};
  }

  lemma Pushed(c: Case)
    ensures PushToolResults(PushAssistant(Question(), [Use(c.id)]), [ResultBlock(c.Answered())]) == c.After()
  {
    var e := PushAssistant(Question(), [Use(c.id)]);
    assert e == [UserText("q"), Message(Assistant, [Use(c.id)])];
  }

  lemma FirstCall(c: Case)
    requires c.Begins()
    ensures Called(c.Cfg(), c.First().s, c.First().turn) == Attempts([Question()], 0)
    ensures LastAttempt(c.First().turn, [Question()]).reply == Response([Use(c.id)], ToolUseStop)
  {
    assert !TooBig(c.First().turn)(0);
    assert Materialized(c.Cfg(), c.First().s, c.First().turn) == Question();
  }

  lemma FirstReply(c: Case, s: State)
    requires s.convo == Question() && s.infos == map[]
    ensures var (s', stop) := ActOnReply(c.Cfg(), s, [Use(c.id)], ToolUseStop, c.Env()(1));
            !stop && s'.convo == c.After() && s'.infos == c.Infos() && s'.level == s.level
  {
    OneUse(c.id);
    OneDispatched(c);
    Pushed(c);
  }

  /** The first iteration makes the call and goes on. */
  lemma FirstTurn(c: Case)
    requires c.Begins()
    ensures var s := c.Second().s; s.convo == c.After() && s.infos == c.Infos() && s.level == 0
    ensures !Iterate(c.Cfg(), c.First().s, c.First().turn).1 && FaithfulTurn(c.Cfg(), c.First().s, c.First().turn)
    ensures Called(c.Cfg(), c.First().s, c.First().turn).sent == [Question()]
    ensures DispatchedBy(c.Cfg(), c.First()) == [Use(c.id)]
  {
    FirstCall(c);
    FirstFresh(c.id);
    OneUse(c.id);
    FirstReply(c, c.First().s.(requests := [] + [Question()]));
  }

  /** Two iterations, whatever the second one does. */
  lemma TheVisits(c: Case)
    requires c.Begins() && FaithfulTurn(c.Cfg(), c.Second().s, c.Second().turn)
    ensures Faithful(c.Cfg(), c.Env(), Initial(Question()), 1)
    ensures VisitsOf(c.Cfg(), c.Env(), Question()) == [c.First(), c.Second()]
  {
    var cfg, env := c.Cfg(), c.Env();
    QuestionValid();
    FirstTurn(c);
    var v, w := c.First(), c.Second();
    assert [] + [v] == [v] && [v] + [w] == [v, w];
    assert Visits(cfg, env, w.s, 2, [v]) == [v, w];
    assert Faithful(cfg, env, w.s, 2);
  }

  lemma SentTwice(cfg: Config, v: Visit, w: Visit)
    ensures SentBy(cfg, [v, w]) == Called(cfg, v.s, v.turn).sent + Called(cfg, w.s, w.turn).sent
  {
    var none: seq<Visit>, one := [], [v];
    assert Front([v, w]) == one && Last([v, w]) == w;
    assert Front(one) == none && Last(one) == v;
    assert SentBy(cfg, one) == SentBy(cfg, none) + Called(cfg, v.s, v.turn).sent;
    assert SentBy(cfg, none) + Called(cfg, v.s, v.turn).sent == Called(cfg, v.s, v.turn).sent;
  }

  /** What the run sends: the question, and what its second iteration sends. */
  lemma SentInAll(c: Case, sent: seq<Transcript>)
    requires c.Begins() && FaithfulTurn(c.Cfg(), c.Second().s, c.Second().turn)
    requires Called(c.Cfg(), c.Second().s, c.Second().turn).sent == sent
    ensures RunOf(c.Cfg(), c.Env(), Question()).requests == [Question()] + sent
  {
    QuestionValid();
    FirstTurn(c);
    TheVisits(c);
    VisitsSend(c.Cfg(), c.Env(), Question());
    SentTwice(c.Cfg(), c.First(), c.Second());
  }

  lemma AfterBlocks(c: Case)
    ensures Blocks(c.After()) == [Text("q"), Use(c.id), ResultBlock(c.Answered())]
  {
    var d := c.After();
    BlocksThree(d[0], d[1], d[2]);
    assert d[0].content + d[1].content + d[2].content == [d[0].content[0], d[1].content[0], d[2].content[0]];
  }

  lemma AfterSolid(c: Case)
    requires c.Begins()
    ensures Solid(c.After())
  {
    QuestionValid();
    FirstTurn(c);
    IterateSafe(c.Cfg(), Filled, c.First().s, c.First().turn);
  }

  /** The second load is a fresh reply too. */
  lemma SecondFresh(c: Case, id: Id)
    requires id != c.id
    ensures FreshReply(c.After(), [Use(id)])
  {
    OneUse(id);
    AfterBlocks(c);
    var x, y, z := Text("q"), Use(c.id), ResultBlock(c.Answered());
    assert Front([x, y, z]) == [x, y] && Front([x, y]) == [x] && Front([x]) == [];
    assert Last([x, y, z]) == z && Last([x, y]) == y && Last([x]) == x;
    assert Asks([x]) == multiset{} && Asks([x, y]) == multiset{c.id} && Asks([x, y, z]) == multiset{c.id};
    assert AllAsks(c.After()) == multiset{c.id};
    DistinctAdd(multiset{}, c.id);
    DistinctAdd(multiset{c.id}, id);
    assert multiset{} + multiset{c.id} == multiset{c.id};
  }

  // ----- what it does to the skill -----

  lemma OneCall(cfg: Config, g: Gating, v: Visit, id: Id)
    requires S.LOAD in cfg.known && g.name("") == "s" && DispatchedBy(cfg, v) == [Use(id)]
    ensures CallsOf(cfg, g, v) == [if v.turn.reached(0) then S.Load(id, "s") else S.Other(S.LOAD)]
  {
    assert CallOf(cfg, g, Use(id), v.turn.reached(0)) == if v.turn.reached(0) then S.Load(id, "s") else S.Other(S.LOAD);
  }

  lemma FirstCalls(c: Case, g: Gating)
    requires c.Begins() && g.name("") == "s"
    ensures CallsOf(c.Cfg(), g, c.First()) == [if c.reached then S.Load(c.id, "s") else S.Other(S.LOAD)]
  {
    FirstTurn(c);
    var known := c.Cfg().known;
    assert S.LOAD in known;
    OneCall(c.Cfg(), g, c.First(), c.id);
  }

  lemma NoneActive(cfg: Config, g: Gating, visits: seq<Visit>)
    requires visits != []
    ensures StartAt(cfg, g, visits, 0) == map[]
    ensures ActiveBefore(cfg, g, visits, 0, 0) == map[]
  {
    var none: S.Active := map[];
    assert visits[..0] == [] && RoundsOf(cfg, g, []) == [];
    assert ActiveAt(cfg, g, visits, 0) == none;
    assert CallsOf(cfg, g, visits[0])[..0] == [];
  }

  /** The skill is active by this load if and only if its handler ran. */
  lemma ActiveThen(c: Case, g: Gating, visits: seq<Visit>)
    requires c.Begins() && g.name("") == "s" && "s" in g.skills
    requires visits != [] && visits[0] == c.First()
    ensures ActiveAt(c.Cfg(), g, visits, 1) == if c.reached then map["s" := c.id] else map[]
    ensures BodyAt(c.Cfg(), g, visits, 0, 0, "s") <==> c.reached
  {
    var cfg := c.Cfg();
    FirstTurn(c);
    FirstCalls(c, g);
    NoneActive(cfg, g, visits);
    var call := if c.reached then S.Load(c.id, "s") else S.Other(S.LOAD);
    var rounds := RoundsOf(cfg, g, visits[..1]);
    assert rounds == [RoundOf(cfg, g, visits[0])] && Front(rounds) == [];
    assert Front([call]) == [];
    var none: S.Active := map[];
    assert S.Reconciled(none, rounds[0].present) == none;
    assert S.AfterCalls(g.skills.Keys, none, []) == none;
    assert S.AfterCalls(g.skills.Keys, none, [call]) == S.Next(g.skills.Keys, none, call);
  }

  // ----- what an eviction leaves -----

  function Drop(): Strategy {
    DropTagged(0, 0, [TAG])
  }

  lemma LoadIsVictim(c: Case)
    requires TAG in c.Answered().tags
    ensures Victims(c.After(), 0, [TAG], c.Infos()) == {c.id}
  {
    AfterBlocks(c);
    assert [TAG][0] == TAG;
    MemberAnswers(Blocks(c.After()), Use(c.id));
    UsesMembers(Blocks(c.After()));
    forall id
      ensures id in Victims(c.After(), 0, [TAG], c.Infos()) <==> id == c.id
    {
      VictimsTagged(c.After(), TAG, c.Infos(), id);
    }
  }

  lemma KeptQuestion(c: Case)
    ensures Kept([Text("q"), Use(c.id), ResultBlock(c.Answered())], {c.id}) == [Text("q")]
  {
    var x, y, z := Text("q"), Use(c.id), ResultBlock(c.Answered());
    assert Front([x, y, z]) == [x, y] && Front([x, y]) == [x] && Front([x]) == [];
    assert Last([x, y, z]) == z && Last([x, y]) == y && Last([x]) == x;
    assert Kept([x], {c.id}) == [x];
  }

  lemma {:induction false} TurnsAtMostBlocks(c: Transcript)
    requires NonEmptyTurns(c)
    ensures |c| <= |Blocks(c)|
  {
    if c != [] {
      TurnsAtMostBlocks(Front(c));
    }
  }

  /** One turn is left: the question. */
  lemma Dropped(c: Case)
    requires c.Begins() && TAG in c.Answered().tags
    ensures Blocks(Apply(Drop(), c.After(), c.Infos())) == [Text("q")]
    ensures |Apply(Drop(), c.After(), c.Infos())| <= 1
  {
    LoadIsVictim(c);
    assert !TagsIdle(0, [TAG], c.After(), c.Infos()) by {
      assert [TAG][0] == TAG && c.id in c.Infos();
    }
    AfterSolid(c);
    DropPairsKeeps(c.After(), {c.id});
    AfterBlocks(c);
    KeptQuestion(c);
    TurnsAtMostBlocks(Apply(Drop(), c.After(), c.Infos()));
  }
}
