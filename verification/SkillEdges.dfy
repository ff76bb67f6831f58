/** Where the surface and the body part: a load that never reached its handler, a
    body that truncation cut, and a load without an id. */
module SkillEdges {
  import opened Llm
  import opened Convo
  import opened Strategy
  import opened Overflow
  import opened Dispatch
  import opened Run
  import opened RunLaws
  import opened SkillRun
  import opened OneLoad
  import opened Utf8
  import Clip
  import S = Skill

  /** The model loads the same skill once more. */
  function LoadAgain(id: Id): nat -> Attempt {
    (k: nat) => Attempt("", 0, Response([Use(id)], ToolUseStop))
  }

  lemma AgainCall(c: Case, other: Id)
    requires c.Begins() && other != c.id && c.again == LoadAgain(other)
    ensures FaithfulTurn(c.Cfg(), c.Second().s, c.Second().turn)
    ensures DispatchedBy(c.Cfg(), c.Second()) == [Use(other)]
  {
    var turn := c.Second().turn;
    FirstTurn(c);
    SecondFresh(c, other);
    OneUse(other);
    assert !TooBig(turn)(0);
    assert Called(c.Cfg(), c.Second().s, turn).sent == [Materialized(c.Cfg(), c.Second().s, turn)];
  }

  lemma AgainCalls(c: Case, g: Gating, other: Id)
    requires c.Begins() && other != c.id && c.again == LoadAgain(other) && g.name("") == "s"
    ensures CallsOf(c.Cfg(), g, c.Second()) == [S.Load(other, "s")]
  {
    AgainCall(c, other);
    var known := c.Cfg().known;
    assert S.LOAD in known;
    OneCall(c.Cfg(), g, c.Second(), other);
  }

  /** What the second load is told depends on what the request left active. */
  lemma AgainSaid(c: Case, g: Gating, visits: seq<Visit>, other: Id)
    requires c.Begins() && other != c.id && c.again == LoadAgain(other) && g.name("") == "s" && "s" in g.skills
    requires visits == [c.First(), c.Second()]
    ensures |DispatchedBy(c.Cfg(), visits[1])| == 1
    ensures SaidAt(c.Cfg(), g, visits, 1, 0) == if "s" in StartAt(c.Cfg(), g, visits, 1) then S.Stub else S.Body
  {
    AgainCall(c, other);
    AgainCalls(c, g, other);
    assert CallsOf(c.Cfg(), g, visits[1])[..0] == [];
  }

  lemma GateOffered(cfg: Config, body: Bytes, limit: int, visits: seq<Visit>, i: nat)
    requires i < |visits|
    ensures var g := OneGate(body, limit);
            "t" in OfferedAt(cfg, g, visits, i) <==> "s" in StartAt(cfg, g, visits, i)
  {
    var g := OneGate(body, limit);
    var gates, base := g.gates, g.base;
    assert base[0] == "t" && "t" in gates && gates["t"] == "s";
    S.OfferedExact(g.base, g.gates, StartAt(cfg, g, visits, i), "t");
  }

  lemma FirstFull(c: Case, body: Bytes, limit: int, visits: seq<Visit>)
    requires c.Begins() && c.reached && visits != [] && visits[0] == c.First()
    ensures var g := OneGate(body, limit);
            BodyAt(c.Cfg(), g, visits, 0, 0, "s") && FullText(c.Cfg(), g, visits, 0, 0, "s") == body
  {
    var g := OneGate(body, limit);
    var skills := g.skills;
    assert "s" in skills && skills["s"] == body && body + [] == body;
    ActiveThen(c, g, visits);
  }

  lemma FirstResult(c: Case)
    requires c.Begins()
    ensures |DispatchedBy(c.Cfg(), c.First())| == 1
    ensures ResultAt(c.Cfg(), c.First(), 0) == ResultBlock(c.Answered())
  {
    FirstTurn(c);
  }

  lemma OnlyFirst(c: Case, g: Gating, visits: seq<Visit>, j: nat, name: string)
    requires c.Begins() && g.name("") == "s" && visits == [c.First(), c.Second()]
    requires BodyAt(c.Cfg(), g, visits, 0, j, name)
    ensures j == 0 && name == "s"
  {
    FirstTurn(c);
    FirstCalls(c, g);
  }

  /** The one load got all there is to get, if nothing after it is a body. */
  lemma OneServed(c: Case, body: Bytes, limit: int, visits: seq<Visit>)
    requires c.Begins() && c.reached && c.outcome == Served(body, limit)
    requires visits == [c.First(), c.Second()]
    requires forall n: nat, j: nat, name :: BodyAt(c.Cfg(), OneGate(body, limit), visits, n, j, name) ==> n == 0
    ensures Serves(c.Cfg(), OneGate(body, limit), visits)
  {
    var cfg, g := c.Cfg(), OneGate(body, limit);
    FirstFull(c, body, limit, visits);
    forall n: nat, j: nat, name | BodyAt(cfg, g, visits, n, j, name)
      ensures visits[n].turn.outcomes(j) == Returned(Shown(g, FullText(cfg, g, visits, n, j, name)), [TAG])
    {
      OnlyFirst(c, g, visits, j, name);
    }
  }

  /** What a second load finds of a skill that is still active. */
  lemma AgainStub(c: Case, body: Bytes, limit: int, visits: seq<Visit>, other: Id)
    requires c.Begins() && c.reached && c.outcome == Served(body, limit)
    requires other != c.id && c.again == LoadAgain(other) && visits == [c.First(), c.Second()]
    requires "s" in StartAt(c.Cfg(), OneGate(body, limit), visits, 1)
    ensures var cfg, g := c.Cfg(), OneGate(body, limit);
            && |DispatchedBy(cfg, visits[1])| == 1 && SaidAt(cfg, g, visits, 1, 0) == S.Stub
            && "t" in OfferedAt(cfg, g, visits, 1) && Serves(cfg, g, visits)
  {
    var g := OneGate(body, limit);
    var skills := g.skills;
    assert "s" in skills;
    AgainSaid(c, g, visits, other);
    GateOffered(c.Cfg(), body, limit, visits, 1);
    OneServed(c, body, limit, visits);
  }

  lemma AfterHolds(c: Case)
    ensures forall b: Block :: b.ToolResult? ==> (b in Blocks(c.After()) <==> b == ResultBlock(c.Answered()))
  {
    AfterBlocks(c);
    var bs := [Text("q"), Use(c.id), ResultBlock(c.Answered())];
    assert bs[2] == ResultBlock(c.Answered());
  }

  lemma FlatStarts(c: Case, body: Bytes, limit: int, visits: seq<Visit>)
    requires c.Begins() && c.reached && c.st.Flat? && visits == [c.First(), c.Second()]
    ensures "s" in StartAt(c.Cfg(), OneGate(body, limit), visits, 1)
    ensures Trimmed(c.Cfg(), visits[1]) == c.After()
  {
    var g := OneGate(body, limit);
    var skills := g.skills;
    assert "s" in skills;
    FirstTurn(c);
    FirstResult(c);
    ActiveThen(c, g, visits);
    AfterHolds(c);
    BackedStarts(c.Cfg(), g, visits, 1, "s", 0, 0);
  }

  lemma NoIdStarts(c: Case, body: Bytes, limit: int, visits: seq<Visit>)
    requires c.Begins() && c.reached && c.id == S.NO_ID && visits == [c.First(), c.Second()]
    ensures "s" in StartAt(c.Cfg(), OneGate(body, limit), visits, 1)
  {
    var g := OneGate(body, limit);
    var skills := g.skills;
    assert "s" in skills;
    ActiveThen(c, g, visits);
  }

  /** A load that a middleware answers in place of its handler -- an open circuit,
      a refused permission, a recorded response -- opens nothing, whatever the
      answer: its result is in the next request and the gated tool is not
      offered, and a second load gets the body. */
  lemma BlockedLoadOpensNothing(id: Id, other: Id, outcome: CallOutcome, body: Bytes, limit: int)
    requires id != other
    ensures var c, g := Case(Flat, [], id, outcome, false, LoadAgain(other)), OneGate(body, limit);
            var cfg, visits := c.Cfg(), VisitsOf(c.Cfg(), c.Env(), Question());
            && Valid(Question()) && Faithful(cfg, c.Env(), Initial(Question()), 1)
            && |visits| == 2 && |DispatchedBy(cfg, visits[0])| == |DispatchedBy(cfg, visits[1])| == 1
            && ResultAt(cfg, visits[0], 0) in Blocks(Trimmed(cfg, visits[1]))
            && "t" !in OfferedAt(cfg, g, visits, 1)
            && SaidAt(cfg, g, visits, 1, 0) == S.Body
  {
    var c, g := Case(Flat, [], id, outcome, false, LoadAgain(other)), OneGate(body, limit);
    QuestionValid();
    FirstTurn(c);
    AgainCall(c, other);
    TheVisits(c);
    var visits := [c.First(), c.Second()];
    var skills := g.skills;
    assert "s" in skills;
    ActiveThen(c, g, visits);
    AgainSaid(c, g, visits, other);
    GateOffered(c.Cfg(), body, limit, visits, 1);
    AfterHolds(c);
    FirstResult(c);
  }

  /** A body that truncation cuts: the tool is offered and a second load gets the
      stub, but the full body is not in the request. */
  lemma CutBodyIsStubbed(id: Id, other: Id, body: Bytes, limit: int)
    requires id != other && !Clip.Whole(Clip.Shipped(), body, limit)
    ensures var c, g := Case(Flat, [], id, Served(body, limit), true, LoadAgain(other)), OneGate(body, limit);
            var cfg, visits := c.Cfg(), VisitsOf(c.Cfg(), c.Env(), Question());
            && Valid(Question()) && Faithful(cfg, c.Env(), Initial(Question()), 1) && Serves(cfg, g, visits)
            && |visits| == 2 && |DispatchedBy(cfg, visits[1])| == 1 && BodyAt(cfg, g, visits, 0, 0, "s")
            && "t" in OfferedAt(cfg, g, visits, 1)
            && SaidAt(cfg, g, visits, 1, 0) == S.Stub
            && FullBody(cfg, g, visits, 0, 0, "s") !in Blocks(Trimmed(cfg, visits[1]))
  {
    var c, g := Case(Flat, [], id, Served(body, limit), true, LoadAgain(other)), OneGate(body, limit);
    var visits := [c.First(), c.Second()];
    QuestionValid();
    AgainCall(c, other);
    TheVisits(c);
    FlatStarts(c, body, limit, visits);
    AgainStub(c, body, limit, visits, other);
    FirstFull(c, body, limit, visits);
    FirstResult(c);
    LoadGetsBody(c.Cfg(), g, visits, 0, 0, "s");
    AfterHolds(c);
  }

  /** Such a body is 70 000 bytes under the default limit of 64 KiB. */
  lemma DefaultLimitCuts()
    ensures !Clip.Whole(Clip.Shipped(), seq(70_000, i => 0x78), 65_536)
  {
    assert TenTo(1) == 10 && TenTo(2) == 100 && TenTo(3) == 1_000 && TenTo(4) == 10_000 && TenTo(5) == 100_000;
    Clip.LongIsCut(seq(70_000, i => 0x78), 65_536, 5);
  }

  lemma EvictedBefore(c: Case, visits: seq<Visit>, b: Block)
    requires c.Begins() && c.st == Drop() && TAG in c.Answered().tags && visits == [c.First(), c.Second()]
    requires b.ToolResult?
    ensures b !in Blocks(Trimmed(c.Cfg(), visits[1]))
  {
    FirstTurn(c);
    Dropped(c);
  }

  lemma NoLimitFits(c: Case, body: Bytes, visits: seq<Visit>)
    requires c.Begins() && c.reached && visits != [] && visits[0] == c.First()
    ensures var g := OneGate(body, 0);
            BodyAt(c.Cfg(), g, visits, 0, 0, "s") && Fits(c.Cfg(), g, visits, 0, 0, "s")
  {
    FirstFull(c, body, 0, visits);
  }

  /** A load without an id: the strategy evicted the body, yet the tool is offered
      and a second load gets the stub. */
  lemma NoIdIsNeverRetired(other: Id, body: Bytes)
    requires other != S.NO_ID
    ensures var c, g := Case(Drop(), [], S.NO_ID, Served(body, 0), true, LoadAgain(other)), OneGate(body, 0);
            var cfg, visits := c.Cfg(), VisitsOf(c.Cfg(), c.Env(), Question());
            && Valid(Question()) && Faithful(cfg, c.Env(), Initial(Question()), 1) && Serves(cfg, g, visits)
            && |visits| == 2 && |DispatchedBy(cfg, visits[1])| == 1 && BodyAt(cfg, g, visits, 0, 0, "s")
            && Fits(cfg, g, visits, 0, 0, "s")
            && "t" in OfferedAt(cfg, g, visits, 1)
            && SaidAt(cfg, g, visits, 1, 0) == S.Stub
            && FullBody(cfg, g, visits, 0, 0, "s") !in Blocks(Trimmed(cfg, visits[1]))
  {
    var c, g := Case(Drop(), [], S.NO_ID, Served(body, 0), true, LoadAgain(other)), OneGate(body, 0);
    var visits := [c.First(), c.Second()];
    QuestionValid();
    AgainCall(c, other);
    TheVisits(c);
    NoIdStarts(c, body, 0, visits);
    AgainStub(c, body, 0, visits, other);
    NoLimitFits(c, body, visits);
    assert [TAG][0] == TAG;
    EvictedBefore(c, visits, FullBody(c.Cfg(), g, visits, 0, 0, "s"));
  }
}
