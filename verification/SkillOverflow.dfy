/** A run whose overflow recovery resends a request without the body of a skill
    whose tools it offers. */
module SkillOverflow {
  import opened Llm
  import opened Convo
  import opened Strategy
  import opened Overflow
  import opened Dispatch
  import opened Run
  import opened RunLaws
  import opened SkillRun
  import opened OneLoad
  import opened SkillEdges
  import opened Utf8

  /** The next request after the load is too large once, and then the provider
      fails; the one rung drops what loads brought in. */
  function LoadThenOverflow(id: Id, body: Bytes): Case {
    Case(Flat, [Drop()], id, Served(body, 0), true, (k: nat) => Attempt("", 0, if k == 0 then TooLarge else Fault("")))
  }

  function Evicted(c: Case): Transcript {
    Apply(Drop(), c.After(), c.Infos())
  }

  /** The second iteration sends the whole transcript and then the rung's. */
  lemma SecondTurn(c: Case, id: Id, body: Bytes)
    requires c == LoadThenOverflow(id, body)
    ensures Called(c.Cfg(), c.Second().s, c.Second().turn).sent == [c.After(), Evicted(c)]
    ensures DispatchedBy(c.Cfg(), c.Second()) == []
    ensures FaithfulTurn(c.Cfg(), c.Second().s, c.Second().turn)
  {
    var cfg, s, turn := c.Cfg(), c.Second().s, c.Second().turn;
    FirstTurn(c);
    assert [TAG][0] == TAG;
    Dropped(c);
    var d, infos := c.After(), c.Infos();
    assert Materialized(cfg, s, turn) == d;
    assert TooBig(turn)(0) && !TooBig(turn)(1);
    assert NextRung(cfg.ladder, 1, |d|, d, infos) == 1;
    assert Complete(cfg.ladder, 1, d, infos, TooBig(turn), 1) == Attempts([Evicted(c)], 1);
    assert Called(cfg, s, turn).sent == [d] + [Evicted(c)];
  }

  lemma TheRequests(c: Case, id: Id, body: Bytes)
    requires c == LoadThenOverflow(id, body)
    ensures RunOf(c.Cfg(), c.Env(), Question()).requests == [Question(), c.After(), Evicted(c)]
  {
    SecondTurn(c, id, body);
    SentInAll(c, [c.After(), Evicted(c)]);
    assert [Question()] + [c.After(), Evicted(c)] == [Question(), c.After(), Evicted(c)];
  }

  lemma EvictedBlocks(c: Case, id: Id, body: Bytes)
    requires c == LoadThenOverflow(id, body)
    ensures forall b: Block :: b in Blocks(Evicted(c)) ==> b == Text("q")
  {
    assert [TAG][0] == TAG;
    Dropped(c);
  }

  /** The body is the result of the load, and the tool is offered behind it. */
  lemma BodyOffered(c: Case, id: Id, body: Bytes, visits: seq<Visit>)
    requires c == LoadThenOverflow(id, body) && visits == [c.First(), c.Second()]
    ensures var cfg, g := c.Cfg(), OneGate(body, 0);
            && Serves(cfg, g, visits) && "t" in OfferedAt(cfg, g, visits, 1)
            && BodyAt(cfg, g, visits, 0, 0, "s") && FullBody(cfg, g, visits, 0, 0, "s") == ResultBlock(c.Answered())
  {
    SecondTurn(c, id, body);
    FlatStarts(c, body, 0, visits);
    FirstFull(c, body, 0, visits);
    FirstResult(c);
    OneServed(c, body, 0, visits);
    GateOffered(c.Cfg(), body, 0, visits, 1);
    LoadGetsBody(c.Cfg(), OneGate(body, 0), visits, 0, 0, "s");
  }

  /** The surface is read before a call recovers from an overflow. The third
      request of this run is the rung's: the body of the skill is not in it, and
      the tool gated by that skill is offered with it. */
  lemma OverflowRungMayEvict(id: Id, body: Bytes)
    ensures var c, g := LoadThenOverflow(id, body), OneGate(body, 0);
            var cfg, visits := c.Cfg(), VisitsOf(c.Cfg(), c.Env(), Question());
            && Solid(Question()) && Faithful(cfg, c.Env(), Initial(Question()), 1) && Serves(cfg, g, visits)
            && RunOf(cfg, c.Env(), Question()).requests == [Question(), c.After(), Evicted(c)]
            && |visits| == 2 && Called(cfg, visits[1].s, visits[1].turn).sent == [c.After(), Evicted(c)]
            && BodyAt(cfg, g, visits, 0, 0, "s")
            && "t" in OfferedAt(cfg, g, visits, 1)
            && FullBody(cfg, g, visits, 0, 0, "s") in Blocks(c.After())
            && FullBody(cfg, g, visits, 0, 0, "s") !in Blocks(Evicted(c))
  {
    var c := LoadThenOverflow(id, body);
    QuestionValid();
    SecondTurn(c, id, body);
    TheVisits(c);
    TheRequests(c, id, body);
    BodyOffered(c, id, body, [c.First(), c.Second()]);
    AfterHolds(c);
    EvictedBlocks(c, id, body);
  }
}
