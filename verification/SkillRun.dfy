/** The skill surface over a whole run (`run.go`, `skill`): what is offered with
    each request, and what of it the request on the wire explains. */
module SkillRun {
  import opened Llm
  import opened Convo
  import opened Strategy
  import opened StrategyLaws
  import opened Compose
  import opened Survive
  import opened Overflow
  import opened Dispatch
  import opened Resume
  import opened Run
  import opened RunLaws
  import opened Utf8
  import Clip
  import O = RunOutcome
  import S = Skill

  /** The registered skills with their bodies, what is printed below a body given
      the skills then active, the byte limit on what a load returns (none if not
      positive), the gates, the agent's tools in order, and the skill name that
      the arguments of a load or an unload carry. */
  datatype Gating = Gating(
    skills: map<string, Bytes>,
    footer: (string, set<string>) -> Bytes,
    limit: int,
    gates: map<string, string>,
    base: seq<string>,
    name: string -> string)

  // ----- the rounds of a run -----

  /** The calls of a reply that are dispatched: none of one that ends or suspends
      the run. */
  function Dispatches(cfg: Config, content: seq<Block>, stop: StopReason): (uses: seq<Block>)
    ensures AllUses(uses)
  {
    var uses := ToolUses(content);
    ToolUsesIds(content);
    if stop.ToolUseStop? && FindUse(cfg.terminals, uses).None? && FindUse(cfg.pauses, uses).None? then uses else []
  }

  /** The calls an iteration dispatches, in order. */
  function DispatchedBy(cfg: Config, v: Visit): (uses: seq<Block>)
    ensures AllUses(uses)
  {
    var reply := LastAttempt(v.turn, Called(cfg, v.s, v.turn).sent).reply;
    if reply.Response? then Dispatches(cfg, reply.content, reply.stop) else []
  }

  /** Those are the calls of the reply, if it neither ends nor suspends the run. */
  lemma DispatchedExact(cfg: Config, v: Visit)
    ensures var reply := O.ReplyTo(cfg, v);
            DispatchedBy(cfg, v) == if O.Dispatches(cfg, reply) then O.CallsIn(reply.content) else []
  {
    var reply := O.ReplyTo(cfg, v);
    O.ReplyActedOn(cfg, v);
    if reply.Response? {
      O.ToolUsesAreCalls(reply.content);
      O.NoCallsExact(reply.content);
      O.FindsFirst(reply.content, cfg.terminals);
      O.FindsFirst(reply.content, cfg.pauses);
    }
  }

  /** What a call does to skills: nothing, if the dispatcher does not know its
      name or a middleware kept it from its handler. */
  function CallOf(cfg: Config, g: Gating, use: Block, reached: bool): S.Call
    requires use.ToolUse?
  {
    if !reached || use.name !in cfg.known then S.Other(use.name)
    else if use.name == S.LOAD then S.Load(use.id, g.name(use.input))
    else if use.name == S.UNLOAD then S.Unload(g.name(use.input))
    else S.Other(use.name)
  }

  function CallsOf(cfg: Config, g: Gating, v: Visit): seq<S.Call> {
    var uses := DispatchedBy(cfg, v);
    seq(|uses|, i requires 0 <= i < |uses| => CallOf(cfg, g, uses[i], v.turn.reached(i)))
  }

  /** The ids whose observation a transcript still holds. */
  function Present(c: Transcript): set<Id> {
    set b | b in Blocks(c) && b.ToolResult? :: b.useId
  }

  /** What the strategy makes of the transcript, which the loop reconciles with. */
  function Trimmed(cfg: Config, v: Visit): Transcript {
    Apply(cfg.strategy, v.s.convo, v.s.infos)
  }

  function RoundOf(cfg: Config, g: Gating, v: Visit): S.Round {
    S.Round(Present(Trimmed(cfg, v)), CallsOf(cfg, g, v))
  }

  function RoundsOf(cfg: Config, g: Gating, visits: seq<Visit>): seq<S.Round> {
    seq(|visits|, i requires 0 <= i < |visits| => RoundOf(cfg, g, visits[i]))
  }

  /** The activations iteration `i` finds. */
  function ActiveAt(cfg: Config, g: Gating, visits: seq<Visit>, i: nat): S.Active
    requires i <= |visits|
  {
    S.AfterRounds(g.skills.Keys, RoundsOf(cfg, g, visits[..i]))
  }

  /** Those left once the request is materialized and reconciled with. */
  function StartAt(cfg: Config, g: Gating, visits: seq<Visit>, i: nat): S.Active
    requires i < |visits|
  {
    S.Reconciled(ActiveAt(cfg, g, visits, i), Present(Trimmed(cfg, visits[i])))
  }

  /** The tools offered with the requests of iteration `i`, the meta tools aside. */
  function OfferedAt(cfg: Config, g: Gating, visits: seq<Visit>, i: nat): seq<string>
    requires i < |visits|
  {
    S.Offered(g.base, g.gates, StartAt(cfg, g, visits, i))
  }

  /** The activations call `j` of iteration `i` finds. */
  function ActiveBefore(cfg: Config, g: Gating, visits: seq<Visit>, i: nat, j: nat): S.Active
    requires i < |visits| && j <= |DispatchedBy(cfg, visits[i])|
  {
    S.AfterCalls(g.skills.Keys, StartAt(cfg, g, visits, i), CallsOf(cfg, g, visits[i])[..j])
  }

  /** What the handler of that call says. */
  function SaidAt(cfg: Config, g: Gating, visits: seq<Visit>, i: nat, j: nat): S.Said
    requires i < |visits| && j < |DispatchedBy(cfg, visits[i])|
  {
    S.Answer(g.skills.Keys, map[], ActiveBefore(cfg, g, visits, i, j), CallsOf(cfg, g, visits[i])[j])
  }

  /** The call is a load of `name` whose handler ran and answered with the body. */
  predicate BodyAt(cfg: Config, g: Gating, visits: seq<Visit>, i: nat, j: nat, name: string) {
    && i < |visits| && j < |DispatchedBy(cfg, visits[i])|
    && CallsOf(cfg, g, visits[i])[j] == S.Load(DispatchedBy(cfg, visits[i])[j].id, name)
    && SaidAt(cfg, g, visits, i, j) == S.Body
  }

  /** The result block of call `j` of an iteration. */
  function ResultAt(cfg: Config, v: Visit, j: nat): (b: Block)
    requires j < |DispatchedBy(cfg, v)|
    ensures b.ToolResult? && b.useId == DispatchedBy(cfg, v)[j].id
  {
    ResultBlock(ResultOf(DispatchedBy(cfg, v)[j], cfg.known, v.turn.outcomes(j)))
  }

  /** The skill is active by call `j` of iteration `n`, which answered with the
      body. */
  ghost predicate BroughtBy(cfg: Config, g: Gating, visits: seq<Visit>, i: nat, name: string, n: nat, j: nat)
    requires i <= |visits|
  {
    && n < i && BodyAt(cfg, g, visits, n, j, name)
    && name in ActiveAt(cfg, g, visits, i)
    && ActiveAt(cfg, g, visits, i)[name] == DispatchedBy(cfg, visits[n])[j].id
  }

  // ----- what an iteration appends -----

  function Partial(seen: string): seq<Block> {
    if TrimRight(seen) == "" then [] else [Text(TrimRight(seen))]
  }

  /** The blocks an iteration adds to the transcript. */
  function Appended(cfg: Config, v: Visit): seq<Block> {
    var sent := Called(cfg, v.s, v.turn).sent;
    match LastAttempt(v.turn, sent).reply
    case TooLarge => Partial(Seen(v.turn, |sent|))
    case Fault(_) => Partial(Seen(v.turn, |sent|))
    case Response(content, stop) =>
      if IsEmptyTurn(content, stop) then []
      else content + ResultBlocks(Dispatched(DispatchedBy(cfg, v), cfg.known, v.turn.outcomes))
  }

  lemma InterruptedAppends(s: State, seen: string, e: RunError)
    ensures Blocks(Interrupted(s, seen, e).convo) == Blocks(s.convo) + Partial(seen)
  {
    if TrimRight(seen) == "" {
      assert Blocks(s.convo) + [] == Blocks(s.convo);
    } else {
      AppendBlocks(s.convo, Message(Assistant, [Text(TrimRight(seen))]));
    }
  }

  lemma CallsAppend(cfg: Config, s: State, content: seq<Block>, turn: Turn)
    ensures var uses := Dispatches(cfg, content, ToolUseStop);
            Blocks(ActOnCalls(cfg, s, content, turn).0.convo)
            == Blocks(s.convo) + ResultBlocks(Dispatched(uses, cfg.known, turn.outcomes))
  {
    var uses := Dispatches(cfg, content, ToolUseStop);
    var results := ResultBlocks(Dispatched(uses, cfg.known, turn.outcomes));
    if uses == [] {
      assert results == [] && Blocks(s.convo) + [] == Blocks(s.convo);
    } else {
      AppendBlocks(s.convo, Message(User, results));
    }
  }

  lemma Grouped(a: seq<Block>, b: seq<Block>, c: seq<Block>)
    ensures a + b + c == a + (b + c)
  {
  }

  lemma ReplyAppends(cfg: Config, s: State, content: seq<Block>, stop: StopReason, turn: Turn)
    ensures var results := ResultBlocks(Dispatched(Dispatches(cfg, content, stop), cfg.known, turn.outcomes));
            Blocks(ActOnReply(cfg, s, content, stop, turn).0.convo) == Blocks(s.convo) + (content + results)
  {
    var s' := SetConvo(s.(emptyTurns := 0), PushAssistant(s.convo, content));
    AppendBlocks(s.convo, Message(Assistant, content));
    if stop.ToolUseStop? {
      var results := ResultBlocks(Dispatched(Dispatches(cfg, content, stop), cfg.known, turn.outcomes));
      CallsAppend(cfg, s', content, turn);
      Grouped(Blocks(s.convo), content, results);
    } else {
      assert content + [] == content;
    }
  }

  /** An iteration appends exactly those blocks. */
  lemma IterateAppends(cfg: Config, v: Visit)
    ensures Blocks(Iterate(cfg, v.s, v.turn).0.convo) == Blocks(v.s.convo) + Appended(cfg, v)
  {
    var call := Called(cfg, v.s, v.turn);
    var s := v.s.(level := call.level, requests := v.s.requests + call.sent);
    match LastAttempt(v.turn, call.sent).reply {
      case TooLarge => InterruptedAppends(s, Seen(v.turn, |call.sent|), ContextWindow);
      case Fault(message) => InterruptedAppends(s, Seen(v.turn, |call.sent|), Provider(message));
      case Response(content, stop) =>
        if IsEmptyTurn(content, stop) {
          assert Blocks(v.s.convo) + [] == Blocks(v.s.convo);
        } else {
          ReplyAppends(cfg, s, content, stop, v.turn);
        }
    }
  }

  // ----- the result of a call is the only one under its id -----

  /** `b` is in the transcript, and no other result answers its call. */
  ghost predicate OnlyResult(c: Transcript, b: Block)
    requires b.ToolResult?
  {
    && b in Blocks(c)
    && forall x :: x in Blocks(c) && x.ToolResult? && x.useId == b.useId ==> x == b
  }

  lemma MemberAnswers(bs: seq<Block>, b: Block)
    requires b in bs
    ensures b.ToolResult? ==> b.useId in Answers(bs)
    ensures b.ToolUse? ==> b.id in Asks(bs)
  {
    var k :| 0 <= k < |bs| && bs[k] == b;
    BlockWithin(bs, k);
  }

  /** In a valid transcript every answer was asked for. */
  lemma AnsweredIsAsked(c: Transcript, b: Block)
    requires Valid(c) && b in Blocks(c) && b.ToolResult?
    ensures b.useId in AllAsks(c)
  {
    HoldsBlocks(c, b);
    var i :| 0 <= i < |c| && b in c[i].content;
    MemberAnswers(c[i].content, b);
    if i > 0 {
      assert Linked(c, i);
      TurnAsksWithin(c, i - 1);
    }
  }

  lemma DispatchedMember(cfg: Config, v: Visit, b: Block)
    requires b in ResultBlocks(Dispatched(DispatchedBy(cfg, v), cfg.known, v.turn.outcomes))
    ensures exists j :: 0 <= j < |DispatchedBy(cfg, v)| && b == ResultAt(cfg, v, j)
  {
    var blocks := ResultBlocks(Dispatched(DispatchedBy(cfg, v), cfg.known, v.turn.outcomes));
    var j :| 0 <= j < |blocks| && blocks[j] == b;
    assert b == ResultAt(cfg, v, j);
  }

  /** The dispatched calls of a fresh reply are new and distinct, and the reply
      holds no result of its own. */
  lemma FreshCalls(cfg: Config, v: Visit)
    requires FaithfulTurn(cfg, v.s, v.turn) && DispatchedBy(cfg, v) != []
    ensures var uses := DispatchedBy(cfg, v);
            && (forall j :: 0 <= j < |uses| ==> uses[j].id !in AllAsks(v.s.convo))
            && (forall i, j :: 0 <= i < j < |uses| ==> uses[i].id != uses[j].id)
  {
    var content := LastAttempt(v.turn, Called(cfg, v.s, v.turn).sent).reply.content;
    var uses := DispatchedBy(cfg, v);
    assert uses == ToolUses(content) && FreshReply(v.s.convo, content);
    ToolUsesIds(content);
    UsesCount(content);
    UsesMembers(content);
    DistinctParts(AllAsks(v.s.convo), Asks(content));
    DistinctUses(content);
    forall j | 0 <= j < |uses|
      ensures uses[j].id !in AllAsks(v.s.convo)
    {
      assert uses[j].id == Uses(content)[j];
    }
  }

  /** Every result an iteration appends answers one of its own calls. */
  lemma AppendedResults(cfg: Config, v: Visit, b: Block)
    requires FaithfulTurn(cfg, v.s, v.turn) && b in Appended(cfg, v) && b.ToolResult?
    ensures exists j :: 0 <= j < |DispatchedBy(cfg, v)| && b == ResultAt(cfg, v, j)
  {
    var sent := Called(cfg, v.s, v.turn).sent;
    var reply := LastAttempt(v.turn, sent).reply;
    assert reply.Response? && !IsEmptyTurn(reply.content, reply.stop);
    if b in reply.content {
      MemberAnswers(reply.content, b);
    }
    DispatchedMember(cfg, v, b);
  }

  /** What is the only result under its id stays so over an iteration. */
  lemma IterateKeepsOnly(cfg: Config, v: Visit, b: Block)
    requires Valid(v.s.convo) && FaithfulTurn(cfg, v.s, v.turn)
    requires b.ToolResult? && OnlyResult(v.s.convo, b)
    ensures OnlyResult(Iterate(cfg, v.s, v.turn).0.convo, b)
  {
    IterateAppends(cfg, v);
    AnsweredIsAsked(v.s.convo, b);
    forall x | x in Appended(cfg, v) && x.ToolResult?
      ensures x.useId != b.useId
    {
      AppendedResults(cfg, v, x);
      FreshCalls(cfg, v);
    }
  }

  lemma ResultAppended(cfg: Config, v: Visit, j: nat)
    requires j < |DispatchedBy(cfg, v)|
    ensures ResultAt(cfg, v, j) in Appended(cfg, v)
  {
    var reply := LastAttempt(v.turn, Called(cfg, v.s, v.turn).sent).reply;
    var blocks := ResultBlocks(Dispatched(DispatchedBy(cfg, v), cfg.known, v.turn.outcomes));
    assert blocks[j] == ResultAt(cfg, v, j);
    var n := |reply.content|;
    assert (reply.content + blocks)[n + j] == blocks[j];
  }

  /** The result of a dispatched call becomes the only one under its id. */
  lemma IterateMakesOnly(cfg: Config, v: Visit, j: nat)
    requires Valid(v.s.convo) && FaithfulTurn(cfg, v.s, v.turn) && j < |DispatchedBy(cfg, v)|
    ensures OnlyResult(Iterate(cfg, v.s, v.turn).0.convo, ResultAt(cfg, v, j))
  {
    var b := ResultAt(cfg, v, j);
    IterateAppends(cfg, v);
    FreshCalls(cfg, v);
    ResultAppended(cfg, v, j);
    forall x | x in Appended(cfg, v) && x.ToolResult? && x.useId == b.useId
      ensures x == b
    {
      AppendedResults(cfg, v, x);
    }
    forall x | x in Blocks(v.s.convo) && x.ToolResult?
      ensures x.useId != b.useId
    {
      AnsweredIsAsked(v.s.convo, x);
    }
  }

  // ----- along a run -----

  ghost predicate FaithfulTrace(cfg: Config, visits: seq<Visit>) {
    visits == [] || (FaithfulTrace(cfg, Front(visits)) && FaithfulTurn(cfg, Last(visits).s, Last(visits).turn))
  }

  lemma {:induction false} FaithfulPrefix(cfg: Config, visits: seq<Visit>, i: nat)
    requires FaithfulTrace(cfg, visits) && i <= |visits|
    ensures FaithfulTrace(cfg, visits[..i])
  {
    if i == |visits| {
      assert visits[..i] == visits;
    } else {
      FaithfulPrefix(cfg, Front(visits), i);
      assert Front(visits)[..i] == visits[..i];
    }
  }

  /** A trace of fresh replies that goes on arrives at a valid transcript. */
  lemma {:induction false} TraceGoing(cfg: Config, first: State, visits: seq<Visit>)
    requires Trace(cfg, first, visits) && FaithfulTrace(cfg, visits) && Going(Anything, first)
    requires GoesOn(cfg, visits)
    ensures Going(Anything, StateAfter(cfg, first, visits))
  {
    if visits != [] {
      TraceGoing(cfg, first, Front(visits));
      IterateSafe(cfg, Anything, Last(visits).s, Last(visits).turn);
    }
  }

  /** From iteration `n` on, the result of its call `j` is the only one. */
  lemma {:induction false} OnlyEver(cfg: Config, first: State, visits: seq<Visit>, n: nat, j: nat)
    requires Trace(cfg, first, visits) && FaithfulTrace(cfg, visits) && Going(Anything, first)
    requires n < |visits| && j < |DispatchedBy(cfg, visits[n])|
    ensures OnlyResult(StateAfter(cfg, first, visits).convo, ResultAt(cfg, visits[n], j))
  {
    var before, v := Front(visits), Last(visits);
    TraceGoing(cfg, first, before);
    if n == |visits| - 1 {
      IterateMakesOnly(cfg, v, j);
    } else {
      assert before[n] == visits[n];
      OnlyEver(cfg, first, before, n, j);
      IterateKeepsOnly(cfg, v, ResultAt(cfg, visits[n], j));
    }
  }

  /** The iterations of a run with fresh replies. */
  lemma {:induction false} VisitsFaithful(cfg: Config, env: nat -> Turn, s: State, iter: nat, before: seq<Visit>)
    requires Faithful(cfg, env, s, iter) && FaithfulTrace(cfg, before)
    ensures FaithfulTrace(cfg, Visits(cfg, env, s, iter, before))
    decreases cfg.maxIters + 1 - iter
  {
    var turn := env(iter);
    if !turn.cancelled && iter <= cfg.maxIters && !turn.tripped {
      assert Front(before + [Visit(s, turn)]) == before;
      var (s', stop) := Iterate(cfg, s, turn);
      if !stop {
        VisitsFaithful(cfg, env, s', iter + 1, before + [Visit(s, turn)]);
      }
    }
  }

  // ----- the surface follows the context -----

  lemma PresentIs(c: Transcript, id: Id)
    ensures id in Present(c) <==> exists b :: b in Blocks(c) && b.ToolResult? && b.useId == id
  {
  }

  lemma {:induction false} AnswersMembers(bs: seq<Block>, id: Id)
    requires id in Answers(bs)
    ensures exists b :: b in bs && b.ToolResult? && b.useId == id
  {
    if Last(bs).ToolResult? && Last(bs).useId == id {
      assert Last(bs) in bs;
    } else {
      AnswersMembers(Front(bs), id);
      var b :| b in Front(bs) && b.ToolResult? && b.useId == id;
      assert b in bs;
    }
  }

  /** It is what the loop over a request collects. */
  lemma PresentIsAnswers(c: Transcript)
    ensures SetOf(Present(c), Answers(Blocks(c)))
  {
    forall id
      ensures id in Present(c) <==> id in Answers(Blocks(c))
    {
      PresentIs(c, id);
      if id in Present(c) {
        var b :| b in Blocks(c) && b.ToolResult? && b.useId == id;
        MemberAnswers(Blocks(c), b);
      }
      if id in Answers(Blocks(c)) {
        AnswersMembers(Blocks(c), id);
      }
    }
  }

  /** A load in a round is a dispatched call of that iteration. */
  lemma LoadIsDispatched(cfg: Config, g: Gating, v: Visit, j: nat, name: string, id: Id)
    requires j < |CallsOf(cfg, g, v)| && CallsOf(cfg, g, v)[j] == S.Load(id, name)
    ensures j < |DispatchedBy(cfg, v)| && DispatchedBy(cfg, v)[j].id == id
  {
    assert CallsOf(cfg, g, v)[j] == CallOf(cfg, g, DispatchedBy(cfg, v)[j], v.turn.reached(j));
  }

  lemma RoundsPrefix(cfg: Config, g: Gating, visits: seq<Visit>, i: nat, n: nat)
    requires n < i <= |visits|
    ensures RoundsOf(cfg, g, visits[..i])[..n] == RoundsOf(cfg, g, visits[..n])
    ensures RoundsOf(cfg, g, visits[..i])[n] == RoundOf(cfg, g, visits[n])
  {
    assert forall k :: 0 <= k < n ==> visits[..i][k] == visits[..n][k];
  }

  /** What an activation rests on is a dispatched load of an earlier iteration. */
  lemma ActiveIsBrought(cfg: Config, g: Gating, visits: seq<Visit>, i: nat, name: string)
      returns (n: nat, j: nat)
    requires i <= |visits| && name in ActiveAt(cfg, g, visits, i)
    ensures BroughtBy(cfg, g, visits, i, name, n, j)
  {
    var rounds := RoundsOf(cfg, g, visits[..i]);
    var id := ActiveAt(cfg, g, visits, i)[name];
    S.ActivationsAreLoads(g.skills.Keys, rounds, name);
    n, j :| S.LoadedAt(g.skills.Keys, rounds, n, j, name, id);
    RoundsPrefix(cfg, g, visits, i, n);
    LoadIsDispatched(cfg, g, visits[n], j, name, id);
  }

  lemma VisitValid(cfg: Config, env: nat -> Turn, input: Transcript, i: nat)
    requires Valid(input) && Faithful(cfg, env, Initial(input), 1) && i < |VisitsOf(cfg, env, input)|
    ensures Valid(VisitsOf(cfg, env, input)[i].s.convo)
  {
    var first, visits := Initial(input), VisitsOf(cfg, env, input);
    VisitsTrace(cfg, env, first, [], 1);
    VisitsFaithful(cfg, env, first, 1, []);
    TracePrefix(cfg, first, visits, i);
    FaithfulPrefix(cfg, visits, i);
    TraceGoing(cfg, first, visits[..i]);
  }

  /** The state iteration `i` starts from, and what it found there of earlier
      results. */
  lemma VisitHolds(cfg: Config, env: nat -> Turn, input: Transcript, i: nat, n: nat, j: nat)
    requires Valid(input) && Faithful(cfg, env, Initial(input), 1)
    requires n < i < |VisitsOf(cfg, env, input)| && j < |DispatchedBy(cfg, VisitsOf(cfg, env, input)[n])|
    ensures var v := VisitsOf(cfg, env, input)[i];
            Valid(v.s.convo) && OnlyResult(v.s.convo, ResultAt(cfg, VisitsOf(cfg, env, input)[n], j))
  {
    var first, visits := Initial(input), VisitsOf(cfg, env, input);
    VisitsTrace(cfg, env, first, [], 1);
    VisitsFaithful(cfg, env, first, 1, []);
    TracePrefix(cfg, first, visits, i);
    FaithfulPrefix(cfg, visits, i);
    TraceGoing(cfg, first, visits[..i]);
    OnlyEver(cfg, first, visits[..i], n, j);
  }

  /** If any result under the id of an earlier call is still there, it is the one
      that call got. */
  lemma PresentResult(cfg: Config, env: nat -> Turn, input: Transcript, i: nat, n: nat, j: nat)
    requires Valid(input) && Faithful(cfg, env, Initial(input), 1)
    requires n < i < |VisitsOf(cfg, env, input)| && j < |DispatchedBy(cfg, VisitsOf(cfg, env, input)[n])|
    requires var visits := VisitsOf(cfg, env, input);
             DispatchedBy(cfg, visits[n])[j].id in Present(Trimmed(cfg, visits[i]))
    ensures var visits := VisitsOf(cfg, env, input);
            ResultAt(cfg, visits[n], j) in Blocks(Trimmed(cfg, visits[i]))
  {
    var visits := VisitsOf(cfg, env, input);
    var v, r := visits[i], ResultAt(cfg, visits[n], j);
    VisitHolds(cfg, env, input, i, n, j);
    var b :| b in Blocks(Trimmed(cfg, v)) && b.ToolResult? && b.useId == r.useId;
    SparedIsHeld(cfg.strategy, v.s.convo, v.s.infos, b);
    HoldsBlocks(Trimmed(cfg, v), b);
    HoldsBlocks(v.s.convo, b);
  }

  /** The result of call `j` of iteration `n` is in what the strategy makes of the
      transcript in iteration `i`, or has no id under which to miss it. */
  predicate Backed(cfg: Config, visits: seq<Visit>, i: nat, n: nat, j: nat)
    requires n <= i < |visits| && j < |DispatchedBy(cfg, visits[n])|
  {
    DispatchedBy(cfg, visits[n])[j].id == S.NO_ID || ResultAt(cfg, visits[n], j) in Blocks(Trimmed(cfg, visits[i]))
  }

  lemma StartIsBacked(cfg: Config, g: Gating, env: nat -> Turn, input: Transcript, i: nat, name: string)
      returns (n: nat, j: nat)
    requires Valid(input) && Faithful(cfg, env, Initial(input), 1) && i < |VisitsOf(cfg, env, input)|
    requires name in StartAt(cfg, g, VisitsOf(cfg, env, input), i)
    ensures BroughtBy(cfg, g, VisitsOf(cfg, env, input), i, name, n, j)
    ensures Backed(cfg, VisitsOf(cfg, env, input), i, n, j)
  {
    var visits := VisitsOf(cfg, env, input);
    n, j := ActiveIsBrought(cfg, g, visits, i, name);
    if DispatchedBy(cfg, visits[n])[j].id != S.NO_ID {
      PresentResult(cfg, env, input, i, n, j);
    }
  }

  lemma BackedStarts(cfg: Config, g: Gating, visits: seq<Visit>, i: nat, name: string, n: nat, j: nat)
    requires i < |visits| && BroughtBy(cfg, g, visits, i, name, n, j) && Backed(cfg, visits, i, n, j)
    ensures name in StartAt(cfg, g, visits, i)
  {
    if DispatchedBy(cfg, visits[n])[j].id != S.NO_ID {
      PresentIs(Trimmed(cfg, visits[i]), ResultAt(cfg, visits[n], j).useId);
    }
  }

  /** Surface follows context, in every iteration of every run: a gated tool is
      offered with a request if and only if a load of this run, one that reached
      its handler, made its skill active, and the result block of that very load
      is in what the strategy made of the transcript or has no id; every other
      tool of the base is offered. */
  lemma SurfaceOverRun(cfg: Config, g: Gating, env: nat -> Turn, input: Transcript, i: nat, t: string)
    requires Valid(input) && Faithful(cfg, env, Initial(input), 1)
    requires i < |VisitsOf(cfg, env, input)| && t in g.base
    ensures var visits := VisitsOf(cfg, env, input);
            t in OfferedAt(cfg, g, visits, i) <==>
              (t in g.gates ==> exists n: nat, j: nat :: BroughtBy(cfg, g, visits, i, g.gates[t], n, j)
                                  && Backed(cfg, visits, i, n, j))
  {
    var visits := VisitsOf(cfg, env, input);
    S.OfferedExact(g.base, g.gates, StartAt(cfg, g, visits, i), t);
    if t in g.gates {
      var name := g.gates[t];
      if name in StartAt(cfg, g, visits, i) {
        var n, j := StartIsBacked(cfg, g, env, input, i, name);
      }
      forall n: nat, j: nat | BroughtBy(cfg, g, visits, i, name, n, j) && Backed(cfg, visits, i, n, j)
        ensures name in StartAt(cfg, g, visits, i)
      {
        BackedStarts(cfg, g, visits, i, name, n, j);
      }
    }
  }

  // ----- the body itself -----

  /** What the handler of a load returns when it answers with the body. */
  function FullText(cfg: Config, g: Gating, visits: seq<Visit>, n: nat, j: nat, name: string): Bytes
    requires BodyAt(cfg, g, visits, n, j, name)
  {
    g.skills[name] + g.footer(name, ActiveBefore(cfg, g, visits, n, j).Keys + {name})
  }

  function Shown(g: Gating, full: Bytes): string {
    Chars(Clip.Clipped(Clip.Shipped(), full, g.limit))
  }

  /** Truncation is the only middleware between the handler of a load that gave
      out a body and the transcript. */
  ghost predicate Serves(cfg: Config, g: Gating, visits: seq<Visit>) {
    forall n: nat, j: nat, name :: BodyAt(cfg, g, visits, n, j, name) ==>
      && visits[n].turn.outcomes(j).Returned?
      && visits[n].turn.outcomes(j).output == Shown(g, FullText(cfg, g, visits, n, j, name))
  }

  /** The result block of a load with its body uncut. */
  function FullBody(cfg: Config, g: Gating, visits: seq<Visit>, n: nat, j: nat, name: string): Block
    requires BodyAt(cfg, g, visits, n, j, name)
  {
    ToolResult(DispatchedBy(cfg, visits[n])[j].id, Chars(FullText(cfg, g, visits, n, j, name)), false)
  }

  /** Truncation leaves the body alone. */
  predicate Fits(cfg: Config, g: Gating, visits: seq<Visit>, n: nat, j: nat, name: string)
    requires BodyAt(cfg, g, visits, n, j, name)
  {
    Clip.Whole(Clip.Shipped(), FullText(cfg, g, visits, n, j, name), g.limit)
  }

  /** The load got the body, clipped; all of it if and only if it fits. */
  lemma LoadGetsBody(cfg: Config, g: Gating, visits: seq<Visit>, n: nat, j: nat, name: string)
    requires Serves(cfg, g, visits) && BodyAt(cfg, g, visits, n, j, name)
    ensures var use, full := DispatchedBy(cfg, visits[n])[j], FullText(cfg, g, visits, n, j, name);
            ResultAt(cfg, visits[n], j) == ToolResult(use.id, Shown(g, full), false)
    ensures ResultAt(cfg, visits[n], j) == FullBody(cfg, g, visits, n, j, name) <==> Fits(cfg, g, visits, n, j, name)
  {
    var full := FullText(cfg, g, visits, n, j, name);
    Clip.ClipWhole(Clip.Shipped(), full, g.limit);
    CharsInjective(Clip.Clipped(Clip.Shipped(), full, g.limit), full);
    assert CallOf(cfg, g, DispatchedBy(cfg, visits[n])[j], visits[n].turn.reached(j)).Load?;
  }

  /** No other block under the id of an earlier load can be its body. */
  lemma BodyIsResult(cfg: Config, g: Gating, env: nat -> Turn, input: Transcript, i: nat, n: nat, j: nat, name: string)
    requires Valid(input) && Faithful(cfg, env, Initial(input), 1)
    requires n < i < |VisitsOf(cfg, env, input)| && BodyAt(cfg, g, VisitsOf(cfg, env, input), n, j, name)
    requires Serves(cfg, g, VisitsOf(cfg, env, input))
    ensures var visits := VisitsOf(cfg, env, input);
            var msgs := Blocks(Trimmed(cfg, visits[i]));
            FullBody(cfg, g, visits, n, j, name) in msgs
            <==> ResultAt(cfg, visits[n], j) in msgs && Fits(cfg, g, visits, n, j, name)
  {
    var visits := VisitsOf(cfg, env, input);
    var v, b := visits[i], FullBody(cfg, g, visits, n, j, name);
    LoadGetsBody(cfg, g, visits, n, j, name);
    VisitHolds(cfg, env, input, i, n, j);
    SparedIsHeld(cfg.strategy, v.s.convo, v.s.infos, b);
    HoldsBlocks(Trimmed(cfg, v), b);
    HoldsBlocks(v.s.convo, b);
  }

  /** The load of this run that made the skill active: the strategy left its
      result, and thereby the full body if and only if that fits; of a load
      without an id nothing is known. */
  ghost predicate BodyBehind(cfg: Config, g: Gating, visits: seq<Visit>, i: nat, name: string, n: nat, j: nat)
    requires i < |visits|
  {
    && BroughtBy(cfg, g, visits, i, name, n, j) && Backed(cfg, visits, i, n, j)
    && (DispatchedBy(cfg, visits[n])[j].id != S.NO_ID ==>
        (FullBody(cfg, g, visits, n, j, name) in Blocks(Trimmed(cfg, visits[i])) <==> Fits(cfg, g, visits, n, j, name)))
  }

  /** Behind every offered gated tool stands the full body of its skill, in what
      the strategy made of the transcript, if and only if the body fits, unless
      the load that brought it in has no id. */
  lemma OfferedHasBody(cfg: Config, g: Gating, env: nat -> Turn, input: Transcript, i: nat, t: string)
      returns (n: nat, j: nat)
    requires Valid(input) && Faithful(cfg, env, Initial(input), 1) && i < |VisitsOf(cfg, env, input)|
    requires Serves(cfg, g, VisitsOf(cfg, env, input))
    requires t in g.gates && t in OfferedAt(cfg, g, VisitsOf(cfg, env, input), i)
    ensures BodyBehind(cfg, g, VisitsOf(cfg, env, input), i, g.gates[t], n, j)
  {
    var visits := VisitsOf(cfg, env, input);
    S.OfferedExact(g.base, g.gates, StartAt(cfg, g, visits, i), t);
    n, j := StartIsBacked(cfg, g, env, input, i, g.gates[t]);
    BodyIsResult(cfg, g, env, input, i, n, j, g.gates[t]);
  }

  /** A stub is truthful over a run: the full body of the skill is in what the
      strategy made of the transcript for this very reply, or an earlier call of
      the same reply got it; either way if and only if it fits, and unless the
      load that brought it in has no id. */
  lemma StubOverRun(cfg: Config, g: Gating, env: nat -> Turn, input: Transcript, i: nat, m: nat, name: string)
    requires Valid(input) && Faithful(cfg, env, Initial(input), 1) && i < |VisitsOf(cfg, env, input)|
    requires Serves(cfg, g, VisitsOf(cfg, env, input))
    requires var visits := VisitsOf(cfg, env, input);
             m < |DispatchedBy(cfg, visits[i])| && CallsOf(cfg, g, visits[i])[m].Load?
             && CallsOf(cfg, g, visits[i])[m].skill == name && SaidAt(cfg, g, visits, i, m) == S.Stub
    ensures var visits := VisitsOf(cfg, env, input);
            || (exists n: nat, j: nat :: BodyBehind(cfg, g, visits, i, name, n, j))
            || (exists l: nat :: l < m && BodyAt(cfg, g, visits, i, l, name)
                  && (ResultAt(cfg, visits[i], l) == FullBody(cfg, g, visits, i, l, name)
                      <==> Fits(cfg, g, visits, i, l, name)))
  {
    var visits := VisitsOf(cfg, env, input);
    var calls, start := CallsOf(cfg, g, visits[i]), StartAt(cfg, g, visits, i);
    S.StubComesFrom(g.skills.Keys, start, calls, m);
    if name in start {
      var n, j := StartIsBacked(cfg, g, env, input, i, name);
      BodyIsResult(cfg, g, env, input, i, n, j, name);
      assert BodyBehind(cfg, g, visits, i, name, n, j);
    } else {
      var l: nat :| l < m && calls[l].Load? && calls[l].skill == name
                    && S.Answer(g.skills.Keys, map[], S.AfterCalls(g.skills.Keys, start, calls[..l]), calls[l]) == S.Body;
      LoadIsDispatched(cfg, g, visits[i], l, name, calls[l].id);
      LoadGetsBody(cfg, g, visits, i, l, name);
    }
  }

  // ----- the wire -----

  lemma NoticeHolds(msgs: Transcript, note: string, b: Block)
    requires b.ToolResult?
    ensures Holds(WithNotice(msgs, note), b) <==> Holds(msgs, b)
  {
    var d := WithNotice(msgs, note);
    if d != msgs {
      assert |d| == |msgs| && forall i :: 0 <= i < |msgs| - 1 ==> d[i] == msgs[i];
      assert forall i :: 0 <= i < |msgs| ==> (b in d[i].content <==> b in msgs[i].content);
    }
  }

  lemma NoticeChained(msgs: Transcript, note: string)
    requires Chained(msgs)
    ensures Chained(WithNotice(msgs, note))
  {
    var d := WithNotice(msgs, note);
    if d != msgs {
      TextIsShapeless(note, Last(msgs).content);
      assert forall i :: 0 <= i < |msgs| - 1 ==> d[i] == msgs[i];
      SameShapeChained(msgs, d);
    }
  }

  /** Every attempt of a call is at a level, the first at the run's own and the
      later ones above it. */
  lemma SentLevel(cfg: Config, v: Visit, k: nat) returns (level: nat)
    requires v.s.level <= |cfg.ladder| && k < |Called(cfg, v.s, v.turn).sent|
    ensures v.s.level <= level <= |cfg.ladder| && (k == 0 <==> level == v.s.level)
    ensures Called(cfg, v.s, v.turn).sent[k]
         == AtLevel(cfg.ladder, level, Materialized(cfg, v.s, v.turn), v.s.infos)
  {
    var msgs := Materialized(cfg, v.s, v.turn);
    var levels := CompleteClimbs(cfg.ladder, v.s.level, msgs, v.s.infos, TooBig(v.turn), 0);
    CallsBounded(cfg.ladder, v.s.level, msgs, v.s.infos, TooBig(v.turn), 0);
    level := levels[k];
    assert level <= Last(levels);
    assert k > 0 ==> levels[0] < levels[k];
  }

  lemma LevelHolds(cfg: Config, v: Visit, b: Block, level: nat)
    requires Chained(v.s.convo) && b.ToolResult? && level <= |cfg.ladder|
    ensures var msgs := Materialized(cfg, v.s, v.turn);
            Holds(AtLevel(cfg.ladder, level, msgs, v.s.infos), b)
            <==> b in Blocks(Trimmed(cfg, v)) && (level == 0 || Spares(cfg.ladder[level - 1], msgs, v.s.infos, b))
  {
    SparedIsHeld(cfg.strategy, v.s.convo, v.s.infos, b);
    NoticeHolds(Trimmed(cfg, v), v.turn.notice, b);
    NoticeChained(Trimmed(cfg, v), v.turn.notice);
    HoldsBlocks(Trimmed(cfg, v), b);
    if level > 0 {
      SparedIsHeld(cfg.ladder[level - 1], Materialized(cfg, v.s, v.turn), v.s.infos, b);
    }
  }

  lemma {:induction false} TraceLevel(cfg: Config, first: State, visits: seq<Visit>)
    requires Trace(cfg, first, visits) && first.level <= |cfg.ladder|
    ensures StateAfter(cfg, first, visits).level <= |cfg.ladder|
  {
    if visits != [] {
      TraceLevel(cfg, first, Front(visits));
      IterateBounded(cfg, Last(visits).s, Last(visits).turn);
    }
  }

  lemma LevelInRange(cfg: Config, env: nat -> Turn, input: Transcript, i: nat)
    requires Valid(input) && i < |VisitsOf(cfg, env, input)|
    ensures VisitsOf(cfg, env, input)[i].s.level <= |cfg.ladder|
  {
    var first, visits := Initial(input), VisitsOf(cfg, env, input);
    VisitsTrace(cfg, env, first, [], 1);
    TracePrefix(cfg, first, visits, i);
    TraceLevel(cfg, first, visits[..i]);
  }

  /** On the wire, for every request of every run: a result is in the request sent
      if and only if the strategy left it and the request uses no overflow rung
      or the rung spares it. */
  lemma ResultOnWire(cfg: Config, env: nat -> Turn, input: Transcript, i: nat, k: nat, b: Block) returns (level: nat)
    requires Valid(input) && Faithful(cfg, env, Initial(input), 1) && i < |VisitsOf(cfg, env, input)|
    requires b.ToolResult?
    requires var v := VisitsOf(cfg, env, input)[i]; k < |Called(cfg, v.s, v.turn).sent|
    ensures var v := VisitsOf(cfg, env, input)[i];
            var msgs := Materialized(cfg, v.s, v.turn);
            && v.s.level <= level <= |cfg.ladder| && (k == 0 <==> level == v.s.level)
            && Called(cfg, v.s, v.turn).sent[k] == AtLevel(cfg.ladder, level, msgs, v.s.infos)
            && (b in Blocks(Called(cfg, v.s, v.turn).sent[k])
                <==> b in Blocks(Trimmed(cfg, v)) && (level == 0 || Spares(cfg.ladder[level - 1], msgs, v.s.infos, b)))
  {
    var v := VisitsOf(cfg, env, input)[i];
    VisitValid(cfg, env, input, i);
    LevelInRange(cfg, env, input, i);
    level := SentLevel(cfg, v, k);
    LevelHolds(cfg, v, b, level);
    HoldsBlocks(Called(cfg, v.s, v.turn).sent[k], b);
  }

  /** The full body that made a skill active, offered or not. */
  lemma BodyOnWire(cfg: Config, g: Gating, env: nat -> Turn, input: Transcript, i: nat, name: string, n: nat, j: nat, k: nat)
      returns (level: nat)
    requires Valid(input) && Faithful(cfg, env, Initial(input), 1) && i < |VisitsOf(cfg, env, input)|
    requires BroughtBy(cfg, g, VisitsOf(cfg, env, input), i, name, n, j)
    requires var v := VisitsOf(cfg, env, input)[i]; k < |Called(cfg, v.s, v.turn).sent|
    ensures var visits := VisitsOf(cfg, env, input);
            var v, msgs, b := visits[i], Materialized(cfg, visits[i].s, visits[i].turn), FullBody(cfg, g, visits, n, j, name);
            && v.s.level <= level <= |cfg.ladder| && (k == 0 <==> level == v.s.level)
            && Called(cfg, v.s, v.turn).sent[k] == AtLevel(cfg.ladder, level, msgs, v.s.infos)
            && (b in Blocks(Called(cfg, v.s, v.turn).sent[k])
                <==> b in Blocks(Trimmed(cfg, v)) && (level == 0 || Spares(cfg.ladder[level - 1], msgs, v.s.infos, b)))
  {
    level := ResultOnWire(cfg, env, input, i, k, FullBody(cfg, g, VisitsOf(cfg, env, input), n, j, name));
  }

  /** Surface follows context on the wire, whatever the middlewares made of the
      load: what brought in the skill of an offered tool is in the request if and
      only if no rung in use evicts it. */
  lemma OfferedResultOnWire(cfg: Config, g: Gating, env: nat -> Turn, input: Transcript, i: nat, t: string, k: nat)
      returns (n: nat, j: nat, level: nat)
    requires Valid(input) && Faithful(cfg, env, Initial(input), 1) && i < |VisitsOf(cfg, env, input)|
    requires t in g.gates && t in OfferedAt(cfg, g, VisitsOf(cfg, env, input), i)
    requires var v := VisitsOf(cfg, env, input)[i]; k < |Called(cfg, v.s, v.turn).sent|
    ensures var visits := VisitsOf(cfg, env, input);
            BroughtBy(cfg, g, visits, i, g.gates[t], n, j) && Backed(cfg, visits, i, n, j)
    ensures var visits := VisitsOf(cfg, env, input);
            var v, msgs, b := visits[i], Materialized(cfg, visits[i].s, visits[i].turn), ResultAt(cfg, visits[n], j);
            && v.s.level <= level <= |cfg.ladder| && (k == 0 <==> level == v.s.level)
            && (b.useId != S.NO_ID ==>
                (b in Blocks(Called(cfg, v.s, v.turn).sent[k])
                 <==> level == 0 || Spares(cfg.ladder[level - 1], msgs, v.s.infos, b)))
  {
    var visits := VisitsOf(cfg, env, input);
    S.OfferedExact(g.base, g.gates, StartAt(cfg, g, visits, i), t);
    n, j := StartIsBacked(cfg, g, env, input, i, g.gates[t]);
    level := ResultOnWire(cfg, env, input, i, k, ResultAt(cfg, visits[n], j));
  }

  /** Every tool offered with a request has its full body in that request if and
      only if the body fits and no rung in use evicts it. */
  lemma OfferedBodyOnWire(cfg: Config, g: Gating, env: nat -> Turn, input: Transcript, i: nat, t: string, k: nat)
      returns (n: nat, j: nat, level: nat)
    requires Valid(input) && Faithful(cfg, env, Initial(input), 1) && i < |VisitsOf(cfg, env, input)|
    requires Serves(cfg, g, VisitsOf(cfg, env, input))
    requires t in g.gates && t in OfferedAt(cfg, g, VisitsOf(cfg, env, input), i)
    requires var v := VisitsOf(cfg, env, input)[i]; k < |Called(cfg, v.s, v.turn).sent|
    ensures BodyBehind(cfg, g, VisitsOf(cfg, env, input), i, g.gates[t], n, j)
    ensures var visits := VisitsOf(cfg, env, input);
            var v, msgs, b := visits[i], Materialized(cfg, visits[i].s, visits[i].turn), FullBody(cfg, g, visits, n, j, g.gates[t]);
            && v.s.level <= level <= |cfg.ladder| && (k == 0 <==> level == v.s.level)
            && (DispatchedBy(cfg, visits[n])[j].id != S.NO_ID ==>
                (b in Blocks(Called(cfg, v.s, v.turn).sent[k])
                 <==> Fits(cfg, g, visits, n, j, g.gates[t])
                      && (level == 0 || Spares(cfg.ladder[level - 1], msgs, v.s.infos, b))))
  {
    n, j := OfferedHasBody(cfg, g, env, input, i, t);
    level := BodyOnWire(cfg, g, env, input, i, g.gates[t], n, j, k);
  }
}
