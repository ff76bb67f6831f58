/** Safety and bounds of whole runs. */
module RunLaws {
  import opened Llm
  import opened Convo
  import opened Strategy
  import opened StrategyLaws
  import opened Compose
  import opened Overflow
  import opened Dispatch
  import opened Resume
  import opened Run

  /** What a configuration demands of a transcript, ladder included. */
  function NeedOf(cfg: Config): Need {
    Demand(cfg.strategy, RungNeed(cfg.ladder))
  }

  /** A transcript that can be resumed from and keeps a shape. */
  ghost predicate Stored(n: Need, c: Transcript) {
    Resumable(c) && Shape(n, c)
  }

  ghost predicate Exposed(n: Need, s: State) {
    forall i :: 0 <= i < |s.snapshots| ==> Stored(n, s.snapshots[i])
  }

  ghost predicate Going(n: Need, s: State) {
    Exposed(n, s) && Valid(s.convo) && Shape(n, s.convo)
  }

  ghost predicate Ended(n: Need, s: State) {
    && Exposed(n, s) && Stored(n, s.convo)
    && (s.outcome.Some? && s.outcome.value.Paused? ==> s.outcome.value.id in Uses(Last(s.convo).content))
  }

  ghost predicate AllSent(s: State) {
    forall i :: 0 <= i < |s.requests| ==> Valid(s.requests[i])
  }

  /** The reply of this iteration, if the loop pushes one, is fresh. */
  ghost predicate FaithfulTurn(cfg: Config, s: State, turn: Turn) {
    match LastAttempt(turn, Called(cfg, s, turn).sent).reply
    case Response(content, stop) => IsEmptyTurn(content, stop) || FreshReply(s.convo, content)
    case _ => true
  }

  /** So are all replies of the run. */
  ghost predicate Faithful(cfg: Config, env: nat -> Turn, s: State, iter: nat)
    decreases cfg.maxIters + 1 - iter
  {
    var turn := env(iter);
    turn.cancelled || iter > cfg.maxIters || turn.tripped ||
    (FaithfulTurn(cfg, s, turn) &&
     var (s', stop) := Iterate(cfg, s, turn);
     stop || Faithful(cfg, env, s', iter + 1))
  }

  // ----- one iteration -----

  /** The notice adds text to the last turn: no role and no id changes. */
  lemma NoticeKeeps(n: Need, msgs: Transcript, note: string)
    requires Valid(msgs) && Shape(n, msgs)
    ensures Valid(WithNotice(msgs, note)) && Shape(n, WithNotice(msgs, note))
    ensures |WithNotice(msgs, note)| == |msgs|
    ensures forall i :: 0 <= i < |msgs| ==> SameShape(msgs[i], WithNotice(msgs, note)[i])
  {
    var d := WithNotice(msgs, note);
    if d != msgs {
      TextIsShapeless(note, Last(msgs).content);
      TextOnly(note);
      forall i | 0 <= i < |msgs|
        ensures SameShape(msgs[i], d[i])
      {
        assert i < |msgs| - 1 ==> d[i] == msgs[i];
      }
      SameShapeValid(msgs, d);
      AppendShape(n, msgs, Message(User, [Text(note)]));
    }
  }

  /** Whatever the notice and however far a call climbs, all attempts of an
      iteration are sendable. */
  lemma IterationSends(cfg: Config, s: State, turn: Turn)
    requires Valid(s.convo) && Shape(NeedOf(cfg), s.convo)
    ensures var sent := Called(cfg, s, turn).sent;
            sent != [] && forall i :: 0 <= i < |sent| ==> Valid(sent[i])
  {
    var n := RungNeed(cfg.ladder);
    ApplyReady(cfg.strategy, n, s.convo, s.infos);
    NoticeKeeps(n, Apply(cfg.strategy, s.convo, s.infos), turn.notice);
    AttemptsValid(cfg.ladder, s.level, Materialized(cfg, s, turn), s.infos, TooBig(turn), 0);
    CallsBounded(cfg.ladder, s.level, Materialized(cfg, s, turn), s.infos, TooBig(turn), 0);
  }

  lemma SnapshotSafe(n: Need, s: State, c: Transcript)
    requires Exposed(n, s) && Stored(n, c)
    ensures Exposed(n, SetConvo(s, c))
  {
  }

  /** Pushing an assistant turn keeps the shape. */
  lemma PushedStored(n: Need, c: Transcript, content: seq<Block>)
    requires Valid(c) && Shape(n, c) && FreshReply(c, content)
    ensures Stored(n, PushAssistant(c, content))
    ensures Asks(Last(PushAssistant(c, content)).content) == Asks(content)
  {
    PushAssistantExact(c, content);
    AppendShape(n, c, Message(Assistant, content));
  }

  lemma InterruptedSafe(n: Need, s: State, seen: string, e: RunError)
    requires Going(n, s)
    ensures Ended(n, Interrupted(s, seen, e))
    ensures Valid(Interrupted(s, seen, e).convo)
  {
    var partial := TrimRight(seen);
    var blocks := [Text(partial)];
    TextOnly(partial);
    assert AllAsks(s.convo) + multiset{} == AllAsks(s.convo);
    PushedStored(n, s.convo, blocks);
    if partial != "" {
      SnapshotSafe(n, s, PushAssistant(s.convo, blocks));
    }
  }

  lemma UseIsOpen(names: set<string>, c: Transcript, content: seq<Block>)
    requires c != [] && Asks(Last(c).content) == Asks(content)
    requires FindUse(names, ToolUses(content)).Some?
    ensures UseId(FindUse(names, ToolUses(content)).value) in Uses(Last(c).content)
  {
    FindUseMember(names, ToolUses(content));
    ToolUsesIds(content);
    var use := FindUse(names, ToolUses(content)).value;
    var k :| 0 <= k < |ToolUses(content)| && ToolUses(content)[k] == use;
    assert Uses(content)[k] == use.id;
    UsesMembers(content);
    UsesMembers(Last(c).content);
  }

  lemma ActOnCallsSafe(cfg: Config, n: Need, s: State, content: seq<Block>, turn: Turn)
    requires Exposed(n, s) && Stored(n, s.convo) && Asks(Last(s.convo).content) == Asks(content)
    ensures var (s', stop) := ActOnCalls(cfg, s, content, turn);
            if stop then Ended(n, s') else Going(n, s')
  {
    var uses := ToolUses(content);
    DispatchAnswers(content, cfg.known, turn.outcomes);
    if uses != [] && FindUse(cfg.terminals, uses).None? {
      if FindUse(cfg.pauses, uses).Some? {
        UseIsOpen(cfg.pauses, s.convo, content);
      } else {
        var blocks := ResultBlocks(Dispatched(uses, cfg.known, turn.outcomes));
        PushAnswersExact(s.convo, blocks);
        assert Placed(Last(s.convo));
        AppendShape(n, s.convo, Message(User, blocks));
        SnapshotSafe(n, s, PushToolResults(s.convo, blocks));
      }
    }
  }

  lemma ActOnReplySafe(cfg: Config, n: Need, s: State, content: seq<Block>, stop: StopReason, turn: Turn)
    requires Going(n, s) && FreshReply(s.convo, content)
    ensures var (s', over) := ActOnReply(cfg, s, content, stop, turn);
            if over then Ended(n, s') else Going(n, s')
  {
    var c := PushAssistant(s.convo, content);
    PushedStored(n, s.convo, content);
    var s' := SetConvo(s.(emptyTurns := 0), c);
    SnapshotSafe(n, s.(emptyTurns := 0), c);
    if stop.ToolUseStop? {
      ActOnCallsSafe(cfg, n, s', content, turn);
    }
  }

  /** What every iteration keeps, whatever the strategy sends. */
  lemma IterateSafe(cfg: Config, n: Need, s: State, turn: Turn)
    requires Going(n, s) && FaithfulTurn(cfg, s, turn)
    ensures var (s', stop) := Iterate(cfg, s, turn);
            if stop then Ended(n, s') else Going(n, s')
  {
    var call := Called(cfg, s, turn);
    var s' := s.(level := call.level, requests := s.requests + call.sent);
    assert Going(n, s');
    match LastAttempt(turn, call.sent).reply
    case TooLarge => InterruptedSafe(n, s', Seen(turn, |call.sent|), ContextWindow);
    case Fault(message) => InterruptedSafe(n, s', Seen(turn, |call.sent|), Provider(message));
    case Response(content, stop) =>
      if !IsEmptyTurn(content, stop) {
        ActOnReplySafe(cfg, n, s', content, stop, turn);
      }
  }

  // ----- whole runs -----

  lemma OutcomeUnset(cfg: Config, s: State, turn: Turn)
    requires s.outcome.None?
    ensures !Iterate(cfg, s, turn).1 ==> Iterate(cfg, s, turn).0.outcome.None?
  {
  }

  lemma {:induction false} LoopSafe(cfg: Config, n: Need, env: nat -> Turn, s: State, iter: nat)
    requires Going(n, s) && s.outcome.None? && Faithful(cfg, env, s, iter)
    ensures Ended(n, Loop(cfg, env, s, iter))
    decreases cfg.maxIters + 1 - iter
  {
    var turn := env(iter);
    if !turn.cancelled && iter <= cfg.maxIters && !turn.tripped {
      IterateSafe(cfg, n, s, turn);
      var (s', stop) := Iterate(cfg, s, turn);
      if !stop {
        OutcomeUnset(cfg, s, turn);
        LoopSafe(cfg, n, env, s', iter + 1);
      }
    }
  }

  /** Whole-run safety of what is kept: from any valid input every transcript the
      run exposes can be resumed from and keeps the shape of the input, and a
      pause names an open call of the final transcript. */
  lemma RunResumes(cfg: Config, n: Need, env: nat -> Turn, input: Transcript)
    requires Valid(input) && Shape(n, input) && Faithful(cfg, env, Initial(input), 1)
    ensures Ended(n, RunOf(cfg, env, input))
  {
    LoopSafe(cfg, n, env, Initial(input), 1);
  }

  /** Acting on a reply sends nothing and climbs nothing. */
  lemma AfterCallSends(cfg: Config, s: State, turn: Turn, n: nat, reply: Reply)
    ensures var s' := AfterCall(cfg, s, turn, n, reply).0;
            s'.level == s.level && s'.requests == s.requests
  {
  }

  lemma IterateSends(cfg: Config, s: State, turn: Turn)
    ensures Iterate(cfg, s, turn).0.requests == s.requests + Called(cfg, s, turn).sent
    ensures Iterate(cfg, s, turn).0.level == Called(cfg, s, turn).level
  {
    var call := Called(cfg, s, turn);
    var s' := s.(level := call.level, requests := s.requests + call.sent);
    AfterCallSends(cfg, s', turn, |call.sent|, LastAttempt(turn, call.sent).reply);
  }

  lemma {:induction false} LoopSends(cfg: Config, env: nat -> Turn, s: State, iter: nat)
    requires Going(NeedOf(cfg), s) && s.outcome.None? && Faithful(cfg, env, s, iter)
    requires AllSent(s)
    ensures AllSent(Loop(cfg, env, s, iter))
    decreases cfg.maxIters + 1 - iter
  {
    var turn := env(iter);
    if !turn.cancelled && iter <= cfg.maxIters && !turn.tripped {
      IterationSends(cfg, s, turn);
      IterateSends(cfg, s, turn);
      IterateSafe(cfg, NeedOf(cfg), s, turn);
      var (s', stop) := Iterate(cfg, s, turn);
      if !stop {
        OutcomeUnset(cfg, s, turn);
        LoopSends(cfg, env, s', iter + 1);
      }
    }
  }

  /** Whole-run safety of what is sent. The loop validates only its input;
      nevertheless every request it ever sends is valid, provided the input
      meets what the strategy and the ladder demand. Without a removal they
      demand nothing. */
  lemma RunSafe(cfg: Config, env: nat -> Turn, input: Transcript)
    requires Valid(input) && Shape(NeedOf(cfg), input) && Faithful(cfg, env, Initial(input), 1)
    ensures AllSent(RunOf(cfg, env, input))
  {
    LoopSends(cfg, env, Initial(input), 1);
  }

  // ----- the assumption on the provider is necessary -----

  lemma ActOnReplyExposes(cfg: Config, s: State, content: seq<Block>, stop: StopReason, turn: Turn)
    ensures var s' := ActOnReply(cfg, s, content, stop, turn).0;
            |s'.snapshots| > |s.snapshots| && s'.snapshots[|s.snapshots|] == PushAssistant(s.convo, content)
  {
  }

  /** One reply that reuses an id or carries a result, and the transcript the run
      exposes next can no longer be resumed from. */
  lemma StaleReplyBreaks(cfg: Config, s: State, turn: Turn)
    requires Valid(s.convo) && !FaithfulTurn(cfg, s, turn)
    ensures exists i :: 0 <= i < |Iterate(cfg, s, turn).0.snapshots| && !Resumable(Iterate(cfg, s, turn).0.snapshots[i])
  {
    var call := Called(cfg, s, turn);
    var r := LastAttempt(turn, call.sent).reply;
    var s' := s.(level := call.level, requests := s.requests + call.sent);
    var c := PushAssistant(s.convo, r.content);
    PushAssistantExact(s.convo, r.content);
    ActOnReplyExposes(cfg, s', r.content, r.stop, turn);
    assert Iterate(cfg, s, turn).0.snapshots[|s.snapshots|] == c;
  }

  ghost predicate AllResumable(s: State) {
    forall i :: 0 <= i < |s.snapshots| ==> Resumable(s.snapshots[i])
  }

  lemma IterateExposes(cfg: Config, s: State, turn: Turn)
    ensures s.snapshots <= Iterate(cfg, s, turn).0.snapshots
  {
  }

  lemma {:induction false} LoopExposes(cfg: Config, env: nat -> Turn, s: State, iter: nat)
    ensures s.snapshots <= Loop(cfg, env, s, iter).snapshots
    decreases cfg.maxIters + 1 - iter
  {
    var turn := env(iter);
    if !turn.cancelled && iter <= cfg.maxIters && !turn.tripped {
      IterateExposes(cfg, s, turn);
      var (s', stop) := Iterate(cfg, s, turn);
      if !stop {
        LoopExposes(cfg, env, s', iter + 1);
      }
    }
  }

  lemma {:induction false} LoopFaithful(cfg: Config, env: nat -> Turn, s: State, iter: nat)
    requires Going(Anything, s) && AllResumable(Loop(cfg, env, s, iter))
    ensures Faithful(cfg, env, s, iter)
    decreases cfg.maxIters + 1 - iter
  {
    var turn := env(iter);
    if !turn.cancelled && iter <= cfg.maxIters && !turn.tripped {
      var (s', stop) := Iterate(cfg, s, turn);
      if !stop {
        LoopExposes(cfg, env, s', iter + 1);
      }
      assert s'.snapshots <= Loop(cfg, env, s, iter).snapshots;
      if !FaithfulTurn(cfg, s, turn) {
        StaleReplyBreaks(cfg, s, turn);
      } else if !stop {
        IterateSafe(cfg, Anything, s, turn);
        LoopFaithful(cfg, env, s', iter + 1);
      }
    }
  }

  /** Every transcript a run exposes can be resumed from if and only if every
      reply it pushes is fresh. */
  lemma ResumableExactly(cfg: Config, env: nat -> Turn, input: Transcript)
    requires Valid(input)
    ensures AllResumable(RunOf(cfg, env, input)) <==> Faithful(cfg, env, Initial(input), 1)
  {
    if Faithful(cfg, env, Initial(input), 1) {
      RunResumes(cfg, Anything, env, input);
    }
    if AllResumable(RunOf(cfg, env, input)) {
      LoopFaithful(cfg, env, Initial(input), 1);
    }
  }

  // ----- bounds -----

  /** An iteration sends one request, and one more per rung it climbs. */
  lemma IterateBounded(cfg: Config, s: State, turn: Turn)
    requires s.level <= |cfg.ladder|
    ensures var s' := Iterate(cfg, s, turn).0;
            && s.level <= s'.level <= |cfg.ladder|
            && |s'.requests| <= |s.requests| + 1 + (s'.level - s.level)
  {
    CallsBounded(cfg.ladder, s.level, Materialized(cfg, s, turn), s.infos, TooBig(turn), 0);
    IterateSends(cfg, s, turn);
  }

  lemma {:induction false} LoopBounded(cfg: Config, env: nat -> Turn, s: State, iter: nat)
    requires s.level <= |cfg.ladder| && iter <= cfg.maxIters + 1
    ensures |Loop(cfg, env, s, iter).requests| <= |s.requests| + (cfg.maxIters + 1 - iter) + (|cfg.ladder| - s.level)
    decreases cfg.maxIters + 1 - iter
  {
    var turn := env(iter);
    if !turn.cancelled && iter <= cfg.maxIters && !turn.tripped {
      IterateBounded(cfg, s, turn);
      var (s', stop) := Iterate(cfg, s, turn);
      if !stop {
        LoopBounded(cfg, env, s', iter + 1);
      }
    }
  }

  lemma {:induction false} VisitsBounded(cfg: Config, env: nat -> Turn, s: State, iter: nat, before: seq<Visit>)
    requires iter <= cfg.maxIters + 1
    ensures |Visits(cfg, env, s, iter, before)| <= |before| + (cfg.maxIters + 1 - iter)
    decreases cfg.maxIters + 1 - iter
  {
    var turn := env(iter);
    if !turn.cancelled && iter <= cfg.maxIters && !turn.tripped {
      var (s', stop) := Iterate(cfg, s, turn);
      if !stop {
        VisitsBounded(cfg, env, s', iter + 1, before + [Visit(s, turn)]);
      }
    }
  }

  /** A whole run calls the provider in at most `maxIters` iterations, none if that
      is negative, and sends at most as many requests plus one per rung of the
      ladder, however often the provider rejects a request for its size: a level
      once needed is never rediscovered. */
  lemma RunBounded(cfg: Config, env: nat -> Turn, input: Transcript)
    ensures |VisitsOf(cfg, env, input)| <= if cfg.maxIters < 0 then 0 else cfg.maxIters
    ensures |RunOf(cfg, env, input).requests| <= (if cfg.maxIters < 0 then 0 else cfg.maxIters) + |cfg.ladder|
  {
    if Valid(input) && cfg.maxIters >= 0 {
      VisitsBounded(cfg, env, Initial(input), 1, []);
      LoopBounded(cfg, env, Initial(input), 1);
    }
  }

  /** The iteration got a reply with nothing to act on. */
  predicate WentEmpty(cfg: Config, v: Visit) {
    var r := LastAttempt(v.turn, Called(cfg, v.s, v.turn).sent).reply;
    r.Response? && IsEmptyTurn(r.content, r.stop)
  }

  /** How many iterations in a row, up to the last one, went empty. */
  function Streak(cfg: Config, visits: seq<Visit>): nat {
    if visits == [] || !WentEmpty(cfg, Last(visits)) then 0 else Streak(cfg, Front(visits)) + 1
  }

  /** The error an empty turn ends with counts the streak. */
  predicate CountsStreak(s: State, streak: nat) {
    && (s.err.Some? && s.err.value.EmptyTurn? ==> s.err.value.attempts == streak)
    && (streak > MAX_EMPTY_TURNS ==> s.err == Some(EmptyTurn(streak)))
  }

  lemma AfterCallStreak(cfg: Config, s: State, turn: Turn, n: nat, reply: Reply)
    requires s.emptyTurns <= MAX_EMPTY_TURNS && s.err.None?
    ensures var (s', stop) := AfterCall(cfg, s, turn, n, reply);
            var streak := if reply.Response? && IsEmptyTurn(reply.content, reply.stop) then s.emptyTurns + 1 else 0;
            && CountsStreak(s', streak)
            && (!stop ==> s'.emptyTurns == streak <= MAX_EMPTY_TURNS && s'.err.None?)
  {
  }

  lemma IterateStreak(cfg: Config, before: seq<Visit>, s: State, turn: Turn)
    requires s.emptyTurns == Streak(cfg, before) <= MAX_EMPTY_TURNS && s.err.None?
    ensures var (s', stop) := Iterate(cfg, s, turn);
            var streak := Streak(cfg, before + [Visit(s, turn)]);
            && streak <= MAX_EMPTY_TURNS + 1 && CountsStreak(s', streak)
            && (!stop ==> s'.emptyTurns == streak <= MAX_EMPTY_TURNS && s'.err.None?)
  {
    assert Front(before + [Visit(s, turn)]) == before;
    var call := Called(cfg, s, turn);
    var s1 := s.(level := call.level, requests := s.requests + call.sent);
    var r := LastAttempt(turn, call.sent).reply;
    AfterCallStreak(cfg, s1, turn, |call.sent|, r);
  }

  lemma {:induction false} StreakTrace(cfg: Config, first: State, visits: seq<Visit>)
    requires Trace(cfg, first, visits) && first.emptyTurns == 0 && first.err.None?
    ensures var s, streak := StateAfter(cfg, first, visits), Streak(cfg, visits);
            && streak <= MAX_EMPTY_TURNS + 1 && CountsStreak(s, streak)
            && (GoesOn(cfg, visits) ==> s.emptyTurns == streak <= MAX_EMPTY_TURNS && s.err.None?)
  {
    if visits != [] {
      var before, v := Front(visits), Last(visits);
      StreakTrace(cfg, first, before);
      assert visits == before + [v];
      IterateStreak(cfg, before, v.s, v.turn);
    }
  }

  /** What came before an iteration is a trace that went on to it. */
  lemma {:induction false} TracePrefix(cfg: Config, first: State, visits: seq<Visit>, i: nat)
    requires Trace(cfg, first, visits) && i < |visits|
    ensures Trace(cfg, first, visits[..i]) && GoesOn(cfg, visits[..i])
    ensures visits[i].s == StateAfter(cfg, first, visits[..i])
  {
    if i == |visits| - 1 {
      assert visits[..i] == Front(visits);
    } else {
      TracePrefix(cfg, first, Front(visits), i);
      assert Front(visits)[..i] == visits[..i];
    }
  }

  /** Never more than three iterations in a row go empty, and the third of them
      ends the run with an error that counts them. */
  lemma EmptyTurnsBounded(cfg: Config, env: nat -> Turn, input: Transcript)
    requires Valid(input)
    ensures Streak(cfg, VisitsOf(cfg, env, input)) <= MAX_EMPTY_TURNS + 1
    ensures CountsStreak(RunOf(cfg, env, input), Streak(cfg, VisitsOf(cfg, env, input)))
    ensures forall i :: 0 <= i < |VisitsOf(cfg, env, input)| ==>
                          Streak(cfg, VisitsOf(cfg, env, input)[..i]) <= MAX_EMPTY_TURNS
  {
    var first, visits := Initial(input), VisitsOf(cfg, env, input);
    VisitsTrace(cfg, env, first, [], 1);
    StreakTrace(cfg, first, visits);
    forall i | 0 <= i < |visits|
      ensures Streak(cfg, visits[..i]) <= MAX_EMPTY_TURNS
    {
      TracePrefix(cfg, first, visits, i);
      StreakTrace(cfg, first, visits[..i]);
    }
  }

  /** What some iterations sent, in order. */
  function SentBy(cfg: Config, visits: seq<Visit>): seq<Transcript> {
    if visits == [] then [] else SentBy(cfg, Front(visits)) + Called(cfg, Last(visits).s, Last(visits).turn).sent
  }

  lemma {:induction false} TraceSends(cfg: Config, first: State, visits: seq<Visit>)
    requires Trace(cfg, first, visits) && first.requests == []
    ensures StateAfter(cfg, first, visits).requests == SentBy(cfg, visits)
  {
    if visits != [] {
      TraceSends(cfg, first, Front(visits));
      IterateSends(cfg, Last(visits).s, Last(visits).turn);
    }
  }

  /** The iterations account for every request of the run. */
  lemma VisitsSend(cfg: Config, env: nat -> Turn, input: Transcript)
    requires Valid(input)
    ensures RunOf(cfg, env, input).requests == SentBy(cfg, VisitsOf(cfg, env, input))
  {
    VisitsTrace(cfg, env, Initial(input), [], 1);
    TraceSends(cfg, Initial(input), VisitsOf(cfg, env, input));
  }

  // ----- nothing is rewritten -----

  lemma AppendExtends(c: Transcript, m: Message)
    ensures Blocks(c) <= Blocks(Append(c, m))
  {
    AppendBlocks(c, m);
  }

  lemma ActOnReplyExtends(cfg: Config, s: State, content: seq<Block>, stop: StopReason, turn: Turn)
    ensures Blocks(s.convo) <= Blocks(ActOnReply(cfg, s, content, stop, turn).0.convo)
  {
    var c := PushAssistant(s.convo, content);
    AppendExtends(s.convo, Message(Assistant, content));
    DispatchAnswers(content, cfg.known, turn.outcomes);
    AppendExtends(c, Message(User, ResultBlocks(Dispatched(ToolUses(content), cfg.known, turn.outcomes))));
  }

  lemma InterruptedExtends(s: State, seen: string, e: RunError)
    ensures Blocks(s.convo) <= Blocks(Interrupted(s, seen, e).convo)
  {
    AppendExtends(s.convo, Message(Assistant, [Text(TrimRight(seen))]));
  }

  lemma AfterCallExtends(cfg: Config, s: State, turn: Turn, n: nat, reply: Reply)
    ensures Blocks(s.convo) <= Blocks(AfterCall(cfg, s, turn, n, reply).0.convo)
  {
    match reply {
      case TooLarge => InterruptedExtends(s, Seen(turn, n), ContextWindow);
      case Fault(message) => InterruptedExtends(s, Seen(turn, n), Provider(message));
      case Response(content, stop) =>
        if !IsEmptyTurn(content, stop) {
          ActOnReplyExtends(cfg, s, content, stop, turn);
        }
    }
  }

  /** The stored conversation only ever grows at its end. */
  lemma IterateExtends(cfg: Config, s: State, turn: Turn)
    ensures Blocks(s.convo) <= Blocks(Iterate(cfg, s, turn).0.convo)
  {
    var call := Called(cfg, s, turn);
    var s' := s.(level := call.level, requests := s.requests + call.sent);
    AfterCallExtends(cfg, s', turn, |call.sent|, LastAttempt(turn, call.sent).reply);
  }

  lemma {:induction false} RunExtends(cfg: Config, env: nat -> Turn, s: State, iter: nat)
    ensures Blocks(s.convo) <= Blocks(Loop(cfg, env, s, iter).convo)
    decreases cfg.maxIters + 1 - iter
  {
    var turn := env(iter);
    if !turn.cancelled && iter <= cfg.maxIters && !turn.tripped {
      IterateExtends(cfg, s, turn);
      var (s', stop) := Iterate(cfg, s, turn);
      if !stop {
        RunExtends(cfg, env, s', iter + 1);
      }
    }
  }
}
