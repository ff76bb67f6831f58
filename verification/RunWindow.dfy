/** The prefix of a run's requests under a sliding window: which parts of what was
    sent are sent again, unchanged (`run.go`, `strategy.go`). */
module RunWindow {
  import opened Llm
  import opened Convo
  import opened Strategy
  import opened StrategyLaws
  import opened Overflow
  import opened Dispatch
  import opened Resume
  import opened Run
  import opened RunLaws

  /** `d` is `c` and whole messages behind it, and it ends as `c` must for the
      next ones to be messages of their own. */
  ghost predicate Extends(c: Transcript, d: Transcript) {
    c <= d && d != [] && Last(d).role.User?
  }

  lemma ExtendsOn(a: Transcript, b: Transcript, c: Transcript)
    requires Extends(a, b) && Extends(b, c)
    ensures Extends(a, c)
  {
    assert c[..|a|] == b[..|a|];
  }

  /** A reply and the results of its calls are two messages. */
  lemma CallsExtend(cfg: Config, s: State, content: seq<Block>, turn: Turn)
    requires s.convo != [] && Last(s.convo).role.Assistant? && !ActOnCalls(cfg, s, content, turn).1
    ensures Extends(s.convo, ActOnCalls(cfg, s, content, turn).0.convo)
  {
    var uses := ToolUses(content);
    DispatchAnswers(content, cfg.known, turn.outcomes);
    var blocks := ResultBlocks(Dispatched(uses, cfg.known, turn.outcomes));
    assert |blocks| == |uses| > 0;
    var d := Append(s.convo, Message(User, blocks));
    assert d == s.convo + [Message(User, blocks)];
  }

  lemma ReplyExtends(cfg: Config, s: State, content: seq<Block>, stop: StopReason, turn: Turn)
    requires s.convo != [] && Last(s.convo).role.User? && !ActOnReply(cfg, s, content, stop, turn).1
    ensures Extends(s.convo, ActOnReply(cfg, s, content, stop, turn).0.convo)
  {
    var s' := SetConvo(s.(emptyTurns := 0), PushAssistant(s.convo, content));
    assert content != [];
    assert s'.convo == s.convo + [Message(Assistant, content)];
    CallsExtend(cfg, s', content, turn);
    var d := ActOnCalls(cfg, s', content, turn).0.convo;
    assert d[..|s.convo|] == s'.convo[..|s.convo|];
  }

  /** An iteration that goes on adds whole messages, or nothing. */
  lemma IterationExtends(cfg: Config, s: State, turn: Turn)
    requires s.convo != [] && Last(s.convo).role.User? && !Iterate(cfg, s, turn).1
    ensures Extends(s.convo, Iterate(cfg, s, turn).0.convo)
  {
    var call := Called(cfg, s, turn);
    var s' := s.(level := call.level, requests := s.requests + call.sent);
    match LastAttempt(turn, call.sent).reply {
      case Response(content, stop) =>
        if !IsEmptyTurn(content, stop) {
          ReplyExtends(cfg, s', content, stop, turn);
        }
      case _ =>
    }
  }

  /** So does a trace, whatever the replies. */
  lemma {:induction false} TraceExtends(cfg: Config, first: State, visits: seq<Visit>)
    requires Trace(cfg, first, visits) && GoesOn(cfg, visits) && Extends([], first.convo)
    ensures Extends(first.convo, StateAfter(cfg, first, visits).convo)
  {
    if visits != [] {
      TraceExtends(cfg, first, Front(visits));
      IterationExtends(cfg, Last(visits).s, Last(visits).turn);
      ExtendsOn(first.convo, Last(visits).s.convo, StateAfter(cfg, first, visits).convo);
    }
  }

  lemma {:induction false} VisitExtends(cfg: Config, first: State, visits: seq<Visit>, i: nat, k: nat)
    requires Trace(cfg, first, visits) && Extends([], first.convo) && i <= k < |visits|
    ensures Extends(visits[i].s.convo, visits[k].s.convo)
  {
    TracePrefix(cfg, first, visits, k);
    if i == k {
      TraceExtends(cfg, first, visits[..k]);
    } else {
      VisitExtends(cfg, first, visits, i, k - 1);
      var before := visits[..k];
      assert Last(before) == visits[k - 1];
      IterationExtends(cfg, visits[k - 1].s, visits[k - 1].turn);
      ExtendsOn(visits[i].s.convo, visits[k - 1].s.convo, visits[k].s.convo);
    }
  }

  /** No message is rewritten: in a run from an input that ends in a user turn the
      transcript of every iteration begins with that of every earlier one. */
  lemma NothingRewritten(cfg: Config, env: nat -> Turn, input: Transcript, i: nat, k: nat)
    requires Valid(input) && Last(input).role.User?
    requires i <= k < |VisitsOf(cfg, env, input)|
    ensures var visits := VisitsOf(cfg, env, input);
            visits[i].s.convo <= visits[k].s.convo && input <= visits[i].s.convo
  {
    var first, visits := Initial(input), VisitsOf(cfg, env, input);
    VisitsTrace(cfg, env, first, [], 1);
    VisitExtends(cfg, first, visits, i, k);
    TracePrefix(cfg, first, visits, 0);
    VisitExtends(cfg, first, visits, 0, i);
    assert visits[..0] == [];
  }

  /** Transcripts of `n` and of `m` messages that the window cuts at one place:
      both short of the trigger, or in one block of lengths. */
  predicate OneBlock(st: Strategy, n: nat, m: nat) {
    && st.Window? && 0 < st.keep < st.trigger
    && (m < st.trigger || (st.keep <= n && (n - st.keep) / (st.trigger - st.keep) == (m - st.keep) / (st.trigger - st.keep)))
  }

  lemma BlockStable(st: Strategy, msgs: Transcript, more: Transcript, infos: Infos, later: Infos)
    requires OneBlock(st, |msgs|, |msgs + more|)
    ensures Apply(st, msgs + more, later) == Apply(st, msgs, infos) + more
  {
    if |msgs + more| < st.trigger {
      assert WindowCut(st.trigger, st.keep, msgs) == 0 == WindowCut(st.trigger, st.keep, msgs + more);
    } else {
      WindowPrefixStable(st.trigger, st.keep, msgs, more);
    }
  }

  /** Within one block the requests of a run under a window extend one another
      message by message: whatever iteration `i` built is built again by
      iteration `k`, in front of the messages that came in between. */
  lemma RequestsExtend(cfg: Config, env: nat -> Turn, input: Transcript, i: nat, k: nat) returns (more: Transcript)
    requires Valid(input) && Last(input).role.User?
    requires i <= k < |VisitsOf(cfg, env, input)|
    requires var v, w := VisitsOf(cfg, env, input)[i], VisitsOf(cfg, env, input)[k];
             OneBlock(cfg.strategy, |v.s.convo|, |w.s.convo|) && v.turn.notice == "" && w.turn.notice == ""
    ensures var v, w := VisitsOf(cfg, env, input)[i], VisitsOf(cfg, env, input)[k];
            && w.s.convo == v.s.convo + more
            && Materialized(cfg, w.s, w.turn) == Materialized(cfg, v.s, v.turn) + more
  {
    var v, w := VisitsOf(cfg, env, input)[i], VisitsOf(cfg, env, input)[k];
    NothingRewritten(cfg, env, input, i, k);
    more := w.s.convo[|v.s.convo|..];
    assert w.s.convo == v.s.convo + more;
    BlockStable(cfg.strategy, v.s.convo, more, v.s.infos, w.s.infos);
  }

  /** On the wire: the first attempts, as long as no overflow rung is in use. */
  lemma SentExtend(cfg: Config, env: nat -> Turn, input: Transcript, i: nat, k: nat)
    requires Valid(input) && Last(input).role.User?
    requires i <= k < |VisitsOf(cfg, env, input)|
    requires var v, w := VisitsOf(cfg, env, input)[i], VisitsOf(cfg, env, input)[k];
             && OneBlock(cfg.strategy, |v.s.convo|, |w.s.convo|) && v.turn.notice == "" && w.turn.notice == ""
             && v.s.level == 0 && w.s.level == 0
    ensures var v, w := VisitsOf(cfg, env, input)[i], VisitsOf(cfg, env, input)[k];
            var a, b := Called(cfg, v.s, v.turn).sent, Called(cfg, w.s, w.turn).sent;
            a != [] && b != [] && a[0] <= b[0]
  {
    var more := RequestsExtend(cfg, env, input, i, k);
  }
}
