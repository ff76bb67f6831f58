/** The loop of `run.go` as the source has it: one object whose fields each
    iteration updates. It refines the step function of module `Run`. */
module RunLoop {
  import opened Llm
  import opened Convo
  import opened Strategy
  import opened Overflow
  import opened Dispatch
  import opened Resume
  import R = Run

  class Run {
    const cfg: R.Config
    const overflow: OverflowState
    var convo: Transcript
    var infos: Infos
    var emptyTurns: nat
    var outcome: Option<R.Outcome>
    var err: Option<R.RunError>
    ghost var requests: seq<Transcript>
    ghost var snapshots: seq<Transcript>

    ghost function State(): R.State
      reads this, overflow
    {
      R.State(convo, infos, emptyTurns, overflow.n, outcome, err, requests, snapshots)
    }

    constructor (cfg: R.Config, input: Transcript)
      ensures this.cfg == cfg && State() == R.Initial(input) && fresh(overflow)
    {
      this.cfg := cfg;
      overflow := new OverflowState();
      convo, infos, emptyTurns, outcome, err := input, map[], 0, None, None;
      requests, snapshots := [], [input];
    }

    method SetConvo(c: Transcript)
      modifies this`convo, this`snapshots
      ensures convo == c && snapshots == old(snapshots) + [c]
    {
      convo := c;
      snapshots := snapshots + [c];
    }

    method Finish(o: Option<R.Outcome>, e: Option<R.RunError>)
      modifies this`outcome, this`err
      ensures outcome == o && err == e
    {
      outcome, err := o, e;
    }

    /** Keep the half-answer the user has already seen. */
    method Interrupt(seen: string, e: R.RunError)
      modifies this
      ensures State() == R.Interrupted(old(State()), seen, e)
    {
      var partial := R.TrimRight(seen);
      if partial != "" {
        SetConvo(PushAssistant(convo, [Text(partial)]));
      }
      Finish(None, Some(e));
    }

    method Retry(reasoned: nat) returns (stop: bool)
      modifies this
      ensures (State(), stop) == R.Retried(cfg, old(State()), reasoned)
    {
      emptyTurns := emptyTurns + 1;
      stop := (cfg.maxTokens > 0 && reasoned >= 2 * cfg.maxTokens) || emptyTurns > R.MAX_EMPTY_TURNS;
      if stop {
        Finish(None, Some(R.EmptyTurn(emptyTurns)));
      }
    }

    method RecordResults(results: seq<Result>)
      modifies this`infos
      ensures infos == R.Noted(old(infos), results)
    {
      var i := 0;
      while i < |results|
        invariant 0 <= i <= |results| && infos == R.Noted(old(infos), results[..i])
      {
        var r := results[i];
        assert Front(results[..i + 1]) == results[..i];
        infos := infos[r.useId := ResultInfo(r.name, r.tags, |r.output|)];
        i := i + 1;
      }
      assert results[..i] == results;
    }

    method ActOnCalls(content: seq<Block>, turn: R.Turn) returns (stop: bool)
      modifies this
      ensures (State(), stop) == R.ActOnCalls(cfg, old(State()), content, turn)
    {
      var uses := ToolUses(content);
      DispatchAnswers(content, cfg.known, turn.outcomes);
      if uses == [] {
        Finish(None, Some(R.NoToolUse));
        return true;
      }
      var terminal := FindUse(cfg.terminals, uses);
      if terminal.Some? {
        Finish(Some(R.SubmittedBy(terminal.value)), None);
        return true;
      }
      var pause := FindUse(cfg.pauses, uses);
      if pause.Some? {
        Finish(Some(R.Paused(UseId(pause.value))), None);
        return true;
      }
      var order := seq(|uses|, i => i);
      forall i | 0 <= i < |uses|
        ensures i in order
      {
        assert order[i] == i;
      }
      var results := DispatchBatch(uses, cfg.known, turn.outcomes, order);
      RecordResults(results);
      SetConvo(PushToolResults(convo, ResultBlocks(results)));
      stop := false;
    }

    method ActOnReply(content: seq<Block>, reason: R.StopReason, turn: R.Turn) returns (stop: bool)
      modifies this
      ensures (State(), stop) == R.ActOnReply(cfg, old(State()), content, reason, turn)
    {
      emptyTurns := 0;
      SetConvo(PushAssistant(convo, content));
      stop := true;
      match reason {
        case EndTurn => Finish(Some(R.Answer(R.TextOf(content))), None);
        case StopSequence => Finish(Some(R.Answer(R.TextOf(content))), None);
        case MaxTokensStop => Finish(None, Some(R.OutOfTokens));
        case RefusalStop => Finish(None, Some(R.Refused(R.TextOf(content))));
        case ToolUseStop => stop := ActOnCalls(content, turn);
        case OtherStop(name) => Finish(None, Some(R.UnexpectedStop(name)));
      }
    }

    /** One ReAct cycle. */
    method Iterate(turn: R.Turn) returns (stop: bool)
      modifies this, overflow
      ensures (State(), stop) == R.Iterate(cfg, old(State()), turn)
    {
      var msgs := Materialize(cfg.strategy, convo, infos);
      if turn.notice != "" {
        msgs := R.WithNotice(msgs, turn.notice);
      }
      var sent := overflow.Call(cfg.ladder, msgs, infos, R.TooBig(turn));
      requests := requests + sent;
      match R.LastAttempt(turn, sent).reply {
        case TooLarge =>
          Interrupt(R.Seen(turn, |sent|), R.ContextWindow);
          stop := true;
        case Fault(message) =>
          Interrupt(R.Seen(turn, |sent|), R.Provider(message));
          stop := true;
        case Response(content, reason) =>
          if R.IsEmptyTurn(content, reason) {
            stop := Retry(R.Reasoned(turn, |sent|));
          } else {
            stop := ActOnReply(content, reason, turn);
          }
      }
    }

    /** The cycle until something ends it. */
    method Loop(env: nat -> R.Turn)
      requires State() == R.Initial(convo)
      modifies this, overflow
      ensures State() == R.RunOf(cfg, env, old(convo))
    {
      ghost var input := convo;
      var verdict := Validate(convo);
      JudgedDecides(convo, verdict);
      if !verdict.Accepted? {
        Finish(None, Some(R.InvalidInput));
        return;
      }
      var iter := 1;
      while true
        invariant iter >= 1
        invariant R.Loop(cfg, env, State(), iter) == R.RunOf(cfg, env, input)
        decreases cfg.maxIters + 1 - iter
      {
        var turn := env(iter);
        if turn.cancelled {
          Finish(None, Some(R.Cancelled));
          return;
        }
        if iter > cfg.maxIters {
          Finish(None, Some(R.MaxIterations));
          return;
        }
        if turn.tripped {
          Finish(None, Some(R.Cancelled));
          return;
        }
        var stop := Iterate(turn);
        if stop {
          return;
        }
        iter := iter + 1;
      }
    }
  }
}
