/** The ReAct loop of `run.go` as a function of its environment. The world
    around it -- provider, tools, clock, compactor -- is an arbitrary environment. */
module Run {
  import opened Llm
  import opened Convo
  import opened Strategy
  import opened Overflow
  import opened Dispatch
  import opened Resume

  datatype StopReason = EndTurn | StopSequence | ToolUseStop | MaxTokensStop | RefusalStop | OtherStop(reason: string)
  datatype Reply = TooLarge | Fault(message: string) | Response(content: seq<Block>, stop: StopReason)

  /** One provider call: what was streamed before it ended, and how it ended. */
  datatype Attempt = Attempt(streamed: string, reasoned: nat, reply: Reply)

  /** Everything one iteration meets outside the loop. `reached` tells of each
      dispatched call whether its handler ran: a middleware may answer instead. */
  datatype Turn = Turn(
    cancelled: bool,
    tripped: bool,
    notice: string,
    attempts: nat -> Attempt,
    outcomes: nat -> CallOutcome,
    reached: nat -> bool)

  datatype Config = Config(
    strategy: Strategy,
    ladder: seq<Strategy>,
    maxIters: int,
    maxTokens: int,
    known: set<string>,
    terminals: set<string>,
    pauses: set<string>)

  datatype Outcome = Answer(text: string) | Submitted(tool: string, payload: string) | Paused(id: Id)

  datatype RunError =
    | InvalidInput
    | Cancelled
    | MaxIterations
    | ContextWindow
    | Provider(message: string)
    | EmptyTurn(attempts: nat)
    | OutOfTokens
    | Refused(reason: string)
    | NoToolUse
    | UnexpectedStop(reason: string)
    | Crashed(message: string)

  /** A run in progress. `requests` logs every transcript put on the wire and
      `snapshots` every transcript `Messages` could have returned. */
  datatype State = State(
    convo: Transcript,
    infos: Infos,
    emptyTurns: nat,
    level: nat,
    outcome: Option<Outcome>,
    err: Option<RunError>,
    requests: seq<Transcript>,
    snapshots: seq<Transcript>)

  const MAX_EMPTY_TURNS: nat := 2

  // ----- text -----

  predicate TrailingSpace(ch: char) {
    ch == ' ' || ch == '\t' || ch == '\r' || ch == '\n'
  }

  function TrimRight(s: string): string {
    if s != "" && TrailingSpace(Last(s)) then TrimRight(Front(s)) else s
  }

  /** `unicode.IsSpace`. */
  predicate IsSpace(ch: char) {
    || '\t' <= ch <= '\r' || ch == ' ' || ch == '\U{85}' || ch == '\U{A0}' || ch == '\U{1680}'
    || '\U{2000}' <= ch <= '\U{200A}' || ch == '\U{2028}' || ch == '\U{2029}' || ch == '\U{202F}'
    || ch == '\U{205F}' || ch == '\U{3000}'
  }

  predicate Blank(s: string) {
    forall i :: 0 <= i < |s| ==> IsSpace(s[i])
  }

  /** Every Text block, newline-separated. */
  function TextOf(bs: seq<Block>): string {
    if bs == [] then ""
    else
      var before := TextOf(Front(bs));
      if !Last(bs).Text? then before
      else if before == "" then Last(bs).text
      else before + "\n" + Last(bs).text
  }

  /** Finished, by its stop reason, with neither visible text nor a call. */
  predicate IsEmptyTurn(content: seq<Block>, stop: StopReason) {
    (stop.EndTurn? || stop.StopSequence?) && Blank(TextOf(content)) && ToolUses(content) == []
  }

  /** The request with `note` as one more text block at its very end, unless
      the assistant spoke last. */
  function WithNotice(msgs: Transcript, note: string): Transcript {
    if msgs == [] || Last(msgs).role != User then msgs
    else Front(msgs) + [Message(User, Last(msgs).content + [Text(note)])]
  }

  // ----- one iteration -----

  function TooBig(turn: Turn): nat -> bool {
    (k: nat) => turn.attempts(k).reply.TooLarge?
  }

  /** What the first `n` attempts streamed. */
  function Seen(turn: Turn, n: nat): string {
    if n == 0 then "" else Seen(turn, n - 1) + turn.attempts(n - 1).streamed
  }

  function Reasoned(turn: Turn, n: nat): nat {
    if n == 0 then 0 else Reasoned(turn, n - 1) + turn.attempts(n - 1).reasoned
  }

  /** The request the loop builds, before any overflow rung. */
  function Materialized(cfg: Config, s: State, turn: Turn): Transcript {
    var msgs := Apply(cfg.strategy, s.convo, s.infos);
    if turn.notice == "" then msgs else WithNotice(msgs, turn.notice)
  }

  function Called(cfg: Config, s: State, turn: Turn): Attempts {
    Complete(cfg.ladder, s.level, Materialized(cfg, s, turn), s.infos, TooBig(turn), 0)
  }

  /** The attempt whose outcome the loop sees. */
  function LastAttempt(turn: Turn, sent: seq<Transcript>): Attempt {
    if sent == [] then turn.attempts(0) else turn.attempts(|sent| - 1)
  }

  function SetConvo(s: State, c: Transcript): State {
    s.(convo := c, snapshots := s.snapshots + [c])
  }

  function Fail(s: State, e: RunError): State {
    s.(outcome := None, err := Some(e))
  }

  function Done(s: State, o: Outcome): State {
    s.(outcome := Some(o), err := None)
  }

  function Noted(infos: Infos, rs: seq<Result>): Infos {
    if rs == [] then infos
    else
      var r := Last(rs);
      Noted(infos, Front(rs))[r.useId := ResultInfo(r.name, r.tags, |r.output|)]
  }

  /** A failed call keeps what the user saw of the answer. */
  function Interrupted(s: State, seen: string, e: RunError): State {
    var partial := TrimRight(seen);
    if partial == "" then Fail(s, e)
    else Fail(SetConvo(s, PushAssistant(s.convo, [Text(partial)])), e)
  }

  /** Nothing is pushed: the next iteration re-asks the same question. */
  function Retried(cfg: Config, s: State, reasoned: nat): (State, bool) {
    var s' := s.(emptyTurns := s.emptyTurns + 1);
    if (cfg.maxTokens > 0 && reasoned >= 2 * cfg.maxTokens) || s'.emptyTurns > MAX_EMPTY_TURNS
    then (Fail(s', EmptyTurn(s'.emptyTurns)), true)
    else (s', false)
  }

  function SubmittedBy(b: Block): Outcome {
    if b.ToolUse? then Submitted(b.name, b.input) else Submitted("", "")
  }

  /** Acting on the calls of a reply already pushed. */
  function ActOnCalls(cfg: Config, s: State, content: seq<Block>, turn: Turn): (State, bool) {
    var uses := ToolUses(content);
    DispatchAnswers(content, cfg.known, turn.outcomes);
    if uses == [] then (Fail(s, NoToolUse), true)
    else
      match FindUse(cfg.terminals, uses)
      case Some(use) => (Done(s, SubmittedBy(use)), true)
      case None =>
        match FindUse(cfg.pauses, uses)
        case Some(use) => (Done(s, Paused(UseId(use))), true)
        case None =>
          var results := Dispatched(uses, cfg.known, turn.outcomes);
          (SetConvo(s.(infos := Noted(s.infos, results)), PushToolResults(s.convo, ResultBlocks(results))), false)
  }

  function ActOnReply(cfg: Config, s: State, content: seq<Block>, stop: StopReason, turn: Turn): (State, bool) {
    var s' := SetConvo(s.(emptyTurns := 0), PushAssistant(s.convo, content));
    match stop
    case EndTurn => (Done(s', Answer(TextOf(content))), true)
    case StopSequence => (Done(s', Answer(TextOf(content))), true)
    case MaxTokensStop => (Fail(s', OutOfTokens), true)
    case RefusalStop => (Fail(s', Refused(TextOf(content))), true)
    case ToolUseStop => ActOnCalls(cfg, s', content, turn)
    case OtherStop(reason) => (Fail(s', UnexpectedStop(reason)), true)
  }

  /** What the loop does once a call of `n` attempts has ended in `reply`. */
  function AfterCall(cfg: Config, s: State, turn: Turn, n: nat, reply: Reply): (State, bool) {
    match reply
    case TooLarge => (Interrupted(s, Seen(turn, n), ContextWindow), true)
    case Fault(message) => (Interrupted(s, Seen(turn, n), Provider(message)), true)
    case Response(content, stop) =>
      if IsEmptyTurn(content, stop) then Retried(cfg, s, Reasoned(turn, n))
      else ActOnReply(cfg, s, content, stop, turn)
  }

  /** One iteration: the state after it, and whether the run is over. */
  function Iterate(cfg: Config, s: State, turn: Turn): (State, bool) {
    var call := Called(cfg, s, turn);
    var s' := s.(level := call.level, requests := s.requests + call.sent);
    AfterCall(cfg, s', turn, |call.sent|, LastAttempt(turn, call.sent).reply)
  }

  // ----- the whole run -----

  /** The run from iteration `iter` on. */
  function Loop(cfg: Config, env: nat -> Turn, s: State, iter: nat): State
    decreases cfg.maxIters + 1 - iter
  {
    var turn := env(iter);
    if turn.cancelled then Fail(s, Cancelled)
    else if iter > cfg.maxIters then Fail(s, MaxIterations)
    else if turn.tripped then Fail(s, Cancelled)
    else
      var (s', stop) := Iterate(cfg, s, turn);
      if stop then s' else Loop(cfg, env, s', iter + 1)
  }

  function Initial(input: Transcript): State {
    State(input, map[], 0, 0, None, None, [], [input])
  }

  /** A panic leaves a run with whatever transcript it had stored by then. */
  function Crash(r: State, i: nat, message: string): State
    requires i < |r.snapshots|
  {
    Fail(r.(convo := r.snapshots[i], snapshots := r.snapshots[..i + 1]), Crashed(message))
  }

  /** The final state of a run: the input is validated once, on entry. */
  ghost function RunOf(cfg: Config, env: nat -> Turn, input: Transcript): State {
    if Valid(input) then Loop(cfg, env, Initial(input), 1) else Fail(Initial(input), InvalidInput)
  }

  // ----- the iterations of a run -----

  /** One iteration that got as far as calling the provider: the state it
      started from and what it met. */
  datatype Visit = Visit(s: State, turn: Turn)

  function StateAfter(cfg: Config, first: State, visits: seq<Visit>): State {
    if visits == [] then first else Iterate(cfg, Last(visits).s, Last(visits).turn).0
  }

  predicate GoesOn(cfg: Config, visits: seq<Visit>) {
    visits != [] ==> !Iterate(cfg, Last(visits).s, Last(visits).turn).1
  }

  /** Each iteration starts where the one before it left off and did not stop. */
  ghost predicate Trace(cfg: Config, first: State, visits: seq<Visit>) {
    visits == [] ||
    (var before := Front(visits);
     Trace(cfg, first, before) && GoesOn(cfg, before) && Last(visits).s == StateAfter(cfg, first, before))
  }

  /** `before` and the iterations of a run from `iter` on. */
  function Visits(cfg: Config, env: nat -> Turn, s: State, iter: nat, before: seq<Visit>): seq<Visit>
    decreases cfg.maxIters + 1 - iter
  {
    var turn := env(iter);
    if turn.cancelled || iter > cfg.maxIters || turn.tripped then before
    else
      var (s', stop) := Iterate(cfg, s, turn);
      if stop then before + [Visit(s, turn)] else Visits(cfg, env, s', iter + 1, before + [Visit(s, turn)])
  }

  ghost function VisitsOf(cfg: Config, env: nat -> Turn, input: Transcript): seq<Visit> {
    if Valid(input) then Visits(cfg, env, Initial(input), 1, []) else []
  }

  /** A run ends in the state its last iteration left, or is cut short there. */
  predicate Settles(r: State, s: State) {
    r == s || r == Fail(s, Cancelled) || r == Fail(s, MaxIterations)
  }

  lemma TraceSnoc(cfg: Config, first: State, before: seq<Visit>, v: Visit)
    requires Trace(cfg, first, before) && GoesOn(cfg, before) && v.s == StateAfter(cfg, first, before)
    ensures Trace(cfg, first, before + [v])
    ensures StateAfter(cfg, first, before + [v]) == Iterate(cfg, v.s, v.turn).0
    ensures GoesOn(cfg, before + [v]) <==> !Iterate(cfg, v.s, v.turn).1
  {
    assert Front(before + [v]) == before;
  }

  /** The visits of a run are a trace, and the run settles where they lead. */
  lemma {:induction false} VisitsTrace(cfg: Config, env: nat -> Turn, first: State, before: seq<Visit>, iter: nat)
    requires Trace(cfg, first, before) && GoesOn(cfg, before)
    ensures var s := StateAfter(cfg, first, before);
            var visits := Visits(cfg, env, s, iter, before);
            && Trace(cfg, first, visits)
            && Settles(Loop(cfg, env, s, iter), StateAfter(cfg, first, visits))
    ensures var visits := Visits(cfg, env, StateAfter(cfg, first, before), iter, before);
            !GoesOn(cfg, visits) ==> Loop(cfg, env, StateAfter(cfg, first, before), iter) == StateAfter(cfg, first, visits)
    decreases cfg.maxIters + 1 - iter
  {
    var s, turn := StateAfter(cfg, first, before), env(iter);
    if !turn.cancelled && iter <= cfg.maxIters && !turn.tripped {
      TraceSnoc(cfg, first, before, Visit(s, turn));
      if !Iterate(cfg, s, turn).1 {
        VisitsTrace(cfg, env, first, before + [Visit(s, turn)], iter + 1);
      }
    }
  }
}
