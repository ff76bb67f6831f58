/** How runs end: which outcome or error each last reply comes to, stated on the
    blocks of the reply itself. */
module RunOutcome {
  import opened Llm
  import opened Convo
  import opened Strategy
  import opened Overflow
  import opened Dispatch
  import opened Resume
  import opened Run
  import opened RunLaws

  // ----- what a reply says -----

  /** The texts of some blocks, in order. */
  function Texts(bs: seq<Block>): seq<string> {
    if bs == [] then []
    else (if bs[0].Text? then [bs[0].text] else []) + Texts(bs[1..])
  }

  function DropEmpty(ts: seq<string>): seq<string> {
    if ts != [] && ts[0] == "" then DropEmpty(ts[1..]) else ts
  }

  function Joined(ts: seq<string>): string {
    if ts == [] then "" else if |ts| == 1 then ts[0] else ts[0] + "\n" + Joined(ts[1..])
  }

  /** The texts of a reply, a newline between each two; empty ones at its start
      leave no newline behind. */
  function Said(bs: seq<Block>): string {
    Joined(DropEmpty(Texts(bs)))
  }

  lemma {:induction false} TextsSnoc(bs: seq<Block>, b: Block)
    ensures Texts(bs + [b]) == if b.Text? then Texts(bs) + [b.text] else Texts(bs)
  {
    if bs == [] {
      assert bs + [b] == [b] && [b][1..] == [];
    } else {
      TextsSnoc(bs[1..], b);
      assert (bs + [b])[0] == bs[0] && (bs + [b])[1..] == bs[1..] + [b];
    }
  }

  lemma {:induction false} DropEmptySnoc(ts: seq<string>, t: string)
    ensures DropEmpty(ts + [t]) == if DropEmpty(ts) == [] then DropEmpty([t]) else DropEmpty(ts) + [t]
  {
    if ts != [] && ts[0] == "" {
      DropEmptySnoc(ts[1..], t);
      assert (ts + [t])[1..] == ts[1..] + [t];
    } else if ts == [] {
      assert ts + [t] == [t];
    }
  }

  lemma {:induction false} JoinedSnoc(ts: seq<string>, t: string)
    requires ts != []
    ensures Joined(ts + [t]) == Joined(ts) + "\n" + t
  {
    var all := ts + [t];
    assert all[0] == ts[0] && all[1..] == ts[1..] + [t];
    if |ts| == 1 {
      assert all[1..] == [t];
    } else {
      JoinedSnoc(ts[1..], t);
      assert Joined(all) == ts[0] + "\n" + Joined(all[1..]);
      assert ts[0] + "\n" + (Joined(ts[1..]) + "\n" + t) == ts[0] + "\n" + Joined(ts[1..]) + "\n" + t;
    }
  }

  lemma JoinedEmpty(ts: seq<string>)
    ensures Joined(DropEmpty(ts)) == "" <==> DropEmpty(ts) == []
  {
    var ds := DropEmpty(ts);
    DropEmptyStarts(ts);
    if |ds| > 1 {
      assert Joined(ds) == ds[0] + "\n" + Joined(ds[1..]);
    }
  }

  lemma {:induction false} DropEmptyStarts(ts: seq<string>)
    ensures DropEmpty(ts) != [] ==> DropEmpty(ts)[0] != ""
  {
    if ts != [] && ts[0] == "" {
      DropEmptyStarts(ts[1..]);
    }
  }

  /** The text of a reply is its texts, joined by newlines. */
  lemma {:induction false} TextOfJoins(bs: seq<Block>)
    ensures TextOf(bs) == Said(bs)
  {
    if bs != [] {
      var before, b := Front(bs), Last(bs);
      TextOfJoins(before);
      assert bs == before + [b];
      TextsSnoc(before, b);
      if b.Text? {
        var ts := Texts(before);
        DropEmptySnoc(ts, b.text);
        JoinedEmpty(ts);
        if DropEmpty(ts) == [] {
          assert [b.text][1..] == [];
        } else {
          JoinedSnoc(DropEmpty(ts), b.text);
        }
      }
    }
  }

  /** The code points Unicode calls white space. */
  const WHITE: set<int> :=
    {0x09, 0x0A, 0x0B, 0x0C, 0x0D, 0x20, 0x85, 0xA0, 0x1680,
     0x2000, 0x2001, 0x2002, 0x2003, 0x2004, 0x2005, 0x2006, 0x2007, 0x2008, 0x2009, 0x200A,
     0x2028, 0x2029, 0x202F, 0x205F, 0x3000}

  lemma SpaceTable(ch: char)
    ensures IsSpace(ch) <==> ch as int in WHITE
  {
  }

  predicate White(s: string) {
    forall k :: 0 <= k < |s| ==> s[k] as int in WHITE
  }

  /** There is nothing to see and nothing to do in a reply. */
  predicate SaysNothing(content: seq<Block>) {
    forall i :: 0 <= i < |content| ==> !content[i].ToolUse? && (content[i].Text? ==> White(content[i].text))
  }

  lemma BlankIsWhite(s: string)
    ensures Blank(s) <==> White(s)
  {
    forall k | 0 <= k < |s|
      ensures IsSpace(s[k]) <==> s[k] as int in WHITE
    {
      SpaceTable(s[k]);
    }
  }

  lemma BlankConcat(a: string, b: string)
    ensures Blank(a + "\n" + b) <==> Blank(a) && Blank(b)
  {
    var s := a + "\n" + b;
    assert forall i :: 0 <= i < |a| ==> s[i] == a[i];
    assert forall i :: 0 <= i < |b| ==> s[|a| + 1 + i] == b[i];
    if Blank(a) && Blank(b) {
      forall i | 0 <= i < |s|
        ensures IsSpace(s[i])
      {
        assert i > |a| ==> s[i] == b[i - |a| - 1];
      }
    }
  }

  lemma {:induction false} NothingSnoc(bs: seq<Block>)
    requires bs != []
    ensures SaysNothing(bs) <==>
            SaysNothing(Front(bs)) && !Last(bs).ToolUse? && (Last(bs).Text? ==> White(Last(bs).text))
  {
    assert forall i :: 0 <= i < |Front(bs)| ==> Front(bs)[i] == bs[i];
    assert Last(bs) == bs[|bs| - 1];
  }

  lemma {:induction false} NothingIsBlank(bs: seq<Block>)
    ensures SaysNothing(bs) <==> Blank(TextOf(bs)) && ToolUses(bs) == []
  {
    if bs != [] {
      NothingIsBlank(Front(bs));
      NothingSnoc(bs);
      if Last(bs).Text? {
        BlankIsWhite(Last(bs).text);
        BlankConcat(TextOf(Front(bs)), Last(bs).text);
      }
    }
  }

  /** A finished reply is an empty turn exactly when all its texts are white and
      it calls nothing. */
  lemma EmptyTurnExact(content: seq<Block>, stop: StopReason)
    ensures IsEmptyTurn(content, stop) <==> (stop.EndTurn? || stop.StopSequence?) && SaysNothing(content)
  {
    NothingIsBlank(content);
  }

  // ----- the calls of a reply -----

  /** Block `i` is the first call to one of `names`. */
  predicate FirstCall(content: seq<Block>, names: set<string>, i: nat) {
    && i < |content| && content[i].ToolUse? && content[i].name in names
    && forall j :: 0 <= j < i && content[j].ToolUse? ==> content[j].name !in names
  }

  predicate NoCallTo(content: seq<Block>, names: set<string>) {
    forall i :: 0 <= i < |content| && content[i].ToolUse? ==> content[i].name !in names
  }

  predicate NoCalls(content: seq<Block>) {
    forall i :: 0 <= i < |content| ==> !content[i].ToolUse?
  }

  lemma {:induction false} FindUseSnoc(names: set<string>, uses: seq<Block>, b: Block)
    ensures FindUse(names, uses + [b]) ==
            if FindUse(names, uses).Some? then FindUse(names, uses)
            else if b.ToolUse? && b.name in names then Some(b) else None
  {
    var all := uses + [b];
    if uses == [] {
      assert all == [b] && [b][1..] == [];
    } else {
      assert all[0] == uses[0] && all[1..] == uses[1..] + [b];
      FindUseSnoc(names, uses[1..], b);
    }
  }

  lemma FirstCallSnoc(content: seq<Block>, names: set<string>, i: nat)
    requires content != []
    ensures FirstCall(content, names, i) <==>
            if i < |content| - 1 then FirstCall(Front(content), names, i)
            else i == |content| - 1 && Last(content).ToolUse? && Last(content).name in names && NoCallTo(Front(content), names)
  {
    assert forall j :: 0 <= j < |Front(content)| ==> Front(content)[j] == content[j];
  }

  /** The loop finds the first call to one of `names`, if there is one. */
  lemma {:induction false} FindsFirst(content: seq<Block>, names: set<string>)
    ensures match FindUse(names, ToolUses(content))
            case Some(use) => use.ToolUse? && exists i: nat :: FirstCall(content, names, i) && content[i] == use
            case None => NoCallTo(content, names)
  {
    if content != [] {
      var front, b := Front(content), Last(content);
      FindsFirst(front, names);
      if b.ToolUse? {
        FindUseSnoc(names, ToolUses(front), b);
      }
      if FindUse(names, ToolUses(front)).Some? {
        var i: nat :| FirstCall(front, names, i) && front[i] == FindUse(names, ToolUses(front)).value;
        FirstCallSnoc(content, names, i);
        assert content[i] == front[i];
      } else {
        FirstCallSnoc(content, names, |content| - 1);
        assert forall j :: 0 <= j < |front| ==> front[j] == content[j];
      }
    }
  }

  lemma {:induction false} NoCallsExact(content: seq<Block>)
    ensures ToolUses(content) == [] <==> NoCalls(content)
  {
    if content != [] {
      NoCallsExact(Front(content));
      assert forall j :: 0 <= j < |Front(content)| ==> Front(content)[j] == content[j];
      assert content[|content| - 1] == Last(content);
    }
  }

  // ----- what a call brought -----

  /** How many requests one iteration sent. */
  function Sent(cfg: Config, v: Visit): nat {
    |Called(cfg, v.s, v.turn).sent|
  }

  /** The reply the iteration acts on: the one to its last request. */
  function ReplyTo(cfg: Config, v: Visit): Reply {
    v.turn.attempts(if Sent(cfg, v) > 0 then Sent(cfg, v) - 1 else 0).reply
  }

  function Streams(turn: Turn, n: nat): seq<string> {
    seq(n, i requires 0 <= i < n => turn.attempts(i).streamed)
  }

  function Reasonings(turn: Turn, n: nat): seq<int> {
    seq(n, i requires 0 <= i < n => turn.attempts(i).reasoned)
  }

  function Flat(ts: seq<string>): string {
    if ts == [] then "" else ts[0] + Flat(ts[1..])
  }

  function Total(ns: seq<int>): int {
    if ns == [] then 0 else ns[0] + Total(ns[1..])
  }

  lemma {:induction false} FlatSnoc(ts: seq<string>, t: string)
    ensures Flat(ts + [t]) == Flat(ts) + t
  {
    if ts == [] {
      assert ts + [t] == [t] && [t][1..] == [];
      assert Flat([t]) == t + "";
    } else {
      FlatSnoc(ts[1..], t);
      assert (ts + [t])[0] == ts[0] && (ts + [t])[1..] == ts[1..] + [t];
      assert ts[0] + (Flat(ts[1..]) + t) == ts[0] + Flat(ts[1..]) + t;
    }
  }

  lemma {:induction false} TotalSnoc(ns: seq<int>, n: int)
    ensures Total(ns + [n]) == Total(ns) + n
  {
    if ns == [] {
      assert ns + [n] == [n] && [n][1..] == [];
    } else {
      TotalSnoc(ns[1..], n);
      assert (ns + [n])[0] == ns[0] && (ns + [n])[1..] == ns[1..] + [n];
    }
  }

  /** What the attempts of an iteration streamed and reasoned, added up. */
  lemma {:induction false} SeenIsFlat(turn: Turn, n: nat)
    ensures Seen(turn, n) == Flat(Streams(turn, n)) && Reasoned(turn, n) == Total(Reasonings(turn, n))
  {
    if n > 0 {
      SeenIsFlat(turn, n - 1);
      assert Streams(turn, n) == Streams(turn, n - 1) + [turn.attempts(n - 1).streamed];
      assert Reasonings(turn, n) == Reasonings(turn, n - 1) + [turn.attempts(n - 1).reasoned];
      FlatSnoc(Streams(turn, n - 1), turn.attempts(n - 1).streamed);
      TotalSnoc(Reasonings(turn, n - 1), turn.attempts(n - 1).reasoned);
    }
  }

  /** Reasoning filled the reply cap: twice as many bytes as it has tokens. */
  predicate Spent(cfg: Config, v: Visit) {
    cfg.maxTokens > 0 && Total(Reasonings(v.turn, Sent(cfg, v))) >= 2 * cfg.maxTokens
  }

  /** Finished by its own account, with nothing to see and nothing to do. */
  predicate Silent(reply: Reply) {
    reply.Response? && (reply.stop.EndTurn? || reply.stop.StopSequence?) && SaysNothing(reply.content)
  }

  /** The last `n` iterations, and no more, got a silent reply. */
  ghost predicate Silence(cfg: Config, visits: seq<Visit>, n: nat) {
    && n <= |visits|
    && (forall i :: |visits| - n <= i < |visits| ==> Silent(ReplyTo(cfg, visits[i])))
    && (n < |visits| ==> !Silent(ReplyTo(cfg, visits[|visits| - n - 1])))
  }

  lemma ReplyActedOn(cfg: Config, v: Visit)
    ensures Sent(cfg, v) > 0
    ensures LastAttempt(v.turn, Called(cfg, v.s, v.turn).sent).reply == ReplyTo(cfg, v)
    ensures WentEmpty(cfg, v) <==> Silent(ReplyTo(cfg, v))
  {
    CallsBounded(cfg.ladder, v.s.level, Materialized(cfg, v.s, v.turn), v.s.infos, TooBig(v.turn), 0);
    var r := ReplyTo(cfg, v);
    if r.Response? {
      EmptyTurnExact(r.content, r.stop);
    }
  }

  lemma SilenceUnique(cfg: Config, visits: seq<Visit>, m: nat, n: nat)
    requires Silence(cfg, visits, m) && Silence(cfg, visits, n)
    ensures m >= n
  {
  }

  lemma SilenceSnoc(cfg: Config, before: seq<Visit>, v: Visit, n: nat)
    requires Silence(cfg, before, n)
    ensures Silence(cfg, before + [v], if Silent(ReplyTo(cfg, v)) then n + 1 else 0)
  {
  }

  lemma {:induction false} StreakIsSilence(cfg: Config, visits: seq<Visit>)
    ensures Silence(cfg, visits, Streak(cfg, visits))
    ensures forall n: nat :: Silence(cfg, visits, n) ==> n == Streak(cfg, visits)
  {
    if visits != [] {
      var before, v := Front(visits), Last(visits);
      StreakIsSilence(cfg, before);
      ReplyActedOn(cfg, v);
      assert visits == before + [v];
      SilenceSnoc(cfg, before, v, Streak(cfg, before));
    }
    forall n: nat | Silence(cfg, visits, n)
      ensures n == Streak(cfg, visits)
    {
      SilenceUnique(cfg, visits, n, Streak(cfg, visits));
      SilenceUnique(cfg, visits, Streak(cfg, visits), n);
    }
  }

  // ----- the exits of an iteration -----

  /** What an iteration that got `reply` as the `streak`-th silent one in a row
      settles: an outcome, an error, or neither, and then the run goes on. */
  ghost predicate Exit(cfg: Config, reply: Reply, streak: nat, spent: bool, o: Option<Outcome>, e: Option<RunError>) {
    match reply
    case TooLarge => o == None && e == Some(ContextWindow)
    case Fault(message) => o == None && e == Some(Provider(message))
    case Response(content, EndTurn) => ExitFinished(content, streak, spent, o, e)
    case Response(content, StopSequence) => ExitFinished(content, streak, spent, o, e)
    case Response(content, MaxTokensStop) => o == None && e == Some(OutOfTokens)
    case Response(content, RefusalStop) => o == None && e == Some(Refused(Said(content)))
    case Response(content, ToolUseStop) => ExitCalls(cfg, content, o, e)
    case Response(content, OtherStop(reason)) => o == None && e == Some(UnexpectedStop(reason))
  }

  ghost predicate ExitFinished(content: seq<Block>, streak: nat, spent: bool, o: Option<Outcome>, e: Option<RunError>) {
    if !SaysNothing(content) then o == Some(Answer(Said(content))) && e == None
    else o == None && e == if spent || streak >= 3 then Some(EmptyTurn(streak)) else None
  }

  ghost predicate ExitCalls(cfg: Config, content: seq<Block>, o: Option<Outcome>, e: Option<RunError>) {
    if NoCalls(content) then o == None && e == Some(NoToolUse)
    else if !NoCallTo(content, cfg.terminals) then
      e == None &&
      exists i: nat :: FirstCall(content, cfg.terminals, i) && o == Some(Submitted(content[i].name, content[i].input))
    else if !NoCallTo(content, cfg.pauses) then
      e == None && exists i: nat :: FirstCall(content, cfg.pauses, i) && o == Some(Paused(content[i].id))
    else o == None && e == None
  }

  lemma ActOnCallsExit(cfg: Config, s: State, content: seq<Block>, turn: Turn)
    requires s.outcome == None && s.err == None
    ensures var (s', stop) := ActOnCalls(cfg, s, content, turn);
            && ExitCalls(cfg, content, s'.outcome, s'.err)
            && (stop <==> s'.outcome.Some? || s'.err.Some?)
  {
    var uses := ToolUses(content);
    DispatchAnswers(content, cfg.known, turn.outcomes);
    NoCallsExact(content);
    FindsFirst(content, cfg.terminals);
    FindsFirst(content, cfg.pauses);
    if uses != [] {
      if FindUse(cfg.terminals, uses).Some? {
        var i: nat :| FirstCall(content, cfg.terminals, i) && content[i] == FindUse(cfg.terminals, uses).value;
        assert !NoCallTo(content, cfg.terminals);
      } else if FindUse(cfg.pauses, uses).Some? {
        var i: nat :| FirstCall(content, cfg.pauses, i) && content[i] == FindUse(cfg.pauses, uses).value;
        assert !NoCallTo(content, cfg.pauses);
      }
    }
  }

  lemma ActOnReplyExit(cfg: Config, s: State, content: seq<Block>, stop: StopReason, turn: Turn, streak: nat, spent: bool)
    requires s.outcome == None && s.err == None && !Silent(Response(content, stop))
    ensures var (s', over) := ActOnReply(cfg, s, content, stop, turn);
            && Exit(cfg, Response(content, stop), streak, spent, s'.outcome, s'.err)
            && (over <==> s'.outcome.Some? || s'.err.Some?)
  {
    TextOfJoins(content);
    var s1 := SetConvo(s.(emptyTurns := 0), PushAssistant(s.convo, content));
    if stop.ToolUseStop? {
      ActOnCallsExit(cfg, s1, content, turn);
    }
  }

  lemma IterateExit(cfg: Config, v: Visit)
    requires v.s.outcome == None && v.s.err == None
    ensures var (s', over) := Iterate(cfg, v.s, v.turn);
            && Exit(cfg, ReplyTo(cfg, v), v.s.emptyTurns + 1, Spent(cfg, v), s'.outcome, s'.err)
            && (over <==> s'.outcome.Some? || s'.err.Some?)
  {
    var call := Called(cfg, v.s, v.turn);
    var s := v.s.(level := call.level, requests := v.s.requests + call.sent);
    ReplyActedOn(cfg, v);
    SeenIsFlat(v.turn, |call.sent|);
    match ReplyTo(cfg, v) {
      case TooLarge =>
      case Fault(message) =>
      case Response(content, stop) =>
        EmptyTurnExact(content, stop);
        if !Silent(Response(content, stop)) {
          ActOnReplyExit(cfg, s, content, stop, v.turn, v.s.emptyTurns + 1, Spent(cfg, v));
        }
    }
  }

  // ----- the exits of a run -----

  lemma {:induction false} TraceUnset(cfg: Config, first: State, visits: seq<Visit>)
    requires Trace(cfg, first, visits) && GoesOn(cfg, visits) && first.outcome == None && first.err == None
    ensures StateAfter(cfg, first, visits).outcome == None && StateAfter(cfg, first, visits).err == None
  {
    if visits != [] {
      TraceUnset(cfg, first, Front(visits));
      IterateExit(cfg, Last(visits));
    }
  }

  /** Iteration `i + 1` met the turn of that number, and none of them was told to
      stop beforehand. */
  ghost predicate Met(cfg: Config, env: nat -> Turn, visits: seq<Visit>) {
    forall i :: 0 <= i < |visits| ==> MetAt(cfg, env, visits[i], i + 1)
  }

  ghost predicate MetAt(cfg: Config, env: nat -> Turn, v: Visit, k: nat) {
    v.turn == env(k) && k <= cfg.maxIters && !v.turn.cancelled && !v.turn.tripped
  }

  /** Iteration `k` does not take place, and this is the error that says so. */
  ghost predicate CutShort(cfg: Config, turn: Turn, k: nat, e: Option<RunError>) {
    && (turn.cancelled || turn.tripped || k > cfg.maxIters)
    && e == Some(if !turn.cancelled && k > cfg.maxIters then MaxIterations else Cancelled)
  }

  ghost predicate IsCut(cfg: Config, turn: Turn, k: nat, r: State) {
    r.outcome == None && CutShort(cfg, turn, k, r.err)
  }

  lemma MetSnoc(cfg: Config, env: nat -> Turn, before: seq<Visit>, v: Visit)
    requires Met(cfg, env, before) && MetAt(cfg, env, v, |before| + 1)
    ensures Met(cfg, env, before + [v])
  {
    var now := before + [v];
    forall i | 0 <= i < |now|
      ensures MetAt(cfg, env, now[i], i + 1)
    {
      assert i < |before| ==> now[i] == before[i];
    }
  }

  lemma {:induction false} VisitsMet(cfg: Config, env: nat -> Turn, s: State, before: seq<Visit>)
    requires Met(cfg, env, before)
    ensures Met(cfg, env, Visits(cfg, env, s, |before| + 1, before))
    decreases cfg.maxIters - |before|
  {
    var iter := |before| + 1;
    var turn := env(iter);
    if !turn.cancelled && iter <= cfg.maxIters && !turn.tripped {
      var now := before + [Visit(s, turn)];
      MetSnoc(cfg, env, before, Visit(s, turn));
      var (s', stop) := Iterate(cfg, s, turn);
      if !stop {
        VisitsMet(cfg, env, s', now);
      }
    }
  }

  lemma GoesOnSnoc(cfg: Config, before: seq<Visit>, v: Visit)
    ensures GoesOn(cfg, before + [v]) <==> !Iterate(cfg, v.s, v.turn).1
  {
    assert Last(before + [v]) == v;
  }

  /** A run whose last iteration goes on was cut short before the next one. */
  lemma {:induction false} LoopCut(cfg: Config, env: nat -> Turn, s: State, iter: nat, before: seq<Visit>, visits: seq<Visit>)
    requires iter == |before| + 1 && visits == Visits(cfg, env, s, iter, before)
    requires GoesOn(cfg, before)
    ensures GoesOn(cfg, visits) ==> IsCut(cfg, env(|visits| + 1), |visits| + 1, Loop(cfg, env, s, iter))
    decreases cfg.maxIters + 1 - iter
  {
    var turn := env(iter);
    if !turn.cancelled && iter <= cfg.maxIters && !turn.tripped {
      var v := Visit(s, turn);
      GoesOnSnoc(cfg, before, v);
      if !Iterate(cfg, s, turn).1 {
        LoopCut(cfg, env, Iterate(cfg, s, turn).0, iter + 1, before + [v], visits);
      }
    }
  }

  /** How a run ends whose last iteration settles `o'` and `e'`: with them, or, if
      that is neither, because the next iteration does not take place. */
  ghost predicate RunExits(cfg: Config, env: nat -> Turn, visits: seq<Visit>, streak: nat,
                           o': Option<Outcome>, e': Option<RunError>, o: Option<Outcome>, e: Option<RunError>) {
    && Silence(cfg, visits, streak)
    && (if visits == [] then o' == None && e' == None
        else Exit(cfg, ReplyTo(cfg, Last(visits)), streak, Spent(cfg, Last(visits)), o', e'))
    && (if o' == None && e' == None then o == None && CutShort(cfg, env(|visits| + 1), |visits| + 1, e)
        else o == o' && e == e')
  }

  lemma LastExit(cfg: Config, first: State, visits: seq<Visit>, streak: nat)
    requires Trace(cfg, first, visits) && visits != [] && Silence(cfg, visits, streak)
    requires first.outcome == None && first.err == None && first.emptyTurns == 0
    ensures var s := StateAfter(cfg, first, visits);
            && Exit(cfg, ReplyTo(cfg, Last(visits)), streak, Spent(cfg, Last(visits)), s.outcome, s.err)
            && (GoesOn(cfg, visits) <==> s.outcome == None && s.err == None)
  {
    var before, v := Front(visits), Last(visits);
    TraceUnset(cfg, first, before);
    StreakTrace(cfg, first, before);
    StreakIsSilence(cfg, visits);
    ReplyActedOn(cfg, v);
    IterateExit(cfg, v);
  }

  lemma SettledExit(cfg: Config, env: nat -> Turn, first: State, visits: seq<Visit>, s: State, r: State)
    requires Trace(cfg, first, visits) && s == StateAfter(cfg, first, visits)
    requires first.outcome == None && first.err == None && first.emptyTurns == 0
    requires if GoesOn(cfg, visits) then IsCut(cfg, env(|visits| + 1), |visits| + 1, r) else r == s
    ensures RunExits(cfg, env, visits, Streak(cfg, visits), s.outcome, s.err, r.outcome, r.err)
  {
    StreakIsSilence(cfg, visits);
    if visits != [] {
      LastExit(cfg, first, visits, Streak(cfg, visits));
    }
  }

  lemma RunExit(cfg: Config, env: nat -> Turn, input: Transcript) returns (streak: nat, o: Option<Outcome>, e: Option<RunError>)
    requires Valid(input)
    ensures var r, visits := RunOf(cfg, env, input), VisitsOf(cfg, env, input);
            RunExits(cfg, env, visits, streak, o, e, r.outcome, r.err)
  {
    var first, visits := Initial(input), VisitsOf(cfg, env, input);
    VisitsTrace(cfg, env, first, [], 1);
    LoopCut(cfg, env, first, 1, [], visits);
    var s := StateAfter(cfg, first, visits);
    SettledExit(cfg, env, first, visits, s, RunOf(cfg, env, input));
    streak, o, e := Streak(cfg, visits), s.outcome, s.err;
  }

  // ----- what each ending means -----

  /** The reply the last iteration of a run acted on, if it got that far. */
  ghost function LastReply(cfg: Config, env: nat -> Turn, input: Transcript): Option<Reply> {
    var visits := VisitsOf(cfg, env, input);
    if visits == [] then None else Some(ReplyTo(cfg, Last(visits)))
  }

  /** The last reply of a run stopped for this reason. */
  ghost predicate StoppedBy(cfg: Config, env: nat -> Turn, input: Transcript, stop: StopReason) {
    match LastReply(cfg, env, input)
    case Some(Response(_, reason)) => reason == stop
    case _ => false
  }

  /** What the last reply of a run says. */
  ghost function LastText(cfg: Config, env: nat -> Turn, input: Transcript): string {
    match LastReply(cfg, env, input)
    case Some(Response(content, _)) => Said(content)
    case _ => ""
  }

  /** The calls of this reply are dispatched. */
  ghost predicate Dispatches(cfg: Config, reply: Reply) {
    && reply.Response? && reply.stop.ToolUseStop? && !NoCalls(reply.content)
    && NoCallTo(reply.content, cfg.terminals) && NoCallTo(reply.content, cfg.pauses)
  }

  /** Nothing came of the last of these iterations: its calls were dispatched, or
      it asks again after a silent reply. */
  ghost predicate LeftOpen(cfg: Config, visits: seq<Visit>) {
    visits == [] ||
    var v := Last(visits);
    || Dispatches(cfg, ReplyTo(cfg, v))
    || (&& Silent(ReplyTo(cfg, v)) && !Spent(cfg, v)
        && (|visits| < 3 || exists i :: |visits| - 3 <= i < |visits| && !Silent(ReplyTo(cfg, visits[i]))))
  }

  lemma LeftOpenExact(cfg: Config, visits: seq<Visit>, streak: nat, o: Option<Outcome>, e: Option<RunError>)
    requires visits != [] && Silence(cfg, visits, streak)
    requires Exit(cfg, ReplyTo(cfg, Last(visits)), streak, Spent(cfg, Last(visits)), o, e)
    ensures LeftOpen(cfg, visits) <==> o == None && e == None
  {
    var reply := ReplyTo(cfg, Last(visits));
    assert Silent(reply) && streak < 3 && |visits| >= 3 ==> !Silent(ReplyTo(cfg, visits[|visits| - streak - 1]));
  }

  /** A run answers exactly when its last reply is finished and is not silent;
      the answer is what that reply says. */
  lemma RunAnswers(cfg: Config, env: nat -> Turn, input: Transcript, text: string)
    requires Valid(input)
    ensures RunOf(cfg, env, input).outcome == Some(Answer(text)) <==>
            match LastReply(cfg, env, input)
            case Some(Response(content, stop)) =>
              (stop.EndTurn? || stop.StopSequence?) && !SaysNothing(content) && text == Said(content)
            case _ => false
  {
    var streak, o, e := RunExit(cfg, env, input);
  }

  /** A run submits exactly when its last reply calls a terminal tool: it hands
      over the first such call, by its own name and with its own input. */
  lemma RunSubmits(cfg: Config, env: nat -> Turn, input: Transcript, tool: string, payload: string)
    requires Valid(input)
    ensures RunOf(cfg, env, input).outcome == Some(Submitted(tool, payload)) <==>
            match LastReply(cfg, env, input)
            case Some(Response(content, ToolUseStop)) =>
              exists i: nat :: FirstCall(content, cfg.terminals, i) && content[i].name == tool && content[i].input == payload
            case _ => false
  {
    var streak, o, e := RunExit(cfg, env, input);
  }

  /** A run pauses exactly when its last reply calls no terminal tool and does
      call a pausing one, and it pauses on the first such call. */
  lemma RunPauses(cfg: Config, env: nat -> Turn, input: Transcript, id: Id)
    requires Valid(input)
    ensures RunOf(cfg, env, input).outcome == Some(Paused(id)) <==>
            match LastReply(cfg, env, input)
            case Some(Response(content, ToolUseStop)) =>
              NoCallTo(content, cfg.terminals) && exists i: nat :: FirstCall(content, cfg.pauses, i) && content[i].id == id
            case _ => false
  {
    var streak, o, e := RunExit(cfg, env, input);
  }

  /** A failed call is the error exactly when it was the last. */
  lemma RunFails(cfg: Config, env: nat -> Turn, input: Transcript, text: string)
    requires Valid(input)
    ensures var err, last := RunOf(cfg, env, input).err, LastReply(cfg, env, input);
            && (err == Some(ContextWindow) <==> last == Some(TooLarge))
            && (err == Some(Provider(text)) <==> last == Some(Run.Fault(text)))
  {
    var streak, o, e := RunExit(cfg, env, input);
  }

  /** A reply cut off or refused is the error exactly when it was the last; a
      refusal is quoted. */
  lemma RunRefused(cfg: Config, env: nat -> Turn, input: Transcript)
    requires Valid(input)
    ensures var err := RunOf(cfg, env, input).err;
            && (err == Some(OutOfTokens) <==> StoppedBy(cfg, env, input, MaxTokensStop))
            && (err == Some(Refused(LastText(cfg, env, input))) <==> StoppedBy(cfg, env, input, RefusalStop))
            && (err.Some? && err.value.Refused? ==> err.value.reason == LastText(cfg, env, input))
  {
    var streak, o, e := RunExit(cfg, env, input);
  }

  /** So is one that stopped for no known reason, or to call tools without a call. */
  lemma RunUnexpected(cfg: Config, env: nat -> Turn, input: Transcript, reason: string)
    requires Valid(input)
    ensures var err := RunOf(cfg, env, input).err;
            && (err == Some(UnexpectedStop(reason)) <==> StoppedBy(cfg, env, input, OtherStop(reason)))
            && (err == Some(NoToolUse) <==>
                  StoppedBy(cfg, env, input, ToolUseStop) && NoCalls(LastReply(cfg, env, input).value.content))
  {
    var streak, o, e := RunExit(cfg, env, input);
  }

  lemma ExitsGiveUp(cfg: Config, env: nat -> Turn, visits: seq<Visit>, streak: nat,
                    o': Option<Outcome>, e': Option<RunError>, o: Option<Outcome>, e: Option<RunError>, n: nat)
    requires RunExits(cfg, env, visits, streak, o', e', o, e)
    ensures e == Some(EmptyTurn(n)) <==> n > 0 && Silence(cfg, visits, n) && (n >= 3 || Spent(cfg, Last(visits)))
  {
    if n > 0 && Silence(cfg, visits, n) {
      assert Silent(ReplyTo(cfg, visits[|visits| - 1]));
      SilenceUnique(cfg, visits, n, streak);
      SilenceUnique(cfg, visits, streak, n);
    }
    assert visits != [] && streak == 0 ==> !Silent(ReplyTo(cfg, visits[|visits| - 1]));
  }

  /** A run gives up on silence exactly after three silent replies in a row, or
      fewer if reasoning filled the reply cap; the error counts them. */
  lemma RunGivesUp(cfg: Config, env: nat -> Turn, input: Transcript, n: nat)
    requires Valid(input)
    ensures RunOf(cfg, env, input).err == Some(EmptyTurn(n)) <==>
            var visits := VisitsOf(cfg, env, input);
            n > 0 && Silence(cfg, visits, n) && (n >= 3 || Spent(cfg, Last(visits)))
  {
    var visits := VisitsOf(cfg, env, input);
    var streak, o, e := RunExit(cfg, env, input);
    var r := RunOf(cfg, env, input);
    ExitsGiveUp(cfg, env, visits, streak, o, e, r.outcome, r.err, n);
  }

  /** A run is cut short exactly when its last iteration left it open: because it
      was cancelled, or told to stop, or out of iterations. */
  lemma RunCutShort(cfg: Config, env: nat -> Turn, input: Transcript)
    requires Valid(input)
    ensures var err, visits := RunOf(cfg, env, input).err, VisitsOf(cfg, env, input);
            var k, next := |visits| + 1, env(|visits| + 1);
            && (err == Some(Cancelled) <==>
                  LeftOpen(cfg, visits) && (next.cancelled || (next.tripped && k <= cfg.maxIters)))
            && (err == Some(MaxIterations) <==> LeftOpen(cfg, visits) && !next.cancelled && k > cfg.maxIters)
  {
    var visits := VisitsOf(cfg, env, input);
    var streak, o, e := RunExit(cfg, env, input);
    if visits != [] {
      LeftOpenExact(cfg, visits, streak, o, e);
    }
  }

  /** A run ends with an outcome or with an error, never both; invalid input is
      the error exactly of invalid input. */
  lemma RunEnds(cfg: Config, env: nat -> Turn, input: Transcript)
    ensures RunOf(cfg, env, input).outcome.Some? <==> RunOf(cfg, env, input).err.None?
    ensures RunOf(cfg, env, input).err == Some(InvalidInput) <==> !Valid(input)
  {
    if Valid(input) {
      var streak, o, e := RunExit(cfg, env, input);
    }
  }

  lemma OpenTrace(cfg: Config, first: State, before: seq<Visit>)
    requires Trace(cfg, first, before) && GoesOn(cfg, before)
    requires first.outcome == None && first.err == None && first.emptyTurns == 0
    ensures LeftOpen(cfg, before)
  {
    if before != [] {
      var streak, s := Streak(cfg, before), StateAfter(cfg, first, before);
      StreakIsSilence(cfg, before);
      LastExit(cfg, first, before, streak);
      LeftOpenExact(cfg, before, streak, s.outcome, s.err);
    }
  }

  /** The iterations of a run are numbered as its environment numbers them, and
      none of them was told to stop beforehand. */
  lemma RunMeets(cfg: Config, env: nat -> Turn, input: Transcript)
    requires Valid(input)
    ensures Met(cfg, env, VisitsOf(cfg, env, input))
  {
    VisitsMet(cfg, env, Initial(input), []);
  }

  /** A run goes on only from where its iterations left it open. */
  lemma RunGoesOn(cfg: Config, env: nat -> Turn, input: Transcript, visits: seq<Visit>, i: nat)
    requires Valid(input) && visits == VisitsOf(cfg, env, input) && i < |visits|
    ensures LeftOpen(cfg, visits[..i])
  {
    VisitsTrace(cfg, env, Initial(input), [], 1);
    TracePrefix(cfg, Initial(input), visits, i);
    OpenTrace(cfg, Initial(input), visits[..i]);
  }

  // ----- what an iteration sends -----

  /** The request is what the strategy leaves of the conversation, and the notice,
      if there is one, as one more text behind a user turn. */
  lemma RequestExact(cfg: Config, s: State, turn: Turn)
    ensures var msgs, sent := Apply(cfg.strategy, s.convo, s.infos), Materialized(cfg, s, turn);
            && |sent| == |msgs|
            && (forall i :: 0 <= i < |msgs| ==> sent[i].role == msgs[i].role)
            && Blocks(sent) == Blocks(msgs) +
                 if turn.notice != "" && msgs != [] && Last(msgs).role == User then [Text(turn.notice)] else []
  {
    var msgs, note := Apply(cfg.strategy, s.convo, s.infos), [Text(turn.notice)];
    var sent := Materialized(cfg, s, turn);
    if turn.notice != "" && msgs != [] && Last(msgs).role == User {
      var m := Message(User, Last(msgs).content + note);
      assert sent == Front(msgs) + [m];
      SnocBlocks(Front(msgs), m);
      assert Blocks(Front(msgs)) + (Last(msgs).content + note) == Blocks(msgs) + note;
    } else {
      assert Blocks(msgs) + [] == Blocks(msgs);
    }
  }

  /** An iteration sends that request, at the level the run has reached, and again
      at a higher level after each attempt the provider finds too large. */
  lemma AttemptsClimb(cfg: Config, v: Visit) returns (levels: seq<nat>)
    ensures var sent := Called(cfg, v.s, v.turn).sent;
            && Climb(cfg.ladder, Materialized(cfg, v.s, v.turn), v.s.infos, TooBig(v.turn), 0, sent, levels)
            && levels[0] == v.s.level && Last(levels) == Iterate(cfg, v.s, v.turn).0.level
            && (forall k :: 0 <= k < |sent| - 1 ==> v.turn.attempts(k).reply == TooLarge)
  {
    var sent := Called(cfg, v.s, v.turn).sent;
    levels := CompleteClimbs(cfg.ladder, v.s.level, Materialized(cfg, v.s, v.turn), v.s.infos, TooBig(v.turn), 0);
    IterateSends(cfg, v.s, v.turn);
    forall k | 0 <= k < |sent| - 1
      ensures v.turn.attempts(k).reply == TooLarge
    {
      assert TooBig(v.turn)(k);
    }
  }

  // ----- what an iteration keeps -----

  /** `p` is `s` without the spaces, tabs and line ends behind it. */
  ghost predicate Trimmed(s: string, p: string) {
    && p <= s
    && (forall k :: |p| <= k < |s| ==> s[k] in " \t\r\n")
    && (p != "" ==> p[|p| - 1] !in " \t\r\n")
  }

  lemma {:induction false} TrimRightExact(s: string)
    ensures Trimmed(s, TrimRight(s))
  {
    if s != "" && TrailingSpace(Last(s)) {
      TrimRightExact(Front(s));
      var p := TrimRight(s);
      forall k | |p| <= k < |s|
        ensures s[k] in " \t\r\n"
      {
        assert k < |s| - 1 ==> Front(s)[k] == s[k];
      }
    }
  }

  /** The calls of a reply, in order. */
  function CallsIn(bs: seq<Block>): seq<Block> {
    if bs == [] then [] else (if bs[0].ToolUse? then [bs[0]] else []) + CallsIn(bs[1..])
  }

  lemma {:induction false} CallsInSnoc(bs: seq<Block>, b: Block)
    ensures CallsIn(bs + [b]) == if b.ToolUse? then CallsIn(bs) + [b] else CallsIn(bs)
  {
    if bs == [] {
      assert bs + [b] == [b] && [b][1..] == [];
    } else {
      CallsInSnoc(bs[1..], b);
      assert (bs + [b])[0] == bs[0] && (bs + [b])[1..] == bs[1..] + [b];
    }
  }

  lemma {:induction false} ToolUsesAreCalls(bs: seq<Block>)
    ensures ToolUses(bs) == CallsIn(bs) && AllUses(CallsIn(bs))
  {
    ToolUsesIds(bs);
    if bs != [] {
      ToolUsesAreCalls(Front(bs));
      assert bs == Front(bs) + [Last(bs)];
      CallsInSnoc(Front(bs), Last(bs));
    }
  }

  /** Result `i` is the last one under its id. */
  ghost predicate LastFor(rs: seq<Result>, i: nat) {
    i < |rs| && forall j :: i < j < |rs| ==> rs[j].useId != rs[i].useId
  }

  ghost predicate Mentions(rs: seq<Result>, id: Id) {
    exists i :: 0 <= i < |rs| && rs[i].useId == id
  }

  /** The last result under each id is remembered, and nothing else changes. */
  ghost predicate Remembers(infos: Infos, rs: seq<Result>, infos': Infos) {
    && (forall i: nat :: LastFor(rs, i) ==>
          rs[i].useId in infos' && infos'[rs[i].useId] == ResultInfo(rs[i].name, rs[i].tags, |rs[i].output|))
    && (forall id :: !Mentions(rs, id) ==>
          (id in infos' <==> id in infos) && (id in infos ==> infos'[id] == infos[id]))
  }

  lemma NotedOnce(infos: Infos, rs: seq<Result>, r: Result)
    ensures Noted(infos, rs + [r]) == Noted(infos, rs)[r.useId := ResultInfo(r.name, r.tags, |r.output|)]
  {
    assert Front(rs + [r]) == rs && Last(rs + [r]) == r;
  }

  lemma LastForFront(rs: seq<Result>, r: Result, i: nat)
    requires LastFor(rs + [r], i)
    ensures i < |rs| ==> LastFor(rs, i) && rs[i].useId != r.useId
  {
    var all := rs + [r];
    if i < |rs| {
      assert all[|rs|].useId != all[i].useId;
      forall j | i < j < |rs|
        ensures rs[j].useId != rs[i].useId
      {
        assert all[j] == rs[j];
      }
    }
  }

  lemma MentionsFront(rs: seq<Result>, r: Result, id: Id)
    requires !Mentions(rs + [r], id)
    ensures !Mentions(rs, id) && r.useId != id
  {
    var all := rs + [r];
    assert all[|rs|] == r;
    assert forall i :: 0 <= i < |rs| ==> all[i] == rs[i];
  }

  lemma {:induction false} NotedRemembers(infos: Infos, rs: seq<Result>)
    ensures Remembers(infos, rs, Noted(infos, rs))
  {
    if rs != [] {
      var front, r := Front(rs), Last(rs);
      assert rs == front + [r];
      NotedRemembers(infos, front);
      NotedOnce(infos, front, r);
      forall i: nat | LastFor(rs, i)
        ensures rs[i].useId in Noted(infos, rs)
        ensures Noted(infos, rs)[rs[i].useId] == ResultInfo(rs[i].name, rs[i].tags, |rs[i].output|)
      {
        LastForFront(front, r, i);
      }
      forall id | !Mentions(rs, id)
        ensures (id in Noted(infos, rs) <==> id in infos) && (id in infos ==> Noted(infos, rs)[id] == infos[id])
      {
        MentionsFront(front, r, id);
      }
    }
  }

  /** What an iteration adds to the conversation: the reply and, for the calls it
      dispatches, their results; of a failed call what was streamed. */
  ghost predicate Adds(cfg: Config, v: Visit, partial: string, results: seq<Result>, bs: seq<Block>) {
    var reply := ReplyTo(cfg, v);
    if !reply.Response? then
      Trimmed(Flat(Streams(v.turn, Sent(cfg, v))), partial) && bs == if partial == "" then [] else [Text(partial)]
    else if Silent(reply) then bs == []
    else if !Dispatches(cfg, reply) then bs == reply.content
    else
      var calls, n := CallsIn(reply.content), |reply.content|;
      && n <= |bs| && bs[..n] == reply.content && AllUses(calls)
      && BatchReports(calls, cfg.known, v.turn.outcomes, results, bs[n..])
  }

  /** `bs` was added behind the blocks of `c`. */
  ghost predicate Grown(c: Transcript, bs: seq<Block>, c': Transcript) {
    Blocks(c') == Blocks(c) + bs
  }

  lemma GrownByNothing(c: Transcript)
    ensures Grown(c, [], c)
  {
  }

  lemma PushGrows(c: Transcript, m: Message)
    ensures Grown(c, m.content, Append(c, m))
  {
    AppendBlocks(c, m);
  }

  lemma GrownTwice(c: Transcript, a: seq<Block>, d: Transcript, b: seq<Block>, e: Transcript)
    requires Grown(c, a, d) && Grown(d, b, e)
    ensures Grown(c, a + b, e)
  {
    assert Blocks(c) + a + b == Blocks(c) + (a + b);
  }

  lemma ActOnCallsKeeps(cfg: Config, s: State, content: seq<Block>, turn: Turn)
    requires !Dispatches(cfg, Response(content, ToolUseStop))
    ensures ActOnCalls(cfg, s, content, turn).0.convo == s.convo && ActOnCalls(cfg, s, content, turn).0.infos == s.infos
  {
    NoCallsExact(content);
    FindsFirst(content, cfg.terminals);
    FindsFirst(content, cfg.pauses);
    DispatchAnswers(content, cfg.known, turn.outcomes);
  }

  lemma ReplyAdds(cfg: Config, s: State, content: seq<Block>, stop: StopReason, turn: Turn)
    requires !Dispatches(cfg, Response(content, stop))
    ensures var s' := ActOnReply(cfg, s, content, stop, turn).0;
            Grown(s.convo, content, s'.convo) && s'.infos == s.infos
  {
    PushGrows(s.convo, Message(Assistant, content));
    if stop.ToolUseStop? {
      ActOnCallsKeeps(cfg, SetConvo(s.(emptyTurns := 0), PushAssistant(s.convo, content)), content, turn);
    }
  }

  lemma ActOnCallsDispatches(cfg: Config, s: State, content: seq<Block>, turn: Turn) returns (results: seq<Result>)
    requires Dispatches(cfg, Response(content, ToolUseStop))
    ensures var s', calls := ActOnCalls(cfg, s, content, turn).0, CallsIn(content);
            && Grown(s.convo, ResultBlocks(results), s'.convo) && s'.infos == Noted(s.infos, results)
            && AllUses(calls) && BatchReports(calls, cfg.known, turn.outcomes, results, ResultBlocks(results))
  {
    ToolUsesAreCalls(content);
    NoCallsExact(content);
    FindsFirst(content, cfg.terminals);
    FindsFirst(content, cfg.pauses);
    DispatchAnswers(content, cfg.known, turn.outcomes);
    results := Dispatched(ToolUses(content), cfg.known, turn.outcomes);
    DispatchReports(ToolUses(content), cfg.known, turn.outcomes);
    PushGrows(s.convo, Message(User, ResultBlocks(results)));
  }

  lemma ReplyDispatches(cfg: Config, s: State, content: seq<Block>, turn: Turn) returns (results: seq<Result>)
    requires Dispatches(cfg, Response(content, ToolUseStop))
    ensures var s', calls := ActOnReply(cfg, s, content, ToolUseStop, turn).0, CallsIn(content);
            && Grown(s.convo, content + ResultBlocks(results), s'.convo) && s'.infos == Noted(s.infos, results)
            && AllUses(calls) && BatchReports(calls, cfg.known, turn.outcomes, results, ResultBlocks(results))
  {
    var c := PushAssistant(s.convo, content);
    PushGrows(s.convo, Message(Assistant, content));
    results := ActOnCallsDispatches(cfg, SetConvo(s.(emptyTurns := 0), c), content, turn);
    GrownTwice(s.convo, content, c, ResultBlocks(results), ActOnReply(cfg, s, content, ToolUseStop, turn).0.convo);
  }

  lemma InterruptedAdds(s: State, seen: string, e: RunError) returns (bs: seq<Block>)
    ensures bs == if TrimRight(seen) == "" then [] else [Text(TrimRight(seen))]
    ensures Grown(s.convo, bs, Interrupted(s, seen, e).convo) && Interrupted(s, seen, e).infos == s.infos
  {
    var partial := TrimRight(seen);
    if partial == "" {
      bs := [];
      GrownByNothing(s.convo);
    } else {
      bs := [Text(partial)];
      PushGrows(s.convo, Message(Assistant, bs));
    }
  }

  /** Exactly what an iteration adds to the conversation, and what it remembers of
      its results. */
  lemma IterateAdds(cfg: Config, v: Visit) returns (partial: string, results: seq<Result>, bs: seq<Block>)
    ensures Blocks(Iterate(cfg, v.s, v.turn).0.convo) == Blocks(v.s.convo) + bs
    ensures Adds(cfg, v, partial, results, bs)
    ensures Remembers(v.s.infos, if Dispatches(cfg, ReplyTo(cfg, v)) then results else [], Iterate(cfg, v.s, v.turn).0.infos)
  {
    var call := Called(cfg, v.s, v.turn);
    var s := v.s.(level := call.level, requests := v.s.requests + call.sent);
    var seen := Seen(v.turn, |call.sent|);
    ReplyActedOn(cfg, v);
    SeenIsFlat(v.turn, |call.sent|);
    TrimRightExact(seen);
    NotedRemembers(v.s.infos, []);
    partial, results, bs := TrimRight(seen), [], [];
    match ReplyTo(cfg, v) {
      case TooLarge => bs := InterruptedAdds(s, seen, ContextWindow);
      case Fault(message) => bs := InterruptedAdds(s, seen, Provider(message));
      case Response(content, stop) =>
        EmptyTurnExact(content, stop);
        if Silent(Response(content, stop)) {
          GrownByNothing(v.s.convo);
        } else if Dispatches(cfg, Response(content, stop)) {
          results := ReplyDispatches(cfg, s, content, v.turn);
          NotedRemembers(v.s.infos, results);
          bs := content + ResultBlocks(results);
          assert bs[..|content|] == content && bs[|content|..] == ResultBlocks(results);
        } else {
          ReplyAdds(cfg, s, content, stop, v.turn);
          bs := content;
        }
    }
    assert Grown(v.s.convo, bs, Iterate(cfg, v.s, v.turn).0.convo);
  }

  /** The transcripts an iteration stores, each in turn what `Messages` returns: the
      conversation with the reply, and then with its results; a silent reply or a
      failure that streamed nothing stores none. */
  ghost predicate Stores(cfg: Config, v: Visit, s': State, stored: seq<Transcript>) {
    var reply := ReplyTo(cfg, v);
    && s'.snapshots == v.s.snapshots + stored
    && s'.convo == (if stored == [] then v.s.convo else Last(stored))
    && (if !reply.Response? then |stored| <= 1
        else if Silent(reply) then stored == []
        else if Dispatches(cfg, reply) then |stored| == 2
        else |stored| == 1)
    && (reply.Response? && stored != [] ==> Grown(v.s.convo, reply.content, stored[0]))
  }

  lemma InterruptedStores(s: State, seen: string, e: RunError) returns (stored: seq<Transcript>)
    ensures var s' := Interrupted(s, seen, e);
            && s'.snapshots == s.snapshots + stored && |stored| <= 1
            && s'.convo == if stored == [] then s.convo else Last(stored)
  {
    var partial := TrimRight(seen);
    stored := if partial == "" then [] else [PushAssistant(s.convo, [Text(partial)])];
    assert s.snapshots + [] == s.snapshots;
  }

  lemma ReplyStores(cfg: Config, s: State, content: seq<Block>, stop: StopReason, turn: Turn) returns (stored: seq<Transcript>)
    ensures var s' := ActOnReply(cfg, s, content, stop, turn).0;
            && s'.snapshots == s.snapshots + stored && stored != [] && s'.convo == Last(stored)
            && |stored| == (if Dispatches(cfg, Response(content, stop)) then 2 else 1)
            && Grown(s.convo, content, stored[0])
  {
    var c := PushAssistant(s.convo, content);
    PushGrows(s.convo, Message(Assistant, content));
    NoCallsExact(content);
    FindsFirst(content, cfg.terminals);
    FindsFirst(content, cfg.pauses);
    DispatchAnswers(content, cfg.known, turn.outcomes);
    if Dispatches(cfg, Response(content, stop)) {
      var d := ActOnReply(cfg, s, content, stop, turn).0.convo;
      stored := [c, d];
      assert s.snapshots + [c] + [d] == s.snapshots + [c, d];
    } else {
      stored := [c];
    }
  }

  lemma IterateStores(cfg: Config, v: Visit) returns (stored: seq<Transcript>)
    ensures Stores(cfg, v, Iterate(cfg, v.s, v.turn).0, stored)
  {
    var call := Called(cfg, v.s, v.turn);
    var s := v.s.(level := call.level, requests := v.s.requests + call.sent);
    var seen := Seen(v.turn, |call.sent|);
    ReplyActedOn(cfg, v);
    match ReplyTo(cfg, v) {
      case TooLarge => stored := InterruptedStores(s, seen, ContextWindow);
      case Fault(message) => stored := InterruptedStores(s, seen, Provider(message));
      case Response(content, stop) =>
        EmptyTurnExact(content, stop);
        if Silent(Response(content, stop)) {
          stored := [];
          assert v.s.snapshots + [] == v.s.snapshots;
        } else {
          stored := ReplyStores(cfg, s, content, stop, v.turn);
        }
    }
  }
}
