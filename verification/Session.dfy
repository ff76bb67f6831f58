/** One conversation over many turns (`httpapi/session.go`): the turn state
    machine, the transcript carried between turns and the session-wide log. */
module Session {
  import opened Llm
  import opened Convo
  import opened Compose
  import opened Resume
  import opened EventLog
  import R = Run
  import opened RunLaws

  datatype TurnState = Idle | Running | Waiting | Done | Failed

  datatype Event =
    | TurnStarted(prompt: string)
    | RunEvent(payload: string)
    | TurnEnded(state: TurnState)

  datatype Frame = Frame(seqNo: nat, turn: nat, event: Event)
  datatype SendResult = Started(turn: nat) | NoSuchSession | Busy | AlreadyDone

  const NO_PAUSE := Id("")

  /** `final` is what the run `r` comes to, or a panic on the way. */
  ghost predicate EndOf(r: R.State, final: R.State) {
    final == r || exists i: nat, message :: i < |r.snapshots| && final == R.Crash(r, i, message)
  }

  /** `final` is how some run of the agent on `input` can end, against a provider
      whose replies are fresh. */
  ghost predicate RunEnded(cfg: R.Config, input: Transcript, final: R.State) {
    exists env: nat -> R.Turn :: Faithful(cfg, env, R.Initial(input), 1) && EndOf(R.RunOf(cfg, env, input), final)
  }

  function EndState(final: R.State): TurnState {
    match final.outcome
    case Some(Answer(_)) => Idle
    case Some(Paused(_)) => Waiting
    case Some(Submitted(_, _)) => Done
    case None => Failed
  }

  function PauseOf(final: R.State): Id {
    match final.outcome
    case Some(Paused(id)) => id
    case _ => NO_PAUSE
  }

  /** The transcript a new turn starts its run from. */
  function Seed(turns: nat, pause: Id, msgs: Transcript, prompt: string): Transcript {
    if turns == 0 then [UserText(prompt)]
    else if pause != NO_PAUSE then AnswerPause(msgs, pause, prompt)
    else Then(msgs, prompt)
  }

  /** Every seed of a turn is valid. */
  lemma SeedSolid(turns: nat, pause: Id, msgs: Transcript, prompt: string)
    requires turns > 0 ==> Stored(Filled, msgs)
    requires pause != NO_PAUSE ==> turns > 0 && pause in Uses(Last(msgs).content)
    ensures Solid(Seed(turns, pause, msgs, prompt))
  {
    if turns == 0 {
      var m := UserText(prompt);
      assert Front(m.content) == [];
      ChainSnoc([], m);
      SnocBlocks([], m);
      assert [] + [m] == [m];
    } else {
      SeedsFilled(msgs, pause, prompt);
      if pause != NO_PAUSE {
        AnswerPauseExact(msgs, pause, prompt);
      } else {
        ThenValid(msgs, prompt);
      }
    }
  }

  /** What the next run starts from: the prompt alone on the first turn; later the
      whole conversation and behind it the answer to the pause, or else the prompt
      behind whatever had to be cancelled. */
  ghost predicate Continues(turns: nat, pause: Id, msgs: Transcript, prompt: string, input: Transcript) {
    if turns == 0 then input == [Message(User, [Text(prompt)])]
    else
      && msgs != [] && Blocks(msgs) <= Blocks(input)
      && var open, added := Uses(Last(msgs).content), Blocks(input)[|Blocks(msgs)|..];
         if pause != NO_PAUSE then pause in open && AnswersOpen(open, pause, prompt, added)
         else CancelsOpen(open, prompt, added)
  }

  lemma SeedContinues(turns: nat, pause: Id, msgs: Transcript, prompt: string)
    requires turns > 0 ==> Stored(Filled, msgs)
    requires pause != NO_PAUSE ==> turns > 0 && pause in Uses(Last(msgs).content)
    ensures Continues(turns, pause, msgs, prompt, Seed(turns, pause, msgs, prompt))
  {
    if turns > 0 {
      var bs: seq<Block>;
      if pause != NO_PAUSE {
        bs := AnswerPauseAdds(msgs, pause, prompt);
      } else {
        bs := ThenAdds(msgs, prompt);
      }
      assert (Blocks(msgs) + bs)[|Blocks(msgs)|..] == bs;
    }
  }

  /** The state and the pause each ending leaves: an answer invites the next
      prompt, a submission is final, a pause waits for its own call. */
  ghost predicate Leaves(final: R.State, state: TurnState, pause: Id) {
    match final.outcome
    case Some(Answer(_)) => state == Idle && pause == Id("")
    case Some(Paused(id)) => state == Waiting && pause == id
    case Some(Submitted(_, _)) => state == Done && pause == Id("")
    case None => state == Failed && pause == Id("")
  }

  lemma RunEndsWell(cfg: R.Config, env: nat -> R.Turn, input: Transcript, final: R.State)
    requires Solid(input) && Faithful(cfg, env, R.Initial(input), 1) && EndOf(R.RunOf(cfg, env, input), final)
    ensures RunLaws.Ended(Filled, final)
  {
    RunResumes(cfg, Filled, env, input);
  }

  lemma PauseIsOpen(final: R.State)
    requires RunLaws.Ended(Filled, final)
    ensures Stored(Filled, final.convo)
    ensures PauseOf(final) != NO_PAUSE ==> PauseOf(final) in Uses(Last(final.convo).content)
  {
  }

  lemma EndedWell(cfg: R.Config, input: Transcript, final: R.State)
    requires Solid(input) && RunEnded(cfg, input, final)
    ensures Stored(Filled, final.convo)
    ensures PauseOf(final) != NO_PAUSE ==> PauseOf(final) in Uses(Last(final.convo).content)
  {
    var env: nat -> R.Turn :| Faithful(cfg, env, R.Initial(input), 1) && EndOf(R.RunOf(cfg, env, input), final);
    RunEndsWell(cfg, env, input, final);
    PauseIsOpen(final);
  }

  /** The last frame of a turn as a step of the log: it also ends the log if the
      turn is the last one. */
  function LastStep(f: Frame, done: bool): Step<Frame> {
    if done then AppendLast(f) else Step.Append(f)
  }

  lemma EndIsStep(l: Log<Frame>, history: seq<Frame>, f: Frame, cap: nat, done: bool)
    ensures Do(System(l, history, []), LastStep(f, done), cap)
         == if l.over then System(l, history, []) else System(Appended(l.(over := done), f, cap), history + [f], [])
  {
  }

  class Session {
    const cfg: R.Config
    const cap: nat
    var state: TurnState
    var turns: nat
    var closed: bool
    var frames: seq<Frame>
    var base: nat
    var changed: nat
    var msgs: Transcript
    var pauseId: Id
    /** Whether a turn is in flight, and the transcript its run started from. */
    var running: bool
    var input: Transcript
    /** Every frame ever emitted. */
    ghost var history: seq<Frame>

    /** The session's log as its followers see it. */
    function LogState(): Log<Frame>
      reads this
    {
      Log(frames, base, changed, closed || state == Done)
    }

    /** What its followers share. No step of the log looks at them. */
    ghost function Shared(): System<Frame>
      reads this
    {
      System(LogState(), history, [])
    }

    ghost predicate LogSound()
      reads this`frames, this`base, this`changed, this`history
    {
      && LogOk(Log(frames, base, changed, false), history, cap)
      && (forall i :: 0 <= i < |history| ==> history[i].seqNo == i)
    }

    ghost predicate TurnSound()
      reads this`running, this`state, this`turns, this`input, this`msgs, this`pauseId
    {
      && (running <==> state == Running)
      && (running ==> turns > 0 && Solid(input))
      && (!running && turns > 0 ==> Stored(Filled, msgs))
      && (turns == 0 ==> !running && state == Idle)
      && (pauseId != NO_PAUSE ==> !running && turns > 0 && pauseId in Uses(Last(msgs).content))
    }

    ghost predicate Ok()
      reads this
    {
      LogSound() && TurnSound()
    }

    constructor (cfg: R.Config, cap: nat)
      ensures Ok() && turns == 0 && !closed && history == [] && Shared() == Initial()
    {
      this.cfg, this.cap := cfg, cap;
      state, turns, closed, running := Idle, 0, false, false;
      frames, base, changed := [], 0, 0;
      msgs, pauseId, input := [], NO_PAUSE, [];
      history := [];
    }

    method Wake()
      modifies this`changed
      ensures changed == old(changed) + 1
    {
      changed := changed + 1;
    }

    /** Retains the frame, forgets the oldest past the cap and wakes followers. */
    method Keep(f: Frame)
      modifies this`frames, this`base, this`changed
      ensures Log(frames, base, changed, false) == Appended(old(Log(frames, base, changed, false)), f, cap)
    {
      frames := frames + [f];
      var over := |frames| - cap;
      if over > 0 {
        frames := frames[over..];
        base := base + over;
      }
      Wake();
    }

    method EmitLocked(turn: nat, event: Event)
      requires LogSound()
      modifies this`frames, this`base, this`changed, this`history
      ensures LogSound()
      ensures closed ==> LogState() == old(LogState()) && history == old(history)
      ensures !closed ==>
                var f := Frame(|old(history)|, turn, event);
                LogState() == Appended(old(LogState()), f, cap) && history == old(history) + [f]
    {
      if closed {
        return;
      }
      var f := Frame(base + |frames|, turn, event);
      AppendedOk(Log(frames, base, changed, false), history, f, cap);
      Keep(f);
      history := history + [f];
    }

    /** An event of the latest turn, as seen from the history. */
    method LogEvent(event: Event)
      requires LogSound()
      modifies this`frames, this`base, this`changed, this`history
      ensures LogSound()
      ensures history == if closed then old(history) else old(history) + [Frame(|old(history)|, turns, event)]
      ensures LogState() == if closed then old(LogState())
                            else Appended(old(LogState()), Frame(|old(history)|, turns, event), cap)
    {
      EmitLocked(turns, event);
    }

    /** The transcript the next turn starts from. */
    method SeedTurn(prompt: string) returns (seed: Transcript)
      requires Ok() && !running
      ensures seed == Seed(turns, pauseId, msgs, prompt) && Solid(seed)
      ensures Continues(turns, pauseId, msgs, prompt, seed)
    {
      SeedSolid(turns, pauseId, msgs, prompt);
      SeedContinues(turns, pauseId, msgs, prompt);
      if turns == 0 {
        seed := [UserText(prompt)];
      } else if pauseId != NO_PAUSE {
        seed := AnswerPause(msgs, pauseId, prompt);
      } else {
        seed := Then(msgs, prompt);
      }
    }

    /** The next turn, running from `seed`. */
    method Enter(seed: Transcript)
      requires Solid(seed)
      modifies this`input, this`turns, this`state, this`running, this`pauseId
      ensures TurnSound()
      ensures input == seed && running && state == Running && turns == old(turns) + 1 && pauseId == NO_PAUSE
    {
      input := seed;
      turns, state, running, pauseId := turns + 1, Running, true, NO_PAUSE;
    }

    /** Puts the next turn in flight and logs it. */
    method Begin(seed: Transcript, prompt: string)
      requires LogSound() && !closed && Solid(seed)
      modifies this
      ensures Ok()
      ensures input == seed && running && state == Running && turns == old(turns) + 1 && pauseId == NO_PAUSE
      ensures msgs == old(msgs) && closed == old(closed)
      ensures history == old(history) + [Frame(|old(history)|, turns, TurnStarted(prompt))]
      ensures old(state) != Done ==>
                LogState() == Appended(old(LogState()), Frame(|old(history)|, turns, TurnStarted(prompt)), cap)
    {
      Enter(seed);
      LogEvent(TurnStarted(prompt));
    }

    /** Starts the next turn. Whenever it is accepted the run starts from a valid
        transcript, so no earlier turn can have bricked the conversation. */
    method Send(prompt: string) returns (r: SendResult)
      requires Ok()
      modifies this
      ensures Ok()
      ensures r == if old(closed) then NoSuchSession
                   else if old(running) then Busy
                   else if old(state) == Done then AlreadyDone
                   else Started(old(turns) + 1)
      ensures r.Started? ==>
                && Continues(old(turns), old(pauseId), old(msgs), prompt, input) && Solid(input)
                && running && state == Running && turns == old(turns) + 1 && pauseId == NO_PAUSE
                && msgs == old(msgs) && closed == old(closed)
                && history == old(history) + [Frame(|old(history)|, turns, TurnStarted(prompt))]
                && Shared() == Do(old(Shared()), Step.Append(Frame(|old(history)|, turns, TurnStarted(prompt))), cap)
      ensures !r.Started? ==> unchanged(this)
    {
      if closed {
        return NoSuchSession;
      }
      if running {
        return Busy;
      }
      if state == Done {
        return AlreadyDone;
      }
      var seed := SeedTurn(prompt);
      Begin(seed, prompt);
      r := Started(turns);
    }

    /** One event of the run in flight reaches the log. */
    method PumpEvent(payload: string)
      requires Ok() && running
      modifies this`frames, this`base, this`changed, this`history
      ensures Ok()
      ensures history == if closed then old(history) else old(history) + [Frame(|old(history)|, turns, RunEvent(payload))]
      ensures Shared() == Do(old(Shared()), Step.Append(Frame(|old(history)|, turns, RunEvent(payload))), cap)
    {
      LogEvent(RunEvent(payload));
    }

    /** Logs how the turn ended, given the log before its state was set. */
    method LogEnd(ghost was: System<Frame>, ghost f: Frame)
      requires Ok() && was.log.over == closed && f == Frame(|history|, turns, TurnEnded(state))
      requires Shared() == was.(log := was.log.(over := closed || state == Done)) && was.followers == []
      modifies this`frames, this`base, this`changed, this`history
      ensures Ok()
      ensures history == if closed then old(history) else old(history) + [f]
      ensures Shared() == Do(was, LastStep(f, state == Done), cap)
    {
      EndIsStep(was.log, history, f, cap, state == Done);
      LogEvent(TurnEnded(state));
    }

    /** The turn in flight is over and its transcript kept. */
    method Leave(final: R.State)
      requires Ok() && running && RunEnded(cfg, input, final)
      modifies this`msgs, this`state, this`pauseId, this`running
      ensures Ok() && Resumable(msgs)
      ensures Shared() == old(Shared()).(log := old(LogState()).(over := closed || state == Done))
      ensures old(LogState()).over == closed
      ensures !running && msgs == final.convo && Leaves(final, state, pauseId)
    {
      EndedWell(cfg, input, final);
      msgs, state, pauseId, running := final.convo, EndState(final), PauseOf(final), false;
    }

    /** The turn in flight ends: its transcript is kept whatever the outcome, and
        a pause is remembered exactly when there is an open call to answer. */
    method PumpEnd(final: R.State)
      requires Ok() && running && RunEnded(cfg, input, final)
      modifies this
      ensures Ok()
      ensures !running && msgs == final.convo && Resumable(msgs) && Leaves(final, state, pauseId)
      ensures turns == old(turns) && closed == old(closed)
      ensures history == if closed then old(history) else old(history) + [Frame(|old(history)|, turns, TurnEnded(state))]
      ensures var f := Frame(|old(history)|, turns, TurnEnded(state));
              Shared() == Do(old(Shared()), LastStep(f, state == Done), cap)
    {
      ghost var was := Shared();
      Leave(final);
      LogEnd(was, Frame(|history|, turns, TurnEnded(state)));
    }

    /** Drops the session; nothing is logged from then on. */
    method Close()
      requires Ok()
      modifies this`closed, this`changed
      ensures Ok() && closed && changed == old(changed) + 1
      ensures Shared() == Do(old(Shared()), Finish, cap)
    {
      closed := true;
      Wake();
    }
  }
}
