# wombat-go, verified model

This project models the agent harness `wombat-go` in Dafny and proves what its
parts promise. The largest part is the **transcript protocol**: a provider
accepts a conversation only if roles alternate, every tool_use is answered once
in the next turn, and no id is used twice. Strategies cut, drop, merge and
summarise such a conversation, the ReAct loop extends it, pauses, fails part-way
and resumes. Six further cores follow: the bounded event log with resumable
followers, the record and replay tape, pass@k, the metric registry, the
hardening around tool calls (breaker, retry, clipping, budgets, approvals) and
skill gating.

Check everything with `dafny verify dfyconfig.toml`.

## Layout

| file | content |
|---|---|
| `Llm.dfy`, `Convo.dfy` | blocks and messages; `Validate`, the push helpers, `Dangling`, `CloseDangling` |
| `Normalize.dfy`, `Strategy.dfy`, `StrategyLaws.dfy` | `DropPairs`, `SafeCut`, the shipped strategies one by one |
| `Compose.dfy`, `Survive.dfy` | compositions: exactly when the result is valid, and exactly which results it leaves |
| `Overflow.dfy`, `Dispatch.dfy`, `Resume.dfy` | the overflow ladder, one batch of calls, `AnswerPause`, `Then`, `Resume` |
| `Run.dfy`, `RunLaws.dfy`, `RunOutcome.dfy` | the loop as a step function, what it keeps, and what each run comes to |
| `RunExact.dfy`, `RunWindow.dfy`, `RunLoop.dfy` | the inputs on which the loop is safe, the prefix its requests share, and the loop as an object that refines it |
| `EventLog.dfy`, `Buffered.dfy`, `Session.dfy` | the log as a transition system, the ring buffer, one conversation over many turns |
| `Tape.dfy`, `TapeOrder.dfy`, `TapeFile.dfy` | record and replay call by call, then in interleaved steps with failing appends, and the tape object |
| `PassAt.dfy` | pass@k against subsets of the samples |
| `Utf8.dfy`, `Clip.dfy` | UTF-8 as section 4 of RFC 3629 defines it, and clipping |
| `Labels.dfy`, `Metric.dfy`, `MetricSteps.dfy` | label sets and keys; counters, histograms and the cardinality cap; counters under concurrent calls |
| `Breaker.dfy`, `Governor.dfy`, `Approvals.dfy` | circuit breaker with retry, shared budgets, the queue of parked calls |
| `Skill.dfy`, `SkillRun.dfy`, `SkillOrder.dfy` | skill state and surface; the surface, the bodies and the wire over whole runs; the surface under parallel workers |
| `OneLoad.dfy`, `SkillEdges.dfy`, `SkillOverflow.dfy` | runs in which one skill is loaded, and the four ways in which body and surface part |

Code that updates fields or local variables is a class or a method with a loop,
proved equal to a specification function; the laws are lemmas about those
functions. Goroutines are interleaved atomic steps: each critical section of the
source is one step, and a law about "any interleaving" quantifies over all
sequences of steps.

## Vocabulary

- `Valid`: what `Validate` accepts. `Resumable`: the same, except that the calls
  of the last turn may be unanswered. `Solid`: `Valid`, and every user turn has
  content.
- `OpensClean`: there is a user turn with content, and the first one answers
  nothing. `Steady`: what starts at an empty user turn opens clean, for each of
  them. A strategy and a ladder ask for nothing beyond `Valid`, for a clean
  opening or for `Steady` (`NeedOf`); `Solid` transcripts meet all of it.
- `FreshReply`: a provider reply carries distinct tool_use ids the transcript
  does not know, and no tool_result. Nothing in the harness enforces it;
  `StaleReplyBreaks` shows that safety fails at the first reply without it.

## What the proofs found

- The comment at `convo.go:16` says a transcript is validated before every model
  call. The loop validates once, on entry (`run.go:364-368`). That is enough for
  every later request, under every configuration and every provider with fresh
  replies, if and only if the input is steady (`RunSafeExact`). `Validate` accepts
  inputs that are not: `ContentInTurnZeroIsNotEnough` is a three-message input
  whose run sends an invalid second request. Without an eviction in the strategy
  or the ladder any valid input will do (`RunSafe`). Session turns always start
  from solid transcripts (`Session.Send`).
- `DropPairs` can turn a valid transcript into an invalid one when turn 0 is
  empty, which `Validate` does not exclude. `DropPairsExact` gives the exact
  condition and `DropPairsOrphans` a three-message example.
- A window may cut to an empty user turn, and a removal behind it then orphans an
  answer (`CompositionNeedsFilledTurns`). A valid transcript survives every
  composition if and only if no set of its own calls does that behind any of its
  empty user turns (`CompositionExact`).
- Every transcript a run exposes can be resumed from if and only if every reply
  it pushes is fresh (`ResumableExactly`).
- `DropTagged` evicts exactly one kind of block inside its protected window: a
  result in the first protected message whose call lies just before it
  (`TaggedEdge`).
- A failed write burns a sequence number (`tape/tape.go:474-475`), and the next
  session counts lines instead. Burn two numbers, and the next session numbers
  its entries below the last one: the tape replays out of file order
  (`FailedWritesReorder`). Over any sessions with any failed writes, file order
  survives if and only if every session that writes under a key first burns all
  but one of the numbers that the last one to write there had burnt
  (`FileOrderExact`); one burnt number a session never does harm
  (`OneFailureIsHarmless`).
- An overflow rung runs after the tool surface was read, so the request resent
  may lack the body of a skill whose tools it offers: `OverflowRungMayEvict` is a
  whole run that sends such a request, `OfferedBodyOnWire` says exactly which
  requests of a run do.
- The full body stands behind an offered tool, and behind a stub, if and only if
  it survives truncation (`OfferedHasBody`, `StubOverRun`). The default chain
  truncates `load_skill` too (`agent.go:442`), although `tool/middleware.go:522-525`
  names it as the tool to exempt: a longer body is lost, and a second load
  still answers with the stub (`CutBodyIsStubbed`, `DefaultLimitCuts`).
- A load whose use has the empty id is never retired (`skill/bind.go:127-132`):
  its tools stay offered after the body was evicted (`NoIdIsNeverRetired`). Every
  other activation follows the context.
- A load that a middleware answers in place of its handler opens nothing, though
  its result is in the transcript (`BlockedLoadOpensNothing`).

## Model

| member | source | states |
|---|---|---|
| Convo.Validate | convo.go:190-251 | the verdict is `Accepted` or names the turn and the block of a real violation, with everything before it clean |
| Convo.ValidateTurn | convo.go:204-245 | one turn of the scan: the ids seen so far and the ids left open, or the first fault in it |
| Convo.ScanTurn | convo.go:209-236 | the blocks of a turn, one by one, against the ids seen and open |
| Convo.JudgedDecides | convo.go:178-251 | the verdict is `Accepted` if and only if the transcript is valid: user-first, alternating, results a permutation of the calls before them, ids globally distinct, none open at the end |
| Convo.LateIsSecondAnswer | convo.go:231-233 | a result refused as late on an otherwise clean prefix is for a call that was answered before |
| Convo.PushAssistantExact | convo.go:62-85 | after pushing an assistant turn the transcript is resumable if and only if the reply is fresh |
| Convo.PushAnswersExact | convo.go:62-90 | after pushing results a resumable transcript is valid if and only if they answer exactly the open calls |
| Convo.ChainSnoc | convo.go:62-75 | a turn of the other role keeps the protocol if and only if it is well placed, answers the turn before and asks nothing twice |
| Convo.ChainMerge | convo.go:62-75 | joining a turn of the same role keeps the protocol when no answer comes between a call and its result |
| Convo.AppendBlocks | convo.go:62-75 | appending never drops, repeats or reorders a block, whether it merges or not |
| Convo.Dangling | convo.go:93-122 | the loop over blocks equals the ledger of ids opened and not closed |
| Convo.DanglingMeaning | convo.go:93-122 | for any transcript at all, an id dangles if and only if its last mention asks for it |
| Convo.DanglingExact | convo.go:93-122 | on a resumable transcript the dangling ids are the calls of the last turn, in order |
| Convo.CloseDanglingValid | convo.go:124-143 | closing a resumable transcript with any acknowledgement makes it valid: every block stays, then one acknowledgement for each dangling id, then the extra text |
| Normalize.Normalize | strategy.go:400-432 | the loop that merges, drops empty turns and strips a leading assistant turn equals its specification |
| Normalize.RemovePairs | strategy.go:270-297 | the in-place filtering of every turn equals `DropPairs` |
| Normalize.NormalizedExact | strategy.go:411-432 | what normalizing leaves of a trimmed chain is valid if and only if the first user turn with content answers nothing |
| Normalize.DropPairsExact | strategy.go:260-297 | on a valid transcript and a non-empty id set the result is valid if and only if the trimmed transcript opens clean |
| Normalize.DropPairsKeeps | strategy.go:260-297 | with content in turn 0, for any ids: the result is valid and its blocks are the input's without the uses and results of those ids; its turns are non-empty if there is an id to remove |
| Normalize.DropPairsOrphans | strategy.go:428-431 | a valid transcript with an empty first turn from which removing one pair orphans another answer |
| Normalize.GatherChained | strategy.go:411-427 | merging after removal joins only turns between which nothing was asked or answered |
| Strategy.FindSafeCut | strategy.go:122-146 | the backward search returns the last position at or before the wish from which a valid transcript is still valid, or 0 |
| Strategy.SafeStartExact | strategy.go:104-146 | of the suffixes of a valid transcript, those that begin with a user turn without results are exactly the valid ones |
| Strategy.SafeCutMaximal | strategy.go:104-146 | so the search drops as much of a valid transcript as it may: no later suffix within the wish is valid |
| Strategy.FindVictims | strategy.go:324-338 | the loops collect exactly the tagged calls of the unprotected messages |
| Strategy.MaterializeTagged | strategy.go:316-345 | `dropTagged.Apply` |
| Strategy.MaterializeCompacted | strategy.go:368-385 | `compacted.Apply` with its guards |
| Strategy.Materialize | strategy.go:82-98 | every shipped strategy, and a sequence as a left-to-right loop |
| Compose.CompositionExact | strategy.go:82-98 | a valid transcript stays valid under every nesting of the shipped strategies, whatever is known of its calls, if and only if no removal of its own calls behind one of its empty user turns orphans an answer |
| Compose.ApplyReady | strategy.go:82-98 | a composition is safe on a valid transcript that has the shape the composition asks for, and leaves the shape a following one asks for |
| Compose.ApplyKeeps | strategy.go:82-98 | any nesting of the shipped strategies maps solid transcripts to solid ones |
| Compose.CompositionBreaks | strategy.go:88-98 | for each transcript that fails the condition, the window and the eviction that break it |
| Compose.CompositionClosed | strategy.go:82-98 | the same condition in closed form: what starts at each empty user turn opens clean, or has no call, or has one and opens clean without it |
| Strategy.CutKeeps | strategy.go:104-146 | a suffix from a safe start is valid |
| StrategyLaws.WindowKeepsValid | strategy.go:224-250 | a window keeps any valid transcript valid |
| StrategyLaws.CompactedKeepsValid | strategy.go:368-397 | so does compaction, whatever the summary |
| StrategyLaws.WindowExact | strategy.go:160-250 | a window sends the transcript from the last valid cut at or before its anchor, which leaves `keep` messages or, with a trigger, is the largest multiple of `trigger - keep` that leaves as many |
| StrategyLaws.CompactedExact | strategy.go:368-397 | once there are enough messages compaction hands all before the last valid cut to the summarizer, and sends the summary in its tags before the rest; an empty summary is left out |
| StrategyLaws.TaggedExact | strategy.go:316-345 | once there are enough messages eviction leaves out, with both halves, exactly the calls before the last `keep` messages that carry one of the tags |
| StrategyLaws.IdleExact | strategy.go:316-376 | below their thresholds, or with nothing to go by, both send the transcript as it is |
| StrategyLaws.CompositionNeedsFilledTurns | strategy.go:88-98 | a window and then a removal break a valid transcript that has an empty turn in the middle |
| StrategyLaws.TaggedEdge | strategy.go:316-345 | inside the protected window a block is evicted if and only if it is the result, in the first protected message, of a tagged call |
| StrategyLaws.WindowCutMonotone | strategy.go:160-250 | when the transcript grows, the cut never moves back |
| StrategyLaws.WindowPrefixStable | strategy.go:160-250 | within one block of growth the cut is constant, and the next materialization extends the last by exactly the new messages |
| StrategyLaws.WindowSurvivors | strategy.go:160-250 | at least the messages to keep survive, and fewer than the trigger when the anchor is itself a safe cut |
| Overflow.OverflowState.Raise | overflow.go:133-142 | the level of a run never falls |
| Overflow.OverflowState.Call | overflow.go:51-88 | the retry loop sends exactly the specified attempts and leaves the specified level |
| Overflow.FindRung | overflow.go:98-107 | the first later rung that shortens what was just rejected, or none |
| Overflow.NextRungLeast | overflow.go:98-107 | it is the least such rung, and it is shorter |
| Overflow.CallsBounded | overflow.go:51-88 | from level L of m rungs one call makes at most m - L + 1 attempts, one more than the levels it climbs |
| Overflow.CompleteClimbs | overflow.go:51-116 | every attempt is the original transcript or one rung applied to it; each rejection climbs to the first later rung that shortens what was rejected, and the call ends on an accepted attempt or where no rung would |
| Overflow.AttemptsValid | overflow.go:51-116 | every attempt of a transcript that has the shape the rungs ask for is valid |
| Dispatch.DispatchBatch | tool/dispatch.go:125-189 | whatever order the workers take the calls in, result i belongs to call i; its block holds the output, or as an error the message of an unknown tool, a failure or a panic, and a failure keeps its partial output in the result only |
| Dispatch.DispatchAnswers | tool/dispatch.go:63-79 | the blocks of a batch answer exactly the calls of the reply |
| Resume.AnswersForMeaning | run.go:57-84 | block k is the answer, not an error, where the k-th open call is the named one, and the `not run` error elsewhere |
| Resume.AnswerPauseExact | run.go:57-84 | on a non-empty resumable transcript the result is valid if and only if the id is one of the open calls |
| Resume.AnswerPauseAdds | run.go:57-84 | answering a pause adds exactly those blocks behind the transcript, and nothing else |
| Resume.ThenAdds | run.go:93-104 | a new instruction adds a `(cancelled)` result for each open call and then its text |
| Resume.ThenValid | run.go:93-104 | a new instruction makes a resumable transcript valid, for any text |
| Resume.PendingPauseIsOpen | run.go:109-131 | a pending pause is the first call of the last turn that names a pausing tool, and it is open; none is pending if and only if no call names one |
| Resume.ResumedValid | run.go:136-144 | resuming with a non-empty instruction is always valid |
| Resume.ResumedAdds | run.go:136-144 | an instruction is the answer to the first open call of a pausing tool, if there is one, and cancels what is open otherwise; no instruction adds nothing |
| RunLaws.RunSafe | run.go:324-619 | from a valid input with the shape that strategy and ladder ask for, and with fresh replies, every request of the whole run is valid |
| RunExact.RunSafeExact | run.go:364-368 | of a valid input all requests of all runs, under all configurations and against all providers with fresh replies, are valid if and only if the input is steady |
| RunExact.RunBreaks | run.go:406-619 | for each valid input that is not steady, a configuration and a provider whose run sends an invalid second request |
| RunExact.ContentInTurnZeroIsNotEnough | run.go:364-368 | such a run on a concrete input with content in turn 0 |
| RunLaws.RunResumes | run.go:324-619 | from any valid input and fresh replies every transcript the run ever exposes is resumable and keeps the shape of the input, and a pause names an open call of the final transcript |
| RunLaws.ResumableExactly | run.go:324-619 | all exposed transcripts are resumable if and only if every reply the run pushes is fresh |
| RunLaws.IterateSafe | run.go:406-619 | one iteration keeps validity, the shape and the resumable snapshots on each of its exits |
| RunLaws.IterationSends | run.go:431-441 | the strategy, the notice and all attempts of one iteration give valid requests |
| RunLaws.NoticeKeeps | run.go:631-646 | the turn notice changes no role, no call and no answer of any turn, and keeps a transcript valid and its shape |
| RunLaws.StaleReplyBreaks | run.go:574-575 | one reply that is not fresh, and the run exposes a transcript nobody can resume |
| RunLaws.RunBounded | run.go:370-393 | a run calls the provider in at most maxIters iterations, and sends at most one request more for each rung of the ladder |
| RunLaws.EmptyTurnsBounded | run.go:549-572 | never more than three iterations of a run in a row get a reply with nothing to act on; the third one ends the run with an error that counts them |
| RunLaws.VisitsSend | run.go:370-393 | the iterations account for every request of a run, in order |
| RunLaws.RunExtends | run.go:406-619 | a run only ever appends blocks to its transcript |
| RunOutcome.RunAnswers | run.go:577-579 | a run answers if and only if its last reply stopped at the end of its turn or at a stop sequence and is not silent; the answer is what that reply says |
| RunOutcome.RunSubmits | run.go:593-598 | a run submits if and only if its last reply, stopped for tools, calls a terminal one: the first such call, with its own name and input |
| RunOutcome.RunPauses | run.go:593-601 | a run pauses if and only if that reply calls no terminal tool and does call a pausing one, and it pauses on the first such call |
| RunOutcome.RunFails | run.go:486-519 | a failed call is the error, with its message, if and only if it was the last; so is a request too large for every rung |
| RunOutcome.RunRefused | run.go:581-585 | running out of tokens and a refusal are the error if and only if the last reply stopped for them, and a refusal is quoted in the reply's words |
| RunOutcome.RunUnexpected | run.go:587-617 | so is an unknown stop reason, by its name, and a stop for tools without a call |
| RunOutcome.RunGivesUp | run.go:549-571 | a run gives up on silence if and only if its last replies were silent three times in a row, or fewer and reasoning filled the reply cap; the error has their number |
| RunOutcome.RunCutShort | run.go:370-384 | cancellation and the iteration limit are the error if and only if the last iteration left the run open and the next one was cancelled, told to stop, or too many |
| RunOutcome.RunEnds | run.go:364-368 | a run has an outcome or an error and never both; invalid input is the error of invalid input only |
| RunOutcome.RunGoesOn | run.go:370-394 | a run goes on only after a silent reply that is asked again, or after dispatching its calls |
| RunOutcome.RunMeets | run.go:370-394 | iterations are numbered from 1, stay within the limit, and none takes place once the run was cancelled or told to stop |
| RunOutcome.IterateExit | run.go:406-619 | what one iteration settles, reply by reply: an outcome, an error or neither |
| RunOutcome.TextOfJoins | llm/llm.go:131-147 | what a reply says is its texts joined by newlines, without the empty ones at its start |
| RunOutcome.EmptyTurnExact | run.go:739-746 | a reply counts as empty if and only if it is finished, calls nothing and holds no character but Unicode white space |
| RunOutcome.FindsFirst | tool/tool.go:262-282 | the call found is the first block that calls one of the named tools; none is found if and only if there is no such block |
| RunOutcome.StreakIsSilence | run.go:549-572 | the counter is the number of silent replies in a row at the end of the run so far |
| RunOutcome.SeenIsFlat | run.go:455-502 | what the user saw is everything the attempts of the iteration streamed, in order, and what was reasoned adds up over them |
| RunOutcome.RequestExact | run.go:424-442 | the request is what the strategy leaves of the conversation, and the notice, if any, as one more text behind a last user turn |
| RunOutcome.AttemptsClimb | overflow.go:51-88 | an iteration sends that request at the level the run has reached, and again only after an attempt found too large |
| RunOutcome.TrimRightExact | run.go:512 | the longest prefix that ends in none of the four trimmed characters |
| RunOutcome.ToolUsesAreCalls | llm/llm.go:149-158 | the calls of a reply are its tool_use blocks in order |
| RunOutcome.IterateAdds | run.go:486-614 | an iteration adds the reply, and for calls it dispatches a result each; a failed call adds what was streamed, trimmed; a silent reply nothing |
| RunOutcome.NotedRemembers | run.go:603-611 | the last result under each id is remembered with its tool, tags and size, and nothing else changes |
| RunOutcome.IterateStores | run.go:512-614 | the transcripts an iteration stores, in order; the last of them is the conversation it leaves |
| RunWindow.NothingRewritten | run.go:370-619 | in a run from an input that ends in a user turn the transcript of each iteration begins, message by message, with that of every earlier one |
| RunWindow.RequestsExtend | strategy.go:160-250 | under a window, two iterations whose transcripts it cuts in one block of lengths build requests of which the later is the earlier and the messages since, unless a notice was added |
| RunWindow.SentExtend | strategy.go:160-250 | what is sent first then extends what was sent first, as long as no overflow rung is in use |
| RunLoop.Run.Loop | run.go:370-394 | the loop over fields equals the run from any iteration on |
| RunLoop.Run.Iterate | run.go:406-619 | one iteration on the object equals the step function |
| RunLoop.Run.ActOnReply | run.go:572-618 | the branches on the stop reason equal the step function, whose outcomes `RunOutcome` states one by one |
| RunLoop.Run.ActOnCalls | run.go:587-614 | terminal tools before pausing tools before dispatch, first match first |
| RunLoop.Run.Interrupt | run.go:486-519 | a call that fails part-way leaves what the user saw in the transcript |
| RunLoop.Run.Retry | run.go:549-571 | an empty turn is asked again until the budget or the count runs out |
| EventLog.FollowersRefineLog | buffered.go:101-141 | under any interleaving each follower yields the unbounded log: right event at each sequence, sequences strictly rising, gaps only where entries were evicted |
| EventLog.NoLostWakeup | buffered.go:113-139 | a parked follower with something to read can be woken |
| EventLog.OverMeansAll | buffered.go:113-132 | a follower that ends because the run is over was offered everything not evicted |
| EventLog.OverYieldsLog | buffered.go:101-141 | while nothing was evicted it yielded exactly the log from its start |
| EventLog.FollowerGetsOn | buffered.go:101-141 | progress: in any reachable state a follower that reads, and whose consumer takes what it read, is yielded every retained entry it has not had, in order, and is ready again; with nothing to read it ends if the run is over, and parks otherwise |
| EventLog.WhyEnded | buffered.go:121-139 | in any run of the system a follower stops only after its consumer wanted no more, and goes only after its consumer was gone |
| EventLog.HistoryExact | buffered.go:180-216 | the unbounded log is what was appended before the log was closed, in order, whatever the followers do |
| EventLog.JoinExact | buffered.go:101-103 | a follower starts at the sequence it asked for, at 0 if that is negative, and nobody else notices |
| EventLog.AlwaysInv | buffered.go:45-66 | the invariant of log and followers over all runs of the system |
| EventLog.StepKeeps | buffered.go:101-222 | each atomic step keeps it |
| Buffered.Buffer.Append | buffered.go:201-216 | append and eviction in place: the last 8192 events are retained, or all if there are fewer |
| Buffered.Buffer.Read | buffered.go:105-119 | one locked pass of a follower reads a stretch of the log |
| Buffered.Buffer.Len | buffered.go:146-150 | the number of events ever appended, evicted ones included |
| Buffered.Buffer.Drain | buffered.go:180-199 | draining a run appends all its events and then finishes the log, evicting on the way |
| Buffered.DrainIsReached | buffered.go:180-216 | what draining makes of a new buffer is a state the system of log and followers reaches |
| Session.Session.Send | httpapi/session.go:131-191 | refusals change nothing; an accepted prompt starts its run from a solid transcript: the prompt alone on the first turn, later the whole conversation with the answer to the pause or the prompt behind it; the turn is logged as one append step |
| Session.Session.SeedTurn | httpapi/session.go:152-161 | the seed is a fresh question, an answer to the pause, or a further instruction behind everything said so far, and it is solid |
| Session.Session.PumpEvent | httpapi/session.go:202-204 | each event of the run in flight becomes the next frame of its turn, one append step of the log |
| Session.Session.Close | httpapi/session.go:371-385 | marks the session closed and wakes its followers: the finishing step of the log |
| Session.Session.PumpEnd | httpapi/session.go:194-259 | however the run ended, its transcript is resumable; an answer leaves the session idle, a submission done, a failure failed, and a pause waiting on that very call, which is open; the last frame is an append step, which also ends the log after a submission |
| Session.Session.EmitLocked | httpapi/session.go:394-415 | frames get consecutive numbers, old ones are evicted, a closed session logs nothing |
| Session.SeedSolid | httpapi/session.go:145-161 | every seed of every turn is solid |
| Session.SeedContinues | httpapi/session.go:152-161 | no seed after the first forgets a block: it adds the answer to the open pause and an error for its siblings, or an acknowledgement for each open call and then the prompt |
| Session.EndedWell | httpapi/session.go:206-253 | any run from a solid seed, cut short by a panic or not, ends with a transcript that can be resumed |
| Tape.SortedStable | tape/tape.go:316-328 | loading keeps, for each number, the entries in file order |
| Tape.SessionReplays | tape/middleware.go:27-148 | every call of a session gets the response recorded at its position before the session began, then the last one again; nothing recorded in a session is replayed in it, and failed appends change no answer |
| Tape.SessionTapes | tape/tape.go:465-496 | what a session adds under each key is exactly its live responses, in call order |
| Tape.SessionCounts | tape/tape.go:439-508 | hits count the calls answered from the tape, misses all others, records the live answers that reached the file; the write error is up if and only if one did not |
| Tape.ReopenReplays | tape/tape.go:284-337 | after reopening to replay or in auto mode, each call gets the old and the new recordings of its key, position by position |
| Tape.ReplayIsFaithful | tape/middleware.go:27-148 | record a session, replay it: every call gets the response it had |
| Tape.SessionsSequential | tape/tape.go:465-496 | across any number of sessions each key carries the numbers 0 to n - 1 in file order, and a tape is only appended to |
| Tape.FailedWritesReorder | tape/tape.go:465-496 | two failed writes and the next session replays out of file order |
| TapeOrder.FileOrderExact | tape/tape.go:284-496 | across any sessions with any failed appends, the numbers of a key ascend in the file if and only if every session that writes under it first burns all but one of the numbers that the last one to write there had burnt |
| TapeOrder.ReplayOrderExact | tape/tape.go:316-328 | a key is loaded in file order if and only if they did |
| TapeOrder.SessionsOrderExact | tape/middleware.go:27-148 | the same for sessions of intercepted calls |
| TapeOrder.OneFailureIsHarmless | tape/tape.go:465-496 | sessions that burn at most one number each keep file order |
| TapeOrder.StepsWrite | tape/tape.go:465-496 | however the asks and records of nested or parallel calls interleave, a key gains its records in the order they were made, one number for each attempt |
| TapeOrder.StepsAnswer | tape/tape.go:439-463 | under any such interleaving each ask of a key is answered by its own position in what was loaded |
| TapeFile.OpenTape.Load | tape/tape.go:284-337 | grouping, sorting and counting equal the pool and the counters |
| TapeFile.OpenTape.TakeNext | tape/tape.go:439-463 | cursor, repeat of the last entry, statistics |
| TapeFile.OpenTape.RecordEntry | tape/tape.go:465-496 | numbering, the append, and the number burnt by a failed write |
| TapeFile.OpenTape.Handle | tape/middleware.go:27-148 | what each mode does on a hit, a miss and an error |
| PassAt.Successes | rl/group.go:48-56 | the loop counts the samples that won |
| PassAt.PassAt | rl/group.go:90-107 | the early returns and the running product give the share of k-subsets that contain a success |
| PassAt.LossProduct | rl/group.go:101-106 | the product loop is the ratio of two binomials |
| PassAt.ShareAsBinomials | rl/group.go:58-107 | the share of subsets is 1 - C(n-c,k) / C(n,k) |
| PassAt.LosingCount | rl/group.go:58-107 | the subsets without a success are counted by C(n-c,k) |
| PassAt.SubsetsCount | rl/group.go:58-107 | the k-subsets of n samples are counted by C(n,k) |
| PassAt.ShareInUnit | rl/group.go:90-107 | the share lies in the unit interval |
| PassAt.ShareExtremes | rl/group.go:94-100 | the two early returns agree with the share |
| PassAt.ShareMonotoneInK | rl/group.go:58-107 | more samples never lower it |
| PassAt.ShareMonotoneInWins | rl/group.go:58-107 | of two groups of the same size the one with more wins, at whatever positions, never scores lower |
| Utf8.FindBoundary | tool/middleware.go:656-664 | backs up to the nearest rune start, and no further |
| Utf8.ValidCut | tool/middleware.go:654-664 | valid UTF-8 cut before a rune start is two valid strings |
| Clip.ClipText | tool/middleware.go:580-607 | `Clip` with its forward scan equals its specification |
| Clip.ClipHead | tool/middleware.go:644-652 | `ClipHead` likewise |
| Clip.ShorterOf | tool/middleware.go:622-629 | the first candidate that is shorter than the original; the original if and only if none is |
| Clip.ClipSound | tool/middleware.go:580-652 | for every string and limit: the input, or strictly shorter, made of disjoint pieces of the input of at most limit bytes around a notice that counts exactly what is gone |
| Clip.ClipChooses | tool/middleware.go:580-629 | the middle cut wins if there is room for two halves and it is shorter, then the head cut if that is shorter, and else nothing is cut |
| Clip.MiddlePrints | tool/middleware.go:603-605 | the notice in the middle prints how many bytes are left out, then the total |
| Clip.HeadPrints | tool/middleware.go:649-651 | the notice at the end prints how many bytes are shown, the total, and the difference |
| Clip.ClipSoftCap | tool/middleware.go:577-629 | the budget is exceeded by one notice at most |
| Clip.ClipWhole | tool/middleware.go:580-629 | the input comes back uncut if and only if it is within the limit or neither cut is shorter |
| Clip.LongIsCut | tool/middleware.go:603-651 | an input beyond the limit by more than the notice is always cut |
| Clip.CutsWasteLittle | tool/middleware.go:593-602 | on valid input each cut gives up at most three bytes |
| Clip.ClipKeepsUtf8 | tool/middleware.go:580-664 | valid input gives valid output, for any clean wording |
| Clip.ShippedClean | tool/middleware.go:603-605 | the two notices the code prints are valid UTF-8 |
| Labels.Sanitize | metric/metric.go:607-628 | any name is coerced to a legal one of the same length, and legal characters stay |
| Labels.SanitizedExact | metric/metric.go:607-628 | letters, underscores and digits other than a first one stay, and every other byte becomes an underscore |
| Labels.TruncatedValue | metric/metric.go:648-656 | a value is all of what was given, or the longest part of at most 128 bytes that ends before a rune start; valid if the input is |
| Labels.CleanedExact | metric/metric.go:556-570 | every label with a name is kept, in order, under its cleaned name and value, and no other |
| Labels.MeaningLast | metric/metric.go:548-580 | what a label list means: under each name the value of its last label |
| Labels.LessExact | metric/metric.go:571-574 | names sort in byte order: a proper prefix first, else by the first byte that differs |
| Labels.Canonicalize | metric/metric.go:556-582 | cleaning, stable sort, last one wins, and the key |
| Labels.CompactSorted | metric/metric.go:574-580 | the compaction loop keeps the last label of each name |
| Labels.MakeKey | metric/metric.go:589-598 | the builder loop equals the key function |
| Labels.CanonicalKeeps | metric/metric.go:548-582 | the canonical form is strictly sorted by name and keeps each name's last value |
| Labels.LabelKeyInjective | metric/metric.go:586-598 | the key is injective on label lists |
| Labels.KeyIdentifies | metric/metric.go:548-598 | two label lists share a series if and only if every name ends up with the same value in both |
| Metric.Counter.Get | metric/metric.go:385-413 | finds, creates or folds, and touches no other series |
| Metric.Counter.Add | metric/metric.go:484-489 | negative and NaN amounts are dropped, any other is recorded once |
| Metric.SeriesCapped | metric/metric.go:385-413 | an instrument holds at most 257 series, the last being the overflow one |
| Metric.SeriesExact | metric/metric.go:385-413 | a series holds exactly the values recorded under its own labels; a label set without one was folded at the cap |
| Metric.NothingFoldedBelowCap | metric/metric.go:385-413 | up to the cap the series are the label sets seen |
| Metric.TotalsSurviveFolding | metric/metric.go:80-83 | over all series any weight adds up to that of everything recorded, folded or not |
| Metric.CounterTotals | metric/metric.go:80-83 | the values of all series of a counter add up to everything it accepted |
| MetricSteps.SeriesExactAnyOrder | metric/metric.go:383-413 | with the lookup and the addition of each call as two steps, in any interleaving: at most 257 series, and one that is not the overflow series holds exactly what was added under its labels |
| MetricSteps.TotalsAnyOrder | metric/metric.go:484-489 | in any such interleaving any weight over all series is that of the calls that added so far |
| MetricSteps.AloneIsLanding | metric/metric.go:484-489 | a call that nobody interrupts is the single step of the sequential laws |
| Metric.CounterReads | metric/metric.go:472-489 | a counter's series reads the sum of what was accepted under its labels, and no other series carries those labels |
| Metric.HistogramSeries.Observe | metric/metric.go:519-534 | a value lands in its bucket, the sum and the count together |
| Metric.HistogramSeries.Snapshot | metric/metric.go:439-466 | each cumulative bucket is the number of values that do not exceed its bound, the last one the number of all |
| Metric.CumulativeExact | metric/metric.go:439-466 | per-bucket counts add up to that number |
| Metric.NormalizeBuckets | metric/metric.go:661-671 | bounds come out strictly ascending, and they are exactly the finite ones given |
| Breaker.Retry | tool/middleware.go:223-246 | stops at the first attempt that works or is not worth repeating, at the last allowed, or in an interrupted sleep; one attempt if the tool does not retry |
| Breaker.CircuitBreaker.Check | tool/middleware.go:322-335 | a call is rejected if and only if the latest trip, with no success since, is less than a cooldown ago |
| Breaker.CircuitBreaker.Record | tool/middleware.go:339-359 | the two fields keep refining the history of verdicts |
| Breaker.CircuitBreaker.Call | tool/middleware.go:305-363 | one call through breaker and retry leaves at most one event, whatever the number of attempts: a success if and only if the last attempt worked, nothing about the tool if and only if it failed in a dead run, by the caller's fault or before a cancelled sleep |
| Breaker.ExcusedChangesNothing | tool/middleware.go:339-347 | caller faults and cancelled calls neither count nor forgive |
| Breaker.OpensOnlyAtThreshold | tool/middleware.go:272-276 | no rejection before threshold faults without a success |
| Breaker.QuietWhileOpen | tool/middleware.go:272-276 | for calls one after another, nothing reaches the tool for a whole cooldown after each trip |
| Breaker.EventStep | tool/middleware.go:349-359 | the counter is the number of faults since the last success, modulo the threshold |
| Breaker.FaultsCounted | tool/middleware.go:349-359 | that number is the faults in the history that no success came after |
| Breaker.OpenExact | tool/middleware.go:322-335 | the breaker is open if and only if the latest trip, with no success since, is less than a cooldown ago |
| Governor.Budget.Step | governor/governor.go:146-153 | one step, and the cancellation it causes |
| Governor.Budget.AddCall | governor/governor.go:129-143 | spend, and the cancellation it causes |
| Governor.Budget.AddToolCall | governor/governor.go:159-180 | the count, the run of identical calls, and which of the two limits cancels first |
| Governor.Budget.EnterSubagent | governor/governor.go:193-201 | refuses exactly at the depth limit and never cancels |
| Governor.Budget.ExitSubagent | governor/governor.go:204-210 | undoes one entry |
| Governor.Budget.Abort | governor/governor.go:120-124 | only the first reason sticks |
| Governor.RunIsLongest | governor/governor.go:159-180 | the repeat counter is the length of the longest run of one key at the end of the log |
| Governor.UnderLimits | governor/governor.go:129-180 | while a run is not cancelled every tally is below its limit |
| Governor.CauseExact | governor/governor.go:120-180 | a run is cancelled for a reason if and only if that is its first breach: spend, steps, calls or a run of identical calls at its limit, or an end from outside |
| Governor.IterationsBounded | run.go:380-384 | however a parent and its sub-agents interleave on one budget, at most Steps - 1 iterations pass the step check |
| Governor.AloneGetsAllButOne | run.go:370-393 | an agent alone and under no other limit gets exactly that many |
| Approvals.OneVerdictEach | httpapi/approvals.go:29-158 | under any interleaving every channel gets at most one value, distinct calls wait on distinct channels, and a closed queue is empty |
| Approvals.SecondResolve | httpapi/approvals.go:93-107 | an answered call stays answered until it is parked again |
| Approvals.ClosedForGood | httpapi/approvals.go:144-158 | after close nothing waits and nothing can be parked, whatever happens |
| Approvals.ApprovedByAnswer | httpapi/approvals.go:93-107 | a call is let through only by a human's answer to that very question |
| Approvals.NobodyLeftBehind | httpapi/approvals.go:84-158 | a parked call waits, has a verdict, or its own waiter gave up |
| Approvals.ReleasedOneByOne | httpapi/approvals.go:152-158 | releasing everything is denying the waiters one by one, in any order |
| Approvals.ApprovalQueue.Register | httpapi/approvals.go:53-77 | a fresh channel, or the refusal of a closed queue or a duplicate |
| Approvals.ApprovalQueue.Resolve | httpapi/approvals.go:93-107 | delivers once; the send finds its slot free |
| Approvals.ApprovalQueue.Forget | httpapi/approvals.go:84-90 | drops the wait only of the channel it was given |
| Approvals.ApprovalQueue.Release | httpapi/approvals.go:152-158 | the loop denies every waiter without blocking |
| Approvals.ApprovalQueue.Finish | httpapi/approvals.go:193-211 | a woken waiter returns the one value its channel got |
| Skill.State.Reconcile | skill/bind.go:119-136 | retires exactly the skills whose body is gone, and none that was activated under the empty id |
| Skill.State.Visible | skill/bind.go:76-91 | base order, open gates only, then the two meta tools |
| Skill.OfferedIsOpened | skill/bind.go:76-91 | what is offered is the base without the tools whose gate is closed, in its order |
| Skill.State.LoadSkill | skill/tools.go:85-128 | the body once, a stub while active, an error for an unknown name |
| Skill.State.UnloadSkill | skill/tools.go:154-175 | retires an active skill and reports the other cases |
| Skill.State.Run | skill/bind.go:150-166 | a call of a gated tool is refused while its skill is inactive, and a meta tool never |
| Skill.ObservationsIn | run.go:685-695 | the ids answered in a materialized request |
| SkillRun.PresentIsAnswers | run.go:685-695 | the observations the run laws reconcile with are those ids |
| Skill.ActivationsAreLoads | skill/tools.go:97-121 | every activation rests on a load that answered with the body |
| Skill.SurfaceFollowsContext | skill/bind.go:76-136 | the state machine on its own: after any rounds of loads, unloads and observations a gated tool is visible if and only if its skill is active and the call that activated it is still observed or has the empty id |
| Skill.StubIsTruthful | skill/tools.go:97-112 | the state machine on its own: a stub is given only if the call that activated the skill is still observed or has the empty id, or an earlier call of the same reply brought the body in |
| Survive.SparedIsHeld | strategy.go:82-385 | a result is in what any nesting of strategies makes of a transcript if and only if it was there and every strategy on the way spares it |
| SkillRun.SurfaceOverRun | run.go:431-442 | in every iteration of every run with fresh replies a gated tool is offered if and only if a load that reached its handler earlier in the run activated its skill, and the result of that very load is in what the strategy made of the transcript or its id is empty; ungated tools always are |
| SkillRun.DispatchedExact | run.go:587-602 | the calls that reach the skills are those of the replies that neither end nor suspend the run, in order |
| SkillOrder.SurfaceAnyOrder | skill/tools.go:97-121 | the same however parallel workers interleave, with the look at the state and the change of it as two steps of a load or an unload |
| SkillOrder.RacingLoads | skill/tools.go:97-121 | two workers that load one skill at once may both answer with its body; the one that acts last carries the activation |
| SkillOrder.DefaultOrder | tool/dispatch.go:103-119 | calls dispatched one after another are one such interleaving, and give the activations of the sequential laws |
| SkillRun.StubOverRun | skill/tools.go:97-112 | when a run answers a load with the stub, the full body is in what the strategy made of the transcript for this reply, or in the result of an earlier call of it, if and only if it survives truncation, unless the load that brought it in has the empty id |
| SkillRun.LoadGetsBody | tool/middleware.go:532-555 | a load answered with the body has the clipped body in its result, and the full body if and only if that survives truncation |
| SkillRun.BodyIsResult | run.go:431-442 | the full body of an earlier load is in what the strategy made of the transcript if and only if the result of that load is and the body survives truncation |
| SkillRun.OfferedHasBody | run.go:431-442 | behind each offered gated tool the strategy left the full body of its skill if and only if that survives truncation, unless the load has the empty id |
| SkillRun.IterateAppends | run.go:406-619 | which blocks an iteration adds to the transcript |
| SkillRun.OfferedBodyOnWire | overflow.go:51-116 | in each attempt that an iteration sends, the full body behind an offered gated tool is there if and only if it survives truncation and no rung in use evicts it |
| SkillRun.BodyOnWire | overflow.go:51-116 | the same for whatever load made a skill active, stubs included: it is there if and only if the strategy left it and the rung in use, if any, spares it |
| SkillRun.ResultOnWire | overflow.go:51-116 | a result is in an attempt that an iteration sends if and only if the strategy left it and the rung in use, if any, spares it |
| SkillRun.OfferedResultOnWire | overflow.go:51-116 | whatever middlewares made of a load, its result is in the attempt that offers its tool if and only if no rung in use evicts it, unless it has the empty id |
| SkillOverflow.OverflowRungMayEvict | overflow.go:51-88 | for any body and id, a whole run that loads a skill, is rejected for its size and resends without the body, while the tool of that skill is offered with the request |
| SkillEdges.BlockedLoadOpensNothing | tool/middleware.go:322-334 | for any answer a middleware gives in place of the handler of a load: the tool is not offered and the next load gets the body |
| SkillEdges.CutBodyIsStubbed | tool/middleware.go:532-555 | for every body that truncation cuts, a run that offers the tool and answers a second load with the stub while the full body is not in the request |
| SkillEdges.DefaultLimitCuts | agent.go:57 | 70 000 bytes are such a body under the default limit |
| SkillEdges.NoIdIsNeverRetired | skill/bind.go:119-136 | for any body, a run whose load has the empty id: the body is evicted, the tool stays offered and a second load gets the stub |

## Assumptions

- Provider replies are fresh (see Vocabulary), and a provider, a tool, the clock
  and cancellation are arbitrary functions or arguments of a step.
- A compactor is a function of the messages it is given.
- `Serves`, where a law names bodies: a load whose handler ran and answered with
  the body keeps that answer but for truncation. Of the default chain
  (`agent.go:433-450`) no other layer alters an answer without an error. Text is
  one character for each byte there.
- Request hashes of the tape are injective. `SessionTapes`,
  `SessionsSequential`, `ReopenReplays` and `ReplayIsFaithful` assume that every
  append succeeds; `TapeOrder.dfy` does not.
- Numbers are unbounded integers, and spend, rewards and metric values are reals.

## Left out

- Roles other than user and assistant: `Validate`'s unknown-role case cannot be
  expressed with a two-value role.
- Error texts: a fault of `Validate`, a run or a tool is a constructor, not a
  message.
- Custom `Strategy`, `Dispatcher` and tool set implementations: only the shipped
  ones are modelled.
- Forced tool choice, usage accounting, metrics, spans and log lines of the loop:
  they do not touch the transcript.
- Panic recovery and stack text: a panic of a tool is one of its outcomes.
- HTTP routing, event framing, provider encoders and decoders: wire plumbing.
- JSON, hashing, file I/O and parse errors of the tape: a tape file is a sequence
  of entries.
- Breaker.CircuitBreaker.Call: check and record are one step, so other calls of the
  same tool in between are not modelled; `Check` and `Record` have contracts of their own.
- Backoff delays and jitter of the retry: only whether a sleep was interrupted.
- The validation, timeout, deduplication, truncation and logging middlewares:
  single-branch wrappers, except for the clipping the truncation uses.
- Gauges and the registry index: `Set` and `Add` of a gauge share the lookup
  proved for counters.
- Infinite metric values: a float is a real or NaN.
- Metric.Counter.Add: does not model infinite amounts, because amounts are reals;
  `MetricSteps.dfy` takes it apart for concurrent calls.
- Metric.HistogramSeries.Observe: does not model infinite values, because values
  are reals.
- Metric.NormalizeBuckets: does not model a bound of minus infinity, which the
  source keeps, because bounds are reals.
- Token tallies and progress text of the budget.
- Waiting itself in `approve`: a waiter is modelled from the moment it wakes.
- The listing order of pending approvals and of active skills.
- Trimming of the skill name, the wording of footers, stubs and errors, and the
  tags of loads: the footer is a function of the skill and the active ones.
- SkillRun.SurfaceOverRun: the loads and unloads of one reply take effect in call
  order, which is the dispatcher's default; `SkillOrder.SurfaceAnyOrder` is the
  law for `WithParallelism`.
- SkillRun.StubOverRun: speaks of call order too, because racing loads of one skill
  may each answer with the body (`SkillOrder.RacingLoads`); no law covers stubs under `WithParallelism`.
- What makes a middleware answer a call itself: `reached` is an input of each
  dispatch.
- Sub-agents that share a parent's skill state: one state per run.
- Session.Session.Close: does not cancel the run in flight or shut the approval
  queue; the first is an input of the run (`cancelled`), the second is
  `Approvals.ClosedForGood`. It does not wait for the pump.
- Reaping of idle sessions: the idle check and the close are separate steps.
- Permission rules, approver prose, shell parsing, benchmarks, commands and the
  web client.
