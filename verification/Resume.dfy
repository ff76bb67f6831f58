/** Seeding a run from a saved transcript: `AnswerPause`, `Then`, `PendingPause`
    and `Resume` of `run.go`. */
module Resume {
  import opened Llm
  import opened Convo

  const NOT_RUN := "not run: the agent stopped to ask the user before this call was dispatched"

  /** The answer for `id`, and an error for every other open call. */
  function AnswerFor(p: Id, id: Id, answer: string): Block {
    if p == id then ToolResult(p, answer, false) else ToolResult(p, NOT_RUN, true)
  }

  function AnswersFor(pending: seq<Id>, id: Id, answer: string): seq<Block> {
    if pending == [] then [] else AnswersFor(Front(pending), id, answer) + [AnswerFor(Last(pending), id, answer)]
  }

  /** Answers the call the model paused on and closes its siblings. An id that is
      not pending is answered all the same, so that `Validate` reports it. */
  function AnswerPause(prior: Transcript, id: Id, answer: string): Transcript {
    var pending := DanglingIds(prior);
    var blocks := AnswersFor(pending, id, answer);
    PushToolResults(prior, if id in pending then blocks else blocks + [ToolResult(id, answer, false)])
  }

  /** Appends an instruction, cancelling whatever is open. */
  function Then(prior: Transcript, instruction: string): Transcript {
    if DanglingIds(prior) != [] then CloseDangling(prior, "(cancelled)", [Text(instruction)])
    else PushUserText(prior, instruction)
  }

  /** The first tool_use naming one of `names`. */
  function FindUse(names: set<string>, uses: seq<Block>): Option<Block> {
    if uses == [] then None
    else if uses[0].ToolUse? && uses[0].name in names then Some(uses[0])
    else FindUse(names, uses[1..])
  }

  function UseId(b: Block): Id {
    if b.ToolUse? then b.id else Id("")
  }

  /** The pause tool the transcript is suspended on, if any; `pauses` names the
      tools that suspend a run. */
  function PendingPause(prior: Transcript, pauses: set<string>): Option<Id> {
    if prior == [] || DanglingIds(prior) == [] || Last(prior).role != Assistant then None
    else
      match FindUse(pauses, ToolUses(Last(prior).content))
      case Some(use) => Some(UseId(use))
      case None => None
  }

  function Resumed(prior: Transcript, instruction: string, pauses: set<string>): Transcript {
    if instruction == "" then prior
    else
      match PendingPause(prior, pauses)
      case Some(id) => AnswerPause(prior, id, instruction)
      case None => Then(prior, instruction)
  }

  // ----- laws -----

  lemma {:induction false} AnswersForBlocks(pending: seq<Id>, id: Id, answer: string)
    ensures var bs := AnswersFor(pending, id, answer);
            && |bs| == |pending|
            && forall k :: 0 <= k < |bs| ==>
                 bs[k] == if pending[k] == id then ToolResult(id, answer, false) else ToolResult(pending[k], NOT_RUN, true)
  {
    if pending != [] {
      AnswersForBlocks(Front(pending), id, answer);
    }
  }

  /** Blocks that answer a list of calls one by one answer those calls. */
  lemma {:induction false} OneByOne(pending: seq<Id>, bs: seq<Block>)
    requires |bs| == |pending| && forall k :: 0 <= k < |bs| ==> bs[k].ToolResult? && bs[k].useId == pending[k]
    ensures Answers(bs) == multiset(pending) && Asks(bs) == multiset{}
  {
    if pending != [] {
      OneByOne(Front(pending), Front(bs));
      assert pending == Front(pending) + [Last(pending)];
    }
  }

  lemma AnswersForMeaning(pending: seq<Id>, id: Id, answer: string)
    ensures var bs := AnswersFor(pending, id, answer);
            && |bs| == |pending|
            && Answers(bs) == multiset(pending) && Asks(bs) == multiset{}
            && forall k :: 0 <= k < |bs| ==>
                 bs[k] == if pending[k] == id then ToolResult(id, answer, false) else ToolResult(pending[k], NOT_RUN, true)
  {
    AnswersForBlocks(pending, id, answer);
    OneByOne(pending, AnswersFor(pending, id, answer));
  }

  /** Answering a pause yields a valid transcript exactly when the id is one of
      the open calls: its siblings are closed with it. */
  lemma AnswerPauseExact(prior: Transcript, id: Id, answer: string)
    requires Resumable(prior)
    ensures Valid(AnswerPause(prior, id, answer)) <==> id in Uses(Last(prior).content)
  {
    var pending := DanglingIds(prior);
    DanglingExact(prior);
    UsesCount(Last(prior).content);
    AnswersForMeaning(pending, id, answer);
    var blocks, extra := AnswersFor(pending, id, answer), ToolResult(id, answer, false);
    if id in pending {
      assert |blocks| > 0;
      PushAnswersExact(prior, blocks);
    } else {
      assert Front(blocks + [extra]) == blocks && Last(blocks + [extra]) == extra;
      assert Answers(blocks + [extra]) == multiset(pending) + multiset{id};
      SumUnchanged(multiset(pending), multiset{id});
      PushAnswersExact(prior, blocks + [extra]);
    }
  }

  /** `bs` answers the open call `id` with `answer` and tells of every other open
      call that it was not run; an id that is not open is answered behind them. */
  ghost predicate AnswersOpen(open: seq<Id>, id: Id, answer: string, bs: seq<Block>) {
    && |bs| == |open| + (if id in open then 0 else 1)
    && (forall k :: 0 <= k < |open| && open[k] == id ==> bs[k] == ToolResult(id, answer, false))
    && (forall k :: 0 <= k < |open| && open[k] != id ==> bs[k] == ToolResult(open[k], NOT_RUN, true))
    && (id !in open ==> Last(bs) == ToolResult(id, answer, false))
  }

  /** `bs` cancels every open call and goes on with `text`. */
  ghost predicate CancelsOpen(open: seq<Id>, text: string, bs: seq<Block>) {
    && |bs| == |open| + 1
    && (forall k :: 0 <= k < |open| ==> bs[k] == ToolResult(open[k], "(cancelled)", false))
    && Last(bs) == Text(text)
  }

  /** Exactly what answering a pause adds. */
  lemma AnswerPauseAdds(prior: Transcript, id: Id, answer: string) returns (bs: seq<Block>)
    requires Resumable(prior)
    ensures Blocks(AnswerPause(prior, id, answer)) == Blocks(prior) + bs
    ensures AnswersOpen(Uses(Last(prior).content), id, answer, bs)
  {
    var pending := DanglingIds(prior);
    DanglingExact(prior);
    AnswersForMeaning(pending, id, answer);
    var blocks := AnswersFor(pending, id, answer);
    bs := if id in pending then blocks else blocks + [ToolResult(id, answer, false)];
    AppendBlocks(prior, Message(User, bs));
  }

  /** Exactly what a new instruction adds. */
  lemma ThenAdds(prior: Transcript, instruction: string) returns (bs: seq<Block>)
    requires Resumable(prior)
    ensures Blocks(Then(prior, instruction)) == Blocks(prior) + bs
    ensures CancelsOpen(Uses(Last(prior).content), instruction, bs)
  {
    var pending := DanglingIds(prior);
    DanglingExact(prior);
    AcksAnswer(pending, "(cancelled)");
    bs := Acks(pending, "(cancelled)") + [Text(instruction)];
    AppendBlocks(prior, Message(User, bs));
    assert pending == [] ==> bs == [Text(instruction)];
  }

  /** A new instruction always yields a valid transcript. */
  lemma ThenValid(prior: Transcript, instruction: string)
    requires Resumable(prior)
    ensures Valid(Then(prior, instruction))
  {
    var text := [Text(instruction)];
    DanglingExact(prior);
    UsesCount(Last(prior).content);
    TextOnly(instruction);
    if DanglingIds(prior) != [] {
      CloseDanglingValid(prior, "(cancelled)", text);
    } else {
      PushAnswersExact(prior, text);
    }
  }

  /** Call `i` is the first of `uses` that names one of `names`. */
  predicate FirstNamed(names: set<string>, uses: seq<Block>, i: nat) {
    && i < |uses| && uses[i].ToolUse? && uses[i].name in names
    && forall j :: 0 <= j < i && uses[j].ToolUse? ==> uses[j].name !in names
  }

  lemma {:induction false} FindUseFirst(names: set<string>, uses: seq<Block>)
    ensures match FindUse(names, uses)
            case Some(use) => exists i: nat :: FirstNamed(names, uses, i) && uses[i] == use
            case None => forall i :: 0 <= i < |uses| && uses[i].ToolUse? ==> uses[i].name !in names
  {
    if uses != [] && !(uses[0].ToolUse? && uses[0].name in names) {
      FindUseFirst(names, uses[1..]);
      if FindUse(names, uses).Some? {
        var i: nat :| FirstNamed(names, uses[1..], i) && uses[1..][i] == FindUse(names, uses).value;
        assert FirstNamed(names, uses, i + 1) && uses[i + 1] == uses[1..][i];
      } else {
        assert forall i :: 0 < i < |uses| ==> uses[i] == uses[1..][i - 1];
      }
    } else if uses != [] {
      assert FirstNamed(names, uses, 0);
    }
  }

  lemma FindUseMember(names: set<string>, uses: seq<Block>)
    ensures FindUse(names, uses).Some? ==>
              && FindUse(names, uses).value in uses
              && FindUse(names, uses).value.ToolUse? && FindUse(names, uses).value.name in names
  {
    FindUseFirst(names, uses);
  }

  /** What is reported is the first open call to a pausing tool; nothing is
      reported exactly when no open call is to one. */
  lemma PendingPauseIsOpen(prior: Transcript, pauses: set<string>)
    requires Resumable(prior)
    ensures var uses := ToolUses(Last(prior).content);
            match PendingPause(prior, pauses)
            case Some(id) =>
              && id in Uses(Last(prior).content)
              && exists i: nat :: FirstNamed(pauses, uses, i) && uses[i].id == id
            case None => forall i :: 0 <= i < |uses| && uses[i].ToolUse? ==> uses[i].name !in pauses
  {
    var uses := ToolUses(Last(prior).content);
    DanglingExact(prior);
    ToolUsesIds(Last(prior).content);
    FindUseFirst(pauses, uses);
    if Last(prior).role.User? {
      assert Placed(Last(prior));
      UsesCount(Last(prior).content);
    }
    if PendingPause(prior, pauses).Some? {
      var i: nat :| FirstNamed(pauses, uses, i) && uses[i] == FindUse(pauses, uses).value;
      assert Uses(Last(prior).content)[i] == uses[i].id;
    }
  }

  /** Resuming any resumable transcript with an instruction starts from a valid
      one; with none, exactly when nothing is open. */
  lemma ResumedValid(prior: Transcript, instruction: string, pauses: set<string>)
    requires Resumable(prior)
    ensures instruction != "" ==> Valid(Resumed(prior, instruction, pauses))
    ensures instruction == "" ==> (Valid(Resumed(prior, instruction, pauses)) <==> DanglingIds(prior) == [])
  {
    DanglingExact(prior);
    UsesCount(Last(prior).content);
    match PendingPause(prior, pauses)
    case Some(id) =>
      PendingPauseIsOpen(prior, pauses);
      AnswerPauseExact(prior, id, instruction);
    case None => ThenValid(prior, instruction);
  }

  /** An instruction answers the first open call to a pausing tool if there is
      one, and cancels what is open otherwise; without one nothing is added. */
  lemma ResumedAdds(prior: Transcript, instruction: string, pauses: set<string>) returns (bs: seq<Block>)
    requires Resumable(prior)
    ensures instruction == "" ==> Resumed(prior, instruction, pauses) == prior
    ensures instruction != "" ==> Blocks(Resumed(prior, instruction, pauses)) == Blocks(prior) + bs
    ensures var open, uses := Uses(Last(prior).content), ToolUses(Last(prior).content);
            instruction != "" ==>
              && (forall i: nat :: FirstNamed(pauses, uses, i) ==>
                    AnswersOpen(open, uses[i].id, instruction, bs) && ToolResult(uses[i].id, instruction, false) in bs)
              && ((forall i: nat :: !FirstNamed(pauses, uses, i)) ==> CancelsOpen(open, instruction, bs))
  {
    bs := [];
    if instruction != "" {
      var open, uses := Uses(Last(prior).content), ToolUses(Last(prior).content);
      PendingPauseIsOpen(prior, pauses);
      match PendingPause(prior, pauses) {
        case Some(id) =>
          bs := AnswerPauseAdds(prior, id, instruction);
          var i: nat :| FirstNamed(pauses, uses, i) && uses[i].id == id;
          var k :| 0 <= k < |open| && open[k] == id;
          assert bs[k] == ToolResult(id, instruction, false);
          forall j: nat | FirstNamed(pauses, uses, j)
            ensures j == i
          {
          }
        case None =>
          bs := ThenAdds(prior, instruction);
      }
    }
  }

  /** Seeding keeps user turns filled. */
  lemma SeedsFilled(prior: Transcript, id: Id, text: string)
    requires UserTurnsFilled(prior)
    ensures UserTurnsFilled(AnswerPause(prior, id, text)) && UserTurnsFilled(Then(prior, text))
  {
    var pending := DanglingIds(prior);
    var blocks := AnswersFor(pending, id, text);
    AppendFilled(prior, Message(User, if id in pending then blocks else blocks + [ToolResult(id, text, false)]));
    AppendFilled(prior, Message(User, Acks(pending, "(cancelled)") + [Text(text)]));
    AppendFilled(prior, UserText(text));
  }
}
