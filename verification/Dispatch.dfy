/** Executing a batch of tool calls (`tool/dispatch.go`): whatever the tools do
    and in whatever order the workers run, one result per call in input order. */
module Dispatch {
  import opened Llm

  /** What the handler chain did with one call. */
  datatype CallOutcome =
    | Returned(output: string, tags: seq<string>)
    | Errored(partial: string, message: string, tags: seq<string>)
    | Panicked(message: string)

  datatype Result = Result(useId: Id, name: string, output: string, err: Option<string>, tags: seq<string>)

  const UNKNOWN_TOOL := "tool: unknown tool"

  function ResultBlock(r: Result): Block {
    match r.err
    case Some(message) => ToolResult(r.useId, message, true)
    case None => ToolResult(r.useId, r.output, false)
  }

  function ResultBlocks(rs: seq<Result>): seq<Block> {
    seq(|rs|, i requires 0 <= i < |rs| => ResultBlock(rs[i]))
  }

  /** The result of call `use`; `known` names the tools of the set. */
  function ResultOf(use: Block, known: set<string>, outcome: CallOutcome): Result
    requires use.ToolUse?
  {
    if use.name !in known then Result(use.id, use.name, "", Some(UNKNOWN_TOOL), [])
    else
      match outcome
      case Returned(output, tags) => Result(use.id, use.name, output, None, tags)
      case Errored(partial, message, tags) => Result(use.id, use.name, partial, Some(message), tags)
      case Panicked(message) => Result(use.id, use.name, "", Some(message), [])
  }

  predicate AllUses(uses: seq<Block>) {
    forall i :: 0 <= i < |uses| ==> uses[i].ToolUse?
  }

  function Dispatched(uses: seq<Block>, known: set<string>, outcomes: nat -> CallOutcome): seq<Result>
    requires AllUses(uses)
  {
    seq(|uses|, i requires 0 <= i < |uses| => ResultOf(uses[i], known, outcomes(i)))
  }

  /** Result `r` and block `b` report what became of call `use`: an unknown tool
      and a failed call are told as errors, a failed call keeps its partial output
      out of the block, and a panic keeps nothing but its message. */
  ghost predicate Reports(use: Block, known: set<string>, outcome: CallOutcome, r: Result, b: Block)
    requires use.ToolUse?
  {
    && r.useId == use.id && r.name == use.name
    && if use.name !in known then
         r.output == "" && r.tags == [] && b == ToolResult(use.id, "tool: unknown tool", true)
       else
         match outcome
         case Returned(output, tags) => r.output == output && r.tags == tags && b == ToolResult(use.id, output, false)
         case Errored(partial, message, tags) => r.output == partial && r.tags == tags && b == ToolResult(use.id, message, true)
         case Panicked(message) => r.output == "" && r.tags == [] && b == ToolResult(use.id, message, true)
  }

  /** So does every result of a batch, for its own call. */
  ghost predicate BatchReports(uses: seq<Block>, known: set<string>, outcomes: nat -> CallOutcome,
                               results: seq<Result>, blocks: seq<Block>)
    requires AllUses(uses)
  {
    && |results| == |blocks| == |uses|
    && forall i :: 0 <= i < |uses| ==> Reports(uses[i], known, outcomes(i), results[i], blocks[i])
  }

  lemma DispatchReports(uses: seq<Block>, known: set<string>, outcomes: nat -> CallOutcome)
    requires AllUses(uses)
    ensures var results := Dispatched(uses, known, outcomes);
            BatchReports(uses, known, outcomes, results, ResultBlocks(results))
  {
  }

  /** Runs the calls in the order the workers happen to take them. */
  method DispatchBatch(uses: seq<Block>, known: set<string>, outcomes: nat -> CallOutcome, order: seq<nat>) returns (results: seq<Result>)
    requires AllUses(uses)
    requires forall k :: 0 <= k < |order| ==> order[k] < |uses|
    requires forall i :: 0 <= i < |uses| ==> i in order
    ensures results == Dispatched(uses, known, outcomes)
    ensures BatchReports(uses, known, outcomes, results, ResultBlocks(results))
  {
    var out := new Result[|uses|](_ => Result(Id(""), "", "", None, []));
    var k := 0;
    while k < |order|
      invariant 0 <= k <= |order|
      invariant forall i :: 0 <= i < |uses| && i in order[..k] ==> out[i] == ResultOf(uses[i], known, outcomes(i))
    {
      var i := order[k];
      var use := uses[i];
      out[i] := Result(use.id, use.name, "", None, []);
      if use.name !in known {
        out[i] := out[i].(err := Some(UNKNOWN_TOOL));
      } else {
        match outcomes(i) {
          case Returned(output, tags) => out[i] := out[i].(output := output, tags := tags);
          case Errored(partial, message, tags) => out[i] := out[i].(output := partial, err := Some(message), tags := tags);
          case Panicked(message) => out[i] := out[i].(output := "", err := Some(message));
        }
      }
      assert order[..k + 1] == order[..k] + [i];
      k := k + 1;
    }
    assert order[..k] == order;
    results := out[..];
    DispatchReports(uses, known, outcomes);
  }

  lemma DispatchSnoc(uses: seq<Block>, use: Block, known: set<string>, outcomes: nat -> CallOutcome)
    requires AllUses(uses) && use.ToolUse?
    ensures AllUses(uses + [use])
    ensures var blocks := ResultBlocks(Dispatched(uses + [use], known, outcomes));
            && |blocks| == |uses| + 1
            && Front(blocks) == ResultBlocks(Dispatched(uses, known, outcomes))
            && Last(blocks).ToolResult? && Last(blocks).useId == use.id
  {
    var blocks := ResultBlocks(Dispatched(uses + [use], known, outcomes));
    var before := ResultBlocks(Dispatched(uses, known, outcomes));
    forall i | 0 <= i < |uses|
      ensures blocks[i] == before[i]
    {
      assert (uses + [use])[i] == uses[i];
    }
    assert Front(blocks) == before;
    var all := uses + [use];
    assert all[|uses|] == use;
    var last := ResultOf(use, known, outcomes(|uses|));
    assert Dispatched(all, known, outcomes)[|uses|] == last && last.useId == use.id;
    assert Last(blocks) == ResultBlock(last);
  }

  /** The blocks of a dispatch answer exactly the calls of the reply, in order. */
  lemma {:induction false} DispatchAnswers(bs: seq<Block>, known: set<string>, outcomes: nat -> CallOutcome)
    ensures AllUses(ToolUses(bs))
    ensures var blocks := ResultBlocks(Dispatched(ToolUses(bs), known, outcomes));
            && Answers(blocks) == Asks(bs) && Asks(blocks) == multiset{}
            && |blocks| == |ToolUses(bs)|
  {
    ToolUsesIds(bs);
    if bs != [] {
      DispatchAnswers(Front(bs), known, outcomes);
      if Last(bs).ToolUse? {
        DispatchSnoc(ToolUses(Front(bs)), Last(bs), known, outcomes);
      }
    }
  }
}
