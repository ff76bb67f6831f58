/** The provider-neutral vocabulary of `llm/llm.go`: roles, content blocks and
    messages, with the projections that the transcript protocol is stated in. */
module Llm {

  /** A named type in the source too: a tool name must not pass for a use id. */
  datatype Id = Id(key: string)

  datatype Role = User | Assistant

  datatype Block =
    | Text(text: string)
    | ToolUse(id: Id, name: string, input: string)
    | ToolResult(useId: Id, content: string, isError: bool)
    | Thinking(thought: string, signature: string)

  datatype Message = Message(role: Role, content: seq<Block>)

  datatype Option<+T> = None | Some(value: T)

  function Front<T>(s: seq<T>): seq<T>
    requires s != []
  {
    s[..|s| - 1]
  }

  function Last<T>(s: seq<T>): T
    requires s != []
  {
    s[|s| - 1]
  }

  function UserText(s: string): Message {
    Message(User, [Text(s)])
  }

  /** The ids of the tool_use blocks of `bs`, counted. */
  ghost function Asks(bs: seq<Block>): multiset<Id> {
    if bs == [] then multiset{}
    else if Last(bs).ToolUse? then Asks(Front(bs)) + multiset{Last(bs).id}
    else Asks(Front(bs))
  }

  /** The ids answered by the tool_result blocks of `bs`, counted. */
  ghost function Answers(bs: seq<Block>): multiset<Id> {
    if bs == [] then multiset{}
    else if Last(bs).ToolResult? then Answers(Front(bs)) + multiset{Last(bs).useId}
    else Answers(Front(bs))
  }

  /** The tool_use blocks themselves, in order. */
  function ToolUses(bs: seq<Block>): seq<Block> {
    if bs == [] then []
    else if Last(bs).ToolUse? then ToolUses(Front(bs)) + [Last(bs)]
    else ToolUses(Front(bs))
  }

  /** The ids of the tool_use blocks, in order. */
  function Uses(bs: seq<Block>): seq<Id> {
    if bs == [] then []
    else if Last(bs).ToolUse? then Uses(Front(bs)) + [Last(bs).id]
    else Uses(Front(bs))
  }

  /** All blocks of a transcript, in order, forgetting the turn boundaries. */
  function Blocks(c: seq<Message>): seq<Block> {
    if c == [] then [] else Blocks(Front(c)) + Last(c).content
  }

  /** Every tool_use id of a transcript. */
  ghost function AllAsks(c: seq<Message>): multiset<Id> {
    Asks(Blocks(c))
  }

  /** No id occurs twice. */
  ghost predicate Distinct(ids: multiset<Id>) {
    forall id :: ids[id] <= 1
  }

  /** `s` is the set of ids that occur in `ids`. */
  ghost predicate SetOf(s: set<Id>, ids: multiset<Id>) {
    forall id :: id in s <==> id in ids
  }

  lemma SetOfEmpty(s: set<Id>, ids: multiset<Id>)
    requires SetOf(s, ids)
    ensures s == {} <==> ids == multiset{}
  {
    assert ids == multiset{} || exists id :: id in ids;
  }

  lemma DistinctAdd(ids: multiset<Id>, id: Id)
    ensures Distinct(ids + multiset{id}) <==> Distinct(ids) && id !in ids
  {
    var sum := ids + multiset{id};
    assert forall x :: sum[x] == ids[x] + if x == id then 1 else 0;
    assert sum[id] == ids[id] + 1;
  }

  lemma DistinctParts(a: multiset<Id>, b: multiset<Id>)
    ensures Distinct(a + b) ==> Distinct(a) && Distinct(b) && forall id :: !(id in a && id in b)
  {
    assert forall x :: (a + b)[x] == a[x] + b[x];
  }

  /** Text neither asks nor answers. */
  lemma TextOnly(s: string)
    ensures Asks([Text(s)]) == multiset{} && Answers([Text(s)]) == multiset{}
  {
    var bs := [Text(s)];
    assert Front(bs) == [];
    assert Asks(Front(bs)) == multiset{} && Answers(Front(bs)) == multiset{};
  }

  // ----- projections distribute over concatenation -----

  lemma {:induction false} AsksAppend(a: seq<Block>, b: seq<Block>)
    ensures Asks(a + b) == Asks(a) + Asks(b)
    ensures Answers(a + b) == Answers(a) + Answers(b)
  {
    if b == [] {
      assert a + b == a;
    } else {
      AsksAppend(a, Front(b));
      assert Front(a + b) == a + Front(b) && Last(a + b) == Last(b);
      if Last(b).ToolUse? {
        var one := multiset{Last(b).id};
        assert Asks(a) + Asks(Front(b)) + one == Asks(a) + (Asks(Front(b)) + one);
      } else if Last(b).ToolResult? {
        var one := multiset{Last(b).useId};
        assert Answers(a) + Answers(Front(b)) + one == Answers(a) + (Answers(Front(b)) + one);
      }
    }
  }

  lemma {:induction false} BlocksAppend(a: seq<Message>, b: seq<Message>)
    ensures Blocks(a + b) == Blocks(a) + Blocks(b)
  {
    if b == [] {
      assert a + b == a;
    } else {
      BlocksAppend(a, Front(b));
      assert Front(a + b) == a + Front(b) && Last(a + b) == Last(b);
      assert Blocks(a) + Blocks(Front(b)) + Last(b).content == Blocks(a) + (Blocks(Front(b)) + Last(b).content);
    }
  }

  lemma AllAsksAppend(a: seq<Message>, b: seq<Message>)
    ensures AllAsks(a + b) == AllAsks(a) + AllAsks(b)
  {
    BlocksAppend(a, b);
    AsksAppend(Blocks(a), Blocks(b));
  }

  /** One more block: the loop step of every scan. */
  lemma ScanStep(bs: seq<Block>, j: nat)
    requires j < |bs|
    ensures Asks(bs[..j + 1]) == if bs[j].ToolUse? then Asks(bs[..j]) + multiset{bs[j].id} else Asks(bs[..j])
    ensures Answers(bs[..j + 1]) == if bs[j].ToolResult? then Answers(bs[..j]) + multiset{bs[j].useId} else Answers(bs[..j])
  {
    assert Front(bs[..j + 1]) == bs[..j];
  }

  /** A prefix of a turn asks and answers no more than the turn. */
  lemma PrefixWithin(bs: seq<Block>, j: nat)
    requires j <= |bs|
    ensures Asks(bs[..j]) <= Asks(bs) && Answers(bs[..j]) <= Answers(bs)
  {
    assert bs == bs[..j] + bs[j..];
    AsksAppend(bs[..j], bs[j..]);
  }

  /** One more turn. */
  lemma SnocBlocks(c: seq<Message>, m: Message)
    ensures Blocks(c + [m]) == Blocks(c) + m.content
    ensures AllAsks(c + [m]) == AllAsks(c) + Asks(m.content)
  {
    assert Front(c + [m]) == c;
    AsksAppend(Blocks(c), m.content);
  }

  lemma BlocksThree(x: Message, y: Message, z: Message)
    ensures Blocks([x, y, z]) == x.content + y.content + z.content
    ensures AllAsks([x, y, z]) == Asks(x.content) + Asks(y.content) + Asks(z.content)
  {
    SnocBlocks([], x);
    SnocBlocks([x], y);
    SnocBlocks([x, y], z);
    assert [] + [x] == [x] && [x] + [y] == [x, y] && [x, y] + [z] == [x, y, z];
    assert Blocks([]) + x.content == x.content;
  }

  lemma BlocksStep(c: seq<Message>, i: nat)
    requires i < |c|
    ensures Blocks(c[..i + 1]) == Blocks(c[..i]) + c[i].content
    ensures AllAsks(c[..i + 1]) == AllAsks(c[..i]) + Asks(c[i].content)
  {
    assert c[..i + 1] == c[..i] + [c[i]];
    SnocBlocks(c[..i], c[i]);
  }

  lemma PrefixAsksWithin(c: seq<Message>, i: nat)
    requires i <= |c|
    ensures AllAsks(c[..i]) + AllAsks(c[i..]) == AllAsks(c)
  {
    assert c == c[..i] + c[i..];
    AllAsksAppend(c[..i], c[i..]);
  }

  /** A turn's calls are part of the transcript's. */
  lemma {:induction false} TurnAsksWithin(c: seq<Message>, i: nat)
    requires i < |c|
    ensures Asks(c[i].content) <= AllAsks(c)
  {
    AsksAppend(Blocks(Front(c)), Last(c).content);
    if i < |c| - 1 {
      TurnAsksWithin(Front(c), i);
    }
  }

  /** The ordered list and the count agree. */
  lemma {:induction false} UsesCount(bs: seq<Block>)
    ensures multiset(Uses(bs)) == Asks(bs)
    ensures Uses(bs) == [] <==> Asks(bs) == multiset{}
  {
    if bs != [] {
      UsesCount(Front(bs));
      assert Last(bs).ToolUse? ==> Last(bs).id in Asks(bs);
    }
  }

  lemma UsesMembers(bs: seq<Block>)
    ensures forall id :: id in Uses(bs) <==> id in Asks(bs)
  {
    UsesCount(bs);
    assert forall id :: id in Uses(bs) <==> id in multiset(Uses(bs));
  }

  lemma {:induction false} ToolUsesIds(bs: seq<Block>)
    ensures |ToolUses(bs)| == |Uses(bs)|
    ensures forall i :: 0 <= i < |ToolUses(bs)| ==> ToolUses(bs)[i].ToolUse? && ToolUses(bs)[i].id == Uses(bs)[i]
  {
    if bs != [] {
      ToolUsesIds(Front(bs));
    }
  }

  lemma {:induction false} DistinctUses(bs: seq<Block>)
    requires Distinct(Asks(bs))
    ensures forall i, j :: 0 <= i < j < |Uses(bs)| ==> Uses(bs)[i] != Uses(bs)[j]
  {
    if bs != [] {
      if Last(bs).ToolUse? {
        DistinctAdd(Asks(Front(bs)), Last(bs).id);
        UsesMembers(Front(bs));
      }
      DistinctUses(Front(bs));
    }
  }
}
