/** The transcript protocol of `convo.go`: what a provider accepts, the check
    that decides it, and the operations that extend a transcript. */
module Convo {
  import opened Llm

  type Transcript = seq<Message>

  // ----- the protocol, declaratively -----

  /** Only the assistant calls tools, and only the user side answers. */
  ghost predicate Placed(m: Message) {
    && (m.role.User? ==> Asks(m.content) == multiset{})
    && (m.role.Assistant? ==> Answers(m.content) == multiset{})
  }

  /** Roles alternate, and the answers of `m` are a permutation of the calls of
      the turn before it. */
  ghost predicate Follows(prev: Message, m: Message) {
    m.role != prev.role && Answers(m.content) == Asks(prev.content)
  }

  ghost predicate Linked(c: Transcript, i: nat) {
    0 < i < |c| ==> Follows(c[i - 1], c[i])
  }

  /** Everything the protocol says about a run of consecutive turns. */
  ghost predicate Chained(c: Transcript) {
    && (forall i :: 0 <= i < |c| ==> Placed(c[i]))
    && (forall i: nat :: Linked(c, i))
    && Distinct(AllAsks(c))
  }

  /** The transcript opens with a user turn that answers nothing. */
  ghost predicate Opens(c: Transcript) {
    c != [] && c[0].role.User? && Answers(c[0].content) == multiset{}
  }

  /** Well-formed, except that the calls of the last turn may be open. */
  ghost predicate Resumable(c: Transcript) {
    Opens(c) && Chained(c)
  }

  /** What a provider accepts. */
  ghost predicate Valid(c: Transcript) {
    Resumable(c) && Asks(Last(c).content) == multiset{}
  }

  // ----- Validate -----

  datatype Fault = BlockInWrongRole | DuplicateToolUse | OrphanResult | LateResult

  /** Acceptance, or the first violation with its turn and block. */
  datatype Verdict =
    | Accepted
    | EmptyConvo
    | NotUserFirst
    | NotAlternating(turn: nat)
    | BadBlock(fault: Fault, id: Id, turn: nat, block: nat)
    | Unanswered(ids: set<Id>, turn: nat)
    | DanglingToolUse(ids: set<Id>)

  /** What turn `i` has to answer. */
  ghost function Asked(c: Transcript, i: nat): multiset<Id>
    requires i <= |c|
  {
    if i == 0 then multiset{} else Asks(c[i - 1].content)
  }

  /** Turn `i` may follow the turns before it. */
  ghost predicate MayFollow(c: Transcript, i: nat) {
    i < |c| && if i == 0 then c[0].role.User? else Resumable(c[..i]) && c[i].role != c[i - 1].role
  }

  /** The first `j` blocks of `m` break no rule, given the ids used in earlier
      turns and those the turn before asked. */
  ghost predicate SoundBlocks(m: Message, j: nat, used: multiset<Id>, asked: multiset<Id>) {
    && j <= |m.content|
    && var done := m.content[..j];
       && (m.role.User? ==> Asks(done) == multiset{})
       && (m.role.Assistant? ==> Answers(done) == multiset{})
       && Distinct(used + Asks(done))
       && Distinct(Answers(done))
       && Answers(done) <= asked
  }

  /** The ids asked and not yet answered. */
  ghost predicate OpenOf(open: set<Id>, asked: multiset<Id>, answered: multiset<Id>) {
    forall id :: id in open <==> id in asked && id !in answered
  }

  /** The rule that block `j` of `m` breaks. */
  ghost predicate Breaks(m: Message, j: nat, used: multiset<Id>, asked: multiset<Id>, fault: Fault, id: Id)
    requires j < |m.content|
  {
    var b, done := m.content[j], m.content[..j];
    match fault
    case BlockInWrongRole =>
      (b.ToolUse? && b.id == id && m.role.User?) || (b.ToolResult? && b.useId == id && m.role.Assistant?)
    case DuplicateToolUse =>
      b.ToolUse? && b.id == id && m.role.Assistant? && (id in used || id in Asks(done))
    case OrphanResult =>
      b.ToolResult? && b.useId == id && m.role.User? && id !in used
    case LateResult =>
      b.ToolResult? && b.useId == id && m.role.User? && id in used && (id !in asked || id in Answers(done))
  }

  /** Block `j` of `m` is the first of the turn to break a rule. */
  ghost predicate FirstFault(m: Message, j: nat, used: multiset<Id>, asked: multiset<Id>, fault: Fault, id: Id) {
    j < |m.content| && SoundBlocks(m, j, used, asked) && Breaks(m, j, used, asked, fault, id)
  }

  /** The meaning of each verdict on a transcript. */
  ghost predicate Judged(c: Transcript, v: Verdict) {
    match v
    case Accepted => Valid(c)
    case EmptyConvo => c == []
    case NotUserFirst => c != [] && c[0].role != User
    case NotAlternating(i) => 0 < i < |c| && Resumable(c[..i]) && c[i].role == c[i - 1].role
    case Unanswered(ids, i) =>
      && MayFollow(c, i) && SoundBlocks(c[i], |c[i].content|, AllAsks(c[..i]), Asked(c, i))
      && ids != {} && OpenOf(ids, Asked(c, i), Answers(c[i].content))
    case DanglingToolUse(ids) =>
      Resumable(c) && ids != {} && SetOf(ids, Asks(Last(c).content))
    case BadBlock(fault, id, i, j) =>
      MayFollow(c, i) && FirstFault(c[i], j, AllAsks(c[..i]), Asked(c, i), fault, id)
  }

  lemma ChainedStep(c: Transcript, i: nat)
    requires i < |c| && Placed(c[i]) && Distinct(AllAsks(c[..i + 1]))
    requires i > 0 ==> Chained(c[..i]) && Follows(c[i - 1], c[i])
    ensures Chained(c[..i + 1])
  {
    var d := c[..i + 1];
    forall k | 0 <= k < |d|
      ensures Placed(d[k])
    {
      assert k < i ==> c[..i][k] == d[k];
    }
    forall k: nat
      ensures Linked(d, k)
    {
      if 0 < k < i {
        assert Linked(c[..i], k);
      }
    }
  }

  /** A turn that is sound to its end and leaves nothing unanswered extends a
      resumable prefix. */
  lemma TurnCloses(c: Transcript, i: nat)
    requires MayFollow(c, i) && SoundBlocks(c[i], |c[i].content|, AllAsks(c[..i]), Asked(c, i))
    requires OpenOf({}, Asked(c, i), Answers(c[i].content)) && Distinct(Asked(c, i))
    ensures Resumable(c[..i + 1])
  {
    var m := c[i];
    assert m.content[..|m.content|] == m.content;
    BlocksStep(c, i);
    assert Answers(m.content) == Asked(c, i);
    ChainedStep(c, i);
  }

  /** The scan may pass a block that breaks no rule. */
  lemma SoundStep(m: Message, j: nat, used: multiset<Id>, asked: multiset<Id>)
    requires SoundBlocks(m, j, used, asked) && j < |m.content|
    requires m.content[j].ToolUse? ==>
               m.role.Assistant? && m.content[j].id !in used && m.content[j].id !in Asks(m.content[..j])
    requires m.content[j].ToolResult? ==>
               m.role.User? && m.content[j].useId in asked && m.content[j].useId !in Answers(m.content[..j])
    ensures SoundBlocks(m, j + 1, used, asked)
  {
    var done, b := m.content[..j], m.content[j];
    ScanStep(m.content, j);
    if b.ToolUse? {
      DistinctAdd(used + Asks(done), b.id);
      assert used + (Asks(done) + multiset{b.id}) == used + Asks(done) + multiset{b.id};
    } else if b.ToolResult? {
      DistinctAdd(Answers(done), b.useId);
    }
  }

  /** What the scan says of one block, from its two sets alone. */
  function JudgeBlock(role: Role, b: Block, seen: set<Id>, open: set<Id>): Option<(Fault, Id)> {
    match b
    case ToolUse(id, _, _) =>
      if role != Assistant then Some((BlockInWrongRole, id))
      else if id in seen then Some((DuplicateToolUse, id))
      else None
    case ToolResult(id, _, _) =>
      if role != User then Some((BlockInWrongRole, id))
      else if id !in seen then Some((OrphanResult, id))
      else if id !in open then Some((LateResult, id))
      else None
    case _ => None
  }

  /** What the three sets hold after the first `j` blocks of a turn. */
  ghost predicate Accurate(m: Message, j: nat, used: multiset<Id>, asked: multiset<Id>,
                           seen: set<Id>, open: set<Id>, declared: set<Id>) {
    && SoundBlocks(m, j, used, asked)
    && SetOf(declared, Asks(m.content[..j]))
    && SetOf(seen, used + Asks(m.content[..j]))
    && OpenOf(open, asked, Answers(m.content[..j]))
  }

  function SeenAfter(b: Block, seen: set<Id>): set<Id> {
    if b.ToolUse? then seen + {b.id} else seen
  }

  function OpenAfter(b: Block, open: set<Id>): set<Id> {
    if b.ToolResult? then open - {b.useId} else open
  }

  lemma AccurateStep(m: Message, j: nat, used: multiset<Id>, asked: multiset<Id>,
                       seen: set<Id>, open: set<Id>, declared: set<Id>)
    requires j < |m.content| && Accurate(m, j, used, asked, seen, open, declared)
    requires JudgeBlock(m.role, m.content[j], seen, open).None?
    ensures Accurate(m, j + 1, used, asked,
                     SeenAfter(m.content[j], seen), OpenAfter(m.content[j], open), SeenAfter(m.content[j], declared))
  {
    assert forall id :: id in used + Asks(m.content[..j]) <==> id in used || id in Asks(m.content[..j]);
    SoundStep(m, j, used, asked);
    ScanStep(m.content, j);
  }

  /** With both sets accurate, a complaint is exactly a broken rule. */
  lemma JudgeBlockExact(m: Message, j: nat, used: multiset<Id>, asked: multiset<Id>,
                       seen: set<Id>, open: set<Id>, declared: set<Id>)
    requires j < |m.content| && Accurate(m, j, used, asked, seen, open, declared)
    ensures match JudgeBlock(m.role, m.content[j], seen, open)
            case None => Accurate(m, j + 1, used, asked,
                                  SeenAfter(m.content[j], seen), OpenAfter(m.content[j], open), SeenAfter(m.content[j], declared))
            case Some((fault, id)) => Breaks(m, j, used, asked, fault, id)
  {
    assert forall id :: id in used + Asks(m.content[..j]) <==> id in used || id in Asks(m.content[..j]);
    if JudgeBlock(m.role, m.content[j], seen, open).None? {
      AccurateStep(m, j, used, asked, seen, open, declared);
    }
  }

  /** The block loop of one turn: the first rule it breaks, or the updated
      bookkeeping. `seen` holds the ids used so far and `open` those the turn
      before asked and this one has not answered. */
  method ScanTurn(m: Message, seen0: set<Id>, open0: set<Id>, ghost used: multiset<Id>, ghost asked: multiset<Id>)
    returns (fault: Option<(Fault, Id)>, at: nat, seen: set<Id>, open: set<Id>, declared: set<Id>)
    requires SetOf(seen0, used) && SetOf(open0, asked) && Distinct(used)
    ensures match fault
            case None => Accurate(m, |m.content|, used, asked, seen, open, declared)
            case Some((kind, id)) => FirstFault(m, at, used, asked, kind, id)
  {
    at, seen, open, declared := 0, seen0, open0, {};
    assert used + multiset{} == used;
    while at < |m.content|
      invariant at <= |m.content|
      invariant Accurate(m, at, used, asked, seen, open, declared)
    {
      var b := m.content[at];
      fault := JudgeBlock(m.role, b, seen, open);
      JudgeBlockExact(m, at, used, asked, seen, open, declared);
      if fault.Some? {
        return;
      }
      seen, open, declared := SeenAfter(b, seen), OpenAfter(b, open), SeenAfter(b, declared);
      at := at + 1;
    }
    fault := None;
  }

  /** What the scan knows before turn `i`. */
  ghost predicate Scanned(c: Transcript, i: nat, seen: set<Id>, open: set<Id>) {
    && i <= |c| && c != [] && c[0].role.User? && (i > 0 ==> Resumable(c[..i]))
    && SetOf(seen, AllAsks(c[..i])) && SetOf(open, Asked(c, i))
  }

  lemma ScannedDistinct(c: Transcript, i: nat, seen: set<Id>, open: set<Id>)
    requires Scanned(c, i, seen, open)
    ensures Distinct(AllAsks(c[..i])) && Distinct(Asked(c, i))
  {
    if i > 0 {
      assert c[..i][i - 1] == c[i - 1];
      TurnAsksWithin(c[..i], i - 1);
    }
  }

  lemma TurnScanned(c: Transcript, i: nat, seen: set<Id>, open: set<Id>, seen': set<Id>, declared: set<Id>)
    requires i < |c| && Scanned(c, i, seen, open) && MayFollow(c, i)
    requires Accurate(c[i], |c[i].content|, AllAsks(c[..i]), Asked(c, i), seen', {}, declared)
    ensures Scanned(c, i + 1, seen', declared)
  {
    assert c[i].content[..|c[i].content|] == c[i].content;
    ScannedDistinct(c, i, seen, open);
    TurnCloses(c, i);
    BlocksStep(c, i);
  }

  /** One turn of the scan. */
  method ValidateTurn(c: Transcript, i: nat, seen: set<Id>, open: set<Id>)
    returns (v: Verdict, seen': set<Id>, declared: set<Id>)
    requires i < |c| && Scanned(c, i, seen, open)
    ensures if v.Accepted? then Scanned(c, i + 1, seen', declared) else Judged(c, v)
  {
    seen', declared := seen, {};
    if i > 0 && c[i].role == c[i - 1].role {
      v := NotAlternating(i);
    } else {
      ScannedDistinct(c, i, seen, open);
      var fault, at, open';
      fault, at, seen', open', declared := ScanTurn(c[i], seen, open, AllAsks(c[..i]), Asked(c, i));
      if fault.Some? {
        v := BadBlock(fault.value.0, fault.value.1, i, at);
      } else if open' != {} {
        assert c[i].content[..|c[i].content|] == c[i].content;
        v := Unanswered(open', i);
      } else {
        TurnScanned(c, i, seen, open, seen', declared);
        v := Accepted;
      }
    }
  }

  /** `Validate` finds the first violation, or none, by one left-to-right scan. */
  method Validate(c: Transcript) returns (v: Verdict)
    ensures Judged(c, v)
  {
    if |c| == 0 {
      return EmptyConvo;
    }
    if c[0].role != User {
      return NotUserFirst;
    }
    var seen: set<Id>, open: set<Id> := {}, {};
    var i := 0;
    while i < |c|
      invariant 0 <= i <= |c| && Scanned(c, i, seen, open)
    {
      v, seen, open := ValidateTurn(c, i, seen, open);
      if !v.Accepted? {
        return;
      }
      i := i + 1;
    }
    assert c[..i] == c;
    SetOfEmpty(open, Asks(Last(c).content));
    v := if open != {} then DanglingToolUse(open) else Accepted;
  }

  lemma LinkedAt(c: Transcript, i: nat)
    requires Chained(c) && 0 < i < |c|
    ensures Follows(c[i - 1], c[i])
  {
    assert Linked(c, i);
  }

  lemma AskedIsAnswered(c: Transcript, i: nat)
    requires Resumable(c) && i < |c|
    ensures Asked(c, i) == Answers(c[i].content) && Distinct(Asked(c, i))
  {
    if i > 0 {
      LinkedAt(c, i);
      TurnAsksWithin(c, i - 1);
    }
  }

  lemma BlockWithin(bs: seq<Block>, j: nat)
    requires j < |bs|
    ensures bs[j].ToolUse? ==> Asks(bs)[bs[j].id] > Asks(bs[..j])[bs[j].id]
    ensures bs[j].ToolResult? ==> Answers(bs)[bs[j].useId] > Answers(bs[..j])[bs[j].useId]
  {
    ScanStep(bs, j);
    PrefixWithin(bs, j + 1);
  }

  lemma DuplicateInvalid(c: Transcript, i: nat, j: nat)
    requires i < |c| && j < |c[i].content| && c[i].content[j].ToolUse?
    requires c[i].content[j].id in AllAsks(c[..i]) || c[i].content[j].id in Asks(c[i].content[..j])
    ensures !Distinct(AllAsks(c))
  {
    var id := c[i].content[j].id;
    BlockWithin(c[i].content, j);
    BlocksStep(c, i);
    PrefixAsksWithin(c, i + 1);
    assert AllAsks(c)[id] >= AllAsks(c[..i])[id] + Asks(c[i].content)[id] >= 2;
  }

  /** In a valid transcript a result answers a call of the turn before it, for
      the first time. */
  lemma ResultIsTimely(c: Transcript, i: nat, j: nat)
    requires Resumable(c) && i < |c| && j < |c[i].content| && c[i].content[j].ToolResult?
    ensures var id := c[i].content[j].useId;
            && i > 0 && id in Asked(c, i) && id in AllAsks(c[..i])
            && id !in Answers(c[i].content[..j])
  {
    BlockWithin(c[i].content, j);
    AskedIsAnswered(c, i);
    assert c[..i][i - 1] == c[i - 1];
    TurnAsksWithin(c[..i], i - 1);
  }

  /** Only acceptance is compatible with a valid transcript, so `Validate`
      decides `Valid`. */
  lemma JudgedDecides(c: Transcript, v: Verdict)
    requires Judged(c, v)
    ensures v.Accepted? <==> Valid(c)
  {
    if Valid(c) {
      match v
      case NotAlternating(i) => LinkedAt(c, i);
      case Unanswered(ids, i) => AskedIsAnswered(c, i);
      case BadBlock(fault, id, i, j) =>
        BlockWithin(c[i].content, j);
        match fault {
          case BlockInWrongRole =>
          case DuplicateToolUse => DuplicateInvalid(c, i, j);
          case OrphanResult => ResultIsTimely(c, i, j);
          case LateResult => ResultIsTimely(c, i, j);
        }
      case _ =>
    }
  }

  lemma {:induction false} TurnAnswersWithin(c: Transcript, i: nat)
    requires i < |c|
    ensures Answers(c[i].content) <= Answers(Blocks(c))
  {
    AsksAppend(Blocks(Front(c)), Last(c).content);
    if i < |c| - 1 {
      TurnAnswersWithin(Front(c), i);
    }
  }

  /** The turn that declares an id. */
  lemma {:induction false} UseTurn(c: Transcript, id: Id) returns (t: nat)
    requires id in AllAsks(c)
    ensures t < |c| && id in Asks(c[t].content)
  {
    var n := |c| - 1;
    assert c[..n + 1] == c;
    BlocksStep(c, n);
    if id in Asks(c[n].content) {
      return n;
    }
    t := UseTurn(c[..n], id);
  }

  /** A late result is always a second answer: an answer that merely comes too
      late is reported earlier, as the unanswered call. */
  lemma LateIsSecondAnswer(c: Transcript, id: Id, i: nat, j: nat)
    requires Judged(c, BadBlock(LateResult, id, i, j))
    ensures id in Answers(Blocks(c[..i]) + c[i].content[..j])
  {
    AsksAppend(Blocks(c[..i]), c[i].content[..j]);
    if id !in Answers(c[i].content[..j]) {
      var d := c[..i];
      var t := UseTurn(d, id);
      assert t + 1 < i;
      LinkedAt(d, t + 1);
      TurnAnswersWithin(d, t + 1);
    }
  }

  // ----- extending a transcript -----

  /** No user turn is empty. `Validate` does not ask for this, and removal after
      a cut needs it of every user turn a cut can promote to turn 0. */
  ghost predicate UserTurnsFilled(c: Transcript) {
    forall i :: 0 <= i < |c| && c[i].role.User? ==> c[i].content != []
  }

  ghost predicate Solid(c: Transcript) {
    Valid(c) && UserTurnsFilled(c)
  }

  /** `m` as a turn of its own, or joined to the last turn of its own role; an
      empty message leaves no trace. */
  function Append(c: Transcript, m: Message): Transcript {
    if m.content == [] then c
    else if c != [] && Last(c).role == m.role then
      Front(c) + [Message(m.role, Last(c).content + m.content)]
    else c + [m]
  }

  function PushUserText(c: Transcript, s: string): Transcript {
    Append(c, UserText(s))
  }

  function PushAssistant(c: Transcript, blocks: seq<Block>): Transcript {
    Append(c, Message(Assistant, blocks))
  }

  function PushToolResults(c: Transcript, blocks: seq<Block>): Transcript {
    Append(c, Message(User, blocks))
  }

  /** Appending adds exactly the new blocks, whatever happens to the turns. */
  lemma AppendBlocks(c: Transcript, m: Message)
    ensures Blocks(Append(c, m)) == Blocks(c) + m.content
    ensures AllAsks(Append(c, m)) == AllAsks(c) + Asks(m.content)
  {
    AsksAppend(Blocks(c), m.content);
    if m.content == [] {
      assert Blocks(c) + m.content == Blocks(c);
    } else if c != [] && Last(c).role == m.role {
      SnocBlocks(Front(c), Message(m.role, Last(c).content + m.content));
      assert Blocks(Front(c)) + (Last(c).content + m.content) == Blocks(c) + m.content;
    } else {
      SnocBlocks(c, m);
    }
  }

  /** Appending never leaves an empty turn behind. */
  lemma AppendFilled(c: Transcript, m: Message)
    requires UserTurnsFilled(c)
    ensures UserTurnsFilled(Append(c, m))
  {
    var d := Append(c, m);
    forall i | 0 <= i < |d| && d[i].role.User?
      ensures d[i].content != []
    {
      assert i < |c| - 1 ==> d[i] == c[i];
      assert |d| == |c| + 1 && i < |c| ==> d[i] == c[i];
    }
  }

  lemma ChainSnoc(c: Transcript, m: Message)
    ensures Chained(c + [m]) <==>
            && Chained(c) && Placed(m) && (c != [] ==> Follows(Last(c), m))
            && Distinct(AllAsks(c) + Asks(m.content))
  {
    var d := c + [m];
    assert d[..|c|] == c && d[..|c| + 1] == d;
    SnocBlocks(c, m);
    DistinctParts(AllAsks(c), Asks(m.content));
    if Chained(d) {
      forall k | 0 <= k < |c|
        ensures Placed(c[k])
      {
        assert d[k] == c[k];
      }
      forall k: nat
        ensures Linked(c, k)
      {
        assert Linked(d, k);
      }
      assert Placed(d[|c|]);
      assert Linked(d, |c|);
    } else if Placed(m) && (c != [] ==> Follows(Last(c), m)) && Distinct(AllAsks(c) + Asks(m.content)) {
      if Chained(c) {
        ChainedStep(d, |c|);
      }
    }
  }

  lemma SumUnchanged(a: multiset<Id>, b: multiset<Id>)
    ensures a + b == a <==> b == multiset{}
  {
    assert forall id :: (a + b)[id] == a[id] + b[id];
    if a + b == a {
      assert forall id :: b[id] == 0;
    }
  }

  /** Replacing the last turn by one with more content. */
  lemma ChainMerge(c: Transcript, m: Message)
    requires c != [] && m.content != [] && Last(c).role == m.role && Chained(c)
    ensures Chained(Append(c, m)) <==>
            && Placed(Message(m.role, Last(c).content + m.content))
            && (|c| > 1 ==> Answers(m.content) == multiset{})
            && Distinct(AllAsks(c) + Asks(m.content))
    ensures Asks(Last(Append(c, m)).content) == Asks(Last(c).content) + Asks(m.content)
    ensures Answers(Last(Append(c, m)).content) == Answers(Last(c).content) + Answers(m.content)
  {
    var front, last := Front(c), Last(c);
    var merged := Message(m.role, last.content + m.content);
    assert c == front + [last] && Append(c, m) == front + [merged];
    AsksAppend(last.content, m.content);
    SnocBlocks(front, last);
    ChainSnoc(front, last);
    ChainSnoc(front, merged);
    assert AllAsks(front) + Asks(merged.content) == AllAsks(c) + Asks(m.content);
    if front != [] {
      assert Follows(Last(front), last);
      assert Answers(merged.content) == Answers(last.content) <==> Answers(m.content) == multiset{} by {
        SumUnchanged(Answers(last.content), Answers(m.content));
      }
    }
  }

  /** The provider's side of the bargain: a reply carries no tool_result and
      mints ids that are new and distinct. */
  ghost predicate FreshReply(c: Transcript, blocks: seq<Block>) {
    Answers(blocks) == multiset{} && Distinct(AllAsks(c) + Asks(blocks))
  }

  /** Pushing a reply on a valid transcript keeps it resumable exactly when the
      reply is fresh, and leaves open exactly the calls of the reply. */
  lemma PushAssistantExact(c: Transcript, blocks: seq<Block>)
    requires Valid(c)
    ensures Resumable(PushAssistant(c, blocks)) <==> FreshReply(c, blocks)
    ensures Asks(Last(PushAssistant(c, blocks)).content) == Asks(blocks)
  {
    var m, next := Message(Assistant, blocks), PushAssistant(c, blocks);
    if blocks == [] {
      assert AllAsks(c) + multiset{} == AllAsks(c);
    } else if Last(c).role.Assistant? {
      assert |c| > 1;
      ChainMerge(c, m);
      assert next[0] == c[0];
    } else {
      ChainSnoc(c, m);
      assert next[0] == c[0];
    }
  }

  /** Pushing a user turn on a resumable transcript makes it valid exactly when
      the turn answers the open calls, each once, and nothing else. */
  lemma PushAnswersExact(c: Transcript, blocks: seq<Block>)
    requires Resumable(c) && blocks != [] && Asks(blocks) == multiset{}
    ensures Valid(PushToolResults(c, blocks)) <==> Answers(blocks) == Asks(Last(c).content)
  {
    var m, next := Message(User, blocks), PushToolResults(c, blocks);
    assert AllAsks(c) + multiset{} == AllAsks(c);
    if Last(c).role.User? {
      ChainMerge(c, m);
      assert |c| > 1 ==> next[0] == c[0];
    } else {
      ChainSnoc(c, m);
      assert next[0] == c[0];
    }
  }

  // ----- Dangling -----

  /** The bookkeeping of the scan for unanswered calls: every id ever opened, in
      the order it was opened, and those still open. */
  datatype Ledger = Ledger(order: seq<Id>, open: set<Id>)

  function Record(t: Ledger, b: Block): Ledger {
    match b
    case ToolUse(id, _, _) =>
      if id in t.open then t else Ledger(t.order + [id], t.open + {id})
    case ToolResult(id, _, _) => t.(open := t.open - {id})
    case _ => t
  }

  function Track(bs: seq<Block>): Ledger {
    if bs == [] then Ledger([], {})
    else Record(Track(Front(bs)), Last(bs))
  }

  function OnlyOpen(order: seq<Id>, open: set<Id>): seq<Id> {
    if order == [] then []
    else if Last(order) in open then OnlyOpen(Front(order), open) + [Last(order)]
    else OnlyOpen(Front(order), open)
  }

  function DanglingIds(c: Transcript): seq<Id> {
    var t := Track(Blocks(c));
    OnlyOpen(t.order, t.open)
  }

  method Dangling(c: Transcript) returns (out: seq<Id>)
    ensures out == DanglingIds(c)
  {
    var t := Ledger([], {});
    var i := 0;
    while i < |c|
      invariant 0 <= i <= |c| && t == Track(Blocks(c[..i]))
    {
      var j := 0;
      assert Blocks(c[..i]) + c[i].content[..j] == Blocks(c[..i]);
      while j < |c[i].content|
        invariant 0 <= j <= |c[i].content| && t == Track(Blocks(c[..i]) + c[i].content[..j])
      {
        assert Front(Blocks(c[..i]) + c[i].content[..j + 1]) == Blocks(c[..i]) + c[i].content[..j];
        t := Record(t, c[i].content[j]);
        j := j + 1;
      }
      assert c[i].content[..j] == c[i].content;
      BlocksStep(c, i);
      i := i + 1;
    }
    assert c[..i] == c;
    out := [];
    var k := 0;
    while k < |t.order|
      invariant 0 <= k <= |t.order| && out == OnlyOpen(t.order[..k], t.open)
    {
      assert Front(t.order[..k + 1]) == t.order[..k];
      if t.order[k] in t.open {
        out := out + [t.order[k]];
      }
      k := k + 1;
    }
    assert t.order[..k] == t.order;
  }

  /** For any block sequence at all, an id is dangling if and only if the last
      block that mentions it is a call and not an answer. */
  ghost predicate LastMentionAsks(bs: seq<Block>, id: Id) {
    exists k :: 0 <= k < |bs| && bs[k].ToolUse? && bs[k].id == id
                && forall l :: k < l < |bs| && bs[l].ToolResult? ==> bs[l].useId != id
  }

  lemma {:induction false} TrackOpen(bs: seq<Block>, id: Id)
    ensures id in Track(bs).open <==> LastMentionAsks(bs, id)
    ensures id in Track(bs).open ==> id in Track(bs).order
  {
    if bs != [] {
      var n := |bs| - 1;
      TrackOpen(Front(bs), id);
      if LastMentionAsks(Front(bs), id) && !(bs[n].ToolResult? && bs[n].useId == id) {
        var k :| 0 <= k < n && Front(bs)[k].ToolUse? && Front(bs)[k].id == id
                 && forall l :: k < l < n && Front(bs)[l].ToolResult? ==> Front(bs)[l].useId != id;
        assert forall l :: k < l < n ==> Front(bs)[l] == bs[l];
        assert bs[k].ToolUse? && bs[k].id == id;
      }
      if LastMentionAsks(bs, id) {
        var k :| 0 <= k < |bs| && bs[k].ToolUse? && bs[k].id == id
                 && forall l :: k < l < |bs| && bs[l].ToolResult? ==> bs[l].useId != id;
        if k < n {
          assert Front(bs)[k] == bs[k];
          assert forall l :: k < l < n ==> Front(bs)[l] == bs[l];
        }
      }
    }
  }

  lemma {:induction false} OnlyOpenMember(order: seq<Id>, open: set<Id>, id: Id)
    ensures id in OnlyOpen(order, open) <==> id in order && id in open
  {
    if order != [] {
      OnlyOpenMember(Front(order), open, id);
      assert order == Front(order) + [Last(order)];
    }
  }

  lemma DanglingMeaning(c: Transcript, id: Id)
    ensures id in DanglingIds(c) <==> LastMentionAsks(Blocks(c), id)
  {
    TrackOpen(Blocks(c), id);
    OnlyOpenMember(Track(Blocks(c)).order, Track(Blocks(c)).open, id);
  }

  /** What one more block does to the ids open after `bs`. */
  lemma TrackOpensStep(t: Ledger, u: Ledger, bs: seq<Block>)
    requires bs != [] && (Asks(bs) == multiset{} || Answers(bs) == multiset{})
    requires forall id :: id in u.open <==> (id in t.open && id !in Answers(Front(bs))) || id in Asks(Front(bs))
    ensures forall id :: id in Record(u, Last(bs)).open <==> (id in t.open && id !in Answers(bs)) || id in Asks(bs)
  {
  }

  /** A turn that only answers closes its ids; one that only asks opens them. */
  lemma {:induction false} TrackOpens(before: seq<Block>, bs: seq<Block>)
    requires Asks(bs) == multiset{} || Answers(bs) == multiset{}
    ensures forall id :: id in Track(before + bs).open <==>
                         (id in Track(before).open && id !in Answers(bs)) || id in Asks(bs)
  {
    if bs == [] {
      assert before + bs == before;
    } else {
      assert Front(before + bs) == before + Front(bs) && Last(before + bs) == Last(bs);
      TrackOpens(before, Front(bs));
      TrackOpensStep(Track(before), Track(before + Front(bs)), bs);
    }
  }

  lemma TrackAsk(t: Ledger, uses: seq<Id>, u: Ledger, b: Block)
    requires b.ToolUse? && b.id !in u.open
    ensures u.order == t.order + uses ==> Record(u, b).order == t.order + (uses + [b.id])
  {
    assert t.order + uses + [b.id] == t.order + (uses + [b.id]);
  }

  /** What the ledger holds of blocks whose calls are all distinct. */
  ghost predicate TrackedFor(bs: seq<Block>) {
    Track(bs).order == Uses(bs) && forall id :: id in Track(bs).open ==> id in Asks(bs)
  }

  lemma {:induction false} TrackTurn(before: seq<Block>, bs: seq<Block>)
    requires Asks(bs) == multiset{} || Answers(bs) == multiset{}
    requires Distinct(Asks(before) + Asks(bs))
    requires TrackedFor(before)
    ensures Track(before + bs).order == Track(before).order + Uses(bs)
  {
    if bs == [] {
      assert before + bs == before;
    } else {
      var rest, b := Front(bs), Last(bs);
      assert Front(before + bs) == before + rest && Last(before + bs) == b;
      if b.ToolUse? {
        assert Asks(before) + Asks(bs) == (Asks(before) + Asks(rest)) + multiset{b.id};
        DistinctAdd(Asks(before) + Asks(rest), b.id);
        TrackOpens(before, rest);
        TrackAsk(Track(before), Uses(rest), Track(before + rest), b);
      }
      TrackTurn(before, rest);
    }
  }

  lemma SnocResumable(front: Transcript, m: Message)
    requires Resumable(front + [m])
    ensures front != [] ==> Resumable(front) && Follows(Last(front), m)
    ensures front == [] ==> Answers(m.content) == multiset{}
    ensures Placed(m) && Distinct(AllAsks(front) + Asks(m.content))
  {
    ChainSnoc(front, m);
    assert front != [] ==> front[0] == (front + [m])[0];
  }

  lemma {:induction false} UsesAppend(a: seq<Block>, b: seq<Block>)
    ensures Uses(a + b) == Uses(a) + Uses(b)
  {
    if b == [] {
      assert a + b == a;
    } else {
      UsesAppend(a, Front(b));
      assert Front(a + b) == a + Front(b) && Last(a + b) == Last(b);
    }
  }

  /** The last turn answers all that was open and opens its own calls. */
  lemma TrackLast(front: Transcript, m: Message)
    requires TrackedFor(Blocks(front)) && Placed(m)
    requires front == [] ==> Answers(m.content) == multiset{}
    requires front != [] ==> SetOf(Track(Blocks(front)).open, Asks(Last(front).content)) && Follows(Last(front), m)
    requires Distinct(AllAsks(front) + Asks(m.content))
    ensures TrackedFor(Blocks(front) + m.content)
    ensures SetOf(Track(Blocks(front) + m.content).open, Asks(m.content))
  {
    UsesAppend(Blocks(front), m.content);
    AsksAppend(Blocks(front), m.content);
    TrackOpens(Blocks(front), m.content);
    TrackTurn(Blocks(front), m.content);
  }

  /** On a resumable transcript exactly the calls of the last turn are open. */
  lemma {:induction false} TrackResumable(c: Transcript)
    requires Resumable(c)
    ensures TrackedFor(Blocks(c)) && SetOf(Track(Blocks(c)).open, Asks(Last(c).content))
  {
    var front, m := Front(c), Last(c);
    assert c == front + [m];
    SnocResumable(front, m);
    if front != [] {
      TrackResumable(front);
    }
    TrackLast(front, m);
    SnocBlocks(front, m);
  }

  lemma {:induction false} OnlyOpenSplit(older: seq<Id>, newer: seq<Id>, open: set<Id>)
    requires forall id :: id in older ==> id !in open
    requires forall id :: id in newer ==> id in open
    ensures OnlyOpen(older + newer, open) == newer
  {
    var all := older + newer;
    if newer != [] {
      assert Front(all) == older + Front(newer) && Last(all) == Last(newer);
      OnlyOpenSplit(older, Front(newer), open);
    } else if older != [] {
      assert all == older && Front(older) + [] == Front(older);
      OnlyOpenSplit(Front(older), [], open);
    }
  }

  /** The calls of the last turn come last and are not among the older ones. */
  lemma UsesSplit(c: Transcript)
    requires c != [] && Distinct(AllAsks(c))
    ensures Uses(Blocks(c)) == Uses(Blocks(Front(c))) + Uses(Last(c).content)
    ensures forall id :: id in Uses(Blocks(Front(c))) ==> id !in Asks(Last(c).content)
  {
    var front, m := Front(c), Last(c);
    assert c == front + [m];
    SnocBlocks(front, m);
    UsesAppend(Blocks(front), m.content);
    UsesMembers(Blocks(front));
    DistinctParts(AllAsks(front), Asks(m.content));
  }

  /** `Dangling` lists the calls of the last turn, in order, and nothing else. */
  lemma DanglingExact(c: Transcript)
    requires Resumable(c)
    ensures DanglingIds(c) == Uses(Last(c).content)
  {
    TrackResumable(c);
    UsesSplit(c);
    UsesMembers(Last(c).content);
    OnlyOpenSplit(Uses(Blocks(Front(c))), Uses(Last(c).content), Track(Blocks(c)).open);
  }

  /** One error-free acknowledgement per open call. */
  function Acks(ids: seq<Id>, ack: string): seq<Block> {
    if ids == [] then [] else Acks(Front(ids), ack) + [ToolResult(Last(ids), ack, false)]
  }

  /** Answers every open call with `ack`, then adds `extra` in the same turn. */
  function CloseDangling(c: Transcript, ack: string, extra: seq<Block>): Transcript {
    var pending := DanglingIds(c);
    if pending == [] && extra == [] then c
    else PushToolResults(c, Acks(pending, ack) + extra)
  }

  lemma {:induction false} AcksAnswer(ids: seq<Id>, ack: string)
    ensures Answers(Acks(ids, ack)) == multiset(ids) && Asks(Acks(ids, ack)) == multiset{}
    ensures |Acks(ids, ack)| == |ids|
    ensures forall k :: 0 <= k < |ids| ==> Acks(ids, ack)[k] == ToolResult(ids[k], ack, false)
  {
    if ids != [] {
      AcksAnswer(Front(ids), ack);
      assert Front(Acks(ids, ack)) == Acks(Front(ids), ack);
      assert ids == Front(ids) + [Last(ids)];
    }
  }

  /** Closing makes any resumable transcript valid, and adds the
      acknowledgements and the extra blocks behind every block it had. */
  lemma CloseDanglingValid(c: Transcript, ack: string, extra: seq<Block>)
    requires Resumable(c) && Asks(extra) == multiset{} && Answers(extra) == multiset{}
    ensures Valid(CloseDangling(c, ack, extra))
    ensures Blocks(CloseDangling(c, ack, extra)) == Blocks(c) + (Acks(DanglingIds(c), ack) + extra)
  {
    var pending := DanglingIds(c);
    AppendBlocks(c, Message(User, Acks(pending, ack) + extra));
    DanglingExact(c);
    UsesCount(Last(c).content);
    if pending != [] || extra != [] {
      AcksAnswer(pending, ack);
      AsksAppend(Acks(pending, ack), extra);
      assert |Acks(pending, ack) + extra| > 0;
      PushAnswersExact(c, Acks(pending, ack) + extra);
    }
  }
}
