/** The tool calls of one session parked on a human (httpapi/approvals.go).
    Every method of the queue holds its lock, so an interleaving is a sequence
    of operations. `P` is the type of a parked question with its channel. */
module Approvals {
  import opened Llm

  // ----- operations and what they do -----

  datatype Op<P> = Register(id: Id, p: P) | Resolve(id: Id, allow: bool) | Forget(id: Id, p: P) | Deny | Close
  datatype Outcome = Accepted | NoQueue | AlreadyAnswered | NoSuchApproval

  /** `sent` records every value ever sent on each channel. */
  datatype Queue<P(==)> = Queue(waiting: map<Id, P>, answered: set<Id>, closed: bool, sent: map<P, seq<bool>>)

  function Empty<P>(): Queue<P> {
    Queue(map[], {}, false, map[])
  }

  /** Everything that waits is denied. */
  function Released<P>(q: Queue<P>): Queue<P> {
    Queue(map[], q.answered + q.waiting.Keys, q.closed,
          map p | p in q.sent :: if p in q.waiting.Values then q.sent[p] + [false] else q.sent[p])
  }

  function Result<P>(q: Queue<P>, op: Op<P>): Outcome {
    match op
    case Register(id, _) => if q.closed then NoQueue else if id in q.waiting then AlreadyAnswered else Accepted
    case Resolve(id, _) =>
      if id in q.waiting then Accepted else if id in q.answered then AlreadyAnswered else NoSuchApproval
    case _ => Accepted
  }

  function After<P>(q: Queue<P>, op: Op<P>): Queue<P> {
    if !Result(q, op).Accepted? then q
    else
      match op
      case Register(id, p) => q.(waiting := q.waiting[id := p], sent := q.sent[p := []])
      case Resolve(id, allow) =>
        var p := q.waiting[id];
        Queue(q.waiting - {id}, q.answered + {id}, q.closed,
              q.sent[p := (if p in q.sent then q.sent[p] else []) + [allow]])
      case Forget(id, p) =>
        if id in q.waiting && q.waiting[id] == p then q.(waiting := q.waiting - {id}) else q
      case Deny => Released(q)
      case Close => Released(q).(closed := true)
  }

  function RunFrom<P>(q: Queue<P>, ops: seq<Op<P>>): Queue<P> {
    if ops == [] then q else After(RunFrom(q, Front(ops)), Last(ops))
  }

  /** The queue after a run of operations. */
  function Reached<P>(ops: seq<Op<P>>): Queue<P> {
    RunFrom(Empty(), ops)
  }

  /** Every question parked gets a channel of its own. */
  predicate FreshChannel<P>(q: Queue<P>, op: Op<P>) {
    op.Register? ==> op.p !in q.sent
  }

  ghost predicate FreshChannels<P>(ops: seq<Op<P>>) {
    ops == [] || (FreshChannels(Front(ops)) && FreshChannel(Reached(Front(ops)), Last(ops)))
  }

  // ----- what every interleaving keeps -----

  ghost predicate Sound<P>(q: Queue<P>) {
    && (forall id :: id in q.waiting ==> q.waiting[id] in q.sent && q.sent[q.waiting[id]] == [])
    && (forall i, j :: i in q.waiting && j in q.waiting && q.waiting[i] == q.waiting[j] ==> i == j)
    && (forall p :: p in q.sent ==> |q.sent[p]| <= 1)
    && (q.closed ==> q.waiting == map[])
  }

  lemma SoundAfter<P>(q: Queue<P>, op: Op<P>)
    requires Sound(q) && FreshChannel(q, op)
    ensures Sound(After(q, op))
  {
  }

  /** No channel ever gets a second value, so a send finds its one slot free;
      and after `close` nothing waits. */
  lemma {:induction false} OneVerdictEach<P>(ops: seq<Op<P>>)
    requires FreshChannels(ops)
    ensures Sound(Reached(ops))
  {
    if ops != [] {
      OneVerdictEach(Front(ops));
      SoundAfter(Reached(Front(ops)), Last(ops));
    }
  }

  /** A second answer reports that there was a first, until the call is parked
      again. */
  lemma {:induction false} SecondResolve<P>(q: Queue<P>, id: Id, allow: bool, ops: seq<Op<P>>, again: bool)
    requires Result(q, Resolve(id, allow)) == Accepted
    requires forall op :: op in ops && op.Register? ==> op.id != id
    ensures Result(RunFrom(After(q, Resolve(id, allow)), ops), Resolve(id, again)) == AlreadyAnswered
  {
    if ops != [] {
      SecondResolve(q, id, allow, Front(ops), again);
      assert Last(ops) in ops;
    }
  }

  /** After `close` nothing waits, whatever happens, and nothing can be parked. */
  lemma {:induction false} ClosedForGood<P>(q: Queue<P>, ops: seq<Op<P>>, id: Id, p: P)
    ensures RunFrom(After(q, Close), ops).waiting == map[]
    ensures Result(RunFrom(After(q, Close), ops), Register(id, p)) == NoQueue
  {
    if ops != [] {
      ClosedForGood(q, Front(ops), id, p);
    }
  }

  /** Operation `i` is a human answering the question parked as `p`. */
  ghost predicate AnsweredAt<P>(ops: seq<Op<P>>, i: nat, p: P, allow: bool) {
    && i < |ops| && ops[i].Resolve? && ops[i].allow == allow
    && ops[i].id in Reached(ops[..i]).waiting && Reached(ops[..i]).waiting[ops[i].id] == p
  }

  lemma ApprovalStep<P>(q: Queue<P>, op: Op<P>, p: P)
    requires Sound(q) && FreshChannel(q, op)
    requires p in After(q, op).sent && After(q, op).sent[p] == [true]
    ensures || (p in q.sent && q.sent[p] == [true])
            || (op.Resolve? && op.allow && op.id in q.waiting && q.waiting[op.id] == p)
  {
    assert After(q, op).sent[p][0];
  }

  /** A call is let through only by an answer to that very question. */
  lemma {:induction false} ApprovedByAnswer<P>(ops: seq<Op<P>>, p: P)
    requires FreshChannels(ops) && p in Reached(ops).sent && Reached(ops).sent[p] == [true]
    ensures exists i: nat :: AnsweredAt(ops, i, p, true)
  {
    var q, op := Reached(Front(ops)), Last(ops);
    OneVerdictEach(Front(ops));
    ApprovalStep(q, op, p);
    if p in q.sent && q.sent[p] == [true] {
      ApprovedByAnswer(Front(ops), p);
      var i: nat :| AnsweredAt(Front(ops), i, p, true);
      assert ops[..i] == Front(ops)[..i];
      assert AnsweredAt(ops, i, p, true);
    } else {
      assert ops[..|ops| - 1] == Front(ops);
      assert AnsweredAt(ops, |ops| - 1, p, true);
    }
  }

  /** The waiter of `p` gave up. */
  predicate Abandoned<P(==)>(ops: seq<Op<P>>, p: P) {
    exists i :: 0 <= i < |ops| && ops[i].Forget? && ops[i].p == p
  }

  predicate Cared<P(==)>(q: Queue<P>, p: P) {
    p in q.waiting.Values || (p in q.sent && |q.sent[p]| == 1)
  }

  lemma CareStep<P>(q: Queue<P>, op: Op<P>, p: P)
    requires Sound(q) && FreshChannel(q, op)
    requires p in After(q, op).sent && (p in q.sent ==> Cared(q, p))
    requires !(op.Forget? && op.p == p)
    ensures Cared(After(q, op), p)
  {
    if p !in q.sent {
      assert After(q, op).waiting[op.id] == p;
    } else if p in q.waiting.Values {
      var id :| id in q.waiting && q.waiting[id] == p;
      assert id in After(q, op).waiting ==> After(q, op).waiting[id] in After(q, op).waiting.Values;
    }
  }

  /** No waiter is left behind: a parked call is still in the queue, or it has a
      verdict, or its own waiter gave up. */
  lemma {:induction false} NobodyLeftBehind<P>(ops: seq<Op<P>>, p: P)
    requires FreshChannels(ops) && p in Reached(ops).sent
    ensures Cared(Reached(ops), p) || Abandoned(ops, p)
  {
    var q, op := Reached(Front(ops)), Last(ops);
    OneVerdictEach(Front(ops));
    if op.Forget? && op.p == p {
      assert ops[|ops| - 1] == op;
    } else if p in q.sent && !Cared(q, p) {
      NobodyLeftBehind(Front(ops), p);
      var i :| 0 <= i < |Front(ops)| && Front(ops)[i].Forget? && Front(ops)[i].p == p;
      assert ops[i] == Front(ops)[i];
    } else {
      CareStep(q, op, p);
    }
  }

  lemma ValuesWithout<K, P>(m: map<K, P>, id: K)
    requires id in m
    requires forall i, j :: i in m && j in m && m[i] == m[j] ==> i == j
    ensures (m - {id}).Values == m.Values - {m[id]} && |m - {id}| < |m|
  {
    forall p | p in m.Values && p != m[id]
      ensures p in (m - {id}).Values
    {
      var j :| j in m && m[j] == p;
      assert j in m - {id} && (m - {id})[j] == p;
    }
  }

  /** The channels end up with the same values. */
  lemma ReleasedSent<P>(q: Queue<P>, rest: map<Id, P>, p: P)
    requires p in q.sent && q.sent[p] == [] && p in q.waiting.Values
    requires rest.Values == q.waiting.Values - {p}
    ensures var q' := Queue(rest, q.answered, q.closed, q.sent[p := [] + [false]]);
            Released(q').sent == Released(q).sent
  {
  }

  /** Releasing everything is denying the waiters one by one. */
  lemma ReleasedOneByOne<P>(q: Queue<P>, id: Id)
    requires Sound(q) && id in q.waiting
    ensures var q' := After(q, Resolve(id, false));
            && Released(q') == Released(q)
            && |q'.waiting| < |q.waiting| && q'.waiting.Values <= q.waiting.Values
  {
    var p := q.waiting[id];
    ValuesWithout(q.waiting, id);
    ReleasedSent(q, q.waiting - {id}, p);
    assert q.answered + {id} + (q.waiting - {id}).Keys == q.answered + q.waiting.Keys;
  }

  lemma ReleasedIdle<P>(q: Queue<P>)
    requires q.waiting == map[]
    ensures Released(q) == q
  {
    assert Released(q).sent == q.sent;
  }

  // ----- the queue itself -----

  /** A channel with room for one value. */
  class Channel {
    var slot: Option<bool>

    constructor ()
      ensures slot == None
    {
      slot := None;
    }

    /** A send that finds the slot taken would block. */
    method Send(v: bool)
      requires slot == None
      modifies this
      ensures slot == Some(v)
    {
      slot := Some(v);
    }

    method Receive() returns (v: bool)
      requires slot.Some?
      modifies this
      ensures Some(v) == old(slot) && slot == None
    {
      v := slot.value;
      slot := None;
    }
  }

  class ApprovalQueue {
    var waiting: map<Id, Channel>
    var answered: set<Id>
    var closed: bool

    /** Everything ever sent, channel by channel. */
    ghost var sent: map<Channel, seq<bool>>

    ghost function State(): Queue<Channel>
      reads this
    {
      Queue(waiting, answered, closed, sent)
    }

    ghost predicate Valid()
      reads this, sent.Keys
    {
      Sound(State()) && forall c :: c in sent && c.slot.Some? ==> sent[c] == [c.slot.value]
    }

    constructor ()
      ensures Valid() && State() == Empty()
    {
      waiting, answered, closed, sent := map[], {}, false, map[];
    }

    method Register(id: Id) returns (r: Outcome, c: Channel)
      requires Valid()
      modifies this
      ensures Valid() && fresh(c)
      ensures r == if old(closed) then NoQueue else if id in old(waiting) then AlreadyAnswered else Accepted
      ensures State() == After(old(State()), Op.Register(id, c))
      ensures answered == old(answered) && closed == old(closed)
      ensures if r == Accepted then waiting == old(waiting)[id := c] && sent == old(sent)[c := []]
              else waiting == old(waiting) && sent == old(sent)
    {
      c := new Channel();
      if closed {
        return NoQueue, c;
      }
      if id in waiting {
        return AlreadyAnswered, c;
      }
      SoundAfter(State(), Op.Register(id, c));
      waiting, sent := waiting[id := c], sent[c := []];
      r := Accepted;
    }

    method Forget(id: Id, c: Channel)
      requires Valid()
      modifies this
      ensures Valid() && State() == After(old(State()), Op.Forget(id, c))
      ensures waiting == if id in old(waiting) && old(waiting)[id] == c then old(waiting) - {id} else old(waiting)
      ensures answered == old(answered) && closed == old(closed) && sent == old(sent)
    {
      SoundAfter(State(), Op.Forget(id, c));
      if id in waiting && waiting[id] == c {
        waiting := waiting - {id};
      }
    }

    method Resolve(id: Id, allow: bool) returns (r: Outcome)
      requires Valid()
      modifies this, waiting.Values
      ensures Valid()
      ensures r == if id in old(waiting) then Accepted else if id in old(answered) then AlreadyAnswered else NoSuchApproval
      ensures State() == After(old(State()), Op.Resolve(id, allow))
      ensures closed == old(closed)
      ensures if r == Accepted then
                && waiting == old(waiting) - {id} && answered == old(answered) + {id}
                && sent == old(sent)[old(waiting)[id] := [allow]] && old(waiting)[id].slot == Some(allow)
              else waiting == old(waiting) && answered == old(answered) && sent == old(sent)
    {
      SoundAfter(State(), Op.Resolve(id, allow));
      if id !in waiting {
        return if id in answered then AlreadyAnswered else NoSuchApproval;
      }
      var c := waiting[id];
      waiting, answered := waiting - {id}, answered + {id};
      sent := sent[c := sent[c] + [allow]];
      c.Send(allow);
      r := Accepted;
    }

    method DenyOne(id: Id)
      requires Valid() && id in waiting
      modifies this, waiting.Values
      ensures Valid() && Released(State()) == Released(old(State()))
      ensures |waiting| < |old(waiting)| && waiting.Values <= old(waiting.Values)
    {
      ReleasedOneByOne(State(), id);
      var _ := Resolve(id, false);
    }

    method Release()
      requires Valid()
      modifies this, waiting.Values
      ensures Valid() && State() == Released(old(State()))
    {
      ghost var released, parked := Released(State()), waiting.Values;
      while waiting != map[]
        invariant Valid() && Released(State()) == released && waiting.Values <= parked
        decreases |waiting|
      {
        var id :| id in waiting;
        DenyOne(id);
      }
      ReleasedIdle(State());
    }

    /** Denies whatever waits and leaves the queue open. */
    method Deny()
      requires Valid()
      modifies this, waiting.Values
      ensures Valid() && State() == After(old(State()), Op.Deny)
      ensures waiting == map[] && answered == old(answered) + old(waiting).Keys && closed == old(closed)
      ensures forall id :: id in old(waiting) ==> old(waiting)[id] in sent && sent[old(waiting)[id]] == [false]
    {
      SoundAfter(State(), Op.Deny);
      Release();
    }

    method Close()
      requires Valid()
      modifies this, waiting.Values
      ensures Valid() && State() == After(old(State()), Op.Close)
      ensures waiting == map[] && answered == old(answered) + old(waiting).Keys && closed
      ensures forall id :: id in old(waiting) ==> old(waiting)[id] in sent && sent[old(waiting)[id]] == [false]
    {
      SoundAfter(State(), Op.Close);
      Release();
      closed := true;
    }

    /** What the waiter does when it wakes: takes its verdict if it was woken by
        one, and drops its own wait. */
    method Finish(id: Id, c: Channel, verdict: bool) returns (allow: bool)
      requires Valid() && c in sent && (verdict ==> c.slot.Some?)
      modifies this, c
      ensures Valid() && State() == After(old(State()), Op.Forget(id, c))
      ensures verdict ==> sent[c] == [allow]
      ensures !verdict ==> !allow
    {
      allow := false;
      if verdict {
        allow := c.Receive();
      }
      Forget(id, c);
    }
  }
}
