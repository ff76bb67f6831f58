/** The per-tool circuit breaker around a retried call (tool/middleware.go).
    Time is an integer handed to each step. */
module Breaker {
  import opened Llm

  // ----- retry -----

  /** One attempt: it works, or fails with an error the tool may call worth
      another go and the caller may have caused. */
  datatype Attempt = Done | Failed(retryable: bool, callerFault: bool)

  const DEFAULT_ATTEMPTS := 3

  function MaxAttempts(configured: int): (n: nat)
    ensures n >= 1
  {
    if configured <= 0 then DEFAULT_ATTEMPTS else configured
  }

  datatype Answer = Replied(last: Attempt) | SleepCancelled

  /** The outcomes of attempts `0..n` are retryable failures, and the sleep
      after each of them ran to its end. */
  predicate Insists(tries: nat -> Attempt, interrupted: nat -> bool, n: nat) {
    forall i: nat :: i < n ==> tries(i).Failed? && tries(i).retryable && !interrupted(i)
  }

  /** A tool that `retries` is idempotent and judges its own errors. The call
      stops at the first attempt that works or is not worth repeating, at the
      last one allowed, or in an interrupted sleep. */
  ghost predicate Retried(configured: int, retries: bool, tries: nat -> Attempt, interrupted: nat -> bool,
                          r: Answer, attempts: nat)
  {
    && 1 <= attempts <= (if configured <= 0 then 3 else configured)
    && (!retries ==> attempts == 1 && r == Replied(tries(0)))
    && Insists(tries, interrupted, attempts - 1)
    && (r.Replied? ==> r.last == tries(attempts - 1))
    && (r.Replied? && retries && r.last.Failed? && r.last.retryable ==> attempts == MaxAttempts(configured))
    && (r.SleepCancelled? ==>
          && attempts < MaxAttempts(configured) && interrupted(attempts - 1)
          && tries(attempts - 1).Failed? && tries(attempts - 1).retryable)
  }

  method Retry(configured: int, retries: bool, tries: nat -> Attempt, interrupted: nat -> bool)
    returns (r: Answer, attempts: nat)
    ensures Retried(configured, retries, tries, interrupted, r, attempts)
  {
    if !retries {
      return Replied(tries(0)), 1;
    }
    var attempt: nat := 0;
    while true
      invariant attempt < MaxAttempts(configured) && Insists(tries, interrupted, attempt)
      decreases MaxAttempts(configured) - attempt
    {
      var out := tries(attempt);
      if out.Done? || !out.retryable || attempt + 1 >= MaxAttempts(configured) {
        return Replied(out), attempt + 1;
      }
      if interrupted(attempt) {
        return SleepCancelled, attempt + 1;
      }
      attempt := attempt + 1;
    }
  }

  // ----- what a history says -----

  /** What one finished call tells about the tool. A failure of a run that is
      being torn down, or one the caller caused, tells nothing. */
  datatype Verdict = Success | ToolFault | Excused

  datatype Event = Event(verdict: Verdict, at: int)

  /** Tool faults since the last success. */
  function FaultsSince(h: seq<Event>): nat {
    if h == [] || Last(h).verdict == Success then 0
    else FaultsSince(Front(h)) + (if Last(h).verdict == ToolFault then 1 else 0)
  }

  /** The last event is a fault that completes another `threshold` of them. */
  predicate Trips(threshold: nat, h: seq<Event>)
    requires threshold > 0
  {
    h != [] && Last(h).verdict == ToolFault && FaultsSince(h) % threshold == 0
  }

  /** When the breaker last tripped, if no success came after. */
  function LatestTrip(threshold: nat, h: seq<Event>): Option<int>
    requires threshold > 0
  {
    if h == [] || Last(h).verdict == Success then None
    else if Trips(threshold, h) then Some(Last(h).at)
    else LatestTrip(threshold, Front(h))
  }

  predicate OpenAt(threshold: nat, cooldown: nat, h: seq<Event>, now: int)
    requires threshold > 0
  {
    LatestTrip(threshold, h).Some? && now < LatestTrip(threshold, h).value + cooldown
  }

  // ----- the breaker -----

  datatype Counter = Counter(failures: nat, openUntil: Option<int>)

  lemma TimesApart(m: nat, p: nat, q: nat)
    requires p > q
    ensures p * m >= q * m + m
  {
    assert p * m == (p - q) * m + q * m;
    assert (p - q) * m == (p - q - 1) * m + m;
  }

  lemma QuotientUnique(m: nat, p: nat, s: nat, q: nat, r: nat)
    requires p * m + s == q * m + r && s < m && r < m
    ensures s == r
  {
    if p > q {
      TimesApart(m, p, q);
    } else if p < q {
      TimesApart(m, q, p);
    }
  }

  /** `%` is the remainder of any decomposition. */
  lemma ModUnique(n: nat, m: nat, q: nat, r: nat)
    requires n == q * m + r && r < m
    ensures n % m == r
  {
    QuotientUnique(m, n / m, n % m, q, r);
  }

  lemma ModStep(n: nat, m: nat)
    requires m > 0
    ensures (n + 1) % m == if n % m + 1 == m then 0 else n % m + 1
  {
    var q, r := n / m, n % m;
    if r + 1 == m {
      assert (q + 1) * m == q * m + m;
      ModUnique(n + 1, m, q + 1, 0);
    } else {
      ModUnique(n + 1, m, q, r + 1);
    }
  }

  /** What one event does to the count and to the latest trip. */
  lemma EventStep(threshold: nat, h: seq<Event>, e: Event)
    requires threshold > 0
    ensures FaultsSince(h + [e]) % threshold ==
              match e.verdict
              case Success => 0
              case Excused => FaultsSince(h) % threshold
              case ToolFault => if FaultsSince(h) % threshold + 1 == threshold then 0
                                else FaultsSince(h) % threshold + 1
    ensures LatestTrip(threshold, h + [e]) ==
              if e.verdict == Success then None
              else if e.verdict == ToolFault && FaultsSince(h) % threshold + 1 == threshold then Some(e.at)
              else LatestTrip(threshold, h)
  {
    assert Front(h + [e]) == h;
    ModStep(FaultsSince(h), threshold);
    if e.verdict == Success {
      ModUnique(0, threshold, 0, 0);
    }
  }

  /** An interrupted sleep returns the cancellation of a dead context. */
  function Judge(r: Answer, dead: bool): Verdict {
    match r
    case Replied(Done) => Success
    case Replied(Failed(_, callerFault)) => if dead || callerFault then Excused else ToolFault
    case SleepCancelled => Excused
  }

  /** What a finished call tells, from its last attempt `t`: a success if that
      worked, and nothing of the tool if the run was dead, the caller at fault or
      the sleep after it cancelled. */
  ghost predicate Told(r: Answer, t: Attempt, dead: bool, v: Verdict) {
    && (v == Success <==> t.Done?)
    && (v == Excused <==> t.Failed? && (dead || t.callerFault || r.SleepCancelled?))
  }

  class CircuitBreaker {
    const threshold: nat
    const cooldown: nat
    var breakers: map<string, Counter>

    /** What every tool's finished calls told, oldest first. */
    ghost var history: map<string, seq<Event>>

    /** The two fields say about the history what they should. */
    ghost predicate Refines(c: Counter, h: seq<Event>)
      requires threshold > 0
    {
      && c.failures == FaultsSince(h) % threshold
      && c.openUntil == match LatestTrip(threshold, h)
                        case None => None
                        case Some(at) => Some(at + cooldown)
    }

    ghost predicate Valid()
      reads this
    {
      && threshold > 0 && cooldown > 0
      && breakers.Keys == history.Keys
      && forall t :: t in breakers ==> Refines(breakers[t], history[t])
    }

    ghost function Of(tool: string): seq<Event>
      reads this
    {
      if tool in history then history[tool] else []
    }

    constructor (threshold: nat, cooldown: nat)
      requires threshold > 0 && cooldown > 0
      ensures Valid() && history == map[]
      ensures this.threshold == threshold && this.cooldown == cooldown
    {
      this.threshold, this.cooldown := threshold, cooldown;
      breakers, history := map[], map[];
    }

    /** Before the call: reject it while the breaker is open. */
    method Check(tool: string, now: int) returns (rejected: bool)
      requires Valid()
      modifies this
      ensures Valid() && forall t :: Of(t) == old(Of(t))
      ensures tool in breakers
      ensures rejected <==> OpenAt(threshold, cooldown, Of(tool), now)
    {
      if tool !in breakers {
        breakers, history := breakers[tool := Counter(0, None)], history[tool := []];
      }
      var b := breakers[tool];
      rejected := b.openUntil.Some? && b.openUntil.value - now > 0;
    }

    /** After the call: count what it tells. */
    method Record(tool: string, v: Verdict, now: int)
      requires Valid() && tool in breakers
      modifies this
      ensures Valid() && history == old(history)[tool := old(history)[tool] + [Event(v, now)]]
    {
      var b := breakers[tool];
      ghost var h := history[tool];
      ghost var h' := h + [Event(v, now)];
      EventStep(threshold, h, Event(v, now));
      match v {
        case Excused =>
        case Success =>
          b := Counter(0, None);
        case ToolFault =>
          b := b.(failures := b.failures + 1);
          if b.failures >= threshold {
            b := Counter(0, Some(now + cooldown));
          }
      }
      breakers, history := breakers[tool := b], history[tool := h'];
    }

    /** One call through the breaker and the retries inside it: at most one
        event, whatever the number of attempts. */
    method Call(tool: string, start: int, finish: int, configured: int, retries: bool,
                tries: nat -> Attempt, interrupted: nat -> bool, dead: bool)
      returns (answer: Option<Answer>, attempts: nat)
      requires Valid()
      modifies this
      ensures Valid() && forall t :: t != tool ==> Of(t) == old(Of(t))
      ensures answer == None <==> OpenAt(threshold, cooldown, old(Of(tool)), start)
      ensures answer == None ==> attempts == 0 && Of(tool) == old(Of(tool))
      ensures answer.Some? ==> Retried(configured, retries, tries, interrupted, answer.value, attempts)
      ensures answer.Some? ==>
                && Of(tool) != [] && Front(Of(tool)) == old(Of(tool)) && Last(Of(tool)).at == finish
                && attempts > 0 && Told(answer.value, tries(attempts - 1), dead, Last(Of(tool)).verdict)
    {
      var rejected := Check(tool, start);
      if rejected {
        return None, 0;
      }
      var r;
      r, attempts := Retry(configured, retries, tries, interrupted);
      Record(tool, Judge(r, dead), finish);
      answer := Some(r);
    }
  }

  // ----- laws -----

  /** The faults no success came after. */
  ghost function OpenFaults(h: seq<Event>): set<nat> {
    set i: nat | i < |h| && h[i].verdict == ToolFault && forall j :: i < j < |h| ==> h[j].verdict != Success
  }

  lemma OpenFaultsStep(h: seq<Event>, e: Event)
    ensures OpenFaults(h + [e]) == match e.verdict
                                   case Success => {}
                                   case Excused => OpenFaults(h)
                                   case ToolFault => OpenFaults(h) + {|h|}
  {
    var h' := h + [e];
    forall i: nat
      ensures i in OpenFaults(h') <==> (e.verdict == ToolFault && i == |h|) || (e.verdict != Success && i in OpenFaults(h))
    {
      if i < |h| {
        assert h'[i] == h[i] && h'[|h|] == e;
        assert forall j :: i < j < |h| ==> h'[j] == h[j];
      }
    }
  }

  /** The tally counts them. */
  lemma {:induction false} FaultsCounted(h: seq<Event>)
    ensures FaultsSince(h) == |OpenFaults(h)|
  {
    if h != [] {
      FaultsCounted(Front(h));
      OpenFaultsStep(Front(h), Last(h));
      assert h == Front(h) + [Last(h)];
    }
  }

  /** Event `j` neither tripped the breaker nor closed it. */
  ghost predicate Uneventful(threshold: nat, h: seq<Event>, j: nat)
    requires threshold > 0
  {
    j < |h| ==> h[j].verdict != Success && !Trips(threshold, h[..j + 1])
  }

  /** Event `i` tripped the breaker, and none since did or closed it again. */
  ghost predicate LastTripAt(threshold: nat, h: seq<Event>, i: nat)
    requires threshold > 0
  {
    && i < |h| && Trips(threshold, h[..i + 1])
    && forall j: nat :: i < j ==> Uneventful(threshold, h, j)
  }

  lemma LastTripFront(threshold: nat, h: seq<Event>, i: nat)
    requires threshold > 0 && h != [] && i < |h| - 1
    ensures LastTripAt(threshold, h, i) <==>
            LastTripAt(threshold, Front(h), i) && Last(h).verdict != Success && !Trips(threshold, h)
  {
    var front, n := Front(h), |h| - 1;
    assert h[..n + 1] == h;
    forall j: nat | j < n
      ensures Uneventful(threshold, front, j) <==> Uneventful(threshold, h, j)
    {
      assert front[j] == h[j] && front[..j + 1] == h[..j + 1];
    }
    assert front[..i + 1] == h[..i + 1];
    assert Uneventful(threshold, h, n) <==> Last(h).verdict != Success && !Trips(threshold, h);
  }

  /** The breaker is open exactly for a cooldown after its latest trip, unless a
      success came in between. */
  lemma {:induction false} OpenExact(threshold: nat, cooldown: nat, h: seq<Event>, now: int)
    requires threshold > 0
    ensures OpenAt(threshold, cooldown, h, now) <==> exists i: nat :: LastTripAt(threshold, h, i) && now < h[i].at + cooldown
  {
    if h != [] {
      OpenExact(threshold, cooldown, Front(h), now);
      assert h[..|h| - 1 + 1] == h;
      if Last(h).verdict == Success || Trips(threshold, h) {
        assert !Uneventful(threshold, h, |h| - 1);
        assert Last(h).verdict != Success ==> LastTripAt(threshold, h, |h| - 1);
      } else {
        forall i: nat | i < |h| - 1
          ensures LastTripAt(threshold, h, i) <==> LastTripAt(threshold, Front(h), i)
        {
          LastTripFront(threshold, h, i);
        }
        if OpenAt(threshold, cooldown, h, now) {
          var i: nat :| LastTripAt(threshold, Front(h), i) && now < Front(h)[i].at + cooldown;
          assert LastTripAt(threshold, h, i) && h[i] == Front(h)[i];
        }
      }
    }
  }

  /** Leaves out what tells nothing. */
  function Telling(h: seq<Event>): seq<Event> {
    if h == [] then []
    else if Last(h).verdict == Excused then Telling(Front(h))
    else Telling(Front(h)) + [Last(h)]
  }

  /** Caller faults and cancelled calls neither count nor forgive. */
  lemma {:induction false} ExcusedChangesNothing(threshold: nat, h: seq<Event>)
    requires threshold > 0
    ensures FaultsSince(Telling(h)) == FaultsSince(h)
    ensures LatestTrip(threshold, Telling(h)) == LatestTrip(threshold, h)
  {
    if h != [] {
      ExcusedChangesNothing(threshold, Front(h));
      if Last(h).verdict != Excused {
        assert Front(Telling(h)) == Telling(Front(h));
      }
    }
  }

  /** A tool is never rejected before `threshold` faults without a success. */
  lemma {:induction false} OpensOnlyAtThreshold(threshold: nat, h: seq<Event>)
    requires threshold > 0 && LatestTrip(threshold, h).Some?
    ensures FaultsSince(h) >= threshold
  {
    if Trips(threshold, h) {
      if FaultsSince(h) < threshold {
        ModUnique(FaultsSince(h), threshold, 0, FaultsSince(h));
      }
    } else {
      OpensOnlyAtThreshold(threshold, Front(h));
    }
  }

  /** One call of a sequential caller. */
  datatype Timed = Timed(start: int, finish: int, verdict: Verdict)

  /** The history that calls made one after another leave behind. */
  function HistoryOf(threshold: nat, cooldown: nat, calls: seq<Timed>): seq<Event>
    requires threshold > 0
  {
    if calls == [] then []
    else
      var h, c := HistoryOf(threshold, cooldown, Front(calls)), Last(calls);
      if OpenAt(threshold, cooldown, h, c.start) then h else h + [Event(c.verdict, c.finish)]
  }

  predicate OneAfterAnother(calls: seq<Timed>) {
    && (forall i :: 0 <= i < |calls| ==> calls[i].start <= calls[i].finish)
    && (forall i, j :: 0 <= i < j < |calls| ==> calls[i].finish <= calls[j].start)
  }

  predicate Quiet(threshold: nat, cooldown: nat, h: seq<Event>)
    requires threshold > 0
  {
    forall i, j :: 0 <= i < j < |h| && Trips(threshold, h[..i + 1]) ==> h[j].at >= h[i].at + cooldown
  }

  lemma {:induction false} EventsAreCalls(threshold: nat, cooldown: nat, calls: seq<Timed>, top: int)
    requires threshold > 0 && forall i :: 0 <= i < |calls| ==> calls[i].finish <= top
    ensures forall i :: 0 <= i < |HistoryOf(threshold, cooldown, calls)| ==>
              HistoryOf(threshold, cooldown, calls)[i].at <= top
  {
    if calls != [] {
      EventsAreCalls(threshold, cooldown, Front(calls), top);
    }
  }

  lemma QuietStep(threshold: nat, cooldown: nat, h: seq<Event>, c: Timed)
    requires threshold > 0 && Quiet(threshold, cooldown, h) && c.start <= c.finish
    requires !OpenAt(threshold, cooldown, h, c.start)
    requires forall i :: 0 <= i < |h| ==> h[i].at <= c.start
    ensures Quiet(threshold, cooldown, h + [Event(c.verdict, c.finish)])
  {
    var h' := h + [Event(c.verdict, c.finish)];
    forall i, j | 0 <= i < j < |h'| && Trips(threshold, h'[..i + 1])
      ensures h'[j].at >= h'[i].at + cooldown
    {
      assert h'[..i + 1] == h[..i + 1];
      if j == |h| {
        if i == |h| - 1 {
          assert h[..i + 1] == h;
        } else {
          assert h[|h| - 1].at >= h[i].at + cooldown;
        }
      }
    }
  }

  /** For calls made one after another, nothing reaches the tool for a whole
      cooldown after each trip. */
  lemma {:induction false} QuietWhileOpen(threshold: nat, cooldown: nat, calls: seq<Timed>)
    requires threshold > 0 && OneAfterAnother(calls)
    ensures Quiet(threshold, cooldown, HistoryOf(threshold, cooldown, calls))
  {
    if calls != [] {
      var h, c := HistoryOf(threshold, cooldown, Front(calls)), Last(calls);
      QuietWhileOpen(threshold, cooldown, Front(calls));
      EventsAreCalls(threshold, cooldown, Front(calls), c.start);
      if !OpenAt(threshold, cooldown, h, c.start) {
        QuietStep(threshold, cooldown, h, c);
      }
    }
  }
}
