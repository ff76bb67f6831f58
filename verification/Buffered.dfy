/** The event buffer of one run (`buffered.go`), with the fields the source
    updates under its mutex. Each critical section is one step of `EventLog`. */
module Buffered {
  import opened EventLog

  const BUFFER_CAP: nat := 8192

  class Buffer<E> {
    var events: seq<E>
    var base: nat
    var changed: nat
    var finished: bool

    /** Every event ever appended. */
    ghost var history: seq<E>

    function State(): Log<E>
      reads this
    {
      Log(events, base, changed, finished)
    }

    ghost predicate Valid()
      reads this
    {
      LogOk(State(), history, BUFFER_CAP)
    }

    constructor ()
      ensures Valid() && State() == Log([], 0, 0, false) && history == []
    {
      events, base, changed, finished := [], 0, 0, false;
      history := [];
    }

    method Wake()
      modifies this`changed
      ensures changed == old(changed) + 1
    {
      changed := changed + 1;
    }

    /** Keeps the event and, past the cap, forgets the oldest. */
    method Append(e: E)
      requires Valid()
      modifies this
      ensures Valid() && history == old(history) + [e]
      ensures State() == Appended(old(State()), e, BUFFER_CAP)
      ensures base == (if |history| > 8192 then |history| - 8192 else 0) && events == history[base..]
    {
      AppendedOk(State(), history, e, BUFFER_CAP);
      history := history + [e];
      events := events + [e];
      var over := |events| - BUFFER_CAP;
      if over > 0 {
        events := events[over..];
        base := base + over;
      }
      Wake();
    }

    /** One pass of a follower under the lock: its clamped position, the events
        from there, the channel to wait on and whether the run is over. */
    method Read(at: nat) returns (from: nat, batch: seq<E>, wait: nat, over: bool)
      requires Valid()
      ensures batch == if from < |history| then history[from..] else []
      ensures (from, batch) == ReadAt(State(), at) && wait == changed && over == finished
    {
      ReadIsStretch(State(), history, at, BUFFER_CAP);
      from := if at < base then base else at;
      batch := [];
      var i := from - base;
      if i < |events| {
        batch := events[i..];
      }
      wait, over := changed, finished;
    }

    /** The number of events ever appended, evicted ones included. */
    method Len() returns (n: nat)
      requires Valid()
      ensures n == |history|
    {
      n := base + |events|;
    }

    /** The draining goroutine: everything the run emits is appended, and then
        the log is over. */
    method Drain(run: seq<E>)
      requires Valid() && history == []
      modifies this
      ensures Valid() && history == run && finished
      ensures State() == Finished(AppendedAll(old(State()), run, BUFFER_CAP))
    {
      for i := 0 to |run|
        invariant Valid() && history == run[..i]
        invariant State() == AppendedAll(old(State()), run[..i], BUFFER_CAP)
      {
        assert run[..i] + [run[i]] == run[..i + 1];
        assert run[..i + 1][..i] == run[..i];
        Append(run[i]);
      }
      assert run[..|run|] == run;
      finished := true;
      Wake();
    }
  }

  function Appending<E>(run: seq<E>): seq<Step<E>> {
    seq(|run|, i requires 0 <= i < |run| => Step.Append(run[i]))
  }

  /** The steps of a drained run in the system of log and followers. */
  function Drained<E>(run: seq<E>): seq<Step<E>> {
    Appending(run) + [Finish]
  }

  lemma {:induction false} AppendingReaches<E>(run: seq<E>)
    ensures Reach(Appending(run), BUFFER_CAP) == System(AppendedAll(Log([], 0, 0, false), run, BUFFER_CAP), run, [])
    ensures !AppendedAll<E>(Log([], 0, 0, false), run, BUFFER_CAP).over
  {
    if run != [] {
      var n := |run| - 1;
      AppendingReaches(run[..n]);
      assert Appending(run)[..n] == Appending(run[..n]) && Appending(run)[n] == Step.Append(run[n]);
      assert run[..n] + [run[n]] == run;
    }
  }

  /** What draining makes of a new buffer is a state the system reaches, so the
      laws of its followers hold of it. */
  lemma DrainIsReached<E>(run: seq<E>)
    ensures Reach(Drained(run), BUFFER_CAP)
         == System(Finished(AppendedAll(Log([], 0, 0, false), run, BUFFER_CAP)), run, [])
  {
    AppendingReaches(run);
    assert Drained(run)[..|run|] == Appending(run);
  }
}
