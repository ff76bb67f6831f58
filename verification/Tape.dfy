/** The content-keyed record and replay tape of `tape/tape.go` and
    `tape/middleware.go`, as step functions over the loaded pool, the cursors,
    the sequence counters and the file. */
module Tape {
  import opened Llm

  datatype Kind = LlmCall | ToolCall

  /** Hashes are taken to be injective, so a key stands for a request. */
  datatype RecKey = RecKey(kind: Kind, hash: nat)

  datatype Entry<R> = Entry(key: RecKey, seqNo: nat, resp: R)
  datatype Mode = Auto | Record | Replay
  datatype Stats = Stats(hits: nat, misses: nat, recorded: nat)

  datatype State<R> = State(
    loaded: map<RecKey, seq<R>>,
    cursor: map<RecKey, nat>,
    next: map<RecKey, nat>,
    file: seq<Entry<R>>,
    writable: bool,
    stats: Stats,
    writeErr: bool)

  /** One intercepted call: its key, what the live side would do, whether the
      caller's context is already cancelled and whether the append succeeds. A
      failed model call is not taped; a failed tool call is a response. */
  datatype Call<R> = Call(key: RecKey, live: Option<R>, cancelled: bool, wrote: bool)

  datatype Out<R> = Replayed(resp: R) | Cancelled | Missed | Live(resp: R) | LiveFailed

  function Count(m: map<RecKey, nat>, k: RecKey): nat {
    if k in m then m[k] else 0
  }

  // ----- loading -----

  /** The entries of one key, in file order. */
  function Of<R>(file: seq<Entry<R>>, k: RecKey): seq<Entry<R>> {
    if file == [] then []
    else if Last(file).key == k then Of(Front(file), k) + [Last(file)]
    else Of(Front(file), k)
  }

  /** Places `e` after every entry whose number is not larger. */
  function Insert<R>(es: seq<Entry<R>>, e: Entry<R>): seq<Entry<R>> {
    if es == [] || Last(es).seqNo <= e.seqNo then es + [e]
    else Insert(Front(es), e) + [Last(es)]
  }

  /** The stable sort by sequence number. */
  function Sorted<R>(es: seq<Entry<R>>): seq<Entry<R>> {
    if es == [] then [] else Insert(Sorted(Front(es)), Last(es))
  }

  function Responses<R>(es: seq<Entry<R>>): seq<R> {
    seq(|es|, i requires 0 <= i < |es| => es[i].resp)
  }

  function KeysOf<R>(file: seq<Entry<R>>): set<RecKey> {
    set i | 0 <= i < |file| :: file[i].key
  }

  function Pool<R>(file: seq<Entry<R>>): map<RecKey, seq<R>> {
    map k | k in KeysOf(file) :: Responses(Sorted(Of(file, k)))
  }

  function Open<R>(file: seq<Entry<R>>, mode: Mode): State<R> {
    State(Pool(file), map[], map k | k in KeysOf(file) :: |Of(file, k)|, file, mode != Replay, Stats(0, 0, 0), false)
  }

  // ----- one call -----

  /** The next recorded response; the last one repeats. */
  function Take<R>(s: State<R>, k: RecKey): (State<R>, Option<R>) {
    if k !in s.loaded || s.loaded[k] == [] then
      (s.(stats := s.stats.(misses := s.stats.misses + 1)), None)
    else
      var pool, i := s.loaded[k], Count(s.cursor, k);
      var s' := s.(stats := s.stats.(hits := s.stats.hits + 1));
      if i >= |pool| then (s', Some(Last(pool))) else (s'.(cursor := s'.cursor[k := i + 1]), Some(pool[i]))
  }

  function Append<R>(s: State<R>, k: RecKey, resp: R, wrote: bool): State<R> {
    if !s.writable then s.(writeErr := true)
    else
      var n := Count(s.next, k);
      var s' := s.(next := s.next[k := n + 1]);
      if wrote
      then s'.(file := s'.file + [Entry(k, n, resp)], stats := s'.stats.(recorded := s'.stats.recorded + 1))
      else s'.(writeErr := true)
  }

  function GoLive<R>(s: State<R>, c: Call<R>): (State<R>, Out<R>) {
    match c.live
    case None => (s, LiveFailed)
    case Some(resp) => (Append(s, c.key, resp, c.wrote), Live(resp))
  }

  function Intercept<R>(s: State<R>, mode: Mode, c: Call<R>): (State<R>, Out<R>) {
    if mode == Record then GoLive(s.(stats := s.stats.(misses := s.stats.misses + 1)), c)
    else
      var (s', hit) := Take(s, c.key);
      match hit
      case Some(resp) => (s', if c.cancelled then Cancelled else Replayed(resp))
      case None => if mode == Replay then (s', Missed) else GoLive(s', c)
  }

  /** A session: the calls of one process between open and close. */
  function Session<R>(s: State<R>, mode: Mode, calls: seq<Call<R>>): (r: (State<R>, seq<Out<R>>))
    ensures |r.1| == |calls|
  {
    if calls == [] then (s, [])
    else
      var (before, outs) := Session(s, mode, Front(calls));
      var (after, out) := Intercept(before, mode, Last(calls));
      (after, outs + [out])
  }

  // ----- the sort -----

  ghost predicate Ordered<R>(es: seq<Entry<R>>) {
    forall i, j :: 0 <= i < j < |es| ==> es[i].seqNo <= es[j].seqNo
  }

  /** The entries numbered `n`, in order. */
  function Numbered<R>(es: seq<Entry<R>>, n: nat): seq<Entry<R>> {
    if es == [] then []
    else if Last(es).seqNo == n then Numbered(Front(es), n) + [Last(es)]
    else Numbered(Front(es), n)
  }

  lemma {:induction false} InsertSorts<R>(es: seq<Entry<R>>, e: Entry<R>)
    requires Ordered(es)
    ensures Ordered(Insert(es, e)) && |Insert(es, e)| == |es| + 1
    ensures forall i :: 0 <= i <= |es| ==> Insert(es, e)[i].seqNo <= e.seqNo || (es != [] && Insert(es, e)[i].seqNo <= Last(es).seqNo)
    ensures forall n :: Numbered(Insert(es, e), n) == if n == e.seqNo then Numbered(es, n) + [e] else Numbered(es, n)
  {
    var r := Insert(es, e);
    if es == [] || Last(es).seqNo <= e.seqNo {
      assert Front(es + [e]) == es;
    } else {
      var front, last := Front(es), Last(es);
      InsertSorts(front, e);
      assert Front(r) == Insert(front, e);
      forall n
        ensures Numbered(r, n) == if n == e.seqNo then Numbered(es, n) + [e] else Numbered(es, n)
      {
        assert Numbered(es, n) == if last.seqNo == n then Numbered(front, n) + [last] else Numbered(front, n);
      }
    }
  }

  /** The sort orders, and keeps entries of one number in file order. */
  lemma {:induction false} SortedStable<R>(es: seq<Entry<R>>)
    ensures Ordered(Sorted(es)) && |Sorted(es)| == |es|
    ensures forall n :: Numbered(Sorted(es), n) == Numbered(es, n)
  {
    if es != [] {
      SortedStable(Front(es));
      InsertSorts(Sorted(Front(es)), Last(es));
    }
  }

  /** A key replays in file order exactly when its numbers never fall. */
  lemma {:induction false} SortedIdentity<R>(es: seq<Entry<R>>)
    ensures Sorted(es) == es <==> Ordered(es)
  {
    SortedStable(es);
    if es != [] && Ordered(es) {
      assert Ordered(Front(es)) by {
        assert forall i :: 0 <= i < |es| - 1 ==> Front(es)[i] == es[i];
      }
      SortedIdentity(Front(es));
      assert es == Front(es) + [Last(es)];
    }
  }

  // ----- numbering -----

  /** Each key's entries carry 0, 1, 2, ... in file order. */
  ghost predicate Sequential<R>(file: seq<Entry<R>>) {
    forall k, i :: 0 <= i < |Of(file, k)| ==> Of(file, k)[i].seqNo == i
  }

  lemma OfSnoc<R>(file: seq<Entry<R>>, e: Entry<R>, k: RecKey)
    ensures Of(file + [e], k) == if e.key == k then Of(file, k) + [e] else Of(file, k)
  {
    assert Front(file + [e]) == file;
  }

  lemma {:induction false} OfKeys<R>(file: seq<Entry<R>>, k: RecKey)
    ensures k in KeysOf(file) <==> Of(file, k) != []
  {
    if file != [] {
      var n := |file| - 1;
      OfKeys(Front(file), k);
      assert forall i :: 0 <= i < n ==> Front(file)[i] == file[i];
      if k in KeysOf(file) && file[n].key != k {
        var i :| 0 <= i < |file| && file[i].key == k;
        assert Front(file)[i].key == k;
        assert k in KeysOf(Front(file));
      }
      if k in KeysOf(Front(file)) {
        var i :| 0 <= i < n && Front(file)[i].key == k;
        assert file[i].key == k;
      }
      assert file[n].key in KeysOf(file);
    }
  }

  /** What holds between two calls of a session opened on `file0`. */
  ghost predicate InSession<R>(s: State<R>, file0: seq<Entry<R>>) {
    && s.loaded == Pool(file0)
    && Sequential(s.file)
    && forall k :: Count(s.next, k) == |Of(s.file, k)|
  }

  lemma OpenInSession<R>(file: seq<Entry<R>>, mode: Mode)
    requires Sequential(file)
    ensures InSession(Open(file, mode), file)
  {
    forall k
      ensures Count(Open(file, mode).next, k) == |Of(file, k)|
    {
      OfKeys(file, k);
    }
  }

  ghost predicate AllWrote<R>(calls: seq<Call<R>>) {
    forall i :: 0 <= i < |calls| ==> calls[i].wrote
  }

  /** What one call adds to the file. */
  function Added<R>(s: State<R>, mode: Mode, c: Call<R>): seq<Entry<R>> {
    if Intercept(s, mode, c).1.Live? && s.writable && c.wrote
    then [Entry(c.key, Count(s.next, c.key), Intercept(s, mode, c).1.resp)]
    else []
  }

  /** Whatever a call does to cursors and counts of hits, it touches the file
      only by appending what went live. */
  lemma TakeFrame<R>(s: State<R>, k: RecKey)
    ensures var s' := Take(s, k).0;
            s'.loaded == s.loaded && s'.next == s.next && s'.file == s.file && s'.writable == s.writable
  {
  }

  lemma OneMore<R>(file: seq<Entry<R>>, e: Entry<R>, k: RecKey)
    requires forall i :: 0 <= i < |Of(file, k)| ==> Of(file, k)[i].seqNo == i
    requires e.key == k ==> e.seqNo == |Of(file, k)|
    ensures |Of(file + [e], k)| == |Of(file, k)| + if e.key == k then 1 else 0
    ensures forall i :: 0 <= i < |Of(file + [e], k)| ==> Of(file + [e], k)[i].seqNo == i
  {
    OfSnoc(file, e, k);
  }

  lemma AppendKeeps<R>(s: State<R>, k: RecKey, resp: R, file0: seq<Entry<R>>)
    requires InSession(s, file0)
    ensures var s' := Append(s, k, resp, true);
            && InSession(s', file0) && s'.writable == s.writable
            && s'.file == s.file + if s.writable then [Entry(k, Count(s.next, k), resp)] else []
  {
    var s', e := Append(s, k, resp, true), Entry(k, Count(s.next, k), resp);
    if s.writable {
      forall k2
        ensures Count(s'.next, k2) == |Of(s'.file, k2)|
        ensures forall i :: 0 <= i < |Of(s'.file, k2)| ==> Of(s'.file, k2)[i].seqNo == i
      {
        OneMore(s.file, e, k2);
      }
    } else {
      assert s.file + [] == s.file;
    }
  }

  lemma InterceptKeeps<R>(s: State<R>, mode: Mode, c: Call<R>, file0: seq<Entry<R>>)
    requires InSession(s, file0) && c.wrote
    ensures var s' := Intercept(s, mode, c).0;
            InSession(s', file0) && s'.writable == s.writable && s'.file == s.file + Added(s, mode, c)
  {
    var t := if mode == Record then s.(stats := s.stats.(misses := s.stats.misses + 1)) else Take(s, c.key).0;
    TakeFrame(s, c.key);
    assert InSession(t, file0) && t.next == s.next && t.file == s.file && t.writable == s.writable;
    if Intercept(s, mode, c).1.Live? {
      var resp := Intercept(s, mode, c).1.resp;
      AppendKeeps(t, c.key, resp, file0);
      assert Intercept(s, mode, c).0 == Append(t, c.key, resp, true);
    } else {
      assert s.file + [] == s.file && Intercept(s, mode, c).0 == t;
    }
  }

  lemma {:induction false} SessionKeeps<R>(s: State<R>, mode: Mode, calls: seq<Call<R>>, file0: seq<Entry<R>>)
    requires InSession(s, file0) && AllWrote(calls)
    ensures InSession(Session(s, mode, calls).0, file0)
    ensures Session(s, mode, calls).0.writable == s.writable
    ensures s.file <= Session(s, mode, calls).0.file
  {
    if calls != [] {
      assert AllWrote(Front(calls)) by {
        assert forall i :: 0 <= i < |calls| - 1 ==> Front(calls)[i] == calls[i];
      }
      SessionKeeps(s, mode, Front(calls), file0);
      InterceptKeeps(Session(s, mode, Front(calls)).0, mode, Last(calls), file0);
    }
  }

  // ----- replay -----

  /** How often `k` was asked before. */
  function Asked<R>(calls: seq<Call<R>>, k: RecKey): nat {
    if calls == [] then 0
    else Asked(Front(calls), k) + if Last(calls).key == k then 1 else 0
  }

  function Min(a: nat, b: nat): nat {
    if a < b then a else b
  }

  /** What a call must be answered with, from the file as it was opened. */
  function Expected<R>(file: seq<Entry<R>>, mode: Mode, before: seq<Call<R>>, c: Call<R>): Out<R> {
    var pool := Responses(Of(file, c.key));
    if mode == Record || (pool == [] && mode == Auto) then
      match c.live
      case Some(resp) => Live(resp)
      case None => LiveFailed
    else if pool == [] then Missed
    else if c.cancelled then Cancelled
    else Replayed(pool[Min(Asked(before, c.key), |pool| - 1)])
  }

  ghost predicate CursorsAt<R>(s: State<R>, calls: seq<Call<R>>) {
    forall k :: k in s.loaded ==> Count(s.cursor, k) == Min(Asked(calls, k), |s.loaded[k]|)
  }

  lemma PoolOf<R>(file: seq<Entry<R>>, k: RecKey)
    requires Sequential(file)
    ensures k in Pool(file) <==> Of(file, k) != []
    ensures k in Pool(file) ==> Pool(file)[k] == Responses(Of(file, k))
  {
    OfKeys(file, k);
    SortedIdentity(Of(file, k));
  }

  lemma CursorsStep<R>(s: State<R>, before: seq<Call<R>>, c: Call<R>)
    requires CursorsAt(s, before)
    ensures CursorsAt(Take(s, c.key).0, before + [c])
  {
    assert Front(before + [c]) == before && Last(before + [c]) == c;
    var s' := Take(s, c.key).0;
    forall k | k in s'.loaded
      ensures Count(s'.cursor, k) == Min(Asked(before + [c], k), |s'.loaded[k]|)
    {
      assert Count(s.cursor, k) == Min(Asked(before, k), |s.loaded[k]|);
    }
  }

  lemma TakeExpected<R>(s: State<R>, file0: seq<Entry<R>>, before: seq<Call<R>>, c: Call<R>)
    requires s.loaded == Pool(file0) && Sequential(file0) && CursorsAt(s, before)
    ensures var pool := Responses(Of(file0, c.key));
            Take(s, c.key).1 == if pool == [] then None else Some(pool[Min(Asked(before, c.key), |pool| - 1)])
    ensures CursorsAt(Take(s, c.key).0, before + [c])
  {
    PoolOf(file0, c.key);
    CursorsStep(s, before, c);
  }

  lemma InterceptExpected<R>(s: State<R>, mode: Mode, file0: seq<Entry<R>>, before: seq<Call<R>>, c: Call<R>)
    requires s.loaded == Pool(file0) && Sequential(file0) && (mode != Record ==> CursorsAt(s, before))
    ensures Intercept(s, mode, c).1 == Expected(file0, mode, before, c)
    ensures mode != Record ==> CursorsAt(Intercept(s, mode, c).0, before + [c])
  {
    if mode != Record {
      TakeExpected(s, file0, before, c);
      var t := Take(s, c.key).0;
      TakeFrame(s, c.key);
      var s' := Intercept(s, mode, c).0;
      assert s'.cursor == t.cursor && s'.loaded == t.loaded;
    }
  }

  /** What was loaded on opening stays as it is. */
  lemma {:induction false} PoolKept<R>(s: State<R>, mode: Mode, calls: seq<Call<R>>)
    ensures Session(s, mode, calls).0.loaded == s.loaded
  {
    if calls != [] {
      PoolKept(s, mode, Front(calls));
    }
  }

  /** Under any interleaving of keys, each ask of a key is answered by its own
      position in the file as it was opened; further asks repeat the last entry.
      Nothing recorded in a session is replayed in it, and no failed append
      changes an answer. */
  lemma {:induction false} SessionReplays<R>(file: seq<Entry<R>>, mode: Mode, calls: seq<Call<R>>)
    requires Sequential(file)
    ensures var (s, outs) := Session(Open(file, mode), mode, calls);
            && (mode != Record ==> CursorsAt(s, calls))
            && forall i :: 0 <= i < |calls| ==> outs[i] == Expected(file, mode, calls[..i], calls[i])
  {
    if calls != [] {
      var n := |calls| - 1;
      assert Front(calls) == calls[..n] && calls == Front(calls) + [calls[n]];
      SessionReplays(file, mode, Front(calls));
      PoolKept(Open(file, mode), mode, Front(calls));
      InterceptExpected(Session(Open(file, mode), mode, Front(calls)).0, mode, file, Front(calls), calls[n]);
      forall i | 0 <= i < |calls|
        ensures Session(Open(file, mode), mode, calls).1[i] == Expected(file, mode, calls[..i], calls[i])
      {
        if i < n {
          assert Front(calls)[i] == calls[i] && Front(calls)[..i] == calls[..i];
        }
      }
    }
  }

  // ----- the counters -----

  /** How many calls were answered from the tape, cancelled ones included. */
  function Hits<R>(outs: seq<Out<R>>): (n: nat)
    ensures n <= |outs|
  {
    if outs == [] then 0 else Hits(Front(outs)) + (if Last(outs).Replayed? || Last(outs).Cancelled? then 1 else 0)
  }

  /** How many live answers made it to the file, and how many did not. */
  function Written<R>(calls: seq<Call<R>>, outs: seq<Out<R>>, wrote: bool): nat
    requires |calls| == |outs|
    decreases |outs|
  {
    if outs == [] then 0
    else Written(Front(calls), Front(outs), wrote) + (if Last(outs).Live? && Last(calls).wrote == wrote then 1 else 0)
  }

  /** What one call does to the counters, to the file and to the error flag. */
  lemma InterceptCounts<R>(s: State<R>, mode: Mode, c: Call<R>)
    requires s.writable == (mode != Replay)
    ensures var (s', out) := Intercept(s, mode, c);
            && s'.writable == s.writable
            && s'.stats.hits == s.stats.hits + (if out.Replayed? || out.Cancelled? then 1 else 0)
            && s'.stats.misses == s.stats.misses + (if out.Replayed? || out.Cancelled? then 0 else 1)
            && s'.stats.recorded == s.stats.recorded + (if out.Live? && c.wrote then 1 else 0)
            && |s'.file| == |s.file| + (if out.Live? && c.wrote then 1 else 0)
            && s'.writeErr == (s.writeErr || (out.Live? && !c.wrote))
  {
    TakeFrame(s, c.key);
    TakeCounts(s, c.key);
  }

  lemma TakeCounts<R>(s: State<R>, k: RecKey)
    ensures var (s', hit) := Take(s, k);
            s'.writeErr == s.writeErr && s'.stats == if hit.Some? then s.stats.(hits := s.stats.hits + 1) else s.stats.(misses := s.stats.misses + 1)
  {
  }

  /** The counters of a session tell its outcomes: a hit for each answer from the
      tape, a miss for every other call, a record for each live answer that made
      it to the file; the error flag is up exactly when one did not. */
  lemma {:induction false} SessionCounts<R>(file: seq<Entry<R>>, mode: Mode, calls: seq<Call<R>>)
    ensures var (s, outs) := Session(Open(file, mode), mode, calls);
            && s.writable == (mode != Replay)
            && s.stats == Stats(Hits(outs), |calls| - Hits(outs), Written(calls, outs, true))
            && |s.file| == |file| + Written(calls, outs, true)
            && (s.writeErr <==> Written(calls, outs, false) > 0)
  {
    if calls != [] {
      SessionCounts(file, mode, Front(calls));
      var (before, outs) := Session(Open(file, mode), mode, Front(calls));
      InterceptCounts(before, mode, Last(calls));
      var out := Intercept(before, mode, Last(calls)).1;
      assert Front(outs + [out]) == outs && Last(outs + [out]) == out;
    }
  }

  // ----- the round trip -----

  /** The live results of `k` in a session, in order. */
  function LiveOf<R>(calls: seq<Call<R>>, k: RecKey): seq<R> {
    if calls == [] then []
    else if Last(calls).key == k && Last(calls).live.Some? then LiveOf(Front(calls), k) + [Last(calls).live.value]
    else LiveOf(Front(calls), k)
  }

  /** What a session appends under `k`: everything when recording, only what was
      missing when resuming, nothing when replaying. */
  function Taped<R>(file: seq<Entry<R>>, mode: Mode, calls: seq<Call<R>>, k: RecKey): seq<R> {
    if mode == Record || (mode == Auto && Of(file, k) == []) then LiveOf(calls, k) else []
  }

  lemma ResponsesSnoc<R>(es: seq<Entry<R>>, e: Entry<R>)
    ensures Responses(es + [e]) == Responses(es) + [e.resp]
  {
  }

  lemma LastCall<R>(file: seq<Entry<R>>, mode: Mode, before: seq<Call<R>>, c: Call<R>)
    requires Sequential(file) && AllWrote(before) && c.wrote
    ensures var s := Session(Open(file, mode), mode, before).0;
            && Intercept(s, mode, c).1 == Expected(file, mode, before, c)
            && Intercept(s, mode, c).0.file == s.file + Added(s, mode, c)
            && s.writable == (mode != Replay)
  {
    var s := Session(Open(file, mode), mode, before).0;
    OpenInSession(file, mode);
    SessionKeeps(Open(file, mode), mode, before, file);
    SessionReplays(file, mode, before);
    InterceptExpected(s, mode, file, before, c);
    InterceptKeeps(s, mode, c, file);
  }

  lemma TapedStep<R>(s: State<R>, file: seq<Entry<R>>, mode: Mode, before: seq<Call<R>>, c: Call<R>, k: RecKey)
    requires Intercept(s, mode, c).1 == Expected(file, mode, before, c)
    requires c.wrote && s.writable == (mode != Replay)
    requires Responses(Of(s.file, k)) == Responses(Of(file, k)) + Taped(file, mode, before, k)
    ensures Responses(Of(s.file + Added(s, mode, c), k)) == Responses(Of(file, k)) + Taped(file, mode, before + [c], k)
  {
    var added := Added(s, mode, c);
    assert Front(before + [c]) == before && Last(before + [c]) == c;
    if added != [] {
      OfSnoc(s.file, added[0], k);
      ResponsesSnoc(Of(s.file, k), added[0]);
      assert added == [added[0]];
    } else {
      assert s.file + added == s.file;
    }
  }

  /** After a session the file holds, for each key, what it held before followed
      by what the session recorded. */
  lemma {:induction false} SessionTapes<R>(file: seq<Entry<R>>, mode: Mode, calls: seq<Call<R>>, k: RecKey)
    requires Sequential(file) && AllWrote(calls)
    ensures var s := Session(Open(file, mode), mode, calls).0;
            Responses(Of(s.file, k)) == Responses(Of(file, k)) + Taped(file, mode, calls, k)
  {
    if calls == [] {
      assert Responses(Of(file, k)) + [] == Responses(Of(file, k));
    } else {
      var front, c := Front(calls), Last(calls);
      assert calls == front + [c];
      assert AllWrote(front) by {
        assert forall i :: 0 <= i < |calls| - 1 ==> front[i] == calls[i];
      }
      SessionTapes(file, mode, front, k);
      var s := Session(Open(file, mode), mode, front).0;
      LastCall(file, mode, front, c);
      TapedStep(s, file, mode, front, c, k);
      assert Session(Open(file, mode), mode, calls).0 == Intercept(s, mode, c).0;
    }
  }

  lemma {:induction false} LiveOfCount<R>(calls: seq<Call<R>>, k: RecKey)
    requires forall j :: 0 <= j < |calls| ==> calls[j].live.Some?
    ensures |LiveOf(calls, k)| == Asked(calls, k)
  {
    if calls != [] {
      assert forall j :: 0 <= j < |calls| - 1 ==> Front(calls)[j] == calls[j];
      LiveOfCount(Front(calls), k);
    }
  }

  lemma {:induction false} LiveOfAt<R>(calls: seq<Call<R>>, i: nat)
    requires i < |calls| && forall j :: 0 <= j < |calls| ==> calls[j].live.Some?
    ensures var k := calls[i].key;
            && Asked(calls[..i], k) < |LiveOf(calls, k)| == Asked(calls, k)
            && LiveOf(calls, k)[Asked(calls[..i], k)] == calls[i].live.value
  {
    var k, n := calls[i].key, |calls| - 1;
    var front := Front(calls);
    assert forall j :: 0 <= j < n ==> front[j] == calls[j];
    LiveOfCount(front, k);
    if i < n {
      assert front[..i] == calls[..i];
      LiveOfAt(front, i);
    } else {
      assert calls[..i] == front;
    }
  }

  lemma TapeHolds<R>(file: seq<Entry<R>>, mode: Mode, calls: seq<Call<R>>, k: RecKey)
    requires Sequential(file) && AllWrote(calls)
    ensures var tape := Session(Open(file, mode), mode, calls).0.file;
            Sequential(tape) && Responses(Of(tape, k)) == Responses(Of(file, k)) + Taped(file, mode, calls, k)
  {
    OpenInSession(file, mode);
    SessionKeeps(Open(file, mode), mode, calls, file);
    SessionTapes(file, mode, calls, k);
  }

  lemma ReplayAt<R>(tape: seq<Entry<R>>, mode: Mode, again: seq<Call<R>>, i: nat)
    requires Sequential(tape) && i < |again|
    ensures Session(Open(tape, mode), mode, again).1[i] == Expected(tape, mode, again[..i], again[i])
  {
    SessionReplays(tape, mode, again);
  }

  lemma ExpectedHit<R>(tape: seq<Entry<R>>, mode: Mode, before: seq<Call<R>>, c: Call<R>, results: seq<R>)
    requires mode != Record && !c.cancelled && Responses(Of(tape, c.key)) == results && results != []
    ensures Expected(tape, mode, before, c) == Replayed(results[Min(Asked(before, c.key), |results| - 1)])
  {
  }

  /** Close and reopen, to replay or to resume: any call sequence is then
      answered, key by key, with the recorded results in the order they were
      recorded, whatever the file held before and whatever mode the first
      session ran in. */
  lemma ReopenReplays<R>(file: seq<Entry<R>>, mode: Mode, calls: seq<Call<R>>, mode2: Mode, again: seq<Call<R>>, i: nat)
    requires Sequential(file) && AllWrote(calls) && mode2 != Record && i < |again| && !again[i].cancelled
    requires Responses(Of(file, again[i].key)) + Taped(file, mode, calls, again[i].key) != []
    ensures var tape := Session(Open(file, mode), mode, calls).0.file;
            var k := again[i].key;
            var results := Responses(Of(file, k)) + Taped(file, mode, calls, k);
            Session(Open(tape, mode2), mode2, again).1[i] == Replayed(results[Min(Asked(again[..i], k), |results| - 1)])
  {
    var k, tape := again[i].key, Session(Open(file, mode), mode, calls).0.file;
    TapeHolds(file, mode, calls, k);
    ReplayAt(tape, mode2, again, i);
    ExpectedHit(tape, mode2, again[..i], again[i], Responses(Of(file, k)) + Taped(file, mode, calls, k));
  }

  /** In particular the recorded run itself replays verbatim. */
  lemma {:induction false} ReplayIsFaithful<R>(calls: seq<Call<R>>, i: nat)
    requires AllWrote(calls) && i < |calls| && !calls[i].cancelled
    requires forall j :: 0 <= j < |calls| ==> calls[j].live.Some?
    ensures var tape := Session(Open([], Record), Record, calls).0.file;
            Session(Open(tape, Replay), Replay, calls).1[i] == Replayed(calls[i].live.value)
  {
    var k := calls[i].key;
    LiveOfAt(calls, i);
    assert Responses(Of([], k)) + LiveOf(calls, k) == LiveOf(calls, k);
    ReopenReplays([], Record, calls, Replay, calls, i);
  }

  /** The file after any number of sessions. */
  function Sessions<R>(file: seq<Entry<R>>, runs: seq<(Mode, seq<Call<R>>)>): seq<Entry<R>> {
    if runs == [] then file
    else
      var before := Sessions(file, Front(runs));
      Session(Open(before, Last(runs).0), Last(runs).0, Last(runs).1).0.file
  }

  /** Numbering survives any number of sessions in any modes. */
  lemma {:induction false} SessionsSequential<R>(file: seq<Entry<R>>, runs: seq<(Mode, seq<Call<R>>)>)
    requires Sequential(file) && forall i :: 0 <= i < |runs| ==> AllWrote(runs[i].1)
    ensures Sequential(Sessions(file, runs)) && file <= Sessions(file, runs)
  {
    if runs != [] {
      assert forall i :: 0 <= i < |runs| - 1 ==> Front(runs)[i] == runs[i];
      SessionsSequential(file, Front(runs));
      var before := Sessions(file, Front(runs));
      OpenInSession(before, Last(runs).0);
      SessionKeeps(Open(before, Last(runs).0), Last(runs).0, Last(runs).1, before);
    }
  }

  /** One session, two of whose appends fail, then another. */
  function BurnedTape(k: RecKey): seq<Entry<int>> {
    var s := Append(Append(Append(Append(Open([], Record), k, 10, true), k, 11, false), k, 12, false), k, 13, true);
    Append(Open(s.file, Record), k, 20, true).file
  }

  lemma PoolReplays<R>(file: seq<Entry<R>>, k: RecKey)
    requires Of(file, k) != []
    ensures k in Pool(file) && Pool(file)[k] == Responses(Sorted(Of(file, k)))
  {
    OfKeys(file, k);
  }

  lemma ResponsesThree<R>(a: Entry<R>, b: Entry<R>, c: Entry<R>)
    ensures Responses([a, b, c]) == [a.resp, b.resp, c.resp]
  {
  }

  lemma OfTwo<R>(a: Entry<R>, b: Entry<R>, k: RecKey)
    requires a.key == k && b.key == k
    ensures Of([a, b], k) == [a, b]
  {
    OfSnoc([], a, k);
    OfSnoc([a], b, k);
    assert [] + [a] == [a] && [a] + [b] == [a, b];
  }

  lemma OfThree<R>(a: Entry<R>, b: Entry<R>, c: Entry<R>, k: RecKey)
    requires a.key == k && b.key == k && c.key == k
    ensures Of([a, b, c], k) == [a, b, c]
  {
    OfTwo(a, b, k);
    OfSnoc([a, b], c, k);
    assert [a, b] + [c] == [a, b, c];
  }

  lemma BurnTwo(k: RecKey)
    ensures Append(Append(Append(Append(Open([], Record), k, 10, true), k, 11, false), k, 12, false), k, 13, true).file
            == [Entry(k, 0, 10), Entry(k, 3, 13)]
  {
    var s := Append(Open([], Record), k, 10, true);
    assert s.file == [Entry(k, 0, 10)] && s.writable && Count(s.next, k) == 1;
    var t := Append(Append(s, k, 11, false), k, 12, false);
    assert t.file == s.file && t.writable && Count(t.next, k) == 3;
  }

  lemma ReuseNumber(k: RecKey)
    ensures Append(Open([Entry(k, 0, 10), Entry(k, 3, 13)], Record), k, 20, true).file
            == [Entry(k, 0, 10), Entry(k, 3, 13), Entry(k, 2, 20)]
  {
    var f := [Entry(k, 0, 10), Entry(k, 3, 13)];
    OfTwo(f[0], f[1], k);
    OfKeys(f, k);
    assert Count(Open(f, Record).next, k) == 2;
  }

  lemma SortThree<R>(a: Entry<R>, b: Entry<R>, c: Entry<R>)
    requires a.seqNo <= c.seqNo < b.seqNo
    ensures Sorted([a, b, c]) == [a, c, b]
  {
    assert Front([a, b, c]) == [a, b] && Front([a, b]) == [a] && Front([a]) == [];
    assert Sorted([a]) == [a];
    assert Sorted([a, b]) == [a, b];
    assert Insert([a], c) == [a, c];
    assert Insert([a, b], c) == [a, c, b];
  }

  /** Two appends that fail burn two numbers; the next session then reuses one of
      them and its entry is replayed ahead of an older one. */
  lemma FailedWritesReorder(k: RecKey)
    ensures Responses(Of(BurnedTape(k), k)) == [10, 13, 20]
    ensures k in Pool(BurnedTape(k)) && Pool(BurnedTape(k))[k] == [10, 20, 13]
  {
    var a, b, c := Entry(k, 0, 10), Entry(k, 3, 13), Entry(k, 2, 20);
    BurnTwo(k);
    ReuseNumber(k);
    OfThree(a, b, c, k);
    SortThree(a, b, c);
    PoolReplays([a, b, c], k);
    ResponsesThree(a, b, c);
    ResponsesThree(a, c, b);
  }
}
