/** An open tape with the fields the source updates under its mutex. */
module TapeFile {
  import opened Llm
  import opened Tape

  /** Puts the lines of each key in recorded order. */
  method SortEach<R>(byKey: map<RecKey, seq<Entry<R>>>) returns (pools: map<RecKey, seq<R>>, counts: map<RecKey, nat>)
    ensures pools.Keys == byKey.Keys && counts.Keys == byKey.Keys
    ensures forall k :: k in byKey ==> pools[k] == Responses(Sorted(byKey[k])) && counts[k] == |byKey[k]|
  {
    pools, counts := map[], map[];
    var todo := byKey.Keys;
    while todo != {}
      invariant todo <= byKey.Keys
      invariant pools.Keys == byKey.Keys - todo && counts.Keys == byKey.Keys - todo
      invariant forall k :: k in pools ==> pools[k] == Responses(Sorted(byKey[k])) && counts[k] == |byKey[k]|
      decreases |todo|
    {
      var k :| k in todo;
      var es := Sorted(byKey[k]);
      SortedStable(byKey[k]);
      pools, counts, todo := pools[k := Responses(es)], counts[k := |es|], todo - {k};
    }
  }

  lemma KeysSnoc<R>(file: seq<Entry<R>>, e: Entry<R>)
    ensures KeysOf(file + [e]) == KeysOf(file) + {e.key}
  {
    var f := file + [e];
    forall k
      ensures k in KeysOf(f) <==> k in KeysOf(file) || k == e.key
    {
      if k in KeysOf(file) {
        var i :| 0 <= i < |file| && file[i].key == k;
        assert f[i].key == k;
      }
      assert f[|file|].key == e.key;
    }
  }

  class OpenTape<R> {
    const mode: Mode
    var loaded: map<RecKey, seq<R>>
    var cursor: map<RecKey, nat>
    var next: map<RecKey, nat>
    var file: seq<Entry<R>>
    var writable: bool
    var hits: nat
    var misses: nat
    var recorded: nat
    var writeErr: bool

    function View(): State<R>
      reads this
    {
      State(loaded, cursor, next, file, writable, Stats(hits, misses, recorded), writeErr)
    }

    /** `Open`: groups the lines by key, sorts each group and seeds the counters. */
    constructor (file: seq<Entry<R>>, mode: Mode)
      ensures View() == Open(file, mode) && this.mode == mode
    {
      this.mode := mode;
      this.file, cursor, writable := file, map[], mode != Replay;
      hits, misses, recorded, writeErr := 0, 0, 0, false;
      loaded, next := map[], map[];
      new;
      Load();
    }

    /** Collects the lines of each key, in file order. */
    method GroupByKey() returns (byKey: map<RecKey, seq<Entry<R>>>)
      ensures byKey.Keys == KeysOf(file)
      ensures forall k :: k in byKey ==> byKey[k] == Of(file, k)
    {
      byKey := map[];
      var i := 0;
      while i < |file|
        invariant 0 <= i <= |file|
        invariant byKey.Keys == KeysOf(file[..i])
        invariant forall k :: k in byKey ==> byKey[k] == Of(file[..i], k)
      {
        var e := file[i];
        assert file[..i + 1] == file[..i] + [e];
        KeysSnoc(file[..i], e);
        OfKeys(file[..i], e.key);
        forall k
          ensures Of(file[..i + 1], k) == if e.key == k then Of(file[..i], k) + [e] else Of(file[..i], k)
        {
          OfSnoc(file[..i], e, k);
        }
        byKey := byKey[e.key := (if e.key in byKey then byKey[e.key] else []) + [e]];
        i := i + 1;
      }
      assert file[..i] == file;
    }

    method Load()
      modifies this`loaded, this`next
      ensures loaded == Pool(file) && next == map k | k in KeysOf(file) :: |Of(file, k)|
    {
      var byKey := GroupByKey();
      loaded, next := SortEach(byKey);
    }

    method Close()
      modifies this`writable
      ensures !writable
    {
      writable := false;
    }

    method TakeNext(k: RecKey) returns (resp: Option<R>)
      modifies this
      ensures (View(), resp) == Take(old(View()), k)
    {
      if k !in loaded || loaded[k] == [] {
        misses := misses + 1;
        return None;
      }
      var pool := loaded[k];
      var i := if k in cursor then cursor[k] else 0;
      if i >= |pool| {
        i := |pool| - 1;
      } else {
        cursor := cursor[k := i + 1];
      }
      hits := hits + 1;
      resp := Some(pool[i]);
    }

    /** Stamps and appends one entry; `wrote` says whether the write succeeds. */
    method RecordEntry(k: RecKey, resp: R, wrote: bool)
      modifies this
      ensures View() == Append(old(View()), k, resp, wrote)
    {
      if !writable {
        writeErr := true;
        return;
      }
      var seqNo := if k in next then next[k] else 0;
      next := next[k := seqNo + 1];
      if !wrote {
        writeErr := true;
        return;
      }
      file := file + [Entry(k, seqNo, resp)];
      recorded := recorded + 1;
    }

    /** The middleware around one call. */
    method Handle(c: Call<R>) returns (out: Out<R>)
      modifies this
      ensures (View(), out) == Intercept(old(View()), mode, c)
    {
      if mode == Record {
        misses := misses + 1;
      } else {
        var hit := TakeNext(c.key);
        if hit.Some? {
          return if c.cancelled then Cancelled else Replayed(hit.value);
        }
        if mode == Replay {
          return Missed;
        }
      }
      if c.live.None? {
        return LiveFailed;
      }
      RecordEntry(c.key, c.live.value, c.wrote);
      out := Live(c.live.value);
    }
  }
}
