/** The key-value store variant (`RedisOutputStrategy` in
    patternLab4/src/output_strategy.py). The store server is represented by its
    contents (`store`), the pipeline by the writes queued on it (`pending`), and
    standard output by a log of notices. A transaction that `execute` sends
    applies every queued write in order; a failed `execute` applies none of them,
    and either way the pipeline is emptied (redis-py resets it after `execute`). */
module RedisOutput {
  import opened Wrappers
  import opened Values
  import opened Transport

  /** The field whose value names a record's key. */
  const IdField: string := "INCIDENT_DISPATCH_ID"

  const DefaultHost: Json := Atom(Str("localhost"))
  const DefaultPort: Json := Atom(Int(6379))
  const DefaultDb: Json := Atom(Int(0))
  const DefaultKeyPrefix: Json := Atom(Str("fire_incident:"))

  datatype Write = Write(key: string, value: Ser)

  datatype Notice =
    | Connected
    | Banner
    | Saved(count: nat)  // printed after a periodic execute succeeds
    | StoreError         // a record's write or a periodic execute failed
    | Total(count: nat)  // printed once the closing execute succeeds
    | Closed
    | CloseError

  /** `f"{key_prefix}{item.get('INCIDENT_DISPATCH_ID', i)}"`: the prefix's text, then
      the text of the record's identifier, or of its position when it has none. */
  function Key(prefix: Json, r: Record, i: nat): (k: string)
    ensures |ShowJson(prefix)| <= |k| && k[..|ShowJson(prefix)|] == ShowJson(prefix)
    ensures Get(r, IdField).Some? ==> k[|ShowJson(prefix)|..] == Show(Get(r, IdField).value)
    ensures Get(r, IdField).None? ==> k[|ShowJson(prefix)|..] == IntText(i)
  {
    ShowJson(prefix) + match Get(r, IdField) case Some(id) => Show(id) case None => IntText(i)
  }

  /** Records without an identifier never share a key: their positions differ. */
  lemma IndexKeysDistinct(prefix: Json, r1: Record, i: nat, r2: Record, j: nat)
    requires Get(r1, IdField).None? && Get(r2, IdField).None?
    requires i != j
    ensures Key(prefix, r1, i) != Key(prefix, r2, j)
  {
    if Key(prefix, r1, i) == Key(prefix, r2, j) {
      IntTextInjective(i, j);
    }
  }

  /** An empty identifier cell reaches `item.get` as a present NaN, not as a missing
      field: every such record derives the same key, whatever its position. */
  lemma EmptyIdCellsShareKey(prefix: Json, r1: Record, i: nat, r2: Record, j: nat)
    requires Get(r1, IdField) == Some(NaN) && Get(r2, IdField) == Some(NaN)
    ensures Key(prefix, r1, i) == Key(prefix, r2, j) == ShowJson(prefix) + "nan"
  {
    var p := ShowJson(prefix);
    var k1, k2 := Key(prefix, r1, i), Key(prefix, r2, j);
    assert k1 == k1[..|p|] + k1[|p|..];
    assert k2 == k2[..|p|] + k2[|p|..];
  }

  // ---- the store ----

  /** The store after the writes `ws`, applied in order. */
  function Apply(store: map<string, Ser>, ws: seq<Write>): map<string, Ser>
  {
    if ws == [] then store
    else Apply(store, ws[..|ws| - 1])[ws[|ws| - 1].key := ws[|ws| - 1].value]
  }

  /** The position of the last write to `k` in `ws`. */
  function LastWrite(ws: seq<Write>, k: string): (r: Option<nat>)
    ensures r.Some? ==> r.value < |ws| && ws[r.value].key == k &&
                        forall j :: r.value < j < |ws| ==> ws[j].key != k
    ensures r.None? ==> forall j :: 0 <= j < |ws| ==> ws[j].key != k
  {
    if ws == [] then None
    else if ws[|ws| - 1].key == k then Some(|ws| - 1)
    else LastWrite(ws[..|ws| - 1], k)
  }

  /** The last write to a key decides its value; a key nobody writes keeps its value. */
  lemma {:induction false} ApplyLastWins(store: map<string, Ser>, ws: seq<Write>, k: string)
    ensures LastWrite(ws, k).Some? ==>
              k in Apply(store, ws) && Apply(store, ws)[k] == ws[LastWrite(ws, k).value].value
    ensures LastWrite(ws, k).None? ==>
              (k in Apply(store, ws) <==> k in store) &&
              (k in store ==> Apply(store, ws)[k] == store[k])
  {
    if ws != [] {
      ApplyLastWins(store, ws[..|ws| - 1], k);
    }
  }

  lemma {:induction false} ApplyConcat(store: map<string, Ser>, a: seq<Write>, b: seq<Write>)
    ensures Apply(store, a + b) == Apply(Apply(store, a), b)
  {
    if b == [] {
      assert a + b == a;
    } else {
      assert (a + b)[..|a + b| - 1] == a + b[..|b| - 1];
      ApplyConcat(store, a, b[..|b| - 1]);
    }
  }

  // ---- one call of output_data, step by step ----

  /** The pipeline, the store and what has been printed. */
  datatype Pipe = Pipe(pending: seq<Write>, store: map<string, Ser>, executes: nat, log: seq<Notice>)

  /** `pipe.execute()`: applies the queued writes when it succeeds; empties the pipeline either way. */
  function Execute(p: Pipe, ok: bool): Pipe
  {
    Pipe([], if ok then Apply(p.store, p.pending) else p.store, p.executes + 1, p.log)
  }

  /** Record `i` closes a batch of 100. */
  predicate Boundary(i: nat)
  {
    (i + 1) % 100 == 0
  }

  /** The body of the loop for record `i`, whose key is `key`. */
  function Handle(p: Pipe, key: string, r: Record, i: nat, f: Faults): Pipe
  {
    if i in f.setFails then p.(log := p.log + [StoreError])
    else
      var q := p.(pending := p.pending + [Write(key, Dumps(r))]);
      if !Boundary(i) then q
      else if i in f.execFails then
        var e := Execute(q, false); e.(log := e.log + [StoreError])
      else
        var e := Execute(q, true); e.(log := e.log + [Saved(i + 1)])
  }

  /** The key each record derives, by position. */
  function Keys(prefix: Json, data: seq<Record>): (ks: seq<string>)
    ensures |ks| == |data|
    ensures forall i :: 0 <= i < |data| ==> ks[i] == Key(prefix, data[i], i)
  {
    seq(|data|, i requires 0 <= i < |data| => Key(prefix, data[i], i))
  }

  /** The loop over the first `n` records, record `i` under `keys[i]`. */
  function Run(p: Pipe, keys: seq<string>, data: seq<Record>, n: nat, f: Faults): Pipe
    requires n <= |data| == |keys|
  {
    if n == 0 then p else Handle(Run(p, keys, data, n - 1, f), keys[n - 1], data[n - 1], n - 1, f)
  }

  /** The whole call: banner, loop, closing execute, and the total when that execute succeeds. */
  function OutputRun(p: Pipe, prefix: Json, data: seq<Record>, f: Faults): Pipe
  {
    var q := Run(p.(log := p.log + [Banner]), Keys(prefix, data), data, |data|, f);
    if f.finalExecFails then Execute(q, false)
    else var e := Execute(q, true); e.(log := e.log + [Total(|data|)])
  }

  // ---- how many times the pipeline is executed ----

  /** The periodic executes among the first `n` records. */
  function Boundaries(f: Faults, n: nat): nat
  {
    if n == 0 then 0 else Boundaries(f, n - 1) + (if Boundary(n - 1) && n - 1 !in f.setFails then 1 else 0)
  }

  lemma {:induction false} RunExecutes(p: Pipe, keys: seq<string>, data: seq<Record>, n: nat, f: Faults)
    requires n <= |data| == |keys|
    ensures Run(p, keys, data, n, f).executes == p.executes + Boundaries(f, n)
  {
    if n > 0 {
      RunExecutes(p, keys, data, n - 1, f);
    }
  }

  /** Without a failing write on a batch's last record, there is one periodic
      execute per 100 records. */
  lemma {:induction false} CleanBoundaries(f: Faults, n: nat)
    requires forall i :: 0 <= i < n && Boundary(i) ==> i !in f.setFails
    ensures Boundaries(f, n) == n / 100
  {
    if n > 0 {
      CleanBoundaries(f, n - 1);
      if Boundary(n - 1) {
        assert n / 100 == (n - 1) / 100 + 1;
      } else {
        assert n / 100 == (n - 1) / 100;
      }
    }
  }

  /** N records give N/100 periodic executes and one closing execute, so 100
      records give 2 (`ClosingExecuteEmpty`: the second on an empty pipeline). */
  lemma ExecuteCount(p: Pipe, prefix: Json, data: seq<Record>, f: Faults)
    requires forall i :: 0 <= i < |data| && Boundary(i) ==> i !in f.setFails
    ensures OutputRun(p, prefix, data, f).executes == p.executes + |data| / 100 + 1
  {
    RunExecutes(p.(log := p.log + [Banner]), Keys(prefix, data), data, |data|, f);
    CleanBoundaries(f, |data|);
  }

  /** When the batch size divides the number of records, the last record closed a
      batch, so the closing execute runs on an empty pipeline. */
  lemma {:induction false} ClosingExecuteEmpty(p: Pipe, prefix: Json, data: seq<Record>, f: Faults)
    requires p.pending == []
    requires forall i :: 0 <= i < |data| && Boundary(i) ==> i !in f.setFails
    requires |data| % 100 == 0
    ensures Run(p.(log := p.log + [Banner]), Keys(prefix, data), data, |data|, f).pending == []
  {
    var n := |data|;
    if n > 0 {
      assert Boundary(n - 1);
      var keys := Keys(prefix, data);
      var q := Run(p.(log := p.log + [Banner]), keys, data, n - 1, f);
      assert Run(p.(log := p.log + [Banner]), keys, data, n, f) == Handle(q, keys[n - 1], data[n - 1], n - 1, f);
    }
  }

  // ---- what ends up in the store ----

  /** The writes queued for the first `n` records, record `i` under `keys[i]`:
      one per record whose write does not fail. */
  function Queued(keys: seq<string>, data: seq<Record>, f: Faults, n: nat): seq<Write>
    requires n <= |data| == |keys|
  {
    if n == 0 then []
    else Queued(keys, data, f, n - 1) +
         (if n - 1 in f.setFails then [] else [Write(keys[n - 1], Dumps(data[n - 1]))])
  }

  /** With no failing execute, the store plus the pipeline always equals the
      original store plus every write queued so far. */
  lemma {:induction false} RunQueued(p: Pipe, keys: seq<string>, data: seq<Record>, n: nat, f: Faults)
    requires n <= |data| == |keys|
    requires forall i :: 0 <= i < n && Boundary(i) ==> i !in f.execFails
    ensures var q := Run(p, keys, data, n, f);
            Apply(q.store, q.pending) == Apply(Apply(p.store, p.pending), Queued(keys, data, f, n))
  {
    if n > 0 {
      RunQueued(p, keys, data, n - 1, f);
      var q := Run(p, keys, data, n - 1, f);
      var r := Run(p, keys, data, n, f);
      var base := Apply(p.store, p.pending);
      var before := Queued(keys, data, f, n - 1);
      if n - 1 !in f.setFails {
        var w := Write(keys[n - 1], Dumps(data[n - 1]));
        assert Queued(keys, data, f, n) == before + [w];
        ApplyConcat(q.store, q.pending, [w]);
        ApplyConcat(base, before, [w]);
        if Boundary(n - 1) {
          assert r.store == Apply(q.store, q.pending + [w]) && r.pending == [];
        } else {
          assert r.store == q.store && r.pending == q.pending + [w];
        }
      } else {
        assert Queued(keys, data, f, n) == before + [];
        assert before + [] == before;
        assert r.store == q.store && r.pending == q.pending;
      }
    }
  }

  /** With no failing execute, `output_data` leaves the pipeline empty and the
      store holding every write that was queued, in input order; records after a
      failing write are still stored. */
  lemma StoredWrites(p: Pipe, prefix: Json, data: seq<Record>, f: Faults)
    requires p.pending == []
    requires forall i :: 0 <= i < |data| && Boundary(i) ==> i !in f.execFails
    requires !f.finalExecFails
    ensures OutputRun(p, prefix, data, f).pending == []
    ensures OutputRun(p, prefix, data, f).store == Apply(p.store, Queued(Keys(prefix, data), data, f, |data|))
  {
    RunQueued(p.(log := p.log + [Banner]), Keys(prefix, data), data, |data|, f);
  }

  /** The last position among the first `n` whose write does not fail and whose key is `k`. */
  function LastStored(keys: seq<string>, f: Faults, n: nat, k: string): (r: Option<nat>)
    requires n <= |keys|
    ensures r.Some? ==> r.value < n
  {
    if n == 0 then None
    else if n - 1 !in f.setFails && keys[n - 1] == k then Some(n - 1)
    else LastStored(keys, f, n - 1, k)
  }

  /** `LastStored` finds a position whose write succeeds under key `k`, and no later
      such position exists; it finds none exactly when no such position exists. */
  lemma {:induction false} LastStoredIsLast(keys: seq<string>, f: Faults, n: nat, k: string)
    requires n <= |keys|
    ensures var r := LastStored(keys, f, n, k);
            && (r.Some? ==> r.value !in f.setFails && keys[r.value] == k &&
                            forall j :: r.value < j < n && j !in f.setFails ==> keys[j] != k)
            && (r.None? ==> forall j :: 0 <= j < n && j !in f.setFails ==> keys[j] != k)
  {
    if n > 0 && !(n - 1 !in f.setFails && keys[n - 1] == k) {
      LastStoredIsLast(keys, f, n - 1, k);
    }
  }

  /** One more write: it is the last one to its own key, and leaves other keys' last writes alone. */
  lemma LastWriteSnoc(ws: seq<Write>, w: Write, k: string)
    ensures LastWrite(ws + [w], k) == if w.key == k then Some(|ws|) else LastWrite(ws, k)
  {
    assert (ws + [w])[..|ws|] == ws;
  }

  /** The last queued write to `k` carries the serialization of the last record queued under `k`. */
  lemma {:induction false} LastQueued(keys: seq<string>, data: seq<Record>, f: Faults, n: nat, k: string)
    requires n <= |data| == |keys|
    ensures var ws := Queued(keys, data, f, n);
            var last := LastStored(keys, f, n, k);
            (last.None? <==> LastWrite(ws, k).None?) &&
            (last.Some? ==> LastWrite(ws, k).Some? && ws[LastWrite(ws, k).value].value == Dumps(data[last.value]))
  {
    if n > 0 {
      LastQueued(keys, data, f, n - 1, k);
      var before := Queued(keys, data, f, n - 1);
      var ws := Queued(keys, data, f, n);
      var last := LastStored(keys, f, n, k);
      if n - 1 !in f.setFails {
        var w := Write(keys[n - 1], Dumps(data[n - 1]));
        assert ws == before + [w];
        LastWriteSnoc(before, w, k);
        if w.key == k {
          assert last == Some(n - 1);
          assert ws[|before|] == w;
        } else {
          assert last == LastStored(keys, f, n - 1, k);
          if last.Some? {
            assert ws[LastWrite(ws, k).value] == before[LastWrite(ws, k).value];
          }
        }
      } else {
        assert ws == before + [];
        assert ws == before;
      }
    }
  }

  /** With no failing execute, each derived key holds the serialization of the last
      record (in input order, among those whose write succeeded) that derives it,
      and every other key keeps its value. */
  lemma LastRecordWins(p: Pipe, prefix: Json, data: seq<Record>, f: Faults, k: string)
    requires p.pending == []
    requires forall i :: 0 <= i < |data| && Boundary(i) ==> i !in f.execFails
    requires !f.finalExecFails
    ensures var s := OutputRun(p, prefix, data, f).store;
            var last := LastStored(Keys(prefix, data), f, |data|, k);
            (last.Some? ==> k in s && s[k] == Dumps(data[last.value])) &&
            (last.None? ==> (k in s <==> k in p.store) && (k in p.store ==> s[k] == p.store[k]))
  {
    StoredWrites(p, prefix, data, f);
    LastQueued(Keys(prefix, data), data, f, |data|, k);
    ApplyLastWins(p.store, Queued(Keys(prefix, data), data, f, |data|), k);
  }

  // ---- whatever fails ----

  /** `w` is the write of one of the records of `data` whose write did not fail. */
  predicate WrittenBy(keys: seq<string>, data: seq<Record>, f: Faults, w: Write)
    requires |data| == |keys|
  {
    exists j :: 0 <= j < |data| && j !in f.setFails && w == Write(keys[j], Dumps(data[j]))
  }

  /** Relative to the original contents `before`: no key is lost, every queued write
      comes from a record, and every key that changed holds a record's write. */
  predicate Sound(before: map<string, Ser>, store: map<string, Ser>, ws: seq<Write>,
                  keys: seq<string>, data: seq<Record>, f: Faults)
    requires |data| == |keys|
  {
    && (forall k :: k in before ==> k in store)
    && (forall i :: 0 <= i < |ws| ==> WrittenBy(keys, data, f, ws[i]))
    && (forall k :: k in store ==>
          (k in before && store[k] == before[k]) || WrittenBy(keys, data, f, Write(k, store[k])))
  }

  lemma {:induction false} ApplySound(before: map<string, Ser>, store: map<string, Ser>, ws: seq<Write>,
                                      keys: seq<string>, data: seq<Record>, f: Faults)
    requires |data| == |keys|
    requires Sound(before, store, ws, keys, data, f)
    ensures Sound(before, Apply(store, ws), [], keys, data, f)
  {
    if ws != [] {
      var init := ws[..|ws| - 1];
      assert Sound(before, store, init, keys, data, f) by {
        forall i | 0 <= i < |init| ensures WrittenBy(keys, data, f, init[i]) {
          assert init[i] == ws[i];
        }
      }
      ApplySound(before, store, init, keys, data, f);
      var w := ws[|ws| - 1];
      assert WrittenBy(keys, data, f, w);
      var s' := Apply(store, init);
      assert Apply(store, ws) == s'[w.key := w.value];
      assert Write(w.key, w.value) == w;
    }
  }

  lemma {:induction false} RunSound(p: Pipe, keys: seq<string>, data: seq<Record>, n: nat, f: Faults)
    requires n <= |data| == |keys|
    requires p.pending == []
    ensures var q := Run(p, keys, data, n, f);
            Sound(p.store, q.store, q.pending, keys, data, f)
  {
    if n > 0 {
      RunSound(p, keys, data, n - 1, f);
      var q := Run(p, keys, data, n - 1, f);
      if n - 1 !in f.setFails {
        var w := Write(keys[n - 1], Dumps(data[n - 1]));
        var ws := q.pending + [w];
        assert WrittenBy(keys, data, f, w);
        assert Sound(p.store, q.store, ws, keys, data, f) by {
          forall i | 0 <= i < |ws| ensures WrittenBy(keys, data, f, ws[i]) {
            if i < |q.pending| { assert ws[i] == q.pending[i]; }
          }
        }
        if Boundary(n - 1) && n - 1 !in f.execFails {
          ApplySound(p.store, q.store, ws, keys, data, f);
        }
      }
    }
  }

  /** Whatever fails, `output_data` loses no key, and every key whose value changed
      holds the serialization of a record that derives that key. */
  lemma OutputSound(p: Pipe, prefix: Json, data: seq<Record>, f: Faults)
    requires p.pending == []
    ensures var s := OutputRun(p, prefix, data, f).store;
            && (forall k :: k in p.store ==> k in s)
            && (forall k :: k in s ==>
                  (k in p.store && s[k] == p.store[k]) ||
                  exists j :: 0 <= j < |data| && j !in f.setFails &&
                              Key(prefix, data[j], j) == k && s[k] == Dumps(data[j]))
  {
    var p' := p.(log := p.log + [Banner]);
    var keys := Keys(prefix, data);
    RunSound(p', keys, data, |data|, f);
    var q := Run(p', keys, data, |data|, f);
    if !f.finalExecFails {
      ApplySound(p.store, q.store, q.pending, keys, data, f);
    }
  }

  class RedisSink {
    const host: Json
    const port: Json
    const db: Json
    const keyPrefix: Json
    /** Writes queued on the pipeline and not yet executed. */
    var pending: seq<Write>
    /** The contents of the store. */
    var store: map<string, Ser>
    /** How many times the pipeline has been executed. */
    var executes: nat
    /** Everything printed so far. */
    var log: seq<Notice>

    function State(): Pipe
      reads this
    {
      Pipe(pending, store, executes, log)
    }

    /** The constructor once the client has been created, over a store holding
        `contents`; a failed connection is reported by the factory instead of
        exiting the process. */
    constructor (host: Json, port: Json, db: Json, keyPrefix: Json, contents: map<string, Ser>)
      ensures this.host == host && this.port == port && this.db == db && this.keyPrefix == keyPrefix
      ensures State() == Pipe([], contents, 0, [Connected])
    {
      this.host := host;
      this.port := port;
      this.db := db;
      this.keyPrefix := keyPrefix;
      pending := [];
      store := contents;
      executes := 0;
      log := [Connected];
    }

    /** `pipe.execute()`. */
    method ExecutePipe(ok: bool)
      modifies this
      ensures State() == Execute(old(State()), ok)
    {
      if ok {
        store := Apply(store, pending);
      }
      pending := [];
      executes := executes + 1;
    }

    /** One pass of the loop: queue record `i` under `key`, and execute when it closes a batch of 100. */
    method StoreRecord(key: string, item: Record, i: nat, f: Faults)
      modifies this
      ensures State() == Handle(old(State()), key, item, i, f)
    {
      if i in f.setFails {
        log := log + [StoreError];
      } else {
        pending := pending + [Write(key, Dumps(item))];
        if (i + 1) % 100 == 0 {
          if i in f.execFails {
            ExecutePipe(false);
            log := log + [StoreError];
          } else {
            ExecutePipe(true);
            log := log + [Saved(i + 1)];
          }
        }
      }
    }

    /** `output_data(data)`: queues one write per record and executes every 100
        records and once more at the end. A failing write or periodic execute is
        reported and the loop goes on; a failing closing execute is raised. */
    method OutputData(data: seq<Record>, f: Faults) returns (raised: bool)
      requires pending == []
      modifies this
      ensures State() == OutputRun(old(State()), keyPrefix, data, f)
      ensures pending == []
      ensures raised == f.finalExecFails
    {
      log := log + [Banner];
      ghost var start := State();
      var i := 0;
      while i < |data|
        invariant 0 <= i <= |data|
        invariant State() == Run(start, Keys(keyPrefix, data), data, i, f)
      {
        var key := Key(keyPrefix, data[i], i);
        assert Keys(keyPrefix, data)[i] == key;
        StoreRecord(key, data[i], i, f);
        i := i + 1;
      }
      if f.finalExecFails {
        ExecutePipe(false);
        raised := true;
      } else {
        ExecutePipe(true);
        log := log + [Total(|data|)];
        raised := false;
      }
    }

    /** `close()`: closes the client; an exception is reported, never raised. */
    method Close(f: Faults)
      modifies this
      ensures pending == old(pending) && store == old(store) && executes == old(executes)
      ensures log == old(log) + [if f.closeFails then CloseError else Closed]
    {
      log := log + [if f.closeFails then CloseError else Closed];
    }
  }
}
