/** The bounded process pool that `Submitter` (utils/Submitter.py) and
    `MultiProcesses` (utils/MultiProcesses.py) both implement, as functions
    on the pool's state.  The two classes are proved against these
    functions; the properties of the pool are proved here.

    The work-item generator is a list of items and a cursor: `next(gen,
    (None, None))` returns the item under the cursor and advances it, or
    `(None, None)` without advancing once the list is used up.  A running
    process is represented by the descriptor it was started from, and which
    processes have finished is an oracle: the set of keys found finished in
    one scan. */
module Pool {
  import opened Wrappers
  import opened Dicts

  /** One `(key, descriptor)` pair from the generator; either may be None. */
  datatype Item<D> = Item(key: Option<string>, task: Option<D>)

  /** `running` is `processDict`, `cursor` the generator position, and
      `started` the keys of all processes spawned so far, in order. */
  datatype State<D> = State(running: Dict<D>, cursor: nat, started: seq<string>)

  ghost predicate Valid<D>(s: State<D>, source: seq<Item<D>>)
  {
    s.running.Valid() && s.cursor <= |source|
  }

  function Min(a: int, b: int): int { if a < b then a else b }

  /** The state before any call: empty dict, generator not yet started. */
  function Init<D>(): (s: State<D>)
    ensures s.running.Size() == 0 && s.cursor == 0 && s.started == []
  {
    State(Empty(), 0, [])
  }

  predicate Admissible<D>(it: Item<D>) { it.key.Some? && it.task.Some? }

  /** The second half of `startSingleProcess`: spawn and store the process
      if both key and descriptor are present. */
  function Admit<D>(s: State<D>, it: Item<D>): State<D>
    requires s.running.Valid()
  {
    if Admissible(it) then
      s.(running := Store(s.running, it.key.value, it.task.value), started := s.started + [it.key.value])
    else s
  }

  /** `startSingleProcess(key, task)`. */
  function Attempt<D>(s: State<D>, source: seq<Item<D>>, key: Option<string>, task: Option<D>): (r: State<D>)
    requires Valid(s, source)
    ensures Valid(r, source)
    // an explicit pair is admitted under its key, overwriting an existing
    // entry, and the generator is not touched
    ensures key.Some? && task.Some? ==>
      r.cursor == s.cursor &&
      r.running.entries == s.running.entries[key.value := task.value] &&
      r.started == s.started + [key.value]
    // otherwise exactly one item is pulled, when there is one ...
    ensures !(key.Some? && task.Some?) ==>
      r.cursor == (if s.cursor < |source| then s.cursor + 1 else s.cursor)
    // ... an exhausted generator changes nothing ...
    ensures !(key.Some? && task.Some?) && s.cursor == |source| ==> r == s
    // ... and the pulled item is admitted exactly when both halves are present
    ensures !(key.Some? && task.Some?) && s.cursor < |source| ==>
      var it := source[s.cursor];
      if Admissible(it) then
        r.running.entries == s.running.entries[it.key.value := it.task.value] &&
        r.started == s.started + [it.key.value]
      else
        r.running == s.running && r.started == s.started
    ensures r.running.Size() <= s.running.Size() + 1
    ensures forall k :: k in s.running.entries ==> k in r.running.entries
  {
    if key.Some? && task.Some? then
      Admit(s, Item(key, task))
    else if s.cursor < |source| then
      Admit(s.(cursor := s.cursor + 1), source[s.cursor])
    else
      s
  }

  /** `startProcesses()`: `n` admission attempts with no arguments
      (`range(n)` is empty when n <= 0). */
  function Prime<D>(s: State<D>, source: seq<Item<D>>, n: int): (r: State<D>)
    requires Valid(s, source)
    ensures Valid(r, source)
    ensures r.cursor == Min(s.cursor + (if n < 0 then 0 else n), |source|)
    ensures r.running.Size() <= s.running.Size() + (if n < 0 then 0 else n)
    decreases n
  {
    if n <= 0 then s else Attempt(Prime(s, source, n - 1), source, None, None)
  }

  /** Removing a finished key and making one admission attempt: the tail of
      `communicateSingleProcess`, and the body of the MultiProcesses scan. */
  function Reap<D>(s: State<D>, source: seq<Item<D>>, key: string): (r: State<D>)
    requires Valid(s, source) && key in s.running.entries
    ensures Valid(r, source)
    ensures r.cursor == (if s.cursor < |source| then s.cursor + 1 else s.cursor)
    // an exhausted generator leaves the pool one smaller
    ensures s.cursor == |source| ==>
      r.running.entries == s.running.entries - {key} && r.running.Size() == s.running.Size() - 1
    // only the reaped key can leave the pool, and the pool never grows
    ensures forall k :: k in s.running.entries && k != key ==> k in r.running.entries
    ensures r.running.Size() <= s.running.Size()
  {
    Attempt(s.(running := Pop(s.running, key)), source, None, None)
  }

  /** The keys of a snapshot that are reaped, in scan order. */
  function Reaped(snapshot: seq<string>, reaped: set<string>): (r: seq<string>)
    ensures |r| <= |snapshot|
    ensures forall k :: k in r <==> k in snapshot && k in reaped
  {
    if snapshot == [] then []
    else (if snapshot[0] in reaped then [snapshot[0]] else []) + Reaped(snapshot[1..], reaped)
  }

  /** What a scan does with one snapshot key: reap it if it is in `reaped`. */
  function Step<D>(s: State<D>, source: seq<Item<D>>, key: string, reaped: set<string>): (r: State<D>)
    requires Valid(s, source) && key in s.running.entries
    ensures Valid(r, source)
    ensures forall k :: k in s.running.entries && k != key ==> k in r.running.entries
  {
    if key in reaped then Reap(s, source, key) else s
  }

  /** One scan over a snapshot of the keys: every snapshot key in `reaped`
      is reaped, in snapshot order.  Keys admitted during the scan are not
      in the snapshot and wait for the next scan. */
  function Scan<D>(s: State<D>, source: seq<Item<D>>, snapshot: seq<string>, reaped: set<string>): (r: State<D>)
    requires Valid(s, source) && Distinct(snapshot)
    requires forall k :: k in snapshot ==> k in s.running.entries
    ensures Valid(r, source)
    decreases |snapshot|
  {
    if snapshot == [] then s
    else
      assert forall j :: 0 < j < |snapshot| ==> snapshot[j] != snapshot[0];
      Scan(Step(s, source, snapshot[0], reaped), source, snapshot[1..], reaped)
  }

  /** A scan is its first step followed by the scan of the rest. */
  lemma ScanUnfold<D>(s: State<D>, source: seq<Item<D>>, snapshot: seq<string>, reaped: set<string>)
    requires Valid(s, source) && Distinct(snapshot) && snapshot != []
    requires forall k :: k in snapshot ==> k in s.running.entries
    ensures Distinct(snapshot[1..])
    ensures forall k :: k in snapshot[1..] ==> k in Step(s, source, snapshot[0], reaped).running.entries
    ensures Scan(s, source, snapshot, reaped) == Scan(Step(s, source, snapshot[0], reaped), source, snapshot[1..], reaped)
  {
    assert forall j :: 0 < j < |snapshot| ==> snapshot[j] != snapshot[0];
  }

  /** How many keys of a snapshot are reaped. */
  function CountReaped(snapshot: seq<string>, reaped: set<string>): nat
  {
    if snapshot == [] then 0
    else (if snapshot[0] in reaped then 1 else 0) + CountReaped(snapshot[1..], reaped)
  }

  /** A scan pulls one generator item per reaped key, while items last. */
  lemma {:induction false} ScanCursor<D>(s: State<D>, source: seq<Item<D>>, snapshot: seq<string>, reaped: set<string>)
    requires Valid(s, source) && Distinct(snapshot)
    requires forall k :: k in snapshot ==> k in s.running.entries
    ensures s.cursor + CountReaped(snapshot, reaped) <= |source| ==> Scan(s, source, snapshot, reaped).cursor == s.cursor + CountReaped(snapshot, reaped)
    ensures s.cursor + CountReaped(snapshot, reaped) >= |source| ==> Scan(s, source, snapshot, reaped).cursor == |source|
    decreases |snapshot|
  {
    if snapshot != [] {
      var k := snapshot[0];
      var next := Step(s, source, k, reaped);
      assert forall j :: 0 < j < |snapshot| ==> snapshot[j] != k;
      var c := CountReaped(snapshot[1..], reaped);
      assert CountReaped(snapshot, reaped) == (if k in reaped then 1 else 0) + c;
      var r := Scan(next, source, snapshot[1..], reaped);
      assert Scan(s, source, snapshot, reaped).cursor == r.cursor;
      ScanCursor(next, source, snapshot[1..], reaped);
    }
  }

  /** A scan keeps every entry it does not reap, and never grows the pool. */
  lemma {:induction false} ScanKeeps<D>(s: State<D>, source: seq<Item<D>>, snapshot: seq<string>, reaped: set<string>)
    requires Valid(s, source) && Distinct(snapshot)
    requires forall k :: k in snapshot ==> k in s.running.entries
    ensures forall k :: k in s.running.entries && !(k in snapshot && k in reaped) ==>
      k in Scan(s, source, snapshot, reaped).running.entries
    ensures Scan(s, source, snapshot, reaped).running.Size() <= s.running.Size()
    decreases |snapshot|
  {
    if snapshot != [] {
      var k := snapshot[0];
      var next := Step(s, source, k, reaped);
      assert forall j :: 0 < j < |snapshot| ==> snapshot[j] != k;
      assert Scan(s, source, snapshot, reaped) == Scan(next, source, snapshot[1..], reaped);
      ScanKeeps(next, source, snapshot[1..], reaped);
    }
  }

  /** `checkProcesses` / `checkRunningProcesses`: scan, one oracle set per
      round, as long as the pool is not empty.  Python loops until the pool
      is empty; here the rounds are a finite list, so the result may still
      hold running entries when the list runs out. */
  function Drain<D>(s: State<D>, source: seq<Item<D>>, rounds: seq<set<string>>): (r: State<D>)
    requires Valid(s, source)
    ensures Valid(r, source)
    decreases |rounds|
  {
    if s.running.Size() == 0 || rounds == [] then s
    else Drain(Scan(s, source, s.running.keys, rounds[0]), source, rounds[1..])
  }

  // ---------------------------------------------------------------------
  // Admissions over a whole run

  /** The keys of the admissible items of a list, in order. */
  function AdmittedKeys<D>(items: seq<Item<D>>): seq<string>
  {
    if items == [] then []
    else
      var last := items[|items| - 1];
      AdmittedKeys(items[..|items| - 1]) + (if Admissible(last) then [last.key.value] else [])
  }

  /** A key that no item carries is never admitted. */
  lemma {:induction false} AdmittedKeysAmong<D>(items: seq<Item<D>>, k: string)
    requires forall i :: 0 <= i < |items| ==> items[i].key != Some(k)
    ensures k !in AdmittedKeys(items)
    decreases |items|
  {
    if items != [] {
      AdmittedKeysAmong(items[..|items| - 1], k);
    }
  }

  /** Every item has a key and a descriptor, and no key repeats. */
  ghost predicate WellFormed<D>(source: seq<Item<D>>)
  {
    (forall i :: 0 <= i < |source| ==> Admissible(source[i])) &&
    (forall i, j :: 0 <= i < j < |source| ==> source[i].key != source[j].key)
  }

  lemma {:induction false} WellFormedAdmitsAll<D>(source: seq<Item<D>>)
    requires WellFormed(source)
    ensures |AdmittedKeys(source)| == |source|
    ensures forall i :: 0 <= i < |source| ==> AdmittedKeys(source)[i] == source[i].key.value
    decreases |source|
  {
    if source != [] {
      var init := source[..|source| - 1];
      assert WellFormed(init);
      WellFormedAdmitsAll(init);
      assert AdmittedKeys(source) == AdmittedKeys(init) + [source[|source| - 1].key.value];
    }
  }

  /** Everything in the pool came from the generator: `started` is exactly
      the admissible items consumed so far, and every running key is one
      of them. */
  ghost predicate FromSource<D>(s: State<D>, source: seq<Item<D>>)
  {
    Valid(s, source) &&
    s.started == AdmittedKeys(source[..s.cursor]) &&
    (forall k :: k in s.running.entries ==> k in s.started)
  }

  /** The pool is full, or the generator is used up. */
  ghost predicate Saturated<D>(s: State<D>, source: seq<Item<D>>, capacity: int)
  {
    s.cursor == |source| || s.running.Size() == capacity
  }

  /** With a well-formed generator, a pull admits a key that is not running. */
  lemma PullAdmitsFresh<D>(s: State<D>, source: seq<Item<D>>)
    requires WellFormed(source) && FromSource(s, source) && s.cursor < |source|
    ensures source[s.cursor].key.value !in s.running.entries
    ensures var r := Attempt(s, source, None, None);
      FromSource(r, source) && r.running.Size() == s.running.Size() + 1
  {
    var c := s.cursor;
    AdmittedKeysAmong(source[..c], source[c].key.value);
    assert source[..c + 1][..c] == source[..c];
  }

  /** An attempt without arguments keeps the pool tied to the generator. */
  lemma PullFromSource<D>(s: State<D>, source: seq<Item<D>>)
    requires FromSource(s, source)
    ensures FromSource(Attempt(s, source, None, None), source)
  {
    if s.cursor < |source| {
      assert source[..s.cursor + 1][..s.cursor] == source[..s.cursor];
    }
  }

  /** Priming an empty pool from a well-formed generator fills it to
      min(capacity, number of items), leaves it saturated, and keeps it tied
      to the generator. */
  lemma {:induction false} PrimeFills<D>(source: seq<Item<D>>, n: int)
    requires WellFormed(source) && n >= 0
    ensures var r := Prime(Init(), source, n);
      FromSource(r, source) && Saturated(r, source, n) &&
      r.running.Size() == Min(n, |source|)
    decreases n
  {
    if n > 0 {
      PrimeFills(source, n - 1);
      var p := Prime(Init(), source, n - 1);
      assert Prime(Init(), source, n) == Attempt(p, source, None, None);
      PrimeStep(p, source, n);
    } else {
      var r := Prime(Init<D>(), source, n);
      assert r == Init();
      assert source[..r.cursor] == [];
    }
  }

  /** One more attempt on a pool primed with n - 1 attempts. */
  lemma PrimeStep<D>(p: State<D>, source: seq<Item<D>>, n: int)
    requires WellFormed(source) && n > 0
    requires FromSource(p, source) && Saturated(p, source, n - 1)
    requires p.running.Size() == Min(n - 1, |source|) && p.cursor == Min(n - 1, |source|)
    ensures var r := Attempt(p, source, None, None);
      FromSource(r, source) && Saturated(r, source, n) &&
      r.running.Size() == Min(n, |source|)
  {
    if p.cursor < |source| {
      PullAdmitsFresh(p, source);
    }
  }

  /** Reaping keeps a saturated pool saturated: the slot is refilled unless
      the generator is used up. */
  lemma ReapSaturated<D>(s: State<D>, source: seq<Item<D>>, key: string, capacity: int)
    requires WellFormed(source) && FromSource(s, source) && Saturated(s, source, capacity)
    requires key in s.running.entries
    ensures var r := Reap(s, source, key); FromSource(r, source) && Saturated(r, source, capacity)
  {
    var p := s.(running := Pop(s.running, key));
    assert FromSource(p, source);
    if s.cursor < |source| {
      PullAdmitsFresh(p, source);
    } else {
      PullFromSource(p, source);
    }
  }

  lemma {:induction false} ScanSaturated<D>(s: State<D>, source: seq<Item<D>>, snapshot: seq<string>, reaped: set<string>, capacity: int)
    requires WellFormed(source) && FromSource(s, source) && Saturated(s, source, capacity)
    requires Distinct(snapshot) && forall k :: k in snapshot ==> k in s.running.entries
    ensures var r := Scan(s, source, snapshot, reaped); FromSource(r, source) && Saturated(r, source, capacity)
    decreases |snapshot|
  {
    if snapshot != [] {
      var k := snapshot[0];
      var next := Step(s, source, k, reaped);
      if k in reaped {
        ReapSaturated(s, source, k, capacity);
      }
      assert forall j :: 0 < j < |snapshot| ==> snapshot[j] != k;
      ScanSaturated(next, source, snapshot[1..], reaped, capacity);
    }
  }

  lemma {:induction false} DrainSaturated<D>(s: State<D>, source: seq<Item<D>>, rounds: seq<set<string>>, capacity: int)
    requires WellFormed(source) && FromSource(s, source) && Saturated(s, source, capacity)
    ensures var r := Drain(s, source, rounds); FromSource(r, source) && Saturated(r, source, capacity)
    decreases |rounds|
  {
    if s.running.Size() != 0 && rounds != [] {
      ScanSaturated(s, source, s.running.keys, rounds[0], capacity);
      DrainSaturated(Scan(s, source, s.running.keys, rounds[0]), source, rounds[1..], capacity);
    }
  }

  /** A whole run (`startProcesses` then the polling loop) on a well-formed
      generator with capacity >= 1: if the pool ends empty, every item was
      admitted exactly once, in generator order. */
  lemma RunAdmitsEveryItemOnce<D>(source: seq<Item<D>>, capacity: int, rounds: seq<set<string>>)
    requires WellFormed(source) && capacity >= 1
    ensures var r := Drain(Prime(Init(), source, capacity), source, rounds);
      r.running.Size() == 0 ==>
        r.cursor == |source| && r.started == AdmittedKeys(source) && |r.started| == |source|
  {
    PrimeFills(source, capacity);
    DrainSaturated(Prime(Init(), source, capacity), source, rounds, capacity);
    var r := Drain(Prime(Init(), source, capacity), source, rounds);
    if r.running.Size() == 0 {
      assert source[..|source|] == source;
      WellFormedAdmitsAll(source);
    }
  }

  /** The pool never holds more than `capacity` entries when it is primed
      from empty. */
  lemma RunWithinCapacity<D>(source: seq<Item<D>>, capacity: int, rounds: seq<set<string>>)
    ensures Prime(Init(), source, capacity).running.Size() <= (if capacity < 0 then 0 else capacity)
    ensures Drain(Prime(Init(), source, capacity), source, rounds).running.Size() <= (if capacity < 0 then 0 else capacity)
  {
    DrainNeverGrows(Prime(Init(), source, capacity), source, rounds);
  }

  lemma {:induction false} DrainNeverGrows<D>(s: State<D>, source: seq<Item<D>>, rounds: seq<set<string>>)
    requires Valid(s, source)
    ensures Drain(s, source, rounds).running.Size() <= s.running.Size()
    decreases |rounds|
  {
    if s.running.Size() != 0 && rounds != [] {
      ScanKeeps(s, source, s.running.keys, rounds[0]);
      DrainNeverGrows(Scan(s, source, s.running.keys, rounds[0]), source, rounds[1..]);
    }
  }

  /** An empty generator: nothing is ever spawned. */
  lemma EmptySourceSpawnsNothing<D>(capacity: int, rounds: seq<set<string>>)
    ensures var r := Drain(Prime(Init<D>(), [], capacity), [], rounds);
      r.started == [] && r.running.Size() == 0
  {
    PrimeEmpty<D>(capacity);
  }

  lemma {:induction false} PrimeEmpty<D>(n: int)
    ensures Prime(Init<D>(), [], n) == Init()
    decreases n
  {
    if n > 0 { PrimeEmpty<D>(n - 1); }
  }
}
