/** utils/MultiProcesses.py: the same bounded pool as utils/Submitter.py,
    but each work item is a list of arguments for one Python function run
    in a child process (`multiprocessing.Process`), and nothing is logged.
    A finished child (`is_alive()` false) is dropped and its slot given to
    the next item of the generator, with no other condition.

    The class is proved against the pool functions of module `Pool`, with
    the argument lists as the pool's descriptors. */
module MultiProcesses {
  import opened Wrappers
  import opened Dicts
  import Pool

  class MultiProcesses<D> {
    /** What `keysGenerator` yields, in order, and how far it has been read. */
    const items: seq<Pool.Item<D>>
    var cursor: nat
    const parallelRunningSims: int
    /** `processDict`: each running child, by key, as its argument list. */
    var processDict: Dict<D>
    /** The keys of every child started so far, in order. */
    ghost var started: seq<string>

    ghost function PoolState(): Pool.State<D>
      reads this
    {
      Pool.State(processDict, cursor, started)
    }

    ghost predicate Valid()
      reads this
    {
      Pool.Valid(PoolState(), items)
    }

    constructor(items: seq<Pool.Item<D>>, parallelSim: int)
      ensures Valid() && PoolState() == Pool.Init()
      ensures this.items == items && parallelRunningSims == parallelSim
    {
      this.items := items;
      parallelRunningSims := parallelSim;
      cursor := 0;
      processDict := Empty();
      started := [];
    }

    /** `startSingleProcess(key, keyArgs)`. */
    method StartSingleProcess(key: Option<string>, keyArgs: Option<D>)
      requires Valid()
      modifies this
      ensures Valid()
      ensures PoolState() == Pool.Attempt(old(PoolState()), items, key, keyArgs)
    {
      var k, a := key, keyArgs;
      if k.None? || a.None? {
        if cursor < |items| {
          k, a := items[cursor].key, items[cursor].task;
          cursor := cursor + 1;
        } else {
          k, a := None, None;
        }
      }
      if k.Some? && a.Some? {
        processDict := Store(processDict, k.value, a.value);
        started := started + [k.value];
      }
    }

    /** `startProcesses()`: `parallelRunningSims` attempts. */
    method StartProcesses()
      requires Valid()
      modifies this
      ensures Valid()
      ensures PoolState() == Pool.Prime(old(PoolState()), items, parallelRunningSims)
    {
      var i := 0;
      while i < parallelRunningSims
        invariant Valid()
        invariant i <= (if parallelRunningSims < 0 then 0 else parallelRunningSims)
        invariant PoolState() == Pool.Prime(old(PoolState()), items, i)
        decreases parallelRunningSims - i
      {
        StartSingleProcess(None, None);
        i := i + 1;
      }
    }

    /** `singleCheck(keyToLoop)`: the argument is not used; one pass over a
        snapshot of the keys pops every child in `finished` (the keys whose
        `is_alive()` is false during this pass) and makes one admission
        attempt for each.  The result is the key list after the pass. */
    method SingleCheck(keyToLoop: seq<string>, finished: set<string>) returns (keys: seq<string>)
      requires Valid()
      modifies this
      ensures Valid()
      ensures PoolState() == Pool.Scan(old(PoolState()), items, old(processDict.keys), finished)
      ensures keys == processDict.keys
    {
      var snapshot := processDict.keys;
      var i := 0;
      while i < |snapshot|
        invariant 0 <= i <= |snapshot|
        invariant Valid()
        invariant Distinct(snapshot[i..])
        invariant forall k :: k in snapshot[i..] ==> k in processDict.entries
        invariant Pool.Scan(PoolState(), items, snapshot[i..], finished) == Pool.Scan(old(PoolState()), items, snapshot, finished)
      {
        Pool.ScanUnfold(PoolState(), items, snapshot[i..], finished);
        assert snapshot[i..][1..] == snapshot[i + 1..];
        CheckKey(snapshot[i], finished);
        i := i + 1;
      }
      keys := processDict.keys;
    }

    /** One turn of the scan in `singleCheck`: a finished child is popped
        and its slot offered to the next item. */
    method CheckKey(key: string, finished: set<string>)
      requires Valid() && key in processDict.entries
      modifies this
      ensures Valid()
      ensures PoolState() == Pool.Step(old(PoolState()), items, key, finished)
    {
      if key in finished {
        processDict := Pop(processDict, key);
        StartSingleProcess(None, None);
      }
    }

    /** `checkProcesses()`: scan until the pool is empty.  Python loops for
        as long as that takes; here `rounds` lists the finished sets of the
        scans, and the result says whether the pool emptied before the list
        ran out. */
    method CheckProcesses(rounds: seq<set<string>>) returns (drained: bool)
      requires Valid()
      modifies this
      ensures Valid()
      ensures PoolState() == Pool.Drain(old(PoolState()), items, rounds)
      ensures drained <==> processDict.Size() == 0
    {
      ghost var s0 := PoolState();
      var keyToLoop := processDict.keys;
      var i := 0;
      while keyToLoop != [] && i < |rounds|
        invariant 0 <= i <= |rounds|
        invariant Valid()
        invariant keyToLoop == processDict.keys
        invariant Pool.Drain(PoolState(), items, rounds[i..]) == Pool.Drain(s0, items, rounds)
        decreases |rounds| - i
      {
        assert rounds[i..][0] == rounds[i] && rounds[i..][1..] == rounds[i + 1..];
        keyToLoop := SingleCheck(keyToLoop, rounds[i]);
        i := i + 1;
      }
      drained := keyToLoop == [];
    }
  }
}
