/** utils/Submitter.py: a pool of shell commands run side by side.  A
    generator yields `(key, command line)` pairs; at most
    `parallelRunningSims` of them run at a time; a finished process has its
    standard output and error written to `{logDir}/output_{key}.out` and
    `.err`, is removed, and its slot is given to the next pair.

    The class is proved against the pool functions of module `Pool`: each
    method leaves `PoolState()` equal to the pool function of the state it
    started from.  What one scan observes is a `Poll` value, and the text a
    process prints is a function of its key.  The log directory is a map
    from path to text, so that a second write to a path replaces the
    first, as `open(path, "w")` does. */
module Submitter {
  import opened Wrappers
  import opened Dicts
  import Pool

  /** `(out, err)` from `communicate()`; None where Python gets None. */
  datatype Captured = Captured(out: Option<string>, err: Option<string>)

  /** The text written to a process's two log files: `str(out)` and
      `str(err)` of what `communicate()` returned.  For a pipe opened without
      `text=True` that is the bytes repr `b'...'`, not the raw output. */
  datatype Output = Output(out: string, err: string)

  /** What one scan observes: the keys whose `poll()` is not None, and among
      them those whose `communicate()` returns None for out or err. */
  datatype Poll = Poll(finished: set<string>, silent: set<string>)

  function OutPath(logDir: string, key: string): string { logDir + "/output_" + key + ".out" }

  function ErrPath(logDir: string, key: string): string { logDir + "/output_" + key + ".err" }

  /** Both halves of the captured output are present. */
  predicate Delivers(c: Captured) { c.out.Some? && c.err.Some? }

  /** What `communicate()` returns for `key` in a scan that observed `poll`. */
  function Communicated(poll: Poll, output: string -> Output, key: string): (c: Captured)
    ensures Delivers(c) <==> key !in poll.silent
  {
    if key in poll.silent then Captured(None, None)
    else Captured(Some(output(key).out), Some(output(key).err))
  }

  /** The keys a scan reaps: finished, with both halves of the output. */
  function Reaped(poll: Poll): set<string>
  {
    poll.finished - poll.silent
  }

  function ReapedRounds(rounds: seq<Poll>): (r: seq<set<string>>)
    ensures |r| == |rounds|
    ensures forall i :: 0 <= i < |rounds| ==> r[i] == Reaped(rounds[i])
  {
    if rounds == [] then [] else [Reaped(rounds[0])] + ReapedRounds(rounds[1..])
  }

  /** `open(path, "w").write(text)` for both log files of one key. */
  function WriteLogs(files: map<string, string>, logDir: string, key: string, o: Output): map<string, string>
  {
    files[OutPath(logDir, key) := o.out][ErrPath(logDir, key) := o.err]
  }

  /** The log directory after one scan over `keys`. */
  function ScanFiles(files: map<string, string>, logDir: string, keys: seq<string>, reaped: set<string>, output: string -> Output): map<string, string>
    decreases |keys|
  {
    if keys == [] then files
    else
      var k := keys[0];
      ScanFiles(if k in reaped then WriteLogs(files, logDir, k, output(k)) else files, logDir, keys[1..], reaped, output)
  }

  /** The log directory after a whole polling loop: one scan per round, as
      long as the pool is not empty. */
  function DrainFiles(files: map<string, string>, logDir: string, s: Pool.State<string>, items: seq<Pool.Item<string>>,
                      rounds: seq<Poll>, output: string -> Output): map<string, string>
    requires Pool.Valid(s, items)
    decreases |rounds|
  {
    if s.running.Size() == 0 || rounds == [] then files
    else
      var reaped := Reaped(rounds[0]);
      DrainFiles(ScanFiles(files, logDir, s.running.keys, reaped, output), logDir,
                 Pool.Scan(s, items, s.running.keys, reaped), items, rounds[1..], output)
  }

  /** Different keys never share a log file, and a key's `.out` and `.err`
      files are different files. */
  lemma LogPathsDistinct(logDir: string, a: string, b: string)
    ensures OutPath(logDir, a) != ErrPath(logDir, b)
    ensures OutPath(logDir, a) == OutPath(logDir, b) ==> a == b
    ensures ErrPath(logDir, a) == ErrPath(logDir, b) ==> a == b
  {
    var pa, pb := OutPath(logDir, a), ErrPath(logDir, b);
    assert pa[|pa| - 3] == 'o' && pb[|pb| - 3] == 'e';
    var n := |logDir + "/output_"|;
    if OutPath(logDir, a) == OutPath(logDir, b) {
      assert a == OutPath(logDir, a)[n..|OutPath(logDir, a)| - 4];
    }
    if ErrPath(logDir, a) == ErrPath(logDir, b) {
      assert a == ErrPath(logDir, a)[n..|ErrPath(logDir, a)| - 4];
    }
  }

  /** A log path of some key of `keys` that is in `reaped`. */
  ghost predicate LogOf(p: string, logDir: string, keys: seq<string>, reaped: set<string>)
  {
    exists k :: k in keys && k in reaped && (p == OutPath(logDir, k) || p == ErrPath(logDir, k))
  }

  /** After a scan, every reaped key of the snapshot has both its log files
      holding the process's text, and every other file is as it was. */
  lemma {:induction false} ScanFilesEffect(files: map<string, string>, logDir: string, keys: seq<string>, reaped: set<string>, output: string -> Output)
    ensures var r := ScanFiles(files, logDir, keys, reaped, output);
      (forall k :: k in keys && k in reaped ==>
        OutPath(logDir, k) in r && r[OutPath(logDir, k)] == output(k).out &&
        ErrPath(logDir, k) in r && r[ErrPath(logDir, k)] == output(k).err) &&
      (forall p :: !LogOf(p, logDir, keys, reaped) ==> (p in r <==> p in files) && (p in files ==> r[p] == files[p]))
    decreases |keys|
  {
    if keys != [] {
      var k := keys[0];
      var next := if k in reaped then WriteLogs(files, logDir, k, output(k)) else files;
      ScanFilesEffect(next, logDir, keys[1..], reaped, output);
      var r := ScanFiles(files, logDir, keys, reaped, output);
      assert r == ScanFiles(next, logDir, keys[1..], reaped, output);
      forall j | j in keys && j in reaped
        ensures OutPath(logDir, j) in r && r[OutPath(logDir, j)] == output(j).out
        ensures ErrPath(logDir, j) in r && r[ErrPath(logDir, j)] == output(j).err
      {
        if j !in keys[1..] {
          assert j == k;
          forall q | q in keys[1..] && q in reaped
            ensures OutPath(logDir, j) != OutPath(logDir, q) && OutPath(logDir, j) != ErrPath(logDir, q)
            ensures ErrPath(logDir, j) != OutPath(logDir, q) && ErrPath(logDir, j) != ErrPath(logDir, q)
          {
            LogPathsDistinct(logDir, j, q);
            LogPathsDistinct(logDir, q, j);
          }
          LogPathsDistinct(logDir, j, j);
          assert !LogOf(OutPath(logDir, j), logDir, keys[1..], reaped);
          assert !LogOf(ErrPath(logDir, j), logDir, keys[1..], reaped);
        }
      }
      forall p | !LogOf(p, logDir, keys, reaped)
        ensures (p in r <==> p in files) && (p in files ==> r[p] == files[p])
      {
        assert forall q :: q in keys[1..] ==> q in keys;
        if k in reaped {
          assert p != OutPath(logDir, k) && p != ErrPath(logDir, k);
        }
      }
    }
  }

  class Submitter {
    /** What the generator yields, in order, and how far it has been read. */
    const items: seq<Pool.Item<string>>
    var cursor: nat
    const logDir: string
    const parallelRunningSims: int
    /** `processDict`: each running process, by key, as its command line. */
    var processDict: Dict<string>
    /** The keys of every process spawned so far, in order. */
    ghost var started: seq<string>
    /** The files of the log directory: path to text. */
    var logFiles: map<string, string>

    ghost function PoolState(): Pool.State<string>
      reads this
    {
      Pool.State(processDict, cursor, started)
    }

    ghost predicate Valid()
      reads this
    {
      Pool.Valid(PoolState(), items)
    }

    constructor(items: seq<Pool.Item<string>>, logDir: string, parallelSim: int)
      ensures Valid() && PoolState() == Pool.Init() && logFiles == map[]
      ensures this.items == items && this.logDir == logDir && parallelRunningSims == parallelSim
    {
      this.items := items;
      this.logDir := logDir;
      parallelRunningSims := parallelSim;
      cursor := 0;
      processDict := Empty();
      started := [];
      logFiles := map[];
    }

    /** `startSingleProcess(key, processString)`. */
    method StartSingleProcess(key: Option<string>, processString: Option<string>)
      requires Valid()
      modifies this
      ensures Valid()
      ensures PoolState() == Pool.Attempt(old(PoolState()), items, key, processString)
      ensures logFiles == old(logFiles)
    {
      var k, p := key, processString;
      if k.None? || p.None? {
        if cursor < |items| {
          k, p := items[cursor].key, items[cursor].task;
          cursor := cursor + 1;
        } else {
          k, p := None, None;
        }
      }
      if k.Some? && p.Some? {
        processDict := Store(processDict, k.value, p.value);
        started := started + [k.value];
      }
    }

    /** `startProcesses()`: `parallelRunningSims` attempts. */
    method StartProcesses()
      requires Valid()
      modifies this
      ensures Valid()
      ensures PoolState() == Pool.Prime(old(PoolState()), items, parallelRunningSims)
      ensures logFiles == old(logFiles)
    {
      var i := 0;
      while i < parallelRunningSims
        invariant Valid() && logFiles == old(logFiles)
        invariant i <= (if parallelRunningSims < 0 then 0 else parallelRunningSims)
        invariant PoolState() == Pool.Prime(old(PoolState()), items, i)
        decreases parallelRunningSims - i
      {
        StartSingleProcess(None, None);
        i := i + 1;
      }
    }

    /** `deleteSingleProcess(key)`: pop the key if it is present. */
    method DeleteSingleProcess(key: string)
      requires Valid()
      modifies this
      ensures Valid()
      ensures processDict == if key in old(processDict.entries) then Pop(old(processDict), key) else old(processDict)
      ensures cursor == old(cursor) && started == old(started) && logFiles == old(logFiles)
    {
      if key in processDict.entries {
        processDict := Pop(processDict, key);
      }
    }

    /** `communicateSingleProcess(key)` for a finished process whose
        `communicate()` returned `c`: when both halves are present, write
        the two log files, drop the key and make one admission attempt;
        otherwise change nothing. */
    method CommunicateSingleProcess(key: string, c: Captured) returns (keyToLoop: seq<string>)
      requires Valid() && key in processDict.entries
      modifies this
      ensures Valid()
      ensures PoolState() == if Delivers(c) then Pool.Reap(old(PoolState()), items, key) else old(PoolState())
      ensures logFiles == if Delivers(c) then WriteLogs(old(logFiles), logDir, key, Output(c.out.value, c.err.value)) else old(logFiles)
      ensures keyToLoop == processDict.keys
    {
      if c.out.None? || c.err.None? {
        return processDict.keys;
      }
      logFiles := logFiles[OutPath(logDir, key) := c.out.value];
      logFiles := logFiles[ErrPath(logDir, key) := c.err.value];
      DeleteSingleProcess(key);
      StartSingleProcess(None, None);
      keyToLoop := processDict.keys;
    }

    /** `singleCheck()`: one pass over a snapshot of the keys, calling
        `communicateSingleProcess` for each key `poll` found finished.  The
        result is always the key list of the dictionary after the pass. */
    method SingleCheck(poll: Poll, output: string -> Output) returns (keyToLoop: seq<string>)
      requires Valid()
      modifies this
      ensures Valid()
      ensures PoolState() == Pool.Scan(old(PoolState()), items, old(processDict.keys), Reaped(poll))
      ensures logFiles == ScanFiles(old(logFiles), logDir, old(processDict.keys), Reaped(poll), output)
      ensures keyToLoop == processDict.keys
    {
      ghost var s0 := PoolState();
      ghost var files0 := logFiles;
      ghost var reaped := Reaped(poll);
      var snapshot := processDict.keys;
      keyToLoop := snapshot;
      var i := 0;
      while i < |snapshot|
        invariant 0 <= i <= |snapshot|
        invariant Valid()
        invariant Distinct(snapshot[i..])
        invariant forall k :: k in snapshot[i..] ==> k in processDict.entries
        invariant Pool.Scan(PoolState(), items, snapshot[i..], reaped) == Pool.Scan(s0, items, snapshot, reaped)
        invariant ScanFiles(logFiles, logDir, snapshot[i..], reaped, output) == ScanFiles(files0, logDir, snapshot, reaped, output)
        invariant keyToLoop == processDict.keys
      {
        var key := snapshot[i];
        ghost var before := PoolState();
        Pool.ScanUnfold(before, items, snapshot[i..], reaped);
        assert snapshot[i..][1..] == snapshot[i + 1..];
        if key in poll.finished {
          keyToLoop := CommunicateSingleProcess(key, Communicated(poll, output, key));
        }
        assert PoolState() == Pool.Step(before, items, key, reaped);
        i := i + 1;
      }
    }

    /** `checkRunningProcesses()`: scan until the pool is empty.  Python
        loops for as long as that takes; here `rounds` lists what the scans
        observe, and the result says whether the pool emptied before the
        list ran out. */
    method CheckRunningProcesses(rounds: seq<Poll>, output: string -> Output) returns (drained: bool)
      requires Valid()
      modifies this
      ensures Valid()
      ensures PoolState() == Pool.Drain(old(PoolState()), items, ReapedRounds(rounds))
      ensures logFiles == DrainFiles(old(logFiles), logDir, old(PoolState()), items, rounds, output)
      ensures drained <==> processDict.Size() == 0
    {
      ghost var s0 := PoolState();
      ghost var files0 := logFiles;
      ghost var all := ReapedRounds(rounds);
      var keyToLoop := processDict.keys;
      var i := 0;
      while keyToLoop != [] && i < |rounds|
        invariant 0 <= i <= |rounds|
        invariant Valid()
        invariant keyToLoop == processDict.keys
        invariant Pool.Drain(PoolState(), items, all[i..]) == Pool.Drain(s0, items, all)
        invariant DrainFiles(logFiles, logDir, PoolState(), items, rounds[i..], output) ==
          DrainFiles(files0, logDir, s0, items, rounds, output)
        decreases |rounds| - i
      {
        assert all[i..][0] == Reaped(rounds[i]) && all[i..][1..] == all[i + 1..];
        assert rounds[i..][0] == rounds[i] && rounds[i..][1..] == rounds[i + 1..];
        keyToLoop := SingleCheck(rounds[i], output);
        i := i + 1;
      }
      drained := keyToLoop == [];
    }
  }
}
