/** MakeCorsikaSim.py: the gamma production.  For every energy bin the
    generator walks a block of `endNumber` process numbers, skips the showers
    whose CORSIKA output `DAT<fileNumber>` already sits in the data folder,
    writes a steering card for each of the others and yields its key and the
    path of a shell script that runs CORSIKA on the card.

    The generator is modelled eagerly: `Generator` returns every item it
    would yield, in order, with the card and script written for it.  The
    data-folder listing is a parameter (a function from folder to file
    names). */
module CorsikaSim {
  import opened Wrappers
  import opened Strings
  import opened Dicts
  import opened FileWriter
  import opened Keyspace
  import Pool
  import Submitter

  const PathCorsika: string := "/home/hk-project-pevradio/rn8463/corsika/corsika-77401/run/"
  const CorsikaExe: string := PathCorsika + "/corsika77401Linux_SIBYLL_fluka"

  /** What `makeStringToSubmit` produces: the string handed to the pool and
      the script it wrote. */
  datatype Submission = Submission(submit: string, script: TextFile)

  /** One yielded item: the key and submitted string, and the energies and
      numbers its card and script were written for. */
  datatype Job = Job(key: string, submit: string, e1: Energy, e2: Energy, procNumber: int, runNumber: int)

  /** The submitter key `{log10_E1}_{fileNumber}`. */
  function KeyOf(e: Energy, runNumber: int): string
  {
    e.name + "_" + FileNumber(runNumber)
  }

  /** The folder whose listing decides the skip, and the file that skips. */
  function DataFolder(dirs: map<string, string>, e: Energy): string
    requires "data" in dirs
  {
    dirs["data"] + "/" + e.name + "/"
  }

  predicate Done(dirs: map<string, string>, listing: string -> set<string>, e: Energy, runNumber: int)
    requires "data" in dirs
  {
    "DAT" + FileNumber(runNumber) in listing(DataFolder(dirs, e))
  }

  /** `{temp}/{log10_E}/temp_{fileNumber}.sh` */
  function TempFile(dirs: map<string, string>, e: Energy, fileNumber: string): string
    requires HasFolders(dirs)
  {
    dirs["temp"] + "/" + e.name + "/temp_" + fileNumber + ".sh"
  }

  /** `{log}/{log10_E}/DAT{fileNumber}.log` */
  function LogFile(dirs: map<string, string>, e: Energy, fileNumber: string): string
    requires HasFolders(dirs)
  {
    dirs["log"] + "/" + e.name + "/DAT" + fileNumber + ".log"
  }

  /** `mv {temp}/{E}/{fileNumber}DAT{fileNumber} {data}/{E}/DAT{fileNumber}` */
  function MoveCommand(dirs: map<string, string>, e: Energy, fileNumber: string): string
    requires HasFolders(dirs)
  {
    "mv " + DirectPrefix(dirs["temp"], e, fileNumber) + "DAT" + fileNumber + " " + DataFolder(dirs, e) + "DAT" + fileNumber
  }

  /** `makeStringToSubmit(log10_E, runNumber)`: a script that enters the
      CORSIKA directory, runs CORSIKA on the card, moves its output to the
      data folder and, last, deletes itself; the submitted string is the
      script's own path. */
  function MakeStringToSubmit(dirs: map<string, string>, e: Energy, runNumber: int): (r: Submission)
    requires HasFolders(dirs)
    ensures r.submit == r.script.path == TempFile(dirs, e, FileNumber(runNumber))
    ensures |r.script.chunks| == 5 && r.script.chunks[0] == "#!/bin/sh"
    ensures r.script.chunks[3] == "\n" + MoveCommand(dirs, e, FileNumber(runNumber))
    ensures r.script.chunks[4] == "\nrm " + r.submit
  {
    var fn := FileNumber(runNumber);
    var inpFile := CardPath(dirs["inp"], e, fn);
    var tempFile := TempFile(dirs, e, fn);
    Submission(tempFile, TextFile(tempFile, ["#!/bin/sh", "\ncd " + PathCorsika,
                                             "\n" + CorsikaExe + " < " + inpFile + " > " + LogFile(dirs, e, fn),
                                             "\n" + MoveCommand(dirs, e, fn), "\nrm " + tempFile]))
  }

  /** The script feeds CORSIKA exactly the card `writeFile` wrote, and
      moves the file CORSIKA writes under the card's DIRECT prefix (see
      `MoveCommand`). */
  lemma ScriptMatchesCard(w: FileWriter, procNumber: int, runNumber: int, e1: Energy, e2: Energy)
    requires w.Valid() && "inp" in w.directories
    ensures var card := w.WriteFile(procNumber, runNumber, e1, e2).value;
            var fn := FileNumber(runNumber);
            var script := MakeStringToSubmit(w.directories, e1, runNumber).script;
            card.chunks[28] == "DIRECT  " + DirectPrefix(w.directories["temp"], e1, fn) + "\n" &&
            script.chunks[3] == "\n" + MoveCommand(w.directories, e1, fn) &&
            script.chunks[2] == "\n" + CorsikaExe + " < " + card.path + " > " + LogFile(w.directories, e1, fn)
  {
    var card := w.WriteFile(procNumber, runNumber, e1, e2).value;
    assert card.chunks[28] == card.chunks[28..][0];
  }

  /** The item for process number `procNumber`, whose run number is one
      more: the key, the script path and the numbers its card is written for. */
  function JobOf(dirs: map<string, string>, e1: Energy, e2: Energy, procNumber: int): (j: Job)
    requires HasFolders(dirs)
    ensures j.submit == MakeStringToSubmit(dirs, e1, procNumber + 1).submit
  {
    var runNumber := procNumber + 1;
    Job(KeyOf(e1, runNumber), TempFile(dirs, e1, FileNumber(runNumber)), e1, e2, procNumber, runNumber)
  }

  /** The skip test of one energy bin, as a predicate on process numbers. */
  function DoneIn(dirs: map<string, string>, listing: string -> set<string>, e: Energy): int -> bool
    requires "data" in dirs
  {
    p => Done(dirs, listing, e, p + 1)
  }

  /** The items of the given process numbers, in their order. */
  function JobsFor(dirs: map<string, string>, e1: Energy, e2: Energy, ps: seq<int>): (jobs: seq<Job>)
    requires HasFolders(dirs)
    ensures |jobs| == |ps|
  {
    if ps == [] then [] else JobsFor(dirs, e1, e2, ps[..|ps| - 1]) + [JobOf(dirs, e1, e2, ps[|ps| - 1])]
  }

  /** The i-th item is the item of the i-th process number. */
  lemma {:induction false} JobsForAt(dirs: map<string, string>, e1: Energy, e2: Energy, ps: seq<int>, i: nat)
    requires HasFolders(dirs) && i < |ps|
    ensures JobsFor(dirs, e1, e2, ps)[i] == JobOf(dirs, e1, e2, ps[i])
  {
    if i < |ps| - 1 {
      JobsForAt(dirs, e1, e2, ps[..|ps| - 1], i);
    }
  }

  /** The process numbers lo .. hi - 1 whose output is not yet in the data
      folder, ascending. */
  function Missing(dirs: map<string, string>, listing: string -> set<string>, e: Energy, lo: int, hi: int): seq<int>
    requires "data" in dirs
    decreases hi - lo
  {
    if hi <= lo then [] else Missing(dirs, listing, e, lo, hi - 1) + (if Done(dirs, listing, e, hi) then [] else [hi - 1])
  }

  /** `Missing` is the block lo .. hi - 1 filtered by the skip test. */
  lemma {:induction false} MissingIsKept(dirs: map<string, string>, listing: string -> set<string>, e: Energy, lo: int, hi: int)
    requires "data" in dirs
    ensures Missing(dirs, listing, e, lo, hi) == Kept(DoneIn(dirs, listing, e), lo, hi)
    decreases hi - lo
  {
    if hi > lo {
      MissingIsKept(dirs, listing, e, lo, hi - 1);
      assert DoneIn(dirs, listing, e)(hi - 1) == Done(dirs, listing, e, hi);
    }
  }

  /** A process number is missing exactly when it lies in the block and its
      output is not in the data folder; the missing numbers ascend. */
  lemma MissingMeaning(dirs: map<string, string>, listing: string -> set<string>, e: Energy, lo: int, hi: int)
    requires "data" in dirs
    ensures forall p :: p in Missing(dirs, listing, e, lo, hi) <==> lo <= p < hi && !Done(dirs, listing, e, p + 1)
    ensures forall i, j :: 0 <= i < j < |Missing(dirs, listing, e, lo, hi)| ==>
              Missing(dirs, listing, e, lo, hi)[i] < Missing(dirs, listing, e, lo, hi)[j]
  {
    MissingIsKept(dirs, listing, e, lo, hi);
    KeptMeaning(DoneIn(dirs, listing, e), lo, hi);
    KeptIncreasing(DoneIn(dirs, listing, e), lo, hi);
  }

  /** The items one energy bin yields: those of the process numbers lo .. hi - 1
      whose output is not yet in the data folder. */
  function BinJobs(dirs: map<string, string>, listing: string -> set<string>, e1: Energy, e2: Energy, lo: int, hi: int): seq<Job>
    requires HasFolders(dirs)
    decreases hi - lo
  {
    if hi <= lo then []
    else BinJobs(dirs, listing, e1, e2, lo, hi - 1) +
         (if Done(dirs, listing, e1, hi) then [] else [JobOf(dirs, e1, e2, hi - 1)])
  }

  /** The items of a bin are those of its missing process numbers. */
  lemma {:induction false} BinJobsMissing(dirs: map<string, string>, listing: string -> set<string>, e1: Energy, e2: Energy,
                                          lo: int, hi: int)
    requires HasFolders(dirs)
    ensures BinJobs(dirs, listing, e1, e2, lo, hi) == JobsFor(dirs, e1, e2, Missing(dirs, listing, e1, lo, hi))
    decreases hi - lo
  {
    if hi > lo {
      BinJobsMissing(dirs, listing, e1, e2, lo, hi - 1);
      var ps := Missing(dirs, listing, e1, lo, hi - 1);
      if !Done(dirs, listing, e1, hi) {
        assert (ps + [hi - 1])[..|ps|] == ps;
      } else {
        assert ps + [] == ps;
      }
    }
  }

  function Keys(jobs: seq<Job>): seq<string>
  {
    seq(|jobs|, i requires 0 <= i < |jobs| => jobs[i].key)
  }

  function JobKey(job: Job): string
  {
    job.key
  }

  /** No two items share a key. */
  predicate UniqueKeys(jobs: seq<Job>)
  {
    UniqueBy(jobs, JobKey)
  }

  /** Within one energy, different run numbers give different keys. */
  lemma KeyOfInjective(e: Energy, r: int, q: int)
    requires r >= 0 && q >= 0 && KeyOf(e, r) == KeyOf(e, q)
    ensures r == q
  {
    var n := |e.name| + 1;
    assert FileNumber(r) == KeyOf(e, r)[n..] == KeyOf(e, q)[n..] == FileNumber(q);
    FileNumberInjective(r, q);
  }

  /** The key of run number r is among the keys of the items of `ps`
      exactly when r's process number r - 1 is in `ps`. */
  lemma JobsForKeyIn(dirs: map<string, string>, e1: Energy, e2: Energy, ps: seq<int>, r: int)
    requires HasFolders(dirs) && r >= 0
    requires forall i :: 0 <= i < |ps| ==> ps[i] >= 0
    ensures KeyOf(e1, r) in Keys(JobsFor(dirs, e1, e2, ps)) <==> r - 1 in ps
  {
    var keys := Keys(JobsFor(dirs, e1, e2, ps));
    if KeyOf(e1, r) in keys {
      var i :| 0 <= i < |keys| && keys[i] == KeyOf(e1, r);
      JobsForAt(dirs, e1, e2, ps, i);
      KeyOfInjective(e1, r, ps[i] + 1);
    }
    if r - 1 in ps {
      var i :| 0 <= i < |ps| && ps[i] == r - 1;
      JobsForAt(dirs, e1, e2, ps, i);
      assert keys[i] == KeyOf(e1, r);
    }
  }

  /** Within one bin the run number `r` gets an item exactly when it belongs
      to the bin's block and its output is missing from the data folder. */
  lemma BinYieldsMissing(dirs: map<string, string>, listing: string -> set<string>, e1: Energy, e2: Energy,
                         lo: int, hi: int, r: int)
    requires HasFolders(dirs) && lo >= 0 && r >= 0
    ensures KeyOf(e1, r) in Keys(BinJobs(dirs, listing, e1, e2, lo, hi)) <==>
              lo < r <= hi && !Done(dirs, listing, e1, r)
  {
    BinJobsMissing(dirs, listing, e1, e2, lo, hi);
    var ps := Missing(dirs, listing, e1, lo, hi);
    MissingMeaning(dirs, listing, e1, lo, hi);
    assert forall i :: 0 <= i < |ps| ==> ps[i] in ps;
    JobsForKeyIn(dirs, e1, e2, ps, r);
  }

  /** Ascending non-negative process numbers give pairwise different keys. */
  lemma JobsForKeysDistinct(dirs: map<string, string>, e1: Energy, e2: Energy, ps: seq<int>)
    requires HasFolders(dirs)
    requires forall i :: 0 <= i < |ps| ==> ps[i] >= 0
    requires forall i, j :: 0 <= i < j < |ps| ==> ps[i] < ps[j]
    ensures UniqueBy(JobsFor(dirs, e1, e2, ps), JobKey)
  {
    var jobs := JobsFor(dirs, e1, e2, ps);
    forall i, j | 0 <= i < j < |jobs| ensures jobs[i].key != jobs[j].key {
      JobsForAt(dirs, e1, e2, ps, i);
      JobsForAt(dirs, e1, e2, ps, j);
      if jobs[i].key == jobs[j].key {
        KeyOfInjective(e1, ps[i] + 1, ps[j] + 1);
      }
    }
  }

  /** The keys of one bin are pairwise different. */
  lemma BinKeysDistinct(dirs: map<string, string>, listing: string -> set<string>, e1: Energy, e2: Energy,
                        lo: int, hi: int)
    requires HasFolders(dirs) && lo >= 0
    ensures UniqueBy(BinJobs(dirs, listing, e1, e2, lo, hi), JobKey)
  {
    BinJobsMissing(dirs, listing, e1, e2, lo, hi);
    var ps := Missing(dirs, listing, e1, lo, hi);
    MissingMeaning(dirs, listing, e1, lo, hi);
    assert forall i :: 0 <= i < |ps| ==> ps[i] in ps;
    JobsForKeysDistinct(dirs, e1, e2, ps);
  }

  /** With an empty data folder every process number of the bin yields. */
  lemma FreshBinYieldsAll(dirs: map<string, string>, listing: string -> set<string>, e1: Energy, e2: Energy,
                          lo: int, hi: int)
    requires HasFolders(dirs) && listing(DataFolder(dirs, e1)) == {}
    ensures |BinJobs(dirs, listing, e1, e2, lo, hi)| == if hi <= lo then 0 else hi - lo
  {
    BinJobsMissing(dirs, listing, e1, e2, lo, hi);
    MissingIsKept(dirs, listing, e1, lo, hi);
    KeptAll(DoneIn(dirs, listing, e1), lo, hi);
  }

  /** Every key of a bin carries the bin's energy label. */
  lemma BinKeysLabelled(dirs: map<string, string>, listing: string -> set<string>, e1: Energy, e2: Energy,
                        lo: int, hi: int)
    requires HasFolders(dirs) && '_' !in e1.name
    ensures LabelledBy(BinJobs(dirs, listing, e1, e2, lo, hi), JobKey, {e1.name})
  {
    BinJobsMissing(dirs, listing, e1, e2, lo, hi);
    var jobs := BinJobs(dirs, listing, e1, e2, lo, hi);
    var ps := Missing(dirs, listing, e1, lo, hi);
    forall i | 0 <= i < |jobs| ensures Label(JobKey(jobs[i])) in {e1.name} {
      JobsForAt(dirs, e1, e2, ps, i);
      KeyLabel(e1.name, FileNumber(ps[i] + 1));
    }
  }

  /** The first process number of a bin: `(startNumber + binNumber) * endNumber`. */
  function BinStart(startNumber: int, endNumber: int, e: Energy): int
  {
    (startNumber + e.bin) * endNumber
  }

  /** Energies whose labels are distinct and free of underscores, and whose
      bins start at non-negative process numbers. */
  predicate GoodGrid(startNumber: int, endNumber: int, energies: seq<Energy>)
  {
    (forall i :: 0 <= i < |energies| ==> '_' !in energies[i].name) &&
    (forall i, j :: 0 <= i < j < |energies| ==> energies[i].name != energies[j].name) &&
    (forall i :: 0 <= i < |energies| ==> BinStart(startNumber, endNumber, energies[i]) >= 0)
  }

  class SimulationMaker {
    const startNumber: int
    const endNumber: int
    const energies: seq<Energy>
    const fW: FileWriter

    constructor(startNumber: int, endNumber: int, energies: seq<Energy>, fW: FileWriter)
      ensures this.startNumber == startNumber && this.endNumber == endNumber
      ensures this.energies == energies && this.fW == fW
    {
      this.startNumber := startNumber;
      this.endNumber := endNumber;
      this.energies := energies;
      this.fW := fW;
    }

    /** The items of the first n bins, in the order the generator yields
        them, once `makeFolders` has set the folders `dirs`. */
    function Jobs(dirs: map<string, string>, listing: string -> set<string>, n: nat): seq<Job>
      requires n < |energies| && HasFolders(dirs)
    {
      if n == 0 then [] else Jobs(dirs, listing, n - 1) + Bin(dirs, listing, n - 1)
    }

    /** The items of bins 0 .. n - 1, one sequence per bin. */
    ghost function Bins(dirs: map<string, string>, listing: string -> set<string>, n: nat): (bins: seq<seq<Job>>)
      requires n < |energies| && HasFolders(dirs)
      ensures |bins| == n
    {
      if n == 0 then [] else Bins(dirs, listing, n - 1) + [Bin(dirs, listing, n - 1)]
    }

    /** The items of bin k, the pair (energies[k], energies[k + 1]), whose
        block of `endNumber` process numbers starts at `BinStart`. */
    function Bin(dirs: map<string, string>, listing: string -> set<string>, k: nat): seq<Job>
      requires k + 1 < |energies| && HasFolders(dirs)
    {
      BinJobs(dirs, listing, energies[k], energies[k + 1], BinStart(startNumber, endNumber, energies[k]),
              BinStart(startNumber, endNumber, energies[k]) + endNumber)
    }

    /** The energy labels of bins 0 .. n - 1. */
    function Names(n: nat): (names: seq<string>)
      requires n <= |energies|
      ensures |names| == n
    {
      if n == 0 then [] else Names(n - 1) + [energies[n - 1].name]
    }

    /** `Jobs` is the concatenation of the bins, and bin k is `Bin(k)`. */
    lemma {:induction false} JobsConcat(dirs: map<string, string>, listing: string -> set<string>, n: nat)
      requires n < |energies| && HasFolders(dirs)
      ensures Jobs(dirs, listing, n) == Concat(Bins(dirs, listing, n))
      ensures forall k :: 0 <= k < n ==> Bins(dirs, listing, n)[k] == Bin(dirs, listing, k)
    {
      if n > 0 {
        JobsConcat(dirs, listing, n - 1);
        var bins := Bins(dirs, listing, n);
        assert bins[..n - 1] == Bins(dirs, listing, n - 1);
        assert Concat(bins) == Concat(Bins(dirs, listing, n - 1)) + Bin(dirs, listing, n - 1);
        forall k | 0 <= k < n ensures bins[k] == Bin(dirs, listing, k) {
          if k < n - 1 {
            assert bins[k] == Bins(dirs, listing, n - 1)[k];
          }
        }
      }
    }

    /** The keys of one bin are distinct and carry that bin's energy label. */
    lemma BinKeys(dirs: map<string, string>, listing: string -> set<string>, k: nat)
      requires k + 1 < |energies| && HasFolders(dirs)
      requires GoodGrid(startNumber, endNumber, energies)
      ensures UniqueBy(Bin(dirs, listing, k), JobKey)
      ensures LabelledBy(Bin(dirs, listing, k), JobKey, {energies[k].name})
    {
      var lo := BinStart(startNumber, endNumber, energies[k]);
      BinKeysDistinct(dirs, listing, energies[k], energies[k + 1], lo, lo + endNumber);
      BinKeysLabelled(dirs, listing, energies[k], energies[k + 1], lo, lo + endNumber);
    }

    /** On a grid with distinct labels, the labels of bins 0 .. n - 1 are
        distinct and are those of energies[0 .. n - 1]. */
    lemma NamesDistinct(n: nat)
      requires n < |energies| && GoodGrid(startNumber, endNumber, energies)
      ensures forall k, l :: 0 <= k < l < n ==> Names(n)[k] != Names(n)[l]
      ensures (set k | 0 <= k < n :: Names(n)[k]) == (set k | 0 <= k < n :: energies[k].name)
    {
      forall k | 0 <= k < n ensures Names(n)[k] == energies[k].name {
        NamesAt(n, k);
      }
    }

    lemma {:induction false} NamesAt(n: nat, k: nat)
      requires k < n <= |energies|
      ensures Names(n)[k] == energies[k].name
    {
      if k < n - 1 {
        NamesAt(n - 1, k);
      }
    }

    /** The inner loop of `generator()` over the process numbers lo .. hi - 1
        of one bin: skip a process number if its output exists, otherwise
        yield its item. */
    method BinLoop(listing: string -> set<string>, e1: Energy, e2: Energy, lo: int, hi: int) returns (bin: seq<Job>)
      requires HasFolders(fW.directories)
      ensures bin == BinJobs(fW.directories, listing, e1, e2, lo, hi)
    {
      ghost var dirs := fW.directories;
      bin := [];
      var procNumber := lo;
      while procNumber < hi
        invariant lo <= procNumber <= if lo <= hi then hi else lo
        invariant bin == BinJobs(dirs, listing, e1, e2, lo, procNumber)
        decreases hi - procNumber
      {
        if !Done(fW.directories, listing, e1, procNumber + 1) {
          bin := bin + [JobOf(fW.directories, e1, e2, procNumber)];
        }
        procNumber := procNumber + 1;
      }
      if hi < lo {
        assert BinJobs(dirs, listing, e1, e2, lo, hi) == [];
      }
    }

    /** `generator()`: for every consecutive pair of energies, `makeFolders`
        and then, for each process number of the bin, skip it if its output
        exists and otherwise yield its item. */
    method Generator(listing: string -> set<string>) returns (jobs: seq<Job>)
      requires fW.Valid()
      modifies fW
      ensures fW.Valid()
      ensures fW.directories == if |energies| >= 2 then WithFolders(old(fW.directories)) else old(fW.directories)
      ensures |energies| >= 2 ==> jobs == Jobs(fW.directories, listing, |energies| - 1)
      ensures |energies| < 2 ==> jobs == []
    {
      jobs := [];
      if |energies| < 2 {
        // `range(len(energies) - 1)` is empty: no bin, no folders made.
        return;
      }
      ghost var folders := WithFolders(fW.directories);
      WithFoldersIdempotent(fW.directories);
      var i := 0;
      while i + 1 < |energies|
        invariant fW.Valid() && i < |energies|
        invariant fW.directories == if i == 0 then old(fW.directories) else folders
        invariant jobs == Jobs(folders, listing, i)
        decreases |energies| - i
      {
        jobs := BinTurn(listing, i, folders, jobs);
        i := i + 1;
      }
    }

    /** One turn of the outer loop of `generator()`: `makeFolders` for
        energies[i], then the inner loop over the bin's process numbers. */
    method BinTurn(listing: string -> set<string>, i: nat, ghost folders: map<string, string>, jobs: seq<Job>)
      returns (jobs': seq<Job>)
      requires fW.Valid() && i + 1 < |energies| && WithFolders(fW.directories) == folders
      requires jobs == Jobs(folders, listing, i)
      modifies fW
      ensures fW.Valid() && fW.directories == folders
      ensures jobs' == Jobs(folders, listing, i + 1)
    {
      fW.MakeFolders(energies[i]);
      var lo := BinStart(startNumber, endNumber, energies[i]);
      var bin := BinLoop(listing, energies[i], energies[i + 1], lo, lo + endNumber);
      jobs' := jobs + bin;
    }

    /** The keys of all yielded items are pairwise different, and each
        carries the label of one of the bins walked so far; so the pool fed
        by the generator sees every item as new. */
    lemma JobKeysDistinct(dirs: map<string, string>, listing: string -> set<string>, n: nat)
      requires n < |energies| && HasFolders(dirs)
      requires GoodGrid(startNumber, endNumber, energies)
      ensures UniqueKeys(Jobs(dirs, listing, n))
      ensures LabelledBy(Jobs(dirs, listing, n), JobKey, set k | 0 <= k < n :: energies[k].name)
    {
      var bins := Bins(dirs, listing, n);
      var names := Names(n);
      JobsConcat(dirs, listing, n);
      forall k | 0 <= k < n
        ensures UniqueBy(bins[k], JobKey) && LabelledBy(bins[k], JobKey, {names[k]})
      {
        NamesAt(n, k);
        BinKeys(dirs, listing, k);
      }
      NamesDistinct(n);
      ConcatUnique(bins, JobKey, names);
    }
  }

  /** The pool items the submitter pulls from the generator. */
  function Items(jobs: seq<Job>): seq<Pool.Item<string>>
  {
    seq(|jobs|, i requires 0 <= i < |jobs| => Pool.Item(Some(jobs[i].key), Some(jobs[i].submit)))
  }

  /** Distinct keys make a generator from which the pool admits every item. */
  lemma ItemsWellFormed(jobs: seq<Job>)
    requires UniqueKeys(jobs)
    ensures Pool.WellFormed(Items(jobs))
  {
  }

  /** `mainCorsikaSim` ignores its arguments: these are its settings. */
  const StartNumber: int := 0
  const EndNumber: int := 667
  const Username: string := "rn8463"
  const DirSimulations: string := "/lsdf/kit/ikp/projects/IceCube/sim/gamma-sim/"
  const Primary: int := 1
  const Dataset: int := 13400
  const LogDirProcesses: string := "/home/hk-project-pevradio/rn8463/logCorsikaGamma/"
  const ParallelSim: int := 100

  /** `mainCorsikaSim`: build the writer, the generator and the submitter,
      start the pool and poll it until it drains.  The energy grid, the
      data-folder listing and the completion oracle are parameters. */
  method MainCorsikaSim(energies: seq<Energy>, listing: string -> set<string>,
                        rounds: seq<Submitter.Poll>, output: string -> Submitter.Output)
    returns (simMaker: SimulationMaker, jobs: seq<Job>, submitter: Submitter.Submitter, drained: bool)
    ensures simMaker.startNumber == StartNumber && simMaker.endNumber == EndNumber && simMaker.energies == energies
    ensures |energies| >= 2 ==> jobs == simMaker.Jobs(WithFolders(map["sim" := DirSimulations]), listing, |energies| - 1)
    ensures |energies| < 2 ==> jobs == []
    ensures submitter.items == Items(jobs) && submitter.logDir == LogDirProcesses
    ensures submitter.parallelRunningSims == ParallelSim
    ensures submitter.Valid()
    ensures submitter.PoolState() ==
              Pool.Drain(Pool.Prime(Pool.Init(), Items(jobs), ParallelSim), Items(jobs), Submitter.ReapedRounds(rounds))
    ensures drained <==> submitter.processDict.Size() == 0
  {
    var fW := new FileWriter(Username, DirSimulations, Primary, Dataset,
                                        "0.0", "359.99", "0.0", "65.0");
    ghost var dirs := map["sim" := DirSimulations];
    assert fW.directories == dirs;
    simMaker := new SimulationMaker(StartNumber, EndNumber, energies, fW);
    jobs := simMaker.Generator(listing);
    assert |energies| >= 2 ==> fW.directories == WithFolders(dirs);
    submitter := new Submitter.Submitter(Items(jobs), LogDirProcesses, ParallelSim);
    submitter.StartProcesses();
    drained := submitter.CheckRunningProcesses(rounds, output);
  }

  /** With a grid of distinct labels the primed pool holds
      min(100, number of items) showers, all different, and once polling
      has emptied the pool every item the generator yields has been
      admitted exactly once, in order. */
  lemma MainPoolFills(jobs: seq<Job>, rounds: seq<set<string>>)
    requires UniqueKeys(jobs)
    ensures var s := Pool.Prime(Pool.Init(), Items(jobs), ParallelSim);
            s.running.Size() == Pool.Min(ParallelSim, |jobs|)
    ensures var r := Pool.Drain(Pool.Prime(Pool.Init(), Items(jobs), ParallelSim), Items(jobs), rounds);
            r.running.Size() == 0 ==>
              r.cursor == |jobs| && |r.started| == |jobs| &&
              forall i :: 0 <= i < |jobs| ==> r.started[i] == jobs[i].key
  {
    var source := Items(jobs);
    ItemsWellFormed(jobs);
    Pool.PrimeFills(source, ParallelSim);
    Pool.RunAdmitsEveryItemOnce(source, ParallelSim, rounds);
    Pool.WellFormedAdmitsAll(source);
    var r := Pool.Drain(Pool.Prime(Pool.Init(), source, ParallelSim), source, rounds);
    if r.running.Size() == 0 {
      forall i | 0 <= i < |jobs|
        ensures r.started[i] == jobs[i].key
      {
        assert source[i].key == Some(jobs[i].key);
      }
    }
  }
}
