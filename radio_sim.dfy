/** utils/SimulationMaker.py: the radio (CoREAS) production.  For every
    energy bin the generator walks the run indices `startNumber ..
    endNumber - 1`, composes a six-digit run number from the primary,
    zenith and azimuth IDs and the run index, skips the runs whose CoREAS
    output folder `SIM<runNumber>_coreas` already sits in the input folder,
    requests the card of each of the others and yields its key and the
    path of a clean-up script.

    As in `CorsikaSim`, the generator is modelled eagerly and the
    input-folder listing is a parameter.  The module as written imports
    `runNumberGenerator`, a name its source file does not define (the class
    is `RunNumberGenerator`); the model reads it as the class. */
module RadioSim {
  import opened Wrappers
  import opened Strings
  import opened FileWriter
  import opened Keyspace
  import opened RunNumbers

  /** One yielded item: the key and submitted string, the run index, and
      the run number and energies of the `writeFile(runNumber, E1, E2)`
      request made just before it. */
  datatype Job = Job(key: string, submit: string, e1: Energy, e2: Energy, runIndex: int, runNumber: string)

  /** The digits a run number is read back into. */
  datatype RunFields = RunFields(primaryID: nat, zenithID: nat, azimuthID: nat, runIndex: nat)

  /** `particleID * 1E5 + zenithID * 1E4 + azimuthID * 1E3`: the part of
      the run number that is the same for every run of a production. */
  function RunBase(primaryID: nat, zenithID: nat, azimuthID: nat): int
  {
    100000 * primaryID + 10000 * zenithID + 1000 * azimuthID
  }

  /** `format(int(base + runIndex), '06d')`.  The products are exact in
      double precision for the IDs and indices the scripts use. */
  function RunNumberOf(base: int, runIndex: int): string
  {
    FormatInt(base + runIndex, 6)
  }

  /** The run number of one run, or the TypeError Python raises when it
      multiplies an ID that is None. */
  function RunNumber(primaryID: Option<nat>, zenithID: Option<nat>, azimuthID: Option<nat>, runIndex: int): (r: Result<string>)
    ensures r.Err? <==> primaryID.None? || zenithID.None? || azimuthID.None?
    ensures r.Err? ==> r.error == TypeError
    ensures r.Ok? && runIndex >= 0 ==>
              ParseInt(r.value) == Some(RunBase(primaryID.value, zenithID.value, azimuthID.value) + runIndex)
  {
    if primaryID.None? || zenithID.None? || azimuthID.None? then Err(TypeError)
    else
      var v := RunBase(primaryID.value, zenithID.value, azimuthID.value) + runIndex;
      if v >= 0 then
        FormatIntMeaning(v, 6);
        ParseZeroPad(v, 6);
        Ok(RunNumberOf(RunBase(primaryID.value, zenithID.value, azimuthID.value), runIndex))
      else Ok(RunNumberOf(RunBase(primaryID.value, zenithID.value, azimuthID.value), runIndex))
  }

  /** Reading a run number back: the leading digits are the primary ID,
      then one digit each for zenith and azimuth, then three for the run
      index. */
  function Fields(runNumber: string): Option<RunFields>
  {
    match ParseInt(runNumber)
    case Some(v) => if v < 0 then None else Some(RunFields(v / 100000, v / 10000 % 10, v / 1000 % 10, v % 1000))
    case None => None
  }

  /** With single-digit zenith and azimuth IDs and a run index below 1000,
      the run number reads back as the IDs and the index it was made of,
      and a single-digit primary ID gives exactly six characters. */
  lemma RunNumberRoundTrip(primaryID: nat, zenithID: nat, azimuthID: nat, runIndex: nat)
    requires zenithID < 10 && azimuthID < 10 && runIndex < 1000
    ensures Fields(RunNumberOf(RunBase(primaryID, zenithID, azimuthID), runIndex)) ==
              Some(RunFields(primaryID, zenithID, azimuthID, runIndex))
    ensures primaryID < 10 ==> |RunNumberOf(RunBase(primaryID, zenithID, azimuthID), runIndex)| == 6
  {
    var v := RunBase(primaryID, zenithID, azimuthID) + runIndex;
    var s := RunNumberOf(RunBase(primaryID, zenithID, azimuthID), runIndex);
    RunValueDigits(primaryID, zenithID, azimuthID, runIndex);
    FormatIntMeaning(v, 6);
    assert s == ZeroPad(v, 6);
    ParseZeroPad(v, 6);
    assert Fields(s) == Some(RunFields(v / 100000, v / 10000 % 10, v / 1000 % 10, v % 1000));
    if primaryID < 10 {
      assert Pow10(6) == 1000000;
      ZeroPadWidth(v, 6);
    }
  }

  /** The decimal digits of a run number's value are the IDs and the index. */
  lemma RunValueDigits(primaryID: nat, zenithID: nat, azimuthID: nat, runIndex: nat)
    requires zenithID < 10 && azimuthID < 10 && runIndex < 1000
    ensures var v := RunBase(primaryID, zenithID, azimuthID) + runIndex;
            v / 100000 == primaryID && v / 10000 % 10 == zenithID &&
            v / 1000 % 10 == azimuthID && v % 1000 == runIndex &&
            (primaryID < 10 ==> v < 1000000)
  {
    var v := RunBase(primaryID, zenithID, azimuthID) + runIndex;
    var high := 100 * primaryID + 10 * zenithID + azimuthID;
    assert v == 1000 * high + runIndex;
    assert v / 1000 == high && v % 1000 == runIndex;
    assert high / 10 == 10 * primaryID + zenithID && high % 10 == azimuthID;
    assert v / 10000 == high / 10;
    assert v / 100000 == primaryID;
  }

  /** A run index of 1000 or more spills into the azimuth digit: run
      `runIndex + 1000` at one azimuth ID gets the run number of run
      `runIndex` at the next, and reads back as that run. */
  lemma RunIndexOverflow(primaryID: nat, zenithID: nat, azimuthID: nat, runIndex: nat)
    requires zenithID < 10 && azimuthID < 9 && runIndex < 1000
    ensures RunNumberOf(RunBase(primaryID, zenithID, azimuthID), runIndex + 1000) ==
              RunNumberOf(RunBase(primaryID, zenithID, azimuthID + 1), runIndex)
    ensures Fields(RunNumberOf(RunBase(primaryID, zenithID, azimuthID), runIndex + 1000)) ==
              Some(RunFields(primaryID, zenithID, azimuthID + 1, runIndex))
  {
    assert RunBase(primaryID, zenithID, azimuthID) + (runIndex + 1000) ==
           RunBase(primaryID, zenithID, azimuthID + 1) + runIndex;
    RunNumberRoundTrip(primaryID, zenithID, azimuthID + 1, runIndex);
  }

  /** For the production primaries (proton 14, iron 5626) `getPrimaryID`
      finds no ID, so composing the run number raises. */
  lemma ProductionPrimaryRaises(primary: int, zenith: real, azimuth: real, runIndex: int)
    requires primary in PrimaryTable
    ensures RunNumber(GetPrimaryID(primary as real), GetZenithID(zenith), GetAzimuthID(azimuth), runIndex) == Err(TypeError)
  {
    PrimaryIDReadsZenithTable();
  }

  /** The folder whose listing decides the skip: `{inp}/{log10_E1}//`. */
  function InpFolder(dirs: map<string, string>, e: Energy): string
    requires "inp" in dirs
  {
    dirs["inp"] + "/" + e.name + "//"
  }

  /** A run is done once its CoREAS output folder is in the listing. */
  predicate Done(dirs: map<string, string>, listing: string -> set<string>, e: Energy, runNumber: string)
    requires "inp" in dirs
  {
    "SIM" + runNumber + "_coreas" in listing(InpFolder(dirs, e))
  }

  /** The submitter key `{log10_E1}_{runNumber}`. */
  function KeyOf(e: Energy, runNumber: string): string
  {
    e.name + "_" + runNumber
  }

  /** Within one energy the key determines the run number. */
  lemma KeyOfInjective(e: Energy, a: string, b: string)
    requires KeyOf(e, a) == KeyOf(e, b)
    ensures a == b
  {
    var n := |e.name| + 1;
    assert a == KeyOf(e, a)[n..] && b == KeyOf(e, b)[n..];
  }

  /** `{temp}/{log10_E}/temp_{runNumber}.sh` */
  function TempFile(dirs: map<string, string>, e: Energy, runNumber: string): string
    requires HasFolders(dirs)
  {
    dirs["temp"] + "/" + e.name + "/temp_" + runNumber + ".sh"
  }

  /** `makeStringToSubmit(log10_E, runNumber)`: the script only removes the
      data folder, it does not run CORSIKA; the submitted string is the
      script's own path. */
  function MakeStringToSubmit(dirs: map<string, string>, e: Energy, runNumber: string): (r: TextFile)
    requires HasFolders(dirs)
    ensures r.path == TempFile(dirs, e, runNumber)
    ensures StartsWith(r.path, dirs["temp"] + "/" + e.name + "/temp_") && EndsWith(r.path, runNumber + ".sh")
    ensures |r.chunks| == 2 && r.chunks[0] == "#!/bin/sh"
    ensures StartsWith(r.chunks[1], "\n\nrm -r ") && EndsWith(r.chunks[1], dirs["data"] + "\n")
  {
    TextFile(TempFile(dirs, e, runNumber), ["#!/bin/sh", "\n\nrm -r " + dirs["data"] + "\n"])
  }

  /** Different runs of one energy get different scripts. */
  lemma ScriptPathInjective(dirs: map<string, string>, e: Energy, a: string, b: string)
    requires HasFolders(dirs)
    requires MakeStringToSubmit(dirs, e, a).path == MakeStringToSubmit(dirs, e, b).path
    ensures a == b
  {
    var head := dirs["temp"] + "/" + e.name + "/temp_";
    var pa, pb := TempFile(dirs, e, a), TempFile(dirs, e, b);
    assert a == pa[|head|..|pa| - 3] && b == pb[|head|..|pb| - 3];
  }

  /** The item of run index `runIndex` of a production whose run numbers
      start at `base`. */
  function JobOf(dirs: map<string, string>, e1: Energy, e2: Energy, base: int, runIndex: int): Job
    requires HasFolders(dirs)
  {
    var runNumber := RunNumberOf(base, runIndex);
    Job(KeyOf(e1, runNumber), TempFile(dirs, e1, runNumber), e1, e2, runIndex, runNumber)
  }

  function JobKey(job: Job): string
  {
    job.key
  }

  /** The skip test of one energy bin, as a predicate on run indices. */
  function DoneIn(dirs: map<string, string>, listing: string -> set<string>, e: Energy, base: int): int -> bool
    requires "inp" in dirs
  {
    runIndex => Done(dirs, listing, e, RunNumberOf(base, runIndex))
  }

  /** The items of the given run indices, in their order. */
  function JobsFor(dirs: map<string, string>, e1: Energy, e2: Energy, base: int, ps: seq<int>): (jobs: seq<Job>)
    requires HasFolders(dirs)
    ensures |jobs| == |ps|
  {
    if ps == [] then [] else JobsFor(dirs, e1, e2, base, ps[..|ps| - 1]) + [JobOf(dirs, e1, e2, base, ps[|ps| - 1])]
  }

  /** The i-th item is the item of the i-th run index. */
  lemma {:induction false} JobsForAt(dirs: map<string, string>, e1: Energy, e2: Energy, base: int, ps: seq<int>, i: nat)
    requires HasFolders(dirs) && i < |ps|
    ensures JobsFor(dirs, e1, e2, base, ps)[i] == JobOf(dirs, e1, e2, base, ps[i])
  {
    if i < |ps| - 1 {
      JobsForAt(dirs, e1, e2, base, ps[..|ps| - 1], i);
    }
  }

  /** The run indices lo .. hi - 1 whose CoREAS output is not yet in the
      input folder, ascending. */
  function Missing(dirs: map<string, string>, listing: string -> set<string>, e: Energy, base: int, lo: int, hi: int): seq<int>
    requires "inp" in dirs
    decreases hi - lo
  {
    if hi <= lo then []
    else Missing(dirs, listing, e, base, lo, hi - 1) + (if Done(dirs, listing, e, RunNumberOf(base, hi - 1)) then [] else [hi - 1])
  }

  /** `Missing` is the block lo .. hi - 1 filtered by the skip test. */
  lemma {:induction false} MissingIsKept(dirs: map<string, string>, listing: string -> set<string>, e: Energy, base: int, lo: int, hi: int)
    requires "inp" in dirs
    ensures Missing(dirs, listing, e, base, lo, hi) == Kept(DoneIn(dirs, listing, e, base), lo, hi)
    decreases hi - lo
  {
    if hi > lo {
      MissingIsKept(dirs, listing, e, base, lo, hi - 1);
      assert DoneIn(dirs, listing, e, base)(hi - 1) == Done(dirs, listing, e, RunNumberOf(base, hi - 1));
    }
  }

  /** The items one energy bin yields: those of the run indices lo .. hi - 1
      whose CoREAS output is not yet in the input folder. */
  function BinJobs(dirs: map<string, string>, listing: string -> set<string>, e1: Energy, e2: Energy,
                   base: int, lo: int, hi: int): seq<Job>
    requires HasFolders(dirs)
    decreases hi - lo
  {
    if hi <= lo then []
    else BinJobs(dirs, listing, e1, e2, base, lo, hi - 1) +
         (if Done(dirs, listing, e1, RunNumberOf(base, hi - 1)) then [] else [JobOf(dirs, e1, e2, base, hi - 1)])
  }

  /** The items of a bin are those of its missing run indices. */
  lemma {:induction false} BinJobsMissing(dirs: map<string, string>, listing: string -> set<string>, e1: Energy, e2: Energy,
                                          base: int, lo: int, hi: int)
    requires HasFolders(dirs)
    ensures BinJobs(dirs, listing, e1, e2, base, lo, hi) == JobsFor(dirs, e1, e2, base, Missing(dirs, listing, e1, base, lo, hi))
    decreases hi - lo
  {
    if hi > lo {
      BinJobsMissing(dirs, listing, e1, e2, base, lo, hi - 1);
      var ps := Missing(dirs, listing, e1, base, lo, hi - 1);
      if !Done(dirs, listing, e1, RunNumberOf(base, hi - 1)) {
        assert (ps + [hi - 1])[..|ps|] == ps;
      } else {
        assert ps + [] == ps;
      }
    }
  }

  /** Within one bin a run index gets an item exactly when it lies in
      lo .. hi - 1 and its output is missing; the items come in ascending
      run-index order. */
  lemma BinYieldsMissing(dirs: map<string, string>, listing: string -> set<string>, e1: Energy, e2: Energy,
                         base: int, lo: int, hi: int, runIndex: int)
    requires HasFolders(dirs)
    ensures (exists i :: 0 <= i < |BinJobs(dirs, listing, e1, e2, base, lo, hi)| &&
                         BinJobs(dirs, listing, e1, e2, base, lo, hi)[i].runIndex == runIndex) <==>
              lo <= runIndex < hi && !Done(dirs, listing, e1, RunNumberOf(base, runIndex))
    ensures forall i, j :: 0 <= i < j < |BinJobs(dirs, listing, e1, e2, base, lo, hi)| ==>
              BinJobs(dirs, listing, e1, e2, base, lo, hi)[i].runIndex < BinJobs(dirs, listing, e1, e2, base, lo, hi)[j].runIndex
  {
    var done := DoneIn(dirs, listing, e1, base);
    var ps := Missing(dirs, listing, e1, base, lo, hi);
    var jobs := BinJobs(dirs, listing, e1, e2, base, lo, hi);
    MissingIsKept(dirs, listing, e1, base, lo, hi);
    BinJobsMissing(dirs, listing, e1, e2, base, lo, hi);
    KeptMeaning(done, lo, hi);
    KeptIncreasing(done, lo, hi);
    forall i, j | 0 <= i < j < |jobs| ensures jobs[i].runIndex < jobs[j].runIndex {
      JobsForAt(dirs, e1, e2, base, ps, i);
      JobsForAt(dirs, e1, e2, base, ps, j);
    }
    if lo <= runIndex < hi && !done(runIndex) {
      assert runIndex in ps;
      var i :| 0 <= i < |ps| && ps[i] == runIndex;
      JobsForAt(dirs, e1, e2, base, ps, i);
    }
    if exists i :: 0 <= i < |jobs| && jobs[i].runIndex == runIndex {
      var i :| 0 <= i < |jobs| && jobs[i].runIndex == runIndex;
      JobsForAt(dirs, e1, e2, base, ps, i);
      assert ps[i] in ps;
    }
  }

  /** Two run indices of one bin never share a key. */
  lemma JobKeyInjective(dirs: map<string, string>, e1: Energy, e2: Energy, base: int, a: int, b: int)
    requires HasFolders(dirs) && a != b
    ensures JobOf(dirs, e1, e2, base, a).key != JobOf(dirs, e1, e2, base, b).key
  {
    if JobOf(dirs, e1, e2, base, a).key == JobOf(dirs, e1, e2, base, b).key {
      KeyOfInjective(e1, RunNumberOf(base, a), RunNumberOf(base, b));
      FormatIntInjective(base + a, base + b, 6);
    }
  }

  /** The keys of one bin are pairwise different. */
  lemma BinKeysDistinct(dirs: map<string, string>, listing: string -> set<string>, e1: Energy, e2: Energy,
                        base: int, lo: int, hi: int)
    requires HasFolders(dirs)
    ensures UniqueBy(BinJobs(dirs, listing, e1, e2, base, lo, hi), JobKey)
  {
    var ps := Missing(dirs, listing, e1, base, lo, hi);
    var jobs := BinJobs(dirs, listing, e1, e2, base, lo, hi);
    MissingIsKept(dirs, listing, e1, base, lo, hi);
    BinJobsMissing(dirs, listing, e1, e2, base, lo, hi);
    KeptIncreasing(DoneIn(dirs, listing, e1, base), lo, hi);
    forall i, j | 0 <= i < j < |jobs| ensures JobKey(jobs[i]) != JobKey(jobs[j]) {
      JobsForAt(dirs, e1, e2, base, ps, i);
      JobsForAt(dirs, e1, e2, base, ps, j);
      JobKeyInjective(dirs, e1, e2, base, ps[i], ps[j]);
    }
  }

  /** Every key of a bin carries the bin's energy label. */
  lemma BinKeysLabelled(dirs: map<string, string>, listing: string -> set<string>, e1: Energy, e2: Energy,
                        base: int, lo: int, hi: int)
    requires HasFolders(dirs) && '_' !in e1.name
    ensures LabelledBy(BinJobs(dirs, listing, e1, e2, base, lo, hi), JobKey, {e1.name})
  {
    var jobs := BinJobs(dirs, listing, e1, e2, base, lo, hi);
    var ps := Missing(dirs, listing, e1, base, lo, hi);
    BinJobsMissing(dirs, listing, e1, e2, base, lo, hi);
    forall i | 0 <= i < |jobs| ensures Label(JobKey(jobs[i])) in {e1.name} {
      JobsForAt(dirs, e1, e2, base, ps, i);
      KeyLabel(e1.name, RunNumberOf(base, ps[i]));
    }
  }

  /** With an empty input folder every run index of the bin yields. */
  lemma FreshBinYieldsAll(dirs: map<string, string>, listing: string -> set<string>, e1: Energy, e2: Energy,
                          base: int, lo: int, hi: int)
    requires HasFolders(dirs) && listing(InpFolder(dirs, e1)) == {}
    ensures |BinJobs(dirs, listing, e1, e2, base, lo, hi)| == if hi <= lo then 0 else hi - lo
  {
    MissingIsKept(dirs, listing, e1, base, lo, hi);
    BinJobsMissing(dirs, listing, e1, e2, base, lo, hi);
    KeptAll(DoneIn(dirs, listing, e1, base), lo, hi);
  }

  /** Energy labels that are distinct and free of underscores. */
  predicate GoodLabels(energies: seq<Energy>)
  {
    (forall i :: 0 <= i < |energies| ==> '_' !in energies[i].name) &&
    (forall i, j :: 0 <= i < j < |energies| ==> energies[i].name != energies[j].name)
  }

  class SimulationMaker {
    const startNumber: int
    const endNumber: int
    const energies: seq<Energy>
    const fW: FileWriter
    const pathCorsika: string
    const corsikaExe: string
    const zenith: real
    const azimuth: real
    const primaryParticle: real

    constructor(startNumber: int, endNumber: int, energies: seq<Energy>, fW: FileWriter,
                pathCorsika: string, corsikaExe: string, zenith: real, azimuth: real, primaryParticle: real)
      ensures this.startNumber == startNumber && this.endNumber == endNumber
      ensures this.energies == energies && this.fW == fW
      ensures this.pathCorsika == pathCorsika && this.corsikaExe == corsikaExe
      ensures this.zenith == zenith && this.azimuth == azimuth && this.primaryParticle == primaryParticle
    {
      this.startNumber := startNumber;
      this.endNumber := endNumber;
      this.energies := energies;
      this.fW := fW;
      this.pathCorsika := pathCorsika;
      this.corsikaExe := corsikaExe;
      this.zenith := zenith;
      this.azimuth := azimuth;
      this.primaryParticle := primaryParticle;
    }

    /** The run-number base of this production, None when one of the three
        ID lookups fails. */
    function Base(): Option<int>
    {
      var p, z, a := GetPrimaryID(primaryParticle), GetZenithID(zenith), GetAzimuthID(azimuth);
      if p.None? || z.None? || a.None? then None else Some(RunBase(p.value, z.value, a.value))
    }

    /** Every run of the production gets its number from the base, and
        fails exactly when the base is missing. */
    lemma BaseMeaning(runIndex: int)
      ensures var r := RunNumber(GetPrimaryID(primaryParticle), GetZenithID(zenith), GetAzimuthID(azimuth), runIndex);
              (r.Err? <==> Base().None?) &&
              (r.Ok? ==> r.value == RunNumberOf(Base().value, runIndex)) &&
              (r.Err? ==> r.error == TypeError)
    {
    }

    /** The items of bin k, the pair (energies[k], energies[k + 1]). */
    function Bin(dirs: map<string, string>, listing: string -> set<string>, base: int, k: nat): seq<Job>
      requires k + 1 < |energies| && HasFolders(dirs)
    {
      BinJobs(dirs, listing, energies[k], energies[k + 1], base, startNumber, endNumber)
    }

    /** The items of the first n bins, in the order the generator yields them. */
    function Jobs(dirs: map<string, string>, listing: string -> set<string>, base: int, n: nat): seq<Job>
      requires n < |energies| && HasFolders(dirs)
    {
      if n == 0 then [] else Jobs(dirs, listing, base, n - 1) + Bin(dirs, listing, base, n - 1)
    }

    /** What the first n bins give: their items, or the TypeError raised at
        the first run when an ID is missing. */
    function Partial(dirs: map<string, string>, listing: string -> set<string>, n: nat): Result<seq<Job>>
      requires n < |energies| && HasFolders(dirs)
    {
      match Base()
      case None => if n > 0 && startNumber < endNumber then Err(TypeError) else Ok([])
      case Some(base) => Ok(Jobs(dirs, listing, base, n))
    }

    /** What the inner loop over one bin gives. */
    function BinOutcome(dirs: map<string, string>, listing: string -> set<string>, e1: Energy, e2: Energy): Result<seq<Job>>
      requires HasFolders(dirs)
    {
      match Base()
      case None => if startNumber < endNumber then Err(TypeError) else Ok([])
      case Some(base) => Ok(BinJobs(dirs, listing, e1, e2, base, startNumber, endNumber))
    }

    /** After bin n the generator has either the items of the first n + 1
        bins or the error that ends it. */
    lemma PartialStep(dirs: map<string, string>, listing: string -> set<string>, n: nat, jobs: seq<Job>)
      requires n + 1 < |energies| && HasFolders(dirs)
      requires Partial(dirs, listing, n) == Ok(jobs)
      ensures var bin := BinOutcome(dirs, listing, energies[n], energies[n + 1]);
              (bin.Ok? ==> Partial(dirs, listing, n + 1) == Ok(jobs + bin.value)) &&
              (bin.Err? ==> Partial(dirs, listing, |energies| - 1) == bin)
    {
      match Base()
      case None =>
        assert jobs == [] && jobs + [] == jobs;
      case Some(base) =>
        assert Jobs(dirs, listing, base, n + 1) == Jobs(dirs, listing, base, n) + Bin(dirs, listing, base, n);
    }

    /** What the whole generator gives. */
    function Outcome(dirs: map<string, string>, listing: string -> set<string>): Result<seq<Job>>
      requires |energies| >= 2 ==> HasFolders(dirs)
    {
      if |energies| < 2 then Ok([]) else Partial(dirs, listing, |energies| - 1)
    }

    /** The inner loop of `generator()` over the run indices of one bin:
        compose the run number (raising when an ID is missing), skip the
        run if its output exists, otherwise request its card and yield its
        item. */
    method BinLoop(listing: string -> set<string>, e1: Energy, e2: Energy) returns (r: Result<seq<Job>>)
      requires HasFolders(fW.directories)
      ensures r == BinOutcome(fW.directories, listing, e1, e2)
    {
      var bin := [];
      var runIndex := startNumber;
      while runIndex < endNumber
        invariant startNumber <= runIndex <= if startNumber <= endNumber then endNumber else startNumber
        invariant Base().Some? ==> bin == BinJobs(fW.directories, listing, e1, e2, Base().value, startNumber, runIndex)
        invariant Base().None? ==> runIndex == startNumber && bin == []
        decreases endNumber - runIndex
      {
        var turn := RunTurn(listing, e1, e2, runIndex);
        if turn.Err? {
          return Err(turn.error);
        }
        bin := bin + turn.value;
        runIndex := runIndex + 1;
      }
      BinOutcomeEnd(fW.directories, listing, e1, e2, runIndex, bin);
      r := Ok(bin);
    }

    /** One turn of the inner loop: compose the run number (raising when an
        ID is missing), then yield nothing if the run is done and its item
        otherwise. */
    method RunTurn(listing: string -> set<string>, e1: Energy, e2: Energy, runIndex: int) returns (r: Result<seq<Job>>)
      requires HasFolders(fW.directories)
      ensures Base().None? ==> r == Err(TypeError)
      ensures Base().Some? ==>
                r.Ok? &&
                r.value == if Done(fW.directories, listing, e1, RunNumberOf(Base().value, runIndex)) then []
                           else [JobOf(fW.directories, e1, e2, Base().value, runIndex)]
    {
      var particleID := GetPrimaryID(primaryParticle);
      var zenithID := GetZenithID(zenith);
      var azimuthID := GetAzimuthID(azimuth);
      var runNumber := RunNumber(particleID, zenithID, azimuthID, runIndex);
      BaseMeaning(runIndex);
      if runNumber.Err? {
        return Err(runNumber.error);
      }
      if Done(fW.directories, listing, e1, runNumber.value) {
        return Ok([]);
      }
      var key := KeyOf(e1, runNumber.value);
      var script := MakeStringToSubmit(fW.directories, e1, runNumber.value);
      r := Ok([Job(key, script.path, e1, e2, runIndex, runNumber.value)]);
    }

    lemma BinOutcomeEnd(dirs: map<string, string>, listing: string -> set<string>, e1: Energy, e2: Energy, runIndex: int, bin: seq<Job>)
      requires HasFolders(dirs)
      requires runIndex == if startNumber <= endNumber then endNumber else startNumber
      requires Base().Some? ==> bin == BinJobs(dirs, listing, e1, e2, Base().value, startNumber, runIndex)
      requires Base().None? ==> runIndex == startNumber && bin == []
      ensures Ok(bin) == BinOutcome(dirs, listing, e1, e2)
    {
    }

    /** `generator()`: for every consecutive pair of energies, `makeFolders`
        and then walk the run indices of the bin. */
    method Generator(listing: string -> set<string>) returns (r: Result<seq<Job>>)
      requires fW.Valid()
      modifies fW
      ensures fW.Valid()
      ensures fW.directories == if |energies| >= 2 then WithFolders(old(fW.directories)) else old(fW.directories)
      ensures r == Outcome(fW.directories, listing)
    {
      var jobs := [];
      ghost var folders := WithFolders(fW.directories);
      WithFoldersIdempotent(fW.directories);
      var i := 0;
      while i + 1 < |energies|
        invariant fW.Valid()
        invariant i == 0 || i < |energies|
        invariant fW.directories == if i == 0 then old(fW.directories) else folders
        invariant i < |energies| ==> Partial(folders, listing, i) == Ok(jobs)
        invariant i >= |energies| ==> jobs == []
        decreases |energies| - i
      {
        var bin := BinTurn(listing, i);
        PartialStep(folders, listing, i, jobs);
        if bin.Err? {
          return bin;
        }
        jobs := jobs + bin.value;
        i := i + 1;
      }
      r := Ok(jobs);
    }

    /** One turn of the outer loop of `generator()`: `makeFolders` for
        energies[i], then the inner loop over the bin's run indices. */
    method BinTurn(listing: string -> set<string>, i: nat) returns (r: Result<seq<Job>>)
      requires fW.Valid() && i + 1 < |energies|
      modifies fW
      ensures fW.Valid() && fW.directories == WithFolders(old(fW.directories))
      ensures r == BinOutcome(fW.directories, listing, energies[i], energies[i + 1])
    {
      fW.MakeFolders(energies[i]);
      r := BinLoop(listing, energies[i], energies[i + 1]);
    }

    /** The keys of all yielded items are pairwise different, and each
        carries the label of one of the bins walked so far. */
    lemma JobKeysDistinct(dirs: map<string, string>, listing: string -> set<string>, base: int, n: nat)
      requires n < |energies| && HasFolders(dirs) && GoodLabels(energies)
      ensures UniqueBy(Jobs(dirs, listing, base, n), JobKey)
      ensures LabelledBy(Jobs(dirs, listing, base, n), JobKey, set k | 0 <= k < n :: energies[k].name)
    {
      var bins := Bins(dirs, listing, base, n);
      var names := Names(n);
      JobsConcat(dirs, listing, base, n);
      forall k | 0 <= k < n
        ensures UniqueBy(bins[k], JobKey) && LabelledBy(bins[k], JobKey, {names[k]})
      {
        NamesAt(n, k);
        BinKeys(dirs, listing, base, k);
      }
      NamesDistinct(n);
      ConcatUnique(bins, JobKey, names);
    }

    /** The keys of one bin are distinct and carry that bin's energy label. */
    lemma BinKeys(dirs: map<string, string>, listing: string -> set<string>, base: int, k: nat)
      requires k + 1 < |energies| && HasFolders(dirs) && GoodLabels(energies)
      ensures UniqueBy(Bin(dirs, listing, base, k), JobKey)
      ensures LabelledBy(Bin(dirs, listing, base, k), JobKey, {energies[k].name})
    {
      BinKeysDistinct(dirs, listing, energies[k], energies[k + 1], base, startNumber, endNumber);
      BinKeysLabelled(dirs, listing, energies[k], energies[k + 1], base, startNumber, endNumber);
    }

    /** The items of bins 0 .. n - 1, one sequence per bin. */
    ghost function Bins(dirs: map<string, string>, listing: string -> set<string>, base: int, n: nat): (bins: seq<seq<Job>>)
      requires n < |energies| && HasFolders(dirs)
      ensures |bins| == n
    {
      if n == 0 then [] else Bins(dirs, listing, base, n - 1) + [Bin(dirs, listing, base, n - 1)]
    }

    /** `Jobs` is the concatenation of the bins, and bin k is `Bin(k)`. */
    lemma {:induction false} JobsConcat(dirs: map<string, string>, listing: string -> set<string>, base: int, n: nat)
      requires n < |energies| && HasFolders(dirs)
      ensures Jobs(dirs, listing, base, n) == Concat(Bins(dirs, listing, base, n))
      ensures forall k :: 0 <= k < n ==> Bins(dirs, listing, base, n)[k] == Bin(dirs, listing, base, k)
    {
      if n > 0 {
        JobsConcat(dirs, listing, base, n - 1);
        var bins := Bins(dirs, listing, base, n);
        assert bins[..n - 1] == Bins(dirs, listing, base, n - 1);
        assert Concat(bins) == Concat(Bins(dirs, listing, base, n - 1)) + Bin(dirs, listing, base, n - 1);
        forall k | 0 <= k < n ensures bins[k] == Bin(dirs, listing, base, k) {
          if k < n - 1 {
            assert bins[k] == Bins(dirs, listing, base, n - 1)[k];
          }
        }
      }
    }

    /** The energy labels of bins 0 .. n - 1. */
    function Names(n: nat): (names: seq<string>)
      requires n <= |energies|
      ensures |names| == n
    {
      if n == 0 then [] else Names(n - 1) + [energies[n - 1].name]
    }

    /** On distinct labels, the labels of bins 0 .. n - 1 are distinct and
        are those of energies[0 .. n - 1]. */
    lemma NamesDistinct(n: nat)
      requires n < |energies| && GoodLabels(energies)
      ensures forall k, l :: 0 <= k < l < n ==> Names(n)[k] != Names(n)[l]
      ensures (set k | 0 <= k < n :: Names(n)[k]) == (set k | 0 <= k < n :: energies[k].name)
    {
      forall k | 0 <= k < n ensures Names(n)[k] == energies[k].name {
        NamesAt(n, k);
      }
    }

    lemma {:induction false} NamesAt(n: nat, k: nat)
      requires k < n <= |energies|
      ensures Names(n)[k] == energies[k].name
    {
      if k < n - 1 {
        NamesAt(n - 1, k);
      }
    }

    /** With a proton or iron primary no item is ever yielded: the first
        run of the first bin raises TypeError. */
    lemma ProductionPrimaryFails(dirs: map<string, string>, listing: string -> set<string>, primary: int)
      requires |energies| >= 2 ==> HasFolders(dirs)
      requires primary in PrimaryTable && primaryParticle == primary as real
      ensures Outcome(dirs, listing) == if |energies| >= 2 && startNumber < endNumber then Err(TypeError) else Ok([])
    {
      PrimaryIDReadsZenithTable();
    }
  }
}
