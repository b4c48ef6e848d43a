/** MakeDetectorResponse.py: the detector-response production.  Its own
    `ProcessRunner` turns the CORSIKA files of each energy folder into work
    items that also carry the folder's file count and the file's position,
    and its `run_processes` runs the enabled simulation stages of one item
    one after the other, each output feeding the next stage.

    The Submitter it drives is built on `generatorFake`, so every process
    it starts is started explicitly by `executeFile`.  The stage scripts
    come from methods of the detector simulator that are not part of this
    model; what they return is a parameter (`Sim`). */
module DetectorResponse {
  import opened Wrappers
  import opened Strings
  import opened Sorting
  import Pool
  import Submitter
  import Dicts
  import PR = ProcessRunner

  // ---------------------------------------------------------------------
  // generatorFake

  /** `generatorFake()`: a single `(None, None)`. */
  const FakeItems: seq<Pool.Item<string>> := [Pool.Item(None, None)]

  /** Pulling from the fake generator never admits anything: the pool and
      the list of started processes stay as they are. */
  lemma FakeNeverAdmits(s: Pool.State<string>)
    requires Pool.Valid(s, FakeItems)
    ensures Pool.AdmittedKeys(FakeItems) == []
    ensures var r := Pool.Attempt(s, FakeItems, None, None);
      r.running == s.running && r.started == s.started
  {
    assert FakeItems[..0] == [];
  }

  /** Priming a Submitter built on the fake generator leaves it empty. */
  lemma {:induction false} FakePrimeEmpty(n: int)
    ensures var r := Pool.Prime(Pool.Init(), FakeItems, n);
      r.running == Pool.Init<string>().running && r.started == []
    decreases n
  {
    if n > 0 {
      FakePrimeEmpty(n - 1);
      FakeNeverAdmits(Pool.Prime(Pool.Init(), FakeItems, n - 1));
    }
  }

  // ---------------------------------------------------------------------
  // generatorKeys

  /** `[energy, inDir + corsikaFile, runname, nproc, procnum, runID]`. */
  datatype DetArgs = DetArgs(energy: string, corsikaFile: string, runname: string, nproc: int, procnum: int, runID: int)

  /** The item a hit yields: `nproc` is the length of the whole sorted list
      and `procnum` the hit's 1-based position in it. */
  function DetItem(energy: string, inDir: string, nproc: int, h: PR.Hit): PR.Entry<DetArgs>
  {
    var runname := PR.RunName(h.file);
    PR.Entry(PR.ItemKey(energy, runname), DetArgs(energy, inDir + h.file, runname, nproc, h.index + 1, h.runID))
  }

  /** The items of one energy folder. */
  function DetItems(energy: string, inDir: string, nproc: int, hits: seq<PR.Hit>): (items: seq<PR.Entry<DetArgs>>)
    ensures |items| == |hits|
    decreases |hits|
  {
    if hits == [] then []
    else DetItems(energy, inDir, nproc, hits[..|hits| - 1]) + [DetItem(energy, inDir, nproc, hits[|hits| - 1])]
  }

  lemma DetItemsSnoc(energy: string, inDir: string, nproc: int, hits: seq<PR.Hit>, h: PR.Hit)
    ensures DetItems(energy, inDir, nproc, hits + [h]) == DetItems(energy, inDir, nproc, hits) + [DetItem(energy, inDir, nproc, h)]
  {
    assert (hits + [h])[..|hits|] == hits;
  }

  lemma {:induction false} DetItemAt(energy: string, inDir: string, nproc: int, hits: seq<PR.Hit>, k: nat)
    requires k < |hits|
    ensures DetItems(energy, inDir, nproc, hits)[k] == DetItem(energy, inDir, nproc, hits[k])
    decreases |hits|
  {
    if k < |hits| - 1 {
      DetItemAt(energy, inDir, nproc, hits[..|hits| - 1], k);
    }
  }

  /** What the inner loop yields for a sorted file list. */
  function DetFolderYield(energy: string, inDir: string, files: seq<string>): PR.Yield<DetArgs>
  {
    var sc := PR.Scan(files, PR.Kinds(files), |files|);
    PR.Yield(DetItems(energy, inDir, |files|, sc.hits), PR.ScanError(files, sc))
  }

  /** What the inner loop yields for one energy folder. */
  ghost function DetBinYield(listing: string -> seq<string>, inDirectory: string, energy: string): PR.Yield<DetArgs>
  {
    DetFolderYield(energy, PR.InDir(inDirectory, energy), PR.FileList(listing, inDirectory, energy))
  }

  /** What the inner loop yields for each energy folder, in order. */
  ghost function DetBins(listing: string -> seq<string>, inDirectory: string, energies: seq<string>): (bins: seq<PR.Yield<DetArgs>>)
    ensures |bins| == |energies|
    decreases |energies|
  {
    if energies == [] then []
    else DetBins(listing, inDirectory, energies[..|energies| - 1]) + [DetBinYield(listing, inDirectory, energies[|energies| - 1])]
  }

  lemma {:induction false} DetBinAt(listing: string -> seq<string>, inDirectory: string, energies: seq<string>, i: nat)
    requires i < |energies|
    ensures DetBins(listing, inDirectory, energies)[i] == DetBinYield(listing, inDirectory, energies[i])
    decreases |energies|
  {
    if i < |energies| - 1 {
      DetBinAt(listing, inDirectory, energies[..|energies| - 1], i);
    }
  }

  /** `generatorKeys()`, run to its end. */
  ghost function DetKeys(listing: string -> seq<string>, inDirectory: string, energies: seq<string>): PR.Yield<DetArgs>
  {
    PR.Gather(DetBins(listing, inDirectory, energies), |energies|)
  }

  /** Every item of a folder knows how many files the folder lists, `.bz2`
      files included, and its own 1-based position among them: file
      `procnum - 1` of the sorted listing is the item's file. */
  lemma ProcNumPosition(listing: string -> seq<string>, inDirectory: string, energy: string)
    ensures var bin := DetBinYield(listing, inDirectory, energy);
      var files := PR.FileList(listing, inDirectory, energy);
      var inDir := PR.InDir(inDirectory, energy);
      forall k :: 0 <= k < |bin.items| ==>
        var a := bin.items[k].args;
        a.nproc == |listing(inDir)| == |files| && 1 <= a.procnum <= a.nproc &&
        a.corsikaFile == inDir + files[a.procnum - 1] && PR.Wanted(files[a.procnum - 1]) &&
        a.energy == energy && bin.items[k].key == PR.ItemKey(energy, a.runname)
  {
    var files := PR.FileList(listing, inDirectory, energy);
    var inDir := PR.InDir(inDirectory, energy);
    PR.FileListSorted(listing, inDirectory, energy);
    assert |files| == |multiset(files)| == |multiset(listing(inDir))| == |listing(inDir)|;
    var sc := PR.Scan(files, PR.Kinds(files), |files|);
    PR.ScanMeaning(files, PR.Kinds(files), |files|);
    var bin := DetBinYield(listing, inDirectory, energy);
    forall k | 0 <= k < |bin.items|
      ensures var a := bin.items[k].args;
        a.nproc == |files| && 1 <= a.procnum <= a.nproc &&
        a.corsikaFile == inDir + files[a.procnum - 1] && PR.Wanted(files[a.procnum - 1]) &&
        a.energy == energy && bin.items[k].key == PR.ItemKey(energy, a.runname)
    {
      DetItemAt(energy, inDir, |files|, sc.hits, k);
      PR.KindAt(files, sc.hits[k].index);
    }
  }

  /** An item of this generator without the two extra arguments. */
  function Strip(x: PR.Entry<DetArgs>): PR.Entry<PR.KeyArgs>
  {
    PR.Entry(x.key, PR.KeyArgs(x.args.energy, x.args.corsikaFile, x.args.runname, x.args.runID))
  }

  function StripAll(items: seq<PR.Entry<DetArgs>>): (r: seq<PR.Entry<PR.KeyArgs>>)
    ensures |r| == |items| && forall k :: 0 <= k < |items| ==> r[k] == Strip(items[k])
  {
    seq(|items|, k requires 0 <= k < |items| => Strip(items[k]))
  }

  function StripYield(y: PR.Yield<DetArgs>): PR.Yield<PR.KeyArgs>
  {
    PR.Yield(StripAll(y.items), y.error)
  }

  /** Stripped, the items of a folder are those of the other generator. */
  lemma {:induction false} DetItemsStrip(energy: string, inDir: string, nproc: int, hits: seq<PR.Hit>)
    ensures StripAll(DetItems(energy, inDir, nproc, hits)) == PR.BinItems(energy, inDir, hits)
    decreases |hits|
  {
    if hits != [] {
      DetItemsStrip(energy, inDir, nproc, hits[..|hits| - 1]);
      var prev := DetItems(energy, inDir, nproc, hits[..|hits| - 1]);
      var last := DetItem(energy, inDir, nproc, hits[|hits| - 1]);
      assert StripAll(prev + [last]) == StripAll(prev) + [Strip(last)];
    }
  }

  /** Stripping commutes with gathering the folders. */
  lemma {:induction false} GatherStrip(bins: seq<PR.Yield<DetArgs>>, other: seq<PR.Yield<PR.KeyArgs>>, n: nat)
    requires n <= |bins| == |other|
    requires forall i :: 0 <= i < |bins| ==> StripYield(bins[i]) == other[i]
    ensures StripYield(PR.Gather(bins, n)) == PR.Gather(other, n)
  {
    if n > 0 {
      GatherStrip(bins, other, n - 1);
      var prev := PR.Gather(bins, n - 1);
      if prev.error.None? {
        assert StripAll(prev.items + bins[n - 1].items) == StripAll(prev.items) + StripAll(bins[n - 1].items);
        assert StripYield(bins[n - 1]) == other[n - 1];
      }
    }
  }

  /** This generator yields, in order, the keys, paths, run names and run
      ids of the generator of utils/ProcessRunner.py, and stops with the
      same exception; it only adds `nproc` and `procnum`. */
  lemma SameItemsAsProcessRunner(listing: string -> seq<string>, inDirectory: string, energies: seq<string>)
    ensures StripYield(DetKeys(listing, inDirectory, energies)) == PR.Keys(listing, inDirectory, energies)
  {
    var bins := DetBins(listing, inDirectory, energies);
    var other := PR.Bins(listing, inDirectory, energies);
    forall i | 0 <= i < |bins| ensures StripYield(bins[i]) == other[i] {
      DetBinAt(listing, inDirectory, energies, i);
      PR.BinAt(listing, inDirectory, energies, i);
      var e := energies[i];
      var files := PR.FileList(listing, inDirectory, e);
      DetItemsStrip(e, PR.InDir(inDirectory, e), |files|, PR.Scan(files, PR.Kinds(files), |files|).hits);
    }
    GatherStrip(bins, other, |energies|);
  }

  /** The inner loop of `generatorKeys` over one sorted file list. */
  method DetFolderLoop(energy: string, inDir: string, fileList: seq<string>) returns (items: seq<PR.Entry<DetArgs>>, error: Option<PyError>)
    ensures PR.Yield(items, error) == DetFolderYield(energy, inDir, fileList)
  {
    var nproc := |fileList|;
    items := [];
    for index := 0 to |fileList|
      invariant PR.Scan(fileList, PR.Kinds(fileList), index).failed.None?
      invariant items == DetItems(energy, inDir, nproc, PR.Scan(fileList, PR.Kinds(fileList), index).hits)
    {
      items, error := DetFolderTurn(energy, inDir, fileList, index, items);
      if error.Some? {
        return;
      }
    }
    error := None;
  }

  /** One pass of the inner loop: skip a `.bz2` file, stop on a name
      without a run number, or yield the file's item. */
  method DetFolderTurn(energy: string, inDir: string, fileList: seq<string>, index: nat, items: seq<PR.Entry<DetArgs>>)
    returns (items': seq<PR.Entry<DetArgs>>, error: Option<PyError>)
    requires index < |fileList| && PR.Scan(fileList, PR.Kinds(fileList), index).failed.None?
    requires items == DetItems(energy, inDir, |fileList|, PR.Scan(fileList, PR.Kinds(fileList), index).hits)
    ensures error.None? ==>
      PR.Scan(fileList, PR.Kinds(fileList), index + 1).failed.None? &&
      items' == DetItems(energy, inDir, |fileList|, PR.Scan(fileList, PR.Kinds(fileList), index + 1).hits)
    ensures error.Some? ==> PR.Yield(items', error) == DetFolderYield(energy, inDir, fileList)
  {
    ghost var kinds := PR.Kinds(fileList);
    var corsikaFile := fileList[index];
    PR.KindAt(fileList, index);
    PR.ScanStep(fileList, kinds, index);
    items' := items;
    error := None;
    if PR.Wanted(corsikaFile) {
      var runID := PR.RunID(corsikaFile);
      if runID.None? {
        error := Some(ValueError(PR.RunIDText(corsikaFile)));
        PR.ScanStops(fileList, kinds, index + 1, |fileList|);
        return;
      }
      var runname := PR.RunName(corsikaFile);
      var procnum := index + 1;
      DetItemsSnoc(energy, inDir, |fileList|, PR.Scan(fileList, kinds, index).hits, PR.Hit(index, corsikaFile, runID.value));
      items' := items + [PR.Entry(PR.ItemKey(energy, runname), DetArgs(energy, inDir + corsikaFile, runname, |fileList|, procnum, runID.value))];
    }
  }

  /** One pass of the outer loop: list, sort and scan one energy folder. */
  method DetFolder(listing: string -> seq<string>, inDirectory: string, energy: string) returns (items: seq<PR.Entry<DetArgs>>, error: Option<PyError>)
    ensures PR.Yield(items, error) == DetBinYield(listing, inDirectory, energy)
  {
    var inDir := PR.InDir(inDirectory, energy);
    var fileList := Sort(listing(inDir));
    items, error := DetFolderLoop(energy, inDir, fileList);
  }

  // ---------------------------------------------------------------------
  // run_processes: the stage chain

  /** The stages `run_processes` can run, in the order it runs them. */
  datatype Stage = ITSG | CorsikaBg | Polyplopia | Clsim | Detector | Lv1 | Lv2 | Lv3

  /** The suffix of the key a stage's script runs under. */
  function StageName(st: Stage): string
  {
    match st
    case ITSG => "ITSG"
    case CorsikaBg => "CorsikaBg"
    case Polyplopia => "polyplopia"
    case Clsim => "clsim"
    case Detector => "detector"
    case Lv1 => "lv1"
    case Lv2 => "lv2"
    case Lv3 => "lv3"
  }

  /** `f"{energy}_{runname}_{stage}"`. */
  function StageKey(energy: string, runname: string, st: Stage): string
  {
    energy + "_" + runname + "_" + StageName(st)
  }

  /** The switches of `extraOptions`; `lv2` and `lv3` are what
      `extraOptions.get("lv2")` and `.get("lv3")` return. */
  datatype Options = Options(doITSG: bool, doInIceBg: bool, doCLSIM: bool, doDET: bool,
                             doLV1: bool, doLV2: bool, doLV3: bool,
                             lv2: Option<string>, lv3: Option<string>)

  /** A call of a stage method of the detector simulator, with the
      arguments `run_processes` passes. */
  datatype Call =
    | ITSGCall(energy: string, runname: string, inputFile: string, nproc: int, procnum: int, runID: int)
    | CorsikaBgCall(energy: string, runname: string, nproc: int, procnum: int, samples: int)
    | PolyplopiaCall(energy: string, runname: string, inputFile: string, backgroundFile: string,
                     mcTreeName: string, outputMCTreeName: string, mctype: string,
                     timeWindow: int, logLevel: string, polyOptions: string)
    | ClsimCall(energy: string, runname: string, inputFile: string, nproc: int, procnum: int,
                oversize: int, efficiency: real, icemodel: string)
    | DetectorCall(energy: string, runname: string, inputFile: string, nproc: int, procnum: int, runID: int,
                   doFiltering: bool, mcprescale: int, mctype: string, returnName: bool)
    | Lv1Call(energy: string, runname: string, detFile: string)
    | Lv2Call(energy: string, runname: string, lv1File: string, lv2Options: Option<string>, returnName: bool)
    | Lv3Call(energy: string, runname: string, lv2File: string, runID: int, lv3Options: Option<string>, domeff: real)

  /** A call made with `return_name=True`: it only asks for a file name. */
  predicate IsNameCall(c: Call)
  {
    (c.DetectorCall? && c.returnName) || (c.Lv2Call? && c.returnName)
  }

  function StageOf(c: Call): Stage
  {
    match c
    case ITSGCall(_, _, _, _, _, _) => ITSG
    case CorsikaBgCall(_, _, _, _, _) => CorsikaBg
    case PolyplopiaCall(_, _, _, _, _, _, _, _, _, _) => Polyplopia
    case ClsimCall(_, _, _, _, _, _, _, _) => Clsim
    case DetectorCall(_, _, _, _, _, _, _, _, _, _) => Detector
    case Lv1Call(_, _, _) => Lv1
    case Lv2Call(_, _, _, _, _) => Lv2
    case Lv3Call(_, _, _, _, _, _) => Lv3
  }

  /** What a stage method returns: the script to run, if it wrote one, and
      the file the stage produces. */
  datatype Out = Out(exeFile: Option<string>, file: string)

  /** The detector simulator's stage methods: `run` for an ordinary call,
      `name` for a `return_name=True` call. */
  datatype Sim = Sim(run: Call -> Out, name: Call -> string)

  /** A script handed to `executeFile`. */
  datatype Exec = Exec(stage: Stage, key: string, exeFile: string)

  /** The local state of `run_processes`: `inputFile` and `LV1File` (None
      while unassigned), the stage calls made and the scripts run so far,
      and the exception raised, if any. */
  datatype Progress = Progress(inputFile: Option<string>, lv1File: Option<string>,
                               calls: seq<Call>, execs: seq<Exec>, error: Option<PyError>)

  const Start := Progress(None, None, [], [], None)

  /** Make call `c`; if it returns a script, execute it under the stage's
      key. */
  function Record(p: Progress, c: Call, sim: Sim, a: DetArgs): Progress
  {
    var out := sim.run(c);
    var run := if !IsNameCall(c) && out.exeFile.Some?
      then [Exec(StageOf(c), StageKey(a.energy, a.runname, StageOf(c)), out.exeFile.value)]
      else [];
    p.(calls := p.calls + [c], execs := p.execs + run)
  }

  function StepITSG(p: Progress, a: DetArgs, o: Options, sim: Sim): Progress
  {
    if p.error.Some? || !o.doITSG then p
    else
      var c := ITSGCall(a.energy, a.runname, a.corsikaFile, a.nproc, a.procnum, a.runID);
      Record(p, c, sim, a).(inputFile := Some(sim.run(c).file))
  }

  /** The background shower is made before `inputFile` is read. */
  function StepInIceBg(p: Progress, a: DetArgs, o: Options, sim: Sim): Progress
  {
    if p.error.Some? || !o.doInIceBg then p
    else
      var bg := CorsikaBgCall(a.energy, a.runname, a.nproc, a.procnum, 100);
      var p1 := Record(p, bg, sim, a);
      if p.inputFile.None? then p1.(error := Some(UnboundLocal("inputFile")))
      else
        var c := PolyplopiaCall(a.energy, a.runname, p.inputFile.value, sim.run(bg).file,
                                "I3MCTree", "I3MCTree", "corsika", 40, "INFO", "");
        Record(p1, c, sim, a).(inputFile := Some(sim.run(c).file))
  }

  function StepClsim(p: Progress, a: DetArgs, o: Options, sim: Sim): Progress
  {
    if p.error.Some? || !o.doCLSIM then p
    else if p.inputFile.None? then p.(error := Some(UnboundLocal("inputFile")))
    else
      var c := ClsimCall(a.energy, a.runname, p.inputFile.value, a.nproc, a.procnum, 5, 1.0, "spice_3.2.1");
      Record(p, c, sim, a).(inputFile := Some(sim.run(c).file))
  }

  function StepDetector(p: Progress, a: DetArgs, o: Options, doFiltering: bool, sim: Sim): Progress
  {
    if p.error.Some? || !o.doDET then p
    else if p.inputFile.None? then p.(error := Some(UnboundLocal("inputFile")))
    else
      Record(p, DetectorCall(a.energy, a.runname, p.inputFile.value, a.nproc, a.procnum, a.runID,
                             doFiltering, 1, "CORSIKA", false), sim, a)
  }

  /** Level 1 asks the detector stage for its file name, not for its file. */
  function StepLv1(p: Progress, a: DetArgs, o: Options, doFiltering: bool, sim: Sim): Progress
  {
    if p.error.Some? || !o.doLV1 then p
    else
      var d := DetectorCall(a.energy, a.runname, "", a.nproc, a.procnum, a.runID, doFiltering, 1, "CORSIKA", true);
      var c := Lv1Call(a.energy, a.runname, sim.name(d));
      Record(Record(p, d, sim, a), c, sim, a).(lv1File := Some(sim.run(c).file))
  }

  function StepLv2(p: Progress, a: DetArgs, o: Options, sim: Sim): Progress
  {
    if p.error.Some? || !o.doLV2 then p
    else if p.lv1File.None? then p.(error := Some(UnboundLocal("LV1File")))
    else Record(p, Lv2Call(a.energy, a.runname, p.lv1File.value, o.lv2, false), sim, a)
  }

  /** Level 3 asks the level 2 stage for its file name. */
  function StepLv3(p: Progress, a: DetArgs, o: Options, sim: Sim): Progress
  {
    if p.error.Some? || !o.doLV3 then p
    else
      var n := Lv2Call(a.energy, a.runname, "", o.lv2, true);
      var c := Lv3Call(a.energy, a.runname, sim.name(n), a.runID, o.lv3, 1.0);
      Record(Record(p, n, sim, a), c, sim, a)
  }

  /** The stages up to the detector stage. */
  function Front(a: DetArgs, o: Options, doFiltering: bool, sim: Sim): Progress
  {
    StepDetector(StepClsim(StepInIceBg(StepITSG(Start, a, o, sim), a, o, sim), a, o, sim), a, o, doFiltering, sim)
  }

  /** `run_processes` for one item, as the chain of its stages. */
  function Chain(a: DetArgs, o: Options, doFiltering: bool, sim: Sim): Progress
  {
    StepLv3(StepLv2(StepLv1(Front(a, o, doFiltering, sim), a, o, doFiltering, sim), a, o, sim), a, o, sim)
  }

  // ---------------------------------------------------------------------
  // the reference reading of the chain

  /** Which local a call's file goes into. */
  datatype Flow = Shower | Level1

  predicate Produces(c: Call, flow: Flow)
  {
    match flow
    case Shower => c.ITSGCall? || c.PolyplopiaCall? || c.ClsimCall?
    case Level1 => c.Lv1Call?
  }

  /** The file of the last call that produced into `flow`, if any. */
  function LastOut(calls: seq<Call>, sim: Sim, flow: Flow): Option<string>
    decreases |calls|
  {
    if calls == [] then None
    else if Produces(calls[|calls| - 1], flow) then Some(sim.run(calls[|calls| - 1]).file)
    else LastOut(calls[..|calls| - 1], sim, flow)
  }

  /** Call `c`, made after `prev`, reads what it should: the shower input
      is the file of the last shower-producing stage, polyplopia's
      background is the file of the background call just before it,
      level 1 reads the name the detector stage gave just before it,
      level 2 the file of the last level 1 stage and level 3 the name the
      level 2 stage gave just before it. */
  predicate Fed(prev: seq<Call>, c: Call, sim: Sim)
  {
    match c
    case PolyplopiaCall(_, _, input, background, _, _, _, _, _, _) =>
      LastOut(prev, sim, Shower) == Some(input) &&
      |prev| > 0 && prev[|prev| - 1].CorsikaBgCall? && background == sim.run(prev[|prev| - 1]).file
    case ClsimCall(_, _, input, _, _, _, _, _) =>
      LastOut(prev, sim, Shower) == Some(input)
    case DetectorCall(_, _, input, _, _, _, _, _, _, returnName) =>
      returnName || LastOut(prev, sim, Shower) == Some(input)
    case Lv1Call(_, _, detFile) =>
      |prev| > 0 && prev[|prev| - 1].DetectorCall? && prev[|prev| - 1].returnName &&
      detFile == sim.name(prev[|prev| - 1])
    case Lv2Call(_, _, lv1File, _, returnName) =>
      returnName || LastOut(prev, sim, Level1) == Some(lv1File)
    case Lv3Call(_, _, lv2File, _, _, _) =>
      |prev| > 0 && prev[|prev| - 1].Lv2Call? && prev[|prev| - 1].returnName &&
      lv2File == sim.name(prev[|prev| - 1])
    case _ => true
  }

  /** Every call is fed right by the calls before it. */
  predicate Chained(calls: seq<Call>, sim: Sim)
    decreases |calls|
  {
    calls == [] ||
    (Chained(calls[..|calls| - 1], sim) && Fed(calls[..|calls| - 1], calls[|calls| - 1], sim))
  }

  /** `Chained` read position by position. */
  lemma {:induction false} ChainedAt(calls: seq<Call>, sim: Sim, k: nat)
    requires Chained(calls, sim) && k < |calls|
    ensures Fed(calls[..k], calls[k], sim)
    decreases |calls|
  {
    if k < |calls| - 1 {
      var prefix := calls[..|calls| - 1];
      ChainedAt(prefix, sim, k);
      assert prefix[..k] == calls[..k];
    }
  }

  /** The scripts a sequence of calls runs: one per ordinary call that
      returned a script, in call order, under the call's stage key. */
  function ExecsOf(calls: seq<Call>, sim: Sim, energy: string, runname: string): seq<Exec>
    decreases |calls|
  {
    if calls == [] then []
    else
      var c := calls[|calls| - 1];
      var out := sim.run(c);
      ExecsOf(calls[..|calls| - 1], sim, energy, runname) +
      (if !IsNameCall(c) && out.exeFile.Some? then [Exec(StageOf(c), StageKey(energy, runname, StageOf(c)), out.exeFile.value)] else [])
  }

  /** The stages of the ordinary calls, in call order. */
  function Stages(calls: seq<Call>): seq<Stage>
    decreases |calls|
  {
    if calls == [] then []
    else Stages(calls[..|calls| - 1]) + (if IsNameCall(calls[|calls| - 1]) then [] else [StageOf(calls[|calls| - 1])])
  }

  /** The stages up to the detector stage that the switches enable, in the
      order of `run_processes`. */
  function FrontStages(o: Options): seq<Stage>
  {
    (if o.doITSG then [ITSG] else []) + (if o.doInIceBg then [CorsikaBg, Polyplopia] else []) +
    (if o.doCLSIM then [Clsim] else []) + (if o.doDET then [Detector] else [])
  }

  /** All the stages the switches enable, in order. */
  function EnabledStages(o: Options): seq<Stage>
  {
    FrontStages(o) + (if o.doLV1 then [Lv1] else []) + (if o.doLV2 then [Lv2] else []) + (if o.doLV3 then [Lv3] else [])
  }

  /** The locals agree with the calls made. */
  predicate Good(p: Progress, sim: Sim, a: DetArgs)
  {
    p.execs == ExecsOf(p.calls, sim, a.energy, a.runname) && Chained(p.calls, sim) &&
    p.inputFile == LastOut(p.calls, sim, Shower) && p.lv1File == LastOut(p.calls, sim, Level1)
  }

  /** Recording a call that is fed right keeps the calls chained and the
      scripts in step with the calls. */
  lemma RecordGood(p: Progress, c: Call, sim: Sim, a: DetArgs)
    requires p.execs == ExecsOf(p.calls, sim, a.energy, a.runname) && Chained(p.calls, sim)
    requires Fed(p.calls, c, sim)
    ensures var q := Record(p, c, sim, a);
      q.execs == ExecsOf(q.calls, sim, a.energy, a.runname) && Chained(q.calls, sim) &&
      Stages(q.calls) == Stages(p.calls) + (if IsNameCall(c) then [] else [StageOf(c)]) &&
      LastOut(q.calls, sim, Shower) == (if Produces(c, Shower) then Some(sim.run(c).file) else LastOut(p.calls, sim, Shower)) &&
      LastOut(q.calls, sim, Level1) == (if Produces(c, Level1) then Some(sim.run(c).file) else LastOut(p.calls, sim, Level1))
  {
    var calls := p.calls + [c];
    assert calls[..|calls| - 1] == p.calls;
  }

  lemma ITSGStep(p: Progress, a: DetArgs, o: Options, sim: Sim)
    requires p.error.None? && Good(p, sim, a)
    ensures var q := StepITSG(p, a, o, sim);
      Good(q, sim, a) && q.error.None? && q.lv1File == p.lv1File &&
      Stages(q.calls) == Stages(p.calls) + (if o.doITSG then [ITSG] else []) &&
      q.inputFile.Some? == (o.doITSG || p.inputFile.Some?)
  {
    if o.doITSG {
      RecordGood(p, ITSGCall(a.energy, a.runname, a.corsikaFile, a.nproc, a.procnum, a.runID), sim, a);
    }
  }

  lemma InIceBgStep(p: Progress, a: DetArgs, o: Options, sim: Sim)
    requires p.error.None? && Good(p, sim, a)
    ensures var q := StepInIceBg(p, a, o, sim);
      Good(q, sim, a) && q.lv1File == p.lv1File &&
      q.error == (if o.doInIceBg && p.inputFile.None? then Some(UnboundLocal("inputFile")) else None) &&
      Stages(q.calls) == Stages(p.calls) +
        (if !o.doInIceBg then [] else if p.inputFile.None? then [CorsikaBg] else [CorsikaBg, Polyplopia]) &&
      q.inputFile.Some? == p.inputFile.Some?
  {
    if o.doInIceBg {
      var bg := CorsikaBgCall(a.energy, a.runname, a.nproc, a.procnum, 100);
      RecordGood(p, bg, sim, a);
      var p1 := Record(p, bg, sim, a);
      if p.inputFile.Some? {
        var c := PolyplopiaCall(a.energy, a.runname, p.inputFile.value, sim.run(bg).file,
                                "I3MCTree", "I3MCTree", "corsika", 40, "INFO", "");
        assert p1.calls[|p1.calls| - 1] == bg;
        RecordGood(p1, c, sim, a);
        assert Stages(p.calls) + [CorsikaBg] + [Polyplopia] == Stages(p.calls) + [CorsikaBg, Polyplopia];
      }
    }
  }

  lemma ClsimStep(p: Progress, a: DetArgs, o: Options, sim: Sim)
    requires p.error.None? && Good(p, sim, a)
    ensures var q := StepClsim(p, a, o, sim);
      Good(q, sim, a) && q.lv1File == p.lv1File &&
      q.error == (if o.doCLSIM && p.inputFile.None? then Some(UnboundLocal("inputFile")) else None) &&
      Stages(q.calls) == Stages(p.calls) + (if o.doCLSIM && p.inputFile.Some? then [Clsim] else []) &&
      q.inputFile.Some? == p.inputFile.Some?
  {
    if o.doCLSIM && p.inputFile.Some? {
      RecordGood(p, ClsimCall(a.energy, a.runname, p.inputFile.value, a.nproc, a.procnum, 5, 1.0, "spice_3.2.1"), sim, a);
    }
  }

  lemma DetectorStep(p: Progress, a: DetArgs, o: Options, doFiltering: bool, sim: Sim)
    requires p.error.None? && Good(p, sim, a)
    ensures var q := StepDetector(p, a, o, doFiltering, sim);
      Good(q, sim, a) && q.lv1File == p.lv1File &&
      q.error == (if o.doDET && p.inputFile.None? then Some(UnboundLocal("inputFile")) else None) &&
      Stages(q.calls) == Stages(p.calls) + (if o.doDET && p.inputFile.Some? then [Detector] else [])
  {
    if o.doDET && p.inputFile.Some? {
      RecordGood(p, DetectorCall(a.energy, a.runname, p.inputFile.value, a.nproc, a.procnum, a.runID,
                                 doFiltering, 1, "CORSIKA", false), sim, a);
    }
  }

  lemma Lv1Step(p: Progress, a: DetArgs, o: Options, doFiltering: bool, sim: Sim)
    requires p.error.None? && Good(p, sim, a)
    ensures var q := StepLv1(p, a, o, doFiltering, sim);
      Good(q, sim, a) && q.error.None? &&
      Stages(q.calls) == Stages(p.calls) + (if o.doLV1 then [Lv1] else []) &&
      q.lv1File.Some? == (o.doLV1 || p.lv1File.Some?)
  {
    if o.doLV1 {
      var d := DetectorCall(a.energy, a.runname, "", a.nproc, a.procnum, a.runID, doFiltering, 1, "CORSIKA", true);
      RecordGood(p, d, sim, a);
      var p1 := Record(p, d, sim, a);
      assert p1.calls[|p1.calls| - 1] == d;
      RecordGood(p1, Lv1Call(a.energy, a.runname, sim.name(d)), sim, a);
    }
  }

  lemma Lv2Step(p: Progress, a: DetArgs, o: Options, sim: Sim)
    requires p.error.None? && Good(p, sim, a)
    ensures var q := StepLv2(p, a, o, sim);
      Good(q, sim, a) &&
      q.error == (if o.doLV2 && p.lv1File.None? then Some(UnboundLocal("LV1File")) else None) &&
      Stages(q.calls) == Stages(p.calls) + (if o.doLV2 && p.lv1File.Some? then [Lv2] else [])
  {
    if o.doLV2 && p.lv1File.Some? {
      RecordGood(p, Lv2Call(a.energy, a.runname, p.lv1File.value, o.lv2, false), sim, a);
    }
  }

  lemma Lv3Step(p: Progress, a: DetArgs, o: Options, sim: Sim)
    requires p.error.None? && Good(p, sim, a)
    ensures var q := StepLv3(p, a, o, sim);
      Good(q, sim, a) && q.error.None? &&
      Stages(q.calls) == Stages(p.calls) + (if o.doLV3 then [Lv3] else [])
  {
    if o.doLV3 {
      var n := Lv2Call(a.energy, a.runname, "", o.lv2, true);
      RecordGood(p, n, sim, a);
      var p1 := Record(p, n, sim, a);
      assert p1.calls[|p1.calls| - 1] == n;
      RecordGood(p1, Lv3Call(a.energy, a.runname, sim.name(n), a.runID, o.lv3, 1.0), sim, a);
    }
  }

  /** The stages up to the detector stage raise `UnboundLocalError` for
      `inputFile` exactly when one of them reads it without the shower
      generator; the background shower has then already run. */
  lemma FrontMeaning(a: DetArgs, o: Options, doFiltering: bool, sim: Sim)
    ensures var p := Front(a, o, doFiltering, sim);
      Good(p, sim, a) && p.lv1File.None? &&
      p.error == (if !o.doITSG && (o.doInIceBg || o.doCLSIM || o.doDET) then Some(UnboundLocal("inputFile")) else None) &&
      Stages(p.calls) == (if p.error.None? then FrontStages(o) else if o.doInIceBg then [CorsikaBg] else [])
  {
    var stages1 := if o.doITSG then [ITSG] else [];
    var stages2 := stages1 + (if o.doInIceBg then [CorsikaBg, Polyplopia] else []);
    var stages3 := stages2 + (if o.doCLSIM then [Clsim] else []);
    assert Stages(Start.calls) == [];
    var p1 := StepITSG(Start, a, o, sim);
    ITSGStep(Start, a, o, sim);
    assert Stages(p1.calls) == stages1;
    var p2 := StepInIceBg(p1, a, o, sim);
    InIceBgStep(p1, a, o, sim);
    if p2.error.Some? {
      return;
    }
    assert Stages(p2.calls) == stages2;
    var p3 := StepClsim(p2, a, o, sim);
    ClsimStep(p2, a, o, sim);
    if p3.error.Some? {
      return;
    }
    assert Stages(p3.calls) == stages3;
    DetectorStep(p3, a, o, doFiltering, sim);
  }

  /** The level stages after a front that raised nothing. */
  lemma BackMeaning(p: Progress, a: DetArgs, o: Options, doFiltering: bool, sim: Sim)
    requires p.error.None? && p.lv1File.None? && Good(p, sim, a)
    ensures var q := StepLv3(StepLv2(StepLv1(p, a, o, doFiltering, sim), a, o, sim), a, o, sim);
      Good(q, sim, a) &&
      q.error == (if o.doLV2 && !o.doLV1 then Some(UnboundLocal("LV1File")) else None) &&
      Stages(q.calls) == if q.error.None?
        then Stages(p.calls) + (if o.doLV1 then [Lv1] else []) + (if o.doLV2 then [Lv2] else []) + (if o.doLV3 then [Lv3] else [])
        else Stages(p.calls)
  {
    var p5 := StepLv1(p, a, o, doFiltering, sim);
    Lv1Step(p, a, o, doFiltering, sim);
    var p6 := StepLv2(p5, a, o, sim);
    Lv2Step(p5, a, o, sim);
    if p6.error.Some? {
      assert Stages(p.calls) + [] == Stages(p.calls);
      return;
    }
    Lv3Step(p6, a, o, sim);
  }

  /** What `run_processes` does with one item.  It raises
      `UnboundLocalError` for `inputFile` exactly when a stage that reads it
      is enabled without the shower generator (the background shower has
      then already run), and for `LV1File` exactly when level 2 is enabled
      without level 1 (every earlier stage has then run); otherwise it runs
      every enabled stage, in order.  Whatever happens, each call reads what
      the stage before it wrote and the scripts run are exactly those the
      ordinary calls returned. */
  lemma ChainMeaning(a: DetArgs, o: Options, doFiltering: bool, sim: Sim)
    ensures var p := Chain(a, o, doFiltering, sim);
      Good(p, sim, a) &&
      p.error == (if !o.doITSG && (o.doInIceBg || o.doCLSIM || o.doDET) then Some(UnboundLocal("inputFile"))
                  else if o.doLV2 && !o.doLV1 then Some(UnboundLocal("LV1File"))
                  else None) &&
      (p.error.None? ==> Stages(p.calls) == EnabledStages(o)) &&
      (p.error == Some(UnboundLocal("inputFile")) ==> Stages(p.calls) == if o.doInIceBg then [CorsikaBg] else []) &&
      (p.error == Some(UnboundLocal("LV1File")) ==> Stages(p.calls) == FrontStages(o))
  {
    var p4 := Front(a, o, doFiltering, sim);
    FrontMeaning(a, o, doFiltering, sim);
    if p4.error.None? {
      BackMeaning(p4, a, o, doFiltering, sim);
    }
  }

  // ---------------------------------------------------------------------
  // executeFile on the fake generator

  /** The pool after `executeFile` has run each script in turn; `cap` is
      what `communicate()` returns for each key. */
  function ExecuteAll(s: Pool.State<string>, items: seq<Pool.Item<string>>, execs: seq<Exec>, cap: string -> Submitter.Captured): (r: Pool.State<string>)
    requires Pool.Valid(s, items)
    ensures Pool.Valid(r, items)
    decreases |execs|
  {
    if execs == [] then s
    else
      var e := execs[|execs| - 1];
      PR.Execute(ExecuteAll(s, items, execs[..|execs| - 1], cap), items, e.key, e.exeFile, cap(e.key))
  }

  function ExecKeys(execs: seq<Exec>): (keys: seq<string>)
    ensures |keys| == |execs| && forall i :: 0 <= i < |execs| ==> keys[i] == execs[i].key
  {
    seq(|execs|, i requires 0 <= i < |execs| => execs[i].key)
  }

  /** On the fake generator, `executeFile` starts exactly its own script
      and, once the script has delivered its output, leaves nothing of it
      in the pool. */
  lemma FakeExecute(s: Pool.State<string>, key: string, exeFile: string, c: Submitter.Captured)
    requires Pool.Valid(s, FakeItems)
    ensures var r := PR.Execute(s, FakeItems, key, exeFile, c);
      r.started == s.started + [key] &&
      r.running.entries == if Submitter.Delivers(c) then s.running.entries - {key} else s.running.entries[key := exeFile]
  {
    var admitted := Pool.Attempt(s, FakeItems, Some(key), Some(exeFile));
    if Submitter.Delivers(c) {
      FakeNeverAdmits(admitted.(running := Dicts.Pop(admitted.running, key)));
      assert admitted.running.entries - {key} == s.running.entries - {key};
    }
  }

  function KeySet(execs: seq<Exec>): set<string>
  {
    set k | k in ExecKeys(execs)
  }

  lemma ExecKeysSnoc(execs: seq<Exec>, e: Exec)
    ensures ExecKeys(execs + [e]) == ExecKeys(execs) + [e.key]
    ensures KeySet(execs + [e]) == KeySet(execs) + {e.key}
  {
    assert ExecKeys(execs + [e]) == ExecKeys(execs) + [e.key];
  }

  lemma ExecuteAllSnoc(s: Pool.State<string>, items: seq<Pool.Item<string>>, execs: seq<Exec>, e: Exec, cap: string -> Submitter.Captured)
    requires Pool.Valid(s, items)
    ensures ExecuteAll(s, items, execs + [e], cap) == PR.Execute(ExecuteAll(s, items, execs, cap), items, e.key, e.exeFile, cap(e.key))
  {
    assert (execs + [e])[..|execs|] == execs;
  }

  /** Running a sequence of scripts through `executeFile` on the fake
      generator starts them, in order, and nothing else. */
  lemma {:induction false} FakeStartsOnlyExecs(s: Pool.State<string>, execs: seq<Exec>, cap: string -> Submitter.Captured)
    requires Pool.Valid(s, FakeItems)
    ensures ExecuteAll(s, FakeItems, execs, cap).started == s.started + ExecKeys(execs)
    decreases |execs|
  {
    if execs != [] {
      var prefix := execs[..|execs| - 1];
      var e := execs[|execs| - 1];
      var mid := ExecuteAll(s, FakeItems, prefix, cap);
      FakeStartsOnlyExecs(s, prefix, cap);
      FakeExecute(mid, e.key, e.exeFile, cap(e.key));
      assert ExecuteAll(s, FakeItems, execs, cap).started == mid.started + [e.key];
      assert execs == prefix + [e];
      ExecKeysSnoc(prefix, e);
      assert s.started + ExecKeys(prefix) + [e.key] == s.started + (ExecKeys(prefix) + [e.key]);
    }
  }

  /** When every script has delivered its output, `executeFile` has waited
      for each: the pool has lost every one of their keys and holds
      nothing new. */
  lemma {:induction false} FakeDrains(s: Pool.State<string>, execs: seq<Exec>, cap: string -> Submitter.Captured)
    requires Pool.Valid(s, FakeItems)
    requires forall i :: 0 <= i < |execs| ==> Submitter.Delivers(cap(execs[i].key))
    ensures ExecuteAll(s, FakeItems, execs, cap).running.entries == s.running.entries - KeySet(execs)
    decreases |execs|
  {
    if execs != [] {
      var prefix := execs[..|execs| - 1];
      var e := execs[|execs| - 1];
      assert forall i :: 0 <= i < |prefix| ==> prefix[i] == execs[i];
      FakeDrains(s, prefix, cap);
      ExecuteAllSnoc(s, FakeItems, prefix, e, cap);
      assert execs == prefix + [e];
      FakeExecute(ExecuteAll(s, FakeItems, prefix, cap), e.key, e.exeFile, cap(e.key));
      ExecKeysSnoc(prefix, e);
      MinusTwice(s.running.entries, KeySet(prefix), e.key);
    }
  }

  lemma MinusTwice(m: map<string, string>, keys: set<string>, k: string)
    ensures (m - keys) - {k} == m - (keys + {k})
  {
    assert forall x :: x in (m - keys) - {k} <==> x in m - (keys + {k});
  }

  // ---------------------------------------------------------------------
  // the class

  class ProcessRunner {
    const submitter: Submitter.Submitter
    const energies: seq<string>
    const inDirectory: string
    const doFiltering: bool
    /** The switches of `extraOptions`. */
    const options: Options

    constructor(submitter: Submitter.Submitter, energies: seq<string>, inDirectory: string, doFiltering: bool, options: Options)
      ensures this.submitter == submitter && this.energies == energies && this.inDirectory == inDirectory
      ensures this.doFiltering == doFiltering && this.options == options
    {
      this.submitter := submitter;
      this.energies := energies;
      this.inDirectory := inDirectory;
      this.doFiltering := doFiltering;
      this.options := options;
    }

    /** `generatorKeys()`, run to its end: the items it yields, in order,
        and the exception it stops with. */
    method GeneratorKeys(listing: string -> seq<string>) returns (items: seq<PR.Entry<DetArgs>>, error: Option<PyError>)
      ensures PR.Yield(items, error) == DetKeys(listing, inDirectory, energies)
    {
      items := [];
      for e := 0 to |energies|
        invariant PR.Gather(DetBins(listing, inDirectory, energies), e) == PR.Yield(items, None)
      {
        var binError;
        items, binError := KeysTurn(listing, e, items);
        if binError.Some? {
          error := binError;
          return;
        }
      }
      error := None;
    }

    /** One pass of the outer loop of `generatorKeys`. */
    method KeysTurn(listing: string -> seq<string>, e: nat, items: seq<PR.Entry<DetArgs>>)
      returns (items': seq<PR.Entry<DetArgs>>, binError: Option<PyError>)
      requires e < |energies| && PR.Gather(DetBins(listing, inDirectory, energies), e) == PR.Yield(items, None)
      ensures binError.None? ==> PR.Gather(DetBins(listing, inDirectory, energies), e + 1) == PR.Yield(items', None)
      ensures binError.Some? ==> DetKeys(listing, inDirectory, energies) == PR.Yield(items', binError)
    {
      var binItems;
      binItems, binError := DetFolder(listing, inDirectory, energies[e]);
      DetBinAt(listing, inDirectory, energies, e);
      PR.GatherStep(DetBins(listing, inDirectory, energies), e);
      items' := items + binItems;
      if binError.Some? {
        PR.GatherStops(DetBins(listing, inDirectory, energies), e + 1, |energies|);
      }
    }

    /** `executeFile(key, exeFile)`: start the script under `key`, then
        communicate with that key. */
    method ExecuteFile(key: string, exeFile: string, c: Submitter.Captured)
      requires submitter.Valid()
      modifies submitter
      ensures submitter.Valid()
      ensures submitter.PoolState() == PR.Execute(old(submitter.PoolState()), submitter.items, key, exeFile, c)
    {
      submitter.StartSingleProcess(Some(key), Some(exeFile));
      var _ := submitter.CommunicateSingleProcess(key, c);
    }

    /** The pool is what running the scripts of `p` from `s0` gives. */
    ghost predicate Synced(s0: Pool.State<string>, p: Progress, cap: string -> Submitter.Captured)
      reads this, submitter
    {
      submitter.Valid() && Pool.Valid(s0, submitter.items) &&
      submitter.PoolState() == ExecuteAll(s0, submitter.items, p.execs, cap)
    }

    /** An ordinary stage call, and `executeFile` on its script if it
        returned one. */
    method Run(ghost s0: Pool.State<string>, ghost p: Progress, c: Call, a: DetArgs, sim: Sim, cap: string -> Submitter.Captured)
      returns (ghost q: Progress, out: Out)
      requires !IsNameCall(c) && Synced(s0, p, cap)
      modifies submitter
      ensures out == sim.run(c) && q == Record(p, c, sim, a) && Synced(s0, q, cap)
    {
      out := sim.run(c);
      q := Record(p, c, sim, a);
      if out.exeFile.Some? {
        var key := StageKey(a.energy, a.runname, StageOf(c));
        ghost var e := Exec(StageOf(c), key, out.exeFile.value);
        assert q.execs == p.execs + [e];
        ExecuteAllSnoc(s0, submitter.items, p.execs, e, cap);
        ExecuteFile(key, out.exeFile.value, cap(key));
      } else {
        assert q.execs == p.execs;
      }
    }

    /** The shower-generator block. */
    method ITSGBlock(ghost s0: Pool.State<string>, ghost p: Progress, inputFile: Option<string>, a: DetArgs, sim: Sim, cap: string -> Submitter.Captured)
      returns (ghost q: Progress, inputFile': Option<string>)
      requires p.error.None? && inputFile == p.inputFile && Synced(s0, p, cap)
      modifies submitter
      ensures q == StepITSG(p, a, options, sim) && inputFile' == q.inputFile
      ensures Synced(s0, q, cap)
    {
      q, inputFile' := p, inputFile;
      if options.doITSG {
        var out;
        q, out := Run(s0, q, ITSGCall(a.energy, a.runname, a.corsikaFile, a.nproc, a.procnum, a.runID), a, sim, cap);
        inputFile' := Some(out.file);
        q := q.(inputFile := inputFile');
      }
    }

    /** The in-ice background block: the background shower, then
        polyplopia on `inputFile`. */
    method InIceBgBlock(ghost s0: Pool.State<string>, ghost p: Progress, inputFile: Option<string>, a: DetArgs, sim: Sim, cap: string -> Submitter.Captured)
      returns (ghost q: Progress, inputFile': Option<string>, error: Option<PyError>)
      requires p.error.None? && inputFile == p.inputFile && Synced(s0, p, cap)
      modifies submitter
      ensures q == StepInIceBg(p, a, options, sim) && inputFile' == q.inputFile && error == q.error
      ensures Synced(s0, q, cap)
    {
      q, inputFile', error := p, inputFile, None;
      if options.doInIceBg {
        var bgOut;
        q, bgOut := Run(s0, q, CorsikaBgCall(a.energy, a.runname, a.nproc, a.procnum, 100), a, sim, cap);
        var corsikaBgFile := bgOut.file;
        if inputFile.None? {
          error := Some(UnboundLocal("inputFile"));
          q := q.(error := error);
          return;
        }
        var out;
        q, out := Run(s0, q, PolyplopiaCall(a.energy, a.runname, inputFile.value, corsikaBgFile,
                                            "I3MCTree", "I3MCTree", "corsika", 40, "INFO", ""), a, sim, cap);
        inputFile' := Some(out.file);
        q := q.(inputFile := inputFile');
      }
    }

    /** The photon-propagation block. */
    method ClsimBlock(ghost s0: Pool.State<string>, ghost p: Progress, inputFile: Option<string>, a: DetArgs, sim: Sim, cap: string -> Submitter.Captured)
      returns (ghost q: Progress, inputFile': Option<string>, error: Option<PyError>)
      requires p.error.None? && inputFile == p.inputFile && Synced(s0, p, cap)
      modifies submitter
      ensures q == StepClsim(p, a, options, sim) && inputFile' == q.inputFile && error == q.error
      ensures Synced(s0, q, cap)
    {
      q, inputFile', error := p, inputFile, None;
      if options.doCLSIM {
        if inputFile.None? {
          error := Some(UnboundLocal("inputFile"));
          q := q.(error := error);
          return;
        }
        var out;
        q, out := Run(s0, q, ClsimCall(a.energy, a.runname, inputFile.value, a.nproc, a.procnum, 5, 1.0, "spice_3.2.1"), a, sim, cap);
        inputFile' := Some(out.file);
        q := q.(inputFile := inputFile');
      }
    }

    /** The detector block. */
    method DetectorBlock(ghost s0: Pool.State<string>, ghost p: Progress, inputFile: Option<string>, a: DetArgs, sim: Sim, cap: string -> Submitter.Captured)
      returns (ghost q: Progress, error: Option<PyError>)
      requires p.error.None? && inputFile == p.inputFile && Synced(s0, p, cap)
      modifies submitter
      ensures q == StepDetector(p, a, options, doFiltering, sim) && error == q.error
      ensures Synced(s0, q, cap)
    {
      q, error := p, None;
      if options.doDET {
        if inputFile.None? {
          error := Some(UnboundLocal("inputFile"));
          q := q.(error := error);
          return;
        }
        var out;
        q, out := Run(s0, q, DetectorCall(a.energy, a.runname, inputFile.value, a.nproc, a.procnum, a.runID,
                                          doFiltering, 1, "CORSIKA", false), a, sim, cap);
      }
    }

    /** The level 1 block: ask the detector stage for its file name, then
        run level 1 on it. */
    method Lv1Block(ghost s0: Pool.State<string>, ghost p: Progress, lv1File: Option<string>, a: DetArgs, sim: Sim, cap: string -> Submitter.Captured)
      returns (ghost q: Progress, lv1File': Option<string>)
      requires p.error.None? && lv1File == p.lv1File && Synced(s0, p, cap)
      modifies submitter
      ensures q == StepLv1(p, a, options, doFiltering, sim) && lv1File' == q.lv1File
      ensures Synced(s0, q, cap)
    {
      q, lv1File' := p, lv1File;
      if options.doLV1 {
        var d := DetectorCall(a.energy, a.runname, "", a.nproc, a.procnum, a.runID, doFiltering, 1, "CORSIKA", true);
        var detFile := sim.name(d);
        q := Record(q, d, sim, a);
        assert q.execs == p.execs;
        var out;
        q, out := Run(s0, q, Lv1Call(a.energy, a.runname, detFile), a, sim, cap);
        lv1File' := Some(out.file);
        q := q.(lv1File := lv1File');
      }
    }

    /** The level 2 block. */
    method Lv2Block(ghost s0: Pool.State<string>, ghost p: Progress, lv1File: Option<string>, a: DetArgs, sim: Sim, cap: string -> Submitter.Captured)
      returns (ghost q: Progress, error: Option<PyError>)
      requires p.error.None? && lv1File == p.lv1File && Synced(s0, p, cap)
      modifies submitter
      ensures q == StepLv2(p, a, options, sim) && error == q.error
      ensures Synced(s0, q, cap)
    {
      q, error := p, None;
      if options.doLV2 {
        if lv1File.None? {
          error := Some(UnboundLocal("LV1File"));
          q := q.(error := error);
          return;
        }
        var out;
        q, out := Run(s0, q, Lv2Call(a.energy, a.runname, lv1File.value, options.lv2, false), a, sim, cap);
      }
    }

    /** The level 3 block: ask the level 2 stage for its file name, then
        run level 3 on it. */
    method Lv3Block(ghost s0: Pool.State<string>, ghost p: Progress, a: DetArgs, sim: Sim, cap: string -> Submitter.Captured)
      returns (ghost q: Progress)
      requires p.error.None? && Synced(s0, p, cap)
      modifies submitter
      ensures q == StepLv3(p, a, options, sim)
      ensures Synced(s0, q, cap)
    {
      q := p;
      if options.doLV3 {
        var n := Lv2Call(a.energy, a.runname, "", options.lv2, true);
        var lv2File := sim.name(n);
        q := Record(q, n, sim, a);
        assert q.execs == p.execs;
        var out;
        q, out := Run(s0, q, Lv3Call(a.energy, a.runname, lv2File, a.runID, options.lv3, 1.0), a, sim, cap);
      }
    }

    /** `run_processes(*keyArgs)`: the blocks in order, stopping at the
        first exception.  The pool ends as running the chain's scripts, in
        order, through `executeFile` leaves it; see `ChainMeaning` for what
        the chain is. */
    method RunProcesses(a: DetArgs, sim: Sim, cap: string -> Submitter.Captured) returns (error: Option<PyError>)
      requires submitter.Valid()
      modifies submitter
      ensures submitter.Valid()
      ensures var p := Chain(a, options, doFiltering, sim);
        error == p.error && submitter.PoolState() == ExecuteAll(old(submitter.PoolState()), submitter.items, p.execs, cap)
    {
      ghost var s0 := submitter.PoolState();
      ghost var p := Start;
      var inputFile: Option<string> := None;
      var lv1File: Option<string> := None;
      p, inputFile := ITSGBlock(s0, p, inputFile, a, sim, cap);
      p, inputFile, error := InIceBgBlock(s0, p, inputFile, a, sim, cap);
      if error.Some? {
        return;
      }
      p, inputFile, error := ClsimBlock(s0, p, inputFile, a, sim, cap);
      if error.Some? {
        return;
      }
      p, error := DetectorBlock(s0, p, inputFile, a, sim, cap);
      if error.Some? {
        return;
      }
      assert p == Front(a, options, doFiltering, sim);
      p, lv1File := Lv1Block(s0, p, lv1File, a, sim, cap);
      p, error := Lv2Block(s0, p, lv1File, a, sim, cap);
      if error.Some? {
        return;
      }
      p := Lv3Block(s0, p, a, sim, cap);
    }
  }
}
