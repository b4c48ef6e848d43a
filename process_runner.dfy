/** utils/ProcessRunner.py: turns the CORSIKA output files of each energy
    folder into work items for the process pool, and runs the detector
    simulation of one item through the Submitter.

    The directory listing (`os.listdir` filtered by `os.path.isfile`) is a
    parameter: `listing(dir)` is the list of plain files in `dir`, and
    which output files already exist is a predicate.  Energies are labels;
    the value `get_radius` reads is passed beside the label.  The filename parsing
    here is shared with MakeDetectorResponse.py, whose generator differs
    only in the arguments it yields. */
module ProcessRunner {
  import opened Wrappers
  import opened Strings
  import opened Sorting
  import Pool
  import Submitter
  import FileWriter
  import DS = DetectorSimulator

  /** Files ending in `.bz2` never become work items. */
  predicate Wanted(f: string) { !EndsWith(f, ".bz2") }

  /** `runname = str(corsikaFile.partition("DAT")[-1])`: the text after the
      first "DAT", or "" when there is none. */
  function RunName(f: string): string
  {
    PartitionTail(f, "DAT")
  }

  /** The literal `int()` is given: the last five characters of the run name. */
  function RunIDText(f: string): (t: string)
    ensures |t| <= 5
  {
    LastN(RunName(f), 5)
  }

  /** `runID = int(corsikaFile.partition("DAT")[-1][-5:])`, with `int` as
      `Strings.ParseInt` reads it; `None` where that raises ValueError. */
  function RunID(f: string): Option<int>
  {
    ParseInt(RunIDText(f))
  }

  /** A CORSIKA output name gives its run name and the number in its last
      five digits. */
  lemma RunIDOfDatFile()
    ensures RunName("DAT400123") == "400123"
    ensures RunID("DAT400123") == Some(123)
  {
    var f := "DAT400123";
    assert OccursAt(f, "DAT", 0);
    assert RunName(f) == f[3..] == "400123";
    assert RunIDText(f) == "00123";
    assert DigitsValue("00123") == 123 by {
      assert "00123"[..4] == "0012" && "0012"[..3] == "001" && "001"[..2] == "00" && "00"[..1] == "0";
      assert "0"[..0] == [];
    }
    ParseDigits("00123");
  }

  /** `int` accepts an underscore between digits, so a name such as
      `DAT1_234` yields run id 1234 rather than stopping the generator. */
  lemma RunIDWithUnderscore()
    ensures RunID("DAT1_234") == Some(1234)
  {
    var f := "DAT1_234";
    assert OccursAt(f, "DAT", 0);
    assert RunName(f) == f[3..] == "1_234";
    assert RunIDText(f) == "1_234";
    ParseIntGrammar();
  }

  /** The run name is what follows the first "DAT" `str.find` finds; a
      file without "DAT" has an empty run name, and `int("")` raises. */
  lemma RunNameAfterFirstDat(f: string)
    ensures RunName(f) == match FindFrom(f, "DAT", 0) case Some(i) => f[i + 3..] case None => ""
    ensures FindFrom(f, "DAT", 0).None? ==> RunID(f) == None
  {
    assert f[0..] == f;
    PartitionTailFind(f, "DAT", 0);
  }

  /** What the inner loop of `generatorKeys` makes of one file name. */
  datatype Kind = Skipped | Unparsable | Parsed(runID: int)

  function Classify(f: string): (k: Kind)
    ensures k.Skipped? <==> !Wanted(f)
    ensures k.Unparsable? <==> Wanted(f) && RunID(f).None?
    ensures k.Parsed? ==> RunID(f) == Some(k.runID)
  {
    if !Wanted(f) then Skipped
    else match RunID(f)
      case None => Unparsable
      case Some(id) => Parsed(id)
  }

  /** The classification of each file of a list. */
  function Kinds(files: seq<string>): (kinds: seq<Kind>)
    ensures |kinds| == |files|
    decreases |files|
  {
    if files == [] then [] else Kinds(files[..|files| - 1]) + [Classify(files[|files| - 1])]
  }

  lemma {:induction false} KindAt(files: seq<string>, i: nat)
    requires i < |files|
    ensures Kinds(files)[i] == Classify(files[i])
    decreases |files|
  {
    if i < |files| - 1 {
      KindAt(files[..|files| - 1], i);
    }
  }

  /** One work item found by the scan of a sorted file list: its position,
      its file name, and its run id. */
  datatype Hit = Hit(index: nat, file: string, runID: int)

  /** The hits of the first n files, and the position of the file whose
      run id did not parse, if the scan stopped there. */
  datatype Scanned = Scanned(hits: seq<Hit>, failed: Option<nat>)

  /** The inner loop of `generatorKeys` over `files[..n]`, given the
      classification of each file: skip `.bz2` files, stop at the first
      name whose last five characters are not an integer. */
  function Scan(files: seq<string>, kinds: seq<Kind>, n: nat): (sc: Scanned)
    requires n <= |files| == |kinds|
    ensures sc.failed.Some? ==> sc.failed.value < n
  {
    if n == 0 then Scanned([], None)
    else
      var prev := Scan(files, kinds, n - 1);
      if prev.failed.Some? then prev
      else match kinds[n - 1]
        case Skipped => prev
        case Unparsable => prev.(failed := Some(n - 1))
        case Parsed(id) => prev.(hits := prev.hits + [Hit(n - 1, files[n - 1], id)])
  }

  function HitIndices(hits: seq<Hit>): (r: seq<nat>)
    ensures |r| == |hits| && forall k :: 0 <= k < |hits| ==> r[k] == hits[k].index
  {
    seq(|hits|, k requires 0 <= k < |hits| => hits[k].index)
  }

  /** Where a scan of n files stopped: at the failing file, or at n. */
  function Stop(sc: Scanned, n: nat): nat
  {
    if sc.failed.Some? then sc.failed.value else n
  }

  /** Each hit is a parsed file of the list, the hits follow the list
      order, and they are exactly the files before the stop that are not
      skipped; the scan stops only at an unparsable file. */
  lemma {:induction false} ScanMeaning(files: seq<string>, kinds: seq<Kind>, n: nat)
    requires n <= |files| == |kinds|
    ensures var sc := Scan(files, kinds, n);
      Stop(sc, n) <= n &&
      (forall k :: 0 <= k < |sc.hits| ==>
        var h := sc.hits[k];
        h.index < Stop(sc, n) && h.file == files[h.index] && kinds[h.index] == Parsed(h.runID)) &&
      (forall k, l :: 0 <= k < l < |sc.hits| ==> sc.hits[k].index < sc.hits[l].index) &&
      (sc.failed.Some? ==> sc.failed.value < n && kinds[sc.failed.value].Unparsable?) &&
      (forall i :: 0 <= i < Stop(sc, n) ==> (i in HitIndices(sc.hits) <==> !kinds[i].Skipped?) && !kinds[i].Unparsable?)
  {
    if n > 0 {
      ScanMeaning(files, kinds, n - 1);
      var prev := Scan(files, kinds, n - 1);
      var sc := Scan(files, kinds, n);
      if prev.failed.None? && kinds[n - 1].Parsed? {
        assert HitIndices(sc.hits) == HitIndices(prev.hits) + [n - 1];
      }
    }
  }

  /** Without a failure every file of the list is scanned: one hit per
      file that does not end in `.bz2`, each with the run id of its name. */
  lemma ScanComplete(files: seq<string>)
    requires Scan(files, Kinds(files), |files|).failed.None?
    ensures var hits := Scan(files, Kinds(files), |files|).hits;
      (forall i :: 0 <= i < |files| ==> (i in HitIndices(hits) <==> Wanted(files[i]))) &&
      (forall k :: 0 <= k < |hits| ==> RunID(hits[k].file) == Some(hits[k].runID))
  {
    ScanMeaning(files, Kinds(files), |files|);
    forall i | 0 <= i < |files| {
      KindAt(files, i);
    }
  }

  /** One pass of the outer loop of `generatorKeys`: list the folder of
      one energy, sort it and run the inner loop over it. */
  method Folder(listing: string -> seq<string>, inDirectory: string, energy: string) returns (items: seq<Entry<KeyArgs>>, error: Option<PyError>)
    ensures Yield(items, error) == BinYield(listing, inDirectory, energy)
  {
    var inDir := InDir(inDirectory, energy);
    var fileList := Sort(listing(inDir));
    FileListSorted(listing, inDirectory, energy);
    items, error := FolderLoop(energy, inDir, fileList);
  }

  /** The inner loop of `generatorKeys` over one sorted file list. */
  method FolderLoop(energy: string, inDir: string, fileList: seq<string>) returns (items: seq<Entry<KeyArgs>>, error: Option<PyError>)
    ensures Yield(items, error) == FolderYield(energy, inDir, fileList)
  {
    ghost var kinds := Kinds(fileList);
    items := [];
    for index := 0 to |fileList|
      invariant Scan(fileList, kinds, index).failed.None?
      invariant items == BinItems(energy, inDir, Scan(fileList, kinds, index).hits)
    {
      var corsikaFile := fileList[index];
      KindAt(fileList, index);
      ScanStep(fileList, kinds, index);
      if Wanted(corsikaFile) {
        var runID := RunID(corsikaFile);
        if runID.None? {
          error := Some(ValueError(RunIDText(corsikaFile)));
          ScanStops(fileList, kinds, index + 1, |fileList|);
          return;
        }
        var runname := RunName(corsikaFile);
        BinItemsSnoc(energy, inDir, Scan(fileList, kinds, index).hits, Hit(index, corsikaFile, runID.value));
        items := items + [Entry(ItemKey(energy, runname), KeyArgs(energy, inDir + corsikaFile, runname, runID.value))];
      }
    }
    error := None;
  }

  /** Once the scan has stopped, later files change nothing. */
  lemma {:induction false} ScanStops(files: seq<string>, kinds: seq<Kind>, n: nat, m: nat)
    requires n <= m <= |files| == |kinds| && Scan(files, kinds, n).failed.Some?
    ensures Scan(files, kinds, m) == Scan(files, kinds, n)
    decreases m
  {
    if m > n {
      ScanStops(files, kinds, n, m - 1);
    }
  }

  /** One more file extends a scan that has not failed by what its kind says. */
  lemma ScanStep(files: seq<string>, kinds: seq<Kind>, n: nat)
    requires n < |files| == |kinds| && Scan(files, kinds, n).failed.None?
    ensures var sc := Scan(files, kinds, n);
      Scan(files, kinds, n + 1) ==
        match kinds[n]
        case Skipped => sc
        case Unparsable => sc.(failed := Some(n))
        case Parsed(id) => sc.(hits := sc.hits + [Hit(n, files[n], id)])
  {
  }

  /** `[energy, inDir + corsikaFile, runname, runID]`. */
  datatype KeyArgs = KeyArgs(energy: string, corsikaFile: string, runname: string, runID: int)

  /** A key with its argument list. */
  datatype Entry<A> = Entry(key: string, args: A)

  /** What a generator yields before it stops, and the exception it stops
      with, if any. */
  datatype Yield<A> = Yield(items: seq<Entry<A>>, error: Option<PyError>)

  /** `f"{self.inDirectory}/{energy}/"`. */
  function InDir(inDirectory: string, energy: string): string
  {
    inDirectory + "/" + energy + "/"
  }

  /** `f"{energy}_{runname}"`. */
  function ItemKey(energy: string, runname: string): string
  {
    energy + "_" + runname
  }

  /** `sorted(os.listdir(...))` of the energy's folder: the ascending
      permutation of its listing, of which there is only one. */
  function FileList(listing: string -> seq<string>, inDirectory: string, energy: string): seq<string>
  {
    Sort(listing(InDir(inDirectory, energy)))
  }

  /** The sorted listing holds exactly the folder's files in ascending
      order, and any ascending list of those files is this one. */
  lemma FileListSorted(listing: string -> seq<string>, inDirectory: string, energy: string)
    ensures var files := FileList(listing, inDirectory, energy);
      Sorted(files) && multiset(files) == multiset(listing(InDir(inDirectory, energy)))
    ensures forall other :: Sorted(other) && multiset(other) == multiset(listing(InDir(inDirectory, energy))) ==>
      other == FileList(listing, inDirectory, energy)
  {
    var l := listing(InDir(inDirectory, energy));
    SortSorts(l);
    forall other | Sorted(other) && multiset(other) == multiset(l)
      ensures other == FileList(listing, inDirectory, energy)
    {
      SortedPermutationUnique(other, Sort(l));
    }
  }

  /** The exception the scan stopped with, if any. */
  function ScanError(files: seq<string>, sc: Scanned): Option<PyError>
  {
    match sc.failed
    case None => None
    case Some(i) => if i < |files| then Some(ValueError(RunIDText(files[i]))) else None
  }

  /** The item a hit yields: `({energy}_{runname}, (energy, path, runname, runID))`. */
  function HitItem(energy: string, inDir: string, h: Hit): Entry<KeyArgs>
  {
    var runname := RunName(h.file);
    Entry(ItemKey(energy, runname), KeyArgs(energy, inDir + h.file, runname, h.runID))
  }

  /** The items of one energy folder. */
  function BinItems(energy: string, inDir: string, hits: seq<Hit>): (items: seq<Entry<KeyArgs>>)
    ensures |items| == |hits|
    decreases |hits|
  {
    if hits == [] then [] else BinItems(energy, inDir, hits[..|hits| - 1]) + [HitItem(energy, inDir, hits[|hits| - 1])]
  }

  lemma BinItemsSnoc(energy: string, inDir: string, hits: seq<Hit>, h: Hit)
    ensures BinItems(energy, inDir, hits + [h]) == BinItems(energy, inDir, hits) + [HitItem(energy, inDir, h)]
  {
    assert (hits + [h])[..|hits|] == hits;
  }

  lemma {:induction false} BinItemAt(energy: string, inDir: string, hits: seq<Hit>, k: nat)
    requires k < |hits|
    ensures BinItems(energy, inDir, hits)[k] == HitItem(energy, inDir, hits[k])
    decreases |hits|
  {
    if k < |hits| - 1 {
      BinItemAt(energy, inDir, hits[..|hits| - 1], k);
    }
  }

  /** What the inner loop yields for a sorted file list. */
  function FolderYield(energy: string, inDir: string, files: seq<string>): Yield<KeyArgs>
  {
    var sc := Scan(files, Kinds(files), |files|);
    Yield(BinItems(energy, inDir, sc.hits), ScanError(files, sc))
  }

  /** What the inner loop yields for one energy folder. */
  ghost function BinYield(listing: string -> seq<string>, inDirectory: string, energy: string): Yield<KeyArgs>
  {
    FolderYield(energy, InDir(inDirectory, energy), FileList(listing, inDirectory, energy))
  }

  /** What the inner loop yields for each energy folder, in order. */
  ghost function Bins(listing: string -> seq<string>, inDirectory: string, energies: seq<string>): (bins: seq<Yield<KeyArgs>>)
    ensures |bins| == |energies|
    decreases |energies|
  {
    if energies == [] then []
    else Bins(listing, inDirectory, energies[..|energies| - 1]) + [BinYield(listing, inDirectory, energies[|energies| - 1])]
  }

  /** Bin i is what the folder of energy i yields. */
  lemma {:induction false} BinAt(listing: string -> seq<string>, inDirectory: string, energies: seq<string>, i: nat)
    requires i < |energies|
    ensures Bins(listing, inDirectory, energies)[i] == BinYield(listing, inDirectory, energies[i])
    decreases |energies|
  {
    if i < |energies| - 1 {
      BinAt(listing, inDirectory, energies[..|energies| - 1], i);
    }
  }

  /** The outer loop of a generator over the first n folders: the items
      of each folder in turn, until a folder raises. */
  function Gather<A>(bins: seq<Yield<A>>, n: nat): (y: Yield<A>)
    requires n <= |bins|
  {
    if n == 0 then Yield([], None)
    else
      var prev := Gather(bins, n - 1);
      if prev.error.Some? then prev
      else Yield(prev.items + bins[n - 1].items, bins[n - 1].error)
  }

  /** One more folder extends a gathering that has not raised. */
  lemma GatherStep<A>(bins: seq<Yield<A>>, n: nat)
    requires n < |bins| && Gather(bins, n).error.None?
    ensures Gather(bins, n + 1) == Yield(Gather(bins, n).items + bins[n].items, bins[n].error)
  {
  }

  /** Once a folder has raised, later folders add nothing. */
  lemma {:induction false} GatherStops<A>(bins: seq<Yield<A>>, n: nat, m: nat)
    requires n <= m <= |bins| && Gather(bins, n).error.Some?
    ensures Gather(bins, m) == Gather(bins, n)
    decreases m
  {
    if m > n {
      GatherStops(bins, n, m - 1);
    }
  }

  /** Without an exception the generator yields the items of all folders
      in folder order; with one, it raised in the first folder that
      raises, after the items of the folders before it and the items that
      folder yielded before raising. */
  lemma {:induction false} GatherMeaning<A>(bins: seq<Yield<A>>, n: nat)
    requires n <= |bins|
    ensures var y := Gather(bins, n);
      (y.error.None? <==> forall i :: 0 <= i < n ==> bins[i].error.None?) &&
      (y.error.None? ==> y.items == AllItems(bins, n)) &&
      (y.error.Some? ==> exists i :: (0 <= i < n && bins[i].error.Some? && y.error == bins[i].error &&
         (forall j :: 0 <= j < i ==> bins[j].error.None?) && y.items == AllItems(bins, i) + bins[i].items))
  {
    if n > 0 {
      GatherMeaning(bins, n - 1);
    }
  }

  /** The items of the first n folders, one folder after another. */
  function AllItems<A>(bins: seq<Yield<A>>, n: nat): seq<Entry<A>>
    requires n <= |bins|
  {
    if n == 0 then [] else AllItems(bins, n - 1) + bins[n - 1].items
  }

  /** `generatorKeys()`, run to its end. */
  ghost function Keys(listing: string -> seq<string>, inDirectory: string, energies: seq<string>): Yield<KeyArgs>
  {
    Gather(Bins(listing, inDirectory, energies), |energies|)
  }

  /** The item a file of an energy folder gives. */
  ghost predicate ItemOf(listing: string -> seq<string>, inDirectory: string, x: Entry<KeyArgs>, f: string)
  {
    var a := x.args;
    f in listing(InDir(inDirectory, a.energy)) && Wanted(f) &&
    a.corsikaFile == InDir(inDirectory, a.energy) + f && a.runname == RunName(f) && RunID(f) == Some(a.runID) &&
    x.key == ItemKey(a.energy, a.runname)
  }

  /** An item whose path is its folder followed by the file it comes from. */
  ghost predicate FromFolder(listing: string -> seq<string>, inDirectory: string, x: Entry<KeyArgs>)
  {
    var dir := InDir(inDirectory, x.args.energy);
    StartsWith(x.args.corsikaFile, dir) && ItemOf(listing, inDirectory, x, x.args.corsikaFile[|dir|..])
  }

  /** Every item of one folder comes from a wanted file of that folder. */
  lemma BinWellFormed(listing: string -> seq<string>, inDirectory: string, energy: string)
    ensures var bin := BinYield(listing, inDirectory, energy);
      forall k :: 0 <= k < |bin.items| ==> (bin.items[k].args.energy == energy &&
        FromFolder(listing, inDirectory, bin.items[k]))
  {
    var files := FileList(listing, inDirectory, energy);
    FileListSorted(listing, inDirectory, energy);
    var sc := Scan(files, Kinds(files), |files|);
    ScanMeaning(files, Kinds(files), |files|);
    var bin := BinYield(listing, inDirectory, energy);
    var inDir := InDir(inDirectory, energy);
    forall k | 0 <= k < |bin.items|
      ensures bin.items[k].args.energy == energy &&
        FromFolder(listing, inDirectory, bin.items[k])
    {
      var h := sc.hits[k];
      BinItemAt(energy, inDir, sc.hits, k);
      KindAt(files, h.index);
      assert (inDir + h.file)[|inDir|..] == h.file && (inDir + h.file)[..|inDir|] == inDir;
      assert h.file in multiset(files);
    }
  }

  /** A property every folder's items have, all items have. */
  lemma {:induction false} GatherKeeps<A>(bins: seq<Yield<A>>, n: nat, P: Entry<A> -> bool)
    requires n <= |bins|
    requires forall i, k :: 0 <= i < n && 0 <= k < |bins[i].items| ==> P(bins[i].items[k])
    ensures forall k :: 0 <= k < |Gather(bins, n).items| ==> P(Gather(bins, n).items[k])
  {
    if n > 0 {
      GatherKeeps(bins, n - 1, P);
      var prev := Gather(bins, n - 1);
      if prev.error.None? {
        var y := Gather(bins, n);
        forall k | 0 <= k < |y.items| ensures P(y.items[k]) {
          if k >= |prev.items| {
            assert y.items[k] == bins[n - 1].items[k - |prev.items|];
          } else {
            assert y.items[k] == prev.items[k];
          }
        }
      }
    }
  }

  /** Every item is keyed `{energy}_{runname}` by an energy of the list,
      and comes from a wanted file of that energy's folder. */
  lemma KeysWellFormed(listing: string -> seq<string>, inDirectory: string, energies: seq<string>)
    ensures var y := Keys(listing, inDirectory, energies);
      forall k :: 0 <= k < |y.items| ==>
        (y.items[k].args.energy in energies && FromFolder(listing, inDirectory, y.items[k]))
  {
    var bins := Bins(listing, inDirectory, energies);
    var P := (x: Entry<KeyArgs>) => x.args.energy in energies && FromFolder(listing, inDirectory, x);
    forall i, k | 0 <= i < |energies| && 0 <= k < |bins[i].items| ensures P(bins[i].items[k]) {
      BinAt(listing, inDirectory, energies, i);
      BinWellFormed(listing, inDirectory, energies[i]);
    }
    GatherKeeps(bins, |energies|, P);
  }

  /** An item that comes from a wanted file does not name a `.bz2` file:
      its path ends with the file name, after the folder's '/'. */
  lemma FromFolderNotBz2(listing: string -> seq<string>, inDirectory: string, x: Entry<KeyArgs>)
    requires FromFolder(listing, inDirectory, x)
    ensures !EndsWith(x.args.corsikaFile, ".bz2")
  {
    var p := x.args.corsikaFile;
    var dir := InDir(inDirectory, x.args.energy);
    var f := p[|dir|..];
    assert Wanted(f);
    if |f| >= 4 {
      assert p[|p| - 4..] == f[|f| - 4..];
    } else {
      assert p[|p| - |f| - 1] == dir[|dir| - 1] == '/';
    }
  }

  /** No `.bz2` file ever yields an item. */
  lemma Bz2NeverYields(listing: string -> seq<string>, inDirectory: string, energies: seq<string>)
    ensures var y := Keys(listing, inDirectory, energies);
      forall k :: 0 <= k < |y.items| ==> !EndsWith(y.items[k].args.corsikaFile, ".bz2")
  {
    KeysWellFormed(listing, inDirectory, energies);
    var items := Keys(listing, inDirectory, energies).items;
    forall k | 0 <= k < |items| ensures !EndsWith(items[k].args.corsikaFile, ".bz2") {
      FromFolderNotBz2(listing, inDirectory, items[k]);
    }
  }

  /** The generator's items as the pool's (key, descriptor) pairs. */
  function PoolItems<A>(items: seq<Entry<A>>): (r: seq<Pool.Item<A>>)
    ensures |r| == |items|
    ensures forall k :: 0 <= k < |r| ==> Pool.Admissible(r[k]) && r[k].key == Some(items[k].key)
  {
    seq(|items|, k requires 0 <= k < |items| => Pool.Item(Some(items[k].key), Some(items[k].args)))
  }

  /** What `startSingleProcess(key, exeFile)` followed by
      `communicateSingleProcess(key)` does to the pool: the key is admitted
      without touching the generator, then, once its output is delivered,
      dropped again with one admission attempt from the generator. */
  function Execute(s: Pool.State<string>, items: seq<Pool.Item<string>>, key: string, exeFile: string, c: Submitter.Captured): (r: Pool.State<string>)
    requires Pool.Valid(s, items)
    ensures Pool.Valid(r, items)
  {
    var admitted := Pool.Attempt(s, items, Some(key), Some(exeFile));
    if Submitter.Delivers(c) then Pool.Reap(admitted, items, key) else admitted
  }

  /** Once the generator is used up, executing a file leaves every other
      running process in place and removes any earlier process under the
      same key: the pool ends as it was, less the key. */
  lemma ExecuteExhausted(s: Pool.State<string>, items: seq<Pool.Item<string>>, key: string, exeFile: string, c: Submitter.Captured)
    requires Pool.Valid(s, items) && s.cursor == |items| && Submitter.Delivers(c)
    ensures Execute(s, items, key, exeFile, c).running.entries == s.running.entries - {key}
    ensures Execute(s, items, key, exeFile, c).started == s.started + [key]
  {
  }

  /** `f"{energy}_{runname}_ITEx"`: the key of the detector-simulation job. */
  function ITExKey(energy: string, runname: string): (key: string)
    ensures StartsWith(key, ItemKey(energy, runname)) && EndsWith(key, "_ITEx")
  {
    var key := ItemKey(energy, runname) + "_ITEx";
    assert key[..|ItemKey(energy, runname)|] == ItemKey(energy, runname);
    assert key[|key| - 5..] == "_ITEx";
    key
  }

  /** One item of the production: it raises exactly when its output is
      missing and the energy lies outside the decades `get_radius`
      knows, and its script runs exactly when the output is missing and
      the energy is known. */
  lemma RunProcessesOutcome(d: DS.DetectorSimulator, energy: string, logE: real, corsikaFile: string, runname: string, runID: int,
                            existing: string -> bool)
    ensures var run := DS.RunITEx(d, energy, logE, runname, corsikaFile, runID, "", existing);
      var missing := !existing(DS.ITExFile(DS.OutputFolder(d), energy, runname));
      (run.result.Err? <==> missing && !(4.0 <= logE < 10.0)) &&
      (run.result.Ok? && run.result.value.0.Some? <==> missing && 4.0 <= logE < 10.0)
  {
    DS.RadiusDomain(logE);
    if existing(DS.ITExFile(DS.OutputFolder(d), energy, runname)) {
      DS.ExistingSkips(d, energy, logE, runname, corsikaFile, runID, "", existing);
    } else {
      DS.MissingWrites(d, energy, logE, runname, corsikaFile, runID, "", existing);
    }
  }

  class ProcessRunner {
    const detectorSim: DS.DetectorSimulator
    const submitter: Submitter.Submitter
    const energies: seq<string>
    const inDirectory: string

    constructor(detectorSim: DS.DetectorSimulator, submitter: Submitter.Submitter, energies: seq<string>, inDirectory: string)
      ensures this.detectorSim == detectorSim && this.submitter == submitter
      ensures this.energies == energies && this.inDirectory == inDirectory
    {
      this.detectorSim := detectorSim;
      this.submitter := submitter;
      this.energies := energies;
      this.inDirectory := inDirectory;
    }

    /** `generatorKeys()`, run to its end: the items it yields, in order,
        and the exception it stops with. */
    method GeneratorKeys(listing: string -> seq<string>) returns (items: seq<Entry<KeyArgs>>, error: Option<PyError>)
      ensures Yield(items, error) == Keys(listing, inDirectory, energies)
    {
      items := [];
      for e := 0 to |energies|
        invariant Gather(Bins(listing, inDirectory, energies), e) == Yield(items, None)
      {
        var binError;
        items, binError := KeysTurn(listing, e, items);
        if binError.Some? {
          error := binError;
          return;
        }
      }
      error := None;
    }

    /** One pass of the outer loop of `generatorKeys`: the folder of
        energy e extends a gathering that has not raised. */
    method KeysTurn(listing: string -> seq<string>, e: nat, items: seq<Entry<KeyArgs>>)
      returns (items': seq<Entry<KeyArgs>>, binError: Option<PyError>)
      requires e < |energies| && Gather(Bins(listing, inDirectory, energies), e) == Yield(items, None)
      ensures binError.None? ==> Gather(Bins(listing, inDirectory, energies), e + 1) == Yield(items', None)
      ensures binError.Some? ==> Keys(listing, inDirectory, energies) == Yield(items', binError)
    {
      var binItems;
      binItems, binError := Folder(listing, inDirectory, energies[e]);
      BinAt(listing, inDirectory, energies, e);
      GatherStep(Bins(listing, inDirectory, energies), e);
      items' := items + binItems;
      if binError.Some? {
        GatherStops(Bins(listing, inDirectory, energies), e + 1, |energies|);
      }
    }

    /** `executeFile(key, exeFile)`: admit the file under `key`, then
        communicate with that same key. */
    method ExecuteFile(key: string, exeFile: string, c: Submitter.Captured)
      requires submitter.Valid()
      modifies submitter
      ensures submitter.Valid()
      ensures submitter.PoolState() == Execute(old(submitter.PoolState()), submitter.items, key, exeFile, c)
    {
      submitter.StartSingleProcess(Some(key), Some(exeFile));
      var _ := submitter.CommunicateSingleProcess(key, c);
    }

    /** `run_processes(energy, corsikaFile, runname, runID)`: ask the
        detector simulator for the ITExDefault script of the item (`logE`
        is the value of the energy label `energy`) and run it under the
        `_ITEx` key when there is one.  The KeyError of `get_radius`
        propagates; `folders` and `script` are what `run_simITExDefault`
        created and wrote. */
    method RunProcesses(energy: string, logE: real, corsikaFile: string, runname: string, runID: int,
                        existing: string -> bool, c: Submitter.Captured)
      returns (error: Option<PyError>, folders: seq<string>, script: Option<FileWriter.TextFile>)
      requires submitter.Valid()
      modifies submitter
      ensures submitter.Valid()
      ensures var run := DS.RunITEx(detectorSim, energy, logE, runname, corsikaFile, runID, "", existing);
        folders == run.folders && script == run.script &&
        error == (if run.result.Err? then Some(run.result.error) else None) &&
        submitter.PoolState() ==
          if run.result.Ok? && run.result.value.0.Some?
          then Execute(old(submitter.PoolState()), submitter.items, ITExKey(energy, runname), run.result.value.0.value, c)
          else old(submitter.PoolState())
    {
      var r;
      r, folders, script := DS.RunSimITExDefault(detectorSim, energy, logE, runname, corsikaFile, runID, "", existing);
      if r.Err? {
        return Some(r.error), folders, script;
      }
      var (exeFile, iTExFile) := r.value;
      if exeFile.Some? {
        ExecuteFile(ITExKey(energy, runname), exeFile.value, c);
      }
      error := None;
    }
  }
}
