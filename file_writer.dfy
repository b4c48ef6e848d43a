/** utils/FileWriter.py: the folder layout of a CORSIKA production and the
    steering card (`SIM<fileNumber>.inp`) of one shower.

    Floating-point values never enter the model as numbers: an energy is
    carried as the text Python prints for `log10_E` and for
    `format(10**log10_E, '.11E')`, and the angle limits as the text printed
    for them.  The dataset number is an integer (the scripts pass 13400.0,
    for which the float arithmetic of the seed formula is exact). */
module FileWriter {
  import opened Wrappers
  import opened Strings

  /** One energy of the grid: `str(log10_E)`, the `.11E` text of `10**log10_E`
      that the ERANGE line prints, and the bin index the scripts derive from
      it (`(log10_E - 5) * 10`). */
  datatype Energy = Energy(name: string, erange: string, bin: int)

  /** A text file the scripts write: where, and the pieces of text written
      to it in order; the file holds their concatenation. */
  datatype TextFile = TextFile(path: string, chunks: seq<string>)

  /** `int(((dataset * 100000.0 + procNumber) % 100000000.0) + 382710.0)`;
      Python's `%` with a positive divisor is Dafny's `%`. */
  function SeedValue(dataset: int, procNumber: int): (seed: int)
    ensures 382710 <= seed < 100000000 + 382710
  {
    ((dataset * 100000 + procNumber) % 100000000) + 382710
  }

  /** Two processes whose numbers differ by less than 10^8 get different
      seeds. */
  lemma SeedsDistinct(dataset: int, p: int, q: int)
    requires p != q && -100000000 < p - q < 100000000
    ensures SeedValue(dataset, p) != SeedValue(dataset, q)
  {
    var a, b := dataset * 100000 + p, dataset * 100000 + q;
    assert p - q == (a / 100000000 - b / 100000000) * 100000000 + (a % 100000000 - b % 100000000);
  }

  /** Process numbers 10^8 apart share their seed. */
  lemma SeedPeriodic(dataset: int, p: int)
    ensures SeedValue(dataset, p + 100000000) == SeedValue(dataset, p)
  {
    var a := dataset * 100000 + p;
    assert (a + 100000000) % 100000000 == a % 100000000;
  }

  /** Unless the sum wraps, the next process's first seed is this process's
      second seed: the seed triples of consecutive cards overlap. */
  lemma SeedTriplesOverlap(dataset: int, p: int)
    requires (dataset * 100000 + p) % 100000000 != 100000000 - 1
    ensures SeedValue(dataset, p + 1) == SeedValue(dataset, p) + 1
  {
    var a := dataset * 100000 + p;
    assert a == (a / 100000000) * 100000000 + a % 100000000;
    assert a + 1 == (a / 100000000) * 100000000 + (a % 100000000 + 1);
  }

  /** With the production dataset 13400 the first seed is 40382710 + p for
      the first 6 * 10^7 process numbers. */
  lemma ProductionSeeds(p: int)
    requires 0 <= p < 60000000
    ensures SeedValue(13400, p) == 40382710 + p
  {
    assert 13400 * 100000 + p == 13 * 100000000 + (40000000 + p);
  }

  /** `"4{0:05d}".format(runNumber)`. */
  function FileNumber(runNumber: int): (fn: string)
    ensures |fn| >= 1 && fn[0] == '4'
  {
    "4" + FormatInt(runNumber, 5)
  }

  /** Run numbers below 10^5 give six-character file numbers from which the
      run number reads back. */
  lemma FileNumberRoundTrip(runNumber: int)
    requires 0 <= runNumber < 100000
    ensures |FileNumber(runNumber)| == 6
    ensures ParseInt(FileNumber(runNumber)[1..]) == Some(runNumber)
  {
    assert Pow10(5) == 100000;
    assert FileNumber(runNumber)[1..] == ZeroPad(runNumber, 5);
    ZeroPadWidth(runNumber, 5);
    ParseZeroPad(runNumber, 5);
  }

  /** Different non-negative run numbers never share a file number. */
  lemma FileNumberInjective(a: int, b: int)
    requires a >= 0 && b >= 0 && FileNumber(a) == FileNumber(b)
    ensures a == b
  {
    assert ZeroPad(a, 5) == FileNumber(a)[1..] == FileNumber(b)[1..] == ZeroPad(b, 5);
    ZeroPadInjective(a, b, 5);
  }

  /** `makeFolders`' update of `self.directories`. */
  function WithFolders(d: map<string, string>): (r: map<string, string>)
    requires "sim" in d
    ensures r.Keys == d.Keys + {"data", "temp", "log", "inp"}
    ensures r["sim"] == d["sim"]
    ensures forall k :: k in d && k !in {"data", "temp", "log", "inp"} ==> r[k] == d[k]
  {
    var sim := d["sim"];
    d["data" := sim + "/data/"]["temp" := sim + "/temp/"]["log" := sim + "/log/"]["inp" := sim + "/inp/"]
  }

  /** The four work folders `makeFolders` sets are present. */
  predicate HasFolders(dirs: map<string, string>)
  {
    "inp" in dirs && "log" in dirs && "temp" in dirs && "data" in dirs
  }

  /** Calling `makeFolders` again changes nothing in the dictionary. */
  lemma WithFoldersIdempotent(d: map<string, string>)
    requires "sim" in d
    ensures WithFolders(WithFolders(d)) == WithFolders(d)
  {
  }

  /** The run number and the three consecutive random seeds. */
  function CardHead(fileNumber: string, seed1: int): (lines: seq<string>)
    ensures |lines| == 5
  {
    [ "RUNNR   " + fileNumber + "\n",
      "EVTNR   1\n",
      "SEED    " + IntToString(seed1) + " 0    0\n",
      "SEED    " + IntToString(seed1 + 1) + "    0    0\n",
      "SEED    " + IntToString(seed1 + 2) + "    0    0\n" ]
  }

  /** Energy range, primary and angular ranges: the six lines after the
      seeds. */
  function PhysicsHead(e1: Energy, e2: Energy, primary: int, zenithStart: string, zenithEnd: string,
                       azimuthStart: string, azimuthEnd: string): (lines: seq<string>)
    ensures |lines| == 6
  {
    [ "NSHOW   1\n",
      "ERANGE  " + e1.erange + "    " + e2.erange + "\n",
      "ESLOPE  -1.0\n",
      "PRMPAR  " + IntToString(primary) + "\n",
      "THETAP  " + zenithStart + "    " + zenithEnd + "\n",
      "PHIP    " + azimuthStart + " " + azimuthEnd + "\n" ]
  }

  /** ELMFLG to RADNKG: the physics options every card writer of the
      productions uses. */
  const SharedOptions: seq<string> :=
    [ "ELMFLG  T    T\n",
      "OBSLEV  2840.E2\n",
      "ECTMAP  100\n",
      "SIBYLL  T    0\n",
      "SIBSIG  T\n",
      "ARRANG  -120.7\n",
      "HADFLG  0    1    0    1    0    2\n",
      "STEPFC  1.0\n",
      "DEBUG  F    6    F    1000000\n",
      "MUMULT  T\n",
      "MUADDI  T\n",
      "MAXPRT  0\n",
      "MAGNET  16.75       -51.96\n",
      "LONGI   T   20.     T       F\n",
      "RADNKG  2.E5\n" ]

  /** ECUTS to ATMOD: the shared physics options and the atmosphere
      model 33. */
  const WriterOptions: seq<string> :=
    ["ECUTS    0.0500 0.0500 0.0100 0.0020\n"] + SharedOptions + ["ATMOD   33\n"]

  /** Energy range, primary, angular ranges and the fixed physics options,
      ending with the atmosphere model 33. */
  function CardPhysics(e1: Energy, e2: Energy, primary: int, zenithStart: string, zenithEnd: string,
                       azimuthStart: string, azimuthEnd: string): (lines: seq<string>)
    ensures |lines| == 23
  {
    PhysicsHead(e1, e2, primary, zenithStart, zenithEnd, azimuthStart, azimuthEnd) + WriterOptions
  }

  /** Output directory, user and the closing keyword. */
  function CardTail(tempDir: string, e1: Energy, fileNumber: string, username: string): (lines: seq<string>)
    ensures |lines| == 3
  {
    [ "DIRECT  " + DirectPrefix(tempDir, e1, fileNumber) + "\n",
      "USER    " + username + "\n",
      "EXIT\n" ]
  }

  /** The 31 lines of the card `writeFile` writes. */
  function CardLines(fileNumber: string, seed1: int, e1: Energy, e2: Energy, primary: int,
                     zenithStart: string, zenithEnd: string, azimuthStart: string, azimuthEnd: string,
                     tempDir: string, username: string): (lines: seq<string>)
    ensures |lines| == 31
    ensures lines[..5] == CardHead(fileNumber, seed1)
    ensures lines[28..] == CardTail(tempDir, e1, fileNumber, username)
  {
    var head := CardHead(fileNumber, seed1);
    var tail := CardTail(tempDir, e1, fileNumber, username);
    var lines := head + CardPhysics(e1, e2, primary, zenithStart, zenithEnd, azimuthStart, azimuthEnd) + tail;
    assert lines[..5] == head;
    assert lines[28..] == tail;
    lines
  }

  /** `{inp}/{log10_E1}/SIM{fileNumber}.inp`: where the card goes. */
  function CardPath(inpDir: string, e1: Energy, fileNumber: string): string
  {
    inpDir + "/" + e1.name + "/" + "SIM" + fileNumber + ".inp"
  }

  /** The directory CORSIKA writes its output into (the DIRECT line). */
  function DirectPrefix(tempDir: string, e1: Energy, fileNumber: string): string
  {
    tempDir + "/" + e1.name + "/" + fileNumber
  }

  class FileWriter {
    const username: string
    const primary: int
    const dataset: int
    const azimuthStart: string
    const azimuthEnd: string
    const zenithStart: string
    const zenithEnd: string
    /** `self.directories`: "sim" and, after `makeFolders`, the four work folders. */
    var directories: map<string, string>
    ghost predicate Valid()
      reads this
    {
      "sim" in directories &&
      ("inp" in directories ==> directories == WithFolders(directories))
    }

    constructor(username: string, dirSimulations: string, primary: int, dataset: int,
                azimuthStart: string, azimuthEnd: string, zenithStart: string, zenithEnd: string)
      ensures Valid()
      ensures directories == map["sim" := dirSimulations]
      ensures this.username == username && this.primary == primary && this.dataset == dataset
      ensures this.azimuthStart == azimuthStart && this.azimuthEnd == azimuthEnd
      ensures this.zenithStart == zenithStart && this.zenithEnd == zenithEnd
    {
      this.username := username;
      this.primary := primary;
      this.dataset := dataset;
      this.azimuthStart := azimuthStart;
      this.azimuthEnd := azimuthEnd;
      this.zenithStart := zenithStart;
      this.zenithEnd := zenithEnd;
      directories := map["sim" := dirSimulations];
    }

    /** `makeFolders(log10_E1)`: point the four work folders under "sim";
        creating `{path}/{log10_E1}` on disk is not modelled. */
    method MakeFolders(e1: Energy)
      requires Valid()
      modifies this
      ensures Valid()
      ensures directories == WithFolders(old(directories))
    {
      WithFoldersIdempotent(directories);
      directories := WithFolders(directories);
    }

    /** `writeFile(procNumber, runNumber, log10_E1, log10_E2)`: the card and
        the path it is written to; KeyError 'inp' before `makeFolders`. */
    function WriteFile(procNumber: int, runNumber: int, e1: Energy, e2: Energy): (r: Result<TextFile>)
      requires Valid()
      reads this
      ensures r.Err? <==> "inp" !in directories
      ensures r.Err? ==> r.error == KeyError("inp")
      ensures r.Ok? ==>
        var fn := FileNumber(runNumber);
        var seed := SeedValue(dataset, procNumber);
        |r.value.chunks| == 31 &&
        r.value.path == CardPath(directories["inp"], e1, fn) &&
        directories["inp"] == directories["sim"] + "/inp/" &&
        directories["temp"] == directories["sim"] + "/temp/" &&
        r.value.chunks[..5] == CardHead(fn, seed) &&
        r.value.chunks[28..] == CardTail(directories["temp"], e1, fn, username)
    {
      if "inp" !in directories then Err(KeyError("inp"))
      else
        var fn := FileNumber(runNumber);
        var path := CardPath(directories["inp"], e1, fn);
        Ok(TextFile(path, CardLines(fn, SeedValue(dataset, procNumber), e1, e2, primary,
                                    zenithStart, zenithEnd, azimuthStart, azimuthEnd,
                                    directories["temp"], username)))
    }
  }

  /** The first SEED line determines the seed it prints. */
  lemma SeedLineInjective(a: int, b: int)
    requires CardHead("", a)[2] == CardHead("", b)[2]
    ensures a == b
  {
    var sa, sb := IntToString(a), IntToString(b);
    var x, y := "SEED    " + sa + " 0    0\n", "SEED    " + sb + " 0    0\n";
    assert |sa| == |sb|;
    assert sa == x[8..8 + |sa|] && sb == y[8..8 + |sb|];
    ParseIntToString(a);
    ParseIntToString(b);
  }

  /** The cards of two processes less than 10^8 apart (the first five
      lines `writeFile` writes) carry different first seeds, so their
      showers are independent. */
  lemma CardSeedsDiffer(dataset: int, p: int, q: int, fileP: string, fileQ: string)
    requires p != q && -100000000 < p - q < 100000000
    ensures CardHead(fileP, SeedValue(dataset, p))[2] != CardHead(fileQ, SeedValue(dataset, q))[2]
  {
    SeedsDistinct(dataset, p, q);
    if CardHead(fileP, SeedValue(dataset, p))[2] == CardHead(fileQ, SeedValue(dataset, q))[2] {
      SeedLineInjective(SeedValue(dataset, p), SeedValue(dataset, q));
    }
  }

  /** A writer fresh from its constructor has no "inp" folder yet, so
      `writeFile` fails until `makeFolders` has run. */
  lemma WriteBeforeMakeFoldersFails(w: FileWriter, procNumber: int, runNumber: int, e1: Energy, e2: Energy)
    requires w.Valid() && w.directories.Keys == {"sim"}
    ensures w.WriteFile(procNumber, runNumber, e1, e2) == Err(KeyError("inp"))
  {
    assert "inp" !in w.directories;
  }
}
