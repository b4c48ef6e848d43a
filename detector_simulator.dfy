/** utils/DetectorSimulator.py: the shell script that runs the IceTop
    detector simulation (`simITExDefault.py`) on one CORSIKA shower, and
    the paths it reads and writes.

    The file system enters as a parameter: `existing(p)` says whether
    `os.path.isfile(p)` holds.  The folders `make_folders` creates are
    returned as a list, and the script as the text written to it.  An
    energy is carried twice: as the text Python prints for it, used in
    paths, and as its value, which only `get_radius` reads. */
module DetectorSimulator {
  import opened Wrappers
  import opened Strings
  import opened FileWriter

  /** The attributes `__init__` keeps (`NumbFrames` and `photonDirectory`
      are accepted and dropped). */
  datatype DetectorSimulator = DetectorSimulator(
    pythonPath: string, dataset: string, mcDataset: string, seed: string, numbSamples: int,
    i3build: string, outDirectory: string, detector: string, gcd: string)

  /** `DetectorSimulator(...)`: the detector is named `{detector}.{year}`. */
  function New(pythonPath: string, dataset: string, mcDataset: string, seed: string, year: string,
               numbSamples: int, numbFrames: int, i3build: string, outDirectory: string,
               detector: string, gcd: string, photonDirectory: string): (d: DetectorSimulator)
    ensures d.detector == detector + "." + year
    ensures d.pythonPath == pythonPath && d.dataset == dataset && d.mcDataset == mcDataset
    ensures d.seed == seed && d.numbSamples == numbSamples && d.i3build == i3build
    ensures d.outDirectory == outDirectory && d.gcd == gcd
  {
    DetectorSimulator(pythonPath, dataset, mcDataset, seed, numbSamples, i3build, outDirectory,
                      detector + "." + year, gcd)
  }

  /** Python's `int(x)` of a float: truncation toward zero. */
  function Trunc(x: real): (k: int)
    ensures 0.0 <= x ==> k as real <= x < k as real + 1.0
    ensures x < 0.0 ==> k as real - 1.0 < x <= k as real
  {
    if x >= 0.0 then x.Floor else -((-x).Floor)
  }

  /** The dictionary of `get_radius`, by truncated log10(E/GeV). */
  function RadiusTable(k: int): Option<int>
  {
    if k == 4 then Some(400 - 100)
    else if k == 5 then Some(800 - 200)
    else if k == 6 then Some(1100 - 200)
    else if k == 7 then Some(1700 - 200)
    else if k == 8 then Some(2600 - 200)
    else if k == 9 then Some(3900 - 200)
    else None
  }

  /** `get_radius(logE)`: the dictionary entry of `int(logE)`, or the
      `KeyError` the lookup raises. */
  function Radius(logE: real): (r: Result<int>)
    ensures r.Ok? ==> 300 <= r.value <= 3700 && r.value % 100 == 0
  {
    match RadiusTable(Trunc(logE))
    case Some(r) => Ok(r)
    case None => Err(KeyError(IntToString(Trunc(logE))))
  }

  /** The radius is defined exactly for 4 <= logE < 10; elsewhere the key
      `int(logE)` is missing. */
  lemma RadiusDomain(logE: real)
    ensures Radius(logE).Ok? <==> 4.0 <= logE < 10.0
    ensures Radius(logE).Err? ==> Radius(logE).error == KeyError(IntToString(Trunc(logE)))
  {
  }

  /** The values of the table (each 100 or 200 below the standard radius
      the comment lists), and truncation: 5.9 gets the radius of 5. */
  lemma RadiusValues()
    ensures Radius(4.0) == Ok(300) && Radius(5.0) == Ok(600) && Radius(6.0) == Ok(900)
    ensures Radius(7.0) == Ok(1500) && Radius(8.0) == Ok(2400) && Radius(9.0) == Ok(3700)
    ensures Radius(5.9) == Radius(5.0) && Radius(9.99) == Ok(3700)
  {
    assert Trunc(5.9) == 5 && Trunc(9.99) == 9;
  }

  /** On its domain the radius grows with the energy, strictly from one
      integer decade to the next. */
  lemma RadiusIncreasing(a: real, b: real)
    requires Radius(a).Ok? && Radius(b).Ok? && a <= b
    ensures Radius(a).value <= Radius(b).value
    ensures Trunc(a) < Trunc(b) ==> Radius(a).value < Radius(b).value
  {
    RadiusDomain(a);
    RadiusDomain(b);
  }

  /** `f"{outDirectory}/generated/"` followed by
      `f"/ITExDefault_{detector}_icetop.{MCdataset}/"`. */
  function OutputFolder(d: DetectorSimulator): string
  {
    d.outDirectory + "/generated/" + "/ITExDefault_" + d.detector + "_icetop." + d.mcDataset + "/"
  }

  /** `{outputFolder}/data/{energy}/{runname}.i3.bz2`: the final data file. */
  function ITExFile(folder: string, energy: string, runname: string): string
  {
    folder + "/data/" + energy + "/" + runname + ".i3.bz2"
  }

  /** `{outputFolder}/temp/{energy}/{runname}.i3.bz2`: where the script writes. */
  function TempFile(folder: string, energy: string, runname: string): string
  {
    folder + "/temp/" + energy + "/" + runname + ".i3.bz2"
  }

  /** `{outputFolder}/logs/{energy}/{runname}`: the stem of `.out` and `.err`. */
  function LogsFile(folder: string, energy: string, runname: string): string
  {
    folder + "/logs/" + energy + "/" + runname
  }

  /** `{outputFolder}/inps/{energy}/{runname}.sh`: the script itself. */
  function ExeFile(folder: string, energy: string, runname: string): string
  {
    folder + "/inps/" + energy + "/" + runname + ".sh"
  }

  /** `make_folders(folder, energy)`: the four folders it creates. */
  function Folders(folder: string, energy: string): seq<string>
  {
    [folder + "/data/" + energy + "/", folder + "/temp/" + energy + "/",
     folder + "/logs/" + energy + "/", folder + "/inps/" + energy + "/"]
  }

  /** The script writes into the temp folder and moves its output into the
      data folder under the same name: the two paths differ only in the
      folder `temp` / `data`. */
  lemma TempBesideData(folder: string, energy: string, runname: string)
    ensures var t := TempFile(folder, energy, runname); var f := ITExFile(folder, energy, runname);
      |t| == |f| && t != f &&
      t[..|folder| + 1] == f[..|folder| + 1] && t[|folder| + 5..] == f[|folder| + 5..] &&
      t[|folder| + 1..|folder| + 5] == "temp" && f[|folder| + 1..|folder| + 5] == "data"
  {
    var tail := "/" + energy + "/" + runname + ".i3.bz2";
    var t := TempFile(folder, energy, runname);
    var f := ITExFile(folder, energy, runname);
    assert t == folder + "/" + "temp" + tail;
    assert f == folder + "/" + "data" + tail;
    assert t[|folder| + 1..|folder| + 5] == "temp";
    assert f[|folder| + 1..|folder| + 5] == "data";
  }

  /** How the input reaches the script: `cmdSTART` and the `inputFile`
      the options name. */
  datatype Input = Input(cmdStart: string, inputFile: string)

  /** A `.bz2` input is decompressed into the temp folder under its base
      name up to the first ".bz2", and the options read that copy;
      any other input is read where it is. */
  function Decompress(folder: string, energy: string, inputFile: string): Input
  {
    if EndsWith(inputFile, ".bz2") then
      var name := PartitionHead(Basename(inputFile), ".bz2");
      var pathTemp := folder + "/temp/" + energy + "/";
      Input("\nbzip2 -dc " + inputFile + " > " + pathTemp + name + " \n", pathTemp + "/" + name)
    else Input("\n", inputFile)
  }

  /** A compressed input is replaced by a file of the temp folder whose
      name is a prefix of the input's base name free of ".bz2", and the
      start command decompresses the original into that folder. */
  lemma DecompressMeaning(folder: string, energy: string, inputFile: string)
    ensures var i := Decompress(folder, energy, inputFile);
      var pathTemp := folder + "/temp/" + energy + "/";
      if EndsWith(inputFile, ".bz2") then
        var name := i.inputFile[|pathTemp| + 1..];
        StartsWith(i.inputFile, pathTemp + "/") &&
        StartsWith(Basename(inputFile), name) && (forall j: nat :: !OccursAt(name, ".bz2", j)) &&
        StartsWith(i.cmdStart, "\nbzip2 -dc " + inputFile + " > " + pathTemp)
      else i == Input("\n", inputFile)
  {
    if EndsWith(inputFile, ".bz2") {
      var name := PartitionHead(Basename(inputFile), ".bz2");
      var pathTemp := folder + "/temp/" + energy + "/";
      var i := Decompress(folder, energy, inputFile);
      PartitionHeadMeaning(Basename(inputFile), ".bz2");
      assert i.inputFile == (pathTemp + "/") + name;
      assert i.inputFile[|pathTemp| + 1..] == name;
      var head := "\nbzip2 -dc " + inputFile + " > " + pathTemp;
      assert i.cmdStart == head + (name + " \n");
    }
  }

  /** `f"{pythonPath} {i3build}/surface-sim-scripts/resources/scripts/simITExDefault.py "` */
  function CmdPython(d: DetectorSimulator): string
  {
    d.pythonPath + " " + d.i3build + "/surface-sim-scripts/resources/scripts/simITExDefault.py "
  }

  /** The twelve spaces each continued line of the options string starts with. */
  const Indent := "            "

  /** The options of `simITExDefault.py`, one per continued line, in order. */
  function OptionList(d: DetectorSimulator, tempFile: string, logsFile: string, radius: int, runID: int, inputFile: string): (opts: seq<string>)
    ensures |opts| == 9
  {
    [ "--output " + tempFile + " > " + logsFile + ".out 2> " + logsFile + ".err",
      "--gcd " + d.gcd,
      "-s " + IntToString(d.numbSamples),
      "-x -235",
      "-y 140",
      "-r " + IntToString(radius),
      "--seed " + d.seed,
      "--run_id " + IntToString(runID),
      inputFile ]
  }

  /** Each option on its continued line: indent, option, one space. */
  function Segments(opts: seq<string>): string
    decreases |opts|
  {
    if opts == [] then "" else Indent + opts[0] + " " + Segments(opts[1..])
  }

  /** The options string: the lines, the indent of the closing line, and
      the extra options when they are not empty. */
  function CmdOptions(opts: seq<string>, extraOptions: string): string
  {
    Segments(opts) + Indent + (if extraOptions != "" then extraOptions else "")
  }

  /** The segments of two option lists follow each other. */
  lemma {:induction false} SegmentsAppend(a: seq<string>, b: seq<string>)
    ensures Segments(a + b) == Segments(a) + Segments(b)
    decreases |a|
  {
    if a == [] {
      assert a + b == b;
    } else {
      assert (a + b)[1..] == a[1..] + b;
      SegmentsAppend(a[1..], b);
    }
  }

  /** `writeSHexeFile(exeFile, cmdPython, cmdOptions, cmdMoveFile, cmdSTART)`:
      the two writes, the shebang and then the body, with `cmdEND` empty. */
  function SHexeFile(exeFile: string, cmdPython: string, cmdOptions: string, cmdMove: string, cmdStart: string): TextFile
  {
    TextFile(exeFile, ["#!/bin/sh", "\n" + cmdStart + "\n" + cmdPython + " " + cmdOptions + "\n" + cmdMove + "\n" + "" + "\n"])
  }

  /** `f"mv {tempFile} {ITExFile}"` */
  function MoveCmd(folder: string, energy: string, runname: string): string
  {
    "mv " + TempFile(folder, energy, runname) + " " + ITExFile(folder, energy, runname)
  }

  /** The script written for one run once the radius is known. */
  function ITExScript(d: DetectorSimulator, folder: string, energy: string, runname: string, input: Input,
                      radius: int, runID: int, extraOptions: string): TextFile
  {
    var opts := OptionList(d, TempFile(folder, energy, runname), LogsFile(folder, energy, runname), radius, runID, input.inputFile);
    SHexeFile(ExeFile(folder, energy, runname), CmdPython(d), CmdOptions(opts, extraOptions), MoveCmd(folder, energy, runname), input.cmdStart)
  }

  /** The script starts with its shebang, runs the start command, then the
      python command with its options, then the move command, last. */
  lemma SHexeFileShape(exeFile: string, cmdPython: string, cmdOptions: string, cmdMove: string, cmdStart: string)
    ensures var f := SHexeFile(exeFile, cmdPython, cmdOptions, cmdMove, cmdStart);
      f.path == exeFile && |f.chunks| == 2 && f.chunks[0] == "#!/bin/sh" &&
      StartsWith(f.chunks[1], "\n" + cmdStart + "\n" + cmdPython + " " + cmdOptions + "\n") &&
      EndsWith(f.chunks[1], "\n" + cmdMove + "\n\n")
  {
    var head := "\n" + cmdStart + "\n" + cmdPython + " " + cmdOptions;
    var body := SHexeFile(exeFile, cmdPython, cmdOptions, cmdMove, cmdStart).chunks[1];
    assert body == (head + "\n") + (cmdMove + "\n\n");
    assert body == head + ("\n" + cmdMove + "\n\n");
    assert body[..|head| + 1] == head + "\n";
  }

  /** What one call of `run_simITExDefault` returns and does. */
  datatype ITExRun = ITExRun(result: Result<(Option<string>, string)>, folders: seq<string>, script: Option<TextFile>)

  /** `run_simITExDefault(energy, runname, inputFile, runID, extraOptions)`. */
  function RunITEx(d: DetectorSimulator, energy: string, logE: real, runname: string, inputFile: string,
                   runID: int, extraOptions: string, existing: string -> bool): (run: ITExRun)
    ensures run.result.Ok? ==> run.result.value.1 == ITExFile(OutputFolder(d), energy, runname)
    ensures run.script.Some? <==> run.result.Ok? && run.result.value.0.Some?
    ensures run.folders != [] ==> !existing(ITExFile(OutputFolder(d), energy, runname))
  {
    var folder := OutputFolder(d);
    var iTEx := ITExFile(folder, energy, runname);
    if existing(iTEx) then ITExRun(Ok((None, iTEx)), [], None)
    else
      var input := Decompress(folder, energy, inputFile);
      match Radius(logE)
      case Err(e) => ITExRun(Err(e), Folders(folder, energy), None)
      case Ok(radius) =>
        ITExRun(Ok((Some(ExeFile(folder, energy, runname)), iTEx)), Folders(folder, energy),
                Some(ITExScript(d, folder, energy, runname, input, radius, runID, extraOptions)))
  }

  /** `run_simITExDefault`, with `outputFolder`, `inputFile` and
      `cmdOptions` reassigned step by step as the source does. */
  method RunSimITExDefault(d: DetectorSimulator, energy: string, logE: real, runname: string, inputFile: string,
                           runID: int, extraOptions: string, existing: string -> bool)
    returns (r: Result<(Option<string>, string)>, folders: seq<string>, script: Option<TextFile>)
    ensures ITExRun(r, folders, script) == RunITEx(d, energy, logE, runname, inputFile, runID, extraOptions, existing)
  {
    var outputFolder := d.outDirectory + "/generated/";
    outputFolder := outputFolder + "/ITExDefault_" + d.detector + "_icetop." + d.mcDataset + "/";
    var iTExFile := outputFolder + "/data/" + energy + "/" + runname + ".i3.bz2";
    var tempFile := outputFolder + "/temp/" + energy + "/" + runname + ".i3.bz2";
    var logsFile := outputFolder + "/logs/" + energy + "/" + runname;
    var exeFile := outputFolder + "/inps/" + energy + "/" + runname + ".sh";
    assert outputFolder == OutputFolder(d);
    assert iTExFile == ITExFile(outputFolder, energy, runname) && tempFile == TempFile(outputFolder, energy, runname);
    assert logsFile == LogsFile(outputFolder, energy, runname) && exeFile == ExeFile(outputFolder, energy, runname);
    if existing(iTExFile) {
      return Ok((None, iTExFile)), [], None;
    }
    folders := Folders(outputFolder, energy);
    var input := inputFile;
    var cmdStart;
    if EndsWith(input, ".bz2") {
      var baseName := Basename(input);
      var name := PartitionHead(baseName, ".bz2");
      var pathTemp := outputFolder + "/temp/" + energy + "/";
      cmdStart := "\nbzip2 -dc " + input + " > " + pathTemp + name + " \n";
      input := pathTemp + "/" + name;
    } else {
      cmdStart := "\n";
    }
    assert Input(cmdStart, input) == Decompress(outputFolder, energy, inputFile);
    var cmdPython := CmdPython(d);
    var radius := Radius(logE);
    if radius.Err? {
      return Err(radius.error), folders, None;
    }
    var cmdOptions := Segments(OptionList(d, tempFile, logsFile, radius.value, runID, input)) + Indent;
    if extraOptions != "" {
      cmdOptions := cmdOptions + extraOptions;
    }
    ghost var opts := OptionList(d, tempFile, logsFile, radius.value, runID, input);
    assert cmdOptions == CmdOptions(opts, extraOptions);
    var cmdMoveFile := "mv " + tempFile + " " + iTExFile;
    script := Some(SHexeFile(exeFile, cmdPython, cmdOptions, cmdMoveFile, cmdStart));
    r := Ok((Some(exeFile), iTExFile));
  }

  /** When the data file already exists, nothing is created or written and
      the call returns no script and the data file. */
  lemma ExistingSkips(d: DetectorSimulator, energy: string, logE: real, runname: string, inputFile: string,
                      runID: int, extraOptions: string, existing: string -> bool)
    requires existing(ITExFile(OutputFolder(d), energy, runname))
    ensures RunITEx(d, energy, logE, runname, inputFile, runID, extraOptions, existing) ==
      ITExRun(Ok((None, ITExFile(OutputFolder(d), energy, runname))), [], None)
  {
  }

  /** Otherwise the four folders are made; an energy outside the radius
      table raises after that, before anything is written; any other
      energy gets a script at the `inps` path that ends by moving the temp
      file onto the data file, and the call returns both paths. */
  lemma MissingWrites(d: DetectorSimulator, energy: string, logE: real, runname: string, inputFile: string,
                      runID: int, extraOptions: string, existing: string -> bool)
    requires !existing(ITExFile(OutputFolder(d), energy, runname))
    ensures var run := RunITEx(d, energy, logE, runname, inputFile, runID, extraOptions, existing);
      var folder := OutputFolder(d);
      run.folders == Folders(folder, energy) &&
      (run.result.Ok? <==> 4.0 <= logE < 10.0) &&
      (run.result.Err? ==> run.script.None? && run.result.error == KeyError(IntToString(Trunc(logE)))) &&
      (run.result.Ok? ==>
        run.result.value == (Some(ExeFile(folder, energy, runname)), ITExFile(folder, energy, runname)) &&
        run.script.Some? && run.script.value.path == ExeFile(folder, energy, runname) &&
        |run.script.value.chunks| == 2 && run.script.value.chunks[0] == "#!/bin/sh" &&
        EndsWith(run.script.value.chunks[1], "\n" + MoveCmd(folder, energy, runname) + "\n\n"))
  {
    RadiusDomain(logE);
    if Radius(logE).Ok? {
      var folder := OutputFolder(d);
      var input := Decompress(folder, energy, inputFile);
      var opts := OptionList(d, TempFile(folder, energy, runname), LogsFile(folder, energy, runname), Radius(logE).value, runID, input.inputFile);
      SHexeFileShape(ExeFile(folder, energy, runname), CmdPython(d), CmdOptions(opts, extraOptions), MoveCmd(folder, energy, runname), input.cmdStart);
    }
  }

  /** The command line uses the radius and reads the input it is given,
      each as a whole option segment, and ends with the extra options. */
  lemma ScriptOptions(d: DetectorSimulator, tempFile: string, logsFile: string, radius: int, runID: int,
                      inputFile: string, extraOptions: string)
    ensures var opts := OptionList(d, tempFile, logsFile, radius, runID, inputFile);
      Segments(opts) == Segments(opts[..5]) + (Indent + ("-r " + IntToString(radius)) + " ") + Segments(opts[6..]) &&
      Segments(opts) == Segments(opts[..8]) + (Indent + inputFile + " ") &&
      (extraOptions != "" ==> EndsWith(CmdOptions(opts, extraOptions), Indent + extraOptions))
  {
    var opts := OptionList(d, tempFile, logsFile, radius, runID, inputFile);
    assert opts == opts[..5] + [opts[5]] + opts[6..];
    SegmentsAppend(opts[..5] + [opts[5]], opts[6..]);
    SegmentsAppend(opts[..5], [opts[5]]);
    assert Segments([opts[5]]) == Indent + opts[5] + " " + Segments([]);
    assert opts == opts[..8] + [opts[8]];
    SegmentsAppend(opts[..8], [opts[8]]);
    assert Segments([opts[8]]) == Indent + opts[8] + " " + Segments([]);
    if extraOptions != "" {
      var c := CmdOptions(opts, extraOptions);
      assert c == Segments(opts) + (Indent + extraOptions);
      assert c[|c| - |Indent + extraOptions|..] == Indent + extraOptions;
    }
  }
}
