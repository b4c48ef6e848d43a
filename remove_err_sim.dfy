/** remove_err_sim.py: after a production, walk the `.err` logs of each
    output folder, energy folder by energy folder in sorted order, and
    delete the data file of every run whose log ends in an exception.  A
    log that ends with an `INFO` line is a finished run and is skipped; any
    other last line ends the whole walk (`sys.exit()`), and so does an
    empty log, at `lines[-1]`.

    The file system is the set of existing paths of a `Disk`; directory
    listings and the lines of each log are parameters. */
module RemoveErrSim {
  import opened Wrappers
  import opened Strings
  import opened Sorting

  // ---------------------------------------------------------------------
  // the last line

  /** What the last line of a log says about its run. */
  datatype Verdict = Failed | Finished | Unknown

  /** The if/elif chain on the last line. */
  function Classify(line: string): (v: Verdict)
  {
    if StartsWith(line, "Exception") || StartsWith(line, "RuntimeError") || StartsWith(line, "json.decoder.JSONDecodeError") then Failed
    else if StartsWith(line, "INFO") then Finished
    else Unknown
  }

  /** A log whose last line is an `INFO` line is never taken for a failed
      run, and one that ends in one of the three exceptions always is: the
      prefixes exclude each other. */
  lemma ClassifyPrefixes(line: string)
    ensures StartsWith(line, "INFO") ==> Classify(line) == Finished
    ensures (StartsWith(line, "Exception") || StartsWith(line, "RuntimeError") ||
             StartsWith(line, "json.decoder.JSONDecodeError")) ==> Classify(line) == Failed
    ensures Classify(line) == Unknown ==> !StartsWith(line, "INFO") && !StartsWith(line, "Exception")
  {
    if StartsWith(line, "INFO") {
      assert line[0] == 'I';
    }
  }

  /** How the walk ended early: `sys.exit()` on an unknown last line, or an
      exception the script does not catch. */
  datatype Stop = Exit(lastLine: string) | Raised(error: PyError)

  // ---------------------------------------------------------------------
  // paths

  /** One log of one energy folder of one output folder. */
  datatype Job = Job(path: string, en: string, file: string)

  /** `f"{path}/data/{en}/{basename}.i3.bz2"` with `basename` the log's
      file name with `.err` replaced by nothing. */
  function Target(j: Job): (t: string)
    ensures StartsWith(t, j.path + "/data/" + j.en + "/") && EndsWith(t, ".i3.bz2")
  {
    Framed(j.path + "/data/" + j.en + "/", ReplaceAll(Basename(j.file), ".err", ""), ".i3.bz2");
    j.path + "/data/" + j.en + "/" + ReplaceAll(Basename(j.file), ".err", "") + ".i3.bz2"
  }

  /** `a + b + c` starts with `a` and ends with `c`. */
  lemma Framed(a: string, b: string, c: string)
    ensures StartsWith(a + b + c, a) && EndsWith(a + b + c, c)
  {
    assert (a + b + c)[..|a|] == a;
    assert (a + b + c)[|a + b + c| - |c|..] == c;
  }

  lemma {:induction false} BasenameAfterSlash(dir: string, name: string)
    requires forall i :: 0 <= i < |name| ==> name[i] != '/'
    ensures Basename(dir + "/" + name) == name
    decreases |name|
  {
    if name == [] {
      assert (dir + "/" + name)[|dir + "/" + name| - 1] == '/';
    } else {
      var init := name[..|name| - 1];
      BasenameAfterSlash(dir, init);
      assert (dir + "/" + name)[..|dir + "/" + name| - 1] == dir + "/" + init;
    }
  }

  lemma {:induction false} ReplaceErrSuffix(name: string)
    requires forall i :: 0 <= i < |name| ==> name[i] != '.'
    ensures ReplaceAll(name + ".err", ".err", "") == name
    decreases |name|
  {
    var s := name + ".err";
    if name == [] {
      assert OccursAt(s, ".err", 0);
      assert s[4..] == [];
    } else {
      assert s[0] == name[0] != '.';
      assert !OccursAt(s, ".err", 0);
      assert s[1..] == name[1..] + ".err";
      ReplaceErrSuffix(name[1..]);
    }
  }

  /** The data file of the log `<dir>/<name>.err`, for a run name without
      dots or slashes, is `<path>/data/<en>/<name>.i3.bz2`. */
  lemma TargetOfLog(path: string, en: string, dir: string, name: string)
    requires forall i :: 0 <= i < |name| ==> name[i] != '/' && name[i] != '.'
    ensures Target(Job(path, en, dir + "/" + name + ".err")) == path + "/data/" + en + "/" + name + ".i3.bz2"
  {
    assert dir + "/" + name + ".err" == dir + "/" + (name + ".err");
    BasenameAfterSlash(dir, name + ".err");
    ReplaceErrSuffix(name);
  }

  /** A file name `*.err` matches: the wildcard does not match a leading dot. */
  predicate MatchesErr(name: string)
  {
    EndsWith(name, ".err") && !StartsWith(name, ".")
  }

  /** `glob.glob` of the pattern `*.err` in `dir`, over the names the
      directory holds. */
  function GlobErr(dir: string, names: seq<string>): (r: seq<string>)
    ensures forall f :: f in r ==> EndsWith(f, ".err") && StartsWith(f, dir + "/")
    ensures forall n :: n in names && MatchesErr(n) ==> dir + "/" + n in r
    decreases |names|
  {
    if names == [] then []
    else
      var rest := GlobErr(dir, names[..|names| - 1]);
      var n := names[|names| - 1];
      assert forall m :: m in names ==> m in names[..|names| - 1] || m == n;
      if MatchesErr(n) then
        (GlobbedPath(dir, n); rest + [dir + "/" + n])
      else rest
  }

  lemma GlobbedPath(dir: string, n: string)
    requires MatchesErr(n)
    ensures EndsWith(dir + "/" + n, ".err") && StartsWith(dir + "/" + n, dir + "/")
  {
    assert (dir + "/" + n)[|dir + "/" + n| - 4..] == n[|n| - 4..];
    assert (dir + "/" + n)[..|dir + "/"|] == dir + "/";
  }

  /** The sorted logs of one energy folder, as jobs. */
  function FolderJobs(path: string, en: string, files: seq<string>): (jobs: seq<Job>)
    ensures |jobs| == |files| && forall i :: 0 <= i < |files| ==> jobs[i] == Job(path, en, files[i])
  {
    seq(|files|, i requires 0 <= i < |files| => Job(path, en, files[i]))
  }

  /** The sorted glob of the `.err` files in `{path}/logs/{en}`. */
  function EnergyLogs(path: string, en: string, listDir: string -> seq<string>): seq<string>
  {
    var dir := path + "/logs/" + en;
    Sort(GlobErr(dir, listDir(dir)))
  }

  /** The jobs of the energy folders `ens` of one output folder, in order. */
  function PathJobs(path: string, ens: seq<string>, listDir: string -> seq<string>): seq<Job>
    decreases |ens|
  {
    if ens == [] then []
    else
      var en := ens[|ens| - 1];
      PathJobs(path, ens[..|ens| - 1], listDir) + FolderJobs(path, en, EnergyLogs(path, en, listDir))
  }

  /** `sorted(os.listdir(path + "/logs/"))`. */
  function Energies(path: string, listDir: string -> seq<string>): seq<string>
  {
    Sort(listDir(path + "/logs/"))
  }

  /** Every job of the walk over `paths`, in the order it is looked at. */
  function AllJobs(paths: seq<string>, listDir: string -> seq<string>): seq<Job>
    decreases |paths|
  {
    if paths == [] then []
    else
      var path := paths[|paths| - 1];
      AllJobs(paths[..|paths| - 1], listDir) + PathJobs(path, Energies(path, listDir), listDir)
  }

  lemma {:induction false} PathJobsPrefix(path: string, ens: seq<string>, m: nat, listDir: string -> seq<string>)
    requires m <= |ens|
    ensures PathJobs(path, ens[..m], listDir) <= PathJobs(path, ens, listDir)
    decreases |ens|
  {
    if m < |ens| {
      var init := ens[..|ens| - 1];
      assert init[..m] == ens[..m];
      PathJobsPrefix(path, init, m, listDir);
    } else {
      assert ens[..m] == ens;
    }
  }

  lemma {:induction false} AllJobsPrefix(paths: seq<string>, m: nat, listDir: string -> seq<string>)
    requires m <= |paths|
    ensures AllJobs(paths[..m], listDir) <= AllJobs(paths, listDir)
    decreases |paths|
  {
    if m < |paths| {
      var init := paths[..|paths| - 1];
      assert init[..m] == paths[..m];
      AllJobsPrefix(init, m, listDir);
    } else {
      assert paths[..m] == paths;
    }
  }

  // ---------------------------------------------------------------------
  // the walk as a fold

  /** The files that exist, the paths removed so far (the `Removing:`
      lines), and how the walk ended if it did. */
  datatype St = St(existing: set<string>, removed: seq<string>, stop: Option<Stop>)

  /** One log, given its lines. */
  function FileStep(st: St, j: Job, lines: seq<string>): (r: St)
    ensures r.existing <= st.existing && st.removed <= r.removed
  {
    if st.stop.Some? then st
    else if lines == [] then st.(stop := Some(Raised(IndexError)))
    else
      var last := lines[|lines| - 1];
      match Classify(last)
      case Failed =>
        var t := Target(j);
        if t in st.existing then st.(existing := st.existing - {t}, removed := st.removed + [t]) else st
      case Finished => st
      case Unknown => st.(stop := Some(Exit(last)))
  }

  /** The jobs in order; `readLines` gives the lines of each log. */
  function Fold(st: St, jobs: seq<Job>, readLines: string -> seq<string>): (r: St)
    ensures r.existing <= st.existing && st.removed <= r.removed
    decreases |jobs|
  {
    if jobs == [] then st
    else FileStep(Fold(st, jobs[..|jobs| - 1], readLines), jobs[|jobs| - 1], readLines(jobs[|jobs| - 1].file))
  }

  /** The log of `j` ends in one of the three exceptions. */
  predicate FailedJob(j: Job, readLines: string -> seq<string>)
  {
    var lines := readLines(j.file);
    lines != [] && Classify(lines[|lines| - 1]) == Failed
  }

  /** The log of `j` ends the walk. */
  predicate Halts(j: Job, readLines: string -> seq<string>)
  {
    var lines := readLines(j.file);
    lines == [] || Classify(lines[|lines| - 1]) == Unknown
  }

  lemma {:induction false} FoldAppend(st: St, a: seq<Job>, b: seq<Job>, readLines: string -> seq<string>)
    ensures Fold(st, a + b, readLines) == Fold(Fold(st, a, readLines), b, readLines)
    decreases |b|
  {
    if b == [] {
      assert a + b == a;
    } else {
      var init := b[..|b| - 1];
      FoldAppend(st, a, init, readLines);
      assert (a + b)[..|a + b| - 1] == a + init;
    }
  }

  lemma {:induction false} FoldFromStopped(st: St, jobs: seq<Job>, readLines: string -> seq<string>)
    requires st.stop.Some?
    ensures Fold(st, jobs, readLines) == st
    decreases |jobs|
  {
    if jobs != [] {
      FoldFromStopped(st, jobs[..|jobs| - 1], readLines);
    }
  }

  /** Once the walk has stopped, the rest of the jobs change nothing. */
  lemma FoldStoppedPrefix(st: St, a: seq<Job>, b: seq<Job>, readLines: string -> seq<string>)
    requires a <= b && Fold(st, a, readLines).stop.Some?
    ensures Fold(st, b, readLines) == Fold(st, a, readLines)
  {
    assert b == a + b[|a|..];
    FoldAppend(st, a, b[|a|..], readLines);
    FoldFromStopped(Fold(st, a, readLines), b[|a|..], readLines);
  }

  /** The log that ends the walk is the last one looked at: the logs after
      it are not examined. */
  lemma StopsAt(st: St, a: seq<Job>, j: Job, b: seq<Job>, readLines: string -> seq<string>)
    requires Fold(st, a, readLines).stop.None? && Halts(j, readLines)
    ensures Fold(st, a + [j], readLines).stop.Some?
    ensures Fold(st, a + [j] + b, readLines) == Fold(st, a + [j], readLines)
  {
    assert (a + [j])[..|a|] == a;
    FoldStoppedPrefix(st, a + [j], a + [j] + b, readLines);
  }

  /** Files only disappear, and the ones that disappear are exactly the
      ones logged as removed. */
  lemma {:induction false} FoldShrinks(st: St, jobs: seq<Job>, readLines: string -> seq<string>)
    ensures var r := Fold(st, jobs, readLines);
      r.existing <= st.existing && st.removed <= r.removed &&
      forall t :: (t in st.existing && t !in r.existing) <==> t in r.removed[|st.removed|..]
    decreases |jobs|
  {
    if jobs != [] {
      var init := jobs[..|jobs| - 1];
      FoldShrinks(st, init, readLines);
      var m := Fold(st, init, readLines);
      var r := Fold(st, jobs, readLines);
      if r.removed != m.removed {
        var t := Target(jobs[|jobs| - 1]);
        assert r.removed == m.removed + [t] && t in m.existing;
        assert r.removed[|st.removed|..] == m.removed[|st.removed|..] + [t];
      }
    }
  }

  /** Nothing but the data file of a failed run is ever deleted. */
  lemma {:induction false} OnlyFailedTargets(st: St, jobs: seq<Job>, readLines: string -> seq<string>, q: string)
    requires forall k :: 0 <= k < |jobs| ==> !(FailedJob(jobs[k], readLines) && Target(jobs[k]) == q)
    ensures q in Fold(st, jobs, readLines).existing <==> q in st.existing
    decreases |jobs|
  {
    if jobs != [] {
      OnlyFailedTargets(st, jobs[..|jobs| - 1], readLines, q);
    }
  }

  /** A step that has not stopped deletes the data file of a failed log. */
  lemma StepRemovesFailed(st: St, j: Job, lines: seq<string>)
    requires st.stop.None? && lines != [] && Classify(lines[|lines| - 1]) == Failed
    ensures Target(j) !in FileStep(st, j, lines).existing
  {
  }

  /** A step never clears a stop. */
  lemma StepKeepsStop(st: St, j: Job, lines: seq<string>)
    requires FileStep(st, j, lines).stop.None?
    ensures st.stop.None?
  {
  }

  /** A walk that runs to its end leaves no data file of a failed run. */
  lemma {:induction false} FailedTargetsGone(st: St, jobs: seq<Job>, readLines: string -> seq<string>)
    requires Fold(st, jobs, readLines).stop.None?
    ensures forall k :: 0 <= k < |jobs| && FailedJob(jobs[k], readLines) ==> Target(jobs[k]) !in Fold(st, jobs, readLines).existing
    decreases |jobs|
  {
    if jobs != [] {
      var init := jobs[..|jobs| - 1];
      var j := jobs[|jobs| - 1];
      var m := Fold(st, init, readLines);
      var r := Fold(st, jobs, readLines);
      assert r == FileStep(m, j, readLines(j.file));
      StepKeepsStop(m, j, readLines(j.file));
      FailedTargetsGone(st, init, readLines);
      forall k | 0 <= k < |jobs| && FailedJob(jobs[k], readLines)
        ensures Target(jobs[k]) !in r.existing
      {
        if k < |init| {
          assert init[k] == jobs[k];
        } else {
          StepRemovesFailed(m, j, readLines(j.file));
        }
      }
    }
  }

  /** The walk runs to its end exactly when it had not stopped and no log
      is empty or ends in an unknown line. */
  lemma {:induction false} RunsToEndIff(st: St, jobs: seq<Job>, readLines: string -> seq<string>)
    ensures Fold(st, jobs, readLines).stop.None? <==> st.stop.None? && forall k :: 0 <= k < |jobs| ==> !Halts(jobs[k], readLines)
    decreases |jobs|
  {
    if jobs != [] {
      var init := jobs[..|jobs| - 1];
      var j := jobs[|jobs| - 1];
      var m := Fold(st, init, readLines);
      assert Fold(st, jobs, readLines) == FileStep(m, j, readLines(j.file));
      assert Fold(st, jobs, readLines).stop.None? <==> m.stop.None? && !Halts(j, readLines);
      RunsToEndIff(st, init, readLines);
      assert (forall k :: 0 <= k < |jobs| ==> !Halts(jobs[k], readLines)) <==>
        (forall k :: 0 <= k < |init| ==> !Halts(init[k], readLines)) && !Halts(j, readLines) by {
        assert forall k :: 0 <= k < |init| ==> init[k] == jobs[k];
      }
    }
  }

  // ---------------------------------------------------------------------
  // the script

  /** The file system, as the set of paths that exist. */
  class Disk {
    var files: set<string>

    constructor(files: set<string>)
      ensures this.files == files
    {
      this.files := files;
    }

    /** `os.path.exists(p)`. */
    predicate Exists(p: string)
      reads this
    {
      p in files
    }

    /** `os.remove(p)`. */
    method Remove(p: string)
      requires p in files
      modifies this
      ensures files == old(files) - {p}
    {
      files := files - {p};
    }
  }

  /** The body of the innermost loop: read the log, look at its last line. */
  method ProcessFile(disk: Disk, j: Job, lines: seq<string>, removed: seq<string>) returns (removed': seq<string>, stop: Option<Stop>)
    modifies disk
    ensures St(disk.files, removed', stop) == FileStep(St(old(disk.files), removed, None), j, lines)
  {
    removed', stop := removed, None;
    if |lines| == 0 {
      stop := Some(Raised(IndexError));
      return;
    }
    var lastLine := lines[|lines| - 1];
    if StartsWith(lastLine, "Exception") || StartsWith(lastLine, "RuntimeError") || StartsWith(lastLine, "json.decoder.JSONDecodeError") {
      var basename := ReplaceAll(Basename(j.file), ".err", "");
      var target := j.path + "/data/" + j.en + "/" + basename + ".i3.bz2";
      if disk.Exists(target) {
        disk.Remove(target);
        removed' := removed + [target];
      }
    } else if StartsWith(lastLine, "INFO") {
    } else {
      stop := Some(Exit(lastLine));
    }
  }

  /** The loop over the sorted logs of one energy folder. */
  method ProcessFolder(disk: Disk, path: string, en: string, files: seq<string>, readLines: string -> seq<string>, removed: seq<string>)
    returns (removed': seq<string>, stop: Option<Stop>)
    modifies disk
    ensures St(disk.files, removed', stop) == Fold(St(old(disk.files), removed, None), FolderJobs(path, en, files), readLines)
  {
    ghost var st0 := St(disk.files, removed, None);
    ghost var jobs := FolderJobs(path, en, files);
    removed', stop := removed, None;
    for i := 0 to |files|
      invariant stop.None?
      invariant St(disk.files, removed', None) == Fold(st0, jobs[..i], readLines)
    {
      assert jobs[..i + 1][..i] == jobs[..i];
      removed', stop := ProcessFile(disk, Job(path, en, files[i]), readLines(files[i]), removed');
      if stop.Some? {
        FoldStoppedPrefix(st0, jobs[..i + 1], jobs, readLines);
        assert jobs[..i + 1] <= jobs;
        return;
      }
    }
    assert jobs[..|files|] == jobs;
  }

  lemma PathJobsSnoc(path: string, ens: seq<string>, i: nat, listDir: string -> seq<string>)
    requires i < |ens|
    ensures PathJobs(path, ens[..i + 1], listDir) ==
      PathJobs(path, ens[..i], listDir) + FolderJobs(path, ens[i], EnergyLogs(path, ens[i], listDir))
  {
    assert ens[..i + 1][..i] == ens[..i];
  }

  lemma AllJobsSnoc(paths: seq<string>, i: nat, listDir: string -> seq<string>)
    requires i < |paths|
    ensures AllJobs(paths[..i + 1], listDir) ==
      AllJobs(paths[..i], listDir) + PathJobs(paths[i], Energies(paths[i], listDir), listDir)
  {
    assert paths[..i + 1][..i] == paths[..i];
  }

  /** The loop over the sorted energy folders of one output folder. */
  method ProcessPath(disk: Disk, path: string, listDir: string -> seq<string>, readLines: string -> seq<string>, removed: seq<string>)
    returns (removed': seq<string>, stop: Option<Stop>)
    modifies disk
    ensures St(disk.files, removed', stop) == Fold(St(old(disk.files), removed, None), PathJobs(path, Energies(path, listDir), listDir), readLines)
  {
    ghost var st0 := St(disk.files, removed, None);
    var enList := Sort(listDir(path + "/logs/"));
    removed', stop := removed, None;
    for i := 0 to |enList|
      invariant stop.None?
      invariant St(disk.files, removed', None) == Fold(st0, PathJobs(path, enList[..i], listDir), readLines)
    {
      removed', stop := EnergyTurn(disk, st0, path, enList, i, listDir, readLines, removed');
      if stop.Some? {
        return;
      }
    }
    assert enList[..|enList|] == enList;
  }

  /** One pass of the loop over energy folders. */
  method EnergyTurn(disk: Disk, ghost st0: St, path: string, enList: seq<string>, i: nat,
                    listDir: string -> seq<string>, readLines: string -> seq<string>, removed: seq<string>)
    returns (removed': seq<string>, stop: Option<Stop>)
    requires i < |enList| && St(disk.files, removed, None) == Fold(st0, PathJobs(path, enList[..i], listDir), readLines)
    modifies disk
    ensures stop.None? ==> St(disk.files, removed', None) == Fold(st0, PathJobs(path, enList[..i + 1], listDir), readLines)
    ensures stop.Some? ==> St(disk.files, removed', stop) == Fold(st0, PathJobs(path, enList, listDir), readLines)
  {
    var en := enList[i];
    var fileList := Sort(GlobErr(path + "/logs/" + en, listDir(path + "/logs/" + en)));
    PathJobsSnoc(path, enList, i, listDir);
    FoldAppend(st0, PathJobs(path, enList[..i], listDir), FolderJobs(path, en, fileList), readLines);
    removed', stop := ProcessFolder(disk, path, en, fileList, readLines, removed);
    if stop.Some? {
      PathJobsPrefix(path, enList, i + 1, listDir);
      FoldStoppedPrefix(st0, PathJobs(path, enList[..i + 1], listDir), PathJobs(path, enList, listDir), readLines);
    }
  }

  /** The script: every output folder in `paths` in turn.  It returns the
      paths it removed, in order, and how it stopped early, if it did. */
  method RemoveErrSim(disk: Disk, paths: seq<string>, listDir: string -> seq<string>, readLines: string -> seq<string>)
    returns (removed: seq<string>, stop: Option<Stop>)
    modifies disk
    ensures St(disk.files, removed, stop) == Fold(St(old(disk.files), [], None), AllJobs(paths, listDir), readLines)
  {
    ghost var st0 := St(disk.files, [], None);
    removed, stop := [], None;
    for i := 0 to |paths|
      invariant stop.None?
      invariant St(disk.files, removed, None) == Fold(st0, AllJobs(paths[..i], listDir), readLines)
    {
      removed, stop := PathTurn(disk, st0, paths, i, listDir, readLines, removed);
      if stop.Some? {
        return;
      }
    }
    assert paths[..|paths|] == paths;
  }

  /** One pass of the loop over output folders. */
  method PathTurn(disk: Disk, ghost st0: St, paths: seq<string>, i: nat,
                  listDir: string -> seq<string>, readLines: string -> seq<string>, removed: seq<string>)
    returns (removed': seq<string>, stop: Option<Stop>)
    requires i < |paths| && St(disk.files, removed, None) == Fold(st0, AllJobs(paths[..i], listDir), readLines)
    modifies disk
    ensures stop.None? ==> St(disk.files, removed', None) == Fold(st0, AllJobs(paths[..i + 1], listDir), readLines)
    ensures stop.Some? ==> St(disk.files, removed', stop) == Fold(st0, AllJobs(paths, listDir), readLines)
  {
    var path := paths[i];
    AllJobsSnoc(paths, i, listDir);
    FoldAppend(st0, AllJobs(paths[..i], listDir), PathJobs(path, Energies(path, listDir), listDir), readLines);
    removed', stop := ProcessPath(disk, path, listDir, readLines, removed);
    if stop.Some? {
      AllJobsPrefix(paths, i + 1, listDir);
      FoldStoppedPrefix(st0, AllJobs(paths[..i + 1], listDir), AllJobs(paths, listDir), readLines);
    }
  }
}
