# Horeka simulation production, modelled in Dafny

These Python scripts run air-shower simulation productions for IceTop and
IceCube on the Horeka cluster. A production has the following parts:

- **CORSIKA production** (`MakeCorsikaSim.py`, `cor_prod_top.py`,
  `utils/FileWriter.py`). For each energy bin and each run number it:
  - writes an input card (`RUN`, `SEED`, `ERANGE`, ... lines) into a fixed
    folder layout;
  - queues the command that runs CORSIKA on that card, unless the card's
    `DAT` output already exists.
- **Radio production** (`utils/SimulationMaker.py`,
  `utils/RadioFilesGenerator.py`, `utils/SubFilesGenerator.py`,
  `utils/runNumberGenerator.py`). It builds run numbers from zenith,
  azimuth, primary and energy tables. For each run it writes:
  - the card;
  - the CoREAS `.reas` file;
  - the antenna `.list` file;
  - the SLURM `.sub` batch script.
- **Detector response** (`MakeDetectorResponse.py`, `utils/ProcessRunner.py`,
  `utils/DetectorSimulator.py`). For every CORSIKA `DAT` file in each energy
  folder it:
  - writes shell scripts for the simulation stages (IceTop shower generator,
    CORSIKA background, polyplopia, clsim, detector, level 1/2/3);
  - runs each script and waits for it.
- **Process pool** (`utils/Submitter.py`, `utils/MultiProcesses.py`). A
  generator yields `(key, job)` pairs. At most `parallel_sim` jobs run at
  once. A finished job has its output logged (Submitter only), is removed
  from the running set, and its slot goes to the next pair.
- **Clean-up** (`remove_err_sim.py`). It walks the `.err` logs of a
  production. For every log whose last line is an exception, it deletes the
  matching `.i3.bz2` output. It stops at the first log that ends in neither
  a success line nor an exception.

## How the model is organised

There is one Dafny module per source file, plus helper modules:

- `Wrappers`: `Option` and the Python exceptions that the model raises.
- `Strings`: decimal formatting and parsing, `str.partition`, `split`,
  `join`, basename, replace.
- `Sorting`: `sorted` on strings, proved to be a sorted permutation, and the
  only one.
- `Dicts`: an insertion-ordered Python `dict`.
- `Pool`: the process pool, as functions.
- `Keyspace`: which indices of a `for` loop survive its `continue`, and the
  energy label at the head of a job key. Together these keep job keys
  distinct.

Some source parts change state in place:

- the two pool classes;
- the `ProcessRunner` classes;
- the file writers that keep a folder list;
- the clean-up walk over a disk.

These are Dafny classes, proved against the functions of the pool or
against a reference fold. The loops of the source are `while`/`for` loops
with invariants.

The world outside the program becomes parameters:

- a directory listing is a function `string -> seq<string>`;
- the set of existing files is a `set<string>`;
- what `poll()`/`communicate()`/`is_alive()` observe is a sequence of scan
  results;
- the stage scripts of the detector simulator are a function that returns
  the script path (or None) and the output file name.

Floating-point energies are opaque labels. Where the source computes with
them, the model uses an integer bin index or a `real` with explicit
truncation.

## Model

| member | source | states |
|---|---|---|
| Dicts.Empty | utils/Submitter.py:30 | A new process dict is well formed and empty. |
| Dicts.Store | utils/Submitter.py:59-63 | `d[k] = v` maps `k` to `v` and leaves every other entry alone. A new key adds one entry; an existing key keeps its place in the key order. |
| Dicts.Pop | utils/Submitter.py:143-144 | `d.pop(k)` removes exactly `k` and shrinks the dict by one. |
| Dicts.Without | utils/Submitter.py:144 | The key order after a pop holds every key except `k`, and no others. |
| Dicts.WithoutDistinct | utils/Submitter.py:144 | Removing a key from a repetition-free key list keeps it repetition-free. It is one shorter exactly when the key was present. |
| Pool.Init | utils/Submitter.py:27-30 | A new pool has no running process, an unstarted generator and no spawned key. |
| Pool.Attempt | utils/Submitter.py:41-66 | `startSingleProcess`. A key and job passed in are stored, overwriting an existing entry, and the generator is not touched. Otherwise exactly one item is pulled. An exhausted generator changes nothing. A pulled item is spawned exactly when both key and job are present. The pool grows by at most one and loses no key. |
| Pool.Prime | utils/Submitter.py:32-39 | `startProcesses` advances the generator by `parallelRunningSims` items (none for a negative count), or to its end. It adds at most that many processes. |
| Pool.Reap | utils/Submitter.py:127-129 | Deleting a finished key and starting one more pulls one item. If the generator is exhausted, the pool is that key smaller. No other key leaves, and the pool never grows. |
| Pool.Reaped | utils/Submitter.py:97-102 | The keys one scan reaps are exactly the snapshot keys that have finished. |
| Pool.Step | utils/MultiProcesses.py:88-93 | Checking one key of the snapshot removes at most that key. |
| Pool.ScanUnfold | utils/Submitter.py:97-103 | A scan over the snapshot `list(processDict.keys())` is the step on its first key followed by the scan of the rest. Every later snapshot key is still running when its turn comes. |
| Pool.Scan | utils/Submitter.py:89-103 | `singleCheck`'s pass over a snapshot of keys keeps the pool well formed. Its meaning is given by `ScanUnfold`, `ScanCursor`, `ScanKeeps` and `Reaped`. |
| Pool.ScanCursor | utils/Submitter.py:97-103 | A scan advances the generator by one item per reaped key, up to its end. |
| Pool.ScanKeeps | utils/Submitter.py:97-103 | A scan keeps every running key that was not reaped. It never makes the pool larger. |
| Pool.WellFormedAdmitsAll | utils/Submitter.py:54-57 | When every generated pair has a key and a job and no key repeats, every pair is spawned. |
| Pool.PullAdmitsFresh | utils/Submitter.py:54-63 | With such a generator, a pull spawns a key that is not already running, so the pool grows by exactly one. |
| Pool.PullFromSource | utils/Submitter.py:54-63 | After a pull, the spawned keys are still exactly the admissible generated keys consumed so far. |
| Pool.PrimeFills | utils/Submitter.py:32-39 | After `startProcesses` the pool holds `min(parallelRunningSims, items)` processes, all from the generator, and is full or the generator is used up. |
| Pool.PrimeStep | utils/Submitter.py:38-39 | One more pull during `startProcesses` keeps the fill count at `min(n, items)`. |
| Pool.ReapSaturated | utils/Submitter.py:119-132 | Replacing a finished process keeps the pool full, unless the generator is used up. |
| Pool.ScanSaturated | utils/Submitter.py:89-103 | A whole scan keeps the pool full, unless the generator is used up. |
| Pool.DrainSaturated | utils/Submitter.py:68-86 | The polling loop keeps the pool full, unless the generator is used up. |
| Pool.Drain | utils/Submitter.py:68-86 | The polling loop over a list of rounds keeps the pool well formed. It stops early once the pool is empty. Its meaning is given by `DrainSaturated`, `DrainNeverGrows` and `RunAdmitsEveryItemOnce`. |
| Pool.RunAdmitsEveryItemOnce | utils/Submitter.py:32-86 | A whole run whose loop drains the pool has consumed every generated pair and spawned every key exactly once, in generator order. |
| Pool.RunWithinCapacity | utils/Submitter.py:32-86 | At no point do more than `parallelRunningSims` processes run. |
| Pool.DrainNeverGrows | utils/Submitter.py:68-86 | The polling loop never makes the pool larger. |
| Pool.EmptySourceSpawnsNothing | utils/Submitter.py:32-86 | A generator that yields nothing spawns nothing, and the loop ends with an empty pool. |
| Pool.PrimeEmpty | utils/Submitter.py:32-39 | `startProcesses` on an empty generator leaves the initial state unchanged. |
| Submitter.Communicated | utils/Submitter.py:119-121 | `communicate()` returns both halves of the output exactly when the process is not one of those that return None. |
| Submitter.ReapedRounds | utils/Submitter.py:80-81 | Each polling round reaps the finished keys whose output was delivered. |
| Submitter.LogPathsDistinct | utils/Submitter.py:122-125 | Two keys never share a log file, and a key's `.out` and `.err` files differ. |
| Submitter.ScanFilesEffect | utils/Submitter.py:97-125 | After a scan, every reaped key has both log files, holding the `str()` of its captured output and error. Every other file is as it was. |
| Submitter.Submitter.constructor | utils/Submitter.py:18-30 | A new submitter has an empty pool, no log files, the given generator, log directory and parallelism. |
| Submitter.Submitter.StartSingleProcess | utils/Submitter.py:41-66 | The pool becomes `Pool.Attempt` of the old pool; the logs are unchanged. |
| Submitter.Submitter.StartProcesses | utils/Submitter.py:32-39 | The loop of `parallelRunningSims` attempts leaves the pool at `Pool.Prime` of the old pool. |
| Submitter.Submitter.DeleteSingleProcess | utils/Submitter.py:135-144 | The key is popped if present. Otherwise nothing changes. |
| Submitter.Submitter.CommunicateSingleProcess | utils/Submitter.py:106-132 | When both halves of the output are present, the logs are written, the key is reaped and its slot refilled. Otherwise (the early return) pool and logs are unchanged. The result is the new key list. |
| Submitter.Submitter.SingleCheck | utils/Submitter.py:89-103 | One pass over the key snapshot leaves the pool at `Pool.Scan` and the logs at the scan's writes. It returns the current key list. |
| Submitter.Submitter.CheckRunningProcesses | utils/Submitter.py:68-86 | Over the given polling rounds the pool ends at `Pool.Drain` and the logs at the loop's writes. The loop ends exactly when the pool is empty. |
| MultiProcesses.MultiProcesses.constructor | utils/MultiProcesses.py:11-22 | A new pool is empty, with the given generator and parallelism. |
| MultiProcesses.MultiProcesses.StartSingleProcess | utils/MultiProcesses.py:34-56 | The pool becomes `Pool.Attempt` of the old pool. |
| MultiProcesses.MultiProcesses.StartProcesses | utils/MultiProcesses.py:24-32 | The pool becomes `Pool.Prime` of the old pool. |
| MultiProcesses.MultiProcesses.CheckKey | utils/MultiProcesses.py:88-93 | Checking one key leaves the pool at `Pool.Step`: a dead process is popped and one new process is started. |
| MultiProcesses.MultiProcesses.SingleCheck | utils/MultiProcesses.py:79-96 | One pass over the snapshot leaves the pool at `Pool.Scan` and returns the current key list. The argument `keyToLoop` is ignored, as in the source. |
| MultiProcesses.MultiProcesses.CheckProcesses | utils/MultiProcesses.py:58-76 | Over the given rounds the pool ends at `Pool.Drain`. The loop ends exactly when the pool is empty. |
| ProcessRunner.RunIDText | utils/ProcessRunner.py:52 | The text that `int()` is given is at most five characters: the tail of the run name. |
| ProcessRunner.RunIDOfDatFile | utils/ProcessRunner.py:52-53 | For `DAT400123` the run name is `400123` and the run id is 123. The run id keeps only the last five digits. |
| ProcessRunner.RunIDWithUnderscore | utils/ProcessRunner.py:52-53 | For `DAT1_234` the run id is 1234: `int` accepts the underscore, so the file yields an item. |
| ProcessRunner.RunNameAfterFirstDat | utils/ProcessRunner.py:53 | The run name is everything after the first `DAT`, or empty without one. In that case `int()` fails. |
| ProcessRunner.Classify | utils/ProcessRunner.py:50-52 | A file is skipped exactly when it ends in `.bz2`. It raises exactly when it is kept and its last five run-name characters are not an integer. Otherwise it carries that integer. |
| ProcessRunner.KindAt | utils/ProcessRunner.py:49-52 | The classification of a folder is the classification of each file, position by position. |
| ProcessRunner.Scan | utils/ProcessRunner.py:49-56 | The inner loop can only fail at a file it has reached. |
| ProcessRunner.ScanMeaning | utils/ProcessRunner.py:49-56 | The loop yields hits in ascending file order. Each hit is its file, at its position, with that file's run id. Before the stopping point a file is yielded exactly when it is not a `.bz2` file. The loop stops exactly at the first file whose run id does not parse. |
| ProcessRunner.ScanComplete | utils/ProcessRunner.py:49-56 | A folder scanned to its end yields exactly its non-`.bz2` files, each with its parsed run id. |
| ProcessRunner.ScanStops | utils/ProcessRunner.py:52 | After the exception nothing more is scanned. |
| ProcessRunner.ScanStep | utils/ProcessRunner.py:49-56 | One more iteration skips, raises or yields, according to the file's classification. |
| ProcessRunner.FileListSorted | utils/ProcessRunner.py:43-45 | The file list is the directory's plain files, sorted. It is the only sorted arrangement of them. |
| ProcessRunner.BinItemAt | utils/ProcessRunner.py:55-56 | The k-th item of a bin is the k-th hit: key `{energy}_{runname}`, path `inDir + file`, its run name and run id. |
| ProcessRunner.BinAt | utils/ProcessRunner.py:40-45 | The i-th bin is the scan of the sorted listing of `{inDirectory}/{energies[i]}/`. |
| ProcessRunner.GatherStep | utils/ProcessRunner.py:40 | Without an error so far, the next energy appends its items and its error. |
| ProcessRunner.GatherStops | utils/ProcessRunner.py:40-52 | Once a bin raised, later energies are never visited. |
| ProcessRunner.GatherMeaning | utils/ProcessRunner.py:40-56 | The generator raises exactly when some bin raises. Without an error it yields every bin's items in energy order. With one, it yields the items of the bins before the first failing bin, then that bin's items up to the failure, and raises that bin's error. |
| ProcessRunner.BinWellFormed | utils/ProcessRunner.py:40-56 | Every item of a bin carries its energy. It comes from a listed non-`.bz2` file of that energy's folder, with the parsed run name and run id. |
| ProcessRunner.GatherKeeps | utils/ProcessRunner.py:40-56 | A property of every bin item holds for every yielded item. |
| ProcessRunner.KeysWellFormed | utils/ProcessRunner.py:28-56 | Every yielded item's energy is one of the energies, and the item comes from a file of that energy's folder. |
| ProcessRunner.FromFolderNotBz2 | utils/ProcessRunner.py:50-51 | An item that comes from a folder file never names a `.bz2` file. |
| ProcessRunner.Bz2NeverYields | utils/ProcessRunner.py:50-51 | No `.bz2` file ever becomes a work item. |
| ProcessRunner.PoolItems | utils/ProcessRunner.py:56 | Every yielded `(key, args)` pair has both halves, so the pool spawns it. |
| ProcessRunner.Execute | utils/ProcessRunner.py:76-83 | `startSingleProcess(key, exeFile)` then `communicateSingleProcess(key)` keeps the pool well formed. |
| ProcessRunner.ExecuteExhausted | utils/ProcessRunner.py:76-83 | With the generator used up and the output delivered, executing a file spawns its key and removes it again, leaving every other process running. |
| ProcessRunner.ITExKey | utils/ProcessRunner.py:72 | The job key is the item key followed by `_ITEx`. |
| ProcessRunner.ProcessRunner.constructor | utils/ProcessRunner.py:16-26 | The runner keeps the given detector simulator, submitter, energies and input directory. |
| ProcessRunner.ProcessRunner.GeneratorKeys | utils/ProcessRunner.py:28-56 | The nested loops yield exactly the items, and raise exactly the error, of the reference generator `Keys`. |
| ProcessRunner.ProcessRunner.KeysTurn | utils/ProcessRunner.py:40-56 | One energy of the outer loop extends the gathered items, or ends the generator with that bin's error. |
| ProcessRunner.Folder | utils/ProcessRunner.py:41-56 | One energy folder yields the reference bin of its sorted listing. |
| ProcessRunner.FolderLoop | utils/ProcessRunner.py:49-56 | The `for` loop over a file list yields the reference scan of that list. |
| ProcessRunner.ProcessRunner.ExecuteFile | utils/ProcessRunner.py:76-83 | The submitter's pool ends at `Execute` of the old pool. |
| ProcessRunner.ProcessRunner.RunProcesses | utils/ProcessRunner.py:58-74 | The item's `run_simITExDefault` call is `RunITEx` on the runner's detector simulator: its folders and script are what the method creates. When that call raises (the `get_radius` KeyError), `run_processes` raises the same error and the pool is unchanged. When it returns a script, the `_ITEx` job is executed; when it returns none, the pool is unchanged. |
| ProcessRunner.RunProcessesOutcome | utils/ProcessRunner.py:64-72 | An item raises exactly when its output is missing and its energy lies outside 10^4..10^10 GeV. Its script runs exactly when the output is missing and the energy is inside that range. |
| CorsikaSim.MakeStringToSubmit | MakeCorsikaSim.py:42-68 | The submitted string is the path of the temporary script `{temp}/{E}/temp_{fileNumber}.sh`. The script's five chunks are the shebang, the `cd`, the CORSIKA call, the `mv` of the output into the data folder, and the `rm` of the script itself. |
| CorsikaSim.ScriptMatchesCard | MakeCorsikaSim.py:37-48 | The script runs CORSIKA on exactly the card that `writeFile` wrote. It moves the file that the card's `DIRECT` line names in the temp folder. |
| CorsikaSim.JobOf | MakeCorsikaSim.py:29-40 | The job of process number p carries, as the string to submit, the path of the script `makeStringToSubmit` writes for run number p + 1. |
| CorsikaSim.JobsForAt | MakeCorsikaSim.py:31-40 | The i-th job is the job of the i-th selected process number. |
| CorsikaSim.MissingIsKept | MakeCorsikaSim.py:31-36 | The process numbers the inner loop does not skip are those whose `DAT` file is not listed. |
| CorsikaSim.MissingMeaning | MakeCorsikaSim.py:31-36 | A process number of the bin is selected exactly when `DAT4{runNumber:05d}` is not in the data folder. The selected numbers come out in increasing order. |
| CorsikaSim.BinJobsMissing | MakeCorsikaSim.py:31-40 | A bin's jobs are the jobs of its missing runs, in order. |
| CorsikaSim.KeyOfInjective | MakeCorsikaSim.py:38 | Within an energy, different run numbers give different keys. |
| CorsikaSim.JobsForKeyIn | MakeCorsikaSim.py:38-40 | A run's key is yielded exactly when its process number was selected. |
| CorsikaSim.BinYieldsMissing | MakeCorsikaSim.py:25-40 | A bin yields the key of run `r` exactly when `r` is in the bin's range and its output does not exist yet. |
| CorsikaSim.JobsForKeysDistinct | MakeCorsikaSim.py:38 | Increasing process numbers give pairwise distinct keys. |
| CorsikaSim.BinKeysDistinct | MakeCorsikaSim.py:25-40 | No key repeats within a bin. |
| CorsikaSim.FreshBinYieldsAll | MakeCorsikaSim.py:25-40 | With an empty data folder, a bin yields one job for every number in its range. |
| CorsikaSim.BinKeysLabelled | MakeCorsikaSim.py:38 | Every key of a bin starts with that bin's energy label. |
| CorsikaSim.SimulationMaker.constructor | MakeCorsikaSim.py:11-15 | The maker keeps its start number, end number, energies and file writer. |
| CorsikaSim.SimulationMaker.JobsConcat | MakeCorsikaSim.py:17-40 | The generator's output is the concatenation of the per-bin outputs, in energy order. |
| CorsikaSim.SimulationMaker.BinKeys | MakeCorsikaSim.py:24-40 | Each bin's keys are distinct and carry that bin's energy label. |
| CorsikaSim.SimulationMaker.NamesDistinct | MakeCorsikaSim.py:18 | On a grid of distinct labels, the labels of the bins are distinct and are exactly the energies' labels. |
| CorsikaSim.SimulationMaker.NamesAt | MakeCorsikaSim.py:18 | The k-th label is the k-th energy's label. |
| CorsikaSim.SimulationMaker.BinLoop | MakeCorsikaSim.py:31-40 | The inner loop yields exactly the reference jobs of the bin. |
| CorsikaSim.SimulationMaker.Generator | MakeCorsikaSim.py:17-40 | The nested loops create the folders and yield exactly the reference jobs of all bins. With fewer than two energies there are no bins: nothing is created or yielded. The cards `writeFile` writes and the temp scripts are not in the method's results. Each is a function of a yielded job's fields: `FileWriter.CardLines` and `CorsikaSim.MakeStringToSubmit`, which `CorsikaSim.ScriptMatchesCard` relates. |
| CorsikaSim.SimulationMaker.BinTurn | MakeCorsikaSim.py:18-40 | One outer iteration creates the bin's folders and appends the bin's jobs. |
| CorsikaSim.SimulationMaker.JobKeysDistinct | MakeCorsikaSim.py:17-40 | Over the whole generator no key repeats, given distinct energy labels without `_` and non-negative bin starts. |
| CorsikaSim.ItemsWellFormed | MakeCorsikaSim.py:109-113 | Jobs with distinct keys give a pool generator whose every pair is spawned. |
| CorsikaSim.MainCorsikaSim | MakeCorsikaSim.py:71-116 | The jobs are those of the generator over the given grid, with start 0, 667 runs per bin and the folders `makeFolders` adds to the simulation directory (none for fewer than two energies). The production builds a submitter with log directory `logDirProcesses`, 100 parallel slots and those jobs. It ends at `Drain(Prime(Init))` over the given polling rounds, and reports whether the pool drained. |
| CorsikaSim.MainPoolFills | MakeCorsikaSim.py:115-116 | With distinct keys, `startProcesses` starts `min(100, jobs)` processes. Once polling has emptied the pool, every job has been started exactly once, in the generator's order. |
| FileWriter.SeedValue | utils/FileWriter.py:44-46 | The first seed always lies in `[382710, 100000000 + 382710)`. |
| FileWriter.SeedsDistinct | utils/FileWriter.py:44-46 | Process numbers less than 10^8 apart get different seeds. |
| FileWriter.SeedPeriodic | utils/FileWriter.py:44-46 | Process numbers 10^8 apart get the same seed: the modulus wraps. |
| FileWriter.SeedTriplesOverlap | utils/FileWriter.py:44-57 | Away from the wrap, the next process number's first seed is this one's second seed, so consecutive cards share seeds. |
| FileWriter.ProductionSeeds | utils/FileWriter.py:44-46 | With dataset 13400, process number p gets seed `40382710 + p`. |
| FileWriter.FileNumber | utils/FileWriter.py:50 | The file number always starts with `4`. |
| FileWriter.FileNumberRoundTrip | utils/FileWriter.py:50 | For run numbers below 100000 the file number has six characters, and its last five parse back to the run number. |
| FileWriter.FileNumberInjective | utils/FileWriter.py:50 | Different non-negative run numbers give different file numbers. |
| FileWriter.WithFolders | utils/FileWriter.py:29-33 | `makeFolders` adds the keys `data`, `temp`, `log` and `inp`. It keeps `sim` and every other entry. |
| FileWriter.WithFoldersIdempotent | utils/FileWriter.py:29-33 | Calling `makeFolders` twice gives the same folders as calling it once. |
| FileWriter.CardLines | utils/FileWriter.py:60-101 | A card has 31 lines: the five-line head, the physics, then the three-line tail. |
| FileWriter.FileWriter.constructor | utils/FileWriter.py:8-27 | A new writer knows only the `sim` folder and keeps its other arguments. |
| FileWriter.FileWriter.MakeFolders | utils/FileWriter.py:29-38 | The folder map becomes `WithFolders` of the old one. |
| FileWriter.FileWriter.WriteFile | utils/FileWriter.py:40-101 | The write raises `KeyError('inp')` exactly when `makeFolders` has not run. Otherwise it writes the 31-line card to `{sim}/inp//{E}/SIM{fileNumber}.inp`, with its seed in the head and the temp folder in `DIRECT`. |
| FileWriter.SeedLineInjective | utils/FileWriter.py:65 | The first `SEED` line determines the seed. |
| FileWriter.CardSeedsDiffer | utils/FileWriter.py:44-65 | Two cards whose process numbers are less than 10^8 apart have different first `SEED` lines. |
| FileWriter.WriteBeforeMakeFoldersFails | utils/FileWriter.py:22-53 | On a fresh writer, `writeFile` raises `KeyError('inp')`. |
| CorProdTop.FileNo | cor_prod_top.py:61 | The stand-alone writer's file number always starts with `3`. |
| CorProdTop.FileNoInjective | cor_prod_top.py:53-61 | Different run numbers give different file numbers. |
| CorProdTop.FileNoRoundTrip | cor_prod_top.py:61 | For run numbers below 100000 the file number has six characters, and its last five parse back to the run number. |
| CorProdTop.FileNoApartFromWriter | cor_prod_top.py:61 | A file number of this script never equals one of the `FileWriter` production (`3...` against `4...`), so their cards never collide. |
| CorProdTop.Physics | cor_prod_top.py:80-110 | The physics block has six fixed lines followed by the script's options. |
| CorProdTop.PhysicsAgainstWriter | cor_prod_top.py:80-110 | The physics block equals `FileWriter`'s line for line, except the `ECUTS` spacing (line 6) and the atmosphere (`ATMOD 0` against `ATMOD 33`, line 22). The four `ATMA`..`ATMLAY` lines follow. |
| CorProdTop.TopOptionsAgainstWriter | cor_prod_top.py:86-110 | The option lines differ from `FileWriter`'s only in the `ECUTS` and `ATMOD` lines and the four extra atmosphere lines. |
| CorProdTop.CardShape | cor_prod_top.py:61-113 | The card of index k is `{datadir}SIM3{k+1:05d}.inp`. It holds the `FileWriter` head with seed of process number k, then the physics, then the tail naming the temp folder and the user. |
| CorProdTop.CardsWith | cor_prod_top.py:49 | `np.arange(procstart, procend + 1)` gives `procend - procstart + 1` cards, or none. |
| CorProdTop.CardsAt | cor_prod_top.py:49-53 | The i-th card is the card of index `procstart + i`. |
| CorProdTop.Produce | cor_prod_top.py:42-115 | The loop writes exactly the reference cards of the bin of `lge1` and the given end. |
| CorProdTop.CardCount | cor_prod_top.py:45-49 | The script writes `end + 1` cards, or none for a negative end. |
| CorProdTop.InpNameInjective | cor_prod_top.py:62-63 | Different file numbers give different card paths. |
| CorProdTop.CardPathsDiffer | cor_prod_top.py:53-63 | Different indices write different files. |
| CorProdTop.CardsPathsDiffer | cor_prod_top.py:49-63 | Two iterations of the loop never write the same file. |
| CorProdTop.CardPathsDistinct | cor_prod_top.py:49-63 | All card paths of a run are pairwise distinct, so no card overwrites another. |
| CorProdTop.CardSeedLinesDiffer | cor_prod_top.py:54-77 | Indices less than 10^8 apart get different first `SEED` lines. |
| CorProdTop.CardsSeedsDiffer | cor_prod_top.py:49-77 | Two cards of one run have different first seeds. |
| CorProdTop.CardSeedsDistinct | cor_prod_top.py:49-77 | All first seeds of a run are pairwise distinct. |
| CorProdTop.CardRunNumber | cor_prod_top.py:53-75 | The `RUNNR` line carries `3` followed by the run number `k + 1` on five digits. |
| RunNumbers.Lookup | utils/runNumberGenerator.py:76-82 | A found ID is an index of the table, at or after the start. |
| RunNumbers.LookupMeaning | utils/runNumberGenerator.py:76-82 | The loop with `break` returns the first index whose value equals the angle. It returns None exactly when no value does. |
| RunNumbers.LookupFindsIndex | utils/runNumberGenerator.py:76-82 | In a table without repeated values, looking up the k-th value gives back k. |
| RunNumbers.GetZenithID | utils/runNumberGenerator.py:76-82 | A zenith ID lies in 0..8 and indexes the given angle in the zenith table. |
| RunNumbers.GetAzimuthID | utils/runNumberGenerator.py:86-92 | An azimuth ID lies in 0..8 and indexes the given angle in the azimuth table. |
| RunNumbers.GetPrimaryID | utils/runNumberGenerator.py:96-102 | A primary ID lies in 0..8 and indexes the given value in the zenith table, not the primary table (as written). |
| RunNumbers.ZenithIDMeaning | utils/runNumberGenerator.py:44-82 | `getZenithID` returns an ID below 9 whose table angle is the argument. It returns None exactly for angles outside 65, 67.5, ..., 85. |
| RunNumbers.AzimuthIDMeaning | utils/runNumberGenerator.py:56-92 | `getAzimuthID` returns an ID below 9 whose table angle is the argument. It returns None exactly for angles outside 0, 45, ..., 360. |
| RunNumbers.TablesRoundTrip | utils/runNumberGenerator.py:44-92 | Every table angle maps back to its own ID. |
| RunNumbers.FullCircleTwoIDs | utils/runNumberGenerator.py:56-66 | 0 and 360 degrees, the same direction, get different IDs (0 and 8). |
| RunNumbers.PrimaryIDReadsZenithTable | utils/runNumberGenerator.py:69-102 | `getPrimaryID` searches the zenith table. The primaries of the primary table (14, 5626) get no ID, while 65 gets ID 0. |
| RadioSim.RunNumberRoundTrip | utils/SimulationMaker.py:86 | With single-digit zenith and azimuth IDs and a run index below 1000, the run number reads back into the IDs and index it was built from. A single-digit primary ID gives exactly six characters. |
| RadioSim.RunNumber | utils/SimulationMaker.py:81-86 | The run number raises TypeError exactly when one of the three IDs is None. Otherwise, for a non-negative run index, it parses back to `100000 * primary + 10000 * zenith + 1000 * azimuth + runIndex`. |
| RadioSim.RunValueDigits | utils/SimulationMaker.py:86 | The number's decimal digits are, from the left, the primary ID, the zenith ID, the azimuth ID and the three-digit run index. |
| RadioSim.RunIndexOverflow | utils/SimulationMaker.py:79-86 | A run index of 1000 or more spills into the azimuth digit. Index `i + 1000` gives the same run number as index `i` with the next azimuth ID. |
| RadioSim.ProductionPrimaryRaises | utils/SimulationMaker.py:81-86 | For the tabled primaries, composing the run number raises TypeError (None times 1E5). |
| RadioSim.KeyOfInjective | utils/SimulationMaker.py:100 | Within an energy, the key determines the run number. |
| RadioSim.MakeStringToSubmit | utils/SimulationMaker.py:107-136 | The submitted string is the script `{temp}/{E}/temp_{runNumber}.sh`. The script is the shebang, then an `rm -r` of the data folder. |
| RadioSim.ScriptPathInjective | utils/SimulationMaker.py:113 | Different run numbers give different script paths. |
| RadioSim.JobsForAt | utils/SimulationMaker.py:79-103 | The i-th job is the job of the i-th selected index. |
| RadioSim.MissingIsKept | utils/SimulationMaker.py:79-95 | The run indices the inner loop does not skip are those whose `SIM{runNumber}_coreas` entry is not in `{inp}/{E}//`. |
| RadioSim.BinJobsMissing | utils/SimulationMaker.py:79-103 | A bin's jobs are the jobs of its missing runs, in order. |
| RadioSim.BinYieldsMissing | utils/SimulationMaker.py:79-103 | A bin yields run index i exactly when i is in `range(startNumber, endNumber)` and its CoREAS output does not exist. Indices come out increasing. |
| RadioSim.JobKeyInjective | utils/SimulationMaker.py:86-100 | Different run indices of a bin give different keys. |
| RadioSim.BinKeysDistinct | utils/SimulationMaker.py:79-103 | No key repeats within a bin. |
| RadioSim.BinKeysLabelled | utils/SimulationMaker.py:100 | Every key of a bin starts with that bin's energy label. |
| RadioSim.FreshBinYieldsAll | utils/SimulationMaker.py:79-103 | With an empty input folder, a bin yields every run index of its range. |
| RadioSim.SimulationMaker.constructor | utils/SimulationMaker.py:41-62 | The maker keeps all its arguments. |
| RadioSim.SimulationMaker.BaseMeaning | utils/SimulationMaker.py:81-86 | Every run number is the production's base plus the run index. It raises TypeError exactly when one of the three ID lookups fails. |
| RadioSim.SimulationMaker.PartialStep | utils/SimulationMaker.py:74-103 | After one more bin the generator has either appended that bin's jobs or ended with its error. |
| RadioSim.SimulationMaker.BinLoop | utils/SimulationMaker.py:79-103 | The inner loop gives exactly the bin's reference outcome: its jobs, or TypeError when the base is missing and the range is non-empty. |
| RadioSim.SimulationMaker.RunTurn | utils/SimulationMaker.py:81-103 | One run raises TypeError without a base. Otherwise it yields nothing if the run is done, and its job if not. |
| RadioSim.SimulationMaker.BinOutcomeEnd | utils/SimulationMaker.py:79 | The loop invariant at the end of the range is the bin's reference outcome. |
| RadioSim.SimulationMaker.Generator | utils/SimulationMaker.py:66-103 | The nested loops create the folders and give exactly the reference outcome of all bins. The temp scripts are not in the method's results. Each is `RadioSim.MakeStringToSubmit` of a yielded job's run number. |
| RadioSim.SimulationMaker.BinTurn | utils/SimulationMaker.py:74-103 | One outer iteration creates the folders, then gives the bin's outcome. |
| RadioSim.SimulationMaker.JobKeysDistinct | utils/SimulationMaker.py:74-103 | Over the whole generator no key repeats, given distinct energy labels without `_`. |
| RadioSim.SimulationMaker.BinKeys | utils/SimulationMaker.py:79-103 | Each bin's keys are distinct and carry its energy label. |
| RadioSim.SimulationMaker.JobsConcat | utils/SimulationMaker.py:74-103 | The jobs are the concatenation of the bins' jobs, in energy order. |
| RadioSim.SimulationMaker.NamesDistinct | utils/SimulationMaker.py:74 | With distinct labels, the bins' labels are distinct and are exactly the energies' labels. |
| RadioSim.SimulationMaker.NamesAt | utils/SimulationMaker.py:74 | The k-th label is the k-th energy's. |
| RadioSim.SimulationMaker.ProductionPrimaryFails | utils/SimulationMaker.py:74-103 | With a proton or iron primary, the generator raises TypeError at the first run of the first bin, whenever there is one. |
| RadioFilesGenerator.ReasFile | utils/RadioFilesGenerator.py:58-95 | `reasWriter` writes one string to `{directory}/{log10_E1}/SIM{runNumber}.reas`. |
| RadioFilesGenerator.ReasEndsWithCard | utils/RadioFilesGenerator.py:94-95 | The file ends, without a final newline, on its own line `CorsikaParameterFile = SIM{runNumber}.inp`, which names the card. |
| RadioFilesGenerator.ReasObserver | utils/RadioFilesGenerator.py:72-85 | The core sits at north 0 and west 0, at vertical `obslev`. `RunNumber` carries the run number followed by a space. |
| RadioFilesGenerator.ReasBesideList | utils/RadioFilesGenerator.py:58-164 | The `.reas` and `.list` files of a run sit in the same folder under the same stem, as CoREAS requires. |
| RadioFilesGenerator.FieldsReadBack | utils/RadioFilesGenerator.py:172 | With space-free values, the fields `x y z name` split back on spaces into the four values. |
| RadioFilesGenerator.ListLineReadBack | utils/RadioFilesGenerator.py:119-172 | A written line ends in a newline. It splits into `AntennaPosition`, `=`, x, y, z and name, the columns that `get_antennaPositions` reads (2..5). |
| RadioFilesGenerator.Column | utils/RadioFilesGenerator.py:172 | `antennaInfo[key][i]` succeeds exactly when the key is present and i is in range. A missing key raises `KeyError(key)`. |
| RadioFilesGenerator.LineAt | utils/RadioFilesGenerator.py:172 | Line i succeeds exactly when all four columns reach row i. Its text is then `AntennaPosition = x y z name` of row i. |
| RadioFilesGenerator.ListLinesMeaning | utils/RadioFilesGenerator.py:171-172 | The first n lines are written exactly when each of them succeeds. They are then those n lines, in order. |
| RadioFilesGenerator.ListLinesStops | utils/RadioFilesGenerator.py:171-172 | The loop stops with the error of the first line that fails. |
| RadioFilesGenerator.ListOkIff | utils/RadioFilesGenerator.py:157-172 | `listWriter` raises `KeyError('x')` without an `x` column. It succeeds exactly when `x` exists and is empty, or `y`, `z` and `name` are as long as `x`. |
| RadioFilesGenerator.ListOfRows | utils/RadioFilesGenerator.py:117-172 | After the columns are filled from a table of rows, `listWriter` writes one line per row, in order. |
| RadioFilesGenerator.RadioFilesGenerator.constructor | utils/RadioFilesGenerator.py:20-40 | The generator keeps its arguments and starts with empty antenna and starshape tables. |
| RadioFilesGenerator.RadioFilesGenerator.GetAntennaPositions | utils/RadioFilesGenerator.py:100-125 | The four antenna columns are replaced by those of the read rows. The starshape table is unchanged. |
| RadioFilesGenerator.RadioFilesGenerator.GetStarshapes | utils/RadioFilesGenerator.py:129-154 | The four starshape columns are replaced by those of the read rows. The antenna table is unchanged. |
| RadioFilesGenerator.RadioFilesGenerator.ListWriter | utils/RadioFilesGenerator.py:157-172 | The loop writes exactly the reference `.list` file of the antenna table, or raises its error. |
| RadioFilesGenerator.RadioFilesGenerator.WriteReasList | utils/RadioFilesGenerator.py:175-181 | The `.reas` file is written. Both tables are filled. The `.list` file holds exactly the antenna rows and never the starshape rows. |
| SubFilesGenerator.New | utils/SubFilesGenerator.py:9-27 | A new generator keeps its arguments. Without path arguments it takes the default CORSIKA path and executable. |
| SubFilesGenerator.RuntimeChoice | utils/SubFilesGenerator.py:58-72 | The runtime is `10:00:00` exactly when theta >= 65, and `08:00:00` exactly when theta < 65. The branches for 12, 16 and 30 hours are never taken. |
| SubFilesGenerator.SubWriter | utils/SubFilesGenerator.py:37-121 | `subWriter` (and `writeSubFiles`, which only calls it) writes `{inpdir}/{log10_E1}/SIM{runNumber}.sub`. |
| SubFilesGenerator.SubIgnoresZenith | utils/SubFilesGenerator.py:58-86 | The script does not depend on the zenith: the computed runtime is never written, and the time line is fixed at `2-00:00:00`. |
| SubFilesGenerator.SubHeader | utils/SubFilesGenerator.py:79-96 | The script starts with the bash shebang and the job name (the run number), and has the fixed time line. `INPUT_FILE` and `LOG_FILE` name the run's card and log. |
| SubFilesGenerator.SubMovesIntoNewFolder | utils/SubFilesGenerator.py:52-107 | The script creates `{inpdir}/{E}/DAT{runNumber}/`, inside the run folder. It moves the `DAT??????-*` and `corsika-timetable-*` files of the run folder into it. |
| SubFilesGenerator.SubBesideCard | utils/SubFilesGenerator.py:45-47 | The `.sub` file sits beside the card, with the same stem. |
| SubFilesGenerator.SubPathInjective | utils/SubFilesGenerator.py:45 | For a given input folder and energy, the script path determines the run number. |
| DetectorSimulator.New | utils/DetectorSimulator.py:17-56 | The simulator keeps its arguments. Its detector name is `{detector}.{year}`. |
| DetectorSimulator.Trunc | utils/DetectorSimulator.py:143 | `int(logE)` truncates toward zero, for negative values too. |
| DetectorSimulator.Radius | utils/DetectorSimulator.py:125-152 | A radius `get_radius` returns lies between 300 and 3700 m and is a whole number of hundreds. |
| DetectorSimulator.RadiusDomain | utils/DetectorSimulator.py:143-152 | `get_radius` succeeds exactly for 4 <= logE < 10. Otherwise it raises `KeyError` on the truncated decade. |
| DetectorSimulator.RadiusValues | utils/DetectorSimulator.py:144-152 | The radii are 300, 600, 900, 1500, 2400 and 3700 m for decades 4 to 9, and are constant within a decade. |
| DetectorSimulator.RadiusIncreasing | utils/DetectorSimulator.py:143-152 | The radius never decreases with the energy, and strictly increases from one decade to the next. |
| DetectorSimulator.TempBesideData | utils/DetectorSimulator.py:174-179 | The temp and final output paths differ only in the folder name `temp` against `data`. |
| DetectorSimulator.DecompressMeaning | utils/DetectorSimulator.py:193-200 | A `.bz2` input is unpacked with `bzip2 -dc` into the temp folder. The simulation then reads `{pathTemp}/{name}`, where name is the basename's text before the first `.bz2`. Any other input is used as given, after an empty start command. |
| DetectorSimulator.SHexeFileShape | utils/DetectorSimulator.py:78-106 | The shell script is the shebang, then the start command, the python call with its options, the move command and an empty end command, one per line. |
| DetectorSimulator.ScriptOptions | utils/DetectorSimulator.py:204-221 | Each continued option line is indented. The radius sits in the `-r` option and the (possibly unpacked) input file is the last option. Extra options are appended right after the indentation. |
| DetectorSimulator.RunSimITExDefault | utils/DetectorSimulator.py:155-230 | The method returns, creates folders and writes a script exactly as the reference run `RunITEx` does. |
| DetectorSimulator.RunITEx | utils/DetectorSimulator.py:155-230 | A successful call always returns the data file `{out}/.../data/{energy}/{runname}.i3.bz2`. A script is written exactly when the call returns one. Folders are created only when the data file is missing. |
| DetectorSimulator.ExistingSkips | utils/DetectorSimulator.py:185-187 | When the output already exists, the result is `(None, ITExFile)`: nothing is created or written. |
| DetectorSimulator.MissingWrites | utils/DetectorSimulator.py:189-230 | Otherwise the four folders are created. The run then succeeds exactly when the radius is defined: it returns `(exeFile, ITExFile)` and writes the script that ends by moving the temp output to `ITExFile`. If not, it raises the radius `KeyError` and writes nothing. |
| DetectorResponse.FakeNeverAdmits | MakeDetectorResponse.py:190-194 | The fake generator's single `(None, None)` pair carries no key, so the pool admits nothing from it and a refill attempt leaves the running table and the start log unchanged. |
| DetectorResponse.FakePrimeEmpty | MakeDetectorResponse.py:447-451 | Priming a fresh submitter from the fake generator, whatever the requested number of processes, starts nothing. |
| DetectorResponse.DetItemsSnoc | MakeDetectorResponse.py:247-254 | One more listed DAT file adds exactly its own `(key, keyArgs)` pair at the end of the items, after the earlier ones. |
| DetectorResponse.DetItemAt | MakeDetectorResponse.py:247-254 | The k-th item comes from the k-th kept file of the folder. |
| DetectorResponse.DetBinAt | MakeDetectorResponse.py:238-254 | The i-th energy bin is the one listed from the folder of the i-th energy. |
| DetectorResponse.ProcNumPosition | MakeDetectorResponse.py:238-254 | For every yielded item: `nproc` counts all listed files (`.bz2` ones included), `procnum` lies in `1..nproc` and names the position of the item's own file in the sorted listing, that file is not a `.bz2` file, `corsikaFile` is the folder joined with that name, and the key is `energy_runname`. |
| DetectorResponse.DetItemsStrip | MakeDetectorResponse.py:247-254 | Forgetting `nproc` and `procnum`, the items of one folder are the same `(key, energy, path, runname, runID)` items the production script runner yields. |
| DetectorResponse.GatherStrip | MakeDetectorResponse.py:238-254 | Concatenating the energy bins commutes with forgetting `nproc` and `procnum`, error included. |
| DetectorResponse.SameItemsAsProcessRunner | MakeDetectorResponse.py:226-254 | The detector-response key generator yields the same keys, paths and run numbers, in the same order and with the same error, as `generatorKeys` of the shared script runner. |
| DetectorResponse.DetFolderLoop | MakeDetectorResponse.py:247-254 | The loop over one sorted listing returns the items and the error of the reference reading of that folder. |
| DetectorResponse.DetFolderTurn | MakeDetectorResponse.py:247-254 | One turn of the loop either extends the items to those of the reference reading one file further, or ends with the folder's own error. |
| DetectorResponse.DetFolder | MakeDetectorResponse.py:238-254 | Listing and sorting one energy folder and looping over it yields exactly the reference bin of that energy. |
| DetectorResponse.ChainedAt | MakeDetectorResponse.py:256-393 | In a chained run every stage call reads the file its predecessor wrote. |
| DetectorResponse.RecordGood | MakeDetectorResponse.py:256-393 | Recording a correctly fed call keeps the scripts in step with the calls, keeps the calls chained, appends the call's stage and moves the shower and level 1 outputs to the call's file when it produces one. |
| DetectorResponse.ITSGStep | MakeDetectorResponse.py:262-274 | The IceTop shower-generator stage never raises, runs exactly when enabled, and after it the shower input is set exactly when the stage ran or it was set before. |
| DetectorResponse.InIceBgStep | MakeDetectorResponse.py:275-304 | The in-ice background stage runs the CORSIKA background; polyplopia follows only if a shower input exists, otherwise the stage raises the unbound-`inputFile` error after the background run. |
| DetectorResponse.ClsimStep | MakeDetectorResponse.py:306-321 | The photon-propagation stage runs exactly when enabled and the shower input exists, and raises the unbound-`inputFile` error when enabled without one. |
| DetectorResponse.DetectorStep | MakeDetectorResponse.py:323-337 | The detector stage runs exactly when enabled and the shower input exists, and raises the unbound-`inputFile` error when enabled without one. |
| DetectorResponse.Lv1Step | MakeDetectorResponse.py:339-359 | The level 1 stage never raises, runs exactly when enabled, and after it the level 1 file is set exactly when the stage ran or it was set before. |
| DetectorResponse.Lv2Step | MakeDetectorResponse.py:361-370 | The level 2 stage runs exactly when enabled and a level 1 file exists, and raises the unbound-`LV1File` error when enabled without one. |
| DetectorResponse.Lv3Step | MakeDetectorResponse.py:372-390 | The level 3 stage never raises and runs exactly when enabled. |
| DetectorResponse.FrontMeaning | MakeDetectorResponse.py:262-337 | Up to the detector stage, the run fails with the unbound-`inputFile` error exactly when the shower generator is off and a later shower stage is on; without the error the enabled front stages run in order, with it only the background run (if enabled) happened. |
| DetectorResponse.BackMeaning | MakeDetectorResponse.py:339-390 | From a clean front, the filter stages fail with the unbound-`LV1File` error exactly when level 2 is on and level 1 is off (and then none of them ran); otherwise level 1, 2 and 3 run in order as enabled. |
| DetectorResponse.ChainMeaning | MakeDetectorResponse.py:256-393 | For one item: the error is the unbound `inputFile` exactly when the shower generator is off and a shower stage is on, otherwise the unbound `LV1File` exactly when level 2 is on and level 1 off, otherwise none. Without an error all enabled stages run in pipeline order, each reading its predecessor's output; with an error only the stages before the failing one ran. |
| DetectorResponse.FakeExecute | MakeDetectorResponse.py:395-402 | Executing one script on the fake-generator submitter logs its key as started and removes it from the running table when its output was delivered, or records it as running otherwise. |
| DetectorResponse.ExecKeysSnoc | MakeDetectorResponse.py:395-402 | One more executed script adds exactly its key to the executed keys. |
| DetectorResponse.ExecuteAllSnoc | MakeDetectorResponse.py:395-402 | Executing one more script is one more `executeFile` on the state after the earlier ones. |
| DetectorResponse.FakeStartsOnlyExecs | MakeDetectorResponse.py:395-402 | On the fake-generator submitter the start log grows by exactly the keys of the executed scripts, in order. |
| DetectorResponse.FakeDrains | MakeDetectorResponse.py:395-402 | When every executed script delivers its output, the fake-generator submitter's running table ends with none of their keys and nothing else removed. |
| DetectorResponse.MinusTwice | MakeDetectorResponse.py:395-402 | Removing the keys already executed and then one more key is removing all of them at once. This is the step of `FakeDrains`. |
| DetectorResponse.ProcessRunner.constructor | MakeDetectorResponse.py:210-224 | The runner keeps the submitter, energies, input directory, filtering flag and options it was given. |
| DetectorResponse.ProcessRunner.GeneratorKeys | MakeDetectorResponse.py:226-254 | The key generator returns the items, and the error, of the reference reading of all energy folders. |
| DetectorResponse.ProcessRunner.KeysTurn | MakeDetectorResponse.py:238-254 | One energy either extends the gathered items by that energy's bin or ends with the error the reference reading ends with. |
| DetectorResponse.ProcessRunner.ExecuteFile | MakeDetectorResponse.py:395-402 | Executing one script changes the submitter's pool state exactly as one start-and-communicate step does, and keeps the submitter valid. |
| DetectorResponse.ProcessRunner.Run | MakeDetectorResponse.py:256-393 | One stage call of `run_processes` returns what the stage method returns. It records the call, and keeps the submitter's pool in step with the scripts executed so far. |
| DetectorResponse.ProcessRunner.ITSGBlock | MakeDetectorResponse.py:262-274 | The shower-generator block performs exactly the step `ITSGStep` describes and leaves the submitter in step with the recorded scripts. |
| DetectorResponse.ProcessRunner.InIceBgBlock | MakeDetectorResponse.py:275-304 | The background block performs exactly the step `InIceBgStep` describes, error included. |
| DetectorResponse.ProcessRunner.ClsimBlock | MakeDetectorResponse.py:306-321 | The photon-propagation block performs exactly the step `ClsimStep` describes, error included. |
| DetectorResponse.ProcessRunner.DetectorBlock | MakeDetectorResponse.py:323-337 | The detector block performs exactly the step `DetectorStep` describes, error included. |
| DetectorResponse.ProcessRunner.Lv1Block | MakeDetectorResponse.py:339-359 | The level 1 block performs exactly the step `Lv1Step` describes. |
| DetectorResponse.ProcessRunner.Lv2Block | MakeDetectorResponse.py:361-370 | The level 2 block performs exactly the step `Lv2Step` describes, error included. |
| DetectorResponse.ProcessRunner.Lv3Block | MakeDetectorResponse.py:372-390 | The level 3 block performs exactly the step `Lv3Step` describes. |
| DetectorResponse.ProcessRunner.RunProcesses | MakeDetectorResponse.py:256-393 | Running one item raises exactly the error `ChainMeaning` names and leaves the submitter's pool as after executing, one after the other, the scripts of the stages that ran. |
| RemoveErrSim.ClassifyPrefixes | remove_err_sim.py:55-72 | A last line starting with `INFO` means the job finished; one starting with `Exception`, `RuntimeError` or `json.decoder.JSONDecodeError` means it failed; a line classed as neither starts with neither `INFO` nor `Exception`. |
| RemoveErrSim.BasenameAfterSlash | remove_err_sim.py:61 | The base name of a globbed path is the file name after the last slash. |
| RemoveErrSim.ReplaceErrSuffix | remove_err_sim.py:61 | Removing every `.err` from a log name without other dots gives the name without its suffix. |
| RemoveErrSim.TargetOfLog | remove_err_sim.py:61-64 | The output removed for the log `name.err` of an energy folder is `path/data/en/name.i3.bz2`. |
| RemoveErrSim.Target | remove_err_sim.py:61-64 | The output of a log lies in the `data/{en}/` folder of its output folder and ends in `.i3.bz2`. |
| RemoveErrSim.FileStep | remove_err_sim.py:52-72 | Handling one log only ever deletes files and appends to the removal log. |
| RemoveErrSim.Fold | remove_err_sim.py:45-72 | The whole walk only ever deletes files and appends to the removal log. |
| RemoveErrSim.GlobErr | remove_err_sim.py:49 | Every globbed path lies in the energy's log folder and ends in `.err`, and every `.err` entry of that folder is globbed. |
| RemoveErrSim.GlobbedPath | remove_err_sim.py:49 | A name the glob pattern matches gives a path inside the log folder ending in `.err`. |
| RemoveErrSim.FolderJobs | remove_err_sim.py:51 | The jobs of one energy folder are its sorted logs, one each, in order. |
| RemoveErrSim.PathJobsPrefix | remove_err_sim.py:47-51 | The logs looked at in the first energy folders are a prefix of those of the whole output folder. |
| RemoveErrSim.AllJobsPrefix | remove_err_sim.py:45-51 | The logs looked at in the first output folders are a prefix of those of the whole walk. |
| RemoveErrSim.PathJobsSnoc | remove_err_sim.py:47-51 | One more energy folder appends exactly its sorted logs to the walk. |
| RemoveErrSim.AllJobsSnoc | remove_err_sim.py:45-51 | One more output folder appends exactly its energy folders' logs to the walk. |
| RemoveErrSim.FoldAppend | remove_err_sim.py:45-72 | Walking two runs of logs one after the other is walking their concatenation. |
| RemoveErrSim.FoldFromStopped | remove_err_sim.py:70-72 | Once the script has exited or raised, no later log changes anything. |
| RemoveErrSim.FoldStoppedPrefix | remove_err_sim.py:70-72 | If the walk stops within a prefix of the logs, the whole walk ends in that same state. |
| RemoveErrSim.StopsAt | remove_err_sim.py:51-54 | A log that is empty or whose last line is neither a failure nor `INFO` stops the walk there, and nothing after it matters. |
| RemoveErrSim.FoldShrinks | remove_err_sim.py:61-67 | The walk only deletes files and only appends to the removal log; a file that existed is gone afterwards exactly when the walk logged its removal. |
| RemoveErrSim.OnlyFailedTargets | remove_err_sim.py:56-69 | A file that is not the output of a failed log exists after the walk exactly when it existed before: finished logs and missing outputs change nothing. |
| RemoveErrSim.FailedTargetsGone | remove_err_sim.py:56-67 | When the walk runs to the end, the output of every failed log no longer exists. |
| RemoveErrSim.RunsToEndIff | remove_err_sim.py:51-72 | The walk runs to the end exactly when it had not stopped and no log is empty or ends with an unrecognised line. |
| RemoveErrSim.Disk.constructor | remove_err_sim.py:62-64 | The file system starts with the given files. |
| RemoveErrSim.Disk.Remove | remove_err_sim.py:64 | Removing an existing file deletes exactly that file. |
| RemoveErrSim.ProcessFile | remove_err_sim.py:52-72 | Handling one log (reading its last line, removing a failed job's output if it exists, stopping on an empty log or an unknown line) changes the files, the removal log and the stop state as one step of the reference walk. |
| RemoveErrSim.ProcessFolder | remove_err_sim.py:49-72 | The loop over one energy folder's sorted logs ends in the state of the reference walk over those logs. |
| RemoveErrSim.ProcessPath | remove_err_sim.py:46-72 | The loop over one output folder's sorted energies ends in the state of the reference walk over all its logs. |
| RemoveErrSim.EnergyTurn | remove_err_sim.py:47-72 | One energy either extends the walk by that folder's logs or stops it in the state of the walk over the whole output folder. |
| RemoveErrSim.RemoveErrSim | remove_err_sim.py:37-72 | The script ends with the files, the removal log and the stop (exit or raised error) of the reference walk over all logs of all output folders; with the lemmas above, exactly the outputs of failed logs up to the first stopping log are deleted. |
| RemoveErrSim.PathTurn | remove_err_sim.py:45-72 | One output folder either extends the walk by its logs or stops it in the state of the whole walk. |
| Sorting.LexLeqTotal | utils/ProcessRunner.py:43-45 | Python's string order compares any two names. |
| Sorting.LexLeqTransitive | utils/ProcessRunner.py:43-45 | Python's string order is transitive. |
| Sorting.LexLeqAntisymmetric | utils/ProcessRunner.py:43-45 | Two names each at most the other are equal, so the sorted order of a listing is unambiguous. |
| Sorting.InsertPermutes | remove_err_sim.py:47 | Inserting a name into a listing adds exactly that name. |
| Sorting.InsertSorted | remove_err_sim.py:47 | Inserting into a sorted listing keeps it sorted. |
| Sorting.SortSorts | remove_err_sim.py:47 | `sorted` returns an ordered permutation of its input. |
| Sorting.SortedPermutationUnique | remove_err_sim.py:47 | Two ordered permutations of one listing are equal, so `sorted` is determined by the listing's contents. |
| Strings.ZeroPadInjective | utils/FileWriter.py:50 | Zero-padding to a fixed width never gives two run numbers the same text. |
| Strings.FormatIntInjective | utils/FileWriter.py:50 | Formatting with `{0:05d}` never gives two integers, negative ones included, the same text. |
| Strings.FormatInt | utils/FileWriter.py:50 | A formatted number is never empty, and it starts with `-` exactly when the number is negative. |
| Strings.ParseInt | utils/ProcessRunner.py:52 | `int("")` fails, and a text without a `-` never parses to a negative number. Whitespace around the number is stripped, and a single `_` may stand between two digits. |
| Strings.ParseDigits | utils/ProcessRunner.py:52 | A plain run of ASCII digits parses to its value. |
| Strings.ParseNegatedDigits | utils/ProcessRunner.py:52 | `-` followed by a plain run of digits parses to the negated value. |
| Strings.ParseIntGrammar | utils/ProcessRunner.py:52 | `int("1_234")` is 1234 and `int(" 12\n")` is 12. `"1__2"`, `"_1"`, `"1_"` and `"- 1"` raise. |
| Strings.ParseZeroPad | utils/ProcessRunner.py:52 | `int` of a zero-padded number gives the number back. |
| Strings.ParseIntToString | utils/ProcessRunner.py:52 | `int(str(n))` is `n` for every integer. |
| Strings.PartitionTailFind | utils/ProcessRunner.py:52-53 | The part after `partition(sep)` is what follows the first occurrence of `sep`, or empty when there is none. |
| Strings.PartitionHeadMeaning | utils/DetectorSimulator.py:195 | The part before `partition(sep)` is a prefix of the text with no occurrence of `sep`, followed by `sep` whenever `sep` occurs. |

## Left out

- Process spawning, polling, killing and sleeping (`subprocess.Popen`, `communicate`, `kill`, `mp.Process`, `is_alive`, `time.sleep`): a running entry holds the submitted string as its handle. Which entries a scan finds finished, and what `communicate` returns, are parameters.
- Parallelism and timing: the pool's scans are a finite list of rounds and nothing runs concurrently.
- Submitter.Submitter.CheckRunningProcesses: Python polls until the pool is empty, possibly forever; here the rounds are a finite list, and the result says whether the pool drained within them.
- MultiProcesses.MultiProcesses.CheckProcesses: the same finite list of rounds, for the same reason.
- File I/O: `open`/`write`, `chmod`, `mkdir`, `os.listdir`/`isfile`, `os.path.exists` and the warnings printed around them. Listings and existence are parameters, a written file is its text, and the created folders and written files are recorded as sets or maps.
- The generators are evaluated eagerly. The card writes that Python performs when the pool pulls an item are made before the pool starts, so the interleaving of file writes with process starts is not captured.
- Floating-point energies: the `np.arange`/`np.around` grids, the float `binNumber`, `10**E` and the `.11E` `ERANGE` formatting. Energies are opaque labels, and the `ERANGE` values come in as given strings.
- ProcessRunner.ProcessRunner.RunProcesses: the energy is a float in the source (MakeDetectorResponse.py:420-427), and its printed text names the folder. The model takes that text as the label and the float as a separate `real` argument `logE`, which `get_radius` truncates (`DetectorSimulator.Trunc`). Nothing ties `logE` to the label.
- Strings.ParseInt: only characters below code point 128 are modelled. Python's `int()` also accepts non-ASCII decimal digits (such as Arabic-Indic or full-width digits) and strips non-ASCII whitespace (such as U+00A0 or U+3000). The model returns `None` for such text.
- `getEnergyID` (utils/runNumberGenerator.py:105-109): it has no return statement and no caller.
- The random antenna shifts, `numpy.genfromtxt` and the starshape library call of utils/RadioFilesGenerator.py:100-154: random, floating point and a foreign library. The antenna and starshape tables are parameters, with coordinates as opaque strings.
- Command-line parsing (`make_parser`, argparse, `sys.argv`): the parsed values are parameters.
- `submit_jobs.py` and `submit/submit_jobs_08.py`: they only wrap the cluster's `squeue`/`sbatch` commands.
- The stage methods of the detector simulator that MakeDetectorResponse.py calls (`run_ITShowerGenerator`, `run_corsikaBg`, `run_polyplopia`, `run_clsim`, `run_detector`, `run_lv1`, `run_lv2`, `run_lv3`): their source is not part of this model. What they return is the parameter `Sim`.
- `mainLoop` of MakeDetectorResponse.py is not modelled as one method. Its parts are: the Submitter on `generatorFake` (`FakePrimeEmpty`), the MultiProcesses pool over the `generatorKeys` items (the `Pool` lemmas) and `run_processes` per item (`RunProcesses`).
- In `MultiProcesses`, `functionToRun` is not called. An admitted entry records its arguments, and what the function does is modelled by `RunProcesses`.
- `mainCorsikaSim`'s energy grid (`np.arange`) is a parameter. Its other hard-coded settings are constants.
- Progress and diagnostic `print` calls.
- The radio `writeFile(runNumber, E1, E2)` call of utils/SimulationMaker.py:97 is an abstract effect. The request is recorded in the yielded job, because that call does not match `FileWriter.writeFile`'s parameters (see below).

## Known defects of the source

The model keeps these as the source has them.

- `getPrimaryID` (utils/runNumberGenerator.py:96-102) searches the zenith table, not the primary table. A primary ID is therefore found only for an angle (`RunNumbers.PrimaryIDReadsZenithTable`), and the radio run number cannot be composed for a real particle code.
- utils/SimulationMaker.py:23 imports `runNumberGenerator`, but utils/runNumberGenerator.py:31 defines `RunNumberGenerator`. The model reads the import as the class.
- utils/SimulationMaker.py:97 calls `writeFile` with three arguments, but utils/FileWriter.py:40 takes four.
- In `subWriter` (utils/SubFilesGenerator.py:63-72), the 75, 77.5 and 80 degree runtime branches are shadowed by the `>= 65` test. The computed runtime is never used either: the time limit is always `2-00:00:00` (utils/SubFilesGenerator.py:86).
- In `run_processes` of MakeDetectorResponse.py, `inputFile` is set only by the shower-generator stage. With that stage off, enabling polyplopia, clsim or the detector stage raises `UnboundLocalError` (`DetectorResponse.ChainMeaning`). The in-ice background stage raises after its CORSIKA background run has already been executed. Likewise, level 2 without level 1 raises on `LV1File`.
- `mainLoop` never puts `lv2` or `lv3` into `extraOptions` (MakeDetectorResponse.py:460-468). The level 2 and level 3 stages therefore always get `None` as extra options.
- `run_simITExDefault` joins the temp folder, which already ends in `/`, with `/` and the name (utils/DetectorSimulator.py:196-198), and the output folder ends in `/` before another `/` is added (utils/DetectorSimulator.py:171). The paths contain `//`. The model keeps these strings.
- remove_err_sim.py stops on an unrecognised last line with `sys.exit()`, which ends with status 0, so a caller cannot tell the stop from success. An empty `.err` file raises `IndexError` at `lines[-1]`.
