/** utils/SubFilesGenerator.py: the SLURM batch script (`SIM<run>.sub`)
    that runs the MPI build of CORSIKA for one shower on the HoreKa
    cluster.

    The script is one `file.write` of a concatenation of lines; the model
    keeps the lines apart and the file holds `Unlines` of them.  The
    zenith angle is a real number, compared as Python compares floats
    with the integer and decimal constants of the source. */
module SubFilesGenerator {
  import opened Strings
  import FileWriter

  const DefaultPathCorsika := "/home/hk-project-radiohfi/bg5912/work/soft/corsika-77420/run/"
  const DefaultCorsikaExe := "/mpi_corsika77420Linux_SIBYLL_urqmd_thin_coreas_parallel_runner"

  /** Fixed lines of the batch script. */
  const TasksLine := "#SBATCH --ntasks-per-node=76"
  const CpusLine := "#SBATCH --cpus-per-task=1"
  const TimeLine := "#SBATCH --time=2-00:00:00"
  const LoadComment := "# Load MPI module (if necessary)"
  const ModuleComment := "# module load mpi"
  const ExecComment := "# Set the path to your MPI-Corsika executable"
  const FilesComment := "# Set the path to your input and output files"
  const RunComment := "# Run the MPI-Corsika executable"
  const OutputLine := "#SBATCH --output=/home/hk-project-radiohfi/bg5912/work/sims/GRAND/lukas/logs/_log%j.out"
  const ErrorLine := "#SBATCH --error=/home/hk-project-radiohfi/bg5912/work/sims/GRAND/lukas/logs/_log%j.err"
  const MpirunLine := "mpirun --bind-to core:overload-allowed --map-by core -report-bindings -np $SLURM_NTASKS $MPI_CORSIKA_EXEC $INPUT_FILE > $LOG_FILE"

  /** The constructor's arguments, kept as attributes. */
  datatype SubFilesGenerator = SubFilesGenerator(
    inpdir: string, logdir: string, runNumber: string, log10E1: string, zenith: real,
    pathCorsika: string, corsikaExe: string)

  /** `SubFilesGenerator(inpdir, logdir, runNumber, log10_E1, zenith)` with
      the default CORSIKA location. */
  function New(inpdir: string, logdir: string, runNumber: string, log10E1: string, zenith: real): (g: SubFilesGenerator)
    ensures g.pathCorsika == DefaultPathCorsika && g.corsikaExe == DefaultCorsikaExe
    ensures g.inpdir == inpdir && g.logdir == logdir && g.runNumber == runNumber
    ensures g.log10E1 == log10E1 && g.zenith == zenith
  {
    SubFilesGenerator(inpdir, logdir, runNumber, log10E1, zenith, DefaultPathCorsika, DefaultCorsikaExe)
  }

  /** The `if`/`elif` chain that picks a wall-clock limit from theta. */
  function Runtime(theta: real): string
  {
    if theta >= 65.0 then "10:00:00"
    else if theta >= 75.0 then "12:00:00"
    else if theta >= 77.5 then "16:00:00"
    else if theta >= 80.0 then "30:00:00"
    else "08:00:00"
  }

  /** The first test catches every angle the later tests could catch, so
      the chain picks one of two limits. */
  lemma RuntimeChoice(theta: real)
    ensures Runtime(theta) == "10:00:00" <==> theta >= 65.0
    ensures Runtime(theta) == "08:00:00" <==> theta < 65.0
    ensures Runtime(theta) != "12:00:00" && Runtime(theta) != "16:00:00" && Runtime(theta) != "30:00:00"
  {
  }

  /** `{inpdir}/{log10_E1}/`: the folder CORSIKA runs in. */
  function RunDir(g: SubFilesGenerator): string
  {
    g.inpdir + "/" + g.log10E1 + "/"
  }

  /** `{inpdir}/{log10_E1}/SIM{runNumber}.sub` */
  function SubPath(g: SubFilesGenerator): string
  {
    g.inpdir + "/" + g.log10E1 + "/SIM" + g.runNumber + ".sub"
  }

  /** `{inpdir}/{log10_E1}/SIM{runNumber}.inp` */
  function InpFile(g: SubFilesGenerator): string
  {
    g.inpdir + "/" + g.log10E1 + "/SIM" + g.runNumber + ".inp"
  }

  /** `{logdir}/{log10_E1}/DAT{runNumber}.log` */
  function LogFile(g: SubFilesGenerator): string
  {
    g.logdir + "/" + g.log10E1 + "/DAT" + g.runNumber + ".log"
  }

  /** `{inpdir}/{log10_E1}/DAT{runNumber}/`: where the leftovers go. */
  function DatDir(g: SubFilesGenerator): string
  {
    g.inpdir + "/" + g.log10E1 + "/DAT" + g.runNumber + "/"
  }

  /** The lines of the batch script, without their newlines.  The time
      limit is the literal `2-00:00:00`; the runtime the chain picks is not
      used. */
  function SubLines(g: SubFilesGenerator): (lines: seq<string>)
    ensures |lines| == 29
  {
    [ "#!/bin/bash",
      "#SBATCH --job-name=" + g.runNumber,
      OutputLine,
      ErrorLine,
      "#SBATCH --nodes=1",
      TasksLine,
      CpusLine,
      TimeLine,
      "",
      LoadComment,
      ModuleComment,
      ExecComment,
      "MPI_CORSIKA_EXEC='" + g.pathCorsika + "/" + g.corsikaExe + "'",
      "",
      FilesComment,
      "INPUT_FILE='" + InpFile(g) + "'",
      "LOG_FILE='" + LogFile(g) + "'",
      "",
      RunComment,
      "echo starting job number " + g.runNumber + " complete",
      "echo time: $(date)",
      MpirunLine,
      "rm " + RunDir(g) + "/starshapes/",
      "mkdir " + DatDir(g),
      "echo created " + DatDir(g),
      "mv " + RunDir(g) + "/DAT??????-* " + DatDir(g),
      "mv " + RunDir(g) + "/corsika-timetable-* " + DatDir(g),
      "echo job number " + g.runNumber + " complete",
      "echo time: $(date)" ]
  }

  /** `subWriter()`: the file it writes. */
  function SubWriter(g: SubFilesGenerator): (f: FileWriter.TextFile)
    ensures f.path == SubPath(g)
  {
    FileWriter.TextFile(SubPath(g), [Unlines(SubLines(g))])
  }

  /** The batch script does not depend on the zenith angle: the runtime
      chosen from it never reaches the file. */
  lemma SubIgnoresZenith(g: SubFilesGenerator, theta: real)
    ensures SubWriter(g.(zenith := theta)) == SubWriter(g)
  {
  }

  /** The script is a bash script named after the run, with a fixed time
      limit of two days, reading the run's card and writing its log. */
  lemma SubHeader(g: SubFilesGenerator)
    ensures var lines := SubLines(g);
      lines[0] == "#!/bin/bash" && lines[1] == "#SBATCH --job-name=" + g.runNumber &&
      lines[7] == TimeLine &&
      lines[15] == "INPUT_FILE='" + InpFile(g) + "'" && lines[16] == "LOG_FILE='" + LogFile(g) + "'"
  {
  }

  /** The folder the script creates after the run is the one both `mv`
      lines move into, and it lies in the run's folder. */
  lemma SubMovesIntoNewFolder(g: SubFilesGenerator)
    ensures var lines := SubLines(g); var d := DatDir(g);
      lines[23] == "mkdir " + d &&
      EndsWith(lines[25], " " + d) && EndsWith(lines[26], " " + d) &&
      StartsWith(lines[25], "mv " + RunDir(g)) && StartsWith(lines[26], "mv " + RunDir(g)) &&
      StartsWith(d, RunDir(g))
  {
    var lines := SubLines(g);
    var d := DatDir(g);
    assert lines[25] == ("mv " + RunDir(g)) + "/DAT??????-*" + (" " + d);
    assert lines[26] == ("mv " + RunDir(g)) + "/corsika-timetable-*" + (" " + d);
    assert d == RunDir(g) + ("DAT" + g.runNumber + "/");
  }

  /** The `.sub` file sits beside the card it runs: the two paths differ
      only in their extension. */
  lemma SubBesideCard(g: SubFilesGenerator)
    ensures |SubPath(g)| == |InpFile(g)|
    ensures SubPath(g)[..|SubPath(g)| - 4] == InpFile(g)[..|InpFile(g)| - 4]
    ensures EndsWith(SubPath(g), ".sub") && EndsWith(InpFile(g), ".inp")
  {
    var stem := g.inpdir + "/" + g.log10E1 + "/SIM" + g.runNumber;
    assert SubPath(g) == stem + ".sub" && InpFile(g) == stem + ".inp";
    assert SubPath(g)[..|stem|] == stem && InpFile(g)[..|stem|] == stem;
  }

  /** Two runs of one energy folder never share a batch script. */
  lemma SubPathInjective(g: SubFilesGenerator, h: SubFilesGenerator)
    requires g.inpdir == h.inpdir && g.log10E1 == h.log10E1
    requires SubPath(g) == SubPath(h)
    ensures g.runNumber == h.runNumber
  {
    var head := g.inpdir + "/" + g.log10E1 + "/SIM";
    var p := SubPath(g);
    assert g.runNumber == p[|head|..|p| - 4];
    assert h.runNumber == SubPath(h)[|head|..|p| - 4];
  }
}
