/** utils/RadioFilesGenerator.py: the two extra input files CoREAS reads
    beside a CORSIKA card, the `.reas` steering file and the `.list` of
    antenna positions.

    The antenna coordinates are floating-point numbers shifted by a random
    offset; the model carries each coordinate as the text Python prints for
    it, and takes the rows read back from the antenna file (after the
    shift) as a parameter.  The starshape list comes from a foreign library
    and enters the same way. */
module RadioFilesGenerator {
  import opened Wrappers
  import opened Strings
  import opened FileWriter

  /** Fixed lines of the `.reas` template. */
  const ReasTitle := "# CoREAS V1.4 parameter file"
  const SpatialComment := "# parameters setting up the spatial observer configuration:"
  const CoreNorthLine := "CoreCoordinateNorth = 0                ; in cm"
  const CoreWestLine := "CoreCoordinateWest = 0                ; in cm"
  const TemporalComment := "# parameters setting up the temporal observer configuration:"
  const TimeResolutionLine := "TimeResolution = 2e-10                ; in s"
  const AutomaticBoundariesLine := "AutomaticTimeBoundaries = 1e-07            ; 0: off, x: automatic boundaries with width x in s"
  const LowerBoundaryLine := "TimeLowerBoundary = -1                ; in s, only if AutomaticTimeBoundaries set to 0"
  const UpperBoundaryLine := "TimeUpperBoundary = 1                ; in s, only if AutomaticTimeBoundaries set to 0"
  const ReductionScaleLine := "ResolutionReductionScale = 0            ; 0: off, x: decrease time resolution linearly every x cm in radius"
  const FunctionalityComment := "# parameters setting up the simulation functionality:"
  const RefractiveIndexLine := "GroundLevelRefractiveIndex = 1.00031200        ; specify refractive index at 0 m asl"
  const OfflineComment := "# event information for Offline simulations:"
  const EventNumberLine := "EventNumber = 1"
  const GpsSecsLine := "GPSSecs = 0"
  const GpsNanoSecsLine := "GPSNanoSecs = 0"
  const CoreEastingLine := "CoreEastingOffline = 0.0000                ; in meters"
  const CoreNorthingLine := "CoreNorthingOffline = 0.0000                ; in meters"
  const CoreVerticalOfflineLine := "CoreVerticalOffline = 0.0000                ; in meters"
  const CoordinateSystemLine := "OfflineCoordinateSystem = Reference                ; in meters"
  const DeclinationLine := "RotationAngleForMagfieldDeclination = 0.12532        ; in degrees"
  const CommentLine := "Comment ="
  const CorsikaPathLine := "CorsikaFilePath = ./"

  /** The lines of the `.reas` file; the file joins them with newlines, so
      the last one has none after it. */
  function ReasLines(obslev: string, runNumber: string): (lines: seq<string>)
    ensures |lines| == 26
  {
    ReasBody(obslev, runNumber) + [CardLine(runNumber)]
  }

  /** The last line: the CORSIKA card of the same run. */
  function CardLine(runNumber: string): string
  {
    "CorsikaParameterFile = SIM" + runNumber + ".inp"
  }

  /** Every line of the template but the last. */
  function ReasBody(obslev: string, runNumber: string): (lines: seq<string>)
    ensures |lines| == 25
  {
    ReasSetup(obslev) + ReasEvent(runNumber)
  }

  /** The observer, timing and simulation settings. */
  function ReasSetup(obslev: string): (lines: seq<string>)
    ensures |lines| == 13
  {
    [ ReasTitle,
      SpatialComment,
      CoreNorthLine,
      CoreWestLine,
      "CoreCoordinateVertical = " + obslev + "      ; in cm",
      TemporalComment,
      TimeResolutionLine,
      AutomaticBoundariesLine,
      LowerBoundaryLine,
      UpperBoundaryLine,
      ReductionScaleLine,
      FunctionalityComment,
      RefractiveIndexLine ]
  }

  /** The event information for Offline, up to the line before the card. */
  function ReasEvent(runNumber: string): (lines: seq<string>)
    ensures |lines| == 12
  {
    [ OfflineComment,
      EventNumberLine,
      "RunNumber = " + runNumber + " ",
      GpsSecsLine,
      GpsNanoSecsLine,
      CoreEastingLine,
      CoreNorthingLine,
      CoreVerticalOfflineLine,
      CoordinateSystemLine,
      DeclinationLine,
      CommentLine,
      CorsikaPathLine ]
  }

  /** `{directory}/{log10_E1}/SIM{runNumber}.reas` */
  function ReasPath(directory: string, log10E1: string, runNumber: string): string
  {
    directory + "/" + log10E1 + "/SIM" + runNumber + ".reas"
  }

  /** `{directory}/{log10_E1}/SIM{runNumber}.list` */
  function ListPath(directory: string, log10E1: string, runNumber: string): string
  {
    directory + "/" + log10E1 + "/SIM" + runNumber + ".list"
  }

  /** What `reasWriter` writes: one `file.write` of the whole template. */
  function ReasFile(directory: string, log10E1: string, runNumber: string, obslev: string): (f: TextFile)
    ensures f.path == ReasPath(directory, log10E1, runNumber) && |f.chunks| == 1
  {
    TextFile(ReasPath(directory, log10E1, runNumber), [JoinWith(ReasLines(obslev, runNumber), '\n')])
  }

  /** The `.reas` text ends with the line naming the CORSIKA card of the
      same run, with no newline after it, and the newline before that line
      closes the template's previous line. */
  lemma ReasEndsWithCard(obslev: string, runNumber: string)
    ensures var text := ReasFile("", "", runNumber, obslev).chunks[0];
      var last := CardLine(runNumber);
      EndsWith(text, last) && |last| < |text| && text[|text| - |last| - 1] == '\n' &&
      EndsWith(text, ".inp")
  {
    var body := ReasBody(obslev, runNumber);
    var last := CardLine(runNumber);
    JoinWithSnoc(body, last, '\n');
    var head := JoinWith(body, '\n') + ['\n'];
    var text := head + last;
    assert text[|head|..] == last;
    assert last == ("CorsikaParameterFile = SIM" + runNumber) + ".inp";
    assert text[|text| - 4..] == last[|last| - 4..];
  }

  /** The observer sits at the core: north and west offsets zero, the
      vertical coordinate the observation level, and the run number is
      written into the file. */
  lemma ReasObserver(obslev: string, runNumber: string)
    ensures var lines := ReasLines(obslev, runNumber);
      lines[2] == CoreNorthLine && lines[3] == CoreWestLine &&
      lines[4] == "CoreCoordinateVertical = " + obslev + "      ; in cm" &&
      lines[15] == "RunNumber = " + runNumber + " "
  {
    var setup := ReasSetup(obslev);
    var event := ReasEvent(runNumber);
    assert ReasLines(obslev, runNumber) == setup + event + [CardLine(runNumber)];
    assert event[2] == "RunNumber = " + runNumber + " ";
  }

  /** The `.reas` and `.list` files of one run share their stem and
      differ only in the extension. */
  lemma ReasBesideList(directory: string, log10E1: string, runNumber: string)
    ensures var r := ReasPath(directory, log10E1, runNumber);
      var l := ListPath(directory, log10E1, runNumber);
      |r| == |l| && r[..|r| - 5] == l[..|l| - 5] && EndsWith(r, ".reas") && EndsWith(l, ".list")
  {
    var stem := directory + "/" + log10E1 + "/SIM" + runNumber;
    assert ReasPath(directory, log10E1, runNumber) == stem + ".reas";
    assert ListPath(directory, log10E1, runNumber) == stem + ".list";
    assert (stem + ".reas")[..|stem|] == stem && (stem + ".list")[..|stem|] == stem;
  }

  /** One antenna as a row of the `.list` file: `AntennaPosition = x y z
      name`, each coordinate the text Python prints for it. */
  datatype Position = Position(x: string, y: string, z: string, name: string)

  /** The line `listWriter` writes for one antenna. */
  function ListLine(p: Position): string
  {
    "AntennaPosition = " + Fields(p) + "\n"
  }

  /** `x y z name`: the antenna's columns separated by single spaces. */
  function Fields(p: Position): string
  {
    p.x + " " + (p.y + " " + (p.z + " " + p.name))
  }

  /** The four columns of an antenna, separated by single spaces, split
      back into those columns. */
  lemma FieldsReadBack(p: Position)
    requires ' ' !in p.x && ' ' !in p.y && ' ' !in p.z && ' ' !in p.name
    ensures SplitOn(Fields(p), ' ') == [p.x, p.y, p.z, p.name]
  {
    var t4 := p.z + [' '] + p.name;
    var t3 := p.y + [' '] + t4;
    SplitOnNone(p.name, ' ');
    SplitOnPrefix(p.z, p.name, ' ');
    assert SplitOn(t4, ' ') == [p.z, p.name];
    SplitOnPrefix(p.y, t4, ' ');
    assert SplitOn(t3, ' ') == [p.y, p.z, p.name];
    SplitOnPrefix(p.x, t3, ' ');
    assert Fields(p) == p.x + [' '] + t3;
  }

  /** A line of the list splits at its spaces into the six columns
      `numpy.genfromtxt` reads, columns 2 to 5 being the antenna's own, as
      long as no coordinate or name holds a space. */
  lemma ListLineReadBack(p: Position)
    requires ' ' !in p.x && ' ' !in p.y && ' ' !in p.z && ' ' !in p.name
    ensures var line := ListLine(p);
      line[|line| - 1] == '\n' &&
      SplitOn(line[..|line| - 1], ' ') == ["AntennaPosition", "=", p.x, p.y, p.z, p.name]
  {
    var line := ListLine(p);
    var fields := Fields(p);
    var t1 := "=" + [' '] + fields;
    var body := "AntennaPosition" + [' '] + t1;
    assert "AntennaPosition = " == "AntennaPosition" + [' '] + "=" + [' '];
    assert line == body + "\n";
    assert line[..|line| - 1] == body;
    FieldsReadBack(p);
    SplitOnPrefix("=", fields, ' ');
    SplitOnPrefix("AntennaPosition", t1, ' ');
  }

  /** `antennaInfo[key][i]`: a missing key raises `KeyError`, an index past
      the column's end `IndexError`. */
  function Column(info: map<string, seq<string>>, key: string, i: nat): (r: Result<string>)
    ensures r.Ok? <==> key in info && i < |info[key]|
    ensures key !in info ==> r == Err(KeyError(key))
  {
    if key !in info then Err(KeyError(key))
    else if i < |info[key]| then Ok(info[key][i])
    else Err(IndexError)
  }

  /** `key` is a column with at least n entries. */
  predicate Covers(info: map<string, seq<string>>, key: string, n: nat)
  {
    key in info && n <= |info[key]|
  }

  /** The f-string of line i, looking up x, y, z and name in that order. */
  function LineAt(info: map<string, seq<string>>, i: nat): (r: Result<string>)
    ensures r.Ok? <==> Covers(info, "x", i + 1) && Covers(info, "y", i + 1) && Covers(info, "z", i + 1) && Covers(info, "name", i + 1)
    ensures r.Ok? ==> r.value == ListLine(Position(info["x"][i], info["y"][i], info["z"][i], info["name"][i]))
  {
    match Column(info, "x", i)
    case Err(e) => Err(e)
    case Ok(x) =>
      match Column(info, "y", i)
      case Err(e) => Err(e)
      case Ok(y) =>
        match Column(info, "z", i)
        case Err(e) => Err(e)
        case Ok(z) =>
          match Column(info, "name", i)
          case Err(e) => Err(e)
          case Ok(name) => Ok(ListLine(Position(x, y, z, name)))
  }

  /** The writes of lines 0 .. n - 1, stopping at the first that raises. */
  function ListLines(info: map<string, seq<string>>, n: nat): Result<seq<string>>
    decreases n
  {
    if n == 0 then Ok([])
    else
      match ListLines(info, n - 1)
      case Err(e) => Err(e)
      case Ok(lines) =>
        match LineAt(info, n - 1)
        case Err(e) => Err(e)
        case Ok(line) => Ok(lines + [line])
  }

  /** The first n lines are written iff each of them can be formed, and
      then they are those lines, in order. */
  lemma {:induction false} ListLinesMeaning(info: map<string, seq<string>>, n: nat)
    ensures ListLines(info, n).Ok? <==> forall i :: 0 <= i < n ==> LineAt(info, i).Ok?
    ensures ListLines(info, n).Ok? ==>
      |ListLines(info, n).value| == n &&
      forall i :: 0 <= i < n ==> ListLines(info, n).value[i] == LineAt(info, i).value
    decreases n
  {
    if n > 0 {
      ListLinesMeaning(info, n - 1);
    }
  }

  /** The first line that cannot be formed decides the error of the whole
      list. */
  lemma {:induction false} ListLinesStops(info: map<string, seq<string>>, i: nat, n: nat)
    requires i < n && ListLines(info, i).Ok? && LineAt(info, i).Err?
    ensures ListLines(info, n) == Err(LineAt(info, i).error)
    decreases n
  {
    if n > i + 1 {
      ListLinesStops(info, i, n - 1);
    }
  }

  /** What `listWriter` writes: one line per entry of the "x" column, each
      line one `f.write`. */
  function ListFile(directory: string, log10E1: string, runNumber: string, info: map<string, seq<string>>): Result<TextFile>
  {
    if "x" !in info then Err(KeyError("x"))
    else
      match ListLines(info, |info["x"]|)
      case Err(e) => Err(e)
      case Ok(lines) => Ok(TextFile(ListPath(directory, log10E1, runNumber), lines))
  }

  /** The list is written iff there is an "x" column and, unless it is
      empty, the "y", "z" and "name" columns are at least as long. */
  lemma ListOkIff(directory: string, log10E1: string, runNumber: string, info: map<string, seq<string>>)
    ensures "x" !in info ==> ListFile(directory, log10E1, runNumber, info) == Err(KeyError("x"))
    ensures ListFile(directory, log10E1, runNumber, info).Ok? <==>
      "x" in info &&
      (|info["x"]| == 0 ||
       (Covers(info, "y", |info["x"]|) && Covers(info, "z", |info["x"]|) && Covers(info, "name", |info["x"]|)))
  {
    if "x" in info {
      var n := |info["x"]|;
      ListLinesMeaning(info, n);
      if n > 0 && ListLines(info, n).Ok? {
        assert LineAt(info, n - 1).Ok?;
      }
    }
  }

  /** The dictionary after `get_antennaPositions` / `get_starshapes` has
      stored the four columns of the rows of a `.list` file. */
  function Stored(info: map<string, seq<string>>, rows: seq<Position>): map<string, seq<string>>
  {
    info["x" := seq(|rows|, i requires 0 <= i < |rows| => rows[i].x)]
        ["y" := seq(|rows|, i requires 0 <= i < |rows| => rows[i].y)]
        ["z" := seq(|rows|, i requires 0 <= i < |rows| => rows[i].z)]
        ["name" := seq(|rows|, i requires 0 <= i < |rows| => rows[i].name)]
  }

  /** One line per row, in the rows' order. */
  function RowLines(rows: seq<Position>): seq<string>
  {
    seq(|rows|, i requires 0 <= i < |rows| => ListLine(rows[i]))
  }

  /** Once the antenna rows are stored, whatever else the dictionary holds,
      the list holds exactly one line per antenna, in order. */
  lemma ListOfRows(directory: string, log10E1: string, runNumber: string, info: map<string, seq<string>>, rows: seq<Position>)
    ensures ListFile(directory, log10E1, runNumber, Stored(info, rows)) ==
      Ok(TextFile(ListPath(directory, log10E1, runNumber), RowLines(rows)))
  {
    var m := Stored(info, rows);
    ListLinesMeaning(m, |rows|);
    forall i | 0 <= i < |rows|
      ensures LineAt(m, i).Ok? && LineAt(m, i).value == ListLine(rows[i])
    {
      assert m["x"][i] == rows[i].x && m["y"][i] == rows[i].y;
      assert m["z"][i] == rows[i].z && m["name"][i] == rows[i].name;
    }
    assert ListLines(m, |rows|).value == RowLines(rows);
  }

  /** The generator of one run's CoREAS inputs.  `antennaInfo` and
      `starshapeInfo` are the dictionaries the class fills in place. */
  class RadioFilesGenerator {
    const directory: string
    const obslev: string
    const runNumber: string
    const log10E1: string
    const pathStarshapes: string
    const pathAntennas: string
    const zenith: string
    const azimuth: string
    var antennaInfo: map<string, seq<string>>
    var starshapeInfo: map<string, seq<string>>

    constructor(directory: string, obslev: string, runNumber: string, log10E1: string,
                pathStarshapes: string, pathAntennas: string, zenith: string, azimuth: string)
      ensures this.directory == directory && this.obslev == obslev && this.runNumber == runNumber
      ensures this.log10E1 == log10E1 && this.pathStarshapes == pathStarshapes
      ensures this.pathAntennas == pathAntennas && this.zenith == zenith && this.azimuth == azimuth
      ensures antennaInfo == map[] && starshapeInfo == map[]
    {
      this.directory := directory;
      this.obslev := obslev;
      this.runNumber := runNumber;
      this.log10E1 := log10E1;
      this.pathStarshapes := pathStarshapes;
      this.pathAntennas := pathAntennas;
      this.zenith := zenith;
      this.azimuth := azimuth;
      antennaInfo := map[];
      starshapeInfo := map[];
    }

    /** `reasWriter()` */
    function ReasWriter(): (f: TextFile)
    {
      ReasFile(directory, log10E1, runNumber, obslev)
    }

    /** `get_antennaPositions()`, given the rows of the antenna file with
        the random shift already applied to x and y: the four columns are
        stored, and nothing else changes. */
    method GetAntennaPositions(rows: seq<Position>)
      modifies this
      ensures antennaInfo == Stored(old(antennaInfo), rows)
      ensures starshapeInfo == old(starshapeInfo)
    {
      antennaInfo := antennaInfo["x" := seq(|rows|, i requires 0 <= i < |rows| => rows[i].x)];
      antennaInfo := antennaInfo["y" := seq(|rows|, i requires 0 <= i < |rows| => rows[i].y)];
      antennaInfo := antennaInfo["z" := seq(|rows|, i requires 0 <= i < |rows| => rows[i].z)];
      antennaInfo := antennaInfo["name" := seq(|rows|, i requires 0 <= i < |rows| => rows[i].name)];
    }

    /** `get_starshapes()`, given the rows of the starshape list the foreign
        library writes: the four columns are stored, and nothing else
        changes. */
    method GetStarshapes(rows: seq<Position>)
      modifies this
      ensures starshapeInfo == Stored(old(starshapeInfo), rows)
      ensures antennaInfo == old(antennaInfo)
    {
      starshapeInfo := starshapeInfo["x" := seq(|rows|, i requires 0 <= i < |rows| => rows[i].x)];
      starshapeInfo := starshapeInfo["y" := seq(|rows|, i requires 0 <= i < |rows| => rows[i].y)];
      starshapeInfo := starshapeInfo["z" := seq(|rows|, i requires 0 <= i < |rows| => rows[i].z)];
      starshapeInfo := starshapeInfo["name" := seq(|rows|, i requires 0 <= i < |rows| => rows[i].name)];
    }

    /** `listWriter()`: the loop over the indices of the "x" column; only
        the detector antennas are written. */
    method ListWriter() returns (r: Result<TextFile>)
      ensures r == ListFile(directory, log10E1, runNumber, antennaInfo)
    {
      if "x" !in antennaInfo {
        return Err(KeyError("x"));
      }
      var n := |antennaInfo["x"]|;
      var chunks := [];
      for i := 0 to n
        invariant ListLines(antennaInfo, i) == Ok(chunks)
      {
        var line := LineAt(antennaInfo, i);
        if line.Err? {
          ListLinesStops(antennaInfo, i, n);
          return Err(line.error);
        }
        chunks := chunks + [line.value];
      }
      r := Ok(TextFile(ListPath(directory, log10E1, runNumber), chunks));
    }

    /** `writeReasList()`: the `.reas` file, then the antenna and starshape
        columns, then the list, which holds exactly the antenna rows. */
    method WriteReasList(antennaRows: seq<Position>, starshapeRows: seq<Position>)
      returns (reas: TextFile, list: Result<TextFile>)
      modifies this
      ensures reas == ReasFile(directory, log10E1, runNumber, obslev)
      ensures antennaInfo == Stored(old(antennaInfo), antennaRows)
      ensures starshapeInfo == Stored(old(starshapeInfo), starshapeRows)
      ensures list == Ok(TextFile(ListPath(directory, log10E1, runNumber), RowLines(antennaRows)))
    {
      reas := ReasWriter();
      GetAntennaPositions(antennaRows);
      GetStarshapes(starshapeRows);
      list := ListWriter();
      ListOfRows(directory, log10E1, runNumber, old(antennaInfo), antennaRows);
    }
  }
}
