/** cor_prod_top.py: the stand-alone card writer of the first gamma
    production.  For one energy bin it writes a CORSIKA steering card for
    each process number of the bin's block, `end + 1` cards in all, into a
    fixed data directory.  The card files are the output; the `start`
    argument is only printed, so it is not a parameter here. */
module CorProdTop {
  import opened Wrappers
  import opened Strings
  import opened FileWriter

  /** `666 + 1` showers per energy bin. */
  const ShowersPerBin: int := 666 + 1
  const DataDir: string := "/lsdf/kit/ikp/projects/IceCube/sim/gamma-sim/"
  const Primary: int := 1
  const Username: string := "rn8463"
  /** `dataset = 13400.0`; the float arithmetic of the seed is exact here. */
  const Dataset: int := 13400
  /** `zen1`, `zen2`, `az1`, `az2` as Python prints them. */
  const Zen1: string := "0.0"
  const Zen2: string := "65.0"
  const Az1: string := "0.0"
  const Az2: string := "359.99"

  /** `procstart = int(binnum) * (666 + 1)`. */
  function ProcStart(e1: Energy): int
  {
    e1.bin * ShowersPerBin
  }

  /** `procend = int(binnum) * (666 + 1) + int(end)`. */
  function ProcEnd(e1: Energy, end: int): int
  {
    ProcStart(e1) + end
  }

  /** `"3{0:05d}".format(runnum)`. */
  function FileNo(runnum: int): (fn: string)
    ensures |fn| >= 1 && fn[0] == '3'
  {
    "3" + FormatInt(runnum, 5)
  }

  /** Different run numbers, of either sign, never share a file number. */
  lemma FileNoInjective(a: int, b: int)
    requires FileNo(a) == FileNo(b)
    ensures a == b
  {
    assert FormatInt(a, 5) == FileNo(a)[1..] == FileNo(b)[1..] == FormatInt(b, 5);
    FormatIntInjective(a, b, 5);
  }

  /** Run numbers below 10^5 give six characters from which the run number
      reads back. */
  lemma FileNoRoundTrip(runnum: int)
    requires 0 <= runnum < 100000
    ensures |FileNo(runnum)| == 6
    ensures ParseInt(FileNo(runnum)[1..]) == Some(runnum)
  {
    assert Pow10(5) == 100000;
    FormatIntMeaning(runnum, 5);
    assert FileNo(runnum)[1..] == ZeroPad(runnum, 5);
    ZeroPadWidth(runnum, 5);
    ParseZeroPad(runnum, 5);
  }

  /** The cards of this script ("3....." ) and of the generator's writer
      ("4.....") never share a file number. */
  lemma FileNoApartFromWriter(a: int, b: int)
    ensures FileNo(a) != FileNumber(b)
  {
    assert FileNo(a)[0] != FileNumber(b)[0];
  }

  /** `inp_name = datadir + "SIM" + fileno + ".inp"`. */
  function InpName(fileno: string): string
  {
    DataDir + "SIM" + fileno + ".inp"
  }

  /** The real-atmosphere parameters this script adds after ATMOD. */
  const AtmLines: seq<string> :=
    [ "ATMA    -69.7259        -2.79781        0.262692        -8.41695e-05    0.00207722\n",
      "ATMB    1111.7        1128.64        1413.98        587.688\n",
      "ATMC    766099.0        641716.0        588082.0         693300.0        5.4303203E9\n",
      "ATMLAY  760000.0        2200000.0       4040000.0        10000000.0\n" ]

  /** From ECUTS to ATMLAY: the shared physics options, the real
      atmosphere 0 and its parameters. */
  const TopOptions: seq<string> :=
    ["ECUTS        0.0500 0.0500 0.0100 0.0020\n"] + SharedOptions + ["ATMOD   0\n"] + AtmLines

  /** From NSHOW to ATMLAY. */
  function Physics(e1: Energy, e2: Energy): (lines: seq<string>)
    ensures |lines| == 6 + |TopOptions|
  {
    PhysicsHead(e1, e2, Primary, Zen1, Zen2, Az1, Az2) + TopOptions
  }

  /** Up to ATMOD this card has the lines the generator's writer puts
      there for the same settings, except for the spacing of ECUTS and the
      atmosphere model (0 here, 33 there); the atmosphere parameters
      follow. */
  lemma PhysicsAgainstWriter(e1: Energy, e2: Energy)
    ensures forall i :: 0 <= i < 23 && i != 6 && i != 22 ==>
              Physics(e1, e2)[i] == CardPhysics(e1, e2, Primary, Zen1, Zen2, Az1, Az2)[i]
    ensures Physics(e1, e2)[6] != CardPhysics(e1, e2, Primary, Zen1, Zen2, Az1, Az2)[6]
    ensures Physics(e1, e2)[22] != CardPhysics(e1, e2, Primary, Zen1, Zen2, Az1, Az2)[22]
    ensures Physics(e1, e2)[23..] == AtmLines
  {
    var mine := Physics(e1, e2);
    var theirs := CardPhysics(e1, e2, Primary, Zen1, Zen2, Az1, Az2);
    TopOptionsAgainstWriter();
    assert mine[6..] == TopOptions;
    assert theirs[6..] == WriterOptions;
    assert mine[..6] == theirs[..6];
    forall i | 0 <= i < 23 && i != 6 && i != 22 ensures mine[i] == theirs[i] {
      if i < 6 {
        assert mine[i] == mine[..6][i] && theirs[i] == theirs[..6][i];
      } else {
        assert mine[i] == TopOptions[i - 6] && theirs[i] == WriterOptions[i - 6];
      }
    }
  }

  /** The options of this card against the writer's, line by line. */
  lemma TopOptionsAgainstWriter()
    ensures |TopOptions| == 21 && |WriterOptions| == 17
    ensures forall i :: 1 <= i < 16 ==> TopOptions[i] == WriterOptions[i]
    ensures TopOptions[0] != WriterOptions[0] && TopOptions[16] != WriterOptions[16]
    ensures TopOptions[17..] == AtmLines
  {
    assert TopOptions[1..16] == SharedOptions == WriterOptions[1..16];
    assert TopOptions[0][9] == ' ' && WriterOptions[0][9] == '0';
    assert TopOptions[16][8] == '0' && WriterOptions[16][8] == '3';
    forall i | 1 <= i < 16 ensures TopOptions[i] == WriterOptions[i] {
      assert TopOptions[i] == TopOptions[1..16][i - 1] && WriterOptions[i] == WriterOptions[1..16][i - 1];
    }
  }

  /** The card of process number k around the physics block `physics`
      (the same for every card of a bin): its run number is k + 1, its
      seeds come from k, and it ends with the DIRECT, USER and EXIT lines. */
  function Card(k: int, e1: Energy, physics: seq<string>): TextFile
  {
    var fileno := FileNo(k + 1);
    TextFile(InpName(fileno), CardHead(fileno, SeedValue(Dataset, k)) + physics +
                              CardTail(DataDir + "temp", e1, fileno, Username))
  }

  /** The card is the head, the physics block and the tail, in that order. */
  lemma CardShape(k: int, e1: Energy, physics: seq<string>)
    ensures var card := Card(k, e1, physics);
            |card.chunks| == 8 + |physics| &&
            card.path == InpName(FileNo(k + 1)) &&
            card.chunks[..5] == CardHead(FileNo(k + 1), SeedValue(Dataset, k)) &&
            card.chunks[5..5 + |physics|] == physics &&
            card.chunks[5 + |physics|..] == CardTail(DataDir + "temp", e1, FileNo(k + 1), Username)
  {
    var fileno := FileNo(k + 1);
    var head := CardHead(fileno, SeedValue(Dataset, k));
    var tail := CardTail(DataDir + "temp", e1, fileno, Username);
    var lines := head + physics + tail;
    assert lines[..5] == head;
    assert lines[5..5 + |physics|] == physics;
    assert lines[5 + |physics|..] == tail;
  }

  /** The cards of the process numbers lo .. hi, both included, around one
      physics block. */
  function CardsWith(e1: Energy, physics: seq<string>, lo: int, hi: int): (cards: seq<TextFile>)
    ensures |cards| == if hi < lo then 0 else hi - lo + 1
    decreases hi - lo + 1
  {
    if hi < lo then [] else CardsWith(e1, physics, lo, hi - 1) + [Card(hi, e1, physics)]
  }

  /** The cards of the bin (e1, e2) for the process numbers lo .. hi. */
  function Cards(e1: Energy, e2: Energy, lo: int, hi: int): seq<TextFile>
  {
    CardsWith(e1, Physics(e1, e2), lo, hi)
  }

  /** The i-th card of the block is the card of process number lo + i. */
  lemma {:induction false} CardsAt(e1: Energy, physics: seq<string>, lo: int, hi: int, i: nat)
    requires lo + i <= hi
    ensures CardsWith(e1, physics, lo, hi)[i] == Card(lo + i, e1, physics)
    decreases hi - lo + 1
  {
    if lo + i < hi {
      CardsAt(e1, physics, lo, hi - 1, i);
    }
  }

  /** The module-level loop: for k from procstart to procend, both
      included, write the card of process number k. */
  method Produce(end: int, e1: Energy, e2: Energy) returns (cards: seq<TextFile>)
    ensures cards == Cards(e1, e2, ProcStart(e1), ProcEnd(e1, end))
  {
    var procstart := ProcStart(e1);
    var procend := procstart + end;
    ghost var physics := Physics(e1, e2);
    cards := [];
    var k := procstart;
    while k < procend + 1
      invariant procstart <= k <= if procstart <= procend then procend + 1 else procstart
      invariant cards == CardsWith(e1, physics, procstart, k - 1)
      decreases procend + 1 - k
    {
      var procnum := k;
      var runnum := k + 1;
      var seedval := SeedValue(Dataset, procnum);
      var fileno := FileNo(runnum);
      var inpName := DataDir + "SIM" + fileno + ".inp";
      var lines := CardHead(fileno, seedval) + Physics(e1, e2) + CardTail(DataDir + "temp", e1, fileno, Username);
      cards := cards + [TextFile(inpName, lines)];
      k := k + 1;
    }
  }

  /** A non-negative `end` gives `end + 1` cards; a negative one none. */
  lemma CardCount(end: int, e1: Energy, e2: Energy)
    ensures |Cards(e1, e2, ProcStart(e1), ProcEnd(e1, end))| == if end < 0 then 0 else end + 1
  {
  }

  /** Different file numbers give different card paths. */
  lemma InpNameInjective(a: string, b: string)
    requires InpName(a) == InpName(b)
    ensures a == b
  {
    var n := |DataDir| + 3;
    assert a == InpName(a)[n..|InpName(a)| - 4];
    assert b == InpName(b)[n..|InpName(b)| - 4];
  }

  /** Cards of different process numbers go to different files. */
  lemma CardPathsDiffer(e1: Energy, physics: seq<string>, p: int, q: int)
    requires p != q
    ensures Card(p, e1, physics).path != Card(q, e1, physics).path
  {
    if Card(p, e1, physics).path == Card(q, e1, physics).path {
      InpNameInjective(FileNo(p + 1), FileNo(q + 1));
      FileNoInjective(p + 1, q + 1);
    }
  }

  lemma CardsPathsDiffer(e1: Energy, physics: seq<string>, lo: int, hi: int, i: nat, j: nat)
    requires i < j && lo + j <= hi
    ensures CardsWith(e1, physics, lo, hi)[i].path != CardsWith(e1, physics, lo, hi)[j].path
  {
    var cards := CardsWith(e1, physics, lo, hi);
    CardsAt(e1, physics, lo, hi, i);
    CardsAt(e1, physics, lo, hi, j);
    CardPathsDiffer(e1, physics, lo + i, lo + j);
    assert cards[i] == Card(lo + i, e1, physics);
    assert cards[j] == Card(lo + j, e1, physics);
  }

  /** No two cards of a bin go to the same file (for the bin's physics
      block as for any other). */
  lemma CardPathsDistinct(e1: Energy, physics: seq<string>, lo: int, hi: int)
    ensures forall i, j :: 0 <= i < j < |CardsWith(e1, physics, lo, hi)| ==>
              CardsWith(e1, physics, lo, hi)[i].path != CardsWith(e1, physics, lo, hi)[j].path
  {
    forall i, j | 0 <= i < j < |CardsWith(e1, physics, lo, hi)|
      ensures CardsWith(e1, physics, lo, hi)[i].path != CardsWith(e1, physics, lo, hi)[j].path
    {
      CardsPathsDiffer(e1, physics, lo, hi, i, j);
    }
  }

  /** Cards of process numbers less than 10^8 apart carry different first
      seeds. */
  lemma CardSeedLinesDiffer(e1: Energy, physics: seq<string>, p: int, q: int)
    requires p != q && -100000000 < p - q < 100000000
    ensures |Card(p, e1, physics).chunks| > 2 && |Card(q, e1, physics).chunks| > 2
    ensures Card(p, e1, physics).chunks[2] != Card(q, e1, physics).chunks[2]
  {
    var cp := Card(p, e1, physics);
    var cq := Card(q, e1, physics);
    CardShape(p, e1, physics);
    CardShape(q, e1, physics);
    assert cp.chunks[2] == cp.chunks[..5][2];
    assert cq.chunks[2] == cq.chunks[..5][2];
    CardSeedsDiffer(Dataset, p, q, FileNo(p + 1), FileNo(q + 1));
  }

  lemma CardsSeedsDiffer(e1: Energy, physics: seq<string>, lo: int, hi: int, i: nat, j: nat)
    requires i < j && lo + j <= hi && hi - lo < 100000000
    ensures SeedLinesDiffer(CardsWith(e1, physics, lo, hi)[i], CardsWith(e1, physics, lo, hi)[j])
  {
    var cards := CardsWith(e1, physics, lo, hi);
    CardsAt(e1, physics, lo, hi, i);
    CardsAt(e1, physics, lo, hi, j);
    CardSeedLinesDiffer(e1, physics, lo + i, lo + j);
    assert cards[i] == Card(lo + i, e1, physics);
    assert cards[j] == Card(lo + j, e1, physics);
  }

  /** Two cards whose first SEED lines differ. */
  predicate SeedLinesDiffer(a: TextFile, b: TextFile)
  {
    |a.chunks| > 2 && |b.chunks| > 2 && a.chunks[2] != b.chunks[2]
  }

  /** No two of the cards share their first SEED line. */
  predicate SeedLinesDistinct(cards: seq<TextFile>)
  {
    forall i, j :: 0 <= i < j < |cards| ==> SeedLinesDiffer(cards[i], cards[j])
  }

  /** Within a block shorter than 10^8 the cards carry pairwise different
      first seeds. */
  lemma CardSeedsDistinct(e1: Energy, physics: seq<string>, lo: int, hi: int)
    requires hi - lo < 100000000
    ensures SeedLinesDistinct(CardsWith(e1, physics, lo, hi))
  {
    var cards := CardsWith(e1, physics, lo, hi);
    forall i, j | 0 <= i < j < |cards|
      ensures SeedLinesDiffer(cards[i], cards[j])
    {
      CardsSeedsDiffer(e1, physics, lo, hi, i, j);
    }
  }

  /** The RUNNR line of the card of process number k carries k + 1. */
  lemma CardRunNumber(k: int, e1: Energy, physics: seq<string>)
    requires 0 <= k + 1 < 100000
    ensures var line := Card(k, e1, physics).chunks[0];
            |line| == 15 && line[..9] == "RUNNR   3" && ParseInt(line[9..14]) == Some(k + 1)
  {
    var card := Card(k, e1, physics);
    CardShape(k, e1, physics);
    assert card.chunks[0] == card.chunks[..5][0] == "RUNNR   " + FileNo(k + 1) + "\n";
    FileNoRoundTrip(k + 1);
    assert card.chunks[0][9..14] == FileNo(k + 1)[1..];
  }
}
