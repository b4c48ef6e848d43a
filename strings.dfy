/** The small part of Python's string behaviour the scripts rely on:
    `str(n)`, the `0Nd` integer format, `int(s)`, `startswith`, `endswith`,
    `partition`, `replace`, slicing from the end and `os.path.basename`. */
module Strings {
  import opened Wrappers

  predicate IsDigit(c: char) { '0' <= c <= '9' }

  predicate AllDigits(s: string) { forall i :: 0 <= i < |s| ==> IsDigit(s[i]) }

  function DigitValue(c: char): (d: nat)
    requires IsDigit(c)
    ensures d < 10
  {
    c as int - '0' as int
  }

  function DigitChar(d: nat): (c: char)
    requires d < 10
    ensures IsDigit(c) && DigitValue(c) == d
  {
    ('0' as int + d) as char
  }

  function Max(a: int, b: int): int { if a < b then b else a }

  function Pow10(k: nat): (p: nat)
    ensures p >= 1
  {
    if k == 0 then 1 else 10 * Pow10(k - 1)
  }

  /** Python `str(n)` for a non-negative integer: no sign, no leading zero. */
  function NatToString(n: nat): string
    decreases n
  {
    if n < 10 then [DigitChar(n)] else NatToString(n / 10) + [DigitChar(n % 10)]
  }

  /** `str(n)` is a non-empty run of digits with no leading zero. */
  lemma {:induction false} NatToStringDigits(n: nat)
    ensures |NatToString(n)| >= 1 && AllDigits(NatToString(n))
    ensures |NatToString(n)| > 1 ==> NatToString(n)[0] != '0'
    decreases n
  {
    if n >= 10 {
      NatToStringDigits(n / 10);
      var s := NatToString(n);
      assert s[0] == NatToString(n / 10)[0];
    }
  }

  /** The integer an all-digit string denotes (leading zeros allowed). */
  function DigitsValue(s: string): nat
    requires AllDigits(s)
  {
    if s == [] then 0 else 10 * DigitsValue(s[..|s| - 1]) + DigitValue(s[|s| - 1])
  }

  lemma {:induction false} NatToStringValue(n: nat)
    ensures AllDigits(NatToString(n))
    ensures DigitsValue(NatToString(n)) == n
    decreases n
  {
    NatToStringDigits(n);
    if n >= 10 {
      var s := NatToString(n);
      NatToStringDigits(n / 10);
      assert s[..|s| - 1] == NatToString(n / 10);
      NatToStringValue(n / 10);
    }
  }

  /** `str(n)` has at most k digits exactly when n < 10^k. */
  lemma {:induction false} NatToStringLength(n: nat, k: nat)
    requires k >= 1
    ensures |NatToString(n)| <= k <==> n < Pow10(k)
    decreases n
  {
    if n >= 10 {
      if k == 1 {
        NatToStringDigits(n / 10);
        assert |NatToString(n)| >= 2;
      } else {
        NatToStringLength(n / 10, k - 1);
      }
    } else if k > 1 {
      assert Pow10(k) == 10 * Pow10(k - 1);
    }
  }

  /** Left-pads an all-digit string with zeros to at least `width`
      characters. */
  function PadLeft(d: string, width: nat): (s: string)
    requires AllDigits(d)
    ensures AllDigits(s) && |s| == Max(width, |d|)
    decreases width - |d|
  {
    if |d| >= width then d else PadLeft("0" + d, width)
  }

  /** A leading zero does not change the value. */
  lemma {:induction false} PrependZeroValue(d: string)
    requires AllDigits(d)
    ensures AllDigits("0" + d) && DigitsValue("0" + d) == DigitsValue(d)
    decreases |d|
  {
    if d != [] {
      assert ("0" + d)[..|d|] == "0" + d[..|d| - 1];
      PrependZeroValue(d[..|d| - 1]);
    }
  }

  lemma {:induction false} PadLeftValue(d: string, width: nat)
    requires AllDigits(d)
    ensures DigitsValue(PadLeft(d, width)) == DigitsValue(d)
    decreases width - |d|
  {
    if |d| < width {
      PrependZeroValue(d);
      PadLeftValue("0" + d, width);
    }
  }

  /** Python `format(n, '0{width}d')` for n >= 0: the decimal digits of n,
      left-padded with zeros to at least `width` characters. */
  function ZeroPad(n: nat, width: nat): (s: string)
    ensures AllDigits(s)
    ensures |s| == Max(width, |NatToString(n)|)
  {
    NatToStringDigits(n);
    PadLeft(NatToString(n), width)
  }

  lemma ZeroPadValue(n: nat, width: nat)
    ensures DigitsValue(ZeroPad(n, width)) == n
  {
    NatToStringValue(n);
    PadLeftValue(NatToString(n), width);
  }

  /** A number below 10^width fills exactly `width` characters. */
  lemma ZeroPadWidth(n: nat, width: nat)
    requires width >= 1 && n < Pow10(width)
    ensures |ZeroPad(n, width)| == width
  {
    NatToStringLength(n, width);
  }

  /** Padding to a fixed width never maps two numbers to one string. */
  lemma ZeroPadInjective(a: nat, b: nat, width: nat)
    requires ZeroPad(a, width) == ZeroPad(b, width)
    ensures a == b
  {
    ZeroPadValue(a, width);
    ZeroPadValue(b, width);
  }

  /** Python `str(n)` for any integer. */
  function IntToString(n: int): string
    decreases if n < 0 then 1 else 0
  {
    if n < 0 then "-" + IntToString(-n) else NatToString(n)
  }

  /** Python `format(n, '0{width}d')`: a minus sign counts towards the width
      and the zeros go between the sign and the digits. */
  function FormatInt(n: int, width: nat): (s: string)
    ensures |s| >= 1 && (s[0] == '-' <==> n < 0)
    decreases if n < 0 then 1 else 0
  {
    if n < 0 then "-" + FormatInt(-n, if width > 0 then width - 1 else 0) else ZeroPad(n, width)
  }

  lemma FormatIntMeaning(n: int, width: nat)
    ensures n >= 0 ==> FormatInt(n, width) == ZeroPad(n, width)
    ensures n < 0 ==> |FormatInt(n, width)| >= 1 && FormatInt(n, width)[0] == '-' &&
                      FormatInt(n, width)[1..] == ZeroPad(-n, if width > 0 then width - 1 else 0)
  {
  }

  /** Formatting to a fixed width never maps two integers to one string:
      a negative number starts with '-', a non-negative one with a digit. */
  lemma FormatIntInjective(a: int, b: int, width: nat)
    requires FormatInt(a, width) == FormatInt(b, width)
    ensures a == b
  {
    FormatIntMeaning(a, width);
    FormatIntMeaning(b, width);
    if a >= 0 && b >= 0 {
      ZeroPadInjective(a, b, width);
    } else if a < 0 && b < 0 {
      ZeroPadInjective(-a, -b, if width > 0 then width - 1 else 0);
    }
  }

  /** The characters below code point 128 that Python's `int()` strips
      around a number: tab to carriage return, the separators 0x1C to 0x1F
      and the space. */
  predicate IsSpace(c: char) { 9 <= c as int <= 13 || 28 <= c as int <= 32 }

  /** The position of the first character from `i` on that is not
      whitespace, or the end. */
  function SpacesFrom(s: string, i: nat): (k: nat)
    requires i <= |s|
    ensures i <= k <= |s|
    decreases |s| - i
  {
    if i < |s| && IsSpace(s[i]) then SpacesFrom(s, i + 1) else i
  }

  /** The position just after the last character before `j` that is not
      whitespace, going no further left than `lo`. */
  function SpacesBefore(s: string, lo: nat, j: nat): (k: nat)
    requires lo <= j <= |s|
    ensures lo <= k <= j
    decreases j
  {
    if lo < j && IsSpace(s[j - 1]) then SpacesBefore(s, lo, j - 1) else j
  }

  /** `s.strip()` restricted to the whitespace of `IsSpace`. */
  function Strip(s: string): string
  {
    var lo := SpacesFrom(s, 0);
    s[lo..SpacesBefore(s, lo, |s|)]
  }

  /** Python's decimal literal body: digits, where a single `_` may stand
      between two digits.  Read from the right, as `DigitsValue` is. */
  predicate GroupedDigits(t: string)
    decreases |t|
  {
    |t| >= 1 && IsDigit(t[|t| - 1]) &&
    (|t| == 1 ||
     if t[|t| - 2] == '_' then |t| >= 3 && GroupedDigits(t[..|t| - 2])
     else GroupedDigits(t[..|t| - 1]))
  }

  /** The value of a grouped literal: its digits without the underscores. */
  function GroupedValue(t: string): nat
    requires GroupedDigits(t)
    decreases |t|
  {
    if |t| == 1 then DigitValue(t[0])
    else if t[|t| - 2] == '_' then 10 * GroupedValue(t[..|t| - 2]) + DigitValue(t[|t| - 1])
    else 10 * GroupedValue(t[..|t| - 1]) + DigitValue(t[|t| - 1])
  }

  /** The value of an optionally signed grouped literal. */
  function ParseSigned(u: string): Option<int>
  {
    if |u| >= 1 && (u[0] == '-' || u[0] == '+') && GroupedDigits(u[1..]) then
      var v: int := GroupedValue(u[1..]);
      Some(if u[0] == '-' then -v else v)
    else if GroupedDigits(u) then
      Some(GroupedValue(u))
    else
      None
  }

  /** Python `int(s)` in base 10 on text whose characters lie below code
      point 128: surrounding whitespace is stripped, one optional sign, then
      digits with single underscores between them; `None` where Python
      raises ValueError. */
  function ParseInt(s: string): (r: Option<int>)
    ensures s == [] ==> r == None
    ensures r.Some? && r.value < 0 ==> '-' in s
  {
    var lo := SpacesFrom(s, 0);
    assert Strip(s) != [] ==> Strip(s)[0] == s[lo];
    ParseSigned(Strip(s))
  }

  /** Text that neither starts nor ends with whitespace is its own strip. */
  lemma StripUntouched(s: string)
    requires |s| >= 1 && !IsSpace(s[0]) && !IsSpace(s[|s| - 1])
    ensures Strip(s) == s
  {
  }

  /** A plain run of digits is a grouped literal with its own value. */
  lemma {:induction false} PlainGrouped(s: string)
    requires |s| >= 1 && AllDigits(s)
    ensures GroupedDigits(s) && GroupedValue(s) == DigitsValue(s)
    decreases |s|
  {
    assert IsDigit(s[|s| - 1]);
    if |s| == 1 {
      assert s[..0] == [];
    } else {
      assert IsDigit(s[|s| - 2]);
      PlainGrouped(s[..|s| - 1]);
    }
  }

  /** Text with no whitespace at either end parses as its literal. */
  lemma ParseUnstripped(s: string)
    requires |s| >= 1 && !IsSpace(s[0]) && !IsSpace(s[|s| - 1])
    ensures ParseInt(s) == ParseSigned(s)
  {
    StripUntouched(s);
  }

  /** A plain run of digits parses to its value. */
  lemma ParseDigits(s: string)
    requires |s| >= 1 && AllDigits(s)
    ensures ParseInt(s) == Some(DigitsValue(s))
  {
    assert IsDigit(s[0]) && IsDigit(s[|s| - 1]);
    ParseUnstripped(s);
    PlainGrouped(s);
  }

  /** A minus sign followed by a plain run of digits parses to the
      negated value. */
  lemma ParseNegatedDigits(s: string)
    requires |s| >= 1 && AllDigits(s)
    ensures ParseInt("-" + s) == Some(-(DigitsValue(s) as int))
  {
    var u := "-" + s;
    assert u[|u| - 1] == s[|s| - 1];
    assert IsDigit(s[|s| - 1]);
    ParseUnstripped(u);
    NegatedLiteral(s);
  }

  lemma NegatedLiteral(s: string)
    requires |s| >= 1 && AllDigits(s)
    ensures ParseSigned("-" + s) == Some(-(DigitsValue(s) as int))
  {
    assert ("-" + s)[1..] == s;
    PlainGrouped(s);
  }

  /** What `int()` accepts beyond plain digits, and what it refuses:
      `int("1_234") == 1234`, `int(" 12\n") == 12`, while `"1__2"`, `"_1"`,
      `"1_"` and `"- 1"` raise. */
  lemma ParseIntGrammar()
    ensures ParseInt("1_234") == Some(1234)
    ensures ParseInt(" 12\n") == Some(12)
    ensures ParseInt("1__2") == None
    ensures ParseInt("_1") == None
    ensures ParseInt("1_") == None
    ensures ParseInt("- 1") == None
  {
    GroupedExample();
    StrippedExample();
    RefusedExamples();
  }

  lemma GroupedExample()
    ensures ParseInt("1_234") == Some(1234)
  {
    var t := "1_234";
    assert t[..4] == "1_23" && t[..4][..3] == "1_2" && t[..4][..3][..1] == "1";
    PlainGrouped("1");
    assert GroupedDigits(t) && GroupedValue(t) == 1234;
    ParseUnstripped(t);
  }

  lemma StrippedExample()
    ensures ParseInt(" 12\n") == Some(12)
  {
    var s := " 12\n";
    assert SpacesFrom(s, 0) == 1 by { assert IsSpace(s[0]) && !IsSpace(s[1]); }
    assert SpacesBefore(s, 1, 4) == 3 by { assert IsSpace(s[3]) && !IsSpace(s[2]); }
    assert Strip(s) == "12";
    assert "12"[..1] == "1";
    PlainGrouped("1");
    assert GroupedDigits("12") && GroupedValue("12") == 12;
  }

  lemma RefusedExamples()
    ensures ParseInt("1__2") == None
    ensures ParseInt("_1") == None
    ensures ParseInt("1_") == None
    ensures ParseInt("- 1") == None
  {
    assert "1__2"[..2] == "1_";
    assert !GroupedDigits("1__2");
    ParseUnstripped("1__2");
    ParseUnstripped("_1");
    ParseUnstripped("1_");
    assert ("- 1")[1..] == " 1";
    ParseUnstripped("- 1");
  }

  lemma ParseZeroPad(n: nat, width: nat)
    ensures ParseInt(ZeroPad(n, width)) == Some(n)
  {
    ZeroPadValue(n, width);
    ParseDigits(ZeroPad(n, width));
  }

  lemma ParseIntToString(n: int)
    ensures ParseInt(IntToString(n)) == Some(n)
  {
    if n < 0 {
      NatToStringDigits(-n);
      NatToStringValue(-n);
      ParseNegatedDigits(NatToString(-n));
      assert IntToString(n) == "-" + NatToString(-n);
    } else {
      NatToStringDigits(n);
      NatToStringValue(n);
      ParseDigits(NatToString(n));
    }
  }

  predicate StartsWith(s: string, p: string) { |p| <= |s| && s[..|p|] == p }

  predicate EndsWith(s: string, p: string) { |p| <= |s| && s[|s| - |p|..] == p }

  predicate OccursAt(s: string, p: string, i: nat) { i + |p| <= |s| && s[i..i + |p|] == p }

  /** `s.find(p)` from position `from` on, as an option. */
  function FindFrom(s: string, p: string, from: nat): (r: Option<nat>)
    requires from <= |s|
    ensures r.Some? ==> from <= r.value && OccursAt(s, p, r.value)
    ensures forall j :: from <= j && (r.Some? ==> j < r.value) ==> !OccursAt(s, p, j)
    decreases |s| - from
  {
    if OccursAt(s, p, from) then Some(from)
    else if from == |s| then None
    else FindFrom(s, p, from + 1)
  }

  /** `s.partition(sep)[2]`: the text after the first `sep`, or "" when
      `sep` does not occur. */
  function PartitionTail(s: string, sep: string): (t: string)
    ensures |t| <= |s|
    decreases |s|
  {
    if OccursAt(s, sep, 0) then s[|sep|..]
    else if s == [] then ""
    else PartitionTail(s[1..], sep)
  }

  /** The tail is what follows the first occurrence `s.find(sep)` finds. */
  lemma {:induction false} PartitionTailFind(s: string, sep: string, from: nat)
    requires from <= |s|
    ensures PartitionTail(s[from..], sep) ==
      match FindFrom(s, sep, from)
      case Some(i) => s[i + |sep|..]
      case None => ""
    decreases |s| - from
  {
    assert OccursAt(s[from..], sep, 0) <==> OccursAt(s, sep, from) by {
      if from + |sep| <= |s| {
        assert s[from..][0..|sep|] == s[from..from + |sep|];
      }
    }
    if !OccursAt(s, sep, from) && from < |s| {
      assert s[from..][1..] == s[from + 1..];
      PartitionTailFind(s, sep, from + 1);
    }
  }

  /** `s.partition(sep)[0]`: the text before the first `sep`, or all of `s`
      when `sep` does not occur. */
  function PartitionHead(s: string, sep: string): string
    decreases |s|
  {
    if OccursAt(s, sep, 0) || s == [] then "" else [s[0]] + PartitionHead(s[1..], sep)
  }

  /** The head is what precedes the first occurrence `s.find(sep)` finds. */
  lemma {:induction false} PartitionHeadFind(s: string, sep: string, from: nat)
    requires from <= |s|
    ensures PartitionHead(s[from..], sep) ==
      match FindFrom(s, sep, from)
      case Some(i) => s[from..i]
      case None => s[from..]
    decreases |s| - from
  {
    assert OccursAt(s[from..], sep, 0) <==> OccursAt(s, sep, from) by {
      if from + |sep| <= |s| {
        assert s[from..][0..|sep|] == s[from..from + |sep|];
      }
    }
    if !OccursAt(s, sep, from) && from < |s| {
      assert s[from..][1..] == s[from + 1..];
      PartitionHeadFind(s, sep, from + 1);
    }
  }

  /** The head is a prefix of `s` in which `sep` does not occur, and when
      `sep` occurs in `s` the head is followed by it. */
  lemma PartitionHeadMeaning(s: string, sep: string)
    requires |sep| > 0
    ensures StartsWith(s, PartitionHead(s, sep))
    ensures forall j: nat :: !OccursAt(PartitionHead(s, sep), sep, j)
    ensures FindFrom(s, sep, 0).Some? ==> StartsWith(s, PartitionHead(s, sep) + sep)
  {
    assert s[0..] == s;
    PartitionHeadFind(s, sep, 0);
    var h := PartitionHead(s, sep);
    var r := FindFrom(s, sep, 0);
    var i := if r.Some? then r.value else |s|;
    assert h == s[..i];
    forall j: nat | OccursAt(h, sep, j) ensures false {
      assert h[j..j + |sep|] == s[j..j + |sep|];
      assert OccursAt(s, sep, j);
    }
    if r.Some? {
      assert h + sep == s[..i + |sep|];
    }
  }

  /** `s.split(c)` for a one-character separator: the pieces between the
      separators, always at least one. */
  function SplitOn(s: string, c: char): (pieces: seq<string>)
    ensures |pieces| >= 1
    decreases |s|
  {
    if s == [] then [""]
    else
      var rest := SplitOn(s[1..], c);
      if s[0] == c then [""] + rest else [[s[0]] + rest[0]] + rest[1..]
  }

  /** `c.join(pieces)`. */
  function JoinWith(pieces: seq<string>, c: char): string
    requires |pieces| >= 1
    decreases |pieces|
  {
    if |pieces| == 1 then pieces[0] else pieces[0] + [c] + JoinWith(pieces[1..], c)
  }

  /** A piece free of the separator, followed by the separator, splits off
      as the first piece. */
  lemma {:induction false} SplitOnPrefix(w: string, t: string, c: char)
    requires c !in w
    ensures SplitOn(w + [c] + t, c) == [w] + SplitOn(t, c)
    decreases |w|
  {
    if w != [] {
      assert (w + [c] + t)[1..] == w[1..] + [c] + t;
      SplitOnPrefix(w[1..], t, c);
      assert [w[0]] + w[1..] == w;
    } else {
      assert w + [c] + t == [c] + t;
      assert ([c] + t)[1..] == t;
    }
  }

  /** A string free of the separator is one piece. */
  lemma {:induction false} SplitOnNone(w: string, c: char)
    requires c !in w
    ensures SplitOn(w, c) == [w]
    decreases |w|
  {
    if w != [] {
      SplitOnNone(w[1..], c);
      assert [w[0]] + w[1..] == w;
    }
  }

  /** Splitting undoes joining when no piece holds the separator. */
  lemma {:induction false} SplitJoin(pieces: seq<string>, c: char)
    requires |pieces| >= 1
    requires forall i :: 0 <= i < |pieces| ==> c !in pieces[i]
    ensures SplitOn(JoinWith(pieces, c), c) == pieces
    decreases |pieces|
  {
    if |pieces| == 1 {
      SplitOnNone(pieces[0], c);
    } else {
      SplitJoin(pieces[1..], c);
      SplitOnPrefix(pieces[0], JoinWith(pieces[1..], c), c);
      assert [pieces[0]] + pieces[1..] == pieces;
    }
  }

  /** Joining one more piece appends the separator and the piece: nothing
      follows the last piece. */
  lemma {:induction false} JoinWithSnoc(pieces: seq<string>, last: string, c: char)
    requires |pieces| >= 1
    ensures JoinWith(pieces + [last], c) == JoinWith(pieces, c) + [c] + last
    decreases |pieces|
  {
    var all := pieces + [last];
    if |pieces| == 1 {
      assert all[1..] == [last];
    } else {
      assert all[1..] == pieces[1..] + [last];
      JoinWithSnoc(pieces[1..], last, c);
    }
  }

  /** A text made of lines, each followed by a newline. */
  function Unlines(lines: seq<string>): string
    decreases |lines|
  {
    if lines == [] then "" else lines[0] + "\n" + Unlines(lines[1..])
  }

  /** The text of two or more lines starts with the first two. */
  lemma UnlinesHead(lines: seq<string>)
    requires |lines| >= 2
    ensures Unlines(lines) == lines[0] + "\n" + (lines[1] + "\n" + Unlines(lines[2..]))
  {
    assert lines[1..][0] == lines[1] && lines[1..][1..] == lines[2..];
  }

  /** `text.split("\n")` of lines that hold no newline gives the lines back,
      followed by the empty piece after the last newline. */
  lemma {:induction false} SplitUnlines(lines: seq<string>)
    requires forall i :: 0 <= i < |lines| ==> '\n' !in lines[i]
    ensures SplitOn(Unlines(lines), '\n') == lines + [""]
    decreases |lines|
  {
    if lines != [] {
      SplitUnlines(lines[1..]);
      SplitOnPrefix(lines[0], Unlines(lines[1..]), '\n');
      assert [lines[0]] + (lines[1..] + [""]) == lines + [""];
    }
  }

  /** `s[-n:]`: the last n characters, or all of `s` when it is shorter. */
  function LastN(s: string, n: nat): (t: string)
    ensures |t| == if |s| < n then |s| else n
  {
    if |s| <= n then s else s[|s| - n..]
  }

  /** `os.path.basename(p)` on a POSIX path: the text after the last '/'. */
  function Basename(p: string): (b: string)
    ensures forall i :: 0 <= i < |b| ==> b[i] != '/'
    ensures EndsWith(p, b)
    ensures |b| < |p| ==> p[|p| - |b| - 1] == '/'
  {
    if p == [] then ""
    else if p[|p| - 1] == '/' then ""
    else Basename(p[..|p| - 1]) + [p[|p| - 1]]
  }

  /** `s.replace(pat, rep)`: every non-overlapping occurrence of `pat`,
      scanned left to right, is replaced. */
  function ReplaceAll(s: string, pat: string, rep: string): (r: string)
    requires |pat| > 0
    ensures (forall j :: !OccursAt(s, pat, j)) ==> r == s
    decreases |s|
  {
    if |s| == 0 then ""
    else if OccursAt(s, pat, 0) then rep + ReplaceAll(s[|pat|..], pat, rep)
    else
      assert forall j: nat :: OccursAt(s[1..], pat, j) ==> OccursAt(s, pat, j + 1);
      [s[0]] + ReplaceAll(s[1..], pat, rep)
  }
}
