/** The local directory backup: one `robocopy` mirror run, classified by its
    exit code, and the summary counts read back from robocopy's log. */
module LocalBackup {

  import opened Common
  import opened Text

  /** A JavaScript number as `parseFloat` and `*` leave it: a finite value
      (kept exact) or `NaN`. */
  datatype Num = Finite(value: real) | NaN

  /** The six counts of a backup; each stays 0 unless its log line is found. */
  datatype RobocopyStats = RobocopyStats(
    totalDirs: nat, copiedDirs: nat,
    totalFiles: nat, copiedFiles: nat,
    totalBytes: Num, copiedBytes: Num)

  const ZeroStats: RobocopyStats := RobocopyStats(0, 0, 0, 0, Finite(0.0), Finite(0.0))

  /** A character of the class `[\d.]`. */
  predicate NumChar(c: char) {
    IsDigit(c) || c == '.'
  }

  predicate AllNum(s: string) {
    forall i :: 0 <= i < |s| ==> NumChar(s[i])
  }

  /** A unit letter as the log pattern `[kmg]` accepts it (lower case only). */
  predicate IsUnit(c: char) {
    c == 'k' || c == 'm' || c == 'g'
  }

  /** A unit letter as `parseSize`'s case-insensitive `[kmg]` accepts it. */
  predicate IsUnitIgnoringCase(c: char) {
    IsUnit(c) || c == 'K' || c == 'M' || c == 'G'
  }

  function Lower(c: char): char {
    if 'A' <= c <= 'Z' then (c as int + 32) as char else c
  }

  // ---- scanning: each function takes the text from the current position on ----

  /** What is left after `\s*` takes all leading white space. */
  function SkipSpaces(s: string): (r: string)
    ensures |r| <= |s|
    ensures r != [] ==> !IsSpace(r[0])
  {
    if s != [] && IsSpace(s[0]) then SkipSpaces(s[1..]) else s
  }

  /** `\d+` taken greedily: the leading digits and what follows them. */
  function Digits(s: string): (r: (string, string))
    ensures r.0 + r.1 == s && AllDigits(r.0)
    ensures r.1 != [] ==> !IsDigit(r.1[0])
  {
    if s != [] && IsDigit(s[0]) then
      var rest := Digits(s[1..]);
      assert s == [s[0]] + s[1..];
      Assoc([s[0]], rest.0, rest.1);
      DigitsCons(s[0], rest.0);
      ([s[0]] + rest.0, rest.1)
    else ([], s)
  }

  /** A digit before a numeral gives a numeral. */
  lemma DigitsCons(c: char, t: string)
    requires IsDigit(c) && AllDigits(t)
    ensures AllDigits([c] + t)
  {
    assert forall i :: 0 < i < |t| + 1 ==> ([c] + t)[i] == t[i - 1];
  }

  /** `[\d.]+` taken greedily: the leading digits and dots and what follows them. */
  function NumRun(s: string): (r: (string, string))
    ensures r.0 + r.1 == s && AllNum(r.0)
    ensures r.1 != [] ==> !NumChar(r.1[0])
  {
    if s != [] && NumChar(s[0]) then
      var rest := NumRun(s[1..]);
      assert s == [s[0]] + s[1..];
      Assoc([s[0]], rest.0, rest.1);
      NumCons(s[0], rest.0);
      ([s[0]] + rest.0, rest.1)
    else ([], s)
  }

  /** A `[\d.]` character before a run of them gives a run of them. */
  lemma NumCons(c: char, t: string)
    requires NumChar(c) && AllNum(t)
    ensures AllNum([c] + t)
  {
    assert forall i :: 0 < i < |t| + 1 ==> ([c] + t)[i] == t[i - 1];
  }

  /** Both groups of a counts match are numerals. */
  predicate Numerals(g: (string, string)) {
    g.0 != [] && g.1 != [] && AllDigits(g.0) && AllDigits(g.1)
  }

  /** The match of `<tag>\s*:\s*(\d+)\s+(\d+)` at the start of `s`, as the
      texts of its two groups. Each quantifier is greedy and no shorter
      choice can let the rest match, so the match is unique. */
  function CountsAt(s: string, tag: string): (r: Option<(string, string)>)
    ensures r.Some? ==> Numerals(r.value)
  {
    if !(tag <= s) then None
    else match AfterColon(s[|tag|..])
      case None => None
      case Some(t) => CountPair(t)
  }

  /** `\s*:\s*` at the start of `s`: what follows, if it matches. */
  function AfterColon(s: string): Option<string> {
    var a := SkipSpaces(s);
    if a == [] || a[0] != ':' then None else Some(SkipSpaces(a[1..]))
  }

  /** `(\d+)\s+(\d+)` at the start of `s`. */
  function CountPair(s: string): (r: Option<(string, string)>)
    ensures r.Some? ==> Numerals(r.value)
  {
    var total := Digits(s);
    var gap := SkipSpaces(total.1);
    var copied := Digits(gap);
    if total.0 == [] || |gap| == |total.1| || copied.0 == [] then None
    else Some((total.0, copied.0))
  }

  /** `s.match(/<tag>\s*:\s*(\d+)\s+(\d+)/)`: the leftmost match. */
  function FirstCounts(s: string, tag: string): (r: Option<(string, string)>)
    ensures r.Some? ==> Numerals(r.value)
  {
    if CountsAt(s, tag).Some? then CountsAt(s, tag)
    else if s == [] then None
    else FirstCounts(s[1..], tag)
  }

  /** The second group `[\d.]+\s*[kmg]?` at the start of `s`: greedy
      throughout, since nothing follows it in the pattern. */
  function SecondSize(s: string): string {
    var gap := SkipSpaces(NumRun(s).1);
    if gap != [] && IsUnit(gap[0]) then s[..|s| - |gap| + 1] else s[..|s| - |gap|]
  }

  /** The two groups of `([\d.]+\s*[kmg]?)\s+([\d.]+\s*[kmg]?)` at the start
      of `s`. The greedy choice of the first group is taken back only in the
      one way that can succeed: when no unit follows, the last blank before
      the second numeral is the one `\s+` needs. */
  function SizeGroups(s: string): Option<(string, string)> {
    var num := NumRun(s);
    var gap := SkipSpaces(num.1);
    if num.0 == [] then None
    else if gap != [] && IsUnit(gap[0]) then
      var next := SkipSpaces(gap[1..]);
      if |next| < |gap| - 1 && next != [] && NumChar(next[0]) then Some((s[..|s| - |gap| + 1], SecondSize(next)))
      else None
    else if |gap| < |num.1| && gap != [] && NumChar(gap[0]) then Some((s[..|s| - |gap| - 1], SecondSize(gap)))
    else None
  }

  /** The match of `Bytes\s*:\s*([\d.]+\s*[kmg]?)\s+([\d.]+\s*[kmg]?)` at the
      start of `s`, as the texts of its two groups. */
  function BytesAt(s: string): Option<(string, string)> {
    if !("Bytes" <= s) then None
    else match AfterColon(s[5..])
      case None => None
      case Some(t) => SizeGroups(t)
  }

  /** The leftmost `Bytes` match. */
  function FirstBytes(s: string): Option<(string, string)> {
    if BytesAt(s).Some? then BytesAt(s)
    else if s == [] then None
    else FirstBytes(s[1..])
  }

  function Pow10(n: nat): (r: nat)
    ensures r >= 1
  {
    if n == 0 then 1 else 10 * Pow10(n - 1)
  }

  /** `parseFloat` of a run of digits and dots: the longest decimal prefix
      (`12`, `1.5`, `.5`, `5.`), or `NaN` when the run starts with a dot
      that no digit follows. The first character after the leading digits,
      if any, is the dot. */
  function ParseFloat(t: string): (r: Num)
    requires |t| > 0 && AllNum(t)
    ensures r.Finite? ==> r.value >= 0.0
  {
    var whole := Digits(t);
    if whole.1 == [] then Finite(DigitsValue(whole.0) as real)
    else
      var fraction := Digits(whole.1[1..]).0;
      if whole.0 == [] && fraction == [] then NaN
      else Finite(DigitsValue(whole.0) as real + Decimals(fraction))
  }

  /** The value of the digits after a decimal point. */
  function Decimals(d: string): (r: real)
    requires AllDigits(d)
    ensures r >= 0.0
  {
    var num, den := DigitsValue(d) as real, Pow10(|d|) as real;
    assert num >= 0.0 && den > 0.0;
    num / den
  }

  /** A number times a unit's factor. */
  function Scale(x: Num, factor: nat): (r: Num)
    ensures x.Finite? && x.value >= 0.0 ==> r.Finite? && r.value >= 0.0
    ensures x.NaN? <==> r.NaN?
  {
    match x
    case NaN => NaN
    case Finite(v) =>
      var f := factor as real;
      assert v >= 0.0 && f >= 0.0 ==> v * f >= 0.0;
      Finite(v * f)
  }

  /** The factor of a unit letter (`''` is 1, `k` 1024, `m` 1024², `g` 1024³). */
  function Multiplier(unit: Option<char>): (r: nat)
    ensures r > 0
  {
    match unit
    case None => 1
    case Some(u) =>
      if u == 'k' then 1024
      else if u == 'm' then 1024 * 1024
      else if u == 'g' then 1024 * 1024 * 1024
      else 1
  }

  /** What is left from the first `[\d.]` character on. */
  function FromFirstNum(s: string): (r: string)
    ensures |r| <= |s| && r == s[|s| - |r|..]
    ensures r != [] ==> NumChar(r[0])
  {
    if s == [] || NumChar(s[0]) then s else FromFirstNum(s[1..])
  }

  /** `parseSize`: the first numeral of the trimmed text, times the factor of
      the unit letter right after it (any case), or 0 when there is no numeral. */
  function ParseSize(sizeStr: string): (r: Num)
    ensures r.Finite? ==> r.value >= 0.0
  {
    var numeral := FromFirstNum(Trim(sizeStr));
    if numeral == [] then Finite(0.0) else NumeralSize(numeral)
  }

  /** The value of the `[\d.]+` run that starts `numeral`, times the factor
      of the unit letter (any case) after it. */
  function NumeralSize(numeral: string): (r: Num)
    requires numeral != [] && NumChar(numeral[0])
    ensures r.Finite? ==> r.value >= 0.0
  {
    var num := NumRun(numeral);
    var gap := SkipSpaces(num.1);
    var unit := if gap != [] && IsUnitIgnoringCase(gap[0]) then Some(Lower(gap[0])) else None;
    Scale(ParseFloat(num.0), Multiplier(unit))
  }

  /** The counts the log's three summary lines give, each pair left at 0
      when its line does not match. */
  function LogStats(log: string): RobocopyStats {
    var dirs := FirstCounts(log, "Dirs");
    var files := FirstCounts(log, "Files");
    var bytes := FirstBytes(log);
    RobocopyStats(
      if dirs.Some? then DigitsValue(dirs.value.0) else 0,
      if dirs.Some? then DigitsValue(dirs.value.1) else 0,
      if files.Some? then DigitsValue(files.value.0) else 0,
      if files.Some? then DigitsValue(files.value.1) else 0,
      if bytes.Some? then ParseSize(bytes.value.0) else Finite(0.0),
      if bytes.Some? then ParseSize(bytes.value.1) else Finite(0.0))
  }

  /** `parseRobocopyLog`: start from all zeros and overwrite each pair
      whose line matches. */
  method ParseRobocopyLog(log: string) returns (stats: RobocopyStats)
    ensures stats == LogStats(log)
  {
    stats := ZeroStats;
    var dirs := FirstCounts(log, "Dirs");
    if dirs.Some? {
      stats := stats.(totalDirs := DigitsValue(dirs.value.0), copiedDirs := DigitsValue(dirs.value.1));
    }
    var files := FirstCounts(log, "Files");
    if files.Some? {
      stats := stats.(totalFiles := DigitsValue(files.value.0), copiedFiles := DigitsValue(files.value.1));
    }
    var bytes := FirstBytes(log);
    if bytes.Some? {
      stats := stats.(totalBytes := ParseSize(bytes.value.0), copiedBytes := ParseSize(bytes.value.1));
    }
  }

  // ---- what the parser gives on particular logs ----

  /** `tag` occurs nowhere in `s`. */
  predicate Absent(s: string, tag: string) {
    forall k :: 0 <= k <= |s| ==> !(tag <= s[k..])
  }

  lemma {:induction false} AbsentCounts(s: string, tag: string)
    requires Absent(s, tag)
    ensures FirstCounts(s, tag) == None
    decreases |s|
  {
    assert s[0..] == s;
    if s != [] {
      forall k | 0 <= k <= |s[1..]| ensures !(tag <= s[1..][k..]) {
        assert s[1..][k..] == s[k + 1..];
      }
      AbsentCounts(s[1..], tag);
    }
  }

  lemma {:induction false} AbsentBytes(s: string)
    requires Absent(s, "Bytes")
    ensures FirstBytes(s) == None
    decreases |s|
  {
    assert s[0..] == s;
    if s != [] {
      forall k | 0 <= k <= |s[1..]| ensures !("Bytes" <= s[1..][k..]) {
        assert s[1..][k..] == s[k + 1..];
      }
      AbsentBytes(s[1..]);
    }
  }

  /** A log without any of the three summary lines (a log that could not be
      read is the empty text) gives all zeros. */
  lemma LogStatsWithoutSummary(log: string)
    requires Absent(log, "Dirs") && Absent(log, "Files") && Absent(log, "Bytes")
    ensures LogStats(log) == ZeroStats
  {
    AbsentCounts(log, "Dirs");
    AbsentCounts(log, "Files");
    AbsentBytes(log);
  }

  /** Greedy `\d+` on a numeral followed by something that is not a digit. */
  lemma {:induction false} DigitsOf(d: string, rest: string)
    requires AllDigits(d) && (rest == [] || !IsDigit(rest[0]))
    ensures Digits(d + rest) == (d, rest)
  {
    if d != [] {
      assert (d + rest)[1..] == d[1..] + rest;
      DigitsOf(d[1..], rest);
      assert [d[0]] + d[1..] == d;
    } else {
      assert d + rest == rest;
    }
  }

  /** Greedy `[\d.]+` on a numeral followed by something that is not `[\d.]`. */
  lemma {:induction false} NumRunOf(d: string, rest: string)
    requires AllNum(d) && (rest == [] || !NumChar(rest[0]))
    ensures NumRun(d + rest) == (d, rest)
  {
    if d != [] {
      assert (d + rest)[1..] == d[1..] + rest;
      NumRunOf(d[1..], rest);
      assert [d[0]] + d[1..] == d;
    } else {
      assert d + rest == rest;
    }
  }

  /** One blank before text that does not start with white space is skipped. */
  lemma SkipOneSpace(t: string)
    requires t == [] || !IsSpace(t[0])
    ensures SkipSpaces(" " + t) == t
  {
    assert (" " + t)[1..] == t;
  }

  /** A `Dirs`/`Files` summary line: the tag, a colon, and the total and
      copied counts. */
  function CountsLine(tag: string, total: nat, copied: nat): string {
    tag + " : " + NatToString(total) + " " + NatToString(copied)
  }

  /** The anatomy of a counts line followed by more text. */
  lemma CountsLineShape(tag: string, n: string, m: string, rest: string)
    ensures tag + " : " + n + " " + m + rest == tag + (" : " + (n + (" " + (m + rest))))
  {
    Assoc(tag + " : " + n + " ", m, rest);
    Assoc(tag + " : " + n, " ", m + rest);
    Assoc(tag + " : ", n, " " + (m + rest));
    Assoc(tag, " : ", n + (" " + (m + rest)));
  }

  /** `n m` reads back as the pair of numerals. */
  lemma CountPairRead(n: string, m: string, rest: string)
    requires n != [] && m != [] && AllDigits(n) && AllDigits(m)
    requires rest == [] || !NumChar(rest[0])
    ensures CountPair(n + (" " + (m + rest))) == Some((n, m))
  {
    DigitsOf(n, " " + (m + rest));
    SkipOneSpace(m + rest);
    DigitsOf(m, rest);
  }

  /** ` : ` before text that does not start with white space leads to that text. */
  lemma AfterColonRead(y: string)
    requires y != [] && !IsSpace(y[0])
    ensures AfterColon(" : " + y) == Some(y)
  {
    var x := " : " + y;
    assert x[0] == ' ' && x[1..] == ": " + y;
    assert SkipSpaces(x) == ": " + y;
    assert (": " + y)[1..] == " " + y;
    SkipOneSpace(y);
  }

  /** `tag : n m` at the start of the text is read back as `n` and `m`. */
  lemma CountsRead(tag: string, n: string, m: string, rest: string)
    requires n != [] && m != [] && AllDigits(n) && AllDigits(m)
    requires rest == [] || !NumChar(rest[0])
    ensures CountsAt(tag + (" : " + (n + (" " + (m + rest)))), tag) == Some((n, m))
  {
    var y := n + (" " + (m + rest));
    var s := tag + (" : " + y);
    assert s[..|tag|] == tag && s[|tag|..] == " : " + y;
    assert y[0] == n[0];
    AfterColonRead(y);
    CountPairRead(n, m, rest);
  }

  /** A counts line at the start of the text is read back as its two numerals. */
  lemma CountsLineRead(tag: string, total: nat, copied: nat, rest: string)
    requires rest == [] || !NumChar(rest[0])
    ensures CountsAt(CountsLine(tag, total, copied) + rest, tag) == Some((NatToString(total), NatToString(copied)))
  {
    CountsLineShape(tag, NatToString(total), NatToString(copied), rest);
    CountsRead(tag, NatToString(total), NatToString(copied), rest);
  }

  /** A counts line at the head of the log is the match. */
  lemma CountsLineFirst(tag: string, total: nat, copied: nat, rest: string)
    requires rest == [] || !NumChar(rest[0])
    ensures FirstCounts(CountsLine(tag, total, copied) + rest, tag) == Some((NatToString(total), NatToString(copied)))
  {
    CountsLineRead(tag, total, copied, rest);
  }

  /** A whole number with a unit letter, as robocopy prints byte counts (`250 m`). */
  function SizeText(n: nat, unit: char): string {
    NatToString(n) + " " + [unit]
  }

  /** Text without white space at either end is its own trim. */
  lemma TrimKeeps(s: string)
    requires s != [] && !IsSpace(s[0]) && !IsSpace(s[|s| - 1])
    ensures Trim(s) == s
  {
    var i := SkipSpace(s, 0);
    var j := TrimEnd(s, |s|);
    assert i == 0 && j == |s|;
    assert s[0..|s|] == s;
  }

  /** `parseFloat` of a numeral is its value. */
  lemma ParseFloatWhole(d: string)
    requires d != [] && AllDigits(d)
    ensures ParseFloat(d) == Finite(DigitsValue(d) as real)
  {
    DigitsOf(d, []);
    assert d + [] == d;
  }

  /** `parseSize` of a whole number followed by a unit letter of either case. */
  lemma ParseSizeWhole(n: nat, unit: char)
    requires IsUnitIgnoringCase(unit)
    ensures ParseSize(SizeText(n, unit)) == Scale(Finite(n as real), Multiplier(Some(Lower(unit))))
  {
    var d := NatToString(n);
    var t := SizeText(n, unit);
    Assoc(d, " ", [unit]);
    assert t[|t| - 1] == unit && t[0] == d[0];
    TrimKeeps(t);
    assert FromFirstNum(t) == t;
    NumRunOf(d, " " + [unit]);
    SkipOneSpace([unit]);
    ParseFloatWhole(d);
  }

  /** `parseSize` of a bare whole number. */
  lemma ParseSizeNumeral(n: nat)
    ensures ParseSize(NatToString(n)) == Finite(n as real)
  {
    var d := NatToString(n);
    ParseSizeAtNumeral(d);
    NumeralSizeWhole(d);
  }

  /** Text that starts with `[\d.]` and ends without white space is its own numeral. */
  lemma ParseSizeAtNumeral(t: string)
    requires t != [] && NumChar(t[0]) && !IsSpace(t[|t| - 1])
    ensures ParseSize(t) == NumeralSize(t)
  {
    TrimKeeps(t);
    assert FromFirstNum(t) == t;
  }

  /** A numeral alone has its own value. */
  lemma NumeralSizeWhole(d: string)
    requires d != [] && AllDigits(d)
    ensures NumeralSize(d) == Finite(DigitsValue(d) as real)
  {
    NumRunOf(d, []);
    assert d + [] == d;
    assert NumRun(d) == (d, []);
    ParseFloatWhole(d);
    ScaleWhole(DigitsValue(d), Multiplier(None));
  }

  /** A dot without digits is not a number for `parseFloat`. */
  lemma ParseSizeLoneDot()
    ensures ParseSize(".") == NaN
  {
    TrimKeeps(".");
    NumRunOf(".", []);
    assert "." + [] == ".";
    assert Digits(".") == ([], ".");
    assert "."[1..] == [];
  }

  /** Text without any digit or dot has size 0. */
  lemma ParseSizeWithoutNumeral(s: string)
    requires forall k :: 0 <= k < |s| ==> !NumChar(s[k])
    ensures ParseSize(s) == Finite(0.0)
  {
    TrimKeepsOut(s, NumChar);
    FromFirstNumNone(Trim(s));
  }

  /** Characters absent from a text are absent from its trim. */
  lemma TrimKeepsOut(s: string, p: char -> bool)
    requires forall k :: 0 <= k < |s| ==> !p(s[k])
    ensures forall k :: 0 <= k < |Trim(s)| ==> !p(Trim(s)[k])
  {
    var t := Trim(s);
    var i, j :| 0 <= i <= j <= |s| && t == s[i..j];
    forall k | 0 <= k < |t| ensures !p(t[k]) {
      assert t[k] == s[i + k];
    }
  }

  /** Text without `[\d.]` has no numeral. */
  lemma {:induction false} FromFirstNumNone(t: string)
    requires forall k :: 0 <= k < |t| ==> !NumChar(t[k])
    ensures FromFirstNum(t) == []
  {
    if t != [] {
      FromFirstNumNone(t[1..]);
    }
  }

  /** A `Bytes` line with two whole sizes and their unit letters. */
  function BytesLine(total: nat, totalUnit: char, copied: nat, copiedUnit: char): string {
    "Bytes : " + SizeText(total, totalUnit) + " " + SizeText(copied, copiedUnit)
  }

  /** The anatomy of the sizes of a `Bytes` line followed by more text. */
  lemma SizesShape(n: string, tu: char, m: string, cu: char, rest: string)
    ensures n + " " + [tu] + " " + (m + " " + [cu]) + rest
            == n + (" " + ([tu] + (" " + (m + (" " + ([cu] + rest))))))
  {
    Assoc(m + " ", [cu], rest);
    Assoc(m, " ", [cu] + rest);
    Assoc(n + " " + [tu] + " ", m + " " + [cu], rest);
    Assoc(n + " " + [tu], " ", m + (" " + ([cu] + rest)));
    Assoc(n + " ", [tu], " " + (m + (" " + ([cu] + rest))));
    Assoc(n, " ", [tu] + (" " + (m + (" " + ([cu] + rest)))));
  }

  /** The second size group of `m cu` is `m cu`. */
  lemma SecondSizeRead(m: string, cu: char, rest: string)
    requires m != [] && AllDigits(m) && IsUnit(cu)
    ensures SecondSize(m + (" " + ([cu] + rest))) == m + " " + [cu]
  {
    var tail := [cu] + rest;
    var second := m + (" " + tail);
    NumRunOf(m, " " + tail);
    SkipOneSpace(tail);
    assert second[..|second| - |tail| + 1] == m + " " + [cu];
  }

  /** A numeral, a blank, a unit letter and a blank before the second numeral:
      the first group ends with the unit letter. */
  lemma SizesUnitRead(n: string, tu: char, second: string)
    requires n != [] && AllDigits(n) && IsUnit(tu) && second != [] && IsDigit(second[0])
    ensures SizeGroups(n + (" " + ([tu] + (" " + second)))) == Some((n + " " + [tu], SecondSize(second)))
  {
    var gap := [tu] + (" " + second);
    var s := n + (" " + gap);
    NumRunOf(n, " " + gap);
    SkipOneSpace(gap);
    assert gap[1..] == " " + second;
    SkipOneSpace(second);
    var first := n + " " + [tu];
    Assoc(n, " ", gap);
    Assoc(n + " ", [tu], " " + second);
    assert s == first + (" " + second);
    assert s[..|first|] == first;
  }

  /** `n tu m cu` at the start of the text is read back as `n tu` and `m cu`. */
  lemma SizesRead(n: string, tu: char, m: string, cu: char, rest: string)
    requires n != [] && m != [] && AllDigits(n) && AllDigits(m) && IsUnit(tu) && IsUnit(cu)
    ensures SizeGroups(n + (" " + ([tu] + (" " + (m + (" " + ([cu] + rest)))))))
            == Some((n + " " + [tu], m + " " + [cu]))
  {
    var second := m + (" " + ([cu] + rest));
    assert second[0] == m[0];
    SizesUnitRead(n, tu, second);
    SecondSizeRead(m, cu, rest);
  }

  /** The two size groups of a `Bytes` line are its two sizes. */
  lemma SizeGroupsRead(total: nat, tu: char, copied: nat, cu: char, rest: string)
    requires IsUnit(tu) && IsUnit(cu)
    ensures SizeGroups(SizeText(total, tu) + " " + SizeText(copied, cu) + rest)
            == Some((SizeText(total, tu), SizeText(copied, cu)))
  {
    SizesShape(NatToString(total), tu, NatToString(copied), cu, rest);
    SizesRead(NatToString(total), tu, NatToString(copied), cu, rest);
  }

  /** The anatomy of a `Bytes` line followed by more text. */
  lemma BytesLineShape(a: string, c: string, rest: string)
    ensures "Bytes : " + a + " " + c + rest == "Bytes" + (" : " + (a + " " + c + rest))
  {
    Assoc("Bytes : " + a + " ", c, rest);
    Assoc("Bytes : " + a, " ", c + rest);
    Assoc("Bytes : ", a, " " + (c + rest));
    Assoc(a, " ", c + rest);
    Assoc(a + " ", c, rest);
    assert "Bytes : " == "Bytes" + " : ";
    Assoc("Bytes", " : ", a + " " + c + rest);
  }

  /** `Bytes : ` before text that starts with a digit is the head of a match
      whose groups are those of the text. */
  lemma BytesRead(body: string)
    requires body != [] && IsDigit(body[0])
    ensures BytesAt("Bytes" + (" : " + body)) == SizeGroups(body)
  {
    var s := "Bytes" + (" : " + body);
    assert s[..5] == "Bytes" && s[5..] == " : " + body;
    AfterColonRead(body);
  }

  /** A `Bytes` line at the head of the log is the match, and its two size
      texts are what `parseSize` is given. */
  lemma BytesLineFirst(total: nat, tu: char, copied: nat, cu: char, rest: string)
    requires IsUnit(tu) && IsUnit(cu)
    ensures FirstBytes(BytesLine(total, tu, copied, cu) + rest) == Some((SizeText(total, tu), SizeText(copied, cu)))
  {
    var a, c := SizeText(total, tu), SizeText(copied, cu);
    var body := a + " " + c + rest;
    BytesLineShape(a, c, rest);
    assert body[0] == NatToString(total)[0];
    BytesRead(body);
    SizeGroupsRead(total, tu, copied, cu, rest);
  }

  /** A log that starts with its `Dirs` line reports that line's counts. */
  lemma DirsLineStats(total: nat, copied: nat, rest: string)
    requires rest == [] || !NumChar(rest[0])
    ensures var stats := LogStats(CountsLine("Dirs", total, copied) + rest);
      stats.totalDirs == total && stats.copiedDirs == copied
  {
    CountsLineFirst("Dirs", total, copied, rest);
  }

  /** A log that starts with its `Files` line reports that line's counts. */
  lemma FilesLineStats(total: nat, copied: nat, rest: string)
    requires rest == [] || !NumChar(rest[0])
    ensures var stats := LogStats(CountsLine("Files", total, copied) + rest);
      stats.totalFiles == total && stats.copiedFiles == copied
  {
    CountsLineFirst("Files", total, copied, rest);
  }

  /** A log that starts with its `Bytes` line reports each size times its
      unit's factor. */
  lemma BytesLineStats(total: nat, tu: char, copied: nat, cu: char, rest: string)
    requires IsUnit(tu) && IsUnit(cu)
    ensures var stats := LogStats(BytesLine(total, tu, copied, cu) + rest);
      && stats.totalBytes == Finite((total * Multiplier(Some(tu))) as real)
      && stats.copiedBytes == Finite((copied * Multiplier(Some(cu))) as real)
  {
    BytesLineFirst(total, tu, copied, cu, rest);
    ParseSizeWhole(total, tu);
    ParseSizeWhole(copied, cu);
    ScaleWhole(total, Multiplier(Some(tu)));
    ScaleWhole(copied, Multiplier(Some(cu)));
  }

  /** Scaling a whole number is whole-number multiplication. */
  lemma ScaleWhole(n: nat, factor: nat)
    ensures Scale(Finite(n as real), factor) == Finite((n * factor) as real)
  {
  }

  // ---- backupDirectory ----

  /** How the robocopy child process ended, as `promisify(exec)` reports it:
      resolved with its output, or rejected with an error carrying its `code`
      and, for a process that ran, its `stdout`. */
  datatype ExecOutcome =
    | Exited(stdout: string)
    | Rejected(error: Thrown, code: ExitCode, output: Option<string>)

  /** The `code` of a rejected `exec`: the numeric exit status, a Node error
      name such as `ENOENT`, or none. */
  datatype ExitCode = Status(n: int) | Named(name: string) | NoCode

  datatype BackupReport = BackupReport(success: bool, logPath: string, stats: RobocopyStats, stdout: string)

  /** The longest `stdout` excerpt a report keeps. */
  const StdoutLimit: nat := 500

  /** `new Date().toISOString().replace(/[:.]/g, '-').slice(0, -5)`. */
  function Timestamp(iso: string): string {
    DropLast(ReplaceEach(iso, {':', '.'}, '-'), 5)
  }

  /** An ISO time `YYYY-MM-DDTHH:mm:ss.sssZ` becomes `YYYY-MM-DDTHH-mm-ss`:
      the seconds' fraction and the zone letter go, and no `:` or `.` is left. */
  lemma TimestampOfIso(iso: string)
    requires |iso| == 24
    ensures var ts := Timestamp(iso);
      && |ts| == 19
      && (forall i :: 0 <= i < 19 ==> ts[i] == if iso[i] == ':' || iso[i] == '.' then '-' else iso[i])
      && (forall i :: 0 <= i < 19 ==> ts[i] != ':' && ts[i] != '.')
  {
  }

  /** The log file: the caller's `logPath` when given (and non-empty), else
      `backup-log-<timestamp>.txt` joined under the target directory. */
  function LogPathFor(targetPath: string, logPath: Option<string>, iso: string,
                      join: (string, string) -> string): string
  {
    if TruthyText(logPath) then logPath.value
    else join(targetPath, "backup-log-" + Timestamp(iso) + ".txt")
  }

  /** The robocopy command line: mirror, 3 retries 5 seconds apart, log to
      the file, no progress and no directory list. */
  function RobocopyCommand(sourcePath: string, targetPath: string, logPath: string): string {
    "robocopy \"" + sourcePath + "\" \"" + targetPath + "\" /MIR /R:3 /W:5 /LOG:\"" + logPath + "\" /NP /NDL"
  }

  /** Exit statuses from 8 up are robocopy failures. */
  predicate FailedStatus(code: ExitCode) {
    code.Status? && code.n >= 8
  }

  /** `backupDirectory`. `isoNow` is the current time in ISO form, `join` is
      `path.join`, `exec` runs a command line and `readFile` reads a file
      (`None` when it cannot). */
  method BackupDirectory(sourcePath: string, targetPath: string, logPath: Option<string>, isoNow: string,
                         join: (string, string) -> string, exec: string -> ExecOutcome,
                         readFile: string -> Option<string>)
    returns (r: Result<BackupReport>, command: string)
    ensures var path := LogPathFor(targetPath, logPath, isoNow, join);
      && command == RobocopyCommand(sourcePath, targetPath, path)
      && (exec(command).Rejected? && FailedStatus(exec(command).code) ==>
            r == Err(Error("Backup failed with exit code " + IntToString(exec(command).code.n) + ": "
                           + Describe(exec(command).error))))
      && (!(exec(command).Rejected? && FailedStatus(exec(command).code)) ==>
            && r.Ok? && r.value.success && r.value.logPath == path
            && r.value.stats == LogStats(readFile(path).GetOr(""))
            && r.value.stdout == (match exec(command)
                                  case Exited(out) => Take(out, StdoutLimit)
                                  case Rejected(_, _, out) => Take(out.GetOr(""), StdoutLimit)))
    ensures r.Ok? ==> |r.value.stdout| <= StdoutLimit
  {
    var path := LogPathFor(targetPath, logPath, isoNow, join);
    command := RobocopyCommand(sourcePath, targetPath, path);
    var outcome := exec(command);
    var out: string;
    match outcome {
      case Exited(stdout) =>
        out := Take(stdout, StdoutLimit);
      case Rejected(error, code, output) =>
        if code.Status? && code.n >= 8 {
          return Err(Error("Backup failed with exit code " + IntToString(code.n) + ": " + Describe(error))), command;
        }
        out := if output.Some? then Take(output.value, StdoutLimit) else "";
    }
    var content := ReadLogFile(path, readFile);
    var stats := ParseRobocopyLog(content);
    r := Ok(BackupReport(true, path, stats, out));
  }

  /** `readLogFile`: the file's text, or the empty text when it cannot be read. */
  method ReadLogFile(path: string, readFile: string -> Option<string>) returns (content: string)
    ensures readFile(path).Some? ==> content == readFile(path).value
    ensures readFile(path).None? ==> content == ""
  {
    match readFile(path) {
      case Some(text) => content := text;
      case None => content := "";
    }
  }
}
