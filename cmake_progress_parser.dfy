/** The progress parser of the CMake build step (CmakeProgressParser in
    cmakebuildstep.cpp): recognises make's "[ 33%]" and ninja's "[33/100"
    progress lines on standard output. Whitespace is the ASCII set of PCRE's
    \s and digits are '0'..'9'. */
module CmakeProgress {
  import opened Wrappers

  /** Utils::OutputFormat: where a line of build output came from. */
  datatype OutputFormat =
    | NormalMessageFormat | ErrorMessageFormat | LogMessageFormat | DebugFormat
    | StdOutFormat | StdErrFormat | GeneralMessageFormat

  /** Utils::OutputLineParser::Status. */
  datatype Status = Done | InProgress | NotHandled

  /** The largest value QString::toInt accepts. */
  const IntMax: nat := 2147483647

  predicate IsSpace(c: char) {
    c == ' ' || 9 <= c as int <= 13
  }

  predicate IsDigit(c: char) {
    '0' <= c <= '9'
  }

  predicate AllDigits(s: string) {
    forall i :: 0 <= i < |s| ==> IsDigit(s[i])
  }

  // ---------------------------------------------------------------- scanning

  /** s[i..j] is whitespace. */
  predicate SpacesIn(s: string, i: nat, j: nat) {
    i <= j <= |s| && forall k :: i <= k < j ==> IsSpace(s[k])
  }

  /** s[i..j] is digits. */
  predicate DigitsIn(s: string, i: nat, j: nat) {
    i <= j <= |s| && forall k :: i <= k < j ==> IsDigit(s[k])
  }

  /** The end of the whitespace run that starts at `i`. */
  function SpaceRun(s: string, i: nat): (j: nat)
    requires i <= |s|
    ensures SpacesIn(s, i, j) && (j < |s| ==> !IsSpace(s[j]))
    decreases |s| - i
  {
    if i < |s| && IsSpace(s[i]) then SpaceRun(s, i + 1) else i
  }

  /** The end of the digit run that starts at `i`. */
  function DigitRun(s: string, i: nat): (j: nat)
    requires i <= |s|
    ensures DigitsIn(s, i, j) && (j < |s| ==> !IsDigit(s[j]))
    decreases |s| - i
  {
    if i < |s| && IsDigit(s[i]) then DigitRun(s, i + 1) else i
  }

  /** A run is determined by where it starts: any stretch of whitespace that
      ends before a non-space is the run. */
  lemma {:induction false} SpaceRunIs(s: string, i: nat, j: nat)
    requires SpacesIn(s, i, j) && (j < |s| ==> !IsSpace(s[j]))
    ensures SpaceRun(s, i) == j
    decreases j - i
  {
    if i < j {
      SpaceRunIs(s, i + 1, j);
    }
  }

  lemma {:induction false} DigitRunIs(s: string, i: nat, j: nat)
    requires DigitsIn(s, i, j) && (j < |s| ==> !IsDigit(s[j]))
    ensures DigitRun(s, i) == j
    decreases j - i
  {
    if i < j {
      DigitRunIs(s, i + 1, j);
    }
  }

  /** The capture of ^\[\s*(\d*)%\] in `line`, if it matches. */
  function MatchPercent(line: string): Option<string> {
    if |line| == 0 || line[0] != '[' then None
    else
      var i := SpaceRun(line, 1);
      var j := DigitRun(line, i);
      if j + 2 <= |line| && line[j] == '%' && line[j + 1] == ']' then Some(line[i..j]) else None
  }

  /** The two captures of ^\[\s*(\d*)/\s*(\d*) in `line`, if it matches. */
  function MatchNinja(line: string): Option<(string, string)> {
    if |line| == 0 || line[0] != '[' then None
    else
      var i := SpaceRun(line, 1);
      var j := DigitRun(line, i);
      if j < |line| && line[j] == '/' then
        var k := SpaceRun(line, j + 1);
        var m := DigitRun(line, k);
        Some((line[i..j], line[k..m]))
      else None
  }

  // ---------------------------------------------------------------- the patterns

  /** ^\[\s*(\d*)%\] matches `line` with the capture at [i, j): an opening
      bracket, whitespace up to i, digits up to j, then "%]". */
  predicate PercentAt(line: string, i: nat, j: nat) {
    |line| > 0 && line[0] == '[' && 1 <= i && SpacesIn(line, 1, i) && DigitsIn(line, i, j) &&
    j + 2 <= |line| && line[j] == '%' && line[j + 1] == ']'
  }

  ghost predicate PercentShape(line: string, digits: string) {
    exists i: nat, j: nat :: PercentAt(line, i, j) && line[i..j] == digits
  }

  /** ^\[\s*(\d*)/\s*(\d*) matches `line` with the captures at [i, j) and
      [k, m). The greedy quantifiers take the longest runs, so what follows
      the second whitespace run is not whitespace and what follows the
      second digit run is not a digit. */
  predicate NinjaAt(line: string, i: nat, j: nat, k: nat, m: nat) {
    |line| > 0 && line[0] == '[' && 1 <= i && SpacesIn(line, 1, i) && DigitsIn(line, i, j) &&
    j < |line| && line[j] == '/' && SpacesIn(line, j + 1, k) && DigitsIn(line, k, m) &&
    (k < |line| ==> !IsSpace(line[k])) && (m < |line| ==> !IsDigit(line[m]))
  }

  ghost predicate NinjaShape(line: string, done: string, all: string) {
    exists i: nat, j: nat, k: nat, m: nat ::
      NinjaAt(line, i, j, k, m) && line[i..j] == done && line[k..m] == all
  }

  /** Where the percent pattern matches, the scanner finds the same runs. */
  lemma PercentAtRuns(line: string, i: nat, j: nat)
    requires PercentAt(line, i, j)
    ensures SpaceRun(line, 1) == i && DigitRun(line, i) == j
  {
    assert i < j ==> IsDigit(line[i]);
    SpaceRunIs(line, 1, i);
    DigitRunIs(line, i, j);
  }

  /** Where the ninja pattern matches, the scanner finds the same runs. */
  lemma NinjaAtRuns(line: string, i: nat, j: nat, k: nat, m: nat)
    requires NinjaAt(line, i, j, k, m)
    ensures SpaceRun(line, 1) == i && DigitRun(line, i) == j
    ensures SpaceRun(line, j + 1) == k && DigitRun(line, k) == m
  {
    assert i < j ==> IsDigit(line[i]);
    SpaceRunIs(line, 1, i);
    DigitRunIs(line, i, j);
    SpaceRunIs(line, j + 1, k);
    DigitRunIs(line, k, m);
  }

  /** The scanner finds exactly the capture the percent pattern defines. */
  lemma MatchPercentIff(line: string, digits: string)
    ensures MatchPercent(line) == Some(digits) <==> PercentShape(line, digits)
  {
    if MatchPercent(line) == Some(digits) {
      var i := SpaceRun(line, 1);
      var j := DigitRun(line, i);
      assert PercentAt(line, i, j) && line[i..j] == digits;
    }
    if PercentShape(line, digits) {
      var i: nat, j: nat :| PercentAt(line, i, j) && line[i..j] == digits;
      PercentAtRuns(line, i, j);
    }
  }

  lemma NinjaMatchHasShape(line: string)
    requires MatchNinja(line).Some?
    ensures NinjaShape(line, MatchNinja(line).value.0, MatchNinja(line).value.1)
  {
    var i := SpaceRun(line, 1);
    var j := DigitRun(line, i);
    var k := SpaceRun(line, j + 1);
    var m := DigitRun(line, k);
    assert NinjaAt(line, i, j, k, m);
  }

  /** The scanner finds exactly the captures the ninja pattern defines. */
  lemma MatchNinjaIff(line: string, done: string, all: string)
    ensures MatchNinja(line) == Some((done, all)) <==> NinjaShape(line, done, all)
  {
    if MatchNinja(line) == Some((done, all)) {
      NinjaMatchHasShape(line);
    }
    if NinjaShape(line, done, all) {
      var i: nat, j: nat, k: nat, m: nat :|
        NinjaAt(line, i, j, k, m) && line[i..j] == done && line[k..m] == all;
      NinjaAtRuns(line, i, j, k, m);
    }
  }

  /** No line matches both patterns, so the order in which they are tried
      does not matter. */
  lemma PatternsExclusive(line: string, digits: string, done: string, all: string)
    ensures !(PercentShape(line, digits) && NinjaShape(line, done, all))
  {
    MatchPercentIff(line, digits);
    MatchNinjaIff(line, done, all);
  }

  // ---------------------------------------------------------------- numbers

  /** The value of a digit string, most significant digit first. */
  function DecimalValue(s: string): nat
    requires AllDigits(s)
  {
    if s == [] then 0 else 10 * DecimalValue(s[..|s| - 1]) + ((s[|s| - 1] as int) - ('0' as int))
  }

  /** QString::toInt on a digit run: fails when the run is empty or the
      value does not fit a signed 32-bit int. */
  function ToInt(s: string): (r: Option<int>)
    ensures r.Some? <==> s != [] && AllDigits(s) && DecimalValue(s) <= IntMax
    ensures r.Some? ==> r.value == DecimalValue(s) && 0 <= r.value <= IntMax
  {
    if s == [] || !AllDigits(s) then None
    else if DecimalValue(s) > IntMax then None
    else Some(DecimalValue(s))
  }

  /** The decimal rendering of `n` without leading zeros, as ninja and make
      print their counters. */
  function Decimal(n: nat): (s: string)
    ensures |s| > 0 && AllDigits(s)
  {
    if n < 10 then [(('0' as int) + n) as char]
    else Decimal(n / 10) + [(('0' as int) + n % 10) as char]
  }

  lemma {:induction false} DecimalRoundTrip(n: nat)
    ensures DecimalValue(Decimal(n)) == n
  {
    var s := Decimal(n);
    if n >= 10 {
      assert s[..|s| - 1] == Decimal(n / 10);
      DecimalRoundTrip(n / 10);
    }
  }

  /** A printed counter is read back as the number printed. */
  lemma ToIntOfDecimal(n: nat)
    requires n <= IntMax
    ensures ToInt(Decimal(n)) == Some(n)
  {
    DecimalRoundTrip(n);
  }

  /** The percentage a ninja line reports: 100 * done / all, truncated,
      when both counters parse and `all` is not zero. */
  function NinjaProgress(done: Option<int>, all: Option<int>): (r: Option<int>)
    ensures r.Some? <==> done.Some? && all.Some? && all.value != 0
    ensures r.Some? && 0 <= done.value <= all.value ==> 0 <= r.value <= 100
  {
    if done.Some? && all.Some? && all.value != 0 then
      var p := 100 * done.value / all.value;
      PercentBound(done.value, all.value);
      Some(p)
    else None
  }

  lemma PercentBound(done: int, all: int)
    requires all != 0
    ensures 0 <= done <= all ==> 0 <= 100 * done / all <= 100
  {
    if 0 <= done <= all {
      assert 100 * done <= 100 * all;
      assert (100 * done / all) * all <= 100 * done;
    }
  }

  // ---------------------------------------------------------------- classification

  /** What a standard-output line is, as far as progress is concerned. */
  datatype Recognised =
    | PercentLine(progress: Option<int>)
    | NinjaLine(progress: Option<int>)
    | OtherLine

  function Classify(line: string): Recognised {
    match MatchPercent(line)
    case Some(digits) => PercentLine(ToInt(digits))
    case None =>
      match MatchNinja(line)
      case Some((done, all)) => NinjaLine(NinjaProgress(ToInt(done), ToInt(all)))
      case None => OtherLine
  }

  /** The status handleLine returns and the progress it emits, if any. */
  function Outcome(line: string, format: OutputFormat): (Status, Option<int>) {
    if format != StdOutFormat then (NotHandled, None)
    else
      match Classify(line)
      case PercentLine(p) => (Done, p)
      case NinjaLine(p) => (Done, p)
      case OtherLine => (NotHandled, None)
  }

  /** A make line with no digits, such as "[%]", is handled without
      reporting progress. */
  lemma PercentWithoutDigits(line: string)
    requires |line| >= 3 && line[0] == '[' && line[1] == '%' && line[2] == ']'
    ensures Classify(line) == PercentLine(None)
    ensures Outcome(line, StdOutFormat) == (Done, None)
  {
    assert PercentShape(line, line[1..1]);
    MatchPercentIff(line, line[1..1]);
  }

  /** A make line reports the number between the brackets. */
  lemma PercentLineOf(n: nat, rest: string)
    requires n <= IntMax
    ensures Classify("[" + Decimal(n) + "%]" + rest) == PercentLine(Some(n))
  {
    var d := Decimal(n);
    var line := "[" + d + "%]" + rest;
    assert line[1..|d| + 1] == d;
    assert line[|d| + 1] == '%' && line[|d| + 2] == ']';
    assert PercentShape(line, d);
    MatchPercentIff(line, d);
    ToIntOfDecimal(n);
  }

  /** Ninja's status "[done/all " yields 100 * done / all, truncated. */
  lemma NinjaLineOf(done: nat, all: nat, rest: string)
    requires done <= IntMax && 0 < all <= IntMax
    requires rest == [] || !IsDigit(rest[0])
    ensures Classify("[" + Decimal(done) + ("/" + (Decimal(all) + rest))) ==
            NinjaLine(Some(100 * done / all))
  {
    var d1 := Decimal(done);
    var d2 := Decimal(all);
    var tail := d2 + rest;
    var line := "[" + d1 + ("/" + tail);
    var j := |d1| + 1;
    var m := j + 1 + |d2|;
    forall p | 1 <= p < j ensures line[p] == d1[p - 1] {}
    assert line[j] == '/';
    forall p | j + 1 <= p < |line| ensures line[p] == tail[p - j - 1] {}
    forall p | j + 1 <= p < m ensures line[p] == d2[p - j - 1] {}
    assert m < |line| ==> line[m] == rest[0];
    assert NinjaAt(line, 1, j, j + 1, m);
    NinjaAtRuns(line, 1, j, j + 1, m);
    assert line[1..j] == d1;
    assert line[j + 1..m] == d2;
    ToIntOfDecimal(done);
    ToIntOfDecimal(all);
  }

  /** A ninja line whose counters do not parse is still handled. */
  lemma NinjaWithoutCounters(line: string)
    requires |line| >= 2 && line[0] == '[' && line[1] == '/'
    ensures Classify(line).NinjaLine? && Classify(line).progress == None
  {
    var k := SpaceRun(line, 2);
    var m := DigitRun(line, k);
    assert NinjaShape(line, line[1..1], line[k..m]);
    MatchNinjaIff(line, line[1..1], line[k..m]);
  }

  // ---------------------------------------------------------------- the parser

  /** Whether a parser that starts with `detected` has seen a ninja line
      after handling `lines`. */
  function DetectedAfter(detected: bool, lines: seq<(string, OutputFormat)>): bool
    decreases |lines|
  {
    if lines == [] then detected
    else
      DetectedAfter(detected || (lines[0].1 == StdOutFormat && Classify(lines[0].0).NinjaLine?),
                    lines[1..])
  }

  /** Redirection is detected exactly when it was already, or some line
      was a ninja progress line on standard output; nothing resets it. */
  lemma {:induction false} DetectedAfterIff(detected: bool, lines: seq<(string, OutputFormat)>)
    ensures DetectedAfter(detected, lines) <==>
            detected || exists i :: 0 <= i < |lines| &&
                                    lines[i].1 == StdOutFormat && Classify(lines[i].0).NinjaLine?
    decreases |lines|
  {
    if lines != [] {
      var next := detected || (lines[0].1 == StdOutFormat && Classify(lines[0].0).NinjaLine?);
      DetectedAfterIff(next, lines[1..]);
      if exists i :: 0 <= i < |lines| && lines[i].1 == StdOutFormat && Classify(lines[i].0).NinjaLine? {
        var i :| 0 <= i < |lines| && lines[i].1 == StdOutFormat && Classify(lines[i].0).NinjaLine?;
        if i > 0 {
          assert lines[1..][i - 1] == lines[i];
        }
      }
      if exists i :: 0 <= i < |lines[1..]| &&
                     lines[1..][i].1 == StdOutFormat && Classify(lines[1..][i].0).NinjaLine? {
        var i :| 0 <= i < |lines[1..]| &&
                 lines[1..][i].1 == StdOutFormat && Classify(lines[1..][i].0).NinjaLine?;
        assert lines[i + 1] == lines[1..][i];
      }
    }
  }

  /** CmakeProgressParser: the line parser with its one sticky flag. */
  class CmakeProgressParser {
    var useNinja: bool

    constructor ()
      ensures !useNinja
    {
      useNinja := false;
    }

    /** handleLine: the status, the progress emitted (if any) and whether a
        ninja line has now been seen. */
    method HandleLine(line: string, format: OutputFormat) returns (status: Status, progress: Option<int>)
      modifies this
      ensures (status, progress) == Outcome(line, format)
      ensures useNinja == DetectedAfter(old(useNinja), [(line, format)])
    {
      if format != StdOutFormat {
        return NotHandled, None;
      }
      var percent := MatchPercent(line);
      if percent.Some? {
        return Done, ToInt(percent.value);
      }
      var ninja := MatchNinja(line);
      if ninja.Some? {
        useNinja := true;
        var done := ToInt(ninja.value.0);
        progress := None;
        if done.Some? {
          var all := ToInt(ninja.value.1);
          if all.Some? && all.value != 0 {
            progress := Some(100 * done.value / all.value);
          }
        }
        return Done, progress;
      }
      return NotHandled, None;
    }

    function HasDetectedRedirection(): bool
      reads this
    {
      useNinja
    }
  }

  /** A make line reports its percentage and leaves redirection undetected;
      a ninja line reports its ratio and detects it; whatever follows, the
      parser keeps reporting redirection. */
  method DetectionSession(percent: nat, done: nat, all: nat, later: string, laterFormat: OutputFormat)
    returns (makeProgress: Option<int>, afterMake: bool, ninjaProgress: Option<int>, afterNinja: bool,
             afterLater: bool)
    requires percent <= IntMax && done <= IntMax && 0 < all <= IntMax
    ensures makeProgress == Some(percent) && !afterMake
    ensures ninjaProgress == Some(100 * done / all) && afterNinja
    ensures afterLater
  {
    var makeLine := "[" + Decimal(percent) + "%]" + " Building CXX object";
    PercentLineOf(percent, " Building CXX object");
    var ninjaLine := "[" + Decimal(done) + ("/" + (Decimal(all) + " Linking"));
    NinjaLineOf(done, all, " Linking");
    var parser := new CmakeProgressParser();
    var _, p1 := parser.HandleLine(makeLine, StdOutFormat);
    makeProgress := p1;
    afterMake := parser.HasDetectedRedirection();
    var _, p2 := parser.HandleLine(ninjaLine, StdOutFormat);
    ninjaProgress := p2;
    afterNinja := parser.HasDetectedRedirection();
    var _, _ := parser.HandleLine(later, laterFormat);
    afterLater := parser.HasDetectedRedirection();
  }
}
