/** Reading the error and warning totals out of the text that the taplint
    validator prints (services/taplint.py, `TaplintParserService`).

    The output is split at newlines; the lines are scanned from the last one
    backwards, and the first line met that starts with "Totals:" (the last
    such line in text order) is the summary. On it, `Errors:` and `Warnings:`
    are each looked up with the pattern `<key>\s+(\d+)`; a key that does not
    match leaves its count at 0. */
module Taplint {
  import opened Wrappers
  import opened Text

  // ---------------------------------------------------------------------
  // Lines

  /** `s.split("\n")`: the pieces between newlines, always at least one. */
  function Split(s: string): (lines: seq<string>)
    ensures |lines| >= 1
    ensures forall i :: 0 <= i < |lines| ==> '\n' !in lines[i]
    decreases |s|
  {
    if |s| == 0 then [""]
    else
      var rest := Split(s[1..]);
      if s[0] == '\n' then [""] + rest
      else [[s[0]] + rest[0]] + rest[1..]
  }

  /** `"\n".join(lines)`. */
  function Join(lines: seq<string>): string
    requires |lines| >= 1
    decreases |lines|
  {
    if |lines| == 1 then lines[0] else lines[0] + "\n" + Join(lines[1..])
  }

  /** Splitting loses nothing: joining the lines gives the text back. */
  lemma {:induction false} JoinSplit(s: string)
    ensures Join(Split(s)) == s
    decreases |s|
  {
    if |s| > 0 {
      var rest := Split(s[1..]);
      JoinSplit(s[1..]);
      if s[0] == '\n' {
        assert Split(s) == [""] + rest;
        assert ([""] + rest)[1..] == rest;
      } else if |rest| == 1 {
        assert Split(s) == [[s[0]] + rest[0]];
      } else {
        var first := [[s[0]] + rest[0]];
        assert Split(s) == first + rest[1..];
        assert (first + rest[1..])[1..] == rest[1..];
        assert Join(rest) == rest[0] + "\n" + Join(rest[1..]);
      }
    }
  }

  /** Text joined at a newline splits into the lines of each part. */
  lemma {:induction false} SplitConcat(a: string, b: string)
    ensures Split(a + "\n" + b) == Split(a) + Split(b)
    decreases |a|
  {
    var s := a + "\n" + b;
    if |a| == 0 {
      assert s == "\n" + b;
      assert s[1..] == b;
    } else {
      assert s[1..] == a[1..] + "\n" + b;
      SplitConcat(a[1..], b);
    }
  }

  /** A text without a newline is a single line. */
  lemma {:induction false} SplitSingleLine(s: string)
    requires '\n' !in s
    ensures Split(s) == [s]
    decreases |s|
  {
    if |s| > 0 {
      assert forall k :: 0 <= k < |s[1..]| ==> s[1..][k] == s[k + 1];
      SplitSingleLine(s[1..]);
      assert [s[0]] + s[1..] == s;
    }
  }

  // ---------------------------------------------------------------------
  // The pattern `<key>\s+(\d+)`, ASCII only

  /** `\s` on ASCII: the characters `str.isspace()` accepts there, that is
      space, tab, newline, vertical tab, form feed, carriage return and the
      four separators U+001C to U+001F. */
  predicate IsSpace(c: char) { c == ' ' || '\t' <= c <= '\r' || '\U{1C}' <= c <= '\U{1F}' }

  /** The length of the run of whitespace starting at `j`. */
  function SpaceRun(line: string, j: nat): (n: nat)
    requires j <= |line|
    ensures j + n <= |line|
    ensures forall k :: j <= k < j + n ==> IsSpace(line[k])
    ensures j + n < |line| ==> !IsSpace(line[j + n])
    decreases |line| - j
  {
    if j < |line| && IsSpace(line[j]) then 1 + SpaceRun(line, j + 1) else 0
  }

  /** The length of the run of digits starting at `j`. */
  function DigitRun(line: string, j: nat): (n: nat)
    requires j <= |line|
    ensures j + n <= |line|
    ensures forall k :: j <= k < j + n ==> IsDigit(line[k])
    ensures j + n < |line| ==> !IsDigit(line[j + n])
    decreases |line| - j
  {
    if j < |line| && IsDigit(line[j]) then 1 + DigitRun(line, j + 1) else 0
  }

  predicate KeyAt(line: string, key: string, i: nat)
  {
    i + |key| <= |line| && line[i..i + |key|] == key
  }

  /** The number captured when the pattern matches at position `i`: the key,
      then at least one whitespace character, then the maximal digit run. */
  function MatchAt(line: string, key: string, i: nat): (r: Option<nat>)
    requires i <= |line|
    ensures r.Some? ==> KeyAt(line, key, i)
    ensures KeyAt(line, key, i) && i + |key| < |line| && !IsSpace(line[i + |key|]) ==> r.None?
  {
    if KeyAt(line, key, i) then
      var j := i + |key|;
      var w := SpaceRun(line, j);
      var d := DigitRun(line, j + w);
      if w > 0 && d > 0 then
        var ds := line[j + w..j + w + d];
        assert forall k :: 0 <= k < |ds| ==> ds[k] == line[j + w + k];
        Some(DecimalValue(ds))
      else None
    else None
  }

  /** The leftmost position at or after `i` where the pattern matches. */
  function LeftmostMatch(line: string, key: string, i: nat): (r: Option<nat>)
    requires i <= |line|
    ensures r.None? <==> forall k :: i <= k <= |line| ==> MatchAt(line, key, k).None?
    ensures r.Some? ==>
      && i <= r.value <= |line|
      && MatchAt(line, key, r.value).Some?
      && forall k :: i <= k < r.value ==> MatchAt(line, key, k).None?
    decreases |line| - i
  {
    if MatchAt(line, key, i).Some? then Some(i)
    else if i == |line| then None
    else LeftmostMatch(line, key, i + 1)
  }

  /** `re.search(key + r"\s+(\d+)", line)` followed by `int(m.group(1))`. */
  function Search(line: string, key: string): (r: Option<nat>)
  {
    match LeftmostMatch(line, key, 0)
    case None => None
    case Some(k) => MatchAt(line, key, k)
  }

  /** The found value is that of the leftmost match, given the positions
      before it do not match. */
  lemma SearchFindsLeftmost(line: string, key: string, k: nat)
    requires k <= |line|
    requires MatchAt(line, key, k).Some?
    requires forall m :: 0 <= m < k ==> MatchAt(line, key, m).None?
    ensures Search(line, key) == MatchAt(line, key, k)
  {
    var r := LeftmostMatch(line, key, 0);
    assert r.Some?;
  }

  /** A position whose character differs from the key's first one is no match. */
  lemma NoKeyNoMatch(line: string, key: string, m: nat)
    requires m <= |line| && |key| > 0
    requires m + |key| > |line| || line[m] != key[0]
    ensures MatchAt(line, key, m).None?
  {
    assert m + |key| <= |line| ==> line[m..m + |key|][0] == line[m];
  }

  /** Where the key stands, the pattern matches exactly when at least one
      whitespace character follows it and then at least one digit: the key
      followed by whitespace and no digit, or by the end of the line, is no
      match. */
  lemma MatchAtIff(line: string, key: string, i: nat)
    requires KeyAt(line, key, i)
    ensures var j := i + |key|;
      MatchAt(line, key, i).Some? <==> SpaceRun(line, j) > 0 && DigitRun(line, j + SpaceRun(line, j)) > 0
  {
  }

  /** A key that occurs nowhere in the line gives no match. */
  lemma AbsentKeyNoMatch(line: string, key: string)
    requires |key| > 0 && key[0] !in line
    ensures Search(line, key).None?
  {
    NoMatchBefore(line, key, |line|);
    NoKeyNoMatch(line, key, |line|);
  }

  /** An occurrence of the key without a number after it is skipped, and the
      search goes on to the next occurrence. */
  lemma NonNumericOccurrenceSkipped()
    ensures Search("Errors: x Errors: 5", "Errors:") == Some(5)
  {
    var line, key := "Errors: x Errors: 5", "Errors:";
    NoMatchBeforeSecondKey(line, key);
    SecondKeyMatches(line, key);
    SearchFindsLeftmost(line, key, 10);
  }

  lemma NoMatchBeforeSecondKey(line: string, key: string)
    requires line == "Errors: x Errors: 5" && key == "Errors:"
    ensures forall m :: 0 <= m < 10 ==> MatchAt(line, key, m).None?
  {
    assert KeyAt(line, key, 0) by {
      assert line[0..7] == key;
    }
    SpaceRunExact(line, 7, 1);
    DigitRunExact(line, 8, 0);
    MatchAtIff(line, key, 0);
    forall m | 1 <= m < 10
      ensures MatchAt(line, key, m).None?
    {
      NoKeyNoMatch(line, key, m);
    }
  }

  lemma SecondKeyMatches(line: string, key: string)
    requires line == "Errors: x Errors: 5" && key == "Errors:"
    ensures MatchAt(line, key, 10) == Some(5)
  {
    assert KeyAt(line, key, 10) by {
      assert line[10..17] == key;
    }
    MatchAtRuns(line, key, 10, 1, 1);
    assert line[18..19] == "5";
    assert DecimalValue("5") == 5;
  }

  // ---------------------------------------------------------------------
  // The summary

  /** The error and warning totals; they cannot be missing or negative. */
  datatype Counts = Counts(errors: nat, warnings: nat)

  predicate IsTotalsLine(line: string) { StartsWith(line, "Totals:") }

  /** The index of the last summary line, if any. */
  function LastTotalsIndex(lines: seq<string>): (r: Option<nat>)
    ensures r.None? <==> forall i :: 0 <= i < |lines| ==> !IsTotalsLine(lines[i])
    ensures r.Some? ==>
      && r.value < |lines|
      && IsTotalsLine(lines[r.value])
      && forall j :: r.value < j < |lines| ==> !IsTotalsLine(lines[j])
    decreases |lines|
  {
    if |lines| == 0 then None
    else if IsTotalsLine(lines[|lines| - 1]) then Some(|lines| - 1)
    else LastTotalsIndex(lines[..|lines| - 1])
  }

  /** The count a key yields on the summary line: its match, or 0. */
  function FieldOrZero(line: string, key: string): nat
  {
    match Search(line, key)
    case Some(v) => v
    case None => 0
  }

  /** The totals read from a taplint output: the specification that
      `ParseSummary` is proved against. */
  function Summary(output: string): Counts
  {
    var lines := Split(output);
    match LastTotalsIndex(lines)
    case None => Counts(0, 0)
    case Some(i) => Counts(FieldOrZero(lines[i], "Errors:"), FieldOrZero(lines[i], "Warnings:"))
  }

  /** The summary is read from line `i` when that is the last summary line. */
  lemma SummaryAt(output: string, i: nat)
    requires i < |Split(output)| && IsTotalsLine(Split(output)[i])
    requires forall j :: i < j < |Split(output)| ==> !IsTotalsLine(Split(output)[j])
    ensures Summary(output) == Counts(FieldOrZero(Split(output)[i], "Errors:"), FieldOrZero(Split(output)[i], "Warnings:"))
  {
    assert LastTotalsIndex(Split(output)) == Some(i);
  }

  /** `TaplintParserService.parse_summary(output)`: walk the lines from the
      end and stop at the first summary line. */
  method ParseSummary(output: string) returns (errors: int, warnings: int)
    ensures errors >= 0 && warnings >= 0
    ensures errors == Summary(output).errors && warnings == Summary(output).warnings
  {
    errors, warnings := 0, 0;
    var lines := Split(output);
    var i := |lines|;
    while i > 0
      invariant 0 <= i <= |lines|
      invariant forall j :: i <= j < |lines| ==> !IsTotalsLine(lines[j])
      invariant errors == 0 && warnings == 0
      decreases i
    {
      i := i - 1;
      var line := lines[i];
      if StartsWith(line, "Totals:") {
        var errorMatch := Search(line, "Errors:");
        if errorMatch.Some? {
          errors := errorMatch.value;
        }
        var warningMatch := Search(line, "Warnings:");
        if warningMatch.Some? {
          warnings := warningMatch.value;
        }
        SummaryAt(output, i);
        break;
      }
    }
  }

  // ---------------------------------------------------------------------
  // Properties of the summary

  /** Without a summary line both totals are 0. */
  lemma NoTotalsLineGivesZero(output: string)
    requires forall i :: 0 <= i < |Split(output)| ==> !IsTotalsLine(Split(output)[i])
    ensures Summary(output) == Counts(0, 0)
  {
  }

  lemma {:induction false} LastTotalsIndexAppend(a: seq<string>, b: seq<string>)
    ensures LastTotalsIndex(b).Some? ==> LastTotalsIndex(a + b) == Some(|a| + LastTotalsIndex(b).value)
    ensures LastTotalsIndex(b).None? ==> LastTotalsIndex(a + b) == LastTotalsIndex(a)
    decreases |b|
  {
    if |b| == 0 {
      assert a + b == a;
    } else {
      var ab := a + b;
      assert ab[|ab| - 1] == b[|b| - 1];
      if !IsTotalsLine(b[|b| - 1]) {
        assert ab[..|ab| - 1] == a + b[..|b| - 1];
        LastTotalsIndexAppend(a, b[..|b| - 1]);
      }
    }
  }

  /** Only the last summary line counts: whatever comes before a text that
      holds a summary line has no effect, and a tail without one changes
      nothing. */
  lemma {:induction false} LastTotalsLineWins(earlier: string, later: string)
    ensures (exists i :: 0 <= i < |Split(later)| && IsTotalsLine(Split(later)[i])) ==>
      Summary(earlier + "\n" + later) == Summary(later)
    ensures (forall i :: 0 <= i < |Split(later)| ==> !IsTotalsLine(Split(later)[i])) ==>
      Summary(earlier + "\n" + later) == Summary(earlier)
  {
    var a, b := Split(earlier), Split(later);
    SplitConcat(earlier, later);
    LastTotalsIndexAppend(a, b);
    match LastTotalsIndex(b)
    case Some(j) =>
      assert (a + b)[|a| + j] == b[j];
    case None =>
      match LastTotalsIndex(a)
      case Some(i) =>
        assert (a + b)[i] == a[i];
      case None =>
  }

  /** A one-line output is its own summary line when it starts with "Totals:". */
  lemma SingleLineSummary(line: string)
    requires '\n' !in line
    ensures IsTotalsLine(line) ==>
      Summary(line) == Counts(FieldOrZero(line, "Errors:"), FieldOrZero(line, "Warnings:"))
    ensures !IsTotalsLine(line) ==> Summary(line) == Counts(0, 0)
  {
    SplitSingleLine(line);
  }

  /** The number read where the pattern stands at `i`: `key`, a run of `w`
      whitespace characters, then a maximal run of `d` digits. */
  lemma MatchAtRuns(line: string, key: string, i: nat, w: nat, d: nat)
    requires KeyAt(line, key, i)
    requires w >= 1 && d >= 1 && i + |key| + w + d <= |line|
    requires forall k :: i + |key| <= k < i + |key| + w ==> IsSpace(line[k])
    requires forall k :: i + |key| + w <= k < i + |key| + w + d ==> IsDigit(line[k])
    requires i + |key| + w + d < |line| ==> !IsDigit(line[i + |key| + w + d])
    ensures MatchAt(line, key, i) == Some(DecimalValue(line[i + |key| + w..i + |key| + w + d]))
  {
    var j := i + |key|;
    SpaceRunExact(line, j, w);
    DigitRunExact(line, j + w, d);
  }

  lemma {:induction false} SpaceRunExact(line: string, j: nat, n: nat)
    requires j + n <= |line|
    requires forall k :: j <= k < j + n ==> IsSpace(line[k])
    requires j + n < |line| ==> !IsSpace(line[j + n])
    ensures SpaceRun(line, j) == n
    decreases n
  {
    if n > 0 {
      SpaceRunExact(line, j + 1, n - 1);
    }
  }

  lemma {:induction false} DigitRunExact(line: string, j: nat, n: nat)
    requires j + n <= |line|
    requires forall k :: j <= k < j + n ==> IsDigit(line[k])
    requires j + n < |line| ==> !IsDigit(line[j + n])
    ensures DigitRun(line, j) == n
    decreases n
  {
    if n > 0 {
      DigitRunExact(line, j + 1, n - 1);
    }
  }

  /** No match starts where the key's first character is absent. */
  lemma NoMatchBefore(line: string, key: string, n: nat)
    requires |key| > 0 && n <= |line|
    requires forall m :: 0 <= m < n ==> line[m] != key[0]
    ensures forall m :: 0 <= m < n ==> MatchAt(line, key, m).None?
  {
    forall m | 0 <= m < n
      ensures MatchAt(line, key, m).None?
    {
      NoKeyNoMatch(line, key, m);
    }
  }

  /** The summary line in the format taplint prints it. */
  function TotalsLine(errors: nat, warnings: nat): string
  {
    "Totals: Errors: " + NatToDecimal(errors) + " Warnings: " + NatToDecimal(warnings)
  }

  lemma TotalsLineIsSummaryLine(errors: nat, warnings: nat)
    ensures '\n' !in TotalsLine(errors, warnings)
    ensures IsTotalsLine(TotalsLine(errors, warnings))
  {
    var p, q := "Totals: Errors: ", " Warnings: ";
    var d1, d2 := NatToDecimal(errors), NatToDecimal(warnings);
    var line := p + d1 + q + d2;
    var a := |p| + |d1|;
    assert forall m :: 0 <= m < |p| ==> p[m] != '\n';
    assert forall m :: 0 <= m < |q| ==> q[m] != '\n';
    forall m | 0 <= m < |line|
      ensures line[m] != '\n'
    {
      if m >= a + |q| {
        assert line[m] == d2[m - a - |q|];
      } else if m >= a {
        assert line[m] == q[m - a];
      } else if m >= |p| {
        assert line[m] == d1[m - |p|];
      } else {
        assert line[m] == p[m];
      }
    }
    assert line[..7] == p[..7];
  }

  /** Where the parts of `pre + key + " " + ds + rest` stand. */
  lemma PrefixLayout(pre: string, key: string, ds: string, rest: string)
    ensures var line := pre + key + " " + ds + rest;
      && var j := |pre| + |key| + 1;
      && |line| == j + |ds| + |rest|
      && (forall m :: 0 <= m < |pre| ==> line[m] == pre[m])
      && KeyAt(line, key, |pre|)
      && line[|pre| + |key|] == ' '
      && line[j..j + |ds|] == ds
      && (j + |ds| < |line| ==> line[j + |ds|] == rest[0])
  {
    var line := pre + key + " " + ds + rest;
    var i := |pre|;
    var j := i + |key| + 1;
    assert line == pre + (key + (" " + (ds + rest)));
    assert line[i..i + |key|] == key;
    assert line[j..j + |ds|] == ds;
  }

  /** The characters of a slice of digits are digits. */
  lemma DigitSlice(line: string, j: nat, ds: string)
    requires j + |ds| <= |line| && line[j..j + |ds|] == ds && AllDigits(ds)
    ensures forall k :: j <= k < j + |ds| ==> IsDigit(line[k])
  {
    forall k | j <= k < j + |ds|
      ensures IsDigit(line[k])
    {
      assert line[k] == ds[k - j];
    }
  }

  /** The leftmost match in `pre + key + " " + ds + rest` is right after
      `pre` when `pre` holds no first character of the key, and it reads the
      number `ds` spells. */
  lemma SearchAfterPrefix(pre: string, key: string, ds: string, rest: string)
    requires |key| > 0 && key[0] !in pre
    requires |ds| >= 1 && AllDigits(ds)
    requires |rest| > 0 ==> !IsDigit(rest[0])
    ensures Search(pre + key + " " + ds + rest, key) == Some(DecimalValue(ds))
  {
    var line := pre + key + " " + ds + rest;
    var i, j := |pre|, |pre| + |key| + 1;
    PrefixLayout(pre, key, ds, rest);
    assert forall m :: 0 <= m < i ==> line[m] != key[0];
    NoMatchBefore(line, key, i);
    assert forall k :: i + |key| <= k < j ==> IsSpace(line[k]);
    DigitSlice(line, j, ds);
    assert j + |ds| < |line| ==> !IsDigit(line[j + |ds|]);
    MatchAtRuns(line, key, i, 1, |ds|);
    SearchFindsLeftmost(line, key, i);
  }

  lemma TotalsLineErrors(errors: nat, warnings: nat)
    ensures Search(TotalsLine(errors, warnings), "Errors:") == Some(errors)
  {
    var d1, d2 := NatToDecimal(errors), NatToDecimal(warnings);
    assert TotalsLine(errors, warnings) == "Totals: " + "Errors:" + " " + d1 + (" Warnings: " + d2);
    SearchAfterPrefix("Totals: ", "Errors:", d1, " Warnings: " + d2);
    DecimalRoundTrip(errors);
  }

  lemma TotalsLineWarnings(errors: nat, warnings: nat)
    ensures Search(TotalsLine(errors, warnings), "Warnings:") == Some(warnings)
  {
    var d1, d2 := NatToDecimal(errors), NatToDecimal(warnings);
    var pre := "Totals: Errors: " + d1 + " ";
    assert forall m :: 0 <= m < 16 ==> pre[m] != 'W';
    assert forall m :: 16 <= m < 16 + |d1| ==> pre[m] == d1[m - 16];
    assert 'W' !in pre;
    assert TotalsLine(errors, warnings) == pre + "Warnings:" + " " + d2 + "";
    SearchAfterPrefix(pre, "Warnings:", d2, "");
    DecimalRoundTrip(warnings);
  }

  /** Reading back a summary line gives the totals that were printed. */
  lemma SummaryReadsPrintedTotals(errors: nat, warnings: nat)
    ensures Summary(TotalsLine(errors, warnings)) == Counts(errors, warnings)
  {
    TotalsLineIsSummaryLine(errors, warnings);
    SingleLineSummary(TotalsLine(errors, warnings));
    TotalsLineErrors(errors, warnings);
    TotalsLineWarnings(errors, warnings);
  }

  /** A summary line with 5 errors and 10 warnings. */
  lemma SummaryExample()
    ensures Summary("Totals: Errors: 5 Warnings: 10") == Counts(5, 10)
  {
    assert NatToDecimal(10) == NatToDecimal(1) + ['0'];
    assert TotalsLine(5, 10) == "Totals: Errors: 5 Warnings: 10";
    SummaryReadsPrintedTotals(5, 10);
  }

  /** No errors match when digits follow "Errors:" directly and the rest of
      the line holds no 'E'. */
  lemma GluedErrorsNoMatch(ds: string, rest: string)
    requires |ds| >= 1 && AllDigits(ds) && 'E' !in rest
    ensures Search("Totals: Errors:" + ds + rest, "Errors:").None?
  {
    var p := "Totals: Errors:";
    var line := p + ds + rest;
    assert forall m :: 0 <= m < |p| ==> line[m] == p[m];
    assert forall m :: |p| <= m < |p| + |ds| ==> line[m] == ds[m - |p|];
    assert forall m :: |p| + |ds| <= m < |line| ==> line[m] == rest[m - |p| - |ds|];
    assert line[8..15] == p[8..15];
    forall m | 0 <= m <= |line|
      ensures MatchAt(line, "Errors:", m).None?
    {
      if m != 8 {
        NoKeyNoMatch(line, "Errors:", m);
      }
    }
  }

  lemma NoNewlineInLine(p: string, d1: string, q: string, d2: string)
    requires '\n' !in p && '\n' !in q && AllDigits(d1) && AllDigits(d2)
    ensures '\n' !in p + d1 + q + d2
  {
    var line := p + d1 + q + d2;
    forall m | 0 <= m < |line|
      ensures line[m] != '\n'
    {
      if m >= |p| + |d1| + |q| {
        assert line[m] == d2[m - |p| - |d1| - |q|];
      } else if m >= |p| + |d1| {
        assert line[m] == q[m - |p| - |d1|];
      } else if m >= |p| {
        assert line[m] == d1[m - |p|];
      } else {
        assert line[m] == p[m];
      }
    }
  }

  /** The line with the digits glued to "Errors:". */
  function GluedLine(errors: nat, warnings: nat): string
  {
    "Totals: Errors:" + NatToDecimal(errors) + " Warnings: " + NatToDecimal(warnings)
  }

  lemma GluedLineErrors(errors: nat, warnings: nat)
    ensures Search(GluedLine(errors, warnings), "Errors:").None?
  {
    var d1, d2 := NatToDecimal(errors), NatToDecimal(warnings);
    var r := " Warnings: " + d2;
    assert forall m :: 0 <= m < 11 ==> r[m] != 'E';
    assert forall m :: 11 <= m < |r| ==> r[m] == d2[m - 11];
    assert GluedLine(errors, warnings) == "Totals: Errors:" + d1 + r;
    GluedErrorsNoMatch(d1, r);
  }

  lemma GluedLineWarnings(errors: nat, warnings: nat)
    ensures Search(GluedLine(errors, warnings), "Warnings:") == Some(warnings)
  {
    var d1, d2 := NatToDecimal(errors), NatToDecimal(warnings);
    var pre := "Totals: Errors:" + d1 + " ";
    assert forall m :: 0 <= m < 15 ==> pre[m] != 'W';
    assert forall m :: 15 <= m < 15 + |d1| ==> pre[m] == d1[m - 15];
    assert 'W' !in pre;
    assert GluedLine(errors, warnings) == pre + "Warnings:" + " " + d2 + "";
    SearchAfterPrefix(pre, "Warnings:", d2, "");
    DecimalRoundTrip(warnings);
  }

  /** Whitespace after the colon is required: with the digits glued to
      "Errors:" there is no errors match, so errors stays 0 while the
      warnings field is still read. */
  lemma MissingWhitespaceAfterErrors(errors: nat, warnings: nat)
    ensures Summary(GluedLine(errors, warnings)) == Counts(0, warnings)
  {
    var line := GluedLine(errors, warnings);
    NoNewlineInLine("Totals: Errors:", NatToDecimal(errors), " Warnings: ", NatToDecimal(warnings));
    assert line[..7] == "Totals:";
    SingleLineSummary(line);
    GluedLineErrors(errors, warnings);
    GluedLineWarnings(errors, warnings);
  }

  /** The fields are read independently the other way round too: a summary
      line without a warnings field gives its errors and 0 warnings. */
  lemma MissingWarningsField(errors: nat)
    ensures Summary("Totals: Errors: " + NatToDecimal(errors)) == Counts(errors, 0)
  {
    var p, d := "Totals: Errors: ", NatToDecimal(errors);
    var line := p + d;
    NoNewlineInLine(p, d, "", "");
    assert p + d + "" + "" == line;
    assert line[..7] == "Totals:";
    SingleLineSummary(line);
    ErrorsPrefix();
    assert line == "Totals: " + "Errors:" + " " + d + "";
    SearchAfterPrefix("Totals: ", "Errors:", d, "");
    DecimalRoundTrip(errors);
    NoWarningsKey(d);
    AbsentKeyNoMatch(line, "Warnings:");
  }

  lemma NoWarningsKey(d: string)
    requires AllDigits(d)
    ensures 'W' !in "Totals: Errors: " + d
  {
    var p := "Totals: Errors: ";
    var line := p + d;
    assert forall m :: 0 <= m < 16 ==> line[m] != 'W';
    assert forall m :: 16 <= m < |line| ==> line[m] == d[m - 16];
  }

  lemma ErrorsPrefix()
    ensures "Totals: " + "Errors:" + " " == "Totals: Errors: "
  {
  }

  /** The information separators count as whitespace: a unit separator
      between "Errors:" and the digits still gives a match. */
  lemma SeparatorIsWhitespace()
    ensures Search("Errors:\U{1F}7", "Errors:") == Some(7)
  {
    var line := "Errors:\U{1F}7";
    assert KeyAt(line, "Errors:", 0) by {
      assert line[0..7] == "Errors:";
    }
    MatchAtRuns(line, "Errors:", 0, 1, 1);
    assert line[8..9] == "7";
    SearchFindsLeftmost(line, "Errors:", 0);
  }

  /** The prefix test is exact: a summary line indented by a space is not a
      summary line. */
  lemma IndentedTotalsIgnored()
    ensures Summary(" Totals: Errors: 5 Warnings: 10") == Counts(0, 0)
  {
    var line := " Totals: Errors: 5 Warnings: 10";
    assert !IsTotalsLine(line) by {
      assert line[..7][0] == ' ';
    }
    SingleLineSummary(line);
  }
}
