/**
 * The line classifier and record parser `newResult` (prettybenchmarks/main.go):
 * one line of `go test -bench` output becomes either a benchmark entry or a
 * passthrough line carried verbatim.
 */
module Line {
  import opened Strconv
  import opened Text

  /** The prefix `^Benchmark_?` tests for; the empty `(?i:)` group leaves it case-sensitive. */
  const Marker: string := "Benchmark"

  /**
   * The fields of one `result`. `fnIterations`, `runs`, `bps` and `aps` use -1
   * for "absent or unparsable", as the source does; `speed` is in ns/op, -1.0
   * when unparsable.
   */
  datatype Entry = Entry(name: string, fnIterations: int, runs: int, speed: real, bps: int, aps: int)

  /**
   * What `newResult` does with a line: a record, the error whose text is the
   * line, or the index-out-of-range panic that `parts[6]` raises on a line of
   * exactly six parts.
   */
  datatype Outcome = Accepted(entry: Entry) | Rejected(text: string) | IndexOutOfRange

  /** Length of the run of digits that ends s. */
  function TrailingDigits(s: string): (d: nat)
    ensures d <= |s| && AllDigits(s[|s| - d..])
    ensures d < |s| ==> !IsDigit(s[|s| - d - 1])
  {
    if s == [] || !IsDigit(s[|s| - 1]) then 0
    else
      var t := s[..|s| - 1];
      var d := TrailingDigits(t);
      DigitsThenDigit(s, d);
      d + 1
  }

  lemma DigitsThenDigit(s: string, d: nat)
    requires d < |s| && AllDigits(s[..|s| - 1][|s| - 1 - d..]) && IsDigit(s[|s| - 1])
    ensures AllDigits(s[|s| - 1 - d..])
  {
    assert forall i :: |s| - 1 - d <= i < |s| - 1 ==> s[i] == s[..|s| - 1][|s| - 1 - d..][i - (|s| - 1 - d)];
  }

  lemma TrailingDigitsLongest(s: string, p: nat)
    requires p < |s| && AllDigits(s[p + 1..])
    ensures |s| - p - 1 <= TrailingDigits(s)
  {
  }

  /**
   * `regExByRuns.ReplaceAllString(s, "")` with `regExByRuns` = `-\d+$`: the
   * pattern can match only the '-' right before the digits that end s, so at
   * most one suffix is removed.
   */
  function StripRuns(s: string): (r: string)
    ensures r <= s
    ensures r != s ==> |s| >= |r| + 2 && s[|r|] == '-' && AllDigits(s[|r| + 1..])
    ensures r == s ==> forall p :: 0 <= p < |s| - 1 && AllDigits(s[p + 1..]) ==> s[p] != '-'
  {
    var d := TrailingDigits(s);
    if 0 < d < |s| && s[|s| - d - 1] == '-' then
      s[..|s| - d - 1]
    else
      assert forall p :: 0 <= p < |s| - 1 && AllDigits(s[p + 1..]) ==> s[p] != '-' by {
        forall p | 0 <= p < |s| - 1 && AllDigits(s[p + 1..]) ensures s[p] != '-' {
          TrailingDigitsLongest(s, p);
          if |s| - p - 1 < d {
            assert s[p] == s[|s| - d..][p - (|s| - d)];
          }
        }
      }
      s
  }

  /** `regExByIterations.ReplaceAllString(s, "")`: drops a leading "Benchmark" and one '_' after it. */
  function StripMarker(s: string): (r: string)
    ensures !(Marker <= s) ==> r == s
    ensures Marker <= s ==> s == Marker + "_" + r || (s == Marker + r && (r == [] || r[0] != '_'))
  {
    if Marker + "_" <= s then s[|Marker| + 1..]
    else if Marker <= s then s[|Marker|..]
    else s
  }

  /** `strings.LastIndex(s, "_")`. */
  function LastUnderscore(s: string): (i: int)
    ensures -1 <= i < |s|
    ensures i >= 0 ==> s[i] == '_'
    ensures forall j :: i < j < |s| ==> s[j] != '_'
  {
    if s == [] then -1
    else if s[|s| - 1] == '_' then |s| - 1
    else LastUnderscore(s[..|s| - 1])
  }

  /**
   * Name and FnIterations of a name without marker and run suffix: split at the
   * last '_', the part after it read by `Atoi` with its error ignored; -1 when
   * there is no '_'.
   */
  function SplitIterations(s: string): (r: (string, int))
    ensures r.0 <= s
    ensures |r.0| == |s| ==> r.1 == -1 && forall j :: 0 <= j < |s| ==> s[j] != '_'
    ensures |r.0| < |s| ==> s[|r.0|] == '_' && (forall j :: |r.0| < j < |s| ==> s[j] != '_')
    ensures |r.0| < |s| ==> r.1 == Atoi(s[|r.0| + 1..]).value
  {
    var i := LastUnderscore(s);
    if i < 0 then (s, -1)
    else
      var name := s[..i];
      (name, Atoi(s[|name| + 1..]).value)
  }

  /** Name and FnIterations of the first part of a benchmark line. */
  function NameAndIterations(token: string): (r: (string, int))
    ensures Marker <= token ==> |r.0| + |Marker| <= |token|
    ensures MinInt <= r.1 <= MaxInt
  {
    MarkerSurvivesStripRuns(token);
    SplitIterations(StripMarker(StripRuns(token)))
  }

  /** "Benchmark" holds no '-', so removing the run suffix leaves the marker in place. */
  lemma MarkerSurvivesStripRuns(token: string)
    ensures Marker <= token ==> Marker <= StripRuns(token)
  {
    var r := StripRuns(token);
    if Marker <= token && r != token {
      assert token[|r|] == '-';
      assert |r| >= |Marker| by {
        assert forall i :: 0 <= i < |Marker| ==> token[i] != '-';
      }
      assert r[..|Marker|] == token[..|Marker|];
    }
  }

  /** The three ways `newResult` treats a line, decided from its parts alone. */
  datatype Kind = Unparsable | SixParts | Parsable

  /**
   * Fewer than four parts, or a first part not starting with "Benchmark": the
   * line is passed through. Exactly six parts: `parts[6]` is out of range.
   */
  function Classify(parts: seq<string>): (k: Kind)
    ensures k == Unparsable <==> |parts| < 4 || (|parts| > 0 && !(Marker <= parts[0]))
    ensures k == SixParts <==> |parts| == 6 && Marker <= parts[0]
  {
    if |parts| < 4 || !(Marker <= parts[0]) then Unparsable
    else if |parts| == 6 then SixParts
    else Parsable
  }

  /** The record `newResult` builds from the parts of a line it accepts. */
  function ParseEntry(parts: seq<string>): (e: Entry)
    requires Classify(parts) == Parsable
    ensures (e.name, e.fnIterations) == NameAndIterations(parts[0])
    ensures e.runs == -1 || (IsIntSyntax(parts[1]) && e.runs == SyntaxValue(parts[1]))
    ensures IsIntSyntax(parts[1]) && MinInt <= SyntaxValue(parts[1]) <= MaxInt ==> e.runs == SyntaxValue(parts[1])
    ensures e.speed == -1.0 || (ParseFloat(parts[2]).ok && e.speed == ParseFloat(parts[2]).value)
    ensures ParseFloat(parts[2]).ok ==> e.speed == ParseFloat(parts[2]).value
    ensures |parts| <= 5 ==> e.bps == -1 && e.aps == -1
    ensures |parts| > 5 ==> e.bps == -1 || (IsIntSyntax(parts[4]) && e.bps == SyntaxValue(parts[4]))
    ensures |parts| > 5 ==> e.aps == -1 || (IsIntSyntax(parts[6]) && e.aps == SyntaxValue(parts[6]))
    ensures |parts| > 5 && IsIntSyntax(parts[4]) && MinInt <= SyntaxValue(parts[4]) <= MaxInt ==> e.bps == SyntaxValue(parts[4])
    ensures |parts| > 5 && IsIntSyntax(parts[6]) && MinInt <= SyntaxValue(parts[6]) <= MaxInt ==> e.aps == SyntaxValue(parts[6])
  {
    var ni := NameAndIterations(parts[0]);
    Entry(
      ni.0,
      ni.1,
      AtoiOr(parts[1], -1),
      FloatOr(parts[2], -1.0),
      if |parts| > 5 then AtoiOr(parts[4], -1) else -1,
      if |parts| > 5 then AtoiOr(parts[6], -1) else -1)
  }

  /** `newResult`. */
  function NewResult(line: string): (o: Outcome)
    ensures o.Rejected? ==> o.text == line
  {
    var parts := Split(line);
    match Classify(parts)
    case Unparsable => Rejected(line)
    case SixParts => IndexOutOfRange
    case Parsable => Accepted(ParseEntry(parts))
  }

  // ---------------------------------------------------------------------------
  // Classification in terms of the line itself

  /**
   * A line is passed through exactly when it does not begin with "Benchmark" or
   * holds fewer than three runs of white space; the error text is the line
   * unchanged. A line with exactly five runs is the one that panics.
   */
  lemma ClassifyByLine(line: string)
    ensures NewResult(line).Rejected? <==> !(Marker <= line) || Runs(line) < 3
    ensures NewResult(line).Rejected? ==> NewResult(line).text == line
    ensures NewResult(line).IndexOutOfRange? <==> Marker <= line && Runs(line) == 5
  {
    KindOfLine(line);
  }

  lemma KindOfLine(line: string)
    ensures Classify(Split(line)) == Unparsable <==> !(Marker <= line) || Runs(line) < 3
    ensures Classify(Split(line)) == SixParts <==> Marker <= line && Runs(line) == 5
  {
    var parts := Split(line);
    SplitCount(line);
    MarkerIsWord();
    PrefixOfFirstPart(line, Marker);
    assert |parts| == Runs(line) + 1;
    assert Marker <= parts[0] <==> Marker <= line;
  }

  lemma MarkerIsWord()
    ensures NoSpace(Marker)
  {
  }

  // ---------------------------------------------------------------------------
  // Name derivation

  /** Removing the run suffix undoes appending "-digits" to any name. */
  lemma StripRunsOfSuffix(n: string, ds: string)
    requires ds != [] && AllDigits(ds)
    ensures StripRuns(n + "-" + ds) == n
  {
    var s := n + "-" + ds;
    var r := StripRuns(s);
    assert s[|n| + 1..] == ds;
    assert s[|n|] == '-';
    assert r == s[..|r|] == n;
  }

  lemma StripMarkerOf(sep: string, rest: string)
    requires sep == "_" || (sep == "" && (rest == [] || rest[0] != '_'))
    ensures StripMarker(Marker + sep + rest) == rest
  {
    var s := Marker + sep + rest;
    if sep == "_" {
      assert Marker + "_" <= s;
      assert s[|Marker| + 1..] == rest;
    } else {
      assert s == Marker + rest;
      assert s[|Marker|..] == rest;
    }
  }

  lemma LastUnderscoreBefore(base: string, tail: string)
    requires forall j :: 0 <= j < |tail| ==> tail[j] != '_'
    ensures LastUnderscore(base + "_" + tail) == |base|
  {
    var s := base + "_" + tail;
    var i := LastUnderscore(s);
    assert s[|base|] == '_';
  }

  /** How `go test` names a benchmark run with n processors: a "-n" suffix unless n is 1. */
  function ProcsSuffix(procs: nat): string {
    if procs == 1 then "" else "-" + Digits(procs)
  }

  /** A name ending in "_digits" keeps its digits: the run pattern wants a '-' before them. */
  lemma StripRunsAfterUnderscore(n: string, ds: string)
    requires AllDigits(ds)
    ensures StripRuns(n + "_" + ds) == n + "_" + ds
  {
    var s := n + "_" + ds;
    assert s[|n| + 1..] == ds;
    TrailingDigitsLongest(s, |n|);
    var d := TrailingDigits(s);
    assert forall i :: |s| - d <= i < |s| ==> IsDigit(s[i]) by {
      forall i | |s| - d <= i < |s| ensures IsDigit(s[i]) {
        assert s[i] == s[|s| - d..][i - (|s| - d)];
      }
    }
    assert !IsDigit(s[|n|]);
    assert s[|s| - d - 1] == '_';
  }

  lemma SplitIterationsAtLast(base: string, tail: string)
    requires forall j :: 0 <= j < |tail| ==> tail[j] != '_'
    ensures SplitIterations(base + "_" + tail) == (base, Atoi(tail).value)
  {
    var s := base + "_" + tail;
    LastUnderscoreBefore(base, tail);
    assert s[..|base|] == base && s[|base| + 1..] == tail;
  }

  lemma NameOfMarkedToken(sep: string, named: string, procs: nat)
    requires procs != 1
    requires sep == "_" || (sep == "" && (named == [] || named[0] != '_'))
    ensures NameAndIterations(Marker + sep + named + ProcsSuffix(procs)) == SplitIterations(named)
  {
    var m := Marker + sep + named;
    var token := m + ProcsSuffix(procs);
    assert token == m + "-" + Digits(procs);
    StripRunsOfSuffix(m, Digits(procs));
    StripMarkerOf(sep, named);
    assert StripMarker(StripRuns(token)) == named;
  }

  /**
   * A name "Benchmark[_]<base>_<v>-<procs>" yields `base` and `v`; base may
   * itself contain '_', since the split is at the last one.
   */
  lemma NameWithIterations(sep: string, base: string, v: nat, procs: nat)
    requires v <= MaxInt
    requires sep == "_" || (sep == "" && base != [] && base[0] != '_')
    ensures NameAndIterations(Marker + sep + (base + "_" + Digits(v)) + ProcsSuffix(procs)) == (base, v)
  {
    var named := base + "_" + Digits(v);
    assert sep == "" ==> named[0] == base[0];
    if procs == 1 {
      var m := Marker + sep + named;
      assert m + ProcsSuffix(procs) == m;
      assert m == (Marker + sep + base) + "_" + Digits(v);
      StripRunsAfterUnderscore(Marker + sep + base, Digits(v));
      StripMarkerOf(sep, named);
    } else {
      NameOfMarkedToken(sep, named, procs);
    }
    SplitIterationsOfNumber(base, v);
  }

  lemma SplitIterationsOfNumber(base: string, v: nat)
    requires v <= MaxInt
    ensures SplitIterations(base + "_" + Digits(v)) == (base, v)
  {
    AtoiOfDigits(v);
    DigitsHaveNoUnderscore(v);
    SplitIterationsOfWord(base, Digits(v), v);
  }

  lemma AtoiOfDigits(v: nat)
    requires v <= MaxInt
    ensures Atoi(Digits(v)) == IntResult(v, true)
  {
    AtoiOfItoa(v);
    assert Itoa(v) == Digits(v);
  }

  lemma DigitsHaveNoUnderscore(v: nat)
    ensures forall j :: 0 <= j < |Digits(v)| ==> Digits(v)[j] != '_'
  {
    assert AllDigits(Digits(v));
  }

  lemma SplitIterationsOfWord(base: string, w: string, n: int)
    requires forall j :: 0 <= j < |w| ==> w[j] != '_'
    requires Atoi(w).value == n
    ensures SplitIterations(base + "_" + w) == (base, n)
  {
    SplitIterationsAtLast(base, w);
  }



  /** A name without '_' after the marker yields the whole name and FnIterations -1. */
  lemma NameWithoutIterations(sep: string, base: string, procs: nat)
    requires procs != 1 || StripRuns(Marker + sep + base) == Marker + sep + base
    requires sep == "_" || sep == ""
    requires forall j :: 0 <= j < |base| ==> base[j] != '_'
    ensures NameAndIterations(Marker + sep + base + ProcsSuffix(procs)) == (base, -1)
  {
    if procs == 1 {
      assert Marker + sep + base + ProcsSuffix(procs) == Marker + sep + base;
      StripMarkerOf(sep, base);
    } else {
      NameOfMarkedToken(sep, base, procs);
    }
  }

  /**
   * When the text after the last '_' is not a number, the name is the text
   * before it and FnIterations is 0: the underscore is dropped, because the
   * error of `Atoi` is ignored.
   */
  lemma NameWithNonNumericSuffix(base: string, word: string, procs: nat)
    requires procs != 1 || StripRuns(Marker + "_" + (base + "_" + word)) == Marker + "_" + (base + "_" + word)
    requires forall j :: 0 <= j < |word| ==> word[j] != '_'
    requires !IsIntSyntax(word) && !Overflows(word)
    ensures NameAndIterations(Marker + "_" + (base + "_" + word) + ProcsSuffix(procs)) == (base, 0)
  {
    if procs == 1 {
      assert Marker + "_" + (base + "_" + word) + ProcsSuffix(procs) == Marker + "_" + (base + "_" + word);
      StripMarkerOf("_", base + "_" + word);
    } else {
      NameOfMarkedToken("_", base + "_" + word, procs);
    }
    SplitIterationsAtLast(base, word);
  }

  /**
   * When the text after the last '_' starts with more digits than a `uint64`
   * holds, FnIterations is `MaxInt` whatever follows the digits: `Atoi` reports
   * the overflow before it reaches the first non-digit.
   */
  lemma NameWithOverflowingSuffix(base: string, ds: string, rest: string, procs: nat)
    requires procs != 1 || StripRuns(Marker + "_" + (base + "_" + (ds + rest))) == Marker + "_" + (base + "_" + (ds + rest))
    requires AllDigits(ds) && DigitsValue(ds) > MaxUint
    requires rest == [] || !IsDigit(rest[0])
    requires forall j :: 0 <= j < |rest| ==> rest[j] != '_'
    ensures NameAndIterations(Marker + "_" + (base + "_" + (ds + rest)) + ProcsSuffix(procs)) == (base, MaxInt)
  {
    var word := ds + rest;
    assert forall j :: 0 <= j < |word| ==> word[j] != '_' by {
      forall j | 0 <= j < |word| ensures word[j] != '_' {
        if j < |ds| { assert IsDigit(ds[j]); } else { assert word[j] == rest[j - |ds|]; }
      }
    }
    if procs == 1 {
      assert Marker + "_" + (base + "_" + word) + ProcsSuffix(procs) == Marker + "_" + (base + "_" + word);
      StripMarkerOf("_", base + "_" + word);
    } else {
      NameOfMarkedToken("_", base + "_" + word, procs);
    }
    SplitIterationsAtLast(base, word);
    AtoiOfOverflow(ds, rest);
  }

  // ---------------------------------------------------------------------------
  // Parsing what `go test -bench` prints

  lemma ItoaIsWord(v: int)
    ensures Itoa(v) != [] && NoSpace(Itoa(v))
  {
    var d := Digits(if v < 0 then -v else v);
    assert AllDigits(d);
    if v < 0 {
      assert forall i :: 1 <= i < |Itoa(v)| ==> Itoa(v)[i] == d[i - 1];
    }
  }

  /** A line that `newResult` accepts yields the record its parts spell. */
  lemma RecordOfLine(line: string, parts: seq<string>, e: Entry)
    requires Split(line) == parts && Classify(parts) == Parsable && ParseEntry(parts) == e
    ensures NewResult(line) == Accepted(e)
  {
  }

  /**
   * How `go test` writes a timing: whole nanoseconds such as "21618", or with a
   * fraction such as "21.6" when the operation is fast.
   */
  function TimingText(whole: nat, frac: string): string {
    if frac == [] then Digits(whole) else Digits(whole) + "." + frac
  }

  /** The number a timing written by `TimingText` stands for. */
  function TimingValue(whole: nat, frac: string): real
    requires AllDigits(frac)
  {
    whole as real + DigitsValue(frac) as real / Pow10(|frac|)
  }

  /** Every timing `go test` writes reads back as the number it stands for. */
  lemma ParseFloatOfTiming(whole: nat, frac: string)
    requires AllDigits(frac)
    ensures ParseFloat(TimingText(whole, frac)) == FloatResult(TimingValue(whole, frac), true)
  {
    if frac == [] {
      ParseFloatOfDigits(whole);
    } else {
      assert AllDigits(Digits(whole));
      DigitsValueOfDigits(whole);
      ParseFloatOfDecimal(Digits(whole), frac);
    }
  }

  lemma TimingIsWord(whole: nat, frac: string)
    requires AllDigits(frac)
    ensures TimingText(whole, frac) != [] && NoSpace(TimingText(whole, frac))
  {
    var d := Digits(whole);
    assert AllDigits(d);
    if frac != [] {
      var t := d + "." + frac;
      assert forall i :: 0 <= i < |t| ==> !IsSpace(t[i]) by {
        forall i | 0 <= i < |t| ensures !IsSpace(t[i]) {
          if i < |d| { assert IsDigit(d[i]); }
          else if i > |d| { assert t[i] == frac[i - |d| - 1]; assert IsDigit(frac[i - |d| - 1]); }
        }
      }
    }
  }

  /** The words of a `-benchmem` line; `go test` ends the line, hence the empty last part. */
  function BenchmemWords(name: string, runs: int, time: string, bytes: int, allocs: int): seq<string> {
    [name, Itoa(runs), time, "ns/op", Itoa(bytes), "B/op", Itoa(allocs), "allocs/op"]
  }

  function PlainWords(name: string, runs: int, time: string): seq<string> {
    [name, Itoa(runs), time, "ns/op"]
  }

  lemma BenchmemEntry(name: string, runs: int, whole: nat, frac: string, bytes: int, allocs: int)
    requires Marker <= name && AllDigits(frac)
    requires MinInt <= runs <= MaxInt && MinInt <= bytes <= MaxInt && MinInt <= allocs <= MaxInt
    ensures Classify(BenchmemWords(name, runs, TimingText(whole, frac), bytes, allocs) + [""]) == Parsable
    ensures ParseEntry(BenchmemWords(name, runs, TimingText(whole, frac), bytes, allocs) + [""])
         == Entry(NameAndIterations(name).0, NameAndIterations(name).1, runs, TimingValue(whole, frac), bytes, allocs)
  {
    var parts := BenchmemWords(name, runs, TimingText(whole, frac), bytes, allocs) + [""];
    assert parts[0] == name && parts[1] == Itoa(runs) && parts[2] == TimingText(whole, frac);
    assert parts[4] == Itoa(bytes) && parts[6] == Itoa(allocs);
    AtoiOfItoa(runs); AtoiOfItoa(bytes); AtoiOfItoa(allocs);
    ParseFloatOfTiming(whole, frac);
  }

  lemma PlainEntry(name: string, runs: int, whole: nat, frac: string)
    requires Marker <= name && AllDigits(frac)
    requires MinInt <= runs <= MaxInt
    ensures Classify(PlainWords(name, runs, TimingText(whole, frac)) + [""]) == Parsable
    ensures ParseEntry(PlainWords(name, runs, TimingText(whole, frac)) + [""])
         == Entry(NameAndIterations(name).0, NameAndIterations(name).1, runs, TimingValue(whole, frac), -1, -1)
  {
    var parts := PlainWords(name, runs, TimingText(whole, frac)) + [""];
    assert parts[0] == name && parts[1] == Itoa(runs) && parts[2] == TimingText(whole, frac);
    AtoiOfItoa(runs);
    ParseFloatOfTiming(whole, frac);
  }

  /**
   * A `-benchmem` line as `go test` prints it parses back to its name, run
   * count, timing, whole or fractional, bytes and allocations per operation,
   * whatever white space separates the columns.
   */
  lemma BenchmemLine(name: string, runs: int, whole: nat, frac: string, bytes: int, allocs: int, seps: seq<string>)
    requires Marker <= name && NoSpace(name) && AllDigits(frac)
    requires MinInt <= runs <= MaxInt && MinInt <= bytes <= MaxInt && MinInt <= allocs <= MaxInt
    requires |seps| == 8 && IsSeparators(seps)
    ensures NewResult(Render(BenchmemWords(name, runs, TimingText(whole, frac), bytes, allocs), seps))
         == Accepted(Entry(NameAndIterations(name).0, NameAndIterations(name).1, runs, TimingValue(whole, frac), bytes, allocs))
  {
    var words := BenchmemWords(name, runs, TimingText(whole, frac), bytes, allocs);
    ItoaIsWord(runs); ItoaIsWord(bytes); ItoaIsWord(allocs); TimingIsWord(whole, frac);
    assert IsWords(words);
    SplitRender(words, seps);
    BenchmemEntry(name, runs, whole, frac, bytes, allocs);
    var e := Entry(NameAndIterations(name).0, NameAndIterations(name).1, runs, TimingValue(whole, frac), bytes, allocs);
    RecordOfLine(Render(words, seps), words + [""], e);
  }

  /** A line without `-benchmem` columns has -1 for bytes and allocations per operation. */
  lemma PlainLine(name: string, runs: int, whole: nat, frac: string, seps: seq<string>)
    requires Marker <= name && NoSpace(name) && AllDigits(frac)
    requires MinInt <= runs <= MaxInt
    requires |seps| == 4 && IsSeparators(seps)
    ensures NewResult(Render(PlainWords(name, runs, TimingText(whole, frac)), seps))
         == Accepted(Entry(NameAndIterations(name).0, NameAndIterations(name).1, runs, TimingValue(whole, frac), -1, -1))
  {
    var words := PlainWords(name, runs, TimingText(whole, frac));
    ItoaIsWord(runs); TimingIsWord(whole, frac);
    assert IsWords(words);
    SplitRender(words, seps);
    PlainEntry(name, runs, whole, frac);
    var e := Entry(NameAndIterations(name).0, NameAndIterations(name).1, runs, TimingValue(whole, frac), -1, -1);
    RecordOfLine(Render(words, seps), words + [""], e);
  }

  /**
   * A benchmark line of five words, such as "BenchmarkX 1 2 ns/op 5\n", has
   * six parts and makes `newResult` index past them.
   */
  lemma FiveWordsPanic(words: seq<string>, seps: seq<string>)
    requires |words| == 5 && |seps| == 5 && IsWords(words) && IsSeparators(seps)
    requires Marker <= words[0]
    ensures NewResult(Render(words, seps)) == IndexOutOfRange
  {
    SplitRender(words, seps);
    PanicOfLine(Render(words, seps), words + [""]);
  }

  lemma PanicOfLine(line: string, parts: seq<string>)
    requires Split(line) == parts && Classify(parts) == SixParts
    ensures NewResult(line) == IndexOutOfRange
  {
  }

  /** The "PASS" line and the closing "ok" summary of `go test` are passed through verbatim. */
  lemma SummaryLinesPassThrough()
    ensures NewResult("PASS\n") == Rejected("PASS\n")
    ensures NewResult("ok  \tgithub.com/foobar/baz\t11.164s\n") == Rejected("ok  \tgithub.com/foobar/baz\t11.164s\n")
  {
    ClassifyByLine("PASS\n");
    ClassifyByLine("ok  \tgithub.com/foobar/baz\t11.164s\n");
  }
}
