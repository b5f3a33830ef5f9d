# prettybenchmarks: the parse-and-aggregate pipeline in Dafny

prettybenchmarks reads the output of `go test -bench` and prints it as a table.
This project models its core in `prettybenchmarks/main.go`, stage by stage:

- **`newResult`** classifies one line. It splits the line on runs of white space,
  checks the `Benchmark` marker and the number of parts, derives the benchmark
  name and its FnIterations value, and reads the run count, the timing and the
  `-benchmem` columns. Values that do not parse become the sentinel -1.
  (`line.dfy`, on top of `text.dfy` for the `\s+` split and `strconv.dfy` for
  `strconv.Atoi` / `strconv.ParseFloat`.)
- **`newResults`** appends every accepted record to the group of its name, keeps
  the rejected lines in input order, and sorts every group by FnIterations with
  `sort.Sort(sortByFnIterations(...))`. The records are objects (`Result`),
  because the summary later rewrites their speed in place. (`aggregate.dfy`)
- **The summary:** `getSuggestedTiming`, `hasFnIterations`, `isBenchmem`,
  `updateSpeedVals`, `newBenchmarkInfo` and `newBenchmark`. These are nested
  scans over the groups, the choice of a display unit by thresholds, and the
  in-place division of every speed. (`summary.dfy`)
- **`setTiming`'s normalisation** of the unit argument. (`timing.dfy`)

How the model treats the source:

- The package-level `timing` override is an explicit parameter. `newBenchmarkInfo`
  writes the chosen unit back into that variable, so the returned
  `suggestedTiming` is also the override's new value. This is why a later call
  keeps an earlier choice.
- `unparsableLines` is returned as a value.
- The three goroutines of `newBenchmarkInfo` run one after the other. They only
  read the records, and each writes its own result variable, so running them in
  turn gives the same results.

Where the code may surprise a reader, the model follows the code:

- **The marker test is case-sensitive.** In `(?i:)(^Benchmark_?)` the flag
  applies only to the empty group.
- **A name whose text after the last `_` is not a number** loses that
  underscore and gets FnIterations 0, because the error of `Atoi` is ignored.
  When that text starts with more digits than a `uint64` holds, FnIterations is
  the largest `int` instead, because `Atoi` reports the overflow before it
  reaches the first non-digit.
- **Missing or unparsable values are the sentinel -1,** not an absent value.
- **Groups are sorted with the unstable `sort.Sort`,** so only order and
  permutation are promised, not stability.
- **A benchmark line of exactly six parts panics** (`parts[6]` is out of range)
  instead of being passed through. The model makes this the `IndexOutOfRange`
  outcome, and `NewResults` reports it as `panicked`.

## Model

| member | source | states |
|---|---|---|
| Strconv.Atoi | prettybenchmarks/main.go:194-198 | the value lies in the range of a 64-bit `int`; a result without error means the text is an optional sign followed by digits, and the value is what those digits spell; every such text with an in-range value is accepted; a malformed text gives 0 unless its leading digits overflow a `uint64` first |
| Strconv.AtoiOfOverflow | prettybenchmarks/main.go:188 | digits beyond the `uint64` range followed by a non-digit give the largest `int` with an error, not 0 |
| Strconv.AtoiOr | prettybenchmarks/main.go:194-198 | the result is the sentinel or the in-range number the text spells, and every in-range number is taken |
| Strconv.AtoiOfItoa | prettybenchmarks/main.go:194 | `Atoi` reads back any in-range integer written in decimal, without error |
| Strconv.ParseFloat | prettybenchmarks/main.go:200-204 | a failed parse gives 0 with an error, which `newResult` replaces by -1 |
| Strconv.FloatOr | prettybenchmarks/main.go:200-204 | the parsed value when `ParseFloat` succeeds, and the sentinel exactly when it fails |
| Strconv.ParseFloatOfDigits | prettybenchmarks/main.go:200 | an integer timing such as "21618" parses to exactly that number |
| Strconv.ParseFloatOfDecimal | prettybenchmarks/main.go:200 | a timing with a fraction reads as whole part plus fraction over the matching power of ten |
| Strconv.Digits | prettybenchmarks/main.go:194 | the decimal writing of a number is a non-empty string of digits |
| Text.Split | prettybenchmarks/main.go:70 | splitting on `\s+` always yields at least one part |
| Text.SplitCount | prettybenchmarks/main.go:176 | the split has exactly one part more than the line has maximal runs of white space |
| Text.PrefixOfFirstPart | prettybenchmarks/main.go:176-178 | a prefix without white space starts the first part exactly when it starts the line |
| Text.SplitRender | prettybenchmarks/main.go:176 | words joined by arbitrary white-space runs, with a run at the end, split back into those words plus one empty part |
| Line.LastUnderscore | prettybenchmarks/main.go:184 | the result is -1 or an index holding '_', and no later index holds '_' |
| Line.StripRuns | prettybenchmarks/main.go:182 | the result is a prefix of the token; when it changes, exactly one "-digits" suffix was removed; otherwise no '-' is followed by only digits up to the end |
| Line.StripMarker | prettybenchmarks/main.go:183 | an unmarked text is unchanged; a marked one loses "Benchmark" and, when present, exactly one '_' after it |
| Line.SplitIterations | prettybenchmarks/main.go:184-192 | without '_' the whole text is the name and FnIterations is -1; otherwise the name ends just before the last '_' and FnIterations is `Atoi` of the text after it |
| Line.NameAndIterations | prettybenchmarks/main.go:182-192 | the name of a marked token is shorter than the token by at least the marker, and FnIterations lies in the `int` range |
| Line.ParseEntry | prettybenchmarks/main.go:194-221 | each number is the sentinel -1 or the value its column spells, and a column that parses (an in-range run count, bytes or allocations, a timing `ParseFloat` reads) is always kept; bytes and allocations are read from columns 4 and 6 of every line with more than five parts, and are -1 otherwise |
| Line.NewResult | prettybenchmarks/main.go:164-231 | a rejection carries the line unchanged as its text |
| Line.ClassifyByLine | prettybenchmarks/main.go:176-212 | a line is rejected exactly when it does not start with "Benchmark" or has fewer than three runs of white space; it panics exactly when it starts with "Benchmark" and has five runs |
| Line.StripRunsOfSuffix | prettybenchmarks/main.go:182 | removing the run suffix undoes appending "-digits" to any name |
| Line.StripRunsAfterUnderscore | prettybenchmarks/main.go:182 | a name ending in "_digits" keeps its digits, since the run pattern needs a '-' before them |
| Line.MarkerSurvivesStripRuns | prettybenchmarks/main.go:182-183 | removing the run suffix never cuts into the "Benchmark" marker |
| Line.StripMarkerOf | prettybenchmarks/main.go:183 | "Benchmark" and at most one '_' after it are removed from the front |
| Line.LastUnderscoreBefore | prettybenchmarks/main.go:184 | the last '_' is found after any text, once the rest holds no '_' |
| Line.SplitIterationsAtLast | prettybenchmarks/main.go:184-188 | the name is the text before the last '_', and FnIterations is `Atoi` of the text after it, with its error ignored |
| Line.NameOfMarkedToken | prettybenchmarks/main.go:182-183 | for a token "Benchmark[_]name-procs", the name and FnIterations depend only on `name` |
| Line.NameWithIterations | prettybenchmarks/main.go:182-188 | "Benchmark[_]base_v", with or without a "-procs" suffix, yields `base` (which may itself hold '_') and FnIterations `v` |
| Line.NameWithoutIterations | prettybenchmarks/main.go:189-192 | with no '_' after the marker, the name is the whole remainder and FnIterations is -1, for a "-procs" suffix and for a name without one that the run pattern leaves alone |
| Line.NameWithNonNumericSuffix | prettybenchmarks/main.go:186-188 | a non-numeric text after the last '_' gives FnIterations 0, and the underscore is dropped from the name, unless the text starts with digits that overflow; with or without a "-procs" suffix |
| Line.NameWithOverflowingSuffix | prettybenchmarks/main.go:186-188 | a text after the last '_' that starts with more digits than a `uint64` holds gives FnIterations equal to the largest `int`, whatever follows the digits; with or without a "-procs" suffix |
| Line.ParseFloatOfTiming | prettybenchmarks/main.go:200-204 | every timing `go test` writes, whole or with a fraction, is read as the number it stands for, without error |
| Line.BenchmemLine | prettybenchmarks/main.go:194-230 | a `-benchmem` line parses to its name, FnIterations, run count, timing (whole, such as "21618", or fractional, such as "21.6"), bytes and allocations, whatever white space separates the columns |
| Line.PlainLine | prettybenchmarks/main.go:194-221 | a line without `-benchmem` columns parses likewise, whole or fractional timing included, with -1 for bytes and allocations |
| Line.FiveWordsPanic | prettybenchmarks/main.go:206-212 | a marked line of five words, such as "BenchmarkX 1 2 ns/op 5", reaches the out-of-range `parts[6]` |
| Line.SummaryLinesPassThrough | prettybenchmarks/main_test.go:16-25 | the "PASS" line and the "ok" summary line are passed through verbatim |
| Aggregate.Result.constructor | prettybenchmarks/main.go:223-230 | the new record holds exactly the parsed fields |
| Aggregate.Partition | prettybenchmarks/main.go:142-148 | without a panic, the records and the passthrough lines together number the input lines |
| Aggregate.WithNameOf | prettybenchmarks/main.go:150-154 | a group's records are exactly the records of its name |
| Aggregate.WithNameEmpty | prettybenchmarks/main.go:150-152 | a name has records exactly when it is among the names, so there is no empty group |
| Aggregate.ValuesPerm | prettybenchmarks/main.go:157-159 | rearranging the records of a group rearranges their values the same way |
| Aggregate.UniqueDistinct | prettybenchmarks/main.go:154 | two positions of a group never hold the same record |
| Aggregate.Swap | prettybenchmarks/main.go:66 | the two positions are exchanged, every other position is kept, and the multiset is unchanged |
| Aggregate.SortByFnIterations | prettybenchmarks/main.go:63-67 | the group comes back in non-decreasing FnIterations order, with the same records |
| Aggregate.SortGroups | prettybenchmarks/main.go:157-159 | the same names, each group sorted and holding the same records |
| Aggregate.SortedGroupsKeep | prettybenchmarks/main.go:157-159 | sorting keeps the shape of the map, its records and each group's values up to order |
| Aggregate.NewResults | prettybenchmarks/main.go:139-162 | it panics exactly when a line panics; otherwise the passthrough lines are the rejected lines in order and the groups are exactly the accepted names; each group is non-empty, holds records of its own name only, is sorted, and holds one fresh record per accepted line of that name, up to order |
| Aggregate.Collect | prettybenchmarks/main.go:142-155 | after the loop, each group holds the records of its name in input order, and the passthrough lines are the rejected lines |
| Aggregate.Absorb | prettybenchmarks/main.go:143-154 | one more line: its record is appended to its group, or the line is added to the passthrough lines |
| Aggregate.AddRecord | prettybenchmarks/main.go:150-154 | the group of the record's name is created if missing and extended by the record; other groups are unchanged |
| Summary.Slowest | prettybenchmarks/main.go:277-285 | the running maximum over the records is non-negative, bounds every speed, and is 0 or the speed of some record |
| Summary.RescaledPerm | prettybenchmarks/main.go:333-339 | rearranging records and dividing their speeds commute, up to order |
| Summary.RescaledGroups | prettybenchmarks/main.go:333-339 | groups holding the records of their name hold them rescaled once every speed is divided |
| Summary.RecordIsEntry | prettybenchmarks/main.go:150-154 | every record of a group is one of the accepted records |
| Summary.EntryIsRecord | prettybenchmarks/main.go:150-154 | every accepted record is the value of a record in the group of its name |
| Summary.FlagsOfRecords | prettybenchmarks/main.go:305-331 | the two flags of the groups are the flags of the accepted records, whatever the grouping |
| Summary.AtMostOfRecords | prettybenchmarks/main.go:277-297 | no grouped record exceeds a non-negative threshold exactly when the slowest accepted record does not |
| Summary.UnitOfRecords | prettybenchmarks/main.go:277-297 | the unit of the groups is the unit of the slowest accepted record |
| Summary.UnitFor | prettybenchmarks/main.go:288-297 | the thresholds always choose one of ns, µs, ms, s |
| Summary.Divisor | prettybenchmarks/main.go:259-268 | speeds are divided by 1000, 10^6 or 10^9 for µs, ms or s, and left alone for any other unit |
| Summary.AtMostIffSlowest | prettybenchmarks/main.go:277-285 | no record exceeds a non-negative threshold exactly when the running maximum does not |
| Summary.UnitOfSlowest | prettybenchmarks/main.go:277-297 | the unit chosen from the running maximum is the smallest unit whose threshold no record exceeds |
| Summary.UnitForMonotone | prettybenchmarks/main.go:288-297 | a slower slowest record never gives a smaller unit |
| Summary.UnitForIsNormal | prettybenchmarks/main.go:288-297 | every suggested unit is accepted by `setTiming` unchanged |
| Summary.GetSuggestedTiming | prettybenchmarks/main.go:273-303 | a set override is returned unchanged; otherwise the unit is the smallest one whose threshold no record exceeds, hence "ns" for an empty dataset |
| Summary.HasFnIterations | prettybenchmarks/main.go:319-331 | true exactly when some record has FnIterations > -1 |
| Summary.IsBenchmem | prettybenchmarks/main.go:305-317 | true exactly when some record has Aps > -1 and Bps > -1 |
| Summary.UpdateSpeedVals | prettybenchmarks/main.go:333-339 | every record's speed is divided by f, once |
| Summary.ScaleGroup | prettybenchmarks/main.go:335-337 | every record of one group has its speed divided by f |
| Summary.NewBenchmarkInfo | prettybenchmarks/main.go:233-271 | the unit is the override if set, else the suggestion for the speeds before the call; the two flags are those of the scans; each record keeps every field except its speed, which is divided by the unit's divisor |
| Summary.NewBenchmark | prettybenchmarks/main.go:130-137 | it panics exactly when a line panics; otherwise the passthrough lines are the rejected lines; the groups are the accepted names, sorted, each holding, up to order, the accepted records of its name with speeds divided for the unit; the unit is the override if set, else the one for the slowest accepted record; the flags say whether some accepted record has FnIterations, and whether some has both `-benchmem` columns |
| Timing.ToLower | prettybenchmarks/main.go:477 | same length, each character lowered on its own, and no letter A to Z is left |
| Timing.Normalise | prettybenchmarks/main.go:477-482 | an argument selects a unit exactly when its lower-cased form is ns, us, µs, ms or s; "us" becomes "µs" and each display unit is kept as lower-cased; the result is one of the four display units |
| Timing.SetTiming | prettybenchmarks/main.go:472-485 | a first argument that selects a unit replaces the override by that unit; with no argument, or one that selects none, the override stays as it was |
| Timing.SetTimingIdempotent | prettybenchmarks/main.go:472-485 | applying the same arguments twice changes nothing more, and once the override is a display unit it stays one whatever the arguments |
| Timing.SetTimingOfUnit | prettybenchmarks/main.go:472-485 | a display unit given as the argument, in any case, becomes the override |
| Timing.ToLowerIdempotent | prettybenchmarks/main.go:477 | lower-casing twice is lower-casing once |
| Timing.ToLowerOfUpper | prettybenchmarks/main.go:477 | lower-casing after upper-casing is plain lower-casing |
| Timing.NormaliseIgnoresCase | prettybenchmarks/main.go:477 | the argument is matched without regard to case |
| Timing.NormaliseOfUnit | prettybenchmarks/main.go:477-482 | each display unit selects itself |

## Left out

- `Main`: reading standard input, the end-of-input handling and `os.Exit` (main.go:93-128). This is I/O; the model takes the lines as a sequence, each ending in its "\n".
- The `loading` spinner and its quit channel: concurrency and terminal feedback only.
- The `sync.WaitGroup` fan-out in `newBenchmarkInfo`: the three scans run one after the other, which gives the same results.
- Table rendering (`addTableHeader`, `addTableBody`, `termtables`), `footer` and the colour helpers: presentation, a foreign library, and number formatting whose source is not part of this model.
- `flag.Parse` and `flag.Args`: process arguments are a parameter of `SetTiming`.
- `main.go` and `cmd/pb/main.go`: one-line wrappers around `Main`.
- Strconv.ParseFloat: exponents, hexadecimal floats, "Inf", "NaN", underscores and IEEE-754 rounding are not modelled. Speeds are exact reals, and so is the division in `updateSpeedVals`.
- Strconv.Atoi: Go's `int` is taken to be 64 bits wide. Underscores and base prefixes play no part, since `Atoi` parses base 10.
- Timing.ToLower: only the letters A to Z are lowered. No other character lowers to a letter of the accepted spellings, so the accepted arguments are the same as with `strings.ToLower`.
- Text.Split: only the `\s+` split is modelled, not the regular-expression engine. Lines are strings of characters; `\s` matches only ASCII, so this agrees with Go's byte strings.
- Aggregate.SortByFnIterations: the algorithm inside `sort.Sort` is not modelled. An insertion sort built from `Less` and `Swap` stands in for it, and the contract says only what `sort.Sort` promises: sorted and a permutation.
- Aggregate.NewResults: Go iterates maps in random order. The model processes keys in an arbitrary order, and its contracts hold for every order.
- Aggregate.NewResults: Go appends the rejected lines to the package-level `unparsableLines` across calls. The model returns the lines of one call.
- Aggregate.Collect: it takes the line parser as a parameter. `NewResults` passes `NewResult`, and its contract is stated for `NewResult`.
- Aggregate.NewResults: the panic on a six-part line is an outcome (`panicked`), not an abort. Nothing after it is modelled.
- Summary.UpdateSpeedVals: requires every record to be listed once, in the group of its own name, which is what `newResults` builds. A record listed twice would be divided twice in Go. It also requires `f` to be non-zero; its only callers pass 1e3, 1e6 and 1e9.
- Summary.GetSuggestedTiming: NaN and infinite speeds cannot occur with reals. In Go a NaN speed never becomes the slowest, because the running maximum starts at 0 and `slowest < NaN` is false, so a unit is chosen in every case, as in the model.
