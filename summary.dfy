/**
 * The summary `newBenchmarkInfo` derives from the grouped records
 * (prettybenchmarks/main.go): the unit the timings are shown in, whether any
 * benchmark name carries an FnIterations value, and whether `-benchmem`
 * columns were printed. The speeds are rescaled in place to the chosen unit.
 */
module Summary {
  import opened Line
  import opened Aggregate
  import opened Timing

  /** `benchmarkInfo`. */
  datatype BenchmarkInfo = BenchmarkInfo(hasFnIterations: bool, benchmemUsed: bool, suggestedTiming: string)

  // ---------------------------------------------------------------------------
  // What the scans compute

  /** The record has an FnIterations value; -1 means there is none. */
  predicate HasIterations(x: Result) {
    x.FnIterations > -1
  }

  /** The record has both `-benchmem` columns; -1 means the column is missing. */
  predicate HasBenchmem(x: Result) {
    x.Aps > -1 && x.Bps > -1
  }

  predicate AnyFnIterations(r: Dataset) {
    exists k, x :: k in r && x in r[k] && HasIterations(x)
  }

  predicate AnyBenchmem(r: Dataset) {
    exists k, x :: k in r && x in r[k] && HasBenchmem(x)
  }

  /** No record of the groups in `keys` is slower than b nanoseconds per operation. */
  predicate AllAtMost(r: Dataset, keys: set<string>, b: real)
    reads Objects(r)
  {
    forall k, x :: k in r && k in keys && x in r[k] ==> x.Speed <= b
  }

  /**
   * s is the running maximum of `getSuggestedTiming` over the groups in
   * `keys`: the largest speed there, or 0 when no speed exceeds 0.
   */
  predicate IsSlowest(r: Dataset, keys: set<string>, s: real)
    reads Objects(r)
  {
    && s >= 0.0
    && AllAtMost(r, keys, s)
    && (s == 0.0 || exists k, x :: k in r && k in keys && x in r[k] && x.Speed == s)
  }

  /** The unit for a slowest speed, by the thresholds of `getSuggestedTiming`. */
  function UnitFor(slowest: real): (u: string)
    ensures u in Units
  {
    if slowest <= 1000.0 then "ns"
    else if slowest <= 1000000.0 then "µs"
    else if slowest <= 1000000000.0 then "ms"
    else "s"
  }

  /**
   * The unit suggested for the whole dataset, stated without a maximum: the
   * smallest unit whose threshold no record exceeds.
   */
  function UnitOf(r: Dataset): string
    reads Objects(r)
  {
    if AllAtMost(r, r.Keys, 1000.0) then "ns"
    else if AllAtMost(r, r.Keys, 1000000.0) then "µs"
    else if AllAtMost(r, r.Keys, 1000000000.0) then "ms"
    else "s"
  }

  /** What `newBenchmarkInfo` divides every speed by once the unit is chosen. */
  function Divisor(unit: string): (d: real)
    ensures d >= 1.0
    ensures d == 1.0 <==> unit !in {"µs", "ms", "s"}
  {
    if unit == "µs" then 1000.0
    else if unit == "ms" then 1000000.0
    else if unit == "s" then 1000000000.0
    else 1.0
  }

  /**
   * The largest speed among the entries, or 0 when none exceeds 0: the running
   * maximum of `getSuggestedTiming`, taken over the records in input order.
   */
  function Slowest(es: seq<Entry>): (s: real)
    ensures s >= 0.0
    ensures forall e :: e in es ==> e.speed <= s
    ensures s == 0.0 || exists e :: e in es && e.speed == s
  {
    if es == [] then 0.0
    else
      var m := Slowest(es[..|es| - 1]);
      assert es == es[..|es| - 1] + [es[|es| - 1]];
      if m < es[|es| - 1].speed then es[|es| - 1].speed else m
  }

  /** The entries as `updateSpeedVals` leaves them: every speed divided by d. */
  function Rescaled(es: seq<Entry>, d: real): (rs: seq<Entry>)
    requires d != 0.0
    ensures |rs| == |es|
    ensures forall i :: 0 <= i < |es| ==> rs[i] == es[i].(speed := es[i].speed / d)
  {
    seq(|es|, i requires 0 <= i < |es| => es[i].(speed := es[i].speed / d))
  }

  /**
   * The groups of r hold, up to order, the records of es of their own name, and
   * there is a group for every name in es.
   */
  predicate Groups(r: Dataset, es: seq<Entry>)
    reads Objects(r)
  {
    && r.Keys == Names(es)
    && forall k :: k in r ==> multiset(Values(r[k])) == multiset(WithName(es, k))
  }

  // ---------------------------------------------------------------------------
  // Properties of the specification functions

  lemma RescaledConcat(p: seq<Entry>, q: seq<Entry>, d: real)
    requires d != 0.0
    ensures Rescaled(p + q, d) == Rescaled(p, d) + Rescaled(q, d)
  {
    var l, rs := Rescaled(p + q, d), Rescaled(p, d) + Rescaled(q, d);
    assert |l| == |rs|;
    forall i | 0 <= i < |l|
      ensures l[i] == rs[i]
    {
      if i < |p| {
        assert (p + q)[i] == p[i];
      } else {
        assert (p + q)[i] == q[i - |p|];
      }
    }
  }

  lemma RescaledAppend(p: seq<Entry>, x: Entry, d: real)
    requires d != 0.0
    ensures Rescaled(p + [x], d) == Rescaled(p, d) + [x.(speed := x.speed / d)]
  {
    assert (p + [x])[|p|] == x;
  }

  lemma RescaledRemoveAt(b: seq<Entry>, j: nat, d: real)
    requires d != 0.0 && j < |b|
    ensures multiset(Rescaled(b, d)) == multiset(Rescaled(RemoveAt(b, j), d)) + multiset{b[j].(speed := b[j].speed / d)}
  {
    var p, q := b[..j], b[j + 1..];
    assert b == (p + [b[j]]) + q;
    RescaledConcat(p + [b[j]], q, d);
    RescaledConcat(p, [b[j]], d);
    RescaledConcat(p, q, d);
  }

  /** Rearranging entries and rescaling them commute. */
  lemma {:induction false} RescaledPerm(a: seq<Entry>, b: seq<Entry>, d: real)
    requires d != 0.0 && multiset(a) == multiset(b)
    ensures multiset(Rescaled(a, d)) == multiset(Rescaled(b, d))
    decreases |a|
  {
    if a == [] {
      assert b == [] by { assert |multiset(b)| == 0; }
    } else {
      var x := a[|a| - 1];
      var init := a[..|a| - 1];
      assert a == init + [x];
      assert x in multiset(b);
      var j :| 0 <= j < |b| && b[j] == x;
      var rest := RemoveAt(b, j);
      assert multiset(rest) == multiset(init);
      RescaledPerm(init, rest, d);
      RescaledRemoveAt(b, j, d);
      RescaledAppend(init, x, d);
    }
  }

  /**
   * Groups whose values were `before`, a rearrangement of the entries of their
   * name, hold those entries rescaled once every speed is divided by d.
   */
  lemma RescaledGroups(r: Dataset, es: seq<Entry>, before: map<string, seq<Entry>>, d: real)
    requires d != 0.0
    requires forall k :: k in r ==> k in before && multiset(before[k]) == multiset(WithName(es, k))
    requires forall k :: k in r ==> |before[k]| == |r[k]|
    requires forall k, i :: k in r && 0 <= i < |r[k]| ==>
               r[k][i].Value() == before[k][i].(speed := before[k][i].speed / d)
    ensures forall k :: k in r ==> multiset(Values(r[k])) == multiset(Rescaled(WithName(es, k), d))
  {
    forall k | k in r
      ensures multiset(Values(r[k])) == multiset(Rescaled(WithName(es, k), d))
    {
      assert Values(r[k]) == Rescaled(before[k], d);
      RescaledPerm(before[k], WithName(es, k), d);
    }
  }

  /** The values of every group, as they are now. */
  lemma Snapshot(r: Dataset) returns (before: map<string, seq<Entry>>)
    ensures forall k :: k in r ==> k in before && before[k] == Values(r[k])
    ensures forall k, i :: k in r && 0 <= i < |r[k]| ==>
              k in before && |before[k]| == |r[k]| && before[k][i] == r[k][i].Value()
  {
    before := map k | k in r :: Values(r[k]);
  }

  /** Every record of the groups is one of the entries. */
  lemma RecordIsEntry(r: Dataset, es: seq<Entry>, k: string, x: Result)
    requires Groups(r, es) && k in r && x in r[k]
    ensures x.Value() in es
  {
    var i :| 0 <= i < |r[k]| && r[k][i] == x;
    assert Values(r[k])[i] == x.Value();
    assert x.Value() in multiset(WithName(es, k));
    WithNameOf(es, k);
  }

  /** Every entry is the value of a record in the group of its name. */
  lemma EntryIsRecord(r: Dataset, es: seq<Entry>, e: Entry) returns (x: Result)
    requires Groups(r, es) && e in es
    ensures e.name in r && x in r[e.name] && x.Value() == e
  {
    var k := e.name;
    assert k in Names(es);
    WithNameOf(es, k);
    assert e in multiset(Values(r[k]));
    var i :| 0 <= i < |r[k]| && Values(r[k])[i] == e;
    x := r[k][i];
  }

  /** The two flags are properties of the entries, whatever the grouping. */
  lemma FlagsOfRecords(r: Dataset, es: seq<Entry>)
    requires Groups(r, es)
    ensures AnyFnIterations(r) <==> exists e :: e in es && e.fnIterations > -1
    ensures AnyBenchmem(r) <==> exists e :: e in es && e.aps > -1 && e.bps > -1
  {
    if exists e :: e in es && e.fnIterations > -1 {
      var e :| e in es && e.fnIterations > -1;
      var x := EntryIsRecord(r, es, e);
      assert HasIterations(x);
    }
    if exists e :: e in es && e.aps > -1 && e.bps > -1 {
      var e :| e in es && e.aps > -1 && e.bps > -1;
      var x := EntryIsRecord(r, es, e);
      assert HasBenchmem(x);
    }
    if AnyFnIterations(r) {
      var k, x :| k in r && x in r[k] && HasIterations(x);
      RecordIsEntry(r, es, k, x);
    }
    if AnyBenchmem(r) {
      var k, x :| k in r && x in r[k] && HasBenchmem(x);
      RecordIsEntry(r, es, k, x);
    }
  }

  /** No record exceeds a non-negative b exactly when the slowest entry does not. */
  lemma AtMostOfRecords(r: Dataset, es: seq<Entry>, b: real)
    requires Groups(r, es) && b >= 0.0
    ensures AllAtMost(r, r.Keys, b) <==> Slowest(es) <= b
  {
    var s := Slowest(es);
    if s > b {
      var e :| e in es && e.speed == s;
      var x := EntryIsRecord(r, es, e);
      assert x.Speed > b;
    } else {
      forall k, x | k in r && x in r[k]
        ensures x.Speed <= b
      {
        RecordIsEntry(r, es, k, x);
      }
    }
  }

  /** The unit of the grouped records is the unit of the slowest entry. */
  lemma UnitOfRecords(r: Dataset, es: seq<Entry>)
    requires Groups(r, es)
    ensures UnitOf(r) == UnitFor(Slowest(es))
  {
    AtMostOfRecords(r, es, 1000.0);
    AtMostOfRecords(r, es, 1000000.0);
    AtMostOfRecords(r, es, 1000000000.0);
  }

  /** Below a non-negative threshold b, no record exceeds b exactly when the slowest one does not. */
  lemma AtMostIffSlowest(r: Dataset, s: real, b: real)
    requires IsSlowest(r, r.Keys, s) && b >= 0.0
    ensures AllAtMost(r, r.Keys, b) <==> s <= b
  {
    if s > b {
      var k, x :| k in r && k in r.Keys && x in r[k] && x.Speed == s;
    }
  }

  /** The running maximum and the thresholds choose the same unit. */
  lemma UnitOfSlowest(r: Dataset, s: real)
    requires IsSlowest(r, r.Keys, s)
    ensures UnitOf(r) == UnitFor(s)
  {
    AtMostIffSlowest(r, s, 1000.0);
    AtMostIffSlowest(r, s, 1000000.0);
    AtMostIffSlowest(r, s, 1000000000.0);
  }

  /** A slower slowest record never gives a smaller unit. */
  lemma UnitForMonotone(s: real, t: real)
    requires s <= t
    ensures Divisor(UnitFor(s)) <= Divisor(UnitFor(t))
  {
  }

  /** A suggested unit is one `setTiming` accepts and keeps as it is. */
  lemma UnitForIsNormal(s: real)
    ensures Normalise(UnitFor(s)) == UnitFor(s)
  {
    NormaliseOfUnit(UnitFor(s));
  }

  // ---------------------------------------------------------------------------
  // The scans

  /**
   * `getSuggestedTiming`. `timing` is the package-level override: when set it
   * is returned unchanged, otherwise the unit is chosen from the slowest record
   * (0 when there is none, hence "ns" for an empty dataset).
   */
  method GetSuggestedTiming(r: Dataset, timing: string) returns (t: string)
    ensures timing != "" ==> t == timing
    ensures timing == "" ==> t == UnitOf(r)
  {
    var slowest := 0.0;
    var todo := r.Keys;
    while todo != {}
      invariant todo <= r.Keys
      invariant IsSlowest(r, r.Keys - todo, slowest)
      decreases todo
    {
      var k :| k in todo;
      var g := r[k];
      ghost var done := r.Keys - todo;
      var j := 0;
      while j < |g|
        invariant 0 <= j <= |g| && slowest >= 0.0
        invariant AllAtMost(r, done, slowest)
        invariant forall i :: 0 <= i < j ==> g[i].Speed <= slowest
        invariant slowest == 0.0
               || (exists k', x :: k' in r && k' in done && x in r[k'] && x.Speed == slowest)
               || (exists i :: 0 <= i < j && g[i].Speed == slowest)
      {
        if slowest < g[j].Speed {
          slowest := g[j].Speed;
        }
        j := j + 1;
      }
      SlowestStep(r, done, k, slowest);
      todo := todo - {k};
    }
    assert r.Keys - todo == r.Keys;
    UnitOfSlowest(r, slowest);
    if timing == "" {
      t := UnitFor(slowest);
    } else {
      t := timing;
    }
  }

  /** Adding the group k, fully scanned, to the groups already scanned. */
  lemma SlowestStep(r: Dataset, done: set<string>, k: string, s: real)
    requires k in r && s >= 0.0 && AllAtMost(r, done, s)
    requires forall i :: 0 <= i < |r[k]| ==> r[k][i].Speed <= s
    requires s == 0.0
          || (exists k', x :: k' in r && k' in done && x in r[k'] && x.Speed == s)
          || (exists i :: 0 <= i < |r[k]| && r[k][i].Speed == s)
    ensures IsSlowest(r, done + {k}, s)
  {
    if s != 0.0 && !exists k', x :: k' in r && k' in done && x in r[k'] && x.Speed == s {
      var i :| 0 <= i < |r[k]| && r[k][i].Speed == s;
      assert r[k][i] in r[k];
    }
  }

  /** `hasFnIterations`. */
  method HasFnIterations(r: Dataset) returns (b: bool)
    ensures b <==> AnyFnIterations(r)
  {
    b := false;
    var todo := r.Keys;
    while todo != {}
      invariant todo <= r.Keys
      invariant b <==> exists k, x :: k in r && k !in todo && x in r[k] && HasIterations(x)
      decreases todo
    {
      var k :| k in todo;
      var g := r[k];
      var j := 0;
      while j < |g|
        invariant 0 <= j <= |g|
        invariant b <==> ((exists k', x :: k' in r && k' !in todo && x in r[k'] && HasIterations(x))
                       || (exists i :: 0 <= i < j && HasIterations(g[i])))
      {
        if g[j].FnIterations > -1 {
          b := true;
        }
        j := j + 1;
      }
      FoundStep(r, todo, k, b, HasIterations);
      todo := todo - {k};
    }
  }

  /** `isBenchmem`. */
  method IsBenchmem(r: Dataset) returns (b: bool)
    ensures b <==> AnyBenchmem(r)
  {
    b := false;
    var todo := r.Keys;
    while todo != {}
      invariant todo <= r.Keys
      invariant b <==> exists k, x :: k in r && k !in todo && x in r[k] && HasBenchmem(x)
      decreases todo
    {
      var k :| k in todo;
      var g := r[k];
      var j := 0;
      while j < |g|
        invariant 0 <= j <= |g|
        invariant b <==> ((exists k', x :: k' in r && k' !in todo && x in r[k'] && HasBenchmem(x))
                       || (exists i :: 0 <= i < j && HasBenchmem(g[i])))
      {
        if g[j].Aps > -1 && g[j].Bps > -1 {
          b := true;
        }
        j := j + 1;
      }
      FoundStep(r, todo, k, b, HasBenchmem);
      todo := todo - {k};
    }
  }

  /** Adding the group k, fully scanned for p, to the groups already scanned. */
  lemma FoundStep(r: Dataset, todo: set<string>, k: string, b: bool, p: Result -> bool)
    requires k in todo && k in r
    requires b <==> ((exists k', x :: k' in r && k' !in todo && x in r[k'] && p(x))
                  || (exists i :: 0 <= i < |r[k]| && p(r[k][i])))
    ensures b <==> exists k', x :: k' in r && k' !in todo - {k} && x in r[k'] && p(x)
  {
    if exists i :: 0 <= i < |r[k]| && p(r[k][i]) {
      var i :| 0 <= i < |r[k]| && p(r[k][i]);
      assert r[k][i] in r[k];
    }
    if exists k', x :: k' in r && k' !in todo - {k} && x in r[k'] && p(x) {
      var k', x :| k' in r && k' !in todo - {k} && x in r[k'] && p(x);
      if k' == k {
        var i :| 0 <= i < |r[k]| && r[k][i] == x;
      }
    }
  }

  /**
   * `updateSpeedVals`: every record's speed divided by f. Each record is
   * listed once, in the group of its own name, so each is divided once.
   */
  method UpdateSpeedVals(r: Dataset, f: real)
    requires WellFormed(r) && f != 0.0
    modifies Objects(r)
    ensures forall k, x :: k in r && x in r[k] ==> x.Speed == old(x.Speed) / f
  {
    var todo := r.Keys;
    while todo != {}
      invariant todo <= r.Keys
      invariant forall k, x :: k in r && x in r[k] ==>
                  x.Speed == if k in todo then old(x.Speed) else old(x.Speed) / f
      decreases todo
    {
      var k :| k in todo;
      ScaleGroup(r[k], f);
      todo := todo - {k};
    }
  }

  /** The inner loop of `updateSpeedVals`, over one group of distinct records. */
  method ScaleGroup(g: seq<Result>, f: real)
    requires Unique(g) && f != 0.0
    modifies set x | x in g
    ensures forall x :: x in g ==> x.Speed == old(x.Speed) / f
  {
    var j := 0;
    while j < |g|
      invariant 0 <= j <= |g|
      invariant forall i :: 0 <= i < |g| ==>
                  g[i].Speed == if i < j then old(g[i].Speed) / f else old(g[i].Speed)
    {
      OnlyAt(g, j);
      g[j].Speed := g[j].Speed / f;
      j := j + 1;
    }
    forall x | x in g
      ensures x.Speed == old(x.Speed) / f
    {
      var i :| 0 <= i < |g| && g[i] == x;
    }
  }

  /** In a group of distinct records, position j is the only one holding g[j]. */
  lemma OnlyAt(g: seq<Result>, j: nat)
    requires Unique(g) && j < |g|
    ensures forall i :: 0 <= i < |g| && i != j ==> g[i] != g[j]
  {
    forall i | 0 <= i < |g| && i != j
      ensures g[i] != g[j]
    {
      if i < j { UniqueDistinct(g, i, j); } else { UniqueDistinct(g, j, i); }
    }
  }

  /**
   * `newBenchmarkInfo`. `timing` is the package-level override before the
   * call; the unit returned is also its value after the call, since the source
   * writes the suggestion back. Every speed is rescaled to that unit.
   */
  method NewBenchmarkInfo(r: Dataset, timing: string) returns (info: BenchmarkInfo)
    requires WellFormed(r)
    modifies Objects(r)
    ensures info.suggestedTiming == if timing != "" then timing else old(UnitOf(r))
    ensures info.hasFnIterations <==> AnyFnIterations(r)
    ensures info.benchmemUsed <==> AnyBenchmem(r)
    ensures forall k, x :: k in r && x in r[k] ==>
              x.Value() == old(x.Value()).(speed := old(x.Speed) / Divisor(info.suggestedTiming))
  {
    var t := GetSuggestedTiming(r, timing);
    var hasFnIter := HasFnIterations(r);
    var benchmemUsed := IsBenchmem(r);
    if t == "µs" {
      UpdateSpeedVals(r, 1000.0);
    } else if t == "ms" {
      UpdateSpeedVals(r, 1000000.0);
    } else if t == "s" {
      UpdateSpeedVals(r, 1000000000.0);
    }
    info := BenchmarkInfo(hasFnIter, benchmemUsed, t);
  }

  /**
   * `newBenchmark`: the grouped records of the lines and their summary, or the
   * panic of `newResult` on a line of six parts. Everything is stated over the
   * records of the accepted lines: each group holds the records of its name,
   * rescaled to the unit chosen, and the summary is that of the records.
   */
  method NewBenchmark(lines: seq<string>, timing: string)
    returns (panicked: bool, r: Dataset, passthrough: seq<string>, info: BenchmarkInfo)
    ensures panicked <==> Panics(Outcomes(lines))
    ensures !panicked ==> passthrough == Passthrough(Outcomes(lines))
    ensures !panicked ==> r.Keys == Names(Records(Outcomes(lines))) && WellFormed(r)
    ensures !panicked ==> forall k :: k in r ==> Sorted(r[k])
    ensures !panicked ==> forall k :: k in r ==>
              multiset(Values(r[k]))
              == multiset(Rescaled(WithName(Records(Outcomes(lines)), k), Divisor(info.suggestedTiming)))
    ensures !panicked ==> info.suggestedTiming
                          == if timing != "" then timing else UnitFor(Slowest(Records(Outcomes(lines))))
    ensures !panicked ==> (info.hasFnIterations <==>
                           exists e :: e in Records(Outcomes(lines)) && e.fnIterations > -1)
    ensures !panicked ==> (info.benchmemUsed <==>
                           exists e :: e in Records(Outcomes(lines)) && e.aps > -1 && e.bps > -1)
  {
    panicked, r, passthrough := NewResults(lines);
    if !panicked {
      ghost var es := Records(Outcomes(lines));
      assert Groups(r, es);
      FlagsOfRecords(r, es);
      UnitOfRecords(r, es);
      ghost var before := Snapshot(r);
      info := NewBenchmarkInfo(r, timing);
      assert forall k, i :: k in r && 0 <= i < |r[k]| ==> r[k][i] in r[k];
      RescaledGroups(r, es, before, Divisor(info.suggestedTiming));
    } else {
      info := BenchmarkInfo(false, false, timing);
    }
  }
}
