/**
 * The aggregator `newResults` (prettybenchmarks/main.go): every line of the
 * input becomes either a `*result` appended to the group of its name, or a
 * passthrough line; afterwards every group is sorted by FnIterations with
 * `sort.Sort(sortByFnIterations(...))`.
 */
module Aggregate {
  import opened Line

  /**
   * `result`. The records are shared through pointers and `updateSpeedVals`
   * rewrites `Speed` in place, so a record is an object; the other fields are
   * never written after construction.
   */
  class Result {
    const Name: string
    const FnIterations: int
    const Runs: int
    var Speed: real
    const Bps: int
    const Aps: int

    constructor (e: Entry)
      ensures Value() == e
    {
      Name := e.name;
      FnIterations := e.fnIterations;
      Runs := e.runs;
      Speed := e.speed;
      Bps := e.bps;
      Aps := e.aps;
    }

    /** The fields of the record as a value. */
    function Value(): Entry
      reads this
    {
      Entry(Name, FnIterations, Runs, Speed, Bps, Aps)
    }
  }

  /** `results`: the groups of records by benchmark name. */
  type Dataset = map<string, seq<Result>>

  /** Every record reachable from the map. */
  function Objects(r: Dataset): (os: set<Result>)
    ensures forall k, x :: k in r && x in r[k] ==> x in os
  {
    set k, x | k in r && x in r[k] :: x
  }

  /** Each record occurs once in its group. */
  predicate Unique(g: seq<Result>) {
    forall x :: x in g ==> multiset(g)[x] == 1
  }

  /** The shape `newResults` produces: non-empty groups of distinct records, each under its own name. */
  predicate WellFormed(r: Dataset) {
    forall k :: k in r ==> r[k] != [] && Unique(r[k]) && forall x :: x in r[k] ==> x.Name == k
  }

  /** The values of a group's records, in group order. */
  function Values(g: seq<Result>): (vs: seq<Entry>)
    reads g
    ensures |vs| == |g|
    ensures forall i :: 0 <= i < |g| ==> vs[i] == g[i].Value()
  {
    seq(|g|, i reads g requires 0 <= i < |g| => g[i].Value())
  }

  // ---------------------------------------------------------------------------
  // What `newResults` computes, as functions of the input lines

  /** What `newResult` makes of each line, in input order. */
  function Outcomes(lines: seq<string>): (os: seq<Outcome>)
    ensures |os| == |lines|
  {
    Each(NewResult, lines)
  }

  /** What `parse` makes of each line, in input order. */
  function Each(parse: string -> Outcome, lines: seq<string>): (os: seq<Outcome>)
    ensures |os| == |lines|
    ensures forall i :: 0 <= i < |lines| ==> os[i] == parse(lines[i])
  {
    seq(|lines|, i requires 0 <= i < |lines| => parse(lines[i]))
  }

  /** The records of the accepted lines, in input order. */
  function Records(os: seq<Outcome>): seq<Entry> {
    if os == [] then []
    else Records(os[..|os| - 1]) + if os[|os| - 1].Accepted? then [os[|os| - 1].entry] else []
  }

  /** The rejected lines, verbatim and in input order (`unparsableLines`). */
  function Passthrough(os: seq<Outcome>): seq<string> {
    if os == [] then []
    else Passthrough(os[..|os| - 1]) + if os[|os| - 1].Rejected? then [os[|os| - 1].text] else []
  }

  /** Some line starts with "Benchmark" and has exactly six parts, so `newResult` panics on it. */
  predicate Panics(os: seq<Outcome>) {
    IndexOutOfRange in os
  }

  /** The records named k, in order. */
  function WithName(es: seq<Entry>, k: string): seq<Entry> {
    if es == [] then []
    else WithName(es[..|es| - 1], k) + if es[|es| - 1].name == k then [es[|es| - 1]] else []
  }

  function Names(es: seq<Entry>): set<string> {
    set e | e in es :: e.name
  }

  /** `Less` of `sortByFnIterations`, applied to every pair of positions. */
  predicate Sorted(s: seq<Result>) {
    forall a, b :: 0 <= a < b < |s| ==> s[a].FnIterations <= s[b].FnIterations
  }

  // ---------------------------------------------------------------------------
  // Properties of the specification functions

  /** Without a panic, every line is either a record or a passthrough line, and the order is kept. */
  lemma {:induction false} Partition(os: seq<Outcome>)
    requires !Panics(os)
    ensures |Records(os)| + |Passthrough(os)| == |os|
    decreases |os|
  {
    if os != [] {
      var init := os[..|os| - 1];
      assert os == init + [os[|os| - 1]];
      Partition(init);
    }
  }

  lemma OutcomesStep(os: seq<Outcome>, i: nat)
    requires i < |os|
    ensures Records(os[..i + 1]) == Records(os[..i]) + if os[i].Accepted? then [os[i].entry] else []
    ensures Passthrough(os[..i + 1]) == Passthrough(os[..i]) + if os[i].Rejected? then [os[i].text] else []
    ensures Panics(os[..i + 1]) <==> Panics(os[..i]) || os[i].IndexOutOfRange?
  {
    assert os[..i + 1] == os[..i] + [os[i]];
  }

  /** Every record named k is found among the records named k, and no other. */
  lemma {:induction false} WithNameOf(es: seq<Entry>, k: string)
    ensures forall e :: e in WithName(es, k) <==> e in es && e.name == k
    decreases |es|
  {
    if es != [] {
      var init := es[..|es| - 1];
      WithNameOf(init, k);
      assert es == init + [es[|es| - 1]];
    }
  }

  /** A name has records exactly when it is among the names. */
  lemma WithNameEmpty(es: seq<Entry>, k: string)
    ensures WithName(es, k) == [] <==> k !in Names(es)
  {
    WithNameOf(es, k);
    if k in Names(es) {
      var e :| e in es && e.name == k;
      assert e in WithName(es, k);
    }
  }

  lemma WithNameAppend(es: seq<Entry>, e: Entry, k: string)
    ensures WithName(es + [e], k) == WithName(es, k) + if e.name == k then [e] else []
  {
    assert (es + [e])[..|es|] == es;
  }

  lemma ValuesAppend(p: seq<Result>, x: Result)
    ensures Values(p + [x]) == Values(p) + [x.Value()]
  {
    assert (p + [x])[..|p|] == p;
  }

  lemma {:induction false} ValuesConcat(p: seq<Result>, q: seq<Result>)
    ensures Values(p + q) == Values(p) + Values(q)
    decreases |q|
  {
    if q == [] {
      assert p + q == p;
    } else {
      var init := q[..|q| - 1];
      assert p + q == (p + init) + [q[|q| - 1]];
      ValuesAppend(p + init, q[|q| - 1]);
      ValuesConcat(p, init);
      ValuesAppend(init, q[|q| - 1]);
      assert q == init + [q[|q| - 1]];
    }
  }

  /** Rearranging the records of a group rearranges their values in the same way. */
  lemma {:induction false} ValuesPerm(a: seq<Result>, b: seq<Result>)
    requires multiset(a) == multiset(b)
    ensures multiset(Values(a)) == multiset(Values(b))
    decreases |a|
  {
    if a == [] {
      assert b == [] by { assert |multiset(b)| == 0; }
    } else {
      var x := a[|a| - 1];
      var init := a[..|a| - 1];
      assert a == init + [x];
      assert x in multiset(b);
      var j :| 0 <= j < |b| && b[j] == x;
      var rest := RemoveAt(b, j);
      assert multiset(rest) == multiset(init);
      ValuesPerm(init, rest);
      ValuesRemoveAt(b, j);
      ValuesAppend(init, x);
    }
  }

  /** b without position j. */
  function RemoveAt<T>(b: seq<T>, j: nat): (rest: seq<T>)
    requires j < |b|
    ensures multiset(rest) == multiset(b) - multiset{b[j]}
  {
    assert b == b[..j] + [b[j]] + b[j + 1..];
    b[..j] + b[j + 1..]
  }

  lemma ValuesRemoveAt(b: seq<Result>, j: nat)
    requires j < |b|
    ensures multiset(Values(b)) == multiset(Values(RemoveAt(b, j))) + multiset{b[j].Value()}
  {
    var p, q, v := b[..j], b[j + 1..], b[j].Value();
    assert b == (p + [b[j]]) + q;
    ValuesConcat(p, q);
    ValuesConcat(p + [b[j]], q);
    ValuesAppend(p, b[j]);
    assert Values(b) == (Values(p) + [v]) + Values(q);
    assert multiset(Values(b)) == multiset(Values(p)) + multiset{v} + multiset(Values(q));
  }

  /** The positions of a group never hold the same record twice. */
  lemma UniqueDistinct(g: seq<Result>, i: nat, j: nat)
    requires Unique(g) && i < j < |g|
    ensures g[i] != g[j]
  {
    var x := g[j];
    assert g == g[..j] + g[j..];
    assert multiset(g) == multiset(g[..j]) + multiset(g[j..]);
    assert x in g && multiset(g)[x] == 1;
    assert g[j..][0] == x;
    assert multiset(g[j..])[x] >= 1;
    assert multiset(g[..j])[x] == 0;
    assert g[i] in multiset(g[..j]) by { assert g[..j][i] == g[i]; }
  }

  // ---------------------------------------------------------------------------
  // The algorithms

  /** Exchanges positions i and j, as `Swap` of `sortByFnIterations` does. */
  function Swap(s: seq<Result>, i: nat, j: nat): (t: seq<Result>)
    requires i < |s| && j < |s|
    ensures |t| == |s| && multiset(t) == multiset(s)
    ensures t[i] == s[j] && t[j] == s[i]
    ensures forall k :: 0 <= k < |s| && k != i && k != j ==> t[k] == s[k]
  {
    s[i := s[j]][j := s[i]]
  }

  /**
   * `sort.Sort(sortByFnIterations(g))`. Go's algorithm is not stable and is not
   * modelled; an insertion sort built from `Less` and `Swap` stands in for it,
   * and the contract promises only what `sort.Sort` promises: the result is in
   * order and holds the same records.
   */
  method SortByFnIterations(g: seq<Result>) returns (s: seq<Result>)
    ensures Sorted(s) && multiset(s) == multiset(g)
  {
    s := g;
    var i := 0;
    while i < |s|
      invariant 0 <= i <= |s| == |g| && multiset(s) == multiset(g)
      invariant Sorted(s[..i])
    {
      var j := i;
      while j > 0 && s[j].FnIterations < s[j - 1].FnIterations
        invariant 0 <= j <= i < |s| == |g| && multiset(s) == multiset(g)
        invariant forall a, b :: 0 <= a < b < j ==> s[a].FnIterations <= s[b].FnIterations
        invariant forall a, b :: j <= a < b <= i ==> s[a].FnIterations <= s[b].FnIterations
        invariant forall a, b :: 0 <= a < j < b <= i ==> s[a].FnIterations <= s[b].FnIterations
      {
        s := Swap(s, j, j - 1);
        j := j - 1;
      }
      i := i + 1;
    }
  }

  /** The loop `for _, r := range benchMap { sort.Sort(sortByFnIterations(r)) }`, in any key order. */
  method SortGroups(m: Dataset) returns (r: Dataset)
    ensures r.Keys == m.Keys
    ensures forall k :: k in r ==> Sorted(r[k]) && multiset(r[k]) == multiset(m[k])
  {
    r := m;
    var todo := m.Keys;
    while todo != {}
      invariant todo <= r.Keys && r.Keys == m.Keys
      invariant forall k :: k in r && k !in todo ==> Sorted(r[k]) && multiset(r[k]) == multiset(m[k])
      invariant forall k :: k in todo ==> r[k] == m[k]
      decreases todo
    {
      var k :| k in todo;
      var s := SortByFnIterations(r[k]);
      r := r[k := s];
      todo := todo - {k};
    }
  }

  /** Sorting the groups keeps the shape and the values of each group, up to order. */
  lemma SortedGroupsKeep(m: Dataset, r: Dataset)
    requires WellFormed(m) && r.Keys == m.Keys
    requires forall k :: k in r ==> multiset(r[k]) == multiset(m[k])
    ensures WellFormed(r) && Objects(r) == Objects(m)
    ensures forall k :: k in r ==> multiset(Values(r[k])) == multiset(Values(m[k]))
  {
    forall k | k in r
      ensures multiset(Values(r[k])) == multiset(Values(m[k]))
      ensures forall x :: x in r[k] <==> x in m[k]
    {
      ValuesPerm(m[k], r[k]);
      assert forall x :: x in r[k] <==> x in multiset(m[k]);
    }
  }

  /** Adding a new record at the end of a group keeps it unique. */
  lemma UniqueAppend(g: seq<Result>, x: Result)
    requires Unique(g) && x !in g
    ensures Unique(g + [x])
  {
    assert multiset(g + [x]) == multiset(g) + multiset{x};
  }

  /**
   * `newResults`. `panicked` reports the index-out-of-range panic of
   * `newResult` on a line of six parts, after which nothing is returned.
   * Otherwise the passthrough lines are the rejected lines in input order, the
   * groups are exactly the names of the records, and each group holds, in
   * FnIterations order, one fresh record for each accepted line of its name.
   */
  method NewResults(lines: seq<string>) returns (panicked: bool, r: Dataset, passthrough: seq<string>)
    ensures panicked <==> Panics(Outcomes(lines))
    ensures !panicked ==> passthrough == Passthrough(Outcomes(lines))
    ensures !panicked ==> r.Keys == Names(Records(Outcomes(lines))) && WellFormed(r)
    ensures !panicked ==> forall k :: k in r ==>
              Sorted(r[k]) && multiset(Values(r[k])) == multiset(WithName(Records(Outcomes(lines)), k))
    ensures forall x :: x in Objects(r) ==> fresh(x)
  {
    var m;
    panicked, m, passthrough := Collect(NewResult, lines);
    if panicked {
      return panicked, m, passthrough;
    }
    r := SortGroups(m);
    SortedGroupsKeep(m, r);
  }

  /**
   * What the loop of `newResults` has built after the outcomes `done`: the
   * rejected lines in order, and a group per name holding one record per
   * accepted line of that name, in input order.
   */
  ghost predicate Gathered(m: Dataset, passthrough: seq<string>, done: seq<Outcome>)
    reads Objects(m)
  {
    && !Panics(done)
    && passthrough == Passthrough(done)
    && m.Keys == Names(Records(done))
    && WellFormed(m)
    && forall k :: k in m ==> Values(m[k]) == WithName(Records(done), k)
  }

  /**
   * The loop of `newResults` over the lines: records appended to their groups
   * in input order. `parse` is `newResult`; the loop relies on nothing but its
   * outcomes.
   */
  method Collect(parse: string -> Outcome, lines: seq<string>) returns (panicked: bool, m: Dataset, passthrough: seq<string>)
    ensures panicked <==> Panics(Each(parse, lines))
    ensures !panicked ==> Gathered(m, passthrough, Each(parse, lines))
    ensures forall k, y :: k in m && y in m[k] ==> fresh(y)
  {
    ghost var os := Each(parse, lines);
    m, passthrough := map[], [];
    var i := 0;
    while i < |lines|
      invariant 0 <= i <= |lines|
      invariant Gathered(m, passthrough, os[..i])
      invariant forall k, y :: k in m && y in m[k] ==> fresh(y)
    {
      var o := parse(lines[i]);
      if o.IndexOutOfRange? {
        assert os[i] in os;
        return true, m, passthrough;
      }
      assert os[..i + 1] == os[..i] + [o];
      m, passthrough := Absorb(m, passthrough, os[..i], o);
      i := i + 1;
    }
    assert os[..i] == os;
    panicked := false;
  }

  /** The body of that loop for a line that does not panic: a record appended, or the line passed through. */
  method Absorb(m: Dataset, passthrough: seq<string>, ghost done: seq<Outcome>, o: Outcome)
    returns (m': Dataset, passthrough': seq<string>)
    requires Gathered(m, passthrough, done) && !o.IndexOutOfRange?
    ensures Gathered(m', passthrough', done + [o])
    ensures forall k, y :: k in m' && y in m'[k] ==> fresh(y) || (k in m && y in m[k])
  {
    OutcomesStep(done + [o], |done|);
    assert (done + [o])[..|done|] == done && (done + [o])[..|done| + 1] == done + [o];
    match o {
      case Rejected(t) =>
        m', passthrough' := m, passthrough + [t];
        assert Records(done + [o]) == Records(done);
      case Accepted(e) =>
        var x := new Result(e);
        m' := AddRecord(m, Records(done), e, x);
        passthrough' := passthrough;
    }
  }

  /** Appending record x, whose value is e, to the group of its name. */
  method AddRecord(m: Dataset, ghost before: seq<Entry>, e: Entry, x: Result) returns (m': Dataset)
    requires m.Keys == Names(before) && WellFormed(m) && x.Value() == e
    requires forall k :: k in m ==> x !in m[k] && Values(m[k]) == WithName(before, k)
    ensures m'.Keys == Names(before + [e]) && WellFormed(m')
    ensures forall k, y :: k in m' && y in m'[k] ==> y == x || (k in m && y in m[k])
    ensures forall k :: k in m' ==> Values(m'[k]) == WithName(before + [e], k)
  {
    var g: seq<Result> := [];
    if e.name in m {
      g := m[e.name];
    } else {
      WithNameEmpty(before, e.name);
    }
    GroupAppend(g, x, before, e);
    m' := m[e.name := g + [x]];
    NamesAppend(before, e);
    assert m'.Keys == m.Keys + {e.name};
    forall k | k in m'
      ensures m'[k] != [] && Unique(m'[k]) && forall y :: y in m'[k] ==> y.Name == k
      ensures Values(m'[k]) == WithName(before + [e], k)
      ensures forall y :: y in m'[k] ==> y == x || (k in m && y in m[k])
    {
      if k != e.name {
        WithNameAppend(before, e, k);
        assert m'[k] == m[k];
      }
    }
  }

  lemma NamesAppend(es: seq<Entry>, e: Entry)
    ensures Names(es + [e]) == Names(es) + {e.name}
  {
    assert forall d :: d in es + [e] <==> d in es || d == e;
  }

  lemma GroupAppend(g: seq<Result>, x: Result, before: seq<Entry>, e: Entry)
    requires Unique(g) && x !in g && x.Value() == e
    requires forall y :: y in g ==> y.Name == e.name
    requires Values(g) == WithName(before, e.name)
    ensures Unique(g + [x]) && forall y :: y in g + [x] ==> y.Name == e.name
    ensures Values(g + [x]) == WithName(before + [e], e.name)
  {
    UniqueAppend(g, x);
    ValuesAppend(g, x);
    WithNameAppend(before, e, e.name);
  }
}
