/**
 * Splitting a line on runs of white space, as `regexp.MustCompile(`\s+`).Split(s, -1)`
 * does in Go: RE2's `\s` is the class [\t\n\f\r ], every maximal run of it is one
 * separator, and a run at the start or at the end of the line leaves an empty
 * first or last part.
 */
module Text {

  predicate IsSpace(c: char) {
    c == ' ' || c == '\t' || c == '\n' || c == '\r' || c == 12 as char
  }

  predicate NoSpace(s: string) {
    forall i :: 0 <= i < |s| ==> !IsSpace(s[i])
  }

  predicate AllSpace(s: string) {
    forall i :: 0 <= i < |s| ==> IsSpace(s[i])
  }

  /** Length of the leading run of non-space characters. */
  function WordEnd(s: string): (n: nat)
    ensures n <= |s| && NoSpace(s[..n])
    ensures n < |s| ==> IsSpace(s[n])
  {
    if s == [] || IsSpace(s[0]) then 0
    else
      var n := 1 + WordEnd(s[1..]);
      assert s[..n] == [s[0]] + s[1..][..n - 1];
      n
  }

  /** Drops the leading run of space characters. */
  function DropSpaces(s: string): (r: string)
    ensures |r| <= |s| && r == s[|s| - |r|..]
    ensures AllSpace(s[..|s| - |r|])
    ensures r == [] || !IsSpace(r[0])
  {
    if s != [] && IsSpace(s[0]) then
      var r := DropSpaces(s[1..]);
      assert s[..|s| - |r|] == [s[0]] + s[1..][..|s| - 1 - |r|];
      r
    else s
  }

  /** `regExByWhitespace.Split(s, -1)`. */
  function Split(s: string): (parts: seq<string>)
    ensures |parts| >= 1
    decreases |s|
  {
    var n := WordEnd(s);
    if n == |s| then [s] else [s[..n]] + Split(DropSpaces(s[n..]))
  }

  /**
   * Number of maximal runs of white space in s, counted character by character;
   * `inRun` says whether the character before s was white space.
   */
  function SpaceRuns(s: string, inRun: bool): nat {
    if s == [] then 0
    else (if IsSpace(s[0]) && !inRun then 1 else 0) + SpaceRuns(s[1..], IsSpace(s[0]))
  }

  function Runs(s: string): nat {
    SpaceRuns(s, false)
  }

  lemma {:induction false} RunsOfWord(w: string, t: string, inRun: bool)
    requires NoSpace(w) && w != []
    ensures SpaceRuns(w + t, inRun) == SpaceRuns(t, false)
    decreases |w|
  {
    assert (w + t)[0] == w[0] && (w + t)[1..] == w[1..] + t;
    if |w| > 1 {
      RunsOfWord(w[1..], t, false);
    } else {
      assert w[1..] + t == t;
    }
  }

  lemma {:induction false} RunsOfSpaces(sp: string, t: string)
    requires AllSpace(sp) && sp != []
    requires t == [] || !IsSpace(t[0])
    ensures SpaceRuns(sp + t, true) == SpaceRuns(t, false)
    decreases |sp|
  {
    assert (sp + t)[0] == sp[0] && (sp + t)[1..] == sp[1..] + t;
    if |sp| > 1 {
      RunsOfSpaces(sp[1..], t);
    } else {
      assert sp[1..] + t == t;
    }
  }

  lemma RunsFromSpaces(sp: string, t: string)
    requires AllSpace(sp) && sp != []
    requires t == [] || !IsSpace(t[0])
    ensures SpaceRuns(sp + t, false) == 1 + SpaceRuns(t, false)
  {
    assert (sp + t)[0] == sp[0] && (sp + t)[1..] == sp[1..] + t;
    if |sp| > 1 {
      RunsOfSpaces(sp[1..], t);
    } else {
      assert sp[1..] + t == t;
      WordStartRuns(t);
    }
  }

  /** The step of Split: a word, the run of white space after it, and the rest of the line. */
  lemma SplitStep(s: string) returns (sp: string, rest: string)
    requires WordEnd(s) < |s|
    ensures rest == DropSpaces(s[WordEnd(s)..])
    ensures s == s[..WordEnd(s)] + (sp + rest)
    ensures AllSpace(sp) && sp != [] && (rest == [] || !IsSpace(rest[0]))
    ensures Split(s) == [s[..WordEnd(s)]] + Split(rest)
  {
    sp, rest := Separator(s);
    SplitUnfold(s);
  }

  lemma Separator(s: string) returns (sp: string, rest: string)
    requires WordEnd(s) < |s|
    ensures rest == DropSpaces(s[WordEnd(s)..])
    ensures s == s[..WordEnd(s)] + (sp + rest)
    ensures AllSpace(sp) && sp != [] && (rest == [] || !IsSpace(rest[0]))
  {
    var n := WordEnd(s);
    var t := s[n..];
    assert t[0] == s[n] && IsSpace(t[0]);
    rest := DropSpaces(t);
    var m := |t| - |rest|;
    sp := t[..m];
    assert AllSpace(sp);
    assert rest == t[m..];
    assert m > 0;
    assert t == sp + rest;
    assert s == s[..n] + t;
  }

  lemma SplitUnfold(s: string)
    requires WordEnd(s) < |s|
    ensures Split(s) == [s[..WordEnd(s)]] + Split(DropSpaces(s[WordEnd(s)..]))
  {
  }

  /** Split yields one part more than there are runs of white space. */
  lemma {:induction false} SplitCount(s: string)
    ensures |Split(s)| == Runs(s) + 1
    decreases |s|
  {
    var n := WordEnd(s);
    if n == |s| {
      assert NoSpace(s) by { assert s[..n] == s; }
      NoSpaceRuns(s, false);
    } else {
      var sp, rest := SplitStep(s);
      SplitCount(rest);
      RunsFromSpaces(sp, rest);
      if n > 0 {
        RunsOfWord(s[..n], sp + rest, false);
      } else {
        assert s == sp + rest;
      }
    }
  }

  lemma {:induction false} NoSpaceRuns(s: string, inRun: bool)
    requires NoSpace(s)
    ensures SpaceRuns(s, inRun) == 0
    decreases |s|
  {
    if s != [] {
      NoSpaceRuns(s[1..], false);
    }
  }

  lemma WordStartRuns(t: string)
    requires t == [] || !IsSpace(t[0])
    ensures SpaceRuns(t, true) == SpaceRuns(t, false)
  {
  }

  /** The first part is the line up to its first white-space character. */
  lemma SplitFirst(s: string)
    ensures Split(s)[0] == s[..WordEnd(s)]
  {
  }

  /** A part that contains no white space is a prefix of its line exactly when it is a prefix of the first part. */
  lemma PrefixOfFirstPart(s: string, p: string)
    requires NoSpace(p)
    ensures p <= Split(s)[0] <==> p <= s
  {
    var n := WordEnd(s);
    SplitFirst(s);
  }

  /**
   * Words separated (and followed) by white-space runs: w0 + s0 + w1 + s1 + ...
   * The last separator is the end of the line.
   */
  function Render(words: seq<string>, seps: seq<string>): string
    requires |words| == |seps|
  {
    if words == [] then "" else words[0] + seps[0] + Render(words[1..], seps[1..])
  }

  predicate IsWords(words: seq<string>) {
    forall i :: 0 <= i < |words| ==> words[i] != [] && NoSpace(words[i])
  }

  predicate IsSeparators(seps: seq<string>) {
    forall i :: 0 <= i < |seps| ==> seps[i] != [] && AllSpace(seps[i])
  }

  lemma SplitWordThenSpaces(w: string, sp: string, t: string)
    requires NoSpace(w) && AllSpace(sp) && sp != []
    requires t == [] || !IsSpace(t[0])
    ensures Split(w + sp + t) == [w] + Split(t)
  {
    var s := w + (sp + t);
    assert s == w + sp + t;
    WordEndOf(w, sp + t);
    assert s[..|w|] == w && s[|w|..] == sp + t;
    DropSpacesOf(sp, t);
  }

  /** The first word of w + rest is w when rest is empty or starts with white space. */
  lemma {:induction false} WordEndOf(w: string, rest: string)
    requires NoSpace(w)
    requires rest == [] || IsSpace(rest[0])
    ensures WordEnd(w + rest) == |w|
    decreases |w|
  {
    if w == [] {
      assert w + rest == rest;
    } else {
      assert (w + rest)[0] == w[0] && (w + rest)[1..] == w[1..] + rest;
      WordEndOf(w[1..], rest);
    }
  }

  lemma {:induction false} DropSpacesOf(sp: string, t: string)
    requires AllSpace(sp)
    requires t == [] || !IsSpace(t[0])
    ensures DropSpaces(sp + t) == t
    decreases |sp|
  {
    if sp == [] {
      assert sp + t == t;
    } else {
      assert (sp + t)[1..] == sp[1..] + t;
      DropSpacesOf(sp[1..], t);
    }
  }

  lemma RenderStart(words: seq<string>, seps: seq<string>)
    requires |words| == |seps| && IsWords(words)
    ensures Render(words, seps) == [] || !IsSpace(Render(words, seps)[0])
  {
    if words != [] {
      assert words[0] != [] && NoSpace(words[0]);
      assert Render(words, seps)[0] == words[0][0];
    }
  }

  /** Splitting rendered words gives the words back, and an empty part for the end of the line. */
  lemma {:induction false} SplitRender(words: seq<string>, seps: seq<string>)
    requires |words| == |seps| && IsWords(words) && IsSeparators(seps)
    ensures Split(Render(words, seps)) == words + [""]
    decreases |words|
  {
    if words == [] {
      assert Render(words, seps) == "";
    } else {
      SplitRenderStep(words, seps);
      SplitRender(words[1..], seps[1..]);
      assert words == [words[0]] + words[1..];
    }
  }

  lemma SplitRenderStep(words: seq<string>, seps: seq<string>)
    requires |words| == |seps| && IsWords(words) && IsSeparators(seps) && words != []
    ensures IsWords(words[1..]) && IsSeparators(seps[1..])
    ensures Split(Render(words, seps)) == [words[0]] + Split(Render(words[1..], seps[1..]))
  {
    var w, sp, t := words[0], seps[0], Render(words[1..], seps[1..]);
    assert IsWords(words[1..]) && IsSeparators(seps[1..]);
    assert NoSpace(w) && AllSpace(sp) && sp != [];
    RenderStart(words[1..], seps[1..]);
    SplitWordThenSpaces(w, sp, t);
  }
}
