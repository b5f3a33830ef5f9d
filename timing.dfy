/**
 * The unit override of prettybenchmarks: `setTiming` reads the first command
 * line argument, lower-cases it and keeps it when it names one of the units the
 * table can show, writing "µs" for "us".
 */
module Timing {

  /** The units a timing column can be shown in. */
  const Units: set<string> := {"ns", "µs", "ms", "s"}

  /** The spellings `setTiming` accepts once lower-cased. */
  const Accepted: set<string> := {"ns", "us", "µs", "ms", "s"}

  function LowerChar(c: char): char {
    if 'A' <= c <= 'Z' then (c as int + 32) as char else c
  }

  function UpperChar(c: char): char {
    if 'a' <= c <= 'z' then (c as int - 32) as char else c
  }

  /** `strings.ToLower`, on the letters A to Z. */
  function ToLower(s: string): (l: string)
    ensures |l| == |s|
    ensures forall i :: 0 <= i < |l| ==> l[i] == LowerChar(s[i])
    ensures forall i :: 0 <= i < |l| ==> !('A' <= l[i] <= 'Z')
  {
    if s == [] then [] else [LowerChar(s[0])] + ToLower(s[1..])
  }

  /** `strings.ToUpper`, on the letters a to z. */
  function ToUpper(s: string): (u: string)
    ensures |u| == |s|
  {
    if s == [] then [] else [UpperChar(s[0])] + ToUpper(s[1..])
  }

  /** The unit an argument selects, or "" when it selects none. */
  function Normalise(arg: string): (u: string)
    ensures u == "" || u in Units
    ensures u != "" <==> ToLower(arg) in Accepted
    ensures ToLower(arg) == "us" ==> u == "µs"
    ensures ToLower(arg) in Units ==> u == ToLower(arg)
  {
    var lower := ToLower(arg);
    if lower == "ns" || lower == "us" || lower == "µs" || lower == "ms" || lower == "s" then
      if lower == "us" then "µs" else lower
    else ""
  }

  /**
   * `setTiming` after `flag.Parse`: `timing` is the override so far (empty at
   * start-up); a first argument that names a unit replaces it, anything else
   * leaves it as it was.
   */
  function SetTiming(args: seq<string>, timing: string): (t: string)
    ensures t == timing || t in Units
    ensures t != timing ==> |args| > 0 && t == Normalise(args[0])
    ensures |args| > 0 && Normalise(args[0]) != "" ==> t == Normalise(args[0])
    ensures (|args| == 0 || Normalise(args[0]) == "") ==> t == timing
  {
    if |args| > 0 && Normalise(args[0]) != "" then Normalise(args[0]) else timing
  }

  // ---------------------------------------------------------------------------
  // Properties

  /** Lower-casing twice is lower-casing once. */
  lemma {:induction false} ToLowerIdempotent(s: string)
    ensures ToLower(ToLower(s)) == ToLower(s)
    decreases |s|
  {
    if s != [] {
      ToLowerIdempotent(s[1..]);
      var l := ToLower(s);
      assert l[0] == LowerChar(s[0]) && l[1..] == ToLower(s[1..]);
      assert ToLower(l) == [LowerChar(l[0])] + ToLower(l[1..]);
    }
  }

  /** Upper-casing first changes nothing once the text is lower-cased. */
  lemma {:induction false} ToLowerOfUpper(s: string)
    ensures ToLower(ToUpper(s)) == ToLower(s)
    decreases |s|
  {
    if s != [] {
      ToLowerOfUpper(s[1..]);
      var u := ToUpper(s);
      assert u[0] == UpperChar(s[0]) && u[1..] == ToUpper(s[1..]);
      assert ToLower(u) == [LowerChar(u[0])] + ToLower(u[1..]);
    }
  }

  /** The argument is matched without regard to case. */
  lemma NormaliseIgnoresCase(arg: string)
    ensures Normalise(ToLower(arg)) == Normalise(arg)
    ensures Normalise(ToUpper(arg)) == Normalise(arg)
  {
    ToLowerIdempotent(arg);
    ToLowerOfUpper(arg);
  }

  /**
   * Applying the override a second time with the same arguments changes
   * nothing, and an override that is already a unit survives arguments that
   * name none.
   */
  lemma SetTimingIdempotent(args: seq<string>, timing: string)
    ensures SetTiming(args, SetTiming(args, timing)) == SetTiming(args, timing)
    ensures timing in Units ==> SetTiming(args, timing) in Units
  {
  }

  /** A unit given as the argument, in either case, becomes the override. */
  lemma SetTimingOfUnit(u: string, timing: string)
    requires u in Units
    ensures SetTiming([u], timing) == u
    ensures SetTiming([ToUpper(u)], timing) == u
  {
    NormaliseOfUnit(u);
    NormaliseIgnoresCase(u);
  }

  /** Every unit selects itself, so a chosen unit passed back in is kept. */
  lemma NormaliseOfUnit(u: string)
    requires u in Units
    ensures Normalise(u) == u
  {
    assert ToLower("ns") == "ns" && ToLower("µs") == "µs" && ToLower("ms") == "ms" && ToLower("s") == "s";
  }
}
