/** Option type shared by the whole model. */
module Wrappers {
  datatype Option<+T> = None | Some(value: T)
}

/**
 * The Arduino `String` operations the firmware relies on, over `seq<char>`.
 * Index results follow the Arduino convention: -1 means "not found".
 */
module Strings {

  /** `isspace` in the C locale: space, \t, \n, \v, \f and \r. */
  predicate IsSpace(c: char) {
    c == ' ' || c == '\t' || c == '\n' || c == '\U{000B}' || c == '\U{000C}' || c == '\r'
  }

  predicate AllSpace(s: string) {
    forall k :: 0 <= k < |s| ==> IsSpace(s[k])
  }

  /** The first position of `s[from..hi]` that does not hold white space, or `hi`. */
  function SkipSpaces(s: string, from: nat, hi: nat): (n: nat)
    requires from <= hi <= |s|
    ensures from <= n <= hi
    ensures n == hi || !IsSpace(s[n])
    decreases hi - from
  {
    if from < hi && IsSpace(s[from]) then SkipSpaces(s, from + 1, hi) else from
  }

  /** Everything `SkipSpaces` steps over is white space. */
  lemma {:induction false} SkipSpacesSkips(s: string, from: nat, hi: nat)
    requires from <= hi <= |s|
    ensures forall k :: from <= k < SkipSpaces(s, from, hi) ==> IsSpace(s[k])
    decreases hi - from
  {
    if from < hi && IsSpace(s[from]) {
      SkipSpacesSkips(s, from + 1, hi);
    }
  }

  /** The end of `s[lo..hi]` once its trailing white space is dropped. */
  function SkipSpacesBack(s: string, lo: nat, hi: nat): (n: nat)
    requires lo <= hi <= |s|
    ensures lo <= n <= hi
    ensures n == lo || !IsSpace(s[n - 1])
    decreases hi
  {
    if hi > lo && IsSpace(s[hi - 1]) then SkipSpacesBack(s, lo, hi - 1) else hi
  }

  /** Everything `SkipSpacesBack` steps over is white space. */
  lemma {:induction false} SkipSpacesBackSkips(s: string, lo: nat, hi: nat)
    requires lo <= hi <= |s|
    ensures forall k :: SkipSpacesBack(s, lo, hi) <= k < hi ==> IsSpace(s[k])
    decreases hi
  {
    if hi > lo && IsSpace(s[hi - 1]) {
      SkipSpacesBackSkips(s, lo, hi - 1);
    }
  }

  /** `String::trim()`: drop leading and trailing white space. */
  function Trim(s: string): (r: string)
    ensures |r| <= |s|
    ensures r == [] || (!IsSpace(r[0]) && !IsSpace(r[|r| - 1]))
    ensures r == [] <==> AllSpace(s)
  {
    var a := SkipSpaces(s, 0, |s|);
    SkipSpacesSkips(s, 0, |s|);
    SkipSpacesBackSkips(s, a, |s|);
    s[a..SkipSpacesBack(s, a, |s|)]
  }

  /** Skipping spaces inside a slice lands where skipping in the whole text lands, shifted by the slice's start. */
  lemma {:induction false} SkipSpacesShift(s: string, lo: nat, hi: nat, from: nat, upto: nat, i: nat, j: nat)
    requires lo <= from <= upto <= hi <= |s| && i == from - lo && j == upto - lo
    ensures SkipSpaces(s[lo..hi], i, j) == SkipSpaces(s, from, upto) - lo
    decreases upto - from
  {
    if from < upto {
      assert s[lo..hi][i] == s[from];
      if IsSpace(s[from]) {
        SkipSpacesShift(s, lo, hi, from + 1, upto, i + 1, j);
      }
    }
  }

  /** Skipping spaces backwards inside a slice, likewise. */
  lemma {:induction false} SkipSpacesBackShift(s: string, lo: nat, hi: nat, from: nat, upto: nat, i: nat, j: nat)
    requires lo <= from <= upto <= hi <= |s| && i == from - lo && j == upto - lo
    ensures SkipSpacesBack(s[lo..hi], i, j) == SkipSpacesBack(s, from, upto) - lo
    decreases upto
  {
    if upto > from {
      assert s[lo..hi][j - 1] == s[upto - 1];
      if IsSpace(s[upto - 1]) {
        SkipSpacesBackShift(s, lo, hi, from, upto - 1, i, j - 1);
      }
    }
  }

  /** Trimming cuts at the two skips. */
  lemma {:induction false} TrimIs(t: string, a: nat, b: nat)
    requires a == SkipSpaces(t, 0, |t|) && b == SkipSpacesBack(t, a, |t|)
    ensures a <= b <= |t| && Trim(t) == t[a..b]
  {
  }

  /** A slice of a slice is a slice of the whole. */
  lemma {:induction false} SliceOfSlice(s: string, lo: nat, hi: nat, a: nat, b: nat)
    requires lo <= a <= b <= hi <= |s|
    ensures s[lo..hi][a - lo..b - lo] == s[a..b]
  {
    var u := s[lo..hi][a - lo..b - lo];
    var v := s[a..b];
    assert forall k :: 0 <= k < |u| ==> u[k] == v[k];
  }

  /** Trimming a slice keeps the stretch between its first and last non-space characters. */
  lemma {:induction false} TrimOfSlice(s: string, lo: nat, hi: nat)
    requires lo <= hi <= |s|
    ensures var a := SkipSpaces(s, lo, hi);
      Trim(s[lo..hi]) == s[a..SkipSpacesBack(s, a, hi)]
  {
    var t := s[lo..hi];
    var a := SkipSpaces(s, lo, hi);
    var b := SkipSpacesBack(s, a, hi);
    SkipSpacesShift(s, lo, hi, lo, hi, 0, |t|);
    SkipSpacesBackShift(s, lo, hi, a, hi, a - lo, |t|);
    TrimIs(t, a - lo, b - lo);
    SliceOfSlice(s, lo, hi, a, b);
  }

  /** Text that trimming leaves alone. */
  predicate IsTrimmed(s: string) {
    s == [] || (!IsSpace(s[0]) && !IsSpace(s[|s| - 1]))
  }

  lemma {:induction false} TrimOfTrimmed(s: string)
    requires IsTrimmed(s)
    ensures Trim(s) == s
  {
  }

  function LowerChar(c: char): (r: char)
    ensures ('A' <= c <= 'Z') == (r != c)
  {
    if 'A' <= c <= 'Z' then (c as int + 32) as char else c
  }

  /** `String::toLowerCase()` (ASCII `tolower`). */
  function ToLower(s: string): (r: string)
    ensures |r| == |s|
    ensures forall k :: 0 <= k < |s| ==> r[k] == LowerChar(s[k])
  {
    seq(|s|, k requires 0 <= k < |s| => LowerChar(s[k]))
  }

  predicate StartsWith(s: string, p: string) {
    |p| <= |s| && s[..|p|] == p
  }

  predicate EndsWith(s: string, p: string) {
    |p| <= |s| && s[|s| - |p|..] == p
  }

  predicate Contains(s: string, t: string) {
    exists k {:trigger s[k..]} :: 0 <= k <= |s| - |t| && StartsWith(s[k..], t)
  }

  /** `indexOf(c, from)`: first position >= from holding c, or -1. */
  function IndexOfFrom(s: string, c: char, from: nat): (r: int)
    ensures r == -1 || (from <= r < |s| && s[r] == c)
    decreases |s| - from
  {
    if from >= |s| then -1
    else if s[from] == c then from
    else IndexOfFrom(s, c, from + 1)
  }

  /** No position the search steps over holds the character. */
  lemma {:induction false} IndexOfFromFirst(s: string, c: char, from: nat)
    ensures var r := IndexOfFrom(s, c, from);
      forall k :: from <= k < |s| && (r == -1 || k < r) ==> s[k] != c
    decreases |s| - from
  {
    if from < |s| && s[from] != c {
      IndexOfFromFirst(s, c, from + 1);
    }
  }

  /** `indexOf(c)`: first position holding c, or -1. */
  function IndexOf(s: string, c: char): (r: int)
    ensures r == -1 || (0 <= r < |s| && s[r] == c)
  {
    IndexOfFrom(s, c, 0)
  }

  /** No position before the one `indexOf` reports holds the character. */
  lemma {:induction false} IndexOfFirst(s: string, c: char)
    ensures var r := IndexOf(s, c);
      forall k :: 0 <= k < |s| && (r == -1 || k < r) ==> s[k] != c
  {
    IndexOfFromFirst(s, c, 0);
  }

  /** `lastIndexOf(c)`: last position holding c, or -1. */
  function LastIndexOf(s: string, c: char): (r: int)
    ensures r == -1 || (0 <= r < |s| && s[r] == c)
    ensures forall k :: 0 <= k < |s| && r < k ==> s[k] != c
  {
    if |s| == 0 then -1
    else if s[|s| - 1] == c then |s| - 1
    else LastIndexOf(s[..|s| - 1], c)
  }

  /** `indexOf(t)`: first position where t occurs, or -1. */
  function IndexOfText(s: string, t: string, from: nat := 0): (r: int)
    ensures r == -1 || (from <= r <= |s| - |t| && StartsWith(s[r..], t))
    ensures forall k :: from <= k <= |s| - |t| && (r == -1 || k < r) ==> !StartsWith(s[k..], t)
    decreases |s| - from
  {
    if from + |t| > |s| then -1
    else if StartsWith(s[from..], t) then from
    else IndexOfText(s, t, from + 1)
  }

  lemma {:induction false} IndexOfTextFinds(s: string, t: string)
    ensures (IndexOfText(s, t) >= 0) == Contains(s, t)
  {
    if Contains(s, t) {
      var k :| 0 <= k <= |s| - |t| && StartsWith(s[k..], t);
      assert IndexOfText(s, t) != -1;
    }
  }

  function Repeat(c: char, n: nat): (r: string)
    ensures |r| == n && forall k :: 0 <= k < n ==> r[k] == c
  {
    seq(n, _ => c)
  }
}
