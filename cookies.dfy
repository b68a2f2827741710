/**
 * The session cookie jar of the streaming client (src/network_player.cpp):
 * `upsertCookiePair` replaces or adds one `key=value` pair in a
 * `; `-separated jar, and `mergeSetCookieHeader` feeds it every line of a
 * newline-joined Set-Cookie header.
 */
module Cookies {
  import opened Wrappers
  import opened Strings

  /** A cookie as the upsert stores it: both parts trimmed, the key non-empty. */
  datatype Cookie = Cookie(key: string, val: string)

  /** The text a cookie contributes to the jar. */
  function PairText(c: Cookie): string {
    c.key + "=" + c.val
  }

  /**
   * The guard at the top of `upsertCookiePair`: an `=` after at least one
   * character, and a key that is not blank once trimmed.
   */
  function ParsePair(pair: string): (r: Option<Cookie>)
    ensures r.Some? <==> IndexOf(pair, '=') > 0 && !AllSpace(pair[..IndexOf(pair, '=')])
    ensures r.Some? ==> r.value.key != [] && IsTrimmed(r.value.key) && IsTrimmed(r.value.val)
  {
    var eq := IndexOf(pair, '=');
    if eq <= 0 then None
    else
      var key := Trim(pair[..eq]);
      if key == [] then None else Some(Cookie(key, Trim(pair[eq + 1..])))
  }

  // ---------------------------------------------------------------------
  // Segments and lines: the reference reading of a jar and a header
  // ---------------------------------------------------------------------

  /** `s` cut at every `sep`; there is always at least one piece. */
  function Split(s: string, sep: char): (r: seq<string>)
    ensures |r| >= 1
    decreases |s|
  {
    var i := IndexOf(s, sep);
    if i < 0 then [s] else [s[..i]] + Split(s[i + 1..], sep)
  }

  /** The pieces glued back together with `sep` between neighbours. */
  function Join(parts: seq<string>, sep: char): string
    requires |parts| >= 1
  {
    if |parts| == 1 then parts[0] else parts[0] + [sep] + Join(parts[1..], sep)
  }

  /** Cutting and re-gluing gives back the text. */
  lemma {:induction false} SplitThenJoin(s: string, sep: char)
    ensures Join(Split(s, sep), sep) == s
    decreases |s|
  {
    var i := IndexOf(s, sep);
    if i >= 0 {
      SplitThenJoin(s[i + 1..], sep);
      assert s == s[..i] + [sep] + s[i + 1..];
    }
  }

  /** Pieces free of `sep`, glued and cut again, come back unchanged. */
  lemma {:induction false} JoinThenSplit(parts: seq<string>, sep: char)
    requires |parts| >= 1
    requires forall i, k :: 0 <= i < |parts| && 0 <= k < |parts[i]| ==> parts[i][k] != sep
    ensures Split(Join(parts, sep), sep) == parts
  {
    var s := Join(parts, sep);
    var p := parts[0];
    IndexOfFirst(s, sep);
    if |parts| == 1 {
      assert IndexOf(s, sep) == -1;
    } else {
      var rest := Join(parts[1..], sep);
      assert s == p + [sep] + rest;
      assert s[|p|] == sep;
      assert forall k :: 0 <= k < |p| ==> s[k] == p[k];
      assert IndexOf(s, sep) == |p|;
      assert s[..|p|] == p;
      assert s[|p| + 1..] == rest;
      JoinThenSplit(parts[1..], sep);
    }
  }

  /** End of the piece that starts at `start`: the next `sep`, or the end of `s`. */
  function PieceEnd(s: string, sep: char, start: nat): (e: nat)
    requires start <= |s|
    ensures start <= e <= |s|
    ensures e < |s| ==> s[e] == sep
  {
    var e := IndexOfFrom(s, sep, start);
    if e < 0 then |s| else e
  }

  /** No `sep` lies inside a piece. */
  lemma {:induction false} PieceEndFirst(s: string, sep: char, start: nat)
    requires start <= |s|
    ensures forall k :: start <= k < PieceEnd(s, sep, start) ==> s[k] != sep
  {
    IndexOfFromFirst(s, sep, start);
  }

  /**
   * The pieces of `s` from `start` on, read with a cursor as the loops of
   * both jar functions do; a `sep` at the very end leaves an empty last piece.
   */
  function PiecesFrom(s: string, sep: char, start: nat): (r: seq<string>)
    requires start <= |s|
    ensures |r| >= 1
    decreases |s| - start
  {
    var e := PieceEnd(s, sep, start);
    if e == |s| then [s[start..e]] else [s[start..e]] + PiecesFrom(s, sep, e + 1)
  }

  /** The first piece runs up to the next `sep`; the others are read after it. */
  lemma {:induction false} PiecesFromHead(s: string, sep: char, start: nat)
    requires start <= |s|
    ensures var e := PieceEnd(s, sep, start);
      var r := PiecesFrom(s, sep, start);
      && r[0] == s[start..e]
      && (e == |s| ==> r[1..] == [])
      && (e < |s| ==> r[1..] == PiecesFrom(s, sep, e + 1))
  {
    var e := PieceEnd(s, sep, start);
    var r := PiecesFrom(s, sep, start);
    if e == |s| {
      assert r == [s[start..e]];
    } else {
      assert r == [s[start..e]] + PiecesFrom(s, sep, e + 1);
    }
  }

  /** Searching the rest of `s` with a cursor finds what searching the cut-off rest finds. */
  lemma {:induction false} IndexOfRest(s: string, sep: char, start: nat)
    requires start <= |s|
    ensures var e := PieceEnd(s, sep, start);
      IndexOf(s[start..], sep) == if e == |s| then -1 else e - start
  {
    var e := PieceEnd(s, sep, start);
    var t := s[start..];
    PieceEndFirst(s, sep, start);
    IndexOfFirst(t, sep);
    assert forall k :: 0 <= k < |t| ==> t[k] == s[start + k];
  }

  /** Dropping twice is dropping the sum. */
  lemma {:induction false} DropDrop(s: string, a: nat, b: nat)
    requires a + b <= |s|
    ensures s[a..][b..] == s[a + b..]
  {
  }

  /** Reading the pieces with a cursor agrees with cutting the rest of `s` at every `sep`. */
  lemma {:induction false} PiecesFromIsSplit(s: string, sep: char, start: nat)
    requires start <= |s|
    ensures PiecesFrom(s, sep, start) == Split(s[start..], sep)
    decreases |s| - start
  {
    var e := PieceEnd(s, sep, start);
    var t := s[start..];
    IndexOfRest(s, sep, start);
    if e == |s| {
      assert s[start..e] == t;
    } else {
      assert t[..e - start] == s[start..e];
      DropDrop(s, start, e - start + 1);
      PiecesFromIsSplit(s, sep, e + 1);
    }
  }

  /** Every piece, from the start. */
  lemma {:induction false} PiecesAreSplit(s: string, sep: char)
    ensures PiecesFrom(s, sep, 0) == Split(s, sep)
  {
    PiecesFromIsSplit(s, sep, 0);
    assert s[0..] == s;
  }

  // ---------------------------------------------------------------------
  // upsertCookiePair
  // ---------------------------------------------------------------------

  /** Bounds of one jar segment: from `start` up to (not including) `end`. */
  datatype Span = Span(start: nat, end: nat)

  /**
   * A segment holds the cookie when, trimmed and lower-cased, it starts
   * with the lower-cased `key=`: every character of the prefix is the
   * lower-cased character at the same place of the trimmed segment.
   */
  predicate SegmentMatches(seg: string, lowerPrefix: string) {
    var t := Trim(seg);
    |lowerPrefix| <= |t| && forall k {:trigger lowerPrefix[k]} :: 0 <= k < |lowerPrefix| ==> LowerChar(t[k]) == lowerPrefix[k]
  }

  /** The test as the code writes it: lower-case the trimmed segment, then ask whether it starts with the prefix. */
  lemma {:induction false} LowerStartsWith(t: string, lowerPrefix: string)
    ensures StartsWith(ToLower(t), lowerPrefix) <==>
      |lowerPrefix| <= |t| && forall k {:trigger lowerPrefix[k]} :: 0 <= k < |lowerPrefix| ==> LowerChar(t[k]) == lowerPrefix[k]
  {
    var u := ToLower(t);
    if |lowerPrefix| <= |t| {
      if forall k {:trigger lowerPrefix[k]} :: 0 <= k < |lowerPrefix| ==> LowerChar(t[k]) == lowerPrefix[k] {
        assert u[..|lowerPrefix|] == lowerPrefix;
      }
      if StartsWith(u, lowerPrefix) {
        forall k | 0 <= k < |lowerPrefix|
          ensures LowerChar(t[k]) == lowerPrefix[k]
        {
          assert u[..|lowerPrefix|][k] == u[k];
        }
      }
    }
  }

  /**
   * The same test read in place: the segment `[start, end)` of the jar
   * holds the key when, past its leading white space, it has at least as
   * many characters before its trailing white space as the prefix, and each
   * of them lower-cases to the prefix character at the same place.
   */
  predicate SegmentAt(jar: string, start: nat, end: nat, prefix: string)
    requires start <= end <= |jar|
  {
    var a := SkipSpaces(jar, start, end);
    |prefix| <= SkipSpacesBack(jar, a, end) - a
    && forall k {:trigger prefix[k]} :: 0 <= k < |prefix| ==> LowerChar(jar[a + k]) == prefix[k]
  }

  /** Reading a segment in place agrees with cutting it out first. */
  lemma {:induction false} SegmentAtMatches(jar: string, start: nat, end: nat, prefix: string)
    requires start <= end <= |jar|
    ensures SegmentAt(jar, start, end, prefix) == SegmentMatches(jar[start..end], prefix)
  {
    TrimOfSlice(jar, start, end);
    var a := SkipSpaces(jar, start, end);
    var t := jar[a..SkipSpacesBack(jar, a, end)];
    assert forall k :: 0 <= k < |t| ==> t[k] == jar[a + k];
  }

  /** The empty segment holds no key: trimmed and lower-cased it stays empty. */
  lemma {:induction false} EmptySegmentNeverMatches(prefix: string)
    requires prefix != []
    ensures !SegmentMatches([], prefix)
  {
    assert Trim([]) == [];
  }

  /** The search loop of `upsertCookiePair`: bounds of the first segment at or after `start` that holds the key (`prefix` is the lower-cased `key=`). */
  function FindSegment(jar: string, start: nat, prefix: string): (r: Option<Span>)
    ensures r.Some? ==>
      && start <= r.value.start <= r.value.end <= |jar|
      && r.value.end == PieceEnd(jar, ';', r.value.start)
      && SegmentAt(jar, r.value.start, r.value.end, prefix)
    decreases |jar| - start
  {
    if start >= |jar| then None
    else
      var e := PieceEnd(jar, ';', start);
      if SegmentAt(jar, start, e, prefix) then Some(Span(start, e))
      else FindSegment(jar, e + 1, prefix)
  }

  /** The search stops at a segment that matches. */
  lemma {:induction false} FindSegmentHere(jar: string, start: nat, prefix: string)
    requires start < |jar| && SegmentAt(jar, start, PieceEnd(jar, ';', start), prefix)
    ensures FindSegment(jar, start, prefix) == Some(Span(start, PieceEnd(jar, ';', start)))
  {
  }

  /** Past a segment that does not match, the search goes on after its `;`. */
  lemma {:induction false} FindSegmentNext(jar: string, start: nat, prefix: string)
    requires start < |jar| && !SegmentAt(jar, start, PieceEnd(jar, ';', start), prefix)
    ensures FindSegment(jar, start, prefix) == FindSegment(jar, PieceEnd(jar, ';', start) + 1, prefix)
  {
  }

  /** Index of the first piece that holds the key, or -1. */
  function FirstMatch(segs: seq<string>, prefix: string): (i: int)
    ensures -1 <= i < |segs|
    ensures i >= 0 ==> SegmentMatches(segs[i], prefix)
  {
    if segs == [] then -1
    else if SegmentMatches(segs[0], prefix) then 0
    else
      var i := FirstMatch(segs[1..], prefix);
      if i < 0 then -1 else i + 1
  }

  /** No piece before the one `FirstMatch` returns (before the end, when it returns -1) matches. */
  lemma {:induction false} FirstMatchIsFirst(segs: seq<string>, prefix: string)
    ensures var i := FirstMatch(segs, prefix);
      forall j :: 0 <= j < |segs| && (i < 0 || j < i) ==> !SegmentMatches(segs[j], prefix)
  {
    if segs != [] && !SegmentMatches(segs[0], prefix) {
      var tail := segs[1..];
      FirstMatchIsFirst(tail, prefix);
      var i := FirstMatch(segs, prefix);
      forall j | 0 <= j < |segs| && (i < 0 || j < i)
        ensures !SegmentMatches(segs[j], prefix)
      {
        if j > 0 {
          assert segs[j] == tail[j - 1];
        }
      }
    }
  }

  /** Past a first piece that does not match, the index shifts by one. */
  lemma {:induction false} FirstMatchSkips(segs: seq<string>, prefix: string)
    requires |segs| >= 1 && !SegmentMatches(segs[0], prefix)
    ensures var j := FirstMatch(segs[1..], prefix);
      FirstMatch(segs, prefix) == if j < 0 then -1 else j + 1
  {
  }

  /**
   * Reading from `start`, the search finds the first `;`-piece that holds
   * the prefix, and finds nothing exactly when no piece does.
   */
  predicate StopsAtFirstMatch(jar: string, start: nat, prefix: string)
    requires start <= |jar|
  {
    var segs := PiecesFrom(jar, ';', start);
    var i := FirstMatch(segs, prefix);
    var r := FindSegment(jar, start, prefix);
    && (r.None? <==> i < 0)
    && (r.Some? ==> jar[r.value.start..r.value.end] == segs[i])
  }

  /** At the end of the jar the only piece is empty and the search finds nothing. */
  lemma {:induction false} StopsAtEnd(jar: string, prefix: string)
    requires prefix != []
    ensures StopsAtFirstMatch(jar, |jar|, prefix)
  {
    var segs := PiecesFrom(jar, ';', |jar|);
    assert PieceEnd(jar, ';', |jar|) == |jar| && jar[|jar|..|jar|] == [];
    assert segs == [[]];
    assert FirstMatch(segs, prefix) == -1 by {
      EmptySegmentNeverMatches(prefix);
      assert segs[1..] == [];
    }
  }

  /** A first piece that holds the prefix is the one found. */
  lemma {:induction false} StopsHere(jar: string, start: nat, prefix: string)
    requires start < |jar| && SegmentAt(jar, start, PieceEnd(jar, ';', start), prefix)
    ensures StopsAtFirstMatch(jar, start, prefix)
  {
    var segs := PiecesFrom(jar, ';', start);
    var e := PieceEnd(jar, ';', start);
    SegmentAtMatches(jar, start, e, prefix);
    assert segs[0] == jar[start..e];
    assert FirstMatch(segs, prefix) == 0;
    FindSegmentHere(jar, start, prefix);
  }

  /** A last piece that does not hold the prefix leaves nothing found. */
  lemma {:induction false} StopsAtLastPiece(jar: string, start: nat, prefix: string)
    requires start < |jar| && PieceEnd(jar, ';', start) == |jar|
    requires !SegmentAt(jar, start, |jar|, prefix)
    ensures StopsAtFirstMatch(jar, start, prefix)
  {
    var segs := PiecesFrom(jar, ';', start);
    SegmentAtMatches(jar, start, |jar|, prefix);
    assert segs == [jar[start..|jar|]];
    assert FirstMatch(segs, prefix) == -1 by {
      assert segs[1..] == [];
    }
    FindSegmentNext(jar, start, prefix);
  }

  /** Past a piece that does not hold the prefix, both searches move on by one piece. */
  lemma {:induction false} StopsLater(jar: string, start: nat, prefix: string)
    requires start < |jar| && PieceEnd(jar, ';', start) < |jar|
    requires !SegmentAt(jar, start, PieceEnd(jar, ';', start), prefix)
    requires StopsAtFirstMatch(jar, PieceEnd(jar, ';', start) + 1, prefix)
    ensures StopsAtFirstMatch(jar, start, prefix)
  {
    var segs := PiecesFrom(jar, ';', start);
    var e := PieceEnd(jar, ';', start);
    var rest := PiecesFrom(jar, ';', e + 1);
    SegmentAtMatches(jar, start, e, prefix);
    assert segs == [jar[start..e]] + rest;
    assert segs[1..] == rest;
    FindSegmentNext(jar, start, prefix);
    FirstMatchSkips(segs, prefix);
    var j := FirstMatch(rest, prefix);
    if j >= 0 {
      assert segs[j + 1] == rest[j];
    }
  }

  /** The search stops at the first piece that matches, reading from `start`. */
  lemma {:induction false} FindSegmentStopsFirst(jar: string, start: nat, prefix: string)
    requires start <= |jar| && prefix != []
    ensures StopsAtFirstMatch(jar, start, prefix)
    decreases |jar| - start
  {
    var e := PieceEnd(jar, ';', start);
    if start == |jar| {
      StopsAtEnd(jar, prefix);
    } else if SegmentAt(jar, start, e, prefix) {
      StopsHere(jar, start, prefix);
    } else if e == |jar| {
      StopsAtLastPiece(jar, start, prefix);
    } else {
      FindSegmentStopsFirst(jar, e + 1, prefix);
      StopsLater(jar, start, prefix);
    }
  }

  /**
   * The search finds exactly the first `;`-piece of the jar that holds the
   * prefix (a key prefix is never empty, so the empty piece after a final `;`,
   * which the loop does not visit, cannot match).
   */
  lemma {:induction false} FindSegmentIsFirstMatch(jar: string, prefix: string)
    requires prefix != []
    ensures var segs := Split(jar, ';');
      var i := FirstMatch(segs, prefix);
      var r := FindSegment(jar, 0, prefix);
      && (r.None? <==> i < 0)
      && (r.Some? ==> jar[r.value.start..r.value.end] == segs[i])
  {
    FindSegmentStopsFirst(jar, 0, prefix);
    PiecesAreSplit(jar, ';');
  }

  /** The jar with the segment [start, end) cut out, both remaining sides trimmed. */
  function RemoveSegment(jar: string, start: nat, end: nat): (r: string)
    requires start <= end <= |jar|
  {
    var before := Trim(jar[..start]);
    var after := if end < |jar| then Trim(jar[end + 1..]) else [];
    var joined := if before != [] && after != [] then before + "; " else before;
    if after != [] then joined + after else joined
  }

  /** Cutting a segment leaves trimmed text that begins with the trimmed text before it. */
  lemma {:induction false} RemoveSegmentKeepsFront(jar: string, start: nat, end: nat)
    requires start <= end <= |jar|
    ensures var r := RemoveSegment(jar, start, end);
      var before := Trim(jar[..start]);
      && IsTrimmed(r)
      && |before| <= |r| && r[..|before|] == before
  {
    var before := Trim(jar[..start]);
    var after := if end < |jar| then Trim(jar[end + 1..]) else [];
    var joined := if before != [] && after != [] then before + "; " else before;
    assert joined[..|before|] == before;
    if after != [] {
      assert (joined + after)[..|before|] == before;
    }
  }

  /** The trimmed jar with the cookie appended after a `; ` separator when needed. */
  function Append(jar: string, c: Cookie): (r: string)
    ensures EndsWith(r, PairText(c))
    ensures jar == [] ==> r == PairText(c)
    ensures jar != [] ==> StartsWith(r, jar + "; ")
  {
    jar + (if jar != [] then "; " else []) + PairText(c)
  }

  /**
   * `upsertCookiePair` as a value: a malformed pair leaves the jar as it
   * is; otherwise the first segment holding the key (compared ignoring
   * letter case) is cut out and the cookie goes to the end.
   */
  function Upsert(jar: string, pair: string): (r: string)
    ensures ParsePair(pair).None? ==> r == jar
    ensures ParsePair(pair).Some? ==> EndsWith(r, PairText(ParsePair(pair).value))
  {
    match ParsePair(pair)
    case None => jar
    case Some(c) =>
      var found := FindSegment(jar, 0, ToLower(c.key + "="));
      var rest := if found.None? then jar else RemoveSegment(jar, found.value.start, found.value.end);
      Append(Trim(rest), c)
  }

  /** When no segment holds the key, the cookie is added after the trimmed jar. */
  lemma {:induction false} UpsertNewKey(jar: string, pair: string)
    requires ParsePair(pair).Some?
    requires FirstMatch(Split(jar, ';'), ToLower(ParsePair(pair).value.key + "=")) < 0
    ensures Upsert(jar, pair) == Append(Trim(jar), ParsePair(pair).value)
  {
    var c := ParsePair(pair).value;
    assert jar[0..] == jar;
    FindSegmentIsFirstMatch(jar, ToLower(c.key + "="));
  }

  /**
   * When some segment holds the key, the text before the first such
   * segment survives (trimmed) at the front of the new jar.
   */
  lemma {:induction false} UpsertKeepsEarlierSegments(jar: string, pair: string)
    requires ParsePair(pair).Some?
    ensures var found := FindSegment(jar, 0, ToLower(ParsePair(pair).value.key + "="));
      found.Some? ==>
        var before := Trim(jar[..found.value.start]);
        |before| <= |Upsert(jar, pair)| && Upsert(jar, pair)[..|before|] == before
  {
    var c := ParsePair(pair).value;
    var found := FindSegment(jar, 0, ToLower(c.key + "="));
    if found.Some? {
      var rest := RemoveSegment(jar, found.value.start, found.value.end);
      RemoveSegmentKeepsFront(jar, found.value.start, found.value.end);
      AppendKeepsFront(rest, c, Trim(jar[..found.value.start]));
    }
  }

  /**
   * When the segment at [start, end) is the first to hold the key and
   * trimmed text follows it, that text survives, right before the new
   * cookie's "; key=val", at the end of the new jar.
   */
  lemma {:induction false} UpsertKeepsLaterSegments(jar: string, pair: string, c: Cookie, start: nat, end: nat)
    requires ParsePair(pair) == Some(c)
    requires FindSegment(jar, 0, ToLower(c.key + "=")) == Some(Span(start, end))
    requires end < |jar| && Trim(jar[end + 1..]) != []
    ensures EndsWith(Upsert(jar, pair), Trim(jar[end + 1..]) + "; " + PairText(c))
  {
    assert Upsert(jar, pair) == Append(Trim(RemoveSegment(jar, start, end)), c);
    CutThenAppendKeepsBack(jar, start, end, c);
  }

  /** The text after a cut segment, trimmed, stays right before the appended cookie. */
  lemma {:induction false} CutThenAppendKeepsBack(jar: string, start: nat, end: nat, c: Cookie)
    requires start <= end < |jar| && Trim(jar[end + 1..]) != []
    ensures EndsWith(Append(Trim(RemoveSegment(jar, start, end)), c), Trim(jar[end + 1..]) + "; " + PairText(c))
  {
    RemoveSegmentKeepsBack(jar, start, end);
    AppendKeepsBack(RemoveSegment(jar, start, end), c, Trim(jar[end + 1..]));
  }

  /** Cutting a segment that has trimmed text after it leaves text ending with that text. */
  lemma {:induction false} RemoveSegmentKeepsBack(jar: string, start: nat, end: nat)
    requires start <= end < |jar| && Trim(jar[end + 1..]) != []
    ensures var r := RemoveSegment(jar, start, end);
      IsTrimmed(r) && EndsWith(r, Trim(jar[end + 1..]))
  {
    var before := Trim(jar[..start]);
    var after := Trim(jar[end + 1..]);
    var joined := if before != [] then before + "; " else before;
    RemoveSegmentKeepsFront(jar, start, end);
    assert RemoveSegment(jar, start, end) == joined + after;
    assert (joined + after)[|joined|..] == after;
  }

  /** Appending after non-empty trimmed text keeps whatever that text ends with, before the "; key=val". */
  lemma {:induction false} AppendKeepsBack(rest: string, c: Cookie, back: string)
    requires IsTrimmed(rest) && back != [] && EndsWith(rest, back)
    ensures EndsWith(Append(Trim(rest), c), back + "; " + PairText(c))
  {
    TrimOfTrimmed(rest);
    var r := Append(rest, c);
    assert r == rest + ("; " + PairText(c));
    assert rest == rest[..|rest| - |back|] + back;
    assert r == rest[..|rest| - |back|] + (back + "; " + PairText(c));
  }

  /** Appending after trimmed text keeps whatever that text begins with. */
  lemma {:induction false} AppendKeepsFront(rest: string, c: Cookie, front: string)
    requires IsTrimmed(rest) && |front| <= |rest| && rest[..|front|] == front
    ensures var r := Append(Trim(rest), c);
      |front| <= |r| && r[..|front|] == front
  {
    TrimOfTrimmed(rest);
    var r := Append(rest, c);
    assert r[..|rest|] == rest;
    assert r[..|front|] == rest[..|front|];
  }

  /** The jar of the examples below. */
  const ThreeCookies: string := "a=1; b=2; c=3"

  /** Where its first two segments end. */
  lemma {:induction false} ThreeCookiesPieces()
    ensures PieceEnd(ThreeCookies, ';', 0) == 3 && PieceEnd(ThreeCookies, ';', 4) == 8
  {
    assert IndexOfFrom(ThreeCookies, ';', 0) == 3;
    assert IndexOfFrom(ThreeCookies, ';', 4) == 8;
  }

  /** ` b=2` holds the key `b`; `a=1` does not. */
  lemma {:induction false} ThreeCookiesSegments()
    ensures !SegmentAt(ThreeCookies, 0, 3, "b=") && SegmentAt(ThreeCookies, 4, 8, "b=")
  {
    var jar, p := ThreeCookies, "b=";
    assert SkipSpaces(jar, 0, 3) == 0;
    assert LowerChar(jar[0]) != p[0];
    assert SkipSpaces(jar, 5, 8) == 5;
    assert SkipSpaces(jar, 4, 8) == 5;
    assert SkipSpacesBack(jar, 5, 8) == 8;
    forall k | 0 <= k < |p|
      ensures LowerChar(jar[5 + k]) == p[k]
    {
      assert k == 0 || k == 1;
    }
  }

  /** The search over the three-cookie jar stops at ` b=2`. */
  lemma {:induction false} FindsMiddleCookie()
    ensures FindSegment(ThreeCookies, 0, "b=") == Some(Span(4, 8))
  {
    var jar := ThreeCookies;
    ThreeCookiesPieces();
    ThreeCookiesSegments();
    FindSegmentNext(jar, 0, "b=");
    FindSegmentHere(jar, 4, "b=");
  }

  /** `b=5` is a well-formed pair. */
  lemma {:induction false} ParsesB5()
    ensures ParsePair("b=5") == Some(Cookie("b", "5"))
  {
    assert IndexOf("b=5", '=') == 1;
    assert "b=5"[..1] == "b" && Trim("b") == "b";
    assert "b=5"[2..] == "5" && Trim("5") == "5";
  }

  /** Cutting ` b=2` out of the three-cookie jar. */
  lemma {:induction false} CutsMiddleCookie()
    ensures RemoveSegment(ThreeCookies, 4, 8) == "a=1;; c=3"
  {
    var jar := ThreeCookies;
    assert jar[..4] == "a=1;";
    assert Trim("a=1;") == "a=1;";
    assert jar[9..] == " c=3";
    assert Trim(" c=3") == "c=3";
  }

  /** What is left after the cut needs no trimming. */
  lemma {:induction false} RemainderIsTrimmed()
    ensures Trim("a=1;; c=3") == "a=1;; c=3"
  {
  }

  /** The new cookie goes after `; `. */
  lemma {:induction false} AppendsB5()
    ensures Append("a=1;; c=3", Cookie("b", "5")) == "a=1;; c=3; b=5"
  {
  }

  /**
   * The removed segment keeps its `;` on the left neighbour: replacing the
   * middle of three cookies leaves an empty piece behind.
   */
  lemma {:induction false} UpsertLeavesDoubledSeparator()
    ensures Upsert(ThreeCookies, "b=5") == "a=1;; c=3; b=5"
  {
    var c := Cookie("b", "5");
    ParsesB5();
    assert ToLower(c.key + "=") == "b=";
    FindsMiddleCookie();
    var rest := RemoveSegment(ThreeCookies, 4, 8);
    CutsMiddleCookie();
    RemainderIsTrimmed();
    assert Upsert(ThreeCookies, "b=5") == Append(Trim(rest), c);
    AppendsB5();
  }

  /** `indexOf(sep, start)`, with the length standing in for "not found". */
  method NextPieceEnd(s: string, sep: char, start: nat) returns (end: nat)
    requires start <= |s|
    ensures start <= end <= |s| && end == PieceEnd(s, sep, start)
  {
    var e := IndexOfFrom(s, sep, start);
    end := if e < 0 then |s| else e;
  }

  /** The test on one segment: trimmed and lower-cased, does it start with the key prefix? */
  method TestSegment(jar: string, start: nat, end: nat, lowerKeyPrefix: string) returns (holds: bool)
    requires start <= end <= |jar|
    ensures holds == SegmentAt(jar, start, end, lowerKeyPrefix)
  {
    var seg := Trim(jar[start..end]);
    var lowerSeg := ToLower(seg);
    holds := StartsWith(lowerSeg, lowerKeyPrefix);
    LowerStartsWith(seg, lowerKeyPrefix);
    SegmentAtMatches(jar, start, end, lowerKeyPrefix);
  }

  /** The cut once the segment is found: trimmed text before it, `; `, trimmed text after it. */
  method CutSegment(jar: string, start: nat, end: nat) returns (result: string)
    requires start <= end <= |jar|
    ensures result == RemoveSegment(jar, start, end)
  {
    var before := Trim(jar[..start]);
    var after := if end < |jar| then Trim(jar[end + 1..]) else [];
    result := before;
    if |result| > 0 && |after| > 0 {
      result := result + "; ";
    }
    if |after| > 0 {
      result := result + after;
    }
  }

  /**
   * The search loop of `upsertCookiePair`: walk the `;`-segments and cut
   * out the first one whose trimmed, lower-cased text starts with the key
   * prefix; the jar stays as it is when none does.
   */
  method CutFirstMatch(jar: string, lowerKeyPrefix: string) returns (result: string)
    ensures var found := FindSegment(jar, 0, lowerKeyPrefix);
      result == if found.None? then jar else RemoveSegment(jar, found.value.start, found.value.end)
  {
    ghost var found := FindSegment(jar, 0, lowerKeyPrefix);
    var start := 0;
    while start < |jar|
      invariant FindSegment(jar, start, lowerKeyPrefix) == found
      decreases |jar| - start
    {
      var holds, end := TestNextSegment(jar, start, lowerKeyPrefix, found);
      if holds {
        result := CutSegment(jar, start, end);
        return;
      }
      start := end + 1;
    }
    result := jar;
  }

  /**
   * One pass of the search loop: the bounds of the segment at `start` and
   * whether it holds the key; the search ends there, or goes on after its `;`.
   */
  method TestNextSegment(jar: string, start: nat, lowerKeyPrefix: string, ghost found: Option<Span>) returns (holds: bool, end: nat)
    requires start < |jar| && FindSegment(jar, start, lowerKeyPrefix) == found
    ensures start <= end <= |jar|
    ensures holds ==> found == Some(Span(start, end))
    ensures !holds ==> FindSegment(jar, end + 1, lowerKeyPrefix) == found
  {
    end := NextPieceEnd(jar, ';', start);
    holds := TestSegment(jar, start, end, lowerKeyPrefix);
    if holds {
      FindSegmentHere(jar, start, lowerKeyPrefix);
    } else {
      FindSegmentNext(jar, start, lowerKeyPrefix);
    }
  }


  /**
   * `upsertCookiePair`: check the pair, cut out the first segment holding
   * its key, then append the trimmed `key=value`.
   */
  method UpsertCookiePair(jar: string, pair: string) returns (result: string)
    ensures result == Upsert(jar, pair)
  {
    result := jar;
    var eq := IndexOf(pair, '=');
    if eq <= 0 {
      return;
    }
    var key := Trim(pair[..eq]);
    var val := Trim(pair[eq + 1..]);
    if |key| == 0 {
      return;
    }
    assert ParsePair(pair) == Some(Cookie(key, val));
    var lowerKeyPrefix := ToLower(key + "=");
    result := CutFirstMatch(result, lowerKeyPrefix);
    result := Trim(result);
    ghost var trimmed := result;
    if |result| > 0 {
      result := result + "; ";
    }
    result := result + (key + "=" + val);
    assert result == Append(trimmed, Cookie(key, val));
  }

  // ---------------------------------------------------------------------
  // mergeSetCookieHeader
  // ---------------------------------------------------------------------

  /** What one header line offers: its trimmed text up to the first `;`. */
  function LinePair(line: string): (pair: string)
    ensures forall k :: 0 <= k < |pair| ==> pair[k] != ';'
  {
    var token := Trim(line);
    var semi := IndexOf(token, ';');
    IndexOfFirst(token, ';');
    if semi < 0 then token else token[..semi]
  }

  /** The jar after one header line. */
  function MergeLine(jar: string, line: string): (r: string)
    ensures ParsePair(LinePair(line)).Some? ==> EndsWith(r, PairText(ParsePair(LinePair(line)).value))
  {
    Upsert(jar, LinePair(line))
  }

  /** The jar after each of `lines` in turn. */
  function MergeLines(jar: string, lines: seq<string>): string
    decreases |lines|
  {
    if lines == [] then jar else MergeLines(MergeLine(jar, lines[0]), lines[1..])
  }

  /** The jar after a whole header: every `\n`-separated line, in order. */
  function Merge(jar: string, header: string): string {
    MergeLines(jar, Split(header, '\n'))
  }

  /** Taking two runs of lines is taking the first, then the second. */
  lemma {:induction false} MergeLinesConcat(jar: string, a: seq<string>, b: seq<string>)
    ensures MergeLines(jar, a + b) == MergeLines(MergeLines(jar, a), b)
    decreases |a|
  {
    if a == [] {
      assert a + b == b;
    } else {
      assert (a + b)[0] == a[0];
      assert (a + b)[1..] == a[1..] + b;
      MergeLinesConcat(MergeLine(jar, a[0]), a[1..], b);
    }
  }

  /**
   * Later lines win: for a header whose last line carries a well-formed
   * cookie, the merged jar ends with that cookie, whatever came before.
   */
  lemma {:induction false} LastLineWins(jar: string, lines: seq<string>, last: string)
    requires forall i, k :: 0 <= i < |lines| && 0 <= k < |lines[i]| ==> lines[i][k] != '\n'
    requires forall k :: 0 <= k < |last| ==> last[k] != '\n'
    requires ParsePair(LinePair(last)).Some?
    ensures EndsWith(Merge(jar, Join(lines + [last], '\n')), PairText(ParsePair(LinePair(last)).value))
  {
    var all := lines + [last];
    assert forall i, k :: 0 <= i < |all| && 0 <= k < |all[i]| ==> all[i][k] != '\n' by {
      forall i, k | 0 <= i < |all| && 0 <= k < |all[i]|
        ensures all[i][k] != '\n'
      {
        if i < |lines| {
          assert all[i] == lines[i];
        }
      }
    }
    JoinThenSplit(all, '\n');
    MergeLinesConcat(jar, lines, [last]);
    var before := MergeLines(jar, lines);
    assert MergeLines(before, [last]) == MergeLine(before, last) by {
      assert [last][1..] == [];
    }
    assert Merge(jar, Join(all, '\n')) == MergeLine(before, last);
  }

  /** One line of the header: trim it, keep what precedes a `;`, and upsert it when it has a key. */
  method MergeOneLine(jar: string, line: string) returns (result: string)
    ensures result == MergeLine(jar, line)
  {
    result := jar;
    var token := Trim(line);
    var semi := IndexOf(token, ';');
    var pair := if semi < 0 then token else token[..semi];
    var eq := IndexOf(pair, '=');
    if eq > 0 {
      result := UpsertCookiePair(jar, pair);
    }
  }

  /**
   * `mergeSetCookieHeader`: walk the header line by line (a final empty line
   * after a trailing `\n` included) and upsert each line's pair. The search
   * for the next `\n` reports the header's length where the code sees -1.
   */
  method MergeSetCookieHeader(jar: string, header: string) returns (result: string)
    ensures result == Merge(jar, header)
  {
    result := jar;
    var start := 0;
    PiecesAreSplit(header, '\n');
    ghost var goal := Merge(jar, header);
    while start <= |header|
      invariant LeftToMerge(result, header, start, goal)
      decreases |header| - start
    {
      result, start := MergeNextLine(result, header, start, goal);
    }
  }

  /** One pass of the header loop: merge the line from `start` and move past its `\n`. */
  method MergeNextLine(jar: string, header: string, start: nat, ghost goal: string) returns (result: string, next: nat)
    requires start <= |header| && LeftToMerge(jar, header, start, goal)
    ensures next > start && LeftToMerge(result, header, next, goal)
  {
    var end := NextPieceEnd(header, '\n', start);
    MergeStep(jar, header, start, goal);
    result := MergeOneLine(jar, header[start..end]);
    next := end + 1;
  }

  /**
   * Where the header loop stands: with the lines from `start` still to
   * merge into `result`, the merged jar becomes `goal`; past the end of the
   * header, `result` is `goal`.
   */
  ghost predicate LeftToMerge(result: string, header: string, start: nat, goal: string) {
    if start <= |header| then MergeLines(result, PiecesFrom(header, '\n', start)) == goal else result == goal
  }

  /** One pass of the header loop: merge the line from `start`, then go on after its `\n`. */
  lemma {:induction false} MergeStep(jar: string, header: string, start: nat, goal: string)
    requires start <= |header| && LeftToMerge(jar, header, start, goal)
    ensures var end := PieceEnd(header, '\n', start);
      LeftToMerge(MergeLine(jar, header[start..end]), header, end + 1, goal)
  {
    var end := PieceEnd(header, '\n', start);
    var rest := PiecesFrom(header, '\n', start);
    if end == |header| {
      assert rest == [header[start..end]];
      assert rest[1..] == [];
      assert MergeLines(jar, rest) == MergeLines(MergeLine(jar, header[start..end]), []);
    } else {
      assert rest[1..] == PiecesFrom(header, '\n', end + 1);
    }
  }
}
