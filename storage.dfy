/**
 * The storage medium as the library engine sees it: directory listings and
 * the catalog file (LIBRARY_INDEX_PATH).
 *
 * The catalog is kept as its sequence of lines; the file text is each line
 * followed by '\n', so line k starts at the sum of |line j| + 1 over j < k.
 * A line may still carry the '\r' that `println` writes before the '\n'.
 */
module Storage {
  import opened Wrappers
  import opened Strings

  /** One child reported by `openNextFile`: the name it reports and whether it is a directory. */
  datatype DirEntry = DirEntry(name: string, isDir: bool)

  /**
   * `listing` maps each path that opens as a directory to its children in
   * enumeration order; `catalog` is None when the catalog file cannot be opened.
   */
  datatype Fs = Fs(listing: map<string, seq<DirEntry>>, catalog: Option<seq<string>>)

  /** Size in bytes of the catalog text. */
  function TextSize(lines: seq<string>): nat
  {
    if lines == [] then 0 else |lines[0]| + 1 + TextSize(lines[1..])
  }

  /** A line the loader numbers: one that holds something besides white space. */
  predicate IsEntryLine(line: string) {
    SkipSpaces(line, 0, |line|) < |line|
  }

  /** The loader's test: the line is not empty once trimmed. */
  lemma {:induction false} EntryLineIsNotBlank(line: string)
    ensures IsEntryLine(line) <==> Trim(line) != ""
  {
  }

  /**
   * The catalog's paths in song-id order: song id k names the k-th line that
   * is not blank, trimmed. Blank lines take no id.
   */
  function CatalogPaths(lines: seq<string>): (r: seq<string>)
    ensures |r| <= |lines|
  {
    if lines == [] then []
    else (if IsEntryLine(lines[0]) then [Trim(lines[0])] else []) + CatalogPaths(lines[1..])
  }

  /** Every catalog path is non-empty and has no surrounding white space. */
  lemma {:induction false} CatalogPathsAreTrimmed(lines: seq<string>)
    ensures forall k :: 0 <= k < |CatalogPaths(lines)| ==>
      CatalogPaths(lines)[k] != "" && IsTrimmed(CatalogPaths(lines)[k])
  {
    if lines != [] {
      CatalogPathsAreTrimmed(lines[1..]);
      if IsEntryLine(lines[0]) {
        EntryLineIsNotBlank(lines[0]);
        NumberEntryLine(lines, 0);
      } else {
        SkipBlankLine(lines, 0);
      }
    }
  }

  /**
   * The byte offsets at which the numbered lines start, for a text that
   * begins at offset `base`: one per catalog path.
   */
  function LineOffsets(lines: seq<string>, base: nat): (r: seq<nat>)
    ensures |r| == |CatalogPaths(lines)|
  {
    if lines == [] then []
    else
      var rest := LineOffsets(lines[1..], base + |lines[0]| + 1);
      if IsEntryLine(lines[0]) then [base] + rest else rest
  }

  /** The offsets lie inside the text and strictly increase. */
  lemma {:induction false} LineOffsetsIncrease(lines: seq<string>, base: nat)
    ensures forall k :: 0 <= k < |LineOffsets(lines, base)| ==>
      base <= LineOffsets(lines, base)[k] < base + TextSize(lines)
    ensures forall j, k :: 0 <= j < k < |LineOffsets(lines, base)| ==>
      LineOffsets(lines, base)[j] < LineOffsets(lines, base)[k]
  {
    if lines != [] {
      var next := base + |lines[0]| + 1;
      var rest := LineOffsets(lines[1..], next);
      LineOffsetsIncrease(lines[1..], next);
      assert TextSize(lines) == next - base + TextSize(lines[1..]);
      if IsEntryLine(lines[0]) {
        NumberEntryLine(lines, base);
        var r := [base] + rest;
        assert forall k :: 1 <= k < |r| ==> r[k] == rest[k - 1];
      } else {
        SkipBlankLine(lines, base);
      }
    }
  }

  /** `seek`: it succeeds for any position up to the end of the file. */
  predicate SeekOk(lines: seq<string>, offset: nat) {
    offset <= TextSize(lines)
  }

  /**
   * `readStringUntil('\n')` after seeking to `offset`, for a text whose
   * first line starts at byte `base`: the text up to the next '\n' or the end.
   */
  function ReadLineAt(lines: seq<string>, base: nat, offset: nat): string
    requires base <= offset
    decreases |lines|
  {
    if lines == [] then ""
    else if offset - base <= |lines[0]| then lines[0][offset - base..]
    else ReadLineAt(lines[1..], base + |lines[0]| + 1, offset)
  }

  /** A line that is blank after trimming takes no song id and no offset. */
  lemma {:induction false} SkipBlankLine(lines: seq<string>, base: nat)
    requires lines != [] && !IsEntryLine(lines[0])
    ensures CatalogPaths(lines) == CatalogPaths(lines[1..])
    ensures LineOffsets(lines, base) == LineOffsets(lines[1..], base + |lines[0]| + 1)
  {
  }

  /** A non-blank line takes the next song id, and its offset is where it starts. */
  lemma {:induction false} NumberEntryLine(lines: seq<string>, base: nat)
    requires lines != [] && IsEntryLine(lines[0])
    ensures CatalogPaths(lines) == [Trim(lines[0])] + CatalogPaths(lines[1..])
    ensures LineOffsets(lines, base) == [base] + LineOffsets(lines[1..], base + |lines[0]| + 1)
  {
  }

  /**
   * Reading at a recorded offset gives back the catalog path of that song
   * id: the property the offset table exists for.
   */
  lemma {:induction false} ReadAtRecordedOffset(lines: seq<string>, base: nat, k: nat)
    requires k < |CatalogPaths(lines)|
    ensures base <= LineOffsets(lines, base)[k]
    ensures Trim(ReadLineAt(lines, base, LineOffsets(lines, base)[k])) == CatalogPaths(lines)[k]
  {
    var next := base + |lines[0]| + 1;
    var offs := LineOffsets(lines, base);
    if IsEntryLine(lines[0]) {
      NumberEntryLine(lines, base);
      if k == 0 {
        assert offs[0] == base;
        assert lines[0][0..] == lines[0];
      } else {
        ReadAtRecordedOffset(lines[1..], next, k - 1);
        var restOff := LineOffsets(lines[1..], next)[k - 1];
        assert offs[k] == restOff && next <= restOff;
        assert ReadLineAt(lines, base, offs[k]) == ReadLineAt(lines[1..], next, restOff);
      }
    } else {
      SkipBlankLine(lines, base);
      ReadAtRecordedOffset(lines[1..], next, k);
      var restOff := LineOffsets(lines[1..], next)[k];
      assert offs[k] == restOff && next <= restOff;
      assert ReadLineAt(lines, base, offs[k]) == ReadLineAt(lines[1..], next, restOff);
    }
  }

  /** Splitting the catalog splits its paths: the loaders read it line by line. */
  lemma {:induction false} CatalogPathsAppend(a: seq<string>, b: seq<string>)
    ensures CatalogPaths(a + b) == CatalogPaths(a) + CatalogPaths(b)
  {
    if a == [] {
      assert a + b == b;
    } else {
      var ab := a + b;
      assert ab[0] == a[0] && ab[1..] == a[1..] + b;
      CatalogPathsAppend(a[1..], b);
      var head := if IsEntryLine(a[0]) then [Trim(a[0])] else [];
      assert CatalogPaths(ab) == head + (CatalogPaths(a[1..]) + CatalogPaths(b));
      assert CatalogPaths(a) == head + CatalogPaths(a[1..]);
    }
  }

  lemma {:induction false} TextSizeAppend(a: seq<string>, b: seq<string>)
    ensures TextSize(a + b) == TextSize(a) + TextSize(b)
  {
    if a == [] {
      assert a + b == b;
    } else {
      assert (a + b)[1..] == a[1..] + b;
      TextSizeAppend(a[1..], b);
    }
  }

  /** The offsets of a concatenation: the second part's offsets start where the first part's text ends. */
  lemma {:induction false} LineOffsetsAppend(a: seq<string>, b: seq<string>, base: nat)
    ensures LineOffsets(a + b, base) == LineOffsets(a, base) + LineOffsets(b, base + TextSize(a))
  {
    if a == [] {
      assert a + b == b;
    } else {
      var next := base + |a[0]| + 1;
      var ab := a + b;
      assert ab[1..] == a[1..] + b && ab[0] == a[0];
      assert base + TextSize(a) == next + TextSize(a[1..]);
      LineOffsetsAppend(a[1..], b, next);
      if IsEntryLine(a[0]) {
        NumberEntryLine(ab, base);
        NumberEntryLine(a, base);
        AppendAssocNat([base], LineOffsets(a[1..], next), LineOffsets(b, base + TextSize(a)));
      } else {
        SkipBlankLine(ab, base);
        SkipBlankLine(a, base);
      }
    }
  }

  lemma {:induction false} AppendAssocNat(x: seq<nat>, y: seq<nat>, z: seq<nat>)
    ensures x + (y + z) == (x + y) + z
  {
  }

  /**
   * One step of the loader: after the first i lines, line i starts at byte
   * TextSize(lines[..i]), and when it is not blank that is the recorded
   * offset of the next song id.
   */
  lemma {:induction false} LoaderStep(lines: seq<string>, i: nat)
    requires i < |lines|
    ensures TextSize(lines[..i + 1]) == TextSize(lines[..i]) + |lines[i]| + 1
    ensures CatalogPaths(lines[..i + 1])
      == CatalogPaths(lines[..i]) + (if IsEntryLine(lines[i]) then [Trim(lines[i])] else [])
    ensures |CatalogPaths(lines[..i + 1])| <= |CatalogPaths(lines)|
    ensures IsEntryLine(lines[i]) ==>
      LineOffsets(lines, 0)[|CatalogPaths(lines[..i])|] == TextSize(lines[..i])
      && CatalogPaths(lines)[|CatalogPaths(lines[..i])|] == Trim(lines[i])
  {
    var a := lines[..i];
    var b := lines[i..];
    assert lines[..i + 1] == a + [lines[i]];
    assert lines == a + b;
    assert b[0] == lines[i];
    TextSizeAppend(a, [lines[i]]);
    CatalogPathsAppend(a, [lines[i]]);
    assert [lines[i]][1..] == [];
    CatalogPathsAppend(lines[..i + 1], lines[i + 1..]);
    assert lines == lines[..i + 1] + lines[i + 1..];
    if IsEntryLine(lines[i]) {
      LineOffsetsAppend(a, b, 0);
      CatalogPathsAppend(a, b);
      NumberEntryLine(b, TextSize(a));
    }
  }

  /** The line `println(path)` writes: the path, then '\r' before the '\n'. */
  function PrintedLine(path: string): string {
    path + "\r"
  }

  /** The catalog text written for a sequence of paths. */
  function PrintedCatalog(paths: seq<string>): (r: seq<string>)
    ensures |r| == |paths|
    ensures forall k :: 0 <= k < |paths| ==> r[k] == PrintedLine(paths[k])
  {
    seq(|paths|, k requires 0 <= k < |paths| => PrintedLine(paths[k]))
  }

  /** Trimming a printed line removes exactly the '\r' that `println` added. */
  lemma {:induction false} PrintedLineTrims(path: string)
    requires path != "" && IsTrimmed(path)
    ensures Trim(PrintedLine(path)) == path
  {
    var s := PrintedLine(path);
    assert SkipSpaces(s, 0, |s|) == 0;
    assert SkipSpacesBack(s, 0, |s|) == |path| by {
      assert SkipSpacesBack(s, 0, |s|) == SkipSpacesBack(s, 0, |path|);
    }
    assert s[..|path|] == path;
  }

  /**
   * Writing a catalog and reading it back: when every path is non-empty
   * and has no surrounding white space, the song ids name exactly the
   * written paths, in order.
   */
  lemma {:induction false} PrintedCatalogRoundTrip(paths: seq<string>)
    requires forall k :: 0 <= k < |paths| ==> paths[k] != "" && IsTrimmed(paths[k])
    ensures CatalogPaths(PrintedCatalog(paths)) == paths
  {
    if paths != [] {
      var lines := PrintedCatalog(paths);
      PrintedLineTrims(paths[0]);
      PrintedCatalogTail(paths);
      PrintedCatalogRoundTrip(paths[1..]);
      NumberEntryLine(lines, 0);
    }
  }

  lemma {:induction false} PrintedCatalogTail(paths: seq<string>)
    requires paths != []
    ensures PrintedCatalog(paths)[0] == PrintedLine(paths[0])
    ensures PrintedCatalog(paths)[1..] == PrintedCatalog(paths[1..])
  {
  }

  lemma {:induction false} PrintedCatalogAppend(a: seq<string>, b: seq<string>)
    ensures PrintedCatalog(a + b) == PrintedCatalog(a) + PrintedCatalog(b)
  {
  }
}
