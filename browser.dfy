/**
 * The directory browser list (`addBrowserDirectoryEntry`,
 * `addBrowserSongEntry` and `buildBrowserEntries` in src/file_manager.cpp):
 * a bounded list of sub-directories and playable files of one directory,
 * each file resolved to its song id in the catalog.
 */
module Browser {
  import opened Wrappers
  import opened Config
  import opened FilePaths
  import opened Storage
  import opened App
  import opened LibraryIndex

  /** One row of the browser list: the four parallel browser arrays at one index. */
  datatype BrowserEntry = BrowserEntry(isDir: bool, songIndex: int, name: string, path: string)

  /** The first `n` rows of the four parallel arrays. */
  function Rows(isDir: seq<bool>, songs: seq<int>, names: seq<string>, paths: seq<string>, n: nat): (r: seq<BrowserEntry>)
    requires n <= |isDir| && n <= |songs| && n <= |names| && n <= |paths|
    ensures |r| == n
    ensures forall e :: 0 <= e < n ==> r[e] == BrowserEntry(isDir[e], songs[e], names[e], paths[e])
  {
    seq(n, e requires 0 <= e < n => BrowserEntry(isDir[e], songs[e], names[e], paths[e]))
  }

  /** The rows the browser currently shows. */
  ghost function Shown(st: AppState): seq<BrowserEntry>
    reads st`browserEntryCount, st.browserEntryIsDir, st.browserEntrySongIndex, st.browserEntryName, st.browserEntryPath
    requires st.Shape() && 0 <= st.browserEntryCount <= MaxBrowserEntries
  {
    Rows(st.browserEntryIsDir[..], st.browserEntrySongIndex[..], st.browserEntryName[..], st.browserEntryPath[..],
         st.browserEntryCount)
  }

  predicate HasDirPath(entries: seq<BrowserEntry>, path: string) {
    exists e :: 0 <= e < |entries| && entries[e].isDir && entries[e].path == path
  }

  /** No two directory rows lead to the same path. */
  predicate DirPathsDistinct(entries: seq<BrowserEntry>) {
    forall e, f :: 0 <= e < f < |entries| && entries[e].isDir && entries[f].isDir ==> entries[e].path != entries[f].path
  }

  /**
   * `addBrowserDirectoryEntry` on the list: a directory already listed
   * under the same path is accepted without a second row; otherwise a row
   * is appended if there is room. The flag says whether the directory is
   * now listed.
   */
  function AddDir(entries: seq<BrowserEntry>, name: string, path: string): (bool, seq<BrowserEntry>) {
    if HasDirPath(entries, path) then (true, entries)
    else if |entries| >= MaxBrowserEntries then (false, entries)
    else (true, entries + [BrowserEntry(true, -1, name, path)])
  }

  /** Adding a directory never repeats a directory path and, when it succeeds, lists it. */
  lemma {:induction false} AddDirDeduplicates(entries: seq<BrowserEntry>, name: string, path: string)
    requires DirPathsDistinct(entries)
    ensures DirPathsDistinct(AddDir(entries, name, path).1)
    ensures AddDir(entries, name, path).0 <==> HasDirPath(AddDir(entries, name, path).1, path)
    ensures entries <= AddDir(entries, name, path).1
  {
    var r := AddDir(entries, name, path).1;
    if !HasDirPath(entries, path) && |entries| < MaxBrowserEntries {
      assert r[|entries|].isDir && r[|entries|].path == path;
    }
  }

  /** `addBrowserSongEntry` on the list: append a file row, named by its display name, if there is room. */
  function AddSong(entries: seq<BrowserEntry>, songIndex: int, fullPath: string): (bool, seq<BrowserEntry>) {
    if |entries| >= MaxBrowserEntries then (false, entries)
    else (true, entries + [BrowserEntry(false, songIndex, ExtractDisplayName(fullPath), fullPath)])
  }

  /** What one child of the directory contributes, given the catalog paths that resolve song ids. */
  function ShowChild(dir: string, child: DirEntry, entries: seq<BrowserEntry>, paths: seq<string>): seq<BrowserEntry> {
    var path := BuildEntryPath(dir, Some(child.name));
    if child.isDir then AddDir(entries, ExtractBaseName(path), path).1
    else if IsSupportedAudioFile(path) then AddSong(entries, FirstIndexOf(paths, path), path).1
    else entries
  }

  /** The enumeration loop of `buildBrowserEntries`, run until the children or the room run out. */
  function ListChildren(dir: string, children: seq<DirEntry>, entries: seq<BrowserEntry>, paths: seq<string>): seq<BrowserEntry>
    decreases |children|
  {
    if children == [] || |entries| >= MaxBrowserEntries then entries
    else ListChildren(dir, children[1..], ShowChild(dir, children[0], entries, paths), paths)
  }

  /**
   * The list `buildBrowserEntries` shows for `dir`: a ".." row leading to
   * the parent unless `dir` is the root, then the directory's children in
   * enumeration order, directories by base name and supported audio files
   * by display name with their song id.
   */
  function BrowserListing(fs: Fs, dir: string, paths: seq<string>): seq<BrowserEntry> {
    if dir in fs.listing then ListChildren(dir, fs.listing[dir], ParentRow(dir), paths) else ParentRow(dir)
  }

  /** The list before enumeration: the ".." row, unless `dir` is the root. */
  function ParentRow(dir: string): seq<BrowserEntry> {
    if dir != "/" then AddDir([], "..", GetParentDir(dir)).1 else []
  }

  /**
   * What every row of a listing satisfies: directory rows carry no song id,
   * file rows are supported audio files named by their display name, with
   * the id of their path among the catalog paths.
   */
  predicate RowsResolved(entries: seq<BrowserEntry>, paths: seq<string>) {
    forall e :: 0 <= e < |entries| ==> RowResolved(entries[e], paths)
  }

  predicate RowResolved(row: BrowserEntry, paths: seq<string>) {
    if row.isDir then row.songIndex == -1
    else
      && IsSupportedAudioFile(row.path)
      && row.name == ExtractDisplayName(row.path)
      && row.songIndex == FirstIndexOf(paths, row.path)
  }

  predicate ListingOk(entries: seq<BrowserEntry>, paths: seq<string>) {
    |entries| <= MaxBrowserEntries && DirPathsDistinct(entries) && RowsResolved(entries, paths)
  }

  lemma {:induction false} ShowChildKeepsOk(dir: string, child: DirEntry, entries: seq<BrowserEntry>, paths: seq<string>)
    requires ListingOk(entries, paths)
    ensures ListingOk(ShowChild(dir, child, entries, paths), paths)
    ensures entries <= ShowChild(dir, child, entries, paths)
  {
    var path := BuildEntryPath(dir, Some(child.name));
    if child.isDir {
      AddDirKeepsOk(entries, ExtractBaseName(path), path, paths);
    } else if IsSupportedAudioFile(path) {
      AddSongKeepsOk(entries, FirstIndexOf(paths, path), path, paths);
    }
  }

  lemma {:induction false} AddDirKeepsOk(entries: seq<BrowserEntry>, name: string, path: string, paths: seq<string>)
    requires ListingOk(entries, paths)
    ensures ListingOk(AddDir(entries, name, path).1, paths)
    ensures entries <= AddDir(entries, name, path).1
  {
    AddDirDeduplicates(entries, name, path);
    var r := AddDir(entries, name, path).1;
    if r != entries {
      var row := BrowserEntry(true, -1, name, path);
      assert r == entries + [row];
      assert RowResolved(row, paths);
    }
  }

  lemma {:induction false} AddSongKeepsOk(entries: seq<BrowserEntry>, songIndex: int, path: string, paths: seq<string>)
    requires ListingOk(entries, paths)
    requires IsSupportedAudioFile(path) && songIndex == FirstIndexOf(paths, path)
    ensures ListingOk(AddSong(entries, songIndex, path).1, paths)
    ensures entries <= AddSong(entries, songIndex, path).1
  {
    var r := AddSong(entries, songIndex, path).1;
    if |entries| < MaxBrowserEntries {
      var row := BrowserEntry(false, songIndex, ExtractDisplayName(path), path);
      assert r == entries + [row];
      forall e | 0 <= e < |r|
        ensures RowResolved(r[e], paths)
      {
        if e < |entries| {
          assert r[e] == entries[e];
        }
      }
      forall e, f | 0 <= e < f < |r| && r[e].isDir && r[f].isDir
        ensures r[e].path != r[f].path
      {
        assert f < |entries|;
        assert r[e] == entries[e] && r[f] == entries[f];
      }
    }
  }

  lemma {:induction false} ListChildrenKeepsOk(dir: string, children: seq<DirEntry>, entries: seq<BrowserEntry>, paths: seq<string>)
    requires ListingOk(entries, paths)
    ensures ListingOk(ListChildren(dir, children, entries, paths), paths)
    ensures entries <= ListChildren(dir, children, entries, paths)
    decreases |children|
  {
    if children != [] && |entries| < MaxBrowserEntries {
      var next := ShowChild(dir, children[0], entries, paths);
      ShowChildKeepsOk(dir, children[0], entries, paths);
      ListChildrenKeepsOk(dir, children[1..], next, paths);
    }
  }

  /**
   * The browser list is bounded, lists each directory path once, carries
   * the parent row first below the root, and resolves every file row to
   * its catalog song id (a found id names exactly that path).
   */
  lemma {:induction false} BrowserListingOk(fs: Fs, dir: string, paths: seq<string>)
    ensures ListingOk(BrowserListing(fs, dir, paths), paths)
    ensures dir != "/" ==>
      |BrowserListing(fs, dir, paths)| > 0 && BrowserListing(fs, dir, paths)[0] == BrowserEntry(true, -1, "..", GetParentDir(dir))
    ensures forall e :: 0 <= e < |BrowserListing(fs, dir, paths)| && BrowserListing(fs, dir, paths)[e].songIndex >= 0 ==>
      paths[BrowserListing(fs, dir, paths)[e].songIndex] == BrowserListing(fs, dir, paths)[e].path
  {
    var start := ParentRow(dir);
    assert !HasDirPath([], GetParentDir(dir));
    assert ListingOk(start, paths);
    if dir in fs.listing {
      ListChildrenKeepsOk(dir, fs.listing[dir], start, paths);
    }
  }

  /** Some row of the given kind leads to `path`. */
  predicate Lists(entries: seq<BrowserEntry>, path: string, isDir: bool) {
    exists e :: 0 <= e < |entries| && entries[e].isDir == isDir && entries[e].path == path
  }

  /** A child the browser shows: a sub-directory, or a file the player can play. */
  predicate Listable(dir: string, child: DirEntry) {
    child.isDir || IsSupportedAudioFile(BuildEntryPath(dir, Some(child.name)))
  }

  lemma {:induction false} ListsExtends(a: seq<BrowserEntry>, b: seq<BrowserEntry>, path: string, isDir: bool)
    requires a <= b && Lists(a, path, isDir)
    ensures Lists(b, path, isDir)
  {
    var e :| 0 <= e < |a| && a[e].isDir == isDir && a[e].path == path;
    assert b[e] == a[e];
  }

  /** With room left, a listable child is listed once it has been shown. */
  lemma {:induction false} ShowChildLists(dir: string, child: DirEntry, entries: seq<BrowserEntry>, paths: seq<string>)
    requires |entries| < MaxBrowserEntries && Listable(dir, child)
    ensures Lists(ShowChild(dir, child, entries, paths), BuildEntryPath(dir, Some(child.name)), child.isDir)
  {
    var path := BuildEntryPath(dir, Some(child.name));
    var r := ShowChild(dir, child, entries, paths);
    if child.isDir && HasDirPath(entries, path) {
      var e :| 0 <= e < |entries| && entries[e].isDir && entries[e].path == path;
      assert r[e].isDir == child.isDir && r[e].path == path;
    } else {
      assert r[|entries|].isDir == child.isDir && r[|entries|].path == path;
    }
  }

  /**
   * When the directory has no more children than the list has room for,
   * every sub-directory and every supported audio file among them is listed.
   */
  lemma {:induction false} ListChildrenComplete(dir: string, children: seq<DirEntry>, entries: seq<BrowserEntry>, paths: seq<string>,
                                               k: nat)
    requires |entries| + |children| <= MaxBrowserEntries
    requires k < |children| && Listable(dir, children[k])
    ensures Lists(ListChildren(dir, children, entries, paths), BuildEntryPath(dir, Some(children[k].name)), children[k].isDir)
    decreases |children|
  {
    var next := ShowChild(dir, children[0], entries, paths);
    assert |next| <= |entries| + 1;
    if k == 0 {
      ShowChildLists(dir, children[0], entries, paths);
      ListChildrenGrows(dir, children[1..], next, paths);
      ListsExtends(next, ListChildren(dir, children[1..], next, paths),
                   BuildEntryPath(dir, Some(children[0].name)), children[0].isDir);
    } else {
      assert children[1..][k - 1] == children[k];
      ListChildrenComplete(dir, children[1..], next, paths, k - 1);
    }
  }

  /** The enumeration only ever appends rows. */
  lemma {:induction false} ListChildrenGrows(dir: string, children: seq<DirEntry>, entries: seq<BrowserEntry>, paths: seq<string>)
    ensures entries <= ListChildren(dir, children, entries, paths)
    decreases |children|
  {
    if children != [] && |entries| < MaxBrowserEntries {
      var next := ShowChild(dir, children[0], entries, paths);
      assert entries <= next;
      ListChildrenGrows(dir, children[1..], next, paths);
    }
  }

  /** Whether a directory row already leads to `dirPath` (the duplicate scan of `addBrowserDirectoryEntry`). */
  method FindDirEntry(st: AppState, dirPath: string) returns (found: bool)
    requires st.Shape() && 0 <= st.browserEntryCount <= MaxBrowserEntries
    ensures found == HasDirPath(Shown(st), dirPath)
  {
    ghost var shown := Shown(st);
    for i := 0 to st.browserEntryCount
      invariant forall e :: 0 <= e < i ==> !(shown[e].isDir && shown[e].path == dirPath)
    {
      if st.browserEntryIsDir[i] && st.browserEntryPath[i] == dirPath {
        assert shown[i].isDir && shown[i].path == dirPath;
        return true;
      }
    }
    return false;
  }

  /** Write one row at the end of the list. */
  method PutEntry(st: AppState, isDir: bool, songIndex: int, name: string, path: string)
    requires st.Valid() && st.browserEntryCount < MaxBrowserEntries
    modifies st`browserEntryCount, st.browserEntryIsDir, st.browserEntrySongIndex, st.browserEntryName, st.browserEntryPath
    ensures st.Valid()
    ensures st.browserEntryCount == old(st.browserEntryCount) + 1
    ensures Shown(st) == old(Shown(st)) + [BrowserEntry(isDir, songIndex, name, path)]
    ensures old(st.BrowserSlotsCleared(st.browserEntryCount)) ==> st.BrowserSlotsCleared(st.browserEntryCount)
  {
    ghost var before := Shown(st);
    var idx := st.browserEntryCount;
    st.browserEntryCount := idx + 1;
    st.browserEntryIsDir[idx] := isDir;
    st.browserEntrySongIndex[idx] := songIndex;
    st.browserEntryName[idx] := name;
    st.browserEntryPath[idx] := path;
    assert Shown(st)[..idx] == before;
  }

  /** `addBrowserDirectoryEntry`. */
  method AddBrowserDirectoryEntry(st: AppState, dirName: string, dirPath: string) returns (ok: bool)
    requires st.Valid()
    modifies st`browserEntryCount, st.browserEntryIsDir, st.browserEntrySongIndex, st.browserEntryName, st.browserEntryPath
    ensures st.Valid()
    ensures (ok, Shown(st)) == AddDir(old(Shown(st)), dirName, dirPath)
    ensures old(st.BrowserSlotsCleared(st.browserEntryCount)) ==> st.BrowserSlotsCleared(st.browserEntryCount)
  {
    var found := FindDirEntry(st, dirPath);
    if found {
      return true;
    }
    if st.browserEntryCount >= MaxBrowserEntries {
      return false;
    }
    PutEntry(st, true, -1, dirName, dirPath);
    return true;
  }

  /** `addBrowserSongEntry`. */
  method AddBrowserSongEntry(st: AppState, songIndex: int, fullPath: string) returns (ok: bool)
    requires st.Valid()
    modifies st`browserEntryCount, st.browserEntryIsDir, st.browserEntrySongIndex, st.browserEntryName, st.browserEntryPath
    ensures st.Valid()
    ensures (ok, Shown(st)) == AddSong(old(Shown(st)), songIndex, fullPath)
    ensures old(st.BrowserSlotsCleared(st.browserEntryCount)) ==> st.BrowserSlotsCleared(st.browserEntryCount)
  {
    if st.browserEntryCount >= MaxBrowserEntries {
      return false;
    }
    PutEntry(st, false, songIndex, ExtractDisplayName(fullPath), fullPath);
    return true;
  }

  /** The reset at the start of `buildBrowserEntries`: an empty list for `dir`, every slot cleared, the selection on 0. */
  method ClearListing(st: AppState, dir: string)
    requires st.Valid()
    modifies st`browserEntryCount, st`browserCurrentDir, st`currentSelectedIndex
    modifies st.browserEntryIsDir, st.browserEntrySongIndex, st.browserEntryName, st.browserEntryPath
    ensures st.Valid()
    ensures st.browserEntryCount == 0 && st.browserCurrentDir == dir && st.currentSelectedIndex == 0
    ensures st.BrowserSlotsCleared(0)
  {
    st.browserEntryCount := 0;
    st.browserCurrentDir := dir;
    st.currentSelectedIndex := 0;
    for i := 0 to MaxBrowserEntries
      modifies st.browserEntryIsDir, st.browserEntrySongIndex, st.browserEntryName, st.browserEntryPath
      invariant forall e :: 0 <= e < i ==>
        !st.browserEntryIsDir[e] && st.browserEntrySongIndex[e] == -1 && st.browserEntryName[e] == "" && st.browserEntryPath[e] == ""
    {
      st.browserEntryIsDir[i] := false;
      st.browserEntrySongIndex[i] := -1;
      st.browserEntryName[i] := "";
      st.browserEntryPath[i] := "";
    }
  }

  /** The list before enumeration: cleared, then the ".." row below the root. */
  method StartListing(st: AppState, dir: string)
    requires st.Valid()
    modifies st`browserEntryCount, st`browserCurrentDir, st`currentSelectedIndex
    modifies st.browserEntryIsDir, st.browserEntrySongIndex, st.browserEntryName, st.browserEntryPath
    ensures st.Valid()
    ensures st.browserCurrentDir == dir && st.currentSelectedIndex == 0
    ensures st.BrowserSlotsCleared(st.browserEntryCount)
    ensures Shown(st) == ParentRow(dir)
  {
    ClearListing(st, dir);
    assert Shown(st) == [];
    if dir != "/" {
      var parentDir := GetParentDir(dir);
      var _ := AddBrowserDirectoryEntry(st, "..", parentDir);
    }
  }

  /** A sub-directory child: listed by its base name. */
  method ShowDirectoryChild(st: AppState, entryPath: string) returns (added: bool)
    requires st.Valid() && st.browserEntryCount < MaxBrowserEntries
    requires st.BrowserSlotsCleared(st.browserEntryCount)
    modifies st`browserEntryCount, st.browserEntryIsDir, st.browserEntrySongIndex, st.browserEntryName, st.browserEntryPath
    ensures st.Valid()
    ensures st.BrowserSlotsCleared(st.browserEntryCount)
    ensures added
    ensures Shown(st) == AddDir(old(Shown(st)), ExtractBaseName(entryPath), entryPath).1
    ensures old(Shown(st)) <= Shown(st)
  {
    var dirName := ExtractBaseName(entryPath);
    added := AddBrowserDirectoryEntry(st, dirName, entryPath);
  }

  /** A supported audio file child: listed by its display name with the song id of its path. */
  method ShowAudioChild(fs: Fs, st: AppState, entryPath: string, ghost paths: seq<string>, ghost coherent: bool)
    returns (added: bool)
    requires st.Valid() && st.browserEntryCount < MaxBrowserEntries
    requires st.BrowserSlotsCleared(st.browserEntryCount)
    requires coherent ==>
      st.Coherent(fs) && fs.catalog.Some? && paths == CatalogPaths(fs.catalog.value)[..st.libraryCount]
    modifies st`browserEntryCount, st.browserEntryIsDir, st.browserEntrySongIndex, st.browserEntryName, st.browserEntryPath
    modifies st`pathCacheWritePos, st.pathCacheIndices, st.pathCacheValues
    ensures st.Valid()
    ensures st.BrowserSlotsCleared(st.browserEntryCount)
    ensures added
    ensures coherent ==> st.Coherent(fs) && Shown(st) == AddSong(old(Shown(st)), FirstIndexOf(paths, entryPath), entryPath).1
    ensures old(Shown(st)) <= Shown(st)
  {
    var songIndex := FindSongIndexByPath(fs, st, entryPath);
    added := AddBrowserSongEntry(st, songIndex, entryPath);
  }

  /** One pass of the enumeration loop; anything but a directory or a supported audio file is skipped. */
  method ShowChildEntry(fs: Fs, st: AppState, dir: string, child: DirEntry, ghost paths: seq<string>, ghost coherent: bool)
    returns (added: bool)
    requires st.Valid() && st.browserEntryCount < MaxBrowserEntries
    requires st.BrowserSlotsCleared(st.browserEntryCount)
    requires coherent ==>
      st.Coherent(fs) && fs.catalog.Some? && paths == CatalogPaths(fs.catalog.value)[..st.libraryCount]
    modifies st`browserEntryCount, st.browserEntryIsDir, st.browserEntrySongIndex, st.browserEntryName, st.browserEntryPath
    modifies st`pathCacheWritePos, st.pathCacheIndices, st.pathCacheValues
    ensures st.Valid()
    ensures st.BrowserSlotsCleared(st.browserEntryCount)
    ensures added
    ensures coherent ==> st.Coherent(fs) && Shown(st) == ShowChild(dir, child, old(Shown(st)), paths)
    ensures old(Shown(st)) <= Shown(st)
  {
    var entryPath := BuildEntryPath(dir, Some(child.name));
    added := true;
    if child.isDir {
      added := ShowDirectoryChild(st, entryPath);
    } else if IsSupportedAudioFile(entryPath) {
      added := ShowAudioChild(fs, st, entryPath, paths, coherent);
    }
  }

  /** The enumeration loop of `buildBrowserEntries` over the children of `dir`. */
  method ListDirectory(fs: Fs, st: AppState, dir: string, children: seq<DirEntry>, ghost paths: seq<string>, ghost coherent: bool)
    requires st.Valid()
    requires st.BrowserSlotsCleared(st.browserEntryCount)
    requires coherent ==>
      st.Coherent(fs) && fs.catalog.Some? && paths == CatalogPaths(fs.catalog.value)[..st.libraryCount]
    modifies st`browserEntryCount, st.browserEntryIsDir, st.browserEntrySongIndex, st.browserEntryName, st.browserEntryPath
    modifies st`pathCacheWritePos, st.pathCacheIndices, st.pathCacheValues
    ensures st.Valid()
    ensures st.BrowserSlotsCleared(st.browserEntryCount)
    ensures coherent ==> st.Coherent(fs) && Shown(st) == ListChildren(dir, children, old(Shown(st)), paths)
    ensures old(Shown(st)) <= Shown(st)
  {
    ghost var target := ListChildren(dir, children, Shown(st), paths);
    var i := 0;
    while i < |children| && st.browserEntryCount < MaxBrowserEntries
      invariant 0 <= i <= |children|
      invariant st.Valid()
      invariant st.BrowserSlotsCleared(st.browserEntryCount)
      invariant old(Shown(st)) <= Shown(st)
      invariant coherent ==>
        && st.Coherent(fs) && fs.catalog.Some? && paths == CatalogPaths(fs.catalog.value)[..st.libraryCount]
        && ListChildren(dir, children[i..], Shown(st), paths) == target
    {
      var added := ShowChildEntry(fs, st, dir, children[i], paths, coherent);
      assert children[i..][1..] == children[i + 1..];
      if !added {
        break;
      }
      i := i + 1;
    }
  }

  /**
   * `buildBrowserEntries`: the list for the normalised directory. It
   * always starts with the ".." row unless that directory is the root. The
   * call fails when that path is not a directory, leaving only the parent
   * row. While the in-memory index agrees with the catalog, the rows are
   * exactly `BrowserListing` (so `BrowserListingOk` applies to them).
   */
  method BuildBrowserEntries(fs: Fs, st: AppState, dirname: Option<string>) returns (ok: bool)
    requires st.Valid()
    modifies st`browserEntryCount, st`browserCurrentDir, st`currentSelectedIndex
    modifies st.browserEntryIsDir, st.browserEntrySongIndex, st.browserEntryName, st.browserEntryPath
    modifies st`pathCacheWritePos, st.pathCacheIndices, st.pathCacheValues
    ensures st.Valid()
    ensures st.browserCurrentDir == NormalizeDir(dirname) && st.currentSelectedIndex == 0
    ensures ok <==> NormalizeDir(dirname) in fs.listing
    ensures st.BrowserSlotsCleared(st.browserEntryCount)
    ensures ParentRow(NormalizeDir(dirname)) <= Shown(st)
    ensures !ok ==> Shown(st) == ParentRow(NormalizeDir(dirname))
    ensures !ok ==> st.browserEntryCount == (if NormalizeDir(dirname) == "/" then 0 else 1)
    ensures old(st.Coherent(fs)) ==> st.Coherent(fs)
    ensures old(st.Coherent(fs)) && fs.catalog.Some? ==>
      Shown(st) == BrowserListing(fs, NormalizeDir(dirname), CatalogPaths(fs.catalog.value)[..st.libraryCount])
  {
    var dir := NormalizeDir(dirname);
    ghost var coherent := st.Coherent(fs) && fs.catalog.Some?;
    ghost var paths := if coherent then CatalogPaths(fs.catalog.value)[..st.libraryCount] else [];
    StartListing(st, dir);
    if dir !in fs.listing {
      return false;
    }
    ListDirectory(fs, st, dir, fs.listing[dir], paths, coherent);
    return true;
  }
}
