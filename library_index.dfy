/**
 * Loading the catalog into the in-memory index, the identity queue, the
 * FIFO path cache and the path lookups built on it (src/file_manager.cpp:
 * `rebuildQueueFromLibrary`, `readPathBySongIndex`, `findSongIndexByPath`,
 * `findQueueIndexByPathInternal`, `rebuildLibraryIndex`, `loadLibraryIndex`,
 * `getPathByQueueIndex`, `findQueueIndexByPath`).
 *
 * The catalog file is `fs.catalog`; opening it fails exactly when it is None.
 */
module LibraryIndex {
  import opened Wrappers
  import opened Strings
  import opened Config
  import opened FilePaths
  import opened Storage
  import opened LibraryScan
  import opened App

  /** The first position holding `x`, or -1 when there is none. */
  function FirstIndexOf<T(==)>(s: seq<T>, x: T): (r: int)
    ensures -1 <= r < |s|
    ensures r >= 0 ==> s[r] == x && x !in s[..r]
    ensures r < 0 ==> x !in s
    ensures forall j :: 0 <= j < r ==> s[j] != x
  {
    if s == [] then -1
    else if s[0] == x then 0
    else
      var r := FirstIndexOf(s[1..], x);
      assert r >= 0 ==> s[..r + 1] == [s[0]] + s[1..][..r];
      assert s == [s[0]] + s[1..];
      if r < 0 then -1 else r + 1
  }

  /** Any position holding `x` with no `x` before it is the first one. */
  lemma {:induction false} FirstIndexOfUnique<T>(s: seq<T>, x: T, i: int)
    requires 0 <= i < |s| && s[i] == x && x !in s[..i]
    ensures FirstIndexOf(s, x) == i
  {
    assert forall j :: 0 <= j < i ==> s[j] == s[..i][j];
  }

  /** The paths of the songs a queue of ids names, in queue order. */
  function QueuePaths(paths: seq<string>, ids: seq<nat>): (r: seq<string>)
    requires forall q :: 0 <= q < |ids| ==> ids[q] < |paths|
    ensures |r| == |ids|
    ensures forall q :: 0 <= q < |ids| ==> r[q] == paths[ids[q]]
  {
    seq(|ids|, q requires 0 <= q < |ids| => paths[ids[q]])
  }

  /**
   * What a cache miss reads: open the catalog, seek to `offset`, read to the
   * next '\n' and trim; a failed open or seek or a blank line gives None.
   */
  function ReadCatalogLine(fs: Fs, offset: nat): Option<string> {
    if fs.catalog.None? || !SeekOk(fs.catalog.value, offset) then None
    else
      var line := Trim(ReadLineAt(fs.catalog.value, 0, offset));
      if line == "" then None else Some(line)
  }

  /** Reading at the recorded offset of song id k gives id k's catalog path. */
  lemma {:induction false} RecordedOffsetReadsPath(fs: Fs, k: nat)
    requires fs.catalog.Some? && k < |CatalogPaths(fs.catalog.value)|
    ensures ReadCatalogLine(fs, LineOffsets(fs.catalog.value, 0)[k]) == Some(CatalogPaths(fs.catalog.value)[k])
  {
    ReadAtRecordedOffset(fs.catalog.value, 0, k);
    LineOffsetsIncrease(fs.catalog.value, 0);
    CatalogPathsAreTrimmed(fs.catalog.value);
  }

  /**
   * `rebuildQueueFromLibrary`: the queue becomes every song id in order,
   * scoped to MUSIC_DIR; an out-of-range selection falls back to 0 and an
   * out-of-range playing cursor to the selection, so both end in range.
   * Ids are stored as `uint16_t`; capacity keeps them below 65536.
   */
  method RebuildQueueFromLibrary(st: AppState)
    requires st.Shape() && 0 <= st.libraryCount <= MaxLibraryFiles
    modifies st`fileCount, st.playbackQueue, st`queueDirectory, st`currentSelectedIndex, st`currentPlayingIndex
    ensures st.fileCount == st.libraryCount && st.QueueOk()
    ensures forall k :: 0 <= k < st.libraryCount ==> st.playbackQueue[k] == k
    ensures forall k :: st.libraryCount <= k < MaxLibraryFiles ==> st.playbackQueue[k] == old(st.playbackQueue[k])
    ensures st.queueDirectory == MusicDir
    ensures st.fileCount == 0 ==> st.currentSelectedIndex == 0 && st.currentPlayingIndex == 0
    ensures st.fileCount > 0 ==>
      st.currentSelectedIndex == (if 0 <= old(st.currentSelectedIndex) < st.fileCount then old(st.currentSelectedIndex) else 0)
      && st.currentPlayingIndex
         == (if 0 <= old(st.currentPlayingIndex) < st.fileCount then old(st.currentPlayingIndex) else st.currentSelectedIndex)
    ensures st.fileCount > 0 ==>
      0 <= st.currentSelectedIndex < st.fileCount && 0 <= st.currentPlayingIndex < st.fileCount
  {
    st.fileCount := st.libraryCount;
    for i := 0 to st.libraryCount
      modifies st.playbackQueue
      invariant forall k :: 0 <= k < i ==> st.playbackQueue[k] == k
      invariant forall k :: i <= k < MaxLibraryFiles ==> st.playbackQueue[k] == old(st.playbackQueue[k])
    {
      st.playbackQueue[i] := i % 0x1_0000;
    }
    st.queueDirectory := MusicDir;
    if st.fileCount <= 0 {
      st.currentSelectedIndex := 0;
      st.currentPlayingIndex := 0;
      return;
    }
    if st.currentSelectedIndex < 0 || st.currentSelectedIndex >= st.fileCount {
      st.currentSelectedIndex := 0;
    }
    if st.currentPlayingIndex < 0 || st.currentPlayingIndex >= st.fileCount {
      st.currentPlayingIndex := st.currentSelectedIndex;
    }
  }

  /**
   * `readPathBySongIndex`: an id outside [0, libraryCount) fails and a cache
   * hit answers from the cache, both leaving the cache alone; a miss reads
   * the catalog at the id's offset and, when that gives a path, stores it in
   * slot `pathCacheWritePos` and advances the cursor by one, modulo the
   * cache size (first in, first out). The cache never holds an id twice.
   * When the index agrees with the catalog, every valid id yields its path.
   */
  method ReadPathBySongIndex(fs: Fs, st: AppState, songIndex: int) returns (r: Option<string>)
    requires st.Valid()
    modifies st`pathCacheWritePos, st.pathCacheIndices, st.pathCacheValues
    ensures st.Valid()
    ensures !(0 <= songIndex < st.libraryCount) ==>
      r.None? && unchanged(st`pathCacheWritePos, st.pathCacheIndices, st.pathCacheValues)
    ensures 0 <= songIndex < st.libraryCount && songIndex in old(st.pathCacheIndices[..]) ==>
      r == Some(old(st.pathCacheValues[FirstIndexOf(st.pathCacheIndices[..], songIndex)]))
      && unchanged(st`pathCacheWritePos, st.pathCacheIndices, st.pathCacheValues)
    ensures 0 <= songIndex < st.libraryCount && songIndex !in old(st.pathCacheIndices[..]) ==>
      r == ReadCatalogLine(fs, st.libraryOffsets[songIndex])
    ensures 0 <= songIndex < st.libraryCount && songIndex !in old(st.pathCacheIndices[..]) && r.None? ==>
      unchanged(st`pathCacheWritePos, st.pathCacheIndices, st.pathCacheValues)
    ensures 0 <= songIndex < st.libraryCount && songIndex !in old(st.pathCacheIndices[..]) && r.Some? ==>
      st.pathCacheIndices[..] == old(st.pathCacheIndices[..])[old(st.pathCacheWritePos) := songIndex]
      && st.pathCacheValues[..] == old(st.pathCacheValues[..])[old(st.pathCacheWritePos) := r.value]
      && st.pathCacheWritePos == (old(st.pathCacheWritePos) + 1) % FilePathCacheSize
    ensures old(st.Coherent(fs)) ==> st.Coherent(fs)
    ensures old(st.Coherent(fs)) && fs.catalog.Some? && 0 <= songIndex < st.libraryCount ==>
      r == Some(CatalogPaths(fs.catalog.value)[songIndex])
  {
    if songIndex < 0 || songIndex >= st.libraryCount {
      return None;
    }
    ghost var coherent := st.Coherent(fs) && fs.catalog.Some?;
    ghost var paths := if fs.catalog.Some? then CatalogPaths(fs.catalog.value) else [];
    var hit := FindCachedSlot(st, songIndex);
    if hit >= 0 {
      var value := st.pathCacheValues[hit];
      assert coherent ==> CacheAgrees(st.pathCacheIndices[..], st.pathCacheValues[..], paths, st.libraryCount);
      assert coherent ==> value == st.pathCacheValues[..][hit] == paths[songIndex];
      assert value != "" by {
        assert CacheSlotsOk(st.pathCacheIndices[..], st.pathCacheValues[..], st.libraryCount);
        assert st.pathCacheIndices[..][hit] == songIndex;
      }
      return if |value| > 0 then Some(value) else None;
    }
    if coherent {
      assert st.libraryOffsets[songIndex] == st.libraryOffsets[..st.libraryCount][songIndex];
      RecordedOffsetReadsPath(fs, songIndex);
    }
    if fs.catalog.None? {
      return None;
    }
    var offset := st.libraryOffsets[songIndex];
    if !SeekOk(fs.catalog.value, offset) {
      return None;
    }
    var line := Trim(ReadLineAt(fs.catalog.value, 0, offset));
    if |line| == 0 {
      return None;
    }
    assert ReadCatalogLine(fs, offset) == Some(line);
    StoreInCache(fs, st, songIndex, line);
    r := Some(line);
  }

  /** The cache probe of `readPathBySongIndex`: the first slot holding the id, or -1. */
  method FindCachedSlot(st: AppState, songIndex: int) returns (slot: int)
    requires st.Shape()
    ensures slot == FirstIndexOf(st.pathCacheIndices[..], songIndex)
  {
    var i := 0;
    while i < FilePathCacheSize
      invariant 0 <= i <= FilePathCacheSize
      invariant songIndex !in st.pathCacheIndices[..i]
    {
      if st.pathCacheIndices[i] == songIndex {
        FirstIndexOfUnique(st.pathCacheIndices[..], songIndex, i);
        return i;
      }
      i := i + 1;
    }
    assert st.pathCacheIndices[..] == st.pathCacheIndices[..i];
    return -1;
  }

  /**
   * The fill step of a cache miss: the id and its path go into the slot at
   * the write cursor, which moves on by one. Storing an id the cache lacks
   * keeps ids distinct; storing the catalog's own path keeps the cache
   * consistent with the catalog.
   */
  method StoreInCache(fs: Fs, st: AppState, songIndex: int, line: string)
    requires st.Valid() && 0 <= songIndex < st.libraryCount && line != ""
    requires songIndex !in st.pathCacheIndices[..]
    modifies st`pathCacheWritePos, st.pathCacheIndices, st.pathCacheValues
    ensures st.Valid()
    ensures st.pathCacheIndices[..] == old(st.pathCacheIndices[..])[old(st.pathCacheWritePos) := songIndex]
    ensures st.pathCacheValues[..] == old(st.pathCacheValues[..])[old(st.pathCacheWritePos) := line]
    ensures st.pathCacheWritePos == (old(st.pathCacheWritePos) + 1) % FilePathCacheSize
    ensures old(st.Coherent(fs)) && (fs.catalog.Some? ==> line == CatalogPaths(fs.catalog.value)[songIndex]) ==>
      st.Coherent(fs)
  {
    ghost var ids, values := st.pathCacheIndices[..], st.pathCacheValues[..];
    ghost var agrees := fs.catalog.Some? && st.Coherent(fs) && line == CatalogPaths(fs.catalog.value)[songIndex];
    ghost var paths := if fs.catalog.Some? then CatalogPaths(fs.catalog.value) else [];
    assert agrees ==> CacheAgrees(ids, values, paths, st.libraryCount) && st.libraryCount <= |paths|;
    var slot := st.pathCacheWritePos % FilePathCacheSize;
    assert slot == st.pathCacheWritePos;
    st.pathCacheIndices[slot] := songIndex;
    st.pathCacheValues[slot] := line;
    st.pathCacheWritePos := (slot + 1) % FilePathCacheSize;
    assert st.pathCacheIndices[..] == ids[slot := songIndex];
    assert st.pathCacheValues[..] == values[slot := line];
    StoreKeepsSlotsOk(ids, values, st.libraryCount, slot, songIndex, line);
    if agrees {
      StoreKeepsAgreement(ids, values, paths, st.libraryCount, slot, songIndex);
    }
  }

  /** Filling a slot with an id no slot holds, and a non-empty path, keeps the slots well formed. */
  lemma {:induction false} StoreKeepsSlotsOk(ids: seq<int>, values: seq<string>, libraryCount: int, slot: nat, id: int, line: string)
    requires CacheSlotsOk(ids, values, libraryCount) && slot < |ids| && id !in ids && line != ""
    ensures CacheSlotsOk(ids[slot := id], values[slot := line], libraryCount)
  {
    var ids', values' := ids[slot := id], values[slot := line];
    ValidIdsDistinctMeans(ids, libraryCount);
    ValidIdsDistinctMeans(ids', libraryCount);
    forall i, j | 0 <= i < j < |ids'| && 0 <= ids'[i] < libraryCount
      ensures ids'[i] != ids'[j]
    {
      if i == slot {
        assert ids[j] in ids;
      } else if j == slot {
        assert ids[i] in ids;
      }
    }
  }

  /** Filling a slot with an id and that id's own path keeps the cache in agreement with the catalog. */
  lemma {:induction false} StoreKeepsAgreement(ids: seq<int>, values: seq<string>, paths: seq<string>, libraryCount: int, slot: nat, id: int)
    requires |ids| == |values| && libraryCount <= |paths| && slot < |ids| && 0 <= id < libraryCount
    requires CacheAgrees(ids, values, paths, libraryCount)
    ensures CacheAgrees(ids[slot := id], values[slot := paths[id]], paths, libraryCount)
  {
  }

  /**
   * `findSongIndexByPath`: the smallest song id whose path equals the
   * target, or -1; an empty target is never found. Lookups may fill the
   * path cache but keep it consistent with the catalog.
   */
  method FindSongIndexByPath(fs: Fs, st: AppState, targetPath: string) returns (r: int)
    requires st.Valid()
    modifies st`pathCacheWritePos, st.pathCacheIndices, st.pathCacheValues
    ensures st.Valid()
    ensures -1 <= r < st.libraryCount
    ensures targetPath == "" ==> r == -1
    ensures old(st.Coherent(fs)) ==> st.Coherent(fs)
    ensures old(st.Coherent(fs)) && fs.catalog.Some? ==>
      r == FirstIndexOf(CatalogPaths(fs.catalog.value)[..st.libraryCount], targetPath)
  {
    if |targetPath| == 0 {
      if fs.catalog.Some? {
        CatalogPathsAreTrimmed(fs.catalog.value);
      }
      return -1;
    }
    ghost var coherent := st.Coherent(fs) && fs.catalog.Some?;
    ghost var named: seq<string> := [];
    if coherent {
      named := CatalogPaths(fs.catalog.value)[..st.libraryCount];
    }
    var i := 0;
    while i < st.libraryCount
      invariant 0 <= i <= st.libraryCount
      invariant st.Valid()
      invariant coherent ==> st.Coherent(fs) && targetPath !in named[..i]
    {
      var isTarget := SongPathIs(fs, st, i, targetPath);
      if isTarget {
        if coherent {
          FirstIndexOfUnique(named, targetPath, i);
        }
        return i;
      }
      assert coherent ==> named[..i + 1] == named[..i] + [named[i]];
      i := i + 1;
    }
    assert coherent ==> named[..i] == named;
    return -1;
  }

  /** The test in the search loop of `findSongIndexByPath`: song `songIndex` resolves to the target path. */
  method SongPathIs(fs: Fs, st: AppState, songIndex: int, targetPath: string) returns (b: bool)
    requires st.Valid() && 0 <= songIndex < st.libraryCount
    modifies st`pathCacheWritePos, st.pathCacheIndices, st.pathCacheValues
    ensures st.Valid()
    ensures old(st.Coherent(fs)) ==> st.Coherent(fs)
    ensures old(st.Coherent(fs)) && fs.catalog.Some? ==> (b <==> CatalogPaths(fs.catalog.value)[songIndex] == targetPath)
  {
    var current := ReadPathBySongIndex(fs, st, songIndex);
    b := current.Some? && current.value == targetPath;
  }

  /**
   * `getPathByQueueIndex`: a queue position outside [0, fileCount) fails,
   * any other resolves the song id stored there.
   */
  method GetPathByQueueIndex(fs: Fs, st: AppState, queueIndex: int) returns (r: Option<string>)
    requires st.Valid()
    modifies st`pathCacheWritePos, st.pathCacheIndices, st.pathCacheValues
    ensures st.Valid()
    ensures !(0 <= queueIndex < st.fileCount) ==>
      r.None? && unchanged(st`pathCacheWritePos, st.pathCacheIndices, st.pathCacheValues)
    ensures old(st.Coherent(fs)) ==> st.Coherent(fs)
    ensures old(st.Coherent(fs)) && fs.catalog.Some? && 0 <= queueIndex < st.fileCount ==>
      r == Some(CatalogPaths(fs.catalog.value)[st.playbackQueue[queueIndex]])
  {
    if queueIndex < 0 || queueIndex >= st.fileCount {
      return None;
    }
    var songIndex := st.playbackQueue[queueIndex];
    r := ReadPathBySongIndex(fs, st, songIndex);
  }

  /**
   * `findQueueIndexByPath` (through `findQueueIndexByPathInternal`): the
   * first queue position whose song's path equals the target, or -1.
   */
  method FindQueueIndexByPath(fs: Fs, st: AppState, targetPath: string) returns (r: int)
    requires st.Valid()
    modifies st`pathCacheWritePos, st.pathCacheIndices, st.pathCacheValues
    ensures st.Valid()
    ensures -1 <= r < st.fileCount
    ensures targetPath == "" ==> r == -1
    ensures old(st.Coherent(fs)) ==> st.Coherent(fs)
    ensures old(st.Coherent(fs)) && fs.catalog.Some? ==>
      r == FirstIndexOf(QueuePaths(CatalogPaths(fs.catalog.value), st.playbackQueue[..st.fileCount]), targetPath)
  {
    if |targetPath| == 0 {
      if fs.catalog.Some? {
        CatalogPathsAreTrimmed(fs.catalog.value);
      }
      return -1;
    }
    ghost var coherent := st.Coherent(fs) && fs.catalog.Some?;
    ghost var queued: seq<string> := [];
    if coherent {
      queued := QueuePaths(CatalogPaths(fs.catalog.value), st.playbackQueue[..st.fileCount]);
    }
    var q := 0;
    while q < st.fileCount
      invariant 0 <= q <= st.fileCount
      invariant st.Valid()
      invariant coherent ==> st.Coherent(fs) && targetPath !in queued[..q]
    {
      var isTarget := QueuePathIs(fs, st, q, targetPath);
      if isTarget {
        if coherent {
          FirstIndexOfUnique(queued, targetPath, q);
        }
        return q;
      }
      assert coherent ==> queued[..q + 1] == queued[..q] + [queued[q]];
      q := q + 1;
    }
    assert coherent ==> queued[..q] == queued;
    return -1;
  }

  /** The test in the search loop of `findQueueIndexByPathInternal`: queue position q resolves to the target path. */
  method QueuePathIs(fs: Fs, st: AppState, q: int, targetPath: string) returns (b: bool)
    requires st.Valid() && 0 <= q < st.fileCount
    modifies st`pathCacheWritePos, st.pathCacheIndices, st.pathCacheValues
    ensures st.Valid()
    ensures old(st.Coherent(fs)) ==> st.Coherent(fs)
    ensures old(st.Coherent(fs)) && fs.catalog.Some? ==>
      (b <==> CatalogPaths(fs.catalog.value)[st.playbackQueue[q]] == targetPath)
  {
    var current := GetPathByQueueIndex(fs, st, q);
    b := current.Some? && current.value == targetPath;
  }

  /**
   * `loadLibraryIndex`: the library is reset, then every non-blank catalog
   * line up to capacity gets the next song id and its start offset; the
   * queue becomes the identity over those ids with both cursors at 0 and
   * the cache empty. The result is true exactly when a song was loaded.
   * Everything this sets is a function of the catalog alone, so loading
   * an unchanged catalog twice gives the same state.
   */
  method LoadLibraryIndex(fs: Fs, st: AppState) returns (ok: bool)
    requires st.Shape()
    modifies st`libraryCount, st`fileCount, st`currentSelectedIndex, st`currentPlayingIndex
    modifies st`queueDirectory, st.libraryOffsets, st.playbackQueue
    modifies st`pathCacheWritePos, st.pathCacheIndices, st.pathCacheValues
    modifies st`browserEntryCount, st`browserMode, st`browserCurrentDir
    modifies st.browserEntryIsDir, st.browserEntrySongIndex, st.browserEntryName, st.browserEntryPath
    ensures st.Valid() && st.Coherent(fs)
    ensures st.libraryCount == (if fs.catalog.Some? then Min(MaxLibraryFiles, |CatalogPaths(fs.catalog.value)|) else 0)
    ensures forall k :: 0 <= k < MaxLibraryFiles ==>
      st.libraryOffsets[k] == if k < st.libraryCount then LineOffsets(fs.catalog.value, 0)[k] else 0
    ensures st.fileCount == st.libraryCount
    ensures forall k :: 0 <= k < MaxLibraryFiles ==> st.playbackQueue[k] == if k < st.libraryCount then k else 0
    ensures st.queueDirectory == MusicDir && st.currentSelectedIndex == 0 && st.currentPlayingIndex == 0
    ensures st.pathCacheWritePos == 0
    ensures forall i :: 0 <= i < FilePathCacheSize ==> st.pathCacheIndices[i] == -1 && st.pathCacheValues[i] == ""
    ensures st.browserEntryCount == 0 && !st.browserMode && st.browserCurrentDir == MusicDir
    ensures st.BrowserSlotsCleared(0)
    ensures ok <==> st.libraryCount > 0
  {
    st.ResetLibraryState();
    if fs.catalog.None? {
      return false;
    }
    NumberCatalogLines(fs.catalog.value, st);
    assert st.libraryOffsets[..st.libraryCount] == LineOffsets(fs.catalog.value, 0)[..st.libraryCount];
    RebuildQueueFromLibrary(st);
    st.ResetPathCache();
    assert CacheAgrees(st.pathCacheIndices[..], st.pathCacheValues[..], CatalogPaths(fs.catalog.value), st.libraryCount);
    ok := st.fileCount > 0;
  }

  /**
   * The loading loop of `loadLibraryIndex`, from an empty index: each
   * non-blank line, up to capacity, gets the next song id and the position
   * at which it starts.
   */
  method NumberCatalogLines(lines: seq<string>, st: AppState)
    requires st.Shape() && st.libraryCount == 0
    requires forall k :: 0 <= k < MaxLibraryFiles ==> st.libraryOffsets[k] == 0
    modifies st`libraryCount, st.libraryOffsets
    ensures st.libraryCount == Min(MaxLibraryFiles, |CatalogPaths(lines)|)
    ensures forall k :: 0 <= k < MaxLibraryFiles ==>
      st.libraryOffsets[k] == if k < st.libraryCount then LineOffsets(lines, 0)[k] else 0
  {
    var position: nat := 0;
    var i := 0;
    assert lines[..0] == [];
    // `available()` holds while bytes remain, that is while lines remain
    while i < |lines| && st.libraryCount < MaxLibraryFiles
      invariant 0 <= i <= |lines|
      invariant position == TextSize(lines[..i])
      invariant NumberedUpTo(lines, i, st)
    {
      position := NumberLine(lines, i, position, st);
      i := i + 1;
    }
    assert i == |lines| ==> lines[..i] == lines;
  }

  /**
   * The loader's state after the first i lines: the non-blank ones among
   * them are numbered, with their start offsets, and later slots are zero.
   */
  ghost predicate NumberedUpTo(lines: seq<string>, i: nat, st: AppState)
    requires i <= |lines| && st.Shape()
    reads st`libraryCount, st.libraryOffsets
  {
    && st.libraryCount == |CatalogPaths(lines[..i])| <= |CatalogPaths(lines)|
    && st.libraryCount <= MaxLibraryFiles
    && (forall k :: 0 <= k < st.libraryCount ==> st.libraryOffsets[k] == LineOffsets(lines, 0)[k])
    && (forall k :: st.libraryCount <= k < MaxLibraryFiles ==> st.libraryOffsets[k] == 0)
  }

  /** One pass of the loading loop: read line i at `position`, and number it unless it is blank. */
  method NumberLine(lines: seq<string>, i: nat, position: nat, st: AppState) returns (next: nat)
    requires i < |lines| && st.Shape() && st.libraryCount < MaxLibraryFiles
    requires position == TextSize(lines[..i]) && NumberedUpTo(lines, i, st)
    modifies st`libraryCount, st.libraryOffsets
    ensures next == TextSize(lines[..i + 1]) && NumberedUpTo(lines, i + 1, st)
  {
    var offset := position;
    var line := Trim(lines[i]);
    LoaderStep(lines, i);
    EntryLineIsNotBlank(lines[i]);
    next := position + |lines[i]| + 1;
    if |line| == 0 {
      return;
    }
    st.libraryOffsets[st.libraryCount] := offset;
    st.libraryCount := st.libraryCount + 1;
  }

  /**
   * The end-to-end property of a rebuild: the catalog the scan writes,
   * read back by the loader, names exactly the first MAX_LIBRARY_FILES
   * audio files of the directory tree, in enumeration order.
   */
  lemma {:induction false} RebuiltCatalogNamesScannedFiles(fs: Fs, dir: string, levels: nat)
    requires StartsWith(dir, "/")
    ensures CatalogPaths(PrintedCatalog(ScanDir(fs, dir, levels, MaxLibraryFiles)))
      == Take(AllAudio(fs, dir, levels), MaxLibraryFiles)
  {
    var paths := ScanDir(fs, dir, levels, MaxLibraryFiles);
    ScanWritesOnlyAudio(fs, dir, levels, MaxLibraryFiles);
    forall k | 0 <= k < |paths|
      ensures paths[k] != "" && IsTrimmed(paths[k])
    {
      assert paths[k] in paths;
      SupportedAbsolutePathIsTrimmed(paths[k]);
    }
    PrintedCatalogRoundTrip(paths);
    ScanIsPrefixOfAllAudio(fs, dir, levels, MaxLibraryFiles);
  }

  /**
   * `rebuildLibraryIndex`: the old catalog is removed; when a new one
   * cannot be created (`created` false) the call fails and the in-memory
   * index is left as it was. Otherwise the scan of the normalised directory
   * is written to the new catalog and loaded, so the song ids name the
   * first MAX_LIBRARY_FILES audio files below the directory.
   */
  method RebuildLibraryIndex(fs: Fs, dirname: Option<string>, levels: nat, st: AppState, created: bool)
    returns (ok: bool, fs': Fs)
    requires st.Shape()
    modifies st`libraryCount, st`fileCount, st`currentSelectedIndex, st`currentPlayingIndex
    modifies st`queueDirectory, st.libraryOffsets, st.playbackQueue
    modifies st`pathCacheWritePos, st.pathCacheIndices, st.pathCacheValues
    modifies st`browserEntryCount, st`browserMode, st`browserCurrentDir
    modifies st.browserEntryIsDir, st.browserEntrySongIndex, st.browserEntryName, st.browserEntryPath
    ensures fs'.listing == fs.listing
    ensures !created ==> !ok && fs'.catalog.None?
    ensures !created ==> unchanged(st, st.libraryOffsets, st.playbackQueue, st.pathCacheIndices, st.pathCacheValues)
    ensures !created ==> unchanged(st.browserEntryIsDir, st.browserEntrySongIndex, st.browserEntryName, st.browserEntryPath)
    ensures created ==> fs'.catalog == Some(PrintedCatalog(ScanDir(fs, NormalizeDir(dirname), levels, MaxLibraryFiles)))
    ensures created ==> st.Valid() && st.Coherent(fs')
    ensures created ==> CatalogPaths(fs'.catalog.value) == Take(AllAudio(fs, NormalizeDir(dirname), levels), MaxLibraryFiles)
    ensures created ==> st.libraryCount == st.fileCount == |CatalogPaths(fs'.catalog.value)|
    ensures created ==> forall k :: 0 <= k < st.fileCount ==> st.playbackQueue[k] == k
    ensures created ==> st.queueDirectory == MusicDir && st.currentSelectedIndex == 0 && st.currentPlayingIndex == 0
    ensures created ==> (ok <==> st.libraryCount > 0)
  {
    var dir := NormalizeDir(dirname);
    fs' := fs.(catalog := None);
    if !created {
      return false, fs';
    }
    var written, songCount := ScanDirectoryToIndex(fs, dir, levels, 0);
    fs' := fs'.(catalog := Some(written));
    RebuiltCatalogNamesScannedFiles(fs, dir, levels);
    ok := LoadLibraryIndex(fs', st);
  }
}
