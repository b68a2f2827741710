/**
 * The library, queue, path-cache, browser, playback and ID3 parts of the
 * firmware's central `AppState` record (include/app_state.hpp), with the
 * reset helpers the header defines on it.
 *
 * The fixed-size C arrays are Dafny arrays held in `const` fields; their
 * lengths are the configured capacities (`Shape`). The record's invariants
 * are split by the fields they read, so that an operation touching only the
 * queue does not have to re-establish facts about the browser.
 */
module App {
  import opened Wrappers
  import opened Config
  import opened Strings
  import opened Storage

  /** The playback mode; only its default, sequential play, matters here. */
  datatype PlaybackMode = Sequential | OtherMode(ordinal: nat)

  function Min(a: int, b: int): int {
    if a <= b then a else b
  }

  /**
   * Slot contents of a path cache over `libraryCount` songs: as many paths
   * as ids, a valid id's path is never empty, and no valid id is in two slots.
   */
  ghost predicate CacheSlotsOk(ids: seq<int>, values: seq<string>, libraryCount: int) {
    && |ids| == |values|
    && (forall i :: 0 <= i < |ids| && 0 <= ids[i] < libraryCount ==> values[i] != "")
    && ValidIdsDistinct(ids, libraryCount)
  }

  /** The id cache slot `i` holds. */
  ghost function SlotId(ids: seq<int>, i: int): int
    requires 0 <= i < |ids|
  {
    ids[i]
  }

  /**
   * No valid song id (one in [0, libraryCount)) is held by two slots. The
   * statement is over `SlotId` so that the solver only pairs up slots a
   * proof names; `ValidIdsDistinctMeans` gives it over the sequence itself.
   */
  ghost predicate ValidIdsDistinct(ids: seq<int>, libraryCount: int) {
    forall i, j :: 0 <= i < j < |ids| && 0 <= SlotId(ids, i) < libraryCount ==> SlotId(ids, i) != SlotId(ids, j)
  }

  lemma {:induction false} ValidIdsDistinctMeans(ids: seq<int>, libraryCount: int)
    ensures ValidIdsDistinct(ids, libraryCount)
      <==> forall i, j :: 0 <= i < j < |ids| && 0 <= ids[i] < libraryCount ==> ids[i] != ids[j]
  {
    assert forall i :: 0 <= i < |ids| ==> SlotId(ids, i) == ids[i];
  }

  /** The song id at queue position `p`. */
  ghost function QueueId(ids: seq<nat>, p: int): nat
    requires 0 <= p < |ids|
  {
    ids[p]
  }

  /** Song ids in strictly increasing order, stated over `QueueId` for the same reason as `ValidIdsDistinct`. */
  ghost predicate IdsIncrease(ids: seq<nat>) {
    forall p, q :: 0 <= p < q < |ids| ==> QueueId(ids, p) < QueueId(ids, q)
  }

  lemma {:induction false} IdsIncreaseMeans(ids: seq<nat>)
    ensures IdsIncrease(ids) <==> forall p, q :: 0 <= p < q < |ids| ==> ids[p] < ids[q]
  {
    assert forall p :: 0 <= p < |ids| ==> QueueId(ids, p) == ids[p];
  }

  /** Every slot holding a valid id holds that id's catalog path. */
  ghost predicate CacheAgrees(ids: seq<int>, values: seq<string>, paths: seq<string>, libraryCount: int)
    requires |ids| == |values| && libraryCount <= |paths|
  {
    forall i :: 0 <= i < |ids| && 0 <= ids[i] < libraryCount ==> values[i] == paths[ids[i]]
  }

  class AppState {
    // Playback state
    var currentSelectedIndex: int
    var currentPlayingIndex: int
    var volume: int
    var isPlaying: bool
    var stopped: bool
    var playMode: PlaybackMode

    // List scrolling
    var lastSelectedIndex: int
    var selectedScrollPos: int

    // ID3 metadata; the cover buffer is None where the firmware holds a null pointer
    var id3Title: string
    var id3Artist: string
    var id3Album: string
    var id3Year: string
    var id3ContentType: string
    var id3CoverPos: nat
    var id3CoverLen: nat
    var id3CoverBuf: Option<seq<bv8>>
    var id3CoverSize: nat

    /** A pending request to switch tracks. */
    var nextS: int

    // Indexed library and playback queue
    const libraryOffsets: array<nat>
    const playbackQueue: array<nat>
    var libraryCount: int
    var fileCount: int
    const pathCacheIndices: array<int>
    const pathCacheValues: array<string>
    var pathCacheWritePos: int
    var queueDirectory: string

    // Folder browser
    var browserMode: bool
    var browserCurrentDir: string
    const browserEntryIsDir: array<bool>
    const browserEntrySongIndex: array<int>
    const browserEntryName: array<string>
    const browserEntryPath: array<string>
    var browserEntryCount: int

    /** The arrays have their configured capacities and are pairwise distinct. */
    predicate Shape() {
      && libraryOffsets.Length == MaxLibraryFiles
      && playbackQueue.Length == MaxLibraryFiles
      && pathCacheIndices.Length == FilePathCacheSize
      && pathCacheValues.Length == FilePathCacheSize
      && browserEntryIsDir.Length == MaxBrowserEntries
      && browserEntrySongIndex.Length == MaxBrowserEntries
      && browserEntryName.Length == MaxBrowserEntries
      && browserEntryPath.Length == MaxBrowserEntries
      && libraryOffsets != playbackQueue
      && pathCacheIndices != browserEntrySongIndex
      && pathCacheValues != browserEntryName
      && pathCacheValues != browserEntryPath
      && browserEntryName != browserEntryPath
    }

    /**
     * The queue holds `fileCount` song ids, each naming a catalog entry,
     * strictly increasing (catalog order, no repeats).
     */
    ghost predicate QueueOk()
      reads this`libraryCount, this`fileCount, playbackQueue
    {
      && 0 <= fileCount <= libraryCount <= MaxLibraryFiles
      && fileCount <= playbackQueue.Length
      && (forall q :: 0 <= q < fileCount ==> playbackQueue[q] < libraryCount)
      && IdsIncrease(playbackQueue[..fileCount])
    }

    /**
     * The path cache: the write cursor is a slot number, and no two slots
     * hold the same valid song id, whose cached path is never empty.
     */
    ghost predicate CacheOk()
      reads this`libraryCount, this`pathCacheWritePos, pathCacheIndices, pathCacheValues
    {
      && 0 <= pathCacheWritePos < FilePathCacheSize
      && CacheSlotsOk(pathCacheIndices[..], pathCacheValues[..], libraryCount)
    }

    ghost predicate BrowserOk()
      reads this`browserEntryCount
    {
      0 <= browserEntryCount <= MaxBrowserEntries
    }

    ghost predicate Valid()
      reads this`libraryCount, this`fileCount, this`pathCacheWritePos, this`browserEntryCount
      reads playbackQueue, pathCacheIndices, pathCacheValues
    {
      Shape() && QueueOk() && CacheOk() && BrowserOk()
    }

    /**
     * The in-memory index agrees with a catalog file `fs` holds: `libraryCount`
     * numbers its first non-blank lines up to capacity, each offset is the
     * start of that line, and each cached path is that id's catalog path.
     * With no catalog file there is nothing to agree with.
     */
    ghost predicate Coherent(fs: Fs)
      reads this`libraryCount, libraryOffsets, pathCacheIndices, pathCacheValues
    {
      fs.catalog.Some? ==>
        && libraryCount == Min(MaxLibraryFiles, |CatalogPaths(fs.catalog.value)|)
        && libraryCount <= libraryOffsets.Length
        && libraryOffsets[..libraryCount] == LineOffsets(fs.catalog.value, 0)[..libraryCount]
        && pathCacheIndices.Length == pathCacheValues.Length
        && CacheAgrees(pathCacheIndices[..], pathCacheValues[..], CatalogPaths(fs.catalog.value), libraryCount)
    }

    /** The default-initialised record. */
    constructor ()
      ensures Shape() && Valid()
      ensures currentSelectedIndex == 0 && currentPlayingIndex == 0
      ensures volume == 10 && isPlaying && !stopped && playMode == Sequential
      ensures lastSelectedIndex == -1 && selectedScrollPos == 8 && nextS == 0
      ensures id3Title == "" && id3Artist == "" && id3Album == "" && id3Year == "" && id3ContentType == ""
      ensures id3CoverPos == 0 && id3CoverLen == 0 && id3CoverBuf.None? && id3CoverSize == 0
      ensures libraryCount == 0 && fileCount == 0 && pathCacheWritePos == 0
      ensures queueDirectory == MusicDir
      ensures forall k :: 0 <= k < MaxLibraryFiles ==> libraryOffsets[k] == 0 && playbackQueue[k] == 0
      ensures forall i :: 0 <= i < FilePathCacheSize ==> pathCacheIndices[i] == 0 && pathCacheValues[i] == ""
      ensures !browserMode && browserCurrentDir == MusicDir && browserEntryCount == 0
      ensures forall e :: 0 <= e < MaxBrowserEntries ==>
        !browserEntryIsDir[e] && browserEntrySongIndex[e] == 0 && browserEntryName[e] == "" && browserEntryPath[e] == ""
      ensures fresh(libraryOffsets) && fresh(playbackQueue) && fresh(pathCacheIndices) && fresh(pathCacheValues)
      ensures fresh(browserEntryIsDir) && fresh(browserEntrySongIndex) && fresh(browserEntryName) && fresh(browserEntryPath)
    {
      currentSelectedIndex := 0;
      currentPlayingIndex := 0;
      volume := 10;
      isPlaying := true;
      stopped := false;
      playMode := Sequential;
      lastSelectedIndex := -1;
      selectedScrollPos := 8;
      id3Title, id3Artist, id3Album, id3Year, id3ContentType := "", "", "", "", "";
      id3CoverPos, id3CoverLen, id3CoverBuf, id3CoverSize := 0, 0, None, 0;
      nextS := 0;
      libraryOffsets := new nat[MaxLibraryFiles](_ => 0);
      playbackQueue := new nat[MaxLibraryFiles](_ => 0);
      libraryCount := 0;
      fileCount := 0;
      pathCacheIndices := new int[FilePathCacheSize](_ => 0);
      pathCacheValues := new string[FilePathCacheSize](_ => "");
      pathCacheWritePos := 0;
      queueDirectory := MusicDir;
      browserMode := false;
      browserCurrentDir := MusicDir;
      browserEntryIsDir := new bool[MaxBrowserEntries](_ => false);
      browserEntrySongIndex := new int[MaxBrowserEntries](_ => 0);
      browserEntryName := new string[MaxBrowserEntries](_ => "");
      browserEntryPath := new string[MaxBrowserEntries](_ => "");
      browserEntryCount := 0;
    }

    /**
     * `resetPathCache`: every slot becomes (-1, "") and the write cursor 0,
     * so no song id can hit the cache afterwards.
     */
    method ResetPathCache()
      requires Shape()
      modifies this`pathCacheWritePos, pathCacheIndices, pathCacheValues
      ensures pathCacheWritePos == 0
      ensures forall i :: 0 <= i < FilePathCacheSize ==> pathCacheIndices[i] == -1 && pathCacheValues[i] == ""
    {
      pathCacheWritePos := 0;
      for i := 0 to FilePathCacheSize
        modifies pathCacheIndices, pathCacheValues
        invariant forall j :: 0 <= j < i ==> pathCacheIndices[j] == -1 && pathCacheValues[j] == ""
      {
        pathCacheIndices[i] := -1;
        pathCacheValues[i] := "";
      }
    }

    /**
     * `resetBrowserEntries`: an empty listing of MUSIC_DIR with the browser
     * closed, and every slot cleared.
     */
    method ResetBrowserEntries()
      requires Shape()
      modifies this`browserEntryCount, this`browserMode, this`browserCurrentDir
      modifies browserEntryIsDir, browserEntrySongIndex, browserEntryName, browserEntryPath
      ensures browserEntryCount == 0 && !browserMode && browserCurrentDir == MusicDir
      ensures BrowserSlotsCleared(0)
    {
      browserEntryCount := 0;
      browserMode := false;
      browserCurrentDir := MusicDir;
      for i := 0 to MaxBrowserEntries
        modifies browserEntryIsDir, browserEntrySongIndex, browserEntryName, browserEntryPath
        invariant forall e :: 0 <= e < i ==>
          !browserEntryIsDir[e] && browserEntrySongIndex[e] == -1 && browserEntryName[e] == "" && browserEntryPath[e] == ""
      {
        browserEntryIsDir[i] := false;
        browserEntrySongIndex[i] := -1;
        browserEntryName[i] := "";
        browserEntryPath[i] := "";
      }
    }

    /** Browser slots from `from` on hold the cleared entry (not a directory, song -1, no name, no path). */
    ghost predicate BrowserSlotsCleared(from: int)
      reads browserEntryIsDir, browserEntrySongIndex, browserEntryName, browserEntryPath
      requires Shape()
    {
      forall e :: 0 <= from <= e < MaxBrowserEntries ==>
        !browserEntryIsDir[e] && browserEntrySongIndex[e] == -1 && browserEntryName[e] == "" && browserEntryPath[e] == ""
    }

    /**
     * `resetLibraryState`: an empty library and queue scoped to MUSIC_DIR,
     * every offset and queue slot zero, cursors at 0, and the path cache
     * and the browser reset. Playback flags, mode, volume and the pending
     * track switch are not touched (they are outside the frame).
     */
    method ResetLibraryState()
      requires Shape()
      modifies this`libraryCount, this`fileCount, this`currentSelectedIndex, this`currentPlayingIndex
      modifies this`queueDirectory, libraryOffsets, playbackQueue
      modifies this`pathCacheWritePos, pathCacheIndices, pathCacheValues
      modifies this`browserEntryCount, this`browserMode, this`browserCurrentDir
      modifies browserEntryIsDir, browserEntrySongIndex, browserEntryName, browserEntryPath
      ensures libraryCount == 0 && fileCount == 0
      ensures currentSelectedIndex == 0 && currentPlayingIndex == 0
      ensures queueDirectory == MusicDir
      ensures forall k :: 0 <= k < MaxLibraryFiles ==> libraryOffsets[k] == 0 && playbackQueue[k] == 0
      ensures pathCacheWritePos == 0
      ensures forall i :: 0 <= i < FilePathCacheSize ==> pathCacheIndices[i] == -1 && pathCacheValues[i] == ""
      ensures browserEntryCount == 0 && !browserMode && browserCurrentDir == MusicDir
      ensures BrowserSlotsCleared(0)
      ensures Valid()
    {
      libraryCount := 0;
      fileCount := 0;
      currentSelectedIndex := 0;
      currentPlayingIndex := 0;
      queueDirectory := MusicDir;
      for i := 0 to MaxLibraryFiles
        modifies libraryOffsets, playbackQueue
        invariant forall k :: 0 <= k < i ==> libraryOffsets[k] == 0 && playbackQueue[k] == 0
      {
        libraryOffsets[i] := 0;
        playbackQueue[i] := 0;
      }
      ResetPathCache();
      ResetBrowserEntries();
    }

    /**
     * `resetID3Metadata`: the five tag strings and the cover position and
     * length are cleared; a held cover buffer is released and its size
     * zeroed, while with no buffer the recorded size is left alone. The
     * post-state is therefore a fixed point: a second call changes nothing.
     */
    method ResetID3Metadata()
      modifies this`id3Title, this`id3Artist, this`id3Album, this`id3Year, this`id3ContentType
      modifies this`id3CoverPos, this`id3CoverLen, this`id3CoverBuf, this`id3CoverSize
      ensures id3Title == "" && id3Artist == "" && id3Album == "" && id3Year == "" && id3ContentType == ""
      ensures id3CoverPos == 0 && id3CoverLen == 0 && id3CoverBuf.None?
      ensures id3CoverSize == if old(id3CoverBuf).Some? then 0 else old(id3CoverSize)
    {
      id3Title := "";
      id3Artist := "";
      id3Album := "";
      id3Year := "";
      id3ContentType := "";
      id3CoverPos := 0;
      id3CoverLen := 0;
      if id3CoverBuf.Some? {
        id3CoverBuf := None;
        id3CoverSize := 0;
      }
    }
  }
}
