/**
 * The deletion coordinator (`deleteCurrentFile` in src/file_manager.cpp):
 * remove the selected song's file, rebuild the catalog and the queue, and
 * repair the selection and playing cursors, keyed by path rather than by
 * song id since ids are renumbered by the rebuild.
 */
module Deletion {
  import opened Wrappers
  import opened Strings
  import opened Config
  import opened FilePaths
  import opened Storage
  import opened LibraryScan
  import opened App
  import opened LibraryIndex
  import opened PlaybackQueue

  /** Which of the two optional callbacks the caller installed. */
  datatype Callbacks = Callbacks(resetClock: bool, onFileDeleted: bool)

  /** A callback invocation, in the order the coordinator makes them. */
  datatype Event = ResetClock | FileDeleted(deletedIndex: int, newPlayingIndex: int)

  /** The children of `dir` once the file at `path` is removed. */
  function WithoutFile(dir: string, children: seq<DirEntry>, path: string): (r: seq<DirEntry>)
    ensures forall c :: c in r ==> c in children && (c.isDir || BuildEntryPath(dir, Some(c.name)) != path)
    ensures forall c :: c in children && (c.isDir || BuildEntryPath(dir, Some(c.name)) != path) ==> c in r
  {
    if children == [] then []
    else
      var c := children[0];
      (if !c.isDir && BuildEntryPath(dir, Some(c.name)) == path then [] else [c]) + WithoutFile(dir, children[1..], path)
  }

  /** The file system after `fs.remove(path)` succeeded: no directory lists that file any more. */
  function RemoveFile(fs: Fs, path: string): Fs {
    fs.(listing := map d | d in fs.listing :: WithoutFile(d, fs.listing[d], path))
  }

  /** A removed file is listed nowhere, while every other entry stays listed. */
  lemma {:induction false} RemoveFileUnlists(fs: Fs, path: string)
    ensures !FileListed(RemoveFile(fs, path), path)
    ensures forall p :: p != path && FileListed(fs, p) ==> FileListed(RemoveFile(fs, path), p)
  {
    var after := RemoveFile(fs, path);
    forall p | p != path && FileListed(fs, p)
      ensures FileListed(after, p)
    {
      var d :| d in fs.listing && ListsFile(d, fs.listing[d], p);
      var c :| c in fs.listing[d] && !c.isDir && BuildEntryPath(d, Some(c.name)) == p;
      assert c in after.listing[d];
    }
  }

  /** A rescan of a file system that lists no file at `path` does not catalog it. */
  lemma {:induction false} UnlistedNotScanned(fs: Fs, path: string, dir: string, levels: nat, n: nat)
    requires !FileListed(fs, path)
    ensures path !in Take(AllAudio(fs, dir, levels), n)
  {
    if path in Take(AllAudio(fs, dir, levels), n) {
      AllAudioIsListed(fs, dir, levels, path);
    }
  }

  /** `i` clamped into [0, n), testing the upper bound first as the source does. */
  function Clamp(i: int, n: int): (r: int)
    requires n > 0
    ensures 0 <= r < n
    ensures 0 <= i < n ==> r == i
  {
    if i >= n then n - 1 else if i < 0 then 0 else i
  }

  /** The queue the fallback chain ends with: the scope before the delete, else the music directory, else the root. */
  function FallbackQueue(paths: seq<string>, scopeDir: string): seq<nat> {
    var scoped := ScopedIds(paths, NormalizeDir(Some(scopeDir)));
    if scoped != [] then scoped
    else
      var music := ScopedIds(paths, NormalizeDir(Some(MusicDir)));
      if music != [] then music else ScopedIds(paths, NormalizeDir(Some("/")))
  }

  /** The fallback chain ends with an empty queue only when there are no (absolute) songs at all. */
  lemma {:induction false} FallbackQueueNonEmpty(paths: seq<string>, scopeDir: string)
    requires paths != [] && forall k :: 0 <= k < |paths| ==> StartsWith(paths[k], "/")
    ensures FallbackQueue(paths, scopeDir) != []
  {
    assert NormalizeDir(Some("/")) == "/";
    RootAdmitsEveryAbsolutePath(paths[0]);
    ScopedIdsMembership(paths, "/", 0);
  }

  /**
   * The state a successful load leaves: both cursors on 0, and the queue,
   * if not empty, starting with song 0.
   */
  ghost predicate FreshStart(st: AppState)
    reads st`currentSelectedIndex, st`currentPlayingIndex, st`fileCount, st.playbackQueue
    requires st.Shape()
  {
    st.currentSelectedIndex == 0 && st.currentPlayingIndex == 0 && (0 < st.fileCount ==> st.playbackQueue[0] == 0)
  }

  /**
   * `buildQueueForDirectory` with no preferred song, from a fresh start:
   * the cursors stay on 0, and a failed build is a fresh start again.
   */
  method RequeueFromStart(fs: Fs, st: AppState, dir: string) returns (ok: bool)
    requires st.Valid()
    modifies st`fileCount, st.playbackQueue, st`queueDirectory, st`currentSelectedIndex, st`currentPlayingIndex
    modifies st`lastSelectedIndex, st`selectedScrollPos
    ensures st.Valid()
    ensures fs.catalog.None? ==> !ok && unchanged(st, st.playbackQueue)
    ensures fs.catalog.Some? ==>
      var paths := CatalogPaths(fs.catalog.value);
      var ids := ScopedIds(paths[..Min(st.libraryCount, |paths|)], NormalizeDir(Some(dir)));
      && st.playbackQueue[..st.fileCount] == ids
      && (ok <==> ids != [])
    ensures old(FreshStart(st)) && fs.catalog.Some? ==>
      st.currentSelectedIndex == 0 && st.currentPlayingIndex == 0 && (!ok ==> FreshStart(st))
  {
    ghost var wasFresh := FreshStart(st);
    ghost var playing := PlayingSong(st.playbackQueue[..], st.fileCount, st.currentPlayingIndex);
    assert wasFresh ==> playing == 0 || playing == -1;
    ok := BuildQueueForDirectory(fs, st, Some(dir), -1);
    if ok && wasFresh {
      IdsIncreaseMeans(st.playbackQueue[..st.fileCount]);
      SelectFirstSong(st.playbackQueue[..st.fileCount], playing);
    }
  }

  /**
   * The queue cascade of `deleteCurrentFile`: rebuild for the scope that
   * was active, falling back to the music directory and then the root.
   */
  method RequeueAfterDelete(fs: Fs, st: AppState, scopeDir: string)
    requires st.Valid()
    modifies st`fileCount, st.playbackQueue, st`queueDirectory, st`currentSelectedIndex, st`currentPlayingIndex
    modifies st`lastSelectedIndex, st`selectedScrollPos
    ensures st.Valid()
    ensures fs.catalog.None? ==> unchanged(st, st.playbackQueue)
    ensures fs.catalog.Some? ==>
      var paths := CatalogPaths(fs.catalog.value);
      st.playbackQueue[..st.fileCount] == FallbackQueue(paths[..Min(st.libraryCount, |paths|)], scopeDir)
    ensures old(FreshStart(st)) && fs.catalog.Some? ==> st.currentSelectedIndex == 0 && st.currentPlayingIndex == 0
  {
    var ok := RequeueFromStart(fs, st, scopeDir);
    if !ok {
      ok := RequeueFromStart(fs, st, MusicDir);
      if !ok {
        ok := RequeueFromStart(fs, st, "/");
      }
    }
  }

  /**
   * The catalog cascade of `deleteCurrentFile`: rebuild from the music
   * directory, and from the root when that leaves the queue empty. The
   * creation flags say whether each rebuild could create the catalog file.
   * The queue is not empty on entry, since `deleteCurrentFile` returns
   * early on an empty one.
   */
  method RebuildAfterDelete(fs: Fs, st: AppState, created1: bool, created2: bool) returns (fs': Fs)
    requires st.Valid() && st.fileCount > 0
    modifies st`libraryCount, st`fileCount, st`currentSelectedIndex, st`currentPlayingIndex
    modifies st`queueDirectory, st.libraryOffsets, st.playbackQueue
    modifies st`pathCacheWritePos, st.pathCacheIndices, st.pathCacheValues
    modifies st`browserEntryCount, st`browserMode, st`browserCurrentDir
    modifies st.browserEntryIsDir, st.browserEntrySongIndex, st.browserEntryName, st.browserEntryPath
    ensures st.Valid()
    ensures fs'.listing == fs.listing
    ensures !created1 ==> fs'.catalog.None? && unchanged(st, st.libraryOffsets, st.playbackQueue, st.pathCacheIndices, st.pathCacheValues)
    ensures created1 ==> st.Coherent(fs') && FreshStart(st)
    ensures created1 && fs'.catalog.None? ==> st.libraryCount == 0 && st.fileCount == 0
    ensures created1 && fs'.catalog.Some? ==>
      exists dir :: (dir == MusicDir || dir == "/") &&
        CatalogPaths(fs'.catalog.value) == Take(AllAudio(fs, NormalizeDir(Some(dir)), LibraryScanMaxDepth), MaxLibraryFiles)
  {
    var ok;
    ok, fs' := RebuildLibraryIndex(fs, Some(MusicDir), LibraryScanMaxDepth, st, created1);
    ghost var scanned := MusicDir;
    if st.fileCount == 0 {
      var retried;
      ok, retried := RebuildLibraryIndex(fs, Some("/"), LibraryScanMaxDepth, st, created2);
      if created2 {
        scanned := "/";
      }
      fs' := retried;
    }
    assert fs'.catalog.Some? ==>
      CatalogPaths(fs'.catalog.value) == Take(AllAudio(fs, NormalizeDir(Some(scanned)), LibraryScanMaxDepth), MaxLibraryFiles);
  }

  /** The remembered playing path found again in the rebuilt queue, else position 0. */
  function Relocate(queued: seq<string>, path: string): int {
    if path != "" && FirstIndexOf(queued, path) >= 0 then FirstIndexOf(queued, path) else 0
  }

  /**
   * The new playing position: the remembered path found again when another
   * song was playing and its path was known, otherwise the selection
   * (as the rebuild left it) clamped to the queue.
   */
  method NewPlayingIndex(fs: Fs, st: AppState, deletingPlaying: bool, playingPath: string) returns (newPlaying: int)
    requires st.Valid() && st.fileCount > 0
    modifies st`pathCacheWritePos, st.pathCacheIndices, st.pathCacheValues
    ensures st.Valid()
    ensures 0 <= newPlaying < st.fileCount
    ensures old(st.Coherent(fs)) ==> st.Coherent(fs)
    ensures deletingPlaying || playingPath == "" ==> newPlaying == Clamp(st.currentSelectedIndex, st.fileCount)
    ensures old(st.Coherent(fs)) && fs.catalog.Some? && !deletingPlaying && playingPath != "" ==>
      newPlaying == Relocate(QueuePaths(CatalogPaths(fs.catalog.value), st.playbackQueue[..st.fileCount]), playingPath)
  {
    if !deletingPlaying && |playingPath| > 0 {
      var found := FindQueueIndexByPath(fs, st, playingPath);
      newPlaying := if found >= 0 then found else 0;
    } else {
      newPlaying := Clamp(st.currentSelectedIndex, st.fileCount);
    }
  }

  /** The events of a repair that kept a non-empty queue. */
  function RepairEvents(callbacks: Callbacks, deletedQueueIndex: int, deletingPlaying: bool, newPlaying: int): seq<Event> {
    (if deletingPlaying && callbacks.resetClock then [ResetClock] else [])
    + (if callbacks.onFileDeleted then [FileDeleted(deletedQueueIndex, newPlaying)] else [])
  }

  /** Cursor, flag and callback updates once the queue is rebuilt. */
  method ApplyRepair(st: AppState, callbacks: Callbacks, deletedQueueIndex: int, deletingPlaying: bool, wasPlaying: bool,
                     newPlaying: int)
    returns (events: seq<Event>)
    requires st.Valid()
    modifies st`currentSelectedIndex, st`currentPlayingIndex, st`isPlaying, st`stopped, st`nextS
    ensures st.Valid()
    ensures st.fileCount <= 0 ==>
      !st.isPlaying && st.stopped && st.currentSelectedIndex == 0 && st.currentPlayingIndex == 0 && events == []
      && st.nextS == old(st.nextS)
    ensures st.fileCount > 0 ==>
      && st.currentPlayingIndex == newPlaying
      && st.currentSelectedIndex == (if deletingPlaying then newPlaying else Clamp(deletedQueueIndex, st.fileCount))
      && st.nextS == (if deletingPlaying then 1 else old(st.nextS))
      && (if deletingPlaying && wasPlaying then st.isPlaying && !st.stopped
          else st.isPlaying == old(st.isPlaying) && st.stopped == old(st.stopped))
      && events == RepairEvents(callbacks, deletedQueueIndex, deletingPlaying, newPlaying)
  {
    var selected, playingAt, running, halted, nextS := 0, 0, false, true, st.nextS;
    events := [];
    if st.fileCount > 0 {
      playingAt := newPlaying;
      selected := if deletingPlaying then newPlaying else Clamp(deletedQueueIndex, st.fileCount);
      running, halted := st.isPlaying, st.stopped;
      if deletingPlaying {
        nextS := 1;
        if wasPlaying {
          running, halted := true, false;
        }
      }
      events := RepairEvents(callbacks, deletedQueueIndex, deletingPlaying, newPlaying);
    }
    SetPlayback(st, selected, playingAt, running, halted, nextS);
  }

  /** Writes the cursors and the playback flags. */
  method SetPlayback(st: AppState, selected: int, playingAt: int, running: bool, halted: bool, nextS: int)
    requires st.Valid()
    modifies st`currentSelectedIndex, st`currentPlayingIndex, st`isPlaying, st`stopped, st`nextS
    ensures st.Valid()
    ensures st.currentSelectedIndex == selected && st.currentPlayingIndex == playingAt
    ensures st.isPlaying == running && st.stopped == halted && st.nextS == nextS
  {
    st.currentSelectedIndex, st.currentPlayingIndex := selected, playingAt;
    st.isPlaying, st.stopped, st.nextS := running, halted, nextS;
  }

  /**
   * Everything `deleteCurrentFile` does from the removal of `path` on: the
   * removal itself, the catalog cascade, the queue cascade for the scope
   * that was active, and the cursor repair.
   */
  method RepairAfterDelete(fs: Fs, st: AppState, callbacks: Callbacks, path: string, deletedQueueIndex: int,
                           deletingPlaying: bool, wasPlaying: bool, playingPath: string, created1: bool, created2: bool)
    returns (fs': Fs, events: seq<Event>)
    requires st.Valid() && st.fileCount > 0
    modifies st`libraryCount, st`fileCount, st`currentSelectedIndex, st`currentPlayingIndex, st`isPlaying, st`stopped
    modifies st`nextS, st`lastSelectedIndex, st`selectedScrollPos, st`queueDirectory, st.libraryOffsets, st.playbackQueue
    modifies st`pathCacheWritePos, st.pathCacheIndices, st.pathCacheValues
    modifies st`browserEntryCount, st`browserMode, st`browserCurrentDir
    modifies st.browserEntryIsDir, st.browserEntrySongIndex, st.browserEntryName, st.browserEntryPath
    ensures st.Valid()
    ensures fs'.listing == RemoveFile(fs, path).listing
    ensures !created1 ==> fs'.catalog.None?
    ensures created1 ==> st.Coherent(fs')
    ensures created1 && fs'.catalog.Some? ==>
      var paths := CatalogPaths(fs'.catalog.value);
      && (exists dir :: (dir == MusicDir || dir == "/") &&
            paths == Take(AllAudio(RemoveFile(fs, path), NormalizeDir(Some(dir)), LibraryScanMaxDepth), MaxLibraryFiles))
      && path !in paths
      && st.playbackQueue[..st.fileCount] == FallbackQueue(paths[..st.libraryCount], old(st.queueDirectory))
    ensures st.fileCount <= 0 ==>
      !st.isPlaying && st.stopped && st.currentSelectedIndex == 0 && st.currentPlayingIndex == 0 && events == []
    ensures st.fileCount > 0 ==>
      && 0 <= st.currentPlayingIndex < st.fileCount
      && st.currentSelectedIndex == (if deletingPlaying then st.currentPlayingIndex else Clamp(deletedQueueIndex, st.fileCount))
      && st.nextS == (if deletingPlaying then 1 else old(st.nextS))
      && (if deletingPlaying && wasPlaying then st.isPlaying && !st.stopped
          else st.isPlaying == old(st.isPlaying) && st.stopped == old(st.stopped))
      && events == RepairEvents(callbacks, deletedQueueIndex, deletingPlaying, st.currentPlayingIndex)
    ensures created1 && st.fileCount > 0 && (deletingPlaying || playingPath == "") ==> st.currentPlayingIndex == 0
    ensures created1 && fs'.catalog.Some? && st.fileCount > 0 && !deletingPlaying ==>
      PlayingRelocated(fs', st, playingPath)
  {
    RemoveFileUnlists(fs, path);
    fs' := CascadeAfterDelete(RemoveFile(fs, path), st, path, created1, created2);
    events := RepairCursors(fs', st, callbacks, deletedQueueIndex, deletingPlaying, wasPlaying, playingPath);
  }

  /**
   * The catalog cascade followed by the queue cascade for the scope that
   * was active, on a file system that no longer lists `path`.
   */
  method CascadeAfterDelete(fs: Fs, st: AppState, path: string, created1: bool, created2: bool) returns (fs': Fs)
    requires st.Valid() && st.fileCount > 0
    requires !FileListed(fs, path)
    modifies st`libraryCount, st`fileCount, st`currentSelectedIndex, st`currentPlayingIndex
    modifies st`lastSelectedIndex, st`selectedScrollPos, st`queueDirectory, st.libraryOffsets, st.playbackQueue
    modifies st`pathCacheWritePos, st.pathCacheIndices, st.pathCacheValues
    modifies st`browserEntryCount, st`browserMode, st`browserCurrentDir
    modifies st.browserEntryIsDir, st.browserEntrySongIndex, st.browserEntryName, st.browserEntryPath
    ensures st.Valid()
    ensures fs'.listing == fs.listing
    ensures !created1 ==> fs'.catalog.None?
    ensures created1 ==> st.Coherent(fs') && st.currentSelectedIndex == 0
    ensures created1 && fs'.catalog.Some? ==>
      var paths := CatalogPaths(fs'.catalog.value);
      && (exists dir :: (dir == MusicDir || dir == "/") &&
            paths == Take(AllAudio(fs, NormalizeDir(Some(dir)), LibraryScanMaxDepth), MaxLibraryFiles))
      && path !in paths
      && st.playbackQueue[..st.fileCount] == FallbackQueue(paths[..st.libraryCount], old(st.queueDirectory))
  {
    var scope := st.queueDirectory;
    fs' := RebuildAfterDelete(fs, st, created1, created2);
    RequeueAfterDelete(fs', st, scope);
    UnlistedNotScanned(fs, path, NormalizeDir(Some(MusicDir)), LibraryScanMaxDepth, MaxLibraryFiles);
    UnlistedNotScanned(fs, path, NormalizeDir(Some("/")), LibraryScanMaxDepth, MaxLibraryFiles);
  }

  /** The cursor repair once both cascades have run. */
  method RepairCursors(fs: Fs, st: AppState, callbacks: Callbacks, deletedQueueIndex: int, deletingPlaying: bool,
                       wasPlaying: bool, playingPath: string)
    returns (events: seq<Event>)
    requires st.Valid()
    modifies st`currentSelectedIndex, st`currentPlayingIndex, st`isPlaying, st`stopped, st`nextS
    modifies st`pathCacheWritePos, st.pathCacheIndices, st.pathCacheValues
    ensures st.Valid()
    ensures old(st.Coherent(fs)) ==> st.Coherent(fs)
    ensures st.fileCount <= 0 ==>
      !st.isPlaying && st.stopped && st.currentSelectedIndex == 0 && st.currentPlayingIndex == 0 && events == []
    ensures st.fileCount > 0 ==>
      && 0 <= st.currentPlayingIndex < st.fileCount
      && st.currentSelectedIndex == (if deletingPlaying then st.currentPlayingIndex else Clamp(deletedQueueIndex, st.fileCount))
      && st.nextS == (if deletingPlaying then 1 else old(st.nextS))
      && (if deletingPlaying && wasPlaying then st.isPlaying && !st.stopped
          else st.isPlaying == old(st.isPlaying) && st.stopped == old(st.stopped))
      && events == RepairEvents(callbacks, deletedQueueIndex, deletingPlaying, st.currentPlayingIndex)
    ensures old(st.currentSelectedIndex) == 0 && st.fileCount > 0 && (deletingPlaying || playingPath == "") ==>
      st.currentPlayingIndex == 0
    ensures old(st.Coherent(fs)) && fs.catalog.Some? && st.fileCount > 0 && !deletingPlaying && playingPath != "" ==>
      st.currentPlayingIndex
        == Relocate(QueuePaths(CatalogPaths(fs.catalog.value), st.playbackQueue[..st.fileCount]), playingPath)
  {
    var newPlaying := 0;
    if st.fileCount > 0 {
      newPlaying := NewPlayingIndex(fs, st, deletingPlaying, playingPath);
    }
    events := ApplyRepair(st, callbacks, deletedQueueIndex, deletingPlaying, wasPlaying, newPlaying);
  }

  /**
   * `deleteCurrentFile`: delete the selected song's file and repair the
   * library, the queue and the cursors. Whether `fs.remove` succeeds and
   * whether each catalog rebuild can create its file are parameters.
   * `deleted` is the removed path; it is `None` when there was nothing to
   * delete, its path could not be read, or the removal failed, and then
   * only the path cache may have changed.
   */
  method DeleteCurrentFile(fs: Fs, st: AppState, callbacks: Callbacks, removeOk: bool, created1: bool, created2: bool)
    returns (fs': Fs, deleted: Option<string>, events: seq<Event>)
    requires st.Valid()
    modifies st`libraryCount, st`fileCount, st`currentSelectedIndex, st`currentPlayingIndex, st`isPlaying, st`stopped
    modifies st`nextS, st`lastSelectedIndex, st`selectedScrollPos, st`queueDirectory, st.libraryOffsets, st.playbackQueue
    modifies st`pathCacheWritePos, st.pathCacheIndices, st.pathCacheValues
    modifies st`browserEntryCount, st`browserMode, st`browserCurrentDir
    modifies st.browserEntryIsDir, st.browserEntrySongIndex, st.browserEntryName, st.browserEntryPath
    ensures st.Valid()
    ensures !(0 <= old(st.currentSelectedIndex) < old(st.fileCount)) || !removeOk ==> deleted.None?
    ensures deleted.None? ==>
      && fs' == fs && events == []
      && unchanged(st`libraryCount, st`fileCount, st`currentSelectedIndex, st`currentPlayingIndex, st`isPlaying)
      && unchanged(st`stopped, st`nextS, st`lastSelectedIndex, st`selectedScrollPos, st`queueDirectory)
      && unchanged(st.libraryOffsets, st.playbackQueue, st`browserEntryCount, st`browserMode, st`browserCurrentDir)
      && unchanged(st.browserEntryIsDir, st.browserEntrySongIndex, st.browserEntryName, st.browserEntryPath)
    ensures old(st.Coherent(fs)) && fs.catalog.Some? && 0 <= old(st.currentSelectedIndex) < old(st.fileCount) && removeOk ==>
      deleted == Some(CatalogPaths(fs.catalog.value)[old(st.playbackQueue[st.currentSelectedIndex])])
    ensures deleted.Some? ==> fs'.listing == RemoveFile(fs, deleted.value).listing
    ensures deleted.Some? && !created1 ==> fs'.catalog.None?
    ensures deleted.Some? && created1 ==> st.Coherent(fs')
    ensures deleted.Some? && created1 && fs'.catalog.Some? ==>
      var paths := CatalogPaths(fs'.catalog.value);
      && deleted.value !in paths
      && st.playbackQueue[..st.fileCount] == FallbackQueue(paths[..st.libraryCount], old(st.queueDirectory))
    ensures deleted.Some? && st.fileCount <= 0 ==>
      !st.isPlaying && st.stopped && st.currentSelectedIndex == 0 && st.currentPlayingIndex == 0 && events == []
    ensures deleted.Some? && st.fileCount > 0 ==>
      var deletingPlaying := old(st.currentSelectedIndex) == old(st.currentPlayingIndex);
      && 0 <= st.currentSelectedIndex < st.fileCount
      && 0 <= st.currentPlayingIndex < st.fileCount
      && (deletingPlaying ==> st.currentSelectedIndex == st.currentPlayingIndex && st.nextS == 1)
      && (!deletingPlaying ==> st.currentSelectedIndex == Min(old(st.currentSelectedIndex), st.fileCount - 1))
      && st.nextS == (if deletingPlaying then 1 else old(st.nextS))
      && (if deletingPlaying && old(st.isPlaying && !st.stopped) then st.isPlaying && !st.stopped
          else st.isPlaying == old(st.isPlaying) && st.stopped == old(st.stopped))
      && events == RepairEvents(callbacks, old(st.currentSelectedIndex), deletingPlaying, st.currentPlayingIndex)
    ensures deleted.Some? && created1 && st.fileCount > 0 && old(st.currentSelectedIndex) == old(st.currentPlayingIndex) ==>
      st.currentSelectedIndex == 0 && st.currentPlayingIndex == 0
    ensures deleted.Some? && created1 && st.fileCount > 0 && !(0 <= old(st.currentPlayingIndex) < old(st.fileCount)) ==>
      st.currentPlayingIndex == 0
    ensures (old(st.Coherent(fs)) && fs.catalog.Some? && deleted.Some? && created1 && fs'.catalog.Some? && st.fileCount > 0
             && old(st.currentSelectedIndex) != old(st.currentPlayingIndex)) ==>
      PlayingRelocated(fs', st, old(PlayingPathBefore(fs, st)))
  {
    fs', deleted, events := fs, None, [];
    if st.fileCount == 0 || st.currentSelectedIndex < 0 || st.currentSelectedIndex >= st.fileCount {
      return;
    }
    var deletedQueueIndex := st.currentSelectedIndex;
    var deletingPlaying := deletedQueueIndex == st.currentPlayingIndex;
    var target, playingPath := ResolvePaths(fs, st, deletingPlaying);
    if target.None? || !removeOk {
      return;
    }
    var wasPlaying := st.isPlaying && !st.stopped;
    fs', events := RepairAfterDelete(fs, st, callbacks, target.value, deletedQueueIndex, deletingPlaying, wasPlaying,
                                     playingPath, created1, created2);
    deleted := target;
  }

  /**
   * The catalog path of the song playing before the delete, "" when the
   * playing cursor is out of the queue or there is no catalog to read.
   */
  ghost function PlayingPathBefore(fs: Fs, st: AppState): string
    reads st`libraryCount, st`fileCount, st`currentPlayingIndex, st`pathCacheWritePos, st`browserEntryCount
    reads st.playbackQueue, st.pathCacheIndices, st.pathCacheValues, st.libraryOffsets
    requires st.Valid()
  {
    if fs.catalog.Some? && st.Coherent(fs) && 0 <= st.currentPlayingIndex < st.fileCount
    then CatalogPaths(fs.catalog.value)[st.playbackQueue[st.currentPlayingIndex]]
    else ""
  }

  /**
   * The playing cursor stands where `path` is first found in the rebuilt
   * queue, or at 0 when `path` is "" or no longer queued.
   */
  ghost predicate PlayingRelocated(fs: Fs, st: AppState, path: string)
    reads st`libraryCount, st`fileCount, st`currentPlayingIndex, st`pathCacheWritePos, st`browserEntryCount
    reads st.playbackQueue, st.pathCacheIndices, st.pathCacheValues, st.libraryOffsets
    requires st.Valid()
  {
    && fs.catalog.Some? && st.Coherent(fs) && st.fileCount > 0
    && st.currentPlayingIndex == Relocate(QueuePaths(CatalogPaths(fs.catalog.value), st.playbackQueue[..st.fileCount]), path)
  }

  /**
   * The two reads `deleteCurrentFile` makes before removing anything: the
   * selected song's path, and the playing song's path ("" when it is the
   * song being deleted or cannot be read).
   */
  method ResolvePaths(fs: Fs, st: AppState, deletingPlaying: bool) returns (target: Option<string>, playingPath: string)
    requires st.Valid()
    modifies st`pathCacheWritePos, st.pathCacheIndices, st.pathCacheValues
    ensures st.Valid()
    ensures old(st.Coherent(fs)) ==> st.Coherent(fs)
    ensures !(0 <= st.currentSelectedIndex < st.fileCount) ==> target.None?
    ensures old(st.Coherent(fs)) && fs.catalog.Some? && 0 <= st.currentSelectedIndex < st.fileCount ==>
      target == Some(CatalogPaths(fs.catalog.value)[st.playbackQueue[st.currentSelectedIndex]])
    ensures deletingPlaying || target.None? || !(0 <= st.currentPlayingIndex < st.fileCount) ==> playingPath == ""
    ensures old(st.Coherent(fs)) && fs.catalog.Some? && target.Some? && !deletingPlaying && 0 <= st.currentPlayingIndex < st.fileCount ==>
      playingPath == CatalogPaths(fs.catalog.value)[st.playbackQueue[st.currentPlayingIndex]]
    ensures old(st.Coherent(fs)) && fs.catalog.Some? && target.Some? && !deletingPlaying ==>
      playingPath == old(PlayingPathBefore(fs, st))
  {
    target := GetPathByQueueIndex(fs, st, st.currentSelectedIndex);
    playingPath := "";
    if target.Some? && !deletingPlaying {
      var playing := GetPathByQueueIndex(fs, st, st.currentPlayingIndex);
      if playing.Some? {
        playingPath := playing.value;
      }
    }
  }
}
