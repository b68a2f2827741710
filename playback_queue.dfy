/**
 * The directory-scoped playback queue (`buildQueueForDirectory` in
 * src/file_manager.cpp): the song ids whose catalog path lies below a
 * directory, in catalog order, and the choice of where the cursors land.
 */
module PlaybackQueue {
  import opened Wrappers
  import opened Strings
  import opened Config
  import opened FilePaths
  import opened Storage
  import opened App
  import opened LibraryIndex

  /**
   * The ids of the paths in scope of `dir`, in catalog order: id k is in
   * the result when `paths[k]` passes `pathInDirectoryRecursive`.
   */
  function ScopedIds(paths: seq<string>, dir: string): (r: seq<nat>)
    ensures |r| <= |paths|
  {
    if paths == [] then []
    else
      var n := |paths| - 1;
      ScopedIds(paths[..n], dir) + (if PathInDirectoryRecursive(paths[n], dir) then [n] else [])
  }

  /** Extending the catalog prefix by one path extends the scoped ids by at most that id. */
  lemma {:induction false} ScopedIdsStep(paths: seq<string>, n: nat, dir: string)
    requires n < |paths|
    ensures ScopedIds(paths[..n + 1], dir)
      == ScopedIds(paths[..n], dir) + (if PathInDirectoryRecursive(paths[n], dir) then [n] else [])
  {
    assert paths[..n + 1][..n] == paths[..n];
  }

  /** Scoped ids are ids of the catalog, strictly increasing. */
  lemma {:induction false} ScopedIdsIncrease(paths: seq<string>, dir: string)
    ensures forall q :: 0 <= q < |ScopedIds(paths, dir)| ==> ScopedIds(paths, dir)[q] < |paths|
    ensures forall p, q :: 0 <= p < q < |ScopedIds(paths, dir)| ==> ScopedIds(paths, dir)[p] < ScopedIds(paths, dir)[q]
  {
    if paths != [] {
      ScopedIdsIncrease(paths[..|paths| - 1], dir);
    }
  }

  /** An id is scoped exactly when it names a catalog path in scope of the directory. */
  lemma {:induction false} ScopedIdsMembership(paths: seq<string>, dir: string, k: int)
    ensures k in ScopedIds(paths, dir) <==> 0 <= k < |paths| && PathInDirectoryRecursive(paths[k], dir)
  {
    if paths != [] {
      var n := |paths| - 1;
      ScopedIdsMembership(paths[..n], dir, k);
      ScopedIdsIncrease(paths[..n], dir);
    }
  }

  /** The queue position of song `id`, or -1 when it is not queued. */
  function PositionOf(ids: seq<nat>, id: int): (r: int)
    ensures -1 <= r < |ids|
    ensures r >= 0 ==> ids[r] == id
    ensures r < 0 ==> forall q :: 0 <= q < |ids| ==> ids[q] != id
  {
    if id < 0 then -1 else FirstIndexOf(ids, id as nat)
  }

  /** Appending an id greater than every queued one keeps every earlier position. */
  lemma {:induction false} PositionOfAppend(ids: seq<nat>, next: nat, id: int)
    requires forall q :: 0 <= q < |ids| ==> ids[q] < next
    ensures PositionOf(ids + [next], id) == if id == next then |ids| else PositionOf(ids, id)
  {
    var ext := ids + [next];
    assert ext[..|ids|] == ids;
    if id >= 0 {
      var r := FirstIndexOf(ids, id as nat);
      if r >= 0 {
        assert ext[..r] == ids[..r];
        FirstIndexOfUnique(ext, id as nat, r);
      } else if id == next {
        FirstIndexOfUnique(ext, id as nat, |ids|);
      } else {
        assert id as nat !in ext;
      }
    }
  }

  /**
   * The cursor policy: the position of the preferred song if it is queued,
   * else of the song that was playing, else the first position.
   */
  function SelectPosition(ids: seq<nat>, preferred: int, playing: int): int {
    if PositionOf(ids, preferred) >= 0 then PositionOf(ids, preferred)
    else if PositionOf(ids, playing) >= 0 then PositionOf(ids, playing)
    else 0
  }

  /**
   * The selected position lies in a non-empty queue and holds the
   * preferred song when queued, else the playing song when queued; with
   * neither queued it is the first position.
   */
  lemma {:induction false} SelectPositionLands(ids: seq<nat>, preferred: int, playing: int)
    ensures var r := SelectPosition(ids, preferred, playing);
      && (ids != [] ==> 0 <= r < |ids|)
      && (preferred in ids ==> ids[r] == preferred)
      && (preferred !in ids && playing in ids ==> ids[r] == playing)
      && (preferred !in ids && playing !in ids ==> r == 0)
  {
  }

  /**
   * With no preferred song and song 0 (or none) previously playing, an
   * increasing queue puts both cursors on its first position: song 0, if
   * queued at all, is queued first.
   */
  lemma {:induction false} SelectFirstSong(ids: seq<nat>, playing: int)
    requires forall p, q :: 0 <= p < q < |ids| ==> ids[p] < ids[q]
    requires playing == 0 || playing == -1
    ensures SelectPosition(ids, -1, playing) == 0
  {
    assert forall q :: 0 < q < |ids| ==> ids[0] < ids[q];
  }

  /** The song playing before the rebuild, or -1 when the playing cursor is outside the queue. */
  function PlayingSong(queue: seq<nat>, fileCount: int, playingIndex: int): int
    requires 0 <= fileCount <= |queue|
  {
    if 0 <= playingIndex < fileCount then queue[playingIndex] else -1
  }

  /**
   * The loop state of `buildQueueForDirectory` after `i` catalog lines:
   * `songIndex` non-blank lines are numbered, the queue front holds the
   * scoped ids among them, the rest of the queue is as it was, and the two
   * recorded positions are those of the preferred and playing songs.
   */
  ghost predicate QueueScan(queue: seq<nat>, before: seq<nat>, lines: seq<string>, dir: string,
                           preferred: int, playing: int,
                           i: nat, songIndex: nat, queueCount: nat, preferredQueue: int, playingQueue: int)
  {
    && i <= |lines|
    && songIndex == |CatalogPaths(lines[..i])| <= |CatalogPaths(lines)|
    && queueCount <= songIndex
    && |queue| == |before| == MaxLibraryFiles
    && queueCount <= |queue|
    && queue[..queueCount] == ScopedIds(CatalogPaths(lines)[..songIndex], dir)
    && queue[queueCount..] == before[queueCount..]
    && preferredQueue == PositionOf(queue[..queueCount], preferred)
    && playingQueue == PositionOf(queue[..queueCount], playing)
  }

  /** A non-blank catalog line takes the next song id, and its trimmed text is the path of that id. */
  lemma {:induction false} CatalogLineTakesId(lines: seq<string>, i: nat, songIndex: nat)
    requires i < |lines| && Trim(lines[i]) != [] && songIndex == |CatalogPaths(lines[..i])|
    ensures songIndex + 1 == |CatalogPaths(lines[..i + 1])| <= |CatalogPaths(lines)|
    ensures CatalogPaths(lines)[songIndex] == Trim(lines[i])
  {
    LoaderStep(lines, i);
    EntryLineIsNotBlank(lines[i]);
  }

  /** Writing the next id to the first free slot extends the queue front by that id. */
  lemma {:induction false} QueuePush(queue: seq<nat>, before: seq<nat>, queueCount: nat, id: nat)
    requires queueCount < |queue| == |before| && queue[queueCount..] == before[queueCount..]
    ensures var next := queue[queueCount := id];
      && next[..queueCount + 1] == queue[..queueCount] + [id]
      && next[queueCount + 1..] == before[queueCount + 1..]
  {
    var next := queue[queueCount := id];
    assert next[queueCount + 1..] == queue[queueCount + 1..];
    assert queue[queueCount + 1..] == queue[queueCount..][1..];
  }

  /** A blank line takes no id: only the line counter moves. */
  lemma {:induction false} QueueScanBlank(queue: seq<nat>, before: seq<nat>, lines: seq<string>, dir: string,
                      preferred: int, playing: int,
                      i: nat, songIndex: nat, queueCount: nat, preferredQueue: int, playingQueue: int)
    requires i < |lines| && Trim(lines[i]) == []
    requires QueueScan(queue, before, lines, dir, preferred, playing, i, songIndex, queueCount, preferredQueue, playingQueue)
    ensures QueueScan(queue, before, lines, dir, preferred, playing, i + 1, songIndex, queueCount, preferredQueue, playingQueue)
  {
    LoaderStep(lines, i);
    EntryLineIsNotBlank(lines[i]);
  }

  /** A path outside the directory takes the next id but is not queued. */
  lemma {:induction false} QueueScanOutOfScope(queue: seq<nat>, before: seq<nat>, lines: seq<string>, dir: string,
                      preferred: int, playing: int,
                      i: nat, songIndex: nat, queueCount: nat, preferredQueue: int, playingQueue: int)
    requires i < |lines| && Trim(lines[i]) != [] && !PathInDirectoryRecursive(Trim(lines[i]), dir)
    requires QueueScan(queue, before, lines, dir, preferred, playing, i, songIndex, queueCount, preferredQueue, playingQueue)
    ensures QueueScan(queue, before, lines, dir, preferred, playing, i + 1, songIndex + 1, queueCount, preferredQueue, playingQueue)
  {
    CatalogLineTakesId(lines, i, songIndex);
    ScopedIdsStep(CatalogPaths(lines), songIndex, dir);
  }

  /**
   * A path in scope of the directory takes the next id, which goes to the
   * next queue slot; the recorded positions move to that slot when the id
   * is the preferred or the playing song.
   */
  lemma {:induction false} QueueScanInScope(queue: seq<nat>, before: seq<nat>, lines: seq<string>, dir: string,
                      preferred: int, playing: int,
                      i: nat, songIndex: nat, queueCount: nat, preferredQueue: int, playingQueue: int)
    requires i < |lines| && songIndex < MaxLibraryFiles
    requires Trim(lines[i]) != [] && PathInDirectoryRecursive(Trim(lines[i]), dir)
    requires QueueScan(queue, before, lines, dir, preferred, playing, i, songIndex, queueCount, preferredQueue, playingQueue)
    ensures QueueScan(queue[queueCount := songIndex], before, lines, dir, preferred, playing, i + 1, songIndex + 1, queueCount + 1,
                      if songIndex == preferred then queueCount else preferredQueue,
                      if songIndex == playing then queueCount else playingQueue)
  {
    var paths := CatalogPaths(lines);
    var ids := queue[..queueCount];
    CatalogLineTakesId(lines, i, songIndex);
    ScopedIdsStep(paths, songIndex, dir);
    ScopedIdsIncrease(paths[..songIndex], dir);
    PositionOfAppend(ids, songIndex, preferred);
    PositionOfAppend(ids, songIndex, playing);
    QueuePush(queue, before, queueCount, songIndex);
  }

  /** One pass of the queue loop: read line i; number it unless blank, and queue it when in scope. */
  method QueueLine(st: AppState, ghost before: seq<nat>, lines: seq<string>, dir: string,
                   preferred: int, playing: int,
                   i: nat, songIndex: nat, queueCount: nat, preferredQueue: int, playingQueue: int)
    returns (songIndex': nat, queueCount': nat, preferredQueue': int, playingQueue': int)
    requires st.Shape() && i < |lines| && songIndex < MaxLibraryFiles
    requires QueueScan(st.playbackQueue[..], before, lines, dir, preferred, playing,
                       i, songIndex, queueCount, preferredQueue, playingQueue)
    modifies st.playbackQueue
    ensures songIndex' <= songIndex + 1
    ensures QueueScan(st.playbackQueue[..], before, lines, dir, preferred, playing,
                      i + 1, songIndex', queueCount', preferredQueue', playingQueue')
  {
    songIndex', queueCount', preferredQueue', playingQueue' := songIndex, queueCount, preferredQueue, playingQueue;
    var line := Trim(lines[i]);
    if |line| == 0 {
      QueueScanBlank(st.playbackQueue[..], before, lines, dir, preferred, playing,
                     i, songIndex, queueCount, preferredQueue, playingQueue);
      return;
    }
    if !PathInDirectoryRecursive(line, dir) {
      QueueScanOutOfScope(st.playbackQueue[..], before, lines, dir, preferred, playing,
                          i, songIndex, queueCount, preferredQueue, playingQueue);
    } else {
      QueueScanInScope(st.playbackQueue[..], before, lines, dir, preferred, playing,
                       i, songIndex, queueCount, preferredQueue, playingQueue);
      st.playbackQueue[queueCount] := songIndex % 0x1_0000;
      assert st.playbackQueue[..] == old(st.playbackQueue[..])[queueCount := songIndex];
      if songIndex == preferred {
        preferredQueue' := queueCount;
      }
      if songIndex == playing {
        playingQueue' := queueCount;
      }
      queueCount' := queueCount + 1;
    }
    songIndex' := songIndex + 1;
  }

  /**
   * The scan loop of `buildQueueForDirectory`: writes the scoped ids among
   * the first `libraryCount` catalog entries to the queue front, leaving
   * the rest of the queue alone, and reports where the preferred and the
   * playing song landed.
   */
  method CollectScopedIds(st: AppState, lines: seq<string>, dir: string, preferred: int, playing: int)
    returns (queueCount: nat, preferredQueue: int, playingQueue: int)
    requires st.Shape() && 0 <= st.libraryCount <= MaxLibraryFiles
    modifies st.playbackQueue
    ensures var paths := CatalogPaths(lines);
      var ids := ScopedIds(paths[..Min(st.libraryCount, |paths|)], dir);
      && queueCount == |ids|
      && st.playbackQueue[..queueCount] == ids
      && st.playbackQueue[queueCount..] == old(st.playbackQueue[..])[queueCount..]
      && preferredQueue == PositionOf(ids, preferred)
      && playingQueue == PositionOf(ids, playing)
  {
    ghost var paths := CatalogPaths(lines);
    ghost var before := st.playbackQueue[..];
    queueCount, preferredQueue, playingQueue := 0, -1, -1;
    var songIndex: nat := 0;
    var i: nat := 0;
    QueueScanStart(before, lines, dir, preferred, playing);
    while i < |lines| && songIndex < st.libraryCount && queueCount < MaxLibraryFiles
      invariant songIndex <= st.libraryCount
      invariant QueueScan(st.playbackQueue[..], before, lines, dir, preferred, playing,
                          i, songIndex, queueCount, preferredQueue, playingQueue)
      decreases |lines| - i
    {
      songIndex, queueCount, preferredQueue, playingQueue :=
        QueueLine(st, before, lines, dir, preferred, playing,
                  i, songIndex, queueCount, preferredQueue, playingQueue);
      i := i + 1;
    }
    QueueScanDone(st.playbackQueue[..], before, lines, dir, preferred, playing,
                  i, songIndex, queueCount, preferredQueue, playingQueue, st.libraryCount);
  }

  /** Before the first catalog line nothing is queued and neither song has a position. */
  lemma {:induction false} QueueScanStart(queue: seq<nat>, lines: seq<string>, dir: string, preferred: int, playing: int)
    requires |queue| == MaxLibraryFiles
    ensures QueueScan(queue, queue, lines, dir, preferred, playing, 0, 0, 0, -1, -1)
  {
    assert lines[..0] == [] && CatalogPaths(lines)[..0] == [];
    assert queue[..0] == [] && queue[0..] == queue;
  }

  /** When the scan stops, at the end of the catalog or at the loaded count, the queue front holds all the scoped ids. */
  lemma {:induction false} QueueScanDone(queue: seq<nat>, before: seq<nat>, lines: seq<string>, dir: string,
                                         preferred: int, playing: int,
                                         i: nat, songIndex: nat, queueCount: nat, preferredQueue: int, playingQueue: int,
                                         libraryCount: nat)
    requires QueueScan(queue, before, lines, dir, preferred, playing, i, songIndex, queueCount, preferredQueue, playingQueue)
    requires songIndex <= libraryCount && (i == |lines| || songIndex == libraryCount)
    ensures var paths := CatalogPaths(lines);
      var ids := ScopedIds(paths[..Min(libraryCount, |paths|)], dir);
      && queueCount == |ids|
      && queue[..queueCount] == ids
      && queue[queueCount..] == before[queueCount..]
      && preferredQueue == PositionOf(ids, preferred)
      && playingQueue == PositionOf(ids, playing)
  {
    if i == |lines| {
      assert lines[..i] == lines;
    }
    assert songIndex == Min(libraryCount, |CatalogPaths(lines)|);
  }

  /**
   * The queue and its count after the scan of `buildQueueForDirectory`:
   * the scoped ids of `dir` in catalog order, which keep the queue valid.
   */
  method FillQueue(lines: seq<string>, st: AppState, dir: string, preferred: int, playing: int)
    returns (preferredQueue: int, playingQueue: int)
    requires st.Valid()
    modifies st`fileCount, st.playbackQueue, st`queueDirectory
    ensures st.Valid()
    ensures var paths := CatalogPaths(lines);
      var ids := ScopedIds(paths[..Min(st.libraryCount, |paths|)], dir);
      && st.fileCount == |ids|
      && st.playbackQueue[..st.fileCount] == ids
    ensures preferredQueue == PositionOf(st.playbackQueue[..st.fileCount], preferred)
    ensures playingQueue == PositionOf(st.playbackQueue[..st.fileCount], playing)
    ensures st.queueDirectory == dir
    ensures st.playbackQueue[st.fileCount..] == old(st.playbackQueue[..])[st.fileCount..]
  {
    var queueCount;
    queueCount, preferredQueue, playingQueue := CollectScopedIds(st, lines, dir, preferred, playing);
    ghost var paths := CatalogPaths(lines);
    ghost var ids := ScopedIds(paths[..Min(st.libraryCount, |paths|)], dir);
    ScopedIdsIncrease(paths[..Min(st.libraryCount, |paths|)], dir);
    IdsIncreaseMeans(ids);
    st.fileCount := queueCount;
    st.queueDirectory := dir;
    assert st.QueueOk() by {
      assert forall q :: 0 <= q < queueCount ==> st.playbackQueue[q] == ids[q];
    }
  }

  /**
   * `buildQueueForDirectory` once the catalog opened: the queue becomes the
   * ids (below `libraryCount`) whose catalog path is in scope of `dir`, in
   * catalog order. An empty queue puts both cursors on 0 and fails; a
   * non-empty one puts both cursors on the preferred song, else on the
   * song that was playing, else on 0, and resets the list scroll.
   */
  method InstallScopedQueue(lines: seq<string>, st: AppState, dir: string, preferredSongIndex: int)
    returns (ok: bool)
    requires st.Valid()
    modifies st`fileCount, st.playbackQueue, st`queueDirectory, st`currentSelectedIndex, st`currentPlayingIndex
    modifies st`lastSelectedIndex, st`selectedScrollPos
    ensures st.Valid()
    ensures var paths := CatalogPaths(lines);
      var ids := ScopedIds(paths[..Min(st.libraryCount, |paths|)], dir);
      && st.fileCount == |ids|
      && st.playbackQueue[..st.fileCount] == ids
      && (ok <==> ids != [])
    ensures st.queueDirectory == dir
    ensures st.playbackQueue[st.fileCount..] == old(st.playbackQueue[..])[st.fileCount..]
    ensures !ok ==>
      st.currentSelectedIndex == 0 && st.currentPlayingIndex == 0
      && st.lastSelectedIndex == old(st.lastSelectedIndex) && st.selectedScrollPos == old(st.selectedScrollPos)
    ensures ok ==>
      var pos := SelectPosition(st.playbackQueue[..st.fileCount], preferredSongIndex,
                                PlayingSong(old(st.playbackQueue[..]), old(st.fileCount), old(st.currentPlayingIndex)));
      && st.currentSelectedIndex == pos && st.currentPlayingIndex == pos
      && st.lastSelectedIndex == -1 && st.selectedScrollPos == ScrollInitialPos
  {
    var playingSong: int := -1;
    if st.currentPlayingIndex >= 0 && st.currentPlayingIndex < st.fileCount {
      playingSong := st.playbackQueue[st.currentPlayingIndex];
    }
    assert playingSong == PlayingSong(st.playbackQueue[..], st.fileCount, st.currentPlayingIndex);
    var preferredQueue, playingQueue := FillQueue(lines, st, dir, preferredSongIndex, playingSong);
    ghost var ids := st.playbackQueue[..st.fileCount];
    ok := PlaceQueueCursors(st, preferredQueue, playingQueue);
    assert ok ==> st.currentSelectedIndex == SelectPosition(ids, preferredSongIndex, playingSong);
  }

  /** The cursor step of `buildQueueForDirectory`, given where the preferred and playing songs landed. */
  method PlaceQueueCursors(st: AppState, preferredQueue: int, playingQueue: int) returns (ok: bool)
    requires st.Valid()
    modifies st`currentSelectedIndex, st`currentPlayingIndex, st`lastSelectedIndex, st`selectedScrollPos
    ensures st.Valid()
    ensures ok <==> st.fileCount != 0
    ensures !ok ==>
      st.currentSelectedIndex == 0 && st.currentPlayingIndex == 0
      && st.lastSelectedIndex == old(st.lastSelectedIndex) && st.selectedScrollPos == old(st.selectedScrollPos)
    ensures ok ==>
      var pos := if preferredQueue >= 0 then preferredQueue else if playingQueue >= 0 then playingQueue else 0;
      && st.currentSelectedIndex == pos && st.currentPlayingIndex == pos
      && st.lastSelectedIndex == -1 && st.selectedScrollPos == ScrollInitialPos
  {
    if st.fileCount == 0 {
      st.currentSelectedIndex := 0;
      st.currentPlayingIndex := 0;
      return false;
    }
    var pos := if preferredQueue >= 0 then preferredQueue else if playingQueue >= 0 then playingQueue else 0;
    st.currentSelectedIndex := pos;
    st.currentPlayingIndex := pos;
    st.lastSelectedIndex := -1;
    st.selectedScrollPos := ScrollInitialPos;
    return true;
  }

  /**
   * `buildQueueForDirectory`: with no catalog nothing changes and the call
   * fails; otherwise the queue is rebuilt for the normalised directory.
   */
  method BuildQueueForDirectory(fs: Fs, st: AppState, dirname: Option<string>, preferredSongIndex: int)
    returns (ok: bool)
    requires st.Valid()
    modifies st`fileCount, st.playbackQueue, st`queueDirectory, st`currentSelectedIndex, st`currentPlayingIndex
    modifies st`lastSelectedIndex, st`selectedScrollPos
    ensures st.Valid()
    ensures fs.catalog.None? ==> !ok && unchanged(st, st.playbackQueue)
    ensures fs.catalog.Some? ==>
      var paths := CatalogPaths(fs.catalog.value);
      var ids := ScopedIds(paths[..Min(st.libraryCount, |paths|)], NormalizeDir(dirname));
      && st.fileCount == |ids|
      && st.playbackQueue[..st.fileCount] == ids
      && st.queueDirectory == NormalizeDir(dirname)
      && (ok <==> ids != [])
    ensures fs.catalog.Some? ==> st.playbackQueue[st.fileCount..] == old(st.playbackQueue[..])[st.fileCount..]
    ensures fs.catalog.Some? && !ok ==>
      st.currentSelectedIndex == 0 && st.currentPlayingIndex == 0
      && st.lastSelectedIndex == old(st.lastSelectedIndex) && st.selectedScrollPos == old(st.selectedScrollPos)
    ensures ok ==>
      var pos := SelectPosition(st.playbackQueue[..st.fileCount], preferredSongIndex,
                                PlayingSong(old(st.playbackQueue[..]), old(st.fileCount), old(st.currentPlayingIndex)));
      && st.currentSelectedIndex == pos && st.currentPlayingIndex == pos
      && st.lastSelectedIndex == -1 && st.selectedScrollPos == ScrollInitialPos
  {
    if fs.catalog.None? {
      return false;
    }
    ok := InstallScopedQueue(fs.catalog.value, st, NormalizeDir(dirname), preferredSongIndex);
  }
}
