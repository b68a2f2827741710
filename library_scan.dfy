/**
 * The depth-bounded directory scan that writes the catalog
 * (`scanDirectoryToIndex` in src/file_manager.cpp).
 */
module LibraryScan {
  import opened Wrappers
  import opened Strings
  import opened Config
  import opened FilePaths
  import opened Storage

  function Budget(n: int): nat {
    if n < 0 then 0 else n
  }

  /**
   * The audio paths the scan writes for directory `dir`, descending at most
   * `levels` further directory levels, when `budget` more songs fit.
   */
  function ScanDir(fs: Fs, dir: string, levels: nat, budget: int): (r: seq<string>)
    ensures |r| <= Budget(budget)
    decreases levels, 1, 0
  {
    if budget <= 0 || dir !in fs.listing then []
    else ScanEntries(fs, dir, fs.listing[dir], levels, budget)
  }

  /** The part of the scan that enumerates the children `es` of `dir`, in order. */
  function ScanEntries(fs: Fs, dir: string, es: seq<DirEntry>, levels: nat, budget: int): (r: seq<string>)
    ensures |r| <= Budget(budget)
    decreases levels, 0, |es|
  {
    if es == [] || budget <= 0 then []
    else
      var here := ScanEntry(fs, dir, es[0], levels, budget);
      here + ScanEntries(fs, dir, es[1..], levels, budget - |here|)
  }

  /**
   * What one child contributes: a directory is scanned one level further
   * down while levels remain, a file is written when it is audio.
   */
  function ScanEntry(fs: Fs, dir: string, e: DirEntry, levels: nat, budget: int): (r: seq<string>)
    ensures |r| <= Budget(budget)
    decreases levels, 0, 0
  {
    var path := BuildEntryPath(dir, Some(e.name));
    if e.isDir then (if levels > 0 && budget > 0 then ScanDir(fs, path, levels - 1, budget) else [])
    else if IsSupportedAudioFile(path) && budget > 0 then [path]
    else []
  }

  /**
   * The scan writes only files that pass the audio allow-list, and under an
   * absolute directory only absolute paths.
   */
  lemma {:induction false} ScanWritesOnlyAudio(fs: Fs, dir: string, levels: nat, budget: int)
    ensures forall p | p in ScanDir(fs, dir, levels, budget) :: IsSupportedAudioFile(p)
    ensures StartsWith(dir, "/") ==> forall p | p in ScanDir(fs, dir, levels, budget) :: StartsWith(p, "/")
    decreases levels, 1, 0
  {
    if budget > 0 && dir in fs.listing {
      ScanEntriesWriteOnlyAudio(fs, dir, fs.listing[dir], levels, budget);
    }
  }

  lemma {:induction false} ScanEntriesWriteOnlyAudio(fs: Fs, dir: string, es: seq<DirEntry>, levels: nat, budget: int)
    ensures forall p | p in ScanEntries(fs, dir, es, levels, budget) :: IsSupportedAudioFile(p)
    ensures StartsWith(dir, "/") ==> forall p | p in ScanEntries(fs, dir, es, levels, budget) :: StartsWith(p, "/")
    decreases levels, 0, |es|
  {
    if es != [] && budget > 0 {
      var here := ScanEntry(fs, dir, es[0], levels, budget);
      ScanEntryWritesOnlyAudio(fs, dir, es[0], levels, budget);
      ScanEntriesWriteOnlyAudio(fs, dir, es[1..], levels, budget - |here|);
    }
  }

  lemma {:induction false} ScanEntryWritesOnlyAudio(fs: Fs, dir: string, e: DirEntry, levels: nat, budget: int)
    ensures forall p | p in ScanEntry(fs, dir, e, levels, budget) :: IsSupportedAudioFile(p)
    ensures StartsWith(dir, "/") ==> forall p | p in ScanEntry(fs, dir, e, levels, budget) :: StartsWith(p, "/")
    decreases levels, 0, 0
  {
    var path := BuildEntryPath(dir, Some(e.name));
    BuildEntryPathKeepsName(dir, e.name);
    if e.isDir && levels > 0 && budget > 0 {
      ScanWritesOnlyAudio(fs, path, levels - 1, budget);
    }
  }

  /**
   * Reference enumeration without a capacity: every supported audio file
   * within `levels` directory levels below `dir`, in enumeration order.
   */
  function AllAudio(fs: Fs, dir: string, levels: nat): seq<string>
    decreases levels, 1, 0
  {
    if dir !in fs.listing then [] else AllAudioIn(fs, dir, fs.listing[dir], levels)
  }

  function AllAudioIn(fs: Fs, dir: string, es: seq<DirEntry>, levels: nat): seq<string>
    decreases levels, 0, |es|
  {
    if es == [] then []
    else
      AllAudioOf(fs, dir, es[0], levels) + AllAudioIn(fs, dir, es[1..], levels)
  }

  function AllAudioOf(fs: Fs, dir: string, e: DirEntry, levels: nat): seq<string>
    decreases levels, 0, 0
  {
    var path := BuildEntryPath(dir, Some(e.name));
    if e.isDir then (if levels > 0 then AllAudio(fs, path, levels - 1) else [])
    else if IsSupportedAudioFile(path) then [path]
    else []
  }

  /** The first `n` elements of `s`, or all of them. */
  function Take(s: seq<string>, n: nat): (r: seq<string>)
    ensures |r| == if n < |s| then n else |s|
  {
    if n < |s| then s[..n] else s
  }

  lemma {:induction false} TakeConcat(h: seq<string>, rest: seq<string>, n: nat)
    ensures Take(h, n) + Take(rest, Budget(n - |Take(h, n)|)) == Take(h + rest, n)
  {
    if n < |h| {
      assert (h + rest)[..n] == h[..n];
    } else if n - |h| < |rest| {
      assert (h + rest)[..n] == h + rest[..n - |h|];
    }
  }

  /**
   * The capacity bound only truncates: the scan writes exactly the first
   * `budget` files of the unbounded enumeration, in enumeration order.
   */
  lemma {:induction false} ScanIsPrefixOfAllAudio(fs: Fs, dir: string, levels: nat, budget: nat)
    ensures ScanDir(fs, dir, levels, budget) == Take(AllAudio(fs, dir, levels), budget)
    decreases levels, 1, 0
  {
    if budget > 0 && dir in fs.listing {
      ScanEntriesIsPrefix(fs, dir, fs.listing[dir], levels, budget);
    }
  }

  lemma {:induction false} ScanEntriesIsPrefix(fs: Fs, dir: string, es: seq<DirEntry>, levels: nat, budget: nat)
    ensures ScanEntries(fs, dir, es, levels, budget) == Take(AllAudioIn(fs, dir, es, levels), budget)
    decreases levels, 0, |es|
  {
    if es != [] && budget > 0 {
      var all := AllAudioOf(fs, dir, es[0], levels);
      var here := ScanEntry(fs, dir, es[0], levels, budget);
      ScanEntryIsPrefix(fs, dir, es[0], levels, budget);
      var left := Budget(budget - |here|);
      ScanEntriesIsPrefix(fs, dir, es[1..], levels, left);
      assert ScanEntries(fs, dir, es[1..], levels, budget - |here|) == ScanEntries(fs, dir, es[1..], levels, left);
      TakeConcat(all, AllAudioIn(fs, dir, es[1..], levels), budget);
    }
  }

  lemma {:induction false} ScanEntryIsPrefix(fs: Fs, dir: string, e: DirEntry, levels: nat, budget: nat)
    requires budget > 0
    ensures ScanEntry(fs, dir, e, levels, budget) == Take(AllAudioOf(fs, dir, e, levels), budget)
    decreases levels, 0, 0
  {
    if e.isDir && levels > 0 {
      ScanIsPrefixOfAllAudio(fs, BuildEntryPath(dir, Some(e.name)), levels - 1, budget);
    }
  }

  /** Some file child of `dir` among `children` has the full path `p`. */
  predicate ListsFile(dir: string, children: seq<DirEntry>, p: string) {
    exists c :: c in children && !c.isDir && BuildEntryPath(dir, Some(c.name)) == p
  }

  /** Some directory of the file system lists a file whose full path is `p`. */
  predicate FileListed(fs: Fs, p: string) {
    exists d :: d in fs.listing && ListsFile(d, fs.listing[d], p)
  }

  /** The enumeration finds only files the file system lists. */
  lemma {:induction false} AllAudioIsListed(fs: Fs, dir: string, levels: nat, p: string)
    requires p in AllAudio(fs, dir, levels)
    ensures FileListed(fs, p)
    decreases levels, 1, 0
  {
    AllAudioInIsListed(fs, dir, fs.listing[dir], levels, p);
  }

  lemma {:induction false} AllAudioInIsListed(fs: Fs, dir: string, es: seq<DirEntry>, levels: nat, p: string)
    requires p in AllAudioIn(fs, dir, es, levels)
    requires dir in fs.listing && forall c :: c in es ==> c in fs.listing[dir]
    ensures FileListed(fs, p)
    decreases levels, 0, |es|
  {
    if p in AllAudioOf(fs, dir, es[0], levels) {
      var path := BuildEntryPath(dir, Some(es[0].name));
      if es[0].isDir {
        AllAudioIsListed(fs, path, levels - 1, p);
      } else {
        assert ListsFile(dir, fs.listing[dir], p);
      }
    } else {
      AllAudioInIsListed(fs, dir, es[1..], levels, p);
    }
  }

  /** The scan loop's step: child i contributes its part, then the rest follows with what budget is left. */
  lemma {:induction false} ScanEntriesStep(fs: Fs, dir: string, es: seq<DirEntry>, i: nat, levels: nat, budget: int)
    requires i < |es| && budget > 0
    ensures ScanEntries(fs, dir, es[i..], levels, budget)
      == ScanEntry(fs, dir, es[i], levels, budget)
         + ScanEntries(fs, dir, es[i + 1..], levels, budget - |ScanEntry(fs, dir, es[i], levels, budget)|)
  {
    assert es[i..][1..] == es[i + 1..];
  }

  lemma {:induction false} AppendAssoc(a: seq<string>, b: seq<string>, c: seq<string>)
    ensures a + b + c == a + (b + c)
  {
  }

  /**
   * `scanDirectoryToIndex`: appends to the catalog one printed line per
   * audio file found below `dir`, stopping once MAX_LIBRARY_FILES songs
   * have been counted; returns the lines written and the new song count.
   */
  method ScanDirectoryToIndex(fs: Fs, dir: string, levels: nat, songCount: int)
    returns (written: seq<string>, newCount: int)
    ensures written == PrintedCatalog(ScanDir(fs, dir, levels, MaxLibraryFiles - songCount))
    ensures newCount == songCount + |ScanDir(fs, dir, levels, MaxLibraryFiles - songCount)|
    decreases levels, 1
  {
    written := [];
    newCount := songCount;
    if songCount >= MaxLibraryFiles {
      return;
    }
    if dir !in fs.listing {
      return;
    }
    var es := fs.listing[dir];
    ghost var paths: seq<string> := [];
    var i := 0;
    while i < |es| && newCount < MaxLibraryFiles
      invariant 0 <= i <= |es|
      invariant newCount == songCount + |paths|
      invariant written == PrintedCatalog(paths)
      invariant paths + ScanEntries(fs, dir, es[i..], levels, MaxLibraryFiles - newCount)
        == ScanEntries(fs, dir, es, levels, MaxLibraryFiles - songCount)
      decreases |es| - i
    {
      ghost var here := ScanEntry(fs, dir, es[i], levels, MaxLibraryFiles - newCount);
      ScanEntriesStep(fs, dir, es, i, levels, MaxLibraryFiles - newCount);
      var w, c := ScanOneEntry(fs, dir, es[i], levels, newCount);
      PrintedCatalogAppend(paths, here);
      written := written + w;
      newCount := c;
      AppendAssoc(paths, here, ScanEntries(fs, dir, es[i + 1..], levels, MaxLibraryFiles - newCount));
      paths := paths + here;
      i := i + 1;
    }
  }

  /** One pass of the scan loop: the child `e` of `dir`, while songs still fit. */
  method ScanOneEntry(fs: Fs, dir: string, e: DirEntry, levels: nat, songCount: int)
    returns (written: seq<string>, newCount: int)
    requires songCount < MaxLibraryFiles
    ensures written == PrintedCatalog(ScanEntry(fs, dir, e, levels, MaxLibraryFiles - songCount))
    ensures newCount == songCount + |ScanEntry(fs, dir, e, levels, MaxLibraryFiles - songCount)|
    decreases levels, 0
  {
    var fullPath := BuildEntryPath(dir, Some(e.name));
    written, newCount := [], songCount;
    if e.isDir {
      if levels > 0 {
        written, newCount := ScanDirectoryToIndex(fs, fullPath, levels - 1, songCount);
      }
    } else if IsSupportedAudioFile(fullPath) {
      written := [PrintedLine(fullPath)];
      newCount := songCount + 1;
    }
  }
}
