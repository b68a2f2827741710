/**
 * Pure path helpers of the library engine (the anonymous namespace at the
 * top of src/file_manager.cpp).
 */
module FilePaths {
  import opened Wrappers
  import opened Strings

  /** A directory path as `NormalizeDir` intends it: absolute, and no trailing '/' except for the root. */
  predicate IsNormalDir(d: string) {
    StartsWith(d, "/") && (d == "/" || !EndsWith(d, "/"))
  }

  /** A single path component as a directory listing reports it. */
  predicate IsPlainName(n: string) {
    n != [] && '/' !in n
  }

  /**
   * The audio allow-list, read as "the name ends in .mp3 or .wav, letters
   * compared case-insensitively". `SupportedAudioByLastDot` proves this is
   * the rule `isSupportedAudioFile` computes through the last '.'.
   */
  predicate IsSupportedAudioFile(fullPath: string) {
    var n := |fullPath|;
    n >= 4 && fullPath[n - 4] == '.'
    && var a, b, c := LowerChar(fullPath[n - 3]), LowerChar(fullPath[n - 2]), LowerChar(fullPath[n - 1]);
       (a == 'm' && b == 'p' && c == '3') || (a == 'w' && b == 'a' && c == 'v')
  }

  /**
   * `isSupportedAudioFile` as written: lower-case the path, find the last
   * '.', and compare the text after it with "mp3" and "wav".
   */
  function AudioCheckByLastDot(fullPath: string): bool {
    var lower := ToLower(fullPath);
    var dot := LastIndexOf(lower, '.');
    if dot < 0 then false
    else
      var ext := lower[dot + 1..];
      ext == "mp3" || ext == "wav"
  }

  /** The allow-list agrees with the last-dot computation on every path. */
  lemma {:induction false} SupportedAudioByLastDot(fullPath: string)
    ensures IsSupportedAudioFile(fullPath) <==> AudioCheckByLastDot(fullPath)
    ensures IsSupportedAudioFile(fullPath) <==> EndsWith(ToLower(fullPath), ".mp3") || EndsWith(ToLower(fullPath), ".wav")
  {
    var lower := ToLower(fullPath);
    var n := |lower|;
    var dot := LastIndexOf(lower, '.');
    if dot >= 0 {
      var ext := lower[dot + 1..];
      if ext == "mp3" || ext == "wav" {
        assert dot == n - 4 && lower[n - 4] == '.';
        assert lower[n - 3] == ext[0] && lower[n - 2] == ext[1] && lower[n - 1] == ext[2];
      }
    }
    if IsSupportedAudioFile(fullPath) {
      assert lower[n - 4] == '.';
      assert dot == n - 4;
      assert lower[dot + 1..] == [lower[n - 3], lower[n - 2], lower[n - 1]];
    }
    assert EndsWith(lower, ".mp3") <==> n >= 4 && lower[n - 4..] == ".mp3";
    assert n >= 4 ==> lower[n - 4..] == [lower[n - 4], lower[n - 3], lower[n - 2], lower[n - 1]];
  }

  /**
   * `normalizeDir`: a null name is the root, a relative name is made
   * absolute, and one trailing '/' is removed from anything but "/".
   */
  function NormalizeDir(dirname: Option<string>): (r: string)
    ensures StartsWith(r, "/")
    ensures dirname.Some? && IsNormalDir(dirname.value) ==> r == dirname.value
  {
    var dir := if dirname.None? then "/" else dirname.value;
    var dir := if !StartsWith(dir, "/") then "/" + dir else dir;
    if |dir| > 1 && EndsWith(dir, "/") then dir[..|dir| - 1] else dir
  }

  /** `buildEntryPath`: an absolute entry name is kept, otherwise it is joined to the base directory. */
  function BuildEntryPath(baseDir: string, entryName: Option<string>): string
  {
    var name := if entryName.None? then "" else entryName.value;
    if StartsWith(name, "/") then name
    else if baseDir == "/" then "/" + name
    else baseDir + "/" + name
  }

  /**
   * An absolute entry name is kept as it is; any entry name ends the path
   * built from it, and under an absolute directory the path is absolute.
   */
  lemma {:induction false} BuildEntryPathKeepsName(baseDir: string, name: string)
    ensures StartsWith(name, "/") ==> BuildEntryPath(baseDir, Some(name)) == name
    ensures EndsWith(BuildEntryPath(baseDir, Some(name)), name)
    ensures StartsWith(baseDir, "/") ==> StartsWith(BuildEntryPath(baseDir, Some(name)), "/")
  {
    var r := BuildEntryPath(baseDir, Some(name));
    if !StartsWith(name, "/") {
      var sep := if baseDir == "/" then "/" else baseDir + "/";
      assert r == sep + name;
      assert r[|r| - |name|..] == name;
      assert StartsWith(baseDir, "/") ==> r[..1] == sep[..1] == "/";
    }
  }

  /** `extractBaseName`: the text after the last '/'. */
  function ExtractBaseName(fullPath: string): (r: string)
    ensures '/' !in r
    ensures EndsWith(fullPath, r)
    ensures |r| < |fullPath| ==> fullPath[|fullPath| - |r| - 1] == '/'
  {
    var lastSlash := LastIndexOf(fullPath, '/');
    if lastSlash < 0 then fullPath else fullPath[lastSlash + 1..]
  }

  /** `extractDisplayName`: the base name without its last extension. */
  function ExtractDisplayName(fullPath: string): (r: string)
    ensures '/' !in r
    ensures StartsWith(ExtractBaseName(fullPath), r)
  {
    var fileName := ExtractBaseName(fullPath);
    var lastDot := LastIndexOf(fileName, '.');
    if lastDot >= 0 then fileName[..lastDot] else fileName
  }

  /**
   * The display name drops exactly the last extension: a base name without
   * a '.' is kept whole; otherwise the name stops at a '.' after which the
   * base name has no other '.'.
   */
  lemma {:induction false} DisplayNameDropsLastExtension(fullPath: string)
    ensures var b := ExtractBaseName(fullPath);
      var r := ExtractDisplayName(fullPath);
      && ('.' !in b ==> r == b)
      && ('.' in b ==> |r| < |b| && b[|r|] == '.' && '.' !in b[|r| + 1..])
  {
    var b := ExtractBaseName(fullPath);
    if '.' in b {
      var k :| 0 <= k < |b| && b[k] == '.';
      assert LastIndexOf(b, '.') >= 0;
    }
  }

  /** `getParentDir`: the text before the last '/', or the root. */
  function GetParentDir(dir: string): (r: string)
    ensures r == "/" || (|r| < |dir| && StartsWith(dir, r) && dir[|r|] == '/')
  {
    if dir == "/" then "/"
    else
      var lastSlash := LastIndexOf(dir, '/');
      if lastSlash <= 0 then "/" else dir[..lastSlash]
  }

  /**
   * `pathInDirectoryRecursive`: the root admits every absolute path, any
   * other directory admits only paths strictly below it.
   */
  function PathInDirectoryRecursive(path: string, dir: string): (r: bool)
    ensures r && dir != "/" ==> StartsWith(path, dir) && |path| > |dir| && path[|dir|] == '/'
  {
    if dir == "/" then StartsWith(path, "/")
    else StartsWith(path, dir + "/")
  }

  /** Neither the directory itself nor a sibling sharing its name as a prefix is in scope. */
  lemma {:induction false} ScopeExcludesSelfAndSiblings(dir: string, c: char, rest: string)
    requires dir != "/" && c != '/'
    ensures !PathInDirectoryRecursive(dir, dir)
    ensures !PathInDirectoryRecursive(dir + [c] + rest, dir)
  {
    var s := dir + [c] + rest;
    assert s[|dir|] == c;
  }

  /** Scopes nest: a path below a directory that is itself in scope is in scope. */
  lemma {:induction false} ScopeIsTransitive(path: string, sub: string, dir: string)
    requires PathInDirectoryRecursive(path, sub) && PathInDirectoryRecursive(sub, dir)
    ensures PathInDirectoryRecursive(path, dir)
  {
    if sub == "/" {
      assert StartsWith(path, "/");
      assert dir != "/" ==> dir + "/" == "/";
    } else if dir == "/" {
      assert path[..|sub|] == sub;
      assert path[..1] == sub[..1];
    } else {
      var p := dir + "/";
      assert sub[..|p|] == p;
      assert path[..|sub|] == sub;
      assert path[..|p|] == sub[..|p|];
    }
  }

  /**
   * A child entry of a normal directory: its path is in the directory's
   * scope, and its base name and parent directory give back the parts it
   * was built from.
   */
  lemma {:induction false} EntryPathRoundTrip(dir: string, name: string)
    requires IsNormalDir(dir) && IsPlainName(name)
    ensures ExtractBaseName(BuildEntryPath(dir, Some(name))) == name
    ensures GetParentDir(BuildEntryPath(dir, Some(name))) == dir
    ensures PathInDirectoryRecursive(BuildEntryPath(dir, Some(name)), dir)
  {
    var p := BuildEntryPath(dir, Some(name));
    assert name[0] != '/';
    var sep := if dir == "/" then 0 else |dir|;
    assert p == (if dir == "/" then "/" + name else dir + "/" + name);
    assert p[sep] == '/' && p[sep + 1..] == name;
    assert forall k :: sep < k < |p| ==> p[k] != '/' by {
      forall k | sep < k < |p| ensures p[k] != '/' { assert p[k] == name[k - sep - 1]; }
    }
    assert LastIndexOf(p, '/') == sep;
    if dir != "/" {
      assert dir[..1] == "/";
      assert p[..|dir|] == dir;
      assert (dir + "/") == p[..|dir| + 1];
    } else {
      assert p[..1] == "/";
    }
  }

  /** An absolute path that `NormalizeDir` keeps and whose scope the root contains. */
  lemma {:induction false} RootAdmitsEveryAbsolutePath(path: string)
    ensures PathInDirectoryRecursive(path, "/") <==> StartsWith(path, "/")
  {
  }

  /**
   * An absolute path that passes the audio allow-list is a catalog line
   * that `trim()` leaves alone: it starts with '/' and ends with the last
   * letter of its extension.
   */
  lemma {:induction false} SupportedAbsolutePathIsTrimmed(p: string)
    requires StartsWith(p, "/") && IsSupportedAudioFile(p)
    ensures p != "" && IsTrimmed(p)
  {
    assert p[0] == '/';
  }
}
