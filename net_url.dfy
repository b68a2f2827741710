/**
 * URL text helpers of the streaming client (src/network_player.cpp):
 * base-URL normalisation, host extraction and the audio-URL test.
 */
module NetUrl {
  import opened Strings

  /** `s.startsWith("http://") || s.startsWith("https://")`, case-sensitive as in the code. */
  predicate IsHttpUrl(s: string) {
    StartsWith(s, "http://") || StartsWith(s, "https://")
  }

  /** A non-empty base without a scheme gets `http://` in front. */
  function WithScheme(t: string): string {
    if |t| > 0 && !IsHttpUrl(t) then "http://" + t else t
  }

  /** Trimming the same text twice changes nothing more. */
  lemma {:induction false} TrimIsIdempotent(s: string)
    ensures Trim(Trim(s)) == Trim(s)
  {
    TrimOfTrimmed(Trim(s));
  }

  /** Adding the scheme keeps a non-empty text non-empty, starting with a letter and ending as before. */
  lemma {:induction false} WithSchemeEnds(t: string)
    requires t != []
    ensures var full := WithScheme(t);
      full != [] && full[0] == 'h' && full[|full| - 1] == t[|t| - 1]
  {
    if IsHttpUrl(t) {
      assert t[..4][0] == 'h';
    }
  }

  /**
   * `normalizeBaseUrl`: trim, add `http://` when no scheme is given, then
   * strip every trailing `/`. The result is the schemed text minus exactly
   * its run of trailing slashes.
   */
  method NormalizeBaseUrl(input: string) returns (base: string)
    ensures base == [] <==> AllSpace(input)
    ensures base == [] || base[|base| - 1] != '/'
    ensures var full := WithScheme(Trim(input));
      && |base| <= |full| && base == full[..|base|]
      && forall k :: |base| <= k < |full| ==> full[k] == '/'
    ensures Trim(input) != [] && Trim(input)[|Trim(input)| - 1] != '/' ==> base == WithScheme(Trim(input))
  {
    var trimmed := Trim(input);
    base := trimmed;
    if |base| > 0 && !StartsWith(base, "http://") && !StartsWith(base, "https://") {
      base := "http://" + base;
    }
    ghost var full := base;
    assert full == WithScheme(trimmed);
    if trimmed != [] {
      WithSchemeEnds(trimmed);
    }
    while EndsWith(base, "/")
      invariant |base| <= |full| && base == full[..|base|]
      invariant forall k :: |base| <= k < |full| ==> full[k] == '/'
      invariant full != [] ==> base != [] && base[0] == 'h'
      decreases |base|
    {
      assert base[|base| - 1] == '/';
      base := base[..|base| - 1];
    }
    assert base == [] || base[|base| - 1] != '/' by {
      if base != [] {
        assert base[|base| - 1..] == [base[|base| - 1]];
      }
    }
  }

  /** Where the authority starts: just past the first `://`, or at 0 without one. */
  function AuthorityStart(url: string): (r: nat)
    ensures r <= |url|
    ensures r == 0 || (r >= 3 && url[r - 3..r] == "://")
  {
    var scheme := IndexOfText(url, "://");
    if scheme >= 0 then scheme + 3 else 0
  }

  /** From `start` up to the next `/`, or to the end without one. */
  function HostPortAt(url: string, start: nat): (r: string)
    requires start <= |url|
    ensures forall k :: 0 <= k < |r| ==> r[k] != '/'
    ensures start + |r| <= |url| && forall k :: 0 <= k < |r| ==> r[k] == url[start + k]
    ensures start + |r| == |url| || url[start + |r|] == '/'
  {
    var pathPos := IndexOfFrom(url, '/', start);
    IndexOfFromFirst(url, '/', start);
    var stop := if pathPos >= 0 then pathPos else |url|;
    url[start..stop]
  }

  /** What follows the last `@`, or everything without one. */
  function WithoutUserInfo(hostPort: string): (r: string)
    ensures forall k :: 0 <= k < |r| ==> r[k] != '@'
    ensures |r| <= |hostPort| && forall k :: 0 <= k < |r| ==> r[k] == hostPort[|hostPort| - |r| + k]
    ensures |r| == |hostPort| || hostPort[|hostPort| - |r| - 1] == '@'
  {
    var atPos := LastIndexOf(hostPort, '@');
    hostPort[atPos + 1..]
  }

  /** Everything before the first `:`, unless that colon is the first character. */
  function WithoutPort(bare: string): (r: string)
    ensures |r| <= |bare| && forall k :: 0 <= k < |r| ==> r[k] == bare[k]
    ensures forall k :: 0 <= k < |r| && |r| < |bare| ==> r[k] != ':'
    ensures |r| == |bare| || (|r| > 0 && bare[|r|] == ':')
    ensures bare != [] && bare[0] == ':' ==> r == bare
  {
    var colonPos := IndexOf(bare, ':');
    IndexOfFirst(bare, ':');
    if colonPos > 0 then bare[..colonPos] else bare
  }

  /**
   * `extractHostFromUrl`: skip past the first `://`, cut at the next `/`,
   * keep what follows the last `@`, and drop a `:port` unless the colon is
   * the first character.
   */
  function ExtractHostFromUrl(url: string): string {
    WithoutPort(WithoutUserInfo(HostPortAt(url, AuthorityStart(url))))
  }

  /** The host is a piece of the URL holding neither `/` nor `@`. */
  lemma {:induction false} ExtractedHostIsPlain(url: string)
    ensures var host := ExtractHostFromUrl(url);
      forall k :: 0 <= k < |host| ==> host[k] != '/' && host[k] != '@'
  {
    var hostPort := HostPortAt(url, AuthorityStart(url));
    var bare := WithoutUserInfo(hostPort);
    var host := WithoutPort(bare);
    assert host == ExtractHostFromUrl(url);
  }

  /** Text free of the characters that delimit the parts of a URL. */
  predicate PlainPart(s: string) {
    forall k :: 0 <= k < |s| ==> s[k] != ':' && s[k] != '/' && s[k] != '@'
  }

  /** The authority of `scheme://rest` starts right after the separator when the scheme has no colon. */
  lemma {:induction false} AuthorityAfterScheme(scheme: string, hostPort: string, path: string)
    requires PlainPart(scheme)
    ensures AuthorityStart(scheme + "://" + hostPort + "/" + path) == |scheme| + 3
  {
    var url := scheme + "://" + hostPort + "/" + path;
    assert url[|scheme|..][..3] == "://";
    forall k | 0 <= k < |scheme|
      ensures !StartsWith(url[k..], "://")
    {
      assert url[k..][0] == scheme[k];
    }
    assert IndexOfText(url, "://") == |scheme|;
  }

  /** The host-and-port piece runs up to the `/` that ends it. */
  lemma {:induction false} HostPortBeforeSlash(prefix: string, hostPort: string, path: string)
    requires forall k :: 0 <= k < |hostPort| ==> hostPort[k] != '/'
    ensures HostPortAt(prefix + hostPort + "/" + path, |prefix|) == hostPort
  {
    var url := prefix + hostPort + "/" + path;
    var cut := |prefix| + |hostPort|;
    assert url[cut] == '/';
    forall k | |prefix| <= k < cut
      ensures url[k] != '/'
    {
      assert url[k] == hostPort[k - |prefix|];
    }
    IndexOfFromFirst(url, '/', |prefix|);
    assert IndexOfFrom(url, '/', |prefix|) == cut;
    assert url[|prefix|..cut] == hostPort;
  }

  /** Host and optional `:port` with neither part holding `/` or `@`. */
  lemma {:induction false} HostWithPortParts(host: string, port: string)
    requires PlainPart(host) && host != []
    requires forall k :: 0 <= k < |port| ==> port[k] != '/' && port[k] != '@'
    ensures var hostPort := if port == [] then host else host + ":" + port;
      && (forall k :: 0 <= k < |hostPort| ==> hostPort[k] != '/')
      && WithoutPort(WithoutUserInfo(hostPort)) == host
  {
    var hostPort := if port == [] then host else host + ":" + port;
    forall k | 0 <= k < |hostPort|
      ensures hostPort[k] != '/' && hostPort[k] != '@'
    {
      if k < |host| {
        assert hostPort[k] == host[k];
      } else if k > |host| {
        assert hostPort[k] == port[k - |host| - 1];
      }
    }
    assert LastIndexOf(hostPort, '@') == -1;
    assert hostPort[0..] == hostPort;
    IndexOfFirst(hostPort, ':');
    if port != [] {
      assert hostPort[|host|] == ':';
      assert IndexOf(hostPort, ':') == |host|;
      assert hostPort[..|host|] == host;
    } else {
      assert IndexOf(hostPort, ':') == -1;
    }
  }

  /**
   * For a URL assembled as scheme://host[:port]/path, host extraction
   * gives back exactly the host.
   */
  lemma {:induction false} ExtractHostOfAssembledUrl(scheme: string, host: string, port: string, path: string)
    requires PlainPart(scheme) && PlainPart(host) && host != []
    requires forall k :: 0 <= k < |port| ==> port[k] != '/' && port[k] != '@'
    ensures var hostPort := if port == [] then host else host + ":" + port;
      ExtractHostFromUrl(scheme + "://" + hostPort + "/" + path) == host
  {
    var hostPort := if port == [] then host else host + ":" + port;
    AuthorityAfterScheme(scheme, hostPort, path);
    HostWithPortParts(host, port);
    HostPortBeforeSlash(scheme + "://", hostPort, path);
  }

  /** The extensions that mark a URL as audio. */
  const AudioMarkers: seq<string> := [".mp3", ".flac", ".m4a", ".wav", ".aac"]

  /** Some audio extension occurs in `s`. */
  predicate HasAudioMarker(s: string) {
    Contains(s, ".mp3") || Contains(s, ".flac") || Contains(s, ".m4a") || Contains(s, ".wav") || Contains(s, ".aac")
  }

  /**
   * `looksLikeAudioUrl`: an http(s) URL whose lower-cased text contains one
   * of the audio extensions anywhere.
   */
  function LooksLikeAudioUrl(url: string): bool {
    if !IsHttpUrl(url) then false
    else
      var lower := ToLower(url);
      IndexOfText(lower, ".mp3") >= 0 || IndexOfText(lower, ".flac") >= 0 || IndexOfText(lower, ".m4a") >= 0
      || IndexOfText(lower, ".wav") >= 0 || IndexOfText(lower, ".aac") >= 0
  }

  lemma {:induction false} LooksLikeAudioUrlMeans(url: string)
    ensures LooksLikeAudioUrl(url) <==> IsHttpUrl(url) && HasAudioMarker(ToLower(url))
  {
    var lower := ToLower(url);
    IndexOfTextFinds(lower, ".mp3");
    IndexOfTextFinds(lower, ".flac");
    IndexOfTextFinds(lower, ".m4a");
    IndexOfTextFinds(lower, ".wav");
    IndexOfTextFinds(lower, ".aac");
  }

  /** The extension test ignores letter case: "song.MP3" counts as ".mp3". */
  lemma {:induction false} AudioExtensionAnyCase(url: string, m: string)
    requires IsHttpUrl(url) && m in AudioMarkers
    requires EndsWith(ToLower(url), m)
    ensures LooksLikeAudioUrl(url)
  {
    var lower := ToLower(url);
    assert StartsWith(lower[|lower| - |m|..], m);
    assert Contains(lower, m);
    LooksLikeAudioUrlMeans(url);
  }
}
