/**
 * The streaming client's track list (`getStringFromObject`, `hasTrackHash`,
 * `appendTrackFromObject` and `walkTracks` in src/network_player.cpp): a
 * bounded list of tracks, kept in four parallel arrays, filled from every
 * object of a playlist reply that carries a hash not seen before.
 */
module Tracks {
  import opened Wrappers
  import opened Config
  import opened Strings
  import opened Json

  /** One track: the four parallel arrays at one index. */
  datatype Track = Track(hash: string, title: string, artist: string, albumAudioId: string)

  /** The fields each part of a track is read from, in the order they are tried. */
  const HashKeys: seq<string> := ["hash", "Hash", "audio_hash", "file_hash"]
  const TitleKeys: seq<string> := ["filename", "songname", "song_name", "name"]
  const ArtistKeys: seq<string> := ["author_name", "singername", "artist", "singer"]
  const AlbumKeys: seq<string> := ["album_audio_id", "mixsongid", "audio_id", "audioid"]

  /**
   * What `getStringFromObject` takes from one value: a string as it is, an
   * integer that fits `int`, `unsigned int`, `long` or `unsigned long` as
   * its decimal text, one that fits only `long long` cut to the 32-bit
   * `long` first; anything else is passed over.
   */
  function StoredText(v: Json): (r: Option<string>)
    ensures r.Some? <==> v.Str? || (v.Int? && IsInt64(v.i))
    ensures v.Str? ==> r == Some(v.s)
    ensures v.Int? && (IsInt32(v.i) || IsUint32(v.i)) ==> r == Some(DecimalText(v.i))
  {
    match v
    case Str(s) => Some(s)
    case Int(n) =>
      if IsInt32(n) || IsUint32(n) then Some(DecimalText(n))
      else if IsInt64(n) then Some(DecimalText(ToLong32(n)))
      else None
    case _ => None
  }

  /** `getStringFromObject`: the text of the first of `keys` that is present with a value it takes, else empty. */
  method GetStringFromObject(members: seq<Member>, keys: seq<string>) returns (text: string)
    ensures text == FirstText(members, keys, StoredText)
  {
    for i := 0 to |keys|
      invariant FirstText(members, keys[i..], StoredText) == FirstText(members, keys, StoredText)
    {
      assert keys[i..][1..] == keys[i + 1..];
      if !HasKey(members, keys[i]) {
        continue;
      }
      var v := Get(members, keys[i]).value;
      if v.Str? {
        return v.s;
      }
      if v.Int? && (IsInt32(v.i) || IsUint32(v.i)) {
        return DecimalText(v.i);
      }
      if v.Int? && IsInt64(v.i) {
        return DecimalText(ToLong32(v.i));
      }
    }
    assert keys[|keys|..] == [];
    return "";
  }

  /** Some track carries `hash`. */
  predicate HasHash(ts: seq<Track>, hash: string) {
    exists i :: 0 <= i < |ts| && ts[i].hash == hash
  }

  /**
   * What the list always satisfies: at most MAX_NETWORK_TRACKS tracks, each
   * with a trimmed non-empty hash and a non-empty title, no hash twice.
   */
  predicate TracksOk(ts: seq<Track>) {
    && |ts| <= MaxNetworkTracks
    && (forall i :: 0 <= i < |ts| ==> ts[i].hash != [] && IsTrimmed(ts[i].hash) && ts[i].title != [])
    && (forall i, j :: 0 <= i < j < |ts| ==> ts[i].hash != ts[j].hash)
  }

  /**
   * `appendTrackFromObject` on the list: with room left and a trimmed hash
   * that is non-empty and new, the object's track goes to the end, its
   * title defaulting to the hash.
   */
  function AppendSpec(ts: seq<Track>, members: seq<Member>): seq<Track> {
    if |ts| >= MaxNetworkTracks then ts
    else
      var hash := Trim(FirstText(members, HashKeys, StoredText));
      if hash == [] || HasHash(ts, hash) then ts
      else
        var title := FirstText(members, TitleKeys, StoredText);
        ts + [Track(hash, if title == [] then hash else title,
                    FirstText(members, ArtistKeys, StoredText), FirstText(members, AlbumKeys, StoredText))]
  }

  /** Appending keeps the list valid, keeps every earlier track, adds at most one, and always ends up holding a new usable hash. */
  lemma {:induction false} AppendKeepsOk(ts: seq<Track>, members: seq<Member>)
    requires TracksOk(ts)
    ensures var r := AppendSpec(ts, members);
      && TracksOk(r)
      && ts <= r && |r| <= |ts| + 1
      && (|ts| < MaxNetworkTracks && Trim(FirstText(members, HashKeys, StoredText)) != [] ==>
            HasHash(r, Trim(FirstText(members, HashKeys, StoredText))))
  {
    var hash := Trim(FirstText(members, HashKeys, StoredText));
    var r := AppendSpec(ts, members);
    if |ts| < MaxNetworkTracks && hash != [] && !HasHash(ts, hash) {
      assert r[|ts|].hash == hash;
      assert forall i :: 0 <= i < |ts| ==> r[i] == ts[i];
    }
  }

  /**
   * `walkTracks` on the list: stop once the list is full; an object first
   * offers its own track, then its member values are walked in order; an
   * array's items are walked in order; anything else adds nothing.
   */
  function WalkNode(ts: seq<Track>, node: Json): seq<Track>
    decreases node, 2, 0
  {
    if |ts| >= MaxNetworkTracks then ts
    else
      match node
      case Obj(members) => WalkChildren(AppendSpec(ts, members), node, 0)
      case Arr(_) => WalkChildren(ts, node, 0)
      case _ => ts
  }

  /** The loop over the children of `node` from the `i`-th on, stopping once the list is full. */
  function WalkChildren(ts: seq<Track>, node: Json, i: nat): seq<Track>
    requires node.Obj? || node.Arr?
    decreases node, 1, Width(node) - i
  {
    if i >= Width(node) then ts
    else
      var t := match node
        case Obj(members) => WalkNode(ts, members[i].value)
        case Arr(items) => WalkNode(ts, items[i]);
      if |t| >= MaxNetworkTracks then t else WalkChildren(t, node, i + 1)
  }

  /** One pass of the children loop. */
  lemma {:induction false} WalkChildrenStep(ts: seq<Track>, node: Json, i: nat)
    requires (node.Obj? || node.Arr?) && i < Width(node)
    ensures var t := WalkNode(ts, if node.Obj? then node.members[i].value else node.items[i]);
      WalkChildren(ts, node, i) == if |t| >= MaxNetworkTracks then t else WalkChildren(t, node, i + 1)
  {
  }

  /** The walk keeps the list valid and never drops or reorders a track already listed. */
  lemma {:induction false} WalkNodeKeepsOk(ts: seq<Track>, node: Json)
    requires TracksOk(ts)
    ensures TracksOk(WalkNode(ts, node)) && ts <= WalkNode(ts, node)
    decreases node, 2, 0
  {
    if |ts| < MaxNetworkTracks {
      match node
      case Obj(members) =>
        AppendKeepsOk(ts, members);
        WalkChildrenKeepsOk(AppendSpec(ts, members), node, 0);
      case Arr(_) =>
        WalkChildrenKeepsOk(ts, node, 0);
      case _ =>
    }
  }

  lemma {:induction false} WalkChildrenKeepsOk(ts: seq<Track>, node: Json, i: nat)
    requires node.Obj? || node.Arr?
    requires TracksOk(ts)
    ensures TracksOk(WalkChildren(ts, node, i)) && ts <= WalkChildren(ts, node, i)
    decreases node, 1, Width(node) - i
  {
    if i < Width(node) {
      var child := if node.Obj? then node.members[i].value else node.items[i];
      WalkNodeKeepsOk(ts, child);
      var t := WalkNode(ts, child);
      if |t| < MaxNetworkTracks {
        WalkChildrenKeepsOk(t, node, i + 1);
      }
    }
  }

  /**
   * Objects are visited before what they contain: walking an object with
   * room left starts with its own track (when it offers one), and a
   * usable hash on it is listed afterwards, whether new or already there.
   */
  lemma {:induction false} ObjectBeforeItsMembers(ts: seq<Track>, members: seq<Member>)
    requires TracksOk(ts) && |ts| < MaxNetworkTracks
    ensures AppendSpec(ts, members) <= WalkNode(ts, Obj(members))
    ensures var hash := Trim(FirstText(members, HashKeys, StoredText));
      hash != [] ==> HasHash(WalkNode(ts, Obj(members)), hash)
  {
    var first := AppendSpec(ts, members);
    AppendKeepsOk(ts, members);
    WalkChildrenKeepsOk(first, Obj(members), 0);
    var hash := Trim(FirstText(members, HashKeys, StoredText));
    if hash != [] {
      var r := WalkNode(ts, Obj(members));
      var i :| 0 <= i < |first| && first[i].hash == hash;
      assert r[i] == first[i];
    }
  }

  /** The first `n` rows of the four parallel arrays. */
  function Rows(hashes: seq<string>, titles: seq<string>, artists: seq<string>, albums: seq<string>, n: nat): (r: seq<Track>)
    requires n <= |hashes| && n <= |titles| && n <= |artists| && n <= |albums|
    ensures |r| == n
    ensures forall i :: 0 <= i < n ==> r[i] == Track(hashes[i], titles[i], artists[i], albums[i])
  {
    seq(n, i requires 0 <= i < n => Track(hashes[i], titles[i], artists[i], albums[i]))
  }

  /** The `networkTrack*` arrays and `networkTrackCount`. */
  class NetworkTracks {
    const hash: array<string>
    const title: array<string>
    const artist: array<string>
    const albumAudioId: array<string>
    var count: int

    /** Four distinct arrays of MAX_NETWORK_TRACKS slots. */
    ghost predicate Shape()
      reads this
    {
      && hash.Length == MaxNetworkTracks && title.Length == MaxNetworkTracks
      && artist.Length == MaxNetworkTracks && albumAudioId.Length == MaxNetworkTracks
      && hash != title && hash != artist && hash != albumAudioId
      && title != artist && title != albumAudioId && artist != albumAudioId
    }

    /** The tracks in the first `count` slots. */
    ghost function Stored(): seq<Track>
      reads this, hash, title, artist, albumAudioId
      requires Shape() && 0 <= count <= MaxNetworkTracks
    {
      Rows(hash[..], title[..], artist[..], albumAudioId[..], count)
    }

    ghost predicate Valid()
      reads this, hash, title, artist, albumAudioId
    {
      Shape() && 0 <= count <= MaxNetworkTracks && TracksOk(Stored())
    }

    /** The list starts empty. */
    constructor ()
      ensures Valid() && Stored() == []
    {
      hash := new string[MaxNetworkTracks](_ => "");
      title := new string[MaxNetworkTracks](_ => "");
      artist := new string[MaxNetworkTracks](_ => "");
      albumAudioId := new string[MaxNetworkTracks](_ => "");
      count := 0;
    }

    /** `hasTrackHash`: whether a listed track carries `h`. */
    method HasTrackHash(h: string) returns (found: bool)
      requires Valid()
      ensures found == HasHash(Stored(), h)
    {
      ghost var ts := Stored();
      for i := 0 to count
        invariant forall j :: 0 <= j < i ==> ts[j].hash != h
      {
        if hash[i] == h {
          assert ts[i].hash == h;
          return true;
        }
      }
      return false;
    }

    /** `int idx = networkTrackCount++` and the four writes at `idx`. */
    method Put(t: Track)
      requires Valid() && count < MaxNetworkTracks && TracksOk(Stored() + [t])
      modifies this`count, hash, title, artist, albumAudioId
      ensures Valid() && Stored() == old(Stored()) + [t]
    {
      ghost var before := Stored();
      var idx := count;
      count := count + 1;
      hash[idx] := t.hash;
      title[idx] := t.title;
      artist[idx] := t.artist;
      albumAudioId[idx] := t.albumAudioId;
      var now := Stored();
      assert now[idx] == t;
      assert forall j :: 0 <= j < idx ==> now[j] == before[j];
      assert now == before + [t];
    }

    /** `appendTrackFromObject`. */
    method AppendTrackFromObject(members: seq<Member>)
      requires Valid()
      modifies this`count, hash, title, artist, albumAudioId
      ensures Valid() && Stored() == AppendSpec(old(Stored()), members)
    {
      if count >= MaxNetworkTracks {
        return;
      }
      var h := GetStringFromObject(members, HashKeys);
      h := Trim(h);
      if |h| == 0 {
        return;
      }
      var seen := HasTrackHash(h);
      if seen {
        return;
      }
      var t := GetStringFromObject(members, TitleKeys);
      var a := GetStringFromObject(members, ArtistKeys);
      var album := GetStringFromObject(members, AlbumKeys);
      if |t| == 0 {
        t := h;
      }
      AppendKeepsOk(Stored(), members);
      Put(Track(h, t, a, album));
    }

    /** `walkTracks`. */
    method WalkTracks(node: Json)
      requires Valid()
      modifies this`count, hash, title, artist, albumAudioId
      ensures Valid() && Stored() == WalkNode(old(Stored()), node)
      decreases node, 2, 0
    {
      if count >= MaxNetworkTracks {
        return;
      }
      if node.Obj? {
        AppendTrackFromObject(node.members);
        WalkChildTracks(node);
      } else if node.Arr? {
        WalkChildTracks(node);
      }
    }

    /** The loop of `walkTracks` over an object's member values or an array's items. */
    method WalkChildTracks(node: Json)
      requires node.Obj? || node.Arr?
      requires Valid()
      modifies this`count, hash, title, artist, albumAudioId
      ensures Valid() && Stored() == WalkChildren(old(Stored()), node, 0)
      decreases node, 1, Width(node)
    {
      var n := if node.Obj? then |node.members| else |node.items|;
      for i := 0 to n
        invariant Valid()
        invariant WalkChildren(Stored(), node, i) == WalkChildren(old(Stored()), node, 0)
      {
        var child := if node.Obj? then node.members[i].value else node.items[i];
        WalkChildrenStep(Stored(), node, i);
        WalkTracks(child);
        if count >= MaxNetworkTracks {
          return;
        }
      }
    }
  }
}
