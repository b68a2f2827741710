/**
 * How the streaming client picks a playable URL out of a reply
 * (`collectUrls` in src/network_player.cpp): every string of the document
 * is read in document order, the first http(s) string becomes the fallback
 * and the first one that looks like an audio file becomes the best URL.
 */
module MediaUrls {
  import opened Strings
  import opened Json
  import opened NetUrl

  /** The two out-parameters of `collectUrls`: the best audio URL and the fallback URL. */
  datatype Urls = Urls(best: string, fallback: string)

  /** What one string does: an http(s) string fills the fallback if empty, and the best URL if empty and it looks like audio. */
  function TakeString(acc: Urls, s: string): Urls {
    if IsHttpUrl(s) then
      Urls(if acc.best == [] && LooksLikeAudioUrl(s) then s else acc.best,
           if acc.fallback == [] then s else acc.fallback)
    else acc
  }

  /**
   * `collectUrls` on values: a string is taken, the values of an object and
   * the items of an array are searched in order until a best URL is set,
   * and anything else is ignored.
   */
  function CollectNode(acc: Urls, node: Json): Urls
    decreases node, 2, 0
  {
    match node
    case Str(s) => TakeString(acc, s)
    case Obj(_) => CollectChildren(acc, node, 0)
    case Arr(_) => CollectChildren(acc, node, 0)
    case _ => acc
  }

  /** The loop over the children of `node` from the `i`-th on. */
  function CollectChildren(acc: Urls, node: Json, i: nat): Urls
    requires node.Obj? || node.Arr?
    decreases node, 1, Width(node) - i
  {
    if i >= Width(node) then acc
    else
      var a := match node
        case Obj(members) => CollectNode(acc, members[i].value)
        case Arr(items) => CollectNode(acc, items[i]);
      if a.best != [] then a else CollectChildren(a, node, i + 1)
  }

  /** One pass of the children loop. */
  lemma {:induction false} CollectChildrenStep(acc: Urls, node: Json, i: nat)
    requires (node.Obj? || node.Arr?) && i < Width(node)
    ensures var a := CollectNode(acc, if node.Obj? then node.members[i].value else node.items[i]);
      CollectChildren(acc, node, i) == if a.best != [] then a else CollectChildren(a, node, i + 1)
  {
  }

  /** `collectUrls`, its two reference parameters passed in and handed back. */
  method CollectUrls(node: Json, bestIn: string, fallbackIn: string) returns (best: string, fallback: string)
    ensures Urls(best, fallback) == CollectNode(Urls(bestIn, fallbackIn), node)
    decreases node, 2, 0
  {
    best, fallback := bestIn, fallbackIn;
    if node.Str? {
      var s := node.s;
      if StartsWith(s, "http://") || StartsWith(s, "https://") {
        if |fallback| == 0 {
          fallback := s;
        }
        if |best| == 0 && LooksLikeAudioUrl(s) {
          best := s;
        }
      }
      return;
    }
    if node.Obj? || node.Arr? {
      best, fallback := CollectChildUrls(node, best, fallback);
    }
  }

  /** The loops of `collectUrls` over an object's member values or an array's items. */
  method CollectChildUrls(node: Json, bestIn: string, fallbackIn: string) returns (best: string, fallback: string)
    requires node.Obj? || node.Arr?
    ensures Urls(best, fallback) == CollectChildren(Urls(bestIn, fallbackIn), node, 0)
    decreases node, 1, Width(node)
  {
    best, fallback := bestIn, fallbackIn;
    var n := if node.Obj? then |node.members| else |node.items|;
    for i := 0 to n
      invariant CollectChildren(Urls(best, fallback), node, i) == CollectChildren(Urls(bestIn, fallbackIn), node, 0)
    {
      var child := if node.Obj? then node.members[i].value else node.items[i];
      CollectChildrenStep(Urls(best, fallback), node, i);
      best, fallback := CollectUrls(child, best, fallback);
      if |best| > 0 {
        return;
      }
    }
  }

  /** The strings of a document in document order (object keys excluded). */
  function StringLeaves(node: Json): seq<string>
    decreases node, 2, 0
  {
    match node
    case Str(s) => [s]
    case Obj(_) => StringsFrom(node, 0)
    case Arr(_) => StringsFrom(node, 0)
    case _ => []
  }

  /** The strings of the children of `node` from the `i`-th on. */
  function StringsFrom(node: Json, i: nat): seq<string>
    requires node.Obj? || node.Arr?
    decreases node, 1, Width(node) - i
  {
    if i >= Width(node) then []
    else
      var first := match node
        case Obj(members) => StringLeaves(members[i].value)
        case Arr(items) => StringLeaves(items[i]);
      first + StringsFrom(node, i + 1)
  }

  /** Taking a run of strings one after the other, without ever stopping. */
  function Scan(acc: Urls, ss: seq<string>): Urls
    decreases |ss|
  {
    if ss == [] then acc else Scan(TakeString(acc, ss[0]), ss[1..])
  }

  /** The first string of `ss` that looks like an audio URL, or empty. */
  function FirstAudio(ss: seq<string>): string
    decreases |ss|
  {
    if ss == [] then [] else if LooksLikeAudioUrl(ss[0]) then ss[0] else FirstAudio(ss[1..])
  }

  /** The first http(s) string of `ss`, or empty. */
  function FirstHttp(ss: seq<string>): string
    decreases |ss|
  {
    if ss == [] then [] else if IsHttpUrl(ss[0]) then ss[0] else FirstHttp(ss[1..])
  }

  lemma {:induction false} ScanConcat(acc: Urls, a: seq<string>, b: seq<string>)
    ensures Scan(acc, a + b) == Scan(Scan(acc, a), b)
    decreases |a|
  {
    if a == [] {
      assert a + b == b;
    } else {
      assert (a + b)[0] == a[0];
      assert (a + b)[1..] == a[1..] + b;
      ScanConcat(TakeString(acc, a[0]), a[1..], b);
    }
  }

  /** Once both URLs are set, no string changes them. */
  lemma {:induction false} ScanSettled(acc: Urls, ss: seq<string>)
    requires acc.best != [] && acc.fallback != []
    ensures Scan(acc, ss) == acc
    decreases |ss|
  {
    if ss != [] {
      ScanSettled(TakeString(acc, ss[0]), ss[1..]);
    }
  }

  /** A best URL never comes without a fallback. */
  predicate Consistent(acc: Urls) {
    acc.best != [] ==> acc.fallback != []
  }

  lemma {:induction false} ScanKeepsConsistent(acc: Urls, ss: seq<string>)
    requires Consistent(acc)
    ensures Consistent(Scan(acc, ss))
    decreases |ss|
  {
    if ss != [] {
      assert Consistent(TakeString(acc, ss[0])) by {
        LooksLikeAudioUrlMeans(ss[0]);
      }
      ScanKeepsConsistent(TakeString(acc, ss[0]), ss[1..]);
    }
  }

  /**
   * Stopping the search once a best URL is set loses nothing: from
   * consistent URLs, `collectUrls` ends as taking every string of the
   * document in order would.
   */
  lemma {:induction false} CollectNodeIsScan(acc: Urls, node: Json)
    requires Consistent(acc)
    ensures CollectNode(acc, node) == Scan(acc, StringLeaves(node))
    decreases node, 2, 0
  {
    match node
    case Str(s) =>
      assert Scan(acc, [s]) == Scan(TakeString(acc, s), []);
    case Obj(_) =>
      CollectChildrenIsScan(acc, node, 0);
    case Arr(_) =>
      CollectChildrenIsScan(acc, node, 0);
    case _ =>
  }

  lemma {:induction false} CollectChildrenIsScan(acc: Urls, node: Json, i: nat)
    requires node.Obj? || node.Arr?
    requires Consistent(acc)
    ensures CollectChildren(acc, node, i) == Scan(acc, StringsFrom(node, i))
    decreases node, 1, Width(node) - i
  {
    if i < Width(node) {
      var child := if node.Obj? then node.members[i].value else node.items[i];
      var first := StringLeaves(child);
      var rest := StringsFrom(node, i + 1);
      CollectNodeIsScan(acc, child);
      var a := CollectNode(acc, child);
      ScanKeepsConsistent(acc, first);
      ScanConcat(acc, first, rest);
      if a.best != [] {
        ScanSettled(a, rest);
      } else {
        CollectChildrenIsScan(a, node, i + 1);
      }
    }
  }

  /** Taking strings in order sets each still-empty URL to the first string that qualifies for it. */
  lemma {:induction false} ScanFindsFirst(acc: Urls, ss: seq<string>)
    ensures Scan(acc, ss).best == if acc.best == [] then FirstAudio(ss) else acc.best
    ensures Scan(acc, ss).fallback == if acc.fallback == [] then FirstHttp(ss) else acc.fallback
    decreases |ss|
  {
    if ss != [] {
      var next := TakeString(acc, ss[0]);
      LooksLikeAudioUrlMeans(ss[0]);
      if IsHttpUrl(ss[0]) {
        assert ss[0][..7][0] == 'h';
      }
      ScanFindsFirst(next, ss[1..]);
    }
  }

  /**
   * From two empty URLs, `collectUrls` leaves as best URL the first string
   * of the document that looks like audio, and as fallback the first
   * http(s) string, each empty when there is none.
   */
  lemma {:induction false} CollectFromNothing(node: Json)
    ensures CollectNode(Urls([], []), node) == Urls(FirstAudio(StringLeaves(node)), FirstHttp(StringLeaves(node)))
  {
    CollectNodeIsScan(Urls([], []), node);
    ScanFindsFirst(Urls([], []), StringLeaves(node));
  }
}
