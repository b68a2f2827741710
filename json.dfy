/**
 * The parsed JSON documents the streaming client reads (src/network_player.cpp),
 * as a value: the ArduinoJson variant with its type tests on a 32-bit
 * target (`int` and `long` are 32 bits wide, `long long` 64), and the
 * field readers built on them.
 */
module Json {
  import opened Wrappers

  /** A JSON value. Numbers with a fraction carry no payload: every reader here skips them. */
  datatype Json =
    | Null
    | Bool(b: bool)
    | Int(i: int)
    | Float
    | Str(s: string)
    | Arr(items: seq<Json>)
    | Obj(members: seq<Member>)

  /** One member of an object, in document order. */
  datatype Member = Member(key: string, value: Json)

  /** Index of the first member named `key`, or -1. */
  function KeyIndex(members: seq<Member>, key: string): (i: int)
    ensures -1 <= i < |members|
    ensures i >= 0 ==> members[i].key == key
    ensures forall j :: 0 <= j < |members| && (i < 0 || j < i) ==> members[j].key != key
  {
    if members == [] then -1
    else if members[0].key == key then 0
    else
      var i := KeyIndex(members[1..], key);
      if i < 0 then -1 else i + 1
  }

  /** `obj.containsKey(key)`. */
  predicate HasKey(members: seq<Member>, key: string) {
    KeyIndex(members, key) >= 0
  }

  /** `obj[key]` on a present key: the value of the first member with that name. */
  function Get(members: seq<Member>, key: string): Option<Json> {
    var i := KeyIndex(members, key);
    if i < 0 then None else Some(members[i].value)
  }

  /** Reading a key of two member runs in a row: the first run wins when it has the key. */
  lemma {:induction false} GetOfConcat(members: seq<Member>, extra: seq<Member>, key: string)
    ensures Get(members + extra, key) == if HasKey(members, key) then Get(members, key) else Get(extra, key)
    decreases |members|
  {
    var all := members + extra;
    if members == [] {
      assert all == extra;
    } else if members[0].key != key {
      assert all[1..] == members[1..] + extra;
      GetOfConcat(members[1..], extra, key);
    }
  }

  /** How many children an object or array has: its members, or its items. */
  function Width(node: Json): nat
    requires node.Obj? || node.Arr?
  {
    if node.Obj? then |node.members| else |node.items|
  }

  /** `is<int>()` and, on this target, `is<long>()`. */
  predicate IsInt32(n: int) {
    -0x8000_0000 <= n < 0x8000_0000
  }

  /** `is<unsigned int>()` and, on this target, `is<unsigned long>()`. */
  predicate IsUint32(n: int) {
    0 <= n < 0x1_0000_0000
  }

  /** `is<long long>()`. */
  predicate IsInt64(n: int) {
    -0x8000_0000_0000_0000 <= n < 0x8000_0000_0000_0000
  }

  /** A value of the 32-bit `long`. */
  type Long = n: int | IsInt32(n)

  /** The conversion to the 32-bit `long`: keep the low 32 bits as two's complement. */
  function ToLong32(n: int): (r: Long)
    ensures IsInt32(n) ==> r == n
    ensures (r - n) % 0x1_0000_0000 == 0
  {
    (n + 0x8000_0000) % 0x1_0000_0000 - 0x8000_0000
  }

  /** A decimal digit as a character. */
  function DigitChar(d: nat): char
    requires d < 10
  {
    "0123456789"[d]
  }

  /** The decimal digits of `n`, most significant first. */
  function Digits(n: nat): (r: string)
    ensures r != []
    decreases n
  {
    if n < 10 then [DigitChar(n)] else Digits(n / 10) + [DigitChar(n % 10)]
  }

  /** `String(n)`: the decimal text of an integer, with a leading `-` when negative. */
  function DecimalText(n: int): (r: string)
    ensures r != []
  {
    if n < 0 then "-" + Digits(-n) else Digits(n)
  }

  /**
   * Text the first present key of `keys` gives through `textOf`: a key that
   * is missing, or whose value `textOf` does not take, is passed over for
   * the next one; with none left the text is empty.
   */
  function FirstText(members: seq<Member>, keys: seq<string>, textOf: Json -> Option<string>): string
    decreases |keys|
  {
    if keys == [] then []
    else
      var v := Get(members, keys[0]);
      if v.Some? && textOf(v.value).Some? then textOf(v.value).value
      else FirstText(members, keys[1..], textOf)
  }

  /** A key the reader accepts: present, with a value `textOf` takes. */
  predicate Usable(members: seq<Member>, key: string, textOf: Json -> Option<string>) {
    var v := Get(members, key);
    v.Some? && textOf(v.value).Some?
  }

  /**
   * The reader gives the text of the first usable key, or the empty text
   * when no key is usable.
   */
  lemma {:induction false} FirstTextIsFirstUsable(members: seq<Member>, keys: seq<string>, textOf: Json -> Option<string>)
    ensures (forall k :: 0 <= k < |keys| ==> !Usable(members, keys[k], textOf)) ==> FirstText(members, keys, textOf) == []
    ensures forall k :: 0 <= k < |keys| && Usable(members, keys[k], textOf) && (forall j :: 0 <= j < k ==> !Usable(members, keys[j], textOf)) ==>
      FirstText(members, keys, textOf) == textOf(Get(members, keys[k]).value).value
  {
    if forall k :: 0 <= k < |keys| ==> !Usable(members, keys[k], textOf) {
      FirstTextNoneUsable(members, keys, textOf);
    }
    forall k | 0 <= k < |keys| && Usable(members, keys[k], textOf) && (forall j :: 0 <= j < k ==> !Usable(members, keys[j], textOf))
      ensures FirstText(members, keys, textOf) == textOf(Get(members, keys[k]).value).value
    {
      FirstTextAt(members, keys, textOf, k);
    }
  }

  /** With no usable key the reader gives the empty text. */
  lemma {:induction false} FirstTextNoneUsable(members: seq<Member>, keys: seq<string>, textOf: Json -> Option<string>)
    requires forall k :: 0 <= k < |keys| ==> !Usable(members, keys[k], textOf)
    ensures FirstText(members, keys, textOf) == []
    decreases |keys|
  {
    if keys != [] {
      assert !Usable(members, keys[0], textOf);
      var rest := keys[1..];
      forall k | 0 <= k < |rest|
        ensures !Usable(members, rest[k], textOf)
      {
        assert rest[k] == keys[k + 1];
      }
      FirstTextNoneUsable(members, rest, textOf);
    }
  }

  /** When key `k` is the first usable one, the reader gives its text. */
  lemma {:induction false} FirstTextAt(members: seq<Member>, keys: seq<string>, textOf: Json -> Option<string>, k: nat)
    requires k < |keys| && Usable(members, keys[k], textOf)
    requires forall j :: 0 <= j < k ==> !Usable(members, keys[j], textOf)
    ensures FirstText(members, keys, textOf) == textOf(Get(members, keys[k]).value).value
    decreases k
  {
    if k > 0 {
      assert !Usable(members, keys[0], textOf);
      var rest := keys[1..];
      assert rest[k - 1] == keys[k];
      forall j | 0 <= j < k - 1
        ensures !Usable(members, rest[j], textOf)
      {
        assert rest[j] == keys[j + 1];
      }
      FirstTextAt(members, rest, textOf, k - 1);
    }
  }
}
