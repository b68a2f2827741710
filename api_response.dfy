/**
 * How the streaming client judges an API reply (`isApiResponseOk` and
 * `getMessageField` in src/network_player.cpp): the reply's message text,
 * and the verdict read from the first of its status fields that applies.
 */
module ApiResponse {
  import opened Wrappers
  import opened Json

  /** The fields `getMessageField` tries, in order. */
  const MessageKeys: seq<string> := ["msg", "message", "error", "err_msg", "errmsg"]

  /** The fields the verdict reads, in the order it tries them. */
  const RuleKeys: seq<string> := ["status", "success", "error_code", "code"]

  /** What `getMessageField` takes from one value: a string as it is, a 32-bit integer as its decimal text. */
  function MessageText(v: Json): (r: Option<string>)
    ensures r.Some? <==> v.Str? || (v.Int? && IsInt32(v.i))
    ensures v.Str? ==> r == Some(v.s)
  {
    match v
    case Str(s) => Some(s)
    case Int(n) => if IsInt32(n) then Some(DecimalText(n)) else None
    case _ => None
  }

  /** The message of a reply object: the text of the first message field that holds a string or a 32-bit integer. */
  function MessageOf(members: seq<Member>): string {
    FirstText(members, MessageKeys, MessageText)
  }

  /** `getMessageField`: try each message field in turn, skip a missing one or one of another type. */
  method GetMessageField(members: seq<Member>) returns (message: string)
    ensures message == MessageOf(members)
  {
    for i := 0 to |MessageKeys|
      invariant FirstText(members, MessageKeys[i..], MessageText) == MessageOf(members)
    {
      var key := MessageKeys[i];
      assert MessageKeys[i..][1..] == MessageKeys[i + 1..];
      if !HasKey(members, key) {
        continue;
      }
      var v := Get(members, key).value;
      if v.Str? {
        return v.s;
      }
      // `is<long>()` admits the same values as `is<int>()` on this target.
      if v.Int? && IsInt32(v.i) {
        return DecimalText(v.i);
      }
    }
    assert MessageKeys[|MessageKeys|..] == [];
    return "";
  }

  /**
   * `variantToLong`: an integer that fits `int` or `long` as it is, one that
   * fits `unsigned int` or `unsigned long` cast to the 32-bit `long`, a
   * string through `atol`; anything else does not convert.
   */
  function ToLong(v: Json, atol: string -> Long): (r: Option<Long>)
    ensures r.Some? <==> v.Str? || (v.Int? && (IsInt32(v.i) || IsUint32(v.i)))
    ensures v.Int? && IsInt32(v.i) ==> r == Some(v.i)
    ensures v.Int? && !IsInt32(v.i) && IsUint32(v.i) ==> r == Some(v.i - 0x1_0000_0000)
  {
    match v
    case Int(n) => if IsInt32(n) then Some(n) else if IsUint32(n) then Some(ToLong32(n)) else None
    case Str(s) => Some(atol(s))
    case _ => None
  }

  /** A present field's value converted by `variantToLong`, when it converts. */
  function Converted(members: seq<Member>, key: string, atol: string -> Long): Option<Long> {
    match Get(members, key)
    case None => None
    case Some(v) => ToLong(v, atol)
  }

  /**
   * `isApiResponseOk` on an object: a convertible `status` decides (1 or 200
   * pass); else a boolean `success` decides; else a convertible
   * `error_code` decides (0 passes); else a convertible `code` decides (0, 1
   * or 200 pass); with none of these the reply passes.
   */
  function ObjectVerdict(members: seq<Member>, atol: string -> Long): bool {
    var status := Converted(members, "status", atol);
    if status.Some? then status.value == 1 || status.value == 200
    else
      var success := Get(members, "success");
      if success.Some? && success.value.Bool? then success.value.b
      else
        var errorCode := Converted(members, "error_code", atol);
        if errorCode.Some? then errorCode.value == 0
        else
          var code := Converted(members, "code", atol);
          if code.Some? then code.value == 0 || code.value == 1 || code.value == 200
          else true
  }

  /** `isApiResponseOk`: anything but an object passes. */
  function ApiVerdict(root: Json, atol: string -> Long): bool {
    match root
    case Obj(members) => ObjectVerdict(members, atol)
    case _ => true
  }

  /** `isApiResponseOk` with its message out-parameter, which stays empty for a non-object. */
  method IsApiResponseOk(root: Json, atol: string -> Long) returns (ok: bool, message: string)
    ensures ok == ApiVerdict(root, atol)
    ensures message == if root.Obj? then MessageOf(root.members) else []
  {
    message := "";
    if !root.Obj? {
      return true, message;
    }
    var obj := root.members;
    message := GetMessageField(obj);
    if HasKey(obj, "status") {
      var status := ToLong(Get(obj, "status").value, atol);
      if status.Some? {
        return status.value == 1 || status.value == 200, message;
      }
    }
    if HasKey(obj, "success") && Get(obj, "success").value.Bool? {
      return Get(obj, "success").value.b, message;
    }
    if HasKey(obj, "error_code") {
      var code := ToLong(Get(obj, "error_code").value, atol);
      if code.Some? {
        return code.value == 0, message;
      }
    }
    if HasKey(obj, "code") {
      var code := ToLong(Get(obj, "code").value, atol);
      if code.Some? {
        return code.value == 0 || code.value == 1 || code.value == 200, message;
      }
    }
    return true, message;
  }

  /** What one rule says about a reply: nothing when it does not apply, else pass or fail. */
  function RuleDecisions(members: seq<Member>, atol: string -> Long): seq<Option<bool>> {
    var status := Converted(members, "status", atol);
    var success := Get(members, "success");
    var errorCode := Converted(members, "error_code", atol);
    var code := Converted(members, "code", atol);
    [ if status.Some? then Some(status.value in {1, 200}) else None,
      if success.Some? && success.value.Bool? then Some(success.value.b) else None,
      if errorCode.Some? then Some(errorCode.value == 0) else None,
      if code.Some? then Some(code.value in {0, 1, 200}) else None ]
  }

  /** The decision of the first rule that applies; passing when none does. */
  function FirstDecision(decisions: seq<Option<bool>>): bool
    decreases |decisions|
  {
    if decisions == [] then true
    else if decisions[0].Some? then decisions[0].value
    else FirstDecision(decisions[1..])
  }

  /** The verdict is the decision of the first applicable rule, in the order status, success, error_code, code. */
  lemma {:induction false} VerdictIsFirstApplicableRule(members: seq<Member>, atol: string -> Long)
    ensures ObjectVerdict(members, atol) == FirstDecision(RuleDecisions(members, atol))
  {
    var ds := RuleDecisions(members, atol);
    assert FirstDecision(ds[3..]) == (if ds[3].Some? then ds[3].value else true) by {
      assert ds[3..][1..] == [];
    }
    assert FirstDecision(ds[2..]) == if ds[2].Some? then ds[2].value else FirstDecision(ds[3..]) by {
      assert ds[2..][1..] == ds[3..];
    }
    assert FirstDecision(ds[1..]) == if ds[1].Some? then ds[1].value else FirstDecision(ds[2..]) by {
      assert ds[1..][1..] == ds[2..];
    }
  }

  /**
   * A rejected reply is an object one of whose rule fields says so: a
   * status other than 1 and 200, a false `success`, a non-zero
   * `error_code`, or a code other than 0, 1 and 200.
   */
  lemma {:induction false} FailureHasCause(root: Json, atol: string -> Long)
    requires !ApiVerdict(root, atol)
    ensures root.Obj?
    ensures var ms := root.members;
      || (Converted(ms, "status", atol).Some? && Converted(ms, "status", atol).value !in {1, 200})
      || Get(ms, "success") == Some(Bool(false))
      || (Converted(ms, "error_code", atol).Some? && Converted(ms, "error_code", atol).value != 0)
      || (Converted(ms, "code", atol).Some? && Converted(ms, "code", atol).value !in {0, 1, 200})
  {
  }

  /**
   * Members after the first occurrence of every field the judgement reads
   * change neither the verdict nor the message: a repeated key is read at
   * its first occurrence.
   */
  lemma {:induction false} VerdictReadsFirstOccurrence(members: seq<Member>, extra: seq<Member>, atol: string -> Long)
    requires forall k :: k in RuleKeys && HasKey(extra, k) ==> HasKey(members, k)
    requires forall k :: k in MessageKeys && HasKey(extra, k) ==> HasKey(members, k)
    ensures ObjectVerdict(members + extra, atol) == ObjectVerdict(members, atol)
    ensures MessageOf(members + extra) == MessageOf(members)
  {
    SameRead(members, extra, "status");
    SameRead(members, extra, "success");
    SameRead(members, extra, "error_code");
    SameRead(members, extra, "code");
    VerdictSameReads(members + extra, members, atol);
    forall k | k in MessageKeys
      ensures Get(members + extra, k) == Get(members, k)
    {
      SameRead(members, extra, k);
    }
    FirstTextSameReads(members + extra, members, MessageKeys, MessageText);
  }

  /** A key read of `members + extra` is one of `members` unless only `extra` has the key. */
  lemma {:induction false} SameRead(members: seq<Member>, extra: seq<Member>, key: string)
    requires HasKey(extra, key) ==> HasKey(members, key)
    ensures Get(members + extra, key) == Get(members, key)
  {
    GetOfConcat(members, extra, key);
  }

  /** Two objects that read the same under the rule keys get the same verdict. */
  lemma {:induction false} VerdictSameReads(a: seq<Member>, b: seq<Member>, atol: string -> Long)
    requires Get(a, "status") == Get(b, "status") && Get(a, "success") == Get(b, "success")
    requires Get(a, "error_code") == Get(b, "error_code") && Get(a, "code") == Get(b, "code")
    ensures ObjectVerdict(a, atol) == ObjectVerdict(b, atol)
  {
  }

  /** Two objects that read the same under every key give the same text. */
  lemma {:induction false} FirstTextSameReads(a: seq<Member>, b: seq<Member>, keys: seq<string>, textOf: Json -> Option<string>)
    requires forall k :: k in keys ==> Get(a, k) == Get(b, k)
    ensures FirstText(a, keys, textOf) == FirstText(b, keys, textOf)
    decreases |keys|
  {
    if keys != [] {
      assert keys[0] in keys;
      assert forall k :: k in keys[1..] ==> k in keys;
      FirstTextSameReads(a, b, keys[1..], textOf);
    }
  }
}
