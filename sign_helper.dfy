/** The Douyin signature helper: a fixed comma-separated stub holding the room id and the user
    id, hashed with MD5 and formatted as lowercase hex, is passed to the embedded webmssdk script;
    the script is asked up to five times for a signature free of '-' and '='. */
module SignHelper {
  import opened Wrappers
  import opened Text
  import opened JsEscape
  import opened ScriptRuntime

  /** What the helper answers whenever it cannot sign. */
  const NoSignature: string := "00000000"

  const MaxSignatureAttempts: nat := 5

  const DefaultUserAgent: string :=
    "Mozilla/5.0 (Windows NT 10.0; Win64; x64) AppleWebKit/537.36 (KHTML, like Gecko) " +
    "Chrome/125.0.0.0 Safari/537.36 Edg/125.0.0.0"

  type Byte = b: int | 0 <= b < 256

  // ---------------------------------------------------------------------------------------------
  // The stub

  /** The thirteen key=value fields of the stub, in order; the two ids fill the `room_id` and
      `user_unique_id` slots. */
  function StubFields(roomId: string, uniqueId: string): (f: seq<string>)
    ensures |f| == 13
    ensures f[4] == "room_id=" + roomId && f[8] == "user_unique_id=" + uniqueId
  {
    ["live_id=1", "aid=6383", "version_code=180800", "webcast_sdk_version=1.3.0",
     "room_id=" + roomId, "sub_room_id=", "sub_channel_id=", "did_rule=3",
     "user_unique_id=" + uniqueId, "device_platform=web", "device_type=", "ac=",
     "identity=audience"]
  }

  /** The stub before hashing: its fields separated by commas. */
  function StubText(roomId: string, uniqueId: string): string {
    Join(StubFields(roomId, uniqueId), ",")
  }

  /** Appending one more field after a separator extends the joined prefix. */
  lemma JoinPrefix(f: seq<string>, k: nat, sep: string)
    requires 1 <= k < |f|
    ensures Join(f[..k + 1], sep) == Join(f[..k], sep) + sep + f[k]
  {
    assert f[..k + 1] == f[..k] + [f[k]];
    JoinSnoc(f[..k], f[k], sep);
  }

  /** When neither id holds a comma, splitting the stub on commas gives back its thirteen fields,
      the room id and the user id each whole in its own slot. */
  lemma StubSlots(roomId: string, uniqueId: string)
    requires ',' !in roomId && ',' !in uniqueId
    ensures Split(StubText(roomId, uniqueId), ',') == StubFields(roomId, uniqueId)
  {
    var f := StubFields(roomId, uniqueId);
    forall i | 0 <= i < |f|
      ensures ',' !in f[i]
    {
    }
    SplitJoin(f, ',');
  }

  // ---------------------------------------------------------------------------------------------
  // Hex formatting

  predicate IsLowerHex(c: char) {
    ('0' <= c <= '9') || ('a' <= c <= 'f')
  }

  /** One nibble as `x2` formats it. */
  function HexDigit(n: nat): (c: char)
    requires n < 16
    ensures IsLowerHex(c)
  {
    if n < 10 then ('0' as int + n) as char else ('a' as int + n - 10) as char
  }

  /** The value of a lowercase hex digit. */
  function DigitValue(c: char): nat {
    if '0' <= c <= '9' then c as int - '0' as int
    else if 'a' <= c <= 'f' then c as int - 'a' as int + 10
    else 0
  }

  /** Every digest byte as two lowercase hex digits, high nibble first. */
  function Hex(bytes: seq<Byte>): (r: string)
    ensures |r| == 2 * |bytes|
    ensures forall i :: 0 <= i < |r| ==> IsLowerHex(r[i])
    decreases |bytes|
  {
    if |bytes| == 0 then ""
    else
      var b := bytes[|bytes| - 1];
      Hex(bytes[..|bytes| - 1]) + [HexDigit(b / 16), HexDigit(b % 16)]
  }

  /** Reading the hex text two digits at a time. */
  function Unhex(s: string): seq<int>
    decreases |s|
  {
    if |s| < 2 then []
    else Unhex(s[..|s| - 2]) + [16 * DigitValue(s[|s| - 2]) + DigitValue(s[|s| - 1])]
  }

  /** The hex text determines the digest: reading it back gives every byte. */
  lemma {:induction false} HexRoundTrip(bytes: seq<Byte>)
    ensures Unhex(Hex(bytes)) == bytes
    decreases |bytes|
  {
    if |bytes| > 0 {
      var n := |bytes|;
      var b := bytes[n - 1];
      var h := Hex(bytes);
      var front := Hex(bytes[..n - 1]);
      HexRoundTrip(bytes[..n - 1]);
      assert h[..|h| - 2] == front;
      assert DigitValue(HexDigit(b / 16)) == b / 16;
      assert DigitValue(HexDigit(b % 16)) == b % 16;
      assert bytes == bytes[..n - 1] + [b];
    }
  }

  /** `ComputeMd5`: the digest (a parameter here) appended byte by byte as hex. */
  method ComputeMd5(input: string, md5: string -> seq<Byte>) returns (hex: string)
    ensures hex == Hex(md5(input))
  {
    var hash := md5(input);
    hex := "";
    var i := 0;
    while i < |hash|
      invariant 0 <= i <= |hash|
      invariant hex == Hex(hash[..i])
    {
      assert hash[..i + 1][..i] == hash[..i];
      hex := hex + [HexDigit(hash[i] / 16), HexDigit(hash[i] % 16)];
      i := i + 1;
    }
    assert hash[..i] == hash;
  }

  /** `BuildMsStub`: the stub text appended field by field, each followed by a comma but the
      last, then hashed. */
  method BuildMsStub(roomId: string, uniqueId: string, md5: string -> seq<Byte>)
    returns (stub: string)
    ensures stub == Hex(md5(StubText(roomId, uniqueId)))
  {
    ghost var f := StubFields(roomId, uniqueId);
    var builder := "live_id=1" + ",";
    assert f[..1] == ["live_id=1"];
    assert builder == Join(f[..1], ",") + ",";
    builder := builder + "aid=6383" + ",";
    JoinPrefix(f, 1, ",");
    assert builder == Join(f[..2], ",") + ",";
    builder := builder + "version_code=180800" + ",";
    JoinPrefix(f, 2, ",");
    assert builder == Join(f[..3], ",") + ",";
    builder := builder + "webcast_sdk_version=1.3.0" + ",";
    JoinPrefix(f, 3, ",");
    assert builder == Join(f[..4], ",") + ",";
    builder := builder + "room_id=" + roomId + ",";
    JoinPrefix(f, 4, ",");
    assert builder == Join(f[..5], ",") + ",";
    builder := builder + "sub_room_id=" + ",";
    JoinPrefix(f, 5, ",");
    assert builder == Join(f[..6], ",") + ",";
    builder := builder + "sub_channel_id=" + ",";
    JoinPrefix(f, 6, ",");
    assert builder == Join(f[..7], ",") + ",";
    builder := builder + "did_rule=3" + ",";
    JoinPrefix(f, 7, ",");
    assert builder == Join(f[..8], ",") + ",";
    builder := builder + "user_unique_id=" + uniqueId + ",";
    JoinPrefix(f, 8, ",");
    assert builder == Join(f[..9], ",") + ",";
    builder := builder + "device_platform=web" + ",";
    JoinPrefix(f, 9, ",");
    assert builder == Join(f[..10], ",") + ",";
    builder := builder + "device_type=" + ",";
    JoinPrefix(f, 10, ",");
    assert builder == Join(f[..11], ",") + ",";
    builder := builder + "ac=" + ",";
    JoinPrefix(f, 11, ",");
    assert builder == Join(f[..12], ",") + ",";
    builder := builder + "identity=audience";
    JoinPrefix(f, 12, ",");
    assert f[..13] == f;
    stub := ComputeMd5(builder, md5);
  }

  // ---------------------------------------------------------------------------------------------
  // The signature call

  const SignatureFunction: string := "getMSSDKSignature"

  /** The expression evaluated: the stub is inserted as it is, the user agent escaped. */
  function SignatureCall(stub: string, userAgent: string): string {
    SignatureFunction + "('" + stub + "','" + EscapeQuotes(userAgent) + "')"
  }

  /** A hex stub needs no escaping, so the script reads exactly the stub and a user agent on one
      line; a user agent holding a line break leaves the call unreadable. */
  lemma SignatureCallArguments(bytes: seq<Byte>, userAgent: string)
    ensures SingleLine(userAgent) ==>
      ArgumentsOf(SignatureCall(Hex(bytes), userAgent), SignatureFunction) ==
        Some((Hex(bytes), userAgent))
    ensures !SingleLine(userAgent) ==>
      ArgumentsOf(SignatureCall(Hex(bytes), userAgent), SignatureFunction) == None
  {
    var h := Hex(bytes);
    assert '\\' !in h && '\'' !in h by {
      forall i | 0 <= i < |h|
        ensures h[i] != '\\' && h[i] != '\''
      {
        assert IsLowerHex(h[i]);
      }
    }
    QuotesUnchanged(h);
    assert SingleLine(h) by {
      forall i | 0 <= i < |h|
        ensures h[i] != '\r' && h[i] != '\n'
      {
        assert IsLowerHex(h[i]);
      }
    }
    ArgumentsRead(SignatureFunction, h, userAgent);
  }

  // ---------------------------------------------------------------------------------------------
  // The bounded retry loop

  /** A signature the loop accepts: non-null, non-empty, with neither '-' nor '='. */
  predicate Acceptable(v: Option<string>) {
    !IsNullOrEmpty(v) && '-' !in v.value && '=' !in v.value
  }

  /** How the loop ends: an evaluation threw after some evaluations, or the loop finished with
      the last value seen after some evaluations. */
  datatype LoopEnd = Failed(evaluations: nat) | Ended(signature: Option<string>, evaluations: nat)

  /** The loop from attempt `k` on, holding the last value `sig`; `answer(e, k)` is the engine's
      answer to the k-th evaluation of `e`. */
  function Attempts(e: string, answer: (string, nat) -> EvalResult, k: nat, sig: Option<string>):
    (r: LoopEnd)
    ensures k < MaxSignatureAttempts ==> k < r.evaluations <= MaxSignatureAttempts
    decreases MaxSignatureAttempts - k
  {
    if k >= MaxSignatureAttempts then Ended(sig, k)
    else match answer(e, k) {
      case Threw => Failed(k + 1)
      case Value(v) => if Acceptable(v) then Ended(v, k + 1) else Attempts(e, answer, k + 1, v)
    }
  }

  /** The engine evaluating the signature call for the k-th time: an expression whose arguments
      do not parse is a SyntaxError, anything else is answered by the script. */
  function Engine(answer: (string, nat) -> EvalResult): (string, nat) -> EvalResult {
    (e: string, k: nat) => if ArgumentsOf(e, SignatureFunction).None? then Threw else answer(e, k)
  }

  /** The engine and the embedded script the helper runs against. */
  datatype SignEnv = SignEnv(resources: seq<string>, loads: bool,
                             answer: (string, nat) -> EvalResult, md5: string -> seq<Byte>)

  /** Whether the embedded webmssdk script can be found, read and run. */
  predicate ScriptReady(env: SignEnv) {
    FirstWithSuffix(env.resources, "webmssdk.js").Some? && env.loads
  }

  /** `GenerateSignature`: the signature and the number of evaluations made. A missing script, a
      null user agent or a throwing evaluation gives "00000000"; so does an empty last value. */
  function Generated(roomId: string, uniqueId: string, userAgent: Option<string>, env: SignEnv):
    (r: (string, nat))
    ensures r.1 <= MaxSignatureAttempts
    ensures r.0 == NoSignature || |r.0| > 0
    ensures !ScriptReady(env) || userAgent.None? ==> r == (NoSignature, 0)
  {
    if !ScriptReady(env) || userAgent.None? then (NoSignature, 0)
    else
      var e := SignatureCall(Hex(env.md5(StubText(roomId, uniqueId))), userAgent.value);
      match Attempts(e, Engine(env.answer), 0, Some(""))
      case Failed(n) => (NoSignature, n)
      case Ended(v, n) => (if IsNullOrEmpty(v) then NoSignature else v.value, n)
  }

  method GenerateSignature(roomId: string, uniqueId: string, userAgent: Option<string>,
                           env: SignEnv) returns (signature: string, evaluations: nat)
    ensures (signature, evaluations) == Generated(roomId, uniqueId, userAgent, env)
  {
    var stub := BuildMsStub(roomId, uniqueId, env.md5);
    var name := FindResourceName(env.resources, "webmssdk.js");
    if name.None? || !env.loads || userAgent.None? {
      return NoSignature, 0;
    }
    var e := SignatureCall(stub, userAgent.value);
    var engine := Engine(env.answer);
    var sig: Option<string> := Some("");
    var attempt: nat := 0;
    while attempt < MaxSignatureAttempts && !Acceptable(sig)
      invariant attempt <= MaxSignatureAttempts
      invariant Attempts(e, engine, 0, Some("")) ==
        if Acceptable(sig) then Ended(sig, attempt) else Attempts(e, engine, attempt, sig)
      decreases MaxSignatureAttempts - attempt
    {
      var result := engine(e, attempt);
      if result.Threw? {
        return NoSignature, attempt + 1;
      }
      sig := result.result;
      attempt := attempt + 1;
    }
    signature := if IsNullOrEmpty(sig) then NoSignature else sig.value;
    evaluations := attempt;
  }

  /** `GetSignatureAsync`: a blank room id or user id answers "00000000" without evaluating
      anything. */
  method GetSignature(roomId: Option<string>, uniqueId: Option<string>, userAgent: Option<string>,
                      env: SignEnv) returns (signature: string, evaluations: nat)
    ensures IsNullOrWhiteSpace(roomId) || IsNullOrWhiteSpace(uniqueId) ==>
      signature == NoSignature && evaluations == 0
    ensures !IsNullOrWhiteSpace(roomId) && !IsNullOrWhiteSpace(uniqueId) ==>
      (signature, evaluations) == Generated(roomId.value, uniqueId.value, userAgent, env)
  {
    if IsNullOrWhiteSpace(roomId) || IsNullOrWhiteSpace(uniqueId) {
      return NoSignature, 0;
    }
    signature, evaluations := GenerateSignature(roomId.value, uniqueId.value, userAgent, env);
  }

  /** The loop stops at the first acceptable answer: when attempts before `j` all gave
      unacceptable values and attempt `j` an acceptable one, that one is returned after `j + 1`
      evaluations. */
  lemma {:induction false} StopsAtFirstAcceptable(e: string, answer: (string, nat) -> EvalResult,
                                                  k: nat, sig: Option<string>, j: nat)
    requires k <= j < MaxSignatureAttempts
    requires forall i :: k <= i < j ==> answer(e, i).Value? && !Acceptable(answer(e, i).result)
    requires answer(e, j).Value? && Acceptable(answer(e, j).result)
    ensures Attempts(e, answer, k, sig) == Ended(answer(e, j).result, j + 1)
    decreases j - k
  {
    if k < j {
      StopsAtFirstAcceptable(e, answer, k + 1, answer(e, k).result, j);
    }
  }

  /** Without an acceptable answer the loop makes all five evaluations and keeps the last value,
      even one that holds '-' or '='. */
  lemma {:induction false} KeepsLastValue(e: string, answer: (string, nat) -> EvalResult, k: nat,
                                          sig: Option<string>)
    requires k < MaxSignatureAttempts
    requires forall i :: k <= i < MaxSignatureAttempts ==>
      answer(e, i).Value? && !Acceptable(answer(e, i).result)
    ensures Attempts(e, answer, k, sig) ==
      Ended(answer(e, MaxSignatureAttempts - 1).result, MaxSignatureAttempts)
    decreases MaxSignatureAttempts - k
  {
    if k + 1 < MaxSignatureAttempts {
      KeepsLastValue(e, answer, k + 1, answer(e, k).result);
    }
  }

  /** An engine that always answers "a-b=": five evaluations, and the rejected value is still the
      signature returned. */
  lemma RejectedValueReturned(roomId: string, uniqueId: string, userAgent: string,
                              resources: seq<string>, md5: string -> seq<Byte>)
    requires FirstWithSuffix(resources, "webmssdk.js").Some? && SingleLine(userAgent)
    ensures Generated(roomId, uniqueId, Some(userAgent),
                      SignEnv(resources, true, (e, k) => Value(Some("a-b=")), md5)) == ("a-b=", 5)
  {
    var answer: (string, nat) -> EvalResult := (e, k) => Value(Some("a-b="));
    var e := SignatureCall(Hex(md5(StubText(roomId, uniqueId))), userAgent);
    assert !Acceptable(Some("a-b="));
    SignatureCallArguments(md5(StubText(roomId, uniqueId)), userAgent);
    KeepsLastValue(e, Engine(answer), 0, Some(""));
  }

  /** A user agent holding a carriage return or a line feed makes the first evaluation a
      SyntaxError, so the signature is "00000000" after one evaluation, whatever the script. */
  lemma SignatureLineBreak(roomId: string, uniqueId: string, userAgent: string, env: SignEnv)
    requires ScriptReady(env) && !SingleLine(userAgent)
    ensures Generated(roomId, uniqueId, Some(userAgent), env) == (NoSignature, 1)
  {
    var e := SignatureCall(Hex(env.md5(StubText(roomId, uniqueId))), userAgent);
    SignatureCallArguments(env.md5(StubText(roomId, uniqueId)), userAgent);
    ThrowEndsLoop(e, Engine(env.answer), 0, Some(""), 0);
  }

  /** A throwing evaluation ends the loop at once with "00000000". */
  lemma {:induction false} ThrowEndsLoop(e: string, answer: (string, nat) -> EvalResult, k: nat,
                                         sig: Option<string>, j: nat)
    requires k <= j < MaxSignatureAttempts
    requires forall i :: k <= i < j ==> answer(e, i).Value? && !Acceptable(answer(e, i).result)
    requires answer(e, j).Threw?
    ensures Attempts(e, answer, k, sig) == Failed(j + 1)
    decreases j - k
  {
    if k < j {
      ThrowEndsLoop(e, answer, k + 1, answer(e, k).result, j);
    }
  }
}
