/** `sdk/typescript/src/signature.ts`. JavaScript numbers are reals under some rounding and some
    printing, with the properties of IEEE 754 doubles that matter here. */
module SignaturesTs {
  import opened Domain
  import opened Text
  import opened Signatures

  const MAX_SAFE := 0x1f_ffff_ffff_ffff

  predicate IsSafe(n: int) {
    -MAX_SAFE <= n <= MAX_SAFE
  }

  predicate IsInteger(x: real) {
    x.Floor as real == x
  }

  /** Rounding is monotone and leaves the integers up to 2^53 alone. */
  ghost predicate Rounds(f: real -> real) {
    && (forall x, y :: x <= y ==> f(x) <= f(y))
    && (forall x: real :: IsInteger(x) && -MAX_SAFE - 1 <= x.Floor <= MAX_SAFE + 1 ==> f(x) == x)
  }

  /** The number nearest to a real. */
  type Rounding = f: real -> real | Rounds(f) witness (x: real) => x

  function PlainDecimal(x: real): (s: string)
    ensures Ascii(s)
  {
    DecChars(x.Floor);
    Dec(x.Floor)
  }

  ghost predicate Prints(f: real -> string) {
    && (forall x: real :: IsInteger(x) && IsSafe(x.Floor) ==> f(x) == PlainDecimal(x))
    && (forall x :: Ascii(f(x)))
  }

  /** A number as text: decimal for a safe integer, perhaps with a point or exponent otherwise. */
  type Printing = f: real -> string | Prints(f) witness PlainDecimal

  datatype Numbers = Numbers(round: Rounding, show: Printing)

  function AbsReal(x: real): real {
    if x < 0.0 then -x else x
  }

  // ---------------------------------------------------------------------------------------
  // Bitwise folding
  // ---------------------------------------------------------------------------------------

  function Xor(a: nat, b: nat): nat
    decreases a + b
  {
    if a == 0 && b == 0 then 0 else 2 * Xor(a / 2, b / 2) + (a + b) % 2
  }

  function Or(a: nat, b: nat): nat
    decreases a + b
  {
    if a == 0 && b == 0 then 0 else 2 * Or(a / 2, b / 2) + if a % 2 == 1 || b % 2 == 1 then 1 else 0
  }

  lemma {:induction false} XorIsZero(a: nat, b: nat)
    ensures Xor(a, b) == 0 <==> a == b
    decreases a + b
  {
    if a != 0 || b != 0 {
      XorIsZero(a / 2, b / 2);
    }
  }

  lemma {:induction false} OrIsZero(a: nat, b: nat)
    ensures Or(a, b) == 0 <==> a == 0 && b == 0
    decreases a + b
  {
    if a != 0 || b != 0 {
      OrIsZero(a / 2, b / 2);
    }
  }

  function CharCode(s: string, i: nat): nat {
    if i < |s| then s[i] as int else 0
  }

  ghost predicate SameCodes(a: string, b: string, n: nat) {
    forall j: nat | j < n :: CharCode(a, j) == CharCode(b, j)
  }

  lemma OneMoreCode(a: string, b: string, n: nat)
    ensures SameCodes(a, b, n + 1) <==> SameCodes(a, b, n) && CharCode(a, n) == CharCode(b, n)
  {
  }

  /** The fold over lengths and character codes is string equality. */
  method ConstantTimeEqual(a: string, b: string) returns (equal: bool)
    ensures equal <==> a == b
  {
    var diff := Xor(|a|, |b|);
    XorIsZero(|a|, |b|);
    var maxLen := if |a| > |b| then |a| else |b|;
    hide Xor, Or;
    for i := 0 to maxLen
      invariant diff == 0 <==> |a| == |b| && SameCodes(a, b, i)
    {
      var charA := if i < |a| then a[i] as int else 0;
      var charB := if i < |b| then b[i] as int else 0;
      OneMoreCode(a, b, i);
      XorIsZero(charA, charB);
      OrIsZero(diff, Xor(charA, charB));
      diff := Or(diff, Xor(charA, charB));
    }
    equal := diff == 0;
    if |a| == |b| {
      SameCodesAreEqual(a, b);
    }
  }

  lemma SameCodesAreEqual(a: string, b: string)
    requires |a| == |b|
    ensures SameCodes(a, b, |a|) <==> a == b
  {
    if SameCodes(a, b, |a|) {
      forall j | 0 <= j < |a|
        ensures a[j] == b[j]
      {
        assert CharCode(a, j) == CharCode(b, j);
      }
    }
  }

  // ---------------------------------------------------------------------------------------
  // Building the signed bytes and the signature
  // ---------------------------------------------------------------------------------------

  function PrefixOf(js: Numbers, timestamp: real): (prefix: string)
    ensures Ascii(prefix)
  {
    js.show(timestamp) + "."
  }

  /** The signed text, with the timestamp printed as JavaScript prints it. */
  function Signable(js: Numbers, timestamp: real, payload: seq<Byte>): seq<Byte> {
    Bytes(PrefixOf(js, timestamp)) + payload
  }

  lemma SafeIsSignable(js: Numbers, timestamp: int, payload: seq<Byte>)
    requires IsSafe(timestamp)
    ensures Signable(js, timestamp as real, payload) == ToSign(timestamp, payload)
  {
    PrefixIsAscii(timestamp);
    assert PrefixOf(js, timestamp as real) == Prefix(timestamp);
  }

  /** The prefix and the payload copied into one array. */
  method BuildToSignBytes(js: Numbers, timestamp: real, payload: seq<Byte>) returns (combined: array<Byte>)
    ensures fresh(combined) && combined[..] == Signable(js, timestamp, payload)
  {
    hide PrefixOf;
    var prefix := Bytes(PrefixOf(js, timestamp));
    combined := new Byte[|prefix| + |payload|];
    forall i | 0 <= i < |prefix| {
      combined[i] := prefix[i];
    }
    forall i | 0 <= i < |payload| {
      combined[|prefix| + i] := payload[i];
    }
    assert combined[..|prefix|] == prefix && combined[|prefix|..] == payload;
    assert combined[..] == prefix + payload;
  }

  /** `toString(16)` of a byte */
  function ToString16(b: Byte): string {
    if b < 16 then [HexDigit(b as int)] else HexByte(b)
  }

  function PadStart(s: string, n: nat, c: char): string
    decreases n - |s|
  {
    if |s| >= n then s else PadStart([c] + s, n, c)
  }

  lemma PaddedByte(b: Byte)
    ensures PadStart(ToString16(b), 2, '0') == HexByte(b)
  {
    if b < 16 {
      assert [HexDigit(0)] + ToString16(b) == HexByte(b);
      assert PadStart(HexByte(b), 2, '0') == HexByte(b);
    }
  }

  method ComputeHmacSha256Hex(mac: Mac, secret: string, data: array<Byte>) returns (hex: string)
    ensures hex == Hex(mac(secret, data[..]))
  {
    var signatureBytes := mac(secret, data[..]);
    hex := "";
    for i := 0 to |signatureBytes|
      invariant hex == Hex(signatureBytes[..i])
    {
      PaddedByte(signatureBytes[i]);
      assert signatureBytes[..i + 1][..i] == signatureBytes[..i];
      hex := hex + PadStart(ToString16(signatureBytes[i]), 2, '0');
    }
    assert signatureBytes[..|signatureBytes|] == signatureBytes;
  }

  // ---------------------------------------------------------------------------------------
  // Parsing and verifying
  // ---------------------------------------------------------------------------------------

  /** An optional '-' and at least one digit, read as an integer. */
  function ParseNumber(s: string): Option<int> {
    var digits := if s != "" && s[0] == '-' then s[1..] else s;
    if digits == "" || !AllDigits(digits) then None
    else
      var v: int := Value(digits);
      Some(if s[0] == '-' then -v else v)
  }

  function Parsed(js: Numbers, header: string): Option<(real, string)> {
    var t, v1 := Field(header, true, "t"), Field(header, true, "v1");
    if t == "" || v1 == "" || ParseNumber(t).None? then None else Some((js.round(ParseNumber(t).value as real), v1))
  }

  predicate TsAccepts(js: Numbers, mac: Mac, secret: string, header: string, payload: seq<Byte>, tolerance: real, now: real) {
    secret != "" && Parsed(js, header).Some?
    && var (ts, v1) := Parsed(js, header).value;
    (tolerance <= 0.0 || AbsReal(js.round(now - ts)) <= tolerance)
    && Lower(Hex(mac(secret, Signable(js, ts, payload)))) == Lower(v1)
  }

  method ParseHeader(js: Numbers, signatureHeader: string) returns (parsed: Option<(real, string)>)
    ensures parsed == Parsed(js, signatureHeader)
  {
    hide KeyValue, Split, LastValue, ParseNumber, Trim;
    if signatureHeader == "" {
      NothingInEmptyHeader(true, "t");
      return None;
    }
    var parts := Split(signatureHeader, ',');
    // A missing field and an empty one are both falsy, and refused alike below.
    var timestampStr, signature := "", "";
    NoPairsYet(parts, true);
    for i := 0 to |parts|
      invariant timestampStr == LastValue(Pairs(parts[..i], true), "t")
      invariant signature == LastValue(Pairs(parts[..i], true), "v1")
    {
      PairsGrow(parts, i, true, "t");
      PairsGrow(parts, i, true, "v1");
      var part := KeyValue(parts[i]);
      if part.None? {
        continue;
      }
      var key, val := Trim(part.value.0), Trim(part.value.1);
      if key == "t" {
        timestampStr := val;
      } else if key == "v1" {
        signature := val;
      }
    }
    assert parts[..|parts|] == parts;
    if timestampStr == "" || signature == "" {
      return None;
    }
    var timestamp := ParseNumber(timestampStr);
    if timestamp.None? {
      return None;
    }
    return Some((js.round(timestamp.value as real), signature));
  }

  /** The tolerance defaults to 300 seconds, the current time to the clock. */
  method Verify(js: Numbers, mac: Mac, payload: seq<Byte>, header: string, secret: string, toleranceOption: Option<real>, currentTime: Option<real>, clock: real)
    returns (ok: bool)
    ensures ok <==> TsAccepts(js, mac, secret, header, payload,
                              if toleranceOption.Some? then toleranceOption.value else 300.0, if currentTime.Some? then currentTime.value else clock)
    ensures ok ==> secret != ""
  {
    hide Field, Hex, Lower, Signable, ParseNumber;
    var toleranceSeconds := if toleranceOption.Some? then toleranceOption.value else 300.0;
    if header == "" || secret == "" {
      NothingInEmptyHeader(true, "t");
      return false;
    }
    var parsed := ParseHeader(js, header);
    if parsed.None? {
      return false;
    }
    var (timestamp, expectedSig) := parsed.value;
    if toleranceSeconds > 0.0 {
      var now := if currentTime.Some? then currentTime.value else clock;
      var diff := js.round(now - timestamp);
      if AbsReal(diff) > toleranceSeconds {
        return false;
      }
    }
    var toSignBytes := BuildToSignBytes(js, timestamp, payload);
    var actualSig := ComputeHmacSha256Hex(mac, secret, toSignBytes);
    ok := ConstantTimeEqual(Lower(actualSig), Lower(expectedSig));
  }

  // ---------------------------------------------------------------------------------------
  // Agreement with the Go SDK
  // ---------------------------------------------------------------------------------------

  predicate HasPlus(s: string) {
    s != "" && s[0] == '+'
  }

  /** On numbers of safe size, the two parsers differ in a leading '+' only. */
  lemma ParsersAgree(s: string)
    requires ParseNumber(s).Some? ==> IsSafe(ParseNumber(s).value)
    ensures ParseNumber(s) == if HasPlus(s) then None else ParseInt64(s)
  {
    if HasPlus(s) {
      assert s[0] in s && !IsDigit('+');
    }
  }

  /** The difference of two safe integers may round, but not into a safe tolerance. */
  lemma SafeDifference(js: Numbers, tolerance: int, now: int, ts: int)
    requires IsSafe(now) && IsSafe(ts) && IsSafe(tolerance)
    ensures InTime(tolerance, now, ts) <==> tolerance <= 0 || AbsReal(js.round(now as real - ts as real)) <= tolerance as real
  {
    InTimeExactly(tolerance, now, ts);
    var d := now - ts;
    assert now as real - ts as real == d as real;
    if d > MAX_SAFE + 1 {
      assert js.round((MAX_SAFE + 1) as real) <= js.round(d as real);
    } else if d < -MAX_SAFE - 1 {
      assert js.round(d as real) <= js.round((-MAX_SAFE - 1) as real);
    }
  }

  /** On every ASCII header whose timestamp is not a number beyond the safe integers, and with
      a safe clock and tolerance, the TypeScript SDK accepts exactly what the Go SDK accepts
      with a timestamp that has no '+' sign. */
  lemma SdksAgree(js: Numbers, mac: Mac, secret: string, header: string, payload: seq<Byte>, tolerance: int, now: int)
    requires Ascii(header) && IsSafe(now) && IsSafe(tolerance)
    requires var n := ParseNumber(Field(header, true, "t")); n.Some? ==> IsSafe(n.value)
    ensures TsAccepts(js, mac, secret, header, payload, tolerance as real, now as real) <==>
            SdkAccepts(mac, secret, header, payload, tolerance, now) && !HasPlus(Field(header, true, "t"))
  {
    hide Field, InTime, ParseInt64, ParseNumber, Lower, Hex, Signable, ToSign;
    var t := Field(header, true, "t");
    ParsersAgree(t);
    if ParseNumber(t).Some? {
      SafeDifference(js, tolerance, now, ParseNumber(t).value);
      SafeIsSignable(js, ParseNumber(t).value, payload);
    }
  }

  /** All three verifiers agree on ASCII headers without white space, with a non-empty secret, no
      upper-case letter in the signature, and a safe timestamp without a '+' sign. */
  lemma VerifiersAgree(js: Numbers, mac: Mac, secret: string, header: string, payload: seq<Byte>, tolerance: int, now: int)
    requires Ascii(header) && SpaceFree(header) && secret != "" && IsSafe(now) && IsSafe(tolerance)
    requires !HasUpper(Field(header, false, "v1")) && !HasPlus(Field(header, false, "t"))
    requires var n := ParseNumber(Field(header, false, "t")); n.Some? ==> IsSafe(n.value)
    ensures EngineAccepts(mac, secret, header, payload, tolerance, now) <==> SdkAccepts(mac, secret, header, payload, tolerance, now)
    ensures EngineAccepts(mac, secret, header, payload, tolerance, now) <==> TsAccepts(js, mac, secret, header, payload, tolerance as real, now as real)
  {
    hide Field, EngineAccepts, SdkAccepts, TsAccepts;
    FieldSpaceFree(header, "t");
    GoVerifiersAgree(mac, secret, header, payload, tolerance, now);
    SdksAgree(js, mac, secret, header, payload, tolerance, now);
  }

  // ---------------------------------------------------------------------------------------
  // Signing
  // ---------------------------------------------------------------------------------------

  function SignedHeader(js: Numbers, mac: Mac, secret: string, timestamp: real, payload: seq<Byte>): string {
    "t=" + js.show(timestamp) + ",v1=" + Hex(mac(secret, Signable(js, timestamp, payload)))
  }

  method Sign(js: Numbers, mac: Mac, secret: string, timestamp: real, payload: seq<Byte>) returns (header: string)
    ensures header == SignedHeader(js, mac, secret, timestamp, payload)
  {
    hide Signable, Hex;
    var toSignBytes := BuildToSignBytes(js, timestamp, payload);
    var hex := ComputeHmacSha256Hex(mac, secret, toSignBytes);
    header := "t=" + js.show(timestamp) + ",v1=" + hex;
  }

  lemma SafeIsSigned(js: Numbers, mac: Mac, secret: string, ts: int, payload: seq<Byte>)
    requires IsSafe(ts)
    ensures SignedHeader(js, mac, secret, ts as real, payload) == SignPayload(mac, secret, ts, payload)
  {
    SafeIsSignable(js, ts, payload);
    assert (ts as real).Floor == ts;
    hide Signable, ToSign, Hex;
  }

  lemma PrintedParses(n: int)
    ensures !HasPlus(Dec(n)) && ParseNumber(Dec(n)) == Some(n)
  {
    DecNatRoundTrip(Abs(n));
    DecChars(n);
    hide DecNat, Value;
    if n < 0 {
      assert Dec(n)[1..] == DecNat(-n);
    } else {
      assert Dec(n)[0] in DecNat(n);
    }
  }

  lemma SignedHeaderIsPlain(mac: Mac, secret: string, ts: int, payload: seq<Byte>)
    ensures var header := SignPayload(mac, secret, ts, payload);
            && Ascii(header) && SpaceFree(header)
            && !HasUpper(Field(header, false, "v1")) && !HasPlus(Field(header, false, "t")) && ParseNumber(Field(header, false, "t")) == Some(ts)
  {
    SignedFields(mac, secret, ts, payload);
    HexChars(mac(secret, ToSign(ts, payload)));
    DecChars(ts);
    PrintedParses(ts);
    hide Field, ToSign, Hex, Dec, ParseNumber, HasPlus;
  }

  /** The SDK signs byte for byte like the engine: for safe timestamps, the header it signs is the
      engine's, and all three verifiers accept it exactly within the tolerance. */
  lemma SignersAgree(js: Numbers, mac: Mac, secret: string, ts: int, payload: seq<Byte>, tolerance: int, now: int)
    requires secret != "" && IsSafe(ts) && IsSafe(tolerance) && IsSafe(now) && now >= 0
    ensures var header := SignedHeader(js, mac, secret, ts as real, payload);
            && header == SignPayload(mac, secret, ts, payload)
            && (EngineAccepts(mac, secret, header, payload, tolerance, now) <==> tolerance <= 0 || Abs(now - ts) <= tolerance)
            && (SdkAccepts(mac, secret, header, payload, tolerance, now) <==> tolerance <= 0 || Abs(now - ts) <= tolerance)
            && (TsAccepts(js, mac, secret, header, payload, tolerance as real, now as real) <==> tolerance <= 0 || Abs(now - ts) <= tolerance)
  {
    SafeIsSigned(js, mac, secret, ts, payload);
    SignedHeaderIsPlain(mac, secret, ts, payload);
    hide Field, SignPayload, SignedHeader, EngineAccepts, SdkAccepts, TsAccepts, Ascii, SpaceFree, HasUpper, HasPlus, ParseNumber;
    SignatureRoundTripInRange(mac, secret, ts, payload, tolerance, now);
    VerifiersAgree(js, mac, secret, SignPayload(mac, secret, ts, payload), payload, tolerance, now);
  }
}
