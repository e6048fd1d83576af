/** `internal/dispatcher/hmac.go` and `sdk/go/webhookclient/signature.go`: the signature header
    `t=<timestamp>,v1=<hex>`, printed once and parsed by several verifiers. The MAC is any
    function from a key and a text to 32 bytes (section 2 of RFC 2104 with SHA-256). */
module Signatures {
  import opened Domain
  import opened Text

  type Mac = f: (string, seq<Byte>) -> seq<Byte> | forall k, d :: |f(k, d)| == 32 witness (k, d) => seq(32, _ => 0)

  function Bytes(s: string): seq<Byte>
    requires forall c <- s :: c as int < 128
  {
    seq(|s|, i requires 0 <= i < |s| => assert s[i] in s; s[i] as int as Byte)
  }

  function Prefix(ts: int): string {
    Dec(ts) + "."
  }

  lemma PrefixIsAscii(ts: int)
    ensures forall c <- Prefix(ts) :: c as int < 128
  {
    DecChars(ts);
  }

  /** The signed text `<timestamp>.<payload>`. */
  function ToSign(ts: int, payload: seq<Byte>): seq<Byte> {
    PrefixIsAscii(ts);
    Bytes(Prefix(ts)) + payload
  }

  function SignatureOf(mac: Mac, secret: string, ts: int, payload: seq<Byte>): string {
    Hex(mac(secret, ToSign(ts, payload)))
  }

  function SignPayload(mac: Mac, secret: string, ts: int, payload: seq<Byte>): string {
    "t=" + Dec(ts) + ",v1=" + SignatureOf(mac, secret, ts, payload)
  }

  // ---------------------------------------------------------------------------------------
  // Verifiers
  // ---------------------------------------------------------------------------------------

  /** The `key=value` pairs of a header, raw or trimmed. */
  function Pairs(parts: seq<string>, trim: bool): seq<Option<(string, string)>> {
    seq(|parts|, i requires 0 <= i < |parts| => PairOf(parts[i], trim))
  }

  function PairOf(part: string, trim: bool): Option<(string, string)> {
    match KeyValue(part)
    case None => None
    case Some((k, v)) => if trim then Some((Trim(k), Trim(v))) else Some((k, v))
  }

  /** The value of the last pair with this key; empty if there is none. */
  function LastValue(pairs: seq<Option<(string, string)>>, key: string): string {
    if pairs == [] then ""
    else
      var p := pairs[|pairs| - 1];
      if p.Some? && p.value.0 == key then p.value.1 else LastValue(pairs[..|pairs| - 1], key)
  }

  function Field(header: string, trim: bool, key: string): string {
    LastValue(Pairs(Split(header, ','), trim), key)
  }

  /** 64-bit subtraction wraps around. */
  function Wrap64(n: int): int {
    (n - INT64_MIN) % 0x1_0000_0000_0000_0000 + INT64_MIN
  }

  predicate InTime(tolerance: int, now: int, ts: int) {
    tolerance <= 0 || -tolerance <= Wrap64(now - ts) <= tolerance
  }

  predicate EngineAccepts(mac: Mac, secret: string, header: string, payload: seq<Byte>, tolerance: int, now: int) {
    var t, v1 := Field(header, false, "t"), Field(header, false, "v1");
    t != "" && v1 != "" && ParseInt64(t).Some?
    && InTime(tolerance, now, ParseInt64(t).value)
    && SignatureOf(mac, secret, ParseInt64(t).value, payload) == v1
  }

  predicate SdkAccepts(mac: Mac, secret: string, header: string, payload: seq<Byte>, tolerance: int, now: int) {
    var t, v1 := Field(header, true, "t"), Field(header, true, "v1");
    secret != "" && t != "" && v1 != "" && ParseInt64(t).Some?
    && InTime(tolerance, now, ParseInt64(t).value)
    && Lower(SignatureOf(mac, secret, ParseInt64(t).value, payload)) == Lower(v1)
  }

  lemma PairsGrow(parts: seq<string>, i: nat, trim: bool, key: string)
    requires i < |parts|
    ensures LastValue(Pairs(parts[..i + 1], trim), key) ==
            var p := PairOf(parts[i], trim); if p.Some? && p.value.0 == key then p.value.1 else LastValue(Pairs(parts[..i], trim), key)
  {
    assert Pairs(parts[..i + 1], trim)[..i] == Pairs(parts[..i], trim);
  }

  lemma NoPairsYet(parts: seq<string>, trim: bool)
    ensures forall key :: LastValue(Pairs(parts[..0], trim), key) == ""
  {
    assert Pairs(parts[..0], trim) == [];
  }

  lemma NothingInEmptyHeader(trim: bool, key: string)
    ensures Field("", trim, key) == ""
  {
    var parts := Split("", ',');
    assert parts == [""] && parts[..1] == parts && PairOf("", trim) == None;
    NoPairsYet(parts, trim);
    PairsGrow(parts, 0, trim, key);
  }

  /** The part is split at its first '='. */
  predicate Splits(part: string, k: string, v: string) {
    part == k + "=" + v && '=' !in k
  }

  /** The part gives the key this value. */
  ghost predicate Gives(part: string, trim: bool, key: string, value: string) {
    exists k, v :: Splits(part, k, v) && if trim then key == Trim(k) && value == Trim(v) else key == k && value == v
  }

  ghost predicate Names(part: string, trim: bool, key: string) {
    exists value :: Gives(part, trim, key, value)
  }

  lemma PairIs(part: string, trim: bool, key: string)
    ensures var p := PairOf(part, trim);
            if p.Some? && p.value.0 == key then Gives(part, trim, key, p.value.1) else !Names(part, trim, key)
  {
    hide Trim, IndexOf;
    forall k, v | Splits(part, k, v)
      ensures KeyValue(part) == Some((k, v))
    {
      KeyValueOf(k, v);
    }
    if '=' in part {
      KeyValueSplits(part);
      var (k, v) := KeyValue(part).value;
      assert Splits(part, k, v);
    }
  }

  lemma KeyValueSplits(part: string)
    requires '=' in part
    ensures KeyValue(part).Some? && var (k, v) := KeyValue(part).value; part == k + "=" + v && '=' !in k
  {
    var i := IndexOf(part, '=');
    assert part == part[..i] + "=" + part[i + 1..];
  }

  /** The last part with this key gives the value; if there is none, it is empty. */
  lemma {:induction false} LastValueIs(parts: seq<string>, trim: bool, key: string) returns (i: int)
    ensures -1 <= i < |parts| && forall j | i < j < |parts| :: !Names(parts[j], trim, key)
    ensures var v := LastValue(Pairs(parts, trim), key); if i >= 0 then Gives(parts[i], trim, key, v) else v == ""
    decreases |parts|
  {
    hide Gives, Names, PairOf;
    i := |parts| - 1;
    if parts == [] {
      NoPairsYet(parts, trim);
      assert parts[..0] == parts;
    } else {
      var n := |parts| - 1;
      assert parts[..n + 1] == parts;
      PairsGrow(parts, n, trim, key);
      PairIs(parts[n], trim, key);
      if !(PairOf(parts[n], trim).Some? && PairOf(parts[n], trim).value.0 == key) {
        i := LastValueIs(parts[..n], trim, key);
        assert forall j | i < j < n :: parts[..n][j] == parts[j];
      }
    }
  }

  /** The field of a header is the value of the last part of its name among the parts between the
      commas, or empty; names and values are trimmed, or neither is. */
  lemma FieldIs(header: string, trim: bool, key: string)
    ensures exists parts: seq<string>, i: int :: IsField(header, trim, key, Field(header, trim, key), parts, i)
  {
    var parts := Split(header, ',');
    SplitJoins(header, ',');
    var i := LastValueIs(parts, trim, key);
    hide Split, Join, LastValue, Pairs, Gives, Names;
    assert IsField(header, trim, key, Field(header, trim, key), parts, i);
  }

  ghost predicate IsField(header: string, trim: bool, key: string, value: string, parts: seq<string>, i: int) {
    && parts != [] && Join(parts, ',') == header && (forall part <- parts :: ',' !in part)
    && -1 <= i < |parts| && (forall j | i < j < |parts| :: !Names(parts[j], trim, key))
    && if i >= 0 then Gives(parts[i], trim, key, value) else value == ""
  }

  /** The signed bytes: the printed timestamp, a dot, and the payload. */
  lemma SignedBytes(ts: int, payload: seq<Byte>)
    ensures var n := |Dec(ts)|;
            && |ToSign(ts, payload)| == n + 1 + |payload| && ToSign(ts, payload)[n] == 46 && ToSign(ts, payload)[n + 1..] == payload
            && forall i | 0 <= i < n :: ToSign(ts, payload)[i] as int == Dec(ts)[i] as int
  {
    PrefixIsAscii(ts);
    hide Dec;
  }

  method VerifySignature(mac: Mac, secret: string, header: string, payload: seq<Byte>, toleranceSeconds: int, now: int)
    returns (ok: bool)
    ensures ok <==> EngineAccepts(mac, secret, header, payload, toleranceSeconds, now)
  {
    hide KeyValue, Split, LastValue, SignatureOf, ParseInt64;
    if header == "" {
      NothingInEmptyHeader(false, "t");
      return false;
    }
    var parts := Split(header, ',');
    var timestampStr, expectedSig := "", "";
    NoPairsYet(parts, false);
    for i := 0 to |parts|
      invariant timestampStr == LastValue(Pairs(parts[..i], false), "t")
      invariant expectedSig == LastValue(Pairs(parts[..i], false), "v1")
    {
      PairsGrow(parts, i, false, "t");
      PairsGrow(parts, i, false, "v1");
      var kv := KeyValue(parts[i]);
      if kv.None? {
        continue;
      }
      match kv.value.0 {
        case "t" => timestampStr := kv.value.1;
        case "v1" => expectedSig := kv.value.1;
        case _ =>
      }
    }
    assert parts[..|parts|] == parts;
    if timestampStr == "" || expectedSig == "" {
      return false;
    }
    var ts := ParseInt64(timestampStr);
    if ts.None? {
      return false;
    }
    if toleranceSeconds > 0 {
      var diff := Wrap64(now - ts.value);
      if diff > toleranceSeconds || diff < -toleranceSeconds {
        return false;
      }
    }
    return SignatureOf(mac, secret, ts.value, payload) == expectedSig;
  }

  /** Any non-empty candidate secret may have signed; `clock` holds one reading per candidate. */
  method VerifySignatureWithSecrets(mac: Mac, secrets: seq<string>, header: string, payload: seq<Byte>, toleranceSeconds: int, clock: seq<int>)
    returns (ok: bool)
    requires |clock| == |secrets|
    ensures ok <==> exists i | 0 <= i < |secrets| ::
                      secrets[i] != "" && EngineAccepts(mac, secrets[i], header, payload, toleranceSeconds, clock[i])
  {
    hide EngineAccepts;
    if |secrets| == 0 {
      return false;
    }
    if header == "" {
      NoSecretForEmptyHeader(mac, secrets, payload, toleranceSeconds, clock);
      return false;
    }
    for i := 0 to |secrets|
      invariant forall j | 0 <= j < i :: secrets[j] == "" || !EngineAccepts(mac, secrets[j], header, payload, toleranceSeconds, clock[j])
    {
      if secrets[i] != "" {
        var one := VerifySignature(mac, secrets[i], header, payload, toleranceSeconds, clock[i]);
        if one {
          return true;
        }
      }
    }
    return false;
  }

  lemma NoSecretForEmptyHeader(mac: Mac, secrets: seq<string>, payload: seq<Byte>, toleranceSeconds: int, clock: seq<int>)
    requires |clock| == |secrets|
    ensures forall i | 0 <= i < |secrets| :: !EngineAccepts(mac, secrets[i], "", payload, toleranceSeconds, clock[i])
  {
    NothingInEmptyHeader(false, "t");
  }

  /** The Go SDK's verifier: keys and values are trimmed, case is folded, and an empty secret
      is refused. */
  method SdkVerifySignature(mac: Mac, secret: string, header: string, payload: seq<Byte>, toleranceSeconds: int, now: int)
    returns (ok: bool)
    ensures ok <==> SdkAccepts(mac, secret, header, payload, toleranceSeconds, now)
    ensures ok ==> secret != ""
  {
    hide KeyValue, Split, LastValue, SignatureOf, ParseInt64, Trim, Lower;
    if secret == "" || header == "" {
      NothingInEmptyHeader(true, "t");
      return false;
    }
    var parts := Split(header, ',');
    var timestampStr, expectedSig := "", "";
    NoPairsYet(parts, true);
    for i := 0 to |parts|
      invariant timestampStr == LastValue(Pairs(parts[..i], true), "t")
      invariant expectedSig == LastValue(Pairs(parts[..i], true), "v1")
    {
      PairsGrow(parts, i, true, "t");
      PairsGrow(parts, i, true, "v1");
      var kv := KeyValue(parts[i]);
      if kv.None? {
        continue;
      }
      var key, val := Trim(kv.value.0), Trim(kv.value.1);
      match key {
        case "t" => timestampStr := val;
        case "v1" => expectedSig := val;
        case _ =>
      }
    }
    assert parts[..|parts|] == parts;
    if timestampStr == "" || expectedSig == "" {
      return false;
    }
    var ts := ParseInt64(timestampStr);
    if ts.None? {
      return false;
    }
    if toleranceSeconds > 0 {
      var diff := Wrap64(now - ts.value);
      if diff > toleranceSeconds || diff < -toleranceSeconds {
        return false;
      }
    }
    return Lower(SignatureOf(mac, secret, ts.value, payload)) == Lower(expectedSig);
  }

  // ---------------------------------------------------------------------------------------
  // Round trip
  // ---------------------------------------------------------------------------------------

  function Abs(n: int): nat {
    if n < 0 then -n else n
  }

  /** The wrapped-around check is the true one, but for distances within the tolerance of 2^64. */
  lemma InTimeExactly(tolerance: int, now: int, ts: int)
    requires IsInt64(tolerance) && IsInt64(now) && IsInt64(ts)
    ensures InTime(tolerance, now, ts) <==>
            tolerance <= 0 || Abs(now - ts) <= tolerance || Abs(now - ts) >= 0x1_0000_0000_0000_0000 - tolerance
  {
    var d := now - ts;
    if IsInt64(d) {
      assert Wrap64(d) == d;
    } else if d > 0 {
      assert Wrap64(d) == d - 0x1_0000_0000_0000_0000;
    } else {
      assert Wrap64(d) == d + 0x1_0000_0000_0000_0000;
    }
  }

  lemma SignedHeaderSplits(d: string, h: string)
    requires ',' !in d && ',' !in h
    ensures Split("t=" + d + ",v1=" + h, ',') == ["t=" + d, "v1=" + h]
  {
    hide Split;
    assert "t=" + d + ",v1=" + h == ("t=" + d) + [','] + ("v1=" + h);
    SplitTwo("t=" + d, "v1=" + h, ',');
  }

  lemma LastOfTwo(a: string, b: string, key: string)
    ensures LastValue(Pairs([a, b], false), key) ==
            var p, q := KeyValue(a), KeyValue(b);
            if q.Some? && q.value.0 == key then q.value.1 else if p.Some? && p.value.0 == key then p.value.1 else ""
  {
    hide KeyValue;
    var parts := [a, b];
    assert parts[..2] == parts;
    NoPairsYet(parts, false);
    hide LastValue, Pairs;
    PairsGrow(parts, 0, false, key);
    PairsGrow(parts, 1, false, key);
  }

  lemma FieldsOfTwo(d: string, h: string)
    requires ',' !in d && ',' !in h
    ensures var header := "t=" + d + ",v1=" + h; Field(header, false, "t") == d && Field(header, false, "v1") == h
  {
    hide KeyValue, Split, LastValue, Pairs;
    SignedHeaderSplits(d, h);
    KeyValueOf("t", d);
    KeyValueOf("v1", h);
    assert "t" + "=" + d == "t=" + d && "v1" + "=" + h == "v1=" + h;
    LastOfTwo("t=" + d, "v1=" + h, "t");
    LastOfTwo("t=" + d, "v1=" + h, "v1");
  }

  lemma SignedFields(mac: Mac, secret: string, ts: int, payload: seq<Byte>)
    ensures var header := SignPayload(mac, secret, ts, payload);
            Field(header, false, "t") == Dec(ts) && Field(header, false, "v1") == SignatureOf(mac, secret, ts, payload)
  {
    DecChars(ts);
    HexChars(mac(secret, ToSign(ts, payload)));
    FieldsOfTwo(Dec(ts), SignatureOf(mac, secret, ts, payload));
  }

  /** A header signed with one secret over one payload verifies under another secret and
      payload exactly when it is in time and the two MACs coincide. */
  lemma SignedHeaderAcceptedIff(mac: Mac, secret: string, ts: int, payload: seq<Byte>, secret': string, payload': seq<Byte>, tolerance: int, now: int)
    requires IsInt64(ts)
    ensures EngineAccepts(mac, secret', SignPayload(mac, secret, ts, payload), payload', tolerance, now) <==>
            InTime(tolerance, now, ts) && mac(secret', ToSign(ts, payload')) == mac(secret, ToSign(ts, payload))
  {
    SignedFields(mac, secret, ts, payload);
    DecRoundTrip(ts);
    DecNatRoundTrip(Abs(ts));
    HexChars(mac(secret, ToSign(ts, payload)));
    hide Field, ToSign, InTime, ParseInt64, SignPayload, Hex;
    if SignatureOf(mac, secret', ts, payload') == SignatureOf(mac, secret, ts, payload) {
      HexInjective(mac(secret', ToSign(ts, payload')), mac(secret, ToSign(ts, payload)));
    }
  }

  /** Round trip: for every 64-bit timestamp, tolerance and clock reading, and every secret and
      payload, a signed header verifies exactly when no tolerance is set, or the true distance is
      within it, or so near 2^64 that the wrapped-around difference is. */
  lemma SignatureRoundTrip(mac: Mac, secret: string, ts: int, payload: seq<Byte>, tolerance: int, now: int)
    requires IsInt64(ts) && IsInt64(tolerance) && IsInt64(now)
    ensures EngineAccepts(mac, secret, SignPayload(mac, secret, ts, payload), payload, tolerance, now) <==>
            tolerance <= 0 || Abs(now - ts) <= tolerance || Abs(now - ts) >= 0x1_0000_0000_0000_0000 - tolerance
  {
    hide EngineAccepts, SignPayload, ToSign, InTime, Abs;
    SignedHeaderAcceptedIff(mac, secret, ts, payload, secret, payload, tolerance, now);
    InTimeExactly(tolerance, now, ts);
  }

  /** With a clock and a tolerance below 2^62, the wraparound never matters. */
  lemma SignatureRoundTripInRange(mac: Mac, secret: string, ts: int, payload: seq<Byte>, tolerance: int, now: int)
    requires IsInt64(ts) && IsInt64(tolerance) && tolerance <= 0x4000_0000_0000_0000 && 0 <= now < 0x4000_0000_0000_0000
    ensures EngineAccepts(mac, secret, SignPayload(mac, secret, ts, payload), payload, tolerance, now) <==>
            tolerance <= 0 || Abs(now - ts) <= tolerance
  {
    hide EngineAccepts, SignPayload;
    SignatureRoundTrip(mac, secret, ts, payload, tolerance, now);
  }

  /** It does matter for larger ones: for every clock reading after 1970, the earliest timestamp
      passes the largest tolerance, although it lies further back. */
  lemma WraparoundAccepts(mac: Mac, secret: string, payload: seq<Byte>, now: int)
    requires 0 < now <= INT64_MAX
    ensures EngineAccepts(mac, secret, SignPayload(mac, secret, INT64_MIN, payload), payload, INT64_MAX, now) && Abs(now - INT64_MIN) > INT64_MAX
  {
    hide EngineAccepts, SignPayload;
    SignatureRoundTrip(mac, secret, INT64_MIN, payload, INT64_MAX, now);
  }

  lemma DecInjective(a: int, b: int)
    requires Dec(a) == Dec(b)
    ensures a == b
  {
    DecNatRoundTrip(Abs(a));
    DecNatRoundTrip(Abs(b));
    assert a < 0 ==> Dec(a)[0] == '-' && Dec(a)[1..] == DecNat(-a);
    assert b < 0 ==> Dec(b)[0] == '-' && Dec(b)[1..] == DecNat(-b);
    assert a >= 0 ==> Dec(a)[0] in DecNat(a);
    assert b >= 0 ==> Dec(b)[0] in DecNat(b);
  }

  lemma ToSignAt(ts: int, payload: seq<Byte>)
    ensures |ToSign(ts, payload)| == |Dec(ts)| + 1 + |payload|
    ensures forall i | 0 <= i < |Dec(ts)| :: ToSign(ts, payload)[i] as int == Dec(ts)[i] as int && Dec(ts)[i] != '.'
    ensures ToSign(ts, payload)[|Dec(ts)|] as int == '.' as int
    ensures ToSign(ts, payload)[|Dec(ts)| + 1..] == payload
  {
    DecChars(ts);
    hide Dec;
    forall i | 0 <= i < |Dec(ts)|
      ensures Dec(ts)[i] != '.'
    {
      assert Dec(ts)[i] in Dec(ts);
    }
  }

  /** Different (timestamp, payload) pairs are never signed as the same text. */
  lemma ToSignInjective(ts1: int, payload1: seq<Byte>, ts2: int, payload2: seq<Byte>)
    requires ToSign(ts1, payload1) == ToSign(ts2, payload2)
    ensures ts1 == ts2 && payload1 == payload2
  {
    hide ToSign, Dec;
    ToSignAt(ts1, payload1);
    ToSignAt(ts2, payload2);
    var d1, d2 := Dec(ts1), Dec(ts2);
    assert |d1| == |d2|;
    forall i | 0 <= i < |d1|
      ensures d1[i] == d2[i]
    {
      assert d1[i] as int == d2[i] as int;
    }
    DecInjective(ts1, ts2);
  }

  // ---------------------------------------------------------------------------------------
  // Agreement of the engine and the Go SDK
  // ---------------------------------------------------------------------------------------

  predicate SpaceFree(s: string) {
    forall c <- s :: !IsSpace(c)
  }

  /** The text on which the modelled trimming and case folding are those of the libraries. */
  predicate Ascii(s: string) {
    forall c <- s :: c as int < 128
  }

  predicate HasUpper(s: string) {
    exists c <- s :: IsUpper(c)
  }

  lemma TrimSpaceFree(s: string)
    requires SpaceFree(s)
    ensures Trim(s) == s
  {
  }

  lemma PairOfSpaceFree(part: string)
    requires SpaceFree(part)
    ensures PairOf(part, true) == PairOf(part, false)
  {
    if '=' in part {
      var i := IndexOf(part, '=');
      TrimSpaceFree(part[..i]);
      TrimSpaceFree(part[i + 1..]);
      hide Trim;
    }
  }

  lemma FieldSpaceFree(header: string, key: string)
    requires SpaceFree(header)
    ensures Field(header, true, key) == Field(header, false, key)
  {
    var parts := Split(header, ',');
    SplitKeepsChars(header, ',');
    hide Split, PairOf;
    forall i | 0 <= i < |parts|
      ensures PairOf(parts[i], true) == PairOf(parts[i], false)
    {
      assert Within(parts[i], header);
      PairOfSpaceFree(parts[i]);
    }
    assert Pairs(parts, true) == Pairs(parts, false);
  }

  lemma HexIsLower(bytes: seq<Byte>)
    ensures Lower(Hex(bytes)) == Hex(bytes)
  {
    HexChars(bytes);
    LowerKeeps(Hex(bytes));
  }

  lemma SignatureIsLower(mac: Mac, secret: string, ts: int, payload: seq<Byte>)
    ensures Lower(SignatureOf(mac, secret, ts, payload)) == SignatureOf(mac, secret, ts, payload)
    ensures !HasUpper(SignatureOf(mac, secret, ts, payload))
  {
    HexIsLower(mac(secret, ToSign(ts, payload)));
    HexChars(mac(secret, ToSign(ts, payload)));
  }

  /** On ASCII headers without white space and with a non-empty secret, the engine accepts exactly
      what the Go SDK accepts without an upper-case letter in the signature. */
  lemma GoVerifiersAgree(mac: Mac, secret: string, header: string, payload: seq<Byte>, tolerance: int, now: int)
    requires Ascii(header) && SpaceFree(header) && secret != ""
    ensures EngineAccepts(mac, secret, header, payload, tolerance, now) <==>
            SdkAccepts(mac, secret, header, payload, tolerance, now) && !HasUpper(Field(header, false, "v1"))
  {
    hide Field, SignatureOf, InTime, ParseInt64, Lower;
    FieldSpaceFree(header, "t");
    FieldSpaceFree(header, "v1");
    var t, v1 := Field(header, false, "t"), Field(header, false, "v1");
    LowerKeeps(v1);
    if ParseInt64(t).Some? {
      SignatureIsLower(mac, secret, ParseInt64(t).value, payload);
    }
  }
}
