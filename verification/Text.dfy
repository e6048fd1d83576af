/** Decimal, hexadecimal and header text, as the Go and JavaScript libraries print and parse it
    on ASCII strings. */
module Text {
  import opened Domain

  // ---------------------------------------------------------------------------------------
  // Decimal
  // ---------------------------------------------------------------------------------------

  const INT64_MIN := -0x8000_0000_0000_0000
  const INT64_MAX := 0x7fff_ffff_ffff_ffff

  predicate IsInt64(n: int) {
    INT64_MIN <= n <= INT64_MAX
  }

  function Digit(d: nat): char
    requires d < 10
  {
    ('0' as int + d) as char
  }

  predicate IsDigit(c: char) {
    '0' <= c <= '9'
  }

  function DecNat(n: nat): string {
    if n < 10 then [Digit(n)] else DecNat(n / 10) + [Digit(n % 10)]
  }

  /** `%d` */
  function Dec(n: int): string {
    if n < 0 then "-" + DecNat(-n) else DecNat(n)
  }

  predicate AllDigits(s: string) {
    forall c <- s :: IsDigit(c)
  }

  function DigitValue(c: char): nat
    requires IsDigit(c)
  {
    c as int - '0' as int
  }

  function Value(s: string): nat
    requires AllDigits(s)
  {
    if s == "" then 0
    else
      assert s[|s| - 1] in s;
      Value(s[..|s| - 1]) * 10 + DigitValue(s[|s| - 1])
  }

  /** Base-10 `strconv.ParseInt`: an optional sign, at least one digit, and the 64-bit range. */
  function ParseInt64(s: string): Option<int> {
    var digits := if s != "" && (s[0] == '-' || s[0] == '+') then s[1..] else s;
    if digits == "" || !AllDigits(digits) then None
    else
      var v: int := Value(digits);
      var n := if s[0] == '-' then -v else v;
      if IsInt64(n) then Some(n) else None
  }

  lemma {:induction false} DecNatRoundTrip(n: nat)
    ensures DecNat(n) != "" && AllDigits(DecNat(n)) && Value(DecNat(n)) == n
  {
    if n < 10 {
      assert DecNat(n)[..0] == "";
    } else {
      DecNatRoundTrip(n / 10);
      var init := DecNat(n / 10);
      assert DecNat(n) == init + [Digit(n % 10)] && DecNat(n)[..|init|] == init;
    }
  }

  /** Printing and parsing a 64-bit integer gives it back. */
  lemma DecRoundTrip(n: int)
    ensures ParseInt64(Dec(n)) == if IsInt64(n) then Some(n) else None
  {
    hide DecNat, Value;
    if n < 0 {
      DecNatRoundTrip(-n);
      assert Dec(n)[1..] == DecNat(-n);
    } else {
      DecNatRoundTrip(n);
      assert Dec(n)[0] in DecNat(n);
    }
  }

  lemma DecChars(n: int)
    ensures forall c <- Dec(n) :: c == '-' || IsDigit(c)
  {
    DecNatRoundTrip(if n < 0 then -n else n);
  }

  function Pow10(n: nat): nat {
    if n == 0 then 1 else 10 * Pow10(n - 1)
  }

  /** The digits of a number, counted from the last one, and no leading zero. */
  lemma {:induction false} DecNatAt(n: nat, i: nat)
    ensures DecNat(n) != "" && (n > 0 ==> DecNat(n)[0] != '0')
    ensures i < |DecNat(n)| ==> Pow10(i) > 0 && DecNat(n)[|DecNat(n)| - 1 - i] == "0123456789"[n / Pow10(i) % 10]
    decreases n
  {
    DigitIs(n % 10);
    if n >= 10 {
      DecNatAt(n / 10, if i > 0 then i - 1 else 0);
      var init := DecNat(n / 10);
      assert DecNat(n) == init + [Digit(n % 10)];
      if i > 0 {
        Pow10Positive(i - 1);
        DivTwice(n, Pow10(i - 1));
      }
    }
  }

  lemma DigitIs(d: nat)
    requires d < 10
    ensures Digit(d) == "0123456789"[d]
  {
  }

  lemma Pow10Positive(n: nat)
    ensures Pow10(n) > 0
  {
  }

  lemma DivTwice(n: nat, m: nat)
    requires m > 0
    ensures n / 10 / m == n / (10 * m)
  {
    var q, r := n / 10 / m, n / 10 % m;
    assert n == 10 * (q * m + r) + n % 10 == q * (10 * m) + (10 * r + n % 10);
    QuotientIs(n, 10 * m, q, 10 * r + n % 10);
  }

  lemma QuotientIs(n: nat, m: nat, q: nat, r: nat)
    requires m > 0 && n == q * m + r && r < m
    ensures n / m == q
  {
    var d := n / m - q;
    assert n == n / m * m + n % m && d * m == r - n % m;
    MultipleBounds(d, m);
  }

  lemma MultipleBounds(d: int, m: int)
    requires m > 0
    ensures d >= 1 ==> d * m >= m
    ensures d <= -1 ==> d * m <= -m
  {
    if d >= 1 {
      assert (d - 1) * m >= 0;
    } else if d <= -1 {
      assert (-d - 1) * m >= 0;
    }
  }

  lemma AllDigitsConcat(a: string, b: string)
    ensures AllDigits(a + b) <==> AllDigits(a) && AllDigits(b)
  {
  }

  /** Digits are read with the place value of ten. */
  lemma {:induction false} ValueConcat(a: string, b: string)
    requires AllDigits(a) && AllDigits(b)
    ensures AllDigits(a + b) && Value(a + b) == Value(a) * Pow10(|b|) + Value(b)
    decreases |b|
  {
    AllDigitsConcat(a, b);
    if b == "" {
      assert a + b == a;
    } else {
      var n := |b| - 1;
      assert b == b[..n] + [b[n]];
      AllDigitsConcat(b[..n], [b[n]]);
      ValueConcat(a, b[..n]);
      OneMoreDigit(a, b[..n], b[n]);
    }
  }

  lemma OneMoreDigit(a: string, b: string, c: char)
    requires AllDigits(a) && AllDigits(b) && IsDigit(c) && AllDigits(a + b) && Value(a + b) == Value(a) * Pow10(|b|) + Value(b)
    ensures AllDigits(b + [c]) && AllDigits(a + (b + [c])) && Value(a + (b + [c])) == Value(a) * Pow10(|b| + 1) + Value(b + [c])
  {
    AllDigitsConcat(b, [c]);
    AllDigitsConcat(a, b + [c]);
    assert a + (b + [c]) == (a + b) + [c];
    ValueGrows(a + b, c);
    ValueGrows(b, c);
    PlaceValue(Value(a), Pow10(|b|), Value(b), DigitValue(c));
    hide Value;
  }

  lemma ValueGrows(s: string, c: char)
    requires AllDigits(s) && IsDigit(c)
    ensures AllDigits(s + [c]) && Value(s + [c]) == Value(s) * 10 + DigitValue(c)
  {
    assert (s + [c])[..|s|] == s;
  }

  lemma PlaceValue(x: nat, p: nat, y: nat, d: nat)
    ensures (x * p + y) * 10 + d == x * (10 * p) + (y * 10 + d)
  {
  }

  lemma ValueOfDigit(d: nat)
    requires d < 10
    ensures IsDigit("0123456789"[d]) && Value(["0123456789"[d]]) == d
  {
    assert ["0123456789"[d]][..0] == "";
  }

  /** The text is an optional sign and at least one digit, and denotes `n`. */
  ghost predicate Reads(s: string, n: int) {
    exists sign, digits ::
      s == sign + digits && sign in {"", "+", "-"} && digits != "" && AllDigits(digits) && n == if sign == "-" then 0 - Value(digits) else Value(digits)
  }

  /** Parsing succeeds exactly on such texts that fit 64 bits. */
  lemma ParseInt64Iff(s: string, n: int)
    ensures ParseInt64(s) == Some(n) <==> Reads(s, n) && -0x8000_0000_0000_0000 <= n < 0x8000_0000_0000_0000
  {
    if Reads(s, n) {
      var sign, digits :| s == sign + digits && sign in {"", "+", "-"} && digits != "" && AllDigits(digits)
                          && n == if sign == "-" then 0 - Value(digits) else Value(digits);
      ParseSigned(sign, digits);
    }
    if ParseInt64(s) == Some(n) {
      ParsedReads(s);
    }
  }

  lemma ParsedReads(s: string)
    requires ParseInt64(s).Some?
    ensures Reads(s, ParseInt64(s).value)
  {
    hide Value;
    if s[0] == '-' || s[0] == '+' {
      assert s == [s[0]] + s[1..] && (if s[0] == '-' then [s[0]] == "-" else [s[0]] == "+");
    } else {
      assert s == "" + s;
    }
  }

  lemma ParseSigned(sign: string, digits: string)
    requires sign in {"", "+", "-"} && digits != "" && AllDigits(digits)
    ensures var n := if sign == "-" then 0 - Value(digits) else Value(digits); ParseInt64(sign + digits) == if IsInt64(n) then Some(n) else None
  {
    hide Value;
    assert IsDigit(digits[0]);
    if sign == "" {
      assert sign + digits == digits;
    } else {
      assert (sign + digits)[1..] == digits && (sign + digits)[0] == sign[0];
    }
  }

  lemma DecNatInjective(a: nat, b: nat)
    requires DecNat(a) == DecNat(b)
    ensures a == b
  {
    DecNatRoundTrip(a);
    DecNatRoundTrip(b);
  }

  // ---------------------------------------------------------------------------------------
  // Splitting
  // ---------------------------------------------------------------------------------------

  /** The first position of `c`. */
  function IndexOf(s: string, c: char): (i: nat)
    requires c in s
    ensures i < |s| && s[i] == c && c !in s[..i]
  {
    if s[0] == c then 0 else 1 + IndexOf(s[1..], c)
  }

  lemma IndexOfFirst(a: string, c: char, b: string)
    requires c !in a
    ensures c in a + [c] + b && IndexOf(a + [c] + b, c) == |a|
  {
    var s := a + [c] + b;
    assert s[|a|] == c;
    assert s[..|a|] == a;
  }

  function Split(s: string, sep: char): (parts: seq<string>)
    ensures parts != []
    decreases |s|
  {
    if sep !in s then [s]
    else var i := IndexOf(s, sep); [s[..i]] + Split(s[i + 1..], sep)
  }

  function Join(parts: seq<string>, sep: char): string
    requires parts != []
  {
    if |parts| == 1 then parts[0] else parts[0] + [sep] + Join(parts[1..], sep)
  }

  /** The parts are free of the separator and joined by it give the text back. */
  lemma {:induction false} SplitJoins(s: string, sep: char)
    ensures Join(Split(s, sep), sep) == s
    ensures forall part <- Split(s, sep) :: sep !in part
    decreases |s|
  {
    if sep in s {
      var i := IndexOf(s, sep);
      SplitJoins(s[i + 1..], sep);
      assert Split(s, sep)[1..] == Split(s[i + 1..], sep);
      assert s == s[..i] + [sep] + s[i + 1..];
    }
  }

  ghost predicate Within(part: string, s: string) {
    forall c <- part :: c in s
  }

  /** Every character of a part is one of the text. */
  lemma {:induction false} SplitKeepsChars(s: string, sep: char)
    ensures forall part <- Split(s, sep) :: Within(part, s)
    decreases |s|
  {
    if sep in s {
      var i := IndexOf(s, sep);
      SplitKeepsChars(s[i + 1..], sep);
      forall part <- Split(s[i + 1..], sep)
        ensures Within(part, s)
      {
        assert Within(part, s[i + 1..]);
      }
      assert Within(s[..i], s);
    }
  }

  lemma SplitTwo(a: string, b: string, sep: char)
    requires sep !in a && sep !in b
    ensures Split(a + [sep] + b, sep) == [a, b]
  {
    IndexOfFirst(a, sep, b);
    assert (a + [sep] + b)[..|a|] == a && (a + [sep] + b)[|a| + 1..] == b;
  }

  /** `key=value` at the first '='. */
  function KeyValue(part: string): Option<(string, string)> {
    if '=' !in part then None
    else var i := IndexOf(part, '='); Some((part[..i], part[i + 1..]))
  }

  lemma KeyValueOf(key: string, value: string)
    requires '=' !in key
    ensures KeyValue(key + "=" + value) == Some((key, value))
  {
    IndexOfFirst(key, '=', value);
    var s := key + ['='] + value;
    assert s == key + "=" + value && s[..|key|] == key && s[|key| + 1..] == value;
  }

  // ---------------------------------------------------------------------------------------
  // White space and letter case
  // ---------------------------------------------------------------------------------------

  predicate IsSpace(c: char) {
    c == ' ' || '\t' <= c <= '\r'
  }

  function TrimLeft(s: string): string {
    if s != "" && IsSpace(s[0]) then TrimLeft(s[1..]) else s
  }

  function TrimRight(s: string): string {
    if s != "" && IsSpace(s[|s| - 1]) then TrimRight(s[..|s| - 1]) else s
  }

  function Trim(s: string): string {
    TrimRight(TrimLeft(s))
  }

  /** The six characters that are trimmed off. */
  predicate Blank(s: string) {
    forall c <- s :: c as int in {9, 10, 11, 12, 13, 32}
  }

  lemma {:induction false} TrimLeftIs(s: string) returns (i: nat)
    ensures i <= |s| && TrimLeft(s) == s[i..] && Blank(s[..i]) && (i < |s| ==> !IsSpace(s[i]))
  {
    i := 0;
    if s != "" && IsSpace(s[0]) {
      var j := TrimLeftIs(s[1..]);
      i := j + 1;
      assert s[..i] == [s[0]] + s[1..][..j];
    }
  }

  lemma {:induction false} TrimRightIs(s: string) returns (j: nat)
    ensures j <= |s| && TrimRight(s) == s[..j] && Blank(s[j..]) && (j > 0 ==> !IsSpace(s[j - 1]))
  {
    j := |s|;
    if s != "" && IsSpace(s[|s| - 1]) {
      var n := |s| - 1;
      j := TrimRightIs(s[..n]);
      assert s[..n][..j] == s[..j] && s[j..] == s[..n][j..] + [s[n]];
    }
  }

  /** Trimming takes off exactly the white space at the two ends. */
  lemma TrimIs(s: string)
    ensures exists i, j | 0 <= i <= j <= |s| ::
              && Trim(s) == s[i..j] && Blank(s[..i]) && Blank(s[j..])
              && (i < j ==> s[i] as int !in {9, 10, 11, 12, 13, 32} && s[j - 1] as int !in {9, 10, 11, 12, 13, 32})
  {
    var i := TrimLeftIs(s);
    var t := s[i..];
    var n := TrimRightIs(t);
    var j := i + n;
    assert t[..n] == s[i..j] && t[n..] == s[j..];
    assert i < j ==> s[i] == t[0] && s[j - 1] == t[n - 1];
  }

  predicate IsUpper(c: char) {
    'A' <= c <= 'Z'
  }

  function Lower(s: string): string {
    seq(|s|, i requires 0 <= i < |s| => if IsUpper(s[i]) then (s[i] as int + 32) as char else s[i])
  }

  /** Each capital becomes the small letter at its place in the alphabet, nothing else changes. */
  lemma LowerAt(s: string, i: nat)
    requires i < |s|
    ensures |Lower(s)| == |s|
    ensures forall k | 0 <= k < 26 :: s[i] == "ABCDEFGHIJKLMNOPQRSTUVWXYZ"[k] ==> Lower(s)[i] == "abcdefghijklmnopqrstuvwxyz"[k]
    ensures s[i] !in "ABCDEFGHIJKLMNOPQRSTUVWXYZ" ==> Lower(s)[i] == s[i]
  {
    var upper, lower := "ABCDEFGHIJKLMNOPQRSTUVWXYZ", "abcdefghijklmnopqrstuvwxyz";
    assert forall k | 0 <= k < 26 :: upper[k] as int == 65 + k && lower[k] as int == 97 + k;
    if IsUpper(s[i]) {
      assert upper[s[i] as int - 65] == s[i];
    }
  }

  lemma LowerKeeps(s: string)
    ensures Lower(s) == s <==> forall c <- s :: !IsUpper(c)
  {
    if Lower(s) == s {
      forall i | 0 <= i < |s|
        ensures !IsUpper(s[i])
      {
        assert Lower(s)[i] == s[i];
      }
    }
  }

  // ---------------------------------------------------------------------------------------
  // Hexadecimal
  // ---------------------------------------------------------------------------------------

  function HexDigit(d: nat): char
    requires d < 16
  {
    if d < 10 then ('0' as int + d) as char else ('a' as int + d - 10) as char
  }

  predicate IsHexDigit(c: char) {
    '0' <= c <= '9' || 'a' <= c <= 'f'
  }

  function HexByte(b: Byte): string {
    [HexDigit(b as int / 16), HexDigit(b as int % 16)]
  }

  function Hex(bytes: seq<Byte>): string {
    if bytes == [] then "" else Hex(bytes[..|bytes| - 1]) + HexByte(bytes[|bytes| - 1])
  }

  const HEX_DIGITS := "0123456789abcdef"

  /** Two lower-case digits for each byte, the high one first. */
  lemma {:induction false} HexAt(bytes: seq<Byte>, i: nat)
    requires i < |bytes|
    ensures |Hex(bytes)| == 2 * |bytes|
    ensures Hex(bytes)[2 * i] == HEX_DIGITS[bytes[i] as int / 16] && Hex(bytes)[2 * i + 1] == HEX_DIGITS[bytes[i] as int % 16]
  {
    var n := |bytes| - 1;
    HexChars(bytes[..n]);
    HexByteAt(bytes[n]);
    if i < n {
      HexAt(bytes[..n], i);
    }
    hide HexByte;
  }

  lemma HexByteAt(b: Byte)
    ensures HexByte(b) == [HEX_DIGITS[b as int / 16], HEX_DIGITS[b as int % 16]]
  {
  }

  lemma HexByteChars(b: Byte)
    ensures |HexByte(b)| == 2 && forall c <- HexByte(b) :: IsHexDigit(c)
  {
  }

  lemma {:induction false} HexChars(bytes: seq<Byte>)
    ensures |Hex(bytes)| == 2 * |bytes| && forall c <- Hex(bytes) :: IsHexDigit(c)
  {
    if bytes != [] {
      HexChars(bytes[..|bytes| - 1]);
      HexByteChars(bytes[|bytes| - 1]);
      hide HexByte, IsHexDigit;
    }
  }

  lemma {:induction false} HexInjective(a: seq<Byte>, b: seq<Byte>)
    requires Hex(a) == Hex(b)
    ensures a == b
  {
    HexChars(a);
    HexChars(b);
    if a != [] {
      var n := |a| - 1;
      HexChars(a[..n]);
      HexChars(b[..n]);
      assert Hex(a)[..2 * n] == Hex(a[..n]) && Hex(b)[..2 * n] == Hex(b[..n]);
      assert Hex(a)[2 * n..] == HexByte(a[n]) && Hex(b)[2 * n..] == HexByte(b[n]);
      HexInjective(a[..n], b[..n]);
      HexByteInjective(a[n], b[n]);
      assert a == a[..n] + [a[n]] && b == b[..n] + [b[n]];
    }
  }

  lemma HexByteInjective(a: Byte, b: Byte)
    requires HexByte(a) == HexByte(b)
    ensures a == b
  {
    assert HexByte(a)[0] == HexByte(b)[0] && HexByte(a)[1] == HexByte(b)[1];
    HexDigitInjective(a as int / 16, b as int / 16);
    HexDigitInjective(a as int % 16, b as int % 16);
  }

  lemma HexDigitInjective(a: nat, b: nat)
    requires a < 16 && b < 16 && HexDigit(a) == HexDigit(b)
    ensures a == b
  {
  }

  // ---------------------------------------------------------------------------------------
  // Printed message IDs
  // ---------------------------------------------------------------------------------------

  lemma PrefixUpTo(a1: string, b1: string, a2: string, b2: string, sep: char)
    requires a1 + [sep] + b1 == a2 + [sep] + b2 && sep !in a1 && sep !in a2
    ensures a1 == a2 && b1 == b2
  {
    IndexOfFirst(a1, sep, b1);
    IndexOfFirst(a2, sep, b2);
    var s1, s2 := a1 + [sep] + b1, a2 + [sep] + b2;
    assert s1[..|a1|] == a1 && s2[..|a1|] == a2 && s1[|a1| + 1..] == b1 && s2[|a1| + 1..] == b2;
  }
}
