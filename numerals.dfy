/** Python's integer and byte-string literals, restricted to the forms the
    client meets: `int(s)` (an optional sign and decimal digits), `int(s, 0)`
    (an optional sign, then `0x`/`0X` and hexadecimal digits, or a decimal
    literal without leading zeros), `str(i)`, `hex(i)`, `int.bit_length()`,
    `bytes.hex()` and `bytes.fromhex(h)` (hexadecimal digits only). */
module Numerals {
  import opened Common

  predicate IsDecDigit(c: char) { '0' <= c <= '9' }

  predicate IsHexDigit(c: char) { IsDecDigit(c) || 'a' <= c <= 'f' || 'A' <= c <= 'F' }

  predicate IsLowerHexDigit(c: char) { IsDecDigit(c) || 'a' <= c <= 'f' }

  function DigitValue(c: char): (v: nat)
    requires IsHexDigit(c)
    ensures v < 16 && (v < 10 <==> IsDecDigit(c))
  {
    if IsDecDigit(c) then c as int - '0' as int
    else if 'a' <= c <= 'f' then c as int - 'a' as int + 10
    else c as int - 'A' as int + 10
  }

  /** The lower-case digit Python prints for `d`. */
  function DigitChar(d: nat): (c: char)
    requires d < 16
    ensures IsLowerHexDigit(c) && IsHexDigit(c) && DigitValue(c) == d
    ensures IsDecDigit(c) <==> d < 10
    ensures c == '0' <==> d == 0
  {
    "0123456789abcdef"[d]
  }

  /** Every character of `s` is a digit of the given base. */
  predicate ValidDigits(s: string, base: nat) {
    forall i :: 0 <= i < |s| ==> IsHexDigit(s[i]) && DigitValue(s[i]) < base
  }

  predicate AllDec(s: string) { forall i :: 0 <= i < |s| ==> IsDecDigit(s[i]) }

  predicate AllHex(s: string) { forall i :: 0 <= i < |s| ==> IsHexDigit(s[i]) }

  predicate AllZeros(s: string) { forall i :: 0 <= i < |s| ==> s[i] == '0' }

  /** The number a digit string denotes, most significant digit first. */
  function DigitsValue(s: string, base: nat): nat
    requires ValidDigits(s, base)
    decreases |s|
  {
    if s == [] then 0
    else DigitsValue(s[..|s| - 1], base) * base + DigitValue(s[|s| - 1])
  }

  /** The shortest digit string of `n` (no leading zeros, "0" for zero). */
  function NatDigits(n: nat, base: nat): (s: string)
    requires base == 10 || base == 16
    ensures |s| >= 1 && ValidDigits(s, base)
    ensures forall i :: 0 <= i < |s| ==> IsLowerHexDigit(s[i])
    ensures DigitsValue(s, base) == n
    ensures s[0] == '0' <==> n == 0
    ensures n == 0 ==> s == "0"
    decreases n
  {
    if n < base then [DigitChar(n)]
    else
      var p := NatDigits(n / base, base);
      var s := p + [DigitChar(n % base)];
      assert s[..|s| - 1] == p;
      s
  }

  /** An optional leading sign, split off: `(negative, digits)`. */
  function SplitSign(s: string): (string, bool) {
    if |s| > 0 && (s[0] == '-' || s[0] == '+') then (s[1..], s[0] == '-') else (s, false)
  }

  function Signed(magnitude: nat, negative: bool): int {
    if negative then -(magnitude as int) else magnitude
  }

  /** `str(i)`. */
  function Decimal(i: int): string {
    if i < 0 then "-" + NatDigits(-i, 10) else NatDigits(i, 10)
  }

  /** `hex(i)`: "0x…" in lower case, "-0x…" for negative numbers. */
  function Hex(i: int): string {
    if i < 0 then "-0x" + NatDigits(-i, 16) else "0x" + NatDigits(i, 16)
  }

  /** `int(s)`: `None` stands for the `ValueError` Python raises. */
  function ParseDecimal(s: string): Option<int> {
    var (body, negative) := SplitSign(s);
    if |body| > 0 && AllDec(body) then Some(Signed(DigitsValue(body, 10), negative))
    else None
  }

  /** `int(s, 0)`: the base comes from the literal's prefix; a decimal
      literal may not have leading zeros unless it is all zeros. */
  function ParseIntLiteral(s: string): Option<int> {
    var (body, negative) := SplitSign(s);
    if |body| >= 2 && body[0] == '0' && (body[1] == 'x' || body[1] == 'X') then
      var digits := body[2..];
      if |digits| > 0 && AllHex(digits) then Some(Signed(DigitsValue(digits, 16), negative))
      else None
    else if |body| > 0 && AllDec(body) && (body[0] != '0' || AllZeros(body)) then
      Some(Signed(DigitsValue(body, 10), negative))
    else None
  }

  lemma DecimalParts(i: int)
    ensures i < 0 ==> SplitSign(Decimal(i)) == (NatDigits(-i, 10), true)
    ensures i >= 0 ==> SplitSign(Decimal(i)) == (NatDigits(i, 10), false)
    ensures forall k :: 0 <= k < |SplitSign(Decimal(i)).0| ==> IsDecDigit(SplitSign(Decimal(i)).0[k])
  {
    if i < 0 {
      assert ("-" + NatDigits(-i, 10))[1..] == NatDigits(-i, 10);
    } else {
      assert NatDigits(i, 10)[0] != '-' && NatDigits(i, 10)[0] != '+';
    }
  }

  /** `int(str(i)) == i` and `int(str(i), 0) == i`: Python's decimal
      printing never produces a leading zero. */
  lemma DecimalRoundTrip(i: int)
    ensures ParseDecimal(Decimal(i)) == Some(i)
    ensures ParseIntLiteral(Decimal(i)) == Some(i)
  {
    DecimalParts(i);
    var body := SplitSign(Decimal(i)).0;
    assert |body| == 1 || body[0] != '0';
  }

  lemma ParseHexLiteral(s: string, d: string, negative: bool)
    requires SplitSign(s) == ("0x" + d, negative)
    requires |d| > 0 && AllHex(d)
    ensures ParseIntLiteral(s) == Some(Signed(DigitsValue(d, 16), negative))
  {
    var body := "0x" + d;
    assert body[0] == '0' && body[1] == 'x' && body[2..] == d;
  }

  lemma HexRoundTripNegative(i: int)
    requires i < 0
    ensures ParseIntLiteral(Hex(i)) == Some(i)
  {
    var d := NatDigits(-i, 16);
    assert Hex(i) == "-" + ("0x" + d);
    assert SplitSign(Hex(i)) == ("0x" + d, true);
    ParseHexLiteral(Hex(i), d, true);
  }

  /** `int(hex(i), 0) == i`. */
  lemma HexRoundTrip(i: int)
    ensures ParseIntLiteral(Hex(i)) == Some(i)
  {
    if i < 0 {
      HexRoundTripNegative(i);
    } else {
      assert Hex(i)[0] == '0';
      ParseHexLiteral(Hex(i), NatDigits(i, 16), false);
    }
  }

  /** The two lower-case digits `bytes.hex()` prints for one byte. */
  function ByteHex(b: Byte): string {
    [DigitChar(b as int / 16), DigitChar(b as int % 16)]
  }

  /** `bytes.hex()`. */
  function HexOfBytes(bs: seq<Byte>): (s: string)
    ensures |s| == 2 * |bs|
    ensures forall i :: 0 <= i < |s| ==> IsLowerHexDigit(s[i])
  {
    if bs == [] then "" else ByteHex(bs[0]) + HexOfBytes(bs[1..])
  }

  /** `bytes.fromhex(h)` on hexadecimal digits, two per byte; an odd count or
      another character is the `ValueError` Python raises. */
  function BytesFromHex(h: string): (r: Option<seq<Byte>>)
    ensures r.Some? ==> 2 * |r.value| == |h|
    decreases |h|
  {
    if |h| == 0 then Some([])
    else if |h| == 1 || !IsHexDigit(h[0]) || !IsHexDigit(h[1]) then None
    else
      match BytesFromHex(h[2..])
      case None => None
      case Some(rest) => Some([(DigitValue(h[0]) * 16 + DigitValue(h[1])) as Byte] + rest)
  }

  /** `bytes.fromhex(b.hex()) == b`. */
  lemma {:induction false} BytesHexRoundTrip(bs: seq<Byte>)
    ensures BytesFromHex(HexOfBytes(bs)) == Some(bs)
  {
    if bs != [] {
      BytesHexRoundTrip(bs[1..]);
      var h := HexOfBytes(bs);
      assert h[2..] == HexOfBytes(bs[1..]);
      assert DigitValue(h[0]) * 16 + DigitValue(h[1]) == bs[0] as int;
      assert [bs[0]] + bs[1..] == bs;
    }
  }

  /** `n.bit_length()` for `n >= 0` (Python's is that of `abs(n)`). */
  function BitLength(n: nat): nat {
    if n == 0 then 0 else 1 + BitLength(n / 2)
  }

  function Pow2(k: nat): (r: nat)
    ensures r >= 1
  {
    if k == 0 then 1 else 2 * Pow2(k - 1)
  }

  /** A number needs more than `k` bits exactly when it is at least `2^k`. */
  lemma {:induction false} BitLengthAtLeast(n: nat, k: nat)
    ensures BitLength(n) >= k + 1 <==> n >= Pow2(k)
  {
    if k > 0 && n > 0 {
      BitLengthAtLeast(n / 2, k - 1);
    }
  }
}
