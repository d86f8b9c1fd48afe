/**
 * The few JavaScript value semantics the queue relies on: properties of a
 * parsed JSON object that may be missing or `null`, truthiness of strings,
 * `parseInt` with and without an explicit radix, and the decimal rendering
 * of an integer (what `config set` stores when a number is typed).
 */
module Js {

  /** A property of a parsed JSON object: missing (`undefined`), `null`, or a value. */
  datatype Field<+T> = Absent | Null | Given(value: T)

  /** A number as `parseInt` and `Math.pow` produce it here: an integer, or NaN. */
  datatype Number = Int(n: int) | NaN

  /** `!!s` for a string-valued property: `undefined`, `null` and `""` are falsy. */
  predicate Truthy(s: Field<string>) {
    s.Given? && s.value != ""
  }

  /** The radix argument of `parseInt`: `parseInt(s, 10)` or `parseInt(s)`. */
  datatype Radix = Decimal | Unspecified

  /** White space and line terminators that `parseInt` skips before the number. */
  predicate IsStrWhiteSpace(c: char) {
    var n := c as int;
    n == 0x09 || n == 0x0A || n == 0x0B || n == 0x0C || n == 0x0D || n == 0x20 ||
    n == 0xA0 || n == 0x1680 || (0x2000 <= n <= 0x200A) || n == 0x2028 || n == 0x2029 ||
    n == 0x202F || n == 0x205F || n == 0x3000 || n == 0xFEFF
  }

  /** The value of `c` as a digit in radix up to 36; 36 when `c` is no digit at all. */
  function DigitValue(c: char): (d: nat)
    ensures d <= 36
    ensures d < 10 <==> '0' <= c <= '9'
  {
    if '0' <= c <= '9' then (c as int) - ('0' as int)
    else if 'a' <= c <= 'z' then (c as int) - ('a' as int) + 10
    else if 'A' <= c <= 'Z' then (c as int) - ('A' as int) + 10
    else 36
  }

  /** `s` without its leading white space. */
  function TrimStart(s: string): (t: string)
    ensures |t| <= |s| && t == s[|s| - |t|..]
    ensures t == [] || !IsStrWhiteSpace(t[0])
    ensures forall i :: 0 <= i < |s| - |t| ==> IsStrWhiteSpace(s[i])
  {
    if s != [] && IsStrWhiteSpace(s[0]) then TrimStart(s[1..]) else s
  }

  /** The length of the longest prefix of `s` made of digits of `radix`. */
  function DigitPrefixLength(s: string, radix: nat): (n: nat)
    ensures n <= |s|
    ensures forall i :: 0 <= i < n ==> DigitValue(s[i]) < radix
    ensures n == |s| || DigitValue(s[n]) >= radix
  {
    if s == [] || DigitValue(s[0]) >= radix then 0 else 1 + DigitPrefixLength(s[1..], radix)
  }

  /** The value of a string of digits of `radix`, most significant first. */
  function DigitsValue(digits: string, radix: nat): nat
  {
    if digits == [] then 0
    else DigitsValue(digits[..|digits| - 1], radix) * radix + DigitValue(digits[|digits| - 1])
  }

  /**
   * `parseInt(s, 10)` (radix `Decimal`) or `parseInt(s)` (radix `Unspecified`):
   * skip leading white space, take one optional sign, then, with no radix
   * given, a `0x`/`0X` prefix switches to hexadecimal; the longest run of
   * digits that follows is the value, and NaN when that run is empty.
   * Whatever follows the digits is ignored.
   */
  function ParseInt(s: string, radix: Radix): (r: Number)
    ensures r.NaN? <==> ParseDigits(s, radix) == []
    ensures r.Int? && r.n < 0 ==> SignOf(s) == '-'
  {
    var digits := ParseDigits(s, radix);
    if digits == [] then NaN
    else
      var v: int := DigitsValue(digits, ParseBase(s, radix));
      Int(if SignOf(s) == '-' then -v else v)
  }

  /** The sign character `parseInt` reads, or `'+'` when there is none. */
  function SignOf(s: string): char
  {
    var t := TrimStart(s);
    if t != [] && t[0] == '-' then '-' else '+'
  }

  /** What `parseInt` reads after the white space and the sign. */
  function Unsigned(s: string): string
  {
    var t := TrimStart(s);
    if t != [] && (t[0] == '-' || t[0] == '+') then t[1..] else t
  }

  /** Whether `parseInt` without a radix sees a hexadecimal `0x`/`0X` prefix. */
  predicate HexPrefixed(s: string, radix: Radix)
  {
    var u := Unsigned(s);
    radix == Unspecified && |u| >= 2 && u[0] == '0' && (u[1] == 'x' || u[1] == 'X')
  }

  function ParseBase(s: string, radix: Radix): nat
  {
    if HexPrefixed(s, radix) then 16 else 10
  }

  /** The digits `parseInt` turns into the value. */
  function ParseDigits(s: string, radix: Radix): (digits: string)
    ensures forall i :: 0 <= i < |digits| ==> DigitValue(digits[i]) < ParseBase(s, radix)
  {
    var u := Unsigned(s);
    var body := if HexPrefixed(s, radix) then u[2..] else u;
    body[..DigitPrefixLength(body, ParseBase(s, radix))]
  }

  function DecimalDigit(d: nat): (c: char)
    requires d < 10
    ensures DigitValue(c) == d
  {
    ('0' as int + d) as char
  }

  /** The decimal numeral of `n`, without leading zeros. */
  function NatToDecimal(n: nat): (s: string)
    ensures s != []
    ensures forall i :: 0 <= i < |s| ==> DigitValue(s[i]) < 10
    ensures |s| >= 2 ==> s[0] != '0'
  {
    if n < 10 then [DecimalDigit(n)] else NatToDecimal(n / 10) + [DecimalDigit(n % 10)]
  }

  /** The decimal numeral of `n`, as `String(n)` writes it. */
  function IntToDecimal(n: int): string
  {
    if n < 0 then "-" + NatToDecimal(-n) else NatToDecimal(n)
  }

  lemma {:induction false} NatToDecimalValue(n: nat)
    ensures DigitsValue(NatToDecimal(n), 10) == n
  {
    var s := NatToDecimal(n);
    if n >= 10 {
      NatToDecimalValue(n / 10);
      assert s[..|s| - 1] == NatToDecimal(n / 10);
    }
  }

  /** A number that `config set` stored as its decimal numeral reads back unchanged, whatever the radix. */
  lemma {:induction false} ParseIntRoundTrip(n: int, radix: Radix)
    ensures ParseInt(IntToDecimal(n), radix) == Int(n)
  {
    var s := IntToDecimal(n);
    var d := NatToDecimal(if n < 0 then -n else n);
    assert !IsStrWhiteSpace(s[0]);
    assert TrimStart(s) == s;
    assert Unsigned(s) == d;
    assert !HexPrefixed(s, radix) by {
      if |d| >= 2 { assert DigitValue(d[1]) < 10; }
    }
    assert d[..|d|] == d;
    assert ParseDigits(s, radix) == d;
    NatToDecimalValue(if n < 0 then -n else n);
  }

  /** Without a radix a `0x` prefix reads as hexadecimal; with radix 10 the same text reads as 0. */
  lemma HexWithoutRadix()
    ensures ParseInt("0x10", Unspecified) == Int(16)
    ensures ParseInt("0x10", Decimal) == Int(0)
  {
    var s := "0x10";
    assert TrimStart(s) == s;
    assert Unsigned(s) == s;
    assert HexPrefixed(s, Unspecified);
    assert s[2..] == "10";
    assert DigitPrefixLength("10", 16) == 2;
    assert "10"[..2] == "10";
    assert DigitsValue("10", 16) == 16 by { assert "10"[..1] == "1"; assert "1"[..0] == []; }
    assert !HexPrefixed(s, Decimal);
    assert DigitPrefixLength(s, 10) == 1;
    assert s[..1] == "0";
    assert DigitsValue("0", 10) == 0 by { assert "0"[..0] == []; }
  }

  /** Leading white space is skipped, the sign is kept and text after the digits is ignored. */
  lemma TrailingText()
    ensures ParseInt(" -7 tries", Decimal) == Int(-7)
  {
    var s := " -7 tries";
    var t := s[1..];
    assert t == "-7 tries";
    assert IsStrWhiteSpace(s[0]) && !IsStrWhiteSpace(t[0]);
    assert TrimStart(t) == t;
    assert TrimStart(s) == t;
    assert SignOf(s) == '-';
    var u := t[1..];
    assert u == "7 tries";
    assert Unsigned(s) == u;
    assert DigitPrefixLength(u[1..], 10) == 0;
    assert DigitPrefixLength(u, 10) == 1;
    assert u[..1] == "7";
    assert DigitsValue("7", 10) == 7 by { assert "7"[..0] == []; }
  }

  /** `"abc"` with radix 10 and the empty text with no radix have no digit to read, so both give NaN. */
  lemma NoDigits()
    ensures ParseInt("abc", Decimal) == NaN
    ensures ParseInt("", Unspecified) == NaN
  {
  }
}
