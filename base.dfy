/** Shared helpers: an optional value, decimal formatting of integers and
    the digit parsing that JavaScript's `parseInt` performs. */
module Base {

  datatype Option<+T> = None | Some(value: T)

  /** The value of `c` as a digit in bases up to 36 ('0'-'9', then 'a'-'z' or 'A'-'Z'). */
  function CharDigit(c: char): Option<nat>
  {
    if '0' <= c <= '9' then Some(c as int - '0' as int)
    else if 'a' <= c <= 'z' then Some(c as int - 'a' as int + 10)
    else if 'A' <= c <= 'Z' then Some(c as int - 'A' as int + 10)
    else None
  }

  predicate IsRadixDigit(c: char, radix: nat)
  {
    CharDigit(c).Some? && CharDigit(c).value < radix
  }

  predicate AllRadixDigits(s: string, radix: nat)
  {
    forall i :: 0 <= i < |s| ==> IsRadixDigit(s[i], radix)
  }

  /** The number written by `s` in base `radix`, most significant digit first. */
  function RadixValue(s: string, radix: nat): nat
    requires AllRadixDigits(s, radix)
  {
    if s == [] then 0
    else RadixValue(s[..|s| - 1], radix) * radix + CharDigit(s[|s| - 1]).value
  }

  /** The longest prefix of `s` made of digits of base `radix`. */
  function RadixPrefix(s: string, radix: nat): (p: string)
    ensures p <= s && AllRadixDigits(p, radix)
    ensures |p| < |s| ==> !IsRadixDigit(s[|p|], radix)
  {
    if s != [] && IsRadixDigit(s[0], radix) then [s[0]] + RadixPrefix(s[1..], radix) else []
  }

  function DigitChar(d: nat): (c: char)
    requires d < 10
    ensures CharDigit(c) == Some(d)
  {
    ('0' as int + d) as char
  }

  /** Decimal text of a natural number: no sign, no leading zeros. */
  function NatToDecimal(n: nat): (s: string)
    ensures s != [] && AllRadixDigits(s, 10)
    ensures |s| > 1 ==> s[0] != '0'
  {
    if n < 10 then [DigitChar(n)] else NatToDecimal(n / 10) + [DigitChar(n % 10)]
  }

  /** Decimal text of an integer, as both Python's `str` and JavaScript's
      number-to-string conversion write it (a leading '-' for negatives). */
  function IntToDecimal(i: int): string
  {
    if i < 0 then "-" + NatToDecimal(-i) else NatToDecimal(i)
  }

  lemma {:induction false} NatToDecimalValue(n: nat)
    ensures RadixValue(NatToDecimal(n), 10) == n
  {
    if n >= 10 {
      NatToDecimalValue(n / 10);
      var s := NatToDecimal(n);
      assert s[..|s| - 1] == NatToDecimal(n / 10);
    }
  }

  lemma {:induction false} RadixPrefixOfDigits(s: string, radix: nat)
    requires AllRadixDigits(s, radix)
    ensures RadixPrefix(s, radix) == s
  {
    if s != [] {
      RadixPrefixOfDigits(s[1..], radix);
    }
  }

  /** Decimal formatting is injective: distinct integers never share a text. */
  lemma IntToDecimalInjective(i: int, j: int)
    requires IntToDecimal(i) == IntToDecimal(j)
    ensures i == j
  {
    var s := NatToDecimal(if i < 0 then -i else i);
    var t := NatToDecimal(if j < 0 then -j else j);
    assert !IsRadixDigit('-', 10);
    if i < 0 && j < 0 {
      assert s == IntToDecimal(i)[1..] == IntToDecimal(j)[1..] == t;
      NatToDecimalValue(-i);
      NatToDecimalValue(-j);
    } else if i >= 0 && j >= 0 {
      NatToDecimalValue(i);
      NatToDecimalValue(j);
    }
  }

  /** The white space and line terminators JavaScript trims before a number. */
  predicate IsJsSpace(c: char)
  {
    c == '\t' || c == '\n' || c == '\U{000B}' || c == '\U{000C}' || c == '\r' || c == ' '
    || c == '\U{00A0}' || c == '\U{1680}' || ('\U{2000}' <= c <= '\U{200A}')
    || c == '\U{2028}' || c == '\U{2029}' || c == '\U{202F}' || c == '\U{205F}'
    || c == '\U{3000}' || c == '\U{FEFF}'
  }

  function TrimStart(s: string): (t: string)
    ensures t == [] || !IsJsSpace(t[0])
    ensures exists k :: 0 <= k <= |s| && t == s[k..]
  {
    if s != [] && IsJsSpace(s[0]) then
      var t := TrimStart(s[1..]);
      assert forall k :: 0 <= k <= |s| - 1 ==> s[1..][k..] == s[k + 1..];
      t
    else
      assert s == s[0..];
      s
  }

  /** JavaScript's `parseInt(s)` without a radix: leading white space, an
      optional sign, an optional "0x"/"0X" for hexadecimal, then the longest
      run of digits; `None` stands for NaN. */
  function JsParseInt(s: string): Option<int>
  {
    var t := TrimStart(s);
    var negative := t != [] && t[0] == '-';
    var u := if t != [] && (t[0] == '-' || t[0] == '+') then t[1..] else t;
    var hex := |u| >= 2 && u[0] == '0' && (u[1] == 'x' || u[1] == 'X');
    var radix := if hex then 16 else 10;
    var z := RadixPrefix(if hex then u[2..] else u, radix);
    if z == [] then None
    else
      var v: int := RadixValue(z, radix);
      Some(if negative then -v else v)
  }

  /** `parseInt` reads back the decimal text of every integer. */
  lemma ParseIntOfDecimal(n: int)
    ensures JsParseInt(IntToDecimal(n)) == Some(n)
  {
    var m: nat := if n < 0 then -n else n;
    var d := NatToDecimal(m);
    assert IsRadixDigit(d[0], 10);
    RadixPrefixOfDigits(d, 10);
    NatToDecimalValue(m);
    var text := IntToDecimal(n);
    assert !IsJsSpace(text[0]);
    assert TrimStart(text) == text;
    if n < 0 {
      assert text[1..] == d;
    }
  }
}
