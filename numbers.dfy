/** `parseInt(s)` with no radix, as ECMAScript defines it: skip leading
    white space, take an optional sign, switch to base 16 after `0x`/`0X`,
    then read the longest run of digits; no digits at all gives NaN. */
module Numbers {
  import opened Wrappers

  /** The result of `parseInt`. A negative zero is the integer 0 here. */
  datatype Parsed = NaN | Int(value: int)

  /** ECMAScript's white space and line terminators. */
  predicate IsStrWhiteSpace(c: char) {
    var n := c as int;
    n == 0x09 || n == 0x0A || n == 0x0B || n == 0x0C || n == 0x0D || n == 0x20 ||
    n == 0xA0 || n == 0x1680 || (0x2000 <= n <= 0x200A) || n == 0x2028 || n == 0x2029 ||
    n == 0x202F || n == 0x205F || n == 0x3000 || n == 0xFEFF
  }

  function TrimStart(s: string): (r: string)
    ensures |r| <= |s| && r == s[|s| - |r|..]
    ensures forall i :: 0 <= i < |s| - |r| ==> IsStrWhiteSpace(s[i])
    ensures r != [] ==> !IsStrWhiteSpace(r[0])
  {
    if s != [] && IsStrWhiteSpace(s[0]) then TrimStart(s[1..]) else s
  }

  /** The value of `c` as a digit in base `radix`, if it is one. */
  function DigitValue(c: char, radix: nat): (r: Option<nat>)
    ensures r.Some? ==> r.value < radix
  {
    var v :=
      if '0' <= c <= '9' then c as int - '0' as int
      else if 'a' <= c <= 'z' then c as int - 'a' as int + 10
      else if 'A' <= c <= 'Z' then c as int - 'A' as int + 10
      else 36;
    if v < radix then Some(v) else None
  }

  predicate AllDigits(s: string, radix: nat) {
    forall i :: 0 <= i < |s| ==> DigitValue(s[i], radix).Some?
  }

  /** Length of the longest prefix of `s` made of digits. */
  function DigitRun(s: string, radix: nat): (n: nat)
    ensures n <= |s| && AllDigits(s[..n], radix)
    ensures n < |s| ==> DigitValue(s[n], radix).None?
  {
    if s != [] && DigitValue(s[0], radix).Some? then
      var n := 1 + DigitRun(s[1..], radix);
      assert forall i :: 1 <= i < n ==> s[..n][i] == s[1..][..n - 1][i - 1];
      n
    else 0
  }

  /** The number a run of digits denotes, most significant digit first. */
  function DigitsValue(z: string, radix: nat): nat
    requires AllDigits(z, radix)
  {
    if z == [] then 0
    else DigitsValue(z[..|z| - 1], radix) * radix + DigitValue(z[|z| - 1], radix).value
  }

  /** The digits after the sign: base 16 after a `0x`/`0X` prefix, base 10
      otherwise; NaN when no digit follows. */
  function ParseUnsigned(u: string): (r: Parsed)
    ensures r.Int? ==> r.value >= 0
  {
    var hex := |u| >= 2 && u[0] == '0' && (u[1] == 'x' || u[1] == 'X');
    var radix := if hex then 16 else 10;
    var v := if hex then u[2..] else u;
    var n := DigitRun(v, radix);
    if n == 0 then NaN else Int(DigitsValue(v[..n], radix))
  }

  function Negate(p: Parsed): Parsed {
    if p.NaN? then NaN else Int(-p.value)
  }

  /** `parseInt(s)`: a number only when the first character after the
      white space is a sign or a decimal digit, and never negative without
      a minus sign there. */
  function ParseInt(s: string): (r: Parsed)
    ensures r.Int? ==> TrimStart(s) != [] && (TrimStart(s)[0] in "+-" || DigitValue(TrimStart(s)[0], 10).Some?)
    ensures r.Int? && r.value < 0 ==> TrimStart(s)[0] == '-'
  {
    var t := TrimStart(s);
    if t != [] && t[0] == '-' then Negate(ParseUnsigned(t[1..]))
    else if t != [] && t[0] == '+' then ParseUnsigned(t[1..])
    else ParseUnsigned(t)
  }

  // ---------------------------------------------------------------------
  // Decimal rendering, the partner of parseInt

  function DigitChar(d: nat): char
    requires d < 10
  {
    ('0' as int + d) as char
  }

  /** The decimal numeral of `n`, without leading zeros. */
  function Decimal(n: nat): (r: string)
    ensures r != [] && AllDigits(r, 10)
  {
    if n < 10 then [DigitChar(n)] else Decimal(n / 10) + [DigitChar(n % 10)]
  }

  lemma {:induction false} DecimalValue(n: nat)
    ensures DigitsValue(Decimal(n), 10) == n
  {
    if n >= 10 {
      var d := Decimal(n);
      assert d[..|d| - 1] == Decimal(n / 10);
      DecimalValue(n / 10);
    }
  }

  /** The digit run of a numeral followed by a non-digit stops at the numeral. */
  lemma {:induction false} DigitRunStops(z: string, rest: string, radix: nat)
    requires AllDigits(z, radix)
    requires rest == [] || DigitValue(rest[0], radix).None?
    ensures DigitRun(z + rest, radix) == |z|
  {
    if z != [] {
      assert (z + rest)[1..] == z[1..] + rest;
      DigitRunStops(z[1..], rest, radix);
    }
  }

  /** A decimal digit is an ASCII digit, hence neither white space nor a sign. */
  lemma DecimalDigit(c: char)
    requires DigitValue(c, 10).Some?
    ensures '0' <= c <= '9' && !IsStrWhiteSpace(c)
  {
  }

  /** The unsigned reader reads back a decimal numeral, and stops at the
      first character after it that is not a digit, unless that character
      turns the numeral `0` into a `0x` prefix. */
  lemma ParseUnsignedDecimal(n: nat, rest: string)
    requires rest == [] || DigitValue(rest[0], 10).None?
    requires !(n == 0 && rest != [] && (rest[0] == 'x' || rest[0] == 'X'))
    ensures ParseUnsigned(Decimal(n) + rest) == Int(n)
  {
    var d := Decimal(n);
    var s := d + rest;
    if |d| >= 2 {
      assert s[1] == d[1];
    } else if rest != [] {
      assert s[1] == rest[0];
    }
    DigitRunStops(d, rest, 10);
    assert s[..|d|] == d;
    DecimalValue(n);
  }

  /** `parseInt` reads back a decimal numeral followed by text that does
      not continue it. */
  lemma ParseDecimalPrefix(n: nat, rest: string)
    requires rest == [] || DigitValue(rest[0], 10).None?
    requires !(n == 0 && rest != [] && (rest[0] == 'x' || rest[0] == 'X'))
    ensures ParseInt(Decimal(n) + rest) == Int(n)
  {
    var s := Decimal(n) + rest;
    assert s[0] == Decimal(n)[0];
    DecimalDigit(s[0]);
    assert TrimStart(s) == s;
    ParseUnsignedDecimal(n, rest);
  }

  /** `parseInt` reads back every decimal numeral. */
  lemma ParseDecimal(n: nat)
    ensures ParseInt(Decimal(n)) == Int(n)
  {
    ParseDecimalPrefix(n, []);
    assert Decimal(n) + [] == Decimal(n);
  }

  /** A leading minus sign negates the numeral. */
  lemma ParseNegativeDecimal(n: nat)
    ensures ParseInt("-" + Decimal(n)) == Int(-(n as int))
  {
    var s := "-" + Decimal(n);
    assert s[0] == '-' && !IsStrWhiteSpace('-');
    assert TrimStart(s) == s;
    assert s[1..] == Decimal(n) + [];
    ParseUnsignedDecimal(n, []);
    assert ParseInt(s) == Negate(ParseUnsigned(s[1..]));
  }

  /** Text that starts (after white space) with neither a sign nor a digit
      parses to NaN. */
  lemma ParseNonNumeric(s: string)
    requires TrimStart(s) == [] || (TrimStart(s)[0] != '-' && TrimStart(s)[0] != '+' && DigitValue(TrimStart(s)[0], 10).None?)
    ensures ParseInt(s) == NaN
  {
  }
}
