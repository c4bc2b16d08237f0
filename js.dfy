/** The few pieces of JavaScript's built-in semantics the controller relies on:
    truthiness of a query-string value, `a || b`, and `parseInt(s, 10)`.
    Strings are sequences of characters; JavaScript counts UTF-16 code units,
    which agree with characters everywhere in the Basic Multilingual Plane. */
module Js {
  import opened Wrappers

  /** A query-string value is truthy when it is present and not the empty string:
      the only falsy values it can take are `undefined` and `''`. */
  function Truthy(v: Option<string>): (b: bool)
    ensures !b <==> v == None || v == Some("")
  {
    v.Some? && v.value != ""
  }

  /** `v || fallback` for a query-string value: `v` itself when it is truthy,
      otherwise the fallback; the result is truthy when either one is. */
  function Or(v: Option<string>, fallback: string): (r: string)
    ensures Truthy(v) ==> r == v.value
    ensures !Truthy(v) ==> r == fallback
    ensures r != "" <==> Truthy(v) || fallback != ""
  {
    if Truthy(v) then v.value else fallback
  }

  /** The characters ECMAScript's TrimString removes: WhiteSpace (including every
      Unicode space separator) and LineTerminator. */
  predicate IsWhiteSpace(c: char)
  {
    var n := c as int;
    n == 0x09 || n == 0x0A || n == 0x0B || n == 0x0C || n == 0x0D || n == 0x20 ||
    n == 0xA0 || n == 0x1680 || (0x2000 <= n <= 0x200A) || n == 0x2028 ||
    n == 0x2029 || n == 0x202F || n == 0x205F || n == 0x3000 || n == 0xFEFF
  }

  predicate IsDigit(c: char)
  {
    '0' <= c <= '9'
  }

  predicate AllDigits(s: string)
  {
    forall i :: 0 <= i < |s| ==> IsDigit(s[i])
  }

  /** The value of one digit character: the number whose decimal rendering it is. */
  function DigitValue(c: char): (d: nat)
    requires IsDigit(c)
    ensures d < 10 && Decimal(d) == [c]
  {
    (c as int) - ('0' as int)
  }

  /** Leading white space removed: what is left is a suffix of `s` that does not
      start with white space, and everything cut off was white space. */
  function TrimStart(s: string): (r: string)
    ensures |r| <= |s| && r == s[|s| - |r|..]
    ensures r == [] || !IsWhiteSpace(r[0])
    ensures forall i :: 0 <= i < |s| - |r| ==> IsWhiteSpace(s[i])
  {
    if s != [] && IsWhiteSpace(s[0]) then TrimStart(s[1..]) else s
  }

  /** The longest prefix of `s` made of decimal digits. */
  function LeadingDigits(s: string): (r: string)
    ensures |r| <= |s| && r == s[..|r|]
    ensures AllDigits(r)
    ensures |r| == |s| || !IsDigit(s[|r|])
  {
    if s != [] && IsDigit(s[0]) then [s[0]] + LeadingDigits(s[1..]) else []
  }

  /** The value of a digit string, most significant digit first. */
  function DigitsValue(ds: string): nat
    requires AllDigits(ds)
  {
    if ds == [] then 0 else DigitsValue(ds[..|ds| - 1]) * 10 + DigitValue(ds[|ds| - 1])
  }

  predicate HasSign(t: string)
  {
    t != [] && (t[0] == '-' || t[0] == '+')
  }

  /** `parseInt(s, 10)`: skip leading white space, read an optional sign, then the
      longest run of decimal digits; no digit at all gives NaN, written `None`. */
  function ParseInt(s: string): Option<int>
  {
    ParseSigned(TrimStart(s))
  }

  /** What follows the optional sign. */
  function Unsigned(t: string): string
  {
    if HasSign(t) then t[1..] else t
  }

  /** The part of `parseInt` after the white space. */
  function ParseSigned(t: string): Option<int>
  {
    var digits := LeadingDigits(Unsigned(t));
    if digits == [] then None
    else if t[0] == '-' then Some(-(DigitsValue(digits) as int))
    else Some(DigitsValue(digits))
  }

  /** The decimal rendering of a natural number, as `String(n)` writes it. */
  function Decimal(n: nat): (r: string)
    ensures |r| >= 1 && AllDigits(r)
    ensures n >= 10 ==> r[0] != '0'
  {
    if n < 10 then ['0' + n as char] else Decimal(n / 10) + ['0' + (n % 10) as char]
  }

  lemma {:induction false} DecimalValue(n: nat)
    ensures DigitsValue(Decimal(n)) == n
  {
    if n >= 10 {
      var d := Decimal(n);
      assert d[..|d| - 1] == Decimal(n / 10);
      DecimalValue(n / 10);
    }
  }

  /** Reading digits stops exactly where the digits stop. */
  lemma {:induction false} LeadingDigitsOfDigits(a: string, rest: string)
    requires AllDigits(a)
    requires rest == [] || !IsDigit(rest[0])
    ensures LeadingDigits(a + rest) == a
  {
    if a != [] {
      assert (a + rest)[1..] == a[1..] + rest;
      LeadingDigitsOfDigits(a[1..], rest);
    } else {
      assert a + rest == rest;
    }
  }

  /** Nothing to trim before a character that is not white space. */
  lemma TrimStartNoSpace(s: string)
    requires s != [] && !IsWhiteSpace(s[0])
    ensures TrimStart(s) == s
  {
  }

  /** `parseInt` reads back the decimal rendering of a number, whatever non-digit
      text follows it. */
  lemma ParseIntOfDecimal(n: nat, rest: string)
    requires rest == [] || !IsDigit(rest[0])
    ensures ParseInt(Decimal(n) + rest) == Some(n)
  {
    var s := Decimal(n) + rest;
    ParseSignedOfDecimal(n, rest, s);
    ParseIntNoSpace(s);
  }

  lemma ParseSignedOfDecimal(n: nat, rest: string, s: string)
    requires rest == [] || !IsDigit(rest[0])
    requires s == Decimal(n) + rest
    ensures s != [] && IsDigit(s[0])
    ensures ParseSigned(s) == Some(n)
  {
    assert s[0] == Decimal(n)[0];
    LeadingDigitsOfDigits(Decimal(n), rest);
    DecimalValue(n);
  }

  /** ... and the negated number after a minus sign. */
  lemma ParseIntOfNegative(n: nat, rest: string)
    requires rest == [] || !IsDigit(rest[0])
    ensures ParseInt("-" + Decimal(n) + rest) == Some(-(n as int))
  {
    var s := "-" + Decimal(n) + rest;
    ParseSignedOfNegative(n, rest, s);
    ParseIntNoSpace(s);
  }

  /** Without leading white space, `parseInt` starts at the sign. */
  lemma ParseIntNoSpace(s: string)
    requires s != [] && !IsWhiteSpace(s[0])
    ensures ParseInt(s) == ParseSigned(s)
  {
    TrimStartNoSpace(s);
  }

  lemma ParseSignedOfNegative(n: nat, rest: string, s: string)
    requires rest == [] || !IsDigit(rest[0])
    requires s == "-" + Decimal(n) + rest
    ensures s[0] == '-'
    ensures ParseSigned(s) == Some(-(n as int))
  {
    assert s[0] == '-' && s[1..] == Decimal(n) + rest;
    LeadingDigitsOfDigits(Decimal(n), rest);
    DecimalValue(n);
  }

  /** NaN comes out exactly when no digit follows the white space and the sign. */
  lemma ParseIntNaN(s: string)
    ensures ParseInt(s).None? <==>
      var t := TrimStart(s);
      var u := if HasSign(t) then t[1..] else t;
      u == [] || !IsDigit(u[0])
  {
    var t := TrimStart(s);
    var u := if HasSign(t) then t[1..] else t;
    assert ParseInt(s) == ParseSigned(t);
    assert LeadingDigits(u) == [] <==> u == [] || !IsDigit(u[0]);
  }
}
