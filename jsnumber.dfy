/**
 * JavaScript's global `parseInt` (no radix argument) and `parseFloat` on strings, the
 * `parsed || fallback` idiom both clients use to default a field, `Math.round`, and the two
 * ways the desktop client prints numbers: `toFixed(1)` and the default rendering of a value
 * that is a whole count of tenths.
 * NaN is `None`; a number is an exact `int` or `real` (binary floating point is not modelled).
 */
module JsNumber {
  import opened Wrappers
  import opened Text

  /** A digit of the given radix (10, or 16 after a "0x" prefix). */
  predicate IsRadixDigit(c: char, radix: nat)
  {
    if radix == 16 then IsDigit(c) || ('a' <= c <= 'f') || ('A' <= c <= 'F') else IsDigit(c)
  }

  function RadixDigitValue(c: char, radix: nat): (d: nat)
    requires IsRadixDigit(c, radix)
    ensures d < (if radix == 16 then 16 else 10)
  {
    if IsDigit(c) then DigitValue(c)
    else if 'a' <= c <= 'f' then c as int - 'a' as int + 10
    else c as int - 'A' as int + 10
  }

  /** The longest prefix of `s` made of digits of `radix`. */
  function DigitPrefix(s: string, radix: nat): (p: string)
    ensures |p| <= |s| && p == s[..|p|]
    ensures forall i :: 0 <= i < |p| ==> IsRadixDigit(p[i], radix)
    ensures |p| < |s| ==> !IsRadixDigit(s[|p|], radix)
    decreases |s|
  {
    if s != [] && IsRadixDigit(s[0], radix) then [s[0]] + DigitPrefix(s[1..], radix) else []
  }

  /** The number denoted by a digit string in the given radix. */
  function RadixValue(ds: string, radix: nat): nat
    requires forall i :: 0 <= i < |ds| ==> IsRadixDigit(ds[i], radix)
    decreases |ds|
  {
    if ds == [] then 0
    else RadixValue(ds[..|ds| - 1], radix) * (if radix == 16 then 16 else 10)
         + RadixDigitValue(ds[|ds| - 1], radix)
  }

  /** In radix 10 the digit value agrees with the decimal reading of Text. */
  lemma {:induction false} RadixValueDecimal(ds: string)
    requires AllDigits(ds)
    ensures RadixValue(ds, 10) == DigitsValue(ds)
    decreases |ds|
  {
    if ds != [] {
      RadixValueDecimal(ds[..|ds| - 1]);
    }
  }

  /** A string of decimal digits is its own digit prefix. */
  lemma {:induction false} DigitPrefixOfDigits(s: string, radix: nat)
    requires AllDigits(s)
    ensures DigitPrefix(s, radix) == s
    decreases |s|
  {
    if s != [] {
      DigitPrefixOfDigits(s[1..], radix);
    }
  }

  /** Splits off a leading '+' or '-': whether the value is negated, and the rest of the text. */
  function SplitSign(t: string): (bool, string)
  {
    if t != [] && (t[0] == '-' || t[0] == '+') then (t[0] == '-', t[1..]) else (false, t)
  }

  /**
   * `parseInt(s)`: skip leading whitespace, an optional sign, then the unsigned part; no digit
   * at all gives NaN.
   */
  function ParseInt(s: string): (r: Option<int>)
    ensures r.Some? ==> exists i :: 0 <= i < |s| && IsDigit(s[i])
  {
    TrimStartFacts(s);
    var (neg, u) := SplitSign(TrimStart(s));
    match ParseUnsignedInt(u)
    case None => None
    case Some(m) =>
      assert s[|s| - |u|] == u[0];
      Some(if neg then -(m as int) else m as int)
  }

  /** The unsigned part of `parseInt`: a "0x"/"0X" prefix switches to radix 16, then the longest run of digits. */
  function ParseUnsignedInt(u: string): (r: Option<nat>)
    ensures r.Some? ==> u != [] && IsDigit(u[0])
  {
    var hex := |u| >= 2 && u[0] == '0' && (u[1] == 'x' || u[1] == 'X');
    var radix := if hex then 16 else 10;
    var ds := DigitPrefix(if hex then u[2..] else u, radix);
    if ds == [] then None else Some(RadixValue(ds, radix))
  }

  /** The value of fraction digits after the point: "25" is 0.25. */
  function FractionValue(frac: string): real
    requires AllDigits(frac)
    decreases |frac|
  {
    if frac == [] then 0.0 else (DigitValue(frac[0]) as real + FractionValue(frac[1..])) / 10.0
  }

  /** `x` times ten to the (possibly negative) power `e`. */
  function Scale10(x: real, e: int): real
    decreases if e >= 0 then e else -e
  {
    if e == 0 then x else if e > 0 then Scale10(x, e - 1) * 10.0 else Scale10(x, e + 1) / 10.0
  }

  /** The optional exponent part after a mantissa: `e`/`E`, an optional sign, at least one digit. */
  function ExponentOf(t: string): int
  {
    if t != [] && (t[0] == 'e' || t[0] == 'E') then
      var (neg, u) := SplitSign(t[1..]);
      var ds := DigitPrefix(u, 10);
      if ds == [] then 0 else if neg then -(RadixValue(ds, 10) as int) else RadixValue(ds, 10)
    else 0
  }

  /**
   * `parseFloat(s)`: skip leading whitespace, then the longest prefix that is a decimal literal
   * (optional sign, digits, optional '.' and fraction digits, optional exponent). Text with no
   * digit before the exponent gives NaN.
   */
  function ParseFloat(s: string): (r: Option<real>)
    ensures r.Some? ==> exists i :: 0 <= i < |s| && IsDigit(s[i])
  {
    TrimStartFacts(s);
    var (neg, u) := SplitSign(TrimStart(s));
    match ParseUnsignedFloat(u)
    case None => None
    case Some(m) =>
      var i :| 0 <= i < |u| && IsDigit(u[i]);
      assert s[|s| - |u| + i] == u[i];
      Some(if neg then -m else m)
  }

  /** The unsigned part of `parseFloat`: digits, optional '.' and fraction digits, optional exponent. */
  function ParseUnsignedFloat(u: string): (r: Option<real>)
    ensures r.Some? ==> exists i :: 0 <= i < |u| && IsDigit(u[i])
  {
    var whole := DigitPrefix(u, 10);
    var afterWhole := u[|whole|..];
    var hasPoint := afterWhole != [] && afterWhole[0] == '.';
    var frac := if hasPoint then DigitPrefix(afterWhole[1..], 10) else [];
    var rest := if hasPoint then afterWhole[1 + |frac|..] else afterWhole;
    if whole == [] && frac == [] then None
    else
      assert whole != [] ==> IsDigit(u[0]);
      assert whole == [] ==> IsDigit(u[1]);
      Some(Scale10(RadixValue(whole, 10) as real + FractionValue(frac), ExponentOf(rest)))
  }

  /** `parseInt(s) || fallback`: NaN and 0 are falsy and give the fallback. */
  function IntOr(parsed: Option<int>, fallback: int): (r: int)
    ensures fallback != 0 ==> r != 0
    ensures parsed.Some? && parsed.value != 0 ==> r == parsed.value
    ensures (parsed.None? || parsed.value == 0) ==> r == fallback
  {
    if parsed.None? || parsed.value == 0 then fallback else parsed.value
  }

  /** `parseFloat(s) || fallback`: NaN and 0 are falsy and give the fallback. */
  function RealOr(parsed: Option<real>, fallback: real): (r: real)
    ensures fallback != 0.0 ==> r != 0.0
    ensures parsed.Some? && parsed.value != 0.0 ==> r == parsed.value
    ensures (parsed.None? || parsed.value == 0.0) ==> r == fallback
  {
    if parsed.None? || parsed.value == 0.0 then fallback else parsed.value
  }

  /** `Math.round`: the nearest integer, halves rounded towards +∞. */
  function JsRound(x: real): (r: int)
    ensures r as real - 0.5 <= x < r as real + 0.5
  {
    (x + 0.5).Floor
  }

  /** `Math.round` is monotone and returns integers unchanged. */
  lemma JsRoundMonotone(x: real, y: real)
    requires x <= y
    ensures JsRound(x) <= JsRound(y)
  {
  }

  lemma JsRoundOfInt(n: int)
    ensures JsRound(n as real) == n
  {
  }

  /** `x.toFixed(1)`: the sign, then |x| rounded to tenths with halves going up, always one decimal. */
  function ToFixed1(x: real): (s: string)
    ensures |s| >= 3 && s[|s| - 2] == '.' && IsDigit(s[|s| - 1])
    ensures s[0] == '-' <==> x < 0.0
  {
    var a := if x < 0.0 then -x else x;
    var n := (a * 10.0 + 0.5).Floor;
    assert n >= 0;
    var digits := NatToString(n / 10) + "." + [DigitChar(n % 10)];
    if x < 0.0 then "-" + digits else digits
  }

  /** The digits of `a / 10`: the whole part, then '.' and the tenths digit unless it is 0. */
  function TenthsDigits(a: nat): (s: string)
    ensures s != [] && IsDigit(s[0])
  {
    NatToString(a / 10) + (if a % 10 == 0 then "" else "." + [DigitChar(a % 10)])
  }

  /**
   * How a template literal prints a number that is a whole count of tenths `k / 10`: no
   * decimal part when it is whole, otherwise exactly one decimal ("7", "7.2", "-0.5").
   */
  function TenthsToString(k: int): (s: string)
    ensures |s| >= 1
    ensures s[0] == '-' <==> k < 0
  {
    if k < 0 then "-" + TenthsDigits(-k) else TenthsDigits(k)
  }

  /** The digit prefix of digits followed by a non-digit is exactly those digits. */
  lemma {:induction false} DigitPrefixStops(ds: string, rest: string)
    requires AllDigits(ds)
    requires rest == [] || !IsDigit(rest[0])
    ensures DigitPrefix(ds + rest, 10) == ds
    decreases |ds|
  {
    if ds == [] {
      assert ds + rest == rest;
    } else {
      assert (ds + rest)[1..] == ds[1..] + rest;
      DigitPrefixStops(ds[1..], rest);
    }
  }

  /** The value of a whole part `q` followed by nothing or by '.' and one digit. */
  function DecimalValue(q: nat, frac: string): real
    requires frac == [] || (|frac| == 2 && frac[0] == '.' && IsDigit(frac[1]))
  {
    q as real + (if frac == [] then 0.0 else DigitValue(frac[1]) as real / 10.0)
  }

  /** A whole part `q`, then nothing or one decimal digit, reads as `q` plus that many tenths. */
  lemma UnsignedDecimal(q: nat, frac: string)
    requires frac == [] || (|frac| == 2 && frac[0] == '.' && IsDigit(frac[1]))
    ensures ParseUnsignedFloat(NatToString(q) + frac) == Some(DecimalValue(q, frac))
  {
    var ds := NatToString(q);
    var u := ds + frac;
    DigitPrefixStops(ds, frac);
    RadixValueDecimal(ds);
    DigitsValueOfNatToString(q);
    assert u[|ds|..] == frac;
    assert ExponentOf([]) == 0;
    if frac != [] {
      var f1 := frac[1..];
      assert f1 == [frac[1]];
      DigitPrefixOfDigits(f1, 10);
      assert FractionValue(f1) == DigitValue(frac[1]) as real / 10.0 by {
        assert f1[1..] == [];
      }
      assert frac[1 + |f1|..] == [];
    }
  }

  /** Text that starts with a digit is read by the unsigned part alone. */
  lemma UnsignedParse(u: string, m: real)
    requires u != [] && IsDigit(u[0])
    requires ParseUnsignedFloat(u) == Some(m)
    ensures ParseFloat(u) == Some(m)
  {
    TrimStartNoBlank(u);
    assert SplitSign(u) == (false, u);
  }

  /** A minus sign in front of text that starts with a digit negates its reading. */
  lemma NegatedParse(u: string, m: real)
    requires u != [] && IsDigit(u[0])
    requires ParseUnsignedFloat(u) == Some(m)
    ensures ParseFloat("-" + u) == Some(-m)
  {
    var s := "-" + u;
    TrimStartNoBlank(s);
    assert s[1..] == u;
    assert SplitSign(s) == (true, u);
  }

  /** A decimal digit string is read by `parseInt` as its decimal value. */
  lemma UnsignedIntOfDigits(m: nat)
    ensures ParseUnsignedInt(NatToString(m)) == Some(m)
  {
    var digits := NatToString(m);
    DigitPrefixOfDigits(digits, 10);
    RadixValueDecimal(digits);
    DigitsValueOfNatToString(m);
  }

  /** Rendered integers parse back to themselves with `parseInt`. */
  lemma IntRoundTrip(n: int)
    ensures ParseInt(IntToString(n)) == Some(n)
  {
    var s := IntToString(n);
    var m: nat := if n < 0 then -n else n;
    var digits := NatToString(m);
    UnsignedIntOfDigits(m);
    if n < 0 {
      assert s == "-" + digits;
      TrimStartNoBlank(s);
      assert s[1..] == digits;
      assert SplitSign(s) == (true, digits);
    } else {
      assert s == digits;
      TrimStartNoBlank(s);
      assert SplitSign(s) == (false, digits);
    }
  }

  /** Rendered naturals parse back to themselves with `parseFloat`. */
  lemma NatParsesAsFloat(n: nat)
    ensures ParseFloat(NatToString(n)) == Some(n as real)
  {
    var s := NatToString(n);
    UnsignedDecimal(n, []);
    assert s + [] == s;
    UnsignedParse(s, n as real);
  }

  /** Text that starts with a letter (such as "no") is NaN for both parsers. */
  lemma LetterIsNaN(s: string)
    requires s != [] && 'g' <= s[0] <= 'z'
    ensures ParseInt(s) == None && ParseFloat(s) == None
  {
    TrimStartNoBlank(s);
    assert SplitSign(s) == (false, s);
    assert DigitPrefix(s, 10) == [];
    assert ParseUnsignedInt(s) == None;
    assert ParseUnsignedFloat(s) == None;
  }
}
