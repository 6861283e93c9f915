/**
 * How the numbers the desktop client prints read back with `parseFloat`: `toFixed(1)` to within
 * half a tenth, a whole count of tenths exactly.
 */
module ReadBack {
  import opened Wrappers
  import opened Text
  import opened JsNumber

  /** The digits and the point of `toFixed(1)` for a non-negative value. */
  lemma ToFixed1Digits(x: real, n: nat)
    requires n == ((if x < 0.0 then -x else x) * 10.0 + 0.5).Floor
    ensures var digits := NatToString(n / 10) + ("." + [DigitChar(n % 10)]);
      ToFixed1(x) == if x < 0.0 then "-" + digits else digits
  {
    assert NatToString(n / 10) + "." + [DigitChar(n % 10)] == NatToString(n / 10) + ("." + [DigitChar(n % 10)]);
  }

  /** `toFixed(1)` reads back with `parseFloat` as a value within 0.05 of the original. */
  lemma ToFixed1ParsesBack(x: real)
    ensures ParseFloat(ToFixed1(x)).Some?
    ensures -0.05 <= ParseFloat(ToFixed1(x)).value - x <= 0.05
  {
    var a := if x < 0.0 then -x else x;
    var n := (a * 10.0 + 0.5).Floor;
    assert n >= 0;
    var frac := "." + [DigitChar(n % 10)];
    var digits := NatToString(n / 10) + frac;
    ToFixed1Digits(x, n);
    UnsignedDecimal(n / 10, frac);
    var m := DecimalValue(n / 10, frac);
    assert m == n as real / 10.0 by {
      assert DigitValue(frac[1]) == n % 10;
      assert (n / 10) as real + (n % 10) as real / 10.0 == n as real / 10.0;
    }
    assert -0.05 <= m - a <= 0.05;
    if x < 0.0 {
      NegatedParse(digits, m);
    } else {
      UnsignedParse(digits, m);
    }
  }

  /** The unsigned digits of a count of tenths read back as that many tenths. */
  lemma TenthsDigitsParse(a: nat)
    ensures ParseUnsignedFloat(TenthsDigits(a)) == Some(a as real / 10.0)
  {
    var frac := if a % 10 == 0 then "" else "." + [DigitChar(a % 10)];
    assert TenthsDigits(a) == NatToString(a / 10) + frac;
    UnsignedDecimal(a / 10, frac);
    if frac != [] {
      assert DigitValue(frac[1]) == a % 10;
    }
    assert (a / 10) as real + (a % 10) as real / 10.0 == a as real / 10.0;
  }

  /** '-' followed by the digits of `a` tenths reads back as minus `a` tenths. */
  lemma NegatedTenths(a: nat, s: string)
    requires s == "-" + TenthsDigits(a)
    ensures ParseFloat(s) == Some(-(a as real / 10.0))
  {
    TenthsDigitsParse(a);
    NegatedParse(TenthsDigits(a), a as real / 10.0);
  }

  /** The digits of `a` tenths alone read back as `a` tenths. */
  lemma PlainTenths(a: nat, s: string)
    requires s == TenthsDigits(a)
    ensures ParseFloat(s) == Some(a as real / 10.0)
  {
    TenthsDigitsParse(a);
    UnsignedParse(TenthsDigits(a), a as real / 10.0);
  }

  /** A count of tenths printed by the template literal reads back as exactly `k / 10`. */
  lemma TenthsParseBack(k: int)
    ensures ParseFloat(TenthsToString(k)) == Some(k as real / 10.0)
  {
    if k < 0 {
      var a: nat := -k;
      NegatedTenths(a, TenthsToString(k));
    } else {
      PlainTenths(k, TenthsToString(k));
    }
  }
}
