/**
 * The discount badge: the percentage by which the minimum price undercuts
 * the compare-at price, rounded to a whole number and rendered as
 * `Number.prototype.toFixed(0)` renders it. Prices are exact reals.
 */
module HelperFunctions {

  import opened Products

  /** Rounding to the nearest integer with ties going up, which is what
      `toFixed(0)` does to a non-negative value. */
  function RoundHalfUp(x: real): (n: nat)
    requires x >= 0.0
    ensures n as real - 0.5 <= x < n as real + 0.5
  {
    (x + 0.5).Floor
  }

  function Magnitude(x: real): (m: real)
    ensures m >= 0.0
  {
    if x < 0.0 then -x else x
  }

  /** How far the integer k lies from x. */
  function Distance(x: real, k: int): real
  {
    if x < k as real then k as real - x else x - k as real
  }

  /** The rounded value is at least as close to x as any other integer. */
  lemma RoundHalfUpIsNearest(x: real, k: int)
    requires x >= 0.0
    ensures Distance(x, RoundHalfUp(x)) <= Distance(x, k)
  {
    var n := RoundHalfUp(x);
    if k < n {
      assert k as real <= n as real - 1.0;
    } else if k > n {
      assert k as real >= n as real + 1.0;
    }
  }

  /** `x.toFixed(0)` for a finite x below 10^21 in magnitude: a negative value
      is rendered as "-" followed by its rounded magnitude (so values in
      (-0.5, 0) give "-0"). */
  function ToFixed0(x: real): (r: string)
    ensures 1 <= |r|
    ensures r[0] == '-' <==> x < 0.0
    ensures var digits := if x < 0.0 then r[1..] else r;
            && 1 <= |digits| && AllDigits(digits) && ParseDecimal(digits) == RoundHalfUp(Magnitude(x))
            && (digits[0] == '0' ==> RoundHalfUp(Magnitude(x)) == 0 && |digits| == 1)
  {
    ParseDecimalString(RoundHalfUp(Magnitude(x)));
    assert x < 0.0 ==> ("-" + DecimalString(RoundHalfUp(-x)))[1..] == DecimalString(RoundHalfUp(-x));
    if x < 0.0 then "-" + DecimalString(RoundHalfUp(-x)) else DecimalString(RoundHalfUp(x))
  }

  /** ((compare - min) / compare) * 100 over exact numbers. */
  function ExactPercentageOff(minPrice: real, comparePrice: real): real
    requires comparePrice != 0.0
  {
    (comparePrice - minPrice) / comparePrice * 100.0
  }

  /** `calculatePercentageOff(minPrice, comparePrice)`. A zero compare price
      divides by zero, which yields NaN or an infinity, and `toFixed` renders
      those by name. */
  function CalculatePercentageOff(minPrice: real, comparePrice: real): (r: string)
    ensures comparePrice == 0.0 ==>
              && (r == "NaN" <==> minPrice == 0.0)
              && (r == "-Infinity" <==> minPrice > 0.0)
              && (r == "Infinity" <==> minPrice < 0.0)
    ensures comparePrice != 0.0 ==> 1 <= |r| && (r[0] == '-' <==> ExactPercentageOff(minPrice, comparePrice) < 0.0)
    ensures comparePrice != 0.0 ==>
              var p := ExactPercentageOff(minPrice, comparePrice);
              var digits := if p < 0.0 then r[1..] else r;
              && 1 <= |digits| && AllDigits(digits) && ParseDecimal(digits) == RoundHalfUp(Magnitude(p))
              && (digits[0] == '0' ==> RoundHalfUp(Magnitude(p)) == 0 && |digits| == 1)
  {
    if comparePrice == 0.0 then
      if minPrice == 0.0 then "NaN" else if minPrice > 0.0 then "-Infinity" else "Infinity"
    else ToFixed0(ExactPercentageOff(minPrice, comparePrice))
  }

  /** The two documented examples. */
  lemma DocumentedExamples()
    ensures CalculatePercentageOff(80.0, 100.0) == "20"
    ensures CalculatePercentageOff(50.0, 100.0) == "50"
  {
  }

  /** Equal prices mean no discount. */
  lemma EqualPricesGiveZero(price: real)
    requires price != 0.0
    ensures CalculatePercentageOff(price, price) == "0"
  {
  }

  /** A zero minimum price is a full discount. */
  lemma ZeroMinimumGivesHundred(comparePrice: real)
    requires comparePrice != 0.0
    ensures CalculatePercentageOff(0.0, comparePrice) == "100"
  {
    assert ExactPercentageOff(0.0, comparePrice) == 100.0;
    assert RoundHalfUp(100.0) == 100;
    assert DecimalString(100) == DecimalString(10) + [DigitChar(0)];
    assert DecimalString(10) == DecimalString(1) + [DigitChar(0)];
  }

  /** Whenever the minimum price lies between zero and a positive compare
      price, the badge is the nearest whole number to the exact percentage,
      and it lies between 0 and 100. */
  lemma PercentageOffInRange(minPrice: real, comparePrice: real)
    requires 0.0 < comparePrice && 0.0 <= minPrice <= comparePrice
    ensures var k := RoundHalfUp(ExactPercentageOff(minPrice, comparePrice));
            && k <= 100
            && CalculatePercentageOff(minPrice, comparePrice) == DecimalString(k)
            && forall j: int :: Distance(ExactPercentageOff(minPrice, comparePrice), k)
                                <= Distance(ExactPercentageOff(minPrice, comparePrice), j)
  {
    var ratio := (comparePrice - minPrice) / comparePrice;
    assert 0.0 <= ratio <= 1.0 by {
      assert comparePrice - minPrice <= comparePrice;
    }
    var p := ExactPercentageOff(minPrice, comparePrice);
    assert 0.0 <= p <= 100.0;
    forall j: int
      ensures Distance(p, RoundHalfUp(p)) <= Distance(p, j)
    {
      RoundHalfUpIsNearest(p, j);
    }
  }
}
