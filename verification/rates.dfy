/**
 * Learning rates as the experiment hands them to an optimizer, and the
 * LRRange probe generator.
 *
 * A probe is 10^(num/den); the model keeps the exponent and never evaluates
 * the power, so every statement about the probe order is a statement about
 * exponents (10^e is strictly increasing in e).
 */
module Rates {

  datatype LearningRate =
    | PowerOfTen(num: int, den: int)  // 10^(num/den)
    | Literal(value: real)            // a rate written out in the tables

  /** Exponent numerators of LRRange(mul): -6mul, ..., -1, then 1, ..., 2mul. */
  function RangeExponents(mul: int): (es: seq<int>)
  {
    if mul <= 0 then []
    else seq(6 * mul, k => k - 6 * mul) + seq(2 * mul, k => k + 1)
  }

  /** The probes LRRange(mul) yields, in order. */
  function RangeRates(mul: int): (rs: seq<LearningRate>)
    ensures |rs| == |RangeExponents(mul)|
    ensures forall k :: 0 <= k < |rs| ==> rs[k] == PowerOfTen(RangeExponents(mul)[k], mul)
  {
    var es := RangeExponents(mul);
    seq(|es|, k requires 0 <= k < |es| => PowerOfTen(es[k], mul))
  }

  /**
   * The generator: first loop yields 0.1^(i/mul) = 10^(-i/mul) for
   * i = 6mul down to 1, second loop yields 10^(i/mul) for i = 1 up to 2mul.
   * A non-positive mul makes both ranges empty.
   */
  method LRRange(mul: int) returns (rates: seq<LearningRate>)
    ensures rates == RangeRates(mul)
  {
    rates := [];
    var i := mul * 6;
    while i > 0
      invariant if mul > 0 then 0 <= i <= 6 * mul else i == 6 * mul
      invariant |rates| == if mul > 0 then 6 * mul - i else 0
      invariant forall k :: 0 <= k < |rates| ==> rates[k] == PowerOfTen(k - 6 * mul, mul)
    {
      rates := rates + [PowerOfTen(-i, mul)];
      i := i - 1;
    }
    var j := 1;
    while j < 2 * mul + 1
      invariant 1 <= j && (mul > 0 ==> j <= 2 * mul + 1)
      invariant |rates| == if mul > 0 then 6 * mul + j - 1 else 0
      invariant forall k :: 0 <= k < |rates| && k < 6 * mul ==> rates[k] == PowerOfTen(k - 6 * mul, mul)
      invariant forall k :: 0 <= 6 * mul <= k < |rates| ==> rates[k] == PowerOfTen(k - 6 * mul + 1, mul)
    {
      rates := rates + [PowerOfTen(j, mul)];
      j := j + 1;
    }
    assert |rates| == |RangeRates(mul)|;
  }

  /** LRRange(mul) yields 8mul probes: 6mul below 10^0, then 2mul above it. */
  lemma RangeLength(mul: int)
    ensures |RangeRates(mul)| == if mul > 0 then 8 * mul else 0
    ensures mul > 0 ==>
      (forall k :: 0 <= k < 6 * mul ==> RangeExponents(mul)[k] < 0) &&
      (forall k :: 6 * mul <= k < 8 * mul ==> RangeExponents(mul)[k] > 0)
  {
  }

  /** The probes strictly increase, so no rate is probed twice. */
  lemma RangeIncreasing(mul: int)
    ensures forall i, j :: 0 <= i < j < |RangeExponents(mul)| ==>
      RangeExponents(mul)[i] < RangeExponents(mul)[j]
  {
  }

  /** The sweep spans exactly 10^-6 to 10^2 and never probes 10^0 = 1.0. */
  lemma RangeEndpoints(mul: int)
    requires mul > 0
    ensures RangeRates(mul)[0] == PowerOfTen(-6 * mul, mul)
    ensures RangeRates(mul)[8 * mul - 1] == PowerOfTen(2 * mul, mul)
    ensures 0 !in RangeExponents(mul)
  {
  }

  /** Conversely, every non-zero exponent from -6mul to 2mul is probed. */
  lemma RangeCovers(mul: int)
    requires mul > 0
    ensures forall e :: -6 * mul <= e <= 2 * mul && e != 0 ==> e in RangeExponents(mul)
  {
    var es := RangeExponents(mul);
    forall e | -6 * mul <= e <= 2 * mul && e != 0
      ensures e in es
    {
      if e < 0 {
        assert es[e + 6 * mul] == e;
      } else {
        assert es[6 * mul + e - 1] == e;
      }
    }
  }
}
