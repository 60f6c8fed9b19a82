/**
 * The moving-average indicators of src/components/TradingViewChart.jsx
 * (`calculateSMA`, `calculateEMA`), over exact reals. The chart calls them on
 * the closing prices of the visible candles with periods 20, 12 and 26.
 */
module Indicators {

  /** `reduce((a, b) => a + b, 0)`: the sum, accumulated left to right. */
  function Sum(s: seq<real>): real
    decreases |s|
  {
    if s == [] then 0.0 else Sum(s[..|s| - 1]) + s[|s| - 1]
  }

  /** Every price lies in [lo, hi]. */
  predicate Within(s: seq<real>, lo: real, hi: real) {
    forall i :: 0 <= i < |s| ==> lo <= s[i] <= hi
  }

  /** The simple moving average: one value per full window of `period`
      consecutive prices, the mean of that window; none when there are
      fewer prices than `period`. */
  function Sma(prices: seq<real>, period: nat): (r: seq<real>)
    requires period >= 1
    ensures |r| == if |prices| < period then 0 else |prices| - period + 1
  {
    if |prices| < period then []
    else seq(|prices| - period + 1, j requires 0 <= j < |prices| - period + 1 =>
               Sum(prices[j..j + period]) / period as real)
  }

  /** The smoothing factor 2 / (period + 1). */
  function Multiplier(period: nat): (k: real)
    requires period >= 1
    ensures 0.0 < k <= 1.0
  {
    2.0 / (period as real + 1.0)
  }

  /** The j-th exponential moving average: the first is the mean of the
      first `period` prices, each later one blends the next price with the
      previous average. */
  function EmaAt(prices: seq<real>, period: nat, j: nat): real
    requires period >= 1 && period - 1 + j < |prices|
    decreases j
  {
    if j == 0 then Sum(prices[..period]) / period as real
    else prices[period - 1 + j] * Multiplier(period) + EmaAt(prices, period, j - 1) * (1.0 - Multiplier(period))
  }

  function Ema(prices: seq<real>, period: nat): (r: seq<real>)
    requires period >= 1
    ensures |r| == if |prices| < period then 0 else |prices| - period + 1
  {
    if |prices| < period then []
    else seq(|prices| - period + 1, j requires 0 <= j < |prices| - period + 1 => EmaAt(prices, period, j))
  }

  /** `calculateSMA`: for each window end, sum the window (the `reduce`)
      and push its mean. */
  method CalculateSMA(prices: seq<real>, period: nat) returns (sma: seq<real>)
    requires period >= 1
    ensures sma == Sma(prices, period)
  {
    if |prices| < period {
      return [];
    }
    sma := [];
    var i := period - 1;
    while i < |prices|
      invariant period - 1 <= i <= |prices|
      invariant |sma| == i - period + 1
      invariant forall j :: 0 <= j < |sma| ==> sma[j] == Sum(prices[j..j + period]) / period as real
    {
      var sum := 0.0;
      var k := i - period + 1;
      while k < i + 1
        invariant i - period + 1 <= k <= i + 1
        invariant sum == Sum(prices[i - period + 1..k])
      {
        assert prices[i - period + 1..k + 1][..k - (i - period + 1)] == prices[i - period + 1..k];
        sum := sum + prices[k];
        k := k + 1;
      }
      sma := sma + [sum / period as real];
      i := i + 1;
    }
  }

  /** `calculateEMA`: sum the first `period` prices, push their mean, then
      push one blended value per remaining price. */
  method CalculateEMA(prices: seq<real>, period: nat) returns (ema: seq<real>)
    requires period >= 1
    ensures ema == Ema(prices, period)
  {
    if |prices| < period {
      return [];
    }
    var multiplier := 2.0 / (period as real + 1.0);
    var sum := 0.0;
    var i := 0;
    while i < period
      invariant 0 <= i <= period
      invariant sum == Sum(prices[..i])
    {
      assert prices[..i + 1][..i] == prices[..i];
      sum := sum + prices[i];
      i := i + 1;
    }
    ema := [sum / period as real];
    i := period;
    while i < |prices|
      invariant period <= i <= |prices|
      invariant |ema| == i - period + 1
      invariant forall j :: 0 <= j < |ema| ==> ema[j] == EmaAt(prices, period, j)
    {
      var newEma := prices[i] * multiplier + ema[|ema| - 1] * (1.0 - multiplier);
      assert ema[|ema| - 1] == EmaAt(prices, period, |ema| - 1);
      assert newEma == EmaAt(prices, period, |ema|) by {
        assert multiplier == Multiplier(period);
      }
      ema := ema + [newEma];
      i := i + 1;
    }
  }

  lemma {:induction false} SumBounds(s: seq<real>, lo: real, hi: real)
    requires Within(s, lo, hi)
    ensures |s| as real * lo <= Sum(s) <= |s| as real * hi
    decreases |s|
  {
    if s != [] {
      var n := |s| - 1;
      assert Within(s[..n], lo, hi);
      SumBounds(s[..n], lo, hi);
      assert (n + 1) as real * lo == n as real * lo + lo;
      assert (n + 1) as real * hi == n as real * hi + hi;
    }
  }

  /** A mean of prices within [lo, hi] is within [lo, hi]. */
  lemma MeanBounds(s: seq<real>, n: nat, lo: real, hi: real)
    requires n >= 1 && |s| == n && Within(s, lo, hi)
    ensures lo <= Sum(s) / n as real <= hi
  {
    SumBounds(s, lo, hi);
    var m := Sum(s) / n as real;
    assert m * n as real == Sum(s);
  }

  /** Every simple moving average lies within the range of the prices. */
  lemma SmaWithinPriceRange(prices: seq<real>, period: nat, lo: real, hi: real)
    requires period >= 1 && Within(prices, lo, hi)
    ensures Within(Sma(prices, period), lo, hi)
  {
    var r := Sma(prices, period);
    forall j | 0 <= j < |r|
      ensures lo <= r[j] <= hi
    {
      MeanBounds(prices[j..j + period], period, lo, hi);
    }
  }

  lemma NonnegativeProduct(x: real, y: real)
    requires x >= 0.0 && y >= 0.0
    ensures x * y >= 0.0
  {
  }

  /** One blending step keeps a value within [lo, hi]. */
  lemma BlendBounds(p: real, e: real, k: real, lo: real, hi: real)
    requires 0.0 < k <= 1.0 && lo <= p <= hi && lo <= e <= hi
    ensures lo <= p * k + e * (1.0 - k) <= hi
  {
    var a := 1.0 - k;
    NonnegativeProduct(p - lo, k);
    NonnegativeProduct(hi - p, k);
    NonnegativeProduct(e - lo, a);
    NonnegativeProduct(hi - e, a);
    assert p * k + e * a - lo == (p - lo) * k + (e - lo) * a;
    assert hi - (p * k + e * a) == (hi - p) * k + (hi - e) * a;
  }

  lemma {:induction false} EmaAtBounds(prices: seq<real>, period: nat, j: nat, lo: real, hi: real)
    requires period >= 1 && period - 1 + j < |prices| && Within(prices, lo, hi)
    ensures lo <= EmaAt(prices, period, j) <= hi
    decreases j
  {
    if j == 0 {
      MeanBounds(prices[..period], period, lo, hi);
    } else {
      EmaAtBounds(prices, period, j - 1, lo, hi);
      BlendBounds(prices[period - 1 + j], EmaAt(prices, period, j - 1), Multiplier(period), lo, hi);
    }
  }

  /** Every exponential moving average lies within the range of the
      prices: each is a convex blend of prices. */
  lemma EmaWithinPriceRange(prices: seq<real>, period: nat, lo: real, hi: real)
    requires period >= 1 && Within(prices, lo, hi)
    ensures Within(Ema(prices, period), lo, hi)
  {
    var r := Ema(prices, period);
    forall j | 0 <= j < |r|
      ensures lo <= r[j] <= hi
    {
      EmaAtBounds(prices, period, j, lo, hi);
    }
  }

  /** On a flat price series both averages are that price throughout. */
  lemma FlatSeriesAverages(prices: seq<real>, period: nat, c: real)
    requires period >= 1 && forall i :: 0 <= i < |prices| ==> prices[i] == c
    ensures forall j :: 0 <= j < |Sma(prices, period)| ==> Sma(prices, period)[j] == c
    ensures forall j :: 0 <= j < |Ema(prices, period)| ==> Ema(prices, period)[j] == c
  {
    SmaWithinPriceRange(prices, period, c, c);
    EmaWithinPriceRange(prices, period, c, c);
  }

  /** The first EMA value is the first SMA value ("First EMA is SMA"), and
      each later EMA value blends the next price with its predecessor. */
  lemma EmaStartsAtSma(prices: seq<real>, period: nat)
    requires period >= 1 && |prices| >= period
    ensures Ema(prices, period)[0] == Sma(prices, period)[0]
    ensures forall j :: 1 <= j < |Ema(prices, period)| ==>
      Ema(prices, period)[j] == prices[period - 1 + j] * Multiplier(period) + Ema(prices, period)[j - 1] * (1.0 - Multiplier(period))
  {
    assert prices[0..period] == prices[..period];
  }

  /** SMA([10, 20, 30, 40], 2) = [15, 25, 35] and EMA([10, 20, 30], 2) = [15, 25]. */
  lemma WorkedExamples()
    ensures Sma([10.0, 20.0, 30.0, 40.0], 2) == [15.0, 25.0, 35.0]
    ensures Ema([10.0, 20.0, 30.0], 2) == [15.0, 25.0]
  {
    var p := [10.0, 20.0, 30.0, 40.0];
    assert p[0..2] == [10.0, 20.0] && p[1..3] == [20.0, 30.0] && p[2..4] == [30.0, 40.0];
    assert Sum([10.0, 20.0]) == 30.0 by { assert [10.0, 20.0][..1] == [10.0]; assert [10.0][..0] == []; }
    assert Sum([20.0, 30.0]) == 50.0 by { assert [20.0, 30.0][..1] == [20.0]; assert [20.0][..0] == []; }
    assert Sum([30.0, 40.0]) == 70.0 by { assert [30.0, 40.0][..1] == [30.0]; assert [30.0][..0] == []; }
    var q := [10.0, 20.0, 30.0];
    assert q[..2] == [10.0, 20.0];
    assert EmaAt(q, 2, 0) == 15.0;
    assert EmaAt(q, 2, 1) == 25.0;
  }
}
