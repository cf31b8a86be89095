/** The two indicators both scripts compute from a bar sequence: the Average
    True Range of `calcular_atr` and the exponential moving averages of
    `df['close'].ewm(span=s).mean()`. Both are pure functions of the bars. */
module Indicators {
  import opened Exchange

  function Abs(x: real): real
  {
    if x < 0.0 then -x else x
  }

  function Max(a: real, b: real): real
  {
    if a < b then b else a
  }

  function Sum(xs: seq<real>): real
  {
    if xs == [] then 0.0 else Sum(xs[..|xs| - 1]) + xs[|xs| - 1]
  }

  function Pow(x: real, n: nat): (p: real)
    ensures x >= 0.0 ==> p >= 0.0
  {
    if n == 0 then 1.0 else x * Pow(x, n - 1)
  }

  lemma {:induction false} SumNonNegative(xs: seq<real>)
    requires forall k :: 0 <= k < |xs| ==> xs[k] >= 0.0
    ensures Sum(xs) >= 0.0
  {
    if xs != [] {
      SumNonNegative(xs[..|xs| - 1]);
    }
  }

  lemma {:induction false} SumOfZeros(xs: seq<real>)
    requires forall k :: 0 <= k < |xs| ==> xs[k] == 0.0
    ensures Sum(xs) == 0.0
  {
    if xs != [] {
      SumOfZeros(xs[..|xs| - 1]);
    }
  }

  // ---------------------------------------------------------------- ATR

  /** The true range of bar i: the largest of high - low, |high - previous close|
      and |low - previous close|. The row-wise maximum skips the missing
      previous-close terms of the first bar, whose true range is high - low. */
  function TrueRange(bars: seq<Bar>, i: nat): (tr: real)
    requires i < |bars|
    ensures tr >= bars[i].high - bars[i].low
    ensures i == 0 ==> tr == bars[0].high - bars[0].low
    ensures i > 0 ==> (tr >= Abs(bars[i].high - bars[i - 1].close)
                    && tr >= Abs(bars[i].low - bars[i - 1].close))
    ensures i > 0 ==> (tr == bars[i].high - bars[i].low
                    || tr == Abs(bars[i].high - bars[i - 1].close)
                    || tr == Abs(bars[i].low - bars[i - 1].close))
  {
    var hl := bars[i].high - bars[i].low;
    if i == 0 then hl
    else
      var pc := bars[i - 1].close;
      Max(hl, Max(Abs(bars[i].high - pc), Abs(bars[i].low - pc)))
  }

  /** The `TR` column. */
  function TrueRanges(bars: seq<Bar>): seq<real>
  {
    seq(|bars|, i requires 0 <= i < |bars| => TrueRange(bars, i))
  }

  /** `rolling(window=period).mean()`: entry i is the mean of the `period`
      values ending at i, and is missing (NaN) while the window is not full. */
  function RollingMean(xs: seq<real>, period: nat): seq<Option<real>>
    requires period >= 1
  {
    seq(|xs|, i requires 0 <= i < |xs| =>
      if i + 1 < period then None else Some(Sum(xs[i + 1 - period..i + 1]) / period as real))
  }

  /** `calcular_atr(ohlcv, period)`: the last entry of the rolling mean of the
      true ranges, None when it is NaN. The bar list is never empty at the call
      sites (an empty one makes `iloc[-1]` raise). */
  function Atr(bars: seq<Bar>, period: nat): (atr: Option<real>)
    requires period >= 1 && |bars| >= 1
    ensures atr.None? <==> |bars| < period
    ensures atr.Some? ==> atr.value == Sum(TrueRanges(bars)[|bars| - period..]) / period as real
  {
    var trs := TrueRanges(bars);
    var means := RollingMean(trs, period);
    assert |bars| >= period ==> trs[|bars| - period..|bars|] == trs[|bars| - period..];
    Last(means)
  }

  lemma MeanNonNegative(total: real, period: nat)
    requires total >= 0.0 && period >= 1
    ensures total / period as real >= 0.0
  {
  }

  /** Bars whose high is never below their low have a non-negative ATR. */
  lemma AtrNonNegative(bars: seq<Bar>, period: nat)
    requires period >= 1 && |bars| >= 1
    requires forall i :: 0 <= i < |bars| ==> bars[i].high >= bars[i].low
    ensures Atr(bars, period).Some? ==> Atr(bars, period).value >= 0.0
  {
    if |bars| >= period {
      var window := TrueRanges(bars)[|bars| - period..];
      forall k | 0 <= k < |window| ensures window[k] >= 0.0 {
        assert window[k] == TrueRange(bars, |bars| - period + k);
      }
      SumNonNegative(window);
      MeanNonNegative(Sum(window), period);
    }
  }

  /** A market that never moves (every high, low and close the same price) has ATR 0. */
  lemma AtrOfFlatMarket(bars: seq<Bar>, period: nat, price: real)
    requires period >= 1 && |bars| >= 1
    requires forall i :: 0 <= i < |bars| ==> bars[i].high == price && bars[i].low == price && bars[i].close == price
    ensures Atr(bars, period).Some? ==> Atr(bars, period).value == 0.0
  {
    if |bars| >= period {
      var window := TrueRanges(bars)[|bars| - period..];
      forall k | 0 <= k < |window| ensures window[k] == 0.0 {
        var j := |bars| - period + k;
        assert window[k] == TrueRange(bars, j);
        assert bars[j].high - bars[j].low == 0.0;
        if j > 0 {
          assert bars[j - 1].close == price;
        }
      }
      SumOfZeros(window);
      assert Sum(window) / period as real == 0.0;
    }
  }

  // ---------------------------------------------------------------- EMA

  /** pandas' decay factor for `ewm(span=s)`: 1 - alpha, alpha = 2 / (s + 1). */
  function Decay(span: nat): (w: real)
    requires span >= 1
    ensures 0.0 <= w < 1.0
  {
    var alpha := 2.0 / (span as real + 1.0);
    assert 0.0 < alpha <= 1.0 by {
      assert alpha * (span as real + 1.0) == 2.0;
    }
    1.0 - alpha
  }

  /** Running numerator of the adjusted EMA: num_t = x_t + w * num_(t-1). */
  function Numerator(xs: seq<real>, w: real): real
  {
    if xs == [] then 0.0 else xs[|xs| - 1] + w * Numerator(xs[..|xs| - 1], w)
  }

  /** Running denominator of the adjusted EMA: den_t = 1 + w * den_(t-1). */
  function Denominator(n: nat, w: real): (d: real)
    ensures w >= 0.0 && n >= 1 ==> d >= 1.0
  {
    if n == 0 then 0.0 else 1.0 + w * Denominator(n - 1, w)
  }

  /** The EMA value at index t: the running numerator over the running
      denominator of the inputs up to t. */
  function EmaAt(xs: seq<real>, w: real, t: nat): real
    requires t < |xs| && w >= 0.0
  {
    Numerator(xs[..t + 1], w) / Denominator(t + 1, w)
  }

  /** The spans of the two averages both scripts compute, EMA50 and EMA200. */
  const EmaFast: nat := 50
  const EmaSlow: nat := 200

  /** `xs.ewm(span=span).mean()` with pandas' default adjust=True: one value per
      input, each the ratio of the two running sums up to that input. */
  function Ema(xs: seq<real>, span: nat): (ema: seq<real>)
    requires span >= 1
    ensures |ema| == |xs|
    ensures |xs| > 0 ==> ema[0] == xs[0]
  {
    if |xs| > 0 then
      EmaStartsAtFirstInput(xs, Decay(span));
      seq(|xs|, t requires 0 <= t < |xs| => EmaAt(xs, Decay(span), t))
    else []
  }

  lemma EmaStartsAtFirstInput(xs: seq<real>, w: real)
    requires |xs| > 0 && w >= 0.0
    ensures EmaAt(xs, w, 0) == xs[0]
  {
    assert xs[..1][..0] == [];
    assert Numerator(xs[..1], w) == xs[0] + w * 0.0;
    assert Denominator(1, w) == 1.0 + w * 0.0;
  }

  /** Reference form of the numerator, oldest value first:
      the sum over j of w^(n-1-j) * xs[j]. */
  function WeightedSum(xs: seq<real>, w: real): real
  {
    if xs == [] then 0.0 else Pow(w, |xs| - 1) * xs[0] + WeightedSum(xs[1..], w)
  }

  /** Reference form of the denominator: the sum over i < n of w^i. */
  function TotalWeight(n: nat, w: real): (total: real)
    ensures w >= 0.0 && n >= 1 ==> total >= 1.0
  {
    if n == 0 then 0.0 else TotalWeight(n - 1, w) + Pow(w, n - 1)
  }

  lemma SnocAlgebra(a: real, b: real, c: real, d: real, p1: real, p2: real, x0: real, last: real, w: real)
    requires a == p1 * x0 + b && b == last + w * c && d == p2 * x0 + c && p1 == w * p2
    ensures a == last + w * d
  {
    assert w * d == w * (p2 * x0) + w * c;
    assert p1 * x0 == w * (p2 * x0);
  }

  /** The weighted sum peels off its newest input like the running numerator. */
  predicate PeelsNewest(xs: seq<real>, w: real)
    requires |xs| >= 1
  {
    WeightedSum(xs, w) == xs[|xs| - 1] + w * WeightedSum(xs[..|xs| - 1], w)
  }

  lemma PeelsNewestSingle(x: real, w: real)
    ensures PeelsNewest([x], w)
  {
    assert [x][1..] == [] && [x][..0] == [];
  }

  lemma PeelsNewestStep(xs: seq<real>, w: real)
    requires |xs| >= 2 && PeelsNewest(xs[1..], w)
    ensures PeelsNewest(xs, w)
  {
    var n := |xs|;
    var init := xs[..n - 1];
    assert xs[1..][..n - 2] == init[1..];
    assert init[0] == xs[0];
    SnocAlgebra(WeightedSum(xs, w), WeightedSum(xs[1..], w), WeightedSum(init[1..], w),
                WeightedSum(init, w), Pow(w, n - 1), Pow(w, n - 2), xs[0], xs[n - 1], w);
  }

  lemma {:induction false} WeightedSumSnoc(xs: seq<real>, w: real)
    requires |xs| >= 1
    ensures PeelsNewest(xs, w)
  {
    if |xs| == 1 {
      assert xs == [xs[0]];
      PeelsNewestSingle(xs[0], w);
    } else {
      WeightedSumSnoc(xs[1..], w);
      PeelsNewestStep(xs, w);
    }
  }

  lemma {:induction false} TotalWeightStep(n: nat, w: real)
    requires n >= 1
    ensures TotalWeight(n, w) == 1.0 + w * TotalWeight(n - 1, w)
  {
    if n > 1 {
      TotalWeightStep(n - 1, w);
      assert Pow(w, n - 1) == w * Pow(w, n - 2);
    }
  }

  /** The running numerator is the weighted sum pandas documents. */
  lemma {:induction false} NumeratorIsWeightedSum(xs: seq<real>, w: real)
    ensures Numerator(xs, w) == WeightedSum(xs, w)
  {
    if xs != [] {
      NumeratorIsWeightedSum(xs[..|xs| - 1], w);
      WeightedSumSnoc(xs, w);
    }
  }

  /** The running denominator is the total weight. */
  lemma {:induction false} DenominatorIsTotalWeight(n: nat, w: real)
    ensures Denominator(n, w) == TotalWeight(n, w)
  {
    if n > 0 {
      DenominatorIsTotalWeight(n - 1, w);
      TotalWeightStep(n, w);
    }
  }

  /** Closed form of every EMA value: the weighted mean of the closes up to t,
      input t - i weighted by w^i. */
  lemma EmaClosedForm(xs: seq<real>, span: nat, t: nat)
    requires span >= 1 && t < |xs|
    ensures Ema(xs, span)[t] == WeightedSum(xs[..t + 1], Decay(span)) / TotalWeight(t + 1, Decay(span))
  {
    NumeratorIsWeightedSum(xs[..t + 1], Decay(span));
    DenominatorIsTotalWeight(t + 1, Decay(span));
  }

  lemma MulMonotone(w: real, a: real, b: real)
    requires w >= 0.0 && a <= b
    ensures w * a <= w * b
  {
  }

  lemma BoundStep(x: real, prev: real, d: real, d1: real, n1: real, w: real, lo: real, hi: real)
    requires w >= 0.0 && lo <= x <= hi && lo * d <= prev <= hi * d
    requires d1 == 1.0 + w * d && n1 == x + w * prev
    ensures lo * d1 <= n1 <= hi * d1
  {
    MulMonotone(w, lo * d, prev);
    MulMonotone(w, prev, hi * d);
    assert lo * d1 == lo + w * (lo * d);
    assert hi * d1 == hi + w * (hi * d);
  }

  /** The numerator lies between lo and hi times the denominator. */
  predicate NumeratorWithin(xs: seq<real>, w: real, lo: real, hi: real)
  {
    lo * Denominator(|xs|, w) <= Numerator(xs, w) <= hi * Denominator(|xs|, w)
  }

  lemma NumeratorWithinStep(xs: seq<real>, w: real, lo: real, hi: real)
    requires xs != [] && w >= 0.0 && lo <= xs[|xs| - 1] <= hi
    requires NumeratorWithin(xs[..|xs| - 1], w, lo, hi)
    ensures NumeratorWithin(xs, w, lo, hi)
  {
    var init := xs[..|xs| - 1];
    BoundStep(xs[|xs| - 1], Numerator(init, w), Denominator(|init|, w),
              Denominator(|xs|, w), Numerator(xs, w), w, lo, hi);
  }

  lemma {:induction false} NumeratorBounds(xs: seq<real>, w: real, lo: real, hi: real)
    requires w >= 0.0
    requires forall k :: 0 <= k < |xs| ==> lo <= xs[k] <= hi
    ensures NumeratorWithin(xs, w, lo, hi)
  {
    if xs != [] {
      var init := xs[..|xs| - 1];
      assert forall k :: 0 <= k < |init| ==> lo <= init[k] <= hi by {
        forall k | 0 <= k < |init| ensures lo <= init[k] <= hi {
          assert init[k] == xs[k];
        }
      }
      NumeratorBounds(init, w, lo, hi);
      NumeratorWithinStep(xs, w, lo, hi);
    }
  }

  lemma DivideBounds(a: real, d: real, lo: real, hi: real)
    requires d > 0.0 && lo * d <= a <= hi * d
    ensures lo <= a / d <= hi
  {
    var q := a / d;
    assert a == q * d;
    if q < lo {
      MulMonotone(d, q, lo);
      assert false;
    }
    if q > hi {
      MulMonotone(d, hi, q);
      assert false;
    }
  }

  /** Every EMA value lies between the smallest and the largest input, because
      it is a weighted mean with positive weights. */
  lemma EmaWithinBounds(xs: seq<real>, span: nat, lo: real, hi: real, t: nat)
    requires span >= 1 && t < |xs|
    requires forall k :: 0 <= k < |xs| ==> lo <= xs[k] <= hi
    ensures lo <= Ema(xs, span)[t] <= hi
  {
    var w := Decay(span);
    NumeratorBounds(xs[..t + 1], w, lo, hi);
    DivideBounds(Numerator(xs[..t + 1], w), Denominator(t + 1, w), lo, hi);
  }

  /** A constant close series has a constant EMA equal to that close. */
  lemma EmaOfConstant(xs: seq<real>, span: nat, c: real, t: nat)
    requires span >= 1 && t < |xs|
    requires forall k :: 0 <= k < |xs| ==> xs[k] == c
    ensures Ema(xs, span)[t] == c
  {
    EmaWithinBounds(xs, span, c, c, t);
  }

  /** The algebra of one step behind EmaStep: when numerator and denominator
      are both decayed by w and grow by x and 1, the new ratio is the old one
      plus the gap to x over the new denominator. */
  lemma StepAlgebra(x: real, n0: real, d0: real, n1: real, d1: real, w: real)
    requires d0 > 0.0 && d1 > 0.0 && n1 == x + w * n0 && d1 == 1.0 + w * d0
    ensures n1 / d1 == n0 / d0 + (x - n0 / d0) / d1
  {
    var p := n0 / d0;
    assert p * d0 == n0;
    calc {
      p + (x - p) / d1;
      (p * d1 + x - p) / d1;
      (p * (w * d0) + x) / d1;
      { assert p * (w * d0) == w * (p * d0); }
      (x + w * n0) / d1;
    }
  }

  /** The adjusted EMA moves toward each new input by 1 / den_t, a factor that
      starts at 1 and shrinks toward alpha, instead of by a fixed alpha. */
  lemma EmaStep(xs: seq<real>, span: nat, t: nat)
    requires span >= 1 && 0 < t < |xs|
    ensures Ema(xs, span)[t]
         == Ema(xs, span)[t - 1] + (xs[t] - Ema(xs, span)[t - 1]) / Denominator(t + 1, Decay(span))
  {
    var w := Decay(span);
    assert xs[..t + 1][..t] == xs[..t];
    StepAlgebra(xs[t], Numerator(xs[..t], w), Denominator(t, w),
                Numerator(xs[..t + 1], w), Denominator(t + 1, w), w);
  }
}
