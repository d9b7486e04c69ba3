/**
 * Exponential moving average of closes (src/utils/indicators/ema.js).
 */
module Ema {
  import opened Series

  /** The sum of the first m closes, added oldest first. */
  function LeadingSum(xs: seq<real>, m: nat): real
    requires m <= |xs|
  {
    if m == 0 then 0.0 else LeadingSum(xs, m - 1) + xs[m - 1]
  }

  /** The smoothing factor 2 / (period + 1). */
  function Alpha(period: nat): (k: real)
    requires period >= 1
    ensures 0.0 < k <= 1.0
  {
    2.0 / (period as real + 1.0)
  }

  /** The EMA value at input i (i >= period - 1): the mean of the first `period` closes at
      i = period - 1, then (close - previous) * k + previous. */
  function EmaValue(xs: seq<real>, period: nat, i: nat): real
    requires 1 <= period <= i + 1 <= |xs|
    decreases i
  {
    if i == period - 1 then LeadingSum(xs, period) / period as real
    else
      var prev := EmaValue(xs, period, i - 1);
      (xs[i] - prev) * Alpha(period) + prev
  }

  /** The EMA line: one point per input from index period - 1 on. */
  function EmaLine(data: seq<Candle>, period: nat): (r: seq<Point>)
    requires 1 <= period <= |data|
    ensures |r| == |data| - period + 1
    ensures forall q :: 0 <= q < |r| ==> r[q].time == data[q + period - 1].time
  {
    seq(|data| - period + 1, q requires 0 <= q < |data| - period + 1 =>
          Point(data[q + period - 1].time, EmaValue(Closes(data), period, q + period - 1)))
  }

  /** The seeding loop of calculateEMA: the closes of the first m candles, added oldest first. */
  method SumOfFirst(data: seq<Candle>, m: nat) returns (sum: real)
    requires m <= |data|
    ensures sum == LeadingSum(Closes(data), m)
  {
    sum := 0.0;
    var i := 0;
    while i < m
      invariant 0 <= i <= m
      invariant sum == LeadingSum(Closes(data), i)
    {
      sum := sum + data[i].close;
      i := i + 1;
    }
  }

  /** calculateEMA: [] when there are fewer candles than the period or the period is not positive. */
  method CalculateEma(data: seq<Candle>, period: int) returns (ema: seq<Point>)
    ensures |data| < period || period <= 0 ==> ema == []
    ensures 1 <= period <= |data| ==> ema == EmaLine(data, period)
  {
    if |data| < period || period <= 0 {
      return [];
    }
    ghost var closes := Closes(data);
    var k := Alpha(period);
    var sum := SumOfFirst(data, period);
    var prevEma := sum / period as real;
    assert prevEma == EmaValue(closes, period, period - 1);
    ema := [Point(data[period - 1].time, prevEma)];
    var i := period;
    while i < |data|
      invariant period <= i <= |data|
      invariant |ema| == i - period + 1
      invariant prevEma == EmaValue(closes, period, i - 1)
      invariant forall q :: 0 <= q < |ema| ==> ema[q] == Point(data[q + period - 1].time, EmaValue(closes, period, q + period - 1))
    {
      var close := data[i].close;
      var next := (close - prevEma) * k + prevEma;
      assert next == EmaValue(closes, period, i) by {
        assert close == closes[i];
      }
      ema := ema + [Point(data[i].time, next)];
      prevEma := next;
      i := i + 1;
    }
    assert ema == EmaLine(data, period);
  }

  /** The first m closes, all equal to c, sum to m * c. */
  lemma {:induction false} LeadingSumConstant(xs: seq<real>, m: nat, c: real)
    requires m <= |xs|
    requires forall j :: 0 <= j < m ==> xs[j] == c
    ensures LeadingSum(xs, m) == m as real * c
  {
    if m > 0 {
      LeadingSumConstant(xs, m - 1, c);
    }
  }

  /** If every close equals c, every EMA value equals c. */
  lemma {:induction false} EmaOfConstant(xs: seq<real>, period: nat, i: nat, c: real)
    requires 1 <= period <= i + 1 <= |xs|
    requires forall j :: 0 <= j < |xs| ==> xs[j] == c
    ensures EmaValue(xs, period, i) == c
  {
    if i == period - 1 {
      assert EmaValue(xs, period, i) == LeadingSum(xs, period) / period as real;
      LeadingSumConstant(xs, period, c);
      MeanOfEqual(LeadingSum(xs, period), period as real, c);
    } else {
      var prev := EmaValue(xs, period, i - 1);
      assert EmaValue(xs, period, i) == (xs[i] - prev) * Alpha(period) + prev;
      EmaOfConstant(xs, period, i - 1, c);
      assert (xs[i] - prev) * Alpha(period) == 0.0 * Alpha(period) == 0.0;
    }
  }

  /** The first m closes sum to between m * lo and m * hi when each lies in [lo, hi]. */
  lemma {:induction false} LeadingSumBounds(xs: seq<real>, m: nat, lo: real, hi: real)
    requires m <= |xs|
    requires forall j :: 0 <= j < m ==> lo <= xs[j] <= hi
    ensures m as real * lo <= LeadingSum(xs, m) <= m as real * hi
  {
    if m > 0 {
      LeadingSumBounds(xs, m - 1, lo, hi);
      assert (m - 1) as real * lo + lo == m as real * lo;
      assert (m - 1) as real * hi + hi == m as real * hi;
    }
  }

  /** Each EMA value is a weighted average of closes: it stays within any bounds the closes up to its
      index respect. */
  lemma {:induction false} EmaWithinRange(xs: seq<real>, period: nat, i: nat, lo: real, hi: real)
    requires 1 <= period <= i + 1 <= |xs|
    requires forall j :: 0 <= j <= i ==> lo <= xs[j] <= hi
    ensures lo <= EmaValue(xs, period, i) <= hi
  {
    if i == period - 1 {
      LeadingSumBounds(xs, period, lo, hi);
      MeanBetween(LeadingSum(xs, period), period as real, lo, hi);
    } else {
      var prev := EmaValue(xs, period, i - 1);
      assert EmaValue(xs, period, i) == (xs[i] - prev) * Alpha(period) + prev;
      EmaWithinRange(xs, period, i - 1, lo, hi);
      StepBetween(xs[i], prev, Alpha(period), lo, hi);
    }
  }

  /** A sum of p values in [lo, hi], divided by p, lies in [lo, hi]. */
  lemma MeanBetween(s: real, p: real, lo: real, hi: real)
    requires p > 0.0 && p * lo <= s <= p * hi
    ensures lo <= s / p <= hi
  {
    assert s / p * p == s;
  }

  /** One EMA step moves the previous value towards the close by the fraction k, so it stays within
      any bounds both respect. */
  lemma StepBetween(x: real, prev: real, k: real, lo: real, hi: real)
    requires 0.0 <= k <= 1.0 && lo <= x <= hi && lo <= prev <= hi
    ensures lo <= (x - prev) * k + prev <= hi
  {
    var d := x - prev;
    var e := d * k;
    assert (x - prev) * k == e;
    if d >= 0.0 {
      // the step moves up by at most d, so it ends between prev and x
      ProductBetween(d, k);
      assert prev <= prev + e <= x;
    } else {
      // the step moves down by at most -d, so it ends between x and prev
      ProductBetween(-d, k);
      assert (-d) * k == -e;
      assert x <= prev + e <= prev;
    }
  }

  /** A non-negative amount scaled by a factor in [0, 1] stays between 0 and the amount. */
  lemma ProductBetween(d: real, k: real)
    requires d >= 0.0 && 0.0 <= k <= 1.0
    ensures 0.0 <= d * k <= d
  {
    assert d - d * k == d * (1.0 - k);
  }

  /** Appending candles never changes an EMA value already computed. */
  lemma {:induction false} EmaIsCausal(xs: seq<real>, ys: seq<real>, period: nat, i: nat)
    requires 1 <= period <= i + 1 <= |xs| <= |ys|
    requires xs == ys[..|xs|]
    ensures EmaValue(xs, period, i) == EmaValue(ys, period, i)
  {
    if i == period - 1 {
      LeadingSumPrefix(xs, ys, period);
    } else {
      EmaIsCausal(xs, ys, period, i - 1);
    }
  }

  lemma {:induction false} LeadingSumPrefix(xs: seq<real>, ys: seq<real>, m: nat)
    requires m <= |xs| <= |ys| && xs == ys[..|xs|]
    ensures LeadingSum(xs, m) == LeadingSum(ys, m)
  {
    if m > 0 {
      LeadingSumPrefix(xs, ys, m - 1);
    }
  }
}
