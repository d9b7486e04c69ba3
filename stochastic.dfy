/**
 * Slow stochastic oscillator (src/utils/indicators/stochastic.js): raw %K over a look-back window,
 * smoothed into %K, averaged again into %D, with %K trimmed to line up with %D.
 */
module Stochastic {
  import opened Series

  /** The two lines, or the TypeError the source raises when a smoothing length is not positive
      (it then reads `.time` of the element at index -1). */
  datatype Outcome = Lines(kLine: seq<Point>, dLine: seq<Point>) | Throws

  /** The highest high of the m candles ending at index i. */
  function WindowHigh(data: seq<Candle>, i: int, m: nat): (r: real)
    requires 1 <= m <= i + 1 <= |data|
    ensures forall j :: i - m < j <= i ==> data[j].high <= r
  {
    if m == 1 then data[i].high
    else
      var rest := WindowHigh(data, i, m - 1);
      if data[i - (m - 1)].high > rest then data[i - (m - 1)].high else rest
  }

  /** The lowest low of the m candles ending at index i. */
  function WindowLow(data: seq<Candle>, i: int, m: nat): (r: real)
    requires 1 <= m <= i + 1 <= |data|
    ensures forall j :: i - m < j <= i ==> r <= data[j].low
  {
    if m == 1 then data[i].low
    else
      var rest := WindowLow(data, i, m - 1);
      if data[i - (m - 1)].low < rest then data[i - (m - 1)].low else rest
  }

  /** Raw %K at candle i: where the close sits in the window's range, in percent; 50 for a flat range. */
  function RawK(data: seq<Candle>, i: int, kPeriod: nat): real
    requires 1 <= kPeriod <= i + 1 <= |data|
  {
    var hh := WindowHigh(data, i, kPeriod);
    var ll := WindowLow(data, i, kPeriod);
    if hh - ll == 0.0 then 50.0 else (data[i].close - ll) / (hh - ll) * 100.0
  }

  /** The raw %K line: one point per complete window, at the window's last candle. */
  function RawKLine(data: seq<Candle>, kPeriod: nat): (r: seq<Point>)
    requires kPeriod >= 1
    ensures |r| == if |data| < kPeriod then 0 else |data| - kPeriod + 1
    ensures forall q :: 0 <= q < |r| ==> r[q] == Point(data[q + kPeriod - 1].time, RawK(data, q + kPeriod - 1, kPeriod))
  {
    if |data| < kPeriod then []
    else seq(|data| - kPeriod + 1, q requires 0 <= q < |data| - kPeriod + 1 =>
               Point(data[q + kPeriod - 1].time, RawK(data, q + kPeriod - 1, kPeriod)))
  }

  /** The source's early return: too few candles for one %D value, or a non-positive look-back. */
  predicate TooShort(n: int, kPeriod: int, dPeriod: int, smooth: int) {
    n < kPeriod + dPeriod + smooth - 2 || kPeriod <= 0
  }

  /** What calculateStochastic returns, phase by phase. */
  function StochasticLines(data: seq<Candle>, kPeriod: nat, dPeriod: nat, smooth: nat): (r: Outcome)
    requires kPeriod >= 1 && dPeriod >= 1 && smooth >= 1
    requires |data| >= kPeriod + dPeriod + smooth - 2
    ensures r.Lines?
  {
    var kFull := Smoothed(RawKLine(data, kPeriod), smooth);
    Lines(kFull[dPeriod - 1..], Smoothed(kFull, dPeriod))
  }

  /** The moving average of a line, as the %K and %D phases compute it. */
  method MovingAverage(ps: seq<Point>, m: int) returns (r: seq<Point>)
    requires m >= 1
    ensures r == Smoothed(ps, m)
  {
    ghost var vs := Values(ps);
    r := [];
    var i := m - 1;
    while i < |ps|
      invariant m - 1 <= i && (i <= |ps| || i == m - 1)
      invariant |r| == i - m + 1
      invariant forall q :: 0 <= q < |r| ==>
        r[q] == Point(ps[q + m - 1].time, TrailingSum(vs, q + m - 1, m) / m as real)
    {
      var sum := 0.0;
      var j := 0;
      while j < m
        invariant 0 <= j <= m
        invariant sum == TrailingSum(vs, i, j)
      {
        sum := sum + ps[i - j].value;
        j := j + 1;
      }
      r := r + [Point(ps[i].time, sum / m as real)];
      i := i + 1;
    }
  }

  /** The highest high and lowest low of the kPeriod candles ending at i, scanned newest first. */
  method WindowRange(data: seq<Candle>, i: int, kPeriod: int) returns (highestHigh: real, lowestLow: real)
    requires 1 <= kPeriod <= i + 1 <= |data|
    ensures highestHigh == WindowHigh(data, i, kPeriod) && lowestLow == WindowLow(data, i, kPeriod)
  {
    highestHigh := data[i].high;
    lowestLow := data[i].low;
    var j := 1;
    while j < kPeriod
      invariant 1 <= j <= kPeriod
      invariant highestHigh == WindowHigh(data, i, j) && lowestLow == WindowLow(data, i, j)
    {
      if data[i - j].high > highestHigh {
        highestHigh := data[i - j].high;
      }
      if data[i - j].low < lowestLow {
        lowestLow := data[i - j].low;
      }
      j := j + 1;
    }
  }

  /** The raw %K phase. */
  method RawKPhase(data: seq<Candle>, kPeriod: int) returns (rawK: seq<Point>)
    requires kPeriod >= 1
    ensures rawK == RawKLine(data, kPeriod)
  {
    rawK := [];
    var i := kPeriod - 1;
    while i < |data|
      invariant kPeriod - 1 <= i && (i <= |data| || i == kPeriod - 1)
      invariant |rawK| == i - kPeriod + 1
      invariant forall q :: 0 <= q < |rawK| ==>
        rawK[q] == Point(data[q + kPeriod - 1].time, RawK(data, q + kPeriod - 1, kPeriod))
    {
      var highestHigh, lowestLow := WindowRange(data, i, kPeriod);
      var range := highestHigh - lowestLow;
      var k := if range == 0.0 then 50.0 else (data[i].close - lowestLow) / range * 100.0;
      assert k == RawK(data, i, kPeriod);
      rawK := rawK + [Point(data[i].time, k)];
      i := i + 1;
    }
  }

  /** calculateStochastic */
  method CalculateStochastic(data: seq<Candle>, kPeriod: int, dPeriod: int, smooth: int) returns (out: Outcome)
    ensures TooShort(|data|, kPeriod, dPeriod, smooth) ==> out == Lines([], [])
    ensures !TooShort(|data|, kPeriod, dPeriod, smooth) && (smooth <= 0 || dPeriod <= 0) ==> out == Throws
    ensures !TooShort(|data|, kPeriod, dPeriod, smooth) && smooth >= 1 && dPeriod >= 1 ==>
      out == StochasticLines(data, kPeriod, dPeriod, smooth)
  {
    if |data| < kPeriod + dPeriod + smooth - 2 || kPeriod <= 0 {
      return Lines([], []);
    }
    var rawK := RawKPhase(data, kPeriod);
    if smooth <= 0 {
      return Throws;
    }
    var kLine := MovingAverage(rawK, smooth);
    if dPeriod <= 0 {
      return Throws;
    }
    var dLine := MovingAverage(kLine, dPeriod);
    return Lines(kLine[dPeriod - 1..], dLine);
  }

  /** A line with its first m - 1 points dropped lines up, point for point, with its m-point average. */
  lemma TrimmedMatchesAverage(ps: seq<Point>, m: nat)
    requires 1 <= m <= |ps|
    ensures |ps[m - 1..]| == |Smoothed(ps, m)|
    ensures forall i :: 0 <= i < |ps| - m + 1 ==> ps[m - 1..][i].time == Smoothed(ps, m)[i].time
  {
    forall i | 0 <= i < |ps| - m + 1
      ensures ps[m - 1..][i].time == Smoothed(ps, m)[i].time
    {
      SmoothedAt(ps, m, i);
    }
  }

  /** Averaging a line over s points, then over d points, and trimming the first average by d - 1
      points gives two lines of equal length that agree in time and end at the line's last point. */
  lemma DoubleAverageAligned(raw: seq<Point>, d: nat, s: nat)
    requires d >= 1 && s >= 1 && |raw| >= d + s - 1
    ensures var kFull := Smoothed(raw, s);
      var kLine := kFull[d - 1..];
      var dLine := Smoothed(kFull, d);
      && |kLine| == |dLine| == |raw| - s - d + 2
      && (forall i :: 0 <= i < |kLine| ==> kLine[i].time == dLine[i].time)
      && kLine[|kLine| - 1].time == raw[|raw| - 1].time
  {
    var kFull := Smoothed(raw, s);
    SmoothedAt(raw, s, |raw| - s);
    TrimmedMatchesAverage(kFull, d);
  }

  /** The two lines have the same length n - kPeriod - smooth - dPeriod + 3, agree in time point for
      point, and both end at the last candle. */
  lemma LinesAligned(data: seq<Candle>, kPeriod: nat, dPeriod: nat, smooth: nat)
    requires kPeriod >= 1 && dPeriod >= 1 && smooth >= 1
    requires |data| >= kPeriod + dPeriod + smooth - 2
    ensures var r := StochasticLines(data, kPeriod, dPeriod, smooth);
      && |r.kLine| == |r.dLine| == |data| - kPeriod - smooth - dPeriod + 3
      && (forall i :: 0 <= i < |r.kLine| ==> r.kLine[i].time == r.dLine[i].time)
      && r.kLine[|r.kLine| - 1].time == data[|data| - 1].time
  {
    var raw := RawKLine(data, kPeriod);
    DoubleAverageAligned(raw, dPeriod, smooth);
    assert raw[|raw| - 1].time == data[|data| - 1].time;
  }

  /** Each %K value is the mean of `smooth` consecutive raw %K values, and each %D value the mean of
      `dPeriod` consecutive (untrimmed) %K values. */
  lemma LinesAreMeans(data: seq<Candle>, kPeriod: nat, dPeriod: nat, smooth: nat, i: nat)
    requires kPeriod >= 1 && dPeriod >= 1 && smooth >= 1
    requires |data| >= kPeriod + dPeriod + smooth - 2
    requires i < |data| - kPeriod - smooth - dPeriod + 3
    ensures var raw := RawKLine(data, kPeriod);
      var r := StochasticLines(data, kPeriod, dPeriod, smooth);
      && r.kLine[i].value == TrailingSum(Values(raw), i + dPeriod + smooth - 2, smooth) / smooth as real
      && r.dLine[i].value == TrailingSum(Values(Smoothed(raw, smooth)), i + dPeriod - 1, dPeriod) / dPeriod as real
  {
    DoubleAverageMeans(RawKLine(data, kPeriod), dPeriod, smooth, i);
  }

  /** The trimmed s-point average and the d-point average of it, at position i, as means. */
  lemma DoubleAverageMeans(raw: seq<Point>, d: nat, s: nat, i: nat)
    requires d >= 1 && s >= 1 && i + d + s - 2 < |raw|
    ensures var kFull := Smoothed(raw, s);
      && i < |kFull[d - 1..]| && i < |Smoothed(kFull, d)|
      && kFull[d - 1..][i].value == TrailingSum(Values(raw), i + d + s - 2, s) / s as real
      && Smoothed(kFull, d)[i].value == TrailingSum(Values(kFull), i + d - 1, d) / d as real
  {
    var kFull := Smoothed(raw, s);
    assert |kFull| == |raw| - s + 1;
    SmoothedAt(raw, s, i + d - 1);
    assert kFull[d - 1..][i] == kFull[i + d - 1];
    SmoothedAt(kFull, d, i);
  }

  /** On candles whose close lies within their own low and high, raw %K lies between 0 and 100. */
  lemma RawKIsPercent(data: seq<Candle>, i: int, kPeriod: nat)
    requires 1 <= kPeriod <= i + 1 <= |data|
    requires data[i].low <= data[i].close <= data[i].high
    ensures 0.0 <= RawK(data, i, kPeriod) <= 100.0
  {
    var hh := WindowHigh(data, i, kPeriod);
    var ll := WindowLow(data, i, kPeriod);
    if hh - ll != 0.0 {
      assert ll <= data[i].close <= hh;
      FractionIsPercent(data[i].close - ll, hh - ll);
    }
  }

  lemma FractionIsPercent(a: real, b: real)
    requires 0.0 <= a <= b && b != 0.0
    ensures 0.0 <= a / b * 100.0 <= 100.0
  {
    assert a / b <= 1.0;
  }

  /** The window's highest high and lowest low are attained by candles of the window. */
  lemma {:induction false} WindowAttained(data: seq<Candle>, i: int, m: nat)
    requires 1 <= m <= i + 1 <= |data|
    ensures exists j :: i - m < j <= i && data[j].high == WindowHigh(data, i, m)
    ensures exists j :: i - m < j <= i && data[j].low == WindowLow(data, i, m)
  {
    if m == 1 {
      assert data[i].high == WindowHigh(data, i, m) && data[i].low == WindowLow(data, i, m);
    } else {
      WindowAttained(data, i, m - 1);
      var jh :| i - (m - 1) < jh <= i && data[jh].high == WindowHigh(data, i, m - 1);
      var jl :| i - (m - 1) < jl <= i && data[jl].low == WindowLow(data, i, m - 1);
      var e := i - (m - 1);
      assert data[if data[e].high > data[jh].high then e else jh].high == WindowHigh(data, i, m);
      assert data[if data[e].low < data[jl].low then e else jl].low == WindowLow(data, i, m);
    }
  }

  /** A flat window gives exactly 50. */
  lemma FlatWindowIsFifty(data: seq<Candle>, i: int, kPeriod: nat, c: real)
    requires 1 <= kPeriod <= i + 1 <= |data|
    requires forall j :: i - kPeriod < j <= i ==> data[j].high == c && data[j].low == c
    ensures RawK(data, i, kPeriod) == 50.0
  {
    WindowAttained(data, i, kPeriod);
  }
}
