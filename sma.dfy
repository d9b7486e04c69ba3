/**
 * Simple moving average of closes (src/utils/indicators/sma.js).
 */
module Sma {
  import opened Series

  /** calculateSMA: one point per complete window of `period` candles, stamped with the time of the
      window's last candle and valued at the mean of its closes; [] for a non-positive period. */
  method CalculateSma(data: seq<Candle>, period: int) returns (sma: seq<Point>)
    ensures period <= 0 ==> sma == []
    ensures period >= 1 ==> sma == Smoothed(ClosePoints(data), period)
  {
    if period <= 0 {
      return [];
    }
    ghost var closes := Closes(data);
    sma := [];
    var i := 0;
    while i < |data|
      invariant 0 <= i <= |data|
      invariant |sma| == if i < period then 0 else i - period + 1
      invariant forall q :: 0 <= q < |sma| ==>
        sma[q] == Point(data[q + period - 1].time, TrailingSum(closes, q + period - 1, period) / period as real)
    {
      if i < period - 1 {
        i := i + 1;
        continue;
      }
      var sum := 0.0;
      var j := 0;
      while j < period
        invariant 0 <= j <= period
        invariant sum == TrailingSum(closes, i, j)
      {
        sum := sum + data[i - j].close;
        j := j + 1;
      }
      sma := sma + [Point(data[i].time, sum / period as real)];
      i := i + 1;
    }
    assert Values(ClosePoints(data)) == closes;
  }

  /** Output k is the mean of the closes of candles k .. k + period - 1, at the time of candle
      k + period - 1; there are max(0, n - period + 1) outputs. */
  lemma SmaAt(data: seq<Candle>, period: nat, k: nat)
    requires period >= 1 && k + period <= |data|
    ensures |Smoothed(ClosePoints(data), period)| == |data| - period + 1
    ensures Smoothed(ClosePoints(data), period)[k].time == data[k + period - 1].time
    ensures Smoothed(ClosePoints(data), period)[k].value == TrailingSum(Closes(data), k + period - 1, period) / period as real
  {
    SmoothedAt(ClosePoints(data), period, k);
    assert Values(ClosePoints(data)) == Closes(data);
  }

  /** With period 1 the average is the close series itself. */
  lemma SmaOfPeriodOne(data: seq<Candle>)
    ensures Smoothed(ClosePoints(data), 1) == ClosePoints(data)
  {
    var r := Smoothed(ClosePoints(data), 1);
    forall k | 0 <= k < |data|
      ensures r[k] == ClosePoints(data)[k]
    {
      SmaAt(data, 1, k);
    }
  }

  /** A series whose closes all equal c averages to c everywhere. */
  lemma SmaOfConstant(data: seq<Candle>, period: nat, c: real)
    requires period >= 1
    requires forall i :: 0 <= i < |data| ==> data[i].close == c
    ensures forall k :: 0 <= k < |Smoothed(ClosePoints(data), period)| ==> Smoothed(ClosePoints(data), period)[k].value == c
  {
    var r := Smoothed(ClosePoints(data), period);
    var closes := Closes(data);
    forall k | 0 <= k < |r|
      ensures r[k].value == c
    {
      SmaAt(data, period, k);
      var n := k + period - 1;
      TrailingSumConstant(closes, n, period, c);
      MeanOfEqual(TrailingSum(closes, n, period), period as real, c);
    }
  }

  /** Appending candles never changes an average already computed: the old outputs are a prefix of the
      new ones. */
  lemma SmaIsCausal(data: seq<Candle>, more: seq<Candle>, period: nat)
    requires period >= 1
    ensures var old_ := Smoothed(ClosePoints(data), period);
      var new_ := Smoothed(ClosePoints(data + more), period);
      |old_| <= |new_| && new_[..|old_|] == old_
  {
    var old_ := Smoothed(ClosePoints(data), period);
    var new_ := Smoothed(ClosePoints(data + more), period);
    forall k | 0 <= k < |old_|
      ensures new_[k] == old_[k]
    {
      SmaAt(data, period, k);
      SmaAt(data + more, period, k);
      TrailingSumLocal(Closes(data), Closes(data + more), k + period - 1, period);
    }
  }
}
