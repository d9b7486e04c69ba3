/**
 * Volume-weighted average price (src/utils/indicators/vwap.js): cumulative typical price times
 * volume over cumulative volume, optionally restarted on each new calendar day. The calendar day of
 * a time stamp is an uninterpreted function `dayOf` (the source compares local date strings).
 */
module Vwap {
  import opened Wrappers
  import opened Series

  /** The loop state: cumulative TP*volume, cumulative volume and the day of the last candle that
      carried volume (kept only when resetting daily). */
  datatype Acc = Acc(tpv: real, vol: real, lastDay: Option<int>)

  const Start: Acc := Acc(0.0, 0.0, None)

  /** (high + low + close) / 3 */
  function TypicalPrice(c: Candle): real {
    (c.high + c.low + c.close) / 3.0
  }

  /** TP * volume of one candle. */
  function Weighted(c: Candle): real {
    TypicalPrice(c) * VolumeOrZero(c)
  }

  lemma WeightedOf(c: Candle, tp: real, v: real)
    requires tp == TypicalPrice(c) && v == VolumeOrZero(c)
    ensures tp * v == Weighted(c)
  {
  }

  /** The state after a candle with non-zero volume: restart the sums on a new day, then add it. */
  function Absorb(a: Acc, c: Candle, resetDaily: bool, dayOf: real -> int): (r: Acc)
    requires VolumeOrZero(c) != 0.0
    ensures resetDaily ==> r.lastDay == Some(dayOf(c.time))
    ensures !resetDaily ==> r == Acc(a.tpv + Weighted(c), a.vol + VolumeOrZero(c), a.lastDay)
  {
    var base := if resetDaily && a.lastDay.Some? && dayOf(c.time) != a.lastDay.value then Acc(0.0, 0.0, a.lastDay) else a;
    var day := if resetDaily then Some(dayOf(c.time)) else base.lastDay;
    Acc(base.tpv + Weighted(c), base.vol + VolumeOrZero(c), day)
  }

  /** The state after one more candle: a candle without volume leaves it as it was. */
  function NextAcc(a: Acc, c: Candle, resetDaily: bool, dayOf: real -> int): Acc {
    if VolumeOrZero(c) == 0.0 then a else Absorb(a, c, resetDaily, dayOf)
  }

  /** The state after the whole series. */
  function AccAfter(data: seq<Candle>, resetDaily: bool, dayOf: real -> int): Acc
  {
    if data == [] then Start
    else NextAcc(AccAfter(data[..|data| - 1], resetDaily, dayOf), data[|data| - 1], resetDaily, dayOf)
  }

  /** The VWAP value of a candle with volume, given the state after it. */
  function Average(a: Acc, c: Candle): real {
    if a.vol > 0.0 then a.tpv / a.vol else TypicalPrice(c)
  }

  /** The value emitted for candle c, given the line so far and the state before c: a candle without
      volume repeats the last value (its own typical price when it is the first). */
  function StepValue(prev: seq<Point>, a: Acc, c: Candle, resetDaily: bool, dayOf: real -> int): real {
    if VolumeOrZero(c) == 0.0 then (if prev != [] then prev[|prev| - 1].value else TypicalPrice(c))
    else Average(Absorb(a, c, resetDaily, dayOf), c)
  }

  /** The VWAP line of the whole series, built candle by candle. */
  function VwapLine(data: seq<Candle>, resetDaily: bool, dayOf: real -> int): (r: seq<Point>)
    ensures |r| == |data|
    ensures forall i :: 0 <= i < |data| ==> r[i].time == data[i].time
  {
    if data == [] then []
    else
      var init := data[..|data| - 1];
      var prev := VwapLine(init, resetDaily, dayOf);
      var c := data[|data| - 1];
      prev + [Point(c.time, StepValue(prev, AccAfter(init, resetDaily, dayOf), c, resetDaily, dayOf))]
  }

  /** One more candle: the line grows by one point and the state by that candle. */
  lemma VwapStep(data: seq<Candle>, i: nat, resetDaily: bool, dayOf: real -> int)
    requires i < |data|
    ensures AccAfter(data[..i + 1], resetDaily, dayOf) == NextAcc(AccAfter(data[..i], resetDaily, dayOf), data[i], resetDaily, dayOf)
    ensures VwapLine(data[..i + 1], resetDaily, dayOf) == VwapLine(data[..i], resetDaily, dayOf) +
      [Point(data[i].time, StepValue(VwapLine(data[..i], resetDaily, dayOf), AccAfter(data[..i], resetDaily, dayOf), data[i], resetDaily, dayOf))]
  {
    assert data[..i + 1][..i] == data[..i];
  }

  /** The loop's update for a candle with volume: restart the sums when resetting daily and the
      candle's day differs from the remembered one, remember its day, then add its TP * volume and
      its volume. */
  method Accumulate(cumTpv: real, cumVolume: real, lastDate: Option<int>, candle: Candle, volume: real,
                    resetDaily: bool, dayOf: real -> int)
    returns (tpv: real, vol: real, day: Option<int>)
    requires volume == VolumeOrZero(candle) && volume != 0.0
    ensures Acc(tpv, vol, day) == Absorb(Acc(cumTpv, cumVolume, lastDate), candle, resetDaily, dayOf)
  {
    tpv, vol, day := cumTpv, cumVolume, lastDate;
    if resetDaily {
      var currentDate := dayOf(candle.time);
      if day.Some? && currentDate != day.value {
        tpv := 0.0;
        vol := 0.0;
      }
      day := Some(currentDate);
    }
    var typicalPrice := (candle.high + candle.low + candle.close) / 3.0;
    WeightedOf(candle, typicalPrice, volume);
    tpv := tpv + typicalPrice * volume;
    vol := vol + volume;
  }

  /** calculateVWAP */
  method CalculateVwap(data: seq<Candle>, resetDaily: bool, dayOf: real -> int) returns (vwap: seq<Point>)
    ensures vwap == VwapLine(data, resetDaily, dayOf)
  {
    if |data| == 0 {
      return [];
    }
    vwap := [];
    var cumTpv := 0.0;
    var cumVolume := 0.0;
    var lastDate: Option<int> := None;
    var i := 0;
    while i < |data|
      invariant 0 <= i <= |data|
      invariant vwap == VwapLine(data[..i], resetDaily, dayOf)
      invariant Acc(cumTpv, cumVolume, lastDate) == AccAfter(data[..i], resetDaily, dayOf)
    {
      VwapStep(data, i, resetDaily, dayOf);
      ghost var acc := Acc(cumTpv, cumVolume, lastDate);
      var candle := data[i];
      var volume := candle.volume.GetOr(0.0);
      if volume == 0.0 {
        var typicalPrice := (candle.high + candle.low + candle.close) / 3.0;
        var fallbackValue := if |vwap| > 0 then vwap[|vwap| - 1].value else typicalPrice;
        assert fallbackValue == StepValue(vwap, acc, candle, resetDaily, dayOf);
        vwap := vwap + [Point(candle.time, fallbackValue)];
        i := i + 1;
        continue;
      }
      cumTpv, cumVolume, lastDate := Accumulate(cumTpv, cumVolume, lastDate, candle, volume, resetDaily, dayOf);
      var typicalPrice := (candle.high + candle.low + candle.close) / 3.0;
      var value := if cumVolume > 0.0 then cumTpv / cumVolume else typicalPrice;
      assert value == StepValue(vwap, acc, candle, resetDaily, dayOf);
      vwap := vwap + [Point(candle.time, value)];
      i := i + 1;
    }
    assert data[..i] == data;
  }

  /** The line of a prefix is the prefix of the line: later candles never change earlier values. */
  lemma {:induction false} VwapIsCausal(data: seq<Candle>, k: nat, resetDaily: bool, dayOf: real -> int)
    requires k <= |data|
    ensures VwapLine(data[..k], resetDaily, dayOf) == VwapLine(data, resetDaily, dayOf)[..k]
  {
    if k < |data| {
      var init := data[..|data| - 1];
      assert data[..k] == init[..k];
      VwapIsCausal(init, k, resetDaily, dayOf);
    } else {
      assert data[..k] == data;
    }
  }

  /** Value i of the line: a candle without volume repeats the previous value (its own typical price
      when it is the first), and adds nothing to the sums; a candle with volume gets the average of
      the state after it. */
  lemma VwapAt(data: seq<Candle>, i: nat, resetDaily: bool, dayOf: real -> int)
    requires i < |data|
    ensures var line := VwapLine(data, resetDaily, dayOf);
      var c := data[i];
      && (VolumeOrZero(c) == 0.0 && i > 0 ==> line[i].value == line[i - 1].value)
      && (VolumeOrZero(c) == 0.0 && i == 0 ==> line[i].value == TypicalPrice(c))
      && (VolumeOrZero(c) == 0.0 ==> AccAfter(data[..i + 1], resetDaily, dayOf) == AccAfter(data[..i], resetDaily, dayOf))
      && (VolumeOrZero(c) != 0.0 ==> line[i].value == Average(AccAfter(data[..i + 1], resetDaily, dayOf), c))
  {
    var line := VwapLine(data, resetDaily, dayOf);
    VwapIsCausal(data, i + 1, resetDaily, dayOf);
    assert data[..i + 1][..i] == data[..i];
    var pre := VwapLine(data[..i + 1], resetDaily, dayOf);
    assert pre == line[..i + 1];
    assert pre[i] == line[i];
    if i > 0 {
      assert pre[i - 1] == line[i - 1];
    }
  }

  /** Sum of TP*volume over a series (candles without volume contribute nothing). */
  function SumTpv(data: seq<Candle>): real {
    if data == [] then 0.0 else SumTpv(data[..|data| - 1]) + Weighted(data[|data| - 1])
  }

  /** Sum of volume over a series. */
  function SumVolume(data: seq<Candle>): real {
    if data == [] then 0.0 else SumVolume(data[..|data| - 1]) + VolumeOrZero(data[|data| - 1])
  }

  /** Without daily reset the state holds the plain sums over the whole series. */
  lemma {:induction false} NoResetIsCumulative(data: seq<Candle>, dayOf: real -> int)
    ensures AccAfter(data, false, dayOf) == Acc(SumTpv(data), SumVolume(data), None)
  {
    if data != [] {
      NoResetIsCumulative(data[..|data| - 1], dayOf);
    }
  }

  /** Hence, without daily reset, a candle with volume gets sum(TP*volume) / sum(volume) over
      all candles up to it, when that volume is positive. */
  lemma NoResetValue(data: seq<Candle>, i: nat, dayOf: real -> int)
    requires i < |data| && VolumeOrZero(data[i]) != 0.0
    requires SumVolume(data[..i + 1]) > 0.0
    ensures VwapLine(data, false, dayOf)[i].value == SumTpv(data[..i + 1]) / SumVolume(data[..i + 1])
  {
    VwapAt(data, i, false, dayOf);
    NoResetIsCumulative(data[..i + 1], dayOf);
  }

  /** With daily reset, a state that has no day yet has seen no candle with volume. */
  lemma {:induction false} NoDayMeansStart(data: seq<Candle>, dayOf: real -> int)
    requires AccAfter(data, true, dayOf).lastDay.None?
    ensures AccAfter(data, true, dayOf) == Start
  {
    if data != [] {
      NoDayMeansStart(data[..|data| - 1], dayOf);
    }
  }

  /** With daily reset, a session opens at candle j when j has volume and the remembered day differs
      from j's (or there is none). If every candle with volume from j to n - 1 is on j's day, the
      state after n candles holds exactly the sums over candles j .. n - 1. */
  lemma {:induction false} SessionSums(data: seq<Candle>, j: nat, n: nat, dayOf: real -> int)
    requires j < n <= |data|
    requires VolumeOrZero(data[j]) != 0.0
    requires AccAfter(data[..j], true, dayOf).lastDay != Some(dayOf(data[j].time))
    requires forall k :: j <= k < n && VolumeOrZero(data[k]) != 0.0 ==> dayOf(data[k].time) == dayOf(data[j].time)
    ensures AccAfter(data[..n], true, dayOf) == Acc(SumTpv(data[j..n]), SumVolume(data[j..n]), Some(dayOf(data[j].time)))
  {
    var day := dayOf(data[j].time);
    assert data[..n][..n - 1] == data[..n - 1];
    assert data[j..n][..n - 1 - j] == data[j..n - 1];
    if n == j + 1 {
      var before := AccAfter(data[..j], true, dayOf);
      if before.lastDay.None? {
        NoDayMeansStart(data[..j], dayOf);
      }
      assert data[j..n][..0] == [];
    } else {
      SessionSums(data, j, n - 1, dayOf);
    }
  }
}
