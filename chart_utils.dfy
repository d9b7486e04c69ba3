/**
 * Heikin-Ashi candles (calculateHeikinAshi in src/utils/chartUtils.js). The result candles carry no
 * volume.
 */
module ChartUtils {
  import opened Wrappers
  import opened Series

  function Max3(a: real, b: real, c: real): (r: real)
    ensures r >= a && r >= b && r >= c && (r == a || r == b || r == c)
  {
    if a >= b && a >= c then a else if b >= c then b else c
  }

  function Min3(a: real, b: real, c: real): (r: real)
    ensures r <= a && r <= b && r <= c && (r == a || r == b || r == c)
  {
    if a <= b && a <= c then a else if b <= c then b else c
  }

  /** (o + h + l + c) / 4 */
  function OhlcMean(c: Candle): real {
    (c.open + c.high + c.low + c.close) / 4.0
  }

  /** The first Heikin-Ashi candle: open is the mean of open and close, close the OHLC mean, high and
      low are the candle's own. */
  function HaFirst(c: Candle): Candle {
    Candle(c.time, (c.open + c.close) / 2.0, c.high, c.low, OhlcMean(c), None)
  }

  /** A later Heikin-Ashi candle: open is the midpoint of the previous HA body, close the OHLC mean,
      and high and low stretch to cover both and the candle's own extreme. */
  function HaNext(prev: Candle, c: Candle): Candle {
    var haClose := OhlcMean(c);
    var haOpen := (prev.open + prev.close) / 2.0;
    Candle(c.time, haOpen, Max3(c.high, haOpen, haClose), Min3(c.low, haOpen, haClose), haClose, None)
  }

  /** The Heikin-Ashi series, one candle per input candle. */
  function HaLine(data: seq<Candle>): (r: seq<Candle>)
    ensures |r| == |data|
    ensures forall i :: 0 <= i < |data| ==> r[i].time == data[i].time
  {
    if data == [] then []
    else if |data| == 1 then [HaFirst(data[0])]
    else
      var prev := HaLine(data[..|data| - 1]);
      prev + [HaNext(prev[|prev| - 1], data[|data| - 1])]
  }

  /** One more input candle adds one HA candle, computed from the last one so far. */
  lemma HaStep(data: seq<Candle>, i: nat)
    requires 1 <= i < |data|
    ensures HaLine(data[..i + 1]) == HaLine(data[..i]) + [HaNext(HaLine(data[..i])[i - 1], data[i])]
  {
    assert data[..i + 1][..i] == data[..i];
  }

  /** calculateHeikinAshi */
  method CalculateHeikinAshi(data: seq<Candle>) returns (ha: seq<Candle>)
    ensures ha == HaLine(data)
  {
    if |data| == 0 {
      return [];
    }
    var prevHa := Candle(data[0].time, (data[0].open + data[0].close) / 2.0, data[0].high, data[0].low,
                         (data[0].open + data[0].high + data[0].low + data[0].close) / 4.0, None);
    ha := [prevHa];
    assert data[..1] == [data[0]] && prevHa == HaFirst(data[0]);
    var i := 1;
    while i < |data|
      invariant 1 <= i <= |data|
      invariant ha == HaLine(data[..i]) && prevHa == ha[i - 1]
    {
      var curr := data[i];
      var haClose := (curr.open + curr.high + curr.low + curr.close) / 4.0;
      var haOpen := (prevHa.open + prevHa.close) / 2.0;
      var haHigh := Max3(curr.high, haOpen, haClose);
      var haLow := Min3(curr.low, haOpen, haClose);
      var haCandle := Candle(curr.time, haOpen, haHigh, haLow, haClose, None);
      assert haCandle == HaNext(prevHa, curr);
      HaStep(data, i);
      ha := ha + [haCandle];
      prevHa := haCandle;
      i := i + 1;
    }
    assert data[..i] == data;
  }

  /** The series of a prefix is the prefix of the series. */
  lemma {:induction false} HaIsCausal(data: seq<Candle>, k: nat)
    requires 1 <= k <= |data|
    ensures HaLine(data[..k]) == HaLine(data)[..k]
  {
    if k < |data| {
      var init := data[..|data| - 1];
      assert data[..k] == init[..k];
      HaIsCausal(init, k);
    } else {
      assert data[..k] == data;
    }
  }

  /** Candle 0 is HaFirst of the first input, and each later candle is HaNext of its predecessor. */
  lemma HaAt(data: seq<Candle>, i: nat)
    requires i < |data|
    ensures i == 0 ==> HaLine(data)[0] == HaFirst(data[0])
    ensures i > 0 ==> HaLine(data)[i] == HaNext(HaLine(data)[i - 1], data[i])
  {
    HaIsCausal(data, i + 1);
    if i == 0 {
      assert data[..1] == [data[0]];
    } else {
      HaStep(data, i);
      HaIsCausal(data, i);
    }
  }

  /** From the second candle on, high covers the HA open, the HA close and the raw high, and low is
      below all three; so every such candle is well formed. */
  lemma HaEnvelope(data: seq<Candle>, i: nat)
    requires 1 <= i < |data|
    ensures var h := HaLine(data)[i];
      && h.high >= h.open && h.high >= h.close && h.high >= data[i].high
      && h.low <= h.open && h.low <= h.close && h.low <= data[i].low
  {
    HaAt(data, i);
  }

  /** A candle whose low and high enclose its open and close. */
  predicate WellFormed(c: Candle) {
    c.low <= c.open && c.low <= c.close && c.open <= c.high && c.close <= c.high
  }

  /** If the first input candle is well formed, so is every Heikin-Ashi candle. */
  lemma HaWellFormed(data: seq<Candle>)
    requires |data| > 0 && WellFormed(data[0])
    ensures forall i :: 0 <= i < |data| ==> WellFormed(HaLine(data)[i])
  {
    forall i | 0 <= i < |data|
      ensures WellFormed(HaLine(data)[i])
    {
      HaAt(data, i);
      if i > 0 {
        HaEnvelope(data, i);
      }
    }
  }

  /** The HA close is always the OHLC mean of its own candle. */
  lemma HaCloseIsMean(data: seq<Candle>, i: nat)
    requires i < |data|
    ensures HaLine(data)[i].close == OhlcMean(data[i])
  {
    HaAt(data, i);
  }
}
