/**
 * Price series as the chart consumes them: candles in, indicator points out,
 * plus the sums and list filters that the feeds and indicators share.
 */
module Series {
  import opened Wrappers

  /** One bar of a price series. `time` is in seconds; `volume` is absent for feeds that do not carry it. */
  datatype Candle = Candle(time: real, open: real, high: real, low: real, close: real, volume: Option<real>)

  /** One sample of an indicator line. */
  datatype Point = Point(time: real, value: real)

  /** One row of a watchlist: last price, session open and the change against a reference price.
      `chgP` is absent where the source divides by zero and produces a non-finite number. */
  datatype WatchUpdate = WatchUpdate(symbol: string, last: real, open: real, chg: real, chgP: Option<real>)

  /** `candle.volume || 0`: the volume, with an absent volume read as 0. */
  function VolumeOrZero(c: Candle): (v: real)
    ensures c.volume.Some? ==> v == c.volume.value
    ensures c.volume.None? ==> v == 0.0
  {
    c.volume.GetOr(0.0)
  }

  /** The close of every candle, index for index. */
  function Closes(data: seq<Candle>): (r: seq<real>)
    ensures |r| == |data|
    ensures forall i :: 0 <= i < |data| ==> r[i] == data[i].close
  {
    seq(|data|, i requires 0 <= i < |data| => data[i].close)
  }

  /** The (time, close) line of a candle series. */
  function ClosePoints(data: seq<Candle>): (r: seq<Point>)
    ensures |r| == |data|
    ensures forall i :: 0 <= i < |data| ==> r[i] == Point(data[i].time, data[i].close)
  {
    seq(|data|, i requires 0 <= i < |data| => Point(data[i].time, data[i].close))
  }

  /** The value of every point, index for index. */
  function Values(ps: seq<Point>): (r: seq<real>)
    ensures |r| == |ps|
    ensures forall i :: 0 <= i < |ps| ==> r[i] == ps[i].value
  {
    seq(|ps|, i requires 0 <= i < |ps| => ps[i].value)
  }

  /** xs[i] + xs[i-1] + ... + xs[i-m+1]: the m samples ending at index i, added newest first
      (the order in which the indicator loops accumulate them). */
  function TrailingSum(xs: seq<real>, i: int, m: nat): real
    requires 0 <= i < |xs| && m <= i + 1
  {
    if m == 0 then 0.0 else TrailingSum(xs, i, m - 1) + xs[i - (m - 1)]
  }

  /** A window whose samples all equal c sums to m * c. */
  lemma {:induction false} TrailingSumConstant(xs: seq<real>, i: int, m: nat, c: real)
    requires 0 <= i < |xs| && m <= i + 1
    requires forall j :: i - m < j <= i ==> xs[j] == c
    ensures TrailingSum(xs, i, m) == m as real * c
  {
    if m > 0 {
      TrailingSumConstant(xs, i, m - 1, c);
    }
  }

  /** Dividing m copies of c by m gives c back. */
  lemma MeanOfEqual(s: real, p: real, c: real)
    requires p > 0.0 && s == p * c
    ensures s / p == c
  {
  }

  /** Two series that agree on a window have the same trailing sum over it. */
  lemma {:induction false} TrailingSumLocal(xs: seq<real>, ys: seq<real>, i: int, m: nat)
    requires 0 <= i < |xs| && i < |ys| && m <= i + 1
    requires forall j :: i - m < j <= i ==> xs[j] == ys[j]
    ensures TrailingSum(xs, i, m) == TrailingSum(ys, i, m)
  {
    if m > 0 {
      TrailingSumLocal(xs, ys, i, m - 1);
    }
  }

  /** The simple moving average of a line over windows of m samples: one point per complete window,
      stamped with the time of the window's last sample. */
  function Smoothed(ps: seq<Point>, m: nat): (r: seq<Point>)
    requires m >= 1
    ensures |r| == if |ps| < m then 0 else |ps| - m + 1
  {
    if |ps| < m then []
    else seq(|ps| - m + 1, q requires 0 <= q < |ps| - m + 1 =>
               Point(ps[q + m - 1].time, TrailingSum(Values(ps), q + m - 1, m) / m as real))
  }

  /** Output q of a moving average is the mean of the m input values ending at input q + m - 1, at that input's time. */
  lemma SmoothedAt(ps: seq<Point>, m: nat, q: nat)
    requires m >= 1 && q + m <= |ps|
    ensures q < |Smoothed(ps, m)|
    ensures Smoothed(ps, m)[q].time == ps[q + m - 1].time
    ensures Smoothed(ps, m)[q].value == TrailingSum(Values(ps), q + m - 1, m) / m as real
  {
  }

  /** Keeps f(x) for every x on which f is defined, in input order (a map followed by a filter). */
  function KeepSome<A, B>(xs: seq<A>, f: A -> Option<B>): (r: seq<B>)
    ensures |r| <= |xs|
  {
    if xs == [] then []
    else
      var rest := KeepSome(xs[..|xs| - 1], f);
      match f(xs[|xs| - 1])
      case Some(y) => rest + [y]
      case None => rest
  }

  /** The input positions that KeepSome keeps, in increasing order. */
  function KeptIndices<A, B>(xs: seq<A>, f: A -> Option<B>): seq<nat>
  {
    if xs == [] then []
    else
      var rest := KeptIndices(xs[..|xs| - 1], f);
      if f(xs[|xs| - 1]).Some? then rest + [|xs| - 1] else rest
  }

  /** r is exactly the defined images f(xs[idx[k]]), where idx lists, in increasing order,
      every position of xs on which f is defined. */
  ghost predicate SelectsInOrder<A, B>(xs: seq<A>, f: A -> Option<B>, r: seq<B>, idx: seq<nat>)
  {
    && |idx| == |r|
    && (forall k :: 0 <= k < |idx| ==> idx[k] < |xs| && f(xs[idx[k]]) == Some(r[k]))
    && (forall k, l :: 0 <= k < l < |idx| ==> idx[k] < idx[l])
    && (forall i :: 0 <= i < |xs| && f(xs[i]).Some? ==> i in idx)
  }

  /** KeepSome keeps exactly the elements on which f is defined, and keeps them in input order. */
  lemma {:induction false} KeepSomeSelects<A, B>(xs: seq<A>, f: A -> Option<B>)
    ensures SelectsInOrder(xs, f, KeepSome(xs, f), KeptIndices(xs, f))
  {
    if xs != [] {
      var init := xs[..|xs| - 1];
      KeepSomeSelects(init, f);
      var idx, r := KeptIndices(init, f), KeepSome(init, f);
      forall k | 0 <= k < |idx|
        ensures idx[k] < |init| && xs[idx[k]] == init[idx[k]]
      {
      }
    }
  }
}
