/**
 * Volume histogram (src/utils/indicators/volume.js): one coloured bar per candle.
 */
module Volume {
  import opened Series

  const DefaultUpColor: string := "#089981"
  const DefaultDownColor: string := "#F23645"

  /** One histogram bar. */
  datatype Bar = Bar(time: real, value: real, color: string)

  /** The bar of one candle: up-coloured when the candle did not close below its open. */
  function BarOf(c: Candle, upColor: string, downColor: string): Bar {
    Bar(c.time, VolumeOrZero(c), if c.close >= c.open then upColor else downColor)
  }

  /** calculateVolume: one bar per candle, index for index. */
  function CalculateVolume(data: seq<Candle>, upColor: string, downColor: string): (r: seq<Bar>)
    ensures data == [] ==> r == []
    ensures |r| == |data|
    ensures forall i :: 0 <= i < |data| ==> r[i].time == data[i].time && r[i].value == VolumeOrZero(data[i])
    ensures forall i :: 0 <= i < |data| && data[i].close >= data[i].open ==> r[i].color == upColor
    ensures forall i :: 0 <= i < |data| && data[i].close < data[i].open ==> r[i].color == downColor
  {
    if |data| == 0 then []
    else seq(|data|, i requires 0 <= i < |data| => BarOf(data[i], upColor, downColor))
  }

  /** Appending candles appends their bars and leaves the earlier bars as they were. */
  lemma VolumeOfAppend(data: seq<Candle>, more: seq<Candle>, upColor: string, downColor: string)
    ensures CalculateVolume(data + more, upColor, downColor)
         == CalculateVolume(data, upColor, downColor) + CalculateVolume(more, upColor, downColor)
  {
    var whole := CalculateVolume(data + more, upColor, downColor);
    var parts := CalculateVolume(data, upColor, downColor) + CalculateVolume(more, upColor, downColor);
    forall i | 0 <= i < |whole|
      ensures whole[i] == parts[i]
    {
      if i < |data| {
        assert (data + more)[i] == data[i];
      } else {
        assert (data + more)[i] == more[i - |data|];
      }
    }
  }
}
