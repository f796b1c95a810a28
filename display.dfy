/**
 * What the page hands to the two chart series and to the header: a candle
 * and a volume column per shown bar, and the last close with its change
 * against the close before it.
 */
module Display {
  import opened Wrappers
  import opened Calendar
  import opened Bars
  import opened PeriodFilter

  /** Korean convention: red for a rise, blue for a fall; '99' makes the volume columns translucent. */
  const UP_COLOR := "#ff4b4b"
  const DOWN_COLOR := "#4b8fff"
  const VOLUME_ALPHA := "99"

  datatype Candle = Candle(time: Day, open: int, high: int, low: int, close: int)
  datatype VolumePoint = VolumePoint(time: Day, value: int, color: string)

  /** A rising or unchanged day gets the up colour, a falling one the down colour. */
  function VolumeColor(b: Bar): (c: string)
    ensures c == UP_COLOR + VOLUME_ALPHA || c == DOWN_COLOR + VOLUME_ALPHA
    ensures c == UP_COLOR + VOLUME_ALPHA <==> b.close >= b.open
  {
    if b.close >= b.open then UP_COLOR + VOLUME_ALPHA
    else
      assert (UP_COLOR + VOLUME_ALPHA)[1] != (DOWN_COLOR + VOLUME_ALPHA)[1];
      DOWN_COLOR + VOLUME_ALPHA
  }

  /** The candlestick points: every bar without its volume. */
  function CandleData(s: seq<Bar>): (r: seq<Candle>)
    ensures |r| == |s|
    ensures forall i :: 0 <= i < |s| ==>
      r[i].time == s[i].time && r[i].open == s[i].open && r[i].high == s[i].high
      && r[i].low == s[i].low && r[i].close == s[i].close
  {
    seq(|s|, i requires 0 <= i < |s| => Candle(s[i].time, s[i].open, s[i].high, s[i].low, s[i].close))
  }

  /** The volume columns: every bar's volume, coloured by whether it closed at or above its open. */
  function VolumeData(s: seq<Bar>): (r: seq<VolumePoint>)
    ensures |r| == |s|
    ensures forall i :: 0 <= i < |s| ==>
      r[i].time == s[i].time && r[i].value == s[i].volume
      && (r[i].color == UP_COLOR + VOLUME_ALPHA <==> s[i].close >= s[i].open)
  {
    seq(|s|, i requires 0 <= i < |s| => VolumePoint(s[i].time, s[i].volume, VolumeColor(s[i])))
  }

  /** Puts a candle and its volume column back together into a bar. */
  function Rejoin(c: seq<Candle>, v: seq<VolumePoint>): (r: seq<Bar>)
    requires |c| == |v|
    ensures |r| == |c|
  {
    seq(|c|, i requires 0 <= i < |c| => Bar(c[i].time, c[i].open, c[i].high, c[i].low, c[i].close, v[i].value))
  }

  /** The two projections lose nothing: together they give back the series. */
  lemma ProjectionsRejoin(s: seq<Bar>)
    ensures Rejoin(CandleData(s), VolumeData(s)) == s
  {
    var r := Rejoin(CandleData(s), VolumeData(s));
    forall i | 0 <= i < |s|
      ensures r[i] == s[i]
    {
    }
  }

  datatype ChangeClass = Up | Down | Flat

  /** The header's style: 'up' for a rise, 'down' for a fall, 'flat' for no change. */
  function ClassifyChange(diff: int): (c: ChangeClass)
    ensures c == Up <==> diff > 0
    ensures c == Down <==> diff < 0
    ensures c == Flat <==> diff == 0
  {
    if diff > 0 then Up else if diff < 0 then Down else Flat
  }

  /** A '+' for a rise or no change; a fall carries its own minus sign. */
  function SignPrefix(diff: int): (s: string)
    ensures s == "+" <==> diff >= 0
    ensures s == "" <==> diff < 0
  {
    if diff >= 0 then "+" else ""
  }

  /** The change shown next to the price: the difference of the last two closes. */
  datatype PriceChange = PriceChange(diff: int, sign: string, cls: ChangeClass)

  /** The header: the last close, and the change when there is a bar before it. */
  datatype PriceHeader = PriceHeader(price: int, change: Option<PriceChange>)

  /**
   * The page reads the last bar unconditionally, so the series must not be
   * empty; with a single bar the change is left alone.
   */
  function Header(data: seq<Bar>): (h: PriceHeader)
    requires |data| > 0
    ensures h.price == Last(data).close
    ensures h.change.Some? <==> |data| >= 2
    ensures h.change.Some? ==> h.change.value.diff == data[|data| - 1].close - data[|data| - 2].close
    ensures h.change.Some? ==>
      (h.change.value.cls == Up <==> data[|data| - 1].close > data[|data| - 2].close)
      && (h.change.value.cls == Down <==> data[|data| - 1].close < data[|data| - 2].close)
      && (h.change.value.cls == Flat <==> data[|data| - 1].close == data[|data| - 2].close)
      && (h.change.value.sign == "+" <==> h.change.value.cls != Down)
  {
    var last := data[|data| - 1];
    if |data| >= 2 then
      var prev := data[|data| - 2];
      var diff := last.close - prev.close;
      PriceHeader(last.close, Some(PriceChange(diff, SignPrefix(diff), ClassifyChange(diff))))
    else
      PriceHeader(last.close, None)
  }

  /** Everything one press of a period button puts on screen. */
  datatype View = View(candles: seq<Candle>, volumes: seq<VolumePoint>, info: Option<Bar>, header: PriceHeader)

  /**
   * Filters the series for the period, projects it onto both charts, and
   * shows the last shown bar in the summary panel and the header.
   */
  function ApplyData(all: seq<Bar>, token: string, from: Day): (v: View)
    requires |all| > 0 && from <= Last(all).time
    ensures |v.candles| == |v.volumes| > 0
    ensures forall i :: 0 <= i < |v.candles| ==> v.candles[i].time == v.volumes[i].time
    ensures v.info == Some(Last(all)) && v.header.price == Last(all).close
    ensures ParsePeriod(token) == Whole ==> Rejoin(v.candles, v.volumes) == all
    ensures Rejoin(v.candles, v.volumes) == FilterData(all, token, from)
    ensures v.header == Header(FilterData(all, token, from))
    ensures v.candles == CandleData(FilterData(all, token, from))
    ensures v.volumes == VolumeData(FilterData(all, token, from))
  {
    var filtered := FilterData(all, token, from);
    ProjectionsRejoin(filtered);
    View(CandleData(filtered), VolumeData(filtered), Some(Last(filtered)), Header(filtered))
  }
}
