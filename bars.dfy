/** The daily OHLCV bar the chart shows, and the shape of a well-ordered series of bars. */
module Bars {
  import opened Calendar

  /** One trading day: its date, open, high, low and close prices in won, and volume in shares. */
  datatype Bar = Bar(time: Day, open: int, high: int, low: int, close: int, volume: int)

  /** The dates of a series of bars, in order. */
  function Times(s: seq<Bar>): (t: seq<Day>)
    ensures |t| == |s| && forall i :: 0 <= i < |s| ==> t[i] == s[i].time
  {
    seq(|s|, i requires 0 <= i < |s| => s[i].time)
  }

  /**
   * Dates strictly increase along the series, so no date appears twice; this
   * is `Increasing` of the series' dates, stated on the bars so that proofs
   * about a series need not build its date sequence.
   */
  predicate StrictlyAscending(s: seq<Bar>) {
    forall i, j :: 0 <= i < j < |s| ==> s[i].time < s[j].time
  }

  lemma AscendingIsIncreasingTimes(s: seq<Bar>)
    ensures StrictlyAscending(s) <==> Increasing(Times(s))
  {
  }

  /** The high and low enclose both the open and the close. */
  predicate WithinEnvelope(b: Bar) {
    b.low <= b.open <= b.high && b.low <= b.close <= b.high
  }

  function Last(s: seq<Bar>): Bar
    requires |s| > 0
  {
    s[|s| - 1]
  }
}
