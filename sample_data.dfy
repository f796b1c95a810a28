/**
 * The synthetic daily series the page shows in place of market data: a
 * random walk over the business days of a date range. The random numbers
 * the page draws are an input here, one `Draw` per bar, already rounded the
 * way the page rounds them.
 */
module SampleData {
  import opened Calendar
  import opened Bars

  const SEED_PRICE := 3800
  const MIN_PRICE := 100
  /** (r - 0.48) * 120 for r in [0, 1), rounded, moves the price by -58 to 62. */
  const MIN_CHANGE := -58
  const MAX_CHANGE := 62
  /** How far the high (low) may reach above (below) the open/close envelope. */
  const MAX_WICK := 80
  const BASE_VOLUME := 50000
  const VOLUME_SPAN := 500000

  /** The four random numbers spent on one bar. */
  datatype Draw = Draw(change: int, highOffset: int, lowOffset: int, volumeOffset: int)

  predicate ValidDraw(d: Draw) {
    MIN_CHANGE <= d.change <= MAX_CHANGE
    && 0 <= d.highOffset <= MAX_WICK
    && 0 <= d.lowOffset <= MAX_WICK
    && 0 <= d.volumeOffset <= VOLUME_SPAN
  }

  predicate ValidDraws(draws: seq<Draw>) {
    forall k :: 0 <= k < |draws| ==> ValidDraw(draws[k])
  }

  function Max(a: int, b: int): int { if a >= b then a else b }
  function Min(a: int, b: int): int { if a <= b then a else b }

  /** The floor every stored price is raised to. */
  function Clamp(x: int): (r: int)
    ensures r >= MIN_PRICE
    ensures x >= MIN_PRICE ==> r == x
    ensures x < MIN_PRICE ==> r == MIN_PRICE
  {
    Max(x, MIN_PRICE)
  }

  /** No stored price is below the floor. */
  predicate AboveFloor(b: Bar) {
    b.open >= MIN_PRICE && b.high >= MIN_PRICE && b.low >= MIN_PRICE && b.close >= MIN_PRICE
  }

  predicate VolumeInRange(b: Bar) {
    BASE_VOLUME <= b.volume <= BASE_VOLUME + VOLUME_SPAN
  }

  /**
   * The bar built on `day` when the walk stands at `price`: it opens at the
   * price, closes one step away, and every price is floored after the wicks
   * are added.
   */
  function SampleBar(day: Day, price: int, draw: Draw): Bar
  {
    var open := price;
    var close := price + draw.change;
    var high := Max(open, close) + draw.highOffset;
    var low := Min(open, close) - draw.lowOffset;
    Bar(day, Clamp(open), Clamp(high), Clamp(low), Clamp(close), BASE_VOLUME + draw.volumeOffset)
  }

  /**
   * Whatever the draw, the bar is dated on its day, opens at the floored
   * price and closes one step away; every price is at least 100, the high and
   * low enclose the open and close after flooring, and the volume is in range.
   */
  lemma SampleBarShape(day: Day, price: int, draw: Draw)
    requires ValidDraw(draw)
    ensures var b := SampleBar(day, price, draw);
      b.time == day && b.open == Clamp(price) && b.close == Clamp(price + draw.change)
      && AboveFloor(b) && WithinEnvelope(b) && VolumeInRange(b)
      && MIN_CHANGE <= b.close - b.open <= MAX_CHANGE
  {
  }

  /**
   * The drift of the walk over the `j` steps starting at draw `k`: the sum of
   * their price changes.
   */
  function Drift(draws: seq<Draw>, k: nat, j: nat): int
    requires k + j <= |draws|
    decreases j
  {
    if j == 0 then 0 else draws[k].change + Drift(draws, k + 1, j - 1)
  }

  /** Every bar is floored, inside its envelope, and has a volume in range. */
  predicate AllWellFormed(data: seq<Bar>) {
    forall i :: 0 <= i < |data| ==> AboveFloor(data[i]) && WithinEnvelope(data[i]) && VolumeInRange(data[i])
  }

  /** Every bar falls on a business day of the range. */
  predicate OnBusinessDays(data: seq<Bar>, first: Day, last: Day) {
    forall i :: 0 <= i < |data| ==> first <= data[i].time <= last && !IsWeekend(data[i].time)
  }

  /** Each bar opens where the bar before it closed. */
  predicate OpensAtPreviousClose(data: seq<Bar>) {
    forall i :: 0 < i < |data| ==> data[i].open == data[i - 1].close
  }

  /**
   * Bar `i` opens at the floored seed moved by the first `i` steps and closes
   * at the floored seed moved by `i + 1` steps.
   */
  predicate FollowsWalk(data: seq<Bar>, seed: int, draws: seq<Draw>) {
    forall i :: 0 <= i < |data| && i < |draws| ==>
      data[i].open == Clamp(seed + Drift(draws, 0, i)) && data[i].close == Clamp(seed + Drift(draws, 0, i + 1))
  }

  /**
   * The rest of the walk from day `d` on, standing at `price`, with draw `k`
   * the next one to spend: weekend days are passed over, every other day gets
   * a bar, and the bar's unfloored close is the price the next bar opens at.
   */
  function Walk(d: Day, last: Day, price: int, draws: seq<Draw>, k: nat): seq<Bar>
    requires last < d || k + (last - d) < |draws|
    decreases last - d
  {
    if last < d then []
    else if IsWeekend(d) then Walk(d + 1, last, price, draws, k)
    else [SampleBar(d, price, draws[k])] + Walk(d + 1, last, price + draws[k].change, draws, k + 1)
  }

  /** The series the page generates for the range from `first` to `last`. */
  function SampleSeries(first: Day, last: Day, seed: int, draws: seq<Draw>): seq<Bar>
    requires last < first || last - first < |draws|
  {
    Walk(first, last, seed, draws, 0)
  }

  /**
   * Walks the days from `first` to `last`, skips weekends, and appends one bar
   * per business day; the unfloored close is carried into the next bar. One
   * draw per calendar day is more than enough.
   */
  method GenerateSampleData(first: Day, last: Day, seed: int, draws: seq<Draw>) returns (data: seq<Bar>)
    requires ValidDraws(draws) && (last < first || last - first < |draws|)
    ensures data == SampleSeries(first, last, seed, draws)
  {
    data := [];
    var price := seed;
    var d := first;
    while d <= last
      invariant first <= d <= if last < first then first else last + 1
      invariant |data| <= d - first
      invariant data + Walk(d, last, price, draws, |data|) == Walk(first, last, seed, draws, 0)
      decreases last - d
    {
      if IsWeekend(d) {
        d := d + 1;
        continue;
      }
      var draw := draws[|data|];
      var open := price;
      var close := price + draw.change;
      var high := Max(open, close) + draw.highOffset;
      var low := Min(open, close) - draw.lowOffset;
      var volume := BASE_VOLUME + draw.volumeOffset;
      var bar := Bar(d, Clamp(open), Clamp(high), Clamp(low), Clamp(close), volume);
      assert bar == SampleBar(d, price, draw);
      ghost var rest := Walk(d + 1, last, close, draws, |data| + 1);
      assert data + ([bar] + rest) == (data + [bar]) + rest;
      data := data + [bar];
      price := close;
      d := d + 1;
    }
  }

  /** A walk from a weekend day is the walk from the day after. */
  lemma WalkSkip(d: Day, last: Day, price: int, draws: seq<Draw>, k: nat)
    requires d <= last && k + (last - d) < |draws| && IsWeekend(d)
    ensures Walk(d, last, price, draws, k) == Walk(d + 1, last, price, draws, k)
  {
  }

  /** A walk from a business day starts with that day's bar and goes on from the moved price. */
  lemma WalkCons(d: Day, last: Day, price: int, draws: seq<Draw>, k: nat)
    requires d <= last && k + (last - d) < |draws| && !IsWeekend(d)
    ensures Walk(d, last, price, draws, k)
      == [SampleBar(d, price, draws[k])] + Walk(d + 1, last, price + draws[k].change, draws, k + 1)
  {
  }

  lemma ConsWellFormed(b: Bar, rest: seq<Bar>)
    requires AboveFloor(b) && WithinEnvelope(b) && VolumeInRange(b) && AllWellFormed(rest)
    ensures AllWellFormed([b] + rest)
  {
    assert forall i :: 0 < i < |rest| + 1 ==> ([b] + rest)[i] == rest[i - 1];
  }

  lemma ConsDated(b: Bar, rest: seq<Bar>, d: Day, last: Day)
    requires b.time == d && d <= last && !IsWeekend(d)
    requires OnBusinessDays(rest, d + 1, last) && StrictlyAscending(rest)
    ensures OnBusinessDays([b] + rest, d, last) && StrictlyAscending([b] + rest)
  {
    assert forall i :: 0 < i < |rest| + 1 ==> ([b] + rest)[i] == rest[i - 1];
  }

  lemma ConsContinuous(b: Bar, rest: seq<Bar>)
    requires OpensAtPreviousClose(rest) && (|rest| > 0 ==> rest[0].open == b.close)
    ensures OpensAtPreviousClose([b] + rest)
  {
    assert forall i :: 0 < i < |rest| + 1 ==> ([b] + rest)[i] == rest[i - 1];
  }

  /** Every bar of a walk is floored, inside its envelope, and has a volume in range. */
  lemma {:induction false} WalkWellFormed(d: Day, last: Day, price: int, draws: seq<Draw>, k: nat)
    requires ValidDraws(draws) && (last < d || k + (last - d) < |draws|)
    ensures AllWellFormed(Walk(d, last, price, draws, k))
    decreases last - d
  {
    if last < d {
    } else if IsWeekend(d) {
      WalkSkip(d, last, price, draws, k);
      WalkWellFormed(d + 1, last, price, draws, k);
    } else {
      WalkCons(d, last, price, draws, k);
      WalkWellFormed(d + 1, last, price + draws[k].change, draws, k + 1);
      SampleBarShape(d, price, draws[k]);
      ConsWellFormed(SampleBar(d, price, draws[k]), Walk(d + 1, last, price + draws[k].change, draws, k + 1));
    }
  }

  /** The bars of a walk fall on business days of its range, each later than the one before. */
  lemma {:induction false} WalkDated(d: Day, last: Day, price: int, draws: seq<Draw>, k: nat)
    requires last < d || k + (last - d) < |draws|
    ensures OnBusinessDays(Walk(d, last, price, draws, k), d, last)
    ensures StrictlyAscending(Walk(d, last, price, draws, k))
    decreases last - d
  {
    if last < d {
    } else if IsWeekend(d) {
      WalkSkip(d, last, price, draws, k);
      WalkDated(d + 1, last, price, draws, k);
    } else {
      WalkCons(d, last, price, draws, k);
      WalkDated(d + 1, last, price + draws[k].change, draws, k + 1);
      ConsDated(SampleBar(d, price, draws[k]), Walk(d + 1, last, price + draws[k].change, draws, k + 1), d, last);
    }
  }

  /** Each bar of a walk opens at the close of the bar before it, and the first opens at the floored price. */
  lemma {:induction false} WalkContinuous(d: Day, last: Day, price: int, draws: seq<Draw>, k: nat)
    requires last < d || k + (last - d) < |draws|
    ensures var w := Walk(d, last, price, draws, k);
      OpensAtPreviousClose(w) && (|w| > 0 ==> w[0].open == Clamp(price))
    decreases last - d
  {
    if last < d {
    } else if IsWeekend(d) {
      WalkSkip(d, last, price, draws, k);
      WalkContinuous(d + 1, last, price, draws, k);
    } else {
      var next := price + draws[k].change;
      WalkCons(d, last, price, draws, k);
      WalkContinuous(d + 1, last, next, draws, k + 1);
      ConsContinuous(SampleBar(d, price, draws[k]), Walk(d + 1, last, next, draws, k + 1));
    }
  }

  /**
   * Bar `j` of a walk opens at the floored price after `j` steps and closes at
   * the floored price after `j + 1`: the unfloored close of each bar is the
   * unfloored open of the next.
   */
  lemma {:induction false} WalkPrices(d: Day, last: Day, price: int, draws: seq<Draw>, k: nat, j: nat)
    requires ValidDraws(draws) && (last < d || k + (last - d) < |draws|)
    requires j < |Walk(d, last, price, draws, k)|
    ensures k + j + 1 <= |draws|
    ensures Walk(d, last, price, draws, k)[j].open == Clamp(price + Drift(draws, k, j))
    ensures Walk(d, last, price, draws, k)[j].close == Clamp(price + Drift(draws, k, j + 1))
    decreases last - d
  {
    WalkLength(d, last, price, draws, k);
    if IsWeekend(d) {
      WalkPrices(d + 1, last, price, draws, k, j);
    } else if j == 0 {
      SampleBarShape(d, price, draws[k]);
    } else {
      SampleBarShape(d, price, draws[k]);
      WalkPrices(d + 1, last, price + draws[k].change, draws, k + 1, j - 1);
    }
  }

  /** A walk spends no more draws than it has calendar days. */
  lemma {:induction false} WalkLength(d: Day, last: Day, price: int, draws: seq<Draw>, k: nat)
    requires (last < d || k + (last - d) < |draws|)
    ensures |Walk(d, last, price, draws, k)| <= if last < d then 0 else last - d + 1
    decreases last - d
  {
    if d <= last {
      if IsWeekend(d) {
        WalkLength(d + 1, last, price, draws, k);
      } else {
        WalkLength(d + 1, last, price + draws[k].change, draws, k + 1);
      }
    }
  }

  /** A walk puts exactly one bar on each business day of its range, in order. */
  lemma {:induction false} WalkDays(d: Day, last: Day, price: int, draws: seq<Draw>, k: nat)
    requires (last < d || k + (last - d) < |draws|)
    ensures var w := Walk(d, last, price, draws, k);
      |w| == |BusinessDays(d, last)| && forall i :: 0 <= i < |w| ==> w[i].time == BusinessDays(d, last)[i]
    decreases last - d
  {
    if d <= last {
      BusinessDaysFront(d, last);
      if IsWeekend(d) {
        WalkDays(d + 1, last, price, draws, k);
      } else {
        var next := price + draws[k].change;
        WalkDays(d + 1, last, next, draws, k + 1);
        var rest := Walk(d + 1, last, next, draws, k + 1);
        assert Walk(d, last, price, draws, k) == [SampleBar(d, price, draws[k])] + rest;
      }
    }
  }

  /** What every generated series satisfies, whatever the random draws were. */
  lemma SampleSeriesProperties(first: Day, last: Day, seed: int, draws: seq<Draw>)
    requires ValidDraws(draws) && (last < first || last - first < |draws|)
    ensures var data := SampleSeries(first, last, seed, draws);
      AllWellFormed(data) && OnBusinessDays(data, first, last)
      && StrictlyAscending(data) && OpensAtPreviousClose(data)
      && |data| == |BusinessDays(first, last)|
      && (forall i :: 0 <= i < |data| ==> data[i].time == BusinessDays(first, last)[i])
      && Times(data) == BusinessDays(first, last)
      && FollowsWalk(data, seed, draws)
  {
    WalkWellFormed(first, last, seed, draws, 0);
    WalkDated(first, last, seed, draws, 0);
    WalkContinuous(first, last, seed, draws, 0);
    WalkDays(first, last, seed, draws, 0);
    var data := SampleSeries(first, last, seed, draws);
    forall i | 0 <= i < |data| && i < |draws|
      ensures data[i].open == Clamp(seed + Drift(draws, 0, i))
      ensures data[i].close == Clamp(seed + Drift(draws, 0, i + 1))
    {
      WalkPrices(first, last, seed, draws, 0, i);
    }
  }

  /** The page's own call: 2025-01-02 to 2026-02-20 from a price of 3800. */
  method GenerateDefaultSampleData(draws: seq<Draw>) returns (data: seq<Bar>)
    requires ValidDraws(draws) && |draws| >= SAMPLE_LAST_DAY - SAMPLE_FIRST_DAY + 1
    ensures data == SampleSeries(SAMPLE_FIRST_DAY, SAMPLE_LAST_DAY, SEED_PRICE, draws)
    ensures AllWellFormed(data) && OnBusinessDays(data, SAMPLE_FIRST_DAY, SAMPLE_LAST_DAY)
    ensures StrictlyAscending(data) && OpensAtPreviousClose(data)
    ensures Times(data) == BusinessDays(SAMPLE_FIRST_DAY, SAMPLE_LAST_DAY) && FollowsWalk(data, SEED_PRICE, draws)
    ensures |data| == 297 && data[0].time == SAMPLE_FIRST_DAY && data[0].open == SEED_PRICE
  {
    data := GenerateSampleData(SAMPLE_FIRST_DAY, SAMPLE_LAST_DAY, SEED_PRICE, draws);
    SampleSeriesProperties(SAMPLE_FIRST_DAY, SAMPLE_LAST_DAY, SEED_PRICE, draws);
    SampleRangeBusinessDays();
    FirstBusinessDay(SAMPLE_FIRST_DAY, SAMPLE_LAST_DAY);
    WalkContinuous(SAMPLE_FIRST_DAY, SAMPLE_LAST_DAY, SEED_PRICE, draws, 0);
  }
}
