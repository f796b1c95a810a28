# Daily stock chart page: sample series, period filter and chart projections

This project models the data logic of an early revision of a single-ticker
stock chart page (`main.js`). The page builds a synthetic daily OHLCV series
(open, high, low, close, volume) for 2025-01-02 to 2026-02-20. Period buttons
('3m', '6m', '1y', all) cut the series to a lookback window ending at its last
bar. The page then projects the shown bars onto a candlestick chart and a
volume histogram, and sets a header with the last close and its change
against the previous close.

Modules, one per part of the page:

- `Calendar` (`calendar.dfy`): days are integers counted from 1970-01-01
  (day 0 is a Thursday). `Weekday` numbers weekdays the way `Date.getDay` does
  (0 = Sunday). `BusinessDays` gives the days the generator's loop keeps.
- `Bars` (`bars.dfy`): the bar record and the date-ordering predicate.
- `SampleData` (`sample_data.dfy`): the generator as a method with a loop,
  proved equal to the spec function `SampleSeries`, with lemmas about that
  function. The page's `Math.random()` calls are an input sequence of
  `Draw`s, one per bar, already rounded the way the page rounds them: a price
  step in [-58, 62], a high and a low offset in [0, 80], and a volume offset
  in [0, 500000].
- `PeriodFilter` (`period_filter.dfy`): the token-to-period mapping and the
  filter.
- `Display` (`display.dfy`): the candle and volume projections, the volume
  colour, the header's change sign and class, and `ApplyData`, which chains
  them.

`main.js` fixes the seed price 3800 and the range 2025-01-02 to 2026-02-20
inside its generator. `GenerateSampleData` takes the seed and the range as
parameters, and `GenerateDefaultSampleData` passes the page's constants.
`main.js` holds no network fetcher, proxy, cache or data controller: the page
works on the generated series alone, and so does this model.

## Model

| member | source | states |
|---|---|---|
| `Calendar.Weekday` | main.js:13 | the `getDay` number of a day, in 0..6 with 0 for Sunday, counted from 1970-01-01 |
| `Calendar.WeekdayAnchors` | main.js:9-13 | 1970-01-01 is a Thursday, 2025-01-02 a Thursday and 2026-02-20 a Friday; the next day has the next weekday, Saturday followed by Sunday |
| `Calendar.IsWeekend` | main.js:14 | a day is skipped exactly when its weekday is Sunday (0) or Saturday (6) |
| `Calendar.TwoWeekendDaysAWeek` | main.js:14 | any seven consecutive days hold exactly two skipped days |
| `Calendar.BusinessDays` | main.js:12-14 | the loop keeps at most one day per calendar day of the range |
| `Calendar.BusinessDaysOrdered` | main.js:12-14 | every kept day lies in the range and is not a Saturday or Sunday, and the kept days strictly increase |
| `Calendar.BusinessDayIncluded` | main.js:12-14 | every weekday of the range is kept |
| `Calendar.WeekHasFiveBusinessDays` | main.js:13-14 | any seven consecutive days give exactly five bars |
| `Calendar.BusinessDaysSplit` | main.js:12 | walking a range equals walking its first part and then the rest |
| `Calendar.BusinessDaysOfWeeks` | main.js:12-14 | `n` whole weeks give `5n` bars |
| `Calendar.SampleRangeBusinessDays` | main.js:9-14 | 2025-01-02 to 2026-02-20 gives 297 business days |
| `Calendar.FirstBusinessDay` | main.js:9-14 | a range that starts on a weekday has that day as its first bar |
| `SampleData.Clamp` | main.js:25-28 | a stored price is at least 100 and equals the raw price when that is already at least 100 |
| `Calendar.BusinessDaysFront` | main.js:12-14 | a range's kept days are its first day, unless that is a Saturday or Sunday, followed by the kept days of the rest |
| `SampleData.SampleBar` | main.js:16-30 | one bar: open at the walk price, close one step away, high and low the envelope widened by the two wick draws, each price raised to 100, volume 50000 plus the volume draw |
| `SampleData.SampleBarShape` | main.js:16-30 | one bar: dated on its day, opening at the floored walk price, closing one step away; all four prices at least 100; high at or above and low at or below both open and close, after flooring; volume in [50000, 550000]; close minus open in [-58, 62] |
| `SampleData.WalkWellFormed` | main.js:16-30 | every bar of a walk is floored, inside its high/low envelope and has a volume in range |
| `SampleData.WalkDated` | main.js:12-24 | the bars of a walk fall on weekdays of its range, with strictly increasing dates |
| `SampleData.WalkContinuous` | main.js:16-32 | each bar of a walk opens at the previous bar's close, and the first opens at the floored starting price |
| `SampleData.WalkPrices` | main.js:16-32 | bar `j` of a walk opens at the floored starting price plus the drift of the first `j` draws and closes at the floored price plus the drift of `j + 1` draws |
| `SampleData.WalkLength` | main.js:12-14 | a walk has at most one bar per calendar day of its range |
| `SampleData.WalkDays` | main.js:12-24 | a walk has exactly one bar per kept day of its range, bar `i` dated on kept day `i` |
| `SampleData.Walk` | main.js:12-32 | the rest of the generation from a day and a raw price: weekend days spend no draw, each other day spends the next draw on its bar and carries the unfloored close |
| `SampleData.SampleSeries` | main.js:5-34 | the series for a range and a seed: the walk from the first day at the seed with the first draw |
| `SampleData.GenerateSampleData` | main.js:5-35 | given one draw per calendar day, the loop (skip weekend days, push a bar, carry the unfloored close) returns exactly `SampleSeries`, the walk from the first day at the seed price |
| `SampleData.SampleSeriesProperties` | main.js:12-32 | every generated bar is floored, inside its high/low envelope and has a volume in range; bars fall on weekdays of the range with strictly increasing dates; the dates are exactly the kept days of the range, bar `i` on kept day `i`; each bar opens at the previous bar's close; bar `i` opens at the floored seed plus the drift of the first `i` draws and closes at the floored seed plus the drift of the first `i + 1` |
| `SampleData.GenerateDefaultSampleData` | main.js:3-10 | the page's own call gives 297 bars, one on each kept day from 2025-01-02 to 2026-02-20, the first opening at 3800; every bar is floored, inside its envelope and has a volume in range; dates strictly increase; each bar opens at the previous close; bar `i`'s open and close follow the drift of the draws from 3800 |
| `PeriodFilter.ParsePeriod` | main.js:42-45 | '3m', '6m' and '1y' each pick their period, and any other token picks the whole series |
| `PeriodFilter.LookbackMonths` | main.js:42-44 | '3m' reaches back 3 months, '6m' 6 months and '1y' 12 months |
| `PeriodFilter.KeepFromEarlierBound` | main.js:42-48 | a bound no later keeps every bar a later bound keeps, in the same order, so a longer lookback shows more |
| `PeriodFilter.KeepFrom` | main.js:48 | a bar is kept if and only if it is in the series and dated on or after the bound; nothing is added |
| `PeriodFilter.KeepFromIsSubsequence` | main.js:48 | the kept bars appear in the order of the series |
| `PeriodFilter.FirstFrom` | main.js:48 | the first index whose bar is on or after the bound; every bar before it is earlier |
| `PeriodFilter.KeepFromSortedIsSuffix` | main.js:47-48 | on a date-ordered series the kept bars are exactly the suffix starting at the first bar on or after the bound |
| `PeriodFilter.KeepFromKeepsLast` | main.js:39-48 | a bound at or before the last bar keeps the last bar, so the result is never empty |
| `PeriodFilter.FilterData` | main.js:38-49 | an unrecognised token returns the series unchanged; a lookback returns exactly the bars on or after the bound; the result is non-empty and ends with the series' last bar |
| `PeriodFilter.FilterDataKeepsOrder` | main.js:38-49 | for any series, the shown bars keep the order of the series, and some bar is on or after the bound |
| `PeriodFilter.FilterDataIsSuffix` | main.js:38-49 | on a date-ordered series a lookback shows exactly the suffix from the first bar on or after the bound |
| `PeriodFilter.FilterDataEarlierBound` | main.js:38-49 | of two lookbacks, the one with the earlier bound shows every bar the other shows, in the same order |
| `Display.VolumeColor` | main.js:129 | the colour is the translucent up colour if and only if close is at or above open, and otherwise the down colour |
| `Display.CandleData` | main.js:125 | one candle per bar, with the same time, open, high, low and close at each index |
| `Display.VolumeData` | main.js:126-130 | one column per bar, with the same time; the value is the bar's volume; the colour is the up colour if and only if close is at or above open |
| `Display.ProjectionsRejoin` | main.js:125-130 | rejoining candles and volume columns index by index gives back the shown series |
| `Display.ClassifyChange` | main.js:157 | 'up' if and only if the difference is positive, 'down' if and only if it is negative, 'flat' if and only if it is zero |
| `Display.SignPrefix` | main.js:156 | '+' if and only if the difference is at least zero, and no prefix if and only if it is negative |
| `Display.Header` | main.js:144-160 | the price is the last close; a change exists if and only if there is a previous bar; its difference is last close minus previous close; its class matches the order of the two closes; the sign is '+' exactly when the class is not 'down' |
| `Display.ApplyData` | main.js:123-141 | a button press puts on the two charts exactly the candle and volume projections of the filtered series, so the colours are those `VolumeData` states, paired by time and non-empty; the header is computed from the filtered series; the summary panel and the header show the series' last bar; with the whole period the charts hold exactly the series |

## Left out

- The network fetch, proxy race, TTL cache and data controller: they are not in `main.js`, so they are not part of this model.
- `Math.random`: each call is a value of the input `draws`. Each of its preconditions states the range that the page's formula and rounding give.
- Real `Date` semantics: `getDay` reads local time, while `toISOString` writes the UTC date. `setDate` steps local days, so daylight-saving shifts apply. The model uses one day number for both. West of UTC, the page as written would emit Saturday dates and skip Mondays; this model does not show that.
- The filter bound: the `setMonth`/`setFullYear` arithmetic and its month-end overflow are not modelled. `FilterData` takes the bound as a day no later than the last bar. `LookbackMonths` records only how many months each token reaches back.
- `PeriodFilter.LookbackMonths`: the month count is not tied to the `from` passed to `FilterData`, because the date arithmetic that turns months into a day is not modelled. So nothing in the model forces '3m' to use a later bound than '1y'. `FilterDataEarlierBound` states what follows once it does: the earlier bound shows a superset, in the same order.
- `FilterData`: compares day numbers. The page compares `YYYY-MM-DD` strings, which for four-digit years order the same way.
- `GenerateDefaultSampleData`: asks for one draw per calendar day of the range (415) rather than per bar (297). The page's random source never runs out, so this only bounds the input.
- Floating point: the percentage change and its `toFixed(2)` are not modelled. In the generator, the real-valued random step is modelled by its rounded integer effect only.
- Formatting and UI: `formatPrice`, `toLocaleString`, the tick-mark formatter, DOM reads and writes, button listeners, the active-button styling and the `ResizeObserver` are not modelled.
- The charting library: chart creation, options, `setData`, `fitContent` and the crosshair handler are not modelled. `ApplyData` returns what is passed to `setData` and to the two display functions.
- `Display.Header`: with a single shown bar the page leaves the change element's previous text in place. The model returns no change for that case and does not model the stale text.
