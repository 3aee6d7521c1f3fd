# Crypto Emotion Tracker: the data-to-chart pipeline in Dafny

The tracker takes the Fear & Greed index (a score from 0 to 100 per day, fed
newest first). It builds an oldest-first series of points. Each point carries
the score, the provider's label and a simulated BTC price derived from the
score. The tracker then classifies the latest score into one of five bands and
turns it into a gauge needle angle. It also maps the whole series onto a
600 x 300 chart with two y axes. When the live fetch fails, it falls back to
six built-in entries and shows an advisory.

The model has five modules, all taken from `src/App.jsx`:

- `Classifier` (`classifier.dfy`): `getClassification`. It is checked against
  an independent definition: the band index is the number of thresholds
  (25, 45, 55, 75) that the score reaches.
- `Series` (`series.dfy`): `generateMockData`. It is a method with a loop,
  proved against the specification function `MockSeries`. This module also
  models the price formula, with `Math.round` written out as `floor(x + 0.5)`.
- `Gauge` (`gauge.dfy`): the needle angle `rotationDegrees`.
- `Chart` (`chart.dfy`): the scaler inside `HistoricalChart`. It covers the
  canvas constants, `getX`, `getYScore`, `getYPrice`, `scoreToHeight`, the
  price domain, the zone rectangles, the axis ticks and the date-label
  subsampling. `Render` puts them together into coordinates.
- `Dashboard` (`dashboard.dfy`): the class `App`, which holds the three state
  slots `historicalData`, `loading` and `error`. It also has the load
  `fetchSentimentData`, the fallback feed and `latestData`.

How the platform is modelled:

- `Math.sin` is a parameter of type `Sine`: any real function with values in
  [-1, 1].
- The calendar conversion `new Date(ms).toISOString().substring(0, 10)` is a
  parameter of type `CalendarDay`: any function from milliseconds to a string.
- `Date.now()` is a parameter `now`, in milliseconds. `Math.floor(now / 1000)`
  is Dafny's `now / 1000`, which rounds toward minus infinity for a positive
  divisor.
- `parseInt(item.value)` is the field `value` of type `Score`, an integer in
  [0, 100]. `parseInt(item.timestamp)` is an integer field.
- The fetch is an abstract `FetchOutcome`: a body with `data`, a body without
  it, or a failure.
- Arithmetic on the chart is over `real`, not IEEE doubles.
- Sequences are values, so the feed handed to `generateMockData` is never
  changed. The source gets the same effect by reversing a copy.
- The model is deterministic by construction: every operation is a function
  of its arguments.

Known behaviour of the code as written:

- `result.data` is tested for truthiness, so an empty `data` array counts as
  success. It leaves an empty series, no error and no latest point
  (`Dashboard.LiveLatest`).
- The fallback feed is written oldest first. `generateMockData` reverses it as
  if it were newest first, so the fallback series runs newest first. Its latest
  point is therefore the entry of five days ago, 45 "Neutral", not today's 62
  "Greed" (`Dashboard.FallbackSeriesRunsNewestFirst`). The model keeps this
  behaviour exactly as written.
- `getX` divides by `data.length - 1`, which is zero for a one-point series
  (see Findings).

## Model

| member | source | states |
|---|---|---|
| `Classifier.CountReached` | src/App.jsx:6-12 | for strictly increasing thresholds, a score reaches exactly the first r of them |
| `Classifier.BandIndex` | src/App.jsx:6-12 | the band of a score is one of the five, and the score lies in that band's range, closed below and open above |
| `Classifier.GetClassification` | src/App.jsx:6-12 | the descending if-chain always returns the band that the threshold count picks |
| `Classifier.ExactlyOneBand` | src/App.jsx:6-12 | every score gets exactly one of the five bands, and the label names that band alone |
| `Classifier.ThresholdGoesToHigherBand` | src/App.jsx:7-10 | each threshold belongs to the band above it, and one point below it belongs to the band below |
| `Classifier.BandIndexMonotone` | src/App.jsx:6-12 | a higher score never gets a lower band |
| `Classifier.BoundaryExamples` | src/App.jsx:7-11 | 24, 25, 44, 45, 54, 55, 74 and 75 get Extreme Fear, Fear, Fear, Neutral, Neutral, Greed, Greed and Extreme Greed |
| `Series.Round` | src/App.jsx:30 | `Math.round` returns an integer within one half of its argument |
| `Series.RoundWithin` | src/App.jsx:30 | rounding keeps a value inside any integer bounds it already lies in |
| `Series.PriceFactor` | src/App.jsx:29 | the price factor lies in [0.75, 1.25], with 0.75 at score 0 and 1.25 at score 100 |
| `Series.PriceFactorMonotone` | src/App.jsx:29 | the price factor never decreases with the score |
| `Series.BtcPrice` | src/App.jsx:29-30 | for any sine value in [-1, 1], every simulated price is an integer in [31750, 58250], so every price is positive |
| `Series.Reversed` | src/App.jsx:20 | the reversed copy has the same length, and element i is element N-1-i of the input |
| `Series.MockPoint` | src/App.jsx:23-37 | a point keeps its entry's score and label, is dated by the entry's timestamp in milliseconds, and is priced in [31750, 58250] |
| `Series.MockSeries` | src/App.jsx:15-40 | the series has one point per feed entry, and point i is built from feed entry N-1-i at position i |
| `Series.MockSeriesShape` | src/App.jsx:22-37 | point i keeps the score, label and timestamp-derived date of entry N-1-i, and every price is in range |
| `Series.MockSeriesLastIsNewest` | src/App.jsx:20-37 | the last point of the series comes from the feed's first (newest) entry |
| `Series.GenerateMockData` | src/App.jsx:15-40 | the loop over the reversed copy pushes exactly the points of `MockSeries`: same length, point i from entry N-1-i |
| `Gauge.RotationDegrees` | src/App.jsx:46 | for a score in [0, 100] the needle angle lies in [-90, 90] |
| `Gauge.RotationLandmarks` | src/App.jsx:46 | the angle is -90 at score 0, 0 at score 50 and 90 at score 100 |
| `Gauge.RotationStrictlyIncreasing` | src/App.jsx:46 | a higher score gives a strictly larger angle |
| `Gauge.RotationStep` | src/App.jsx:46 | each score point turns the needle by 1.8 degrees |
| `Chart.CanvasDimensions` | src/App.jsx:92-96 | the inner plot is 520 x 220, with edges at x 40 and 560 and y 40 and 260 |
| `Chart.GetX` | src/App.jsx:116 | x lies in [40, 560], the first point is at 40, and the last point is at 560 when there are two or more points |
| `Chart.GetXStrictlyIncreasing` | src/App.jsx:116 | later points lie strictly further right |
| `Chart.JsDivide` | src/App.jsx:116 | a quotient is finite exactly when the divisor is non-zero, and then it times the divisor is the dividend; 0/0 is NaN and any other division by zero is an infinity with the dividend's sign |
| `Chart.GetXAsWritten` | src/App.jsx:116 | the unguarded formula agrees with `GetX` whenever the series has two or more points |
| `Chart.SinglePointX` | src/App.jsx:116 | for a one-point series the formula as written gives NaN, where the corrected `GetX` gives 40 |
| `Chart.GetYScore` | src/App.jsx:110-117 | for a score in [0, 100], y lies in [40, 260] |
| `Chart.GetYScoreEndpoints` | src/App.jsx:117 | score 0 maps to 260 and score 100 maps to 40 |
| `Chart.GetYScoreStrictlyDecreasing` | src/App.jsx:117 | a higher score is drawn strictly higher on the canvas |
| `Chart.ScoreToHeight` | src/App.jsx:125 | a non-negative span has a non-negative height, and a positive span a positive height |
| `Chart.ScoreToHeightIsDistance` | src/App.jsx:117-125 | the height of a span equals the y distance between its two ends |
| `Chart.ZoneRect` | src/App.jsx:142-155 | a zone rectangle runs from y of its end score down to y of its start score, across the full plot width |
| `Chart.ZoneRects` | src/App.jsx:127-156 | there is one rectangle per zone of the table, in table order |
| `Chart.ZoneEdgesAreThresholds` | src/App.jsx:127-133 | the zones run from 0 to 100, and their inner edges are the classifier's thresholds, each shared by two neighbours |
| `Chart.ZonesTilePlotArea` | src/App.jsx:125-156 | the five rectangles have positive heights and stack without gap or overlap from y 260 up to y 40 |
| `Chart.ScoreLiesInItsBandZone` | src/App.jsx:127-156 | a score lies in the zone of its classifier band, its y lies inside that zone's rectangle, and the zone's colour is the band's hex colour |
| `Chart.MinOf` | src/App.jsx:112 | `Math.min` of the prices is one of them and no larger than any |
| `Chart.MaxOf` | src/App.jsx:113 | `Math.max` of the prices is one of them and no smaller than any |
| `Chart.Prices` | src/App.jsx:108 | the price list has one entry per point, in order |
| `Chart.MinPrice` | src/App.jsx:112 | minPrice is 0.95 times one of the prices and no larger than 0.95 times any of them |
| `Chart.MaxPrice` | src/App.jsx:113 | maxPrice is 1.05 times one of the prices and no smaller than 1.05 times any of them |
| `Chart.PriceDomainProper` | src/App.jsx:112-113 | with positive prices, minPrice < maxPrice even when all prices are equal, and every price lies strictly inside the domain |
| `Chart.GetYPrice` | src/App.jsx:118 | a price inside the domain maps into [40, 260], and strictly inside when the price is strictly inside |
| `Chart.GetYPriceTicks` | src/App.jsx:172 | minPrice maps to 260, maxPrice maps to 40 and the midpoint maps to 150 |
| `Chart.GetYPriceStrictlyDecreasing` | src/App.jsx:118 | a higher price is drawn strictly higher on the canvas |
| `Chart.LabelStride` | src/App.jsx:179 | `Math.ceil(n / 8)` is the least stride s with 8s at least n |
| `Chart.DateLabelIndices` | src/App.jsx:179 | the filter keeps exactly the indices below n that are multiples of the stride, in increasing order |
| `Chart.DateLabelCount` | src/App.jsx:179 | there are ceil(n / s) such indices |
| `Chart.AtMostEightDateLabels` | src/App.jsx:179 | with the stride ceil(n / 8) there are between one and eight labels, and the first is index 0 |
| `Chart.ScoreLine` | src/App.jsx:121 | each score vertex is at its point's x and score y, inside the plot area |
| `Chart.PriceLine` | src/App.jsx:122 | each price vertex is at its point's x and at the y that `getYPrice` gives its price over the proper domain [minPrice, maxPrice], strictly between the top and bottom edges |
| `Chart.ScoreTicks` | src/App.jsx:165-169 | the five score ticks sit at y 260, 205, 150, 95 and 40 |
| `Chart.PriceTicks` | src/App.jsx:172-176 | the three price ticks are minPrice, the midpoint and maxPrice, at y 260, 150 and 40 |
| `Chart.SubstringFrom` | src/App.jsx:181 | `substring(start)` is the rest of the string from `start` on, and empty when `start` is at or past the end |
| `Chart.DateLabels` | src/App.jsx:179-183 | one to eight labels, the first at x 40, each at its point's x and showing its date from the sixth character on |
| `Chart.Render` | src/App.jsx:98-104 | an empty series gives the no-data notice, and any other series gives a plot |
| `Chart.RenderInsidePlot` | src/App.jsx:107-183 | a non-empty series is plotted inside the plot area, left to right, each price at its `getYPrice` height over a proper domain, with fixed ticks, tiling zones and at most eight date labels |
| `Dashboard.FallbackEntries` | src/App.jsx:228-235 | there are six fallback entries, dated from five days before now up to today |
| `Dashboard.FallbackLabelsAgreeWithClassifier` | src/App.jsx:228-235 | each fallback label is the classifier's name for its score |
| `Dashboard.LoadedSeries` | src/App.jsx:218-237 | a live load keeps one point per `data` entry, a failed one has the six fallback points, and every price is in range either way |
| `Dashboard.LoadedError` | src/App.jsx:204-239 | the error is cleared exactly when the body has `data`; otherwise it is the advisory |
| `Dashboard.Latest` | src/App.jsx:249-251 | there is no latest point exactly when the series is empty; otherwise it is the last point |
| `Dashboard.GaugeClassification` | src/App.jsx:253-255 | the gauge shows a band exactly when there is a latest point, and it is that score's band |
| `Dashboard.FallbackLoad` | src/App.jsx:223-239 | on any failure the series has six points and the error is the advisory |
| `Dashboard.FallbackSeriesRunsNewestFirst` | src/App.jsx:228-236 | the fallback series runs newest first with scores 62, 78, 55, 35, 20, 45, and its latest point is 45 "Neutral" |
| `Dashboard.LiveLatest` | src/App.jsx:216-219 | after a live load the latest point comes from the feed's first entry, and an empty `data` array leaves none |
| `Dashboard.LoadedSeriesPlots` | src/App.jsx:218-237 | every loaded series has prices in range, so the chart plots it, showing the no-data notice only when it is empty |
| `Dashboard.App.constructor` | src/App.jsx:197-199 | the initial state is an empty series, loading, and no error |
| `Dashboard.App.BeginLoad` | src/App.jsx:203-204 | a load starts with the loading flag set, the error cleared and the series untouched, so every price stays in range |
| `Dashboard.App.CompleteLoad` | src/App.jsx:205-242 | the series becomes the live or the fallback series, the advisory is set on failure, and loading ends false |
| `Dashboard.App.FetchSentimentData` | src/App.jsx:202-243 | after a load the state is the loaded series and error with loading false, and every price is in range |
| `Dashboard.App.LatestData` | src/App.jsx:249-251 | there is no latest point exactly when the held series is empty; otherwise it is its last point |
| `Dashboard.App.HistoricalChart` | src/App.jsx:304 | the chart of the held series can always be drawn: the no-data notice exactly when it is empty, otherwise both lines with one vertex per point |

## Left out

- The fetch, `response.json()`, `useEffect`, `useCallback`, `useMemo` and `console.warn` are not modelled. The fetch is replaced by the outcome datatype `FetchOutcome`.
- Errors that `generateMockData` itself could throw inside the `try` are not modelled. One example is `toISOString` on an out-of-range timestamp. The calendar conversion is assumed total.
- `Math.sin` is abstract: only its range [-1, 1] is used. `Math.round` is exact over the reals. IEEE double rounding is not modelled.
- The calendar-day conversion is an abstract function of the timestamp. Time zones and formats are not modelled.
- `parseInt` is not modelled: scores are integers in [0, 100] from the start. A non-numeric `value`, which JavaScript would turn into NaN, is outside the model.
- No SVG or JSX output is modelled: path strings, gauge arcs and their dash offsets, CSS classes, zone opacity, header and footer. So are the number formatting calls `toFixed` and `toLocaleString`, and the tick label text.
- `Chart.Render`: its price axis requires positive prices. Every series the builder produces has them (`Dashboard.LoadedSeriesPlots`, `Dashboard.App.HistoricalChart`). The source has no guard for other data.
- `Chart.Render`, `Chart.RenderInsidePlot`, `Chart.ScoreLine`, `Chart.PriceLine` and `Chart.DateLabels` use the corrected `Chart.GetX` from Findings, not the formula as written. So a one-point series is drawn at x = 40, where the source computes NaN (src/App.jsx:116, 121-122, 180).
- `data.indexOf(d)` in the date labels is modelled as the filtered index itself. The points are distinct objects, so the two are equal.

## Findings

| source | as written | input that shows it | evidently intended | confidence | as-written member | corrected member |
|---|---|---|---|---|---|---|
| src/App.jsx:116 | `getX` divides by `data.length - 1` with no guard | a feed whose `data` holds exactly one entry: the only point gets x = 40 + (0/0)·520 = NaN | a single point is drawn at the left edge, x = 40 | not executed; follows from the formula | `Chart.GetXAsWritten` (with `Chart.SinglePointX`) | `Chart.GetX` |
