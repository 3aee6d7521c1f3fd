/** The synthetic series builder (generateMockData): the newest-first feed of
    Fear & Greed entries becomes an oldest-first series of points, each carrying
    the score, the feed's own label and a simulated price derived from the score. */
module Series {

  /** A Fear & Greed score: the feed's `value` string parsed to an integer in [0, 100]. */
  type Score = s: int | 0 <= s <= 100

  /** Stands for Math.sin; all the model relies on is that its values lie in [-1, 1]. */
  type Sine = f: real -> real | forall x :: -1.0 <= f(x) <= 1.0 witness (x: real) => 0.0

  /** Stands for `new Date(ms).toISOString().substring(0, 10)`: epoch milliseconds
      to the calendar day "YYYY-MM-DD". */
  type CalendarDay = int -> string

  /** One entry of the feed: score, the provider's label, unix seconds. */
  datatype RawEntry = RawEntry(value: Score, valueClassification: string, timestamp: int)

  /** One point of the series the charts draw. */
  datatype HistoricalPoint =
    HistoricalPoint(date: string, fearGreedScore: Score, classification: string, btcPrice: int)

  const BasePrice: real := 45000.0
  const Amplitude: real := 2000.0

  /** Every simulated price lies in [MinMockPrice, MaxMockPrice]. */
  const MinMockPrice: int := 31750
  const MaxMockPrice: int := 58250

  /** Math.round: the nearest integer, halves rounded up. */
  function Round(x: real): (r: int)
    ensures x - 0.5 < r as real <= x + 0.5
  {
    (x + 0.5).Floor
  }

  /** A rounded value stays within any integer bounds of its argument. */
  lemma RoundWithin(x: real, lo: int, hi: int)
    requires lo as real <= x <= hi as real
    ensures lo <= Round(x) <= hi
  {
  }

  /** Higher sentiment gives a higher price: score 0..100 maps linearly onto 0.75..1.25. */
  function PriceFactor(score: Score): (f: real)
    ensures 0.75 <= f <= 1.25
    ensures score == 0 ==> f == 0.75
    ensures score == 100 ==> f == 1.25
  {
    (score as real / 100.0) * 0.5 + 0.75
  }

  lemma PriceFactorMonotone(a: Score, b: Score)
    requires a <= b
    ensures PriceFactor(a) <= PriceFactor(b)
  {
  }

  /** The simulated price of a point with this score at this position of the series. */
  function BtcPrice(score: Score, index: nat, sine: Sine): (p: int)
    ensures MinMockPrice <= p <= MaxMockPrice
  {
    var raw := BasePrice * PriceFactor(score) + sine(index as real / 5.0) * Amplitude;
    RoundWithin(raw, MinMockPrice, MaxMockPrice);
    Round(raw)
  }

  /** `[...xs].reverse()`: a reversed copy; the argument is a value and is not changed. */
  function Reversed<T>(s: seq<T>): (r: seq<T>)
    ensures |r| == |s|
    ensures forall i :: 0 <= i < |s| ==> r[i] == s[|s| - 1 - i]
  {
    if s == [] then [] else Reversed(s[1..]) + [s[0]]
  }

  /** The point built from one feed entry at position `index` of the reversed feed. */
  function MockPoint(item: RawEntry, index: nat, sine: Sine, day: CalendarDay): (p: HistoricalPoint)
    ensures p.fearGreedScore == item.value && p.classification == item.valueClassification
    ensures p.date == day(item.timestamp * 1000)
    ensures MinMockPrice <= p.btcPrice <= MaxMockPrice
  {
    HistoricalPoint(day(item.timestamp * 1000), item.value, item.valueClassification,
                    BtcPrice(item.value, index, sine))
  }

  /** The series generateMockData builds: reverse the feed, then one point per entry.
      Point i comes from entry N - 1 - i of the newest-first feed. */
  function MockSeries(fng: seq<RawEntry>, sine: Sine, day: CalendarDay): (r: seq<HistoricalPoint>)
    ensures |r| == |fng|
    ensures forall i :: 0 <= i < |r| ==> r[i] == MockPoint(fng[|fng| - 1 - i], i, sine, day)
  {
    var reversedFng := Reversed(fng);
    seq(|reversedFng|, i requires 0 <= i < |reversedFng| => MockPoint(reversedFng[i], i, sine, day))
  }

  /** Every price of the series lies in [MinMockPrice, MaxMockPrice]. */
  predicate PricesInMockRange(series: seq<HistoricalPoint>)
  {
    forall i :: 0 <= i < |series| ==> MinMockPrice <= series[i].btcPrice <= MaxMockPrice
  }

  /** The series keeps each entry's score and label (from the mirrored position),
      dates each point by its entry's timestamp, and prices every point in range. */
  lemma MockSeriesShape(fng: seq<RawEntry>, sine: Sine, day: CalendarDay)
    ensures var r := MockSeries(fng, sine, day);
      |r| == |fng| && PricesInMockRange(r) &&
      forall i :: 0 <= i < |r| ==>
        r[i].fearGreedScore == fng[|fng| - 1 - i].value &&
        r[i].classification == fng[|fng| - 1 - i].valueClassification &&
        r[i].date == day(fng[|fng| - 1 - i].timestamp * 1000) &&
        r[i].btcPrice == BtcPrice(fng[|fng| - 1 - i].value, i, sine)
  {
  }

  /** The last point of a non-empty series comes from the first (newest) entry of the feed. */
  lemma MockSeriesLastIsNewest(fng: seq<RawEntry>, sine: Sine, day: CalendarDay)
    requires |fng| > 0
    ensures var r := MockSeries(fng, sine, day);
      r[|r| - 1].fearGreedScore == fng[0].value &&
      r[|r| - 1].classification == fng[0].valueClassification &&
      r[|r| - 1].date == day(fng[0].timestamp * 1000)
  {
  }

  /** generateMockData: reverses a copy of the feed and pushes one point per entry. */
  method GenerateMockData(fngData: seq<RawEntry>, sine: Sine, day: CalendarDay)
    returns (mockData: seq<HistoricalPoint>)
    ensures mockData == MockSeries(fngData, sine, day)
    ensures |mockData| == |fngData|
    ensures forall i :: 0 <= i < |mockData| ==>
      mockData[i] == MockPoint(fngData[|fngData| - 1 - i], i, sine, day)
  {
    mockData := [];
    var reversedFng := Reversed(fngData);
    var index := 0;
    while index < |reversedFng|
      invariant 0 <= index <= |reversedFng|
      invariant |mockData| == index
      invariant forall i :: 0 <= i < index ==> mockData[i] == MockPoint(reversedFng[i], i, sine, day)
    {
      var item := reversedFng[index];
      var score := item.value;
      var date := day(item.timestamp * 1000);
      var priceFactor := PriceFactor(score);
      var btcPrice := Round(BasePrice * priceFactor + sine(index as real / 5.0) * Amplitude);
      mockData := mockData + [HistoricalPoint(date, score, item.valueClassification, btcPrice)];
      index := index + 1;
    }
  }
}
