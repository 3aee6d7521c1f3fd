/** The dashboard's state and its one load (App's fetchSentimentData): the series,
    the loading flag and the error message, the fallback feed used when the live
    fetch fails, and the latest point the gauge shows. */
module Dashboard {
  import opened Series
  import Classifier
  import Chart

  datatype Option<T> = None | Some(value: T)

  /** What the awaited fetch produced: a JSON body with a `data` field, a JSON body
      without one, or a failure (a non-2xx status, a network error, a body that is
      not JSON). */
  datatype FetchOutcome = OkWithData(data: seq<RawEntry>) | OkWithoutData | Failure

  const Advisory: string := "Note: Live data fetch failed. Displaying simulated data for development."

  const SecondsPerDay: int := 86400

  /** The six fallback entries, written from five days ago up to today, with their
      timestamps taken from the clock `now` (milliseconds). */
  function FallbackEntries(now: int): (entries: seq<RawEntry>)
    ensures |entries| == 6
    ensures forall k :: 0 <= k < 6 ==> entries[k].timestamp == now / 1000 - SecondsPerDay * (5 - k)
  {
    var today := now / 1000;
    [
      RawEntry(45, "Neutral", today - SecondsPerDay * 5),
      RawEntry(20, "Extreme Fear", today - SecondsPerDay * 4),
      RawEntry(35, "Fear", today - SecondsPerDay * 3),
      RawEntry(55, "Greed", today - SecondsPerDay * 2),
      RawEntry(78, "Extreme Greed", today - SecondsPerDay * 1),
      RawEntry(62, "Greed", today - SecondsPerDay * 0)
    ]
  }

  /** Each fallback label is the one the classifier gives its score. */
  lemma FallbackLabelsAgreeWithClassifier(now: int)
    ensures forall k :: 0 <= k < 6 ==>
      FallbackEntries(now)[k].valueClassification ==
      Classifier.GetClassification(FallbackEntries(now)[k].value).name
  {
  }

  /** The series a load leaves behind. */
  function LoadedSeries(outcome: FetchOutcome, now: int, sine: Sine, day: CalendarDay): (series: seq<HistoricalPoint>)
    ensures |series| == if outcome.OkWithData? then |outcome.data| else 6
    ensures PricesInMockRange(series)
  {
    match outcome
    case OkWithData(data) => MockSeries(data, sine, day)
    case _ => MockSeries(FallbackEntries(now), sine, day)
  }

  /** The error message a load leaves behind. */
  function LoadedError(outcome: FetchOutcome): (e: Option<string>)
    ensures e == None <==> outcome.OkWithData?
    ensures e != None ==> e == Some(Advisory)
  {
    if outcome.OkWithData? then None else Some(Advisory)
  }

  /** `latestData`: the last point, or none for an empty series. */
  function Latest(series: seq<HistoricalPoint>): (r: Option<HistoricalPoint>)
    ensures r == None <==> |series| == 0
    ensures r != None ==> r.value == series[|series| - 1]
  {
    if |series| > 0 then Some(series[|series| - 1]) else None
  }

  /** What the gauge is labelled with: the classifier's band of the latest score,
      or the "Loading" placeholder when there is no latest point. */
  function GaugeClassification(latest: Option<HistoricalPoint>): (c: Classifier.Classification)
    ensures c.Band? <==> latest.Some?
    ensures latest.Some? ==> c == Classifier.Bands[Classifier.BandIndex(latest.value.fearGreedScore)]
  {
    match latest
    case Some(p) => Classifier.GetClassification(p.fearGreedScore)
    case None => Classifier.Placeholder("Loading", "text-gray-500")
  }

  /** A failed load shows six simulated points and the advisory, whatever went wrong. */
  lemma FallbackLoad(outcome: FetchOutcome, now: int, sine: Sine, day: CalendarDay)
    requires !outcome.OkWithData?
    ensures |LoadedSeries(outcome, now, sine, day)| == 6
    ensures LoadedError(outcome) == Some(Advisory)
  {
  }

  /** The fallback feed is written oldest first, but the builder reverses it as if it
      were newest first: point k of the series is dated k days before now, and the
      latest point is the entry of five days ago, score 45, "Neutral". */
  lemma FallbackSeriesRunsNewestFirst(now: int, sine: Sine, day: CalendarDay)
    ensures var series := MockSeries(FallbackEntries(now), sine, day);
      |series| == 6 &&
      (forall k :: 0 <= k < 6 ==> series[k].date == day((now / 1000 - SecondsPerDay * k) * 1000)) &&
      [series[0].fearGreedScore, series[1].fearGreedScore, series[2].fearGreedScore,
       series[3].fearGreedScore, series[4].fearGreedScore, series[5].fearGreedScore]
        == [62, 78, 55, 35, 20, 45] &&
      Latest(series) == Some(series[5]) &&
      series[5].fearGreedScore == 45 && series[5].classification == "Neutral" &&
      GaugeClassification(Latest(series)) == Classifier.Neutral
  {
    var series := MockSeries(FallbackEntries(now), sine, day);
    var entries := FallbackEntries(now);
    forall k | 0 <= k < 6
      ensures series[k].date == day((now / 1000 - SecondsPerDay * k) * 1000)
    {
      assert series[k] == MockPoint(entries[5 - k], k, sine, day);
    }
  }

  /** A live load's latest point is the feed's first (newest) entry, and a live feed
      with an empty `data` array leaves no latest point at all. */
  lemma LiveLatest(data: seq<RawEntry>, now: int, sine: Sine, day: CalendarDay)
    ensures var latest := Latest(LoadedSeries(OkWithData(data), now, sine, day));
      (latest == None <==> |data| == 0) &&
      (latest != None ==>
        latest.value.fearGreedScore == data[0].value &&
        latest.value.classification == data[0].valueClassification &&
        latest.value.date == day(data[0].timestamp * 1000))
  {
    if |data| > 0 { MockSeriesLastIsNewest(data, sine, day); }
  }

  /** Whatever the outcome, the loaded series is priced in range, so the chart can
      plot it: each point inside the plot area, each price strictly between its edges. */
  lemma LoadedSeriesPlots(outcome: FetchOutcome, now: int, sine: Sine, day: CalendarDay)
    ensures var series := LoadedSeries(outcome, now, sine, day);
      PricesInMockRange(series) && Chart.PricesPositive(series) &&
      (Chart.Render(series).NoData? <==> |series| == 0)
  {
  }

  /** The state App keeps: the series, whether a load is under way, and the error. */
  class App {
    var historicalData: seq<HistoricalPoint>
    var loading: bool
    var error: Option<string>

    /** Every series the dashboard holds is priced in range. */
    predicate Valid()
      reads this
    {
      PricesInMockRange(historicalData)
    }

    /** The initial state: no data, loading, no error. */
    constructor ()
      ensures Valid()
      ensures historicalData == [] && loading && error == None
    {
      historicalData := [];
      loading := true;
      error := None;
    }

    /** The start of a load: the flag goes up and the error is cleared. */
    method BeginLoad()
      requires Valid()
      modifies this
      ensures Valid()
      ensures loading && error == None
      ensures historicalData == old(historicalData)
    {
      loading := true;
      error := None;
    }

    /** The end of a load, once the fetch has produced its outcome: the series is
        built from the live data, or from the fallback feed with the advisory set. */
    method CompleteLoad(outcome: FetchOutcome, now: int, sine: Sine, day: CalendarDay)
      modifies this
      ensures Valid()
      ensures historicalData == LoadedSeries(outcome, now, sine, day)
      ensures error == if outcome.OkWithData? then old(error) else Some(Advisory)
      ensures !loading
    {
      match outcome {
        case OkWithData(data) =>
          var processedData := GenerateMockData(data, sine, day);
          historicalData := processedData;
        case _ =>
          var fallbackFngData := FallbackEntries(now);
          var processedData := GenerateMockData(fallbackFngData, sine, day);
          historicalData := processedData;
          error := Some(Advisory);
      }
      loading := false;
    }

    /** fetchSentimentData: the whole load. */
    method FetchSentimentData(outcome: FetchOutcome, now: int, sine: Sine, day: CalendarDay)
      requires Valid()
      modifies this
      ensures Valid()
      ensures historicalData == LoadedSeries(outcome, now, sine, day)
      ensures error == LoadedError(outcome)
      ensures !loading
    {
      BeginLoad();
      CompleteLoad(outcome, now, sine, day);
    }

    /** The latest point of the current series. */
    function LatestData(): (r: Option<HistoricalPoint>)
      reads this
      ensures r == None <==> |historicalData| == 0
      ensures r != None ==> r.value == historicalData[|historicalData| - 1]
    {
      Latest(historicalData)
    }

    /** `<HistoricalChart data={historicalData} />`: the chart of the current series.
        The object invariant gives the positive prices the price axis needs. */
    function HistoricalChart(): (v: Chart.ChartView)
      reads this
      requires Valid()
      ensures v.NoData? <==> |historicalData| == 0
      ensures v.Plot? ==> |v.scoreLine| == |historicalData| && |v.priceLine| == |historicalData|
    {
      Chart.Render(historicalData)
    }
  }
}
