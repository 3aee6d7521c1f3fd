/** The historical chart's scaler (HistoricalChart): a series is mapped onto a
    fixed 600 x 300 canvas with a 40-unit padding, with the score on a fixed 0..100
    axis, the price on an axis fitted to the data with 5% headroom, five sentiment
    zones behind the lines and a subsampled date axis. Only coordinates are
    modelled; the SVG markup built from them is not. */
module Chart {
  import opened Series
  import Classifier

  const Width: real := 600.0
  const Height: real := 300.0
  const Padding: real := 40.0
  const ChartWidth: real := Width - 2.0 * Padding
  const ChartHeight: real := Height - 2.0 * Padding
  const MinScore: real := 0.0
  const MaxScore: real := 100.0

  /** Edges of the plot area inside the padding. */
  const Left: real := Padding
  const Right: real := Padding + ChartWidth
  const Top: real := Padding
  const Bottom: real := Padding + ChartHeight

  lemma CanvasDimensions()
    ensures ChartWidth == 520.0 && ChartHeight == 220.0
    ensures Left == 40.0 && Right == 560.0 && Top == 40.0 && Bottom == 260.0
  {
  }

  // ---------------------------------------------------------------- division helpers

  /** A fraction of a positive denominator whose numerator lies between 0 and the
      denominator lies in [0, 1]; strictly inside when the numerator is. */
  lemma FractionInUnit(a: real, b: real)
    requires 0.0 < b && 0.0 <= a <= b
    ensures 0.0 <= a / b <= 1.0
    ensures 0.0 < a < b ==> 0.0 < a / b < 1.0
  {
  }

  /** Dividing by a positive number keeps the order. */
  lemma DivideKeepsOrder(a: real, c: real, b: real)
    requires 0.0 < b && a < c
    ensures a / b < c / b
  {
  }

  // ---------------------------------------------------------------- x axis

  /** getX with the single-point case defined: a series of one point is drawn at the
      left edge. For two or more points the first is at the left edge, the last at
      the right edge, and the others evenly in between. */
  function GetX(index: nat, n: nat): (x: real)
    requires index < n
    ensures Left <= x <= Right
    ensures index == 0 ==> x == Left
    ensures n >= 2 && index == n - 1 ==> x == Right
  {
    if n == 1 then Padding
    else
      FractionInUnit(index as real, (n - 1) as real);
      Padding + (index as real / (n - 1) as real) * ChartWidth
  }

  lemma GetXStrictlyIncreasing(i: nat, j: nat, n: nat)
    requires i < j < n
    ensures GetX(i, n) < GetX(j, n)
  {
    DivideKeepsOrder(i as real, j as real, (n - 1) as real);
  }

  /** The outcome of a JavaScript division or of arithmetic on it, as far as getX needs. */
  datatype JsNumber = Finite(value: real) | NaN | Infinite(positive: bool)

  /** JavaScript division: a finite quotient exactly for a non-zero divisor (and
      then it times the divisor gives the dividend), NaN for 0/0, otherwise an
      infinity with the dividend's sign. */
  function JsDivide(a: real, b: real): (q: JsNumber)
    ensures q.Finite? <==> b != 0.0
    ensures q.Finite? ==> q.value * b == a
    ensures q == NaN <==> b == 0.0 && a == 0.0
    ensures q.Infinite? ==> q.positive == (a > 0.0)
  {
    if b != 0.0 then Finite(a / b)
    else if a == 0.0 then NaN
    else Infinite(a > 0.0)
  }

  /** getX as written: `PADDING + (index / (data.length - 1)) * CHART_WIDTH`, with no
      guard for a single point (NaN times or plus a number is NaN, an infinity stays
      one). It agrees with GetX whenever there are two or more points. */
  function GetXAsWritten(index: nat, n: nat): (x: JsNumber)
    requires index < n
    ensures n >= 2 ==> x == Finite(GetX(index, n))
  {
    match JsDivide(index as real, (n - 1) as real)
    case Finite(q) => Finite(Padding + q * ChartWidth)
    case other => other
  }

  /** A series of one point: the code as written computes 0/0 and places the point
      at NaN; the corrected GetX places it at the left edge. */
  lemma SinglePointX()
    ensures GetXAsWritten(0, 1) == NaN
    ensures GetX(0, 1) == Left
  {
  }

  // ---------------------------------------------------------------- score axis

  /** getYScore: the fixed score domain 0..100 onto the plot height, upside down. */
  function GetYScore(score: real): (y: real)
    ensures MinScore <= score <= MaxScore ==> Top <= y <= Bottom
  {
    Padding + ChartHeight - ((score - MinScore) / (MaxScore - MinScore)) * ChartHeight
  }

  lemma GetYScoreEndpoints()
    ensures GetYScore(MinScore) == Bottom
    ensures GetYScore(MaxScore) == Top
  {
  }

  lemma GetYScoreStrictlyDecreasing(a: real, b: real)
    requires a < b
    ensures GetYScore(a) > GetYScore(b)
  {
  }

  /** scoreToHeight: the height that a span of score points takes on the score axis. */
  function ScoreToHeight(span: real): (h: real)
    ensures span >= 0.0 ==> h >= 0.0
    ensures span > 0.0 ==> h > 0.0
  {
    (span / MaxScore) * ChartHeight
  }

  /** The height of a span is the distance between the y values of its two ends. */
  lemma ScoreToHeightIsDistance(low: real, high: real)
    ensures GetYScore(high) + ScoreToHeight(high - low) == GetYScore(low)
  {
  }

  // ---------------------------------------------------------------- sentiment zones

  datatype Zone = Zone(start: int, end: int, color: string)

  /** The five zone bands behind the lines (their fill opacity is presentation). */
  const SentimentZones: seq<Zone> := [
    Zone(0, 25, "#dc2626"),
    Zone(25, 45, "#f97316"),
    Zone(45, 55, "#facc15"),
    Zone(55, 75, "#4ade80"),
    Zone(75, 100, "#16a34a")
  ]

  datatype Rect = Rect(x: real, y: real, width: real, height: real)

  /** The rectangle of one zone: from the y of its upper score down by its height. */
  function ZoneRect(z: Zone): (r: Rect)
    ensures r.y == GetYScore(z.end as real)
    ensures r.y + r.height == GetYScore(z.start as real)
    ensures r.x == Left && r.width == ChartWidth
  {
    ScoreToHeightIsDistance(z.start as real, z.end as real);
    Rect(Padding, GetYScore(z.end as real), ChartWidth, ScoreToHeight((z.end - z.start) as real))
  }

  function ZoneRects(): (rs: seq<Rect>)
    ensures |rs| == |SentimentZones|
    ensures forall k :: 0 <= k < |rs| ==> rs[k] == ZoneRect(SentimentZones[k])
  {
    seq(|SentimentZones|, k requires 0 <= k < |SentimentZones| => ZoneRect(SentimentZones[k]))
  }

  /** The zones' edges are the classifier's thresholds, and they cover 0..100. */
  lemma ZoneEdgesAreThresholds()
    ensures |SentimentZones| == |Classifier.Bands|
    ensures SentimentZones[0].start == 0 && SentimentZones[|SentimentZones| - 1].end == 100
    ensures forall k :: 0 <= k < |Classifier.Thresholds| ==>
      SentimentZones[k].end == Classifier.Thresholds[k] == SentimentZones[k + 1].start
  {
  }

  /** The zone rectangles tile the plot area: each one has positive height, the
      lowest ends at the bottom edge, the highest starts at the top edge, and each
      zone's lower edge is the upper edge of the zone below. */
  lemma ZonesTilePlotArea()
    ensures var rs := ZoneRects();
      |rs| == 5 &&
      rs[0].y + rs[0].height == Bottom &&
      rs[4].y == Top &&
      (forall k :: 0 <= k < 4 ==> rs[k + 1].y + rs[k + 1].height == rs[k].y) &&
      (forall k :: 0 <= k < 5 ==> rs[k].height > 0.0 && rs[k].x == Left && rs[k].width == ChartWidth)
  {
    var rs := ZoneRects();
    forall k | 0 <= k < 5
      ensures rs[k].height > 0.0
    {
      assert rs[k] == ZoneRect(SentimentZones[k]);
      GetYScoreStrictlyDecreasing(SentimentZones[k].start as real, SentimentZones[k].end as real);
    }
  }

  /** A score's point on the score line lies inside the zone of its classifier
      band, and that zone is drawn in the band's own colour. */
  lemma ScoreLiesInItsBandZone(score: Score)
    ensures var k := Classifier.BandIndex(score);
      k < |SentimentZones| &&
      SentimentZones[k].start <= score <= SentimentZones[k].end &&
      Classifier.GetClassification(score).hex == SentimentZones[k].color &&
      ZoneRects()[k].y <= GetYScore(score as real) <= ZoneRects()[k].y + ZoneRects()[k].height
  {
    var k := Classifier.BandIndex(score);
    var z := SentimentZones[k];
    assert ZoneRects()[k] == ZoneRect(z);
    if z.start < score { GetYScoreStrictlyDecreasing(z.start as real, score as real); }
    if score < z.end { GetYScoreStrictlyDecreasing(score as real, z.end as real); }
  }

  // ---------------------------------------------------------------- price axis

  function MinOf(s: seq<int>): (m: int)
    requires |s| > 0
    ensures m in s
    ensures forall k :: 0 <= k < |s| ==> m <= s[k]
  {
    if |s| == 1 then s[0]
    else var rest := MinOf(s[1..]); if s[0] <= rest then s[0] else rest
  }

  function MaxOf(s: seq<int>): (m: int)
    requires |s| > 0
    ensures m in s
    ensures forall k :: 0 <= k < |s| ==> s[k] <= m
  {
    if |s| == 1 then s[0]
    else var rest := MaxOf(s[1..]); if s[0] >= rest then s[0] else rest
  }

  /** `data.map(d => d.btcPrice)`. */
  function Prices(data: seq<HistoricalPoint>): (ps: seq<int>)
    ensures |ps| == |data|
    ensures forall i :: 0 <= i < |data| ==> ps[i] == data[i].btcPrice
  {
    seq(|data|, i requires 0 <= i < |data| => data[i].btcPrice)
  }

  predicate PricesPositive(data: seq<HistoricalPoint>)
  {
    forall i :: 0 <= i < |data| ==> data[i].btcPrice > 0
  }

  /** minPrice: the lowest price less 5%. */
  function MinPrice(data: seq<HistoricalPoint>): (m: real)
    requires |data| > 0
    ensures exists i :: 0 <= i < |data| && m == data[i].btcPrice as real * 0.95
    ensures forall i :: 0 <= i < |data| ==> m <= data[i].btcPrice as real * 0.95
  {
    MinOf(Prices(data)) as real * 0.95
  }

  /** maxPrice: the highest price plus 5%. */
  function MaxPrice(data: seq<HistoricalPoint>): (m: real)
    requires |data| > 0
    ensures exists i :: 0 <= i < |data| && m == data[i].btcPrice as real * 1.05
    ensures forall i :: 0 <= i < |data| ==> data[i].btcPrice as real * 1.05 <= m
  {
    MaxOf(Prices(data)) as real * 1.05
  }

  /** With positive prices every price lies strictly inside the price domain, so
      the domain has a positive span even when all prices are equal. */
  lemma PriceDomainProper(data: seq<HistoricalPoint>)
    requires |data| > 0 && PricesPositive(data)
    ensures MinPrice(data) < MaxPrice(data)
    ensures forall i :: 0 <= i < |data| ==>
      MinPrice(data) < data[i].btcPrice as real < MaxPrice(data)
  {
    var ps := Prices(data);
    var lo := MinOf(ps);
    var hi := MaxOf(ps);
    assert ps[0] == data[0].btcPrice;
    forall i | 0 <= i < |data|
      ensures MinPrice(data) < data[i].btcPrice as real < MaxPrice(data)
    {
      assert lo <= ps[i] <= hi;
      assert lo > 0;
    }
  }

  /** getYPrice: the price domain onto the plot height, upside down. */
  function GetYPrice(price: real, minPrice: real, maxPrice: real): (y: real)
    requires minPrice < maxPrice
    ensures minPrice <= price <= maxPrice ==> Top <= y <= Bottom
    ensures minPrice < price < maxPrice ==> Top < y < Bottom
  {
    FractionInUnit(if minPrice <= price <= maxPrice then price - minPrice else 0.0, maxPrice - minPrice);
    Padding + ChartHeight - ((price - minPrice) / (maxPrice - minPrice)) * ChartHeight
  }

  /** The ends of the price domain and its midpoint, where the three price ticks go. */
  lemma GetYPriceTicks(minPrice: real, maxPrice: real)
    requires minPrice < maxPrice
    ensures GetYPrice(minPrice, minPrice, maxPrice) == Bottom
    ensures GetYPrice(maxPrice, minPrice, maxPrice) == Top
    ensures GetYPrice((minPrice + maxPrice) / 2.0, minPrice, maxPrice) == (Top + Bottom) / 2.0
  {
    var span := maxPrice - minPrice;
    assert (maxPrice - minPrice) / span == 1.0;
    assert ((minPrice + maxPrice) / 2.0 - minPrice) / span == 0.5;
  }

  lemma GetYPriceStrictlyDecreasing(p: real, q: real, minPrice: real, maxPrice: real)
    requires minPrice < maxPrice && p < q
    ensures GetYPrice(p, minPrice, maxPrice) > GetYPrice(q, minPrice, maxPrice)
  {
    DivideKeepsOrder(p - minPrice, q - minPrice, maxPrice - minPrice);
  }

  // ---------------------------------------------------------------- date axis

  /** `Math.ceil(n / 8)`: the least stride that needs at most eight steps to cover n. */
  function LabelStride(n: nat): (s: nat)
    requires n >= 1
    ensures s >= 1
    ensures n <= 8 * s && 8 * (s - 1) < n
  {
    (n + 7) / 8
  }

  /** The indices below n that `data.filter((_, i) => i % s === 0)` keeps, in order. */
  function DateLabelIndices(n: nat, s: nat): (r: seq<nat>)
    requires s >= 1
    ensures forall k :: k in r <==> 0 <= k < n && k % s == 0
    ensures forall a :: 0 <= a < |r| ==> r[a] < n
    ensures forall a, b :: 0 <= a < b < |r| ==> r[a] < r[b]
  {
    if n == 0 then []
    else DateLabelIndices(n - 1, s) + (if (n - 1) % s == 0 then [n - 1] else [])
  }

  lemma MulMonotone(x: int, y: int, s: nat)
    requires x <= y
    ensures x * s <= y * s
  {
  }

  /** Integer division by s is q exactly when the dividend is in [q*s, q*s + s). */
  lemma DivIs(a: nat, s: nat, q: nat)
    requires s >= 1 && q * s <= a < q * s + s
    ensures a / s == q
  {
    var d := a / s;
    assert a == d * s + a % s;
    if d < q { MulMonotone(d + 1, q, s); }
    if d > q { MulMonotone(q + 1, d, s); }
  }

  /** One more number below the bound adds one multiple exactly when it is a multiple. */
  lemma CeilStep(m: nat, s: nat)
    requires s >= 1
    ensures (m + s) / s == (m + s - 1) / s + (if m % s == 0 then 1 else 0)
  {
    var q := m / s;
    assert m == q * s + m % s;
    if m % s == 0 {
      DivIs(m + s - 1, s, q);
      DivIs(m + s, s, q + 1);
    } else {
      DivIs(m + s - 1, s, q + 1);
      DivIs(m + s, s, q + 1);
    }
  }

  /** There are ceil(n / s) multiples of s below n. */
  lemma {:induction false} DateLabelCount(n: nat, s: nat)
    requires s >= 1
    ensures |DateLabelIndices(n, s)| == (n + s - 1) / s
  {
    if n == 0 {
      DivIs(s - 1, s, 0);
    } else {
      DateLabelCount(n - 1, s);
      CeilStep(n - 1, s);
    }
  }

  /** With the stride ceil(n / 8) the date axis gets at most eight labels, the first
      one always at index 0. */
  lemma AtMostEightDateLabels(n: nat)
    requires n >= 1
    ensures var r := DateLabelIndices(n, LabelStride(n));
      0 < |r| <= 8 && r[0] == 0
  {
    var s := LabelStride(n);
    var r := DateLabelIndices(n, s);
    DateLabelCount(n, s);
    assert n + s - 1 < 9 * s;
    var c := (n + s - 1) / s;
    assert n + s - 1 == c * s + (n + s - 1) % s;
    if c > 8 { MulMonotone(9, c, s); }
    assert 0 in r;
  }

  /** `substring(start)`: everything from position start on, or "" past the end. */
  function SubstringFrom(s: string, start: nat): (r: string)
    ensures |r| == if start < |s| then |s| - start else 0
    ensures forall k :: 0 <= k < |r| ==> r[k] == s[start + k]
  {
    if start < |s| then s[start..] else ""
  }

  // ---------------------------------------------------------------- the whole chart

  datatype Point2 = Point2(x: real, y: real)
  datatype Tick = Tick(x: real, y: real, value: real)
  datatype DateLabel = DateLabel(x: real, y: real, text: string)

  /** What HistoricalChart draws, as coordinates: the empty-data notice, or the two
      polylines, the zone rectangles, the axis ticks and the date labels. */
  datatype ChartView =
    | NoData
    | Plot(scoreLine: seq<Point2>, priceLine: seq<Point2>, zones: seq<Rect>,
           scoreTicks: seq<Tick>, priceTicks: seq<Tick>, dateLabels: seq<DateLabel>)

  /** The score polyline: one vertex per point, in series order. */
  function ScoreLine(data: seq<HistoricalPoint>): (line: seq<Point2>)
    requires |data| > 0
    ensures |line| == |data|
    ensures forall i :: 0 <= i < |data| ==>
      Left <= line[i].x <= Right && Top <= line[i].y <= Bottom &&
      line[i] == Point2(GetX(i, |data|), GetYScore(data[i].fearGreedScore as real))
  {
    seq(|data|, i requires 0 <= i < |data| =>
      Point2(GetX(i, |data|), GetYScore(data[i].fearGreedScore as real)))
  }

  /** The price polyline: vertex i is at its point's x and the y of its price on
      the fitted price axis, strictly between the top and bottom edges. */
  function PriceLine(data: seq<HistoricalPoint>): (line: seq<Point2>)
    requires |data| > 0 && PricesPositive(data)
    ensures MinPrice(data) < MaxPrice(data)
    ensures |line| == |data|
    ensures forall i :: 0 <= i < |data| ==>
      line[i].x == GetX(i, |data|) && Top < line[i].y < Bottom &&
      line[i].y == GetYPrice(data[i].btcPrice as real, MinPrice(data), MaxPrice(data))
  {
    PriceDomainProper(data);
    seq(|data|, i requires 0 <= i < |data| =>
      Point2(GetX(i, |data|), GetYPrice(data[i].btcPrice as real, MinPrice(data), MaxPrice(data))))
  }

  const ScoreTickValues: seq<int> := [0, 25, 50, 75, 100]

  /** The left axis: five fixed ticks, evenly 55 apart from the bottom to the top edge. */
  function ScoreTicks(): (ticks: seq<Tick>)
    ensures |ticks| == |ScoreTickValues|
    ensures [ticks[0].y, ticks[1].y, ticks[2].y, ticks[3].y, ticks[4].y]
      == [260.0, 205.0, 150.0, 95.0, 40.0]
    ensures forall k :: 0 <= k < |ticks| ==> ticks[k].value == ScoreTickValues[k] as real
  {
    seq(|ScoreTickValues|, k requires 0 <= k < |ScoreTickValues| =>
      Tick(Padding - 5.0, GetYScore(ScoreTickValues[k] as real), ScoreTickValues[k] as real))
  }

  /** The right axis: the two ends of the price domain and its midpoint, at the
      bottom edge, the middle and the top edge. */
  function PriceTicks(minPrice: real, maxPrice: real): (ticks: seq<Tick>)
    requires minPrice < maxPrice
    ensures |ticks| == 3
    ensures [ticks[0].y, ticks[1].y, ticks[2].y] == [260.0, 150.0, 40.0]
    ensures [ticks[0].value, ticks[1].value, ticks[2].value]
      == [minPrice, (minPrice + maxPrice) / 2.0, maxPrice]
  {
    GetYPriceTicks(minPrice, maxPrice);
    var prices := [minPrice, (minPrice + maxPrice) / 2.0, maxPrice];
    seq(3, k requires 0 <= k < 3 => Tick(Width - Padding + 5.0, GetYPrice(prices[k], minPrice, maxPrice), prices[k]))
  }

  /** The date axis: at most eight labels, the first at the left edge, each at the
      x of its point and showing the month and day of its date. */
  function DateLabels(data: seq<HistoricalPoint>): (labels: seq<DateLabel>)
    requires |data| > 0
    ensures 0 < |labels| <= 8
    ensures labels[0].x == Left
    ensures var indices := DateLabelIndices(|data|, LabelStride(|data|));
      |labels| == |indices| &&
      forall k :: 0 <= k < |labels| ==>
        labels[k].x == GetX(indices[k], |data|) && labels[k].y == Height - Padding + 15.0 &&
        labels[k].text == SubstringFrom(data[indices[k]].date, 5)
  {
    var n := |data|;
    var indices := DateLabelIndices(n, LabelStride(n));
    AtMostEightDateLabels(n);
    seq(|indices|, k requires 0 <= k < |indices| =>
      DateLabel(GetX(indices[k], n), Height - Padding + 15.0, SubstringFrom(data[indices[k]].date, 5)))
  }

  /** HistoricalChart as coordinates. The price axis needs positive prices, which every
      series the builder produces has. The x positions come from the corrected GetX,
      so a one-point series is drawn at the left edge. */
  function Render(data: seq<HistoricalPoint>): (v: ChartView)
    requires PricesPositive(data)
    ensures v.NoData? <==> |data| == 0
  {
    if |data| == 0 then NoData
    else
      PriceDomainProper(data);
      Plot(ScoreLine(data), PriceLine(data), ZoneRects(), ScoreTicks(),
           PriceTicks(MinPrice(data), MaxPrice(data)), DateLabels(data))
  }

  /** A non-empty series is plotted: every point of both lines is inside the plot
      area (each price strictly between its top and bottom edges), the points run
      left to right in series order from the left edge (to the right edge when there
      are two or more), the axes have their fixed ticks, the zones tile the plot
      area, and there are at most eight date labels. */
  lemma RenderInsidePlot(data: seq<HistoricalPoint>)
    requires |data| > 0 && PricesPositive(data)
    ensures var v := Render(data);
      v.Plot? &&
      |v.scoreLine| == |data| && |v.priceLine| == |data| &&
      (forall i :: 0 <= i < |data| ==>
        Left <= v.scoreLine[i].x <= Right && Top <= v.scoreLine[i].y <= Bottom &&
        v.priceLine[i].x == v.scoreLine[i].x && Top < v.priceLine[i].y < Bottom &&
        v.priceLine[i].y == GetYPrice(data[i].btcPrice as real, MinPrice(data), MaxPrice(data))) &&
      MinPrice(data) < MaxPrice(data) &&
      (forall i, j :: 0 <= i < j < |data| ==> v.scoreLine[i].x < v.scoreLine[j].x) &&
      v.scoreLine[0].x == Left &&
      (|data| >= 2 ==> v.scoreLine[|data| - 1].x == Right) &&
      |v.scoreTicks| == 5 && v.scoreTicks[0].y == Bottom && v.scoreTicks[4].y == Top &&
      |v.priceTicks| == 3 && v.priceTicks[0].y == Bottom && v.priceTicks[2].y == Top &&
      v.zones == ZoneRects() &&
      0 < |v.dateLabels| <= 8
  {
    var v := Render(data);
    var n := |data|;
    forall i, j | 0 <= i < j < n
      ensures v.scoreLine[i].x < v.scoreLine[j].x
    {
      GetXStrictlyIncreasing(i, j, n);
    }
  }
}
