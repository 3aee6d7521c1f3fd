/** The sentiment classifier: a Fear & Greed score is put into one of five bands
    by a descending scan over the thresholds 75, 55, 45 and 25. */
module Classifier {

  /** What the classifier returns: a band with its label, text colour class and hex
      colour, or the placeholder the dashboard shows while there is no reading
      (that placeholder has no hex colour). */
  datatype Classification =
    | Band(name: string, color: string, hex: string)
    | Placeholder(name: string, color: string)

  const ExtremeFear: Classification := Band("Extreme Fear", "text-red-600", "#dc2626")
  const Fear: Classification := Band("Fear", "text-orange-500", "#f97316")
  const Neutral: Classification := Band("Neutral", "text-yellow-400", "#facc15")
  const Greed: Classification := Band("Greed", "text-green-400", "#4ade80")
  const ExtremeGreed: Classification := Band("Extreme Greed", "text-green-600", "#16a34a")

  /** The five bands from lowest to highest score. */
  const Bands: seq<Classification> := [ExtremeFear, Fear, Neutral, Greed, ExtremeGreed]

  /** Lower bound of Bands[k + 1], for k = 0 .. 3; Bands[0] has no lower bound. */
  const Thresholds: seq<int> := [25, 45, 55, 75]

  predicate StrictlyIncreasing(ts: seq<int>)
  {
    forall i, j :: 0 <= i < j < |ts| ==> ts[i] < ts[j]
  }

  /** The number of thresholds that `score` has reached. For increasing thresholds
      these are exactly the first `r` of them. */
  function CountReached(ts: seq<int>, score: int): (r: nat)
    ensures r <= |ts|
    ensures StrictlyIncreasing(ts) ==>
      forall j :: 0 <= j < |ts| ==> (j < r <==> ts[j] <= score)
  {
    if ts == [] then 0
    else (if ts[0] <= score then 1 else 0) + CountReached(ts[1..], score)
  }

  /** Reference definition of the band of a score, independent of the if-chain:
      the band index is the number of thresholds the score reaches, so the score
      lies in the half-open range [Thresholds[k - 1], Thresholds[k]). */
  function BandIndex(score: int): (k: nat)
    ensures k < |Bands|
    ensures 0 < k ==> Thresholds[k - 1] <= score
    ensures k < |Thresholds| ==> score < Thresholds[k]
  {
    CountReached(Thresholds, score)
  }

  /** getClassification: the highest band whose threshold the score reaches.
      The result is always the band that BandIndex picks. */
  function GetClassification(score: int): (c: Classification)
    ensures c == Bands[BandIndex(score)]
  {
    if score >= 75 then ExtremeGreed
    else if score >= 55 then Greed
    else if score >= 45 then Neutral
    else if score >= 25 then Fear
    else ExtremeFear
  }

  /** Every score gets exactly one of the five bands: the five labels are distinct,
      so the band determines the label and the label the band. */
  lemma ExactlyOneBand(score: int)
    ensures GetClassification(score).Band?
    ensures exists k :: 0 <= k < |Bands| && GetClassification(score) == Bands[k]
    ensures forall k :: 0 <= k < |Bands| ==>
      (GetClassification(score).name == Bands[k].name <==> k == BandIndex(score))
  {
    assert GetClassification(score) == Bands[BandIndex(score)];
  }

  /** A threshold belongs to the band above it; one point below it belongs to the
      band below. */
  lemma ThresholdGoesToHigherBand(j: nat)
    requires j < |Thresholds|
    ensures BandIndex(Thresholds[j]) == j + 1
    ensures BandIndex(Thresholds[j] - 1) == j
  {
  }

  /** The band index never decreases as the score grows. */
  lemma BandIndexMonotone(a: int, b: int)
    requires a <= b
    ensures BandIndex(a) <= BandIndex(b)
  {
  }

  /** The classifier's boundary values: each threshold goes to the higher band,
      the score just below it to the lower one. */
  lemma BoundaryExamples()
    ensures GetClassification(24).name == "Extreme Fear"
    ensures GetClassification(25).name == "Fear"
    ensures GetClassification(44).name == "Fear"
    ensures GetClassification(45).name == "Neutral"
    ensures GetClassification(54).name == "Neutral"
    ensures GetClassification(55).name == "Greed"
    ensures GetClassification(74).name == "Greed"
    ensures GetClassification(75).name == "Extreme Greed"
  {
  }
}
