/** The gauge needle (GaugeDisplay's rotationDegrees): a score on 0..100 is a
    needle angle on the half-turn from -90 to 90 degrees. */
module Gauge {

  function RotationDegrees(score: int): (deg: real)
    ensures 0 <= score <= 100 ==> -90.0 <= deg <= 90.0
  {
    -90.0 + (score as real / 100.0) * 180.0
  }

  /** The two ends and the middle of the dial. */
  lemma RotationLandmarks()
    ensures RotationDegrees(0) == -90.0
    ensures RotationDegrees(50) == 0.0
    ensures RotationDegrees(100) == 90.0
  {
  }

  /** A higher score turns the needle further to the right. */
  lemma RotationStrictlyIncreasing(a: int, b: int)
    requires a < b
    ensures RotationDegrees(a) < RotationDegrees(b)
  {
  }

  /** Each step of one score point turns the needle by the same 1.8 degrees. */
  lemma RotationStep(score: int)
    ensures RotationDegrees(score + 1) - RotationDegrees(score) == 1.8
  {
  }
}
