/** The scoring rule of a round: 5000 points at distance zero, 25 points
    fewer per kilometre, rounded as JavaScript's `Math.round` does and never
    below zero. */
module Scoring {

  /** Points for a perfect guess, and the most one round can earn. */
  const MaxPoints: int := 5000

  /** JavaScript's `Math.round`: the nearest integer, a half rounded up
      (toward positive infinity). */
  function JsRound(x: real): (n: int)
    ensures x - 0.5 < n as real <= x + 0.5
  {
    (x + 0.5).Floor
  }

  function Max(a: int, b: int): (m: int)
    ensures m >= a && m >= b && (m == a || m == b)
  {
    if a >= b then a else b
  }

  /** `Math.max(0, Math.round(5000 - dist * 25))`. */
  function Points(distKm: real): (p: int)
    ensures 0 <= p
    ensures 0.0 <= distKm ==> p <= MaxPoints
  {
    Max(0, JsRound(5000.0 - distKm * 25.0))
  }

  /** Whenever a guess still earns something, the points are the rounded
      linear decay itself, within half a point of `5000 - 25 d`. */
  lemma PointsNearLinear(distKm: real)
    requires Points(distKm) > 0
    ensures 5000.0 - 25.0 * distKm - 0.5 < Points(distKm) as real <= 5000.0 - 25.0 * distKm + 0.5
  {
  }

  /** A guess on the spot earns the full 5000 points. */
  lemma PointsAtZero()
    ensures Points(0.0) == MaxPoints
  {
  }

  /** Farther never scores more. */
  lemma PointsMonotone(d1: real, d2: real)
    requires d1 <= d2
    ensures Points(d2) <= Points(d1)
  {
  }

  /** The zero threshold: a guess earns something exactly when it is at most
      199.98 km away, so every distance from 200 km on earns nothing. */
  lemma PointsPositiveIff(distKm: real)
    ensures Points(distKm) > 0 <==> distKm <= 199.98
  {
  }

  lemma PointsZeroFrom200(distKm: real)
    requires 200.0 <= distKm
    ensures Points(distKm) == 0
  {
  }

  /** Linear decay: while a guess still scores, 40 more metres cost exactly
      one point. */
  lemma PointsStep(distKm: real)
    requires Points(distKm) > 0
    ensures Points(distKm + 0.04) == Points(distKm) - 1
  {
  }

}
