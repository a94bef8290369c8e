/** Centroid defuzzification over the sampled output universe, and the
    three-band classification of the crisp score.
 */
module Defuzzify {
  import opened Membership
  import opened Variables

  datatype Option<T> = None | Some(value: T)

  /** `Σ mu[i]`, the area of a sampled fuzzy set. */
  function Sum(mu: seq<real>): real
    decreases |mu|
  {
    if |mu| == 0 then 0.0 else Sum(mu[..|mu| - 1]) + mu[|mu| - 1]
  }

  /** `Σ xs[i] · mu[i]`, the first moment of a sampled fuzzy set. */
  function Moment(xs: seq<real>, mu: seq<real>): real
    requires |xs| == |mu|
    decreases |mu|
  {
    if |mu| == 0 then 0.0
    else Moment(xs[..|xs| - 1], mu[..|mu| - 1]) + xs[|xs| - 1] * mu[|mu| - 1]
  }

  /** With non-negative degrees the area is 0 exactly when every degree is 0. */
  lemma {:induction false} SumZeroIffEmpty(mu: seq<real>)
    requires forall i :: 0 <= i < |mu| ==> 0.0 <= mu[i]
    ensures 0.0 <= Sum(mu)
    ensures Sum(mu) == 0.0 <==> forall i :: 0 <= i < |mu| ==> mu[i] == 0.0
    decreases |mu|
  {
    if |mu| > 0 {
      var init := mu[..|mu| - 1];
      assert forall i :: 0 <= i < |init| ==> init[i] == mu[i];
      SumZeroIffEmpty(init);
    }
  }

  /** When every sample point lies in the universe `[0, 10]` and the degrees
      are non-negative, the moment lies between 0 and 10 times the area. */
  lemma {:induction false} MomentBetween(xs: seq<real>, mu: seq<real>)
    requires |xs| == |mu|
    requires forall i :: 0 <= i < |xs| ==> 0.0 <= xs[i] <= UniverseMax
    requires forall i :: 0 <= i < |mu| ==> 0.0 <= mu[i]
    ensures 0.0 <= Moment(xs, mu) <= UniverseMax * Sum(mu)
    decreases |mu|
  {
    if |mu| > 0 {
      var xs', mu' := xs[..|xs| - 1], mu[..|mu| - 1];
      assert forall i :: 0 <= i < |xs'| ==> xs'[i] == xs[i] && mu'[i] == mu[i];
      MomentBetween(xs', mu');
      BoundStep(Sum(mu), Sum(mu'), Moment(xs, mu), Moment(xs', mu'), xs[|xs| - 1], mu[|mu| - 1]);
    }
  }

  // Arithmetic facts the solver needs spelled out.

  /** Adding one sample point `x` in the universe with degree `m >= 0` keeps
      the moment between 0 and 10 times the area. */
  lemma BoundStep(area: real, area': real, moment: real, moment': real, x: real, m: real)
    requires 0.0 <= x <= UniverseMax && 0.0 <= m
    requires area == area' + m && moment == moment' + x * m
    requires 0.0 <= moment' <= UniverseMax * area'
    ensures 0.0 <= moment <= UniverseMax * area
  {
    assert 0.0 <= x * m <= UniverseMax * m;
    SplitProduct(UniverseMax, area, area', m);
  }

  lemma SplitProduct(c: real, ab: real, a: real, b: real)
    requires ab == a + b
    ensures c * ab == c * a + c * b
  {
  }

  lemma QuotientBetween(m: real, area: real)
    requires area > 0.0 && 0.0 <= m <= UniverseMax * area
    ensures 0.0 <= m / area <= UniverseMax
  {
    var c := m / area;
    assert c * area == m;
  }

  /** Centre of gravity `Σ x·μ(x) / Σ μ(x)`; there is none when the area is 0. */
  function Centroid(xs: seq<real>, mu: seq<real>): (r: Option<real>)
    requires |xs| == |mu|
    ensures r.None? <==> Sum(mu) == 0.0
    ensures r.Some? ==> r.value * Sum(mu) == Moment(xs, mu)
  {
    var area := Sum(mu);
    if area == 0.0 then None else Some(Moment(xs, mu) / area)
  }

  /** The centroid of a fuzzy set over sample points of the universe is a
      convex combination of those points, so it lies in `[0, 10]`; and it is
      missing exactly when every degree is 0. */
  lemma CentroidWithinBounds(xs: seq<real>, mu: seq<real>)
    requires |xs| == |mu|
    requires forall i :: 0 <= i < |xs| ==> 0.0 <= xs[i] <= UniverseMax
    requires forall i :: 0 <= i < |mu| ==> 0.0 <= mu[i]
    ensures Centroid(xs, mu).Some? ==> 0.0 <= Centroid(xs, mu).value <= UniverseMax
    ensures Centroid(xs, mu).None? <==> forall i :: 0 <= i < |mu| ==> mu[i] == 0.0
  {
    SumZeroIffEmpty(mu);
    MomentBetween(xs, mu);
    if Sum(mu) != 0.0 {
      QuotientBetween(Moment(xs, mu), Sum(mu));
    }
  }

  /** Lower bounds of the middle and the high band. */
  const MidFrom: real := 4.0
  const HighFrom: real := 7.0

  /** Three bands, each closed at its lower end: below 4 is low, from 4 up
      to 7 is middle, from 7 on is high. */
  function Classify(score: real): (c: Level)
    ensures c == Low <==> score < MidFrom
    ensures c == Mid <==> MidFrom <= score < HighFrom
    ensures c == High <==> HighFrom <= score
  {
    if score < MidFrom then Low
    else if score < HighFrom then Mid
    else High
  }

  /** A higher score never gets a lower category. */
  lemma ClassifyMonotone(s: real, t: real)
    requires s <= t
    ensures Classify(s).Rank() <= Classify(t).Rank()
  {
  }

  /** The bands meet exactly at 4 and 7, and each boundary belongs to the
      band above it. */
  lemma ClassifyBoundaries()
    ensures Classify(3.999) == Low && Classify(4.0) == Mid
    ensures Classify(6.999) == Mid && Classify(7.0) == High
    ensures forall s: real :: s < 4.0 ==> Classify(s) == Low
    ensures forall s: real :: 7.0 <= s ==> Classify(s) == High
  {
  }
}
