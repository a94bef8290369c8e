/** Mamdani inference: every rule clips its consequent term at its firing
    strength (minimum), and the clipped sets are combined by pointwise
    maximum over the output universe `0..10`.
 */
module Inference {
  import opened Membership
  import opened Variables
  import opened Rules

  /** The triangle of an output term of the grade. */
  function OutputShape(l: Level): (t: Tri)
    ensures t == Shape(l) && t.Valid()
  {
    VariablesWellFormed();
    GradeVar.TermAt(l).shape
  }

  /** A rule after its antecedent has been evaluated: how strongly it fires
      and which output term it concludes. */
  datatype Firing = Firing(strength: real, consequent: Level)

  /** Firing strengths are degrees. */
  predicate ValidFirings(fs: seq<Firing>) {
    forall k :: 0 <= k < |fs| ==> 0.0 <= fs[k].strength <= 1.0
  }

  /** Evaluates every rule's antecedent against one input snapshot, keeping
      the rules' order. */
  function Fire(rules: seq<Rule>, x: Inputs): (fs: seq<Firing>)
    ensures |fs| == |rules| && ValidFirings(fs)
    ensures forall k :: 0 <= k < |fs| ==> fs[k].consequent == rules[k].consequent
    ensures forall k :: 0 <= k < |fs| ==> fs[k].strength == Strength(rules[k].antecedent, x)
  {
    seq(|rules|, k requires 0 <= k < |rules| => Firing(Strength(rules[k].antecedent, x), rules[k].consequent))
  }

  /** The degrees of the three output terms at one output point. */
  function OutputDegrees(p: real): (deg: Level -> real)
    ensures forall l :: deg(l) == Degree(OutputShape(l), p)
  {
    l => Degree(OutputShape(l), p)
  }

  /** Implication by minimum: the consequent's degree `deg` at an output
      point, capped at the rule's firing strength. */
  function Clipped(f: Firing, deg: Level -> real): (m: real)
    ensures m <= f.strength && m <= deg(f.consequent)
    ensures m == f.strength || m == deg(f.consequent)
  {
    Min(f.strength, deg(f.consequent))
  }

  /** Aggregation by maximum of the clipped sets at one output point; with
      no rule the aggregate is 0. */
  function AggregatedAt(fs: seq<Firing>, deg: Level -> real): (m: real)
    requires ValidFirings(fs)
    ensures 0.0 <= m <= 1.0
    ensures forall k :: 0 <= k < |fs| ==> Clipped(fs[k], deg) <= m
    ensures |fs| == 0 ==> m == 0.0
    ensures m == 0.0 || exists k :: 0 <= k < |fs| && m == Clipped(fs[k], deg)
    decreases |fs|
  {
    if |fs| == 0 then 0.0
    else
      var init, last := fs[..|fs| - 1], fs[|fs| - 1];
      assert forall k :: 0 <= k < |init| ==> init[k] == fs[k];
      var a := AggregatedAt(init, deg);
      var c := Clipped(last, deg);
      if a <= c then
        assert c == Clipped(fs[|fs| - 1], deg);
        c
      else
        a
  }

  /** The aggregated output set sampled over the output universe. */
  function Aggregate(fs: seq<Firing>): (mu: seq<real>)
    requires ValidFirings(fs)
    ensures |mu| == UniverseSize
    ensures forall k :: 0 <= k < |mu| ==> 0.0 <= mu[k] <= 1.0
    ensures forall k, i :: 0 <= k < |mu| && 0 <= i < |fs| ==>
      Min(fs[i].strength, Degree(OutputShape(fs[i].consequent), k as real)) <= mu[k]
    ensures forall k :: 0 <= k < |mu| && mu[k] > 0.0 ==>
      exists i :: 0 <= i < |fs| && mu[k] <= fs[i].strength
                                && mu[k] <= Degree(OutputShape(fs[i].consequent), k as real)
  {
    seq(UniverseSize, k requires 0 <= k < UniverseSize => AggregatedAt(fs, OutputDegrees(k as real)))
  }

  /** At each output point the aggregate is exactly the largest clipped
      degree among the rules (0 when no rule contributes). */
  lemma AggregatedIsLargestClip(fs: seq<Firing>, deg: Level -> real, v: real)
    requires ValidFirings(fs)
    requires forall l :: 0.0 <= deg(l)
    requires forall i :: 0 <= i < |fs| ==> Clipped(fs[i], deg) <= v
    requires v == 0.0 || exists i :: 0 <= i < |fs| && v == Clipped(fs[i], deg)
    ensures AggregatedAt(fs, deg) == v
  {
    var m := AggregatedAt(fs, deg);
    if m != 0.0 {
      var i :| 0 <= i < |fs| && m == Clipped(fs[i], deg);
      assert m <= v;
    }
    if v != 0.0 {
      var j :| 0 <= j < |fs| && v == Clipped(fs[j], deg);
      assert v <= m;
    }
  }

  /** The strongest firing among the rules that conclude output term `l`
      (0 when none does): the activation the toolkit accumulates per term. */
  function Activation(fs: seq<Firing>, l: Level): (s: real)
    requires ValidFirings(fs)
    ensures 0.0 <= s <= 1.0
    ensures forall k :: 0 <= k < |fs| && fs[k].consequent == l ==> fs[k].strength <= s
    ensures s == 0.0 || exists k :: 0 <= k < |fs| && fs[k].consequent == l && s == fs[k].strength
    decreases |fs|
  {
    if |fs| == 0 then 0.0
    else
      var init, last := fs[..|fs| - 1], fs[|fs| - 1];
      assert forall k :: 0 <= k < |init| ==> init[k] == fs[k];
      var a := Activation(init, l);
      if last.consequent == l && a <= last.strength then
        assert fs[|fs| - 1] == last;
        last.strength
      else
        a
  }

  /** Term-wise form of the output set: clip every output term once at its
      activation, then take the maximum over the three terms. */
  function AccumulatedAt(fs: seq<Firing>, deg: Level -> real): real
    requires ValidFirings(fs)
  {
    Max(Max(Min(Activation(fs, Low), deg(Low)), Min(Activation(fs, Mid), deg(Mid))),
        Min(Activation(fs, High), deg(High)))
  }

  /** One more firing with strength `s` raises its term's activation from
      `a` to `n`; the term-wise maximum then rises by exactly the new
      clipped set. */
  lemma AccumulateStep(aL: real, aM: real, aH: real, nL: real, nM: real, nH: real,
                       dL: real, dM: real, dH: real, s: real, d: real)
    requires || (nL == Max(aL, s) && nM == aM && nH == aH && d == dL)
             || (nL == aL && nM == Max(aM, s) && nH == aH && d == dM)
             || (nL == aL && nM == aM && nH == Max(aH, s) && d == dH)
    ensures Max(Max(Max(Min(aL, dL), Min(aM, dM)), Min(aH, dH)), Min(s, d))
         == Max(Max(Min(nL, dL), Min(nM, dM)), Min(nH, dH))
  {
  }

  /** Combining rule by rule and combining term by term give the same
      output set, so the order in which the rules are listed and the way
      rules sharing a consequent are grouped do not matter. */
  lemma {:induction false} AggregationMatchesAccumulation(fs: seq<Firing>, deg: Level -> real)
    requires ValidFirings(fs)
    requires forall l :: 0.0 <= deg(l)
    ensures AggregatedAt(fs, deg) == AccumulatedAt(fs, deg)
    decreases |fs|
  {
    if |fs| == 0 {
      assert Activation(fs, Low) == 0.0 && Activation(fs, Mid) == 0.0 && Activation(fs, High) == 0.0;
    } else {
      var init, last := fs[..|fs| - 1], fs[|fs| - 1];
      assert ValidFirings(init);
      AggregationMatchesAccumulation(init, deg);
      AggregatedStep(fs, deg);
      ActivationStep(fs, Low);
      ActivationStep(fs, Mid);
      ActivationStep(fs, High);
      AccumulateStep(Activation(init, Low), Activation(init, Mid), Activation(init, High),
                     Activation(fs, Low), Activation(fs, Mid), Activation(fs, High),
                     deg(Low), deg(Mid), deg(High), last.strength, deg(last.consequent));
    }
  }

  /** Aggregating one more firing takes the maximum with its clipped set. */
  lemma AggregatedStep(fs: seq<Firing>, deg: Level -> real)
    requires ValidFirings(fs) && |fs| > 0
    ensures ValidFirings(fs[..|fs| - 1])
    ensures AggregatedAt(fs, deg)
         == Max(AggregatedAt(fs[..|fs| - 1], deg), Min(fs[|fs| - 1].strength, deg(fs[|fs| - 1].consequent)))
  {
  }

  /** One more firing raises only its own term's activation, to the maximum
      of the old activation and its strength. */
  lemma ActivationStep(fs: seq<Firing>, l: Level)
    requires ValidFirings(fs) && |fs| > 0
    ensures ValidFirings(fs[..|fs| - 1])
    ensures fs[|fs| - 1].consequent == l ==>
      Activation(fs, l) == Max(Activation(fs[..|fs| - 1], l), fs[|fs| - 1].strength)
    ensures fs[|fs| - 1].consequent != l ==> Activation(fs, l) == Activation(fs[..|fs| - 1], l)
  {
  }

  /** The whole aggregate in term-wise form. */
  lemma AggregateByTerms(fs: seq<Firing>)
    requires ValidFirings(fs)
    ensures forall k :: 0 <= k < UniverseSize ==> Aggregate(fs)[k] == AccumulatedAt(fs, OutputDegrees(k as real))
  {
    forall k | 0 <= k < UniverseSize
      ensures Aggregate(fs)[k] == AccumulatedAt(fs, OutputDegrees(k as real))
    {
      AggregationMatchesAccumulation(fs, OutputDegrees(k as real));
    }
  }

  /** No rule fires exactly when the aggregated output set is 0 everywhere
      on the universe: every output term reaches degree 1 at a universe
      point, so a positive firing always shows in the aggregate. */
  lemma NoFiringIffEmptyAggregate(fs: seq<Firing>)
    requires ValidFirings(fs)
    ensures (forall i :: 0 <= i < |fs| ==> fs[i].strength == 0.0)
        <==> (forall k :: 0 <= k < UniverseSize ==> Aggregate(fs)[k] == 0.0)
  {
    var mu := Aggregate(fs);
    if exists i :: 0 <= i < |fs| && fs[i].strength != 0.0 {
      var i :| 0 <= i < |fs| && fs[i].strength != 0.0;
      var peak := OutputShape(fs[i].consequent).b;
      var k := peak.Floor;
      assert 0 <= k < UniverseSize && k as real == peak;
      assert Min(fs[i].strength, Degree(OutputShape(fs[i].consequent), k as real)) == fs[i].strength;
      assert mu[k] > 0.0;
    } else {
      forall k | 0 <= k < UniverseSize ensures mu[k] == 0.0 {
      }
    }
  }
}
