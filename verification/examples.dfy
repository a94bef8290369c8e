/** Worked evaluations of the grading system: the activations the seven rules give
    each output term, and the categories of the reference inputs.
 */
module Examples {
  import opened Membership
  import opened Variables
  import opened Rules
  import opened Inference
  import opened Defuzzify
  import opened Grader

  /** Rules 1 and 2 conclude the high grade, rules 3, 4, 6 and 7 the middle
      grade and rule 5 the low grade; each term is activated by the
      strongest of its rules. */
  lemma GradeActivations(x: Inputs)
    ensures var fs := Fire(GradeRules, x);
      && Activation(fs, High) == Max(fs[0].strength, fs[1].strength)
      && Activation(fs, Mid) == Max(Max(Max(fs[2].strength, fs[3].strength), fs[5].strength), fs[6].strength)
      && Activation(fs, Low) == fs[4].strength
  {
    var fs := Fire(GradeRules, x);
    assert fs[0].consequent == High && fs[1].consequent == High && fs[2].consequent == Mid;
    assert fs[3].consequent == Mid && fs[4].consequent == Low && fs[5].consequent == Mid && fs[6].consequent == Mid;
    HighActivation(fs);
    MidActivation(fs);
    LowActivation(fs);
  }

  // The activation of each term over the seven firings, one firing at a time.

  lemma HighActivation(fs: seq<Firing>)
    requires ValidFirings(fs) && |fs| == 7
    requires fs[0].consequent == High && fs[1].consequent == High && fs[2].consequent != High && fs[3].consequent != High && fs[4].consequent != High && fs[5].consequent != High && fs[6].consequent != High
    ensures Activation(fs, High) == Max(fs[0].strength, fs[1].strength)
  {
    PrefixActivation(fs, 1, High);
    PrefixActivation(fs, 2, High);
    PrefixActivation(fs, 3, High);
    PrefixActivation(fs, 4, High);
    PrefixActivation(fs, 5, High);
    PrefixActivation(fs, 6, High);
    PrefixActivation(fs, 7, High);
    assert fs[..7] == fs;
    assert Activation(fs[..0], High) == 0.0;
  }

  lemma MidActivation(fs: seq<Firing>)
    requires ValidFirings(fs) && |fs| == 7
    requires fs[0].consequent != Mid && fs[1].consequent != Mid && fs[2].consequent == Mid && fs[3].consequent == Mid && fs[4].consequent != Mid && fs[5].consequent == Mid && fs[6].consequent == Mid
    ensures Activation(fs, Mid) == Max(Max(Max(fs[2].strength, fs[3].strength), fs[5].strength), fs[6].strength)
  {
    PrefixActivation(fs, 1, Mid);
    PrefixActivation(fs, 2, Mid);
    PrefixActivation(fs, 3, Mid);
    PrefixActivation(fs, 4, Mid);
    PrefixActivation(fs, 5, Mid);
    PrefixActivation(fs, 6, Mid);
    PrefixActivation(fs, 7, Mid);
    assert fs[..7] == fs;
    assert Activation(fs[..0], Mid) == 0.0;
  }

  lemma LowActivation(fs: seq<Firing>)
    requires ValidFirings(fs) && |fs| == 7
    requires fs[0].consequent != Low && fs[1].consequent != Low && fs[2].consequent != Low && fs[3].consequent != Low && fs[4].consequent == Low && fs[5].consequent != Low && fs[6].consequent != Low
    ensures Activation(fs, Low) == fs[4].strength
  {
    PrefixActivation(fs, 1, Low);
    PrefixActivation(fs, 2, Low);
    PrefixActivation(fs, 3, Low);
    PrefixActivation(fs, 4, Low);
    PrefixActivation(fs, 5, Low);
    PrefixActivation(fs, 6, Low);
    PrefixActivation(fs, 7, Low);
    assert fs[..7] == fs;
    assert Activation(fs[..0], Low) == 0.0;
  }

  lemma PrefixActivation(fs: seq<Firing>, n: nat, l: Level)
    requires ValidFirings(fs) && 0 < n <= |fs|
    ensures ValidFirings(fs[..n]) && ValidFirings(fs[..n - 1])
    ensures fs[n - 1].consequent == l ==> Activation(fs[..n], l) == Max(Activation(fs[..n - 1], l), fs[n - 1].strength)
    ensures fs[n - 1].consequent != l ==> Activation(fs[..n], l) == Activation(fs[..n - 1], l)
  {
    assert fs[..n][..n - 1] == fs[..n - 1];
    ActivationStep(fs[..n], l);
  }

  /** All three marks high: only rule 1 fires; the centroid 80/9 is in the band of отличник. */
  lemma ExcellentExample(x: Inputs)
    requires x == Inputs(9.0, 9.0, 10.0)
    ensures Evaluate(x) == Graded(80.0 / 9.0, High)
    ensures Report(Evaluate(x)).1 == "отличник"
  {
    var fs := Fire(GradeRules, x);
    ExcellentExampleActivations(x);
    ExcellentExampleTotals(Activation(fs, Low), Activation(fs, Mid), Activation(fs, High));
    GradedByActivations(x, Activation(fs, Low), Activation(fs, Mid), Activation(fs, High), (80.0 / 9.0), High, "отличник");
  }

  lemma ExcellentExampleTotals(aL: real, aM: real, aH: real)
    requires aL == 0.0 && aM == 0.0 && aH == 0.75
    ensures Centroid(Universe(), Accumulation(aL, aM, aH)) == Some((80.0 / 9.0))
  {
    var mu := Accumulation(aL, aM, aH);
    assert mu[0] == 0.0;
    assert mu[1] == 0.0;
    assert mu[2] == 0.0;
    assert mu[3] == 0.0;
    assert mu[4] == 0.0;
    assert mu[5] == 0.0;
    assert mu[6] == 0.0;
    assert mu[7] == 0.25;
    assert mu[8] == 0.5;
    assert mu[9] == 0.75;
    assert mu[10] == 0.75;
    UniverseSum(mu);
    UniverseMoment(mu);
    assert Sum(mu) == 2.25 && Moment(Universe(), mu) == 20.0;
  }

  lemma ExcellentExampleActivations(x: Inputs)
    requires x == Inputs(9.0, 9.0, 10.0)
    ensures Activation(Fire(GradeRules, x), Low) == 0.0
    ensures Activation(Fire(GradeRules, x), Mid) == 0.0
    ensures Activation(Fire(GradeRules, x), High) == 0.75
  {
    ExcellentExampleFirings(x);
    GradeActivations(x);
  }

  lemma ExcellentExampleFirings(x: Inputs)
    requires x == Inputs(9.0, 9.0, 10.0)
    ensures Strength(GradeRules[0].antecedent, x) == 0.75
    ensures Strength(GradeRules[1].antecedent, x) == 0.0
    ensures Strength(GradeRules[2].antecedent, x) == 0.0
    ensures Strength(GradeRules[3].antecedent, x) == 0.0
    ensures Strength(GradeRules[4].antecedent, x) == 0.0
    ensures Strength(GradeRules[5].antecedent, x) == 0.0
    ensures Strength(GradeRules[6].antecedent, x) == 0.0
  {
    RuleStrengths(x);
    GridDegrees(x);
  }

  /** Middling marks: only rule 3 fires; the centroid 70/13 is in the band of хорошист. */
  lemma GoodExample(x: Inputs)
    requires x == Inputs(6.0, 6.0, 6.0)
    ensures Evaluate(x) == Graded(70.0 / 13.0, Mid)
    ensures Report(Evaluate(x)).1 == "хорошист"
  {
    var fs := Fire(GradeRules, x);
    GoodExampleActivations(x);
    GoodExampleTotals(Activation(fs, Low), Activation(fs, Mid), Activation(fs, High));
    GradedByActivations(x, Activation(fs, Low), Activation(fs, Mid), Activation(fs, High), (70.0 / 13.0), Mid, "хорошист");
  }

  lemma GoodExampleTotals(aL: real, aM: real, aH: real)
    requires aL == 0.0 && aM == (2.0 / 3.0) && aH == 0.0
    ensures Centroid(Universe(), Accumulation(aL, aM, aH)) == Some((70.0 / 13.0))
  {
    var mu := Accumulation(aL, aM, aH);
    assert mu[0] == 0.0;
    assert mu[1] == 0.0;
    assert mu[2] == 0.0;
    assert mu[3] == 0.0;
    assert mu[4] == 0.5;
    assert mu[5] == (2.0 / 3.0);
    assert mu[6] == (2.0 / 3.0);
    assert mu[7] == (1.0 / 3.0);
    assert mu[8] == 0.0;
    assert mu[9] == 0.0;
    assert mu[10] == 0.0;
    UniverseSum(mu);
    UniverseMoment(mu);
    assert Sum(mu) == (13.0 / 6.0) && Moment(Universe(), mu) == (35.0 / 3.0);
  }

  lemma GoodExampleActivations(x: Inputs)
    requires x == Inputs(6.0, 6.0, 6.0)
    ensures Activation(Fire(GradeRules, x), Low) == 0.0
    ensures Activation(Fire(GradeRules, x), Mid) == (2.0 / 3.0)
    ensures Activation(Fire(GradeRules, x), High) == 0.0
  {
    GoodExampleFirings(x);
    GradeActivations(x);
  }

  lemma GoodExampleFirings(x: Inputs)
    requires x == Inputs(6.0, 6.0, 6.0)
    ensures Strength(GradeRules[0].antecedent, x) == 0.0
    ensures Strength(GradeRules[1].antecedent, x) == 0.0
    ensures Strength(GradeRules[2].antecedent, x) == (2.0 / 3.0)
    ensures Strength(GradeRules[3].antecedent, x) == 0.0
    ensures Strength(GradeRules[4].antecedent, x) == 0.0
    ensures Strength(GradeRules[5].antecedent, x) == 0.0
    ensures Strength(GradeRules[6].antecedent, x) == 0.0
  {
    RuleStrengths(x);
    GridDegrees(x);
  }

  /** Low marks: only rule 5 fires; the centroid 19/12 is in the band of троечник. */
  lemma WeakExample(x: Inputs)
    requires x == Inputs(3.0, 3.0, 2.0)
    ensures Evaluate(x) == Graded(19.0 / 12.0, Low)
    ensures Report(Evaluate(x)).1 == "троечник"
  {
    var fs := Fire(GradeRules, x);
    WeakExampleActivations(x);
    WeakExampleTotals(Activation(fs, Low), Activation(fs, Mid), Activation(fs, High));
    GradedByActivations(x, Activation(fs, Low), Activation(fs, Mid), Activation(fs, High), (19.0 / 12.0), Low, "троечник");
  }

  lemma WeakExampleTotals(aL: real, aM: real, aH: real)
    requires aL == 0.6 && aM == 0.0 && aH == 0.0
    ensures Centroid(Universe(), Accumulation(aL, aM, aH)) == Some((19.0 / 12.0))
  {
    var mu := Accumulation(aL, aM, aH);
    assert mu[0] == 0.6;
    assert mu[1] == 0.6;
    assert mu[2] == 0.6;
    assert mu[3] == 0.4;
    assert mu[4] == 0.2;
    assert mu[5] == 0.0;
    assert mu[6] == 0.0;
    assert mu[7] == 0.0;
    assert mu[8] == 0.0;
    assert mu[9] == 0.0;
    assert mu[10] == 0.0;
    UniverseSum(mu);
    UniverseMoment(mu);
    assert Sum(mu) == 2.4 && Moment(Universe(), mu) == 3.8;
  }

  lemma WeakExampleActivations(x: Inputs)
    requires x == Inputs(3.0, 3.0, 2.0)
    ensures Activation(Fire(GradeRules, x), Low) == 0.6
    ensures Activation(Fire(GradeRules, x), Mid) == 0.0
    ensures Activation(Fire(GradeRules, x), High) == 0.0
  {
    WeakExampleFirings(x);
    GradeActivations(x);
  }

  lemma WeakExampleFirings(x: Inputs)
    requires x == Inputs(3.0, 3.0, 2.0)
    ensures Strength(GradeRules[0].antecedent, x) == 0.0
    ensures Strength(GradeRules[1].antecedent, x) == 0.0
    ensures Strength(GradeRules[2].antecedent, x) == 0.0
    ensures Strength(GradeRules[3].antecedent, x) == 0.0
    ensures Strength(GradeRules[4].antecedent, x) == 0.6
    ensures Strength(GradeRules[5].antecedent, x) == 0.0
    ensures Strength(GradeRules[6].antecedent, x) == 0.0
  {
    RuleStrengths(x);
    GridDegrees(x);
  }

  /** Mixed marks: rules 5 and 7 fire; the centroid 331/79 is in the band of хорошист. */
  lemma MixedExample(x: Inputs)
    requires x == Inputs(5.0, 4.0, 8.0)
    ensures Evaluate(x) == Graded(331.0 / 79.0, Mid)
    ensures Report(Evaluate(x)).1 == "хорошист"
  {
    var fs := Fire(GradeRules, x);
    MixedExampleActivations(x);
    MixedExampleTotals(Activation(fs, Low), Activation(fs, Mid), Activation(fs, High));
    GradedByActivations(x, Activation(fs, Low), Activation(fs, Mid), Activation(fs, High), (331.0 / 79.0), Mid, "хорошист");
  }

  lemma MixedExampleTotals(aL: real, aM: real, aH: real)
    requires aL == 0.2 && aM == 0.5 && aH == 0.0
    ensures Centroid(Universe(), Accumulation(aL, aM, aH)) == Some((331.0 / 79.0))
  {
    var mu := Accumulation(aL, aM, aH);
    assert mu[0] == 0.2;
    assert mu[1] == 0.2;
    assert mu[2] == 0.2;
    assert mu[3] == 0.2;
    assert mu[4] == 0.5;
    assert mu[5] == 0.5;
    assert mu[6] == 0.5;
    assert mu[7] == (1.0 / 3.0);
    assert mu[8] == 0.0;
    assert mu[9] == 0.0;
    assert mu[10] == 0.0;
    UniverseSum(mu);
    UniverseMoment(mu);
    assert Sum(mu) == (79.0 / 30.0) && Moment(Universe(), mu) == (331.0 / 30.0);
  }

  lemma MixedExampleActivations(x: Inputs)
    requires x == Inputs(5.0, 4.0, 8.0)
    ensures Activation(Fire(GradeRules, x), Low) == 0.2
    ensures Activation(Fire(GradeRules, x), Mid) == 0.5
    ensures Activation(Fire(GradeRules, x), High) == 0.0
  {
    MixedExampleFirings(x);
    GradeActivations(x);
  }

  lemma MixedExampleFirings(x: Inputs)
    requires x == Inputs(5.0, 4.0, 8.0)
    ensures Strength(GradeRules[0].antecedent, x) == 0.0
    ensures Strength(GradeRules[1].antecedent, x) == 0.0
    ensures Strength(GradeRules[2].antecedent, x) == 0.0
    ensures Strength(GradeRules[3].antecedent, x) == 0.0
    ensures Strength(GradeRules[4].antecedent, x) == 0.2
    ensures Strength(GradeRules[5].antecedent, x) == 0.0
    ensures Strength(GradeRules[6].antecedent, x) == 0.5
  {
    RuleStrengths(x);
    GridDegrees(x);
  }

  /** Very low marks: only rule 5 fires; the centroid 10/7 is in the band of троечник. */
  lemma PoorExample(x: Inputs)
    requires x == Inputs(1.0, 2.0, 1.0)
    ensures Evaluate(x) == Graded(10.0 / 7.0, Low)
    ensures Report(Evaluate(x)).1 == "троечник"
  {
    var fs := Fire(GradeRules, x);
    PoorExampleActivations(x);
    PoorExampleTotals(Activation(fs, Low), Activation(fs, Mid), Activation(fs, High));
    GradedByActivations(x, Activation(fs, Low), Activation(fs, Mid), Activation(fs, High), (10.0 / 7.0), Low, "троечник");
  }

  lemma PoorExampleTotals(aL: real, aM: real, aH: real)
    requires aL == 0.8 && aM == 0.0 && aH == 0.0
    ensures Centroid(Universe(), Accumulation(aL, aM, aH)) == Some((10.0 / 7.0))
  {
    var mu := Accumulation(aL, aM, aH);
    assert mu[0] == 0.8;
    assert mu[1] == 0.8;
    assert mu[2] == 0.6;
    assert mu[3] == 0.4;
    assert mu[4] == 0.2;
    assert mu[5] == 0.0;
    assert mu[6] == 0.0;
    assert mu[7] == 0.0;
    assert mu[8] == 0.0;
    assert mu[9] == 0.0;
    assert mu[10] == 0.0;
    UniverseSum(mu);
    UniverseMoment(mu);
    assert Sum(mu) == 2.8 && Moment(Universe(), mu) == 4.0;
  }

  lemma PoorExampleActivations(x: Inputs)
    requires x == Inputs(1.0, 2.0, 1.0)
    ensures Activation(Fire(GradeRules, x), Low) == 0.8
    ensures Activation(Fire(GradeRules, x), Mid) == 0.0
    ensures Activation(Fire(GradeRules, x), High) == 0.0
  {
    PoorExampleFirings(x);
    GradeActivations(x);
  }

  lemma PoorExampleFirings(x: Inputs)
    requires x == Inputs(1.0, 2.0, 1.0)
    ensures Strength(GradeRules[0].antecedent, x) == 0.0
    ensures Strength(GradeRules[1].antecedent, x) == 0.0
    ensures Strength(GradeRules[2].antecedent, x) == 0.0
    ensures Strength(GradeRules[3].antecedent, x) == 0.0
    ensures Strength(GradeRules[4].antecedent, x) == 0.8
    ensures Strength(GradeRules[5].antecedent, x) == 0.0
    ensures Strength(GradeRules[6].antecedent, x) == 0.0
  {
    RuleStrengths(x);
    GridDegrees(x);
  }


  /** Top quality and timeliness with middling accuracy (10, 5.5, 10): every
      rule asks for a term one of the inputs misses entirely, so the output
      set is empty, there is no centroid, and the grading system reports its error. */
  lemma NoRuleFiresExample(x: Inputs)
    requires x == Inputs(10.0, 5.5, 10.0)
    ensures Evaluate(x) == ComputeError
    ensures Report(Evaluate(x)) == (None, ErrorText)
  {
    NoRuleFiresExampleStrengths(x);
  }

  lemma NoRuleFiresExampleStrengths(x: Inputs)
    requires x == Inputs(10.0, 5.5, 10.0)
    ensures forall k :: 0 <= k < |GradeRules| ==> Strength(GradeRules[k].antecedent, x) == 0.0
  {
    NoRuleFiresExampleFirings(x);
    forall k | 0 <= k < |GradeRules| ensures Strength(GradeRules[k].antecedent, x) == 0.0 {
      assert k in {0, 1, 2, 3, 4, 5, 6};
    }
  }

  lemma NoRuleFiresExampleFirings(x: Inputs)
    requires x == Inputs(10.0, 5.5, 10.0)
    ensures Strength(GradeRules[0].antecedent, x) == 0.0
    ensures Strength(GradeRules[1].antecedent, x) == 0.0
    ensures Strength(GradeRules[2].antecedent, x) == 0.0
    ensures Strength(GradeRules[3].antecedent, x) == 0.0
    ensures Strength(GradeRules[4].antecedent, x) == 0.0
    ensures Strength(GradeRules[5].antecedent, x) == 0.0
    ensures Strength(GradeRules[6].antecedent, x) == 0.0
  {
    RuleStrengths(x);
    assert Degree(LowShape, x.quality) == 0.0 && Degree(MidShape, x.quality) == 0.0;
    assert Degree(LowShape, x.accuracy) == 0.0 && Degree(HighShape, x.accuracy) == 0.0;
    assert Degree(LowShape, x.deadline) == 0.0 && Degree(MidShape, x.deadline) == 0.0;
  }

  /** When the three terms are activated at `aL`, `aM` and `aH` and the
      resulting output set has a non-zero area, the grading system reports the
      centroid and its category. */
  lemma GradedByActivations(x: Inputs, aL: real, aM: real, aH: real, score: real, level: Level, text: string)
    requires x.InRange()
    requires Activation(Fire(GradeRules, x), Low) == aL
    requires Activation(Fire(GradeRules, x), Mid) == aM
    requires Activation(Fire(GradeRules, x), High) == aH
    requires Centroid(Universe(), Accumulation(aL, aM, aH)) == Some(score)
    requires Classify(score) == level && GradeVar.TermAt(level).name == text
    ensures Evaluate(x) == Graded(score, level)
    ensures Report(Evaluate(x)).1 == text
  {
    AggregateOfActivations(Fire(GradeRules, x));
  }

  /** The firing strength of each of the seven rules in closed form. */
  lemma RuleStrengths(x: Inputs)
    ensures Strength(GradeRules[0].antecedent, x) == Min(Min(Degree(HighShape, x.quality), Degree(HighShape, x.accuracy)), Degree(HighShape, x.deadline))
    ensures Strength(GradeRules[1].antecedent, x) == Min(Min(Degree(HighShape, x.quality), Degree(HighShape, x.accuracy)), Degree(MidShape, x.deadline))
    ensures Strength(GradeRules[2].antecedent, x) == Min(Min(Degree(MidShape, x.quality), Degree(MidShape, x.accuracy)), Degree(MidShape, x.deadline))
    ensures Strength(GradeRules[3].antecedent, x) == Min(Min(Degree(MidShape, x.quality), Degree(HighShape, x.accuracy)), Degree(MidShape, x.deadline))
    ensures Strength(GradeRules[4].antecedent, x) == Max(Max(Degree(LowShape, x.quality), Degree(LowShape, x.accuracy)), Degree(LowShape, x.deadline))
    ensures Strength(GradeRules[5].antecedent, x) == Min(Min(Degree(HighShape, x.quality), Degree(MidShape, x.accuracy)), Degree(MidShape, x.deadline))
    ensures Strength(GradeRules[6].antecedent, x) == Min(Min(Degree(MidShape, x.quality), Degree(MidShape, x.accuracy)), Degree(HighShape, x.deadline))
  {
    AllOfStrength(High, High, High, x);
    AllOfStrength(High, High, Mid, x);
    AllOfStrength(Mid, Mid, Mid, x);
    AllOfStrength(Mid, High, Mid, x);
    AnyOfStrength(Low, Low, Low, x);
    AllOfStrength(High, Mid, Mid, x);
    AllOfStrength(Mid, Mid, High, x);
  }

  /** The three triangles sampled on the universe `0..10`. */
  const LowSamples: seq<real> := [1.0, 0.8, 0.6, 0.4, 0.2, 0.0, 0.0, 0.0, 0.0, 0.0, 0.0]
  const MidSamples: seq<real> := [0.0, 0.0, 0.0, 0.0, 0.5, 1.0, 2.0 / 3.0, 1.0 / 3.0, 0.0, 0.0, 0.0]
  const HighSamples: seq<real> := [0.0, 0.0, 0.0, 0.0, 0.0, 0.0, 0.0, 0.25, 0.5, 0.75, 1.0]

  /** The samples of the three terms, point by point. */
  lemma SampledTerms()
    ensures Sample(LowShape) == LowSamples
    ensures Sample(MidShape) == MidSamples
    ensures Sample(HighShape) == HighSamples
  {
    SampledLow();
    SampledMid();
    SampledHigh();
  }

  lemma SampledLow()
    ensures Sample(LowShape) == LowSamples
  {
    var s := Sample(LowShape);
    assert s[0] == 1.0 && s[1] == 0.8 && s[2] == 0.6 && s[3] == 0.4 && s[4] == 0.2 && s[5] == 0.0;
    assert s[6] == 0.0 && s[7] == 0.0 && s[8] == 0.0 && s[9] == 0.0 && s[10] == 0.0;
  }

  lemma SampledMid()
    ensures Sample(MidShape) == MidSamples
  {
    var s := Sample(MidShape);
    assert s[0] == 0.0 && s[1] == 0.0 && s[2] == 0.0 && s[3] == 0.0 && s[4] == 0.5 && s[5] == 1.0;
    assert s[6] == 2.0 / 3.0 && s[7] == 1.0 / 3.0 && s[8] == 0.0 && s[9] == 0.0 && s[10] == 0.0;
  }

  lemma SampledHigh()
    ensures Sample(HighShape) == HighSamples
  {
    var s := Sample(HighShape);
    assert s[0] == 0.0 && s[1] == 0.0 && s[2] == 0.0 && s[3] == 0.0 && s[4] == 0.0 && s[5] == 0.0;
    assert s[6] == 0.0 && s[7] == 0.25 && s[8] == 0.5 && s[9] == 0.75 && s[10] == 1.0;
  }

  /** On a whole-numbered input the degree of every term is its sample there. */
  lemma GridDegrees(x: Inputs)
    requires x.InRange()
    requires x.quality == x.quality.Floor as real && x.accuracy == x.accuracy.Floor as real
    requires x.deadline == x.deadline.Floor as real
    ensures Degree(LowShape, x.quality) == LowSamples[x.quality.Floor]
    ensures Degree(MidShape, x.quality) == MidSamples[x.quality.Floor]
    ensures Degree(HighShape, x.quality) == HighSamples[x.quality.Floor]
    ensures Degree(LowShape, x.accuracy) == LowSamples[x.accuracy.Floor]
    ensures Degree(MidShape, x.accuracy) == MidSamples[x.accuracy.Floor]
    ensures Degree(HighShape, x.accuracy) == HighSamples[x.accuracy.Floor]
    ensures Degree(LowShape, x.deadline) == LowSamples[x.deadline.Floor]
    ensures Degree(MidShape, x.deadline) == MidSamples[x.deadline.Floor]
    ensures Degree(HighShape, x.deadline) == HighSamples[x.deadline.Floor]
  {
    SampledTerms();
    var q, a, d := x.quality.Floor, x.accuracy.Floor, x.deadline.Floor;
    assert Sample(LowShape)[q] == Degree(LowShape, q as real);
    assert Sample(MidShape)[q] == Degree(MidShape, q as real);
    assert Sample(HighShape)[q] == Degree(HighShape, q as real);
    assert Sample(LowShape)[a] == Degree(LowShape, a as real);
    assert Sample(MidShape)[a] == Degree(MidShape, a as real);
    assert Sample(HighShape)[a] == Degree(HighShape, a as real);
    assert Sample(LowShape)[d] == Degree(LowShape, d as real);
    assert Sample(MidShape)[d] == Degree(MidShape, d as real);
    assert Sample(HighShape)[d] == Degree(HighShape, d as real);
  }

  /** The sampled output set when the low, middle and high terms are
      activated at `aL`, `aM` and `aH`: every term clipped at its
      activation, then the pointwise maximum. */
  function Accumulation(aL: real, aM: real, aH: real): (mu: seq<real>)
    ensures |mu| == UniverseSize
  {
    seq(UniverseSize, k requires 0 <= k < UniverseSize =>
      Max(Max(Min(aL, LowSamples[k]), Min(aM, MidSamples[k])), Min(aH, HighSamples[k])))
  }

  /** The aggregate of a firing sequence depends only on the activation of
      each term. */
  lemma AggregateOfActivations(fs: seq<Firing>)
    requires ValidFirings(fs)
    ensures Aggregate(fs) == Accumulation(Activation(fs, Low), Activation(fs, Mid), Activation(fs, High))
  {
    var acc := Accumulation(Activation(fs, Low), Activation(fs, Mid), Activation(fs, High));
    AggregateByTerms(fs);
    SampledTerms();
    forall k | 0 <= k < UniverseSize
      ensures Aggregate(fs)[k] == acc[k]
    {
      var deg := OutputDegrees(k as real);
      assert deg(Low) == Sample(LowShape)[k];
      assert deg(Mid) == Sample(MidShape)[k];
      assert deg(High) == Sample(HighShape)[k];
    }
  }

  /** The area of a set sampled on the universe, written out. */
  lemma UniverseSum(mu: seq<real>)
    requires |mu| == UniverseSize
    ensures Sum(mu) == mu[0] + mu[1] + mu[2] + mu[3] + mu[4] + mu[5] + mu[6] + mu[7] + mu[8] + mu[9] + mu[10]
  {
    assert mu[..11] == mu;
    SumSnoc(mu, 11);
    SumSnoc(mu, 10);
    SumSnoc(mu, 9);
    SumSnoc(mu, 8);
    SumSnoc(mu, 7);
    SumSnoc(mu, 6);
    SumSnoc(mu, 5);
    SumSnoc(mu, 4);
    SumSnoc(mu, 3);
    SumSnoc(mu, 2);
    SumSnoc(mu, 1);
  }

  /** The moment of a set sampled on the universe, written out. */
  lemma UniverseMoment(mu: seq<real>)
    requires |mu| == UniverseSize
    ensures Moment(Universe(), mu) == 1.0 * mu[1] + 2.0 * mu[2] + 3.0 * mu[3] + 4.0 * mu[4] + 5.0 * mu[5] + 6.0 * mu[6] + 7.0 * mu[7] + 8.0 * mu[8] + 9.0 * mu[9] + 10.0 * mu[10]
  {
    assert mu[..11] == mu && Universe()[..11] == Universe();
    MomentSnoc(mu, 11);
    MomentSnoc(mu, 10);
    MomentSnoc(mu, 9);
    MomentSnoc(mu, 8);
    MomentSnoc(mu, 7);
    MomentSnoc(mu, 6);
    MomentSnoc(mu, 5);
    MomentSnoc(mu, 4);
    MomentSnoc(mu, 3);
    MomentSnoc(mu, 2);
    MomentSnoc(mu, 1);
  }

  lemma SumSnoc(mu: seq<real>, n: nat)
    requires 0 < n <= |mu|
    ensures Sum(mu[..n]) == Sum(mu[..n - 1]) + mu[n - 1]
  {
    assert mu[..n][..n - 1] == mu[..n - 1];
  }

  lemma MomentSnoc(mu: seq<real>, n: nat)
    requires |mu| == UniverseSize && 0 < n <= |mu|
    ensures Moment(Universe()[..n], mu[..n]) == Moment(Universe()[..n - 1], mu[..n - 1]) + (n - 1) as real * mu[n - 1]
  {
    var u := Universe();
    assert mu[..n][..n - 1] == mu[..n - 1];
    assert u[..n][..n - 1] == u[..n - 1];
    assert u[..n][n - 1] == (n - 1) as real;
  }
}
