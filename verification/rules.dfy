/** The rule base of the grading system: antecedents are trees of `(input, term)`
    tests joined by AND (minimum) and OR (maximum), each rule names one
    term of the output grade, and the grading system has seven of them.
 */
module Rules {
  import opened Membership
  import opened Variables

  /** The three crisp inputs. */
  datatype Input = Quality | Accuracy | Deadline

  /** One crisp snapshot of the inputs. */
  datatype Inputs = Inputs(quality: real, accuracy: real, deadline: real) {

    function Get(i: Input): real {
      match i
      case Quality => quality
      case Accuracy => accuracy
      case Deadline => deadline
    }

    /** Every input lies in the universe `[0, 10]`, the range the callers enforce. */
    predicate InRange() {
      && 0.0 <= quality <= UniverseMax
      && 0.0 <= accuracy <= UniverseMax
      && 0.0 <= deadline <= UniverseMax
    }
  }

  /** The linguistic variable behind each input. */
  function InputVariable(i: Input): (v: LinguisticVariable)
    ensures v.WellFormed()
    ensures forall l :: v.TermAt(l).shape == Shape(l)
  {
    VariablesWellFormed();
    match i
    case Quality => QualityVar
    case Accuracy => AccuracyVar
    case Deadline => DeadlineVar
  }

  /** Degree of one input in one term of its variable. */
  function LeafDegree(i: Input, l: Level, x: Inputs): (d: real)
    ensures 0.0 <= d <= 1.0
    ensures d == Degree(Shape(l), x.Get(i))
  {
    Degree(InputVariable(i).TermAt(l).shape, x.Get(i))
  }

  /** The degree a test uses is the one fuzzification assigns, and it is the
      value read off the term's samples by interpolation. */
  lemma LeafIsFuzzified(i: Input, l: Level, x: Inputs)
    requires x.InRange()
    ensures LeafDegree(i, l, x) == Fuzzify(InputVariable(i), x.Get(i))[l]
    ensures LeafDegree(i, l, x) == Interp(Sample(InputVariable(i).TermAt(l).shape), x.Get(i))
  {
    InterpolatedSampleIsExact(Shape(l), x.Get(i));
  }

  /** An antecedent: a test of one input against one term, or a binary AND / OR. */
  datatype Antecedent =
    | Is(input: Input, term: Level)
    | And(left: Antecedent, right: Antecedent)
    | Or(left: Antecedent, right: Antecedent)

  /** A rule: when the antecedent holds, the grade has the consequent term. */
  datatype Rule = Rule(antecedent: Antecedent, consequent: Level)

  /** Firing strength of an antecedent: AND is the minimum, OR the maximum. */
  function Strength(a: Antecedent, x: Inputs): (s: real)
    ensures 0.0 <= s <= 1.0
  {
    match a
    case Is(i, l) => LeafDegree(i, l, x)
    case And(p, q) => Min(Strength(p, x), Strength(q, x))
    case Or(p, q) => Max(Strength(p, x), Strength(q, x))
  }

  /** The `(input, term)` tests an antecedent is built from. */
  function Leaves(a: Antecedent): set<Antecedent> {
    match a
    case Is(_, _) => {a}
    case And(p, q) => Leaves(p) + Leaves(q)
    case Or(p, q) => Leaves(p) + Leaves(q)
  }

  /** The inputs an antecedent tests. */
  function TestedInputs(a: Antecedent): set<Input> {
    match a
    case Is(i, _) => {i}
    case And(p, q) => TestedInputs(p) + TestedInputs(q)
    case Or(p, q) => TestedInputs(p) + TestedInputs(q)
  }

  /** Built from tests and AND only. */
  predicate Conjunctive(a: Antecedent) {
    match a
    case Is(_, _) => true
    case And(p, q) => Conjunctive(p) && Conjunctive(q)
    case Or(_, _) => false
  }

  /** Built from tests and OR only. */
  predicate Disjunctive(a: Antecedent) {
    match a
    case Is(_, _) => true
    case And(_, _) => false
    case Or(p, q) => Disjunctive(p) && Disjunctive(q)
  }

  /** A pure conjunction fires with the smallest degree among its tests. */
  lemma {:induction false} ConjunctionIsMinimum(a: Antecedent, x: Inputs)
    requires Conjunctive(a)
    ensures forall t :: t in Leaves(a) ==> Strength(a, x) <= Strength(t, x)
    ensures exists t :: t in Leaves(a) && Strength(a, x) == Strength(t, x)
  {
    match a
    case Is(_, _) =>
      assert a in Leaves(a);
    case And(p, q) =>
      ConjunctionIsMinimum(p, x);
      ConjunctionIsMinimum(q, x);
      if Strength(p, x) <= Strength(q, x) {
        var t :| t in Leaves(p) && Strength(p, x) == Strength(t, x);
        assert t in Leaves(a);
      } else {
        var t :| t in Leaves(q) && Strength(q, x) == Strength(t, x);
        assert t in Leaves(a);
      }
  }

  /** A pure disjunction fires with the largest degree among its tests. */
  lemma {:induction false} DisjunctionIsMaximum(a: Antecedent, x: Inputs)
    requires Disjunctive(a)
    ensures forall t :: t in Leaves(a) ==> Strength(t, x) <= Strength(a, x)
    ensures exists t :: t in Leaves(a) && Strength(a, x) == Strength(t, x)
  {
    match a
    case Is(_, _) =>
      assert a in Leaves(a);
    case Or(p, q) =>
      DisjunctionIsMaximum(p, x);
      DisjunctionIsMaximum(q, x);
      if Strength(q, x) <= Strength(p, x) {
        var t :| t in Leaves(p) && Strength(p, x) == Strength(t, x);
        assert t in Leaves(a);
      } else {
        var t :| t in Leaves(q) && Strength(q, x) == Strength(t, x);
        assert t in Leaves(a);
      }
  }

  /** `quality is q AND accuracy is a AND timeliness is d`, grouped as Python groups `&`. */
  function AllOf(q: Level, a: Level, d: Level): Antecedent {
    And(And(Is(Quality, q), Is(Accuracy, a)), Is(Deadline, d))
  }

  /** `quality is q OR accuracy is a OR timeliness is d`, grouped as Python groups `|`. */
  function AnyOf(q: Level, a: Level, d: Level): Antecedent {
    Or(Or(Is(Quality, q), Is(Accuracy, a)), Is(Deadline, d))
  }

  /** The seven rules of the grading system, in their original order. */
  const GradeRules: seq<Rule> := [
    Rule(AllOf(High, High, High), High),
    Rule(AllOf(High, High, Mid), High),
    Rule(AllOf(Mid, Mid, Mid), Mid),
    Rule(AllOf(Mid, High, Mid), Mid),
    Rule(AnyOf(Low, Low, Low), Low),
    Rule(AllOf(High, Mid, Mid), Mid),
    Rule(AllOf(Mid, Mid, High), Mid)
  ]

  /** `quality is q AND accuracy is a AND timeliness is d` fires with the
      smallest of the three degrees. */
  lemma AllOfStrength(q: Level, a: Level, d: Level, x: Inputs)
    ensures Strength(AllOf(q, a, d), x)
         == Min(Min(Degree(Shape(q), x.quality), Degree(Shape(a), x.accuracy)), Degree(Shape(d), x.deadline))
  {
    assert Strength(Is(Quality, q), x) == Degree(Shape(q), x.quality);
    assert Strength(Is(Accuracy, a), x) == Degree(Shape(a), x.accuracy);
    assert Strength(And(Is(Quality, q), Is(Accuracy, a)), x)
        == Min(Strength(Is(Quality, q), x), Strength(Is(Accuracy, a), x));
  }

  /** `quality is q OR accuracy is a OR timeliness is d` fires with the
      largest of the three degrees. */
  lemma AnyOfStrength(q: Level, a: Level, d: Level, x: Inputs)
    ensures Strength(AnyOf(q, a, d), x)
         == Max(Max(Degree(Shape(q), x.quality), Degree(Shape(a), x.accuracy)), Degree(Shape(d), x.deadline))
  {
    assert Strength(Is(Quality, q), x) == Degree(Shape(q), x.quality);
    assert Strength(Is(Accuracy, a), x) == Degree(Shape(a), x.accuracy);
    assert Strength(Or(Is(Quality, q), Is(Accuracy, a)), x)
        == Max(Strength(Is(Quality, q), x), Strength(Is(Accuracy, a), x));
  }

  /** Index of the only disjunctive rule (rule 5 of the source). */
  const LowRule: nat := 4

  /** Six of the rules are conjunctions of three tests, one per input, and
      rule 5 is the disjunction of the three low terms; so each strength is
      the minimum, respectively maximum, of three input degrees. */
  lemma GradeRulesShape()
    ensures |GradeRules| == 7
    ensures forall k :: 0 <= k < |GradeRules| && k != LowRule ==>
      && Conjunctive(GradeRules[k].antecedent)
      && |Leaves(GradeRules[k].antecedent)| == 3
      && TestedInputs(GradeRules[k].antecedent) == {Quality, Accuracy, Deadline}
    ensures Disjunctive(GradeRules[LowRule].antecedent)
    ensures Leaves(GradeRules[LowRule].antecedent) == {Is(Quality, Low), Is(Accuracy, Low), Is(Deadline, Low)}
    ensures GradeRules[LowRule].consequent == Low
    ensures forall k :: 0 <= k < |GradeRules| && k != LowRule ==> GradeRules[k].consequent != Low
  {
    forall k | 0 <= k < |GradeRules| && k != LowRule
      ensures Conjunctive(GradeRules[k].antecedent)
      ensures |Leaves(GradeRules[k].antecedent)| == 3
      ensures TestedInputs(GradeRules[k].antecedent) == {Quality, Accuracy, Deadline}
    {
      if k == 0 { ConjunctionShape(High, High, High); }
      else if k == 1 { ConjunctionShape(High, High, Mid); }
      else if k == 2 { ConjunctionShape(Mid, Mid, Mid); }
      else if k == 3 { ConjunctionShape(Mid, High, Mid); }
      else if k == 5 { ConjunctionShape(High, Mid, Mid); }
      else { ConjunctionShape(Mid, Mid, High); }
    }
    var qa := Or(Is(Quality, Low), Is(Accuracy, Low));
    assert Leaves(qa) == {Is(Quality, Low), Is(Accuracy, Low)};
    assert GradeRules[LowRule] == Rule(Or(qa, Is(Deadline, Low)), Low);
  }

  lemma ConjunctionShape(q: Level, a: Level, d: Level)
    ensures Conjunctive(AllOf(q, a, d))
    ensures |Leaves(AllOf(q, a, d))| == 3
    ensures TestedInputs(AllOf(q, a, d)) == {Quality, Accuracy, Deadline}
  {
    var qa := And(Is(Quality, q), Is(Accuracy, a));
    assert Leaves(qa) == {Is(Quality, q), Is(Accuracy, a)};
    assert TestedInputs(qa) == {Quality, Accuracy};
    assert Leaves(AllOf(q, a, d)) == {Is(Quality, q), Is(Accuracy, a), Is(Deadline, d)};
  }

  /** Rule 5 fires with positive strength exactly when some input is below 5. */
  lemma LowRuleFiresIffSomeInputBelowFive(x: Inputs)
    requires x.InRange()
    ensures Strength(GradeRules[LowRule].antecedent, x) > 0.0
            <==> x.quality < 5.0 || x.accuracy < 5.0 || x.deadline < 5.0
  {
    AnyOfStrength(Low, Low, Low, x);
  }
}
