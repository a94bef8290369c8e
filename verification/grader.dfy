/** The grading system end to end: crisp inputs are fuzzified, the seven rules fire,
    their clipped consequents are aggregated, the aggregate is defuzzified
    by its centroid and the score is put into one of three categories.  When
    the aggregate is empty there is no centroid, and the grading system reports a
    computation error instead of a score.
 */
module Grader {
  import opened Membership
  import opened Variables
  import opened Rules
  import opened Inference
  import opened Defuzzify

  /** The outcome of one evaluation: a score with its category, or the
      error the grading system reports when no score can be computed. */
  datatype Grade = Graded(score: real, category: Level) | ComputeError

  /** The text reported instead of a category when computing fails. */
  const ErrorText: string := "ошибка вычисления"

  /** Mamdani inference with a rule base over in-range inputs, followed by
      centroid defuzzification and classification. */
  function Infer(rules: seq<Rule>, x: Inputs): (g: Grade)
    requires x.InRange()
    ensures g.Graded? ==> 0.0 <= g.score <= UniverseMax && g.category == Classify(g.score)
    ensures g.ComputeError? <==> forall k :: 0 <= k < |rules| ==> Strength(rules[k].antecedent, x) == 0.0
  {
    var fs := Fire(rules, x);
    var mu := Aggregate(fs);
    CentroidWithinBounds(Universe(), mu);
    NoFiringIffEmptyAggregate(fs);
    match Centroid(Universe(), mu)
    case None => ComputeError
    case Some(score) => Graded(score, Classify(score))
  }

  /** The grading system: the seven rules applied to inputs in `[0, 10]`, the
      range every caller enforces before evaluating. */
  function Evaluate(x: Inputs): (g: Grade)
    requires x.InRange()
    ensures g.Graded? ==> 0.0 <= g.score <= UniverseMax && g.category == Classify(g.score)
    ensures g.ComputeError? <==>
      forall k :: 0 <= k < |GradeRules| ==> Strength(GradeRules[k].antecedent, x) == 0.0
  {
    Infer(GradeRules, x)
  }

  /** The pair the grading system hands back: the score, or nothing, and the
      category's name, or the error text. */
  function Report(g: Grade): (r: (Option<real>, string))
    ensures r.0.None? <==> g.ComputeError?
    ensures r.1 == ErrorText <==> g.ComputeError?
    ensures g.Graded? ==> r.0 == Some(g.score)
    ensures g.Graded? && g.category == Classify(g.score) ==>
      && (r.1 == "троечник" <==> g.score < 4.0)
      && (r.1 == "хорошист" <==> 4.0 <= g.score < 7.0)
      && (r.1 == "отличник" <==> 7.0 <= g.score)
  {
    match g
    case ComputeError => (None, ErrorText)
    case Graded(score, category) => (Some(score), GradeVar.TermAt(category).name)
  }
}
