/** The four linguistic variables of the grading system: three inputs (quality,
    accuracy, timeliness) and the output grade.  Every variable has the
    universe `0..10` and three terms with the same triangles
    `[0,0,5]`, `[3,5,8]` and `[6,10,10]`; only the names differ.
 */
module Variables {
  import opened Membership

  /** The three terms of every variable, from the lowest to the highest. */
  datatype Level = Low | Mid | High {
    function Rank(): nat {
      match this
      case Low => 0
      case Mid => 1
      case High => 2
    }
  }

  /** A named term backed by a triangle. */
  datatype Term = Term(name: string, shape: Tri)

  /** A named variable with its low, middle and high term. */
  datatype LinguisticVariable = LinguisticVariable(name: string, low: Term, mid: Term, high: Term) {

    function TermAt(l: Level): Term {
      match l
      case Low => low
      case Mid => mid
      case High => high
    }

    /** Term names are unique and every triangle is ordered and lies on the universe grid. */
    predicate WellFormed() {
      && low.name != mid.name && mid.name != high.name && low.name != high.name
      && OnGrid(low.shape) && OnGrid(mid.shape) && OnGrid(high.shape)
    }
  }

  const LowShape: Tri := Tri(0.0, 0.0, 5.0)
  const MidShape: Tri := Tri(3.0, 5.0, 8.0)
  const HighShape: Tri := Tri(6.0, 10.0, 10.0)

  /** The triangle every variable uses for the given level. */
  function Shape(l: Level): (t: Tri)
    ensures OnGrid(t)
    ensures 0.0 <= t.b <= UniverseMax && t.b == t.b.Floor as real
  {
    match l
    case Low => LowShape
    case Mid => MidShape
    case High => HighShape
  }

  const QualityVar: LinguisticVariable :=
    LinguisticVariable("качество", Term("низкое", LowShape), Term("среднее", MidShape), Term("высокое", HighShape))

  const AccuracyVar: LinguisticVariable :=
    LinguisticVariable("точность", Term("низкая", LowShape), Term("средняя", MidShape), Term("высокая", HighShape))

  const DeadlineVar: LinguisticVariable :=
    LinguisticVariable("сроки", Term("поздно", LowShape), Term("вовремя", MidShape), Term("досрочно", HighShape))

  const GradeVar: LinguisticVariable :=
    LinguisticVariable("оценка", Term("троечник", LowShape), Term("хорошист", MidShape), Term("отличник", HighShape))

  /** The four variables are well formed, carry the shared triangles, and
      have distinct names. */
  lemma VariablesWellFormed()
    ensures forall v :: v in {QualityVar, AccuracyVar, DeadlineVar, GradeVar} ==> v.WellFormed()
    ensures forall v, l :: v in {QualityVar, AccuracyVar, DeadlineVar, GradeVar} ==> v.TermAt(l).shape == Shape(l)
    ensures |{QualityVar.name, AccuracyVar.name, DeadlineVar.name, GradeVar.name}| == 4
  {
    assert OnGrid(LowShape) && OnGrid(MidShape) && OnGrid(HighShape);
  }

  /** Fuzzification: the degree of a crisp value in each term of a variable. */
  function Fuzzify(v: LinguisticVariable, x: real): (m: map<Level, real>)
    requires v.WellFormed()
    ensures forall l: Level :: l in m.Keys
    ensures forall l :: l in m ==> 0.0 <= m[l] <= 1.0
  {
    map l: Level | l.Low? || l.Mid? || l.High? :: Degree(v.TermAt(l).shape, x)
  }

  /** The three terms cover the universe: every point of `[0, 10]` belongs
      to at least one term with a positive degree. */
  lemma TermsCoverUniverse(x: real)
    requires 0.0 <= x <= UniverseMax
    ensures exists l: Level :: Degree(Shape(l), x) > 0.0
  {
    if x < 5.0 {
      assert Degree(Shape(Low), x) > 0.0;
    } else if x < 8.0 {
      assert Degree(Shape(Mid), x) > 0.0;
    } else {
      assert Degree(Shape(High), x) > 0.0;
    }
  }
}
