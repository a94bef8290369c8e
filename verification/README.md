# Fuzzy grading system — a Dafny model

This project models `FuzzyGradeSystem` from `fuzzy_logic.py`. It is a Mamdani
fuzzy-inference grading system. It rates a student's work from three marks on `[0, 10]`:

- quality (`качество`);
- accuracy (`точность`);
- timeliness (`сроки`).

From these it computes a score on `[0, 10]` and one of three categories:
`троечник`, `хорошист` or `отличник`. The model covers `__init__`, which
builds the four linguistic variables, their triangular terms and the seven
rules, and `evaluate`. Evaluation goes through these steps:

1. fuzzify the inputs;
2. compute each rule's firing strength, with AND as minimum and OR as maximum;
3. clip each rule's consequent at that strength;
4. aggregate the clipped sets by pointwise maximum over the output points `0..10`;
5. defuzzify by the discrete centroid;
6. sort the score into three bands;
7. report `(None, "ошибка вычисления")` when no centroid exists.

Everything is a pure function over Dafny `real`. The modules follow the
pipeline:

| module | file | contents |
|---|---|---|
| `Membership` | membership.dfy | triangles (`trimf`), the universe `0..10`, sampling and interpolation of sampled terms |
| `Variables` | variables.dfy | the three levels, named terms, the four linguistic variables, fuzzification |
| `Rules` | rules.dfy | inputs, antecedent trees, firing strength, the seven rules |
| `Inference` | inference.dfy | firing, clipping, aggregation, per-term activation |
| `Defuzzify` | defuzzify.dfy | area, moment, centroid, classification |
| `Grader` | grader.dfy | the result type, `Evaluate` and the reported pair |
| `Examples` | examples.dfy | the five reference cases of the application and one input that fires no rule |

Two choices follow the code rather than a stricter reading of it:

- **Inputs:** `evaluate` does no range check of its own. The model takes
  inputs in `[0, 10]` as the precondition of `Grader.Evaluate`, because both
  callers enforce that range. The console client checks it at `main.py:23`.
  The bot offers only the buttons 0 to 10, at
  `bot/keyboards/grade_input.py:24-25`.
- **No score:** when no rule fires, the code returns the pair
  `(None, 'ошибка вычисления')` rather than raising an error.
  `Grader.ComputeError` and `Grader.Report` model that pair.

## Model

| member | source | states |
|---|---|---|
| Membership.Degree | fuzzy_logic.py:17-32 | the degree of a triangular term lies in [0,1], is 0 left of the left foot and right of the right foot, and is 1 exactly at the peak; a shoulder (`a = b` or `b = c`) needs no division |
| Membership.RisingSide | fuzzy_logic.py:17-32 | between the left foot and the peak the degree is the linear ramp `(x - a)/(b - a)`, feet included |
| Membership.FallingSide | fuzzy_logic.py:17-32 | between the peak and the right foot the degree is the linear ramp `(c - x)/(c - b)`, feet included |
| Membership.FeetAreZero | fuzzy_logic.py:17-32 | the foot of every proper side has degree 0 |
| Membership.MonotoneUpToPeak | fuzzy_logic.py:17-32 | up to the peak the degree never decreases |
| Membership.MonotoneDownFromPeak | fuzzy_logic.py:17-32 | from the peak on the degree never increases |
| Membership.ClosedForm | fuzzy_logic.py:17-32 | for a proper triangle the degree equals the independent closed form `max(0, min((x-a)/(b-a), (c-x)/(c-b)))` |
| Membership.Universe | fuzzy_logic.py:9-14 | the universe of every variable has 11 points, all in [0,10] |
| Membership.Sample | fuzzy_logic.py:17-32 | a term stored as its samples on the universe has one degree in [0,1] per point |
| Membership.Interp | fuzzy_logic.py:84-90 | reading a sampled term at a crisp input gives the sample at a grid point and a value between the two neighbouring samples elsewhere |
| Membership.InterpolatedSampleIsExact | fuzzy_logic.py:17-32 | for a triangle with whole-number breakpoints inside the universe, interpolating its samples gives exactly its degree at every input of [0,10] |
| Variables.Shape | fuzzy_logic.py:17-32 | each of the three shared triangles has whole-number breakpoints inside [0,10] and a peak on the grid |
| Variables.VariablesWellFormed | fuzzy_logic.py:8-32 | the four variables have distinct names, their terms have distinct names, and every term is the shared triangle of its level |
| Variables.Fuzzify | fuzzy_logic.py:84-90 | fuzzifying a crisp value gives a degree in [0,1] for every one of the three terms |
| Variables.TermsCoverUniverse | fuzzy_logic.py:17-27 | every point of [0,10] belongs to some term with a positive degree |
| Rules.InputVariable | fuzzy_logic.py:9-11 | each input is read through a well-formed variable whose terms are the shared triangles |
| Rules.LeafDegree | fuzzy_logic.py:17-27 | a test `input is term` has the degree of the input in that term's triangle, in [0,1] |
| Rules.LeafIsFuzzified | fuzzy_logic.py:17-27 | the degree a test uses is the fuzzified degree and equals interpolation of the term's samples |
| Rules.Strength | fuzzy_logic.py:35-68 | every firing strength of an AND/OR antecedent lies in [0,1] |
| Rules.ConjunctionIsMinimum | fuzzy_logic.py:35-53 | a pure AND fires with the smallest degree among its tests, and that smallest degree is attained by one of them |
| Rules.DisjunctionIsMaximum | fuzzy_logic.py:55-58 | a pure OR fires with the largest degree among its tests, and that largest degree is attained by one of them |
| Rules.AllOfStrength | fuzzy_logic.py:35-38 | a three-way AND fires with the minimum of the quality, accuracy and timeliness degrees |
| Rules.AnyOfStrength | fuzzy_logic.py:55-58 | a three-way OR fires with the maximum of the three degrees |
| Rules.GradeRulesShape | fuzzy_logic.py:35-71 | there are seven rules; six are ANDs testing each input once and none of those concludes the low grade; rule 5 is the OR of the three low terms and concludes the low grade |
| Rules.LowRuleFiresIffSomeInputBelowFive | fuzzy_logic.py:55-58 | rule 5 fires with positive strength exactly when some input is below 5, the right foot of the low terms |
| Inference.OutputShape | fuzzy_logic.py:30-32 | the output terms are the shared triangles |
| Inference.Fire | fuzzy_logic.py:35-71 | firing keeps the rules' order and consequents and gives each rule its antecedent's strength, in [0,1] |
| Inference.Clipped | fuzzy_logic.py:71 | a clipped consequent is at most the firing strength and at most the term's degree, and equals one of them |
| Inference.AggregatedAt | fuzzy_logic.py:71 | at one output point the aggregate lies in [0,1], bounds every clipped rule from above and is either 0 or the value of one clipped rule |
| Inference.Aggregate | fuzzy_logic.py:71 | the output set has 11 degrees in [0,1]; each is at least every rule's clipped consequent there and, when positive, is bounded by both the strength and the consequent degree of one rule |
| Inference.AggregatedIsLargestClip | fuzzy_logic.py:71 | any value that bounds every clipped rule and is 0 or one of them is the aggregate, so the aggregate is exactly the largest clip |
| Inference.Activation | fuzzy_logic.py:71 | a term's activation lies in [0,1], bounds the strength of every rule concluding that term, and is 0 or one of those strengths |
| Inference.AggregationMatchesAccumulation | fuzzy_logic.py:71 | aggregating rule by rule equals clipping each term once at its activation and taking the maximum, so rule order and grouping of rules sharing a term do not matter |
| Inference.AggregateByTerms | fuzzy_logic.py:71 | the whole output set equals its term-wise form at every output point |
| Inference.NoFiringIffEmptyAggregate | fuzzy_logic.py:89-93 | the output set is 0 at every point exactly when every rule fires with strength 0 |
| Defuzzify.SumZeroIffEmpty | fuzzy_logic.py:93 | the area of a set with non-negative degrees is non-negative and is 0 exactly when every degree is 0 |
| Defuzzify.MomentBetween | fuzzy_logic.py:93 | over points of [0,10] the moment lies between 0 and 10 times the area |
| Defuzzify.Centroid | fuzzy_logic.py:93 | there is no centroid exactly when the area is 0; otherwise the centroid times the area is the moment |
| Defuzzify.CentroidWithinBounds | fuzzy_logic.py:93 | over points of [0,10] the centroid lies in [0,10], and it is missing exactly when the set is 0 everywhere |
| Defuzzify.Classify | fuzzy_logic.py:96-101 | the three bands below 4, from 4 below 7, and from 7 on are disjoint and cover every score |
| Defuzzify.ClassifyMonotone | fuzzy_logic.py:96-101 | a higher score never gets a lower category |
| Defuzzify.ClassifyBoundaries | fuzzy_logic.py:96-101 | 4.0 is in the middle band and 7.0 in the high band, while 3.999 and 6.999 fall in the band below |
| Grader.Infer | fuzzy_logic.py:89-105 | for any rule base a result carries a score in [0,10] and that score's category; the error result comes exactly when every rule fires with strength 0 |
| Grader.Evaluate | fuzzy_logic.py:74-105 | the grading system gives a score in [0,10] with its band's category, or the error result exactly when none of the seven rules fires |
| Grader.Report | fuzzy_logic.py:96-105 | the reported pair has no score and the error text exactly on error; otherwise it has the score and `троечник`, `хорошист` or `отличник` exactly for the low, middle and high band |
| Examples.GradeActivations | fuzzy_logic.py:35-71 | the high grade is activated by the stronger of rules 1 and 2, the middle grade by the strongest of rules 3, 4, 6 and 7, the low grade by rule 5 |
| Examples.RuleStrengths | fuzzy_logic.py:35-68 | each of the seven rule strengths in closed form over the input degrees |
| Examples.SampledTerms | fuzzy_logic.py:30-32 | the samples of the three triangles on `0..10` |
| Examples.GridDegrees | fuzzy_logic.py:17-27 | on whole-number inputs every term degree is the term's sample at that point |
| Examples.AggregateOfActivations | fuzzy_logic.py:71 | the output set depends only on the activations of the three terms |
| Examples.GradedByActivations | fuzzy_logic.py:89-103 | given the activations of the three terms and a non-empty output set, the grading system reports that set's centroid and its category |
| Examples.ExcellentExample | main.py:111 | marks (9, 9, 10) score 80/9 and are rated `отличник` |
| Examples.GoodExample | main.py:112 | marks (6, 6, 6) score 70/13 and are rated `хорошист` |
| Examples.WeakExample | main.py:113 | marks (3, 3, 2) score 19/12 and are rated `троечник` |
| Examples.MixedExample | main.py:114 | marks (5, 4, 8) score 331/79 and are rated `хорошист` |
| Examples.PoorExample | main.py:115 | marks (1, 2, 1) score 10/7 and are rated `троечник` |
| Examples.NoRuleFiresExample | fuzzy_logic.py:104-105 | marks (10, 5.5, 10) fire no rule, so the grading system returns the error pair with no score |

## Left out

- The toolkit's own centroid is not modelled. The library refines the output
  universe and integrates the piecewise-linear aggregate; its code is not part
  of this model. The model uses the discrete centroid `Σ x·μ(x) / Σ μ(x)` over
  the 11 output points.
- Examples.ExcellentExample: its score is the discrete centroid's, not the library's; only the category is the application's own expectation.
- Examples.GoodExample: its score is the discrete centroid's, not the library's; only the category is the application's own expectation.
- Examples.WeakExample: its score is the discrete centroid's, not the library's; only the category is the application's own expectation.
- Examples.MixedExample: its score is the discrete centroid's, not the library's; only the category is the application's own expectation.
- Examples.PoorExample: its score is the discrete centroid's, not the library's; only the category is the application's own expectation.
- The shared mutable simulation object is not modelled
  (`fuzzy_logic.py:72`, `fuzzy_logic.py:84-86`). Evaluation is a pure
  function of the rule base and the inputs.
- Grader.Evaluate: inputs outside `[0, 10]` are excluded by a precondition.
  The toolkit's handling of such inputs (clipping to the universe) is not
  part of this model, and every caller rejects them first.
- Grader.Infer: the catch-all `except` is modelled only for the failure that
  this configuration can produce: an empty output set with no centroid.
  Other library exceptions are not modelled.
- Floating point is not modelled. Everything is exact `real` arithmetic, so
  rounding in the scores and at the band boundaries 4 and 7 is not captured.
- Not modelled, as rendering, persistence or user interface:
  - plotting: `visualize` and `visualize_result` in `fuzzy_logic.py`, and
    `bot/fuzzy_logic_adapter.py`;
  - the Telegram bot: its commands, callbacks, keyboards and states;
  - the database;
  - JSON and CSV files in `utils.py`;
  - the console menu in `main.py`;
  - the statistics command.
