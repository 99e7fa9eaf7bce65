# A Dafny model of the aigents practice validator core

The validator scores a submitted "practice" (a JSON record with a title, a
problem, a solution, implementation steps, benefits, tags, …). Six criterion
analyzers each score the practice: quality Q, reproducibility R, utility U,
applicability A, innovation I and reliability Rel. Each analyzer returns a
`score`, a `details` dict of sub-metric scores and an `explanation`.

The **quality wheel** holds a table of thresholds per (criterion,
sub-metric), each with a minimum value, a weight and a required flag. For
each criterion it sorts the sub-metrics into valid and invalid. It computes
the weighted score and a validity flag. Over all criteria it collects:
- the valid and the invalid criteria;
- the criteria whose failure involves a required sub-metric;
- a recommendation for every criterion scoring below 6.0;
- a final score, which is the mean of the valid criteria when nothing
  required is missing.

The **validator** then maps the evaluation to one of five verdicts.

Around this core, the model also covers:
- the two helpers all analyzers inherit: score normalisation and text
  validation;
- the practice-type classifier;
- the per-field completeness check of the test-data script;
- the three keyword-scoring analyzers that need no language model: utility,
  innovation and reliability.

Modules:

- `Wrappers` holds `Option` and `Result`.
- `PyText` models the Python string built-ins the analyzers use:
  - `str.lower` and the `in` substring test;
  - `strip`, `len(s.split())`, `bool(re.search(r'\d+%?', s))` and `str.join`;
  - `str()` of an integer;
  - `round(x, k)` with round-half-to-even on exact reals.
- `PyData` models JSON values, with `str()` / `repr` rendering, truthiness,
  `dict.get` and `len`.
- `BaseAnalyzer` holds `_normalize_score`, `_validate_text`, the analyzer
  result record, and the keyword-loop methods every analyzer repeats.
- `Classifier`, `TestData`, `Innovation`, `Reliability` and `Utility` follow
  the source file of the same role.
- `Wheel` holds the `QualityWheel` class. Its field is `thresholds`:
  - `adjust_threshold` modifies it in place;
  - `_evaluate_criterion` and `evaluate_practice` are loops proved against
    the specification functions `CriterionMetric` and `Evaluate`.
- `Validator` holds `_make_decision` and `validate_practice`.

Scores are `real`. Dicts whose order matters are sequences of pairs in
insertion order: `details`, the score dicts and `field_details`. A practice
record is a map.

The `KeyError` that quality_wheel.py:100 raises for a sub-metric with no
threshold is an error result (`WheelError.KeyError`). So is the one that
`analyze_practice` raises for a missing `_file_name` or `title`
(`TestData.MissingKey`).

Two `AttributeError`s are ruled out by preconditions instead:
- `Innovation.TagsAreStrings`: `tag.lower()` requires every tag in a list of
  tags to be a string.
- `Utility.DomainIsText`: `data["domain"].lower()` requires a truthy domain
  to be a string.

## Model

| member | source | states |
|---|---|---|
| BaseAnalyzer.NormalizeScore | validator_service/analyzers/base.py:21-25 | the result is 0.0 whenever `max_score` ≤ 0 and never exceeds 10.0 |
| BaseAnalyzer.NormalizeOnTenScale | validator_service/analyzers/base.py:25 | on the 10-point scale normalising is `min(score, 10)`; negative scores are not raised to 0 |
| BaseAnalyzer.NormalizeMonotone | validator_service/analyzers/base.py:25 | for a fixed positive scale, normalising is monotone non-decreasing |
| BaseAnalyzer.ValidateText | validator_service/analyzers/base.py:27-31 | a falsy value is never valid; otherwise valid iff the stripped `str()` reaches the minimum length |
| BaseAnalyzer.ValidateTextRejectsBlank | validator_service/analyzers/base.py:29-31 | all-whitespace text never passes a positive length bound |
| BaseAnalyzer.ValidateTextAntitone | validator_service/analyzers/base.py:31 | text valid for a bound stays valid for every lower bound |
| BaseAnalyzer.AddKeywordPoints | validator_service/analyzers/innovation.py:51-59 | the keyword loop adds `points` once for every listed word occurring in the text |
| BaseAnalyzer.CountGroupWords | validator_service/analyzers/innovation.py:115-118 | the nested loop over an indicator dict's values counts every occurring word of every group, group by group |
| BaseAnalyzer.AddGroupPoints | validator_service/analyzers/innovation.py:115-118 | the nested loop adds `points` once per occurring word of every group |
| Classifier.Classify | validator_service/analyzers/practice_classifier.py:13-39 | scientific iff a scientific indicator occurs; engineering iff none does and an engineering indicator occurs; process iff neither earlier group matches and a process indicator occurs |
| Classifier.ManagementIffNoIndicator | validator_service/analyzers/practice_classifier.py:39 | management is returned exactly when no indicator of any group occurs |
| Classifier.ClassifyIgnoresCase | validator_service/analyzers/practice_classifier.py:14-15 | records whose solution and summary agree up to letter case get the same type, whatever their other fields |
| Classifier.NamesDistinct | validator_service/analyzers/practice_classifier.py:4-8 | the four enum values are pairwise distinct |
| TestData.RequiredFields | scripts/analyze_test_data.py:8-21 | the requirement table has twelve fields |
| TestData.AnalyzeFieldQuality | scripts/analyze_test_data.py:36-66 | the step-by-step appends build exactly `FieldQuality(value, requirements)` |
| TestData.FieldQualityMeaning | scripts/analyze_test_data.py:40-56 | None is unfilled with exactly "Field is empty"; every other value is filled; a length issue only for a too-short string, an item issue only for a list or dict with too few items, both with the actual count and the limit |
| TestData.DescriptionIssuesMeaning | scripts/analyze_test_data.py:58-64 | description issues come only from a list under a `min_description_length` limit, one per dict item whose description is too short |
| TestData.StepIssuesCount | scripts/analyze_test_data.py:59-64 | the loop records one "Step description length" issue per item with a short description, and nothing else |
| TestData.FieldQualityClean | scripts/analyze_test_data.py:46-64 | a filled field has no issue exactly when it meets every limit it is given |
| TestData.PracticeAnalysis | scripts/analyze_test_data.py:68-77 | `KeyError` exactly when `_file_name` or `title` is missing, `_file_name` checked first |
| TestData.AnalyzePractice | scripts/analyze_test_data.py:68-92 | the counting loop builds exactly `PracticeAnalysis(practice)` |
| TestData.FilledCountMeaning | scripts/analyze_test_data.py:83-84 | `fields_filled` is the number of fields minus those absent or None |
| TestData.UnfilledHaveIssues | scripts/analyze_test_data.py:83-86 | when every field is filled or has an issue, `fields_filled` and `fields_with_issues` together reach the number of fields |
| TestData.IssueCountMeaning | scripts/analyze_test_data.py:85-86 | the issue counter equals the number of positions whose issue list is not empty |
| TestData.PracticeAnalysisMeaning | scripts/analyze_test_data.py:68-92 | total 12; details keyed by the twelve field names in order, each the analysis of that field; `fields_with_issues` is the number of fields with a non-empty issue list; both counters ≤ 12; completeness is `round(filled/12·100, 1)` in [0, 100] |
| Innovation.InnovativeTagCount | validator_service/analyzers/innovation.py:62-64 | at most one count per tag |
| Innovation.AnalyzeNovelty | validator_service/analyzers/innovation.py:35-66 | the loops compute `Novelty`: +2.5 per high, +1.5 per medium, −1.0 per low word, +2.0 per innovative tag, then normalised |
| Innovation.AnalyzeTechComplexity | validator_service/analyzers/innovation.py:68-100 | the loops compute `TechComplexity`: +3/+2/+1 per advanced/modern/tool word, +2.0 for five or more steps, then normalised |
| Innovation.AnalyzePotential | validator_service/analyzers/innovation.py:102-124 | the loops compute `Potential`: +2.0 per indicator word of any group, +2.0 for any list of steps, then normalised |
| Innovation.SubScoreBounds | validator_service/analyzers/innovation.py:35-124 | novelty in [−4, 10], the other two in [0, 10]; a step list lifts potential to ≥ 2, five steps lift tech complexity to ≥ 2 |
| Innovation.NoveltyNegative | validator_service/analyzers/innovation.py:57-66 | novelty is negative iff its raw sum is; with no high or medium word and no innovative tag, any low word makes it negative |
| Innovation.GenerateExplanation | validator_service/analyzers/innovation.py:126-149 | the appended remarks joined by ". " are the three threshold sentences |
| Innovation.Analyze | validator_service/analyzers/innovation.py:14-33 | the result is `InnovationResult`: weighted score `round(0.4n + 0.3t + 0.3p, 2)`, details, explanation |
| Innovation.InnovationResultBounds | validator_service/analyzers/innovation.py:14-33 | details are exactly novelty, tech_complexity and potential; score in [−2, 10], ≥ 0 when novelty is; no correction |
| Reliability.AnalyzeEmpiricalValidation | validator_service/analyzers/reliability.py:41-80 | the loops compute `EmpiricalValidation`; +2.0 iff the steps are a list of length ≥ 4 |
| Reliability.AnalyzeMethodology | validator_service/analyzers/reliability.py:82-110 | the guarded increments compute `Methodology` |
| Reliability.MethodologyRules | validator_service/analyzers/reliability.py:87-110 | steps earn 3 for five or more, 2 for three or four, else 0; each of the requirement and limitation lists earns between 0 and 3, and the full 3 from two items on; the raw sum lies in [0, 10], so it is never clipped |
| Reliability.AnalyzeAdaptability | validator_service/analyzers/reliability.py:112-150 | the loops compute `Adaptability`, with +2.0 when domain and sub-domains are both truthy |
| Reliability.AnalyzeExternalValidation | validator_service/analyzers/reliability.py:152-182 | the nested loop computes `ExternalValidation`: +2.5 per indicator, +2.0 for "examples" |
| Reliability.SubScoreBounds | validator_service/analyzers/reliability.py:41-182 | every sub-score lies in [0, 10]; four or more steps give empirical validation ≥ 2 |
| Reliability.CalculateCorrectionFactors | validator_service/analyzers/reliability.py:184-203 | the accumulated correction is the sum of the three penalties −0.5, −0.5, −1.0 |
| Reliability.CorrectionBounds | validator_service/analyzers/reliability.py:184-203 | the correction is in [−2, 0] and one of five values; negative iff some signal occurs; −2 iff all three do |
| Reliability.Remarks | validator_service/analyzers/reliability.py:205-226 | two remarks, and a third exactly when the correction is negative |
| Reliability.ExplanationText | validator_service/analyzers/reliability.py:223-226 | the explanation is the two threshold sentences plus, only for a negative correction, the sentence naming its value |
| Reliability.GenerateExplanation | validator_service/analyzers/reliability.py:205-226 | the appended remarks joined by ". " equal `Explanation` |
| Reliability.Analyze | validator_service/analyzers/reliability.py:14-39 | the result is `ReliabilityResult`: `round(0.35e + 0.25m + 0.20a + 0.20x + correction, 2)`, details, correction, explanation |
| Reliability.ReliabilityResultBounds | validator_service/analyzers/reliability.py:14-39 | details are exactly the four sub-metrics; the correction is reported; score in [−2, 10], ≥ 0 without correction |
| Utility.AnalyzeProblemClarity | validator_service/analyzers/utility.py:35-53 | the increments compute `ProblemClarity`: 0 without `problem`, else +3 "how to", +2 per goal, +2 for a mentioned domain |
| Utility.AnalyzeBenefits | validator_service/analyzers/utility.py:55-72 | the loop computes `Benefits`: per item +2 for a measurable word, +1 for ≥ 4 words |
| Utility.BenefitsPointsBounds | validator_service/analyzers/utility.py:61-70 | each benefit earns 0 to 3 points |
| Utility.BenefitsRules | validator_service/analyzers/utility.py:55-72 | benefits in [0, 10]; 0 when not a list; never clipped for three items or fewer |
| Utility.AnalyzeEfficiency | validator_service/analyzers/utility.py:74-99 | the increments compute `Efficiency`: +2 financial cost, +2 time cost, +3 ROI word, +3 digit |
| Utility.EfficiencyRules | validator_service/analyzers/utility.py:74-99 | efficiency equals its raw sum, which is never clipped, in [0, 10]; at most 4 without a list of benefits |
| Utility.SubScoreBounds | validator_service/analyzers/utility.py:35-99 | every sub-score lies in [0, 10]; problem clarity is 0 without `problem` |
| Utility.GenerateExplanation | validator_service/analyzers/utility.py:101-124 | the appended remarks joined by ". " are the three threshold sentences |
| Utility.Analyze | validator_service/analyzers/utility.py:14-33 | the result is `UtilityResult`: `round(0.35pc + 0.35b + 0.30e, 2)`, details, explanation |
| Utility.UtilityResultBounds | validator_service/analyzers/utility.py:14-33 | details are exactly problem_clarity, benefits, efficiency; score in [0, 10]; no correction |
| Wheel.DefaultThresholds | validator_service/quality_wheel.py:20-55 | the table has exactly the criteria Q, R, U, A, I, Rel, each with the sub-metric thresholds seeded at these lines |
| Wheel.QualityWheel.constructor | validator_service/quality_wheel.py:20-55 | a new wheel holds the default table |
| Wheel.AdjustedTable | validator_service/quality_wheel.py:57-69 | only the named entry changes, only in the fields passed; keys are unchanged; an unknown criterion or metric changes nothing |
| Wheel.QualityWheel.AdjustThreshold | validator_service/quality_wheel.py:57-69 | the new table is `AdjustedTable` of the old one |
| Wheel.ValidMetrics | validator_service/quality_wheel.py:123-129 | every valid sub-metric is configured and passes its threshold |
| Wheel.InvalidMetrics | validator_service/quality_wheel.py:123-131 | every invalid sub-metric is configured, required and below its minimum |
| Wheel.MetricRouting | validator_service/quality_wheel.py:123-131 | an unconfigured sub-metric is skipped; a configured one is invalid iff required and below its minimum, valid otherwise |
| Wheel.WeightedSumOfValid | validator_service/quality_wheel.py:143-149 | the weighted sum over the valid sub-metrics is `Σ value·weight` of the configured passing ones |
| Wheel.CriterionMetricMeaning | validator_service/quality_wheel.py:133-155 | details are the configured sub-metrics; valid iff every configured required one reaches its minimum (so empty details are valid); score is `Σ value·weight` over valid ones (0.0 for none); explanation defaults to "" |
| Wheel.QualityWheel.EvaluateCriterion | validator_service/quality_wheel.py:117-156 | the loop builds exactly `CriterionMetric` of the criterion's thresholds |
| Wheel.FoldErrorPersists | validator_service/quality_wheel.py:82-107 | once the `KeyError` is raised, later criteria do not matter |
| Wheel.ScanFindsRequired | validator_service/quality_wheel.py:100 | a scan that succeeds over details with a required configured sub-metric answers true |
| Wheel.ScanErrorCause | validator_service/quality_wheel.py:100 | a `KeyError` names a sub-metric in the details that has no threshold |
| Wheel.ScanSucceedsWhenConfigured | validator_service/quality_wheel.py:100 | with every sub-metric configured the scan raises nothing |
| Wheel.InvalidCriterionIsMissing | validator_service/quality_wheel.py:96-101 | an invalid criterion whose scan succeeds is always added to `missing_required` |
| Wheel.FoldAgreesWithFilters | validator_service/quality_wheel.py:82-107 | the loop's lists are the known criteria filtered by validity, the missing ids are the invalid ids, and the recommendations are the expected ones |
| Wheel.RoutedIds | validator_service/quality_wheel.py:82-99 | a criterion id is in a score dict iff some entry with that id is known and has that validity |
| Wheel.EvaluateMeaning | validator_service/quality_wheel.py:71-115 | valid/invalid dicts in input order; `missing_required` equals the invalid ids; final score present iff nothing invalid and something valid, and then the mean; `reliability_score` None; recommendations as expected |
| Wheel.ExactlyOneBucket | validator_service/quality_wheel.py:82-99 | unknown criteria appear in neither dict; a known one in exactly the dict its validity names |
| Wheel.EvaluateSucceedsWhenConfigured | validator_service/quality_wheel.py:100 | with all detail keys configured the `KeyError` cannot occur |
| Wheel.EvaluateErrorCause | validator_service/quality_wheel.py:96-100 | a `KeyError` comes from an invalid known criterion and names one of its unconfigured sub-metrics |
| Wheel.AllPassingIsComplete | validator_service/quality_wheel.py:109-113 | when every required configured sub-metric passes, nothing is invalid or missing and a final score exists iff some criterion is known |
| Wheel.FailingRequiredMetricIsMissing | validator_service/quality_wheel.py:96-131 | a required sub-metric below its minimum puts its criterion among the invalid and the missing |
| Wheel.SumBounds | validator_service/quality_wheel.py:113 | a sum of bounded scores is bounded by count·bound |
| Wheel.MeanBounds | validator_service/quality_wheel.py:113 | the mean of scores in [lo, hi] lies in [lo, hi] |
| Wheel.QualityWheel.EvaluatePractice | validator_service/quality_wheel.py:71-115 | the loop builds exactly `Evaluate(thresholds, scores)`, error included |
| Validator.MakeDecision | validator_service/validator.py:46-56 | needs_improvement iff something is missing; incomplete iff nothing is missing and no final score; approve for ≥ 7.0, review for [5.0, 7.0), reject below 5.0 |
| Validator.LabelsDistinct | validator_service/validator.py:46-56 | the five returned verdict strings are pairwise distinct |
| Validator.DecisionMonotone | validator_service/validator.py:52-56 | with nothing missing, a higher final score never lowers the verdict in the order reject < review < approve |
| Validator.CriterionScores | validator_service/validator.py:14-29 | exactly one result per criterion Q, R, U, A, I, Rel, in that order, without duplicate keys |
| Validator.Report | validator_service/validator.py:31-44 | valid/invalid scores, final score, reliability score and recommendations are copied unchanged; the decision is `_make_decision` of the evaluation; the wheel's error propagates |
| Validator.ReliabilityScoreAlwaysNone | validator_service/validator.py:39 | the reported reliability score is always None |
| Validator.ReportSucceedsWhenConfigured | validator_service/validator.py:32 | with every sub-metric of the six criteria configured, validation raises nothing |
| Validator.ModelledCriteriaConfigured | validator_service/validator.py:17-20 | every sub-metric the utility, innovation and reliability analyzers report has a threshold |
| Validator.ValidateSucceedsWhenConfigured | validator_service/validator.py:24-44 | `validate_practice` can fail only through an unconfigured quality, reproducibility or applicability sub-metric |
| Validator.DecisionMeaning | validator_service/validator.py:46-56 | the verdict is needs_improvement iff some criterion is invalid and is never incomplete; without invalid criteria the final score is the mean of the valid ones |
| Validator.ApproveWhenAllStrong | validator_service/validator.py:52-53 | no invalid criterion and every valid score in [7, 10] gives approve |
| Validator.UtilityCriterionValidity | validator_service/quality_wheel.py:34-38 | a utility result is valid iff problem clarity and benefits reach 6.0; all its keys are configured |
| Validator.UtilityValidity | validator_service/validator.py:17 | the utility criterion of a practice is valid iff its problem clarity and benefits reach 6.0 |
| Validator.InnovationCriterionValidity | validator_service/quality_wheel.py:44-48 | an innovation result is valid iff potential reaches 6.0; all its keys are configured |
| Validator.InnovationValidity | validator_service/validator.py:19 | the innovation criterion of a practice is valid iff its potential reaches 6.0 |
| Validator.ReliabilityCriterionValidity | validator_service/quality_wheel.py:49-54 | a reliability result is valid iff empirical validation and methodology reach 6.0, whatever the correction |
| Validator.ReliabilityValidity | validator_service/validator.py:20 | the reliability criterion of a practice is valid iff its empirical validation and methodology reach 6.0 |

## Left out

- Message-queue consumption, blockchain transactions, LLM calls, file loading and console printing are not part of this model. These are `consumer.py`, `main.py`, `blockchain.py`, `llm/`, the other scripts, and `load_test_data` / `print_analysis`.
- The quality, reproducibility and applicability analyzers depend on spaCy and TextBlob models. Their results are parameters of `Validator.ValidatePractice`.
- The spaCy loads and the unused `self.nlp(...)` parses at utility.py:88 and reliability.py:103 are dropped.
- The async `analyze` wrapper and `analyze_sync` in base.py are left out: they only delegate or raise `NotImplementedError`.
- `Validator.ValidatePractice` uses the default thresholds. A validator never adjusts its own wheel, so the model does not let its wheel be changed.
- BaseAnalyzer.AddGroupPoints: counts the occurring words first and then adds `points` times the count, where the source adds `points` once per word. With exact reals the two agree.
- Floating point is not modelled. Scores are exact reals, so IEEE rounding of sums and of `round(x, k)` is absent. A float's `str()` is the literal it carries.
- `PyText.Lower` lower-cases ASCII letters only. The Unicode case mapping of `str.lower` is not modelled. Some non-ASCII characters lower-case to ASCII text in Python (U+212A KELVIN SIGN becomes "k", U+0130 becomes "i" followed by U+0307). So text that matches a keyword in the source only through such a character does not match it in the model.
- `PyText.HasDigit` accepts the ASCII digits only, while Python's `\d` also matches other Unicode decimal digits.
- `PyData.QuoteText` does not model the escaping that `repr` applies to backslashes and control characters inside strings.
- Dicts become sequences of pairs, so duplicate keys are not excluded by construction. JSON parsing already rules them out.
- Innovation.AnalyzeNovelty: it requires every tag to be a string (`TagsAreStrings`). With a non-string tag, the source raises `AttributeError`.
- Utility.AnalyzeProblemClarity: it requires a truthy domain to be a string (`DomainIsText`). Otherwise the source raises `AttributeError`.
- Reliability.GenerateExplanation: it requires the correction to be one of the five values `_calculate_correction_factors` can return (`IsCorrection`). That is where the model knows how `str()` prints the value. A caller passing any other float is not modelled.
- `reliability_score` is set to None at quality_wheel.py:78 and nothing ever assigns it. The model keeps it None (`Validator.ReliabilityScoreAlwaysNone`).
- The comments beside the reliability penalties at reliability.py:191-199 give −0.05 and −0.10. The model follows the code's −0.5, −0.5 and −1.0.
