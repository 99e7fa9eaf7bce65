/** The criteria aggregation engine (validator_service/quality_wheel.py): a
    registry of per-(criterion, sub-metric) thresholds, the evaluation of one
    criterion's sub-metrics against it, and the aggregation of all criteria into
    valid and invalid criteria, missing required criteria, a final score and
    recommendations. */
module Wheel {
  import opened Wrappers
  import opened PyData
  import opened BaseAnalyzer

  /** `CriterionThreshold`: the minimum a sub-metric must reach to be valid,
      its weight in the criterion score, and whether a failure makes the whole
      criterion invalid. */
  datatype CriterionThreshold = CriterionThreshold(minValue: real, weight: real, required: bool)

  /** The thresholds of one criterion, keyed by sub-metric name. */
  type CriterionTable = map<string, CriterionThreshold>

  /** `QualityWheel.thresholds`, keyed by criterion id. */
  type ThresholdTable = map<string, CriterionTable>

  /** `QualityMetric`: one criterion's evaluation. `details` holds the valid
      sub-metrics followed by the invalid ones, in input order. */
  datatype QualityMetric = QualityMetric(score: real, details: seq<(string, real)>, explanation: string, isValid: bool)

  /** The dict `evaluate_practice` returns; the two score dicts keep the
      criteria in input order. */
  datatype Evaluation = Evaluation(
    validScores: seq<(string, QualityMetric)>,
    invalidScores: seq<(string, QualityMetric)>,
    missingRequired: seq<string>,
    finalScore: Option<real>,
    reliabilityScore: Option<real>,
    recommendations: seq<string>)

  /** The `KeyError` raised at line 100 for a sub-metric with no threshold. */
  datatype WheelError = KeyError(criterion: string, metric: string)

  /** The thresholds `QualityWheel.__init__` installs for each criterion. */
  function QualityThresholds(): CriterionTable {
    map[
      "fullness" := CriterionThreshold(6.0, 0.4, true),
      "structure" := CriterionThreshold(6.0, 0.3, true),
      "examples" := CriterionThreshold(6.0, 0.15, false),
      "limitations" := CriterionThreshold(6.0, 0.15, false)]
  }

  function ReproducibilityThresholds(): CriterionTable {
    map[
      "steps_clarity" := CriterionThreshold(6.0, 0.4, true),
      "requirements" := CriterionThreshold(6.0, 0.3, true),
      "resources" := CriterionThreshold(6.0, 0.3, true)]
  }

  function UtilityThresholds(): CriterionTable {
    map[
      "problem_clarity" := CriterionThreshold(6.0, 0.35, true),
      "benefits" := CriterionThreshold(6.0, 0.35, true),
      "efficiency" := CriterionThreshold(6.0, 0.30, false)]
  }

  function ApplicabilityThresholds(): CriterionTable {
    map[
      "universality" := CriterionThreshold(6.0, 0.35, true),
      "scalability" := CriterionThreshold(6.0, 0.35, true),
      "constraints" := CriterionThreshold(6.0, 0.30, false)]
  }

  function InnovationThresholds(): CriterionTable {
    map[
      "novelty" := CriterionThreshold(6.0, 0.4, false),
      "tech_complexity" := CriterionThreshold(6.0, 0.3, false),
      "potential" := CriterionThreshold(6.0, 0.3, true)]
  }

  function ReliabilityThresholds(): CriterionTable {
    map[
      "empirical_validation" := CriterionThreshold(6.0, 0.35, true),
      "methodology" := CriterionThreshold(6.0, 0.25, true),
      "adaptability" := CriterionThreshold(6.0, 0.20, false),
      "external_validation" := CriterionThreshold(6.0, 0.20, false)]
  }

  /** The table `QualityWheel.__init__` installs: the six criteria Q, R, U,
      A, I and Rel, each with its own thresholds. */
  function DefaultThresholds(): (t: ThresholdTable)
    ensures t.Keys == {"Q", "R", "U", "A", "I", "Rel"}
    ensures t["Q"] == QualityThresholds() && t["R"] == ReproducibilityThresholds()
    ensures t["U"] == UtilityThresholds() && t["A"] == ApplicabilityThresholds()
    ensures t["I"] == InnovationThresholds() && t["Rel"] == ReliabilityThresholds()
  {
    map["Q" := QualityThresholds(), "R" := ReproducibilityThresholds(), "U" := UtilityThresholds(),
        "A" := ApplicabilityThresholds(), "I" := InnovationThresholds(), "Rel" := ReliabilityThresholds()]
  }

  /** The entry `adjust_threshold` leaves behind: each field passed as
      non-None replaces the old one. */
  function AdjustedEntry(e: CriterionThreshold, minValue: Option<real>, weight: Option<real>, required: Option<bool>): CriterionThreshold {
    CriterionThreshold(minValue.GetOr(e.minValue), weight.GetOr(e.weight), required.GetOr(e.required))
  }

  /** The table after `adjust_threshold(criterion, metric, ...)`: only the one
      entry changes, only in the fields given, and an unknown criterion or
      metric changes nothing. */
  function AdjustedTable(t: ThresholdTable, criterion: string, metric: string,
                         minValue: Option<real>, weight: Option<real>, required: Option<bool>): (r: ThresholdTable)
    ensures r.Keys == t.Keys
    ensures forall c :: c in t ==> r[c].Keys == t[c].Keys
    ensures forall c, m :: c in t && m in t[c] && (c != criterion || m != metric) ==> r[c][m] == t[c][m]
    ensures criterion in t && metric in t[criterion] ==>
      && r[criterion][metric].minValue == (if minValue.Some? then minValue.value else t[criterion][metric].minValue)
      && r[criterion][metric].weight == (if weight.Some? then weight.value else t[criterion][metric].weight)
      && r[criterion][metric].required == (if required.Some? then required.value else t[criterion][metric].required)
    ensures !(criterion in t && metric in t[criterion]) ==> r == t
  {
    if criterion in t && metric in t[criterion] then
      t[criterion := t[criterion][metric := AdjustedEntry(t[criterion][metric], minValue, weight, required)]]
    else t
  }

  // ----- one criterion -----------------------------------------------------

  /** A configured sub-metric is valid when it reaches its minimum or is not
      required. */
  predicate Passes(ct: CriterionTable, metric: string, value: real)
    requires metric in ct
  {
    value >= ct[metric].minValue || !ct[metric].required
  }

  /** The configured sub-metrics that pass, in input order. */
  function ValidMetrics(ct: CriterionTable, details: seq<(string, real)>): (r: seq<(string, real)>)
    ensures forall k :: 0 <= k < |r| ==> r[k].0 in ct && Passes(ct, r[k].0, r[k].1)
  {
    if details == [] then []
    else
      var last := details[|details| - 1];
      ValidMetrics(ct, details[..|details| - 1]) + (if last.0 in ct && Passes(ct, last.0, last.1) then [last] else [])
  }

  /** The configured sub-metrics that fail, in input order: each is required
      and below its minimum. */
  function InvalidMetrics(ct: CriterionTable, details: seq<(string, real)>): (r: seq<(string, real)>)
    ensures forall k :: 0 <= k < |r| ==> r[k].0 in ct && ct[r[k].0].required && r[k].1 < ct[r[k].0].minValue
  {
    if details == [] then []
    else
      var last := details[|details| - 1];
      InvalidMetrics(ct, details[..|details| - 1]) + (if last.0 in ct && !Passes(ct, last.0, last.1) then [last] else [])
  }

  /** `sum(score * weight for metric, score in metrics)`. */
  function WeightedSum(ct: CriterionTable, metrics: seq<(string, real)>): real
    requires forall k :: 0 <= k < |metrics| ==> metrics[k].0 in ct
  {
    if metrics == [] then 0.0
    else
      var last := metrics[|metrics| - 1];
      WeightedSum(ct, metrics[..|metrics| - 1]) + last.1 * ct[last.0].weight
  }

  /** `any(thresholds[m].required for m in metrics)`. */
  predicate AnyRequired(ct: CriterionTable, metrics: seq<(string, real)>)
    requires forall k :: 0 <= k < |metrics| ==> metrics[k].0 in ct
  {
    exists k :: 0 <= k < |metrics| && ct[metrics[k].0].required
  }

  /** `_evaluate_criterion`, given the criterion's thresholds. */
  function CriterionMetric(ct: CriterionTable, metrics: AnalyzerResult): QualityMetric {
    var valid := ValidMetrics(ct, metrics.details);
    var invalid := InvalidMetrics(ct, metrics.details);
    QualityMetric(
      if valid != [] then WeightedSum(ct, valid) else 0.0,
      valid + invalid,
      metrics.explanation.GetOr(""),
      if invalid != [] then !AnyRequired(ct, invalid) else true)
  }

  // ----- aggregation ---------------------------------------------------------

  /** The generator at line 100, which stops at the first sub-metric that is
      required and raises `KeyError` on a sub-metric with no threshold that it
      reaches first. */
  function RequiredScan(ct: CriterionTable, details: seq<(string, real)>): Result<bool, string> {
    if details == [] then Ok(false)
    else if details[0].0 !in ct then Err(details[0].0)
    else if ct[details[0].0].required then Ok(true)
    else RequiredScan(ct, details[1..])
  }

  /** `f"Criterion {criterion} needs improvement: {explanation}"`. */
  function Recommendation(criterion: string, q: QualityMetric): string {
    "Criterion " + criterion + " needs improvement: " + q.explanation
  }

  /** What `evaluate_practice` has built after some criteria. */
  datatype Progress = Progress(
    valid: seq<(string, QualityMetric)>,
    invalid: seq<(string, QualityMetric)>,
    missing: seq<string>,
    recommendations: seq<string>)

  /** One iteration of the loop at lines 82-107. */
  function Step(t: ThresholdTable, p: Progress, criterion: string, metrics: AnalyzerResult): Result<Progress, WheelError> {
    if criterion !in t then Ok(p)
    else
      var q := CriterionMetric(t[criterion], metrics);
      var recs := if q.score < 6.0 then p.recommendations + [Recommendation(criterion, q)] else p.recommendations;
      if q.isValid then Ok(p.(valid := p.valid + [(criterion, q)], recommendations := recs))
      else
        match RequiredScan(t[criterion], metrics.details)
        case Err(m) => Err(KeyError(criterion, m))
        case Ok(anyRequired) =>
          Ok(p.(invalid := p.invalid + [(criterion, q)],
                missing := if anyRequired then p.missing + [criterion] else p.missing,
                recommendations := recs))
  }

  /** The loop at lines 82-107 over the first criteria. */
  function Fold(t: ThresholdTable, scores: seq<(string, AnalyzerResult)>): Result<Progress, WheelError> {
    if scores == [] then Ok(Progress([], [], [], []))
    else
      match Fold(t, scores[..|scores| - 1])
      case Err(e) => Err(e)
      case Ok(p) => Step(t, p, scores[|scores| - 1].0, scores[|scores| - 1].1)
  }

  function Sum(xs: seq<real>): real {
    if xs == [] then 0.0 else Sum(xs[..|xs| - 1]) + xs[|xs| - 1]
  }

  /** `sum(xs) / len(xs)`. */
  function Mean(xs: seq<real>): real
    requires xs != []
  {
    Sum(xs) / |xs| as real
  }

  function ScoresOf(criteria: seq<(string, QualityMetric)>): (r: seq<real>)
    ensures |r| == |criteria|
    ensures forall k :: 0 <= k < |r| ==> r[k] == criteria[k].1.score
  {
    seq(|criteria|, k requires 0 <= k < |criteria| => criteria[k].1.score)
  }

  /** Lines 109-115: the final score exists only when nothing required is
      missing and some criterion is valid; `reliability_score` is never set. */
  function Finish(p: Progress): Evaluation {
    Evaluation(
      p.valid, p.invalid, p.missing,
      if p.missing == [] && p.valid != [] then Some(Mean(ScoresOf(p.valid))) else None,
      None,
      p.recommendations)
  }

  /** `evaluate_practice` over a table. */
  function Evaluate(t: ThresholdTable, scores: seq<(string, AnalyzerResult)>): Result<Evaluation, WheelError> {
    match Fold(t, scores)
    case Err(e) => Err(e)
    case Ok(p) => Ok(Finish(p))
  }

  /** Once an error is raised, the rest of the loop does not run. */
  lemma {:induction false} FoldErrorPersists(t: ThresholdTable, scores: seq<(string, AnalyzerResult)>, k: nat)
    requires k <= |scores| && Fold(t, scores[..k]).Err?
    ensures Fold(t, scores) == Fold(t, scores[..k])
  {
    if k < |scores| {
      var init := scores[..|scores| - 1];
      assert init[..k] == scores[..k];
      FoldErrorPersists(t, init, k);
    } else {
      assert scores[..k] == scores;
    }
  }

  // ----- properties of one criterion's evaluation ---------------------------

  /** A sub-metric with no threshold is dropped; a configured one is valid when
      it passes and invalid otherwise. */
  lemma {:induction false} MetricRouting(ct: CriterionTable, details: seq<(string, real)>)
    ensures forall p :: p in ValidMetrics(ct, details) <==> p in details && p.0 in ct && Passes(ct, p.0, p.1)
    ensures forall p :: p in InvalidMetrics(ct, details) <==> p in details && p.0 in ct && !Passes(ct, p.0, p.1)
  {
    if details != [] {
      var init := details[..|details| - 1];
      MetricRouting(ct, init);
      assert details == init + [details[|details| - 1]];
    }
  }

  /** `Σ value * weight` over the configured sub-metrics that pass. */
  function ValidTotal(ct: CriterionTable, details: seq<(string, real)>): real {
    if details == [] then 0.0
    else
      var last := details[|details| - 1];
      ValidTotal(ct, details[..|details| - 1]) +
      (if last.0 in ct && Passes(ct, last.0, last.1) then last.1 * ct[last.0].weight else 0.0)
  }

  lemma WeightedSumAppend(ct: CriterionTable, v: seq<(string, real)>, x: (string, real))
    requires forall k :: 0 <= k < |v| ==> v[k].0 in ct
    requires x.0 in ct
    ensures WeightedSum(ct, v + [x]) == WeightedSum(ct, v) + x.1 * ct[x.0].weight
  {
    assert (v + [x])[..|v|] == v;
  }

  lemma {:induction false} WeightedSumOfValid(ct: CriterionTable, details: seq<(string, real)>)
    ensures WeightedSum(ct, ValidMetrics(ct, details)) == ValidTotal(ct, details)
  {
    if details != [] {
      var init := details[..|details| - 1];
      var last := details[|details| - 1];
      WeightedSumOfValid(ct, init);
      var v0 := ValidMetrics(ct, init);
      if last.0 in ct && Passes(ct, last.0, last.1) {
        assert ValidMetrics(ct, details) == v0 + [last];
        WeightedSumAppend(ct, v0, last);
      } else {
        assert ValidMetrics(ct, details) == v0 + [];
        assert v0 + [] == v0;
      }
    }
  }

  /** What `_evaluate_criterion` promises: the returned details are exactly
      the configured sub-metrics, the criterion is valid iff no required
      sub-metric is below its minimum, and the score is the weighted sum of the
      valid sub-metrics (0.0 when there are none, so empty details give 0.0 and
      a valid criterion). */
  lemma CriterionMetricMeaning(ct: CriterionTable, metrics: AnalyzerResult)
    ensures var q := CriterionMetric(ct, metrics);
      && (forall p :: p in q.details <==> p in metrics.details && p.0 in ct)
      && (q.isValid <==>
            forall k :: 0 <= k < |metrics.details| && metrics.details[k].0 in ct && ct[metrics.details[k].0].required ==>
              metrics.details[k].1 >= ct[metrics.details[k].0].minValue)
      && q.score == ValidTotal(ct, metrics.details)
      && q.explanation == metrics.explanation.GetOr("")
  {
    var d := metrics.details;
    var q := CriterionMetric(ct, metrics);
    var invalid := InvalidMetrics(ct, d);
    MetricRouting(ct, d);
    WeightedSumOfValid(ct, d);
    if invalid != [] {
      assert ct[invalid[0].0].required;
      assert invalid[0] in invalid;
      assert !q.isValid;
    }
    if !q.isValid {
      var k :| 0 <= k < |invalid| && ct[invalid[k].0].required;
      assert invalid[k] in invalid;
    } else {
      forall k | 0 <= k < |d| && d[k].0 in ct && ct[d[k].0].required
        ensures d[k].1 >= ct[d[k].0].minValue
      {
        assert d[k] in d;
      }
    }
  }

  // ----- properties of the aggregation ---------------------------------------

  /** Criterion `c` has a table entry and its validity on `m` is `valid`. */
  predicate RoutedTo(t: ThresholdTable, c: string, m: AnalyzerResult, valid: bool) {
    c in t && CriterionMetric(t[c], m).isValid == valid
  }

  /** The criteria of `scores` that have a table entry and whose validity is
      `valid`, each with its evaluation, in input order. */
  function Routed(t: ThresholdTable, scores: seq<(string, AnalyzerResult)>, valid: bool): seq<(string, QualityMetric)> {
    if scores == [] then []
    else
      var c, m := scores[|scores| - 1].0, scores[|scores| - 1].1;
      Routed(t, scores[..|scores| - 1], valid) + (if RoutedTo(t, c, m, valid) then [(c, CriterionMetric(t[c], m))] else [])
  }

  /** One recommendation per known criterion whose weighted score is below
      6.0, valid or not, in input order. */
  function ExpectedRecommendations(t: ThresholdTable, scores: seq<(string, AnalyzerResult)>): seq<string> {
    if scores == [] then []
    else
      var c := scores[|scores| - 1].0;
      ExpectedRecommendations(t, scores[..|scores| - 1]) +
      (if c in t && CriterionMetric(t[c], scores[|scores| - 1].1).score < 6.0
       then [Recommendation(c, CriterionMetric(t[c], scores[|scores| - 1].1))] else [])
  }

  /** The scan at line 100 stops at the first required sub-metric it meets. */
  lemma {:induction false} ScanFindsRequired(ct: CriterionTable, details: seq<(string, real)>, k: nat)
    requires k < |details| && details[k].0 in ct && ct[details[k].0].required
    requires RequiredScan(ct, details).Ok?
    ensures RequiredScan(ct, details) == Ok(true)
  {
    if details[0].0 in ct && !ct[details[0].0].required {
      ScanFindsRequired(ct, details[1..], k - 1);
    }
  }

  /** The scan raises only for a sub-metric that has no threshold. */
  lemma {:induction false} ScanErrorCause(ct: CriterionTable, details: seq<(string, real)>)
    requires RequiredScan(ct, details).Err?
    ensures exists k :: 0 <= k < |details| && details[k].0 == RequiredScan(ct, details).error && details[k].0 !in ct
  {
    if details[0].0 in ct {
      ScanErrorCause(ct, details[1..]);
      var k :| 0 <= k < |details[1..]| && details[1..][k].0 == RequiredScan(ct, details).error && details[1..][k].0 !in ct;
      assert details[k + 1] == details[1..][k];
    }
  }

  /** When every sub-metric has a threshold, the scan cannot raise. */
  lemma {:induction false} ScanSucceedsWhenConfigured(ct: CriterionTable, details: seq<(string, real)>)
    requires forall k :: 0 <= k < |details| ==> details[k].0 in ct
    ensures RequiredScan(ct, details).Ok?
  {
    if details != [] && !ct[details[0].0].required {
      ScanSucceedsWhenConfigured(ct, details[1..]);
    }
  }

  /** For an invalid criterion whose scan does not raise, the scan answers
      true: some invalid sub-metric is required. */
  lemma InvalidCriterionIsMissing(ct: CriterionTable, metrics: AnalyzerResult)
    requires !CriterionMetric(ct, metrics).isValid
    requires RequiredScan(ct, metrics.details).Ok?
    ensures RequiredScan(ct, metrics.details) == Ok(true)
  {
    var d := metrics.details;
    CriterionMetricMeaning(ct, metrics);
    var k :| 0 <= k < |d| && d[k].0 in ct && ct[d[k].0].required && d[k].1 < ct[d[k].0].minValue;
    ScanFindsRequired(ct, d, k);
  }

  /** A successful loop has built exactly the filtered lists, and every invalid
      criterion has been added to `missing_required`. */
  lemma {:induction false} FoldAgreesWithFilters(t: ThresholdTable, scores: seq<(string, AnalyzerResult)>)
    requires Fold(t, scores).Ok?
    ensures Fold(t, scores).value.valid == Routed(t, scores, true)
    ensures Fold(t, scores).value.invalid == Routed(t, scores, false)
    ensures Fold(t, scores).value.missing == Keys(Routed(t, scores, false))
    ensures Fold(t, scores).value.recommendations == ExpectedRecommendations(t, scores)
  {
    if scores != [] {
      var init := scores[..|scores| - 1];
      var (c, m) := scores[|scores| - 1];
      FoldAgreesWithFilters(t, init);
      if c in t && !CriterionMetric(t[c], m).isValid {
        InvalidCriterionIsMissing(t[c], m);
        assert Keys(Routed(t, scores, false)) == Keys(Routed(t, init, false)) + [c];
      }
    }
  }

  /** Routing the last entry adds at most its own id. */
  lemma RoutedLast(t: ThresholdTable, scores: seq<(string, AnalyzerResult)>, valid: bool, c: string)
    requires scores != []
    ensures var n := |scores| - 1;
      c in Keys(Routed(t, scores, valid)) <==>
        c in Keys(Routed(t, scores[..n], valid)) || (scores[n].0 == c && RoutedTo(t, c, scores[n].1, valid))
  {
    var n := |scores| - 1;
    var c0, m0 := scores[n].0, scores[n].1;
    var before := Routed(t, scores[..n], valid);
    if RoutedTo(t, c0, m0, valid) {
      var q := CriterionMetric(t[c0], m0);
      assert Routed(t, scores, valid) == before + [(c0, q)];
      KeysConcat(before, [(c0, q)]);
      assert Keys([(c0, q)]) == [c0];
    } else {
      assert Routed(t, scores, valid) == before + [];
      assert before + [] == before;
    }
  }

  /** A criterion id occurs among the routed criteria exactly when some
      entry of `scores` with that id is routed there. */
  lemma {:induction false} RoutedIds(t: ThresholdTable, scores: seq<(string, AnalyzerResult)>, valid: bool, c: string)
    ensures c in Keys(Routed(t, scores, valid)) <==>
      exists i :: 0 <= i < |scores| && scores[i].0 == c && RoutedTo(t, c, scores[i].1, valid)
  {
    if scores != [] {
      var n := |scores| - 1;
      var init := scores[..n];
      RoutedIds(t, init, valid, c);
      RoutedLast(t, scores, valid, c);
      if c in Keys(Routed(t, init, valid)) {
        var i :| 0 <= i < |init| && init[i].0 == c && RoutedTo(t, c, init[i].1, valid);
        assert scores[i] == init[i];
      }
      if exists i :: 0 <= i < |scores| && scores[i].0 == c && RoutedTo(t, c, scores[i].1, valid) {
        var i :| 0 <= i < |scores| && scores[i].0 == c && RoutedTo(t, c, scores[i].1, valid);
        if i < n {
          assert init[i] == scores[i];
        }
      }
    }
  }

  /** What `evaluate_practice` promises when it returns: criteria without a
      table entry are ignored, every other criterion is routed to
      `valid_scores` or `invalid_scores` by its validity, `missing_required`
      lists the invalid ones in input order, the final score is the mean of the
      valid scores exactly when no criterion is invalid and one is valid,
      `reliability_score` is None, and one recommendation is made per known
      criterion scoring below 6.0. */
  lemma EvaluateMeaning(t: ThresholdTable, scores: seq<(string, AnalyzerResult)>)
    requires Evaluate(t, scores).Ok?
    ensures var e := Evaluate(t, scores).value;
      && e.validScores == Routed(t, scores, true)
      && e.invalidScores == Routed(t, scores, false)
      && e.missingRequired == Keys(e.invalidScores)
      && (e.finalScore.Some? <==> e.invalidScores == [] && e.validScores != [])
      && (e.finalScore.Some? ==> e.finalScore.value == Mean(ScoresOf(e.validScores)))
      && e.reliabilityScore == None
      && e.recommendations == ExpectedRecommendations(t, scores)
  {
    FoldAgreesWithFilters(t, scores);
  }

  /** Input dict keys are distinct. */
  predicate DistinctIds(scores: seq<(string, AnalyzerResult)>) {
    forall i, j :: 0 <= i < j < |scores| ==> scores[i].0 != scores[j].0
  }

  /** Each known criterion of a dict lands in exactly one of the two score
      dicts, the one its validity names; an unknown one in neither. */
  lemma ExactlyOneBucket(t: ThresholdTable, scores: seq<(string, AnalyzerResult)>, i: nat)
    requires DistinctIds(scores) && i < |scores|
    requires Evaluate(t, scores).Ok?
    ensures var e := Evaluate(t, scores).value; var c := scores[i].0;
      && (c !in t ==> c !in Keys(e.validScores) && c !in Keys(e.invalidScores))
      && (c in t ==>
            && (c in Keys(e.validScores) <==> CriterionMetric(t[c], scores[i].1).isValid)
            && (c in Keys(e.invalidScores) <==> !CriterionMetric(t[c], scores[i].1).isValid))
  {
    FoldAgreesWithFilters(t, scores);
    var c := scores[i].0;
    RoutedIds(t, scores, true, c);
    RoutedIds(t, scores, false, c);
  }

  predicate CriterionConfigured(ct: CriterionTable, details: seq<(string, real)>) {
    forall k :: 0 <= k < |details| ==> details[k].0 in ct
  }

  /** Every sub-metric of every known criterion has a threshold. */
  predicate AllConfigured(t: ThresholdTable, scores: seq<(string, AnalyzerResult)>) {
    forall i :: 0 <= i < |scores| && scores[i].0 in t ==> CriterionConfigured(t[scores[i].0], scores[i].1.details)
  }

  /** Without unconfigured sub-metrics the `KeyError` cannot occur. */
  lemma {:induction false} EvaluateSucceedsWhenConfigured(t: ThresholdTable, scores: seq<(string, AnalyzerResult)>)
    requires AllConfigured(t, scores)
    ensures Evaluate(t, scores).Ok?
  {
    if scores != [] {
      var init := scores[..|scores| - 1];
      var (c, m) := scores[|scores| - 1];
      assert AllConfigured(t, init) by {
        forall i | 0 <= i < |init| && init[i].0 in t
          ensures CriterionConfigured(t[init[i].0], init[i].1.details)
        {
          assert init[i] == scores[i];
        }
      }
      EvaluateSucceedsWhenConfigured(t, init);
      if c in t {
        ScanSucceedsWhenConfigured(t[c], m.details);
      }
    }
  }

  /** The `KeyError` names a known, invalid criterion and one of its
      sub-metrics that has no threshold. */
  lemma {:induction false} EvaluateErrorCause(t: ThresholdTable, scores: seq<(string, AnalyzerResult)>)
    requires Evaluate(t, scores).Err?
    ensures var e := Evaluate(t, scores).error;
      exists i :: 0 <= i < |scores| && scores[i].0 == e.criterion && e.criterion in t &&
        !CriterionMetric(t[e.criterion], scores[i].1).isValid &&
        e.metric !in t[e.criterion] &&
        exists k :: 0 <= k < |scores[i].1.details| && scores[i].1.details[k].0 == e.metric
  {
    var init := scores[..|scores| - 1];
    var (c, m) := scores[|scores| - 1];
    if Fold(t, init).Err? {
      EvaluateErrorCause(t, init);
      var e := Evaluate(t, scores).error;
      var i :| 0 <= i < |init| && init[i].0 == e.criterion && e.criterion in t &&
        !CriterionMetric(t[e.criterion], init[i].1).isValid &&
        e.metric !in t[e.criterion] &&
        exists k :: 0 <= k < |init[i].1.details| && init[i].1.details[k].0 == e.metric;
      assert scores[i] == init[i];
    } else {
      ScanErrorCause(t[c], m.details);
      assert scores[|scores| - 1] == (c, m);
    }
  }

  /** When every required configured sub-metric of every known criterion
      reaches its minimum, nothing is invalid or missing, and a final score is
      produced as soon as one criterion is known. */
  lemma {:induction false} AllPassingIsComplete(t: ThresholdTable, scores: seq<(string, AnalyzerResult)>)
    requires forall i, k :: (0 <= i < |scores| && scores[i].0 in t && 0 <= k < |scores[i].1.details| &&
      scores[i].1.details[k].0 in t[scores[i].0] && t[scores[i].0][scores[i].1.details[k].0].required) ==>
      scores[i].1.details[k].1 >= t[scores[i].0][scores[i].1.details[k].0].minValue
    ensures Evaluate(t, scores).Ok?
    ensures Evaluate(t, scores).value.invalidScores == []
    ensures Evaluate(t, scores).value.missingRequired == []
    ensures Evaluate(t, scores).value.finalScore.Some? <==> exists i :: 0 <= i < |scores| && scores[i].0 in t
  {
    if scores != [] {
      var n := |scores| - 1;
      var init := scores[..n];
      var (c, m) := scores[n];
      forall i, k | 0 <= i < |init| && init[i].0 in t && 0 <= k < |init[i].1.details| &&
        init[i].1.details[k].0 in t[init[i].0] && t[init[i].0][init[i].1.details[k].0].required
        ensures init[i].1.details[k].1 >= t[init[i].0][init[i].1.details[k].0].minValue
      {
        assert init[i] == scores[i];
      }
      AllPassingIsComplete(t, init);
      if c in t {
        CriterionMetricMeaning(t[c], m);
      }
      FoldAgreesWithFilters(t, scores);
      if exists i :: 0 <= i < |init| && init[i].0 in t {
        var i :| 0 <= i < |init| && init[i].0 in t;
        assert scores[i] == init[i];
      }
      if exists i :: 0 <= i < |scores| && scores[i].0 in t {
        var i :| 0 <= i < |scores| && scores[i].0 in t;
        if i < n {
          assert init[i] == scores[i];
        }
      }
    }
  }

  /** A known criterion with a required sub-metric below its minimum is
      invalid, and is reported in `missing_required`. */
  lemma FailingRequiredMetricIsMissing(t: ThresholdTable, scores: seq<(string, AnalyzerResult)>, i: nat, k: nat)
    requires i < |scores| && scores[i].0 in t && k < |scores[i].1.details|
    requires scores[i].1.details[k].0 in t[scores[i].0]
    requires t[scores[i].0][scores[i].1.details[k].0].required
    requires scores[i].1.details[k].1 < t[scores[i].0][scores[i].1.details[k].0].minValue
    requires Evaluate(t, scores).Ok?
    ensures scores[i].0 in Keys(Evaluate(t, scores).value.invalidScores)
    ensures scores[i].0 in Evaluate(t, scores).value.missingRequired
  {
    CriterionMetricMeaning(t[scores[i].0], scores[i].1);
    FoldAgreesWithFilters(t, scores);
    RoutedIds(t, scores, false, scores[i].0);
  }

  /** A sum of scores that all lie in [lo, hi] lies between count·lo and count·hi. */
  lemma {:induction false} SumBounds(xs: seq<real>, lo: real, hi: real)
    requires forall k :: 0 <= k < |xs| ==> lo <= xs[k] <= hi
    ensures lo * |xs| as real <= Sum(xs) <= hi * |xs| as real
  {
    if xs != [] {
      var n := |xs| - 1;
      SumBounds(xs[..n], lo, hi);
      assert lo * |xs| as real == lo * n as real + lo;
      assert hi * |xs| as real == hi * n as real + hi;
    }
  }

  /** The mean of scores that all lie in [lo, hi] lies in [lo, hi]. */
  lemma MeanBounds(xs: seq<real>, lo: real, hi: real)
    requires xs != []
    requires forall k :: 0 <= k < |xs| ==> lo <= xs[k] <= hi
    ensures lo <= Mean(xs) <= hi
  {
    SumBounds(xs, lo, hi);
    var n := |xs| as real;
    assert Mean(xs) * n == Sum(xs);
  }

  class QualityWheel {
    var thresholds: ThresholdTable

    /** `QualityWheel.__init__`. */
    constructor ()
      ensures thresholds == DefaultThresholds()
    {
      thresholds := DefaultThresholds();
    }

    /** `adjust_threshold`: updates the fields passed as non-None of one entry. */
    method AdjustThreshold(criterion: string, metric: string,
                           minValue: Option<real>, weight: Option<real>, required: Option<bool>)
      modifies this
      ensures thresholds == AdjustedTable(old(thresholds), criterion, metric, minValue, weight, required)
    {
      if criterion in thresholds && metric in thresholds[criterion] {
        var threshold := thresholds[criterion][metric];
        if minValue.Some? {
          threshold := threshold.(minValue := minValue.value);
        }
        if weight.Some? {
          threshold := threshold.(weight := weight.value);
        }
        if required.Some? {
          threshold := threshold.(required := required.value);
        }
        thresholds := thresholds[criterion := thresholds[criterion][metric := threshold]];
      }
    }

    /** `_evaluate_criterion`: sorts the sub-metrics into valid and invalid,
        then derives the validity flag and the weighted score. */
    method EvaluateCriterion(criterion: string, metrics: AnalyzerResult) returns (q: QualityMetric)
      requires criterion in thresholds
      ensures q == CriterionMetric(thresholds[criterion], metrics)
    {
      var ct := thresholds[criterion];
      var details := metrics.details;
      var valid: seq<(string, real)> := [];
      var invalid: seq<(string, real)> := [];
      for i := 0 to |details|
        invariant valid == ValidMetrics(ct, details[..i])
        invariant invalid == InvalidMetrics(ct, details[..i])
      {
        assert details[..i + 1][..i] == details[..i];
        var (metric, score) := details[i];
        if metric in ct {
          var threshold := ct[metric];
          if score >= threshold.minValue || !threshold.required {
            valid := valid + [(metric, score)];
          } else {
            invalid := invalid + [(metric, score)];
          }
        }
      }
      assert details[..|details|] == details;
      var isValid := true;
      if invalid != [] {
        isValid := !AnyRequired(ct, invalid);
      }
      var weightedScore := if valid != [] then WeightedSum(ct, valid) else 0.0;
      q := QualityMetric(weightedScore, valid + invalid, metrics.explanation.GetOr(""), isValid);
    }

    /** `evaluate_practice`. */
    method EvaluatePractice(scores: seq<(string, AnalyzerResult)>) returns (r: Result<Evaluation, WheelError>)
      ensures r == Evaluate(thresholds, scores)
    {
      var valid: seq<(string, QualityMetric)> := [];
      var invalid: seq<(string, QualityMetric)> := [];
      var missing: seq<string> := [];
      var recommendations: seq<string> := [];
      for i := 0 to |scores|
        invariant Fold(thresholds, scores[..i]) == Ok(Progress(valid, invalid, missing, recommendations))
      {
        assert scores[..i + 1][..i] == scores[..i];
        var (criterion, metrics) := scores[i];
        if criterion in thresholds {
          var q := EvaluateCriterion(criterion, metrics);
          if q.isValid {
            valid := valid + [(criterion, q)];
          } else {
            invalid := invalid + [(criterion, q)];
            var scan := RequiredScan(thresholds[criterion], metrics.details);
            if scan.Err? {
              FoldErrorPersists(thresholds, scores, i + 1);
              return Err(KeyError(criterion, scan.error));
            }
            if scan.value {
              missing := missing + [criterion];
            }
          }
          if q.score < 6.0 {
            recommendations := recommendations + [Recommendation(criterion, q)];
          }
        }
      }
      assert scores[..|scores|] == scores;
      var finalScore: Option<real> := None;
      if missing == [] {
        var validScores := ScoresOf(valid);
        if validScores != [] {
          finalScore := Some(Sum(validScores) / |validScores| as real);
        }
      }
      r := Ok(Evaluation(valid, invalid, missing, finalScore, None, recommendations));
    }
  }
}
