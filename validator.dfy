/** `PracticeValidator` (validator_service/validator.py): runs the six
    criterion analyzers on a practice, aggregates their results with the
    default quality wheel and turns the evaluation into a verdict. */
module Validator {
  import opened Wrappers
  import opened PyData
  import opened BaseAnalyzer
  import opened Wheel
  import Utility
  import Innovation
  import Reliability

  /** The five verdicts `_make_decision` returns. */
  datatype Decision = NeedsImprovement | Incomplete | Approve | Review | Reject {
    /** The string the validator reports. */
    function Label(): string {
      match this
      case NeedsImprovement => "needs_improvement"
      case Incomplete => "incomplete"
      case Approve => "approve"
      case Review => "review"
      case Reject => "reject"
    }
  }

  /** The five reported strings are distinct, so the string names the verdict. */
  lemma LabelsDistinct(d1: Decision, d2: Decision)
    ensures d1.Label() == d2.Label() <==> d1 == d2
  {
  }

  /** `_make_decision`: missing required criteria come first, then a missing
      final score, then the 7.0 and 5.0 thresholds, both inclusive. */
  function MakeDecision(e: Evaluation): (d: Decision)
    ensures d == NeedsImprovement <==> e.missingRequired != []
    ensures d == Incomplete <==> e.missingRequired == [] && e.finalScore.None?
    ensures d == Approve <==> e.missingRequired == [] && e.finalScore.Some? && e.finalScore.value >= 7.0
    ensures d == Review <==> e.missingRequired == [] && e.finalScore.Some? && 5.0 <= e.finalScore.value < 7.0
    ensures d == Reject <==> e.missingRequired == [] && e.finalScore.Some? && e.finalScore.value < 5.0
  {
    if e.missingRequired != [] then NeedsImprovement
    else if e.finalScore.None? then Incomplete
    else if e.finalScore.value >= 7.0 then Approve
    else if e.finalScore.value >= 5.0 then Review
    else Reject
  }

  /** The order reject < review < approve of the scored verdicts. */
  function Rank(d: Decision): nat {
    match d
    case Approve => 2
    case Review => 1
    case _ => 0
  }

  /** With nothing missing, a higher final score never gives a lower verdict. */
  lemma DecisionMonotone(e1: Evaluation, e2: Evaluation)
    requires e1.missingRequired == [] && e2.missingRequired == []
    requires e1.finalScore.Some? && e2.finalScore.Some?
    requires e1.finalScore.value <= e2.finalScore.value
    ensures MakeDecision(e1) != Incomplete && MakeDecision(e2) != Incomplete
    ensures Rank(MakeDecision(e1)) <= Rank(MakeDecision(e2))
  {
  }

  /** The dict `validate_practice` returns. */
  datatype ValidationReport = ValidationReport(
    scores: seq<(string, AnalyzerResult)>,
    validScores: seq<(string, QualityMetric)>,
    invalidScores: seq<(string, QualityMetric)>,
    finalScore: Option<real>,
    reliabilityScore: Option<real>,
    recommendations: seq<string>,
    decision: Decision)

  /** The six criterion results keyed by criterion id, in the order the
      analyzers are registered: one result per criterion, no key twice. */
  function CriterionScores(quality: AnalyzerResult, reproducibility: AnalyzerResult, utility: AnalyzerResult,
                           applicability: AnalyzerResult, innovation: AnalyzerResult, reliability: AnalyzerResult)
    : (s: seq<(string, AnalyzerResult)>)
    ensures Keys(s) == ["Q", "R", "U", "A", "I", "Rel"]
    ensures DistinctIds(s)
    ensures s[0].1 == quality && s[1].1 == reproducibility && s[2].1 == utility
    ensures s[3].1 == applicability && s[4].1 == innovation && s[5].1 == reliability
  {
    [("Q", quality), ("R", reproducibility), ("U", utility),
     ("A", applicability), ("I", innovation), ("Rel", reliability)]
  }

  /** The `scores` comprehension of `validate_practice`. The quality,
      reproducibility and applicability results come from analyzers outside
      this model and are passed in. */
  function AnalyzerScores(practice: Record, quality: AnalyzerResult, reproducibility: AnalyzerResult,
                          applicability: AnalyzerResult): seq<(string, AnalyzerResult)>
    requires Utility.DomainIsText(practice) && Innovation.TagsAreStrings(practice)
  {
    CriterionScores(quality, reproducibility, Utility.UtilityResult(practice), applicability,
                    Innovation.InnovationResult(practice), Reliability.ReliabilityResult(practice))
  }

  /** Lines 31-44 of `validate_practice`, on a given `scores` dict, with the
      wheel `__init__` installs: the evaluation's fields are copied unchanged
      and the verdict is `_make_decision` of it; a `KeyError` from the wheel
      propagates. */
  function Report(scores: seq<(string, AnalyzerResult)>): (res: Result<ValidationReport, WheelError>)
    ensures var ev := Evaluate(DefaultThresholds(), scores);
      && (res.Ok? <==> ev.Ok?)
      && (res.Err? ==> res.error == ev.error)
      && (res.Ok? ==>
            && res.value.scores == scores
            && res.value.validScores == ev.value.validScores
            && res.value.invalidScores == ev.value.invalidScores
            && res.value.finalScore == ev.value.finalScore
            && res.value.reliabilityScore == ev.value.reliabilityScore
            && res.value.recommendations == ev.value.recommendations
            && res.value.decision == MakeDecision(ev.value))
  {
    match Evaluate(DefaultThresholds(), scores)
    case Err(e) => Err(e)
    case Ok(ev) =>
      Ok(ValidationReport(scores, ev.validScores, ev.invalidScores, ev.finalScore,
                          ev.reliabilityScore, ev.recommendations, MakeDecision(ev)))
  }

  /** `validate_practice`. */
  function ValidatePractice(practice: Record, quality: AnalyzerResult, reproducibility: AnalyzerResult,
                            applicability: AnalyzerResult): Result<ValidationReport, WheelError>
    requires Utility.DomainIsText(practice) && Innovation.TagsAreStrings(practice)
  {
    Report(AnalyzerScores(practice, quality, reproducibility, applicability))
  }

  // ----- what the report promises ------------------------------------------------

  /** The reliability score of a report is always `None`: the wheel never
      assigns it. */
  lemma ReliabilityScoreAlwaysNone(scores: seq<(string, AnalyzerResult)>)
    requires Report(scores).Ok?
    ensures Report(scores).value.reliabilityScore == None
  {
    EvaluateMeaning(DefaultThresholds(), scores);
  }

  /** When every sub-metric of each of the six criteria has a threshold the
      `KeyError` cannot occur. */
  lemma ReportSucceedsWhenConfigured(scores: seq<(string, AnalyzerResult)>)
    requires Keys(scores) == ["Q", "R", "U", "A", "I", "Rel"]
    requires CriterionConfigured(QualityThresholds(), scores[0].1.details)
    requires CriterionConfigured(ReproducibilityThresholds(), scores[1].1.details)
    requires CriterionConfigured(UtilityThresholds(), scores[2].1.details)
    requires CriterionConfigured(ApplicabilityThresholds(), scores[3].1.details)
    requires CriterionConfigured(InnovationThresholds(), scores[4].1.details)
    requires CriterionConfigured(ReliabilityThresholds(), scores[5].1.details)
    ensures Report(scores).Ok?
  {
    var t := DefaultThresholds();
    assert AllConfigured(t, scores) by {
      forall i | 0 <= i < |scores| && scores[i].0 in t
        ensures CriterionConfigured(t[scores[i].0], scores[i].1.details)
      {
        assert Keys(scores)[i] == scores[i].0;
      }
    }
    EvaluateSucceedsWhenConfigured(t, scores);
  }

  /** Every sub-metric the utility, innovation and reliability analyzers
      report has a threshold. */
  lemma ModelledCriteriaConfigured(practice: Record)
    requires Utility.DomainIsText(practice) && Innovation.TagsAreStrings(practice)
    ensures CriterionConfigured(UtilityThresholds(), Utility.UtilityResult(practice).details)
    ensures CriterionConfigured(InnovationThresholds(), Innovation.InnovationResult(practice).details)
    ensures CriterionConfigured(ReliabilityThresholds(), Reliability.ReliabilityResult(practice).details)
  {
    Utility.UtilityResultBounds(practice);
    Innovation.InnovationResultBounds(practice);
    Reliability.ReliabilityResultBounds(practice);
    UtilityCriterionValidity(Utility.UtilityResult(practice));
    InnovationCriterionValidity(Innovation.InnovationResult(practice));
    ReliabilityCriterionValidity(Reliability.ReliabilityResult(practice));
  }

  /** The sub-metric names of the three modelled analyzers all have
      thresholds, so only an unconfigured quality, reproducibility or
      applicability sub-metric can make `validate_practice` raise the
      `KeyError`. */
  lemma ValidateSucceedsWhenConfigured(practice: Record, quality: AnalyzerResult, reproducibility: AnalyzerResult,
                                       applicability: AnalyzerResult)
    requires Utility.DomainIsText(practice) && Innovation.TagsAreStrings(practice)
    requires CriterionConfigured(QualityThresholds(), quality.details)
    requires CriterionConfigured(ReproducibilityThresholds(), reproducibility.details)
    requires CriterionConfigured(ApplicabilityThresholds(), applicability.details)
    ensures ValidatePractice(practice, quality, reproducibility, applicability).Ok?
  {
    var scores := AnalyzerScores(practice, quality, reproducibility, applicability);
    ModelledCriteriaConfigured(practice);
    ReportSucceedsWhenConfigured(scores);
  }

  /** A report's verdict is `needs_improvement` exactly when some criterion is
      invalid, and it is never `incomplete`: the six criteria all have
      thresholds, so some criterion is valid or invalid. With no invalid
      criterion the final score is the mean of the valid criterion scores. */
  lemma DecisionMeaning(scores: seq<(string, AnalyzerResult)>)
    requires Keys(scores) == ["Q", "R", "U", "A", "I", "Rel"]
    requires Report(scores).Ok?
    ensures var r := Report(scores).value;
      && (r.decision == NeedsImprovement <==> r.invalidScores != [])
      && r.decision != Incomplete
      && (r.invalidScores == [] ==> r.validScores != [] && r.finalScore == Some(Mean(ScoresOf(r.validScores))))
  {
    var t := DefaultThresholds();
    EvaluateMeaning(t, scores);
    assert Keys(scores)[0] == scores[0].0;
    ExactlyOneBucket(t, scores, 0);
  }

  /** With no invalid criterion and every valid criterion scoring between
      7.0 and 10.0, the practice is approved. */
  lemma ApproveWhenAllStrong(scores: seq<(string, AnalyzerResult)>)
    requires Keys(scores) == ["Q", "R", "U", "A", "I", "Rel"]
    requires Report(scores).Ok? && Report(scores).value.invalidScores == []
    requires var v := Report(scores).value.validScores;
      forall k :: 0 <= k < |v| ==> 7.0 <= v[k].1.score <= 10.0
    ensures Report(scores).value.decision == Approve
  {
    DecisionMeaning(scores);
    MeanBounds(ScoresOf(Report(scores).value.validScores), 7.0, 10.0);
  }

  // ----- validity of the modelled criteria ---------------------------------------

  /** A utility result is valid exactly when both required sub-metrics,
      problem clarity and benefits, reach 6.0; efficiency is optional. */
  lemma UtilityCriterionValidity(r: AnalyzerResult)
    requires |r.details| == 3
    requires r.details[0].0 == "problem_clarity" && r.details[1].0 == "benefits" && r.details[2].0 == "efficiency"
    ensures CriterionConfigured(UtilityThresholds(), r.details)
    ensures CriterionMetric(UtilityThresholds(), r).isValid <==> r.details[0].1 >= 6.0 && r.details[1].1 >= 6.0
  {
    CriterionMetricMeaning(UtilityThresholds(), r);
  }

  lemma UtilityValidity(practice: Record)
    requires Utility.DomainIsText(practice)
    ensures CriterionMetric(UtilityThresholds(), Utility.UtilityResult(practice)).isValid <==>
      Utility.ProblemClarity(practice) >= 6.0 && Utility.Benefits(practice) >= 6.0
  {
    Utility.UtilityResultBounds(practice);
    UtilityCriterionValidity(Utility.UtilityResult(practice));
  }

  /** An innovation result is valid exactly when potential, its only
      required sub-metric, reaches 6.0. */
  lemma InnovationCriterionValidity(r: AnalyzerResult)
    requires |r.details| == 3
    requires r.details[0].0 == "novelty" && r.details[1].0 == "tech_complexity" && r.details[2].0 == "potential"
    ensures CriterionConfigured(InnovationThresholds(), r.details)
    ensures CriterionMetric(InnovationThresholds(), r).isValid <==> r.details[2].1 >= 6.0
  {
    CriterionMetricMeaning(InnovationThresholds(), r);
  }

  lemma InnovationValidity(practice: Record)
    requires Innovation.TagsAreStrings(practice)
    ensures CriterionMetric(InnovationThresholds(), Innovation.InnovationResult(practice)).isValid <==>
      Innovation.Potential(practice) >= 6.0
  {
    Innovation.InnovationResultBounds(practice);
    InnovationCriterionValidity(Innovation.InnovationResult(practice));
  }

  /** A reliability result is valid exactly when empirical validation and
      methodology both reach 6.0; the correction plays no part in validity. */
  lemma ReliabilityCriterionValidity(r: AnalyzerResult)
    requires |r.details| == 4
    requires r.details[0].0 == "empirical_validation" && r.details[1].0 == "methodology"
    requires r.details[2].0 == "adaptability" && r.details[3].0 == "external_validation"
    ensures CriterionConfigured(ReliabilityThresholds(), r.details)
    ensures CriterionMetric(ReliabilityThresholds(), r).isValid <==> r.details[0].1 >= 6.0 && r.details[1].1 >= 6.0
  {
    CriterionMetricMeaning(ReliabilityThresholds(), r);
  }

  lemma ReliabilityValidity(practice: Record)
    ensures CriterionMetric(ReliabilityThresholds(), Reliability.ReliabilityResult(practice)).isValid <==>
      Reliability.EmpiricalValidation(practice) >= 6.0 && Reliability.Methodology(practice) >= 6.0
  {
    Reliability.ReliabilityResultBounds(practice);
    ReliabilityCriterionValidity(Reliability.ReliabilityResult(practice));
  }
}
