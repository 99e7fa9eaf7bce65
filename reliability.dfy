/** The reliability analyzer (criterion "Rel"): empirical validation,
    methodology, adaptability and external validation, scored from keywords
    and the structure of the practice, plus a correction of up to -2.0 for
    novelty, limited data and contradictory results. */
module Reliability {
  import opened Wrappers
  import opened PyText
  import opened PyData
  import opened BaseAnalyzer

  const ResearchStrong: seq<string> := ["study", "research", "experiment", "evidence", "proven",
                                        "standard", "framework", "methodology", "practice", "established"]
  const ResearchMedium: seq<string> := ["tested", "validated", "measured", "observed",
                                        "implemented", "applied", "used", "adopted"]
  const ResearchMetrics: seq<string> := ["accuracy", "precision", "efficiency", "performance",
                                         "improvement", "effectiveness", "quality", "success"]

  const LogicalMarkers: seq<string> := ["therefore", "because", "consequently", "thus", "hence"]

  const AdaptHigh: seq<string> := ["adapt", "flexible", "customize", "configure", "scalable", "modular", "extensible"]
  const AdaptMedium: seq<string> := ["adjust", "modify", "tune", "parameter", "update", "maintain", "improve"]
  const AdaptContext: seq<string> := ["environment", "condition", "scenario", "case",
                                      "organization", "domain", "context", "situation"]

  /** The values of the external-validation indicator dict, in order: strong,
      medium, usage. */
  const ValidationGroups: seq<seq<string>> := [
    ["certified", "approved", "standardized", "recognized",
     "established", "proven", "industry-standard", "professional"],
    ["recommended", "endorsed", "supported", "accepted",
     "trusted", "reliable", "effective", "successful"],
    ["widely used", "adopted", "implemented", "common practice",
     "best practice", "standard practice", "established method"]]

  const NoveltyWords: seq<string> := ["new", "novel", "recent"]
  const ContradictionWords: seq<string> := ["contradictory", "inconsistent", "varies"]

  /** `data.get(key)` is a list. */
  predicate IsList(data: Record, key: string) {
    Get(data, key, Null).List?
  }

  /** The length of the list under `key`, or 0. */
  function ListLength(data: Record, key: string): nat {
    if IsList(data, key) then |Get(data, key, Null).items| else 0
  }

  // ----- empirical validation ----------------------------------------------------

  function EmpiricalText(data: Record): string {
    Lower(FieldText(data, "solution") + " " + FieldText(data, "benefits") + " " + FieldText(data, "summary"))
  }

  /** +3.0 per strong, +2.0 per medium, +1.5 per metric keyword, and +2.0 for a
      list of at least four steps. */
  function RawEmpirical(data: Record): real {
    var text := EmpiricalText(data);
    3.0 * CountIn(text, ResearchStrong) as real + 2.0 * CountIn(text, ResearchMedium) as real
    + 1.5 * CountIn(text, ResearchMetrics) as real
    + (if IsList(data, "implementation_steps") && ListLength(data, "implementation_steps") >= 4 then 2.0 else 0.0)
  }

  function EmpiricalValidation(data: Record): real {
    NormalizeScore(RawEmpirical(data), 10.0)
  }

  /** `_analyze_empirical_validation`. */
  method AnalyzeEmpiricalValidation(data: Record) returns (score: real)
    ensures score == EmpiricalValidation(data)
  {
    score := 0.0;
    var text := EmpiricalText(data);
    score := AddKeywordPoints(score, text, ResearchStrong, 3.0);
    score := AddKeywordPoints(score, text, ResearchMedium, 2.0);
    score := AddKeywordPoints(score, text, ResearchMetrics, 1.5);
    ghost var words := score;
    var steps := Get(data, "implementation_steps", Null);
    if steps.List? && |steps.items| >= 4 {
      score := score + 2.0;
    }
    assert score == words + (if IsList(data, "implementation_steps") && ListLength(data, "implementation_steps") >= 4 then 2.0 else 0.0);
    assert score == RawEmpirical(data);
    score := NormalizeScore(score, 10.0);
  }

  // ----- methodology -------------------------------------------------------------

  /** +3.0 for five or more steps, +2.0 for three or four. */
  function StepPoints(data: Record): real {
    if !IsList(data, "implementation_steps") then 0.0
    else if ListLength(data, "implementation_steps") >= 5 then 3.0
    else if ListLength(data, "implementation_steps") >= 3 then 2.0
    else 0.0
  }

  /** `min(len(data[key]) * 1.5, 3.0)` for a list, else nothing. */
  function ListPoints(data: Record, key: string): real {
    if !IsList(data, key) then 0.0
    else if ListLength(data, key) as real * 1.5 < 3.0 then ListLength(data, key) as real * 1.5 else 3.0
  }

  function LogicText(data: Record): string {
    FieldText(data, "problem") + " " + FieldText(data, "solution")
  }

  function RawMethodology(data: Record): real {
    StepPoints(data) + ListPoints(data, "implementation_requirements") + ListPoints(data, "limitations")
    + (if AnyIn(Lower(LogicText(data)), LogicalMarkers) then 1.0 else 0.0)
  }

  function Methodology(data: Record): real {
    NormalizeScore(RawMethodology(data), 10.0)
  }

  /** `_analyze_methodology`; the spaCy parse of the text is never used. */
  method AnalyzeMethodology(data: Record) returns (score: real)
    ensures score == Methodology(data)
  {
    score := 0.0;
    var steps := Get(data, "implementation_steps", Null);
    if steps.List? {
      if |steps.items| >= 5 {
        score := score + 3.0;
      } else if |steps.items| >= 3 {
        score := score + 2.0;
      }
    }
    var requirements := Get(data, "implementation_requirements", Null);
    if requirements.List? {
      var points := |requirements.items| as real * 1.5;
      score := score + (if points < 3.0 then points else 3.0);
    }
    var limitations := Get(data, "limitations", Null);
    if limitations.List? {
      var points := |limitations.items| as real * 1.5;
      score := score + (if points < 3.0 then points else 3.0);
    }
    var text := LogicText(data);
    if AnyIn(Lower(text), LogicalMarkers) {
      score := score + 1.0;
    }
    assert score == RawMethodology(data);
    score := NormalizeScore(score, 10.0);
  }

  /** The methodology rules: the step bonus is 3 for five or more steps and 2
      for three or four; each of the two lists adds 1.5 per entry up to 3; a
      logical marker adds 1. Together they never exceed 10, so normalising
      never clips the methodology score. */
  lemma MethodologyRules(data: Record)
    ensures StepPoints(data) == (if IsList(data, "implementation_steps") && ListLength(data, "implementation_steps") >= 5 then 3.0
                                 else if IsList(data, "implementation_steps") && ListLength(data, "implementation_steps") >= 3 then 2.0
                                 else 0.0)
    ensures 0.0 <= ListPoints(data, "implementation_requirements") <= 3.0
    ensures 0.0 <= ListPoints(data, "limitations") <= 3.0
    ensures ListLength(data, "limitations") >= 2 ==> ListPoints(data, "limitations") == 3.0
    ensures ListLength(data, "implementation_requirements") >= 2 ==> ListPoints(data, "implementation_requirements") == 3.0
    ensures 0.0 <= RawMethodology(data) <= 10.0
    ensures Methodology(data) == RawMethodology(data)
  {
    NormalizeOnTenScale(RawMethodology(data));
  }

  // ----- adaptability --------------------------------------------------------------

  function AdaptText(data: Record): string {
    Lower(FieldText(data, "solution") + " " + FieldText(data, "implementation_steps") + " " + FieldText(data, "benefits"))
  }

  /** +3.0 per high, +2.0 per medium and +1.5 per context keyword; +2.0 when
      both `domain` and `sub_domains` are truthy. */
  function RawAdaptability(data: Record): real {
    var text := AdaptText(data);
    3.0 * CountIn(text, AdaptHigh) as real + 2.0 * CountIn(text, AdaptMedium) as real
    + 1.5 * CountIn(text, AdaptContext) as real
    + (if Truthy(Get(data, "domain", Null)) && Truthy(Get(data, "sub_domains", Null)) then 2.0 else 0.0)
  }

  function Adaptability(data: Record): real {
    NormalizeScore(RawAdaptability(data), 10.0)
  }

  /** `_analyze_adaptability`. */
  method AnalyzeAdaptability(data: Record) returns (score: real)
    ensures score == Adaptability(data)
  {
    score := 0.0;
    var text := AdaptText(data);
    score := AddKeywordPoints(score, text, AdaptHigh, 3.0);
    score := AddKeywordPoints(score, text, AdaptMedium, 2.0);
    score := AddKeywordPoints(score, text, AdaptContext, 1.5);
    ghost var words := score;
    if Truthy(Get(data, "domain", Null)) && Truthy(Get(data, "sub_domains", Null)) {
      score := score + 2.0;
    }
    assert score == words + (if Truthy(Get(data, "domain", Null)) && Truthy(Get(data, "sub_domains", Null)) then 2.0 else 0.0);
    assert score == RawAdaptability(data);
    score := NormalizeScore(score, 10.0);
  }

  // ----- external validation ---------------------------------------------------------

  /** +2.5 per validation keyword of any group, +2.0 when "examples" occurs. */
  function RawExternal(data: Record): real {
    var text := EmpiricalText(data);
    2.5 * CountInGroups(text, ValidationGroups) as real
    + (if Contains(Lower(text), "examples") then 2.0 else 0.0)
  }

  function ExternalValidation(data: Record): real {
    NormalizeScore(RawExternal(data), 10.0)
  }

  /** `_analyze_external_validation`. */
  method AnalyzeExternalValidation(data: Record) returns (score: real)
    ensures score == ExternalValidation(data)
  {
    score := 0.0;
    var text := EmpiricalText(data);
    score := AddGroupPoints(score, text, ValidationGroups, 2.5);
    if Contains(Lower(text), "examples") {
      score := score + 2.0;
    }
    assert score == RawExternal(data);
    score := NormalizeScore(score, 10.0);
  }

  /** Every sub-score lies in [0, 10]: only additions are made before
      normalising. */
  lemma SubScoreBounds(data: Record)
    ensures 0.0 <= EmpiricalValidation(data) <= 10.0
    ensures 0.0 <= Methodology(data) <= 10.0
    ensures 0.0 <= Adaptability(data) <= 10.0
    ensures 0.0 <= ExternalValidation(data) <= 10.0
    ensures IsList(data, "implementation_steps") && ListLength(data, "implementation_steps") >= 4 ==>
      EmpiricalValidation(data) >= 2.0
  {
    NormalizeOnTenScale(RawEmpirical(data));
    MethodologyRules(data);
    NormalizeOnTenScale(RawAdaptability(data));
    NormalizeOnTenScale(RawExternal(data));
  }

  // ----- correction --------------------------------------------------------------------

  function CorrectionText(data: Record): string {
    Lower(FieldText(data, "solution") + " " + FieldText(data, "limitations"))
  }

  predicate SignalsNovelty(data: Record) { AnyIn(CorrectionText(data), NoveltyWords) }

  predicate SignalsLimitedData(data: Record) {
    Contains(CorrectionText(data), "limited data") || Contains(CorrectionText(data), "preliminary results")
  }

  predicate SignalsContradiction(data: Record) { AnyIn(CorrectionText(data), ContradictionWords) }

  /** The sum of the three independent penalties. */
  function Correction(data: Record): real {
    (if SignalsNovelty(data) then -0.5 else 0.0)
    + (if SignalsLimitedData(data) then -0.5 else 0.0)
    + (if SignalsContradiction(data) then -1.0 else 0.0)
  }

  /** The values a correction can take. */
  predicate IsCorrection(c: real) {
    c == 0.0 || c == -0.5 || c == -1.0 || c == -1.5 || c == -2.0
  }

  /** `_calculate_correction_factors`. */
  method CalculateCorrectionFactors(data: Record) returns (correction: real)
    ensures correction == Correction(data)
  {
    correction := 0.0;
    var text := CorrectionText(data);
    if AnyIn(text, NoveltyWords) {
      correction := correction - 0.5;
    }
    if Contains(text, "limited data") || Contains(text, "preliminary results") {
      correction := correction - 0.5;
    }
    if AnyIn(text, ContradictionWords) {
      correction := correction - 1.0;
    }
  }

  /** The correction lies in [-2, 0], is one of five values, and is negative
      exactly when one of the three signals occurs. */
  lemma CorrectionBounds(data: Record)
    ensures -2.0 <= Correction(data) <= 0.0
    ensures IsCorrection(Correction(data))
    ensures Correction(data) < 0.0 <==> SignalsNovelty(data) || SignalsLimitedData(data) || SignalsContradiction(data)
    ensures Correction(data) == -2.0 <==> SignalsNovelty(data) && SignalsLimitedData(data) && SignalsContradiction(data)
  {
  }

  // ----- explanation and result -----------------------------------------------------------

  function EmpiricalRemark(e: real): string {
    if e >= 8.0 then "Сильная эмпирическая база"
    else if e >= 5.0 then "Достаточная эмпирическая валидация"
    else "Требуется больше эмпирических данных"
  }

  function MethodologyRemark(m: real): string {
    if m >= 8.0 then "Методология хорошо проработана"
    else if m >= 5.0 then "Методология адекватна"
    else "Требуется улучшить методологию"
  }

  /** `str(correction)` for the values a correction takes. */
  function CorrectionLiteral(c: real): string
    requires IsCorrection(c)
  {
    if c == 0.0 then "0.0"
    else if c == -0.5 then "-0.5"
    else if c == -1.0 then "-1.0"
    else if c == -1.5 then "-1.5"
    else "-2.0"
  }

  function CorrectionRemark(c: real): string
    requires IsCorrection(c)
  {
    "Применены корректирующие факторы (" + CorrectionLiteral(c) + ")"
  }

  /** The two threshold remarks, and the correction remark only when the
      correction is negative. */
  function Remarks(e: real, m: real, c: real): (rs: seq<string>)
    requires IsCorrection(c)
    ensures |rs| == if c < 0.0 then 3 else 2
  {
    [EmpiricalRemark(e), MethodologyRemark(m)] + (if c < 0.0 then [CorrectionRemark(c)] else [])
  }

  /** The remarks joined by ". ". */
  function Explanation(e: real, m: real, c: real): string
    requires IsCorrection(c)
  {
    Join(". ", Remarks(e, m, c))
  }

  /** The explanation is the two threshold remarks and, only under a negative
      correction, the correction remark naming its value. */
  lemma ExplanationText(e: real, m: real, c: real)
    requires IsCorrection(c)
    ensures Explanation(e, m, c) ==
      EmpiricalRemark(e) + ". " + MethodologyRemark(m) + (if c < 0.0 then ". " + CorrectionRemark(c) else "")
  {
    if c < 0.0 {
      assert Remarks(e, m, c) == [EmpiricalRemark(e), MethodologyRemark(m), CorrectionRemark(c)];
      JoinThree(". ", EmpiricalRemark(e), MethodologyRemark(m), CorrectionRemark(c));
    } else {
      assert Remarks(e, m, c) == [EmpiricalRemark(e), MethodologyRemark(m)];
      JoinTwo(". ", EmpiricalRemark(e), MethodologyRemark(m));
    }
  }

  /** `_generate_explanation`. */
  method GenerateExplanation(e: real, m: real, correction: real) returns (text: string)
    requires IsCorrection(correction)
    ensures text == Explanation(e, m, correction)
  {
    var explanations: seq<string> := [];
    if e >= 8.0 {
      explanations := explanations + ["Сильная эмпирическая база"];
    } else if e >= 5.0 {
      explanations := explanations + ["Достаточная эмпирическая валидация"];
    } else {
      explanations := explanations + ["Требуется больше эмпирических данных"];
    }
    assert explanations == [EmpiricalRemark(e)];
    if m >= 8.0 {
      explanations := explanations + ["Методология хорошо проработана"];
    } else if m >= 5.0 {
      explanations := explanations + ["Методология адекватна"];
    } else {
      explanations := explanations + ["Требуется улучшить методологию"];
    }
    assert explanations == [EmpiricalRemark(e), MethodologyRemark(m)];
    if correction < 0.0 {
      explanations := explanations + ["Применены корректирующие факторы (" + CorrectionLiteral(correction) + ")"];
    }
    assert explanations == Remarks(e, m, correction);
    text := Join(". ", explanations);
  }

  /** `0.35 e + 0.25 m + 0.20 a + 0.20 x + correction`. */
  function WeightedScore(e: real, m: real, a: real, x: real, c: real): real {
    e * 0.35 + m * 0.25 + a * 0.20 + x * 0.20 + c
  }

  /** The dict `analyze` returns. */
  function ReliabilityResult(data: Record): AnalyzerResult {
    var e, m, a, x := EmpiricalValidation(data), Methodology(data), Adaptability(data), ExternalValidation(data);
    var c := Correction(data);
    CorrectionBounds(data);
    AnalyzerResult(Round(WeightedScore(e, m, a, x, c), 2),
                   [("empirical_validation", e), ("methodology", m), ("adaptability", a), ("external_validation", x)],
                   Some(c), Some(Explanation(e, m, c)))
  }

  /** `analyze`. */
  method Analyze(data: Record) returns (r: AnalyzerResult)
    ensures r == ReliabilityResult(data)
  {
    var e := AnalyzeEmpiricalValidation(data);
    var m := AnalyzeMethodology(data);
    var a := AnalyzeAdaptability(data);
    var x := AnalyzeExternalValidation(data);
    var correction := CalculateCorrectionFactors(data);
    CorrectionBounds(data);
    var explanation := GenerateExplanation(e, m, correction);
    r := AnalyzerResult(Round(e * 0.35 + m * 0.25 + a * 0.20 + x * 0.20 + correction, 2),
                        [("empirical_validation", e), ("methodology", m), ("adaptability", a), ("external_validation", x)],
                        Some(correction), Some(explanation));
  }

  /** The result names exactly the four sub-metrics, reports the correction,
      and its rounded score lies in [-2, 10]; without a correction it lies in
      [0, 10]. */
  lemma ReliabilityResultBounds(data: Record)
    ensures var r := ReliabilityResult(data);
      && |r.details| == 4
      && r.details[0] == ("empirical_validation", EmpiricalValidation(data))
      && r.details[1] == ("methodology", Methodology(data))
      && r.details[2] == ("adaptability", Adaptability(data))
      && r.details[3] == ("external_validation", ExternalValidation(data))
      && r.correction == Some(Correction(data))
      && -2.0 <= r.score <= 10.0
      && (Correction(data) == 0.0 ==> 0.0 <= r.score)
  {
    SubScoreBounds(data);
    CorrectionBounds(data);
    var w := WeightedScore(EmpiricalValidation(data), Methodology(data), Adaptability(data),
                           ExternalValidation(data), Correction(data));
    RoundWithin(w, 2, -2, 10);
    if Correction(data) == 0.0 {
      RoundWithin(w, 2, 0, 10);
    }
  }
}
