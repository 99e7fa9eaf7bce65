/** The utility analyzer (criterion "U"): how clearly the problem is stated,
    how concrete the benefits are and how well the efficiency is argued, each
    scored by keyword matching and capped at 10. */
module Utility {
  import opened Wrappers
  import opened PyText
  import opened PyData
  import opened BaseAnalyzer

  const Goals: seq<string> := ["ensuring", "maintaining", "creating", "improving", "reducing"]
  const MeasurableWords: seq<string> := ["improved", "increased", "reduced", "better", "enhanced"]
  const RoiIndicators: seq<string> := ["roi", "return", "efficiency", "effective", "save"]

  /** `data["domain"].lower()` is defined whenever it is evaluated: with a
      `problem` and a truthy `domain`, the domain is a string. */
  predicate DomainIsText(data: Record) {
    ("problem" in data && Truthy(Get(data, "domain", Null))) ==> Get(data, "domain", Null).Str?
  }

  // ----- problem clarity -----------------------------------------------------

  function ProblemText(data: Record): string
    requires "problem" in data
  {
    Lower(Render(data["problem"]))
  }

  /** 2.0 when the domain is truthy and its lower-cased text occurs in the
      lower-cased problem. */
  function DomainBonus(data: Record): real
    requires "problem" in data && DomainIsText(data)
  {
    var domain := Get(data, "domain", Null);
    if Truthy(domain) && Contains(ProblemText(data), Lower(domain.s)) then 2.0 else 0.0
  }

  /** 0 without a `problem` key; otherwise +3.0 for "how to", +2.0 per goal
      word and +2.0 for a mentioned domain. */
  function RawProblemClarity(data: Record): real
    requires DomainIsText(data)
  {
    if "problem" !in data then 0.0
    else
      var text := ProblemText(data);
      (if Contains(text, "how to") then 3.0 else 0.0) + 2.0 * CountIn(text, Goals) as real + DomainBonus(data)
  }

  function ProblemClarity(data: Record): real
    requires DomainIsText(data)
  {
    NormalizeScore(RawProblemClarity(data), 10.0)
  }

  /** `_analyze_problem_clarity`. */
  method AnalyzeProblemClarity(data: Record) returns (score: real)
    requires DomainIsText(data)
    ensures score == ProblemClarity(data)
  {
    score := 0.0;
    if "problem" in data {
      var text := Lower(Render(data["problem"]));
      if Contains(text, "how to") {
        score := score + 3.0;
      }
      score := AddKeywordPoints(score, text, Goals, 2.0);
      var domain := Get(data, "domain", Null);
      if Truthy(domain) && Contains(text, Lower(domain.s)) {
        score := score + 2.0;
      }
    }
    assert score == RawProblemClarity(data);
    score := NormalizeScore(score, 10.0);
  }

  // ----- benefits ------------------------------------------------------------

  /** One benefit's points: +2.0 when its lower-cased text holds a measurable
      word, +1.0 when it has at least four words. */
  function BenefitPoints(benefit: Value): real {
    var text := Render(benefit);
    (if AnyIn(Lower(text), MeasurableWords) then 2.0 else 0.0) + (if WordCount(text) >= 4 then 1.0 else 0.0)
  }

  function BenefitsPoints(benefits: seq<Value>): real {
    if benefits == [] then 0.0
    else BenefitsPoints(benefits[..|benefits| - 1]) + BenefitPoints(benefits[|benefits| - 1])
  }

  /** The benefit points summed over the list, 0 when `benefits` is missing
      or not a list. */
  function RawBenefits(data: Record): real {
    if "benefits" in data && data["benefits"].List? then BenefitsPoints(data["benefits"].items) else 0.0
  }

  function Benefits(data: Record): real {
    NormalizeScore(RawBenefits(data), 10.0)
  }

  /** `_analyze_benefits`. */
  method AnalyzeBenefits(data: Record) returns (score: real)
    ensures score == Benefits(data)
  {
    score := 0.0;
    if "benefits" in data && data["benefits"].List? {
      var benefits := data["benefits"].items;
      for i := 0 to |benefits|
        invariant score == BenefitsPoints(benefits[..i])
      {
        assert benefits[..i + 1][..i] == benefits[..i];
        var text := Render(benefits[i]);
        if AnyIn(Lower(text), MeasurableWords) {
          score := score + 2.0;
        }
        if WordCount(text) >= 4 {
          score := score + 1.0;
        }
      }
      assert benefits[..|benefits|] == benefits;
    }
    score := NormalizeScore(score, 10.0);
  }

  /** Each benefit earns between 0 and 3 points, so the list earns at most
      three points per item. */
  lemma {:induction false} BenefitsPointsBounds(benefits: seq<Value>)
    ensures 0.0 <= BenefitsPoints(benefits) <= 3.0 * |benefits| as real
  {
    if benefits != [] {
      BenefitsPointsBounds(benefits[..|benefits| - 1]);
    }
  }

  /** Benefits are never negative, and only a list of at least four items can
      be capped. */
  lemma BenefitsRules(data: Record)
    ensures 0.0 <= Benefits(data) <= 10.0
    ensures !("benefits" in data && data["benefits"].List?) ==> Benefits(data) == 0.0
    ensures ("benefits" in data && data["benefits"].List? && |data["benefits"].items| <= 3) ==>
      Benefits(data) == RawBenefits(data)
  {
    if "benefits" in data && data["benefits"].List? {
      BenefitsPointsBounds(data["benefits"].items);
    }
    NormalizeOnTenScale(RawBenefits(data));
  }

  // ----- efficiency ------------------------------------------------------------

  function RenderAll(items: seq<Value>): (texts: seq<string>)
    ensures |texts| == |items|
    ensures forall k :: 0 <= k < |items| ==> texts[k] == Render(items[k])
  {
    if items == [] then [] else [Render(items[0])] + RenderAll(items[1..])
  }

  /** `" ".join(str(b) for b in benefits)`. */
  function BenefitsText(benefits: seq<Value>): string {
    Join(" ", RenderAll(benefits))
  }

  /** +3.0 for an ROI word in the lower-cased text, +3.0 for a digit. */
  function BenefitsTextPoints(text: string): real {
    (if AnyIn(Lower(text), RoiIndicators) then 3.0 else 0.0) + (if HasDigit(text) then 3.0 else 0.0)
  }

  /** +2.0 for a truthy financial cost, +2.0 for a truthy time cost, and the
      points of the joined benefits when they form a list. */
  function RawEfficiency(data: Record): real {
    (if Truthy(Get(data, "estimated_financial_cost_value", Null)) then 2.0 else 0.0)
    + (if Truthy(Get(data, "estimated_time_cost_minutes", Null)) then 2.0 else 0.0)
    + (if "benefits" in data && data["benefits"].List? then BenefitsTextPoints(BenefitsText(data["benefits"].items)) else 0.0)
  }

  function Efficiency(data: Record): real {
    NormalizeScore(RawEfficiency(data), 10.0)
  }

  /** `_analyze_efficiency`. */
  method AnalyzeEfficiency(data: Record) returns (score: real)
    ensures score == Efficiency(data)
  {
    score := 0.0;
    if Truthy(Get(data, "estimated_financial_cost_value", Null)) {
      score := score + 2.0;
    }
    if Truthy(Get(data, "estimated_time_cost_minutes", Null)) {
      score := score + 2.0;
    }
    if "benefits" in data && data["benefits"].List? {
      var benefitsText := Join(" ", RenderAll(data["benefits"].items));
      if AnyIn(Lower(benefitsText), RoiIndicators) {
        score := score + 3.0;
      }
      if HasDigit(benefitsText) {
        score := score + 3.0;
      }
    }
    assert score == RawEfficiency(data);
    score := NormalizeScore(score, 10.0);
  }

  /** The four efficiency bonuses add up to at most 10, so normalising never
      clips: efficiency is exactly the raw sum, in [0, 10]; without a list of
      benefits it is at most 4. */
  lemma EfficiencyRules(data: Record)
    ensures Efficiency(data) == RawEfficiency(data)
    ensures 0.0 <= Efficiency(data) <= 10.0
    ensures !("benefits" in data && data["benefits"].List?) ==> Efficiency(data) <= 4.0
  {
    NormalizeOnTenScale(RawEfficiency(data));
  }

  /** The bounds of the three sub-scores; problem clarity is 0 without a
      `problem` key. */
  lemma SubScoreBounds(data: Record)
    requires DomainIsText(data)
    ensures 0.0 <= ProblemClarity(data) <= 10.0
    ensures "problem" !in data ==> ProblemClarity(data) == 0.0
    ensures 0.0 <= Benefits(data) <= 10.0
    ensures 0.0 <= Efficiency(data) <= 10.0
  {
    NormalizeOnTenScale(RawProblemClarity(data));
    BenefitsRules(data);
    EfficiencyRules(data);
  }

  // ----- explanation and result -------------------------------------------------

  function ClarityRemark(clarity: real): string {
    if clarity >= 8.0 then "Проблема описана очень четко"
    else if clarity >= 5.0 then "Описание проблемы адекватное"
    else "Требуется улучшить описание проблемы"
  }

  function BenefitsRemark(benefits: real): string {
    if benefits >= 8.0 then "Выгоды конкретны и измеримы"
    else if benefits >= 5.0 then "Выгоды описаны достаточно ясно"
    else "Необходимо конкретизировать выгоды"
  }

  function EfficiencyRemark(efficiency: real): string {
    if efficiency >= 8.0 then "Эффективность хорошо обоснована"
    else "Требуется лучшее обоснование эффективности"
  }

  /** The three remarks, joined by ". ". */
  function Explanation(clarity: real, benefits: real, efficiency: real): string {
    ClarityRemark(clarity) + ". " + BenefitsRemark(benefits) + ". " + EfficiencyRemark(efficiency)
  }

  /** `_generate_explanation`: one remark per sub-score appended to a list,
      then joined. */
  method GenerateExplanation(clarity: real, benefits: real, efficiency: real) returns (text: string)
    ensures text == Explanation(clarity, benefits, efficiency)
  {
    var explanations: seq<string> := [];
    if clarity >= 8.0 {
      explanations := explanations + ["Проблема описана очень четко"];
    } else if clarity >= 5.0 {
      explanations := explanations + ["Описание проблемы адекватное"];
    } else {
      explanations := explanations + ["Требуется улучшить описание проблемы"];
    }
    assert explanations == [ClarityRemark(clarity)];
    if benefits >= 8.0 {
      explanations := explanations + ["Выгоды конкретны и измеримы"];
    } else if benefits >= 5.0 {
      explanations := explanations + ["Выгоды описаны достаточно ясно"];
    } else {
      explanations := explanations + ["Необходимо конкретизировать выгоды"];
    }
    assert explanations == [ClarityRemark(clarity), BenefitsRemark(benefits)];
    if efficiency >= 8.0 {
      explanations := explanations + ["Эффективность хорошо обоснована"];
    } else {
      explanations := explanations + ["Требуется лучшее обоснование эффективности"];
    }
    assert explanations == [ClarityRemark(clarity), BenefitsRemark(benefits), EfficiencyRemark(efficiency)];
    JoinThree(". ", ClarityRemark(clarity), BenefitsRemark(benefits), EfficiencyRemark(efficiency));
    text := Join(". ", explanations);
  }

  /** `0.35 problem_clarity + 0.35 benefits + 0.30 efficiency`. */
  function WeightedScore(clarity: real, benefits: real, efficiency: real): real {
    clarity * 0.35 + benefits * 0.35 + efficiency * 0.30
  }

  /** The dict `analyze` returns. */
  function UtilityResult(data: Record): AnalyzerResult
    requires DomainIsText(data)
  {
    var p, b, e := ProblemClarity(data), Benefits(data), Efficiency(data);
    AnalyzerResult(Round(WeightedScore(p, b, e), 2),
                   [("problem_clarity", p), ("benefits", b), ("efficiency", e)],
                   None, Some(Explanation(p, b, e)))
  }

  /** `analyze`. */
  method Analyze(data: Record) returns (r: AnalyzerResult)
    requires DomainIsText(data)
    ensures r == UtilityResult(data)
  {
    var clarity := AnalyzeProblemClarity(data);
    var benefits := AnalyzeBenefits(data);
    var efficiency := AnalyzeEfficiency(data);
    var explanation := GenerateExplanation(clarity, benefits, efficiency);
    r := AnalyzerResult(Round(clarity * 0.35 + benefits * 0.35 + efficiency * 0.30, 2),
                        [("problem_clarity", clarity), ("benefits", benefits), ("efficiency", efficiency)],
                        None, Some(explanation));
  }

  /** The result names exactly the three sub-metrics, and its rounded score
      lies in [0, 10]. */
  lemma UtilityResultBounds(data: Record)
    requires DomainIsText(data)
    ensures var r := UtilityResult(data);
      && |r.details| == 3
      && r.details[0] == ("problem_clarity", ProblemClarity(data))
      && r.details[1] == ("benefits", Benefits(data))
      && r.details[2] == ("efficiency", Efficiency(data))
      && 0.0 <= r.score <= 10.0
      && r.correction == None
  {
    SubScoreBounds(data);
    RoundWithin(WeightedScore(ProblemClarity(data), Benefits(data), Efficiency(data)), 2, 0, 10);
  }
}
