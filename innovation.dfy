/** The innovation analyzer (criterion "I"): novelty, technological
    complexity and development potential, each scored by keyword matching on
    the lower-cased practice text and capped at 10. */
module Innovation {
  import opened Wrappers
  import opened PyText
  import opened PyData
  import opened BaseAnalyzer

  const NoveltyHigh: seq<string> := ["new", "novel", "innovative", "unique", "original", "pioneering"]
  const NoveltyMedium: seq<string> := ["improved", "enhanced", "advanced", "modern"]
  const NoveltyLow: seq<string> := ["traditional", "conventional", "standard", "typical"]
  const InnovationTags: seq<string> := ["innovation", "ai", "ml", "blockchain", "emerging"]

  const TechAdvanced: seq<string> := ["ai", "ml", "blockchain", "quantum", "neural"]
  const TechModern: seq<string> := ["cloud", "microservices", "api", "distributed"]
  const TechTools: seq<string> := ["python", "tensorflow", "kubernetes", "docker"]

  /** The values of the potential indicator dict, in order: future, growth,
      impact. */
  const PotentialGroups: seq<seq<string>> := [
    ["future", "potential", "roadmap", "vision", "long-term"],
    ["expand", "extend", "grow", "scale", "develop"],
    ["transform", "improve", "enhance", "strengthen"]]

  /** `tag.lower()` is defined for every tag: when `tags` is a list, each of
      its entries is a string. */
  predicate TagsAreStrings(data: Record) {
    var tags := Get(data, "tags", Null);
    tags.List? ==> forall k :: 0 <= k < |tags.items| ==> tags.items[k].Str?
  }

  // ----- novelty -------------------------------------------------------------

  function NoveltyText(data: Record): string {
    Lower(FieldText(data, "solution") + " " + FieldText(data, "summary") + " " + FieldText(data, "benefits"))
  }

  /** How many tags contain an innovation keyword once lower-cased. */
  function InnovativeTagCount(tags: seq<Value>): (n: nat)
    requires forall k :: 0 <= k < |tags| ==> tags[k].Str?
    ensures n <= |tags|
  {
    if tags == [] then 0
    else InnovativeTagCount(tags[..|tags| - 1]) + (if AnyIn(Lower(tags[|tags| - 1].s), InnovationTags) then 1 else 0)
  }

  /** 2.0 per innovative tag, when `tags` is a list. */
  function TagBonus(data: Record): real
    requires TagsAreStrings(data)
  {
    var tags := Get(data, "tags", Null);
    if tags.List? then 2.0 * InnovativeTagCount(tags.items) as real else 0.0
  }

  /** The novelty score before normalising: +2.5 per high word, +1.5 per
      medium word, -1.0 per low word, +2.0 per innovative tag. */
  function RawNovelty(data: Record): real
    requires TagsAreStrings(data)
  {
    var text := NoveltyText(data);
    2.5 * CountIn(text, NoveltyHigh) as real + 1.5 * CountIn(text, NoveltyMedium) as real
    - 1.0 * CountIn(text, NoveltyLow) as real + TagBonus(data)
  }

  function Novelty(data: Record): real
    requires TagsAreStrings(data)
  {
    NormalizeScore(RawNovelty(data), 10.0)
  }

  /** `_analyze_novelty`. */
  method AnalyzeNovelty(data: Record) returns (score: real)
    requires TagsAreStrings(data)
    ensures score == Novelty(data)
  {
    score := 0.0;
    var text := NoveltyText(data);
    score := AddKeywordPoints(score, text, NoveltyHigh, 2.5);
    score := AddKeywordPoints(score, text, NoveltyMedium, 1.5);
    score := AddKeywordPoints(score, text, NoveltyLow, -1.0);
    ghost var words := score;
    var tags := Get(data, "tags", Null);
    if tags.List? {
      var bonus := 0.0;
      for i := 0 to |tags.items|
        invariant bonus == 2.0 * InnovativeTagCount(tags.items[..i]) as real
      {
        assert tags.items[..i + 1][..i] == tags.items[..i];
        if AnyIn(Lower(tags.items[i].s), InnovationTags) {
          bonus := bonus + 2.0;
        }
      }
      assert tags.items[..|tags.items|] == tags.items;
      score := score + bonus;
    }
    assert score == words + TagBonus(data);
    assert words + TagBonus(data) == RawNovelty(data);
    score := NormalizeScore(score, 10.0);
  }

  // ----- technological complexity ---------------------------------------------

  function TechText(data: Record): string {
    Lower(FieldText(data, "solution") + " " + FieldText(data, "implementation_requirements"))
  }

  /** 2.0 when `implementation_steps` is a list of at least five steps. */
  function ManyStepsBonus(data: Record): real {
    var steps := Get(data, "implementation_steps", Null);
    if steps.List? && |steps.items| >= 5 then 2.0 else 0.0
  }

  /** +3.0 per advanced, +2.0 per modern and +1.0 per tool keyword, +2.0 for
      five or more steps. */
  function RawTechComplexity(data: Record): real {
    var text := TechText(data);
    3.0 * CountIn(text, TechAdvanced) as real + 2.0 * CountIn(text, TechModern) as real
    + 1.0 * CountIn(text, TechTools) as real + ManyStepsBonus(data)
  }

  function TechComplexity(data: Record): real {
    NormalizeScore(RawTechComplexity(data), 10.0)
  }

  /** `_analyze_tech_complexity`. */
  method AnalyzeTechComplexity(data: Record) returns (score: real)
    ensures score == TechComplexity(data)
  {
    score := 0.0;
    var text := TechText(data);
    score := AddKeywordPoints(score, text, TechAdvanced, 3.0);
    score := AddKeywordPoints(score, text, TechModern, 2.0);
    score := AddKeywordPoints(score, text, TechTools, 1.0);
    var steps := Get(data, "implementation_steps", Null);
    if steps.List? {
      if |steps.items| >= 5 {
        score := score + 2.0;
      }
    }
    assert score == RawTechComplexity(data);
    score := NormalizeScore(score, 10.0);
  }

  // ----- potential -------------------------------------------------------------

  function PotentialText(data: Record): string {
    Lower(FieldText(data, "benefits") + " " + FieldText(data, "solution"))
  }

  /** 2.0 when `implementation_steps` is a list, even an empty one. */
  function StepsListBonus(data: Record): real {
    if Get(data, "implementation_steps", Null).List? then 2.0 else 0.0
  }

  /** +2.0 per potential keyword of any group, +2.0 for a list of steps. */
  function RawPotential(data: Record): real {
    2.0 * CountInGroups(PotentialText(data), PotentialGroups) as real + StepsListBonus(data)
  }

  function Potential(data: Record): real {
    NormalizeScore(RawPotential(data), 10.0)
  }

  /** `_analyze_potential`. */
  method AnalyzePotential(data: Record) returns (score: real)
    ensures score == Potential(data)
  {
    score := 0.0;
    var text := PotentialText(data);
    score := AddGroupPoints(score, text, PotentialGroups, 2.0);
    if Get(data, "implementation_steps", Null).List? {
      score := score + 2.0;
    }
    assert score == RawPotential(data);
    score := NormalizeScore(score, 10.0);
  }

  /** The bounds of the three sub-scores: each is at most 10; technological
      complexity and potential are never negative, while novelty goes down to
      -4 because the low words subtract and normalising has no floor. A list of
      steps lifts potential to at least 2, five steps lift technological
      complexity to at least 2. */
  lemma SubScoreBounds(data: Record)
    requires TagsAreStrings(data)
    ensures -4.0 <= Novelty(data) <= 10.0
    ensures 0.0 <= TechComplexity(data) <= 10.0
    ensures 0.0 <= Potential(data) <= 10.0
    ensures Get(data, "implementation_steps", Null).List? ==> Potential(data) >= 2.0
    ensures Get(data, "implementation_steps", Null).List? && |Get(data, "implementation_steps", Null).items| >= 5 ==>
      TechComplexity(data) >= 2.0
  {
    assert CountIn(NoveltyText(data), NoveltyLow) <= 4;
    NormalizeOnTenScale(RawNovelty(data));
    NormalizeOnTenScale(RawTechComplexity(data));
    NormalizeOnTenScale(RawPotential(data));
  }

  /** Novelty is negative exactly when the low words outweigh everything else:
      with no high or medium word and no innovative tag, any low word makes it
      negative. */
  lemma NoveltyNegative(data: Record)
    requires TagsAreStrings(data)
    ensures Novelty(data) < 0.0 <==> RawNovelty(data) < 0.0
    ensures (CountIn(NoveltyText(data), NoveltyHigh) == 0 && CountIn(NoveltyText(data), NoveltyMedium) == 0 &&
      TagBonus(data) == 0.0 && AnyIn(NoveltyText(data), NoveltyLow)) ==> Novelty(data) < 0.0
  {
    NormalizeOnTenScale(RawNovelty(data));
    CountInPositive(NoveltyText(data), NoveltyLow);
  }

  // ----- explanation and result -------------------------------------------------

  function NoveltyRemark(novelty: real): string {
    if novelty >= 8.0 then "Высокая степень новизны"
    else if novelty >= 5.0 then "Присутствуют инновационные элементы"
    else "Требуется усилить инновационность"
  }

  function TechRemark(tech: real): string {
    if tech >= 8.0 then "Использует передовые технологии"
    else if tech >= 5.0 then "Умеренная технологическая сложность"
    else "Можно усилить технологическую составляющую"
  }

  function PotentialRemark(potential: real): string {
    if potential >= 8.0 then "Большой потенциал развития"
    else "Требуется лучше описать потенциал развития"
  }

  /** The three remarks, joined by ". ". */
  function Explanation(novelty: real, tech: real, potential: real): string {
    NoveltyRemark(novelty) + ". " + TechRemark(tech) + ". " + PotentialRemark(potential)
  }

  /** `_generate_explanation`: one remark per sub-score appended to a list,
      then joined. */
  method GenerateExplanation(novelty: real, tech: real, potential: real) returns (text: string)
    ensures text == Explanation(novelty, tech, potential)
  {
    var explanations: seq<string> := [];
    if novelty >= 8.0 {
      explanations := explanations + ["Высокая степень новизны"];
    } else if novelty >= 5.0 {
      explanations := explanations + ["Присутствуют инновационные элементы"];
    } else {
      explanations := explanations + ["Требуется усилить инновационность"];
    }
    assert explanations == [NoveltyRemark(novelty)];
    if tech >= 8.0 {
      explanations := explanations + ["Использует передовые технологии"];
    } else if tech >= 5.0 {
      explanations := explanations + ["Умеренная технологическая сложность"];
    } else {
      explanations := explanations + ["Можно усилить технологическую составляющую"];
    }
    assert explanations == [NoveltyRemark(novelty), TechRemark(tech)];
    if potential >= 8.0 {
      explanations := explanations + ["Большой потенциал развития"];
    } else {
      explanations := explanations + ["Требуется лучше описать потенциал развития"];
    }
    assert explanations == [NoveltyRemark(novelty), TechRemark(tech), PotentialRemark(potential)];
    JoinThree(". ", NoveltyRemark(novelty), TechRemark(tech), PotentialRemark(potential));
    text := Join(". ", explanations);
  }

  /** The weighted sum `0.4 novelty + 0.3 tech_complexity + 0.3 potential`. */
  function WeightedScore(novelty: real, tech: real, potential: real): real {
    novelty * 0.4 + tech * 0.3 + potential * 0.3
  }

  /** The dict `analyze` returns. */
  function InnovationResult(data: Record): AnalyzerResult
    requires TagsAreStrings(data)
  {
    var n, t, p := Novelty(data), TechComplexity(data), Potential(data);
    AnalyzerResult(Round(WeightedScore(n, t, p), 2),
                   [("novelty", n), ("tech_complexity", t), ("potential", p)],
                   None, Some(Explanation(n, t, p)))
  }

  /** `analyze`. */
  method Analyze(data: Record) returns (r: AnalyzerResult)
    requires TagsAreStrings(data)
    ensures r == InnovationResult(data)
  {
    var novelty := AnalyzeNovelty(data);
    var tech := AnalyzeTechComplexity(data);
    var potential := AnalyzePotential(data);
    var explanation := GenerateExplanation(novelty, tech, potential);
    r := AnalyzerResult(Round(novelty * 0.4 + tech * 0.3 + potential * 0.3, 2),
                        [("novelty", novelty), ("tech_complexity", tech), ("potential", potential)],
                        None, Some(explanation));
  }

  /** The result names exactly the three sub-metrics, and the rounded score
      lies in [-2, 10]; it is never negative when novelty is not. */
  lemma InnovationResultBounds(data: Record)
    requires TagsAreStrings(data)
    ensures var r := InnovationResult(data);
      && |r.details| == 3
      && r.details[0] == ("novelty", Novelty(data))
      && r.details[1] == ("tech_complexity", TechComplexity(data))
      && r.details[2] == ("potential", Potential(data))
      && -2.0 <= r.score <= 10.0
      && (Novelty(data) >= 0.0 ==> 0.0 <= r.score)
      && r.correction == None
  {
    SubScoreBounds(data);
    var w := WeightedScore(Novelty(data), TechComplexity(data), Potential(data));
    RoundWithin(w, 2, -2, 10);
    if Novelty(data) >= 0.0 {
      RoundWithin(w, 2, 0, 10);
    }
  }
}
