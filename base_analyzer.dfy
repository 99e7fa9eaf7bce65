/** The helpers every criterion analyzer inherits (validator_service/analyzers/base.py)
    and the shape of an analyzer's result. */
module BaseAnalyzer {
  import opened Wrappers
  import opened PyText
  import opened PyData

  /** The dict an analyzer's `analyze` returns: `score`, `details` (sub-metric
      name to score, in insertion order), `correction` (only the reliability
      analyzer sets it) and `explanation`, which the aggregation engine reads
      with a default of "". */
  datatype AnalyzerResult = AnalyzerResult(
    score: real,
    details: seq<(string, real)>,
    correction: Option<real>,
    explanation: Option<string>)

  /** `_normalize_score(score, max_score)`: rescales to the 0-10 scale and caps
      at 10; there is no floor. */
  function NormalizeScore(score: real, maxScore: real): (r: real)
    ensures maxScore <= 0.0 ==> r == 0.0
    ensures r <= 10.0
  {
    if maxScore <= 0.0 then 0.0
    else var scaled := score / maxScore * 10.0; if scaled < 10.0 then scaled else 10.0
  }

  /** On the 0-10 scale every analyzer uses, normalising is `min(score, 10)`:
      negative raw scores stay negative. */
  lemma NormalizeOnTenScale(score: real)
    ensures NormalizeScore(score, 10.0) == if score < 10.0 then score else 10.0
  {
  }

  /** For a fixed positive scale, normalising never reverses an order. */
  lemma NormalizeMonotone(s1: real, s2: real, maxScore: real)
    requires s1 <= s2 && maxScore > 0.0
    ensures NormalizeScore(s1, maxScore) <= NormalizeScore(s2, maxScore)
  {
    assert s2 / maxScore - s1 / maxScore == (s2 - s1) / maxScore;
  }

  /** `_validate_text(text, min_length)`: a falsy value is never valid text;
      otherwise the whitespace-stripped `str()` of it must reach `minLength`. */
  function ValidateText(text: Value, minLength: int): (ok: bool)
    ensures !Truthy(text) ==> !ok
    ensures Truthy(text) ==> (ok <==> |Strip(Render(text))| >= minLength)
  {
    if !Truthy(text) then false else |Strip(Render(text))| >= minLength
  }

  /** Text made only of whitespace never passes a positive length bound. */
  lemma ValidateTextRejectsBlank(s: string, minLength: int)
    requires minLength > 0
    requires forall j :: 0 <= j < |s| ==> IsSpace(s[j])
    ensures !ValidateText(Str(s), minLength)
  {
    StripAllSpace(s);
  }

  /** Lowering the bound never turns valid text into invalid text. */
  lemma ValidateTextAntitone(text: Value, m: int, n: int)
    requires m <= n && ValidateText(text, n)
    ensures ValidateText(text, m)
  {
  }

  /** The keyword loop every analyzer runs:
      `for word in words: if word in text: score += points`. */
  method AddKeywordPoints(score: real, text: string, words: seq<string>, points: real) returns (r: real)
    ensures r == score + points * CountIn(text, words) as real
  {
    r := score;
    for i := 0 to |words|
      invariant r == score + points * CountIn(text, words[..i]) as real
    {
      assert words[..i + 1][..i] == words[..i];
      if Contains(text, words[i]) {
        r := r + points;
      }
    }
    assert words[..|words|] == words;
  }

  /** How many entries of the word groups occur in `text`, over all groups. */
  function CountInGroups(text: string, groups: seq<seq<string>>): nat {
    if groups == [] then 0
    else CountInGroups(text, groups[..|groups| - 1]) + CountIn(text, groups[|groups| - 1])
  }

  /** The group count over one more group. */
  lemma CountInGroupsStep(text: string, groups: seq<seq<string>>, g: nat)
    requires g < |groups|
    ensures CountInGroups(text, groups[..g + 1]) == CountInGroups(text, groups[..g]) + CountIn(text, groups[g])
  {
    assert groups[..g + 1][..g] == groups[..g];
  }

  /** The nested keyword loop over the values of an indicator dict,
      `for group in groups: for word in group: if word in text: ...`, counting
      the occurring words. */
  method CountGroupWords(text: string, groups: seq<seq<string>>) returns (n: nat)
    ensures n == CountInGroups(text, groups)
  {
    n := 0;
    for g := 0 to |groups|
      invariant n == CountInGroups(text, groups[..g])
    {
      CountInGroupsStep(text, groups, g);
      ghost var before := n;
      var words := groups[g];
      for i := 0 to |words|
        invariant n == before + CountIn(text, words[..i])
      {
        assert words[..i + 1][..i] == words[..i];
        if Contains(text, words[i]) {
          n := n + 1;
        }
      }
      assert words[..|words|] == words;
    }
    assert groups[..|groups|] == groups;
  }

  /** The nested loop with `score += points` for every occurring word. */
  method AddGroupPoints(score: real, text: string, groups: seq<seq<string>>, points: real) returns (r: real)
    ensures r == score + points * CountInGroups(text, groups) as real
  {
    var n := CountGroupWords(text, groups);
    r := score + points * n as real;
  }
}
