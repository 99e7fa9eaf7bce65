/** The completeness report of the test-data script: each practice is checked
    against a fixed table of twelve field requirements, field by field, and
    the filled fields are counted. */
module TestData {
  import opened Wrappers
  import opened PyText
  import opened PyData

  /** The limits one field is held to; an absent limit is not checked. */
  datatype Requirement = Requirement(
    minLength: Option<int>,
    minItems: Option<int>,
    minDescriptionLength: Option<int>)

  function MinLength(n: int): Requirement { Requirement(Some(n), None, None) }
  function MinItems(n: int): Requirement { Requirement(None, Some(n), None) }

  /** `required_fields`, in declaration order. */
  function RequiredFields(): (fields: seq<(string, Requirement)>)
    ensures |fields| == 12
  {
    [ ("title", MinLength(10)),
      ("summary", MinLength(50)),
      ("problem", MinLength(50)),
      ("solution", MinLength(100)),
      ("domain", MinLength(3)),
      ("sub_domains", MinItems(2)),
      ("implementation_steps", Requirement(None, Some(3), Some(50))),
      ("implementation_requirements", MinItems(3)),
      ("benefits", MinItems(3)),
      ("limitations", MinItems(2)),
      ("estimated_resources", MinItems(2)),
      ("tags", MinItems(3)) ]
  }

  /** One problem found with a field. */
  datatype Issue =
    | Empty
    | TooShort(length: int, minLength: int)
    | TooFewItems(items: int, minItems: int)
    | ShortStepDescription(minLength: int)
  {
    /** The message the script records for this issue. */
    function Message(): string {
      match this
      case Empty => "Field is empty"
      case TooShort(n, m) => "Length " + IntToString(n) + " < " + IntToString(m)
      case TooFewItems(n, m) => "Items " + IntToString(n) + " < " + IntToString(m)
      case ShortStepDescription(m) => "Step description length < " + IntToString(m)
    }
  }

  /** The result of checking one field. */
  datatype FieldAnalysis = FieldAnalysis(filled: bool, issues: seq<Issue>)

  /** `isinstance(item, dict) and "description" in item` and its description's
      `str()` is shorter than `m`. */
  predicate ShortDescription(item: Value, m: int) {
    item.Dict? && Lookup(item.entries, "description").Some? &&
    |Render(Lookup(item.entries, "description").value)| < m
  }

  /** The step-description issues the loop over `items` records. */
  function StepIssues(items: seq<Value>, m: int): seq<Issue> {
    if items == [] then []
    else StepIssues(items[..|items| - 1], m) + (if ShortDescription(items[|items| - 1], m) then [ShortStepDescription(m)] else [])
  }

  /** How many items have a short description. */
  function CountShort(items: seq<Value>, m: int): (n: nat)
    ensures n <= |items|
  {
    if items == [] then 0
    else (if ShortDescription(items[0], m) then 1 else 0) + CountShort(items[1..], m)
  }

  function LengthIssues(value: Value, req: Requirement): seq<Issue> {
    if req.minLength.Some? && value.Str? && |value.s| < req.minLength.value
    then [TooShort(|value.s|, req.minLength.value)] else []
  }

  function ItemsIssues(value: Value, req: Requirement): seq<Issue> {
    if req.minItems.Some? && (value.List? || value.Dict?) && Size(value) < req.minItems.value
    then [TooFewItems(Size(value), req.minItems.value)] else []
  }

  function DescriptionIssues(value: Value, req: Requirement): seq<Issue> {
    if req.minDescriptionLength.Some? && value.List?
    then StepIssues(value.items, req.minDescriptionLength.value) else []
  }

  /** `analyze_field_quality(value, requirements)`; `Null` is Python's None. */
  function FieldQuality(value: Value, req: Requirement): FieldAnalysis {
    if value.Null? then FieldAnalysis(false, [Empty])
    else FieldAnalysis(true, LengthIssues(value, req) + ItemsIssues(value, req) + DescriptionIssues(value, req))
  }

  /** `analyze_field_quality`: the issues are appended one check at a time. */
  method AnalyzeFieldQuality(value: Value, req: Requirement) returns (r: FieldAnalysis)
    ensures r == FieldQuality(value, req)
  {
    var issues: seq<Issue> := [];
    if value.Null? {
      issues := issues + [Empty];
      return FieldAnalysis(false, issues);
    }
    if req.minLength.Some? {
      if value.Str? {
        var length := |value.s|;
        if length < req.minLength.value {
          issues := issues + [TooShort(length, req.minLength.value)];
        }
      }
    }
    if req.minItems.Some? {
      if value.List? || value.Dict? {
        var items := Size(value);
        if items < req.minItems.value {
          issues := issues + [TooFewItems(items, req.minItems.value)];
        }
      }
    }
    ghost var before := issues;
    if req.minDescriptionLength.Some? && value.List? {
      var m := req.minDescriptionLength.value;
      var i := 0;
      while i < |value.items|
        invariant 0 <= i <= |value.items|
        invariant issues == before + StepIssues(value.items[..i], m)
      {
        var item := value.items[i];
        assert value.items[..i + 1][..i] == value.items[..i];
        if item.Dict? && Lookup(item.entries, "description").Some? {
          if |Render(Lookup(item.entries, "description").value)| < m {
            issues := issues + [ShortStepDescription(m)];
          }
        }
        i := i + 1;
      }
      assert value.items[..i] == value.items;
    }
    r := FieldAnalysis(true, issues);
  }

  lemma {:induction false} StepIssuesCount(items: seq<Value>, m: int)
    ensures |StepIssues(items, m)| == CountShort(items, m)
    ensures forall k :: 0 <= k < |StepIssues(items, m)| ==> StepIssues(items, m)[k] == ShortStepDescription(m)
  {
    if items != [] {
      var n := |items| - 1;
      StepIssuesCount(items[..n], m);
      CountShortSplit(items[..n], [items[n]], m);
      assert items[..n] + [items[n]] == items;
    }
  }

  lemma {:induction false} CountShortSplit(a: seq<Value>, b: seq<Value>, m: int)
    ensures CountShort(a + b, m) == CountShort(a, m) + CountShort(b, m)
  {
    if a != [] {
      assert (a + b)[1..] == a[1..] + b;
      CountShortSplit(a[1..], b, m);
    } else {
      assert a + b == b;
    }
  }

  /** What `analyze_field_quality` promises about filling, length and item
      count: None is unfilled with exactly the "Field is empty" issue, and any
      other value, even an empty string or list, is filled; a length issue is
      raised only for a string shorter than the limit, an item-count issue only
      for a list or dict with too few items. */
  lemma FieldQualityMeaning(value: Value, req: Requirement)
    ensures var r := FieldQuality(value, req);
      && (r.filled <==> !value.Null?)
      && (value.Null? ==> r.issues == [Empty] && r.issues[0].Message() == "Field is empty")
      && (forall n, m :: TooShort(n, m) in r.issues <==>
            !value.Null? && req.minLength == Some(m) && value.Str? && n == |value.s| && n < m)
      && (forall n, m :: TooFewItems(n, m) in r.issues <==>
            !value.Null? && req.minItems == Some(m) && (value.List? || value.Dict?) && n == Size(value) && n < m)
  {
    if value.List? && req.minDescriptionLength.Some? {
      StepIssuesCount(value.items, req.minDescriptionLength.value);
    }
  }

  /** One description issue per dict item of a list whose description is too
      short; other values and other items add none. */
  lemma DescriptionIssuesMeaning(value: Value, req: Requirement)
    requires !value.Null?
    ensures var r := FieldQuality(value, req);
      && (forall m :: ShortStepDescription(m) in r.issues ==> req.minDescriptionLength == Some(m) && value.List?)
      && |DescriptionIssues(value, req)| ==
           (if req.minDescriptionLength.Some? && value.List?
            then CountShort(value.items, req.minDescriptionLength.value) else 0)
  {
    if value.List? && req.minDescriptionLength.Some? {
      StepIssuesCount(value.items, req.minDescriptionLength.value);
    }
    var r := FieldQuality(value, req);
    forall m | ShortStepDescription(m) in r.issues
      ensures req.minDescriptionLength == Some(m) && value.List?
    {
      var k :| 0 <= k < |r.issues| && r.issues[k] == ShortStepDescription(m);
      assert k >= |LengthIssues(value, req)| + |ItemsIssues(value, req)|;
    }
  }

  /** A filled field has no issue exactly when it meets every limit. */
  lemma FieldQualityClean(value: Value, req: Requirement)
    requires !value.Null?
    ensures FieldQuality(value, req).issues == [] <==>
      && !(req.minLength.Some? && value.Str? && |value.s| < req.minLength.value)
      && !(req.minItems.Some? && (value.List? || value.Dict?) && Size(value) < req.minItems.value)
      && !(req.minDescriptionLength.Some? && value.List? && CountShort(value.items, req.minDescriptionLength.value) > 0)
  {
    if value.List? && req.minDescriptionLength.Some? {
      StepIssuesCount(value.items, req.minDescriptionLength.value);
    }
  }

  /** The report for one practice. */
  datatype PracticeReport = PracticeReport(
    file: Value,
    title: Value,
    fieldsTotal: nat,
    fieldsFilled: nat,
    fieldsWithIssues: nat,
    fieldDetails: seq<(string, FieldAnalysis)>,
    completeness: real)

  /** `practice[key]` on a missing key. */
  datatype MissingKey = KeyError(key: string)

  /** The per-field analyses, in the order of `fields`. */
  function Details(practice: Record, fields: seq<(string, Requirement)>): (d: seq<(string, FieldAnalysis)>)
    ensures |d| == |fields|
    ensures forall k :: 0 <= k < |d| ==> d[k] == (fields[k].0, FieldQuality(Get(practice, fields[k].0, Null), fields[k].1))
  {
    seq(|fields|, k requires 0 <= k < |fields| => (fields[k].0, FieldQuality(Get(practice, fields[k].0, Null), fields[k].1)))
  }

  /** How many of the analyses are filled. */
  function FilledCount(details: seq<(string, FieldAnalysis)>): (n: nat)
    ensures n <= |details|
  {
    if details == [] then 0
    else FilledCount(details[..|details| - 1]) + (if details[|details| - 1].1.filled then 1 else 0)
  }

  /** The positions of the analyses with at least one issue. */
  function IssueIndices(details: seq<(string, FieldAnalysis)>): set<int> {
    set k | 0 <= k < |details| && details[k].1.issues != []
  }

  /** How many of the analyses have an issue. */
  function IssueCount(details: seq<(string, FieldAnalysis)>): (n: nat)
    ensures n <= |details|
  {
    if details == [] then 0
    else IssueCount(details[..|details| - 1]) + (if details[|details| - 1].1.issues != [] then 1 else 0)
  }

  /** `round(fields_filled / fields_total * 100, 1)`. */
  function Completeness(filled: nat, total: nat): real
    requires total > 0
  {
    Round(filled as real / total as real * 100.0, 1)
  }

  /** `analyze_practice(practice)`: a missing `_file_name` or `title` raises
      `KeyError`, the file name being looked up first. */
  function PracticeAnalysis(practice: Record): (r: Result<PracticeReport, MissingKey>)
    ensures r.Err? <==> "_file_name" !in practice || "title" !in practice
    ensures "_file_name" !in practice ==> r == Err(KeyError("_file_name"))
    ensures "_file_name" in practice && "title" !in practice ==> r == Err(KeyError("title"))
  {
    if "_file_name" !in practice then Err(KeyError("_file_name"))
    else if "title" !in practice then Err(KeyError("title"))
    else
      var details := Details(practice, RequiredFields());
      Ok(PracticeReport(practice["_file_name"], practice["title"], 12, FilledCount(details), IssueCount(details),
                        details, Completeness(FilledCount(details), 12)))
  }

  /** The details over one more field. */
  lemma DetailsStep(practice: Record, fields: seq<(string, Requirement)>, i: nat)
    requires i < |fields|
    ensures Details(practice, fields[..i + 1]) ==
      Details(practice, fields[..i]) + [(fields[i].0, FieldQuality(Get(practice, fields[i].0, Null), fields[i].1))]
  {
  }

  /** Both counters over one more analysis. */
  lemma CountsStep(details: seq<(string, FieldAnalysis)>, x: (string, FieldAnalysis))
    ensures FilledCount(details + [x]) == FilledCount(details) + (if x.1.filled then 1 else 0)
    ensures IssueCount(details + [x]) == IssueCount(details) + (if x.1.issues != [] then 1 else 0)
  {
    assert (details + [x])[..|details|] == details;
  }

  /** `analyze_practice`: the counters and the details are filled in a loop
      over the required fields. */
  method AnalyzePractice(practice: Record) returns (r: Result<PracticeReport, MissingKey>)
    ensures r == PracticeAnalysis(practice)
  {
    if "_file_name" !in practice {
      return Err(KeyError("_file_name"));
    }
    if "title" !in practice {
      return Err(KeyError("title"));
    }
    var fields := RequiredFields();
    var total := |fields|;
    var filled := 0;
    var withIssues := 0;
    var details: seq<(string, FieldAnalysis)> := [];
    for i := 0 to |fields|
      invariant details == Details(practice, fields[..i])
      invariant filled == FilledCount(details)
      invariant withIssues == IssueCount(details)
    {
      var (field, requirements) := fields[i];
      var analysis := AnalyzeFieldQuality(Get(practice, field, Null), requirements);
      DetailsStep(practice, fields, i);
      CountsStep(details, (field, analysis));
      details := details + [(field, analysis)];
      if analysis.filled {
        filled := filled + 1;
      }
      if analysis.issues != [] {
        withIssues := withIssues + 1;
      }
    }
    assert fields[..|fields|] == fields;
    r := Ok(PracticeReport(practice["_file_name"], practice["title"], total, filled, withIssues,
                           details, Completeness(filled, total)));
  }

  lemma {:induction false} FilledCountMeaning(practice: Record, fields: seq<(string, Requirement)>)
    ensures FilledCount(Details(practice, fields)) ==
      |fields| - UnfilledCount(practice, fields)
  {
    if fields != [] {
      var n := |fields| - 1;
      FilledCountMeaning(practice, fields[..n]);
      assert Details(practice, fields)[..n] == Details(practice, fields[..n]);
    }
  }

  /** How many fields are absent or None. */
  function UnfilledCount(practice: Record, fields: seq<(string, Requirement)>): (n: nat)
    ensures n <= |fields|
  {
    if fields == [] then 0
    else UnfilledCount(practice, fields[..|fields| - 1]) + (if Get(practice, fields[|fields| - 1].0, Null).Null? then 1 else 0)
  }

  /** Every unfilled field also has an issue, so the two counts cover all
      fields between them. */
  /** `fields_with_issues` counts exactly the fields whose issue list is not empty. */
  lemma {:induction false} IssueCountMeaning(details: seq<(string, FieldAnalysis)>)
    ensures IssueCount(details) == |IssueIndices(details)|
  {
    if details != [] {
      var n := |details| - 1;
      var init := details[..n];
      IssueCountMeaning(init);
      assert n !in IssueIndices(init);
      if details[n].1.issues != [] {
        assert IssueIndices(details) == IssueIndices(init) + {n};
      } else {
        assert IssueIndices(details) == IssueIndices(init);
      }
    }
  }

  lemma {:induction false} UnfilledHaveIssues(details: seq<(string, FieldAnalysis)>)
    requires forall k :: 0 <= k < |details| ==> details[k].1.filled || details[k].1.issues != []
    ensures FilledCount(details) + IssueCount(details) >= |details|
  {
    if details != [] {
      UnfilledHaveIssues(details[..|details| - 1]);
    }
  }

  /** What `analyze_practice` promises: twelve fields, reported in the order
      of `required_fields`, each with its own analysis; `fields_filled` is the
      number of fields present and not None, at most twelve;
      `fields_with_issues` is at most twelve and together with the filled
      count covers every field; `completeness` is the rounded percentage and
      lies in [0, 100]. */
  lemma PracticeAnalysisMeaning(practice: Record)
    requires "_file_name" in practice && "title" in practice
    ensures PracticeAnalysis(practice).Ok?
    ensures var rep := PracticeAnalysis(practice).value;
      && rep.file == practice["_file_name"] && rep.title == practice["title"]
      && rep.fieldsTotal == 12
      && Keys(rep.fieldDetails) == Keys(RequiredFields())
      && (forall k :: 0 <= k < 12 ==>
            rep.fieldDetails[k].1 == FieldQuality(Get(practice, RequiredFields()[k].0, Null), RequiredFields()[k].1))
      && rep.fieldsFilled == 12 - UnfilledCount(practice, RequiredFields())
      && rep.fieldsWithIssues == IssueCount(rep.fieldDetails)
      && rep.fieldsWithIssues == |IssueIndices(rep.fieldDetails)|
      && rep.fieldsFilled <= 12 && rep.fieldsWithIssues <= 12
      && rep.fieldsFilled + rep.fieldsWithIssues >= 12
      && rep.completeness == Round(rep.fieldsFilled as real / 12.0 * 100.0, 1)
      && 0.0 <= rep.completeness <= 100.0
  {
    var details := Details(practice, RequiredFields());
    FilledCountMeaning(practice, RequiredFields());
    forall k | 0 <= k < |details|
      ensures details[k].1.filled || details[k].1.issues != []
    {
    }
    UnfilledHaveIssues(details);
    IssueCountMeaning(details);
    var filled := FilledCount(details);
    assert 0.0 <= filled as real / 12.0 * 100.0 <= 100.0;
    RoundWithin(filled as real / 12.0 * 100.0, 1, 0, 100);
  }
}
