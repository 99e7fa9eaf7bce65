/** The practice-type classifier (validator_service/analyzers/practice_classifier.py):
    a first-match keyword test over the lower-cased solution and summary. */
module Classifier {
  import opened PyText
  import opened PyData

  datatype PracticeType = Scientific | Engineering | Process | Management {
    /** The enum member's value. */
    function Name(): string {
      match this
      case Scientific => "scientific"
      case Engineering => "engineering"
      case Process => "process"
      case Management => "management"
    }
  }

  /** The four enum values are distinct, so the value names the practice type. */
  lemma NamesDistinct(t1: PracticeType, t2: PracticeType)
    ensures t1.Name() == t2.Name() <==> t1 == t2
  {
  }

  const ScientificIndicators: seq<string> :=
    ["doi:", "p-value", "statistical", "empirical", "hypothesis", "experiment", "research"]

  const EngineeringIndicators: seq<string> :=
    ["algorithm", "implementation", "code", "architecture", "system", "technical", "software", "development"]

  const ProcessIndicators: seq<string> :=
    ["process", "workflow", "methodology", "practice", "review", "agile", "scrum", "devops"]

  /** The text the classifier searches: solution and summary, lower-cased. */
  function ClassifierText(data: Record): string {
    Lower(FieldText(data, "solution") + " " + FieldText(data, "summary"))
  }

  /** `PracticeClassifier.classify`: the groups are tried in the fixed order
      scientific, engineering, process, and the first group with an indicator
      in the text wins; a text with none is a management practice. */
  function Classify(data: Record): (t: PracticeType)
    ensures t == Scientific <==> AnyIn(ClassifierText(data), ScientificIndicators)
    ensures t == Engineering <==>
      !AnyIn(ClassifierText(data), ScientificIndicators) && AnyIn(ClassifierText(data), EngineeringIndicators)
    ensures t == Process <==>
      !AnyIn(ClassifierText(data), ScientificIndicators) && !AnyIn(ClassifierText(data), EngineeringIndicators) &&
      AnyIn(ClassifierText(data), ProcessIndicators)
  {
    var text := ClassifierText(data);
    if AnyIn(text, ScientificIndicators) then Scientific
    else if AnyIn(text, EngineeringIndicators) then Engineering
    else if AnyIn(text, ProcessIndicators) then Process
    else Management
  }

  /** Management is the fallback: it is chosen exactly when no indicator of
      any group occurs. */
  lemma ManagementIffNoIndicator(data: Record)
    ensures Classify(data) == Management <==>
      !AnyIn(ClassifierText(data), ScientificIndicators + EngineeringIndicators + ProcessIndicators)
  {
    var text := ClassifierText(data);
    AnyInConcat(text, ScientificIndicators, EngineeringIndicators);
    AnyInConcat(text, ScientificIndicators + EngineeringIndicators, ProcessIndicators);
  }

  /** Only the solution and summary are read, and only after lower-casing: two
      records whose solution and summary agree up to letter case get the same
      type, whatever else they hold. */
  lemma ClassifyIgnoresCase(d1: Record, d2: Record)
    requires Lower(FieldText(d1, "solution")) == Lower(FieldText(d2, "solution"))
    requires Lower(FieldText(d1, "summary")) == Lower(FieldText(d2, "summary"))
    ensures Classify(d1) == Classify(d2)
  {
    LowerConcat(FieldText(d1, "solution"), " " + FieldText(d1, "summary"));
    LowerConcat(" ", FieldText(d1, "summary"));
    LowerConcat(FieldText(d2, "solution"), " " + FieldText(d2, "summary"));
    LowerConcat(" ", FieldText(d2, "summary"));
    assert FieldText(d1, "solution") + " " + FieldText(d1, "summary") ==
      FieldText(d1, "solution") + (" " + FieldText(d1, "summary"));
    assert FieldText(d2, "solution") + " " + FieldText(d2, "summary") ==
      FieldText(d2, "solution") + (" " + FieldText(d2, "summary"));
    assert ClassifierText(d1) == ClassifierText(d2);
  }
}
