/** The records of the pitches application: pitches and their version
    links, per-dimension score rows, and templates. Pitch ids are handed out
    in creation order, so the table's default ordering (newest first) is
    descending id. */
module PitchModels {
  import opened Common
  import opened Calendar

  datatype PitchType = Initial | FollowUp | ProductDemo | Renewal | RefinedType | Final | AbVariant {
    function Code(): string {
      match this
      case Initial => "initial"
      case FollowUp => "follow_up"
      case ProductDemo => "product_demo"
      case Renewal => "renewal"
      case RefinedType => "refined"
      case Final => "final"
      case AbVariant => "ab_variant"
    }
    function Label(): string {
      match this
      case Initial => "Initial"
      case FollowUp => "Follow-up"
      case ProductDemo => "Product Demo"
      case Renewal => "Renewal"
      case RefinedType => "Refined"
      case Final => "Final"
      case AbVariant => "A/B Variant"
    }
  }

  datatype PitchStatus = Draft | Generated | Scored | Refined | Approved | SentOut {
    function Code(): string {
      match this
      case Draft => "draft"
      case Generated => "generated"
      case Scored => "scored"
      case Refined => "refined"
      case Approved => "approved"
      case SentOut => "sent"
    }
    function Label(): string {
      match this
      case Draft => "Draft"
      case Generated => "Generated"
      case Scored => "Scored"
      case Refined => "Refined"
      case Approved => "Approved"
      case SentOut => "Sent"
    }
  }

  datatype Tone = Professional | Casual | Friendly | Urgent | Consultative {
    function Code(): string {
      match this
      case Professional => "professional"
      case Casual => "casual"
      case Friendly => "friendly"
      case Urgent => "urgent"
      case Consultative => "consultative"
    }
    function Label(): string {
      match this
      case Professional => "Professional"
      case Casual => "Casual"
      case Friendly => "Friendly"
      case Urgent => "Urgent"
      case Consultative => "Consultative"
    }
  }

  /** A pitch; `parent` is the version it was refined from and `scores` maps
      each scoring dimension to the value the scorer gave. */
  datatype Pitch = Pitch(
    id: nat, customer: nat, title: string, content: string,
    pitchType: PitchType, version: int, status: PitchStatus,
    scores: Fields, feedback: string, parent: Option<nat>, campaign: Option<nat>,
    metadata: Fields, generatedBy: string, tone: Tone, language: string, isActive: bool,
    createdAt: Instant)

  /** `title = CharField(max_length=500)`: PostgreSQL refuses a longer
      value with a DataError when the row is written. */
  const TitleMax: nat := 500

  /** `dimension = CharField(max_length=50)` of the score table. */
  const DimensionMax: nat := 50

  /** `Pitch.objects.create` with only the required columns given: every other
      column takes its declared default. */
  function NewPitch(id: nat, customer: nat, title: string, content: string, now: Instant): (p: Pitch)
    ensures p.id == id && p.createdAt == now && p.customer == customer && p.title == title && p.content == content
    ensures p.pitchType == Initial && p.version == 1 && p.status == Draft && p.tone == Professional
    ensures p.scores == [] && p.feedback == "" && p.parent.None? && p.campaign.None?
    ensures p.metadata == [] && p.generatedBy == "" && p.language == "en" && p.isActive
  {
    Pitch(id, customer, title, content, Initial, 1, Draft, [], "", None, None, [], "",
          Professional, "en", true, now)
  }

  /** The values an `isinstance(v, (int, float))` test accepts, as numbers;
      Python booleans are integers. */
  function NumericValue(v: Json): Option<real> {
    match v
    case JNum(n) => Some(n)
    case JBool(b) => Some(if b then 1.0 else 0.0)
    case _ => None
  }

  /** The numeric score values, in order. */
  function NumericValues(scores: Fields): seq<real> {
    if scores == [] then []
    else
      var rest := NumericValues(scores[1..]);
      match NumericValue(scores[0].1)
      case Some(x) => [x] + rest
      case None => rest
  }

  /** The values kept are exactly the numeric ones; none are kept exactly
      when no score is numeric. */
  lemma {:induction false} NumericValuesSpec(scores: Fields)
    ensures forall x :: x in NumericValues(scores) <==>
              exists i :: 0 <= i < |scores| && NumericValue(scores[i].1) == Some(x)
    ensures NumericValues(scores) == [] <==> forall i :: 0 <= i < |scores| ==> NumericValue(scores[i].1).None?
  {
    if scores != [] {
      NumericValuesSpec(scores[1..]);
      assert forall i :: 1 <= i < |scores| ==> scores[i] == scores[1..][i - 1];
      forall x | exists i :: 0 <= i < |scores| && NumericValue(scores[i].1) == Some(x)
        ensures x in NumericValues(scores)
      {
        var i :| 0 <= i < |scores| && NumericValue(scores[i].1) == Some(x);
        if i > 0 {
          assert NumericValue(scores[1..][i - 1].1) == Some(x);
        }
      }
    }
  }

  /** `Pitch.average_score`: the mean of the numeric score values, or none
      when there is no score or no numeric one. The mean lies between the
      least and the greatest numeric value. */
  function AverageScore(scores: Fields): Option<real> {
    if scores == [] then None
    else
      var values := NumericValues(scores);
      if values == [] then None
      else Some(Mean(values))
  }

  /** There is an average exactly when some score is numeric, and it is
      attained from below and from above by numeric scores. */
  lemma AverageScoreSpec(scores: Fields)
    ensures AverageScore(scores).None? <==> forall i :: 0 <= i < |scores| ==> NumericValue(scores[i].1).None?
    ensures AverageScore(scores).Some? ==>
      exists i :: 0 <= i < |scores| && NumericValue(scores[i].1).Some?
                  && NumericValue(scores[i].1).value <= AverageScore(scores).value
    ensures AverageScore(scores).Some? ==>
      exists i :: 0 <= i < |scores| && NumericValue(scores[i].1).Some?
                  && AverageScore(scores).value <= NumericValue(scores[i].1).value
  {
    NumericValuesSpec(scores);
    var values := NumericValues(scores);
    if values != [] {
      MeanWithin(values);
      assert MinOf(values) in values && MaxOf(values) in values;
    }
  }

  /** When every numeric score lies in [lo, hi], so does the average. */
  lemma AverageWithin(scores: Fields, lo: real, hi: real)
    requires forall i :: 0 <= i < |scores| && NumericValue(scores[i].1).Some? ==>
               lo <= NumericValue(scores[i].1).value <= hi
    ensures AverageScore(scores).Some? ==> lo <= AverageScore(scores).value <= hi
  {
    AverageScoreSpec(scores);
  }

  /** One row of the score table: a dimension scored by one scorer. */
  datatype PitchScore = PitchScore(
    pitch: nat, dimension: string, score: real, explanation: string, scoredBy: string)

  /** The columns of the table's unique constraint. */
  function ScoreKey(s: PitchScore): (nat, string, string) {
    (s.pitch, s.dimension, s.scoredBy)
  }

  datatype PitchTemplate = PitchTemplate(
    id: nat, name: string, templateContent: string, pitchType: PitchType, variables: Json,
    usageCount: int, isActive: bool)
}
