// The medical assessment record (app/models/medical.py): its enumerations,
// the `split_string` coercion of list fields and the construction of a
// `MedicalAssessment` from decoded JSON, with its required fields and
// defaults.

module Medical {
  import opened Wrappers
  import opened Text
  import opened Json

  datatype Urgency = Low | Medium | High | Critical

  function UrgencyName(u: Urgency): string
  {
    match u
    case Low => "Low"
    case Medium => "Medium"
    case High => "High"
    case Critical => "Critical"
  }

  /** The `Literal["Low", "Medium", "High", "Critical"]` check. */
  function ParseUrgency(s: string): (r: Option<Urgency>)
    ensures r.Some? <==> s in {"Low", "Medium", "High", "Critical"}
    ensures r.Some? ==> UrgencyName(r.value) == s
  {
    if s == "Low" then Some(Low)
    else if s == "Medium" then Some(Medium)
    else if s == "High" then Some(High)
    else if s == "Critical" then Some(Critical)
    else None
  }

  lemma UrgencyRoundTrip(u: Urgency)
    ensures ParseUrgency(UrgencyName(u)) == Some(u)
  {
    match u
    case Low =>
    case Medium =>
    case High =>
    case Critical =>
  }

  /** What the voice front end does next. */
  datatype NextAction = Ask | Validate | Summary | Complete

  function NextActionName(a: NextAction): string
  {
    match a
    case Ask => "ask"
    case Validate => "validate"
    case Summary => "summary"
    case Complete => "complete"
  }

  /** The `Literal["ask", "validate", "summary", "complete"]` check. */
  function ParseNextAction(s: string): (r: Option<NextAction>)
    ensures r.Some? <==> s in {"ask", "validate", "summary", "complete"}
    ensures r.Some? ==> NextActionName(r.value) == s
  {
    if s == "ask" then Some(Ask)
    else if s == "validate" then Some(Validate)
    else if s == "summary" then Some(Summary)
    else if s == "complete" then Some(Complete)
    else None
  }

  lemma NextActionRoundTrip(a: NextAction)
    ensures ParseNextAction(NextActionName(a)) == Some(a)
  {
    match a
    case Ask =>
    case Validate =>
    case Summary =>
    case Complete =>
  }

  const DefaultDisclaimer :=
    "This is an AI-generated assessment and not a substitute for professional medical advice. Please consult a doctor."

  /** The text of `v.replace('*', '').replace('-', '')`. */
  function Unbulleted(v: string): string
  {
    RemoveChar(RemoveChar(v, '*'), '-')
  }

  /** `[x.strip() for x in parts if x.strip()]`. */
  function StrippedNonBlank(parts: seq<string>): (r: seq<string>)
    ensures |r| <= |parts|
  {
    if parts == [] then []
    else
      var x := Strip(parts[0]);
      (if x != [] then [x] else []) + StrippedNonBlank(parts[1..])
  }

  /** `split_string` on a string value. */
  function SplitItems(v: string): seq<string>
  {
    StrippedNonBlank(Split(Unbulleted(v), ','))
  }

  /** A clean list item: non-empty, no surrounding whitespace, no ',', '*' or '-'. */
  predicate CleanItem(x: string)
  {
    && x != []
    && !IsSpace(x[0]) && !IsSpace(x[|x| - 1])
    && ',' !in x && '*' !in x && '-' !in x
  }

  /** Stripping and dropping blanks leaves only clean items when the parts
    * hold none of the three characters. */
  lemma {:induction false} StrippedClean(parts: seq<string>)
    requires forall k :: 0 <= k < |parts| ==> ',' !in parts[k] && '*' !in parts[k] && '-' !in parts[k]
    ensures forall i :: 0 <= i < |StrippedNonBlank(parts)| ==> CleanItem(StrippedNonBlank(parts)[i])
  {
    if parts != [] {
      StrippedClean(parts[1..]);
      StripChars(parts[0]);
    }
  }

  /** Every item `split_string` produces is clean. */
  lemma SplitItemsClean(v: string)
    ensures forall i :: 0 <= i < |SplitItems(v)| ==> CleanItem(SplitItems(v)[i])
  {
    var u := Unbulleted(v);
    assert '*' !in u && '-' !in u by {
      assert forall d :: d in u ==> d in RemoveChar(v, '*');
    }
    var parts := Split(u, ',');
    forall k | 0 <= k < |parts|
      ensures ',' !in parts[k] && '*' !in parts[k] && '-' !in parts[k]
    {
      JoinSplit(u, ',');
      PartChars(parts, ',', k);
    }
    StrippedClean(parts);
  }

  /** Every character of a part is a character of the joined text. */
  lemma {:induction false} PartChars(parts: seq<string>, c: char, k: int)
    requires 0 <= k < |parts|
    ensures forall d :: d in parts[k] ==> d in Join(parts, c)
  {
    if |parts| > 1 && k > 0 {
      PartChars(parts[1..], c, k - 1);
    }
  }

  /** Clean items survive stripping and filtering unchanged. */
  lemma {:induction false} StrippedKeepsClean(items: seq<string>)
    requires forall i :: 0 <= i < |items| ==> CleanItem(items[i])
    ensures StrippedNonBlank(items) == items
  {
    if items != [] {
      StripTrimmed(items[0]);
      StrippedKeepsClean(items[1..]);
      assert [items[0]] + items[1..] == items;
    }
  }

  /** `split_string` undoes a comma join of clean items. */
  lemma SplitItemsJoin(items: seq<string>)
    requires |items| >= 1
    requires forall i :: 0 <= i < |items| ==> CleanItem(items[i])
    ensures SplitItems(Join(items, ',')) == items
  {
    var text := Join(items, ',');
    forall d | d in text ensures d != '*' && d != '-' {
      JoinChars(items, ',', d);
    }
    RemoveCharAbsent(text, '*');
    RemoveCharAbsent(text, '-');
    SplitJoin(items, ',');
    StrippedKeepsClean(items);
  }

  /** A character of a join is the separator or comes from a part. */
  lemma {:induction false} JoinChars(parts: seq<string>, c: char, d: char)
    requires d in Join(parts, c)
    ensures d == c || exists k :: 0 <= k < |parts| && d in parts[k]
  {
    if |parts| > 1 {
      var rest := Join(parts[1..], c);
      if d in rest {
        JoinChars(parts[1..], c, d);
        if d != c {
          var k :| 0 <= k < |parts[1..]| && d in parts[1..][k];
          assert d in parts[k + 1];
        }
      } else {
        assert d in parts[0] || d == c;
      }
    } else {
      assert d in parts[0];
    }
  }

  /** The `mode='before'` validator: a string becomes its split list; any
    * other value, a list included, is passed on unchanged. */
  function SplitString(v: Json): (r: Json)
    ensures !v.JStr? ==> r == v
    ensures v.JStr? ==> r == Strings(SplitItems(v.s))
  {
    if v.JStr? then Strings(SplitItems(v.s)) else v
  }

  /** The fields the coercion applies to. */
  const ListFields: set<string> :=
    {"possible_conditions", "suggested_tests", "precautions", "lifestyle_recommendations", "follow_up_steps"}

  /** Fields without a default. */
  const RequiredFields: set<string> :=
    {"urgency_level", "possible_conditions", "suggested_tests", "recommended_specialist", "explanation",
     "avatar_message", "doctor_advice", "precautions", "lifestyle_recommendations", "follow_up_steps"}

  datatype MedicalAssessment = MedicalAssessment(
    urgencyLevel: Urgency,
    possibleConditions: seq<string>,
    suggestedTests: seq<string>,
    recommendedSpecialist: string,
    explanation: string,
    disclaimer: string,
    avatarMessage: string,
    doctorAdvice: string,
    precautions: seq<string>,
    lifestyleRecommendations: seq<string>,
    followUpSteps: seq<string>,
    emergencyWarning: string)

  /** The value of the list field named `k`. */
  function ListValue(a: MedicalAssessment, k: string): seq<string>
  {
    if k == "possible_conditions" then a.possibleConditions
    else if k == "suggested_tests" then a.suggestedTests
    else if k == "precautions" then a.precautions
    else if k == "lifestyle_recommendations" then a.lifestyleRecommendations
    else a.followUpSteps
  }

  /** A `List[str]` field: an array whose elements are all strings. */
  function StringList(v: Json): (r: Option<seq<string>>)
    ensures r.Some? <==> v.JArr? && forall i :: 0 <= i < |v.items| ==> v.items[i].JStr?
    ensures r.Some? ==> |r.value| == |v.items| && forall i :: 0 <= i < |v.items| ==> v.items[i] == JStr(r.value[i])
  {
    if v.JArr? && forall i :: 0 <= i < |v.items| ==> v.items[i].JStr? then
      Some(seq(|v.items|, i requires 0 <= i < |v.items| && v.items[i].JStr? => v.items[i].s))
    else None
  }

  /** A list field after coercion, or None when it is missing or invalid. */
  function ListField(fields: map<string, Json>, key: string): Option<seq<string>>
  {
    if key in fields then StringList(SplitString(fields[key])) else None
  }

  /** A `str` field, falling back to `default` when absent. */
  function TextField(fields: map<string, Json>, key: string, default: Option<string>): Option<string>
  {
    if key !in fields then default
    else if fields[key].JStr? then Some(fields[key].s)
    else None
  }

  /** `MedicalAssessment(**fields)`: None where pydantic raises a
    * validation error. */
  function Assessment(fields: map<string, Json>): (r: Option<MedicalAssessment>)
    ensures r.Some? ==> RequiredFields <= fields.Keys
    ensures r.Some? && "disclaimer" !in fields ==> r.value.disclaimer == DefaultDisclaimer
    ensures r.Some? && "emergency_warning" !in fields ==> r.value.emergencyWarning == ""
    ensures r.Some? ==> fields["urgency_level"] == JStr(UrgencyName(r.value.urgencyLevel))
    ensures r.Some? ==> fields["explanation"] == JStr(r.value.explanation)
  {
    var urgency := TextField(fields, "urgency_level", None);
    var level := if urgency.Some? then ParseUrgency(urgency.value) else None;
    var conditions := ListField(fields, "possible_conditions");
    var tests := ListField(fields, "suggested_tests");
    var specialist := TextField(fields, "recommended_specialist", None);
    var explanation := TextField(fields, "explanation", None);
    var disclaimer := TextField(fields, "disclaimer", Some(DefaultDisclaimer));
    var avatar := TextField(fields, "avatar_message", None);
    var advice := TextField(fields, "doctor_advice", None);
    var precautions := ListField(fields, "precautions");
    var lifestyle := ListField(fields, "lifestyle_recommendations");
    var followUp := ListField(fields, "follow_up_steps");
    var warning := TextField(fields, "emergency_warning", Some(""));
    if level.Some? && conditions.Some? && tests.Some? && specialist.Some? && explanation.Some?
       && disclaimer.Some? && avatar.Some? && advice.Some? && precautions.Some? && lifestyle.Some?
       && followUp.Some? && warning.Some?
    then
      Some(MedicalAssessment(level.value, conditions.value, tests.value, specialist.value, explanation.value,
        disclaimer.value, avatar.value, advice.value, precautions.value, lifestyle.value, followUp.value,
        warning.value))
    else None
  }

  /** A string given for any of the five list fields is split into items;
    * a string given for a text field is kept whole. */
  lemma ListFieldsCoerced(fields: map<string, Json>, k: string)
    requires Assessment(fields).Some?
    requires k in ListFields && fields[k].JStr?
    ensures ListValue(Assessment(fields).value, k) == SplitItems(fields[k].s)
  {
    StringsRead(SplitItems(fields[k].s));
    assert ListField(fields, k) == Some(SplitItems(fields[k].s));
  }

  /** `model_dump()`: the assessment as JSON fields. */
  function Dump(a: MedicalAssessment): map<string, Json>
  {
    map[
      "urgency_level" := JStr(UrgencyName(a.urgencyLevel)),
      "possible_conditions" := Strings(a.possibleConditions),
      "suggested_tests" := Strings(a.suggestedTests),
      "recommended_specialist" := JStr(a.recommendedSpecialist),
      "explanation" := JStr(a.explanation),
      "disclaimer" := JStr(a.disclaimer),
      "avatar_message" := JStr(a.avatarMessage),
      "doctor_advice" := JStr(a.doctorAdvice),
      "precautions" := Strings(a.precautions),
      "lifestyle_recommendations" := Strings(a.lifestyleRecommendations),
      "follow_up_steps" := Strings(a.followUpSteps),
      "emergency_warning" := JStr(a.emergencyWarning)]
  }

  /** A list of strings read back as a list field is itself. */
  lemma StringsRead(items: seq<string>)
    ensures StringList(Strings(items)) == Some(items)
    ensures StringList(SplitString(Strings(items))) == Some(items)
  {
    var r := StringList(Strings(items));
    assert r.Some?;
    assert r.value == items;
  }

  /** Validating a dumped assessment gives the assessment back. */
  lemma DumpRoundTrip(a: MedicalAssessment)
    ensures Assessment(Dump(a)) == Some(a)
  {
    ReadBack(Dump(a), a);
  }

  /** Fields holding an assessment's values, as `model_dump` writes them, validate to it. */
  lemma ReadBack(fields: map<string, Json>, a: MedicalAssessment)
    requires "urgency_level" in fields && fields["urgency_level"] == JStr(UrgencyName(a.urgencyLevel))
    requires "possible_conditions" in fields && fields["possible_conditions"] == Strings(a.possibleConditions)
    requires "suggested_tests" in fields && fields["suggested_tests"] == Strings(a.suggestedTests)
    requires "recommended_specialist" in fields && fields["recommended_specialist"] == JStr(a.recommendedSpecialist)
    requires "explanation" in fields && fields["explanation"] == JStr(a.explanation)
    requires "disclaimer" in fields && fields["disclaimer"] == JStr(a.disclaimer)
    requires "avatar_message" in fields && fields["avatar_message"] == JStr(a.avatarMessage)
    requires "doctor_advice" in fields && fields["doctor_advice"] == JStr(a.doctorAdvice)
    requires "precautions" in fields && fields["precautions"] == Strings(a.precautions)
    requires "lifestyle_recommendations" in fields && fields["lifestyle_recommendations"] == Strings(a.lifestyleRecommendations)
    requires "follow_up_steps" in fields && fields["follow_up_steps"] == Strings(a.followUpSteps)
    requires "emergency_warning" in fields && fields["emergency_warning"] == JStr(a.emergencyWarning)
    ensures Assessment(fields) == Some(a)
  {
    UrgencyRoundTrip(a.urgencyLevel);
    StringsRead(a.possibleConditions);
    StringsRead(a.suggestedTests);
    StringsRead(a.precautions);
    StringsRead(a.lifestyleRecommendations);
    StringsRead(a.followUpSteps);
  }
}
