// The JSON intake endpoint (app/api/routes/json_intake.py): specialist
// assignment, the next-question decision tree, one request step of the
// handler (validate, merge, complete) and the post-processing of the
// generated report.

module JsonIntake {
  import opened Wrappers
  import opened Text
  import opened Numbers
  import opened Json
  import Validator
  import QuestionBank
  import Groq
  import Calendar

  /** The collected answers; only string values are modelled. */
  type Record = map<string, string>

  /** `not collected_data.get(k)`: absent or empty. */
  predicate Missing(r: Record, k: string)
  {
    k !in r || r[k] == ""
  }

  /** `collected_data.get(k, default)`. */
  function Field(r: Record, k: string, default: string): string
  {
    if k in r then r[k] else default
  }

  // ---------------------------------------------------------------------
  // Response field types

  datatype IntakeFieldType = Text | Number | Date | Options | Payment

  function FieldTypeName(t: IntakeFieldType): string
  {
    match t
    case Text => "text"
    case Number => "number"
    case Date => "date"
    case Options => "options"
    case Payment => "payment"
  }

  /** The enum check pydantic applies to `expected_type`. */
  function ParseFieldType(s: string): (r: Option<IntakeFieldType>)
    ensures r.Some? <==> s in {"text", "number", "date", "options", "payment"}
    ensures r.Some? ==> FieldTypeName(r.value) == s
  {
    if s == "text" then Some(Text)
    else if s == "number" then Some(Number)
    else if s == "date" then Some(Date)
    else if s == "options" then Some(Options)
    else if s == "payment" then Some(Payment)
    else None
  }

  // ---------------------------------------------------------------------
  // Specialist assignment

  const GeneralPhysician := "Dr. Arun Kumar (General Physician)"

  /** Keyword groups in priority order with the doctor each one selects. */
  const DoctorGroups: seq<(seq<string>, string)> := [
    (["chest", "heart", "palpitation", "breath", "breathing"], "Dr. Aditi Sharma (Cardiologist)"),
    (["skin", "rash", "itch", "acne", "allergy"], "Dr. Rajesh Gupta (Dermatologist)"),
    (["child", "baby", "infant", "kid", "fever in child"], "Dr. Sneha Patil (Pediatrician)"),
    (["sugar", "diabetes", "thyroid", "weight gain", "fatigue"], "Dr. Meera Rao (Endocrinologist)"),
    (["bone", "joint", "knee", "back pain", "spine", "fracture"], "Dr. Sanjay Mehta (Orthopedic)"),
    (["stomach", "abdomen", "digestion", "vomiting", "diarrhea", "nausea"], "Dr. Priya Nair (Gastroenterologist)"),
    (["headache", "migraine", "brain", "nerves", "seizure", "memory"], "Dr. Kiran Kumar (Neurologist)"),
    (["eye", "vision", "blur", "sight"], "Dr. Ananya Joshi (Ophthalmologist)"),
    (["ear", "nose", "throat", "ent", "hearing", "tonsil"], "Dr. Ravi Verma (ENT Specialist)")
  ]

  /** Every label the assignment can produce. */
  function DoctorLabels(): (r: set<string>)
    ensures GeneralPhysician in r
    ensures forall i :: 0 <= i < |DoctorGroups| ==> DoctorGroups[i].1 in r
  {
    (set i | 0 <= i < |DoctorGroups| :: DoctorGroups[i].1) + {GeneralPhysician}
  }

  /** The label of the first group with a keyword in `text`, else `default`. */
  function FirstMatch(groups: seq<(seq<string>, string)>, text: string, default: string): (r: string)
    ensures r == default || exists i :: 0 <= i < |groups| && r == groups[i].1
  {
    if groups == [] then default
    else if ContainsAny(text, groups[0].0) then groups[0].1
    else FirstMatch(groups[1..], text, default)
  }

  /** `_assign_doctor`. */
  function AssignDoctor(symptoms: string): (r: string)
    ensures r in DoctorLabels()
  {
    FirstMatch(DoctorGroups, Lower(symptoms), GeneralPhysician)
  }

  /** Index of the first group with a keyword in `text`, or |groups|. */
  function FirstHit(groups: seq<(seq<string>, string)>, text: string): (i: nat)
    ensures i <= |groups|
    ensures forall j :: 0 <= j < i ==> !ContainsAny(text, groups[j].0)
    ensures i < |groups| ==> ContainsAny(text, groups[i].0)
  {
    if groups == [] then 0
    else if ContainsAny(text, groups[0].0) then 0
    else 1 + FirstHit(groups[1..], text)
  }

  lemma FirstMatchPeel(groups: seq<(seq<string>, string)>, text: string, default: string, i: nat)
    requires i < |groups|
    ensures FirstMatch(groups[i..], text, default) ==
              if ContainsAny(text, groups[i].0) then groups[i].1 else FirstMatch(groups[i + 1..], text, default)
  {
    assert groups[i..][1..] == groups[i + 1..];
  }

  /** The first matching group wins; with no match the default is taken. */
  lemma {:induction false} FirstGroupWins(groups: seq<(seq<string>, string)>, text: string, default: string)
    ensures FirstHit(groups, text) < |groups| ==> FirstMatch(groups, text, default) == groups[FirstHit(groups, text)].1
    ensures FirstHit(groups, text) == |groups| ==> FirstMatch(groups, text, default) == default
  {
    if groups != [] && !ContainsAny(text, groups[0].0) {
      FirstGroupWins(groups[1..], text, default);
    }
  }

  /** `_assign_doctor` picks the first group, in the declared order, with a
    * keyword in the lower-cased symptoms, and the general physician when
    * none matches. */
  lemma AssignDoctorPriority(symptoms: string)
    ensures var i := FirstHit(DoctorGroups, Lower(symptoms));
            && (forall j :: 0 <= j < i ==> !ContainsAny(Lower(symptoms), DoctorGroups[j].0))
            && (i < |DoctorGroups| ==> ContainsAny(Lower(symptoms), DoctorGroups[i].0) &&
                                       AssignDoctor(symptoms) == DoctorGroups[i].1)
            && (i == |DoctorGroups| ==> AssignDoctor(symptoms) == GeneralPhysician)
  {
    FirstGroupWins(DoctorGroups, Lower(symptoms), GeneralPhysician);
  }

  /** Empty symptoms give the general physician. */
  lemma AssignDoctorEmpty()
    ensures AssignDoctor("") == GeneralPhysician
  {
    forall i | 0 <= i < |DoctorGroups| ensures !ContainsAny("", DoctorGroups[i].0) {
      forall k | k in DoctorGroups[i].0 ensures !Contains("", k) {
        NothingInEmpty(k);
      }
    }
    FirstGroupWins(DoctorGroups, "", GeneralPhysician);
  }

  // ---------------------------------------------------------------------
  // Next-question decision tree

  /** The next question: the response field, the catalogue key and format
    * arguments of its text, its input type and choices; or completion. */
  datatype Step =
    | Ask(fieldKey: string, templateKey: string, args: map<string, string>,
          expectedType: IntakeFieldType, options: Option<seq<string>>)
    | Done

  const RelationOptions: seq<string> := ["Self", "Parent", "Child", "Other"]
  const GenderOptions: seq<string> := ["Male", "Female", "Other"]
  const HistoryOptions: seq<string> := ["Yes", "No", "Don't Know"]
  const DoctorOptions: seq<string> := ["Yes, proceed", "Choose another time"]
  const SlotOptions: seq<string> := ["Morning (9 AM – 12 PM)", "Afternoon (1 PM – 4 PM)", "Evening (5 PM – 8 PM)"]

  /** `name.split()[0] if name else "there"` for the stripped name. */
  function CallingName(r: Record): string
  {
    var name := Strip(Field(r, "name", ""));
    if name != "" then FirstWord(name) else "there"
  }

  /** `"_self"` for the patient themself, `"_other"` otherwise. */
  function Suffix(r: Record): string
  {
    if Field(r, "patient_relation", "Self") == "Self" then "_self" else "_other"
  }

  /** The age as `int()` reads it after dropping "years" and "yrs"; 25 when
    * it does not parse. */
  function AgeValue(r: Record): int
  {
    var text := Strip(ReplaceAll(ReplaceAll(Lower(Field(r, "age", "0")), "years", ""), "yrs", ""));
    ParseInt(text).GetOr(25)
  }

  predicate IsFemale(r: Record)
  {
    var g := Lower(Field(r, "gender", ""));
    Contains(g, "female") || Contains(g, "woman")
  }

  predicate IsChild(r: Record)
  {
    AgeValue(r) < 12
  }

  /** What the decision tree derives from the record besides which fields
    * are missing: whether the patient is a child or a woman, the key
    * suffix, the name used in questions and the assigned doctor. */
  datatype Profile = Profile(child: bool, female: bool, suffix: string, callingName: string, doctor: string)

  function ProfileOf(r: Record): Profile
  {
    Profile(IsChild(r), IsFemale(r), Suffix(r), CallingName(r), AssignDoctor(Field(r, "symptoms", "")))
  }

  function Phrased(p: Profile, base: string, t: IntakeFieldType, options: Option<seq<string>>): Step
  {
    Ask(base, base + p.suffix, map[], t, options)
  }

  function Named(p: Profile, base: string): Step
  {
    Ask(base, base + p.suffix, map["name" := p.callingName], if base == "symptoms" then Text else Number, None)
  }

  function Plain(base: string): Step
  {
    Ask(base, base, map[], Text, None)
  }

  /** `_determine_next_step`: the early-return chain of the source, given
    * the profile derived from the record. */
  function Decide(r: Record, p: Profile): Step
  {
    if Missing(r, "patient_relation") then Ask("patient_relation", "patient_relation", map[], Options, Some(RelationOptions))
    else if Missing(r, "name") then Phrased(p, "name", Text, None)
    else if Missing(r, "age") then Named(p, "age")
    else if Missing(r, "gender") then Phrased(p, "gender", Options, Some(GenderOptions))
    else if Missing(r, "phone") then Plain("phone")
    else if Missing(r, "email") then Plain("email")
    else if Missing(r, "location") then Plain("location")
    else if Missing(r, "weight") then Named(p, "weight")
    else if Missing(r, "blood_group") then Phrased(p, "blood_group", Text, None)
    else if Missing(r, "symptoms") then Named(p, "symptoms")
    else if Missing(r, "duration") then Plain("duration")
    else if !p.child && Missing(r, "bp_history") then Phrased(p, "bp_history", Options, Some(HistoryOptions))
    else if !p.child && Missing(r, "sugar_history") then Phrased(p, "sugar_history", Options, Some(HistoryOptions))
    else if !p.child && p.female && Missing(r, "thyroid_history") then
      Phrased(p, "thyroid_history", Options, Some(HistoryOptions))
    else if Missing(r, "surgeries") then Phrased(p, "surgeries", Text, None)
    else if Missing(r, "medications") then Phrased(p, "medications", Text, None)
    else if Missing(r, "assigned_doctor") then
      Ask("assigned_doctor", "assigned_doctor", map["doctor_name" := p.doctor], Options, Some(DoctorOptions))
    else if Missing(r, "selected_slot") then Ask("selected_slot", "selected_slot", map[], Options, Some(SlotOptions))
    else if Field(r, "payment_status", "") != "paid" then
      Ask("payment_status", "payment_status", map["name" := p.callingName, "doctor_name" := p.doctor], Payment, None)
    else Done
  }

  /** `_determine_next_step`. */
  function NextStep(r: Record): Step
  {
    Decide(r, ProfileOf(r))
  }

  /** The text of a reply: a catalogue entry rendered in a language with
    * format arguments (`_get_question`), or a fixed text. */
  datatype Prompt = Catalogue(key: string, language: string, args: map<string, string>) | Fixed(text: string)

  function PromptText(p: Prompt): string
  {
    match p
    case Catalogue(key, language, args) => QuestionBank.GetQuestion(key, language, args)
    case Fixed(text) => text
  }

  /** The prompt of a step in the record's language. */
  function StepPrompt(r: Record, s: Step): Prompt
    requires s.Ask?
  {
    Catalogue(s.templateKey, Field(r, "language", "English"), s.args)
  }

  /** The fields asked before payment, in order, for this patient. */
  function FieldOrder(p: Profile): seq<string>
  {
    CommonOrder
    + (if p.child then [] else HistoryOrder + (if p.female then ["thyroid_history"] else []))
    + ClosingOrder
  }

  /** The first key of `order` that is missing from the record. */
  function FirstMissing(order: seq<string>, r: Record): (k: Option<string>)
    ensures k.Some? ==> k.value in order && Missing(r, k.value)
    ensures k.None? <==> forall i :: 0 <= i < |order| ==> !Missing(r, order[i])
  {
    if order == [] then None
    else if Missing(r, order[0]) then Some(order[0])
    else FirstMissing(order[1..], r)
  }

  lemma {:induction false} FirstMissingAppend(a: seq<string>, b: seq<string>, r: Record)
    ensures FirstMissing(a + b, r) == if FirstMissing(a, r).Some? then FirstMissing(a, r) else FirstMissing(b, r)
  {
    if a != [] {
      assert (a + b)[1..] == a[1..] + b;
      FirstMissingAppend(a[1..], b, r);
    } else {
      assert a + b == b;
    }
  }

  lemma Peel(order: seq<string>, r: Record, i: nat)
    requires i < |order|
    ensures FirstMissing(order[i..], r) ==
              if Missing(r, order[i]) then Some(order[i]) else FirstMissing(order[i + 1..], r)
  {
    assert order[i..][1..] == order[i + 1..];
  }

  /** The fields up to the duration question, asked of every patient. */
  const CommonOrder: seq<string> := ["patient_relation", "name", "age", "gender", "phone", "email", "location",
                                     "weight", "blood_group", "symptoms", "duration"]
  const HistoryOrder: seq<string> := ["bp_history", "sugar_history"]
  const ClosingOrder: seq<string> := ["surgeries", "medications", "assigned_doctor", "selected_slot"]

  lemma CommonStep(r: Record, p: Profile)
    ensures FirstMissing(CommonOrder, r).Some? ==>
              Decide(r, p).Ask? && Decide(r, p).fieldKey == FirstMissing(CommonOrder, r).value
  {
    Peel(CommonOrder, r, 0);
    Peel(CommonOrder, r, 1);
    Peel(CommonOrder, r, 2);
    Peel(CommonOrder, r, 3);
    Peel(CommonOrder, r, 4);
    Peel(CommonOrder, r, 5);
    Peel(CommonOrder, r, 6);
    Peel(CommonOrder, r, 7);
    Peel(CommonOrder, r, 8);
    Peel(CommonOrder, r, 9);
    Peel(CommonOrder, r, 10);
    assert CommonOrder[0..] == CommonOrder;
  }

  lemma HistoryStep(r: Record, p: Profile)
    requires FirstMissing(CommonOrder, r).None? && !p.child
    ensures FirstMissing(HistoryOrder, r).Some? ==>
              Decide(r, p).Ask? && Decide(r, p).fieldKey == FirstMissing(HistoryOrder, r).value
    ensures FirstMissing(HistoryOrder, r).None? && p.female && Missing(r, "thyroid_history") ==>
              Decide(r, p).Ask? && Decide(r, p).fieldKey == "thyroid_history"
  {
    Peel(CommonOrder, r, 0);
    Peel(CommonOrder, r, 1);
    Peel(CommonOrder, r, 2);
    Peel(CommonOrder, r, 3);
    Peel(CommonOrder, r, 4);
    Peel(CommonOrder, r, 5);
    Peel(CommonOrder, r, 6);
    Peel(CommonOrder, r, 7);
    Peel(CommonOrder, r, 8);
    Peel(CommonOrder, r, 9);
    Peel(CommonOrder, r, 10);
    assert CommonOrder[0..] == CommonOrder;
    Peel(HistoryOrder, r, 0);
    Peel(HistoryOrder, r, 1);
    assert HistoryOrder[0..] == HistoryOrder;
  }

  lemma ClosingStep(r: Record, p: Profile)
    requires FirstMissing(CommonOrder, r).None?
    requires p.child || (FirstMissing(HistoryOrder, r).None? && (!p.female || !Missing(r, "thyroid_history")))
    ensures FirstMissing(ClosingOrder, r).Some? ==>
              Decide(r, p).Ask? && Decide(r, p).fieldKey == FirstMissing(ClosingOrder, r).value
    ensures FirstMissing(ClosingOrder, r).None? ==>
              Decide(r, p) == if Field(r, "payment_status", "") == "paid" then Done
                              else Ask("payment_status", "payment_status",
                                       map["name" := p.callingName, "doctor_name" := p.doctor], Payment, None)
  {
    Peel(CommonOrder, r, 0);
    Peel(CommonOrder, r, 1);
    Peel(CommonOrder, r, 2);
    Peel(CommonOrder, r, 3);
    Peel(CommonOrder, r, 4);
    Peel(CommonOrder, r, 5);
    Peel(CommonOrder, r, 6);
    Peel(CommonOrder, r, 7);
    Peel(CommonOrder, r, 8);
    Peel(CommonOrder, r, 9);
    Peel(CommonOrder, r, 10);
    assert CommonOrder[0..] == CommonOrder;
    Peel(HistoryOrder, r, 0);
    Peel(HistoryOrder, r, 1);
    assert HistoryOrder[0..] == HistoryOrder;
    Peel(ClosingOrder, r, 0);
    Peel(ClosingOrder, r, 1);
    Peel(ClosingOrder, r, 2);
    Peel(ClosingOrder, r, 3);
    assert ClosingOrder[0..] == ClosingOrder;
  }

  lemma DecideIsFirstMissing(r: Record, p: Profile)
    ensures FirstMissing(FieldOrder(p), r).Some? ==>
              Decide(r, p).Ask? && Decide(r, p).fieldKey == FirstMissing(FieldOrder(p), r).value
    ensures FirstMissing(FieldOrder(p), r).None? ==>
              Decide(r, p) == if Field(r, "payment_status", "") == "paid" then Done
                              else Ask("payment_status", "payment_status",
                                       map["name" := p.callingName, "doctor_name" := p.doctor], Payment, None)
  {
    var middle: seq<string> := if p.child then [] else HistoryOrder + (if p.female then ["thyroid_history"] else []);
    assert FieldOrder(p) == CommonOrder + middle + ClosingOrder;
    FirstMissingAppend(CommonOrder + middle, ClosingOrder, r);
    FirstMissingAppend(CommonOrder, middle, r);
    CommonStep(r, p);
    if FirstMissing(CommonOrder, r).None? {
      if !p.child {
        HistoryStep(r, p);
        FirstMissingAppend(HistoryOrder, if p.female then ["thyroid_history"] else [], r);
      }
      if p.child || FirstMissing(middle, r).None? {
        ClosingStep(r, p);
      }
    }
  }

  /** The next step asks for the first missing field of the order; when
    * none is missing it asks for payment until it is "paid", and only then
    * completes. */
  lemma NextStepIsFirstMissing(r: Record)
    ensures FirstMissing(FieldOrder(ProfileOf(r)), r).Some? ==>
              NextStep(r).Ask? && NextStep(r).fieldKey == FirstMissing(FieldOrder(ProfileOf(r)), r).value
    ensures FirstMissing(FieldOrder(ProfileOf(r)), r).None? && Field(r, "payment_status", "") != "paid" ==>
              NextStep(r).Ask? && NextStep(r).fieldKey == "payment_status"
    ensures NextStep(r).Done? <==>
              FirstMissing(FieldOrder(ProfileOf(r)), r).None? && Field(r, "payment_status", "") == "paid"
  {
    DecideIsFirstMissing(r, ProfileOf(r));
  }

  /** Completion requires every field of the order and payment. */
  lemma DoneOnlyWhenPaid(r: Record)
    requires NextStep(r).Done?
    ensures "payment_status" in r && r["payment_status"] == "paid"
    ensures forall k :: k in FieldOrder(ProfileOf(r)) ==> !Missing(r, k)
  {
    NextStepIsFirstMissing(r);
  }

  lemma DecideSkips(r: Record, p: Profile)
    requires Decide(r, p).Ask?
    ensures p.child ==> Decide(r, p).fieldKey !in {"bp_history", "sugar_history", "thyroid_history"}
    ensures Decide(r, p).fieldKey == "thyroid_history" ==> p.female && !p.child
  {
  }

  /** Children are never asked the BP, sugar or thyroid questions. */
  lemma ChildrenSkipHistory(r: Record)
    requires IsChild(r)
    ensures NextStep(r).Ask? ==> NextStep(r).fieldKey !in {"bp_history", "sugar_history", "thyroid_history"}
  {
    if NextStep(r).Ask? {
      DecideSkips(r, ProfileOf(r));
    }
  }

  /** The thyroid question is only for adult women. */
  lemma ThyroidOnlyForWomen(r: Record)
    requires NextStep(r).Ask? && NextStep(r).fieldKey == "thyroid_history"
    ensures IsFemale(r) && !IsChild(r)
  {
    DecideSkips(r, ProfileOf(r));
  }

  /** An age that does not parse counts as an adult's. */
  lemma UnparsedAgeIsAdult(r: Record)
    requires ParseInt(Strip(ReplaceAll(ReplaceAll(Lower(Field(r, "age", "0")), "years", ""), "yrs", ""))).None?
    ensures !IsChild(r)
  {
  }

  lemma DecideAsks(r: Record, p: Profile)
    requires Decide(r, p).Ask?
    ensures Decide(r, p).fieldKey == "payment_status" || Missing(r, Decide(r, p).fieldKey)
    ensures Decide(r, p).fieldKey == "payment_status" ==> Field(r, "payment_status", "") != "paid"
  {
  }

  lemma DecideTemplate(r: Record, p: Profile)
    requires Decide(r, p).Ask?
    ensures || (Decide(r, p).fieldKey in QuestionBank.PhrasedBases &&
                Decide(r, p).templateKey == Decide(r, p).fieldKey + p.suffix)
            || (Decide(r, p).fieldKey in QuestionBank.PlainKeys &&
                Decide(r, p).templateKey == Decide(r, p).fieldKey)
  {
  }

  lemma KeySetsDisjoint()
    ensures QuestionBank.PhrasedBases !! QuestionBank.PlainKeys
  {
  }

  /** A field that holds an answer is never asked again. */
  lemma AnsweredNotAsked(r: Record)
    requires NextStep(r).Ask?
    ensures NextStep(r).fieldKey == "payment_status" || Missing(r, NextStep(r).fieldKey)
    ensures NextStep(r).fieldKey == "payment_status" ==> Field(r, "payment_status", "") != "paid"
  {
    DecideAsks(r, ProfileOf(r));
  }

  /** Phrased keys carry `_self` exactly when the relation is "Self"; the
    * other keys are used as they are. */
  lemma SuffixChoice(r: Record)
    requires NextStep(r).Ask?
    ensures NextStep(r).fieldKey in QuestionBank.PhrasedBases ==>
              NextStep(r).templateKey ==
                NextStep(r).fieldKey + (if Field(r, "patient_relation", "Self") == "Self" then "_self" else "_other")
    ensures NextStep(r).fieldKey in QuestionBank.PlainKeys ==> NextStep(r).templateKey == NextStep(r).fieldKey
    ensures NextStep(r).fieldKey in QuestionBank.PhrasedBases || NextStep(r).fieldKey in QuestionBank.PlainKeys
  {
    DecideTemplate(r, ProfileOf(r));
    KeySetsDisjoint();
  }

  /** Every key the flow builds is in the catalogue. */
  lemma StepKeyInCatalogue(r: Record)
    requires NextStep(r).Ask?
    ensures NextStep(r).templateKey in QuestionBank.CatalogueKeys
  {
    SuffixChoice(r);
    QuestionBank.KeysPresent();
  }

  /** A catalogue prompt for a key the flow builds never renders as
    * "Question not found.". */
  lemma CataloguePromptFound(p: Prompt)
    requires p.Catalogue? && p.key in QuestionBank.CatalogueKeys
    ensures PromptText(p) != QuestionBank.NotFound
  {
    QuestionBank.CatalogueComplete();
    QuestionBank.QuestionFound(p.key, p.language, p.args);
  }

  // ---------------------------------------------------------------------
  // Validation of the latest answer

  /** The validator type: the first of these keywords that the lower-cased
    * field name contains, else "text". */
  const TypeGroups: seq<(seq<string>, string)> := [
    (["phone"], "phone"), (["email"], "email"), (["age"], "age"), (["date", "dob"], "date"),
    (["blood"], "blood_group"), (["weight"], "weight")
  ]

  /** The type inference of the validation step. */
  function InferFieldType(lastField: string): string
  {
    TypeOfLowered(Lower(lastField))
  }

  /** The inference chain on the lower-cased field name. */
  function TypeOfLowered(f: string): string
  {
    if Contains(f, "phone") then "phone"
    else if Contains(f, "email") then "email"
    else if Contains(f, "age") then "age"
    else if Contains(f, "date") || Contains(f, "dob") then "date"
    else if Contains(f, "blood") then "blood_group"
    else if Contains(f, "weight") then "weight"
    else "text"
  }

  lemma ContainsAnyOne(f: string, a: string)
    ensures ContainsAny(f, [a]) == Contains(f, a)
  {
    if Contains(f, a) {
      assert a in [a];
    }
  }

  lemma ContainsAnyTwo(f: string, a: string, b: string)
    ensures ContainsAny(f, [a, b]) == (Contains(f, a) || Contains(f, b))
  {
    if Contains(f, a) {
      assert a in [a, b];
    } else if Contains(f, b) {
      assert b in [a, b];
    }
  }

  lemma TypeOfLoweredIsFirstMatch(f: string)
    ensures TypeOfLowered(f) == FirstMatch(TypeGroups, f, "text")
  {
    ContainsAnyOne(f, "phone");
    ContainsAnyOne(f, "email");
    ContainsAnyOne(f, "age");
    ContainsAnyTwo(f, "date", "dob");
    ContainsAnyOne(f, "blood");
    ContainsAnyOne(f, "weight");
    var g := TypeGroups;
    assert g[6..] == [];
    FirstMatchPeel(g, f, "text", 5);
    FirstMatchPeel(g, f, "text", 4);
    FirstMatchPeel(g, f, "text", 3);
    FirstMatchPeel(g, f, "text", 2);
    FirstMatchPeel(g, f, "text", 1);
    FirstMatchPeel(g, f, "text", 0);
    assert g[0..] == g;
  }

  /** The inferred type is that of the first keyword group, in the order
    * phone, email, age, date/dob, blood, weight, hit by the lower-cased
    * field name; "text" when none is. */
  lemma InferFieldTypePriority(lastField: string)
    ensures var i := FirstHit(TypeGroups, Lower(lastField));
            && (forall j :: 0 <= j < i ==> !ContainsAny(Lower(lastField), TypeGroups[j].0))
            && (i < |TypeGroups| ==> ContainsAny(Lower(lastField), TypeGroups[i].0) &&
                                     InferFieldType(lastField) == TypeGroups[i].1)
            && (i == |TypeGroups| ==> InferFieldType(lastField) == "text")
  {
    TypeOfLoweredIsFirstMatch(Lower(lastField));
    FirstGroupWins(TypeGroups, Lower(lastField), "text");
  }

  /** The answer to the intake flow's "language" field would be checked as
    * an age, since the name contains "age". */
  lemma LanguageReadAsAge()
    ensures InferFieldType("language") == "age"
  {
    assert Lower("language") == "language";
    assert OccursAt("language", "age", 5);
  }

  /** The reply of the endpoint, or the HTTP 500 it raises. */
  datatype Reply =
    | Reply(question: Prompt, fieldKey: string, expectedType: IntakeFieldType, options: Option<seq<string>>,
            isComplete: bool, report: Option<Json>, errorMessage: Option<string>)
    | ServerError

  function RetryQuestion(fieldType: string, error: string): string
  {
    "I'm sorry, that doesn't look like a valid " + ReplaceAll(fieldType, "_", " ") + ". " + error
  }

  /** The retry reply as written: `expected_type` receives the validator
    * type, which the response model only accepts when it is one of its own
    * five type names; otherwise building the reply raises and the handler
    * answers with a server error. */
  function RetryAsWritten(lastField: string, fieldType: string, error: string): (r: Reply)
    ensures r.ServerError? <==> ParseFieldType(fieldType).None?
  {
    match ParseFieldType(fieldType)
    case None => ServerError
    case Some(t) => Reply(Fixed(RetryQuestion(fieldType, error)), lastField, t, None, false, None, Some(error))
  }

  /** An invalid phone, email, age, blood group or weight never reaches the
    * user as a retry prompt. */
  lemma RetryAsWrittenFails(lastField: string, fieldType: string, error: string)
    requires fieldType in {"phone", "email", "age", "blood_group", "weight"}
    ensures RetryAsWritten(lastField, fieldType, error) == ServerError
  {
  }

  /** A five-digit phone number is refused, and the refusal becomes a
    * server error instead of a retry prompt. */
  lemma ShortPhoneIsServerError()
    ensures InferFieldType("phone") == "phone"
    ensures Validator.Validate("phone", "12345") == Validator.Invalid(Validator.PhoneMessage)
    ensures RetryAsWritten("phone", "phone", Validator.PhoneMessage) == ServerError
  {
    assert Lower("phone") == "phone";
    assert OccursAt("phone", "phone", 0);
    StripTrimmed("12345");
    Validator.PhoneAccepted("12345");
    assert Validator.DigitCount("12345") == 5;
  }

  /** The input type announced with a retry prompt. */
  function RetryType(fieldType: string): IntakeFieldType
  {
    if fieldType == "age" || fieldType == "weight" then Number
    else if fieldType == "date" then Date
    else Text
  }

  /** The retry reply the handler evidently intends: the same field is asked
    * again with the validator's message, whatever the validator type. */
  function Retry(lastField: string, fieldType: string, error: string): (r: Reply)
    ensures r.Reply? && r.fieldKey == lastField && !r.isComplete && r.errorMessage == Some(error)
    ensures r.question == Fixed(RetryQuestion(fieldType, error)) && r.report.None?
  {
    Reply(Fixed(RetryQuestion(fieldType, error)), lastField, RetryType(fieldType), None, false, None, Some(error))
  }

  /** Wherever the written reply is built, the corrected one is the same. */
  lemma RetryAgrees(lastField: string, fieldType: string, error: string)
    requires fieldType in {"text", "date"}
    ensures RetryAsWritten(lastField, fieldType, error) == Retry(lastField, fieldType, error)
  {
  }

  // ---------------------------------------------------------------------
  // Merging the answer

  /** The payment shortcut: the question was about payment or the answer
    * mentions paying, and the answer says "paid" or "done". */
  predicate PaymentConfirmed(lastField: string, input: string)
  {
    (Contains(Lower(lastField), "payment") || Contains(Lower(input), "pay")) &&
    (Contains(Lower(input), "paid") || Contains(Lower(input), "done"))
  }

  /** The record after a valid answer: the payment shortcut, then the
    * extracted fields, or the raw answer under the asked field when the
    * extraction failed. */
  function Merge(record: Record, lastField: string, input: string, extraction: Option<Record>): Record
  {
    var paid := if PaymentConfirmed(lastField, input) then record["payment_status" := "paid"] else record;
    match extraction
    case None => paid[lastField := input]
    case Some(e) => paid + e
  }

  /** A failed extraction stores the raw answer under the asked field and
    * changes nothing else except the payment shortcut. */
  lemma MergeFallback(record: Record, lastField: string, input: string)
    ensures Merge(record, lastField, input, None)[lastField] == input
    ensures forall k :: k in record && k != lastField && k != "payment_status" ==>
              k in Merge(record, lastField, input, None) && Merge(record, lastField, input, None)[k] == record[k]
    ensures Merge(record, lastField, input, None).Keys <= record.Keys + {lastField, "payment_status"}
  {
  }

  /** Extracted fields override the record; the others are kept. */
  lemma MergeExtracted(record: Record, lastField: string, input: string, e: Record)
    ensures forall k :: k in e ==> Merge(record, lastField, input, Some(e))[k] == e[k]
    ensures forall k :: k in record && k !in e && k != "payment_status" ==>
              Merge(record, lastField, input, Some(e))[k] == record[k]
  {
  }

  /** The shortcut marks the record paid unless the extraction or the raw
    * answer itself writes the payment status. */
  lemma MergePaid(record: Record, lastField: string, input: string, extraction: Option<Record>)
    requires PaymentConfirmed(lastField, input)
    requires extraction.None? ==> lastField != "payment_status"
    requires extraction.Some? ==> "payment_status" !in extraction.value
    ensures Field(Merge(record, lastField, input, extraction), "payment_status", "") == "paid"
  {
  }

  // ---------------------------------------------------------------------
  // The report

  const ReportTitle := "Medical Assessment Report"
  const ErrorTitle := "Error Report"
  const CompletionMessage := "Thank you. I have collected all necessary details. I am generating your medical appointment report now. A copy will be sent to your email."

  /** The keys of the report schema the language model is asked for. */
  const ReportKeys: set<string> := {"patient_summary", "explanation", "possible_conditions", "ai_diagnostic_summary",
    "suggested_tests", "recommended_basic_tests", "lifestyle_recommendations", "precautions", "safety_precautions",
    "next_steps_checklist", "emergency_signs", "disclaimer", "doctor_recommendation"}

  function ErrorReport(errorText: string): Json
  {
    JObj(map["title" := JStr(ErrorTitle), "error" := JStr(errorText)])
  }

  /** The span from the first '{' to the last '}' when there is one, else
    * the whole text. */
  function BraceSpan(clean: string): (r: string)
    ensures Find(clean, '{') >= 0 && RFind(clean, '}') > Find(clean, '{') ==>
              && |r| >= 2 && r[0] == '{' && r[|r| - 1] == '}'
              && r == clean[Find(clean, '{')..RFind(clean, '}') + 1]
    ensures !(Find(clean, '{') >= 0 && RFind(clean, '}') > Find(clean, '{')) ==> r == clean
  {
    var start := Find(clean, '{');
    var end := RFind(clean, '}') + 1;
    if start >= 0 && end > start then clean[start..end] else clean
  }

  /** The text handed to the JSON parser: fences and surrounding blanks
    * removed, then the braced span. */
  function CleanReport(response: string): (r: string)
    ensures !Contains(r, Groq.Fence)
  {
    var unfenced := ReplaceAll(ReplaceAll(Strip(response), Groq.JsonFence, ""), Groq.Fence, "");
    Groq.NoFenceLeft(ReplaceAll(Strip(response), Groq.JsonFence, ""));
    Groq.StripNoNewFence(unfenced);
    BraceSpanFenceless(Strip(unfenced));
    BraceSpan(Strip(unfenced))
  }

  lemma BraceSpanFenceless(clean: string)
    requires !Contains(clean, Groq.Fence)
    ensures !Contains(BraceSpan(clean), Groq.Fence)
  {
    var start := Find(clean, '{');
    var end := RFind(clean, '}') + 1;
    if start >= 0 && end > start && Contains(clean[start..end], Groq.Fence) {
      ContainsInSlice(clean, Groq.Fence, start, end);
    }
  }

  /** The report substituted when the output does not parse: every schema
    * key, the assigned doctor recommended. */
  function FallbackReport(r: Record, doctor: string): (report: Json)
    ensures report.JObj? && report.fields.Keys == ReportKeys
    ensures report.fields["doctor_recommendation"].JObj?
  {
    JObj(map k | k in ReportKeys :: FallbackValue(k, r, doctor))
  }

  /** The fallback's value under each schema key. */
  function FallbackValue(key: string, r: Record, doctor: string): Json
  {
    if key == "doctor_recommendation" then
      JObj(map["specialist_type" := JStr(doctor),
               "doctor_name" := JStr(doctor),
               "doctor_expertise" := JStr("General Medicine"),
               "consultation_priority" := JStr("Routine"),
               "reason" := JStr("Assigned based on reported symptoms.")])
    else if key == "patient_summary" then
      JStr("Medical assessment for " + Field(r, "name", "Patient") + " based on reported symptoms.")
    else if key == "explanation" then JStr("Please consult your assigned doctor for detailed analysis.")
    else if key == "possible_conditions" then JArr([JStr("Further evaluation required")])
    else if key == "ai_diagnostic_summary" then
      JObj(map["explanation" := JStr("Symptoms reported: " + Field(r, "symptoms", "N/A") + "."),
               "possible_conditions" := JArr([JStr("See doctor for diagnosis")]),
               "risk_interpretation" := JStr("Risk level to be determined by physician.")])
    else if key == "suggested_tests" then
      JObj(map["blood_tests" := JArr([]), "imaging" := JArr([]), "special_tests" := JArr([])])
    else if key == "recommended_basic_tests" then
      JArr([JObj(map["test_name" := JStr("Complete Blood Count (CBC)"), "category" := JStr("BLOOD")])])
    else if key == "lifestyle_recommendations" then
      JArr([JStr("Stay hydrated"), JStr("Rest adequately"), JStr("Monitor symptoms")])
    else if key == "precautions" then JArr([JStr("Avoid self-medication"), JStr("Consult doctor if symptoms worsen")])
    else if key == "safety_precautions" then
      JArr([JStr("Avoid strenuous activity"), JStr("Keep emergency contact handy")])
    else if key == "next_steps_checklist" then
      JArr([JStr("Complete blood work before appointment"), JStr("Share medical history with " + doctor),
            JStr("Monitor symptoms and log daily")])
    else if key == "emergency_signs" then JArr([JStr("High fever (>104°F)"), JStr("Severe difficulty breathing")])
    else JStr("This AI-generated report is for informational purposes only.")
  }

  /** `setdefault("doctor_recommendation", {})` and the two writes into it;
    * None where Python raises because the report or the recommendation is
    * not a dictionary. */
  function Inject(report: Json, doctor: string, slot: string): (r: Option<Json>)
    ensures r.Some? <==> report.JObj? && (("doctor_recommendation" in report.fields) ==>
                                           report.fields["doctor_recommendation"].JObj?)
  {
    match report
    case JObj(f) =>
      var rec := if "doctor_recommendation" in f then f["doctor_recommendation"] else JObj(map[]);
      if rec.JObj? then
        Some(JObj(f["doctor_recommendation" := JObj(rec.fields["doctor_name" := JStr(doctor)]["appointment_slot" := JStr(slot)])]))
      else None
    case _ => None
  }

  /** The report with the known fields injected, wrapped with the
    * patient's data; the error report where the injection raises. */
  function Finish(r: Record, report: Json, doctor: string, timestamp: string, errorText: string): Json
  {
    match Inject(report, doctor, Field(r, "selected_slot", "To be confirmed"))
    case None => ErrorReport(errorText)
    case Some(analysis) =>
      JObj(map["title" := JStr(ReportTitle), "generated_by" := JStr("Amrutha AI"), "patient_data" := StringObject(r),
               "medical_analysis" := analysis, "timestamp" := JStr(timestamp)])
  }

  /** The report once the output is parsed (None when the parser refused
    * it): the parsed value or the fallback, with the known fields
    * injected. */
  function ReportFrom(r: Record, parsed: Option<Json>, doctor: string, timestamp: string, errorText: string): Json
  {
    Finish(r, if parsed.Some? then parsed.value else FallbackReport(r, doctor), doctor, timestamp, errorText)
  }

  /** The text the report model's raw output is parsed from. */
  function ReportText(raw: string): string
  {
    CleanReport(Groq.CleanFences(raw))
  }

  /** `_generate_llm_report` for the raw model output (None when the call
    * raised), the parser, the clock's ISO text and the text of the
    * exception caught last. */
  function LlmReport(r: Record, output: Option<string>, parse: string -> Option<Json>, timestamp: string,
                     errorText: string): Json
  {
    match output
    case None => ErrorReport(errorText)
    case Some(raw) => ReportFrom(r, parse(ReportText(raw)), AssignDoctor(Field(r, "symptoms", "")), timestamp, errorText)
  }

  /** The in-place part of `_generate_llm_report`: insert the
    * recommendation into the parsed (or fallback) report if absent and
    * overwrite its two fields. */
  method InjectKnownFields(r: Record, llmReport: Json, doctor: string, timestamp: string, errorText: string)
    returns (report: Json)
    ensures report == Finish(r, llmReport, doctor, timestamp, errorText)
  {
    var slot := Field(r, "selected_slot", "To be confirmed");
    if !llmReport.JObj? {
      return ErrorReport(errorText);
    }
    var fields := llmReport.fields;
    if "doctor_recommendation" !in fields {
      fields := fields["doctor_recommendation" := JObj(map[])];
    }
    var rec := fields["doctor_recommendation"];
    if !rec.JObj? {
      return ErrorReport(errorText);
    }
    var original := rec.fields;
    rec := JObj(rec.fields["doctor_name" := JStr(doctor)]);
    rec := JObj(rec.fields["appointment_slot" := JStr(slot)]);
    fields := fields["doctor_recommendation" := rec];
    assert fields == llmReport.fields["doctor_recommendation" := JObj(original["doctor_name" := JStr(doctor)]
                                                                      ["appointment_slot" := JStr(slot)])];
    report := JObj(map["title" := JStr(ReportTitle), "generated_by" := JStr("Amrutha AI"), "patient_data" := StringObject(r),
                       "medical_analysis" := JObj(fields), "timestamp" := JStr(timestamp)]);
  }

  /** `_generate_llm_report`. */
  method GenerateLlmReport(r: Record, output: Option<string>, parse: string -> Option<Json>, timestamp: string,
                           errorText: string) returns (report: Json)
    ensures report == LlmReport(r, output, parse, timestamp, errorText)
  {
    if output.None? {
      return ErrorReport(errorText);
    }
    var doctor := AssignDoctor(Field(r, "symptoms", ""));
    var parsed := parse(ReportText(output.value));
    var llmReport := if parsed.Some? then parsed.value else FallbackReport(r, doctor);
    report := InjectKnownFields(r, llmReport, doctor, timestamp, errorText);
  }

  predicate IsErrorReport(report: Json)
  {
    report.JObj? && "title" in report.fields && report.fields["title"] == JStr(ErrorTitle)
  }

  /** The injection sets the two fields of the recommendation, keeps its
    * other fields and adds no key to the report but the recommendation. */
  lemma InjectSets(report: Json, doctor: string, slot: string)
    requires Inject(report, doctor, slot).Some?
    ensures var out := Inject(report, doctor, slot).value;
            && out.JObj? && out.fields.Keys == report.fields.Keys + {"doctor_recommendation"}
            && (forall k :: k in report.fields && k != "doctor_recommendation" ==> out.fields[k] == report.fields[k])
            && var rec := out.fields["doctor_recommendation"];
            && rec.JObj?
            && rec.fields["doctor_name"] == JStr(doctor)
            && rec.fields["appointment_slot"] == JStr(slot)
            && ("doctor_recommendation" in report.fields ==>
                  forall k :: k in report.fields["doctor_recommendation"].fields && k !in {"doctor_name", "appointment_slot"} ==>
                    k in rec.fields && rec.fields[k] == report.fields["doctor_recommendation"].fields[k])
  {
  }

  lemma FinishShape(r: Record, report: Json, doctor: string, timestamp: string, errorText: string)
    ensures IsErrorReport(Finish(r, report, doctor, timestamp, errorText)) <==>
              Inject(report, doctor, Field(r, "selected_slot", "To be confirmed")).None?
    ensures !IsErrorReport(Finish(r, report, doctor, timestamp, errorText)) ==>
              var out := Finish(r, report, doctor, timestamp, errorText);
              && out.JObj? && out.fields["title"] == JStr(ReportTitle)
              && out.fields["patient_data"] == StringObject(r)
              && out.fields["medical_analysis"] == Inject(report, doctor, Field(r, "selected_slot", "To be confirmed")).value
  {
  }

  /** The report's recommendation names `doctor` and `slot`. */
  predicate NamesDoctorAndSlot(report: Json, doctor: string, slot: string)
  {
    && report.JObj? && "medical_analysis" in report.fields
    && var analysis := report.fields["medical_analysis"];
    && analysis.JObj? && "doctor_recommendation" in analysis.fields
    && var rec := analysis.fields["doctor_recommendation"];
    && rec.JObj?
    && "doctor_name" in rec.fields && rec.fields["doctor_name"] == JStr(doctor)
    && "appointment_slot" in rec.fields && rec.fields["appointment_slot"] == JStr(slot)
  }

  /** A report proper: its title and the patient's data. */
  predicate IsReportFor(report: Json, r: Record)
  {
    && report.JObj?
    && "title" in report.fields && report.fields["title"] == JStr(ReportTitle)
    && "patient_data" in report.fields && report.fields["patient_data"] == StringObject(r)
  }

  /** The analysis holds exactly the schema's keys. */
  predicate HasSchemaKeys(report: Json)
  {
    && report.JObj? && "medical_analysis" in report.fields
    && report.fields["medical_analysis"].JObj?
    && report.fields["medical_analysis"].fields.Keys == ReportKeys
  }

  lemma ReportFromNames(r: Record, parsed: Option<Json>, doctor: string, timestamp: string, errorText: string)
    requires !IsErrorReport(ReportFrom(r, parsed, doctor, timestamp, errorText))
    ensures IsReportFor(ReportFrom(r, parsed, doctor, timestamp, errorText), r)
    ensures NamesDoctorAndSlot(ReportFrom(r, parsed, doctor, timestamp, errorText), doctor,
                               Field(r, "selected_slot", "To be confirmed"))
  {
    var report := if parsed.Some? then parsed.value else FallbackReport(r, doctor);
    FinishShape(r, report, doctor, timestamp, errorText);
    InjectSets(report, doctor, Field(r, "selected_slot", "To be confirmed"));
  }

  /** Whatever the model returned, a report that is not an error report
    * names the assigned doctor and the chosen slot in its recommendation. */
  lemma ReportNamesDoctorAndSlot(r: Record, output: Option<string>, parse: string -> Option<Json>, timestamp: string,
                                 errorText: string)
    requires !IsErrorReport(LlmReport(r, output, parse, timestamp, errorText))
    ensures IsReportFor(LlmReport(r, output, parse, timestamp, errorText), r)
    ensures NamesDoctorAndSlot(LlmReport(r, output, parse, timestamp, errorText),
                               AssignDoctor(Field(r, "symptoms", "")), Field(r, "selected_slot", "To be confirmed"))
  {
    ReportFromNames(r, parse(ReportText(output.value)), AssignDoctor(Field(r, "symptoms", "")), timestamp, errorText);
  }

  lemma FallbackInjected(r: Record, doctor: string, timestamp: string, errorText: string)
    ensures !IsErrorReport(ReportFrom(r, None, doctor, timestamp, errorText))
    ensures HasSchemaKeys(ReportFrom(r, None, doctor, timestamp, errorText))
  {
    SchemaReportInjected(r, FallbackReport(r, doctor), doctor, timestamp, errorText);
  }

  /** A report object holding exactly the schema's keys, with a
    * recommendation object, keeps them once the fields are injected. */
  lemma SchemaReportInjected(r: Record, report: Json, doctor: string, timestamp: string, errorText: string)
    requires report.JObj? && report.fields.Keys == ReportKeys && report.fields["doctor_recommendation"].JObj?
    ensures !IsErrorReport(Finish(r, report, doctor, timestamp, errorText))
    ensures HasSchemaKeys(Finish(r, report, doctor, timestamp, errorText))
  {
    var slot := Field(r, "selected_slot", "To be confirmed");
    assert "doctor_recommendation" in ReportKeys;
    assert ReportKeys + {"doctor_recommendation"} == ReportKeys;
    InjectSets(report, doctor, slot);
    FinishShape(r, report, doctor, timestamp, errorText);
  }

  /** Output the parser refuses yields the fallback: every schema key, with
    * the assigned doctor and the slot injected. */
  lemma UnparseableGivesFallback(r: Record, raw: string, parse: string -> Option<Json>, timestamp: string,
                                 errorText: string)
    requires parse(ReportText(raw)).None?
    ensures !IsErrorReport(LlmReport(r, Some(raw), parse, timestamp, errorText))
    ensures HasSchemaKeys(LlmReport(r, Some(raw), parse, timestamp, errorText))
  {
    FallbackInjected(r, AssignDoctor(Field(r, "symptoms", "")), timestamp, errorText);
  }

  lemma ReportFromError(r: Record, parsed: Option<Json>, doctor: string, timestamp: string, errorText: string)
    ensures IsErrorReport(ReportFrom(r, parsed, doctor, timestamp, errorText)) <==>
              parsed.Some? && (!parsed.value.JObj? ||
                               ("doctor_recommendation" in parsed.value.fields &&
                                !parsed.value.fields["doctor_recommendation"].JObj?))
  {
    if parsed.None? {
      FallbackInjected(r, doctor, timestamp, errorText);
    } else {
      FinishShape(r, parsed.value, doctor, timestamp, errorText);
    }
  }

  /** The error report comes exactly from a failed model call, a parsed
    * value that is not an object, or a recommendation that is not one. */
  lemma ErrorReportIff(r: Record, output: Option<string>, parse: string -> Option<Json>, timestamp: string,
                       errorText: string)
    ensures IsErrorReport(LlmReport(r, output, parse, timestamp, errorText)) <==>
              || output.None?
              || (var parsed := parse(ReportText(output.value));
                  parsed.Some? && (!parsed.value.JObj? ||
                                   ("doctor_recommendation" in parsed.value.fields &&
                                    !parsed.value.fields["doctor_recommendation"].JObj?)))
  {
    if output.Some? {
      ReportFromError(r, parse(ReportText(output.value)), AssignDoctor(Field(r, "symptoms", "")), timestamp, errorText);
    }
  }

  // ---------------------------------------------------------------------
  // One request

  /** The step taken after the merge: completion once paid, else the
    * decision tree's step. */
  function StepAfter(updated: Record): Step
  {
    if Field(updated, "payment_status", "") == "paid" then Done else NextStep(updated)
  }

  /** Completion exactly when the merged record is paid; otherwise the
    * decision tree's question, whose catalogue key exists. */
  lemma StepAfterCompletesIffPaid(updated: Record)
    ensures StepAfter(updated).Done? <==> Field(updated, "payment_status", "") == "paid"
    ensures StepAfter(updated).Ask? ==>
              StepAfter(updated) == NextStep(updated) &&
              StepAfter(updated).templateKey in QuestionBank.CatalogueKeys
  {
    if Field(updated, "payment_status", "") != "paid" {
      if NextStep(updated).Done? {
        DoneOnlyWhenPaid(updated);
      } else {
        StepKeyInCatalogue(updated);
      }
    }
  }

  /** The reply once the record is merged: the report when paid (directly or
    * through the decision tree), else the next question. */
  function Respond(updated: Record, output: Option<string>, parse: string -> Option<Json>, timestamp: string,
                   errorText: string): Reply
  {
    var step := StepAfter(updated);
    if step.Done? then
      Reply(Fixed(CompletionMessage), "complete", Text, None, true,
            Some(LlmReport(updated, output, parse, timestamp, errorText)), None)
    else
      Reply(StepPrompt(updated, step), step.fieldKey, step.expectedType, step.options, false, None, None)
  }

  /** Completion happens exactly when the merged record is paid; otherwise
    * the reply asks the next step's field with its catalogue entry. */
  lemma RespondCompleteIffPaid(updated: Record, output: Option<string>, parse: string -> Option<Json>,
                               timestamp: string, errorText: string)
    ensures var reply := Respond(updated, output, parse, timestamp, errorText);
            && (reply.isComplete <==> Field(updated, "payment_status", "") == "paid")
            && (reply.isComplete ==> reply.fieldKey == "complete" && reply.report.Some?)
            && (!reply.isComplete ==> NextStep(updated).Ask? && reply.fieldKey == NextStep(updated).fieldKey &&
                                      reply.question.Catalogue? && reply.question.key in QuestionBank.CatalogueKeys)
  {
    StepAfterCompletesIffPaid(updated);
  }

  /** The merge step on the copy of the record: the payment shortcut, then
    * the extracted fields or the raw answer. */
  method MergeAnswer(record: Record, lastField: string, input: string, extraction: Option<Record>)
    returns (updated: Record)
    ensures updated == Merge(record, lastField, input, extraction)
  {
    updated := record;
    if PaymentConfirmed(lastField, input) {
      updated := updated["payment_status" := "paid"];
    }
    match extraction
    case Some(e) =>
      updated := updated + e;
    case None =>
      updated := updated[lastField := input];
  }

  /** The endpoint for one request: the record sent by the client, the raw
    * answer, the field it answers ("" when none), the extraction result
    * (None when the call or the parse failed), the report model's raw
    * output (None when the call raised), the parser, the clock's ISO text
    * and the text of the exception caught last. */
  method HandleIntake(record: Record, rawInput: string, lastField: string, extraction: Option<Record>,
                      output: Option<string>, parse: string -> Option<Json>, timestamp: string, errorText: string)
    returns (reply: Reply, updated: Record)
    ensures var input := Strip(rawInput);
            var fieldType := InferFieldType(lastField);
            var verdict := Validator.Validate(fieldType, input);
            if lastField != "" && input != [] && verdict.Invalid? then
              reply == Retry(lastField, fieldType, verdict.message) && updated == record
            else
              && updated == (if lastField != "" && input != [] then Merge(record, lastField, input, extraction) else record)
              && reply == Respond(updated, output, parse, timestamp, errorText)
  {
    var input := Strip(rawInput);
    if lastField != "" && input != [] {
      var fieldType := InferFieldType(lastField);
      var verdict := Validator.Validate(fieldType, input);
      if verdict.Invalid? {
        return Retry(lastField, fieldType, verdict.message), record;
      }
    }
    updated := record;
    if lastField != "" && input != [] {
      updated := MergeAnswer(record, lastField, input, extraction);
    }
    var step := StepAfter(updated);
    if step.Done? {
      var report := GenerateLlmReport(updated, output, parse, timestamp, errorText);
      reply := Reply(Fixed(CompletionMessage), "complete", Text, None, true, Some(report), None);
    } else {
      reply := Reply(StepPrompt(updated, step), step.fieldKey, step.expectedType, step.options, false, None, None);
    }
  }

  /** A refused answer re-asks the same field and keeps the record. */
  lemma InvalidAnswerRepeats(lastField: string, input: string)
    requires lastField != "" && Strip(input) != []
    requires Validator.Validate(InferFieldType(lastField), Strip(input)).Invalid?
    ensures var reply := Retry(lastField, InferFieldType(lastField),
                               Validator.Validate(InferFieldType(lastField), Strip(input)).message);
            reply.fieldKey == lastField && !reply.isComplete
  {
  }
}
