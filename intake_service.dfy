// The older, history-based intake engine (`IntakeService` in
// app/services/intake_service.py): the field schema, the reconstruction of
// the answers from the chat history, the per-field validation table, the
// three-way specialist choice, the booking type and the validate/store path
// of `process_intake`. The language model's summary text is a parameter.

module IntakeService {
  import opened Wrappers
  import opened Text
  import Numbers
  import Medical
  import JsonIntake

  type Record = JsonIntake.Record

  // ---------------------------------------------------------------------
  // The field schema

  /** One entry of `INTAKE_FIELDS`: key, input type, whether it is
    * required, and its choices when it has any. */
  datatype IntakeField = IntakeField(key: string, fieldType: string, required: bool, choices: Option<seq<string>>)

  const IntakeFields: seq<IntakeField> := [
    IntakeField("name", "string", true, None),
    IntakeField("email", "email", true, None),
    IntakeField("phone", "phone", true, None),
    IntakeField("dob", "date", true, None),
    IntakeField("gender", "choice", true, Some(["Male", "Female", "Other"])),
    IntakeField("weight", "number", true, None),
    IntakeField("height", "number", true, None),
    IntakeField("blood_group", "choice", true, Some(["A+", "A-", "B+", "B-", "O+", "O-", "AB+", "AB-", "Unknown"])),
    IntakeField("smoking_status", "choice", true, Some(["Never", "Former", "Current"])),
    IntakeField("alcohol_consumption", "choice", true, Some(["None", "Occasional", "Regular"])),
    IntakeField("has_diabetes", "choice", true, Some(["Yes", "No"])),
    IntakeField("has_bp_issues", "choice", true, Some(["Yes", "No"])),
    IntakeField("chronic_diseases", "string", false, None),
    IntakeField("allergies", "string", false, None),
    IntakeField("medications", "string", false, None),
    IntakeField("recent_surgeries", "string", false, None),
    IntakeField("symptoms", "string", false, None),
    IntakeField("symptom_duration", "string", false, None),
    IntakeField("pain_level", "number", false, None),
    IntakeField("family_history", "string", false, None),
    IntakeField("medical_history", "string", false, None),
    IntakeField("emergency_contact", "phone", true, None),
    IntakeField("doctor_acknowledgment", "choice", true, Some(["Proceed"])),
    IntakeField("selected_slot", "choice", true, Some([])),
    IntakeField("payment_status", "payment", true, None)
  ]

  /** A required field still to be asked: absent or empty. */
  predicate RequiredOpen(data: Record, f: IntakeField)
  {
    f.required && JsonIntake.Missing(data, f.key)
  }

  /** An optional field still to be asked: absent (an empty answer counts). */
  predicate OptionalOpen(data: Record, f: IntakeField)
  {
    !f.required && f.key !in data
  }

  /** Index of the first required field still to be asked, or |fields|. */
  function FirstRequiredOpen(fields: seq<IntakeField>, data: Record): (i: nat)
    ensures i <= |fields|
    ensures forall j :: 0 <= j < i ==> !RequiredOpen(data, fields[j])
    ensures i < |fields| ==> RequiredOpen(data, fields[i])
  {
    if fields == [] then 0
    else if RequiredOpen(data, fields[0]) then 0
    else 1 + FirstRequiredOpen(fields[1..], data)
  }

  /** Index of the first optional field still to be asked, or |fields|. */
  function FirstOptionalOpen(fields: seq<IntakeField>, data: Record): (i: nat)
    ensures i <= |fields|
    ensures forall j :: 0 <= j < i ==> !OptionalOpen(data, fields[j])
    ensures i < |fields| ==> OptionalOpen(data, fields[i])
  {
    if fields == [] then 0
    else if OptionalOpen(data, fields[0]) then 0
    else 1 + FirstOptionalOpen(fields[1..], data)
  }

  /** `_get_next_field`: the required fields first, then the optional
    * ones, in schema order; "" when nothing is left. */
  function NextField(data: Record): string
  {
    var i := FirstRequiredOpen(IntakeFields, data);
    if i < |IntakeFields| then IntakeFields[i].key
    else
      var j := FirstOptionalOpen(IntakeFields, data);
      if j < |IntakeFields| then IntakeFields[j].key else ""
  }

  lemma KeysNonEmpty()
    ensures forall i :: 0 <= i < |IntakeFields| ==> IntakeFields[i].key != ""
  {
  }

  /** Nothing is left exactly when every required field holds a non-empty
    * answer and every optional field holds some answer, even an empty one. */
  lemma NextFieldEmptyIff(data: Record)
    ensures NextField(data) == "" <==>
              forall i :: 0 <= i < |IntakeFields| ==>
                !RequiredOpen(data, IntakeFields[i]) && !OptionalOpen(data, IntakeFields[i])
  {
    KeysNonEmpty();
  }

  /** The next field is the first open required field; only when there is
    * none, the first open optional field. */
  lemma NextFieldIsFirstOpen(data: Record)
    ensures NextField(data) != "" ==>
              exists i :: 0 <= i < |IntakeFields| && NextField(data) == IntakeFields[i].key &&
                ((RequiredOpen(data, IntakeFields[i]) && forall j :: 0 <= j < i ==> !RequiredOpen(data, IntakeFields[j])) ||
                 (OptionalOpen(data, IntakeFields[i]) &&
                  (forall j :: 0 <= j < |IntakeFields| ==> !RequiredOpen(data, IntakeFields[j])) &&
                  (forall j :: 0 <= j < i ==> !OptionalOpen(data, IntakeFields[j]))))
  {
    var i := FirstRequiredOpen(IntakeFields, data);
    if i == |IntakeFields| {
      var j := FirstOptionalOpen(IntakeFields, data);
    }
  }

  /** The first question of an empty record is the name. */
  lemma NameFirst()
    ensures NextField(map[]) == "name"
  {
    assert RequiredOpen(map[], IntakeFields[0]);
  }

  // ---------------------------------------------------------------------
  // Answers recovered from the history

  /** One history entry; a missing role, field key or content reads as "". */
  datatype Entry = Entry(role: string, fieldKey: string, content: string)

  /** An assistant message reporting a rejected answer. */
  predicate IsValidationError(message: string)
  {
    Contains(message, "Please enter a valid") || Contains(message, "Invalid")
  }

  /** The reply after entry `i` is kept: `i` asks a field, `i + 1` is the
    * user's non-blank reply and `i + 2` is not an error message. */
  predicate Kept(history: seq<Entry>, i: nat)
  {
    && i + 1 < |history|
    && history[i].role == "assistant" && history[i].fieldKey != ""
    && history[i + 1].role == "user"
    && !(i + 2 < |history| && history[i + 2].role == "assistant" && IsValidationError(history[i + 2].content))
    && Strip(history[i + 1].content) != ""
  }

  /** The answers recorded from the entries before index `n`. */
  function Collected(history: seq<Entry>, n: nat): Record
    requires n <= |history|
  {
    if n == 0 then map[]
    else if Kept(history, n - 1) then Collected(history, n - 1)[history[n - 1].fieldKey := history[n].content]
    else Collected(history, n - 1)
  }

  /** `_extract_collected_data`. */
  method ExtractCollectedData(history: seq<Entry>) returns (data: Record)
    ensures data == Collected(history, |history|)
  {
    data := map[];
    var i := 0;
    while i < |history|
      invariant 0 <= i <= |history|
      invariant data == Collected(history, i)
    {
      var entry := history[i];
      var kept := false;
      if entry.role == "assistant" && entry.fieldKey != "" {
        var field := entry.fieldKey;
        if i + 1 < |history| && history[i + 1].role == "user" {
          var userResponse := history[i + 1].content;
          var isValidationError := false;
          if i + 2 < |history| && history[i + 2].role == "assistant" {
            if IsValidationError(history[i + 2].content) {
              isValidationError := true;
            }
          }
          if !isValidationError && Strip(userResponse) != "" {
            data := data[field := userResponse];
            kept := true;
          }
        }
      }
      assert kept == Kept(history, i);
      i := i + 1;
    }
  }

  /** A field is recorded exactly when some kept reply answers it. */
  lemma {:induction false} CollectedKeys(history: seq<Entry>, n: nat, k: string)
    requires n <= |history|
    ensures k in Collected(history, n) <==> exists i :: 0 <= i < n && Kept(history, i) && history[i].fieldKey == k
  {
    if n > 0 {
      CollectedKeys(history, n - 1, k);
    }
  }

  /** The recorded answer is the reply to the latest kept question for
    * the field: later pairs overwrite earlier ones. */
  lemma {:induction false} CollectedLatest(history: seq<Entry>, n: nat, i: nat)
    requires i < n <= |history| && Kept(history, i)
    requires forall j :: i < j < n && Kept(history, j) ==> history[j].fieldKey != history[i].fieldKey
    ensures history[i].fieldKey in Collected(history, n)
    ensures Collected(history, n)[history[i].fieldKey] == history[i + 1].content
  {
    if n - 1 > i {
      CollectedLatest(history, n - 1, i);
    }
  }

  /** Every recorded answer is non-blank. */
  lemma {:induction false} CollectedNonBlank(history: seq<Entry>, n: nat)
    requires n <= |history|
    ensures forall k :: k in Collected(history, n) ==> Strip(Collected(history, n)[k]) != ""
  {
    if n > 0 {
      CollectedNonBlank(history, n - 1);
    }
  }

  // ---------------------------------------------------------------------
  // The field being answered

  /** A question proper: an assistant message with a field key that is
    * not an error message. */
  predicate IsQuestion(e: Entry)
  {
    e.role == "assistant" && e.fieldKey != "" && !IsValidationError(e.content)
  }

  /** Index of the latest question in the history, or -1. */
  function LatestQuestion(history: seq<Entry>): (i: int)
    ensures -1 <= i < |history|
    ensures i >= 0 ==> IsQuestion(history[i])
    ensures forall j :: i < j < |history| ==> !IsQuestion(history[j])
  {
    if history == [] then -1
    else if IsQuestion(history[|history| - 1]) then |history| - 1
    else LatestQuestion(history[..|history| - 1])
  }

  /** `_get_current_field`: the field of the latest question, else "name". */
  function CurrentField(history: seq<Entry>): (f: string)
    ensures (forall i :: 0 <= i < |history| ==> !IsQuestion(history[i])) ==> f == "name"
    ensures (exists i :: 0 <= i < |history| && IsQuestion(history[i])) ==>
              exists i :: 0 <= i < |history| && IsQuestion(history[i]) && f == history[i].fieldKey &&
                          forall j :: i < j < |history| ==> !IsQuestion(history[j])
  {
    var i := LatestQuestion(history);
    if i >= 0 then history[i].fieldKey else "name"
  }

  // ---------------------------------------------------------------------
  // Validation

  /** The fields that accept any text. */
  const FreeTextFields: seq<string> := ["dob", "allergies", "medications", "symptoms", "medical_history",
                                        "chronic_diseases", "recent_surgeries", "symptom_duration", "family_history"]

  /** The fields of the validation table. */
  const RuleFields: seq<string> := ["name", "email", "phone", "emergency_contact", "weight", "height", "gender",
                                    "has_diabetes", "has_bp_issues", "blood_group", "smoking_status",
                                    "alcohol_consumption", "pain_level", "doctor_acknowledgment", "selected_slot",
                                    "payment_status"]

  /** The fields whose check accepts everything and whose error text
    * exists in English only. */
  const AcceptAllFields: seq<string> := ["doctor_acknowledgment", "selected_slot", "payment_status"]

  /** `v.replace(".", "").isdigit() and lo <= float(v) <= hi`; None where
    * `float` raises (more than one '.'). */
  function RangeCheck(v: string, lo: int, hi: int): Option<bool>
  {
    if !AllDigits(RemoveChar(v, '.')) then Some(false)
    else match Numbers.ParseFloat(v)
      case None => None
      case Some(d) => Some(d.Within(lo, hi))
  }

  /** The rule's check on the stripped answer; None where it raises. */
  function Check(field: string, v: string): Option<bool>
  {
    if field == "weight" then RangeCheck(v, 1, 300)
    else if field == "height" then RangeCheck(v, 30, 250)
    else if field == "pain_level" then RangeCheck(v, 0, 10)
    else if field == "name" then Some(AllLetters(RemoveChar(v, ' ')) && |v| > 1)
    else if field == "email" then Some(Contains(v, "@") && |v| > 3)
    else if field == "phone" || field == "emergency_contact" then Some(AllDigits(v) && |v| == 10)
    else if field == "gender" then Some(Lower(v) in ["male", "female", "other"])
    else if field == "has_diabetes" || field == "has_bp_issues" then Some(Lower(v) in ["yes", "no"])
    else if field == "blood_group" then Some(Upper(v) in ["A+", "A-", "B+", "B-", "O+", "O-", "AB+", "AB-", "UNKNOWN"])
    else if field == "smoking_status" then Some(Lower(v) in ["never", "former", "current"])
    else if field == "alcohol_consumption" then Some(Lower(v) in ["none", "occasional", "regular"])
    else Some(true)
  }

  /** An error message of the table, named by field and by the language
    * it is given in. */
  datatype ErrorMessage = ErrorMessage(field: string, language: string)

  datatype Validation = Accepted | Rejected(message: ErrorMessage)

  /** `rule["error"].get(language, rule["error"]["English"])`. */
  function ErrorLanguage(field: string, language: string): string
  {
    if language in ["Hindi", "Kannada"] && field !in AcceptAllFields then language else "English"
  }

  /** `_validate_input`. */
  function ValidateInput(field: string, value: string, language: string): (r: Validation)
    ensures field in FreeTextFields || field !in RuleFields ==> r == Accepted
    ensures r.Rejected? ==> r.message == ErrorMessage(field, ErrorLanguage(field, language))
  {
    var v := Strip(value);
    if field in FreeTextFields then Accepted
    else if field in RuleFields then
      if Check(field, v) == Some(true) then Accepted else Rejected(ErrorMessage(field, ErrorLanguage(field, language)))
    else Accepted
  }

  /** A field of the table that is not free text is accepted exactly when
    * its check passes on the stripped answer. */
  lemma CheckedAnswer(field: string, value: string, language: string)
    requires field in RuleFields && field !in FreeTextFields
    ensures ValidateInput(field, value, language).Accepted? <==> Check(field, Strip(value)) == Some(true)
  {
  }

  /** A phone number is accepted exactly when the stripped answer is ten
    * digits. */
  lemma PhoneRule(value: string, language: string)
    ensures ValidateInput("phone", value, language).Accepted? <==> AllDigits(Strip(value)) && |Strip(value)| == 10
  {
    CheckedAnswer("phone", value, language);
    PhoneCheck(Strip(value));
  }

  /** So is an emergency contact number. */
  lemma EmergencyContactRule(value: string, language: string)
    ensures ValidateInput("emergency_contact", value, language).Accepted? <==>
              AllDigits(Strip(value)) && |Strip(value)| == 10
  {
    CheckedAnswer("emergency_contact", value, language);
    PhoneCheck(Strip(value));
  }

  lemma PhoneCheck(v: string)
    ensures Check("phone", v) == Some(AllDigits(v) && |v| == 10)
    ensures Check("emergency_contact", v) == Some(AllDigits(v) && |v| == 10)
  {
  }

  /** A name is accepted exactly when, spaces removed, it is letters only,
    * and it has more than one character. */
  lemma NameRule(value: string, language: string)
    ensures ValidateInput("name", value, language).Accepted? <==>
              AllLetters(RemoveChar(Strip(value), ' ')) && |Strip(value)| > 1
  {
    CheckedAnswer("name", value, language);
  }

  /** A weight with two points makes `float` raise; the answer is refused
    * rather than the request failing. */
  lemma MalformedWeightRefused(language: string)
    ensures ValidateInput("weight", "1.2.3", language) == Rejected(ErrorMessage("weight", ErrorLanguage("weight", language)))
  {
    CheckedAnswer("weight", "1.2.3", language);
    MalformedWeightRaises();
  }

  lemma MalformedWeightRaises()
    ensures Strip("1.2.3") == "1.2.3"
    ensures Check("weight", "1.2.3") == None
  {
    Numbers.TwoPointsRaise("1.2.3", 1, 3);
    PointsRemoved();
    WeightRaises("1.2.3");
  }

  /** Once its points are removed, "1.2.3" passes `isdigit`. */
  lemma PointsRemoved()
    ensures AllDigits(RemoveChar("1.2.3", '.'))
  {
    assert RemoveChar("1.2.3", '.') == "123";
  }

  /** A weight whose digits pass the pre-check but which `float` refuses raises. */
  lemma WeightRaises(v: string)
    requires AllDigits(RemoveChar(v, '.')) && Numbers.ParseFloat(v).None?
    ensures Check("weight", v) == None
  {
  }

  /** The error text is in the requested language where the table has it,
    * in English otherwise. */
  lemma ErrorLanguageFallback(field: string, language: string)
    ensures language in ["Hindi", "Kannada"] && field !in AcceptAllFields ==> ErrorLanguage(field, language) == language
    ensures language !in ["Hindi", "Kannada"] ==> ErrorLanguage(field, language) == "English"
  {
  }

  // ---------------------------------------------------------------------
  // Field types and validation rules

  /** `_get_field_type`'s loop: the type of the first schema entry with the
    * key, "string" when no entry has it. */
  function TypeIn(fields: seq<IntakeField>, field: string): (t: string)
    ensures (forall i :: 0 <= i < |fields| ==> fields[i].key != field) ==> t == "string"
  {
    if fields == [] then "string"
    else if fields[0].key == field then fields[0].fieldType
    else TypeIn(fields[1..], field)
  }

  /** Where no schema entry before `i` has the key, the type is that of
    * entry `i`. */
  lemma {:induction false} TypeAt(fields: seq<IntakeField>, field: string, i: nat)
    requires i < |fields| && fields[i].key == field
    requires forall j :: 0 <= j < i ==> fields[j].key != field
    ensures TypeIn(fields, field) == fields[i].fieldType
  {
    if i > 0 {
      TypeAt(fields[1..], field, i - 1);
    }
  }

  function FieldType(field: string): string
  {
    TypeIn(IntakeFields, field)
  }

  /** The schema types the answers: a phone, a number, a choice, the payment. */
  lemma PhoneType()
    ensures FieldType("phone") == "phone"
  {
    TypeAt(IntakeFields, "phone", 2);
  }

  lemma WeightType()
    ensures FieldType("weight") == "number"
  {
    TypeAt(IntakeFields, "weight", 5);
  }

  lemma PainType()
    ensures FieldType("pain_level") == "number"
  {
    TypeAt(IntakeFields, "pain_level", 18);
  }

  lemma PaymentType()
    ensures FieldType("payment_status") == "payment"
  {
    TypeAt(IntakeFields, "payment_status", 24);
  }

  /** The rules sent with a question. */
  datatype Rules = NoRules | Options(options: seq<string>) | Range(min: int, max: int) | Pattern(pattern: string)

  /** The slot times offered for `selected_slot`. */
  const SlotTimes: seq<string> := ["10:00 AM", "12:00 PM", "4:00 PM", "6:00 PM"]

  /** The rules a matching schema entry yields; NoRules where the loop
    * goes on to the next entry. */
  function EntryRules(f: IntakeField): Rules
  {
    if f.key == "selected_slot" then Options(SlotTimes)
    else if f.choices.Some? then Options(f.choices.value)
    else if f.fieldType == "number" then
      if f.key == "pain_level" then Range(0, 10)
      else if f.key == "weight" then Range(1, 300)
      else if f.key == "height" then Range(30, 250)
      else NoRules
    else NoRules
  }

  /** `_get_validation_rules`: the loop over the schema, returning at the
    * first entry with the key that yields rules. */
  function RulesIn(fields: seq<IntakeField>, field: string): Rules
  {
    if fields == [] then NoRules
    else if fields[0].key == field && EntryRules(fields[0]) != NoRules then EntryRules(fields[0])
    else RulesIn(fields[1..], field)
  }

  function ValidationRules(field: string): Rules
  {
    RulesIn(IntakeFields, field)
  }

  lemma RulesInPeel(fields: seq<IntakeField>, field: string, i: nat)
    requires i < |fields|
    ensures RulesIn(fields[i..], field) ==
              if fields[i].key == field && EntryRules(fields[i]) != NoRules then EntryRules(fields[i])
              else RulesIn(fields[i + 1..], field)
  {
    assert fields[i..][1..] == fields[i + 1..];
  }

  /** Where no schema entry before `i` has the key, the rules are those of
    * entry `i` when it yields any. */
  lemma {:induction false} RulesAt(fields: seq<IntakeField>, field: string, i: nat)
    requires i < |fields| && fields[i].key == field && EntryRules(fields[i]) != NoRules
    requires forall j :: 0 <= j < i ==> fields[j].key != field
    ensures RulesIn(fields, field) == EntryRules(fields[i])
  {
    if i > 0 {
      RulesAt(fields[1..], field, i - 1);
    }
  }

  /** The number fields carry the ranges their checks enforce. */
  lemma WeightRange()
    ensures ValidationRules("weight") == Range(1, 300)
  {
    RulesAt(IntakeFields, "weight", 5);
  }

  lemma HeightRange()
    ensures ValidationRules("height") == Range(30, 250)
  {
    RulesAt(IntakeFields, "height", 6);
  }

  lemma PainRange()
    ensures ValidationRules("pain_level") == Range(0, 10)
  {
    RulesAt(IntakeFields, "pain_level", 18);
  }

  /** The slot question offers the four fixed times, not its empty choice
    * list. */
  lemma SlotRules()
    ensures ValidationRules("selected_slot") == Options(SlotTimes)
  {
    RulesAt(IntakeFields, "selected_slot", 23);
  }

  /** A choice field offers its schema choices. */
  lemma GenderRules()
    ensures ValidationRules("gender") == Options(["Male", "Female", "Other"])
  {
    RulesAt(IntakeFields, "gender", 4);
  }

  lemma PainCheck(v: string)
    ensures Check("pain_level", v) == RangeCheck(v, 0, 10)
  {
  }

  /** A pain level is accepted exactly when the range check of the rules'
    * bounds passes on it. */
  lemma PainAcceptedInRange(value: string, language: string)
    ensures ValidateInput("pain_level", value, language).Accepted? <==> RangeCheck(Strip(value), 0, 10) == Some(true)
  {
    CheckedAnswer("pain_level", value, language);
    PainCheck(Strip(value));
  }

  /** The range check passes exactly on digit text with at most one point
    * whose value lies within the bounds; text with two points raises. */
  lemma RangeCheckMeaning(v: string, lo: int, hi: int)
    ensures RangeCheck(v, lo, hi) == Some(true) <==>
              AllDigits(RemoveChar(v, '.')) && Numbers.ParseFloat(v).Some? && Numbers.ParseFloat(v).value.Within(lo, hi)
    ensures RangeCheck(v, lo, hi) == None <==> AllDigits(RemoveChar(v, '.')) && Numbers.ParseFloat(v).None?
  {
  }

  // ---------------------------------------------------------------------
  // Specialist assignment

  const DoctorGroups: seq<(seq<string>, string)> := [
    (["heart", "chest", "breath"], "Dr. Aditi Sharma (Cardiologist)"),
    (["skin", "rash", "itch"], "Dr. Rajesh Gupta (Dermatologist)"),
    (["child", "baby", "infant"], "Dr. Sneha Patil (Pediatrician)")
  ]

  /** `_assign_doctor`: the first group with a keyword in the lower-cased
    * symptoms, else the general physician. */
  function AssignDoctor(symptoms: string): (r: string)
    ensures r == JsonIntake.GeneralPhysician || exists i :: 0 <= i < |DoctorGroups| && r == DoctorGroups[i].1
  {
    JsonIntake.FirstMatch(DoctorGroups, Lower(symptoms), JsonIntake.GeneralPhysician)
  }

  lemma AssignDoctorPriority(symptoms: string)
    ensures var i := JsonIntake.FirstHit(DoctorGroups, Lower(symptoms));
            && (forall j :: 0 <= j < i ==> !ContainsAny(Lower(symptoms), DoctorGroups[j].0))
            && (i < |DoctorGroups| ==> ContainsAny(Lower(symptoms), DoctorGroups[i].0) &&
                                       AssignDoctor(symptoms) == DoctorGroups[i].1)
            && (i == |DoctorGroups| ==> AssignDoctor(symptoms) == JsonIntake.GeneralPhysician)
  {
    JsonIntake.FirstGroupWins(DoctorGroups, Lower(symptoms), JsonIntake.GeneralPhysician);
  }

  /** Whenever this version sends the patient to the cardiologist, so
    * does the nine-way assignment of the JSON intake. */
  lemma CardiologistAgrees(symptoms: string)
    requires AssignDoctor(symptoms) == DoctorGroups[0].1
    ensures JsonIntake.AssignDoctor(symptoms) == DoctorGroups[0].1
  {
    var text := Lower(symptoms);
    AssignDoctorPriority(symptoms);
    JsonIntake.AssignDoctorPriority(symptoms);
    var i := JsonIntake.FirstHit(DoctorGroups, text);
    assert i == 0;
    var k :| k in DoctorGroups[0].0 && Contains(text, k);
    assert k in JsonIntake.DoctorGroups[0].0;
  }

  // ---------------------------------------------------------------------
  // Booking type

  const UrgentKeywords: seq<string> := [
    "chest pain", "difficulty breathing", "severe pain", "bleeding", "unconscious",
    "stroke", "heart attack", "seizure", "severe headache", "high fever",
    "accident", "injury", "emergency", "critical", "urgent"]

  const SuddenWords: seq<string> := ["hour", "hours", "sudden", "just now", "minutes"]

  datatype Booking = Instant | Scheduled(slots: seq<string>)

  /** The slots of a scheduled booking, as the file holds them: each dash is
    * the three characters U+201A U+00C4 U+00EC, an en dash decoded in the
    * wrong character set. */
  const BookingSlots: seq<string> := [
    "Morning (9 AM \U{201A}\U{00C4}\U{00EC} 12 PM)",
    "Afternoon (1 PM \U{201A}\U{00C4}\U{00EC} 4 PM)",
    "Evening (5 PM \U{201A}\U{00C4}\U{00EC} 8 PM)"]

  /** The urgency rule, given whether the pain reaches 8 and whether it
    * reaches 6. */
  predicate UrgentBy(severe: bool, moderate: bool, data: Record)
  {
    || severe
    || ContainsAny(Lower(JsonIntake.Field(data, "symptoms", "")), UrgentKeywords)
    || (ContainsAny(Lower(JsonIntake.Field(data, "symptom_duration", "")), SuddenWords) && moderate)
  }

  /** The pain level as written: `int()` of the text when it is digits once
    * the points are removed, else 0; None where `int()` raises. */
  function PainAsWritten(data: Record): Option<int>
  {
    var p := JsonIntake.Field(data, "pain_level", "");
    if AllDigits(RemoveChar(p, '.')) then Numbers.ParseInt(p) else Some(0)
  }

  /** `_determine_booking_type` as written: a raise anywhere, here only in
    * `int()`, gives the scheduled booking. */
  function BookingAsWritten(data: Record): Booking
  {
    match PainAsWritten(data)
    case None => Scheduled(BookingSlots)
    case Some(pain) => if UrgentBy(pain >= 8, pain >= 6, data) then Instant else Scheduled(BookingSlots)
  }

  /** The pain level read as the number the validation accepted: `float()`
    * of the text, 0 where it is not a number. */
  function PainLevel(data: Record): Numbers.Decimal
  {
    var p := JsonIntake.Field(data, "pain_level", "");
    if AllDigits(RemoveChar(p, '.')) then Numbers.ParseFloat(p).GetOr(Numbers.Decimal(0, 0)) else Numbers.Decimal(0, 0)
  }

  /** The booking the rule intends: instant exactly when the patient is
    * urgent. */
  function BookingFor(data: Record): Booking
  {
    var pain := PainLevel(data);
    if UrgentBy(pain.AtLeast(8), pain.AtLeast(6), data) then Instant else Scheduled(BookingSlots)
  }

  /** `_determine_booking_type` with the pain level read by `float()`. */
  method DetermineBookingType(data: Record) returns (booking: Booking)
    ensures booking == BookingFor(data)
  {
    var symptoms := Lower(JsonIntake.Field(data, "symptoms", ""));
    var pain := PainLevel(data);
    var duration := Lower(JsonIntake.Field(data, "symptom_duration", ""));
    var isUrgent := false;
    if pain.AtLeast(8) {
      isUrgent := true;
    }
    var k := 0;
    while k < |UrgentKeywords|
      invariant 0 <= k <= |UrgentKeywords|
      invariant isUrgent <==> pain.AtLeast(8) || exists j :: 0 <= j < k && Contains(symptoms, UrgentKeywords[j])
    {
      if Contains(symptoms, UrgentKeywords[k]) {
        isUrgent := true;
        break;
      }
      k := k + 1;
    }
    assert isUrgent <==> pain.AtLeast(8) || ContainsAny(symptoms, UrgentKeywords);
    if ContainsAny(duration, SuddenWords) {
      if pain.AtLeast(6) {
        isUrgent := true;
      }
    }
    booking := if isUrgent then Instant else Scheduled(BookingSlots);
  }

  lemma ScaleCompare(a: int, b: int, p: int)
    requires p > 0
    ensures a * p <= b * p <==> a <= b
  {
    if a <= b {
      assert (b - a) * p >= 0;
    } else {
      assert (a - b) * p > 0;
    }
  }

  /** Where the pain level has no point, the code as written and the
    * intended rule agree. */
  lemma BookingAgreesWithoutPoint(data: Record)
    requires '.' !in JsonIntake.Field(data, "pain_level", "")
    ensures BookingAsWritten(data) == BookingFor(data)
  {
    var p := JsonIntake.Field(data, "pain_level", "");
    RemoveCharAbsent(p, '.');
    if AllDigits(p) {
      Numbers.StripDigits(p);
      assert Numbers.ParseInt(p) == Some(Numbers.DigitsValue(p)) by {
        assert Numbers.SignedBody(p) == p by { assert IsDigit(p[0]); }
      }
      var n := Numbers.DigitsValue(p);
      Numbers.ParseFloatExtendsParseInt(p, n);
      var d := PainLevel(data);
      assert d.mantissa == n * Numbers.Pow10(d.scale);
      ScaleCompare(8, n, Numbers.Pow10(d.scale));
      ScaleCompare(6, n, Numbers.Pow10(d.scale));
    } else {
      assert PainLevel(data) == Numbers.Decimal(0, 0);
    }
  }

  /** A pain level of "9.5", which the validation accepts, makes `int()`
    * raise: the booking is scheduled even for chest pain, where the
    * intended rule books instantly. */
  lemma DecimalPainIsScheduled()
    ensures var data := map["pain_level" := "9.5", "symptoms" := "chest pain"];
            && ContainsAny(Lower(data["symptoms"]), UrgentKeywords)
            && BookingAsWritten(data) == Scheduled(BookingSlots)
            && BookingFor(data) == Instant
  {
    var data := map["pain_level" := "9.5", "symptoms" := "chest pain"];
    assert JsonIntake.Field(data, "pain_level", "") == "9.5";
    DecimalPainRaises();
    assert PainAsWritten(data) == None;
    DecimalPainSevere();
    assert PainLevel(data).AtLeast(8);
    ChestPainUrgent();
  }

  lemma DecimalPainRaises()
    ensures AllDigits(RemoveChar("9.5", '.')) && Numbers.ParseInt("9.5") == None
  {
    var p := "9.5";
    assert RemoveChar(p, '.') == "95";
    StripTrimmed(p);
    assert Numbers.SignedBody(p) == p;
    assert !AllDigits(p) by { assert p[1] == '.'; }
  }

  lemma DecimalPainSevere()
    ensures Numbers.ParseFloat("9.5").Some? && Numbers.ParseFloat("9.5").value.AtLeast(8)
  {
    NineAndAHalf("9.5");
  }

  /** `float` reads a text spelling nine and a half as at least 8. */
  lemma NineAndAHalf(v: string)
    requires |v| == 3 && v[0] == '9' && v[1] == '.' && v[2] == '5'
    ensures Numbers.ParseFloat(v).Some? && Numbers.ParseFloat(v).value.AtLeast(8)
  {
    assert v == v[..1] + "." + v[2..];
    Numbers.ParseFloatOfPoint(v[..1], v[2..]);
    assert Numbers.DigitsValue(v[..1]) == 9 && Numbers.DigitsValue(v[2..]) == 5;
    assert Numbers.Pow10(1) == 10;
  }

  lemma ChestPainUrgent()
    ensures ContainsAny(Lower("chest pain"), UrgentKeywords)
  {
    var s := "chest pain";
    LowerByChars(s, s);
    ContainsItself(s);
    assert UrgentKeywords[0] == s;
  }

  // ---------------------------------------------------------------------
  // One request of `process_intake`

  /** The text of a reply, named by what it is. */
  datatype Message =
    | Greeting(language: string)
    | SummaryFallback(language: string)
    | Generated(text: string)
    | Question(field: string, name: string, language: string)
    | Error(error: ErrorMessage)

  datatype IntakeResponse = IntakeResponse(message: Message, fieldKey: string, expectedType: string, rules: Rules,
                                           complete: bool, collected: Record, nextAction: Medical.NextAction,
                                           booking: Option<Booking>)

  /** `_generate_summary_message`: the model's text stripped, or the fixed
    * summary where the call raised. */
  function SummaryMessage(llmSummary: Option<string>, language: string): Message
  {
    match llmSummary
    case Some(text) => Generated(Strip(text))
    case None => SummaryFallback(language)
  }

  /** The reply once the answer is stored. */
  function Advance(stored: Record, llmSummary: Option<string>, language: string): IntakeResponse
  {
    var next := NextField(stored);
    if next == "" then
      IntakeResponse(SummaryMessage(llmSummary, language), "summary", "string", NoRules, true, stored,
                     Medical.Summary, Some(BookingFor(stored)))
    else
      IntakeResponse(Question(next, JsonIntake.Field(stored, "name", ""), language), next, FieldType(next),
                     ValidationRules(next), false, stored, Medical.Ask, None)
  }

  /** The reply for the answers recovered from the history, whether the
    * history is empty, the field being answered and the verdict on the
    * input. */
  function Reply(collected: Record, newChat: bool, field: string, verdict: Validation, userInput: string,
                 language: string, llmSummary: Option<string>): IntakeResponse
  {
    if NextField(collected) == "" then
      IntakeResponse(SummaryFallback(language), "", "string", NoRules, true, collected, Medical.Summary, None)
    else if newChat then
      IntakeResponse(Greeting(language), "name", "string", Pattern("^[a-zA-Z ]+$"), false, map[], Medical.Ask, None)
    else if Strip(userInput) != "" && verdict.Rejected? then
      IntakeResponse(Error(verdict.message), field, FieldType(field), ValidationRules(field), false, collected,
                     Medical.Validate, None)
    else if Strip(userInput) != "" then Advance(collected[field := Strip(userInput)], llmSummary, language)
    else Advance(collected, llmSummary, language)
  }

  /** `process_intake` for the history, the input, the language and the
    * language model's summary text (None where the call raised). */
  function Process(history: seq<Entry>, userInput: string, language: string, llmSummary: Option<string>): IntakeResponse
  {
    var field := CurrentField(history);
    Reply(Collected(history, |history|), history == [], field, ValidateInput(field, userInput, language), userInput,
          language, llmSummary)
  }

  method ProcessIntake(history: seq<Entry>, userInput: string, language: string, llmSummary: Option<string>)
    returns (response: IntakeResponse)
    ensures response == Process(history, userInput, language, llmSummary)
  {
    var collected := ExtractCollectedData(history);
    var nextField := NextField(collected);
    if nextField == "" {
      return IntakeResponse(SummaryFallback(language), "", "string", NoRules, true, collected, Medical.Summary, None);
    }
    if |history| == 0 {
      return IntakeResponse(Greeting(language), "name", "string", Pattern("^[a-zA-Z ]+$"), false, map[], Medical.Ask, None);
    }
    if Strip(userInput) != "" {
      var currentField := CurrentField(history);
      var validation := ValidateInput(currentField, userInput, language);
      if validation.Rejected? {
        return IntakeResponse(Error(validation.message), currentField, FieldType(currentField),
                              ValidationRules(currentField), false, collected, Medical.Validate, None);
      }
      collected := collected[currentField := Strip(userInput)];
    }
    nextField := NextField(collected);
    if nextField == "" {
      var booking := DetermineBookingType(collected);
      return IntakeResponse(SummaryMessage(llmSummary, language), "summary", "string", NoRules, true, collected,
                            Medical.Summary, Some(booking));
    }
    response := IntakeResponse(Question(nextField, JsonIntake.Field(collected, "name", ""), language), nextField,
                               FieldType(nextField), ValidationRules(nextField), false, collected, Medical.Ask, None);
  }

  /** A rejected answer asks the same field again, in the validate state,
    * with the rule's error message, and stores nothing. */
  lemma RejectedAnswerRepeats(collected: Record, field: string, verdict: Validation, userInput: string,
                              language: string, llmSummary: Option<string>)
    requires NextField(collected) != "" && Strip(userInput) != "" && verdict.Rejected?
    ensures var r := Reply(collected, false, field, verdict, userInput, language, llmSummary);
            && r.fieldKey == field && r.nextAction == Medical.Validate && !r.complete
            && r.collected == collected && r.message == Error(verdict.message)
  {
  }

  /** An accepted answer is stored, stripped, under the field being
    * answered. */
  lemma AcceptedAnswerStored(collected: Record, field: string, verdict: Validation, userInput: string,
                             language: string, llmSummary: Option<string>)
    requires NextField(collected) != "" && Strip(userInput) != "" && verdict.Accepted?
    ensures var r := Reply(collected, false, field, verdict, userInput, language, llmSummary);
            && r.collected == collected[field := Strip(userInput)]
            && r.collected[field] == Strip(userInput)
  {
    AdvanceShape(collected[field := Strip(userInput)], llmSummary, language);
  }

  /** After the answer is stored, the intake is complete exactly when
    * nothing is left; otherwise the next field is asked. */
  lemma AdvanceShape(stored: Record, llmSummary: Option<string>, language: string)
    ensures var r := Advance(stored, llmSummary, language);
            && r.collected == stored
            && (r.complete <==> NextField(stored) == "")
            && (r.complete ==> r.nextAction == Medical.Summary && r.booking == Some(BookingFor(stored)))
            && (!r.complete ==> r.nextAction == Medical.Ask && r.fieldKey == NextField(stored) && r.booking.None?)
  {
  }

  /** The intake is complete exactly when nothing is left to ask; a
    * question asks the next field, and a booking follows the urgency
    * rule. */
  lemma CompleteIffNothingLeft(collected: Record, newChat: bool, field: string, verdict: Validation, userInput: string,
                               language: string, llmSummary: Option<string>)
    requires newChat ==> collected == map[]
    ensures var r := Reply(collected, newChat, field, verdict, userInput, language, llmSummary);
            && (r.complete <==> NextField(r.collected) == "")
            && (r.nextAction == Medical.Ask ==> r.fieldKey == NextField(r.collected))
            && (r.booking.Some? ==> r.booking.value == BookingFor(r.collected))
  {
    NameFirst();
    if NextField(collected) != "" && !newChat && !(Strip(userInput) != "" && verdict.Rejected?) {
      AdvanceShape(if Strip(userInput) != "" then collected[field := Strip(userInput)] else collected, llmSummary, language);
    }
  }

  /** An empty history recovers no answers. */
  lemma FreshHistoryEmpty(history: seq<Entry>)
    requires history == []
    ensures Collected(history, |history|) == map[]
  {
  }
}
