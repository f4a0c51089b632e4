// The deterministic parts of the language-model service
// (app/services/groq_service.py): the vital-signs emergency check, the
// code-fence cleanup of generated text and the fallback assessment.

module Groq {
  import opened Wrappers
  import opened Text
  import opened Numbers
  import opened Json
  import opened Medical

  // ---------------------------------------------------------------------
  // Vital signs

  /** `sys, dia = map(int, bp.split('/'))`: None where unpacking or `int()`
    * raises. */
  function BpReading(bp: string): (r: Option<(int, int)>)
    ensures r.Some? ==> |Split(bp, '/')| == 2
  {
    var parts := Split(bp, '/');
    if |parts| == 2 && ParseInt(parts[0]).Some? && ParseInt(parts[1]).Some? then
      Some((ParseInt(parts[0]).value, ParseInt(parts[1]).value))
    else None
  }

  /** Hypertensive crisis or hypotension. */
  predicate BpCritical(systolic: int, diastolic: int)
  {
    systolic > 180 || diastolic > 120 || systolic < 90 || diastolic < 60
  }

  /** An all-digit sugar reading below 70 or above 300 mg/dL. */
  predicate SugarCritical(sugar: string)
  {
    AllDigits(sugar) && (DigitsValue(sugar) < 70 || DigitsValue(sugar) > 300)
  }

  /** `_check_vitals_emergency`: the BP check runs first; a BP with a '/'
    * that does not parse raises, and the exception answers False before
    * the sugar is looked at. */
  function CheckVitalsEmergency(bp: string, sugar: string): bool
  {
    if '/' in bp then
      match BpReading(bp)
      case None => false
      case Some((systolic, diastolic)) =>
        if BpCritical(systolic, diastolic) then true else SugarCritical(sugar)
    else SugarCritical(sugar)
  }

  /** The check in one formula: a critical BP reading, or a critical sugar
    * reading that a malformed BP does not mask. */
  lemma VitalsEmergencyIff(bp: string, sugar: string)
    ensures CheckVitalsEmergency(bp, sugar) <==>
              ('/' in bp && BpReading(bp).Some? && BpCritical(BpReading(bp).value.0, BpReading(bp).value.1))
              || (('/' !in bp || BpReading(bp).Some?) && SugarCritical(sugar))
  {
  }

  /** A malformed BP containing '/' gives False whatever the sugar. */
  lemma MalformedBpMasksSugar(bp: string, sugar: string)
    requires '/' in bp && BpReading(bp).None?
    ensures !CheckVitalsEmergency(bp, sugar)
  {
  }

  /** An integer's text holds no '/'. */
  lemma NoSlashInInt(n: int)
    ensures '/' !in IntToString(n)
  {
    var s := NatToString(if n < 0 then -n else n);
    assert forall i :: 0 <= i < |s| ==> s[i] != '/';
  }

  /** `"s/d"` built from two integers reads back as those integers. */
  lemma BpReadingOfText(systolic: int, diastolic: int)
    ensures BpReading(IntToString(systolic) + "/" + IntToString(diastolic)) == Some((systolic, diastolic))
    ensures '/' in IntToString(systolic) + "/" + IntToString(diastolic)
  {
    var a := IntToString(systolic);
    var b := IntToString(diastolic);
    var bp := a + "/" + b;
    assert Split(bp, '/') == [a, b] by {
      NoSlashInInt(systolic);
      NoSlashInInt(diastolic);
      assert bp == a + ['/'] + b;
      SplitFirst(a, '/', b);
      SplitNoSeparator(b, '/');
    }
    ParseIntRoundTrip(systolic);
    ParseIntRoundTrip(diastolic);
    BpReadingOfParts(bp, a, b);
    assert bp[|a|] == '/';
  }

  /** A BP that splits into two integer texts reads as those integers. */
  lemma BpReadingOfParts(bp: string, a: string, b: string)
    requires Split(bp, '/') == [a, b] && ParseInt(a).Some? && ParseInt(b).Some?
    ensures BpReading(bp) == Some((ParseInt(a).value, ParseInt(b).value))
  {
  }

  /** A well-formed BP reading is an emergency exactly when it is out of
    * range or the sugar reading is. */
  lemma BpThresholds(systolic: int, diastolic: int, sugar: string)
    ensures CheckVitalsEmergency(IntToString(systolic) + "/" + IntToString(diastolic), sugar) <==>
              BpCritical(systolic, diastolic) || SugarCritical(sugar)
  {
    BpReadingOfText(systolic, diastolic);
  }

  /** A BP without '/' and a sugar that is not all digits give False. */
  lemma UnreadableVitals(bp: string, sugar: string)
    requires '/' !in bp && !AllDigits(sugar)
    ensures !CheckVitalsEmergency(bp, sugar)
  {
  }

  /** The prompt line added when the vitals are critical. */
  function EmergencyInstruction(bp: string, sugar: string): (r: string)
    ensures r != "" <==> CheckVitalsEmergency(bp, sugar)
  {
    if CheckVitalsEmergency(bp, sugar) then
      "CRITICAL: Vitals indicate a potential emergency. Urgency MUST be High or Critical."
    else ""
  }

  // ---------------------------------------------------------------------
  // Code-fence cleanup

  const Fence := "```"
  const JsonFence := "```json"

  /** The cleanup `generate_text` applies to the model's reply. */
  function CleanFences(content: string): (r: string)
    ensures !Contains(r, Fence)
    ensures r == [] || (!IsSpace(r[0]) && !IsSpace(r[|r| - 1]))
  {
    var unfenced :=
      if Contains(content, JsonFence) then ReplaceAll(ReplaceAll(content, JsonFence, ""), Fence, "")
      else if Contains(content, Fence) then ReplaceAll(content, Fence, "")
      else content;
    NoFenceLeft(if Contains(content, JsonFence) then ReplaceAll(content, JsonFence, "") else content);
    StripNoNewFence(unfenced);
    Strip(unfenced)
  }

  /** Text without fences is only stripped. */
  lemma CleanUnfenced(content: string)
    requires !Contains(content, Fence)
    ensures CleanFences(content) == Strip(content)
  {
    if Contains(content, JsonFence) {
      JsonFenceHasFence(content);
    }
  }

  /** A json fence contains a plain fence. */
  lemma {:induction false} JsonFenceHasFence(s: string)
    requires Contains(s, JsonFence)
    ensures Contains(s, Fence)
  {
    if StartsWith(s, JsonFence) {
      StartsWithIsPrefix(s, JsonFence);
      StartsWithIsPrefix(s, Fence);
      assert s[..3] == s[..7][..3];
    } else {
      JsonFenceHasFence(s[1..]);
    }
  }

  /** A fence starts a text exactly when its first three characters are backticks. */
  lemma FenceAt(s: string)
    ensures StartsWith(s, Fence) <==> |s| >= 3 && s[0] == '`' && s[1] == '`' && s[2] == '`'
  {
    StartsWithIsPrefix(s, Fence);
    if |s| >= 3 && s[0] == '`' && s[1] == '`' && s[2] == '`' {
      assert s[..3] == Fence;
    }
  }

  /** Putting a character in front of fence-free text makes no fence unless
    * it completes a run of three backticks. */
  lemma ConsNoFence(c: char, x: string)
    requires !Contains(x, Fence)
    requires c != '`' || |x| < 2 || x[0] != '`' || x[1] != '`'
    ensures !Contains([c] + x, Fence)
  {
    FenceAt([c] + x);
    assert ([c] + x)[1..] == x;
  }

  /** Text that does not start with a fence keeps its first character. */
  lemma ReplaceStep(s: string)
    requires s != [] && !StartsWith(s, Fence)
    ensures ReplaceAll(s, Fence, "") == [s[0]] + ReplaceAll(s[1..], Fence, "")
  {
  }

  /** Removing every fence leaves none: each run of backticks shrinks to
    * fewer than three and no two runs meet. */
  lemma {:induction false} NoFenceLeft(s: string)
    ensures !Contains(ReplaceAll(s, Fence, ""), Fence)
    decreases |s|
  {
    FenceAt(s);
    if s == [] {
    } else if StartsWith(s, Fence) {
      NoFenceLeft(s[3..]);
      assert s[|Fence|..] == s[3..];
      assert "" + ReplaceAll(s[3..], Fence, "") == ReplaceAll(s[3..], Fence, "");
      assert ReplaceAll(s, Fence, "") == ReplaceAll(s[3..], Fence, "");
    } else if s[0] != '`' || |s| == 1 {
      NoFenceLeft(s[1..]);
      ReplaceStep(s);
      ConsNoFence(s[0], ReplaceAll(s[1..], Fence, ""));
    } else {
      var t := s[1..];
      FenceAt(t);
      assert !StartsWith(t, Fence);
      ReplaceStep(s);
      ReplaceStep(t);
      assert t[1..] == s[2..];
      NoFenceLeft(s[2..]);
      var tail := ReplaceAll(s[2..], Fence, "");
      if |s| > 2 && s[1] == '`' {
        assert s[2] != '`' && s[2..][0] == s[2];
        FenceAt(s[2..]);
        ReplaceStep(s[2..]);
      }
      ConsNoFence(s[1], tail);
      ConsNoFence(s[0], [s[1]] + tail);
    }
  }

  /** Stripping cannot create a fence. */
  lemma StripNoNewFence(s: string)
    requires !Contains(s, Fence)
    ensures !Contains(Strip(s), Fence)
  {
    var t := StripStart(s);
    assert s[|s| - |t|..|s|] == t;
    if Contains(t, Fence) {
      ContainsInSlice(s, Fence, |s| - |t|, |s|);
    }
    var r := StripEnd(t);
    assert t[0..|r|] == r;
    if Contains(r, Fence) {
      ContainsInSlice(t, Fence, 0, |r|);
    }
  }

  // ---------------------------------------------------------------------
  // Fallback assessment

  const FallbackEnglish :=
    "I am having trouble connecting to my medical brain right now. However, based on your request, I recommend seeing a General Physician to be safe."
  const FallbackHindi :=
    "मुझे अभी अपने मेडिकल डेटाबेस से जुड़ने में समस्या हो रही है। हालांकि, सुरक्षित रहने के लिए, मैं आपको सामान्य चिकित्सक (General Physician) से मिलने की सलाह देता हूं।"
  const FallbackKannada :=
    "ನನ್ನ ವೈದ್ಯಕೀಯ ಡೇಟಾಬೇಸ್ ಅನ್ನು ಸಂಪರ್ಕಿಸಲು ನನಗೆ ತೊಂದರೆಯಾಗುತ್ತಿದೆ. ಆದರೂ, ಸುರಕ್ಷಿತವಾಗಿರಲು, ನೀವು ಸಾಮಾನ್ಯ ವೈದ್ಯರನ್ನು (General Physician) ಕಾಣುವಂತೆ ನಾನು ಶಿಫಾರಸು ಮಾಡುತ್ತೇನೆ."

  const FallbackExplanation :=
    "System limitation or connection error preventing detailed analysis. Defaulting to safe recommendation."
  const FallbackDisclaimer :=
    "This is a fallback system message. Please consult a doctor immediately if you feel unwell."

  /** `messages.get(language, messages["English"])`. */
  function FallbackMessage(language: string): (r: string)
    ensures language == "Hindi" ==> r == FallbackHindi
    ensures language == "Kannada" ==> r == FallbackKannada
    ensures language !in {"Hindi", "Kannada"} ==> r == FallbackEnglish
  {
    if language == "Hindi" then FallbackHindi
    else if language == "Kannada" then FallbackKannada
    else FallbackEnglish
  }

  /** The keyword arguments `_get_fallback_assessment` passes, as written. */
  function FallbackFieldsAsWritten(language: string): map<string, Json>
  {
    map[
      "urgency_level" := JStr("Medium"),
      "possible_conditions" := Strings(["Undetermined"]),
      "suggested_tests" := Strings(["Routine Health Checkup"]),
      "recommended_specialist" := JStr("General Physician"),
      "explanation" := JStr(FallbackExplanation),
      "disclaimer" := JStr(FallbackDisclaimer),
      "avatar_message" := JStr(FallbackMessage(language))]
  }

  /** As written the fallback omits four required fields, so building it
    * raises and no fallback assessment is ever returned. */
  lemma FallbackAsWrittenRaises(language: string)
    ensures Assessment(FallbackFieldsAsWritten(language)).None?
  {
    assert "doctor_advice" !in FallbackFieldsAsWritten(language);
  }

  /** The fallback with the missing required fields supplied (empty advice
    * and empty lists). */
  function FallbackAssessment(language: string): (r: MedicalAssessment)
    ensures r.urgencyLevel == Medium
    ensures r.possibleConditions == ["Undetermined"]
    ensures r.recommendedSpecialist == "General Physician"
    ensures r.avatarMessage == FallbackMessage(language)
  {
    MedicalAssessment(Medium, ["Undetermined"], ["Routine Health Checkup"], "General Physician",
      FallbackExplanation, FallbackDisclaimer, FallbackMessage(language), "", [], [], [], "")
  }

  /** The corrected fallback passes validation. */
  lemma FallbackValidates(language: string)
    ensures Assessment(Dump(FallbackAssessment(language))) == Some(FallbackAssessment(language))
  {
    DumpRoundTrip(FallbackAssessment(language));
  }

  /** The corrected fallback agrees with the written one on every field the
    * source sets. */
  lemma FallbackKeepsWrittenFields(language: string)
    ensures forall k :: k in FallbackFieldsAsWritten(language) ==>
              k in Dump(FallbackAssessment(language)) &&
              Dump(FallbackAssessment(language))[k] == FallbackFieldsAsWritten(language)[k]
  {
  }
}
