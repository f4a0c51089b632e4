// The multilingual question catalogue (app/services/question_bank.py) and
// the lookup that renders a question from it (`_get_question` in
// app/api/routes/json_intake.py).

module QuestionBank {
  import opened Wrappers

  /** A template is literal text interleaved with `{slot}` placeholders, as
    * Python's `str.format` sees it. */
  datatype Piece = Lit(text: string) | Slot(name: string)
  type Template = seq<Piece>

  const Languages: set<string> := {"English", "Hindi", "Kannada"}
  const NotFound := "Question not found."

  /** Question key -> language -> template. */
  const Bank: map<string, map<string, Template>> := map[
    "patient_relation" := map["English" := PatientRelationEn, "Hindi" := PatientRelationHi, "Kannada" := PatientRelationKn],
    "name_self" := map["English" := NameSelfEn, "Hindi" := NameSelfHi, "Kannada" := NameSelfKn],
    "name_other" := map["English" := NameOtherEn, "Hindi" := NameOtherHi, "Kannada" := NameOtherKn],
    "age_self" := map["English" := AgeSelfEn, "Hindi" := AgeSelfHi, "Kannada" := AgeSelfKn],
    "age_other" := map["English" := AgeOtherEn, "Hindi" := AgeOtherHi, "Kannada" := AgeOtherKn],
    "gender_self" := map["English" := GenderSelfEn, "Hindi" := GenderSelfHi, "Kannada" := GenderSelfKn],
    "gender_other" := map["English" := GenderOtherEn, "Hindi" := GenderOtherHi, "Kannada" := GenderOtherKn],
    "phone" := map["English" := PhoneEn, "Hindi" := PhoneHi, "Kannada" := PhoneKn],
    "email" := map["English" := EmailEn, "Hindi" := EmailHi, "Kannada" := EmailKn],
    "location" := map["English" := LocationEn, "Hindi" := LocationHi, "Kannada" := LocationKn],
    "weight_self" := map["English" := WeightSelfEn, "Hindi" := WeightSelfHi, "Kannada" := WeightSelfKn],
    "weight_other" := map["English" := WeightOtherEn, "Hindi" := WeightOtherHi, "Kannada" := WeightOtherKn],
    "blood_group_self" := map["English" := BloodGroupSelfEn, "Hindi" := BloodGroupSelfHi, "Kannada" := BloodGroupSelfKn],
    "blood_group_other" := map["English" := BloodGroupOtherEn, "Hindi" := BloodGroupOtherHi, "Kannada" := BloodGroupOtherKn],
    "symptoms_self" := map["English" := SymptomsSelfEn, "Hindi" := SymptomsSelfHi, "Kannada" := SymptomsSelfKn],
    "symptoms_other" := map["English" := SymptomsOtherEn, "Hindi" := SymptomsOtherHi, "Kannada" := SymptomsOtherKn],
    "duration" := map["English" := DurationEn, "Hindi" := DurationHi, "Kannada" := DurationKn],
    "bp_history_self" := map["English" := BpHistorySelfEn, "Hindi" := BpHistorySelfHi, "Kannada" := BpHistorySelfKn],
    "bp_history_other" := map["English" := BpHistoryOtherEn, "Hindi" := BpHistoryOtherHi, "Kannada" := BpHistoryOtherKn],
    "sugar_history_self" := map["English" := SugarHistorySelfEn, "Hindi" := SugarHistorySelfHi, "Kannada" := SugarHistorySelfKn],
    "sugar_history_other" := map["English" := SugarHistoryOtherEn, "Hindi" := SugarHistoryOtherHi, "Kannada" := SugarHistoryOtherKn],
    "thyroid_history_self" := map["English" := ThyroidHistorySelfEn, "Hindi" := ThyroidHistorySelfHi, "Kannada" := ThyroidHistorySelfKn],
    "thyroid_history_other" := map["English" := ThyroidHistoryOtherEn, "Hindi" := ThyroidHistoryOtherHi, "Kannada" := ThyroidHistoryOtherKn],
    "surgeries_self" := map["English" := SurgeriesSelfEn, "Hindi" := SurgeriesSelfHi, "Kannada" := SurgeriesSelfKn],
    "surgeries_other" := map["English" := SurgeriesOtherEn, "Hindi" := SurgeriesOtherHi, "Kannada" := SurgeriesOtherKn],
    "medications_self" := map["English" := MedicationsSelfEn, "Hindi" := MedicationsSelfHi, "Kannada" := MedicationsSelfKn],
    "medications_other" := map["English" := MedicationsOtherEn, "Hindi" := MedicationsOtherHi, "Kannada" := MedicationsOtherKn],
    "assigned_doctor" := map["English" := AssignedDoctorEn, "Hindi" := AssignedDoctorHi, "Kannada" := AssignedDoctorKn],
    "selected_slot" := map["English" := SelectedSlotEn, "Hindi" := SelectedSlotHi, "Kannada" := SelectedSlotKn],
    "payment_status" := map["English" := PaymentStatusEn, "Hindi" := PaymentStatusHi, "Kannada" := PaymentStatusKn]
  ]

  const PatientRelationEn: Template := [Lit("Hello! Welcome to Amrutha.AI. I am Virtual Patient Onboarding Receptionist.Who is this appointment for? (Yourself, Parents, Child, Friend)")]
  const PatientRelationHi: Template := [Lit("नमस्ते!Amrutha.AI में आपका स्वागत है.मैं वर्चुअल पेशेंट ऑनबोर्डिंग रिसेप्शनिस्ट हूँ।.यह अपॉइंटमेंट किसके लिए है? (आप खुद, माता-पिता, बच्चे, या दोस्त)")]
  const PatientRelationKn: Template := [Lit("ನಮಸ್ಕಾರ! ಅಮೃತ.ಎಐ ಗೆ ಸುಸ್ವಾಗತ.ನಾನು ವರ್ಚುವಲ್ ರೋಗಿಯ ಆನ್‌ಬೋರ್ಡಿಂಗ್ ಸ್ವಾಗತಕಾರ.. ಈ ಅಪಾಯಿಂಟ್‌ಮೆಂಟ್ ಯಾರಿಗಾಗಿ? (ನೀವು, ಪೋಷಕರು, ಮಕ್ಕಳು, ಸ್ನೇಹಿತರು)")]
  const NameSelfEn: Template := [Lit("Could you please tell me your full name?")]
  const NameSelfHi: Template := [Lit("कृपया अपना पूरा नाम बताएं?")]
  const NameSelfKn: Template := [Lit("ದಯವಿಟ್ಟು ನಿಮ್ಮ ಪೂರ್ಣ ಹೆಸರನ್ನು ಹೇಳಿ?")]
  const NameOtherEn: Template := [Lit("Could you please tell me the patient's full name?")]
  const NameOtherHi: Template := [Lit("कृपया मरीज का पूरा नाम बताएं?")]
  const NameOtherKn: Template := [Lit("ದಯವಿಟ್ಟು ರೋಗಿಯ ಪೂರ್ಣ ಹೆಸರನ್ನು ಹೇಳಿ?")]
  const AgeSelfEn: Template := [Lit("Thanks "), Slot("name"), Lit(". How old are you?")]
  const AgeSelfHi: Template := [Lit("धन्यवाद "), Slot("name"), Lit(". आपकी उम्र क्या है?")]
  const AgeSelfKn: Template := [Lit("ಧನ್ಯವಾದಗಳು "), Slot("name"), Lit(". ನಿಮ್ಮ ವಯಸ್ಸು ಎಷ್ಟು?")]
  const AgeOtherEn: Template := [Lit("Thanks. How old is "), Slot("name"), Lit("?")]
  const AgeOtherHi: Template := [Lit("धन्यवाद। "), Slot("name"), Lit(" की उम्र क्या है?")]
  const AgeOtherKn: Template := [Lit("ಧನ್ಯವಾದಗಳು. "), Slot("name"), Lit(" ಅವರ ವಯಸ್ಸು ಎಷ್ಟು?")]
  const GenderSelfEn: Template := [Lit("What is your gender? (Male, Female, Other)")]
  const GenderSelfHi: Template := [Lit("आपका लिंग क्या है? (पुरुष, महिला, अन्य)")]
  const GenderSelfKn: Template := [Lit("ನಿಮ್ಮ ಲಿಂಗ ಯಾವುದು? (ಗಂಡು, ಹೆಣ್ಣು, ಇತರೆ)")]
  const GenderOtherEn: Template := [Lit("What is the patient's gender? (Male, Female, Other)")]
  const GenderOtherHi: Template := [Lit("मरीज का लिंग क्या है? (पुरुष, महिला, अन्य)")]
  const GenderOtherKn: Template := [Lit("ರೋಗಿಯ ಲಿಂಗ ಯಾವುದು? (ಗಂಡು, ಹೆಣ್ಣು, ಇತರೆ)")]
  const PhoneEn: Template := [Lit("Please share your 10-digit phone number.")]
  const PhoneHi: Template := [Lit("कृपया अपना 10 अंकों का फोन नंबर साझा करें।")]
  const PhoneKn: Template := [Lit("ದಯವಿಟ್ಟು ನಿಮ್ಮ 10 ಅಂಕಿಗಳ ಫೋನ್ ಸಂಖ್ಯೆಯನ್ನು ಹಂಚಿಕೊಳ್ಳಿ.")]
  const EmailEn: Template := [Lit("Please provide your email address. We will send the report here.")]
  const EmailHi: Template := [Lit("कृपया अपना ईमेल पता दें। हम रिपोर्ट यहीं भेजेंगे।")]
  const EmailKn: Template := [Lit("ದಯವಿಟ್ಟು ನಿಮ್ಮ ಇಮೇಲ್ ವಿಳಾಸವನ್ನು ನೀಡಿ. ನಾವು ವರದಿಯನ್ನು ಇಲ್ಲಿಗೆ ಕಳುಹಿಸುತ್ತೇವೆ.")]
  const LocationEn: Template := [Lit("Where are you currently located (City)?")]
  const LocationHi: Template := [Lit("आप वर्तमान में कहाँ स्थित हैं (शहर)?")]
  const LocationKn: Template := [Lit("ನೀವು ಪ್ರಸ್ತುತ ಎಲ್ಲಿದ್ದೀರಿ (ನಗರ)?")]
  const WeightSelfEn: Template := [Lit("What is your approximate weight (in kg)?")]
  const WeightSelfHi: Template := [Lit("आपका अनुमानित वजन (किलो में) क्या है?")]
  const WeightSelfKn: Template := [Lit("ನಿಮ್ಮ ಅಂದಾಜು ತೂಕ (ಕೆಜಿಗಳಲ್ಲಿ) ಎಷ್ಟು?")]
  const WeightOtherEn: Template := [Lit("What is "), Slot("name"), Lit("'s approximate weight (in kg)?")]
  const WeightOtherHi: Template := [Slot("name"), Lit(" का अनुमानित वजन (किलो में) क्या है?")]
  const WeightOtherKn: Template := [Slot("name"), Lit(" ಅವರ ಅಂದಾಜು ತೂಕ (ಕೆಜಿಗಳಲ್ಲಿ) ಎಷ್ಟು?")]
  const BloodGroupSelfEn: Template := [Lit("What is your Blood Group? (e.g. A+, O-, Don't Know)")]
  const BloodGroupSelfHi: Template := [Lit("आपका ब्लड ग्रुप क्या है? (जैसे A+, O-, पता नहीं)")]
  const BloodGroupSelfKn: Template := [Lit("ನಿಮ್ಮ ರಕ್ತದ ಗುಂಪು ಯಾವುದು? (ಉದಾಹರಣೆಗೆ A+, O-, ಗೊತ್ತಿಲ್ಲ)")]
  const BloodGroupOtherEn: Template := [Lit("What is the patient's Blood Group?")]
  const BloodGroupOtherHi: Template := [Lit("मरीज का ब्लड ग्रुप क्या है?")]
  const BloodGroupOtherKn: Template := [Lit("ರೋಗಿಯ ರಕ್ತದ ಗುಂಪು ಯಾವುದು?")]
  const SymptomsSelfEn: Template := [Lit("Okay "), Slot("name"), Lit(", could you please describe your symptoms in detail?")]
  const SymptomsSelfHi: Template := [Lit("ठीक है "), Slot("name"), Lit(", कृपया अपने लक्षणों का विस्तार से वर्णन करें?")]
  const SymptomsSelfKn: Template := [Lit("ಸರಿ "), Slot("name"), Lit(", ದಯವಿಟ್ಟು ನಿಮ್ಮ ರೋಗಲಕ್ಷಣಗಳನ್ನು ವಿವರವಾಗಿ ವಿವರಿಸಿ?")]
  const SymptomsOtherEn: Template := [Lit("Okay, could you please describe "), Slot("name"), Lit("'s symptoms in detail?")]
  const SymptomsOtherHi: Template := [Lit("ठीक है, कृपया "), Slot("name"), Lit(" के लक्षणों का विस्तार से वर्णन करें?")]
  const SymptomsOtherKn: Template := [Lit("ಸರಿ, ದಯವಿಟ್ಟು "), Slot("name"), Lit(" ಅವರ ರೋಗಲಕ್ಷಣಗಳನ್ನು ವಿವರವಾಗಿ ವಿವರಿಸಿ?")]
  const DurationEn: Template := [Lit("For how many days have these symptoms been present?")]
  const DurationHi: Template := [Lit("ये लक्षण कितने दिनों से हैं?")]
  const DurationKn: Template := [Lit("ಈ ರೋಗಲಕ್ಷಣಗಳು ಎಷ್ಟು ದಿನಗಳಿಂದ ಇವೆ?")]
  const BpHistorySelfEn: Template := [Lit("Do you have High Blood Pressure (BP)?")]
  const BpHistorySelfHi: Template := [Lit("क्या आपको हाई ब्लड प्रेशर (BP) की समस्या है?")]
  const BpHistorySelfKn: Template := [Lit("ನಿಮಗೆ ರಕ್ತದೊತ್ತಡ (BP) ಇದೆಯೇ?")]
  const BpHistoryOtherEn: Template := [Lit("Does the patient have High Blood Pressure (BP)?")]
  const BpHistoryOtherHi: Template := [Lit("क्या मरीज को हाई ब्लड प्रेशर (BP) की समस्या है?")]
  const BpHistoryOtherKn: Template := [Lit("ರೋಗಿಗೆ ರಕ್ತದೊತ್ತಡ (BP) ಇದೆಯೇ?")]
  const SugarHistorySelfEn: Template := [Lit("Do you have Diabetes (Sugar)?")]
  const SugarHistorySelfHi: Template := [Lit("क्या आपको शुगर (Diabetes) की बीमारी है?")]
  const SugarHistorySelfKn: Template := [Lit("ನಿಮಗೆ ಸಕ್ಕರೆ ಕಾಯಿಲೆ (Diabetes) ಇದೆಯೇ?")]
  const SugarHistoryOtherEn: Template := [Lit("Does the patient have Diabetes (Sugar)?")]
  const SugarHistoryOtherHi: Template := [Lit("क्या मरीज को शुगर (Diabetes) की बीमारी है?")]
  const SugarHistoryOtherKn: Template := [Lit("ರೋಗಿಗೆ ಸಕ್ಕರೆ ಕಾಯಿಲೆ (Diabetes) ಇದೆಯೇ?")]
  const ThyroidHistorySelfEn: Template := [Lit("Do you have any Thyroid issues?")]
  const ThyroidHistorySelfHi: Template := [Lit("क्या आपको थायराइड की समस्या है?")]
  const ThyroidHistorySelfKn: Template := [Lit("ನಿಮಗೆ ಥೈರಾಯ್ಡ್ ಸಮಸ್ಯೆ ಇದೆಯೇ?")]
  const ThyroidHistoryOtherEn: Template := [Lit("Does the patient have any Thyroid issues?")]
  const ThyroidHistoryOtherHi: Template := [Lit("क्या मरीज को थायराइड की समस्या है?")]
  const ThyroidHistoryOtherKn: Template := [Lit("ರೋಗಿಗೆ ಥೈರಾಯ್ಡ್ ಸಮಸ್ಯೆ ಇದೆಯೇ?")]
  const SurgeriesSelfEn: Template := [Lit("Have you had any past surgeries?")]
  const SurgeriesSelfHi: Template := [Lit("क्या आपकी पहले कोई सर्जरी हुई है?")]
  const SurgeriesSelfKn: Template := [Lit("ನಿಮಗೆ ಹಿಂದೆ ಯಾವುದಾದರೂ ಶಸ್ತ್ರಚಿಕಿತ್ಸೆ ಆಗಿದೆಯೇ?")]
  const SurgeriesOtherEn: Template := [Lit("Has the patient had any past surgeries?")]
  const SurgeriesOtherHi: Template := [Lit("क्या मरीज की पहले कोई सर्जरी हुई है?")]
  const SurgeriesOtherKn: Template := [Lit("ರೋಗಿಗೆ ಹಿಂದೆ ಯಾವುದಾದರೂ ಶಸ್ತ್ರಚಿಕಿತ್ಸೆ ಆಗಿದೆಯೇ?")]
  const MedicationsSelfEn: Template := [Lit("Are you currently taking any medications?")]
  const MedicationsSelfHi: Template := [Lit("क्या आप अभी कोई दवा ले रहे हैं?")]
  const MedicationsSelfKn: Template := [Lit("ನೀವು ಪ್ರಸ್ತುತ ಯಾವುದೇ ಔಷಧಿಗಳನ್ನು ತೆಗೆದುಕೊಳ್ಳುತ್ತಿದ್ದೀರಾ?")]
  const MedicationsOtherEn: Template := [Lit("Is the patient currently taking any medications?")]
  const MedicationsOtherHi: Template := [Lit("क्या मरीज अभी कोई दवा ले रहा है?")]
  const MedicationsOtherKn: Template := [Lit("ರೋಗಿ ಪ್ರಸ್ತುತ ಯಾವುದೇ ಔಷಧಿಗಳನ್ನು ತೆಗೆದುಕೊಳ್ಳುತ್ತಿದ್ದಾರೆಯೇ?")]
  const AssignedDoctorEn: Template := [Lit("Based on your symptoms, I have assigned you to **"), Slot("doctor_name"), Lit("**. Consultation fee: ₹500. Would you like to proceed?")]
  const AssignedDoctorHi: Template := [Lit("आपके लक्षणों के आधार पर, मैंने आपको **"), Slot("doctor_name"), Lit("** के साथ नियुक्त किया है। परामर्श शुल्क: ₹500। क्या आप आगे बढ़ना चाहेंगे?")]
  const AssignedDoctorKn: Template := [Lit("ನಿಮ್ಮ ರೋಗಲಕ್ಷಣಗಳ ಆಧಾರದ ಮೇಲೆ, ನಾನು ನಿಮ್ಮನ್ನು **"), Slot("doctor_name"), Lit("** ಅವರಿಗೆ ನಿಯೋಜಿಸಿದ್ದೇನೆ. ಸಮಾಲೋಚನೆ ಶುಲ್ಕ: ₹500. ನೀವು ಮುಂದುವರಿಯಲು ಬಯಸುವಿರಾ?")]
  const SelectedSlotEn: Template := [Lit("Please select a convenient appointment time:")]
  const SelectedSlotHi: Template := [Lit("कृपया एक सुविधाजनक अपॉइंटमेंट समय चुनें:")]
  const SelectedSlotKn: Template := [Lit("ದಯವಿಟ್ಟು ಅನುಕೂಲಕರ ಅಪಾಯಿಂಟ್‌ಮೆಂಟ್ ಸಮಯವನ್ನು ಆಯ್ಕೆಮಾಡಿ:")]
  const PaymentStatusEn: Template := [Lit("Thank you "), Slot("name"), Lit(". Please pay ₹500 to confirm your appointment with "), Slot("doctor_name"), Lit(".")]
  const PaymentStatusHi: Template := [Lit("धन्यवाद "), Slot("name"), Lit("। कृपया "), Slot("doctor_name"), Lit(" के साथ अपनी अपॉइंटमेंट की पुष्टि करने के लिए ₹500 का भुगतान करें।")]
  const PaymentStatusKn: Template := [Lit("ಧನ್ಯವಾದಗಳು "), Slot("name"), Lit(". "), Slot("doctor_name"), Lit(" ಅವರೊಂದಿಗೆ ನಿಮ್ಮ ಅಪಾಯಿಂಟ್‌ಮೆಂಟ್ ಖಚಿತಪಡಿಸಲು ದಯವಿಟ್ಟು ₹500 ಪಾವತಿಸಿ.")]

  /** Placeholders named in a template. */
  function Slots(t: Template): (r: set<string>)
    ensures forall n :: n in r <==> Slot(n) in t
  {
    if t == [] then {}
    else (if t[0].Slot? then {t[0].name} else {}) + Slots(t[1..])
  }

  /** Total length of the literal text of a template. */
  function LitLength(t: Template): nat
  {
    if t == [] then 0
    else (if t[0].Lit? then |t[0].text| else 0) + LitLength(t[1..])
  }

  /** The template text as written in the catalogue, braces included. */
  function Raw(t: Template): (r: string)
    ensures LitLength(t) <= |r|
    ensures Slots(t) == {} ==> |r| == LitLength(t)
  {
    if t == [] then ""
    else
      (match t[0]
       case Lit(s) => s
       case Slot(n) => "{" + n + "}") + Raw(t[1..])
  }

  /** `template.format(**args)`: every placeholder is replaced by its
    * argument; a placeholder without an argument raises KeyError (None). */
  function Format(t: Template, args: map<string, string>): (r: Option<string>)
    ensures r.Some? <==> Slots(t) <= args.Keys
    ensures r.Some? ==> LitLength(t) <= |r.value|
  {
    if t == [] then Some("")
    else
      var rest := Format(t[1..], args);
      match t[0]
      case Lit(s) => if rest.Some? then Some(s + rest.value) else None
      case Slot(n) =>
        if n in args && rest.Some? then Some(args[n] + rest.value) else None
  }

  /** A template without placeholders formats to its own text. */
  lemma {:induction false} FormatWithoutSlots(t: Template, args: map<string, string>)
    requires Slots(t) == {}
    ensures Format(t, args) == Some(Raw(t))
  {
    if t != [] {
      assert Slots(t[1..]) == {} by {
        assert forall n :: Slot(n) in t[1..] ==> Slot(n) in t;
      }
      FormatWithoutSlots(t[1..], args);
    }
  }

  /** The language actually used: unknown languages fall back to English. */
  function Target(language: string): (r: string)
    ensures r in Languages
    ensures language in Languages ==> r == language
  {
    if language in Languages then language else "English"
  }

  /** `_get_question`: look the key up, render it in the target language,
    * and return the raw template when formatting fails. */
  function GetQuestion(key: string, language: string, args: map<string, string>): (r: string)
    ensures key !in Bank ==> r == NotFound
    ensures key in Bank && Target(language) in Bank[key] && Slots(Bank[key][Target(language)]) <= args.Keys ==>
              Format(Bank[key][Target(language)], args) == Some(r)
  {
    if key !in Bank then NotFound
    else
      var entry := Bank[key];
      var t := if Target(language) in entry then entry[Target(language)]
               else if "English" in entry then entry["English"]
               else [Lit(NotFound)];
      Format(t, args).GetOr(Raw(t))
  }

  /** Keys that come in a `_self` and an `_other` phrasing. */
  const PhrasedBases: set<string> := {"name", "age", "gender", "weight", "blood_group", "symptoms",
    "bp_history", "sugar_history", "thyroid_history", "surgeries", "medications"}

  /** Keys asked the same way whoever the patient is. */
  const PlainKeys: set<string> := {"patient_relation", "phone", "email", "location", "duration",
    "assigned_doctor", "selected_slot", "payment_status"}

  /** The placeholders each entry is written with. */
  function ExpectedSlots(key: string): set<string>
  {
    if key == "payment_status" then {"name", "doctor_name"}
    else if key == "assigned_doctor" then {"doctor_name"}
    else if key in {"age_self", "age_other", "weight_other", "symptoms_self", "symptoms_other"} then {"name"}
    else {}
  }

  /** A template carries exactly the placeholders of its key and more literal
    * text than the "not found" message. */
  predicate WellFormedTemplate(k: string, t: Template)
  {
    Slots(t) == ExpectedSlots(k) && LitLength(t) > |NotFound|
  }

  /** What every catalogue entry satisfies. */
  predicate WellFormedEntry(k: string)
  {
    && k in Bank
    && Bank[k].Keys == Languages
    && WellFormedTemplate(k, Bank[k]["English"])
    && WellFormedTemplate(k, Bank[k]["Hindi"])
    && WellFormedTemplate(k, Bank[k]["Kannada"])
  }

  lemma PatientRelationEntry()
    ensures WellFormedEntry("patient_relation")
  {
  }

  lemma NameSelfEntry()
    ensures WellFormedEntry("name_self")
  {
  }

  lemma NameOtherEntry()
    ensures WellFormedEntry("name_other")
  {
  }

  lemma AgeSelfEntry()
    ensures WellFormedEntry("age_self")
  {
  }

  lemma AgeOtherEntry()
    ensures WellFormedEntry("age_other")
  {
  }

  lemma GenderSelfEntry()
    ensures WellFormedEntry("gender_self")
  {
  }

  lemma GenderOtherEntry()
    ensures WellFormedEntry("gender_other")
  {
  }

  lemma PhoneEntry()
    ensures WellFormedEntry("phone")
  {
  }

  lemma EmailEntry()
    ensures WellFormedEntry("email")
  {
  }

  lemma LocationEntry()
    ensures WellFormedEntry("location")
  {
  }

  lemma WeightSelfEntry()
    ensures WellFormedEntry("weight_self")
  {
  }

  lemma WeightOtherEntry()
    ensures WellFormedEntry("weight_other")
  {
  }

  lemma BloodGroupSelfEntry()
    ensures WellFormedEntry("blood_group_self")
  {
  }

  lemma BloodGroupOtherEntry()
    ensures WellFormedEntry("blood_group_other")
  {
  }

  lemma SymptomsSelfEntry()
    ensures WellFormedEntry("symptoms_self")
  {
  }

  lemma SymptomsOtherEntry()
    ensures WellFormedEntry("symptoms_other")
  {
  }

  lemma DurationEntry()
    ensures WellFormedEntry("duration")
  {
  }

  lemma BpHistorySelfEntry()
    ensures WellFormedEntry("bp_history_self")
  {
  }

  lemma BpHistoryOtherEntry()
    ensures WellFormedEntry("bp_history_other")
  {
  }

  lemma SugarHistorySelfEntry()
    ensures WellFormedEntry("sugar_history_self")
  {
  }

  lemma SugarHistoryOtherEntry()
    ensures WellFormedEntry("sugar_history_other")
  {
  }

  lemma ThyroidHistorySelfEntry()
    ensures WellFormedEntry("thyroid_history_self")
  {
  }

  lemma ThyroidHistoryOtherEntry()
    ensures WellFormedEntry("thyroid_history_other")
  {
  }

  lemma SurgeriesSelfEntry()
    ensures WellFormedEntry("surgeries_self")
  {
  }

  lemma SurgeriesOtherEntry()
    ensures WellFormedEntry("surgeries_other")
  {
  }

  lemma MedicationsSelfEntry()
    ensures WellFormedEntry("medications_self")
  {
  }

  lemma MedicationsOtherEntry()
    ensures WellFormedEntry("medications_other")
  {
  }

  lemma AssignedDoctorEntry()
    ensures WellFormedEntry("assigned_doctor")
  {
  }

  lemma SelectedSlotEntry()
    ensures WellFormedEntry("selected_slot")
  {
  }

  lemma PaymentStatusInEnglish()
    ensures WellFormedTemplate("payment_status", Bank["payment_status"]["English"])
  {
  }

  lemma PaymentStatusInHindi()
    ensures WellFormedTemplate("payment_status", Bank["payment_status"]["Hindi"])
  {
  }

  lemma PaymentStatusInKannada()
    ensures WellFormedTemplate("payment_status", Bank["payment_status"]["Kannada"])
  {
  }

  lemma PaymentStatusEntry()
    ensures WellFormedEntry("payment_status")
  {
    PaymentStatusInEnglish();
    PaymentStatusInHindi();
    PaymentStatusInKannada();
  }

  const CatalogueKeys: set<string> := {"patient_relation", "name_self", "name_other", "age_self", "age_other", "gender_self", "gender_other", "phone", "email", "location", "weight_self", "weight_other", "blood_group_self", "blood_group_other", "symptoms_self", "symptoms_other", "duration", "bp_history_self", "bp_history_other", "sugar_history_self", "sugar_history_other", "thyroid_history_self", "thyroid_history_other", "surgeries_self", "surgeries_other", "medications_self", "medications_other", "assigned_doctor", "selected_slot", "payment_status"}

  lemma CatalogueComplete()
    ensures Bank.Keys == CatalogueKeys
  {
  }

  lemma EntryFacts(k: string)
    requires k in CatalogueKeys
    ensures WellFormedEntry(k)
  {
    if k == "patient_relation" {
      PatientRelationEntry();
    } else if k == "name_self" {
      NameSelfEntry();
    } else if k == "name_other" {
      NameOtherEntry();
    } else if k == "age_self" {
      AgeSelfEntry();
    } else if k == "age_other" {
      AgeOtherEntry();
    } else if k == "gender_self" {
      GenderSelfEntry();
    } else if k == "gender_other" {
      GenderOtherEntry();
    } else if k == "phone" {
      PhoneEntry();
    } else if k == "email" {
      EmailEntry();
    } else if k == "location" {
      LocationEntry();
    } else if k == "weight_self" {
      WeightSelfEntry();
    } else if k == "weight_other" {
      WeightOtherEntry();
    } else if k == "blood_group_self" {
      BloodGroupSelfEntry();
    } else if k == "blood_group_other" {
      BloodGroupOtherEntry();
    } else if k == "symptoms_self" {
      SymptomsSelfEntry();
    } else if k == "symptoms_other" {
      SymptomsOtherEntry();
    } else if k == "duration" {
      DurationEntry();
    } else if k == "bp_history_self" {
      BpHistorySelfEntry();
    } else if k == "bp_history_other" {
      BpHistoryOtherEntry();
    } else if k == "sugar_history_self" {
      SugarHistorySelfEntry();
    } else if k == "sugar_history_other" {
      SugarHistoryOtherEntry();
    } else if k == "thyroid_history_self" {
      ThyroidHistorySelfEntry();
    } else if k == "thyroid_history_other" {
      ThyroidHistoryOtherEntry();
    } else if k == "surgeries_self" {
      SurgeriesSelfEntry();
    } else if k == "surgeries_other" {
      SurgeriesOtherEntry();
    } else if k == "medications_self" {
      MedicationsSelfEntry();
    } else if k == "medications_other" {
      MedicationsOtherEntry();
    } else if k == "assigned_doctor" {
      AssignedDoctorEntry();
    } else if k == "selected_slot" {
      SelectedSlotEntry();
    } else if k == "payment_status" {
      PaymentStatusEntry();
    }
  }

  /** Every phrased key exists under both suffixes and every plain key as is. */
  lemma KeysPresent()
    ensures forall b :: b in PhrasedBases ==> b + "_self" in CatalogueKeys && b + "_other" in CatalogueKeys
    ensures PlainKeys <= CatalogueKeys
  {
    forall b | b in PhrasedBases
      ensures b + "_self" in CatalogueKeys && b + "_other" in CatalogueKeys
    {
      if b == "name" {
        assert b + "_self" == "name_self" && b + "_other" == "name_other";
      } else if b == "age" {
        assert b + "_self" == "age_self" && b + "_other" == "age_other";
      } else if b == "gender" {
        assert b + "_self" == "gender_self" && b + "_other" == "gender_other";
      } else if b == "weight" {
        assert b + "_self" == "weight_self" && b + "_other" == "weight_other";
      } else if b == "blood_group" {
        assert b + "_self" == "blood_group_self" && b + "_other" == "blood_group_other";
      } else if b == "symptoms" {
        assert b + "_self" == "symptoms_self" && b + "_other" == "symptoms_other";
      } else if b == "bp_history" {
        assert b + "_self" == "bp_history_self" && b + "_other" == "bp_history_other";
      } else if b == "sugar_history" {
        assert b + "_self" == "sugar_history_self" && b + "_other" == "sugar_history_other";
      } else if b == "thyroid_history" {
        assert b + "_self" == "thyroid_history_self" && b + "_other" == "thyroid_history_other";
      } else if b == "surgeries" {
        assert b + "_self" == "surgeries_self" && b + "_other" == "surgeries_other";
      } else if b == "medications" {
        assert b + "_self" == "medications_self" && b + "_other" == "medications_other";
      }
    }
  }

  /** A catalogued key never renders as "Question not found.", whatever the
    * language and arguments. */
  lemma QuestionFound(k: string, language: string, args: map<string, string>)
    requires k in Bank
    ensures GetQuestion(k, language, args) != NotFound
  {
    CatalogueComplete();
    EntryFacts(k);
    WellFormedFound(k, language, args);
  }

  lemma WellFormedFound(k: string, language: string, args: map<string, string>)
    requires WellFormedEntry(k)
    ensures GetQuestion(k, language, args) != NotFound
  {
    RenderEntry(k, language, args);
    RenderLongTemplate(Bank[k][Target(language)], args);
  }

  lemma RenderEntry(k: string, language: string, args: map<string, string>)
    requires WellFormedEntry(k)
    ensures GetQuestion(k, language, args) ==
              Format(Bank[k][Target(language)], args).GetOr(Raw(Bank[k][Target(language)]))
  {
  }

  lemma RenderLongTemplate(t: Template, args: map<string, string>)
    requires LitLength(t) > |NotFound|
    ensures Format(t, args).GetOr(Raw(t)) != NotFound
  {
  }
}
