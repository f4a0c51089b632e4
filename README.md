# Arogya AI patient intake — a Dafny model

This project models the deterministic core of the Arogya AI ("Amrutha AI") patient-intake backend, a FastAPI service. The service talks a patient through a multilingual questionnaire, checks each answer, picks a specialist and an appointment, and produces a PDF health report. The language model, mail, speech synthesis and PDF drawing stay outside the model. Their outputs, and the clock and random choices, are parameters.

The modules follow the service's source files:

- `JsonIntake` models the JSON intake endpoint (`app/api/routes/json_intake.py`). It covers the nine-way specialist assignment and the next-question decision tree, with its child, thyroid, `_self`/`_other` and payment branches. It also covers one request step of the handler: validator-type inference, the retry on an invalid answer, the payment shortcut, the merge of extracted fields and completion once paid. Finally it covers the post-processing of the generated report: fence stripping, the brace slice, the fallback report and the injected doctor and slot.
- `IntakeService` models the older history-based engine (`app/services/intake_service.py`). It covers the field schema, the required-then-optional field scan, the rebuilding of the answers from the chat history, the current field, and the per-field validation table with its rules. It also covers the three-way specialist choice, the booking-type decision (a method with its loop) and the validate/store path of `process_intake`.
- `Validator` models `InputValidator` (`app/services/validator.py`): phone, email, age, date, blood group, weight and number checks, each with its exact message.
- `QuestionBank` models the question catalogue (`app/services/question_bank.py`) as templates of literal text and `{slot}` placeholders. It also models the lookup that renders a question.
- `Groq` models the vital-signs emergency check, the code-fence cleanup of generated text and the fallback assessment (`app/services/groq_service.py`).
- `JsonAppointment` models the JSON booking endpoint (`app/api/routes/json_appointment.py`). It covers the choice of doctor, urgency and time, the doctor-name roster, the urgency-based time and the appointment record. It also covers the isolation of the report, email and speech steps.
- `PdfService` models the value-selection rules of the report (`app/services/pdf_service.py`): the flattening of grouped tests (a method with its nested loops), the test rows, the safety-card cap, the checklist, the disclaimer truncation, and the doctor and time fallbacks with the time split.
- `Medical` models the assessment record (`app/models/medical.py`): its enumerations, the `split_string` coercion of list fields and the construction from decoded JSON with required fields and defaults.
- `Text`, `Numbers`, `Calendar`, `Json` and `Wrappers` model the pieces of Python the code relies on:
  - `str` methods on ASCII text;
  - `int()`/`float()` on decimal text, kept exact as a mantissa and a scale;
  - Gregorian date-times with the `strftime`/`strptime` formats used;
  - decoded JSON with Python truthiness and the `get`/`or` idioms.

The payment shortcut fires when the asked field mentions "payment" *or* the answer mentions "pay", provided the answer also says "paid" or "done". The extraction still runs afterwards, and what it returns can overwrite `payment_status` (`JsonIntake.Merge`, `JsonIntake.MergePaid`).

## Model

| member | source | states |
|---|---|---|
| Numbers.ParseIntRoundTrip | app/services/validator.py:30 | `int(str(n)) == n` for every integer, negative ones included |
| Numbers.ParseFloatOfPoint | app/services/validator.py:62 | `float()` reads digits, one '.', digits as the exact value whole + frac / 10^len(frac) |
| Numbers.ParseFloatExtendsParseInt | app/services/validator.py:62 | every text `int()` reads, `float()` reads as the same number |
| Numbers.TwoPointsRaise | app/services/intake_service.py:244 | a text that begins and ends with a digit and holds two '.' is its own `strip()` and `float()` raises on it |
| Text.StripEmptyIffBlank | app/services/validator.py:72 | `s.strip()` is empty exactly when every character of `s` is whitespace |
| Text.ContainsIffOccurs | app/services/validator.py:54 | `p in s` exactly when `p` occurs at some index of `s` |
| Text.JoinSplit | app/services/groq_service.py:122 | joining the pieces `split(c)` returns with `c` gives the text back |
| Calendar.NextDay | app/api/routes/json_appointment.py:181 | the following day is a valid date one ordinal later, with the same time of day |
| Calendar.AddDays | app/api/routes/json_appointment.py:181-184 | `dt + timedelta(days=n)`, when defined, is valid, `n` ordinals later and at the same time of day |
| Calendar.AddHours | app/api/routes/json_appointment.py:178 | `dt + timedelta(hours=h)`, when defined, is valid and exactly `3600 * h` seconds later |
| Calendar.AddDaysDefined | app/api/routes/json_appointment.py:181-184 | adding up to 31 days never overflows from a date in year 9998 or earlier, nor from a January 9999 date whose day plus the added days is at most 31 |
| Calendar.AddHoursDefined | app/api/routes/json_appointment.py:178 | adding up to a day of hours does not overflow before year 9999 |
| Calendar.FormatStamp | app/api/routes/json_appointment.py:55 | `%Y%m%d%H%M%S` writes fourteen digits from year 1000 on |
| Calendar.FormatMinute | app/api/routes/json_appointment.py:186 | `%Y-%m-%d %H:%M` writes sixteen characters from year 1000 on |
| Calendar.ClockHour | app/services/pdf_service.py:168 | `%I` shows an hour from 1 to 12 that agrees with the 24-hour clock modulo 12 |
| Calendar.Pad2Tokens | app/services/validator.py:44 | two leading-zero digits are read back by the `%m`, `%d`, `%H` and `%M` directives as the number they show |
| Calendar.ParseDateRoundTrip | app/services/validator.py:44 | `strptime(d.strftime('%Y-%m-%d'), '%Y-%m-%d')` gives back the day at midnight |
| Calendar.ParseMinuteRoundTrip | app/services/pdf_service.py:166 | `strptime` with `%Y-%m-%d %H:%M` reads back what `strftime` with that format wrote, to the minute |
| Calendar.DisplayIgnoresSeconds | app/services/pdf_service.py:167-168 | the `%b %d, %Y` and `%I:%M %p` texts do not depend on the seconds |
| Validator.RemoveSeparatorsDigits | app/services/validator.py:14 | once whitespace and dashes are removed, only digits remain exactly when every character is a digit, whitespace or a dash, and then the cleaned length is the number of digits |
| Validator.PhoneAccepted | app/services/validator.py:12-17 | a phone number is accepted exactly when it is made of digits, whitespace and dashes and holds ten digits |
| Validator.EmailAccepted | app/services/validator.py:20-24 | the scan accepts exactly the texts `[^@]+@[^@]+\.[^@]+` matches at the start (both directions) |
| Validator.EmailScanMatches | app/services/validator.py:22 | every accepted address has an '@'-free local part, an '@', an '@'-free domain start and a '.' followed by a non-'@' character |
| Validator.EmailPatternScanned | app/services/validator.py:22 | every text the pattern matches is accepted |
| Validator.NumberTextShape | app/services/validator.py:87-90 | the general number check accepts exactly the texts of digits with at most one '.' and at least one digit |
| Validator.ReplaceFirstNoDot | app/services/validator.py:89 | dropping the first '.' leaves only digits exactly when the text is digits with at most one '.' |
| Validator.BlankRefused | app/services/validator.py:72-73 | for every field type the empty-field message comes back exactly when the value is empty or all whitespace |
| Validator.OtherMessages | app/services/validator.py:75-92 | no type-specific rule answers with the empty-field message |
| Validator.UncheckedAccepted | app/services/validator.py:70-92 | a non-blank value of a type without a rule ("text", "select", ...) is accepted |
| Validator.AgeVerdicts | app/services/validator.py:27-35 | an age is accepted exactly when `int()` reads a number from 1 to 120; the "as a number" message exactly when `int()` raises; the range message exactly for other numbers |
| Validator.AgeBoundaries | app/services/validator.py:29-33 | every integer written by `str()` is accepted when it is from 1 to 120 and gets the range message otherwise (0 and 121 included) |
| Validator.FormattedDateAccepted | app/services/validator.py:38-47 | every date written as `%Y-%m-%d` (year 1000 on) is accepted |
| Validator.DateAcceptedIsReal | app/services/validator.py:43-45 | an accepted date parses to a real calendar day |
| Validator.BloodGroupAccepted | app/services/validator.py:50-56 | a blood group is accepted exactly when the stripped, upper-cased, space-free text is one of A+, A-, B+, B-, AB+, AB-, O+, O- or contains "KNOW" |
| Validator.WeightVerdicts | app/services/validator.py:59-67 | a weight is accepted exactly when `float()` reads a number within 1..300 kg inclusive; the "as a number" message exactly when `float()` raises |
| Validator.WholeWeights | app/services/validator.py:59-65 | a whole number of kilograms written by `str()` is accepted exactly when it is from 1 to 300 |
| QuestionBank.Slots | app/services/question_bank.py:5-188 | a name is a placeholder of a template exactly when a `{name}` piece occurs in it |
| QuestionBank.Format | app/api/routes/json_intake.py:219-220 | `template.format(**kwargs)` succeeds exactly when every placeholder has an argument, and keeps all the literal text |
| QuestionBank.FormatWithoutSlots | app/api/routes/json_intake.py:220 | a template without placeholders formats to its own text, whatever the arguments |
| QuestionBank.Raw | app/api/routes/json_intake.py:222 | the template text returned when formatting fails holds at least the literal text, and exactly it when there are no placeholders |
| QuestionBank.Target | app/api/routes/json_intake.py:207-212 | the language used is English, Hindi or Kannada, and the requested one when it is among them |
| QuestionBank.GetQuestion | app/api/routes/json_intake.py:206-222 | an unknown key gives "Question not found."; a known key with all its placeholders supplied gives the formatted template of the target language |
| QuestionBank.CatalogueComplete | app/services/question_bank.py:5-188 | the catalogue holds exactly the thirty listed keys |
| QuestionBank.KeysPresent | app/services/question_bank.py:3 | every phrased key exists with both the `_self` and the `_other` suffix, and every plain key exists as is |
| QuestionBank.EntryFacts | app/services/question_bank.py:5-188 | every catalogue entry is well formed: three languages, the expected placeholders, longer than the "not found" text |
| QuestionBank.QuestionFound | app/api/routes/json_intake.py:215-222 | a catalogued key never renders as "Question not found.", whatever the language and the arguments |
| QuestionBank.WellFormedFound | app/api/routes/json_intake.py:215-222 | a well-formed entry never renders as "Question not found." |
| QuestionBank.RenderEntry | app/api/routes/json_intake.py:215-222 | a well-formed entry renders as its target-language template formatted, or as the raw template when formatting fails |
| QuestionBank.RenderLongTemplate | app/api/routes/json_intake.py:219-222 | a template with more literal text than "Question not found." never renders as it, formatted or raw |
| QuestionBank.PatientRelationEntry | app/services/question_bank.py:6-10 | the "patient_relation" entry has an English, a Hindi and a Kannada template, each with no placeholder and longer than "Question not found." |
| QuestionBank.NameSelfEntry | app/services/question_bank.py:13-17 | the "name_self" entry has an English, a Hindi and a Kannada template, each with no placeholder and longer than "Question not found." |
| QuestionBank.NameOtherEntry | app/services/question_bank.py:18-22 | the "name_other" entry has an English, a Hindi and a Kannada template, each with no placeholder and longer than "Question not found." |
| QuestionBank.AgeSelfEntry | app/services/question_bank.py:25-29 | the "age_self" entry has an English, a Hindi and a Kannada template, each with `{name}` and longer than "Question not found." |
| QuestionBank.AgeOtherEntry | app/services/question_bank.py:30-34 | the "age_other" entry has an English, a Hindi and a Kannada template, each with `{name}` and longer than "Question not found." |
| QuestionBank.GenderSelfEntry | app/services/question_bank.py:37-41 | the "gender_self" entry has an English, a Hindi and a Kannada template, each with no placeholder and longer than "Question not found." |
| QuestionBank.GenderOtherEntry | app/services/question_bank.py:42-46 | the "gender_other" entry has an English, a Hindi and a Kannada template, each with no placeholder and longer than "Question not found." |
| QuestionBank.PhoneEntry | app/services/question_bank.py:49-53 | the "phone" entry has an English, a Hindi and a Kannada template, each with no placeholder and longer than "Question not found." |
| QuestionBank.EmailEntry | app/services/question_bank.py:56-60 | the "email" entry has an English, a Hindi and a Kannada template, each with no placeholder and longer than "Question not found." |
| QuestionBank.LocationEntry | app/services/question_bank.py:63-67 | the "location" entry has an English, a Hindi and a Kannada template, each with no placeholder and longer than "Question not found." |
| QuestionBank.WeightSelfEntry | app/services/question_bank.py:70-74 | the "weight_self" entry has an English, a Hindi and a Kannada template, each with no placeholder and longer than "Question not found." |
| QuestionBank.WeightOtherEntry | app/services/question_bank.py:75-79 | the "weight_other" entry has an English, a Hindi and a Kannada template, each with `{name}` and longer than "Question not found." |
| QuestionBank.BloodGroupSelfEntry | app/services/question_bank.py:82-86 | the "blood_group_self" entry has an English, a Hindi and a Kannada template, each with no placeholder and longer than "Question not found." |
| QuestionBank.BloodGroupOtherEntry | app/services/question_bank.py:87-91 | the "blood_group_other" entry has an English, a Hindi and a Kannada template, each with no placeholder and longer than "Question not found." |
| QuestionBank.SymptomsSelfEntry | app/services/question_bank.py:94-98 | the "symptoms_self" entry has an English, a Hindi and a Kannada template, each with `{name}` and longer than "Question not found." |
| QuestionBank.SymptomsOtherEntry | app/services/question_bank.py:99-103 | the "symptoms_other" entry has an English, a Hindi and a Kannada template, each with `{name}` and longer than "Question not found." |
| QuestionBank.DurationEntry | app/services/question_bank.py:106-110 | the "duration" entry has an English, a Hindi and a Kannada template, each with no placeholder and longer than "Question not found." |
| QuestionBank.BpHistorySelfEntry | app/services/question_bank.py:113-117 | the "bp_history_self" entry has an English, a Hindi and a Kannada template, each with no placeholder and longer than "Question not found." |
| QuestionBank.BpHistoryOtherEntry | app/services/question_bank.py:118-122 | the "bp_history_other" entry has an English, a Hindi and a Kannada template, each with no placeholder and longer than "Question not found." |
| QuestionBank.SugarHistorySelfEntry | app/services/question_bank.py:124-128 | the "sugar_history_self" entry has an English, a Hindi and a Kannada template, each with no placeholder and longer than "Question not found." |
| QuestionBank.SugarHistoryOtherEntry | app/services/question_bank.py:129-133 | the "sugar_history_other" entry has an English, a Hindi and a Kannada template, each with no placeholder and longer than "Question not found." |
| QuestionBank.ThyroidHistorySelfEntry | app/services/question_bank.py:135-139 | the "thyroid_history_self" entry has an English, a Hindi and a Kannada template, each with no placeholder and longer than "Question not found." |
| QuestionBank.ThyroidHistoryOtherEntry | app/services/question_bank.py:140-144 | the "thyroid_history_other" entry has an English, a Hindi and a Kannada template, each with no placeholder and longer than "Question not found." |
| QuestionBank.SurgeriesSelfEntry | app/services/question_bank.py:146-150 | the "surgeries_self" entry has an English, a Hindi and a Kannada template, each with no placeholder and longer than "Question not found." |
| QuestionBank.SurgeriesOtherEntry | app/services/question_bank.py:151-155 | the "surgeries_other" entry has an English, a Hindi and a Kannada template, each with no placeholder and longer than "Question not found." |
| QuestionBank.MedicationsSelfEntry | app/services/question_bank.py:157-161 | the "medications_self" entry has an English, a Hindi and a Kannada template, each with no placeholder and longer than "Question not found." |
| QuestionBank.MedicationsOtherEntry | app/services/question_bank.py:162-166 | the "medications_other" entry has an English, a Hindi and a Kannada template, each with no placeholder and longer than "Question not found." |
| QuestionBank.AssignedDoctorEntry | app/services/question_bank.py:169-173 | the "assigned_doctor" entry has an English, a Hindi and a Kannada template, each with `{doctor_name}` and longer than "Question not found." |
| QuestionBank.SelectedSlotEntry | app/services/question_bank.py:176-180 | the "selected_slot" entry has an English, a Hindi and a Kannada template, each with no placeholder and longer than "Question not found." |
| QuestionBank.PaymentStatusEntry | app/services/question_bank.py:183-187 | the "payment_status" entry has an English, a Hindi and a Kannada template, each with `{name}` and `{doctor_name}` and longer than "Question not found." |
| QuestionBank.PaymentStatusInEnglish | app/services/question_bank.py:184 | the English payment template has exactly the placeholders `{name}` and `{doctor_name}` and is longer than "Question not found." |
| QuestionBank.PaymentStatusInHindi | app/services/question_bank.py:185 | the Hindi payment template has exactly the placeholders `{name}` and `{doctor_name}` and is longer than "Question not found." |
| QuestionBank.PaymentStatusInKannada | app/services/question_bank.py:186 | the Kannada payment template has exactly the placeholders `{name}` and `{doctor_name}` and is longer than "Question not found." |
| Medical.ParseUrgency | app/models/medical.py:23-26 | an urgency text is accepted exactly when it is "Low", "Medium", "High" or "Critical" |
| Medical.UrgencyRoundTrip | app/models/medical.py:23 | every urgency level reads back from its own name |
| Medical.ParseNextAction | app/models/medical.py:122 | a next action is accepted exactly when it is "ask", "validate", "summary" or "complete" |
| Medical.NextActionRoundTrip | app/models/medical.py:122 | every next action reads back from its own name |
| Medical.StrippedNonBlank | app/models/medical.py:77 | stripping and dropping blank pieces never yields more items than there were pieces |
| Medical.StrippedClean | app/models/medical.py:77 | pieces free of ',', '*' and '-' strip to non-empty items without surrounding whitespace |
| Medical.SplitItemsClean | app/models/medical.py:73-77 | every item `split_string` makes from a string is non-empty, unpadded and free of ',', '*' and '-' |
| Medical.StrippedKeepsClean | app/models/medical.py:77 | a list of clean items is left as it is by the strip-and-drop-blanks step |
| Medical.SplitItemsJoin | app/models/medical.py:73-77 | `split_string` applied to clean items joined with ',' gives the items back |
| Medical.SplitString | app/models/medical.py:72-78 | a string value becomes the list of its split items; any other value, a list included, passes unchanged |
| Medical.StringList | app/models/medical.py:27-34 | a `List[str]` field accepts exactly the arrays whose elements are all strings, and yields those strings in order |
| Medical.Assessment | app/models/medical.py:19-70 | a valid assessment has every required field, takes the default disclaimer and an empty warning when those are absent, and keeps the urgency and the explanation as given |
| Medical.ListFieldsCoerced | app/models/medical.py:72-78 | a string given for any of the five list fields of a valid assessment ends up as that string's split items |
| Medical.StringsRead | app/models/medical.py:27-34 | a list of strings written as JSON reads back as itself, before and after the coercion |
| Medical.DumpRoundTrip | app/models/medical.py:19-70 | every assessment, dumped to its fields, validates back to itself |
| Medical.ReadBack | app/models/medical.py:19-70 | fields holding each attribute of an assessment as its JSON value validate to that assessment |
| Groq.BpReading | app/services/groq_service.py:122 | a BP reading exists only when the text splits on '/' into exactly two pieces, and then both pieces are integers |
| Groq.VitalsEmergencyIff | app/services/groq_service.py:115-134 | the vitals are an emergency exactly when a readable BP is out of range, or the sugar is all digits and out of range and no malformed BP with '/' raised first |
| Groq.MalformedBpMasksSugar | app/services/groq_service.py:119-133 | a BP that contains '/' but does not parse answers False whatever the sugar, since the exception skips the sugar check |
| Groq.NoSlashInInt | app/services/groq_service.py:122 | an integer's decimal text never contains '/' |
| Groq.BpReadingOfText | app/services/groq_service.py:121-122 | the text "systolic/diastolic" built from two integers contains '/' and reads back as those two integers |
| Groq.BpReadingOfParts | app/services/groq_service.py:122 | a BP that splits into two integer texts reads as those integers |
| Groq.BpThresholds | app/services/groq_service.py:123-130 | for a well-formed BP, the vitals are an emergency exactly when systolic > 180, diastolic > 120, systolic < 90, diastolic < 60, or the sugar is below 70 or above 300 |
| Groq.UnreadableVitals | app/services/groq_service.py:121-134 | a BP without '/' and a sugar that is not all digits is never an emergency |
| Groq.EmergencyInstruction | app/services/groq_service.py:38-41 | the prompt's emergency line is non-empty exactly when the vitals check reports an emergency |
| Groq.CleanFences | app/services/groq_service.py:180-185 | the cleaned reply contains no code fence and has no leading or trailing whitespace |
| Groq.CleanUnfenced | app/services/groq_service.py:180-185 | a reply without any fence is only stripped |
| Groq.JsonFenceHasFence | app/services/groq_service.py:180-182 | text containing a json fence also contains a plain fence |
| Groq.FenceAt | app/services/groq_service.py:182-183 | a fence starts a text exactly when its first three characters are backticks |
| Groq.ConsNoFence | app/services/groq_service.py:183 | a character put before fence-free text forms a fence only by completing a run of three backticks |
| Groq.ReplaceStep | app/services/groq_service.py:183 | removing fences from text not starting with one keeps its first character and continues on the rest |
| Groq.NoFenceLeft | app/services/groq_service.py:183 | removing every fence from any text leaves no fence, even where backtick runs meet after removal |
| Groq.StripNoNewFence | app/services/groq_service.py:185 | stripping whitespace never creates a fence |
| Groq.FallbackMessage | app/services/groq_service.py:142-148 | the avatar message is the Hindi or Kannada text for those languages and the English text for every other language |
| Groq.FallbackAsWrittenRaises | app/services/groq_service.py:150-158 | the fields the fallback passes, as written, fail assessment validation for every language |
| Groq.FallbackAssessment | app/services/groq_service.py:150-158 | the corrected fallback has Medium urgency, "Undetermined" as its only condition, a General Physician and the language's message |
| Groq.FallbackValidates | app/services/groq_service.py:136-158 | the corrected fallback, written out as fields, validates back to itself |
| Groq.FallbackKeepsWrittenFields | app/services/groq_service.py:150-158 | the corrected fallback agrees with the source on every field the source sets |
| IntakeService.FirstRequiredOpen | app/services/intake_service.py:181-184 | the index found is that of the first required field that is absent or empty; every earlier required field is answered |
| IntakeService.FirstOptionalOpen | app/services/intake_service.py:186-189 | the index found is that of the first optional field that is absent; every earlier optional field is present |
| IntakeService.KeysNonEmpty | app/services/intake_service.py:20-46 | no schema key is empty, so "" can only mean that nothing is left |
| IntakeService.NextFieldEmptyIff | app/services/intake_service.py:179-190 | nothing is left exactly when every required field holds a non-empty answer and every optional field is present, even if empty |
| IntakeService.NextFieldIsFirstOpen | app/services/intake_service.py:179-190 | the next field is the first open required field in schema order, or, only when none is open, the first open optional field |
| IntakeService.NameFirst | app/services/intake_service.py:21 | with nothing recorded, the name is asked first |
| IntakeService.ExtractCollectedData | app/services/intake_service.py:153-177 | the loop returns the answers of every question immediately followed by a non-blank user reply that no error message follows |
| IntakeService.CollectedKeys | app/services/intake_service.py:157-176 | a field is recorded exactly when some kept reply answers it |
| IntakeService.CollectedLatest | app/services/intake_service.py:175 | a field's recorded answer is the reply to its latest kept question; later answers overwrite earlier ones |
| IntakeService.CollectedNonBlank | app/services/intake_service.py:174 | every recorded answer is non-blank |
| IntakeService.FreshHistoryEmpty | app/services/intake_service.py:155-157 | an empty history recovers no answers |
| IntakeService.LatestQuestion | app/services/intake_service.py:196-203 | the index found holds a question that is not an error message, and no later entry does |
| IntakeService.CurrentField | app/services/intake_service.py:192-204 | the current field is the key of the latest question that is not an error message, and "name" when there is none |
| IntakeService.ValidateInput | app/services/intake_service.py:206-349 | free-text fields and fields outside the table are always accepted; a refusal carries the field's error text in the chosen language |
| IntakeService.CheckedAnswer | app/services/intake_service.py:333-347 | a field of the table is accepted exactly when its check passes on the stripped answer; a check that raises refuses the answer |
| IntakeService.PhoneRule | app/services/intake_service.py:227-228 | a phone number is accepted exactly when the stripped answer is ten digits |
| IntakeService.EmergencyContactRule | app/services/intake_service.py:235-236 | an emergency contact is accepted exactly when the stripped answer is ten digits |
| IntakeService.NameRule | app/services/intake_service.py:211-212 | a name is accepted exactly when it is letters only once spaces are removed and longer than one character |
| IntakeService.MalformedWeightRefused | app/services/intake_service.py:243-244 | the weight "1.2.3" passes the digit pre-check, makes the number conversion raise, and is refused with the weight error |
| IntakeService.MalformedWeightRaises | app/services/intake_service.py:244 | the weight check raises on "1.2.3" |
| IntakeService.WeightRaises | app/services/intake_service.py:244 | a weight that passes the digit pre-check but is no number makes the check raise |
| IntakeService.ErrorLanguageFallback | app/services/intake_service.py:341 | the error text is in Hindi or Kannada where the table has that language, and in English otherwise |
| IntakeService.TypeIn | app/services/intake_service.py:351-357 | a field that no schema entry has gets the type "string" |
| IntakeService.TypeAt | app/services/intake_service.py:351-357 | a field gets the type of the first schema entry with its key |
| IntakeService.PhoneType | app/services/intake_service.py:22 | the phone question expects the type "phone" |
| IntakeService.WeightType | app/services/intake_service.py:25 | the weight question expects a number |
| IntakeService.PainType | app/services/intake_service.py:38 | the pain question expects a number |
| IntakeService.PaymentType | app/services/intake_service.py:45 | the payment question expects the type "payment" |
| IntakeService.RulesAt | app/services/intake_service.py:370-384 | the rules are those of the first schema entry with the key, when that entry yields rules |
| IntakeService.WeightRange | app/services/intake_service.py:380-381 | the weight question carries the range 1 to 300 |
| IntakeService.HeightRange | app/services/intake_service.py:382-383 | the height question carries the range 30 to 250 |
| IntakeService.PainRange | app/services/intake_service.py:378-379 | the pain question carries the range 0 to 10 |
| IntakeService.SlotRules | app/services/intake_service.py:372-374 | the slot question offers the four fixed times, not its empty choice list |
| IntakeService.GenderRules | app/services/intake_service.py:375-376 | the gender question offers its schema choices |
| IntakeService.PainAcceptedInRange | app/services/intake_service.py:307-308 | a pain level is accepted exactly when the range check for 0 to 10 passes |
| IntakeService.RangeCheckMeaning | app/services/intake_service.py:244 | the range check passes exactly on digit text with at most one point whose value lies in the bounds, and raises exactly on digit text that is no number |
| IntakeService.AssignDoctor | app/services/intake_service.py:468-478 | the doctor is the general physician or one of the three specialists |
| IntakeService.AssignDoctorPriority | app/services/intake_service.py:470-478 | the doctor is the one of the first group with a keyword in the lower-cased symptoms; when no group has one, the general physician |
| IntakeService.CardiologistAgrees | app/services/intake_service.py:471-472 | whenever this service sends a patient to the cardiologist, the JSON intake's assignment does too |
| IntakeService.DetermineBookingType | app/services/intake_service.py:534-586 | corrected rule (pain read by `float()`): the loop's booking is instant exactly when the pain reaches 8, an urgent keyword is in the symptoms, or a sudden onset comes with pain of at least 6; otherwise it is scheduled with the file's three slot texts, character for character |
| IntakeService.BookingAgreesWithoutPoint | app/services/intake_service.py:542 | for a pain level without a point, the booking as written equals the intended booking |
| IntakeService.DecimalPainIsScheduled | app/services/intake_service.py:542 | the pain level "9.5" with chest pain is booked as scheduled as written, where the intended rule books it instantly |
| IntakeService.DecimalPainRaises | app/services/intake_service.py:542 | "9.5" passes the digit pre-check but the integer conversion raises |
| IntakeService.DecimalPainSevere | app/services/intake_service.py:556 | "9.5" read as a number reaches 8 |
| IntakeService.NineAndAHalf | app/services/intake_service.py:556 | any text spelling nine and a half reads as a number of at least 8 |
| IntakeService.ChestPainUrgent | app/services/intake_service.py:547 | "chest pain" holds an urgent keyword |
| IntakeService.ProcessIntake | app/services/intake_service.py:48-147 | the method's reply is the one the request's decision rule gives for the history, the input, the language and the summary text, booking by the corrected rule |
| IntakeService.RejectedAnswerRepeats | app/services/intake_service.py:96-108 | a refused answer asks the same field again in the validate state, with the rule's error, and stores nothing |
| IntakeService.AcceptedAnswerStored | app/services/intake_service.py:110-111 | an accepted answer is stored, stripped, under the field being answered |
| IntakeService.AdvanceShape | app/services/intake_service.py:113-147 | after storing, the intake is complete exactly when nothing is left, with a booking by the corrected urgency rule; otherwise the next field is asked |
| IntakeService.CompleteIffNothingLeft | app/services/intake_service.py:60-147 | every reply is complete exactly when nothing is left to ask, every question asks the next field, and every booking follows the corrected urgency rule |
| JsonIntake.ParseFieldType | app/api/routes/json_intake.py:16-21 | a response type is accepted exactly when it is one of the five names text, number, date, options and payment, and it reads back as that name |
| JsonIntake.DoctorLabels | app/api/routes/json_intake.py:224-246 | the labels include the general physician and every specialist of the nine groups |
| JsonIntake.FirstMatch | app/api/routes/json_intake.py:227-246 | the first-match choice returns the default or the label of one of the groups |
| JsonIntake.AssignDoctor | app/api/routes/json_intake.py:224-246 | the assigned doctor is always one of the ten known labels |
| JsonIntake.FirstHit | app/api/routes/json_intake.py:227-246 | the index found is that of the first group with a keyword in the text; no earlier group has one |
| JsonIntake.FirstGroupWins | app/api/routes/json_intake.py:227-246 | the first group with a keyword in the text gives the label, and with none the default is taken |
| JsonIntake.AssignDoctorPriority | app/api/routes/json_intake.py:226-246 | the doctor is the one of the first group, in declared order, with a keyword in the lower-cased symptoms, and the general physician when none matches |
| JsonIntake.AssignDoctorEmpty | app/api/routes/json_intake.py:245-246 | empty symptoms give the general physician |
| JsonIntake.FirstMissing | app/api/routes/json_intake.py:283 | the key found is in the order and missing; none is found exactly when every key of the order holds an answer |
| JsonIntake.FirstMissingAppend | app/api/routes/json_intake.py:283-355 | the first missing key of two orders in sequence is that of the first order, or else that of the second |
| JsonIntake.CommonStep | app/api/routes/json_intake.py:288-326 | while a demographic, vital or clinical field is missing, the step asks the first missing one in the source's order |
| JsonIntake.HistoryStep | app/api/routes/json_intake.py:340-348 | for an adult, the BP and sugar histories are asked next, and then the thyroid history for a woman |
| JsonIntake.ClosingStep | app/api/routes/json_intake.py:351-385 | then surgeries, medications, the doctor and the slot are asked in that order, and after them payment until it is "paid", then completion |
| JsonIntake.DecideIsFirstMissing | app/api/routes/json_intake.py:265-385 | the decision asks the first missing field of the patient's order, else payment until paid, else completes |
| JsonIntake.NextStepIsFirstMissing | app/api/routes/json_intake.py:265-385 | the next step asks the first missing field of the order for this patient; when none is missing it asks for payment until "paid"; it completes exactly when nothing is missing and payment is "paid" |
| JsonIntake.DoneOnlyWhenPaid | app/api/routes/json_intake.py:377-385 | completion implies the payment status is "paid" and every field of the order holds an answer |
| JsonIntake.DecideSkips | app/api/routes/json_intake.py:339-348 | a child is never asked a BP, sugar or thyroid question, and the thyroid question goes only to an adult woman |
| JsonIntake.ChildrenSkipHistory | app/api/routes/json_intake.py:337-348 | a patient under 12 is never asked the BP, sugar or thyroid history |
| JsonIntake.ThyroidOnlyForWomen | app/api/routes/json_intake.py:336-348 | the thyroid question is asked only of a female patient who is not a child |
| JsonIntake.UnparsedAgeIsAdult | app/api/routes/json_intake.py:330-333 | an age that does not parse as an integer counts as an adult's, 25 |
| JsonIntake.DecideAsks | app/api/routes/json_intake.py:283-382 | the decision asks only a missing field, or payment while it is not "paid" |
| JsonIntake.AnsweredNotAsked | app/api/routes/json_intake.py:283-382 | a field that holds an answer is never asked again; payment is asked only while it is not "paid" |
| JsonIntake.DecideTemplate | app/api/routes/json_intake.py:288-382 | a phrased field's question key is the field plus the relation suffix; any other field's key is the field itself |
| JsonIntake.KeySetsDisjoint | app/services/question_bank.py:1-189 | no catalogue base is both phrased per relation and used plainly |
| JsonIntake.SuffixChoice | app/api/routes/json_intake.py:292-293 | a phrased question key ends in "_self" exactly when the relation is "Self" or absent, and "_other" otherwise; the plain keys are used as they are |
| JsonIntake.StepKeyInCatalogue | app/api/routes/json_intake.py:288-382 | every question key the flow builds is in the catalogue |
| JsonIntake.CataloguePromptFound | app/api/routes/json_intake.py:206-222 | a prompt for a catalogue key never renders as "Question not found." |
| JsonIntake.ContainsAnyOne | app/api/routes/json_intake.py:59-64 | a one-keyword group is hit exactly when the keyword occurs |
| JsonIntake.ContainsAnyTwo | app/api/routes/json_intake.py:62 | a two-keyword group is hit exactly when either keyword occurs |
| JsonIntake.TypeOfLoweredIsFirstMatch | app/api/routes/json_intake.py:58-64 | the if/elif chain equals the first-match choice over the keyword groups |
| JsonIntake.InferFieldTypePriority | app/api/routes/json_intake.py:58-64 | the validator type is that of the first group, in the order phone, email, age, date/dob, blood, weight, hit by the lower-cased field name, and "text" when none is |
| JsonIntake.LanguageReadAsAge | app/api/routes/json_intake.py:61 | a field named "language" is validated as an age, since the name contains "age" |
| JsonIntake.RetryAsWritten | app/api/routes/json_intake.py:66-77 | the retry reply as written fails with a server error exactly when the validator type is not one of the response model's five type names |
| JsonIntake.RetryAsWrittenFails | app/api/routes/json_intake.py:66-77 | an invalid phone, email, age, blood group or weight answer always ends in a server error |
| JsonIntake.ShortPhoneIsServerError | app/api/routes/json_intake.py:59-77 | the phone answer "12345" is refused by the validator and, as written, yields a server error instead of a retry prompt |
| JsonIntake.Retry | app/api/routes/json_intake.py:68-77 | the corrected retry asks the same field again, not complete, with the validator's message as its error and in its question |
| JsonIntake.RetryAgrees | app/api/routes/json_intake.py:68-77 | for the text and date types, where the written reply is built, the corrected reply is the same |
| JsonIntake.MergeFallback | app/api/routes/json_intake.py:113-115 | a failed extraction stores the raw answer under the asked field and changes no other field except by the payment shortcut |
| JsonIntake.MergeExtracted | app/api/routes/json_intake.py:104-107 | extracted fields override the record; all other fields except payment status are kept |
| JsonIntake.MergePaid | app/api/routes/json_intake.py:87-89 | when the payment shortcut applies, the record ends up paid unless the extraction or the raw answer writes the payment status itself |
| JsonIntake.MergeAnswer | app/api/routes/json_intake.py:83-115 | the merge applies the payment shortcut, then the extracted fields or, when extraction failed, the raw answer |
| JsonIntake.BraceSpan | app/api/routes/json_intake.py:498-501 | when a '{' comes before a later '}', the text is cut to the span from the first '{' to the last '}', which starts and ends with them; otherwise it is left whole |
| JsonIntake.CleanReport | app/api/routes/json_intake.py:496-501 | the text handed to the JSON parser contains no code fence |
| JsonIntake.BraceSpanFenceless | app/api/routes/json_intake.py:498-501 | cutting fence-free text to its braced span leaves no fence |
| JsonIntake.FallbackReport | app/api/routes/json_intake.py:505-533 | the fallback report holds exactly the thirteen schema keys, and its recommendation is an object |
| JsonIntake.Inject | app/api/routes/json_intake.py:536-538 | the injection succeeds exactly when the report is an object whose recommendation, if present, is an object |
| JsonIntake.InjectSets | app/api/routes/json_intake.py:536-538 | the injection sets the doctor and slot of the recommendation, keeps its other fields, and adds no key to the report but the recommendation |
| JsonIntake.FinishShape | app/api/routes/json_intake.py:535-549 | the result is the error report exactly when the injection raises; otherwise it is titled as a report, holds the patient data, and holds the injected analysis |
| JsonIntake.InjectKnownFields | app/api/routes/json_intake.py:536-546 | the in-place injection and wrapping give the report the functional model describes |
| JsonIntake.GenerateLlmReport | app/api/routes/json_intake.py:395-549 | the method's report is that of the model for the output, the parser, the clock text and the error text |
| JsonIntake.ReportFromNames | app/api/routes/json_intake.py:535-546 | a report that is not an error report belongs to the patient and names the doctor and the slot |
| JsonIntake.ReportNamesDoctorAndSlot | app/api/routes/json_intake.py:400-546 | whatever the model returned, a report that is not an error report names the assigned doctor and the chosen slot, or "To be confirmed" |
| JsonIntake.FallbackInjected | app/api/routes/json_intake.py:503-546 | the fallback never becomes an error report and keeps exactly the schema's keys |
| JsonIntake.SchemaReportInjected | app/api/routes/json_intake.py:535-546 | a report object with exactly the schema's keys and a recommendation object keeps exactly those keys once injected |
| JsonIntake.UnparseableGivesFallback | app/api/routes/json_intake.py:503-533 | output the parser refuses yields the fallback with every schema key, never the error report |
| JsonIntake.ReportFromError | app/api/routes/json_intake.py:495-549 | after parsing, the error report comes exactly from a parsed value that is not an object, or whose recommendation is not one |
| JsonIntake.ErrorReportIff | app/api/routes/json_intake.py:395-549 | the error report comes exactly from a failed model call, a parsed value that is not an object, or a recommendation that is not an object |
| JsonIntake.StepAfterCompletesIffPaid | app/api/routes/json_intake.py:118-125 | the request completes exactly when the merged record is paid; otherwise it takes the decision tree's step, whose question key is in the catalogue |
| JsonIntake.RespondCompleteIffPaid | app/api/routes/json_intake.py:118-197 | the reply is complete exactly when the merged record is paid, and then carries a report; otherwise it asks the next step's field with a catalogue prompt |
| JsonIntake.HandleIntake | app/api/routes/json_intake.py:48-197 | a refused answer gets the corrected retry reply and leaves the record unchanged; otherwise the answer is merged when there is one, and the reply is completion or the next question |
| JsonIntake.InvalidAnswerRepeats | app/api/routes/json_intake.py:68-77 | with the corrected retry, a refused answer asks the same field again without completing |
| JsonAppointment.Roster | app/api/routes/json_appointment.py:125-163 | every specialty of the table has at least one doctor |
| JsonAppointment.FirstOccurring | app/api/routes/json_appointment.py:166-168 | the index found is that of the first key, from the start position on, that occurs in the text; with none found, no key from there on occurs |
| JsonAppointment.SpecialtyIndex | app/api/routes/json_appointment.py:165-170 | the specialty is the first, in declared order, whose lower-cased name occurs in the lower-cased specialist type; General Physician exactly when no earlier specialty does |
| JsonAppointment.IndianDoctorName | app/api/routes/json_appointment.py:121-170 | the drawn doctor is a non-empty name from the roster of the matched specialty |
| JsonAppointment.EveryRosterNameDrawn | app/api/routes/json_appointment.py:168 | every doctor of the matched specialty can be drawn, so the draw ranges over exactly that roster |
| JsonAppointment.DrawReaches | app/api/routes/json_appointment.py:168-170 | every name of a roster is reached by some draw |
| JsonAppointment.CalculatedTimeMeaning | app/api/routes/json_appointment.py:172-186 | the written time reads back, to the minute with seconds dropped, as two hours after now for "High", and as the same clock time two days later for "Medium" and five days later otherwise |
| JsonAppointment.DoctorChoice | app/api/routes/json_appointment.py:41-45 | the chosen doctor is never falsy |
| JsonAppointment.DoctorChoiceOrder | app/api/routes/json_appointment.py:41-45 | the recommendation's doctor wins, then the doctor assigned at intake, then a doctor drawn for the specialist type; a text specialist type always yields a doctor |
| JsonAppointment.TimeChoiceRule | app/api/routes/json_appointment.py:48-52 | a selected slot that is non-empty and not "To be confirmed" is kept as it is; otherwise the time is calculated from the urgency |
| JsonAppointment.AppointmentIdShape | app/api/routes/json_appointment.py:55 | from year 1000 on, the identifier is "APT-" followed by fourteen digits |
| JsonAppointment.Book | app/api/routes/json_appointment.py:30-70 | a successful booking always names a truthy doctor |
| JsonAppointment.BookDefaults | app/api/routes/json_appointment.py:35-38 | missing fields take their defaults: General Physician as the specialist, the consultation priority, else the urgency, else "Medium", and the specialist type as the expertise |
| JsonAppointment.BookNeedsObjects | app/api/routes/json_appointment.py:35-69 | a recommendation or appointment section that is present but not an object makes the booking fail |
| JsonAppointment.Details | app/api/routes/json_appointment.py:58-70 | the appointment record has exactly its eleven keys and status "Confirmed", and carries the chosen identifier, doctor, time, urgency and specialist |
| JsonAppointment.EmailSent | app/api/routes/json_appointment.py:84-94 | the email counts as sent only when the call returned an object that reports success |
| JsonAppointment.BookJsonAppointment | app/api/routes/json_appointment.py:24-119 | a failed booking makes no call; otherwise the report, the email and the speech are each attempted once in that order, and the response carries the record and the two results |
| JsonAppointment.Confirm | app/api/routes/json_appointment.py:72-115 | the report, the email and the speech are each attempted once in that order whatever the others do, and the response reports success with the record, the email flag and the audio |
| JsonAppointment.BookKeepsRecommendedDoctor | app/api/routes/json_appointment.py:41-42 | a booking succeeds only with an object recommendation, and books its doctor whenever that one is truthy |
| JsonAppointment.ReportShowsDetails | app/services/pdf_service.py:148-171 | the report rendered from a booking's record shows its identifier, urgency and doctor, and its time unless the recommendation carries a slot |
| JsonAppointment.ReportShowsBooking | app/api/routes/json_appointment.py:72-79 | the report rendered for a booking shows the booked identifier, urgency and doctor, and the booked time unless the recommendation carries a slot |
| JsonAppointment.CalculatedTimeSplitInReport | app/api/routes/json_appointment.py:186 | a time the endpoint calculated is split by the report into its date and its clock time |
| JsonAppointment.IntakeSlotShownVerbatim | app/api/routes/json_intake.py:373 | a slot picked from the intake's options is shown by the report unchanged, with no separate clock time |
| PdfService.TitleFrom | app/services/pdf_service.py:387 | title-casing keeps the length of the text |
| PdfService.TitleCase | app/services/pdf_service.py:387 | `str.title()` keeps the length of the key |
| PdfService.TitleFromAt | app/services/pdf_service.py:387 | each character is title-cased by whether the character before it is a letter |
| PdfService.TitleCaseAt | app/services/pdf_service.py:387 | a letter that starts a word becomes upper-case, a letter inside a word lower-case, other characters are kept, and every character equals the original up to case |
| PdfService.FlatItems | app/services/pdf_service.py:382-390 | one flattened entry per element of a group's list |
| PdfService.FlatItemsAt | app/services/pdf_service.py:382-390 | the j-th entry of a group is built from its j-th test: an object gives its test_name (empty by default) and its reason (the title-cased key by default), anything else its text and an empty category |
| PdfService.GroupItems | app/services/pdf_service.py:381-382 | a list-valued group contributes one entry per element and any other group contributes none |
| PdfService.FlattenTests | app/services/pdf_service.py:378-391 | the nested loops produce exactly the group-by-group flattening of the groups in dictionary order |
| PdfService.FlattenedLength | app/services/pdf_service.py:378-391 | the flattened list has one entry per element of the list-valued groups |
| PdfService.FlattenedAppend | app/services/pdf_service.py:380-390 | flattening the concatenation of two group lists is the concatenation of their flattenings |
| PdfService.ListedCountAppend | app/services/pdf_service.py:380-382 | the number of listed tests adds up over concatenated group lists |
| PdfService.FlattenedPosition | app/services/pdf_service.py:378-391 | the j-th test of group g is the entry right after the tests of the groups before g, so group order and test order are both kept |
| PdfService.FlattenedSplit | app/services/pdf_service.py:380-390 | group g's entries sit between those of the groups before it and those after it |
| PdfService.Rows | app/services/pdf_service.py:287-299 | the rows exist exactly when every test's row does (a non-text category makes `.upper()` raise), and then row j is the row of test j |
| PdfService.TestRows | app/services/pdf_service.py:287-299 | the loop over the tests returns the rows, or the failure, that the row function gives |
| PdfService.NoRowsAfterFailure | app/services/pdf_service.py:287-293 | once one test's row fails, the rows of the whole list fail |
| PdfService.FlattenedRows | app/services/pdf_service.py:281-299 | flattened tests appear on the card with their names in their order and their categories upper-cased |
| PdfService.Items | app/services/pdf_service.py:380 | `.items()` yields every key of the dictionary exactly once, in insertion order, each with its value |
| PdfService.DistinctCount | app/services/pdf_service.py:380 | a key order without repetitions has as many keys as entries |
| PdfService.TestsCard | app/services/pdf_service.py:281-299 | "no specific tests" appears exactly when the basic tests are falsy and the grouped tests flatten to nothing; a basic list gives its rows, a basic text one row per character, a truthy number or boolean fails the report, a non-object `recommended_tests` fails it, and otherwise the card gives the flattened tests' rows |
| PdfService.TestsCardListsFlattened | app/services/pdf_service.py:281-299 | without basic tests, the card lists the flattened tests in order, by name, with their categories upper-cased |
| PdfService.AsJson | app/services/pdf_service.py:286-290 | each flattened entry is read as the dictionary it is, in order |
| PdfService.Chars | app/services/pdf_service.py:288 | a `for` over a text visits its characters in order, one per row |
| PdfService.SafetyCard | app/services/pdf_service.py:304-314 | the safety card shows at most six bullets |
| PdfService.SafetyPrecautionsFirst | app/services/pdf_service.py:304-312 | six or more safety precautions fill the card alone, and the "nothing noted" line is not shown |
| PdfService.SafetyShowsAll | app/services/pdf_service.py:304-314 | with six items or fewer in all, every precaution and then every lifestyle item is shown, and "nothing noted" appears exactly when both are empty |
| PdfService.NothingNotedIffEmpty | app/services/pdf_service.py:311-314 | the "nothing noted" line appears exactly when the card has no bullets |
| PdfService.Checklist | app/services/pdf_service.py:331-346 | the checklist is next_steps_checklist when that is truthy, otherwise the appointment's truthy preparation, otherwise the three fixed items; a missing or non-object appointment_details that is reached, or a chosen truthy number or boolean, over which `for item in checklist` raises, fails the report; a shown checklist is always truthy and iterable |
| PdfService.DisclaimerFits | app/services/pdf_service.py:358-365 | a shown disclaimer has at most 300 characters and is the whole text exactly when that fits; a longer one keeps its first 297 characters and ends in "..."; a missing one is the fixed default |
| PdfService.FallbackChains | app/services/pdf_service.py:148-162 | the recommendation's doctor name, then the appointment's, then its specialist (or "Dr. Amrutha AI") are used, each exactly when everything before it is falsy; likewise the slot, then the appointment time (or "TBD") |
| PdfService.ScheduleOf | app/services/pdf_service.py:164-171 | when the time does not parse, its date line is the time itself and the clock line is empty |
| PdfService.ScheduleSplitIffParses | app/services/pdf_service.py:164-171 | the time is split into date and clock exactly when it is text reading `%Y-%m-%d %H:%M` |
| PdfService.FormattedTimeSplits | app/services/pdf_service.py:164-171 | a time written by the booking code in `%Y-%m-%d %H:%M` is always split |
| PdfService.ScheduleOfParsed | app/services/pdf_service.py:164-171 | a parsed time is shown as `%b %d, %Y` over `%I:%M %p` of that same moment |
| PdfService.CommaJoin | app/services/pdf_service.py:270 | `', '.join` of no parts is empty, and every part occurs in the joined text |
| PdfService.JoinConditions | app/services/pdf_service.py:267-270 | the join succeeds exactly on a text, a dictionary or a list of texts, and raises on a number, a boolean or a list holding a non-text; a joined list shows every condition, and a joined text every character |
| PdfService.DiagnosticCard | app/services/pdf_service.py:253-275 | the card fails exactly when a truthy `ai_diagnostic_summary` is not an object, when a falsy risk interpretation meets a `health_assessment` that is present but not an object, or when truthy possible conditions cannot be joined; otherwise the explanation, conditions line and risk follow their `or` chains, and the conditions line is absent exactly when the conditions are falsy |
| PdfService.ReportNeedsDiagnosticCard | app/services/pdf_service.py:253-275 | a diagnostic card that raises makes the report fail |
| PdfService.ReportNeedsSummaryObject | app/services/pdf_service.py:254-255 | a summary given as the text "see notes" makes `.get`, and so the report, fail |
| PdfService.ReportNeedsTextConditions | app/services/pdf_service.py:267-270 | possible conditions holding a number make `', '.join`, and so the report, fail |
| PdfService.Report | app/services/pdf_service.py:97-375 | a built report marks high urgency exactly when the urgency is "High", shows at most six safety bullets, a truthy checklist that is not a number or boolean (a checklist that is one makes the report fail), a disclaimer of at most 300 characters, and the raw time as its date whenever the time is not split; it fails whenever its diagnostic card, tests card, checklist or disclaimer raises |
| PdfService.ReportNeedsRecommendationObject | app/services/pdf_service.py:122 | a doctor_recommendation that is present but not an object makes the report fail |
| PdfService.ReportNeedsIterableChecklist | app/services/pdf_service.py:331-346 | a truthy number or boolean as next_steps_checklist makes `for item in checklist`, and so the report, fail |

## Left out

- Language-model calls are left out because they are network calls to a foreign service. This covers `generate_text`, `analyze_symptoms`, the extraction prompt in the intake handler and the summary and question generation of the history-based engine. Their outputs enter the model as parameters: a raw string, an optional decoded record or an optional assessment. JSON decoding is an abstract partial function.
- Email (SMTP) and speech synthesis transport are left out because they are I/O. The booking endpoint receives their outcomes as parameters: the email call's result and the speech call's result, each absent when the call raised.
- ReportLab layout is left out because it is a foreign library with visual output. This covers styles, colours, tables, the watermark and the document build. A report is described by the values it shows.
- `PdfService.Report`: the patient-details row and the header band are not modelled, since they only copy values from the patient record into the layout.
- `PdfService.DiagnosticCard`: non-empty dictionary conditions are kept whole, rather than joined key by key in insertion order.
- `PdfService.FlattenTests`: the `str()` text of a list or dictionary element is not modelled; such an element stands for its own text.
- `PdfService.TestsCard`: a non-empty dictionary in `recommended_basic_tests` is kept whole as an unlisted value, rather than iterated key by key as Python would; its key order is not modelled.
- `datetime.now()`, `uuid.uuid4()` and `random.choice` are parameters; a random pick is an index into the list that is proved to reach every member.
- Dictionary insertion order, where the code iterates a dictionary, is an explicit key sequence parameter.
- Records are maps from field to text. Numeric or nested values stored in the collected data are not modelled, so a missing field is one that is absent or "".
- `float()` is modelled as an exact decimal, not as an IEEE double, so a text within double rounding of a bound is judged by its exact value.
- `int()` and `float()` are modelled on ASCII decimal text only. Underscores, exponents, "nan" and "inf" are left out, and so are Unicode `isdigit`/`isalpha`, `isspace`/`strip()` and case mapping outside ASCII: only ASCII whitespace counts, so an answer of a lone no-break space (U+00A0), which Python strips to blank, counts as non-blank here.
- The error and reply texts in Hindi and Kannada are named by field and language rather than stored character by character. The English texts the properties depend on are written out.
- The lower-cased specialty keys of the doctor roster are written out as constants instead of being computed with `lower()`.
- Pydantic's validation of `email_sent` and `tts_audio_base64` in the booking response is left out; the response carries the raw values read from the email and speech results.
- `IntakeService.ProcessIntake` leaves out the texts of the greeting, the fixed summary and the generated questions. They are named by language and by the field they ask, and the question generator's keyword arguments are not modelled.
- The constructor of the history-based engine and its slot-determination helper are left out because they only build the client and constant lists.
- WeightVerdicts (`Validator.WeightVerdicts`): `float()` reads exact decimals, so "300.00000000000000001", which Python rounds to 300.0 and accepts, is refused by the model; the same holds at every bound of the weight, height and pain checks of the history-based engine.
- AdvanceShape (`IntakeService.AdvanceShape`), CompleteIffNothingLeft (`IntakeService.CompleteIffNothingLeft`) and ProcessIntake (`IntakeService.ProcessIntake`): the booking is the corrected rule, which reads the pain level with `float()`. As written, a pain level with a point such as "9.5" makes `int()` raise and the booking is scheduled (see Findings). The two agree whenever the pain level has no point (`IntakeService.BookingAgreesWithoutPoint`).
- HandleIntake (`JsonIntake.HandleIntake`) and InvalidAnswerRepeats (`JsonIntake.InvalidAnswerRepeats`): a refused answer gets the corrected retry reply. As written, a refused phone, email, age, blood group or weight answer ends in HTTP 500 (see Findings). The two agree for the text and date types (`JsonIntake.RetryAgrees`).
- The JSON intake reply's `tts_audio_base64` field is left out: the speech call is I/O and the reply carries no audio.
- The history-based engine's replies carry no `options` key: the rules it is read from are modelled (`IntakeService.RulesAt`), but the copy into the reply is not.
- The `Json` type has no floating-point numbers: numbers are integers, since no modelled rule reads a fractional JSON number.
- Concurrency and `async`/`await` are modelled as ordinary sequential steps, since every awaited call runs in order.

## Findings

| source | as written | input that shows it | evidently intended | confidence | as-written member | corrected member |
|---|---|---|---|---|---|---|
| app/api/routes/json_intake.py:66-77 | An invalid answer builds the retry reply with the validator type as `expected_type`. Only text, number, date, options and payment are members of that enum, and phone, email, age, blood_group and weight are not, so the response model raises. The outer handler turns that into HTTP 500. | field "phone", answer "12345" | the same field is asked again with the validator's message | high (not executed) | JsonIntake.RetryAsWritten, JsonIntake.ShortPhoneIsServerError | JsonIntake.Retry |
| app/services/intake_service.py:542 | The pain pre-check removes the '.' before `isdigit()`, but `int()` then raises on the decimal text. The outer handler answers "scheduled". | pain level "9.5" with symptoms "chest pain" | pain of 8 or more, or an urgent keyword, books an instant appointment | high (not executed) | IntakeService.BookingAsWritten, IntakeService.DecimalPainIsScheduled | IntakeService.DetermineBookingType, IntakeService.BookingFor |
| app/services/groq_service.py:150-158 | The fallback assessment omits the required fields doctor_advice, precautions, lifestyle_recommendations and follow_up_steps. Building it raises, so no fallback is ever returned. | any language, e.g. "English" | a Medium-urgency, General Physician assessment with the language's message | high (not executed) | Groq.FallbackAsWrittenRaises | Groq.FallbackAssessment, Groq.FallbackValidates |
