/**
 * The JSON booking endpoint: how the doctor, the urgency and the appointment
 * time are chosen from the analysis and the patient record, the appointment
 * record it builds, and how the report, email and speech steps are kept apart
 * so that one failing does not stop the others.
 */
module JsonAppointment {
  import opened Wrappers
  import opened Text
  import opened Json
  import Calendar
  import PdfService
  import JsonIntake

  // ---------------------------------------------------------------------
  // `_get_indian_doctor_name`
  // ---------------------------------------------------------------------

  const CardiologistKey: string := "Cardiologist"
  const EndocrinologistKey: string := "Endocrinologist"
  const NeurologistKey: string := "Neurologist"
  const OrthopedicKey: string := "Orthopedic"
  const GastroenterologistKey: string := "Gastroenterologist"
  const PulmonologistKey: string := "Pulmonologist"
  const GeneralPhysicianKey: string := "General Physician"

  /** The specialties of the doctor table, in declared order. */
  const Specialties: seq<string> :=
    [CardiologistKey, EndocrinologistKey, NeurologistKey, OrthopedicKey, GastroenterologistKey, PulmonologistKey,
     GeneralPhysicianKey]

  /** The position of General Physician, the default specialty. */
  const GeneralPhysician: nat := 6

  const CardiologyDoctors: seq<string> :=
    ["Dr. Rajesh Kumar (MD, DM Cardiology)", "Dr. Priya Sharma (MBBS, MD Cardiology)",
     "Dr. Amit Patel (MD, FACC)", "Dr. Sunita Reddy (DM Cardiology)"]
  const EndocrinologyDoctors: seq<string> :=
    ["Dr. Suresh Menon (MD, DM Endocrinology)", "Dr. Kavita Singh (MBBS, MD Endocrinology)",
     "Dr. Arun Desai (DM Endocrinology)"]
  const NeurologyDoctors: seq<string> :=
    ["Dr. Vikram Rao (MD, DM Neurology)", "Dr. Anjali Gupta (MBBS, MD Neurology)", "Dr. Ramesh Iyer (DM Neurology)"]
  const OrthopedicDoctors: seq<string> :=
    ["Dr. Karthik Nair (MS Orthopedics)", "Dr. Deepa Joshi (MS Orthopedics)", "Dr. Sanjay Verma (MS Orthopedics)"]
  const GastroenterologyDoctors: seq<string> :=
    ["Dr. Mahesh Kulkarni (MD, DM Gastroenterology)", "Dr. Sneha Kapoor (DM Gastroenterology)",
     "Dr. Ravi Krishnan (MD Gastroenterology)"]
  const PulmonologyDoctors: seq<string> :=
    ["Dr. Ashok Mehta (MD Pulmonology)", "Dr. Pooja Agarwal (MD Respiratory Medicine)",
     "Dr. Harish Pillai (DM Pulmonology)"]
  const GeneralPhysicianDoctors: seq<string> :=
    ["Dr. Arjun Sharma (MBBS, MD)", "Dr. Meera Nambiar (MBBS, MD)", "Dr. Rahul Bansal (MBBS, MD)",
     "Dr. Lakshmi Iyer (MBBS, MD)"]

  /** The doctors of the `k`-th specialty. */
  function Roster(k: nat): (names: seq<string>)
    requires k < |Specialties|
    ensures |names| > 0
  {
    if k == 0 then CardiologyDoctors
    else if k == 1 then EndocrinologyDoctors
    else if k == 2 then NeurologyDoctors
    else if k == 3 then OrthopedicDoctors
    else if k == 4 then GastroenterologyDoctors
    else if k == 5 then PulmonologyDoctors
    else GeneralPhysicianDoctors
  }

  const CardiologistLower: string := "cardiologist"
  const EndocrinologistLower: string := "endocrinologist"
  const NeurologistLower: string := "neurologist"
  const OrthopedicLower: string := "orthopedic"
  const GastroenterologistLower: string := "gastroenterologist"
  const PulmonologistLower: string := "pulmonologist"
  const GeneralPhysicianLower: string := "general physician"

  /** `key.lower()` of each specialty, in the same order, matched against the lowered
    * specialist type. */
  const LoweredSpecialties: seq<string> :=
    [CardiologistLower, EndocrinologistLower, NeurologistLower, OrthopedicLower, GastroenterologistLower,
     PulmonologistLower, GeneralPhysicianLower]

  /** The first of `keys`, from position `k` on, that occurs in `text`. */
  function FirstOccurring(text: string, keys: seq<string>, k: nat): (r: Option<nat>)
    requires k <= |keys|
    ensures r.Some? ==> k <= r.value < |keys| && Contains(text, keys[r.value])
    ensures r.Some? ==> forall j :: k <= j < r.value ==> !Contains(text, keys[j])
    ensures r.None? ==> forall j :: k <= j < |keys| ==> !Contains(text, keys[j])
    decreases |keys| - k
  {
    if k == |keys| then None
    else if Contains(text, keys[k]) then Some(k)
    else FirstOccurring(text, keys, k + 1)
  }

  /** The specialty `k` is named, ignoring case, inside the specialist type. */
  predicate Names(specialist: string, k: int)
    requires 0 <= k < |LoweredSpecialties|
  {
    Contains(Lower(specialist), LoweredSpecialties[k])
  }

  /** The specialty whose doctors are drawn from: the first key, in declared order,
    * that the specialist type contains ignoring case, else General Physician. */
  function SpecialtyIndex(specialist: string): (k: nat)
    ensures k < |Specialties|
    ensures forall j :: 0 <= j < k ==> !Names(specialist, j)
    ensures k != GeneralPhysician ==> Names(specialist, k)
    ensures k == GeneralPhysician <==> forall j :: 0 <= j < GeneralPhysician ==> !Names(specialist, j)
  {
    match FirstOccurring(Lower(specialist), LoweredSpecialties, 0)
    case Some(k) =>
      assert k == GeneralPhysician || Names(specialist, k);
      k
    case None => GeneralPhysician
  }

  /** `_get_indian_doctor_name`, with `random.choice` drawing the `pick`-th name. */
  function IndianDoctorName(specialist: string, pick: nat): (name: string)
    ensures name in Roster(SpecialtyIndex(specialist))
    ensures name != ""
  {
    var names := Roster(SpecialtyIndex(specialist));
    names[pick % |names|]
  }

  /** Every doctor of the chosen specialty can be drawn, so the choice is exactly
    * a member of that roster. */
  lemma EveryRosterNameDrawn(specialist: string, name: string)
    requires name in Roster(SpecialtyIndex(specialist))
    ensures exists pick: nat :: IndianDoctorName(specialist, pick) == name
  {
    var names := Roster(SpecialtyIndex(specialist));
    DrawReaches(names, name);
    var pick: nat :| pick < |names| && names[pick % |names|] == name;
    assert IndianDoctorName(specialist, pick) == name;
  }

  /** Every name of a non-empty roster is drawn by some pick. */
  lemma DrawReaches(names: seq<string>, name: string)
    requires name in names
    ensures exists pick: nat :: pick < |names| && names[pick % |names|] == name
  {
    var j :| 0 <= j < |names| && names[j] == name;
    assert names[j % |names|] == name;
  }

  // ---------------------------------------------------------------------
  // `_calculate_appointment_time`
  // ---------------------------------------------------------------------

  /** `now` plus two hours for "High", two days for "Medium" and five days otherwise,
    * written `%Y-%m-%d %H:%M`; `None` where the date passes year 9999. */
  function CalculatedTime(urgency: Json, now: Calendar.DateTime): Option<string>
    requires now.Valid()
  {
    var later :=
      if urgency == JStr("High") then Calendar.AddHours(now, 2)
      else if urgency == JStr("Medium") then Calendar.AddDays(now, 2)
      else Calendar.AddDays(now, 5);
    match later
    case Some(dt) => Some(Calendar.FormatMinute(dt))
    case None => None
  }

  /** The written time reads back as two hours, two days or five days after `now`,
    * to the minute. */
  lemma CalculatedTimeMeaning(urgency: Json, now: Calendar.DateTime)
    requires now.Valid() && 1000 <= now.year <= 9998
    ensures CalculatedTime(urgency, now).Some?
    ensures var at := Calendar.ParseMinute(CalculatedTime(urgency, now).value);
            at.Some? && at.value.second == 0 &&
            (urgency == JStr("High") ==>
               Calendar.Seconds(at.value) == Calendar.Seconds(now) - now.second + 2 * 3600) &&
            (urgency != JStr("High") ==>
               at.value.hour == now.hour && at.value.minute == now.minute &&
               Calendar.DayNumber(at.value) == Calendar.DayNumber(now) + (if urgency == JStr("Medium") then 2 else 5))
  {
    var later :=
      if urgency == JStr("High") then Calendar.AddHours(now, 2)
      else if urgency == JStr("Medium") then Calendar.AddDays(now, 2)
      else Calendar.AddDays(now, 5);
    if urgency == JStr("High") {
      Calendar.AddHoursDefined(now, 2);
    } else if urgency == JStr("Medium") {
      Calendar.AddDaysDefined(now, 2);
    } else {
      Calendar.AddDaysDefined(now, 5);
    }
    var dt := later.value;
    Calendar.ParseMinuteRoundTrip(dt);
    assert Calendar.Seconds(dt.(second := 0)) == Calendar.Seconds(dt) - dt.second;
  }

  // ---------------------------------------------------------------------
  // `book_json_appointment`
  // ---------------------------------------------------------------------

  /** `doctor_name or assigned_doctor or` a drawn doctor; `None` where the lookup is
    * reached with a specialist type that is not text (`.lower()` raises). */
  function DoctorChoice(rec: map<string, Json>, patient: map<string, Json>, specialist: Json, pick: nat): (r: Option<Json>)
    ensures r.Some? ==> Truthy(r.value)
  {
    var named := Get(rec, "doctor_name", JNull);
    var atIntake := Get(patient, "assigned_doctor", JNull);
    if Truthy(named) then Some(named)
    else if Truthy(atIntake) then Some(atIntake)
    else if specialist.JStr? then Some(JStr(IndianDoctorName(specialist.s, pick)))
    else None
  }

  /** The recommendation's doctor wins, then the one assigned at intake, then a
    * doctor of the matching specialty; the chosen doctor is never falsy. */
  lemma DoctorChoiceOrder(rec: map<string, Json>, patient: map<string, Json>, specialist: Json, pick: nat)
    ensures Truthy(Get(rec, "doctor_name", JNull)) ==> DoctorChoice(rec, patient, specialist, pick) == Some(rec["doctor_name"])
    ensures !Truthy(Get(rec, "doctor_name", JNull)) && Truthy(Get(patient, "assigned_doctor", JNull))
            ==> DoctorChoice(rec, patient, specialist, pick) == Some(patient["assigned_doctor"])
    ensures !Truthy(Get(rec, "doctor_name", JNull)) && !Truthy(Get(patient, "assigned_doctor", JNull)) && specialist.JStr?
            ==> DoctorChoice(rec, patient, specialist, pick) == Some(JStr(IndianDoctorName(specialist.s, pick)))
    ensures specialist.JStr? ==> DoctorChoice(rec, patient, specialist, pick).Some?
  {
  }

  /** The selected slot unless it is empty or "To be confirmed", else the calculated time. */
  function TimeChoice(patient: map<string, Json>, urgency: Json, now: Calendar.DateTime): (r: Option<Json>)
    requires now.Valid()
  {
    var slot := Get(patient, "selected_slot", JStr(""));
    if Truthy(slot) && slot != JStr("To be confirmed") then Some(slot)
    else
      match CalculatedTime(urgency, now)
      case Some(t) => Some(JStr(t))
      case None => None
  }

  /** A real selected slot is kept as it is; otherwise the time is calculated from the urgency. */
  lemma TimeChoiceRule(patient: map<string, Json>, urgency: Json, now: Calendar.DateTime)
    requires now.Valid()
    ensures var slot := Get(patient, "selected_slot", JStr(""));
            (Truthy(slot) && slot != JStr("To be confirmed") ==> TimeChoice(patient, urgency, now) == Some(slot)) &&
            (!Truthy(slot) || slot == JStr("To be confirmed") ==>
               TimeChoice(patient, urgency, now).Some? == CalculatedTime(urgency, now).Some? &&
               (TimeChoice(patient, urgency, now).Some? ==>
                  TimeChoice(patient, urgency, now).value == JStr(CalculatedTime(urgency, now).value)))
  {
  }

  /** The values the handler chooses before it builds the appointment record. */
  datatype Chosen = Chosen(
    id: string,
    doctor: Json,
    specialist: Json,
    expertise: Json,
    time: Json,
    urgency: Json,
    consultation: Json)

  /** `APT-` and `now.strftime('%Y%m%d%H%M%S')`. */
  function AppointmentId(stamp: Calendar.DateTime): string
    requires stamp.Valid()
  {
    "APT-" + Calendar.FormatStamp(stamp)
  }

  /** From year 1000 on, the identifier is `APT-` and fourteen digits. */
  lemma AppointmentIdShape(stamp: Calendar.DateTime)
    requires stamp.Valid() && 1000 <= stamp.year
    ensures var id := AppointmentId(stamp);
            |id| == 18 && id[..4] == "APT-" && AllDigits(id[4..])
  {
    var id := AppointmentId(stamp);
    assert id[4..] == Calendar.FormatStamp(stamp);
  }

  /** The choices of `book_json_appointment`, with `now` the clock read for the time,
    * `stamp` the one read for the identifier and `pick` the random draw; `None` where an
    * exception escapes, which the endpoint turns into HTTP 500. */
  function Book(patient: map<string, Json>, analysis: map<string, Json>, now: Calendar.DateTime,
                stamp: Calendar.DateTime, pick: nat): (r: Option<Chosen>)
    requires now.Valid() && stamp.Valid()
    ensures r.Some? ==> Truthy(r.value.doctor)
  {
    var recValue := Get(analysis, "doctor_recommendation", JObj(map[]));
    if !recValue.JObj? then None
    else
      var rec := recValue.fields;
      var specialist := Get(rec, "specialist_type", JStr("General Physician"));
      var urgency := Get(rec, "consultation_priority", Get(rec, "urgency", JStr("Medium")));
      var expertise := Get(rec, "doctor_expertise", specialist);
      var doctor := DoctorChoice(rec, patient, specialist, pick);
      match (doctor, TimeChoice(patient, urgency, now), Get(analysis, "appointment_details", JObj(map[])))
      case (Some(d), Some(t), JObj(details)) =>
        Some(Chosen(AppointmentId(stamp), d, specialist, expertise, t, urgency,
                    Get(details, "consultation_type", JStr("Online Consultation"))))
      case _ => None
  }

  /** Missing recommendation fields take their defaults: General Physician, the
    * recommendation's urgency, else "Medium", and the specialist type as expertise. */
  lemma BookDefaults(patient: map<string, Json>, analysis: map<string, Json>, now: Calendar.DateTime,
                     stamp: Calendar.DateTime, pick: nat)
    requires now.Valid() && stamp.Valid()
    requires Book(patient, analysis, now, stamp, pick).Some?
    ensures var c := Book(patient, analysis, now, stamp, pick).value;
            var rec := Get(analysis, "doctor_recommendation", JObj(map[])).fields;
            ("specialist_type" !in rec ==> c.specialist == JStr("General Physician")) &&
            ("consultation_priority" in rec ==> c.urgency == rec["consultation_priority"]) &&
            ("consultation_priority" !in rec && "urgency" in rec ==> c.urgency == rec["urgency"]) &&
            ("consultation_priority" !in rec && "urgency" !in rec ==> c.urgency == JStr("Medium")) &&
            ("doctor_expertise" !in rec ==> c.expertise == c.specialist)
  {
  }

  /** A recommendation or appointment section that is present but not an object makes
    * the booking fail. */
  lemma BookNeedsObjects(patient: map<string, Json>, analysis: map<string, Json>, now: Calendar.DateTime,
                         stamp: Calendar.DateTime, pick: nat)
    requires now.Valid() && stamp.Valid()
    requires ("doctor_recommendation" in analysis && !analysis["doctor_recommendation"].JObj?) ||
             ("appointment_details" in analysis && !analysis["appointment_details"].JObj?)
    ensures Book(patient, analysis, now, stamp, pick).None?
  {
  }

  /** The keys of `appointment_details`. */
  const DetailKeys: set<string> := {"appointment_id", "patient_name", "patient_email", "patient_phone",
                                    "doctor_name", "doctor_specialist", "expertise", "appointment_time",
                                    "urgency", "consultation_type", "status"}

  function DetailValue(key: string, patient: map<string, Json>, c: Chosen): Json
  {
    if key == "status" then JStr("Confirmed")
    else if key == "appointment_id" then JStr(c.id)
    else if key == "patient_name" then Get(patient, "name", JStr("N/A"))
    else if key == "patient_email" then Get(patient, "email", JStr("N/A"))
    else if key == "patient_phone" then Get(patient, "phone", JStr("N/A"))
    else if key == "doctor_name" then c.doctor
    else if key == "doctor_specialist" then c.specialist
    else if key == "expertise" then c.expertise
    else if key == "appointment_time" then c.time
    else if key == "urgency" then c.urgency
    else c.consultation
  }

  /** The appointment record; its status is always "Confirmed". */
  function Details(patient: map<string, Json>, c: Chosen): (d: map<string, Json>)
    ensures d.Keys == DetailKeys
    ensures d["status"] == JStr("Confirmed")
    ensures d["appointment_id"] == JStr(c.id) && d["doctor_name"] == c.doctor && d["appointment_time"] == c.time
    ensures d["urgency"] == c.urgency && d["doctor_specialist"] == c.specialist
  {
    map k | k in DetailKeys :: DetailValue(k, patient, c)
  }

  // ---------------------------------------------------------------------
  // Side effects
  // ---------------------------------------------------------------------

  /** The calls the handler makes, in order. */
  datatype Call =
    | RenderReport(details: map<string, Json>)
    | SendEmail(to: Json, name: Json, attachment: Option<seq<bv8>>)
    | Speak(doctor: Json, time: Json, email: Json)

  /** What the services answer: the report's bytes, and the email and speech results;
    * `None` where the call raises. */
  datatype Services = Services(report: Option<seq<bv8>>, email: Option<Json>, speech: Option<Json>)

  datatype Response = Response(success: bool, appointmentId: string, details: map<string, Json>,
                               emailSent: Json, audio: Json)

  /** `email_result.get("success", False)`, and False when the call or the `.get` raises. */
  function EmailSent(result: Option<Json>): (sent: Json)
    ensures sent == JBool(true) ==> result.Some? && result.value.JObj? && "success" in result.value.fields
  {
    if result.Some? && result.value.JObj? then Get(result.value.fields, "success", JBool(false)) else JBool(false)
  }

  /** `tts_result.get("audio_base64")`, and None when the call or the `.get` raises. */
  function SpeechAudio(result: Option<Json>): Json
  {
    if result.Some? && result.value.JObj? then Get(result.value.fields, "audio_base64", JNull) else JNull
  }

  /** `book_json_appointment`: every step after the choices runs in its own `try`,
    * so the report, the email and the speech are all attempted whatever the others do. */
  method BookJsonAppointment(patient: map<string, Json>, analysis: map<string, Json>, now: Calendar.DateTime,
                             stamp: Calendar.DateTime, pick: nat, services: Services)
    returns (response: Option<Response>, calls: seq<Call>)
    requires now.Valid() && stamp.Valid()
    ensures Book(patient, analysis, now, stamp, pick).None? ==> response.None? && calls == []
    ensures Book(patient, analysis, now, stamp, pick).Some? ==>
              var c := Book(patient, analysis, now, stamp, pick).value;
              var details := Details(patient, c);
              response == Some(Response(true, c.id, details, EmailSent(services.email), SpeechAudio(services.speech))) &&
              calls == [RenderReport(details),
                        SendEmail(Get(patient, "email", JNull), Get(patient, "name", JStr("Patient")), services.report),
                        Speak(c.doctor, c.time, Get(patient, "email", JNull))]
  {
    var chosen := Book(patient, analysis, now, stamp, pick);
    if chosen.None? {
      return None, [];
    }
    var r;
    r, calls := Confirm(patient, chosen.value, services);
    response := Some(r);
  }

  /** The side effects of a confirmed booking, in order, and the response they give. */
  method Confirm(patient: map<string, Json>, c: Chosen, services: Services) returns (response: Response, calls: seq<Call>)
    ensures var details := Details(patient, c);
            response == Response(true, c.id, details, EmailSent(services.email), SpeechAudio(services.speech)) &&
            calls == [RenderReport(details),
                      SendEmail(Get(patient, "email", JNull), Get(patient, "name", JStr("Patient")), services.report),
                      Speak(c.doctor, c.time, Get(patient, "email", JNull))]
  {
    var details := Details(patient, c);

    var pdfBytes: Option<seq<bv8>> := None;
    calls := [RenderReport(details)];
    if services.report.Some? {
      pdfBytes := services.report;
    }

    var emailSent := JBool(false);
    calls := calls + [SendEmail(Get(patient, "email", JNull), Get(patient, "name", JStr("Patient")), pdfBytes)];
    if services.email.Some? && services.email.value.JObj? {
      emailSent := Get(services.email.value.fields, "success", JBool(false));
    }

    var audio := JNull;
    calls := calls + [Speak(c.doctor, c.time, Get(patient, "email", JNull))];
    if services.speech.Some? && services.speech.value.JObj? {
      audio := Get(services.speech.value.fields, "audio_base64", JNull);
    }

    response := Response(true, c.id, details, emailSent, audio);
  }

  // ---------------------------------------------------------------------
  // The report of a booking
  // ---------------------------------------------------------------------

  /** The booked doctor is the recommendation's own doctor whenever that one is truthy. */
  lemma BookKeepsRecommendedDoctor(patient: map<string, Json>, analysis: map<string, Json>, now: Calendar.DateTime,
                                   stamp: Calendar.DateTime, pick: nat)
    requires now.Valid() && stamp.Valid()
    requires Book(patient, analysis, now, stamp, pick).Some?
    ensures Get(analysis, "doctor_recommendation", JObj(map[])).JObj?
    ensures var rec := Get(analysis, "doctor_recommendation", JObj(map[])).fields;
            Truthy(Get(rec, "doctor_name", JNull)) ==>
              Book(patient, analysis, now, stamp, pick).value.doctor == rec["doctor_name"]
  {
  }

  /** The report rendered from a booking's details shows its identifier, its urgency and
    * its doctor (when the recommendation names none or names the same one); it shows the
    * booked time unless the recommendation carries a slot. */
  lemma ReportShowsDetails(analysis: map<string, Json>, patient: map<string, Json>, c: Chosen,
                           reportNow: Calendar.DateTime, uuidHex: string, testOrder: seq<string>)
    requires reportNow.Valid() && PdfService.TestOrderFits(analysis, testOrder)
    requires Get(analysis, "doctor_recommendation", JObj(map[])).JObj?
    requires var rec := Get(analysis, "doctor_recommendation", JObj(map[])).fields;
             Truthy(c.doctor) && (Truthy(Get(rec, "doctor_name", JNull)) ==> c.doctor == rec["doctor_name"])
    requires PdfService.Report(analysis, Details(patient, c), reportNow, uuidHex, testOrder).Some?
    ensures var view := PdfService.Report(analysis, Details(patient, c), reportNow, uuidHex, testOrder).value;
            var rec := Get(analysis, "doctor_recommendation", JObj(map[])).fields;
            view.reportId == JStr(c.id) && view.urgency == c.urgency && view.doctor == c.doctor &&
            (!Truthy(Get(rec, "appointment_slot", JNull)) ==> view.time == c.time)
  {
    PdfService.FallbackChains(Get(analysis, "doctor_recommendation", JObj(map[])).fields, Details(patient, c));
  }

  /** The report rendered for a booking shows its identifier, its urgency and the
    * booked doctor; it shows the booked time unless the recommendation carries a slot. */
  lemma ReportShowsBooking(patient: map<string, Json>, analysis: map<string, Json>, now: Calendar.DateTime,
                           stamp: Calendar.DateTime, pick: nat, reportNow: Calendar.DateTime,
                           uuidHex: string, testOrder: seq<string>)
    requires now.Valid() && stamp.Valid() && reportNow.Valid() && PdfService.TestOrderFits(analysis, testOrder)
    requires Book(patient, analysis, now, stamp, pick).Some?
    requires PdfService.Report(analysis, Details(patient, Book(patient, analysis, now, stamp, pick).value),
                               reportNow, uuidHex, testOrder).Some?
    ensures var c := Book(patient, analysis, now, stamp, pick).value;
            var view := PdfService.Report(analysis, Details(patient, c), reportNow, uuidHex, testOrder).value;
            var rec := Get(analysis, "doctor_recommendation", JObj(map[])).fields;
            view.reportId == JStr(c.id) && view.urgency == c.urgency && view.doctor == c.doctor &&
            (!Truthy(Get(rec, "appointment_slot", JNull)) ==> view.time == c.time)
  {
    BookKeepsRecommendedDoctor(patient, analysis, now, stamp, pick);
    ReportShowsDetails(analysis, patient, Book(patient, analysis, now, stamp, pick).value, reportNow, uuidHex, testOrder);
  }

  /** A time the endpoint calculated is split by the report into its date and clock. */
  lemma CalculatedTimeSplitInReport(urgency: Json, now: Calendar.DateTime)
    requires now.Valid() && 1000 <= now.year <= 9998
    ensures var t := CalculatedTime(urgency, now);
            t.Some? && PdfService.ScheduleOf(JStr(t.value)).clock != ""
  {
    CalculatedTimeMeaning(urgency, now);
    PdfService.ScheduleSplitIffParses(JStr(CalculatedTime(urgency, now).value));
  }

  /** A slot picked from the intake's options is shown by the report as it is. */
  lemma IntakeSlotShownVerbatim(slot: string)
    requires slot in JsonIntake.SlotOptions
    ensures PdfService.ScheduleOf(JStr(slot)) == PdfService.Schedule(JStr(slot), "")
  {
    assert !IsDigit(slot[0]);
    assert !AllDigits(slot[..4]) by {
      assert slot[..4][0] == slot[0];
    }
  }
}
