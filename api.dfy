/**
 * The decisions of the HTTP layer: registering a patient, sending a manual notification
 * and sending a critical alert. The database is a map of patients, a sequence of
 * assessments and an append-only audit trail; the notification service is the one
 * modelled in `Notifications`.
 */
module Api {
  import opened Options
  import PyStr
  import opened Notifications
  import opened Scheduler

  /** An HTTP answer: the channel results on success, or the status code and detail raised. */
  datatype Response =
    | Success(results: map<string, ChannelResult>)
    | Registered
    | HttpError(status: int, detail: string)
    /** Status 500 carrying the text of an unexpected exception, which the model does not reproduce. */
    | InternalError

  datatype AuditEntry = AuditEntry(patientId: string, action: string, description: string, user: string)

  datatype AssessmentRecord = AssessmentRecord(patientId: string, createdAt: int, emergencyLevel: string, reasoning: string)

  const PatientNotFound := HttpError(404, "Patient not found")
  const DuplicatePatient := HttpError(400, "Patient ID already exists")
  const InvalidType := HttpError(400, "Invalid notification type")
  const NoCriticalAssessment := HttpError(400, "No critical assessment found")

  // ---------------------------------------------------------------- send_notification

  datatype Kind = MedicationKind | VitalsKind | DietKind | ExerciseKind

  /** The notification types `send_notification` dispatches on. */
  function KindOf(t: string): (k: Option<Kind>)
    ensures k.Some? <==> t == "medication" || t == "vitals" || t == "diet" || t == "exercise"
    ensures k == Some(MedicationKind) <==> t == "medication"
    ensures k == Some(VitalsKind) <==> t == "vitals"
    ensures k == Some(DietKind) <==> t == "diet"
    ensures k == Some(ExerciseKind) <==> t == "exercise"
  {
    if t == "medication" then Some(MedicationKind)
    else if t == "vitals" then Some(VitalsKind)
    else if t == "diet" then Some(DietKind)
    else if t == "exercise" then Some(ExerciseKind)
    else None
  }

  /** The text used when the request carries no message; vitals reminders take none. */
  function DefaultMessage(k: Kind): string {
    match k
    case MedicationKind => "Take your prescribed medication"
    case VitalsKind => ""
    case DietKind => "Follow your diet plan"
    case ExerciseKind => "Complete your exercise routine"
  }

  datatype NotificationRequest = NotificationRequest(
    patientId: string, kind: string, phone: Option<string>, email: Option<string>, message: Option<string>)

  /** `contact.get(key)` on `emergency_contact or {}`. */
  function ContactGet(c: Contact, key: string): Option<string>
    requires !c.NotADict?
  {
    if c.ContactFields? && key in c.fields then Some(c.fields[key]) else None
  }

  /** `given or contact.get(key)`: the contact is only read when `given` is falsy. */
  function Resolve(given: Option<string>, c: Contact, key: string): Option<string>
    requires Truthy(given) || !c.NotADict?
  {
    if Truthy(given) then given else ContactGet(c, key)
  }

  /** What `send_notification` decides before any side effect. */
  datatype Plan =
    | UnknownPatient
    | BrokenContact
    | UnknownType
    | Notify(kind: Kind, patientName: string, text: string, phone: Option<string>, email: Option<string>)

  /**
   * Whether `send_notification` reads the contact with `.get`: the request's phone and
   * e-mail are tried first, and the contact is consulted only for a falsy one.
   */
  predicate ReadsContact(req: NotificationRequest) {
    !Truthy(req.phone) || !Truthy(req.email)
  }

  /**
   * `send_notification` up to the dispatch: the patient is looked up first, then the
   * addresses are resolved — reading a contact that is not a dictionary raises — then
   * the type is checked.
   */
  function PlanNotification(patients: map<string, PatientRow>, req: NotificationRequest): (p: Plan)
    ensures p.UnknownPatient? <==> req.patientId !in patients
    ensures p.BrokenContact? <==> (req.patientId in patients && patients[req.patientId].emergencyContact.NotADict?
      && ReadsContact(req))
    ensures p.Notify? <==> (req.patientId in patients
      && (!patients[req.patientId].emergencyContact.NotADict? || !ReadsContact(req))
      && KindOf(req.kind).Some?)
    ensures p.Notify? ==> p.kind == KindOf(req.kind).value
  {
    if req.patientId !in patients then UnknownPatient
    else
      var patient := patients[req.patientId];
      var c := patient.emergencyContact;
      if c.NotADict? && ReadsContact(req) then BrokenContact
      else
        var phone := Resolve(req.phone, c, "phone");
        var email := Resolve(req.email, c, "email");
        var k := KindOf(req.kind);
        if k.None? then UnknownType
        else
          var text := if Truthy(req.message) then req.message.value else DefaultMessage(k.value);
          Notify(k.value, patient.firstName + " " + patient.lastName, text, phone, email)
  }

  /**
   * The addresses come from the request when it gives a non-empty one and from the
   * patient's emergency contact otherwise; the message is the request's, or the
   * type's default when it gives none.
   */
  lemma PlanResolvesContact(patients: map<string, PatientRow>, req: NotificationRequest)
    requires PlanNotification(patients, req).Notify?
    ensures var p := PlanNotification(patients, req);
      var c := patients[req.patientId].emergencyContact;
      && (Truthy(req.phone) ==> p.phone == req.phone)
      && (!Truthy(req.phone) ==> p.phone == (if c.ContactFields? && "phone" in c.fields then Some(c.fields["phone"]) else None))
      && (Truthy(req.email) ==> p.email == req.email)
      && (!Truthy(req.email) ==> p.email == (if c.ContactFields? && "email" in c.fields then Some(c.fields["email"]) else None))
      && (Truthy(req.message) ==> p.text == req.message.value)
      && (!Truthy(req.message) && req.kind == "medication" ==> p.text == "Take your prescribed medication")
      && (!Truthy(req.message) && req.kind == "diet" ==> p.text == "Follow your diet plan")
      && (!Truthy(req.message) && req.kind == "exercise" ==> p.text == "Complete your exercise routine")
  {
  }

  /**
   * A request that gives both addresses never reads the contact: it is served whatever
   * the contact holds, a value that is not a dictionary included.
   */
  lemma GivenAddressesSkipContact(patients: map<string, PatientRow>, req: NotificationRequest)
    requires req.patientId in patients && Truthy(req.phone) && Truthy(req.email) && KindOf(req.kind).Some?
    ensures var p := PlanNotification(patients, req);
      p.Notify? && p.phone == req.phone && p.email == req.email
  {
  }

  /** The audit action: "NOTIFICATION_SENT_" and the type in capitals. */
  function NotificationAction(kind: string): string {
    "NOTIFICATION_SENT_" + PyStr.Upper(kind)
  }

  /** The four actions a dispatched notification can be logged under. */
  lemma NotificationActions(kind: string)
    requires KindOf(kind).Some?
    ensures kind == "medication" ==> NotificationAction(kind) == "NOTIFICATION_SENT_MEDICATION"
    ensures kind == "vitals" ==> NotificationAction(kind) == "NOTIFICATION_SENT_VITALS"
    ensures kind == "diet" ==> NotificationAction(kind) == "NOTIFICATION_SENT_DIET"
    ensures kind == "exercise" ==> NotificationAction(kind) == "NOTIFICATION_SENT_EXERCISE"
  {
    if kind == "medication" {
      assert PyStr.Upper(kind) == "MEDICATION";
    } else if kind == "vitals" {
      assert PyStr.Upper(kind) == "VITALS";
    } else if kind == "diet" {
      assert PyStr.Upper(kind) == "DIET";
    } else {
      assert PyStr.Upper(kind) == "EXERCISE";
    }
  }

  // ---------------------------------------------------------------- send_critical_alert

  /**
   * The newest assessment of a patient (`order_by(created_at.desc()).first()`); among
   * assessments with the same time the model takes the one recorded first.
   */
  function Latest(records: seq<AssessmentRecord>, patientId: string): (r: Option<AssessmentRecord>)
    ensures r.None? <==> forall i :: 0 <= i < |records| ==> records[i].patientId != patientId
    ensures r.Some? ==> r.value in records && r.value.patientId == patientId
    ensures r.Some? ==> forall i :: 0 <= i < |records| && records[i].patientId == patientId ==>
      records[i].createdAt <= r.value.createdAt
  {
    if records == [] then None
    else
      var earlier := Latest(records[..|records| - 1], patientId);
      var last := records[|records| - 1];
      if last.patientId == patientId && (earlier.None? || earlier.value.createdAt < last.createdAt) then Some(last)
      else earlier
  }

  /** `send_critical_alert`'s gate: a latest assessment exists and its level is "CRITICAL". */
  predicate CriticalGate(latest: Option<AssessmentRecord>) {
    latest.Some? && latest.value.emergencyLevel == "CRITICAL"
  }

  /**
   * The gate looks only at the newest assessment: a patient whose newest assessment is
   * not critical gets no alert even when an older one was.
   */
  lemma GateUsesNewest(records: seq<AssessmentRecord>, older: AssessmentRecord, newer: AssessmentRecord)
    requires older.patientId == newer.patientId && older.createdAt < newer.createdAt
    requires older.emergencyLevel == "CRITICAL" && newer.emergencyLevel != "CRITICAL"
    requires forall i :: 0 <= i < |records| && records[i].patientId == newer.patientId ==> records[i].createdAt < newer.createdAt
    ensures !CriticalGate(Latest(records + [older, newer], newer.patientId))
  {
    var all := records + [older, newer];
    assert all[|all| - 1] == newer;
  }

  class TriageApi {
    /** The `patients` table, by `patient_id`. */
    var patients: map<string, PatientRow>
    /** The `assessments` table. */
    var assessments: seq<AssessmentRecord>
    /** The `audit_logs` table, in insertion order. */
    var audit: seq<AuditEntry>
    const notifier: NotificationService

    constructor (notifier: NotificationService, patients: map<string, PatientRow>, assessments: seq<AssessmentRecord>)
      ensures this.notifier == notifier && this.patients == patients && this.assessments == assessments && audit == []
    {
      this.notifier := notifier;
      this.patients := patients;
      this.assessments := assessments;
      audit := [];
    }

    /**
     * `register_patient`: an id already taken is refused with 400 and nothing is written;
     * otherwise the patient is stored and the registration audited by "Admin".
     */
    method RegisterPatient(patientId: string, patient: PatientRow) returns (r: Response)
      modifies this
      ensures patientId in old(patients) ==> r == DuplicatePatient && patients == old(patients) && audit == old(audit)
      ensures patientId !in old(patients) ==> (r == Registered && patients == old(patients)[patientId := patient]
        && audit == old(audit) + [AuditEntry(patientId, "PATIENT_REGISTERED",
             "New patient registered: " + patient.firstName + " " + patient.lastName, "Admin")])
      ensures assessments == old(assessments)
    {
      if patientId in patients {
        return DuplicatePatient;
      }
      patients := patients[patientId := patient];
      audit := audit + [AuditEntry(patientId, "PATIENT_REGISTERED",
        "New patient registered: " + patient.firstName + " " + patient.lastName, "Admin")];
      r := Registered;
    }

    /** The template a plan calls, as the notification service's contract states it. */
    twostate predicate Notified(p: Plan, time: string, results: map<string, ChannelResult>)
      requires p.Notify?
      reads notifier
    {
      match p.kind
      case MedicationKind =>
        notifier.Dispatched(p.phone, MedicationSms(p.patientName, p.text, time),
          p.email, MedicationSubject(p.text), MedicationBody(p.patientName, p.text, time),
          Some(MedicationHtml(p.patientName, p.text, time)), results)
      case VitalsKind =>
        notifier.Dispatched(p.phone, VitalsSms(p.patientName), p.email, VitalsSubject, VitalsBody(p.patientName), None, results)
      case DietKind =>
        notifier.Dispatched(p.phone, DietSms(p.patientName, p.text), p.email, DietSubject, DietBody(p.patientName, p.text), None, results)
      case ExerciseKind =>
        notifier.Dispatched(p.phone, ExerciseSms(p.patientName, p.text), p.email, ExerciseSubject,
          ExerciseBody(p.patientName, p.text), None, results)
    }

    /**
     * `send_notification`: 404 for an unknown patient, 500 when an address has to be read
     * from a contact that is not a dictionary, 400 for an unknown type — in each case nothing is sent or audited;
     * otherwise the type's template is called and the send audited by "System".
     * `time` is the clock as the medication template formats it.
     */
    method SendNotification(req: NotificationRequest, time: string) returns (r: Response)
      modifies this, notifier
      ensures var p := PlanNotification(old(patients), req);
        && (p.UnknownPatient? ==> r == PatientNotFound)
        && (p.BrokenContact? ==> r == InternalError)
        && (p.UnknownType? ==> r == InvalidType)
        && (!p.Notify? ==> audit == old(audit) && notifier.outbox == old(notifier.outbox))
        && (p.Notify? ==> (r.Success? && Notified(p, time, r.results)
              && audit == old(audit) + [AuditEntry(req.patientId, NotificationAction(req.kind),
                   "Notification sent: " + req.kind, "System")]))
      ensures patients == old(patients) && assessments == old(assessments)
      ensures notifier.twilioEnabled == old(notifier.twilioEnabled) && notifier.emailEnabled == old(notifier.emailEnabled)
    {
      var p := PlanNotification(patients, req);
      if !p.Notify? {
        r := if p.UnknownPatient? then PatientNotFound else if p.BrokenContact? then InternalError else InvalidType;
        return;
      }
      var results := SendByKind(p, time);
      audit := audit + [AuditEntry(req.patientId, NotificationAction(req.kind), "Notification sent: " + req.kind, "System")];
      r := Success(results);
    }

    /** The template call for the planned notification type. */
    method SendByKind(p: Plan, time: string) returns (results: map<string, ChannelResult>)
      requires p.Notify?
      modifies notifier
      ensures Notified(p, time, results)
    {
      match p.kind {
        case MedicationKind =>
          results := notifier.SendMedicationReminder(p.patientName, p.text, p.phone, p.email, time);
        case VitalsKind =>
          results := notifier.SendVitalsCheckReminder(p.patientName, p.phone, p.email);
        case DietKind =>
          results := notifier.SendDietReminder(p.patientName, p.text, p.phone, p.email);
        case ExerciseKind =>
          results := notifier.SendExerciseReminder(p.patientName, p.text, p.phone, p.email);
      }
    }

    /**
     * `send_critical_alert`: 404 for an unknown patient, 400 unless the newest assessment
     * is critical — with nothing sent or audited — and otherwise the alert to the doctor's
     * addresses, audited by "System". `time` is the clock in the e-mail's format.
     */
    method SendCriticalAlert(patientId: string, doctorPhone: Option<string>, doctorEmail: Option<string>, time: string)
      returns (r: Response)
      modifies this, notifier
      ensures patientId !in old(patients) ==> r == PatientNotFound
      ensures patientId in old(patients) && !CriticalGate(Latest(old(assessments), patientId)) ==> r == NoCriticalAssessment
      ensures !r.Success? ==> audit == old(audit) && notifier.outbox == old(notifier.outbox)
      ensures r.Success? <==> patientId in old(patients) && CriticalGate(Latest(old(assessments), patientId))
      ensures r.Success? ==>
        var a := Latest(old(assessments), patientId).value;
        var name := old(patients)[patientId].firstName + " " + old(patients)[patientId].lastName;
        && notifier.Dispatched(doctorPhone, CriticalSms(patientId, name, a.emergencyLevel, a.reasoning),
             doctorEmail, CriticalSubject(patientId), CriticalBody(patientId, name, a.emergencyLevel, a.reasoning, time),
             Some(CriticalHtml(patientId, name, a.emergencyLevel, a.reasoning, time)), r.results)
        && audit == old(audit) + [AuditEntry(patientId, "CRITICAL_ALERT_SENT", "Critical alert sent to doctor", "System")]
      ensures patients == old(patients) && assessments == old(assessments)
      ensures notifier.twilioEnabled == old(notifier.twilioEnabled) && notifier.emailEnabled == old(notifier.emailEnabled)
    {
      if patientId !in patients {
        return PatientNotFound;
      }
      var latest := Latest(assessments, patientId);
      if !CriticalGate(latest) {
        return NoCriticalAssessment;
      }
      var a := latest.value;
      var name := patients[patientId].firstName + " " + patients[patientId].lastName;
      var results := notifier.SendCriticalAlert(patientId, name, a.emergencyLevel, a.reasoning, doctorPhone, doctorEmail, time);
      audit := audit + [AuditEntry(patientId, "CRITICAL_ALERT_SENT", "Critical alert sent to doctor", "System")];
      r := Success(results);
    }
  }
}
