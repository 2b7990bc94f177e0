/**
 * The notification service (`NotificationService`): SMS through Twilio, e-mail through
 * SMTP, and five templates that fan a reminder or an alert out over the channels a
 * caller gave an address for.
 *
 * The transports are an oracle: the `n`-th message the service hands to a transport
 * (counting SMS and e-mail together) is delivered or fails as `transport(n)` says.
 * Template bodies are kept as the values they are filled from, not as rendered text.
 */
module Notifications {
  import opened Options

  /** The credentials the service reads; each defaults to the empty string. */
  datatype Settings = Settings(
    twilioAccountSid: string,
    twilioAuthToken: string,
    twilioPhoneNumber: string,
    smtpUsername: string,
    smtpPassword: string)

  /** What a transport does with one message: delivers it (with an id), or raises. */
  datatype Delivery = Delivered(id: string) | Raised(error: string)

  /** The contents of a plain-text e-mail body, by template. */
  datatype EmailBody =
    | MedicationBody(patientName: string, medication: string, time: string)
    | VitalsBody(patientName: string)
    | CriticalBody(patientId: string, patientName: string, emergencyLevel: string, reasoning: string, time: string)
    | DietBody(patientName: string, dietItem: string)
    | ExerciseBody(patientName: string, exercise: string)

  /** The contents of an HTML e-mail body; only two templates have one. */
  datatype HtmlBody =
    | MedicationHtml(patientName: string, medication: string, time: string)
    | CriticalHtml(patientId: string, patientName: string, emergencyLevel: string, reasoning: string, time: string)

  datatype Part = Plain(body: EmailBody) | Html(html: HtmlBody)

  /** A message as handed to a transport. */
  datatype Message =
    | Sms(to: string, sender: string, text: string)
    | Email(sender: string, to: string, subject: string, parts: seq<Part>)

  /** The dictionary `send_sms` and `send_email` return. */
  datatype ChannelResult =
    | Skipped(reason: string)
    | SmsSent(messageId: string, phone: string)
    | EmailSent(to: string, subject: string)
    | SendFailed(error: string)
  {
    /** The `"status"` entry. */
    function Status(): string {
      match this
      case Skipped(_) => "skipped"
      case SendFailed(_) => "failed"
      case _ => "success"
    }
  }

  const SmsChannel := "sms"
  const EmailChannel := "email"

  /** `bool(TWILIO_ACCOUNT_SID and TWILIO_AUTH_TOKEN)` */
  predicate TwilioConfigured(s: Settings) {
    s.twilioAccountSid != "" && s.twilioAuthToken != ""
  }

  /** `bool(SMTP_USERNAME and SMTP_PASSWORD)` */
  predicate SmtpConfigured(s: Settings) {
    s.smtpUsername != "" && s.smtpPassword != ""
  }

  /**
   * What `send_sms` returns: "skipped" when SMS is off, otherwise "success" with the
   * message id and the phone, or "failed" with the error; it never raises.
   */
  function SmsResult(enabled: bool, d: Delivery, phone: string): (r: ChannelResult)
    ensures r.Status() == "skipped" <==> !enabled
    ensures r.Status() == "success" <==> enabled && d.Delivered?
    ensures r.Status() == "failed" <==> enabled && d.Raised?
    ensures r.Status() == "success" ==> r == SmsSent(d.id, phone)
    ensures r.Status() == "failed" ==> r.error == d.error
  {
    if !enabled then Skipped("Twilio not configured")
    else match d
      case Delivered(id) => SmsSent(id, phone)
      case Raised(e) => SendFailed(e)
  }

  /**
   * What `send_email` returns: "skipped" when e-mail is off, otherwise "success" echoing
   * the recipient and the subject, or "failed" with the error; it never raises.
   */
  function EmailResult(enabled: bool, d: Delivery, to: string, subject: string): (r: ChannelResult)
    ensures r.Status() == "skipped" <==> !enabled
    ensures r.Status() == "success" <==> enabled && d.Delivered?
    ensures r.Status() == "failed" <==> enabled && d.Raised?
    ensures r.Status() == "success" ==> r == EmailSent(to, subject)
    ensures r.Status() == "failed" ==> r.error == d.error
  {
    if !enabled then Skipped("SMTP not configured")
    else match d
      case Delivered(_) => EmailSent(to, subject)
      case Raised(e) => SendFailed(e)
  }

  /** The parts of an e-mail: the plain body always, the HTML body only when there is one. */
  function EmailParts(body: EmailBody, html: Option<HtmlBody>): (parts: seq<Part>)
    ensures |parts| >= 1 && parts[0] == Plain(body)
    ensures |parts| == 2 <==> html.Some?
    ensures |parts| <= 2 && (|parts| == 2 ==> parts[1] == Html(html.value))
  {
    [Plain(body)] + (if html.Some? then [Html(html.value)] else [])
  }

  /** The keys of a template's result dictionary. */
  function Channels(phone: Option<string>, email: Option<string>): (keys: set<string>)
    ensures SmsChannel in keys <==> Truthy(phone)
    ensures EmailChannel in keys <==> Truthy(email)
    ensures keys <= {SmsChannel, EmailChannel}
  {
    (if Truthy(phone) then {SmsChannel} else {}) + (if Truthy(email) then {EmailChannel} else {})
  }

  /** The messages one template call hands to the transports, in order. */
  function Handoffs(
    settings: Settings, smsOn: bool, emailOn: bool,
    phone: Option<string>, smsText: string,
    email: Option<string>, subject: string, body: EmailBody, html: Option<HtmlBody>): seq<Message>
  {
    (if Truthy(phone) && smsOn then [Sms(phone.value, settings.twilioPhoneNumber, smsText)] else [])
    + (if Truthy(email) && emailOn then [Email(settings.smtpUsername, email.value, subject, EmailParts(body, html))] else [])
  }

  /**
   * A template call sends at most one SMS and at most one e-mail, the SMS first, each to
   * the address it was given and only when that channel is on and the address truthy.
   */
  lemma HandoffsOrder(
    settings: Settings, smsOn: bool, emailOn: bool,
    phone: Option<string>, smsText: string,
    email: Option<string>, subject: string, body: EmailBody, html: Option<HtmlBody>)
    ensures var h := Handoffs(settings, smsOn, emailOn, phone, smsText, email, subject, body, html);
      && |h| == (if Truthy(phone) && smsOn then 1 else 0) + (if Truthy(email) && emailOn then 1 else 0)
      && (forall i :: 0 <= i < |h| && h[i].Sms? ==> i == 0 && h[i].to == phone.value && h[i].text == smsText)
      && (forall i :: 0 <= i < |h| && h[i].Email? ==> i == |h| - 1 && h[i].to == email.value && h[i].subject == subject)
      && (|h| == 2 ==> h[0].Sms? && h[1].Email?)
  {
  }

  // ---------------------------------------------------------------- template texts

  const MedicationEmoji := "\U{1F3E5}"
  const CriticalEmoji := "\U{1F6A8}"
  const DietEmoji := "\U{1F37D}\U{FE0F}"
  const ExerciseEmoji := "\U{1F3C3}"

  /** How much of the reasoning the critical-alert SMS carries. */
  const CriticalSmsReasoningLimit := 100

  /** `s[:n]` */
  function Take(s: string, n: nat): (r: string)
    ensures |r| == if |s| < n then |s| else n
    ensures r == s[..|r|]
  {
    if |s| <= n then s else s[..n]
  }

  function MedicationSms(patientName: string, medication: string, time: string): string {
    MedicationEmoji + " Reminder: " + patientName + ", it's time for your medication: " + medication + ". Time: " + time
  }

  function MedicationSubject(medication: string): string {
    "Medication Reminder - " + medication
  }

  function VitalsSms(patientName: string): string {
    MedicationEmoji + " Reminder: " + patientName + ", please check your vitals (BP, HR, Temperature). Report to nurse station."
  }

  const VitalsSubject := "Vitals Check Reminder"

  function CriticalSmsHead(patientId: string, patientName: string, emergencyLevel: string): string {
    CriticalEmoji + " CRITICAL ALERT: Patient " + patientId + " (" + patientName + ") - " + emergencyLevel + ". "
  }

  const CriticalSmsTail := "... Check dashboard immediately."

  /** The critical-alert SMS: the head, at most the first 100 characters of the reasoning, the tail. */
  function CriticalSms(patientId: string, patientName: string, emergencyLevel: string, reasoning: string): string {
    CriticalSmsHead(patientId, patientName, emergencyLevel) + Take(reasoning, CriticalSmsReasoningLimit) + CriticalSmsTail
  }

  function CriticalSubject(patientId: string): string {
    CriticalEmoji + " CRITICAL ALERT - Patient " + patientId
  }

  function DietSms(patientName: string, dietItem: string): string {
    DietEmoji + " Diet Reminder: " + patientName + ", time for your meal: " + dietItem + ". Follow your prescribed diet plan."
  }

  const DietSubject := "Diet Reminder"

  function ExerciseSms(patientName: string, exercise: string): string {
    ExerciseEmoji + " Exercise Reminder: " + patientName + ", it's time for: " + exercise + ". Follow your physiotherapy schedule."
  }

  const ExerciseSubject := "Exercise/Physiotherapy Reminder"

  /**
   * The critical-alert SMS is bounded whatever the length of the reasoning: at most 100
   * characters more than its fixed parts, and reasoning texts that agree on their first
   * 100 characters give the same SMS.
   */
  lemma CriticalSmsBounded(patientId: string, patientName: string, emergencyLevel: string, reasoning: string, other: string)
    ensures |CriticalSms(patientId, patientName, emergencyLevel, reasoning)|
      <= |CriticalSmsHead(patientId, patientName, emergencyLevel)| + CriticalSmsReasoningLimit + |CriticalSmsTail|
    ensures (&& |reasoning| >= CriticalSmsReasoningLimit && |other| >= CriticalSmsReasoningLimit
             && reasoning[..CriticalSmsReasoningLimit] == other[..CriticalSmsReasoningLimit]) ==>
      CriticalSms(patientId, patientName, emergencyLevel, reasoning) == CriticalSms(patientId, patientName, emergencyLevel, other)
  {
  }

  // ---------------------------------------------------------------- the service

  class NotificationService {
    var twilioEnabled: bool
    var emailEnabled: bool
    /** Every message handed to a transport, delivered or not, in order. */
    var outbox: seq<Message>
    const settings: Settings
    /** The fate of the `n`-th message handed to a transport. */
    const transport: nat -> Delivery

    /**
     * `__init__`: each channel is on when both its credentials are non-empty; SMS is
     * switched off again when the Twilio client cannot be set up (`twilioClientOk`).
     */
    constructor (settings: Settings, twilioClientOk: bool, transport: nat -> Delivery)
      ensures twilioEnabled <==> TwilioConfigured(settings) && twilioClientOk
      ensures emailEnabled <==> SmtpConfigured(settings)
      ensures outbox == []
      ensures this.settings == settings && this.transport == transport
    {
      this.settings := settings;
      this.transport := transport;
      outbox := [];
      twilioEnabled := settings.twilioAccountSid != "" && settings.twilioAuthToken != "";
      emailEnabled := settings.smtpUsername != "" && settings.smtpPassword != "";
      new;
      if twilioEnabled && !twilioClientOk {
        twilioEnabled := false;
      }
    }

    /** `send_sms`: a skipped send touches no transport. */
    method SendSms(phone: string, message: string) returns (r: ChannelResult)
      modifies this
      ensures twilioEnabled == old(twilioEnabled) && emailEnabled == old(emailEnabled)
      ensures outbox == old(outbox) + (if twilioEnabled then [Sms(phone, settings.twilioPhoneNumber, message)] else [])
      ensures r == SmsResult(twilioEnabled, transport(|old(outbox)|), phone)
    {
      if !twilioEnabled {
        return Skipped("Twilio not configured");
      }
      var delivery := transport(|outbox|);
      outbox := outbox + [Sms(phone, settings.twilioPhoneNumber, message)];
      match delivery {
        case Delivered(id) => r := SmsSent(id, phone);
        case Raised(e) => r := SendFailed(e);
      }
    }

    /** `send_email`: a skipped send touches no transport. */
    method SendEmail(to: string, subject: string, body: EmailBody, html: Option<HtmlBody>) returns (r: ChannelResult)
      modifies this
      ensures twilioEnabled == old(twilioEnabled) && emailEnabled == old(emailEnabled)
      ensures outbox == old(outbox) + (if emailEnabled then [Email(settings.smtpUsername, to, subject, EmailParts(body, html))] else [])
      ensures r == EmailResult(emailEnabled, transport(|old(outbox)|), to, subject)
    {
      if !emailEnabled {
        return Skipped("SMTP not configured");
      }
      var parts := [Plain(body)];
      if html.Some? {
        parts := parts + [Html(html.value)];
      }
      assert parts == EmailParts(body, html);
      var delivery := transport(|outbox|);
      outbox := outbox + [Email(settings.smtpUsername, to, subject, parts)];
      match delivery {
        case Delivered(_) => r := EmailSent(to, subject);
        case Raised(e) => r := SendFailed(e);
      }
    }

    /**
     * One template call, once its texts are built: the result dictionary has an entry per
     * channel given a truthy address, each the outcome of that channel's send, SMS first.
     */
    twostate predicate Dispatched(
      phone: Option<string>, smsText: string,
      email: Option<string>, subject: string, body: EmailBody, html: Option<HtmlBody>,
      results: map<string, ChannelResult>)
      reads this
    {
      var smsSent := if Truthy(phone) && twilioEnabled then 1 else 0;
      && twilioEnabled == old(twilioEnabled) && emailEnabled == old(emailEnabled)
      && results.Keys == Channels(phone, email)
      && outbox == old(outbox) + Handoffs(settings, twilioEnabled, emailEnabled, phone, smsText, email, subject, body, html)
      && (SmsChannel in results ==> results[SmsChannel] == SmsResult(twilioEnabled, transport(|old(outbox)|), phone.value))
      && (EmailChannel in results ==>
            results[EmailChannel] == EmailResult(emailEnabled, transport(|old(outbox)| + smsSent), email.value, subject))
    }

    /** The first half of `Dispatch`: the SMS entry, when the phone number is truthy. */
    method SmsLeg(phone: Option<string>, smsText: string) returns (results: map<string, ChannelResult>)
      modifies this
      ensures twilioEnabled == old(twilioEnabled) && emailEnabled == old(emailEnabled)
      ensures results.Keys == Channels(phone, None)
      ensures outbox == old(outbox) + (if Truthy(phone) && twilioEnabled then [Sms(phone.value, settings.twilioPhoneNumber, smsText)] else [])
      ensures SmsChannel in results ==> results[SmsChannel] == SmsResult(twilioEnabled, transport(|old(outbox)|), phone.value)
    {
      results := map[];
      if Truthy(phone) {
        var r := SendSms(phone.value, smsText);
        results := results[SmsChannel := r];
      }
    }

    /** The conditional insertion every template ends with. */
    method Dispatch(
      phone: Option<string>, smsText: string,
      email: Option<string>, subject: string, body: EmailBody, html: Option<HtmlBody>)
      returns (results: map<string, ChannelResult>)
      modifies this
      ensures Dispatched(phone, smsText, email, subject, body, html, results)
    {
      results := SmsLeg(phone, smsText);
      if Truthy(email) {
        var r := SendEmail(email.value, subject, body, html);
        results := results[EmailChannel := r];
      }
    }

    /** `send_medication_reminder`; `time` is the clock as "%I:%M %p". */
    method SendMedicationReminder(patientName: string, medication: string, phone: Option<string>, email: Option<string>, time: string)
      returns (results: map<string, ChannelResult>)
      modifies this
      ensures Dispatched(phone, MedicationSms(patientName, medication, time),
        email, MedicationSubject(medication), MedicationBody(patientName, medication, time),
        Some(MedicationHtml(patientName, medication, time)), results)
    {
      results := Dispatch(phone, MedicationSms(patientName, medication, time),
        email, MedicationSubject(medication), MedicationBody(patientName, medication, time),
        Some(MedicationHtml(patientName, medication, time)));
    }

    /** `send_vitals_check_reminder`: plain-text e-mail only. */
    method SendVitalsCheckReminder(patientName: string, phone: Option<string>, email: Option<string>)
      returns (results: map<string, ChannelResult>)
      modifies this
      ensures Dispatched(phone, VitalsSms(patientName), email, VitalsSubject, VitalsBody(patientName), None, results)
    {
      results := Dispatch(phone, VitalsSms(patientName), email, VitalsSubject, VitalsBody(patientName), None);
    }

    /**
     * `send_critical_alert` to the doctor's phone and e-mail; the e-mail carries the whole
     * reasoning, the SMS its first 100 characters. `time` is the clock as "%Y-%m-%d %H:%M:%S".
     */
    method SendCriticalAlert(
      patientId: string, patientName: string, emergencyLevel: string, reasoning: string,
      doctorPhone: Option<string>, doctorEmail: Option<string>, time: string)
      returns (results: map<string, ChannelResult>)
      modifies this
      ensures Dispatched(doctorPhone, CriticalSms(patientId, patientName, emergencyLevel, reasoning),
        doctorEmail, CriticalSubject(patientId), CriticalBody(patientId, patientName, emergencyLevel, reasoning, time),
        Some(CriticalHtml(patientId, patientName, emergencyLevel, reasoning, time)), results)
    {
      results := Dispatch(doctorPhone, CriticalSms(patientId, patientName, emergencyLevel, reasoning),
        doctorEmail, CriticalSubject(patientId), CriticalBody(patientId, patientName, emergencyLevel, reasoning, time),
        Some(CriticalHtml(patientId, patientName, emergencyLevel, reasoning, time)));
    }

    /** `send_diet_reminder`: plain-text e-mail only. */
    method SendDietReminder(patientName: string, dietItem: string, phone: Option<string>, email: Option<string>)
      returns (results: map<string, ChannelResult>)
      modifies this
      ensures Dispatched(phone, DietSms(patientName, dietItem), email, DietSubject, DietBody(patientName, dietItem), None, results)
    {
      results := Dispatch(phone, DietSms(patientName, dietItem), email, DietSubject, DietBody(patientName, dietItem), None);
    }

    /** `send_exercise_reminder`: plain-text e-mail only. */
    method SendExerciseReminder(patientName: string, exercise: string, phone: Option<string>, email: Option<string>)
      returns (results: map<string, ChannelResult>)
      modifies this
      ensures Dispatched(phone, ExerciseSms(patientName, exercise), email, ExerciseSubject, ExerciseBody(patientName, exercise), None, results)
    {
      results := Dispatch(phone, ExerciseSms(patientName, exercise), email, ExerciseSubject, ExerciseBody(patientName, exercise), None);
    }
  }
}
