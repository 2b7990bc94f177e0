/**
 * The reminder scheduler (`ReminderScheduler`): a table of daily jobs keyed by id, filled
 * with the three medication rounds, and the handler those jobs run, which texts a
 * medication reminder to every patient with a phone number in their emergency contact.
 *
 * The job table stands for the background scheduler's job store; the trigger is kept as
 * the hour and minute of a daily cron trigger. The patient table is the handler's input.
 */
module Scheduler {
  import opened Options
  import opened PyStr
  import opened Notifications

  /** A daily trigger at `hour:minute`. */
  datatype Job = Job(hour: int, minute: int)

  /** `patient.emergency_contact`: empty or missing, a dictionary, or some other JSON value. */
  datatype Contact =
    | NoContact                          // None, or any falsy value: read as `{}`
    | ContactFields(fields: map<string, string>)
    | NotADict                           // a truthy value without `.get`: raises AttributeError

  datatype PatientRow = PatientRow(firstName: string, lastName: string, emergencyContact: Contact)

  const MedicationTimes: seq<string> := ["08:00", "14:00", "20:00"]
  const ReminderMedication := "Your prescribed medication"

  function JobId(time: string): string {
    "medication_" + time
  }

  // ---------------------------------------------------------------- "HH:MM"

  predicate IsDigit(c: char) {
    '0' <= c <= '9'
  }

  predicate IsDigits(s: string) {
    |s| > 0 && forall i :: 0 <= i < |s| ==> IsDigit(s[i])
  }

  function DigitValue(c: char): nat
    requires IsDigit(c)
  {
    c as int - '0' as int
  }

  /** The value of a run of decimal digits, as `int()` reads it. */
  function DigitsValue(s: string): nat
    requires forall i :: 0 <= i < |s| ==> IsDigit(s[i])
  {
    if s == [] then 0 else 10 * DigitsValue(s[..|s| - 1]) + DigitValue(s[|s| - 1])
  }

  /**
   * `hour, minute = map(int, time_str.split(':'))` for the times this module registers:
   * exactly two pieces, each a run of ASCII digits. `int()` also reads a sign, white space
   * around the digits, `_` between them and non-ASCII digits; those texts give `None`
   * here, as does everything on which `int()` raises `ValueError`.
   */
  function ParseClock(t: string): (r: Option<(int, int)>)
    ensures r.Some? ==> r.value.0 >= 0 && r.value.1 >= 0
    ensures r.Some? ==> Count(t, ':') == 1
  {
    var pieces := Split(t, ':');
    if |pieces| == 2 && IsDigits(pieces[0]) && IsDigits(pieces[1]) then
      Some((DigitsValue(pieces[0]), DigitsValue(pieces[1])))
    else None
  }

  function DigitChar(d: int): char
    requires 0 <= d < 10
  {
    ('0' as int + d) as char
  }

  /** A time of day written "HH:MM", with two digits each. */
  function FormatClock(hour: int, minute: int): (t: string)
    requires 0 <= hour < 100 && 0 <= minute < 100
    ensures |t| == 5 && t[2] == ':'
  {
    [DigitChar(hour / 10), DigitChar(hour % 10), ':', DigitChar(minute / 10), DigitChar(minute % 10)]
  }

  lemma SplitWithout(s: string, sep: char)
    requires sep !in s
    ensures Split(s, sep) == [s]
  {
    assert Count(s, sep) == 0 by { CountAbsent(s, sep); }
    assert |Split(s, sep)| == 1;
    JoinSplit(s, sep);
  }

  lemma {:induction false} CountAbsent(s: string, c: char)
    requires c !in s
    ensures Count(s, c) == 0
    decreases |s|
  {
    if s != [] {
      assert c !in s[1..] by { assert forall i :: 0 <= i < |s[1..]| ==> s[1..][i] == s[i + 1]; }
      CountAbsent(s[1..], c);
    }
  }

  /** A string with one separator splits into the text before it and the text after it. */
  lemma {:induction false} SplitOnce(a: string, b: string, sep: char)
    requires sep !in a && sep !in b
    ensures Split(a + [sep] + b, sep) == [a, b]
    decreases |a|
  {
    if a == [] {
      assert a + [sep] + b == [sep] + b;
      assert ([sep] + b)[1..] == b;
      SplitWithout(b, sep);
    } else {
      assert (a + [sep] + b)[1..] == a[1..] + [sep] + b;
      assert sep !in a[1..] by { assert forall i :: 0 <= i < |a[1..]| ==> a[1..][i] == a[i + 1]; }
      SplitOnce(a[1..], b, sep);
      assert [a[0]] + a[1..] == a;
    }
  }

  lemma TwoDigits(d1: int, d2: int)
    requires 0 <= d1 < 10 && 0 <= d2 < 10
    ensures IsDigits([DigitChar(d1), DigitChar(d2)])
    ensures DigitsValue([DigitChar(d1), DigitChar(d2)]) == 10 * d1 + d2
  {
    var s := [DigitChar(d1), DigitChar(d2)];
    assert DigitValue(DigitChar(d1)) == d1 && DigitValue(DigitChar(d2)) == d2;
    assert s[..1] == [DigitChar(d1)] && s[..1][..0] == [];
    assert DigitsValue(s[..1]) == 10 * DigitsValue([]) + DigitValue(DigitChar(d1)) == d1;
    assert DigitsValue(s) == 10 * DigitsValue(s[..1]) + DigitValue(s[1]);
  }

  /** Reading back a time written "HH:MM" gives the hour and the minute. */
  lemma ParseFormatClock(hour: int, minute: int)
    requires 0 <= hour < 100 && 0 <= minute < 100
    ensures ParseClock(FormatClock(hour, minute)) == Some((hour, minute))
  {
    var hh := [DigitChar(hour / 10), DigitChar(hour % 10)];
    var mm := [DigitChar(minute / 10), DigitChar(minute % 10)];
    assert FormatClock(hour, minute) == hh + [':'] + mm;
    SplitOnce(hh, mm, ':');
    TwoDigits(hour / 10, hour % 10);
    TwoDigits(minute / 10, minute % 10);
  }

  /** The job table the medication rounds make: one job per time, the later one winning. */
  function JobsFor(times: seq<string>): map<string, Job>
    requires forall i :: 0 <= i < |times| ==> ParseClock(times[i]).Some?
  {
    if times == [] then map[]
    else
      var t := times[|times| - 1];
      JobsFor(times[..|times| - 1])[JobId(t) := Job(ParseClock(t).value.0, ParseClock(t).value.1)]
  }

  lemma MedicationTimesParse()
    ensures forall i :: 0 <= i < |MedicationTimes| ==> ParseClock(MedicationTimes[i]).Some?
    ensures ParseClock(MedicationTimes[0]) == Some((8, 0))
    ensures ParseClock(MedicationTimes[1]) == Some((14, 0))
    ensures ParseClock(MedicationTimes[2]) == Some((20, 0))
  {
    assert MedicationTimes[0] == FormatClock(8, 0);
    assert MedicationTimes[1] == FormatClock(14, 0);
    assert MedicationTimes[2] == FormatClock(20, 0);
    ParseFormatClock(8, 0);
    ParseFormatClock(14, 0);
    ParseFormatClock(20, 0);
    assert |MedicationTimes| == 3;
    forall i | 0 <= i < |MedicationTimes|
      ensures ParseClock(MedicationTimes[i]).Some?
    {
      assert i == 0 || i == 1 || i == 2;
    }
  }

  /** The medication rounds: exactly three jobs, at 08:00, 14:00 and 20:00 daily. */
  lemma MedicationJobs()
    ensures forall i :: 0 <= i < |MedicationTimes| ==> ParseClock(MedicationTimes[i]).Some?
    ensures JobsFor(MedicationTimes) ==
      map[JobId("08:00") := Job(8, 0), JobId("14:00") := Job(14, 0), JobId("20:00") := Job(20, 0)]
  {
    MedicationTimesParse();
    var ts := MedicationTimes;
    assert ts[..0] == [] && ts[..3] == ts;
    JobsForStep(ts, 0);
    JobsForStep(ts, 1);
    JobsForStep(ts, 2);
  }

  /** One more time adds (or replaces) exactly that time's job. */
  lemma JobsForStep(times: seq<string>, k: nat)
    requires k < |times|
    requires forall i :: 0 <= i < |times| ==> ParseClock(times[i]).Some?
    ensures JobsFor(times[..k + 1]) ==
      JobsFor(times[..k])[JobId(times[k]) := Job(ParseClock(times[k]).value.0, ParseClock(times[k]).value.1)]
  {
    assert times[..k + 1][..k] == times[..k];
  }

  /** Setting a key after merging is merging the table with that key set. */
  lemma MergeThenSet(jobs: map<string, Job>, added: map<string, Job>, id: string, job: Job)
    ensures (jobs + added)[id := job] == jobs + added[id := job]
  {
  }

  /** Registering the medication rounds again changes nothing: each id is replaced by an equal job. */
  lemma ReRegisterIdempotent(jobs: map<string, Job>, added: map<string, Job>)
    ensures (jobs + added) + added == jobs + added
  {
  }

  // ---------------------------------------------------------------- the reminder round

  /** `contact.get('phone')` once `emergency_contact or {}` has been read. */
  function ContactPhone(c: Contact): (phone: Option<string>)
    requires !c.NotADict?
    ensures phone.Some? <==> c.ContactFields? && "phone" in c.fields
  {
    match c
    case NoContact => None
    case ContactFields(fields) => if "phone" in fields then Some(fields["phone"]) else None
  }

  /** How many patients the round reaches before a contact that is not a dictionary raises. */
  function Reached(patients: seq<PatientRow>): (n: nat)
    ensures n <= |patients|
    ensures forall i :: 0 <= i < n ==> !patients[i].emergencyContact.NotADict?
    ensures n < |patients| ==> patients[n].emergencyContact.NotADict?
  {
    if patients == [] || patients[0].emergencyContact.NotADict? then 0
    else 1 + Reached(patients[1..])
  }

  datatype Recipient = Recipient(name: string, phone: string)

  /** The patients, of those given, whose contact has a truthy phone, in order. */
  function Recipients(patients: seq<PatientRow>): seq<Recipient>
    requires forall i :: 0 <= i < |patients| ==> !patients[i].emergencyContact.NotADict?
  {
    if patients == [] then []
    else
      var p := patients[|patients| - 1];
      Recipients(patients[..|patients| - 1])
      + (if Truthy(ContactPhone(p.emergencyContact))
         then [Recipient(p.firstName + " " + p.lastName, ContactPhone(p.emergencyContact).value)]
         else [])
  }

  /**
   * Every recipient is a patient with a truthy phone, named "first last", and recipients
   * keep the patients' order: one entry per such patient, none for the others.
   */
  lemma {:induction false} RecipientsFiltered(patients: seq<PatientRow>)
    requires forall i :: 0 <= i < |patients| ==> !patients[i].emergencyContact.NotADict?
    ensures |Recipients(patients)| <= |patients|
    ensures forall r :: r in Recipients(patients) ==> (r.phone != "" &&
      exists i :: 0 <= i < |patients| && r.name == patients[i].firstName + " " + patients[i].lastName
        && ContactPhone(patients[i].emergencyContact) == Some(r.phone))
    ensures (forall i :: 0 <= i < |patients| ==> !Truthy(ContactPhone(patients[i].emergencyContact))) ==>
      Recipients(patients) == []
  {
    if patients != [] {
      var init := patients[..|patients| - 1];
      RecipientsFiltered(init);
      forall r | r in Recipients(patients)
        ensures r.phone != "" &&
          exists i :: 0 <= i < |patients| && r.name == patients[i].firstName + " " + patients[i].lastName
            && ContactPhone(patients[i].emergencyContact) == Some(r.phone)
      {
        if r in Recipients(init) {
          var i :| 0 <= i < |init| && r.name == init[i].firstName + " " + init[i].lastName
            && ContactPhone(init[i].emergencyContact) == Some(r.phone);
          assert init[i] == patients[i];
        } else {
          assert patients[|patients| - 1] == patients[|patients| - 1];
        }
      }
    }
  }

  /** The SMS one medication reminder hands to the transport, when SMS is on. */
  function ReminderSms(settings: Settings, r: Recipient, time: string): Message {
    Sms(r.phone, settings.twilioPhoneNumber, MedicationSms(r.name, ReminderMedication, time))
  }

  function ReminderMessages(settings: Settings, recipients: seq<Recipient>, time: string): (msgs: seq<Message>)
    ensures |msgs| == |recipients|
    ensures forall i :: 0 <= i < |msgs| ==> msgs[i] == ReminderSms(settings, recipients[i], time)
  {
    if recipients == [] then []
    else ReminderMessages(settings, recipients[..|recipients| - 1], time) + [ReminderSms(settings, recipients[|recipients| - 1], time)]
  }

  /** The messages a round over `patients` hands to the transport: one SMS per recipient, when SMS is on. */
  function Sent(settings: Settings, smsOn: bool, patients: seq<PatientRow>, time: string): seq<Message>
    requires forall i :: 0 <= i < |patients| ==> !patients[i].emergencyContact.NotADict?
  {
    if smsOn then ReminderMessages(settings, Recipients(patients), time) else []
  }

  /** One more patient in the round adds exactly that patient's messages at the end. */
  lemma SentStep(settings: Settings, smsOn: bool, patients: seq<PatientRow>, i: nat, time: string)
    requires i < Reached(patients)
    ensures Sent(settings, smsOn, patients[..i + 1], time)
      == Sent(settings, smsOn, patients[..i], time) + Sent(settings, smsOn, [patients[i]], time)
  {
    assert patients[..i + 1] == patients[..i] + [patients[i]];
    SentAppend(settings, smsOn, patients[..i], patients[i], time);
  }

  lemma SentAppend(settings: Settings, smsOn: bool, xs: seq<PatientRow>, p: PatientRow, time: string)
    requires forall j :: 0 <= j < |xs| ==> !xs[j].emergencyContact.NotADict?
    requires !p.emergencyContact.NotADict?
    ensures Sent(settings, smsOn, xs + [p], time) == Sent(settings, smsOn, xs, time) + Sent(settings, smsOn, [p], time)
  {
    RecipientsAppend(xs, p);
    if smsOn {
      var extra := Recipients([p]);
      if extra == [] {
        assert Recipients(xs) + extra == Recipients(xs);
      } else {
        var r := extra[0];
        assert extra == [r];
        ReminderMessagesAppend(settings, Recipients(xs), r, time);
        assert ReminderMessages(settings, [r], time) == [ReminderSms(settings, r, time)] by {
          assert [r][..0] == [];
        }
      }
    }
  }

  lemma RecipientsAppend(xs: seq<PatientRow>, p: PatientRow)
    requires forall j :: 0 <= j < |xs| ==> !xs[j].emergencyContact.NotADict?
    requires !p.emergencyContact.NotADict?
    ensures Recipients(xs + [p]) == Recipients(xs) + Recipients([p])
  {
    assert (xs + [p])[..|xs|] == xs;
    assert [p][..0] == [];
  }

  /** A round over one patient hands over what one medication reminder without e-mail does. */
  lemma SentOne(settings: Settings, smsOn: bool, emailOn: bool, p: PatientRow, time: string)
    requires !p.emergencyContact.NotADict?
    ensures var name := p.firstName + " " + p.lastName;
      Sent(settings, smsOn, [p], time) ==
      Handoffs(settings, smsOn, emailOn, ContactPhone(p.emergencyContact), MedicationSms(name, ReminderMedication, time),
        None, MedicationSubject(ReminderMedication), MedicationBody(name, ReminderMedication, time),
        Some(MedicationHtml(name, ReminderMedication, time)))
  {
    var phone := ContactPhone(p.emergencyContact);
    assert [p][..0] == [];
    if Truthy(phone) {
      var r := Recipient(p.firstName + " " + p.lastName, phone.value);
      assert Recipients([p]) == [r];
      assert ReminderMessages(settings, [r], time) == [ReminderSms(settings, r, time)] by {
        assert [r][..0] == [];
      }
    } else {
      assert Recipients([p]) == [];
    }
  }

  lemma ReminderMessagesAppend(settings: Settings, rs: seq<Recipient>, r: Recipient, time: string)
    ensures ReminderMessages(settings, rs + [r], time) == ReminderMessages(settings, rs, time) + [ReminderSms(settings, r, time)]
  {
    assert (rs + [r])[..|rs|] == rs;
  }

  lemma MessagesAssoc(a: seq<Message>, b: seq<Message>, c: seq<Message>)
    ensures a + (b + c) == (a + b) + c
  {
  }

  class ReminderScheduler {
    /** Whether the background scheduler is running. */
    var running: bool
    /** The job store: trigger by job id. */
    var jobs: map<string, Job>
    /** Whether the handler holds an open database session. */
    var sessionOpen: bool
    const notifier: NotificationService

    /** `__init__`: a new scheduler, started at once, with no jobs. */
    constructor (notifier: NotificationService)
      ensures running && jobs == map[] && !sessionOpen
      ensures this.notifier == notifier
    {
      running := true;
      jobs := map[];
      sessionOpen := false;
      this.notifier := notifier;
    }

    /**
     * `schedule_medication_reminders`: one daily job per medication time, under the id
     * "medication_HH:MM"; a job already registered under that id is replaced.
     */
    method ScheduleMedicationReminders()
      modifies this
      ensures forall i :: 0 <= i < |MedicationTimes| ==> ParseClock(MedicationTimes[i]).Some?
      ensures jobs == old(jobs) + JobsFor(MedicationTimes)
      ensures running == old(running) && sessionOpen == old(sessionOpen)
    {
      MedicationTimesParse();
      AddDailyJobs(MedicationTimes);
    }

    /** The loop of `schedule_medication_reminders`: `add_job(..., replace_existing=True)` per time. */
    method AddDailyJobs(times: seq<string>)
      requires forall i :: 0 <= i < |times| ==> ParseClock(times[i]).Some?
      modifies this
      ensures jobs == old(jobs) + JobsFor(times)
      ensures running == old(running) && sessionOpen == old(sessionOpen)
    {
      for i := 0 to |times|
        invariant jobs == old(jobs) + JobsFor(times[..i])
        invariant running == old(running) && sessionOpen == old(sessionOpen)
      {
        var t := times[i];
        var parsed := ParseClock(t).value;
        var hour, minute := parsed.0, parsed.1;
        JobsForStep(times, i);
        MergeThenSet(old(jobs), JobsFor(times[..i]), JobId(t), Job(hour, minute));
        jobs := jobs[JobId(t) := Job(hour, minute)];
      }
      assert times[..|times|] == times;
    }

    /** `start_all_schedules` */
    method StartAllSchedules()
      modifies this
      ensures forall i :: 0 <= i < |MedicationTimes| ==> ParseClock(MedicationTimes[i]).Some?
      ensures jobs == old(jobs) + JobsFor(MedicationTimes)
      ensures running == old(running) && sessionOpen == old(sessionOpen)
    {
      ScheduleMedicationReminders();
    }

    /**
     * `stop`: shuts the scheduler down; shutting down one that is not running raises
     * (`raised`) and changes nothing. The job store is kept.
     */
    method Stop() returns (raised: bool)
      modifies this
      ensures raised <==> !old(running)
      ensures !running && jobs == old(jobs) && sessionOpen == old(sessionOpen)
    {
      if !running {
        return true;
      }
      running := false;
      return false;
    }

    /**
     * `send_medication_reminders`: for each patient in order, a medication reminder by SMS
     * to the phone of their emergency contact when it has a truthy one. One `try` guards
     * the whole round: a contact that is not a dictionary ends the round there (`aborted`),
     * and the exception is only logged. The database session is always closed.
     */
    method SendMedicationReminders(patients: seq<PatientRow>, time: string) returns (aborted: bool)
      requires !sessionOpen
      modifies this, notifier
      ensures !sessionOpen && running == old(running) && jobs == old(jobs)
      ensures aborted <==> Reached(patients) < |patients|
      ensures notifier.twilioEnabled == old(notifier.twilioEnabled) && notifier.emailEnabled == old(notifier.emailEnabled)
      ensures notifier.outbox == old(notifier.outbox)
        + Sent(notifier.settings, notifier.twilioEnabled, patients[..Reached(patients)], time)
    {
      sessionOpen := true;
      var n := Reached(patients);
      aborted := false;
      var i := 0;
      while i < |patients|
        invariant 0 <= i <= n
        invariant !aborted
        invariant notifier.twilioEnabled == old(notifier.twilioEnabled) && notifier.emailEnabled == old(notifier.emailEnabled)
        invariant notifier.outbox == old(notifier.outbox) + Sent(notifier.settings, notifier.twilioEnabled, patients[..i], time)
        invariant sessionOpen && running == old(running) && jobs == old(jobs)
      {
        var p := patients[i];
        if p.emergencyContact.NotADict? {
          aborted := true;
          break;
        }
        RemindAt(patients, i, time, old(notifier.outbox));
        i := i + 1;
      }
      assert i == n;
      sessionOpen := false;
    }

    /** Reminding patient `i` extends the round's messages so far by that patient's. */
    method RemindAt(patients: seq<PatientRow>, i: nat, time: string, ghost before: seq<Message>)
      requires i < Reached(patients)
      requires notifier.outbox == before + Sent(notifier.settings, notifier.twilioEnabled, patients[..i], time)
      modifies notifier
      ensures notifier.twilioEnabled == old(notifier.twilioEnabled) && notifier.emailEnabled == old(notifier.emailEnabled)
      ensures notifier.outbox == before + Sent(notifier.settings, notifier.twilioEnabled, patients[..i + 1], time)
    {
      RemindPatient(patients[i], time);
      SentStep(notifier.settings, notifier.twilioEnabled, patients, i, time);
      MessagesAssoc(before, Sent(notifier.settings, notifier.twilioEnabled, patients[..i], time),
        Sent(notifier.settings, notifier.twilioEnabled, [patients[i]], time));
    }

    /** One pass of the round's body: `send_medication_reminder` with the contact's phone and no e-mail. */
    method RemindPatient(p: PatientRow, time: string)
      requires !p.emergencyContact.NotADict?
      modifies notifier
      ensures notifier.twilioEnabled == old(notifier.twilioEnabled) && notifier.emailEnabled == old(notifier.emailEnabled)
      ensures notifier.outbox == old(notifier.outbox) + Sent(notifier.settings, notifier.twilioEnabled, [p], time)
    {
      var phone := ContactPhone(p.emergencyContact);
      var name := p.firstName + " " + p.lastName;
      SentOne(notifier.settings, notifier.twilioEnabled, notifier.emailEnabled, p, time);
      if Truthy(phone) {
        var results := notifier.SendMedicationReminder(name, ReminderMedication, phone, None, time);
      }
    }
  }
}
