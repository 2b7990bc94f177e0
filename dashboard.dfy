/**
 * The decision logic of the nurse dashboard: the colour of each vitals tile, the
 * critical-condition test, the checks on an escalation reason, a nurse note and the
 * admin password, and the audit log with its capped on-screen list.
 */
module Dashboard {
  import opened Options
  import PyStr
  import opened JsStr

  datatype Color = Red | Orange | Green

  /**
   * The vitals the dashboard shows: heart rate and temperature are numbers (`None` is
   * NaN, which every comparison answers false), blood pressure the text as typed, "120/80".
   */
  datatype Vitals = Vitals(hr: Option<real>, bp: string, temp: Option<real>)

  // ---------------------------------------------------------------- getVitalColor

  /** Red outside [redBelow, redAbove], else orange outside [orangeBelow, orangeAbove], else green. */
  function Band(x: Option<real>, redBelow: real, redAbove: real, orangeBelow: real, orangeAbove: real): Color {
    if x.Some? && (x.value > redAbove || x.value < redBelow) then Red
    else if x.Some? && (x.value > orangeAbove || x.value < orangeBelow) then Orange
    else Green
  }

  /**
   * With nested thresholds the three colours split the readings into a green middle
   * band, orange margins and red extremes; NaN is green.
   */
  lemma BandMeaning(x: Option<real>, redBelow: real, redAbove: real, orangeBelow: real, orangeAbove: real)
    requires redBelow <= orangeBelow <= orangeAbove <= redAbove
    ensures var c := Band(x, redBelow, redAbove, orangeBelow, orangeAbove);
      && (c == Green <==> x.None? || orangeBelow <= x.value <= orangeAbove)
      && (c == Red <==> x.Some? && (x.value < redBelow || redAbove < x.value))
      && (c == Orange <==> x.Some? && (redBelow <= x.value < orangeBelow || orangeAbove < x.value <= redAbove))
  {
  }

  /** `parseInt(bp.split('/')[0])`: the number before the first '/', or NaN. */
  function Systolic(bp: string): Option<int> {
    ParseInt(PyStr.Split(bp, '/')[0])
  }

  function AsNumber(n: Option<int>): Option<real> {
    if n.Some? then Some(n.value as real) else None
  }

  /** The heart-rate case of `getVitalColor`. */
  function HrColor(hr: Option<real>): (c: Color)
    ensures c == Green <==> hr.None? || 60.0 <= hr.value <= 100.0
    ensures c == Red <==> hr.Some? && (hr.value < 50.0 || 110.0 < hr.value)
  {
    BandMeaning(hr, 50.0, 110.0, 60.0, 100.0);
    Band(hr, 50.0, 110.0, 60.0, 100.0)
  }

  /** The blood-pressure case of `getVitalColor`: the bands apply to the systolic number. */
  function BpColor(bp: string): (c: Color)
    ensures var s := Systolic(bp);
      && (c == Green <==> s.None? || 100 <= s.value <= 140)
      && (c == Red <==> s.Some? && (s.value < 90 || 180 < s.value))
  {
    BandMeaning(AsNumber(Systolic(bp)), 90.0, 180.0, 100.0, 140.0);
    Band(AsNumber(Systolic(bp)), 90.0, 180.0, 100.0, 140.0)
  }

  /** The temperature case of `getVitalColor`. */
  function TempColor(temp: Option<real>): (c: Color)
    ensures c == Green <==> temp.None? || 97.0 <= temp.value <= 101.0
    ensures c == Red <==> temp.Some? && (temp.value < 95.0 || 103.0 < temp.value)
  {
    BandMeaning(temp, 95.0, 103.0, 97.0, 101.0);
    Band(temp, 95.0, 103.0, 97.0, 101.0)
  }

  /** `getVitalColor(key, vitals[key])`: a key other than the three tiles' is green. */
  function VitalColor(key: string, v: Vitals): (c: Color)
    ensures key != "hr" && key != "bp" && key != "temp" ==> c == Green
  {
    match key
    case "hr" => HrColor(v.hr)
    case "bp" => BpColor(v.bp)
    case "temp" => TempColor(v.temp)
    case _ => Green
  }

  /**
   * The blood-pressure tile reads the digits before the slash: for "SYS/..." with a
   * decimal SYS, the colour is that of the number SYS.
   */
  lemma BloodPressureReadsSystolic(sys: string, rest: string, bp: string)
    requires sys != [] && AllDigits(sys, 10)
    requires bp == sys + "/" + rest
    ensures Systolic(bp) == Some(ValueOf(sys, 10) as int)
  {
    assert '/' !in sys;
    PyStr.SplitHead(sys, '/', rest);
    ParseIntDecimal(sys, "");
    assert sys + "" == sys;
  }

  // ---------------------------------------------------------------- isCriticalCondition

  /** The blood-pressure part of the critical test: a text prefix, not a number. */
  predicate BpCritical(bp: string) {
    PyStr.StartsWith(bp, "90") || PyStr.StartsWith(bp, "80") || PyStr.StartsWith(bp, "70")
  }

  /** The prefix test looks at the first two characters only: "90", "80" or "70". */
  lemma BpCriticalDigits(bp: string)
    ensures BpCritical(bp) <==> |bp| >= 2 && (bp[0] == '9' || bp[0] == '8' || bp[0] == '7') && bp[1] == '0'
  {
    if |bp| >= 2 {
      var two := bp[..2];
      assert two == [bp[0], bp[1]];
      assert "90" == ['9', '0'] && "80" == ['8', '0'] && "70" == ['7', '0'];
    }
  }

  /** `isCriticalCondition(vitals)` */
  predicate IsCritical(v: Vitals) {
    || (v.hr.Some? && (v.hr.value > 110.0 || v.hr.value < 50.0))
    || BpCritical(v.bp)
    || (v.temp.Some? && (v.temp.value > 103.0 || v.temp.value < 95.0))
  }

  /**
   * For heart rate and temperature the critical test is exactly a red tile; for blood
   * pressure it is the prefix test.
   */
  lemma CriticalMeansRed(v: Vitals)
    ensures IsCritical(v) <==> HrColor(v.hr) == Red || BpCritical(v.bp) || TempColor(v.temp) == Red
  {
  }

  /** The value of a two-digit decimal numeral. */
  lemma TwoDigits(a: char, b: char)
    requires '0' <= a <= '9' && '0' <= b <= '9'
    ensures AllDigits([a, b], 10)
    ensures ValueOf([a, b], 10) == (a as int - '0' as int) * 10 + (b as int - '0' as int)
  {
    var d := [a, b];
    var head := d[..1];
    assert head == [a] && head[..0] == [];
    assert ValueOf(head, 10) == a as int - '0' as int;
    assert d[..|d| - 1] == head;
  }

  /** The systolic value of a reading "AB/..." with decimal digits A and B. */
  lemma TwoDigitSystolic(bp: string, a: char, b: char, rest: string)
    requires '0' <= a <= '9' && '0' <= b <= '9' && bp == [a, b, '/'] + rest
    ensures Systolic(bp) == Some((a as int - '0' as int) * 10 + (b as int - '0' as int))
  {
    var sys := [a, b];
    TwoDigits(a, b);
    var n := ValueOf(sys, 10);
    assert n == (a as int - '0' as int) * 10 + (b as int - '0' as int);
    assert bp == sys + "/" + rest;
    BloodPressureReadsSystolic(sys, rest, bp);
    assert Systolic(bp) == Some(n as int);
  }

  /** The colour of the blood-pressure tile for a systolic value `s`. */
  lemma BpTile(bp: string, s: int)
    requires Systolic(bp) == Some(s)
    ensures BpColor(bp) == (if s < 90 || 180 < s then Red else if s < 100 || 140 < s then Orange else Green)
  {
  }

  /**
   * The blood-pressure prefix test and the blood-pressure tile disagree: "85/60" is red
   * but not critical.
   */
  lemma RedButNotCritical(bp: string)
    requires bp == "85/60"
    ensures BpColor(bp) == Red && !BpCritical(bp)
  {
    assert bp == ['8', '5', '/'] + "60";
    TwoDigitSystolic(bp, '8', '5', "60");
    BpTile(bp, 85);
    BpCriticalDigits(bp);
  }

  /** ... and "90/60" is critical but only orange. */
  lemma CriticalButOrange(bp: string)
    requires bp == "90/60"
    ensures BpColor(bp) == Orange && BpCritical(bp)
  {
    assert bp == ['9', '0', '/'] + "60";
    TwoDigitSystolic(bp, '9', '0', "60");
    BpTile(bp, 90);
    BpCriticalDigits(bp);
  }

  /** A reading "80/..." or "70/..." is both red and critical. */
  lemma LowReadingsAgree(first: char, rest: string)
    requires first == '8' || first == '7'
    ensures var bp := [first, '0', '/'] + rest;
      BpColor(bp) == Red && BpCritical(bp)
  {
    LowReadingRed(first, rest);
    LowReadingCritical(first, rest);
  }

  lemma LowReadingRed(first: char, rest: string)
    requires first == '8' || first == '7'
    ensures BpColor([first, '0', '/'] + rest) == Red
  {
    var bp := [first, '0', '/'] + rest;
    var sys := (first as int - '0' as int) * 10;
    TwoDigitSystolic(bp, first, '0', rest);
    assert Systolic(bp) == Some(sys);
    BpTile(bp, sys);
  }

  lemma LowReadingCritical(first: char, rest: string)
    requires first == '8' || first == '7'
    ensures BpCritical([first, '0', '/'] + rest)
  {
    var bp := [first, '0', '/'] + rest;
    BpCriticalDigits(bp);
    assert bp[0] == first && bp[1] == '0';
  }

  // ---------------------------------------------------------------- input checks

  const MinReasonLength := 5
  const MinNoteLength := 10
  const PreviewLength := 50
  const AdminPassword := "admin123"

  datatype EscalationOutcome = Cancelled | Rejected | Escalated(reason: string)

  /**
   * `handleEscalation` on the prompt's answer (`None` when the prompt was cancelled): a
   * reason whose trimmed length is at least 5 escalates, quoting the reason untrimmed.
   */
  function Escalation(reason: Option<string>): (o: EscalationOutcome)
    ensures o.Escalated? <==> reason.Some? && |Trim(reason.value)| >= MinReasonLength
    ensures o.Escalated? ==> o.reason == reason.value
    ensures o.Cancelled? <==> reason.None?
  {
    if reason.Some? && reason.value != "" && |Trim(reason.value)| >= MinReasonLength then Escalated(reason.value)
    else if reason.Some? then Rejected
    else Cancelled
  }

  /** Padding does not make a reason long enough: "   ab   " is rejected. */
  lemma EscalationIgnoresPadding(before: string, reason: string, after: string)
    requires AllWhiteSpace(before) && AllWhiteSpace(after)
    requires reason != [] && !IsWhiteSpace(reason[0]) && !IsWhiteSpace(reason[|reason| - 1])
    ensures Escalation(Some(before + reason + after)).Escalated? <==> |reason| >= MinReasonLength
  {
    TrimPadded(before, reason, after);
  }

  /** The note text shown in the log: the first 50 characters, with "..." when there were more. */
  function Preview(t: string): (p: string)
    ensures |p| <= PreviewLength + 3
    ensures |t| <= PreviewLength ==> p == t
    ensures |t| > PreviewLength ==> |p| == PreviewLength + 3 && p[..PreviewLength] == t[..PreviewLength]
  {
    t[..if |t| < PreviewLength then |t| else PreviewLength] + (if |t| > PreviewLength then "..." else "")
  }

  datatype NoteOutcome = NoNote | TooShort | Documented(preview: string)

  /** `documentNote` on the textarea's content (`None` when the page has no textarea). */
  function NoteCheck(note: Option<string>): NoteOutcome {
    var t := if note.Some? then Trim(note.value) else "";
    if t == "" then NoNote
    else if |t| < MinNoteLength then TooShort
    else Documented(Preview(t))
  }

  /**
   * A note is documented exactly when its trimmed text has at least 10 characters, and
   * the preview then begins with that trimmed text.
   */
  lemma NoteCheckMeaning(note: Option<string>)
    ensures NoteCheck(note).Documented? <==> note.Some? && |Trim(note.value)| >= MinNoteLength
    ensures NoteCheck(note).NoNote? <==> note.None? || Trim(note.value) == ""
    ensures NoteCheck(note).Documented? ==>
      var t := Trim(note.value);
      var k := if |t| < PreviewLength then |t| else PreviewLength;
      NoteCheck(note).preview[..k] == t[..k]
  {
    if note.Some? && |Trim(note.value)| >= MinNoteLength {
      var t := Trim(note.value);
      var p := Preview(t);
      if |t| <= PreviewLength {
        assert p == t;
      }
    }
  }

  /** `handleAdminLogin`'s check: the trimmed input equals the configured password. */
  predicate AdminAccepted(entered: string) {
    Trim(entered) == AdminPassword
  }

  /** The password is accepted with any white space around it, and only then. */
  lemma AdminAcceptsPadded(before: string, entered: string, after: string)
    requires AllWhiteSpace(before) && AllWhiteSpace(after)
    requires entered != [] && !IsWhiteSpace(entered[0]) && !IsWhiteSpace(entered[|entered| - 1])
    ensures AdminAccepted(before + entered + after) <==> entered == AdminPassword
  {
    TrimPadded(before, entered, after);
  }

  // ---------------------------------------------------------------- the audit log

  const LogMaxEntries := 10

  /** `${timeStr}: ${message}` */
  function LogLine(timeStr: string, message: string): string {
    timeStr + ": " + message
  }

  /** The on-screen list after a prepend: the oldest paragraph goes once there are more than 10. */
  function Capped(shown: seq<string>): seq<string> {
    if |shown| > LogMaxEntries then shown[..|shown| - 1] else shown
  }

  /** The on-screen list after `line` is added: unchanged when the page has no log container. */
  function ShownAfter(shown: Option<seq<string>>, line: string): Option<seq<string>> {
    if shown.None? then None else Some(Capped([line] + shown.value))
  }

  function Newest(log: seq<string>): seq<string> {
    log[..if |log| < LogMaxEntries then |log| else LogMaxEntries]
  }

  /**
   * Prepending then dropping the oldest keeps the list equal to the newest ten entries
   * of the log: the on-screen list never holds more than ten.
   */
  lemma CappedKeepsNewest(line: string, log: seq<string>)
    ensures Capped([line] + Newest(log)) == Newest([line] + log)
    ensures |Newest([line] + log)| <= LogMaxEntries
  {
    if |log| >= LogMaxEntries {
      assert ([line] + Newest(log))[..LogMaxEntries] == ([line] + log)[..LogMaxEntries];
    } else {
      assert [line] + Newest(log) == [line] + log;
    }
  }

  const EscalationPrefix := "\U{26A0}\U{FE0F} ESCALATION: Senior Nurse alerted. Reason: "
  const NotePrefix := "\U{1F4DD} Note Documented: \""
  const AdminAccessed := "\U{2705} Admin panel accessed"

  class Page {
    /** `AppState.auditLog`, newest first and unbounded. */
    var auditLog: seq<string>
    /** The paragraphs of the log container, newest first; `None` when the page has none. */
    var logShown: Option<seq<string>>
    /** The nurse-note textarea's value, when the page has one. */
    var noteField: Option<string>
    /** The admin-password input's value, when the page has one. */
    var passwordField: Option<string>
    /** Whether the registration form is shown in place of the password screen. */
    var adminFormShown: bool

    /** The on-screen list mirrors the newest ten entries of the log. */
    predicate Valid()
      reads this
    {
      logShown.Some? ==> logShown.value == Newest(auditLog)
    }

    constructor (hasLogContainer: bool, noteField: Option<string>, passwordField: Option<string>)
      ensures Valid()
      ensures auditLog == [] && logShown == (if hasLogContainer then Some([]) else None)
      ensures this.noteField == noteField && this.passwordField == passwordField && !adminFormShown
    {
      auditLog := [];
      logShown := if hasLogContainer then Some([]) else None;
      this.noteField := noteField;
      this.passwordField := passwordField;
      adminFormShown := false;
    }

    /** `addToLog`: the line goes first in the log and first on screen, and the screen keeps ten. */
    method AddToLog(message: string, timeStr: string)
      requires Valid()
      modifies this
      ensures Valid()
      ensures auditLog == [LogLine(timeStr, message)] + old(auditLog)
      ensures logShown == ShownAfter(old(logShown), LogLine(timeStr, message))
      ensures logShown.Some? ==> |logShown.value| <= LogMaxEntries
      ensures noteField == old(noteField) && passwordField == old(passwordField) && adminFormShown == old(adminFormShown)
    {
      var line := LogLine(timeStr, message);
      CappedKeepsNewest(line, auditLog);
      auditLog := [line] + auditLog;
      if logShown.Some? {
        logShown := Some(Capped([line] + logShown.value));
      }
    }

    /** `handleEscalation`: an accepted reason is logged as typed; nothing else changes. */
    method HandleEscalation(reason: Option<string>, timeStr: string) returns (o: EscalationOutcome)
      requires Valid()
      modifies this
      ensures Valid()
      ensures o == Escalation(reason)
      ensures auditLog == if o.Escalated? then [LogLine(timeStr, EscalationPrefix + o.reason)] + old(auditLog) else old(auditLog)
      ensures logShown == if o.Escalated? then ShownAfter(old(logShown), LogLine(timeStr, EscalationPrefix + o.reason)) else old(logShown)
      ensures noteField == old(noteField) && passwordField == old(passwordField) && adminFormShown == old(adminFormShown)
    {
      o := Escalation(reason);
      if o.Escalated? {
        AddToLog(EscalationPrefix + o.reason, timeStr);
      }
    }

    /** `documentNote`: a documented note is logged by its preview and the textarea is cleared. */
    method DocumentNote(timeStr: string) returns (o: NoteOutcome)
      requires Valid()
      modifies this
      ensures Valid()
      ensures o == NoteCheck(old(noteField))
      ensures auditLog == if o.Documented? then [LogLine(timeStr, NotePrefix + o.preview + "\"")] + old(auditLog) else old(auditLog)
      ensures logShown == if o.Documented? then ShownAfter(old(logShown), LogLine(timeStr, NotePrefix + o.preview + "\"")) else old(logShown)
      ensures noteField == if o.Documented? then Some("") else old(noteField)
      ensures passwordField == old(passwordField) && adminFormShown == old(adminFormShown)
    {
      o := NoteCheck(noteField);
      if o.Documented? {
        AddToLog(NotePrefix + o.preview + "\"", timeStr);
        noteField := Some("");
      }
    }

    /**
     * `handleAdminLogin`: without a password input nothing happens; the right password
     * is logged and shows the form, a wrong one clears the input.
     */
    method HandleAdminLogin(timeStr: string) returns (accepted: bool)
      requires Valid()
      modifies this
      ensures Valid()
      ensures accepted <==> old(passwordField).Some? && AdminAccepted(old(passwordField).value)
      ensures auditLog == if accepted then [LogLine(timeStr, AdminAccessed)] + old(auditLog) else old(auditLog)
      ensures logShown == if accepted then ShownAfter(old(logShown), LogLine(timeStr, AdminAccessed)) else old(logShown)
      ensures adminFormShown == (accepted || old(adminFormShown))
      ensures passwordField == if old(passwordField).Some? && !accepted then Some("") else old(passwordField)
      ensures noteField == old(noteField)
    {
      accepted := passwordField.Some? && AdminAccepted(passwordField.value);
      if accepted {
        AddToLog(AdminAccessed, timeStr);
        adminFormShown := true;
      } else if passwordField.Some? {
        ClearPassword();
      }
    }

    /** A rejected password empties the input; nothing else changes. */
    method ClearPassword()
      requires Valid()
      modifies this
      ensures Valid()
      ensures passwordField == Some("")
      ensures auditLog == old(auditLog) && logShown == old(logShown) && noteField == old(noteField)
      ensures adminFormShown == old(adminFormShown)
    {
      passwordField := Some("");
    }
  }
}
