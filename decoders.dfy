/**
 * The line-oriented decoders of the agent's replies. A reply is stripped and split on
 * line feeds; each line that starts with a field marker (`LEVEL:`, `REASON:`, ...)
 * sets that field, and each line that starts with an enumeration prefix (`STEP`,
 * `REMINDER`, `DIET`, `ACTIVITY`) appends one element. Every decoder is specified as
 * a fold over the lines and implemented by the loop the agent runs.
 */
module Decoders {
  import opened Options
  import opened PyStr

  datatype VitalsAnalysis = VitalsAnalysis(level: string, reason: string, action: string)
  datatype DoctorRecommendation = DoctorRecommendation(specialist: string, reason: string)
  datatype WoundAssessment = WoundAssessment(severity: string, careType: string, steps: seq<string>)

  const LevelMarker := "LEVEL:"
  const ReasonMarker := "REASON:"
  const ActionMarker := "ACTION:"
  const SpecialistMarker := "SPECIALIST:"
  const SeverityMarker := "SEVERITY:"
  const CareMarker := "CARE:"
  const StepsMarker := "STEPS:"

  const StepPrefix := "STEP"
  const ReminderPrefix := "REMINDER"
  const DietPrefix := "DIET"
  const ActivityPrefix := "ACTIVITY"

  /** The records a decoder starts from before it reads any line. */
  const DefaultVitals := VitalsAnalysis("UNKNOWN", "", "")
  const DefaultDoctor := DoctorRecommendation("General Physician", "")
  const DefaultWound := WoundAssessment("MODERATE", "dressing", [])

  /** `text.strip().split('\n')` */
  function ReplyLines(text: string): seq<string> {
    Split(Strip(text), '\n')
  }

  /** `line.replace(marker, '').strip()`: every occurrence of the marker removed, then trimmed. */
  function FieldValue(line: string, marker: string): string
    requires marker != []
  {
    Strip(RemoveAll(line, marker))
  }

  /** A line that starts with the marker has the marker removed from its head. */
  lemma FieldValueOfMarked(line: string, marker: string)
    requires marker != [] && StartsWith(line, marker)
    ensures FieldValue(line, marker) == Strip(RemoveAll(line[|marker|..], marker))
  {
  }

  /** Two markers that differ at position `i` never both start the same line. */
  lemma MarkersExclusive(line: string, p: string, q: string, i: nat)
    requires i < |p| && i < |q| && p[i] != q[i]
    ensures !(StartsWith(line, p) && StartsWith(line, q))
  {
  }

  /** The last line that starts with `marker`, if there is one. */
  function LastMarked(lines: seq<string>, marker: string): Option<string>
  {
    if lines == [] then None
    else if StartsWith(lines[|lines| - 1], marker) then Some(lines[|lines| - 1])
    else LastMarked(lines[..|lines| - 1], marker)
  }

  /** A single-valued field: the value on the last line carrying its marker, or its default. */
  function FieldOr(lines: seq<string>, marker: string, default: string): string
    requires marker != []
  {
    match LastMarked(lines, marker)
    case None => default
    case Some(line) => FieldValue(line, marker)
  }

  /** With no line carrying the marker there is no last marked line. */
  lemma {:induction false} LastMarkedAbsent(lines: seq<string>, marker: string)
    requires forall i :: 0 <= i < |lines| ==> !StartsWith(lines[i], marker)
    ensures LastMarked(lines, marker) == None
  {
    if lines != [] {
      LastMarkedAbsent(lines[..|lines| - 1], marker);
    }
  }

  /** A line that carries no marker of its decoder. */
  predicate Unmarked(line: string, markers: seq<string>) {
    forall m :: m in markers ==> !StartsWith(line, m)
  }

  // ---------------------------------------------------------------- vitals

  /** One iteration of the vitals decoder's `if/elif` chain. */
  function VitalsStep(acc: VitalsAnalysis, line: string): VitalsAnalysis {
    if StartsWith(line, LevelMarker) then acc.(level := FieldValue(line, LevelMarker))
    else if StartsWith(line, ReasonMarker) then acc.(reason := FieldValue(line, ReasonMarker))
    else if StartsWith(line, ActionMarker) then acc.(action := FieldValue(line, ActionMarker))
    else acc
  }

  /** The vitals decoder as a fold over the lines, from the default record. */
  function DecodeVitals(lines: seq<string>): VitalsAnalysis {
    if lines == [] then DefaultVitals
    else VitalsStep(DecodeVitals(lines[..|lines| - 1]), lines[|lines| - 1])
  }

  lemma DecodeVitalsSnoc(lines: seq<string>, i: nat)
    requires i < |lines|
    ensures DecodeVitals(lines[..i + 1]) == VitalsStep(DecodeVitals(lines[..i]), lines[i])
  {
    assert lines[..i + 1][..i] == lines[..i];
  }

  /** `_parse_vitals_response`: the loop that overwrites the result record line by line. */
  method ParseVitalsResponse(text: string) returns (result: VitalsAnalysis)
    ensures result == DecodeVitals(ReplyLines(text))
  {
    var lines := ReplyLines(text);
    result := DefaultVitals;
    for i := 0 to |lines|
      invariant result == DecodeVitals(lines[..i])
    {
      var line := lines[i];
      ghost var prev := result;
      if StartsWith(line, LevelMarker) {
        result := result.(level := FieldValue(line, LevelMarker));
      } else if StartsWith(line, ReasonMarker) {
        result := result.(reason := FieldValue(line, ReasonMarker));
      } else if StartsWith(line, ActionMarker) {
        result := result.(action := FieldValue(line, ActionMarker));
      }
      assert result == VitalsStep(prev, line);
      DecodeVitalsSnoc(lines, i);
    }
    assert lines[..|lines|] == lines;
  }

  /** Each vitals field is the value of the last line carrying its marker, or its default. */
  lemma {:induction false} DecodeVitalsLastWins(lines: seq<string>)
    ensures DecodeVitals(lines) == VitalsAnalysis(
      FieldOr(lines, LevelMarker, "UNKNOWN"),
      FieldOr(lines, ReasonMarker, ""),
      FieldOr(lines, ActionMarker, ""))
  {
    if lines != [] {
      var line := lines[|lines| - 1];
      DecodeVitalsLastWins(lines[..|lines| - 1]);
      MarkersExclusive(line, LevelMarker, ReasonMarker, 0);
      MarkersExclusive(line, LevelMarker, ActionMarker, 0);
      MarkersExclusive(line, ReasonMarker, ActionMarker, 0);
    }
  }

  /** A reply without marker lines decodes to exactly the default record. */
  lemma DecodeVitalsUnmarked(lines: seq<string>)
    requires forall i :: 0 <= i < |lines| ==> Unmarked(lines[i], [LevelMarker, ReasonMarker, ActionMarker])
    ensures DecodeVitals(lines) == DefaultVitals
  {
    DecodeVitalsLastWins(lines);
    LastMarkedAbsent(lines, LevelMarker);
    LastMarkedAbsent(lines, ReasonMarker);
    LastMarkedAbsent(lines, ActionMarker);
  }

  // ---------------------------------------------------------------- doctor

  /** One iteration of the doctor decoder's `if/elif` chain. */
  function DoctorStep(acc: DoctorRecommendation, line: string): DoctorRecommendation {
    if StartsWith(line, SpecialistMarker) then acc.(specialist := FieldValue(line, SpecialistMarker))
    else if StartsWith(line, ReasonMarker) then acc.(reason := FieldValue(line, ReasonMarker))
    else acc
  }

  /** The doctor decoder as a fold over the lines, from the default record. */
  function DecodeDoctor(lines: seq<string>): DoctorRecommendation {
    if lines == [] then DefaultDoctor
    else DoctorStep(DecodeDoctor(lines[..|lines| - 1]), lines[|lines| - 1])
  }

  lemma DecodeDoctorSnoc(lines: seq<string>, i: nat)
    requires i < |lines|
    ensures DecodeDoctor(lines[..i + 1]) == DoctorStep(DecodeDoctor(lines[..i]), lines[i])
  {
    assert lines[..i + 1][..i] == lines[..i];
  }

  /** `_parse_doctor_response` */
  method ParseDoctorResponse(text: string) returns (result: DoctorRecommendation)
    ensures result == DecodeDoctor(ReplyLines(text))
  {
    var lines := ReplyLines(text);
    result := DefaultDoctor;
    for i := 0 to |lines|
      invariant result == DecodeDoctor(lines[..i])
    {
      var line := lines[i];
      ghost var prev := result;
      if StartsWith(line, SpecialistMarker) {
        result := result.(specialist := FieldValue(line, SpecialistMarker));
      } else if StartsWith(line, ReasonMarker) {
        result := result.(reason := FieldValue(line, ReasonMarker));
      }
      assert result == DoctorStep(prev, line);
      DecodeDoctorSnoc(lines, i);
    }
    assert lines[..|lines|] == lines;
  }

  /** Each doctor field is the value of the last line carrying its marker, or its default. */
  lemma {:induction false} DecodeDoctorLastWins(lines: seq<string>)
    ensures DecodeDoctor(lines) == DoctorRecommendation(
      FieldOr(lines, SpecialistMarker, "General Physician"),
      FieldOr(lines, ReasonMarker, ""))
  {
    if lines != [] {
      DecodeDoctorLastWins(lines[..|lines| - 1]);
      MarkersExclusive(lines[|lines| - 1], SpecialistMarker, ReasonMarker, 0);
    }
  }

  /** A reply without marker lines decodes to exactly the default record. */
  lemma DecodeDoctorUnmarked(lines: seq<string>)
    requires forall i :: 0 <= i < |lines| ==> Unmarked(lines[i], [SpecialistMarker, ReasonMarker])
    ensures DecodeDoctor(lines) == DefaultDoctor
  {
    DecodeDoctorLastWins(lines);
    LastMarkedAbsent(lines, SpecialistMarker);
    LastMarkedAbsent(lines, ReasonMarker);
  }

  // ---------------------------------------------------------------- wound

  /** `[s.strip() for s in pieces]` */
  function StripEach(pieces: seq<string>): seq<string> {
    seq(|pieces|, k requires 0 <= k < |pieces| => Strip(pieces[k]))
  }

  /** The care steps on a `STEPS:` line: its value split on ';', each piece trimmed. */
  function StepsOf(line: string): seq<string> {
    StripEach(Split(FieldValue(line, StepsMarker), ';'))
  }

  /** A `STEPS:` line gives one step more than its value has semicolons, each one trimmed. */
  lemma StepsOfShape(line: string)
    ensures |StepsOf(line)| == Count(FieldValue(line, StepsMarker), ';') + 1
    ensures forall k :: 0 <= k < |StepsOf(line)| ==> ';' !in StepsOf(line)[k]
  {
    var pieces := Split(FieldValue(line, StepsMarker), ';');
    forall k | 0 <= k < |pieces| ensures ';' !in Strip(pieces[k]) {
      var s := pieces[k];
      var l := LStrip(s);
      assert l == s[|s| - |l|..];
      assert RStrip(l) == l[..|RStrip(l)|];
    }
  }

  /** One iteration of the wound decoder's `if/elif` chain. */
  function WoundStep(acc: WoundAssessment, line: string): WoundAssessment {
    if StartsWith(line, SeverityMarker) then acc.(severity := FieldValue(line, SeverityMarker))
    else if StartsWith(line, CareMarker) then acc.(careType := Lower(FieldValue(line, CareMarker)))
    else if StartsWith(line, StepsMarker) then acc.(steps := StepsOf(line))
    else acc
  }

  /** The wound decoder as a fold over the lines, from the default record. */
  function DecodeWound(lines: seq<string>): WoundAssessment {
    if lines == [] then DefaultWound
    else WoundStep(DecodeWound(lines[..|lines| - 1]), lines[|lines| - 1])
  }

  lemma DecodeWoundSnoc(lines: seq<string>, i: nat)
    requires i < |lines|
    ensures DecodeWound(lines[..i + 1]) == WoundStep(DecodeWound(lines[..i]), lines[i])
  {
    assert lines[..i + 1][..i] == lines[..i];
  }

  /** `_parse_wound_response` */
  method ParseWoundResponse(text: string) returns (result: WoundAssessment)
    ensures result == DecodeWound(ReplyLines(text))
  {
    var lines := ReplyLines(text);
    result := DefaultWound;
    for i := 0 to |lines|
      invariant result == DecodeWound(lines[..i])
    {
      var line := lines[i];
      ghost var prev := result;
      if StartsWith(line, SeverityMarker) {
        result := result.(severity := FieldValue(line, SeverityMarker));
      } else if StartsWith(line, CareMarker) {
        result := result.(careType := Lower(FieldValue(line, CareMarker)));
      } else if StartsWith(line, StepsMarker) {
        var stepsText := FieldValue(line, StepsMarker);
        result := result.(steps := StripEach(Split(stepsText, ';')));
      }
      assert result == WoundStep(prev, line);
      DecodeWoundSnoc(lines, i);
    }
    assert lines[..|lines|] == lines;
  }

  /**
   * Severity is the last `SEVERITY:` value, the care type the last `CARE:` value in lower
   * case, and the steps those of the last `STEPS:` line; each falls back to its default.
   */
  lemma {:induction false} DecodeWoundLastWins(lines: seq<string>)
    ensures DecodeWound(lines).severity == FieldOr(lines, SeverityMarker, "MODERATE")
    ensures DecodeWound(lines).careType ==
      (match LastMarked(lines, CareMarker)
       case None => "dressing"
       case Some(line) => Lower(FieldValue(line, CareMarker)))
    ensures DecodeWound(lines).steps ==
      (match LastMarked(lines, StepsMarker)
       case None => []
       case Some(line) => StepsOf(line))
  {
    if lines != [] {
      var line := lines[|lines| - 1];
      DecodeWoundLastWins(lines[..|lines| - 1]);
      MarkersExclusive(line, SeverityMarker, CareMarker, 0);
      MarkersExclusive(line, SeverityMarker, StepsMarker, 1);
      MarkersExclusive(line, CareMarker, StepsMarker, 0);
    }
  }

  /** A reply without marker lines decodes to exactly the default record. */
  lemma DecodeWoundUnmarked(lines: seq<string>)
    requires forall i :: 0 <= i < |lines| ==> Unmarked(lines[i], [SeverityMarker, CareMarker, StepsMarker])
    ensures DecodeWound(lines) == DefaultWound
  {
    DecodeWoundLastWins(lines);
    LastMarkedAbsent(lines, SeverityMarker);
    LastMarkedAbsent(lines, CareMarker);
    LastMarkedAbsent(lines, StepsMarker);
  }

  // ---------------------------------------------------------------- enumerations

  /** `line.split(':', 1)[1].strip() if ':' in line else line` */
  function ItemText(line: string): string {
    if ':' in line then Strip(AfterFirst(line, ':')) else line
  }

  /** The enumerated decoder as a fold: each line starting with `prefix` appends its item. */
  function Items(lines: seq<string>, prefix: string): seq<string> {
    if lines == [] then []
    else
      var last := lines[|lines| - 1];
      Items(lines[..|lines| - 1], prefix) + (if StartsWith(last, prefix) then [ItemText(last)] else [])
  }

  /** The number of lines that start with `prefix`, counted from the front. */
  function PrefixedCount(lines: seq<string>, prefix: string): nat {
    if lines == [] then 0
    else (if StartsWith(lines[0], prefix) then 1 else 0) + PrefixedCount(lines[1..], prefix)
  }

  /** The loop in `guide_iv_procedure`, `track_patient`, `generate_diet_plan` and `create_exercise_plan`. */
  method CollectItems(text: string, prefix: string) returns (items: seq<string>)
    ensures items == Items(ReplyLines(text), prefix)
  {
    var lines := ReplyLines(text);
    items := [];
    for i := 0 to |lines|
      invariant items == Items(lines[..i], prefix)
    {
      var line := lines[i];
      assert lines[..i + 1][..i] == lines[..i];
      assert Items(lines[..i + 1], prefix) ==
        Items(lines[..i], prefix) + (if StartsWith(line, prefix) then [ItemText(line)] else []);
      if StartsWith(line, prefix) {
        var itemText := line;
        if ':' in line {
          itemText := Strip(AfterFirst(line, ':'));
        }
        items := items + [itemText];
      }
    }
    assert lines[..|lines|] == lines;
  }

  /** Items keep text order: the items of two blocks of lines are those of the first, then the second. */
  lemma {:induction false} ItemsConcat(a: seq<string>, b: seq<string>, prefix: string)
    ensures Items(a + b, prefix) == Items(a, prefix) + Items(b, prefix)
    decreases |b|
  {
    if b == [] {
      assert a + b == a;
    } else {
      var b' := b[..|b| - 1];
      ItemsConcat(a, b', prefix);
      assert (a + b)[..|a + b| - 1] == a + b';
      assert (a + b)[|a + b| - 1] == b[|b| - 1];
    }
  }

  /** A single line gives its item when it starts with the prefix, and nothing otherwise. */
  lemma ItemsSingle(line: string, prefix: string)
    ensures Items([line], prefix) == if StartsWith(line, prefix) then [ItemText(line)] else []
  {
    assert [line][..0] == [];
  }

  /** Exactly one item per line that starts with the prefix. */
  lemma {:induction false} ItemsCount(lines: seq<string>, prefix: string)
    ensures |Items(lines, prefix)| == PrefixedCount(lines, prefix)
    decreases |lines|
  {
    if lines != [] {
      ItemsCount(lines[1..], prefix);
      ItemsConcat([lines[0]], lines[1..], prefix);
      assert [lines[0]] + lines[1..] == lines;
      assert [lines[0]][..0] == [];
    }
  }

  /** The item of a line is what follows its first colon, trimmed. */
  lemma ItemAfterFirstColon(line: string, i: nat)
    requires i < |line| && line[i] == ':' && ':' !in line[..i]
    ensures ItemText(line) == Strip(line[i + 1..])
  {
  }

  /**
   * The prefix test is a plain `startswith`: a `STEPS:` line is also a step line, and its
   * item is everything after `STEPS:`, trimmed.
   */
  lemma StepsLineIsAStep(line: string)
    requires StartsWith(line, StepsMarker)
    ensures Items([line], StepPrefix) == [Strip(line[|StepsMarker|..])]
  {
    assert line[..6][..4] == line[..4];
    assert line[..5] == "STEPS";
    ItemAfterFirstColon(line, 5);
    ItemsSingle(line, StepPrefix);
  }

  /** A line with no colon is taken whole. */
  lemma ItemWithoutColon(line: string)
    requires ':' !in line
    ensures ItemText(line) == line
  {
  }

  // ---------------------------------------------------------------- capability records

  datatype ProcedureGuide = ProcedureGuide(procedure: string, steps: seq<string>)
  datatype Tracking = Tracking(patientId: string, trackedAt: string, reminders: seq<string>)
  datatype DietPlan = DietPlan(recommendations: seq<string>)
  datatype ExercisePlan = ExercisePlan(schedule: seq<string>)

  /** The fixed records each capability returns when the reply is `None` or empty. */
  const VitalsFallback := VitalsAnalysis("UNKNOWN", "API call failed", "Manual assessment required")
  const DoctorFallback := DoctorRecommendation("General Physician", "Default recommendation")
  const WoundFallback := WoundAssessment("MODERATE", "dressing", ["Clean wound", "Apply sterile dressing", "Monitor for infection"])
  const ProcedureFallbackSteps := ["Prepare equipment", "Follow sterile technique", "Administer as prescribed", "Monitor patient"]
  const ReminderFallback := ["Monitor vitals regularly", "Administer medications on schedule"]
  const DietFallback := ["Balanced nutrition", "Adequate hydration", "Follow doctor's dietary advice"]
  const ExerciseFallback := ["Morning: Gentle breathing exercises", "Afternoon: Short walk with assistance", "Evening: Range of motion exercises"]

  /** What `analyze_vitals` returns for a reply. */
  function VitalsFromReply(reply: Option<string>): VitalsAnalysis {
    if Truthy(reply) then DecodeVitals(ReplyLines(reply.value)) else VitalsFallback
  }

  /** What `recommend_doctor` returns for a reply. */
  function DoctorFromReply(reply: Option<string>): DoctorRecommendation {
    if Truthy(reply) then DecodeDoctor(ReplyLines(reply.value)) else DoctorFallback
  }

  /** What `assess_wound` returns for a reply. */
  function WoundFromReply(reply: Option<string>): WoundAssessment {
    if Truthy(reply) then DecodeWound(ReplyLines(reply.value)) else WoundFallback
  }

  /** What `guide_iv_procedure` returns for a reply. */
  function ProcedureFromReply(procedureType: string, reply: Option<string>): ProcedureGuide {
    ProcedureGuide(procedureType,
      if Truthy(reply) then Items(ReplyLines(reply.value), StepPrefix) else ProcedureFallbackSteps)
  }

  /** What `track_patient` returns for a reply. */
  function TrackingFromReply(patientId: string, trackedAt: string, reply: Option<string>): Tracking {
    Tracking(patientId, trackedAt,
      if Truthy(reply) then Items(ReplyLines(reply.value), ReminderPrefix) else ReminderFallback)
  }

  /** What `generate_diet_plan` returns for a reply. */
  function DietFromReply(reply: Option<string>): DietPlan {
    DietPlan(if Truthy(reply) then Items(ReplyLines(reply.value), DietPrefix) else DietFallback)
  }

  /** What `create_exercise_plan` returns for a reply. */
  function ExerciseFromReply(reply: Option<string>): ExercisePlan {
    ExercisePlan(if Truthy(reply) then Items(ReplyLines(reply.value), ActivityPrefix) else ExerciseFallback)
  }

  /**
   * A falsy reply (`None` or the empty text) gives every capability its fixed fallback
   * record, and a truthy one is decoded; the procedure and the tracked patient are
   * echoed whatever the reply.
   */
  lemma FalsyReplyFallsBack(reply: Option<string>, procedureType: string, patientId: string, trackedAt: string)
    requires reply == None || reply == Some("")
    ensures VitalsFromReply(reply) == VitalsFallback
    ensures DoctorFromReply(reply) == DoctorFallback
    ensures WoundFromReply(reply) == WoundFallback
    ensures ProcedureFromReply(procedureType, reply) == ProcedureGuide(procedureType, ProcedureFallbackSteps)
    ensures TrackingFromReply(patientId, trackedAt, reply) == Tracking(patientId, trackedAt, ReminderFallback)
    ensures DietFromReply(reply) == DietPlan(DietFallback)
    ensures ExerciseFromReply(reply) == ExercisePlan(ExerciseFallback)
  {
  }

  /** A procedure guide names the requested procedure and a tracking record the patient, whatever the reply. */
  lemma RepliesEcho(reply: Option<string>, procedureType: string, patientId: string, trackedAt: string)
    ensures ProcedureFromReply(procedureType, reply).procedure == procedureType
    ensures TrackingFromReply(patientId, trackedAt, reply).patientId == patientId
    ensures TrackingFromReply(patientId, trackedAt, reply).trackedAt == trackedAt
  {
  }
}
