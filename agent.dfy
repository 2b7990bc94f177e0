/**
 * The triage agent (`NurseAgent`): the call governor as the loop the agent runs, and the
 * seven capabilities built on it, each a prompt, one governed call and a decoder or a
 * fallback record.
 *
 * Prompts are not modelled: the service is the oracle `service` of the governor model,
 * which answers the agent's `n`-th call with `service(n)` whatever was asked. What a
 * prompt does matter for is the `KeyError` that building it raises when the vitals
 * dictionary lacks a key, before any call is made.
 */
module Agent {
  import opened Options
  import opened Decoders
  import opened Governor

  /** The exceptions a capability ends in. */
  datatype Failure =
    | KeyError(key: string)       // a vitals key missing while the prompt is built
    | ApiFailure(error: ApiError) // re-raised by the governor

  datatype Outcome<T> = Success(value: T) | Failed(failure: Failure)

  /** The generation model the agent names in every call. */
  const ModelName := "gemini-1.5-flash"

  /** The vitals keys the prompts read, in the order the prompt text reads them. */
  const VitalKeys: seq<string> := ["hr", "bp", "temp"]

  /** The key whose lookup raises `KeyError` first when a prompt is built, if any. */
  function MissingVital(vitals: map<string, string>): (k: Option<string>)
    ensures k.None? <==> forall key :: key in VitalKeys ==> key in vitals
    ensures k.Some? ==> k.value in VitalKeys && k.value !in vitals
    ensures k.Some? ==> forall j :: 0 <= j < |VitalKeys| && VitalKeys[j] == k.value ==>
      forall i :: 0 <= i < j ==> VitalKeys[i] in vitals
  {
    if "hr" !in vitals then Some("hr")
    else if "bp" !in vitals then Some("bp")
    else if "temp" !in vitals then Some("temp")
    else None
  }

  /** A governor reply as a capability's outcome: a raise propagates, a return is decoded. */
  function OutcomeOf<T>(reply: Reply, decode: Option<string> -> T): (r: Outcome<T>)
    ensures r.Failed? <==> reply.Raised?
    ensures reply.Raised? ==> r.failure == ApiFailure(reply.error)
    ensures reply.Returned? ==> r == Success(decode(reply.text))
  {
    match reply
    case Raised(e) => Failed(ApiFailure(e))
    case Returned(text) => Success(decode(text))
  }

  /**
   * `NurseAgent()`: with no (or an empty) API key the constructor raises `ValueError` and
   * there is no agent; otherwise a fresh agent that has made no request.
   */
  method NewAgent(apiKey: Option<string>, service: nat -> Attempt, clock: real) returns (agent: Option<NurseAgent>)
    ensures agent.Some? <==> Truthy(apiKey)
    ensures agent.Some? ==>
      && fresh(agent.value) && agent.value.Valid()
      && agent.value.State() == GovState(clock, 0.0, 0, 0)
      && agent.value.history == [] && agent.value.service == service
  {
    if !Truthy(apiKey) {
      return None;
    }
    var a := new NurseAgent(service, clock);
    return Some(a);
  }

  class NurseAgent {
    /** The wall clock, in seconds. */
    var now: real
    var lastRequestTime: real
    var requestCount: nat
    /** How many calls the service has answered so far. */
    var served: nat
    /** Everything the governor has done, for stating its guarantees. */
    ghost var history: seq<Event>
    /** The generation service: its answer to the agent's `n`-th call. */
    const service: nat -> Attempt

    function State(): GovState
      reads this
    {
      GovState(now, lastRequestTime, requestCount, served)
    }

    /** The fields agree with the history, and every call in it was paced. */
    ghost predicate Valid()
      reads this
    {
      Consistent(history, State())
    }

    /** `__init__` with a key present: no request made yet, `last_request_time` 0. */
    constructor (service: nat -> Attempt, clock: real)
      ensures Valid()
      ensures State() == GovState(clock, 0.0, 0, 0) && history == []
      ensures this.service == service
    {
      now := clock;
      lastRequestTime := 0.0;
      requestCount := 0;
      served := 0;
      history := [];
      this.service := service;
    }

    /**
     * The body of one attempt up to the service's answer: sleep until 5 s have passed since
     * the last success, then call the service.
     */
    method PacedCall() returns (answer: Attempt)
      modifies this
      ensures answer == service(old(served))
      ensures State() == old(State()).(now := IssueTime(old(State())) + answer.latency, served := old(served) + 1)
      ensures history == old(history) + CallEvents(old(State()), answer)
    {
      ghost var st := State();
      answer := service(served);
      var sinceLast := now - lastRequestTime;
      ghost var events: seq<Event> := [];
      if sinceLast < MinSpacing {
        now := now + (MinSpacing - sinceLast);
        events := [PacingWait(MinSpacing - sinceLast)];
      }
      events := events + [Issued(now)];
      now := now + answer.latency;
      served := served + 1;
      events := events + [Finished(now, answer.outcome)];
      history := history + events;
    }

    /**
     * The rest of one attempt, once the service has answered: a success records its time
     * and is counted and returned; a rate-limit error backs off unless this was the last
     * attempt; every other error, and the last rate-limit error, is re-raised.
     */
    method Conclude(ghost st: GovState, answer: Attempt, maxRetries: int, attempt: nat)
      returns (finished: bool, reply: Reply)
      requires answer == service(st.served)
      requires State() == st.(now := IssueTime(st) + answer.latency, served := st.served + 1)
      modifies this
      ensures finished <==> Iterate(service, st, maxRetries, attempt).Finish?
      ensures finished ==> var run := Iterate(service, st, maxRetries, attempt).run;
        && reply == run.reply && State() == run.state && history == old(history)
        && run.events == CallEvents(st, answer)
      ensures !finished ==> var it := Iterate(service, st, maxRetries, attempt);
        && State() == it.next
        && history == old(history) + [BackoffWait(BackoffFor(attempt))]
        && it.events == CallEvents(st, answer) + [BackoffWait(BackoffFor(attempt))]
    {
      finished := true;
      reply := Returned(None);
      match answer.outcome {
        case Ok(text) =>
          lastRequestTime := now;
          requestCount := requestCount + 1;
          reply := Returned(text);
        case RateLimit =>
          if attempt < maxRetries - 1 {
            now := now + BackoffFor(attempt);
            history := history + [BackoffWait(BackoffFor(attempt))];
            finished := false;
          } else {
            reply := Raised(RateLimited);
          }
        case OtherClientError =>
          reply := Raised(ClientError);
        case OtherError =>
          reply := Raised(OtherException);
      }
    }

    /**
     * `_safe_api_call(prompt, max_retries)`: the retry loop, with the pacing sleep before
     * each call and the growing sleep after each rate-limit error but the last.
     */
    method SafeApiCall(maxRetries: int) returns (reply: Reply)
      requires Valid()
      modifies this
      ensures Valid()
      ensures var run := Governor.SafeApiCall(service, old(State()), maxRetries);
        && State() == run.state
        && reply == run.reply
        && history == old(history) + run.events
    {
      ghost var h0 := history;
      ghost var whole := Governor.SafeApiCall(service, State(), maxRetries);
      ghost var done: seq<Event> := [];
      ResumeStart(service, State(), maxRetries);
      CallKeepsConsistent(service, h0, State(), maxRetries);
      var attempt: nat := 0;
      while attempt < maxRetries
        invariant history == h0 + done
        invariant whole == Resume(service, State(), maxRetries, attempt, done)
        decreases maxRetries - attempt
      {
        ghost var st := State();
        var answer := PacedCall();
        var finished, outcome := Conclude(st, answer, maxRetries, attempt);
        if finished {
          ResumeFinish(service, st, maxRetries, attempt, done);
          ConcatAssoc(h0, done, CallEvents(st, answer));
          reply := outcome;
          return;
        }
        ResumeRetry(service, st, maxRetries, attempt, done);
        ghost var e := CallEvents(st, answer) + [BackoffWait(BackoffFor(attempt))];
        ConcatAssoc(h0, done, CallEvents(st, answer));
        ConcatAssoc(h0 + done, CallEvents(st, answer), [BackoffWait(BackoffFor(attempt))]);
        ConcatAssoc(done, CallEvents(st, answer), [BackoffWait(BackoffFor(attempt))]);
        ConcatAssoc(h0, done, e);
        done := done + e;
        attempt := attempt + 1;
      }
      ResumeEnd(service, State(), maxRetries, attempt, done);
      reply := Returned(None);
    }

    // ------------------------------------------------------------ capabilities

    /** `analyze_vitals`: the prompt reads `hr`, `bp` and `temp`, then one governed call. */
    method AnalyzeVitals(vitals: map<string, string>) returns (r: Outcome<VitalsAnalysis>)
      requires Valid()
      modifies this
      ensures Valid()
      ensures MissingVital(vitals).Some? ==>
        r == Failed(KeyError(MissingVital(vitals).value)) && State() == old(State()) && history == old(history)
      ensures MissingVital(vitals).None? ==> var run := Governor.SafeApiCall(service, old(State()), DefaultMaxRetries);
        && State() == run.state && history == old(history) + run.events
        && r == OutcomeOf(run.reply, VitalsFromReply)
    {
      var missing := MissingVital(vitals);
      if missing.Some? {
        return Failed(KeyError(missing.value));
      }
      var reply := SafeApiCall(DefaultMaxRetries);
      if reply.Raised? {
        return Failed(ApiFailure(reply.error));
      }
      if Truthy(reply.text) {
        var analysis := ParseVitalsResponse(reply.text.value);
        return Success(analysis);
      }
      return Success(VitalsFallback);
    }

    /** `recommend_doctor`: the prompt reads the three vitals, then one governed call. */
    method RecommendDoctor(vitals: map<string, string>) returns (r: Outcome<DoctorRecommendation>)
      requires Valid()
      modifies this
      ensures Valid()
      ensures MissingVital(vitals).Some? ==>
        r == Failed(KeyError(MissingVital(vitals).value)) && State() == old(State()) && history == old(history)
      ensures MissingVital(vitals).None? ==> var run := Governor.SafeApiCall(service, old(State()), DefaultMaxRetries);
        && State() == run.state && history == old(history) + run.events
        && r == OutcomeOf(run.reply, DoctorFromReply)
    {
      var missing := MissingVital(vitals);
      if missing.Some? {
        return Failed(KeyError(missing.value));
      }
      var reply := SafeApiCall(DefaultMaxRetries);
      if reply.Raised? {
        return Failed(ApiFailure(reply.error));
      }
      if Truthy(reply.text) {
        var recommendation := ParseDoctorResponse(reply.text.value);
        return Success(recommendation);
      }
      return Success(DoctorFallback);
    }

    /** `assess_wound`: one governed call. */
    method AssessWound() returns (r: Outcome<WoundAssessment>)
      requires Valid()
      modifies this
      ensures Valid()
      ensures var run := Governor.SafeApiCall(service, old(State()), DefaultMaxRetries);
        && State() == run.state && history == old(history) + run.events
        && r == OutcomeOf(run.reply, WoundFromReply)
    {
      var reply := SafeApiCall(DefaultMaxRetries);
      if reply.Raised? {
        return Failed(ApiFailure(reply.error));
      }
      if Truthy(reply.text) {
        var assessment := ParseWoundResponse(reply.text.value);
        return Success(assessment);
      }
      return Success(WoundFallback);
    }

    /** `guide_iv_procedure`: one governed call; the `STEP` lines are the steps. */
    method GuideIvProcedure(procedureType: string) returns (r: Outcome<ProcedureGuide>)
      requires Valid()
      modifies this
      ensures Valid()
      ensures var run := Governor.SafeApiCall(service, old(State()), DefaultMaxRetries);
        && State() == run.state && history == old(history) + run.events
        && r == OutcomeOf(run.reply, reply => ProcedureFromReply(procedureType, reply))
    {
      var reply := SafeApiCall(DefaultMaxRetries);
      if reply.Raised? {
        return Failed(ApiFailure(reply.error));
      }
      if !Truthy(reply.text) {
        return Success(ProcedureGuide(procedureType, ProcedureFallbackSteps));
      }
      var steps := CollectItems(reply.text.value, StepPrefix);
      return Success(ProcedureGuide(procedureType, steps));
    }

    /**
     * `track_patient`: the time of day `trackedAt` ("%H:%M") is read first, the prompt reads
     * the three vitals, then one governed call; the `REMINDER` lines are the reminders.
     */
    method TrackPatient(patientId: string, vitals: map<string, string>, trackedAt: string) returns (r: Outcome<Tracking>)
      requires Valid()
      modifies this
      ensures Valid()
      ensures MissingVital(vitals).Some? ==>
        r == Failed(KeyError(MissingVital(vitals).value)) && State() == old(State()) && history == old(history)
      ensures MissingVital(vitals).None? ==> var run := Governor.SafeApiCall(service, old(State()), DefaultMaxRetries);
        && State() == run.state && history == old(history) + run.events
        && r == OutcomeOf(run.reply, reply => TrackingFromReply(patientId, trackedAt, reply))
    {
      var missing := MissingVital(vitals);
      if missing.Some? {
        return Failed(KeyError(missing.value));
      }
      var reply := SafeApiCall(DefaultMaxRetries);
      if reply.Raised? {
        return Failed(ApiFailure(reply.error));
      }
      var reminders := ReminderFallback;
      if Truthy(reply.text) {
        reminders := CollectItems(reply.text.value, ReminderPrefix);
      }
      return Success(Tracking(patientId, trackedAt, reminders));
    }

    /** `generate_diet_plan`: one governed call; the `DIET` lines are the recommendations. */
    method GenerateDietPlan() returns (r: Outcome<DietPlan>)
      requires Valid()
      modifies this
      ensures Valid()
      ensures var run := Governor.SafeApiCall(service, old(State()), DefaultMaxRetries);
        && State() == run.state && history == old(history) + run.events
        && r == OutcomeOf(run.reply, DietFromReply)
    {
      var reply := SafeApiCall(DefaultMaxRetries);
      if reply.Raised? {
        return Failed(ApiFailure(reply.error));
      }
      var recommendations := DietFallback;
      if Truthy(reply.text) {
        recommendations := CollectItems(reply.text.value, DietPrefix);
      }
      return Success(DietPlan(recommendations));
    }

    /** `create_exercise_plan`: one governed call; the `ACTIVITY` lines are the schedule. */
    method CreateExercisePlan() returns (r: Outcome<ExercisePlan>)
      requires Valid()
      modifies this
      ensures Valid()
      ensures var run := Governor.SafeApiCall(service, old(State()), DefaultMaxRetries);
        && State() == run.state && history == old(history) + run.events
        && r == OutcomeOf(run.reply, ExerciseFromReply)
    {
      var reply := SafeApiCall(DefaultMaxRetries);
      if reply.Raised? {
        return Failed(ApiFailure(reply.error));
      }
      var activities := ExerciseFallback;
      if Truthy(reply.text) {
        activities := CollectItems(reply.text.value, ActivityPrefix);
      }
      return Success(ExercisePlan(activities));
    }

    /**
     * `full_patient_assessment`: vitals, then the doctor, then tracking, each on the vitals
     * found under `vitals` (an empty dictionary when absent); an exception in any step
     * ends the assessment with it.
     */
    method FullPatientAssessment(patient: PatientData, trackedAt: string, timestamp: string)
      returns (r: Outcome<Assessment>)
      requires Valid()
      modifies this
      ensures Valid()
      ensures var spec := Assess(service, old(State()), patient, trackedAt, timestamp);
        r == spec.outcome && State() == spec.state && history == old(history) + spec.events
    {
      ghost var st := State();
      ghost var h0 := history;
      var vitals := patient.vitals.GetOr(map[]);
      var analysis := AnalyzeVitals(vitals);
      if analysis.Failed? {
        return Failed(analysis.failure);
      }
      ghost var run1 := Governor.SafeApiCall(service, st, DefaultMaxRetries);
      var doctor := RecommendDoctor(vitals);
      if doctor.Failed? {
        ConcatAssoc(h0, run1.events, Governor.SafeApiCall(service, run1.state, DefaultMaxRetries).events);
        return Failed(doctor.failure);
      }
      ghost var run2 := Governor.SafeApiCall(service, run1.state, DefaultMaxRetries);
      ConcatAssoc(h0, run1.events, run2.events);
      var tracking := TrackPatient(patient.patientId.GetOr(DefaultPatientId), vitals, trackedAt);
      ghost var run3 := Governor.SafeApiCall(service, run2.state, DefaultMaxRetries);
      ConcatAssoc(h0, run1.events + run2.events, run3.events);
      if tracking.Failed? {
        return Failed(tracking.failure);
      }
      return Success(Assessment(patient.patientId, analysis.value, doctor.value, tracking.value, timestamp));
    }
  }

  /** What the assessment reads from `patient_data`: the patient's id and vitals, if present. */
  datatype PatientData = PatientData(patientId: Option<string>, vitals: Option<map<string, string>>)

  datatype Assessment = Assessment(
    patientId: Option<string>,
    vitalsAnalysis: VitalsAnalysis,
    doctorRecommendation: DoctorRecommendation,
    tracking: Tracking,
    timestamp: string)

  /** The patient id tracking is done under when `patient_data` has none. */
  const DefaultPatientId := "P000"

  /** An assessment's result, where the governor ends, and what it did. */
  datatype AssessmentRun = AssessmentRun(outcome: Outcome<Assessment>, state: GovState, events: seq<Event>)

  /** `full_patient_assessment` as a function of the governor's state before it. */
  function Assess(service: nat -> Attempt, st: GovState, patient: PatientData, trackedAt: string, timestamp: string): AssessmentRun {
    var vitals := patient.vitals.GetOr(map[]);
    match MissingVital(vitals)
    case Some(k) => AssessmentRun(Failed(KeyError(k)), st, [])
    case None =>
      var run1 := SafeApiCall(service, st, DefaultMaxRetries);
      var run2 := SafeApiCall(service, run1.state, DefaultMaxRetries);
      var run3 := SafeApiCall(service, run2.state, DefaultMaxRetries);
      if run1.reply.Raised? then AssessmentRun(Failed(ApiFailure(run1.reply.error)), run1.state, run1.events)
      else if run2.reply.Raised? then
        AssessmentRun(Failed(ApiFailure(run2.reply.error)), run2.state, run1.events + run2.events)
      else if run3.reply.Raised? then
        AssessmentRun(Failed(ApiFailure(run3.reply.error)), run3.state, run1.events + run2.events + run3.events)
      else
        AssessmentRun(
          Success(Assessment(
            patient.patientId,
            VitalsFromReply(run1.reply.text),
            DoctorFromReply(run2.reply.text),
            TrackingFromReply(patient.patientId.GetOr(DefaultPatientId), trackedAt, run3.reply.text),
            timestamp)),
          run3.state, run1.events + run2.events + run3.events)
  }

  /**
   * Without a complete vitals dictionary no call is made; otherwise the assessment issues
   * between one and nine calls, three governed calls of at most three attempts each.
   */
  lemma AssessCallBound(service: nat -> Attempt, st: GovState, patient: PatientData, trackedAt: string, timestamp: string)
    ensures var a := Assess(service, st, patient, trackedAt, timestamp);
      && a.state.served - st.served == CountIf(a.events, IsIssue)
      && (MissingVital(patient.vitals.GetOr(map[])).Some? ==> a.events == [] && a.state == st)
      && (MissingVital(patient.vitals.GetOr(map[])).None? ==> st.served + 1 <= a.state.served <= st.served + 9)
  {
    var run1 := SafeApiCall(service, st, DefaultMaxRetries);
    var run2 := SafeApiCall(service, run1.state, DefaultMaxRetries);
    var run3 := SafeApiCall(service, run2.state, DefaultMaxRetries);
    CallMakesProgress(service, st);
    CallMakesProgress(service, run1.state);
    CallMakesProgress(service, run2.state);
    CountIfAppend(run1.events, run2.events, IsIssue);
    CountIfAppend(run1.events + run2.events, run3.events, IsIssue);
  }

  /** One governed call with the default retries issues one to three calls. */
  lemma CallMakesProgress(service: nat -> Attempt, st: GovState)
    ensures var r := SafeApiCall(service, st, DefaultMaxRetries);
      && st.served + 1 <= r.state.served <= st.served + 3
      && r.state.served - st.served == CountIf(r.events, IsIssue)
  {
    AttemptsBound(service, st, DefaultMaxRetries, 0);
    IterateFacts(service, st, DefaultMaxRetries, 0);
  }

  /** The pacing guarantee holds across the three calls of an assessment. */
  lemma AssessKeepsConsistent(service: nat -> Attempt, h: seq<Event>, st: GovState, patient: PatientData, trackedAt: string, timestamp: string)
    requires Consistent(h, st)
    ensures var a := Assess(service, st, patient, trackedAt, timestamp); Consistent(h + a.events, a.state)
  {
    var run1 := SafeApiCall(service, st, DefaultMaxRetries);
    var run2 := SafeApiCall(service, run1.state, DefaultMaxRetries);
    var run3 := SafeApiCall(service, run2.state, DefaultMaxRetries);
    assert h + [] == h;
    CallKeepsConsistent(service, h, st, DefaultMaxRetries);
    CallKeepsConsistent(service, h + run1.events, run1.state, DefaultMaxRetries);
    CallKeepsConsistent(service, h + run1.events + run2.events, run2.state, DefaultMaxRetries);
    ConcatAssoc(h, run1.events, run2.events);
    ConcatAssoc(h, run1.events + run2.events, run3.events);
  }

  /**
   * A completed assessment reports the patient id as given (possibly absent), tracks under
   * that id or "P000", and holds the three decoded replies in call order.
   */
  lemma AssessSuccess(service: nat -> Attempt, st: GovState, patient: PatientData, trackedAt: string, timestamp: string)
    requires Assess(service, st, patient, trackedAt, timestamp).outcome.Success?
    ensures var a := Assess(service, st, patient, trackedAt, timestamp).outcome.value;
      var run1 := SafeApiCall(service, st, DefaultMaxRetries);
      var run2 := SafeApiCall(service, run1.state, DefaultMaxRetries);
      && MissingVital(patient.vitals.GetOr(map[])).None?
      && a.patientId == patient.patientId
      && a.tracking.patientId == (if patient.patientId.Some? then patient.patientId.value else "P000")
      && a.tracking.trackedAt == trackedAt
      && a.timestamp == timestamp
      && a.vitalsAnalysis == VitalsFromReply(run1.reply.text)
      && a.doctorRecommendation == DoctorFromReply(run2.reply.text)
      && !run1.reply.Raised? && !run2.reply.Raised?
  {
  }
}
