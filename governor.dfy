/**
 * The call governor of the agent (`NurseAgent._safe_api_call`), as a specification.
 *
 * Wall-clock time is an abstract clock in seconds that only sleeping and the service's
 * latency advance. The generation service is an oracle: its `n`-th answer (counting
 * every call the governor has issued) is `service(n)`, a latency and an outcome.
 * A run of the governor is recorded as a sequence of events, from which the pacing
 * and backoff guarantees are stated.
 */
module Governor {
  import opened Options

  type Seconds = r: real | r >= 0.0

  /**
   * What one `generate_content` call does: a reply whose `response.text` is read (`None`
   * when the reply has no text part), or one of three exception kinds.
   */
  datatype ServiceOutcome =
    | Ok(text: Option<string>)
    | RateLimit          // a `ClientError` whose message contains "429"
    | OtherClientError   // any other `ClientError`
    | OtherError         // any other exception

  datatype Attempt = Attempt(latency: Seconds, outcome: ServiceOutcome)

  /** The exception `_safe_api_call` re-raises. */
  datatype ApiError = RateLimited | ClientError | OtherException

  /** A return value (the successful answer's `response.text`, or `None` when the loop ran zero times) or a raised error. */
  datatype Reply = Returned(text: Option<string>) | Raised(error: ApiError)

  /** The governor's fields, the clock, and how many calls the service has answered. */
  datatype GovState = GovState(now: real, lastRequestTime: real, requestCount: nat, served: nat)

  datatype Event =
    | PacingWait(seconds: real)            // the sleep that keeps calls 5 s apart
    | Issued(at: real)                     // a call to the service starts
    | Finished(at: real, outcome: ServiceOutcome)
    | BackoffWait(seconds: real)           // the sleep after a rate-limit error

  datatype Run = Run(state: GovState, events: seq<Event>, reply: Reply)

  const MinSpacing: real := 5.0
  const BackoffStep: real := 60.0
  const DefaultMaxRetries: int := 3

  /** The backoff after a rate-limit error on 0-based attempt `attempt`: 60, 120, 180, ... */
  function BackoffFor(attempt: int): real {
    BackoffStep * (attempt + 1) as real
  }

  /** When the next call starts: at once, or 5 s after the last success if that is later. */
  function IssueTime(st: GovState): real {
    var sinceLast := st.now - st.lastRequestTime;
    if sinceLast < MinSpacing then st.now + (MinSpacing - sinceLast) else st.now
  }

  /** The events of one call: the pacing sleep if one is needed, the call's start and its end. */
  function CallEvents(st: GovState, a: Attempt): seq<Event> {
    var sinceLast := st.now - st.lastRequestTime;
    (if sinceLast < MinSpacing then [PacingWait(MinSpacing - sinceLast)] else [])
    + [Issued(IssueTime(st)), Finished(IssueTime(st) + a.latency, a.outcome)]
  }

  /** Where one iteration of the retry loop leaves the governor. */
  datatype Iteration =
    | Finish(run: Run)                          // returned or raised
    | Retry(next: GovState, events: seq<Event>) // backed off after a rate-limit error

  /** One iteration of the loop body: pace, call, and return, raise or back off. */
  function Iterate(service: nat -> Attempt, st: GovState, maxRetries: int, attempt: nat): Iteration {
    var a := service(st.served);
    var finishedAt := IssueTime(st) + a.latency;
    var events := CallEvents(st, a);
    var after := st.(now := finishedAt, served := st.served + 1);
    match a.outcome
    case Ok(text) =>
      Finish(Run(after.(lastRequestTime := finishedAt, requestCount := st.requestCount + 1),
                 events, Returned(text)))
    case RateLimit =>
      if attempt < maxRetries - 1 then
        Retry(after.(now := finishedAt + BackoffFor(attempt)), events + [BackoffWait(BackoffFor(attempt))])
      else
        Finish(Run(after, events, Raised(RateLimited)))
    case OtherClientError => Finish(Run(after, events, Raised(ClientError)))
    case OtherError => Finish(Run(after, events, Raised(OtherException)))
  }

  /** The loop `for attempt in range(max_retries)` from iteration `attempt` on. */
  function Attempts(service: nat -> Attempt, st: GovState, maxRetries: int, attempt: nat): Run
    decreases maxRetries - attempt
  {
    if attempt >= maxRetries then Run(st, [], Returned(None))
    else
      match Iterate(service, st, maxRetries, attempt)
      case Finish(run) => run
      case Retry(next, events) =>
        var rest := Attempts(service, next, maxRetries, attempt + 1);
        Run(rest.state, events + rest.events, rest.reply)
  }

  /** One call of `_safe_api_call(prompt, max_retries)`. */
  function SafeApiCall(service: nat -> Attempt, st: GovState, maxRetries: int): Run {
    Attempts(service, st, maxRetries, 0)
  }

  /** One more iteration of the loop, as the loop's own definition unfolds it. */
  lemma AttemptsUnfold(service: nat -> Attempt, st: GovState, maxRetries: int, attempt: nat)
    requires attempt < maxRetries
    ensures Attempts(service, st, maxRetries, attempt) ==
      match Iterate(service, st, maxRetries, attempt)
      case Finish(run) => run
      case Retry(next, events) =>
        var rest := Attempts(service, next, maxRetries, attempt + 1);
        Run(rest.state, events + rest.events, rest.reply)
  {
  }

  lemma ConcatAssoc(a: seq<Event>, b: seq<Event>, c: seq<Event>)
    ensures (a + b) + c == a + (b + c)
  {
  }

  /** The loop resumed at iteration `attempt`, after the events `done` of earlier iterations. */
  function Resume(service: nat -> Attempt, st: GovState, maxRetries: int, attempt: nat, done: seq<Event>): Run {
    var rest := Attempts(service, st, maxRetries, attempt);
    Run(rest.state, done + rest.events, rest.reply)
  }

  lemma ResumeStart(service: nat -> Attempt, st: GovState, maxRetries: int)
    ensures Resume(service, st, maxRetries, 0, []) == SafeApiCall(service, st, maxRetries)
  {
    assert [] + Attempts(service, st, maxRetries, 0).events == Attempts(service, st, maxRetries, 0).events;
  }

  /** Backing off and moving to the next iteration leaves the loop's overall result unchanged. */
  lemma ResumeRetry(service: nat -> Attempt, st: GovState, maxRetries: int, attempt: nat, done: seq<Event>)
    requires attempt < maxRetries && Iterate(service, st, maxRetries, attempt).Retry?
    ensures var it := Iterate(service, st, maxRetries, attempt);
      Resume(service, st, maxRetries, attempt, done) ==
      Resume(service, it.next, maxRetries, attempt + 1, done + it.events)
  {
    var it := Iterate(service, st, maxRetries, attempt);
    var rest := Attempts(service, it.next, maxRetries, attempt + 1);
    assert done + (it.events + rest.events) == (done + it.events) + rest.events;
  }

  /** A return or a raise ends the loop with that iteration's result. */
  lemma ResumeFinish(service: nat -> Attempt, st: GovState, maxRetries: int, attempt: nat, done: seq<Event>)
    requires attempt < maxRetries && Iterate(service, st, maxRetries, attempt).Finish?
    ensures var run := Iterate(service, st, maxRetries, attempt).run;
      Resume(service, st, maxRetries, attempt, done) == Run(run.state, done + run.events, run.reply)
  {
  }

  /** Once `range(max_retries)` is exhausted the loop returns `None`. */
  lemma ResumeEnd(service: nat -> Attempt, st: GovState, maxRetries: int, attempt: nat, done: seq<Event>)
    requires attempt >= maxRetries
    ensures Resume(service, st, maxRetries, attempt, done) == Run(st, done, Returned(None))
  {
    assert done + [] == done;
  }

  // ---------------------------------------------------------------- views of a trace

  predicate IsIssue(e: Event) { e.Issued? }
  predicate IsSuccess(e: Event) { e.Finished? && e.outcome.Ok? }

  /** How many events of a trace satisfy `p`. */
  function CountIf(h: seq<Event>, p: Event -> bool): nat {
    if h == [] then 0 else CountIf(h[..|h| - 1], p) + (if p(h[|h| - 1]) then 1 else 0)
  }

  /** The completion time of the last successful call, or 0 (the initial `last_request_time`). */
  function LastSuccess(h: seq<Event>): real {
    if h == [] then 0.0
    else if IsSuccess(h[|h| - 1]) then h[|h| - 1].at
    else LastSuccess(h[..|h| - 1])
  }

  /** The backoff sleeps of a trace, in order. */
  function Backoffs(h: seq<Event>): seq<real> {
    if h == [] then []
    else Backoffs(h[..|h| - 1]) + (if h[|h| - 1].BackoffWait? then [h[|h| - 1].seconds] else [])
  }

  /** No call in the trace starts before time `t`. */
  predicate IssuedNotBefore(h: seq<Event>, t: real) {
    forall i :: 0 <= i < |h| && h[i].Issued? ==> h[i].at >= t
  }

  predicate NoSuccess(h: seq<Event>) {
    forall i :: 0 <= i < |h| ==> !IsSuccess(h[i])
  }

  /** Every call starts at least 5 s after the previous successful call completed. */
  ghost predicate Paced(h: seq<Event>) {
    forall i :: 0 <= i < |h| && h[i].Issued? ==> h[i].at >= LastSuccess(h[..i]) + MinSpacing
  }

  /** The governor's fields agree with the trace of everything it has done. */
  ghost predicate Consistent(h: seq<Event>, st: GovState) {
    && Paced(h)
    && st.lastRequestTime == LastSuccess(h)
    && st.requestCount == CountIf(h, IsSuccess)
    && st.served == CountIf(h, IsIssue)
  }

  lemma {:induction false} CountIfAppend(a: seq<Event>, b: seq<Event>, p: Event -> bool)
    ensures CountIf(a + b, p) == CountIf(a, p) + CountIf(b, p)
    decreases |b|
  {
    if b != [] {
      CountIfAppend(a, b[..|b| - 1], p);
      assert (a + b)[..|a + b| - 1] == a + b[..|b| - 1];
    } else {
      assert a + b == a;
    }
  }

  lemma {:induction false} BackoffsAppend(a: seq<Event>, b: seq<Event>)
    ensures Backoffs(a + b) == Backoffs(a) + Backoffs(b)
    decreases |b|
  {
    if b != [] {
      BackoffsAppend(a, b[..|b| - 1]);
      assert (a + b)[..|a + b| - 1] == a + b[..|b| - 1];
    } else {
      assert a + b == a;
    }
  }

  /** Events that contain no success leave the last success time where it was. */
  lemma {:induction false} LastSuccessSkips(a: seq<Event>, b: seq<Event>)
    requires NoSuccess(b)
    ensures LastSuccess(a + b) == LastSuccess(a)
    decreases |b|
  {
    if b != [] {
      LastSuccessSkips(a, b[..|b| - 1]);
      assert (a + b)[..|a + b| - 1] == a + b[..|b| - 1];
    } else {
      assert a + b == a;
    }
  }

  lemma NoSuccessAppend(a: seq<Event>, b: seq<Event>)
    requires NoSuccess(a) && NoSuccess(b)
    ensures NoSuccess(a + b)
  {
  }

  lemma NoSuccessSplit(a: seq<Event>, b: seq<Event>)
    requires NoSuccess(a + b)
    ensures NoSuccess(a)
  {
    assert forall i :: 0 <= i < |a| ==> (a + b)[i] == a[i];
  }

  lemma NoSuccessCount(h: seq<Event>)
    requires NoSuccess(h)
    ensures CountIf(h, IsSuccess) == 0
  {
    if h != [] {
      NoSuccessCount(h[..|h| - 1]);
    }
  }

  // ---------------------------------------------------------------- properties of one call

  /** A call whose last event is a successful answer from the service. */
  predicate Succeeded(r: Run) {
    |r.events| > 0 && IsSuccess(r.events[|r.events| - 1])
  }

  /** The next call never starts earlier than 5 s after the last success. */
  lemma IssueTimePaced(st: GovState)
    ensures IssueTime(st) >= st.lastRequestTime + MinSpacing
    ensures IssueTime(st) >= st.now
  {
  }

  /** One call's events: one start, no backoff, and the call's end last. */
  lemma CallEventsFacts(st: GovState, a: Attempt)
    ensures var e := CallEvents(st, a);
      && |e| >= 2
      && e[|e| - 1] == Finished(IssueTime(st) + a.latency, a.outcome)
      && NoSuccess(e[..|e| - 1])
      && CountIf(e, IsIssue) == 1
      && Backoffs(e) == []
      && IssuedNotBefore(e, st.lastRequestTime + MinSpacing)
  {
    var e := CallEvents(st, a);
    var sinceLast := st.now - st.lastRequestTime;
    var pacing: seq<Event> := if sinceLast < MinSpacing then [PacingWait(MinSpacing - sinceLast)] else [];
    var tail := [Issued(IssueTime(st)), Finished(IssueTime(st) + a.latency, a.outcome)];
    assert e == pacing + tail;
    assert e[..|e| - 1] == pacing + [Issued(IssueTime(st))];
    assert tail[..1] == [Issued(IssueTime(st))];
    assert [Issued(IssueTime(st))][..0] == [];
    CountIfAppend(pacing, tail, IsIssue);
    BackoffsAppend(pacing, tail);
    IssueTimePaced(st);
  }

  /** What a finishing iteration leaves: one call, its reply, and counters moved only on success. */
  predicate FinishFacts(service: nat -> Attempt, st: GovState, r: Run) {
    && r.state.served == st.served + 1
    && CountIf(r.events, IsIssue) == 1
    && (r.reply.Returned? <==> Succeeded(r))
    && IssuedNotBefore(r.events, st.lastRequestTime + MinSpacing)
    && (r.reply.Raised? ==> Backoffs(r.events) == [])
    && (r.reply == Raised(RateLimited) <==> service(st.served).outcome.RateLimit?)
    && (Succeeded(r) ==>
          && r.state.requestCount == st.requestCount + 1
          && r.state.lastRequestTime == r.state.now
          && r.reply.Returned? && r.events[|r.events| - 1] == Finished(r.state.now, Ok(r.reply.text))
          && NoSuccess(r.events[..|r.events| - 1]))
    && (!Succeeded(r) ==>
          && r.state.requestCount == st.requestCount
          && r.state.lastRequestTime == st.lastRequestTime
          && NoSuccess(r.events))
  }

  /** What a retrying iteration leaves: one rate-limited call followed by the backoff for `attempt`. */
  predicate RetryFacts(service: nat -> Attempt, st: GovState, maxRetries: int, attempt: nat, next: GovState, e: seq<Event>) {
    && service(st.served).outcome == RateLimit
    && attempt < maxRetries - 1
    && next.served == st.served + 1
    && next.requestCount == st.requestCount
    && next.lastRequestTime == st.lastRequestTime
    && CountIf(e, IsIssue) == 1
    && NoSuccess(e)
    && Backoffs(e) == [BackoffFor(attempt)]
    && IssuedNotBefore(e, st.lastRequestTime + MinSpacing)
  }

  /** What one iteration does to the governor's fields and to the trace. */
  lemma IterateFacts(service: nat -> Attempt, st: GovState, maxRetries: int, attempt: nat)
    ensures match Iterate(service, st, maxRetries, attempt)
      case Finish(r) => FinishFacts(service, st, r)
      case Retry(next, e) => RetryFacts(service, st, maxRetries, attempt, next, e)
  {
    var a := service(st.served);
    CallEventsFacts(st, a);
    if a.outcome.RateLimit? && attempt < maxRetries - 1 {
      IterateRetries(service, st, maxRetries, attempt);
    } else {
      IterateFinishes(service, st, maxRetries, attempt);
    }
  }

  lemma IterateRetries(service: nat -> Attempt, st: GovState, maxRetries: int, attempt: nat)
    requires service(st.served).outcome.RateLimit? && attempt < maxRetries - 1
    ensures Iterate(service, st, maxRetries, attempt).Retry?
    ensures var it := Iterate(service, st, maxRetries, attempt); RetryFacts(service, st, maxRetries, attempt, it.next, it.events)
  {
    var a := service(st.served);
    var e := CallEvents(st, a);
    CallEventsFacts(st, a);
    var w := [BackoffWait(BackoffFor(attempt))];
    assert w[..0] == [];
    CountIfAppend(e, w, IsIssue);
    BackoffsAppend(e, w);
    assert (e + w)[..|e|] == e;
  }

  lemma IterateFinishes(service: nat -> Attempt, st: GovState, maxRetries: int, attempt: nat)
    requires !(service(st.served).outcome.RateLimit? && attempt < maxRetries - 1)
    ensures Iterate(service, st, maxRetries, attempt).Finish?
    ensures FinishFacts(service, st, Iterate(service, st, maxRetries, attempt).run)
  {
    if service(st.served).outcome.Ok? {
      IterateSucceeds(service, st, maxRetries, attempt);
    } else {
      IterateRaises(service, st, maxRetries, attempt);
    }
  }

  lemma IterateSucceeds(service: nat -> Attempt, st: GovState, maxRetries: int, attempt: nat)
    requires service(st.served).outcome.Ok?
    ensures Iterate(service, st, maxRetries, attempt).Finish?
    ensures FinishFacts(service, st, Iterate(service, st, maxRetries, attempt).run)
  {
    var a := service(st.served);
    var e := CallEvents(st, a);
    CallEventsFacts(st, a);
    var r := Iterate(service, st, maxRetries, attempt).run;
    assert r.events == e && Succeeded(r);
    assert r.state.now == IssueTime(st) + a.latency;
  }

  lemma IterateRaises(service: nat -> Attempt, st: GovState, maxRetries: int, attempt: nat)
    requires !service(st.served).outcome.Ok?
    requires !(service(st.served).outcome.RateLimit? && attempt < maxRetries - 1)
    ensures Iterate(service, st, maxRetries, attempt).Finish?
    ensures FinishFacts(service, st, Iterate(service, st, maxRetries, attempt).run)
  {
    var a := service(st.served);
    var e := CallEvents(st, a);
    CallEventsFacts(st, a);
    var r := Iterate(service, st, maxRetries, attempt).run;
    assert r.events == e && r.reply.Raised? && !Succeeded(r);
    assert e == e[..|e| - 1] + [e[|e| - 1]];
    NoSuccessAppend(e[..|e| - 1], [e[|e| - 1]]);
  }

  /**
   * At most `max_retries` calls are made (none when it is 0 or less), and the service's
   * counter advances by exactly the number of calls issued.
   */
  lemma {:induction false} AttemptsBound(service: nat -> Attempt, st: GovState, maxRetries: int, attempt: nat)
    ensures var r := Attempts(service, st, maxRetries, attempt);
      && st.served <= r.state.served <= st.served + (if attempt < maxRetries then maxRetries - attempt else 0)
      && r.state.served - st.served == CountIf(r.events, IsIssue)
    decreases maxRetries - attempt
  {
    if attempt < maxRetries {
      IterateFacts(service, st, maxRetries, attempt);
      match Iterate(service, st, maxRetries, attempt)
      case Finish(_) =>
      case Retry(next, e) =>
        AttemptsBound(service, next, maxRetries, attempt + 1);
        CountIfAppend(e, Attempts(service, next, maxRetries, attempt + 1).events, IsIssue);
    }
  }

  /**
   * Only a successful call sets `last_request_time` (to its completion time) and adds
   * exactly one to `request_count`; a call that raises or makes no call changes neither.
   * The success is the last event of the call and the only successful one.
   */
  predicate UpdatesOnlyOnSuccess(st: GovState, r: Run) {
    if Succeeded(r) then
      && r.state.requestCount == st.requestCount + 1
      && r.state.lastRequestTime == r.state.now
      && |r.events| > 0
      && r.reply.Returned? && r.events[|r.events| - 1] == Finished(r.state.now, Ok(r.reply.text))
      && NoSuccess(r.events[..|r.events| - 1])
    else
      && r.state.requestCount == st.requestCount
      && r.state.lastRequestTime == st.lastRequestTime
      && NoSuccess(r.events)
  }

  /** Every run of the retry loop updates the counters only on success. */
  lemma {:induction false} SuccessOnlyUpdates(service: nat -> Attempt, st: GovState, maxRetries: int, attempt: nat)
    ensures UpdatesOnlyOnSuccess(st, Attempts(service, st, maxRetries, attempt))
    decreases maxRetries - attempt
  {
    if attempt < maxRetries {
      IterateFacts(service, st, maxRetries, attempt);
      match Iterate(service, st, maxRetries, attempt)
      case Finish(r) =>
        assert Attempts(service, st, maxRetries, attempt) == r;
      case Retry(next, e) =>
        var rest := Attempts(service, next, maxRetries, attempt + 1);
        SuccessOnlyUpdates(service, next, maxRetries, attempt + 1);
        assert Attempts(service, st, maxRetries, attempt) == Run(rest.state, e + rest.events, rest.reply);
        RetryPrefixKeepsCounters(st, next, e, rest);
    }
  }

  /** A rate-limited attempt in front of a run changes neither counter, and adds no success. */
  lemma RetryPrefixKeepsCounters(st: GovState, next: GovState, e: seq<Event>, rest: Run)
    requires next.requestCount == st.requestCount && next.lastRequestTime == st.lastRequestTime
    requires NoSuccess(e)
    requires UpdatesOnlyOnSuccess(next, rest)
    ensures UpdatesOnlyOnSuccess(st, Run(rest.state, e + rest.events, rest.reply))
  {
    var all := e + rest.events;
    if Succeeded(rest) {
      assert all[|all| - 1] == rest.events[|rest.events| - 1];
      assert all[..|all| - 1] == e + rest.events[..|rest.events| - 1];
      NoSuccessAppend(e, rest.events[..|rest.events| - 1]);
    } else {
      NoSuccessAppend(e, rest.events);
    }
  }

  /** Every call of a run starts at least 5 s after `last_request_time` as it was when the run began. */
  lemma {:induction false} AttemptsPaced(service: nat -> Attempt, st: GovState, maxRetries: int, attempt: nat)
    ensures IssuedNotBefore(Attempts(service, st, maxRetries, attempt).events, st.lastRequestTime + MinSpacing)
    decreases maxRetries - attempt
  {
    if attempt < maxRetries {
      IterateFacts(service, st, maxRetries, attempt);
      match Iterate(service, st, maxRetries, attempt)
      case Finish(_) =>
      case Retry(next, e) =>
        var rest := Attempts(service, next, maxRetries, attempt + 1);
        AttemptsPaced(service, next, maxRetries, attempt + 1);
        IssuedNotBeforeAppend(e, rest.events, st.lastRequestTime + MinSpacing);
    }
  }

  lemma IssuedNotBeforeAppend(a: seq<Event>, b: seq<Event>, t: real)
    requires IssuedNotBefore(a, t) && IssuedNotBefore(b, t)
    ensures IssuedNotBefore(a + b, t)
  {
    forall i | 0 <= i < |a + b| && (a + b)[i].Issued?
      ensures (a + b)[i].at >= t
    {
      if i < |a| {
        assert (a + b)[i] == a[i];
      } else {
        assert (a + b)[i] == b[i - |a|];
      }
    }
  }

  /**
   * `_safe_api_call` returns (rather than raises) iff its loop ran zero times or its last
   * call succeeded: a loop that never runs returns `None` without any event, and a
   * successful call returns the `response.text` of its answer.
   */
  lemma {:induction false} ReturnsOnlyOnSuccess(service: nat -> Attempt, st: GovState, maxRetries: int, attempt: nat)
    ensures var r := Attempts(service, st, maxRetries, attempt);
      && (r.reply.Returned? <==> attempt >= maxRetries || Succeeded(r))
      && (attempt >= maxRetries ==> r.reply == Returned(None) && r.events == [])
      && (attempt < maxRetries ==> r.events != [])
      && (Succeeded(r) ==> r.events[|r.events| - 1].outcome == Ok(r.reply.text))
    decreases maxRetries - attempt
  {
    if attempt < maxRetries {
      IterateFacts(service, st, maxRetries, attempt);
      match Iterate(service, st, maxRetries, attempt)
      case Finish(_) =>
      case Retry(next, e) =>
        var rest := Attempts(service, next, maxRetries, attempt + 1);
        ReturnsOnlyOnSuccess(service, next, maxRetries, attempt + 1);
        var all := e + rest.events;
        assert all[|all| - 1] == rest.events[|rest.events| - 1];
    }
  }

  /**
   * A service that answers every call with a rate-limit error gets exactly the remaining
   * `max_retries - attempt` calls; between them the governor backs off 60 * (k + 1) s
   * after the failure on attempt k, and the final rate-limit error is re-raised.
   */
  lemma {:induction false} RetriesExhausted(service: nat -> Attempt, st: GovState, maxRetries: int, attempt: nat)
    requires attempt < maxRetries
    requires forall i :: st.served <= i < st.served + (maxRetries - attempt) ==> service(i).outcome == RateLimit
    ensures var r := Attempts(service, st, maxRetries, attempt);
      && r.reply == Raised(RateLimited)
      && r.state.served == st.served + (maxRetries - attempt)
      && Backoffs(r.events) == seq(maxRetries - 1 - attempt, k => BackoffFor(attempt + k))
    decreases maxRetries - attempt
  {
    IterateFacts(service, st, maxRetries, attempt);
    match Iterate(service, st, maxRetries, attempt)
    case Finish(r) =>
      assert attempt == maxRetries - 1;
    case Retry(next, e) =>
      var rest := Attempts(service, next, maxRetries, attempt + 1);
      RetriesExhausted(service, next, maxRetries, attempt + 1);
      BackoffsAppend(e, rest.events);
      BackoffScheduleCons(attempt, maxRetries - 1 - attempt);
  }

  /** The backoff schedule from attempt `a` is `a`'s backoff followed by the schedule from `a + 1`. */
  lemma BackoffScheduleCons(a: nat, n: nat)
    requires n > 0
    ensures [BackoffFor(a)] + seq(n - 1, k => BackoffFor(a + 1 + k)) == seq(n, k => BackoffFor(a + k))
  {
  }

  /** A non-rate-limit error is re-raised at once: one call, no backoff. */
  lemma NoRetryOnOtherErrors(service: nat -> Attempt, st: GovState, maxRetries: int, attempt: nat)
    requires attempt < maxRetries
    requires service(st.served).outcome.OtherClientError? || service(st.served).outcome.OtherError?
    ensures var r := Attempts(service, st, maxRetries, attempt);
      && r.reply == Raised(if service(st.served).outcome.OtherClientError? then ClientError else OtherException)
      && r.state.served == st.served + 1
      && Backoffs(r.events) == []
  {
    IterateFacts(service, st, maxRetries, attempt);
  }

  /**
   * Appending events that start no call before 5 s after the trace's last success, and
   * whose only possible success is their final event, keeps a paced trace paced.
   */
  lemma PacedExtend(h: seq<Event>, e: seq<Event>)
    requires Paced(h)
    requires IssuedNotBefore(e, LastSuccess(h) + MinSpacing)
    requires e != [] ==> NoSuccess(e[..|e| - 1])
    ensures Paced(h + e)
  {
    forall i | 0 <= i < |h + e| && (h + e)[i].Issued?
      ensures (h + e)[i].at >= LastSuccess((h + e)[..i]) + MinSpacing
    {
      if i < |h| {
        assert (h + e)[..i] == h[..i];
      } else {
        var j := i - |h|;
        assert (h + e)[..i] == h + e[..j];
        assert e[..j] == e[..|e| - 1][..j];
        LastSuccessSkips(h, e[..j]);
      }
    }
  }

  /**
   * The pacing guarantee across calls: if the governor's fields agree with its history and
   * every call in the history was paced, this stays so after one more call.
   */
  lemma CallKeepsConsistent(service: nat -> Attempt, h: seq<Event>, st: GovState, maxRetries: int)
    requires Consistent(h, st)
    ensures var r := SafeApiCall(service, st, maxRetries); Consistent(h + r.events, r.state)
  {
    var r := Attempts(service, st, maxRetries, 0);
    AttemptsBound(service, st, maxRetries, 0);
    SuccessOnlyUpdates(service, st, maxRetries, 0);
    AttemptsPaced(service, st, maxRetries, 0);
    if Succeeded(r) {
      SucceededCallConsistent(h, st, r);
    } else {
      FailedCallConsistent(h, st, r);
    }
  }

  /** A call that succeeded: its completion becomes the last success and the count grows by one. */
  lemma SucceededCallConsistent(h: seq<Event>, st: GovState, r: Run)
    requires Consistent(h, st) && Succeeded(r) && UpdatesOnlyOnSuccess(st, r)
    requires r.state.served - st.served == CountIf(r.events, IsIssue)
    requires IssuedNotBefore(r.events, st.lastRequestTime + MinSpacing)
    ensures Consistent(h + r.events, r.state)
  {
    var e := r.events;
    CountIfAppend(h, e, IsIssue);
    CountIfAppend(h, e, IsSuccess);
    var init := e[..|e| - 1];
    NoSuccessCount(init);
    assert e == init + [e[|e| - 1]];
    CountIfAppend(init, [e[|e| - 1]], IsSuccess);
    assert [e[|e| - 1]][..0] == [];
    assert (h + e)[..|h + e| - 1] == h + init;
    assert r.state.lastRequestTime == LastSuccess(h + e);
    PacedExtend(h, e);
  }

  /** A call that raised or made no call: neither the last success nor the count moves. */
  lemma FailedCallConsistent(h: seq<Event>, st: GovState, r: Run)
    requires Consistent(h, st) && !Succeeded(r) && UpdatesOnlyOnSuccess(st, r)
    requires r.state.served - st.served == CountIf(r.events, IsIssue)
    requires IssuedNotBefore(r.events, st.lastRequestTime + MinSpacing)
    ensures Consistent(h + r.events, r.state)
  {
    var e := r.events;
    CountIfAppend(h, e, IsIssue);
    CountIfAppend(h, e, IsSuccess);
    NoSuccessCount(e);
    LastSuccessSkips(h, e);
    if e != [] {
      assert e == e[..|e| - 1] + [e[|e| - 1]];
      NoSuccessSplit(e[..|e| - 1], [e[|e| - 1]]);
    }
    PacedExtend(h, e);
  }
}
