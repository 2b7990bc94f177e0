# Nurse Triage Agent — a Dafny model of its core

The Nurse Triage Agent is a clinical-assistant backend with a browser dashboard. Its
`NurseAgent` sends prompts to a text-generation service through a *call governor*
(`_safe_api_call`). The governor spaces calls at least 5 s after the last success,
counts successes, and retries rate-limit (`429`) errors with a linear backoff. Each
agent capability then decodes the reply line by line (`LEVEL:`, `REASON:`, `STEP…`).
When the reply is empty, the capability returns a fixed fallback record.

Around the agent sit four smaller pieces:

- a `NotificationService` that fans a reminder or an alert out over SMS (Twilio) and
  e-mail (SMTP);
- a `ReminderScheduler`, with a job table of daily medication rounds and a handler that
  texts every patient whose emergency contact has a phone number;
- the FastAPI endpoints that register patients, send notifications and send critical
  alerts;
- the dashboard logic in `app.js`: vitals colours, the critical test, input checks and a
  capped audit log.

The project models each of these in its own module:

| module | file | models |
|---|---|---|
| `Governor` | governor.dfy | `_safe_api_call` as a specification: one loop iteration (`Iterate`), the loop (`Attempts`), and the event trace the guarantees are stated on |
| `Agent` | agent.dfy | `NurseAgent`, a class whose `SafeApiCall` loop is proved equal to the governor specification, with its capabilities and `full_patient_assessment` |
| `Decoders` | decoders.dfy | the reply decoders: pure folds over the reply's lines, and the loops the agent runs, proved equal to them |
| `Notifications` | notifications.dfy | `NotificationService`: the enable flags, `send_sms`/`send_email` and the five templates |
| `Scheduler` | scheduler.dfy | `ReminderScheduler`: the job table, and the reminder round over the patient table |
| `Api` | api.dfy | `register_patient`, `send_notification` and `send_critical_alert`, over in-memory tables |
| `Database` | database.dfy | the `DATABASE_URL` rewrite and the SQLite `connect_args` |
| `Dashboard` | dashboard.dfy | `getVitalColor`, `isCriticalCondition`, the escalation, note and admin-password checks, and `addToLog` on a `Page` class |
| `PyStr`, `JsStr`, `Options` | pystr.dfy, jsstr.dfy, options.dfy | the Python and ECMAScript string operations the code relies on, and optional values |

External effects are parameters:

- Time is an abstract clock in seconds, which only sleeping and the service's latency
  advance.
- The generation service is an oracle `service: nat -> Attempt`, queried with how many
  calls it has already answered.
- The SMS and e-mail transports are an oracle `transport: nat -> Delivery`, queried with
  the number of messages already handed over.
- Timestamps (`datetime.now()`, `getCurrentTimeString()`) are string parameters.

## Behaviour of the code worth knowing

The model follows the code in each of these:

- **Capabilities propagate errors.** An error that `_safe_api_call` re-raises leaves the
  capability, and `full_patient_assessment`, as an exception. Only a falsy reply gives
  the fallback record.
- **`last_request_time` moves only on success.** It is set after a successful call
  (backend/agent.py:814), not after every call. Pacing is therefore measured from the
  last *successful* call.
- **Backoff is 60 s then 120 s.** With the default of 3 attempts, the waits are 60 s and
  120 s. The third rate-limit error is re-raised with no wait, so the 180 s named in the
  comment at backend/agent.py:821 (`# 60s, 120s, 180s`) is never waited.
- **No per-recipient isolation in the reminder round.** One `try` surrounds the whole
  loop in `send_medication_reminders`. An exception for one patient ends the round, and
  no later patient gets a reminder.
- **A missing address gives no result entry.** In the templates, a channel that was
  given no address has no entry in the result. A channel that is switched off but was
  given an address has a "skipped" entry.

## Model

| member | source | states |
|---|---|---|
| Governor.IssueTimePaced | backend/agent.py:800-806 | the next call never starts before `last_request_time + 5`, and never before the current time |
| Governor.CallEventsFacts | backend/agent.py:800-812 | the pacing sleep and one call: exactly one call is issued, at or after `last_request_time + 5`, there is no backoff, and the call's end is the last event |
| Governor.IterateFacts | backend/agent.py:797-834 | one loop iteration either finishes or backs off. Finishing means one call and its reply; the counters change only on success (`request_count + 1`, `last_request_time` = completion time); a `RateLimited` raise happens iff the service answered 429. Backing off means a 429 on an attempt that is not the last, no counter change, and exactly the backoff `60 * (attempt + 1)` |
| Governor.IterateRetries | backend/agent.py:819-824 | a 429 on any attempt but the last backs off `60 * (attempt + 1)` s, with the counters unchanged |
| Governor.IterateFinishes | backend/agent.py:814-834 | a success, a last-attempt 429 or any other error ends the loop after one call |
| Governor.IterateSucceeds | backend/agent.py:814-816 | a successful answer is returned, counted once, and its completion time becomes `last_request_time` |
| Governor.IterateRaises | backend/agent.py:825-834 | an error that is not retried is re-raised with both counters unchanged and no backoff |
| Governor.AttemptsBound | backend/agent.py:797-836 | a run of the loop issues at most `max_retries` calls (none when `max_retries <= 0`), and the service's counter advances by exactly the calls issued |
| Governor.SuccessOnlyUpdates | backend/agent.py:814-816 | over a whole run, only a successful call sets `last_request_time` (to its completion time) and adds exactly 1 to `request_count`; a run that raises or makes no call changes neither, and a success is the run's last event and its only success |
| Governor.RetryPrefixKeepsCounters | backend/agent.py:819-824 | a rate-limited attempt in front of a run adds no success and changes neither counter |
| Governor.AttemptsPaced | backend/agent.py:800-806 | every call of a run starts at least 5 s after `last_request_time` as it was when the run began |
| Governor.ReturnsOnlyOnSuccess | backend/agent.py:797-836 | `_safe_api_call` returns instead of raising iff its loop runs zero times (then `None`, with no call) or its last call succeeded (then that answer's `response.text`, itself `None` when the answer has no text) |
| Governor.RetriesExhausted | backend/agent.py:819-829 | if every call is rate-limited, the remaining `max_retries - attempt` calls are all made, the backoffs are exactly 60·(k+1) for each attempt k but the last, and the last 429 is re-raised |
| Governor.NoRetryOnOtherErrors | backend/agent.py:830-834 | a non-429 `ClientError` or any other exception is re-raised after one call, with no backoff |
| Governor.PacedExtend | backend/agent.py:800-816 | appending a call that starts at least 5 s after the trace's last success, and whose only success is its final event, keeps every call of the trace paced |
| Governor.CallKeepsConsistent | backend/agent.py:794-836 | across calls: if the fields agree with the history and every past call was paced, this still holds after one more `_safe_api_call` |
| Governor.SucceededCallConsistent | backend/agent.py:814-816 | after a successful call, `last_request_time` is the completion of the last success and `request_count` counts the successes in the history |
| Governor.FailedCallConsistent | backend/agent.py:825-836 | after a call that raised or made no call, the last success and the count are those of the history before it |
| Agent.MissingVital | backend/agent.py:846-851 | names the first of `hr`, `bp`, `temp` missing from the vitals (the `KeyError` the prompt raises), and it is `None` iff all three are present |
| Agent.OutcomeOf | backend/agent.py:863-867 | a raised governor error becomes the capability's failure; a returned reply is decoded |
| Agent.NewAgent | backend/agent.py:781-792 | an agent exists iff the API key is non-empty; a new agent has made no request and has `last_request_time` 0 |
| Agent.NurseAgent.constructor | backend/agent.py:781-792 | a new agent: no requests, `last_request_time` 0, an empty history, and the governor invariant holds |
| Agent.NurseAgent.PacedCall | backend/agent.py:800-812 | sleeps until 5 s after the last success if needed, then asks the service; the clock and the history advance as `CallEvents` says |
| Agent.NurseAgent.Conclude | backend/agent.py:814-834 | the rest of the attempt does exactly what the governor's `Iterate` specifies: finish with its reply and state, or back off by `60 * (attempt + 1)` s |
| Agent.NurseAgent.SafeApiCall | backend/agent.py:794-836 | the retry loop ends in the state and reply of the specification `Governor.SafeApiCall`, appends its events to the history, and keeps the pacing/counter invariant `Valid` |
| Agent.NurseAgent.AnalyzeVitals | backend/agent.py:838-867 | a missing vitals key raises before any call, with nothing changed; otherwise one governed call, whose error propagates, and whose reply is decoded or replaced by the fallback |
| Agent.NurseAgent.RecommendDoctor | backend/agent.py:888-911 | the same shape as `AnalyzeVitals`, with the doctor decoder and fallback |
| Agent.NurseAgent.AssessWound | backend/agent.py:929-954 | one governed call; an error propagates, a reply is decoded or replaced by the wound fallback |
| Agent.NurseAgent.GuideIvProcedure | backend/agent.py:976-1004 | one governed call; the steps are the `STEP` items, or the four fallback steps; the procedure type is echoed |
| Agent.NurseAgent.TrackPatient | backend/agent.py:1006-1045 | a missing vitals key raises first; otherwise one governed call; the reminders are the `REMINDER` items or the two fallback reminders; the patient id and time are echoed |
| Agent.NurseAgent.GenerateDietPlan | backend/agent.py:1047-1081 | one governed call; the `DIET` items or the three fallback recommendations |
| Agent.NurseAgent.CreateExercisePlan | backend/agent.py:1083-1114 | one governed call; the `ACTIVITY` items or the three fallback activities |
| Agent.NurseAgent.FullPatientAssessment | backend/agent.py:1116-1155 | vitals, doctor and tracking run in that order; the result, final state and events are those of the specification `Assess`, so the first exception ends the assessment |
| Agent.AssessCallBound | backend/agent.py:1116-1155 | an assessment without complete vitals makes no call; otherwise it issues between 1 and 9 calls |
| Agent.CallMakesProgress | backend/agent.py:797-836 | one governed call with the default retries issues between one and three calls |
| Agent.AssessKeepsConsistent | backend/agent.py:1116-1155 | the pacing and counter invariant holds across the three governed calls of an assessment |
| Agent.AssessSuccess | backend/agent.py:1146-1155 | a completed assessment reports the given patient id, tracks under it or "P000", and holds the decoded vitals and doctor replies of the first two calls |
| Decoders.FieldValueOfMarked | backend/agent.py:879-884 | on a line that starts with the marker, the field value is the rest of the line with every marker occurrence removed, then stripped |
| Decoders.MarkersExclusive | backend/agent.py:878-884 | two markers that differ at some position never both start one line, so the `if/elif` order does not matter |
| Decoders.LastMarkedAbsent | backend/agent.py:878-884 | with no line carrying a marker, no line is the last one carrying it |
| Decoders.ParseVitalsResponse | backend/agent.py:869-886 | the loop computes the fold `DecodeVitals` over `text.strip().split('\n')` |
| Decoders.DecodeVitalsLastWins | backend/agent.py:872-884 | each field is the value on the last line carrying its marker, or its default `UNKNOWN`/''/'' |
| Decoders.DecodeVitalsUnmarked | backend/agent.py:872-876 | a reply with no marker lines decodes to exactly the default record |
| Decoders.ParseDoctorResponse | backend/agent.py:913-927 | the loop computes the fold `DecodeDoctor` |
| Decoders.DecodeDoctorLastWins | backend/agent.py:916-925 | the last `SPECIALIST:` and `REASON:` lines win; the defaults are `General Physician` and '' |
| Decoders.DecodeDoctorUnmarked | backend/agent.py:916-919 | a reply without marker lines gives the default record |
| Decoders.ParseWoundResponse | backend/agent.py:956-974 | the loop computes the fold `DecodeWound` |
| Decoders.DecodeWoundLastWins | backend/agent.py:959-972 | the severity is the last `SEVERITY:` value, the care type the last `CARE:` value lower-cased, and the steps those of the last `STEPS:` line; the defaults are `MODERATE`, `dressing` and [] |
| Decoders.DecodeWoundUnmarked | backend/agent.py:959-963 | a reply without marker lines gives the default record |
| Decoders.StepsOfShape | backend/agent.py:970-972 | a `STEPS:` line gives one more step than its value has ';', and no step contains ';' |
| Decoders.CollectItems | backend/agent.py:998-1002 | the loop of the four enumerated capabilities computes the fold `Items` |
| Decoders.ItemsConcat | backend/agent.py:998-1002 | items keep text order: the items of two blocks of lines are those of the first, then those of the second |
| Decoders.ItemsSingle | backend/agent.py:999-1001 | one line gives its item when it starts with the prefix, and nothing otherwise |
| Decoders.ItemsCount | backend/agent.py:998-1002 | there is exactly one item per line starting with the prefix |
| Decoders.ItemAfterFirstColon | backend/agent.py:1001 | a line's item is what follows its first ':', stripped |
| Decoders.StepsLineIsAStep | backend/agent.py:999-1000 | the prefix test is a plain `startswith`, so a `STEPS:` line is also a step line, whose item is what follows `STEPS:` |
| Decoders.ItemWithoutColon | backend/agent.py:1001 | a line without ':' is taken whole |
| Decoders.FalsyReplyFallsBack | backend/agent.py:863-1114 | a `None` or empty reply gives each of the seven capabilities its fixed fallback record |
| Decoders.RepliesEcho | backend/agent.py:994-1045 | the procedure guide echoes the procedure type, and tracking echoes the patient id and time, whatever the reply |
| PyStr.LStrip | backend/agent.py:871 | removes exactly the leading whitespace: the result is a suffix, everything removed is whitespace, and the result does not start with whitespace |
| PyStr.RStrip | backend/agent.py:871 | removes exactly the trailing whitespace |
| PyStr.Strip | backend/agent.py:871 | the result neither starts nor ends with whitespace |
| PyStr.StripIdempotent | backend/agent.py:880 | stripping twice is stripping once |
| PyStr.Split | backend/agent.py:871 | `split(sep)` gives one more piece than there are separators, and no piece contains the separator |
| PyStr.JoinSplit | backend/agent.py:871 | joining the pieces with the separator gives back the original text |
| PyStr.SplitHead | frontend/app.js:73 | the first piece of a split is the text before the first separator |
| PyStr.RemoveAll | backend/agent.py:880 | `replace(marker, '')` never lengthens the text |
| PyStr.RemoveAllAbsent | backend/agent.py:880 | removing a marker that does not occur leaves the text unchanged |
| PyStr.IndexOf | backend/agent.py:1001 | finds the first occurrence of the character |
| PyStr.LowerHasNoCapitals | backend/agent.py:969 | after `lower()` no ASCII capital is left |
| JsStr.TrimStart | frontend/app.js:363 | removes exactly the leading ECMAScript white space |
| JsStr.TrimEnd | frontend/app.js:363 | removes exactly the trailing ECMAScript white space |
| JsStr.Trim | frontend/app.js:363 | the result neither starts nor ends with white space |
| JsStr.TrimPadded | frontend/app.js:363 | trimming white space around a word gives back the word |
| JsStr.DigitValue | frontend/app.js:73 | a decimal digit has a value below 10, and only the characters '0'–'9' are decimal digits |
| JsStr.DigitRun | frontend/app.js:73 | `parseInt` reads the longest run of digits |
| JsStr.MagnitudeNaN | frontend/app.js:73 | a text that does not start with a digit has no magnitude |
| JsStr.MagnitudeDecimal | frontend/app.js:73 | a decimal numeral followed by a non-digit that is not 'x' has the numeral's value |
| JsStr.ParseIntSkipsSpace | frontend/app.js:73 | leading white space makes no difference to `parseInt` |
| JsStr.ParseIntNaN | frontend/app.js:73 | a text starting with neither a digit, white space nor a sign is NaN |
| JsStr.ParseIntDecimal | frontend/app.js:73 | a decimal prefix parses to its value, whatever follows it |
| JsStr.ParseIntMinus | frontend/app.js:73 | after a '-', the magnitude is negated |
| JsStr.DigitRunOf | frontend/app.js:73 | the digit run of `digits + rest` is exactly `digits` |
| Notifications.NotificationService.constructor | backend/notifications.py:17-38 | SMS is on iff the SID and the token are both non-empty and the client set-up succeeds; e-mail is on iff the SMTP username and password are both non-empty; nothing has been sent |
| Notifications.SmsResult | backend/notifications.py:40-72 | "skipped" iff SMS is off; otherwise "success" with the message id and the phone when delivered, or "failed" with the error — never raised |
| Notifications.EmailResult | backend/notifications.py:74-121 | "skipped" iff e-mail is off; otherwise "success" echoing the recipient and subject, or "failed" with the error |
| Notifications.EmailParts | backend/notifications.py:97-101 | an e-mail always has the plain part first, and a second (HTML) part iff there is an HTML body |
| Notifications.Channels | backend/notifications.py:184-194 | the result keys are 'sms' iff the phone is truthy and 'email' iff the e-mail is truthy, and nothing else |
| Notifications.HandoffsOrder | backend/notifications.py:184-194 | one template call sends at most one SMS and one e-mail, the SMS first, each to its own address and only when that channel is on and the address truthy |
| Notifications.Take | backend/notifications.py:235 | `s[:n]` is the first `min(|s|, n)` characters |
| Notifications.CriticalSmsBounded | backend/notifications.py:235 | the critical SMS carries at most 100 characters of the reasoning: reasonings that agree on their first 100 characters give the same SMS |
| Notifications.NotificationService.SendSms | backend/notifications.py:40-72 | when SMS is off nothing reaches the transport; otherwise one SMS goes out and the result is `SmsResult` of that delivery |
| Notifications.NotificationService.SendEmail | backend/notifications.py:74-121 | when e-mail is off nothing reaches the transport; otherwise one e-mail with `EmailParts` goes out and the result is `EmailResult` |
| Notifications.NotificationService.SmsLeg | backend/notifications.py:184-188 | the SMS entry, present iff the phone is truthy |
| Notifications.NotificationService.Dispatch | backend/notifications.py:184-194 | the result keys are `Channels`, the outbox grows by `Handoffs`, and each entry is that channel's send result, SMS before e-mail |
| Notifications.NotificationService.SendMedicationReminder | backend/notifications.py:123-194 | dispatches the medication texts, with an HTML body |
| Notifications.NotificationService.SendVitalsCheckReminder | backend/notifications.py:196-227 | dispatches the vitals texts, plain e-mail only |
| Notifications.NotificationService.SendCriticalAlert | backend/notifications.py:229-296 | dispatches to the doctor's phone and e-mail; the SMS carries the first 100 characters of the reasoning, and the e-mail has an HTML body |
| Notifications.NotificationService.SendDietReminder | backend/notifications.py:298-325 | dispatches the diet texts, plain e-mail only |
| Notifications.NotificationService.SendExerciseReminder | backend/notifications.py:327-354 | dispatches the exercise texts, plain e-mail only |
| Scheduler.ParseClock | backend/scheduler.py:31 | reads a time made of two ASCII digit runs around one ':', as `map(int, t.split(':'))` does for the constant times it is given; a parse needs exactly one ':' and gives non-negative numbers |
| Scheduler.SplitOnce | backend/scheduler.py:31 | a text with exactly one separator splits into the text before it and the text after it |
| Scheduler.ParseFormatClock | backend/scheduler.py:31 | reading back a time written "HH:MM" gives its hour and minute |
| Scheduler.MedicationTimesParse | backend/scheduler.py:28-31 | the three medication times parse, to 8:00, 14:00 and 20:00 |
| Scheduler.MedicationJobs | backend/scheduler.py:28-37 | the rounds register exactly three jobs: `medication_08:00`, `medication_14:00` and `medication_20:00`, at those hours |
| Scheduler.JobsForStep | backend/scheduler.py:30-37 | one more time adds or replaces exactly its own job |
| Scheduler.ReRegisterIdempotent | backend/scheduler.py:35-36 | with `replace_existing`, registering the same jobs again leaves the table unchanged |
| Scheduler.ContactPhone | backend/scheduler.py:48-49 | there is a phone iff the contact is a dictionary with a 'phone' key; a missing contact reads as {} |
| Scheduler.Reached | backend/scheduler.py:44-61 | the round reaches every patient before the first contact that is not a dictionary, and stops there |
| Scheduler.RecipientsFiltered | backend/scheduler.py:47-56 | every recipient is a patient with a truthy phone, named "first last"; with no truthy phone there is no recipient |
| Scheduler.ReminderMessages | backend/scheduler.py:51-56 | one SMS per recipient, in order, with the fixed medication text |
| Scheduler.SentStep | backend/scheduler.py:47-56 | one more patient adds exactly that patient's messages at the end, so dispatch follows the patients' order |
| Scheduler.SentAppend | backend/scheduler.py:47-56 | the messages of a round over `xs + [p]` are those of `xs` followed by those of `p` |
| Scheduler.RecipientsAppend | backend/scheduler.py:47-51 | the recipients of `xs + [p]` are those of `xs` followed by `p`'s |
| Scheduler.SentOne | backend/scheduler.py:51-56 | one patient's round is one `send_medication_reminder` with the contact's phone, no e-mail and "Your prescribed medication" |
| Scheduler.ReminderScheduler.constructor | backend/scheduler.py:20-24 | a new scheduler is running and has no jobs |
| Scheduler.ReminderScheduler.ScheduleMedicationReminders | backend/scheduler.py:26-39 | the job table becomes the old one merged with the three medication jobs |
| Scheduler.ReminderScheduler.AddDailyJobs | backend/scheduler.py:30-37 | the loop of `add_job(..., replace_existing=True)` merges `JobsFor(times)` into the table |
| Scheduler.ReminderScheduler.StartAllSchedules | backend/scheduler.py:66-69 | registers the medication rounds |
| Scheduler.ReminderScheduler.Stop | backend/scheduler.py:71-74 | stops the scheduler and keeps the jobs; stopping one that is not running raises |
| Scheduler.ReminderScheduler.SendMedicationReminders | backend/scheduler.py:41-64 | never raises and always closes the session; the round is aborted iff some contact is not a dictionary, and the outbox grows by exactly the reminders of the patients before it |
| Scheduler.ReminderScheduler.RemindAt | backend/scheduler.py:47-56 | reminding patient i extends the round's messages from those of the first i patients to those of the first i + 1 |
| Scheduler.ReminderScheduler.RemindPatient | backend/scheduler.py:48-56 | one pass of the loop body hands over exactly that patient's messages |
| Api.KindOf | backend/main.py:407-442 | only "medication", "vitals", "diet" and "exercise" are types, each mapped to its own template |
| Api.PlanNotification | backend/main.py:389-442 | an unknown patient gives 404 before anything else; the contact is read only for an address the request leaves empty, and reading one that is not a dictionary is the 500; a notification is planned iff the patient exists, no such read fails and the type is known |
| Api.GivenAddressesSkipContact | backend/main.py:400-402 | with a phone and an e-mail in the request the contact is never read, so the notification goes to the request's addresses even when the stored contact is not a dictionary |
| Api.PlanResolvesContact | backend/main.py:400-433 | the addresses are the request's when non-empty, else the contact's; the message is the request's, else "Take your prescribed medication", "Follow your diet plan" or "Complete your exercise routine" |
| Api.NotificationActions | backend/main.py:445-452 | the audit action is "NOTIFICATION_SENT_" followed by the type in capitals |
| Api.Latest | backend/main.py:476-478 | the newest assessment of the patient, and none iff the patient has none |
| Api.GateUsesNewest | backend/main.py:476-481 | the gate looks only at the newest assessment: an older critical one does not open it |
| Api.TriageApi.RegisterPatient | backend/main.py:119-154 | an existing id gives 400 and writes nothing; otherwise the patient is stored and one "PATIENT_REGISTERED" entry is audited by "Admin" |
| Api.TriageApi.SendNotification | backend/main.py:388-463 | 404, 500 (an address read from a contact that is not a dictionary) and 400 send and audit nothing; otherwise the type's template runs and one entry is audited by "System"; the SMS and e-mail switches never change |
| Api.TriageApi.SendByKind | backend/main.py:405-442 | each type calls its own template with the planned addresses and text |
| Api.TriageApi.SendCriticalAlert | backend/main.py:465-513 | success iff the patient exists and the newest assessment is "CRITICAL"; the alert goes to the doctor's addresses and is audited; on failure nothing is sent or audited; the SMS and e-mail switches never change |
| Database.NormalizeUrl | backend/database.py:15-16 | a URL starting with "postgres://" gets that prefix replaced by "postgresql://", the rest unchanged; any other URL is unchanged |
| Database.SchemeIsNotLegacy | backend/database.py:15-16 | "postgresql://" does not start with "postgres://" |
| Database.NormalizeIdempotent | backend/database.py:15-16 | rewriting twice is rewriting once |
| Database.DefaultUrlUnchanged | backend/database.py:12-16 | with no variable set, the URL is the SQLite default, unchanged |
| Database.ConnectArgsFor | backend/database.py:21 | `check_same_thread=False` is passed iff the URL contains "sqlite" |
| Database.DefaultIsSqlite | backend/database.py:12-22 | the default configuration switches same-thread checking off |
| Dashboard.BandMeaning | frontend/app.js:67-81 | with nested thresholds, green is the middle band (or NaN), red the extremes, orange the margins in between |
| Dashboard.HrColor | frontend/app.js:67-70 | green iff 60 ≤ hr ≤ 100 (or NaN); red iff hr < 50 or hr > 110 |
| Dashboard.BpColor | frontend/app.js:72-76 | on the systolic number read by `parseInt`: green iff 100–140 (or NaN); red iff < 90 or > 180 |
| Dashboard.TempColor | frontend/app.js:78-81 | green iff 97 ≤ temp ≤ 101 (or NaN); red iff temp < 95 or temp > 103 |
| Dashboard.VitalColor | frontend/app.js:65-88 | an unknown key is green |
| Dashboard.BloodPressureReadsSystolic | frontend/app.js:73 | for "SYS/…" with a decimal SYS, the systolic value is SYS |
| Dashboard.BpCriticalDigits | frontend/app.js:95 | the prefix test holds iff the first two characters are "90", "80" or "70" |
| Dashboard.CriticalMeansRed | frontend/app.js:93-99 | critical iff the heart-rate tile is red, the bp prefix test holds, or the temperature tile is red |
| Dashboard.TwoDigits | frontend/app.js:73 | the value of a two-digit numeral |
| Dashboard.TwoDigitSystolic | frontend/app.js:73 | the systolic value of "AB/…" is the two-digit number AB |
| Dashboard.BpTile | frontend/app.js:72-76 | the bp colour for a known systolic value |
| Dashboard.RedButNotCritical | frontend/app.js:72-96 | the bp tile and the critical test disagree: "85/60" is red but not critical |
| Dashboard.CriticalButOrange | frontend/app.js:72-96 | "90/60" is critical but only orange |
| Dashboard.LowReadingsAgree | frontend/app.js:72-96 | readings "80/…" and "70/…" are both red and critical |
| Dashboard.LowReadingRed | frontend/app.js:72-76 | "80/…" and "70/…" are red |
| Dashboard.LowReadingCritical | frontend/app.js:95 | "80/…" and "70/…" are critical |
| Dashboard.Escalation | frontend/app.js:357-376 | escalates iff the reason's trimmed length is at least 5, quoting the reason untrimmed; cancelled iff the prompt returned null |
| Dashboard.EscalationIgnoresPadding | frontend/app.js:363 | white space around a reason does not count towards its length |
| Dashboard.Preview | frontend/app.js:394 | the first 50 characters, with "..." appended iff the note is longer than 50 |
| Dashboard.NoteCheckMeaning | frontend/app.js:381-394 | a note is documented iff its trimmed text has at least 10 characters; it is "no note" iff there is no textarea or the text is blank; the preview starts with the trimmed text |
| Dashboard.AdminAcceptsPadded | frontend/app.js:615-617 | the password is accepted with any white space around it, and only the exact password is |
| Dashboard.CappedKeepsNewest | frontend/app.js:195-215 | prepend-then-drop-oldest keeps the on-screen list equal to the newest ten log entries |
| Dashboard.Page.constructor | frontend/app.js:30-41 | an empty audit log, with the on-screen list empty when the page has a log container |
| Dashboard.Page.AddToLog | frontend/app.js:195-215 | the line goes first in the unbounded log and first on screen, and the screen keeps at most ten |
| Dashboard.Page.HandleEscalation | frontend/app.js:357-376 | only an accepted reason is logged, as typed; the on-screen list gets the same line, capped at ten, only when the page has a log container, and is otherwise untouched |
| Dashboard.Page.DocumentNote | frontend/app.js:381-403 | a documented note is logged by its preview and the textarea is cleared; otherwise nothing changes; the on-screen list changes only with a documented note, and only when the page has a log container |
| Dashboard.Page.HandleAdminLogin | frontend/app.js:611-632 | without an input nothing happens; the right password is logged and shows the form; a wrong one clears the input; the on-screen list changes only on the right password, and only when the page has a log container |
| Dashboard.Page.ClearPassword | frontend/app.js:629-631 | a wrong password empties the input and changes nothing else |

## Left out

- Prompt texts, the Gemini client and the model name. The service answers the agent's n-th call with `service(n)`, whatever the prompt says. What the model keeps of the prompts is the `KeyError` a missing vitals key raises while a prompt is built.
- Printing and logging (`print`, `logger`). They have no effect on state.
- `time.time()`/`time.sleep()` as floating point. Time is an exact `real` clock.
- The concurrent use of one agent, or one scheduler, from several threads. There is no lock around the pacing state, and the model is sequential.
- APScheduler internals and the background thread. The job store is a map from id to (hour, minute), and `running` records `start`/`shutdown`.
- MIME assembly, SMTP/Twilio clients and the rendered text of e-mail and HTML bodies. Bodies are kept as the values they are filled from; the SMS texts are modelled.
- The database and sessions. Tables are a map of patients, a sequence of assessments and an append-only audit sequence; commits and rollbacks are not modelled.
- The status-500 path of each endpoint. An unexpected exception inside an endpoint is `InternalError`, without the `"Error: …"` detail text. Exceptions that the notification service's inputs could raise (for example, a `None` reasoning sliced by `reasoning[:100]`) are not modelled: reasoning is a string.
- Assessments with equal `created_at`: `Latest` takes the first one recorded, where the database may return either.
- Contact values that are not strings (a JSON number as a phone, say). Contacts are a map from string to string, or a value that is not a dictionary.
- `track_patient`'s `', '.join(medications)`, which only feeds the prompt. The model does not raise on non-string medications.
- The clock strings (`datetime.now()` in several formats, `getCurrentTimeString()`). They are parameters. Scheduler.ReminderScheduler.SendMedicationReminders takes one time for the whole round, where each `send_medication_reminder` call reads `datetime.now()` again, so the times of one round may differ in the code.
- PyStr.Lower, PyStr.Upper: Python's `lower()`/`upper()` on non-ASCII letters. Only ASCII letters change case.
- JsStr.TrimStart, JsStr.TrimEnd: JavaScript strings are UTF-16. Lengths are counted in code points here, so `trim().length` differs for text outside the Basic Multilingual Plane.
- Dashboard.Preview: `substring(0, 50)` and `.length > 50` count UTF-16 code units in JavaScript and code points here, so the cut and the "..." differ for text outside the Basic Multilingual Plane.
- Dashboard.NoteCheck: the 10-character minimum is counted in code points here and in UTF-16 code units in JavaScript.
- Dashboard.Escalation: the 5-character minimum is counted in code points here and in UTF-16 code units in JavaScript.
- Scheduler.ParseClock: Python's `int()` also accepts a sign, surrounding white space, `_` between digits and non-ASCII digits ("-1:00" gives (-1, 0)); the model reads only ASCII digit runs, which covers the three constant medication times.
- JsStr.ParseInt: `parseInt` returns a double, and very long numerals lose precision; here the value is exact. Negative numerals are covered only by `ParseIntMinus`.
- The dashboard's DOM handling beyond the state above: `alert`/`confirm`/`prompt` dialogs, element creation and styles, intervals, `updateVitalsUI`, `updateRiskIndicator`, `analyzePatientCondition`, `handlePatientRegistration` and the modal handlers.
- `fetchPatientData`: it refers to an undefined `mockVitals` (frontend/app.js:272).
- The log container's starting content. `Page.Valid` assumes it mirrors the newest ten log entries, as it does when the page starts empty.
- backend/models.py, backend/config.py, the FastAPI routing, CORS and the other endpoints.
- The commented-out earlier copies of the agent (backend/agent.py:1-759) are dead code.
