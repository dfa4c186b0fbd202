# Student status state machine of the intervention engine

This project models the decision core of the intervention engine's student router
(`backend/src/routes/student.js`). The core has four parts:

- **The daily check-in logic gate.** A check-in passes when the quiz score is above 7, the focus time is above 60 minutes and no tab switch happened.
- **The failure reason.** A failed check-in gets a reason chosen in a fixed priority order.
- **The intervention lifecycle.** A failed check-in locks the student (`needs_intervention`) and opens an intervention. A mentor's assignment moves the student to `remedial`. Completing the intervention makes the student `active` again.
- **The fan-out.** A failing check-in, an assignment and a completion each emit one event to the student's own channel, once the socket server has been handed over. A passing check-in emits nothing.

The model is split into six files:

- `evaluator.dfy` (module `Evaluator`): the verdict and the failure reason, as pure functions.
- `records.dfy` (module `Records`): students, daily logs, interventions, events, the webhook payload, request bodies and responses, with the route's literal messages.
- `tables.dfy` (module `Tables`): the record store as a value. It holds the three tables, a clock that stamps rows, the emitted events and the webhook posts. It also gives the store operations the routes use (insert, update by filter, select newest by filter), the well-formedness of a store, and the lifecycle invariant.
- `handlers.dfy` (module `Handlers`): the `daily-checkin`, `assign-intervention` and `complete-intervention` routes as functions from a store to a store and a response. Each follows the route's steps in order. The check-in is staged: `CheckIn` validates and looks the student up, `Record` stores the log and applies the verdict, `Escalate` opens the intervention, posts the webhook and emits. Lemmas show each route keeps the store well-formed.
- `lifecycle.dfy` (module `Lifecycle`): what the routes promise. This covers rejected requests, the success and failure paths, the assignment and the completion, the full cycle, and where the lifecycle invariant is and is not kept.
- `router.dfy` (module `StudentRoutes`): class `Router`. Its fields are the tables, the clock, the event log, the webhook outbox and the socket server handle set by `setSocketIO`. Its methods perform each route's writes one by one; the check-in's tail is split into `RecordCheckin` and `EscalateCheckin`, mirroring `Handlers.Record` and `Handlers.Escalate`. Each writing method is proved to end in exactly the state and response of its function in `Handlers`. The two read-only routes (`student-status`, `student-by-email`) state their results directly.

Modelling choices:

- **Ids.** Student ids are strings. Row ids are numbered from 1 in insertion order. A request field counts as missing when it is absent. For `student_id`, `assigned_task` and the row ids, the route tests JavaScript falsiness, so an empty string or a zero row id counts as missing too. `quiz_score` and `focus_minutes` are only tested for absence, so a score or focus time of 0 is accepted.
- **Timestamps.** `created_at`, `assigned_at` and `completed_at` come from a counter. Every stamping write advances it.
- **Webhook.** `daily-checkin` takes the webhook's delivery outcome as a parameter. The spec function `Handlers.CheckIn` has no such parameter, and `Router.DailyCheckin` is proved equal to it for every outcome. So the outcome can change neither the response nor the stored state.
- **Write before emit.** `Tables.Emit` and `Router.EmitTo` require that the student's stored status already equals the status the event announces. Every emit in the model is therefore proved to come after the status write it reports.
- **Store failures.** A failed insert into `daily_logs` or `interventions` is a `Faults` parameter. The route throws in that case, and the model answers `Thrown` with the route's message.

## Where the code departs from the intended lifecycle

The model follows the code in each of these cases:

- **No check for an open intervention.** A failed check-in inserts an intervention without looking for one already open. A student who is locked and fails again gets a second open intervention (`Lifecycle.FailingAgainWhileLockedOpensSecond`). A passing check-in while locked makes the student `active` while an intervention is still open (`Lifecycle.PassingWhileLockedLeavesOpen`). Only the client's lock screen prevents these. The invariant is proved only for check-ins that arrive while the student is `active` (`Lifecycle.CheckInWhileActiveKeepsLock`).
- **Completed interventions are not refused.** `assign-intervention` and `complete-intervention` do not test `completed`. A second completion succeeds instead of failing (`Lifecycle.SecondCompletionSucceeds`). Re-completing an old intervention can unlock a student whose newer intervention is still open (`Lifecycle.RecompletingUnlocksWithOpenIntervention`).
- **No rollback.** When the intervention insert fails, the daily log and the `needs_intervention` status already written stay in place (`Lifecycle.InterventionInsertFailureKeepsEarlierWrites`).

## Model

| member | source | states |
|---|---|---|
| `Evaluator.MeetsThreshold` | backend/src/routes/student.js:82-84 | The logic gate. A tab switch fails whatever the score and focus time. A score of at most 7 or a focus time of at most 60 minutes fails. |
| `Evaluator.FailureReason` | backend/src/routes/student.js:127-136 | Every failing check-in gets a non-empty reason. The tab-switch text goes exactly to tab switches. The "both below" text goes exactly to no switch with score ≤ 7 and focus ≤ 60. The "quiz score" text goes exactly to no switch with score ≤ 7 and focus > 60. The "focus time" text goes exactly to no switch with score > 7 and focus ≤ 60. |
| `Evaluator.VerdictExact` | backend/src/routes/student.js:82-84 | A check-in passes exactly when the score is at least 8, the focus time is at least 61 minutes and there was no tab switch. |
| `Evaluator.VerdictBoundaries` | backend/src/routes/student.js:84 | Score 7 fails and focus 60 fails, each with the matching reason. A tab switch fails even with score 10 and 120 minutes, with the tab-switch reason. Score 8 with 61 minutes passes. |
| `Evaluator.VerdictMonotone` | backend/src/routes/student.js:84 | Raising the score or the focus time never turns a pass into a failure. |
| `Tables.Newest` | backend/src/routes/student.js:33-40 | Selecting by a filter returns the last row the filter selects, with no selected row after it. It returns nothing exactly when no row is selected. |
| `Tables.InsertLog` | backend/src/routes/student.js:87-97 | The daily_logs insert appends exactly one row, with the next id, the current time and the given values. Nothing else changes except the clock. |
| `Tables.InsertIntervention` | backend/src/routes/student.js:138-147 | The interventions insert appends exactly one row, with the next id and the current time. It is open and unassigned and carries the reason and the snapshot. Nothing else changes except the clock. |
| `Tables.AssignRow` | backend/src/routes/student.js:210-219 | The assignment update replaces one row. Only its task, its assigner and its stamp change. Nothing else changes except the clock. |
| `Tables.CompleteRow` | backend/src/routes/student.js:262-271 | The completion update replaces one row. Only `completed` (now true) and its stamp change. Nothing else changes except the clock. |
| `Tables.Emit` | backend/src/routes/student.js:179-185 | Emitting appends the event exactly when the socket server is set, and changes nothing else. The appended event announces the status already stored for its student. |
| `Tables.Notify` | backend/src/routes/student.js:153-177 | The webhook post is recorded exactly when a URL is configured, and changes nothing else. |
| `Tables.SetStatus` | backend/src/routes/student.js:121-124 | Updating a student's status changes only that student's status. An unknown id matches no row and changes nothing. |
| `Tables.NewestById` | backend/src/routes/student.js:210-219 | In a well-formed store, the update filter on an intervention id matches row id − 1 exactly when that row exists. |
| `Tables.NewestByIdAndOwner` | backend/src/routes/student.js:262-271 | The filter on id and student id matches only when the row exists and belongs to that student. |
| `Tables.NewestOpenIsLatest` | backend/src/routes/student.js:33-40 | The open intervention found has the latest `created_at` of all the student's open interventions. |
| `Handlers.CheckIn` | backend/src/routes/student.js:50-196 | The response is a 400 exactly when fields are missing or the score is out of range. A 400 or 404 writes nothing. No student is added or removed. At most one log is appended, and one is appended on every success. An intervention is appended exactly when the answer is "Pending Mentor Review". |
| `Handlers.Record` | backend/src/routes/student.js:86-196 | One log is appended, with `success` equal to the verdict. The answer is "On Track" exactly on a pass. The student becomes `active` on a pass and `needs_intervention` on a failure. |
| `Handlers.Escalate` | backend/src/routes/student.js:126-195 | The request throws exactly when the intervention insert fails. Otherwise one intervention is appended and returned, with the reason the check-in earns and the log. Students and logs are untouched. |
| `Handlers.Assign` | backend/src/routes/student.js:199-248 | Logs and webhook posts never change, and no row or student is added. A request not answered with the assigned row changes nothing. The assigned row is the requested one and carries the requested task. |
| `Handlers.Complete` | backend/src/routes/student.js:251-298 | Logs and webhook posts never change, and no row or student is added. A request not answered with the completed row changes nothing. The completed row is the requested one and belongs to the requesting student. |
| `Handlers.SetStatusKeepsWellFormed` | backend/src/routes/student.js:121-124 | A status update keeps the store well-formed. |
| `Handlers.InsertLogKeepsWellFormed` | backend/src/routes/student.js:86-97 | A daily log is stored with its verdict computed from its own score, focus time and tab flag. |
| `Handlers.InsertInterventionKeepsWellFormed` | backend/src/routes/student.js:126-147 | An intervention is stored with a failing snapshot and the reason that snapshot earns. |
| `Handlers.EscalateKeepsWellFormed` | backend/src/routes/student.js:126-185 | Opening the intervention of a failing check-in, posting the webhook and emitting keep the store well-formed. |
| `Handlers.RecordKeepsWellFormed` | backend/src/routes/student.js:86-185 | Storing the log and applying the verdict keep the store well-formed on both the passing and the failing path. |
| `Handlers.CheckInKeepsWellFormed` | backend/src/routes/student.js:50-196 | Every check-in, accepted or rejected, keeps the store well-formed: ids in row order, stamps before the clock, consistent logs and interventions. |
| `Handlers.AssignKeepsWellFormed` | backend/src/routes/student.js:199-248 | Every assignment keeps the store well-formed. |
| `Handlers.CompleteKeepsWellFormed` | backend/src/routes/student.js:251-298 | Every completion keeps the store well-formed. |
| `Lifecycle.OpenedBy` | backend/src/routes/student.js:138-147 | The intervention a failure opens has a non-empty reason, is not completed and has no assigned task. |
| `Lifecycle.RejectedCheckInChangesNothing` | backend/src/routes/student.js:53-80 | Each of these leaves the store, events and webhook posts unchanged: missing `student_id`, `quiz_score` or `focus_minutes` (400), a score outside [0,10] (400), an unknown student (404). |
| `Lifecycle.AcceptedCheckInWritesOneLog` | backend/src/routes/student.js:86-101 | An accepted check-in for a known student appends exactly one daily log carrying the request's values, with `success` equal to the verdict. If that insert fails, the request fails and nothing changes. |
| `Lifecycle.PassingCheckIn` | backend/src/routes/student.js:103-117 | On a pass, the student becomes `active`. No intervention, event or webhook post follows. The response is "On Track" with the new log. |
| `Lifecycle.FailingCheckIn` | backend/src/routes/student.js:119-195 | On a failure, the student becomes `needs_intervention`. Exactly one intervention is appended, with the student, the reason, the snapshot and `completed = false`. When a URL is configured, the webhook gets exactly one post: the student's id, name and email, the score, the focus time, the tab flag, the reason, the intervention id and the time. `status_changed` is emitted after the status is stored. The response is "Pending Mentor Review" with the log and the intervention. |
| `Lifecycle.InterventionInsertFailureKeepsEarlierWrites` | backend/src/routes/student.js:119-151 | If the intervention insert fails, the request fails. The new log and the status change remain, with no intervention, event or post. |
| `Lifecycle.CheckInWhileActiveKeepsLock` | backend/src/routes/student.js:119-151 | A check-in for an active student keeps the invariant: at most one open intervention per student, and none for an active student. |
| `Lifecycle.FailingAgainWhileLockedOpensSecond` | backend/src/routes/student.js:138-151 | A second failing check-in while locked opens a second intervention for the same student. |
| `Lifecycle.PassingWhileLockedLeavesOpen` | backend/src/routes/student.js:103-117 | A passing check-in while locked makes the student active while an intervention is still open. |
| `Lifecycle.RejectedAssignChangesNothing` | backend/src/routes/student.js:202-226 | A missing `intervention_id` or `assigned_task` gives 400. An unknown intervention gives 404. Neither changes anything. |
| `Lifecycle.AssignOutcome` | backend/src/routes/student.js:209-248 | Only the named intervention changes: it gets the task, the assigner ("Mentor" by default) and a stamp. Its student becomes `remedial`. `intervention_assigned` goes to that student's channel. Logs and webhook posts are unchanged. The response carries the updated row. |
| `Lifecycle.AssignKeepsLock` | backend/src/routes/student.js:209-241 | No assignment breaks the lifecycle invariant. |
| `Lifecycle.RejectedCompleteChangesNothing` | backend/src/routes/student.js:254-278 | A missing field gives 400. An unknown intervention, or one owned by another student, gives 404. Neither changes anything. |
| `Lifecycle.CompleteOutcome` | backend/src/routes/student.js:261-298 | Completing one's own intervention marks only that row completed and stamps it. The student becomes `active`. `intervention_completed` is emitted with the status only. Logs and webhook posts are unchanged. Whether the row was already completed is not examined. |
| `Lifecycle.CompletingOpenInterventionKeepsLock` | backend/src/routes/student.js:261-284 | Completing the student's open intervention keeps the invariant and leaves the student with none open. |
| `Lifecycle.SecondCompletionSucceeds` | backend/src/routes/student.js:262-278 | Repeating a successful completion succeeds again. |
| `Lifecycle.RecompletingUnlocksWithOpenIntervention` | backend/src/routes/student.js:262-284 | Re-completing an old intervention unlocks a student whose new intervention is open. |
| `Lifecycle.CheckInLocks` | backend/src/routes/student.js:119-195 | A failing check-in of an active student keeps the store well-formed and the invariant, appends exactly the intervention it opens, locks the student, answers "Pending Mentor Review" with that intervention and emits `status_changed` when the socket server is set. |
| `Lifecycle.AssignThenComplete` | backend/src/routes/student.js:199-298 | Assigning a task to a student's open intervention and then completing it: the response rows carry the task, the default assigner and then the completion; the student is `remedial`, then `active`; no intervention of the student stays open; the invariant holds; the channel gets `intervention_assigned` then `intervention_completed`. |
| `Lifecycle.InterventionCycle` | backend/src/routes/student.js:119-298 | An active student runs the full cycle: fail, assign, complete. The statuses are `needs_intervention`, then `remedial`, then `active`. One intervention is added, and it ends assigned and completed. No intervention stays open, the invariant holds, and the channel gets the three events in order. |
| `StudentRoutes.Router.SetSocketIO` | backend/src/routes/student.js:9-12 | After the hand-over, events reach the channels. |
| `StudentRoutes.Router.InsertLogRow` | backend/src/routes/student.js:87-97 | The daily_logs insert on the object equals the store's insert. |
| `StudentRoutes.Router.InsertInterventionRow` | backend/src/routes/student.js:138-147 | The interventions insert on the object equals the store's insert. |
| `StudentRoutes.Router.UpdateStatus` | backend/src/routes/student.js:121-124 | The status update on the object equals the store's update by id. |
| `StudentRoutes.Router.UpdateAssignment` | backend/src/routes/student.js:210-219 | The assignment update on the object equals the store's row update. |
| `StudentRoutes.Router.UpdateCompleted` | backend/src/routes/student.js:262-271 | The completion update on the object equals the store's row update. |
| `StudentRoutes.Router.EmitTo` | backend/src/routes/student.js:179-185 | An event may be emitted only after its status is stored. Without a socket server, nothing is emitted. |
| `StudentRoutes.Router.TriggerWebhook` | backend/src/routes/student.js:153-177 | A post is recorded only when a URL is configured. A failed delivery shows up only in the returned outcome, which the route drops. |
| `StudentRoutes.Router.StudentStatus` | backend/src/routes/student.js:15-47 | Unknown student gives 404. Otherwise the student and the newest open intervention (latest `created_at`), or none exactly when the student has no open intervention. |
| `StudentRoutes.Router.StudentByEmail` | backend/src/routes/student.js:301-321 | A student is returned exactly when one student has that email. Otherwise 404. |
| `StudentRoutes.Router.DailyCheckin` | backend/src/routes/student.js:50-196 | Performed step by step, it ends in the state and response of `Handlers.CheckIn`, whatever the webhook delivery does. It keeps the store well-formed. |
| `StudentRoutes.Router.RecordCheckin` | backend/src/routes/student.js:86-124 | From the log insert on, the writes end in the state and response of `Handlers.Record`. |
| `StudentRoutes.Router.EscalateCheckin` | backend/src/routes/student.js:126-195 | Once the lock is stored, the intervention insert, the webhook post and the event end in the state and response of `Handlers.Escalate`, whatever the delivery does. |
| `StudentRoutes.Router.AssignIntervention` | backend/src/routes/student.js:199-248 | It ends in the state and response of `Handlers.Assign` and keeps the store well-formed. |
| `StudentRoutes.Router.CompleteIntervention` | backend/src/routes/student.js:251-298 | It ends in the state and response of `Handlers.Complete` and keeps the store well-formed. |

## Left out

- The Supabase client and its connection test are foreign library calls. They are replaced by the in-memory store of `tables.dfy`. The route ignores the result of its status updates, and in the model those updates cannot fail.
- Webhook HTTP delivery (the POST, its 5-second timeout, network errors) is reduced to a delivery outcome parameter and a record of the payload posted. Console logging of the outcome is not modelled.
- Socket.IO rooms, connections and delivery to connected clients are transport. Fan-out is an append to one event log, keyed by the student id as channel. At-most-once delivery is not modelled.
- Express wiring, CORS, request logging and server start-up are I/O. `middleware/errorHandler.js` is not part of this model: a thrown error is the response `Thrown(message)`, and the HTTP answer the middleware gives is not modelled. The fixed success messages are not modelled either.
- The React client, the tab-visibility hook and the API wrapper are presentation. The client's lock screen keeps locked students from checking in, and that gate is what the lifecycle invariant relies on. It is not modelled.
- Wall-clock timestamps are replaced by a counter.
- Concurrent requests for the same student are a concurrency concern. The model is sequential.
- Scores and focus times are integers, because the client sends whole numbers. JavaScript's fractional numbers, non-numeric values and `null` fields are not modelled. A field is either present or absent.
- `.single()` on several matching rows is not reachable for interventions, because row ids are unique. It is modelled only where it can happen: the email lookup.
