/**
 The student router as the program runs it: an object holding the record
 store's three tables, the clock that stamps rows, the socket server the
 server hands over, the events emitted and the webhook posts made. Each
 route handler updates these step by step, in the order the route does,
 and is proved to end in the state and response its specification in
 module Handlers gives.
 */
module StudentRoutes {
  import opened Records
  import opened Evaluator
  import opened Tables
  import opened Handlers

  class Router {
    var students: map<StudentId, Student>
    var logs: seq<DailyLog>
    var interventions: seq<Intervention>
    var clock: nat
    var events: seq<Event>
    var webhookCalls: seq<WebhookPayload>
    /** Whether setSocketIO has handed over the socket server. */
    var io: bool
    /** The configured webhook URL, read from the process environment. */
    const webhookUrl: Option<string>

    function Snapshot(): State
      reads this
    {
      State(students, logs, interventions, clock, events, webhookCalls)
    }

    function Environment(): Env
      reads this
    {
      Env(io, webhookUrl)
    }

    ghost predicate Valid()
      reads this
    {
      WellFormed(Snapshot())
    }

    /** A router over a store whose students were created beforehand and whose other tables are empty. */
    constructor (seed: map<StudentId, Student>, webhookUrl: Option<string>)
      requires forall k :: k in seed ==> seed[k].id == k
      ensures Valid()
      ensures Snapshot() == State(seed, [], [], 0, [], [])
      ensures !io && this.webhookUrl == webhookUrl
    {
      students := seed;
      logs := [];
      interventions := [];
      clock := 0;
      events := [];
      webhookCalls := [];
      io := false;
      this.webhookUrl := webhookUrl;
    }

    /** setSocketIO: from now on events reach the student channels. */
    method SetSocketIO()
      modifies this`io
      ensures io
    {
      io := true;
    }

    // ------------------------------------------------------------ store operations

    method InsertLogRow(sid: StudentId, quizScore: int, focusMinutes: int, tabSwitched: bool, success: bool)
      returns (log: DailyLog)
      modifies this`logs, this`clock
      ensures (Snapshot(), log) == InsertLog(old(Snapshot()), sid, quizScore, focusMinutes, tabSwitched, success)
    {
      log := DailyLog(|logs| + 1, sid, quizScore, focusMinutes, tabSwitched, success, clock);
      logs := logs + [log];
      clock := clock + 1;
    }

    method InsertInterventionRow(sid: StudentId, reason: string, quizScore: int, focusMinutes: int)
      returns (iv: Intervention)
      modifies this`interventions, this`clock
      ensures (Snapshot(), iv) == InsertIntervention(old(Snapshot()), sid, reason, quizScore, focusMinutes)
    {
      iv := Intervention(|interventions| + 1, sid, reason, quizScore, focusMinutes,
                         None, None, None, false, None, clock);
      interventions := interventions + [iv];
      clock := clock + 1;
    }

    method UpdateStatus(sid: StudentId, status: Status)
      modifies this`students
      ensures Snapshot() == SetStatus(old(Snapshot()), sid, status)
    {
      if sid in students {
        students := students[sid := students[sid].(status := status)];
      }
    }

    method UpdateAssignment(k: nat, task: string, assigner: string) returns (iv: Intervention)
      requires k < |interventions|
      modifies this`interventions, this`clock
      ensures (Snapshot(), iv) == AssignRow(old(Snapshot()), k, task, assigner)
    {
      iv := interventions[k].(assignedTask := Some(task), assignedBy := Some(assigner), assignedAt := Some(clock));
      interventions := interventions[k := iv];
      clock := clock + 1;
    }

    method UpdateCompleted(k: nat) returns (iv: Intervention)
      requires k < |interventions|
      modifies this`interventions, this`clock
      ensures (Snapshot(), iv) == CompleteRow(old(Snapshot()), k)
    {
      iv := interventions[k].(completed := true, completedAt := Some(clock));
      interventions := interventions[k := iv];
      clock := clock + 1;
    }

    /** Emit to a student's channel, allowed only once the announced status is stored. */
    method EmitTo(e: Event)
      requires Committed(Snapshot(), e)
      modifies this`events
      ensures Snapshot() == Emit(old(Snapshot()), Environment(), e)
    {
      if io {
        events := events + [e];
      }
    }

    /**
     Post to the webhook. Whatever the delivery does, the failure is only
     reported in the returned outcome, which the caller logs and drops.
     */
    method TriggerWebhook(payload: WebhookPayload, delivery: Delivery) returns (outcome: WebhookOutcome)
      modifies this`webhookCalls
      ensures Snapshot() == Notify(old(Snapshot()), Environment(), payload)
      ensures outcome == if !WebhookConfigured(Environment()) then NotConfigured
                         else if delivery.Delivered? then Sent
                         else SendFailed(delivery.error)
    {
      if Given(webhookUrl) {
        webhookCalls := webhookCalls + [payload];
        outcome := if delivery.Delivered? then Sent else SendFailed(delivery.error);
      } else {
        outcome := NotConfigured;
      }
    }

    // ------------------------------------------------------------ routes

    /** GET /student-status/:studentId: the student and the newest open intervention, or none. */
    method StudentStatus(sid: StudentId) returns (r: Response)
      requires Valid()
      ensures sid !in students ==> r == NotFound(StudentNotFound)
      ensures sid in students ==> r.StatusView? && r.student == students[sid]
      ensures r.StatusView? ==> (r.open.None? <==> NoOpen(interventions, sid))
      ensures r.StatusView? && r.open.Some? ==>
                r.open.value in interventions && IsOpenFor(r.open.value, sid)
                && forall j :: 0 <= j < |interventions| && IsOpenFor(interventions[j], sid) ==>
                     interventions[j].createdAt <= r.open.value.createdAt
    {
      if sid !in students {
        return NotFound(StudentNotFound);
      }
      var k := Newest(interventions, OpenOf(sid));
      NewestOpenIsLatest(Snapshot(), sid);
      r := StatusView(students[sid], if k.Some? then Some(interventions[k.value]) else None);
    }

    /** GET /student-by-email/:email: found only when exactly one student has that email. */
    method StudentByEmail(email: string) returns (r: Response)
      ensures r.StudentView? <==> |set k | k in students && students[k].email == email| == 1
      ensures r.StudentView? ==> r.student in students.Values && r.student.email == email
      ensures !r.StudentView? ==> r == NotFound(StudentNotFound)
    {
      var matching := set k | k in students && students[k].email == email;
      if |matching| == 1 {
        var k :| k in matching;
        r := StudentView(students[k]);
      } else {
        r := NotFound(StudentNotFound);
      }
    }

    /**
     POST /daily-checkin. The delivery outcome of the webhook does not
     appear in the specification: the response and the new state are the
     same whatever it is.
     */
    method DailyCheckin(req: CheckinRequest, faults: Faults, delivery: Delivery) returns (r: Response)
      requires Valid()
      modifies this
      ensures Valid() && io == old(io)
      ensures (Snapshot(), r) == CheckIn(old(Snapshot()), old(Environment()), req, faults)
    {
      CheckInKeepsWellFormed(Snapshot(), Environment(), req, faults);
      if !Given(req.studentId) || req.quizScore.None? || req.focusMinutes.None? {
        return BadRequest(MissingCheckinFields);
      }
      var sid, q, f := req.studentId.value, req.quizScore.value, req.focusMinutes.value;
      var tab := TabOf(req);
      if q < MinScore || q > MaxScore {
        return BadRequest(ScoreOutOfRange);
      }
      if sid !in students {
        return NotFound(StudentNotFound);
      }
      if faults.logInsertFails {
        return Thrown(LogInsertFailed);
      }
      r := RecordCheckin(students[sid], sid, q, f, tab, faults.interventionInsertFails, delivery);
    }

    /** The check-in of a known student from the log insert on: the verdict is stored, then the lock. */
    method RecordCheckin(student: Student, sid: StudentId, q: int, f: int, tab: bool, insertFails: bool,
                         delivery: Delivery) returns (r: Response)
      modifies this`logs, this`clock, this`students, this`interventions, this`events, this`webhookCalls
      ensures (Snapshot(), r) == Record(old(Snapshot()), Environment(), student, sid, q, f, tab, insertFails)
    {
      var meets := MeetsThreshold(q, f, tab);
      var log := InsertLogRow(sid, q, f, tab, meets);
      if meets {
        UpdateStatus(sid, Active);
        return OnTrack(log);
      }
      UpdateStatus(sid, NeedsIntervention);
      r := EscalateCheckin(student, sid, q, f, tab, log, insertFails, delivery);
    }

    /** A failing check-in once the lock is stored: the intervention, the webhook post, the event. */
    method EscalateCheckin(student: Student, sid: StudentId, q: int, f: int, tab: bool, log: DailyLog,
                           insertFails: bool, delivery: Delivery) returns (r: Response)
      requires sid in students ==> students[sid].status == NeedsIntervention
      requires !MeetsThreshold(q, f, tab)
      modifies this`clock, this`interventions, this`events, this`webhookCalls
      ensures (Snapshot(), r) == Escalate(old(Snapshot()), Environment(), student, sid, q, f, tab, log, insertFails)
    {
      var reason := FailureReason(q, f, tab);
      if insertFails {
        return Thrown(InterventionInsertFailed);
      }
      var iv := InsertInterventionRow(sid, reason, q, f);
      var _ := TriggerWebhook(WebhookPayload(student.id, student.name, student.email,
                                             q, f, tab, reason, iv.id, clock), delivery);
      EmitTo(Event(sid, StatusChanged, StatusWith(NeedsIntervention, iv)));
      r := PendingMentorReview(log, iv);
    }

    /** POST /assign-intervention. */
    method AssignIntervention(req: AssignRequest) returns (r: Response)
      requires Valid()
      modifies this
      ensures Valid() && io == old(io)
      ensures (Snapshot(), r) == Assign(old(Snapshot()), old(Environment()), req)
    {
      AssignKeepsWellFormed(Snapshot(), Environment(), req);
      if !GivenId(req.interventionId) || !Given(req.assignedTask) {
        return BadRequest(MissingAssignFields);
      }
      var assigner := req.assignedBy.GetOr(DefaultAssigner);
      var found := Newest(interventions, IdIs(req.interventionId.value));
      if found.None? {
        return NotFound(InterventionNotFound);
      }
      var iv := UpdateAssignment(found.value, req.assignedTask.value, assigner);
      UpdateStatus(iv.studentId, Remedial);
      EmitTo(Event(iv.studentId, InterventionAssigned, StatusWith(Remedial, iv)));
      r := Assigned(iv);
    }

    /** POST /complete-intervention. */
    method CompleteIntervention(req: CompleteRequest) returns (r: Response)
      requires Valid()
      modifies this
      ensures Valid() && io == old(io)
      ensures (Snapshot(), r) == Complete(old(Snapshot()), old(Environment()), req)
    {
      CompleteKeepsWellFormed(Snapshot(), Environment(), req);
      if !Given(req.studentId) || !GivenId(req.interventionId) {
        return BadRequest(MissingCompleteFields);
      }
      var sid := req.studentId.value;
      var found := Newest(interventions, IdAndOwner(req.interventionId.value, sid));
      if found.None? {
        return NotFound(InterventionNotFound);
      }
      var iv := UpdateCompleted(found.value);
      UpdateStatus(sid, Active);
      EmitTo(Event(sid, InterventionCompleted, StatusOnly(Active)));
      r := Completed(iv);
    }
  }
}
