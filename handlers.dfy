/**
 The three writing routes of the student router as functions from the
 store before the request to the store after it and the response. Each
 follows its handler step by step: validation, the store reads, the
 writes in their order, the webhook and the event.
 */
module Handlers {
  import opened Records
  import opened Evaluator
  import opened Tables

  /** The check-in names a student, a score and a focus time, and the score is in range. */
  predicate CheckinAccepted(req: CheckinRequest)
  {
    Given(req.studentId) && req.quizScore.Some? && req.focusMinutes.Some?
    && MinScore <= req.quizScore.value <= MaxScore
  }

  /** The tab-switch flag of a check-in, false when absent. */
  function TabOf(req: CheckinRequest): bool
  {
    req.tabSwitched.GetOr(false)
  }

  /**
   POST /daily-checkin: validation and the student lookup, then the
   recording. No student is added or removed; a rejected check-in writes
   nothing; at most one log and at most one intervention are appended, and
   an intervention exactly when the answer is "Pending Mentor Review".
   */
  function CheckIn(s: State, env: Env, req: CheckinRequest, faults: Faults): (r: (State, Response))
    ensures r.1.BadRequest? <==> !CheckinAccepted(req)
    ensures r.1.BadRequest? || r.1.NotFound? ==> r.0 == s
    ensures r.0.students.Keys == s.students.Keys
    ensures s.logs <= r.0.logs && |r.0.logs| <= |s.logs| + 1
    ensures r.1.OnTrack? || r.1.PendingMentorReview? ==> |r.0.logs| == |s.logs| + 1
    ensures s.interventions <= r.0.interventions
    ensures |r.0.interventions| == |s.interventions| + (if r.1.PendingMentorReview? then 1 else 0)
  {
    if !Given(req.studentId) || req.quizScore.None? || req.focusMinutes.None? then
      (s, BadRequest(MissingCheckinFields))
    else
      var sid, q, f := req.studentId.value, req.quizScore.value, req.focusMinutes.value;
      var tab := TabOf(req);
      if q < MinScore || q > MaxScore then (s, BadRequest(ScoreOutOfRange))
      else if sid !in s.students then (s, NotFound(StudentNotFound))
      else if faults.logInsertFails then (s, Thrown(LogInsertFailed))
      else Record(s, env, s.students[sid], sid, q, f, tab, faults.interventionInsertFails)
  }

  /**
   A check-in of a known student from the log insert on: the log carries
   the verdict, then the student is unlocked or locked.
   */
  function Record(s: State, env: Env, student: Student, sid: StudentId, q: int, f: int, tab: bool,
                  interventionInsertFails: bool): (r: (State, Response))
    ensures s.logs <= r.0.logs && |r.0.logs| == |s.logs| + 1
    ensures r.0.logs[|s.logs|].success == MeetsThreshold(q, f, tab)
    ensures r.1.OnTrack? <==> MeetsThreshold(q, f, tab)
    ensures r.0.students.Keys == s.students.Keys
    ensures sid in s.students ==>
              r.0.students[sid].status == if MeetsThreshold(q, f, tab) then Active else NeedsIntervention
  {
    var meets := MeetsThreshold(q, f, tab);
    var (s1, log) := InsertLog(s, sid, q, f, tab, meets);
    if meets then (SetStatus(s1, sid, Active), OnTrack(log))
    else Escalate(SetStatus(s1, sid, NeedsIntervention), env, student, sid, q, f, tab, log, interventionInsertFails)
  }

  /**
   A failing check-in once the student's lock is stored: the intervention
   with its reason, the webhook post, then the status_changed event.
   */
  function Escalate(s: State, env: Env, student: Student, sid: StudentId, q: int, f: int, tab: bool,
                    log: DailyLog, insertFails: bool): (r: (State, Response))
    requires sid in s.students ==> s.students[sid].status == NeedsIntervention
    requires !MeetsThreshold(q, f, tab)
    ensures r.1.Thrown? <==> insertFails
    ensures r.0.students == s.students && r.0.logs == s.logs
    ensures s.interventions <= r.0.interventions
    ensures |r.0.interventions| == |s.interventions| + (if insertFails then 0 else 1)
    ensures r.1.PendingMentorReview? ==>
              r.1.log == log && r.1.intervention == r.0.interventions[|s.interventions|]
              && r.1.intervention.reason == FailureReason(q, f, tab)
  {
    var reason := FailureReason(q, f, tab);
    if insertFails then (s, Thrown(InterventionInsertFailed))
    else
      var (s1, iv) := InsertIntervention(s, sid, reason, q, f);
      var s2 := Notify(s1, env, WebhookPayload(student.id, student.name, student.email,
                                               q, f, tab, reason, iv.id, s1.clock));
      (Emit(s2, env, Event(sid, StatusChanged, StatusWith(NeedsIntervention, iv))), PendingMentorReview(log, iv))
  }

  /**
   POST /assign-intervention (the mentor automation's callback). Only the
   interventions, a status and the events change, and a request that is
   not answered with the assigned row changes nothing.
   */
  function Assign(s: State, env: Env, req: AssignRequest): (r: (State, Response))
    ensures r.0.logs == s.logs && r.0.webhookCalls == s.webhookCalls
    ensures r.0.students.Keys == s.students.Keys && |r.0.interventions| == |s.interventions|
    ensures !r.1.Assigned? ==> r.0 == s
    ensures r.1.Assigned? ==>
              r.1.intervention in r.0.interventions && r.1.intervention.assignedTask == req.assignedTask
              && req.interventionId == Some(r.1.intervention.id)
  {
    if !GivenId(req.interventionId) || !Given(req.assignedTask) then
      (s, BadRequest(MissingAssignFields))
    else
      var assigner := req.assignedBy.GetOr(DefaultAssigner);
      match Newest(s.interventions, IdIs(req.interventionId.value))
      case None => (s, NotFound(InterventionNotFound))
      case Some(k) =>
        var (s1, iv) := AssignRow(s, k, req.assignedTask.value, assigner);
        assert s1.interventions[k] == iv;
        var s2 := SetStatus(s1, iv.studentId, Remedial);
        (Emit(s2, env, Event(iv.studentId, InterventionAssigned, StatusWith(Remedial, iv))), Assigned(iv))
  }

  /**
   POST /complete-intervention. Only the interventions, a status and the
   events change, and a request that is not answered with the completed
   row changes nothing.
   */
  function Complete(s: State, env: Env, req: CompleteRequest): (r: (State, Response))
    ensures r.0.logs == s.logs && r.0.webhookCalls == s.webhookCalls
    ensures r.0.students.Keys == s.students.Keys && |r.0.interventions| == |s.interventions|
    ensures !r.1.Completed? ==> r.0 == s
    ensures r.1.Completed? ==>
              r.1.intervention in r.0.interventions && r.1.intervention.completed
              && req.interventionId == Some(r.1.intervention.id)
              && req.studentId == Some(r.1.intervention.studentId)
  {
    if !Given(req.studentId) || !GivenId(req.interventionId) then
      (s, BadRequest(MissingCompleteFields))
    else
      var sid := req.studentId.value;
      match Newest(s.interventions, IdAndOwner(req.interventionId.value, sid))
      case None => (s, NotFound(InterventionNotFound))
      case Some(k) =>
        var (s1, iv) := CompleteRow(s, k);
        assert s1.interventions[k] == iv;
        var s2 := SetStatus(s1, sid, Active);
        (Emit(s2, env, Event(sid, InterventionCompleted, StatusOnly(Active))), Completed(iv))
  }

  lemma SetStatusKeepsWellFormed(s: State, sid: StudentId, status: Status)
    requires WellFormed(s)
    ensures WellFormed(SetStatus(s, sid, status))
  {
  }

  lemma InsertLogKeepsWellFormed(s: State, sid: StudentId, q: int, f: int, tab: bool)
    requires WellFormed(s) && MinScore <= q <= MaxScore
    ensures WellFormed(InsertLog(s, sid, q, f, tab, MeetsThreshold(q, f, tab)).0)
  {
  }

  lemma InsertInterventionKeepsWellFormed(s: State, sid: StudentId, q: int, f: int, tab: bool)
    requires WellFormed(s) && MinScore <= q <= MaxScore && !MeetsThreshold(q, f, tab)
    ensures WellFormed(InsertIntervention(s, sid, FailureReason(q, f, tab), q, f).0)
  {
    var (s', iv) := InsertIntervention(s, sid, FailureReason(q, f, tab), q, f);
    assert InterventionConsistent(iv);
  }

  lemma EscalateKeepsWellFormed(s: State, env: Env, student: Student, sid: StudentId, q: int, f: int, tab: bool,
                                log: DailyLog, insertFails: bool)
    requires WellFormed(s) && MinScore <= q <= MaxScore && !MeetsThreshold(q, f, tab)
    requires sid in s.students ==> s.students[sid].status == NeedsIntervention
    ensures WellFormed(Escalate(s, env, student, sid, q, f, tab, log, insertFails).0)
  {
    InsertInterventionKeepsWellFormed(s, sid, q, f, tab);
  }

  lemma RecordKeepsWellFormed(s: State, env: Env, student: Student, sid: StudentId, q: int, f: int, tab: bool,
                              insertFails: bool)
    requires WellFormed(s) && MinScore <= q <= MaxScore
    ensures WellFormed(Record(s, env, student, sid, q, f, tab, insertFails).0)
  {
    var meets := MeetsThreshold(q, f, tab);
    var (s1, log) := InsertLog(s, sid, q, f, tab, meets);
    InsertLogKeepsWellFormed(s, sid, q, f, tab);
    if meets {
      SetStatusKeepsWellFormed(s1, sid, Active);
    } else {
      var s2 := SetStatus(s1, sid, NeedsIntervention);
      SetStatusKeepsWellFormed(s1, sid, NeedsIntervention);
      EscalateKeepsWellFormed(s2, env, student, sid, q, f, tab, log, insertFails);
    }
  }

  /** Every check-in, accepted or not, leaves a well-formed store well-formed. */
  lemma CheckInKeepsWellFormed(s: State, env: Env, req: CheckinRequest, faults: Faults)
    requires WellFormed(s)
    ensures WellFormed(CheckIn(s, env, req, faults).0)
  {
    if CheckinAccepted(req) && req.studentId.value in s.students && !faults.logInsertFails {
      var sid := req.studentId.value;
      RecordKeepsWellFormed(s, env, s.students[sid], sid, req.quizScore.value, req.focusMinutes.value,
                            TabOf(req), faults.interventionInsertFails);
    }
  }

  /** An assignment leaves a well-formed store well-formed. */
  lemma AssignKeepsWellFormed(s: State, env: Env, req: AssignRequest)
    requires WellFormed(s)
    ensures WellFormed(Assign(s, env, req).0)
  {
    if GivenId(req.interventionId) && Given(req.assignedTask) {
      var assigner := req.assignedBy.GetOr(DefaultAssigner);
      var found := Newest(s.interventions, IdIs(req.interventionId.value));
      if found.Some? {
        var (s1, iv) := AssignRow(s, found.value, req.assignedTask.value, assigner);
        assert WellFormed(s1);
        SetStatusKeepsWellFormed(s1, iv.studentId, Remedial);
      }
    }
  }

  /** A completion leaves a well-formed store well-formed. */
  lemma CompleteKeepsWellFormed(s: State, env: Env, req: CompleteRequest)
    requires WellFormed(s)
    ensures WellFormed(Complete(s, env, req).0)
  {
    if Given(req.studentId) && GivenId(req.interventionId) {
      var sid := req.studentId.value;
      var found := Newest(s.interventions, IdAndOwner(req.interventionId.value, sid));
      if found.Some? {
        var (s1, iv) := CompleteRow(s, found.value);
        assert WellFormed(s1);
        SetStatusKeepsWellFormed(s1, sid, Active);
      }
    }
  }
}
