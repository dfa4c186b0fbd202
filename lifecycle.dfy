/**
 What the three writing routes promise: what a rejected request leaves
 alone, what an accepted one writes and emits, and how the intervention
 lifecycle invariant fares under each route, including where the code
 does not enforce it.
 */
module Lifecycle {
  import opened Records
  import opened Evaluator
  import opened Tables
  import opened Handlers

  const NoFaults: Faults := Faults(false, false)

  /** The verdict an accepted check-in receives. */
  predicate Passes(req: CheckinRequest)
    requires CheckinAccepted(req)
  {
    MeetsThreshold(req.quizScore.value, req.focusMinutes.value, TabOf(req))
  }

  // ---------------------------------------------------------------- check-in

  /** Missing fields, an out-of-range score and an unknown student change nothing. */
  lemma RejectedCheckInChangesNothing(s: State, env: Env, req: CheckinRequest, faults: Faults)
    ensures !Given(req.studentId) || req.quizScore.None? || req.focusMinutes.None? ==>
              CheckIn(s, env, req, faults) == (s, BadRequest(MissingCheckinFields))
    ensures Given(req.studentId) && req.quizScore.Some? && req.focusMinutes.Some?
            && (req.quizScore.value < MinScore || req.quizScore.value > MaxScore) ==>
              CheckIn(s, env, req, faults) == (s, BadRequest(ScoreOutOfRange))
    ensures CheckinAccepted(req) && req.studentId.value !in s.students ==>
              CheckIn(s, env, req, faults) == (s, NotFound(StudentNotFound))
  {
  }

  /**
   An accepted check-in for a known student inserts exactly one daily log,
   whose success is the verdict; if that insert fails, the request fails
   and nothing is written.
   */
  lemma AcceptedCheckInWritesOneLog(s: State, env: Env, req: CheckinRequest, faults: Faults)
    requires CheckinAccepted(req) && req.studentId.value in s.students
    ensures faults.logInsertFails ==> CheckIn(s, env, req, faults) == (s, Thrown(LogInsertFailed))
    ensures !faults.logInsertFails ==>
              var s' := CheckIn(s, env, req, faults).0;
              s'.logs == s.logs + [DailyLog(|s.logs| + 1, req.studentId.value, req.quizScore.value,
                                            req.focusMinutes.value, TabOf(req), Passes(req), s.clock)]
  {
  }

  /** A passing check-in: the student is active, and no intervention, event or webhook follows. */
  lemma PassingCheckIn(s: State, env: Env, req: CheckinRequest, faults: Faults)
    requires CheckinAccepted(req) && req.studentId.value in s.students && Passes(req)
    requires !faults.logInsertFails
    ensures var (s', r) := CheckIn(s, env, req, faults);
            var sid := req.studentId.value;
            && s'.students == s.students[sid := s.students[sid].(status := Active)]
            && s'.interventions == s.interventions
            && s'.events == s.events
            && s'.webhookCalls == s.webhookCalls
            && r == OnTrack(s'.logs[|s.logs|])
  {
  }

  /** The intervention a failing check-in opens: the snapshot, the reason, open and unassigned. */
  function OpenedBy(s: State, req: CheckinRequest): (iv: Intervention)
    requires CheckinAccepted(req) && !Passes(req)
    ensures iv.reason != "" && !iv.completed && iv.assignedTask.None?
  {
    Intervention(|s.interventions| + 1, req.studentId.value,
                 FailureReason(req.quizScore.value, req.focusMinutes.value, TabOf(req)),
                 req.quizScore.value, req.focusMinutes.value, None, None, None, false, None, s.clock + 1)
  }

  /**
   A failing check-in: the student needs intervention, exactly one new
   intervention is inserted, the webhook is posted when configured and
   the status_changed event reports the status already stored.
   */
  lemma FailingCheckIn(s: State, env: Env, req: CheckinRequest)
    requires CheckinAccepted(req) && req.studentId.value in s.students && !Passes(req)
    ensures var (s', r) := CheckIn(s, env, req, NoFaults);
            var sid := req.studentId.value;
            var iv := OpenedBy(s, req);
            var e := Event(sid, StatusChanged, StatusWith(NeedsIntervention, iv));
            var st := s.students[sid];
            var post := WebhookPayload(st.id, st.name, st.email, req.quizScore.value, req.focusMinutes.value,
                                       TabOf(req), iv.reason, iv.id, s.clock + 2);
            && s'.students == s.students[sid := s.students[sid].(status := NeedsIntervention)]
            && s'.interventions == s.interventions + [iv]
            && s'.events == s.events + (if env.io then [e] else [])
            && Committed(s', e)
            && s'.webhookCalls == s.webhookCalls + (if WebhookConfigured(env) then [post] else [])
            && r == PendingMentorReview(s'.logs[|s.logs|], iv)
  {
    var sid, q, f, tab := req.studentId.value, req.quizScore.value, req.focusMinutes.value, TabOf(req);
    var (s1, log) := InsertLog(s, sid, q, f, tab, false);
    var s2 := SetStatus(s1, sid, NeedsIntervention);
    assert CheckIn(s, env, req, NoFaults) == Escalate(s2, env, s.students[sid], sid, q, f, tab, log, false);
  }

  /**
   When the intervention insert fails the request fails, but the log and
   the status write made before it stay: there is no rollback.
   */
  lemma InterventionInsertFailureKeepsEarlierWrites(s: State, env: Env, req: CheckinRequest)
    requires CheckinAccepted(req) && req.studentId.value in s.students && !Passes(req)
    ensures var (s', r) := CheckIn(s, env, req, Faults(false, true));
            var sid := req.studentId.value;
            && r == Thrown(InterventionInsertFailed)
            && |s'.logs| == |s.logs| + 1
            && s'.students == s.students[sid := s.students[sid].(status := NeedsIntervention)]
            && s'.interventions == s.interventions
            && s'.events == s.events
            && s'.webhookCalls == s.webhookCalls
  {
  }

  /**
   A check-in that arrives while its student is active (or that names no
   known student) keeps the lifecycle invariant.
   */
  lemma CheckInWhileActiveKeepsLock(s: State, env: Env, req: CheckinRequest, faults: Faults)
    requires LockInvariant(s)
    requires Given(req.studentId) && req.studentId.value in s.students ==>
               s.students[req.studentId.value].status == Active
    ensures LockInvariant(CheckIn(s, env, req, faults).0)
  {
    var s' := CheckIn(s, env, req, faults).0;
    if CheckinAccepted(req) && req.studentId.value in s.students && !faults.logInsertFails {
      var sid := req.studentId.value;
      assert NoOpen(s.interventions, sid);
      if Passes(req) {
        PassingCheckIn(s, env, req, faults);
        forall other | other in s'.students && s'.students[other].status == Active
          ensures NoOpen(s'.interventions, other)
        {
          if other != sid {
            assert NoOpen(s.interventions, other);
          }
        }
      } else if faults.interventionInsertFails {
        InterventionInsertFailureKeepsEarlierWrites(s, env, req);
        forall other | other in s'.students && s'.students[other].status == Active
          ensures NoOpen(s'.interventions, other)
        {
          assert other != sid;
        }
      } else {
        FailingCheckIn(s, env, req);
        var iv := OpenedBy(s, req);
        forall i, j | 0 <= i < j < |s'.interventions| && !s'.interventions[i].completed && !s'.interventions[j].completed
          ensures s'.interventions[i].studentId != s'.interventions[j].studentId
        {
          if j == |s.interventions| {
            assert !IsOpenFor(s.interventions[i], sid);
          }
        }
        forall other | other in s'.students && s'.students[other].status == Active
          ensures NoOpen(s'.interventions, other)
        {
          assert other != sid;
        }
      }
    } else {
      RejectedCheckInChangesNothing(s, env, req, faults);
      if CheckinAccepted(req) && req.studentId.value in s.students {
        AcceptedCheckInWritesOneLog(s, env, req, faults);
      }
    }
  }

  /** A fixed store: one active student, no rows yet. */
  function Seeded(): State
  {
    State(map["ada" := Student("ada", "Ada", "ada@example.org", Active)], [], [], 0, [], [])
  }

  /** A running server with the socket server handed over and no webhook URL. */
  const Wired: Env := Env(true, None)

  /** A failing check-in of the seeded student. */
  const Failing: CheckinRequest := CheckinRequest(Some("ada"), Some(3), Some(30), None)

  /** The seeded store after one failing check-in. */
  function LockedOnce(): State
  {
    CheckIn(Seeded(), Wired, Failing, NoFaults).0
  }

  lemma LockedOnceFacts()
    ensures WellFormed(LockedOnce()) && LockInvariant(LockedOnce())
    ensures |LockedOnce().interventions| == 1 && IsOpenFor(LockedOnce().interventions[0], "ada")
    ensures "ada" in LockedOnce().students && LockedOnce().students["ada"].status == NeedsIntervention
  {
    var s0 := Seeded();
    assert WellFormed(s0) && LockInvariant(s0);
    FailingCheckIn(s0, Wired, Failing);
    CheckInKeepsWellFormed(s0, Wired, Failing, NoFaults);
    CheckInWhileActiveKeepsLock(s0, Wired, Failing, NoFaults);
  }

  /**
   The route does not look for an open intervention before inserting one:
   a second failing check-in while the student is locked opens a second
   intervention, breaking the invariant the client's lock screen protects.
   */
  lemma FailingAgainWhileLockedOpensSecond()
    ensures LockInvariant(LockedOnce())
    ensures "ada" in LockedOnce().students && LockedOnce().students["ada"].status == NeedsIntervention
    ensures !AtMostOneOpen(CheckIn(LockedOnce(), Wired, Failing, NoFaults).0.interventions)
  {
    LockedOnceFacts();
    var s1 := LockedOnce();
    FailingCheckIn(s1, Wired, Failing);
    var s2 := CheckIn(s1, Wired, Failing, NoFaults).0;
    assert s2.interventions[0].studentId == s2.interventions[1].studentId == "ada";
  }

  /**
   Likewise a passing check-in while locked makes the student active
   although an intervention is still open.
   */
  lemma PassingWhileLockedLeavesOpen()
    ensures var s2 := CheckIn(LockedOnce(), Wired, CheckinRequest(Some("ada"), Some(9), Some(90), None), NoFaults).0;
            && "ada" in s2.students && s2.students["ada"].status == Active
            && !NoOpen(s2.interventions, "ada")
  {
    LockedOnceFacts();
    var pass := CheckinRequest(Some("ada"), Some(9), Some(90), None);
    PassingCheckIn(LockedOnce(), Wired, pass, NoFaults);
    var s2 := CheckIn(LockedOnce(), Wired, pass, NoFaults).0;
    assert IsOpenFor(s2.interventions[0], "ada");
  }

  // ---------------------------------------------------------------- assign

  /** Missing fields and an unknown intervention change nothing. */
  lemma RejectedAssignChangesNothing(s: State, env: Env, req: AssignRequest)
    requires WellFormed(s)
    ensures !GivenId(req.interventionId) || !Given(req.assignedTask) ==>
              Assign(s, env, req) == (s, BadRequest(MissingAssignFields))
    ensures GivenId(req.interventionId) && Given(req.assignedTask) && req.interventionId.value > |s.interventions| ==>
              Assign(s, env, req) == (s, NotFound(InterventionNotFound))
  {
    if GivenId(req.interventionId) {
      NewestById(s, req.interventionId.value);
    }
  }

  /**
   Assigning an existing intervention records the task and the assigner
   ("Mentor" by default) on that row alone, makes its student remedial and
   tells that student's channel.
   */
  lemma AssignOutcome(s: State, env: Env, req: AssignRequest)
    requires WellFormed(s)
    requires GivenId(req.interventionId) && Given(req.assignedTask)
    requires req.interventionId.value <= |s.interventions|
    ensures var (s', r) := Assign(s, env, req);
            var k := req.interventionId.value - 1;
            var owner := s.interventions[k].studentId;
            var iv := s.interventions[k].(assignedTask := req.assignedTask,
                                          assignedBy := Some(req.assignedBy.GetOr(DefaultAssigner)),
                                          assignedAt := Some(s.clock));
            && s'.interventions == s.interventions[k := iv]
            && (owner in s.students ==> s'.students == s.students[owner := s.students[owner].(status := Remedial)])
            && (owner !in s.students ==> s'.students == s.students)
            && s'.events == s.events + (if env.io then [Event(owner, InterventionAssigned, StatusWith(Remedial, iv))] else [])
            && s'.logs == s.logs && s'.webhookCalls == s.webhookCalls
            && r == Assigned(iv)
  {
    NewestById(s, req.interventionId.value);
  }

  /** An assignment never breaks the lifecycle invariant. */
  lemma AssignKeepsLock(s: State, env: Env, req: AssignRequest)
    requires WellFormed(s) && LockInvariant(s)
    ensures LockInvariant(Assign(s, env, req).0)
  {
    var s' := Assign(s, env, req).0;
    if GivenId(req.interventionId) && Given(req.assignedTask) && req.interventionId.value <= |s.interventions| {
      AssignOutcome(s, env, req);
      var k := req.interventionId.value - 1;
      assert forall i :: 0 <= i < |s'.interventions| ==>
        s'.interventions[i].completed == s.interventions[i].completed
        && s'.interventions[i].studentId == s.interventions[i].studentId;
      forall sid | sid in s'.students && s'.students[sid].status == Active
        ensures NoOpen(s'.interventions, sid)
      {
        assert sid != s.interventions[k].studentId;
        assert NoOpen(s.interventions, sid);
      }
    } else {
      RejectedAssignChangesNothing(s, env, req);
    }
  }

  // ---------------------------------------------------------------- complete

  /** Missing fields, an unknown intervention or one owned by another student change nothing. */
  lemma RejectedCompleteChangesNothing(s: State, env: Env, req: CompleteRequest)
    requires WellFormed(s)
    ensures !Given(req.studentId) || !GivenId(req.interventionId) ==>
              Complete(s, env, req) == (s, BadRequest(MissingCompleteFields))
    ensures Given(req.studentId) && GivenId(req.interventionId)
            && (req.interventionId.value > |s.interventions|
                || s.interventions[req.interventionId.value - 1].studentId != req.studentId.value) ==>
              Complete(s, env, req) == (s, NotFound(InterventionNotFound))
  {
    if Given(req.studentId) && GivenId(req.interventionId) {
      NewestByIdAndOwner(s, req.interventionId.value, req.studentId.value);
    }
  }

  /**
   Completing one's own intervention marks that row completed, makes the
   student active and sends intervention_completed with the status only.
   Whether the row was already completed is not examined.
   */
  lemma CompleteOutcome(s: State, env: Env, req: CompleteRequest)
    requires WellFormed(s)
    requires Given(req.studentId) && GivenId(req.interventionId)
    requires req.interventionId.value <= |s.interventions|
    requires s.interventions[req.interventionId.value - 1].studentId == req.studentId.value
    ensures var (s', r) := Complete(s, env, req);
            var k := req.interventionId.value - 1;
            var sid := req.studentId.value;
            var iv := s.interventions[k].(completed := true, completedAt := Some(s.clock));
            && s'.interventions == s.interventions[k := iv]
            && (sid in s.students ==> s'.students == s.students[sid := s.students[sid].(status := Active)])
            && (sid !in s.students ==> s'.students == s.students)
            && s'.events == s.events + (if env.io then [Event(sid, InterventionCompleted, StatusOnly(Active))] else [])
            && s'.logs == s.logs && s'.webhookCalls == s.webhookCalls
            && r == Completed(iv)
  {
    NewestByIdAndOwner(s, req.interventionId.value, req.studentId.value);
  }

  /**
   Completing the student's open intervention (the one student-status
   reports) keeps the lifecycle invariant and leaves the student with no
   open intervention.
   */
  lemma CompletingOpenInterventionKeepsLock(s: State, env: Env, req: CompleteRequest)
    requires WellFormed(s) && LockInvariant(s)
    requires Given(req.studentId) && GivenId(req.interventionId)
    requires req.interventionId.value <= |s.interventions|
    requires IsOpenFor(s.interventions[req.interventionId.value - 1], req.studentId.value)
    ensures LockInvariant(Complete(s, env, req).0)
    ensures NoOpen(Complete(s, env, req).0.interventions, req.studentId.value)
  {
    CompleteOutcome(s, env, req);
    var s' := Complete(s, env, req).0;
    var k := req.interventionId.value - 1;
    var sid := req.studentId.value;
    forall i | 0 <= i < |s'.interventions| ensures !IsOpenFor(s'.interventions[i], sid)
    {
      if i < k {
        assert !s.interventions[i].completed && !s.interventions[k].completed ==>
          s.interventions[i].studentId != s.interventions[k].studentId;
      } else if k < i {
        assert !s.interventions[k].completed && !s.interventions[i].completed ==>
          s.interventions[k].studentId != s.interventions[i].studentId;
      }
    }
    forall other | other in s'.students && s'.students[other].status == Active
      ensures NoOpen(s'.interventions, other)
    {
      if other != sid {
        assert NoOpen(s.interventions, other);
      }
    }
  }

  /**
   Completing is not rejected the second time: the filter matches on id
   and owner only, so a repeated completion succeeds again.
   */
  lemma SecondCompletionSucceeds(s: State, env: Env, req: CompleteRequest)
    requires WellFormed(s)
    requires Complete(s, env, req).1.Completed?
    ensures Complete(Complete(s, env, req).0, env, req).1.Completed?
  {
    var s1 := Complete(s, env, req).0;
    RejectedCompleteChangesNothing(s, env, req);
    CompleteOutcome(s, env, req);
    CompleteKeepsWellFormed(s, env, req);
    CompleteOutcome(s1, env, req);
  }

  /** The completion of the seeded student's first intervention. */
  const CompleteFirst: CompleteRequest := CompleteRequest(Some("ada"), Some(1))

  /** The seeded store after a failure and its completion. */
  function Unlocked(): State
  {
    Complete(LockedOnce(), Wired, CompleteFirst).0
  }

  lemma UnlockedFacts()
    ensures WellFormed(Unlocked()) && LockInvariant(Unlocked())
    ensures |Unlocked().interventions| == 1
    ensures Unlocked().interventions[0].completed && Unlocked().interventions[0].studentId == "ada"
    ensures "ada" in Unlocked().students && Unlocked().students["ada"].status == Active
  {
    LockedOnceFacts();
    var s1 := LockedOnce();
    CompleteKeepsWellFormed(s1, Wired, CompleteFirst);
    CompletingOpenInterventionKeepsLock(s1, Wired, CompleteFirst);
    CompleteOutcome(s1, Wired, CompleteFirst);
  }

  /** The seeded store after a failure, its completion and a second failure. */
  function Relocked(): State
  {
    CheckIn(Unlocked(), Wired, Failing, NoFaults).0
  }

  lemma RelockedFacts()
    ensures WellFormed(Relocked()) && LockInvariant(Relocked())
    ensures |Relocked().interventions| == 2
    ensures Relocked().interventions[0].completed && Relocked().interventions[0].studentId == "ada"
    ensures IsOpenFor(Relocked().interventions[1], "ada")
  {
    UnlockedFacts();
    var s2 := Unlocked();
    FailingCheckIn(s2, Wired, Failing);
    CheckInKeepsWellFormed(s2, Wired, Failing, NoFaults);
    CheckInWhileActiveKeepsLock(s2, Wired, Failing, NoFaults);
  }

  /**
   Because a completed intervention can be completed again, a student who
   has failed again can be made active while the new intervention is open.
   */
  lemma RecompletingUnlocksWithOpenIntervention()
    ensures LockInvariant(Relocked())
    ensures var s' := Complete(Relocked(), Wired, CompleteFirst).0;
            "ada" in s'.students && s'.students["ada"].status == Active && !NoOpen(s'.interventions, "ada")
  {
    RelockedFacts();
    var s3 := Relocked();
    CompleteOutcome(s3, Wired, CompleteFirst);
    var s4 := Complete(s3, Wired, CompleteFirst).0;
    assert IsOpenFor(s4.interventions[1], "ada");
  }

  // ---------------------------------------------------------------- a full cycle

  /**
   The mentor's half of the cycle: assigning a task to a student's open
   intervention makes the student remedial, and completing it unlocks the
   student with no open intervention left; the channel receives the two
   events in order.
   */
  lemma AssignThenComplete(s: State, env: Env, sid: StudentId, id: RowId, task: string)
    requires WellFormed(s) && LockInvariant(s)
    requires sid != "" && task != "" && 1 <= id <= |s.interventions|
    requires sid in s.students && IsOpenFor(s.interventions[id - 1], sid)
    ensures var iv := s.interventions[id - 1].(assignedTask := Some(task), assignedBy := Some(DefaultAssigner),
                                               assignedAt := Some(s.clock));
            var (s2, r2) := Assign(s, env, AssignRequest(Some(id), Some(task), None));
            var (s3, r3) := Complete(s2, env, CompleteRequest(Some(sid), Some(id)));
            && r2 == Assigned(iv) && sid in s2.students && s2.students[sid].status == Remedial
            && r3 == Completed(iv.(completed := true, completedAt := Some(s2.clock)))
            && sid in s3.students && s3.students[sid].status == Active
            && |s3.interventions| == |s.interventions|
            && NoOpen(s3.interventions, sid)
            && LockInvariant(s3)
            && s3.events == s.events + (if env.io then [Event(sid, InterventionAssigned, StatusWith(Remedial, iv)),
                                                       Event(sid, InterventionCompleted, StatusOnly(Active))] else [])
  {
    var assign := AssignRequest(Some(id), Some(task), None);
    AssignOutcome(s, env, assign);
    AssignKeepsWellFormed(s, env, assign);
    AssignKeepsLock(s, env, assign);
    var s2 := Assign(s, env, assign).0;
    var done := CompleteRequest(Some(sid), Some(id));
    CompleteOutcome(s2, env, done);
    CompletingOpenInterventionKeepsLock(s2, env, done);
  }

  /**
   The student's half of the cycle: a failing check-in of an active
   student locks the student and opens one intervention, keeping both
   invariants.
   */
  lemma CheckInLocks(s: State, env: Env, req: CheckinRequest)
    requires WellFormed(s) && LockInvariant(s)
    requires CheckinAccepted(req) && !Passes(req)
    requires req.studentId.value in s.students && s.students[req.studentId.value].status == Active
    ensures var sid := req.studentId.value;
            var (s1, r1) := CheckIn(s, env, req, NoFaults);
            var iv := OpenedBy(s, req);
            && WellFormed(s1) && LockInvariant(s1)
            && |s1.interventions| == |s.interventions| + 1 && s1.interventions[|s.interventions|] == iv
            && sid in s1.students && s1.students[sid].status == NeedsIntervention
            && r1.PendingMentorReview? && r1.intervention == iv
            && s1.events == s.events + (if env.io then [Event(sid, StatusChanged, StatusWith(NeedsIntervention, iv))] else [])
  {
    FailingCheckIn(s, env, req);
    CheckInKeepsWellFormed(s, env, req, NoFaults);
    CheckInWhileActiveKeepsLock(s, env, req, NoFaults);
  }

  /**
   The whole cycle for an active student: a failing check-in locks the
   student and opens one intervention, the mentor's assignment makes the
   student remedial, and completing it unlocks the student with no open
   intervention; the channel receives the three events in order.
   */
  lemma InterventionCycle(s: State, env: Env, req: CheckinRequest, task: string)
    requires WellFormed(s) && LockInvariant(s)
    requires CheckinAccepted(req) && !Passes(req)
    requires req.studentId.value in s.students && s.students[req.studentId.value].status == Active
    requires task != ""
    ensures var sid := req.studentId.value;
            var (s1, r1) := CheckIn(s, env, req, NoFaults);
            var id := |s.interventions| + 1;
            var (s2, r2) := Assign(s1, env, AssignRequest(Some(id), Some(task), None));
            var (s3, r3) := Complete(s2, env, CompleteRequest(Some(sid), Some(id)));
            && r1.PendingMentorReview? && r1.intervention.id == id
            && sid in s1.students && s1.students[sid].status == NeedsIntervention
            && r2.Assigned? && r2.intervention.assignedTask == Some(task) && r2.intervention.assignedBy == Some(DefaultAssigner)
            && sid in s2.students && s2.students[sid].status == Remedial
            && r3.Completed? && r3.intervention.completed && r3.intervention.assignedTask == Some(task)
            && sid in s3.students && s3.students[sid].status == Active
            && |s3.interventions| == |s.interventions| + 1
            && NoOpen(s3.interventions, sid)
            && LockInvariant(s3)
            && (env.io ==> s3.events == s.events + [
                  Event(sid, StatusChanged, StatusWith(NeedsIntervention, r1.intervention)),
                  Event(sid, InterventionAssigned, StatusWith(Remedial, r2.intervention)),
                  Event(sid, InterventionCompleted, StatusOnly(Active))])
  {
    var sid := req.studentId.value;
    var id := |s.interventions| + 1;
    CheckInLocks(s, env, req);
    var (s1, r1) := CheckIn(s, env, req, NoFaults);
    assert s1.interventions[id - 1] == r1.intervention;
    AssignThenComplete(s1, env, sid, id, task);
    if env.io {
      var (s2, r2) := Assign(s1, env, AssignRequest(Some(id), Some(task), None));
      AppendInOrder(s.events, Event(sid, StatusChanged, StatusWith(NeedsIntervention, r1.intervention)),
                    Event(sid, InterventionAssigned, StatusWith(Remedial, r2.intervention)),
                    Event(sid, InterventionCompleted, StatusOnly(Active)));
    }
  }

  /** Appending one event and then two is appending the three in order. */
  lemma AppendInOrder<T>(log: seq<T>, x: T, y: T, z: T)
    ensures log + [x] + [y, z] == log + [x, y, z]
  {
  }
}
