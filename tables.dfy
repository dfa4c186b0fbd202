/**
 The record store the routes write to, as a value: the students,
 daily_logs and interventions tables, the clock that stamps rows, the
 events fanned out to student channels and the posts made to the webhook.
 Each store operation the routes use (insert, update by filter, select the
 newest row matching a filter) is a function from one such value to the
 next; the routes' handlers are built from them.
 */
module Tables {
  import opened Records
  import opened Evaluator

  datatype State = State(
    students: map<StudentId, Student>,
    logs: seq<DailyLog>,
    interventions: seq<Intervention>,
    clock: nat,
    events: seq<Event>,
    webhookCalls: seq<WebhookPayload>)

  /** The process environment: whether the socket server was handed over, and the webhook URL. */
  datatype Env = Env(io: bool, webhookUrl: Option<string>)

  /** Which store inserts of a check-in fail. */
  datatype Faults = Faults(logInsertFails: bool, interventionInsertFails: bool)

  /** The row filters the routes query and update interventions by. */
  datatype Filter =
    | IdIs(id: RowId)
    | IdAndOwner(id: RowId, owner: StudentId)
    | OpenOf(owner: StudentId)

  predicate IsOpenFor(iv: Intervention, sid: StudentId)
  {
    iv.studentId == sid && !iv.completed
  }

  predicate Selects(f: Filter, iv: Intervention)
  {
    match f
    case IdIs(id) => iv.id == id
    case IdAndOwner(id, owner) => iv.id == id && iv.studentId == owner
    case OpenOf(owner) => IsOpenFor(iv, owner)
  }

  /**
   The position of the newest (last inserted) intervention the filter
   selects, or None when it selects none.
   */
  function Newest(ivs: seq<Intervention>, f: Filter): (r: Option<nat>)
    ensures r.Some? ==> r.value < |ivs| && Selects(f, ivs[r.value])
    ensures r.Some? ==> forall j :: r.value < j < |ivs| ==> !Selects(f, ivs[j])
    ensures r.None? <==> forall j :: 0 <= j < |ivs| ==> !Selects(f, ivs[j])
    decreases |ivs|
  {
    if |ivs| == 0 then None
    else if Selects(f, ivs[|ivs| - 1]) then Some(|ivs| - 1)
    else Newest(ivs[..|ivs| - 1], f)
  }

  /** What a stored daily log always satisfies: its verdict was computed from its own values. */
  predicate LogConsistent(log: DailyLog)
  {
    MinScore <= log.quizScore <= MaxScore
    && log.success == MeetsThreshold(log.quizScore, log.focusMinutes, log.tabSwitched)
  }

  /**
   What a stored intervention always satisfies: its snapshot came from a
   failing check-in, and its reason is the one that check-in earns (the tab
   switch is not stored, so a tab-switch reason is accepted for any snapshot).
   */
  predicate InterventionConsistent(iv: Intervention)
  {
    MinScore <= iv.quizScore <= MaxScore
    && (iv.reason == TabSwitchReason
        || (!MeetsThreshold(iv.quizScore, iv.focusMinutes, false)
            && iv.reason == FailureReason(iv.quizScore, iv.focusMinutes, false)))
  }

  /** Every student is keyed by its own id. */
  ghost predicate KeyedById(students: map<StudentId, Student>)
  {
    forall k :: k in students ==> students[k].id == k
  }

  /** Logs are numbered 1, 2, ... in insertion order, stamped before the clock, with their own verdict. */
  ghost predicate LogsNumbered(logs: seq<DailyLog>, clock: nat)
  {
    forall i :: 0 <= i < |logs| ==> logs[i].id == i + 1 && logs[i].createdAt < clock && LogConsistent(logs[i])
  }

  /** Interventions are numbered 1, 2, ... in insertion order, stamped before the clock, with a failing snapshot. */
  ghost predicate InterventionsNumbered(ivs: seq<Intervention>, clock: nat)
  {
    forall i :: 0 <= i < |ivs| ==> ivs[i].id == i + 1 && ivs[i].createdAt < clock && InterventionConsistent(ivs[i])
  }

  /** Interventions were created in strictly increasing time. */
  ghost predicate CreatedInOrder(ivs: seq<Intervention>)
  {
    forall i, j :: 0 <= i < j < |ivs| ==> ivs[i].createdAt < ivs[j].createdAt
  }

  /**
   The shape every reachable store has: students keyed by their id, rows
   numbered 1, 2, ... in insertion order, every stamp before the clock and
   interventions created in strictly increasing time.
   */
  ghost predicate WellFormed(s: State)
  {
    && KeyedById(s.students)
    && LogsNumbered(s.logs, s.clock)
    && InterventionsNumbered(s.interventions, s.clock)
    && CreatedInOrder(s.interventions)
  }

  /** The student has no intervention that is still open. */
  ghost predicate NoOpen(ivs: seq<Intervention>, sid: StudentId)
  {
    forall i :: 0 <= i < |ivs| ==> !IsOpenFor(ivs[i], sid)
  }

  /** No two open interventions belong to the same student. */
  ghost predicate AtMostOneOpen(ivs: seq<Intervention>)
  {
    forall i, j :: 0 <= i < j < |ivs| && !ivs[i].completed && !ivs[j].completed ==>
      ivs[i].studentId != ivs[j].studentId
  }

  /**
   The intended lifecycle invariant: at most one open intervention per
   student, and an active (unlocked) student has none.
   */
  ghost predicate LockInvariant(s: State)
  {
    AtMostOneOpen(s.interventions) && ActiveHaveNoOpen(s.students, s.interventions)
  }

  /** Every active (unlocked) student has no open intervention. */
  ghost predicate ActiveHaveNoOpen(students: map<StudentId, Student>, ivs: seq<Intervention>)
  {
    forall sid :: sid in students && students[sid].status == Active ==> NoOpen(ivs, sid)
  }

  /** Insert into daily_logs: the row gets the next id and the current time. */
  function InsertLog(s: State, sid: StudentId, quizScore: int, focusMinutes: int, tabSwitched: bool, success: bool)
    : (r: (State, DailyLog))
    ensures r.0.logs == s.logs + [r.1] && r.0.clock == s.clock + 1
    ensures r.1.id == |s.logs| + 1 && r.1.createdAt == s.clock && r.1.studentId == sid && r.1.success == success
    ensures r.1.quizScore == quizScore && r.1.focusMinutes == focusMinutes && r.1.tabSwitched == tabSwitched
    ensures r.0.students == s.students && r.0.interventions == s.interventions
    ensures r.0.events == s.events && r.0.webhookCalls == s.webhookCalls
  {
    var log := DailyLog(|s.logs| + 1, sid, quizScore, focusMinutes, tabSwitched, success, s.clock);
    (s.(logs := s.logs + [log], clock := s.clock + 1), log)
  }

  /** Insert into interventions: unassigned and open, with the next id and the current time. */
  function InsertIntervention(s: State, sid: StudentId, reason: string, quizScore: int, focusMinutes: int)
    : (r: (State, Intervention))
    ensures r.0.interventions == s.interventions + [r.1] && r.0.clock == s.clock + 1
    ensures r.1.id == |s.interventions| + 1 && r.1.createdAt == s.clock && r.1.studentId == sid
    ensures r.1.reason == reason && r.1.quizScore == quizScore && r.1.focusMinutes == focusMinutes
    ensures IsOpenFor(r.1, sid) && r.1.completedAt.None?
    ensures r.1.assignedTask.None? && r.1.assignedBy.None? && r.1.assignedAt.None?
    ensures r.0.students == s.students && r.0.logs == s.logs
    ensures r.0.events == s.events && r.0.webhookCalls == s.webhookCalls
  {
    var iv := Intervention(|s.interventions| + 1, sid, reason, quizScore, focusMinutes,
                           None, None, None, false, None, s.clock);
    (s.(interventions := s.interventions + [iv], clock := s.clock + 1), iv)
  }

  /** Update students set status where id = sid; no row matches an unknown id. */
  function SetStatus(s: State, sid: StudentId, status: Status): (r: State)
    ensures r.students.Keys == s.students.Keys
    ensures sid in s.students ==> r.students[sid] == s.students[sid].(status := status)
    ensures forall k :: k in s.students && k != sid ==> r.students[k] == s.students[k]
    ensures r.logs == s.logs && r.interventions == s.interventions && r.clock == s.clock
    ensures r.events == s.events && r.webhookCalls == s.webhookCalls
  {
    if sid in s.students then s.(students := s.students[sid := s.students[sid].(status := status)]) else s
  }

  /** Update interventions set the assignment where the row is at position k. */
  function AssignRow(s: State, k: nat, task: string, assigner: string): (r: (State, Intervention))
    requires k < |s.interventions|
    ensures r.0.interventions == s.interventions[k := r.1] && r.0.clock == s.clock + 1
    ensures r.1.assignedTask == Some(task) && r.1.assignedBy == Some(assigner) && r.1.assignedAt == Some(s.clock)
    ensures r.1 == s.interventions[k].(assignedTask := r.1.assignedTask, assignedBy := r.1.assignedBy,
                                       assignedAt := r.1.assignedAt)
    ensures r.0.students == s.students && r.0.logs == s.logs
    ensures r.0.events == s.events && r.0.webhookCalls == s.webhookCalls
  {
    var iv := s.interventions[k].(assignedTask := Some(task), assignedBy := Some(assigner), assignedAt := Some(s.clock));
    (s.(interventions := s.interventions[k := iv], clock := s.clock + 1), iv)
  }

  /** Update interventions set completed where the row is at position k. */
  function CompleteRow(s: State, k: nat): (r: (State, Intervention))
    requires k < |s.interventions|
    ensures r.0.interventions == s.interventions[k := r.1] && r.0.clock == s.clock + 1
    ensures r.1.completed && r.1.completedAt == Some(s.clock)
    ensures r.1 == s.interventions[k].(completed := true, completedAt := r.1.completedAt)
    ensures r.0.students == s.students && r.0.logs == s.logs
    ensures r.0.events == s.events && r.0.webhookCalls == s.webhookCalls
  {
    var iv := s.interventions[k].(completed := true, completedAt := Some(s.clock));
    (s.(interventions := s.interventions[k := iv], clock := s.clock + 1), iv)
  }

  /**
   An event may be emitted only once the status it announces is stored for
   its student: no fan-out before the write it reports.
   */
  predicate Committed(s: State, e: Event)
  {
    e.channel in s.students ==> s.students[e.channel].status == e.payload.status
  }

  /** Emit to the student's channel; nothing is emitted before the socket server is handed over. */
  function Emit(s: State, env: Env, e: Event): (r: State)
    requires Committed(s, e)
    ensures r.events == s.events + (if env.io then [e] else [])
    ensures env.io ==> Committed(r, r.events[|r.events| - 1])
    ensures r == s.(events := r.events)
  {
    if env.io then s.(events := s.events + [e]) else s
  }

  /** The webhook URL is configured when present and non-empty. */
  predicate WebhookConfigured(env: Env)
  {
    Given(env.webhookUrl)
  }

  /** Post to the webhook, recorded whatever becomes of it; nothing is posted without a URL. */
  function Notify(s: State, env: Env, p: WebhookPayload): (r: State)
    ensures r.webhookCalls == s.webhookCalls + (if WebhookConfigured(env) then [p] else [])
    ensures r == s.(webhookCalls := r.webhookCalls)
  {
    if WebhookConfigured(env) then s.(webhookCalls := s.webhookCalls + [p]) else s
  }

  /** Ids are row numbers, so a lookup by id finds row id - 1 exactly when it exists. */
  lemma NewestById(s: State, id: RowId)
    requires WellFormed(s)
    ensures Newest(s.interventions, IdIs(id)) == if 1 <= id <= |s.interventions| then Some(id - 1) else None
  {
    if 1 <= id <= |s.interventions| {
      assert Selects(IdIs(id), s.interventions[id - 1]);
    }
  }

  /** A lookup by id and owner finds row id - 1 exactly when it exists and belongs to the owner. */
  lemma NewestByIdAndOwner(s: State, id: RowId, sid: StudentId)
    requires WellFormed(s)
    ensures Newest(s.interventions, IdAndOwner(id, sid))
            == if 1 <= id <= |s.interventions| && s.interventions[id - 1].studentId == sid then Some(id - 1) else None
  {
  }

  /** The last open intervention of a student is the one with the latest creation time. */
  lemma NewestOpenIsLatest(s: State, sid: StudentId)
    requires WellFormed(s)
    ensures var r := Newest(s.interventions, OpenOf(sid));
            r.Some? ==> forall j :: 0 <= j < |s.interventions| && IsOpenFor(s.interventions[j], sid) ==>
                          s.interventions[j].createdAt <= s.interventions[r.value].createdAt
  {
  }
}
