/**
 The entities of the intervention engine (students, daily logs,
 interventions), the events pushed to a student's real-time channel, the
 webhook payload, the request bodies of the three writing routes and the
 responses the routes give.
 */
module Records {

  datatype Option<T> = None | Some(value: T)
  {
    /** The value, or `default` when absent (a destructuring default). */
    function GetOr(default: T): T
    {
      match this
      case Some(v) => v
      case None => default
    }
  }

  /** Students are identified by an opaque string. */
  type StudentId = string

  /** Rows of daily_logs and interventions are numbered from 1 by the store. */
  type RowId = nat

  datatype Status = Active | NeedsIntervention | Remedial

  datatype Student = Student(id: StudentId, name: string, email: string, status: Status)

  /** An audit record, one per accepted check-in; never updated. */
  datatype DailyLog = DailyLog(
    id: RowId,
    studentId: StudentId,
    quizScore: int,
    focusMinutes: int,
    tabSwitched: bool,
    success: bool,
    createdAt: nat)

  /** One remediation cycle; `assigned*` and `completed*` are filled in later. */
  datatype Intervention = Intervention(
    id: RowId,
    studentId: StudentId,
    reason: string,
    quizScore: int,
    focusMinutes: int,
    assignedTask: Option<string>,
    assignedBy: Option<string>,
    assignedAt: Option<nat>,
    completed: bool,
    completedAt: Option<nat>,
    createdAt: nat)

  datatype EventName = StatusChanged | InterventionAssigned | InterventionCompleted

  datatype EventPayload =
    | StatusWith(status: Status, intervention: Intervention)
    | StatusOnly(status: Status)

  /** An event emitted to the channel named by a student's id. */
  datatype Event = Event(channel: StudentId, name: EventName, payload: EventPayload)

  /** The body posted to the mentor-automation webhook when a check-in fails. */
  datatype WebhookPayload = WebhookPayload(
    studentId: StudentId,
    studentName: string,
    studentEmail: string,
    quizScore: int,
    focusMinutes: int,
    tabSwitched: bool,
    reason: string,
    interventionId: RowId,
    timestamp: nat)

  /** What became of one webhook post: it arrived, or it failed (timeout, network, non-2xx). */
  datatype Delivery = Delivered | Failed(error: string)

  /** What the dispatcher logs about a webhook; the route never looks at it. */
  datatype WebhookOutcome = NotConfigured | Sent | SendFailed(error: string)

  /** Request bodies; an absent field is `None`. */
  datatype CheckinRequest = CheckinRequest(
    studentId: Option<string>,
    quizScore: Option<int>,
    focusMinutes: Option<int>,
    tabSwitched: Option<bool>)

  datatype AssignRequest = AssignRequest(
    interventionId: Option<RowId>,
    assignedTask: Option<string>,
    assignedBy: Option<string>)

  datatype CompleteRequest = CompleteRequest(
    studentId: Option<string>,
    interventionId: Option<RowId>)

  /** A string field counts as given when present and non-empty (JavaScript truthiness). */
  predicate Given(field: Option<string>)
  {
    field.Some? && field.value != ""
  }

  /** A row id counts as given when present and non-zero (JavaScript truthiness). */
  predicate GivenId(field: Option<RowId>)
  {
    field.Some? && field.value != 0
  }

  const DefaultAssigner: string := "Mentor"

  const MissingCheckinFields: string := "Missing required fields: student_id, quiz_score, focus_minutes"
  const ScoreOutOfRange: string := "Quiz score must be between 0 and 10"
  const StudentNotFound: string := "Student not found"
  const LogInsertFailed: string := "Failed to log daily check-in"
  const InterventionInsertFailed: string := "Failed to create intervention"
  const MissingAssignFields: string := "Missing required fields: intervention_id, assigned_task"
  const InterventionNotFound: string := "Intervention not found"
  const MissingCompleteFields: string := "Missing required fields: student_id, intervention_id"

  /**
   The answer of a route: an error with its message (400, 404, or an error
   thrown to the error-handling middleware, whose answer is not modelled) or a success shape.
   */
  datatype Response =
    | BadRequest(error: string)
    | NotFound(error: string)
    | Thrown(error: string)
    | OnTrack(log: DailyLog)
    | PendingMentorReview(log: DailyLog, intervention: Intervention)
    | Assigned(intervention: Intervention)
    | Completed(intervention: Intervention)
    | StatusView(student: Student, open: Option<Intervention>)
    | StudentView(student: Student)

}
