/** The job table of the workspace: one row per run and one function per UPDATE statement. */
module Jobs {
  import opened Basics

  type RunId = nat
  type AgentId = string

  const MAX_ASSIGNMENT_ATTEMPTS := 3
  const MAX_INITIALIZATION_ATTEMPTS := 8
  const LEASE_MILLISECONDS := 60_000
  const INITIALIZATION_LEASE_MILLISECONDS := 120_000
  const QUEUE_TIMEOUT_MILLISECONDS := 86_400_000

  datatype Status = Queued | Assigned | Running | Completed
  datatype Conclusion = Success | Failure | Cancellation | TimedOut | Neutral
  datatype Initialization = Ready | Pending | Claimed

  /** One runner requirement negotiated for a run. */
  datatype Requirement = Requirement(labels: seq<string>, group: Option<string>)

  datatype JobRow = JobRow(
    status: Status,
    agent: Option<AgentId>,
    deadline: Option<int>,
    attempts: nat,
    conclusion: Option<Conclusion>,
    summary: Option<string>,
    initialization: Initialization,
    initAttempts: nat,
    initRetryAt: Option<int>,
    createdAt: int,
    queueExpiresAt: int,
    requirements: seq<Requirement>)
  {
    /** The run occupies an agent. */
    predicate Live() {
      status == Assigned || status == Running
    }

    predicate LiveOn(a: AgentId) {
      Live() && agent == Some(a)
    }

    /** The ownership test every agent event goes through. */
    predicate OwnedBy(a: AgentId) {
      agent == Some(a) && status != Queued
    }
  }

  // Each function returns the row unchanged when the statement's WHERE clause does not match.

  function Enqueued(needsInitialization: bool, now: int): JobRow {
    JobRow(Queued, None, None, 0, None, None,
           if needsInitialization then Pending else Ready, 0,
           if needsInitialization then Some(now) else None,
           now, now + QUEUE_TIMEOUT_MILLISECONDS, [])
  }

  function Dispatched(j: JobRow, a: AgentId, now: int): JobRow {
    if j.status == Queued
    then j.(status := Assigned, agent := Some(a), deadline := Some(now + LEASE_MILLISECONDS), attempts := j.attempts + 1)
    else j
  }

  function Finished(j: JobRow, a: AgentId, conclusion: Conclusion, summary: string): JobRow {
    if j.LiveOn(a)
    then j.(status := Completed, deadline := None, conclusion := Some(conclusion), summary := Some(summary))
    else j
  }

  /** The statement of completeInfrastructureJob: it completes any run that is not completed yet. */
  function InfrastructureCompleted(j: JobRow, conclusion: Conclusion, summary: string): JobRow {
    if j.status != Completed
    then j.(status := Completed, agent := None, deadline := None, conclusion := Some(conclusion),
            summary := Some(summary), initialization := Ready, initRetryAt := None)
    else j
  }

  /** Losing an agent: back to the queue, or completed when the attempts are used up. */
  function Requeued(j: JobRow, summary: string): JobRow {
    if !j.Live() then j
    else if j.attempts >= MAX_ASSIGNMENT_ATTEMPTS then InfrastructureCompleted(j, Failure, summary)
    else j.(status := Queued, agent := None, deadline := None)
  }

  predicate InitializationDue(j: JobRow, now: int) {
    j.status == Queued && j.initialization != Ready && j.initRetryAt.Some? && j.initRetryAt.value <= now
  }

  function Initialized(j: JobRow): JobRow {
    if j.status == Queued && j.initialization == Claimed then j.(initialization := Ready, initRetryAt := None) else j
  }

  /** The events that only update the row of one run. */
  datatype RowEvent =
    | Heartbeat(agent: AgentId, now: int)
    | JobStarted(agent: AgentId, now: int)
    | JobRejected(agent: AgentId, requirements: seq<Requirement>, unsatisfied: bool)
    | QueueExpired(now: int, summary: string)
    | InitializeClaim(now: int)
    | InitializeDone
    | InitializeRetry(attempt: nat, retryAt: int)
    | InitializeExhausted(attempt: nat, summary: string)
    | InitializeConclude(conclusion: Conclusion, summary: string)

  /** The attempt has claimed the run; later attempts may have claimed it since. */
  predicate MayFail(j: JobRow, attempt: nat) {
    1 <= attempt <= j.initAttempts
  }

  /** The attempt is a last one: its failure is final, whatever became of the run in the meantime. */
  predicate Exhausted(j: JobRow, attempt: nat) {
    MayFail(j, attempt) && attempt >= MAX_INITIALIZATION_ATTEMPTS
  }

  function RowAfter(j: JobRow, e: RowEvent): JobRow {
    match e
    case Heartbeat(a, now) =>
      if j.LiveOn(a) then j.(deadline := Some(now + LEASE_MILLISECONDS)) else j
    case JobStarted(a, now) =>
      if j.agent == Some(a) && j.status == Assigned
      then j.(status := Running, deadline := Some(now + LEASE_MILLISECONDS))
      else j
    case JobRejected(a, requirements, unsatisfied) =>
      if j.agent == Some(a) && j.status == Assigned && unsatisfied
      then j.(status := Queued, agent := None, deadline := None, requirements := requirements,
              attempts := if j.attempts > 0 then j.attempts - 1 else 0)
      else j
    case QueueExpired(now, summary) =>
      if j.status == Queued && j.queueExpiresAt <= now then InfrastructureCompleted(j, TimedOut, summary) else j
    case InitializeClaim(now) =>
      if InitializationDue(j, now)
      then j.(initialization := Claimed, initAttempts := j.initAttempts + 1,
              initRetryAt := Some(now + INITIALIZATION_LEASE_MILLISECONDS))
      else j
    case InitializeDone => Initialized(j)
    case InitializeRetry(attempt, retryAt) =>
      if MayFail(j, attempt) && attempt < MAX_INITIALIZATION_ATTEMPTS && j.status == Queued && j.initialization == Claimed
      then j.(initialization := Pending, initRetryAt := Some(retryAt))
      else j
    // the guarded UPDATE of the last failed attempt, then the unguarded completion
    case InitializeExhausted(attempt, summary) =>
      if Exhausted(j, attempt) then InfrastructureCompleted(Initialized(j), Failure, summary) else j
    case InitializeConclude(conclusion, summary) =>
      if j.status == Queued && j.initialization == Claimed
      then j.(status := Completed, conclusion := Some(conclusion), summary := Some(summary),
              initialization := Ready, initRetryAt := None)
      else j
  }

  /** What holds of every job row at every moment. */
  predicate RowOk(j: JobRow) {
    && (j.initialization == Ready <==> j.initRetryAt.None?)
    && match j.status
       case Queued =>
         j.attempts < MAX_ASSIGNMENT_ATTEMPTS && j.agent.None? && j.deadline.None? && j.conclusion.None? && j.summary.None?
       case Assigned =>
         1 <= j.attempts <= MAX_ASSIGNMENT_ATTEMPTS && j.agent.Some? && j.deadline.Some?
         && j.conclusion.None? && j.summary.None? && j.initialization == Ready
       case Running =>
         1 <= j.attempts <= MAX_ASSIGNMENT_ATTEMPTS && j.agent.Some? && j.deadline.Some?
         && j.conclusion.None? && j.summary.None? && j.initialization == Ready
       case Completed =>
         j.attempts <= MAX_ASSIGNMENT_ATTEMPTS && j.deadline.None? && j.conclusion.Some? && j.summary.Some?
         && j.initialization == Ready
  }
}
