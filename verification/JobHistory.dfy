/** What a job row stores, told from the events alone. */
module JobHistory {
  import opened Basics
  import opened Jobs
  import opened Leases
  import opened Events
  import opened JobMachine

  // ---------------------------------------------------------------- what an event does to run `run`

  datatype Outcome = Outcome(conclusion: Conclusion, summary: string)

  predicate Stored(s: Server, run: RunId, status: Status) {
    run in s.jobs && s.jobs[run].status == status
  }

  /** The run comes into being. */
  function Born(s: Server, e: Event, run: RunId): Option<int> {
    if e.Enqueue? && e.run == run && run in s.repositories && run !in s.jobs then Some(e.now) else None
  }

  /** An agent with room is given the run. */
  predicate SentTo(s: Server, e: Event, run: RunId) {
    && e.Dispatch? && e.run == run && Stored(s, run, Queued) && s.jobs[run].initialization == Ready
    && |LiveRuns(s.jobs, e.agent)| < CapacityOf(s, e.agent)
  }

  /** The agent that was given the run starts it. */
  predicate StartedBy(s: Server, e: Event, run: RunId) {
    e.OnRow? && e.run == run && e.row.JobStarted? && Stored(s, run, Assigned) && s.jobs[run].agent == Some(e.row.agent)
  }

  /** The agent that has the run reports that it is alive. */
  predicate BeatBy(s: Server, e: Event, run: RunId) {
    e.OnRow? && e.run == run && e.row.Heartbeat? && RunLiveOn(s.jobs, run, e.row.agent)
  }

  /** The agent that was given the run cannot satisfy its requirements. */
  predicate RejectedBy(s: Server, e: Event, run: RunId) {
    && e.OnRow? && e.run == run && e.row.JobRejected? && e.row.unsatisfied
    && Stored(s, run, Assigned) && s.jobs[run].agent == Some(e.row.agent)
  }

  /** The moment from which the lease of the run counts anew. */
  function Renewal(s: Server, e: Event, run: RunId): Option<int> {
    if SentTo(s, e, run) then Some(e.now)
    else if StartedBy(s, e, run) || BeatBy(s, e, run) then Some(e.row.now)
    else None
  }

  /** The outcome with which an event ends the run, for each of the five ways it can end. */
  function Ending(s: Server, e: Event, run: RunId): Option<Outcome> {
    if run !in s.jobs || s.jobs[run].status == Completed then None
    else
      var j := s.jobs[run];
      match e
      case JobFinished(agent, r, conclusion, summary) =>
        if r == run && j.LiveOn(agent) then Some(Outcome(conclusion, summary)) else None
      case Requeue(r, summary) =>
        if r == run && j.Live() && j.attempts >= 3 then Some(Outcome(Failure, summary)) else None
      case OnRow(r, QueueExpired(now, summary)) =>
        if r == run && j.status == Queued && j.queueExpiresAt <= now then Some(Outcome(TimedOut, summary)) else None
      case OnRow(r, InitializeExhausted(attempt, summary)) =>
        if r == run && 8 <= attempt <= j.initAttempts then Some(Outcome(Failure, summary)) else None
      case OnRow(r, InitializeConclude(conclusion, summary)) =>
        if r == run && j.status == Queued && j.initialization == Claimed then Some(Outcome(conclusion, summary)) else None
      case _ => None
  }

  /** When an initialization attempt is due next: at once, when its claim runs out, or when it asked to be retried. */
  function InitializationAt(s: Server, e: Event, run: RunId): Option<int> {
    if Born(s, e, run).Some? then (if e.needsInitialization then Some(e.now) else None)
    else if !(e.OnRow? && e.run == run && Stored(s, run, Queued)) then None
    else
      var j := s.jobs[run];
      match e.row
      case InitializeClaim(now) =>
        if j.initialization != Ready && j.initRetryAt.Some? && j.initRetryAt.value <= now then Some(now + 120_000) else None
      case InitializeRetry(attempt, retryAt) =>
        if j.initialization == Claimed && 1 <= attempt <= j.initAttempts && attempt < 8 then Some(retryAt) else None
      case _ => None
  }

  /** How far the initialization is after the event: waiting, claimed, or not to be done any more. */
  function NewPhase(s: Server, e: Event, run: RunId): Option<Initialization> {
    if Born(s, e, run).Some? then Some(if e.needsInitialization then Pending else Ready)
    else if InitializationAt(s, e, run).Some? then Some(if e.row.InitializeClaim? then Claimed else Pending)
    else if Ending(s, e, run).Some? then Some(Ready)
    else if e == OnRow(run, InitializeDone) && Stored(s, run, Queued) && s.jobs[run].initialization == Claimed then Some(Ready)
    else None
  }

  /** The run goes back to the queue: justly rejected, or its agent is lost with attempts left. */
  predicate SentBack(s: Server, e: Event, run: RunId) {
    || RejectedBy(s, e, run)
    || (e.Requeue? && e.run == run && run in s.jobs && s.jobs[run].Live() && Ending(s, e, run).None?)
  }

  /** The status an event gives the run, if it concerns it. */
  function NewStatus(s: Server, e: Event, run: RunId): Option<Status> {
    if Born(s, e, run).Some? || SentBack(s, e, run) then Some(Queued)
    else if SentTo(s, e, run) then Some(Assigned)
    else if StartedBy(s, e, run) then Some(Running)
    else if Ending(s, e, run).Some? then Some(Completed)
    else None
  }

  // ---------------------------------------------------------------- the last event of a kind in a run

  ghost function BornAt(s: Server, events: seq<Event>, run: RunId): Option<int> {
    if events == [] then None
    else
      var front, e := events[..|events| - 1], events[|events| - 1];
      var now := Born(Run(s, front), e, run);
      if now.Some? then now else BornAt(s, front, run)
  }

  ghost function RenewedAt(s: Server, events: seq<Event>, run: RunId): Option<int> {
    if events == [] then None
    else
      var front, e := events[..|events| - 1], events[|events| - 1];
      var now := Renewal(Run(s, front), e, run);
      if now.Some? then now else RenewedAt(s, front, run)
  }

  ghost function LastAgent(s: Server, events: seq<Event>, run: RunId): Option<AgentId> {
    if events == [] then None
    else
      var front, e := events[..|events| - 1], events[|events| - 1];
      if SentTo(Run(s, front), e, run) then Some(e.agent) else LastAgent(s, front, run)
  }

  ghost function LastOutcome(s: Server, events: seq<Event>, run: RunId): Option<Outcome> {
    if events == [] then None
    else
      var front, e := events[..|events| - 1], events[|events| - 1];
      var outcome := Ending(Run(s, front), e, run);
      if outcome.Some? then outcome else LastOutcome(s, front, run)
  }

  ghost function NextInitialization(s: Server, events: seq<Event>, run: RunId): Option<int> {
    if events == [] then None
    else
      var front, e := events[..|events| - 1], events[|events| - 1];
      var at := InitializationAt(Run(s, front), e, run);
      if at.Some? then at else NextInitialization(s, front, run)
  }

  ghost function StatusNow(s: Server, events: seq<Event>, run: RunId): Option<Status> {
    if events == [] then None
    else
      var front, e := events[..|events| - 1], events[|events| - 1];
      var status := NewStatus(Run(s, front), e, run);
      if status.Some? then status else StatusNow(s, front, run)
  }

  ghost function PhaseNow(s: Server, events: seq<Event>, run: RunId): Option<Initialization> {
    if events == [] then None
    else
      var front, e := events[..|events| - 1], events[|events| - 1];
      var phase := NewPhase(Run(s, front), e, run);
      if phase.Some? then phase else PhaseNow(s, front, run)
  }

  /** What the last justified rejection said the run requires. */
  ghost function RequiredNow(s: Server, events: seq<Event>, run: RunId): seq<Requirement> {
    if events == [] then []
    else
      var front, e := events[..|events| - 1], events[|events| - 1];
      if Born(Run(s, front), e, run).Some? then []
      else if RejectedBy(Run(s, front), e, run) then e.row.requirements
      else RequiredNow(s, front, run)
  }

  /** Dispatches less justified rejections, since the run came into being. */
  ghost function AttemptsMade(s: Server, events: seq<Event>, run: RunId): int {
    if events == [] then 0
    else
      var front, e := events[..|events| - 1], events[|events| - 1];
      var before := Run(s, front);
      if Born(before, e, run).Some? then 0
      else AttemptsMade(s, front, run)
           + (if SentTo(before, e, run) then 1 else if RejectedBy(before, e, run) then -1 else 0)
  }

  // ---------------------------------------------------------------- the law

  predicate Ended(j: JobRow, outcome: Option<Outcome>) {
    && j.status == Completed && outcome.Some?
    && j.conclusion == Some(outcome.value.conclusion) && j.summary == Some(outcome.value.summary)
  }

  /** Everything a stored row says is what the events of the run say. */
  ghost predicate Told(s: Server, events: seq<Event>, run: RunId, j: JobRow) {
    && BornAt(s, events, run) == Some(j.createdAt) && j.queueExpiresAt == j.createdAt + 86_400_000
    && StatusNow(s, events, run) == Some(j.status) && j.requirements == RequiredNow(s, events, run)
    && j.attempts == AttemptsMade(s, events, run) && PhaseNow(s, events, run) == Some(j.initialization)
    && (j.Live() ==> LastAgent(s, events, run) == j.agent && RenewedAt(s, events, run).Some?
                     && j.deadline == Some(RenewedAt(s, events, run).value + 60_000))
    && (j.initRetryAt.Some? ==> j.initRetryAt == NextInitialization(s, events, run))
    && (j.status == Completed ==> Ended(j, LastOutcome(s, events, run)))
  }

  // ---------------------------------------------------------------- one event

  /** How the row of `run` moves in one event. */
  ghost predicate Moves(s: Server, e: Event, run: RunId, before: Option<JobRow>, j: JobRow) {
    && (before.None? ==> Born(s, e, run) == Some(j.createdAt) && j.attempts == 0 && j.status == Queued && j.requirements == []
                         && NewPhase(s, e, run) == Some(j.initialization)
                         && j.queueExpiresAt == j.createdAt + 86_400_000 && j.initRetryAt == InitializationAt(s, e, run))
    && (before.Some? ==>
          var b := before.value;
          && Born(s, e, run).None? && j.createdAt == b.createdAt && j.queueExpiresAt == b.queueExpiresAt
          && j.attempts == b.attempts + (if SentTo(s, e, run) then 1 else if RejectedBy(s, e, run) then -1 else 0)
          && j.requirements == (if RejectedBy(s, e, run) then e.row.requirements else b.requirements)
          && j.status == NewStatus(s, e, run).GetOr(b.status) && j.initialization == NewPhase(s, e, run).GetOr(b.initialization)
          && (SentTo(s, e, run) ==> j.agent == Some(e.agent))
          && (j.Live() && !SentTo(s, e, run) ==> b.Live() && j.agent == b.agent)
          && (Renewal(s, e, run).Some? ==> j.deadline == Some(Renewal(s, e, run).value + 60_000))
          && (Renewal(s, e, run).None? && j.Live() ==> b.Live() && j.deadline == b.deadline)
          && (j.initRetryAt.Some? ==> j.initRetryAt == if InitializationAt(s, e, run).Some? then InitializationAt(s, e, run) else b.initRetryAt)
          && (Ending(s, e, run).Some? ==> Ended(j, Ending(s, e, run)))
          && (Ending(s, e, run).None? && j.status == Completed ==>
                b.status == Completed && j.conclusion == b.conclusion && j.summary == b.summary))
  }

  function RowOf(s: Server, run: RunId): Option<JobRow> {
    if run in s.jobs then Some(s.jobs[run]) else None
  }

  lemma RowMoves(s: Server, run: RunId, row: RowEvent)
    requires run in s.jobs && RowOk(s.jobs[run])
    ensures Moves(s, OnRow(run, row), run, Some(s.jobs[run]), RowAfter(s.jobs[run], row))
  {
    hide LiveRuns;
    match row
    case Heartbeat(a, now) =>
    case JobStarted(a, now) =>
    case JobRejected(a, requirements, unsatisfied) =>
    case QueueExpired(now, summary) =>
    case InitializeClaim(now) =>
    case InitializeDone =>
    case InitializeRetry(attempt, retryAt) =>
    case InitializeExhausted(attempt, summary) =>
    case InitializeConclude(conclusion, summary) =>
  }

  lemma EnqueueMoves(s: Server, e: Event, run: RunId)
    requires e.Enqueue? && run in Apply(s, e).jobs && (run in s.jobs ==> RowOk(s.jobs[run]))
    ensures Moves(s, e, run, RowOf(s, run), Apply(s, e).jobs[run])
  {
  }

  lemma DispatchMoves(s: Server, e: Event, run: RunId)
    requires e.Dispatch? && run in Apply(s, e).jobs && (run in s.jobs ==> RowOk(s.jobs[run]))
    ensures Moves(s, e, run, RowOf(s, run), Apply(s, e).jobs[run])
  {
    hide LiveRuns;
  }

  lemma LeavingMoves(s: Server, e: Event, run: RunId)
    requires e.JobFinished? || e.Requeue?
    requires run in Apply(s, e).jobs && (run in s.jobs ==> RowOk(s.jobs[run]))
    ensures Moves(s, e, run, RowOf(s, run), Apply(s, e).jobs[run])
  {
    hide ReleaseForRun, LiveRuns;
  }

  lemma OtherMoves(s: Server, e: Event, run: RunId)
    requires run in s.jobs && RowOk(s.jobs[run]) && run in Apply(s, e).jobs && Apply(s, e).jobs[run] == s.jobs[run]
    requires match e
             case Enqueue(_, _, _) => false
             case Dispatch(r, _, _) => r != run
             case OnRow(r, _) => r != run
             case JobFinished(_, r, _, _) => r != run
             case Requeue(r, _) => r != run
             case _ => true
    ensures Moves(s, e, run, RowOf(s, run), Apply(s, e).jobs[run])
  {
    hide Apply, LiveRuns;
  }

  lemma EventMoves(s: Server, e: Event, run: RunId)
    requires JobsOk(s) && run in Apply(s, e).jobs
    ensures Moves(s, e, run, RowOf(s, run), Apply(s, e).jobs[run])
  {
    assert run in s.jobs ==> RowOk(s.jobs[run]);
    hide Acquire, Release, ReleaseForRun, LiveRuns, Moves, RowOk, JobsOk, RowAfter, Finished, Requeued, Enqueued, Dispatched;
    match e
    case Enqueue(_, _, _) => EnqueueMoves(s, e, run);
    case Dispatch(_, _, _) => DispatchMoves(s, e, run);
    case OnRow(r, row) => if r == run && run in s.jobs { RowMoves(s, run, row); } else { OtherMoves(s, e, run); }
    case JobFinished(_, _, _, _) => LeavingMoves(s, e, run);
    case Requeue(_, _) => LeavingMoves(s, e, run);
    case _ => OtherMoves(s, e, run);
  }

  // ---------------------------------------------------------------- every run

  lemma NewStatusOf(s: Server, e: Event, run: RunId)
    ensures Born(s, e, run).Some? ==> NewStatus(s, e, run) == Some(Queued)
  {
  }

  lemma ToldNext(s: Server, events: seq<Event>, run: RunId, j: JobRow)
    requires events != []
    requires var front, e := events[..|events| - 1], events[|events| - 1];
             var u := Run(s, front);
             && Moves(u, e, run, RowOf(u, run), j)
             && (run in u.jobs ==> RowOk(u.jobs[run]) && Told(s, front, run, u.jobs[run]))
    requires RowOk(j)
    ensures Told(s, events, run, j)
  {
    NewStatusOf(Run(s, events[..|events| - 1]), events[|events| - 1], run);
    hide Run, Born, Renewal, SentTo, RejectedBy, Ending, InitializationAt, NewStatus, NewPhase;
  }

  /** Over every run, whatever is stored of a run is what its events say. */
  lemma {:induction false} HistoryTold(s: Server, events: seq<Event>, run: RunId)
    requires Fresh(s) && run in Run(s, events).jobs
    ensures Told(s, events, run, Run(s, events).jobs[run])
    decreases |events|
  {
    var front, e := events[..|events| - 1], events[|events| - 1];
    var u := Run(s, front);
    JobsOkAlways(s, front);
    JobsOkAlways(s, events);
    EventMoves(u, e, run);
    if run in u.jobs { HistoryTold(s, front, run); }
    assert RowOk(Run(s, events).jobs[run]);
    assert run in u.jobs ==> RowOk(u.jobs[run]);
    hide Apply, Moves, Told, RowOk, JobsOk;
    ToldNext(s, events, run, Run(s, events).jobs[run]);
  }

  /** Only a completed run is ever removed. */
  lemma RemovedWasCompleted(s: Server, e: Event, run: RunId)
    requires JobsOk(s) && run in s.jobs && run !in Apply(s, e).jobs
    ensures e == Prune(run) && s.jobs[run].status == Completed
  {
    ApplyKeepsJobs(s, e);
  }
}
