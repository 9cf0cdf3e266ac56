/**
 * Everything that can happen to the workspace tables, one event per stretch of a handler up to its
 * next suspension, and the tables after it.
 */
module Events {
  import opened Basics
  import opened Jobs
  import opened Leases

  datatype Event =
    | Enqueue(run: RunId, needsInitialization: bool, now: int)
    | Dispatch(run: RunId, agent: AgentId, now: int)
    | OnRow(run: RunId, row: RowEvent)
    | ConcurrencyAcquire(agent: AgentId, socket: SocketId, request: RequestId, ask: Ask)
    | ConcurrencyRelease(agent: AgentId, request: RequestId, run: RunId)
    | JobFinished(agent: AgentId, run: RunId, conclusion: Conclusion, summary: string)
    | Requeue(run: RunId, summary: string)
    | Connect(agent: AgentId, socket: SocketId)
    | Disconnect(agent: AgentId)
    | Prune(run: RunId)

  function LiveRuns(jobs: map<RunId, JobRow>, agent: AgentId): set<RunId> {
    set run | run in jobs && jobs[run].LiveOn(agent)
  }

  function CapacityOf(s: Server, agent: AgentId): nat {
    if agent in s.capacities then s.capacities[agent] else 0
  }

  /** `assignedJob` returns instead of throwing. */
  predicate Owned(s: Server, run: RunId, agent: AgentId) {
    run in s.jobs && s.jobs[run].OwnedBy(agent)
  }

  function SetJob(s: Server, run: RunId, j: JobRow): Server {
    s.(jobs := s.jobs[run := j])
  }

  ghost function Requeuing(s: Server, run: RunId, summary: string): Server {
    if run in s.jobs && s.jobs[run].Live()
    then SetJob(ReleaseForRun(s, run), run, Requeued(s.jobs[run], summary))
    else s
  }

  ghost function Finishing(s: Server, agent: AgentId, run: RunId, conclusion: Conclusion, summary: string): Server {
    if Owned(s, run, agent) && s.jobs[run].status != Completed
    then SetJob(ReleaseForRun(s, run), run, Finished(s.jobs[run], agent, conclusion, summary))
    else s
  }

  /** The tables after one event; an event whose guard fails leaves them alone. */
  ghost function Apply(s: Server, e: Event): Server {
    match e
    case Enqueue(run, needs, now) =>
      if run in s.repositories && run !in s.jobs then SetJob(s, run, Enqueued(needs, now)) else s
    case Dispatch(run, agent, now) =>
      if run in s.jobs && s.jobs[run].status == Queued && s.jobs[run].initialization == Ready
         && |LiveRuns(s.jobs, agent)| < CapacityOf(s, agent)
      then SetJob(s, run, Dispatched(s.jobs[run], agent, now)) else s
    case OnRow(run, row) =>
      if run in s.jobs then SetJob(s, run, RowAfter(s.jobs[run], row)) else s
    case ConcurrencyAcquire(agent, socket, request, ask) =>
      if Owned(s, ask.run, agent) && ask.run in s.repositories then Acquire(s, socket, agent, request, ask) else s
    case ConcurrencyRelease(agent, request, run) => Release(s, request, run, agent)
    case JobFinished(agent, run, conclusion, summary) => Finishing(s, agent, run, conclusion, summary)
    case Requeue(run, summary) => Requeuing(s, run, summary)
    case Connect(agent, socket) =>
      if agent !in s.connected && socket !in s.sent
      then s.(connected := s.connected[agent := socket], sent := s.sent[socket := []]) else s
    case Disconnect(agent) => s.(connected := s.connected - {agent})
    case Prune(run) =>
      if run in s.jobs && s.jobs[run].status == Completed then s.(jobs := s.jobs - {run}) else s
  }

  /** A workspace before anything happened. */
  predicate Fresh(s: Server) {
    s.jobs == map[] && s.leases == map[] && s.connected == map[] && s.sent == map[]
  }

  ghost function Run(s: Server, events: seq<Event>): Server
    decreases |events|
  {
    if events == [] then s else Apply(Run(s, events[..|events| - 1]), events[|events| - 1])
  }
}
