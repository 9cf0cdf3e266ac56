/** The lease tables, and each operation on them as a function from tables to tables. */
module Leases {
  import opened Basics
  import opened Jobs

  type RequestId = nat
  type SocketId = nat

  const MAX_WAITING := 100

  datatype GroupKey = GroupKey(repository: string, group: string)
  datatype LeaseStatus = Waiting | Active | Cancelling
  datatype QueueMode = Single | Max

  datatype Lease = Lease(
    sequence: nat,
    run: RunId,
    agent: AgentId,
    group: GroupKey,
    unit: string,
    queue: QueueMode,
    status: LeaseStatus)
  {
    /** The two statuses the unique index `concurrency_active` ranges over. */
    predicate Held() {
      status != Waiting
    }
  }

  datatype ServerMessage = Granted(request: RequestId) | Cancelled(request: RequestId)

  /** What an agent asks for in `concurrency_acquire`. */
  datatype Ask = Ask(run: RunId, unit: string, group: string, cancelInProgress: bool, queue: QueueMode)

  /**
   * `connected` names each agent's open socket; `sent` holds, per socket, the messages sent and not
   * received yet. `repositories` is the immutable repository of each run.
   */
  datatype Server = Server(
    repositories: map<RunId, string>,
    capacities: map<AgentId, nat>,
    jobs: map<RunId, JobRow>,
    leases: map<RequestId, Lease>,
    nextSequence: nat,
    connected: map<AgentId, SocketId>,
    sent: map<SocketId, seq<ServerMessage>>)

  function KeyOf(repository: string, group: string): GroupKey {
    GroupKey(Lower(repository), Lower(Trim(group)))
  }

  /** Only the lease rows, the sequence counter and the outboxes may differ. */
  predicate SameElsewhere(s: Server, t: Server) {
    && t.repositories == s.repositories && t.capacities == s.capacities
    && t.jobs == s.jobs && t.connected == s.connected
  }

  // ---------------------------------------------------------------- rows in sequence order

  predicate SequencesUnique(leases: map<RequestId, Lease>) {
    forall r, q | r in leases && q in leases && leases[r].sequence == leases[q].sequence :: r == q
  }

  predicate IsFirst(leases: map<RequestId, Lease>, ids: set<RequestId>, r: RequestId)
    requires ids <= leases.Keys
  {
    r in ids && forall q | q in ids :: leases[r].sequence <= leases[q].sequence
  }

  lemma FirstExists(leases: map<RequestId, Lease>, ids: set<RequestId>)
    requires ids <= leases.Keys && ids != {}
    ensures exists r :: IsFirst(leases, ids, r)
  {
    var x :| x in ids;
    if ids == {x} {
      assert IsFirst(leases, ids, x);
    } else {
      FirstExists(leases, ids - {x});
      var r :| IsFirst(leases, ids - {x}, r);
      assert IsFirst(leases, ids, if leases[x].sequence < leases[r].sequence then x else r);
    }
  }

  /** The row with the least sequence number. */
  ghost function First(leases: map<RequestId, Lease>, ids: set<RequestId>): (r: RequestId)
    requires ids <= leases.Keys && ids != {}
    ensures IsFirst(leases, ids, r)
  {
    FirstExists(leases, ids);
    var r :| IsFirst(leases, ids, r);
    r
  }

  /** ORDER BY sequence. */
  ghost function Ordered(leases: map<RequestId, Lease>, ids: set<RequestId>): (rows: seq<RequestId>)
    requires ids <= leases.Keys
    ensures forall r :: r in rows <==> r in ids
    decreases |ids|
  {
    if ids == {} then [] else
      var r := First(leases, ids);
      [r] + Ordered(leases, ids - {r})
  }

  // ---------------------------------------------------------------- sending

  function Outbox(sent: map<SocketId, seq<ServerMessage>>, socket: SocketId): seq<ServerMessage> {
    if socket in sent then sent[socket] else []
  }

  /** sendToAgent: appended to the agent's open socket, lost when there is none. */
  function Send(s: Server, agent: AgentId, m: ServerMessage): Server {
    if agent in s.connected
    then s.(sent := s.sent[s.connected[agent] := Outbox(s.sent, s.connected[agent]) + [m]])
    else s
  }

  /** sendServer on the socket a message came from; nothing is delivered once it has closed. */
  function Reply(s: Server, agent: AgentId, socket: SocketId, m: ServerMessage): Server {
    if agent in s.connected && s.connected[agent] == socket then Send(s, agent, m) else s
  }

  /** sendConcurrencyCancellation for each of `ids`, whose rows are read from `rows`. */
  function Cancel(s: Server, ids: seq<RequestId>, rows: map<RequestId, Lease>): (t: Server)
    requires forall r | r in ids :: r in rows
    ensures SameElsewhere(s, t) && t.leases == s.leases && t.nextSequence == s.nextSequence
    decreases |ids|
  {
    if ids == [] then s
    else Cancel(Send(s, rows[ids[0]].agent, Cancelled(ids[0])), ids[1..], rows)
  }

  // ---------------------------------------------------------------- queries on the lease table

  function WaitingIn(leases: map<RequestId, Lease>, g: GroupKey): set<RequestId> {
    set r | r in leases && leases[r].group == g && leases[r].status == Waiting
  }

  function HeldIn(leases: map<RequestId, Lease>, g: GroupKey): set<RequestId> {
    set r | r in leases && leases[r].group == g && leases[r].Held()
  }

  function OfRun(leases: map<RequestId, Lease>, run: RunId): set<RequestId> {
    set r | r in leases && leases[r].run == run
  }

  predicate RunLiveOn(jobs: map<RunId, JobRow>, run: RunId, agent: AgentId) {
    run in jobs && jobs[run].LiveOn(agent)
  }

  /** The rows the promotion query joins with the job table. */
  function Promotable(s: Server, g: GroupKey): set<RequestId> {
    set r | r in s.leases && s.leases[r].group == g && s.leases[r].status == Waiting
            && RunLiveOn(s.jobs, s.leases[r].run, s.leases[r].agent)
  }

  // ---------------------------------------------------------------- promotion and release

  function SetStatus(s: Server, r: RequestId, status: LeaseStatus): Server
    requires r in s.leases
  {
    s.(leases := s.leases[r := s.leases[r].(status := status)])
  }

  function Delete(s: Server, ids: set<RequestId>): Server {
    s.(leases := s.leases - ids)
  }

  ghost function Promote(s: Server, g: GroupKey): (t: Server)
    ensures SameElsewhere(s, t) && t.nextSequence == s.nextSequence
    decreases |Promotable(s, g)|
  {
    if HeldIn(s.leases, g) != {} || Promotable(s, g) == {} then s
    else
      var r := First(s.leases, Promotable(s, g));
      if s.leases[r].agent in s.connected
      then Send(SetStatus(s, r, Active), s.leases[r].agent, Granted(r))
      else
        assert Promotable(Delete(s, {r}), g) == Promotable(s, g) - {r};
        Promote(Delete(s, {r}), g)
  }

  ghost function PromoteAll(s: Server, groups: seq<GroupKey>): (t: Server)
    ensures SameElsewhere(s, t) && t.nextSequence == s.nextSequence
    decreases |groups|
  {
    if groups == [] then s else PromoteAll(Promote(s, groups[0]), groups[1..])
  }

  /** The distinct groups of the rows that were not merely waiting, in row order. */
  function FreedGroups(ids: seq<RequestId>, rows: map<RequestId, Lease>): (groups: seq<GroupKey>)
    requires forall r | r in ids :: r in rows
    ensures forall g :: g in groups <==> exists r :: r in ids && rows[r].Held() && rows[r].group == g
    decreases |ids|
  {
    if ids == [] then []
    else
      var last := ids[|ids| - 1];
      var groups := FreedGroups(ids[..|ids| - 1], rows);
      assert ids == ids[..|ids| - 1] + [last];
      if rows[last].Held() && rows[last].group !in groups then groups + [rows[last].group] else groups
  }

  ghost function Release(s: Server, request: RequestId, run: RunId, agent: AgentId): (t: Server)
    ensures SameElsewhere(s, t) && t.nextSequence == s.nextSequence
  {
    if request in s.leases && s.leases[request].run == run && s.leases[request].agent == agent then
      if s.leases[request].Held()
      then Promote(Delete(s, {request}), s.leases[request].group)
      else Delete(s, {request})
    else s
  }

  ghost function ReleaseForRun(s: Server, run: RunId): (t: Server)
    ensures SameElsewhere(s, t) && t.nextSequence == s.nextSequence
  {
    var ids := Ordered(s.leases, OfRun(s.leases, run));
    PromoteAll(Cancel(Delete(s, OfRun(s.leases, run)), ids, s.leases), FreedGroups(ids, s.leases))
  }

  // ---------------------------------------------------------------- acquisition

  /** The answer to a request id that already has a row. */
  function Repeat(s: Server, socket: SocketId, agent: AgentId, request: RequestId, run: RunId): Server
    requires request in s.leases
  {
    var row := s.leases[request];
    if row.run != run || row.agent != agent || row.status == Cancelling then Reply(s, agent, socket, Cancelled(request))
    else if row.status == Active then Reply(s, agent, socket, Granted(request))
    else s
  }

  /** The single-pending queue empties the group's waiting rows; the cancellations are sent later. */
  function Displaced(s: Server, g: GroupKey, queue: QueueMode): set<RequestId> {
    if queue == Single then WaitingIn(s.leases, g) else {}
  }

  /** The second half of the transaction: the holder is marked if asked for, and the new row inserted. */
  ghost function Entered(s: Server, agent: AgentId, request: RequestId, ask: Ask, g: GroupKey): (t: Server)
    ensures SameElsewhere(s, t) && t.nextSequence == s.nextSequence + 1
  {
    var held := HeldIn(s.leases, g);
    var s2 := if ask.cancelInProgress && held != {} then SetStatus(s, First(s.leases, held), Cancelling) else s;
    var row := Lease(s.nextSequence, ask.run, agent, g, ask.unit, ask.queue, if held == {} then Active else Waiting);
    s2.(leases := s2.leases[request := row], nextSequence := s.nextSequence + 1)
  }

  /** The transaction of acquireConcurrency once the request is admitted. */
  ghost function Inserted(s: Server, agent: AgentId, request: RequestId, ask: Ask, g: GroupKey): (t: Server)
    ensures SameElsewhere(s, t) && t.nextSequence == s.nextSequence + 1
  {
    Entered(Delete(s, Displaced(s, g, ask.queue)), agent, request, ask, g)
  }

  ghost function AcquireNew(s: Server, socket: SocketId, agent: AgentId, request: RequestId, ask: Ask, g: GroupKey): (t: Server)
    ensures SameElsewhere(s, t)
  {
    if ask.queue == Max && |WaitingIn(s.leases, g)| >= MAX_WAITING then
      Reply(s, agent, socket, Cancelled(request))
    else
      var held := HeldIn(s.leases, g);
      var s1 := Inserted(s, agent, request, ask, g);
      var s2 := Cancel(s1, Ordered(s.leases, Displaced(s, g, ask.queue)), s.leases);
      if held == {} then Reply(s2, agent, socket, Granted(request))
      else if ask.cancelInProgress then Cancel(s2, [First(s.leases, held)], s.leases)
      else s2
  }

  /** `concurrency_acquire` after the ownership test. */
  ghost function Acquire(s: Server, socket: SocketId, agent: AgentId, request: RequestId, ask: Ask): (t: Server)
    requires ask.run in s.repositories
    ensures SameElsewhere(s, t)
  {
    if ask.queue == Max && ask.cancelInProgress then Reply(s, agent, socket, Cancelled(request))
    else if request in s.leases then Repeat(s, socket, agent, request, ask.run)
    else AcquireNew(s, socket, agent, request, ask, KeyOf(s.repositories[ask.run], ask.group))
  }
}
