/** The whole lease protocol over two FIFO channels per connection. */
module ConcurrencyProtocol {
  import opened Basics
  import opened Jobs
  import opened Leases
  import opened LeaseTable
  import opened Events
  import opened LeaseQueue
  import opened LeaseWire
  import opened AgentLeases

  /**
   * The workspace and one client per connection. Every handler runs as one step, in any order the
   * environment likes. `owner` remembers which connection drew each request id.
   */
  datatype System = System(server: Server, clients: map<SocketId, Client>, owner: map<RequestId, SocketId>)

  datatype Step =
    | Spontaneous(event: Event)
    | Open(agent: AgentId, socket: SocketId)
    | Close(agent: AgentId)
    | ServerReceives(socket: SocketId)
    | AgentReceives(socket: SocketId)
    | AgentBegins(socket: SocketId, request: RequestId, ask: Ask)
    | AgentResolves(socket: SocketId, request: RequestId)
    | AgentAbandons(socket: SocketId, request: RequestId)
    | AgentReleases(socket: SocketId, request: RequestId)
    | AgentDrops(socket: SocketId, request: RequestId, lockFree: bool, room: bool)
    | AgentCancelsAll(socket: SocketId)
    | Lose(socket: SocketId)

  predicate Fresh0(y: System) {
    Fresh(y.server) && y.clients == map[] && y.owner == map[]
  }

  /** Request ids are random: a new one occurs nowhere in the system. */
  predicate Unused(y: System, r: RequestId) {
    && r !in y.server.leases && r !in y.owner
    && (forall k, m | k in y.server.sent && m in y.server.sent[k] :: m.request != r)
  }

  predicate IsOpen(y: System, k: SocketId) {
    k in y.clients && y.clients[k].agent in y.server.connected && y.server.connected[y.clients[k].agent] == k
  }

  function SetClient(y: System, k: SocketId, c: Client): System {
    y.(clients := y.clients[k := c])
  }

  /** Events the environment and the job handlers cause; lease messages arrive only through a channel. */
  predicate FromEnvironment(e: Event) {
    !(e.ConcurrencyAcquire? || e.ConcurrencyRelease? || e.Connect? || e.Disconnect?)
  }

  function EventOf(c: Client, k: SocketId, m: AgentMessage): Event {
    match m
    case AcquireMessage(r, ask) => ConcurrencyAcquire(c.agent, k, r, ask)
    case ReleaseMessage(r, run) => ConcurrencyRelease(c.agent, r, run)
  }

  ghost function Take(y: System, step: Step): System {
    match step
    case Spontaneous(e) => if FromEnvironment(e) then y.(server := Apply(y.server, e)) else y
    case Open(agent, k) =>
      if agent !in y.server.connected && k !in y.server.sent && k !in y.clients
      then System(Apply(y.server, Connect(agent, k)), y.clients[k := NewClient(agent)], y.owner) else y
    case Close(agent) => y.(server := Apply(y.server, Disconnect(agent)))
    case ServerReceives(k) =>
      if k in y.clients && y.clients[k].outbound != [] then
        var c := y.clients[k];
        System(Apply(y.server, EventOf(c, k, c.outbound[0])), y.clients[k := c.(outbound := c.outbound[1..])], y.owner)
      else y
    case AgentReceives(k) =>
      if k in y.clients && Outbox(y.server.sent, k) != [] then
        var inbox := Outbox(y.server.sent, k);
        System(y.server.(sent := y.server.sent[k := inbox[1..]]), y.clients[k := Received(y.clients[k], inbox[0])], y.owner)
      else y
    case AgentBegins(k, r, ask) =>
      if k in y.clients && Unused(y, r)
      then SetClient(y, k, Begin(y.clients[k], r, ask)).(owner := y.owner[r := k]) else y
    case AgentResolves(k, r) => if k in y.clients then SetClient(y, k, Resolve(y.clients[k], r)) else y
    case AgentAbandons(k, r) => if k in y.clients then SetClient(y, k, Abandon(y.clients[k], r)) else y
    case AgentReleases(k, r) => if k in y.clients then SetClient(y, k, ReleaseLease(y.clients[k], r)) else y
    case AgentDrops(k, r, lockFree, room) =>
      if k in y.clients then SetClient(y, k, DropLease(y.clients[k], r, lockFree, room)) else y
    case AgentCancelsAll(k) => if k in y.clients then SetClient(y, k, CancelAll(y.clients[k])) else y
    case Lose(k) =>
      // a closed connection may lose whatever was still on its way
      if k in y.clients && !IsOpen(y, k)
      then System(y.server.(sent := y.server.sent[k := []]), y.clients[k := y.clients[k].(outbound := [])], y.owner) else y
  }

  ghost function Execute(y: System, steps: seq<Step>): System
    decreases |steps|
  {
    if steps == [] then y else Take(Execute(y, steps[..|steps| - 1]), steps[|steps| - 1])
  }

  // ---------------------------------------------------------------- the invariant

  /** A grant was received or is on its way, and no cancellation was received or is on its way. */
  predicate EntitledBy(c: Client, inbox: seq<ServerMessage>, r: RequestId) {
    && r in c.requests && Unreleased(c, r) && r !in c.cancelled
    && Cancelled(r) !in inbox
    && (c.requests[r].granted || Granted(r) in inbox)
  }

  predicate Entitled(y: System, k: SocketId, r: RequestId) {
    IsOpen(y, k) && EntitledBy(y.clients[k], Outbox(y.server.sent, k), r)
  }

  ghost predicate Wiring(y: System) {
    && (forall a | a in y.server.connected :: y.server.connected[a] in y.clients && y.clients[y.server.connected[a]].agent == a)
    && (forall k | k in y.clients :: ClientOk(y.clients[k]))
    && (forall k, r | k in y.clients && r in y.clients[k].asks :: r in y.owner && y.owner[r] == k)
  }

  /** A lease row carries what its request asked for. */
  predicate RowMatches(s: Server, r: RequestId, c: Client)
    requires r in s.leases && r in c.asks
  {
    var row, ask := s.leases[r], c.asks[r];
    && row.agent == c.agent && row.run == ask.run
    && ask.run in s.repositories && row.group == KeyOf(s.repositories[ask.run], ask.group)
  }

  ghost predicate RowsMatch(y: System) {
    forall k, r | k in y.clients && r in y.clients[k].asks && r in y.server.leases :: RowMatches(y.server, r, y.clients[k])
  }

  ghost predicate Backed(y: System) {
    forall k, r | Entitled(y, k, r) :: ActiveFor(y.server, r, y.clients[k].agent)
  }

  ghost predicate Invariant(y: System) {
    TableOk(y.server) && Wiring(y) && RowsMatch(y) && Backed(y)
  }

  lemma SocketsAreDistinct(y: System)
    requires Wiring(y)
    ensures SocketsDistinct(y.server)
  {
  }

  // ---------------------------------------------------------------- agent steps

  lemma ReceivingEntitlesNobody(c: Client, inbox: seq<ServerMessage>)
    requires inbox != []
    ensures forall r | EntitledBy(Received(c, inbox[0]), inbox[1..], r) :: EntitledBy(c, inbox, r)
  {
    assert inbox == [inbox[0]] + inbox[1..];
  }

  lemma ActingEntitlesNobody(c: Client, inbox: seq<ServerMessage>, r: RequestId, lockFree: bool, room: bool)
    requires ClientOk(c)
    ensures forall q | EntitledBy(Resolve(c, r), inbox, q) :: EntitledBy(c, inbox, q)
    ensures forall q | EntitledBy(Abandon(c, r), inbox, q) :: EntitledBy(c, inbox, q)
    ensures forall q | EntitledBy(ReleaseLease(c, r), inbox, q) :: EntitledBy(c, inbox, q)
    ensures forall q | EntitledBy(DropLease(c, r, lockFree, room), inbox, q) :: EntitledBy(c, inbox, q)
    ensures forall q | EntitledBy(CancelAll(c), inbox, q) :: EntitledBy(c, inbox, q)
  {
  }

  lemma BeginningEntitlesNobody(c: Client, inbox: seq<ServerMessage>, r: RequestId, ask: Ask)
    requires forall m | m in inbox :: m.request != r
    ensures forall q | EntitledBy(Begin(c, r, ask), inbox, q) :: EntitledBy(c, inbox, q)
  {
  }

  /** What an agent step may do to its client: ask for something new, or less. */
  ghost predicate AgentStepOk(y: System, k: SocketId, c: Client, owner: map<RequestId, SocketId>)
    requires k in y.clients
  {
    && ClientOk(c) && c.agent == y.clients[k].agent
    && owner.Keys >= y.owner.Keys
    && (forall r | r in y.owner :: owner[r] == y.owner[r])
    && (forall r | r in c.asks && r in y.server.leases :: r in y.clients[k].asks && c.asks[r] == y.clients[k].asks[r])
    && (forall r | r in c.asks :: r in y.clients[k].asks || (r in owner && owner[r] == k))
  }

  lemma AgentStepWiring(y: System, k: SocketId, z: System)
    requires Wiring(y) && k in y.clients && k in z.clients && AgentStepOk(y, k, z.clients[k], z.owner)
    requires z.clients == y.clients[k := z.clients[k]] && z.server.connected == y.server.connected
    ensures Wiring(z)
  {
    hide ClientOk;
  }

  lemma AgentStepMatches(y: System, k: SocketId, z: System)
    requires RowsMatch(y) && k in y.clients && k in z.clients && AgentStepOk(y, k, z.clients[k], z.owner)
    requires z.clients == y.clients[k := z.clients[k]]
    requires z.server.leases == y.server.leases && z.server.repositories == y.server.repositories
    ensures RowsMatch(z)
  {
    hide ClientOk;
    forall l, r | l in z.clients && r in z.clients[l].asks && r in z.server.leases ensures RowMatches(z.server, r, z.clients[l]) {
      assert RowMatches(y.server, r, y.clients[l]);
    }
  }

  lemma AgentStepBacked(y: System, k: SocketId, z: System)
    requires Backed(y) && k in y.clients && k in z.clients && z.clients[k].agent == y.clients[k].agent
    requires z.clients == y.clients[k := z.clients[k]]
    requires z.server.leases == y.server.leases && z.server.connected == y.server.connected
    requires forall l | l != k :: Outbox(z.server.sent, l) == Outbox(y.server.sent, l)
    requires forall r | EntitledBy(z.clients[k], Outbox(z.server.sent, k), r) :: EntitledBy(y.clients[k], Outbox(y.server.sent, k), r)
    ensures Backed(z)
  {
    hide EntitledBy;
    forall l, r | Entitled(z, l, r) ensures ActiveFor(z.server, r, z.clients[l].agent) {
      assert Entitled(y, l, r);
    }
  }

  /** The client at `k` becomes `c`, possibly with a shorter inbox, and is entitled to nothing new. */
  lemma AgentStepKeeps(y: System, k: SocketId, c: Client, sent: map<SocketId, seq<ServerMessage>>, owner: map<RequestId, SocketId>)
    requires Invariant(y) && k in y.clients && AgentStepOk(y, k, c, owner)
    requires forall l | l != k :: Outbox(sent, l) == Outbox(y.server.sent, l)
    requires forall r | EntitledBy(c, Outbox(sent, k), r) :: EntitledBy(y.clients[k], Outbox(y.server.sent, k), r)
    ensures Invariant(System(y.server.(sent := sent), y.clients[k := c], owner))
  {
    hide RowsOk, WaitingBounded, ClientOk, Wiring, RowsMatch, Backed, EntitledBy;
    var z := System(y.server.(sent := sent), y.clients[k := c], owner);
    AgentStepWiring(y, k, z);
    AgentStepMatches(y, k, z);
    AgentStepBacked(y, k, z);
  }

  lemma ReceivingIsStep(y: System, k: SocketId, m: ServerMessage)
    requires k in y.clients && ClientOk(Received(y.clients[k], m))
    ensures AgentStepOk(y, k, Received(y.clients[k], m), y.owner)
  {
    hide ClientOk;
  }

  lemma ReceivesKeeps(y: System, k: SocketId)
    requires Invariant(y) && k in y.clients && Outbox(y.server.sent, k) != []
    ensures Invariant(Take(y, AgentReceives(k)))
  {
    hide TableOk, RowsMatch, Backed, AgentStepOk;
    var c, sent := y.clients[k], y.server.sent;
    var inbox := Outbox(sent, k);
    ClientReceivesOk(c, inbox[0]);
    ReceivingEntitlesNobody(c, inbox);
    ReceivingIsStep(y, k, inbox[0]);
    AgentStepKeeps(y, k, Received(c, inbox[0]), sent[k := inbox[1..]], y.owner);
  }

  lemma BeginsKeeps(y: System, k: SocketId, r: RequestId, ask: Ask)
    requires Invariant(y) && k in y.clients && Unused(y, r)
    ensures Invariant(Take(y, AgentBegins(k, r, ask)))
  {
    hide TableOk, RowsMatch, Backed;
    var c, sent := y.clients[k], y.server.sent;
    assert r !in c.asks;
    ClientStepsOk(c, r, ask, true, true);
    BeginningEntitlesNobody(c, Outbox(sent, k), r, ask);
    hide ClientOk, EntitledBy;
    assert AgentStepOk(y, k, Begin(c, r, ask), y.owner[r := k]);
    AgentStepKeeps(y, k, Begin(c, r, ask), sent, y.owner[r := k]);
  }

  predicate Acts(c: Client, d: Client, r: RequestId, lockFree: bool, room: bool) {
    || d == Resolve(c, r) || d == Abandon(c, r) || d == ReleaseLease(c, r)
    || d == DropLease(c, r, lockFree, room) || d == CancelAll(c)
  }

  lemma ActingOk(c: Client, d: Client, inbox: seq<ServerMessage>, r: RequestId, lockFree: bool, room: bool)
    requires ClientOk(c) && Acts(c, d, r, lockFree, room)
    ensures ClientOk(d) && d.asks == c.asks && d.agent == c.agent
    ensures forall q | EntitledBy(d, inbox, q) :: EntitledBy(c, inbox, q)
  {
    ClientStepsOk(c, r, Ask(0, "", "", false, Single), lockFree, room);
    ClientReceivesOk(c, Granted(r));
    ActingEntitlesNobody(c, inbox, r, lockFree, room);
    hide ClientOk, EntitledBy;
  }

  lemma ActsKeeps(y: System, k: SocketId, r: RequestId, lockFree: bool, room: bool, d: Client)
    requires Invariant(y) && k in y.clients && Acts(y.clients[k], d, r, lockFree, room)
    ensures Invariant(SetClient(y, k, d))
  {
    hide TableOk, RowsMatch, Backed, Acts, EntitledBy;
    ActingOk(y.clients[k], d, Outbox(y.server.sent, k), r, lockFree, room);
    hide ClientOk;
    assert AgentStepOk(y, k, d, y.owner);
    AgentStepKeeps(y, k, d, y.server.sent, y.owner);
  }

  lemma AgentTakes(y: System, step: Step)
    requires Invariant(y)
    requires step.AgentReceives? || step.AgentBegins? || step.AgentResolves? || step.AgentAbandons?
             || step.AgentReleases? || step.AgentDrops? || step.AgentCancelsAll?
    ensures Invariant(Take(y, step))
  {
    hide Invariant;
    var k := step.socket;
    if k in y.clients {
      var c := y.clients[k];
      match step
      case AgentReceives(_) => if Outbox(y.server.sent, k) != [] { ReceivesKeeps(y, k); }
      case AgentBegins(_, r, ask) => if Unused(y, r) { BeginsKeeps(y, k, r, ask); }
      case AgentResolves(_, r) => ActsKeeps(y, k, r, true, true, Resolve(c, r));
      case AgentAbandons(_, r) => ActsKeeps(y, k, r, true, true, Abandon(c, r));
      case AgentReleases(_, r) => ActsKeeps(y, k, r, true, true, ReleaseLease(c, r));
      case AgentDrops(_, r, lockFree, room) => ActsKeeps(y, k, r, lockFree, room, DropLease(c, r, lockFree, room));
      case AgentCancelsAll(_) => ActsKeeps(y, k, 0, true, true, CancelAll(c));
    }
  }

  // ---------------------------------------------------------------- workspace steps

  lemma EnvironmentInStep(s: Server, e: Event)
    requires TableOk(s) && SocketsDistinct(s) && FromEnvironment(e)
    ensures InStep(s, Apply(s, e), {}) && Shrunk(s.leases, Apply(s, e).leases)
    ensures Apply(s, e).repositories == s.repositories
  {
    hide Acquire, Release, ReleaseForRun, RowAfter, Finished, Requeued, Dispatched, Enqueued, LiveRuns, TableOk, Owned, InStep, Shrunk;
    var t := Apply(s, e);
    var r := if e.JobFinished? || e.Requeue? then ReleaseForRun(s, e.run) else s;
    if r != s { RunReleased(s, e.run); }
    NothingInStep(s);
    assert OnlyJobs(s, t) || OnlyJobs(r, t);
    if OnlyJobs(s, t) { JobsInStep(s, s, t); } else { JobsInStep(s, r, t); }
  }

  /** Only the job table differs. */
  predicate OnlyJobs(s: Server, t: Server) {
    t.(jobs := s.jobs) == s
  }

  lemma NothingInStep(s: Server)
    ensures InStep(s, s, {}) && Shrunk(s.leases, s.leases)
  {
    assert OutboxesGrow(s, s);
  }

  lemma JobsInStep(s: Server, r: Server, t: Server)
    requires InStep(s, r, {}) && Shrunk(s.leases, r.leases) && OnlyJobs(r, t)
    ensures InStep(s, t, {}) && Shrunk(s.leases, t.leases)
  {
    forall k ensures Outbox(s.sent, k) <= Outbox(t.sent, k) { assert Outbox(s.sent, k) <= Outbox(r.sent, k); }
  }

  lemma RunReleased(s: Server, run: RunId)
    requires TableOk(s) && SocketsDistinct(s)
    ensures InStep(s, ReleaseForRun(s, run), {}) && Shrunk(s.leases, ReleaseForRun(s, run).leases)
  {
    ReleaseForRunInStep(s, run);
    ReleaseForRunEmpties(s, run);
  }

  /** Clients only sent something off. */
  ghost predicate OnlySent(y: System, z: System) {
    && z.owner == y.owner && z.clients.Keys == y.clients.Keys
    && forall k | k in z.clients :: ClientOk(z.clients[k]) && z.clients[k].(outbound := y.clients[k].outbound) == y.clients[k]
  }

  lemma StillActive(y: System, z: System, except: set<RequestId>, k: SocketId, r: RequestId)
    requires Backed(y) && InStep(y.server, z.server, except) && r !in except
    requires k in y.clients && k in z.clients && z.clients[k].(outbound := y.clients[k].outbound) == y.clients[k]
    requires Entitled(z, k, r)
    ensures ActiveFor(z.server, r, z.clients[k].agent)
  {
    var a := y.clients[k].agent;
    var before, after := Outbox(y.server.sent, k), Outbox(z.server.sent, k);
    assert before <= after;
    assert Cancelled(r) !in before;
    if y.clients[k].requests[r].granted || Granted(r) in before {
      assert Entitled(y, k, r);
    }
  }

  lemma ServerStepBacked(y: System, z: System, except: set<RequestId>)
    requires Backed(y) && Wiring(y) && InStep(y.server, z.server, except) && OnlySent(y, z)
    requires forall k, r | k in y.clients && r in except && r in y.clients[k].asks :: !Unreleased(y.clients[k], r)
    ensures Backed(z)
  {
    forall k, r | Entitled(z, k, r) ensures ActiveFor(z.server, r, z.clients[k].agent) {
      assert ClientOk(z.clients[k]);
      assert r in z.clients[k].asks && r in y.clients[k].asks;
      assert Unreleased(y.clients[k], r);
      hide ClientOk, Backed, InStep, Entitled;
      StillActive(y, z, except, k, r);
    }
  }

  /** The tables move in step with the wire; nobody unreleased is in `except`; clients only send. */
  lemma ServerStepKeeps(y: System, z: System, except: set<RequestId>)
    requires Invariant(y) && TableOk(z.server) && InStep(y.server, z.server, except) && OnlySent(y, z) && RowsMatch(z)
    requires forall k, r | k in y.clients && r in except && r in y.clients[k].asks :: !Unreleased(y.clients[k], r)
    ensures Invariant(z)
  {
    hide TableOk, ClientOk, RowsMatch, Backed;
    ServerStepBacked(y, z, except);
  }

  lemma ShrunkMatches(y: System, z: System)
    requires RowsMatch(y) && OnlySent(y, z)
    requires Shrunk(y.server.leases, z.server.leases) && z.server.repositories == y.server.repositories
    ensures RowsMatch(z)
  {
    hide ClientOk;
    forall k, r | k in z.clients && r in z.clients[k].asks && r in z.server.leases ensures RowMatches(z.server, r, z.clients[k]) {
      assert RowMatches(y.server, r, y.clients[k]);
    }
  }

  lemma SpontaneousKeeps(y: System, e: Event)
    requires Invariant(y) && FromEnvironment(e)
    ensures Invariant(Take(y, Spontaneous(e)))
  {
    SocketsAreDistinct(y);
    EnvironmentInStep(y.server, e);
    ApplyKeepsTable(y.server, e);
    hide Apply, TableOk, ClientOk, RowsMatch, Backed;
    var z := Take(y, Spontaneous(e));
    assert OnlySent(y, z);
    ShrunkMatches(y, z);
    assert InStep(y.server, z.server, {});
    ServerStepKeeps(y, z, {});
  }

  lemma PoppedOk(c: Client)
    requires ClientOk(c) && c.outbound != []
    ensures ClientOk(c.(outbound := c.outbound[1..]))
  {
    assert forall m | m in c.outbound[1..] :: m in c.outbound;
  }

  lemma ServerReceivesKeeps(y: System, k: SocketId)
    requires Invariant(y) && k in y.clients && y.clients[k].outbound != []
    ensures Invariant(Take(y, ServerReceives(k)))
  {
    var c := y.clients[k];
    var m := c.outbound[0];
    assert m in c.outbound;
    PoppedOk(c);
    SocketsAreDistinct(y);
    ApplyKeepsTable(y.server, EventOf(c, k, m));
    var z := Take(y, ServerReceives(k));
    assert z == System(Apply(y.server, EventOf(c, k, m)), y.clients[k := c.(outbound := c.outbound[1..])], y.owner);
    hide TableOk, ClientOk, RowsMatch, Backed, Take;
    assert OnlySent(y, z);
    match m
    case ReleaseMessage(r, run) => ReleaseReceived(y, k, z, r, run);
    case AcquireMessage(r, ask) => AcquireReceived(y, k, z, r, ask);
  }

  /** What a message on its way to the workspace says about its sender. */
  lemma SentMeans(y: System, k: SocketId, m: AgentMessage)
    requires Wiring(y) && k in y.clients && m in y.clients[k].outbound
    ensures m.request in y.clients[k].asks
    ensures m.AcquireMessage? ==> y.clients[k].asks[m.request] == m.ask
    ensures m.ReleaseMessage? ==> forall l | l in y.clients && m.request in y.clients[l].asks :: !Unreleased(y.clients[l], m.request)
  {
    assert ClientOk(y.clients[k]);
    forall l | l in y.clients && m.request in y.clients[l].asks ensures l == k {
      assert y.owner[m.request] == k && y.owner[m.request] == l;
    }
  }

  lemma ReleaseReceived(y: System, k: SocketId, z: System, r: RequestId, run: RunId)
    requires Invariant(y) && k in y.clients && SocketsDistinct(y.server) && OnlySent(y, z)
    requires ReleaseMessage(r, run) in y.clients[k].outbound
    requires z.server == Release(y.server, r, run, y.clients[k].agent) && TableOk(z.server)
    ensures Invariant(z)
  {
    hide Release, OnlySent, RowsMatch, Backed, Wiring, AtMostOneHeld, WaitingBounded;
    ReleaseInStep(y.server, r, run, y.clients[k].agent);
    ReleaseShrinks(y.server, r, run, y.clients[k].agent);
    SentMeans(y, k, ReleaseMessage(r, run));
    ShrunkMatches(y, z);
    hide TableOk, InStep, Shrunk;
    ServerStepKeeps(y, z, {r});
  }

  lemma ReleaseShrinks(s: Server, r: RequestId, run: RunId, agent: AgentId)
    requires SequencesUnique(s.leases)
    ensures Shrunk(s.leases, Release(s, r, run, agent).leases)
  {
    if r in s.leases {
      PromoteEffect(Delete(s, {r}), s.leases[r].group);
    }
  }

  lemma AcquireReceived(y: System, k: SocketId, z: System, r: RequestId, ask: Ask)
    requires Invariant(y) && k in y.clients && SocketsDistinct(y.server) && OnlySent(y, z)
    requires AcquireMessage(r, ask) in y.clients[k].outbound
    requires z.server == Apply(y.server, ConcurrencyAcquire(y.clients[k].agent, k, r, ask)) && TableOk(z.server)
    ensures Invariant(z)
  {
    hide Acquire, OnlySent, RowsMatch, Backed, Wiring, WaitingBounded, SequencesUnique, Release, ReleaseForRun, KeyOf;
    var agent := y.clients[k].agent;
    SentMeans(y, k, AcquireMessage(r, ask));
    if Owned(y.server, ask.run, agent) && ask.run in y.server.repositories {
      var t := AcquireEffect(y.server, k, agent, r, ask);
      AcquireInStep(y.server, k, agent, r, ask);
      assert z.server == t;
      hide Apply, TableOk, AtMostOneHeld, InStep, RowsAdmitted, Admitted;
      AcquireMatches(y, z, k, r, ask);
      ServerStepKeeps(y, z, {});
    } else {
      assert z.server == y.server;
      hide Apply, TableOk, AtMostOneHeld;
      assert InStep(y.server, z.server, {}) by { assert OutboxesGrow(y.server, z.server); }
      ShrunkMatches(y, z);
      ServerStepKeeps(y, z, {});
    }
  }

  lemma AcquireMatches(y: System, z: System, k: SocketId, r: RequestId, ask: Ask)
    requires Wiring(y) && RowsMatch(y) && k in y.clients && ask.run in y.server.repositories && OnlySent(y, z)
    requires r in y.clients[k].asks && y.clients[k].asks[r] == ask
    requires z.server.repositories == y.server.repositories
    requires var s, g := y.server, KeyOf(y.server.repositories[ask.run], ask.group);
             if Admitted(s, r, ask, g)
             then RowsAdmitted(s.leases, z.server.leases, Displaced(s, g, ask.queue), r,
                               NewRow(s, y.clients[k].agent, ask, g), ask.cancelInProgress)
             else z.server.leases == s.leases
    ensures RowsMatch(z)
  {
    hide ClientOk, Admitted, KeyOf, Displaced, HeldIn;
    forall l, q | l in z.clients && q in z.clients[l].asks && q in z.server.leases ensures RowMatches(z.server, q, z.clients[l]) {
      if q in y.server.leases {
        assert RowMatches(y.server, q, y.clients[l]);
      } else {
        assert q == r && y.owner[q] == k && y.owner[q] == l;
      }
    }
  }

  /** Connections come and go. */
  ghost predicate ConnectionStep(y: System, z: System) {
    && z.server.leases == y.server.leases && z.server.nextSequence == y.server.nextSequence
    && z.server.repositories == y.server.repositories && z.owner == y.owner
    && (forall k | k in z.clients && k !in y.clients :: z.clients[k] == NewClient(z.clients[k].agent))
    && (forall k | k in z.clients && k in y.clients ::
          ClientOk(z.clients[k]) && z.clients[k].(outbound := y.clients[k].outbound) == y.clients[k])
    && (forall k | k in y.clients && IsOpen(z, k) :: IsOpen(y, k) && Outbox(z.server.sent, k) == Outbox(y.server.sent, k))
    && (forall a | a in z.server.connected :: z.server.connected[a] in z.clients && z.clients[z.server.connected[a]].agent == a)
  }

  lemma ConnectionBacked(y: System, z: System)
    requires Backed(y) && ConnectionStep(y, z)
    ensures Backed(z)
  {
    hide ClientOk;
    forall l, r | Entitled(z, l, r) ensures ActiveFor(z.server, r, z.clients[l].agent) {
      if l in y.clients {
        assert Entitled(y, l, r);
      }
    }
  }

  lemma ConnectionMatches(y: System, z: System)
    requires RowsMatch(y) && ConnectionStep(y, z)
    ensures RowsMatch(z)
  {
    hide ClientOk, IsOpen;
    forall k, r | k in z.clients && r in z.clients[k].asks && r in z.server.leases ensures RowMatches(z.server, r, z.clients[k]) {
      if k in y.clients {
        assert RowMatches(y.server, r, y.clients[k]);
      }
    }
  }

  lemma ConnectionWiring(y: System, z: System)
    requires Wiring(y) && ConnectionStep(y, z)
    ensures Wiring(z)
  {
    forall k | k in z.clients ensures ClientOk(z.clients[k]) {
      if k !in y.clients { assert ClientOk(NewClient(z.clients[k].agent)); }
    }
    hide ClientOk, IsOpen;
  }

  lemma ConnectionKeeps(y: System, z: System)
    requires Invariant(y) && ConnectionStep(y, z)
    ensures Invariant(z)
  {
    ConnectionWiring(y, z);
    ConnectionMatches(y, z);
    ConnectionBacked(y, z);
    hide Wiring, RowsMatch, Backed, RowsOk, WaitingBounded, ClientOk, IsOpen;
  }

  lemma OpenKeeps(y: System, agent: AgentId, k: SocketId)
    requires Invariant(y)
    ensures Invariant(Take(y, Open(agent, k)))
  {
    hide TableOk, RowsMatch, Backed, ClientOk;
    var z := Take(y, Open(agent, k));
    if z != y {
      var s := y.server;
      assert z == System(s.(connected := s.connected[agent := k], sent := s.sent[k := []]),
                         y.clients[k := NewClient(agent)], y.owner);
      hide Take, Apply;
      ConnectionKeeps(y, z);
    }
  }

  lemma CloseKeeps(y: System, agent: AgentId)
    requires Invariant(y)
    ensures Invariant(Take(y, Close(agent)))
  {
    hide TableOk, RowsMatch, Backed, ClientOk;
    var z := Take(y, Close(agent));
    assert z == y.(server := y.server.(connected := y.server.connected - {agent}));
    hide Take, Apply;
    ConnectionKeeps(y, z);
  }

  lemma LoseKeeps(y: System, k: SocketId)
    requires Invariant(y) && k in y.clients && !IsOpen(y, k)
    ensures Invariant(Take(y, Lose(k)))
  {
    hide TableOk, RowsMatch, Backed, ClientOk;
    var z := System(y.server.(sent := y.server.sent[k := []]), y.clients[k := y.clients[k].(outbound := [])], y.owner);
    assert Take(y, Lose(k)) == z;
    hide Take, Apply;
    LosingOk(y.clients[k]);
    ConnectionKeeps(y, z);
  }

  lemma LosingOk(c: Client)
    requires ClientOk(c)
    ensures ClientOk(c.(outbound := []))
  {
  }

  /** Every step of the protocol keeps the invariant. */
  lemma TakeKeeps(y: System, step: Step)
    requires Invariant(y)
    ensures Invariant(Take(y, step))
  {
    hide Invariant;
    match step
    case Spontaneous(e) => if FromEnvironment(e) { SpontaneousKeeps(y, e); }
    case Open(agent, k) => OpenKeeps(y, agent, k);
    case Close(agent) => CloseKeeps(y, agent);
    case Lose(k) => if k in y.clients && !IsOpen(y, k) { LoseKeeps(y, k); }
    case ServerReceives(k) => if k in y.clients && y.clients[k].outbound != [] { ServerReceivesKeeps(y, k); }
    case _ => AgentTakes(y, step);
  }

  lemma {:induction false} InvariantAlways(y: System, steps: seq<Step>)
    requires Fresh0(y)
    ensures Invariant(Execute(y, steps))
  {
    if steps == [] {
      assert forall g :: WaitingIn(y.server.leases, g) == {};
    } else {
      InvariantAlways(y, steps[..|steps| - 1]);
      TakeKeeps(Execute(y, steps[..|steps| - 1]), steps[|steps| - 1]);
    }
  }

  // ---------------------------------------------------------------- mutual exclusion

  /** The agent behind `k` works under request `r`, and no cancellation is on the wire. */
  predicate Protected(y: System, k: SocketId, r: RequestId) {
    && IsOpen(y, k) && GrantedTo(y.clients[k], r)
    && Cancelled(r) !in Outbox(y.server.sent, k)
  }

  /** The normalized repository and group a request of client `c` asked for. */
  function GroupAsked(y: System, c: Client, r: RequestId): GroupKey
    requires r in c.asks && c.asks[r].run in y.server.repositories
  {
    KeyOf(y.server.repositories[c.asks[r].run], c.asks[r].group)
  }

  lemma ProtectedRow(z: System, k: SocketId, r: RequestId)
    requires Invariant(z) && Protected(z, k, r)
    ensures k in z.clients && ActiveFor(z.server, r, z.clients[k].agent)
    ensures r in z.clients[k].asks && RowMatches(z.server, r, z.clients[k])
  {
    hide RowsOk, WaitingBounded;
    assert Entitled(z, k, r);
  }

  lemma ActiveUnique(leases: map<RequestId, Lease>, r: RequestId, q: RequestId)
    requires AtMostOneHeld(leases) && r in leases && q in leases
    requires leases[r].status == Active && leases[q].status == Active && leases[r].group == leases[q].group
    ensures r == q
  {
  }

  /** Two requests name the same group of the same repository. */
  predicate SameGroup(y: System, c: Client, r: RequestId, d: Client, q: RequestId) {
    && r in c.asks && c.asks[r].run in y.server.repositories
    && q in d.asks && d.asks[q].run in y.server.repositories
    && GroupAsked(y, c, r) == GroupAsked(y, d, q)
  }

  /**
   * Each protected request has an active row for its agent and its group, and two protected
   * requests for one group of one repository are the same request of the same connection.
   */
  ghost predicate Exclusive(z: System) {
    && (forall k, r | k in z.clients && Protected(z, k, r) ::
          && ActiveFor(z.server, r, z.clients[k].agent)
          && r in z.clients[k].asks && RowMatches(z.server, r, z.clients[k]))
    && (forall k, r, l, q | k in z.clients && l in z.clients && Protected(z, k, r) && Protected(z, l, q)
                            && SameGroup(z, z.clients[k], r, z.clients[l], q) :: k == l && r == q)
  }

  lemma SameGroupSameRequest(z: System, k: SocketId, r: RequestId, l: SocketId, q: RequestId)
    requires Invariant(z) && k in z.clients && l in z.clients && Protected(z, k, r) && Protected(z, l, q)
    requires SameGroup(z, z.clients[k], r, z.clients[l], q)
    ensures k == l && r == q
  {
    hide ClientOk, WaitingBounded, RowsMatch, Backed, SequencesUnique, AtMostOneHeld, KeyOf, Protected;
    ProtectedRow(z, k, r);
    ProtectedRow(z, l, q);
    ActiveUnique(z.server.leases, r, q);
    assert z.owner[r] == k && z.owner[q] == l;
  }

  /** Mutual exclusion as agents see it, in every reachable state. */
  lemma MutualExclusion(y: System, steps: seq<Step>)
    requires Fresh0(y)
    ensures Exclusive(Execute(y, steps))
  {
    InvariantAlways(y, steps);
    var z := Execute(y, steps);
    hide Execute, Invariant, Protected, SameGroup, ActiveFor, RowMatches;
    forall k, r | k in z.clients && Protected(z, k, r)
      ensures ActiveFor(z.server, r, z.clients[k].agent) && r in z.clients[k].asks && RowMatches(z.server, r, z.clients[k])
    {
      ProtectedRow(z, k, r);
    }
    forall k, r, l, q | k in z.clients && l in z.clients && Protected(z, k, r) && Protected(z, l, q)
                        && SameGroup(z, z.clients[k], r, z.clients[l], q)
      ensures k == l && r == q
    {
      SameGroupSameRequest(z, k, r, l, q);
    }
  }

  // ---------------------------------------------------------------- the uncontended path

  /** Nothing is in flight on the connection, and the group the request asks for is empty. */
  predicate Uncontended(y: System, k: SocketId, r: RequestId, ask: Ask) {
    && IsOpen(y, k) && y.clients[k].outbound == [] && Outbox(y.server.sent, k) == []
    && Unused(y, r) && r !in y.clients[k].asks && r !in y.clients[k].answers && r !in y.clients[k].cancelled
    && Owned(y.server, ask.run, y.clients[k].agent) && ask.run in y.server.repositories
    && !(ask.queue == Max && ask.cancelInProgress)
    && var g := KeyOf(y.server.repositories[ask.run], ask.group);
       HeldIn(y.server.leases, g) == {} && WaitingIn(y.server.leases, g) == {}
  }

  lemma EmptyGroupGrants(s: Server, k: SocketId, agent: AgentId, r: RequestId, ask: Ask)
    requires ask.run in s.repositories && !(ask.queue == Max && ask.cancelInProgress) && r !in s.leases
    requires agent in s.connected && s.connected[agent] == k && Outbox(s.sent, k) == []
    requires var g := KeyOf(s.repositories[ask.run], ask.group); HeldIn(s.leases, g) == {} && WaitingIn(s.leases, g) == {}
    ensures Outbox(Acquire(s, k, agent, r, ask).sent, k) == [Granted(r)]
  {
    var g := KeyOf(s.repositories[ask.run], ask.group);
    assert Displaced(s, g, ask.queue) == {};
    assert Ordered(s.leases, {}) == [];
    hide KeyOf, Inserted;
  }

  lemma ExecuteFour(y: System, a: Step, b: Step, c: Step, d: Step)
    ensures Execute(y, [a, b, c, d]) == Take(Take(Take(Take(y, a), b), c), d)
  {
    hide Take;
    var steps := [a, b, c, d];
    assert steps[..3] == [a, b, c] && [a, b, c][..2] == [a, b] && [a, b][..1] == [a] && [a][..0] == [];
    assert Execute(y, []) == y;
    assert Execute(y, [a]) == Take(y, a);
    assert Execute(y, [a, b]) == Take(Take(y, a), b);
    assert Execute(y, [a, b, c]) == Take(Take(Take(y, a), b), c);
  }

  predicate GrantOnWire(b: System, k: SocketId, c: Client, r: RequestId) {
    IsOpen(b, k) && b.clients[k] == c && Outbox(b.server.sent, k) == [Granted(r)]
  }

  lemma RequestStarts(y: System, k: SocketId, r: RequestId, ask: Ask)
    requires Uncontended(y, k, r, ask)
    ensures Take(y, AgentBegins(k, r, ask)) == System(y.server, y.clients[k := Begin(y.clients[k], r, ask)], y.owner[r := k])
  {
    hide KeyOf, Owned, HeldIn, WaitingIn;
  }

  lemma RequestArrives(a: System, k: SocketId, r: RequestId, ask: Ask)
    requires IsOpen(a, k) && a.clients[k].outbound == [AcquireMessage(r, ask)] && Outbox(a.server.sent, k) == []
    requires Owned(a.server, ask.run, a.clients[k].agent) && ask.run in a.server.repositories
    requires Outbox(Acquire(a.server, k, a.clients[k].agent, r, ask).sent, k) == [Granted(r)]
    ensures GrantOnWire(Take(a, ServerReceives(k)), k, a.clients[k].(outbound := []), r)
  {
    hide Acquire, Owned;
    var c := a.clients[k];
    assert EventOf(c, k, c.outbound[0]) == ConcurrencyAcquire(c.agent, k, r, ask);
    assert Apply(a.server, ConcurrencyAcquire(c.agent, k, r, ask)) == Acquire(a.server, k, c.agent, r, ask);
    hide Apply;
  }

  /** The request reaches the workspace, which puts a grant on the wire. */
  lemma RequestTravels(y: System, k: SocketId, r: RequestId, ask: Ask)
    requires Uncontended(y, k, r, ask)
    ensures k in y.clients
    ensures GrantOnWire(Take(Take(y, AgentBegins(k, r, ask)), ServerReceives(k)), k, Begin(y.clients[k], r, ask).(outbound := []), r)
  {
    hide *;
    UncontendedAnswer(y, k, r, ask);
    RequestStarts(y, k, r, ask);
    var a := Take(y, AgentBegins(k, r, ask));
    StartedIsReady(y, k, r, ask, a);
    RequestArrives(a, k, r, ask);
  }

  lemma StartedIsReady(y: System, k: SocketId, r: RequestId, ask: Ask, a: System)
    requires IsOpen(y, k) && y.clients[k].outbound == []
    requires a == System(y.server, y.clients[k := Begin(y.clients[k], r, ask)], y.owner[r := k])
    ensures IsOpen(a, k) && a.server == y.server && a.clients[k] == Begin(y.clients[k], r, ask)
    ensures a.clients[k].agent == y.clients[k].agent && a.clients[k].outbound == [AcquireMessage(r, ask)]
  {
  }

  lemma UncontendedAnswer(y: System, k: SocketId, r: RequestId, ask: Ask)
    requires Uncontended(y, k, r, ask)
    ensures k in y.clients && IsOpen(y, k) && y.clients[k].outbound == [] && Outbox(y.server.sent, k) == []
    ensures Owned(y.server, ask.run, y.clients[k].agent) && ask.run in y.server.repositories
    ensures Outbox(Acquire(y.server, k, y.clients[k].agent, r, ask).sent, k) == [Granted(r)]
  {
    EmptyGroupGrants(y.server, k, y.clients[k].agent, r, ask);
    hide Acquire, Owned;
  }

  lemma GrantTravels(b: System, k: SocketId, r: RequestId)
    requires IsOpen(b, k) && r in b.clients[k].requests && r in b.clients[k].waiting && b.clients[k].requests[r].undecided
    requires Outbox(b.server.sent, k) == [Granted(r)] && r !in b.clients[k].cancelled
    ensures var z := Take(Take(b, AgentReceives(k)), AgentResolves(k, r));
            Protected(z, k, r) && Holding(z.clients[k], r)
  {
  }

  /** The first request for an idle group is granted, and its holder is protected, in four steps. */
  lemma UncontendedIsGranted(y: System, k: SocketId, r: RequestId, ask: Ask)
    requires Uncontended(y, k, r, ask)
    ensures var z := Execute(y, [AgentBegins(k, r, ask), ServerReceives(k), AgentReceives(k), AgentResolves(k, r)]);
            k in z.clients && Protected(z, k, r) && Holding(z.clients[k], r)
  {
    RequestTravels(y, k, r, ask);
    GrantTravels(Take(Take(y, AgentBegins(k, r, ask)), ServerReceives(k)), k, r);
    ExecuteFour(y, AgentBegins(k, r, ask), ServerReceives(k), AgentReceives(k), AgentResolves(k, r));
    hide Take, Uncontended;
  }

  /** A lease in use on an open connection with no cancellation under way is protected. */
  lemma HoldingIsProtected(y: System, steps: seq<Step>, k: SocketId, r: RequestId)
    requires Fresh0(y) && IsOpen(Execute(y, steps), k)
    requires Holding(Execute(y, steps).clients[k], r) && Cancelled(r) !in Outbox(Execute(y, steps).server.sent, k)
    ensures Protected(Execute(y, steps), k, r)
  {
    InvariantAlways(y, steps);
    hide Execute;
    HoldingIsGranted(Execute(y, steps).clients[k], r);
  }
}
