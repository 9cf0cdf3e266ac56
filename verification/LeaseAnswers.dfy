/** No request is forgotten: every undecided request is on its way, in a row, or answered. */
module LeaseAnswers {
  import opened Basics
  import opened Jobs
  import opened Leases
  import opened LeaseTable
  import opened Events
  import opened LeaseQueue
  import opened LeaseWire
  import opened LeaseNotices
  import opened AgentLeases
  import opened ConcurrencyProtocol

  // ---------------------------------------------------------------- the law

  /** The agent waits for a decision it was not sent yet. */
  predicate Undecided(c: Client, r: RequestId) {
    r in c.waiting && r !in c.answers
  }

  /** The request is on its way to the workspace, in a row of its agent, or its decision is on its way back. */
  predicate Attended(c: Client, inbox: seq<ServerMessage>, leases: map<RequestId, Lease>, r: RequestId) {
    || (r in c.asks && AcquireMessage(r, c.asks[r]) in c.outbound)
    || Cancelled(r) in inbox
    || (&& r in leases && leases[r].agent == c.agent
        && (leases[r].status == Waiting || (leases[r].status == Active && Granted(r) in inbox)))
  }

  ghost predicate AllAttended(y: System) {
    forall k, r | IsOpen(y, k) && Undecided(y.clients[k], r) ::
      Attended(y.clients[k], Outbox(y.server.sent, k), y.server.leases, r)
  }

  /** The workspace drops an acquisition: the run is not the agent's, or not any more. */
  predicate Forgets(y: System, step: Step) {
    && step.ServerReceives? && IsOpen(y, step.socket) && y.clients[step.socket].outbound != []
    && var c := y.clients[step.socket];
       var m := c.outbound[0];
       && m.AcquireMessage? && Undecided(c, m.request)
       && !(Owned(y.server, m.ask.run, c.agent) && m.ask.run in y.server.repositories)
  }

  // ---------------------------------------------------------------- what it rests on

  /** A request without a decision is in the table, and nothing was said about it. */
  predicate Asking(c: Client) {
    forall r | r in c.waiting && r !in c.answers :: r in c.requests && c.requests[r] == RequestState(false, true)
  }

  /** Nobody but its sender knows of the request yet. */
  ghost predicate Unheard(s: Server, r: RequestId) {
    r !in s.leases && forall k, m | m in Outbox(s.sent, k) :: m.request != r
  }

  predicate AsksOnce(outbound: seq<AgentMessage>) {
    forall i, j | 0 <= i < |outbound| && 0 <= j < |outbound| && outbound[i].AcquireMessage? && outbound[j].AcquireMessage?
                  && outbound[i].request == outbound[j].request :: i == j
  }

  ghost predicate Pristine(y: System) {
    && (forall k | k in y.clients :: Asking(y.clients[k]) && AsksOnce(y.clients[k].outbound))
    && (forall k, m | k in y.clients && m in y.clients[k].outbound && m.AcquireMessage? :: Unheard(y.server, m.request))
  }

  ghost predicate Settings(y: System) {
    Invariant(y) && Pristine(y)
  }

  // ---------------------------------------------------------------- agent steps

  /** The agent's side of one step: decisions come only from messages, and only `AgentBegins` asks. */
  ghost predicate ClientStep(c: Client, d: Client, asked: set<RequestId>) {
    && Asking(d) && d.agent == c.agent
    && c.asks.Keys <= d.asks.Keys && (forall r | r in c.asks :: d.asks[r] == c.asks[r])
    && c.outbound <= d.outbound && |d.outbound| <= |c.outbound| + 1
    && (forall m | m in d.outbound[|c.outbound|..] && m.AcquireMessage? :: m.request in asked)
    && (forall r | Undecided(d, r) :: Undecided(c, r) || (r in d.asks && AcquireMessage(r, d.asks[r]) in d.outbound))
  }

  lemma ActingSteps(c: Client, d: Client, r: RequestId, lockFree: bool, room: bool)
    requires ClientOk(c) && Asking(c) && Acts(c, d, r, lockFree, room)
    ensures ClientStep(c, d, {})
  {
    LeavingSteps(c, r, lockFree, room);
    CancellingSteps(c);
    hide ClientStep, ClientOk, Asking;
  }

  lemma LeavingSteps(c: Client, r: RequestId, lockFree: bool, room: bool)
    requires ClientOk(c) && Asking(c)
    ensures ClientStep(c, Resolve(c, r), {}) && ClientStep(c, Abandon(c, r), {})
    ensures ClientStep(c, ReleaseLease(c, r), {}) && ClientStep(c, DropLease(c, r, lockFree, room), {})
  {
    hide *;
    WaitingSteps(c, r);
    HoldingSteps(c, r, lockFree, room);
  }

  lemma WaitingSteps(c: Client, r: RequestId)
    requires Asking(c)
    ensures ClientStep(c, Resolve(c, r), {}) && ClientStep(c, Abandon(c, r), {})
  {
    assert c.outbound[|c.outbound|..] == [];
  }

  lemma HoldingSteps(c: Client, r: RequestId, lockFree: bool, room: bool)
    requires ClientOk(c) && Asking(c)
    ensures ClientStep(c, ReleaseLease(c, r), {}) && ClientStep(c, DropLease(c, r, lockFree, room), {})
  {
    assert c.outbound[|c.outbound|..] == [];
    assert c.waiting !! c.leases;
    hide ClientOk;
  }

  lemma CancellingSteps(c: Client)
    requires Asking(c)
    ensures ClientStep(c, CancelAll(c), {})
  {
  }

  lemma BeginSteps(c: Client, r: RequestId, ask: Ask)
    requires ClientOk(c) && Asking(c) && r !in c.asks
    ensures ClientStep(c, Begin(c, r, ask), {r})
  {
  }

  lemma ReceivingSteps(c: Client, m: ServerMessage)
    requires Asking(c)
    ensures ClientStep(c, Received(c, m), {}) && !Undecided(Received(c, m), m.request)
  {
  }

  lemma StillOnce(c: Client, d: Client, asked: set<RequestId>)
    requires AsksOnce(c.outbound) && ClientStep(c, d, asked)
    requires forall m | m in c.outbound :: m.request !in asked
    ensures AsksOnce(d.outbound)
  {
    var n := |c.outbound|;
    forall i, j | 0 <= i < |d.outbound| && 0 <= j < |d.outbound| && d.outbound[i].AcquireMessage?
                  && d.outbound[j].AcquireMessage? && d.outbound[i].request == d.outbound[j].request
      ensures i == j
    {
      assert forall l | 0 <= l < n :: d.outbound[l] == c.outbound[l] && c.outbound[l] in c.outbound;
      if n < |d.outbound| { assert d.outbound[n] in d.outbound[n..]; }
    }
  }

  /** A step of the client at `k`, which may have taken the first message from its inbox. */
  ghost predicate AtClient(y: System, z: System, k: SocketId, asked: set<RequestId>) {
    && k in y.clients && z.clients.Keys == y.clients.Keys && (forall l | l in y.clients && l != k :: z.clients[l] == y.clients[l])
    && ClientStep(y.clients[k], z.clients[k], asked)
    && z.server.leases == y.server.leases && z.server.connected == y.server.connected
    && (forall l | l != k :: Outbox(z.server.sent, l) == Outbox(y.server.sent, l))
    && (Outbox(z.server.sent, k) == Outbox(y.server.sent, k)
        || var inbox := Outbox(y.server.sent, k);
           inbox != [] && Outbox(z.server.sent, k) == inbox[1..] && !Undecided(z.clients[k], inbox[0].request))
  }

  lemma AtClientAttends(y: System, z: System, k: SocketId, asked: set<RequestId>)
    requires AllAttended(y) && AtClient(y, z, k, asked)
    ensures AllAttended(z)
  {
    forall l, r | IsOpen(z, l) && Undecided(z.clients[l], r)
      ensures Attended(z.clients[l], Outbox(z.server.sent, l), z.server.leases, r)
    {
      if Undecided(y.clients[l], r) {
        assert Attended(y.clients[l], Outbox(y.server.sent, l), y.server.leases, r);
      }
    }
  }

  lemma AtClientPristine(y: System, z: System, k: SocketId, asked: set<RequestId>)
    requires Pristine(y) && AtClient(y, z, k, asked)
    requires forall r | r in asked :: Unheard(y.server, r) && forall m | m in y.clients[k].outbound :: m.request != r
    ensures Pristine(z)
  {
    StillOnce(y.clients[k], z.clients[k], asked);
    var c, d := y.clients[k], z.clients[k];
    forall l, m | l in z.clients && m in z.clients[l].outbound && m.AcquireMessage? ensures Unheard(z.server, m.request) {
      assert d.outbound == c.outbound + d.outbound[|c.outbound|..];
      assert Unheard(y.server, m.request);
      assert forall n | n in Outbox(z.server.sent, k) :: n in Outbox(y.server.sent, k);
    }
  }

  // ---------------------------------------------------------------- workspace steps

  /** Clients are as before, but for the first message of connection `k` if it `arrives`. */
  ghost predicate Delivers(y: System, z: System, k: SocketId, arrives: bool) {
    && z.owner == y.owner && z.clients.Keys == y.clients.Keys
    && (forall l | l in y.clients && (l != k || !arrives) :: z.clients[l] == y.clients[l])
    && (arrives ==> k in y.clients && y.clients[k].outbound != []
                    && z.clients[k] == y.clients[k].(outbound := y.clients[k].outbound[1..]))
  }

  lemma ServerAttends(c: Client, d: Client, s: Server, t: Server, k: SocketId, r: RequestId, except: set<RequestId>, about: set<RequestId>)
    requires Noticed(s, t, except, about) && r !in except && c.agent in s.connected && s.connected[c.agent] == k
    requires d == c.(outbound := d.outbound) && Attended(c, Outbox(s.sent, k), s.leases, r)
    requires r in c.asks && AcquireMessage(r, c.asks[r]) in c.outbound ==> AcquireMessage(r, c.asks[r]) in d.outbound
    ensures Attended(d, Outbox(t.sent, k), t.leases, r)
  {
    hide IsTrue;
    assert Outbox(s.sent, k) <= Outbox(t.sent, k);
    if r in s.leases && r in t.leases && t.leases[r] != s.leases[r] { assert Turned(s, t, r); }
  }

  lemma AnswerAttends(c: Client, s: Server, t: Server, k: SocketId, r: RequestId, run: RunId)
    requires c.agent in s.connected && s.connected[c.agent] == k && Answered(s, t, c.agent, r, run)
    ensures Attended(c, Outbox(t.sent, k), t.leases, r)
  {
  }

  lemma ConnectionsStay(s: Server, t: Server, except: set<RequestId>, about: set<RequestId>)
    requires Noticed(s, t, except, about)
    ensures t.connected == s.connected
  {
  }

  lemma SpontaneousAttends(y: System, e: Event)
    requires Invariant(y) && AllAttended(y) && FromEnvironment(e)
    ensures AllAttended(Take(y, Spontaneous(e)))
  {
    SocketsAreDistinct(y);
    ApplyNoticed(y.server, e);
    var z := Take(y, Spontaneous(e));
    assert z == y.(server := Apply(y.server, e));
    hide Apply, Take, Noticed, Attended;
    assert z.server.connected == y.server.connected by { ConnectionsStay(y.server, z.server, {}, y.server.leases.Keys + Named(e)); }
    forall k, r | IsOpen(z, k) && Undecided(z.clients[k], r)
      ensures Attended(z.clients[k], Outbox(z.server.sent, k), z.server.leases, r)
    {
      ServerAttends(y.clients[k], z.clients[k], y.server, z.server, k, r, {}, y.server.leases.Keys + Named(e));
    }
  }

  /** Everything but request `own` of connection `k` stays attended when the workspace takes a message from `k`. */
  lemma OthersAttended(y: System, z: System, k: SocketId, own: RequestId, except: set<RequestId>, about: set<RequestId>)
    requires Wiring(y) && AllAttended(y) && Delivers(y, z, k, true) && Noticed(y.server, z.server, except, about)
    requires y.clients[k].outbound[0].request == own
    requires forall l, r | IsOpen(y, l) && r in except && Undecided(y.clients[l], r) :: l == k && r == own
    ensures forall l, r | IsOpen(z, l) && Undecided(z.clients[l], r) && !(l == k && r == own) ::
              Attended(z.clients[l], Outbox(z.server.sent, l), z.server.leases, r)
  {
    ConnectionsStay(y.server, z.server, except, about);
    hide Noticed, Attended;
    forall l, r | IsOpen(z, l) && Undecided(z.clients[l], r) && !(l == k && r == own)
      ensures Attended(z.clients[l], Outbox(z.server.sent, l), z.server.leases, r)
    {
      var c, d := y.clients[l], z.clients[l];
      assert IsOpen(y, l) && Undecided(c, r);
      assert c.outbound == d.outbound || c.outbound == [c.outbound[0]] + d.outbound;
      ServerAttends(c, d, y.server, z.server, l, r, except, about);
    }
  }

  lemma DeliveryOf(y: System, k: SocketId)
    requires k in y.clients && y.clients[k].outbound != []
    ensures var z := Take(y, ServerReceives(k));
            && Delivers(y, z, k, true)
            && z.server == Apply(y.server, EventOf(y.clients[k], k, y.clients[k].outbound[0]))
  {
    hide Apply;
  }

  lemma ReceivesRelease(y: System, k: SocketId)
    requires Invariant(y) && AllAttended(y) && k in y.clients && y.clients[k].outbound != []
    requires y.clients[k].outbound[0].ReleaseMessage?
    ensures AllAttended(Take(y, ServerReceives(k)))
  {
    hide AllAttended, Take, TableOk, RowsMatch, Backed, Noticed;
    var m := y.clients[k].outbound[0];
    var e := EventOf(y.clients[k], k, m);
    DeliveryOf(y, k);
    SocketsAreDistinct(y);
    SentMeans(y, k, m);
    assert RowsOk(y.server.leases, y.server.nextSequence) by { TableRows(y); }
    ApplyNoticed(y.server, e);
    hide Apply, Wiring;
    var z := Take(y, ServerReceives(k));
    UndecidedAsks(y);
    OthersAttended(y, z, k, m.request, {m.request}, y.server.leases.Keys + Named(e));
    NobodyLeft(z, k, m.request);
  }

  lemma TableRows(y: System)
    requires Invariant(y)
    ensures RowsOk(y.server.leases, y.server.nextSequence)
  {
  }

  lemma UndecidedAsks(y: System)
    requires Wiring(y)
    ensures forall l, r | l in y.clients && Undecided(y.clients[l], r) ::
              r in y.clients[l].asks && Unreleased(y.clients[l], r)
    ensures forall l, r | l in y.clients && r in y.clients[l].asks :: r in y.owner && y.owner[r] == l
  {
    assert forall l | l in y.clients :: ClientOk(y.clients[l]);
  }

  lemma NobodyLeft(z: System, k: SocketId, own: RequestId)
    requires forall l, r | IsOpen(z, l) && Undecided(z.clients[l], r) && !(l == k && r == own) ::
              Attended(z.clients[l], Outbox(z.server.sent, l), z.server.leases, r)
    requires IsOpen(z, k) && Undecided(z.clients[k], own) ==>
             Attended(z.clients[k], Outbox(z.server.sent, k), z.server.leases, own)
    ensures AllAttended(z)
  {
    hide Attended;
  }

  lemma ReceivesAcquire(y: System, k: SocketId)
    requires Invariant(y) && AllAttended(y) && k in y.clients && y.clients[k].outbound != []
    requires y.clients[k].outbound[0].AcquireMessage? && !Forgets(y, ServerReceives(k))
    ensures AllAttended(Take(y, ServerReceives(k)))
  {
    hide AllAttended, Take, TableOk, RowsMatch, Backed, Noticed, Wiring, Answered, Attended, Acquire;
    var c := y.clients[k];
    var m := c.outbound[0];
    var e := EventOf(c, k, m);
    var about := y.server.leases.Keys + Named(e);
    DeliveryOf(y, k);
    SocketsAreDistinct(y);
    TableRows(y);
    UndecidedAsks(y);
    SentMeans(y, k, m);
    ApplyNoticed(y.server, e);
    var z := Take(y, ServerReceives(k));
    ConnectionsStay(y.server, z.server, Own(y.server, e), about);
    assert Own(y.server, e) <= {m.request};
    assert y.owner[m.request] == k;
    forall l, r | IsOpen(y, l) && r in Own(y.server, e) && Undecided(y.clients[l], r) ensures l == k && r == m.request {
      assert y.owner[r] == l;
    }
    OthersAttended(y, z, k, m.request, Own(y.server, e), about);
    if IsOpen(z, k) && Undecided(z.clients[k], m.request) {
      AcquireAnswered(y.server, k, c.agent, m.request, m.ask);
      AnswerAttends(z.clients[k], y.server, z.server, k, m.request, m.ask.run);
    }
    NobodyLeft(z, k, m.request);
  }

  /** Forgetting leaves its request without a row and without a word. */
  lemma ForgottenIsLost(y: System, k: SocketId)
    requires Settings(y) && Forgets(y, ServerReceives(k))
    ensures !AllAttended(Take(y, ServerReceives(k)))
  {
    var c := y.clients[k];
    var m := c.outbound[0];
    var z := Take(y, ServerReceives(k));
    assert m in c.outbound;
    SentMeans(y, k, m);
    assert AsksOnce(c.outbound) && Unheard(y.server, m.request);
    assert z == y.(clients := y.clients[k := c.(outbound := c.outbound[1..])]);
    hide Take, Apply, Invariant, Pristine, Owned;
    assert AcquireMessage(m.request, c.asks[m.request]) !in c.outbound[1..];
    assert !Attended(z.clients[k], Outbox(z.server.sent, k), z.server.leases, m.request);
  }

  // ---------------------------------------------------------------- unheard requests stay unheard

  lemma UnheardStays(s: Server, t: Server, except: set<RequestId>, about: set<RequestId>, r: RequestId)
    requires Noticed(s, t, except, about) && Unheard(s, r) && r !in about && r !in t.leases
    ensures Unheard(t, r)
  {
    forall k, m | m in Outbox(t.sent, k) ensures m.request != r {
      assert Outbox(s.sent, k) <= Outbox(t.sent, k);
      assert m in Outbox(s.sent, k) || m in News(s, t, k);
    }
  }

  /** Only an acquisition makes a row, and only for its request. */
  lemma RowsOf(s: Server, e: Event)
    requires TableOk(s) && SocketsDistinct(s) && !e.Connect? && !e.Disconnect?
    ensures Apply(s, e).leases.Keys <= s.leases.Keys + Named(e)
  {
    hide Acquire, Release, WaitingBounded;
    if FromEnvironment(e) {
      EnvironmentInStep(s, e);
      hide Apply;
    } else if e.ConcurrencyRelease? {
      ReleaseShrinks(s, e.request, e.run, e.agent);
    } else if e.ask.run in s.repositories {
      var t := AcquireEffect(s, e.socket, e.agent, e.request, e.ask);
    }
  }

  lemma TailAsksOnce(outbound: seq<AgentMessage>)
    requires outbound != [] && AsksOnce(outbound)
    ensures AsksOnce(outbound[1..])
    ensures outbound[0].AcquireMessage? ==>
              forall m | m in outbound[1..] && m.AcquireMessage? :: m.request != outbound[0].request
  {
  }

  lemma ServerPristine(y: System, z: System, k: SocketId, arrives: bool, e: Event, except: set<RequestId>)
    requires Settings(y) && Delivers(y, z, k, arrives)
    requires Noticed(y.server, z.server, except, y.server.leases.Keys + Named(e))
    requires z.server.leases.Keys <= y.server.leases.Keys + Named(e)
    requires forall r | r in Named(e) :: arrives && y.clients[k].outbound[0].AcquireMessage? && y.clients[k].outbound[0].request == r
    ensures Pristine(z)
  {
    if arrives {
      TailAsksOnce(y.clients[k].outbound);
      SentMeans(y, k, y.clients[k].outbound[0]);
    }
    UndecidedAsks(y);
    hide Noticed, AsksOnce, Unheard, TableOk, RowsMatch, Backed;
    forall l, m | l in z.clients && m in z.clients[l].outbound && m.AcquireMessage? ensures Unheard(z.server, m.request) {
      assert m in y.clients[l].outbound && Unheard(y.server, m.request);
      SentMeans(y, l, m);
      UnheardIsNew(y.server, m.request);
      UnheardStays(y.server, z.server, except, y.server.leases.Keys + Named(e), m.request);
    }
  }

  lemma UnheardIsNew(s: Server, r: RequestId)
    requires Unheard(s, r)
    ensures r !in s.leases
  {
  }

  lemma ReceivingPristine(y: System, k: SocketId)
    requires Settings(y) && k in y.clients && y.clients[k].outbound != []
    ensures Pristine(Take(y, ServerReceives(k)))
  {
    hide Take, Pristine, Noticed, Wiring, RowsMatch, Backed;
    var e := EventOf(y.clients[k], k, y.clients[k].outbound[0]);
    DeliveryOf(y, k);
    SocketsAreDistinct(y);
    ApplyNoticed(y.server, e);
    RowsOf(y.server, e);
    hide Apply, TableOk;
    ServerPristine(y, Take(y, ServerReceives(k)), k, true, e, Own(y.server, e));
  }

  lemma SpontaneousPristine(y: System, e: Event)
    requires Settings(y) && FromEnvironment(e)
    ensures Pristine(Take(y, Spontaneous(e)))
  {
    hide Pristine, Noticed, Wiring, RowsMatch, Backed;
    SocketsAreDistinct(y);
    ApplyNoticed(y.server, e);
    RowsOf(y.server, e);
    hide Apply, TableOk;
    ServerPristine(y, Take(y, Spontaneous(e)), 0, false, e, Own(y.server, e));
  }

  // ---------------------------------------------------------------- connections

  /** Nothing is sent; clients are new, unchanged, or lose what they had sent off. */
  ghost predicate OnlyLinks(y: System, z: System) {
    && z.server.leases == y.server.leases && (forall k, m | m in Outbox(z.server.sent, k) :: m in Outbox(y.server.sent, k))
    && (forall k | k in z.clients && k !in y.clients :: z.clients[k] == NewClient(z.clients[k].agent))
    && (forall k | k in z.clients && k in y.clients ::
          z.clients[k] == y.clients[k] || z.clients[k] == y.clients[k].(outbound := []))
    && (forall k | k in y.clients && IsOpen(z, k) ::
          k in z.clients && z.clients[k] == y.clients[k] && IsOpen(y, k) && Outbox(z.server.sent, k) == Outbox(y.server.sent, k))
  }

  lemma QuietAttends(y: System, z: System)
    requires OnlyLinks(y, z) && AllAttended(y)
    ensures AllAttended(z)
  {
    hide Attended;
    forall l, r | IsOpen(z, l) && Undecided(z.clients[l], r)
      ensures Attended(z.clients[l], Outbox(z.server.sent, l), z.server.leases, r)
    {
      assert l in y.clients && Undecided(y.clients[l], r);
    }
  }

  lemma QuietPristine(y: System, z: System)
    requires Pristine(y) && OnlyLinks(y, z)
    ensures Pristine(z)
  {
    hide IsOpen;
    forall k, m | k in z.clients && m in z.clients[k].outbound && m.AcquireMessage? ensures Unheard(z.server, m.request) {
      assert Unheard(y.server, m.request);
    }
  }

  lemma QuietMoves(y: System, z: System)
    requires Pristine(y) && OnlyLinks(y, z)
    ensures Pristine(z) && (AllAttended(y) ==> AllAttended(z))
  {
    hide *;
    QuietPristine(y, z);
    if AllAttended(y) { QuietAttends(y, z); }
  }

  lemma ConnectionIsQuiet(y: System, step: Step)
    requires step.Open? || step.Close? || step.Lose?
    ensures Take(y, step) == y || OnlyLinks(y, Take(y, step))
  {
    match step
    case Open(agent, k) => OpenIsQuiet(y, agent, k);
    case Close(agent) => hide EventOf;
    case Lose(k) => hide EventOf;
  }

  lemma OpenIsQuiet(y: System, agent: AgentId, k: SocketId)
    ensures Take(y, Open(agent, k)) == y || OnlyLinks(y, Take(y, Open(agent, k)))
  {
    if agent !in y.server.connected && k !in y.server.sent && k !in y.clients {
      var s := y.server;
      var z := System(s.(connected := s.connected[agent := k], sent := s.sent[k := []]), y.clients[k := NewClient(agent)], y.owner);
      assert Take(y, Open(agent, k)) == z;
      hide Take;
    }
  }

  lemma ConnectionAttends(y: System, step: Step)
    requires Pristine(y) && (step.Open? || step.Close? || step.Lose?)
    ensures Pristine(Take(y, step)) && (AllAttended(y) ==> AllAttended(Take(y, step)))
  {
    hide *;
    ConnectionIsQuiet(y, step);
    if Take(y, step) != y { QuietMoves(y, Take(y, step)); }
  }

  // ---------------------------------------------------------------- every step, every run

  lemma ActedAttends(y: System, k: SocketId, r: RequestId, lockFree: bool, room: bool, d: Client)
    requires Settings(y) && k in y.clients && Acts(y.clients[k], d, r, lockFree, room)
    ensures Pristine(SetClient(y, k, d)) && (AllAttended(y) ==> AllAttended(SetClient(y, k, d)))
  {
    assert ClientOk(y.clients[k]);
    ActingSteps(y.clients[k], d, r, lockFree, room);
    AtClientMoves(y, SetClient(y, k, d), k, {});
  }

  lemma AtClientMoves(y: System, z: System, k: SocketId, asked: set<RequestId>)
    requires Pristine(y) && AtClient(y, z, k, asked)
    requires forall r | r in asked :: Unheard(y.server, r) && forall m | m in y.clients[k].outbound :: m.request != r
    ensures Pristine(z) && (AllAttended(y) ==> AllAttended(z))
  {
    hide *;
    AtClientPristine(y, z, k, asked);
    if AllAttended(y) { AtClientAttends(y, z, k, asked); }
  }

  lemma BegunIs(y: System, k: SocketId, r: RequestId, ask: Ask)
    requires k in y.clients && Unused(y, r) && Wiring(y) && Pristine(y)
    ensures var z := SetClient(y, k, Begin(y.clients[k], r, ask)).(owner := y.owner[r := k]);
            Take(y, AgentBegins(k, r, ask)) == z && AtClient(y, z, k, {r})
    ensures Unheard(y.server, r) && forall m | m in y.clients[k].outbound :: m.request != r
  {
    var c := y.clients[k];
    assert ClientOk(c) && r !in c.asks;
    BeginSteps(c, r, ask);
    NewIsUnheard(y, k, r);
    hide Begin, Unused, Unheard, ClientOk, ClientStep, Wiring, Pristine;
  }

  lemma NewIsUnheard(y: System, k: SocketId, r: RequestId)
    requires k in y.clients && Unused(y, r) && ClientOk(y.clients[k]) && r !in y.clients[k].asks
    ensures Unheard(y.server, r) && forall m | m in y.clients[k].outbound :: m.request != r
  {
  }

  lemma BegunAttends(y: System, k: SocketId, r: RequestId, ask: Ask)
    requires Invariant(y) && Pristine(y) && k in y.clients && Unused(y, r)
    ensures var z := Take(y, AgentBegins(k, r, ask)); Pristine(z) && (AllAttended(y) ==> AllAttended(z))
  {
    hide *;
    InvariantWires(y);
    BegunIs(y, k, r, ask);
    AtClientMoves(y, Take(y, AgentBegins(k, r, ask)), k, {r});
  }

  lemma InvariantWires(y: System)
    requires Invariant(y)
    ensures Wiring(y)
  {
  }

  lemma ReceivedIs(y: System, k: SocketId)
    requires Pristine(y) && k in y.clients && Outbox(y.server.sent, k) != []
    ensures AtClient(y, Take(y, AgentReceives(k)), k, {})
  {
    var c := y.clients[k];
    ReceivingSteps(c, Outbox(y.server.sent, k)[0]);
    hide Received, ClientStep, Pristine, Undecided;
  }

  lemma ReceivedAttends(y: System, k: SocketId)
    requires Pristine(y) && k in y.clients && Outbox(y.server.sent, k) != []
    ensures var z := Take(y, AgentReceives(k)); Pristine(z) && (AllAttended(y) ==> AllAttended(z))
  {
    hide *;
    ReceivedIs(y, k);
    AtClientMoves(y, Take(y, AgentReceives(k)), k, {});
  }

  lemma AgentAttends(y: System, step: Step)
    requires Settings(y)
    requires step.AgentReceives? || step.AgentBegins? || step.AgentResolves? || step.AgentAbandons?
             || step.AgentReleases? || step.AgentDrops? || step.AgentCancelsAll?
    ensures Pristine(Take(y, step)) && (AllAttended(y) ==> AllAttended(Take(y, step)))
  {
    hide AllAttended, TableOk, Wiring, RowsMatch, Backed;
    var k := step.socket;
    if k in y.clients {
      var c := y.clients[k];
      match step
      case AgentReceives(_) => if Outbox(y.server.sent, k) != [] { ReceivedAttends(y, k); }
      case AgentBegins(_, r, ask) => if Unused(y, r) { BegunAttends(y, k, r, ask); }
      case AgentResolves(_, r) => ActedAttends(y, k, r, true, true, Resolve(c, r));
      case AgentAbandons(_, r) => ActedAttends(y, k, r, true, true, Abandon(c, r));
      case AgentReleases(_, r) => ActedAttends(y, k, r, true, true, ReleaseLease(c, r));
      case AgentDrops(_, r, lockFree, room) => ActedAttends(y, k, r, lockFree, room, DropLease(c, r, lockFree, room));
      case AgentCancelsAll(_) => ActedAttends(y, k, 0, true, true, CancelAll(c));
    }
  }

  lemma ReceivingAttends(y: System, k: SocketId)
    requires Settings(y) && AllAttended(y) && k in y.clients && y.clients[k].outbound != []
    ensures AllAttended(Take(y, ServerReceives(k))) <==> !Forgets(y, ServerReceives(k))
  {
    hide AllAttended, Take, Forgets, Invariant, Pristine;
    if Forgets(y, ServerReceives(k)) {
      ForgottenIsLost(y, k);
    } else if y.clients[k].outbound[0].ReleaseMessage? {
      ReceivesRelease(y, k);
    } else {
      ReceivesAcquire(y, k);
    }
  }

  lemma IdleStep(y: System, step: Step)
    requires match step
             case Spontaneous(e) => !FromEnvironment(e)
             case ServerReceives(k) => !(k in y.clients && y.clients[k].outbound != [])
             case _ => false
    ensures Take(y, step) == y
  {
  }

  lemma OnlyDeliveriesForget(y: System, step: Step)
    ensures Forgets(y, step) ==> step.ServerReceives? && step.socket in y.clients && y.clients[step.socket].outbound != []
  {
  }

  /** A step leaves every request attended exactly when it forgets none. */
  lemma AttendsExactly(y: System, step: Step)
    requires Settings(y) && AllAttended(y)
    ensures AllAttended(Take(y, step)) <==> !Forgets(y, step)
  {
    hide AllAttended, Invariant, Pristine, Take, Forgets;
    OnlyDeliveriesForget(y, step);
    match step
    case Spontaneous(e) => if FromEnvironment(e) { SpontaneousAttends(y, e); } else { IdleStep(y, step); }
    case Open(_, _) => ConnectionAttends(y, step);
    case Close(_) => ConnectionAttends(y, step);
    case Lose(_) => ConnectionAttends(y, step);
    case ServerReceives(k) =>
      if k in y.clients && y.clients[k].outbound != [] { ReceivingAttends(y, k); } else { IdleStep(y, step); }
    case _ => AgentAttends(y, step);
  }

  lemma TakeKeepsSettings(y: System, step: Step)
    requires Settings(y)
    ensures Settings(Take(y, step))
  {
    TakeKeeps(y, step);
    hide AllAttended, Invariant, Pristine, Take;
    match step
    case Spontaneous(e) => if FromEnvironment(e) { SpontaneousPristine(y, e); } else { IdleStep(y, step); }
    case Open(_, _) => ConnectionAttends(y, step);
    case Close(_) => ConnectionAttends(y, step);
    case Lose(_) => ConnectionAttends(y, step);
    case ServerReceives(k) =>
      if k in y.clients && y.clients[k].outbound != [] { ReceivingPristine(y, k); } else { IdleStep(y, step); }
    case _ => AgentAttends(y, step);
  }

  lemma {:induction false} SettingsAlways(y: System, steps: seq<Step>)
    requires Fresh0(y)
    ensures Settings(Execute(y, steps))
  {
    hide Take, Invariant;
    InvariantAlways(y, steps);
    if steps != [] {
      SettingsAlways(y, steps[..|steps| - 1]);
      hide Pristine;
      TakeKeepsSettings(Execute(y, steps[..|steps| - 1]), steps[|steps| - 1]);
    }
  }

  ghost predicate AlwaysAttended(y: System, steps: seq<Step>) {
    forall i | 0 <= i <= |steps| :: AllAttended(Execute(y, steps[..i]))
  }

  ghost predicate NothingForgotten(y: System, steps: seq<Step>) {
    forall i | 0 <= i < |steps| :: !Forgets(Execute(y, steps[..i]), steps[i])
  }

  /** No request of an open connection is ever left without a row or an answer, if and only if no acquisition is dropped. */
  lemma {:induction false} AlwaysAttendedExactly(y: System, steps: seq<Step>)
    requires Fresh0(y)
    ensures AlwaysAttended(y, steps) <==> NothingForgotten(y, steps)
  {
    hide *;
    if steps == [] {
      NothingAsked(y);
    } else {
      var front, last := steps[..|steps| - 1], steps[|steps| - 1];
      OneMoreStep(y, steps);
      AlwaysAttendedExactly(y, front);
      if AlwaysAttended(y, front) {
        AttendedAtEnd(y, front);
        SettingsAlways(y, front);
        AttendsExactly(Execute(y, front), last);
      }
    }
  }

  lemma NothingAsked(y: System)
    requires Fresh0(y)
    ensures AlwaysAttended(y, []) && NothingForgotten(y, [])
  {
  }

  lemma AttendedAtEnd(y: System, steps: seq<Step>)
    requires AlwaysAttended(y, steps)
    ensures AllAttended(Execute(y, steps))
  {
    hide Execute, AllAttended;
    assert steps[..|steps|] == steps;
  }

  lemma OneMoreStep(y: System, steps: seq<Step>)
    requires steps != []
    ensures var front, last := steps[..|steps| - 1], steps[|steps| - 1];
      && (AlwaysAttended(y, steps) <==> AlwaysAttended(y, front) && AllAttended(Take(Execute(y, front), last)))
      && (NothingForgotten(y, steps) <==> NothingForgotten(y, front) && !Forgets(Execute(y, front), last))
  {
    hide Take, AllAttended, Forgets;
    var n := |steps| - 1;
    var front := steps[..n];
    assert steps[..|steps|] == steps && Execute(y, steps) == Take(Execute(y, front), steps[n]);
    assert forall i | 0 <= i <= n :: steps[..i] == front[..i];
    hide Execute;
  }

  // ---------------------------------------------------------------- what agents are told, in every run

  /** The request whose release the workspace takes in this step. */
  function GivenBack(y: System, step: Step): set<RequestId> {
    if step.ServerReceives? && step.socket in y.clients && y.clients[step.socket].outbound != []
       && y.clients[step.socket].outbound[0].ReleaseMessage?
    then {y.clients[step.socket].outbound[0].request} else {}
  }

  /** The request whose acquisition the workspace takes in this step. */
  function AskedFor(y: System, step: Step): set<RequestId> {
    if step.ServerReceives? && step.socket in y.clients && y.clients[step.socket].outbound != []
       && y.clients[step.socket].outbound[0].AcquireMessage?
    then {y.clients[step.socket].outbound[0].request} else {}
  }

  lemma NewIsUncontradicted(y: System, k: SocketId)
    requires Pristine(y) && k in y.clients && y.clients[k].outbound != []
    ensures var e := EventOf(y.clients[k], k, y.clients[k].outbound[0]);
            && !e.Connect? && !e.Disconnect?
            && Own(y.server, e) == GivenBack(y, ServerReceives(k)) && Named(e) == AskedFor(y, ServerReceives(k))
  {
    var m := y.clients[k].outbound[0];
    assert m in y.clients[k].outbound;
    if m.AcquireMessage? { assert m.request !in y.server.leases by { UnheardIsNew(y.server, m.request); } }
    hide Unheard, Asking, AsksOnce;
  }

  lemma DeliveryNoticed(y: System, k: SocketId)
    requires Invariant(y) && Pristine(y) && k in y.clients && y.clients[k].outbound != []
    ensures var step := ServerReceives(k);
            Noticed(y.server, Take(y, step).server, GivenBack(y, step), y.server.leases.Keys + AskedFor(y, step))
  {
    hide *;
    DeliveryOf(y, k);
    InvariantWires(y);
    SocketsAreDistinct(y);
    TableRows(y);
    NewIsUncontradicted(y, k);
    ApplyNoticed(y.server, EventOf(y.clients[k], k, y.clients[k].outbound[0]));
  }

  /** In every run each step of the workspace tells the agents concerned what it means for their requests, and nothing else. */
  lemma NoticedAlways(y: System, steps: seq<Step>, step: Step)
    requires Fresh0(y) && (step.Spontaneous? || step.ServerReceives?)
    ensures var z := Execute(y, steps);
            Noticed(z.server, Take(z, step).server, GivenBack(z, step), z.server.leases.Keys + AskedFor(z, step))
  {
    hide Execute, Noticed, Pristine, TableOk, Wiring, RowsMatch, Backed;
    SettingsAlways(y, steps);
    var z := Execute(y, steps);
    NothingNoticed(z.server, z.server, GivenBack(z, step), z.server.leases.Keys + AskedFor(z, step));
    if step.ServerReceives? {
      if step.socket in z.clients && z.clients[step.socket].outbound != [] { DeliveryNoticed(z, step.socket); }
    } else if FromEnvironment(step.event) {
      SocketsAreDistinct(z);
      TableRows(z);
      ApplyNoticed(z.server, step.event);
      hide Apply;
    }
  }

  // ---------------------------------------------------------------- a run that forgets a request

  /** No jobs, no leases, no connections. */
  function Start(repositories: map<RunId, string>, capacities: map<AgentId, nat>): System {
    System(Server(repositories, capacities, map[], map[], 0, map[], map[]), map[], map[])
  }

  lemma StartIsFresh(repositories: map<RunId, string>, capacities: map<AgentId, nat>)
    ensures Fresh0(Start(repositories, capacities))
  {
  }

  lemma ExecuteTwo(y: System, a: Step, b: Step)
    ensures Execute(y, [a, b]) == Take(Take(y, a), b)
  {
    hide Take;
    assert [a, b][..1] == [a] && [a][..0] == [];
    assert Execute(y, []) == y;
    assert Execute(y, [a]) == Take(y, a);
  }

  /** An agent asks for a lease of a run it was never given, and waits for ever. */
  lemma ForgottenRun(a: AgentId, k: SocketId, r: RequestId, ask: Ask)
    ensures !AlwaysAttended(Start(map[], map[]), [Open(a, k), AgentBegins(k, r, ask), ServerReceives(k)])
  {
    var y := Start(map[], map[]);
    var steps := [Open(a, k), AgentBegins(k, r, ask), ServerReceives(k)];
    StartIsFresh(map[], map[]);
    AlwaysAttendedExactly(y, steps);
    ExecuteTwo(y, steps[0], steps[1]);
    assert steps[..2] == [steps[0], steps[1]];
    AskedInVain(a, k, r, ask);
    hide Forgets, Take, Execute, AlwaysAttended;
    assert Forgets(Execute(y, steps[..2]), steps[2]);
  }

  lemma AskedInVain(a: AgentId, k: SocketId, r: RequestId, ask: Ask)
    ensures Forgets(Take(Take(Start(map[], map[]), Open(a, k)), AgentBegins(k, r, ask)), ServerReceives(k))
  {
    var y := Take(Start(map[], map[]), Open(a, k));
    assert y == System(Server(map[], map[], map[], map[], 0, map[a := k], map[k := []]), map[k := NewClient(a)], map[]);
    assert Unused(y, r);
  }
}
