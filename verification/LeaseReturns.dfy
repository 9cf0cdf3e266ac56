/** No lease is lost: whoever has one, or asked for one, still knows it or has sent it back. */
module LeaseReturns {
  import opened Basics
  import opened Jobs
  import opened Leases
  import opened LeaseTable
  import opened Events
  import opened LeaseQueue
  import opened LeaseWire
  import opened LeaseNotices
  import opened AgentLeases
  import opened ConcurrencyProtocol
  import opened LeaseAnswers

  // ---------------------------------------------------------------- the law

  /** The agent holds on to the request, has sent it back, or was told that it is refused. */
  predicate Accounted(c: Client, r: RequestId) {
    || Unreleased(c, r)
    || (r in c.asks && ReleaseMessage(r, c.asks[r].run) in c.outbound)
    || (r in c.answers && !c.answers[r])
  }

  /** The request has a row, or will have one. */
  predicate Alive(c: Client, leases: map<RequestId, Lease>, r: RequestId) {
    r in c.asks && (r in leases || AcquireMessage(r, c.asks[r]) in c.outbound)
  }

  ghost predicate AllAccounted(y: System) {
    forall k, r | IsOpen(y, k) && Alive(y.clients[k], y.server.leases, r) :: Accounted(y.clients[k], r)
  }

  /** A lease is dropped, and the channel has no room for the message that gives it back. */
  predicate Loses(y: System, step: Step) {
    && step.AgentDrops? && !step.room && IsOpen(y, step.socket)
    && step.request in y.clients[step.socket].leases
    && Alive(y.clients[step.socket], y.server.leases, step.request)
  }

  // ---------------------------------------------------------------- what it rests on

  /** Decisions come once, and a lease is a request that was granted. */
  predicate Decided(c: Client) {
    && (forall r | r in c.requests && c.requests[r].undecided :: r !in c.answers)
    && (forall r | r in c.leases :: r in c.answers && c.answers[r])
  }

  /** What is sent back is not asked for again. */
  predicate AsksFirst(outbound: seq<AgentMessage>) {
    forall i, j | 0 <= i < j < |outbound| && outbound[i].ReleaseMessage? && outbound[j].AcquireMessage? ::
      outbound[i].request != outbound[j].request
  }

  ghost predicate Orderly(y: System) {
    Settings(y) && forall k | k in y.clients :: Decided(y.clients[k]) && AsksFirst(y.clients[k].outbound)
  }

  // ---------------------------------------------------------------- agent steps

  /** The agent's side of a step that loses nothing. */
  ghost predicate Careful(c: Client, d: Client) {
    && Decided(d) && AsksFirst(d.outbound) && d.agent == c.agent
    && (forall r | r in c.asks :: r in d.asks && d.asks[r] == c.asks[r])
    && (forall r, ask | AcquireMessage(r, ask) in d.outbound :: AcquireMessage(r, ask) in c.outbound || r !in c.asks)
    && (forall r | r in c.asks && Accounted(c, r) :: Accounted(d, r))
    && (forall r | r in d.asks && r !in c.asks :: Accounted(d, r))
  }

  lemma Appended(outbound: seq<AgentMessage>, m: AgentMessage)
    requires AsksFirst(outbound)
    requires m.ReleaseMessage? || forall n | n in outbound :: n.request != m.request
    ensures AsksFirst(outbound + [m])
  {
    forall i | 0 <= i < |outbound| ensures outbound[i] in outbound {
    }
  }

  lemma BeginCareful(c: Client, r: RequestId, ask: Ask)
    requires ClientOk(c) && Decided(c) && AsksFirst(c.outbound) && r !in c.asks
    ensures Careful(c, Begin(c, r, ask))
  {
    Appended(c.outbound, AcquireMessage(r, ask));
    hide AsksFirst;
  }

  lemma ReceivedCareful(c: Client, m: ServerMessage)
    requires Decided(c) && AsksFirst(c.outbound)
    ensures Careful(c, Received(c, m))
  {
    hide AsksFirst;
  }

  lemma WaitingCareful(c: Client, r: RequestId)
    requires Decided(c) && AsksFirst(c.outbound)
    ensures Careful(c, Resolve(c, r)) && Careful(c, Abandon(c, r)) && Careful(c, CancelAll(c))
  {
    if r in c.asks { Appended(c.outbound, ReleaseMessage(r, c.asks[r].run)); }
    hide AsksFirst;
  }

  lemma HoldingCareful(c: Client, r: RequestId, lockFree: bool)
    requires Decided(c) && AsksFirst(c.outbound)
    ensures Careful(c, ReleaseLease(c, r)) && Careful(c, DropLease(c, r, lockFree, true))
  {
    if r in c.asks { Appended(c.outbound, ReleaseMessage(r, c.asks[r].run)); }
    hide AsksFirst;
  }

  /** A lossy drop forgets its request, and only that. */
  lemma LossyDrop(c: Client, r: RequestId, lockFree: bool)
    requires ClientOk(c) && Decided(c) && r in c.leases && r in c.asks
    ensures var d := DropLease(c, r, lockFree, false);
      && Decided(d) && d.outbound == c.outbound && d.asks == c.asks && d.agent == c.agent && !Accounted(d, r)
      && forall q | q != r && Accounted(c, q) :: Accounted(d, q)
  {
  }

  // ---------------------------------------------------------------- the system

  /** The client at `k` took a careful step. */
  ghost predicate CarefulAt(y: System, z: System, k: SocketId) {
    && k in y.clients && z.clients.Keys == y.clients.Keys && (forall l | l in y.clients && l != k :: z.clients[l] == y.clients[l])
    && Careful(y.clients[k], z.clients[k])
    && z.server.leases == y.server.leases && z.server.connected == y.server.connected
  }

  lemma CarefulAccounts(y: System, z: System, k: SocketId)
    requires AllAccounted(y) && CarefulAt(y, z, k)
    ensures AllAccounted(z)
  {
    hide Accounted, Decided, AsksFirst;
    forall l, r | IsOpen(z, l) && Alive(z.clients[l], z.server.leases, r) ensures Accounted(z.clients[l], r) {
      assert IsOpen(y, l);
      if r in y.clients[l].asks {
        assert Alive(y.clients[l], y.server.leases, r);
      }
    }
  }

  lemma CarefulOrderly(y: System, z: System, k: SocketId)
    requires Orderly(y) && Settings(z) && CarefulAt(y, z, k)
    ensures Orderly(z)
  {
    hide Settings, Accounted, Decided, AsksFirst;
  }

  lemma TailAsksFirst(outbound: seq<AgentMessage>)
    requires outbound != [] && AsksFirst(outbound)
    ensures AsksFirst(outbound[1..])
    ensures outbound[0].ReleaseMessage? ==> forall m | m in outbound[1..] && m.AcquireMessage? :: m.request != outbound[0].request
  {
  }

  lemma DeliveredOrderly(y: System, z: System, k: SocketId, arrives: bool)
    requires Orderly(y) && Settings(z) && Delivers(y, z, k, arrives)
    ensures Orderly(z)
  {
    hide Settings, AsksFirst, Decided;
    forall l | l in z.clients ensures Decided(z.clients[l]) && AsksFirst(z.clients[l].outbound) {
      assert Decided(y.clients[l]) && AsksFirst(y.clients[l].outbound);
      if l == k && arrives {
        TailAsksFirst(y.clients[k].outbound);
        DecidedStays(y.clients[k], z.clients[k]);
      }
    }
  }

  lemma DecidedStays(c: Client, d: Client)
    requires Decided(c) && d == c.(outbound := d.outbound)
    ensures Decided(d)
  {
  }

  /** The message that gives the request back. */
  predicate GivesBack(c: Client, m: AgentMessage) {
    m.ReleaseMessage? && m.request in c.asks && m.run == c.asks[m.request].run
  }

  lemma PoppedAccounts(c: Client, d: Client, r: RequestId)
    requires c.outbound != [] && d == c.(outbound := c.outbound[1..]) && Accounted(c, r)
    requires !(GivesBack(c, c.outbound[0]) && c.outbound[0].request == r)
    ensures Accounted(d, r)
  {
    assert c.outbound == [c.outbound[0]] + d.outbound;
  }

  lemma PoppedAlive(c: Client, d: Client, before: map<RequestId, Lease>, after: map<RequestId, Lease>, r: RequestId)
    requires c.outbound != [] && d == c.(outbound := c.outbound[1..]) && Alive(d, after, r)
    requires r in after && r !in before ==> AcquireMessage(r, c.asks[r]) in c.outbound
    ensures Alive(c, before, r)
  {
  }

  /** The first message of `k` is taken: an acquisition may make a row, a release leaves none. */
  lemma DeliveredAccounts(y: System, z: System, k: SocketId)
    requires Wiring(y) && AllAccounted(y) && Delivers(y, z, k, true) && z.server.connected == y.server.connected
    requires var m := y.clients[k].outbound[0];
      && (GivesBack(y.clients[k], m) ==> !Alive(z.clients[k], z.server.leases, m.request))
      && (forall r | r in z.server.leases && r !in y.server.leases :: m.AcquireMessage? && r == m.request)
    ensures AllAccounted(z)
  {
    hide Wiring, Accounted, Alive, GivesBack;
    AskedRows(y, k, z.server.leases);
    forall l, r | IsOpen(z, l) && Alive(z.clients[l], z.server.leases, r) ensures Accounted(z.clients[l], r) {
      AliveAsks(z.clients[l], z.server.leases, r);
      DeliveredTo(y, z, k, l);
      if l == k {
        PoppedAlive(y.clients[k], z.clients[k], y.server.leases, z.server.leases, r);
        AccountedAt(y, k, r);
        PoppedAccounts(y.clients[k], z.clients[k], r);
      } else {
        AliveBefore(y.clients[l], y.server.leases, z.server.leases, r);
        AccountedAt(y, l, r);
      }
    }
  }

  lemma DeliveredTo(y: System, z: System, k: SocketId, l: SocketId)
    requires Delivers(y, z, k, true) && z.server.connected == y.server.connected && IsOpen(z, l)
    ensures k in y.clients && y.clients[k].outbound != [] && IsOpen(y, l) && l in y.clients
    ensures if l == k then z.clients[k] == y.clients[k].(outbound := y.clients[k].outbound[1..]) else z.clients[l] == y.clients[l]
  {
  }

  lemma AccountedAt(y: System, l: SocketId, r: RequestId)
    requires AllAccounted(y) && IsOpen(y, l) && l in y.clients && Alive(y.clients[l], y.server.leases, r)
    ensures Accounted(y.clients[l], r)
  {
    hide Alive, Accounted;
  }

  /** A new row belongs to the acquisition that arrives, and so to its connection. */
  lemma AskedRows(y: System, k: SocketId, after: map<RequestId, Lease>)
    requires Wiring(y) && k in y.clients && y.clients[k].outbound != []
    requires var m := y.clients[k].outbound[0];
             forall r | r in after && r !in y.server.leases :: m.AcquireMessage? && r == m.request
    ensures var c := y.clients[k];
            forall r | r in after && r !in y.server.leases :: r in c.asks && AcquireMessage(r, c.asks[r]) in c.outbound
    ensures forall l, r | l in y.clients && l != k && r in y.clients[l].asks && r in after :: r in y.server.leases
  {
    var m := y.clients[k].outbound[0];
    assert m in y.clients[k].outbound;
    SentMeans(y, k, m);
    UndecidedAsks(y);
    hide Wiring;
    forall l, r | l in y.clients && l != k && r in y.clients[l].asks && r in after ensures r in y.server.leases {
      assert y.owner[r] == l;
    }
  }

  lemma AliveAsks(c: Client, leases: map<RequestId, Lease>, r: RequestId)
    requires Alive(c, leases, r)
    ensures r in c.asks
  {
  }

  lemma AliveBefore(c: Client, before: map<RequestId, Lease>, after: map<RequestId, Lease>, r: RequestId)
    requires Alive(c, after, r) && (r in after ==> r in before)
    ensures Alive(c, before, r)
  {
  }

  /** A release names the row as it is. */
  lemma RowGivenBack(y: System, k: SocketId, m: AgentMessage)
    requires RowsMatch(y) && k in y.clients && GivesBack(y.clients[k], m) && m.request in y.server.leases
    ensures y.server.leases[m.request].run == m.run && y.server.leases[m.request].agent == y.clients[k].agent
  {
    assert RowMatches(y.server, m.request, y.clients[k]);
  }

  lemma NoLongerAlive(c: Client, leases: map<RequestId, Lease>, r: RequestId)
    requires r !in leases && forall m | m in c.outbound && m.AcquireMessage? :: m.request != r
    ensures !Alive(c, leases, r)
  {
  }

  lemma ReleasedIsGone(y: System, k: SocketId)
    requires Invariant(y) && k in y.clients && y.clients[k].outbound != [] && y.clients[k].outbound[0].ReleaseMessage?
    requires AsksFirst(y.clients[k].outbound)
    ensures var z, m := Take(y, ServerReceives(k)), y.clients[k].outbound[0];
            k in z.clients && (GivesBack(y.clients[k], m) ==> !Alive(z.clients[k], z.server.leases, m.request))
  {
    var m := y.clients[k].outbound[0];
    TableRows(y);
    DeliveryOf(y, k);
    ReleaseIs(y.server, m.request, m.run, y.clients[k].agent);
    assert EventOf(y.clients[k], k, m) == ConcurrencyRelease(y.clients[k].agent, m.request, m.run);
    assert Apply(y.server, EventOf(y.clients[k], k, m)) == Release(y.server, m.request, m.run, y.clients[k].agent);
    hide Apply, Release, Take, TableOk, Wiring, RowsMatch, Backed, GivesBack, Alive;
    if GivesBack(y.clients[k], m) {
      if m.request in y.server.leases { RowGivenBack(y, k, m); }
      TailAsksFirst(y.clients[k].outbound);
      var z := Take(y, ServerReceives(k));
      NoLongerAlive(z.clients[k], z.server.leases, m.request);
    }
  }

  // ---------------------------------------------------------------- every step

  lemma ReceivesAccounts(y: System, k: SocketId)
    requires Orderly(y) && AllAccounted(y) && k in y.clients && y.clients[k].outbound != []
    ensures AllAccounted(Take(y, ServerReceives(k)))
  {
    hide *;
    OrderlyParts(y, k);
    var z := Take(y, ServerReceives(k));
    var e := EventOf(y.clients[k], k, y.clients[k].outbound[0]);
    DeliveryOf(y, k);
    InvariantWires(y);
    SocketsAreDistinct(y);
    TableIs(y);
    EventIs(y.clients[k], k, y.clients[k].outbound[0]);
    RowsOf(y.server, e);
    DeliveryNoticed(y, k);
    ConnectionsStay(y.server, z.server, GivenBack(y, ServerReceives(k)), y.server.leases.Keys + AskedFor(y, ServerReceives(k)));
    if y.clients[k].outbound[0].ReleaseMessage? { ReleasedIsGone(y, k); } else { AcquiresGiveNothingBack(y.clients[k]); }
    DeliveredAccounts(y, z, k);
  }

  lemma OrderlyParts(y: System, k: SocketId)
    requires Orderly(y)
    ensures Settings(y) && Invariant(y) && Pristine(y)
    ensures k in y.clients ==> Decided(y.clients[k]) && AsksFirst(y.clients[k].outbound) && ClientOk(y.clients[k])
  {
    hide Pristine, Decided, AsksFirst;
  }

  lemma TableIs(y: System)
    requires Invariant(y)
    ensures TableOk(y.server)
  {
  }

  lemma EventIs(c: Client, k: SocketId, m: AgentMessage)
    ensures var e := EventOf(c, k, m); !e.Connect? && !e.Disconnect? && Named(e) == if m.AcquireMessage? then {m.request} else {}
  {
  }

  lemma AcquiresGiveNothingBack(c: Client)
    ensures forall m: AgentMessage | m.AcquireMessage? :: !GivesBack(c, m)
  {
  }

  lemma SpontaneousAccounts(y: System, e: Event)
    requires Orderly(y) && AllAccounted(y) && FromEnvironment(e)
    ensures AllAccounted(Take(y, Spontaneous(e)))
  {
    SocketsAreDistinct(y);
    EnvironmentInStep(y.server, e);
    hide Apply, Accounted, Orderly;
  }

  lemma QuietAccounts(y: System, z: System)
    requires AllAccounted(y) && OnlyLinks(y, z)
    ensures AllAccounted(z)
  {
    hide Accounted;
    forall l, r | IsOpen(z, l) && Alive(z.clients[l], z.server.leases, r) ensures Accounted(z.clients[l], r) {
      assert l in y.clients && Alive(y.clients[l], y.server.leases, r);
    }
  }

  lemma QuietOrderly(y: System, z: System)
    requires Orderly(y) && Settings(z) && OnlyLinks(y, z)
    ensures Orderly(z)
  {
    hide Settings, IsOpen;
  }

  lemma CarefulMoves(y: System, z: System, k: SocketId)
    requires Orderly(y) && Settings(z) && CarefulAt(y, z, k)
    ensures Orderly(z) && (AllAccounted(y) ==> AllAccounted(z))
  {
    hide *;
    CarefulOrderly(y, z, k);
    if AllAccounted(y) { CarefulAccounts(y, z, k); }
  }

  lemma SetIsCareful(y: System, k: SocketId, d: Client)
    requires k in y.clients && Careful(y.clients[k], d)
    ensures CarefulAt(y, SetClient(y, k, d), k)
  {
    hide Careful;
  }

  lemma BegunIsCareful(y: System, k: SocketId, r: RequestId, ask: Ask)
    requires k in y.clients && Unused(y, r) && Careful(y.clients[k], Begin(y.clients[k], r, ask))
    ensures CarefulAt(y, Take(y, AgentBegins(k, r, ask)), k)
  {
    hide Careful, Begin, Unused;
  }

  lemma ReceivedIsCareful(y: System, k: SocketId)
    requires k in y.clients && Outbox(y.server.sent, k) != []
    requires Careful(y.clients[k], Received(y.clients[k], Outbox(y.server.sent, k)[0]))
    ensures CarefulAt(y, Take(y, AgentReceives(k)), k)
  {
    hide Careful, Received;
  }

  lemma UnusedIsNew(y: System, k: SocketId, r: RequestId)
    requires Settings(y) && k in y.clients && Unused(y, r)
    ensures r !in y.clients[k].asks
  {
  }

  /** The steps of an agent that lose nothing leave the client careful. */
  lemma AgentCareful(y: System, step: Step)
    requires Orderly(y) && Take(y, step) != y
    requires step.AgentReceives? || step.AgentBegins? || step.AgentResolves? || step.AgentAbandons?
             || step.AgentReleases? || (step.AgentDrops? && step.room) || step.AgentCancelsAll?
    ensures CarefulAt(y, Take(y, step), step.socket)
  {
    var k := step.socket;
    AgentAt(y, step);
    OrderlyParts(y, k);
    hide *;
    var c := y.clients[k];
    match step
    case AgentReceives(_) =>
      ReceivedCareful(c, Outbox(y.server.sent, k)[0]);
      ReceivedIsCareful(y, k);
    case AgentBegins(_, r, ask) =>
      UnusedIsNew(y, k, r);
      BeginCareful(c, r, ask);
      BegunIsCareful(y, k, r, ask);
    case AgentResolves(_, r) =>
      WaitingCareful(c, r);
      SetIsCareful(y, k, Resolve(c, r));
    case AgentAbandons(_, r) =>
      WaitingCareful(c, r);
      SetIsCareful(y, k, Abandon(c, r));
    case AgentReleases(_, r) =>
      HoldingCareful(c, r, true);
      SetIsCareful(y, k, ReleaseLease(c, r));
    case AgentDrops(_, r, lockFree, _) =>
      HoldingCareful(c, r, lockFree);
      SetIsCareful(y, k, DropLease(c, r, lockFree, true));
    case AgentCancelsAll(_) =>
      WaitingCareful(c, 0);
      SetIsCareful(y, k, CancelAll(c));
  }

  /** An agent step that does anything is taken at one of the clients. */
  lemma AgentAt(y: System, step: Step)
    requires Take(y, step) != y
    requires step.AgentReceives? || step.AgentBegins? || step.AgentResolves? || step.AgentAbandons?
             || step.AgentReleases? || step.AgentDrops? || step.AgentCancelsAll?
    ensures step.socket in y.clients
    ensures var k, c := step.socket, y.clients[step.socket];
      && (step.AgentReceives? ==> Outbox(y.server.sent, k) != [])
      && (step.AgentBegins? ==> Unused(y, step.request))
      && (step.AgentResolves? ==> Take(y, step) == SetClient(y, k, Resolve(c, step.request)))
      && (step.AgentAbandons? ==> Take(y, step) == SetClient(y, k, Abandon(c, step.request)))
      && (step.AgentReleases? ==> Take(y, step) == SetClient(y, k, ReleaseLease(c, step.request)))
      && (step.AgentDrops? ==> Take(y, step) == SetClient(y, k, DropLease(c, step.request, step.lockFree, step.room)))
      && (step.AgentCancelsAll? ==> Take(y, step) == SetClient(y, k, CancelAll(c)))
  {
    hide Unused, Resolve, Abandon, ReleaseLease, DropLease, CancelAll, Begin, Received;
  }

  // ---------------------------------------------------------------- lossy drops

  lemma LossyKeepsOrder(y: System, k: SocketId, r: RequestId, lockFree: bool)
    requires Orderly(y) && k in y.clients && Settings(SetClient(y, k, DropLease(y.clients[k], r, lockFree, false)))
    ensures Orderly(SetClient(y, k, DropLease(y.clients[k], r, lockFree, false)))
  {
    OrderlyParts(y, k);
    var c := y.clients[k];
    if r in c.leases && r in c.asks { LossyDrop(c, r, lockFree); }
    hide Settings, AsksFirst, Decided;
  }

  lemma LossyExactly(y: System, k: SocketId, r: RequestId, lockFree: bool)
    requires Orderly(y) && AllAccounted(y) && k in y.clients
    ensures AllAccounted(SetClient(y, k, DropLease(y.clients[k], r, lockFree, false)))
            <==> !Loses(y, AgentDrops(k, r, lockFree, false))
  {
    OrderlyParts(y, k);
    var c := y.clients[k];
    var d := DropLease(c, r, lockFree, false);
    var z := SetClient(y, k, d);
    if r in c.leases {
      assert r in c.asks;
      LossyDrop(c, r, lockFree);
      AliveStays(c, d, y.server.leases);
      hide Accounted, Alive, DropLease, Orderly, Invariant, Settings, ClientOk;
      assert IsOpen(z, k) <==> IsOpen(y, k);
      if !Loses(y, AgentDrops(k, r, lockFree, false)) {
        forall l, q | IsOpen(z, l) && Alive(z.clients[l], z.server.leases, q) ensures Accounted(z.clients[l], q) {
          assert IsOpen(y, l) && Alive(y.clients[l], y.server.leases, q);
        }
      }
    } else {
      assert d == c && z == y;
    }
  }

  lemma AliveStays(c: Client, d: Client, leases: map<RequestId, Lease>)
    requires d.asks == c.asks && d.outbound == c.outbound
    ensures forall q :: Alive(d, leases, q) <==> Alive(c, leases, q)
  {
  }

  // ---------------------------------------------------------------- every step, every run

  lemma StepKeepsOrder(y: System, step: Step)
    requires Orderly(y)
    ensures Orderly(Take(y, step))
  {
    hide *;
    OrderlyParts(y, 0);
    TakeKeepsSettings(y, step);
    var z := Take(y, step);
    if z == y {
    } else if step.Open? || step.Close? || step.Lose? {
      ConnectionIsQuiet(y, step);
      QuietOrderly(y, z);
    } else if step.Spontaneous? || step.ServerReceives? {
      ServerDelivers(y, step);
      DeliveredOrderly(y, z, if step.ServerReceives? then step.socket else 0, step.ServerReceives?);
    } else if step.AgentDrops? && !step.room {
      AgentAt(y, step);
      LossyKeepsOrder(y, step.socket, step.request, step.lockFree);
    } else {
      AgentCareful(y, step);
      CarefulMoves(y, z, step.socket);
    }
  }

  lemma ServerDelivers(y: System, step: Step)
    requires (step.Spontaneous? || step.ServerReceives?) && Take(y, step) != y
    ensures Delivers(y, Take(y, step), if step.ServerReceives? then step.socket else 0, step.ServerReceives?)
    ensures step.Spontaneous? ==> FromEnvironment(step.event)
    ensures step.ServerReceives? ==> step.socket in y.clients && y.clients[step.socket].outbound != []
  {
    hide Apply;
  }

  lemma OnlyDropsLose(y: System, step: Step)
    ensures Loses(y, step) ==> step.AgentDrops? && !step.room && step.socket in y.clients
  {
  }

  lemma NothingToDrop(y: System, step: Step)
    requires Orderly(y) && Take(y, step) == y
    ensures !Loses(y, step)
  {
    if Loses(y, step) {
      OrderlyParts(y, step.socket);
      LossyDrop(y.clients[step.socket], step.request, step.lockFree);
    }
  }

  /** A step leaves every lease accounted for exactly when it is not a lossy drop of a lease that has a row. */
  lemma AccountsExactly(y: System, step: Step)
    requires Orderly(y) && AllAccounted(y)
    ensures AllAccounted(Take(y, step)) <==> !Loses(y, step)
  {
    hide *;
    var z := Take(y, step);
    OrderlyParts(y, 0);
    OnlyDropsLose(y, step);
    TakeKeepsSettings(y, step);
    if z == y {
      NothingToDrop(y, step);
    } else if step.Open? || step.Close? || step.Lose? {
      ConnectionIsQuiet(y, step);
      QuietAccounts(y, z);
    } else if step.Spontaneous? || step.ServerReceives? {
      ServerDelivers(y, step);
      if step.Spontaneous? { SpontaneousAccounts(y, step.event); } else { ReceivesAccounts(y, step.socket); }
    } else if step.AgentDrops? && !step.room {
      AgentAt(y, step);
      LossyExactly(y, step.socket, step.request, step.lockFree);
    } else {
      AgentCareful(y, step);
      CarefulMoves(y, z, step.socket);
    }
  }

  lemma {:induction false} OrderlyAlways(y: System, steps: seq<Step>)
    requires Fresh0(y)
    ensures Orderly(Execute(y, steps))
  {
    if steps == [] {
      SettingsAlways(y, []);
    } else {
      hide Orderly, Take;
      OrderlyAlways(y, steps[..|steps| - 1]);
      StepKeepsOrder(Execute(y, steps[..|steps| - 1]), steps[|steps| - 1]);
    }
  }

  ghost predicate AlwaysAccounted(y: System, steps: seq<Step>) {
    forall i | 0 <= i <= |steps| :: AllAccounted(Execute(y, steps[..i]))
  }

  ghost predicate NothingLost(y: System, steps: seq<Step>) {
    forall i | 0 <= i < |steps| :: !Loses(Execute(y, steps[..i]), steps[i])
  }

  /** Every lease row of an open connection is held or on its way back, at every moment, if and only if no drop loses one. */
  lemma {:induction false} AlwaysAccountedExactly(y: System, steps: seq<Step>)
    requires Fresh0(y)
    ensures AlwaysAccounted(y, steps) <==> NothingLost(y, steps)
  {
    hide *;
    if steps == [] {
      NothingHeld(y);
    } else {
      var front, last := steps[..|steps| - 1], steps[|steps| - 1];
      OneStepMore(y, steps);
      AlwaysAccountedExactly(y, front);
      if AlwaysAccounted(y, front) {
        AccountedAtEnd(y, front);
        OrderlyAlways(y, front);
        AccountsExactly(Execute(y, front), last);
      }
    }
  }

  lemma NothingHeld(y: System)
    requires Fresh0(y)
    ensures AlwaysAccounted(y, []) && NothingLost(y, [])
  {
  }

  lemma AccountedAtEnd(y: System, steps: seq<Step>)
    requires AlwaysAccounted(y, steps)
    ensures AllAccounted(Execute(y, steps))
  {
    hide Execute, AllAccounted;
    assert steps[..|steps|] == steps;
  }

  lemma OneStepMore(y: System, steps: seq<Step>)
    requires steps != []
    ensures var front, last := steps[..|steps| - 1], steps[|steps| - 1];
      && (AlwaysAccounted(y, steps) <==> AlwaysAccounted(y, front) && AllAccounted(Take(Execute(y, front), last)))
      && (NothingLost(y, steps) <==> NothingLost(y, front) && !Loses(Execute(y, front), last))
  {
    hide Take, AllAccounted, Loses;
    var n := |steps| - 1;
    var front := steps[..n];
    assert steps[..|steps|] == steps && Execute(y, steps) == Take(Execute(y, front), steps[n]);
    assert forall i | 0 <= i <= n :: steps[..i] == front[..i];
    hide Execute;
  }

  // ---------------------------------------------------------------- a run that loses a lease

  lemma {:induction false} ExecuteBoth(y: System, a: seq<Step>, b: seq<Step>)
    ensures Execute(y, a + b) == Execute(Execute(y, a), b)
  {
    hide Take;
    if b == [] {
      assert a + b == a;
    } else {
      assert (a + b)[..|a + b| - 1] == a + b[..|b| - 1];
      ExecuteBoth(y, a, b[..|b| - 1]);
    }
  }

  const WANTED := Ask(1, "unit", "group", false, Single)

  /** A run that agent `a` was given, and nothing else. */
  function Given(a: AgentId): Server {
    Server(map[1 := "repository"], map[a := 1], map[1 := Dispatched(Enqueued(false, 0), a, 0)], map[], 0, map[a := 0], map[0 := []])
  }

  /** The tables of a workspace that knows one run and one agent. */
  function Knowing(a: AgentId, jobs: map<RunId, JobRow>): System {
    System(Server(map[1 := "repository"], map[a := 1], jobs, map[], 0, map[], map[]), map[], map[])
  }

  lemma Enqueues(a: AgentId)
    ensures Take(Knowing(a, map[]), Spontaneous(Enqueue(1, false, 0))) == Knowing(a, map[1 := Enqueued(false, 0)])
  {
    hide Enqueued;
    assert map[][1 := Enqueued(false, 0)] == map[1 := Enqueued(false, 0)];
  }

  lemma Dispatches(a: AgentId)
    ensures Take(Knowing(a, map[1 := Enqueued(false, 0)]), Spontaneous(Dispatch(1, a, 0)))
            == Knowing(a, map[1 := Dispatched(Enqueued(false, 0), a, 0)])
  {
    var jobs := map[1 := Enqueued(false, 0)];
    assert LiveRuns(jobs, a) == {};
    assert jobs[1 := Dispatched(Enqueued(false, 0), a, 0)] == map[1 := Dispatched(Enqueued(false, 0), a, 0)];
  }

  lemma Connects(a: AgentId)
    ensures Take(Knowing(a, map[1 := Dispatched(Enqueued(false, 0), a, 0)]), Open(a, 0))
            == System(Given(a), map[0 := NewClient(a)], map[])
  {
    hide Dispatched, Enqueued;
  }

  lemma GivenIsReached(a: AgentId)
    ensures Execute(Start(map[1 := "repository"], map[a := 1]),
                    [Spontaneous(Enqueue(1, false, 0)), Spontaneous(Dispatch(1, a, 0)), Open(a, 0)])
            == System(Given(a), map[0 := NewClient(a)], map[])
  {
    Enqueues(a);
    Dispatches(a);
    Connects(a);
    var y := Start(map[1 := "repository"], map[a := 1]);
    var steps := [Spontaneous(Enqueue(1, false, 0)), Spontaneous(Dispatch(1, a, 0)), Open(a, 0)];
    assert y == Knowing(a, map[]);
    assert steps[..2] == [steps[0], steps[1]];
    hide Take, Given, Enqueued, Dispatched, Knowing;
    ExecuteTwo(y, steps[0], steps[1]);
  }

  lemma GivenIsUncontended(a: AgentId)
    ensures Uncontended(System(Given(a), map[0 := NewClient(a)], map[]), 0, 5, WANTED)
  {
    var g := KeyOf("repository", "group");
    assert HeldIn(map[], g) == {} && WaitingIn(map[], g) == {};
    hide KeyOf;
  }

  lemma HeldHasRow(y: System, steps: seq<Step>, k: SocketId, r: RequestId)
    requires Fresh0(y) && var z := Execute(y, steps); k in z.clients && Protected(z, k, r) && Holding(z.clients[k], r)
    ensures Loses(Execute(y, steps), AgentDrops(k, r, true, false))
  {
    MutualExclusion(y, steps);
    var z := Execute(y, steps);
    hide Execute, RowMatches;
  }

  /** An agent is granted a lease and drops it while its channel is full: the row stays, and nobody will give it back. */
  lemma LostRun(a: AgentId)
    ensures !AlwaysAccounted(Start(map[1 := "repository"], map[a := 1]),
                             [Spontaneous(Enqueue(1, false, 0)), Spontaneous(Dispatch(1, a, 0)), Open(a, 0),
                              AgentBegins(0, 5, WANTED), ServerReceives(0), AgentReceives(0), AgentResolves(0, 5),
                              AgentDrops(0, 5, true, false)])
  {
    hide *;
    var y := Start(map[1 := "repository"], map[a := 1]);
    var first := [Spontaneous(Enqueue(1, false, 0)), Spontaneous(Dispatch(1, a, 0)), Open(a, 0)];
    var then_ := [AgentBegins(0, 5, WANTED), ServerReceives(0), AgentReceives(0), AgentResolves(0, 5)];
    StartIsFresh(map[1 := "repository"], map[a := 1]);
    GivenIsReached(a);
    GivenIsUncontended(a);
    UncontendedIsGranted(Execute(y, first), 0, 5, WANTED);
    ExecuteBoth(y, first, then_);
    HeldHasRow(y, first + then_, 0, 5);
    LosingEnds(y, first + then_, AgentDrops(0, 5, true, false));
    assert first + then_ + [AgentDrops(0, 5, true, false)]
           == [first[0], first[1], first[2], then_[0], then_[1], then_[2], then_[3], AgentDrops(0, 5, true, false)];
  }

  lemma LosingEnds(y: System, steps: seq<Step>, last: Step)
    requires Fresh0(y) && Loses(Execute(y, steps), last)
    ensures !AlwaysAccounted(y, steps + [last])
  {
    var all := steps + [last];
    assert all[..|steps|] == steps && all[|steps|] == last;
    AlwaysAccountedExactly(y, all);
    hide Execute, Loses, AlwaysAccounted;
  }
}
