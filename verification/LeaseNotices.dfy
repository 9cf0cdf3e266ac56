/** Who is told what: the messages every change of a lease row puts on the wire. */
module LeaseNotices {
  import opened Basics
  import opened Jobs
  import opened Leases
  import opened LeaseTable
  import opened Events
  import opened LeaseQueue
  import opened LeaseWire

  // ---------------------------------------------------------------- the law

  /** The messages added to socket `k` between `s` and `t`. */
  function News(s: Server, t: Server, k: SocketId): seq<ServerMessage> {
    if |Outbox(s.sent, k)| <= |Outbox(t.sent, k)| then Outbox(t.sent, k)[|Outbox(s.sent, k)|..] else []
  }

  /** `m` reaches agent `a`, if it has an open socket. */
  predicate Hears(s: Server, t: Server, a: AgentId, m: ServerMessage) {
    a in s.connected ==> m in News(s, t, s.connected[a])
  }

  /** The row entitles agent `a`, now or when its turn comes. */
  predicate Pending(leases: map<RequestId, Lease>, r: RequestId, a: AgentId) {
    r in leases && leases[r].agent == a && leases[r].status != Cancelling
  }

  /**
   * From `s` to `t`, for all requests but those in `except`: a row that goes or is marked is cancelled
   * on its agent's wire, a row that turns active is granted there, and nobody else is sent anything:
   * a cancellation means that nothing is pending any more, a grant that the row is active. Messages
   * name only requests in `about`.
   */
  ghost predicate Noticed(s: Server, t: Server, except: set<RequestId>, about: set<RequestId>) {
    && t.connected == s.connected && OutboxesGrow(s, t)
    && (forall k, m | m in News(s, t, k) :: m.request in about)
    && (forall r | r in s.leases && r !in t.leases && r !in except :: Hears(s, t, s.leases[r].agent, Cancelled(r)))
    && (forall r | r in s.leases && r in t.leases && t.leases[r] != s.leases[r] :: Turned(s, t, r))
    && (forall a, m | a in s.connected && m in News(s, t, s.connected[a]) && m.request !in except :: IsTrue(s, t, a, m))
  }

  /** What agent `a` was sent describes the rows at `t`. */
  predicate IsTrue(s: Server, t: Server, a: AgentId, m: ServerMessage)
    requires a in s.connected
  {
    if m.Cancelled? then !Pending(t.leases, m.request, a)
    else ActiveFor(t, m.request, a) || Cancelled(m.request) in News(s, t, s.connected[a])
  }

  /** A row changes only by a grant or by a mark, and its agent is told which. */
  predicate Turned(s: Server, t: Server, r: RequestId)
    requires r in s.leases && r in t.leases
  {
    var before, after := s.leases[r], t.leases[r];
    || (before.status == Waiting && after == before.(status := Active) && Hears(s, t, before.agent, Granted(r)))
    || (after == before.(status := Cancelling) && Hears(s, t, before.agent, Cancelled(r)))
  }

  lemma NewsOfTwo(s: Server, t: Server, u: Server, k: SocketId)
    requires OutboxesGrow(s, t) && OutboxesGrow(t, u)
    ensures News(s, u, k) == News(s, t, k) + News(t, u, k)
  {
    assert Outbox(s.sent, k) <= Outbox(t.sent, k) <= Outbox(u.sent, k);
  }

  /** The law holds of two stretches together when the second one inserts no row. */
  lemma NoticedTwice(s: Server, t: Server, u: Server, except: set<RequestId>, about: set<RequestId>)
    requires Noticed(s, t, except, about) && Noticed(t, u, except, about) && u.leases.Keys <= t.leases.Keys
    ensures Noticed(s, u, except, about)
  {
    GrowTrans(s, t, u);
    forall k ensures News(s, u, k) == News(s, t, k) + News(t, u, k) { NewsOfTwo(s, t, u, k); }
    hide News, OutboxesGrow, IsTrue;
    forall a, m | a in s.connected && m in News(s, u, s.connected[a]) && m.request !in except ensures IsTrue(s, u, a, m) {
      if m in News(s, t, s.connected[a]) {
        StaysTrue(s, t, u, a, m, except, about);
      } else {
        TrueLater(s, t, u, a, m);
      }
    }
    hide Noticed;
    TurnedTwice(s, t, u, except, about);
  }

  lemma TrueLater(s: Server, t: Server, u: Server, a: AgentId, m: ServerMessage)
    requires a in s.connected && t.connected == s.connected && IsTrue(t, u, a, m)
    requires News(s, u, s.connected[a]) == News(s, t, s.connected[a]) + News(t, u, s.connected[a])
    ensures IsTrue(s, u, a, m)
  {
    hide News;
  }

  lemma StaysTrue(s: Server, t: Server, u: Server, a: AgentId, m: ServerMessage, except: set<RequestId>, about: set<RequestId>)
    requires a in s.connected && t.connected == s.connected && IsTrue(s, t, a, m) && m.request !in except
    requires Noticed(t, u, except, about) && u.leases.Keys <= t.leases.Keys
    requires News(s, u, s.connected[a]) == News(s, t, s.connected[a]) + News(t, u, s.connected[a])
    ensures IsTrue(s, u, a, m)
  {
    hide News, OutboxesGrow;
    if m.request in u.leases && u.leases[m.request] != t.leases[m.request] {
      assert Turned(t, u, m.request);
    }
  }

  lemma TurnedTwice(s: Server, t: Server, u: Server, except: set<RequestId>, about: set<RequestId>)
    requires Noticed(s, t, except, about) && Noticed(t, u, except, about) && u.leases.Keys <= t.leases.Keys
    requires forall k :: News(s, u, k) == News(s, t, k) + News(t, u, k)
    ensures forall r | r in s.leases && r in u.leases && u.leases[r] != s.leases[r] :: Turned(s, u, r)
  {
    hide News, OutboxesGrow, IsTrue;
    forall r | r in s.leases && r in u.leases && u.leases[r] != s.leases[r] ensures Turned(s, u, r) {
      assert t.leases[r] != s.leases[r] ==> Turned(s, t, r);
      assert u.leases[r] != t.leases[r] ==> Turned(t, u, r);
    }
  }

  // ---------------------------------------------------------------- what is sent

  lemma NothingNoticed(s: Server, t: Server, except: set<RequestId>, about: set<RequestId>)
    requires t.connected == s.connected && t.sent == s.sent && t.leases == s.leases
    ensures Noticed(s, t, except, about)
  {
  }

  lemma SendNews(s: Server, t: Server, agent: AgentId, m: ServerMessage)
    requires SameElsewhere(s, t) && t.sent == s.sent
    ensures var u := Send(t, agent, m);
      && OutboxesGrow(s, u)
      && (forall k :: News(s, u, k) == if agent in s.connected && s.connected[agent] == k then [m] else [])
  {
    forall k ensures News(s, Send(t, agent, m), k) == if agent in s.connected && s.connected[agent] == k then [m] else [] {
    }
  }

  /** What the cancellations of `ids` add to socket `k`. */
  predicate IsCancellation(s: Server, ids: seq<RequestId>, rows: map<RequestId, Lease>, k: SocketId, m: ServerMessage)
    requires forall r | r in ids :: r in rows
  {
    && m.Cancelled? && m.request in ids
    && rows[m.request].agent in s.connected && s.connected[rows[m.request].agent] == k
  }

  lemma {:induction false} CancelNews(s: Server, ids: seq<RequestId>, rows: map<RequestId, Lease>)
    requires forall r | r in ids :: r in rows
    ensures OutboxesGrow(s, Cancel(s, ids, rows))
    ensures forall k, m :: m in News(s, Cancel(s, ids, rows), k) <==> IsCancellation(s, ids, rows, k, m)
    decreases |ids|
  {
    if ids != [] {
      var rest := ids[1..];
      assert ids == [ids[0]] + rest;
      var s1 := Send(s, rows[ids[0]].agent, Cancelled(ids[0]));
      SendNews(s, s, rows[ids[0]].agent, Cancelled(ids[0]));
      CancelNews(s1, rest, rows);
      var t := Cancel(s, ids, rows);
      assert t == Cancel(s1, rest, rows);
      hide Cancel, Send;
      GrowTrans(s, s1, t);
      forall k, m ensures m in News(s, t, k) <==> IsCancellation(s, ids, rows, k, m) {
        NewsOfTwo(s, s1, t, k);
        assert m in News(s1, t, k) <==> IsCancellation(s1, rest, rows, k, m);
      }
    }
  }

  // ---------------------------------------------------------------- promotion

  /** `p`'s row turns active, and the rows that go have nobody to hear of it. */
  predicate Grants(s: Server, mid: Server, p: RequestId) {
    && SameElsewhere(s, mid) && mid.sent == s.sent
    && p in s.leases && s.leases[p].status == Waiting && p in mid.leases && mid.leases[p] == s.leases[p].(status := Active)
    && (forall r | r in mid.leases && r != p :: r in s.leases && mid.leases[r] == s.leases[r])
    && (forall r | r in s.leases && r !in mid.leases :: s.leases[r].agent !in s.connected)
  }

  lemma GrantNoticed(s: Server, mid: Server, p: RequestId, about: set<RequestId>)
    requires p in about
    requires SocketsDistinct(s) && Grants(s, mid, p)
    ensures Noticed(s, Send(mid, s.leases[p].agent, Granted(p)), {}, about)
  {
    SendNews(s, mid, s.leases[p].agent, Granted(p));
    hide News, OutboxesGrow;
  }

  lemma DeletedNoticed(s: Server, ids: set<RequestId>, about: set<RequestId>)
    requires forall r | r in ids && r in s.leases :: s.leases[r].agent !in s.connected
    ensures Noticed(s, Delete(s, ids), {}, about)
  {
  }

  lemma PromotedGrants(s: Server, g: GroupKey, p: RequestId)
    requires Reachable(s, g) != {} && p == First(s.leases, Reachable(s, g))
    ensures Grants(s, SetStatus(Delete(s, Ahead(s, g, p)), p, Active), p)
  {
  }

  lemma PromoteNoticed(s: Server, g: GroupKey, about: set<RequestId>)
    requires s.leases.Keys <= about
    requires SequencesUnique(s.leases) && SocketsDistinct(s)
    ensures Noticed(s, Promote(s, g), {}, about)
  {
    if HeldIn(s.leases, g) != {} {
      NothingNoticed(s, s, {}, about);
    } else {
      PromoteMeaning(s, g);
      hide Noticed;
      if Reachable(s, g) != {} {
        var p := First(s.leases, Reachable(s, g));
        PromotedGrants(s, g, p);
        GrantNoticed(s, SetStatus(Delete(s, Ahead(s, g, p)), p, Active), p, about);
      } else {
        assert forall r | r in Promotable(s, g) && s.leases[r].agent in s.connected :: r in Reachable(s, g);
        DeletedNoticed(s, Promotable(s, g), about);
      }
    }
  }

  lemma {:induction false} PromoteAllNoticed(s: Server, groups: seq<GroupKey>, about: set<RequestId>)
    requires s.leases.Keys <= about
    requires SequencesUnique(s.leases) && SocketsDistinct(s)
    ensures Noticed(s, PromoteAll(s, groups), {}, about) && PromoteAll(s, groups).leases.Keys <= s.leases.Keys
    decreases |groups|
  {
    hide Noticed, SequencesUnique;
    if groups == [] {
      NothingNoticed(s, s, {}, about);
    } else {
      var t := Promote(s, groups[0]);
      PromoteNoticed(s, groups[0], about);
      PromoteEffect(s, groups[0]);
      ShrunkSequences(s.leases, t.leases);
      PromoteAllNoticed(t, groups[1..], about);
      NoticedTwice(s, t, PromoteAll(t, groups[1..]), {}, about);
    }
  }

  // ---------------------------------------------------------------- release

  lemma Excepted(s: Server, t: Server, except: set<RequestId>, about: set<RequestId>)
    requires Noticed(s, t, {}, about)
    ensures Noticed(s, t, except, about)
  {
  }

  /** The agent that gives a lease back knows; everybody else hears what it is about. */
  lemma ReleaseNoticed(s: Server, request: RequestId, run: RunId, agent: AgentId, about: set<RequestId>)
    requires s.leases.Keys <= about
    requires SequencesUnique(s.leases) && SocketsDistinct(s)
    ensures Noticed(s, Release(s, request, run, agent), {request}, about)
  {
    var d := Delete(s, {request});
    assert Noticed(s, d, {request}, about) && Noticed(s, s, {request}, about);
    if request in s.leases {
      var g := s.leases[request].group;
      PromoteNoticed(d, g, about);
      PromoteEffect(d, g);
      hide Noticed, Promote;
      Excepted(d, Promote(d, g), {request}, about);
      NoticedTwice(s, d, Promote(d, g), {request}, about);
    }
  }

  /** Rows `ids` go or are marked, and their agents are told. */
  lemma CancelledNoticed(s: Server, mid: Server, ids: seq<RequestId>, about: set<RequestId>)
    requires s.leases.Keys <= about
    requires forall r | r in ids :: r in s.leases
    requires SameElsewhere(s, mid) && mid.sent == s.sent
    requires forall r | r in ids && r in mid.leases :: mid.leases[r] == s.leases[r].(status := Cancelling)
    requires forall r | r in s.leases && r !in ids :: r in mid.leases && mid.leases[r] == s.leases[r]
    ensures Noticed(s, Cancel(mid, ids, s.leases), {}, about)
  {
    CancelNews(mid, ids, s.leases);
    var t := Cancel(mid, ids, s.leases);
    hide Cancel;
    assert forall k :: News(s, t, k) == News(mid, t, k);
    assert forall k, m :: m in News(s, t, k) <==> IsCancellation(s, ids, s.leases, k, m);
    assert OutboxesGrow(s, t) by { assert forall k :: Outbox(mid.sent, k) <= Outbox(t.sent, k); }
    hide News, OutboxesGrow;
  }

  lemma ReleaseForRunNoticed(s: Server, run: RunId, about: set<RequestId>)
    requires s.leases.Keys <= about
    requires SequencesUnique(s.leases) && SocketsDistinct(s)
    ensures Noticed(s, ReleaseForRun(s, run), {}, about)
  {
    var ids := Ordered(s.leases, OfRun(s.leases, run));
    var d := Delete(s, OfRun(s.leases, run));
    CancelledNoticed(s, d, ids, about);
    var c := Cancel(d, ids, s.leases);
    hide Noticed;
    PromoteAllNoticed(c, FreedGroups(ids, s.leases), about);
    NoticedTwice(s, c, PromoteAll(c, FreedGroups(ids, s.leases)), {}, about);
  }

  // ---------------------------------------------------------------- acquisition

  lemma ReplyNoticed(s: Server, agent: AgentId, socket: SocketId, m: ServerMessage, except: set<RequestId>, about: set<RequestId>)
    requires m.request in about
    requires SocketsDistinct(s)
    requires m.request in except
             || if m.Granted? then ActiveFor(s, m.request, agent) else !Pending(s.leases, m.request, agent)
    ensures Noticed(s, Reply(s, agent, socket, m), except, about)
  {
    SendNews(s, s, agent, m);
    NothingNoticed(s, s, except, about);
    hide News, OutboxesGrow;
  }

  /** Whose rows an admitted request cost: the displaced waiters, and the holder if it is to make way. */
  ghost function Losers(s: Server, ask: Ask, g: GroupKey): (ids: seq<RequestId>)
    ensures forall r | r in ids :: r in s.leases
  {
    Ordered(s.leases, Displaced(s, g, ask.queue))
    + if ask.cancelInProgress && HeldIn(s.leases, g) != {} then [First(s.leases, HeldIn(s.leases, g))] else []
  }

  lemma AdmissionIs(s: Server, socket: SocketId, agent: AgentId, request: RequestId, ask: Ask, g: GroupKey)
    requires Admitted(s, request, ask, g)
    ensures var u := Cancel(Inserted(s, agent, request, ask, g), Losers(s, ask, g), s.leases);
            AcquireNew(s, socket, agent, request, ask, g)
            == if HeldIn(s.leases, g) == {} then Reply(u, agent, socket, Granted(request)) else u
  {
    var displaced := Ordered(s.leases, Displaced(s, g, ask.queue));
    assert displaced + [] == displaced;
    if ask.cancelInProgress && HeldIn(s.leases, g) != {} {
      CancelTwice(Inserted(s, agent, request, ask, g), displaced, [First(s.leases, HeldIn(s.leases, g))], s.leases);
    }
    hide Inserted, Cancel;
  }

  lemma LosersAre(s: Server, ask: Ask, g: GroupKey, after: map<RequestId, Lease>, request: RequestId, row: Lease)
    requires AtMostOneHeld(s.leases) && row.group == g
    requires RowsAdmitted(s.leases, after, Displaced(s, g, ask.queue), request, row, ask.cancelInProgress)
    ensures forall r | r in Losers(s, ask, g) && r in after :: after[r] == s.leases[r].(status := Cancelling)
    ensures forall r | r in s.leases && r !in Losers(s, ask, g) :: r in after && after[r] == s.leases[r]
  {
    HeldMembers(s.leases, g);
    hide HeldIn;
  }

  lemma AdmissionNoticed(s: Server, socket: SocketId, agent: AgentId, request: RequestId, ask: Ask, g: GroupKey,
                         about: set<RequestId>)
    requires s.leases.Keys <= about && request in about
    requires RowsOk(s.leases, s.nextSequence) && SocketsDistinct(s) && Admitted(s, request, ask, g)
    ensures Noticed(s, AcquireNew(s, socket, agent, request, ask, g), {}, about)
  {
    InsertedEffect(s, agent, request, ask, g);
    AdmissionIs(s, socket, agent, request, ask, g);
    var i := Inserted(s, agent, request, ask, g);
    LosersAre(s, ask, g, i.leases, request, NewRow(s, agent, ask, g));
    InsertedSends(s, agent, request, ask, g);
    hide AcquireNew, Inserted, Losers;
    CancelledNoticed(s, i, Losers(s, ask, g), about);
    hide Noticed;
    if HeldIn(s.leases, g) == {} {
      var u := Cancel(i, Losers(s, ask, g), s.leases);
      ReplyNoticed(u, agent, socket, Granted(request), {}, about);
      NoticedTwice(s, u, Reply(u, agent, socket, Granted(request)), {}, about);
    }
  }

  lemma InsertedSends(s: Server, agent: AgentId, request: RequestId, ask: Ask, g: GroupKey)
    ensures SameElsewhere(s, Inserted(s, agent, request, ask, g)) && Inserted(s, agent, request, ask, g).sent == s.sent
  {
  }

  /** The message names a request whose row is pending for this agent, and must be refused all the same. */
  predicate Contradicts(s: Server, agent: AgentId, request: RequestId, ask: Ask) {
    && Pending(s.leases, request, agent)
    && (s.leases[request].run != ask.run || (ask.queue == Max && ask.cancelInProgress))
  }

  function Settled(s: Server, agent: AgentId, request: RequestId, ask: Ask): set<RequestId> {
    if Contradicts(s, agent, request, ask) then {request} else {}
  }

  /** Everybody an acquisition costs something is told so. */
  lemma AcquireNoticed(s: Server, socket: SocketId, agent: AgentId, request: RequestId, ask: Ask, about: set<RequestId>)
    requires s.leases.Keys <= about && request in about
    requires RowsOk(s.leases, s.nextSequence) && SocketsDistinct(s) && ask.run in s.repositories
    ensures Noticed(s, Acquire(s, socket, agent, request, ask), Settled(s, agent, request, ask), about)
  {
    var except := Settled(s, agent, request, ask);
    var g := KeyOf(s.repositories[ask.run], ask.group);
    hide AcquireNew, Noticed, KeyOf;
    if ask.queue == Max && ask.cancelInProgress {
      ReplyNoticed(s, agent, socket, Cancelled(request), except, about);
    } else if request in s.leases {
      RepeatNoticed(s, socket, agent, request, ask, about);
    } else if Admitted(s, request, ask, g) {
      AdmissionNoticed(s, socket, agent, request, ask, g, about);
    } else {
      RefusedAnswer(s, socket, agent, request, ask, g);
      ReplyNoticed(s, agent, socket, Cancelled(request), except, about);
    }
  }

  lemma RepeatNoticed(s: Server, socket: SocketId, agent: AgentId, request: RequestId, ask: Ask, about: set<RequestId>)
    requires s.leases.Keys <= about
    requires SocketsDistinct(s) && request in s.leases && !(ask.queue == Max && ask.cancelInProgress)
    ensures Noticed(s, Repeat(s, socket, agent, request, ask.run), Settled(s, agent, request, ask), about)
  {
    var except := Settled(s, agent, request, ask);
    hide Noticed, Reply;
    var row := s.leases[request];
    if row.run != ask.run || row.agent != agent || row.status == Cancelling {
      ReplyNoticed(s, agent, socket, Cancelled(request), except, about);
    } else if row.status == Active {
      ReplyNoticed(s, agent, socket, Granted(request), except, about);
    } else {
      NothingNoticed(s, s, except, about);
    }
  }

  lemma RefusedAnswer(s: Server, socket: SocketId, agent: AgentId, request: RequestId, ask: Ask, g: GroupKey)
    requires ask.queue == Max && |WaitingIn(s.leases, g)| >= MAX_WAITING
    ensures AcquireNew(s, socket, agent, request, ask, g) == Reply(s, agent, socket, Cancelled(request))
  {
  }

  /** The request is waiting in a row of its agent and run, or its agent hears what became of it. */
  predicate Answered(s: Server, t: Server, agent: AgentId, request: RequestId, run: RunId)
    requires agent in s.connected
  {
    var news := News(s, t, s.connected[agent]);
    || Cancelled(request) in news
    || (&& request in t.leases && t.leases[request].agent == agent && t.leases[request].run == run
        && (t.leases[request].status == Waiting || (t.leases[request].status == Active && Granted(request) in news)))
  }

  /** Nobody who asks is left without an answer. */
  lemma AcquireAnswered(s: Server, socket: SocketId, agent: AgentId, request: RequestId, ask: Ask)
    requires RowsOk(s.leases, s.nextSequence) && ask.run in s.repositories
    requires agent in s.connected && s.connected[agent] == socket
    ensures Answered(s, Acquire(s, socket, agent, request, ask), agent, request, ask.run)
  {
    var g := KeyOf(s.repositories[ask.run], ask.group);
    hide AcquireNew, KeyOf, News;
    SendNews(s, s, agent, Cancelled(request));
    SendNews(s, s, agent, Granted(request));
    if ask.queue == Max && ask.cancelInProgress {
    } else if request in s.leases {
    } else if Admitted(s, request, ask, g) {
      AdmissionAnswered(s, socket, agent, request, ask, g);
    } else {
      RefusedAnswer(s, socket, agent, request, ask, g);
    }
  }

  lemma AdmissionAnswered(s: Server, socket: SocketId, agent: AgentId, request: RequestId, ask: Ask, g: GroupKey)
    requires RowsOk(s.leases, s.nextSequence) && Admitted(s, request, ask, g)
    requires agent in s.connected && s.connected[agent] == socket
    ensures Answered(s, AcquireNew(s, socket, agent, request, ask, g), agent, request, ask.run)
  {
    InsertedEffect(s, agent, request, ask, g);
    AdmissionIs(s, socket, agent, request, ask, g);
    var i := Inserted(s, agent, request, ask, g);
    InsertedSends(s, agent, request, ask, g);
    hide AcquireNew, Inserted, Losers, HeldIn, Displaced;
    CancelNews(i, Losers(s, ask, g), s.leases);
    var u := Cancel(i, Losers(s, ask, g), s.leases);
    SendNews(u, u, agent, Granted(request));
    hide Cancel;
    if HeldIn(s.leases, g) == {} {
      var t := Send(u, agent, Granted(request));
      assert OutboxesGrow(s, u) by { assert forall k :: Outbox(i.sent, k) <= Outbox(u.sent, k); }
      NewsOfTwo(s, u, t, socket);
    }
  }

  // ---------------------------------------------------------------- what becomes of the rows

  predicate GroupHeld(leases: map<RequestId, Lease>, g: GroupKey) {
    exists r | r in leases :: leases[r].group == g && leases[r].status != Waiting
  }

  /** What a request that is not refused leaves of another row: nothing, if it waits where only one may. */
  function After(row: Lease, ask: Ask, g: GroupKey): Option<Lease> {
    if row.group != g then Some(row)
    else if row.status == Waiting then (if ask.queue == Single then None else Some(row))
    else Some(if ask.cancelInProgress then row.(status := Cancelling) else row)
  }

  function Waiters(leases: map<RequestId, Lease>, g: GroupKey): set<RequestId> {
    set r | r in leases && leases[r].group == g && leases[r].status == Waiting
  }

  lemma GroupMembers(s: Server, g: GroupKey)
    ensures Waiters(s.leases, g) == WaitingIn(s.leases, g)
    ensures GroupHeld(s.leases, g) <==> HeldIn(s.leases, g) != {}
    ensures Displaced(s, g, Single) == Waiters(s.leases, g) && Displaced(s, g, Max) == {}
  {
    HeldMembers(s.leases, g);
    if HeldIn(s.leases, g) != {} { var r :| r in HeldIn(s.leases, g); }
  }

  /** The rows after a new request `request` of group `g` that was not refused. */
  predicate Accepted(s: Server, t: Server, agent: AgentId, request: RequestId, ask: Ask, g: GroupKey) {
    && request in t.leases && t.leases.Keys <= s.leases.Keys + {request}
    && t.leases[request] == Lease(s.nextSequence, ask.run, agent, g, ask.unit, ask.queue,
                                  if GroupHeld(s.leases, g) then Waiting else Active)
    && forall r | r in s.leases :: (if r in t.leases then Some(t.leases[r]) else None) == After(s.leases[r], ask, g)
  }

  lemma AdmittedIsAccepted(s: Server, t: Server, agent: AgentId, request: RequestId, ask: Ask, g: GroupKey)
    requires RowsAdmitted(s.leases, t.leases, Displaced(s, g, ask.queue), request, NewRow(s, agent, ask, g), ask.cancelInProgress)
    ensures Accepted(s, t, agent, request, ask, g)
  {
    GroupMembers(s, g);
    var gone := Displaced(s, g, ask.queue);
    assert gone == if ask.queue == Single then Waiters(s.leases, g) else {};
    hide GroupHeld, HeldIn, Displaced, WaitingIn;
    forall r | r in s.leases ensures (if r in t.leases then Some(t.leases[r]) else None) == After(s.leases[r], ask, g) {
      assert r in gone <==> s.leases[r].group == g && s.leases[r].status == Waiting && ask.queue == Single;
    }
  }

  /** When a new request is refused, and what becomes of every row when it is not. */
  lemma AcquisitionIs(s: Server, socket: SocketId, agent: AgentId, request: RequestId, ask: Ask)
    requires RowsOk(s.leases, s.nextSequence) && ask.run in s.repositories && request !in s.leases
    ensures var t := Acquire(s, socket, agent, request, ask);
            var g := KeyOf(s.repositories[ask.run], ask.group);
            if ask.queue == Max && (ask.cancelInProgress || |Waiters(s.leases, g)| >= 100) then t.leases == s.leases
            else Accepted(s, t, agent, request, ask, g)
  {
    hide Acquire, KeyOf, RowsAdmitted, Accepted, Displaced, Waiters, WaitingIn, HeldIn, SequencesUnique;
    var t := AcquireEffect(s, socket, agent, request, ask);
    var g := KeyOf(s.repositories[ask.run], ask.group);
    GroupMembers(s, g);
    if Admitted(s, request, ask, g) { AdmittedIsAccepted(s, t, agent, request, ask, g); }
  }

  /** Only the agent that has a lease can give it back, and only for its run; a lease that waits goes without a trace. */
  lemma ReleaseIs(s: Server, request: RequestId, run: RunId, agent: AgentId)
    requires SequencesUnique(s.leases)
    ensures var t := Release(s, request, run, agent);
            if request in s.leases && s.leases[request].run == run && s.leases[request].agent == agent
            then request !in t.leases && (s.leases[request].status == Waiting ==> t == s.(leases := s.leases - {request}))
            else t == s
  {
    if request in s.leases {
      PromoteEffect(Delete(s, {request}), s.leases[request].group);
      hide Promote;
    }
  }

  // ---------------------------------------------------------------- every event, every run

  /** The request an event settles itself: the one given back, or the one named in contradiction to its row. */
  function Own(s: Server, e: Event): set<RequestId> {
    match e
    case ConcurrencyRelease(_, request, _) => {request}
    case ConcurrencyAcquire(agent, _, request, ask) => Settled(s, agent, request, ask)
    case _ => {}
  }

  /** The request an acquisition is about. */
  function Named(e: Event): set<RequestId> {
    if e.ConcurrencyAcquire? then {e.request} else {}
  }

  lemma JobsNoticed(s: Server, r: Server, jobs: map<RunId, JobRow>, except: set<RequestId>, about: set<RequestId>)
    requires Noticed(s, r, except, about)
    ensures Noticed(s, r.(jobs := jobs), except, about)
  {
    assert forall k :: News(s, r.(jobs := jobs), k) == News(s, r, k);
    hide News;
  }

  /** Whatever happens, the agents concerned are told what it means for their requests, and nobody else is told anything. */
  lemma ApplyNoticed(s: Server, e: Event)
    requires RowsOk(s.leases, s.nextSequence) && SocketsDistinct(s) && !e.Connect? && !e.Disconnect?
    ensures Noticed(s, Apply(s, e), Own(s, e), s.leases.Keys + Named(e))
  {
    hide Acquire, Release, ReleaseForRun, RowAfter, Finished, Requeued, Dispatched, Enqueued, LiveRuns, Noticed, Contradicts;
    var about := s.leases.Keys + Named(e);
    NothingNoticed(s, s, Own(s, e), about);
    match e
    case ConcurrencyAcquire(agent, socket, request, ask) =>
      if ask.run in s.repositories { AcquireNoticed(s, socket, agent, request, ask, about); }
    case ConcurrencyRelease(agent, request, run) => ReleaseNoticed(s, request, run, agent, about);
    case JobFinished(_, run, _, _) =>
      ReleaseForRunNoticed(s, run, about);
      JobsNoticed(s, ReleaseForRun(s, run), Apply(s, e).jobs, {}, about);
    case Requeue(run, _) =>
      ReleaseForRunNoticed(s, run, about);
      JobsNoticed(s, ReleaseForRun(s, run), Apply(s, e).jobs, {}, about);
    case _ =>
      JobsNoticed(s, s, Apply(s, e).jobs, {}, about);
  }
}
