/** How the rows of the lease table and the messages on the wire stay in step. */
module LeaseWire {
  import opened Basics
  import opened Jobs
  import opened Leases
  import opened LeaseTable
  import opened Events

  /** The server row that entitles agent `a` to run under request `r`. */
  predicate ActiveFor(s: Server, r: RequestId, a: AgentId) {
    r in s.leases && s.leases[r].status == Active && s.leases[r].agent == a
  }

  ghost predicate OutboxesGrow(s: Server, t: Server) {
    forall k :: Outbox(s.sent, k) <= Outbox(t.sent, k)
  }

  /**
   * From `s` to `t`: a connected agent loses an active row only with a cancellation on its wire, and
   * gets a grant on its wire only with an active row. Requests in `except` are not promised this.
   */
  ghost predicate InStep(s: Server, t: Server, except: set<RequestId>) {
    && t.connected == s.connected
    && OutboxesGrow(s, t)
    && (forall a, r | a in s.connected && r !in except && Cancelled(r) !in Outbox(t.sent, s.connected[a]) ::
          && (ActiveFor(s, r, a) ==> ActiveFor(t, r, a))
          && (Granted(r) in Outbox(t.sent, s.connected[a]) && Granted(r) !in Outbox(s.sent, s.connected[a]) ==> ActiveFor(t, r, a)))
  }

  lemma InStepTrans(s: Server, t: Server, u: Server, except: set<RequestId>)
    requires InStep(s, t, except) && InStep(t, u, except)
    ensures InStep(s, u, except)
  {
    forall k ensures Outbox(s.sent, k) <= Outbox(u.sent, k) {
      assert Outbox(s.sent, k) <= Outbox(t.sent, k) <= Outbox(u.sent, k);
    }
    forall a, r | a in s.connected && r !in except && Cancelled(r) !in Outbox(u.sent, s.connected[a])
      ensures ActiveFor(s, r, a) ==> ActiveFor(u, r, a)
      ensures Granted(r) in Outbox(u.sent, s.connected[a]) && Granted(r) !in Outbox(s.sent, s.connected[a]) ==> ActiveFor(u, r, a)
    {
      var k := s.connected[a];
      assert Outbox(t.sent, k) <= Outbox(u.sent, k);
      assert Cancelled(r) !in Outbox(t.sent, k);
    }
  }

  /** Distinct agents have distinct sockets. */
  predicate SocketsDistinct(s: Server) {
    forall a, b | a in s.connected && b in s.connected && s.connected[a] == s.connected[b] :: a == b
  }

  lemma SendEffect(s: Server, agent: AgentId, m: ServerMessage)
    ensures var t := Send(s, agent, m);
      && SameElsewhere(s, t) && t.leases == s.leases && OutboxesGrow(s, t)
      && (agent in s.connected ==> m in Outbox(t.sent, s.connected[agent]))
      && (forall k, n | n in Outbox(t.sent, k) && n !in Outbox(s.sent, k) ::
            n == m && agent in s.connected && k == s.connected[agent])
  {
  }

  lemma {:induction false} CancelTells(s: Server, ids: seq<RequestId>, rows: map<RequestId, Lease>)
    requires forall r | r in ids :: r in rows
    ensures var t := Cancel(s, ids, rows);
      && OutboxesGrow(s, t)
      && (forall r | r in ids && rows[r].agent in s.connected :: Cancelled(r) in Outbox(t.sent, s.connected[rows[r].agent]))
      && (forall k, m | m in Outbox(t.sent, k) && m !in Outbox(s.sent, k) :: m.Cancelled?)
    decreases |ids|
  {
    if ids != [] {
      var s1 := Send(s, rows[ids[0]].agent, Cancelled(ids[0]));
      SendEffect(s, rows[ids[0]].agent, Cancelled(ids[0]));
      CancelTells(s1, ids[1..], rows);
      var t := Cancel(s, ids, rows);
      assert t == Cancel(s1, ids[1..], rows);
      hide Cancel, Send;
      GrowTrans(s, s1, t);
      assert ids == [ids[0]] + ids[1..];
      forall r | r in ids && rows[r].agent in s.connected
        ensures Cancelled(r) in Outbox(t.sent, s.connected[rows[r].agent])
      {
        assert Outbox(s1.sent, s.connected[rows[r].agent]) <= Outbox(t.sent, s.connected[rows[r].agent]);
      }
    }
  }

  lemma GrowTrans(s: Server, t: Server, u: Server)
    requires OutboxesGrow(s, t) && OutboxesGrow(t, u)
    ensures OutboxesGrow(s, u)
  {
    forall k ensures Outbox(s.sent, k) <= Outbox(u.sent, k) {
      assert Outbox(s.sent, k) <= Outbox(t.sent, k) <= Outbox(u.sent, k);
    }
  }

  /** Rows `ids` leave or stop being active, and every agent concerned is told. */
  lemma CancelledInStep(s: Server, mid: Server, ids: seq<RequestId>)
    requires forall r | r in ids :: r in s.leases
    requires SameElsewhere(s, mid) && mid.sent == s.sent
    requires forall r, a | ActiveFor(s, r, a) && r !in ids :: ActiveFor(mid, r, a)
    ensures InStep(s, Cancel(mid, ids, s.leases), {})
  {
    CancelTells(mid, ids, s.leases);
    var t := Cancel(mid, ids, s.leases);
    hide Cancel;
    forall k ensures Outbox(s.sent, k) <= Outbox(t.sent, k) {
      assert Outbox(mid.sent, k) <= Outbox(t.sent, k);
    }
    forall a, r | a in s.connected && Cancelled(r) !in Outbox(t.sent, s.connected[a])
      ensures ActiveFor(s, r, a) ==> ActiveFor(t, r, a)
      ensures !(Granted(r) in Outbox(t.sent, s.connected[a]) && Granted(r) !in Outbox(s.sent, s.connected[a]))
    {
      var k, m := s.connected[a], Granted(r);
      assert m in Outbox(t.sent, k) && m !in Outbox(mid.sent, k) ==> m.Cancelled?;
    }
  }

  lemma PromoteInStep(s: Server, g: GroupKey)
    requires SequencesUnique(s.leases) && SocketsDistinct(s)
    ensures InStep(s, Promote(s, g), {})
  {
    if HeldIn(s.leases, g) == {} {
      PromoteMeaning(s, g);
      hide Promote;
      if Reachable(s, g) != {} {
        var p := First(s.leases, Reachable(s, g));
        var mid := SetStatus(Delete(s, Ahead(s, g, p)), p, Active);
        assert Promote(s, g) == Send(mid, s.leases[p].agent, Granted(p));
        hide Promoted, First;
        PromotedActive(s, mid, Ahead(s, g, p), g, p);
        GrantInStep(s, mid, p, s.leases[p].agent);
      } else {
        hide Promoted;
        assert OutboxesGrow(s, s);
      }
    }
  }

  lemma PromotedActive(s: Server, mid: Server, ahead: set<RequestId>, g: GroupKey, p: RequestId)
    requires p in Promotable(s, g) && p !in ahead && ahead <= Promotable(s, g)
    requires mid == SetStatus(Delete(s, ahead), p, Active)
    ensures ActiveFor(mid, p, s.leases[p].agent)
    ensures forall r, a | ActiveFor(s, r, a) :: ActiveFor(mid, r, a)
  {
  }

  lemma GrantInStep(s: Server, mid: Server, p: RequestId, agent: AgentId)
    requires SocketsDistinct(s) && SameElsewhere(s, mid) && mid.sent == s.sent
    requires forall r, a | ActiveFor(s, r, a) :: ActiveFor(mid, r, a)
    requires ActiveFor(mid, p, agent)
    ensures InStep(s, Send(mid, agent, Granted(p)), {})
  {
    SendEffect(mid, agent, Granted(p));
    var t := Send(mid, agent, Granted(p));
    hide Send;
    forall k ensures Outbox(s.sent, k) <= Outbox(t.sent, k) {
      assert Outbox(mid.sent, k) <= Outbox(t.sent, k);
    }
  }

  lemma {:induction false} PromoteAllInStep(s: Server, groups: seq<GroupKey>)
    requires SequencesUnique(s.leases) && SocketsDistinct(s)
    ensures InStep(s, PromoteAll(s, groups), {})
    decreases |groups|
  {
    if groups != [] {
      var t := Promote(s, groups[0]);
      PromoteInStep(s, groups[0]);
      PromoteEffect(s, groups[0]);
      ShrunkSequences(s.leases, t.leases);
      PromoteAllInStep(t, groups[1..]);
      InStepTrans(s, t, PromoteAll(t, groups[1..]), {});
    }
  }

  lemma ReleaseInStep(s: Server, request: RequestId, run: RunId, agent: AgentId)
    requires SequencesUnique(s.leases) && SocketsDistinct(s)
    ensures InStep(s, Release(s, request, run, agent), {request})
  {
    var d := Delete(s, {request});
    assert InStep(s, d, {request});
    if request in s.leases {
      PromoteInStep(d, s.leases[request].group);
      hide Promote;
      InStepTrans(s, d, Promote(d, s.leases[request].group), {request});
    }
  }

  lemma ReleaseForRunInStep(s: Server, run: RunId)
    requires SequencesUnique(s.leases) && SocketsDistinct(s)
    ensures InStep(s, ReleaseForRun(s, run), {})
  {
    var ids := Ordered(s.leases, OfRun(s.leases, run));
    var d := Delete(s, OfRun(s.leases, run));
    CancelledInStep(s, d, ids);
    var c := Cancel(d, ids, s.leases);
    PromoteAllInStep(c, FreedGroups(ids, s.leases));
    InStepTrans(s, c, PromoteAll(c, FreedGroups(ids, s.leases)), {});
  }

  lemma ReplyInStep(s: Server, agent: AgentId, socket: SocketId, m: ServerMessage)
    requires SocketsDistinct(s) && (m.Granted? ==> ActiveFor(s, m.request, agent))
    ensures InStep(s, Reply(s, agent, socket, m), {})
  {
    if m.Granted? {
      GrantInStep(s, s, m.request, agent);
    } else {
      SendEffect(s, agent, m);
    }
    hide Send;
    assert OutboxesGrow(s, s);
  }

  lemma AcquireInStep(s: Server, socket: SocketId, agent: AgentId, request: RequestId, ask: Ask)
    requires RowsOk(s.leases, s.nextSequence) && SocketsDistinct(s) && ask.run in s.repositories
    ensures InStep(s, Acquire(s, socket, agent, request, ask), {})
  {
    var g := KeyOf(s.repositories[ask.run], ask.group);
    hide AcquireNew;
    ReplyInStep(s, agent, socket, Cancelled(request));
    if Admitted(s, request, ask, g) {
      AdmissionInStep(s, socket, agent, request, ask, g);
    } else if ask.queue == Max && ask.cancelInProgress {
    } else if request in s.leases {
      if ActiveFor(s, request, agent) { ReplyInStep(s, agent, socket, Granted(request)); }
      assert InStep(s, s, {});
    } else {
      RefusalInStep(s, socket, agent, request, ask, g);
    }
  }

  lemma RefusalInStep(s: Server, socket: SocketId, agent: AgentId, request: RequestId, ask: Ask, g: GroupKey)
    requires ask.queue == Max && |WaitingIn(s.leases, g)| >= MAX_WAITING && SocketsDistinct(s)
    ensures InStep(s, AcquireNew(s, socket, agent, request, ask, g), {})
  {
    ReplyInStep(s, agent, socket, Cancelled(request));
  }

  lemma AdmissionInStep(s: Server, socket: SocketId, agent: AgentId, request: RequestId, ask: Ask, g: GroupKey)
    requires RowsOk(s.leases, s.nextSequence) && SocketsDistinct(s) && Admitted(s, request, ask, g)
    ensures InStep(s, AcquireNew(s, socket, agent, request, ask, g), {})
  {
    InsertedEffect(s, agent, request, ask, g);
    HeldMembers(s.leases, g);
    var held := HeldIn(s.leases, g);
    var displaced := Ordered(s.leases, Displaced(s, g, ask.queue));
    var s1 := Inserted(s, agent, request, ask, g);
    var s2 := Cancel(s1, displaced, s.leases);
    var t := AcquireNew(s, socket, agent, request, ask, g);
    if held == {} {
      assert t == Reply(s2, agent, socket, Granted(request));
      hide AcquireNew, Inserted;
      CancelledInStep(s, s1, displaced);
      hide Cancel;
      ReplyInStep(s2, agent, socket, Granted(request));
      InStepTrans(s, s2, t, {});
    } else if ask.cancelInProgress {
      var h := First(s.leases, held);
      assert t == Cancel(s2, [h], s.leases);
      hide AcquireNew, Inserted;
      CancelTwice(s1, displaced, [h], s.leases);
      CancelledInStep(s, s1, displaced + [h]);
    } else {
      assert t == s2;
      hide AcquireNew, Inserted;
      CancelledInStep(s, s1, displaced);
    }
  }

  lemma {:induction false} CancelTwice(s: Server, ids: seq<RequestId>, more: seq<RequestId>, rows: map<RequestId, Lease>)
    requires forall r | r in ids + more :: r in rows
    ensures Cancel(s, ids + more, rows) == Cancel(Cancel(s, ids, rows), more, rows)
    decreases |ids|
  {
    if ids == [] {
      assert ids + more == more;
    } else {
      assert (ids + more)[1..] == ids[1..] + more;
      CancelTwice(Send(s, rows[ids[0]].agent, Cancelled(ids[0])), ids[1..], more, rows);
    }
  }
}
