/** What the lease table keeps over every run: holders and queue order. */
module LeaseQueue {
  import opened Basics
  import opened Jobs
  import opened Leases
  import opened LeaseTable
  import opened Events
  import opened JobMachine

  // ---------------------------------------------------------------- with no assumption at all

  lemma ApplyKeepsTable(s: Server, e: Event)
    requires TableOk(s)
    ensures TableOk(Apply(s, e))
  {
    hide Acquire, Release, ReleaseForRun;
    match e
    case ConcurrencyAcquire(agent, socket, request, ask) =>
      if ask.run in s.repositories { AcquireKeepsTable(s, socket, agent, request, ask); }
    case ConcurrencyRelease(agent, request, run) => ReleaseKeepsTable(s, request, run, agent);
    case JobFinished(_, run, _, _) => ReleaseForRunKeepsTable(s, run);
    case Requeue(run, _) => ReleaseForRunKeepsTable(s, run);
    case _ =>
  }

  /** At most one holder and at most 100 waiters per group, in every run. */
  lemma {:induction false} TableOkAlways(s: Server, events: seq<Event>)
    requires Fresh(s)
    ensures TableOk(Run(s, events))
  {
    if events == [] {
      assert forall g :: WaitingIn(s.leases, g) == {};
    } else {
      TableOkAlways(s, events[..|events| - 1]);
      ApplyKeepsTable(Run(s, events[..|events| - 1]), events[|events| - 1]);
    }
  }

  // ---------------------------------------------------------------- leases of live runs

  /** Each lease's run is live on that lease's agent. */
  predicate LeasesLive(s: Server) {
    forall r | r in s.leases :: RunLiveOn(s.jobs, s.leases[r].run, s.leases[r].agent)
  }

  /**
   * The event does not take a run away from its agent while leases of that run remain, and does not
   * give a lease to a run that is over.
   */
  predicate Disciplined(s: Server, e: Event) {
    match e
    case ConcurrencyAcquire(agent, _, request, ask) =>
      (Owned(s, ask.run, agent) && AdmittedAsk(s, request, ask)) ==> s.jobs[ask.run].status != Completed
    case OnRow(run, row) =>
      (run in s.jobs && EndsLive(s.jobs[run], row)) ==> OfRun(s.leases, run) == {}
    case _ => true
  }

  /**
   * A rejection of an assigned run, or the failure of an initialization attempt that was overtaken by
   * a later attempt: the two row events that end a live run and say nothing to its leases.
   */
  predicate EndsLive(j: JobRow, e: RowEvent) {
    match e
    case JobRejected(agent, _, unsatisfied) => j.agent == Some(agent) && j.status == Assigned && unsatisfied
    case InitializeExhausted(attempt, _) => j.Live() && Exhausted(j, attempt)
    case _ => false
  }

  predicate AdmittedAsk(s: Server, request: RequestId, ask: Ask) {
    ask.run in s.repositories && Admitted(s, request, ask, KeyOf(s.repositories[ask.run], ask.group))
  }

  /** The holder is ahead of every waiter, and nothing waits without a holder. */
  predicate QueueOk(leases: map<RequestId, Lease>, g: GroupKey) {
    && (forall w, h | w in WaitingIn(leases, g) && h in HeldIn(leases, g) :: leases[h].sequence < leases[w].sequence)
    && (WaitingIn(leases, g) != {} ==> HeldIn(leases, g) != {})
  }

  ghost predicate InOrder(leases: map<RequestId, Lease>) {
    forall g :: QueueOk(leases, g)
  }

  lemma SameGroupQueue(before: map<RequestId, Lease>, after: map<RequestId, Lease>, g: GroupKey)
    requires forall r | r in before && before[r].group == g :: r in after && after[r] == before[r]
    requires forall r | r in after && after[r].group == g :: r in before
    requires forall r | r in after && r in before :: after[r].group == before[r].group
    ensures HeldIn(after, g) == HeldIn(before, g) && WaitingIn(after, g) == WaitingIn(before, g)
    ensures QueueOk(after, g) == QueueOk(before, g)
  {
  }

  lemma PromoteKeepsLive(s: Server, g: GroupKey)
    requires SequencesUnique(s.leases) && LeasesLive(s)
    ensures LeasesLive(Promote(s, g)) && SequencesUnique(Promote(s, g).leases)
  {
    PromoteEffect(s, g);
    ShrunkSequences(s.leases, Promote(s, g).leases);
  }

  // ---------------------------------------------------------------- promotion, exactly

  /** Waiting rows the promotion query cannot see, because their run is not live on their agent. */
  function Stranded(s: Server, g: GroupKey): set<RequestId> {
    WaitingIn(s.leases, g) - Promotable(s, g)
  }

  /** A waiter the query cannot see is ahead of every waiter that a promotion could grant, if there is one. */
  predicate PassesOver(s: Server, g: GroupKey) {
    exists w | w in Stranded(s, g) :: forall p | p in Reachable(s, g) :: s.leases[w].sequence < s.leases[p].sequence
  }

  /** A promotion leaves its group in order if and only if it passes over no invisible waiter. */
  lemma PromotionOrdersExactly(s: Server, g: GroupKey)
    requires SequencesUnique(s.leases) && HeldIn(s.leases, g) == {}
    ensures QueueOk(Promote(s, g).leases, g) <==> !PassesOver(s, g)
  {
    PromoteMeaning(s, g);
    if Reachable(s, g) == {} {
      NobodyPromoted(s, g);
    } else {
      var p := First(s.leases, Reachable(s, g));
      PromotedPastStranded(s, g, p);
      FirstPassesOver(s, g, p);
    }
    hide Promoted, Promote, Promotable, Reachable;
  }

  lemma FirstPassesOver(s: Server, g: GroupKey, p: RequestId)
    requires SequencesUnique(s.leases) && IsFirst(s.leases, Reachable(s, g), p)
    ensures PassesOver(s, g) <==> exists w | w in Stranded(s, g) :: s.leases[w].sequence <= s.leases[p].sequence
  {
    forall w | w in Stranded(s, g) ensures w != p && w in s.leases {
    }
    hide Stranded, Promotable;
  }

  lemma NobodyPromoted(s: Server, g: GroupKey)
    requires HeldIn(s.leases, g) == {} && Reachable(s, g) == {}
    ensures QueueOk(Promoted(s, g).leases, g) <==> Stranded(s, g) == {}
  {
    var t := Promoted(s, g).leases;
    assert WaitingIn(t, g) == Stranded(s, g) && HeldIn(t, g) == {};
  }

  lemma PromotedPastStranded(s: Server, g: GroupKey, p: RequestId)
    requires SequencesUnique(s.leases) && HeldIn(s.leases, g) == {}
    requires Reachable(s, g) != {} && p == First(s.leases, Reachable(s, g))
    ensures QueueOk(Promoted(s, g).leases, g) <==>
            forall w | w in Stranded(s, g) :: s.leases[p].sequence < s.leases[w].sequence
  {
    var t := Promoted(s, g).leases;
    assert p in Promotable(s, g) && p in HeldIn(t, g);
    assert HeldIn(t, g) == {p};
    forall w | w in Stranded(s, g) ensures w in WaitingIn(t, g) && t[w] == s.leases[w] {
      assert w !in Ahead(s, g, p) && w != p;
    }
    forall w | w in WaitingIn(t, g) ensures w in s.leases && t[w] == s.leases[w] && w != p
                                     && (w in Stranded(s, g) || s.leases[p].sequence < s.leases[w].sequence) {
      assert w !in Ahead(s, g, p);
      assert w !in Stranded(s, g) ==> w in Promotable(s, g);
    }
    hide Promoted, Promotable, Reachable, Ahead;
  }

  /** A promotion leaves the other groups alone. */
  lemma PromoteOrdersOthers(s: Server, g: GroupKey, k: GroupKey)
    requires SequencesUnique(s.leases) && k != g
    ensures HeldIn(Promote(s, g).leases, k) == HeldIn(s.leases, k)
    ensures QueueOk(Promote(s, g).leases, k) == QueueOk(s.leases, k)
    ensures PassesOver(Promote(s, g), k) == PassesOver(s, k)
  {
    hide Promote;
    PromoteEffect(s, g);
    var t := Promote(s, g);
    forall r | r in s.leases && s.leases[r].group == k ensures r in t.leases && t.leases[r] == s.leases[r] {
      assert r !in Promotable(s, g) && r !in Reachable(s, g);
    }
    SameGroupQueue(s.leases, t.leases, k);
    assert t.jobs == s.jobs && t.connected == s.connected;
    assert Promotable(t, k) == Promotable(s, k) && Reachable(t, k) == Reachable(s, k);
    hide Promotable, Reachable;
  }

  predicate Distinct(groups: seq<GroupKey>) {
    forall i, k | 0 <= i < k < |groups| :: groups[i] != groups[k]
  }

  lemma {:induction false} OthersStay(s: Server, groups: seq<GroupKey>, k: GroupKey)
    requires SequencesUnique(s.leases) && k !in groups
    ensures QueueOk(PromoteAll(s, groups).leases, k) == QueueOk(s.leases, k)
    decreases |groups|
  {
    if groups != [] {
      PromoteOrdersOthers(s, groups[0], k);
      PromoteUnique(s, groups[0]);
      OthersStay(Promote(s, groups[0]), groups[1..], k);
    }
  }

  lemma PromoteUnique(s: Server, g: GroupKey)
    requires SequencesUnique(s.leases)
    ensures SequencesUnique(Promote(s, g).leases)
  {
    PromoteEffect(s, g);
    ShrunkSequences(s.leases, Promote(s, g).leases);
  }

  /** Every group but the freed ones is in order, and the freed ones hold nothing. */
  ghost predicate Freed(s: Server, groups: seq<GroupKey>) {
    && (forall g :: g !in groups ==> QueueOk(s.leases, g))
    && (forall g | g in groups :: HeldIn(s.leases, g) == {})
  }

  lemma {:induction false} PromoteAllOrdersExactly(s: Server, groups: seq<GroupKey>)
    requires SequencesUnique(s.leases) && Distinct(groups) && Freed(s, groups)
    ensures InOrder(PromoteAll(s, groups).leases) <==> forall g | g in groups :: !PassesOver(s, g)
    decreases |groups|
  {
    hide PassesOver, QueueOk, Promote, HeldIn;
    if groups == [] {
      assert InOrder(s.leases);
    } else {
      var g, rest := groups[0], groups[1..];
      var t := Promote(s, g);
      assert groups == [g] + rest && g !in rest;
      PromoteUnique(s, g);
      PromotionOrdersExactly(s, g);
      forall k | k != g ensures HeldIn(t.leases, k) == HeldIn(s.leases, k) && QueueOk(t.leases, k) == QueueOk(s.leases, k)
                                && PassesOver(t, k) == PassesOver(s, k) {
        PromoteOrdersOthers(s, g, k);
      }
      if PassesOver(s, g) {
        OthersStay(t, rest, g);
      } else {
        PromoteAllOrdersExactly(t, rest);
      }
    }
  }

  /** Deleting rows with their holders frees exactly the groups of the holders. */
  lemma DeleteFrees(s: Server, ids: set<RequestId>, open: seq<GroupKey>)
    requires AtMostOneHeld(s.leases) && InOrder(s.leases)
    requires forall g :: g in open <==> exists r | r in ids && r in s.leases :: s.leases[r].Held() && s.leases[r].group == g
    ensures Freed(Delete(s, ids), open)
  {
    var d := Delete(s, ids).leases;
    forall g ensures if g in open then HeldIn(d, g) == {} else QueueOk(d, g) {
      assert QueueOk(s.leases, g);
      assert WaitingIn(d, g) <= WaitingIn(s.leases, g) && HeldIn(d, g) <= HeldIn(s.leases, g);
      if g !in open {
        assert HeldIn(s.leases, g) <= HeldIn(d, g);
      }
    }
  }

  predicate Releases(s: Server, request: RequestId, run: RunId, agent: AgentId) {
    request in s.leases && s.leases[request].run == run && s.leases[request].agent == agent
  }

  /** Releasing one lease: the row was held, and its group passes over a waiter. */
  predicate ReleaseStrands(s: Server, request: RequestId, run: RunId, agent: AgentId) {
    && Releases(s, request, run, agent) && s.leases[request].Held()
    && PassesOver(Delete(s, {request}), s.leases[request].group)
  }

  lemma ReleaseOrdersExactly(s: Server, request: RequestId, run: RunId, agent: AgentId)
    requires TableOk(s) && InOrder(s.leases)
    ensures InOrder(Release(s, request, run, agent).leases) <==> !ReleaseStrands(s, request, run, agent)
  {
    hide PassesOver, QueueOk;
    if Releases(s, request, run, agent) {
      var row := s.leases[request];
      var d := Delete(s, {request});
      var open := if row.Held() then [row.group] else [];
      DeleteFrees(s, {request}, open);
      ReleaseIsPromoteAll(s, request, run, agent, open);
      PromoteAllOrdersExactly(d, open);
    }
  }

  lemma ReleaseIsPromoteAll(s: Server, request: RequestId, run: RunId, agent: AgentId, open: seq<GroupKey>)
    requires Releases(s, request, run, agent) && open == if s.leases[request].Held() then [s.leases[request].group] else []
    ensures PromoteAll(Delete(s, {request}), open) == Release(s, request, run, agent)
  {
    assert open != [] ==> open[1..] == [];
    hide Promote;
  }

  /** Releasing a run: it held a group that then passes over a waiter of another run. */
  predicate RunStrands(s: Server, run: RunId) {
    exists h | h in OfRun(s.leases, run) ::
      s.leases[h].Held() && PassesOver(Delete(s, OfRun(s.leases, run)), s.leases[h].group)
  }

  lemma {:induction false} FreedGroupsDistinct(ids: seq<RequestId>, rows: map<RequestId, Lease>)
    requires forall r | r in ids :: r in rows
    ensures Distinct(FreedGroups(ids, rows))
    decreases |ids|
  {
    if ids != [] {
      FreedGroupsDistinct(ids[..|ids| - 1], rows);
    }
  }

  lemma ReleaseForRunOrdersExactly(s: Server, run: RunId)
    requires TableOk(s) && InOrder(s.leases)
    ensures InOrder(ReleaseForRun(s, run).leases) <==> !RunStrands(s, run)
  {
    hide QueueOk;
    var mine := OfRun(s.leases, run);
    var ids := Ordered(s.leases, mine);
    var open := FreedGroups(ids, s.leases);
    FreedGroupsDistinct(ids, s.leases);
    DeleteFrees(s, mine, open);
    var d := Delete(s, mine);
    var c := Cancel(d, ids, s.leases);
    CancelledSame(d, c);
    PromoteAllOrdersExactly(c, open);
    hide PassesOver, FreedGroups, Ordered, Cancel, OfRun;
    assert forall g | g in open :: exists r | r in ids :: s.leases[r].Held() && s.leases[r].group == g;
  }

  /** Messages do not matter to the queues. */
  lemma CancelledSame(d: Server, c: Server)
    requires SameElsewhere(d, c) && c.leases == d.leases
    ensures forall g :: PassesOver(c, g) == PassesOver(d, g)
    ensures forall groups :: Freed(c, groups) == Freed(d, groups)
  {
    forall g ensures PassesOver(c, g) == PassesOver(d, g) {
      assert Promotable(c, g) == Promotable(d, g) && Reachable(c, g) == Reachable(d, g);
    }
  }

  // ---------------------------------------------------------------- with live leases nobody is passed over

  lemma LiveStrandsNobody(s: Server, ids: set<RequestId>, g: GroupKey)
    requires LeasesLive(s)
    ensures !PassesOver(Delete(s, ids), g)
  {
    assert Stranded(Delete(s, ids), g) == {};
  }

  lemma {:induction false} PromoteAllKeepsLive(s: Server, groups: seq<GroupKey>)
    requires SequencesUnique(s.leases) && LeasesLive(s)
    ensures LeasesLive(PromoteAll(s, groups))
    decreases |groups|
  {
    if groups != [] {
      PromoteKeepsLive(s, groups[0]);
      PromoteAllKeepsLive(Promote(s, groups[0]), groups[1..]);
    }
  }

  /** A released run keeps no row. */
  lemma ReleaseForRunEmpties(s: Server, run: RunId)
    requires SequencesUnique(s.leases)
    ensures OfRun(ReleaseForRun(s, run).leases, run) == {}
    ensures Shrunk(s.leases, ReleaseForRun(s, run).leases)
  {
    var d := Cancel(Delete(s, OfRun(s.leases, run)), Ordered(s.leases, OfRun(s.leases, run)), s.leases);
    PromoteAllShrinks(d, FreedGroups(Ordered(s.leases, OfRun(s.leases, run)), s.leases));
  }

  lemma {:induction false} PromoteAllShrinks(s: Server, groups: seq<GroupKey>)
    requires SequencesUnique(s.leases)
    ensures Shrunk(s.leases, PromoteAll(s, groups).leases)
    decreases |groups|
  {
    if groups != [] {
      PromoteEffect(s, groups[0]);
      ShrunkSequences(s.leases, Promote(s, groups[0]).leases);
      PromoteAllShrinks(Promote(s, groups[0]), groups[1..]);
    }
  }

  lemma AcquireOrders(s: Server, socket: SocketId, agent: AgentId, request: RequestId, ask: Ask)
    requires TableOk(s) && InOrder(s.leases) && ask.run in s.repositories
    ensures InOrder(Acquire(s, socket, agent, request, ask).leases)
  {
    var t := AcquireEffect(s, socket, agent, request, ask);
    var g := KeyOf(s.repositories[ask.run], ask.group);
    if Admitted(s, request, ask, g) {
      forall k ensures QueueOk(t.leases, k) {
        assert QueueOk(s.leases, k);
        AdmittedOrders(s.leases, t.leases, s.nextSequence, Displaced(s, g, ask.queue), request, NewRow(s, agent, ask, g), ask.cancelInProgress, k);
      }
    }
  }

  lemma AdmittedOrders(before: map<RequestId, Lease>, after: map<RequestId, Lease>, next: nat, gone: set<RequestId>,
                       request: RequestId, row: Lease, cancel: bool, k: GroupKey)
    requires RowsOk(before, next) && row.sequence == next && RowsAdmitted(before, after, gone, request, row, cancel)
    requires QueueOk(before, k)
    ensures QueueOk(after, k)
  {
    assert HeldIn(after, k) - {request} == HeldIn(before, k);
    assert WaitingIn(after, k) - {request} <= WaitingIn(before, k);
    if k == row.group {
      assert request in HeldIn(after, k) || request in WaitingIn(after, k);
    }
  }

  // ---------------------------------------------------------------- one event

  lemma LiveAfterJobChange(s: Server, run: RunId, j: JobRow)
    requires LeasesLive(s) && run in s.jobs
    requires OfRun(s.leases, run) == {} || (s.jobs[run].Live() ==> j.Live() && j.agent == s.jobs[run].agent)
    ensures LeasesLive(SetJob(s, run, j))
  {
    forall r | r in s.leases ensures RunLiveOn(SetJob(s, run, j).jobs, s.leases[r].run, s.leases[r].agent) {
      if s.leases[r].run == run { assert r in OfRun(s.leases, run); }
    }
  }

  lemma ReleaseForRunKeepsLive(s: Server, run: RunId)
    requires SequencesUnique(s.leases) && LeasesLive(s)
    ensures LeasesLive(ReleaseForRun(s, run))
  {
    var ids := Ordered(s.leases, OfRun(s.leases, run));
    PromoteAllKeepsLive(Cancel(Delete(s, OfRun(s.leases, run)), ids, s.leases), FreedGroups(ids, s.leases));
  }

  lemma AfterRelease(s: Server, run: RunId, j: JobRow)
    requires TableOk(s) && LeasesLive(s) && run in s.jobs
    ensures LeasesLive(SetJob(ReleaseForRun(s, run), run, j))
  {
    ReleaseForRunKeepsLive(s, run);
    ReleaseForRunEmpties(s, run);
    LiveAfterJobChange(ReleaseForRun(s, run), run, j);
  }

  lemma ReleaseKeepsLive(s: Server, request: RequestId, run: RunId, agent: AgentId)
    requires SequencesUnique(s.leases) && LeasesLive(s)
    ensures LeasesLive(Release(s, request, run, agent))
  {
    if Releases(s, request, run, agent) {
      PromoteKeepsLive(Delete(s, {request}), s.leases[request].group);
    }
    hide Promote;
  }

  /** Events that can neither touch the lease rows nor end a live run. */
  predicate Quiet(e: Event) {
    !(e.ConcurrencyAcquire? || e.ConcurrencyRelease? || e.JobFinished? || e.Requeue? || e.OnRow?)
  }

  lemma QuietKeepsLive(s: Server, e: Event)
    requires Quiet(e) && LeasesLive(s)
    requires forall run | run in s.jobs :: RowOk(s.jobs[run])
    ensures Apply(s, e).leases == s.leases && LeasesLive(Apply(s, e))
  {
    hide Acquire, Release, ReleaseForRun;
    var t := Apply(s, e);
    forall run, agent | RunLiveOn(s.jobs, run, agent) ensures RunLiveOn(t.jobs, run, agent) {
    }
  }

  /** Liveness of leases survives every disciplined event. */
  lemma ApplyKeepsLive(s: Server, e: Event)
    requires TableOk(s) && LeasesLive(s) && Disciplined(s, e)
    requires forall run | run in s.jobs :: RowOk(s.jobs[run])
    ensures LeasesLive(Apply(s, e))
  {
    hide Acquire, Release, ReleaseForRun;
    if Quiet(e) {
      QuietKeepsLive(s, e);
    } else if Apply(s, e) != s {
      match e
      case ConcurrencyAcquire(agent, socket, request, ask) => AcquireKeepsLive(s, socket, agent, request, ask);
      case ConcurrencyRelease(agent, request, run) => ReleaseKeepsLive(s, request, run, agent);
      case JobFinished(agent, run, c, text) => AfterRelease(s, run, Finished(s.jobs[run], agent, c, text));
      case Requeue(run, text) => AfterRelease(s, run, Requeued(s.jobs[run], text));
      case OnRow(run, row) => RowKeepsLive(s, run, row);
    }
  }

  lemma RowKeepsLive(s: Server, run: RunId, e: RowEvent)
    requires LeasesLive(s) && run in s.jobs && RowOk(s.jobs[run])
    requires EndsLive(s.jobs[run], e) ==> OfRun(s.leases, run) == {}
    ensures LeasesLive(SetJob(s, run, RowAfter(s.jobs[run], e)))
  {
    LiveAfterJobChange(s, run, RowAfter(s.jobs[run], e));
  }

  lemma AcquireKeepsLive(s: Server, socket: SocketId, agent: AgentId, request: RequestId, ask: Ask)
    requires TableOk(s) && LeasesLive(s) && ask.run in s.repositories && Owned(s, ask.run, agent)
    requires Disciplined(s, ConcurrencyAcquire(agent, socket, request, ask))
    ensures LeasesLive(Acquire(s, socket, agent, request, ask))
  {
    var t := AcquireEffect(s, socket, agent, request, ask);
    var g := KeyOf(s.repositories[ask.run], ask.group);
    if Admitted(s, request, ask, g) {
      AdmittedLive(s, t, Displaced(s, g, ask.queue), request,
                   NewRow(s, agent, ask, g), ask.cancelInProgress);
    }
  }

  lemma AdmittedLive(s: Server, t: Server, gone: set<RequestId>, request: RequestId, row: Lease, cancel: bool)
    requires LeasesLive(s) && t.jobs == s.jobs && RowsAdmitted(s.leases, t.leases, gone, request, row, cancel)
    requires RunLiveOn(s.jobs, row.run, row.agent)
    ensures LeasesLive(t)
  {
  }

  ghost predicate DisciplinedRun(s: Server, events: seq<Event>) {
    forall i | 0 <= i < |events| :: Disciplined(Run(s, events[..i]), events[i])
  }

  /** The assumption is exact: a step keeps every lease's run live if and only if it is disciplined. */
  lemma DisciplineIsExact(s: Server, e: Event)
    requires TableOk(s) && JobsOk(s) && LeasesLive(s)
    ensures LeasesLive(Apply(s, e)) <==> Disciplined(s, e)
  {
    if Disciplined(s, e) {
      ApplyKeepsLive(s, e);
    } else {
      UndisciplinedLeaks(s, e);
    }
  }

  lemma UndisciplinedLeaks(s: Server, e: Event)
    requires TableOk(s) && JobsOk(s) && !Disciplined(s, e)
    ensures !LeasesLive(Apply(s, e))
  {
    hide Acquire, Release, ReleaseForRun;
    match e
    case OnRow(run, _) => LeaseLeft(s, run, Apply(s, e));
    case ConcurrencyAcquire(agent, socket, request, ask) => AcquireLeaks(s, socket, agent, request, ask);
  }

  lemma AcquireLeaks(s: Server, socket: SocketId, agent: AgentId, request: RequestId, ask: Ask)
    requires TableOk(s) && AdmittedAsk(s, request, ask)
    requires ask.run in s.jobs && !s.jobs[ask.run].Live()
    ensures !LeasesLive(Acquire(s, socket, agent, request, ask))
  {
    hide Acquire;
    var t := AcquireEffect(s, socket, agent, request, ask);
    assert request in t.leases;
  }

  lemma LeaseLeft(s: Server, run: RunId, t: Server)
    requires OfRun(s.leases, run) != {} && t.leases == s.leases && run in t.jobs && !t.jobs[run].Live()
    ensures !LeasesLive(t)
  {
    var r :| r in OfRun(s.leases, run);
    assert r in t.leases;
  }

  // ---------------------------------------------------------------- the order of the queues, exactly

  /** The event frees a group that then passes over a waiter: what a release, a finish or a requeue looks at. */
  predicate Strands(s: Server, e: Event) {
    match e
    case ConcurrencyRelease(agent, request, run) => ReleaseStrands(s, request, run, agent)
    case JobFinished(agent, run, _, _) => Owned(s, run, agent) && s.jobs[run].status != Completed && RunStrands(s, run)
    case Requeue(run, _) => run in s.jobs && s.jobs[run].Live() && RunStrands(s, run)
    case _ => false
  }

  /** An event keeps every queue in order if and only if it strands nobody. */
  lemma OrderKeptExactly(s: Server, e: Event)
    requires TableOk(s) && InOrder(s.leases)
    ensures InOrder(Apply(s, e).leases) <==> !Strands(s, e)
  {
    hide Acquire, Release, ReleaseForRun, ReleaseStrands, RunStrands, InOrder, TableOk;
    match e
    case ConcurrencyAcquire(agent, socket, request, ask) =>
      if ask.run in s.repositories { AcquireOrders(s, socket, agent, request, ask); }
    case ConcurrencyRelease(agent, request, run) => ReleaseOrdersExactly(s, request, run, agent);
    case JobFinished(_, run, _, _) => ReleaseForRunOrdersExactly(s, run);
    case Requeue(run, _) => ReleaseForRunOrdersExactly(s, run);
    case _ =>
  }

  ghost predicate AlwaysInOrder(s: Server, events: seq<Event>) {
    forall i | 0 <= i <= |events| :: InOrder(Run(s, events[..i]).leases)
  }

  ghost predicate NobodyStranded(s: Server, events: seq<Event>) {
    forall i | 0 <= i < |events| :: !Strands(Run(s, events[..i]), events[i])
  }

  /** No overtaking and no stranded waiter at any moment of a run, if and only if no event of it strands anybody. */
  lemma {:induction false} AlwaysInOrderExactly(s: Server, events: seq<Event>)
    requires Fresh(s)
    ensures AlwaysInOrder(s, events) <==> NobodyStranded(s, events)
  {
    hide *;
    if events == [] {
      NothingHappened(s);
    } else {
      var front, last := events[..|events| - 1], events[|events| - 1];
      OneMoreEvent(s, events);
      AlwaysInOrderExactly(s, front);
      if AlwaysInOrder(s, front) {
        InOrderAtEnd(s, front);
        TableOkAlways(s, front);
        OrderKeptExactly(Run(s, front), last);
      }
    }
  }

  lemma NothingHappened(s: Server)
    requires Fresh(s)
    ensures AlwaysInOrder(s, []) && NobodyStranded(s, [])
  {
  }

  lemma InOrderAtEnd(s: Server, events: seq<Event>)
    requires AlwaysInOrder(s, events)
    ensures InOrder(Run(s, events).leases)
  {
    hide Run, InOrder;
    assert events[..|events|] == events;
  }

  lemma OneMoreEvent(s: Server, events: seq<Event>)
    requires events != []
    ensures var front, last := events[..|events| - 1], events[|events| - 1];
      && (AlwaysInOrder(s, events) <==> AlwaysInOrder(s, front) && InOrder(Apply(Run(s, front), last).leases))
      && (NobodyStranded(s, events) <==> NobodyStranded(s, front) && !Strands(Run(s, front), last))
  {
    hide Apply, InOrder, Strands;
    var n := |events| - 1;
    var front := events[..n];
    assert events[..|events|] == events && Run(s, events) == Apply(Run(s, front), events[n]);
    assert forall i | 0 <= i <= n :: front[..i] == events[..i];
    hide Run;
    if AlwaysInOrder(s, events) {
      assert InOrder(Run(s, events[..|events|]).leases);
      forall i | 0 <= i <= n ensures InOrder(Run(s, front[..i]).leases) { assert InOrder(Run(s, events[..i]).leases); }
    }
    if AlwaysInOrder(s, front) {
      forall i | 0 <= i <= n ensures InOrder(Run(s, events[..i]).leases) { assert InOrder(Run(s, front[..i]).leases); }
    }
    if NobodyStranded(s, events) {
      assert !Strands(Run(s, events[..n]), events[n]);
      forall i | 0 <= i < n ensures !Strands(Run(s, front[..i]), front[i]) { assert !Strands(Run(s, events[..i]), events[i]); }
    }
    if NobodyStranded(s, front) {
      forall i | 0 <= i < n ensures !Strands(Run(s, events[..i]), events[i]) { assert !Strands(Run(s, front[..i]), front[i]); }
    }
  }

  /** Live leases strand nobody, so a disciplined run is in order throughout. */
  lemma LiveNeverStrands(s: Server, e: Event)
    requires LeasesLive(s)
    ensures !Strands(s, e)
  {
    forall ids, g ensures !PassesOver(Delete(s, ids), g) { LiveStrandsNobody(s, ids, g); }
    hide PassesOver, LeasesLive;
  }

  lemma DisciplinedBefore(s: Server, events: seq<Event>, i: nat)
    requires DisciplinedRun(s, events) && i <= |events|
    ensures DisciplinedRun(s, events[..i])
  {
    hide Run, Disciplined;
    forall k | 0 <= k < i ensures Disciplined(Run(s, events[..i][..k]), events[..i][k]) {
      assert events[..i][..k] == events[..k];
      assert Disciplined(Run(s, events[..k]), events[k]);
    }
  }

  lemma {:induction false} LiveAlways(s: Server, events: seq<Event>)
    requires Fresh(s) && DisciplinedRun(s, events)
    ensures LeasesLive(Run(s, events))
  {
    if events != [] {
      var n := |events| - 1;
      DisciplinedBefore(s, events, n);
      LiveAlways(s, events[..n]);
      TableOkAlways(s, events[..n]);
      JobsOkAlways(s, events[..n]);
      assert Disciplined(Run(s, events[..n]), events[n]);
      ApplyKeepsLive(Run(s, events[..n]), events[n]);
    }
    hide Apply, Disciplined, TableOk;
  }

  lemma DisciplineStrandsNobody(s: Server, events: seq<Event>)
    requires Fresh(s) && DisciplinedRun(s, events)
    ensures NobodyStranded(s, events)
  {
    hide Run, Strands, LeasesLive, DisciplinedRun;
    forall i | 0 <= i < |events| ensures !Strands(Run(s, events[..i]), events[i]) {
      DisciplinedBefore(s, events, i);
      LiveAlways(s, events[..i]);
      LiveNeverStrands(Run(s, events[..i]), events[i]);
    }
  }

  /** No overtaking and no stranded waiter, over every disciplined run. */
  lemma InOrderAlways(s: Server, events: seq<Event>)
    requires Fresh(s) && DisciplinedRun(s, events)
    ensures AlwaysInOrder(s, events) && InOrder(Run(s, events).leases) && LeasesLive(Run(s, events))
  {
    hide *;
    DisciplineStrandsNobody(s, events);
    AlwaysInOrderExactly(s, events);
    InOrderAtEnd(s, events);
    LiveAlways(s, events);
  }

  // ---------------------------------------------------------------- how a waiter is stranded

  /** Whatever step let a waiter's run die: the next release leaves that waiter with nobody to wait for. */
  lemma DeadWaiterIsStranded(s: Server, g: GroupKey, h: RequestId, w: RequestId)
    requires TableOk(s) && h in HeldIn(s.leases, g) && WaitingIn(s.leases, g) == {w}
    requires !RunLiveOn(s.jobs, s.leases[w].run, s.leases[w].agent)
    ensures var t := Apply(s, ConcurrencyRelease(s.leases[h].agent, h, s.leases[h].run));
            w in WaitingIn(t.leases, g) && HeldIn(t.leases, g) == {} && !QueueOk(t.leases, g)
  {
    var d := Delete(s, {h});
    assert HeldIn(d.leases, g) == {};
    assert forall r | r in Promotable(d, g) :: r in WaitingIn(s.leases, g);
    assert w in WaitingIn(d.leases, g);
  }

  /** The rejection edge in full: rejecting an assigned run whose lease waits, then releasing the holder. */
  lemma RejectionStrandsWaiter(s: Server, g: GroupKey, h: RequestId, w: RequestId, agent: AgentId, requirements: seq<Requirement>)
    requires TableOk(s) && h in HeldIn(s.leases, g) && WaitingIn(s.leases, g) == {w}
    requires s.leases[w].agent == agent && s.leases[w].run in s.jobs
    requires s.jobs[s.leases[w].run].status == Assigned && s.jobs[s.leases[w].run].agent == Some(agent)
    ensures var t := Apply(s, OnRow(s.leases[w].run, JobRejected(agent, requirements, true)));
            !QueueOk(Apply(t, ConcurrencyRelease(s.leases[h].agent, h, s.leases[h].run)).leases, g)
  {
    var t := Apply(s, OnRow(s.leases[w].run, JobRejected(agent, requirements, true)));
    DeadWaiterIsStranded(t, g, h, w);
  }

  /** The initialization edge in full: an overtaken attempt fails for good while its run is live. */
  lemma LateInitializationFailureStrandsWaiter(s: Server, g: GroupKey, h: RequestId, w: RequestId, attempt: nat, summary: string)
    requires TableOk(s) && h in HeldIn(s.leases, g) && WaitingIn(s.leases, g) == {w}
    requires RunLiveOn(s.jobs, s.leases[w].run, s.leases[w].agent) && Exhausted(s.jobs[s.leases[w].run], attempt)
    ensures var t := Apply(s, OnRow(s.leases[w].run, InitializeExhausted(attempt, summary)));
            !QueueOk(Apply(t, ConcurrencyRelease(s.leases[h].agent, h, s.leases[h].run)).leases, g)
  {
    var t := Apply(s, OnRow(s.leases[w].run, InitializeExhausted(attempt, summary)));
    DeadWaiterIsStranded(t, g, h, w);
  }
}
