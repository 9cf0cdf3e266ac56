/** Facts about the operations on the lease table, for every table. */
module LeaseTable {
  import opened Basics
  import opened Jobs
  import opened Leases

  lemma FirstIs(leases: map<RequestId, Lease>, ids: set<RequestId>, r: RequestId)
    requires SequencesUnique(leases) && ids <= leases.Keys && IsFirst(leases, ids, r)
    ensures First(leases, ids) == r
  {
  }

  // ---------------------------------------------------------------- promotion in closed form

  /** Promotable rows whose agent has an open socket. */
  function Reachable(s: Server, g: GroupKey): set<RequestId> {
    set r | r in Promotable(s, g) && s.leases[r].agent in s.connected
  }

  /** Promotable rows ahead of row `p`. */
  function Ahead(s: Server, g: GroupKey, p: RequestId): set<RequestId>
    requires p in s.leases
  {
    set w | w in Promotable(s, g) && s.leases[w].sequence < s.leases[p].sequence
  }

  /** What the promotion loop of a group without a held row comes to, without a loop. */
  ghost function Promoted(s: Server, g: GroupKey): Server {
    if Reachable(s, g) == {} then Delete(s, Promotable(s, g))
    else
      var p := First(s.leases, Reachable(s, g));
      Send(SetStatus(Delete(s, Ahead(s, g, p)), p, Active), s.leases[p].agent, Granted(p))
  }

  /** An unreachable first candidate changes nothing but its own absence. */
  lemma PromotedSkips(s: Server, g: GroupKey, r: RequestId)
    requires SequencesUnique(s.leases)
    requires IsFirst(s.leases, Promotable(s, g), r) && s.leases[r].agent !in s.connected
    ensures Promotable(Delete(s, {r}), g) == Promotable(s, g) - {r}
    ensures Promoted(Delete(s, {r}), g) == Promoted(s, g)
  {
    var d := Delete(s, {r});
    assert Promotable(d, g) == Promotable(s, g) - {r};
    assert Reachable(d, g) == Reachable(s, g);
    if Reachable(s, g) == {} {
      assert d.leases - Promotable(d, g) == s.leases - Promotable(s, g);
    } else {
      var p := First(s.leases, Reachable(s, g));
      FirstIs(d.leases, Reachable(d, g), p);
      assert Ahead(d, g, p) == Ahead(s, g, p) - {r};
      assert d.leases - Ahead(d, g, p) == s.leases - Ahead(s, g, p);
    }
  }

  lemma PromotedTakes(s: Server, g: GroupKey, r: RequestId)
    requires SequencesUnique(s.leases)
    requires IsFirst(s.leases, Promotable(s, g), r) && s.leases[r].agent in s.connected
    ensures Promoted(s, g) == Send(SetStatus(s, r, Active), s.leases[r].agent, Granted(r))
  {
    FirstIs(s.leases, Reachable(s, g), r);
    assert Ahead(s, g, r) == {};
    assert s.leases - {} == s.leases;
  }

  lemma {:induction false} PromoteMeaning(s: Server, g: GroupKey)
    requires SequencesUnique(s.leases) && HeldIn(s.leases, g) == {}
    ensures Promote(s, g) == Promoted(s, g)
    decreases |Promotable(s, g)|
  {
    if Promotable(s, g) == {} {
      assert s.leases - {} == s.leases;
    } else {
      var r := First(s.leases, Promotable(s, g));
      if s.leases[r].agent in s.connected {
        PromotedTakes(s, g, r);
      } else {
        PromotedSkips(s, g, r);
        assert HeldIn(Delete(s, {r}).leases, g) == {};
        PromoteMeaning(Delete(s, {r}), g);
      }
    }
  }

  /** The rows after a promotion: who is gone, who is granted, who is untouched. */
  lemma PromoteEffect(s: Server, g: GroupKey)
    requires SequencesUnique(s.leases)
    ensures var t := Promote(s, g);
      && Shrunk(s.leases, t.leases)
      && (HeldIn(s.leases, g) != {} ==> t == s)
      && (forall r | r in s.leases && r !in t.leases :: r in Promotable(s, g) && s.leases[r].agent !in s.connected)
      && (forall r | r in t.leases && t.leases[r] != s.leases[r] :: PromotedRow(s, g, r, t))
      && (HeldIn(s.leases, g) == {} && Promotable(s, g) != {} ==> Promotable(t, g) == {} || HeldIn(t.leases, g) != {})
  {
    if HeldIn(s.leases, g) == {} {
      PromoteMeaning(s, g);
      PromotedEffect(s, g);
    }
    hide Promoted;
  }

  /** Row `r` is the one promotion of group `g` made active: first among those still there. */
  predicate PromotedRow(s: Server, g: GroupKey, r: RequestId, t: Server)
    requires t.leases.Keys <= s.leases.Keys
  {
    && r in Reachable(s, g) && r in t.leases
    && t.leases[r] == s.leases[r].(status := Active)
    && (forall q | q in t.leases && q != r :: t.leases[q] == s.leases[q])
    && (forall w | w in t.leases && w in Promotable(s, g) :: s.leases[r].sequence <= s.leases[w].sequence)
  }

  lemma PromotedEffect(s: Server, g: GroupKey)
    requires SequencesUnique(s.leases) && HeldIn(s.leases, g) == {}
    ensures var t := Promoted(s, g);
      && Shrunk(s.leases, t.leases)
      && (forall r | r in s.leases && r !in t.leases :: r in Promotable(s, g) && s.leases[r].agent !in s.connected)
      && (forall r | r in t.leases && t.leases[r] != s.leases[r] :: PromotedRow(s, g, r, t))
      && (Promotable(t, g) == {} || HeldIn(t.leases, g) != {})
  {
    if Reachable(s, g) != {} {
      var p := First(s.leases, Reachable(s, g));
      PromotedFirst(s, g, p);
      hide Promoted, Reachable, Promotable, Ahead;
    } else {
      assert forall r | r in Promotable(s, g) && s.leases[r].agent in s.connected :: r in Reachable(s, g);
      assert Promotable(Promoted(s, g), g) == {};
    }
  }

  lemma PromotedFirst(s: Server, g: GroupKey, p: RequestId)
    requires SequencesUnique(s.leases) && Reachable(s, g) != {} && p == First(s.leases, Reachable(s, g))
    ensures var t := Promoted(s, g);
      && t.leases == (s.leases - Ahead(s, g, p))[p := s.leases[p].(status := Active)]
      && p !in Ahead(s, g, p) && p in HeldIn(t.leases, g) && PromotedRow(s, g, p, t)
      && (forall r | r in Ahead(s, g, p) :: r in Promotable(s, g) && s.leases[r].agent !in s.connected)
  {
  }

  /** Rows only leave or turn from waiting to active. */
  predicate Shrunk(before: map<RequestId, Lease>, after: map<RequestId, Lease>) {
    && after.Keys <= before.Keys
    && forall r | r in after ::
         after[r] == before[r] || (before[r].status == Waiting && after[r] == before[r].(status := Active))
  }

  // ---------------------------------------------------------------- the invariant of the table

  predicate AtMostOneHeld(leases: map<RequestId, Lease>) {
    forall r, q | r in leases && q in leases && leases[r].Held() && leases[q].Held() && leases[r].group == leases[q].group :: r == q
  }

  predicate RowsOk(leases: map<RequestId, Lease>, next: nat) {
    && SequencesUnique(leases)
    && (forall r | r in leases :: leases[r].sequence < next)
    && AtMostOneHeld(leases)
  }

  ghost predicate WaitingBounded(leases: map<RequestId, Lease>) {
    forall g :: |WaitingIn(leases, g)| <= MAX_WAITING
  }

  ghost predicate TableOk(s: Server) {
    RowsOk(s.leases, s.nextSequence) && WaitingBounded(s.leases)
  }

  lemma ShrunkWaiting(before: map<RequestId, Lease>, after: map<RequestId, Lease>)
    requires Shrunk(before, after)
    ensures forall g :: |WaitingIn(after, g)| <= |WaitingIn(before, g)|
  {
    forall g ensures |WaitingIn(after, g)| <= |WaitingIn(before, g)| {
      SubsetSize(WaitingIn(after, g), WaitingIn(before, g));
    }
  }

  lemma DeleteKeepsTable(s: Server, ids: set<RequestId>)
    requires TableOk(s)
    ensures TableOk(Delete(s, ids))
  {
    ShrunkWaiting(s.leases, Delete(s, ids).leases);
  }

  /** At most row `n` became held, and then nothing else in its group is. */
  predicate OnlyGains(before: map<RequestId, Lease>, after: map<RequestId, Lease>, n: RequestId) {
    && (forall r | r in after && r != n ::
          r in before && after[r].group == before[r].group && after[r].sequence == before[r].sequence
          && (after[r].Held() ==> before[r].Held()))
    && (n in after && after[n].Held() ==> forall r | r in after && r != n && after[r].group == after[n].group :: !after[r].Held())
  }

  lemma OneHeld(before: map<RequestId, Lease>, after: map<RequestId, Lease>, n: RequestId)
    requires AtMostOneHeld(before) && OnlyGains(before, after, n)
    ensures AtMostOneHeld(after)
  {
    forall r, q | r in after && q in after && after[r].Held() && after[q].Held() && after[r].group == after[q].group
      ensures r == q
    {
      if r != n && q != n {
        assert before[r].Held() && before[q].Held();
      }
    }
  }

  lemma ShrunkSequences(before: map<RequestId, Lease>, after: map<RequestId, Lease>)
    requires SequencesUnique(before) && Shrunk(before, after)
    ensures SequencesUnique(after)
  {
    forall r, q | r in after && q in after && after[r].sequence == after[q].sequence ensures r == q {
      assert before[r].sequence == before[q].sequence;
    }
  }

  lemma PromoteKeepsTable(s: Server, g: GroupKey)
    requires TableOk(s)
    ensures TableOk(Promote(s, g))
  {
    PromoteEffect(s, g);
    var t := Promote(s, g);
    ShrunkWaiting(s.leases, t.leases);
    ShrunkSequences(s.leases, t.leases);
    PromoteKeepsOneHeld(s, g);
  }

  lemma PromoteKeepsOneHeld(s: Server, g: GroupKey)
    requires SequencesUnique(s.leases) && AtMostOneHeld(s.leases)
    ensures AtMostOneHeld(Promote(s, g).leases)
  {
    PromoteEffect(s, g);
    var t := Promote(s, g);
    if r :| r in t.leases && t.leases[r] != s.leases[r] {
      assert PromotedRow(s, g, r, t);
      assert forall q | q in s.leases && s.leases[q].group == g && s.leases[q].Held() :: q in HeldIn(s.leases, g);
      OneHeld(s.leases, t.leases, r);
    } else if r :| r in t.leases {
      assert forall q | q in t.leases :: t.leases[q] == s.leases[q];
    }
  }

  lemma {:induction false} PromoteAllKeepsTable(s: Server, groups: seq<GroupKey>)
    requires TableOk(s)
    ensures TableOk(PromoteAll(s, groups))
    decreases |groups|
  {
    if groups != [] {
      PromoteKeepsTable(s, groups[0]);
      PromoteAllKeepsTable(Promote(s, groups[0]), groups[1..]);
    }
  }

  lemma ReleaseKeepsTable(s: Server, request: RequestId, run: RunId, agent: AgentId)
    requires TableOk(s)
    ensures TableOk(Release(s, request, run, agent))
  {
    if request in s.leases {
      DeleteKeepsTable(s, {request});
      PromoteKeepsTable(Delete(s, {request}), s.leases[request].group);
    }
  }

  lemma ReleaseForRunKeepsTable(s: Server, run: RunId)
    requires TableOk(s)
    ensures TableOk(ReleaseForRun(s, run))
  {
    var ids := Ordered(s.leases, OfRun(s.leases, run));
    DeleteKeepsTable(s, OfRun(s.leases, run));
    PromoteAllKeepsTable(Cancel(Delete(s, OfRun(s.leases, run)), ids, s.leases), FreedGroups(ids, s.leases));
  }

  /**
   * The rows after a new request was admitted: `gone` left, `row` is new, and the holder of the
   * group is being cancelled if the request asked for that.
   */
  predicate RowsAdmitted(before: map<RequestId, Lease>, after: map<RequestId, Lease>, gone: set<RequestId>,
                         request: RequestId, row: Lease, cancel: bool)
  {
    && request !in before && after.Keys == before.Keys - gone + {request}
    && after[request] == row
    && (forall r | r in gone && r in before :: before[r].group == row.group && before[r].status == Waiting)
    && (forall r | r in before && r in after ::
          after[r] == if cancel && before[r].group == row.group && before[r].Held()
                      then before[r].(status := Cancelling) else before[r])
    && (row.Held() <==> HeldIn(before, row.group) == {})
  }

  function NewRow(s: Server, agent: AgentId, ask: Ask, g: GroupKey): Lease {
    Lease(s.nextSequence, ask.run, agent, g, ask.unit, ask.queue, if HeldIn(s.leases, g) == {} then Active else Waiting)
  }

  lemma HeldMembers(leases: map<RequestId, Lease>, g: GroupKey)
    ensures forall r | r in leases :: r in HeldIn(leases, g) <==> leases[r].group == g && leases[r].Held()
  {
  }

  lemma InsertedEffect(s: Server, agent: AgentId, request: RequestId, ask: Ask, g: GroupKey)
    requires AtMostOneHeld(s.leases) && request !in s.leases
    ensures RowsAdmitted(s.leases, Inserted(s, agent, request, ask, g).leases, Displaced(s, g, ask.queue),
                         request, NewRow(s, agent, ask, g), ask.cancelInProgress)
  {
    hide *;
    DisplacedRows(s, g, ask.queue);
    InsertedRows(s, agent, request, ask, g);
    RowIsHeld(s, agent, ask, g);
    HeldMembers(s.leases, g);
    RowsInserted(s.leases, Displaced(s, g, ask.queue), request, NewRow(s, agent, ask, g), ask.cancelInProgress);
  }

  lemma DisplacedRows(s: Server, g: GroupKey, queue: QueueMode)
    ensures forall r | r in Displaced(s, g, queue) :: r in s.leases && s.leases[r].group == g && s.leases[r].status == Waiting
  {
  }

  lemma RowIsHeld(s: Server, agent: AgentId, ask: Ask, g: GroupKey)
    ensures var row := NewRow(s, agent, ask, g); row.group == g && (row.Held() <==> HeldIn(s.leases, g) == {})
  {
    hide HeldIn;
  }

  /** The rows an insertion leaves: `gone` are deleted, the holder is marked if asked for, the new row comes in. */
  ghost function RowsWith(before: map<RequestId, Lease>, gone: set<RequestId>, request: RequestId, row: Lease, cancel: bool)
    : map<RequestId, Lease>
  {
    var rest := before - gone;
    (if cancel && HeldIn(rest, row.group) != {}
     then var h := First(rest, HeldIn(rest, row.group)); rest[h := rest[h].(status := Cancelling)]
     else rest)[request := row]
  }

  lemma InsertedRows(s: Server, agent: AgentId, request: RequestId, ask: Ask, g: GroupKey)
    ensures Inserted(s, agent, request, ask, g).leases
            == RowsWith(s.leases, Displaced(s, g, ask.queue), request, NewRow(s, agent, ask, g), ask.cancelInProgress)
  {
    DisplacedRows(s, g, ask.queue);
    assert HeldIn(s.leases - Displaced(s, g, ask.queue), g) == HeldIn(s.leases, g);
    hide HeldIn, Displaced;
  }

  lemma RowsInserted(before: map<RequestId, Lease>, gone: set<RequestId>, request: RequestId, row: Lease, cancel: bool)
    requires AtMostOneHeld(before) && request !in before && (row.Held() <==> HeldIn(before, row.group) == {})
    requires forall r | r in gone :: r in before && before[r].group == row.group && before[r].status == Waiting
    ensures RowsAdmitted(before, RowsWith(before, gone, request, row, cancel), gone, request, row, cancel)
  {
    var rest := before - gone;
    assert HeldIn(rest, row.group) == HeldIn(before, row.group);
    forall r | r in rest && rest[r].group == row.group && rest[r].Held() ensures r in HeldIn(rest, row.group) {
    }
  }

  lemma AdmittedKeepsRows(before: map<RequestId, Lease>, after: map<RequestId, Lease>, next: nat, gone: set<RequestId>,
                          request: RequestId, row: Lease, cancel: bool)
    requires RowsOk(before, next) && row.sequence == next && RowsAdmitted(before, after, gone, request, row, cancel)
    ensures RowsOk(after, next + 1)
  {
    HeldMembers(before, row.group);
    OneHeld(before, after, request);
    forall r, q | r in after && q in after && after[r].sequence == after[q].sequence ensures r == q {
      if r != request && q != request {
        assert before[r].sequence == before[q].sequence;
      }
    }
  }

  lemma AdmittedKeepsBound(before: map<RequestId, Lease>, after: map<RequestId, Lease>, gone: set<RequestId>,
                           request: RequestId, row: Lease, cancel: bool)
    requires WaitingBounded(before) && RowsAdmitted(before, after, gone, request, row, cancel)
    requires gone == WaitingIn(before, row.group) || |WaitingIn(before, row.group)| < MAX_WAITING
    ensures WaitingBounded(after)
  {
    forall k ensures |WaitingIn(after, k)| <= MAX_WAITING {
      AdmittedWaiting(before, after, gone, request, row, cancel, k);
    }
  }

  lemma AdmittedWaiting(before: map<RequestId, Lease>, after: map<RequestId, Lease>, gone: set<RequestId>,
                        request: RequestId, row: Lease, cancel: bool, k: GroupKey)
    requires RowsAdmitted(before, after, gone, request, row, cancel) && |WaitingIn(before, k)| <= MAX_WAITING
    requires k == row.group ==> gone == WaitingIn(before, k) || |WaitingIn(before, k)| < MAX_WAITING
    ensures |WaitingIn(after, k)| <= MAX_WAITING
  {
    assert WaitingIn(after, k) <= WaitingIn(before, k) - gone + {request};
    if k != row.group {
      SubsetSize(WaitingIn(after, k), WaitingIn(before, k));
    } else if gone == WaitingIn(before, k) {
      SubsetSize(WaitingIn(after, k), {request});
    } else {
      SubsetSize(WaitingIn(after, k), WaitingIn(before, k) + {request});
    }
  }

  lemma AdmittedKeepsTable(s: Server, t: Server, gone: set<RequestId>, request: RequestId, row: Lease, cancel: bool)
    requires TableOk(s) && t.nextSequence == s.nextSequence + 1 && row.sequence == s.nextSequence
    requires RowsAdmitted(s.leases, t.leases, gone, request, row, cancel)
    requires gone == WaitingIn(s.leases, row.group) || |WaitingIn(s.leases, row.group)| < MAX_WAITING
    ensures TableOk(t)
  {
    AdmittedKeepsRows(s.leases, t.leases, s.nextSequence, gone, request, row, cancel);
    AdmittedKeepsBound(s.leases, t.leases, gone, request, row, cancel);
  }

  lemma AcquireKeepsTable(s: Server, socket: SocketId, agent: AgentId, request: RequestId, ask: Ask)
    requires TableOk(s) && ask.run in s.repositories
    ensures TableOk(Acquire(s, socket, agent, request, ask))
  {
    hide Acquire;
    var t := AcquireEffect(s, socket, agent, request, ask);
    var g := KeyOf(s.repositories[ask.run], ask.group);
    if Admitted(s, request, ask, g) {
      AdmittedKeepsTable(s, t, Displaced(s, g, ask.queue), request, NewRow(s, agent, ask, g), ask.cancelInProgress);
    }
  }

  /** An acquisition as seen from the rows, under another name for its result. */
  lemma AcquireEffect(s: Server, socket: SocketId, agent: AgentId, request: RequestId, ask: Ask) returns (t: Server)
    requires AtMostOneHeld(s.leases) && ask.run in s.repositories
    ensures t == Acquire(s, socket, agent, request, ask)
    ensures var g := KeyOf(s.repositories[ask.run], ask.group);
            if Admitted(s, request, ask, g)
            then && RowsAdmitted(s.leases, t.leases, Displaced(s, g, ask.queue), request, NewRow(s, agent, ask, g), ask.cancelInProgress)
                 && t.nextSequence == s.nextSequence + 1
            else t.leases == s.leases && t.nextSequence == s.nextSequence
  {
    t := Acquire(s, socket, agent, request, ask);
    AcquireRows(s, socket, agent, request, ask);
    var g := KeyOf(s.repositories[ask.run], ask.group);
    if Admitted(s, request, ask, g) {
      InsertedEffect(s, agent, request, ask, g);
    }
  }

  /** The request passes every check of the handler and gets a row of its own. */
  predicate Admitted(s: Server, request: RequestId, ask: Ask, g: GroupKey) {
    && !(ask.queue == Max && ask.cancelInProgress)
    && request !in s.leases
    && (ask.queue == Max ==> |WaitingIn(s.leases, g)| < MAX_WAITING)
  }

  /** The rows after an acquisition: an admitted request changes them as its transaction says, a refused one not at all. */
  lemma AcquireRows(s: Server, socket: SocketId, agent: AgentId, request: RequestId, ask: Ask)
    requires ask.run in s.repositories
    ensures var t := Acquire(s, socket, agent, request, ask);
            var g := KeyOf(s.repositories[ask.run], ask.group);
            var i := if Admitted(s, request, ask, g) then Inserted(s, agent, request, ask, g) else s;
            t.leases == i.leases && t.nextSequence == i.nextSequence
  {
  }

  /** Asking again changes no row: a repeated request neither waits twice nor displaces anybody. */
  lemma AskingAgainChangesNothing(s: Server, socket: SocketId, agent: AgentId, request: RequestId, ask: Ask)
    requires AtMostOneHeld(s.leases) && ask.run in s.repositories
    ensures var t := Acquire(s, socket, agent, request, ask);
            var u := Acquire(t, socket, agent, request, ask);
            u.leases == t.leases && u.nextSequence == t.nextSequence
  {
    var t := Acquire(s, socket, agent, request, ask);
    var g := KeyOf(s.repositories[ask.run], ask.group);
    AcquireRows(s, socket, agent, request, ask);
    AcquireRows(t, socket, agent, request, ask);
    if Admitted(s, request, ask, g) {
      InsertedEffect(s, agent, request, ask, g);
    }
    hide Acquire, Inserted, KeyOf;
    assert !Admitted(t, request, ask, g);
  }
}
