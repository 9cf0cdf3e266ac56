/** The workspace object: the lease handlers as they run, each proved equal to its meaning. */
module Workspace {
  import opened Basics
  import opened Jobs
  import opened Leases
  import opened LeaseTable
  import opened Events
  import opened LeaseQueue

  // ---------------------------------------------------------------- one turn of the promotion loop

  lemma TableIsOrdered(s: Server)
    requires TableOk(s)
    ensures SequencesUnique(s.leases) && AtMostOneHeld(s.leases)
  {
  }

  lemma PromotableRows(s: Server, g: GroupKey)
    ensures Promotable(s, g) <= s.leases.Keys
  {
  }

  lemma SentKeepsTable(s: Server, t: Server)
    requires TableOk(s) && t.leases == s.leases && t.nextSequence == s.nextSequence
    ensures TableOk(t)
  {
  }

  lemma OrderedUnfolds(leases: map<RequestId, Lease>, ids: set<RequestId>)
    requires ids <= leases.Keys && ids != {}
    ensures First(leases, ids) in ids
    ensures Ordered(leases, ids) == [First(leases, ids)] + Ordered(leases, ids - {First(leases, ids)})
  {
  }

  /** Updating a job row leaves the lease table sound. */
  lemma RowKeepsTable(s: Server, run: RunId, e: RowEvent)
    requires TableOk(s)
    ensures TableOk(Apply(s, OnRow(run, e)))
  {
    hide RowAfter;
  }

  lemma NothingOrdered(leases: map<RequestId, Lease>)
    ensures Ordered(leases, {}) == []
  {
  }

  /** Displacing the waiting rows leaves the table sound and the holder where it was. */
  lemma HeldBefore(s: Server, g: GroupKey, queue: QueueMode)
    requires TableOk(s)
    ensures Displaced(s, g, queue) <= s.leases.Keys
    ensures var d := Delete(s, Displaced(s, g, queue));
            && TableOk(d) && HeldIn(d.leases, g) == HeldIn(s.leases, g)
            && (HeldIn(s.leases, g) != {} ==> First(d.leases, HeldIn(d.leases, g)) == First(s.leases, HeldIn(s.leases, g)))
  {
    var d := Delete(s, Displaced(s, g, queue));
    DeleteKeepsTable(s, Displaced(s, g, queue));
    assert HeldIn(d.leases, g) == HeldIn(s.leases, g);
    if HeldIn(s.leases, g) != {} {
      var h := First(d.leases, HeldIn(d.leases, g));
      FirstIs(s.leases, HeldIn(s.leases, g), h);
    }
  }

  lemma PromoteStops(s: Server, g: GroupKey)
    requires HeldIn(s.leases, g) != {} || Promotable(s, g) == {}
    ensures Promote(s, g) == s
  {
  }

  lemma PromoteTurns(s: Server, g: GroupKey, r: RequestId)
    requires HeldIn(s.leases, g) == {} && Promotable(s, g) != {} && r == First(s.leases, Promotable(s, g))
    ensures r in s.leases && s.leases[r].status == Waiting
    ensures s.leases[r].agent in s.connected ==>
              Promote(s, g) == Send(SetStatus(s, r, Active), s.leases[r].agent, Granted(r))
    ensures s.leases[r].agent !in s.connected ==>
              Promote(s, g) == Promote(Delete(s, {r}), g) && |Promotable(Delete(s, {r}), g)| < |Promotable(s, g)|
  {
    assert r in Promotable(s, g);
    assert Promotable(Delete(s, {r}), g) == Promotable(s, g) - {r};
  }

  class Workspace {
    const repositories: map<RunId, string>
    const capacities: map<AgentId, nat>
    var jobs: map<RunId, JobRow>
    var leases: map<RequestId, Lease>
    var nextSequence: nat
    var connected: map<AgentId, SocketId>
    var sent: map<SocketId, seq<ServerMessage>>

    ghost function State(): Server
      reads this
    {
      Server(repositories, capacities, jobs, leases, nextSequence, connected, sent)
    }

    ghost predicate Valid()
      reads this
    {
      TableOk(State())
    }

    constructor (repositories: map<RunId, string>, capacities: map<AgentId, nat>)
      ensures Valid() && Fresh(State())
      ensures this.repositories == repositories && this.capacities == capacities
    {
      this.repositories, this.capacities := repositories, capacities;
      jobs, leases, nextSequence, connected, sent := map[], map[], 0, map[], map[];
      new;
      assert forall g :: WaitingIn(leases, g) == {};
    }

    method SendToAgent(agent: AgentId, m: ServerMessage) returns (delivered: bool)
      modifies this`sent
      ensures State() == Send(old(State()), agent, m) && delivered == (agent in connected)
    {
      delivered := agent in connected;
      if delivered {
        sent := sent[connected[agent] := Outbox(sent, connected[agent]) + [m]];
      }
    }

    method SendServer(agent: AgentId, socket: SocketId, m: ServerMessage)
      modifies this`sent
      ensures State() == Reply(old(State()), agent, socket, m)
    {
      if agent in connected && connected[agent] == socket {
        var _ := SendToAgent(agent, m);
      }
    }

    /** sendConcurrencyCancellation for each row of a query result. */
    method SendCancellations(ids: seq<RequestId>, rows: map<RequestId, Lease>)
      requires forall r | r in ids :: r in rows
      modifies this`sent
      ensures State() == Cancel(old(State()), ids, rows)
    {
      var rest := ids;
      while rest != []
        invariant forall r | r in rest :: r in rows
        invariant State() == old(State()).(sent := sent)
        invariant Cancel(State(), rest, rows) == Cancel(old(State()), ids, rows)
        decreases |rest|
      {
        var _ := SendToAgent(rows[rest[0]].agent, Cancelled(rest[0]));
        rest := rest[1..];
      }
    }

    /** ORDER BY sequence, as a selection of the least remaining row. */
    method SelectOrdered(ids: set<RequestId>) returns (rows: seq<RequestId>)
      requires ids <= leases.Keys && SequencesUnique(leases)
      ensures rows == Ordered(leases, ids)
    {
      hide Ordered, First, SequencesUnique;
      rows := [];
      var rest := ids;
      while rest != {}
        invariant rest <= ids
        invariant rows + Ordered(leases, rest) == Ordered(leases, ids)
        decreases |rest|
      {
        var r := SelectFirst(rest);
        OrderedUnfolds(leases, rest);
        rows, rest := rows + [r], rest - {r};
      }
      NothingOrdered(leases);
    }

    /** ORDER BY sequence LIMIT 1. */
    method SelectFirst(ids: set<RequestId>) returns (r: RequestId)
      requires ids <= leases.Keys && ids != {} && SequencesUnique(leases)
      ensures r == First(leases, ids)
    {
      r :| r in ids;
      var rest := ids - {r};
      while rest != {}
        invariant rest <= ids && r in ids && r !in rest
        invariant forall q | q in ids && q !in rest :: leases[r].sequence <= leases[q].sequence
        decreases |rest|
      {
        var q :| q in rest;
        rest := rest - {q};
        if leases[q].sequence < leases[r].sequence { r := q; }
      }
      FirstIs(leases, ids, r);
    }

    // the queries of the lease handlers

    method SelectHeld(g: GroupKey) returns (ids: set<RequestId>)
      ensures ids == HeldIn(leases, g)
    {
      ids := set r | r in leases && leases[r].group == g && leases[r].status != Waiting;
    }

    method SelectWaiting(g: GroupKey) returns (ids: set<RequestId>)
      ensures ids == WaitingIn(leases, g)
    {
      ids := set r | r in leases && leases[r].group == g && leases[r].status == Waiting;
    }

    method SelectPromotable(g: GroupKey) returns (ids: set<RequestId>)
      ensures ids == Promotable(State(), g)
    {
      ids := set r | r in leases && leases[r].group == g && leases[r].status == Waiting
                     && leases[r].run in jobs && jobs[leases[r].run].Live()
                     && jobs[leases[r].run].agent == Some(leases[r].agent);
    }

    method SelectOfRun(run: RunId) returns (ids: set<RequestId>)
      ensures ids == OfRun(leases, run) && ids <= leases.Keys
    {
      ids := set r | r in leases && leases[r].run == run;
    }

    method PromoteConcurrency(g: GroupKey)
      requires Valid()
      modifies this`leases, this`sent
      ensures Valid() && State() == Promote(old(State()), g)
    {
      hide Promote, First, RowsOk, WaitingBounded, TableOk, Promotable, HeldIn;
      PromoteKeepsTable(State(), g);
      while true
        invariant TableOk(State())
        invariant State() == old(State()).(leases := leases, sent := sent)
        invariant Promote(State(), g) == Promote(old(State()), g)
        decreases |Promotable(State(), g)|
      {
        ghost var before := State();
        var active := SelectHeld(g);
        var candidates := SelectPromotable(g);
        if active != {} || candidates == {} {
          PromoteStops(before, g);
          return;
        }
        TableIsOrdered(before);
        PromotableRows(before, g);
        var next := SelectFirst(candidates);
        PromoteTurns(before, g, next);
        var delivered := PromoteRow(next);
        if delivered { return; }
        DeleteKeepsTable(before, {next});
      }
    }

    /** Makes one row active and tells its agent, or deletes the row of an agent that cannot be told. */
    method PromoteRow(next: RequestId) returns (delivered: bool)
      requires next in leases
      modifies this`leases, this`sent
      ensures delivered == (old(leases[next].agent) in connected)
      ensures State() == if delivered then Send(SetStatus(old(State()), next, Active), old(leases[next].agent), Granted(next))
                         else Delete(old(State()), {next})
    {
      ghost var rows := leases;
      leases := leases[next := leases[next].(status := Active)];
      delivered := SendToAgent(leases[next].agent, Granted(next));
      if !delivered {
        leases := leases - {next};
        assert leases == rows - {next};
      }
    }

    method ReleaseConcurrency(request: RequestId, run: RunId, agent: AgentId)
      requires Valid()
      modifies this`leases, this`sent
      ensures Valid() && State() == Release(old(State()), request, run, agent)
    {
      if request !in leases || leases[request].run != run || leases[request].agent != agent { return; }
      var row := leases[request];
      DeleteKeepsTable(State(), {request});
      leases := leases - {request};
      assert State() == Delete(old(State()), {request});
      if row.status != Waiting {
        PromoteConcurrency(row.group);
      }
    }

    method ReleaseConcurrencyForRun(run: RunId)
      requires Valid()
      modifies this`leases, this`sent
      ensures Valid() && State() == ReleaseForRun(old(State()), run)
    {
      hide TableOk, Promote, PromoteAll, Ordered, FreedGroups, Cancel, OfRun;
      var rows := leases;
      var ids := DeleteRun(run);
      ghost var deleted := State();
      var groups := CancelAndCollect(ids, rows);
      SentKeepsTable(deleted, State());
      PromoteGroups(groups);
    }

    /** DELETE ... WHERE run_id = ? RETURNING *. */
    method DeleteRun(run: RunId) returns (ids: seq<RequestId>)
      requires Valid()
      modifies this`leases
      ensures Valid() && State() == Delete(old(State()), OfRun(old(leases), run))
      ensures OfRun(old(leases), run) <= old(leases).Keys && ids == Ordered(old(leases), OfRun(old(leases), run))
    {
      hide TableOk, Ordered, SequencesUnique;
      TableIsOrdered(State());
      var ofRun := SelectOfRun(run);
      hide OfRun;
      ids := SelectOrdered(ofRun);
      DeleteKeepsTable(State(), ofRun);
      leases := leases - ofRun;
    }

    /** Tells the agent of every deleted row, and gathers the groups that lost their holder. */
    method CancelAndCollect(ids: seq<RequestId>, rows: map<RequestId, Lease>) returns (groups: seq<GroupKey>)
      requires forall r | r in ids :: r in rows
      modifies this`sent
      ensures State() == Cancel(old(State()), ids, rows) && groups == FreedGroups(ids, rows)
    {
      groups := [];
      var i := 0;
      while i < |ids|
        invariant 0 <= i <= |ids|
        invariant State() == old(State()).(sent := sent)
        invariant Cancel(State(), ids[i..], rows) == Cancel(old(State()), ids, rows)
        invariant groups == FreedGroups(ids[..i], rows)
      {
        var row := rows[ids[i]];
        assert ids[i..][1..] == ids[i + 1..] && ids[i..][0] == ids[i];
        var _ := SendToAgent(row.agent, Cancelled(ids[i]));
        assert ids[..i + 1][..i] == ids[..i];
        if row.status != Waiting && row.group !in groups {
          groups := groups + [row.group];
        }
        i := i + 1;
      }
      assert ids[..i] == ids && ids[i..] == [];
    }

    method PromoteGroups(groups: seq<GroupKey>)
      requires Valid()
      modifies this`leases, this`sent
      ensures Valid() && State() == PromoteAll(old(State()), groups)
    {
      var rest := groups;
      while rest != []
        invariant Valid() && State() == old(State()).(leases := leases, sent := sent)
        invariant PromoteAll(State(), rest) == PromoteAll(old(State()), groups)
        decreases |rest|
      {
        PromoteConcurrency(rest[0]);
        rest := rest[1..];
      }
    }

    /** `concurrency_acquire` after the ownership test. */
    method AcquireConcurrency(socket: SocketId, agent: AgentId, request: RequestId, ask: Ask)
      requires Valid() && ask.run in repositories
      modifies this`leases, this`sent, this`nextSequence
      ensures Valid() && State() == Acquire(old(State()), socket, agent, request, ask)
    {
      AcquireKeepsTable(State(), socket, agent, request, ask);
      if ask.queue == Max && ask.cancelInProgress {
        SendServer(agent, socket, Cancelled(request));
        return;
      }
      if request in leases {
        var existing := leases[request];
        if existing.run != ask.run || existing.agent != agent {
          SendServer(agent, socket, Cancelled(request));
        } else if existing.status == Active {
          SendServer(agent, socket, Granted(request));
        } else if existing.status == Cancelling {
          SendServer(agent, socket, Cancelled(request));
        }
        return;
      }
      AcquireFresh(socket, agent, request, ask, KeyOf(repositories[ask.run], ask.group));
    }

    method AcquireFresh(socket: SocketId, agent: AgentId, request: RequestId, ask: Ask, g: GroupKey)
      requires TableOk(State()) && request !in leases
      modifies this`leases, this`sent, this`nextSequence
      ensures State() == AcquireNew(old(State()), socket, agent, request, ask, g)
    {
      hide TableOk, Inserted, Ordered, First, WaitingIn, HeldIn, Cancel, Send, Reply, Displaced;
      if ask.queue == Max {
        var waiting := SelectWaiting(g);
        if |waiting| >= MAX_WAITING {
          SendServer(agent, socket, Cancelled(request));
          return;
        }
      }
      ghost var before := State();
      var rows := leases;
      var cancelledWaiters, active := Admit(agent, request, ask, g);
      ghost var inserted := State();
      SendCancellations(cancelledWaiters, rows);
      ghost var told := State();
      assert told == Cancel(inserted, Ordered(before.leases, Displaced(before, g, ask.queue)), before.leases);
      if active.None? {
        SendServer(agent, socket, Granted(request));
      } else if ask.cancelInProgress {
        SendCancellations([active.value], rows);
      }
    }

    /** The transaction of an admitted request. */
    method Admit(agent: AgentId, request: RequestId, ask: Ask, g: GroupKey)
      returns (cancelledWaiters: seq<RequestId>, active: Option<RequestId>)
      requires TableOk(State())
      modifies this`leases, this`nextSequence
      ensures State() == Inserted(old(State()), agent, request, ask, g)
      ensures Displaced(old(State()), g, ask.queue) <= old(leases).Keys
      ensures cancelledWaiters == Ordered(old(leases), Displaced(old(State()), g, ask.queue))
      ensures active == if HeldIn(old(leases), g) == {} then None else Some(First(old(leases), HeldIn(old(leases), g)))
      ensures active.Some? ==> active.value in old(leases)
    {
      hide TableOk, Entered, Ordered, First, HeldIn, Displaced;
      HeldBefore(State(), g, ask.queue);
      cancelledWaiters := DisplaceWaiters(g, ask.queue);
      active := EnterGroup(agent, request, ask, g);
    }

    /** The single-pending queue: the waiting rows are read and deleted. */
    method DisplaceWaiters(g: GroupKey, queue: QueueMode) returns (displaced: seq<RequestId>)
      requires TableOk(State())
      modifies this`leases
      ensures State() == Delete(old(State()), Displaced(old(State()), g, queue))
      ensures displaced == Ordered(old(leases), Displaced(old(State()), g, queue))
    {
      hide Ordered, RowsOk, WaitingBounded;
      displaced := [];
      ghost var rows := leases;
      if queue == Single {
        TableIsOrdered(State());
        var waiting := SelectWaiting(g);
        displaced := SelectOrdered(waiting);
        leases := leases - waiting;
      } else {
        assert rows - {} == rows;
        NothingOrdered(rows);
      }
    }

    /** Looks for the group's holder, marks it if asked to, and inserts the new row. */
    method EnterGroup(agent: AgentId, request: RequestId, ask: Ask, g: GroupKey) returns (active: Option<RequestId>)
      requires TableOk(State())
      modifies this`leases, this`nextSequence
      ensures State() == Entered(old(State()), agent, request, ask, g)
      ensures active == if HeldIn(old(leases), g) == {} then None else Some(First(old(leases), HeldIn(old(leases), g)))
      ensures active.Some? ==> active.value in old(leases)
    {
      hide RowsOk, WaitingBounded, First;
      active := None;
      var held := SelectHeld(g);
      if held != {} {
        TableIsOrdered(State());
        var holder := SelectFirst(held);
        active := Some(holder);
        if ask.cancelInProgress {
          leases := leases[holder := leases[holder].(status := Cancelling)];
        }
      }
      var row := Lease(nextSequence, ask.run, agent, g, ask.unit, ask.queue, if active.None? then Active else Waiting);
      leases, nextSequence := leases[request := row], nextSequence + 1;
    }

    /** `job_finished`: the leases go before the row is completed. */
    method JobIsFinished(agent: AgentId, run: RunId, conclusion: Conclusion, summary: string) returns (owned: bool)
      requires Valid()
      modifies this`jobs, this`leases, this`sent
      ensures Valid() && State() == Apply(old(State()), JobFinished(agent, run, conclusion, summary))
      ensures owned == Owned(old(State()), run, agent)
    {
      ApplyKeepsTable(State(), JobFinished(agent, run, conclusion, summary));
      owned := run in jobs && jobs[run].OwnedBy(agent);
      if !owned || jobs[run].status == Completed { return; }
      ReleaseConcurrencyForRun(run);
      jobs := jobs[run := Finished(jobs[run], agent, conclusion, summary)];
    }

    /** `job_started`: an assigned run of this agent is running from now on. */
    method JobIsStarted(agent: AgentId, run: RunId, now: int) returns (owned: bool)
      requires Valid()
      modifies this`jobs
      ensures Valid() && State() == Apply(old(State()), OnRow(run, JobStarted(agent, now)))
      ensures owned == Owned(old(State()), run, agent)
    {
      RowKeepsTable(State(), run, JobStarted(agent, now));
      owned := run in jobs && jobs[run].OwnedBy(agent);
      if owned && jobs[run].status == Assigned {
        jobs := jobs[run := jobs[run].(status := Running, deadline := Some(now + LEASE_MILLISECONDS))];
      }
      assert run in jobs ==> jobs == old(jobs)[run := jobs[run]];
    }

    /** One reported run of a heartbeat; `lost` when the control plane no longer owns its lease. */
    method ExtendLease(agent: AgentId, run: RunId, now: int) returns (lost: bool)
      requires Valid()
      modifies this`jobs
      ensures Valid() && State() == Apply(old(State()), OnRow(run, Heartbeat(agent, now)))
      ensures lost <==> !(run in jobs && jobs[run].LiveOn(agent))
    {
      RowKeepsTable(State(), run, Heartbeat(agent, now));
      lost := !(run in jobs && jobs[run].LiveOn(agent));
      if !lost {
        jobs := jobs[run := jobs[run].(deadline := Some(now + LEASE_MILLISECONDS))];
      }
      assert run in jobs ==> jobs == old(jobs)[run := jobs[run]];
    }

    /** `job_rejected`: back to the queue with its negotiated requirements, the attempt given back. */
    method JobIsRejected(agent: AgentId, run: RunId, requirements: seq<Requirement>, unsatisfied: bool) returns (accepted: bool)
      requires Valid()
      modifies this`jobs
      ensures Valid() && State() == Apply(old(State()), OnRow(run, JobRejected(agent, requirements, unsatisfied)))
      ensures accepted ==> run in jobs && jobs[run].status == Queued && jobs[run].requirements == requirements
    {
      RowKeepsTable(State(), run, JobRejected(agent, requirements, unsatisfied));
      accepted := run in jobs && jobs[run].OwnedBy(agent) && jobs[run].status == Assigned && unsatisfied;
      if accepted {
        var row := jobs[run];
        var attempts := if row.attempts > 0 then row.attempts - 1 else 0;
        jobs := jobs[run := row.(status := Queued, agent := None, deadline := None, requirements := requirements, attempts := attempts)];
      }
      assert run in jobs ==> jobs == old(jobs)[run := jobs[run]];
    }

    /** A run nobody could take before its queue deadline. */
    method ExpireQueued(run: RunId, now: int, summary: string)
      requires Valid()
      modifies this`jobs
      ensures Valid() && State() == Apply(old(State()), OnRow(run, QueueExpired(now, summary)))
    {
      RowKeepsTable(State(), run, QueueExpired(now, summary));
      if run in jobs && jobs[run].status == Queued && jobs[run].queueExpiresAt <= now {
        jobs := jobs[run := InfrastructureCompleted(jobs[run], TimedOut, summary)];
      }
      assert run in jobs ==> jobs == old(jobs)[run := jobs[run]];
    }

    /** requeue: the leases go, then the run is queued again or completed. */
    method RequeueRun(run: RunId, summary: string) returns (terminal: bool)
      requires Valid()
      modifies this`jobs, this`leases, this`sent
      ensures Valid() && State() == Apply(old(State()), Requeue(run, summary))
      ensures terminal ==> run in jobs && jobs[run].status == Completed
    {
      ApplyKeepsTable(State(), Requeue(run, summary));
      if run !in jobs || !jobs[run].Live() { return false; }
      var row := jobs[run];
      ReleaseConcurrencyForRun(run);
      if row.attempts >= MAX_ASSIGNMENT_ATTEMPTS {
        jobs := jobs[run := InfrastructureCompleted(row, Failure, summary)];
        return true;
      }
      jobs := jobs[run := row.(status := Queued, agent := None, deadline := None)];
      return false;
    }
  }
}
