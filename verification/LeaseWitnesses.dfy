/** Runs of the workspace, from its beginning, that leave a waiter behind. */
module LeaseWitnesses {
  import opened Basics
  import opened Jobs
  import opened Leases
  import opened LeaseTable
  import opened Events
  import opened LeaseQueue

  const START := Server(map[1 := "r", 2 := "r"], map["a" := 2], map[], map[], 0, map[], map[])

  lemma {:induction false} RunConcat(s: Server, a: seq<Event>, b: seq<Event>)
    ensures Run(s, a + b) == Run(Run(s, a), b)
    decreases |b|
  {
    hide Apply;
    if b == [] {
      assert a + b == a;
    } else {
      var front := b[..|b| - 1];
      assert (a + b)[..|a + b| - 1] == a + front;
      RunConcat(s, a, front);
    }
  }

  lemma RunTwo(s: Server, e: Event, f: Event)
    ensures Run(s, [e, f]) == Apply(Apply(s, e), f)
  {
    hide Apply;
    assert [e, f][..1] == [e] && [e][..0] == [];
    assert Run(s, [e]) == Apply(Run(s, []), e);
  }

  // ---------------------------------------------------------------- two runs, the second slow to initialize

  /** Attempt after attempt to initialize run 2 claims it when the claim before has expired. */
  function Claims(n: nat): seq<Event> {
    if n == 0 then [] else Claims(n - 1) + [OnRow(2, InitializeClaim((n - 1) * INITIALIZATION_LEASE_MILLISECONDS))]
  }

  function SlowJob(n: nat): JobRow {
    if n == 0 then Enqueued(true, 0)
    else Enqueued(true, 0).(initialization := Claimed, initAttempts := n, initRetryAt := Some(n * INITIALIZATION_LEASE_MILLISECONDS))
  }

  const QUEUED := START.(jobs := map[1 := Enqueued(false, 0), 2 := Enqueued(true, 0)])

  lemma QueuedRun()
    ensures Run(START, [Enqueue(1, false, 0), Enqueue(2, true, 0)]) == QUEUED
  {
    RunTwo(START, Enqueue(1, false, 0), Enqueue(2, true, 0));
    assert map[][1 := Enqueued(false, 0)][2 := Enqueued(true, 0)] == map[1 := Enqueued(false, 0), 2 := Enqueued(true, 0)];
  }

  lemma SlowStep(n: nat)
    requires n > 0
    ensures RowAfter(SlowJob(n - 1), InitializeClaim((n - 1) * INITIALIZATION_LEASE_MILLISECONDS)) == SlowJob(n)
  {
  }

  lemma {:induction false} ClaimsRun(n: nat)
    ensures Run(QUEUED, Claims(n)) == QUEUED.(jobs := map[1 := Enqueued(false, 0), 2 := SlowJob(n)])
  {
    if n > 0 {
      var last := OnRow(2, InitializeClaim((n - 1) * INITIALIZATION_LEASE_MILLISECONDS));
      ClaimsRun(n - 1);
      SlowStep(n);
      hide SlowJob, RowAfter, Enqueued;
      assert Claims(n)[..|Claims(n)| - 1] == Claims(n - 1);
      assert map[1 := Enqueued(false, 0), 2 := SlowJob(n - 1)][2 := SlowJob(n)] == map[1 := Enqueued(false, 0), 2 := SlowJob(n)];
    }
  }

  // ---------------------------------------------------------------- both runs on one agent

  const NINE := 9 * INITIALIZATION_LEASE_MILLISECONDS

  const CLAIMED := QUEUED.(jobs := map[1 := Enqueued(false, 0), 2 := SlowJob(9)])

  const FIRST := Dispatched(Enqueued(false, 0), "a", NINE)

  const SECOND := Dispatched(Initialized(SlowJob(9)), "a", NINE)

  const ASSIGNED := START.(jobs := map[1 := FIRST, 2 := SECOND], connected := map["a" := 0], sent := map[0 := []])

  const READY := START.(jobs := map[1 := Enqueued(false, 0), 2 := Initialized(SlowJob(9))],
                        connected := map["a" := 0], sent := map[0 := []])

  /** The ninth attempt succeeds while the eighth, the last one allowed, is still at it. */
  lemma ReadyRun()
    ensures Run(CLAIMED, [OnRow(2, InitializeDone), Connect("a", 0)]) == READY
  {
    RunTwo(CLAIMED, OnRow(2, InitializeDone), Connect("a", 0));
    hide Run, SlowJob, Initialized, Enqueued;
    assert CLAIMED.jobs[2 := Initialized(SlowJob(9))] == READY.jobs;
    var done := CLAIMED.(jobs := READY.jobs);
    assert Apply(CLAIMED, OnRow(2, InitializeDone)) == done;
    assert done.connected["a" := 0] == READY.connected && done.sent[0 := []] == READY.sent;
    assert Apply(done, Connect("a", 0)) == READY;
  }

  const HALF := READY.(jobs := map[1 := FIRST, 2 := Initialized(SlowJob(9))])

  lemma FirstDispatched()
    ensures Apply(READY, Dispatch(1, "a", NINE)) == HALF
  {
    assert LiveRuns(READY.jobs, "a") == {};
    assert READY.jobs[1 := FIRST] == HALF.jobs;
  }

  lemma SecondDispatched()
    ensures Apply(HALF, Dispatch(2, "a", NINE)) == ASSIGNED
  {
    assert LiveRuns(HALF.jobs, "a") == {1};
    assert HALF.jobs[2 := SECOND] == ASSIGNED.jobs;
  }

  lemma AssignedRun()
    ensures Run(Run(CLAIMED, [OnRow(2, InitializeDone), Connect("a", 0)]), [Dispatch(1, "a", NINE), Dispatch(2, "a", NINE)]) == ASSIGNED
  {
    hide *;
    ReadyRun();
    RunTwo(READY, Dispatch(1, "a", NINE), Dispatch(2, "a", NINE));
    FirstDispatched();
    SecondDispatched();
  }

  // ---------------------------------------------------------------- one lease held, one waiting

  const GROUP := KeyOf("r", "g")

  const HOLDS := Ask(1, "u", "g", false, Max)

  const WAITS := Ask(2, "u", "g", false, Max)

  lemma OneAcquires(s: Server, request: RequestId, ask: Ask)
    requires TableOk(s) && ask in {HOLDS, WAITS} && request !in s.leases && |WaitingIn(s.leases, GROUP)| < MAX_WAITING
    requires s.repositories == START.repositories && Owned(s, ask.run, "a")
    ensures var t := Apply(s, ConcurrencyAcquire("a", 0, request, ask));
      && SameElsewhere(s, t) && t.nextSequence == s.nextSequence + 1
      && t.leases == s.leases[request := NewRow(s, "a", ask, GROUP)]
  {
    hide Acquire, KeyOf;
    var t := AcquireEffect(s, 0, "a", request, ask);
    assert KeyOf(s.repositories[ask.run], ask.group) == GROUP;
    assert t.leases == s.leases[request := NewRow(s, "a", ask, GROUP)];
  }

  /** From an empty workspace: request 10 of run 1 holds the group, request 20 of run 2 waits. */
  function Prelude(): seq<Event> {
    ((([Enqueue(1, false, 0), Enqueue(2, true, 0)] + Claims(9)) + [OnRow(2, InitializeDone), Connect("a", 0)])
     + [Dispatch(1, "a", NINE), Dispatch(2, "a", NINE)])
    + [ConcurrencyAcquire("a", 0, 10, HOLDS), ConcurrencyAcquire("a", 0, 20, WAITS)]
  }

  /** Requests 10 and 20 belong to the two runs; the first holds the group, the second alone waits. */
  ghost predicate OneWaits(s: Server) {
    && TableOk(s) && s.jobs == ASSIGNED.jobs
    && 10 in HeldIn(s.leases, GROUP) && WaitingIn(s.leases, GROUP) == {20}
    && s.leases[10].run == 1 && s.leases[10].agent == "a" && s.leases[20].run == 2 && s.leases[20].agent == "a"
  }

  lemma TwoAcquire()
    requires TableOk(ASSIGNED)
    ensures OneWaits(Apply(Apply(ASSIGNED, ConcurrencyAcquire("a", 0, 10, HOLDS)), ConcurrencyAcquire("a", 0, 20, WAITS)))
  {
    var s := ASSIGNED;
    var t := Apply(s, ConcurrencyAcquire("a", 0, 10, HOLDS));
    ApplyKeepsTable(s, ConcurrencyAcquire("a", 0, 10, HOLDS));
    ApplyKeepsTable(t, ConcurrencyAcquire("a", 0, 20, WAITS));
    assert Owned(s, 1, "a") && Owned(s, 2, "a");
    assert WaitingIn(s.leases, GROUP) == {} && HeldIn(s.leases, GROUP) == {};
    hide TableOk, KeyOf, Apply;
    OneAcquires(s, 10, HOLDS);
    assert t.leases == map[10 := NewRow(s, "a", HOLDS, GROUP)];
    assert HeldIn(t.leases, GROUP) == {10} && WaitingIn(t.leases, GROUP) == {};
    OneAcquires(t, 20, WAITS);
  }

  lemma PreludeRun()
    ensures OneWaits(Run(START, Prelude()))
  {
    var queued, ready := [Enqueue(1, false, 0), Enqueue(2, true, 0)], [OnRow(2, InitializeDone), Connect("a", 0)];
    var dispatched := [Dispatch(1, "a", NINE), Dispatch(2, "a", NINE)];
    var leased := [ConcurrencyAcquire("a", 0, 10, HOLDS), ConcurrencyAcquire("a", 0, 20, WAITS)];
    assert Prelude() == (((queued + Claims(9)) + ready) + dispatched) + leased;
    assert Fresh(START);
    assert CLAIMED == QUEUED.(jobs := map[1 := Enqueued(false, 0), 2 := SlowJob(9)]);
    hide *;
    RunConcat(START, ((queued + Claims(9)) + ready) + dispatched, leased);
    RunConcat(START, (queued + Claims(9)) + ready, dispatched);
    RunConcat(START, queued + Claims(9), ready);
    RunConcat(START, queued, Claims(9));
    QueuedRun();
    ClaimsRun(9);
    AssignedRun();
    TableOkAlways(START, ((queued + Claims(9)) + ready) + dispatched);
    RunTwo(ASSIGNED, ConcurrencyAcquire("a", 0, 10, HOLDS), ConcurrencyAcquire("a", 0, 20, WAITS));
    TwoAcquire();
  }

  // ---------------------------------------------------------------- the two edges

  const RELEASES := ConcurrencyRelease("a", 10, 1)

  lemma RunOneMore(s: Server, events: seq<Event>, e: Event)
    ensures Run(s, events + [e]) == Apply(Run(s, events), e)
  {
    assert (events + [e])[..|events|] == events;
  }

  /** The agent rejects the second run while its lease waits: releasing the first lease leaves nobody to wait for. */
  lemma RejectionRun()
    ensures Fresh(START)
    ensures !QueueOk(Run(START, Prelude() + [OnRow(2, JobRejected("a", [], true))] + [RELEASES]).leases, GROUP)
  {
    PreludeRun();
    var s := Run(START, Prelude());
    assert SECOND.status == Assigned && SECOND.agent == Some("a");
    hide Run, Prelude, Apply, QueueOk, KeyOf, TableOk;
    RunOneMore(START, Prelude(), OnRow(2, JobRejected("a", [], true)));
    RunOneMore(START, Prelude() + [OnRow(2, JobRejected("a", [], true))], RELEASES);
    RejectionStrandsWaiter(s, GROUP, 10, 20, "a", []);
  }

  /** The eighth attempt to initialize the second run fails for good only now, with the same end. */
  lemma LateInitializationFailureRun()
    ensures !QueueOk(Run(START, Prelude() + [OnRow(2, InitializeExhausted(8, "late"))] + [RELEASES]).leases, GROUP)
  {
    PreludeRun();
    var s := Run(START, Prelude());
    assert SECOND.status == Assigned && SECOND.agent == Some("a");
    hide Run, Prelude, Apply, QueueOk, KeyOf, TableOk;
    RunOneMore(START, Prelude(), OnRow(2, InitializeExhausted(8, "late")));
    RunOneMore(START, Prelude() + [OnRow(2, InitializeExhausted(8, "late"))], RELEASES);
    LateInitializationFailureStrandsWaiter(s, GROUP, 10, 20, 8, "late");
  }
}
