/** Choosing agents for queued runs. */
module Dispatcher {
  import opened Basics
  import opened Jobs
  import opened Events
  import opened Leases

  datatype Hello = Hello(labels: seq<string>, group: Option<string>, maxParallelism: nat)

  /** What is attached to an agent's socket. */
  datatype Attachment = Attachment(open: bool, agent: Option<AgentId>, hello: Option<Hello>, draining: seq<RunId>, connectedAt: int)

  datatype Candidate = Candidate(agent: AgentId, hello: Hello, running: nat, capacity: nat, connectedAt: int)

  /** The order localeCompare puts on agent ids, as a key. */
  type Collation = AgentId -> int

  // ---------------------------------------------------------------- compatibility

  predicate HasLabel(hello: Hello, name: string) {
    exists l | l in hello.labels :: Lower(l) == Lower(name)
  }

  predicate IsHostedMacos(name: string) {
    Lower(name) == "macos-latest" || "macos-" <= Lower(name)
  }

  predicate SatisfiesOne(hello: Hello, r: Requirement) {
    if r.group.Some? && (hello.group.None? || Lower(hello.group.value) != Lower(r.group.value)) then false
    else if r.group.None? && |r.labels| == 1 && IsHostedMacos(r.labels[0]) then true
    else forall l | l in r.labels :: HasLabel(hello, l)
  }

  predicate Satisfies(hello: Hello, requirements: seq<Requirement>) {
    forall r | r in requirements :: SatisfiesOne(hello, r)
  }

  /** A socket whose agent may be given work: open, introduced, not draining, able to run macOS. */
  predicate Eligible(a: Attachment) {
    a.open && a.agent.Some? && a.hello.Some? && a.draining == [] && HasLabel(a.hello.value, "macos")
  }

  predicate Offers(jobs: map<RunId, JobRow>, a: Attachment, c: Candidate) {
    && Eligible(a) && c.agent == a.agent.value && c.hello == a.hello.value && c.connectedAt == a.connectedAt
    && c.running == |LiveRuns(jobs, c.agent)| && c.capacity == c.hello.maxParallelism && c.running < c.capacity
  }

  predicate IsCandidate(sockets: seq<Attachment>, jobs: map<RunId, JobRow>, c: Candidate) {
    exists a | a in sockets :: Offers(jobs, a, c)
  }

  method AvailableAgents(sockets: seq<Attachment>, jobs: map<RunId, JobRow>) returns (candidates: seq<Candidate>)
    ensures forall c :: c in candidates <==> IsCandidate(sockets, jobs, c)
  {
    candidates := [];
    var i := 0;
    while i < |sockets|
      invariant 0 <= i <= |sockets|
      invariant forall c :: c in candidates <==> IsCandidate(sockets[..i], jobs, c)
    {
      var a := sockets[i];
      assert sockets[..i + 1] == sockets[..i] + [a];
      if Eligible(a) {
        var running := |LiveRuns(jobs, a.agent.value)|;
        if running < a.hello.value.maxParallelism {
          var candidate := Candidate(a.agent.value, a.hello.value, running, a.hello.value.maxParallelism, a.connectedAt);
          assert Offers(jobs, a, candidate);
          candidates := candidates + [candidate];
        }
      }
      i := i + 1;
    }
    assert sockets[..i] == sockets;
  }

  // ---------------------------------------------------------------- the load order

  function Load(c: Candidate): real
    requires c.capacity > 0
  {
    c.running as real / c.capacity as real
  }

  /** Lexicographic order by load, assigned runs, connection time and agent id. */
  predicate Precedes(key: Collation, a: Candidate, b: Candidate)
    requires a.capacity > 0 && b.capacity > 0
  {
    || Load(a) < Load(b)
    || (Load(a) == Load(b) && a.running < b.running)
    || (Load(a) == Load(b) && a.running == b.running && a.connectedAt < b.connectedAt)
    || (Load(a) == Load(b) && a.running == b.running && a.connectedAt == b.connectedAt && key(a.agent) < key(b.agent))
  }

  /** The comparison as the loop writes it, without division. */
  predicate Better(key: Collation, a: Candidate, b: Candidate) {
    var left, right := a.running * b.capacity, b.running * a.capacity;
    || left < right
    || (left == right && a.running < b.running)
    || (left == right && a.running == b.running && a.connectedAt < b.connectedAt)
    || (left == right && a.running == b.running && a.connectedAt == b.connectedAt && key(a.agent) < key(b.agent))
  }

  lemma CrossMultiplied(p: nat, q: nat, r: nat, s: nat)
    requires q > 0 && s > 0
    ensures p * s < r * q <==> p as real / (q as real) < r as real / (s as real)
    ensures p * s == r * q <==> p as real / (q as real) == r as real / (s as real)
  {
    var x, y := p as real / q as real, r as real / s as real;
    var m := q as real * s as real;
    assert (p * s) as real == p as real * s as real && (r * q) as real == r as real * q as real;
    assert x * m == p as real * s as real by {
      assert x * m == (x * q as real) * s as real;
    }
    assert y * m == r as real * q as real by {
      assert y * m == (y * s as real) * q as real;
    }
    assert m > 0.0;
    Scaled(x, y, m);
  }

  lemma Scaled(x: real, y: real, m: real)
    requires m > 0.0
    ensures x < y <==> x * m < y * m
    ensures x == y <==> x * m == y * m
  {
    if x < y {
      assert (y - x) * m > 0.0;
    } else if y < x {
      assert (x - y) * m > 0.0;
    }
  }

  /** The comparison without division is the lexicographic order by load. */
  lemma BetterIsPrecedes(key: Collation, a: Candidate, b: Candidate)
    requires a.capacity > 0 && b.capacity > 0
    ensures Better(key, a, b) <==> Precedes(key, a, b)
  {
    CrossMultiplied(a.running, a.capacity, b.running, b.capacity);
  }

  predicate Compatible(candidates: seq<Candidate>, requirements: seq<Requirement>, c: Candidate) {
    c in candidates && Satisfies(c.hello, requirements)
  }

  /** A compatible candidate no other compatible candidate precedes. */
  predicate IsLeast(key: Collation, candidates: seq<Candidate>, requirements: seq<Requirement>, best: Candidate)
    requires forall c | c in candidates :: c.capacity > 0
  {
    Compatible(candidates, requirements, best)
    && forall c | c in candidates && Satisfies(c.hello, requirements) :: !Precedes(key, c, best)
  }

  method LeastLoadedCompatibleAgent(key: Collation, candidates: seq<Candidate>, requirements: seq<Requirement>) returns (best: Option<Candidate>)
    requires forall c | c in candidates :: c.capacity > 0
    ensures best.Some? ==> IsLeast(key, candidates, requirements, best.value)
    ensures best.None? ==> forall c | c in candidates :: !Satisfies(c.hello, requirements)
  {
    hide Satisfies, Precedes, Better;
    best := None;
    var i := 0;
    while i < |candidates|
      invariant 0 <= i <= |candidates|
      invariant best.Some? ==> IsLeast(key, candidates[..i], requirements, best.value)
      invariant best.None? ==> forall c | c in candidates[..i] :: !Satisfies(c.hello, requirements)
    {
      var candidate := candidates[i];
      assert candidates[..i + 1] == candidates[..i] + [candidate];
      if Satisfies(candidate.hello, requirements) {
        PrecedesIsOrder(key, candidate, candidate, candidate);
        if best.None? {
          best := Some(candidate);
        } else {
          BetterIsPrecedes(key, candidate, best.value);
          if Better(key, candidate, best.value) {
            forall c | c in candidates[..i] && Satisfies(c.hello, requirements) ensures !Precedes(key, c, candidate) {
              PrecedesIsOrder(key, c, candidate, best.value);
            }
            best := Some(candidate);
          }
        }
      }
      i := i + 1;
    }
    assert candidates[..i] == candidates;
  }

  lemma PrecedesIsOrder(key: Collation, a: Candidate, b: Candidate, c: Candidate)
    requires a.capacity > 0 && b.capacity > 0 && c.capacity > 0
    ensures !Precedes(key, a, a)
    ensures Precedes(key, a, b) && Precedes(key, b, c) ==> Precedes(key, a, c)
  {
    hide Load;
  }

  /** The choice does not depend on the order of the candidates. */
  lemma LeastIsUnique(key: Collation, xs: seq<Candidate>, ys: seq<Candidate>, requirements: seq<Requirement>, a: Candidate, b: Candidate)
    requires (forall c | c in xs :: c.capacity > 0) && (forall c :: c in xs <==> c in ys)
    requires forall c, d | c in xs && d in xs && key(c.agent) == key(d.agent) :: c == d
    requires IsLeast(key, xs, requirements, a) && IsLeast(key, ys, requirements, b)
    ensures a == b
  {
    assert !Precedes(key, a, b) && !Precedes(key, b, a);
  }

  // ---------------------------------------------------------------- the queue

  predicate Waits(jobs: map<RunId, JobRow>, run: RunId) {
    run in jobs && jobs[run].status == Queued && jobs[run].initialization == Ready
  }

  /** A waiting run and an agent with room that can run it. */
  predicate Dispatchable(sockets: seq<Attachment>, jobs: map<RunId, JobRow>, run: RunId, c: Candidate) {
    Waits(jobs, run) && IsCandidate(sockets, jobs, c) && Satisfies(c.hello, jobs[run].requirements)
  }

  function WaitingRuns(jobs: map<RunId, JobRow>): set<RunId> {
    set run | run in jobs && jobs[run].status == Queued && jobs[run].initialization == Ready
  }

  /** Stored runs, oldest first. */
  predicate ByAge(jobs: map<RunId, JobRow>, runs: seq<RunId>) {
    && (forall i | 0 <= i < |runs| :: runs[i] in jobs)
    && (forall i, k | 0 <= i < k < |runs| :: jobs[runs[i]].createdAt <= jobs[runs[k]].createdAt)
  }

  /** ORDER BY created_at. */
  method SelectQueued(jobs: map<RunId, JobRow>) returns (runs: seq<RunId>)
    ensures forall run :: run in runs <==> Waits(jobs, run)
    ensures ByAge(jobs, runs)
  {
    runs := [];
    var rest := WaitingRuns(jobs);
    while rest != {}
      invariant forall run :: run in runs || run in rest <==> Waits(jobs, run)
      invariant ByAge(jobs, runs)
      invariant forall run, other | run in runs && other in rest :: jobs[run].createdAt <= jobs[other].createdAt
      decreases |rest|
    {
      var oldest := Oldest(jobs, rest);
      runs, rest := runs + [oldest], rest - {oldest};
    }
  }

  method Oldest(jobs: map<RunId, JobRow>, runs: set<RunId>) returns (oldest: RunId)
    requires runs <= jobs.Keys && runs != {}
    ensures oldest in runs && forall run | run in runs :: jobs[oldest].createdAt <= jobs[run].createdAt
  {
    oldest :| oldest in runs;
    var rest := runs - {oldest};
    while rest != {}
      invariant rest <= runs && oldest in runs
      invariant forall run | run in runs && run !in rest :: jobs[oldest].createdAt <= jobs[run].createdAt
      decreases |rest|
    {
      var run :| run in rest;
      rest := rest - {run};
      if jobs[run].createdAt < jobs[oldest].createdAt { oldest := run; }
    }
  }

  // ---------------------------------------------------------------- dispatching

  datatype Tables = Tables(jobs: map<RunId, JobRow>, sockets: seq<Attachment>)

  /** The tables a pass found, and what it chose. */
  datatype Pass = Pass(tables: Tables, run: RunId, candidate: Candidate)

  /** The oldest run somebody can take, and the least loaded agent that can take it. */
  ghost predicate Chosen(key: Collation, p: Pass) {
    var (jobs, sockets) := (p.tables.jobs, p.tables.sockets);
    && Dispatchable(sockets, jobs, p.run, p.candidate)
    && (forall other, d | Dispatchable(sockets, jobs, other, d) :: jobs[p.run].createdAt <= jobs[other].createdAt)
    && (forall d | Dispatchable(sockets, jobs, p.run, d) :: !Precedes(key, d, p.candidate))
  }

  class RunDispatcher {
    var jobs: map<RunId, JobRow>
    var sockets: seq<Attachment>

    /** No run waits that some agent with room could take. */
    ghost predicate Drained()
      reads this
    {
      forall run, c :: !Dispatchable(sockets, jobs, run, c)
    }

    /** One pass: the oldest run somebody can take, and the least loaded agent that can take it. */
    method Select(key: Collation) returns (selected: Option<(RunId, Candidate)>)
      ensures selected.None? <==> Drained()
      ensures selected.Some? ==> Chosen(key, Pass(Tables(jobs, sockets), selected.value.0, selected.value.1))
    {
      var candidates := AvailableAgents(sockets, jobs);
      var queued := SelectQueued(jobs);
      hide Satisfies, IsCandidate, Precedes, Waits;
      CandidatesHaveRoom(sockets, jobs);
      var i := 0;
      while i < |queued|
        invariant 0 <= i <= |queued|
        invariant forall run, c | run in queued[..i] :: !Dispatchable(sockets, jobs, run, c)
      {
        var run := queued[i];
        assert queued[..i + 1] == queued[..i] + [run];
        var best := LeastLoadedCompatibleAgent(key, candidates, jobs[run].requirements);
        if best.Some? {
          assert Dispatchable(sockets, jobs, run, best.value);
          OldestDispatchable(sockets, jobs, queued, i);
          return Some((run, best.value));
        }
        i := i + 1;
      }
      assert queued[..i] == queued;
      return None;
    }

    /**
     * Assigns runs until nothing is dispatchable, or until an assignment cannot be delivered.
     * `delivered` tells which assignments reach their agent, `others` what the handlers that run
     * while a pass is suspended make of the tables, whatever that is. Every pass chooses rightly from
     * the tables it finds, and a normal return leaves no dispatchable pair in the tables as they are
     * then.
     */
    method TryDispatch(key: Collation, now: int, delivered: seq<bool>, others: seq<Tables>)
      returns (aborted: bool, passes: seq<Pass>)
      modifies this`jobs, this`sockets
      ensures !aborted ==> Drained()
      ensures forall p | p in passes :: Chosen(key, p)
      ensures others == [] ==> sockets == old(sockets) && jobs.Keys == old(jobs.Keys) && Loads(sockets, old(jobs), jobs)
      ensures others == [] ==> forall run | run in jobs && !Waits(old(jobs), run) :: jobs[run] == old(jobs)[run]
    {
      hide Dispatchable, Precedes, HasRoomFor, Eligible, LiveRuns;
      aborted, passes := false, [];
      while true
        invariant forall p | p in passes :: Chosen(key, p)
        invariant others == [] ==> sockets == old(sockets) && jobs.Keys == old(jobs.Keys) && Loads(sockets, old(jobs), jobs)
        invariant others == [] ==> forall run | run in jobs && !Waits(old(jobs), run) :: jobs[run] == old(jobs)[run]
        invariant others == [] ==> forall run | run in jobs && Waits(jobs, run) :: Waits(old(jobs), run)
        decreases if |passes| < |others| then |others| - |passes| else 0, |WaitingRuns(jobs)|
      {
        var selected := Select(key);
        if selected.None? { break; }
        var (run, c) := selected.value;
        AssignedFacts(sockets, jobs, run, c, now);
        passes := passes + [Pass(Tables(jobs, sockets), run, c)];
        if others == [] { LoadsKept(sockets, old(jobs), jobs, run, c, now); }
        if |passes| <= |delivered| && !delivered[|passes| - 1] {
          if others == [] { UndeliveredFacts(sockets, old(jobs), jobs, run, c, now); }
          jobs := jobs[run := Requeued(Dispatched(jobs[run], c.agent, now), "assignment could not be delivered")];
          aborted := true;
          break;
        }
        jobs := jobs[run := Dispatched(jobs[run], c.agent, now)];
        if |passes| <= |others| {
          jobs, sockets := others[|passes| - 1].jobs, others[|passes| - 1].sockets;
        }
      }
    }
  }

  lemma CandidatesHaveRoom(sockets: seq<Attachment>, jobs: map<RunId, JobRow>)
    ensures forall c | IsCandidate(sockets, jobs, c) :: c.capacity > 0
  {
  }

  lemma OldestDispatchable(sockets: seq<Attachment>, jobs: map<RunId, JobRow>, queued: seq<RunId>, i: nat)
    requires i < |queued| && (forall run :: run in queued <==> Waits(jobs, run))
    requires ByAge(jobs, queued)
    requires forall run, c | run in queued[..i] :: !Dispatchable(sockets, jobs, run, c)
    ensures forall other, d | Dispatchable(sockets, jobs, other, d) :: jobs[queued[i]].createdAt <= jobs[other].createdAt
  {
    forall other, d | Dispatchable(sockets, jobs, other, d) ensures jobs[queued[i]].createdAt <= jobs[other].createdAt {
      var k :| 0 <= k < |queued| && queued[k] == other;
      assert other !in queued[..i] && forall m | 0 <= m < i :: queued[m] in queued[..i];
    }
  }

  /** Some socket of the agent announced at least that much parallelism. */
  predicate HasRoomFor(sockets: seq<Attachment>, agent: AgentId, n: nat) {
    exists a | a in sockets :: Eligible(a) && a.agent.value == agent && n <= a.hello.value.maxParallelism
  }

  /** No agent got more runs than it announced. */
  predicate Loads(sockets: seq<Attachment>, before: map<RunId, JobRow>, now: map<RunId, JobRow>) {
    forall a | a in sockets && Eligible(a) ::
      |LiveRuns(now, a.agent.value)| <= |LiveRuns(before, a.agent.value)| || HasRoomFor(sockets, a.agent.value, |LiveRuns(now, a.agent.value)|)
  }

  lemma AssignedFacts(sockets: seq<Attachment>, jobs: map<RunId, JobRow>, run: RunId, c: Candidate, now: int)
    requires Dispatchable(sockets, jobs, run, c)
    ensures run in jobs && Waits(jobs, run)
    ensures var after := jobs[run := Dispatched(jobs[run], c.agent, now)];
      && |WaitingRuns(after)| < |WaitingRuns(jobs)|
      && (forall r | r in after && Waits(after, r) :: Waits(jobs, r))
  {
    var after := jobs[run := Dispatched(jobs[run], c.agent, now)];
    hide Satisfies, IsCandidate;
    assert WaitingRuns(after) == WaitingRuns(jobs) - {run};
  }

  lemma LoadsKept(sockets: seq<Attachment>, before: map<RunId, JobRow>, jobs: map<RunId, JobRow>, run: RunId, c: Candidate, now: int)
    requires Dispatchable(sockets, jobs, run, c) && Loads(sockets, before, jobs)
    ensures Loads(sockets, before, jobs[run := Dispatched(jobs[run], c.agent, now)])
  {
    var after := jobs[run := Dispatched(jobs[run], c.agent, now)];
    hide Satisfies;
    assert LiveRuns(after, c.agent) == LiveRuns(jobs, c.agent) + {run};
    var a :| a in sockets && Offers(jobs, a, c);
    assert HasRoomFor(sockets, c.agent, |LiveRuns(after, c.agent)|);
    forall b | b in sockets && Eligible(b) && b.agent.value != c.agent ensures LiveRuns(after, b.agent.value) == LiveRuns(jobs, b.agent.value) {
    }
    hide HasRoomFor, LiveRuns;
  }

  lemma UndeliveredFacts(sockets: seq<Attachment>, before: map<RunId, JobRow>, jobs: map<RunId, JobRow>, run: RunId, c: Candidate, now: int)
    requires Dispatchable(sockets, jobs, run, c) && Loads(sockets, before, jobs)
    ensures Loads(sockets, before, jobs[run := Requeued(Dispatched(jobs[run], c.agent, now), "assignment could not be delivered")])
  {
    var after := jobs[run := Requeued(Dispatched(jobs[run], c.agent, now), "assignment could not be delivered")];
    hide Satisfies, IsCandidate;
    forall agent ensures LiveRuns(after, agent) == LiveRuns(jobs, agent) {
    }
    hide HasRoomFor, LiveRuns;
  }

  /** A pass is a dispatch event of the workspace, whose guard it satisfies. */
  lemma PassIsDispatchEvent(s: Server, sockets: seq<Attachment>, run: RunId, c: Candidate, now: int)
    requires Dispatchable(sockets, s.jobs, run, c) && c.capacity <= CapacityOf(s, c.agent)
    ensures run in s.jobs
    ensures Apply(s, Dispatch(run, c.agent, now)) == SetJob(s, run, Dispatched(s.jobs[run], c.agent, now))
  {
    var a :| a in sockets && Offers(s.jobs, a, c);
    hide Satisfies;
  }
}
