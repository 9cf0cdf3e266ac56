/** Job dependency graphs, what an acceptable one is, and the check that decides it. */
module Dependencies {
  import opened Basics

  /** Each job with the jobs it needs. */
  type Graph = map<string, seq<string>>

  predicate Edge(g: Graph, x: string, y: string) {
    x in g && y in g[x]
  }

  /** Consecutive jobs of a path need each other, left needing right. */
  predicate Path(g: Graph, p: seq<string>) {
    forall i | 0 <= i < |p| - 1 :: Edge(g, p[i], p[i + 1])
  }

  predicate PathFrom(g: Graph, p: seq<string>, x: string, y: string) {
    |p| >= 2 && Path(g, p) && p[0] == x && p[|p| - 1] == y
  }

  /** Job `x` needs job `y`, directly or through others. */
  ghost predicate Reach(g: Graph, x: string, y: string) {
    exists p :: PathFrom(g, p, x, y)
  }

  predicate Closed(g: Graph) {
    forall x, y | x in g && y in g[x] :: y in g
  }

  ghost predicate Acyclic(g: Graph) {
    forall x :: !Reach(g, x, x)
  }

  /** Every job of `order` comes after all it needs, apart from `done`. */
  predicate Fits(g: Graph, done: set<string>, order: seq<string>) {
    forall i | 0 <= i < |order| :: order[i] in g && forall y | y in g[order[i]] :: y in done || y in order[..i]
  }

  ghost predicate TopologicalOrder(g: Graph, order: seq<string>) {
    Fits(g, {}, order) && forall x :: x in order <==> x in g
  }

  /** What the check accepts. */
  ghost predicate Accepted(g: Graph) {
    exists order :: TopologicalOrder(g, order)
  }

  // ---------------------------------------------------------------- reachability

  lemma EdgeReaches(g: Graph, x: string, y: string)
    requires Edge(g, x, y)
    ensures Reach(g, x, y)
  {
    assert PathFrom(g, [x, y], x, y);
  }

  lemma ReachTrans(g: Graph, x: string, y: string, z: string)
    requires Reach(g, x, y) && Reach(g, y, z)
    ensures Reach(g, x, z)
  {
    var p :| PathFrom(g, p, x, y);
    var q :| PathFrom(g, q, y, z);
    var r := p + q[1..];
    forall i | 0 <= i < |r| - 1 ensures Edge(g, r[i], r[i + 1]) {
      if i >= |p| - 1 {
        assert r[i] == q[i - |p| + 1] && r[i + 1] == q[i - |p| + 2];
      }
    }
    assert PathFrom(g, r, x, z);
  }

  /** The rest of a path after its first edge. */
  lemma PathTail(g: Graph, p: seq<string>, x: string, y: string)
    requires PathFrom(g, p, x, y)
    ensures Edge(g, x, p[1]) && (|p| > 2 ==> PathFrom(g, p[1..], p[1], y)) && (|p| == 2 ==> p[1] == y)
  {
    forall i | 0 <= i < |p[1..]| - 1 ensures Edge(g, p[1..][i], p[1..][i + 1]) {
      assert Edge(g, p[i + 1], p[i + 2]);
    }
  }

  /** The least position of a job in an order that has it. */
  function Position(order: seq<string>, x: string): (n: nat)
    requires x in order
    ensures n < |order| && order[n] == x && x !in order[..n]
  {
    if order[0] == x then 0 else 1 + Position(order[1..], x)
  }

  lemma {:induction false} PathDescends(g: Graph, order: seq<string>, p: seq<string>, x: string, y: string)
    requires TopologicalOrder(g, order) && PathFrom(g, p, x, y)
    ensures x in order && y in order && Position(order, y) < Position(order, x)
    decreases |p|
  {
    PathTail(g, p, x, y);
    EarlierPosition(g, order, x, p[1]);
    if |p| > 2 {
      PathDescends(g, order, p[1..], p[1], y);
    }
  }

  lemma EarlierPosition(g: Graph, order: seq<string>, x: string, y: string)
    requires TopologicalOrder(g, order) && Edge(g, x, y)
    ensures x in order && y in order && Position(order, y) < Position(order, x)
  {
    var n := Position(order, x);
    var i :| 0 <= i < n && order[..n][i] == y;
    PositionIsFirst(order, y, i);
  }

  lemma {:induction false} PositionIsFirst(order: seq<string>, x: string, i: nat)
    requires i < |order| && order[i] == x
    ensures Position(order, x) <= i
  {
    if order[0] != x {
      PositionIsFirst(order[1..], x, i - 1);
    }
  }

  lemma OrderedIsAcyclic(g: Graph, order: seq<string>)
    requires TopologicalOrder(g, order)
    ensures Acyclic(g) && Closed(g)
  {
    forall x ensures !Reach(g, x, x) {
      if Reach(g, x, x) {
        var p :| PathFrom(g, p, x, x);
        PathDescends(g, order, p, x, x);
      }
    }
    forall x, y | x in g && y in g[x] ensures y in g {
      EarlierPosition(g, order, x, y);
    }
  }

  /** An order of a front part goes on with an order of the rest. */
  lemma FitsConcat(g: Graph, done: set<string>, a: seq<string>, b: seq<string>)
    requires Fits(g, done, a) && Fits(g, done + (set x | x in a), b)
    ensures Fits(g, done, a + b)
  {
    var c := a + b;
    forall i | 0 <= i < |c| ensures c[i] in g && forall y | y in g[c[i]] :: y in done || y in c[..i] {
      if i < |a| {
        assert c[..i] == a[..i];
      } else {
        assert c[..i] == a + b[..i - |a|];
      }
    }
  }

  // ---------------------------------------------------------------- the check

  datatype GraphError = UnknownNeed(job: string, need: string) | SelfNeed(job: string) | CyclicNeeds(job: string)

  datatype Mark = Visiting | Done

  /** The needs every entry of the graph names are entries, and none is the entry itself. */
  method CheckNeeds(g: Graph) returns (r: Result<(), GraphError>)
    ensures r.Ok? <==> Closed(g) && forall x | x in g :: !Edge(g, x, x)
    ensures match r
            case Ok(_) => true
            case Err(UnknownNeed(x, y)) => Edge(g, x, y) && y !in g
            case Err(SelfNeed(x)) => Edge(g, x, x)
            case Err(CyclicNeeds(x)) => false
  {
    var rest := g.Keys;
    while rest != {}
      invariant rest <= g.Keys
      invariant forall x, y | x in g && x !in rest && y in g[x] :: y in g && y != x
      decreases |rest|
    {
      var job :| job in rest;
      var i := 0;
      while i < |g[job]|
        invariant 0 <= i <= |g[job]|
        invariant forall y | y in g[job][..i] :: y in g && y != job
      {
        var need := g[job][i];
        if need !in g { return Err(UnknownNeed(job, need)); }
        if need == job { return Err(SelfNeed(job)); }
        assert g[job][..i + 1] == g[job][..i] + [need];
        i := i + 1;
      }
      assert g[job][..i] == g[job];
      rest := rest - {job};
    }
    return Ok(());
  }

  /** The recursive search with its shared table of marks. */
  class Visitor {
    const graph: Graph
    var states: map<string, Mark>
    /** The finished jobs, in the order they were finished. */
    ghost var order: seq<string>

    constructor (graph: Graph)
      ensures this.graph == graph && states == map[] && order == []
    {
      this.graph, states, order := graph, map[], [];
    }

    /** `stack` is the chain of jobs being visited, each needing the next. */
    ghost predicate Valid(stack: seq<string>)
      reads this
    {
      && states.Keys <= graph.Keys
      && Fits(graph, {}, order)
      && (forall x :: x in order <==> x in states && states[x] == Done)
      && (forall x :: x in stack <==> x in states && states[x] == Visiting)
      && Path(graph, stack)
    }

    method Start(job: string, ghost stack: seq<string>)
      requires Valid(stack) && job in graph && job !in states && Path(graph, stack + [job])
      modifies this`states
      ensures Valid(stack + [job]) && states == old(states)[job := Visiting]
    {
      hide Fits, Path;
      states := states[job := Visiting];
      forall x ensures x in stack + [job] <==> x in states && states[x] == Visiting {
        assert x in stack + [job] <==> x in stack || x == job;
      }
    }

    method Finish(job: string, ghost stack: seq<string>)
      requires Valid(stack + [job]) && job !in stack && Fits(graph, {}, order + [job])
      modifies this
      ensures Valid(stack) && order == old(order) + [job] && states == old(states)[job := Done]
    {
      assert stack == (stack + [job])[..|stack|];
      states := states[job := Done];
      order := order + [job];
      assert forall i | 0 <= i < |stack| - 1 :: Edge(graph, (stack + [job])[i], (stack + [job])[i + 1]);
      hide Fits;
      forall x ensures x in stack <==> x in states && states[x] == Visiting {
        assert x in stack + [job] <==> x in stack || x == job;
      }
    }

    method Visit(job: string, ghost stack: seq<string>) returns (r: Result<(), GraphError>)
      requires Closed(graph) && job in graph
      requires Valid(stack) && Path(graph, stack + [job])
      modifies this
      ensures old(states.Keys) <= states.Keys <= graph.Keys
      ensures r.Ok? ==> Valid(stack) && job in order && (forall x | x in old(order) :: x in order)
      ensures r.Err? ==> r.error.CyclicNeeds? && Reach(graph, r.error.job, r.error.job)
      decreases |graph.Keys - states.Keys|, 0
    {
      hide Fits, Path, Reach;
      if job in states {
        if states[job] == Visiting {
          CycleFound(graph, stack, job);
          return Err(CyclicNeeds(job));
        }
        return Ok(());
      }
      ghost var before := states.Keys;
      Start(job, stack);
      Shrinks(graph.Keys, before, states.Keys, job);
      r := VisitNeeds(job, stack);
      if r.Err? { return; }
      OrderExtends(graph, order, job);
      Finish(job, stack);
      return Ok(());
    }

    /** The loop over the needs of a job being visited. */
    method VisitNeeds(job: string, ghost stack: seq<string>) returns (r: Result<(), GraphError>)
      requires Closed(graph) && job in graph
      requires Valid(stack + [job])
      modifies this
      ensures old(states.Keys) <= states.Keys <= graph.Keys
      ensures r.Ok? ==> Valid(stack + [job]) && (forall y | y in graph[job] :: y in order) && (forall x | x in old(order) :: x in order)
      ensures r.Err? ==> r.error.CyclicNeeds? && Reach(graph, r.error.job, r.error.job)
      decreases |graph.Keys - states.Keys|, 1
    {
      hide Fits, Path, Reach, Closed;
      ghost var marked := states.Keys;
      var i := 0;
      while i < |graph[job]|
        invariant 0 <= i <= |graph[job]|
        invariant marked <= states.Keys <= graph.Keys
        invariant Valid(stack + [job])
        invariant forall y | y in graph[job][..i] :: y in order
        invariant forall x | x in old(order) :: x in order
      {
        var need := graph[job][i];
        NeedFollows(graph, stack, job, need);
        NotMore(graph.Keys, marked, states.Keys);
        r := Visit(need, stack + [job]);
        if r.Err? { return; }
        assert graph[job][..i + 1] == graph[job][..i] + [need];
        i := i + 1;
      }
      assert graph[job][..i] == graph[job];
      return Ok(());
    }
  }

  lemma NeedFollows(g: Graph, stack: seq<string>, job: string, need: string)
    requires Closed(g) && Edge(g, job, need) && Path(g, stack + [job])
    ensures need in g && Path(g, stack + [job] + [need])
  {
    ChainExtends(g, stack + [job], need);
  }

  lemma NotMore(all: set<string>, before: set<string>, now: set<string>)
    requires before <= now
    ensures |all - now| <= |all - before|
  {
    SubsetSize(all - now, all - before);
  }

  lemma Shrinks(all: set<string>, before: set<string>, now: set<string>, x: string)
    requires before <= now <= all && x in now && x !in before
    ensures |all - now| < |all - before|
  {
    assert all - before >= all - now + {x};
    SubsetSize(all - now + {x}, all - before);
  }

  lemma CycleFound(g: Graph, stack: seq<string>, job: string)
    requires Path(g, stack + [job]) && job in stack
    ensures Reach(g, job, job)
  {
    var k :| 0 <= k < |stack| && stack[k] == job;
    var p := (stack + [job])[k..];
    forall i | 0 <= i < |p| - 1 ensures Edge(g, p[i], p[i + 1]) {
      assert Edge(g, (stack + [job])[i + k], (stack + [job])[i + k + 1]);
    }
    assert PathFrom(g, p, job, job);
  }

  lemma ChainExtends(g: Graph, chain: seq<string>, need: string)
    requires Path(g, chain) && (chain != [] ==> Edge(g, chain[|chain| - 1], need))
    ensures Path(g, chain + [need])
  {
  }

  lemma OrderExtends(g: Graph, order: seq<string>, job: string)
    requires Fits(g, {}, order) && job in g && forall y | y in g[job] :: y in order
    ensures Fits(g, {}, order + [job])
  {
    assert Fits(g, {} + (set x | x in order), [job]);
    FitsConcat(g, {}, order, [job]);
  }

  /**
   * Accepts exactly the closed acyclic graphs; `order` then lists every job after all it needs, and
   * a cycle error names a job that needs itself through others.
   */
  method ValidateGraph(g: Graph) returns (r: Result<(), GraphError>, ghost order: seq<string>)
    ensures r.Ok? <==> Closed(g) && Acyclic(g)
    ensures r.Ok? <==> Accepted(g)
    ensures r.Ok? ==> TopologicalOrder(g, order)
    ensures match r
            case Ok(_) => true
            case Err(UnknownNeed(x, y)) => Edge(g, x, y) && y !in g
            case Err(SelfNeed(x)) => Edge(g, x, x)
            case Err(CyclicNeeds(x)) => Closed(g) && Reach(g, x, x)
  {
    order := [];
    AcceptedIsAcyclic(g);
    SelfNeedIsCycle(g);
    r := CheckNeeds(g);
    if r.Err? { return; }
    var visitor := new Visitor(g);
    var rest := g.Keys;
    while rest != {}
      invariant rest <= g.Keys && visitor.graph == g && visitor.Valid([])
      invariant forall x | x in g && x !in rest :: x in visitor.order
      decreases |rest|
    {
      var job :| job in rest;
      r := visitor.Visit(job, []);
      if r.Err? { return; }
      rest := rest - {job};
    }
    order := visitor.order;
    assert TopologicalOrder(g, order);
    hide TopologicalOrder, Acyclic, Closed;
    return Ok(()), order;
  }

  lemma SelfNeedIsCycle(g: Graph)
    ensures Acyclic(g) ==> forall x | x in g :: !Edge(g, x, x)
  {
    forall x | Edge(g, x, x) ensures Reach(g, x, x) {
      EdgeReaches(g, x, x);
    }
  }

  lemma AcceptedIsAcyclic(g: Graph)
    ensures Accepted(g) ==> Closed(g) && Acyclic(g)
  {
    if Accepted(g) {
      var order :| TopologicalOrder(g, order);
      OrderedIsAcyclic(g, order);
    }
  }
}
