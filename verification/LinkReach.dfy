/**
 * Which jobs of a linked plan transitively need which. An edge of the linked plan either stays
 * inside one invocation or projects to an edge of the calling plan, so that paths project to paths;
 * conversely every path of the calling plan runs through the invocations of the calls on it, and
 * every path of a called plan is repeated in each invocation.
 */
module LinkReach {
  import opened Basics
  import opened Names
  import opened Dependencies
  import opened Plans
  import opened Splicing
  import opened LinkOrder

  // ---------------------------------------------------------------- inside one invocation, on graphs

  lemma InJoinEach(v: string, ids: seq<string>, x: string)
    ensures x in ids ==> Join(v, x) in JoinEach(v, ids)
    ensures Join(v, x) in JoinEach(v, ids) ==> x in ids
    ensures forall y | y in JoinEach(v, ids) :: exists d :: d in ids && y == Join(v, d)
  {
    if x in ids {
      var i :| 0 <= i < |ids| && ids[i] == x;
      assert JoinEach(v, ids)[i] == Join(v, x);
    }
    forall y | y in JoinEach(v, ids) ensures exists d :: d in ids && y == Join(v, d) {
      var i :| 0 <= i < |ids| && JoinEach(v, ids)[i] == y;
      assert ids[i] in ids;
    }
    if Join(v, x) in JoinEach(v, ids) {
      var d :| d in ids && Join(v, x) == Join(v, d);
      JoinSplits(v, x, d);
    }
  }

  /** The edges of a called job: to the gate, and to exactly its own needs renamed. */
  lemma InnerEdges(g: Graph, needs: seq<string>, v: string, h: Graph, public: seq<string>, x: string, d: string)
    requires Hosts(g, needs, v, h, public) && x in h
    ensures Edge(g, Join(v, x), Join(v, "gate"))
    ensures d != "gate" ==> (Edge(g, Join(v, x), Join(v, d)) <==> Edge(h, x, d))
    ensures forall y | Edge(g, Join(v, x), y) :: y == Join(v, "gate") || exists e :: Edge(h, x, e) && y == Join(v, e)
  {
    InJoinEach(v, h[x], d);
    hide Join;
    if Join(v, d) == Join(v, "gate") { JoinSplits(v, d, "gate"); }
  }

  lemma {:induction false} InnerPathRises(g: Graph, needs: seq<string>, v: string, h: Graph, public: seq<string>, p: seq<string>, x: string, y: string)
    requires Hosts(g, needs, v, h, public) && Closed(h) && "gate" !in h && PathFrom(h, p, x, y)
    ensures Reach(g, Join(v, x), Join(v, y))
    decreases |p|
  {
    hide Join, Hosts;
    PathTail(h, p, x, y);
    InnerEdges(g, needs, v, h, public, x, p[1]);
    EdgeReaches(g, Join(v, x), Join(v, p[1]));
    if |p| > 2 {
      InnerPathRises(g, needs, v, h, public, p[1..], p[1], y);
      ReachTrans(g, Join(v, x), Join(v, p[1]), Join(v, y));
    }
  }

  /** A path between called jobs that never returns from the gate is a path of the called plan. */
  lemma {:induction false} InnerPathFalls(g: Graph, needs: seq<string>, v: string, h: Graph, public: seq<string>, p: seq<string>, x: string, y: string)
    requires Hosts(g, needs, v, h, public) && Closed(h) && x in h && y != "gate"
    requires PathFrom(g, p, Join(v, x), Join(v, y)) && !Reach(g, Join(v, "gate"), Join(v, y))
    ensures Reach(h, x, y)
    decreases |p|
  {
    hide Hosts;
    PathTail(g, p, Join(v, x), Join(v, y));
    InnerEdges(g, needs, v, h, public, x, "gate");
    if |p| == 2 {
      assert Join(v, y) != Join(v, "gate") by {
        if Join(v, y) == Join(v, "gate") { JoinSplits(v, y, "gate"); }
      }
      var e :| Edge(h, x, e) && Join(v, y) == Join(v, e);
      JoinSplits(v, y, e);
      EdgeReaches(h, x, y);
    } else {
      assert p[1] != Join(v, "gate") by {
        assert Reach(g, p[1], Join(v, y));
      }
      var e :| Edge(h, x, e) && p[1] == Join(v, e);
      InnerPathFalls(g, needs, v, h, public, p[1..], e, y);
      EdgeReaches(h, x, e);
      ReachTrans(h, x, e, y);
    }
  }

  // ---------------------------------------------------------------- projecting onto the caller

  /** An edge stays within the region of one caller job, or follows an edge of the caller. */
  predicate Projects(gp: Graph, a: string, b: string) {
    Head(a) == Head(b) || (Head(b) == b && Edge(gp, Head(a), b))
  }

  lemma CallerIdIsHead(jobs: seq<PlannedJob>, plans: map<string, Plan>, x: string)
    requires WellNamed(jobs, plans) && x in GraphOf(jobs)
    ensures Sealed(x) && Head(x) == x && !Namespaced(x)
  {
    HeadOfJoin(x, "");
    SealedIsPublic(x);
  }

  lemma NeedIsCallerId(jobs: seq<PlannedJob>, plans: map<string, Plan>, x: string, y: string)
    requires Linkable(jobs, plans) && Edge(GraphOf(jobs), x, y)
    ensures y in GraphOf(jobs) && Sealed(y) && Head(y) == y && !Namespaced(y)
  {
    LinkableParts(jobs, plans);
    AcceptedIsAcyclic(GraphOf(jobs));
    hide GraphOf, Linkable, Namespaced, Acyclic, WellNamed;
    CallerIdIsHead(jobs, plans, y);
  }

  /** The needs of a job, by origin. */
  lemma NeedsByOrigin(jobs: seq<PlannedJob>, plans: map<string, Plan>, o: Origin)
    requires Linkable(jobs, plans) && IsOrigin(jobs, plans, o)
    ensures NameOf(jobs, o) in GraphOf(Spliced(jobs, plans))
    ensures CallOf(o) in GraphOf(jobs)
    ensures var needs := GraphOf(Spliced(jobs, plans))[NameOf(jobs, o)];
      if o.CombinedAt? then needs == Invocations(o.call, Count(jobs, o.call))
      else if o.Inner? || o.ResultAt? then forall y | y in needs :: exists d :: y == Join(Inv(jobs, o.call, o.i), d)
      else needs == GraphOf(jobs)[CallOf(o)]
  {
    LinkableParts(jobs, plans);
    HeadOfName(jobs, plans, o);
    hide *;
    match o
    case Kept(j) => KeptNeeds(jobs, plans, j);
    case Template(c) => TemplateNeeds(jobs, plans, c);
    case CombinedAt(c) => CombinedNamed(jobs, plans, c);
    case GateOf(c, i) => PartNeeds(jobs, plans, o, c, i);
    case ResultAt(c, i) => PartNeeds(jobs, plans, o, c, i);
    case Inner(c, i, _) => PartNeeds(jobs, plans, o, c, i);
  }

  lemma KeptNeeds(jobs: seq<PlannedJob>, plans: map<string, Plan>, j: PlannedJob)
    requires Linkable(jobs, plans) && IsOrigin(jobs, plans, Kept(j))
    ensures NameOf(jobs, Kept(j)) == j.base && CallOf(Kept(j)) == j.base && j.base in GraphOf(jobs)
    ensures j.base in GraphOf(Spliced(jobs, plans)) && GraphOf(Spliced(jobs, plans))[j.base] == GraphOf(jobs)[j.base]
  {
    assert j in jobs && j.base !in plans;
    assert NameOf(jobs, Kept(j)) == j.base && CallOf(Kept(j)) == j.base;
    hide *;
    KeptKeepsNeeds(jobs, plans, j);
  }

  lemma TemplateNeeds(jobs: seq<PlannedJob>, plans: map<string, Plan>, c: string)
    requires Linkable(jobs, plans) && IsOrigin(jobs, plans, Template(c))
    ensures NameOf(jobs, Template(c)) == c && CallOf(Template(c)) == c && c in GraphOf(jobs)
    ensures c in GraphOf(Spliced(jobs, plans)) && GraphOf(Spliced(jobs, plans))[c] == GraphOf(jobs)[c]
  {
    assert c in plans && !Static(jobs, plans, c);
    assert NameOf(jobs, Template(c)) == c && CallOf(Template(c)) == c;
    hide *;
    TemplateKeepsNeeds(jobs, plans, c);
  }

  lemma CombinedNamed(jobs: seq<PlannedJob>, plans: map<string, Plan>, c: string)
    requires Linkable(jobs, plans) && IsOrigin(jobs, plans, CombinedAt(c))
    ensures NameOf(jobs, CombinedAt(c)) == c && CallOf(CombinedAt(c)) == c && c in GraphOf(jobs)
    ensures c in GraphOf(Spliced(jobs, plans)) && GraphOf(Spliced(jobs, plans))[c] == Invocations(c, Count(jobs, c))
  {
    LinkableParts(jobs, plans);
    HeadOfName(jobs, plans, CombinedAt(c));
    assert Static(jobs, plans, c) && Count(jobs, c) != 1;
    assert NameOf(jobs, CombinedAt(c)) == c && CallOf(CombinedAt(c)) == c;
    assert c in GraphOf(jobs);
    hide *;
    CombinedNeeds(jobs, plans, c);
  }

  lemma PartNeeds(jobs: seq<PlannedJob>, plans: map<string, Plan>, o: Origin, c: string, i: nat)
    requires Linkable(jobs, plans) && IsOrigin(jobs, plans, o)
    requires o == GateOf(c, i) || o == ResultAt(c, i) || (o.Inner? && o.call == c && o.i == i)
    ensures c in GraphOf(jobs) && CallOf(o) == c && NameOf(jobs, o) in GraphOf(Spliced(jobs, plans))
    ensures var needs := GraphOf(Spliced(jobs, plans))[NameOf(jobs, o)];
            if o.GateOf? then needs == GraphOf(jobs)[c] else forall y | y in needs :: exists d :: y == Join(Inv(jobs, c, i), d)
  {
    PartIsStatic(jobs, plans, o, c, i);
    hide *;
    HostsInvocation(jobs, plans, c, i);
    HostedNeeds(jobs, plans, o, c, i, GraphOf(Spliced(jobs, plans)), GraphOf(jobs)[c]);
  }

  lemma PartIsStatic(jobs: seq<PlannedJob>, plans: map<string, Plan>, o: Origin, c: string, i: nat)
    requires IsOrigin(jobs, plans, o)
    requires o == GateOf(c, i) || o == ResultAt(c, i) || (o.Inner? && o.call == c && o.i == i)
    ensures Static(jobs, plans, c) && i < Count(jobs, c) && CallOf(o) == c
    ensures o.Inner? ==> o.job in plans[c].jobs
  {
    hide AnyDynamic, PlaceholdersOf;
  }

  lemma HostedNeeds(jobs: seq<PlannedJob>, plans: map<string, Plan>, o: Origin, c: string, i: nat, g: Graph, needs: seq<string>)
    requires c in plans && (o == GateOf(c, i) || o == ResultAt(c, i) || (o.Inner? && o.call == c && o.i == i && o.job in plans[c].jobs))
    requires Hosts(g, needs, Inv(jobs, c, i), GraphOf(plans[c].jobs), PublicIds(plans[c].jobs))
    ensures NameOf(jobs, o) in g
    ensures if o.GateOf? then g[NameOf(jobs, o)] == needs else forall y | y in g[NameOf(jobs, o)] :: exists d :: y == Join(Inv(jobs, c, i), d)
  {
    var v, h := Inv(jobs, c, i), GraphOf(plans[c].jobs);
    if o.Inner? {
      assert o.job.base in h;
      InJoinEach(v, h[o.job.base], "");
    } else {
      InJoinEach(v, PublicIds(plans[c].jobs), "");
    }
    hide Join, Invocation, GraphOf, PublicIds, PlaceholdersOf, JoinEach;
  }

  /** Where one need of a job points. */
  lemma NeedHead(jobs: seq<PlannedJob>, o: Origin, needs: seq<string>, b: string)
    requires Sealed(CallOf(o)) && CallOf(o) in GraphOf(jobs) && b in needs
    requires if o.CombinedAt? then needs == Invocations(o.call, Count(jobs, o.call))
             else if o.Inner? || o.ResultAt? then forall y | y in needs :: exists d :: y == Join(Inv(jobs, o.call, o.i), d)
             else needs == GraphOf(jobs)[CallOf(o)]
    ensures if o.CombinedAt? || o.Inner? || o.ResultAt? then Head(b) == CallOf(o) else Edge(GraphOf(jobs), CallOf(o), b)
  {
    hide GraphOf, Head, Join, Invocation, PlaceholdersOf;
    var c := CallOf(o);
    if o.CombinedAt? {
      var k :| 0 <= k < Count(jobs, c) && b == Invocation(c, Count(jobs, c), k);
      HeadOfInvocation(c, Count(jobs, c), k, "");
    } else if o.Inner? || o.ResultAt? {
      var d :| b == Join(Inv(jobs, c, o.i), d);
      HeadOfInv(jobs, c, o.i, d);
    }
  }

  lemma OriginProjects(jobs: seq<PlannedJob>, plans: map<string, Plan>, o: Origin, b: string)
    requires Linkable(jobs, plans) && IsOrigin(jobs, plans, o)
    requires Edge(GraphOf(Spliced(jobs, plans)), NameOf(jobs, o), b)
    ensures Projects(GraphOf(jobs), NameOf(jobs, o), b)
  {
    LinkableParts(jobs, plans);
    EdgeIsNeed(GraphOf(Spliced(jobs, plans)), NameOf(jobs, o), b);
    hide *;
    NeedsByOrigin(jobs, plans, o);
    HeadOfName(jobs, plans, o);
    NeedHead(jobs, o, GraphOf(Spliced(jobs, plans))[NameOf(jobs, o)], b);
    if Edge(GraphOf(jobs), CallOf(o), b) {
      NeedIsCallerId(jobs, plans, CallOf(o), b);
    }
    ProjectsEither(GraphOf(jobs), NameOf(jobs, o), b, CallOf(o));
  }

  lemma EdgeIsNeed(g: Graph, a: string, b: string)
    ensures Edge(g, a, b) <==> a in g && b in g[a]
  {
  }

  lemma ProjectsEither(gp: Graph, a: string, b: string, c: string)
    requires Head(a) == c && (Head(b) == c || (Edge(gp, c, b) && Head(b) == b))
    ensures Projects(gp, a, b)
  {
    hide Head;
  }

  lemma EdgeProjects(jobs: seq<PlannedJob>, plans: map<string, Plan>, a: string, b: string)
    requires Linkable(jobs, plans) && Edge(GraphOf(Spliced(jobs, plans)), a, b)
    ensures Projects(GraphOf(jobs), a, b)
  {
    LinkableParts(jobs, plans);
    EdgeIsNeed(GraphOf(Spliced(jobs, plans)), a, b);
    hide *;
    NodeOrigin(jobs, plans, a);
    var o :| IsOrigin(jobs, plans, o) && NameOf(jobs, o) == a;
    OriginProjects(jobs, plans, o, b);
  }

  lemma HeadOfInv(jobs: seq<PlannedJob>, c: string, i: nat, d: string)
    requires Sealed(c)
    ensures Head(Join(Inv(jobs, c, i), d)) == c && Head(Inv(jobs, c, i)) == c
  {
    HeadOfInvocation(c, Count(jobs, c), i, d);
  }

  lemma {:induction false} PathProjects(jobs: seq<PlannedJob>, plans: map<string, Plan>, p: seq<string>, a: string, b: string)
    requires Linkable(jobs, plans) && PathFrom(GraphOf(Spliced(jobs, plans)), p, a, b)
    ensures Head(a) == Head(b) || Reach(GraphOf(jobs), Head(a), Head(b))
    decreases |p|
  {
    LinkableParts(jobs, plans);
    hide Linkable, GraphOf, Spliced, Head, Reach;
    PathTail(GraphOf(Spliced(jobs, plans)), p, a, b);
    EdgeProjects(jobs, plans, a, p[1]);
    if Head(a) != Head(p[1]) {
      EdgeReaches(GraphOf(jobs), Head(a), Head(p[1]));
    }
    if |p| > 2 {
      PathProjects(jobs, plans, p[1..], p[1], b);
      if Head(a) != Head(p[1]) && Head(p[1]) != Head(b) {
        ReachTrans(GraphOf(jobs), Head(a), Head(p[1]), Head(b));
      }
    }
  }

  lemma ReachProjects(jobs: seq<PlannedJob>, plans: map<string, Plan>, a: string, b: string)
    requires Linkable(jobs, plans) && Reach(GraphOf(Spliced(jobs, plans)), a, b)
    ensures Head(a) == Head(b) || Reach(GraphOf(jobs), Head(a), Head(b))
  {
    LinkableParts(jobs, plans);
    hide Linkable, GraphOf, Spliced, Head;
    var p :| PathFrom(GraphOf(Spliced(jobs, plans)), p, a, b);
    PathProjects(jobs, plans, p, a, b);
  }

  // ---------------------------------------------------------------- one invocation: gate below, result above

  /** A called plan has a job its caller can name, and every job is below one. */
  lemma PublicAbove(called: Plan, x: string)
    requires Rooted(called.jobs) && x in GraphOf(called.jobs)
    ensures Head(x) in PublicIds(called.jobs) && (Head(x) == x || Reach(GraphOf(called.jobs), Head(x), x))
  {
    hide GraphOf, Head, Namespaced, Reach, Bases;
    assert RootedAt(called.jobs, x);
    assert !Namespaced(Head(x));
  }

  /** The result needs, through others, every called job. */
  lemma ResultAboveInner(g: Graph, needs: seq<string>, v: string, called: Plan, x: string)
    requires Hosts(g, needs, v, GraphOf(called.jobs), PublicIds(called.jobs)) && Rooted(called.jobs)
    requires Closed(GraphOf(called.jobs)) && "gate" !in GraphOf(called.jobs) && x in GraphOf(called.jobs)
    ensures Reach(g, v, Join(v, x))
  {
    var h, public := GraphOf(called.jobs), PublicIds(called.jobs);
    PublicAbove(called, x);
    ResultEdge(g, needs, v, h, public, Head(x));
    EdgeReaches(g, v, Join(v, Head(x)));
    if Head(x) != x {
      hide Hosts, GraphOf, Head, PublicIds, Join, Rooted;
      var p :| PathFrom(h, p, Head(x), x);
      InnerPathRises(g, needs, v, h, public, p, Head(x), x);
      ReachTrans(g, v, Join(v, Head(x)), Join(v, x));
    }
  }

  lemma ResultEdge(g: Graph, needs: seq<string>, v: string, h: Graph, public: seq<string>, x: string)
    requires Hosts(g, needs, v, h, public)
    ensures Edge(g, v, Join(v, x)) <==> x in public
  {
    InJoinEach(v, public, x);
    hide Join;
  }

  /** The result needs, through others, all the gate needs. */
  lemma ResultAboveCallerNeed(g: Graph, needs: seq<string>, v: string, called: Plan, x: string, y: string)
    requires Hosts(g, needs, v, GraphOf(called.jobs), PublicIds(called.jobs)) && Rooted(called.jobs)
    requires Closed(GraphOf(called.jobs)) && "gate" !in GraphOf(called.jobs) && x in GraphOf(called.jobs)
    ensures Reach(g, v, Join(v, "gate"))
    ensures y in needs ==> Reach(g, v, y)
  {
    ResultAboveInner(g, needs, v, called, x);
    InnerEdges(g, needs, v, GraphOf(called.jobs), PublicIds(called.jobs), x, "gate");
    EdgeReaches(g, Join(v, x), Join(v, "gate"));
    ReachTrans(g, v, Join(v, x), Join(v, "gate"));
    if y in needs {
      EdgeReaches(g, Join(v, "gate"), y);
      hide Join, GraphOf, PublicIds, Rooted;
      ReachTrans(g, v, Join(v, "gate"), y);
    }
  }

  // ---------------------------------------------------------------- the called plan inside the linked plan

  /** All that is known of one invocation. */
  lemma InvocationFacts(jobs: seq<PlannedJob>, plans: map<string, Plan>, c: string, i: nat)
    requires Linkable(jobs, plans) && Static(jobs, plans, c) && i < Count(jobs, c)
    ensures Expandable(jobs, plans) && c in plans && c in GraphOf(jobs) && Rooted(plans[c].jobs)
    ensures Hosts(GraphOf(Spliced(jobs, plans)), GraphOf(jobs)[c], Inv(jobs, c, i), GraphOf(plans[c].jobs), PublicIds(plans[c].jobs))
    ensures Closed(GraphOf(plans[c].jobs)) && Acyclic(GraphOf(plans[c].jobs)) && "gate" !in GraphOf(plans[c].jobs)
    ensures plans[c].jobs != [] && plans[c].jobs[0].base in GraphOf(plans[c].jobs)
  {
    CalledPlan(jobs, plans, c);
    CalledNames(jobs, plans, c);
    hide *;
    HostsInvocation(jobs, plans, c, i);
    AcceptedIsAcyclic(GraphOf(plans[c].jobs));
  }

  lemma CalledNames(jobs: seq<PlannedJob>, plans: map<string, Plan>, c: string)
    requires Linkable(jobs, plans) && c in plans
    ensures "gate" !in GraphOf(plans[c].jobs)
    ensures plans[c].jobs != [] && plans[c].jobs[0].base in GraphOf(plans[c].jobs)
  {
    hide PlanOk, Expandable;
    assert plans[c].jobs[0] in plans[c].jobs;
  }

  /** Every expanded job needs its gate, and its result needs it: for every invocation and every called job. */
  lemma GateBelowResultAbove(jobs: seq<PlannedJob>, plans: map<string, Plan>, c: string, i: nat, x: string)
    requires Linkable(jobs, plans) && Static(jobs, plans, c) && i < Count(jobs, c) && x in GraphOf(plans[c].jobs)
    ensures var g, v := GraphOf(Spliced(jobs, plans)), Inv(jobs, c, i);
            Edge(g, Join(v, x), Join(v, "gate")) && Reach(g, v, Join(v, x)) && Reach(g, v, Join(v, "gate"))
  {
    hide *;
    InvocationFacts(jobs, plans, c, i);
    var g, v, called := GraphOf(Spliced(jobs, plans)), Inv(jobs, c, i), plans[c];
    InnerEdges(g, GraphOf(jobs)[c], v, GraphOf(called.jobs), PublicIds(called.jobs), x, "gate");
    ResultAboveInner(g, GraphOf(jobs)[c], v, called, x);
    ResultAboveCallerNeed(g, GraphOf(jobs)[c], v, called, x, "");
  }

  /** The gate starts when the call could: it needs exactly what the call needs. */
  lemma GateNeedsCall(jobs: seq<PlannedJob>, plans: map<string, Plan>, c: string, i: nat, y: string)
    requires Linkable(jobs, plans) && Static(jobs, plans, c) && i < Count(jobs, c)
    ensures Edge(GraphOf(Spliced(jobs, plans)), Join(Inv(jobs, c, i), "gate"), y) <==> Edge(GraphOf(jobs), c, y)
  {
    hide *;
    InvocationFacts(jobs, plans, c, i);
    GateEdge(GraphOf(Spliced(jobs, plans)), GraphOf(jobs), c, Inv(jobs, c, i), GraphOf(plans[c].jobs), PublicIds(plans[c].jobs), y);
  }

  lemma GateEdge(g: Graph, gp: Graph, c: string, v: string, h: Graph, public: seq<string>, y: string)
    requires c in gp && Hosts(g, gp[c], v, h, public)
    ensures Edge(g, Join(v, "gate"), y) <==> Edge(gp, c, y)
  {
  }

  /** Nothing the gate waits for waits for a job behind the gate. */
  lemma GateNeverReturns(jobs: seq<PlannedJob>, plans: map<string, Plan>, c: string, i: nat, x: string)
    requires Linkable(jobs, plans) && Static(jobs, plans, c) && i < Count(jobs, c)
    ensures !Reach(GraphOf(Spliced(jobs, plans)), Join(Inv(jobs, c, i), "gate"), Join(Inv(jobs, c, i), x))
  {
    LinkableParts(jobs, plans);
    AcceptedIsAcyclic(GraphOf(jobs));
    var g, gate, inside := GraphOf(Spliced(jobs, plans)), Join(Inv(jobs, c, i), "gate"), Join(Inv(jobs, c, i), x);
    CallIsCallerId(jobs, plans, c);
    hide Linkable, PlanOk, GraphOf, Spliced, Join, Inv, WellNamed, Expandable, Head, Reach, Static, Namespaced;
    if Reach(g, gate, inside) {
      FirstEdge(g, gate, inside);
      var d :| Edge(g, gate, d) && (d == inside || Reach(g, d, inside));
      GateNeedsCall(jobs, plans, c, i, d);
      NeedIsCallerId(jobs, plans, c, d);
      HeadOfInv(jobs, c, i, x);
      EdgeReaches(GraphOf(jobs), c, d);
      if Reach(g, d, inside) {
        ReachProjects(jobs, plans, d, inside);
        if d != c {
          ReachTrans(GraphOf(jobs), c, d, c);
        }
      }
    }
  }

  lemma FirstEdge(g: Graph, x: string, y: string)
    requires Reach(g, x, y)
    ensures exists d :: Edge(g, x, d) && (d == y || Reach(g, d, y))
  {
    var p :| PathFrom(g, p, x, y);
    PathTail(g, p, x, y);
  }

  lemma CallIsCallerId(jobs: seq<PlannedJob>, plans: map<string, Plan>, c: string)
    requires Linkable(jobs, plans) && Static(jobs, plans, c)
    ensures c in GraphOf(jobs) && Sealed(c) && Head(c) == c && !Namespaced(c)
  {
    LinkableParts(jobs, plans);
    hide Linkable, PlanOk, WellNamed, Head, Namespaced, Sealed;
    CallerIdIsHead(jobs, plans, c);
  }

  /** Order inside an invocation is exactly the order of the called plan. */
  lemma InnerOrderExact(jobs: seq<PlannedJob>, plans: map<string, Plan>, c: string, i: nat, x: string, y: string)
    requires Linkable(jobs, plans) && Static(jobs, plans, c) && i < Count(jobs, c)
    requires x in GraphOf(plans[c].jobs) && y in GraphOf(plans[c].jobs)
    ensures var g, v := GraphOf(Spliced(jobs, plans)), Inv(jobs, c, i);
            Reach(g, Join(v, x), Join(v, y)) <==> Reach(GraphOf(plans[c].jobs), x, y)
  {
    hide *;
    InvocationFacts(jobs, plans, c, i);
    GateNeverReturns(jobs, plans, c, i, y);
    InnerReach(GraphOf(Spliced(jobs, plans)), GraphOf(jobs)[c], Inv(jobs, c, i), GraphOf(plans[c].jobs), PublicIds(plans[c].jobs), x, y);
  }

  lemma InnerReach(g: Graph, needs: seq<string>, v: string, h: Graph, public: seq<string>, x: string, y: string)
    requires Hosts(g, needs, v, h, public) && Closed(h) && "gate" !in h && x in h && y in h
    requires !Reach(g, Join(v, "gate"), Join(v, y))
    ensures Reach(g, Join(v, x), Join(v, y)) <==> Reach(h, x, y)
  {
    hide Hosts, Join, Closed;
    if Reach(h, x, y) {
      var p :| PathFrom(h, p, x, y);
      InnerPathRises(g, needs, v, h, public, p, x, y);
    }
    if Reach(g, Join(v, x), Join(v, y)) {
      var p :| PathFrom(g, p, Join(v, x), Join(v, y));
      InnerPathFalls(g, needs, v, h, public, p, x, y);
    }
  }

  // ---------------------------------------------------------------- the caller's order

  /** A call needs, through its expansion, whatever its gate needs. */
  lemma CallReachesNeed(jobs: seq<PlannedJob>, plans: map<string, Plan>, c: string, y: string)
    requires Linkable(jobs, plans) && Static(jobs, plans, c) && 0 < Count(jobs, c) && Edge(GraphOf(jobs), c, y)
    ensures Reach(GraphOf(Spliced(jobs, plans)), c, y)
  {
    hide *;
    InvocationFacts(jobs, plans, c, 0);
    var g, v, called := GraphOf(Spliced(jobs, plans)), Inv(jobs, c, 0), plans[c];
    EdgeIsNeed(GraphOf(jobs), c, y);
    ResultAboveCallerNeed(g, GraphOf(jobs)[c], v, called, called.jobs[0].base, y);
    CallAboveInvocation(jobs, plans, c, 0);
    if v != c {
      ReachTrans(g, c, v, y);
    }
  }

  lemma CallAboveInvocation(jobs: seq<PlannedJob>, plans: map<string, Plan>, c: string, i: nat)
    requires Linkable(jobs, plans) && Static(jobs, plans, c) && i < Count(jobs, c)
    ensures Inv(jobs, c, i) == c || Reach(GraphOf(Spliced(jobs, plans)), c, Inv(jobs, c, i))
  {
    LinkableParts(jobs, plans);
    hide Linkable, GraphOf, Spliced, PlaceholdersOf, Join, Reach;
    if Count(jobs, c) != 1 {
      CombinedNeeds(jobs, plans, c);
      assert Invocations(c, Count(jobs, c))[i] == Inv(jobs, c, i);
      EdgeReaches(GraphOf(Spliced(jobs, plans)), c, Inv(jobs, c, i));
    }
  }

  lemma CallerEdgeKept(jobs: seq<PlannedJob>, plans: map<string, Plan>, x: string, y: string)
    requires Linkable(jobs, plans) && Edge(GraphOf(jobs), x, y)
    ensures Reach(GraphOf(Spliced(jobs, plans)), x, y)
  {
    LinkableParts(jobs, plans);
    EdgeIsNeed(GraphOf(jobs), x, y);
    if Static(jobs, plans, x) {
      HasPlaceholder(jobs, x);
      hide *;
      CallReachesNeed(jobs, plans, x, y);
    } else {
      hide *;
      OthersKeepNeeds(jobs, plans, x);
      EdgeIsNeed(GraphOf(Spliced(jobs, plans)), x, y);
      EdgeReaches(GraphOf(Spliced(jobs, plans)), x, y);
    }
  }

  lemma {:induction false} CallerPathKept(jobs: seq<PlannedJob>, plans: map<string, Plan>, p: seq<string>, x: string, y: string)
    requires Linkable(jobs, plans) && PathFrom(GraphOf(jobs), p, x, y)
    ensures Reach(GraphOf(Spliced(jobs, plans)), x, y)
    decreases |p|
  {
    LinkableParts(jobs, plans);
    hide Linkable, GraphOf, Spliced, Reach;
    PathTail(GraphOf(jobs), p, x, y);
    CallerEdgeKept(jobs, plans, x, p[1]);
    if |p| > 2 {
      CallerPathKept(jobs, plans, p[1..], p[1], y);
      ReachTrans(GraphOf(Spliced(jobs, plans)), x, p[1], y);
    }
  }

  /** Among the caller's own jobs, linking neither loses nor adds a dependency. */
  lemma CallerOrderExact(jobs: seq<PlannedJob>, plans: map<string, Plan>, x: string, y: string)
    requires Linkable(jobs, plans) && x in GraphOf(jobs) && y in GraphOf(jobs)
    ensures Reach(GraphOf(Spliced(jobs, plans)), x, y) <==> Reach(GraphOf(jobs), x, y)
  {
    LinkableParts(jobs, plans);
    CallerIdIsHead(jobs, plans, x);
    CallerIdIsHead(jobs, plans, y);
    SplicedAccepted(jobs, plans);
    AcceptedIsAcyclic(GraphOf(Spliced(jobs, plans)));
    hide Linkable, GraphOf, Spliced, Head, Namespaced, PathFrom, WellNamed, Rooted;
    if Reach(GraphOf(jobs), x, y) {
      var p :| PathFrom(GraphOf(jobs), p, x, y);
      CallerPathKept(jobs, plans, p, x, y);
    }
    if Reach(GraphOf(Spliced(jobs, plans)), x, y) {
      ReachProjects(jobs, plans, x, y);
    }
  }
}
