/**
 * Linking keeps plans closed and acyclic, and keeps exactly the dependency order it was given.
 * The proof lists the linked jobs region by region, in the topological order of the calling plan,
 * where a call's region is, for each invocation, its gate, the called jobs in the order of the
 * called plan, and its result, followed by the combined result of all its invocations.
 */
module LinkOrder {
  import opened Basics
  import opened Names
  import opened Dependencies
  import opened Plans
  import opened Splicing

  /** Instances of one job share their needs. */
  predicate SameNeeds(jobs: seq<PlannedJob>) {
    forall j, k | j in jobs && k in jobs && j.base == k.base :: j.needs == k.needs
  }

  /** An id is a caller job's own, or extends one that transitively needs it. */
  ghost predicate RootedAt(jobs: seq<PlannedJob>, x: string) {
    || Head(x) == x
    || (Namespaced(x) && Head(x) in Bases(jobs) && Reach(GraphOf(jobs), Head(x), x))
  }

  ghost predicate Rooted(jobs: seq<PlannedJob>) {
    forall x | x in Bases(jobs) :: RootedAt(jobs, x)
  }

  /** What every plan the compiler returns satisfies. */
  ghost predicate PlanOk(jobs: seq<PlannedJob>) {
    RefersWithin(jobs) && SameNeeds(jobs) && Accepted(GraphOf(jobs)) && Rooted(jobs)
  }

  /** One level of linking: a sound caller plan, and sound nonempty called plans for its calls. */
  ghost predicate Linkable(jobs: seq<PlannedJob>, plans: map<string, Plan>) {
    && Expandable(jobs, plans) && WellNamed(jobs, plans) && PlanOk(jobs)
    && forall c | c in plans :: PlanOk(plans[c].jobs) && plans[c].jobs != []
  }

  // ---------------------------------------------------------------- edges by origin

  lemma {:induction false} GraphHasNeeds(jobs: seq<PlannedJob>, j: PlannedJob)
    requires SameNeeds(jobs) && j in jobs
    ensures j.base in GraphOf(jobs) && GraphOf(jobs)[j.base] == j.needs
  {
    var front, last := jobs[..|jobs| - 1], jobs[|jobs| - 1];
    assert jobs == front + [last];
    assert SameNeeds(front) by {
      assert forall k | k in front :: k in jobs;
    }
    if last.base in GraphOf(front) {
      var k :| k in front && k.base == last.base;
      GraphHasNeeds(front, k);
      if j in front { GraphHasNeeds(front, j); }
    } else if j in front {
      GraphHasNeeds(front, j);
    }
  }

  lemma SpotNeeds(jobs: seq<PlannedJob>, plans: map<string, Plan>, o: Origin, u: Origin)
    requires Linkable(jobs, plans) && IsOrigin(jobs, plans, o) && IsOrigin(jobs, plans, u) && SameSpot(o, u)
    ensures Made(jobs, plans, o).needs == Made(jobs, plans, u).needs
  {
    hide WellNamed, RefersWithin, Accepted, Rooted;
    if o.Inner? {
      assert PlanOk(plans[o.call].jobs);
    }
  }

  lemma SplicedSameNeeds(jobs: seq<PlannedJob>, plans: map<string, Plan>)
    requires Linkable(jobs, plans)
    ensures SameNeeds(Spliced(jobs, plans))
  {
    hide Made, Spliced, IsOrigin, NameOf, SameSpot, PlanOk, WellNamed, Expandable;
    forall j, k | j in Spliced(jobs, plans) && k in Spliced(jobs, plans) && j.base == k.base ensures j.needs == k.needs {
      OriginExists(jobs, plans, j);
      OriginExists(jobs, plans, k);
      var o :| IsOrigin(jobs, plans, o) && Made(jobs, plans, o) == j;
      var u :| IsOrigin(jobs, plans, u) && Made(jobs, plans, u) == k;
      MadeHasName(jobs, plans, o);
      MadeHasName(jobs, plans, u);
      NamesAreUnique(jobs, plans, o, u);
      SpotNeeds(jobs, plans, o, u);
    }
  }

  /** The linked graph, read off the origins. */
  lemma NodeNeeds(jobs: seq<PlannedJob>, plans: map<string, Plan>, o: Origin)
    requires Linkable(jobs, plans) && IsOrigin(jobs, plans, o)
    ensures NameOf(jobs, o) in GraphOf(Spliced(jobs, plans))
    ensures GraphOf(Spliced(jobs, plans))[NameOf(jobs, o)] == Made(jobs, plans, o).needs
  {
    hide Made, Spliced, IsOrigin, NameOf, PlanOk, WellNamed, Expandable;
    SplicedSameNeeds(jobs, plans);
    OriginMakes(jobs, plans, o);
    MadeHasName(jobs, plans, o);
    GraphHasNeeds(Spliced(jobs, plans), Made(jobs, plans, o));
  }

  lemma NodeOrigin(jobs: seq<PlannedJob>, plans: map<string, Plan>, x: string)
    requires Linkable(jobs, plans) && x in GraphOf(Spliced(jobs, plans))
    ensures exists o :: IsOrigin(jobs, plans, o) && NameOf(jobs, o) == x
  {
    hide Made, Spliced, IsOrigin, NameOf, PlanOk, WellNamed, Expandable;
    var j :| j in Spliced(jobs, plans) && j.base == x;
    OriginExists(jobs, plans, j);
    var o :| IsOrigin(jobs, plans, o) && Made(jobs, plans, o) == j;
    MadeHasName(jobs, plans, o);
  }

  // ---------------------------------------------------------------- one invocation inside the linked graph

  /**
   * Graph `g` holds invocation `v` of a call with needs `needs`: its gate, the called jobs of graph
   * `h`, and its result.
   */
  predicate Hosts(g: Graph, needs: seq<string>, v: string, h: Graph, public: seq<string>) {
    && Join(v, "gate") in g && g[Join(v, "gate")] == needs
    && v in g && g[v] == JoinEach(v, public)
    && forall x | x in h :: Join(v, x) in g && g[Join(v, x)] == JoinEach(v, h[x]) + [Join(v, "gate")]
  }

  lemma MadeNeeds(jobs: seq<PlannedJob>, plans: map<string, Plan>, c: string, i: nat)
    requires Expandable(jobs, plans) && Static(jobs, plans, c) && i < Count(jobs, c)
    ensures Made(jobs, plans, GateOf(c, i)).needs == PlaceholdersOf(jobs, c)[i].needs
    ensures Made(jobs, plans, ResultAt(c, i)).needs == JoinEach(Inv(jobs, c, i), PublicIds(plans[c].jobs))
    ensures forall q | q in plans[c].jobs ::
      Made(jobs, plans, Inner(c, i, q)).needs == JoinEach(Inv(jobs, c, i), q.needs) + [Join(Inv(jobs, c, i), "gate")]
  {
    hide PublicIds, Join, Invocation, PublicAliases, ScopeNames, OwnScopes, JoinScopes, Intersect, JoinKind, AnyDynamic;
  }

  lemma PlaceholderNeeds(jobs: seq<PlannedJob>, c: string, i: nat)
    requires SameNeeds(jobs) && i < Count(jobs, c)
    ensures c in GraphOf(jobs) && GraphOf(jobs)[c] == PlaceholdersOf(jobs, c)[i].needs
  {
    var p := PlaceholdersOf(jobs, c)[i];
    assert p in PlaceholdersOf(jobs, c);
    GraphHasNeeds(jobs, p);
  }

  lemma LinkableParts(jobs: seq<PlannedJob>, plans: map<string, Plan>)
    requires Linkable(jobs, plans)
    ensures Expandable(jobs, plans) && WellNamed(jobs, plans) && SameNeeds(jobs) && Accepted(GraphOf(jobs)) && Rooted(jobs)
    ensures forall c | c in plans :: PlanOk(plans[c].jobs) && SameNeeds(plans[c].jobs) && Accepted(GraphOf(plans[c].jobs))
  {
  }

  lemma InvocationOrigins(jobs: seq<PlannedJob>, plans: map<string, Plan>, c: string, i: nat)
    requires Static(jobs, plans, c) && i < Count(jobs, c)
    ensures c in plans
    ensures IsOrigin(jobs, plans, GateOf(c, i)) && NameOf(jobs, GateOf(c, i)) == Join(Inv(jobs, c, i), "gate")
    ensures IsOrigin(jobs, plans, ResultAt(c, i)) && NameOf(jobs, ResultAt(c, i)) == Inv(jobs, c, i)
    ensures forall q | q in plans[c].jobs ::
      IsOrigin(jobs, plans, Inner(c, i, q)) && NameOf(jobs, Inner(c, i, q)) == Join(Inv(jobs, c, i), q.base)
  {
    hide Join, Invocation, PlaceholdersOf, AnyDynamic;
  }

  lemma GateHosted(jobs: seq<PlannedJob>, plans: map<string, Plan>, c: string, i: nat)
    requires Linkable(jobs, plans) && Static(jobs, plans, c) && i < Count(jobs, c)
    ensures c in plans && c in GraphOf(jobs)
    ensures var g, v := GraphOf(Spliced(jobs, plans)), Inv(jobs, c, i);
            && Join(v, "gate") in g && g[Join(v, "gate")] == GraphOf(jobs)[c]
            && v in g && g[v] == JoinEach(v, PublicIds(plans[c].jobs))
  {
    LinkableParts(jobs, plans);
    InvocationOrigins(jobs, plans, c, i);
    MadeNeeds(jobs, plans, c, i);
    hide *;
    PlaceholderNeeds(jobs, c, i);
    NodeNeeds(jobs, plans, GateOf(c, i));
    NodeNeeds(jobs, plans, ResultAt(c, i));
  }

  lemma InnerHosted(jobs: seq<PlannedJob>, plans: map<string, Plan>, c: string, i: nat, q: PlannedJob)
    requires Linkable(jobs, plans) && Static(jobs, plans, c) && i < Count(jobs, c) && q in plans[c].jobs
    ensures var g, v, h := GraphOf(Spliced(jobs, plans)), Inv(jobs, c, i), GraphOf(plans[c].jobs);
            && q.base in h && Join(v, q.base) in g && g[Join(v, q.base)] == JoinEach(v, h[q.base]) + [Join(v, "gate")]
  {
    LinkableParts(jobs, plans);
    InvocationOrigins(jobs, plans, c, i);
    MadeNeeds(jobs, plans, c, i);
    hide *;
    GraphHasNeeds(plans[c].jobs, q);
    NodeNeeds(jobs, plans, Inner(c, i, q));
  }

  lemma HostsInvocation(jobs: seq<PlannedJob>, plans: map<string, Plan>, c: string, i: nat)
    requires Linkable(jobs, plans) && Static(jobs, plans, c) && i < Count(jobs, c)
    ensures c in plans && c in GraphOf(jobs)
    ensures Hosts(GraphOf(Spliced(jobs, plans)), GraphOf(jobs)[c], Inv(jobs, c, i), GraphOf(plans[c].jobs), PublicIds(plans[c].jobs))
  {
    var g, v, h := GraphOf(Spliced(jobs, plans)), Inv(jobs, c, i), GraphOf(plans[c].jobs);
    GateHosted(jobs, plans, c, i);
    hide GraphOf, Linkable, Spliced, Join, Invocation, PlaceholdersOf, PublicIds, AnyDynamic, Inv, Static;
    forall x | x in h ensures Join(v, x) in g && g[Join(v, x)] == JoinEach(v, h[x]) + [Join(v, "gate")] {
      var q :| q in plans[c].jobs && q.base == x;
      InnerHosted(jobs, plans, c, i, q);
    }
  }

  lemma CombinedNeeds(jobs: seq<PlannedJob>, plans: map<string, Plan>, c: string)
    requires Linkable(jobs, plans) && Static(jobs, plans, c) && Count(jobs, c) != 1
    ensures c in GraphOf(Spliced(jobs, plans)) && GraphOf(Spliced(jobs, plans))[c] == Invocations(c, Count(jobs, c))
  {
    hide PlanOk, SameNeeds, Accepted, Rooted, WellNamed, Spliced, PlaceholdersOf;
    NodeNeeds(jobs, plans, CombinedAt(c));
  }

  /** Jobs that are not static calls keep their needs. */
  lemma OthersKeepNeeds(jobs: seq<PlannedJob>, plans: map<string, Plan>, x: string)
    requires Linkable(jobs, plans) && x in GraphOf(jobs) && !Static(jobs, plans, x)
    ensures x in GraphOf(Spliced(jobs, plans)) && GraphOf(Spliced(jobs, plans))[x] == GraphOf(jobs)[x]
  {
    LinkableParts(jobs, plans);
    hide PlanOk, SameNeeds, Accepted, Rooted, WellNamed, Spliced, Expandable, GraphOf, Linkable;
    if x in plans {
      TemplateKeepsNeeds(jobs, plans, x);
    } else {
      var j :| j in jobs && j.base == x;
      KeptKeepsNeeds(jobs, plans, j);
    }
  }

  lemma KeptKeepsNeeds(jobs: seq<PlannedJob>, plans: map<string, Plan>, j: PlannedJob)
    requires Linkable(jobs, plans) && j in jobs && j.base !in plans
    ensures j.base in GraphOf(jobs) && j.base in GraphOf(Spliced(jobs, plans))
    ensures GraphOf(Spliced(jobs, plans))[j.base] == GraphOf(jobs)[j.base]
  {
    LinkableParts(jobs, plans);
    assert IsOrigin(jobs, plans, Kept(j)) && NameOf(jobs, Kept(j)) == j.base && Made(jobs, plans, Kept(j)) == j;
    hide *;
    GraphHasNeeds(jobs, j);
    NodeNeeds(jobs, plans, Kept(j));
  }

  lemma TemplateKeepsNeeds(jobs: seq<PlannedJob>, plans: map<string, Plan>, c: string)
    requires Linkable(jobs, plans) && c in plans && !Static(jobs, plans, c)
    ensures c in GraphOf(jobs) && c in GraphOf(Spliced(jobs, plans))
    ensures GraphOf(Spliced(jobs, plans))[c] == GraphOf(jobs)[c]
  {
    LinkableParts(jobs, plans);
    TemplateOrigin(jobs, plans, c);
    hide *;
    PlaceholderNeeds(jobs, c, 0);
    NodeNeeds(jobs, plans, Template(c));
  }

  lemma TemplateOrigin(jobs: seq<PlannedJob>, plans: map<string, Plan>, c: string)
    requires Expandable(jobs, plans) && c in plans && !Static(jobs, plans, c)
    ensures IsOrigin(jobs, plans, Template(c)) && NameOf(jobs, Template(c)) == c
    ensures 0 < Count(jobs, c) && Made(jobs, plans, Template(c)).needs == PlaceholdersOf(jobs, c)[0].needs
  {
    HasPlaceholder(jobs, c);
    hide PlaceholdersOf, RefersWithin;
  }

  // ---------------------------------------------------------------- an order of the linked plan

  ghost function OrderOf(jobs: seq<PlannedJob>): (order: seq<string>)
    requires Accepted(GraphOf(jobs))
    ensures TopologicalOrder(GraphOf(jobs), order)
  {
    var order :| TopologicalOrder(GraphOf(jobs), order);
    order
  }

  /** Gate, called jobs in their order, result. */
  function BodyOrder(v: string, inner: seq<string>): seq<string> {
    [Join(v, "gate")] + JoinEach(v, inner) + [v]
  }

  function BodiesOrder(c: string, n: nat, inner: seq<string>, k: nat): seq<string> {
    if k == 0 then [] else BodiesOrder(c, n, inner, k - 1) + BodyOrder(Invocation(c, n, k - 1), inner)
  }

  lemma {:induction false} BodiesHave(c: string, n: nat, inner: seq<string>, k: nat, i: nat, x: string)
    requires i < k
    ensures Invocation(c, n, i) in BodiesOrder(c, n, inner, k)
    ensures x in inner || x == "gate" ==> Join(Invocation(c, n, i), x) in BodiesOrder(c, n, inner, k)
  {
    hide Invocation, Join, BodyOrder;
    if i < k - 1 {
      BodiesHave(c, n, inner, k - 1, i, x);
    } else {
      BodyHas(Invocation(c, n, i), inner);
    }
  }

  lemma BodyHas(v: string, inner: seq<string>)
    ensures v in BodyOrder(v, inner)
    ensures forall x | x in inner || x == "gate" :: Join(v, x) in BodyOrder(v, inner)
  {
    forall x | x in inner ensures Join(v, x) in BodyOrder(v, inner) {
      var i :| 0 <= i < |inner| && inner[i] == x;
      assert JoinEach(v, inner)[i] == Join(v, x);
    }
  }

  ghost function RegionOrder(jobs: seq<PlannedJob>, plans: map<string, Plan>, x: string): (r: seq<string>)
    requires Linkable(jobs, plans)
    ensures x in r
  {
    if Static(jobs, plans, x) then
      RegionHasCall(x, Count(jobs, x), OrderOf(plans[x].jobs));
      BodiesOrder(x, Count(jobs, x), OrderOf(plans[x].jobs), Count(jobs, x)) + (if Count(jobs, x) == 1 then [] else [x])
    else [x]
  }

  lemma RegionHasCall(c: string, n: nat, inner: seq<string>)
    ensures n == 1 ==> c in BodiesOrder(c, n, inner, n)
  {
    if n == 1 { BodiesHave(c, n, inner, n, 0, ""); }
  }

  ghost function LinkedOrder(jobs: seq<PlannedJob>, plans: map<string, Plan>, order: seq<string>): (r: seq<string>)
    requires Linkable(jobs, plans)
    ensures forall x | x in order :: x in r
  {
    if order == [] then []
    else
      assert order == order[..|order| - 1] + [order[|order| - 1]];
      LinkedOrder(jobs, plans, order[..|order| - 1]) + RegionOrder(jobs, plans, order[|order| - 1])
  }

  ghost function Elements(order: seq<string>): set<string> {
    set x | x in order
  }

  lemma BodyFits(g: Graph, needs: seq<string>, v: string, h: Graph, public: seq<string>, inner: seq<string>, done: set<string>)
    requires Hosts(g, needs, v, h, public) && TopologicalOrder(h, inner)
    requires (forall x | x in public :: x in h) && forall y | y in needs :: y in done
    ensures Fits(g, done, BodyOrder(v, inner))
  {
    var gate := Join(v, "gate");
    assert Fits(g, done, [gate]);
    InnerFits(g, needs, v, h, public, inner, done + Elements([gate]));
    FitsConcat(g, done, [gate], JoinEach(v, inner));
    forall y | y in JoinEach(v, public) ensures y in [gate] + JoinEach(v, inner) {
      var i :| 0 <= i < |public| && JoinEach(v, public)[i] == y;
      var k :| 0 <= k < |inner| && inner[k] == public[i];
      assert JoinEach(v, inner)[k] == y;
    }
    hide Join, JoinEach, TopologicalOrder;
    assert Fits(g, done + Elements([gate] + JoinEach(v, inner)), [v]);
    FitsConcat(g, done, [gate] + JoinEach(v, inner), [v]);
  }

  lemma InnerFits(g: Graph, needs: seq<string>, v: string, h: Graph, public: seq<string>, inner: seq<string>, done: set<string>)
    requires Hosts(g, needs, v, h, public) && TopologicalOrder(h, inner) && Join(v, "gate") in done
    ensures Fits(g, done, JoinEach(v, inner))
  {
    hide Join;
    var order := JoinEach(v, inner);
    forall k | 0 <= k < |order| ensures order[k] in g && forall y | y in g[order[k]] :: y in done || y in order[..k] {
      var needed := h[inner[k]];
      forall y | y in JoinEach(v, needed) ensures y in order[..k] {
        var m :| 0 <= m < |needed| && JoinEach(v, needed)[m] == y;
        assert needed[m] in inner[..k];
        var l :| 0 <= l < k && inner[l] == needed[m];
        assert order[..k][l] == y;
      }
    }
  }

  lemma FitsWithMore(g: Graph, done: set<string>, more: set<string>, order: seq<string>)
    requires Fits(g, done, order) && done <= more
    ensures Fits(g, more, order)
  {
  }

  /** Public ids are jobs of their plan. */
  lemma PublicIsJob(jobs: seq<PlannedJob>)
    ensures forall x | x in PublicIds(jobs) :: x in GraphOf(jobs)
  {
  }

  lemma OneBodyMore(g: Graph, c: string, n: nat, inner: seq<string>, k: nat, done: set<string>)
    requires Fits(g, done, BodiesOrder(c, n, inner, k)) && Fits(g, done, BodyOrder(Invocation(c, n, k), inner))
    ensures Fits(g, done, BodiesOrder(c, n, inner, k + 1))
  {
    hide Fits, BodyOrder, Invocation;
    var front, body := BodiesOrder(c, n, inner, k), BodyOrder(Invocation(c, n, k), inner);
    FitsWithMore(g, done, done + Elements(front), body);
    FitsConcat(g, done, front, body);
  }

  lemma InvocationFits(jobs: seq<PlannedJob>, plans: map<string, Plan>, c: string, i: nat, done: set<string>)
    requires Linkable(jobs, plans) && Static(jobs, plans, c) && i < Count(jobs, c)
    requires c in GraphOf(jobs) && forall y | y in GraphOf(jobs)[c] :: y in done
    ensures c in plans && Accepted(GraphOf(plans[c].jobs))
    ensures Fits(GraphOf(Spliced(jobs, plans)), done, BodyOrder(Invocation(c, Count(jobs, c), i), OrderOf(plans[c].jobs)))
  {
    LinkableParts(jobs, plans);
    assert Inv(jobs, c, i) == Invocation(c, Count(jobs, c), i);
    assert c in plans;
    hide *;
    HostsInvocation(jobs, plans, c, i);
    PublicIsJob(plans[c].jobs);
    BodyFits(GraphOf(Spliced(jobs, plans)), GraphOf(jobs)[c], Inv(jobs, c, i), GraphOf(plans[c].jobs),
             PublicIds(plans[c].jobs), OrderOf(plans[c].jobs), done);
  }

  lemma {:induction false} BodiesFits(jobs: seq<PlannedJob>, plans: map<string, Plan>, c: string, k: nat, done: set<string>)
    requires Linkable(jobs, plans) && Static(jobs, plans, c) && k <= Count(jobs, c)
    requires c in GraphOf(jobs) && forall y | y in GraphOf(jobs)[c] :: y in done
    ensures c in plans && Accepted(GraphOf(plans[c].jobs))
    ensures Fits(GraphOf(Spliced(jobs, plans)), done, BodiesOrder(c, Count(jobs, c), OrderOf(plans[c].jobs), k))
  {
    hide *;
    CalledPlan(jobs, plans, c);
    var g, n, inner := GraphOf(Spliced(jobs, plans)), Count(jobs, c), OrderOf(plans[c].jobs);
    if k == 0 {
      NothingFits(g, done);
      NoBodies(c, n, inner);
    } else {
      BodiesFits(jobs, plans, c, k - 1, done);
      InvocationFits(jobs, plans, c, k - 1, done);
      OneBodyMore(g, c, n, inner, k - 1, done);
    }
  }

  lemma CalledPlan(jobs: seq<PlannedJob>, plans: map<string, Plan>, c: string)
    requires Linkable(jobs, plans) && Static(jobs, plans, c)
    ensures Expandable(jobs, plans) && c in plans && PlanOk(plans[c].jobs)
    ensures SameNeeds(plans[c].jobs) && Accepted(GraphOf(plans[c].jobs)) && Rooted(plans[c].jobs)
  {
  }

  lemma NoBodies(c: string, n: nat, inner: seq<string>)
    ensures BodiesOrder(c, n, inner, 0) == []
  {
  }

  lemma NothingFits(g: Graph, done: set<string>)
    ensures Fits(g, done, [])
  {
  }

  lemma OneFits(g: Graph, done: set<string>, x: string)
    requires x in g && forall y | y in g[x] :: y in done
    ensures Fits(g, done, [x])
  {
  }

  lemma RegionFits(jobs: seq<PlannedJob>, plans: map<string, Plan>, x: string, done: set<string>)
    requires Linkable(jobs, plans) && x in GraphOf(jobs) && forall y | y in GraphOf(jobs)[x] :: y in done
    ensures Fits(GraphOf(Spliced(jobs, plans)), done, RegionOrder(jobs, plans, x))
  {
    var g, n := GraphOf(Spliced(jobs, plans)), Count(jobs, x);
    RegionShape(jobs, plans, x);
    hide *;
    if !Static(jobs, plans, x) {
      OthersKeepNeeds(jobs, plans, x);
      OneFits(g, done, x);
    } else {
      BodiesFits(jobs, plans, x, n, done);
      if n != 1 {
        CombinedFits(jobs, plans, x, done, BodiesOrder(x, n, OrderOf(plans[x].jobs), n));
      }
    }
  }

  lemma RegionShape(jobs: seq<PlannedJob>, plans: map<string, Plan>, x: string)
    requires Linkable(jobs, plans)
    ensures !Static(jobs, plans, x) ==> RegionOrder(jobs, plans, x) == [x]
    ensures Static(jobs, plans, x) ==>
      && x in plans && Accepted(GraphOf(plans[x].jobs))
      && var bodies := BodiesOrder(x, Count(jobs, x), OrderOf(plans[x].jobs), Count(jobs, x));
         RegionOrder(jobs, plans, x) == if Count(jobs, x) == 1 then bodies else bodies + [x]
  {
    LinkableParts(jobs, plans);
    hide Linkable, PlanOk, GraphOf, BodiesOrder, PlaceholdersOf, OrderOf, AnyDynamic, Accepted;
  }

  lemma InvocationsIn(c: string, n: nat, inner: seq<string>)
    ensures forall y | y in Invocations(c, n) :: y in BodiesOrder(c, n, inner, n)
  {
    hide Invocation, BodiesOrder;
    forall y | y in Invocations(c, n) ensures y in BodiesOrder(c, n, inner, n) {
      var i :| 0 <= i < n && Invocations(c, n)[i] == y;
      BodiesHave(c, n, inner, n, i, "");
    }
  }

  lemma AppendFits(g: Graph, done: set<string>, order: seq<string>, x: string)
    requires Fits(g, done, order) && x in g && forall y | y in g[x] :: y in order
    ensures Fits(g, done, order + [x])
  {
    OneFits(g, done + Elements(order), x);
    FitsConcat(g, done, order, [x]);
  }

  lemma CombinedFits(jobs: seq<PlannedJob>, plans: map<string, Plan>, c: string, done: set<string>, bodies: seq<string>)
    requires Linkable(jobs, plans) && Static(jobs, plans, c) && Count(jobs, c) != 1
    requires c in plans && Accepted(GraphOf(plans[c].jobs))
    requires bodies == BodiesOrder(c, Count(jobs, c), OrderOf(plans[c].jobs), Count(jobs, c))
    requires Fits(GraphOf(Spliced(jobs, plans)), done, bodies)
    ensures Fits(GraphOf(Spliced(jobs, plans)), done, bodies + [c])
  {
    hide *;
    CalledPlan(jobs, plans, c);
    CombinedNeeds(jobs, plans, c);
    var g, n := GraphOf(Spliced(jobs, plans)), Count(jobs, c);
    InvocationsIn(c, n, OrderOf(plans[c].jobs));
    AppendFits(g, done, bodies, c);
  }

  lemma {:induction false} OrderFits(jobs: seq<PlannedJob>, plans: map<string, Plan>, order: seq<string>)
    requires Linkable(jobs, plans) && Fits(GraphOf(jobs), {}, order)
    ensures Fits(GraphOf(Spliced(jobs, plans)), {}, LinkedOrder(jobs, plans, order))
  {
    var g := GraphOf(Spliced(jobs, plans));
    if order == [] {
      NothingFits(g, {});
    } else {
      var front, last := order[..|order| - 1], order[|order| - 1];
      FrontFits(GraphOf(jobs), order);
      hide GraphOf, Linkable, Spliced, Fits, RegionOrder;
      OrderFits(jobs, plans, front);
      var linked := LinkedOrder(jobs, plans, front);
      RegionFits(jobs, plans, last, {} + Elements(linked));
      FitsConcat(g, {}, linked, RegionOrder(jobs, plans, last));
    }
  }

  lemma FrontFits(g: Graph, order: seq<string>)
    requires order != [] && Fits(g, {}, order)
    ensures Fits(g, {}, order[..|order| - 1]) && order[|order| - 1] in g
    ensures var needs, front := g[order[|order| - 1]], order[..|order| - 1]; forall y | y in needs :: y in front
  {
    var front := order[..|order| - 1];
    assert forall i | 0 <= i < |front| :: front[i] == order[i] && front[..i] == order[..i];
  }

  // ---------------------------------------------------------------- linking accepts

  /** Every job of the linked plan is in the region of its caller job. */
  lemma OriginInRegion(jobs: seq<PlannedJob>, plans: map<string, Plan>, o: Origin)
    requires Linkable(jobs, plans) && IsOrigin(jobs, plans, o)
    ensures CallOf(o) in GraphOf(jobs) && NameOf(jobs, o) in RegionOrder(jobs, plans, CallOf(o))
  {
    LinkableParts(jobs, plans);
    HeadOfName(jobs, plans, o);
    RegionShape(jobs, plans, CallOf(o));
    assert CallOf(o) in GraphOf(jobs);
    if InvocationPart(o) {
      PartInRegion(jobs, plans, o);
    } else {
      hide Linkable, GraphOf, WellNamed, PlaceholdersOf, Rooted, RegionOrder, BodiesOrder;
    }
  }

  lemma PartInRegion(jobs: seq<PlannedJob>, plans: map<string, Plan>, o: Origin)
    requires Linkable(jobs, plans) && IsOrigin(jobs, plans, o) && InvocationPart(o)
    ensures o.call in plans && Accepted(GraphOf(plans[o.call].jobs))
    ensures NameOf(jobs, o) in BodiesOrder(o.call, Count(jobs, o.call), OrderOf(plans[o.call].jobs), Count(jobs, o.call))
  {
    LinkableParts(jobs, plans);
    var c, inner := o.call, OrderOf(plans[o.call].jobs);
    var x := if o.ResultAt? then "" else TailOf(o);
    if o.Inner? {
      assert o.job.base in GraphOf(plans[c].jobs);
      assert x in inner;
    }
    hide Linkable, GraphOf, WellNamed, PlaceholdersOf, OrderOf, BodiesOrder, Join, Invocation;
    BodiesHave(c, Count(jobs, c), inner, Count(jobs, c), o.i, x);
  }

  lemma {:induction false} RegionInOrder(jobs: seq<PlannedJob>, plans: map<string, Plan>, order: seq<string>, c: string, x: string)
    requires Linkable(jobs, plans) && c in order && x in RegionOrder(jobs, plans, c)
    ensures x in LinkedOrder(jobs, plans, order)
  {
    hide Linkable, RegionOrder;
    var front, last := order[..|order| - 1], order[|order| - 1];
    assert order == front + [last];
    if c != last {
      RegionInOrder(jobs, plans, front, c, x);
    }
  }

  /** Linking sound plans gives a closed acyclic plan: the final check never rejects. */
  lemma SplicedAccepted(jobs: seq<PlannedJob>, plans: map<string, Plan>)
    requires Linkable(jobs, plans)
    ensures Accepted(GraphOf(Spliced(jobs, plans)))
  {
    LinkableParts(jobs, plans);
    var order := OrderOf(jobs);
    var linked, g := LinkedOrder(jobs, plans, order), GraphOf(Spliced(jobs, plans));
    OrderFits(jobs, plans, order);
    hide Linkable, Spliced, GraphOf, LinkedOrder, WellNamed, RegionOrder;
    forall x | x in g ensures x in linked {
      NodeOrigin(jobs, plans, x);
      var o :| IsOrigin(jobs, plans, o) && NameOf(jobs, o) == x;
      OriginInRegion(jobs, plans, o);
      RegionInOrder(jobs, plans, order, CallOf(o), x);
    }
    FitsInside(g, linked);
    assert TopologicalOrder(g, linked);
  }

  lemma FitsInside(g: Graph, order: seq<string>)
    requires Fits(g, {}, order)
    ensures forall x | x in order :: x in g
  {
    forall x | x in order ensures x in g {
      var i :| 0 <= i < |order| && order[i] == x;
    }
  }
}
