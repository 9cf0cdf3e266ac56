/** What holds of every plan the linker returns, whatever the depth of the calls. */
module LinkTheorems {
  import opened Basics
  import opened Names
  import opened Dependencies
  import opened Plans
  import opened Splicing
  import opened LinkOrder
  import opened LinkReach
  import opened LinkedPlans
  import opened Linker
  import opened Scopes

  /** A successful level is its flat plan with the linked plans of its calls spliced in. */
  lemma LinkedLevel(library: Library, w: Workflow, stack: seq<string>, called: set<string>, level: nat)
    requires LibraryOk(library) && WorkflowOk(w) && level <= MAX_LEVELS
    requires Link(library, w, stack, called, level).0.Ok?
    ensures (forall c | c in CallIds(w) :: c in UsesOf(w.jobs)) && Accepted(GraphOf(Flat(w.jobs)))
    ensures var calls := LinkCalls(library, w, CallIds(w), stack, called, level).0;
      && calls.Ok? && calls.value.Keys == UsesOf(w.jobs).Keys && PlansOk(calls.value)
      && Linkable(Flat(w.jobs), calls.value) && Expandable(Flat(w.jobs), calls.value)
      && Link(library, w, stack, called, level).0.value.jobs == Spliced(Flat(w.jobs), calls.value)
  {
    hide LinkCalls, Flat, GraphOf, Linkable, PlanOk, PlansOk, LibraryOk, WorkflowOk, Accepted, Spliced, HeadsFrom;
    var calls := LinkCalls(library, w, CallIds(w), stack, called, level).0;
    assert calls.value.Keys == UsesOf(w.jobs).Keys;
    LevelLinkable(w, calls.value);
  }

  /** The final check of a level never fails: a rejected plan was rejected before linking. */
  lemma LinkingNeverBreaksGraph(library: Library, w: Workflow, stack: seq<string>, called: set<string>, level: nat)
    requires LibraryOk(library) && WorkflowOk(w) && level <= MAX_LEVELS && Accepted(GraphOf(Flat(w.jobs)))
    ensures (forall c | c in CallIds(w) :: c in UsesOf(w.jobs))
    ensures Link(library, w, stack, called, level).0.Ok? <==> LinkCalls(library, w, CallIds(w), stack, called, level).0.Ok?
  {
    hide LinkCalls, Flat, GraphOf, Linkable, PlanOk, PlansOk, LibraryOk, WorkflowOk, Accepted, Spliced, HeadsFrom;
    var calls := LinkCalls(library, w, CallIds(w), stack, called, level).0;
    if calls.Ok? {
      assert calls.value.Keys == UsesOf(w.jobs).Keys;
      LevelLinkable(w, calls.value);
      SplicedAccepted(Flat(w.jobs), calls.value);
    }
  }

  /** Closed and acyclic, at whatever depth the calls nest. */
  lemma LinkedPlanIsSound(library: Library, w: Workflow, stack: seq<string>, called: set<string>, level: nat)
    requires LibraryOk(library) && WorkflowOk(w) && level <= MAX_LEVELS
    requires Link(library, w, stack, called, level).0.Ok?
    ensures var jobs := Link(library, w, stack, called, level).0.value.jobs;
            Closed(GraphOf(jobs)) && Acyclic(GraphOf(jobs)) && RefersWithin(jobs)
  {
    AcceptedIsAcyclic(GraphOf(Link(library, w, stack, called, level).0.value.jobs));
    hide Link, Acyclic, Closed, GraphOf, RefersWithin, SameNeeds, Rooted, Accepted;
  }

  /** The order of the workflow's own jobs is the order of its source. */
  lemma LinkedOrderExact(library: Library, w: Workflow, stack: seq<string>, called: set<string>, level: nat, x: string, y: string)
    requires LibraryOk(library) && WorkflowOk(w) && level <= MAX_LEVELS
    requires Link(library, w, stack, called, level).0.Ok?
    requires x in GraphOf(Flat(w.jobs)) && y in GraphOf(Flat(w.jobs))
    ensures Reach(GraphOf(Link(library, w, stack, called, level).0.value.jobs), x, y) <==> Reach(GraphOf(Flat(w.jobs)), x, y)
  {
    hide *;
    LinkedLevel(library, w, stack, called, level);
    CallerOrderExact(Flat(w.jobs), LinkCalls(library, w, CallIds(w), stack, called, level).0.value, x, y);
  }

  /**
   * Each invocation of a statically linked call: its jobs keep exactly the order of the called plan,
   * each needs the gate, the result transitively needs each, and the gate needs what the call needed.
   */
  lemma LinkedCallExact(library: Library, w: Workflow, stack: seq<string>, called: set<string>, level: nat,
                        c: string, i: nat, x: string, y: string, z: string)
    requires LibraryOk(library) && WorkflowOk(w) && level <= MAX_LEVELS
    requires Link(library, w, stack, called, level).0.Ok?
    requires (forall d | d in CallIds(w) :: d in UsesOf(w.jobs)) && LinkCalls(library, w, CallIds(w), stack, called, level).0.Ok?
    requires var plans := LinkCalls(library, w, CallIds(w), stack, called, level).0.value;
             && Static(Flat(w.jobs), plans, c) && i < Count(Flat(w.jobs), c)
             && x in GraphOf(plans[c].jobs) && y in GraphOf(plans[c].jobs)
    ensures var g, v := GraphOf(Link(library, w, stack, called, level).0.value.jobs), Inv(Flat(w.jobs), c, i);
            var inner := GraphOf(LinkCalls(library, w, CallIds(w), stack, called, level).0.value[c].jobs);
      && (Reach(g, Join(v, x), Join(v, y)) <==> Reach(inner, x, y))
      && Edge(g, Join(v, x), Join(v, "gate")) && Reach(g, v, Join(v, x))
      && (Edge(g, Join(v, "gate"), z) <==> Edge(GraphOf(Flat(w.jobs)), c, z))
  {
    hide *;
    LinkedLevel(library, w, stack, called, level);
    var plans := LinkCalls(library, w, CallIds(w), stack, called, level).0.value;
    InnerOrderExact(Flat(w.jobs), plans, c, i, x, y);
    GateBelowResultAbove(Flat(w.jobs), plans, c, i, x);
    GateNeedsCall(Flat(w.jobs), plans, c, i, z);
  }

  /** A linked call is its library workflow linked one level further down. */
  lemma CalledLevel(library: Library, w: Workflow, c: string, stack: seq<string>, called: set<string>, level: nat)
    requires LibraryOk(library) && WorkflowOk(w) && level <= MAX_LEVELS && c in UsesOf(w.jobs)
    requires LinkCall(library, w, c, stack, called, level).0.Ok?
    ensures var path := UsesOf(w.jobs)[c];
      && level < MAX_LEVELS && path in library && WorkflowOk(library[path])
      && Link(library, library[path], stack + [path], called + {path}, level + 1).0 == LinkCall(library, w, c, stack, called, level).0
  {
    hide Link, UsesOf, Flat, PlanOk, TooManyTemplates, HeadsFrom, CalledOk, WorkflowOk;
  }

  // ---------------------------------------------------------------- scopes

  lemma FlatIsBare(w: Workflow)
    ensures Bare(Flat(w.jobs))
  {
    hide Flat;
    forall j | j in Flat(w.jobs) ensures j.acquire == [] && j.release == [] && j.scopeIds == [] {
      InFlat(w.jobs, j);
    }
  }

  /** Linked plans are well bracketed at every depth; a call with an expression matrix is one job of its level. */
  lemma {:induction false} LinkedBracketed(library: Library, w: Workflow, stack: seq<string>, called: set<string>, level: nat)
    requires LibraryOk(library) && WorkflowOk(w) && level <= MAX_LEVELS
    requires Link(library, w, stack, called, level).0.Ok?
    ensures Bracketed(Link(library, w, stack, called, level).0.value.jobs)
    decreases MAX_LEVELS - level, 1, 0
  {
    hide *;
    LinkedLevel(library, w, stack, called, level);
    var plans := LinkCalls(library, w, CallIds(w), stack, called, level).0.value;
    CallsBracketed(library, w, CallIds(w), stack, called, level);
    FlatIsBare(w);
    LevelScopeLinkable(Flat(w.jobs), plans);
    SplicedBracketed(Flat(w.jobs), plans);
  }

  lemma LevelScopeLinkable(jobs: seq<PlannedJob>, plans: map<string, Plan>)
    requires Linkable(jobs, plans) && Bare(jobs) && AllBracketed(plans)
    ensures ScopeLinkable(jobs, plans)
  {
    hide Linkable, Bare, Bracketed;
  }

  ghost predicate AllBracketed(plans: map<string, Plan>) {
    forall c | c in plans :: Bracketed(plans[c].jobs)
  }

  lemma {:induction false} CallsBracketed(library: Library, w: Workflow, ids: seq<string>, stack: seq<string>, called: set<string>, level: nat)
    requires LibraryOk(library) && WorkflowOk(w) && level <= MAX_LEVELS
    requires (forall c | c in ids :: c in UsesOf(w.jobs)) && LinkCalls(library, w, ids, stack, called, level).0.Ok?
    ensures AllBracketed(LinkCalls(library, w, ids, stack, called, level).0.value)
    decreases MAX_LEVELS - level, 0, |ids|
  {
    hide LinkCall, UsesOf, PlanOk, PlansOk, Bracketed, LibraryOk, WorkflowOk;
    if ids != [] {
      var front, last := ids[..|ids| - 1], ids[|ids| - 1];
      assert ids == front + [last];
      CallsBracketed(library, w, front, stack, called, level);
      CallBracketed(library, w, last, stack, LinkCalls(library, w, front, stack, called, level).1, level);
    }
  }

  lemma {:induction false} CallBracketed(library: Library, w: Workflow, c: string, stack: seq<string>, called: set<string>, level: nat)
    requires LibraryOk(library) && WorkflowOk(w) && level <= MAX_LEVELS && c in UsesOf(w.jobs)
    requires LinkCall(library, w, c, stack, called, level).0.Ok?
    ensures Bracketed(LinkCall(library, w, c, stack, called, level).0.value.jobs)
    decreases MAX_LEVELS - level, 0, 0
  {
    CalledLevel(library, w, c, stack, called, level);
    var path := UsesOf(w.jobs)[c];
    hide *;
    LinkedBracketed(library, library[path], stack + [path], called + {path}, level + 1);
  }
}
