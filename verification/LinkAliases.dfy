/** What a linked job's names mean: scoping by call, innermost first. */
module LinkAliases {
  import opened Basics
  import opened Names
  import opened Plans
  import opened Splicing
  import opened LinkOrder
  import opened LinkReach
  import opened LinkedPlans
  import opened Linker
  import opened LinkTheorems
  import opened LinkPermissions

  // ---------------------------------------------------------------- where a job stands

  /** The job definitions from a job of `w` down to one that is not entered: each but the last calls the next one's workflow. */
  predicate Calls(library: Library, w: Workflow, defs: seq<JobDef>)
    decreases |defs|
  {
    && defs != [] && defs[0] in w.jobs
    && (|defs| > 1 ==>
          defs[0].uses.Some? && defs[0].uses.value in library && Calls(library, library[defs[0].uses.value], defs[1..]))
  }

  /** The id `x` has inside the invocations `levels`. */
  function Nest(levels: seq<string>, x: string): string {
    if levels == [] then x else Join(levels[0], Nest(levels[1..], x))
  }

  ghost predicate IsInvocation(d: JobDef, v: string) {
    exists i: nat :: i < d.instances && v == Invocation(d.id, d.instances, i)
  }

  ghost predicate Nested(defs: seq<JobDef>, levels: seq<string>) {
    |defs| == |levels| + 1 && forall k | 0 <= k < |levels| :: IsInvocation(defs[k], levels[k])
  }

  // ---------------------------------------------------------------- what it finds under a name

  /** What a job finds at its own level: its needs, or for a result the jobs or invocations it stands for. */
  function OwnName(d: JobDef, leaf: string, kind: Virtual, a: string): Option<string> {
    match kind
    case ReusableResult(jobs) => if a in jobs then Some(Join(leaf, a)) else None
    case ReusableMatrixResult(_, _, _) => if a in Invocations(d.id, d.instances) then Some(a) else None
    case _ => if a in d.needs then Some(a) else None
  }

  /** Call `k` is the innermost enclosing one that needs `a`. */
  predicate InnermostNeed(defs: seq<JobDef>, k: nat, a: string) {
    && k < |defs| - 1 && a in defs[k].needs
    && forall m | k < m < |defs| - 1 :: a !in defs[m].needs
  }

  /**
   * A name the job wrote itself is the copy in its own invocation; any other is what the innermost
   * enclosing call that needs it means by it; there are no more.
   */
  ghost predicate Scoped(defs: seq<JobDef>, levels: seq<string>, leaf: string, j: PlannedJob)
    requires Nested(defs, levels)
  {
    var d := defs[|levels|];
    && (forall a | OwnName(d, leaf, j.kind, a).Some? ::
          a in j.aliases && j.aliases[a] == Nest(levels, OwnName(d, leaf, j.kind, a).value))
    && (forall k: nat, a | OwnName(d, leaf, j.kind, a).None? && InnermostNeed(defs, k, a) ::
          a in j.aliases && j.aliases[a] == Nest(levels[..k], a))
    && (forall a | a in j.aliases && OwnName(d, leaf, j.kind, a).None? :: exists k: nat :: InnermostNeed(defs, k, a))
  }

  /** The number of a combination behind the id. */
  function Number(d: JobDef, i: nat): string {
    if d.hasMatrix then "[" + Decimal(i + 1) + "]" else ""
  }

  /** As many at once as there are and as the call allows, but at least one. */
  predicate IsParallel(d: JobDef, n: nat) {
    && 1 <= n <= Max(d.instances, 1) && (d.maxParallel.Some? ==> n <= Max(d.maxParallel.value, 1))
    && (n < d.instances ==> d.maxParallel.Some? && d.maxParallel.value <= n)
  }

  /** The concurrency of the workflow a definition calls. */
  function CalledGroup(library: Library, d: JobDef): Option<string> {
    if d.uses.Some? && d.uses.value in library then library[d.uses.value].concurrency else None
  }

  /** What the invocation `v` holds: the concurrency of the call, then that of the called workflow. */
  function HeldBy(v: string, own: Option<string>, inner: Option<string>): seq<Scope> {
    (if own.Some? then [Scope(Join(v, "caller-concurrency"), own.value)] else [])
    + (if inner.Some? then [Scope(Join(v, "workflow-concurrency"), inner.value)] else [])
  }

  /** The same, given back in reverse order. */
  function FreedBy(v: string, own: Option<string>, inner: Option<string>): seq<string> {
    (if inner.Some? then [Join(v, "workflow-concurrency")] else []) + (if own.Some? then [Join(v, "caller-concurrency")] else [])
  }

  ghost predicate Guards(j: PlannedJob, own: Option<string>, inner: Option<string>) {
    exists v :: j.base == Join(v, "gate") && j.acquire == HeldBy(v, own, inner)
  }

  /** Only gates acquire, and only results of an invocation release. */
  predicate Idle(j: PlannedJob) {
    (j.acquire == [] || j.kind.ReusableGate?) && (j.release == [] || j.kind.ReusableResult?)
  }

  /** What a job keeps of its definition, by its kind; its results name copies beside it. */
  ghost predicate Copies(d: JobDef, inner: Option<string>, leaf: string, j: PlannedJob) {
    && j.base <= j.id && Idle(j)
    && match j.kind
       case ReusableGate =>
         (exists i: nat :: i < d.instances && leaf == Join(Invocation(d.id, d.instances, i), "gate"))
         && j.condition == d.condition && j.concurrency.None? && Guards(j, d.concurrency, inner)
       case ReusableResult(jobs) =>
         IsInvocation(d, leaf) && j.id == j.base && j.condition == Some(ALWAYS) && j.concurrency.None?
         && j.release == FreedBy(j.base, d.concurrency, inner)
         && forall a | a in jobs :: jobs[a] == Join(j.base, a)
       case ReusableMatrixResult(invocations, parallel, stops) =>
         leaf == d.id && j.id == j.base && j.condition == Some(ALWAYS) && j.concurrency.None? && stops == d.failFast
         && |invocations| == d.instances && d.instances != 1 && IsParallel(d, parallel)
         && forall i: nat | i < d.instances :: invocations[i] == Join(j.base, Label(i + 1))
       case _ =>
         leaf == d.id && j.condition == d.condition && j.concurrency == d.concurrency
         && j.dynamic == d.dynamic && j.maxParallel == d.maxParallel && j.failFast == d.failFast
         && exists i: nat :: i < d.instances && j.id == j.base + Number(d, i)
  }

  ghost predicate Stands(library: Library, w: Workflow, defs: seq<JobDef>, levels: seq<string>, leaf: string, j: PlannedJob) {
    && Calls(library, w, defs) && Nested(defs, levels) && j.base == Nest(levels, leaf)
    && Copies(defs[|levels|], CalledGroup(library, defs[|levels|]), leaf, j) && Scoped(defs, levels, leaf, j)
  }

  ghost predicate Standing(library: Library, w: Workflow, j: PlannedJob) {
    exists defs, levels, leaf :: Stands(library, w, defs, levels, leaf, j)
  }

  ghost predicate AllStanding(library: Library, w: Workflow, jobs: seq<PlannedJob>) {
    forall j | j in jobs :: Standing(library, w, j)
  }

  // ---------------------------------------------------------------- one level deeper

  lemma NestJoin(levels: seq<string>, x: string, a: string)
    ensures Nest(levels, Join(x, a)) == Join(Nest(levels, x), a)
  {
    if levels != [] {
      NestJoin(levels[1..], x, a);
      JoinAssociative(levels[0], Nest(levels[1..], x), a);
    }
  }

  lemma NestDeeper(v: string, levels: seq<string>, x: string)
    ensures Nest([v] + levels, x) == Join(v, Nest(levels, x))
    ensures forall k: nat | k <= |levels| :: ([v] + levels)[..k + 1] == [v] + levels[..k]
  {
    assert ([v] + levels)[1..] == levels;
  }

  /** The aliases of the copy are those of the original, renamed, and behind them the needs of the call. */
  lemma AliasesDeeper(v: string, p: PlannedJob, called: Plan, j: PlannedJob, a: string)
    requires j.base <= j.id
    ensures var r := Renamed(v, p, called, j);
      && (a in j.aliases ==> a in r.aliases && r.aliases[a] == Join(v, j.aliases[a]))
      && (a !in j.aliases && a in p.needs ==> a in r.aliases && r.aliases[a] == a)
      && (a in r.aliases ==> a in j.aliases || a in p.needs)
  {
    hide Join, JoinEach, JoinKind, Intersect, OwnScopes, JoinScopes, ScopeNames;
  }

  lemma InnermostDeeper(d: JobDef, defs: seq<JobDef>, a: string)
    requires defs != []
    ensures forall k: nat :: InnermostNeed(defs, k, a) <==> InnermostNeed([d] + defs, k + 1, a)
    ensures InnermostNeed([d] + defs, 0, a) <==> a in d.needs && !exists k: nat :: InnermostNeed(defs, k, a)
  {
    var more := [d] + defs;
    assert forall k: nat | k < |defs| :: more[k + 1] == defs[k];
    forall k: nat ensures InnermostNeed(defs, k, a) <==> InnermostNeed(more, k + 1, a) {
      if InnermostNeed(defs, k, a) {
        forall m | k + 1 < m < |more| - 1 ensures a !in more[m].needs { assert a !in defs[m - 1].needs; }
      }
      if InnermostNeed(more, k + 1, a) {
        forall m | k < m < |defs| - 1 ensures a !in defs[m].needs { assert a !in more[m + 1].needs; }
      }
    }
    if !exists k: nat :: InnermostNeed(defs, k, a) {
      NobodyNeeds(defs, a, |defs| - 1);
      forall m | 0 < m < |more| - 1 ensures a !in more[m].needs { assert a !in defs[m - 1].needs; }
    }
    if k: nat :| InnermostNeed(defs, k, a) {
      assert more[k + 1] == defs[k];
    }
  }

  lemma NobodyNeeds(defs: seq<JobDef>, a: string, n: nat)
    requires defs != [] && n <= |defs| - 1 && !exists k: nat :: InnermostNeed(defs, k, a)
    ensures forall m: nat | |defs| - 1 - n <= m < |defs| - 1 :: a !in defs[m].needs
  {
    if n > 0 {
      NobodyNeeds(defs, a, n - 1);
      assert !InnermostNeed(defs, |defs| - 1 - n, a);
    }
  }

  lemma ScopedDeeper(d: JobDef, v: string, defs: seq<JobDef>, levels: seq<string>, leaf: string,
                     p: PlannedJob, called: Plan, q: PlannedJob)
    requires Nested(defs, levels) && Scoped(defs, levels, leaf, q) && q.base <= q.id && p.needs == d.needs
    requires Nested([d] + defs, [v] + levels)
    ensures Scoped([d] + defs, [v] + levels, leaf, Renamed(v, p, called, q))
  {
    var own := defs[|levels|];
    var j := Renamed(v, p, called, q);
    assert ([d] + defs)[|levels| + 1] == own;
    hide Renamed, Nest, InnermostNeed, Join;
    forall a
      ensures OwnName(own, leaf, j.kind, a).Some? ==>
                a in j.aliases && j.aliases[a] == Nest([v] + levels, OwnName(own, leaf, j.kind, a).value)
      ensures forall k: nat | OwnName(own, leaf, j.kind, a).None? && InnermostNeed([d] + defs, k, a) ::
                a in j.aliases && j.aliases[a] == Nest(([v] + levels)[..k], a)
      ensures a in j.aliases && OwnName(own, leaf, j.kind, a).None? ==> exists k: nat :: InnermostNeed([d] + defs, k, a)
    {
      AliasesDeeper(v, p, called, q, a);
      OwnNameStays(own, leaf, v, p, called, q, a);
      InnermostDeeper(d, defs, a);
      NestDeeper(v, levels, OwnName(own, leaf, q.kind, a).GetOr(""));
      if OwnName(own, leaf, q.kind, a).None? {
        EnclosingDeeper(d, v, defs, levels, q.aliases, j.aliases, a);
      }
    }
  }

  lemma OwnNameStays(d: JobDef, leaf: string, v: string, p: PlannedJob, called: Plan, q: PlannedJob, a: string)
    requires q.base <= q.id
    ensures OwnName(d, leaf, Renamed(v, p, called, q).kind, a) == OwnName(d, leaf, q.kind, a)
  {
    hide Join, Invocations, Intersect, OwnScopes;
  }

  /** The name a call needs is found behind the names of everything inside the call. */
  lemma EnclosingDeeper(d: JobDef, v: string, defs: seq<JobDef>, levels: seq<string>,
                        inner: map<string, string>, outer: map<string, string>, a: string)
    requires |defs| == |levels| + 1
    requires forall k: nat | InnermostNeed(defs, k, a) :: a in inner && inner[a] == Nest(levels[..k], a)
    requires a in inner ==> exists k: nat :: InnermostNeed(defs, k, a)
    requires a in inner ==> a in outer && outer[a] == Join(v, inner[a])
    requires a !in inner && a in d.needs ==> a in outer && outer[a] == a
    requires a in outer ==> a in inner || a in d.needs
    ensures forall k: nat | InnermostNeed([d] + defs, k, a) :: a in outer && outer[a] == Nest(([v] + levels)[..k], a)
    ensures a in outer ==> exists k: nat :: InnermostNeed([d] + defs, k, a)
  {
    InnermostDeeper(d, defs, a);
    hide Join;
    forall k: nat | InnermostNeed([d] + defs, k, a) ensures a in outer && outer[a] == Nest(([v] + levels)[..k], a) {
      if k > 0 {
        assert InnermostNeed(defs, k - 1, a);
        NestDeeper(v, levels[..k - 1], a);
        assert ([v] + levels)[..k] == [v] + levels[..k - 1];
      }
    }
    if k: nat :| InnermostNeed(defs, k, a) {
      assert InnermostNeed([d] + defs, k + 1, a);
    }
  }

  lemma CopiesDeeper(d: JobDef, inner: Option<string>, leaf: string, v: string, p: PlannedJob, called: Plan, q: PlannedJob)
    requires Copies(d, inner, leaf, q)
    ensures Copies(d, inner, leaf, Renamed(v, p, called, q))
  {
    var j := Renamed(v, p, called, q);
    IdDeeper(v, p, called, q);
    ScopesDeeper(d, inner, v, p, called, q);
    hide IsInvocation, Intersect, OwnScopes, Invocation, Identity, HeldBy, FreedBy, Guards, Idle;
    match q.kind
    case ReusableResult(jobs) =>
      forall a | a in jobs ensures j.kind.jobs[a] == Join(j.base, a) { JoinAssociative(v, q.base, a); }
    case ReusableMatrixResult(invocations, _, _) =>
      forall i: nat | i < d.instances ensures j.kind.invocations[i] == Join(j.base, Label(i + 1)) {
        JoinAssociative(v, q.base, Label(i + 1));
      }
    case ReusableGate =>
    case _ =>
      var i: nat :| i < d.instances && q.id == q.base + Number(d, i);
      assert j.id == j.base + Number(d, i);
  }

  lemma HeldDeeper(v: string, u: string, own: Option<string>, inner: Option<string>)
    ensures JoinScopes(v, HeldBy(u, own, inner)) == HeldBy(Join(v, u), own, inner)
    ensures JoinEach(v, FreedBy(u, own, inner)) == FreedBy(Join(v, u), own, inner)
  {
    JoinAssociative(v, u, "caller-concurrency");
    JoinAssociative(v, u, "workflow-concurrency");
    hide Join;
  }

  lemma ScopesDeeper(d: JobDef, inner: Option<string>, v: string, p: PlannedJob, called: Plan, q: PlannedJob)
    requires q.base <= q.id && Idle(q)
    ensures var j := Renamed(v, p, called, q);
      && Idle(j)
      && (q.kind.ReusableGate? && Guards(q, d.concurrency, inner) ==> Guards(j, d.concurrency, inner))
      && (q.release == FreedBy(q.base, d.concurrency, inner) ==> j.release == FreedBy(j.base, d.concurrency, inner))
  {
    var j := Renamed(v, p, called, q);
    assert j.acquire == JoinScopes(v, q.acquire) && j.release == JoinEach(v, q.release) && j.base == Join(v, q.base);
    assert j.kind == JoinKind(v, q.kind);
    hide Renamed;
    HeldDeeper(v, q.base, d.concurrency, inner);
    if u :| q.base == Join(u, "gate") && q.acquire == HeldBy(u, d.concurrency, inner) {
      HeldDeeper(v, u, d.concurrency, inner);
      JoinAssociative(v, u, "gate");
      assert j.base == Join(Join(v, u), "gate");
    }
    hide HeldBy, FreedBy, Join;
  }

  lemma IdDeeper(v: string, p: PlannedJob, called: Plan, q: PlannedJob)
    requires q.base <= q.id
    ensures var j := Renamed(v, p, called, q);
            j.base == Join(v, q.base) && j.base <= j.id && forall x | q.id == q.base + x :: j.id == j.base + x
  {
    var j := Renamed(v, p, called, q);
    forall x | q.id == q.base + x ensures j.id == j.base + x {
      assert q.id[|q.base|..] == x;
    }
  }

  lemma NestedDeeper(d: JobDef, v: string, defs: seq<JobDef>, levels: seq<string>)
    requires Nested(defs, levels) && IsInvocation(d, v)
    ensures Nested([d] + defs, [v] + levels)
  {
    hide IsInvocation;
  }

  lemma StandsDeeper(library: Library, w: Workflow, d: JobDef, v: string, defs: seq<JobDef>, levels: seq<string>, leaf: string,
                     p: PlannedJob, called: Plan, q: PlannedJob)
    requires d in w.jobs && d.uses.Some? && d.uses.value in library && IsInvocation(d, v) && p.needs == d.needs
    requires Stands(library, library[d.uses.value], defs, levels, leaf, q)
    ensures q.base <= q.id && Stands(library, w, [d] + defs, [v] + levels, leaf, Renamed(v, p, called, q))
  {
    hide Copies, Scoped, Renamed, Nest;
    var inner := CalledGroup(library, defs[|levels|]);
    CopiedId(defs[|levels|], inner, leaf, q);
    NestedDeeper(d, v, defs, levels);
    assert ([d] + defs)[|levels| + 1] == defs[|levels|] && ([d] + defs)[1..] == defs;
    CopiesDeeper(defs[|levels|], inner, leaf, v, p, called, q);
    ScopedDeeper(d, v, defs, levels, leaf, p, called, q);
    NestDeeper(v, levels, leaf);
    IdDeeper(v, p, called, q);
  }

  lemma CopiedId(d: JobDef, inner: Option<string>, leaf: string, j: PlannedJob)
    requires Copies(d, inner, leaf, j)
    ensures j.base <= j.id
  {
  }

  // ---------------------------------------------------------------- one level

  /** A job of the workflow itself: everything it names is its own. */
  lemma StandsHere(library: Library, w: Workflow, d: JobDef, leaf: string, j: PlannedJob)
    requires d in w.jobs && j.base == leaf && Copies(d, CalledGroup(library, d), leaf, j)
    requires forall a | OwnName(d, leaf, j.kind, a).Some? :: a in j.aliases && j.aliases[a] == OwnName(d, leaf, j.kind, a).value
    requires forall a | a in j.aliases :: OwnName(d, leaf, j.kind, a).Some?
    ensures Standing(library, w, j)
  {
    hide Copies, OwnName;
    assert Nested([d], []) && Calls(library, w, [d]) && Nest([], leaf) == leaf;
    assert Scoped([d], [], leaf, j);
    assert Stands(library, w, [d], [], leaf, j);
  }

  lemma PlannedHere(library: Library, w: Workflow, d: JobDef, i: nat)
    requires d in w.jobs && i < d.instances
    ensures Standing(library, w, Instance(d, i))
  {
    var j := Instance(d, i);
    assert j.id == j.base + Number(d, i);
    hide Decimal;
    StandsHere(library, w, d, d.id, j);
  }

  lemma TemplateHere(library: Library, w: Workflow, d: JobDef, i: nat, called: Plan)
    requires d in w.jobs && i < d.instances
    ensures Standing(library, w, Instance(d, i).(kind := ReusableDynamicCall(called)))
  {
    var j := Instance(d, i).(kind := ReusableDynamicCall(called));
    assert j.id == j.base + Number(d, i);
    hide Decimal;
    StandsHere(library, w, d, d.id, j);
  }

  lemma GateHere(library: Library, w: Workflow, d: JobDef, i: nat, k: nat, called: Plan)
    requires d in w.jobs && i < d.instances && k < d.instances && called.concurrency == CalledGroup(library, d)
    ensures Standing(library, w, Gate(Invocation(d.id, d.instances, k), Instance(d, i), called))
  {
    var v := Invocation(d.id, d.instances, k);
    assert OwnScopes(v, Instance(d, i), called) == HeldBy(v, d.concurrency, called.concurrency);
    assert Guards(Gate(v, Instance(d, i), called), d.concurrency, called.concurrency);
    hide Invocation, OwnScopes, Join, Decimal, Guards, CalledGroup;
    StandsHere(library, w, d, Join(v, "gate"), Gate(v, Instance(d, i), called));
  }

  lemma FreedScopes(v: string, d: JobDef, i: nat, called: Plan)
    ensures Reversed(ScopeNames(OwnScopes(v, Instance(d, i), called))) == FreedBy(v, d.concurrency, called.concurrency)
  {
    hide Join, Decimal;
  }

  lemma ResultHere(library: Library, w: Workflow, d: JobDef, i: nat, k: nat, called: Plan)
    requires d in w.jobs && i < d.instances && k < d.instances && called.concurrency == CalledGroup(library, d)
    ensures Standing(library, w, ResultOf(Invocation(d.id, d.instances, k), Instance(d, i), called))
  {
    var v := Invocation(d.id, d.instances, k);
    assert IsInvocation(d, v);
    FreedScopes(v, d, i, called);
    hide Invocation, OwnScopes, Join, Decimal, IsInvocation, PublicIds, FreedBy, CalledGroup, Reversed, ScopeNames;
    StandsHere(library, w, d, v, ResultOf(v, Instance(d, i), called));
  }

  lemma CombinedHere(library: Library, w: Workflow, d: JobDef, i: nat)
    requires d in w.jobs && i < d.instances && d.instances != 1
    ensures Standing(library, w, Combined(d.id, Instance(d, i), Invocations(d.id, d.instances)))
  {
    hide Join, Decimal, Label;
    StandsHere(library, w, d, d.id, Combined(d.id, Instance(d, i), Invocations(d.id, d.instances)));
  }

  lemma PlaceholderIs(w: Workflow, c: string, i: nat) returns (d: JobDef, m: nat)
    requires WorkflowOk(w) && i < Count(Flat(w.jobs), c)
    ensures d in w.jobs && d.id == c && m < d.instances && PlaceholdersOf(Flat(w.jobs), c)[i] == Instance(d, m)
    ensures Count(Flat(w.jobs), c) == d.instances
  {
    hide Flat, Instance;
    var p := PlaceholdersOf(Flat(w.jobs), c)[i];
    assert p in PlaceholdersOf(Flat(w.jobs), c);
    InFlat(w.jobs, p);
    d, m :| d in w.jobs && m < d.instances && p == Instance(d, m);
    InstanceBase(d, m);
    PlaceholdersCounted(w.jobs, c);
  }

  lemma InstanceBase(d: JobDef, m: nat)
    ensures Instance(d, m).base == d.id && Instance(d, m).needs == d.needs
  {
  }

  ghost predicate CallsStanding(library: Library, w: Workflow, plans: map<string, Plan>) {
    forall c | c in plans :: CallStanding(library, w, c, plans[c])
  }

  ghost predicate CallStanding(library: Library, w: Workflow, c: string, called: Plan) {
    && c in UsesOf(w.jobs) && UsesOf(w.jobs)[c] in library && called.concurrency == library[UsesOf(w.jobs)[c]].concurrency
    && AllStanding(library, library[UsesOf(w.jobs)[c]], called.jobs)
  }

  lemma InnerStands(library: Library, w: Workflow, plans: map<string, Plan>, o: Origin)
    requires WorkflowOk(w) && CallsStanding(library, w, plans) && Expandable(Flat(w.jobs), plans)
    requires IsOrigin(Flat(w.jobs), plans, o) && o.Inner?
    ensures Standing(library, w, Made(Flat(w.jobs), plans, o))
  {
    hide *;
    var flat, c, q := Flat(w.jobs), o.call, o.job;
    InnerNamed(flat, plans, o);
    var d, m := PlaceholderIs(w, c, o.i);
    InstanceBase(d, m);
    CallStandsAt(library, w, plans, d, q);
    var defs, levels, leaf := StandsHow(library, library[d.uses.value], q);
    InvocationIs(flat, d, o.i);
    StandsDeeper(library, w, d, Inv(flat, c, o.i), defs, levels, leaf, Instance(d, m), plans[c], q);
    InnerMade(flat, plans, o, Instance(d, m));
    StandsSomehow(library, w, [d] + defs, [Inv(flat, c, o.i)] + levels, leaf, Made(flat, plans, o));
  }

  lemma InnerMade(jobs: seq<PlannedJob>, plans: map<string, Plan>, o: Origin, p: PlannedJob)
    requires Expandable(jobs, plans) && IsOrigin(jobs, plans, o) && o.Inner?
    requires o.i < Count(jobs, o.call) && PlaceholdersOf(jobs, o.call)[o.i] == p && o.job.base <= o.job.id
    ensures o.call in plans && Made(jobs, plans, o) == Renamed(Inv(jobs, o.call, o.i), p, plans[o.call], o.job)
  {
    hide Renamed, Inv, PlaceholdersOf;
  }

  lemma InvocationIs(jobs: seq<PlannedJob>, d: JobDef, i: nat)
    requires i < Count(jobs, d.id) == d.instances
    ensures IsInvocation(d, Inv(jobs, d.id, i))
  {
    hide Invocation;
  }

  lemma InnerIs(library: Library, w: Workflow, plans: map<string, Plan>, d: JobDef)
    requires WorkflowOk(w) && CallsStanding(library, w, plans) && d in w.jobs && d.id in plans
    ensures plans[d.id].concurrency == CalledGroup(library, d)
  {
    hide AllStanding;
    assert CallStanding(library, w, d.id, plans[d.id]);
    UsesDef(w, d.id);
    SameDef(w, d, DefOf(w, d.id));
  }

  lemma CallStandsAt(library: Library, w: Workflow, plans: map<string, Plan>, d: JobDef, q: PlannedJob)
    requires WorkflowOk(w) && CallsStanding(library, w, plans) && d in w.jobs && d.id in plans && q in plans[d.id].jobs
    ensures d.uses.Some? && d.uses.value in library && Standing(library, library[d.uses.value], q)
  {
    hide Standing;
    assert CallStanding(library, w, d.id, plans[d.id]);
    UsesDef(w, d.id);
    SameDef(w, d, DefOf(w, d.id));
  }

  lemma StandsHow(library: Library, w: Workflow, j: PlannedJob) returns (defs: seq<JobDef>, levels: seq<string>, leaf: string)
    requires Standing(library, w, j)
    ensures Stands(library, w, defs, levels, leaf, j)
  {
    hide Stands;
    defs, levels, leaf :| Stands(library, w, defs, levels, leaf, j);
  }

  lemma StandsSomehow(library: Library, w: Workflow, defs: seq<JobDef>, levels: seq<string>, leaf: string, j: PlannedJob)
    requires Stands(library, w, defs, levels, leaf, j)
    ensures Standing(library, w, j)
  {
    hide Stands;
  }

  lemma OriginStands(library: Library, w: Workflow, plans: map<string, Plan>, o: Origin)
    requires WorkflowOk(w) && CallsStanding(library, w, plans) && Expandable(Flat(w.jobs), plans)
    requires IsOrigin(Flat(w.jobs), plans, o)
    ensures Standing(library, w, Made(Flat(w.jobs), plans, o))
  {
    var flat := Flat(w.jobs);
    hide Flat, Standing, CallsStanding, WorkflowOk, Gate, ResultOf, Combined, Renamed, Instance, Instances, PlaceholdersOf, Invocation;
    if o.Kept? {
      InFlat(w.jobs, o.job);
      var d, i: nat :| d in w.jobs && i < d.instances && o.job == Instance(d, i);
      PlannedHere(library, w, d, i);
    } else if o.Inner? {
      InnerStands(library, w, plans, o);
    } else {
      HasPlaceholder(flat, o.call);
      var d, m := PlaceholderIs(w, o.call, if InvocationPart(o) then o.i else 0);
      InnerIs(library, w, plans, d);
      match o
      case Template(c) => TemplateHere(library, w, d, m, plans[c]);
      case GateOf(c, i) => GateHere(library, w, d, m, i, plans[c]);
      case ResultAt(c, i) => ResultHere(library, w, d, m, i, plans[c]);
      case CombinedAt(c) => CombinedHere(library, w, d, m);
    }
  }

  lemma SplicedStands(library: Library, w: Workflow, plans: map<string, Plan>)
    requires WorkflowOk(w) && CallsStanding(library, w, plans) && Expandable(Flat(w.jobs), plans)
    ensures AllStanding(library, w, Spliced(Flat(w.jobs), plans))
  {
    var linked := Spliced(Flat(w.jobs), plans);
    hide Standing, Spliced, Flat, WorkflowOk, Made, IsOrigin, CallsStanding, Expandable;
    forall j | j in linked ensures Standing(library, w, j) {
      OriginExists(Flat(w.jobs), plans, j);
      var o :| IsOrigin(Flat(w.jobs), plans, o) && Made(Flat(w.jobs), plans, o) == j;
      OriginStands(library, w, plans, o);
    }
  }

  // ---------------------------------------------------------------- every depth

  /**
   * Every job of a linked plan, however deep, keeps what its definition says, and what it finds under
   * a name is decided by the definitions on its call path alone, the innermost first.
   */
  lemma {:induction false} LinkedAliases(library: Library, w: Workflow, stack: seq<string>, called: set<string>, level: nat)
    requires LibraryOk(library) && WorkflowOk(w) && level <= MAX_LEVELS && Link(library, w, stack, called, level).0.Ok?
    ensures AllStanding(library, w, Link(library, w, stack, called, level).0.value.jobs)
    decreases MAX_LEVELS - level, 1, 0
  {
    hide *;
    LinkedLevel(library, w, stack, called, level);
    var plans := LinkCalls(library, w, CallIds(w), stack, called, level).0.value;
    CallsStand(library, w, CallIds(w), stack, called, level);
    SplicedStands(library, w, plans);
  }

  lemma LinkedConcurrency(library: Library, w: Workflow, stack: seq<string>, called: set<string>, level: nat)
    requires LibraryOk(library) && WorkflowOk(w) && level <= MAX_LEVELS && Link(library, w, stack, called, level).0.Ok?
    ensures Link(library, w, stack, called, level).0.value.concurrency == w.concurrency
  {
    hide LinkCalls, Flat, GraphOf, Linkable, PlanOk, PlansOk, LibraryOk, WorkflowOk, Spliced, HeadsFrom;
  }

  lemma {:induction false} CallsStand(library: Library, w: Workflow, ids: seq<string>, stack: seq<string>, called: set<string>, level: nat)
    requires LibraryOk(library) && WorkflowOk(w) && level <= MAX_LEVELS
    requires (forall c | c in ids :: c in UsesOf(w.jobs)) && LinkCalls(library, w, ids, stack, called, level).0.Ok?
    ensures CallsStanding(library, w, LinkCalls(library, w, ids, stack, called, level).0.value)
    decreases MAX_LEVELS - level, 0, |ids|
  {
    hide LinkCall, UsesOf, PlanOk, PlansOk, LibraryOk, WorkflowOk, CallStanding;
    if ids != [] {
      var front, last := ids[..|ids| - 1], ids[|ids| - 1];
      assert ids == front + [last];
      CallsStand(library, w, front, stack, called, level);
      CallStands(library, w, last, stack, LinkCalls(library, w, front, stack, called, level).1, level);
    }
  }

  lemma CallIsStanding(library: Library, w: Workflow, c: string, called: Plan)
    requires c in UsesOf(w.jobs) && UsesOf(w.jobs)[c] in library && called.concurrency == library[UsesOf(w.jobs)[c]].concurrency
    requires AllStanding(library, library[UsesOf(w.jobs)[c]], called.jobs)
    ensures CallStanding(library, w, c, called)
  {
    hide UsesOf, AllStanding;
  }

  lemma {:induction false} CallStands(library: Library, w: Workflow, c: string, stack: seq<string>, called: set<string>, level: nat)
    requires LibraryOk(library) && WorkflowOk(w) && level <= MAX_LEVELS && c in UsesOf(w.jobs)
    requires LinkCall(library, w, c, stack, called, level).0.Ok?
    ensures CallStanding(library, w, c, LinkCall(library, w, c, stack, called, level).0.value)
    decreases MAX_LEVELS - level, 0, 0
  {
    hide *;
    CalledLevel(library, w, c, stack, called, level);
    var path := UsesOf(w.jobs)[c];
    LinkedConcurrency(library, library[path], stack + [path], called + {path}, level + 1);
    LinkedAliases(library, library[path], stack + [path], called + {path}, level + 1);
    CallIsStanding(library, w, c, LinkCall(library, w, c, stack, called, level).0.value);
  }

  // ---------------------------------------------------------------- a result stands for all jobs of its invocation

  /** Each result names exactly the jobs of its own invocation, but not the gate and nothing inside a further call. */
  ghost predicate ResultsComplete(jobs: seq<PlannedJob>) {
    forall j | j in jobs && j.kind.ReusableResult? :: NamesAll(j, Bases(jobs))
  }

  ghost predicate NamesAll(j: PlannedJob, bases: set<string>)
    requires j.kind.ReusableResult?
  {
    forall x :: x in j.kind.jobs <==> Join(j.base, x) in bases && !Namespaced(x) && x != "gate"
  }

  lemma InsideInvocation(jobs: seq<PlannedJob>, plans: map<string, Plan>, c: string, i: nat, y: string)
    requires Expandable(jobs, plans) && WellNamed(jobs, plans) && Static(jobs, plans, c) && i < Count(jobs, c) && y != "gate"
    ensures Join(Inv(jobs, c, i), y) in Bases(Spliced(jobs, plans)) <==> y in Bases(plans[c].jobs)
  {
    var x := Join(Inv(jobs, c, i), y);
    var linked := Spliced(jobs, plans);
    hide Spliced, Made, Join, Invocation, PlaceholdersOf, Expandable;
    if x in Bases(linked) {
      var j :| j in linked && j.base == x;
      OriginExists(jobs, plans, j);
      var o :| IsOrigin(jobs, plans, o) && Made(jobs, plans, o) == j;
      MadeHasName(jobs, plans, o);
      OnlyInside(jobs, plans, c, i, y, o);
    }
    if q :| q in plans[c].jobs && q.base == y {
      var o := Inner(c, i, q);
      assert IsOrigin(jobs, plans, o);
      OriginMakes(jobs, plans, o);
      MadeHasName(jobs, plans, o);
    }
  }

  lemma OnlyInside(jobs: seq<PlannedJob>, plans: map<string, Plan>, c: string, i: nat, y: string, o: Origin)
    requires Expandable(jobs, plans) && WellNamed(jobs, plans) && Static(jobs, plans, c) && i < Count(jobs, c) && y != "gate"
    requires IsOrigin(jobs, plans, o) && NameOf(jobs, o) == Join(Inv(jobs, c, i), y)
    ensures y in Bases(plans[c].jobs)
  {
    HeadOfName(jobs, plans, o);
    HeadOfName(jobs, plans, GateOf(c, i));
    HeadOfInvocation(c, Count(jobs, c), i, y);
    hide Head, Join, Invocation, PlaceholdersOf, Expandable, WellNamed;
    var n := Count(jobs, c);
    match o
    case GateOf(_, k) => InvocationsSeparate(c, n, k, "gate", i, y);
    case Inner(_, k, q) => InvocationsSeparate(c, n, k, q.base, i, y);
    case ResultAt(_, k) => InvocationIsOutside(c, n, k, i, y);
    case CombinedAt(_) => InvocationIsOutside(c, n, i, i, y);
    case _ =>
  }

  lemma ResultNamesAll(jobs: seq<PlannedJob>, plans: map<string, Plan>, c: string, i: nat, p: PlannedJob)
    requires Expandable(jobs, plans) && WellNamed(jobs, plans) && Static(jobs, plans, c) && i < Count(jobs, c)
    ensures NamesAll(ResultOf(Inv(jobs, c, i), p, plans[c]), Bases(Spliced(jobs, plans)))
  {
    var bases := Bases(Spliced(jobs, plans));
    var v := Inv(jobs, c, i);
    GatesOutside(jobs, plans, c);
    ResultNames(v, p, plans[c]);
    var j := ResultOf(v, p, plans[c]);
    hide ResultOf, PublicIds, Spliced, Inv, Static, Count, Expandable, WellNamed, Bases, Join, Namespaced;
    forall x ensures x in j.kind.jobs <==> Join(j.base, x) in bases && !Namespaced(x) && x != "gate" {
      if x != "gate" { InsideInvocation(jobs, plans, c, i, x); }
    }
  }

  lemma GatesOutside(jobs: seq<PlannedJob>, plans: map<string, Plan>, c: string)
    requires WellNamed(jobs, plans) && c in plans
    ensures "gate" !in Bases(plans[c].jobs)
  {
  }

  lemma ResultNames(v: string, p: PlannedJob, called: Plan)
    ensures var j := ResultOf(v, p, called);
            j.base == v && j.kind.ReusableResult? && forall x :: x in j.kind.jobs <==> x in Bases(called.jobs) && !Namespaced(x)
  {
    hide Namespaced, Bases, OwnScopes;
  }

  lemma InnerNamesAll(jobs: seq<PlannedJob>, plans: map<string, Plan>, c: string, i: nat, p: PlannedJob, q: PlannedJob)
    requires Expandable(jobs, plans) && WellNamed(jobs, plans) && Static(jobs, plans, c) && i < Count(jobs, c)
    requires q.base <= q.id && q.kind.ReusableResult? && NamesAll(q, Bases(plans[c].jobs))
    ensures var j := Renamed(Inv(jobs, c, i), p, plans[c], q);
            j.kind.ReusableResult? && NamesAll(j, Bases(Spliced(jobs, plans)))
  {
    var bases := Bases(Spliced(jobs, plans));
    var v := Inv(jobs, c, i);
    var j := Renamed(v, p, plans[c], q);
    assert j.base == Join(v, q.base) && j.kind.ReusableResult? && j.kind.jobs.Keys == q.kind.jobs.Keys;
    hide Renamed, Spliced, Inv, Static, Count, Expandable, WellNamed, Bases, Namespaced;
    forall x ensures x in j.kind.jobs <==> Join(j.base, x) in bases && !Namespaced(x) && x != "gate" {
      JoinAssociative(v, q.base, x);
      JoinedIsNoGate(q.base, x);
      InsideInvocation(jobs, plans, c, i, Join(q.base, x));
    }
  }

  lemma JoinedIsNoGate(a: string, b: string)
    ensures Join(a, b) != "gate"
  {
    assert Join(a, b)[|a|] == ':';
  }

  lemma OriginNamesAll(w: Workflow, plans: map<string, Plan>, o: Origin)
    requires WorkflowOk(w) && Linkable(Flat(w.jobs), plans) && Expandable(Flat(w.jobs), plans)
    requires forall c | c in plans :: ResultsComplete(plans[c].jobs)
    requires IsOrigin(Flat(w.jobs), plans, o) && Made(Flat(w.jobs), plans, o).kind.ReusableResult?
    ensures NamesAll(Made(Flat(w.jobs), plans, o), Bases(Spliced(Flat(w.jobs), plans)))
  {
    var flat := Flat(w.jobs);
    LinkableParts(flat, plans);
    FlatIsOrdinary(w);
    hide Flat, WorkflowOk, Linkable, Spliced, Bases, NamesAll, Renamed, ResultOf, Gate, PlaceholdersOf, Inv, WellNamed, Rooted, Expandable;
    match o
    case Inner(c, i, q) =>
      InnerBase(flat, plans, o);
      InnerKind(Inv(flat, c, i), PlaceholdersOf(flat, c)[i], plans[c], q);
      assert ResultsComplete(plans[c].jobs);
      InnerNamesAll(flat, plans, c, i, PlaceholdersOf(flat, c)[i], q);
    case ResultAt(c, i) => ResultNamesAll(flat, plans, c, i, PlaceholdersOf(flat, c)[i]);
    case _ =>
  }

  lemma FlatIsOrdinary(w: Workflow)
    ensures forall j | j in Flat(w.jobs) :: j.kind == Ordinary
  {
    hide Flat;
    forall j | j in Flat(w.jobs) ensures j.kind == Ordinary { InFlat(w.jobs, j); }
  }

  lemma InnerBase(jobs: seq<PlannedJob>, plans: map<string, Plan>, o: Origin)
    requires Expandable(jobs, plans) && IsOrigin(jobs, plans, o) && o.Inner?
    ensures o.call in plans && o.job.base <= o.job.id && o.i < Count(jobs, o.call)
  {
    assert RefersTo(o.job, Bases(plans[o.call].jobs));
  }

  lemma InnerKind(v: string, p: PlannedJob, called: Plan, q: PlannedJob)
    requires q.base <= q.id
    ensures Renamed(v, p, called, q).kind.ReusableResult? <==> q.kind.ReusableResult?
  {
  }

  lemma SplicedResults(w: Workflow, plans: map<string, Plan>)
    requires WorkflowOk(w) && Linkable(Flat(w.jobs), plans) && Expandable(Flat(w.jobs), plans)
    requires forall c | c in plans :: ResultsComplete(plans[c].jobs)
    ensures ResultsComplete(Spliced(Flat(w.jobs), plans))
  {
    var linked := Spliced(Flat(w.jobs), plans);
    hide NamesAll, Spliced, Flat, WorkflowOk, Made, IsOrigin, Linkable, Expandable, Bases;
    forall j | j in linked && j.kind.ReusableResult? ensures NamesAll(j, Bases(linked)) {
      OriginExists(Flat(w.jobs), plans, j);
      var o :| IsOrigin(Flat(w.jobs), plans, o) && Made(Flat(w.jobs), plans, o) == j;
      OriginNamesAll(w, plans, o);
    }
  }

  /** At every depth a result names all jobs of its invocation that a caller can name, and no others. */
  lemma {:induction false} LinkedResults(library: Library, w: Workflow, stack: seq<string>, called: set<string>, level: nat)
    requires LibraryOk(library) && WorkflowOk(w) && level <= MAX_LEVELS && Link(library, w, stack, called, level).0.Ok?
    ensures ResultsComplete(Link(library, w, stack, called, level).0.value.jobs)
    decreases MAX_LEVELS - level, 1, 0
  {
    hide *;
    LinkedLevel(library, w, stack, called, level);
    var plans := LinkCalls(library, w, CallIds(w), stack, called, level).0.value;
    CallsResults(library, w, CallIds(w), stack, called, level);
    SplicedResults(w, plans);
  }

  lemma {:induction false} CallsResults(library: Library, w: Workflow, ids: seq<string>, stack: seq<string>, called: set<string>, level: nat)
    requires LibraryOk(library) && WorkflowOk(w) && level <= MAX_LEVELS
    requires (forall c | c in ids :: c in UsesOf(w.jobs)) && LinkCalls(library, w, ids, stack, called, level).0.Ok?
    ensures var plans := LinkCalls(library, w, ids, stack, called, level).0.value;
            forall c | c in plans :: ResultsComplete(plans[c].jobs)
    decreases MAX_LEVELS - level, 0, |ids|
  {
    hide LinkCall, UsesOf, PlanOk, PlansOk, LibraryOk, WorkflowOk, ResultsComplete;
    if ids != [] {
      var front, last := ids[..|ids| - 1], ids[|ids| - 1];
      assert ids == front + [last];
      CallsResults(library, w, front, stack, called, level);
      CallResults(library, w, last, stack, LinkCalls(library, w, front, stack, called, level).1, level);
    }
  }

  lemma {:induction false} CallResults(library: Library, w: Workflow, c: string, stack: seq<string>, called: set<string>, level: nat)
    requires LibraryOk(library) && WorkflowOk(w) && level <= MAX_LEVELS && c in UsesOf(w.jobs)
    requires LinkCall(library, w, c, stack, called, level).0.Ok?
    ensures ResultsComplete(LinkCall(library, w, c, stack, called, level).0.value.jobs)
    decreases MAX_LEVELS - level, 0, 0
  {
    CalledLevel(library, w, c, stack, called, level);
    var path := UsesOf(w.jobs)[c];
    hide *;
    LinkedResults(library, library[path], stack + [path], called + {path}, level + 1);
  }
}
