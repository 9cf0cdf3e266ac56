/** Workflows, planned jobs, and what one level of linking makes of them. */
module Plans {
  import opened Basics
  import opened Names
  import opened Dependencies

  // ---------------------------------------------------------------- permissions

  datatype Permissions = Permissions(read: set<string>, write: set<string>)

  function Intersect(p: Permissions, maximum: Permissions): Permissions {
    var available := set x | x in p.read + p.write && (x in maximum.read || x in maximum.write);
    var write := p.write * maximum.write;
    Permissions(available - write, write)
  }

  // ---------------------------------------------------------------- workflows and plans

  /** `instances` counts the combinations of the job's matrix; an expression matrix is `dynamic`. */
  datatype JobDef = JobDef(
    id: string,
    needs: seq<string>,
    condition: Option<string>,
    uses: Option<string>,
    instances: nat,
    hasMatrix: bool,
    dynamic: bool,
    maxParallel: Option<nat>,
    failFast: bool,
    permissions: Permissions,
    concurrency: Option<string>)

  datatype Workflow = Workflow(jobs: seq<JobDef>, concurrency: Option<string>)

  datatype Scope = Scope(id: string, configuration: string)

  datatype Virtual =
    | Ordinary
    | ReusableGate
    | ReusableResult(jobs: map<string, string>)
    | ReusableMatrixResult(invocations: seq<string>, parallel: nat, stopsEarly: bool)
    | ReusableDynamicCall(called: Plan)

  datatype PlannedJob = PlannedJob(
    id: string,
    base: string,
    needs: seq<string>,
    aliases: map<string, string>,
    condition: Option<string>,
    kind: Virtual,
    dynamic: bool,
    maxParallel: Option<nat>,
    failFast: bool,
    permissions: Permissions,
    concurrency: Option<string>,
    scopeIds: seq<string>,
    acquire: seq<Scope>,
    release: seq<string>)

  datatype Plan = Plan(jobs: seq<PlannedJob>, concurrency: Option<string>)

  const ALWAYS := "${{ always() }}"

  // ---------------------------------------------------------------- ordered sets of ids

  predicate Before(a: string, b: string) {
    if b == "" then false
    else if a == "" then true
    else if a[0] == b[0] then Before(a[1..], b[1..])
    else a[0] < b[0]
  }

  /** Insertion into an ordered set. */
  function Insert(ids: seq<string>, x: string): (r: seq<string>)
    ensures forall y :: y in r <==> y in ids || y == x
  {
    if ids == [] then [x]
    else if ids[0] == x then ids
    else if Before(x, ids[0]) then [x] + ids
    else [ids[0]] + Insert(ids[1..], x)
  }

  /** The distinct ids in order. */
  function Sorted(ids: seq<string>): (r: seq<string>)
    ensures forall y :: y in r <==> y in ids
  {
    if ids == [] then []
    else
      assert ids == ids[..|ids| - 1] + [ids[|ids| - 1]];
      Insert(Sorted(ids[..|ids| - 1]), ids[|ids| - 1])
  }

  // ---------------------------------------------------------------- compiling one workflow

  function Identity(ids: seq<string>): map<string, string> {
    map x | x in ids :: x
  }

  function Instance(d: JobDef, i: nat): PlannedJob {
    PlannedJob(if d.hasMatrix then d.id + "[" + Decimal(i + 1) + "]" else d.id, d.id, d.needs, Identity(d.needs), d.condition,
               Ordinary, d.dynamic, d.maxParallel, d.failFast, d.permissions, d.concurrency, [], [], [])
  }

  function Instances(d: JobDef, n: nat): seq<PlannedJob> {
    if n == 0 then [] else Instances(d, n - 1) + [Instance(d, n - 1)]
  }

  /** One planned job per combination; a call is planned as a placeholder. */
  function Flat(jobs: seq<JobDef>): seq<PlannedJob> {
    if jobs == [] then [] else Flat(jobs[..|jobs| - 1]) + Instances(jobs[|jobs| - 1], jobs[|jobs| - 1].instances)
  }

  function Bases(jobs: seq<PlannedJob>): set<string> {
    set j | j in jobs :: j.base
  }

  /** The graph the dependency check builds: the needs of the first job of each base id. */
  function GraphOf(jobs: seq<PlannedJob>): (g: Graph)
    ensures g.Keys == Bases(jobs)
  {
    if jobs == [] then map[]
    else
      var last := jobs[|jobs| - 1];
      assert jobs == jobs[..|jobs| - 1] + [last];
      var g := GraphOf(jobs[..|jobs| - 1]);
      if last.base in g then g else g[last.base := last.needs]
  }

  // ---------------------------------------------------------------- expanding one invocation

  function OwnScopes(v: string, p: PlannedJob, called: Plan): seq<Scope> {
    (if p.concurrency.Some? then [Scope(Join(v, "caller-concurrency"), p.concurrency.value)] else [])
    + (if called.concurrency.Some? then [Scope(Join(v, "workflow-concurrency"), called.concurrency.value)] else [])
  }

  function ScopeNames(scopes: seq<Scope>): (r: seq<string>)
    ensures |r| == |scopes| && forall i | 0 <= i < |scopes| :: r[i] == scopes[i].id
  {
    seq(|scopes|, i requires 0 <= i < |scopes| => scopes[i].id)
  }

  function JoinEach(v: string, ids: seq<string>): (r: seq<string>)
    ensures |r| == |ids| && forall i | 0 <= i < |ids| :: r[i] == Join(v, ids[i])
  {
    seq(|ids|, i requires 0 <= i < |ids| => Join(v, ids[i]))
  }

  function JoinValues(v: string, m: map<string, string>): map<string, string> {
    map x | x in m :: Join(v, m[x])
  }

  function JoinScopes(v: string, scopes: seq<Scope>): (r: seq<Scope>)
    ensures |r| == |scopes| && forall i | 0 <= i < |scopes| :: r[i] == Scope(Join(v, scopes[i].id), scopes[i].configuration)
  {
    seq(|scopes|, i requires 0 <= i < |scopes| => Scope(Join(v, scopes[i].id), scopes[i].configuration))
  }

  function JoinKind(v: string, kind: Virtual): Virtual {
    match kind
    case ReusableResult(jobs) => ReusableResult(JoinValues(v, jobs))
    case ReusableMatrixResult(invocations, parallel, stops) => ReusableMatrixResult(JoinEach(v, invocations), parallel, stops)
    case _ => kind
  }

  function Reversed(ids: seq<string>): (r: seq<string>)
    ensures |r| == |ids| && forall i | 0 <= i < |ids| :: r[i] == ids[|ids| - 1 - i]
  {
    seq(|ids|, i requires 0 <= i < |ids| => ids[|ids| - 1 - i])
  }

  function Gate(v: string, p: PlannedJob, called: Plan): PlannedJob {
    p.(id := Join(v, "gate"), base := Join(v, "gate"), concurrency := None, kind := ReusableGate,
       scopeIds := ScopeNames(OwnScopes(v, p, called)), acquire := OwnScopes(v, p, called), release := [])
  }

  /** Every name a job carries refers to a job of its plan, and its id extends its base id. */
  predicate RefersTo(j: PlannedJob, bases: set<string>) {
    && j.base <= j.id
    && (forall x | x in j.needs :: x in bases)
    && (forall a | a in j.aliases :: j.aliases[a] in bases)
    && match j.kind
       case ReusableResult(jobs) => forall a | a in jobs :: jobs[a] in bases
       case ReusableMatrixResult(invocations, _, _) => forall x | x in invocations :: x in bases
       case _ => true
  }

  predicate RefersWithin(jobs: seq<PlannedJob>) {
    forall j | j in jobs :: RefersTo(j, Bases(jobs))
  }

  /** A called job inside invocation `v`. */
  function Renamed(v: string, p: PlannedJob, called: Plan, j: PlannedJob): PlannedJob
    requires j.base <= j.id
  {
    j.(id := Join(v, j.base) + j.id[|j.base|..],
       base := Join(v, j.base),
       needs := JoinEach(v, j.needs) + [Join(v, "gate")],
       aliases := Identity(p.needs) + JoinValues(v, j.aliases),
       kind := JoinKind(v, j.kind),
       permissions := Intersect(j.permissions, p.permissions),
       scopeIds := ScopeNames(OwnScopes(v, p, called)) + JoinEach(v, j.scopeIds),
       acquire := JoinScopes(v, j.acquire),
       release := JoinEach(v, j.release))
  }

  function RenamedAll(v: string, p: PlannedJob, called: Plan, jobs: seq<PlannedJob>): (r: seq<PlannedJob>)
    requires forall j | j in jobs :: j.base <= j.id
    ensures |r| == |jobs| && forall i | 0 <= i < |jobs| :: r[i] == Renamed(v, p, called, jobs[i])
  {
    seq(|jobs|, i requires 0 <= i < |jobs| => Renamed(v, p, called, jobs[i]))
  }

  function AllBases(jobs: seq<PlannedJob>): (r: seq<string>)
    ensures |r| == |jobs| && forall i | 0 <= i < |jobs| :: r[i] == jobs[i].base
    ensures forall x :: x in r <==> x in Bases(jobs)
  {
    var r := seq(|jobs|, i requires 0 <= i < |jobs| => jobs[i].base);
    assert forall i | 0 <= i < |jobs| :: jobs[i].base in Bases(jobs);
    assert forall j | j in jobs :: j.base in r by {
      forall j | j in jobs ensures j.base in r {
        var i :| 0 <= i < |jobs| && jobs[i] == j;
        assert r[i] == j.base;
      }
    }
    r
  }

  /** The called jobs a caller can name. */
  function PublicIds(jobs: seq<PlannedJob>): (r: seq<string>)
    ensures forall x :: x in r <==> x in Bases(jobs) && !Namespaced(x)
  {
    OnlyPublic(Sorted(AllBases(jobs)))
  }

  function OnlyPublic(ids: seq<string>): (r: seq<string>)
    ensures forall x :: x in r <==> x in ids && !Namespaced(x)
  {
    if ids == [] then [] else (if Namespaced(ids[0]) then [] else [ids[0]]) + OnlyPublic(ids[1..])
  }

  function PublicAliases(v: string, jobs: seq<PlannedJob>): map<string, string> {
    map x | x in PublicIds(jobs) :: Join(v, x)
  }

  function ResultOf(v: string, p: PlannedJob, called: Plan): PlannedJob {
    p.(id := v, base := v, condition := Some(ALWAYS), needs := JoinEach(v, PublicIds(called.jobs)),
       aliases := PublicAliases(v, called.jobs), concurrency := None,
       scopeIds := ScopeNames(OwnScopes(v, p, called)), acquire := [],
       release := Reversed(ScopeNames(OwnScopes(v, p, called))),
       kind := ReusableResult(PublicAliases(v, called.jobs)))
  }

  /** Gate, renamed called jobs, result. */
  function Expanded(v: string, p: PlannedJob, called: Plan): seq<PlannedJob>
    requires RefersWithin(called.jobs)
  {
    [Gate(v, p, called)] + RenamedAll(v, p, called, called.jobs) + [ResultOf(v, p, called)]
  }

  // ---------------------------------------------------------------- expanding one call

  function Invocations(c: string, n: nat): (r: seq<string>)
    ensures |r| == n && forall i | 0 <= i < n :: r[i] == Invocation(c, n, i)
  {
    seq(n, i requires 0 <= i < n => Invocation(c, n, i))
  }

  function Min(a: nat, b: nat): nat {
    if a < b then a else b
  }

  function Max(a: nat, b: nat): nat {
    if a < b then b else a
  }

  function Combined(c: string, p: PlannedJob, invocations: seq<string>): PlannedJob {
    p.(id := c, base := c, condition := Some(ALWAYS), needs := invocations, aliases := Identity(invocations),
       dynamic := false, maxParallel := None, concurrency := None, scopeIds := [], acquire := [], release := [],
       kind := ReusableMatrixResult(invocations, Max(Min(p.maxParallel.GetOr(|invocations|), |invocations|), 1), p.failFast))
  }

  /** The expansions of the first `k` of `n` invocations. */
  function Bodies(c: string, ps: seq<PlannedJob>, called: Plan, k: nat): seq<PlannedJob>
    requires k <= |ps| && RefersWithin(called.jobs)
  {
    if k == 0 then [] else Bodies(c, ps, called, k - 1) + Expanded(Invocation(c, |ps|, k - 1), ps[k - 1], called)
  }

  predicate AnyDynamic(ps: seq<PlannedJob>) {
    exists p | p in ps :: p.dynamic
  }

  /** What replaces the placeholders of one call. */
  function Expansion(c: string, ps: seq<PlannedJob>, called: Plan): seq<PlannedJob>
    requires ps != [] && RefersWithin(called.jobs)
  {
    if AnyDynamic(ps) then [ps[0].(kind := ReusableDynamicCall(called))]
    else if |ps| == 1 then Expanded(c, ps[0], called)
    else Bodies(c, ps, called, |ps|) + [Combined(c, ps[0], Invocations(c, |ps|))]
  }

  // ---------------------------------------------------------------- putting the plan together

  function PlaceholdersOf(jobs: seq<PlannedJob>, c: string): (ps: seq<PlannedJob>)
    ensures forall j :: j in ps <==> j in jobs && j.base == c
  {
    if jobs == [] then []
    else
      assert jobs == jobs[..|jobs| - 1] + [jobs[|jobs| - 1]];
      var ps := PlaceholdersOf(jobs[..|jobs| - 1], c);
      if jobs[|jobs| - 1].base == c then ps + [jobs[|jobs| - 1]] else ps
  }

  /** Each call's first placeholder makes way for its expansion; the others disappear. */
  function Replaced(jobs: seq<PlannedJob>, expansions: map<string, seq<PlannedJob>>): seq<PlannedJob> {
    if jobs == [] then []
    else
      var last := jobs[|jobs| - 1];
      var front := jobs[..|jobs| - 1];
      Replaced(front, expansions)
      + (if last.base !in expansions then [last]
         else if last.base in Bases(front) then []
         else expansions[last.base])
  }

  /** Calls have placeholders to expand and called plans whose references resolve. */
  predicate Expandable(jobs: seq<PlannedJob>, plans: map<string, Plan>) {
    plans.Keys <= Bases(jobs) && forall c | c in plans :: RefersWithin(plans[c].jobs)
  }

  lemma HasPlaceholder(jobs: seq<PlannedJob>, c: string)
    requires c in Bases(jobs)
    ensures PlaceholdersOf(jobs, c) != []
  {
    var j :| j in jobs && j.base == c;
    assert j in PlaceholdersOf(jobs, c);
  }

  function Expansions(jobs: seq<PlannedJob>, plans: map<string, Plan>): map<string, seq<PlannedJob>>
    requires Expandable(jobs, plans)
  {
    map c | c in plans :: HasPlaceholder(jobs, c); Expansion(c, PlaceholdersOf(jobs, c), plans[c])
  }

  function Spliced(jobs: seq<PlannedJob>, plans: map<string, Plan>): seq<PlannedJob>
    requires Expandable(jobs, plans)
  {
    Replaced(jobs, Expansions(jobs, plans))
  }
}
