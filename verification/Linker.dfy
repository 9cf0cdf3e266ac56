/**
 * The recursive linker: every level compiled, its calls linked first, its plan spliced and checked.
 * `Link` is the meaning of one level, `level` its nesting depth up to the bound; what it returns on
 * success is a sound plan. The second part of each result is the set of workflows called so far.
 */
module Linker {
  import opened Basics
  import opened Names
  import opened Dependencies
  import opened Plans
  import opened Splicing
  import opened LinkOrder
  import opened LinkReach
  import opened LinkedPlans

  const MAX_LEVELS := 10
  const MAX_UNIQUE := 50

  datatype LinkError =
    | BadGraph
    | TooManyWorkflows(job: string)
    | TooDeep(job: string)
    | CallCycle(job: string)
    | NotFound(job: string)
    | NoJobs(job: string)
    | ManyTemplates(job: string)

  type Library = map<string, Workflow>

  // ---------------------------------------------------------------- compiling one level

  predicate UniqueIds(w: Workflow) {
    forall i, k | 0 <= i < k < |w.jobs| :: w.jobs[i].id != w.jobs[k].id
  }

  /** What linking asks of a workflow: plain ids, and a combination for every call. */
  predicate WorkflowOk(w: Workflow) {
    && UniqueIds(w)
    && forall d | d in w.jobs :: Sealed(d.id) && (d.uses.Some? ==> d.instances > 0)
  }

  predicate LibraryOk(library: Library) {
    forall path | path in library :: WorkflowOk(library[path]) && forall d | d in library[path].jobs :: d.id != "gate"
  }

  lemma {:induction false} InInstances(d: JobDef, n: nat, j: PlannedJob)
    ensures j in Instances(d, n) <==> exists i :: 0 <= i < n && j == Instance(d, i)
  {
    hide Instance;
    if n > 0 { InInstances(d, n - 1, j); }
  }

  lemma {:induction false} InFlat(jobs: seq<JobDef>, j: PlannedJob)
    ensures j in Flat(jobs) <==> exists d, i: nat :: d in jobs && i < d.instances && j == Instance(d, i)
  {
    hide Instance, Instances;
    if jobs != [] {
      var front, last := jobs[..|jobs| - 1], jobs[|jobs| - 1];
      assert jobs == front + [last];
      InFlat(front, j);
      InInstances(last, last.instances, j);
    }
  }

  lemma DefOfInstance(w: Workflow, j: PlannedJob)
    requires j in Flat(w.jobs)
    ensures exists d, i: nat :: d in w.jobs && i < d.instances && j == Instance(d, i) && j.base == d.id && j.needs == d.needs
  {
    InFlat(w.jobs, j);
    var d, i: nat :| d in w.jobs && i < d.instances && j == Instance(d, i);
    assert j.base == d.id && j.needs == d.needs;
  }

  lemma SameDef(w: Workflow, d: JobDef, e: JobDef)
    requires UniqueIds(w) && d in w.jobs && e in w.jobs && d.id == e.id
    ensures d == e
  {
    var i :| 0 <= i < |w.jobs| && w.jobs[i] == d;
    var k :| 0 <= k < |w.jobs| && w.jobs[k] == e;
  }

  /** A flat plan whose graph is accepted is sound. */
  lemma FlatOk(w: Workflow)
    requires WorkflowOk(w) && Accepted(GraphOf(Flat(w.jobs)))
    ensures PlanOk(Flat(w.jobs)) && forall j | j in Flat(w.jobs) :: Sealed(j.base)
  {
    var flat := Flat(w.jobs);
    hide Flat, Accepted, GraphOf, RefersTo, RootedAt;
    forall j, k | j in flat && k in flat && j.base == k.base ensures j.needs == k.needs {
      DefOfInstance(w, j);
      DefOfInstance(w, k);
      var d, i: nat :| d in w.jobs && j == Instance(d, i) && j.base == d.id && j.needs == d.needs;
      var e, m: nat :| e in w.jobs && k == Instance(e, m) && k.base == e.id && k.needs == e.needs;
      SameDef(w, d, e);
    }
    forall j | j in flat ensures Sealed(j.base) && RootedAt(flat, j.base) && RefersTo(j, Bases(flat)) {
      FlatJobOk(w, j);
    }
  }

  lemma FlatJobOk(w: Workflow, j: PlannedJob)
    requires WorkflowOk(w) && Accepted(GraphOf(Flat(w.jobs))) && j in Flat(w.jobs)
    ensures Sealed(j.base) && RootedAt(Flat(w.jobs), j.base) && RefersTo(j, Bases(Flat(w.jobs)))
  {
    hide *;
    var d, i := InstanceIn(w, j);
    HeadOfJoin(d.id, "");
    OwnHeadIsRooted(Flat(w.jobs), d.id);
    FlatUniqueIds(w);
    FlatNeedsKnown(w, j);
    InstanceRefers(d, i, Bases(Flat(w.jobs)));
  }

  lemma FlatUniqueIds(w: Workflow)
    requires WorkflowOk(w)
    ensures UniqueIds(w)
  {
  }

  lemma InstanceIn(w: Workflow, j: PlannedJob) returns (d: JobDef, i: nat)
    requires WorkflowOk(w) && j in Flat(w.jobs)
    ensures d in w.jobs && j == Instance(d, i) && j.base == d.id && j.needs == d.needs && Sealed(d.id)
  {
    hide Flat, Sealed, Instance;
    DefOfInstance(w, j);
    d, i :| d in w.jobs && j == Instance(d, i) && j.base == d.id && j.needs == d.needs;
  }

  lemma OwnHeadIsRooted(jobs: seq<PlannedJob>, x: string)
    requires Head(x) == x
    ensures RootedAt(jobs, x)
  {
  }

  lemma InstanceRefers(d: JobDef, i: nat, bases: set<string>)
    requires forall x | x in d.needs :: x in bases
    ensures RefersTo(Instance(d, i), bases)
  {
  }

  lemma FlatNeedsKnown(w: Workflow, j: PlannedJob)
    requires UniqueIds(w) && Accepted(GraphOf(Flat(w.jobs))) && j in Flat(w.jobs)
    ensures forall x | x in j.needs :: x in Bases(Flat(w.jobs))
  {
    var flat := Flat(w.jobs);
    FlatSameNeeds(w);
    GraphHasNeeds(flat, j);
    AcceptedIsAcyclic(GraphOf(flat));
  }

  lemma FlatSameNeeds(w: Workflow)
    requires UniqueIds(w)
    ensures SameNeeds(Flat(w.jobs))
  {
    var flat := Flat(w.jobs);
    hide Flat;
    forall j, k | j in flat && k in flat && j.base == k.base ensures j.needs == k.needs {
      DefOfInstance(w, j);
      DefOfInstance(w, k);
      var d, i: nat :| d in w.jobs && j == Instance(d, i) && j.base == d.id && j.needs == d.needs;
      var e, m: nat :| e in w.jobs && k == Instance(e, m) && k.base == e.id && k.needs == e.needs;
      SameDef(w, d, e);
    }
  }

  // ---------------------------------------------------------------- calls

  function UsesOf(jobs: seq<JobDef>): (calls: map<string, string>)
    ensures forall c | c in calls :: exists d :: d in jobs && d.id == c && d.uses == Some(calls[c])
  {
    if jobs == [] then map[]
    else
      var last := jobs[|jobs| - 1];
      assert jobs == jobs[..|jobs| - 1] + [last];
      var calls := UsesOf(jobs[..|jobs| - 1]);
      if last.uses.Some? then calls[last.id := last.uses.value] else calls
  }

  function CallNames(jobs: seq<JobDef>): seq<string> {
    if jobs == [] then []
    else CallNames(jobs[..|jobs| - 1]) + (if jobs[|jobs| - 1].uses.Some? then [jobs[|jobs| - 1].id] else [])
  }

  lemma {:induction false} CallNamesAre(jobs: seq<JobDef>, c: string)
    ensures c in CallNames(jobs) <==> c in UsesOf(jobs)
  {
    if jobs != [] { CallNamesAre(jobs[..|jobs| - 1], c); }
  }

  /** The calls of a workflow in the order of their ids. */
  function CallIds(w: Workflow): (ids: seq<string>)
    ensures forall c :: c in ids <==> c in UsesOf(w.jobs)
  {
    assert forall c :: c in CallNames(w.jobs) <==> c in UsesOf(w.jobs) by {
      forall c ensures c in CallNames(w.jobs) <==> c in UsesOf(w.jobs) { CallNamesAre(w.jobs, c); }
    }
    Sorted(CallNames(w.jobs))
  }

  lemma CallsHavePlaceholders(w: Workflow)
    requires WorkflowOk(w)
    ensures forall c | c in UsesOf(w.jobs) :: c in Bases(Flat(w.jobs))
  {
    forall c | c in UsesOf(w.jobs) ensures c in Bases(Flat(w.jobs)) {
      var d :| d in w.jobs && d.id == c && d.uses.Some?;
      InFlat(w.jobs, Instance(d, 0));
      assert Instance(d, 0) in Flat(w.jobs);
    }
  }

  /** Every id of the plan starts with a job id of the workflow. */
  predicate HeadsFrom(jobs: seq<PlannedJob>, flat: seq<PlannedJob>) {
    forall x | x in Bases(jobs) :: Head(x) in Bases(flat)
  }

  predicate CalledOk(p: Plan) {
    p.jobs != [] && "gate" !in Bases(p.jobs)
  }

  ghost predicate PlansOk(plans: map<string, Plan>) {
    forall c | c in plans :: PlanOk(plans[c].jobs) && CalledOk(plans[c])
  }

  lemma LevelLinkable(w: Workflow, plans: map<string, Plan>)
    requires WorkflowOk(w) && Accepted(GraphOf(Flat(w.jobs))) && PlansOk(plans) && plans.Keys == UsesOf(w.jobs).Keys
    ensures Linkable(Flat(w.jobs), plans) && Expandable(Flat(w.jobs), plans)
  {
    hide *;
    FlatOk(w);
    CallsHavePlaceholders(w);
    PlansApart(plans);
    ExpandableLevel(Flat(w.jobs), plans);
    LinkableLevel(Flat(w.jobs), plans);
  }

  lemma ExpandableLevel(jobs: seq<PlannedJob>, plans: map<string, Plan>)
    requires forall c | c in plans :: c in Bases(jobs) && RefersWithin(plans[c].jobs)
    ensures Expandable(jobs, plans)
  {
    hide Bases, RefersWithin;
  }

  lemma LinkableLevel(jobs: seq<PlannedJob>, plans: map<string, Plan>)
    requires Expandable(jobs, plans) && PlanOk(jobs) && forall j | j in jobs :: Sealed(j.base)
    requires forall c | c in plans :: PlanOk(plans[c].jobs) && plans[c].jobs != [] && "gate" !in Bases(plans[c].jobs)
    ensures Linkable(jobs, plans)
  {
    hide Expandable, PlanOk, Sealed, Bases;
  }

  lemma PlansApart(plans: map<string, Plan>)
    requires PlansOk(plans)
    ensures forall c | c in plans :: PlanOk(plans[c].jobs) && RefersWithin(plans[c].jobs)
    ensures forall c | c in plans :: plans[c].jobs != [] && "gate" !in Bases(plans[c].jobs)
  {
    hide RefersWithin, SameNeeds, Accepted, Rooted, Bases;
  }

  lemma SplicedHeads(jobs: seq<PlannedJob>, plans: map<string, Plan>)
    requires Linkable(jobs, plans)
    ensures HeadsFrom(Spliced(jobs, plans), jobs)
  {
    LinkableParts(jobs, plans);
    var linked := Spliced(jobs, plans);
    hide Linkable, Spliced, GraphOf, IsOrigin, NameOf, Head;
    forall x | x in Bases(linked) ensures Head(x) in Bases(jobs) {
      NodeOrigin(jobs, plans, x);
      var o :| IsOrigin(jobs, plans, o) && NameOf(jobs, o) == x;
      HeadOfName(jobs, plans, o);
    }
  }

  /** No job of a linked plan is called `gate` unless the workflow has one. */
  lemma NoGate(w: Workflow, jobs: seq<PlannedJob>)
    requires HeadsFrom(jobs, Flat(w.jobs)) && forall d | d in w.jobs :: d.id != "gate"
    ensures "gate" !in Bases(jobs)
  {
    HeadOfJoin("gate", "");
    if "gate" in Bases(jobs) {
      assert "gate" in Bases(Flat(w.jobs));
      var j :| j in Flat(w.jobs) && j.base == "gate";
      DefOfInstance(w, j);
    }
  }

  /** A job has placeholders to expand, or instances to run, if and only if its matrix has a combination. */
  lemma PlaceholdersExactly(w: Workflow, d: JobDef)
    requires UniqueIds(w) && d in w.jobs
    ensures PlaceholdersOf(Flat(w.jobs), d.id) == [] <==> d.instances == 0
  {
    hide Flat, UniqueIds;
    if d.instances > 0 {
      InFlat(w.jobs, Instance(d, 0));
      assert Instance(d, 0) in PlaceholdersOf(Flat(w.jobs), d.id);
    } else if PlaceholdersOf(Flat(w.jobs), d.id) != [] {
      var j := PlaceholdersOf(Flat(w.jobs), d.id)[0];
      InFlat(w.jobs, j);
      var e, i: nat :| e in w.jobs && i < e.instances && j == Instance(e, i);
      SameDef(w, d, e);
    }
  }

  lemma PlaceholderExists(w: Workflow, c: string)
    requires WorkflowOk(w) && c in UsesOf(w.jobs)
    ensures PlaceholdersOf(Flat(w.jobs), c) != []
  {
    CallsHavePlaceholders(w);
    HasPlaceholder(Flat(w.jobs), c);
  }

  // ---------------------------------------------------------------- the meaning of the recursion

  /** What one level comes to, and the distinct workflows called so far. */
  ghost function Link(library: Library, w: Workflow, stack: seq<string>, called: set<string>, level: nat)
    : (r: (Result<Plan, LinkError>, set<string>))
    requires LibraryOk(library) && WorkflowOk(w) && level <= MAX_LEVELS
    ensures r.0.Ok? ==> PlanOk(r.0.value.jobs) && HeadsFrom(r.0.value.jobs, Flat(w.jobs))
    decreases MAX_LEVELS - level, 1, 0
  {
    if !Accepted(GraphOf(Flat(w.jobs))) then (Err(BadGraph), called)
    else
      var (calls, now) := LinkCalls(library, w, CallIds(w), stack, called, level);
      match calls
      case Err(e) => (Err(e), now)
      case Ok(plans) =>
        LevelLinkable(w, plans);
        SplicedOk(Flat(w.jobs), plans);
        SplicedHeads(Flat(w.jobs), plans);
        var linked := Spliced(Flat(w.jobs), plans);
        if Accepted(GraphOf(linked)) then (Ok(Plan(linked, w.concurrency)), now) else (Err(BadGraph), now)
  }

  /** The called plans of the calls `ids`, linked one after another. */
  ghost function LinkCalls(library: Library, w: Workflow, ids: seq<string>, stack: seq<string>, called: set<string>, level: nat)
    : (r: (Result<map<string, Plan>, LinkError>, set<string>))
    requires LibraryOk(library) && WorkflowOk(w) && level <= MAX_LEVELS
    requires forall c | c in ids :: c in UsesOf(w.jobs)
    ensures r.0.Ok? ==> PlansOk(r.0.value) && forall c :: c in r.0.value <==> c in ids
    decreases MAX_LEVELS - level, 0, |ids|
  {
    hide PlanOk, CalledOk;
    if ids == [] then (Ok(map[]), called)
    else
      assert ids == ids[..|ids| - 1] + [ids[|ids| - 1]];
      var (front, before) := LinkCalls(library, w, ids[..|ids| - 1], stack, called, level);
      if front.Err? then (front, before)
      else
        var (last, now) := LinkCall(library, w, ids[|ids| - 1], stack, before, level);
        match last
        case Err(e) => (Err(e), now)
        case Ok(plan) => (Ok(front.value[ids[|ids| - 1] := plan]), now)
  }

  /** The checks around one call, and its called plan. */
  ghost function LinkCall(library: Library, w: Workflow, c: string, stack: seq<string>, called: set<string>, level: nat)
    : (r: (Result<Plan, LinkError>, set<string>))
    requires LibraryOk(library) && WorkflowOk(w) && level <= MAX_LEVELS && c in UsesOf(w.jobs)
    ensures r.0.Ok? ==> PlanOk(r.0.value.jobs) && CalledOk(r.0.value)
    decreases MAX_LEVELS - level, 0, 0
  {
    var path := UsesOf(w.jobs)[c];
    var now := called + {path};
    if |now| > MAX_UNIQUE then (Err(TooManyWorkflows(c)), now)
    else if level >= MAX_LEVELS then (Err(TooDeep(c)), now)
    else if path in stack then (Err(CallCycle(c)), now)
    else if path !in library then (Err(NotFound(c)), now)
    else
      var (linked, after) := Link(library, library[path], stack + [path], now, level + 1);
      if linked.Err? then (linked, after)
      else
        NoGate(library[path], linked.value.jobs);
        if linked.value.jobs == [] then (Err(NoJobs(c)), after)
        else if TooManyTemplates(Flat(w.jobs), c) then (Err(ManyTemplates(c)), after)
        else (linked, after)
  }

  /** An expression matrix has exactly one placeholder. */
  predicate TooManyTemplates(jobs: seq<PlannedJob>, c: string) {
    AnyDynamic(PlaceholdersOf(jobs, c)) && |PlaceholdersOf(jobs, c)| != 1
  }
}
