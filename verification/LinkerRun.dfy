/** The linker as it runs: loops, a shared call stack and a shared set of called workflows. */
module LinkerRun {
  import opened Basics
  import opened Names
  import opened Dependencies
  import opened Plans
  import opened Splicing
  import opened LinkOrder
  import opened LinkReach
  import opened LinkedPlans
  import opened Linker

  method CompileFlat(jobs: seq<JobDef>) returns (flat: seq<PlannedJob>)
    ensures flat == Flat(jobs)
  {
    flat := [];
    var i := 0;
    while i < |jobs|
      invariant 0 <= i <= |jobs| && flat == Flat(jobs[..i])
    {
      var planned: seq<PlannedJob> := [];
      var k := 0;
      while k < jobs[i].instances
        invariant 0 <= k <= jobs[i].instances && planned == Instances(jobs[i], k)
      {
        planned := planned + [Instance(jobs[i], k)];
        k := k + 1;
      }
      assert jobs[..i + 1][..i] == jobs[..i];
      flat := flat + planned;
      i := i + 1;
    }
    assert jobs[..i] == jobs;
  }

  method BuildGraph(jobs: seq<PlannedJob>) returns (g: Graph)
    ensures g == GraphOf(jobs)
  {
    g := map[];
    var i := 0;
    while i < |jobs|
      invariant 0 <= i <= |jobs| && g == GraphOf(jobs[..i])
    {
      assert jobs[..i + 1][..i] == jobs[..i];
      if jobs[i].base !in g {
        g := g[jobs[i].base := jobs[i].needs];
      }
      i := i + 1;
    }
    assert jobs[..i] == jobs;
  }

  /** Accepts exactly the plans whose graph is closed and acyclic. */
  method ValidateDependencies(jobs: seq<PlannedJob>) returns (ok: bool)
    ensures ok <==> Accepted(GraphOf(jobs))
    ensures ok <==> Closed(GraphOf(jobs)) && Acyclic(GraphOf(jobs))
  {
    var g := BuildGraph(jobs);
    var checked, _ := ValidateGraph(g);
    ok := checked.Ok?;
  }

  // ---------------------------------------------------------------- expansion

  method LookUpEach(v: string, aliases: map<string, string>, ids: seq<string>) returns (r: seq<string>)
    requires forall b | b in aliases :: aliases[b] == Join(v, b)
    requires forall x | x in ids :: x in aliases
    ensures r == JoinEach(v, ids)
  {
    hide Join;
    r := seq(|ids|, i requires 0 <= i < |ids| => aliases[ids[i]]);
  }

  method LookUpValues(v: string, aliases: map<string, string>, m: map<string, string>) returns (r: map<string, string>)
    requires forall b | b in aliases :: aliases[b] == Join(v, b)
    requires forall a | a in m :: m[a] in aliases
    ensures r == JoinValues(v, m)
  {
    hide Join;
    r := map a | a in m :: aliases[m[a]];
  }

  method LookUpKind(v: string, aliases: map<string, string>, kind: Virtual) returns (r: Virtual)
    requires forall b | b in aliases :: aliases[b] == Join(v, b)
    requires KindRefers(kind, aliases.Keys)
    ensures r == JoinKind(v, kind)
  {
    hide Join;
    match kind
    case ReusableResult(jobs) =>
      var renamed := LookUpValues(v, aliases, jobs);
      return ReusableResult(renamed);
    case ReusableMatrixResult(invocations, parallel, stops) =>
      var renamed := LookUpEach(v, aliases, invocations);
      return ReusableMatrixResult(renamed, parallel, stops);
    case _ => return kind;
  }

  /** One called job, looked up name by name in the table of aliases. */
  method RenameJob(v: string, p: PlannedJob, called: Plan, aliases: map<string, string>, j: PlannedJob) returns (job: PlannedJob)
    requires forall b | b in aliases :: aliases[b] == Join(v, b)
    requires RefersTo(j, aliases.Keys) && j.base in aliases
    ensures job == Renamed(v, p, called, j)
  {
    hide Join, OwnScopes, JoinEach, JoinScopes, JoinValues, JoinKind, Identity, Intersect;
    job := j.(permissions := Intersect(j.permissions, p.permissions));
    job := job.(id := aliases[j.base] + j.id[|j.base|..], base := aliases[j.base]);
    var needs := LookUpEach(v, aliases, j.needs);
    var named := LookUpValues(v, aliases, j.aliases);
    job := job.(acquire := JoinScopes(v, j.acquire), release := JoinEach(v, j.release));
    job := job.(scopeIds := ScopeNames(OwnScopes(v, p, called)) + JoinEach(v, j.scopeIds));
    job := job.(aliases := Identity(p.needs) + named, needs := needs + [Join(v, "gate")]);
    var kind := LookUpKind(v, aliases, j.kind);
    job := job.(kind := kind);
  }

  method ExpandReusableCall(v: string, p: PlannedJob, called: Plan) returns (expanded: seq<PlannedJob>)
    requires RefersWithin(called.jobs)
    ensures expanded == Expanded(v, p, called)
  {
    hide Gate, ResultOf, Renamed, OwnScopes, Join;
    var aliases := map b | b in Bases(called.jobs) :: Join(v, b);
    assert aliases.Keys == Bases(called.jobs);
    expanded := [Gate(v, p, called)];
    var i := 0;
    while i < |called.jobs|
      invariant 0 <= i <= |called.jobs|
      invariant forall j | j in called.jobs :: j.base <= j.id
      invariant expanded == [Gate(v, p, called)] + RenamedAll(v, p, called, called.jobs)[..i]
    {
      var j := called.jobs[i];
      assert RefersTo(j, Bases(called.jobs));
      var job := RenameJob(v, p, called, aliases, j);
      assert RenamedAll(v, p, called, called.jobs)[..i + 1] == RenamedAll(v, p, called, called.jobs)[..i] + [job];
      expanded := expanded + [job];
      i := i + 1;
    }
    expanded := expanded + [ResultOf(v, p, called)];
  }

  method ExpandCall(c: string, ps: seq<PlannedJob>, called: Plan) returns (expanded: seq<PlannedJob>)
    requires ps != [] && RefersWithin(called.jobs)
    ensures expanded == Expansion(c, ps, called)
  {
    hide Combined, Expanded;
    if AnyDynamic(ps) {
      return [ps[0].(kind := ReusableDynamicCall(called))];
    }
    if |ps| == 1 {
      expanded := ExpandReusableCall(c, ps[0], called);
      return;
    }
    expanded := [];
    var invocations: seq<string> := [];
    var i := 0;
    while i < |ps|
      invariant 0 <= i <= |ps|
      invariant invocations == Invocations(c, |ps|)[..i]
      invariant expanded == Bodies(c, ps, called, i)
    {
      var invocation := Join(c, Label(i + 1));
      assert invocation == Invocation(c, |ps|, i);
      assert Invocations(c, |ps|)[..i + 1] == Invocations(c, |ps|)[..i] + [invocation];
      invocations := invocations + [invocation];
      var body := ExpandReusableCall(invocation, ps[i], called);
      expanded := expanded + body;
      i := i + 1;
    }
    assert invocations == Invocations(c, |ps|);
    expanded := expanded + [Combined(c, ps[0], invocations)];
  }

  /** The loop that drains the plan into the linked plan. */
  method ReplaceCalls(jobs: seq<PlannedJob>, expansions: map<string, seq<PlannedJob>>) returns (linked: seq<PlannedJob>)
    ensures linked == Replaced(jobs, expansions)
  {
    linked := [];
    var replaced: set<string> := {};
    var i := 0;
    while i < |jobs|
      invariant 0 <= i <= |jobs|
      invariant linked == Replaced(jobs[..i], expansions)
      invariant forall x | x in expansions :: x in replaced <==> x in Bases(jobs[..i])
    {
      var job := jobs[i];
      assert jobs[..i + 1] == jobs[..i] + [job] && jobs[..i + 1][..i] == jobs[..i];
      assert Bases(jobs[..i + 1]) == Bases(jobs[..i]) + {job.base};
      if job.base in expansions {
        if job.base !in replaced {
          replaced := replaced + {job.base};
          linked := linked + expansions[job.base];
        }
      } else {
        linked := linked + [job];
      }
      i := i + 1;
    }
    assert jobs[..i] == jobs;
  }

  // ---------------------------------------------------------------- the recursion

  lemma {:induction false} NothingReplaced(jobs: seq<PlannedJob>)
    ensures Replaced(jobs, map[]) == jobs
  {
    hide Bases;
    if jobs != [] {
      NothingReplaced(jobs[..|jobs| - 1]);
      assert jobs == jobs[..|jobs| - 1] + [jobs[|jobs| - 1]];
    }
  }

  lemma NothingSpliced(jobs: seq<PlannedJob>)
    ensures Expandable(jobs, map[]) && Spliced(jobs, map[]) == jobs
  {
    hide Replaced, Bases, Expansion;
    assert Expansions(jobs, map[]) == map[];
    NothingReplaced(jobs);
  }

  lemma NoneToCall(library: Library, w: Workflow, stack: seq<string>, called: set<string>, level: nat)
    requires LibraryOk(library) && WorkflowOk(w) && level <= MAX_LEVELS
    ensures LinkCalls(library, w, [], stack, called, level) == (Ok(map[]), called)
  {
    hide LibraryOk, WorkflowOk;
  }

  lemma NoCalls(library: Library, w: Workflow, stack: seq<string>, called: set<string>, level: nat)
    requires LibraryOk(library) && WorkflowOk(w) && level <= MAX_LEVELS
    requires CallIds(w) == [] && Accepted(GraphOf(Flat(w.jobs)))
    ensures Link(library, w, stack, called, level) == (Ok(Plan(Flat(w.jobs), w.concurrency)), called)
  {
    hide *;
    NoneToCall(library, w, stack, called, level);
    CallIdsAre(w);
    CallsSucceed(library, w, stack, called, level, called, map[]);
    NothingSpliced(Flat(w.jobs));
  }

  lemma ExpandingIsExpansions(flat: seq<PlannedJob>, plans: map<string, Plan>, expansions: map<string, seq<PlannedJob>>)
    requires Expanding(flat, plans, expansions) && Expandable(flat, plans)
    ensures Spliced(flat, plans) == Replaced(flat, expansions)
  {
    hide Replaced, Expansion, PlaceholdersOf, RefersWithin, Bases;
    assert Expansions(flat, plans) == expansions;
  }

  class WorkflowLinker {
    const library: Library
    var callStack: seq<string>
    var calledWorkflows: set<string>

    constructor (library: Library)
      ensures this.library == library && callStack == [] && calledWorkflows == {}
    {
      this.library, callStack, calledWorkflows := library, [], {};
    }

    method CompileLinkedWorkflow(w: Workflow, level: nat) returns (r: Result<Plan, LinkError>)
      requires LibraryOk(library) && WorkflowOk(w) && level <= MAX_LEVELS
      modifies this
      ensures (r, calledWorkflows) == Link(library, w, old(callStack), old(calledWorkflows), level)
      ensures r.Ok? ==> callStack == old(callStack)
      decreases MAX_LEVELS - level, 2
    {
      var flat := CompileFlat(w.jobs);
      var valid := ValidateDependencies(flat);
      hide *;
      if !valid {
        RejectedFlat(library, w, callStack, calledWorkflows, level);
        return Err(BadGraph);
      }
      var ids := CallIds(w);
      if ids == [] {
        NoCalls(library, w, callStack, calledWorkflows, level);
        return Ok(Plan(flat, w.concurrency));
      }
      ghost var stack, called := callStack, calledWorkflows;
      CallIdsAre(w);
      var expanded, plans := ExpandCalls(w, flat, ids, level);
      if expanded.Err? {
        CallsFail(library, w, stack, called, level, calledWorkflows, expanded.error);
        return Err(expanded.error);
      }
      CallsSucceed(library, w, stack, called, level, calledWorkflows, plans);
      ExpandingIsExpansions(flat, plans, expanded.value);
      var linked := ReplaceCalls(flat, expanded.value);
      var _ := ValidateDependencies(linked);
      return Ok(Plan(linked, w.concurrency));
    }

    /** The loop over the calls: each call linked and expanded. */
    method ExpandCalls(w: Workflow, flat: seq<PlannedJob>, ids: seq<string>, level: nat)
      returns (r: Result<map<string, seq<PlannedJob>>, LinkError>, ghost plans: map<string, Plan>)
      requires LibraryOk(library) && WorkflowOk(w) && level <= MAX_LEVELS && flat == Flat(w.jobs)
      requires forall c | c in ids :: c in UsesOf(w.jobs)
      modifies this
      ensures var calls := LinkCalls(library, w, ids, old(callStack), old(calledWorkflows), level);
              calledWorkflows == calls.1 &&
              match r
              case Err(e) => calls.0 == Err(e)
              case Ok(expansions) => calls.0 == Ok(plans) && callStack == old(callStack) && Expanding(flat, plans, expansions)
      decreases MAX_LEVELS - level, 1
    {
      var expansions := map[];
      plans := map[];
      var i := 0;
      while i < |ids|
        invariant 0 <= i <= |ids|
        invariant callStack == old(callStack)
        invariant LinkCalls(library, w, ids[..i], old(callStack), old(calledWorkflows), level) == (Ok(plans), calledWorkflows)
        invariant Expanding(flat, plans, expansions)
      {
        hide *;
        ghost var before := calledWorkflows;
        var called := LinkOne(w, flat, ids[i], level);
        LinkCallsStep(library, w, ids, i, old(callStack), old(calledWorkflows), level, plans, before);
        if called.Err? {
          LinkCallsFail(library, w, ids, i + 1, old(callStack), old(calledWorkflows), level);
          return Err(called.error), plans;
        }
        PlaceholderExists(w, ids[i]);
        CalledRefers(called.value);
        var expansion := ExpandCall(ids[i], PlaceholdersOf(flat, ids[i]), called.value);
        ExpandingStep(flat, plans, expansions, ids[i], called.value);
        expansions := expansions[ids[i] := expansion];
        plans := plans[ids[i] := called.value];
        i := i + 1;
      }
      assert ids[..i] == ids;
      return Ok(expansions), plans;
    }

    /** The checks around one call, and the recursive call itself. */
    method LinkOne(w: Workflow, flat: seq<PlannedJob>, c: string, level: nat) returns (r: Result<Plan, LinkError>)
      requires LibraryOk(library) && WorkflowOk(w) && level <= MAX_LEVELS && flat == Flat(w.jobs) && c in UsesOf(w.jobs)
      modifies this
      ensures (r, calledWorkflows) == LinkCall(library, w, c, old(callStack), old(calledWorkflows), level)
      ensures r.Ok? ==> callStack == old(callStack)
      decreases MAX_LEVELS - level, 0
    {
      hide Link, Flat, UsesOf, PlaceholdersOf, WorkflowOk;
      var path := UsesOf(w.jobs)[c];
      calledWorkflows := calledWorkflows + {path};
      if |calledWorkflows| > MAX_UNIQUE { return Err(TooManyWorkflows(c)); }
      if level >= MAX_LEVELS { return Err(TooDeep(c)); }
      if path in callStack { return Err(CallCycle(c)); }
      if path !in library { return Err(NotFound(c)); }
      callStack := callStack + [path];
      r := CompileLinkedWorkflow(library[path], level + 1);
      if r.Err? { return; }
      callStack := callStack[..|callStack| - 1];
      if r.value.jobs == [] { return Err(NoJobs(c)); }
      if TooManyTemplates(flat, c) { return Err(ManyTemplates(c)); }
    }
  }

  /** The expansions collected so far are those of the plans linked so far. */
  ghost predicate Expanding(flat: seq<PlannedJob>, plans: map<string, Plan>, expansions: map<string, seq<PlannedJob>>) {
    && expansions.Keys == plans.Keys
    && forall c | c in plans ::
         && PlaceholdersOf(flat, c) != [] && RefersWithin(plans[c].jobs)
         && expansions[c] == Expansion(c, PlaceholdersOf(flat, c), plans[c])
  }

  lemma ExpandingStep(flat: seq<PlannedJob>, plans: map<string, Plan>, expansions: map<string, seq<PlannedJob>>, c: string, called: Plan)
    requires Expanding(flat, plans, expansions) && PlaceholdersOf(flat, c) != [] && RefersWithin(called.jobs)
    ensures Expanding(flat, plans[c := called], expansions[c := Expansion(c, PlaceholdersOf(flat, c), called)])
  {
    hide Expansion, PlaceholdersOf, RefersWithin;
  }

  lemma CalledRefers(called: Plan)
    requires PlanOk(called.jobs)
    ensures RefersWithin(called.jobs)
  {
  }

  lemma CallIdsAre(w: Workflow)
    ensures forall c | c in CallIds(w) :: c in UsesOf(w.jobs)
  {
  }

  lemma RejectedFlat(library: Library, w: Workflow, stack: seq<string>, called: set<string>, level: nat)
    requires LibraryOk(library) && WorkflowOk(w) && level <= MAX_LEVELS && !Accepted(GraphOf(Flat(w.jobs)))
    ensures Link(library, w, stack, called, level) == (Err(BadGraph), called)
  {
  }

  lemma CallsFail(library: Library, w: Workflow, stack: seq<string>, called: set<string>, level: nat, now: set<string>, e: LinkError)
    requires LibraryOk(library) && WorkflowOk(w) && level <= MAX_LEVELS && Accepted(GraphOf(Flat(w.jobs)))
    requires (forall c | c in CallIds(w) :: c in UsesOf(w.jobs))
    requires LinkCalls(library, w, CallIds(w), stack, called, level) == (Err(e), now)
    ensures Link(library, w, stack, called, level) == (Err(e), now)
  {
    hide LinkCalls, Flat, GraphOf, CallIds;
  }

  /** With every call linked, the level succeeds: its final dependency check cannot fail. */
  lemma CallsSucceed(library: Library, w: Workflow, stack: seq<string>, called: set<string>, level: nat, now: set<string>, plans: map<string, Plan>)
    requires LibraryOk(library) && WorkflowOk(w) && level <= MAX_LEVELS && Accepted(GraphOf(Flat(w.jobs)))
    requires (forall c | c in CallIds(w) :: c in UsesOf(w.jobs))
    requires LinkCalls(library, w, CallIds(w), stack, called, level) == (Ok(plans), now)
    ensures Linkable(Flat(w.jobs), plans) && Expandable(Flat(w.jobs), plans)
    ensures Link(library, w, stack, called, level) == (Ok(Plan(Spliced(Flat(w.jobs), plans), w.concurrency)), now)
  {
    hide LinkCalls, Flat, GraphOf, Spliced, Linkable, PlanOk, PlansOk, LibraryOk, WorkflowOk, Accepted;
    assert plans.Keys == UsesOf(w.jobs).Keys;
    LevelLinkable(w, plans);
    SplicedAccepted(Flat(w.jobs), plans);
  }

  lemma LinkCallsStep(library: Library, w: Workflow, ids: seq<string>, i: nat, stack: seq<string>, called: set<string>, level: nat,
                      plans: map<string, Plan>, before: set<string>)
    requires LibraryOk(library) && WorkflowOk(w) && level <= MAX_LEVELS && i < |ids|
    requires forall c | c in ids :: c in UsesOf(w.jobs)
    requires LinkCalls(library, w, ids[..i], stack, called, level) == (Ok(plans), before)
    ensures var last := LinkCall(library, w, ids[i], stack, before, level);
            LinkCalls(library, w, ids[..i + 1], stack, called, level) ==
            match last.0
            case Err(e) => (Err(e), last.1)
            case Ok(plan) => (Ok(plans[ids[i] := plan]), last.1)
  {
    hide LinkCall, UsesOf, PlanOk, PlansOk;
    assert ids[..i + 1][..i] == ids[..i];
  }

  /** The first failing call decides. */
  lemma {:induction false} LinkCallsFail(library: Library, w: Workflow, ids: seq<string>, i: nat, stack: seq<string>, called: set<string>, level: nat)
    requires LibraryOk(library) && WorkflowOk(w) && level <= MAX_LEVELS && i <= |ids|
    requires forall c | c in ids :: c in UsesOf(w.jobs)
    requires LinkCalls(library, w, ids[..i], stack, called, level).0.Err?
    ensures LinkCalls(library, w, ids, stack, called, level) == LinkCalls(library, w, ids[..i], stack, called, level)
    decreases |ids| - i
  {
    hide LinkCall, UsesOf, PlanOk, PlansOk;
    if i == |ids| {
      assert ids[..i] == ids;
    } else {
      assert ids[..i + 1][..i] == ids[..i];
      LinkCallsFail(library, w, ids, i + 1, stack, called, level);
    }
  }
}
