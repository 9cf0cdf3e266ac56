/**
 * Effective permissions are the meet over the whole call path. A linked job is traced back, through
 * every call it was spliced in by, to the job definition it was planned from; its permissions are
 * that definition's, narrowed once by each enclosing call.
 */
module LinkPermissions {
  import opened Basics
  import opened Names
  import opened Dependencies
  import opened Plans
  import opened Splicing
  import opened LinkOrder
  import opened LinkReach
  import opened LinkedPlans
  import opened Linker
  import opened LinkTheorems

  /** none < read < write */
  function Level(p: Permissions, name: string): nat {
    if name in p.write then 2 else if name in p.read then 1 else 0
  }

  /** The intersection grants each permission at the lower of the two levels, and at one level only. */
  lemma IntersectIsMinimum(p: Permissions, maximum: Permissions)
    ensures forall name :: Level(Intersect(p, maximum), name) == Min(Level(p, name), Level(maximum, name))
    ensures Intersect(p, maximum).read !! Intersect(p, maximum).write
  {
    forall name ensures Level(Intersect(p, maximum), name) == Min(Level(p, name), Level(maximum, name)) {
      assert name in Intersect(p, maximum).read <==>
             name in p.read + p.write && (name in maximum.read || name in maximum.write) && !(name in p.write && name in maximum.write);
    }
  }

  // ---------------------------------------------------------------- call paths

  predicate HasDef(w: Workflow, id: string) {
    exists d :: d in w.jobs && d.id == id
  }

  function DefOf(w: Workflow, id: string): (d: JobDef)
    requires UniqueIds(w) && HasDef(w, id)
    ensures d in w.jobs && d.id == id
  {
    assert forall d, e | d in w.jobs && e in w.jobs && d.id == id && e.id == id :: d == e by {
      forall d, e | d in w.jobs && e in w.jobs && d.id == id && e.id == id ensures d == e { SameDef(w, d, e); }
    }
    var d :| d in w.jobs && d.id == id;
    d
  }

  /** A job of a workflow, or a call followed by a path in the workflow it calls. */
  ghost predicate CallPath(library: Library, w: Workflow, path: seq<string>)
    requires LibraryOk(library) && WorkflowOk(w)
    decreases |path|
  {
    && path != [] && HasDef(w, path[0])
    && (|path| > 1 ==>
          var uses := DefOf(w, path[0]).uses;
          uses.Some? && uses.value in library && CallPath(library, library[uses.value], path[1..]))
  }

  /** The lowest level declared along a call path. */
  ghost function PathLevel(library: Library, w: Workflow, path: seq<string>, name: string): nat
    requires LibraryOk(library) && WorkflowOk(w) && CallPath(library, w, path)
    decreases |path|
  {
    var d := DefOf(w, path[0]);
    if |path| == 1 then Level(d.permissions, name)
    else Min(Level(d.permissions, name), PathLevel(library, library[d.uses.value], path[1..], name))
  }

  /** A job's own id, or a gate or result standing for a call. */
  predicate WholeName(c: string, n: nat, base: string) {
    base == c || exists i | 0 <= i < n :: base == Invocation(c, n, i) || base == Join(Invocation(c, n, i), "gate")
  }

  /** The base ids the job at the end of a path is planned under. */
  ghost predicate NamedBy(library: Library, w: Workflow, path: seq<string>, base: string)
    requires LibraryOk(library) && WorkflowOk(w) && CallPath(library, w, path)
    decreases |path|
  {
    var c := path[0];
    var d := DefOf(w, c);
    if |path| == 1 then WholeName(c, d.instances, base)
    else
      exists i: nat, tail :: i < d.instances && base == Join(Invocation(c, d.instances, i), tail)
                             && NamedBy(library, library[d.uses.value], path[1..], tail)
  }

  /** Job `j` has exactly the permissions its call path declares. */
  ghost predicate PermittedBy(library: Library, w: Workflow, path: seq<string>, j: PlannedJob)
    requires LibraryOk(library) && WorkflowOk(w)
  {
    && CallPath(library, w, path) && NamedBy(library, w, path, j.base)
    && forall name :: Level(j.permissions, name) == PathLevel(library, w, path, name)
  }

  ghost predicate Permitted(library: Library, w: Workflow, jobs: seq<PlannedJob>)
    requires LibraryOk(library) && WorkflowOk(w)
  {
    forall j | j in jobs :: exists path :: PermittedBy(library, w, path, j)
  }

  // ---------------------------------------------------------------- placeholders carry their definition

  lemma {:induction false} InstancesPlaced(d: JobDef, n: nat, c: string)
    ensures PlaceholdersOf(Instances(d, n), c) == if d.id == c then Instances(d, n) else []
    ensures |Instances(d, n)| == n
  {
    if n > 0 {
      InstancesPlaced(d, n - 1, c);
      assert Instances(d, n)[..n - 1] == Instances(d, n - 1);
    }
  }

  lemma {:induction false} PlaceholdersConcat(a: seq<PlannedJob>, b: seq<PlannedJob>, c: string)
    ensures PlaceholdersOf(a + b, c) == PlaceholdersOf(a, c) + PlaceholdersOf(b, c)
  {
    if b == [] {
      assert a + b == a;
    } else {
      assert (a + b)[..|a + b| - 1] == a + b[..|b| - 1];
      PlaceholdersConcat(a, b[..|b| - 1], c);
    }
  }

  /** A call has one placeholder per combination of its matrix. */
  lemma {:induction false} PlaceholdersCounted(jobs: seq<JobDef>, c: string)
    requires forall i, k | 0 <= i < k < |jobs| :: jobs[i].id != jobs[k].id
    ensures (forall d | d in jobs :: d.id != c) ==> PlaceholdersOf(Flat(jobs), c) == []
    ensures forall d | d in jobs && d.id == c :: |PlaceholdersOf(Flat(jobs), c)| == d.instances
  {
    if jobs != [] {
      var front, last := jobs[..|jobs| - 1], jobs[|jobs| - 1];
      assert jobs == front + [last];
      assert Flat(jobs) == Flat(front) + Instances(last, last.instances);
      PlaceholdersCounted(front, c);
      InstancesPlaced(last, last.instances, c);
      PlaceholdersConcat(Flat(front), Instances(last, last.instances), c);
      LastIdIsNew(jobs);
      hide PlaceholdersOf, Instances, Flat;
    }
  }

  lemma LastIdIsNew(jobs: seq<JobDef>)
    requires jobs != [] && forall i, k | 0 <= i < k < |jobs| :: jobs[i].id != jobs[k].id
    ensures forall d | d in jobs[..|jobs| - 1] :: d.id != jobs[|jobs| - 1].id
  {
  }

  lemma FlatFacts(w: Workflow, j: PlannedJob)
    requires WorkflowOk(w) && j in Flat(w.jobs)
    ensures HasDef(w, j.base) && j.permissions == DefOf(w, j.base).permissions
    ensures Count(Flat(w.jobs), j.base) == DefOf(w, j.base).instances
  {
    hide Flat, PlaceholdersOf;
    InFlat(w.jobs, j);
    var d, i: nat :| d in w.jobs && i < d.instances && j == Instance(d, i);
    SameDef(w, d, DefOf(w, j.base));
    PlaceholdersCounted(w.jobs, j.base);
  }

  lemma PlaceholderFacts(w: Workflow, c: string, i: nat)
    requires WorkflowOk(w) && i < Count(Flat(w.jobs), c)
    ensures HasDef(w, c) && PlaceholdersOf(Flat(w.jobs), c)[i].permissions == DefOf(w, c).permissions
    ensures Count(Flat(w.jobs), c) == DefOf(w, c).instances
  {
    hide Flat;
    var p := PlaceholdersOf(Flat(w.jobs), c)[i];
    assert p in PlaceholdersOf(Flat(w.jobs), c);
    FlatFacts(w, p);
  }

  // ---------------------------------------------------------------- one level

  lemma WholePermitted(library: Library, w: Workflow, c: string, j: PlannedJob)
    requires LibraryOk(library) && WorkflowOk(w) && HasDef(w, c) && j.permissions == DefOf(w, c).permissions
    requires WholeName(c, DefOf(w, c).instances, j.base)
    ensures PermittedBy(library, w, [c], j)
  {
    hide WholeName, Level, WorkflowOk;
    assert CallPath(library, w, [c]);
  }

  lemma InnerPermitted(library: Library, w: Workflow, c: string, i: nat, q: PlannedJob, j: PlannedJob, path: seq<string>)
    requires LibraryOk(library) && WorkflowOk(w) && HasDef(w, c) && DefOf(w, c).uses.Some? && DefOf(w, c).uses.value in library
    requires i < DefOf(w, c).instances && j.base == Join(Invocation(c, DefOf(w, c).instances, i), q.base)
    requires j.permissions == Intersect(q.permissions, DefOf(w, c).permissions)
    requires PermittedBy(library, library[DefOf(w, c).uses.value], path, q)
    ensures PermittedBy(library, w, [c] + path, j)
  {
    var maximum := DefOf(w, c).permissions;
    IntersectIsMinimum(q.permissions, maximum);
    hide Invocation, Join, Level, Intersect, WorkflowOk;
    var longer := [c] + path;
    assert longer[1..] == path && longer[0] == c && |longer| > 1;
    assert CallPath(library, w, longer);
    assert NamedBy(library, w, longer, j.base);
    forall name ensures Level(j.permissions, name) == PathLevel(library, w, longer, name) {
      assert Level(q.permissions, name) == PathLevel(library, library[DefOf(w, c).uses.value], path, name);
    }
  }

  lemma UsesDef(w: Workflow, c: string)
    requires WorkflowOk(w) && c in UsesOf(w.jobs)
    ensures HasDef(w, c) && DefOf(w, c).uses == Some(UsesOf(w.jobs)[c])
  {
    var d :| d in w.jobs && d.id == c && d.uses == Some(UsesOf(w.jobs)[c]);
    SameDef(w, d, DefOf(w, c));
  }

  /** The plans of the calls are permitted by the workflows they call. */
  ghost predicate CallsPermittedBy(library: Library, w: Workflow, plans: map<string, Plan>)
    requires LibraryOk(library) && WorkflowOk(w)
  {
    forall c | c in plans :: CallPermittedBy(library, w, c, plans[c])
  }

  ghost predicate CallPermittedBy(library: Library, w: Workflow, c: string, called: Plan)
    requires LibraryOk(library) && WorkflowOk(w)
  {
    c in UsesOf(w.jobs) && UsesOf(w.jobs)[c] in library && Permitted(library, library[UsesOf(w.jobs)[c]], called.jobs)
  }

  lemma MadePermissions(jobs: seq<PlannedJob>, plans: map<string, Plan>, o: Origin)
    requires Expandable(jobs, plans) && IsOrigin(jobs, plans, o) && !o.Kept?
    ensures (if InvocationPart(o) then o.i else 0) < Count(jobs, o.call)
    ensures var p := PlaceholdersOf(jobs, o.call)[if InvocationPart(o) then o.i else 0];
            Made(jobs, plans, o).permissions == if o.Inner? then Intersect(o.job.permissions, p.permissions) else p.permissions
  {
    HasPlaceholder(jobs, o.call);
    hide Join, Intersect, OwnScopes, RefersWithin, PlaceholdersOf, AnyDynamic, Invocation, PublicIds;
  }

  lemma OriginPermitted(library: Library, w: Workflow, plans: map<string, Plan>, o: Origin)
    requires LibraryOk(library) && WorkflowOk(w) && CallsPermittedBy(library, w, plans)
    requires Expandable(Flat(w.jobs), plans) && IsOrigin(Flat(w.jobs), plans, o)
    ensures exists path :: PermittedBy(library, w, path, Made(Flat(w.jobs), plans, o))
  {
    var flat := Flat(w.jobs);
    MadeHasName(flat, plans, o);
    var j := Made(flat, plans, o);
    if o.Kept? {
      assert j in flat;
      FlatFacts(w, j);
      WholePermitted(library, w, j.base, j);
    } else {
      MadePermissions(flat, plans, o);
      PlaceholderFacts(w, o.call, if InvocationPart(o) then o.i else 0);
      if o.Inner? {
        InnerOriginPermitted(library, w, plans, o);
      } else {
        WholeNamed(flat, o);
        hide Made, PermittedBy, WorkflowOk, Flat, PlaceholdersOf, Invocation, Join, Expandable, IsOrigin, NameOf;
        WholePermitted(library, w, o.call, j);
      }
    }
  }

  lemma WholeNamed(jobs: seq<PlannedJob>, o: Origin)
    requires !o.Kept? && !o.Inner? && (InvocationPart(o) ==> o.i < Count(jobs, o.call))
    ensures WholeName(o.call, Count(jobs, o.call), NameOf(jobs, o))
  {
    hide Join, Invocation, PlaceholdersOf;
  }

  lemma InnerOriginPermitted(library: Library, w: Workflow, plans: map<string, Plan>, o: Origin)
    requires LibraryOk(library) && WorkflowOk(w) && CallsPermittedBy(library, w, plans)
    requires Expandable(Flat(w.jobs), plans) && IsOrigin(Flat(w.jobs), plans, o) && o.Inner?
    ensures exists path :: PermittedBy(library, w, path, Made(Flat(w.jobs), plans, o))
  {
    hide *;
    var flat, c := Flat(w.jobs), o.call;
    InnerNamed(flat, plans, o);
    WorkflowIds(w);
    MadeHasName(flat, plans, o);
    MadePermissions(flat, plans, o);
    PlaceholderFacts(w, c, o.i);
    CallPermittedAt(library, w, plans, c, o.job);
    UsesDef(w, c);
    InnerPermittedSomehow(library, w, c, o.i, o.job, Made(flat, plans, o));
  }

  lemma InnerPermittedSomehow(library: Library, w: Workflow, c: string, i: nat, q: PlannedJob, j: PlannedJob)
    requires LibraryOk(library) && WorkflowOk(w) && HasDef(w, c) && DefOf(w, c).uses.Some? && DefOf(w, c).uses.value in library
    requires i < DefOf(w, c).instances && j.base == Join(Invocation(c, DefOf(w, c).instances, i), q.base)
    requires j.permissions == Intersect(q.permissions, DefOf(w, c).permissions)
    requires exists path :: PermittedBy(library, library[DefOf(w, c).uses.value], path, q)
    ensures exists path :: PermittedBy(library, w, path, j)
  {
    var path :| PermittedBy(library, library[DefOf(w, c).uses.value], path, q);
    hide PermittedBy, WorkflowOk, Join, Invocation, Intersect;
    InnerPermitted(library, w, c, i, q, j, path);
  }

  lemma WorkflowIds(w: Workflow)
    requires WorkflowOk(w)
    ensures UniqueIds(w)
  {
  }

  lemma InnerNamed(jobs: seq<PlannedJob>, plans: map<string, Plan>, o: Origin)
    requires IsOrigin(jobs, plans, o) && o.Inner?
    ensures InvocationPart(o) && o.call in plans && o.job in plans[o.call].jobs && o.i < Count(jobs, o.call)
    ensures NameOf(jobs, o) == Join(Invocation(o.call, Count(jobs, o.call), o.i), o.job.base)
  {
    hide Join, Invocation, PlaceholdersOf, AnyDynamic;
  }

  lemma CallPermittedAt(library: Library, w: Workflow, plans: map<string, Plan>, c: string, q: PlannedJob)
    requires LibraryOk(library) && WorkflowOk(w) && CallsPermittedBy(library, w, plans) && c in plans && q in plans[c].jobs
    ensures c in UsesOf(w.jobs) && UsesOf(w.jobs)[c] in library && WorkflowOk(library[UsesOf(w.jobs)[c]])
    ensures exists path :: PermittedBy(library, library[UsesOf(w.jobs)[c]], path, q)
  {
    hide PermittedBy, WorkflowOk, UsesOf;
    assert CallPermittedBy(library, w, c, plans[c]);
  }

  // ---------------------------------------------------------------- every depth

  /** Each job of a linked plan holds the minimum of the permissions declared on its call path. */
  lemma {:induction false} LinkedPermitted(library: Library, w: Workflow, stack: seq<string>, called: set<string>, level: nat)
    requires LibraryOk(library) && WorkflowOk(w) && level <= MAX_LEVELS && Link(library, w, stack, called, level).0.Ok?
    ensures Permitted(library, w, Link(library, w, stack, called, level).0.value.jobs)
    decreases MAX_LEVELS - level, 1, 0
  {
    hide *;
    LinkedLevel(library, w, stack, called, level);
    var plans := LinkCalls(library, w, CallIds(w), stack, called, level).0.value;
    CallsPermitted(library, w, CallIds(w), stack, called, level);
    SplicedPermitted(library, w, plans);
  }

  lemma SplicedPermitted(library: Library, w: Workflow, plans: map<string, Plan>)
    requires LibraryOk(library) && WorkflowOk(w) && CallsPermittedBy(library, w, plans) && Expandable(Flat(w.jobs), plans)
    ensures Permitted(library, w, Spliced(Flat(w.jobs), plans))
  {
    var linked := Spliced(Flat(w.jobs), plans);
    hide PermittedBy, Spliced, Flat, WorkflowOk, LibraryOk, Made, IsOrigin, CallsPermittedBy, Expandable;
    forall j | j in linked ensures exists path :: PermittedBy(library, w, path, j) {
      OriginExists(Flat(w.jobs), plans, j);
      var o :| IsOrigin(Flat(w.jobs), plans, o) && Made(Flat(w.jobs), plans, o) == j;
      OriginPermitted(library, w, plans, o);
    }
  }

  lemma {:induction false} CallsPermitted(library: Library, w: Workflow, ids: seq<string>, stack: seq<string>, called: set<string>, level: nat)
    requires LibraryOk(library) && WorkflowOk(w) && level <= MAX_LEVELS
    requires (forall c | c in ids :: c in UsesOf(w.jobs)) && LinkCalls(library, w, ids, stack, called, level).0.Ok?
    ensures CallsPermittedBy(library, w, LinkCalls(library, w, ids, stack, called, level).0.value)
    decreases MAX_LEVELS - level, 0, |ids|
  {
    hide LinkCall, UsesOf, PlanOk, PlansOk, LibraryOk, WorkflowOk, CallPermittedBy;
    if ids != [] {
      var front, last := ids[..|ids| - 1], ids[|ids| - 1];
      assert ids == front + [last];
      CallsPermitted(library, w, front, stack, called, level);
      CallPermitted(library, w, last, stack, LinkCalls(library, w, front, stack, called, level).1, level);
    }
  }

  lemma {:induction false} CallPermitted(library: Library, w: Workflow, c: string, stack: seq<string>, called: set<string>, level: nat)
    requires LibraryOk(library) && WorkflowOk(w) && level <= MAX_LEVELS && c in UsesOf(w.jobs)
    requires LinkCall(library, w, c, stack, called, level).0.Ok?
    ensures CallPermittedBy(library, w, c, LinkCall(library, w, c, stack, called, level).0.value)
    decreases MAX_LEVELS - level, 0, 0
  {
    CalledLevel(library, w, c, stack, called, level);
    var path := UsesOf(w.jobs)[c];
    hide Link, LinkCall, UsesOf, Permitted, LibraryOk, WorkflowOk;
    LinkedPermitted(library, library[path], stack + [path], called + {path}, level + 1);
  }

  // ---------------------------------------------------------------- an id has one call path

  lemma {:induction false} NamedHead(library: Library, w: Workflow, path: seq<string>, base: string)
    requires LibraryOk(library) && WorkflowOk(w) && CallPath(library, w, path) && NamedBy(library, w, path, base)
    ensures Head(base) == path[0]
  {
    var c := path[0];
    var n := DefOf(w, c).instances;
    HeadOfJoin(c, "");
    hide Head, Invocation, Join, LibraryOk;
    if |path| == 1 {
      if base != c {
        var i :| 0 <= i < n && (base == Invocation(c, n, i) || base == Join(Invocation(c, n, i), "gate"));
        HeadOfInvocation(c, n, i, "gate");
      }
    } else {
      var i: nat, tail :| i < n && base == Join(Invocation(c, n, i), tail);
      HeadOfInvocation(c, n, i, tail);
    }
  }

  lemma NotNamedGate(library: Library, w: Workflow, path: seq<string>, base: string)
    requires LibraryOk(library) && WorkflowOk(w) && CallPath(library, w, path) && NamedBy(library, w, path, base)
    requires forall d | d in w.jobs :: d.id != "gate"
    ensures base != "gate"
  {
    hide *;
    NamedHead(library, w, path, base);
    HeadOfGate();
    FirstIsJob(library, w, path);
  }

  lemma HeadOfGate()
    ensures Head("gate") == "gate"
  {
    HeadOfJoin("gate", "");
  }

  lemma FirstIsJob(library: Library, w: Workflow, path: seq<string>)
    requires LibraryOk(library) && WorkflowOk(w) && CallPath(library, w, path)
    ensures path != [] && exists d | d in w.jobs :: d.id == path[0]
  {
    hide LibraryOk, WorkflowOk;
  }

  /** A call's own names are not names of anything inside it. */
  lemma WholeIsNotInner(c: string, n: nat, base: string, i: nat, tail: string)
    requires WholeName(c, n, base) && i < n && base == Join(Invocation(c, n, i), tail)
    ensures tail == "gate"
  {
    hide Join, Invocation;
    InvocationIsOutside(c, n, i, i, tail);
    var k :| 0 <= k < n && (base == Invocation(c, n, k) || base == Join(Invocation(c, n, k), "gate"));
    InvocationIsOutside(c, n, k, i, tail);
    InvocationsSeparate(c, n, k, "gate", i, tail);
  }

  /** A longer call path continues in the workflow its first call names. */
  lemma InnerPath(library: Library, w: Workflow, p: seq<string>, base: string) returns (path: string, i: nat, x: string)
    requires LibraryOk(library) && WorkflowOk(w) && CallPath(library, w, p) && NamedBy(library, w, p, base) && |p| > 1
    ensures UniqueIds(w) && HasDef(w, p[0]) && DefOf(w, p[0]).uses == Some(path) && path in library && i < DefOf(w, p[0]).instances
    ensures base == Join(Invocation(p[0], DefOf(w, p[0]).instances, i), x)
    ensures WorkflowOk(library[path]) && CallPath(library, library[path], p[1..]) && NamedBy(library, library[path], p[1..], x)
    ensures forall d | d in library[path].jobs :: d.id != "gate"
  {
    assert UniqueIds(w);
    hide Join, Invocation, WholeName, WorkflowOk, HasDef, UniqueIds;
    path := DefOf(w, p[0]).uses.value;
    i, x :| i < DefOf(w, p[0]).instances && base == Join(Invocation(p[0], DefOf(w, p[0]).instances, i), x)
            && NamedBy(library, library[path], p[1..], x);
  }

  lemma WholePath(library: Library, w: Workflow, p: seq<string>, base: string)
    requires LibraryOk(library) && WorkflowOk(w) && CallPath(library, w, p) && NamedBy(library, w, p, base)
    ensures UniqueIds(w) && p != [] && HasDef(w, p[0]) && (|p| == 1 ==> WholeName(p[0], DefOf(w, p[0]).instances, base))
  {
    assert UniqueIds(w);
    hide WholeName, WorkflowOk, HasDef, UniqueIds;
  }

  lemma {:induction false} OneCallPath(library: Library, w: Workflow, p: seq<string>, q: seq<string>, base: string)
    requires LibraryOk(library) && WorkflowOk(w)
    requires CallPath(library, w, p) && NamedBy(library, w, p, base)
    requires CallPath(library, w, q) && NamedBy(library, w, q, base)
    ensures p == q
    decreases |p|
  {
    hide *;
    NamedHead(library, w, p, base);
    NamedHead(library, w, q, base);
    WholePath(library, w, p, base);
    WholePath(library, w, q, base);
    var c := p[0];
    var n := DefOf(w, c).instances;
    if |p| == 1 && |q| == 1 {
      assert p == [c] && q == [c];
    } else if |p| > 1 && |q| > 1 {
      var path, i, x := InnerPath(library, w, p, base);
      var _, k, y := InnerPath(library, w, q, base);
      InvocationsSeparate(c, n, i, x, k, y);
      OneCallPath(library, library[path], p[1..], q[1..], x);
      assert p == [c] + p[1..] && q == [c] + q[1..];
    } else {
      var longer := if |p| > 1 then p else q;
      var path, i, x := InnerPath(library, w, longer, base);
      WholeIsNotInner(c, n, base, i, x);
      NotNamedGate(library, library[path], longer[1..], x);
    }
  }

  /** The id of a job fixes its call path, and the path its permissions. */
  lemma LinkedPermissionsExact(library: Library, w: Workflow, stack: seq<string>, called: set<string>, level: nat,
                               j: PlannedJob, path: seq<string>, name: string)
    requires LibraryOk(library) && WorkflowOk(w) && level <= MAX_LEVELS && Link(library, w, stack, called, level).0.Ok?
    requires j in Link(library, w, stack, called, level).0.value.jobs
    requires CallPath(library, w, path) && NamedBy(library, w, path, j.base)
    ensures Level(j.permissions, name) == PathLevel(library, w, path, name)
  {
    LinkedPermitted(library, w, stack, called, level);
    hide Link, LibraryOk, WorkflowOk, CallPath, NamedBy, PathLevel, Level;
    var other :| PermittedBy(library, w, other, j);
    OneCallPath(library, w, path, other, j.base);
  }
}
