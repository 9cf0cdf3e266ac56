/** When linking succeeds, told from the chains of calls alone. */
module LinkLimits {
  import opened Basics
  import opened Names
  import opened Dependencies
  import opened Plans
  import opened Splicing
  import opened LinkOrder
  import opened LinkedPlans
  import opened Linker
  import opened LinkTheorems
  import opened LinkPermissions
  import opened LinkAliases

  // ---------------------------------------------------------------- chains of calls

  function Last(defs: seq<JobDef>): JobDef
    requires defs != []
  {
    defs[|defs| - 1]
  }

  /**
   * The call at the end of a chain, from a workflow reached through `stack` at depth `level`: it goes
   * no deeper than ten, does not come back to a workflow it is inside of, and calls a stored workflow
   * that has a job to run and whose needs are closed and acyclic; a matrix of expressions is one template.
   */
  ghost predicate MayCall(library: Library, defs: seq<JobDef>, stack: seq<string>, level: nat)
    requires defs != []
  {
    var d := Last(defs);
    d.uses.Some? ==>
      && level + |defs| <= 10
      && !ComesBack(defs, stack, d.uses.value)
      && d.uses.value in library && (d.dynamic ==> d.instances == 1)
      && Flat(library[d.uses.value].jobs) != [] && Accepted(GraphOf(Flat(library[d.uses.value].jobs)))
  }

  /** The chain is already inside a call of the workflow. */
  predicate ComesBack(defs: seq<JobDef>, stack: seq<string>, path: string)
    requires defs != []
  {
    path in stack || exists k | 0 <= k < |defs| - 1 :: defs[k].uses == Some(path)
  }

  ghost predicate MayCallAll(library: Library, w: Workflow, stack: seq<string>, level: nat) {
    forall defs | Calls(library, w, defs) :: MayCall(library, defs, stack, level)
  }

  /** Some chain of calls ends with a call of the workflow. */
  ghost predicate Reaches(library: Library, w: Workflow, path: string) {
    exists defs :: Calls(library, w, defs) && Last(defs).uses == Some(path)
  }

  /** `all` is the workflows called so far and those the workflow reaches. */
  ghost predicate IsAll(library: Library, w: Workflow, called: set<string>, all: set<string>) {
    forall path :: path in all <==> path in called || Reaches(library, w, path)
  }

  /** They are at most fifty. */
  ghost predicate Few(library: Library, w: Workflow, called: set<string>) {
    exists all :: IsAll(library, w, called, all) && |all| <= 50
  }

  // ---------------------------------------------------------------- one call further

  lemma CallsLonger(library: Library, w: Workflow, d: JobDef, defs: seq<JobDef>)
    requires d in w.jobs && d.uses.Some? && d.uses.value in library && Calls(library, library[d.uses.value], defs)
    ensures Calls(library, w, [d] + defs) && Last([d] + defs) == Last(defs)
  {
    assert ([d] + defs)[1..] == defs;
  }

  lemma CallsShorter(library: Library, w: Workflow, defs: seq<JobDef>)
    requires Calls(library, w, defs) && |defs| > 1
    ensures defs[0].uses.Some? && defs[0].uses.value in library && Calls(library, library[defs[0].uses.value], defs[1..])
    ensures Last(defs[1..]) == Last(defs) && defs == [defs[0]] + defs[1..]
  {
  }

  lemma MayCallLonger(library: Library, d: JobDef, defs: seq<JobDef>, stack: seq<string>, level: nat)
    requires defs != [] && d.uses.Some?
    ensures MayCall(library, [d] + defs, stack, level) <==> MayCall(library, defs, stack + [d.uses.value], level + 1)
  {
    assert Last([d] + defs) == Last(defs);
    if Last(defs).uses.Some? { ComesBackLonger(d, defs, stack, Last(defs).uses.value); }
    hide Flat, GraphOf, Accepted, ComesBack;
  }

  lemma ComesBackLonger(d: JobDef, defs: seq<JobDef>, stack: seq<string>, path: string)
    requires defs != [] && d.uses.Some?
    ensures ComesBack([d] + defs, stack, path) <==> ComesBack(defs, stack + [d.uses.value], path)
  {
    var more := [d] + defs;
    if k :| 0 <= k < |defs| - 1 && defs[k].uses == Some(path) {
      assert more[k + 1].uses == Some(path);
    }
    if k :| 0 <= k < |more| - 1 && more[k].uses == Some(path) {
      if k > 0 { assert defs[k - 1].uses == Some(path); }
    }
    if d.uses.value == path { assert |defs| >= 1 && more[0].uses == Some(path); }
  }

  /** What a definition of the workflow must satisfy, itself and everything behind it. */
  ghost predicate MayCallFrom(library: Library, d: JobDef, stack: seq<string>, level: nat) {
    && MayCall(library, [d], stack, level)
    && (d.uses.Some? && d.uses.value in library ==> MayCallAll(library, library[d.uses.value], stack + [d.uses.value], level + 1))
  }

  lemma MayCallEach(library: Library, w: Workflow, stack: seq<string>, level: nat)
    ensures MayCallAll(library, w, stack, level) <==> forall d | d in w.jobs :: MayCallFrom(library, d, stack, level)
  {
    hide MayCall;
    if MayCallAll(library, w, stack, level) {
      forall d | d in w.jobs ensures MayCallFrom(library, d, stack, level) {
        assert Calls(library, w, [d]);
        if d.uses.Some? && d.uses.value in library {
          forall defs | Calls(library, library[d.uses.value], defs) ensures MayCall(library, defs, stack + [d.uses.value], level + 1) {
            CallsLonger(library, w, d, defs);
            MayCallLonger(library, d, defs, stack, level);
          }
        }
      }
    }
    if forall d | d in w.jobs :: MayCallFrom(library, d, stack, level) {
      forall defs | Calls(library, w, defs) ensures MayCall(library, defs, stack, level) {
        var d := defs[0];
        assert MayCallFrom(library, d, stack, level);
        if |defs| == 1 {
          assert defs == [d];
        } else {
          CallsShorter(library, w, defs);
          MayCallLonger(library, d, defs[1..], stack, level);
        }
      }
    }
  }

  /** The workflow is called by the definition, or reached behind that call. */
  ghost predicate ReachesFrom(library: Library, d: JobDef, path: string) {
    d.uses.Some? && (d.uses.value == path || (d.uses.value in library && Reaches(library, library[d.uses.value], path)))
  }

  lemma ReachesEach(library: Library, w: Workflow, path: string)
    ensures Reaches(library, w, path) <==> exists d :: d in w.jobs && ReachesFrom(library, d, path)
  {
    if defs :| Calls(library, w, defs) && Last(defs).uses == Some(path) {
      if |defs| > 1 { CallsShorter(library, w, defs); }
      assert ReachesFrom(library, defs[0], path);
    }
    if d :| d in w.jobs && ReachesFrom(library, d, path) {
      if d.uses.value == path {
        assert Calls(library, w, [d]) && Last([d]).uses == Some(path);
      } else {
        var defs :| Calls(library, library[d.uses.value], defs) && Last(defs).uses == Some(path);
        CallsLonger(library, w, d, defs);
      }
    }
  }

  // ---------------------------------------------------------------- one call

  ghost predicate IsAllFrom(library: Library, d: JobDef, called: set<string>, all: set<string>) {
    forall path :: path in all <==> path in called || ReachesFrom(library, d, path)
  }

  ghost predicate FewFrom(library: Library, d: JobDef, called: set<string>) {
    exists all :: IsAllFrom(library, d, called, all) && |all| <= 50
  }

  lemma OneCallFurther(library: Library, d: JobDef, called: set<string>, all: set<string>)
    requires d.uses.Some? && d.uses.value in library
    ensures IsAllFrom(library, d, called, all) <==> IsAll(library, library[d.uses.value], called + {d.uses.value}, all)
  {
    var path, now := d.uses.value, called + {d.uses.value};
    hide Reaches;
    if IsAllFrom(library, d, called, all) {
      forall p ensures p in all <==> p in now || Reaches(library, library[path], p) {
        assert p in all <==> p in called || ReachesFrom(library, d, p);
      }
    }
    if IsAll(library, library[path], now, all) {
      forall p ensures p in all <==> p in called || ReachesFrom(library, d, p) {
        assert p in all <==> p in now || Reaches(library, library[path], p);
      }
    }
  }

  lemma FewOneFurther(library: Library, d: JobDef, called: set<string>)
    requires d.uses.Some? && d.uses.value in library
    ensures FewFrom(library, d, called) <==> Few(library, library[d.uses.value], called + {d.uses.value})
  {
    forall all ensures IsAllFrom(library, d, called, all) <==> IsAll(library, library[d.uses.value], called + {d.uses.value}, all) {
      OneCallFurther(library, d, called, all);
    }
    hide IsAll, IsAllFrom;
  }

  lemma TooManyIsNotFew(library: Library, d: JobDef, called: set<string>)
    requires d.uses.Some? && |called + {d.uses.value}| > 50
    ensures !FewFrom(library, d, called)
  {
    if all :| IsAllFrom(library, d, called, all) && |all| <= 50 {
      assert called + {d.uses.value} <= all by {
        forall p | p in called + {d.uses.value} ensures p in all { assert p in called || ReachesFrom(library, d, p); }
      }
      SubsetSize(called + {d.uses.value}, all);
    }
  }

  lemma TemplatesExactly(w: Workflow, d: JobDef)
    requires WorkflowOk(w) && d in w.jobs && d.instances > 0
    ensures TooManyTemplates(Flat(w.jobs), d.id) <==> d.dynamic && d.instances != 1
  {
    PlaceholdersCounted(w.jobs, d.id);
    var ps := PlaceholdersOf(Flat(w.jobs), d.id);
    var e, m := PlaceholderIs(w, d.id, 0);
    SameDef(w, d, e);
    forall p | p in ps ensures p.dynamic == d.dynamic {
      var i :| 0 <= i < |ps| && ps[i] == p;
      var f, n := PlaceholderIs(w, d.id, i);
      SameDef(w, d, f);
    }
    assert ps[0] in ps;
    hide Flat, PlaceholdersOf;
  }

  /** Linking leaves a job of a plan that has one. */
  lemma EmptyExactly(library: Library, w: Workflow, stack: seq<string>, called: set<string>, level: nat)
    requires LibraryOk(library) && WorkflowOk(w) && level <= MAX_LEVELS && Link(library, w, stack, called, level).0.Ok?
    ensures Link(library, w, stack, called, level).0.value.jobs == [] <==> Flat(w.jobs) == []
  {
    hide *;
    LinkedLevel(library, w, stack, called, level);
    SplicedEmpty(Flat(w.jobs), LinkCalls(library, w, CallIds(w), stack, called, level).0.value);
  }

  lemma SplicedEmpty(jobs: seq<PlannedJob>, plans: map<string, Plan>)
    requires Expandable(jobs, plans)
    ensures Spliced(jobs, plans) == [] <==> jobs == []
  {
    if jobs == [] {
      assert Replaced([], Expansions(jobs, plans)) == [];
    } else {
      var j := jobs[0];
      var c := j.base;
      if c !in plans {
        OriginMakes(jobs, plans, Kept(j));
      } else if Static(jobs, plans, c) {
        HasPlaceholder(jobs, c);
        OriginMakes(jobs, plans, GateOf(c, 0));
      } else {
        OriginMakes(jobs, plans, Template(c));
      }
    }
  }

  // ---------------------------------------------------------------- the checks of one call

  /** The checks before the called workflow is linked. */
  predicate MayEnter(library: Library, path: string, stack: seq<string>, now: set<string>, level: nat) {
    |now| <= 50 && level < 10 && path !in stack && path in library
  }

  lemma CallIs(library: Library, w: Workflow, c: string, stack: seq<string>, called: set<string>, level: nat)
    requires LibraryOk(library) && WorkflowOk(w) && level <= MAX_LEVELS && c in UsesOf(w.jobs)
    ensures var r := LinkCall(library, w, c, stack, called, level);
            var path, now := UsesOf(w.jobs)[c], called + {UsesOf(w.jobs)[c]};
            if !MayEnter(library, path, stack, now, level) then r.0.Err?
            else
              var inner := Link(library, library[path], stack + [path], now, level + 1);
              && r.1 == inner.1
              && (r.0.Ok? <==> inner.0.Ok? && inner.0.value.jobs != [] && !TooManyTemplates(Flat(w.jobs), c))
  {
    hide Link, UsesOf, Flat, PlanOk, TooManyTemplates, HeadsFrom, CalledOk, WorkflowOk;
  }

  /** The same about the definition `d` of the call. */
  lemma MayCallIs(library: Library, d: JobDef, stack: seq<string>, called: set<string>, level: nat)
    requires d.uses.Some?
    ensures var path := d.uses.value;
            MayCall(library, [d], stack, level) <==>
              && level < 10 && path !in stack && path in library && (d.dynamic ==> d.instances == 1)
              && Flat(library[path].jobs) != [] && Accepted(GraphOf(Flat(library[path].jobs)))
  {
    hide Flat, GraphOf, Accepted;
  }

  // ---------------------------------------------------------------- all calls

  ghost predicate IsAllOf(library: Library, w: Workflow, ids: seq<string>, called: set<string>, all: set<string>)
    requires UniqueIds(w) && forall c | c in ids :: HasDef(w, c)
  {
    forall path :: path in all <==> path in called || exists c :: c in ids && ReachesFrom(library, DefOf(w, c), path)
  }

  ghost predicate FewOf(library: Library, w: Workflow, ids: seq<string>, called: set<string>)
    requires UniqueIds(w) && forall c | c in ids :: HasDef(w, c)
  {
    exists all :: IsAllOf(library, w, ids, called, all) && |all| <= 50
  }

  ghost predicate MayCallEvery(library: Library, w: Workflow, ids: seq<string>, stack: seq<string>, level: nat)
    requires UniqueIds(w) && forall c | c in ids :: HasDef(w, c)
  {
    forall c | c in ids :: MayCallFrom(library, DefOf(w, c), stack, level)
  }

  /** First those of the front, then those of the last call. */
  lemma AllOfTwo(library: Library, w: Workflow, ids: seq<string>, called: set<string>, before: set<string>, all: set<string>)
    requires ids != [] && UniqueIds(w) && forall c | c in ids :: HasDef(w, c)
    requires IsAllOf(library, w, ids[..|ids| - 1], called, before)
    ensures IsAllOf(library, w, ids, called, all) <==> IsAllFrom(library, DefOf(w, ids[|ids| - 1]), before, all)
  {
    var front, last := ids[..|ids| - 1], ids[|ids| - 1];
    assert ids == front + [last];
    hide ReachesFrom, HasDef;
    if IsAllOf(library, w, ids, called, all) {
      forall p ensures p in all <==> p in before || ReachesFrom(library, DefOf(w, last), p) {
        assert p in all <==> p in called || exists c :: c in ids && ReachesFrom(library, DefOf(w, c), p);
        assert p in before <==> p in called || exists c :: c in front && ReachesFrom(library, DefOf(w, c), p);
      }
    }
    if IsAllFrom(library, DefOf(w, last), before, all) {
      forall p ensures p in all <==> p in called || exists c :: c in ids && ReachesFrom(library, DefOf(w, c), p) {
        assert p in all <==> p in before || ReachesFrom(library, DefOf(w, last), p);
        assert p in before <==> p in called || exists c :: c in front && ReachesFrom(library, DefOf(w, c), p);
      }
    }
  }

  lemma FewOfTwo(library: Library, w: Workflow, ids: seq<string>, called: set<string>, before: set<string>)
    requires ids != [] && UniqueIds(w) && forall c | c in ids :: HasDef(w, c)
    requires IsAllOf(library, w, ids[..|ids| - 1], called, before)
    ensures FewOf(library, w, ids, called) <==> FewFrom(library, DefOf(w, ids[|ids| - 1]), before)
  {
    forall all ensures IsAllOf(library, w, ids, called, all) <==> IsAllFrom(library, DefOf(w, ids[|ids| - 1]), before, all) {
      AllOfTwo(library, w, ids, called, before, all);
    }
    hide IsAllOf, IsAllFrom, HasDef;
  }

  lemma FewInFront(library: Library, w: Workflow, ids: seq<string>, called: set<string>)
    requires ids != [] && UniqueIds(w) && forall c | c in ids :: HasDef(w, c)
    requires FewOf(library, w, ids, called)
    ensures FewOf(library, w, ids[..|ids| - 1], called)
  {
    var front := ids[..|ids| - 1];
    assert ids == front + [ids[|ids| - 1]];
    hide ReachesFrom, HasDef;
    var all :| IsAllOf(library, w, ids, called, all) && |all| <= 50;
    var before := set p | p in all && (p in called || exists c :: c in front && ReachesFrom(library, DefOf(w, c), p));
    SubsetSize(before, all);
    assert IsAllOf(library, w, front, called, before);
  }

  // ---------------------------------------------------------------- every depth

  /**
   * Linking succeeds exactly when the graph of the workflow is closed and acyclic, every chain of calls
   * may be made, and no more than fifty workflows are called; it then has called exactly those.
   */
  lemma {:induction false} LinkedExactly(library: Library, w: Workflow, stack: seq<string>, called: set<string>, level: nat)
    requires LibraryOk(library) && WorkflowOk(w) && level <= MAX_LEVELS && |called| <= 50
    ensures var r := Link(library, w, stack, called, level);
      && (r.0.Ok? <==> Accepted(GraphOf(Flat(w.jobs))) && MayCallAll(library, w, stack, level) && Few(library, w, called))
      && (r.0.Ok? ==> IsAll(library, w, called, r.1) && |r.1| <= 50)
    decreases MAX_LEVELS - level, 1, 0
  {
    hide *;
    if Accepted(GraphOf(Flat(w.jobs))) {
      WorkflowIds(w);
      CallsHaveDefs(w);
      CallsExactly(library, w, CallIds(w), stack, called, level);
      LinkingNeverBreaksGraph(library, w, stack, called, level);
      LinkedCalls(library, w, stack, called, level);
      LevelCalls(library, w, stack, called, level);
    } else {
      RejectedGraph(library, w, stack, called, level);
    }
  }

  lemma CallsHaveDefs(w: Workflow)
    requires WorkflowOk(w)
    ensures UniqueIds(w) && forall c | c in CallIds(w) :: c in UsesOf(w.jobs) && HasDef(w, c)
  {
    forall c | c in CallIds(w) ensures c in UsesOf(w.jobs) && HasDef(w, c) { UsesDef(w, c); }
  }

  lemma RejectedGraph(library: Library, w: Workflow, stack: seq<string>, called: set<string>, level: nat)
    requires LibraryOk(library) && WorkflowOk(w) && level <= MAX_LEVELS && !Accepted(GraphOf(Flat(w.jobs)))
    ensures Link(library, w, stack, called, level).0.Err?
  {
    hide LinkCalls, Flat, GraphOf, Linkable, PlanOk, PlansOk, LibraryOk, WorkflowOk, Accepted, Spliced, HeadsFrom;
  }

  lemma LinkedCalls(library: Library, w: Workflow, stack: seq<string>, called: set<string>, level: nat)
    requires LibraryOk(library) && WorkflowOk(w) && level <= MAX_LEVELS && Accepted(GraphOf(Flat(w.jobs)))
    requires forall c | c in CallIds(w) :: c in UsesOf(w.jobs)
    ensures Link(library, w, stack, called, level).1 == LinkCalls(library, w, CallIds(w), stack, called, level).1
  {
    hide LinkCalls, Flat, GraphOf, Linkable, PlanOk, PlansOk, LibraryOk, WorkflowOk, Accepted, Spliced, HeadsFrom;
  }

  /** The calls of a level are its definitions that use a workflow. */
  lemma LevelCalls(library: Library, w: Workflow, stack: seq<string>, called: set<string>, level: nat)
    requires WorkflowOk(w) && UniqueIds(w) && forall c | c in CallIds(w) :: HasDef(w, c)
    ensures MayCallEvery(library, w, CallIds(w), stack, level) <==> MayCallAll(library, w, stack, level)
    ensures forall all :: IsAllOf(library, w, CallIds(w), called, all) <==> IsAll(library, w, called, all)
    ensures FewOf(library, w, CallIds(w), called) <==> Few(library, w, called)
  {
    hide *;
    LevelMay(library, w, stack, level);
    forall all ensures IsAllOf(library, w, CallIds(w), called, all) <==> IsAll(library, w, called, all) {
      LevelAll(library, w, called, all);
    }
    SameFew(library, w, called);
  }

  lemma SameFew(library: Library, w: Workflow, called: set<string>)
    requires UniqueIds(w) && forall c | c in CallIds(w) :: HasDef(w, c)
    requires forall all :: IsAllOf(library, w, CallIds(w), called, all) <==> IsAll(library, w, called, all)
    ensures FewOf(library, w, CallIds(w), called) <==> Few(library, w, called)
  {
    hide IsAllOf, IsAll;
  }

  lemma LevelMay(library: Library, w: Workflow, stack: seq<string>, level: nat)
    requires WorkflowOk(w) && UniqueIds(w) && forall c | c in CallIds(w) :: HasDef(w, c)
    ensures MayCallEvery(library, w, CallIds(w), stack, level) <==> MayCallAll(library, w, stack, level)
  {
    MayCallEach(library, w, stack, level);
    CallDefs(w);
    hide MayCallAll, HasDef, UniqueIds, WorkflowOk, CallIds;
    if MayCallEvery(library, w, CallIds(w), stack, level) {
      forall d | d in w.jobs ensures MayCallFrom(library, d, stack, level) { DefIsCall(w, d); }
    }
  }

  lemma LevelAll(library: Library, w: Workflow, called: set<string>, all: set<string>)
    requires WorkflowOk(w) && UniqueIds(w) && forall c | c in CallIds(w) :: HasDef(w, c)
    ensures IsAllOf(library, w, CallIds(w), called, all) <==> IsAll(library, w, called, all)
  {
    hide Reaches, ReachesFrom, HasDef, UniqueIds, WorkflowOk, CallIds;
    forall path ensures (exists c :: c in CallIds(w) && ReachesFrom(library, DefOf(w, c), path)) <==> Reaches(library, w, path) {
      LevelReaches(library, w, path);
    }
  }

  lemma LevelReaches(library: Library, w: Workflow, path: string)
    requires WorkflowOk(w) && UniqueIds(w) && forall c | c in CallIds(w) :: HasDef(w, c)
    ensures (exists c :: c in CallIds(w) && ReachesFrom(library, DefOf(w, c), path)) <==> Reaches(library, w, path)
  {
    ReachesEach(library, w, path);
    CallDefs(w);
    hide Reaches, HasDef, UniqueIds, WorkflowOk, CallIds;
    if Reaches(library, w, path) {
      var d :| d in w.jobs && ReachesFrom(library, d, path);
      DefIsCall(w, d);
    }
  }

  lemma DefIsCall(w: Workflow, d: JobDef)
    requires WorkflowOk(w) && d in w.jobs
    ensures d.uses.Some? <==> d.id in CallIds(w)
    ensures d.id in CallIds(w) ==> HasDef(w, d.id) && DefOf(w, d.id) == d
  {
    if d.uses.Some? { UsesIn(w.jobs, d); }
    if d.id in CallIds(w) {
      UsesDef(w, d.id);
      SameDef(w, d, DefOf(w, d.id));
    }
  }

  lemma {:induction false} UsesIn(jobs: seq<JobDef>, d: JobDef)
    requires d in jobs && d.uses.Some?
    ensures d.id in UsesOf(jobs)
  {
    var front, last := jobs[..|jobs| - 1], jobs[|jobs| - 1];
    assert jobs == front + [last];
    if d in front { UsesIn(front, d); }
  }

  lemma CallDefs(w: Workflow)
    requires WorkflowOk(w)
    ensures forall c | c in CallIds(w) :: HasDef(w, c) && DefOf(w, c).uses.Some? && DefOf(w, c) in w.jobs
  {
    forall c | c in CallIds(w) ensures HasDef(w, c) && DefOf(w, c).uses.Some? && DefOf(w, c) in w.jobs { UsesDef(w, c); }
  }

  lemma NoCalls(library: Library, w: Workflow, stack: seq<string>, called: set<string>, level: nat)
    requires LibraryOk(library) && WorkflowOk(w) && level <= MAX_LEVELS && |called| <= 50 && UniqueIds(w)
    ensures LinkCalls(library, w, [], stack, called, level) == (Ok(map[]), called)
    ensures MayCallEvery(library, w, [], stack, level) && IsAllOf(library, w, [], called, called) && FewOf(library, w, [], called)
  {
    hide PlanOk, CalledOk, LibraryOk, WorkflowOk, UniqueIds;
    assert IsAllOf(library, w, [], called, called);
  }

  lemma CallsOneByOne(library: Library, w: Workflow, ids: seq<string>, stack: seq<string>, called: set<string>, level: nat)
    requires LibraryOk(library) && WorkflowOk(w) && level <= MAX_LEVELS && ids != []
    requires (forall c | c in ids :: c in UsesOf(w.jobs)) && forall c | c in ids[..|ids| - 1] :: c in UsesOf(w.jobs)
    ensures var front := LinkCalls(library, w, ids[..|ids| - 1], stack, called, level);
            var last := LinkCall(library, w, ids[|ids| - 1], stack, front.1, level);
            var r := LinkCalls(library, w, ids, stack, called, level);
            (r.0.Ok? <==> front.0.Ok? && last.0.Ok?) && (r.0.Ok? ==> r.1 == last.1)
  {
    hide LinkCall, UsesOf, PlanOk, CalledOk, LibraryOk, WorkflowOk;
  }

  lemma MayCallFrontLast(library: Library, w: Workflow, ids: seq<string>, stack: seq<string>, level: nat)
    requires UniqueIds(w) && ids != [] && forall c | c in ids :: HasDef(w, c)
    ensures (forall c | c in ids[..|ids| - 1] :: HasDef(w, c)) && ids[|ids| - 1] in ids
    ensures MayCallEvery(library, w, ids, stack, level) <==>
            MayCallEvery(library, w, ids[..|ids| - 1], stack, level) && MayCallFrom(library, DefOf(w, ids[|ids| - 1]), stack, level)
  {
    assert ids == ids[..|ids| - 1] + [ids[|ids| - 1]];
    hide MayCallFrom, HasDef, UniqueIds;
  }

  lemma {:induction false} CallsExactly(library: Library, w: Workflow, ids: seq<string>, stack: seq<string>, called: set<string>, level: nat)
    requires LibraryOk(library) && WorkflowOk(w) && level <= MAX_LEVELS && |called| <= 50
    requires UniqueIds(w) && (forall c | c in ids :: c in UsesOf(w.jobs)) && forall c | c in ids :: HasDef(w, c)
    ensures var r := LinkCalls(library, w, ids, stack, called, level);
      && (r.0.Ok? <==> MayCallEvery(library, w, ids, stack, level) && FewOf(library, w, ids, called))
      && (r.0.Ok? ==> IsAllOf(library, w, ids, called, r.1) && |r.1| <= 50)
    decreases MAX_LEVELS - level, 0, |ids|
  {
    hide *;
    if ids == [] {
      NoCalls(library, w, stack, called, level);
    } else {
      var front := ids[..|ids| - 1];
      MayCallFrontLast(library, w, ids, stack, level);
      CallsOneByOne(library, w, ids, stack, called, level);
      CallsExactly(library, w, front, stack, called, level);
      if FewOf(library, w, ids, called) { FewInFront(library, w, ids, called); }
      var before := LinkCalls(library, w, front, stack, called, level);
      if before.0.Ok? {
        FewOfTwo(library, w, ids, called, before.1);
        CallExactly(library, w, ids[|ids| - 1], stack, before.1, level);
        AllOfTwo(library, w, ids, called, before.1, LinkCalls(library, w, ids, stack, called, level).1);
      }
    }
  }

  lemma {:induction false} CallExactly(library: Library, w: Workflow, c: string, stack: seq<string>, called: set<string>, level: nat)
    requires LibraryOk(library) && WorkflowOk(w) && level <= MAX_LEVELS && |called| <= 50
    requires UniqueIds(w) && c in UsesOf(w.jobs) && HasDef(w, c)
    ensures var r, d := LinkCall(library, w, c, stack, called, level), DefOf(w, c);
      && (r.0.Ok? <==> MayCallFrom(library, d, stack, level) && FewFrom(library, d, called))
      && (r.0.Ok? ==> IsAllFrom(library, d, called, r.1) && |r.1| <= 50)
    decreases MAX_LEVELS - level, 0, 0
  {
    hide *;
    var d := DefOf(w, c);
    UsesDef(w, c);
    CallIs(library, w, c, stack, called, level);
    MayCallIs(library, d, stack, called, level);
    var path, now := d.uses.value, called + {d.uses.value};
    EnterIs(library, path, stack, now, level);
    if |now| > 50 {
      TooManyIsNotFew(library, d, called);
    } else {
      MayCallFromIs(library, d, stack, level);
      if MayEnter(library, path, stack, now, level) {
        LibraryHas(library, w, path, d);
        var inner := Link(library, library[path], stack + [path], now, level + 1);
        LinkedExactly(library, library[path], stack + [path], now, level + 1);
        if inner.0.Ok? { EmptyExactly(library, library[path], stack + [path], now, level + 1); }
        TemplatesExactly(w, d);
        FewOneFurther(library, d, called);
        OneCallFurther(library, d, called, inner.1);
      }
    }
  }

  lemma EnterIs(library: Library, path: string, stack: seq<string>, now: set<string>, level: nat)
    ensures MayEnter(library, path, stack, now, level) <==> |now| <= 50 && level < MAX_LEVELS && path !in stack && path in library
    ensures level < MAX_LEVELS <==> level < 10
  {
  }

  lemma MayCallFromIs(library: Library, d: JobDef, stack: seq<string>, level: nat)
    requires d.uses.Some?
    ensures MayCallFrom(library, d, stack, level) <==>
              && MayCall(library, [d], stack, level)
              && (d.uses.value in library ==> MayCallAll(library, library[d.uses.value], stack + [d.uses.value], level + 1))
  {
    hide MayCall, MayCallAll;
  }

  lemma LibraryHas(library: Library, w: Workflow, path: string, d: JobDef)
    requires LibraryOk(library) && path in library && WorkflowOk(w) && d in w.jobs && d.uses.Some?
    ensures WorkflowOk(library[path]) && d.instances > 0
  {
  }
}
