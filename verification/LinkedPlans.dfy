/** A linked plan is again a sound plan: it can itself be called. */
module LinkedPlans {
  import opened Basics
  import opened Names
  import opened Dependencies
  import opened Plans
  import opened Splicing
  import opened LinkOrder
  import opened LinkReach

  // ---------------------------------------------------------------- roots

  lemma OriginRooted(jobs: seq<PlannedJob>, plans: map<string, Plan>, o: Origin)
    requires Linkable(jobs, plans) && IsOrigin(jobs, plans, o)
    ensures RootedAt(Spliced(jobs, plans), NameOf(jobs, o))
  {
    LinkableParts(jobs, plans);
    HeadOfName(jobs, plans, o);
    if InvocationPart(o) {
      PartIsStatic(jobs, plans, o, o.call, o.i);
      if o.ResultAt? && Count(jobs, o.call) == 1 {
        NameIsHead(jobs, plans, o);
      } else {
        PartBelowCall(jobs, plans, o);
        CallNamed(jobs, plans, o.call);
        NameIsNamespaced(jobs, o);
        hide Linkable, GraphOf, Spliced, NameOf, Head, Namespaced, PlaceholdersOf, Reach, WellNamed;
      }
    } else {
      NameIsHead(jobs, plans, o);
    }
  }

  lemma NameIsHead(jobs: seq<PlannedJob>, plans: map<string, Plan>, o: Origin)
    requires Head(NameOf(jobs, o)) == CallOf(o) && Expandable(jobs, plans)
    requires !InvocationPart(o) || (o.ResultAt? && Count(jobs, o.call) == 1)
    ensures RootedAt(Spliced(jobs, plans), NameOf(jobs, o))
  {
    hide Spliced, Head, GraphOf, Reach, Namespaced;
  }

  lemma NameIsNamespaced(jobs: seq<PlannedJob>, o: Origin)
    requires InvocationPart(o) && (o.ResultAt? ==> Count(jobs, o.call) != 1)
    ensures Namespaced(NameOf(jobs, o))
  {
    hide Join, Namespaced, PlaceholdersOf;
    if o.ResultAt? {
      JoinIsNamespaced(o.call, Label(o.i + 1));
    } else {
      JoinIsNamespaced(Inv(jobs, o.call, o.i), TailOf(o));
    }
  }

  /** The call's own id names a job of the linked plan: the caller's dependants find it there. */
  lemma CallNamed(jobs: seq<PlannedJob>, plans: map<string, Plan>, x: string)
    requires Linkable(jobs, plans) && x in GraphOf(jobs)
    ensures x in Bases(Spliced(jobs, plans))
  {
    LinkableParts(jobs, plans);
    if Static(jobs, plans, x) {
      HasPlaceholder(jobs, x);
      hide Linkable, GraphOf, Spliced, PlaceholdersOf, Join;
      if Count(jobs, x) == 1 {
        HostsInvocation(jobs, plans, x, 0);
        CallIsHosted(GraphOf(Spliced(jobs, plans)), GraphOf(jobs)[x], jobs, x, GraphOf(plans[x].jobs), PublicIds(plans[x].jobs));
      } else {
        CombinedNeeds(jobs, plans, x);
      }
    } else {
      hide Linkable, GraphOf, Spliced, PlaceholdersOf;
      OthersKeepNeeds(jobs, plans, x);
    }
  }

  lemma CallIsHosted(g: Graph, needs: seq<string>, jobs: seq<PlannedJob>, c: string, h: Graph, public: seq<string>)
    requires Count(jobs, c) == 1 && Hosts(g, needs, Inv(jobs, c, 0), h, public)
    ensures c in g
  {
    hide Join, PlaceholdersOf;
  }

  lemma PartBelowCall(jobs: seq<PlannedJob>, plans: map<string, Plan>, o: Origin)
    requires Linkable(jobs, plans) && IsOrigin(jobs, plans, o) && InvocationPart(o)
    requires o.ResultAt? ==> Count(jobs, o.call) != 1
    ensures CallOf(o) in GraphOf(jobs) && Reach(GraphOf(Spliced(jobs, plans)), CallOf(o), NameOf(jobs, o))
  {
    PartIsStatic(jobs, plans, o, o.call, o.i);
    if o.ResultAt? {
      InvocationIsOutside(o.call, Count(jobs, o.call), o.i, o.i, "");
      assert NameOf(jobs, o) == Inv(jobs, o.call, o.i);
      assert Inv(jobs, o.call, o.i) != o.call;
      hide *;
      InvocationFacts(jobs, plans, o.call, o.i);
      CallAboveInvocation(jobs, plans, o.call, o.i);
    } else {
      assert NameOf(jobs, o) == Join(Inv(jobs, o.call, o.i), TailOf(o));
      InnerInGraph(jobs, plans, o);
      hide *;
      PartBelowResult(jobs, plans, o.call, o.i, TailOf(o));
    }
  }

  lemma InnerInGraph(jobs: seq<PlannedJob>, plans: map<string, Plan>, o: Origin)
    requires IsOrigin(jobs, plans, o) && (o.GateOf? || o.Inner?)
    ensures o.call in plans && (TailOf(o) == "gate" || TailOf(o) in GraphOf(plans[o.call].jobs))
  {
    hide PlaceholdersOf, AnyDynamic;
  }

  lemma PartBelowResult(jobs: seq<PlannedJob>, plans: map<string, Plan>, c: string, i: nat, x: string)
    requires Linkable(jobs, plans) && Static(jobs, plans, c) && i < Count(jobs, c)
    requires c in plans && (x == "gate" || x in GraphOf(plans[c].jobs))
    ensures c in GraphOf(jobs) && Reach(GraphOf(Spliced(jobs, plans)), c, Join(Inv(jobs, c, i), x))
  {
    hide *;
    InvocationFacts(jobs, plans, c, i);
    var g, v, inner := GraphOf(Spliced(jobs, plans)), Inv(jobs, c, i), if x == "gate" then plans[c].jobs[0].base else x;
    GateBelowResultAbove(jobs, plans, c, i, inner);
    CallAboveInvocation(jobs, plans, c, i);
    if v != c {
      ReachTrans(g, c, v, Join(v, x));
    }
  }

  lemma SplicedRooted(jobs: seq<PlannedJob>, plans: map<string, Plan>)
    requires Linkable(jobs, plans)
    ensures Rooted(Spliced(jobs, plans))
  {
    LinkableParts(jobs, plans);
    var linked := Spliced(jobs, plans);
    hide Linkable, Spliced, GraphOf, RootedAt, IsOrigin, NameOf;
    forall x | x in Bases(linked) ensures RootedAt(linked, x) {
      NodeOrigin(jobs, plans, x);
      var o :| IsOrigin(jobs, plans, o) && NameOf(jobs, o) == x;
      OriginRooted(jobs, plans, o);
    }
  }

  // ---------------------------------------------------------------- references

  predicate KindRefers(kind: Virtual, bases: set<string>) {
    match kind
    case ReusableResult(jobs) => forall a | a in jobs :: jobs[a] in bases
    case ReusableMatrixResult(invocations, _, _) => forall x | x in invocations :: x in bases
    case _ => true
  }

  predicate AliasesRefer(aliases: map<string, string>, bases: set<string>) {
    forall a | a in aliases :: aliases[a] in bases
  }

  lemma RefersParts(j: PlannedJob, bases: set<string>)
    requires j.base <= j.id && (forall x | x in j.needs :: x in bases)
    requires AliasesRefer(j.aliases, bases) && KindRefers(j.kind, bases)
    ensures RefersTo(j, bases)
  {
  }

  /** The names of one invocation and the caller's own ids are ids of the linked plan. */
  lemma NamesInPlan(jobs: seq<PlannedJob>, plans: map<string, Plan>, c: string, i: nat)
    requires Linkable(jobs, plans) && Static(jobs, plans, c) && i < Count(jobs, c)
    ensures c in plans
    ensures var bases, v := Bases(Spliced(jobs, plans)), Inv(jobs, c, i);
            v in bases && Join(v, "gate") in bases && forall x | x in Bases(plans[c].jobs) :: Join(v, x) in bases
  {
    LinkableParts(jobs, plans);
    assert c in plans;
    HostsInvocation(jobs, plans, c, i);
    hide Linkable, Spliced, Join, Inv, Static, PublicIds;
    HostsNames(GraphOf(Spliced(jobs, plans)), GraphOf(jobs)[c], Inv(jobs, c, i), GraphOf(plans[c].jobs), PublicIds(plans[c].jobs));
    hide GraphOf;
  }

  lemma HostsNames(g: Graph, needs: seq<string>, v: string, h: Graph, public: seq<string>)
    requires Hosts(g, needs, v, h, public)
    ensures v in g && Join(v, "gate") in g && forall x | x in h :: Join(v, x) in g
  {
    hide Join;
  }

  lemma CallerIdsInPlan(jobs: seq<PlannedJob>, plans: map<string, Plan>)
    requires Linkable(jobs, plans)
    ensures forall x | x in Bases(jobs) :: x in Bases(Spliced(jobs, plans))
  {
    LinkableParts(jobs, plans);
    hide Linkable, Spliced, GraphOf;
    forall x | x in Bases(jobs) ensures x in Bases(Spliced(jobs, plans)) {
      CallNamed(jobs, plans, x);
    }
  }

  lemma PlaceholderRefers(jobs: seq<PlannedJob>, bases: set<string>, c: string, i: nat)
    requires RefersWithin(jobs) && i < Count(jobs, c) && forall x | x in Bases(jobs) :: x in bases
    ensures RefersTo(PlaceholdersOf(jobs, c)[i], bases) && PlaceholdersOf(jobs, c)[i].base == c
  {
    var p := PlaceholdersOf(jobs, c)[i];
    assert p in PlaceholdersOf(jobs, c);
    assert p in jobs && RefersTo(p, Bases(jobs));
    hide Bases;
  }

  lemma RenamedRefers(v: string, p: PlannedJob, called: Plan, j: PlannedJob, bases: set<string>)
    requires RefersTo(j, Bases(called.jobs)) && Join(v, "gate") in bases
    requires forall x | x in Bases(called.jobs) :: Join(v, x) in bases
    requires forall x | x in p.needs :: x in bases
    ensures RefersTo(Renamed(v, p, called, j), bases)
  {
    var r := Renamed(v, p, called, j);
    InJoinEach(v, j.needs, "");
    if j.kind.ReusableMatrixResult? {
      InJoinEach(v, j.kind.invocations, "");
    }
    assert r.base <= r.id;
    hide Join, JoinEach, OwnScopes, ScopeNames, JoinScopes, Intersect, Bases;
    assert AliasesRefer(r.aliases, bases);
    assert KindRefers(r.kind, bases);
    RefersParts(r, bases);
  }

  lemma ResultRefers(v: string, p: PlannedJob, called: Plan, bases: set<string>)
    requires v in bases && forall x | x in Bases(called.jobs) :: Join(v, x) in bases
    ensures RefersTo(ResultOf(v, p, called), bases)
  {
    var r := ResultOf(v, p, called);
    InJoinEach(v, PublicIds(called.jobs), "");
    hide Join, JoinEach, OwnScopes, ScopeNames, Bases, PublicIds;
    assert AliasesRefer(r.aliases, bases);
    RefersParts(r, bases);
  }

  lemma PartRefers(jobs: seq<PlannedJob>, plans: map<string, Plan>, o: Origin)
    requires Linkable(jobs, plans) && IsOrigin(jobs, plans, o) && InvocationPart(o)
    ensures RefersTo(Made(jobs, plans, o), Bases(Spliced(jobs, plans)))
  {
    var c, i, bases := o.call, o.i, Bases(Spliced(jobs, plans));
    PartIsStatic(jobs, plans, o, c, i);
    NamesInPlan(jobs, plans, c, i);
    CallerIdsInPlan(jobs, plans);
    PlaceholderRefers(jobs, bases, c, i);
    var v, p := Inv(jobs, c, i), PlaceholdersOf(jobs, c)[i];
    hide Spliced, Bases, PlaceholdersOf, Join, Invocation, WellNamed, SameNeeds, Accepted, Rooted, GraphOf;
    match o
    case GateOf(_, _) => RefersParts(Gate(v, p, plans[c]), bases);
    case ResultAt(_, _) => ResultRefers(v, p, plans[c], bases);
    case Inner(_, _, j) => RenamedRefers(v, p, plans[c], j, bases);
  }

  lemma OriginRefers(jobs: seq<PlannedJob>, plans: map<string, Plan>, o: Origin)
    requires Linkable(jobs, plans) && IsOrigin(jobs, plans, o)
    ensures RefersTo(Made(jobs, plans, o), Bases(Spliced(jobs, plans)))
  {
    if InvocationPart(o) {
      PartRefers(jobs, plans, o);
    } else {
      CallerIdsInPlan(jobs, plans);
      WholeRefers(jobs, plans, o, Bases(Spliced(jobs, plans)));
    }
  }

  lemma WholeRefers(jobs: seq<PlannedJob>, plans: map<string, Plan>, o: Origin, bases: set<string>)
    requires Linkable(jobs, plans) && IsOrigin(jobs, plans, o) && !InvocationPart(o)
    requires bases == Bases(Spliced(jobs, plans)) && forall x | x in Bases(jobs) :: x in bases
    ensures RefersTo(Made(jobs, plans, o), bases)
  {
    LinkableRefers(jobs, plans);
    if o.Kept? {
      hide *;
      KeptRefers(jobs, plans, o, bases);
    } else if o.CombinedAt? {
      StaticCall(jobs, plans, o.call);
      hide *;
      InvocationsInPlan(jobs, plans, o.call);
      CombinedRefers(jobs, plans, o.call, bases);
    } else {
      hide *;
      TemplateRefers(jobs, plans, o.call, bases);
    }
  }

  lemma LinkableRefers(jobs: seq<PlannedJob>, plans: map<string, Plan>)
    requires Linkable(jobs, plans)
    ensures RefersWithin(jobs) && Expandable(jobs, plans)
  {
  }

  lemma StaticCall(jobs: seq<PlannedJob>, plans: map<string, Plan>, c: string)
    requires IsOrigin(jobs, plans, CombinedAt(c))
    ensures Static(jobs, plans, c)
  {
  }

  lemma KeptRefers(jobs: seq<PlannedJob>, plans: map<string, Plan>, o: Origin, bases: set<string>)
    requires RefersWithin(jobs) && Expandable(jobs, plans) && IsOrigin(jobs, plans, o) && o.Kept?
    requires forall x | x in Bases(jobs) :: x in bases
    ensures RefersTo(Made(jobs, plans, o), bases)
  {
    assert RefersTo(o.job, Bases(jobs));
    hide Bases;
  }

  lemma TemplateRefers(jobs: seq<PlannedJob>, plans: map<string, Plan>, c: string, bases: set<string>)
    requires RefersWithin(jobs) && Expandable(jobs, plans) && IsOrigin(jobs, plans, Template(c))
    requires forall x | x in Bases(jobs) :: x in bases
    ensures RefersTo(Made(jobs, plans, Template(c)), bases)
  {
    HasPlaceholder(jobs, c);
    PlaceholderRefers(jobs, bases, c, 0);
    hide Bases, RefersWithin, PlaceholdersOf;
  }

  lemma CombinedRefers(jobs: seq<PlannedJob>, plans: map<string, Plan>, c: string, bases: set<string>)
    requires Expandable(jobs, plans) && IsOrigin(jobs, plans, CombinedAt(c))
    requires forall y | y in Invocations(c, Count(jobs, c)) :: y in bases
    ensures RefersTo(Made(jobs, plans, CombinedAt(c)), bases)
  {
    HasPlaceholder(jobs, c);
    hide Bases, RefersWithin, PlaceholdersOf, Invocation;
  }

  lemma InvocationsInPlan(jobs: seq<PlannedJob>, plans: map<string, Plan>, c: string)
    requires Linkable(jobs, plans) && Static(jobs, plans, c)
    ensures forall y | y in Invocations(c, Count(jobs, c)) :: y in Bases(Spliced(jobs, plans))
  {
    LinkableParts(jobs, plans);
    hide Linkable, Spliced, PlaceholdersOf, GraphOf, Bases, Join, Static;
    forall y | y in Invocations(c, Count(jobs, c)) ensures y in Bases(Spliced(jobs, plans)) {
      var i :| 0 <= i < Count(jobs, c) && Invocations(c, Count(jobs, c))[i] == y;
      NamesInPlan(jobs, plans, c, i);
    }
  }

  lemma SplicedRefers(jobs: seq<PlannedJob>, plans: map<string, Plan>)
    requires Linkable(jobs, plans)
    ensures RefersWithin(Spliced(jobs, plans))
  {
    LinkableParts(jobs, plans);
    var linked := Spliced(jobs, plans);
    hide Linkable, Spliced, IsOrigin, Made, RefersTo;
    forall j | j in linked ensures RefersTo(j, Bases(linked)) {
      OriginExists(jobs, plans, j);
      var o :| IsOrigin(jobs, plans, o) && Made(jobs, plans, o) == j;
      OriginRefers(jobs, plans, o);
    }
  }

  /** One level of linking makes a sound plan out of sound plans. */
  lemma SplicedOk(jobs: seq<PlannedJob>, plans: map<string, Plan>)
    requires Linkable(jobs, plans)
    ensures PlanOk(Spliced(jobs, plans))
  {
    LinkableParts(jobs, plans);
    SplicedRefers(jobs, plans);
    SplicedSameNeeds(jobs, plans);
    SplicedAccepted(jobs, plans);
    SplicedRooted(jobs, plans);
    hide RefersWithin, SameNeeds, Accepted, Rooted, Linkable, Spliced;
  }
}
