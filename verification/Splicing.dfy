/** Where every job of a linked plan comes from, and why names tell the origins apart. */
module Splicing {
  import opened Basics
  import opened Names
  import opened Dependencies
  import opened Plans

  datatype Origin =
    | Kept(job: PlannedJob)
    | Template(call: string)
    | GateOf(call: string, i: nat)
    | Inner(call: string, i: nat, job: PlannedJob)
    | ResultAt(call: string, i: nat)
    | CombinedAt(call: string)

  predicate Static(jobs: seq<PlannedJob>, plans: map<string, Plan>, c: string) {
    c in plans && !AnyDynamic(PlaceholdersOf(jobs, c))
  }

  function Count(jobs: seq<PlannedJob>, c: string): nat {
    |PlaceholdersOf(jobs, c)|
  }

  /** The name of the `i`th invocation of call `c`. */
  function Inv(jobs: seq<PlannedJob>, c: string, i: nat): string {
    Invocation(c, Count(jobs, c), i)
  }

  predicate IsOrigin(jobs: seq<PlannedJob>, plans: map<string, Plan>, o: Origin) {
    match o
    case Kept(j) => j in jobs && j.base !in plans
    case Template(c) => c in plans && !Static(jobs, plans, c)
    case GateOf(c, i) => Static(jobs, plans, c) && i < Count(jobs, c)
    case Inner(c, i, j) => Static(jobs, plans, c) && i < Count(jobs, c) && j in plans[c].jobs
    case ResultAt(c, i) => Static(jobs, plans, c) && i < Count(jobs, c)
    case CombinedAt(c) => Static(jobs, plans, c) && Count(jobs, c) != 1
  }

  function Made(jobs: seq<PlannedJob>, plans: map<string, Plan>, o: Origin): PlannedJob
    requires Expandable(jobs, plans) && IsOrigin(jobs, plans, o)
  {
    match o
    case Kept(j) => j
    case Template(c) => HasPlaceholder(jobs, c); PlaceholdersOf(jobs, c)[0].(kind := ReusableDynamicCall(plans[c]))
    case GateOf(c, i) => Gate(Inv(jobs, c, i), PlaceholdersOf(jobs, c)[i], plans[c])
    case Inner(c, i, j) => Renamed(Inv(jobs, c, i), PlaceholdersOf(jobs, c)[i], plans[c], j)
    case ResultAt(c, i) => ResultOf(Inv(jobs, c, i), PlaceholdersOf(jobs, c)[i], plans[c])
    case CombinedAt(c) => HasPlaceholder(jobs, c); Combined(c, PlaceholdersOf(jobs, c)[0], Invocations(c, Count(jobs, c)))
  }

  // ---------------------------------------------------------------- membership

  lemma {:induction false} InReplaced(jobs: seq<PlannedJob>, xs: map<string, seq<PlannedJob>>, j: PlannedJob)
    ensures j in Replaced(jobs, xs) <==>
            (j in jobs && j.base !in xs) || (exists c :: c in xs && c in Bases(jobs) && j in xs[c])
  {
    if jobs != [] {
      var front, last := jobs[..|jobs| - 1], jobs[|jobs| - 1];
      assert jobs == front + [last];
      InReplaced(front, xs, j);
      assert Bases(jobs) == Bases(front) + {last.base};
    }
  }

  lemma {:induction false} InBodies(c: string, ps: seq<PlannedJob>, called: Plan, k: nat, j: PlannedJob)
    requires k <= |ps| && RefersWithin(called.jobs)
    ensures j in Bodies(c, ps, called, k) <==> exists i :: 0 <= i < k && j in Expanded(Invocation(c, |ps|, i), ps[i], called)
  {
    hide Expanded, RefersWithin, Invocation;
    if k > 0 {
      InBodies(c, ps, called, k - 1, j);
    }
  }

  lemma InExpanded(v: string, p: PlannedJob, called: Plan, j: PlannedJob)
    requires RefersWithin(called.jobs)
    ensures j in Expanded(v, p, called) <==>
            j == Gate(v, p, called) || j == ResultOf(v, p, called)
            || exists q :: q in called.jobs && j == Renamed(v, p, called, q)
  {
    InRenamed(v, p, called, called.jobs, j);
    hide Gate, ResultOf, Renamed, RenamedAll;
  }

  lemma InRenamed(v: string, p: PlannedJob, called: Plan, jobs: seq<PlannedJob>, j: PlannedJob)
    requires forall q | q in jobs :: q.base <= q.id
    ensures j in RenamedAll(v, p, called, jobs) <==> exists q :: q in jobs && j == Renamed(v, p, called, q)
  {
    hide Renamed;
    var inner := RenamedAll(v, p, called, jobs);
    forall q | q in jobs ensures Renamed(v, p, called, q) in inner {
      var i :| 0 <= i < |jobs| && jobs[i] == q;
      assert inner[i] == Renamed(v, p, called, q);
    }
    forall k | k in inner ensures exists q :: q in jobs && k == Renamed(v, p, called, q) {
      var i :| 0 <= i < |inner| && inner[i] == k;
      assert jobs[i] in jobs;
    }
  }

  /** The region of one static call. */
  ghost predicate InRegion(jobs: seq<PlannedJob>, plans: map<string, Plan>, c: string, j: PlannedJob)
    requires Expandable(jobs, plans)
  {
    exists o :: IsOrigin(jobs, plans, o) && !o.Kept? && o.call == c && Made(jobs, plans, o) == j
  }

  lemma ExpansionIn(jobs: seq<PlannedJob>, plans: map<string, Plan>, c: string, j: PlannedJob)
    requires Expandable(jobs, plans) && c in plans
    requires j in Expansions(jobs, plans)[c]
    ensures InRegion(jobs, plans, c, j)
  {
    hide Made;
    HasPlaceholder(jobs, c);
    var ps := PlaceholdersOf(jobs, c);
    if AnyDynamic(ps) {
      TemplateMade(jobs, plans, c);
    } else if |ps| == 1 {
      InExpansion(jobs, plans, c, 0, j);
    } else {
      InBodies(c, ps, plans[c], |ps|, j);
      if i :| 0 <= i < |ps| && j in Expanded(Invocation(c, |ps|, i), ps[i], plans[c]) {
        InExpansion(jobs, plans, c, i, j);
      } else {
        CombinedMade(jobs, plans, c);
      }
    }
  }

  lemma TemplateMade(jobs: seq<PlannedJob>, plans: map<string, Plan>, c: string)
    requires Expandable(jobs, plans) && c in plans && !Static(jobs, plans, c)
    ensures PlaceholdersOf(jobs, c) != []
    ensures InRegion(jobs, plans, c, PlaceholdersOf(jobs, c)[0].(kind := ReusableDynamicCall(plans[c])))
  {
    HasPlaceholder(jobs, c);
    assert IsOrigin(jobs, plans, Template(c));
    assert Made(jobs, plans, Template(c)) == PlaceholdersOf(jobs, c)[0].(kind := ReusableDynamicCall(plans[c]));
  }

  lemma CombinedMade(jobs: seq<PlannedJob>, plans: map<string, Plan>, c: string)
    requires Expandable(jobs, plans) && Static(jobs, plans, c) && Count(jobs, c) != 1
    ensures PlaceholdersOf(jobs, c) != []
    ensures InRegion(jobs, plans, c, Combined(c, PlaceholdersOf(jobs, c)[0], Invocations(c, Count(jobs, c))))
  {
    HasPlaceholder(jobs, c);
    assert IsOrigin(jobs, plans, CombinedAt(c));
    assert Made(jobs, plans, CombinedAt(c)) == Combined(c, PlaceholdersOf(jobs, c)[0], Invocations(c, Count(jobs, c)));
  }

  lemma InExpansion(jobs: seq<PlannedJob>, plans: map<string, Plan>, c: string, i: nat, j: PlannedJob)
    requires Expandable(jobs, plans) && Static(jobs, plans, c) && i < Count(jobs, c)
    requires j in Expanded(Inv(jobs, c, i), PlaceholdersOf(jobs, c)[i], plans[c])
    ensures InRegion(jobs, plans, c, j)
  {
    var v, p := Inv(jobs, c, i), PlaceholdersOf(jobs, c)[i];
    InExpanded(v, p, plans[c], j);
    if j == Gate(v, p, plans[c]) {
      assert IsOrigin(jobs, plans, GateOf(c, i)) && Made(jobs, plans, GateOf(c, i)) == j;
    } else if j == ResultOf(v, p, plans[c]) {
      assert IsOrigin(jobs, plans, ResultAt(c, i)) && Made(jobs, plans, ResultAt(c, i)) == j;
    } else {
      var q :| q in plans[c].jobs && j == Renamed(v, p, plans[c], q);
      assert IsOrigin(jobs, plans, Inner(c, i, q)) && Made(jobs, plans, Inner(c, i, q)) == j;
    }
  }

  /** Every job of the linked plan has an origin ... */
  lemma OriginExists(jobs: seq<PlannedJob>, plans: map<string, Plan>, j: PlannedJob)
    requires Expandable(jobs, plans) && j in Spliced(jobs, plans)
    ensures exists o :: IsOrigin(jobs, plans, o) && Made(jobs, plans, o) == j
  {
    InReplaced(jobs, Expansions(jobs, plans), j);
    if j in jobs && j.base !in plans {
      assert IsOrigin(jobs, plans, Kept(j)) && Made(jobs, plans, Kept(j)) == j;
    } else {
      var c :| c in plans && j in Expansions(jobs, plans)[c];
      ExpansionIn(jobs, plans, c, j);
    }
  }

  /** ... and every origin a job. */
  lemma OriginMakes(jobs: seq<PlannedJob>, plans: map<string, Plan>, o: Origin)
    requires Expandable(jobs, plans) && IsOrigin(jobs, plans, o)
    ensures Made(jobs, plans, o) in Spliced(jobs, plans)
  {
    var j := Made(jobs, plans, o);
    InReplaced(jobs, Expansions(jobs, plans), j);
    if !o.Kept? {
      HasPlaceholder(jobs, o.call);
      MadeInExpansion(jobs, plans, o);
    }
    hide Made;
  }

  lemma MadeInExpansion(jobs: seq<PlannedJob>, plans: map<string, Plan>, o: Origin)
    requires Expandable(jobs, plans) && IsOrigin(jobs, plans, o) && !o.Kept?
    ensures PlaceholdersOf(jobs, o.call) != []
    ensures Made(jobs, plans, o) in Expansion(o.call, PlaceholdersOf(jobs, o.call), plans[o.call])
  {
    var c := o.call;
    HasPlaceholder(jobs, c);
    var ps := PlaceholdersOf(jobs, c);
    if InvocationPart(o) {
      var v := Inv(jobs, c, o.i);
      var j := Made(jobs, plans, o);
      InExpanded(v, ps[o.i], plans[c], j);
      MadeInvocationPart(jobs, plans, o);
      InBodies(c, ps, plans[c], |ps|, j);
      hide Made, Expanded, Bodies, RefersWithin, PlaceholdersOf, Combined;
      assert Invocation(c, |ps|, o.i) == v;
    } else {
      hide Expanded, Bodies, RefersWithin, PlaceholdersOf, Combined;
    }
  }

  predicate InvocationPart(o: Origin) {
    o.GateOf? || o.Inner? || o.ResultAt?
  }

  lemma MadeInvocationPart(jobs: seq<PlannedJob>, plans: map<string, Plan>, o: Origin)
    requires Expandable(jobs, plans) && IsOrigin(jobs, plans, o) && InvocationPart(o)
    ensures o.i < Count(jobs, o.call)
    ensures var v, p, called := Inv(jobs, o.call, o.i), PlaceholdersOf(jobs, o.call)[o.i], plans[o.call];
            var j := Made(jobs, plans, o);
            j == Gate(v, p, called) || j == ResultOf(v, p, called) || exists q :: q in called.jobs && j == Renamed(v, p, called, q)
  {
    hide Gate, ResultOf, Renamed;
    if o.Inner? {
      assert o.job in plans[o.call].jobs;
    }
  }

  // ---------------------------------------------------------------- names

  /** What the ids of the workflows must satisfy for linking to keep them apart. */
  ghost predicate WellNamed(jobs: seq<PlannedJob>, plans: map<string, Plan>) {
    && (forall j | j in jobs :: Sealed(j.base))
    && (forall c | c in plans :: "gate" !in Bases(plans[c].jobs))
  }

  /** The base id of a job, by origin. */
  function NameOf(jobs: seq<PlannedJob>, o: Origin): string {
    match o
    case Kept(j) => j.base
    case Template(c) => c
    case GateOf(c, i) => Join(Inv(jobs, c, i), "gate")
    case Inner(c, i, j) => Join(Inv(jobs, c, i), j.base)
    case ResultAt(c, i) => Inv(jobs, c, i)
    case CombinedAt(c) => c
  }

  lemma MadeHasName(jobs: seq<PlannedJob>, plans: map<string, Plan>, o: Origin)
    requires Expandable(jobs, plans) && IsOrigin(jobs, plans, o)
    ensures Made(jobs, plans, o).base == NameOf(jobs, o)
  {
  }

  function CallOf(o: Origin): string {
    if o.Kept? then o.job.base else o.call
  }

  /** The caller job an id belongs to is its part before the first colon. */
  lemma HeadOfName(jobs: seq<PlannedJob>, plans: map<string, Plan>, o: Origin)
    requires Expandable(jobs, plans) && WellNamed(jobs, plans) && IsOrigin(jobs, plans, o)
    ensures CallOf(o) in Bases(jobs) && Sealed(CallOf(o))
    ensures Head(NameOf(jobs, o)) == CallOf(o)
  {
    var c := CallOf(o);
    assert c in Bases(jobs);
    HeadOfJoin(c, "");
    match o
    case GateOf(_, i) => HeadOfInvocation(c, Count(jobs, c), i, "gate");
    case Inner(_, i, j) => HeadOfInvocation(c, Count(jobs, c), i, j.base);
    case ResultAt(_, i) => HeadOfInvocation(c, Count(jobs, c), i, "");
    case _ =>
  }

  /** Two origins stand for one base id: matrix instances of one job. */
  predicate SameSpot(o: Origin, u: Origin) {
    match (o, u)
    case (Kept(j), Kept(k)) => j.base == k.base
    case (Inner(c, i, j), Inner(d, k, q)) => c == d && i == k && j.base == q.base
    case _ => o == u
  }

  lemma NamesAreUnique(jobs: seq<PlannedJob>, plans: map<string, Plan>, o: Origin, u: Origin)
    requires Expandable(jobs, plans) && WellNamed(jobs, plans) && IsOrigin(jobs, plans, o) && IsOrigin(jobs, plans, u)
    requires NameOf(jobs, o) == NameOf(jobs, u)
    ensures SameSpot(o, u)
  {
    HeadOfName(jobs, plans, o);
    HeadOfName(jobs, plans, u);
    hide Join, Invocation, Head, Sealed;
    var c := CallOf(o);
    if !o.Kept? && !u.Kept? && Static(jobs, plans, c) {
      StaticNames(jobs, plans, c, o, u);
    }
  }

  function TailOf(o: Origin): string
    requires o.GateOf? || o.Inner?
  {
    if o.GateOf? then "gate" else o.job.base
  }

  lemma StaticNames(jobs: seq<PlannedJob>, plans: map<string, Plan>, c: string, o: Origin, u: Origin)
    requires Static(jobs, plans, c) && "gate" !in Bases(plans[c].jobs)
    requires IsOrigin(jobs, plans, o) && IsOrigin(jobs, plans, u)
    requires !o.Kept? && !u.Kept? && o.call == c && u.call == c && NameOf(jobs, o) == NameOf(jobs, u)
    ensures SameSpot(o, u)
  {
    hide Join, Invocation;
    var n := Count(jobs, c);
    if o.CombinedAt? || u.CombinedAt? {
      var w := if o.CombinedAt? then u else o;
      if InvocationPart(w) {
        InvocationIsOutside(c, n, w.i, w.i, if w.ResultAt? then "" else TailOf(w));
      }
    } else if o.ResultAt? && u.ResultAt? {
      InvocationsDiffer(c, n, o.i, u.i);
    } else if o.ResultAt? {
      InvocationIsOutside(c, n, o.i, u.i, TailOf(u));
    } else if u.ResultAt? {
      InvocationIsOutside(c, n, u.i, o.i, TailOf(o));
    } else {
      InvocationsSeparate(c, n, o.i, TailOf(o), u.i, TailOf(u));
      InnerIsNoGate(plans[c], o);
      InnerIsNoGate(plans[c], u);
    }
  }

  lemma InnerIsNoGate(called: Plan, o: Origin)
    requires "gate" !in Bases(called.jobs) && (o.Inner? ==> o.job in called.jobs)
    ensures o.Inner? ==> o.job.base != "gate"
  {
    assert o.Inner? ==> o.job.base in Bases(called.jobs);
  }

  // ---------------------------------------------------------------- the naming condition, exactly

  /** No id has `::` in it, and no called plan has a job named `gate`. */
  predicate PlainNames(jobs: seq<PlannedJob>, plans: map<string, Plan>) {
    && (forall j | j in jobs :: !Namespaced(j.base))
    && (forall c | c in plans :: "gate" !in Bases(plans[c].jobs))
  }

  /** The job's id is joined to that of its call. */
  predicate Within(jobs: seq<PlannedJob>, o: Origin) {
    InvocationPart(o) && (o.ResultAt? ==> Count(jobs, o.call) != 1)
  }

  /** What is joined to the id of the call. */
  function RestOf(jobs: seq<PlannedJob>, o: Origin): string
    requires Within(jobs, o)
  {
    if Count(jobs, o.call) == 1 then TailOf(o)
    else if o.ResultAt? then Label(o.i + 1)
    else Join(Label(o.i + 1), TailOf(o))
  }

  lemma NameParts(jobs: seq<PlannedJob>, o: Origin)
    ensures NameOf(jobs, o) == if Within(jobs, o) then Join(o.call, RestOf(jobs, o)) else CallOf(o)
  {
    if Within(jobs, o) && !o.ResultAt? {
      JoinAssociative(o.call, Label(o.i + 1), TailOf(o));
    }
  }

  /**
   * The calls of the two jobs differ by one colon at the end, and the rest of the first job's id begins
   * with the colon that is missing.
   */
  predicate Confused(jobs: seq<PlannedJob>, plans: map<string, Plan>, o: Origin, u: Origin) {
    && IsOrigin(jobs, plans, o) && IsOrigin(jobs, plans, u) && Within(jobs, o) && Within(jobs, u)
    && u.call == o.call + ":" && RestOf(jobs, o) == ":" + RestOf(jobs, u)
  }

  ghost predicate TellApart(jobs: seq<PlannedJob>, plans: map<string, Plan>) {
    forall o, u | IsOrigin(jobs, plans, o) && IsOrigin(jobs, plans, u) && NameOf(jobs, o) == NameOf(jobs, u) :: SameSpot(o, u)
  }

  /** Base ids tell the origins apart if and only if no two jobs are confused. */
  lemma TellApartExactly(jobs: seq<PlannedJob>, plans: map<string, Plan>)
    requires Expandable(jobs, plans) && PlainNames(jobs, plans)
    ensures TellApart(jobs, plans) <==> !exists o, u :: Confused(jobs, plans, o, u)
  {
    hide Expandable, PlainNames, IsOrigin, NameOf, SameSpot;
    if o, u :| Confused(jobs, plans, o, u) {
      ConfusedCollide(jobs, plans, o, u);
    }
    if !exists o, u :: Confused(jobs, plans, o, u) {
      forall o, u | IsOrigin(jobs, plans, o) && IsOrigin(jobs, plans, u) && NameOf(jobs, o) == NameOf(jobs, u) ensures SameSpot(o, u) {
        UnconfusedTellApart(jobs, plans, o, u);
      }
    }
  }

  lemma ConfusedCollide(jobs: seq<PlannedJob>, plans: map<string, Plan>, o: Origin, u: Origin)
    requires Confused(jobs, plans, o, u)
    ensures NameOf(jobs, o) == NameOf(jobs, u) && !SameSpot(o, u)
  {
    NameParts(jobs, o);
    NameParts(jobs, u);
    hide NameOf, RestOf, IsOrigin;
    var c, x := o.call, RestOf(jobs, u);
    assert c + "::" + (":" + x) == (c + ":") + "::" + x;
  }

  lemma OriginsCall(jobs: seq<PlannedJob>, plans: map<string, Plan>, o: Origin)
    requires Expandable(jobs, plans) && PlainNames(jobs, plans) && IsOrigin(jobs, plans, o)
    ensures !Namespaced(CallOf(o)) && (o.Kept? <==> CallOf(o) !in plans)
    ensures InvocationPart(o) || o.CombinedAt? ==> Static(jobs, plans, o.call) && "gate" !in Bases(plans[o.call].jobs)
    ensures o.Template? ==> !Static(jobs, plans, o.call)
  {
    hide PlaceholdersOf, AnyDynamic, Namespaced, RefersWithin;
    assert CallOf(o) in Bases(jobs);
  }

  lemma UnconfusedTellApart(jobs: seq<PlannedJob>, plans: map<string, Plan>, o: Origin, u: Origin)
    requires Expandable(jobs, plans) && PlainNames(jobs, plans) && IsOrigin(jobs, plans, o) && IsOrigin(jobs, plans, u)
    requires NameOf(jobs, o) == NameOf(jobs, u) && !Confused(jobs, plans, o, u) && !Confused(jobs, plans, u, o)
    ensures SameSpot(o, u)
  {
    NameParts(jobs, o);
    NameParts(jobs, u);
    OriginsCall(jobs, plans, o);
    OriginsCall(jobs, plans, u);
    hide Namespaced, Expandable, PlainNames, IsOrigin, NameOf, RestOf, Static, Join, Count;
    if CallOf(o) == CallOf(u) {
      if !o.Kept? && !o.Template? && !u.Template? { StaticNames(jobs, plans, o.call, o, u); }
    } else {
      CallsDiffer(jobs, o, u);
    }
  }

  /** Equal names of jobs of different calls: both are joined, and the calls differ by one colon. */
  lemma CallsDiffer(jobs: seq<PlannedJob>, o: Origin, u: Origin)
    requires NameOf(jobs, o) == NameOf(jobs, u) && CallOf(o) != CallOf(u) && !Namespaced(CallOf(o)) && !Namespaced(CallOf(u))
    ensures Within(jobs, o) && Within(jobs, u)
    ensures (u.call == o.call + ":" && RestOf(jobs, o) == ":" + RestOf(jobs, u))
            || (o.call == u.call + ":" && RestOf(jobs, u) == ":" + RestOf(jobs, o))
  {
    NameParts(jobs, o);
    NameParts(jobs, u);
    hide NameOf, RestOf, Namespaced, Count;
    if Within(jobs, o) { JoinIsNamespaced(o.call, RestOf(jobs, o)); }
    if Within(jobs, u) { JoinIsNamespaced(u.call, RestOf(jobs, u)); }
    if |o.call| <= |u.call| {
      RestsDiffer(o.call, RestOf(jobs, o), u.call, RestOf(jobs, u));
    } else {
      RestsDiffer(u.call, RestOf(jobs, u), o.call, RestOf(jobs, o));
    }
  }

  lemma RestsDiffer(a: string, b: string, c: string, d: string)
    requires |a| <= |c| && a != c && !Namespaced(c) && Join(a, b) == Join(c, d)
    ensures c == a + ":" && b == ":" + d
  {
    ColonBehind(a, b, c, d);
    assert b == Join(a, b)[|a| + 2..] && (":" + d) == Join(c, d)[|a| + 2..];
  }
}
