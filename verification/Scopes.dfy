/**
 * Concurrency scopes in linked plans: every scope is one well-placed pair of brackets. The proof
 * counts how often each scope id is acquired and released, invocation by invocation, and places the
 * jobs that list it between its gate and its result.
 */
module Scopes {
  import opened Basics
  import opened Names
  import opened Dependencies
  import opened Plans
  import opened Splicing
  import opened LinkOrder
  import opened LinkReach

  // ---------------------------------------------------------------- what a scope must look like

  /** The scopes a job acquires, or the scopes it releases, in order. */
  function Listed(j: PlannedJob, acquiring: bool): seq<string> {
    if acquiring then ScopeNames(j.acquire) else j.release
  }

  function Times(s: string, ids: seq<string>): nat {
    if ids == [] then 0 else Times(s, ids[..|ids| - 1]) + (if ids[|ids| - 1] == s then 1 else 0)
  }

  /** How often scope `s` is acquired, or released, in a plan. */
  function Occurrences(jobs: seq<PlannedJob>, acquiring: bool, s: string): nat {
    if jobs == [] then 0
    else Occurrences(jobs[..|jobs| - 1], acquiring, s) + Times(s, Listed(jobs[|jobs| - 1], acquiring))
  }

  predicate Mentions(j: PlannedJob, s: string) {
    s in Listed(j, true) || s in Listed(j, false) || s in j.scopeIds
  }

  /** Job `x` is job `y` or transitively needs it. */
  ghost predicate AtOrAbove(g: Graph, x: string, y: string) {
    x == y || Reach(g, x, y)
  }

  /** `open` acquires scope `s`, `close` releases it. */
  ghost predicate Brackets(jobs: seq<PlannedJob>, s: string, open: PlannedJob, close: PlannedJob) {
    && open.kind.ReusableGate? && close.kind.ReusableResult?
    && close.release == Reversed(ScopeNames(open.acquire))
    && forall j | j in jobs && s in j.scopeIds ::
         AtOrAbove(GraphOf(jobs), j.base, open.base) && AtOrAbove(GraphOf(jobs), close.base, j.base)
  }

  /** Acquired once, released once, and every job listing it between the two. */
  ghost predicate ScopeOk(jobs: seq<PlannedJob>, s: string) {
    && Occurrences(jobs, true, s) == 1 && Occurrences(jobs, false, s) == 1
    && forall open, close | open in jobs && close in jobs && s in Listed(open, true) && s in Listed(close, false) ::
         Brackets(jobs, s, open, close)
  }

  ghost predicate Bracketed(jobs: seq<PlannedJob>) {
    forall j, s | j in jobs && Mentions(j, s) :: Namespaced(s) && ScopeOk(jobs, s)
  }

  /** A workflow compiled on its own has no scopes. */
  predicate Bare(jobs: seq<PlannedJob>) {
    forall j | j in jobs :: j.acquire == [] && j.release == [] && j.scopeIds == []
  }

  /** A bare caller plan and bracketed called plans; calls with an expression matrix stay templates. */
  ghost predicate ScopeLinkable(jobs: seq<PlannedJob>, plans: map<string, Plan>) {
    && Linkable(jobs, plans) && Bare(jobs)
    && forall c | c in plans :: Bracketed(plans[c].jobs)
  }

  // ---------------------------------------------------------------- counting

  lemma {:induction false} TimesAbsent(s: string, ids: seq<string>)
    requires s !in ids
    ensures Times(s, ids) == 0
  {
    if ids != [] { TimesAbsent(s, ids[..|ids| - 1]); }
  }

  lemma {:induction false} TimesJoined(v: string, t: string, ids: seq<string>)
    ensures Times(Join(v, t), JoinEach(v, ids)) == Times(t, ids)
  {
    if ids != [] {
      var last := |ids| - 1;
      TimesJoined(v, t, ids[..last]);
      assert JoinEach(v, ids)[..last] == JoinEach(v, ids[..last]);
      if Join(v, t) == Join(v, ids[last]) { JoinSplits(v, t, ids[last]); }
    }
  }

  lemma {:induction false} NoOccurrence(jobs: seq<PlannedJob>, acquiring: bool, s: string)
    requires forall j | j in jobs :: s !in Listed(j, acquiring)
    ensures Occurrences(jobs, acquiring, s) == 0
  {
    hide Listed;
    if jobs != [] {
      NoOccurrence(jobs[..|jobs| - 1], acquiring, s);
      TimesAbsent(s, Listed(jobs[|jobs| - 1], acquiring));
    }
  }

  lemma {:induction false} OccurrencesConcat(a: seq<PlannedJob>, b: seq<PlannedJob>, acquiring: bool, s: string)
    ensures Occurrences(a + b, acquiring, s) == Occurrences(a, acquiring, s) + Occurrences(b, acquiring, s)
  {
    hide Listed, Times;
    if b == [] {
      assert a + b == a;
    } else {
      assert (a + b)[..|a + b| - 1] == a + b[..|b| - 1];
      OccurrencesConcat(a, b[..|b| - 1], acquiring, s);
    }
  }

  lemma OneOccurrence(j: PlannedJob, acquiring: bool, s: string)
    ensures Occurrences([j], acquiring, s) == Times(s, Listed(j, acquiring))
  {
    assert [j][..0] == [];
  }

  /** Only the expansion of call `c` can list scopes whose id starts with `c`. */
  lemma {:induction false} OccurrencesReplaced(jobs: seq<PlannedJob>, xs: map<string, seq<PlannedJob>>, c: string, acquiring: bool, s: string)
    requires c in xs
    requires forall j | j in jobs && j.base !in xs :: s !in Listed(j, acquiring)
    requires forall d | d in xs && d != c :: Occurrences(xs[d], acquiring, s) == 0
    ensures Occurrences(Replaced(jobs, xs), acquiring, s) == if c in Bases(jobs) then Occurrences(xs[c], acquiring, s) else 0
  {
    hide Listed, Times;
    if jobs != [] {
      var front, last := jobs[..|jobs| - 1], jobs[|jobs| - 1];
      assert jobs == front + [last];
      assert Bases(jobs) == Bases(front) + {last.base};
      OccurrencesReplaced(front, xs, c, acquiring, s);
      var tail := if last.base !in xs then [last] else if last.base in Bases(front) then [] else xs[last.base];
      OccurrencesConcat(Replaced(front, xs), tail, acquiring, s);
      if last.base !in xs {
        OneOccurrence(last, acquiring, s);
        TimesAbsent(s, Listed(last, acquiring));
      }
    }
  }

  /** Only invocation `i` can list scopes whose id starts with its name. */
  lemma {:induction false} OccurrencesInBodies(c: string, ps: seq<PlannedJob>, called: Plan, k: nat, i: nat, acquiring: bool, s: string)
    requires k <= |ps| && i < |ps| && RefersWithin(called.jobs)
    requires forall m | 0 <= m < |ps| && m != i :: Occurrences(Expanded(Invocation(c, |ps|, m), ps[m], called), acquiring, s) == 0
    ensures Occurrences(Bodies(c, ps, called, k), acquiring, s)
            == if i < k then Occurrences(Expanded(Invocation(c, |ps|, i), ps[i], called), acquiring, s) else 0
  {
    hide Expanded, Invocation, RefersWithin, Listed, Times;
    if k > 0 {
      OccurrencesInBodies(c, ps, called, k - 1, i, acquiring, s);
      OccurrencesConcat(Bodies(c, ps, called, k - 1), Expanded(Invocation(c, |ps|, k - 1), ps[k - 1], called), acquiring, s);
    }
  }

  // ---------------------------------------------------------------- one invocation

  function OwnNames(v: string, p: PlannedJob, called: Plan): seq<string> {
    ScopeNames(OwnScopes(v, p, called))
  }

  predicate OwnTag(t: string) {
    t == "caller-concurrency" || t == "workflow-concurrency"
  }

  lemma OwnTagIsPlain(t: string)
    requires OwnTag(t)
    ensures !Namespaced(t)
  {
    SealedIsPublic("caller-concurrency");
    SealedIsPublic("workflow-concurrency");
  }

  /** An invocation's own scopes are its two tags, each at most once. */
  lemma OwnNamesAre(v: string, p: PlannedJob, called: Plan, t: string)
    ensures forall s | s in OwnNames(v, p, called) :: exists u :: OwnTag(u) && s == Join(v, u)
    ensures Join(v, t) in OwnNames(v, p, called) ==> OwnTag(t)
    ensures Times(Join(v, t), OwnNames(v, p, called)) == if Join(v, t) in OwnNames(v, p, called) then 1 else 0
    ensures Times(Join(v, t), Reversed(OwnNames(v, p, called))) == if Join(v, t) in OwnNames(v, p, called) then 1 else 0
  {
    var a, b := Join(v, "caller-concurrency"), Join(v, "workflow-concurrency");
    if a == b { JoinSplits(v, "caller-concurrency", "workflow-concurrency"); }
    if Join(v, t) == a { JoinSplits(v, t, "caller-concurrency"); }
    if Join(v, t) == b { JoinSplits(v, t, "workflow-concurrency"); }
    assert OwnTag("caller-concurrency") && OwnTag("workflow-concurrency");
    assert a != b;
    hide Join;
    TimesFew(Join(v, t), a, b);
    TimesFew(Join(v, t), b, a);
    var own := OwnNames(v, p, called);
    if p.concurrency.Some? && called.concurrency.Some? {
      assert own == [a, b] && Reversed(own) == [b, a];
    } else if p.concurrency.Some? {
      assert own == [a] && Reversed(own) == [a];
    } else if called.concurrency.Some? {
      assert own == [b] && Reversed(own) == [b];
    } else {
      assert own == [] && Reversed(own) == [];
    }
  }

  lemma TimesFew(s: string, a: string, b: string)
    ensures Times(s, []) == 0 && Times(s, [a]) == if s == a then 1 else 0
    ensures Times(s, [a, b]) == (if s == a then 1 else 0) + if s == b then 1 else 0
  {
    assert [a][..0] == [] && [a, b][..1] == [a];
  }

  lemma ListedRenamed(v: string, p: PlannedJob, called: Plan, j: PlannedJob)
    requires j.base <= j.id
    ensures forall acquiring :: Listed(Renamed(v, p, called, j), acquiring) == JoinEach(v, Listed(j, acquiring))
    ensures Renamed(v, p, called, j).scopeIds == OwnNames(v, p, called) + JoinEach(v, j.scopeIds)
  {
    hide Join, OwnScopes, Identity, JoinValues, JoinKind, Intersect;
    assert ScopeNames(JoinScopes(v, j.acquire)) == JoinEach(v, ScopeNames(j.acquire));
  }

  lemma {:induction false} OccurrencesRenamed(v: string, p: PlannedJob, called: Plan, jobs: seq<PlannedJob>, acquiring: bool, t: string)
    requires forall j | j in jobs :: j.base <= j.id
    ensures Occurrences(RenamedAll(v, p, called, jobs), acquiring, Join(v, t)) == Occurrences(jobs, acquiring, t)
  {
    hide Listed, Times, Renamed, Join;
    if jobs != [] {
      var front, last := jobs[..|jobs| - 1], jobs[|jobs| - 1];
      OccurrencesRenamed(v, p, called, front, acquiring, t);
      assert RenamedAll(v, p, called, jobs)[..|jobs| - 1] == RenamedAll(v, p, called, front);
      ListedRenamed(v, p, called, last);
      TimesJoined(v, t, Listed(last, acquiring));
    }
  }

  /** Scopes of one expansion: its own ones around the renamed ones of the called plan. */
  lemma OccurrencesExpanded(v: string, p: PlannedJob, called: Plan, acquiring: bool, t: string)
    requires RefersWithin(called.jobs)
    ensures Occurrences(Expanded(v, p, called), acquiring, Join(v, t))
            == (if Join(v, t) in OwnNames(v, p, called) then 1 else 0) + Occurrences(called.jobs, acquiring, t)
  {
    var gate, inner, result, s := Gate(v, p, called), RenamedAll(v, p, called, called.jobs), ResultOf(v, p, called), Join(v, t);
    assert Listed(gate, true) == OwnNames(v, p, called) && Listed(gate, false) == [];
    assert Listed(result, true) == [] && Listed(result, false) == Reversed(OwnNames(v, p, called));
    OwnNamesAre(v, p, called, t);
    OccurrencesRenamed(v, p, called, called.jobs, acquiring, t);
    hide Listed, Gate, ResultOf, RenamedAll, Join, OwnNames, RefersWithin;
    OneOccurrence(gate, acquiring, s);
    OneOccurrence(result, acquiring, s);
    TimesAbsent(s, []);
    OccurrencesConcat([gate], inner, acquiring, s);
    OccurrencesConcat([gate] + inner, [result], acquiring, s);
  }

  lemma ExpandedMentions(v: string, p: PlannedJob, called: Plan, j: PlannedJob, s: string)
    requires RefersWithin(called.jobs) && j in Expanded(v, p, called) && Mentions(j, s)
    ensures exists t :: s == Join(v, t)
  {
    InExpanded(v, p, called, j);
    OwnNamesAre(v, p, called, "");
    if j == Gate(v, p, called) || j == ResultOf(v, p, called) {
      hide Join;
      assert s in OwnNames(v, p, called);
    } else {
      var q :| q in called.jobs && j == Renamed(v, p, called, q);
      assert RefersTo(q, Bases(called.jobs));
      hide RefersWithin, Renamed, Join, Gate, ResultOf, Expanded;
      ListedRenamed(v, p, called, q);
      if s in OwnNames(v, p, called) {
      } else if s in j.scopeIds {
        InJoinEach(v, q.scopeIds, "");
      } else {
        var acquiring := s in Listed(j, true);
        InJoinEach(v, Listed(q, acquiring), "");
      }
    }
  }

  // ---------------------------------------------------------------- the whole linked plan

  lemma ExpansionMentions(d: string, ps: seq<PlannedJob>, called: Plan, j: PlannedJob, s: string)
    requires ps != [] && RefersWithin(called.jobs) && !AnyDynamic(ps) && Sealed(d)
    requires j in Expansion(d, ps, called) && Mentions(j, s)
    ensures Head(s) == d
  {
    hide Expanded, RefersWithin, Mentions, Join, Invocation, Head, Sealed;
    if |ps| == 1 {
      ExpandedMentions(d, ps[0], called, j, s);
      var t :| s == Join(d, t);
      HeadOfJoin(d, t);
    } else if j == Combined(d, ps[0], Invocations(d, |ps|)) {
      CombinedMentionsNothing(d, ps[0], Invocations(d, |ps|), s);
    } else {
      InBodies(d, ps, called, |ps|, j);
      var i :| 0 <= i < |ps| && j in Expanded(Invocation(d, |ps|, i), ps[i], called);
      ExpandedMentions(Invocation(d, |ps|, i), ps[i], called, j, s);
      var t :| s == Join(Invocation(d, |ps|, i), t);
      HeadOfInvocation(d, |ps|, i, t);
    }
  }

  lemma CombinedMentionsNothing(c: string, p: PlannedJob, invocations: seq<string>, s: string)
    ensures !Mentions(Combined(c, p, invocations), s)
  {
  }

  /** A call with an expression matrix stays one job, which mentions what its placeholder does. */
  lemma TemplateMentions(d: string, ps: seq<PlannedJob>, called: Plan, j: PlannedJob, s: string)
    requires ps != [] && RefersWithin(called.jobs) && AnyDynamic(ps) && j in Expansion(d, ps, called)
    ensures Mentions(j, s) <==> Mentions(ps[0], s)
  {
  }

  lemma OtherExpansionSilent(d: string, ps: seq<PlannedJob>, called: Plan, acquiring: bool, s: string)
    requires ps != [] && RefersWithin(called.jobs) && Sealed(d) && Head(s) != d && !Mentions(ps[0], s)
    ensures Occurrences(Expansion(d, ps, called), acquiring, s) == 0
  {
    hide Expansion, Head, RefersWithin, AnyDynamic, Sealed, Mentions;
    forall j | j in Expansion(d, ps, called) ensures s !in Listed(j, acquiring) {
      if AnyDynamic(ps) {
        TemplateMentions(d, ps, called, j, s);
      } else if Mentions(j, s) {
        ExpansionMentions(d, ps, called, j, s);
      }
      MentionsListed(j, acquiring, s);
    }
    NoOccurrence(Expansion(d, ps, called), acquiring, s);
  }

  lemma OtherInvocationSilent(c: string, ps: seq<PlannedJob>, called: Plan, i: nat, m: nat, acquiring: bool, t: string)
    requires i < |ps| && m < |ps| && m != i && RefersWithin(called.jobs)
    ensures Occurrences(Expanded(Invocation(c, |ps|, m), ps[m], called), acquiring, Join(Invocation(c, |ps|, i), t)) == 0
  {
    hide Expanded, RefersWithin, Join, Invocation;
    var jobs, s := Expanded(Invocation(c, |ps|, m), ps[m], called), Join(Invocation(c, |ps|, i), t);
    forall j | j in jobs ensures s !in Listed(j, acquiring) {
      if Mentions(j, s) {
        ExpandedMentions(Invocation(c, |ps|, m), ps[m], called, j, s);
        var u :| s == Join(Invocation(c, |ps|, m), u);
        InvocationsSeparate(c, |ps|, i, t, m, u);
      }
    }
    NoOccurrence(jobs, acquiring, s);
  }

  /** A scope of one invocation is listed nowhere else in the call's expansion. */
  lemma OccurrencesExpansion(c: string, ps: seq<PlannedJob>, called: Plan, i: nat, acquiring: bool, t: string)
    requires i < |ps| && RefersWithin(called.jobs) && !AnyDynamic(ps)
    ensures Occurrences(Expansion(c, ps, called), acquiring, Join(Invocation(c, |ps|, i), t))
            == Occurrences(Expanded(Invocation(c, |ps|, i), ps[i], called), acquiring, Join(Invocation(c, |ps|, i), t))
  {
    hide Expanded, RefersWithin, Join, Combined, Mentions, Listed;
    if |ps| != 1 {
      var s, last := Join(Invocation(c, |ps|, i), t), Combined(c, ps[0], Invocations(c, |ps|));
      forall m | 0 <= m < |ps| && m != i ensures Occurrences(Expanded(Invocation(c, |ps|, m), ps[m], called), acquiring, s) == 0 {
        OtherInvocationSilent(c, ps, called, i, m, acquiring, t);
      }
      OccurrencesInBodies(c, ps, called, |ps|, i, acquiring, s);
      OccurrencesConcat(Bodies(c, ps, called, |ps|), [last], acquiring, s);
      CombinedMentionsNothing(c, ps[0], Invocations(c, |ps|), s);
      MentionsListed(last, acquiring, s);
      NoOccurrence([last], acquiring, s);
    }
  }

  lemma MentionsListed(j: PlannedJob, acquiring: bool, s: string)
    requires !Mentions(j, s)
    ensures s !in Listed(j, acquiring)
  {
  }

  lemma ScopeParts(jobs: seq<PlannedJob>, plans: map<string, Plan>, c: string)
    requires ScopeLinkable(jobs, plans) && c in plans
    ensures Linkable(jobs, plans) && Expandable(jobs, plans) && Bare(jobs) && WellNamed(jobs, plans)
    ensures Bracketed(plans[c].jobs) && RefersWithin(plans[c].jobs)
    ensures Static(jobs, plans, c) <==> !AnyDynamic(PlaceholdersOf(jobs, c))
    ensures c in Bases(jobs) && Sealed(c) && PlaceholdersOf(jobs, c) != [] && PlaceholdersOf(jobs, c)[0] in jobs
  {
    hide *;
    LinkableOf(jobs, plans, c);
    StaticMeans(jobs, plans, c);
    CallerIdIsHead(jobs, plans, c);
    HasPlaceholder(jobs, c);
  }

  lemma LinkableOf(jobs: seq<PlannedJob>, plans: map<string, Plan>, c: string)
    requires ScopeLinkable(jobs, plans) && c in plans
    ensures Linkable(jobs, plans) && Expandable(jobs, plans) && Bare(jobs) && WellNamed(jobs, plans)
    ensures Bracketed(plans[c].jobs) && RefersWithin(plans[c].jobs) && c in Bases(jobs) && c in GraphOf(jobs)
  {
    hide PlanOk, Bracketed, RefersWithin, WellNamed, Bare;
  }

  lemma StaticMeans(jobs: seq<PlannedJob>, plans: map<string, Plan>, c: string)
    requires c in plans
    ensures Static(jobs, plans, c) <==> !AnyDynamic(PlaceholdersOf(jobs, c))
  {
    hide AnyDynamic, PlaceholdersOf;
  }

  /** A scope of invocation `i` of call `c` is listed in that expansion only. */
  lemma OccurrencesLinked(jobs: seq<PlannedJob>, plans: map<string, Plan>, c: string, i: nat, acquiring: bool, t: string)
    requires ScopeLinkable(jobs, plans) && Static(jobs, plans, c) && i < Count(jobs, c)
    ensures Expandable(jobs, plans) && RefersWithin(plans[c].jobs)
    ensures var v, s := Inv(jobs, c, i), Join(Inv(jobs, c, i), t);
            Occurrences(Spliced(jobs, plans), acquiring, s)
            == Occurrences(Expanded(v, PlaceholdersOf(jobs, c)[i], plans[c]), acquiring, s)
  {
    ScopeParts(jobs, plans, c);
    var s, xs := Join(Inv(jobs, c, i), t), Expansions(jobs, plans);
    HeadOfInv(jobs, c, i, t);
    hide Join, Invocation, Head, Expansion, RefersWithin, Linkable, Sealed, Expanded, PlaceholdersOf, Bracketed, AnyDynamic;
    forall d | d in xs && d != c ensures Occurrences(xs[d], acquiring, s) == 0 {
      ScopeParts(jobs, plans, d);
      BareMentionsNothing(jobs, PlaceholdersOf(jobs, d)[0], s);
      OtherExpansionSilent(d, PlaceholdersOf(jobs, d), plans[d], acquiring, s);
    }
    forall j | j in jobs ensures s !in Listed(j, acquiring) {
      assert ScopeNames(j.acquire) == [];
    }
    OccurrencesReplaced(jobs, xs, c, acquiring, s);
    OccurrencesExpansion(c, PlaceholdersOf(jobs, c), plans[c], i, acquiring, t);
  }

  /** Where a mention comes from. */
  lemma MentionOrigin(jobs: seq<PlannedJob>, plans: map<string, Plan>, o: Origin, s: string)
    requires ScopeLinkable(jobs, plans) && Expandable(jobs, plans) && IsOrigin(jobs, plans, o) && Mentions(Made(jobs, plans, o), s)
    ensures InvocationPart(o) && Static(jobs, plans, o.call) && o.i < Count(jobs, o.call)
    ensures var own := OwnNames(Inv(jobs, o.call, o.i), PlaceholdersOf(jobs, o.call)[o.i], plans[o.call]);
            s in own || (o.Inner? && exists t :: Mentions(o.job, t) && s == Join(Inv(jobs, o.call, o.i), t))
  {
    if InvocationPart(o) {
      PartIsStatic(jobs, plans, o, o.call, o.i);
      PartMention(jobs, plans, o, s);
      hide Made, Mentions, ScopeLinkable;
    } else {
      WholeMentionsNothing(jobs, plans, o, s);
    }
  }

  /** Jobs outside the expansions of calls mention no scope. */
  lemma WholeMentionsNothing(jobs: seq<PlannedJob>, plans: map<string, Plan>, o: Origin, s: string)
    requires ScopeLinkable(jobs, plans) && Expandable(jobs, plans) && IsOrigin(jobs, plans, o) && !InvocationPart(o)
    ensures !Mentions(Made(jobs, plans, o), s)
  {
    hide Linkable, Bracketed, Mentions, PlaceholdersOf, Combined, Invocations, AnyDynamic, RefersWithin;
    if o.Kept? {
      BareMentionsNothing(jobs, o.job, s);
    } else if o.Template? {
      TemplateMentionsNothing(jobs, plans, o.call, s);
    } else {
      HasPlaceholder(jobs, o.call);
      CombinedMentionsNothing(o.call, PlaceholdersOf(jobs, o.call)[0], Invocations(o.call, Count(jobs, o.call)), s);
    }
  }

  lemma TemplateMentionsNothing(jobs: seq<PlannedJob>, plans: map<string, Plan>, c: string, s: string)
    requires Bare(jobs) && Expandable(jobs, plans) && IsOrigin(jobs, plans, Template(c))
    ensures !Mentions(Made(jobs, plans, Template(c)), s)
  {
    hide PlaceholdersOf, AnyDynamic, RefersWithin, Bare;
    HasPlaceholder(jobs, c);
    var p := PlaceholdersOf(jobs, c)[0];
    assert p in PlaceholdersOf(jobs, c) && p in jobs;
    BareMentionsNothing(jobs, p, s);
    assert Made(jobs, plans, Template(c)) == p.(kind := ReusableDynamicCall(plans[c]));
  }

  lemma BareMentionsNothing(jobs: seq<PlannedJob>, j: PlannedJob, s: string)
    requires Bare(jobs) && j in jobs
    ensures !Mentions(j, s)
  {
    assert ScopeNames(j.acquire) == [];
  }

  lemma PartMention(jobs: seq<PlannedJob>, plans: map<string, Plan>, o: Origin, s: string)
    requires Expandable(jobs, plans) && IsOrigin(jobs, plans, o) && InvocationPart(o) && Mentions(Made(jobs, plans, o), s)
    ensures o.call in plans && o.i < Count(jobs, o.call)
    ensures var own := OwnNames(Inv(jobs, o.call, o.i), PlaceholdersOf(jobs, o.call)[o.i], plans[o.call]);
            s in own || (o.Inner? && exists t :: Mentions(o.job, t) && s == Join(Inv(jobs, o.call, o.i), t))
  {
    PartIsStatic(jobs, plans, o, o.call, o.i);
    var v, p, called := Inv(jobs, o.call, o.i), PlaceholdersOf(jobs, o.call)[o.i], plans[o.call];
    if o.Inner? {
      assert RefersTo(o.job, Bases(called.jobs));
      ListedRenamed(v, p, called, o.job);
      InJoinEach(v, o.job.scopeIds, "");
      InJoinEach(v, Listed(o.job, true), "");
      InJoinEach(v, Listed(o.job, false), "");
      assert Made(jobs, plans, o) == Renamed(v, p, called, o.job);
      hide Made, Renamed, OwnNames, Join, Listed, RefersWithin, PlaceholdersOf, Invocation, AnyDynamic;
    } else {
      hide OwnScopes, Join, RefersWithin, PlaceholdersOf, Invocation, AnyDynamic, PublicIds;
    }
  }

  /** A mention of a scope of invocation `i` of call `c` is inside that invocation. */
  lemma MentionInside(jobs: seq<PlannedJob>, plans: map<string, Plan>, c: string, i: nat, t: string, o: Origin)
    requires ScopeLinkable(jobs, plans) && Expandable(jobs, plans) && Static(jobs, plans, c) && i < Count(jobs, c)
    requires IsOrigin(jobs, plans, o) && Mentions(Made(jobs, plans, o), Join(Inv(jobs, c, i), t))
    ensures InvocationPart(o) && o.call == c && o.i == i
  {
    var s := Join(Inv(jobs, c, i), t);
    MentionOrigin(jobs, plans, o, s);
    var v := Inv(jobs, o.call, o.i);
    OwnNamesAre(v, PlaceholdersOf(jobs, o.call)[o.i], plans[o.call], "");
    ScopeParts(jobs, plans, c);
    ScopeParts(jobs, plans, o.call);
    hide Linkable, ScopeLinkable, OwnNames, Head, PlaceholdersOf, Expandable, WellNamed, Bracketed, RefersWithin, IsOrigin, Mentions, Made, Sealed;
    var u :| s == Join(v, u);
    HeadOfInv(jobs, c, i, t);
    HeadOfInv(jobs, o.call, o.i, u);
    InvocationsSeparate(c, Count(jobs, c), i, t, o.i, u);
  }

  /** What each part of an invocation lists. */
  lemma PartLists(jobs: seq<PlannedJob>, plans: map<string, Plan>, o: Origin, t: string)
    requires Expandable(jobs, plans) && IsOrigin(jobs, plans, o) && InvocationPart(o)
    ensures o.call in plans && o.i < Count(jobs, o.call)
    ensures var v, j := Inv(jobs, o.call, o.i), Made(jobs, plans, o);
            var own := OwnNames(v, PlaceholdersOf(jobs, o.call)[o.i], plans[o.call]);
            && (Join(v, t) in Listed(j, true) <==> (o.GateOf? && Join(v, t) in own) || (o.Inner? && t in Listed(o.job, true)))
            && (Join(v, t) in Listed(j, false) <==> (o.ResultAt? && Join(v, t) in own) || (o.Inner? && t in Listed(o.job, false)))
            && (Join(v, t) in j.scopeIds <==> Join(v, t) in own || (o.Inner? && t in o.job.scopeIds))
  {
    PartIsStatic(jobs, plans, o, o.call, o.i);
    var v, p, called := Inv(jobs, o.call, o.i), PlaceholdersOf(jobs, o.call)[o.i], plans[o.call];
    if o.Inner? {
      assert RefersTo(o.job, Bases(called.jobs));
      ListedRenamed(v, p, called, o.job);
      InJoinEach(v, o.job.scopeIds, t);
      InJoinEach(v, Listed(o.job, true), t);
      InJoinEach(v, Listed(o.job, false), t);
      assert Made(jobs, plans, o) == Renamed(v, p, called, o.job);
      hide Made, Renamed, OwnNames, Join, Listed, RefersWithin, PlaceholdersOf, Invocation, AnyDynamic;
    } else {
      InReversed(OwnNames(v, p, called), Join(v, t));
      hide OwnScopes, Join, RefersWithin, PlaceholdersOf, Invocation, AnyDynamic, PublicIds, Reversed;
    }
  }

  lemma InReversed(ids: seq<string>, s: string)
    ensures s in Reversed(ids) <==> s in ids
  {
    if s in ids {
      var i :| 0 <= i < |ids| && ids[i] == s;
      assert Reversed(ids)[|ids| - 1 - i] == s;
    }
  }

  /** An own scope of an invocation is counted once, and names no scope of the called plan. */
  lemma OwnScopeCounted(jobs: seq<PlannedJob>, plans: map<string, Plan>, c: string, i: nat, t: string, acquiring: bool)
    requires ScopeLinkable(jobs, plans) && Expandable(jobs, plans) && Static(jobs, plans, c) && i < Count(jobs, c)
    requires Join(Inv(jobs, c, i), t) in OwnNames(Inv(jobs, c, i), PlaceholdersOf(jobs, c)[i], plans[c])
    ensures Occurrences(Spliced(jobs, plans), acquiring, Join(Inv(jobs, c, i), t)) == 1
    ensures forall q | q in plans[c].jobs :: !Mentions(q, t)
  {
    var v, p, called := Inv(jobs, c, i), PlaceholdersOf(jobs, c)[i], plans[c];
    hide *;
    OwnNamesAre(v, p, called, t);
    OwnTagIsPlain(t);
    ScopeParts(jobs, plans, c);
    OccurrencesLinked(jobs, plans, c, i, acquiring, t);
    OccurrencesExpanded(v, p, called, acquiring, t);
    PlainUnmentioned(called.jobs, t, acquiring);
  }

  lemma PlainUnmentioned(jobs: seq<PlannedJob>, t: string, acquiring: bool)
    requires Bracketed(jobs) && !Namespaced(t)
    ensures Occurrences(jobs, acquiring, t) == 0 && forall q | q in jobs :: !Mentions(q, t)
  {
    hide ScopeOk, Namespaced, Mentions, Occurrences, Listed;
    forall q | q in jobs ensures !Mentions(q, t) && t !in Listed(q, acquiring) {
      MentionsListed(q, acquiring, t);
    }
    NoOccurrence(jobs, acquiring, t);
  }

  lemma InnerScopeCounted(jobs: seq<PlannedJob>, plans: map<string, Plan>, c: string, i: nat, t: string, q: PlannedJob, acquiring: bool)
    requires ScopeLinkable(jobs, plans) && Expandable(jobs, plans) && Static(jobs, plans, c) && i < Count(jobs, c)
    requires q in plans[c].jobs && Mentions(q, t)
    ensures Occurrences(Spliced(jobs, plans), acquiring, Join(Inv(jobs, c, i), t)) == 1
    ensures Join(Inv(jobs, c, i), t) !in OwnNames(Inv(jobs, c, i), PlaceholdersOf(jobs, c)[i], plans[c])
    ensures ScopeOk(plans[c].jobs, t)
  {
    var v, p, called := Inv(jobs, c, i), PlaceholdersOf(jobs, c)[i], plans[c];
    ScopeParts(jobs, plans, c);
    assert Namespaced(t) && ScopeOk(called.jobs, t);
    OwnNamesAre(v, p, called, t);
    if OwnTag(t) { OwnTagIsPlain(t); }
    OccurrencesLinked(jobs, plans, c, i, acquiring, t);
    OccurrencesExpanded(v, p, called, acquiring, t);
    assert Occurrences(called.jobs, acquiring, t) == 1;
  }

  /** The parts of an invocation lie between its gate and its result. */
  lemma PartBetween(jobs: seq<PlannedJob>, plans: map<string, Plan>, o: Origin)
    requires Linkable(jobs, plans) && IsOrigin(jobs, plans, o) && InvocationPart(o)
    ensures var g, v := GraphOf(Spliced(jobs, plans)), Inv(jobs, o.call, o.i);
            AtOrAbove(g, NameOf(jobs, o), Join(v, "gate")) && AtOrAbove(g, v, NameOf(jobs, o))
  {
    LinkableParts(jobs, plans);
    var c, i := o.call, o.i;
    PartIsStatic(jobs, plans, o, c, i);
    var g, v := GraphOf(Spliced(jobs, plans)), Inv(jobs, c, i);
    InvocationFacts(jobs, plans, c, i);
    var x := if o.Inner? then o.job.base else plans[c].jobs[0].base;
    assert x in GraphOf(plans[c].jobs);
    GateBelowResultAbove(jobs, plans, c, i, x);
    EdgeReaches(g, Join(v, x), Join(v, "gate"));
    hide Linkable, GraphOf, Spliced, Join, Inv, Reach, Hosts, Rooted, Closed, Acyclic, PublicIds;
  }

  lemma OwnScopeOk(jobs: seq<PlannedJob>, plans: map<string, Plan>, c: string, i: nat, t: string)
    requires ScopeLinkable(jobs, plans) && Expandable(jobs, plans) && Static(jobs, plans, c) && i < Count(jobs, c)
    requires Join(Inv(jobs, c, i), t) in OwnNames(Inv(jobs, c, i), PlaceholdersOf(jobs, c)[i], plans[c])
    ensures ScopeOk(Spliced(jobs, plans), Join(Inv(jobs, c, i), t))
  {
    OwnScopeCounted(jobs, plans, c, i, t, true);
    OwnScopeCounted(jobs, plans, c, i, t, false);
    var linked, s := Spliced(jobs, plans), Join(Inv(jobs, c, i), t);
    hide ScopeLinkable, Spliced, Join, Inv, OwnNames, PlaceholdersOf, Mentions, Listed, Brackets, Expandable, Occurrences, Made, IsOrigin;
    forall open, close | open in linked && close in linked && s in Listed(open, true) && s in Listed(close, false)
      ensures Brackets(linked, s, open, close)
    {
      OwnBrackets(jobs, plans, c, i, t, open, close);
    }
  }

  lemma OwnBrackets(jobs: seq<PlannedJob>, plans: map<string, Plan>, c: string, i: nat, t: string, open: PlannedJob, close: PlannedJob)
    requires ScopeLinkable(jobs, plans) && Expandable(jobs, plans) && Static(jobs, plans, c) && i < Count(jobs, c)
    requires Join(Inv(jobs, c, i), t) in OwnNames(Inv(jobs, c, i), PlaceholdersOf(jobs, c)[i], plans[c])
    requires forall q | q in plans[c].jobs :: !Mentions(q, t)
    requires open in Spliced(jobs, plans) && Join(Inv(jobs, c, i), t) in Listed(open, true)
    requires close in Spliced(jobs, plans) && Join(Inv(jobs, c, i), t) in Listed(close, false)
    ensures Brackets(Spliced(jobs, plans), Join(Inv(jobs, c, i), t), open, close)
  {
    var linked, s := Spliced(jobs, plans), Join(Inv(jobs, c, i), t);
    var o := ListingOrigin(jobs, plans, c, i, t, open);
    var u := ListingOrigin(jobs, plans, c, i, t, close);
    PartLists(jobs, plans, o, t);
    PartLists(jobs, plans, u, t);
    InnerListsNothing(jobs, plans, o, t);
    InnerListsNothing(jobs, plans, u, t);
    assert o == GateOf(c, i) && u == ResultAt(c, i);
    GateAndResult(jobs, plans, c, i);
    hide ScopeLinkable, Join, Inv, OwnNames, PlaceholdersOf, Mentions, Listed, Expandable, Made, IsOrigin, AtOrAbove, NameOf, GraphOf, Spliced;
    forall j | j in linked && s in j.scopeIds
      ensures AtOrAbove(GraphOf(linked), j.base, open.base) && AtOrAbove(GraphOf(linked), close.base, j.base)
    {
      MentionsScope(j, s);
      var w := ListingOrigin(jobs, plans, c, i, t, j);
      ScopeParts(jobs, plans, c);
      PartBetween(jobs, plans, w);
      MadeHasName(jobs, plans, w);
    }
  }

  lemma MentionsScope(j: PlannedJob, s: string)
    requires s in j.scopeIds
    ensures Mentions(j, s)
  {
  }

  lemma ListingOrigin(jobs: seq<PlannedJob>, plans: map<string, Plan>, c: string, i: nat, t: string, j: PlannedJob) returns (o: Origin)
    requires ScopeLinkable(jobs, plans) && Expandable(jobs, plans) && Static(jobs, plans, c) && i < Count(jobs, c)
    requires j in Spliced(jobs, plans) && Mentions(j, Join(Inv(jobs, c, i), t))
    ensures IsOrigin(jobs, plans, o) && Made(jobs, plans, o) == j && InvocationPart(o) && o.call == c && o.i == i
  {
    hide *;
    OriginExists(jobs, plans, j);
    o :| IsOrigin(jobs, plans, o) && Made(jobs, plans, o) == j;
    MentionInside(jobs, plans, c, i, t, o);
  }

  lemma InnerListsNothing(jobs: seq<PlannedJob>, plans: map<string, Plan>, o: Origin, t: string)
    requires IsOrigin(jobs, plans, o) && InvocationPart(o) && o.call in plans
    requires forall q | q in plans[o.call].jobs :: !Mentions(q, t)
    ensures o.Inner? ==> t !in Listed(o.job, true) && t !in Listed(o.job, false)
  {
    hide Listed, PlaceholdersOf, AnyDynamic;
  }

  lemma GateAndResult(jobs: seq<PlannedJob>, plans: map<string, Plan>, c: string, i: nat)
    requires Expandable(jobs, plans) && IsOrigin(jobs, plans, GateOf(c, i)) && IsOrigin(jobs, plans, ResultAt(c, i))
    ensures var open, close, v := Made(jobs, plans, GateOf(c, i)), Made(jobs, plans, ResultAt(c, i)), Inv(jobs, c, i);
            && open.kind.ReusableGate? && close.kind.ReusableResult?
            && close.release == Reversed(ScopeNames(open.acquire))
            && open.base == Join(v, "gate") && close.base == v
  {
    hide Join, OwnScopes, Invocation, PlaceholdersOf, AnyDynamic, PublicIds, RefersWithin;
  }

  /** A scope of a called plan stays bracketed by the renamed jobs. */
  lemma InnerBrackets(jobs: seq<PlannedJob>, plans: map<string, Plan>, c: string, i: nat, t: string, q: PlannedJob,
                      open: PlannedJob, close: PlannedJob)
    requires ScopeLinkable(jobs, plans) && Expandable(jobs, plans) && Static(jobs, plans, c) && i < Count(jobs, c)
    requires q in plans[c].jobs && Mentions(q, t)
    requires open in Spliced(jobs, plans) && Join(Inv(jobs, c, i), t) in Listed(open, true)
    requires close in Spliced(jobs, plans) && Join(Inv(jobs, c, i), t) in Listed(close, false)
    ensures Brackets(Spliced(jobs, plans), Join(Inv(jobs, c, i), t), open, close)
  {
    var linked, s := Spliced(jobs, plans), Join(Inv(jobs, c, i), t);
    InnerScopeCounted(jobs, plans, c, i, t, q, true);
    var o := ListingOrigin(jobs, plans, c, i, t, open);
    var u := ListingOrigin(jobs, plans, c, i, t, close);
    PartLists(jobs, plans, o, t);
    PartLists(jobs, plans, u, t);
    InnerOfCall(jobs, plans, o);
    InnerOfCall(jobs, plans, u);
    ScopeParts(jobs, plans, c);
    assert Brackets(plans[c].jobs, t, o.job, u.job);
    RenamedBrackets(jobs, plans, o, u);
    hide ScopeLinkable, Linkable, Join, Inv, OwnNames, PlaceholdersOf, Mentions, Listed, Expandable, Made, IsOrigin, AtOrAbove, NameOf, GraphOf, Spliced, Bracketed, RefersWithin, WellNamed;
    forall j | j in linked && s in j.scopeIds
      ensures AtOrAbove(GraphOf(linked), j.base, open.base) && AtOrAbove(GraphOf(linked), close.base, j.base)
    {
      MentionsScope(j, s);
      var w := ListingOrigin(jobs, plans, c, i, t, j);
      PartLists(jobs, plans, w, t);
      InnerOfCall(jobs, plans, w);
      InnerAtOrAbove(jobs, plans, w, o);
      InnerAtOrAbove(jobs, plans, u, w);
    }
  }

  lemma InnerOfCall(jobs: seq<PlannedJob>, plans: map<string, Plan>, o: Origin)
    requires IsOrigin(jobs, plans, o) && InvocationPart(o)
    ensures o.Inner? ==> o.call in plans && o.job in plans[o.call].jobs
  {
    hide PlaceholdersOf, AnyDynamic;
  }

  lemma RenamedBrackets(jobs: seq<PlannedJob>, plans: map<string, Plan>, o: Origin, u: Origin)
    requires Expandable(jobs, plans) && IsOrigin(jobs, plans, o) && IsOrigin(jobs, plans, u)
    requires o.Inner? && u.Inner? && o.call == u.call && o.i == u.i
    requires o.job.kind.ReusableGate? && u.job.kind.ReusableResult? && u.job.release == Reversed(ScopeNames(o.job.acquire))
    ensures var open, close := Made(jobs, plans, o), Made(jobs, plans, u);
            open.kind.ReusableGate? && close.kind.ReusableResult? && close.release == Reversed(ScopeNames(open.acquire))
  {
    var open, close, v := Made(jobs, plans, o), Made(jobs, plans, u), Inv(jobs, o.call, o.i);
    var ids := ScopeNames(o.job.acquire);
    assert ScopeNames(open.acquire) == JoinEach(v, ids);
    assert JoinEach(v, Reversed(ids)) == Reversed(JoinEach(v, ids));
  }

  lemma InnerAtOrAbove(jobs: seq<PlannedJob>, plans: map<string, Plan>, w: Origin, o: Origin)
    requires Linkable(jobs, plans) && Expandable(jobs, plans) && IsOrigin(jobs, plans, w) && IsOrigin(jobs, plans, o)
    requires w.Inner? && o.Inner? && w.call == o.call && w.i == o.i && w.call in plans
    requires AtOrAbove(GraphOf(plans[w.call].jobs), w.job.base, o.job.base)
    ensures AtOrAbove(GraphOf(Spliced(jobs, plans)), Made(jobs, plans, w).base, Made(jobs, plans, o).base)
  {
    hide *;
    InnerNamed(jobs, plans, w);
    InnerNamed(jobs, plans, o);
    var g, h, v := GraphOf(Spliced(jobs, plans)), GraphOf(plans[w.call].jobs), Inv(jobs, w.call, w.i);
    InnerOrderExact(jobs, plans, w.call, w.i, w.job.base, o.job.base);
    RenamedAbove(g, h, v, w.job.base, o.job.base);
  }

  lemma RenamedAbove(g: Graph, h: Graph, v: string, x: string, y: string)
    requires AtOrAbove(h, x, y) && (Reach(g, Join(v, x), Join(v, y)) <==> Reach(h, x, y))
    ensures AtOrAbove(g, Join(v, x), Join(v, y))
  {
    hide Reach, Join;
  }

  lemma InnerNamed(jobs: seq<PlannedJob>, plans: map<string, Plan>, o: Origin)
    requires Expandable(jobs, plans) && IsOrigin(jobs, plans, o) && o.Inner? && o.call in plans
    ensures Made(jobs, plans, o).base == Join(Inv(jobs, o.call, o.i), o.job.base)
    ensures Static(jobs, plans, o.call) && o.i < Count(jobs, o.call) && o.job.base in GraphOf(plans[o.call].jobs)
  {
    MadeHasName(jobs, plans, o);
    PartIsStatic(jobs, plans, o, o.call, o.i);
    InBases(plans[o.call].jobs, o.job);
    hide Made, GraphOf, Join, Inv, PlaceholdersOf, AnyDynamic, RefersWithin;
  }

  lemma InBases(jobs: seq<PlannedJob>, j: PlannedJob)
    requires j in jobs
    ensures j.base in GraphOf(jobs)
  {
  }

  lemma InnerScopeOk(jobs: seq<PlannedJob>, plans: map<string, Plan>, c: string, i: nat, t: string, q: PlannedJob)
    requires ScopeLinkable(jobs, plans) && Expandable(jobs, plans) && Static(jobs, plans, c) && i < Count(jobs, c)
    requires q in plans[c].jobs && Mentions(q, t)
    ensures ScopeOk(Spliced(jobs, plans), Join(Inv(jobs, c, i), t))
  {
    InnerScopeCounted(jobs, plans, c, i, t, q, true);
    InnerScopeCounted(jobs, plans, c, i, t, q, false);
    var linked, s := Spliced(jobs, plans), Join(Inv(jobs, c, i), t);
    hide ScopeLinkable, Spliced, Join, Inv, OwnNames, PlaceholdersOf, Mentions, Listed, Brackets, Expandable, Occurrences;
    forall open, close | open in linked && close in linked && s in Listed(open, true) && s in Listed(close, false)
      ensures Brackets(linked, s, open, close)
    {
      InnerBrackets(jobs, plans, c, i, t, q, open, close);
    }
  }

  /** Linking bare caller plans with bracketed called plans gives a bracketed plan. */
  lemma SplicedBracketed(jobs: seq<PlannedJob>, plans: map<string, Plan>)
    requires ScopeLinkable(jobs, plans)
    ensures Expandable(jobs, plans) && Bracketed(Spliced(jobs, plans))
  {
    LinkableParts(jobs, plans);
    var linked := Spliced(jobs, plans);
    hide ScopeLinkable, Linkable, Spliced, Mentions, ScopeOk, Namespaced, IsOrigin, Made, Expandable, OwnNames, Inv, Count, PlaceholdersOf;
    forall j, s | j in linked && Mentions(j, s) ensures Namespaced(s) && ScopeOk(linked, s) {
      OriginExists(jobs, plans, j);
      var o :| IsOrigin(jobs, plans, o) && Made(jobs, plans, o) == j;
      MentionIsOk(jobs, plans, o, s);
    }
  }

  lemma MentionIsOk(jobs: seq<PlannedJob>, plans: map<string, Plan>, o: Origin, s: string)
    requires ScopeLinkable(jobs, plans) && Expandable(jobs, plans) && IsOrigin(jobs, plans, o) && Mentions(Made(jobs, plans, o), s)
    ensures Namespaced(s) && ScopeOk(Spliced(jobs, plans), s)
  {
    MentionOrigin(jobs, plans, o, s);
    InnerOfCall(jobs, plans, o);
    hide *;
    var c, i := o.call, o.i;
    var v, p := Inv(jobs, c, i), PlaceholdersOf(jobs, c)[i];
    OwnNamesAre(v, p, plans[c], "");
    if s in OwnNames(v, p, plans[c]) {
      var t :| OwnTag(t) && s == Join(v, t);
      JoinIsNamespaced(v, t);
      OwnScopeOk(jobs, plans, c, i, t);
    } else {
      var t :| Mentions(o.job, t) && s == Join(v, t);
      JoinIsNamespaced(v, t);
      InnerScopeOk(jobs, plans, c, i, t, o.job);
    }
  }

  /** Each scope a job of a bracketed plan mentions has its one gate and its one result. */
  lemma ScopeHasBrackets(jobs: seq<PlannedJob>, j: PlannedJob, s: string)
    requires Bracketed(jobs) && j in jobs && Mentions(j, s)
    ensures exists open, close :: open in jobs && close in jobs && s in Listed(open, true) && s in Listed(close, false)
                                  && Brackets(jobs, s, open, close)
  {
    hide Brackets, Listed, Mentions, Namespaced, Occurrences;
    assert ScopeOk(jobs, s);
    var open := Lister(jobs, true, s);
    var close := Lister(jobs, false, s);
    assert Brackets(jobs, s, open, close);
  }

  lemma Lister(jobs: seq<PlannedJob>, acquiring: bool, s: string) returns (j: PlannedJob)
    requires Occurrences(jobs, acquiring, s) > 0
    ensures j in jobs && s in Listed(j, acquiring)
  {
    hide Listed;
    if k :| k in jobs && s in Listed(k, acquiring) {
      j := k;
    } else {
      NoOccurrence(jobs, acquiring, s);
      assert false;
    }
  }
}
