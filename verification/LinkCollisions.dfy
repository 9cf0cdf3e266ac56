/** What linking makes of two calls whose ids differ by one colon at the end. */
module LinkCollisions {
  import opened Basics
  import opened Names
  import opened Dependencies
  import opened Plans
  import opened Splicing
  import opened Linker

  function Single(id: string, uses: Option<string>): JobDef {
    JobDef(id, [], None, uses, 1, false, false, None, true, Permissions({}, {}), None)
  }

  const CALLER := Workflow([Single("a", Some("one.yml")), Single("a:", Some("two.yml"))], None)

  const LIBRARY := map["one.yml" := Workflow([Single(":x", None)], None), "two.yml" := Workflow([Single("x", None)], None)]

  /** The called plans, each compiled from its workflow. */
  function Called(path: string): Plan
    requires path in LIBRARY
  {
    Plan(Flat(LIBRARY[path].jobs), None)
  }

  function CalledPlans(): map<string, Plan> {
    map["a" := Called("one.yml"), "a:" := Called("two.yml")]
  }

  function Job(id: string, uses: Option<string>): PlannedJob {
    Instance(Single(id, uses), 0)
  }

  lemma FlatSingle(id: string, uses: Option<string>)
    ensures Flat([Single(id, uses)]) == [Job(id, uses)]
  {
    var d := Single(id, uses);
    hide Instance;
    assert Instances(d, 1) == Instances(d, 0) + [Instance(d, 0)];
    assert [d][..0] == [];
    assert Flat([d]) == Flat([]) + Instances(d, 1);
  }

  lemma FlatCaller()
    ensures Flat(CALLER.jobs) == [Job("a", Some("one.yml")), Job("a:", Some("two.yml"))]
  {
    var d, e := Single("a", Some("one.yml")), Single("a:", Some("two.yml"));
    hide Instance;
    FlatSingle("a", Some("one.yml"));
    assert [d, e][..1] == [d];
    assert Instances(e, 1) == Instances(e, 0) + [Instance(e, 0)];
    assert Flat([d, e]) == Flat([d]) + Instances(e, 1);
  }

  lemma GraphStep(jobs: seq<PlannedJob>, k: nat)
    requires k < |jobs|
    ensures GraphOf(jobs[..k + 1])
            == if jobs[k].base in GraphOf(jobs[..k]) then GraphOf(jobs[..k]) else GraphOf(jobs[..k])[jobs[k].base := jobs[k].needs]
  {
    assert jobs[..k + 1] == jobs[..k] + [jobs[k]];
    GraphGrows(jobs[..k], jobs[k]);
  }

  lemma GraphGrows(jobs: seq<PlannedJob>, j: PlannedJob)
    ensures GraphOf(jobs + [j]) == if j.base in GraphOf(jobs) then GraphOf(jobs) else GraphOf(jobs)[j.base := j.needs]
  {
    assert (jobs + [j])[..|jobs|] == jobs;
  }

  lemma PublicSingle(id: string)
    requires !Namespaced(id)
    ensures PublicIds([Job(id, None)]) == [id]
  {
    var jobs := [Job(id, None)];
    assert AllBases(jobs) == [id];
    assert [id][..0] == [] && [id][1..] == [];
    assert Sorted([id]) == Insert(Sorted([]), id);
    assert OnlyPublic([id]) == [id] + OnlyPublic([]);
  }

  /** Gate, renamed job and result of one of the two calls. */
  lemma CallExpands(call: string, uses: string, id: string)
    requires !Namespaced(id)
    ensures RefersWithin([Job(id, None)])
    ensures var called := Plan([Job(id, None)], None); var p := Job(call, Some(uses));
            var made := Expansion(call, [p], called);
      && made == [Gate(call, p, called), Renamed(call, p, called, Job(id, None)), ResultOf(call, p, called)]
      && made[0].base == Join(call, "gate") && made[0].needs == []
      && made[1].base == Join(call, id) && made[1].id == Join(call, id) && made[1].needs == [Join(call, "gate")]
      && made[2].base == call && made[2].needs == [Join(call, id)]
  {
    var jobs, p := [Job(id, None)], Job(call, Some(uses));
    assert Bases(jobs) == {id};
    PublicSingle(id);
    assert !AnyDynamic([p]);
    assert RenamedAll(call, p, Plan(jobs, None), jobs) == [Renamed(call, p, Plan(jobs, None), jobs[0])];
    assert JoinEach(call, []) == [] && JoinEach(call, [id]) == [Join(call, id)];
    hide Namespaced, Gate, ResultOf;
    assert Gate(call, p, Plan(jobs, None)).needs == [];
  }

  /** Each call has one placeholder. */
  lemma Placeholders()
    ensures var jobs := [Job("a", Some("one.yml")), Job("a:", Some("two.yml"))];
            PlaceholdersOf(jobs, "a") == jobs[..1] && PlaceholdersOf(jobs, "a:") == jobs[1..]
  {
    var d, e := Job("a", Some("one.yml")), Job("a:", Some("two.yml"));
    var jobs := [d, e];
    assert jobs[..1] == [d] && jobs[1..] == [e] && [d][..0] == [];
    assert d.base == "a" && e.base == "a:" && "a" != "a:";
    hide Instance;
    assert PlaceholdersOf([d], "a") == PlaceholdersOf([], "a") + [d];
    assert PlaceholdersOf([d], "a:") == PlaceholdersOf([], "a:");
  }

  lemma ReplacedPair(d: PlannedJob, e: PlannedJob, xs: map<string, seq<PlannedJob>>)
    requires d.base != e.base && d.base in xs && e.base in xs
    ensures Replaced([d, e], xs) == xs[d.base] + xs[e.base]
  {
    assert [d, e][..1] == [d] && [d][..0] == [];
    assert Bases([d]) == {d.base};
    assert Replaced([d], xs) == Replaced([], xs) + xs[d.base];
  }

  lemma NothingNeeded(id: string, uses: Option<string>)
    ensures Accepted(GraphOf([Job(id, uses)]))
  {
    var jobs := [Job(id, uses)];
    assert jobs[..0] == [];
    assert GraphOf(jobs) == map[id := []];
    assert TopologicalOrder(GraphOf(jobs), [id]);
  }

  lemma CallerAccepted()
    ensures Accepted(GraphOf(Flat(CALLER.jobs)))
  {
    FlatCaller();
    var d, e := Job("a", Some("one.yml")), Job("a:", Some("two.yml"));
    GraphGrows([], d);
    GraphGrows([d], e);
    assert [] + [d] == [d] && [d] + [e] == [d, e];
    assert GraphOf([d, e]) == map["a" := [], "a:" := []];
    assert TopologicalOrder(GraphOf([d, e]), ["a", "a:"]);
  }

  /** The graph of the linked plan: the second job named `a:::x` does not show. */
  function LinkedGraph(): Graph {
    map["a::gate" := [], "a:::x" := ["a::gate"], "a" := ["a:::x"], "a:::gate" := [], "a:" := ["a:::x"]]
  }

  lemma LinkedGraphAccepted()
    ensures Accepted(LinkedGraph())
  {
    var order := ["a::gate", "a:::x", "a", "a:::gate", "a:"];
    assert order[..1] == ["a::gate"];
    assert order[..2] == ["a::gate", "a:::x"];
    assert order[..4] == ["a::gate", "a:::x", "a", "a:::gate"];
    assert "a::gate" in order[..1] && "a:::x" in order[..2] && "a:::x" in order[..4];
    assert TopologicalOrder(LinkedGraph(), order);
  }

  lemma EmptyGraph()
    ensures GraphOf([]) == map[]
  {
  }

  /** What is known of the six jobs of the linked plan. */
  predicate SixJobs(jobs: seq<PlannedJob>) {
    && |jobs| == 6
    && jobs[0].base == "a::gate" && jobs[0].needs == []
    && jobs[1].base == "a:::x" && jobs[1].needs == ["a::gate"]
    && jobs[2].base == "a" && jobs[2].needs == ["a:::x"]
    && jobs[3].base == "a:::gate" && jobs[3].needs == []
    && jobs[4].base == "a:::x" && jobs[4].needs == ["a:::gate"]
    && jobs[5].base == "a:" && jobs[5].needs == ["a:::x"]
  }

  predicate Distinct(names: seq<string>) {
    forall i, k | 0 <= i < k < |names| :: names[i] != names[k]
  }

  lemma GraphOfSix(jobs: seq<PlannedJob>)
    requires |jobs| == 6 && jobs[4].base == jobs[1].base
    requires Distinct([jobs[0].base, jobs[1].base, jobs[2].base, jobs[3].base, jobs[5].base])
    ensures GraphOf(jobs) == map[jobs[0].base := jobs[0].needs, jobs[1].base := jobs[1].needs, jobs[2].base := jobs[2].needs,
                                 jobs[3].base := jobs[3].needs, jobs[5].base := jobs[5].needs]
  {
    hide *;
    DistinctFive([jobs[0].base, jobs[1].base, jobs[2].base, jobs[3].base, jobs[5].base]);
    EmptyGraph();
    assert jobs[..0] == [] && jobs[..6] == jobs;
    GraphStep(jobs, 0);
    GraphStep(jobs, 1);
    GraphStep(jobs, 2);
    GraphStep(jobs, 3);
    GraphStep(jobs, 4);
    GraphStep(jobs, 5);
  }

  lemma DistinctFive(names: seq<string>)
    requires |names| == 5 && Distinct(names)
    ensures names[3] != names[4]
    ensures names[0] != names[1] && names[0] != names[2] && names[0] != names[3] && names[0] != names[4]
    ensures names[1] != names[2] && names[1] != names[3] && names[1] != names[4]
    ensures names[2] != names[3] && names[2] != names[4]
  {
  }

  lemma NamesDistinct()
    ensures Distinct(["a::gate", "a:::x", "a", "a:::gate", "a:"])
  {
    assert "a::gate"[2] != "a:::x"[2] || "a::gate"[3] != "a:::x"[3];
    assert "a::gate"[3] == 'g' && "a:::x"[3] == ':' && "a:::gate"[3] == ':' && "a:::gate"[4] == 'g';
  }

  lemma SixGraph(jobs: seq<PlannedJob>)
    requires SixJobs(jobs)
    ensures GraphOf(jobs) == LinkedGraph()
  {
    NamesDistinct();
    hide GraphOf, Distinct;
    assert jobs[4].base == jobs[1].base;
    assert [jobs[0].base, jobs[1].base, jobs[2].base, jobs[3].base, jobs[5].base] == ["a::gate", "a:::x", "a", "a:::gate", "a:"];
    GraphOfSix(jobs);
  }

  lemma CalledAre()
    ensures Called("one.yml") == Plan([Job(":x", None)], None) && Called("two.yml") == Plan([Job("x", None)], None)
    ensures Accepted(GraphOf(Called("one.yml").jobs)) && Accepted(GraphOf(Called("two.yml").jobs))
  {
    FlatSingle(":x", None);
    FlatSingle("x", None);
    NothingNeeded(":x", None);
    NothingNeeded("x", None);
    hide Flat, GraphOf, Accepted, Instance;
  }

  lemma PairExpandable(d: PlannedJob, e: PlannedJob, p: Plan, q: Plan)
    requires d.base == "a" && e.base == "a:" && RefersWithin(p.jobs) && RefersWithin(q.jobs)
    ensures Expandable([d, e], map["a" := p, "a:" := q])
  {
    hide RefersWithin;
    assert [d, e][0].base in Bases([d, e]) && [d, e][1].base in Bases([d, e]);
  }

  lemma PlansExpandable()
    ensures Expandable(Flat(CALLER.jobs), CalledPlans())
  {
    PlansAre();
    JobsNamed();
    hide *;
    FlatCaller();
    PublicNames();
    CallExpands("a", "one.yml", ":x");
    CallExpands("a:", "two.yml", "x");
    PairExpandable(Job("a", Some("one.yml")), Job("a:", Some("two.yml")), Plan([Job(":x", None)], None), Plan([Job("x", None)], None));
  }

  lemma PlansAre()
    ensures CalledPlans() == map["a" := Plan([Job(":x", None)], None), "a:" := Plan([Job("x", None)], None)]
  {
    CalledAre();
    hide Called;
  }

  lemma JobsNamed()
    ensures Job("a", Some("one.yml")).base == "a" && Job("a:", Some("two.yml")).base == "a:"
  {
  }

  /** The linked plan is one expansion behind the other. */
  lemma SplicedCaller()
    requires Expandable(Flat(CALLER.jobs), CalledPlans())
    ensures RefersWithin(Called("one.yml").jobs) && RefersWithin(Called("two.yml").jobs)
    ensures var d, e := Job("a", Some("one.yml")), Job("a:", Some("two.yml"));
            Spliced(Flat(CALLER.jobs), CalledPlans()) == Expansion("a", [d], Called("one.yml")) + Expansion("a:", [e], Called("two.yml"))
    ensures forall c | c in CalledPlans() :: Static(Flat(CALLER.jobs), CalledPlans(), c)
  {
    var d, e := Job("a", Some("one.yml")), Job("a:", Some("two.yml"));
    FlatCaller();
    Placeholders();
    assert [d, e][..1] == [d] && [d, e][1..] == [e];
    assert !d.dynamic && !e.dynamic && d.base == "a" && e.base == "a:";
    hide Flat, Called, Expansion, RefersWithin, PlaceholdersOf, Instance, Bases, Replaced;
    var xs := Expansions([d, e], CalledPlans());
    assert xs["a"] == Expansion("a", [d], Called("one.yml")) && xs["a:"] == Expansion("a:", [e], Called("two.yml"));
    ReplacedPair(d, e, xs);
  }

  lemma JoinedNames()
    ensures Join("a", ":x") == "a:::x" && Join("a:", "x") == "a:::x"
    ensures Join("a", "gate") == "a::gate" && Join("a:", "gate") == "a:::gate"
  {
  }

  lemma SixOf(one: seq<PlannedJob>, two: seq<PlannedJob>)
    requires |one| == 3 && |two| == 3
    requires one[0].base == "a::gate" && one[0].needs == [] && one[1].base == "a:::x" && one[1].needs == ["a::gate"]
    requires one[2].base == "a" && one[2].needs == ["a:::x"]
    requires two[0].base == "a:::gate" && two[0].needs == [] && two[1].base == "a:::x" && two[1].needs == ["a:::gate"]
    requires two[2].base == "a:" && two[2].needs == ["a:::x"]
    ensures SixJobs(one + two) && (one + two)[1] == one[1] && (one + two)[4] == two[1]
  {
  }

  lemma LinkedJobs()
    requires Expandable(Flat(CALLER.jobs), CalledPlans())
    ensures var linked := Spliced(Flat(CALLER.jobs), CalledPlans());
            SixJobs(linked) && linked[1].id == "a:::x" && linked[4].id == "a:::x"
  {
    hide *;
    SplicedCaller();
    CalledAre();
    PublicNames();
    CallExpands("a", "one.yml", ":x");
    CallExpands("a:", "two.yml", "x");
    JoinedNames();
    SixOf(Expansion("a", [Job("a", Some("one.yml"))], Plan([Job(":x", None)], None)),
          Expansion("a:", [Job("a:", Some("two.yml"))], Plan([Job("x", None)], None)));
  }

  lemma PublicNames()
    ensures !Namespaced("x") && !Namespaced(":x")
  {
  }

  lemma SixDiffer(jobs: seq<PlannedJob>)
    requires SixJobs(jobs)
    ensures jobs[1] != jobs[4]
  {
    assert "a::gate"[3] == 'g' && "a:::gate"[3] == ':';
    assert jobs[1].needs[0] != jobs[4].needs[0];
  }

  /**
   * Nothing refuses the workflow with the calls `a` and `a:`. Every check of the level passes, the
   * plan holds two different jobs with the id `a:::x`, and the graph it is checked with shows only
   * the first, so that the result of the second call needs a job of the first.
   */
  lemma CollidingCalls()
    ensures var jobs, plans := Flat(CALLER.jobs), CalledPlans();
      && Accepted(GraphOf(jobs)) && Expandable(jobs, plans)
      && (forall c | c in plans :: Static(jobs, plans, c) && Accepted(GraphOf(plans[c].jobs)))
      && var linked := Spliced(jobs, plans);
         && Accepted(GraphOf(linked)) && GraphOf(linked) == LinkedGraph()
         && SixJobs(linked) && linked[1].id == "a:::x" && linked[4].id == "a:::x" && linked[1] != linked[4]
  {
    hide *;
    CallerAccepted();
    PlansExpandable();
    SplicedCaller();
    CalledAccepted();
    LinkedGraphAccepted();
    LinkedJobs();
    var linked := Spliced(Flat(CALLER.jobs), CalledPlans());
    SixGraph(linked);
    SixDiffer(linked);
  }

  lemma CalledAccepted()
    ensures forall c | c in CalledPlans() :: Accepted(GraphOf(CalledPlans()[c].jobs))
  {
    CalledAre();
    hide Accepted, GraphOf, Flat, Instance;
  }
}
