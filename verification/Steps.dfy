/** Step compilation: controls, parallel groups and background steps flattened into one list. */
module Steps {
  import opened Basics
  import opened Names

  /** `waitAll` is Some(false) when the key carries a value; `extra` when an unsupported key is present. */
  datatype Step = Step(
    id: Option<string>,
    name: Option<string>,
    run: Option<string>,
    uses: Option<string>,
    shell: Option<string>,
    workingDirectory: Option<string>,
    env: map<string, string>,
    inputs: map<string, string>,
    condition: Option<string>,
    continueOnError: Option<string>,
    timeout: Option<string>,
    background: Option<string>,
    wait: Option<seq<string>>,
    cancel: Option<string>,
    waitAll: Option<bool>,
    extra: bool,
    parallel: Option<seq<Step>>)

  datatype Kind = Checkout | Run | Uses(action: string) | Wait(targets: seq<string>) | WaitAll | Cancel(target: string)

  /** `named`: the id was written in the workflow. */
  datatype PlannedStep = PlannedStep(id: string, named: bool, kind: Kind, condition: Option<string>, background: Option<string>)

  datatype StepError =
    | UnsupportedKey
    | WaitAllValue
    | NestedParallel
    | EmptyParallel
    | MixedParallel
    | ParallelEntry
    | MixedControl
    | DuplicateId(id: string)
    | UnknownTarget(id: string)
    | RunOnlyFields
    | InputsOnRun
    | NeitherRunNorUses

  predicate ControlStep(s: Step) {
    s.wait.Some? || s.waitAll.Some? || s.cancel.Some?
  }

  function ControlFields(s: Step): nat {
    (if s.wait.Some? then 1 else 0) + (if s.waitAll.Some? then 1 else 0) + (if s.cancel.Some? then 1 else 0)
  }

  predicate CarriesWork(s: Step) {
    || s.run.Some? || s.uses.Some? || s.shell.Some? || s.workingDirectory.Some? || s.env != map[] || s.inputs != map[]
    || s.condition.Some? || s.timeout.Some? || s.background.Some?
  }

  predicate OnlyParallel(s: Step) {
    !(CarriesWork(s) || s.id.Some? || s.name.Some? || s.continueOnError.Some? || ControlStep(s))
  }

  predicate IsCheckout(action: string) {
    "actions/checkout@" < action
  }

  // ---------------------------------------------------------------- what a step list must satisfy

  /** A step other steps may wait for or cancel. */
  predicate InBackground(s: PlannedStep) {
    s.background.Some? && s.background != Some("false")
  }

  predicate DistinctIds(steps: seq<PlannedStep>) {
    forall i, k | 0 <= i < k < |steps| :: Lower(steps[i].id) != Lower(steps[k].id)
  }

  function Targets(s: PlannedStep): seq<string> {
    TargetsOf(s.kind)
  }

  function TargetsOf(kind: Kind): seq<string> {
    match kind
    case Wait(targets) => targets
    case Cancel(target) => [target]
    case _ => []
  }

  /** `id` is a background step of the list. */
  predicate BackgroundStep(steps: seq<PlannedStep>, id: string) {
    exists i | 0 <= i < |steps| :: steps[i].id == id && InBackground(steps[i])
  }

  /** Everything waited for or cancelled is an earlier background step. */
  predicate TargetsEarlier(steps: seq<PlannedStep>) {
    forall k, t | 0 <= k < |steps| && t in Targets(steps[k]) :: BackgroundStep(steps[..k], t)
  }

  predicate WellFormed(steps: seq<PlannedStep>) {
    DistinctIds(steps) && TargetsEarlier(steps)
  }

  lemma WellFormedGrows(steps: seq<PlannedStep>, s: PlannedStep)
    requires WellFormed(steps)
    requires forall p | p in steps :: Lower(p.id) != Lower(s.id)
    requires forall t | t in Targets(s) :: BackgroundStep(steps, t)
    ensures WellFormed(steps + [s])
  {
    hide Lower, Targets, BackgroundStep;
    var more := steps + [s];
    forall k, t | 0 <= k < |more| && t in Targets(more[k]) ensures BackgroundStep(more[..k], t) {
      if k < |steps| {
        assert more[..k] == steps[..k] && more[k] == steps[k];
      } else {
        assert more[..k] == steps;
      }
    }
  }

  /** A parallel block compiled: its entries in order, all in the background, then one wait for exactly them. */
  predicate ParallelBlock(added: seq<PlannedStep>, entries: seq<Step>) {
    && |added| == |entries| + 1
    && Entries(added[..|entries|], entries)
    && added[|entries|].kind.Wait?
    && added[|entries|].kind.targets == Ids(added[..|entries|])
  }

  /** Background steps made of the given ordinary steps, in order. */
  predicate Entries(added: seq<PlannedStep>, entries: seq<Step>) {
    |added| == |entries|
    && forall i | 0 <= i < |entries| :: added[i].background == Some("true") && OrdinaryFrom(added[i], entries[i])
  }

  function Ids(steps: seq<PlannedStep>): (r: seq<string>)
    ensures |r| == |steps| && forall i | 0 <= i < |steps| :: r[i] == steps[i].id
  {
    seq(|steps|, i requires 0 <= i < |steps| => steps[i].id)
  }

  /** An ordinary step keeps its own id if it wrote one, its condition, and what it runs. */
  predicate OrdinaryFrom(p: PlannedStep, s: Step) {
    && p.named == s.id.Some? && (s.id.Some? ==> p.id == s.id.value) && p.condition == s.condition
    && match p.kind
       case Run => s.run.Some? && s.uses.None?
       case Checkout => s.run.None? && s.uses.Some? && IsCheckout(s.uses.value)
       case Uses(action) => s.run.None? && s.uses == Some(action) && !IsCheckout(action)
       case _ => false
  }

  // ---------------------------------------------------------------- the meaning of a step list

  /** A step before its targets are looked up: those of a control step are as written, `looksUp` says so. */
  datatype Draft = Draft(planned: PlannedStep, looksUp: bool)

  function OrdinaryKind(s: Step): Kind {
    if s.uses.None? then Run else if IsCheckout(s.uses.value) then Checkout else Uses(s.uses.value)
  }

  function ControlKind(s: Step): Kind {
    if s.wait.Some? then Wait(s.wait.value) else if s.waitAll.Some? then WaitAll else Cancel(s.cancel.GetOr(""))
  }

  function DraftOne(s: Step, number: nat, inGroup: bool): Draft {
    var id := s.id.GetOr("step-" + Decimal(number));
    if ControlStep(s) then Draft(PlannedStep(id, s.id.Some?, ControlKind(s), None, None), true)
    else Draft(PlannedStep(id, s.id.Some?, OrdinaryKind(s), s.condition, if inGroup then Some("true") else s.background), false)
  }

  function DraftEntries(entries: seq<Step>, number: nat): (r: seq<Draft>)
    ensures |r| == |entries| && forall i | 0 <= i < |r| :: r[i] == DraftOne(entries[i], number + i, true)
  {
    seq(|entries|, i requires 0 <= i < |entries| => DraftOne(entries[i], number + i, true))
  }

  function Planned(ds: seq<Draft>): (r: seq<PlannedStep>)
    ensures |r| == |ds| && forall i | 0 <= i < |r| :: r[i] == ds[i].planned
  {
    seq(|ds|, i requires 0 <= i < |ds| => ds[i].planned)
  }

  function GroupWait(group: nat, ds: seq<Draft>): Draft {
    Draft(PlannedStep("__parallel_" + Decimal(group) + "_wait", false, Wait(Ids(Planned(ds))), None, None), false)
  }

  /** What one source step stands for. */
  function Drafts(s: Step, number: nat, group: nat): seq<Draft> {
    if s.parallel.None? then [DraftOne(s, number, false)]
    else DraftEntries(s.parallel.value, number) + [GroupWait(group, DraftEntries(s.parallel.value, number))]
  }

  function NextGroup(s: Step, group: nat): nat {
    if s.parallel.Some? then group + 1 else group
  }

  /** Numbers are used up by every step of the list, groups by every parallel block. */
  function AllDrafts(source: seq<Step>, number: nat, group: nat): seq<Draft> {
    if source == [] then []
    else
      var ds := Drafts(source[0], number, group);
      ds + AllDrafts(source[1..], number + |ds|, NextGroup(source[0], group))
  }

  predicate OrdinaryAllowed(s: Step) {
    && (s.uses.Some? ==> s.shell.None? && s.workingDirectory.None?)
    && s.run.Some? != s.uses.Some?
    && (s.run.Some? ==> s.inputs == map[])
  }

  predicate EntryAllowed(s: Step) {
    !s.extra && s.background.None? && !ControlStep(s) && s.parallel.None? && OrdinaryAllowed(s)
  }

  /** The fields of the step go together. */
  predicate Allowed(s: Step) {
    && !s.extra && s.waitAll != Some(false)
    && if s.parallel.Some? then OnlyParallel(s) && s.parallel.value != [] && forall e | e in s.parallel.value :: EntryAllowed(e)
       else if ControlStep(s) then ControlFields(s) == 1 && !CarriesWork(s)
       else OrdinaryAllowed(s)
  }

  /** One of the steps is a background step with this id, written in the workflow, whatever its case. */
  predicate Known(ds: seq<Draft>, id: string) {
    exists i | 0 <= i < |ds| :: ds[i].planned.named && InBackground(ds[i].planned) && Lower(ds[i].planned.id) == Lower(id)
  }

  predicate NewId(ds: seq<Draft>, id: string) {
    forall i | 0 <= i < |ds| :: Lower(ds[i].planned.id) != Lower(id)
  }

  /** The id of the step is new, and what it looks up is known by then. */
  predicate DraftOk(before: seq<Draft>, d: Draft) {
    NewId(before, d.planned.id) && (d.looksUp ==> forall t | t in Targets(d.planned) :: Known(before, t))
  }

  /** Every step from `start` on fits behind those before it. */
  predicate FitFrom(ds: seq<Draft>, start: nat) {
    forall k | start <= k < |ds| :: DraftOk(ds[..k], ds[k])
  }

  predicate SameTargets(kind: Kind, written: Kind) {
    match written
    case Wait(ids) => kind.Wait? && |kind.targets| == |ids| && forall i | 0 <= i < |ids| :: Lower(kind.targets[i]) == Lower(ids[i])
    case Cancel(id) => kind.Cancel? && Lower(kind.target) == Lower(id)
    case _ => kind == written
  }

  predicate Resolved(p: PlannedStep, d: Draft) {
    p.(kind := d.planned.kind) == d.planned && (if d.looksUp then SameTargets(p.kind, d.planned.kind) else p.kind == d.planned.kind)
  }

  /** The compiled steps are the drafts with their targets looked up. */
  predicate Matches(steps: seq<PlannedStep>, ds: seq<Draft>) {
    |steps| == |ds| && forall i | 0 <= i < |steps| :: Resolved(steps[i], ds[i])
  }

  lemma MatchesGrows(steps: seq<PlannedStep>, ds: seq<Draft>, p: PlannedStep, d: Draft)
    requires Matches(steps, ds) && Resolved(p, d)
    ensures Matches(steps + [p], ds + [d])
  {
    hide Resolved;
  }

  lemma NewIdIs(steps: seq<PlannedStep>, ds: seq<Draft>, id: string)
    requires Matches(steps, ds)
    ensures NewId(ds, id) <==> Lower(id) !in IdsOf(steps)
  {
    hide Lower;
    forall i | 0 <= i < |ds| ensures Lower(ds[i].planned.id) in IdsOf(steps) {
      assert Resolved(steps[i], ds[i]) && steps[i] in steps;
    }
    if Lower(id) in IdsOf(steps) {
      var p :| p in steps && Lower(p.id) == Lower(id);
      var i :| 0 <= i < |steps| && steps[i] == p;
      assert Resolved(steps[i], ds[i]);
    }
  }

  lemma KnownIs(steps: seq<PlannedStep>, ds: seq<Draft>, id: string)
    requires Matches(steps, ds)
    ensures Known(ds, id) <==> exists p | p in steps :: p.named && InBackground(p) && Lower(p.id) == Lower(id)
  {
    hide Lower;
    if i :| 0 <= i < |ds| && ds[i].planned.named && InBackground(ds[i].planned) && Lower(ds[i].planned.id) == Lower(id) {
      assert Resolved(steps[i], ds[i]) && steps[i] in steps;
    }
    if p :| p in steps && p.named && InBackground(p) && Lower(p.id) == Lower(id) {
      var i :| 0 <= i < |steps| && steps[i] == p;
      assert Resolved(steps[i], ds[i]);
    }
  }

  lemma FitsOneMore(ds: seq<Draft>, start: nat, d: Draft)
    requires start <= |ds|
    ensures FitFrom(ds + [d], start) <==> FitFrom(ds, start) && DraftOk(ds, d)
  {
    hide DraftOk;
    var more := ds + [d];
    assert more[..|ds|] == ds && more[|ds|] == d;
    forall k | start <= k < |ds| ensures more[..k] == ds[..k] && more[k] == ds[k] {
    }
    if FitFrom(more, start) {
      assert DraftOk(more[..|ds|], more[|ds|]);
      forall k | start <= k < |ds| ensures DraftOk(ds[..k], ds[k]) { assert DraftOk(more[..k], more[k]); }
    }
  }

  lemma FitsInParts(ds: seq<Draft>, start: nat, middle: nat)
    requires start <= middle <= |ds|
    ensures FitFrom(ds, start) <==> FitFrom(ds[..middle], start) && FitFrom(ds, middle)
  {
    hide DraftOk;
    forall k | 0 <= k < middle ensures ds[..middle][..k] == ds[..k] && ds[..middle][k] == ds[k] {
    }
    if FitFrom(ds, start) {
      forall k | start <= k < middle ensures DraftOk(ds[..middle][..k], ds[..middle][k]) { assert DraftOk(ds[..k], ds[k]); }
    }
    if FitFrom(ds[..middle], start) && FitFrom(ds, middle) {
      forall k | start <= k < |ds| ensures DraftOk(ds[..k], ds[k]) {
        if k < middle { assert DraftOk(ds[..middle][..k], ds[..middle][k]); }
      }
    }
  }

  // ---------------------------------------------------------------- the compiler and its shared tables

  class StepCompiler {
    var steps: seq<PlannedStep>
    var stepIds: set<string>
    var backgroundIds: map<string, string>
    var nextStepNumber: nat
    var nextParallelGroup: nat

    /** The id table holds the lower-cased ids, the background table the named background steps. */
    ghost predicate Valid()
      reads this
    {
      && WellFormed(steps)
      && stepIds == IdsOf(steps)
      && (forall k | k in backgroundIds :: NamedBackground(steps, k, backgroundIds[k]))
      && (forall p | p in steps && p.named && InBackground(p) :: Lower(p.id) in backgroundIds)
    }

    constructor ()
      ensures Valid() && steps == [] && nextStepNumber == 1 && nextParallelGroup == 1
    {
      steps, stepIds, backgroundIds, nextStepNumber, nextParallelGroup := [], {}, map[], 1, 1;
    }

    /** Registers the id and appends the step. */
    method Append(s: PlannedStep) returns (r: Result<string, StepError>)
      requires Valid() && (forall t | t in Targets(s) :: BackgroundStep(steps, t))
      modifies this`steps, this`stepIds, this`backgroundIds
      ensures r.Ok? <==> Lower(s.id) !in old(stepIds)
      ensures r.Ok? ==> r.value == s.id && Valid() && steps == old(steps) + [s]
      ensures r.Err? ==> r == Err(DuplicateId(s.id)) && steps == old(steps)
    {
      if Lower(s.id) in stepIds { return Err(DuplicateId(s.id)); }
      AppendKeeps(steps, stepIds, backgroundIds, s);
      hide *;
      stepIds := stepIds + {Lower(s.id)};
      if s.named && InBackground(s) {
        backgroundIds := backgroundIds[Lower(s.id) := s.id];
      }
      steps := steps + [s];
      return Ok(s.id);
    }

    /** Looks the named background steps up, whatever their case. */
    method Resolve(ids: seq<string>) returns (r: Result<seq<string>, StepError>)
      requires Valid()
      ensures r.Ok? ==> |r.value| == |ids| && (forall t | t in r.value :: BackgroundStep(steps, t))
                        && (forall i | 0 <= i < |ids| :: Lower(r.value[i]) == Lower(ids[i]))
      ensures r.Ok? <==> forall id | id in ids :: exists p | p in steps :: p.named && InBackground(p) && Lower(p.id) == Lower(id)
    {
      hide Lower, WellFormed, IdsOf, InBackground;
      var resolved: seq<string> := [];
      var i := 0;
      while i < |ids|
        invariant 0 <= i <= |ids| && |resolved| == i
        invariant forall t | t in resolved :: BackgroundStep(steps, t)
        invariant forall k | 0 <= k < i :: Lower(resolved[k]) == Lower(ids[k])
        invariant forall k | 0 <= k < i :: exists p | p in steps :: p.named && InBackground(p) && Lower(p.id) == Lower(ids[k])
      {
        if Lower(ids[i]) !in backgroundIds { return Err(UnknownTarget(ids[i])); }
        var target := backgroundIds[Lower(ids[i])];
        NamedIsBackground(steps, Lower(ids[i]), target);
        resolved := resolved + [target];
        i := i + 1;
      }
      return Ok(resolved);
    }

    /** `ds` are the drafts of the steps so far. */
    method CompileStep(step: Step, parallelBackground: bool, ghost ds: seq<Draft>) returns (r: Result<string, StepError>)
      requires Valid() && Matches(steps, ds)
      modifies this
      ensures r.Ok? ==> Valid() && old(steps) < steps && (step.parallel.None? ==> |steps| == |old(steps)| + 1)
      ensures r.Ok? && step.parallel.Some? ==> ParallelBlock(steps[|old(steps)|..], step.parallel.value)
      ensures r.Ok? && step.parallel.None? && !ControlStep(step) ==>
        var added := steps[|old(steps)|];
        r.value == added.id && OrdinaryFrom(added, step)
        && added.background == if parallelBackground then Some("true") else step.background
      ensures r.Ok? && step.parallel.None? && ControlStep(step) ==> !parallelBackground && ControlFrom(steps[|old(steps)|], step)
      ensures var more := DraftsIn(step, parallelBackground, old(nextStepNumber), old(nextParallelGroup));
        && (r.Ok? <==> AllowedIn(step, parallelBackground) && FitFrom(ds + more, |ds|))
        && (r.Ok? ==> Matches(steps, ds + more) && nextStepNumber == old(nextStepNumber) + |more|
                      && nextParallelGroup == NextGroup(step, old(nextParallelGroup)))
      decreases if step.parallel.Some? then 1 else 0, 2
    {
      hide Matches, FitFrom, Valid, OrdinaryFrom, ControlFrom, ParallelBlock, OnlyParallel, CarriesWork, OrdinaryAllowed;
      if step.extra { return Err(UnsupportedKey); }
      if step.waitAll == Some(false) { return Err(WaitAllValue); }
      if step.parallel.Some? {
        if parallelBackground { return Err(NestedParallel); }
        r := CompileParallel(step, ds);
      } else {
        FitsOneMore(ds, |ds|, DraftOne(step, nextStepNumber, parallelBackground));
        NothingFollows(ds);
        if ControlStep(step) {
          r := CompileControl(step, parallelBackground, ds);
        } else {
          r := CompileOrdinary(step, parallelBackground, ds);
        }
      }
    }

    method CompileParallel(step: Step, ghost ds: seq<Draft>) returns (r: Result<string, StepError>)
      requires Valid() && Matches(steps, ds) && step.parallel.Some? && !step.extra && step.waitAll != Some(false)
      modifies this
      ensures r.Ok? ==> Valid() && old(steps) < steps && ParallelBlock(steps[|old(steps)|..], step.parallel.value)
      ensures var more := Drafts(step, old(nextStepNumber), old(nextParallelGroup));
        && (r.Ok? <==> Allowed(step) && FitFrom(ds + more, |ds|))
        && (r.Ok? ==> Matches(steps, ds + more) && nextStepNumber == old(nextStepNumber) + |more|
                      && nextParallelGroup == old(nextParallelGroup) + 1)
      decreases 1, 1
    {
      var entries := step.parallel.value;
      ParallelMeans(step, nextStepNumber, nextParallelGroup);
      hide *;
      if entries == [] { return Err(EmptyParallel); }
      if !OnlyParallel(step) { return Err(MixedParallel); }
      var group := nextParallelGroup;
      nextParallelGroup := nextParallelGroup + 1;
      ghost var start := steps;
      ghost var made := DraftEntries(entries, nextStepNumber);
      assert ds + (made + [GroupWait(group, made)]) == (ds + made) + [GroupWait(group, made)];
      FitsOneMore(ds + made, |ds|, GroupWait(group, made));
      var groupIds := CompileEntries(entries, ds);
      if groupIds.Err? { return Err(groupIds.error); }
      ghost var middle := steps;
      GroupReady(start, middle, ds, made);
      r := AppendWait(group, groupIds.value, ds, made);
      nextStepNumber := nextStepNumber + 1;
      if r.Ok? { ParallelBuilt(start, middle, steps, entries); }
    }

    /** The wait behind the entries of a parallel block. */
    method AppendWait(group: nat, groupIds: seq<string>, ghost ds: seq<Draft>, ghost made: seq<Draft>) returns (r: Result<string, StepError>)
      requires Valid() && Matches(steps, ds + made) && groupIds == Ids(Planned(made))
      requires forall t | t in groupIds :: BackgroundStep(steps, t)
      modifies this`steps, this`stepIds, this`backgroundIds
      ensures r.Ok? <==> DraftOk(ds + made, GroupWait(group, made))
      ensures r.Ok? ==> Valid() && |steps| == |old(steps)| + 1 && steps == old(steps) + [steps[|old(steps)|]]
                        && steps[|old(steps)|].kind == Wait(groupIds) && Matches(steps, (ds + made) + [GroupWait(group, made)])
    {
      var wait := PlannedStep("__parallel_" + Decimal(group) + "_wait", false, Wait(groupIds), None, None);
      NewIdIs(steps, ds + made, wait.id);
      IdTable();
      MatchesGrows(steps, ds + made, wait, GroupWait(group, made));
      hide Matches, Lower, InBackground;
      r := Append(wait);
    }

    lemma IdTable()
      requires Valid()
      ensures stepIds == IdsOf(steps)
    {
    }

    /** The entries of a parallel block, each compiled as a background step. */
    method CompileEntries(entries: seq<Step>, ghost ds: seq<Draft>) returns (r: Result<seq<string>, StepError>)
      requires Valid() && Matches(steps, ds)
      modifies this
      ensures r.Ok? ==> Valid() && old(steps) <= steps && |steps| == |old(steps)| + |entries|
      ensures r.Ok? ==> r.value == Ids(steps[|old(steps)|..]) && Entries(steps[|old(steps)|..], entries)
      ensures r.Ok? ==> forall k | |old(steps)| <= k < |steps| :: steps[k].background == Some("true")
      ensures var more := DraftEntries(entries, old(nextStepNumber));
        && (r.Ok? <==> (forall e | e in entries :: EntryAllowed(e)) && FitFrom(ds + more, |ds|))
        && (r.Ok? ==> Matches(steps, ds + more) && nextStepNumber == old(nextStepNumber) + |more|
                      && nextParallelGroup == old(nextParallelGroup))
      decreases 1, 0
    {
      hide *;
      ghost var start, number := steps, nextStepNumber;
      ghost var more := DraftEntries(entries, nextStepNumber);
      var groupIds: seq<string> := [];
      var i := 0;
      NothingFollows(ds);
      NoEntries(steps, entries);
      assert ds + more[..0] == ds;
      while i < |entries|
        invariant 0 <= i <= |entries| && Valid() && |steps| == |start| + i && start <= steps
        invariant groupIds == Ids(steps[|start|..]) && Entries(steps[|start|..], entries[..i])
        invariant forall k | |start| <= k < |steps| :: steps[k].background == Some("true")
        invariant forall k | 0 <= k < i :: EntryAllowed(entries[k])
        invariant Matches(steps, ds + more[..i]) && FitFrom(ds + more[..i], |ds|)
        invariant nextStepNumber == number + i && nextParallelGroup == old(nextParallelGroup)
      {
        OneEntryMore(ds, more, i);
        assert entries[i] in entries;
        ghost var before := steps;
        var one := CompileEntry(entries[i], ds + more[..i]);
        if one.Err? { return Err(one.error); }
        EntryAdded(before, steps, |start|, entries, i);
        groupIds := groupIds + [one.value];
        i := i + 1;
      }
      assert entries[..i] == entries && more[..i] == more;
      return Ok(groupIds);
    }

    method CompileEntry(child: Step, ghost ds: seq<Draft>) returns (r: Result<string, StepError>)
      requires Valid() && Matches(steps, ds)
      modifies this
      ensures r.Ok? ==> Valid() && |steps| == |old(steps)| + 1 && old(steps) < steps
      ensures r.Ok? ==>
        var added := steps[|old(steps)|];
        r.value == added.id && OrdinaryFrom(added, child) && added.background == Some("true")
      ensures var d := DraftOne(child, old(nextStepNumber), true);
        && (r.Ok? <==> EntryAllowed(child) && DraftOk(ds, d))
        && (r.Ok? ==> Matches(steps, ds + [d]) && nextStepNumber == old(nextStepNumber) + 1
                      && nextParallelGroup == old(nextParallelGroup))
      decreases 0, 3
    {
      InsideGroup(child, nextStepNumber, nextParallelGroup);
      hide Matches, FitFrom, Valid, OrdinaryFrom, EntryAllowed, AllowedIn, DraftsIn, DraftOne, DraftOk, NextGroup;
      if child.background.Some? || ControlStep(child) || child.parallel.Some? { return Err(ParallelEntry); }
      NothingFollows(ds);
      FitsOneMore(ds, |ds|, DraftOne(child, nextStepNumber, true));
      r := CompileStep(child, true, ds);
    }

    method CompileControl(step: Step, parallelBackground: bool, ghost ds: seq<Draft>) returns (r: Result<string, StepError>)
      requires Valid() && Matches(steps, ds) && ControlStep(step)
      modifies this
      ensures r.Ok? ==> Valid() && !parallelBackground && |steps| == |old(steps)| + 1 && steps == old(steps) + [steps[|old(steps)|]]
                        && ControlFrom(steps[|old(steps)|], step)
      ensures var d := DraftOne(step, old(nextStepNumber), parallelBackground);
        && (r.Ok? <==> !parallelBackground && ControlFields(step) == 1 && !CarriesWork(step) && DraftOk(ds, d))
        && (r.Ok? ==> Matches(steps, ds + [d]) && nextStepNumber == old(nextStepNumber) + 1
                      && nextParallelGroup == old(nextParallelGroup))
    {
      if ControlFields(step) != 1 || parallelBackground || CarriesWork(step) { return Err(MixedControl); }
      hide Lower, CarriesWork, Matches, ControlStep, ControlFields, Known, SameTargets, TargetsOf, InBackground, ControlKind;
      var kind := ControlTargets(step, ds);
      ghost var d := DraftOne(step, nextStepNumber, parallelBackground);
      if kind.Err? { return Err(kind.error); }
      var id := GeneratedId(step);
      var planned := PlannedStep(id, step.id.Some?, kind.value, None, None);
      NewIdIs(steps, ds, id);
      IdTable();
      MatchesGrows(steps, ds, planned, d);
      hide Valid, Resolved;
      r := Append(planned);
    }

    /** What a control step does, with its targets looked up. */
    method ControlTargets(step: Step, ghost ds: seq<Draft>) returns (r: Result<Kind, StepError>)
      requires Valid() && Matches(steps, ds) && ControlFields(step) == 1
      ensures r.Ok? <==> forall t | t in TargetsOf(ControlKind(step)) :: Known(ds, t)
      ensures r.Ok? ==> SameTargets(r.value, ControlKind(step)) && forall t | t in TargetsOf(r.value) :: BackgroundStep(steps, t)
    {
      hide Lower, Matches, Valid;
      ghost var written := TargetsOf(ControlKind(step));
      forall id ensures Known(ds, id) <==> exists p | p in steps :: p.named && InBackground(p) && Lower(p.id) == Lower(id) {
        KnownIs(steps, ds, id);
      }
      hide Known, InBackground;
      if step.wait.Some? {
        assert written == step.wait.value;
        var targets := Resolve(step.wait.value);
        if targets.Err? { return Err(targets.error); }
        return Ok(Wait(targets.value));
      } else if step.waitAll.Some? {
        return Ok(WaitAll);
      } else {
        assert written == [step.cancel.value];
        var targets := Resolve([step.cancel.value]);
        if targets.Err? { return Err(targets.error); }
        return Ok(Cancel(targets.value[0]));
      }
    }

    /** The written id, or one with the running number; the number goes up either way. */
    method GeneratedId(step: Step) returns (id: string)
      modifies this`nextStepNumber
      ensures id == step.id.GetOr("step-" + Decimal(old(nextStepNumber)))
      ensures nextStepNumber == old(nextStepNumber) + 1
    {
      id := step.id.GetOr("step-" + Decimal(nextStepNumber));
      nextStepNumber := nextStepNumber + 1;
    }

    method CompileOrdinary(step: Step, parallelBackground: bool, ghost ds: seq<Draft>) returns (r: Result<string, StepError>)
      requires Valid() && Matches(steps, ds) && !ControlStep(step)
      modifies this
      ensures r.Ok? ==> Valid() && |steps| == |old(steps)| + 1 && steps == old(steps) + [steps[|old(steps)|]]
      ensures r.Ok? ==>
        var added := steps[|old(steps)|];
        r.value == added.id && OrdinaryFrom(added, step)
        && added.background == if parallelBackground then Some("true") else step.background
      ensures var d := DraftOne(step, old(nextStepNumber), parallelBackground);
        && (r.Ok? <==> OrdinaryAllowed(step) && DraftOk(ds, d))
        && (r.Ok? ==> Matches(steps, ds + [d]) && r.value == d.planned.id && nextStepNumber == old(nextStepNumber) + 1
                      && nextParallelGroup == old(nextParallelGroup))
    {
      ghost var d := DraftOne(step, nextStepNumber, parallelBackground);
      var id := GeneratedId(step);
      NewIdIs(steps, ds, id);
      IdTable();
      // the id is registered before the rest of the step is looked at
      if Lower(id) in stepIds { return Err(DuplicateId(id)); }
      if step.uses.Some? && (step.shell.Some? || step.workingDirectory.Some?) { return Err(RunOnlyFields); }
      if step.run.Some? && step.uses.None? && step.inputs != map[] { return Err(InputsOnRun); }
      if step.run.Some? == step.uses.Some? { return Err(NeitherRunNorUses); }
      var kind := if step.run.Some? then Run else if IsCheckout(step.uses.value) then Checkout else Uses(step.uses.value);
      var background := if parallelBackground then Some("true") else step.background;
      var planned := PlannedStep(id, step.id.Some?, kind, step.condition, background);
      assert Targets(planned) == [];
      MatchesGrows(steps, ds, planned, d);
      hide Matches, Lower;
      r := Append(planned);
    }

    /**
     * Compilation succeeds exactly if the fields of every step go together, no id occurs twice and
     * every target is known when it is looked up; then the list is the drafts with their targets
     * looked up, and well formed.
     */
    method CompileSteps(source: seq<Step>) returns (r: Result<seq<PlannedStep>, StepError>)
      requires Valid() && steps == [] && nextStepNumber == 1 && nextParallelGroup == 1
      modifies this
      ensures r.Ok? ==> WellFormed(r.value) && Blocks(r.value, source)
      ensures r.Ok? <==> (forall step | step in source :: Allowed(step)) && FitFrom(AllDrafts(source, 1, 1), 0)
      ensures r.Ok? ==> Matches(r.value, AllDrafts(source, 1, 1))
    {
      hide ParallelBlock, OrdinaryFrom, ControlFrom, Allowed, Drafts, DraftOk, Resolved;
      ghost var all := AllDrafts(source, 1, 1);
      ghost var done: seq<Draft> := [];
      var i := 0;
      assert source[0..] == source;
      while i < |source|
        invariant 0 <= i <= |source| && Valid()
        invariant Blocks(steps, source[..i])
        invariant forall k | 0 <= k < i :: Allowed(source[k])
        invariant all == done + AllDrafts(source[i..], nextStepNumber, nextParallelGroup)
        invariant Matches(steps, done) && FitFrom(done, 0)
      {
        ghost var before, number, group := steps, nextStepNumber, nextParallelGroup;
        ghost var more := Drafts(source[i], number, group);
        DraftsBehind(all, done, source, i, number, group);
        Outside(source[i], number, group);
        assert source[i] in source;
        hide FitFrom, Matches, AllDrafts, DraftsIn, AllowedIn;
        var one := CompileStep(source[i], false, done);
        if one.Err? { return Err(one.error); }
        BlocksGrow(before, steps, source, i);
        done := done + more;
        i := i + 1;
      }
      assert source[..i] == source && source[i..] == [];
      assert done + [] == done;
      return Ok(steps);
    }
  }

  /** The drafts a step adds inside or outside a parallel block, and whether its fields allow it there. */
  function DraftsIn(s: Step, inGroup: bool, number: nat, group: nat): seq<Draft> {
    if s.parallel.Some? then Drafts(s, number, group) else [DraftOne(s, number, inGroup)]
  }

  predicate AllowedIn(s: Step, inGroup: bool) {
    Allowed(s) && (inGroup ==> s.parallel.None? && !ControlStep(s))
  }

  lemma Outside(s: Step, number: nat, group: nat)
    ensures DraftsIn(s, false, number, group) == Drafts(s, number, group) && (AllowedIn(s, false) <==> Allowed(s))
  {
  }

  lemma InsideGroup(s: Step, number: nat, group: nat)
    ensures EntryAllowed(s) <==> s.background.None? && !ControlStep(s) && s.parallel.None? && AllowedIn(s, true)
    ensures s.parallel.None? ==> DraftsIn(s, true, number, group) == [DraftOne(s, number, true)] && NextGroup(s, group) == group
  {
  }

  lemma ParallelMeans(s: Step, number: nat, group: nat)
    requires s.parallel.Some? && !s.extra && s.waitAll != Some(false)
    ensures Allowed(s) <==> OnlyParallel(s) && s.parallel.value != [] && forall e | e in s.parallel.value :: EntryAllowed(e)
    ensures var made := DraftEntries(s.parallel.value, number); Drafts(s, number, group) == made + [GroupWait(group, made)]
  {
    hide OnlyParallel, EntryAllowed;
  }

  lemma ParallelBuilt(start: seq<PlannedStep>, middle: seq<PlannedStep>, end: seq<PlannedStep>, entries: seq<Step>)
    requires start <= middle && |middle| == |start| + |entries| && |end| == |middle| + 1 && end == middle + [end[|middle|]]
    requires Entries(middle[|start|..], entries) && end[|middle|].kind == Wait(Ids(middle[|start|..]))
    ensures start < end && ParallelBlock(end[|start|..], entries)
  {
    hide Entries;
    var children := middle[|start|..];
    assert end[|start|..] == children + [end[|middle|]];
    assert end[|start|..][..|entries|] == children;
  }

  lemma GroupReady(start: seq<PlannedStep>, steps: seq<PlannedStep>, ds: seq<Draft>, made: seq<Draft>)
    requires Matches(start, ds) && Matches(steps, ds + made) && start <= steps
    requires forall k | |start| <= k < |steps| :: steps[k].background == Some("true")
    ensures Ids(steps[|start|..]) == Ids(Planned(made)) && forall t | t in Ids(steps[|start|..]) :: BackgroundStep(steps, t)
  {
    hide *;
    GroupIsBackground(steps, |start|);
    GroupIds(start, steps, ds, made);
  }

  lemma NoEntries(steps: seq<PlannedStep>, entries: seq<Step>)
    ensures Entries(steps[|steps|..], entries[..0])
  {
  }

  lemma NothingFollows(ds: seq<Draft>)
    ensures FitFrom(ds, |ds|)
  {
  }

  /** One more entry of a block: the entries fit if and only if those before it fit and it does. */
  lemma OneEntryMore(ds: seq<Draft>, more: seq<Draft>, i: nat)
    requires i < |more|
    ensures ds + more[..i + 1] == (ds + more[..i]) + [more[i]]
    ensures FitFrom(ds + more, |ds|) ==> FitFrom(ds + more[..i + 1], |ds|)
    ensures FitFrom(ds + more[..i + 1], |ds|) <==> FitFrom(ds + more[..i], |ds|) && DraftOk(ds + more[..i], more[i])
  {
    hide DraftOk;
    var all, upTo := ds + more, ds + more[..i];
    assert ds + more[..i + 1] == upTo + [more[i]] && all[..|ds| + i + 1] == ds + more[..i + 1];
    FitsInParts(all, |ds|, |ds| + i + 1);
    FitsOneMore(upTo, |ds|, more[i]);
  }

  /** One more source step: its drafts come next, and the whole fits only if they do. */
  lemma DraftsBehind(all: seq<Draft>, done: seq<Draft>, source: seq<Step>, i: nat, number: nat, group: nat)
    requires i < |source| && all == done + AllDrafts(source[i..], number, group) && FitFrom(done, 0)
    ensures var more := Drafts(source[i], number, group);
      && all == (done + more) + AllDrafts(source[i + 1..], number + |more|, NextGroup(source[i], group))
      && (FitFrom(all, 0) ==> FitFrom(done + more, |done|))
      && (FitFrom(done + more, |done|) ==> FitFrom(done + more, 0))
  {
    hide DraftOk, Drafts, NextGroup;
    var more := Drafts(source[i], number, group);
    var rest := AllDrafts(source[i + 1..], number + |more|, NextGroup(source[i], group));
    assert source[i..][0] == source[i] && source[i..][1..] == source[i + 1..];
    assert done + (more + rest) == (done + more) + rest;
    assert all[..|done + more|] == done + more && (done + more)[..|done|] == done;
    FitsInParts(all, 0, |done + more|);
    FitsInParts(done + more, 0, |done|);
  }

  /** The ids of the compiled entries are those of their drafts. */
  lemma GroupIds(start: seq<PlannedStep>, steps: seq<PlannedStep>, ds: seq<Draft>, made: seq<Draft>)
    requires Matches(start, ds) && Matches(steps, ds + made) && start <= steps
    ensures Ids(steps[|start|..]) == Ids(Planned(made))
  {
    forall i | 0 <= i < |made| ensures steps[|start|..][i].id == made[i].planned.id {
      assert Resolved(steps[|start| + i], (ds + made)[|start| + i]);
    }
  }

  /** A control step keeps its id if it wrote one, and does to the steps it names what it says. */
  predicate ControlFrom(p: PlannedStep, s: Step) {
    && p.named == s.id.Some? && (s.id.Some? ==> p.id == s.id.value) && p.condition.None? && p.background.None?
    && match p.kind
       case Wait(targets) => s.wait.Some? && SameTargets(p.kind, Wait(s.wait.value))
       case WaitAll => s.waitAll.Some? && s.wait.None?
       case Cancel(target) => s.cancel.Some? && s.wait.None? && s.waitAll.None? && Lower(target) == Lower(s.cancel.value)
       case _ => false
  }

  /** The list is the blocks of the source steps one after another. */
  ghost predicate Blocks(steps: seq<PlannedStep>, source: seq<Step>)
    decreases |source|
  {
    if source == [] then steps == []
    else exists n: nat | n < |steps| ::
      Blocks(steps[..n], source[..|source| - 1]) && Block(steps[n..], source[|source| - 1])
  }

  /** What one source step becomes. */
  predicate Block(added: seq<PlannedStep>, s: Step) {
    if s.parallel.Some? then ParallelBlock(added, s.parallel.value)
    else
      && |added| == 1
      && if ControlStep(s) then ControlFrom(added[0], s) else OrdinaryFrom(added[0], s) && added[0].background == s.background
  }

  lemma BlocksGrow(before: seq<PlannedStep>, after: seq<PlannedStep>, source: seq<Step>, i: nat)
    requires i < |source| && Blocks(before, source[..i]) && before < after && Block(after[|before|..], source[i])
    ensures Blocks(after, source[..i + 1])
  {
    hide Block;
    assert after[..|before|] == before && source[..i + 1][..i] == source[..i];
  }

  function IdsOf(steps: seq<PlannedStep>): set<string> {
    set p | p in steps :: Lower(p.id)
  }

  predicate NamedBackground(steps: seq<PlannedStep>, key: string, id: string) {
    exists p | p in steps :: p.named && InBackground(p) && p.id == id && Lower(p.id) == key
  }

  lemma NamedIsBackground(steps: seq<PlannedStep>, key: string, id: string)
    requires NamedBackground(steps, key, id)
    ensures BackgroundStep(steps, id) && Lower(id) == key
  {
    var p :| p in steps && p.named && InBackground(p) && p.id == id && Lower(p.id) == key;
    var i :| 0 <= i < |steps| && steps[i] == p;
  }

  lemma EntryAdded(before: seq<PlannedStep>, after: seq<PlannedStep>, start: nat, entries: seq<Step>, i: nat)
    requires start <= |before| && i < |entries| && before < after && |after| == |before| + 1 && |before| == start + i
    requires Entries(before[start..], entries[..i])
    requires after[|before|].background == Some("true") && OrdinaryFrom(after[|before|], entries[i])
    ensures Entries(after[start..], entries[..i + 1]) && Ids(after[start..]) == Ids(before[start..]) + [after[|before|].id]
  {
    hide OrdinaryFrom;
    assert after == before + [after[|before|]];
    assert after[start..] == before[start..] + [after[|before|]];
    assert entries[..i + 1] == entries[..i] + [entries[i]];
  }

  lemma GroupIsBackground(steps: seq<PlannedStep>, start: nat)
    requires start <= |steps| && forall k | start <= k < |steps| :: steps[k].background == Some("true")
    ensures forall t | t in Ids(steps[start..]) :: BackgroundStep(steps, t)
  {
    forall t | t in Ids(steps[start..]) ensures BackgroundStep(steps, t) {
      var i :| 0 <= i < |steps[start..]| && Ids(steps[start..])[i] == t;
      assert steps[start + i].id == t && InBackground(steps[start + i]);
    }
  }

  lemma AppendKeeps(steps: seq<PlannedStep>, ids: set<string>, background: map<string, string>, s: PlannedStep)
    requires WellFormed(steps) && ids == IdsOf(steps) && Lower(s.id) !in ids
    requires forall k | k in background :: NamedBackground(steps, k, background[k])
    requires forall p | p in steps && p.named && InBackground(p) :: Lower(p.id) in background
    requires forall t | t in Targets(s) :: BackgroundStep(steps, t)
    ensures var more := steps + [s];
      var now := if s.named && InBackground(s) then background[Lower(s.id) := s.id] else background;
      && WellFormed(more) && ids + {Lower(s.id)} == IdsOf(more)
      && (forall k | k in now :: NamedBackground(more, k, now[k]))
      && (forall p | p in more && p.named && InBackground(p) :: Lower(p.id) in now)
  {
    var more := steps + [s];
    assert forall p | p in steps :: Lower(p.id) in ids;
    WellFormedGrows(steps, s);
    hide Lower, WellFormed, Targets, BackgroundStep, InBackground;
    assert forall p :: p in more <==> p in steps || p == s;
    assert ids + {Lower(s.id)} == IdsOf(more);
  }

  // ---------------------------------------------------------------- which fields go together

  /** A step with an id, a name and an error setting, and nothing else. */
  function Bare(id: Option<string>, name: Option<string>, continueOnError: Option<string>): Step {
    Step(id, name, None, None, None, None, map[], map[], None, continueOnError, None, None, None, None, None, false, None)
  }

  /** A control step is a bare step with one control field, and `wait-all` carries no value. */
  lemma ControlAllowedExactly(s: Step)
    requires s.parallel.None? && ControlStep(s)
    ensures var bare := Bare(s.id, s.name, s.continueOnError);
            Allowed(s) <==> s == bare.(wait := s.wait) || s == bare.(cancel := s.cancel) || s == bare.(waitAll := Some(true))
  {
    var bare := Bare(s.id, s.name, s.continueOnError);
    if Allowed(s) {
      assert s.wait.Some? ==> s == bare.(wait := s.wait);
      assert s.cancel.Some? ==> s == bare.(cancel := s.cancel);
      if s.waitAll.Some? {
        assert s.waitAll.value;
        assert s == bare.(waitAll := Some(true));
      }
    }
  }

  /** A parallel block has no field of its own, and at least one entry, each a foreground work step. */
  lemma ParallelAllowedExactly(s: Step)
    requires s.parallel.Some?
    ensures Allowed(s) <==>
            && s == Bare(None, None, None).(parallel := s.parallel) && s.parallel.value != []
            && forall e | e in s.parallel.value ::
                 && Allowed(e) && e.background.None?
                 && e.wait.None? && e.waitAll.None? && e.cancel.None? && e.parallel.None?
  {
  }

  /** A work step runs either a command, without inputs, or an action, without a shell or directory. */
  lemma WorkAllowedExactly(s: Step)
    requires s.parallel.None? && !ControlStep(s)
    ensures Allowed(s) <==>
            && !s.extra && s.waitAll.None?
            && ((s.run.Some? && s.uses.None? && s.inputs == map[])
                || (s.run.None? && s.uses.Some? && s.shell.None? && s.workingDirectory.None?))
  {
  }

  /** A checkout names some version of the checkout action. */
  lemma CheckoutIs(action: string)
    ensures IsCheckout(action) <==> exists version :: version != "" && action == "actions/checkout@" + version
  {
    var prefix := "actions/checkout@";
    if prefix < action { assert action == prefix + action[|prefix|..]; }
  }

  // ---------------------------------------------------------------- generated ids

  /** The id was written, says the step's place in the list, or belongs to the wait behind a parallel block. */
  predicate Numbered(d: Draft, place: nat) {
    d.planned.named || d.planned.id == "step-" + Decimal(place) || (d.planned.kind.Wait? && !d.looksUp)
  }

  lemma DraftsNumbered(s: Step, number: nat, group: nat)
    ensures forall k | 0 <= k < |Drafts(s, number, group)| :: Numbered(Drafts(s, number, group)[k], number + k)
  {
    hide Decimal;
  }

  lemma {:induction false} AllNumbered(source: seq<Step>, number: nat, group: nat)
    ensures forall k | 0 <= k < |AllDrafts(source, number, group)| :: Numbered(AllDrafts(source, number, group)[k], number + k)
  {
    if source != [] {
      var ds := Drafts(source[0], number, group);
      DraftsNumbered(source[0], number, group);
      AllNumbered(source[1..], number + |ds|, NextGroup(source[0], group));
      hide Drafts, Numbered;
      var rest := AllDrafts(source[1..], number + |ds|, NextGroup(source[0], group));
      forall k | 0 <= k < |ds + rest| ensures Numbered((ds + rest)[k], number + k) {
        if k >= |ds| { assert Numbered(rest[k - |ds|], number + |ds| + (k - |ds|)); }
      }
    }
  }

  /** A step without an id of its own is numbered by its place among all the steps it is compiled with. */
  lemma StepsNumbered(source: seq<Step>, steps: seq<PlannedStep>)
    requires Matches(steps, AllDrafts(source, 1, 1))
    ensures forall k | 0 <= k < |steps| :: steps[k].named || steps[k].id == "step-" + Decimal(k + 1) || steps[k].kind.Wait?
  {
    AllNumbered(source, 1, 1);
    hide AllDrafts, Decimal;
    var ds := AllDrafts(source, 1, 1);
    forall k | 0 <= k < |steps| ensures steps[k].named || steps[k].id == "step-" + Decimal(k + 1) || steps[k].kind.Wait? {
      assert Resolved(steps[k], ds[k]) && Numbered(ds[k], 1 + k);
    }
  }
}
