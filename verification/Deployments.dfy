/** The deployment synchroniser: one row per deployment, and sync attempts that may overlap. */
module Deployments {
  import opened Basics

  const SYNC_LEASE := 120_000
  const RETRY_BASE := 1_000
  const RETRY_MAX := 300_000

  datatype State = InProgress | Success | Failure | Error

  /** sync_needed: 0, 1 and 2. */
  datatype Need = Clean | Dirty | Claimed

  datatype Row = Row(
    environment: string,
    desired: State,
    url: Option<string>,
    githubId: Option<nat>,
    synced: Option<State>,
    syncedUrl: Option<string>,
    need: Need,
    attempts: nat,
    retryAt: Option<int>)

  /** What GitHub is told about a deployment. */
  type Status = (State, Option<string>)

  /**
   * A sync attempt: what it read when it claimed the row (`stored` is the row's deployment then), the
   * deployment it works on once resolved, and how far it is. A retry looks through the statuses before
   * it writes one. `failed`: the attempt has given up, but a request of it may still reach GitHub.
   */
  datatype Claim = Claim(
    desired: State,
    url: Option<string>,
    attempts: nat,
    stored: Option<nat>,
    target: Option<nat>,
    looked: bool,
    pushed: bool,
    failed: bool)
  {
    function Wish(): Status {
      (desired, url)
    }

    predicate Retry() {
      attempts > 1
    }
  }

  type ClaimId = nat

  /**
   * The row, the attempts under way, and the deployments of the row's job and unit on GitHub with the
   * statuses written to each, oldest first. Every handler runs as one step between two suspensions.
   */
  datatype World = World(row: Option<Row>, claims: map<ClaimId, Claim>, deployments: map<nat, seq<Status>>)

  datatype Event =
    | Start(environment: string, now: int)
    | Finish(state: State, url: Option<string>, now: int)
    | RunEnds(now: int)
    | Take(claim: ClaimId, now: int)
    | Resolve(claim: ClaimId, deployment: nat)
    | Look(claim: ClaimId)
    | Push(claim: ClaimId)
    | Succeed(claim: ClaimId, now: int)
    | Fail(claim: ClaimId, now: int, underway: bool)

  function Power(n: nat): (p: nat)
    ensures p >= 1
  {
    if n == 0 then 1 else 2 * Power(n - 1)
  }

  function RetryDelay(attempt: nat): int {
    var delay := RETRY_BASE * Power(if attempt > 0 then attempt - 1 else 0);
    if delay < RETRY_MAX then delay else RETRY_MAX
  }

  // ---------------------------------------------------------------- the statements

  /** A new desired state: a claimed row stays claimed, any other is due at once. */
  function Redirected(r: Row, state: State, url: Option<string>, now: int): Row {
    var claimed := r.need == Claimed;
    r.(desired := state, url := url, need := if claimed then Claimed else Dirty,
       attempts := if claimed then r.attempts else 0,
       retryAt := if claimed then r.retryAt else Some(now))
  }

  function Started(row: Option<Row>, environment: string, now: int): Option<Row> {
    match row
    case None => Some(Row(environment, InProgress, None, None, None, None, Dirty, 0, Some(now)))
    case Some(r) =>
      if Lower(r.environment) != Lower(environment) || r.desired == InProgress then row
      else Some(Redirected(r, InProgress, None, now))
  }

  function Finished(row: Option<Row>, state: State, url: Option<string>, now: int): Option<Row> {
    match row
    case None => row
    case Some(r) => if r.desired == state && r.url == url then row else Some(Redirected(r, state, url, now))
  }

  function Ended(row: Option<Row>, now: int): Option<Row> {
    match row
    case None => row
    case Some(r) => if r.desired == InProgress then Some(Redirected(r, Error, None, now)) else row
  }

  /** The row is due: the claim statement would match it. */
  predicate Due(row: Option<Row>, now: int) {
    row.Some? && row.value.need != Clean && row.value.retryAt.Some? && row.value.retryAt.value <= now
  }

  function TakenRow(r: Row, now: int): Row {
    r.(need := Claimed, attempts := r.attempts + 1, retryAt := Some(now + SYNC_LEASE))
  }

  function ClaimOf(r: Row): Claim {
    Claim(r.desired, r.url, r.attempts, r.githubId, None, false, false, false)
  }

  function Statuses(w: World, id: nat): seq<Status> {
    if id in w.deployments then w.deployments[id] else []
  }

  /** What GitHub shows for a deployment. */
  function Shown(w: World, id: Option<nat>): Option<Status> {
    if id.Some? && Statuses(w, id.value) != [] then Some(Statuses(w, id.value)[|Statuses(w, id.value)| - 1]) else None
  }

  /** The three statements after GitHub has been told, or had been told before. */
  function Completed(r: Row, c: Claim, deployment: nat, now: int): Row {
    var s := if r.githubId.None? then r.(githubId := Some(deployment)) else r;
    if s.need != Claimed then s
    else if s.desired == c.desired && s.url == c.url
    then s.(synced := Some(s.desired), syncedUrl := s.url, need := Clean, retryAt := None)
    else s.(need := Dirty, retryAt := Some(now))
  }

  function Failed(r: Row, c: Claim, now: int): Row {
    if r.need != Claimed then r
    else
      var changed := r.desired != c.desired || r.url != c.url;
      r.(need := Dirty, retryAt := Some(now + if changed then 0 else RetryDelay(c.attempts)))
  }

  function MapRow(row: Option<Row>, f: Row -> Row): Option<Row> {
    match row
    case Some(r) => Some(f(r))
    case None => None
  }

  predicate InFlight(w: World, c: ClaimId) {
    c in w.claims && !w.claims[c].failed
  }

  /** The deployment is the stored one, a new one, or for a retry one found by its payload. */
  predicate MayResolve(w: World, c: ClaimId, id: nat) {
    && c in w.claims && w.claims[c].target.None?
    && if w.claims[c].stored.Some? then !w.claims[c].failed && id == w.claims[c].stored.value
       else id !in w.deployments || (w.claims[c].Retry() && !w.claims[c].failed)
  }

  /** A retry reads the statuses before it writes, once. */
  predicate MayLook(w: World, c: ClaimId) {
    InFlight(w, c) && w.claims[c].target.Some? && w.claims[c].Retry() && !w.claims[c].looked && !w.claims[c].pushed
  }

  /** Some status of the deployment, the latest or not, is what the attempt wishes. */
  predicate Recovers(w: World, c: ClaimId) {
    MayLook(w, c) && w.claims[c].Wish() in Statuses(w, w.claims[c].target.value)
  }

  predicate MayPush(w: World, c: ClaimId) {
    && c in w.claims && w.claims[c].target.Some? && !w.claims[c].pushed
    && (w.claims[c].Retry() ==> w.claims[c].looked)
  }

  predicate MaySucceed(w: World, c: ClaimId) {
    InFlight(w, c) && w.claims[c].pushed && w.claims[c].target.Some?
  }

  /** The claims after `c` got on: what a given-up attempt still had under way is its last. */
  function Advanced(w: World, c: ClaimId, claim: Claim): map<ClaimId, Claim>
    requires c in w.claims
  {
    if w.claims[c].failed then w.claims - {c} else w.claims[c := claim]
  }

  function Apply(w: World, e: Event): World {
    match e
    case Start(environment, now) => w.(row := Started(w.row, environment, now))
    case Finish(state, url, now) => w.(row := Finished(w.row, state, url, now))
    case RunEnds(now) => w.(row := Ended(w.row, now))
    case Take(c, now) =>
      if Due(w.row, now) && c !in w.claims
      then World(Some(TakenRow(w.row.value, now)), w.claims[c := ClaimOf(TakenRow(w.row.value, now))], w.deployments) else w
    case Resolve(c, id) =>
      if MayResolve(w, c, id)
      then w.(claims := Advanced(w, c, w.claims[c].(target := Some(id))), deployments := w.deployments[id := Statuses(w, id)]) else w
    case Look(c) =>
      if Recovers(w, c) then w.(claims := w.claims[c := w.claims[c].(looked := true, pushed := true)])
      else if MayLook(w, c) then w.(claims := w.claims[c := w.claims[c].(looked := true)]) else w
    case Push(c) =>
      if MayPush(w, c)
      then var id := w.claims[c].target.value;
           w.(claims := Advanced(w, c, w.claims[c].(pushed := true)),
              deployments := w.deployments[id := Statuses(w, id) + [w.claims[c].Wish()]]) else w
    case Succeed(c, now) =>
      if MaySucceed(w, c)
      then w.(row := MapRow(w.row, r => Completed(r, w.claims[c], w.claims[c].target.value, now)), claims := w.claims - {c}) else w
    case Fail(c, now, underway) =>
      if InFlight(w, c)
      then w.(row := MapRow(w.row, r => Failed(r, w.claims[c], now)),
              claims := if underway && !w.claims[c].pushed then w.claims[c := w.claims[c].(failed := true)] else w.claims - {c}) else w
  }

  const EMPTY := World(None, map[], map[])

  ghost function Run(w: World, events: seq<Event>): World
    decreases |events|
  {
    if events == [] then w else Apply(Run(w, events[..|events| - 1]), events[|events| - 1])
  }

  // ---------------------------------------------------------------- no update is lost

  predicate RowOk(r: Row) {
    && (r.need == Clean ==> r.synced == Some(r.desired) && r.syncedUrl == r.url && r.githubId.Some?)
    && (r.retryAt.None? <==> r.need == Clean)
  }

  predicate WorldOk(w: World) {
    (w.row.Some? ==> RowOk(w.row.value)) && (w.row.None? ==> w.claims == map[] && w.deployments == map[])
  }

  lemma ApplyKeepsOk(w: World, e: Event)
    requires WorldOk(w)
    ensures WorldOk(Apply(w, e))
    ensures w.row.Some? ==> Apply(w, e).row.Some?
    ensures w.row.Some? && w.row.value.githubId.Some? ==> Apply(w, e).row.value.githubId == w.row.value.githubId
  {
    hide RetryDelay;
  }

  /** In every reachable state a clean row is synced to what is desired, and every other row has a retry time. */
  lemma {:induction false} NoUpdateLost(events: seq<Event>)
    ensures WorldOk(Run(EMPTY, events))
  {
    hide Apply, RowOk;
    if events != [] {
      NoUpdateLost(events[..|events| - 1]);
      ApplyKeepsOk(Run(EMPTY, events[..|events| - 1]), events[|events| - 1]);
    }
  }

  /** A stored GitHub deployment id never changes while its row is stored; no event here removes it. */
  lemma {:induction false} GithubIdIsFinal(events: seq<Event>, later: seq<Event>)
    requires Run(EMPTY, events).row.Some? && Run(EMPTY, events).row.value.githubId.Some?
    ensures var row := Run(EMPTY, events + later).row;
            row.Some? && row.value.githubId == Run(EMPTY, events).row.value.githubId
    decreases |later|
  {
    hide Apply, WorldOk;
    if later == [] {
      assert events + later == events;
    } else {
      var last := |later| - 1;
      GithubIdIsFinal(events, later[..last]);
      assert (events + later)[..|events + later| - 1] == events + later[..last];
      NoUpdateLost(events + later[..last]);
      ApplyKeepsOk(Run(EMPTY, events + later[..last]), later[last]);
    }
  }

  /** Whatever is not clean is claimed again at its retry time, so no change is forgotten. */
  lemma DirtyIsRetried(events: seq<Event>, c: ClaimId, now: int)
    requires var w := Run(EMPTY, events);
             w.row.Some? && w.row.value.need != Clean && c !in w.claims && w.row.value.retryAt.GetOr(now) <= now
    ensures var w := Apply(Run(EMPTY, events), Take(c, now));
            c in w.claims && w.claims[c].desired == w.row.value.desired && w.claims[c].url == w.row.value.url
  {
    NoUpdateLost(events);
  }

  // ---------------------------------------------------------------- an attempt on its own

  /** One attempt from its claim to its end with nothing in between; `id` is the deployment it resolves to. */
  function Attempted(w: World, c: ClaimId, id: nat, now: int, later: int): World {
    Apply(Apply(Apply(Apply(Apply(w, Take(c, now)), Resolve(c, id)), Look(c)), Push(c)), Succeed(c, later))
  }

  /**
   * An undisturbed attempt marks the row clean. It writes the wish, unless it is a retry that finds the
   * wish among the statuses, the latest or not.
   */
  lemma QuietAttemptSyncs(w: World, c: ClaimId, id: nat, now: int, later: int)
    requires WorldOk(w) && Due(w.row, now) && c !in w.claims && MayResolve(Apply(w, Take(c, now)), c, id)
    ensures var z, r := Attempted(w, c, id, now, later), w.row.value;
            var wish, found := (r.desired, r.url), r.attempts > 0 && (r.desired, r.url) in Statuses(w, id);
      && z.row.Some? && z.row.value.need == Clean && z.row.value.desired == r.desired && z.row.value.url == r.url
      && z.row.value.githubId == Some(id) && z.row.value.environment == r.environment && z.claims == w.claims
      && Statuses(z, id) == (if found then Statuses(w, id) else Statuses(w, id) + [wish])
  {
    var a := Apply(w, Take(c, now));
    var b := Apply(a, Resolve(c, id));
    AttemptResolves(w, c, id, now);
    AttemptWrites(b, c, id);
    var e := Apply(Apply(b, Look(c)), Push(c));
    AttemptEnds(e, c, id, later);
    assert e.claims - {c} == w.claims;
  }

  lemma AttemptResolves(w: World, c: ClaimId, id: nat, now: int)
    requires Due(w.row, now) && c !in w.claims && MayResolve(Apply(w, Take(c, now)), c, id)
    ensures var b, r := Apply(Apply(w, Take(c, now)), Resolve(c, id)), w.row.value;
      && b.row == Some(TakenRow(r, now)) && Statuses(b, id) == Statuses(w, id)
      && b.claims == w.claims[c := ClaimOf(TakenRow(r, now)).(target := Some(id))]
  {
    var a := Apply(w, Take(c, now));
    assert !a.claims[c].failed;
  }

  lemma AttemptWrites(b: World, c: ClaimId, id: nat)
    requires c in b.claims && b.claims[c].target == Some(id)
    requires !b.claims[c].looked && !b.claims[c].pushed && !b.claims[c].failed
    ensures var e, claim := Apply(Apply(b, Look(c)), Push(c)), b.claims[c];
      && e.row == b.row && e.claims == b.claims[c := claim.(looked := claim.Retry(), pushed := true)]
      && Statuses(e, id) == (if claim.Retry() && claim.Wish() in Statuses(b, id) then Statuses(b, id)
                             else Statuses(b, id) + [claim.Wish()])
  {
    var d := Apply(b, Look(c));
    assert Statuses(d, id) == Statuses(b, id);
    if b.claims[c].Retry() {
      assert d.claims[c].looked;
    } else {
      assert d == b;
    }
  }

  lemma AttemptEnds(e: World, c: ClaimId, id: nat, later: int)
    requires MaySucceed(e, c) && e.claims[c].target == Some(id)
    requires e.row.Some? && e.row.value.need == Claimed && Wants(e.row.value, e.claims[c])
    requires e.row.value.githubId.Some? ==> e.row.value.githubId == Some(id)
    ensures var z := Apply(e, Succeed(c, later));
      && z.row.Some? && z.row.value.need == Clean && z.row.value.desired == e.row.value.desired && z.row.value.url == e.row.value.url
      && z.row.value.githubId == Some(id) && z.row.value.environment == e.row.value.environment
      && z.claims == e.claims - {c} && z.deployments == e.deployments
  {
  }

  // ---------------------------------------------------------------- GitHub's copy

  /** A clean row is what GitHub shows for its deployment. */
  predicate Agree(w: World) {
    w.row.Some? && w.row.value.need == Clean ==> Shown(w, w.row.value.githubId) == Some((w.row.value.desired, w.row.value.url))
  }

  predicate Wants(r: Row, c: Claim) {
    r.desired == c.desired && r.url == c.url
  }

  /** An attempt writes an old wish to the row's deployment after a newer attempt has finished. */
  predicate LatePush(w: World, e: Event) {
    && e.Push? && MayPush(w, e.claim)
    && w.row.Some? && w.row.value.need == Clean && w.row.value.githubId == w.claims[e.claim].target
    && !Wants(w.row.value, w.claims[e.claim])
  }

  /**
   * An attempt marks the row clean while GitHub shows something else for the row's deployment: another
   * attempt has written over it, it took an outdated status for its own, or it wrote to a second
   * deployment that the row does not name.
   */
  predicate LateSuccess(w: World, e: Event) {
    && e.Succeed? && MaySucceed(w, e.claim)
    && w.row.Some? && w.row.value.need == Claimed && Wants(w.row.value, w.claims[e.claim])
    && Shown(w, if w.row.value.githubId.Some? then w.row.value.githubId else w.claims[e.claim].target) != Some(w.claims[e.claim].Wish())
  }

  predicate Late(w: World, e: Event) {
    LatePush(w, e) || LateSuccess(w, e)
  }

  lemma AgreesUnlessLate(w: World, e: Event)
    requires WorldOk(w) && Agree(w)
    ensures Agree(Apply(w, e)) <==> !Late(w, e)
  {
    hide RetryDelay;
  }

  ghost predicate AlwaysAgrees(events: seq<Event>) {
    forall i | 0 <= i <= |events| :: Agree(Run(EMPTY, events[..i]))
  }

  ghost predicate NeverLate(events: seq<Event>) {
    forall i | 0 <= i < |events| :: !Late(Run(EMPTY, events[..i]), events[i])
  }

  lemma Prefixes(events: seq<Event>)
    requires events != []
    ensures var front, last := events[..|events| - 1], |events| - 1;
      && (AlwaysAgrees(events) <==> AlwaysAgrees(front) && Agree(Run(EMPTY, events)))
      && (NeverLate(events) <==> NeverLate(front) && !Late(Run(EMPTY, front), events[last]))
  {
    hide Run, Agree, Late;
    var front := events[..|events| - 1];
    assert events[..|events|] == events;
    assert forall i | 0 <= i <= |front| :: front[..i] == events[..i];
    if AlwaysAgrees(events) {
      assert Agree(Run(EMPTY, events[..|events|]));
      forall i | 0 <= i <= |front| ensures Agree(Run(EMPTY, front[..i])) {
        assert Agree(Run(EMPTY, events[..i]));
      }
    }
    if AlwaysAgrees(front) {
      forall i | 0 <= i < |events| ensures Agree(Run(EMPTY, events[..i])) {
        assert Agree(Run(EMPTY, front[..i]));
      }
    }
    if NeverLate(events) {
      assert !Late(Run(EMPTY, events[..|front|]), events[|front|]);
      forall i | 0 <= i < |front| ensures !Late(Run(EMPTY, front[..i]), front[i]) {
        assert !Late(Run(EMPTY, events[..i]), events[i]);
      }
    }
    if NeverLate(front) {
      forall i | 0 <= i < |front| ensures !Late(Run(EMPTY, events[..i]), events[i]) {
        assert !Late(Run(EMPTY, front[..i]), front[i]);
      }
    }
  }

  /** A clean row shows what GitHub shows, throughout a run, if and only if no attempt of the run is late. */
  lemma {:induction false} CleanAgreesExactly(events: seq<Event>)
    ensures AlwaysAgrees(events) <==> NeverLate(events)
  {
    hide Apply, Agree, Late, AlwaysAgrees, NeverLate;
    if events == [] {
      NothingIsLate();
    } else {
      var front := events[..|events| - 1];
      Prefixes(events);
      CleanAgreesExactly(front);
      if AlwaysAgrees(front) {
        AgreesAtEnd(front);
        NoUpdateLost(front);
        AgreesUnlessLate(Run(EMPTY, front), events[|front|]);
      }
    }
  }

  lemma NothingIsLate()
    ensures AlwaysAgrees([]) && NeverLate([])
  {
  }

  lemma AgreesAtEnd(events: seq<Event>)
    requires AlwaysAgrees(events)
    ensures Agree(Run(EMPTY, events))
  {
    hide Agree, Run;
    assert events[..|events|] == events;
  }

  /** An attempt that only starts when no other is in flight and nothing of a failed one is under way. */
  predicate Alone(w: World, e: Event) {
    e.Take? && Due(w.row, e.now) ==> w.claims == map[]
  }

  /** A retry takes a status for its own that is not what GitHub shows. */
  predicate StaleRecovery(w: World, e: Event) {
    e.Look? && Recovers(w, e.claim) && Shown(w, w.claims[e.claim].target) != Some(w.claims[e.claim].Wish())
  }

  predicate Undisturbed(w: World, e: Event) {
    Alone(w, e) && !StaleRecovery(w, e)
  }

  /** What an attempt that is alone can rely on. */
  predicate Unrivalled(w: World, c: ClaimId)
    requires c in w.claims && w.row.Some?
  {
    var claim, r := w.claims[c], w.row.value;
    && (if claim.failed then r.need == Dirty && !claim.pushed else r.need == Claimed)
    && claim.stored == r.githubId
    && (claim.target.Some? && claim.stored.Some? ==> claim.target == claim.stored)
    && (claim.pushed ==> claim.target.Some? && Shown(w, claim.target) == Some(claim.Wish()))
  }

  /** With attempts one at a time: a claim in flight keeps its row claimed, and a clean row is GitHub's. */
  predicate Faithful(w: World) {
    && WorldOk(w)
    && (forall c, d | c in w.claims && d in w.claims :: c == d)
    && (w.claims != map[] ==> w.row.Some?)
    && (forall c | c in w.claims :: Unrivalled(w, c))
    && Agree(w)
  }

  lemma ApplyKeepsFaithful(w: World, e: Event)
    requires Faithful(w) && Undisturbed(w, e)
    ensures Faithful(Apply(w, e))
  {
    ApplyKeepsOk(w, e);
    match e
    case Start(_, _) => RowChangesFaithful(w, e);
    case Finish(_, _, _) => RowChangesFaithful(w, e);
    case RunEnds(_) => RowChangesFaithful(w, e);
    case Take(c, now) => TakeFaithful(w, c, now);
    case Resolve(c, id) => if MayResolve(w, c, id) { ResolveFaithful(w, c, id); }
    case Look(c) => if MayLook(w, c) { LookFaithful(w, c); }
    case Push(c) => if MayPush(w, c) { PushFaithful(w, c); }
    case Succeed(c, now) => if MaySucceed(w, c) { SucceedFaithful(w, c, now); }
    case Fail(c, now, underway) => if InFlight(w, c) { FailFaithful(w, c, now, underway); }
  }

  lemma RowChangesFaithful(w: World, e: Event)
    requires Faithful(w) && WorldOk(Apply(w, e)) && (e.Start? || e.Finish? || e.RunEnds?)
    ensures Faithful(Apply(w, e))
  {
    hide RowOk;
    var z := Apply(w, e);
    forall c | c in z.claims ensures Unrivalled(z, c) { assert Unrivalled(w, c); }
  }

  lemma TakeFaithful(w: World, c: ClaimId, now: int)
    requires Faithful(w) && WorldOk(Apply(w, Take(c, now))) && Alone(w, Take(c, now))
    ensures Faithful(Apply(w, Take(c, now)))
  {
    hide RowOk;
  }

  lemma ResolveFaithful(w: World, c: ClaimId, id: nat)
    requires Faithful(w) && MayResolve(w, c, id) && WorldOk(Apply(w, Resolve(c, id)))
    ensures Faithful(Apply(w, Resolve(c, id)))
  {
    hide RowOk;
    assert Unrivalled(w, c);
    assert w.claims.Keys == {c} && w.claims - {c} == map[];
    var z := Apply(w, Resolve(c, id));
    assert Statuses(z, id) == Statuses(w, id);
    assert forall d | d != id :: Statuses(z, d) == Statuses(w, d);
  }

  lemma LookFaithful(w: World, c: ClaimId)
    requires Faithful(w) && MayLook(w, c) && WorldOk(Apply(w, Look(c))) && !StaleRecovery(w, Look(c))
    ensures Faithful(Apply(w, Look(c)))
  {
    hide RowOk;
    assert Unrivalled(w, c);
    assert w.claims.Keys == {c};
  }

  lemma PushFaithful(w: World, c: ClaimId)
    requires Faithful(w) && MayPush(w, c) && WorldOk(Apply(w, Push(c)))
    ensures Faithful(Apply(w, Push(c)))
  {
    hide RowOk;
    assert Unrivalled(w, c);
    assert w.claims.Keys == {c} && w.claims - {c} == map[];
  }

  lemma SucceedFaithful(w: World, c: ClaimId, now: int)
    requires Faithful(w) && MaySucceed(w, c) && WorldOk(Apply(w, Succeed(c, now)))
    ensures Faithful(Apply(w, Succeed(c, now)))
  {
    hide RowOk;
    assert Unrivalled(w, c);
    assert w.claims.Keys == {c} && w.claims - {c} == map[];
  }

  lemma FailFaithful(w: World, c: ClaimId, now: int, underway: bool)
    requires Faithful(w) && InFlight(w, c) && WorldOk(Apply(w, Fail(c, now, underway)))
    ensures Faithful(Apply(w, Fail(c, now, underway)))
  {
    hide RowOk, RetryDelay;
    assert Unrivalled(w, c);
    assert w.claims.Keys == {c} && w.claims - {c} == map[];
  }

  /** An attempt that is undisturbed is not late. */
  lemma FaithfulIsNotLate(w: World, e: Event)
    requires Faithful(w)
    ensures !Late(w, e)
  {
    hide WorldOk;
    if (e.Push? || e.Succeed?) && e.claim in w.claims {
      assert Unrivalled(w, e.claim);
    }
  }

  ghost predicate UndisturbedRun(events: seq<Event>) {
    forall i | 0 <= i < |events| :: Undisturbed(Run(EMPTY, events[..i]), events[i])
  }

  lemma UndisturbedBefore(events: seq<Event>, i: nat)
    requires UndisturbedRun(events) && i <= |events|
    ensures UndisturbedRun(events[..i])
  {
    hide Run, Undisturbed;
    forall k | 0 <= k < i ensures Undisturbed(Run(EMPTY, events[..i][..k]), events[..i][k]) {
      assert events[..i][..k] == events[..k];
      assert Undisturbed(Run(EMPTY, events[..k]), events[k]);
    }
  }

  /**
   * While attempts never overlap and none takes an outdated status for its own, none is late, so a
   * clean row always is what GitHub shows.
   */
  lemma CleanMeansGithubAgrees(events: seq<Event>)
    requires UndisturbedRun(events)
    ensures AlwaysAgrees(events) && Faithful(Run(EMPTY, events))
  {
    hide *;
    assert NeverLate(events) by {
      UndisturbedIsNeverLate(events);
    }
    CleanAgreesExactly(events);
    UndisturbedIsFaithful(events);
  }

  lemma UndisturbedIsNeverLate(events: seq<Event>)
    requires UndisturbedRun(events)
    ensures NeverLate(events)
  {
    hide Run, Late, Faithful, UndisturbedRun;
    forall i | 0 <= i < |events| ensures !Late(Run(EMPTY, events[..i]), events[i]) {
      UndisturbedBefore(events, i);
      UndisturbedIsFaithful(events[..i]);
      FaithfulIsNotLate(Run(EMPTY, events[..i]), events[i]);
    }
  }

  lemma {:induction false} UndisturbedIsFaithful(events: seq<Event>)
    requires UndisturbedRun(events)
    ensures Faithful(Run(EMPTY, events))
  {
    hide Apply, Faithful, Undisturbed;
    if events == [] {
      EmptyIsFaithful();
    } else {
      var last := |events| - 1;
      UndisturbedBefore(events, last);
      UndisturbedIsFaithful(events[..last]);
      assert Undisturbed(Run(EMPTY, events[..last]), events[last]);
      ApplyKeepsFaithful(Run(EMPTY, events[..last]), events[last]);
    }
  }

  lemma EmptyIsFaithful()
    ensures Faithful(EMPTY)
  {
  }

  // ---------------------------------------------------------------- runs

  // An attempt whose claim expired and the attempt that followed it overlap in three of the witnesses.

  function Overlapping(): World {
    var a := Apply(Apply(Apply(EMPTY, Start("prod", 0)), Take(1, 0)), Resolve(1, 7));
    Apply(Apply(Apply(Apply(a, Finish(Success, None, 10)), Take(2, SYNC_LEASE)), Resolve(2, 7)), Look(2))
  }

  /** The same state spelled out: the first attempt is about to write, and so is the second, after looking. */
  lemma OverlappingIs()
    ensures var w := Overlapping();
      && w.row == Some(Row("prod", Success, None, None, None, None, Claimed, 2, Some(2 * SYNC_LEASE)))
      && w.claims == map[1 := Claim(InProgress, None, 1, None, Some(7), false, false, false),
                         2 := Claim(Success, None, 2, None, Some(7), true, false, false)]
      && w.deployments == map[7 := []]
  {
    var a := Apply(Apply(EMPTY, Start("prod", 0)), Take(1, 0));
    assert a.claims == map[1 := Claim(InProgress, None, 1, None, None, false, false, false)];
    var b := Apply(a, Resolve(1, 7));
    assert b.claims == map[1 := Claim(InProgress, None, 1, None, Some(7), false, false, false)] && b.deployments == map[7 := []];
    var d := Apply(Apply(b, Finish(Success, None, 10)), Take(2, SYNC_LEASE));
    assert d.claims[2] == Claim(Success, None, 2, None, None, false, false, false);
    var e := Apply(d, Resolve(2, 7));
    assert e.claims[2] == Claim(Success, None, 2, None, Some(7), false, false, false) && e.deployments == map[7 := []];
    assert Statuses(e, 7) == [];
  }

  /** The expired attempt writes after the newer one has finished and changes what GitHub shows behind a clean row. */
  lemma ExpiredAttemptOverwrites()
    ensures var c := Apply(Apply(Overlapping(), Push(2)), Succeed(2, SYNC_LEASE + 1));
            var z := Apply(c, Push(1));
            && c.row.Some? && c.row.value.need == Clean && c.row.value.desired == Success && Agree(c)
            && LatePush(c, Push(1)) && z.row == c.row && Shown(z, Some(7)) == Some((InProgress, None)) && !Agree(z)
  {
    OverlappingIs();
    hide Overlapping;
    var b := Apply(Overlapping(), Push(2));
    assert Statuses(b, 7) == [(Success, None)];
    var c := Apply(b, Succeed(2, SYNC_LEASE + 1));
    assert c.row.value.githubId == Some(7) && Statuses(c, 7) == [(Success, None)] && MayPush(c, 1);
    assert Statuses(Apply(c, Push(1)), 7) == [(Success, None), (InProgress, None)];
  }

  /** The expired attempt writes between the newer one's write and its completion, which marks the row clean. */
  lemma OvertakenAttemptFinishes()
    ensures var c := Apply(Apply(Overlapping(), Push(2)), Push(1));
            var z := Apply(c, Succeed(2, SYNC_LEASE + 1));
            && LateSuccess(c, Succeed(2, SYNC_LEASE + 1)) && z.row.Some? && z.row.value.need == Clean
            && z.row.value.desired == Success && Shown(z, z.row.value.githubId) == Some((InProgress, None))
  {
    OverlappingIs();
    hide Overlapping;
    var b := Apply(Overlapping(), Push(2));
    assert Statuses(b, 7) == [(Success, None)];
    var c := Apply(b, Push(1));
    assert Statuses(c, 7) == [(Success, None), (InProgress, None)] && MaySucceed(c, 2);
    assert c.row == Overlapping().row;
  }

  /** Not every overlap does harm: an expired attempt may write first and be overwritten. */
  lemma HarmlessOverlap()
    ensures var c := Apply(Apply(Overlapping(), Push(1)), Push(2));
            var z := Apply(c, Succeed(2, SYNC_LEASE + 1));
            z.row.Some? && z.row.value.need == Clean && Agree(z) && 1 in z.claims
  {
    OverlappingIs();
    hide Overlapping;
    var b := Apply(Overlapping(), Push(1));
    assert Statuses(b, 7) == [(InProgress, None)];
    var c := Apply(b, Push(2));
    assert Statuses(c, 7) == [(InProgress, None), (Success, None)] && MaySucceed(c, 2);
    assert c.row == Overlapping().row;
  }

  /** Both overlapping attempts create a deployment; the row stores the first one's. */
  function TwoDeployments(): World {
    var a := Apply(Apply(Apply(EMPTY, Start("prod", 0)), Take(1, 0)), Finish(Success, None, 10));
    var b := Apply(Apply(Apply(Apply(a, Take(2, SYNC_LEASE)), Resolve(2, 8)), Resolve(1, 7)), Look(2));
    Apply(Apply(Apply(Apply(b, Push(2)), Push(1)), Succeed(1, SYNC_LEASE + 1)), Take(3, SYNC_LEASE + 1))
  }

  lemma TwoDeploymentsAre()
    ensures var w := TwoDeployments();
      && w.row.Some? && w.row.value.desired == Success && w.row.value.url == None && w.row.value.githubId == Some(7)
      && w.row.value.need == Claimed
      && 2 in w.claims && w.claims[2] == Claim(Success, None, 2, None, Some(8), true, true, false)
      && w.deployments == map[7 := [(InProgress, None)], 8 := [(Success, None)]]
  {
    var a := Apply(Apply(Apply(EMPTY, Start("prod", 0)), Take(1, 0)), Finish(Success, None, 10));
    var t := Apply(a, Take(2, SYNC_LEASE));
    BothTake();
    BothResolve(t);
    var b := Apply(Apply(Apply(t, Resolve(2, 8)), Resolve(1, 7)), Look(2));
    hide Apply;
    BothWrite(b);
  }

  lemma BothTake()
    ensures var t := Apply(Apply(Apply(Apply(EMPTY, Start("prod", 0)), Take(1, 0)), Finish(Success, None, 10)), Take(2, SYNC_LEASE));
      && t.row.Some? && t.row.value.desired == Success && t.row.value.url == None && t.row.value.githubId == None
      && t.row.value.need == Claimed && t.deployments == map[]
      && t.claims == map[1 := Claim(InProgress, None, 1, None, None, false, false, false),
                         2 := Claim(Success, None, 2, None, None, false, false, false)]
  {
    var a := Apply(Apply(Apply(EMPTY, Start("prod", 0)), Take(1, 0)), Finish(Success, None, 10));
    assert a.claims == map[1 := Claim(InProgress, None, 1, None, None, false, false, false)];
  }

  lemma BothResolve(t: World)
    requires t.claims == map[1 := Claim(InProgress, None, 1, None, None, false, false, false),
                             2 := Claim(Success, None, 2, None, None, false, false, false)]
    requires t.deployments == map[]
    ensures var b := Apply(Apply(Apply(t, Resolve(2, 8)), Resolve(1, 7)), Look(2));
      && b.row == t.row && b.deployments == map[7 := [], 8 := []]
      && b.claims == map[1 := Claim(InProgress, None, 1, None, Some(7), false, false, false),
                         2 := Claim(Success, None, 2, None, Some(8), true, false, false)]
  {
    var r := Apply(t, Resolve(2, 8));
    assert r.deployments == map[8 := []];
    var q := Apply(r, Resolve(1, 7));
    assert q.deployments == map[7 := [], 8 := []] && Statuses(q, 8) == [];
    assert q.claims[2] == Claim(Success, None, 2, None, Some(8), false, false, false);
  }

  lemma BothWrite(b: World)
    requires b.row.Some? && b.row.value.desired == Success && b.row.value.url == None && b.row.value.githubId == None
    requires b.row.value.need == Claimed
    requires b.claims == map[1 := Claim(InProgress, None, 1, None, Some(7), false, false, false),
                             2 := Claim(Success, None, 2, None, Some(8), true, false, false)]
    requires b.deployments == map[7 := [], 8 := []]
    ensures var w := Apply(Apply(Apply(Apply(b, Push(2)), Push(1)), Succeed(1, SYNC_LEASE + 1)), Take(3, SYNC_LEASE + 1));
      && w.row.Some? && w.row.value.desired == Success && w.row.value.url == None && w.row.value.githubId == Some(7)
      && w.row.value.need == Claimed
      && 2 in w.claims && w.claims[2] == Claim(Success, None, 2, None, Some(8), true, true, false)
      && w.deployments == map[7 := [(InProgress, None)], 8 := [(Success, None)]]
  {
    var one, two := b.claims[1], b.claims[2];
    var d := Apply(b, Push(2));
    WriteIs(b, 2, 8);
    assert Statuses(b, 8) + [two.Wish()] == [(Success, None)];
    assert d == World(b.row, map[1 := one, 2 := two.(pushed := true)], map[7 := [], 8 := [(Success, None)]]);
    var e := Apply(d, Push(1));
    WriteIs(d, 1, 7);
    assert Statuses(d, 7) + [one.Wish()] == [(InProgress, None)];
    assert e == World(b.row, map[1 := one.(pushed := true), 2 := two.(pushed := true)],
                      map[7 := [(InProgress, None)], 8 := [(Success, None)]]);
    FirstCompletes(e);
  }

  lemma WriteIs(w: World, c: ClaimId, id: nat)
    requires MayPush(w, c) && w.claims[c].target == Some(id) && !w.claims[c].failed
    ensures Apply(w, Push(c)) == World(w.row, w.claims[c := w.claims[c].(pushed := true)],
                                       w.deployments[id := Statuses(w, id) + [w.claims[c].Wish()]])
  {
  }

  lemma FirstCompletes(e: World)
    requires e.row.Some? && e.row.value.desired == Success && e.row.value.url == None && e.row.value.githubId == None
    requires e.row.value.need == Claimed && 1 in e.claims && 2 in e.claims && 3 !in e.claims
    requires e.claims[1] == Claim(InProgress, None, 1, None, Some(7), false, true, false)
    ensures var w := Apply(Apply(e, Succeed(1, SYNC_LEASE + 1)), Take(3, SYNC_LEASE + 1));
      && w.row.Some? && w.row.value.desired == Success && w.row.value.url == None && w.row.value.githubId == Some(7)
      && w.row.value.need == Claimed && 2 in w.claims && w.claims[2] == e.claims[2] && w.deployments == e.deployments
  {
    var f := Apply(e, Succeed(1, SYNC_LEASE + 1));
    assert f.row.value.need == Dirty && f.row.value.retryAt == Some(SYNC_LEASE + 1);
  }

  /** The attempt that wrote to the second deployment marks the row clean, which names the first. */
  lemma SecondDeploymentFinishes()
    ensures var w := TwoDeployments();
            var z := Apply(w, Succeed(2, SYNC_LEASE + 2));
            && LateSuccess(w, Succeed(2, SYNC_LEASE + 2)) && z.row.Some? && z.row.value.need == Clean
            && z.row.value.desired == Success && Shown(z, z.row.value.githubId) == Some((InProgress, None))
  {
    TwoDeploymentsAre();
    hide TwoDeployments;
  }

  /** Two states shown in turn, then the first wished again and one attempt failed; nothing overlaps. */
  function Restarted(): World {
    var shown := Attempted(Apply(EMPTY, Start("prod", 0)), 1, 7, 0, 1);
    var finished := Attempted(Apply(shown, Finish(Success, None, 2)), 2, 7, 2, 3);
    Apply(Apply(Apply(finished, Start("prod", 4)), Take(3, 4)), Fail(3, 5, false))
  }

  lemma RestartedIs()
    ensures var w := Restarted();
      && w.row.Some? && w.row.value.desired == InProgress && w.row.value.url == None && w.row.value.githubId == Some(7)
      && w.row.value.need == Dirty && w.row.value.attempts == 1 && w.row.value.retryAt == Some(5 + RETRY_BASE)
      && w.claims == map[] && Statuses(w, 7) == [(InProgress, None), (Success, None)] && WorldOk(w)
  {
    var a := Apply(EMPTY, Start("prod", 0));
    FirstAttempt(a, 1, 7, 0);
    QuietAttemptSyncs(a, 1, 7, 0, 1);
    var b := Attempted(a, 1, 7, 0, 1);
    AttemptedOk(a, 1, 7, 0, 1);
    hide Attempted;
    var c := Apply(b, Finish(Success, None, 2));
    ApplyKeepsOk(b, Finish(Success, None, 2));
    FirstAttempt(c, 2, 7, 2);
    QuietAttemptSyncs(c, 2, 7, 2, 3);
    var d := Attempted(c, 2, 7, 2, 3);
    AttemptedOk(c, 2, 7, 2, 3);
    assert Statuses(d, 7) == [(InProgress, None), (Success, None)];
    var e := Apply(d, Start("prod", 4));
    ApplyKeepsOk(d, Start("prod", 4));
    RestartFails(e);
  }

  lemma FirstAttempt(w: World, c: ClaimId, id: nat, now: int)
    requires Due(w.row, now) && c !in w.claims
    requires if w.row.value.githubId.Some? then w.row.value.githubId == Some(id) else id !in w.deployments
    ensures MayResolve(Apply(w, Take(c, now)), c, id)
  {
  }

  lemma AttemptedOk(w: World, c: ClaimId, id: nat, now: int, later: int)
    requires WorldOk(w)
    ensures WorldOk(Attempted(w, c, id, now, later))
  {
    hide WorldOk, Apply;
    var a := Apply(w, Take(c, now));
    ApplyKeepsOk(w, Take(c, now));
    ApplyKeepsOk(a, Resolve(c, id));
    var b := Apply(a, Resolve(c, id));
    ApplyKeepsOk(b, Look(c));
    ApplyKeepsOk(Apply(b, Look(c)), Push(c));
    ApplyKeepsOk(Apply(Apply(b, Look(c)), Push(c)), Succeed(c, later));
  }

  lemma RestartFails(e: World)
    requires WorldOk(e) && e.row.Some? && e.row.value.need == Dirty && e.row.value.attempts == 0 && e.row.value.retryAt == Some(4)
    requires e.claims == map[]
    ensures var w := Apply(Apply(e, Take(3, 4)), Fail(3, 5, false));
      && w.row == Some(e.row.value.(attempts := 1, retryAt := Some(5 + RETRY_BASE))) && w.claims == map[]
      && w.deployments == e.deployments && WorldOk(w)
  {
    var t := Apply(e, Take(3, 4));
    ApplyKeepsOk(e, Take(3, 4));
    ApplyKeepsOk(t, Fail(3, 5, false));
    assert t.claims == map[3 := ClaimOf(TakenRow(e.row.value, 4))];
    assert t.claims - {3} == map[];
    assert Power(0) == 1 && RetryDelay(1) == RETRY_BASE;
  }

  /** The retry finds the outdated first status, writes nothing, and marks the row clean. */
  lemma OutdatedStatusRecovered()
    ensures Restarted().claims == map[]
    ensures var z := Attempted(Restarted(), 4, 7, 5 + RETRY_BASE, 6 + RETRY_BASE);
            && z.row.Some? && z.row.value.need == Clean && z.row.value.desired == InProgress
            && Shown(z, z.row.value.githubId) == Some((Success, None)) && !Agree(z)
    ensures StaleRecovery(Apply(Apply(Restarted(), Take(4, 5 + RETRY_BASE)), Resolve(4, 7)), Look(4))
  {
    RestartedIs();
    hide Restarted;
    var w, now := Restarted(), 5 + RETRY_BASE;
    FirstAttempt(w, 4, 7, now);
    QuietAttemptSyncs(w, 4, 7, now, 6 + RETRY_BASE);
    AttemptResolves(w, 4, 7, now);
    hide Attempted;
  }

  // ---------------------------------------------------------------- the handlers

  class Synchroniser {
    var row: Option<Row>
    var claims: map<ClaimId, Claim>
    var deployments: map<nat, seq<Status>>

    ghost function Current(): World
      reads this
    {
      World(row, claims, deployments)
    }

    constructor ()
      ensures Current() == EMPTY
    {
      row, claims, deployments := None, map[], map[];
    }

    method Redirect(state: State, url: Option<string>, now: int)
      requires row.Some?
      modifies this`row
      ensures row == Some(Redirected(old(row).value, state, url, now))
    {
      var r := row.value.(desired := state, url := url);
      if r.need != Claimed {
        r := r.(need := Dirty, attempts := 0, retryAt := Some(now));
      }
      row := Some(r);
    }

    method DeploymentStarted(environment: string, now: int) returns (mismatch: bool)
      modifies this`row
      ensures Current() == Apply(old(Current()), Start(environment, now))
      ensures mismatch <==> old(row).Some? && Lower(old(row).value.environment) != Lower(environment)
    {
      mismatch := row.Some? && Lower(row.value.environment) != Lower(environment);
      if mismatch { return; }
      if row.None? {
        row := Some(Row(environment, InProgress, None, None, None, None, Dirty, 0, Some(now)));
      } else if row.value.desired != InProgress {
        Redirect(InProgress, None, now);
      }
    }

    method DeploymentFinished(state: State, url: Option<string>, now: int) returns (known: bool)
      modifies this`row
      ensures Current() == Apply(old(Current()), Finish(state, url, now)) && known == row.Some?
    {
      known := row.Some?;
      if known && (row.value.desired != state || row.value.url != url) {
        Redirect(state, url, now);
      }
    }

    method FinishOutstandingDeployments(now: int)
      modifies this`row
      ensures Current() == Apply(old(Current()), RunEnds(now))
    {
      if row.Some? && row.value.desired == InProgress {
        Redirect(Error, None, now);
      }
    }

    /** The claim at the start of syncDeployment. */
    method ClaimSync(c: ClaimId, now: int) returns (claimed: bool)
      requires c !in claims
      modifies this`row, this`claims
      ensures Current() == Apply(old(Current()), Take(c, now)) && claimed == (c in claims)
    {
      claimed := row.Some? && row.value.need != Clean && row.value.retryAt.Some? && row.value.retryAt.value <= now;
      if claimed {
        row := Some(TakenRow(row.value, now));
        claims := claims[c := ClaimOf(row.value)];
      }
    }

    /**
     * syncGitHubDeployment with nothing in between: a deployment is found or created, a retry looks
     * whether the wish was written before, and it is written otherwise. `found` is what the search by
     * payload brings, `created` the id of a new deployment.
     */
    method SyncGitHubDeployment(c: ClaimId, found: Option<nat>, created: nat) returns (resolved: nat)
      requires c in claims && claims[c].target.None? && !claims[c].looked && !claims[c].pushed && !claims[c].failed
      requires created !in deployments && (found.Some? ==> found.value in deployments)
      modifies this`claims, this`deployments
      ensures Current() == Apply(Apply(Apply(old(Current()), Resolve(c, resolved)), Look(c)), Push(c))
      ensures MayResolve(old(Current()), c, resolved) && MaySucceed(Current(), c) && claims[c].target == Some(resolved)
    {
      var claim := claims[c];
      var id := claim.stored;
      if id.None? && claim.attempts > 1 { id := found; }
      resolved := id.GetOr(created);
      var statuses := if resolved in deployments then deployments[resolved] else [];
      deployments := deployments[resolved := statuses];
      claim := claim.(target := Some(resolved));
      claims := claims[c := claim];
      assert Current() == Apply(old(Current()), Resolve(c, resolved));
      if claim.attempts > 1 {
        claim := claim.(looked := true);
        if (claim.desired, claim.url) in statuses {
          claims := claims[c := claim.(pushed := true)];
          return;
        }
        claims := claims[c := claim];
      }
      deployments := deployments[resolved := statuses + [(claim.desired, claim.url)]];
      claims := claims[c := claim.(pushed := true)];
    }

    /** What follows once GitHub has been told, or had been told before. */
    method SyncSucceeded(c: ClaimId, now: int)
      requires MaySucceed(Current(), c)
      modifies this`row, this`claims
      ensures Current() == Apply(old(Current()), Succeed(c, now))
    {
      var claim := claims[c];
      claims := claims - {c};
      if row.None? { return; }
      var r := row.value;
      if r.githubId.None? {
        r := r.(githubId := claim.target);
      }
      var synced := r.need == Claimed && r.desired == claim.desired && r.url == claim.url;
      if synced {
        r := r.(synced := Some(r.desired), syncedUrl := r.url, need := Clean, retryAt := None);
      } else if r.need == Claimed {
        r := r.(need := Dirty, retryAt := Some(now));
      }
      row := Some(r);
    }

    /** `underway`: a request of the attempt may still reach GitHub. */
    method SyncFailed(c: ClaimId, now: int, underway: bool)
      requires InFlight(Current(), c)
      modifies this`row, this`claims
      ensures Current() == Apply(old(Current()), Fail(c, now, underway))
    {
      var claim := claims[c];
      claims := if underway && !claim.pushed then claims[c := claim.(failed := true)] else claims - {c};
      if row.None? || row.value.need != Claimed { return; }
      var changed := row.value.desired != claim.desired || row.value.url != claim.url;
      var delay := if changed then 0 else RetryDelay(claim.attempts);
      row := Some(row.value.(need := Dirty, retryAt := Some(now + delay)));
    }
  }
}
