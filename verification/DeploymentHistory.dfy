/** What a deployment row stores, told from the events alone. */
module DeploymentHistory {
  import opened Basics
  import opened Deployments
  import opened Compatibility

  // ---------------------------------------------------------------- what an event says

  /** The wish an event brings, if it changes the row's. */
  function Wished(w: World, e: Event): Option<Status> {
    match e
    case Start(environment, _) =>
      if w.row.None? || (Alike(w.row.value.environment, environment) && w.row.value.desired != InProgress)
      then Some((InProgress, None)) else None
    case Finish(state, url, _) =>
      if w.row.Some? && (w.row.value.desired != state || w.row.value.url != url) then Some((state, url)) else None
    case RunEnds(_) =>
      if w.row.Some? && w.row.value.desired == InProgress then Some((Error, None)) else None
    case _ => None
  }

  function TimeOf(e: Event): int {
    match e
    case Start(_, now) => now
    case Finish(_, _, now) => now
    case RunEnds(now) => now
    case Take(_, now) => now
    case Succeed(_, now) => now
    case Fail(_, now, _) => now
    case _ => 0
  }

  /** An attempt begins. */
  predicate Begins(w: World, e: Event) {
    e.Take? && e.claim !in w.claims && w.row.Some? && w.row.value.need != Clean && w.row.value.retryAt.GetOr(e.now + 1) <= e.now
  }

  /** An attempt reports its end for a row that still waits for one. */
  predicate Ends(w: World, e: Event) {
    && (e.Succeed? || e.Fail?) && e.claim in w.claims && !w.claims[e.claim].failed
    && w.row.Some? && w.row.value.need == Claimed
    && (e.Succeed? ==> w.claims[e.claim].pushed && w.claims[e.claim].target.Some?)
  }

  /** The wish of the attempt that ends is still the row's. */
  predicate StillWished(w: World, e: Event)
    requires Ends(w, e)
  {
    w.claims[e.claim].Wish() == (w.row.value.desired, w.row.value.url)
  }

  /** The row a wish finds is not being synchronised. */
  predicate FindsFree(w: World, e: Event) {
    Wished(w, e).Some? && (w.row.None? || w.row.value.need != Claimed)
  }

  function NewNeed(w: World, e: Event): Option<Need> {
    if FindsFree(w, e) then Some(Dirty)
    else if Begins(w, e) then Some(Claimed)
    else if Ends(w, e) then Some(if e.Succeed? && StillWished(w, e) then Clean else Dirty)
    else None
  }

  /** One second, doubled for every attempt before this one, and five minutes at most. */
  function Delay(attempts: nat): int {
    if attempts <= 1 then 1_000 else if Delay(attempts - 1) * 2 < 300_000 then Delay(attempts - 1) * 2 else 300_000
  }

  /** When the row is due after the event; `Some(None)`: not at all. */
  function NewDue(w: World, e: Event): Option<Option<int>> {
    if FindsFree(w, e) then Some(Some(TimeOf(e)))
    else if Begins(w, e) then Some(Some(e.now + 120_000))
    else if Ends(w, e) then
      Some(if !StillWished(w, e) then Some(e.now)
           else if e.Succeed? then None
           else Some(e.now + Delay(w.claims[e.claim].attempts)))
    else None
  }

  // ---------------------------------------------------------------- the last event of a kind in a run

  ghost function LastWish(events: seq<Event>): Option<Status> {
    if events == [] then None
    else
      var front, e := events[..|events| - 1], events[|events| - 1];
      var wish := Wished(Run(EMPTY, front), e);
      if wish.Some? then wish else LastWish(front)
  }

  ghost function NeedNow(events: seq<Event>): Option<Need> {
    if events == [] then None
    else
      var front, e := events[..|events| - 1], events[|events| - 1];
      var need := NewNeed(Run(EMPTY, front), e);
      if need.Some? then need else NeedNow(front)
  }

  ghost function DueNow(events: seq<Event>): Option<int> {
    if events == [] then None
    else
      var front, e := events[..|events| - 1], events[|events| - 1];
      var due := NewDue(Run(EMPTY, front), e);
      if due.Some? then due.value else DueNow(front)
  }

  /** Attempts begun since a wish last found the row free. */
  ghost function AttemptsNow(events: seq<Event>): nat {
    if events == [] then 0
    else
      var front, e := events[..|events| - 1], events[|events| - 1];
      if FindsFree(Run(EMPTY, front), e) then 0
      else AttemptsNow(front) + if Begins(Run(EMPTY, front), e) then 1 else 0
  }

  /** What the last successful attempt told GitHub, if it was still wished then. */
  ghost function SyncedNow(events: seq<Event>): Option<Status> {
    if events == [] then None
    else
      var front, e := events[..|events| - 1], events[|events| - 1];
      var w := Run(EMPTY, front);
      if Ends(w, e) && e.Succeed? && StillWished(w, e) then Some(w.claims[e.claim].Wish()) else SyncedNow(front)
  }

  /** The environment of the start that made the row. */
  ghost function EnvironmentNow(events: seq<Event>): Option<string> {
    if events == [] then None
    else
      var front, e := events[..|events| - 1], events[|events| - 1];
      if Run(EMPTY, front).row.None? && e.Start? then Some(e.environment) else EnvironmentNow(front)
  }

  // ---------------------------------------------------------------- the law

  ghost predicate Told(events: seq<Event>, row: Option<Row>) {
    match row
    case None => LastWish(events).None? && SyncedNow(events).None?
    case Some(r) =>
      && LastWish(events) == Some((r.desired, r.url)) && EnvironmentNow(events) == Some(r.environment)
      && NeedNow(events) == Some(r.need) && DueNow(events) == r.retryAt && AttemptsNow(events) == r.attempts
      && (SyncedNow(events).None? <==> r.synced.None?)
      && (r.synced.Some? ==> SyncedNow(events) == Some((r.synced.value, r.syncedUrl)))
  }

  lemma DelayIs(n: nat)
    ensures RetryDelay(n) == Delay(n)
    ensures 1_000 * Power(if n > 0 then n - 1 else 0) < 300_000 ==> Delay(n) == 1_000 * Power(if n > 0 then n - 1 else 0)
  {
    if n > 1 { DelayIs(n - 1); }
  }

  /** How the row moves in one event. */
  ghost predicate Moves(w: World, e: Event, now: Option<Row>) {
    var was := w.row;
    && (was.Some? ==> now.Some?)
    && (now.Some? && was.None? ==>
          e.Start? && now.value == Row(e.environment, InProgress, None, None, None, None, Dirty, 0, Some(e.now)))
    && (now.Some? && was.Some? ==>
          var r, b := now.value, was.value;
          && r.environment == b.environment && (r.desired, r.url) == Wished(w, e).GetOr((b.desired, b.url))
          && r.need == NewNeed(w, e).GetOr(b.need) && r.retryAt == NewDue(w, e).GetOr(b.retryAt)
          && r.attempts == (if FindsFree(w, e) then 0 else b.attempts + if Begins(w, e) then 1 else 0)
          && (if Ends(w, e) && e.Succeed? && StillWished(w, e)
              then r.synced == Some(w.claims[e.claim].desired) && r.syncedUrl == w.claims[e.claim].url
              else r.synced == b.synced && r.syncedUrl == b.syncedUrl))
    && (now.None? ==> Wished(w, e).None? && !e.Start?)
  }

  lemma EventMoves(w: World, e: Event)
    requires WorldOk(w)
    ensures Moves(w, e, Apply(w, e).row)
  {
    if e.Start? && w.row.Some? { LowerAlike(w.row.value.environment, e.environment); }
    if e.Fail? && e.claim in w.claims { DelayIs(w.claims[e.claim].attempts); }
    hide RetryDelay, Delay, Lower, Alike, Statuses, MayResolve, MayLook, Recovers, MayPush;
  }

  lemma ToldNext(events: seq<Event>, row: Option<Row>)
    requires events != []
    requires var front := events[..|events| - 1];
             Moves(Run(EMPTY, front), events[|events| - 1], row) && Told(front, Run(EMPTY, front).row)
    ensures Told(events, row)
  {
    hide Run, Alike, Delay;
  }

  /** Over every run, whatever the row stores is what its events say. */
  lemma {:induction false} HistoryTold(events: seq<Event>)
    ensures Told(events, Run(EMPTY, events).row)
  {
    if events != [] {
      var front, e := events[..|events| - 1], events[|events| - 1];
      NoUpdateLost(front);
      HistoryTold(front);
      EventMoves(Run(EMPTY, front), e);
      ToldNext(events, Run(EMPTY, events).row);
    }
  }

  // ---------------------------------------------------------------- what an attempt works on

  /** The attempt, while it lasts, knows the deployment `g`. */
  predicate Knows(w: World, c: ClaimId, g: nat) {
    w.row.Some? && w.row.value.githubId == Some(g) && (c in w.claims ==> w.claims[c].stored == Some(g))
  }

  lemma KnowsStill(w: World, e: Event, c: ClaimId, g: nat)
    requires Knows(w, c, g)
    ensures Knows(Apply(w, e), c, g)
  {
    hide RetryDelay, Lower, Statuses;
  }

  lemma AttemptStarts(w: World, c: ClaimId, now: int)
    requires Begins(w, Take(c, now))
    ensures var claim, r := Apply(w, Take(c, now)).claims[c], w.row.value;
      && claim.desired == r.desired && claim.url == r.url && claim.attempts == r.attempts + 1 && claim.stored == r.githubId
      && claim.target.None? && !claim.looked && !claim.pushed && !claim.failed
  {
  }

  /** An attempt begun when the deployment was known works on that one, however late it resolves it. */
  lemma {:induction false} KnownDeploymentIsUsed(w: World, c: ClaimId, now: int, later: seq<Event>, id: nat)
    requires Begins(w, Take(c, now)) && w.row.value.githubId.Some?
    requires MayResolve(Run(Apply(w, Take(c, now)), later), c, id)
    ensures Some(id) == w.row.value.githubId
  {
    AttemptStarts(w, c, now);
    assert Knows(Apply(w, Take(c, now)), c, w.row.value.githubId.value);
    hide Apply;
    KnowsAlways(Apply(w, Take(c, now)), c, later, w.row.value.githubId.value);
  }

  lemma {:induction false} KnowsAlways(w: World, c: ClaimId, later: seq<Event>, g: nat)
    requires Knows(w, c, g)
    ensures Knows(Run(w, later), c, g)
  {
    hide Apply, Knows;
    if later != [] {
      KnowsAlways(w, c, later[..|later| - 1], g);
      KnowsStill(Run(w, later[..|later| - 1]), later[|later| - 1], c, g);
    }
  }
}
