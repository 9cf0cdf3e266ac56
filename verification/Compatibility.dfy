/** Which agent may be given which run, in plain terms. */
module Compatibility {
  import opened Basics
  import opened Jobs
  import opened Leases
  import opened Events
  import opened Dispatcher

  // ---------------------------------------------------------------- text, ignoring case

  predicate AlikeChar(c: char, d: char) {
    || c == d
    || ('A' <= c <= 'Z' && d as int == c as int + 32)
    || ('A' <= d <= 'Z' && c as int == d as int + 32)
  }

  /** The same text but for the case of its ASCII letters. */
  predicate Alike(a: string, b: string) {
    |a| == |b| && forall i | 0 <= i < |a| :: AlikeChar(a[i], b[i])
  }

  lemma LowerCharAlike(c: char, d: char)
    ensures LowerChar(c) == LowerChar(d) <==> AlikeChar(c, d)
  {
    LowerCharCode(c);
    LowerCharCode(d);
  }

  lemma LowerCharCode(c: char)
    ensures LowerChar(c) as int == if 'A' <= c <= 'Z' then c as int + 32 else c as int
  {
  }

  lemma LowerAlike(a: string, b: string)
    ensures Lower(a) == Lower(b) <==> Alike(a, b)
  {
    forall i | 0 <= i < |a| && |a| == |b| ensures Lower(a)[i] == Lower(b)[i] <==> AlikeChar(a[i], b[i]) {
      LowerCharAlike(a[i], b[i]);
    }
    hide LowerChar, AlikeChar;
    if Lower(a) == Lower(b) {
      assert |a| == |b|;
      forall i | 0 <= i < |a| ensures AlikeChar(a[i], b[i]) { assert Lower(a)[i] == Lower(b)[i]; }
    }
  }

  /** Groups of leases are the same if and only if repository and trimmed group are, ignoring case. */
  lemma SameKeyExactly(repository: string, group: string, other: string, name: string)
    ensures KeyOf(repository, group) == KeyOf(other, name) <==> Alike(repository, other) && Alike(Trim(group), Trim(name))
  {
    LowerAlike(repository, other);
    LowerAlike(Trim(group), Trim(name));
    hide Lower, Alike, Trim;
  }

  // ---------------------------------------------------------------- the rule

  predicate Announces(hello: Hello, name: string) {
    exists l | l in hello.labels :: Alike(l, name)
  }

  /** A requirement any agent meets: a single label for a hosted macOS machine, and no group. */
  predicate HostedOnly(r: Requirement) {
    r.group.None? && |r.labels| == 1 && |r.labels[0]| >= 6 && Alike(r.labels[0][..6], "macos-")
  }

  /** The agent is in the required group, if there is one, and announces every required label. */
  predicate Meets(hello: Hello, r: Requirement) {
    && (r.group.Some? ==> hello.group.Some? && Alike(hello.group.value, r.group.value))
    && (HostedOnly(r) || forall l | l in r.labels :: Announces(hello, l))
  }

  lemma HasLabelMeans(hello: Hello, name: string)
    ensures HasLabel(hello, name) <==> Announces(hello, name)
  {
    forall l | l in hello.labels ensures Lower(l) == Lower(name) <==> Alike(l, name) { LowerAlike(l, name); }
    hide Lower, Alike;
  }

  lemma HostedMeans(name: string)
    ensures IsHostedMacos(name) <==> |name| >= 6 && Alike(name[..6], "macos-")
  {
    var p, low := "macos-", Lower(name);
    assert Lower(p) == p;
    if |name| >= 6 {
      LowerAlike(name[..6], p);
      assert Lower(name[..6]) == low[..6];
    }
    assert p <= low <==> |low| >= 6 && low[..6] == p;
    if low == "macos-latest" { assert low[..6] == p; }
    hide Lower, Alike;
  }

  lemma SatisfiesOneMeans(hello: Hello, r: Requirement)
    ensures SatisfiesOne(hello, r) <==> Meets(hello, r)
  {
    forall l | l in r.labels ensures HasLabel(hello, l) <==> Announces(hello, l) { HasLabelMeans(hello, l); }
    if |r.labels| == 1 { HostedMeans(r.labels[0]); }
    if r.group.Some? && hello.group.Some? { LowerAlike(hello.group.value, r.group.value); }
    hide Lower, Alike, IsHostedMacos, HasLabel, Announces;
  }

  /** Compatibility is that every requirement is met. */
  lemma SatisfiesMeans(hello: Hello, requirements: seq<Requirement>)
    ensures Satisfies(hello, requirements) <==> forall r | r in requirements :: Meets(hello, r)
  {
    forall r | r in requirements ensures SatisfiesOne(hello, r) <==> Meets(hello, r) { SatisfiesOneMeans(hello, r); }
    hide SatisfiesOne, Meets;
  }

  // ---------------------------------------------------------------- what a dispatch promises

  /** Whoever is given a run waits for work, has room, and meets all the run requires. */
  lemma ChosenMeets(key: Collation, p: Pass)
    requires Chosen(key, p)
    ensures p.run in p.tables.jobs && p.tables.jobs[p.run].status == Queued
    ensures forall r | r in p.tables.jobs[p.run].requirements :: Meets(p.candidate.hello, r)
    ensures Announces(p.candidate.hello, "macos")
    ensures exists a | a in p.tables.sockets :: a.open && a.draining == [] && a.agent == Some(p.candidate.agent)
              && a.hello == Some(p.candidate.hello) && |LiveRuns(p.tables.jobs, p.candidate.agent)| < p.candidate.hello.maxParallelism
  {
    SatisfiesMeans(p.candidate.hello, p.tables.jobs[p.run].requirements);
    HasLabelMeans(p.candidate.hello, "macos");
    hide Satisfies, Meets, HasLabel, Announces, Precedes, LiveRuns;
    var a :| a in p.tables.sockets && Offers(p.tables.jobs, a, p.candidate);
  }

  /** A run that requires a label no agent with room announces, or a group none is in, stays in the queue. */
  lemma UnmetStaysQueued(sockets: seq<Attachment>, jobs: map<RunId, JobRow>, run: RunId, r: Requirement)
    requires run in jobs && r in jobs[run].requirements
    requires forall c | IsCandidate(sockets, jobs, c) :: !Meets(c.hello, r)
    ensures forall c :: !Dispatchable(sockets, jobs, run, c)
    ensures forall key, c :: !Chosen(key, Pass(Tables(jobs, sockets), run, c))
  {
    forall c ensures !Dispatchable(sockets, jobs, run, c) {
      SatisfiesMeans(c.hello, jobs[run].requirements);
    }
    hide Dispatchable, Precedes;
  }

  /** A label that is missing rules an agent out. */
  lemma MissingLabelRulesOut(hello: Hello, r: Requirement, name: string)
    requires name in r.labels && !HostedOnly(r) && !Announces(hello, name)
    ensures !SatisfiesOne(hello, r)
  {
    SatisfiesOneMeans(hello, r);
    hide SatisfiesOne, HostedOnly, Announces;
  }

  /** `weaker` asks for fewer labels, or for the same in another case, and for no group `r` does not ask for. */
  predicate AsksLess(weaker: Requirement, r: Requirement) {
    && |weaker.labels| <= |r.labels|
    && (forall l | l in weaker.labels :: exists m | m in r.labels :: Alike(l, m))
    && (weaker.group.Some? ==> r.group.Some? && Alike(weaker.group.value, r.group.value))
  }

  lemma AlikeTrans(a: string, b: string, c: string)
    requires Alike(a, b) && Alike(b, c)
    ensures Alike(a, c)
  {
    LowerAlike(a, b);
    LowerAlike(b, c);
    LowerAlike(a, c);
    hide Alike;
  }

  /** Asking for less, or writing it in another case, never makes an agent incompatible. */
  lemma AskingLessKeeps(hello: Hello, weaker: Requirement, r: Requirement)
    requires SatisfiesOne(hello, r) && AsksLess(weaker, r)
    ensures SatisfiesOne(hello, weaker)
  {
    SatisfiesOneMeans(hello, r);
    SatisfiesOneMeans(hello, weaker);
    hide SatisfiesOne;
    if weaker.group.Some? { AlikeBack(weaker.group.value, r.group.value, hello.group.value); }
    if HostedOnly(r) {
      HostedLess(weaker, r);
    } else {
      forall l | l in weaker.labels ensures Announces(hello, l) {
        var m :| m in r.labels && Alike(l, m);
        var k :| k in hello.labels && Alike(k, m);
        AlikeBack(l, m, k);
      }
    }
  }

  lemma AlikeBack(a: string, b: string, c: string)
    requires Alike(a, b) && Alike(c, b)
    ensures Alike(c, a)
  {
    LowerAlike(a, b);
    LowerAlike(c, b);
    LowerAlike(c, a);
    hide Alike;
  }

  lemma HostedLess(weaker: Requirement, r: Requirement)
    requires HostedOnly(r) && AsksLess(weaker, r)
    ensures HostedOnly(weaker) || weaker.labels == []
  {
    if weaker.labels != [] {
      var l, m := weaker.labels[0], r.labels[0];
      assert l in weaker.labels;
      assert Alike(l, m);
      assert Alike(l[..6], m[..6]);
      AlikeTrans(l[..6], m[..6], "macos-");
    }
  }

  /** An agent that announces more stays compatible. */
  lemma AnnouncingMoreKeeps(hello: Hello, richer: Hello, r: Requirement)
    requires SatisfiesOne(hello, r) && richer.group == hello.group
    requires forall l | l in hello.labels :: l in richer.labels
    ensures SatisfiesOne(richer, r)
  {
    SatisfiesOneMeans(hello, r);
    SatisfiesOneMeans(richer, r);
    hide SatisfiesOne, Alike;
  }

  /** Nobody who could take the run has a lower share of its capacity in use; ties go by runs, connection time and id. */
  lemma ChosenIsLeastLoaded(key: Collation, p: Pass, d: Candidate)
    requires Chosen(key, p) && Dispatchable(p.tables.sockets, p.tables.jobs, p.run, d)
    ensures var c := p.candidate;
            var here, there := c.running * d.capacity, d.running * c.capacity;
      && here <= there
      && (here == there ==> c.running <= d.running)
      && (here == there && c.running == d.running ==> c.connectedAt <= d.connectedAt)
      && (here == there && c.running == d.running && c.connectedAt == d.connectedAt ==> key(c.agent) <= key(d.agent))
  {
    CandidatesHaveRoom(p.tables.sockets, p.tables.jobs);
    hide Satisfies, IsCandidate;
    BetterIsPrecedes(key, d, p.candidate);
    hide Precedes;
  }
}
