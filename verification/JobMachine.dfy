/** What every run of the workspace keeps about its jobs. */
module JobMachine {
  import opened Basics
  import opened Jobs
  import opened Leases
  import opened Events
  import opened LeaseTable

  ghost predicate JobsOk(s: Server) {
    && (forall run | run in s.jobs :: RowOk(s.jobs[run]))
    && (forall agent :: |LiveRuns(s.jobs, agent)| <= CapacityOf(s, agent))
    && s.jobs.Keys <= s.repositories.Keys
  }

  /** A completed row never changes again, except that it may be pruned. */
  predicate CompletedKept(before: map<RunId, JobRow>, after: map<RunId, JobRow>) {
    forall run | run in before && before[run].status == Completed && run in after ::
      && after[run].status == Completed
      && after[run].conclusion == before[run].conclusion
      && after[run].summary == before[run].summary
  }

  lemma LiveRunsSubset(before: map<RunId, JobRow>, after: map<RunId, JobRow>, agent: AgentId)
    requires LiveRuns(after, agent) <= LiveRuns(before, agent)
    ensures |LiveRuns(after, agent)| <= |LiveRuns(before, agent)|
  {
    SubsetSize(LiveRuns(after, agent), LiveRuns(before, agent));
  }

  /** What any statement does to one row, except a dispatch making it live. */
  predicate RowStep(before: JobRow, after: JobRow) {
    && (RowOk(before) ==> RowOk(after))
    && (before.status == Completed ==>
          after.status == Completed && after.conclusion == before.conclusion && after.summary == before.summary)
    && (after.Live() ==> before.Live() && after.agent == before.agent)
  }

  predicate TableStep(before: map<RunId, JobRow>, after: map<RunId, JobRow>) {
    forall run | run in after ::
      if run in before then RowStep(before[run], after[run]) else RowOk(after[run]) && !after[run].Live()
  }

  lemma RowStepEach(j: JobRow, e: RowEvent)
    ensures RowStep(j, RowAfter(j, e))
  {
  }

  lemma RowStepLeaving(j: JobRow, agent: AgentId, conclusion: Conclusion, summary: string)
    ensures RowStep(j, Finished(j, agent, conclusion, summary)) && RowStep(j, Requeued(j, summary))
  {
  }

  lemma RowStepSame(j: JobRow)
    ensures RowStep(j, j)
  {
  }

  lemma SetIsTableStep(jobs: map<RunId, JobRow>, run: RunId, j: JobRow)
    requires if run in jobs then RowStep(jobs[run], j) else RowOk(j) && !j.Live()
    ensures TableStep(jobs, jobs[run := j])
  {
    forall other | other in jobs ensures RowStep(jobs[other], jobs[other]) { RowStepSame(jobs[other]); }
    hide RowStep;
  }

  lemma DropIsTableStep(jobs: map<RunId, JobRow>, runs: set<RunId>)
    ensures TableStep(jobs, jobs) && TableStep(jobs, jobs - runs)
  {
    forall other | other in jobs ensures RowStep(jobs[other], jobs[other]) { RowStepSame(jobs[other]); }
    hide RowStep;
  }

  lemma ApplyKeepsShape(s: Server, e: Event)
    requires s.jobs.Keys <= s.repositories.Keys
    ensures var t := Apply(s, e);
            && t.repositories == s.repositories && t.capacities == s.capacities
            && t.jobs.Keys <= s.repositories.Keys
            && (forall run | run in s.jobs && e != Prune(run) :: run in t.jobs)
  {
    hide Acquire, Release, ReleaseForRun, RowAfter, Finished, Requeued, Enqueued, Dispatched;
  }

  lemma ApplyIsTableStep(s: Server, e: Event)
    requires !e.Dispatch?
    ensures TableStep(s.jobs, Apply(s, e).jobs)
  {
    hide Acquire, Release, ReleaseForRun, RowAfter, Finished, Requeued, TableStep, RowStep;
    DropIsTableStep(s.jobs, {});
    match e
    case Enqueue(run, needs, now) =>
      if run !in s.jobs { SetIsTableStep(s.jobs, run, Enqueued(needs, now)); }
    case OnRow(run, row) =>
      if run in s.jobs {
        RowStepEach(s.jobs[run], row);
        SetIsTableStep(s.jobs, run, RowAfter(s.jobs[run], row));
      }
    case JobFinished(agent, run, c, text) =>
      if run in s.jobs {
        RowStepLeaving(s.jobs[run], agent, c, text);
        SetIsTableStep(s.jobs, run, Finished(s.jobs[run], agent, c, text));
      }
    case Requeue(run, text) =>
      if run in s.jobs {
        RowStepLeaving(s.jobs[run], "", Failure, text);
        SetIsTableStep(s.jobs, run, Requeued(s.jobs[run], text));
      }
    case Prune(run) => DropIsTableStep(s.jobs, {run});
    case _ =>
  }

  lemma DispatchIsStep(s: Server, e: Event)
    requires e.Dispatch? && forall run | run in s.jobs :: RowOk(s.jobs[run])
    ensures var t := Apply(s, e);
            t == s || (&& t.jobs == s.jobs[e.run := t.jobs[e.run]] && e.run in s.jobs && s.jobs[e.run].status == Queued
                       && RowOk(t.jobs[e.run]) && t.jobs[e.run].LiveOn(e.agent)
                       && |LiveRuns(s.jobs, e.agent)| < CapacityOf(s, e.agent))
  {
  }

  lemma ApplyKeepsCapacity(s: Server, e: Event, agent: AgentId)
    requires JobsOk(s)
    ensures |LiveRuns(Apply(s, e).jobs, agent)| <= CapacityOf(s, agent)
  {
    ApplyKeepsShape(s, e);
    if e.Dispatch? { DispatchIsStep(s, e); } else { ApplyIsTableStep(s, e); }
    hide Apply;
    var t := Apply(s, e);
    if t != s && e.Dispatch? && e.agent == agent {
      assert LiveRuns(t.jobs, agent) == LiveRuns(s.jobs, agent) + {e.run};
    } else {
      LiveRunsSubset(s.jobs, t.jobs, agent);
    }
  }

  lemma ApplyKeepsJobs(s: Server, e: Event)
    requires JobsOk(s)
    ensures JobsOk(Apply(s, e)) && CompletedKept(s.jobs, Apply(s, e).jobs)
    ensures forall run | run in s.jobs && e != Prune(run) :: run in Apply(s, e).jobs
  {
    ApplyKeepsShape(s, e);
    if e.Dispatch? { DispatchIsStep(s, e); } else { ApplyIsTableStep(s, e); }
    hide Apply;
    forall agent ensures |LiveRuns(Apply(s, e).jobs, agent)| <= CapacityOf(Apply(s, e), agent) {
      ApplyKeepsCapacity(s, e, agent);
    }
  }

  /** Attempts, ownership, deadlines and capacity over every run of the workspace. */
  lemma {:induction false} JobsOkAlways(s: Server, events: seq<Event>)
    requires Fresh(s)
    ensures JobsOk(Run(s, events))
  {
    if events == [] {
      forall agent ensures |LiveRuns(s.jobs, agent)| <= CapacityOf(s, agent) {
        assert LiveRuns(s.jobs, agent) == {};
      }
    } else {
      JobsOkAlways(s, events[..|events| - 1]);
      ApplyKeepsJobs(Run(s, events[..|events| - 1]), events[|events| - 1]);
    }
  }

  /** A run completed at some moment has the same outcome at every later moment it is still stored. */
  lemma {:induction false} OutcomeIsFinal(s: Server, events: seq<Event>, later: seq<Event>, run: RunId)
    requires Fresh(s)
    requires run in Run(s, events).jobs && Run(s, events).jobs[run].status == Completed
    requires Prune(run) !in later
    ensures var was := Run(s, events).jobs[run];
            && run in Run(s, events + later).jobs
            && var now := Run(s, events + later).jobs[run];
               now.status == Completed && now.conclusion == was.conclusion && now.summary == was.summary
    decreases |later|
  {
    if later == [] {
      assert events + later == events;
    } else {
      var last := |later| - 1;
      OutcomeIsFinal(s, events, later[..last], run);
      assert (events + later)[..|events + later| - 1] == events + later[..last];
      JobsOkAlways(s, events + later[..last]);
      var m := Run(s, events + later[..last]);
      ApplyKeepsJobs(m, later[last]);
      hide Apply, JobsOk, Fresh;
    }
  }
}
