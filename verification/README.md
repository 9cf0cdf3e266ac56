# GitZero: verified model of the control plane, the workflow compiler and the agent core

GitZero runs GitHub Actions workflows on self-hosted agents. A control plane (one durable object per
workspace) queues runs, hands them to agents over WebSockets, grants concurrency leases and mirrors
deployments to GitHub. Agents compile workflows, evaluate expressions and keep a workflow cache.

This project models six parts of that system and proves what they promise:

* **The concurrency-group protocol** (`Jobs`, `Leases`, `Events`, `JobMachine`, `LeaseTable`, `LeaseQueue`,
  `LeaseWitnesses`, `LeaseWire`, `LeaseNotices`, `Workspace`, `AgentLeases`, `ConcurrencyProtocol`,
  `LeaseAnswers`, `LeaseReturns`, `JobHistory`). The lease table, the job table and the
  sockets are one state; every handler, up to its next suspension, is one step; agents hold their own state
  behind FIFO channels that lose what is in flight when they close. The theorems range over every
  interleaving: mutual exclusion as agents see it, no overtaking, no stranded waiter, the exact discipline the
  queue order needs, that every agent concerned is told what becomes of its requests, that no request stays
  without an answer and no lease is lost, and what a job row stores, told from the events alone.
* **The reusable-workflow linker** (`Names`, `Dependencies`, `Plans`, `Splicing`, `LinkOrder`, `LinkReach`,
  `LinkedPlans`, `Linker`, `LinkerRun`, `LinkTheorems`, `LinkCollisions`, `Scopes`, `LinkPermissions`,
  `LinkAliases`, `LinkLimits`). A recursive compiler
  replaces each call by gate, renamed jobs and result. Every job of a linked plan is traced to its origin; from
  that follow soundness of the dependency graph, exact dependency order, bracketing of concurrency scopes and
  the meet of permissions and the scoping of names, at every nesting depth; and linking succeeds exactly when the
  chains of calls allow it.
* **Matrix expansion and step flattening** (`Matrix`, `Steps`), **the dispatcher** (`Dispatcher`, `Compatibility`) and **the
  deployment synchroniser** (`Deployments`, `DeploymentHistory`).
* **Expressions and templates** (`Expressions`, `ExpressionLaws`, `AnalysisLaws`, `Templates`): the evaluator, the static analysis, the
  `${{ }}` scanner and the format function.
* **The workflow cache** (`Cache`): chunk coverage, eviction, commit.
* **The DER writer** (`Der`) that rewraps a PKCS #1 key, after sections 8.1.3 and 10.1 of ITU-T X.690 and
  section 5 of RFC 5208.

Code that the repository writes as objects and loops is a class or a method here, proved equal to a
specification function; the lemmas are about that function. `hide` statements keep definitions out of proofs
that do not need them.

Preconditions that stand for something the source takes for granted:

* `Linker.WorkflowOk` and `Linker.LibraryOk`: job ids contain no `::` and do not end in a colon, a called
  workflow has no job named `gate`, every call has at least one matrix combination. The source panics on a call
  without one: it looks up placeholders, and by `Linker.PlaceholdersExactly` there are none then. A matrix can
  come to that (`Matrix.EmptyExactly` says when, `Matrix.EverythingExcluded` is one). A ban on `::` alone would
  not do: by `Names.JoinsCollideExactly` two ids without `::` lead to equal joined ids if and only if they
  differ by one colon at the end, and `LinkCollisions.CollidingCalls` is a workflow with the calls `a` and `a:`
  that every check accepts although its plan holds two jobs of one id.
* `ConcurrencyProtocol.Unused`: request ids are random, so a new one occurs nowhere yet.
* `Cache.SizesFit`: only the budget theorem needs sizes that add up within 64 bits. Beyond that
  `Cache.LeavesTooMuchExactly` says when an accepted entry leaves the store above its budget, and
  `Cache.SaturationLeavesTooMuch` and `Cache.LargestBudgetNeverEvicts` are stores in which it does.

Four properties fail of the code and are proved with their exact conditions.

* Queue order (no overtaking, no stranded waiter). `LeaseQueue.AlwaysInOrderExactly`: it holds at every moment of
  a run if and only if no release, finish or requeue of the run frees a group in which a waiter that the
  promotion query cannot see is ahead of every waiter it could grant. The query sees waiters whose run is live on
  their agent, so the order holds in particular on runs that are `LeaseQueue.Disciplined`: no step ends a run that
  still has lease rows and no acquisition comes from a run that is over. Three handlers can break that
  discipline: a rejection does not release leases, an acquisition does not refuse a completed run, and a last
  initialization attempt that was overtaken can still complete a run that is already live. `LeaseWitnesses` holds
  whole runs that end with a waiter and no holder. Mutual exclusion needs none of this.
* A deployment row marked clean need not be what GitHub shows for its deployment. `Deployments.CleanAgreesExactly`:
  throughout a run it is if and only if no attempt writes an old wish behind a clean row and none completes while
  GitHub shows something else. There are three ways to complete so: another attempt has written over it, a retry
  took an outdated status for its own and wrote nothing, or the attempt wrote to a second deployment.
  `Deployments.ExpiredAttemptOverwrites`, `Deployments.OvertakenAttemptFinishes`,
  `Deployments.OutdatedStatusRecovered` and `Deployments.SecondDeploymentFinishes` are runs, the third one without any
  overlap; in `Deployments.HarmlessOverlap` overlapping does no harm. `Deployments.CleanMeansGithubAgrees`: without overlap and without such a retry all is well.
* An agent that asks for a lease need not get an answer. `LeaseAnswers.AlwaysAttendedExactly`: every request of an
  open connection is on its way, in a row or answered at every moment of a run if and only if no acquisition
  arrives for a run its agent does not own; the handler throws then, and `LeaseAnswers.ForgottenRun` is such a run.
* A granted lease can be lost. `LeaseReturns.AlwaysAccountedExactly`: every row of an open connection is known to its
  agent or on its way back if and only if no lease is dropped while the outbound channel is full;
  `LeaseReturns.LostRun` is a run in which one is, and its row stays until the run ends.

## Model

| member | source | states |
|---|---|---|
| ConcurrencyProtocol.MutualExclusion | apps/control-plane/src/workspace.ts:1206-1514 | over every interleaving of handlers, agent steps and messages, a granted, unreleased, uncancelled request with no cancellation in flight has an active row, and two such requests for one group are one request of one connection |
| ConcurrencyProtocol.InvariantAlways | crates/gitzero-agent/src/concurrency.rs:52-247 | the global invariant (table, wiring, matching rows, entitlements backed by active rows) in every reachable state |
| ConcurrencyProtocol.TakeKeeps | apps/control-plane/src/workspace.ts:1516-1643 | every kind of step, lost connections included, keeps the global invariant |
| ConcurrencyProtocol.HoldingIsProtected | crates/gitzero-agent/src/concurrency.rs:113-131 | a lease an agent uses on an open connection, with no cancellation under way, is one of the protected requests |
| ConcurrencyProtocol.UncontendedIsGranted | apps/control-plane/src/workspace.ts:1252-1356 | a request for an idle group on a quiet connection is granted and held after its four protocol steps |
| ConcurrencyProtocol.ServerReceivesKeeps | apps/control-plane/src/workspace.ts:1622-1643 | delivering an acquire or release message to the workspace keeps the global invariant |
| ConcurrencyProtocol.SpontaneousKeeps | apps/control-plane/src/workspace.ts:2060-2160 | job events, requeues and expiries keep the global invariant |
| ConcurrencyProtocol.SentMeans | apps/control-plane/src/workspace.ts:1488-1514 | what a new message in an outbox says about the lease rows |
| ConcurrencyProtocol.RunReleased | apps/control-plane/src/workspace.ts:1397-1425 | releasing a run tells the agents of all its rows and grants only rows that are active |
| LeaseNotices.ApplyNoticed | apps/control-plane/src/workspace.ts:1206-1514 | whatever event happens: a row that goes or is marked is cancelled on its connected agent's wire, a row that turns active is granted there, no other row changes, and every message sent is true of the rows afterwards; only the agent that gives a lease back hears nothing of it |
| LeaseNotices.AcquireNoticed | apps/control-plane/src/workspace.ts:1323-1356 | the same of an acquisition: the waiters it displaces and the holder it cancels are told so |
| LeaseNotices.AcquireAnswered | apps/control-plane/src/workspace.ts:1206-1365 | an agent that asks on its open socket is left waiting in a row of its own, or is sent a grant or a refusal |
| LeaseNotices.AcquisitionIs | apps/control-plane/src/workspace.ts:1252-1321 | when a new request is refused, and row by row what one that is not refused leaves of the table |
| LeaseNotices.ReleaseIs | apps/control-plane/src/workspace.ts:1367-1395 | only the agent that has a lease gives it back, and only for its run; otherwise nothing changes at all |
| LeaseAnswers.NoticedAlways | apps/control-plane/src/workspace.ts:1516-1643 | in every run of the protocol each step of the workspace tells the agents concerned what becomes of their requests, and nothing else |
| LeaseAnswers.AttendsExactly | apps/control-plane/src/workspace.ts:1622-1634 | a step leaves every undecided request of an open connection on its way, in a row or answered, if and only if it does not drop an acquisition for a run the agent does not own |
| LeaseAnswers.AlwaysAttendedExactly | apps/control-plane/src/workspace.ts:1622-1634 | every moment of a run leaves no request without a row, a grant or a cancellation, if and only if no step of the run drops an acquisition |
| LeaseAnswers.ForgottenRun | apps/control-plane/src/workspace.ts:2282-2291 | a run of three steps after which an agent waits for a decision nobody will send |
| LeaseReturns.AccountsExactly | crates/gitzero-agent/src/concurrency.rs:190-269 | a step leaves every lease row of an open connection known to its agent or on its way back, if and only if it does not drop a lease into a full channel |
| LeaseReturns.AlwaysAccountedExactly | crates/gitzero-agent/src/concurrency.rs:190-269 | the same at every moment of a run, if and only if no drop of the run loses a lease |
| LeaseReturns.LostRun | crates/gitzero-agent/src/concurrency.rs:250-269 | a whole run from an empty workspace that loses a granted lease |
| LeaseQueue.TableOkAlways | apps/control-plane/src/workspace.ts:1252-1321 | in every run of the workspace, disciplined or not: unique sequences, at most one held row per group, at most 100 waiting rows |
| LeaseQueue.OrderKeptExactly | apps/control-plane/src/workspace.ts:1367-1486 | an event keeps every group in order (a holder wherever something waits, ahead of every waiter) if and only if it frees no group that passes over an invisible waiter |
| LeaseQueue.AlwaysInOrderExactly | apps/control-plane/src/workspace.ts:1367-1486 | every moment of a run is in order if and only if no event of the run strands a waiter |
| LeaseQueue.ReleaseOrdersExactly | apps/control-plane/src/workspace.ts:1367-1395 | the exact condition for releasing one lease |
| LeaseQueue.ReleaseForRunOrdersExactly | apps/control-plane/src/workspace.ts:1397-1425 | the exact condition for releasing a run, over all the groups it frees |
| LeaseQueue.InOrderAlways | apps/control-plane/src/workspace.ts:1367-1486 | in particular disciplined runs are in order at every moment |
| LeaseQueue.DisciplineIsExact | apps/control-plane/src/workspace.ts:1575-1634 | a step keeps every lease's run live on its agent if and only if it is disciplined |
| LeaseQueue.PromotionOrdersExactly | apps/control-plane/src/workspace.ts:1427-1486 | a promotion leaves its group in order if and only if no waiter invisible to the query is passed over |
| LeaseQueue.DeadWaiterIsStranded | apps/control-plane/src/workspace.ts:1440-1455 | a waiter whose run is not live is left with nobody to wait for when the holder releases |
| LeaseQueue.RejectionStrandsWaiter | apps/control-plane/src/workspace.ts:1575-1621 | rejecting a run whose lease waits, then releasing the holder, strands the waiter |
| LeaseQueue.LateInitializationFailureStrandsWaiter | apps/control-plane/src/workspace.ts:905-922 | so does an overtaken last initialization attempt that fails while its run is live |
| LeaseWitnesses.RejectionRun | apps/control-plane/src/workspace.ts:1575-1621 | a whole run from an empty workspace that ends with a waiter and no holder, by rejection |
| LeaseWitnesses.LateInitializationFailureRun | apps/control-plane/src/workspace.ts:905-922 | the same by the eighth initialization attempt, which fails after the ninth has succeeded and the run was assigned |
| LeaseQueue.ReleaseForRunEmpties | apps/control-plane/src/workspace.ts:1397-1425 | a released run keeps no row, and other rows only leave or turn active |
| LeaseQueue.AcquireOrders | apps/control-plane/src/workspace.ts:1206-1365 | an acquisition keeps the queue order of every group |
| LeaseTable.PromoteMeaning | apps/control-plane/src/workspace.ts:1427-1486 | the promotion loop in closed form: the first waiter with an open socket is granted, unreachable ones ahead of it are deleted |
| LeaseTable.PromoteEffect | apps/control-plane/src/workspace.ts:1427-1486 | who leaves, who becomes active and who is untouched in a promotion |
| LeaseTable.AcquireEffect | apps/control-plane/src/workspace.ts:1206-1365 | the rows after an acquisition: displaced waiters, cancelled holder, new row, or no change when refused |
| LeaseTable.AskingAgainChangesNothing | apps/control-plane/src/workspace.ts:1212-1238 | a repeated acquisition changes no row and takes no sequence number |
| Basics.TrimSplits | apps/control-plane/src/workspace.ts:1243 | trimming a group name removes blanks at both ends and nothing else |
| Basics.TrimExactly | crates/gitzero-expression/src/lib.rs:954 | trimming text out of blanks gives the text |
| Compatibility.SameKeyExactly | apps/control-plane/src/workspace.ts:1241-1244 | two leases are of one group if and only if repository and trimmed group name agree up to case |
| Workspace.Workspace.AcquireConcurrency | apps/control-plane/src/workspace.ts:1206-1365 | the acquisition handler leaves the tables and outboxes its meaning says, which `LeaseNotices.AcquireNoticed` and `LeaseNotices.AcquisitionIs` describe |
| Workspace.Workspace.PromoteConcurrency | apps/control-plane/src/workspace.ts:1427-1486 | the promotion loop ends, because every failed send removes a waiter, in the state its meaning says |
| Workspace.Workspace.ReleaseConcurrency | apps/control-plane/src/workspace.ts:1367-1395 | the release handler: the row goes, and its group is promoted if the row was held |
| Workspace.Workspace.ReleaseConcurrencyForRun | apps/control-plane/src/workspace.ts:1397-1425 | all rows of a run go, their agents are told, freed groups are promoted once each |
| Workspace.Workspace.SelectOrdered | apps/control-plane/src/workspace.ts:1253-1263 | ORDER BY sequence as repeated selection of the least row |
| Workspace.Workspace.JobIsFinished | apps/control-plane/src/workspace.ts:2060-2104 | a finished run loses its leases before its row is completed, with the outcome `JobHistory.HistoryTold` tells |
| Workspace.Workspace.RequeueRun | apps/control-plane/src/workspace.ts:2134-2160 | a lost run loses its leases, then is queued again or completed after its third attempt |
| Workspace.Workspace.JobIsStarted | apps/control-plane/src/workspace.ts:1558-1574 | only an assigned run of that agent starts running |
| Workspace.Workspace.ExtendLease | apps/control-plane/src/workspace.ts:1522-1545 | a heartbeat extends exactly the leases the agent still owns and reports the others |
| Workspace.Workspace.JobIsRejected | apps/control-plane/src/workspace.ts:1575-1621 | a justified rejection requeues the run with its requirements and gives the attempt back |
| JobMachine.JobsOkAlways | apps/control-plane/src/workspace.ts:2134-2280 | over every run: attempts, ownership, deadlines and outcome fit the status, and no agent owns more live runs than its capacity |
| JobMachine.OutcomeIsFinal | apps/control-plane/src/workspace.ts:2667-2683 | status, conclusion and summary of a completed run never change |
| JobMachine.ApplyKeepsCapacity | apps/control-plane/src/workspace.ts:2250-2280 | no event gives an agent more live runs than its capacity |
| JobHistory.HistoryTold | apps/control-plane/src/workspace.ts:2060-2160 | over every run, told from the events alone: the outcome of a completed run is that of the one event that ended it, each lease deadline is 60 s after the last dispatch, start or heartbeat, and status, agent, attempts, requirements, initialization and expiry are what the last events of their kind made them |
| JobHistory.EventMoves | apps/control-plane/src/workspace.ts:2060-2160 | the same for one event: which field of a row moves, and to what |
| JobHistory.RemovedWasCompleted | apps/control-plane/src/workspace.ts:2709-2748 | only a completed run is ever removed |
| AgentLeases.ConcurrencyClient.HandleGranted | crates/gitzero-agent/src/concurrency.rs:133-148 | a grant marks the request and decides a waiting acquisition once |
| AgentLeases.ConcurrencyClient.HandleCancelled | crates/gitzero-agent/src/concurrency.rs:150-169 | a cancellation signals a granted request and refuses an undecided one |
| AgentLeases.ConcurrencyClient.CancelEverything | crates/gitzero-agent/src/concurrency.rs:171-188 | closing drains the table, signals every request and refuses the undecided ones, in any order |
| AgentLeases.ConcurrencyClient.AbandonRequest | crates/gitzero-agent/src/concurrency.rs:190-203 | giving up removes the request and sends its release |
| AgentLeases.ConcurrencyClient.ReleaseInner | crates/gitzero-agent/src/concurrency.rs:229-247 | a lease is released at most once, with one message |
| AgentLeases.ConcurrencyClient.Drop | crates/gitzero-agent/src/concurrency.rs:250-269 | dropping an unreleased lease, with the lock or the channel possibly unavailable |
| Dependencies.ValidateGraph | crates/gitzero-workflow/src/lib.rs:2564-2620 | accepts exactly the closed acyclic graphs; success yields a topological order, each error names a real defect |
| Dependencies.CheckNeeds | crates/gitzero-workflow/src/lib.rs:2571-2588 | the first pass accepts exactly graphs with known needs and no self need |
| Dependencies.Visitor.Visit | crates/gitzero-workflow/src/lib.rs:2590-2619 | the recursive search terminates on the unmarked jobs and reports only real cycles |
| Dependencies.OrderedIsAcyclic | crates/gitzero-workflow/src/lib.rs:2590-2619 | a topological order of all jobs rules out cycles and unknown needs |
| LinkOrder.SplicedAccepted | crates/gitzero-workflow/src/lib.rs:810-828 | splicing closed acyclic called plans into a closed acyclic caller plan gives a closed acyclic plan |
| LinkOrder.SplicedSameNeeds | crates/gitzero-workflow/src/lib.rs:1418-1430 | jobs of one base id still share their needs after linking |
| LinkReach.CallerOrderExact | crates/gitzero-workflow/src/lib.rs:1360-1501 | among the caller's own jobs linking neither loses nor adds a dependency |
| LinkReach.InnerOrderExact | crates/gitzero-workflow/src/lib.rs:1418-1478 | inside an invocation the order is exactly the called plan's |
| LinkReach.GateBelowResultAbove | crates/gitzero-workflow/src/lib.rs:1455-1501 | every expanded job needs its gate and is transitively needed by its result |
| LinkReach.GateNeedsCall | crates/gitzero-workflow/src/lib.rs:1393-1402 | the gate needs exactly what the call needed |
| LinkReach.GateNeverReturns | crates/gitzero-workflow/src/lib.rs:1393-1402 | nothing a gate waits for waits for a job behind it |
| LinkReach.ReachProjects | crates/gitzero-workflow/src/lib.rs:810-828 | every dependency of the linked plan stays in one call or follows a dependency of the caller |
| LinkedPlans.SplicedOk | crates/gitzero-workflow/src/lib.rs:1360-1501 | a linked plan is sound again, so it can be called in turn |
| LinkedPlans.SplicedRefers | crates/gitzero-workflow/src/lib.rs:1404-1494 | every need, alias and result reference of a linked plan names one of its jobs, so every lookup is defined |
| LinkedPlans.SplicedRooted | crates/gitzero-workflow/src/lib.rs:1404-1494 | every namespaced job is transitively needed by the caller job its id starts with |
| Splicing.OriginExists | crates/gitzero-workflow/src/lib.rs:810-825 | every job of a linked plan is kept, a template, a gate, a renamed job, a result or a combined result |
| Splicing.OriginMakes | crates/gitzero-workflow/src/lib.rs:810-825 | and each of those is in the plan |
| Splicing.NamesAreUnique | crates/gitzero-workflow/src/lib.rs:1404-1424 | base ids of a linked plan tell the origins apart |
| Names.JoinInjective | crates/gitzero-workflow/src/lib.rs:1404-1417 | prefixes without `::` and without a colon at the end make namespaced ids uniquely readable |
| Splicing.TellApartExactly | crates/gitzero-workflow/src/lib.rs:1404-1424 | for ids without `::`, the base ids of a linked plan tell its jobs apart if and only if no two calls differing by a colon have jobs whose rests differ by that colon |
| Names.InvocationsSeparate | crates/gitzero-workflow/src/lib.rs:786-800 | ids of different matrix invocations never meet |
| Names.JoinsCollideExactly | crates/gitzero-workflow/src/lib.rs:1404-1417 | two ids without `::` can be joined to one id if and only if they differ by one colon at the end |
| LinkCollisions.CollidingCalls | crates/gitzero-workflow/src/lib.rs:654-828 | a workflow with two such calls passes every check, and its plan holds two different jobs with one id |
| LinkerRun.WorkflowLinker.CompileLinkedWorkflow | crates/gitzero-workflow/src/lib.rs:654-828 | the recursive compiler with its call stack and its set of called workflows returns what linking means, errors included |
| LinkerRun.WorkflowLinker.LinkOne | crates/gitzero-workflow/src/lib.rs:697-757 | the checks around one call in their order: count of workflows, depth, cycle, missing workflow, empty plan, templates |
| LinkerRun.ExpandReusableCall | crates/gitzero-workflow/src/lib.rs:1360-1501 | the expansion loop, with every alias looked up in the table, builds gate, renamed jobs and result |
| LinkerRun.ExpandCall | crates/gitzero-workflow/src/lib.rs:758-807 | a call becomes a template, one expansion, or one per combination and their combined result |
| LinkerRun.ReplaceCalls | crates/gitzero-workflow/src/lib.rs:810-825 | the drain loop replaces each call's first placeholder and drops the others |
| LinkerRun.ValidateDependencies | crates/gitzero-workflow/src/lib.rs:2564-2620 | the check on planned jobs accepts exactly closed acyclic plans |
| LinkerRun.CallsSucceed | crates/gitzero-workflow/src/lib.rs:696-828 | once every call is linked the level succeeds |
| LinkLimits.LinkedExactly | crates/gitzero-workflow/src/lib.rs:654-828 | linking succeeds if and only if the needs of the workflow are closed and acyclic, every chain of calls stays within ten levels, comes back to no workflow it is in and ends at a stored workflow that has jobs and closed acyclic needs, a matrix of expressions is one template, and at most fifty workflows are called; it has then called exactly those |
| LinkLimits.MayCallEach | crates/gitzero-workflow/src/lib.rs:697-757 | a workflow may make its chains of calls exactly when each of its definitions may make those that begin with it |
| LinkLimits.TemplatesExactly | crates/gitzero-workflow/src/lib.rs:758-775 | a call with an expression matrix is refused exactly when it has more or fewer than one placeholder |
| LinkLimits.EmptyExactly | crates/gitzero-workflow/src/lib.rs:740-757 | a linked plan is empty exactly when nothing was planned |
| LinkTheorems.LinkingNeverBreaksGraph | crates/gitzero-workflow/src/lib.rs:826 | at every depth the final dependency check of a level cannot fail |
| LinkTheorems.LinkedPlanIsSound | crates/gitzero-workflow/src/lib.rs:654-828 | every linked plan is closed and acyclic with all references defined |
| LinkTheorems.LinkedOrderExact | crates/gitzero-workflow/src/lib.rs:654-828 | the order of a workflow's own jobs is the order of its source, whatever its calls expand to |
| LinkTheorems.LinkedCallExact | crates/gitzero-workflow/src/lib.rs:654-828 | for each invocation: exact inner order, gate below, result above, gate needs what the call needed |
| LinkTheorems.LinkedBracketed | crates/gitzero-workflow/src/lib.rs:1374-1494 | every linked plan is well bracketed at every depth, whatever else the library holds; a call with an expression matrix is one job of its level |
| LinkAliases.LinkedAliases | crates/gitzero-workflow/src/lib.rs:1425-1478 | in every linked plan, however deep, a name a job wrote itself is the copy in its own invocation, any other is what the innermost enclosing call that needs it means by it, and there are no more; each job keeps what its definition says, gates hold and results free the concurrency of their call and of the called workflow |
| LinkAliases.LinkedResults | crates/gitzero-workflow/src/lib.rs:1480-1501 | at every depth a result names exactly the jobs of its own invocation that a caller can name |
| LinkAliases.AliasesDeeper | crates/gitzero-workflow/src/lib.rs:1431-1454 | one invocation: the aliases of the called job, renamed, and behind them the needs of the call |
| Scopes.SplicedBracketed | crates/gitzero-workflow/src/lib.rs:1374-1494 | each scope is acquired once by a gate and released once by a result in reverse order, with every job listing it in between |
| Scopes.ScopeHasBrackets | crates/gitzero-workflow/src/lib.rs:1374-1494 | each scope mentioned in a bracketed plan has a gate acquiring it and a result releasing it, with the jobs listing it in between |
| Scopes.OwnScopeOk | crates/gitzero-workflow/src/lib.rs:1374-1402 | the caller's and the called workflow's scope of one invocation are so bracketed |
| Scopes.InnerScopeOk | crates/gitzero-workflow/src/lib.rs:1436-1449 | scopes of the called plan stay bracketed under their new ids |
| LinkPermissions.IntersectIsMinimum | crates/gitzero-workflow/src/lib.rs:331-347 | intersecting is the pointwise minimum of none, read and write, with read and write disjoint |
| LinkPermissions.LinkedPermitted | crates/gitzero-workflow/src/lib.rs:1419-1420 | every job of a linked plan has exactly the minimum of the permissions declared along a call path to it |
| LinkPermissions.LinkedPermissionsExact | crates/gitzero-workflow/src/lib.rs:1419-1420 | along whichever call path its id names |
| LinkPermissions.OneCallPath | crates/gitzero-workflow/src/lib.rs:1408-1423 | a job id names one call path only |
| Names.InvocationText | crates/gitzero-workflow/src/lib.rs:786-800 | a single invocation has the call's id, several have it with `::matrix-` and a decimal number from one |
| Matrix.ExpandMatrix | crates/gitzero-workflow/src/lib.rs:2366-2477 | expansion returns the declarative meaning with at most 256 rows, or the error that applies |
| Matrix.ExpandDimensions | crates/gitzero-workflow/src/lib.rs:2419-2441 | the early exit fires exactly when the whole product exceeds 256 rows |
| Matrix.ProductHoldsChoices | crates/gitzero-workflow/src/lib.rs:2419-2441 | the product holds exactly the rows choosing one value per dimension |
| Matrix.CrossAt | crates/gitzero-workflow/src/lib.rs:2424-2441 | the order of the product: earlier dimensions vary slower |
| Matrix.RemainingAre | crates/gitzero-workflow/src/lib.rs:2443-2447 | exclusion removes exactly the rows some exclude matches |
| Matrix.OriginalKept | crates/gitzero-workflow/src/lib.rs:2449-2464 | includes never lose or change an original entry |
| Matrix.DecidedValue | crates/gitzero-workflow/src/lib.rs:2449-2464 | the last compatible include that has a key decides its value |
| Matrix.AddedIsDecided | crates/gitzero-workflow/src/lib.rs:2449-2464 | every added key comes from such an include |
| Matrix.EmptyExactly | crates/gitzero-workflow/src/lib.rs:2419-2477 | a matrix comes to no combination if and only if every row is excluded and nothing included |
| Matrix.EverythingExcluded | crates/gitzero-workflow/src/lib.rs:2443-2447 | a matrix with one value, excluded, comes to none without an error |
| Linker.PlaceholdersExactly | crates/gitzero-workflow/src/lib.rs:680-697 | a call has placeholders to look up if and only if its matrix has a combination |
| Matrix.ExtrasAre | crates/gitzero-workflow/src/lib.rs:2465-2467 | the additional rows are the includes that suit no original row |
| Matrix.ExcludedExactly | crates/gitzero-workflow/src/lib.rs:2443-2447 | a row is excluded exactly when an exclude is part of it |
| Matrix.IncludesAlone | crates/gitzero-workflow/src/lib.rs:2420-2424 | without dimensions the includes are the whole matrix |
| Matrix.CompatibleExactly | crates/gitzero-workflow/src/lib.rs:2455-2459 | an include suits an original row exactly when the order of merging them does not matter |
| Steps.StepCompiler.CompileSteps | crates/gitzero-workflow/src/lib.rs:1567-1598 | succeeds if and only if the fields of every step go together, ids differ ignoring case and targets are known in time; then the list is the source steps in order with their ids, kinds and looked-up targets |
| Steps.StepCompiler.CompileControl | crates/gitzero-workflow/src/lib.rs:1725-1799 | a control step waits for, cancels or awaits all as written, alone in its step, with its targets looked up |
| Steps.StepCompiler.CompileParallel | crates/gitzero-workflow/src/lib.rs:1636-1722 | a parallel block becomes its entries in order, all in the background, then one wait for exactly them, and fails exactly if it is empty, mixed with other fields, or an entry does not fit |
| Steps.StepCompiler.Resolve | crates/gitzero-workflow/src/lib.rs:1926-1947 | targets resolve if and only if each names an earlier named background step, ignoring case |
| Steps.StepCompiler.Append | crates/gitzero-workflow/src/lib.rs:1910-1924 | registration fails if and only if the id is taken, ignoring case |
| Steps.StepCompiler.CompileOrdinary | crates/gitzero-workflow/src/lib.rs:1801-1908 | an ordinary step keeps its id, condition, kind and background setting, and fails exactly if its fields clash or its id is taken |
| Steps.WellFormedGrows | crates/gitzero-workflow/src/lib.rs:1567-1908 | appending a fresh step with known targets keeps the list well formed |
| Steps.ControlAllowedExactly | crates/gitzero-workflow/src/lib.rs:1725-1799 | a control step is accepted exactly when it is one control field, and besides it no more than an id, a name and an error setting |
| Steps.ParallelAllowedExactly | crates/gitzero-workflow/src/lib.rs:1636-1722 | a parallel block is accepted exactly when it has no other field, and its entries, at least one, are foreground work steps |
| Steps.WorkAllowedExactly | crates/gitzero-workflow/src/lib.rs:1813-1840 | a work step is accepted exactly when it is a command without inputs or an action without shell and directory |
| Steps.StepsNumbered | crates/gitzero-workflow/src/lib.rs:1801-1804 | a step without an id is numbered by its place among all compiled steps |
| Steps.CheckoutIs | crates/gitzero-workflow/src/lib.rs:1840-1870 | a checkout is the checkout action at some version |
| Dispatcher.RunDispatcher.Select | apps/control-plane/src/workspace.ts:2162-2183 | a pass picks an oldest run somebody can take and a least loaded agent for it, and nothing only if no pair fits |
| Dispatcher.RunDispatcher.TryDispatch | apps/control-plane/src/workspace.ts:2162-2248 | whatever other handlers do between passes, each pass chooses rightly and a normal return leaves no dispatchable pair; undisturbed, only waiting runs change, within announced parallelism |
| Dispatcher.LeastLoadedCompatibleAgent | apps/control-plane/src/workspace.ts:3002-3030 | the loop returns a compatible agent no other precedes, or none exists |
| Dispatcher.BetterIsPrecedes | apps/control-plane/src/workspace.ts:3013-3026 | the comparison by cross multiplication is the lexicographic order by load ratio, runs, connection time and id |
| Dispatcher.LeastIsUnique | apps/control-plane/src/workspace.ts:3002-3030 | the choice does not depend on the order of the candidates |
| Dispatcher.AvailableAgents | apps/control-plane/src/workspace.ts:2250-2280 | candidates are exactly the open, introduced, not draining, macOS-capable agents with room |
| Dispatcher.SelectQueued | apps/control-plane/src/workspace.ts:2167-2171 | the queue lists exactly the initialized queued runs, oldest first |
| Dispatcher.PassIsDispatchEvent | apps/control-plane/src/workspace.ts:2184-2192 | a pass is a dispatch event whose guard holds |
| Compatibility.SatisfiesMeans | apps/control-plane/src/workspace.ts:2973-3000 | an agent is compatible exactly when, up to case, it is in each required group and announces every required label, but for a single hosted macOS label without a group |
| Compatibility.ChosenMeets | apps/control-plane/src/workspace.ts:2162-2192 | whoever is given a run meets all its requirements, is open, announces macOS, is not draining and has room |
| Compatibility.ChosenIsLeastLoaded | apps/control-plane/src/workspace.ts:3002-3030 | nobody who could take the run uses a smaller share of its capacity; ties go by runs, connection time and id |
| Compatibility.UnmetStaysQueued | apps/control-plane/src/workspace.ts:2162-2183 | a run with a requirement no agent with room meets is given to nobody |
| Compatibility.MissingLabelRulesOut | apps/control-plane/src/workspace.ts:2993 | a single missing label rules an agent out |
| Compatibility.AskingLessKeeps | apps/control-plane/src/workspace.ts:2973-2994 | dropping a label or a group, or writing one in another case, never makes an agent incompatible |
| Compatibility.AnnouncingMoreKeeps | apps/control-plane/src/workspace.ts:2977 | an agent that announces more stays compatible |
| Deployments.NoUpdateLost | apps/control-plane/src/workspace.ts:2372-2477 | over every interleaving of changes and overlapping attempts: clean means synced to the desired state and URL, and a retry time is missing exactly when clean |
| Deployments.GithubIdIsFinal | apps/control-plane/src/workspace.ts:2403-2409 | a stored GitHub deployment id never changes while its row is stored |
| Deployments.DirtyIsRetried | apps/control-plane/src/workspace.ts:2374-2389 | whatever is not clean is claimed at its retry time with the current desired state |
| DeploymentHistory.HistoryTold | apps/control-plane/src/workspace.ts:1926-2477 | over every run, told from the events alone: the desired state and URL are those of the last wish, what is synced is what the last successful attempt wrote while it was wished, and need, due time and attempts follow from the last events, a retry after one second doubled per attempt up to five minutes |
| DeploymentHistory.EventMoves | apps/control-plane/src/workspace.ts:1926-2477 | the same for one event: a start, a finish, the end of the run, and the beginning and end of an attempt |
| DeploymentHistory.KnownDeploymentIsUsed | apps/control-plane/src/github.ts:374-420 | an attempt begun when the GitHub deployment was known works on that one, however late it resolves it |
| Deployments.QuietAttemptSyncs | apps/control-plane/src/github.ts:374-474 | an undisturbed attempt marks the row clean for its deployment; it writes the wish, unless it is a retry that finds the wish among the statuses, then it writes nothing |
| Deployments.AgreesUnlessLate | apps/control-plane/src/workspace.ts:2372-2477 | a step keeps a clean row equal to what GitHub shows for its deployment if and only if it is neither a late write nor a completion while GitHub shows something else |
| Deployments.CleanAgreesExactly | apps/control-plane/src/workspace.ts:2372-2477 | throughout a run a clean row is what GitHub shows if and only if no step of the run is late |
| Deployments.CleanMeansGithubAgrees | apps/control-plane/src/workspace.ts:2372-2477 | while attempts do not overlap and no retry takes an outdated status for its own, none is late and a clean row always is what GitHub shows |
| Deployments.ExpiredAttemptOverwrites | apps/control-plane/src/workspace.ts:2374-2389 | an expired attempt that pushes late leaves GitHub behind a clean row |
| Deployments.OvertakenAttemptFinishes | apps/control-plane/src/workspace.ts:2403-2436 | an attempt that finishes after an expired one has written over it marks the row clean all the same |
| Deployments.OutdatedStatusRecovered | apps/control-plane/src/github.ts:434-457 | with no overlap at all, a retry that finds an outdated equal status writes nothing and marks the row clean |
| Deployments.SecondDeploymentFinishes | apps/control-plane/src/workspace.ts:2403-2426 | of two overlapping attempts that each create a deployment, one marks the row clean although it wrote to the deployment the row does not name |
| Deployments.Synchroniser.SyncGitHubDeployment | apps/control-plane/src/github.ts:374-474 | without interruption: the stored, a found or a new deployment, a look through its statuses on a retry, and a write unless the look found the wish |
| Deployments.Synchroniser.DeploymentStarted | apps/control-plane/src/workspace.ts:1926-1970 | starting inserts a due row or redirects one, and refuses another environment |
| Deployments.Synchroniser.DeploymentFinished | apps/control-plane/src/workspace.ts:2004-2035 | finishing redirects the row only if state or URL changes |
| Deployments.Synchroniser.FinishOutstandingDeployments | apps/control-plane/src/workspace.ts:2693-2707 | the end of a run turns an unfinished deployment into an error |
| Deployments.Synchroniser.SyncSucceeded | apps/control-plane/src/workspace.ts:2403-2436 | completion marks the row clean only if it still wants what was pushed |
| Deployments.Synchroniser.SyncFailed | apps/control-plane/src/workspace.ts:2446-2463 | failure schedules the next attempt, at once if the wish changed |
| Expressions.AnalysisSound | crates/gitzero-expression/src/lib.rs:119-163 | environments agreeing on the reported roots, status and workspace give the same value or error for every expression |
| Expressions.Analyzer.Visit | crates/gitzero-expression/src/lib.rs:119-163 | the recursive analysis adds to its record exactly what the expression reports |
| Expressions.AnalysisOverApproximates | crates/gitzero-expression/src/lib.rs:298-312 | the report may name roots a short circuit never reads |
| AnalysisLaws.AnalysisExactly | crates/gitzero-expression/src/lib.rs:119-163 | the report names exactly the roots and functions evaluated somewhere in the expression |
| ExpressionLaws.EvaluatesExactly | crates/gitzero-expression/src/lib.rs:274-395 | the evaluator returns a value if and only if the expression has it, by a relation for the whole syntax |
| ExpressionLaws.WalkIsWays | crates/gitzero-expression/src/lib.rs:719-756 | selecting step by step over all values at once finds exactly what is at the end of every way through the value, in order, and fails exactly when a way is blocked |
| ExpressionLaws.GivesExactly | crates/gitzero-expression/src/lib.rs:809-951 | contains by position, startsWith and endsWith by splitting, join, toJSON, fromJSON and case: the one value each gives, or none |
| ExpressionLaws.TruthTables | crates/gitzero-expression/src/lib.rs:298-312 | and and or return one of their operands and have the truth tables of their names |
| ExpressionLaws.ShortCircuits | crates/gitzero-expression/src/lib.rs:298-312 | a decided left operand is the result whatever the right one comes to, and its failure is the failure |
| ExpressionLaws.DeMorgan | crates/gitzero-expression/src/lib.rs:281-312 | De Morgan's laws, failures included |
| ExpressionLaws.FirstFailureWins | crates/gitzero-expression/src/lib.rs:371-375 | a call fails with the failure of its first argument that fails |
| ExpressionLaws.AccessExactly | crates/gitzero-expression/src/lib.rs:758-807 | what a value holds under an index: the first entry whose key agrees up to case, the element at a position, and when nothing can be looked up |
| ExpressionLaws.PositionsRead | crates/gitzero-expression/src/lib.rs:770-786 | a position in text is a decimal number, possibly behind a plus sign, that fits 64 bits |
| ExpressionLaws.StatusTests | crates/gitzero-expression/src/lib.rs:359-368 | the four status functions test the status of the run |
| ExpressionLaws.JoinSplitsBack | crates/gitzero-expression/src/lib.rs:898-915 | joining loses nothing: splitting at the separator gives the texts back |
| Templates.TemplateSound | crates/gitzero-expression/src/lib.rs:103-117 | environments agreeing on a template's report render it alike |
| Templates.RejectedTemplateNeverRenders | crates/gitzero-expression/src/lib.rs:103-117 | a template the analysis rejects is rendered by no environment |
| Templates.Render | crates/gitzero-expression/src/lib.rs:250-265 | the cursor loop computes the rendering of the whole template |
| Templates.AnalyzeTemplate | crates/gitzero-expression/src/lib.rs:103-117 | the cursor loop merges the reports of all expressions |
| Templates.FindExpressionEnd | crates/gitzero-expression/src/lib.rs:962-978 | the scanner loop finds the first closing braces outside quotes |
| Templates.ScannerSkipsQuoted | crates/gitzero-expression/src/lib.rs:962-978 | the scanner stops just behind any quoted, quote-doubled string, closing braces inside or not |
| Templates.RenderPrinted | crates/gitzero-expression/src/lib.rs:250-265 | a template printed from texts and expressions renders to exactly what they stand for |
| Templates.StrippedExactly | crates/gitzero-expression/src/lib.rs:953-960 | blanks around a source, braces around the whole of it and blanks inside those do not matter |
| Templates.FormatPrinted | crates/gitzero-expression/src/lib.rs:850-896 | format undoes brace doubling and holes, and fails exactly when a hole has no argument |
| Templates.FormatValuesPrinted | crates/gitzero-expression/src/lib.rs:850-896 | the same through the function's own arguments |
| Cache.RangesCover | crates/gitzero-agent/src/cache.rs:779-793 | true exactly when every byte below the size lies in some range, in any order, up to the last 64-bit position |
| Cache.EvictForSpace | crates/gitzero-agent/src/cache.rs:876-906 | the eviction loop for every outcome of the file system: what is left, and the error if any, deletions before an error included |
| Cache.EvictionIsExactLru | crates/gitzero-agent/src/cache.rs:876-906 | the shortest sufficient prefix in age order goes, and it fails exactly when the new entry alone exceeds the budget |
| Cache.EvictsPrefix | crates/gitzero-agent/src/cache.rs:888-901 | what the loop keeps is everything behind the shortest prefix after which the new entry seems to fit |
| Cache.EvictionSpares | crates/gitzero-agent/src/cache.rs:885-901 | whatever stays was used no earlier than whatever goes, and of two last used together the older goes |
| Cache.SweepExactly | crates/gitzero-agent/src/cache.rs:885-901 | each entry in age order goes exactly when it is expired or what was freed before it leaves too little; a file that was missing frees nothing |
| Cache.TooLargeEmptiesStore | crates/gitzero-agent/src/cache.rs:888-904 | a new entry larger than the budget is refused and empties the store |
| Cache.LeavesTooMuchExactly | crates/gitzero-agent/src/cache.rs:882-904 | for all sizes: an accepted entry leaves the store above its budget if and only if some unexpired suffix in age order exceeds it by no more than saturation hides |
| Cache.SaturationLeavesTooMuch | crates/gitzero-agent/src/cache.rs:882-884 | a store whose sizes saturate and from which too little is evicted |
| Cache.LargestBudgetNeverEvicts | crates/gitzero-agent/src/cache.rs:888-904 | with the largest budget nothing is evicted for space, although the sizes exceed it |
| Cache.WorkflowCache.Commit | crates/gitzero-agent/src/cache.rs:534-648 | a stored entry is complete, new in its scope, and leaves the store within its budget; one refused for space leaves the store empty |
| Cache.WorkflowCache.UploadChunk | crates/gitzero-agent/src/cache.rs:466-532 | a range is recorded exactly when its announced bytes arrive, and then they are on disk; a frame beyond them is not written |
| Cache.WorkflowCache.Reserve | crates/gitzero-agent/src/cache.rs:411-464 | a reservation is made exactly when the announced size fits and no unexpired entry has the key |
| Cache.CompleteIsWritten | crates/gitzero-agent/src/cache.rs:559-576 | coverage by recorded ranges leaves no hole in the file |
| Der.LengthRoundTripsExactly | apps/control-plane/src/github.ts:1121-1128 | a length reads back if and only if it is below 2^32 |
| Der.LengthReads | apps/control-plane/src/github.ts:1121-1128 | what every written length reads back as |
| Der.LengthIsMinimal | apps/control-plane/src/github.ts:1121-1128 | no leading zero octet, and no shorter encoding exists |
| Der.ElementRoundTrips | apps/control-plane/src/github.ts:1113-1119 | tag, contents and suffix read back from an element |
| Der.ElementsAreUnique | apps/control-plane/src/github.ts:1113-1119 | streams of elements can be taken apart in one way only |
| Der.WrapperRoundTrips | apps/control-plane/src/github.ts:1093-1106 | the PKCS #8 wrapper gives back version, algorithm and key |
| Der.AlgorithmIsRsa | apps/control-plane/src/github.ts:1093-1096 | the algorithm bytes are rsaEncryption, 1.2.840.113549.1.1.1, with null parameters |
| Der.DerLength | apps/control-plane/src/github.ts:1121-1128 | the shifting loop computes the length octets |
| Der.ConcatenateBytes | apps/control-plane/src/github.ts:1130-1140 | filling one buffer by offset concatenates the parts |
| Der.WrapPkcs1 | apps/control-plane/src/github.ts:1093-1106 | the wrapper built from elements |

## Left out

- SQL, Durable Object storage, WebSocket and HTTP plumbing, schemas, broadcasts to observers: tables are maps, sends are appends to a channel.
- GitHub API calls, tokens, HMAC and hashing: foreign code whose results are parameters that may fail.
- Reason texts of cancellations and errors; an error says which check failed.
- Upper and lower case beyond ASCII, Unicode white space and normalisation: group names, labels and environments are compared in ASCII lower case.
- The order in which the statement that deletes a run's leases returns its rows is taken to be sequence order; the source does not say.
- One open connection per agent: replacing an open socket is a close followed by an open.
- The wait loop of `acquire` is split into its outcomes (resolved, abandoned), and a closed outbound channel while acquiring is a lost connection.
- Dispatcher.RunDispatcher.TryDispatch: does not model disturbance without end; the other handlers change the tables after finitely many passes, because the source loop need not end otherwise.
- Prune times and delivery deduplication: pruning may remove any completed run at any moment.
- Deployment statuses written by anyone else, the automatic inactivation of older deployments included: what GitHub shows is the last status an attempt wrote.
- Deployment statuses beyond the hundred the listing returns, and deployments of the same job and unit beyond its hundred.
- Deployments.GithubIdIsFinal: does not model the pruning of deployment rows, with which a stored id goes.
- LinkerRun.WorkflowLinker.CompileLinkedWorkflow: does not model the decoding of calls (inputs, secrets, permitted fields, paths), because these checks only refuse a call before it is linked.
- LinkerRun.WorkflowLinker.LinkOne: does not model the same decoding of the one call it links, nor its input and secret bindings.
- LinkLimits.LinkedExactly: does not state which error is reported when linking fails, because several may apply; `LinkerRun.WorkflowLinker.LinkOne` has the order of the checks.
- LinkerRun.ExpandReusableCall: does not model names, input scopes, secret scopes and environment values carried along by each job, because dependency order, scopes and permissions do not depend on them.
- The dependency error of a linked level is one error; which defect comes first depends on the order of the ids.
- Runtime expansion of dynamic matrix calls: such a call stays a template, one job of the linked plan.
- Matrix decoding from YAML, trigger globs, `hashFiles` file walking and the third-party expression parser and value comparisons: parameters of the model.
- Objects in expressions carry their entries in iteration order, so two environments that agree on a root agree on that order too.
- Steps.StepCompiler.CompileSteps: does not model the derived `github_action` names, default shells and environment maps, because no property of ids, targets or blocks uses them.
- Steps.StepCompiler.CompileOrdinary: does not model the same names, shells and environments of one step.
- Templates.FormatValuesPrinted: positions are characters here and bytes in the source; braces and digits are single bytes, so the scan is the same.
- Cache.EvictForSpace: does not model a directory removed only in part; an entry whose removal fails counts as left.
- Cache.WorkflowCache.Commit: does not model file system failures during a commit, because `EvictForSpace` covers every outcome of the only loop that meets them.
- Cache lookup by key prefix, downloads, authorisation and the cache modes.
- The artifact service, the problem matcher, readiness checks, secret metadata and repository access rules.
