# AutoDev: landing, queue, host capacity and run loop

AutoDev runs coding agents in parallel on the tasks of a queue and lands what they produce on one
integration branch. Several processes work on the same files and the same Git ref at once, and any
of them may die between two steps. This project models the four protocols that keep that safe, in
their file-backed form, and proves what they promise.

- **Integration ref and landing.** `Commits`, `IntegrationRef`, `LandingModel`, `LandingSafety`,
  `LandingTheorems`, `LandingReach`, `LandingFrame`, `LandingPass`, `LandingProgress`,
  `LandingRecovery`, `LandingAdoption`, `LandingOrphans`, `LandingChecks`, `LandingOutcomes`,
  `LandingController`. A commit is the value of its tree and its parents. The landing lane and the
  recovery of its ledgers are a state machine with one program counter; events are the supervisor's
  next step (with the outcome of the command it runs), a crash, a restart, a new candidate, somebody
  else's ref advance and any queue operation by anybody. `LandingReach` says what every run keeps
  beside safety; from it `LandingRecovery` and `LandingAdoption` prove, run by run, what the next
  supervisor finishes and what it cannot. `LandingChecks` tells from the events alone what was
  examined before a ref move, and `LandingOutcomes` what each way a landing can end leaves behind.
  `LandingController` is the same code as imperative methods over the durable state, with a script
  that says what happens between two statements and where the process dies, and is proved to follow
  the machine.
- **Task queue.** `QueueTypes`, `IdOrder`, `QueueImport`, `QueueModel`, `QueueOrder`, `DepGraph`,
  `QueueInvariants`, `QueueReceipts`, `QueueEffects`, `ImportLaws`, `PlanImport`, `QueueFile`.
  `QueueModel` says what each locked read-modify-write does to the document, `QueueEffects` when it
  succeeds and what it leaves, field by field; `QueueFile` and `PlanImport` are the row lists and
  loops that do it, and are proved to perform exactly those operations.
- **Host capacity.** `CapacityModel`, `CapacitySafety`, `CapacityFairness`, `CapacityGrants`,
  `CapacityTurns`, `HostCapacityBroker`. The process table and the heartbeats enter as a census
  given to each call. `CapacityGrants` says what each call leaves, told over what was asked for.
- **Run loop.** `RunLoopModel`, `RunLoopLaws`, `RunLoopVerdicts`, `RunLoopDispatch`, `RunLoop`.
  Queue reads, worker results, landings, releases, stop files and the clock are answers of a world
  the loop asks. `RunLoopVerdicts` says when an outcome stops the loop, in terms of statuses,
  findings and budgets; `RunLoopDispatch` which tasks a wave takes.

## Assumptions

- One supervisor at a time works on a project: it holds the project's lease, whose lock a second one
  is refused (`autodev/autodev/runtime_lease.py:252-259`).
- A worktree's HEAD descends from the commit it started from, and a successful rebase yields a
  descendant of its target. Other processes move the integration ref only by forward
  compare-and-swap; `IntegrationRef` proves that of the calls AutoDev itself issues.
- The remote branch is moved only by pushes, and a push is accepted only as a fast-forward.
- Capacity tokens and request ids are fresh (`Honest`), and the policy is fixed.
- A worker that reports `candidate_ready` reports success (`Sane`), and workers end.
- A directory listing names everything that is there, each entry once. A queue claim, with the
  revision it made, is recorded in one child run's file.
- The convergence theorems are about a pass in which every external command succeeds and nobody else
  acts meanwhile (`AllLucky`); what others did before it is unrestricted.

## Where the code decides

- `claim_task` with a target checks the in-progress target before the limit, and both before looking
  for a ready task; the model keeps that order of errors.
- An idempotency key can become bound to two plans when a replay of an earlier plan presents a later
  plan's key. Receipts are then not stable, so stability is stated for runs that never do this, and
  `KeyBoundToTwoPlans` shows the case.
- A landing that dies between its `landing_verifying` mark and its first ledger is never taken up
  (`StrandedForever`); `DeathTakenUpIff` says, over every step, exactly which deaths are recovered.
- A cancellation that dies after its release leaves a candidate that blocks every later start until
  its task is done (`AbandonedBlocks`).
- The newer of two ready tasks of one priority may be offered first (`ThousandthFirst`);
  `OldestIsNextIff` says exactly when.
- A ledger whose CAS found the ref elsewhere blocks every later start (`LostLedgerBlocks`).
- Turns between projects are not fair when projects come and go (`LostTurnStarves`); `PlaceMoves`
  and `BypassBound` say exactly what is lost.
- The comment in the run loop calls a wave's leftover workers unreachable on a normal return;
  `NothingRuns` proves it.

## Model

| member | source | states |
|---|---|---|
| `IntegrationRef.NoLostIntegration` | autodev/autodev/git_worktree.py:139-175 | Over every interleaving of forward `update-ref` calls by any processes, whatever was reachable from the integration branch stays reachable |
| `IntegrationRef.StaleStaysStale` | autodev/autodev/git_worktree.py:414-434 | A ref that has left a commit never returns to it, so a stale compare-and-swap can never succeed later |
| `IntegrationRef.Branch.IntegrationStartSha` | autodev/autodev/git_worktree.py:139-175 | With other processes acting between any two git commands: every ref update it issues is forward, the returned start contains the base and is in the branch, `diverged` and the lost fast-forward are raised only when true, and alone the outcome is exactly the three-way decision |
| `IntegrationRef.Branch.AdvanceIntegrationRef` | autodev/autodev/git_worktree.py:401-442 | The ref moves to the commit exactly when it is at the expected commit, and by CAS; a lost CAS is reported if and only if it is elsewhere, a failed push if and only if the CAS was made and the requested push failed, and success in all other cases; an empty commit moves nothing |
| `Commits.AncestorAntisymmetric` | autodev/autodev/git_worktree.py:160-163 | The ancestor relation every ref decision uses has no cycles |
| `LandingSafety.NextKeeps` | autodev/autodev/controller.py:3072-3393 | Every step of landing, recovery, adoption, crash, restart and every outside edit keeps the landing invariant, and takes back no ref content, run identity, evidence or task completion |
| `LandingSafety.ExecuteKeeps` | autodev/autodev/controller.py:3072-3393 | The same over every sequence of such events |
| `LandingSafety.WorkKeeps` | autodev/autodev/controller.py:3118-3372 | Each of the lane's and the replay's steps keeps the invariant whatever the commands return |
| `LandingTheorems.CompletedCandidatesStayIntegrated` | autodev/autodev/controller.py:3259-3372 | In every run a lease-bound completion by landing or recovery has its candidate in the integration ref then and in every later state, and no claim is completed twice |
| `LandingTheorems.SupervisorCompletesOnlyIntegrated` | autodev/autodev/controller.py:3344-3372 | A step of the supervisor makes a task done only at the finish of a landing or replay whose ledger's candidate is in the ref, and on the remote if its ledger, or for a landing the present configuration, asks for a push |
| `LandingTheorems.LedgersNeverGoBack` | autodev/autodev/controller.py:2589-2656 | A landing ledger never disappears and never moves backwards, and past `prepared` its commits and claim are fixed |
| `LandingTheorems.FinalizedMeansLanded` | autodev/autodev/controller.py:3364-3372 | `queue_finalized` implies, now and in every later state: task done, candidate in the ref, pushed if a push was required |
| `LandingTheorems.OnlyVerifiedTreesLand` | autodev/autodev/controller.py:3118-3289 | Every ref move of the lane goes from the ref's value at that moment to a descendant that passed the final verify, and that passed a re-review of exactly that diff when the ref had left the worktree's start |
| `LandingChecks.EveryMoveWasChecked` | autodev/autodev/controller.py:3118-3289 | No landing skips a check: before each ref move of the lane the events of the run contain, for the same run, the same candidate and the very commit the ref moved from, a passed final verify, a passed safety policy and, if that was not the worktree's start, a passed re-review |
| `LandingTheorems.RefNeverLosesCommits` | autodev/autodev/controller.py:3273-3289 | Landings, recoveries, crashes and standalone advances together never lose a commit from the ref |
| `LandingTheorems.NextForward` | autodev/autodev/controller.py:2835-2933 | One event of any kind never moves a ledger backwards |
| `LandingReach.EveryRunIsSound` | autodev/autodev/controller.py:2835-3372 | In every run from a repository nothing was landed in: the queue document is valid, the remote is behind the ref, no two child runs hold one claim, and at most one open ledger's CAS could still succeed |
| `LandingReach.NextKeepsLane` | autodev/autodev/controller.py:2835-3372 | Every event of any kind keeps that, with the lane's place: the commit it aims at is behind the ref, and every open ledger is still on the list of a pass that met no error |
| `LandingReach.RefGrows` | autodev/autodev/controller.py:2869-2891 | A ledger that the ref has passed never looks un-landed again, because the ref never returns to an earlier value |
| `LandingFrame.WorkFrame` | autodev/autodev/controller.py:3118-3393 | Any step of the lane, whatever its command returns, writes its own run's files only, moves the ref only by a CAS that finds the expected commit, completes a task only where the claim is honoured, and returns to its caller |
| `LandingProgress.NextOwes` | autodev/autodev/controller.py:2835-3003 | In a pass whose commands succeed each step leaves every landing the pass owes still owed or done, whatever becomes of the other runs |
| `LandingProgress.NextAccounts` | autodev/autodev/controller.py:2898-2917 | Each such step leaves a live claim live, or completes it for the candidate its ledger names |
| `LandingProgress.PassFinishes` | autodev/autodev/controller.py:2835-3003 | A pass over the ledgers or the orphans ends within 17 steps for each entry still listed, with everything it owed delivered |
| `LandingRecovery.RecoveryConverges` | autodev/autodev/controller.py:2835-2933 | From any state a run can reach without a supervisor, whatever became of the other ledgers: a pass whose commands succeed finalizes every ledger that was recoverable, with its task done, its candidate in the ref and pushed, completes each of their live claims exactly once, leaves a ledger that was not recoverable open when no other waits for the ref or for its task, and reports an error if and only if a ledger stays open |
| `LandingRecovery.TurnDecides` | autodev/autodev/controller.py:2846-2930 | At its turn a ledger is finalized if and only if it is recoverable then, and counts as an error otherwise |
| `LandingRecovery.LedgerByStep` | autodev/autodev/controller.py:3072-3393 | At every step of every run the step alone says whether a ledger names the run worked on: in all of recovery, and in a landing from its CAS on, including a lost CAS being recorded and a push or completion left pending |
| `LandingRecovery.CrashWithLedger` | autodev/autodev/controller.py:3016-3372 | A landing or replay that dies at any such step leaves its ledger open; its claim untouched, or its task just done, the ledger is recoverable if and only if its CAS was made, or others have not moved the ref, or the ref contains the candidate |
| `LandingRecovery.LostCasLosesTheLedger` | autodev/autodev/controller.py:3280-3288 | The code itself leaves an unrecoverable ledger exactly when its CAS finds the ref elsewhere and without the candidate |
| `LandingRecovery.LostLedgerBlocks` | autodev/autodev/controller.py:2885-2932 | Once the supervisor is down such a ledger stays open and unchanged as long as the ref does not take its candidate in, and no supervisor, however many start, comes as far as adopting a candidate or entering its loop |
| `LandingRecovery.ErrorsStopTheSupervisor` | autodev/autodev/controller.py:4098-4119 | Once recovery has met an error the supervisor, whatever happens until the next start, neither adopts a candidate nor enters its loop |
| `LandingRecovery.SecondPassChangesNothing` | autodev/autodev/controller.py:2846-2847 | Once every ledger is finalized a recovery pass changes nothing durable, whatever its commands return |
| `LandingAdoption.AdoptionConverges` | autodev/autodev/controller.py:2936-3003 | A pass over the orphans whose commands succeed lands every listed candidate_ready run with an untouched claim and completes that claim, whatever becomes of the other orphans; with a complete listing it ends with an error if and only if some candidate was neither landed nor found done |
| `LandingAdoption.NextSupervisorAdopts` | autodev/autodev/controller.py:4098-4119 | After recovery of a repository whose open ledgers are recoverable the same start lands every candidate that waits for adoption |
| `LandingAdoption.TakenUpIff` | autodev/autodev/controller.py:2835-3003 | In every reached state without a supervisor whose open ledgers are recoverable, a run with an untouched claim is landed by the next supervisor, its commands succeeding, if and only if a ledger names it or it is still candidate_ready |
| `LandingAdoption.DeathTakenUpIff` | autodev/autodev/controller.py:3016-3372 | By the step at which the process died, over every step of the lane: a run with an untouched claim is landed by the next supervisor if and only if it did not die after the `landing_verifying` mark and before its first `prepared` ledger, at a verdict or while a red one was being recorded |
| `LandingAdoption.StrandedForever` | autodev/autodev/controller.py:2958-2959 | A first landing that dies there is left as it is by every later supervisor and every later event |
| `LandingAdoption.StrandedIsReached` | autodev/autodev/controller.py:3163-3272 | One task, one candidate and one death reach such a run, its claim still live |
| `LandingOrphans.AbandonedBlocks` | autodev/autodev/controller.py:2961-2974 | A candidate_ready run whose claim is spent keeps every later start out of its loop, whatever supervisors and others do, until its task is done |
| `LandingOrphans.CancelDeathAbandons` | autodev/autodev/controller.py:3594-3603 | The code itself leaves such a run: a cancellation that dies between the release of a live claim and the run's mark |
| `LandingOrphans.AbandonedIsReached` | autodev/autodev/controller.py:3594-3603 | One candidate, one cancellation and one death reach it |
| `LandingOutcomes.GivesUpIff` | autodev/autodev/controller.py:3118-3288 | At every check of the lane and at its CAS the landing is given up if and only if the command fails, the rebase yields no descendant of its target, or the ref is not at the expected commit |
| `LandingOutcomes.RefusalIsRecorded` | autodev/autodev/controller.py:3016-3063 | What a failing check comes to, with others acting before the block and before the mark: if the claim is then honoured, the task is blocked and the run marked under the literal status of that step, one failure is counted, and the gate closes exactly for a red safety check or a re-review that is red rather than broken; otherwise the queue is left alone and the run is a system_error |
| `LandingOutcomes.BlockByCause` | autodev/autodev/controller.py:3016-3043 | By cause: the block of an honoured claim leaves the task blocked under the literal status of the cause, and gated if and only if it was gated or the cause is a red safety check or a red re-review |
| `LandingOutcomes.RedRefusalNeedsReview` | autodev/autodev/adapters/queue_yaml.py:461-478 | After a landing refused for a red safety check or a red re-review, whatever supervisors, crashes and others do, the task stays gated and open and forcing it done fails, until a completion with a passed review |
| `LandingOutcomes.LandingIsRecorded` | autodev/autodev/controller.py:3344-3372 | A landing or replay that comes to its completion with the claim honoured: the task is done without lease, gate or failures, the completion is of the ledger's candidate, the run is done, the ledger queue_finalized and control returns without an error |
| `LandingOutcomes.ReplayCompletesOnce` | autodev/autodev/controller.py:2913-2922 | A replay completes the task only if it is not done yet, and reports an error if it is unknown |
| `LandingOutcomes.PendingIsRecorded` | autodev/autodev/controller.py:3299-3362 | A refused push, or a claim that is not honoured at the completion, leaves queue, remote and the integrated ledger as they are and the run landing_finalize_pending |
| `LandingOutcomes.CancelIsRecorded` | autodev/autodev/controller.py:3584-3613 | A cancelled candidate's task is pending again, without owner, and its run cancelled, if and only if the claim was honoured; otherwise the queue is left alone and the run needs reconciling |
| `LandingOutcomes.AdoptionIsRecorded` | autodev/autodev/controller.py:2966-2974 | A waiting candidate whose task is already done is marked done and nothing else changes |
| `LandingController.Supervised.LandCandidate` | autodev/autodev/controller.py:3072-3393 | The landing code, statement by statement, with others acting and the process possibly dying between any two statements, reaches exactly the machine's state; a reported success means the ledger is finalized, the task done, the candidate in the ref, pushed if required |
| `LandingController.Supervised.ReplayLedger` | autodev/autodev/controller.py:2889-2930 | The replay of an integrated ledger, statement by statement, follows the machine |
| `LandingController.Supervised.ReconcileLedgers` | autodev/autodev/controller.py:2835-2933 | The recovery loop over the ledger listing follows the machine and reports an error exactly when the machine's pass has one |
| `LandingController.Supervised.AdoptOrphans` | autodev/autodev/controller.py:2936-3003 | The adoption loop over the run listing follows the machine |
| `LandingController.Supervised.LandingFailure` | autodev/autodev/controller.py:3016-3063 | If the queue it finds honours the claim, blocks the task and marks the run under the literal status of the cause, counting one failure and closing the gate exactly for a red safety check or a red re-review; otherwise leaves the queue alone and marks system_error; the queue is then what others make of that |
| `QueueInvariants.StepKeepsInv` | autodev/autodev/adapters/queue_yaml.py:402-698 | Every queue operation keeps: unique known acyclic dependencies, a lease token exactly while in progress, the in-progress limit, and closed dependencies of every started task |
| `QueueInvariants.RunKeepsInv` | autodev/autodev/adapters/queue_yaml.py:185-191 | The same over every sequence of operations |
| `QueueInvariants.EmptyQueueInv` | autodev/autodev/adapters/queue_yaml.py:194-296 | An empty queue satisfies the invariant |
| `QueueInvariants.ExistingTaskOp` | autodev/autodev/adapters/queue_yaml.py:354-391 | A successful operation on an existing task rewrites that task alone, raises its revision by exactly one, keeps done and skipped, and starts it only within the limit and with closed dependencies |
| `QueueInvariants.StepKeepsTasks` | autodev/autodev/adapters/queue_yaml.py:347-357 | No task disappears, an untouched task keeps its revision and a touched one gains exactly one |
| `QueueInvariants.TerminalIsAbsorbing` | autodev/autodev/adapters/queue_yaml.py:611-624 | Done and skipped are never left in any run |
| `QueueInvariants.DependencyProgress` | autodev/autodev/adapters/queue_yaml.py:305-321 | In every reachable queue with an open task some open task has all dependencies closed, and if all open tasks are pending there is a next task |
| `QueueInvariants.ImportKeepsInv` | autodev/autodev/adapters/queue_yaml.py:103-182 | An import, whose dependencies point to strictly lower waves, creates no cycle |
| `QueueInvariants.AddKeepsInv` | autodev/autodev/adapters/queue_yaml.py:627-682 | An added or proposed task points only to older ones and creates no cycle |
| `DepGraph.AcyclicIffRanked` | autodev/autodev/queue_import.py:99-119 | A finite closed dependency graph is acyclic if and only if its nodes can be ranked below their dependants |
| `DepGraph.AttachKeepsRank` | autodev/autodev/queue_import.py:354-428 | Attaching a ranked batch of new nodes to a ranked graph keeps it ranked |
| `QueueReceipts.FinalizeIffUntouched` | autodev/autodev/adapters/queue_yaml.py:365-391 | A finalize call with a claim's receipt succeeds exactly when no operation has touched the task since that claim, even if tokens repeat |
| `QueueReceipts.FinalizeAtMostOnce` | autodev/autodev/controller.py:287-343 | Of all complete, block and release calls that present one receipt at most one ever succeeds |
| `QueueReceipts.GateNeedsReview` | autodev/autodev/adapters/queue_yaml.py:461-478 | A gated task stays gated through every operation until a completion with a passed review |
| `QueueReceipts.GatedBlockNeedsReview` | autodev/autodev/adapters/queue_yaml.py:530-577 | After a block with a review-gated status the task reaches done only through a reviewed completion, and forcing it without one always fails |
| `QueueReceipts.FailureCountIsExact` | autodev/autodev/adapters/queue_yaml.py:561-570 | autodev_failure_count is the number of failure-recording blocks since the last lease-bound completion or budget reset |
| `QueueReceipts.FailuresStayWithinBudget` | autodev/autodev/controller.py:1549-1566 | With one supervisor that checks before it claims, a task's recorded failures never exceed the budget |
| `QueueReceipts.WaveIsClaimable` | autodev/autodev/adapters/queue_yaml.py:309-327 | With no outside actor every member of a wave that fits the limit is claimed by id, in any order, whatever is released, blocked or completed in between |
| `QueueReceipts.WaveClaimableIffFits` | autodev/autodev/adapters/queue_yaml.py:411-435 | Claiming a whole wave works out if and only if it fits the remaining limit |
| `QueueEffects.ClaimSucceedsIff` | autodev/autodev/adapters/queue_yaml.py:402-444 | A claim by id succeeds if and only if there is room and the task is pending, or blocked and to be resumed, with every dependency done or skipped |
| `QueueEffects.ClaimNextSucceedsIff` | autodev/autodev/adapters/queue_yaml.py:411-444 | A claim without an id succeeds if and only if there is room and some task is startable, and says which of the two is missing |
| `QueueEffects.ClaimErrors` | autodev/autodev/adapters/queue_yaml.py:402-444 | Why a claim by id fails: an unknown task, no room or already in progress, then its status, then a dependency |
| `QueueEffects.ClaimEffect` | autodev/autodev/adapters/queue_yaml.py:436-444 | A claim marks one task in progress for the claimant (autodev by default) under the requested or the generated token with one revision more, the first startable one in queue order when no id is given, and changes nothing else |
| `QueueEffects.CompleteEffect` | autodev/autodev/adapters/queue_yaml.py:447-495 | Completion succeeds exactly with the claim's own receipt, or by force on an unfinished task, and on a gated task only with a passed review; the task is then done, and only an unforced completion clears gate and failures |
| `QueueEffects.ReleaseEffect` | autodev/autodev/adapters/queue_yaml.py:498-527 | Release succeeds exactly with the claim's receipt and leaves the task pending without owner or token |
| `QueueEffects.BlockEffect` | autodev/autodev/adapters/queue_yaml.py:530-577 | Block succeeds exactly on an unfinished task, with the claim's receipt or by force; a reported failure is counted and kept, and closes the gate if and only if it is one of the six red statuses or the gate was closed |
| `QueueEffects.FinalizeErrors` | autodev/autodev/adapters/queue_yaml.py:447-577 | Why complete, block and release fail: an unknown task, a status or a gate in the way, or a receipt that is not the claim's |
| `QueueEffects.ResumeEffect` | autodev/autodev/adapters/queue_yaml.py:580-608 | Resume succeeds exactly on a blocked task with closed dependencies, leaves it pending and clears its failures only when asked to |
| `QueueEffects.SkipEffect` | autodev/autodev/adapters/queue_yaml.py:611-624 | Skip succeeds exactly on a task that is not done and leaves it skipped without a lease |
| `QueueEffects.ApproveEffect` | autodev/autodev/adapters/queue_yaml.py:685-698 | Approve succeeds exactly on a proposed task and leaves it pending |
| `QueueEffects.AddEffect` | autodev/autodev/adapters/queue_yaml.py:627-682 | Adding succeeds exactly when every dependency exists: one task more, under the next number, without history, pending when added and proposed when proposed |
| `QueueEffects.ProposalNeedsApproval` | autodev/autodev/adapters/queue_yaml.py:653-698 | A proposal makes no task ready, and in every run its task is proposed or skipped, hence neither offered nor started nor done, until an approval of it succeeds |
| `ImportLaws.FreshImportIsComplete` | autodev/autodev/queue_import.py:354-428 | A first import adds exactly one task per plan task, all at once, with fresh distinct ids; each is pending at P2 with revision 1 and no history, and depends on exactly the receipt's tasks for the keys its plan entry names; nothing else changes |
| `ImportLaws.PlanOrderIsKept` | autodev/autodev/queue_import.py:376-384 | In every run after the import a task of the plan is in progress only when every task its plan entry depends on is done or skipped |
| `ImportLaws.AcceptedIff` | autodev/autodev/queue_import.py:255-275 | The graph checks of an import request accept exactly a named plan of tasks with distinct keys and positive waves, each with distinct dependencies that are tasks of strictly earlier waves |
| `ImportLaws.FirstConcernedDecides` | autodev/autodev/adapters/queue_yaml.py:118-147 | The first record with the request's plan or key decides: a replay if it is of this very document, a conflict otherwise |
| `ImportLaws.FreshIffUnconcerned` | autodev/autodev/adapters/queue_yaml.py:118-147 | An import is a first one if and only if no record has its plan or its key |
| `ImportLaws.FreshImportIsRecorded` | autodev/autodev/adapters/queue_yaml.py:148-181 | A first import leaves one record more, of its document, under its key, with the receipt it returns |
| `ImportLaws.FirstReceiptIsStable` | autodev/autodev/adapters/queue_yaml.py:103-182 | That receipt is what the document gives back after any later operations, as long as no key is presented with two plans |
| `ImportLaws.ValidatedImportIsWritten` | autodev/autodev/adapters/queue_yaml.py:103-182 | A document that passed validation is never rejected by the queue's own validation |
| `ImportLaws.RunKeepsImportsInv` | autodev/autodev/queue_import.py:291-333 | After every run of operations receipts and imported tasks describe each other exactly |
| `ImportLaws.PlanIsImportedOnce` | autodev/autodev/adapters/queue_yaml.py:118-147 | A recorded plan never gains another task or a second record in any run |
| `ImportLaws.ReplayIff` | autodev/autodev/adapters/queue_yaml.py:118-147 | Replaying a recorded document returns its receipt and adds no task if and only if no earlier record holds the key; otherwise it is a conflict |
| `ImportLaws.ReceiptsAreStable` | autodev/autodev/adapters/queue_yaml.py:118-147 | When no key is presented with two plans, a recorded document replays to its original receipt after any operations |
| `ImportLaws.SharedKeyBreaksReplay` | autodev/autodev/adapters/queue_yaml.py:118-147 | Presenting a later plan's key with an earlier plan binds the key to both, and the later plan's own replay then conflicts |
| `ImportLaws.KeyBoundToTwoPlans` | autodev/autodev/adapters/queue_yaml.py:118-147 | Two imports from the empty queue already show that failure |
| `PlanImport.ValidateAcyclic` | autodev/autodev/queue_import.py:99-119 | The depth-first search terminates and rejects a plan with known dependencies if and only if its dependency relation has a cycle |
| `PlanImport.CycleSearch.Visit` | autodev/autodev/queue_import.py:107-116 | One visit either finishes its node with all its dependencies or has found a cycle |
| `PlanImport.WavesRuleOutCycles` | autodev/autodev/queue_import.py:255-275 | Once dependencies lie in strictly lower waves there is no cycle, so the search never rejects |
| `PlanImport.ValidateGraph` | autodev/autodev/queue_import.py:255-275 | The plan's graph checks accept exactly unique keys, known dependencies and strictly lower waves |
| `PlanImport.AllocateTaskIds` | autodev/autodev/queue_import.py:336-351 | The allocated ids are the next numbers, distinct and unused |
| `PlanImport.BuildQueueTasks` | autodev/autodev/queue_import.py:354-428 | Builds, in order, each plan task under its allocated id with no history and exactly the dependencies that the receipt gives for its plan entry, and the receipt that says so |
| `PlanImport.ValidateStoredReceipt` | autodev/autodev/queue_import.py:291-333 | Accepts a stored receipt exactly when it lists the document's keys in order with distinct ids of tasks that came from this plan |
| `QueueFile.QueueFile.Validate` | autodev/autodev/adapters/queue_yaml.py:194-296 | Validates the row list exactly as ValidQueue says |
| `QueueFile.QueueFile.ReadyTasks` | autodev/autodev/adapters/queue_yaml.py:314-316 | Exactly the pending tasks with closed dependencies, by priority and by the text of the id |
| `IdOrder.OlderFirst` | autodev/autodev/adapters/queue_yaml.py:314-316 | Ids sort as text: of two tasks the one with the smaller number comes first if and only if that number does not exceed the larger one cut to the same width |
| `QueueOrder.OldestIsNextIff` | autodev/autodev/adapters/queue_yaml.py:314-321 | The oldest ready task of the best priority is the next task if and only if that holds of it against every ready task of its priority |
| `QueueOrder.ThousandthFirst` | autodev/autodev/adapters/queue_yaml.py:314-339 | It fails in a queue of two ready tasks of one priority: H-1000 is the next task, not H-999 |
| `QueueFile.QueueFile.Next` | autodev/autodev/adapters/queue_yaml.py:319-321 | The first ready task, or none when none is ready |
| `QueueFile.QueueFile.CountInProgress` | autodev/autodev/adapters/queue_yaml.py:411-420 | The number of tasks in progress |
| `QueueFile.QueueFile.Claim` | autodev/autodev/adapters/queue_yaml.py:402-444 | claim on the row list performs the model's Claim, or fails with its error and writes nothing |
| `QueueFile.QueueFile.Complete` | autodev/autodev/adapters/queue_yaml.py:447-495 | complete on the row list performs the model's Complete or fails the same way |
| `QueueFile.QueueFile.Release` | autodev/autodev/adapters/queue_yaml.py:498-527 | release performs the model's Release or fails the same way |
| `QueueFile.QueueFile.Block` | autodev/autodev/adapters/queue_yaml.py:530-577 | block performs the model's Block or fails the same way |
| `QueueFile.QueueFile.Resume` | autodev/autodev/adapters/queue_yaml.py:580-608 | resume performs the model's Resume or fails the same way |
| `QueueFile.QueueFile.Skip` | autodev/autodev/adapters/queue_yaml.py:611-624 | skip performs the model's Skip or fails the same way |
| `QueueFile.QueueFile.Add` | autodev/autodev/adapters/queue_yaml.py:627-650 | add performs the model's Add or fails the same way; a success leaves one pending task more under the next number |
| `QueueFile.QueueFile.Propose` | autodev/autodev/adapters/queue_yaml.py:653-682 | propose performs the model's Propose or fails the same way; a success leaves one proposed task more and the same tasks ready |
| `QueueFile.QueueFile.Approve` | autodev/autodev/adapters/queue_yaml.py:685-698 | approve performs the model's Approve or fails the same way |
| `QueueFile.QueueFile.ImportPlan` | autodev/autodev/adapters/queue_yaml.py:103-182 | import performs the model's Import and returns its receipt, or fails the same way |
| `CapacitySafety.RunSafe` | autodev/autodev/host_capacity.py:343-539 | Over every interleaving of polls, cancels, transitions, heartbeats, releases and snapshots with processes dying at will: never more leases than workers, never more holders than a provider's limit, disjoint resources, distinct tokens, and no provider held while waiting for one |
| `CapacitySafety.EmptyIsSafe` | autodev/autodev/host_capacity.py:197-203 | The empty capacity document is where every run starts and satisfies it |
| `CapacitySafety.StepSafe` | autodev/autodev/host_capacity.py:343-539 | Each call keeps that |
| `CapacitySafety.TransitionSafe` | autodev/autodev/host_capacity.py:466-522 | A provider switch keeps the lease's resources and never exceeds a limit |
| `CapacitySafety.ReconciledStatus` | autodev/autodev/host_capacity.py:236-264 | After reconciliation a lease is live, orphan or needs_reconcile exactly as its process, supervisor and heartbeat say, and no dead process holds one |
| `CapacitySafety.LivingLeaseStays` | autodev/autodev/host_capacity.py:236-264 | Reconciliation never reclaims a living process's lease |
| `CapacityGrants.GrantAddsLease` | autodev/autodev/host_capacity.py:383-423 | A granting poll leaves the reconciled leases and exactly one more: the request's token, project, resources and, if the policy limits it, provider, live and not waiting; the caller waits no longer and every other waiter still does |
| `CapacityGrants.OtherPollsQueue` | autodev/autodev/host_capacity.py:385-399 | Any other poll changes no lease and leaves the caller waiting, in its old place if it had one |
| `CapacityGrants.AllocatableIffRoom` | autodev/autodev/host_capacity.py:293-320 | A waiter can be granted if and only if fewer than max workers hold leases, fewer than the limit hold its provider, and no lease holds one of its resources |
| `CapacityGrants.LonePollGrantedIff` | autodev/autodev/host_capacity.py:322-341 | A caller that waits alone is granted by its poll if and only if there is that room |
| `CapacityGrants.GrantsStayWithinLimits` | autodev/autodev/host_capacity.py:343-539 | Over every run from the empty document, told over what was asked for: each lease is of the project and holds the resources of its grant, and holds or waits for the provider last asked for; never more leases than workers, never more working on a provider than its limit, no resource asked for by two of them |
| `CapacityGrants.OnlySwitchesMoveProviders` | autodev/autodev/host_capacity.py:343-539 | No call changes a lease's project or resources, and none but a switch under its own token changes its provider |
| `CapacityGrants.SwitchExactly` | autodev/autodev/host_capacity.py:466-516 | A switch to an unlimited or already held provider is made at once; any other gives the held one up and is made if and only if no lease waiting for it comes before by (priority, request time, token) and fewer than the limit hold it; until then the lease keeps its place in the queue |
| `CapacityGrants.HeartbeatEffect` | autodev/autodev/host_capacity.py:441-453 | A heartbeat makes its own lease live if it was stale, and changes no other |
| `CapacityGrants.CancelKeepsOthers` | autodev/autodev/host_capacity.py:432-439 | Cancelling a request removes that waiter, keeps every other living one and touches no lease |
| `CapacityGrants.ReleaseKeepsOthers` | autodev/autodev/host_capacity.py:532-539 | Releasing a lease keeps every living process's lease with another token, with its provider and resources |
| `CapacitySafety.StatusesAddUp` | autodev/autodev/host_capacity.py:565-581 | live + orphan + needs_reconcile equals the number of leases |
| `CapacityFairness.GrantsAreFifo` | autodev/autodev/host_capacity.py:322-329 | Within a project the granted waiter is the one with the earliest request, then the least request id |
| `CapacityFairness.PassedOverIsNearer` | autodev/autodev/host_capacity.py:330-341 | When another project is granted before an allocatable one, the latter's cyclic distance strictly falls |
| `CapacityTurns.BypassBound` | autodev/autodev/host_capacity.py:322-341 | A project whose head could be granted at every grant is passed over at most as often as projects stood before it at first and places were lost to others since |
| `CapacityTurns.PlaceMoves` | autodev/autodev/host_capacity.py:330-341 | Exactly how a project's place in the round moves between a grant and the next choice: by those that joined and left before its turn, and, when the project granted last stops waiting, by the names before or after that one, because the round then starts over |
| `CapacityTurns.PlaceLost` | autodev/autodev/host_capacity.py:330-341 | A place is lost only to a project that joins before the turn, or when the project granted last stops waiting and a smaller name waits |
| `CapacityTurns.BoundedBypass` | autodev/autodev/host_capacity.py:322-341 | With a fixed set of N waiting projects no place is lost, so such a project is granted within as many grants as its cyclic position, fewer than N |
| `CapacityTurns.LostTurnStarves` | autodev/autodev/host_capacity.py:322-341 | Without it there is no bound: under every policy and for every n an honest run from the empty document has n grants at each of which a project that polls after every call of the others could be granted, and it is granted at none |
| `CapacityFairness.GrantedIffFirst` | autodev/autodev/host_capacity.py:489-516 | A waiting lease is granted by its poll if and only if it is first by (priority, request time, token) and the provider has room |
| `CapacityFairness.SwitchingNeverDeadlocks` | autodev/autodev/host_capacity.py:455-530 | While a lease waits for p either p has room and its one least contender takes it at its next poll, or p is full and every holder waits for nothing |
| `HostCapacityBroker.Broker.Reconciled` | autodev/autodev/host_capacity.py:236-291 | The two reconciliation loops compute the reconciled document |
| `HostCapacityBroker.Broker.SelectedWaiter` | autodev/autodev/host_capacity.py:322-341 | The loops over heads and projects find the waiter that one round of projects reaches first, which is allocatable and first of its project |
| `HostCapacityBroker.Broker.TryAcquire` | autodev/autodev/host_capacity.py:383-423 | One locked attempt grants exactly when the selection falls on the caller: then one lease more with the caller's token, project, provider and resources, and no waiter of its own; otherwise no lease more, and it waits |
| `HostCapacityBroker.Broker.Acquire` | autodev/autodev/host_capacity.py:343-430 | The polling call yields at most one lease whatever others do between polls; granted, the document has exactly the lease that was asked for more than the last poll found; cancelled or timed out, no waiter is left |
| `HostCapacityBroker.Broker.TryTransition` | autodev/autodev/host_capacity.py:466-525 | One locked attempt: lost, settled with the wanted provider, or waiting and holding none |
| `HostCapacityBroker.Broker.TransitionProvider` | autodev/autodev/host_capacity.py:455-530 | The polling switch ends settled with the wanted provider, lost with no lease left that carries the token, or still waiting only when time is up |
| `HostCapacityBroker.Broker.Heartbeat` | autodev/autodev/host_capacity.py:441-453 | Beats the one lease with the token, which is then not stale, and says whether it exists |
| `HostCapacityBroker.Broker.CancelWaiter` | autodev/autodev/host_capacity.py:432-439 | Leaves exactly the other requests' living waiters, and changes nothing else but by reconciliation |
| `HostCapacityBroker.Broker.Release` | autodev/autodev/host_capacity.py:532-539 | Leaves exactly the reconciled leases with another token, and changes nothing else but by reconciliation |
| `HostCapacityBroker.Broker.Snapshot` | autodev/autodev/host_capacity.py:541-581 | Reports the reconciled view, whose statuses add up to the occupied count, and writes only when asked to |
| `RunLoop.Supervisor.Run` | autodev/autodev/controller.py:4147-4714 | The loop ends whatever the world answers: at most max_tasks x consecutive-failure outcomes, done + blocked + leftover within max_tasks, retries per task below the budget, run.yaml's counters those of the outcomes, a failure with a P0 or P1 finding only as the last outcome, no worker left, each candidate landed or released exactly once, and success reported exactly for no blocked task and one of the six orderly reasons |
| `RunLoop.Supervisor.OnePass` | autodev/autodev/controller.py:4161-4649 | One iteration, statement by statement, is the modelled pass |
| `RunLoop.Supervisor.JudgeOutcome` | autodev/autodev/controller.py:4389-4564 | In terms of status, findings, dirty worktree, counters and budgets: exactly when a failed outcome stops the loop and with which reason, when its task is put back, when it counts as blocked and when the failure counts against the task |
| `RunLoop.Supervisor.GatherWave` | autodev/autodev/controller.py:4324-4358 | Reads the wave's results in order, applies the breaker and orders failures first, cancellations last |
| `RunLoop.Supervisor.DispatchWave` | autodev/autodev/controller.py:4237-4316 | Performs the modelled dispatch, whose wave and end reasons `DispatchTakesFirstReady` pins |
| `RunLoopLaws.PassKeepsBudget` | autodev/autodev/controller.py:4161-4649 | Every iteration keeps done + blocked + active + completed within max_tasks and strictly advances the measure (outcomes left, wave running, delay) |
| `RunLoopLaws.LeftIsNatural` | autodev/autodev/controller.py:4161-4649 | The number of outcomes never exceeds max_tasks x consecutive_failures_before_stop |
| `RunLoopLaws.ContinuingFailure` | autodev/autodev/controller.py:4404-4478 | A failed outcome that does not stop the loop is never the last one the consecutive-failure budget allows |
| `RunLoopLaws.PassKeepsRetries` | autodev/autodev/controller.py:4482-4548 | No task is put back more than same_task_failures_before_block - 1 times, each time for one more failure |
| `RunLoopLaws.PassAgrees` | autodev/autodev/controller.py:3825-3860 | The counters persisted in run.yaml equal the loop's own at the head of every iteration |
| `RunLoopLaws.PassConserves` | autodev/autodev/controller.py:4317-4379 | Candidates are conserved: landed, released, queued and still being made account for every candidate a worker delivers |
| `RunLoopLaws.ExactlyOnce` | autodev/autodev/controller.py:4651-4657 | When the loop has ended each candidate child has been landed or released exactly once, and no other child |
| `RunLoopLaws.CircuitBreaker` | autodev/autodev/controller.py:4324-4379 | In every run a candidate lands only if no failed member of its wave has a P0/P1 finding and every failed member that no breaker cancelled was processed before it without stopping the loop |
| `RunLoopVerdicts.FailureSettled` | autodev/autodev/controller.py:4389-4564 | What a failed outcome leaves in every variable of the loop and of run.yaml: it stops the loop exactly for a status that is not about a task, a P0 or P1 finding, a dirty worktree nobody retries in, the last failure the budget allows, a retry that cannot be resumed or a task found pending; it is put back exactly when a transient failure within both budgets can be resumed |
| `RunLoopVerdicts.SuccessSettled` | autodev/autodev/controller.py:4603-4634 | What a success leaves there: one done more, the failures in a row forgotten, and the end of the loop exactly when a direction check falls due and finds drift or a block |
| `RunLoopVerdicts.FatalOutcomeIsLast` | autodev/autodev/controller.py:4404-4419 | In every run a failed outcome whose task's review has a P0 or P1 finding, or that is not about a task, is the last outcome, and the loop has ended |
| `RunLoopVerdicts.CountersTellOutcomes` | autodev/autodev/controller.py:3825-3860 | In every run done, failures in a row, P0 and P1 counts, in the loop and in run.yaml, are those of the outcomes so far |
| `RunLoopDispatch.OpenedExactly` | autodev/autodev/controller.py:4161-4190 | The head of an iteration: the loop ends when its budget is spent and nothing is under way, else the first stop condition present becomes the reason unless one was set, a serial loop ends there, and without one nothing changes |
| `RunLoopDispatch.DispatchTakesFirstReady` | autodev/autodev/controller.py:4237-4275 | An idle loop takes the first ready tasks, as many as parallelism, remaining budget and free slots allow, as consecutively numbered workers, or ends because the queue cannot be read, there is no room, or nothing is ready, in this order |
| `RunLoopDispatch.DispatchedWaveIsClaimable` | autodev/autodev/controller.py:4237-4316 | A wave dispatched from what the queue holds consists of distinct ready tasks, none worse than a ready task left behind, and with no outside actor every one of them is claimed by id, in any order, whatever is settled in between |
| `RunLoopDispatch.StoppingTakesNothing` | autodev/autodev/controller.py:4237 | Once it is stopping a parallel loop starts no worker |
| `RunLoopDispatch.SerialRunsNext` | autodev/autodev/controller.py:4198-4236 | A serial iteration runs the next task as one new worker, or ends with the queue's reason for having none |
| `RunLoopDispatch.GatheredWave` | autodev/autodev/controller.py:4324-4358 | A gathered wave holds one result for each worker; every candidate of a wave with a failed P0 or P1 member is cancelled, marked by whether its claim could be released; failures come first and cancellations last, each in worker order |
| `RunLoopDispatch.TakenIsLanded` | autodev/autodev/controller.py:4367-4379 | The first result is taken; a candidate is landed unless the loop is stopping and is to halt before landing, and then it is released |
| `RunLoopLaws.SettleKeepsBudget` | autodev/autodev/controller.py:4389-4646 | Each outcome spends budget, whether it succeeds or fails |
| `RunLoop.NothingRuns` | autodev/autodev/controller.py:4658-4665 | When an iteration ends the loop no worker is active, so the join on the way out is never reached on a normal return |

## Left out

- Database mode: only the file-backed queue, ledgers and capacity state are modelled.
- Running agents, verify commands, git and push: each is an outcome the environment chooses.
- Clocks, process ids, start identities and heartbeat threads: they enter as the census of a call, the stop conditions of an iteration, or request times.
- YAML and JSON encoding, fsync and file locks: each locked read-modify-write is one step.
- Field-shape checks of an import request (lengths, patterns, types): only unique keys, known dependencies, waves and cycles are modelled. The plan digest is an opaque value and the receipt's import id, a hash of plan and digest, is not stored.
- Task ids are written `H-` and a number of at least three digits, as the code generates them; a hand-written id of another form has no counterpart. The 128-character limit is ignored.
- A task's dependencies are a set; a repeated entry in the list is not distinguished.
- Titles, notes, artifacts, acceptance texts and timestamps of tasks, and the queue summary view, are not modelled.
- `config.queue.max_in_progress` and the queue document's own limit are taken to be the same number, as configuration loading requires.
- LandingController.Supervised.LandCandidate: the run status `landing_waiting_provider` during a re-review is not distinguished from `landing_verifying`; heartbeats and the capacity lease's release on the way out are not steps.
- LandingRecovery.RecoveryConverges: a ledger that is not recoverable at the start but becomes so during the pass, because another ledger's landing takes its candidate in or completes its task, is left to `TurnDecides`.
- LandingModel: whether the queue claim is still live is not checked again at the ref CAS, as in the source, so a candidate may enter the ref while its task is refused; the ledger then stays open.
- LandingTheorems.FinalizedMeansLanded: a human may force a task done while a landing is under way; replay then closes the ledger for a task it did not complete itself, and the statement does not say who completed it.
- CapacityTurns.BypassBound: freedom from starvation does not hold and is not claimed (`LostTurnStarves`); provider priority orders transitions only, not first acquires.
- HostCapacityBroker.Broker.Acquire: the global STOP file is one of the reasons a poll is cancelled; its check before the first poll, which leaves no trace, is not separate.
- RunLoop.Supervisor.Run: retry contexts, steering text, evidence archives, notifications, handoff packets and summaries written by the loop are not modelled; an exception out of a landing (a task missing from the queue) ends the process and is a crash in the landing machine, not a return of the loop.
- RunLoop.Supervisor.Run: serial mode lets `run_one` land inside the worker result; only parallel mode counts landings and releases.
- Preflight, the builder and evaluator steps of `run_one`, branch and worktree deletion, secret and path policy, dashboard, CLI, HTTP server and scheduler: I/O or checks that one branch settles.
