/**
 * The landing transaction as a state machine over durable state.
 *
 * One supervisor at a time (it owns the project loop lease) works through the steps of
 * landing and recovery. Each step is one durable action: a git command, a locked queue
 * operation, one file write. Between any two steps the supervisor may die, taking only its
 * own control state with it, and any other process may move the integration ref, edit the
 * queue or finish another candidate.
 */
module LandingModel {
  import opened Wrappers
  import opened Commits
  import opened QueueTypes
  import opened QueueModel

  datatype RunId = R(n: nat)

  datatype RunStatus =
    | CandidateReady
    | LandingVerifying
    | FinalizePending
    | RunDone
    | Cancelled
    | Failed(status: string)

  // run.yaml of a child run: its task, its queue claim, the commit its worktree started
  // from and the worktree's HEAD.
  datatype ChildRun = ChildRun(task: TaskId, lease: Lease, start: Commit, head: Commit, status: RunStatus)

  // Why the lane gives a candidate up.
  datatype Refusal =
    | CapacityFailed | StateInvalid | Conflicted
    | VerifyFailed | SafetyRed | ReviewFailed | ReviewRed
    | CasFailed

  // The run status it leaves.
  function StatusText(cause: Refusal): string {
    match cause
    case CapacityFailed => "landing_capacity_failed"
    case StateInvalid => "landing_state_invalid"
    case Conflicted => "integration_conflict"
    case VerifyFailed => "landing_verify_failed"
    case SafetyRed => "landing_safety_policy_red"
    case ReviewFailed => "landing_review_failed"
    case ReviewRed => "landing_review_red"
    case CasFailed => "integration_cas_failed"
  }

  datatype LedgerState = Prepared | Integrated | QueueFinalized

  datatype Ledger = Ledger(
    state: LedgerState,
    expected: Commit,
    candidate: Commit,
    lease: Lease,
    pushRequired: bool,
    pushed: bool)

  // Where a finished piece of work returns to.
  datatype Cont =
    | ToLoop
    | ToRecovery(todo: seq<RunId>, errors: bool)
    | ToAdoption(todo: seq<RunId>, errors: bool)

  // The next action of the landing lane, or of the recovery of one ledger.
  datatype Step =
    | Enter                                          // load the run, its task and a capacity lease
    | ReadRef
    | Rebase(expected: Commit)
    | ReadHead(expected: Commit)
    | MarkVerifying(expected: Commit, candidate: Commit)
    | Verify(expected: Commit, candidate: Commit)
    | Safety(expected: Commit, candidate: Commit)
    | Review(expected: Commit, candidate: Commit)
    | WritePrepared(expected: Commit, candidate: Commit)
    | Cas(ledger: Ledger)
    | WriteIntegrated(ledger: Ledger)
    | Push(ledger: Ledger)
    | WritePushed(ledger: Ledger)
    | FinishTask(ledger: Ledger)
    | MarkDone(ledger: Ledger)
    | WriteFinalized(ledger: Ledger)
    | MarkPending
    | BlockFailed(cause: Refusal)
    | MarkFailed(cause: Refusal, blocked: bool)
    | RecoverIntegrated(ledger: Ledger)
    | RecoverPush(ledger: Ledger)
    | RecoverPushed(ledger: Ledger)
    | RecoverPeek(ledger: Ledger)
    | RecoverFinish(ledger: Ledger)
    | RecoverMark(ledger: Ledger)
    | RecoverFinalized(ledger: Ledger)
    | AdoptMark
    | CancelRelease
    | CancelMark(released: bool)

  datatype Supervisor =
    | Down
    | Recovering(todo: seq<RunId>, errors: bool)
    | Adopting(todo: seq<RunId>, errors: bool)
    | Looping
    | Working(run: RunId, step: Step, k: Cont)

  // A ref move; `lander` is the run whose landing made it, if one did.
  datatype Move = Move(lander: Option<RunId>, from: Commit, to: Commit)

  // A lease-bound completion made by a landing or its recovery.
  datatype Completion = Completion(run: RunId, task: TaskId, lease: Lease, candidate: Commit)

  datatype Diff = Diff(candidate: Commit, base: Commit)

  datatype System = System(
    ref: Commit,
    remote: Option<Commit>,
    queue: Queue,
    runs: map<RunId, ChildRun>,
    ledgers: map<RunId, Ledger>,
    push: bool,                      // config.branch.push of the current supervisor
    sup: Supervisor,
    // history
    verified: set<Commit>,           // commits that passed the final verify
    reviewed: set<Diff>,             // diffs that passed a landing re-review
    moves: seq<Move>,
    completions: seq<Completion>)

  /** `ok` is the outcome of the external command the step runs, `raised` whether a failed one
      raised an error instead of reporting a verdict, `commit` the HEAD a
      successful rebase produces, `order` the directory listing a new pass works through. */
  datatype Event =
    | Advance(ok: bool, raised: bool, commit: Commit, order: seq<RunId>)
    | Boot(order: seq<RunId>, push: bool)
    | Crash
    | Land(run: RunId)
    | Cancel(run: RunId)
    | NewCandidate(run: RunId, child: ChildRun)
    | OtherCas(expected: Commit, next: Commit)
    | OtherQueue(op: Op)

  function Return(s: System, k: Cont, ok: bool): System {
    s.(sup := match k
              case ToLoop => Looping
              case ToRecovery(todo, errors) => Recovering(todo, errors || !ok)
              case ToAdoption(todo, errors) => Adopting(todo, errors || !ok))
  }

  function At(s: System, run: RunId, step: Step, k: Cont): System {
    s.(sup := Working(run, step, k))
  }

  function SetStatus(s: System, run: RunId, status: RunStatus): System
    requires run in s.runs
  {
    s.(runs := s.runs[run := s.runs[run].(status := status)])
  }

  function WriteLedger(s: System, run: RunId, ledger: Ledger): System {
    s.(ledgers := s.ledgers[run := ledger])
  }

  // Rebase, verify, safety policy and re-review: everything before the ledger is written.
  function ExamineStep(s: System, run: RunId, step: Step, k: Cont, ok: bool, raised: bool, commit: Commit): System
    requires run in s.runs
  {
    var child := s.runs[run];
    match step
    case Enter =>
      if child.task !in s.queue.tasks then (if k.ToLoop? then s.(sup := Down) else Return(s, k, false))
      else if ok then At(s, run, ReadRef, k)
      else At(s, run, BlockFailed(if raised then CapacityFailed else StateInvalid), k)
    case ReadRef =>
      if !ok then At(s, run, BlockFailed(StateInvalid), k)
      else if s.ref != child.start then At(s, run, Rebase(s.ref), k)
      else At(s, run, ReadHead(s.ref), k)
    case Rebase(expected) =>
      // A successful rebase yields a descendant of its target.
      if ok && IsAncestor(expected, commit)
      then At(s.(runs := s.runs[run := child.(head := commit)]), run, ReadHead(expected), k)
      else At(s, run, BlockFailed(Conflicted), k)
    case ReadHead(expected) =>
      if ok then At(s, run, MarkVerifying(expected, child.head), k)
      else At(s, run, BlockFailed(StateInvalid), k)
    case MarkVerifying(expected, candidate) =>
      At(SetStatus(s, run, LandingVerifying), run, Verify(expected, candidate), k)
    case Verify(expected, candidate) =>
      if ok then At(s.(verified := s.verified + {candidate}), run, Safety(expected, candidate), k)
      else At(s, run, BlockFailed(VerifyFailed), k)
    case Safety(expected, candidate) =>
      if !ok then At(s, run, BlockFailed(SafetyRed), k)
      else if expected != child.start then At(s, run, Review(expected, candidate), k)
      else At(s, run, WritePrepared(expected, candidate), k)
    case Review(expected, candidate) =>
      if ok
      then At(s.(reviewed := s.reviewed + {Diff(candidate, expected)}), run, WritePrepared(expected, candidate), k)
      else At(s, run, BlockFailed(if raised then ReviewFailed else ReviewRed), k)
    case _ => s
  }

  function NewLedger(s: System, run: RunId, expected: Commit, candidate: Commit): Ledger
    requires run in s.runs
  {
    Ledger(Prepared, expected, candidate, s.runs[run].lease, s.push, !s.push)
  }

  // git push of the integration branch; the remote accepts only a fast-forward
  predicate PushAccepted(s: System, ok: bool) {
    ok && (s.remote.Some? ==> IsAncestor(s.remote.value, s.ref))
  }

  function CompletionOp(s: System, run: RunId, ledger: Ledger): Op
    requires run in s.runs
  {
    Op.Complete(s.runs[run].task, ledger.lease, false, true)
  }

  // queue.done under the recorded claim
  function CompleteTaskOf(s: System, run: RunId, ledger: Ledger): System
    requires run in s.runs
  {
    s.(queue := QueueModel.Step(s.queue, CompletionOp(s, run, ledger)),
       completions := s.completions + [Completion(run, s.runs[run].task, ledger.lease, ledger.candidate)])
  }

  predicate Completes(s: System, run: RunId, ledger: Ledger)
    requires run in s.runs
  {
    Apply(s.queue, CompletionOp(s, run, ledger)).Ok?
  }

  // From the prepared ledger to the finalized one.
  function CommitStep(s: System, run: RunId, step: Step, k: Cont, ok: bool): System
    requires run in s.runs
  {
    match step
    case WritePrepared(expected, candidate) =>
      var ledger := NewLedger(s, run, expected, candidate);
      At(WriteLedger(s, run, ledger), run, Cas(ledger), k)
    case Cas(ledger) =>
      if s.ref == ledger.expected
      then At(s.(ref := ledger.candidate, moves := s.moves + [Move(Some(run), s.ref, ledger.candidate)]),
              run, WriteIntegrated(ledger), k)
      else At(s, run, BlockFailed(CasFailed), k)
    case WriteIntegrated(ledger) =>
      var written := ledger.(state := Integrated);
      At(WriteLedger(s, run, written), run, if s.push then Push(written) else FinishTask(written), k)
    case Push(ledger) =>
      if PushAccepted(s, ok) then At(s.(remote := Some(s.ref)), run, WritePushed(ledger), k)
      else At(s, run, MarkPending, k)
    case WritePushed(ledger) =>
      var written := ledger.(pushed := true);
      At(WriteLedger(s, run, written), run, FinishTask(written), k)
    case FinishTask(ledger) =>
      if Completes(s, run, ledger) then At(CompleteTaskOf(s, run, ledger), run, MarkDone(ledger), k)
      else At(s, run, MarkPending, k)
    case MarkDone(ledger) => At(SetStatus(s, run, RunDone), run, WriteFinalized(ledger), k)
    case WriteFinalized(ledger) => Return(WriteLedger(s, run, ledger.(state := QueueFinalized)), k, true)
    case MarkPending => Return(SetStatus(s, run, FinalizePending), k, false)
    case _ => s
  }

  // A failed landing blocks the task under the recorded claim and marks the run.
  function FailureStep(s: System, run: RunId, step: Step, k: Cont): System
    requires run in s.runs
  {
    var child := s.runs[run];
    match step
    case BlockFailed(cause) =>
      var op := Op.Block(child.task, child.lease, false, StatusText(cause));
      At(s.(queue := QueueModel.Step(s.queue, op)), run, MarkFailed(cause, Apply(s.queue, op).Ok?), k)
    case MarkFailed(cause, blocked) =>
      Return(SetStatus(s, run, Failed(if blocked then StatusText(cause) else "system_error")), k, false)
    case AdoptMark => Return(SetStatus(s, run, RunDone), k, true)
    case CancelRelease =>
      var op := Op.Release(child.task, child.lease);
      At(s.(queue := QueueModel.Step(s.queue, op)), run, CancelMark(Apply(s.queue, op).Ok?), k)
    case CancelMark(released) =>
      Return(SetStatus(s, run, if released then Cancelled else Failed("worker_needs_reconcile")), k, false)
    case _ => s
  }

  // Replay of one ledger whose candidate the ref already contains.
  function RecoverStep(s: System, run: RunId, step: Step, k: Cont, ok: bool): System
    requires run in s.runs
  {
    match step
    case RecoverIntegrated(ledger) =>
      var written := ledger.(state := Integrated);
      At(WriteLedger(s, run, written), run,
         if written.pushRequired && !written.pushed then RecoverPush(written) else RecoverPeek(written), k)
    case RecoverPush(ledger) =>
      if PushAccepted(s, ok) then At(s.(remote := Some(s.ref)), run, RecoverPushed(ledger), k)
      else Return(s, k, false)
    case RecoverPushed(ledger) =>
      var written := ledger.(pushed := true);
      At(WriteLedger(s, run, written), run, RecoverPeek(written), k)
    case RecoverPeek(ledger) =>
      var task := s.runs[run].task;
      if task !in s.queue.tasks then Return(s, k, false)
      else if s.queue.tasks[task].status == Done then At(s, run, RecoverMark(ledger), k)
      else At(s, run, RecoverFinish(ledger), k)
    case RecoverFinish(ledger) =>
      if Completes(s, run, ledger) then At(CompleteTaskOf(s, run, ledger), run, RecoverMark(ledger), k)
      else Return(s, k, false)
    case RecoverMark(ledger) => At(SetStatus(s, run, RunDone), run, RecoverFinalized(ledger), k)
    case RecoverFinalized(ledger) => Return(WriteLedger(s, run, ledger.(state := QueueFinalized)), k, true)
    case _ => s
  }

  // _reconcile_file_landing_ledgers: what to do with the next ledger of the listing
  function PickLedger(s: System, todo: seq<RunId>, errors: bool, ok: bool): System
    requires todo != []
  {
    var run, rest := todo[0], todo[1..];
    if run !in s.ledgers || s.ledgers[run].state == QueueFinalized then s.(sup := Recovering(rest, errors))
    else if !ok then s.(sup := Recovering(rest, true))
    else
      var ledger := s.ledgers[run];
      if ledger.state == Prepared && s.ref == ledger.expected
      then At(s, run, Enter, ToRecovery(rest, errors))
      else if !IsAncestor(ledger.candidate, s.ref) then s.(sup := Recovering(rest, true))
      else At(s, run, RecoverIntegrated(ledger), ToRecovery(rest, errors))
  }

  // _reconcile_orphan_candidates: what to do with the next run of the listing
  function PickOrphan(s: System, todo: seq<RunId>, errors: bool): System
    requires todo != []
  {
    var run, rest := todo[0], todo[1..];
    if run !in s.runs || s.runs[run].status != CandidateReady then s.(sup := Adopting(rest, errors))
    else
      var child := s.runs[run];
      if child.task !in s.queue.tasks then s.(sup := Adopting(rest, true))
      else if s.queue.tasks[child.task].status == Done then At(s, run, AdoptMark, ToAdoption(rest, errors))
      else if !ActiveLease(s.queue.tasks[child.task], child.lease) then s.(sup := Adopting(rest, true))
      else At(s, run, Enter, ToAdoption(rest, errors))
  }

  predicate IsExamine(step: Step) {
    step.Enter? || step.ReadRef? || step.Rebase? || step.ReadHead? || step.MarkVerifying?
    || step.Verify? || step.Safety? || step.Review?
  }

  predicate IsCommit(step: Step) {
    step.WritePrepared? || step.Cas? || step.WriteIntegrated? || step.Push? || step.WritePushed?
    || step.FinishTask? || step.MarkDone? || step.WriteFinalized? || step.MarkPending?
  }

  predicate IsRecover(step: Step) {
    step.RecoverIntegrated? || step.RecoverPush? || step.RecoverPushed? || step.RecoverPeek?
    || step.RecoverFinish? || step.RecoverMark? || step.RecoverFinalized?
  }

  function WorkStep(s: System, run: RunId, step: Step, k: Cont, ok: bool, raised: bool, commit: Commit): System
    requires run in s.runs
  {
    if IsExamine(step) then ExamineStep(s, run, step, k, ok, raised, commit)
    else if IsCommit(step) then CommitStep(s, run, step, k, ok)
    else if IsRecover(step) then RecoverStep(s, run, step, k, ok)
    else FailureStep(s, run, step, k)
  }

  // A directory listing names everything that is there.
  predicate Lists(order: seq<RunId>, ids: set<RunId>) {
    forall r :: r in ids ==> r in order
  }

  // A claim's receipt, with the revision the claim made, belongs to one child run.
  predicate ClaimIsNew(runs: map<RunId, ChildRun>, child: ChildRun) {
    forall r :: r in runs ==> !(runs[r].task == child.task && runs[r].lease == child.lease)
  }

  // The supervisor takes its next step.
  function AdvanceStep(s: System, ok: bool, raised: bool, commit: Commit, order: seq<RunId>): System {
    match s.sup
    case Down => s
    case Looping => s
    case Recovering(todo, errors) =>
      if todo != [] then PickLedger(s, todo, errors, ok)
      else if errors then s.(sup := Down)            // landing_reconcile_required
      else if Lists(order, s.runs.Keys) then s.(sup := Adopting(order, false)) else s
    case Adopting(todo, errors) =>
      if todo != [] then PickOrphan(s, todo, errors)
      else if errors then s.(sup := Down)
      else s.(sup := Looping)
    case Working(run, step, k) =>
      if run in s.runs then WorkStep(s, run, step, k, ok, raised, commit) else s
  }

  // A candidate that waits for the lane.
  predicate Landable(s: System, run: RunId) {
    s.sup == Looping && run in s.runs && s.runs[run].status == CandidateReady
  }

  function Next(s: System, e: Event): System {
    match e
    case Advance(ok, raised, commit, order) => AdvanceStep(s, ok, raised, commit, order)
    case Boot(order, push) =>
      if s.sup == Down && Lists(order, s.ledgers.Keys) then s.(sup := Recovering(order, false), push := push) else s
    case Crash => s.(sup := Down)
    case Land(run) => if Landable(s, run) then At(s, run, Enter, ToLoop) else s
    case Cancel(run) => if Landable(s, run) then At(s, run, CancelRelease, ToLoop) else s
    case NewCandidate(run, child) =>
      // A worktree starts from a commit of the branch and its HEAD descends from it.
      if run !in s.runs && child.status == CandidateReady && ClaimIsNew(s.runs, child)
         && IsAncestor(child.start, s.ref) && IsAncestor(child.start, child.head)
      then s.(runs := s.runs[run := child]) else s
    case OtherCas(expected, next) =>
      if s.ref == expected && IsAncestor(expected, next)
      then s.(ref := next, moves := s.moves + [Move(None, expected, next)]) else s
    case OtherQueue(op) => s.(queue := QueueModel.Step(s.queue, op))
  }

  function Execute(s: System, es: seq<Event>): System
    decreases |es|
  {
    if es == [] then s else Execute(Next(s, es[0]), es[1..])
  }

  // Nothing landed yet, no supervisor.
  predicate Initial(s: System) {
    && s.sup == Down && s.runs == map[] && s.ledgers == map[]
    && s.moves == [] && s.completions == []
  }
}
