/**
 * What a landing leaves behind when it ends: the status of its run, its ledger and its task,
 * by the step it ended at, and who can finish the task from then on.
 */
module LandingOutcomes {
  import opened Commits
  import opened QueueTypes
  import opened QueueModel
  import opened QueueReceipts
  import opened QueueEffects
  import opened LandingModel
  import opened LandingFrame

  predicate Outsider(e: Event) {
    e.NewCandidate? || e.OtherCas? || e.OtherQueue?
  }

  predicate Outsiders(es: seq<Event>) {
    forall i :: 0 <= i < |es| ==> Outsider(es[i])
  }

  lemma {:induction false} OthersKeepControl(s: System, es: seq<Event>)
    requires Outsiders(es)
    ensures var s' := Execute(s, es);
            && s'.sup == s.sup && s'.ledgers == s.ledgers && s'.push == s.push
            && (forall r :: r in s.runs ==> r in s'.runs && s'.runs[r] == s.runs[r])
    decreases |es|
  {
    if es != [] {
      assert Outsider(es[0]);
      OthersKeepControl(Next(s, es[0]), es[1..]);
    }
  }

  // ------------------------------------------------------------- statuses

  // The status that a cause stands for.
  predicate Spelled(cause: Refusal, status: string) {
    && (cause == CapacityFailed ==> status == "landing_capacity_failed")
    && (cause == StateInvalid ==> status == "landing_state_invalid")
    && (cause == Conflicted ==> status == "integration_conflict")
    && (cause == VerifyFailed ==> status == "landing_verify_failed")
    && (cause == SafetyRed ==> status == "landing_safety_policy_red")
    && (cause == ReviewFailed ==> status == "landing_review_failed")
    && (cause == ReviewRed ==> status == "landing_review_red")
    && (cause == CasFailed ==> status == "integration_cas_failed")
  }

  // The status that a failure of this step stands for.
  predicate RefusedAs(step: LandingModel.Step, raised: bool, status: string) {
    match step
    case Enter => status == if raised then "landing_capacity_failed" else "landing_state_invalid"
    case Rebase(_) => status == "integration_conflict"
    case Verify(_, _) => status == "landing_verify_failed"
    case Safety(_, _) => status == "landing_safety_policy_red"
    case Review(_, _) => status == if raised then "landing_review_failed" else "landing_review_red"
    case Cas(_) => status == "integration_cas_failed"
    case _ => status == "landing_state_invalid"
  }

  // The queue honours the claim's receipt.
  predicate Honours(q: Queue, child: ChildRun) {
    ValidQueue(q) && child.task in q.tasks && Claimed(q.tasks[child.task], child.lease)
  }

  // One task is blocked under a failure status; the gate closes if the failure is a red
  // review or safety check, and stays closed if it was.
  predicate BlocksUnder(q: Queue, q': Queue, id: TaskId, status: string, red: bool) {
    && OnlyTask(q, q', id)
    && var (t, t') := (q.tasks[id], q'.tasks[id]);
    t' == t.(status := Blocked, token := "", revision := t.revision + 1, failures := t.failures + 1,
             lastFailure := status, gate := t.gate || red)
  }

  // A refusal as it is recorded: the task is blocked and the run ends with the status of the
  // cause, or the claim is no longer honoured and the run is a system error.
  predicate Records(found: Queue, left: Queue, child: ChildRun, cause: Refusal, status: string) {
    if Honours(found, child)
    then Spelled(cause, status)
         && BlocksUnder(found, left, child.task, status, cause == SafetyRed || cause == ReviewRed)
    else status == "system_error" && left == found
  }

  lemma BlockOfClaim(q: Queue, child: ChildRun, cause: Refusal)
    ensures var op := Op.Block(child.task, child.lease, false, StatusText(cause));
            var q' := QueueModel.Step(q, op);
            && (Apply(q, op).Ok? <==> Honours(q, child))
            && Records(q, q', child, cause, if Apply(q, op).Ok? then StatusText(cause) else "system_error")
  {
    var op := Op.Block(child.task, child.lease, false, StatusText(cause));
    if ValidQueue(q) {
      BlockEffect(q, op);
    } else {
      InvalidQueueRefusesAll(q, op);
    }
  }

  // By cause: an honoured block leaves the task blocked under the status of its cause, and
  // gated if and only if it was gated or the cause is a red safety check or a red re-review.
  lemma BlockByCause(s: System, run: RunId, cause: Refusal, k: Cont, e: Event)
    requires run in s.runs && s.sup == Working(run, BlockFailed(cause), k) && e.Advance?
    ensures var s' := Next(s, e);
            var child := s.runs[run];
            var blocked := Honours(s.queue, child);
            && s' == s.(queue := s'.queue, sup := Working(run, MarkFailed(cause, blocked), k))
            && Records(s.queue, s'.queue, child, cause,
                       if blocked then s'.queue.tasks[child.task].lastFailure else "system_error")
  {
    BlockOfClaim(s.queue, s.runs[run], cause);
    BlockStep(s, run, cause, k, e);
  }

  lemma BlockStep(s: System, run: RunId, cause: Refusal, k: Cont, e: Event)
    requires run in s.runs && s.sup == Working(run, BlockFailed(cause), k) && e.Advance?
    ensures var op := Op.Block(s.runs[run].task, s.runs[run].lease, false, StatusText(cause));
            Next(s, e) == s.(queue := QueueModel.Step(s.queue, op),
                             sup := Working(run, MarkFailed(cause, Apply(s.queue, op).Ok?), k))
  {
  }

  lemma MarkByCause(s: System, run: RunId, cause: Refusal, blocked: bool, k: Cont, e: Event)
    requires run in s.runs && s.sup == Working(run, MarkFailed(cause, blocked), k) && e.Advance?
    ensures var s' := Next(s, e);
            && run in s'.runs && s'.runs[run].status.Failed?
            && s' == s.(runs := s'.runs, sup := s'.sup) && s'.runs[run].(status := s.runs[run].status) == s.runs[run]
            && Broken(s'.sup, k)
            && (if blocked then Spelled(cause, s'.runs[run].status.status)
                else s'.runs[run].status.status == "system_error")
  {
  }

  // Control is back where the work came from, with an error.
  predicate Broken(sup: Supervisor, k: Cont) {
    match k
    case ToLoop => sup == Looping
    case ToRecovery(todo, _) => sup == Recovering(todo, true)
    case ToAdoption(todo, _) => sup == Adopting(todo, true)
  }

  // ------------------------------------------------------------- failing steps

  predicate Checks(step: LandingModel.Step) {
    IsExamine(step) || step.Cas?
  }

  // The step's command fails: it says so, the rebase yields no descendant of its target, or
  // the ref is not where the ledger expects it.
  predicate Fails(s: System, step: LandingModel.Step, e: Event)
    requires e.Advance?
  {
    match step
    case Rebase(expected) => !(e.ok && IsAncestor(expected, e.commit))
    case MarkVerifying(_, _) => false
    case Cas(ledger) => s.ref != ledger.expected
    case _ => !e.ok
  }

  predicate GivesUp(sup: Supervisor) {
    sup.Working? && sup.step.BlockFailed?
  }

  // A landing is given up at a check that fails and at no other.
  lemma GivesUpIff(s: System, run: RunId, step: LandingModel.Step, k: Cont, e: Event)
    requires run in s.runs && s.runs[run].task in s.queue.tasks
    requires s.sup == Working(run, step, k) && Checks(step) && e.Advance?
    ensures GivesUp(Next(s, e).sup) <==> Fails(s, step, e)
  {
  }

  lemma GivesUpFor(s: System, run: RunId, step: LandingModel.Step, k: Cont, e: Event)
    requires run in s.runs && s.runs[run].task in s.queue.tasks
    requires s.sup == Working(run, step, k) && Checks(step) && e.Advance? && Fails(s, step, e)
    ensures GivesUp(Next(s, e).sup)
    ensures var cause := Next(s, e).sup.step.cause;
            && Next(s, e) == s.(sup := Working(run, BlockFailed(cause), k))
            && (cause == SafetyRed || cause == ReviewRed <==> IsRed(step, e.raised))
            && forall status :: Spelled(cause, status) ==> RefusedAs(step, e.raised, status)
  {
  }

  // A red verdict: the safety check, or a re-review that did not just break.
  predicate IsRed(step: LandingModel.Step, raised: bool) {
    step.Safety? || (step.Review? && !raised)
  }

  // What a failing step comes to, whatever others do before its block and before its mark:
  // the task is blocked and the run marked under the status of that step, or, when the claim
  // is no longer honoured, the queue is left alone and the run is a system error.
  lemma RefusalIsRecorded(s: System, run: RunId, step: LandingModel.Step, k: Cont, e: Event, others: seq<Event>,
                          block: Event, more: seq<Event>, mark: Event)
    requires run in s.runs && s.runs[run].task in s.queue.tasks
    requires s.sup == Working(run, step, k) && Checks(step) && e.Advance? && Fails(s, step, e)
    requires Outsiders(others) && block.Advance? && Outsiders(more) && mark.Advance?
    ensures var found := Execute(Next(s, e), others);
            var left := Next(found, block);
            var end := Next(Execute(left, more), mark);
            && run in found.runs && found.runs[run] == s.runs[run]
            && run in end.runs && end.runs[run].status.Failed?
            && end.ledgers == s.ledgers && Broken(end.sup, k)
            && var status := end.runs[run].status.status;
            && if Honours(found.queue, s.runs[run])
               then RefusedAs(step, e.raised, status)
                    && BlocksUnder(found.queue, left.queue, s.runs[run].task, status, IsRed(step, e.raised))
               else status == "system_error" && left.queue == found.queue
  {
    GivesUpFor(s, run, step, k, e);
    var cause := Next(s, e).sup.step.cause;
    OthersKeepControl(Next(s, e), others);
    var found := Execute(Next(s, e), others);
    BlockByCause(found, run, cause, k, block);
    var left := Next(found, block);
    OthersKeepControl(left, more);
    MarkByCause(Execute(left, more), run, cause, Honours(found.queue, s.runs[run]), k, mark);
  }

  // ------------------------------------------------------------- the gate, over runs

  // The event completes the task with a passed review: another caller does, or a landing.
  predicate ReviewedBy(s: System, e: Event, id: TaskId) {
    || (e.OtherQueue? && e.op.Complete? && e.op.id == id && e.op.reviewPassed && Apply(s.queue, e.op).Ok?)
    || (e.Advance? && s.sup.Working? && s.sup.run in s.runs && s.runs[s.sup.run].task == id
        && |Next(s, e).completions| == |s.completions| + 1)
  }

  predicate ReviewedLater(s: System, es: seq<Event>, id: TaskId)
    decreases |es|
  {
    es != [] && (ReviewedBy(s, es[0], id) || ReviewedLater(Next(s, es[0]), es[1..], id))
  }

  predicate Held(q: Queue, id: TaskId) {
    Gated(q, id) && q.tasks[id].status != Done
  }

  lemma SurrenderKeepsHold(s: System, e: Event, id: TaskId)
    requires Held(s.queue, id) && e.Advance? && s.sup.Working? && s.sup.run in s.runs && IsSurrender(s.sup.step)
    ensures Held(Next(s, e).queue, id)
  {
    var child := s.runs[s.sup.run];
    if s.sup.step.BlockFailed? {
      GateStep(s.queue, Op.Block(child.task, child.lease, false, StatusText(s.sup.step.cause)), id);
    } else {
      GateStep(s.queue, Op.Release(child.task, child.lease), id);
    }
  }

  lemma FinishKeepsHold(s: System, e: Event, id: TaskId)
    requires Held(s.queue, id) && e.Advance? && s.sup.Working? && s.sup.run in s.runs
    requires IsFinish(s.sup.step) && Completes(s, s.sup.run, s.sup.step.ledger)
    ensures Held(Next(s, e).queue, id) || ReviewedBy(s, e, id)
  {
    WorkFrame(s, s.sup.run, s.sup.step, s.sup.k, e.ok, e.raised, e.commit);
    GateStep(s.queue, CompletionOp(s, s.sup.run, s.sup.step.ledger), id);
  }

  lemma OtherStepsKeepQueue(s: System, e: Event)
    requires e.Advance? && s.sup.Working? && s.sup.run in s.runs && !IsSurrender(s.sup.step)
    requires !(IsFinish(s.sup.step) && Completes(s, s.sup.run, s.sup.step.ledger))
    ensures Next(s, e).queue == s.queue
  {
    WorkFrame(s, s.sup.run, s.sup.step, s.sup.k, e.ok, e.raised, e.commit);
  }

  lemma EventKeepsHold(s: System, e: Event, id: TaskId)
    requires Held(s.queue, id)
    ensures Held(Next(s, e).queue, id) || ReviewedBy(s, e, id)
  {
    if e.Advance? && s.sup.Working? && s.sup.run in s.runs {
      if IsSurrender(s.sup.step) {
        SurrenderKeepsHold(s, e, id);
      } else if IsFinish(s.sup.step) && Completes(s, s.sup.run, s.sup.step.ledger) {
        FinishKeepsHold(s, e, id);
      } else {
        OtherStepsKeepQueue(s, e);
      }
    } else if e.OtherQueue? {
      GateStep(s.queue, e.op, id);
    }
  }

  lemma {:induction false} RunKeepsHold(s: System, es: seq<Event>, id: TaskId)
    requires Held(s.queue, id)
    ensures Held(Execute(s, es).queue, id) || ReviewedLater(s, es, id)
    decreases |es|
  {
    if es != [] {
      EventKeepsHold(s, es[0], id);
      if Held(Next(s, es[0]).queue, id) {
        RunKeepsHold(Next(s, es[0]), es[1..], id);
      }
    }
  }

  // A landing refused for a red safety check or a red re-review, its claim still honoured:
  // whatever supervisors, crashes and others do from then on, the task is gated and open, and
  // forcing it done fails, until it is completed with a passed review.
  lemma RedRefusalNeedsReview(s: System, run: RunId, step: LandingModel.Step, k: Cont, e: Event,
                              others: seq<Event>, block: Event, later: seq<Event>, lease: Lease)
    requires run in s.runs && s.runs[run].task in s.queue.tasks
    requires s.sup == Working(run, step, k) && e.Advance? && !e.ok && IsRed(step, e.raised)
    requires Outsiders(others) && block.Advance? && Honours(Execute(Next(s, e), others).queue, s.runs[run])
    ensures var id := s.runs[run].task;
            var left := Next(Execute(Next(s, e), others), block);
            var end := Execute(left, later);
            || ReviewedLater(left, later, id)
            || (Gated(end.queue, id) && end.queue.tasks[id].status != Done
                && Apply(end.queue, Op.Complete(id, lease, true, false)).Err?)
  {
    RefusalIsRecorded(s, run, step, k, e, others, block, [], block);
    RunKeepsHold(Next(Execute(Next(s, e), others), block), later, s.runs[run].task);
  }

  // ------------------------------------------------------------- cancelled and unfinished

  // A cancelled candidate's task waits again for anyone, if its claim was still honoured.
  lemma CancelIsRecorded(s: System, run: RunId, k: Cont, release: Event, others: seq<Event>, mark: Event)
    requires run in s.runs && s.sup == Working(run, CancelRelease, k)
    requires release.Advance? && Outsiders(others) && mark.Advance?
    ensures var left := Next(s, release);
            var end := Next(Execute(left, others), mark);
            && run in end.runs && end.ledgers == s.ledgers && Broken(end.sup, k)
            && if Honours(s.queue, s.runs[run])
               then end.runs[run].status == Cancelled && Reopens(s.queue, left.queue, s.runs[run].task)
               else end.runs[run].status == Failed("worker_needs_reconcile") && left.queue == s.queue
  {
    ReleaseClaimed(s, run, k, release);
    OthersKeepControl(Next(s, release), others);
    MarkCancelled(Execute(Next(s, release), others), run, Honours(s.queue, s.runs[run]), k, mark);
  }

  // The task waits for a new claim.
  predicate Reopens(q: Queue, q': Queue, id: TaskId) {
    && OnlyTask(q, q', id)
    && var (t, t') := (q.tasks[id], q'.tasks[id]);
    t' == t.(status := Pending, token := "", owner := "", revision := t.revision + 1)
  }

  lemma ReleaseClaimed(s: System, run: RunId, k: Cont, release: Event)
    requires run in s.runs && s.sup == Working(run, CancelRelease, k) && release.Advance?
    ensures var s' := Next(s, release);
            && s' == s.(queue := s'.queue, sup := Working(run, CancelMark(Honours(s.queue, s.runs[run])), k))
            && if Honours(s.queue, s.runs[run]) then Reopens(s.queue, s'.queue, s.runs[run].task)
               else s'.queue == s.queue
  {
    var op := Op.Release(s.runs[run].task, s.runs[run].lease);
    if ValidQueue(s.queue) {
      ReleaseEffect(s.queue, op);
    } else {
      InvalidQueueRefusesAll(s.queue, op);
    }
  }

  lemma MarkCancelled(s: System, run: RunId, released: bool, k: Cont, mark: Event)
    requires run in s.runs && s.sup == Working(run, CancelMark(released), k) && mark.Advance?
    ensures var s' := Next(s, mark);
            && run in s'.runs && s'.ledgers == s.ledgers && Broken(s'.sup, k)
            && s'.runs[run].status == if released then Cancelled else Failed("worker_needs_reconcile")
  {
  }

  // An integrated landing whose push is refused, or whose claim is not honoured when the task
  // is to be completed, leaves its ledger as it is for the next recovery and its run pending.
  lemma PendingIsRecorded(s: System, run: RunId, ledger: Ledger, k: Cont, e: Event, others: seq<Event>, mark: Event)
    requires run in s.runs && e.Advance? && Outsiders(others) && mark.Advance?
    requires (s.sup == Working(run, Push(ledger), k)
              && !(e.ok && (s.remote.Some? ==> IsAncestor(s.remote.value, s.ref))))
          || (s.sup == Working(run, FinishTask(ledger), k) && ledger.lease == s.runs[run].lease
              && !Honours(s.queue, s.runs[run]))
    ensures var end := Next(Execute(Next(s, e), others), mark);
            && run in end.runs && end.runs[run] == s.runs[run].(status := FinalizePending)
            && end.ledgers == s.ledgers && Next(s, e).queue == s.queue && Next(s, e).remote == s.remote
            && Broken(end.sup, k)
  {
    UnfinishedStep(s, run, ledger, k, e);
    OthersKeepControl(Next(s, e), others);
    MarkUnfinished(Execute(Next(s, e), others), run, k, mark);
  }

  lemma UnfinishedStep(s: System, run: RunId, ledger: Ledger, k: Cont, e: Event)
    requires run in s.runs && e.Advance?
    requires (s.sup == Working(run, Push(ledger), k)
              && !(e.ok && (s.remote.Some? ==> IsAncestor(s.remote.value, s.ref))))
          || (s.sup == Working(run, FinishTask(ledger), k) && ledger.lease == s.runs[run].lease
              && !Honours(s.queue, s.runs[run]))
    ensures Next(s, e) == s.(sup := Working(run, MarkPending, k))
  {
    if s.sup.step.FinishTask? && ValidQueue(s.queue) {
      CompleteEffect(s.queue, CompletionOp(s, run, ledger));
    }
  }

  lemma MarkUnfinished(s: System, run: RunId, k: Cont, mark: Event)
    requires run in s.runs && s.sup == Working(run, MarkPending, k) && mark.Advance?
    ensures var s' := Next(s, mark);
            && run in s'.runs && s'.runs[run] == s.runs[run].(status := FinalizePending)
            && s'.ledgers == s.ledgers && Broken(s'.sup, k)
  {
  }

  // ------------------------------------------------------------- landed

  // Control is back where the work came from, with no error more.
  predicate Returned(sup: Supervisor, k: Cont) {
    match k
    case ToLoop => sup == Looping
    case ToRecovery(todo, errors) => sup == Recovering(todo, errors)
    case ToAdoption(todo, errors) => sup == Adopting(todo, errors)
  }

  // The task is done by a reviewed completion: no lease, no gate, no failures.
  predicate Completed(q: Queue, q': Queue, id: TaskId) {
    && OnlyTask(q, q', id)
    && var (t, t') := (q.tasks[id], q'.tasks[id]);
    t' == t.(status := Done, token := "", revision := t.revision + 1, completion := AutodevReviewed,
             gate := false, failures := 0, lastFailure := "")
  }

  predicate AtFinish(s: System, run: RunId, ledger: Ledger, k: Cont) {
    s.sup == Working(run, FinishTask(ledger), k) || s.sup == Working(run, RecoverFinish(ledger), k)
  }

  predicate AtMark(s: System, run: RunId, ledger: Ledger, k: Cont) {
    s.sup == Working(run, MarkDone(ledger), k) || s.sup == Working(run, RecoverMark(ledger), k)
  }

  predicate AtClose(s: System, run: RunId, ledger: Ledger, k: Cont) {
    s.sup == Working(run, WriteFinalized(ledger), k) || s.sup == Working(run, RecoverFinalized(ledger), k)
  }

  lemma CompletionOfClaim(s: System, run: RunId, ledger: Ledger)
    requires run in s.runs && ledger.lease == s.runs[run].lease && Honours(s.queue, s.runs[run])
    ensures Completes(s, run, ledger)
    ensures var s' := CompleteTaskOf(s, run, ledger);
            && Completed(s.queue, s'.queue, s.runs[run].task)
            && s'.completions == s.completions + [Completion(run, s.runs[run].task, ledger.lease, ledger.candidate)]
            && s'.runs == s.runs && s'.ledgers == s.ledgers
  {
    CompleteEffect(s.queue, CompletionOp(s, run, ledger));
  }

  lemma LandingFinishStep(s: System, run: RunId, ledger: Ledger, k: Cont, e: Event)
    requires run in s.runs && s.sup == Working(run, FinishTask(ledger), k) && e.Advance? && Completes(s, run, ledger)
    ensures Next(s, e) == CompleteTaskOf(s, run, ledger).(sup := Working(run, MarkDone(ledger), k))
  {
  }

  lemma ReplayFinishStep(s: System, run: RunId, ledger: Ledger, k: Cont, e: Event)
    requires run in s.runs && s.sup == Working(run, RecoverFinish(ledger), k) && e.Advance?
    requires Completes(s, run, ledger)
    ensures Next(s, e) == CompleteTaskOf(s, run, ledger).(sup := Working(run, RecoverMark(ledger), k))
  {
  }

  lemma FinishHonoured(s: System, run: RunId, ledger: Ledger, k: Cont, e: Event)
    requires run in s.runs && AtFinish(s, run, ledger, k) && e.Advance?
    requires ledger.lease == s.runs[run].lease && Honours(s.queue, s.runs[run])
    ensures var s' := Next(s, e);
            && Completed(s.queue, s'.queue, s.runs[run].task) && AtMark(s', run, ledger, k)
            && s'.completions == s.completions + [Completion(run, s.runs[run].task, ledger.lease, ledger.candidate)]
            && s'.runs == s.runs && s'.ledgers == s.ledgers
  {
    CompletionOfClaim(s, run, ledger);
    if s.sup.step.FinishTask? {
      LandingFinishStep(s, run, ledger, k, e);
    } else {
      ReplayFinishStep(s, run, ledger, k, e);
    }
  }

  lemma MarkFinished(s: System, run: RunId, ledger: Ledger, k: Cont, e: Event)
    requires run in s.runs && AtMark(s, run, ledger, k) && e.Advance?
    ensures var s' := Next(s, e);
            && AtClose(s', run, ledger, k)
            && run in s'.runs && s'.runs[run] == s.runs[run].(status := RunDone) && s'.ledgers == s.ledgers
  {
  }

  lemma CloseFinished(s: System, run: RunId, ledger: Ledger, k: Cont, e: Event)
    requires run in s.runs && AtClose(s, run, ledger, k) && e.Advance?
    ensures var s' := Next(s, e);
            && Returned(s'.sup, k) && s'.runs == s.runs
            && s'.ledgers == s.ledgers[run := ledger.(state := QueueFinalized)]
  {
  }

  // A landing or replay that comes to its completion with the claim honoured, whatever others
  // do between its last three steps: the task is done, the run is done, the ledger is closed,
  // and control returns without an error.
  lemma LandingIsRecorded(s: System, run: RunId, ledger: Ledger, k: Cont, finish: Event, others: seq<Event>,
                          mark: Event, more: seq<Event>, close: Event)
    requires run in s.runs && AtFinish(s, run, ledger, k) && finish.Advance? && mark.Advance? && close.Advance?
    requires Outsiders(others) && Outsiders(more)
    requires ledger.lease == s.runs[run].lease && Honours(s.queue, s.runs[run])
    ensures var done := Next(s, finish);
            var end := Next(Execute(Next(Execute(done, others), mark), more), close);
            && Completed(s.queue, done.queue, s.runs[run].task)
            && done.completions
               == s.completions + [Completion(run, s.runs[run].task, ledger.lease, ledger.candidate)]
            && run in end.runs && end.runs[run] == s.runs[run].(status := RunDone)
            && end.ledgers == s.ledgers[run := ledger.(state := QueueFinalized)]
            && Returned(end.sup, k)
  {
    var done := Next(s, finish);
    FinishHonoured(s, run, ledger, k, finish);
    OthersKeepControl(done, others);
    var marked := Next(Execute(done, others), mark);
    MarkFinished(Execute(done, others), run, ledger, k, mark);
    OthersKeepControl(marked, more);
    CloseFinished(Execute(marked, more), run, ledger, k, close);
  }

  // The replay of a ledger whose task was completed before goes straight to the run's mark.
  lemma ReplayCompletesOnce(s: System, run: RunId, ledger: Ledger, k: Cont, e: Event)
    requires run in s.runs && s.sup == Working(run, RecoverPeek(ledger), k) && e.Advance?
    ensures var s' := Next(s, e);
            var id := s.runs[run].task;
            && s' == s.(sup := s'.sup)
            && (if id !in s.queue.tasks then Broken(s'.sup, k)
                else if s.queue.tasks[id].status == Done then AtMark(s', run, ledger, k)
                else AtFinish(s', run, ledger, k))
  {
  }

  // A waiting candidate whose task is done already is only marked.
  lemma AdoptionIsRecorded(s: System, run: RunId, k: Cont, e: Event)
    requires run in s.runs && s.sup == Working(run, AdoptMark, k) && e.Advance?
    ensures var s' := Next(s, e);
            && run in s'.runs && s'.runs[run] == s.runs[run].(status := RunDone) && Returned(s'.sup, k)
            && s'.queue == s.queue && s'.ledgers == s.ledgers && s'.ref == s.ref
  {
  }
}
