/**
 * Laws over whole runs of queue operations: claim receipts are linear, a review gate
 * opens only through a reviewed completion, failure counts, and claimable waves.
 */
module QueueReceipts {
  import opened Wrappers
  import opened QueueTypes
  import opened QueueImport
  import opened QueueModel
  import opened QueueInvariants

  // --------------------------------------------------------------- receipts

  // What claiming a task hands to the worker.
  function Receipt(t: Task): Lease {
    Lease(t.owner, t.token, Some(t.revision))
  }

  // Some operation of the run succeeded on task `id`.
  predicate Touched(q: Queue, ops: seq<Op>, id: TaskId)
    decreases |ops|
  {
    ops != [] && (Touches(q, ops[0], id) || Touched(Step(q, ops[0]), ops[1..], id))
  }

  lemma {:induction false} UntouchedIsUnchanged(q: Queue, ops: seq<Op>, id: TaskId)
    requires id in q.tasks
    ensures id in Run(q, ops).tasks
    ensures Run(q, ops).tasks[id].revision >= q.tasks[id].revision
    ensures if Touched(q, ops, id) then Run(q, ops).tasks[id].revision > q.tasks[id].revision
            else Run(q, ops).tasks[id] == q.tasks[id]
    decreases |ops|
  {
    if ops != [] {
      StepKeepsTasks(q, ops[0], id);
      UntouchedIsUnchanged(Step(q, ops[0]), ops[1..], id);
    }
  }

  // The three calls that finish a claim. A worker completes only what was reviewed.
  predicate Finalizes(op: Op, id: TaskId, lease: Lease) {
    match op
    case Complete(i, l, force, reviewPassed) => i == id && l == lease && !force && reviewPassed
    case Block(i, l, force, _) => i == id && l == lease && !force
    case Release(i, l) => i == id && l == lease
    case _ => false
  }

  lemma FinalizeNeedsLease(q: Queue, op: Op, id: TaskId, lease: Lease)
    requires ValidQueue(q) && Finalizes(op, id, lease) && id in q.tasks
    ensures Apply(q, op).Ok? <==> ActiveLease(q.tasks[id], lease)
  {
  }

  // A finalize call with a claim's receipt succeeds exactly when nothing has touched the
  // task since that claim, whatever else ran in between and even if tokens repeat.
  lemma {:induction false} FinalizeIffUntouched(q: Queue, claim: Op, ops: seq<Op>, id: TaskId, op: Op)
    requires Inv(q) && claim.Claim? && Touches(q, claim, id)
    requires Finalizes(op, id, Receipt(Step(q, claim).tasks[id]))
    ensures Apply(Run(Step(q, claim), ops), op).Ok? <==> !Touched(Step(q, claim), ops, id)
  {
    var claimed := Step(q, claim);
    var later := Run(claimed, ops);
    StepKeepsInv(q, claim);
    RunKeepsInv(claimed, ops);
    UntouchedIsUnchanged(claimed, ops, id);
    FinalizeNeedsLease(later, op, id, Receipt(claimed.tasks[id]));
  }

  // Of all the finalize calls that present one receipt, at most one ever succeeds.
  lemma {:induction false} FinalizeAtMostOnce(q: Queue, first: Op, ops: seq<Op>, second: Op, id: TaskId, lease: Lease)
    requires ValidQueue(q) && id in q.tasks
    requires Finalizes(first, id, lease) && Finalizes(second, id, lease)
    requires Apply(q, first).Ok?
    ensures Apply(Run(Step(q, first), ops), second).Err?
  {
    FinalizeNeedsLease(q, first, id, lease);
    StepKeepsTasks(q, first, id);
    UntouchedIsUnchanged(Step(q, first), ops, id);
    var later := Run(Step(q, first), ops);
    if Apply(later, second).Ok? {
      FinalizeNeedsLease(later, second, id, lease);
      assert false;
    }
  }

  // ------------------------------------------------------------ review gate

  // Some completion of the run succeeded on `id` with a passed review.
  predicate ReviewedCompletion(q: Queue, ops: seq<Op>, id: TaskId)
    decreases |ops|
  {
    ops != [] &&
    ((ops[0].Complete? && ops[0].id == id && ops[0].reviewPassed && Apply(q, ops[0]).Ok?)
     || ReviewedCompletion(Step(q, ops[0]), ops[1..], id))
  }

  predicate Gated(q: Queue, id: TaskId) {
    id in q.tasks && q.tasks[id].gate
  }

  lemma GateStep(q: Queue, op: Op, id: TaskId)
    requires Gated(q, id) && q.tasks[id].status != Done
    ensures (Gated(Step(q, op), id) && Step(q, op).tasks[id].status != Done)
         || (op.Complete? && op.id == id && op.reviewPassed && Apply(q, op).Ok?)
  {
    StepKeepsTasks(q, op, id);
  }

  // The gate survives resume, release, claim, budget reset and everything else: a gated
  // task that is done at the end of a run was completed in it with a passed review, and
  // until then it is still gated.
  lemma {:induction false} GateNeedsReview(q: Queue, ops: seq<Op>, id: TaskId)
    requires Gated(q, id) && q.tasks[id].status != Done
    ensures ReviewedCompletion(q, ops, id) || (Gated(Run(q, ops), id) && Run(q, ops).tasks[id].status != Done)
    decreases |ops|
  {
    if ops != [] {
      GateStep(q, ops[0], id);
      if Gated(Step(q, ops[0]), id) && Step(q, ops[0]).tasks[id].status != Done {
        GateNeedsReview(Step(q, ops[0]), ops[1..], id);
      }
    }
  }

  // A block with a review-gated failure status sets the gate, so from then on the task
  // reaches done only through a reviewed completion, and forcing it always fails.
  lemma {:induction false} GatedBlockNeedsReview(q: Queue, block: Op, ops: seq<Op>, id: TaskId, lease: Lease)
    requires block.Block? && block.id == id && block.failureStatus in REVIEW_GATED && Apply(q, block).Ok?
    ensures Gated(Step(q, block), id)
    ensures id in Run(Step(q, block), ops).tasks
    ensures Run(Step(q, block), ops).tasks[id].status == Done ==> ReviewedCompletion(Step(q, block), ops, id)
    ensures !ReviewedCompletion(Step(q, block), ops, id) ==>
              Apply(Run(Step(q, block), ops), Complete(id, lease, true, false)).Err?
  {
    assert "" !in REVIEW_GATED;
    UntouchedIsUnchanged(Step(q, block), ops, id);
    GateNeedsReview(Step(q, block), ops, id);
  }

  // --------------------------------------------------------- failure counts

  // Failure-recording blocks of `id` since its last lease-bound completion or human reset.
  function CountAfter(q: Queue, op: Op, id: TaskId, sofar: nat): nat {
    if Apply(q, op).Err? then sofar
    else match op
      case Block(i, _, _, status) => if i == id && status != "" then sofar + 1 else sofar
      case Complete(i, _, force, _) => if i == id && !force then 0 else sofar
      case Resume(i, reset) => if i == id && reset then 0 else sofar
      case _ => sofar
  }

  function FailuresSince(q: Queue, ops: seq<Op>, id: TaskId, sofar: nat): nat
    decreases |ops|
  {
    if ops == [] then sofar
    else FailuresSince(Step(q, ops[0]), ops[1..], id, CountAfter(q, ops[0], id, sofar))
  }

  lemma FailureStep(q: Queue, op: Op, id: TaskId)
    requires id in q.tasks
    ensures id in Step(q, op).tasks
    ensures Step(q, op).tasks[id].failures == CountAfter(q, op, id, q.tasks[id].failures)
  {
    StepKeepsTasks(q, op, id);
  }

  lemma {:induction false} FailureCountIsExact(q: Queue, ops: seq<Op>, id: TaskId)
    requires id in q.tasks
    ensures id in Run(q, ops).tasks
    ensures Run(q, ops).tasks[id].failures == FailuresSince(q, ops, id, q.tasks[id].failures)
    decreases |ops|
  {
    if ops != [] {
      FailureStep(q, ops[0], id);
      FailureCountIsExact(Step(q, ops[0]), ops[1..], id);
    }
  }

  // One supervisor's run: before it claims a task that is not in progress it checks the
  // task's failure count against the budget; everything else is anybody's operation.
  datatype BudgetEvent = Check(id: TaskId) | Perform(op: Op)

  // Claims come from the supervisor, each after a passed check; a forced (human) block
  // records no failure.
  predicate Supervised(q: Queue, op: Op, checked: set<TaskId>) {
    match op
    case Claim(target, _, _, _, _) => target.Some? && target.value in checked
    case Block(_, _, force, status) => force ==> status == ""
    case _ => true
  }

  function BudgetChecked(q: Queue, e: BudgetEvent, checked: set<TaskId>, budget: nat): set<TaskId> {
    match e
    case Check(id) =>
      if id in q.tasks && q.tasks[id].status != InProgress && q.tasks[id].failures < budget
      then checked + {id} else checked - {id}
    case Perform(op) => if op.Claim? && op.target.Some? then checked - {op.target.value} else checked
  }

  predicate SupervisedRun(q: Queue, es: seq<BudgetEvent>, checked: set<TaskId>, budget: nat)
    decreases |es|
  {
    es == [] ||
    ((es[0].Perform? ==> Supervised(q, es[0].op, checked)) &&
     SupervisedRun(AfterEvent(q, es[0]), es[1..], BudgetChecked(q, es[0], checked, budget), budget))
  }

  function AfterEvent(q: Queue, e: BudgetEvent): Queue {
    if e.Perform? then Step(q, e.op) else q
  }

  function AfterEvents(q: Queue, es: seq<BudgetEvent>): Queue
    decreases |es|
  {
    if es == [] then q else AfterEvents(AfterEvent(q, es[0]), es[1..])
  }

  predicate WithinBudget(q: Queue, checked: set<TaskId>, budget: nat) {
    && (forall id :: id in q.tasks ==> q.tasks[id].failures <= budget)
    && (forall id :: id in q.tasks && q.tasks[id].status == InProgress ==> q.tasks[id].failures < budget)
    && (forall id :: id in checked ==>
          id in q.tasks && q.tasks[id].status != InProgress && q.tasks[id].failures < budget)
  }

  lemma BudgetOneTask(q: Queue, op: Op, checked: set<TaskId>, budget: nat)
    requires WithinBudget(q, checked, budget) && LeasesMatchStatus(q)
    requires Supervised(q, op, checked) && Apply(q, op).Ok?
    requires !op.Add? && !op.Propose? && !op.Import?
    ensures var id := Target(q, op).value;
            var t := Step(q, op).tasks[id];
            t.failures <= budget
            && (t.status == InProgress ==> op.Claim? && t.failures < budget)
            && (id in checked ==> op.Claim? || (t.status != InProgress && t.failures < budget))
  {
    ExistingTaskOp(q, op);
    var id := Target(q, op).value;
    if id in q.tasks && q.tasks[id].status == InProgress {
      assert id !in checked;
    }
  }

  lemma BudgetStep(q: Queue, e: BudgetEvent, checked: set<TaskId>, budget: nat)
    requires LeasesMatchStatus(q) && WithinBudget(q, checked, budget)
    requires e.Perform? ==> Supervised(q, e.op, checked)
    ensures WithinBudget(AfterEvent(q, e), BudgetChecked(q, e, checked, budget), budget)
  {
    if e.Perform? && Apply(q, e.op).Ok? {
      match e.op
      case Add(_, _) =>
      case Propose(_, _) =>
      case Import(doc, key) => BudgetImport(q, doc, key, checked, budget);
      case _ => BudgetExisting(q, e.op, checked, budget);
    }
  }

  lemma BudgetExisting(q: Queue, op: Op, checked: set<TaskId>, budget: nat)
    requires WithinBudget(q, checked, budget) && LeasesMatchStatus(q)
    requires Supervised(q, op, checked) && Apply(q, op).Ok?
    requires !op.Add? && !op.Propose? && !op.Import?
    ensures WithinBudget(Step(q, op), BudgetChecked(q, Perform(op), checked, budget), budget)
  {
    BudgetOneTask(q, op, checked, budget);
    ExistingTaskOp(q, op);
    var id := Target(q, op).value;
    var left := BudgetChecked(q, Perform(op), checked, budget);
    assert left <= checked;
    BudgetPut(q, id, Step(q, op).tasks[id], checked, left, budget);
  }

  lemma BudgetPut(q: Queue, id: TaskId, t: Task, checked: set<TaskId>, left: set<TaskId>, budget: nat)
    requires WithinBudget(q, checked, budget) && left <= checked && id in q.tasks
    requires t.failures <= budget && (t.status == InProgress ==> t.failures < budget)
    requires id in left ==> t.status != InProgress && t.failures < budget
    ensures WithinBudget(Put(q, id, t), left, budget)
  {
  }

  lemma BudgetImport(q: Queue, doc: Document, key: string, checked: set<TaskId>, budget: nat)
    requires WithinBudget(q, checked, budget)
    ensures WithinBudget(Step(q, Import(doc, key)), checked, budget)
  {
    var q' := Step(q, Import(doc, key));
    if Apply(q, Import(doc, key)).Ok? && Decide(q.imports, doc, key, 0) == Fresh {
      FreshImportShape(q, doc, key);
      FreshIds(q, |doc.tasks|);
      BuiltAreUntried(doc, MaxId(q.tasks.Keys));
    } else {
      assert q'.tasks == q.tasks;
    }
  }

  lemma BuiltAreUntried(doc: Document, newest: nat)
    requires KnownDeps(doc.tasks)
    ensures forall id :: id in BuiltTasks(doc, newest) ==>
              BuiltTasks(doc, newest)[id].failures == 0 && BuiltTasks(doc, newest)[id].status == Pending
  {
  }

  // With one supervisor the recorded failures of a task never exceed the budget, because a
  // claim can record at most one failure and the check comes before the claim.
  lemma {:induction false} FailuresStayWithinBudget(q: Queue, es: seq<BudgetEvent>, checked: set<TaskId>,
                                                    budget: nat, id: TaskId)
    requires Inv(q) && WithinBudget(q, checked, budget) && SupervisedRun(q, es, checked, budget)
    ensures id in AfterEvents(q, es).tasks ==> AfterEvents(q, es).tasks[id].failures <= budget
    decreases |es|
  {
    if es != [] {
      BudgetStep(q, es[0], checked, budget);
      if es[0].Perform? {
        StepKeepsInv(q, es[0].op);
      }
      FailuresStayWithinBudget(AfterEvent(q, es[0]), es[1..], BudgetChecked(q, es[0], checked, budget), budget, id);
    }
  }

  // ------------------------------------------------------- claimable waves

  // What may happen to a dispatched batch with no outside actor: a member that is still
  // waiting is claimed by its id, or a claimed member is completed, released or blocked.
  predicate BatchOp(op: Op, waiting: set<TaskId>, claimed: set<TaskId>) {
    match op
    case Claim(target, _, resumeBlocked, _, _) => target.Some? && target.value in waiting
    case Complete(id, _, _, _) => id in claimed
    case Release(id, _) => id in claimed
    case Block(id, _, _, _) => id in claimed
    case _ => false
  }

  predicate BatchFits(q: Queue, waiting: set<TaskId>) {
    |InProgressIds(q)| + |waiting| <= q.limit
  }

  predicate BatchRun(ops: seq<Op>, waiting: set<TaskId>, claimed: set<TaskId>)
    decreases |ops|
  {
    ops == [] ||
    (BatchOp(ops[0], waiting, claimed) &&
     if ops[0].Claim? then BatchRun(ops[1..], waiting - {ops[0].target.value}, claimed + {ops[0].target.value})
     else BatchRun(ops[1..], waiting, claimed))
  }

  // Every claim of the run succeeds.
  predicate AllClaimsSucceed(q: Queue, ops: seq<Op>)
    decreases |ops|
  {
    ops == [] || ((ops[0].Claim? ==> Apply(q, ops[0]).Ok?) && AllClaimsSucceed(Step(q, ops[0]), ops[1..]))
  }

  lemma ClaimOfReady(q: Queue, op: Op)
    requires ValidQueue(q) && op.Claim? && op.target.Some? && op.target.value in ReadyIds(q)
    ensures Apply(q, op).Ok? <==> |InProgressIds(q)| < q.limit
    ensures Apply(q, op).Ok? ==> InProgressIds(Step(q, op)) == InProgressIds(q) + {op.target.value}
    ensures Apply(q, op).Ok? ==> ReadyIds(Step(q, op)) == ReadyIds(q) - {op.target.value}
  {
    if Apply(q, op).Ok? {
      assert ClosedIds(Step(q, op)) == ClosedIds(q);
    }
  }

  lemma {:induction false} ClosedOnlyGrows(q: Queue, op: Op)
    ensures ClosedIds(q) <= ClosedIds(Step(q, op))
  {
    forall id | id in ClosedIds(q)
      ensures id in ClosedIds(Step(q, op))
    {
      StepKeepsTasks(q, op, id);
    }
  }

  lemma SettlingAMember(q: Queue, op: Op, waiting: set<TaskId>, claimed: set<TaskId>)
    requires BatchOp(op, waiting, claimed) && !op.Claim? && waiting !! claimed
    requires waiting <= ReadyIds(q) && BatchFits(q, waiting)
    ensures waiting <= ReadyIds(Step(q, op)) && BatchFits(Step(q, op), waiting)
  {
    ClosedOnlyGrows(q, op);
    assert InProgressIds(Step(q, op)) <= InProgressIds(q);
    SubsetSize(InProgressIds(Step(q, op)), InProgressIds(q));
    forall id | id in waiting
      ensures id in ReadyIds(Step(q, op))
    {
      assert Step(q, op).tasks[id] == q.tasks[id];
    }
  }

  // A wave that fits the queue's limit is claimable: every claim by id succeeds, in any
  // order, even when members claimed earlier are settled in between.
  lemma {:induction false} WaveIsClaimable(q: Queue, ops: seq<Op>, waiting: set<TaskId>, claimed: set<TaskId>)
    requires Inv(q) && waiting !! claimed && waiting <= ReadyIds(q) && BatchFits(q, waiting)
    requires BatchRun(ops, waiting, claimed)
    ensures AllClaimsSucceed(q, ops)
    decreases |ops|
  {
    if ops != [] {
      var op := ops[0];
      StepKeepsInv(q, op);
      if op.Claim? {
        var id := op.target.value;
        assert |waiting - {id}| == |waiting| - 1;
        ClaimOfReady(q, op);
        WaveIsClaimable(Step(q, op), ops[1..], waiting - {id}, claimed + {id});
      } else {
        SettlingAMember(q, op, waiting, claimed);
        WaveIsClaimable(Step(q, op), ops[1..], waiting, claimed);
      }
    }
  }

  // Claims only, one for every member.
  predicate ClaimsAll(ops: seq<Op>, waiting: set<TaskId>)
    decreases |ops|
  {
    if ops == [] then waiting == {}
    else ops[0].Claim? && ops[0].target.Some? && ops[0].target.value in waiting
         && ClaimsAll(ops[1..], waiting - {ops[0].target.value})
  }

  // The limit is exact: claiming every member with nothing settled in between works out
  // if and only if the wave fits.
  lemma {:induction false} WaveClaimableIffFits(q: Queue, ops: seq<Op>, waiting: set<TaskId>)
    requires Inv(q) && waiting <= ReadyIds(q) && ClaimsAll(ops, waiting)
    ensures AllClaimsSucceed(q, ops) <==> BatchFits(q, waiting)
    decreases |ops|
  {
    if ops != [] {
      var id := ops[0].target.value;
      assert |waiting - {id}| == |waiting| - 1;
      ClaimOfReady(q, ops[0]);
      if Apply(q, ops[0]).Ok? {
        StepKeepsInv(q, ops[0]);
        assert id !in InProgressIds(q);
        WaveClaimableIffFits(Step(q, ops[0]), ops[1..], waiting - {id});
      }
    }
  }
}
