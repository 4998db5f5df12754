/**
 * When each queue operation succeeds on a valid queue and what its success leaves, field by
 * field; and the runs in which a proposed task is started.
 */
module QueueEffects {
  import opened Wrappers
  import opened QueueTypes
  import opened QueueModel
  import opened QueueInvariants
  import opened QueueReceipts

  // Task `id` is the only thing that changes.
  predicate OnlyTask(q: Queue, q': Queue, id: TaskId) {
    && id in q.tasks && id in q'.tasks
    && q'.limit == q.limit && q'.imports == q.imports && q'.tasks == q.tasks[id := q'.tasks[id]]
  }

  // The task is claimed and the lease is the receipt of that claim.
  predicate Claimed(t: Task, lease: Lease) {
    t.status == InProgress && t.owner != "" && t.token != "" && lease == Receipt(t)
  }

  // Approved and not closed.
  predicate Unfinished(t: Task) {
    t.status == Pending || t.status == InProgress || t.status == Blocked
  }

  predicate DepsClosed(q: Queue, t: Task) {
    forall d :: d in t.deps ==> d in q.tasks && (q.tasks[d].status == Done || q.tasks[d].status == Skipped)
  }

  predicate Startable(q: Queue, id: TaskId, resumeBlocked: bool) {
    && id in q.tasks && DepsClosed(q, q.tasks[id])
    && (q.tasks[id].status == Pending || (q.tasks[id].status == Blocked && resumeBlocked))
  }

  // A claim by id succeeds on a startable task while there is room.
  lemma ClaimSucceedsIff(q: Queue, op: Op)
    requires ValidQueue(q) && op.Claim? && op.target.Some?
    ensures Apply(q, op).Ok? <==> |InProgressIds(q)| < q.limit && Startable(q, op.target.value, op.resumeBlocked)
  {
  }

  // A claim of the next task succeeds when there is a ready one and room for it.
  lemma ClaimNextSucceedsIff(q: Queue, op: Op)
    requires ValidQueue(q) && op.Claim? && op.target.None?
    ensures Apply(q, op).Ok? <==> |InProgressIds(q)| < q.limit && exists id :: Startable(q, id, false)
    ensures Apply(q, op).Err? ==>
              Apply(q, op).error == if |InProgressIds(q)| >= q.limit then InProgressExists else NoReadyTask
  {
    ReadyIsStartable(q);
    if ReadyIds(q) != {} {
      var id :| id in ReadyIds(q);
      assert Startable(q, id, false);
    }
  }

  // Why a claim by id fails: room is checked before the task's own state.
  lemma ClaimErrors(q: Queue, op: Op, id: TaskId)
    requires ValidQueue(q) && op.Claim? && op.target == Some(id) && Apply(q, op).Err?
    ensures var full := |InProgressIds(q)| >= q.limit;
            match Apply(q, op).error
            case TaskNotFound => id !in q.tasks
            case InProgressExists => id in q.tasks && (full || q.tasks[id].status == InProgress)
            case InvalidStatus =>
              && !full && id in q.tasks && q.tasks[id].status !in {Pending, InProgress}
              && (q.tasks[id].status == Blocked ==> !op.resumeBlocked)
            case DependencyBlocked => !full && id in q.tasks && !DepsClosed(q, q.tasks[id])
            case _ => false
  {
  }

  // Why a finalize call fails: the gate is checked before the receipt, the receipt last.
  lemma FinalizeErrors(q: Queue, op: Op)
    requires ValidQueue(q) && (op.Complete? || op.Block? || op.Release?) && Apply(q, op).Err?
    ensures match Apply(q, op).error
            case TaskNotFound => op.id !in q.tasks
            case LeaseConflict => op.id in q.tasks && !Claimed(q.tasks[op.id], op.lease) && (op.Release? || !op.force)
            case InvalidStatus =>
              op.id in q.tasks && !op.Release?
              && (!Unfinished(q.tasks[op.id]) || (op.Complete? && q.tasks[op.id].gate && !op.reviewPassed))
            case _ => false
  {
  }

  // Nothing works on a document that does not validate.
  lemma InvalidQueueRefusesAll(q: Queue, op: Op)
    requires !ValidQueue(q)
    ensures Apply(q, op).Err? && Step(q, op) == q
  {
  }

  lemma ReadyIsStartable(q: Queue)
    ensures forall id :: id in ReadyIds(q) <==> Startable(q, id, false)
  {
  }

  // It marks the task in progress for the claimant under the requested token; without an id
  // it takes the ready task that is offered first.
  lemma ClaimEffect(q: Queue, op: Op, id: TaskId)
    requires Touches(q, op, id) && op.Claim?
    ensures OnlyTask(q, Step(q, op), id)
    ensures var t := q.tasks[id];
            Step(q, op).tasks[id] == t.(status := InProgress, revision := t.revision + 1,
                                        owner := if op.claimant != "" then op.claimant else "autodev",
                                        token := if op.requested != "" then op.requested else op.generated)
    ensures op.target.None? ==>
              Startable(q, id, false) && forall x :: Startable(q, x, false) ==> x == id || Before(q, id, x)
  {
    ReadyIsStartable(q);
  }

  // Completion takes the claim's receipt, or force on an open task; a gated one takes a
  // passed review as well, and only an unforced completion wipes the record of failures.
  lemma CompleteEffect(q: Queue, op: Op)
    requires ValidQueue(q) && op.Complete?
    ensures Apply(q, op).Ok? <==>
            && op.id in q.tasks && (q.tasks[op.id].gate ==> op.reviewPassed)
            && (if op.force then Unfinished(q.tasks[op.id]) else Claimed(q.tasks[op.id], op.lease))
    ensures Apply(q, op).Ok? ==>
              && OnlyTask(q, Step(q, op), op.id)
              && var (t, t') := (q.tasks[op.id], Step(q, op).tasks[op.id]);
              if op.force
              then t' == t.(status := Done, revision := t.revision + 1, token := "", completion := ManualReconcile)
              else t' == t.(status := Done, revision := t.revision + 1, token := "", completion := AutodevReviewed,
                            gate := false, failures := 0, lastFailure := "")
  {
  }

  lemma ReleaseEffect(q: Queue, op: Op)
    requires ValidQueue(q) && op.Release?
    ensures Apply(q, op).Ok? <==> op.id in q.tasks && Claimed(q.tasks[op.id], op.lease)
    ensures Apply(q, op).Ok? ==>
              && OnlyTask(q, Step(q, op), op.id)
              && var (t, t') := (q.tasks[op.id], Step(q, op).tasks[op.id]);
              t' == t.(status := Pending, revision := t.revision + 1, token := "", owner := "")
  {
  }

  predicate RedStatus(status: string) {
    || status == "review_red" || status == "review_blocked" || status == "safety_policy_red"
    || status == "queue_contract_red" || status == "landing_review_red" || status == "landing_safety_policy_red"
  }

  // A block that reports a failure counts it, and closes the gate if the failure is a red one.
  lemma BlockEffect(q: Queue, op: Op)
    requires ValidQueue(q) && op.Block?
    ensures Apply(q, op).Ok? <==>
            && op.id in q.tasks && Unfinished(q.tasks[op.id])
            && (op.force || Claimed(q.tasks[op.id], op.lease))
    ensures Apply(q, op).Ok? ==>
              && OnlyTask(q, Step(q, op), op.id)
              && var (t, t') := (q.tasks[op.id], Step(q, op).tasks[op.id]);
              var blocked := t.(status := Blocked, revision := t.revision + 1, token := "");
              if op.failureStatus == "" then t' == blocked
              else t' == blocked.(failures := t.failures + 1, lastFailure := op.failureStatus,
                                  gate := t.gate || RedStatus(op.failureStatus))
  {
  }

  lemma ResumeEffect(q: Queue, op: Op)
    requires ValidQueue(q) && op.Resume?
    ensures Apply(q, op).Ok? <==>
            op.id in q.tasks && q.tasks[op.id].status == Blocked && DepsClosed(q, q.tasks[op.id])
    ensures Apply(q, op).Ok? ==>
              && OnlyTask(q, Step(q, op), op.id)
              && var (t, t') := (q.tasks[op.id], Step(q, op).tasks[op.id]);
              if op.resetBudget
              then t' == t.(status := Pending, revision := t.revision + 1, token := "", failures := 0,
                            lastFailure := "")
              else t' == t.(status := Pending, revision := t.revision + 1, token := "")
  {
  }

  lemma SkipEffect(q: Queue, op: Op)
    requires ValidQueue(q) && op.Skip?
    ensures Apply(q, op).Ok? <==> op.id in q.tasks && q.tasks[op.id].status != Done
    ensures Apply(q, op).Ok? ==>
              && OnlyTask(q, Step(q, op), op.id)
              && var (t, t') := (q.tasks[op.id], Step(q, op).tasks[op.id]);
              t' == t.(status := Skipped, revision := t.revision + 1, token := "")
  {
  }

  lemma ApproveEffect(q: Queue, op: Op)
    requires ValidQueue(q) && op.Approve?
    ensures Apply(q, op).Ok? <==> op.id in q.tasks && q.tasks[op.id].status == Proposed
    ensures Apply(q, op).Ok? ==>
              && OnlyTask(q, Step(q, op), op.id)
              && var (t, t') := (q.tasks[op.id], Step(q, op).tasks[op.id]);
              t' == t.(status := Pending, revision := t.revision + 1)
  {
  }

  // The number after the newest task's, or 1.
  predicate NextId(q: Queue, id: TaskId) {
    && (forall x :: x in q.tasks ==> x.n < id.n)
    && id.n > 0 && (id.n == 1 || H(id.n - 1) in q.tasks)
  }

  // One new task without history; everything else is as it was.
  predicate Adds(q: Queue, q': Queue, id: TaskId, status: Status, priority: Priority, deps: set<TaskId>) {
    && NextId(q, id) && q'.limit == q.limit && q'.imports == q.imports
    && q'.tasks == q.tasks[id := Task(status, priority, deps, "", "", 0, 0, "", false, NotCompleted, None)]
  }

  // Adding succeeds when every dependency exists: the new task waits to be claimed when it
  // was added and to be approved when it was proposed.
  lemma AddEffect(q: Queue, op: Op) returns (id: TaskId)
    requires ValidQueue(q) && (op.Add? || op.Propose?)
    ensures Apply(q, op).Ok? <==> op.deps <= q.tasks.Keys
    ensures Apply(q, op).Ok? ==>
              Adds(q, Step(q, op), id, if op.Propose? then Proposed else Pending, op.priority, op.deps)
  {
    id := H(MaxId(q.tasks.Keys) + 1);
    assert id !in q.tasks;
    var q' := AddTask(q, if op.Propose? then Proposed else Pending, op.priority, op.deps);
    assert q'.tasks[id].deps == op.deps;
    assert q'.tasks.Keys == q.tasks.Keys + {id};
    if op.deps <= q.tasks.Keys {
      assert ValidQueue(q');
    }
  }

  // ------------------------------------------------------------- proposals

  // Not offered, not claimed, not finished: waiting for an approval, or skipped.
  predicate Shelved(q: Queue, id: TaskId) {
    id in q.tasks && (q.tasks[id].status == Proposed || q.tasks[id].status == Skipped)
  }

  predicate ApprovedIn(q: Queue, ops: seq<Op>, id: TaskId)
    decreases |ops|
  {
    ops != [] &&
    ((ops[0].Approve? && ops[0].id == id && Apply(q, ops[0]).Ok?) || ApprovedIn(Step(q, ops[0]), ops[1..], id))
  }

  lemma StepKeepsShelved(q: Queue, op: Op, id: TaskId)
    requires Shelved(q, id)
    ensures Shelved(Step(q, op), id) || (op.Approve? && op.id == id && Apply(q, op).Ok?)
  {
    StepKeepsTasks(q, op, id);
    if Touches(q, op, id) {
      TouchKeepsShelved(q, op, id);
    }
  }

  lemma TouchKeepsShelved(q: Queue, op: Op, id: TaskId)
    requires Shelved(q, id) && Touches(q, op, id)
    ensures Shelved(Step(q, op), id) || op.Approve?
  {
  }

  lemma {:induction false} RunKeepsShelved(q: Queue, ops: seq<Op>, id: TaskId)
    requires Shelved(q, id)
    ensures Shelved(Run(q, ops), id) || ApprovedIn(q, ops, id)
    decreases |ops|
  {
    if ops != [] {
      StepKeepsShelved(q, ops[0], id);
      if Shelved(Step(q, ops[0]), id) {
        RunKeepsShelved(Step(q, ops[0]), ops[1..], id);
      }
    }
  }

  // A proposal makes no task ready, and whatever is done later, its task is neither offered
  // nor started nor completed before it has been approved.
  lemma ProposalNeedsApproval(q: Queue, propose: Op, ops: seq<Op>) returns (id: TaskId)
    requires propose.Propose? && Apply(q, propose).Ok?
    ensures Adds(q, Step(q, propose), id, Proposed, propose.priority, propose.deps)
    ensures ReadyIds(Step(q, propose)) == ReadyIds(q)
    ensures ApprovedIn(Step(q, propose), ops, id)
         || (Shelved(Run(Step(q, propose), ops), id) && id !in ReadyIds(Run(Step(q, propose), ops)))
  {
    id := AddEffect(q, propose);
    assert id !in q.tasks;
    assert ClosedIds(Step(q, propose)) == ClosedIds(q);
    RunKeepsShelved(Step(q, propose), ops, id);
  }
}
