/**
 * What each queue operation does to the queue document, as a function of the
 * document read under the lock. An operation that fails writes nothing.
 */
module QueueModel {
  import opened Wrappers
  import opened QueueTypes
  import opened IdOrder
  import opened QueueImport

  // Statuses whose block leaves an independent-review gate on the task.
  const REVIEW_GATED: set<string> := {
    "review_red", "review_blocked", "safety_policy_red",
    "queue_contract_red", "landing_review_red", "landing_safety_policy_red"
  }

  // The claim receipt a finalize call presents; no revision means the caller gave none.
  datatype Lease = Lease(owner: string, token: string, revision: Option<nat>)

  datatype Op =
    | Claim(target: Option<TaskId>, claimant: string, resumeBlocked: bool, requested: string, generated: Token)
    | Complete(id: TaskId, lease: Lease, force: bool, reviewPassed: bool)
    | Release(id: TaskId, lease: Lease)
    | Block(id: TaskId, lease: Lease, force: bool, failureStatus: string)
    | Resume(id: TaskId, resetBudget: bool)
    | Skip(id: TaskId)
    | Approve(id: TaskId)
    | Add(priority: Priority, deps: set<TaskId>)
    | Propose(priority: Priority, deps: set<TaskId>)
    | Import(doc: Document, key: string)

  predicate ActiveLease(t: Task, lease: Lease) {
    && t.status == InProgress
    && t.token != ""
    && lease.owner != "" && lease.token != "" && lease.revision.Some?
    && t.owner == lease.owner
    && t.token == lease.token
    && t.revision == lease.revision.value
  }

  function ReadyIds(q: Queue): set<TaskId> {
    set id | id in q.tasks && q.tasks[id].status == Pending && DepsReady(q, q.tasks[id])
  }

  // (priority, id as text): the order in which ready tasks are offered
  predicate Before(q: Queue, a: TaskId, b: TaskId)
    requires a in q.tasks && b in q.tasks
  {
    q.tasks[a].priority < q.tasks[b].priority || (q.tasks[a].priority == q.tasks[b].priority && Earlier(a, b))
  }

  predicate FirstOf(q: Queue, ids: set<TaskId>, first: TaskId)
    requires ids <= q.tasks.Keys
  {
    first in ids && forall x :: x in ids ==> x == first || Before(q, first, x)
  }

  lemma BeforeIsTotal(q: Queue, a: TaskId, b: TaskId)
    requires a in q.tasks && b in q.tasks
    ensures !Before(q, a, a)
    ensures a == b || Before(q, a, b) || Before(q, b, a)
    ensures !(Before(q, a, b) && Before(q, b, a))
  {
    EarlierIsTotal(a, b);
  }

  lemma BeforeTransitive(q: Queue, a: TaskId, b: TaskId, c: TaskId)
    requires a in q.tasks && b in q.tasks && c in q.tasks && Before(q, a, b) && Before(q, b, c)
    ensures Before(q, a, c)
  {
    if q.tasks[a].priority == q.tasks[b].priority == q.tasks[c].priority {
      EarlierTransitive(a, b, c);
    }
  }

  lemma {:induction false} FirstExists(q: Queue, ids: set<TaskId>)
    requires ids != {} && ids <= q.tasks.Keys
    ensures exists f :: FirstOf(q, ids, f)
  {
    var y :| y in ids;
    if ids == {y} {
      assert FirstOf(q, ids, y);
    } else {
      FirstExists(q, ids - {y});
      var f :| FirstOf(q, ids - {y}, f);
      FirstOfMore(q, ids, f, y);
    }
  }

  lemma FirstOfMore(q: Queue, ids: set<TaskId>, f: TaskId, y: TaskId)
    requires ids <= q.tasks.Keys && y in ids && FirstOf(q, ids - {y}, f)
    ensures FirstOf(q, ids, if Before(q, y, f) then y else f)
  {
    BeforeIsTotal(q, y, f);
    forall x | x in ids
      ensures var first := if Before(q, y, f) then y else f; x == first || Before(q, first, x)
    {
      if x != y && x != f && Before(q, y, f) {
        assert x in ids - {y};
        BeforeTransitive(q, y, f, x);
      }
    }
  }

  lemma FirstIsUnique(q: Queue, ids: set<TaskId>)
    requires ids <= q.tasks.Keys
    ensures forall a, b :: FirstOf(q, ids, a) && FirstOf(q, ids, b) ==> a == b
  {
    forall a, b | FirstOf(q, ids, a) && FirstOf(q, ids, b)
      ensures a == b
    {
      BeforeIsTotal(q, a, b);
    }
  }

  function NextTask(q: Queue): (next: Option<TaskId>)
    ensures next.None? <==> ReadyIds(q) == {}
    ensures next.Some? ==> FirstOf(q, ReadyIds(q), next.value)
  {
    if ReadyIds(q) == {} then None
    else
      FirstExists(q, ReadyIds(q));
      FirstIsUnique(q, ReadyIds(q));
      var f :| FirstOf(q, ReadyIds(q), f);
      Some(f)
  }

  function Put(q: Queue, id: TaskId, t: Task): Queue {
    q.(tasks := q.tasks[id := t])
  }

  function ClaimedTask(t: Task, claimant: string, requested: string, generated: Token): Task {
    t.(status := InProgress,
       owner := if claimant == "" then "autodev" else claimant,
       token := if requested == "" then generated else requested,
       revision := t.revision + 1)
  }

  function ClaimChosen(q: Queue, id: TaskId, claimant: string, resumeBlocked: bool,
                       requested: string, generated: Token): Result<Queue, QueueError>
    requires id in q.tasks
  {
    var t := q.tasks[id];
    var resumed := if t.status == Blocked && resumeBlocked then t.(status := Pending) else t;
    if resumed.status != Pending then Err(InvalidStatus)
    else if !DepsReady(q, resumed) then Err(DependencyBlocked)
    else Ok(Put(q, id, ClaimedTask(resumed, claimant, requested, generated)))
  }

  function ClaimTask(q: Queue, target: Option<TaskId>, claimant: string, resumeBlocked: bool,
                     requested: string, generated: Token): Result<Queue, QueueError> {
    if target.Some? && target.value !in q.tasks then Err(TaskNotFound)
    else if target.Some? && q.tasks[target.value].status == InProgress then Err(InProgressExists)
    else if |InProgressIds(q)| >= q.limit then Err(InProgressExists)
    else
      var chosen := if target.Some? then target else NextTask(q);
      if chosen.None? then Err(NoReadyTask)
      else ClaimChosen(q, chosen.value, claimant, resumeBlocked, requested, generated)
  }

  function CompletedTask(t: Task, force: bool): Task {
    var closed := t.(status := Done, revision := t.revision + 1, token := "",
                     completion := if force then ManualReconcile else AutodevReviewed);
    if force then closed else closed.(gate := false, failures := 0, lastFailure := "")
  }

  function CompleteTask(q: Queue, id: TaskId, lease: Lease, force: bool, reviewPassed: bool)
    : Result<Queue, QueueError>
  {
    if id !in q.tasks then Err(TaskNotFound)
    else
      var t := q.tasks[id];
      if t.gate && !reviewPassed then Err(InvalidStatus)
      else if force && t.status !in {InProgress, Pending, Blocked} then Err(InvalidStatus)
      else if !force && !ActiveLease(t, lease) then Err(LeaseConflict)
      else Ok(Put(q, id, CompletedTask(t, force)))
  }

  function ReleaseTask(q: Queue, id: TaskId, lease: Lease): Result<Queue, QueueError> {
    if id !in q.tasks then Err(TaskNotFound)
    else if !ActiveLease(q.tasks[id], lease) then Err(LeaseConflict)
    else
      var t := q.tasks[id];
      Ok(Put(q, id, t.(status := Pending, revision := t.revision + 1, token := "", owner := "")))
  }

  function BlockedTask(t: Task, failureStatus: string): Task {
    var blocked := t.(status := Blocked, revision := t.revision + 1, token := "");
    if failureStatus == "" then blocked
    else blocked.(failures := t.failures + 1, lastFailure := failureStatus,
                  gate := t.gate || failureStatus in REVIEW_GATED)
  }

  function BlockTask(q: Queue, id: TaskId, lease: Lease, force: bool, failureStatus: string)
    : Result<Queue, QueueError>
  {
    if id !in q.tasks then Err(TaskNotFound)
    else
      var t := q.tasks[id];
      if Terminal(t.status) || t.status == Proposed then Err(InvalidStatus)
      else if !force && !ActiveLease(t, lease) then Err(LeaseConflict)
      else Ok(Put(q, id, BlockedTask(t, failureStatus)))
  }

  function ResumeTask(q: Queue, id: TaskId, resetBudget: bool): Result<Queue, QueueError> {
    if id !in q.tasks then Err(TaskNotFound)
    else
      var t := q.tasks[id];
      if t.status != Blocked then Err(InvalidStatus)
      else if !DepsReady(q, t) then Err(DependencyBlocked)
      else
        var resumed := t.(status := Pending, revision := t.revision + 1, token := "");
        Ok(Put(q, id, if resetBudget then resumed.(failures := 0, lastFailure := "") else resumed))
  }

  function SkipTask(q: Queue, id: TaskId): Result<Queue, QueueError> {
    if id !in q.tasks then Err(TaskNotFound)
    else if q.tasks[id].status == Done then Err(InvalidStatus)
    else
      var t := q.tasks[id];
      Ok(Put(q, id, t.(status := Skipped, revision := t.revision + 1, token := "")))
  }

  function ApproveTask(q: Queue, id: TaskId): Result<Queue, QueueError> {
    if id !in q.tasks then Err(TaskNotFound)
    else if q.tasks[id].status != Proposed then Err(InvalidStatus)
    else
      var t := q.tasks[id];
      Ok(Put(q, id, t.(status := Pending, revision := t.revision + 1)))
  }

  function NewTask(status: Status, priority: Priority, deps: set<TaskId>): Task {
    Task(status, priority, deps, "", "", 0, 0, "", false, NotCompleted, None)
  }

  function AddTask(q: Queue, status: Status, priority: Priority, deps: set<TaskId>): Queue {
    Put(q, H(MaxId(q.tasks.Keys) + 1), NewTask(status, priority, deps))
  }

  function Mutate(q: Queue, op: Op): Result<Queue, QueueError> {
    match op
    case Claim(target, claimant, resumeBlocked, requested, generated) =>
      ClaimTask(q, target, claimant, resumeBlocked, requested, generated)
    case Complete(id, lease, force, reviewPassed) => CompleteTask(q, id, lease, force, reviewPassed)
    case Release(id, lease) => ReleaseTask(q, id, lease)
    case Block(id, lease, force, failureStatus) => BlockTask(q, id, lease, force, failureStatus)
    case Resume(id, resetBudget) => ResumeTask(q, id, resetBudget)
    case Skip(id) => SkipTask(q, id)
    case Approve(id) => ApproveTask(q, id)
    case Add(priority, deps) => Ok(AddTask(q, Pending, priority, deps))
    case Propose(priority, deps) => Ok(AddTask(q, Proposed, priority, deps))
    case Import(doc, key) =>
      match ImportPlan(q, doc, key)
      case Ok(pair) => Ok(pair.0)
      case Err(e) => Err(e)
  }

  // One locked read-modify-write: the document is validated when read and again before it is
  // written. An import request is validated before the lock is taken.
  function Apply(q: Queue, op: Op): Result<Queue, QueueError> {
    if op.Import? && !(ValidDocument(op.doc) && op.key != "") then Err(InvalidImport)
    else if !ValidQueue(q) then Err(InvalidQueue)
    else
      var r := Mutate(q, op);
      if r.Ok? && !ValidQueue(r.value) then Err(InvalidQueue) else r
  }

  function Step(q: Queue, op: Op): Queue {
    match Apply(q, op)
    case Ok(next) => next
    case Err(_) => q
  }

  function Run(q: Queue, ops: seq<Op>): Queue
    decreases |ops|
  {
    if ops == [] then q else Run(Step(q, ops[0]), ops[1..])
  }

  // The existing task an operation that succeeds on q changes.
  function Target(q: Queue, op: Op): Option<TaskId> {
    match op
    case Claim(target, _, _, _, _) => if target.Some? then target else NextTask(q)
    case Add(_, _) => None
    case Propose(_, _) => None
    case Import(_, _) => None
    case _ => Some(op.id)
  }

  // `op` succeeds on q and acts on task `id`.
  predicate Touches(q: Queue, op: Op, id: TaskId) {
    Apply(q, op).Ok? && Target(q, op) == Some(id)
  }
}
