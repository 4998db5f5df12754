/** The task queue document: tasks by id, the concurrency limit and the import receipts. */
module QueueTypes {
  import opened Wrappers

  // Task ids are H-<n>.
  datatype TaskId = H(n: nat)

  datatype Status = Pending | Proposed | InProgress | Blocked | Done | Skipped

  datatype CompletionMode = NotCompleted | AutodevReviewed | ManualReconcile

  type Priority = p: nat | p <= 3

  // A lease token that a claim generates is never empty.
  type Token = t: string | t != "" witness "t"

  // Where an imported task came from.
  datatype Source = Source(plan: string, digest: string, key: string)

  datatype Task = Task(
    status: Status,
    priority: Priority,
    deps: set<TaskId>,
    owner: string,
    token: string,            // "" when there is no lease
    revision: nat,
    failures: nat,            // autodev_failure_count
    lastFailure: string,      // status of last_autodev_failure, "" when absent
    gate: bool,               // required_gate == independent_review
    completion: CompletionMode,
    source: Option<Source>)

  // One entry of the document's task list.
  datatype Row = Row(id: TaskId, task: Task)

  datatype Mapping = Mapping(key: string, id: TaskId)

  datatype ImportRecord = ImportRecord(keys: seq<string>, plan: string, digest: string, receipt: seq<Mapping>)

  datatype Queue = Queue(limit: nat, tasks: map<TaskId, Task>, imports: seq<ImportRecord>)

  datatype QueueError =
    | TaskNotFound
    | NoReadyTask
    | InProgressExists
    | DependencyBlocked
    | InvalidStatus
    | LeaseConflict
    | InvalidQueue
    | InvalidImport
    | ImportConflict
    | ReceiptMismatch

  predicate Terminal(s: Status) {
    s == Done || s == Skipped
  }

  // What every read and every write of the document checks.
  predicate ValidQueue(q: Queue) {
    forall id :: id in q.tasks ==> id !in q.tasks[id].deps && q.tasks[id].deps <= q.tasks.Keys
  }

  function ClosedIds(q: Queue): set<TaskId> {
    set id | id in q.tasks && Terminal(q.tasks[id].status)
  }

  predicate DepsReady(q: Queue, t: Task) {
    t.deps <= ClosedIds(q)
  }

  function InProgressIds(q: Queue): set<TaskId> {
    set id | id in q.tasks && q.tasks[id].status == InProgress
  }

  predicate Greatest(ids: set<TaskId>, m: TaskId) {
    m in ids && forall x :: x in ids ==> x.n <= m.n
  }

  lemma {:induction false} GreatestExists(ids: set<TaskId>)
    requires ids != {}
    ensures exists m :: Greatest(ids, m)
  {
    var y :| y in ids;
    if ids == {y} {
      assert Greatest(ids, y);
    } else {
      GreatestExists(ids - {y});
      var m :| Greatest(ids - {y}, m);
      assert ids == (ids - {y}) + {y};
      assert Greatest(ids, if m.n < y.n then y else m);
    }
  }

  // The number of the newest H-<n> id, 0 for an empty queue.
  function MaxId(ids: set<TaskId>): (m: nat)
    ensures forall x :: x in ids ==> x.n <= m
    ensures m == 0 || H(m) in ids
  {
    if ids == {} then 0
    else
      GreatestExists(ids);
      var m :| Greatest(ids, m);
      m.n
  }
}
