/**
 * The queue file: a list of task rows and a list of import records, rewritten in place by
 * the queue operations. Every method is one locked read-modify-write and is proved to do
 * exactly what QueueModel says of the document as a map.
 */
module QueueFile {
  import opened Wrappers
  import opened QueueTypes
  import opened QueueImport
  import opened QueueModel
  import opened IdOrder
  import opened PlanImport
  import opened ImportLaws
  import opened QueueEffects

  predicate UniqueIds(rows: seq<Row>) {
    forall i, j :: 0 <= i < j < |rows| ==> rows[i].id != rows[j].id
  }

  ghost function TaskMap(rows: seq<Row>): map<TaskId, Task>
    requires UniqueIds(rows)
  {
    map r | r in rows :: r.id := r.task
  }

  lemma TaskMapAt(rows: seq<Row>)
    requires UniqueIds(rows)
    ensures forall i :: 0 <= i < |rows| ==> rows[i].id in TaskMap(rows) && TaskMap(rows)[rows[i].id] == rows[i].task
    ensures forall id :: id in TaskMap(rows) ==> exists i :: 0 <= i < |rows| && rows[i].id == id
    ensures TaskMap(rows).Keys == RowIds(rows)
  {
    forall i | 0 <= i < |rows|
      ensures rows[i].id in TaskMap(rows) && TaskMap(rows)[rows[i].id] == rows[i].task
    {
      assert rows[i] in rows;
    }
  }

  lemma RowOf(rows: seq<Row>, id: TaskId) returns (i: nat)
    requires id in RowIds(rows)
    ensures i < |rows| && rows[i].id == id
  {
    var r :| r in rows && r.id == id;
    i :| 0 <= i < |rows| && rows[i] == r;
  }

  // A map is the task map when it has the rows' ids and agrees with each row.
  lemma TaskMapIs(rows: seq<Row>, m: map<TaskId, Task>)
    requires UniqueIds(rows) && m.Keys == RowIds(rows)
    requires forall i :: 0 <= i < |rows| ==> rows[i].id in m && m[rows[i].id] == rows[i].task
    ensures TaskMap(rows) == m
  {
    TaskMapAt(rows);
    forall id | id in m
      ensures TaskMap(rows)[id] == m[id]
    {
      var i := RowOf(rows, id);
    }
  }

  lemma RowIdsIndexed(rows: seq<Row>, i: nat)
    requires i < |rows|
    ensures rows[i].id in RowIds(rows)
  {
    assert rows[i] in rows;
  }

  lemma PutIds(rows: seq<Row>, i: nat, t: Task)
    requires i < |rows|
    ensures RowIds(rows[i := Row(rows[i].id, t)]) == RowIds(rows)
  {
    var rows' := rows[i := Row(rows[i].id, t)];
    forall id | id in RowIds(rows)
      ensures id in RowIds(rows')
    {
      var j := RowOf(rows, id);
      RowIdsIndexed(rows', j);
    }
    forall id | id in RowIds(rows')
      ensures id in RowIds(rows)
    {
      var j := RowOf(rows', id);
      RowIdsIndexed(rows, j);
    }
  }

  lemma {:induction false} PutRow(rows: seq<Row>, i: nat, t: Task)
    requires UniqueIds(rows) && i < |rows|
    ensures UniqueIds(rows[i := Row(rows[i].id, t)])
    ensures TaskMap(rows[i := Row(rows[i].id, t)]) == TaskMap(rows)[rows[i].id := t]
  {
    TaskMapAt(rows);
    PutIds(rows, i, t);
    TaskMapIs(rows[i := Row(rows[i].id, t)], TaskMap(rows)[rows[i].id := t]);
  }

  lemma AppendIds(rows: seq<Row>, more: seq<Row>)
    ensures RowIds(rows + more) == RowIds(rows) + RowIds(more)
  {
  }

  lemma AppendUnique(rows: seq<Row>, more: seq<Row>)
    requires UniqueIds(rows) && UniqueIds(more) && RowIds(rows) !! RowIds(more)
    ensures UniqueIds(rows + more)
  {
    forall i, j | 0 <= i < j < |rows + more|
      ensures (rows + more)[i].id != (rows + more)[j].id
    {
      if i < |rows| <= j {
        RowIdsIndexed(rows, i);
        RowIdsIndexed(more, j - |rows|);
      }
    }
  }

  lemma {:induction false} AppendRows(rows: seq<Row>, more: seq<Row>)
    requires UniqueIds(rows) && UniqueIds(more) && RowIds(rows) !! RowIds(more)
    ensures UniqueIds(rows + more)
    ensures TaskMap(rows + more) == TaskMap(rows) + TaskMap(more)
  {
    TaskMapAt(rows);
    TaskMapAt(more);
    AppendUnique(rows, more);
    AppendIds(rows, more);
    var m := TaskMap(rows) + TaskMap(more);
    forall i | 0 <= i < |rows + more|
      ensures (rows + more)[i].id in m && m[(rows + more)[i].id] == (rows + more)[i].task
    {
      if i < |rows| {
        RowIdsIndexed(rows, i);
      } else {
        assert (rows + more)[i] == more[i - |rows|];
      }
    }
    TaskMapIs(rows + more, m);
  }

  // How a locked operation relates the document before and after it.
  predicate Performs(before: Queue, op: Op, after: Queue, error: Option<QueueError>) {
    match Apply(before, op)
    case Ok(next) => error == None && after == next
    case Err(e) => error == Some(e) && after == before
  }

  lemma FirstIsNext(q: Queue, first: TaskId)
    requires FirstOf(q, ReadyIds(q), first)
    ensures NextTask(q) == Some(first)
  {
    FirstIsUnique(q, ReadyIds(q));
  }

  // Known tasks in strictly increasing (priority, id) order.
  predicate Ordered(q: Queue, ids: seq<TaskId>) {
    && (forall i :: 0 <= i < |ids| ==> ids[i] in q.tasks)
    && (forall i, j :: 0 <= i < j < |ids| ==> Before(q, ids[i], ids[j]))
  }

  // The ids among the first n rows that are in progress.
  predicate Counted(rows: seq<Row>, n: nat, ids: set<TaskId>)
    requires n <= |rows|
  {
    && (forall j :: 0 <= j < n && rows[j].task.status == InProgress ==> rows[j].id in ids)
    && (forall id :: id in ids ==> exists j :: 0 <= j < n && rows[j].id == id && rows[j].task.status == InProgress)
  }

  lemma CountedOne(rows: seq<Row>, n: nat, ids: set<TaskId>)
    requires n < |rows| && UniqueIds(rows) && Counted(rows, n, ids)
    ensures rows[n].id !in ids
    ensures Counted(rows, n + 1, if rows[n].task.status == InProgress then ids + {rows[n].id} else ids)
  {
  }

  lemma CountedAll(q: Queue, rows: seq<Row>, ids: set<TaskId>)
    requires UniqueIds(rows) && q.tasks == TaskMap(rows) && Counted(rows, |rows|, ids)
    ensures ids == InProgressIds(q)
  {
    TaskMapAt(rows);
  }

  class QueueFile {
    const limit: nat
    var rows: seq<Row>
    var imports: seq<ImportRecord>

    ghost predicate Valid()
      reads this
    {
      UniqueIds(rows)
    }

    ghost function Contents(): Queue
      reads this
      requires Valid()
    {
      Queue(limit, TaskMap(rows), imports)
    }

    constructor (limit: nat)
      ensures Valid() && Contents() == Queue(limit, map[], [])
    {
      this.limit := limit;
      rows, imports := [], [];
    }

    method IndexOf(id: TaskId) returns (index: int)
      requires Valid()
      ensures index == -1 <==> id !in Contents().tasks
      ensures index != -1 ==> 0 <= index < |rows| && rows[index].id == id && Contents().tasks[id] == rows[index].task
    {
      TaskMapAt(rows);
      index := 0;
      while index < |rows|
        invariant 0 <= index <= |rows|
        invariant forall j :: 0 <= j < index ==> rows[j].id != id
      {
        if rows[index].id == id {
          return;
        }
        index := index + 1;
      }
      index := -1;
    }

    method ClosedTaskIds() returns (ids: set<TaskId>)
      requires Valid()
      ensures ids == ClosedIds(Contents())
    {
      TaskMapAt(rows);
      ids := {};
      var i := 0;
      while i < |rows|
        invariant 0 <= i <= |rows|
        invariant forall j :: 0 <= j < i && Terminal(rows[j].task.status) ==> rows[j].id in ids
        invariant ids <= ClosedIds(Contents())
      {
        if Terminal(rows[i].task.status) {
          ids := ids + {rows[i].id};
        }
        i := i + 1;
      }
    }

    method CountInProgress() returns (n: nat)
      requires Valid()
      ensures n == |InProgressIds(Contents())|
    {
      n := 0;
      ghost var ids: set<TaskId> := {};
      var i := 0;
      while i < |rows|
        invariant 0 <= i <= |rows| && n == |ids|
        invariant Counted(rows, i, ids)
      {
        CountedOne(rows, i, ids);
        if rows[i].task.status == InProgress {
          n := n + 1;
          ids := ids + {rows[i].id};
        }
        i := i + 1;
      }
      CountedAll(Contents(), rows, ids);
    }

    method Validate() returns (ok: bool)
      requires Valid()
      ensures ok <==> ValidQueue(Contents())
    {
      TaskMapAt(rows);
      var seen := RowIds(rows);
      var i := 0;
      while i < |rows|
        invariant 0 <= i <= |rows|
        invariant forall j :: 0 <= j < i ==> rows[j].id !in rows[j].task.deps && rows[j].task.deps <= seen
      {
        if rows[i].id in rows[i].task.deps || !(rows[i].task.deps <= seen) {
          assert rows[i].id in Contents().tasks;
          return false;
        }
        i := i + 1;
      }
      ok := true;
    }

    // Offers ready tasks in (priority, id) order.
    method ReadyTasks() returns (ready: seq<TaskId>)
      requires Valid()
      ensures Elements(ready) == ReadyIds(Contents())
      ensures Ordered(Contents(), ready)
    {
      TaskMapAt(rows);
      var closed := ClosedTaskIds();
      ready := [];
      var i := 0;
      while i < |rows|
        invariant 0 <= i <= |rows|
        invariant forall x :: x in ready ==> x in ReadyIds(Contents())
        invariant forall j :: i <= j < |rows| ==> rows[j].id !in ready
        invariant forall j :: 0 <= j < i && rows[j].id in ReadyIds(Contents()) ==> rows[j].id in ready
        invariant Ordered(Contents(), ready)
      {
        assert rows[i].id in ReadyIds(Contents()) <==> rows[i].task.status == Pending && rows[i].task.deps <= closed;
        if rows[i].task.status == Pending && rows[i].task.deps <= closed {
          ready := Insert(ready, i);
        }
        i := i + 1;
      }
    }

    // Insert a row's id at its place in a sorted list.
    method Insert(sorted: seq<TaskId>, i: nat) returns (longer: seq<TaskId>)
      requires Valid() && i < |rows| && rows[i].id !in sorted
      requires Ordered(Contents(), sorted)
      ensures forall x :: x in longer <==> x in sorted || x == rows[i].id
      ensures Ordered(Contents(), longer)
    {
      TaskMapAt(rows);
      var k := 0;
      while k < |sorted|
        invariant 0 <= k <= |sorted|
        invariant forall a :: 0 <= a < k ==> Before(Contents(), sorted[a], rows[i].id)
      {
        assert sorted[k] in sorted;
        var at := IndexOf(sorted[k]);
        var other := rows[at];
        if rows[i].task.priority < other.task.priority
           || (rows[i].task.priority == other.task.priority && Earlier(rows[i].id, other.id)) {
          break;
        }
        BeforeIsTotal(Contents(), rows[i].id, sorted[k]);
        k := k + 1;
      }
      longer := sorted[..k] + [rows[i].id] + sorted[k..];
      SplitMembers(sorted, k, rows[i].id);
      assert k < |sorted| ==> sorted[k] in sorted;
      SplitOrdered(Contents(), sorted, k, rows[i].id);
    }

    method Next() returns (next: Option<TaskId>)
      requires Valid()
      ensures next == NextTask(Contents())
    {
      var ready := ReadyTasks();
      if ready == [] {
        assert ReadyIds(Contents()) == {};
        next := None;
      } else {
        assert ready[0] in Elements(ready);
        FirstIsNext(Contents(), ready[0]);
        next := Some(ready[0]);
      }
    }

    // Rewrite one row, unless the document would no longer validate.
    method WriteRow(i: nat, t: Task) returns (ok: bool)
      requires Valid() && i < |rows|
      modifies this`rows
      ensures Valid()
      ensures var candidate := Put(old(Contents()), old(rows[i].id), t);
              ok == ValidQueue(candidate) && Contents() == if ok then candidate else old(Contents())
    {
      var before := rows;
      PutRow(rows, i, t);
      rows := rows[i := Row(rows[i].id, t)];
      ok := Validate();
      if !ok {
        rows := before;
      }
    }

    method Claim(target: Option<TaskId>, claimant: string, resumeBlocked: bool, requested: string, generated: Token)
      returns (error: Option<QueueError>)
      requires Valid()
      modifies this
      ensures Valid()
      ensures Performs(old(Contents()), QueueModel.Claim(target, claimant, resumeBlocked, requested, generated),
                       Contents(), error)
    {
      var valid := Validate();
      if !valid {
        return Some(InvalidQueue);
      }
      if target.Some? {
        var existing := IndexOf(target.value);
        if existing == -1 {
          return Some(TaskNotFound);
        }
        if rows[existing].task.status == InProgress {
          return Some(InProgressExists);
        }
      }
      var active := CountInProgress();
      if active >= limit {
        return Some(InProgressExists);
      }
      var chosen := target;
      if target.None? {
        chosen := Next();
      }
      if chosen.None? {
        return Some(NoReadyTask);
      }
      error := ClaimById(chosen.value, claimant, resumeBlocked, requested, generated);
    }

    // The status and dependency checks of a claim, and the claim itself.
    method ClaimById(id: TaskId, claimant: string, resumeBlocked: bool, requested: string, generated: Token)
      returns (error: Option<QueueError>)
      requires Valid() && ValidQueue(Contents()) && id in Contents().tasks
      modifies this`rows
      ensures Valid()
      ensures match ClaimChosen(old(Contents()), id, claimant, resumeBlocked, requested, generated)
              case Err(e) => error == Some(e) && Contents() == old(Contents())
              case Ok(next) => if ValidQueue(next) then error == None && Contents() == next
                               else error == Some(InvalidQueue) && Contents() == old(Contents())
    {
      var i := IndexOf(id);
      var t := rows[i].task;
      if t.status == Blocked && resumeBlocked {
        t := t.(status := Pending);
      }
      if t.status != Pending {
        return Some(InvalidStatus);
      }
      var closed := ClosedTaskIds();
      if !(t.deps <= closed) {
        return Some(DependencyBlocked);
      }
      t := t.(status := InProgress);
      t := t.(owner := if claimant == "" then "autodev" else claimant);
      t := t.(token := if requested == "" then generated else requested);
      t := t.(revision := t.revision + 1);
      var ok := WriteRow(i, t);
      error := if ok then None else Some(InvalidQueue);
    }

    method Complete(id: TaskId, lease: Lease, force: bool, reviewPassed: bool) returns (error: Option<QueueError>)
      requires Valid()
      modifies this
      ensures Valid()
      ensures Performs(old(Contents()), QueueModel.Complete(id, lease, force, reviewPassed), Contents(), error)
    {
      var valid := Validate();
      if !valid {
        return Some(InvalidQueue);
      }
      var i := IndexOf(id);
      if i == -1 {
        return Some(TaskNotFound);
      }
      var t := rows[i].task;
      if t.gate && !reviewPassed {
        return Some(InvalidStatus);
      }
      if force {
        if t.status !in {InProgress, Pending, Blocked} {
          return Some(InvalidStatus);
        }
      } else if !ActiveLease(t, lease) {
        return Some(LeaseConflict);
      }
      t := t.(status := Done, completion := if force then ManualReconcile else AutodevReviewed);
      t := t.(revision := t.revision + 1, token := "");
      if !force {
        t := t.(gate := false, failures := 0, lastFailure := "");
      }
      var ok := WriteRow(i, t);
      error := if ok then None else Some(InvalidQueue);
    }

    method Release(id: TaskId, lease: Lease) returns (error: Option<QueueError>)
      requires Valid()
      modifies this
      ensures Valid() && Performs(old(Contents()), QueueModel.Release(id, lease), Contents(), error)
    {
      var valid := Validate();
      if !valid {
        return Some(InvalidQueue);
      }
      var i := IndexOf(id);
      if i == -1 {
        return Some(TaskNotFound);
      }
      var t := rows[i].task;
      if !ActiveLease(t, lease) {
        return Some(LeaseConflict);
      }
      t := t.(status := Pending, revision := t.revision + 1, token := "", owner := "");
      var ok := WriteRow(i, t);
      error := if ok then None else Some(InvalidQueue);
    }

    method Block(id: TaskId, lease: Lease, force: bool, failureStatus: string) returns (error: Option<QueueError>)
      requires Valid()
      modifies this
      ensures Valid() && Performs(old(Contents()), QueueModel.Block(id, lease, force, failureStatus), Contents(), error)
    {
      var valid := Validate();
      if !valid {
        return Some(InvalidQueue);
      }
      var i := IndexOf(id);
      if i == -1 {
        return Some(TaskNotFound);
      }
      var t := rows[i].task;
      if Terminal(t.status) || t.status == Proposed {
        return Some(InvalidStatus);
      }
      if !force && !ActiveLease(t, lease) {
        return Some(LeaseConflict);
      }
      t := t.(status := Blocked, revision := t.revision + 1, token := "");
      if failureStatus != "" {
        t := t.(failures := t.failures + 1, lastFailure := failureStatus);
        if failureStatus in REVIEW_GATED {
          t := t.(gate := true);
        }
      }
      assert t == BlockedTask(rows[i].task, failureStatus);
      var ok := WriteRow(i, t);
      error := if ok then None else Some(InvalidQueue);
    }

    method Resume(id: TaskId, resetBudget: bool) returns (error: Option<QueueError>)
      requires Valid()
      modifies this
      ensures Valid() && Performs(old(Contents()), QueueModel.Resume(id, resetBudget), Contents(), error)
    {
      var valid := Validate();
      if !valid {
        return Some(InvalidQueue);
      }
      var i := IndexOf(id);
      if i == -1 {
        return Some(TaskNotFound);
      }
      var t := rows[i].task;
      if t.status != Blocked {
        return Some(InvalidStatus);
      }
      var closed := ClosedTaskIds();
      if !(t.deps <= closed) {
        return Some(DependencyBlocked);
      }
      t := t.(status := Pending, revision := t.revision + 1, token := "");
      if resetBudget {
        t := t.(failures := 0, lastFailure := "");
      }
      var ok := WriteRow(i, t);
      error := if ok then None else Some(InvalidQueue);
    }

    method Skip(id: TaskId) returns (error: Option<QueueError>)
      requires Valid()
      modifies this
      ensures Valid() && Performs(old(Contents()), QueueModel.Skip(id), Contents(), error)
    {
      var valid := Validate();
      if !valid {
        return Some(InvalidQueue);
      }
      var i := IndexOf(id);
      if i == -1 {
        return Some(TaskNotFound);
      }
      var t := rows[i].task;
      if t.status == Done {
        return Some(InvalidStatus);
      }
      t := t.(status := Skipped, revision := t.revision + 1, token := "");
      var ok := WriteRow(i, t);
      error := if ok then None else Some(InvalidQueue);
    }

    method Approve(id: TaskId) returns (error: Option<QueueError>)
      requires Valid()
      modifies this
      ensures Valid() && Performs(old(Contents()), QueueModel.Approve(id), Contents(), error)
    {
      var valid := Validate();
      if !valid {
        return Some(InvalidQueue);
      }
      var i := IndexOf(id);
      if i == -1 {
        return Some(TaskNotFound);
      }
      var t := rows[i].task;
      if t.status != Proposed {
        return Some(InvalidStatus);
      }
      t := t.(status := Pending, revision := t.revision + 1);
      var ok := WriteRow(i, t);
      error := if ok then None else Some(InvalidQueue);
    }

    // Append rows, unless the document would no longer validate.
    method AppendTasks(more: seq<Row>, records: seq<ImportRecord>) returns (ok: bool)
      requires Valid() && UniqueIds(more) && RowIds(rows) !! RowIds(more)
      modifies this
      ensures Valid()
      ensures var candidate := Queue(limit, old(Contents().tasks) + TaskMap(more), old(imports) + records);
              ok == ValidQueue(candidate) && Contents() == if ok then candidate else old(Contents())
    {
      var before, recorded := rows, imports;
      AppendRows(rows, more);
      rows, imports := rows + more, imports + records;
      ok := Validate();
      if !ok {
        rows, imports := before, recorded;
      }
    }

    // add_task and propose_task differ in the status of the new task.
    method AddWithStatus(status: Status, priority: Priority, deps: set<TaskId>) returns (ok: bool)
      requires Valid()
      modifies this
      ensures Valid()
      ensures var candidate := AddTask(old(Contents()), status, priority, deps);
              ok == ValidQueue(candidate) && Contents() == if ok then candidate else old(Contents())
    {
      TaskMapAt(rows);
      var newest := NewestId(rows);
      var row := Row(H(newest + 1), Task(status, priority, deps, "", "", 0, 0, "", false, NotCompleted, None));
      SingleRow(row);
      AddedTask(Contents(), row, status, priority, deps);
      ok := AppendTasks([row], []);
    }

    method Add(priority: Priority, deps: set<TaskId>) returns (error: Option<QueueError>)
      requires Valid()
      modifies this
      ensures Valid() && Performs(old(Contents()), QueueModel.Add(priority, deps), Contents(), error)
      ensures error == None ==> exists id :: Adds(old(Contents()), Contents(), id, Pending, priority, deps)
    {
      if ValidQueue(Contents()) {
        ghost var id := AddEffect(Contents(), QueueModel.Add(priority, deps));
      }
      var valid := Validate();
      if !valid {
        return Some(InvalidQueue);
      }
      var ok := AddWithStatus(Pending, priority, deps);
      error := if ok then None else Some(InvalidQueue);
    }

    method Propose(priority: Priority, deps: set<TaskId>) returns (error: Option<QueueError>)
      requires Valid()
      modifies this
      ensures Valid() && Performs(old(Contents()), QueueModel.Propose(priority, deps), Contents(), error)
      ensures error == None ==> ReadyIds(Contents()) == ReadyIds(old(Contents()))
      ensures error == None ==> exists id :: Adds(old(Contents()), Contents(), id, Proposed, priority, deps)
    {
      ghost var op := QueueModel.Propose(priority, deps);
      if Apply(Contents(), op).Ok? {
        ghost var id := ProposalNeedsApproval(Contents(), op, []);
      }
      var valid := Validate();
      if !valid {
        return Some(InvalidQueue);
      }
      var ok := AddWithStatus(Proposed, priority, deps);
      error := if ok then None else Some(InvalidQueue);
    }

    // The first record that matches or conflicts with the request.
    method FindRecord(doc: Document, key: string) returns (d: Decision)
      ensures d == Decide(imports, doc, key, 0)
    {
      var i := 0;
      while i < |imports|
        invariant 0 <= i <= |imports|
        invariant Decide(imports, doc, key, i) == Decide(imports, doc, key, 0)
      {
        var rec := imports[i];
        var sameKey := key in rec.keys;
        var samePlan := rec.plan == doc.plan;
        var sameDigest := rec.digest == doc.digest;
        if sameKey && !(samePlan && sameDigest) {
          return Conflict;
        }
        if samePlan && !sameDigest {
          return Conflict;
        }
        if (sameKey || samePlan) && sameDigest {
          return Replay(i);
        }
        i := i + 1;
      }
      d := Fresh;
    }

    /** Import an approved plan, or hand back the receipt of an earlier import of it. */
    method ImportPlan(doc: Document, key: string) returns (r: Result<seq<Mapping>, QueueError>)
      requires Valid()
      modifies this
      ensures Valid()
      ensures Performs(old(Contents()), QueueModel.Import(doc, key), Contents(), if r.Err? then Some(r.error) else None)
      ensures r.Ok? ==> QueueImport.ImportPlan(old(Contents()), doc, key).Ok?
                        && r.value == QueueImport.ImportPlan(old(Contents()), doc, key).value.1
    {
      var accepted := ValidDocument(doc) && key != "";
      if !accepted {
        return Err(InvalidImport);
      }
      var valid := Validate();
      if !valid {
        return Err(InvalidQueue);
      }
      var d := FindRecord(doc, key);
      match d {
        case Conflict => r := Err(ImportConflict);
        case Replay(i) =>
          r := ReplayRecord(doc, key, i);
        case Fresh =>
          r := ImportFresh(doc, key);
      }
    }

    method ReplayRecord(doc: Document, key: string, i: nat) returns (r: Result<seq<Mapping>, QueueError>)
      requires Valid() && i < |imports| && ValidQueue(Contents())
      modifies this`imports
      ensures Valid()
      ensures if ReceiptMatches(old(imports)[i].receipt, doc, old(Contents().tasks))
              then r == Ok(old(imports)[i].receipt)
                   && Contents() == old(Contents()).(imports := old(imports)[i := WithKey(old(imports)[i], key)])
              else r == Err(ReceiptMismatch) && Contents() == old(Contents())
    {
      var tasks := Tasks();
      var receipt := imports[i].receipt;
      var matches := ValidateStoredReceipt(receipt, doc, tasks);
      if !matches {
        return Err(ReceiptMismatch);
      }
      if key !in imports[i].keys {
        imports := imports[i := imports[i].(keys := imports[i].keys + [key])];
      } else {
        assert imports == imports[i := WithKey(imports[i], key)];
      }
      r := Ok(receipt);
    }

    // persisted_by_id
    method Tasks() returns (tasks: map<TaskId, Task>)
      requires Valid()
      ensures tasks == Contents().tasks
    {
      TaskMapAt(rows);
      tasks := map[];
      var i := 0;
      while i < |rows|
        invariant 0 <= i <= |rows|
        invariant forall j :: 0 <= j < i ==> rows[j].id in tasks
        invariant forall id :: id in tasks ==> id in Contents().tasks && tasks[id] == Contents().tasks[id]
      {
        tasks := tasks[rows[i].id := rows[i].task];
        i := i + 1;
      }
      assert tasks.Keys == Contents().tasks.Keys;
    }

    method ImportFresh(doc: Document, key: string) returns (r: Result<seq<Mapping>, QueueError>)
      requires Valid() && ValidDocument(doc) && key != "" && Decide(imports, doc, key, 0) == Fresh
      modifies this
      ensures Valid()
      ensures var (next, receipt) := QueueImport.ImportPlan(old(Contents()), doc, key).value;
              if ValidQueue(next) then r == Ok(receipt) && Contents() == next
              else r == Err(InvalidQueue) && Contents() == old(Contents())
      ensures r.Ok? ==> |r.value| == |doc.tasks| && TasksAsPlanned(Contents().tasks, doc, r.value)
    {
      TaskMapAt(rows);
      FreshImportIsComplete(Contents(), doc, key);
      var more, receipt := BuildQueueTasks(doc, rows);
      BuiltRowsMap(doc, MaxId(RowIds(rows)), more);
      var ok := AppendTasks(more, [ImportRecord([key], doc.plan, doc.digest, receipt)]);
      r := if ok then Ok(receipt) else Err(InvalidQueue);
    }
  }

  lemma SplitOrdered(q: Queue, sorted: seq<TaskId>, k: nat, id: TaskId)
    requires Ordered(q, sorted) && k <= |sorted| && id in q.tasks
    requires forall a :: 0 <= a < k ==> Before(q, sorted[a], id)
    requires k < |sorted| ==> Before(q, id, sorted[k])
    ensures Ordered(q, sorted[..k] + [id] + sorted[k..])
  {
    forall a | k < a < |sorted|
      ensures Before(q, id, sorted[a])
    {
      BeforeTransitive(q, id, sorted[k], sorted[a]);
    }
    var longer := sorted[..k] + [id] + sorted[k..];
    assert forall a :: 0 <= a < |longer| ==>
                         longer[a] == if a < k then sorted[a] else if a == k then id else sorted[a - 1];
  }

  lemma SplitMembers(sorted: seq<TaskId>, k: nat, id: TaskId)
    requires k <= |sorted|
    ensures forall x :: x in sorted[..k] + [id] + sorted[k..] <==> x in sorted || x == id
  {
    assert sorted == sorted[..k] + sorted[k..];
  }

  lemma SingleRow(row: Row)
    ensures UniqueIds([row]) && RowIds([row]) == {row.id} && TaskMap([row]) == map[row.id := row.task]
  {
    assert row in [row];
  }

  lemma {:induction false} BuiltRowIds(newest: nat, rows: seq<Row>)
    requires forall i :: 0 <= i < |rows| ==> rows[i].id == H(newest + 1 + i)
    ensures UniqueIds(rows) && RowIds(rows) == BatchIds(newest, |rows|)
  {
    forall id | id in BatchIds(newest, |rows|)
      ensures id in RowIds(rows)
    {
      assert rows[id.n - newest - 1] in rows;
    }
  }

  lemma AddedTask(q: Queue, row: Row, status: Status, priority: Priority, deps: set<TaskId>)
    requires row == Row(H(MaxId(q.tasks.Keys) + 1), NewTask(status, priority, deps))
    ensures row.id !in q.tasks
    ensures UniqueIds([row]) && AddTask(q, status, priority, deps)
            == Queue(q.limit, q.tasks + TaskMap([row]), q.imports + [])
  {
    SingleRow(row);
    AddedRow(q, row);
  }

  lemma AddedRow(q: Queue, row: Row)
    ensures Put(q, row.id, row.task) == Queue(q.limit, q.tasks + TaskMap([row]), q.imports + [])
  {
    SingleRow(row);
    assert q.imports + [] == q.imports;
  }

  lemma {:induction false} RowsMap(rows: seq<Row>, newest: nat, tasks: map<TaskId, Task>)
    requires tasks.Keys == BatchIds(newest, |rows|)
    requires forall i :: 0 <= i < |rows| ==> rows[i].id == H(newest + 1 + i) && rows[i].task == tasks[H(newest + 1 + i)]
    ensures UniqueIds(rows) && TaskMap(rows) == tasks
  {
    BuiltRowIds(newest, rows);
    TaskMapAt(rows);
    forall id | id in tasks
      ensures TaskMap(rows)[id] == tasks[id]
    {
      assert rows[id.n - newest - 1].id == id;
    }
  }

  lemma {:induction false} BuiltRowsMap(doc: Document, newest: nat, rows: seq<Row>)
    requires KnownDeps(doc.tasks) && |rows| == |doc.tasks|
    requires forall i :: 0 <= i < |rows| ==> rows[i] == Row(H(newest + 1 + i), BuiltTask(doc, i, newest))
    ensures UniqueIds(rows) && TaskMap(rows) == BuiltTasks(doc, newest)
    ensures RowIds(rows) == BatchIds(newest, |doc.tasks|)
  {
    BuiltRowIds(newest, rows);
    RowsMap(rows, newest, BuiltTasks(doc, newest));
  }
}
