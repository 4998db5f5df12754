/** Approved issue plans: validation, id allocation, translation to tasks, receipts. */
module QueueImport {
  import opened Wrappers
  import opened QueueTypes

  datatype PlanTask = PlanTask(key: string, deps: seq<string>, wave: nat)

  datatype Document = Document(plan: string, digest: string, tasks: seq<PlanTask>)

  function Keys(tasks: seq<PlanTask>): (ks: seq<string>)
    ensures |ks| == |tasks| && forall i :: 0 <= i < |ks| ==> ks[i] == tasks[i].key
  {
    seq(|tasks|, i requires 0 <= i < |tasks| => tasks[i].key)
  }

  predicate UniqueKeys(tasks: seq<PlanTask>) {
    forall i, j :: 0 <= i < j < |tasks| ==> tasks[i].key != tasks[j].key
  }

  predicate HasKey(tasks: seq<PlanTask>, key: string) {
    exists j :: 0 <= j < |tasks| && tasks[j].key == key
  }

  predicate KnownDeps(tasks: seq<PlanTask>) {
    forall i, d :: 0 <= i < |tasks| && d in tasks[i].deps ==> HasKey(tasks, d)
  }

  // Every dependency sits in a strictly earlier wave.
  predicate WavesPrecede(tasks: seq<PlanTask>)
    requires KnownDeps(tasks)
  {
    forall i, d :: 0 <= i < |tasks| && d in tasks[i].deps ==>
      d != tasks[i].key && tasks[KeyIndex(tasks, d)].wave < tasks[i].wave
  }

  // The graph checks of an import request.
  predicate ValidDocument(doc: Document) {
    && doc.plan != ""
    && doc.tasks != []
    && UniqueKeys(doc.tasks)
    && KnownDeps(doc.tasks)
    && WavesPrecede(doc.tasks)
    && forall i :: 0 <= i < |doc.tasks| ==> Distinct(doc.tasks[i].deps) && doc.tasks[i].wave > 0
  }

  function KeyIndex(tasks: seq<PlanTask>, key: string): (i: nat)
    requires HasKey(tasks, key)
    ensures i < |tasks| && tasks[i].key == key
  {
    if tasks[0].key == key then 0
    else
      assert HasKey(tasks[1..], key) by {
        var j :| 0 <= j < |tasks| && tasks[j].key == key;
        assert tasks[1..][j - 1].key == key;
      }
      1 + KeyIndex(tasks[1..], key)
  }

  // The ids that count tasks get in a queue whose newest id is `newest`.
  function AllocatedIds(newest: nat, count: nat): (ids: seq<TaskId>)
    ensures |ids| == count && forall i :: 0 <= i < count ==> ids[i] == H(newest + 1 + i)
  {
    seq(count, i requires 0 <= i < count => H(newest + 1 + i))
  }

  // The same ids as a set.
  function BatchIds(newest: nat, count: nat): (ids: set<TaskId>)
    ensures forall id :: id in ids <==> newest < id.n <= newest + count
  {
    if count == 0 then {} else BatchIds(newest, count - 1) + {H(newest + count)}
  }

  function BuiltDeps(doc: Document, i: nat, newest: nat): set<TaskId>
    requires i < |doc.tasks| && KnownDeps(doc.tasks)
  {
    set key | key in doc.tasks[i].deps :: H(newest + 1 + KeyIndex(doc.tasks, key))
  }

  function BuiltTask(doc: Document, i: nat, newest: nat): Task
    requires i < |doc.tasks| && KnownDeps(doc.tasks)
  {
    Task(Pending, 2, BuiltDeps(doc, i, newest), "", "", 1, 0, "", false, NotCompleted,
         Some(Source(doc.plan, doc.digest, doc.tasks[i].key)))
  }

  function BuiltTasks(doc: Document, newest: nat): map<TaskId, Task>
    requires KnownDeps(doc.tasks)
  {
    map id | id in BatchIds(newest, |doc.tasks|) :: BuiltTask(doc, id.n - newest - 1, newest)
  }

  function BuiltReceipt(doc: Document, newest: nat): (r: seq<Mapping>)
    ensures |r| == |doc.tasks|
  {
    seq(|doc.tasks|, i requires 0 <= i < |doc.tasks| => Mapping(doc.tasks[i].key, H(newest + 1 + i)))
  }

  // A stored receipt still describes the persisted tasks.
  predicate ReceiptMatches(receipt: seq<Mapping>, doc: Document, tasks: map<TaskId, Task>) {
    && |receipt| == |doc.tasks|
    && (forall i :: 0 <= i < |receipt| ==> receipt[i].key == doc.tasks[i].key)
    && (forall i, j :: 0 <= i < j < |receipt| ==> receipt[i].key != receipt[j].key && receipt[i].id != receipt[j].id)
    && (forall i :: 0 <= i < |receipt| ==>
          receipt[i].id in tasks &&
          tasks[receipt[i].id].source == Some(Source(doc.plan, doc.digest, receipt[i].key)))
  }

  datatype Decision = Conflict | Replay(record: nat) | Fresh

  // The records are examined in order; the first one that matches or conflicts decides.
  function Decide(imports: seq<ImportRecord>, doc: Document, key: string, i: nat): (d: Decision)
    requires i <= |imports|
    ensures d.Replay? ==> i <= d.record < |imports|
    decreases |imports| - i
  {
    if i == |imports| then Fresh
    else
      var rec := imports[i];
      var sameKey := key in rec.keys;
      var samePlan := rec.plan == doc.plan;
      var sameDigest := rec.digest == doc.digest;
      if sameKey && !(samePlan && sameDigest) then Conflict
      else if samePlan && !sameDigest then Conflict
      else if (sameKey || samePlan) && sameDigest then Replay(i)
      else Decide(imports, doc, key, i + 1)
  }

  function WithKey(rec: ImportRecord, key: string): ImportRecord {
    if key in rec.keys then rec else rec.(keys := rec.keys + [key])
  }

  /** Import one plan: the queue afterwards and the receipt handed to the caller. */
  function ImportPlan(q: Queue, doc: Document, key: string): Result<(Queue, seq<Mapping>), QueueError> {
    if !ValidDocument(doc) || key == "" then Err(InvalidImport)
    else match Decide(q.imports, doc, key, 0)
      case Conflict => Err(ImportConflict)
      case Replay(i) =>
        if ReceiptMatches(q.imports[i].receipt, doc, q.tasks) then
          Ok((q.(imports := q.imports[i := WithKey(q.imports[i], key)]), q.imports[i].receipt))
        else Err(ReceiptMismatch)
      case Fresh =>
        var newest := MaxId(q.tasks.Keys);
        var receipt := BuiltReceipt(doc, newest);
        Ok((q.(tasks := q.tasks + BuiltTasks(doc, newest),
               imports := q.imports + [ImportRecord([key], doc.plan, doc.digest, receipt)]),
            receipt))
  }
}
