/** Importing approved plans exactly once, with receipts that stay valid over whole runs. */
module ImportLaws {
  import opened Wrappers
  import opened QueueTypes
  import opened QueueImport
  import opened QueueModel
  import opened QueueInvariants

  predicate ReceiptDistinct(receipt: seq<Mapping>) {
    forall i, j :: 0 <= i < j < |receipt| ==> receipt[i].key != receipt[j].key && receipt[i].id != receipt[j].id
  }

  predicate MappingHolds(tasks: map<TaskId, Task>, m: Mapping, plan: string, digest: string) {
    m.id in tasks && tasks[m.id].source == Some(Source(plan, digest, m.key))
  }

  predicate RecordHolds(tasks: map<TaskId, Task>, rec: ImportRecord) {
    && ReceiptDistinct(rec.receipt)
    && forall k :: 0 <= k < |rec.receipt| ==> MappingHolds(tasks, rec.receipt[k], rec.plan, rec.digest)
  }

  predicate PlansDistinct(imports: seq<ImportRecord>) {
    forall i, j :: 0 <= i < j < |imports| ==> imports[i].plan != imports[j].plan
  }

  // The record that accounts for a task imported from `source`.
  predicate Accounts(rec: ImportRecord, source: Source, id: TaskId) {
    rec.plan == source.plan && rec.digest == source.digest && Mapping(source.key, id) in rec.receipt
  }

  ghost predicate Accounted(q: Queue, id: TaskId)
    requires id in q.tasks
  {
    q.tasks[id].source.Some? ==>
      exists i :: 0 <= i < |q.imports| && Accounts(q.imports[i], q.tasks[id].source.value, id)
  }

  // Plans are recorded once, and receipts and imported tasks describe each other.
  ghost predicate ImportsInv(q: Queue) {
    && PlansDistinct(q.imports)
    && (forall i :: 0 <= i < |q.imports| ==> RecordHolds(q.tasks, q.imports[i]))
    && (forall id :: id in q.tasks ==> Accounted(q, id))
  }

  // Records are only appended, and an existing one only gains idempotency keys.
  predicate RecordsKept(before: seq<ImportRecord>, after: seq<ImportRecord>) {
    && |before| <= |after|
    && forall i :: 0 <= i < |before| ==>
                     after[i].(keys := []) == before[i].(keys := []) && before[i].keys <= after[i].keys
  }

  // ------------------------------------------------------------ one import

  lemma {:induction false} FreshMeansNewPlan(imports: seq<ImportRecord>, doc: Document, key: string, i: nat)
    requires i <= |imports| && Decide(imports, doc, key, i) == Fresh
    ensures forall j :: i <= j < |imports| ==> imports[j].plan != doc.plan
    decreases |imports| - i
  {
    if i < |imports| {
      FreshMeansNewPlan(imports, doc, key, i + 1);
    }
  }

  lemma {:induction false} ReplayIsSamePlan(imports: seq<ImportRecord>, doc: Document, key: string, i: nat)
    requires i <= |imports| && Decide(imports, doc, key, i).Replay?
    ensures var r := Decide(imports, doc, key, i).record;
            imports[r].plan == doc.plan && imports[r].digest == doc.digest
    decreases |imports| - i
  {
    if i < |imports| && Decide(imports, doc, key, i) == Decide(imports, doc, key, i + 1) {
      ReplayIsSamePlan(imports, doc, key, i + 1);
    }
  }

  lemma BuiltReceiptHolds(doc: Document, newest: nat)
    requires UniqueKeys(doc.tasks) && KnownDeps(doc.tasks)
    ensures ReceiptDistinct(BuiltReceipt(doc, newest))
    ensures forall k :: 0 <= k < |doc.tasks| ==>
              BuiltReceipt(doc, newest)[k].key == doc.tasks[k].key &&
              MappingHolds(BuiltTasks(doc, newest), BuiltReceipt(doc, newest)[k], doc.plan, doc.digest)
  {
  }

  lemma BuiltTaskIsReceipted(doc: Document, newest: nat, id: TaskId)
    requires KnownDeps(doc.tasks) && id in BuiltTasks(doc, newest)
    ensures BuiltTasks(doc, newest)[id].status == Pending && BuiltTasks(doc, newest)[id].source.Some?
    ensures var source := BuiltTasks(doc, newest)[id].source.value;
            source.plan == doc.plan && source.digest == doc.digest &&
            Mapping(source.key, id) in BuiltReceipt(doc, newest)
  {
    var k := id.n - newest - 1;
    assert BuiltReceipt(doc, newest)[k] == Mapping(doc.tasks[k].key, id);
  }

  predicate OldTasksKept(q: Queue, q': Queue) {
    forall id :: id in q.tasks ==> id in q'.tasks && q'.tasks[id] == q.tasks[id]
  }

  predicate ReceiptIsFresh(q: Queue, q': Queue, doc: Document, receipt: seq<Mapping>) {
    && |receipt| == |doc.tasks| && ReceiptDistinct(receipt)
    && forall k :: 0 <= k < |receipt| ==>
         receipt[k].key == doc.tasks[k].key && receipt[k].id !in q.tasks &&
         MappingHolds(q'.tasks, receipt[k], doc.plan, doc.digest)
  }

  predicate NewTasksReceipted(q: Queue, q': Queue, receipt: seq<Mapping>) {
    forall id :: id in q'.tasks && id !in q.tasks ==>
      && q'.tasks[id].status == Pending && q'.tasks[id].source.Some?
      && Mapping(q'.tasks[id].source.value.key, id) in receipt
  }

  // The tasks that the receipt names for the dependencies of plan task k.
  function PlannedDeps(doc: Document, receipt: seq<Mapping>, k: nat): set<TaskId>
    requires |receipt| == |doc.tasks| && k < |receipt|
  {
    set j | 0 <= j < |receipt| && doc.tasks[j].key in doc.tasks[k].deps :: receipt[j].id
  }

  // Plan task k as a queue task: it waits for its dependencies and has no history.
  predicate AsPlanned(t: Task, doc: Document, receipt: seq<Mapping>, k: nat)
    requires |receipt| == |doc.tasks| && k < |receipt|
  {
    && t.status == Pending && t.priority == 2 && t.deps == PlannedDeps(doc, receipt, k)
    && t.owner == "" && t.token == "" && t.revision == 1 && t.failures == 0 && t.lastFailure == ""
    && !t.gate && t.completion == NotCompleted
    && t.source == Some(Source(doc.plan, doc.digest, doc.tasks[k].key))
  }

  predicate TasksAsPlanned(tasks: map<TaskId, Task>, doc: Document, receipt: seq<Mapping>)
    requires |receipt| == |doc.tasks|
  {
    forall k :: 0 <= k < |receipt| ==>
      receipt[k].id in tasks && AsPlanned(tasks[receipt[k].id], doc, receipt, k)
  }

  lemma {:induction false} KeyIndexIs(tasks: seq<PlanTask>, j: nat)
    requires UniqueKeys(tasks) && j < |tasks|
    ensures HasKey(tasks, tasks[j].key) && KeyIndex(tasks, tasks[j].key) == j
  {
    var i := KeyIndex(tasks, tasks[j].key);
    assert i == j;
  }

  lemma BuiltDepsArePlanned(doc: Document, newest: nat, receipt: seq<Mapping>, k: nat)
    requires UniqueKeys(doc.tasks) && KnownDeps(doc.tasks) && k < |doc.tasks| == |receipt|
    requires forall j :: 0 <= j < |receipt| ==> receipt[j].id == H(newest + 1 + j)
    ensures BuiltDeps(doc, k, newest) == PlannedDeps(doc, receipt, k)
  {
    forall id | id in BuiltDeps(doc, k, newest)
      ensures id in PlannedDeps(doc, receipt, k)
    {
      var key :| key in doc.tasks[k].deps && H(newest + 1 + KeyIndex(doc.tasks, key)) == id;
      assert receipt[KeyIndex(doc.tasks, key)].id == id;
    }
    forall id | id in PlannedDeps(doc, receipt, k)
      ensures id in BuiltDeps(doc, k, newest)
    {
      var j :| 0 <= j < |receipt| && doc.tasks[j].key in doc.tasks[k].deps && receipt[j].id == id;
      KeyIndexIs(doc.tasks, j);
    }
  }

  lemma BuiltAsPlanned(doc: Document, newest: nat, k: nat)
    requires UniqueKeys(doc.tasks) && KnownDeps(doc.tasks) && k < |doc.tasks|
    ensures var receipt := BuiltReceipt(doc, newest);
            && receipt[k].id in BuiltTasks(doc, newest)
            && AsPlanned(BuiltTasks(doc, newest)[receipt[k].id], doc, receipt, k)
  {
    BuiltDepsArePlanned(doc, newest, BuiltReceipt(doc, newest), k);
  }

  lemma FreshImportIsReceipted(q: Queue, doc: Document, key: string)
    requires ImportPlan(q, doc, key).Ok? && Decide(q.imports, doc, key, 0) == Fresh
    ensures var (q', receipt) := ImportPlan(q, doc, key).value;
            OldTasksKept(q, q') && ReceiptIsFresh(q, q', doc, receipt) && NewTasksReceipted(q, q', receipt)
  {
    var newest := MaxId(q.tasks.Keys);
    var receipt := BuiltReceipt(doc, newest);
    var q' := ImportPlan(q, doc, key).value.0;
    BuiltReceiptHolds(doc, newest);
    FreshIds(q, |doc.tasks|);
    forall k | 0 <= k < |receipt|
      ensures receipt[k].key == doc.tasks[k].key && receipt[k].id !in q.tasks
      ensures MappingHolds(q'.tasks, receipt[k], doc.plan, doc.digest)
    {
      assert MappingHolds(BuiltTasks(doc, newest), receipt[k], doc.plan, doc.digest);
    }
    forall id | id in q'.tasks && id !in q.tasks
      ensures q'.tasks[id].status == Pending && q'.tasks[id].source.Some?
      ensures Mapping(q'.tasks[id].source.value.key, id) in receipt
    {
      BuiltTaskIsReceipted(doc, newest, id);
    }
  }

  // A first import adds exactly one task per plan task, all at once, with fresh and
  // distinct ids; each is pending, depends on exactly the tasks its plan entry names and
  // has no history; nothing already in the queue changes.
  lemma FreshImportIsComplete(q: Queue, doc: Document, key: string)
    requires ImportPlan(q, doc, key).Ok? && Decide(q.imports, doc, key, 0) == Fresh
    ensures var (q', receipt) := ImportPlan(q, doc, key).value;
            && OldTasksKept(q, q') && ReceiptIsFresh(q, q', doc, receipt) && NewTasksReceipted(q, q', receipt)
            && TasksAsPlanned(q'.tasks, doc, receipt)
  {
    var (q', receipt) := ImportPlan(q, doc, key).value;
    FreshImportIsReceipted(q, doc, key);
    forall k | 0 <= k < |receipt|
      ensures receipt[k].id in q'.tasks && AsPlanned(q'.tasks[receipt[k].id], doc, receipt, k)
    {
      BuiltAsPlanned(doc, MaxId(q.tasks.Keys), k);
    }
  }

  lemma FreshImportIsValid(q: Queue, doc: Document, key: string)
    requires ValidQueue(q) && ImportPlan(q, doc, key).Ok? && Decide(q.imports, doc, key, 0) == Fresh
    ensures ValidQueue(ImportPlan(q, doc, key).value.0)
  {
    var newest := MaxId(q.tasks.Keys);
    var built := BuiltTasks(doc, newest);
    var q' := ImportPlan(q, doc, key).value.0;
    forall id | id in q'.tasks
      ensures id !in q'.tasks[id].deps && q'.tasks[id].deps <= q'.tasks.Keys
    {
      if id in built {
        BuiltTaskIsLow(doc, newest, id);
        assert built.Keys == WavesById(doc, newest).Keys;
      }
    }
  }

  // A document that passed validation is never turned away by the queue's own validation.
  lemma ValidatedImportIsWritten(q: Queue, doc: Document, key: string)
    requires ValidQueue(q) && ImportPlan(q, doc, key).Ok?
    ensures Apply(q, Import(doc, key)) == Ok(ImportPlan(q, doc, key).value.0)
  {
    if Decide(q.imports, doc, key, 0) == Fresh {
      FreshImportIsValid(q, doc, key);
    }
  }

  // What an import request must be: a named plan with tasks under distinct keys, each in a
  // positive wave and with distinct dependencies, which are tasks of strictly earlier waves.
  predicate Acceptable(doc: Document) {
    && doc.plan != "" && |doc.tasks| > 0
    && (forall i, j :: 0 <= i < j < |doc.tasks| ==> doc.tasks[i].key != doc.tasks[j].key)
    && (forall i :: 0 <= i < |doc.tasks| ==> doc.tasks[i].wave > 0 && Distinct(doc.tasks[i].deps))
    && (forall i, d :: 0 <= i < |doc.tasks| && d in doc.tasks[i].deps ==> InEarlierWave(doc, d, doc.tasks[i].wave))
  }

  predicate InEarlierWave(doc: Document, key: string, wave: nat) {
    exists j :: 0 <= j < |doc.tasks| && doc.tasks[j].key == key && doc.tasks[j].wave < wave
  }

  lemma AcceptedIff(doc: Document)
    ensures ValidDocument(doc) <==> Acceptable(doc)
  {
    if ValidDocument(doc) {
      forall i, d | 0 <= i < |doc.tasks| && d in doc.tasks[i].deps
        ensures InEarlierWave(doc, d, doc.tasks[i].wave)
      {
        assert doc.tasks[KeyIndex(doc.tasks, d)].wave < doc.tasks[i].wave;
      }
    } else if Acceptable(doc) {
      EarlierWavesAreValid(doc);
    }
  }

  lemma EarlierWavesAreValid(doc: Document)
    requires Acceptable(doc)
    ensures ValidDocument(doc)
  {
    forall i, d | 0 <= i < |doc.tasks| && d in doc.tasks[i].deps
      ensures HasKey(doc.tasks, d) && d != doc.tasks[i].key
      ensures doc.tasks[KeyIndex(doc.tasks, d)].wave < doc.tasks[i].wave
    {
      assert InEarlierWave(doc, d, doc.tasks[i].wave);
      var j :| 0 <= j < |doc.tasks| && doc.tasks[j].key == d && doc.tasks[j].wave < doc.tasks[i].wave;
      KeyIndexIs(doc.tasks, j);
    }
  }

  // The record is about this plan or this key.
  predicate Concerns(rec: ImportRecord, doc: Document, key: string) {
    rec.plan == doc.plan || key in rec.keys
  }

  // The first record that concerns the request decides: a replay if it is of this very
  // document, a conflict otherwise.
  lemma {:induction false} FirstConcernedDecides(imports: seq<ImportRecord>, doc: Document, key: string, from: nat,
                                                 r: nat)
    requires from <= r < |imports| && Concerns(imports[r], doc, key)
    requires forall j :: from <= j < r ==> !Concerns(imports[j], doc, key)
    ensures Decide(imports, doc, key, from)
            == if imports[r].plan == doc.plan && imports[r].digest == doc.digest then Replay(r) else Conflict
    decreases r - from
  {
    if from < r {
      FirstConcernedDecides(imports, doc, key, from + 1, r);
    }
  }

  // An import is a first one if and only if no record concerns it.
  lemma {:induction false} FreshIffUnconcerned(imports: seq<ImportRecord>, doc: Document, key: string, from: nat)
    requires from <= |imports|
    ensures Decide(imports, doc, key, from) == Fresh
            <==> forall j :: from <= j < |imports| ==> !Concerns(imports[j], doc, key)
    decreases |imports| - from
  {
    if from < |imports| {
      FreshIffUnconcerned(imports, doc, key, from + 1);
    }
  }

  // ------------------------------------------------------------ every run

  lemma {:induction false} RunKeepsDeps(q: Queue, ops: seq<Op>, id: TaskId)
    requires id in q.tasks
    ensures id in Run(q, ops).tasks && Run(q, ops).tasks[id].deps == q.tasks[id].deps
    decreases |ops|
  {
    if ops != [] {
      StepKeepsPlace(q, ops[0], id);
      RunKeepsDeps(Step(q, ops[0]), ops[1..], id);
    }
  }

  // The plan's order is kept in every run: a task of the plan is in progress only when every
  // task that its plan entry depends on is done or skipped.
  lemma PlanOrderIsKept(q: Queue, doc: Document, key: string, ops: seq<Op>, k: nat, j: nat)
    requires Inv(q) && ImportPlan(q, doc, key).Ok? && Decide(q.imports, doc, key, 0) == Fresh
    requires k < |doc.tasks| && j < |doc.tasks| && doc.tasks[j].key in doc.tasks[k].deps
    ensures var receipt := ImportPlan(q, doc, key).value.1;
            var later := Run(Step(q, Import(doc, key)), ops);
            && |receipt| == |doc.tasks| && receipt[k].id in later.tasks && receipt[j].id in later.tasks
            && (later.tasks[receipt[k].id].status == InProgress ==>
                  later.tasks[receipt[j].id].status in {Done, Skipped})
  {
    var receipt := ImportPlan(q, doc, key).value.1;
    ImportedDepends(q, doc, key, k, j);
    StepKeepsInv(q, Import(doc, key));
    StartedAfterDeps(Step(q, Import(doc, key)), ops, receipt[k].id, receipt[j].id);
  }

  lemma ImportedDepends(q: Queue, doc: Document, key: string, k: nat, j: nat)
    requires ValidQueue(q) && ImportPlan(q, doc, key).Ok? && Decide(q.imports, doc, key, 0) == Fresh
    requires k < |doc.tasks| && j < |doc.tasks| && doc.tasks[j].key in doc.tasks[k].deps
    ensures var receipt := ImportPlan(q, doc, key).value.1;
            var first := Step(q, Import(doc, key));
            && |receipt| == |doc.tasks| && receipt[k].id in first.tasks
            && receipt[j].id in first.tasks[receipt[k].id].deps
  {
    var receipt := ImportPlan(q, doc, key).value.1;
    FreshImportIsComplete(q, doc, key);
    ValidatedImportIsWritten(q, doc, key);
    assert AsPlanned(Step(q, Import(doc, key)).tasks[receipt[k].id], doc, receipt, k);
    PlannedDepIn(doc, receipt, k, j);
  }

  // In every run a task in progress has its dependencies closed.
  lemma StartedAfterDeps(q: Queue, ops: seq<Op>, id: TaskId, d: TaskId)
    requires Inv(q) && id in q.tasks && d in q.tasks[id].deps
    ensures var later := Run(q, ops);
            && id in later.tasks && d in later.tasks
            && (later.tasks[id].status == InProgress ==> later.tasks[d].status in {Done, Skipped})
  {
    var later := Run(q, ops);
    RunKeepsDeps(q, ops, id);
    RunKeepsInv(q, ops);
    assert d in later.tasks[id].deps && later.tasks[id].deps <= later.tasks.Keys;
    if later.tasks[id].status == InProgress {
      assert DepsReady(later, later.tasks[id]);
      assert d in ClosedIds(later);
    }
  }

  lemma PlannedDepIn(doc: Document, receipt: seq<Mapping>, k: nat, j: nat)
    requires |receipt| == |doc.tasks| && k < |receipt| && j < |receipt| && doc.tasks[j].key in doc.tasks[k].deps
    ensures receipt[j].id in PlannedDeps(doc, receipt, k)
  {
  }

  lemma AccountedAfter(q: Queue, q': Queue, id: TaskId)
    requires id in q.tasks && Accounted(q, id) && RecordsKept(q.imports, q'.imports)
    requires id in q'.tasks && q'.tasks[id].source == q.tasks[id].source
    ensures Accounted(q', id)
  {
    if q.tasks[id].source.Some? {
      var i :| 0 <= i < |q.imports| && Accounts(q.imports[i], q.tasks[id].source.value, id);
      assert q'.imports[i].(keys := []) == q.imports[i].(keys := []);
      assert Accounts(q'.imports[i], q.tasks[id].source.value, id);
    }
  }

  lemma RecordsSurvive(q: Queue, q': Queue, i: nat)
    requires i < |q.imports| && RecordHolds(q.tasks, q.imports[i]) && RecordsKept(q.imports, q'.imports)
    requires forall id :: id in q.tasks ==> id in q'.tasks && q'.tasks[id].source == q.tasks[id].source
    ensures RecordHolds(q'.tasks, q'.imports[i])
  {
    var rec, rec' := q.imports[i], q'.imports[i];
    assert rec'.(keys := []) == rec.(keys := []);
    forall k | 0 <= k < |rec'.receipt|
      ensures MappingHolds(q'.tasks, rec'.receipt[k], rec'.plan, rec'.digest)
    {
      assert MappingHolds(q.tasks, rec.receipt[k], rec.plan, rec.digest);
    }
  }

  lemma StepKeepsRecords(q: Queue, op: Op)
    ensures RecordsKept(q.imports, Step(q, op).imports)
    ensures |Step(q, op).imports| == |q.imports| || Step(q, op).imports[..|q.imports|] == q.imports
  {
  }

  lemma {:induction false} StepKeepsImportsInv(q: Queue, op: Op)
    requires ImportsInv(q)
    ensures ImportsInv(Step(q, op))
  {
    var q' := Step(q, op);
    StepKeepsRecords(q, op);
    forall id | id in q.tasks
      ensures id in q'.tasks && q'.tasks[id].source == q.tasks[id].source
    {
      StepKeepsTasks(q, op, id);
    }
    forall i | 0 <= i < |q.imports|
      ensures RecordHolds(q'.tasks, q'.imports[i])
    {
      RecordsSurvive(q, q', i);
    }
    forall id | id in q.tasks
      ensures Accounted(q', id)
    {
      AccountedAfter(q, q', id);
    }
    if op.Import? && Apply(q, op).Ok? && Decide(q.imports, op.doc, op.key, 0) == Fresh {
      NewRecordHolds(q, op.doc, op.key);
    } else {
      NothingImported(q, op);
    }
  }

  // Without a first import no plan is recorded and no task comes from a plan.
  lemma NothingImported(q: Queue, op: Op)
    requires !(op.Import? && Apply(q, op).Ok? && Decide(q.imports, op.doc, op.key, 0) == Fresh)
    ensures |Step(q, op).imports| == |q.imports|
    ensures forall id :: id in Step(q, op).tasks && id !in q.tasks ==> Step(q, op).tasks[id].source == None
  {
  }

  lemma NewRecordHolds(q: Queue, doc: Document, key: string)
    requires ImportPlan(q, doc, key).Ok? && Decide(q.imports, doc, key, 0) == Fresh && PlansDistinct(q.imports)
    ensures var q' := ImportPlan(q, doc, key).value.0;
            && |q'.imports| == |q.imports| + 1
            && PlansDistinct(q'.imports)
            && RecordHolds(q'.tasks, q'.imports[|q.imports|])
            && forall id :: id in q'.tasks && id !in q.tasks ==> Accounted(q', id)
  {
    FreshImportIsReceipted(q, doc, key);
    FreshMeansNewPlan(q.imports, doc, key, 0);
    var q' := ImportPlan(q, doc, key).value.0;
    forall id | id in q'.tasks && id !in q.tasks
      ensures Accounted(q', id)
    {
      assert Accounts(q'.imports[|q.imports|], q'.tasks[id].source.value, id);
    }
  }

  // Receipts and imported tasks describe each other after every run of operations.
  lemma {:induction false} RunKeepsImportsInv(q: Queue, ops: seq<Op>)
    requires ImportsInv(q)
    ensures ImportsInv(Run(q, ops))
    decreases |ops|
  {
    if ops != [] {
      StepKeepsImportsInv(q, ops[0]);
      RunKeepsImportsInv(Step(q, ops[0]), ops[1..]);
    }
  }

  lemma RecordsKeptTransitive(a: seq<ImportRecord>, b: seq<ImportRecord>, c: seq<ImportRecord>)
    requires RecordsKept(a, b) && RecordsKept(b, c)
    ensures RecordsKept(a, c)
  {
    forall i | 0 <= i < |a|
      ensures c[i].(keys := []) == a[i].(keys := []) && a[i].keys <= c[i].keys
    {
      assert b[i].(keys := []) == a[i].(keys := []);
      assert c[i].(keys := []) == b[i].(keys := []);
    }
  }

  lemma {:induction false} RunKeepsRecords(q: Queue, ops: seq<Op>)
    ensures RecordsKept(q.imports, Run(q, ops).imports)
    decreases |ops|
  {
    if ops != [] {
      StepKeepsRecords(q, ops[0]);
      RunKeepsRecords(Step(q, ops[0]), ops[1..]);
      RecordsKeptTransitive(q.imports, Step(q, ops[0]).imports, Run(q, ops).imports);
    } else {
      assert forall i :: 0 <= i < |q.imports| ==> q.imports[i].keys <= q.imports[i].keys;
    }
  }

  // The tasks that came from one plan.
  function PlanIds(q: Queue, plan: string): set<TaskId> {
    set id | id in q.tasks && q.tasks[id].source.Some? && q.tasks[id].source.value.plan == plan
  }

  function ReceiptIds(receipt: seq<Mapping>): set<TaskId> {
    set k | 0 <= k < |receipt| :: receipt[k].id
  }

  lemma {:induction false} PlanIdsAreReceiptIds(q: Queue, i: nat)
    requires ImportsInv(q) && i < |q.imports|
    ensures PlanIds(q, q.imports[i].plan) == ReceiptIds(q.imports[i].receipt)
  {
    var rec := q.imports[i];
    forall id | id in PlanIds(q, rec.plan)
      ensures id in ReceiptIds(rec.receipt)
    {
      var source := q.tasks[id].source.value;
      assert Accounted(q, id);
      var j :| 0 <= j < |q.imports| && Accounts(q.imports[j], source, id);
      assert j == i;
      var k :| 0 <= k < |rec.receipt| && rec.receipt[k] == Mapping(source.key, id);
    }
    forall id | id in ReceiptIds(rec.receipt)
      ensures id in PlanIds(q, rec.plan)
    {
      var k :| 0 <= k < |rec.receipt| && rec.receipt[k].id == id;
      assert MappingHolds(q.tasks, rec.receipt[k], rec.plan, rec.digest);
    }
  }

  // Exactly once: after a plan has been recorded, no run of operations, further imports of
  // the same plan included, gives the queue another task of that plan.
  lemma {:induction false} PlanIsImportedOnce(q: Queue, ops: seq<Op>, i: nat)
    requires ImportsInv(q) && i < |q.imports|
    ensures PlanIds(Run(q, ops), q.imports[i].plan) == PlanIds(q, q.imports[i].plan) == ReceiptIds(q.imports[i].receipt)
    ensures forall j :: 0 <= j < |Run(q, ops).imports| && Run(q, ops).imports[j].plan == q.imports[i].plan ==> j == i
  {
    RunKeepsImportsInv(q, ops);
    RunKeepsRecords(q, ops);
    var q' := Run(q, ops);
    assert q'.imports[i].(keys := []) == q.imports[i].(keys := []);
    PlanIdsAreReceiptIds(q, i);
    PlanIdsAreReceiptIds(q', i);
  }

  // --------------------------------------------------------------- replays

  // `doc` is the document that record was made from.
  predicate RecordOf(rec: ImportRecord, doc: Document) {
    && rec.plan == doc.plan && rec.digest == doc.digest
    && |rec.receipt| == |doc.tasks|
    && forall k :: 0 <= k < |doc.tasks| ==> rec.receipt[k].key == doc.tasks[k].key
  }

  predicate KeyUsedBefore(imports: seq<ImportRecord>, i: nat, key: string)
    requires i <= |imports|
  {
    exists j :: 0 <= j < i && key in imports[j].keys
  }

  lemma {:induction false} DecideReachesRecord(imports: seq<ImportRecord>, doc: Document, key: string, from: nat,
                                               i: nat)
    requires from <= i < |imports| && PlansDistinct(imports)
    requires imports[i].plan == doc.plan && imports[i].digest == doc.digest
    ensures Decide(imports, doc, key, from) ==
              if exists j :: from <= j < i && key in imports[j].keys then Conflict else Replay(i)
    decreases i - from
  {
    if from < i {
      assert imports[from].plan != imports[i].plan;
      DecideReachesRecord(imports, doc, key, from + 1, i);
    }
  }

  // Replaying a recorded document returns its original receipt and adds no task exactly
  // when no earlier record holds the idempotency key; otherwise it is a conflict.
  lemma {:induction false} ReplayIff(q: Queue, doc: Document, key: string, i: nat)
    requires ImportsInv(q) && i < |q.imports| && RecordOf(q.imports[i], doc)
    requires ValidDocument(doc) && key != ""
    ensures (ImportPlan(q, doc, key).Ok?
             && ImportPlan(q, doc, key).value.1 == q.imports[i].receipt
             && ImportPlan(q, doc, key).value.0.tasks == q.tasks)
            <==> !KeyUsedBefore(q.imports, i, key)
    ensures KeyUsedBefore(q.imports, i, key) ==> ImportPlan(q, doc, key) == Err(ImportConflict)
  {
    DecideReachesRecord(q.imports, doc, key, 0, i);
    if !KeyUsedBefore(q.imports, i, key) {
      var rec := q.imports[i];
      assert RecordHolds(q.tasks, rec);
      forall k | 0 <= k < |rec.receipt|
        ensures MappingHolds(q.tasks, rec.receipt[k], doc.plan, doc.digest)
      {
      }
      assert ReceiptMatches(rec.receipt, doc, q.tasks);
    }
  }

  // Each idempotency key belongs to one plan.
  predicate KeysOwned(q: Queue, owner: string -> string) {
    forall i, k :: 0 <= i < |q.imports| && k in q.imports[i].keys ==> owner(k) == q.imports[i].plan
  }

  predicate Disciplined(ops: seq<Op>, owner: string -> string) {
    forall i :: 0 <= i < |ops| && ops[i].Import? ==> owner(ops[i].key) == ops[i].doc.plan
  }

  lemma {:induction false} StepKeepsOwnership(q: Queue, op: Op, owner: string -> string)
    requires KeysOwned(q, owner) && (op.Import? ==> owner(op.key) == op.doc.plan)
    ensures KeysOwned(Step(q, op), owner)
  {
    if op.Import? && Apply(q, op).Ok? && Decide(q.imports, op.doc, op.key, 0).Replay? {
      ReplayIsSamePlan(q.imports, op.doc, op.key, 0);
    }
  }

  lemma {:induction false} RunKeepsOwnership(q: Queue, ops: seq<Op>, owner: string -> string)
    requires KeysOwned(q, owner) && Disciplined(ops, owner)
    ensures KeysOwned(Run(q, ops), owner)
    decreases |ops|
  {
    if ops != [] {
      StepKeepsOwnership(q, ops[0], owner);
      assert Disciplined(ops[1..], owner) by {
        assert forall i :: 0 <= i < |ops[1..]| ==> ops[1..][i] == ops[i + 1];
      }
      RunKeepsOwnership(Step(q, ops[0]), ops[1..], owner);
    }
  }

  // When no key is presented with two different plans, a recorded document can be replayed
  // at any later time, under any of its keys, and gives back the receipt it got first.
  lemma {:induction false} ReceiptsAreStable(q: Queue, i: nat, doc: Document, key: string, ops: seq<Op>,
                                             owner: string -> string)
    requires ImportsInv(q) && i < |q.imports| && RecordOf(q.imports[i], doc)
    requires ValidDocument(doc) && key != "" && owner(key) == doc.plan
    requires KeysOwned(q, owner) && Disciplined(ops, owner)
    ensures ImportPlan(Run(q, ops), doc, key).Ok?
    ensures ImportPlan(Run(q, ops), doc, key).value.1 == q.imports[i].receipt
    ensures ImportPlan(Run(q, ops), doc, key).value.0.tasks == Run(q, ops).tasks
  {
    var q' := Run(q, ops);
    RunKeepsImportsInv(q, ops);
    RunKeepsRecords(q, ops);
    RunKeepsOwnership(q, ops, owner);
    assert q'.imports[i].(keys := []) == q.imports[i].(keys := []);
    assert !KeyUsedBefore(q'.imports, i, key);
    ReplayIff(q', doc, key, i);
  }

  // A first import leaves one record more, of its document, under its key, with its receipt.
  lemma FreshImportIsRecorded(q: Queue, doc: Document, key: string)
    requires ImportPlan(q, doc, key).Ok? && Decide(q.imports, doc, key, 0) == Fresh
    ensures var (q', receipt) := ImportPlan(q, doc, key).value;
            && |q'.imports| == |q.imports| + 1 && q'.imports[..|q.imports|] == q.imports
            && RecordOf(q'.imports[|q.imports|], doc)
            && q'.imports[|q.imports|].keys == [key] && q'.imports[|q.imports|].receipt == receipt
  {
    BuiltReceiptHolds(doc, MaxId(q.tasks.Keys));
  }

  // The receipt of a first import is what every later replay of its document returns, as long
  // as no key is presented with two plans.
  lemma FirstReceiptIsStable(q: Queue, doc: Document, key: string, ops: seq<Op>, owner: string -> string)
    requires ValidQueue(q) && ImportsInv(q) && KeysOwned(q, owner)
    requires ImportPlan(q, doc, key).Ok? && Decide(q.imports, doc, key, 0) == Fresh
    requires owner(key) == doc.plan && Disciplined(ops, owner)
    ensures var later := Run(Step(q, Import(doc, key)), ops);
            && ImportPlan(later, doc, key).Ok?
            && ImportPlan(later, doc, key).value.1 == ImportPlan(q, doc, key).value.1
            && ImportPlan(later, doc, key).value.0.tasks == later.tasks
  {
    FreshImportIsRecorded(q, doc, key);
    ValidatedImportIsWritten(q, doc, key);
    StepKeepsImportsInv(q, Import(doc, key));
    StepKeepsOwnership(q, Import(doc, key), owner);
    ReceiptsAreStable(Step(q, Import(doc, key)), |q.imports|, doc, key, ops, owner);
  }

  lemma EmptyQueueImportsInv(limit: nat)
    ensures ImportsInv(Queue(limit, map[], []))
  {
  }

  // Without that discipline it fails: replaying an earlier plan under the key of a later
  // one binds the key to both, and from then on the later plan's own key is a conflict.
  lemma {:induction false} SharedKeyBreaksReplay(q: Queue, i: nat, a: Document, j: nat, b: Document, key: string)
    requires ValidQueue(q) && ImportsInv(q) && ValidDocument(a) && ValidDocument(b) && key != ""
    requires i < j < |q.imports| && RecordOf(q.imports[i], a) && RecordOf(q.imports[j], b)
    requires !KeyUsedBefore(q.imports, j, key)
    ensures ImportPlan(q, b, key).Ok? && ImportPlan(q, b, key).value.1 == q.imports[j].receipt
    ensures ImportPlan(q, a, key).Ok?
    ensures ImportPlan(Step(q, Import(a, key)), b, key) == Err(ImportConflict)
  {
    ReplayIff(q, b, key, j);
    ReplayIff(q, a, key, i);
    DecideReachesRecord(q.imports, a, key, 0, i);
    ValidatedImportIsWritten(q, a, key);
    var later := Step(q, Import(a, key));
    StepKeepsImportsInv(q, Import(a, key));
    assert later.imports[j] == q.imports[j];
    assert key in later.imports[i].keys;
    ReplayIff(later, b, key, j);
  }

  function PlanA(): Document {
    Document("A", "d", [PlanTask("K", [], 1)])
  }

  function PlanB(): Document {
    Document("B", "d", [PlanTask("K", [], 1)])
  }

  function BothRecorded(): Queue {
    Run(Queue(1, map[], []), [Import(PlanA(), "ka"), Import(PlanB(), "kb")])
  }

  lemma FirstRecorded() returns (q: Queue)
    ensures q == Step(Queue(1, map[], []), Import(PlanA(), "ka"))
    ensures ValidQueue(q) && ImportsInv(q)
    ensures |q.imports| == 1 && RecordOf(q.imports[0], PlanA()) && q.imports[0].keys == ["ka"]
  {
    var q0 := Queue(1, map[], []);
    EmptyQueueImportsInv(1);
    ValidatedImportIsWritten(q0, PlanA(), "ka");
    StepKeepsImportsInv(q0, Import(PlanA(), "ka"));
    q := Step(q0, Import(PlanA(), "ka"));
  }

  lemma SecondRecorded()
    ensures var q := BothRecorded();
            && ValidQueue(q) && ImportsInv(q) && |q.imports| == 2
            && RecordOf(q.imports[0], PlanA()) && RecordOf(q.imports[1], PlanB())
            && q.imports[0].keys == ["ka"]
  {
    var q1 := FirstRecorded();
    assert Decide(q1.imports, PlanB(), "kb", 0) == Decide(q1.imports, PlanB(), "kb", 1);
    ValidatedImportIsWritten(q1, PlanB(), "kb");
    StepKeepsImportsInv(q1, Import(PlanB(), "kb"));
    var ops := [Import(PlanA(), "ka"), Import(PlanB(), "kb")];
    assert ops[1..][1..] == [];
    assert BothRecorded() == Step(q1, Import(PlanB(), "kb"));
  }

  // Two imports from the empty queue are enough to show it.
  lemma KeyBoundToTwoPlans()
    ensures ImportPlan(BothRecorded(), PlanB(), "kb").Ok?
    ensures ImportPlan(Step(BothRecorded(), Import(PlanA(), "kb")), PlanB(), "kb") == Err(ImportConflict)
  {
    SecondRecorded();
    SharedKeyBreaksReplay(BothRecorded(), 0, PlanA(), 1, PlanB(), "kb");
  }
}
