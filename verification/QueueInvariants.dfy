/** What every queue operation keeps, over every run of operations. */
module QueueInvariants {
  import opened QueueTypes
  import opened QueueImport
  import opened QueueModel
  import opened DepGraph

  function Deps(q: Queue): map<TaskId, set<TaskId>> {
    map id | id in q.tasks :: q.tasks[id].deps
  }

  // A lease token is held exactly while the task is in progress.
  predicate LeasesMatchStatus(q: Queue) {
    forall id :: id in q.tasks ==> (q.tasks[id].token != "" <==> q.tasks[id].status == InProgress)
  }

  predicate StartedAreReady(q: Queue) {
    forall id :: id in q.tasks && q.tasks[id].status == InProgress ==> DepsReady(q, q.tasks[id])
  }

  ghost predicate Inv(q: Queue) {
    && ValidQueue(q)
    && !HasCycle(Deps(q))
    && LeasesMatchStatus(q)
    && |InProgressIds(q)| <= q.limit
    && StartedAreReady(q)
  }

  // The ways in which an operation may rewrite one existing task.
  predicate TaskStep(q: Queue, id: TaskId, t: Task) {
    && id in q.tasks
    && t.deps == q.tasks[id].deps
    && t.source == q.tasks[id].source
    && t.revision == q.tasks[id].revision + 1
    && (t.token != "" <==> t.status == InProgress)
    && (Terminal(q.tasks[id].status) ==> t.status == q.tasks[id].status)
    && (t.status == InProgress ==> |InProgressIds(q)| < q.limit && DepsReady(q, q.tasks[id]))
  }

  lemma TaskStepKeepsInv(q: Queue, id: TaskId, t: Task)
    requires Inv(q) && TaskStep(q, id, t)
    ensures Inv(Put(q, id, t))
  {
    var q' := Put(q, id, t);
    assert Deps(q') == Deps(q);
    if t.status == InProgress {
      assert InProgressIds(q') <= InProgressIds(q) + {id};
      SubsetSize(InProgressIds(q'), InProgressIds(q) + {id});
    } else {
      SubsetSize(InProgressIds(q'), InProgressIds(q));
    }
  }

  lemma {:induction false} SubsetSize<T>(a: set<T>, b: set<T>)
    requires a <= b
    ensures |a| <= |b|
  {
    assert b == a + (b - a);
  }

  lemma ClaimOp(q: Queue, op: Op)
    requires Apply(q, op).Ok? && op.Claim? && LeasesMatchStatus(q)
    ensures Target(q, op).Some? && Target(q, op).value in q.tasks
    ensures var id := Target(q, op).value;
            id in Apply(q, op).value.tasks &&
            Apply(q, op).value == Put(q, id, Apply(q, op).value.tasks[id]) &&
            TaskStep(q, id, Apply(q, op).value.tasks[id])
  {
  }

  lemma ClosingOp(q: Queue, op: Op)
    requires Apply(q, op).Ok? && (op.Complete? || op.Skip? || op.Block?) && LeasesMatchStatus(q)
    ensures Target(q, op).Some? && Target(q, op).value in q.tasks
    ensures var id := Target(q, op).value;
            id in Apply(q, op).value.tasks &&
            Apply(q, op).value == Put(q, id, Apply(q, op).value.tasks[id]) &&
            TaskStep(q, id, Apply(q, op).value.tasks[id])
  {
  }

  lemma ReopeningOp(q: Queue, op: Op)
    requires Apply(q, op).Ok? && (op.Release? || op.Resume? || op.Approve?) && LeasesMatchStatus(q)
    ensures Target(q, op).Some? && Target(q, op).value in q.tasks
    ensures var id := Target(q, op).value;
            id in Apply(q, op).value.tasks &&
            Apply(q, op).value == Put(q, id, Apply(q, op).value.tasks[id]) &&
            TaskStep(q, id, Apply(q, op).value.tasks[id])
  {
  }

  // A successful operation on an existing task is one TaskStep on its target.
  lemma ExistingTaskOp(q: Queue, op: Op)
    requires Apply(q, op).Ok? && !op.Add? && !op.Propose? && !op.Import?
    requires LeasesMatchStatus(q)
    ensures Target(q, op).Some? && Target(q, op).value in q.tasks
    ensures var id := Target(q, op).value;
            id in Apply(q, op).value.tasks &&
            Apply(q, op).value == Put(q, id, Apply(q, op).value.tasks[id]) &&
            TaskStep(q, id, Apply(q, op).value.tasks[id])
  {
    if op.Claim? {
      ClaimOp(q, op);
    } else if op.Complete? || op.Skip? || op.Block? {
      ClosingOp(q, op);
    } else {
      ReopeningOp(q, op);
    }
  }

  function DepsOf(tasks: map<TaskId, Task>): map<TaskId, set<TaskId>> {
    map id | id in tasks :: tasks[id].deps
  }

  // Tasks that a queue gains: not started, and depending only downwards.
  predicate NewTasks(q: Queue, added: map<TaskId, Task>, local: map<TaskId, int>) {
    && added.Keys !! q.tasks.Keys
    && (forall id :: id in added ==> added[id].status != InProgress && added[id].token == "")
    && Attaches(Deps(q), DepsOf(added), local)
  }

  lemma NewTasksAcyclic(q: Queue, added: map<TaskId, Task>, local: map<TaskId, int>)
    requires ValidQueue(q) && !HasCycle(Deps(q)) && NewTasks(q, added, local)
    ensures !HasCycle(DepsOf(q.tasks + added))
  {
    assert DepsOf(q.tasks + added) == Deps(q) + DepsOf(added);
    AcyclicIffRanked(Deps(q));
    AttachKeepsRank(Deps(q), DepsOf(added), local);
    RankedHasNoCycle(DepsOf(q.tasks + added));
  }

  lemma NewTasksKeepInv(q: Queue, added: map<TaskId, Task>, local: map<TaskId, int>, imports: seq<ImportRecord>)
    requires Inv(q) && NewTasks(q, added, local)
    requires ValidQueue(Queue(q.limit, q.tasks + added, imports))
    ensures Inv(Queue(q.limit, q.tasks + added, imports))
  {
    var q' := Queue(q.limit, q.tasks + added, imports);
    NewTasksAcyclic(q, added, local);
    assert Deps(q') == DepsOf(q.tasks + added);
    assert InProgressIds(q') == InProgressIds(q);
    forall id | id in q'.tasks && q'.tasks[id].status == InProgress
      ensures DepsReady(q', q'.tasks[id])
    {
      assert id !in added;
      assert DepsReady(q, q.tasks[id]);
    }
  }

  lemma AddedTaskIsNew(q: Queue, id: TaskId, t: Task)
    requires id !in q.tasks && t.status != InProgress && t.token == ""
    requires t.deps <= q.tasks.Keys
    ensures NewTasks(q, map[id := t], map[id := 0])
    ensures q.tasks + map[id := t] == q.tasks[id := t]
  {
    assert DepsOf(map[id := t]) == map[id := t.deps];
    assert t.deps - Deps(q).Keys == {};
  }

  lemma AddKeepsInv(q: Queue, status: Status, priority: Priority, deps: set<TaskId>)
    requires Inv(q) && status != InProgress && ValidQueue(AddTask(q, status, priority, deps))
    ensures Inv(AddTask(q, status, priority, deps))
  {
    AddedDepsAreOld(q, status, priority, deps);
    AddedKeepsInv(q, H(MaxId(q.tasks.Keys) + 1), NewTask(status, priority, deps));
  }

  lemma AddedKeepsInv(q: Queue, id: TaskId, t: Task)
    requires Inv(q) && id !in q.tasks && t.status != InProgress && t.token == ""
    requires t.deps <= q.tasks.Keys && ValidQueue(Put(q, id, t))
    ensures Inv(Put(q, id, t))
  {
    AddedTaskIsNew(q, id, t);
    NewTasksKeepInv(q, map[id := t], map[id := 0], q.imports);
  }

  // A new task can only point at older ones.
  lemma AddedDepsAreOld(q: Queue, status: Status, priority: Priority, deps: set<TaskId>)
    requires ValidQueue(AddTask(q, status, priority, deps))
    ensures H(MaxId(q.tasks.Keys) + 1) !in q.tasks
    ensures deps <= q.tasks.Keys
  {
    var id := H(MaxId(q.tasks.Keys) + 1);
    assert AddTask(q, status, priority, deps).tasks[id].deps == deps;
  }

  lemma FreshIds(q: Queue, n: nat)
    ensures BatchIds(MaxId(q.tasks.Keys), n) !! q.tasks.Keys
  {
  }

  function WavesById(doc: Document, newest: nat): map<TaskId, int> {
    map id | id in BatchIds(newest, |doc.tasks|) :: doc.tasks[id.n - newest - 1].wave
  }

  lemma {:induction false} BuiltDepIsEarlier(doc: Document, newest: nat, i: nat, d: TaskId)
    requires UniqueKeys(doc.tasks) && KnownDeps(doc.tasks) && WavesPrecede(doc.tasks)
    requires i < |doc.tasks| && d in BuiltDeps(doc, i, newest)
    ensures newest < d.n <= newest + |doc.tasks|
    ensures doc.tasks[d.n - newest - 1].wave < doc.tasks[i].wave
  {
    var key :| key in doc.tasks[i].deps && H(newest + 1 + KeyIndex(doc.tasks, key)) == d;
    assert doc.tasks[KeyIndex(doc.tasks, key)].wave < doc.tasks[i].wave;
  }

  lemma {:induction false} BuiltTaskIsLow(doc: Document, newest: nat, id: TaskId)
    requires UniqueKeys(doc.tasks) && KnownDeps(doc.tasks) && WavesPrecede(doc.tasks)
    requires id in BuiltTasks(doc, newest)
    ensures id in WavesById(doc, newest) && newest < id.n
    ensures Below(WavesById(doc, newest), BuiltTasks(doc, newest)[id].deps, WavesById(doc, newest)[id])
  {
    var i := id.n - newest - 1;
    assert BuiltTasks(doc, newest)[id].deps == BuiltDeps(doc, i, newest);
    BuiltDepsAreLow(doc, newest, i);
  }

  lemma BuiltDepsAreLow(doc: Document, newest: nat, i: nat)
    requires UniqueKeys(doc.tasks) && KnownDeps(doc.tasks) && WavesPrecede(doc.tasks) && i < |doc.tasks|
    ensures Below(WavesById(doc, newest), BuiltDeps(doc, i, newest), doc.tasks[i].wave)
  {
    forall d | d in BuiltDeps(doc, i, newest)
      ensures d in WavesById(doc, newest) && WavesById(doc, newest)[d] < doc.tasks[i].wave
    {
      BuiltDepIsEarlier(doc, newest, i, d);
    }
  }

  lemma BuiltTasksAreNew(q: Queue, doc: Document)
    requires UniqueKeys(doc.tasks) && KnownDeps(doc.tasks) && WavesPrecede(doc.tasks)
    ensures var built := BuiltTasks(doc, MaxId(q.tasks.Keys));
            && built.Keys !! q.tasks.Keys
            && (forall id :: id in built ==> built[id].status != InProgress && built[id].token == "")
  {
    forall id | id in BuiltTasks(doc, MaxId(q.tasks.Keys))
      ensures id !in q.tasks
    {
      BuiltTaskIsLow(doc, MaxId(q.tasks.Keys), id);
    }
  }

  lemma BuiltTasksAttach(q: Queue, doc: Document)
    requires UniqueKeys(doc.tasks) && KnownDeps(doc.tasks) && WavesPrecede(doc.tasks)
    ensures var newest := MaxId(q.tasks.Keys);
            Attaches(Deps(q), DepsOf(BuiltTasks(doc, newest)), WavesById(doc, newest))
  {
    var newest := MaxId(q.tasks.Keys);
    var built, local := BuiltTasks(doc, newest), WavesById(doc, newest);
    BuiltTasksAreNew(q, doc);
    BuiltKeys(doc, newest);
    forall id | id in DepsOf(built)
      ensures Below(local, DepsOf(built)[id] - Deps(q).Keys, local[id])
    {
      BuiltTaskIsLow(doc, newest, id);
    }
  }

  lemma BuiltKeys(doc: Document, newest: nat)
    requires KnownDeps(doc.tasks)
    ensures DepsOf(BuiltTasks(doc, newest)).Keys == WavesById(doc, newest).Keys
  {
  }

  // Imported tasks are fresh and depend on each other along strictly falling waves.
  lemma ImportedTasksAreNew(q: Queue, doc: Document)
    requires UniqueKeys(doc.tasks) && KnownDeps(doc.tasks) && WavesPrecede(doc.tasks)
    ensures var newest := MaxId(q.tasks.Keys);
            NewTasks(q, BuiltTasks(doc, newest), WavesById(doc, newest))
  {
    BuiltTasksAreNew(q, doc);
    BuiltTasksAttach(q, doc);
  }

  // What a first import writes.
  lemma FreshImportShape(q: Queue, doc: Document, key: string)
    requires Apply(q, Import(doc, key)).Ok? && Decide(q.imports, doc, key, 0) == Fresh
    ensures UniqueKeys(doc.tasks) && KnownDeps(doc.tasks) && WavesPrecede(doc.tasks)
    ensures var q' := Apply(q, Import(doc, key)).value;
            q' == Queue(q.limit, q.tasks + BuiltTasks(doc, MaxId(q.tasks.Keys)), q'.imports) && ValidQueue(q')
  {
  }

  lemma ImportKeepsInv(q: Queue, doc: Document, key: string)
    requires Inv(q) && Apply(q, Import(doc, key)).Ok? && Decide(q.imports, doc, key, 0) == Fresh
    ensures Inv(Apply(q, Import(doc, key)).value)
  {
    var newest := MaxId(q.tasks.Keys);
    FreshImportShape(q, doc, key);
    ImportedTasksAreNew(q, doc);
    NewTasksKeepInv(q, BuiltTasks(doc, newest), WavesById(doc, newest), Apply(q, Import(doc, key)).value.imports);
  }

  lemma StepKeepsInv(q: Queue, op: Op)
    requires Inv(q)
    ensures Inv(Step(q, op))
  {
    if Apply(q, op).Ok? {
      match op
      case Add(priority, deps) => AddKeepsInv(q, Pending, priority, deps);
      case Propose(priority, deps) => AddKeepsInv(q, Proposed, priority, deps);
      case Import(doc, key) =>
        if Decide(q.imports, doc, key, 0) == Fresh {
          ImportKeepsInv(q, doc, key);
        } else {
          assert Deps(Step(q, op)) == Deps(q);
          assert InProgressIds(Step(q, op)) == InProgressIds(q);
        }
      case _ =>
        ExistingTaskOp(q, op);
        TaskStepKeepsInv(q, Target(q, op).value, Step(q, op).tasks[Target(q, op).value]);
    }
  }

  // The queue invariant survives every run of operations, whoever issues them.
  lemma {:induction false} RunKeepsInv(q: Queue, ops: seq<Op>)
    requires Inv(q)
    ensures Inv(Run(q, ops))
    decreases |ops|
  {
    if ops != [] {
      StepKeepsInv(q, ops[0]);
      RunKeepsInv(Step(q, ops[0]), ops[1..]);
    }
  }

  lemma EmptyQueueInv(limit: nat)
    ensures Inv(Queue(limit, map[], []))
  {
    var q := Queue(limit, map[], []);
    assert forall p :: Cycle(Deps(q), p) ==> p[0] in Deps(q);
    assert InProgressIds(q) == {};
  }

  lemma ImportKeepsPlace(q: Queue, op: Op, id: TaskId)
    requires id in q.tasks && op.Import?
    ensures id in Step(q, op).tasks
    ensures Step(q, op).tasks[id].deps == q.tasks[id].deps
    ensures Step(q, op).tasks[id].source == q.tasks[id].source
  {
    FreshIds(q, |op.doc.tasks|);
  }

  lemma EditKeepsPlace(q: Queue, op: Op, id: TaskId)
    requires id in q.tasks && !op.Import?
    ensures id in Step(q, op).tasks
    ensures Step(q, op).tasks[id].deps == q.tasks[id].deps
    ensures Step(q, op).tasks[id].source == q.tasks[id].source
  {
  }

  lemma StepKeepsPlace(q: Queue, op: Op, id: TaskId)
    requires id in q.tasks
    ensures id in Step(q, op).tasks
    ensures Step(q, op).tasks[id].deps == q.tasks[id].deps
    ensures Step(q, op).tasks[id].source == q.tasks[id].source
  {
    if op.Import? {
      ImportKeepsPlace(q, op, id);
    } else {
      EditKeepsPlace(q, op, id);
    }
  }

  lemma ImportKeepsTerminal(q: Queue, op: Op, id: TaskId)
    requires id in q.tasks && Terminal(q.tasks[id].status) && op.Import?
    ensures id in Step(q, op).tasks && Step(q, op).tasks[id].status == q.tasks[id].status
  {
    FreshIds(q, |op.doc.tasks|);
  }

  lemma EditKeepsTerminal(q: Queue, op: Op, id: TaskId)
    requires id in q.tasks && Terminal(q.tasks[id].status) && !op.Import?
    ensures id in Step(q, op).tasks && Step(q, op).tasks[id].status == q.tasks[id].status
  {
  }

  lemma StepKeepsTerminal(q: Queue, op: Op, id: TaskId)
    requires id in q.tasks && Terminal(q.tasks[id].status)
    ensures id in Step(q, op).tasks && Step(q, op).tasks[id].status == q.tasks[id].status
  {
    if op.Import? {
      ImportKeepsTerminal(q, op, id);
    } else {
      EditKeepsTerminal(q, op, id);
    }
  }

  lemma ImportCountsRevisions(q: Queue, op: Op, id: TaskId)
    requires id in q.tasks && op.Import?
    ensures id in Step(q, op).tasks
    ensures Step(q, op).tasks[id] != q.tasks[id] ==> Touches(q, op, id)
    ensures Touches(q, op, id) ==> Step(q, op).tasks[id].revision == q.tasks[id].revision + 1
  {
    FreshIds(q, |op.doc.tasks|);
  }

  lemma EditCountsRevisions(q: Queue, op: Op, id: TaskId)
    requires id in q.tasks && !op.Import?
    ensures id in Step(q, op).tasks
    ensures Step(q, op).tasks[id] != q.tasks[id] ==> Touches(q, op, id)
    ensures Touches(q, op, id) ==> Step(q, op).tasks[id].revision == q.tasks[id].revision + 1
  {
  }

  lemma StepCountsRevisions(q: Queue, op: Op, id: TaskId)
    requires id in q.tasks
    ensures id in Step(q, op).tasks
    ensures Step(q, op).tasks[id] != q.tasks[id] ==> Touches(q, op, id)
    ensures Touches(q, op, id) ==> Step(q, op).tasks[id].revision == q.tasks[id].revision + 1
  {
    if op.Import? {
      ImportCountsRevisions(q, op, id);
    } else {
      EditCountsRevisions(q, op, id);
    }
  }

  // No task disappears, and what an operation leaves alone keeps its dependencies and origin.
  lemma StepKeepsTasks(q: Queue, op: Op, id: TaskId)
    requires id in q.tasks
    ensures id in Step(q, op).tasks
    ensures Step(q, op).tasks[id].deps == q.tasks[id].deps
    ensures Step(q, op).tasks[id].source == q.tasks[id].source
    ensures Terminal(q.tasks[id].status) ==> Step(q, op).tasks[id].status == q.tasks[id].status
    ensures Step(q, op).tasks[id].revision >= q.tasks[id].revision
    ensures Step(q, op).tasks[id] != q.tasks[id] ==>
              Touches(q, op, id) && Step(q, op).tasks[id].revision == q.tasks[id].revision + 1
    ensures Touches(q, op, id) ==> Step(q, op).tasks[id].revision == q.tasks[id].revision + 1
  {
    StepKeepsPlace(q, op, id);
    StepCountsRevisions(q, op, id);
    if Terminal(q.tasks[id].status) {
      StepKeepsTerminal(q, op, id);
    }
  }

  // done and skipped are absorbing, in every run.
  lemma {:induction false} TerminalIsAbsorbing(q: Queue, ops: seq<Op>, id: TaskId)
    requires id in q.tasks && Terminal(q.tasks[id].status)
    ensures id in Run(q, ops).tasks && Run(q, ops).tasks[id].status == q.tasks[id].status
    decreases |ops|
  {
    if ops != [] {
      StepKeepsTasks(q, ops[0], id);
      TerminalIsAbsorbing(Step(q, ops[0]), ops[1..], id);
    }
  }

  predicate Open(q: Queue, id: TaskId) {
    id in q.tasks && !Terminal(q.tasks[id].status)
  }

  // The open task of least rank has nothing open below it.
  lemma {:induction false} LowestOpenTask(q: Queue, rank: map<TaskId, int>, id: TaskId) returns (low: TaskId)
    requires ValidQueue(q) && Ranked(Deps(q), rank) && Open(q, id)
    ensures Open(q, low) && DepsReady(q, q.tasks[low])
    decreases rank[id]
  {
    if DepsReady(q, q.tasks[id]) {
      low := id;
    } else {
      var d :| d in q.tasks[id].deps && d !in ClosedIds(q);
      low := LowestOpenTask(q, rank, d);
    }
  }

  // Progress: in every reachable queue some open task has all its dependencies closed, so
  // a queue whose open tasks are all pending always offers a next task.
  lemma {:induction false} DependencyProgress(q0: Queue, ops: seq<Op>, id: TaskId)
    requires Inv(q0) && Open(Run(q0, ops), id)
    ensures exists low :: Open(Run(q0, ops), low) && DepsReady(Run(q0, ops), Run(q0, ops).tasks[low])
    ensures (forall x :: Open(Run(q0, ops), x) ==> Run(q0, ops).tasks[x].status == Pending)
              ==> NextTask(Run(q0, ops)).Some?
  {
    var q := Run(q0, ops);
    RunKeepsInv(q0, ops);
    AcyclicIffRanked(Deps(q));
    var rank :| Ranked(Deps(q), rank);
    var low := LowestOpenTask(q, rank, id);
    if forall x :: Open(q, x) ==> q.tasks[x].status == Pending {
      assert low in ReadyIds(q);
    }
  }
}
