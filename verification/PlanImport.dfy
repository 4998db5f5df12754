/** The loops behind a plan import: the cycle search, id allocation, translation, receipt check. */
module PlanImport {
  import opened Wrappers
  import opened QueueTypes
  import opened QueueImport
  import opened DepGraph
  import opened ImportLaws

  // A set with the elements of a list.
  function Elements<T>(s: seq<T>): set<T> {
    set x | x in s
  }

  function PlanGraph(tasks: seq<PlanTask>): map<string, set<string>> {
    map k | k in Elements(Keys(tasks)) && HasKey(tasks, k) :: Elements(tasks[KeyIndex(tasks, k)].deps)
  }

  lemma {:induction false} PlanGraphKeys(tasks: seq<PlanTask>)
    ensures forall k :: k in PlanGraph(tasks) <==> HasKey(tasks, k)
    ensures KnownDeps(tasks) ==> Closed(PlanGraph(tasks))
  {
    forall k | HasKey(tasks, k)
      ensures k in Elements(Keys(tasks))
    {
      var j :| 0 <= j < |tasks| && tasks[j].key == k;
      assert Keys(tasks)[j] == k;
    }
    forall k | k in Elements(Keys(tasks))
      ensures HasKey(tasks, k)
    {
      var j :| 0 <= j < |Keys(tasks)| && Keys(tasks)[j] == k;
      assert tasks[j].key == k;
    }
  }

  // Strictly falling waves already rule cycles out.
  lemma {:induction false} WavesRuleOutCycles(tasks: seq<PlanTask>)
    requires KnownDeps(tasks) && WavesPrecede(tasks)
    ensures !HasCycle(PlanGraph(tasks))
  {
    PlanGraphKeys(tasks);
    var g := PlanGraph(tasks);
    var rank: map<string, int> := map k | k in g :: tasks[KeyIndex(tasks, k)].wave;
    forall k | k in g
      ensures Below(rank, g[k], rank[k])
    {
      forall d | d in g[k]
        ensures d in rank && rank[d] < rank[k]
      {
        assert HasKey(tasks, d);
      }
    }
    assert Ranked(g, rank);
    RankedHasNoCycle(g);
  }

  // The visited nodes are ranked and contain their own dependencies; `path` is the chain of
  // nodes being visited, each of which depends on the next.
  predicate SearchState(g: map<string, set<string>>, visiting: set<string>, visited: set<string>,
                        rank: map<string, int>, path: seq<string>) {
    && PartialRank(g, rank) && rank.Keys == visited
    && visiting == Elements(path) && visiting !! visited
    && Walk(g, path)
  }

  // `key` is where the search goes next.
  predicate Follows(g: map<string, set<string>>, path: seq<string>, key: string) {
    key in g && (path != [] ==> path[|path| - 1] in g && key in g[path[|path| - 1]])
  }

  lemma {:induction false} PathClosesCycle(g: map<string, set<string>>, path: seq<string>, key: string)
    requires Walk(g, path) && key in Elements(path) && Follows(g, path, key)
    ensures HasCycle(g)
  {
    var i :| 0 <= i < |path| && path[i] == key;
    var loop := path[i..] + [key];
    assert Walk(g, loop);
    assert Cycle(g, loop);
  }

  lemma {:induction false} EnterNode(g: map<string, set<string>>, visiting: set<string>, visited: set<string>,
                                     rank: map<string, int>, path: seq<string>, key: string)
    requires SearchState(g, visiting, visited, rank, path) && Follows(g, path, key)
    requires key !in visiting && key !in visited
    ensures SearchState(g, visiting + {key}, visited, rank, path + [key])
  {
    assert Elements(path + [key]) == Elements(path) + {key};
  }

  lemma {:induction false} DependenciesFollow(g: map<string, set<string>>, list: seq<string>, path: seq<string>,
                                              key: string)
    requires Closed(g) && key in g && g[key] == Elements(list)
    ensures forall k :: 0 <= k < |list| ==> Follows(g, path + [key], list[k])
  {
    forall k | 0 <= k < |list|
      ensures Follows(g, path + [key], list[k])
    {
      assert list[k] in g[key];
    }
  }

  lemma {:induction false} LeaveNode(g: map<string, set<string>>, visiting: set<string>, visited: set<string>,
                                     rank: map<string, int>, path: seq<string>, key: string)
    requires SearchState(g, visiting, visited, rank, path + [key]) && key in g && key !in path
    requires g[key] <= visited
    ensures SearchState(g, visiting - {key}, visited + {key}, rank[key := |rank.Keys|], path)
  {
    RankOneMore(g, rank, key);
    WalkPrefix(g, path, key);
    assert Elements(path + [key]) == Elements(path) + {key};
    assert visiting - {key} == Elements(path);
  }

  lemma {:induction false} WalkPrefix(g: map<string, set<string>>, path: seq<string>, key: string)
    requires Walk(g, path + [key])
    ensures Walk(g, path)
  {
    var longer := path + [key];
    forall i | 0 <= i < |path|
      ensures path[i] in g
    {
      assert longer[i] == path[i];
    }
    forall i, j | 0 <= i && j == i + 1 < |path|
      ensures path[j] in g[path[i]]
    {
      assert longer[i] == path[i] && longer[j] == path[j];
    }
  }

  /** Depth-first search for a cycle. A node is `visiting` while it is on the search path
      and `visited` once everything below it has been searched. */
  class CycleSearch {
    const dependencies: map<string, seq<string>>
    ghost const graph: map<string, set<string>>
    var visiting: set<string>
    var visited: set<string>
    // Proof state: ranks of the visited nodes.
    ghost var rank: map<string, int>

    constructor (dependencies: map<string, seq<string>>, ghost graph: map<string, set<string>>)
      requires Closed(graph) && graph.Keys == dependencies.Keys
      requires forall k :: k in graph ==> graph[k] == Elements(dependencies[k])
      ensures this.dependencies == dependencies && this.graph == graph
      ensures Valid([]) && visited == {}
    {
      this.dependencies, this.graph := dependencies, graph;
      visiting, visited, rank := {}, {}, map[];
    }

    ghost predicate Valid(path: seq<string>)
      reads this
    {
      && Closed(graph) && graph.Keys == dependencies.Keys
      && (forall k :: k in graph ==> graph[k] == Elements(dependencies[k]))
      && SearchState(graph, visiting, visited, rank, path)
    }

    /** False stands for the raised cycle error. */
    method Visit(key: string, ghost path: seq<string>) returns (ok: bool)
      requires Valid(path) && Follows(graph, path, key)
      modifies this
      ensures ok ==> Valid(path) && old(visited) + {key} <= visited && visiting == old(visiting)
      ensures !ok ==> HasCycle(graph)
      decreases graph.Keys - visiting, 1
    {
      if key in visiting {
        PathClosesCycle(graph, path, key);
        return false;
      }
      if key in visited {
        return true;
      }
      ok := Expand(key, path);
    }

    // Search below a node that is seen for the first time.
    method Expand(key: string, ghost path: seq<string>) returns (ok: bool)
      requires Valid(path) && Follows(graph, path, key)
      requires key !in visiting && key !in visited
      modifies this
      ensures ok ==> Valid(path) && old(visited) <= visited && key in visited && visiting == old(visiting)
      ensures !ok ==> HasCycle(graph)
      decreases graph.Keys - visiting, 0
    {
      EnterNode(graph, visiting, visited, rank, path, key);
      DependenciesFollow(graph, dependencies[key], path, key);
      visiting := visiting + {key};
      ok := VisitEach(dependencies[key], path + [key]);
      if ok {
        LeaveNode(graph, visiting, visited, rank, path, key);
        visiting := visiting - {key};
        rank := rank[key := |rank.Keys|];
        visited := visited + {key};
        assert visiting == Elements(path);
      }
    }

    // Visit every key of a list: the dependencies of the node on top of the path, or all
    // the plan's keys when the path is empty.
    method VisitEach(list: seq<string>, ghost path: seq<string>) returns (ok: bool)
      requires Valid(path) && forall k :: 0 <= k < |list| ==> Follows(graph, path, list[k])
      modifies this
      ensures ok ==> Valid(path) && old(visited) <= visited && visiting == old(visiting)
      ensures ok ==> Elements(list) <= visited
      ensures !ok ==> HasCycle(graph)
      decreases graph.Keys - visiting, 2
    {
      var i := 0;
      while i < |list|
        invariant 0 <= i <= |list|
        invariant Valid(path) && old(visited) <= visited && visiting == old(visiting)
        invariant Elements(list[..i]) <= visited
      {
        ElementsTail(list, i);
        ok := Visit(list[i], path);
        if !ok {
          return;
        }
        i := i + 1;
      }
      assert list[..|list|] == list;
      ok := true;
    }
  }

  lemma ElementsTail<T>(list: seq<T>, i: nat)
    requires i < |list|
    ensures Elements(list[..i + 1]) == Elements(list[..i]) + {list[i]}
  {
    assert list[..i + 1] == list[..i] + [list[i]];
  }

  predicate SearchedAll(keys: seq<string>, g: map<string, set<string>>, rank: map<string, int>) {
    PartialRank(g, rank) && Elements(keys) <= rank.Keys
  }

  predicate Collected(tasks: seq<PlanTask>, n: nat, dependencies: map<string, seq<string>>)
    requires n <= |tasks|
  {
    && (forall k :: k in dependencies ==> HasKey(tasks[..n], k))
    && (forall j :: 0 <= j < n ==> tasks[j].key in dependencies && dependencies[tasks[j].key] == tasks[j].deps)
  }

  lemma {:induction false} CollectedGraph(tasks: seq<PlanTask>, dependencies: map<string, seq<string>>)
    requires UniqueKeys(tasks) && KnownDeps(tasks) && Collected(tasks, |tasks|, dependencies)
    ensures var g := PlanGraph(tasks);
            Closed(g) && g.Keys == dependencies.Keys && forall k :: k in g ==> g[k] == Elements(dependencies[k])
  {
    PlanGraphKeys(tasks);
    assert tasks[..|tasks|] == tasks;
    forall k | k in PlanGraph(tasks)
      ensures k in dependencies && dependencies[k] == tasks[KeyIndex(tasks, k)].deps
    {
    }
  }

  method CollectDependencies(tasks: seq<PlanTask>) returns (dependencies: map<string, seq<string>>)
    requires UniqueKeys(tasks)
    ensures Collected(tasks, |tasks|, dependencies)
  {
    dependencies := map[];
    var i := 0;
    while i < |tasks|
      invariant 0 <= i <= |tasks| && Collected(tasks, i, dependencies)
    {
      dependencies := dependencies[tasks[i].key := tasks[i].deps];
      forall k | k in dependencies
        ensures HasKey(tasks[..i + 1], k)
      {
        if k == tasks[i].key {
          assert tasks[..i + 1][i].key == k;
        } else {
          var j :| 0 <= j < i && tasks[..i][j].key == k;
          assert tasks[..i + 1][j].key == k;
        }
      }
      i := i + 1;
    }
  }

  /** The cycle check is exact: it passes if and only if the dependencies have no cycle. */
  method ValidateAcyclic(tasks: seq<PlanTask>) returns (ok: bool)
    requires UniqueKeys(tasks) && KnownDeps(tasks)
    ensures ok <==> !HasCycle(PlanGraph(tasks))
  {
    var dependencies := CollectDependencies(tasks);
    CollectedGraph(tasks, dependencies);
    KeysInGraph(tasks);
    var search := new CycleSearch(dependencies, PlanGraph(tasks));
    ok := search.VisitEach(Keys(tasks), []);
    if ok {
      AllVisitedMeansAcyclic(tasks, search.rank);
    }
  }

  lemma {:induction false} KeysInGraph(tasks: seq<PlanTask>)
    ensures forall i :: 0 <= i < |tasks| ==> Follows(PlanGraph(tasks), [], Keys(tasks)[i])
  {
    PlanGraphKeys(tasks);
    forall i | 0 <= i < |tasks|
      ensures Follows(PlanGraph(tasks), [], Keys(tasks)[i])
    {
      assert HasKey(tasks, tasks[i].key);
    }
  }

  lemma {:induction false} AllVisitedMeansAcyclic(tasks: seq<PlanTask>, rank: map<string, int>)
    requires KnownDeps(tasks) && SearchedAll(Keys(tasks), PlanGraph(tasks), rank)
    ensures !HasCycle(PlanGraph(tasks))
  {
    PlanGraphKeys(tasks);
    forall k | HasKey(tasks, k)
      ensures k in rank
    {
      var j :| 0 <= j < |tasks| && tasks[j].key == k;
      assert Keys(tasks)[j] == k;
      assert k in Elements(Keys(tasks));
    }
    CompleteRank(PlanGraph(tasks), rank);
    RankedHasNoCycle(PlanGraph(tasks));
  }

  /** The uniqueness, dependency, wave and cycle checks of an import request. Once the wave
      check has passed, the cycle check never raises. */
  method ValidateGraph(tasks: seq<PlanTask>) returns (ok: bool)
    ensures ok <==> UniqueKeys(tasks) && KnownDeps(tasks) && WavesPrecede(tasks)
  {
    ok := CheckUniqueKeys(tasks);
    if !ok {
      return;
    }
    var i := 0;
    while i < |tasks|
      invariant 0 <= i <= |tasks|
      invariant forall j :: 0 <= j < i ==> DepsPrecede(tasks, j)
    {
      ok := CheckDeps(tasks, i);
      if !ok {
        DepsPrecedeMeansValid(tasks);
        return;
      }
      i := i + 1;
    }
    DepsPrecedeMeansValid(tasks);
    WavesRuleOutCycles(tasks);
    ok := ValidateAcyclic(tasks);
  }

  predicate DepsPrecede(tasks: seq<PlanTask>, i: nat)
    requires i < |tasks|
  {
    forall d :: d in tasks[i].deps ==>
      HasKey(tasks, d) && d != tasks[i].key && tasks[KeyIndex(tasks, d)].wave < tasks[i].wave
  }

  lemma {:induction false} DepsPrecedeMeansValid(tasks: seq<PlanTask>)
    ensures (forall j :: 0 <= j < |tasks| ==> DepsPrecede(tasks, j)) <==> KnownDeps(tasks) && WavesPrecede(tasks)
  {
    if forall j :: 0 <= j < |tasks| ==> DepsPrecede(tasks, j) {
      forall i, d | 0 <= i < |tasks| && d in tasks[i].deps
        ensures HasKey(tasks, d) && d != tasks[i].key && tasks[KeyIndex(tasks, d)].wave < tasks[i].wave
      {
        assert DepsPrecede(tasks, i);
      }
    }
  }

  method CheckUniqueKeys(tasks: seq<PlanTask>) returns (ok: bool)
    ensures ok <==> UniqueKeys(tasks)
  {
    var seen: set<string> := {};
    var i := 0;
    while i < |tasks|
      invariant 0 <= i <= |tasks|
      invariant forall j :: 0 <= j < i ==> tasks[j].key in seen
      invariant forall k :: k in seen ==> HasKey(tasks[..i], k)
      invariant UniqueKeys(tasks[..i])
    {
      if tasks[i].key in seen {
        var j :| 0 <= j < |tasks[..i]| && tasks[..i][j].key == tasks[i].key;
        return false;
      }
      seen := seen + {tasks[i].key};
      forall k | k in seen
        ensures HasKey(tasks[..i + 1], k)
      {
        if k == tasks[i].key {
          assert tasks[..i + 1][i].key == k;
        } else {
          var j :| 0 <= j < i && tasks[..i][j].key == k;
          assert tasks[..i + 1][j].key == k;
        }
      }
      i := i + 1;
    }
    assert tasks[..i] == tasks;
    ok := true;
  }

  method CheckDeps(tasks: seq<PlanTask>, i: nat) returns (ok: bool)
    requires i < |tasks| && UniqueKeys(tasks)
    ensures ok <==> DepsPrecede(tasks, i)
  {
    var deps := tasks[i].deps;
    var k := 0;
    while k < |deps|
      invariant 0 <= k <= |deps|
      invariant forall j :: 0 <= j < k ==>
        HasKey(tasks, deps[j]) && deps[j] != tasks[i].key && tasks[KeyIndex(tasks, deps[j])].wave < tasks[i].wave
    {
      assert deps[k] in tasks[i].deps;
      if !HasKey(tasks, deps[k]) || deps[k] == tasks[i].key || tasks[KeyIndex(tasks, deps[k])].wave >= tasks[i].wave {
        return false;
      }
      k := k + 1;
    }
    ok := true;
  }

  /** Ids for `count` new tasks: the numbers after the newest existing one. */
  method AllocateTaskIds(existing: seq<Row>, count: nat) returns (ids: seq<TaskId>)
    ensures ids == AllocatedIds(MaxId(RowIds(existing)), count)
    ensures forall i :: 0 <= i < |ids| ==> ids[i] !in RowIds(existing)
    ensures Distinct(ids)
  {
    var maximum := NewestId(existing);
    ghost var newest := maximum;
    ids := [];
    while |ids| < count
      invariant |ids| <= count && maximum == newest + |ids|
      invariant forall i :: 0 <= i < |ids| ==> ids[i] == H(newest + 1 + i)
    {
      maximum := maximum + 1;
      var candidate := H(maximum);
      assert candidate !in RowIds(existing);
      ids := ids + [candidate];
    }
  }

  function RowIds(rows: seq<Row>): set<TaskId> {
    set r | r in rows :: r.id
  }

  method NewestId(rows: seq<Row>) returns (maximum: nat)
    ensures maximum == MaxId(RowIds(rows))
  {
    maximum := 0;
    var i := 0;
    while i < |rows|
      invariant 0 <= i <= |rows|
      invariant forall j :: 0 <= j < i ==> rows[j].id.n <= maximum
      invariant maximum == 0 || exists j :: 0 <= j < i && rows[j].id.n == maximum
    {
      if rows[i].id.n > maximum {
        maximum := rows[i].id.n;
      }
      i := i + 1;
    }
    forall x | x in RowIds(rows)
      ensures x.n <= maximum
    {
      var r :| r in rows && r.id == x;
      var j :| 0 <= j < |rows| && rows[j] == r;
    }
    if maximum != 0 {
      var j :| 0 <= j < |rows| && rows[j].id.n == maximum;
      assert rows[j] in rows;
      assert rows[j].id in RowIds(rows);
    }
  }

  /** Translate a validated document into queue tasks and the receipt that maps each issue
      key to its task. */
  method BuildQueueTasks(doc: Document, existing: seq<Row>) returns (rows: seq<Row>, receipt: seq<Mapping>)
    requires UniqueKeys(doc.tasks) && KnownDeps(doc.tasks)
    ensures receipt == BuiltReceipt(doc, MaxId(RowIds(existing)))
    ensures |rows| == |doc.tasks|
    ensures forall i :: 0 <= i < |rows| ==>
              rows[i] == Row(H(MaxId(RowIds(existing)) + 1 + i), BuiltTask(doc, i, MaxId(RowIds(existing))))
    ensures |receipt| == |doc.tasks|
    ensures forall i :: 0 <= i < |rows| ==>
              && rows[i].id == receipt[i].id && receipt[i].key == doc.tasks[i].key
              && AsPlanned(rows[i].task, doc, receipt, i)
  {
    var ids := AllocateTaskIds(existing, |doc.tasks|);
    ghost var newest := MaxId(RowIds(existing));
    var mapping := MapKeys(doc.tasks, ids);
    assert MapsKeys(mapping, doc.tasks, newest);
    rows, receipt := [], [];
    var i := 0;
    while i < |doc.tasks|
      invariant 0 <= i <= |doc.tasks| && |rows| == |receipt| == i
      invariant forall j :: 0 <= j < i ==> rows[j] == Row(H(newest + 1 + j), BuiltTask(doc, j, newest))
      invariant forall j :: 0 <= j < i ==> receipt[j] == Mapping(doc.tasks[j].key, H(newest + 1 + j))
    {
      var task := BuildTask(doc, i, mapping, newest);
      rows := rows + [Row(ids[i], task)];
      receipt := receipt + [Mapping(doc.tasks[i].key, ids[i])];
      i := i + 1;
    }
    forall k | 0 <= k < |rows|
      ensures AsPlanned(rows[k].task, doc, receipt, k)
    {
      BuiltDepsArePlanned(doc, newest, receipt, k);
    }
  }

  ghost predicate MapsKeys(mapping: map<string, TaskId>, tasks: seq<PlanTask>, newest: nat) {
    forall d :: HasKey(tasks, d) ==> d in mapping && mapping[d] == H(newest + 1 + KeyIndex(tasks, d))
  }

  method BuildTask(doc: Document, i: nat, mapping: map<string, TaskId>, ghost newest: nat) returns (task: Task)
    requires i < |doc.tasks| && KnownDeps(doc.tasks) && MapsKeys(mapping, doc.tasks, newest)
    ensures task == BuiltTask(doc, i, newest)
  {
    var imported := doc.tasks[i];
    assert forall d :: d in imported.deps ==> HasKey(doc.tasks, d);
    var deps := set d | d in imported.deps :: mapping[d];
    assert deps == BuiltDeps(doc, i, newest);
    task := Task(Pending, 2, deps, "", "", 1, 0, "", false, NotCompleted,
                 Some(Source(doc.plan, doc.digest, imported.key)));
  }

  method MapKeys(tasks: seq<PlanTask>, ids: seq<TaskId>) returns (mapping: map<string, TaskId>)
    requires |ids| == |tasks| && UniqueKeys(tasks)
    ensures forall d :: HasKey(tasks, d) ==> d in mapping && mapping[d] == ids[KeyIndex(tasks, d)]
  {
    mapping := map[];
    var i := 0;
    while i < |tasks|
      invariant 0 <= i <= |tasks|
      invariant forall j :: 0 <= j < i ==> tasks[j].key in mapping && mapping[tasks[j].key] == ids[j]
    {
      mapping := mapping[tasks[i].key := ids[i]];
      i := i + 1;
    }
  }

  // The entry repeats a key or an id of an earlier one.
  lemma Repeats(receipt: seq<Mapping>, keys: seq<string>, ids: seq<TaskId>, i: nat) returns (j: nat)
    requires |keys| == |ids| == i < |receipt|
    requires forall j :: 0 <= j < i ==> keys[j] == receipt[j].key && ids[j] == receipt[j].id
    requires receipt[i].key in keys || receipt[i].id in ids
    ensures j < i && (receipt[j].key == receipt[i].key || receipt[j].id == receipt[i].id)
  {
    if receipt[i].key in keys {
      j :| 0 <= j < i && keys[j] == receipt[i].key;
    } else {
      j :| 0 <= j < i && ids[j] == receipt[i].id;
    }
  }

  // Receipt entries have distinct keys and distinct ids; `keys` lists the keys in order.
  method ReceiptKeys(receipt: seq<Mapping>) returns (ok: bool, keys: seq<string>)
    ensures ok <==> forall j, k :: 0 <= j < k < |receipt| ==>
                                     receipt[j].key != receipt[k].key && receipt[j].id != receipt[k].id
    ensures ok ==> |keys| == |receipt| && forall j :: 0 <= j < |receipt| ==> keys[j] == receipt[j].key
  {
    var ids: seq<TaskId> := [];
    keys := [];
    var i := 0;
    while i < |receipt|
      invariant 0 <= i <= |receipt| && |keys| == |ids| == i
      invariant forall j :: 0 <= j < i ==> keys[j] == receipt[j].key && ids[j] == receipt[j].id
      invariant forall j, k :: 0 <= j < k < i ==> receipt[j].key != receipt[k].key && receipt[j].id != receipt[k].id
    {
      if receipt[i].key in keys || receipt[i].id in ids {
        ghost var j := Repeats(receipt, keys, ids, i);
        return false, keys;
      }
      keys := keys + [receipt[i].key];
      ids := ids + [receipt[i].id];
      i := i + 1;
    }
    ok := true;
  }

  /** A stored receipt is accepted exactly when it still matches the document and the
      persisted tasks. */
  method ValidateStoredReceipt(receipt: seq<Mapping>, doc: Document, tasks: map<TaskId, Task>) returns (ok: bool)
    ensures ok <==> ReceiptMatches(receipt, doc, tasks)
  {
    var distinct, keys := ReceiptKeys(receipt);
    if !distinct || keys != Keys(doc.tasks) {
      if distinct && |receipt| == |doc.tasks| {
        var j :| 0 <= j < |keys| && keys[j] != Keys(doc.tasks)[j];
        assert receipt[j].key != doc.tasks[j].key;
      }
      return false;
    }
    assert forall j :: 0 <= j < |receipt| ==> receipt[j].key == Keys(doc.tasks)[j];
    var i := 0;
    while i < |receipt|
      invariant 0 <= i <= |receipt|
      invariant forall j :: 0 <= j < i ==>
        receipt[j].id in tasks && tasks[receipt[j].id].source == Some(Source(doc.plan, doc.digest, receipt[j].key))
    {
      if receipt[i].id !in tasks || tasks[receipt[i].id].source != Some(Source(doc.plan, doc.digest, receipt[i].key)) {
        return false;
      }
      i := i + 1;
    }
    ok := true;
  }
}
