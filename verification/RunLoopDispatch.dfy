/**
 * Which ready tasks a wave takes, that the queue will let it claim them, and in what order
 * the results of a wave come back.
 */
module RunLoopDispatch {
  import opened Wrappers
  import opened QueueTypes
  import opened QueueModel
  import QueueInvariants
  import opened QueueReceipts
  import opened RunLoopModel
  import opened RunLoopLaws

  // ------------------------------------------------------------- the head of a pass

  // The loop ends when its budget is spent and nothing is under way; otherwise the first stop
  // condition that is present becomes the reason, unless the loop was already stopping. A
  // serial loop ends there and then, a parallel one takes no new task.
  lemma OpenedExactly(policy: Policy, w: World, s: Loop)
    requires !s.ended
    ensures var t := w.turn(s.pass);
            var o := Opened(policy, w, s);
            var spent := s.done + s.blocked >= policy.maxTasks && s.active == [] && s.completed == [];
            var present := t.globalStop || t.stopFile || t.timeUp;
            && o.pass == s.pass + 1
            && (if spent then o.ended && o.reason == "max_tasks_reached" && o.stopped == s.stopped
                else if !present then o == s.(pass := s.pass + 1)
                else o.stopped && (o.ended <==> policy.parallelism == 1)
                     && o.reason == if s.stopped then s.reason
                                    else if t.globalStop then "global_stop_file"
                                    else if t.stopFile then "stop_file"
                                    else "time_budget_exhausted")
  {
  }

  // ------------------------------------------------------------- dispatch

  // How many tasks a new wave may take: none of the three bounds is exceeded, and one of
  // them or the list of ready tasks is exhausted.
  predicate WaveSize(policy: Policy, s: Loop, t: Turn, n: nat) {
    && n <= policy.parallelism && s.done + s.blocked + n <= policy.maxTasks
    && t.inProgress + n <= policy.maxInProgress && n <= |t.ready|
    && (n == policy.parallelism || s.done + s.blocked + n == policy.maxTasks
        || t.inProgress + n == policy.maxInProgress || n == |t.ready|)
  }

  // The wave's attempts are the first n ready tasks, one new child each.
  predicate FirstReady(s: Loop, t: Turn, active: seq<Attempt>, n: nat) {
    && |active| == n <= |t.ready|
    && forall i :: 0 <= i < n ==> active[i].task == t.ready[i] && active[i].child == C(s.children + 1 + i)
  }

  predicate NoRoom(policy: Policy, s: Loop, t: Turn) {
    s.done + s.blocked >= policy.maxTasks || t.inProgress >= policy.maxInProgress
  }

  // An idle loop takes as many of the first ready tasks as the bounds allow, or ends because
  // the queue cannot be read, there is no room, or nothing is ready, in this order.
  lemma DispatchTakesFirstReady(policy: Policy, s: Loop, t: Turn)
    requires !s.ended && s.active == []
    ensures var d := Dispatch(policy, s, t);
            if t.summary.Some? then d == s.(reason := t.summary.value, ended := true)
            else if NoRoom(policy, s, t) then d == s.(reason := "queue_capacity_full", ended := true)
            else if t.ready == [] then d == s.(reason := "no_ready_task", ended := true)
            else
              && d == s.(active := d.active, waiting := t.delay, children := s.children + |d.active|)
              && 0 < |d.active| && WaveSize(policy, s, t, |d.active|) && FirstReady(s, t, d.active, |d.active|)
  {
  }

  function TasksOf(active: seq<Attempt>): set<TaskId> {
    set i | 0 <= i < |active| :: active[i].task
  }

  // What the loop read is what the queue holds: every ready task, best first, and the number
  // of tasks in progress.
  ghost predicate ReadsQueue(policy: Policy, t: Turn, q: Queue) {
    && policy.maxInProgress == q.limit && t.inProgress == |InProgressIds(q)|
    && (forall i :: 0 <= i < |t.ready| ==> t.ready[i] in ReadyIds(q)) && (forall x :: x in ReadyIds(q) ==> x in t.ready)
    && (forall i, j :: 0 <= i < j < |t.ready| ==> Before(q, t.ready[i], t.ready[j]))
  }

  lemma {:induction false} WaveCounts(active: seq<Attempt>)
    requires forall i, j :: 0 <= i < j < |active| ==> active[i].task != active[j].task
    ensures |TasksOf(active)| == |active|
    decreases |active|
  {
    if active != [] {
      var n := |active| - 1;
      WaveCounts(active[..n]);
      assert TasksOf(active) == TasksOf(active[..n]) + {active[n].task};
      assert active[n].task !in TasksOf(active[..n]);
    }
  }

  lemma WaveIsDistinct(policy: Policy, s: Loop, t: Turn, q: Queue, active: seq<Attempt>)
    requires ReadsQueue(policy, t, q) && FirstReady(s, t, active, |active|)
    ensures |TasksOf(active)| == |active| && TasksOf(active) <= ReadyIds(q)
  {
    forall i | 0 <= i < |active|
      ensures active[i].task in ReadyIds(q)
    {
      assert active[i].task == t.ready[i];
    }
    forall i, j | 0 <= i < j < |active|
      ensures active[i].task != active[j].task
    {
      BeforeIsTotal(q, t.ready[i], t.ready[j]);
    }
    WaveCounts(active);
  }

  // A wave dispatched from what the queue holds is claimable: its tasks are distinct, ready,
  // and no worse than any ready task it leaves, and every claim of one of them by its id
  // succeeds, in any order, whatever members are settled in between.
  lemma DispatchedWaveIsClaimable(policy: Policy, s: Loop, t: Turn, q: Queue, ops: seq<Op>)
    requires !s.ended && s.active == [] && QueueInvariants.Inv(q) && ReadsQueue(policy, t, q)
    requires var d := Dispatch(policy, s, t);
             !d.ended && BatchRun(ops, TasksOf(d.active), {})
    ensures var d := Dispatch(policy, s, t);
            && |TasksOf(d.active)| == |d.active| && TasksOf(d.active) <= ReadyIds(q)
            && (forall x, y :: x in TasksOf(d.active) && y in ReadyIds(q) - TasksOf(d.active) ==> Before(q, x, y))
            && AllClaimsSucceed(q, ops)
  {
    var active := Dispatch(policy, s, t).active;
    DispatchTakesFirstReady(policy, s, t);
    WaveIsDistinct(policy, s, t, q, active);
    forall x, y | x in TasksOf(active) && y in ReadyIds(q) - TasksOf(active)
      ensures Before(q, x, y)
    {
      LeavesWorse(policy, s, t, q, active, x, y);
    }
    WaveIsClaimable(q, ops, TasksOf(active), {});
  }

  lemma LeavesWorse(policy: Policy, s: Loop, t: Turn, q: Queue, active: seq<Attempt>, x: TaskId, y: TaskId)
    requires ReadsQueue(policy, t, q) && FirstReady(s, t, active, |active|)
    requires x in TasksOf(active) && y in ReadyIds(q) && y !in TasksOf(active)
    ensures x in q.tasks && y in q.tasks && Before(q, x, y)
  {
    var i :| 0 <= i < |active| && active[i].task == x;
    var j :| 0 <= j < |t.ready| && t.ready[j] == y;
    assert |active| <= j;
  }

  // A serial pass runs the next task as a new child and takes what it reports, or ends for the
  // reason the queue gives for having none.
  lemma SerialRunsNext(policy: Policy, w: World, s: Loop)
    requires policy.parallelism == 1 && !Opened(policy, w, s).ended
    ensures var (o, next) := (Opened(policy, w, s), w.turn(s.pass).next);
            var child := C(s.children + 1);
            Pull(policy, w, s) == if next.Some? then Pulled(o.(reason := next.value, ended := true), None)
                                  else Pulled(o.(children := child.n), Some(Member(child, w.worker(child))))
  {
    OpenedFrame(policy, w, s);
  }

  // A parallel loop that is stopping takes no new task.
  lemma StoppingTakesNothing(policy: Policy, w: World, s: Loop)
    requires policy.parallelism != 1 && Opened(policy, w, s).stopped
    ensures Pass(policy, w, s).children == s.children
  {
    OpenedFrame(policy, w, s);
    CollectKeepsChildren(policy, w, Opened(policy, w, s));
    var p := Pull(policy, w, s);
    if p.member.Some? {
      SettleFrame(policy, w, p.loop, p.member.value);
    }
  }

  lemma CollectKeepsChildren(policy: Policy, w: World, s: Loop)
    ensures Collect(policy, w, s).loop.children == s.children
  {
    GatherPlaces(w, s);
    var g := if s.active != [] then Gather(w, s) else s;
    if g.completed != [] {
      TakeFacts(policy, w, g);
    }
  }

  // ------------------------------------------------------------- results

  // A wave member whose review has a P0 or P1 finding and who failed.
  predicate Breaks(w: World, c: Child) {
    !w.worker(c).ok && w.findings(c).p0 + w.findings(c).p1 > 0
  }

  predicate BreaksSome(w: World, active: seq<Attempt>) {
    exists i :: 0 <= i < |active| && Breaks(w, active[i].child)
  }

  // What one worker's result becomes before the wave is processed: a candidate of a broken
  // wave is cancelled, and its claim released if that can be done.
  predicate Delivers(w: World, a: Attempt, broken: bool, m: Member) {
    var r := w.worker(a.child);
    && m.child == a.child && m.result.task == (if r.task.Some? then r.task else Some(a.task))
    && if broken && r.status == "candidate_ready"
       then !m.result.ok
            && m.result.status == if w.releases(a.child) then "cancelled_by_breaker" else "worker_needs_reconcile"
       else m.result.ok == r.ok && m.result.status == r.status
  }

  predicate BreakerCancelled(m: Member) {
    m.result.status == "cancelled_by_breaker"
  }

  // Failures come first, then successes, then what the breaker cancelled, and each of these
  // in the order in which the workers were started.
  predicate WellOrdered(order: seq<Member>) {
    forall i, j :: 0 <= i < j < |order| ==> InOrder(order[i], order[j])
  }

  predicate InOrder(a: Member, b: Member) {
    if BreakerCancelled(a) then BreakerCancelled(b) && a.child.n < b.child.n
    else if a.result.ok then BreakerCancelled(b) || (b.result.ok && a.child.n < b.child.n)
    else BreakerCancelled(b) || b.result.ok || a.child.n < b.child.n
  }

  predicate Sequenced(ms: seq<Member>) {
    forall i, j :: 0 <= i < j < |ms| ==> ms[i].child.n < ms[j].child.n
  }

  lemma {:induction false} OnlySequenced(ms: seq<Member>, key: nat)
    requires Sequenced(ms)
    ensures Sequenced(Only(ms, key))
  {
    if ms != [] {
      var rest := Only(ms[1..], key);
      OnlySequenced(ms[1..], key);
      OnlyKeys(ms[1..], key);
      forall i | 0 <= i < |rest|
        ensures ms[0].child.n < rest[i].child.n
      {
        FirstComesFirst(ms, rest[i]);
      }
    }
  }

  lemma FirstComesFirst(ms: seq<Member>, m: Member)
    requires Sequenced(ms) && ms != [] && m in ms[1..]
    ensures ms[0].child.n < m.child.n
  {
  }

  lemma {:induction false} BrokenIff(w: World, active: seq<Attempt>)
    ensures Broken(w, Reports(w, active)) <==> BreaksSome(w, active)
    decreases |active|
  {
    if active != [] {
      assert Reports(w, active)[1..] == Reports(w, active[1..]);
      BrokenIff(w, active[1..]);
      if BreaksSome(w, active[1..]) {
        var i :| 0 <= i < |active[1..]| && Breaks(w, active[1..][i].child);
        assert Breaks(w, active[i + 1].child);
      }
      if BreaksSome(w, active) && !Breaks(w, active[0].child) {
        var i :| 0 <= i < |active| && Breaks(w, active[i].child);
        assert Breaks(w, active[1..][i - 1].child);
      }
    }
  }

  // A gathered wave holds one result for every worker, as the breaker left it, and is
  // processed failures first and cancellations last.
  lemma GatheredWave(w: World, s: Loop) returns (queue: seq<Member>)
    requires s.completed == [] && Numbered(s)
    ensures var g := Gather(w, s);
            && g.active == [] && g.completed == g.order && WellOrdered(g.order)
            && |queue| == |s.active| && multiset(g.order) == multiset(queue)
    ensures forall i :: 0 <= i < |queue| ==> Delivers(w, s.active[i], BreaksSome(w, s.active), queue[i])
  {
    var wave := Reports(w, s.active);
    BrokenIff(w, s.active);
    queue := if Broken(w, wave) then CancelCandidates(w, wave) else wave;
    GatherIs(w, s);
    SortedIsOrdered(queue);
    QueueIsSequenced(s, queue);
    SortedIsWellOrdered(queue);
    forall i | 0 <= i < |queue|
      ensures Delivers(w, s.active[i], BreaksSome(w, s.active), queue[i])
    {
      MemberDelivers(w, s.active, i);
    }
  }

  lemma QueueIsSequenced(s: Loop, queue: seq<Member>)
    requires Numbered(s) && |queue| == |s.active|
    requires forall i :: 0 <= i < |queue| ==> queue[i].child == s.active[i].child
    ensures Sequenced(queue)
  {
  }

  lemma SortedIsWellOrdered(queue: seq<Member>)
    requires Sequenced(queue)
    ensures WellOrdered(Sorted(queue))
  {
    var a, b, c := Only(queue, 0), Only(queue, 1), Only(queue, 2);
    OnlyKeys(queue, 0);
    OnlyKeys(queue, 1);
    OnlyKeys(queue, 2);
    OnlySequenced(queue, 0);
    OnlySequenced(queue, 1);
    OnlySequenced(queue, 2);
    forall i, j | 0 <= i < j < |a + b + c|
      ensures InOrder((a + b + c)[i], (a + b + c)[j])
    {
      if j < |a| {
        SameKeyInOrder(a, 0, i, j);
      } else if |a| <= i && j < |a| + |b| {
        SameKeyInOrder(b, 1, i - |a|, j - |a|);
      } else if |a| + |b| <= i {
        SameKeyInOrder(c, 2, i - |a| - |b|, j - |a| - |b|);
      }
    }
  }

  lemma SameKeyInOrder(ms: seq<Member>, key: nat, i: nat, j: nat)
    requires i < j < |ms| && Sequenced(ms)
    requires RunLoopModel.Key(ms[i]) == key && RunLoopModel.Key(ms[j]) == key
    ensures InOrder(ms[i], ms[j])
  {
  }

  lemma MemberDelivers(w: World, active: seq<Attempt>, i: nat)
    requires i < |active|
    ensures Delivers(w, active[i], false, Reports(w, active)[i])
    ensures Delivers(w, active[i], true, CancelCandidates(w, Reports(w, active))[i])
  {
  }

  // The first result is taken; a candidate lands, unless the loop is stopping and is to halt
  // before it lands anything, and then it is released instead.
  lemma TakenIsLanded(policy: Policy, w: World, s: Loop)
    requires s.completed != []
    ensures var p := Take(policy, w, s);
            var m := s.completed[0];
            && p.member.Some? && p.member.value.child == m.child && p.member.value.result.task == m.result.task
            && p.loop == s.(completed := s.completed[1..], landed := p.loop.landed, released := p.loop.released)
            && (if m.result.status != "candidate_ready"
                then p.member.value == m && p.loop.landed == s.landed && p.loop.released == s.released
                else if s.stopped && policy.haltBeforeLanding
                then p.loop.landed == s.landed && p.loop.released == s.released + multiset{m.child}
                     && !p.member.value.result.ok
                     && p.member.value.result.status
                        == (if w.releases(m.child) then "cancelled_by_breaker" else "worker_needs_reconcile")
                else p.loop.landed == s.landed + multiset{m.child} && p.loop.released == s.released
                     && p.member.value.result.ok == w.landing(m.child).ok
                     && p.member.value.result.status == w.landing(m.child).status)
  {
  }
}
