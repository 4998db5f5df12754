/** The supervisor's run loop, variable by variable, against the pass of RunLoopModel. */
module RunLoop {
  import opened Wrappers
  import opened QueueTypes
  import opened RunLoopModel
  import opened RunLoopLaws
  import opened RunLoopVerdicts

  datatype LoopResult = LoopResult(ok: bool, status: string, done: nat, blocked: nat)

  class Supervisor {
    const policy: Policy
    const world: World
    var pass: nat
    var tasksDone: nat
    var tasksBlocked: nat
    var consecutiveFailures: nat
    var taskFailures: map<TaskId, nat>
    var active: seq<Attempt>
    var waiting: nat
    var completed: seq<Member>
    var workerSequence: nat
    var outcomes: seq<Member>
    var dispatchStopped: bool
    var stopReason: string
    var ended: bool
    var summary: Summary
    ghost var wave: seq<Member>
    ghost var order: seq<Member>
    ghost var scheduled: map<TaskId, nat>
    ghost var landed: multiset<Child>
    ghost var released: multiset<Child>

    ghost function Now(): Loop
      reads this
    {
      Loop(pass, tasksDone, tasksBlocked, consecutiveFailures, taskFailures, active, waiting, completed,
           workerSequence, outcomes, dispatchStopped, stopReason, ended, summary,
           wave, order, scheduled, landed, released)
    }

    constructor (policy: Policy, world: World)
      ensures this.policy == policy && this.world == world && Now() == START
    {
      this.policy, this.world := policy, world;
      pass, tasksDone, tasksBlocked, consecutiveFailures, taskFailures := 0, 0, 0, 0, map[];
      active, waiting, completed, workerSequence, outcomes := [], 0, [], 0, [];
      dispatchStopped, stopReason, ended, summary := false, "max_tasks_reached", false, Summary(0, 0, 0, 0, 0);
      wave, order, scheduled, landed, released := [], [], map[], multiset{}, multiset{};
    }

    method StopIf(present: bool, reason: string)
      modifies this`stopReason, this`dispatchStopped, this`ended
      ensures Now() == Halt(policy, old(Now()), present, reason)
    {
      if present && !ended {
        if !dispatchStopped {
          stopReason := reason;
        }
        dispatchStopped := true;
        ended := policy.parallelism == 1;
      }
    }

    method ReadStopConditions(t: Turn)
      modifies this`stopReason, this`dispatchStopped, this`ended
      ensures Now() == ReadStops(policy, old(Now()), t)
    {
      StopIf(t.globalStop, "global_stop_file");
      StopIf(t.stopFile, "stop_file");
      StopIf(t.timeUp, "time_budget_exhausted");
    }

    method EndLoop(reason: string)
      modifies this`stopReason, this`ended
      ensures Now() == old(Now()).(reason := reason, ended := true)
    {
      stopReason := reason;
      ended := true;
    }

    // The loop condition, the two STOP files and the clock; an ended loop reads no more of them.
    method Open(t: Turn)
      requires t == TurnAt(world, pass)
      modifies this`pass, this`stopReason, this`dispatchStopped, this`ended
      ensures Now() == Opened(policy, world, old(Now()))
    {
      Begin();
      ReadStopConditions(t);
    }

    method Begin()
      modifies this`pass, this`stopReason, this`ended
      ensures Now() == Begun(policy, old(Now()))
    {
      if !(tasksDone + tasksBlocked < policy.maxTasks || active != [] || completed != []) {
        EndLoop("max_tasks_reached");
      }
      pass := pass + 1;
    }

    method DispatchWave(t: Turn)
      modifies this`active, this`waiting, this`workerSequence, this`stopReason, this`ended
      ensures Now() == Dispatch(policy, old(Now()), t)
    {
      var remaining := policy.maxTasks - tasksDone - tasksBlocked;
      if t.summary.Some? {
        EndLoop(t.summary.value);
        return;
      }
      var slots := if policy.maxInProgress > t.inProgress then policy.maxInProgress - t.inProgress else 0;
      var limit := Min(policy.parallelism, Min(remaining, slots));
      if limit <= 0 {
        EndLoop("queue_capacity_full");
        return;
      }
      if t.ready == [] {
        EndLoop("no_ready_task");
        return;
      }
      StartWave(t, t.ready[..Min(limit, |t.ready|)]);
    }

    method StartWave(t: Turn, candidates: seq<TaskId>)
      modifies this`active, this`waiting, this`workerSequence
      ensures Now() == old(Now()).(active := Spawned(candidates, old(workerSequence) + 1), waiting := t.delay,
                                   children := old(workerSequence) + |candidates|)
    {
      SpawnWorkers(candidates);
      waiting := t.delay;
    }

    method SpawnWorkers(tasks: seq<TaskId>)
      modifies this`active, this`workerSequence
      ensures active == Spawned(tasks, old(workerSequence) + 1) && workerSequence == old(workerSequence) + |tasks|
    {
      var wave: seq<Attempt> := [];
      for i := 0 to |tasks|
        invariant workerSequence == old(workerSequence) + i
        invariant wave == Spawned(tasks[..i], old(workerSequence) + 1)
      {
        workerSequence := workerSequence + 1;
        wave := wave + [Attempt(C(workerSequence), tasks[i])];
      }
      assert tasks[..|tasks|] == tasks;
      active := wave;
    }

    // Every worker of the wave has ended: read the results, apply the breaker, order them.
    method GatherWave()
      modifies this`active, this`completed, this`wave, this`order, this`released
      ensures Now() == Gather(world, old(Now()))
    {
      var reports, broken := ReadReports();
      var queue := ApplyBreaker(reports, broken);
      GatherAs(world, old(Now()), reports, queue, released);
      QueueWave(reports, Sorted(queue));
    }

    method QueueWave(reports: seq<Member>, queue: seq<Member>)
      modifies this`active, this`completed, this`wave, this`order
      ensures Now() == old(Now()).(active := [], completed := old(completed) + queue, wave := reports, order := queue)
    {
      wave, order := reports, queue;
      completed := completed + queue;
      active := [];
    }

    // A broken wave's candidates are released before any of them lands.
    method ApplyBreaker(reports: seq<Member>, broken: bool) returns (queue: seq<Member>)
      modifies this`released
      ensures queue == if broken then CancelCandidates(world, reports) else reports
      ensures released == if broken then old(released) + Candidates(reports) else old(released)
    {
      queue := reports;
      if broken {
        released := released + Candidates(reports);
        queue := CancelCandidates(world, reports);
      }
    }

    method ReadReports() returns (reports: seq<Member>, broken: bool)
      ensures reports == Reports(world, active) && broken == Broken(world, reports)
    {
      reports, broken := [], false;
      for i := 0 to |active|
        invariant reports == Reports(world, active[..i])
        invariant broken == Broken(world, reports)
      {
        var m := Reported(world, active[i]);
        BrokenTail(world, reports, m);
        reports := reports + [m];
        broken := broken || BreaksWave(world, m);
      }
      assert active[..|active|] == active;
    }

    // The first result; a candidate is landed, or released if the loop is to halt first.
    method TakeNext() returns (m: Member)
      requires completed != []
      modifies this`completed, this`landed, this`released
      ensures Pulled(Now(), Some(m)) == Take(policy, world, old(Now()))
    {
      m := completed[0];
      completed := completed[1..];
      if IsCandidate(m) {
        if dispatchStopped && policy.haltBeforeLanding {
          released := released + multiset{m.child};
          m := Cancelled(world, m);
        } else {
          landed := landed + multiset{m.child};
          m := m.(result := world.landing(m.child).(task := m.result.task));
        }
      }
    }

    method CollectNext() returns (m: Option<Member>)
      modifies this`active, this`completed, this`wave, this`order, this`landed, this`released, this`ended
      ensures Pulled(Now(), m) == Collect(policy, world, old(Now()))
    {
      if active != [] {
        GatherWave();
      }
      if completed == [] {
        ended := dispatchStopped;
        return None;
      }
      var taken := TakeNext();
      m := Some(taken);
    }

    // A pass up to its outcome.
    method PullNext(t: Turn) returns (m: Option<Member>)
      requires !ended
      modifies this
      ensures Pulled(Now(), m) == PullFrom(policy, world, old(Now()), t)
    {
      if policy.parallelism == 1 {
        m := PullOne(t);
      } else {
        m := PullFromWave(t);
      }
    }

    method PullOne(t: Turn) returns (m: Option<Member>)
      modifies this`workerSequence, this`stopReason, this`ended
      ensures Pulled(Now(), m) == SerialPull(world, old(Now()), t)
    {
      if t.next.Some? {
        EndLoop(t.next.value);
        return None;
      }
      workerSequence := workerSequence + 1;
      m := Some(Member(C(workerSequence), world.worker(C(workerSequence))));
    }

    method PullFromWave(t: Turn) returns (m: Option<Member>)
      requires !ended
      modifies this
      ensures Pulled(Now(), m) == ParallelPull(policy, world, old(Now()), t)
    {
      if active == [] && completed == [] && !dispatchStopped {
        DispatchWave(t);
      }
      if ended {
        return None;
      }
      if active != [] && waiting > 0 {
        waiting := waiting - 1;
        return None;
      }
      m := CollectNext();
    }

    method CountFailure(task: TaskId)
      modifies this`taskFailures
      ensures taskFailures == Failed(old(taskFailures), task)
    {
      taskFailures := taskFailures[task := Get(taskFailures, task) + 1];
    }

    // Why a failed outcome stops the loop or blocks its task.
    method ClassifyFailure(m: Member) returns (finalBlocked: bool, shouldStop: bool)
      modifies this`taskFailures, this`stopReason
      ensures Verdict(finalBlocked, shouldStop, false, stopReason, taskFailures)
              == Classify(policy, world, old(Now()), m)
    {
      var status := m.result.status;
      var retryable := status in RETRYABLE_FAILURE;
      var findings := FindingsOf(world, m);
      var last := consecutiveFailures + 1 >= policy.consecutive;
      finalBlocked, shouldStop := true, false;
      if status in NON_RETRYABLE_LOOP || m.result.task.None? {
        finalBlocked, shouldStop := false, true;
        stopReason := status;
      } else if findings.p0 > 0 || findings.p1 > 0 {
        CountFailure(m.result.task.value);
        stopReason := "blocking_findings";
        shouldStop := true;
      } else if world.dirty(m.child) {
        CountFailure(m.result.task.value);
        if !retryable || last {
          stopReason := "failed_worktree_dirty";
          shouldStop := true;
        }
      } else if last {
        CountFailure(m.result.task.value);
        stopReason := "consecutive_failures_stop";
        shouldStop := true;
      } else if retryable {
        CountFailure(m.result.task.value);
      }
    }

    method JudgeOutcome(m: Member) returns (finalBlocked: bool, shouldStop: bool, retryScheduled: bool)
      modifies this`taskFailures, this`stopReason
      ensures Verdict(finalBlocked, shouldStop, retryScheduled, stopReason, taskFailures)
              == Judge(policy, world, old(Now()), m)
      ensures !m.result.ok ==>
                && (shouldStop <==> Stops(policy, world, old(Now()), m))
                && (retryScheduled <==> PutBack(policy, world, old(Now()), m))
                && (finalBlocked <==> CountsBlocked(policy, world, old(Now()), m))
                && stopReason == Reason(policy, world, old(Now()), m)
                && taskFailures == FailuresAfter(policy, world, old(Now()), m)
      ensures m.result.ok ==>
                !finalBlocked && !retryScheduled && stopReason == old(stopReason) && taskFailures == old(taskFailures)
    {
      if m.result.ok {
        JudgeSuccess(policy, world, Now(), m);
      } else {
        JudgeFits(policy, world, Now(), m);
      }
      var before := stopReason;
      finalBlocked, shouldStop, retryScheduled := false, false, false;
      if !m.result.ok {
        finalBlocked, shouldStop := ClassifyFailure(m);
        if m.result.status in RETRYABLE_FAILURE && m.result.task.Some? && !shouldStop
           && Get(taskFailures, m.result.task.value) < policy.sameTask {
          if world.resume(m.child) != ResumeFailed {
            finalBlocked, retryScheduled := false, true;
          } else {
            stopReason := "retry_resume_failed";
            shouldStop := true;
          }
        }
        if finalBlocked && !retryScheduled && m.result.task.Some? && world.pendingAfter(m.child) {
          finalBlocked, shouldStop := false, true;
          stopReason := m.result.status;
        }
      }
      if m.result.status == "cancelled_by_breaker" && dispatchStopped {
        finalBlocked, shouldStop := false, true;
        stopReason := before;
      }
    }

    // _record_loop_task: run.yaml is written before the loop's own counters move.
    method RecordTask(m: Member, finalBlocked: bool)
      modifies this`summary
      ensures summary == Recorded(world, old(summary), m, finalBlocked)
    {
      var f := FindingsOf(world, m);
      if m.result.ok {
        summary := summary.(done := summary.done + 1, failuresInRow := 0);
      } else {
        summary := summary.(failuresInRow := summary.failuresInRow + 1);
        if finalBlocked {
          summary := summary.(blocked := summary.blocked + 1);
        }
      }
      summary := summary.(p0 := summary.p0 + f.p0, p1 := summary.p1 + f.p1);
    }

    method RecordOutcome(m: Member, v: Verdict)
      requires stopReason == v.reason && taskFailures == v.failures
      modifies this`summary, this`outcomes, this`scheduled
      ensures Now() == Judged(world, old(Now()), m, v)
    {
      outcomes := outcomes + [m];
      RecordTask(m, v.blocked);
      scheduled := Bump(scheduled, m.result.task, v.retried);
    }

    method Process(m: Member)
      modifies this
      ensures Now() == Settle(policy, world, old(Now()), m)
    {
      var finalBlocked, shouldStop, retryScheduled := JudgeOutcome(m);
      RecordOutcome(m, Verdict(finalBlocked, shouldStop, retryScheduled, stopReason, taskFailures));
      Count(m, finalBlocked, shouldStop);
    }

    method Count(m: Member, finalBlocked: bool, shouldStop: bool)
      modifies this`tasksDone, this`tasksBlocked, this`consecutiveFailures, this`stopReason, this`ended
      ensures Now() == Counted(policy, world, old(Now()), m, finalBlocked, shouldStop)
    {
      if m.result.ok {
        tasksDone := tasksDone + 1;
        consecutiveFailures := 0;
        CheckDirection(m.child);
      } else {
        CountFailed(finalBlocked, shouldStop);
      }
    }

    method CountFailed(finalBlocked: bool, shouldStop: bool)
      modifies this`tasksBlocked, this`consecutiveFailures, this`ended
      ensures tasksBlocked == old(tasksBlocked) + (if finalBlocked then 1 else 0)
      ensures consecutiveFailures == old(consecutiveFailures) + 1 && ended == shouldStop
    {
      if finalBlocked {
        tasksBlocked := tasksBlocked + 1;
      }
      consecutiveFailures := consecutiveFailures + 1;
      ended := shouldStop;
    }

    method CheckDirection(c: Child)
      modifies this`stopReason, this`ended
      ensures Now() == DirectionStop(policy, world, old(Now()), c)
    {
      if policy.directionEvery > 0 && tasksDone % policy.directionEvery == 0 && world.direction(c) != Aligned {
        stopReason := if world.direction(c) == Drift then "direction_drift" else "direction_blocked";
        ended := true;
      }
    }

    method OnePass()
      requires !ended
      modifies this
      ensures Now() == Pass(policy, world, old(Now()))
    {
      var t := TurnAt(world, pass);
      Open(t);
      if ended {
        return;
      }
      var m := PullNext(t);
      if m.Some? {
        Process(m.value);
      }
    }

    // _run_loop_impl. It ends, whatever the world answers, and it ends within its budgets.
    method Run() returns (r: LoopResult)
      requires Now() == START && Sane(world)
      modifies this
      ensures ended && active == []
      ensures |outcomes| <= policy.maxTasks * policy.consecutive
      ensures tasksDone + tasksBlocked + |completed| <= policy.maxTasks
      ensures consecutiveFailures <= policy.consecutive
      ensures forall t: TaskId :: Get(scheduled, t) <= policy.sameTask - 1
      ensures Agrees(Now()) && Told(world, Now())
      ensures policy.parallelism != 1 ==> EachOnce(world, Now())
      ensures r == LoopResult(Orderly(stopReason) && tasksBlocked == 0, stopReason, tasksDone, tasksBlocked)
    {
      StartInv(policy, world);
      while true
        invariant !ended && Inv(policy, world, Now()) && Told(world, Now())
        decreases Left(policy, Now()), if active == [] then 1 else 0, waiting
      {
        ghost var before := Now();
        LeftIsNatural(policy, before);
        PassKeepsInv(policy, world, before);
        PassTold(policy, world, before);
        OnePass();
        if ended {
          NothingRuns(policy, world, before);
          break;
        }
      }
      LeftIsNatural(policy, Now());
      if policy.parallelism != 1 {
        LeftoversEachOnce(world, Now());
      }
      ReleaseLeftovers();
      OrderlyReasons(stopReason);
      r := LoopResult(stopReason in SUCCESSFUL_TERMINAL && tasksBlocked == 0, stopReason, tasksDone, tasksBlocked);
    }

    // Candidates that wait when the loop ends are released.
    method ReleaseLeftovers()
      modifies this`released
      ensures Now() == Leftovers(old(Now()))
    {
      for i := 0 to |completed|
        invariant released == old(released) + Candidates(completed[..i])
      {
        CandidatesTail(completed, i);
        if IsCandidate(completed[i]) {
          released := released + multiset{completed[i].child};
        }
      }
      assert completed[..|completed|] == completed;
    }
  }

  lemma GatherAs(w: World, s: Loop, reports: seq<Member>, queue: seq<Member>, released: multiset<Child>)
    requires reports == Reports(w, s.active)
    requires queue == if Broken(w, reports) then CancelCandidates(w, reports) else reports
    requires released == if Broken(w, reports) then s.released + Candidates(reports) else s.released
    ensures Gather(w, s) == s.(active := [], completed := s.completed + Sorted(queue), wave := reports,
                               order := Sorted(queue), released := released)
  {
  }

  lemma CandidatesTail(ms: seq<Member>, i: nat)
    requires i < |ms|
    ensures Candidates(ms[..i + 1])
            == Candidates(ms[..i]) + (if IsCandidate(ms[i]) then multiset{ms[i].child} else multiset{})
  {
    CandidatesAppend(ms[..i], [ms[i]]);
    assert [ms[i]][1..] == [];
    assert ms[..i + 1] == ms[..i] + [ms[i]];
  }

  // Each candidate a worker delivered has been landed or released, once.
  ghost predicate EachOnce(w: World, s: Loop) {
    forall c: Child :: s.landed[c] + s.released[c]
                       == if 0 < c.n <= s.children && w.worker(c).status == "candidate_ready" then 1 else 0
  }

  lemma LeftoversEachOnce(w: World, s: Loop)
    requires Conserved(w, s) && s.active == []
    ensures EachOnce(w, Leftovers(s))
  {
    forall c: Child
      ensures Leftovers(s).landed[c] + Leftovers(s).released[c]
              == if 0 < c.n <= s.children && w.worker(c).status == "candidate_ready" then 1 else 0
    {
      ExactlyOnce(w, s, c);
    }
  }

  lemma {:induction false} BrokenTail(w: World, wave: seq<Member>, m: Member)
    ensures Broken(w, wave + [m]) == (Broken(w, wave) || BreaksWave(w, m))
  {
    if wave == [] {
      assert (wave + [m])[1..] == [];
    } else {
      assert (wave + [m])[1..] == wave[1..] + [m];
      BrokenTail(w, wave[1..], m);
    }
  }

  // When a pass ends the loop no worker is left running.
  lemma NothingRuns(policy: Policy, w: World, s: Loop)
    requires Budgeted(policy, s) && !s.ended && Pass(policy, w, s).ended
    ensures Pass(policy, w, s).active == []
  {
    OpenedFrame(policy, w, s);
    NothingRunsFrom(policy, w, Opened(policy, w, s), TurnAt(w, s.pass));
    var p := Pull(policy, w, s);
    if p.member.Some? {
      SettleFrame(policy, w, p.loop, p.member.value);
    }
  }

  lemma NothingRunsFrom(policy: Policy, w: World, s: Loop, t: Turn)
    requires s.ended ==> s.active == []
    requires policy.parallelism == 1 ==> s.active == []
    ensures var p := PullFrom(policy, w, s, t);
            p.member.Some? || p.loop.ended ==> p.loop.active == []
  {
    if !s.ended && policy.parallelism != 1 {
      ParallelEmpties(policy, w, s, t);
    }
  }

  lemma ParallelEmpties(policy: Policy, w: World, s: Loop, t: Turn)
    requires !s.ended
    ensures var p := ParallelPull(policy, w, s, t);
            p.member.Some? || p.loop.ended ==> p.loop.active == []
  {
    var d := Dispatched(policy, s, t);
    DispatchedEmpties(policy, s, t);
    if !d.ended && !StillRunning(d) {
      CollectEmpties(policy, w, d);
    }
  }

  lemma DispatchedEmpties(policy: Policy, s: Loop, t: Turn)
    requires !s.ended
    ensures Dispatched(policy, s, t).ended ==> Dispatched(policy, s, t).active == []
  {
  }

  lemma CollectEmpties(policy: Policy, w: World, s: Loop)
    ensures Collect(policy, w, s).loop.active == []
  {
  }
}
