/**
 * When an outcome stops the loop, puts its task back or counts it as blocked, in terms of its
 * status, its findings, its worktree and the budgets; and what that makes of whole runs.
 */
module RunLoopVerdicts {
  import opened QueueTypes
  import opened RunLoopModel
  import opened RunLoopLaws

  // Failures that a fresh attempt may not meet again.
  predicate Transient(status: string) {
    || status == "builder_unavailable" || status == "builder_timeout" || status == "builder_failed"
    || status == "review_red" || status == "review_blocked"
  }

  // Failures that are not about the task.
  predicate Operational(status: string) {
    || status == "queue_not_committed_to_base" || status == "workspace_queue_stale"
    || status == "cancelled_by_breaker" || status == "landing_finalize_pending"
    || status == "in_progress_exists" || status == "global_stop_file"
  }

  // The outcome says nothing about a task.
  predicate Taskless(m: Member) {
    Operational(m.result.status) || m.result.task.None?
  }

  // A task was worked on and its review has a P0 or P1 finding.
  predicate Severe(w: World, m: Member) {
    !Taskless(m) && w.findings(m.child).p0 + w.findings(m.child).p1 > 0
  }

  // The consecutive-failure budget allows no failure after this one.
  predicate LastAllowed(policy: Policy, s: Loop) {
    s.failuresInRow + 1 >= policy.consecutive
  }

  // A transient failure that leaves the loop and the task room for another attempt.
  predicate Retryable(policy: Policy, w: World, s: Loop, m: Member) {
    && Transient(m.result.status) && m.result.task.Some? && !Severe(w, m) && !LastAllowed(policy, s)
    && Get(s.failures, m.result.task.value) + 1 < policy.sameTask
  }

  predicate PutBack(policy: Policy, w: World, s: Loop, m: Member) {
    Retryable(policy, w, s, m) && w.resume(m.child) != ResumeFailed
  }

  // The task turns out to be pending although nobody put it back.
  predicate Unblocked(policy: Policy, w: World, s: Loop, m: Member) {
    !Taskless(m) && !PutBack(policy, w, s, m) && w.pendingAfter(m.child)
  }

  predicate CountsBlocked(policy: Policy, w: World, s: Loop, m: Member) {
    !Taskless(m) && !PutBack(policy, w, s, m) && !w.pendingAfter(m.child)
  }

  // A worktree that nobody will retry in is left dirty.
  predicate Spoilt(policy: Policy, w: World, s: Loop, m: Member) {
    w.dirty(m.child) && (!Transient(m.result.status) || LastAllowed(policy, s))
  }

  predicate Stops(policy: Policy, w: World, s: Loop, m: Member) {
    || Taskless(m) || Severe(w, m) || Spoilt(policy, w, s, m) || LastAllowed(policy, s)
    || (Retryable(policy, w, s, m) && w.resume(m.child) == ResumeFailed)
    || Unblocked(policy, w, s, m)
  }

  // Why the loop says it stops, the first reason that applies; a stop that was already under
  // way keeps its reason when it cancels a candidate, and so does a loop that goes on.
  function Reason(policy: Policy, w: World, s: Loop, m: Member): string {
    if m.result.status == "cancelled_by_breaker" && s.stopped then s.reason
    else if Taskless(m) || Unblocked(policy, w, s, m) then m.result.status
    else if Severe(w, m) then "blocking_findings"
    else if Spoilt(policy, w, s, m) then "failed_worktree_dirty"
    else if LastAllowed(policy, s) then "consecutive_failures_stop"
    else if Retryable(policy, w, s, m) && w.resume(m.child) == ResumeFailed then "retry_resume_failed"
    else s.reason
  }

  // A failure is counted against its task, except one that no retry can cure and that neither
  // stops the loop nor dirties its worktree.
  predicate CountsAgainstTask(policy: Policy, w: World, s: Loop, m: Member) {
    !Taskless(m) && (Transient(m.result.status) || Severe(w, m) || w.dirty(m.child) || LastAllowed(policy, s))
  }

  function FailuresAfter(policy: Policy, w: World, s: Loop, m: Member): map<TaskId, nat> {
    if CountsAgainstTask(policy, w, s, m)
    then s.failures[m.result.task.value := Get(s.failures, m.result.task.value) + 1] else s.failures
  }

  // The verdict on a failed outcome.
  predicate Fits(policy: Policy, w: World, s: Loop, m: Member, v: Verdict) {
    && (v.stop <==> Stops(policy, w, s, m))
    && (v.retried <==> PutBack(policy, w, s, m))
    && (v.blocked <==> CountsBlocked(policy, w, s, m))
    && v.reason == Reason(policy, w, s, m)
    && v.failures == FailuresAfter(policy, w, s, m)
  }

  lemma StatusLists(status: string)
    ensures status in NON_RETRYABLE_LOOP <==> Operational(status)
    ensures status in RETRYABLE_FAILURE <==> Transient(status)
    ensures !(Operational(status) && Transient(status))
  {
  }

  lemma JudgeTaskless(policy: Policy, w: World, s: Loop, m: Member)
    requires !m.result.ok && Taskless(m)
    ensures Fits(policy, w, s, m, Judge(policy, w, s, m))
  {
    StatusLists(m.result.status);
  }

  lemma JudgeTransient(policy: Policy, w: World, s: Loop, m: Member)
    requires !m.result.ok && !Taskless(m) && Transient(m.result.status)
    ensures Fits(policy, w, s, m, Judge(policy, w, s, m))
  {
    StatusLists(m.result.status);
    if Severe(w, m) || LastAllowed(policy, s) {
      JudgeStopped(policy, w, s, m);
    } else {
      JudgeRetried(policy, w, s, m);
    }
  }

  lemma JudgeStopped(policy: Policy, w: World, s: Loop, m: Member)
    requires !m.result.ok && !Taskless(m) && Transient(m.result.status)
    requires Severe(w, m) || LastAllowed(policy, s)
    ensures Fits(policy, w, s, m, Judge(policy, w, s, m))
  {
    StatusLists(m.result.status);
  }

  lemma JudgeRetried(policy: Policy, w: World, s: Loop, m: Member)
    requires !m.result.ok && !Taskless(m) && Transient(m.result.status)
    requires !Severe(w, m) && !LastAllowed(policy, s)
    ensures Fits(policy, w, s, m, Judge(policy, w, s, m))
  {
    StatusLists(m.result.status);
  }

  lemma JudgeLasting(policy: Policy, w: World, s: Loop, m: Member)
    requires !m.result.ok && !Taskless(m) && !Transient(m.result.status)
    ensures Fits(policy, w, s, m, Judge(policy, w, s, m))
  {
    StatusLists(m.result.status);
  }

  // When a failed outcome stops the loop and why, when its task is put back, when it counts
  // as blocked, and when the failure is counted against the task.
  lemma JudgeFits(policy: Policy, w: World, s: Loop, m: Member)
    requires !m.result.ok
    ensures Fits(policy, w, s, m, Judge(policy, w, s, m))
  {
    if Taskless(m) {
      JudgeTaskless(policy, w, s, m);
    } else if Transient(m.result.status) {
      JudgeTransient(policy, w, s, m);
    } else {
      JudgeLasting(policy, w, s, m);
    }
  }

  // A success is no reason for anything.
  lemma JudgeSuccess(policy: Policy, w: World, s: Loop, m: Member)
    requires m.result.ok
    ensures var v := Judge(policy, w, s, m);
            !v.blocked && !v.retried && v.reason == s.reason && v.failures == s.failures
  {
  }

  // The reasons that are no failure of the run.
  predicate Orderly(reason: string) {
    || reason == "max_tasks_reached" || reason == "no_ready_task" || reason == "stop_file"
    || reason == "global_stop_file" || reason == "time_budget_exhausted" || reason == "queue_capacity_full"
  }

  lemma OrderlyReasons(reason: string)
    ensures reason in SUCCESSFUL_TERMINAL <==> Orderly(reason)
  {
  }

  // ------------------------------------------------------------- the loop afterwards

  function Found(w: World, m: Member): Findings {
    if m.result.task.Some? then w.findings(m.child) else Findings(0, 0)
  }

  // A failed outcome processed: every variable of the loop, and run.yaml's counters.
  lemma FailureSettled(policy: Policy, w: World, s: Loop, m: Member)
    requires !m.result.ok
    ensures var s' := Settle(policy, w, s, m);
            var one := if CountsBlocked(policy, w, s, m) then 1 else 0;
            && s'.ended == Stops(policy, w, s, m) && s'.reason == Reason(policy, w, s, m)
            && s'.blocked == s.blocked + one && s'.failuresInRow == s.failuresInRow + 1
            && s'.failures == FailuresAfter(policy, w, s, m)
            && s'.outcomes == s.outcomes + [m]
            && s'.scheduled == (if PutBack(policy, w, s, m)
                                then s.scheduled[m.result.task.value := Get(s.scheduled, m.result.task.value) + 1]
                                else s.scheduled)
            && s'.summary == Summary(s.summary.done, s.summary.blocked + one, s.summary.failuresInRow + 1,
                                     s.summary.p0 + Found(w, m).p0, s.summary.p1 + Found(w, m).p1)
            && SameElse(s, s') && s'.done == s.done
  {
    JudgeFits(policy, w, s, m);
  }

  // What no outcome changes.
  predicate SameElse(s: Loop, s': Loop) {
    && s'.pass == s.pass && s'.active == s.active && s'.waiting == s.waiting && s'.completed == s.completed
    && s'.children == s.children && s'.stopped == s.stopped && s'.wave == s.wave && s'.order == s.order
    && s'.landed == s.landed && s'.released == s.released
  }

  // The direction check falls due and does not find the project on course.
  predicate OffCourse(policy: Policy, w: World, done: nat, c: Child) {
    policy.directionEvery > 0 && done % policy.directionEvery == 0 && w.direction(c) != Aligned
  }

  lemma SuccessSettled(policy: Policy, w: World, s: Loop, m: Member)
    requires m.result.ok
    ensures var s' := Settle(policy, w, s, m);
            var off := OffCourse(policy, w, s.done + 1, m.child);
            && s'.ended == (s.ended || off)
            && s'.reason == (if !off then s.reason
                             else if w.direction(m.child) == Stuck then "direction_blocked" else "direction_drift")
            && s'.done == s.done + 1 && s'.failuresInRow == 0
            && s'.outcomes == s.outcomes + [m]
            && s'.summary == Summary(s.summary.done + 1, s.summary.blocked, 0,
                                     s.summary.p0 + Found(w, m).p0, s.summary.p1 + Found(w, m).p1)
            && SameElse(s, s') && s'.blocked == s.blocked && s'.failures == s.failures && s'.scheduled == s.scheduled
  {
    JudgeSuccess(policy, w, s, m);
  }

  // ------------------------------------------------------------- whole runs

  // A failure after which the loop never goes on.
  predicate Fatal(w: World, m: Member) {
    !m.result.ok && (Taskless(m) || Severe(w, m))
  }

  predicate FatalIsLast(w: World, s: Loop) {
    forall i :: 0 <= i < |s.outcomes| && Fatal(w, s.outcomes[i]) ==> s.ended && i == |s.outcomes| - 1
  }

  // How many outcomes are successes, how many failures end the list, and their findings.
  function Successes(ms: seq<Member>): nat {
    if ms == [] then 0 else Successes(ms[..|ms| - 1]) + (if ms[|ms| - 1].result.ok then 1 else 0)
  }

  function Trailing(ms: seq<Member>): nat {
    if ms == [] || ms[|ms| - 1].result.ok then 0 else Trailing(ms[..|ms| - 1]) + 1
  }

  function AllFound(w: World, ms: seq<Member>): Findings {
    if ms == [] then Findings(0, 0)
    else
      var f, g := AllFound(w, ms[..|ms| - 1]), Found(w, ms[|ms| - 1]);
      Findings(f.p0 + g.p0, f.p1 + g.p1)
  }

  // The counters tell the outcomes so far.
  predicate Tallied(w: World, s: Loop) {
    && s.done == s.summary.done == Successes(s.outcomes)
    && s.failuresInRow == s.summary.failuresInRow == Trailing(s.outcomes)
    && Findings(s.summary.p0, s.summary.p1) == AllFound(w, s.outcomes)
  }

  predicate Told(w: World, s: Loop) {
    FatalIsLast(w, s) && Tallied(w, s)
  }

  lemma SettleTold(policy: Policy, w: World, s: Loop, m: Member)
    requires Told(w, s) && !s.ended
    ensures Told(w, Settle(policy, w, s, m))
  {
    assert (s.outcomes + [m])[..|s.outcomes|] == s.outcomes;
    if m.result.ok {
      SuccessSettled(policy, w, s, m);
    } else {
      FailureSettled(policy, w, s, m);
    }
  }

  lemma SameCountersTold(w: World, a: Loop, b: Loop)
    requires Told(w, a) && !a.ended && SameCounters(a, b)
    ensures Told(w, b)
  {
  }

  // A loop that has a member in hand has not ended.
  lemma CollectGoesOn(policy: Policy, w: World, s: Loop)
    ensures Collect(policy, w, s).member.Some? ==> Collect(policy, w, s).loop.ended == s.ended
  {
  }

  lemma PullGoesOn(policy: Policy, w: World, s: Loop, t: Turn)
    ensures PullFrom(policy, w, s, t).member.Some? ==> !PullFrom(policy, w, s, t).loop.ended
  {
    if !s.ended && policy.parallelism != 1 {
      CollectGoesOn(policy, w, Dispatched(policy, s, t));
    }
  }

  lemma PassTold(policy: Policy, w: World, s: Loop)
    requires Told(w, s) && !s.ended
    ensures Told(w, Pass(policy, w, s))
  {
    var p := Pull(policy, w, s);
    PullCounters(policy, w, s);
    PullGoesOn(policy, w, Opened(policy, w, s), TurnAt(w, s.pass));
    SameCountersTold(w, s, p.loop);
    if p.member.Some? {
      SettleTold(policy, w, p.loop, p.member.value);
    }
  }

  lemma {:induction false} EveryStateTold(policy: Policy, w: World, n: nat)
    ensures Told(w, After(policy, w, n))
  {
    if n > 0 {
      EveryStateTold(policy, w, n - 1);
      if !After(policy, w, n - 1).ended {
        PassTold(policy, w, After(policy, w, n - 1));
      }
    }
  }

  // A failed outcome whose task's review has a P0 or P1 finding is the last outcome of its
  // run, and so is one that is not about a task, whatever the mode and the budgets.
  lemma FatalOutcomeIsLast(policy: Policy, w: World, n: nat, i: nat)
    requires i < |After(policy, w, n).outcomes|
    requires var m := After(policy, w, n).outcomes[i];
             !m.result.ok && (Taskless(m) || w.findings(m.child).p0 + w.findings(m.child).p1 > 0)
    ensures After(policy, w, n).ended && i == |After(policy, w, n).outcomes| - 1
    ensures After(policy, w, n + 1) == After(policy, w, n)
  {
    EveryStateTold(policy, w, n);
    assert Fatal(w, After(policy, w, n).outcomes[i]);
  }

  // In every run the loop's counters and run.yaml's are those of the outcomes so far.
  lemma CountersTellOutcomes(policy: Policy, w: World, n: nat)
    ensures Tallied(w, After(policy, w, n))
  {
    EveryStateTold(policy, w, n);
  }
}
