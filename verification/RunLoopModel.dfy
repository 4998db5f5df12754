/**
 * One pass of the supervisor's run loop as a function of the loop's variables and of what the
 * world answers: queue reads, worker results, landings, releases, stop files, the clock.
 */
module RunLoopModel {
  import opened Wrappers
  import opened QueueTypes

  // Statuses that stop the loop without a retry and without a block.
  const NON_RETRYABLE_LOOP: set<string> := {
    "queue_not_committed_to_base", "workspace_queue_stale", "cancelled_by_breaker",
    "landing_finalize_pending", "in_progress_exists", "global_stop_file"
  }

  const RETRYABLE_FAILURE: set<string> := {
    "builder_unavailable", "builder_timeout", "builder_failed", "review_red", "review_blocked"
  }

  const SUCCESSFUL_TERMINAL: set<string> := {
    "max_tasks_reached", "no_ready_task", "stop_file", "global_stop_file",
    "time_budget_exhausted", "queue_capacity_full"
  }

  type Positive = n: nat | n > 0 witness 1

  datatype Policy = Policy(
    maxTasks: Positive,              // effective_max_tasks
    parallelism: Positive,
    consecutive: Positive,           // consecutive_failures_before_stop
    sameTask: Positive,              // same_task_failures_before_block
    maxInProgress: nat,
    haltBeforeLanding: bool,
    directionEvery: nat)             // 0: no direction check after done tasks

  // A worker, by its sequence number in the loop.
  datatype Child = C(n: nat)

  datatype Result = Result(ok: bool, status: string, task: Option<TaskId>)

  datatype Findings = Findings(p0: nat, p1: nat)

  datatype Resumption = AlreadyPending | Resumed | ResumeFailed

  datatype Direction = Aligned | Drift | Stuck

  // What one pass of the loop reads before it has a result.
  datatype Turn = Turn(
    globalStop: bool, stopFile: bool, timeUp: bool,
    next: Option<string>,            // why queue.next has no task, if it has none
    summary: Option<string>,         // why the queue summary failed, if it failed
    inProgress: nat,
    ready: seq<TaskId>,              // all ready tasks, in queue order
    delay: nat)                      // passes until every worker of the new wave has ended

  // Everything the loop asks for. Workers end, so each wave has a finite delay.
  datatype World = World(
    turn: nat -> Turn,
    worker: Child -> Result,         // what the worker, or run_one, reports
    findings: Child -> Findings,     // in its review.yaml
    releases: Child -> bool,         // whether releasing its claim succeeds
    landing: Child -> Result,
    dirty: Child -> bool,
    resume: Child -> Resumption,
    pendingAfter: Child -> bool,     // its task is read back as pending
    direction: Child -> Direction)

  datatype Attempt = Attempt(child: Child, task: TaskId)

  datatype Member = Member(child: Child, result: Result)

  // run.yaml's own counters
  datatype Summary = Summary(done: nat, blocked: nat, failuresInRow: nat, p0: nat, p1: nat)

  datatype Loop = Loop(
    pass: nat,
    done: nat,
    blocked: nat,
    failuresInRow: nat,
    failures: map<TaskId, nat>,      // task_failures
    active: seq<Attempt>,
    waiting: nat,                    // passes left until the active wave has ended
    completed: seq<Member>,
    children: nat,
    outcomes: seq<Member>,
    stopped: bool,                   // dispatch_stopped
    reason: string,
    ended: bool,
    summary: Summary,
    // history
    wave: seq<Member>,               // the latest wave as its workers reported
    order: seq<Member>,              // the same wave as queued for processing
    scheduled: map<TaskId, nat>,     // retries scheduled
    landed: multiset<Child>,
    released: multiset<Child>)

  const START: Loop :=
    Loop(0, 0, 0, 0, map[], [], 0, [], 0, [], false, "max_tasks_reached", false, Summary(0, 0, 0, 0, 0),
         [], [], map[], multiset{}, multiset{})

  function Get(m: map<TaskId, nat>, t: TaskId): nat {
    if t in m then m[t] else 0
  }

  predicate Guard(policy: Policy, s: Loop) {
    s.done + s.blocked < policy.maxTasks || s.active != [] || s.completed != []
  }

  // ------------------------------------------------------------- stop conditions

  function Halt(policy: Policy, s: Loop, present: bool, reason: string): Loop {
    if s.ended || !present then s
    else s.(reason := if s.stopped then s.reason else reason,
            stopped := true,
            ended := policy.parallelism == 1)
  }

  function ReadStops(policy: Policy, s: Loop, t: Turn): Loop {
    var a := Halt(policy, s, t.globalStop, "global_stop_file");
    var b := Halt(policy, a, t.stopFile, "stop_file");
    Halt(policy, b, t.timeUp, "time_budget_exhausted")
  }

  // ------------------------------------------------------------- waves

  function Min(a: int, b: int): int {
    if a <= b then a else b
  }

  function Spawned(tasks: seq<TaskId>, first: nat): seq<Attempt> {
    seq(|tasks|, i requires 0 <= i < |tasks| => Attempt(C(first + i), tasks[i]))
  }

  function DispatchLimit(policy: Policy, s: Loop, t: Turn): int {
    var slots := if policy.maxInProgress > t.inProgress then policy.maxInProgress - t.inProgress else 0;
    Min(policy.parallelism, Min(policy.maxTasks - s.done - s.blocked, slots))
  }

  // Starts a wave, or ends the loop for want of work or room.
  function Dispatch(policy: Policy, s: Loop, t: Turn): Loop {
    var limit := DispatchLimit(policy, s, t);
    if t.summary.Some? then s.(reason := t.summary.value, ended := true)
    else if limit <= 0 then s.(reason := "queue_capacity_full", ended := true)
    else if t.ready == [] then s.(reason := "no_ready_task", ended := true)
    else
      var tasks := t.ready[..Min(limit, |t.ready|)];
      s.(active := Spawned(tasks, s.children + 1), waiting := t.delay, children := s.children + |tasks|)
  }

  function Reported(w: World, a: Attempt): Member {
    var r := w.worker(a.child);
    Member(a.child, if r.task.None? then r.(task := Some(a.task)) else r)
  }

  function Reports(w: World, active: seq<Attempt>): seq<Member> {
    seq(|active|, i requires 0 <= i < |active| => Reported(w, active[i]))
  }

  function FindingsOf(w: World, m: Member): Findings {
    if m.result.task.None? then Findings(0, 0) else w.findings(m.child)
  }

  // A failed member with a P0 or P1 finding breaks the wave.
  predicate BreaksWave(w: World, m: Member) {
    !m.result.ok && FindingsOf(w, m).p0 + FindingsOf(w, m).p1 > 0
  }

  predicate Broken(w: World, wave: seq<Member>) {
    wave != [] && (BreaksWave(w, wave[0]) || Broken(w, wave[1..]))
  }

  predicate IsCandidate(m: Member) {
    m.result.status == "candidate_ready"
  }

  function Cancelled(w: World, m: Member): Member {
    m.(result := Result(false, if w.releases(m.child) then "cancelled_by_breaker" else "worker_needs_reconcile",
                        m.result.task))
  }

  function CancelCandidates(w: World, wave: seq<Member>): seq<Member> {
    seq(|wave|, i requires 0 <= i < |wave| => if IsCandidate(wave[i]) then Cancelled(w, wave[i]) else wave[i])
  }

  // The children whose member is a candidate.
  function Candidates(wave: seq<Member>): multiset<Child> {
    if wave == [] then multiset{}
    else (if IsCandidate(wave[0]) then multiset{wave[0].child} else multiset{}) + Candidates(wave[1..])
  }

  // Failures first, breaker cancellations last.
  function Key(m: Member): nat {
    if m.result.status == "cancelled_by_breaker" then 2 else if m.result.ok then 1 else 0
  }

  function Only(wave: seq<Member>, key: nat): seq<Member> {
    if wave == [] then []
    else (if Key(wave[0]) == key then [wave[0]] else []) + Only(wave[1..], key)
  }

  function Sorted(wave: seq<Member>): seq<Member> {
    Only(wave, 0) + Only(wave, 1) + Only(wave, 2)
  }

  function Gather(w: World, s: Loop): Loop {
    var wave := Reports(w, s.active);
    var broken := Broken(w, wave);
    var queue := Sorted(if broken then CancelCandidates(w, wave) else wave);
    s.(active := [],
       completed := s.completed + queue,
       wave := wave,
       order := queue,
       released := if broken then s.released + Candidates(wave) else s.released)
  }

  // ------------------------------------------------------------- one outcome

  datatype Verdict = Verdict(blocked: bool, stop: bool, retried: bool, reason: string, failures: map<TaskId, nat>)

  function Failed(failures: map<TaskId, nat>, t: TaskId): map<TaskId, nat> {
    failures[t := Get(failures, t) + 1]
  }

  // Why a failed outcome stops the loop or blocks its task.
  function Classify(policy: Policy, w: World, s: Loop, m: Member): Verdict {
    var status, f := m.result.status, s.failures;
    var retryable := status in RETRYABLE_FAILURE;
    var last := s.failuresInRow + 1 >= policy.consecutive;
    if status in NON_RETRYABLE_LOOP || m.result.task.None? then Verdict(false, true, false, status, f)
    else
      var t := m.result.task.value;
      if FindingsOf(w, m).p0 > 0 || FindingsOf(w, m).p1 > 0 then
        Verdict(true, true, false, "blocking_findings", Failed(f, t))
      else if w.dirty(m.child) then
        if retryable && !last then Verdict(true, false, false, s.reason, Failed(f, t))
        else Verdict(true, true, false, "failed_worktree_dirty", Failed(f, t))
      else if last then Verdict(true, true, false, "consecutive_failures_stop", Failed(f, t))
      else if !retryable then Verdict(true, false, false, s.reason, f)
      else Verdict(true, false, false, s.reason, Failed(f, t))
  }

  // A retryable failure within its task's budget puts the task back.
  function Retry(policy: Policy, w: World, m: Member, v: Verdict): Verdict {
    if m.result.status in RETRYABLE_FAILURE && m.result.task.Some? && !v.stop
       && Get(v.failures, m.result.task.value) < policy.sameTask
    then
      if w.resume(m.child) != ResumeFailed then v.(blocked := false, retried := true)
      else v.(reason := "retry_resume_failed", stop := true)
    else v
  }

  function Judge(policy: Policy, w: World, s: Loop, m: Member): Verdict {
    var failed := if m.result.ok then Verdict(false, false, false, s.reason, s.failures)
                  else Retry(policy, w, m, Classify(policy, w, s, m));
    var operational :=
      if !m.result.ok && failed.blocked && !failed.retried && m.result.task.Some? && w.pendingAfter(m.child)
      then failed.(blocked := false, stop := true, reason := m.result.status)
      else failed;
    if m.result.status == "cancelled_by_breaker" && s.stopped
    then operational.(blocked := false, stop := true, reason := s.reason)
    else operational
  }

  function Recorded(w: World, y: Summary, m: Member, blocked: bool): Summary {
    var f := FindingsOf(w, m);
    var found := y.(p0 := y.p0 + f.p0, p1 := y.p1 + f.p1);
    if m.result.ok then found.(done := y.done + 1, failuresInRow := 0)
    else found.(failuresInRow := y.failuresInRow + 1, blocked := y.blocked + (if blocked then 1 else 0))
  }

  function DirectionStop(policy: Policy, w: World, s: Loop, c: Child): Loop {
    if policy.directionEvery > 0 && s.done % policy.directionEvery == 0 && w.direction(c) != Aligned
    then s.(reason := if w.direction(c) == Drift then "direction_drift" else "direction_blocked", ended := true)
    else s
  }

  function Bump(m: map<TaskId, nat>, t: Option<TaskId>, retried: bool): map<TaskId, nat> {
    if retried && t.Some? then m[t.value := Get(m, t.value) + 1] else m
  }

  // The loop's counters after the outcome is recorded.
  function Counted(policy: Policy, w: World, s: Loop, m: Member, blocked: bool, stop: bool): Loop {
    if m.result.ok then DirectionStop(policy, w, s.(done := s.done + 1, failuresInRow := 0), m.child)
    else s.(blocked := s.blocked + (if blocked then 1 else 0), failuresInRow := s.failuresInRow + 1, ended := stop)
  }

  // The outcome judged and recorded in run.yaml.
  function Judged(w: World, s: Loop, m: Member, v: Verdict): Loop {
    s.(outcomes := s.outcomes + [m], reason := v.reason, failures := v.failures,
       scheduled := Bump(s.scheduled, m.result.task, v.retried),
       summary := Recorded(w, s.summary, m, v.blocked))
  }

  function Settle(policy: Policy, w: World, s: Loop, m: Member): Loop {
    var v := Judge(policy, w, s, m);
    Counted(policy, w, Judged(w, s, m, v), m, v.blocked, v.stop)
  }

  // ------------------------------------------------------------- one pass

  // A pass up to its outcome, if it comes to one.
  datatype Pulled = Pulled(loop: Loop, member: Option<Member>)

  // The first completed worker: land it, or release it on the way down.
  function Take(policy: Policy, w: World, s: Loop): Pulled
    requires s.completed != []
  {
    var m := s.completed[0];
    var rest := s.(completed := s.completed[1..]);
    if !IsCandidate(m) then Pulled(rest, Some(m))
    else if s.stopped && policy.haltBeforeLanding then
      Pulled(rest.(released := s.released + multiset{m.child}), Some(Cancelled(w, m)))
    else
      Pulled(rest.(landed := s.landed + multiset{m.child}),
             Some(m.(result := w.landing(m.child).(task := m.result.task))))
  }

  function SerialPull(w: World, s: Loop, t: Turn): Pulled {
    if t.next.Some? then Pulled(s.(reason := t.next.value, ended := true), None)
    else
      var child := C(s.children + 1);
      Pulled(s.(children := s.children + 1), Some(Member(child, w.worker(child))))
  }

  // Dispatch a wave if none is under way.
  function Dispatched(policy: Policy, s: Loop, t: Turn): Loop {
    if s.active == [] && s.completed == [] && !s.stopped then Dispatch(policy, s, t) else s
  }

  predicate StillRunning(s: Loop) {
    s.active != [] && s.waiting > 0
  }

  // Gather the wave if it has ended, and take the first result.
  function Collect(policy: Policy, w: World, s: Loop): Pulled {
    var g := if s.active != [] then Gather(w, s) else s;
    if g.completed == [] then Pulled(g.(ended := g.stopped), None) else Take(policy, w, g)
  }

  function ParallelPull(policy: Policy, w: World, s: Loop, t: Turn): Pulled {
    var d := Dispatched(policy, s, t);
    if d.ended then Pulled(d, None)
    else if StillRunning(d) then Pulled(d.(waiting := d.waiting - 1), None)
    else Collect(policy, w, d)
  }

  function TurnAt(w: World, pass: nat): Turn {
    w.turn(pass)
  }

  // The loop condition.
  function Begun(policy: Policy, s: Loop): Loop {
    var s0 := s.(pass := s.pass + 1);
    if Guard(policy, s) then s0 else s0.(reason := "max_tasks_reached", ended := true)
  }

  // The head of a pass: the loop condition and, if the loop goes on, the stop conditions.
  function Opened(policy: Policy, w: World, s: Loop): Loop {
    ReadStops(policy, Begun(policy, s), TurnAt(w, s.pass))
  }

  function PullFrom(policy: Policy, w: World, s: Loop, t: Turn): Pulled {
    if s.ended then Pulled(s, None)
    else if policy.parallelism == 1 then SerialPull(w, s, t)
    else ParallelPull(policy, w, s, t)
  }

  function Pull(policy: Policy, w: World, s: Loop): Pulled {
    PullFrom(policy, w, Opened(policy, w, s), TurnAt(w, s.pass))
  }

  function Pass(policy: Policy, w: World, s: Loop): Loop {
    var p := Pull(policy, w, s);
    if p.member.Some? then Settle(policy, w, p.loop, p.member.value) else p.loop
  }

  // After the loop: candidates nobody landed are released.
  function Leftovers(s: Loop): Loop {
    s.(released := s.released + Candidates(s.completed))
  }
}
