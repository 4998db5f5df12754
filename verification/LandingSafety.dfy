/** What landing and recovery keep over every interleaving of steps, crashes and outsiders. */
module LandingSafety {
  import opened Wrappers
  import opened Commits
  import opened QueueTypes
  import opened QueueModel
  import opened QueueInvariants
  import opened LandingModel

  predicate OnRemote(s: System, c: Commit) {
    s.remote.Some? && IsAncestor(c, s.remote.value)
  }

  predicate TaskDone(s: System, run: RunId) {
    && run in s.runs && s.runs[run].task in s.queue.tasks
    && s.queue.tasks[s.runs[run].task].status == Done
  }

  predicate LedgerOk(s: System, run: RunId)
    requires run in s.ledgers
  {
    var l := s.ledgers[run];
    && run in s.runs
    && l.lease == s.runs[run].lease
    && s.runs[run].status != CandidateReady
    && IsAncestor(l.expected, l.candidate)
    && (l.state != Prepared ==> IsAncestor(l.candidate, s.ref))
    && (!l.pushRequired ==> l.pushed)
    && (l.pushRequired && l.pushed ==> OnRemote(s, l.candidate))
    && (l.state == QueueFinalized ==> l.pushed && TaskDone(s, run))
  }

  predicate MoveOk(s: System, m: Move) {
    && IsAncestor(m.from, m.to)
    && (m.lander.Some? ==>
          && m.lander.value in s.runs
          && m.to in s.verified
          && (m.from != s.runs[m.lander.value].start ==> Diff(m.to, m.from) in s.reviewed))
  }

  // Each move starts where the previous one ended, and the last one ended at the ref.
  predicate Chained(moves: seq<Move>, ref: Commit) {
    && (moves != [] ==> moves[|moves| - 1].to == ref)
    && (forall i, j :: 0 <= i && j == i + 1 < |moves| ==> moves[i].to == moves[j].from)
  }

  predicate CompletionOk(s: System, c: Completion) {
    && c.run in s.runs && s.runs[c.run].task == c.task
    && IsAncestor(c.candidate, s.ref)
    && c.lease.revision.Some?
    && c.task in s.queue.tasks
    && s.queue.tasks[c.task].revision > c.lease.revision.value
  }

  predicate SameClaim(a: Completion, b: Completion) {
    a.task == b.task && a.lease == b.lease
  }

  predicate Fresh(s: System, run: RunId) {
    run in s.ledgers ==> s.ledgers[run].state == Prepared
  }

  // The in-memory ledger is the one on disk.
  predicate OnDisk(s: System, run: RunId, l: Ledger) {
    run in s.ledgers && s.ledgers[run] == l
  }

  predicate Judged(s: System, run: RunId, expected: Commit, candidate: Commit)
    requires run in s.runs
  {
    && IsAncestor(expected, candidate)
    && s.runs[run].status != CandidateReady
    && candidate in s.verified
    && (expected != s.runs[run].start ==> Diff(candidate, expected) in s.reviewed)
  }

  predicate ExamineOk(s: System, run: RunId, step: Step)
    requires run in s.runs
  {
    Fresh(s, run) &&
    match step
    case Rebase(expected) => IsAncestor(s.runs[run].start, expected)
    case ReadHead(expected) => IsAncestor(expected, s.runs[run].head)
    case MarkVerifying(expected, candidate) => IsAncestor(expected, candidate)
    case Verify(expected, candidate) => IsAncestor(expected, candidate) && s.runs[run].status != CandidateReady
    case Safety(expected, candidate) =>
      IsAncestor(expected, candidate) && s.runs[run].status != CandidateReady && candidate in s.verified
    case Review(expected, candidate) =>
      IsAncestor(expected, candidate) && s.runs[run].status != CandidateReady && candidate in s.verified
    case _ => true
  }

  predicate CommitOk(s: System, run: RunId, step: Step)
    requires run in s.runs
  {
    match step
    case WritePrepared(expected, candidate) => Fresh(s, run) && Judged(s, run, expected, candidate)
    case Cas(l) =>
      OnDisk(s, run, l) && l.state == Prepared && l.pushRequired == s.push && Judged(s, run, l.expected, l.candidate)
    case WriteIntegrated(l) =>
      OnDisk(s, run, l) && l.state == Prepared && l.pushRequired == s.push && IsAncestor(l.candidate, s.ref)
    case Push(l) => OnDisk(s, run, l) && l.state == Integrated && l.pushRequired == s.push
    case WritePushed(l) =>
      OnDisk(s, run, l) && l.state == Integrated && l.pushRequired == s.push && OnRemote(s, l.candidate)
    case FinishTask(l) => OnDisk(s, run, l) && l.state == Integrated && l.pushRequired == s.push && l.pushed
    case MarkDone(l) => OnDisk(s, run, l) && l.state == Integrated && l.pushed && TaskDone(s, run)
    case WriteFinalized(l) => OnDisk(s, run, l) && l.state == Integrated && l.pushed && TaskDone(s, run)
    case MarkPending => run in s.ledgers && s.ledgers[run].state == Integrated
    case _ => true
  }

  predicate RecoverOk(s: System, run: RunId, step: Step)
    requires run in s.runs
  {
    match step
    case RecoverIntegrated(l) => OnDisk(s, run, l) && l.state != QueueFinalized && IsAncestor(l.candidate, s.ref)
    case RecoverPush(l) => OnDisk(s, run, l) && l.state == Integrated
    case RecoverPushed(l) => OnDisk(s, run, l) && l.state == Integrated && OnRemote(s, l.candidate)
    case RecoverPeek(l) => OnDisk(s, run, l) && l.state == Integrated && l.pushed
    case RecoverFinish(l) => OnDisk(s, run, l) && l.state == Integrated && l.pushed
    case RecoverMark(l) => OnDisk(s, run, l) && l.state == Integrated && l.pushed && TaskDone(s, run)
    case RecoverFinalized(l) => OnDisk(s, run, l) && l.state == Integrated && l.pushed && TaskDone(s, run)
    case _ => true
  }

  predicate SupervisorOk(s: System) {
    s.sup.Working? ==>
      && s.sup.run in s.runs
      && (IsExamine(s.sup.step) ==> ExamineOk(s, s.sup.run, s.sup.step))
      && (IsCommit(s.sup.step) ==> CommitOk(s, s.sup.run, s.sup.step))
      && (IsRecover(s.sup.step) ==> RecoverOk(s, s.sup.run, s.sup.step))
  }

  predicate RunsOk(s: System) {
    forall r :: r in s.runs ==> IsAncestor(s.runs[r].start, s.runs[r].head) && IsAncestor(s.runs[r].start, s.ref)
  }

  predicate LedgersOk(s: System) {
    forall r :: r in s.ledgers ==> LedgerOk(s, r)
  }

  predicate HistoryOk(s: System) {
    && (forall i :: 0 <= i < |s.moves| ==> MoveOk(s, s.moves[i]))
    && Chained(s.moves, s.ref)
    && (forall i :: 0 <= i < |s.completions| ==> CompletionOk(s, s.completions[i]))
    && (forall i, j :: 0 <= i < j < |s.completions| ==> !SameClaim(s.completions[i], s.completions[j]))
  }

  // The durable part of the invariant.
  predicate DataOk(s: System) {
    RunsOk(s) && LedgersOk(s) && HistoryOk(s)
  }

  predicate Inv(s: System) {
    DataOk(s) && SupervisorOk(s)
  }

  // ------------------------------------------------ what only ever grows

  predicate RunKept(a: ChildRun, b: ChildRun) {
    && b.task == a.task && b.lease == a.lease && b.start == a.start
    && (a.status != CandidateReady ==> b.status != CandidateReady)
  }

  predicate TaskKept(a: Task, b: Task) {
    (a.status == Done ==> b.status == Done) && a.revision <= b.revision
  }

  predicate QueueKept(a: Queue, b: Queue) {
    forall t :: t in a.tasks ==> t in b.tasks && TaskKept(a.tasks[t], b.tasks[t])
  }

  predicate RunsKept(a: System, b: System) {
    forall r :: r in a.runs ==> r in b.runs && RunKept(a.runs[r], b.runs[r])
  }

  // The part of the state that no step takes back.
  predicate Grows(a: System, b: System) {
    && IsAncestor(a.ref, b.ref)
    && (a.remote.Some? ==> b.remote.Some? && IsAncestor(a.remote.value, b.remote.value))
    && a.verified <= b.verified && a.reviewed <= b.reviewed
    && RunsKept(a, b)
    && QueueKept(a.queue, b.queue)
  }

  lemma StillContains(a: System, b: System, c: Commit)
    requires Grows(a, b)
    ensures IsAncestor(c, a.ref) ==> IsAncestor(c, b.ref)
    ensures OnRemote(a, c) ==> OnRemote(b, c)
  {
    if IsAncestor(c, a.ref) {
      AncestorTransitive(c, a.ref, b.ref);
    }
    if OnRemote(a, c) {
      AncestorTransitive(c, a.remote.value, b.remote.value);
    }
  }

  lemma LedgerSurvives(a: System, b: System, r: RunId)
    requires Grows(a, b) && r in a.ledgers && LedgerOk(a, r)
    requires r in b.ledgers && b.ledgers[r] == a.ledgers[r]
    ensures LedgerOk(b, r)
  {
    StillContains(a, b, a.ledgers[r].candidate);
  }

  lemma MovesSurvive(a: System, b: System)
    requires Grows(a, b) && forall i :: 0 <= i < |a.moves| ==> MoveOk(a, a.moves[i])
    ensures forall i :: 0 <= i < |a.moves| ==> MoveOk(b, a.moves[i])
  {
  }

  lemma CompletionSurvives(a: System, b: System, c: Completion)
    requires Grows(a, b) && CompletionOk(a, c)
    ensures CompletionOk(b, c)
  {
    StillContains(a, b, c.candidate);
  }

  lemma CompletionsSurvive(a: System, b: System)
    requires Grows(a, b) && forall i :: 0 <= i < |a.completions| ==> CompletionOk(a, a.completions[i])
    ensures forall i :: 0 <= i < |a.completions| ==> CompletionOk(b, a.completions[i])
  {
    forall i | 0 <= i < |a.completions|
      ensures CompletionOk(b, a.completions[i])
    {
      CompletionSurvives(a, b, a.completions[i]);
    }
  }

  // A step that writes no ledger and completes no task keeps the ledgers and the history.
  lemma QuietStep(a: System, b: System)
    requires LedgersOk(a) && HistoryOk(a) && Grows(a, b)
    requires b.ledgers == a.ledgers && b.moves == a.moves && b.ref == a.ref && b.completions == a.completions
    ensures LedgersOk(b) && HistoryOk(b)
  {
    forall r | r in b.ledgers
      ensures LedgerOk(b, r)
    {
      LedgerSurvives(a, b, r);
    }
    MovesSurvive(a, b);
    CompletionsSurvive(a, b);
  }

  // One ledger is written; the others stand.
  lemma LedgerStep(a: System, b: System, run: RunId)
    requires LedgersOk(a) && HistoryOk(a) && Grows(a, b)
    requires run in b.ledgers && b.ledgers == a.ledgers[run := b.ledgers[run]] && LedgerOk(b, run)
    requires b.moves == a.moves && b.ref == a.ref && b.completions == a.completions
    ensures LedgersOk(b) && HistoryOk(b)
  {
    forall r | r in b.ledgers
      ensures LedgerOk(b, r)
    {
      if r != run {
        LedgerSurvives(a, b, r);
      }
    }
    MovesSurvive(a, b);
    CompletionsSurvive(a, b);
  }

  // The ref moves forward by one recorded move.
  lemma RefStep(a: System, b: System, m: Move)
    requires LedgersOk(a) && HistoryOk(a) && Grows(a, b)
    requires b.ledgers == a.ledgers && b.completions == a.completions
    requires b.moves == a.moves + [m] && m.from == a.ref && m.to == b.ref && MoveOk(b, m)
    ensures LedgersOk(b) && HistoryOk(b)
  {
    forall r | r in b.ledgers
      ensures LedgerOk(b, r)
    {
      LedgerSurvives(a, b, r);
    }
    MovesSurvive(a, b);
    CompletionsSurvive(a, b);
  }

  // One completion is recorded.
  lemma CompletionStep(a: System, b: System, c: Completion)
    requires LedgersOk(a) && HistoryOk(a) && Grows(a, b)
    requires b.ledgers == a.ledgers && b.moves == a.moves && b.ref == a.ref
    requires b.completions == a.completions + [c] && CompletionOk(b, c)
    requires c.task in a.queue.tasks && c.lease.revision == Some(a.queue.tasks[c.task].revision)
    ensures LedgersOk(b) && HistoryOk(b)
  {
    forall r | r in b.ledgers
      ensures LedgerOk(b, r)
    {
      LedgerSurvives(a, b, r);
    }
    MovesSurvive(a, b);
    CompletionsSurvive(a, b);
    forall i | 0 <= i < |a.completions|
      ensures !SameClaim(a.completions[i], c)
    {
      assert CompletionOk(a, a.completions[i]);
    }
  }

  lemma QueueStepKept(q: Queue, op: Op)
    ensures QueueKept(q, QueueModel.Step(q, op))
  {
    forall t | t in q.tasks
      ensures t in QueueModel.Step(q, op).tasks && TaskKept(q.tasks[t], QueueModel.Step(q, op).tasks[t])
    {
      StepKeepsTasks(q, op, t);
    }
  }

  lemma RunsOkAfter(a: System, b: System)
    requires RunsOk(a) && IsAncestor(a.ref, b.ref)
    requires forall r :: r in b.runs ==> r in a.runs && b.runs[r].start == a.runs[r].start
                                         && IsAncestor(b.runs[r].start, b.runs[r].head)
    ensures RunsOk(b)
  {
    forall r | r in b.runs
      ensures IsAncestor(b.runs[r].start, b.ref)
    {
      AncestorTransitive(b.runs[r].start, a.ref, b.ref);
    }
  }

  // The supervisor's facts survive what others do: only ref, queue and new runs change.
  lemma SupervisorSurvives(a: System, b: System)
    requires SupervisorOk(a) && Grows(a, b) && b.sup == a.sup && b.ledgers == a.ledgers && b.push == a.push
    requires forall r :: r in a.runs ==> b.runs[r] == a.runs[r]
    ensures SupervisorOk(b)
  {
    if a.sup.Working? {
      match a.sup.step
      case WriteIntegrated(l) => StillContains(a, b, l.candidate);
      case WritePushed(l) => StillContains(a, b, l.candidate);
      case RecoverIntegrated(l) => StillContains(a, b, l.candidate);
      case RecoverPushed(l) => StillContains(a, b, l.candidate);
      case _ =>
    }
  }

  // ----------------------------------------------------- every kind of step

  lemma GrowsReflexive(s: System)
    ensures Grows(s, s)
  {
  }

  lemma GrowsTransitive(a: System, b: System, c: System)
    requires Grows(a, b) && Grows(b, c)
    ensures Grows(a, c)
  {
    AncestorTransitive(a.ref, b.ref, c.ref);
    if a.remote.Some? {
      AncestorTransitive(a.remote.value, b.remote.value, c.remote.value);
    }
  }

  // Only the supervisor's control state changes.
  lemma ControlStep(a: System, b: System)
    requires DataOk(a) && b == a.(sup := b.sup)
    ensures Grows(a, b) && DataOk(b)
  {
    QuietStep(a, b);
  }

  // One run's status or HEAD changes.
  lemma RunStep(a: System, b: System, run: RunId)
    requires DataOk(a) && run in a.runs && run in b.runs
    requires b == a.(runs := a.runs[run := b.runs[run]], sup := b.sup)
    requires RunKept(a.runs[run], b.runs[run]) && IsAncestor(b.runs[run].start, b.runs[run].head)
    ensures Grows(a, b) && DataOk(b)
  {
    QuietStep(a, b);
    RunsOkAfter(a, b);
  }

  // The queue changes by one operation.
  lemma QueueStep(a: System, b: System, op: Op)
    requires DataOk(a) && b == a.(queue := QueueModel.Step(a.queue, op), sup := b.sup)
    ensures Grows(a, b) && DataOk(b)
  {
    QueueStepKept(a.queue, op);
    QuietStep(a, b);
  }

  // Evidence is recorded.
  lemma EvidenceStep(a: System, b: System)
    requires DataOk(a) && b == a.(verified := b.verified, reviewed := b.reviewed, sup := b.sup)
    requires a.verified <= b.verified && a.reviewed <= b.reviewed
    ensures Grows(a, b) && DataOk(b)
  {
    QuietStep(a, b);
  }

  predicate ControlOnly(a: System, b: System) {
    b == a.(sup := b.sup)
  }

  predicate RunOnly(a: System, b: System, run: RunId) {
    && run in a.runs && run in b.runs
    && b == a.(runs := a.runs[run := b.runs[run]], sup := b.sup)
    && RunKept(a.runs[run], b.runs[run]) && IsAncestor(b.runs[run].start, b.runs[run].head)
  }

  predicate EvidenceOnly(a: System, b: System) {
    && b == a.(verified := b.verified, reviewed := b.reviewed, sup := b.sup)
    && a.verified <= b.verified && a.reviewed <= b.reviewed
  }

  ghost predicate QueueOnly(a: System, b: System) {
    exists op :: b == a.(queue := QueueModel.Step(a.queue, op), sup := b.sup)
  }

  // A step that moves no ref, writes no ledger and completes no task.
  ghost predicate SmallStep(a: System, b: System, run: RunId) {
    ControlOnly(a, b) || RunOnly(a, b, run) || EvidenceOnly(a, b) || QueueOnly(a, b)
  }

  lemma SmallStepKeeps(a: System, b: System, run: RunId)
    requires DataOk(a) && SmallStep(a, b, run)
    ensures Grows(a, b) && DataOk(b)
  {
    if ControlOnly(a, b) {
      ControlStep(a, b);
    } else if RunOnly(a, b, run) {
      RunStep(a, b, run);
    } else if EvidenceOnly(a, b) {
      EvidenceStep(a, b);
    } else {
      var op :| b == a.(queue := QueueModel.Step(a.queue, op), sup := b.sup);
      QueueStep(a, b, op);
    }
  }

  predicate IsReading(step: Step) {
    step.Enter? || step.ReadRef? || step.Rebase? || step.ReadHead?
  }

  lemma RebaseIsSmall(s: System, run: RunId, step: Step, k: Cont, ok: bool, raised: bool, commit: Commit)
    requires run in s.runs && IsExamine(step) && ExamineOk(s, run, step)
    requires IsAncestor(s.runs[run].start, s.runs[run].head)
    requires step.Rebase?
    ensures SmallStep(s, ExamineStep(s, run, step, k, ok, raised, commit), run)
  {
    if step.Rebase? && ok && IsAncestor(step.expected, commit) {
      AncestorTransitive(s.runs[run].start, step.expected, commit);
    }
  }

  lemma ReadIsSmall(s: System, run: RunId, step: Step, k: Cont, ok: bool, raised: bool, commit: Commit)
    requires run in s.runs && IsExamine(step) && ExamineOk(s, run, step)
    requires IsAncestor(s.runs[run].start, s.runs[run].head)
    requires !step.Rebase? && IsReading(step)
    ensures SmallStep(s, ExamineStep(s, run, step, k, ok, raised, commit), run)
  {
  }

  lemma JudgeIsSmall(s: System, run: RunId, step: Step, k: Cont, ok: bool, raised: bool, commit: Commit)
    requires run in s.runs && IsExamine(step) && ExamineOk(s, run, step)
    requires IsAncestor(s.runs[run].start, s.runs[run].head)
    requires !IsReading(step)
    ensures SmallStep(s, ExamineStep(s, run, step, k, ok, raised, commit), run)
  {
  }

  lemma ExamineIsSmall(s: System, run: RunId, step: Step, k: Cont, ok: bool, raised: bool, commit: Commit)
    requires run in s.runs && IsExamine(step) && ExamineOk(s, run, step)
    requires IsAncestor(s.runs[run].start, s.runs[run].head)
    ensures SmallStep(s, ExamineStep(s, run, step, k, ok, raised, commit), run)
  {
    if step.Rebase? {
      RebaseIsSmall(s, run, step, k, ok, raised, commit);
    } else if !step.Rebase? && IsReading(step) {
      ReadIsSmall(s, run, step, k, ok, raised, commit);
    } else {
      JudgeIsSmall(s, run, step, k, ok, raised, commit);
    }
  }

  lemma ReadingControl(s: System, run: RunId, step: Step, k: Cont, ok: bool, raised: bool, commit: Commit)
    requires run in s.runs && IsReading(step) && ExamineOk(s, run, step)
    requires IsAncestor(s.runs[run].start, s.runs[run].head) && IsAncestor(s.runs[run].start, s.ref)
    ensures SupervisorOk(ExamineStep(s, run, step, k, ok, raised, commit))
  {
    if step.Rebase? {
      RebasingControl(s, run, step, k, ok, raised, commit);
    } else {
      LookingControl(s, run, step, k, ok, raised, commit);
    }
  }

  lemma RebasingControl(s: System, run: RunId, step: Step, k: Cont, ok: bool, raised: bool, commit: Commit)
    requires run in s.runs && step.Rebase? && ExamineOk(s, run, step)
    ensures SupervisorOk(ExamineStep(s, run, step, k, ok, raised, commit))
  {
  }

  lemma MissingTaskControl(s: System, run: RunId, step: Step, k: Cont, ok: bool, raised: bool, commit: Commit)
    requires run in s.runs && (step.Enter? || step.ReadRef? || step.ReadHead?) && ExamineOk(s, run, step)
    requires IsAncestor(s.runs[run].start, s.runs[run].head) && IsAncestor(s.runs[run].start, s.ref)
    requires step.Enter?
    requires s.runs[run].task !in s.queue.tasks
    ensures SupervisorOk(ExamineStep(s, run, step, k, ok, raised, commit))
  {
  }

  lemma KnownTaskControl(s: System, run: RunId, step: Step, k: Cont, ok: bool, raised: bool, commit: Commit)
    requires run in s.runs && (step.Enter? || step.ReadRef? || step.ReadHead?) && ExamineOk(s, run, step)
    requires IsAncestor(s.runs[run].start, s.runs[run].head) && IsAncestor(s.runs[run].start, s.ref)
    requires step.Enter?
    requires s.runs[run].task in s.queue.tasks
    ensures SupervisorOk(ExamineStep(s, run, step, k, ok, raised, commit))
  {
  }

  lemma EnterControl(s: System, run: RunId, step: Step, k: Cont, ok: bool, raised: bool, commit: Commit)
    requires run in s.runs && (step.Enter? || step.ReadRef? || step.ReadHead?) && ExamineOk(s, run, step)
    requires IsAncestor(s.runs[run].start, s.runs[run].head) && IsAncestor(s.runs[run].start, s.ref)
    requires step.Enter?
    ensures SupervisorOk(ExamineStep(s, run, step, k, ok, raised, commit))
  {
    if s.runs[run].task !in s.queue.tasks {
      MissingTaskControl(s, run, step, k, ok, raised, commit);
    } else {
      KnownTaskControl(s, run, step, k, ok, raised, commit);
    }
  }

  lemma ReadRefControl(s: System, run: RunId, step: Step, k: Cont, ok: bool, raised: bool, commit: Commit)
    requires run in s.runs && (step.Enter? || step.ReadRef? || step.ReadHead?) && ExamineOk(s, run, step)
    requires IsAncestor(s.runs[run].start, s.runs[run].head) && IsAncestor(s.runs[run].start, s.ref)
    requires step.ReadRef?
    ensures SupervisorOk(ExamineStep(s, run, step, k, ok, raised, commit))
  {
  }

  lemma ReadHeadControl(s: System, run: RunId, step: Step, k: Cont, ok: bool, raised: bool, commit: Commit)
    requires run in s.runs && (step.Enter? || step.ReadRef? || step.ReadHead?) && ExamineOk(s, run, step)
    requires IsAncestor(s.runs[run].start, s.runs[run].head) && IsAncestor(s.runs[run].start, s.ref)
    requires step.ReadHead?
    ensures SupervisorOk(ExamineStep(s, run, step, k, ok, raised, commit))
  {
  }

  lemma LookingControl(s: System, run: RunId, step: Step, k: Cont, ok: bool, raised: bool, commit: Commit)
    requires run in s.runs && (step.Enter? || step.ReadRef? || step.ReadHead?) && ExamineOk(s, run, step)
    requires IsAncestor(s.runs[run].start, s.runs[run].head) && IsAncestor(s.runs[run].start, s.ref)
    ensures SupervisorOk(ExamineStep(s, run, step, k, ok, raised, commit))
  {
    if step.Enter? {
      EnterControl(s, run, step, k, ok, raised, commit);
    } else if step.ReadRef? {
      ReadRefControl(s, run, step, k, ok, raised, commit);
    } else {
      ReadHeadControl(s, run, step, k, ok, raised, commit);
    }
  }

  lemma JudgingControl(s: System, run: RunId, step: Step, k: Cont, ok: bool, raised: bool, commit: Commit)
    requires run in s.runs && IsExamine(step) && !IsReading(step) && ExamineOk(s, run, step)
    ensures SupervisorOk(ExamineStep(s, run, step, k, ok, raised, commit))
  {
  }

  lemma ExamineKeeps(s: System, run: RunId, step: Step, k: Cont, ok: bool, raised: bool, commit: Commit)
    requires Inv(s) && s.sup == Working(run, step, k) && IsExamine(step)
    ensures Grows(s, ExamineStep(s, run, step, k, ok, raised, commit))
            && Inv(ExamineStep(s, run, step, k, ok, raised, commit))
  {
    ExamineIsSmall(s, run, step, k, ok, raised, commit);
    SmallStepKeeps(s, ExamineStep(s, run, step, k, ok, raised, commit), run);
    if IsReading(step) {
      ReadingControl(s, run, step, k, ok, raised, commit);
    } else {
      JudgingControl(s, run, step, k, ok, raised, commit);
    }
  }

  // ------------------------------------------------- landing and recovery

  lemma FailureKeeps(s: System, run: RunId, step: Step, k: Cont)
    requires Inv(s) && s.sup == Working(run, step, k) && !IsExamine(step) && !IsCommit(step) && !IsRecover(step)
    ensures Grows(s, FailureStep(s, run, step, k)) && Inv(FailureStep(s, run, step, k))
  {
    FailureIsSmall(s, run, step, k);
    FailureControl(s, run, step, k);
    SmallStepKeeps(s, FailureStep(s, run, step, k), run);
  }

  lemma FailureControl(s: System, run: RunId, step: Step, k: Cont)
    requires run in s.runs && !IsExamine(step) && !IsCommit(step) && !IsRecover(step)
    requires s.sup == Working(run, step, k)
    ensures SupervisorOk(FailureStep(s, run, step, k))
  {
  }

  lemma FailureIsSmall(s: System, run: RunId, step: Step, k: Cont)
    requires run in s.runs && !IsExamine(step) && !IsCommit(step) && !IsRecover(step)
    requires IsAncestor(s.runs[run].start, s.runs[run].head)
    ensures SmallStep(s, FailureStep(s, run, step, k), run)
  {
    var s' := FailureStep(s, run, step, k);
    var child := s.runs[run];
    match step
    case BlockFailed(cause) =>
      var op := Op.Block(child.task, child.lease, false, StatusText(cause));
      assert s' == s.(queue := QueueModel.Step(s.queue, op), sup := s'.sup);
    case CancelRelease =>
      assert s' == s.(queue := QueueModel.Step(s.queue, Op.Release(child.task, child.lease)), sup := s'.sup);
    case _ =>
  }

  // A step that writes one ledger (and possibly more control state).
  predicate LedgerOnly(a: System, b: System, run: RunId) {
    run in b.ledgers && b == a.(ledgers := a.ledgers[run := b.ledgers[run]], sup := b.sup)
  }

  lemma LedgerOnlyKeeps(a: System, b: System, run: RunId)
    requires DataOk(a) && LedgerOnly(a, b, run) && LedgerOk(b, run)
    ensures Grows(a, b) && DataOk(b)
  {
    LedgerStep(a, b, run);
  }

  lemma PushKeeps(a: System, b: System)
    requires DataOk(a) && b == a.(remote := Some(a.ref), sup := b.sup) && PushAccepted(a, true)
    ensures Grows(a, b) && DataOk(b)
  {
    QuietStep(a, b);
  }

  lemma CasKeeps(a: System, b: System, run: RunId, l: Ledger)
    requires DataOk(a) && run in a.runs && Judged(a, run, l.expected, l.candidate) && a.ref == l.expected
    requires b == a.(ref := l.candidate, moves := a.moves + [Move(Some(run), a.ref, l.candidate)], sup := b.sup)
    ensures Grows(a, b) && DataOk(b)
  {
    RefStep(a, b, Move(Some(run), a.ref, l.candidate));
    RunsOkAfter(a, b);
  }

  lemma FinishKeeps(a: System, b: System, run: RunId, l: Ledger)
    requires DataOk(a) && run in a.runs && Completes(a, run, l) && IsAncestor(l.candidate, a.ref)
    requires b == CompleteTaskOf(a, run, l).(sup := b.sup)
    ensures Grows(a, b) && DataOk(b) && TaskDone(b, run)
  {
    QueueStepKept(a.queue, CompletionOp(a, run, l));
    StepKeepsTasks(a.queue, CompletionOp(a, run, l), a.runs[run].task);
    CompletionStep(a, b, Completion(run, a.runs[run].task, l.lease, l.candidate));
  }

  predicate Pushes(a: System, b: System) {
    PushAccepted(a, true) && b == a.(remote := Some(a.ref), sup := b.sup)
  }

  predicate Moves(a: System, b: System, run: RunId, l: Ledger) {
    && run in a.runs && Judged(a, run, l.expected, l.candidate) && a.ref == l.expected
    && b == a.(ref := l.candidate, moves := a.moves + [Move(Some(run), a.ref, l.candidate)], sup := b.sup)
  }

  predicate Finishes(a: System, b: System, run: RunId, l: Ledger) {
    && run in a.runs && Completes(a, run, l) && IsAncestor(l.candidate, a.ref)
    && b == CompleteTaskOf(a, run, l).(sup := b.sup)
  }

  // The landing steps proper.
  predicate LandingStep(a: System, b: System, run: RunId, l: Ledger) {
    (LedgerOnly(a, b, run) && LedgerOk(b, run)) || Pushes(a, b) || Moves(a, b, run, l) || Finishes(a, b, run, l)
  }

  lemma LandingStepKeeps(a: System, b: System, run: RunId, l: Ledger)
    requires DataOk(a) && LandingStep(a, b, run, l)
    ensures Grows(a, b) && DataOk(b)
  {
    if LedgerOnly(a, b, run) && LedgerOk(b, run) {
      LedgerOnlyKeeps(a, b, run);
    } else if Pushes(a, b) {
      PushKeeps(a, b);
    } else if Moves(a, b, run, l) {
      CasKeeps(a, b, run, l);
    } else {
      FinishKeeps(a, b, run, l);
    }
  }

  // What one run's step may rely on.
  predicate RunFacts(s: System, run: RunId) {
    && run in s.runs && IsAncestor(s.runs[run].start, s.runs[run].head)
    && (run in s.ledgers ==> LedgerOk(s, run))
  }

  ghost predicate AnyStep(a: System, b: System, run: RunId) {
    SmallStep(a, b, run)
    || (exists l :: LandingStep(a, b, run, l))
  }

  lemma CommitShape(s: System, run: RunId, step: Step, k: Cont, ok: bool)
    requires RunFacts(s, run) && IsCommit(step) && CommitOk(s, run, step)
    ensures AnyStep(s, CommitStep(s, run, step, k, ok), run)
  {
    if step.MarkDone? || step.MarkPending? {
      assert RunOnly(s, CommitStep(s, run, step, k, ok), run);
    } else if step.FinishTask? || step.WriteFinalized? {
      ClosingShape(s, run, step, k, ok);
    } else if step.WritePrepared? || step.Cas? {
      PreparingShape(s, run, step, k, ok);
    } else {
      PublishingShape(s, run, step, k, ok);
    }
  }

  lemma PreparingShape(s: System, run: RunId, step: Step, k: Cont, ok: bool)
    requires RunFacts(s, run) && (step.WritePrepared? || step.Cas?) && CommitOk(s, run, step)
    ensures AnyStep(s, CommitStep(s, run, step, k, ok), run)
  {
    var s' := CommitStep(s, run, step, k, ok);
    match step
    case WritePrepared(expected, candidate) => assert LandingStep(s, s', run, NewLedger(s, run, expected, candidate));
    case Cas(l) => assert ControlOnly(s, s') || LandingStep(s, s', run, l);
  }

  lemma PublishingShape(s: System, run: RunId, step: Step, k: Cont, ok: bool)
    requires RunFacts(s, run) && (step.WriteIntegrated? || step.Push? || step.WritePushed?) && CommitOk(s, run, step)
    ensures AnyStep(s, CommitStep(s, run, step, k, ok), run)
  {
    var s' := CommitStep(s, run, step, k, ok);
    match step
    case WriteIntegrated(l) => assert LandingStep(s, s', run, l);
    case Push(l) => assert ControlOnly(s, s') || LandingStep(s, s', run, l);
    case WritePushed(l) => assert LandingStep(s, s', run, l);
  }

  lemma ClosingShape(s: System, run: RunId, step: Step, k: Cont, ok: bool)
    requires RunFacts(s, run) && (step.FinishTask? || step.WriteFinalized?) && CommitOk(s, run, step)
    ensures AnyStep(s, CommitStep(s, run, step, k, ok), run)
  {
    var s' := CommitStep(s, run, step, k, ok);
    match step
    case FinishTask(l) => assert ControlOnly(s, s') || LandingStep(s, s', run, l);
    case WriteFinalized(l) => assert LandingStep(s, s', run, l);
  }

  lemma RecoverShape(s: System, run: RunId, step: Step, k: Cont, ok: bool)
    requires RunFacts(s, run) && IsRecover(step) && RecoverOk(s, run, step)
    ensures AnyStep(s, RecoverStep(s, run, step, k, ok), run)
  {
    if step.RecoverIntegrated? || step.RecoverPush? || step.RecoverPushed? {
      ReplayingShape(s, run, step, k, ok);
    } else {
      ReclosingShape(s, run, step, k, ok);
    }
  }

  lemma ReplayingShape(s: System, run: RunId, step: Step, k: Cont, ok: bool)
    requires RunFacts(s, run) && (step.RecoverIntegrated? || step.RecoverPush? || step.RecoverPushed?)
    requires RecoverOk(s, run, step)
    ensures AnyStep(s, RecoverStep(s, run, step, k, ok), run)
  {
    var s' := RecoverStep(s, run, step, k, ok);
    match step
    case RecoverIntegrated(l) => assert LandingStep(s, s', run, l);
    case RecoverPush(l) => assert ControlOnly(s, s') || LandingStep(s, s', run, l);
    case RecoverPushed(l) => assert LandingStep(s, s', run, l);
  }

  lemma RepeekShape(s: System, run: RunId, step: Step, k: Cont, ok: bool)
    requires RunFacts(s, run) && RecoverOk(s, run, step)
    requires step.RecoverPeek? || step.RecoverFinish? || step.RecoverMark? || step.RecoverFinalized?
    requires step.RecoverPeek? || step.RecoverFinish?
    ensures AnyStep(s, RecoverStep(s, run, step, k, ok), run)
  {
    var s' := RecoverStep(s, run, step, k, ok);
    match step
    case RecoverPeek(_) => assert ControlOnly(s, s');
    case RecoverFinish(l) => assert ControlOnly(s, s') || LandingStep(s, s', run, l);
  }

  lemma RemarkShape(s: System, run: RunId, step: Step, k: Cont, ok: bool)
    requires RunFacts(s, run) && RecoverOk(s, run, step)
    requires step.RecoverPeek? || step.RecoverFinish? || step.RecoverMark? || step.RecoverFinalized?
    requires step.RecoverMark? || step.RecoverFinalized?
    ensures AnyStep(s, RecoverStep(s, run, step, k, ok), run)
  {
    var s' := RecoverStep(s, run, step, k, ok);
    match step
    case RecoverMark(_) => assert RunOnly(s, s', run);
    case RecoverFinalized(l) => assert LandingStep(s, s', run, l);
  }

  lemma ReclosingShape(s: System, run: RunId, step: Step, k: Cont, ok: bool)
    requires RunFacts(s, run) && RecoverOk(s, run, step)
    requires step.RecoverPeek? || step.RecoverFinish? || step.RecoverMark? || step.RecoverFinalized?
    ensures AnyStep(s, RecoverStep(s, run, step, k, ok), run)
  {
    if step.RecoverPeek? || step.RecoverFinish? {
      RepeekShape(s, run, step, k, ok);
    } else {
      RemarkShape(s, run, step, k, ok);
    }
  }

  lemma AnyStepKeeps(a: System, b: System, run: RunId)
    requires DataOk(a) && AnyStep(a, b, run)
    ensures Grows(a, b) && DataOk(b)
  {
    if SmallStep(a, b, run) {
      SmallStepKeeps(a, b, run);
    } else {
      var l :| LandingStep(a, b, run, l);
      LandingStepKeeps(a, b, run, l);
    }
  }

  lemma FinishMakesDone(s: System, run: RunId, l: Ledger, sup: Supervisor)
    requires run in s.runs && Completes(s, run, l)
    ensures TaskDone(CompleteTaskOf(s, run, l).(sup := sup), run)
  {
  }

  // What pushing one ledger's candidate may rely on.
  predicate PushSettled(s: System, run: RunId) {
    && run in s.runs
    && (run in s.ledgers && !s.ledgers[run].pushRequired ==> s.ledgers[run].pushed)
    && (run in s.ledgers && s.ledgers[run].state != Prepared ==> IsAncestor(s.ledgers[run].candidate, s.ref))
  }

  lemma PrepareControl(s: System, run: RunId, step: Step, k: Cont, ok: bool)
    requires run in s.runs && (step.WritePrepared? || step.Cas?) && CommitOk(s, run, step)
    requires step.WritePrepared?
    ensures SupervisorOk(CommitStep(s, run, step, k, ok))
  {
  }

  lemma CasControl(s: System, run: RunId, step: Step, k: Cont, ok: bool)
    requires run in s.runs && (step.WritePrepared? || step.Cas?) && CommitOk(s, run, step)
    requires step.Cas?
    ensures SupervisorOk(CommitStep(s, run, step, k, ok))
  {
  }

  lemma PreparingControl(s: System, run: RunId, step: Step, k: Cont, ok: bool)
    requires run in s.runs && (step.WritePrepared? || step.Cas?) && CommitOk(s, run, step)
    ensures SupervisorOk(CommitStep(s, run, step, k, ok))
  {
    if step.WritePrepared? {
      PrepareControl(s, run, step, k, ok);
    } else {
      CasControl(s, run, step, k, ok);
    }
  }

  lemma PublishingControl(s: System, run: RunId, step: Step, k: Cont, ok: bool)
    requires PushSettled(s, run) && (step.WriteIntegrated? || step.Push? || step.WritePushed?) && CommitOk(s, run, step)
    ensures SupervisorOk(CommitStep(s, run, step, k, ok))
  {
    if step.Push? {
      PushingControl(s, run, step, k, ok);
    } else {
      FilingControl(s, run, step, k, ok);
    }
  }

  lemma PushingControl(s: System, run: RunId, step: Step, k: Cont, ok: bool)
    requires PushSettled(s, run) && step.Push? && CommitOk(s, run, step)
    ensures SupervisorOk(CommitStep(s, run, step, k, ok))
  {
  }

  lemma FilingControl(s: System, run: RunId, step: Step, k: Cont, ok: bool)
    requires PushSettled(s, run) && (step.WriteIntegrated? || step.WritePushed?) && CommitOk(s, run, step)
    ensures SupervisorOk(CommitStep(s, run, step, k, ok))
  {
  }

  lemma ClosingControl(s: System, run: RunId, step: Step, k: Cont, ok: bool)
    requires run in s.runs && (step.MarkDone? || step.WriteFinalized? || step.MarkPending?) && CommitOk(s, run, step)
    ensures SupervisorOk(CommitStep(s, run, step, k, ok))
  {
  }

  lemma FinishedControl(s: System, run: RunId, l: Ledger, k: Cont, ok: bool)
    requires run in s.runs && CommitOk(s, run, FinishTask(l))
    requires Completes(s, run, l)
    ensures SupervisorOk(CommitStep(s, run, FinishTask(l), k, ok))
  {
    FinishMakesDone(s, run, l, CommitStep(s, run, FinishTask(l), k, ok).sup);
  }

  lemma FinishRefusedControl(s: System, run: RunId, l: Ledger, k: Cont, ok: bool)
    requires run in s.runs && CommitOk(s, run, FinishTask(l))
    requires !Completes(s, run, l)
    ensures SupervisorOk(CommitStep(s, run, FinishTask(l), k, ok))
  {
  }

  lemma FinishingControl(s: System, run: RunId, l: Ledger, k: Cont, ok: bool)
    requires run in s.runs && CommitOk(s, run, FinishTask(l))
    ensures SupervisorOk(CommitStep(s, run, FinishTask(l), k, ok))
  {
    if Completes(s, run, l) {
      FinishedControl(s, run, l, k, ok);
    } else {
      FinishRefusedControl(s, run, l, k, ok);
    }
  }

  lemma CommitControl(s: System, run: RunId, step: Step, k: Cont, ok: bool)
    requires PushSettled(s, run) && IsCommit(step) && CommitOk(s, run, step)
    ensures SupervisorOk(CommitStep(s, run, step, k, ok))
  {
    if step.WritePrepared? || step.Cas? {
      PreparingControl(s, run, step, k, ok);
    } else if step.WriteIntegrated? || step.Push? || step.WritePushed? {
      PublishingControl(s, run, step, k, ok);
    } else if step.FinishTask? {
      FinishingControl(s, run, step.ledger, k, ok);
    } else {
      ClosingControl(s, run, step, k, ok);
    }
  }

  lemma ReplayingControl(s: System, run: RunId, step: Step, k: Cont, ok: bool)
    requires PushSettled(s, run) && RecoverOk(s, run, step)
    requires step.RecoverIntegrated? || step.RecoverPush? || step.RecoverPushed?
    ensures SupervisorOk(RecoverStep(s, run, step, k, ok))
  {
  }

  lemma PeekingControl(s: System, run: RunId, step: Step, k: Cont, ok: bool)
    requires run in s.runs && RecoverOk(s, run, step) && step.RecoverPeek?
    ensures SupervisorOk(RecoverStep(s, run, step, k, ok))
  {
    var s' := RecoverStep(s, run, step, k, ok);
    PeekLeads(s, run, step.ledger, k, ok);
    PeekedControl(s, s', run, step.ledger);
  }

  predicate Peeked(a: System, b: System, run: RunId, l: Ledger)
    requires run in a.runs
  {
    b == a.(sup := b.sup)
    && (b.sup.Working? ==>
          b.sup.run == run
          && (b.sup.step == RecoverFinish(l) || (b.sup.step == RecoverMark(l) && TaskDone(a, run))))
  }

  lemma PeekLeads(s: System, run: RunId, l: Ledger, k: Cont, ok: bool)
    requires run in s.runs
    ensures Peeked(s, RecoverStep(s, run, RecoverPeek(l), k, ok), run, l)
  {
  }

  lemma PeekedControl(a: System, b: System, run: RunId, l: Ledger)
    requires run in a.runs && RecoverOk(a, run, RecoverPeek(l)) && Peeked(a, b, run, l)
    ensures SupervisorOk(b)
  {
  }

  lemma ReclosingControl(s: System, run: RunId, step: Step, k: Cont, ok: bool)
    requires run in s.runs && RecoverOk(s, run, step) && (step.RecoverMark? || step.RecoverFinalized?)
    ensures SupervisorOk(RecoverStep(s, run, step, k, ok))
  {
  }

  lemma RefinishedControl(s: System, run: RunId, l: Ledger, k: Cont, ok: bool)
    requires run in s.runs && RecoverOk(s, run, RecoverFinish(l)) && Completes(s, run, l)
    ensures SupervisorOk(RecoverStep(s, run, RecoverFinish(l), k, ok))
  {
    FinishMakesDone(s, run, l, RecoverStep(s, run, RecoverFinish(l), k, ok).sup);
  }

  lemma RefinishingControl(s: System, run: RunId, l: Ledger, k: Cont, ok: bool)
    requires run in s.runs && RecoverOk(s, run, RecoverFinish(l))
    ensures SupervisorOk(RecoverStep(s, run, RecoverFinish(l), k, ok))
  {
    if Completes(s, run, l) {
      RefinishedControl(s, run, l, k, ok);
    }
  }

  lemma RecoverControl(s: System, run: RunId, step: Step, k: Cont, ok: bool)
    requires PushSettled(s, run) && IsRecover(step) && RecoverOk(s, run, step)
    ensures SupervisorOk(RecoverStep(s, run, step, k, ok))
  {
    if step.RecoverIntegrated? || step.RecoverPush? || step.RecoverPushed? {
      ReplayingControl(s, run, step, k, ok);
    } else if step.RecoverFinish? {
      RefinishingControl(s, run, step.ledger, k, ok);
    } else if step.RecoverPeek? {
      PeekingControl(s, run, step, k, ok);
    } else {
      ReclosingControl(s, run, step, k, ok);
    }
  }

  lemma WorkKeeps(s: System, run: RunId, step: Step, k: Cont, ok: bool, raised: bool, commit: Commit)
    requires Inv(s) && s.sup == Working(run, step, k)
    ensures Grows(s, WorkStep(s, run, step, k, ok, raised, commit))
            && Inv(WorkStep(s, run, step, k, ok, raised, commit))
  {
    if IsExamine(step) {
      ExamineKeeps(s, run, step, k, ok, raised, commit);
    } else if IsCommit(step) {
      CommitShape(s, run, step, k, ok);
      AnyStepKeeps(s, CommitStep(s, run, step, k, ok), run);
      CommitControl(s, run, step, k, ok);
    } else if IsRecover(step) {
      RecoverShape(s, run, step, k, ok);
      AnyStepKeeps(s, RecoverStep(s, run, step, k, ok), run);
      RecoverControl(s, run, step, k, ok);
    } else {
      FailureKeeps(s, run, step, k);
    }
  }

  lemma PickLedgerControl(s: System, todo: seq<RunId>, errors: bool, ok: bool)
    requires todo != [] && SupervisorOk(s) && (todo[0] in s.ledgers ==> LedgerOk(s, todo[0]))
    ensures SupervisorOk(PickLedger(s, todo, errors, ok))
  {
  }

  lemma PickLedgerKeeps(s: System, todo: seq<RunId>, errors: bool, ok: bool)
    requires Inv(s) && todo != []
    ensures Grows(s, PickLedger(s, todo, errors, ok)) && Inv(PickLedger(s, todo, errors, ok))
  {
    ControlStep(s, PickLedger(s, todo, errors, ok));
    assert todo[0] in s.ledgers ==> LedgerOk(s, todo[0]);
    PickLedgerControl(s, todo, errors, ok);
  }

  lemma PickOrphanKeeps(s: System, todo: seq<RunId>, errors: bool)
    requires Inv(s) && todo != []
    ensures Grows(s, PickOrphan(s, todo, errors)) && Inv(PickOrphan(s, todo, errors))
  {
    ControlStep(s, PickOrphan(s, todo, errors));
    if todo[0] in s.ledgers {
      assert LedgerOk(s, todo[0]);
    }
  }

  lemma RecoveringKeeps(s: System, ok: bool, raised: bool, commit: Commit, order: seq<RunId>)
    requires Inv(s) && s.sup.Recovering?
    ensures Grows(s, AdvanceStep(s, ok, raised, commit, order)) && Inv(AdvanceStep(s, ok, raised, commit, order))
  {
    if s.sup.todo != [] {
      PickLedgerKeeps(s, s.sup.todo, s.sup.errors, ok);
    } else {
      ControlStep(s, AdvanceStep(s, ok, raised, commit, order));
    }
  }

  lemma AdoptingKeeps(s: System, ok: bool, raised: bool, commit: Commit, order: seq<RunId>)
    requires Inv(s) && s.sup.Adopting?
    ensures Grows(s, AdvanceStep(s, ok, raised, commit, order)) && Inv(AdvanceStep(s, ok, raised, commit, order))
  {
    if s.sup.todo != [] {
      PickOrphanKeeps(s, s.sup.todo, s.sup.errors);
    } else {
      ControlStep(s, AdvanceStep(s, ok, raised, commit, order));
    }
  }

  lemma AdvanceKeeps(s: System, ok: bool, raised: bool, commit: Commit, order: seq<RunId>)
    requires Inv(s)
    ensures Grows(s, AdvanceStep(s, ok, raised, commit, order)) && Inv(AdvanceStep(s, ok, raised, commit, order))
  {
    match s.sup
    case Recovering(_, _) => RecoveringKeeps(s, ok, raised, commit, order);
    case Adopting(_, _) => AdoptingKeeps(s, ok, raised, commit, order);
    case Working(run, step, k) => WorkKeeps(s, run, step, k, ok, raised, commit);
    case _ => GrowsReflexive(s);
  }

  // A supervisor starts or dies.
  // Nothing changes but the supervisor and its configuration.
  lemma TakeOverKeeps(a: System, b: System)
    requires Inv(a) && b == a.(sup := b.sup, push := b.push) && !b.sup.Working?
    ensures Grows(a, b) && Inv(b)
  {
    QuietStep(a, b);
  }

  lemma BootKeeps(s: System, e: Event)
    requires Inv(s) && e.Boot?
    ensures Grows(s, Next(s, e)) && Inv(Next(s, e))
  {
    if Next(s, e) == s {
      GrowsReflexive(s);
    } else {
      TakeOverKeeps(s, Next(s, e));
    }
  }

  lemma CrashKeeps(s: System)
    requires Inv(s)
    ensures Grows(s, Next(s, Crash)) && Inv(Next(s, Crash))
  {
    TakeOverKeeps(s, Next(s, Crash));
  }

  lemma LifeKeeps(s: System, e: Event)
    requires Inv(s) && (e.Boot? || e.Crash?)
    ensures Grows(s, Next(s, e)) && Inv(Next(s, e))
  {
    if e.Boot? {
      BootKeeps(s, e);
    } else {
      CrashKeeps(s);
    }
  }

  // The loop picks up a candidate.
  lemma PickKeeps(s: System, e: Event)
    requires Inv(s) && (e.Land? || e.Cancel?)
    ensures Grows(s, Next(s, e)) && Inv(Next(s, e))
  {
    ControlStep(s, Next(s, e));
    PickedControl(s, e);
  }

  lemma PickedControl(s: System, e: Event)
    requires SupervisorOk(s) && LedgersOk(s) && (e.Land? || e.Cancel?)
    ensures SupervisorOk(Next(s, e))
  {
    if e.run in s.ledgers {
      assert LedgerOk(s, e.run);
    }
  }

  lemma OtherKeeps(s: System, e: Event)
    requires Inv(s) && (e.NewCandidate? || e.OtherCas? || e.OtherQueue?)
    ensures Grows(s, Next(s, e)) && Inv(Next(s, e))
  {
    var s' := Next(s, e);
    match e
    case NewCandidate(run, child) =>
      NewCandidateKeeps(s, run, child);
    case OtherCas(expected, next) =>
      if s' != s {
        OtherCasKeeps(s, s', expected, next);
      } else {
        GrowsReflexive(s);
      }
    case OtherQueue(op) =>
      QueueStep(s, s', op);
      SupervisorSurvives(s, s');
  }

  lemma OtherCasKeeps(a: System, b: System, expected: Commit, next: Commit)
    requires Inv(a) && a.ref == expected && IsAncestor(expected, next)
    requires b == a.(ref := next, moves := a.moves + [Move(None, expected, next)])
    ensures Grows(a, b) && Inv(b)
  {
    RefStep(a, b, Move(None, expected, next));
    RunsOkAfter(a, b);
    SupervisorSurvives(a, b);
  }

  lemma NewCandidateKeeps(s: System, run: RunId, child: ChildRun)
    requires Inv(s)
    ensures Grows(s, Next(s, NewCandidate(run, child))) && Inv(Next(s, NewCandidate(run, child)))
  {
    var s' := Next(s, NewCandidate(run, child));
    if s' == s {
      GrowsReflexive(s);
    } else {
      NewRunKeeps(s, s', run, child);
    }
  }

  lemma NewRunKeeps(a: System, b: System, run: RunId, child: ChildRun)
    requires Inv(a) && run !in a.runs && b == a.(runs := a.runs[run := child])
    requires IsAncestor(child.start, a.ref) && IsAncestor(child.start, child.head)
    ensures Grows(a, b) && Inv(b)
  {
    QuietStep(a, b);
    SupervisorSurvives(a, b);
  }

  lemma NextKeeps(s: System, e: Event)
    requires Inv(s)
    ensures Grows(s, Next(s, e)) && Inv(Next(s, e))
  {
    match e
    case Advance(ok, raised, commit, order) => AdvanceKeeps(s, ok, raised, commit, order);
    case NewCandidate(_, _) => OtherKeeps(s, e);
    case OtherCas(_, _) => OtherKeeps(s, e);
    case OtherQueue(_) => OtherKeeps(s, e);
    case Land(_) => PickKeeps(s, e);
    case Cancel(_) => PickKeeps(s, e);
    case _ => LifeKeeps(s, e);
  }

  lemma {:induction false} ExecuteKeeps(s: System, es: seq<Event>)
    requires Inv(s)
    ensures Grows(s, Execute(s, es)) && Inv(Execute(s, es))
    decreases |es|
  {
    if es == [] {
      GrowsReflexive(s);
    } else {
      NextKeeps(s, es[0]);
      ExecuteKeeps(Next(s, es[0]), es[1..]);
      GrowsTransitive(s, Next(s, es[0]), Execute(s, es));
    }
  }

  lemma InitialInv(s: System)
    requires Initial(s)
    ensures Inv(s)
  {
  }
}
