/**
 * One pass of a restarted supervisor in which every external command succeeds and nobody
 * else acts: what each step does to the run it works on and to the others.
 */
module LandingPass {
  import opened Commits
  import opened QueueTypes
  import opened QueueModel
  import opened LandingModel
  import opened LandingSafety
  import opened LandingReach

  // Recovery can finalize the ledger: nobody else moved the ref before its CAS and the
  // claim is untouched, or the candidate is already in the ref and the claim is untouched
  // or the task done.
  predicate Recoverable(s: System, r: RunId)
    requires r in s.ledgers
  {
    if BeforeCas(s, r) then Live(s, r)
    else IsAncestor(s.ledgers[r].candidate, s.ref) && (Live(s, r) || TaskDone(s, r))
  }

  // A reviewed candidate whose claim is untouched and that no ledger names yet.
  predicate Awaiting(s: System, r: RunId) {
    r in s.runs && s.runs[r].status == CandidateReady && r !in s.ledgers && Live(s, r)
  }

  // The command the step runs succeeds, and a listing is of what is there.
  predicate Lucky(s: System, e: Event) {
    && e.Advance? && e.ok
    && (s.sup.Working? && s.sup.step.Rebase? ==> IsAncestor(s.sup.step.expected, e.commit))
    && (s.sup == Recovering([], false) ==> Lists(e.order, s.runs.Keys))
  }

  predicate AllLucky(s: System, es: seq<Event>)
    decreases |es|
  {
    es != [] ==> Lucky(s, es[0]) && AllLucky(Next(s, es[0]), es[1..])
  }

  // Steps of a landing up to its CAS.
  predicate IsEarly(step: LandingModel.Step) {
    BeforeLedger(step) || step.Cas?
  }

  // Steps of a landing or a replay from the CAS to the queue completion.
  predicate IsMiddle(step: LandingModel.Step) {
    step.WriteIntegrated? || step.Push? || step.WritePushed? || step.FinishTask? || step.RecoverFinish?
  }

  predicate IsReplay(step: LandingModel.Step) {
    step.RecoverIntegrated? || step.RecoverPush? || step.RecoverPushed? || step.RecoverPeek?
  }

  predicate IsLate(step: LandingModel.Step) {
    step.MarkDone? || step.WriteFinalized? || step.RecoverMark? || step.RecoverFinalized?
  }

  // The steps that occur while every command succeeds.
  predicate OnPass(step: LandingModel.Step) {
    IsEarly(step) || IsMiddle(step) || IsReplay(step) || IsLate(step) || step.AdoptMark? || step.MarkPending?
  }

  predicate AimsAtRef(s: System, step: LandingModel.Step) {
    && (Aim(step).Some? ==> Aim(step).value == s.ref)
    && (step.Cas? ==> step.ledger.expected == s.ref)
  }

  // Steps the work on one run still takes.
  function Left(step: LandingModel.Step): (n: nat)
    ensures 1 <= n <= 16
  {
    match step
    case Enter => 16
    case ReadRef => 15
    case Rebase(_) => 14
    case ReadHead(_) => 13
    case MarkVerifying(_, _) => 12
    case Verify(_, _) => 11
    case Safety(_, _) => 10
    case Review(_, _) => 9
    case WritePrepared(_, _) => 8
    case Cas(_) => 7
    case WriteIntegrated(_) => 6
    case Push(_) => 5
    case WritePushed(_) => 4
    case RecoverIntegrated(_) => 7
    case RecoverPush(_) => 6
    case RecoverPushed(_) => 5
    case RecoverPeek(_) => 4
    case FinishTask(_) => 3
    case RecoverFinish(_) => 3
    case MarkDone(_) => 2
    case RecoverMark(_) => 2
    case _ => 1
  }

  // What the rest of a landing or a replay needs in order to go through.
  predicate OnCourse(s: System, run: RunId, step: LandingModel.Step) {
    && !step.MarkPending? && !step.AdoptMark?
    && (IsEarly(step) || IsMiddle(step) ==> Live(s, run))
    && (IsReplay(step) ==> Live(s, run) || TaskDone(s, run))
  }

  // The queue completion is bound to be refused.
  predicate Doomed(s: System, run: RunId, step: LandingModel.Step) {
    && Open(s, run) && !Live(s, run) && !IsLate(step) && !step.AdoptMark?
    && (IsReplay(step) || step.RecoverFinish? ==> !TaskDone(s, run))
  }

  // ------------------------------------------------- the run a step works on

  // What a step may rely on.
  predicate Grounded(s: System, run: RunId, step: LandingModel.Step, k: Cont) {
    && run in s.runs && OnPass(step) && AimsAtRef(s, step) && !k.ToLoop? && RemoteBehind(s)
    && (IsCommit(step) ==> CommitOk(s, run, step))
    && (IsRecover(step) ==> RecoverOk(s, run, step))
    && (run in s.ledgers ==> s.ledgers[run].lease == s.runs[run].lease)
    && ValidQueue(s.queue)
  }

  // The work goes on with the same run, nearer to its end, or returns.
  predicate GoesOn(b: System, run: RunId, step: LandingModel.Step, k: Cont) {
    if b.sup.Working?
    then b.sup.run == run && b.sup.k == k && OnPass(b.sup.step) && AimsAtRef(b, b.sup.step)
         && Left(b.sup.step) < Left(step)
    else b.sup == Return(b, k, true).sup || b.sup == Return(b, k, false).sup
  }

  predicate StaysOnCourse(b: System, run: RunId, k: Cont) {
    if b.sup.Working? then OnCourse(b, run, b.sup.step)
    else Landed(b, run) && b.sup == Return(b, k, true).sup
  }

  predicate StaysDoomed(b: System, run: RunId, k: Cont) {
    if b.sup.Working? then Doomed(b, run, b.sup.step)
    else Open(b, run) && b.sup == Return(b, k, false).sup
  }

  predicate Steps(a: System, b: System, run: RunId, step: LandingModel.Step, k: Cont) {
    && GoesOn(b, run, step, k)
    && (OnCourse(a, run, step) ==> StaysOnCourse(b, run, k))
    && (Doomed(a, run, step) ==> StaysDoomed(b, run, k))
  }

  // A live claim is honoured, any other is refused.
  lemma CompletesIffLive(s: System, run: RunId, l: Ledger)
    requires run in s.runs && l.lease == s.runs[run].lease && ValidQueue(s.queue)
    ensures Completes(s, run, l) <==> Live(s, run)
    ensures Live(s, run) ==>
              var task := s.runs[run].task;
              CompleteTaskOf(s, run, l).queue == Put(s.queue, task, CompletedTask(s.queue.tasks[task], false))
  {
    if Live(s, run) {
      var task := s.runs[run].task;
      var q' := Put(s.queue, task, CompletedTask(s.queue.tasks[task], false));
      assert q'.tasks.Keys == s.queue.tasks.Keys;
      assert ValidQueue(q');
    }
  }

  lemma EnterSteps(s: System, run: RunId, step: LandingModel.Step, k: Cont, raised: bool, commit: Commit)
    requires Grounded(s, run, step, k) && step.Enter? && s.runs[run].task in s.queue.tasks
    ensures Steps(s, ExamineStep(s, run, step, k, true, raised, commit), run, step, k)
  {
  }

  lemma EnterMisses(s: System, run: RunId, step: LandingModel.Step, k: Cont, raised: bool, commit: Commit)
    requires Grounded(s, run, step, k) && step.Enter? && s.runs[run].task !in s.queue.tasks
    ensures Steps(s, ExamineStep(s, run, step, k, true, raised, commit), run, step, k)
  {
  }

  lemma ReadMovedSteps(s: System, run: RunId, step: LandingModel.Step, k: Cont, raised: bool, commit: Commit)
    requires Grounded(s, run, step, k) && step.ReadRef?
    requires s.ref != s.runs[run].start
    ensures Steps(s, ExamineStep(s, run, step, k, true, raised, commit), run, step, k)
  {
    assert ExamineStep(s, run, step, k, true, raised, commit).queue == s.queue;
  }

  lemma ReadUnmovedSteps(s: System, run: RunId, step: LandingModel.Step, k: Cont, raised: bool, commit: Commit)
    requires Grounded(s, run, step, k) && step.ReadRef?
    requires s.ref == s.runs[run].start
    ensures Steps(s, ExamineStep(s, run, step, k, true, raised, commit), run, step, k)
  {
    assert ExamineStep(s, run, step, k, true, raised, commit).queue == s.queue;
  }

  lemma ReadRefSteps(s: System, run: RunId, step: LandingModel.Step, k: Cont, raised: bool, commit: Commit)
    requires Grounded(s, run, step, k) && step.ReadRef?
    ensures Steps(s, ExamineStep(s, run, step, k, true, raised, commit), run, step, k)
  {
    if s.ref != s.runs[run].start {
      ReadMovedSteps(s, run, step, k, raised, commit);
    } else {
      ReadUnmovedSteps(s, run, step, k, raised, commit);
    }
  }

  lemma RebaseSteps(s: System, run: RunId, step: LandingModel.Step, k: Cont, raised: bool, commit: Commit)
    requires Grounded(s, run, step, k) && step.Rebase? && IsAncestor(step.expected, commit)
    ensures Steps(s, ExamineStep(s, run, step, k, true, raised, commit), run, step, k)
  {
  }

  lemma ReadHeadSteps(s: System, run: RunId, step: LandingModel.Step, k: Cont, raised: bool, commit: Commit)
    requires Grounded(s, run, step, k) && step.ReadHead?
    ensures Steps(s, ExamineStep(s, run, step, k, true, raised, commit), run, step, k)
  {
  }

  lemma MarkSteps(s: System, run: RunId, step: LandingModel.Step, k: Cont, raised: bool, commit: Commit)
    requires Grounded(s, run, step, k) && step.MarkVerifying?
    ensures Steps(s, ExamineStep(s, run, step, k, true, raised, commit), run, step, k)
  {
  }

  lemma VerifySteps(s: System, run: RunId, step: LandingModel.Step, k: Cont, raised: bool, commit: Commit)
    requires Grounded(s, run, step, k) && step.Verify?
    ensures Steps(s, ExamineStep(s, run, step, k, true, raised, commit), run, step, k)
  {
  }

  lemma UnmovedSteps(s: System, run: RunId, step: LandingModel.Step, k: Cont, raised: bool, commit: Commit)
    requires Grounded(s, run, step, k) && step.Safety? && step.expected == s.runs[run].start
    ensures Steps(s, ExamineStep(s, run, step, k, true, raised, commit), run, step, k)
  {
  }

  lemma MovedSteps(s: System, run: RunId, step: LandingModel.Step, k: Cont, raised: bool, commit: Commit)
    requires Grounded(s, run, step, k) && step.Safety? && step.expected != s.runs[run].start
    ensures Steps(s, ExamineStep(s, run, step, k, true, raised, commit), run, step, k)
  {
  }

  lemma ReviewSteps(s: System, run: RunId, step: LandingModel.Step, k: Cont, raised: bool, commit: Commit)
    requires Grounded(s, run, step, k) && step.Review?
    ensures Steps(s, ExamineStep(s, run, step, k, true, raised, commit), run, step, k)
  {
  }

  lemma ExamineSteps(s: System, run: RunId, step: LandingModel.Step, k: Cont, raised: bool, commit: Commit)
    requires Grounded(s, run, step, k) && IsExamine(step)
    requires step.Rebase? ==> IsAncestor(step.expected, commit)
    ensures Steps(s, ExamineStep(s, run, step, k, true, raised, commit), run, step, k)
  {
    match step
    case Enter =>
      if s.runs[run].task in s.queue.tasks {
        EnterSteps(s, run, step, k, raised, commit);
      } else {
        EnterMisses(s, run, step, k, raised, commit);
      }
    case ReadRef => ReadRefSteps(s, run, step, k, raised, commit);
    case Rebase(_) => RebaseSteps(s, run, step, k, raised, commit);
    case ReadHead(_) => ReadHeadSteps(s, run, step, k, raised, commit);
    case MarkVerifying(_, _) => MarkSteps(s, run, step, k, raised, commit);
    case Verify(_, _) => VerifySteps(s, run, step, k, raised, commit);
    case Safety(_, _) =>
      if step.expected == s.runs[run].start {
        UnmovedSteps(s, run, step, k, raised, commit);
      } else {
        MovedSteps(s, run, step, k, raised, commit);
      }
    case Review(_, _) => ReviewSteps(s, run, step, k, raised, commit);
  }

  lemma PrepareSteps(s: System, run: RunId, step: LandingModel.Step, k: Cont)
    requires Grounded(s, run, step, k) && step.WritePrepared?
    ensures Steps(s, CommitStep(s, run, step, k, true), run, step, k)
  {
  }

  lemma CasSteps(s: System, run: RunId, step: LandingModel.Step, k: Cont)
    requires Grounded(s, run, step, k) && step.Cas?
    ensures Steps(s, CommitStep(s, run, step, k, true), run, step, k)
  {
  }

  lemma IntegrateSteps(s: System, run: RunId, step: LandingModel.Step, k: Cont)
    requires Grounded(s, run, step, k) && step.WriteIntegrated?
    ensures Steps(s, CommitStep(s, run, step, k, true), run, step, k)
  {
  }

  lemma PushSteps(s: System, run: RunId, step: LandingModel.Step, k: Cont)
    requires Grounded(s, run, step, k) && step.Push?
    ensures Steps(s, CommitStep(s, run, step, k, true), run, step, k)
  {
  }

  lemma PushedSteps(s: System, run: RunId, step: LandingModel.Step, k: Cont)
    requires Grounded(s, run, step, k) && step.WritePushed?
    ensures Steps(s, CommitStep(s, run, step, k, true), run, step, k)
  {
  }

  lemma FinishSteps(s: System, run: RunId, step: LandingModel.Step, k: Cont)
    requires Grounded(s, run, step, k) && step.FinishTask? && Live(s, run)
    ensures Steps(s, CommitStep(s, run, step, k, true), run, step, k)
  {
    CompletesIffLive(s, run, step.ledger);
  }

  lemma FinishRefused(s: System, run: RunId, step: LandingModel.Step, k: Cont)
    requires Grounded(s, run, step, k) && step.FinishTask? && !Live(s, run)
    ensures Steps(s, CommitStep(s, run, step, k, true), run, step, k)
  {
    CompletesIffLive(s, run, step.ledger);
  }

  lemma DoneSteps(s: System, run: RunId, step: LandingModel.Step, k: Cont)
    requires Grounded(s, run, step, k) && step.MarkDone?
    ensures Steps(s, CommitStep(s, run, step, k, true), run, step, k)
  {
  }

  lemma FinalizedSteps(s: System, run: RunId, step: LandingModel.Step, k: Cont)
    requires Grounded(s, run, step, k) && step.WriteFinalized?
    ensures Steps(s, CommitStep(s, run, step, k, true), run, step, k)
  {
  }

  lemma PendingSteps(s: System, run: RunId, step: LandingModel.Step, k: Cont)
    requires Grounded(s, run, step, k) && step.MarkPending?
    ensures Steps(s, CommitStep(s, run, step, k, true), run, step, k)
  {
  }

  lemma CommitSteps(s: System, run: RunId, step: LandingModel.Step, k: Cont)
    requires Grounded(s, run, step, k) && IsCommit(step)
    ensures Steps(s, CommitStep(s, run, step, k, true), run, step, k)
  {
    match step
    case WritePrepared(_, _) => PrepareSteps(s, run, step, k);
    case Cas(_) => CasSteps(s, run, step, k);
    case WriteIntegrated(_) => IntegrateSteps(s, run, step, k);
    case Push(_) => PushSteps(s, run, step, k);
    case WritePushed(_) => PushedSteps(s, run, step, k);
    case FinishTask(_) =>
      if Live(s, run) {
        FinishSteps(s, run, step, k);
      } else {
        FinishRefused(s, run, step, k);
      }
    case MarkDone(_) => DoneSteps(s, run, step, k);
    case WriteFinalized(_) => FinalizedSteps(s, run, step, k);
    case MarkPending => PendingSteps(s, run, step, k);
  }

  lemma ReintegrateToPush(s: System, run: RunId, step: LandingModel.Step, k: Cont)
    requires Grounded(s, run, step, k) && step.RecoverIntegrated?
    requires step.ledger.pushRequired && !step.ledger.pushed
    ensures Steps(s, RecoverStep(s, run, step, k, true), run, step, k)
  {
  }

  lemma ReintegrateToPeek(s: System, run: RunId, step: LandingModel.Step, k: Cont)
    requires Grounded(s, run, step, k) && step.RecoverIntegrated?
    requires !(step.ledger.pushRequired && !step.ledger.pushed)
    ensures Steps(s, RecoverStep(s, run, step, k, true), run, step, k)
  {
  }

  lemma ReintegrateSteps(s: System, run: RunId, step: LandingModel.Step, k: Cont)
    requires Grounded(s, run, step, k) && step.RecoverIntegrated?
    ensures Steps(s, RecoverStep(s, run, step, k, true), run, step, k)
  {
    if step.ledger.pushRequired && !step.ledger.pushed {
      ReintegrateToPush(s, run, step, k);
    } else {
      ReintegrateToPeek(s, run, step, k);
    }
  }

  lemma RepushSteps(s: System, run: RunId, step: LandingModel.Step, k: Cont)
    requires Grounded(s, run, step, k) && step.RecoverPush?
    ensures Steps(s, RecoverStep(s, run, step, k, true), run, step, k)
  {
  }

  lemma RepushedSteps(s: System, run: RunId, step: LandingModel.Step, k: Cont)
    requires Grounded(s, run, step, k) && step.RecoverPushed?
    ensures Steps(s, RecoverStep(s, run, step, k, true), run, step, k)
  {
    assert RecoverStep(s, run, step, k, true).sup == Working(run, RecoverPeek(step.ledger.(pushed := true)), k);
  }

  lemma PeekMisses(s: System, run: RunId, step: LandingModel.Step, k: Cont)
    requires Grounded(s, run, step, k) && step.RecoverPeek? && s.runs[run].task !in s.queue.tasks
    ensures Steps(s, RecoverStep(s, run, step, k, true), run, step, k)
  {
  }

  lemma PeekDone(s: System, run: RunId, step: LandingModel.Step, k: Cont)
    requires Grounded(s, run, step, k) && step.RecoverPeek? && TaskDone(s, run)
    ensures Steps(s, RecoverStep(s, run, step, k, true), run, step, k)
  {
  }

  lemma PeekOpen(s: System, run: RunId, step: LandingModel.Step, k: Cont)
    requires Grounded(s, run, step, k) && step.RecoverPeek? && s.runs[run].task in s.queue.tasks && !TaskDone(s, run)
    ensures Steps(s, RecoverStep(s, run, step, k, true), run, step, k)
  {
  }

  lemma RefinishSteps(s: System, run: RunId, step: LandingModel.Step, k: Cont)
    requires Grounded(s, run, step, k) && step.RecoverFinish? && Live(s, run)
    ensures Steps(s, RecoverStep(s, run, step, k, true), run, step, k)
  {
    CompletesIffLive(s, run, step.ledger);
    LateFollowsFinish(s, RecoverStep(s, run, step, k, true), run, step, RecoverMark(step.ledger), k);
  }

  // The completion of a live claim leads to the last marks.
  lemma LateFollowsFinish(a: System, b: System, run: RunId, step: LandingModel.Step, next: LandingModel.Step, k: Cont)
    requires Live(a, run) && IsLate(next) && Left(next) < Left(step) && b.sup == Working(run, next, k)
    ensures Steps(a, b, run, step, k)
  {
  }

  lemma RefinishRefused(s: System, run: RunId, step: LandingModel.Step, k: Cont)
    requires Grounded(s, run, step, k) && step.RecoverFinish? && !Live(s, run)
    ensures Steps(s, RecoverStep(s, run, step, k, true), run, step, k)
  {
    CompletesIffLive(s, run, step.ledger);
  }

  lemma RemarkSteps(s: System, run: RunId, step: LandingModel.Step, k: Cont)
    requires Grounded(s, run, step, k) && step.RecoverMark?
    ensures Steps(s, RecoverStep(s, run, step, k, true), run, step, k)
  {
    LateStaysLate(s, RecoverStep(s, run, step, k, true), run, step, RecoverFinalized(step.ledger), k);
  }

  // The last marks of a run whose task is done.
  lemma LateStaysLate(a: System, b: System, run: RunId, step: LandingModel.Step, next: LandingModel.Step, k: Cont)
    requires IsLate(step) && IsLate(next) && Left(next) < Left(step) && b.sup == Working(run, next, k)
    ensures Steps(a, b, run, step, k)
  {
  }


  lemma RefinalizedSteps(s: System, run: RunId, step: LandingModel.Step, k: Cont)
    requires Grounded(s, run, step, k) && step.RecoverFinalized?
    ensures Steps(s, RecoverStep(s, run, step, k, true), run, step, k)
  {
  }

  lemma RecoverSteps(s: System, run: RunId, step: LandingModel.Step, k: Cont)
    requires Grounded(s, run, step, k) && IsRecover(step)
    ensures Steps(s, RecoverStep(s, run, step, k, true), run, step, k)
  {
    match step
    case RecoverIntegrated(_) => ReintegrateSteps(s, run, step, k);
    case RecoverPush(_) => RepushSteps(s, run, step, k);
    case RecoverPushed(_) => RepushedSteps(s, run, step, k);
    case RecoverPeek(_) =>
      if s.runs[run].task !in s.queue.tasks {
        PeekMisses(s, run, step, k);
      } else if TaskDone(s, run) {
        PeekDone(s, run, step, k);
      } else {
        PeekOpen(s, run, step, k);
      }
    case RecoverFinish(_) =>
      if Live(s, run) {
        RefinishSteps(s, run, step, k);
      } else {
        RefinishRefused(s, run, step, k);
      }
    case RecoverMark(_) => RemarkSteps(s, run, step, k);
    case RecoverFinalized(_) => RefinalizedSteps(s, run, step, k);
  }

  lemma AdoptSteps(s: System, run: RunId, step: LandingModel.Step, k: Cont)
    requires Grounded(s, run, step, k) && step.AdoptMark?
    ensures Steps(s, FailureStep(s, run, step, k), run, step, k)
  {
  }

  lemma WorkSteps(s: System, run: RunId, step: LandingModel.Step, k: Cont, raised: bool, commit: Commit)
    requires Grounded(s, run, step, k)
    requires step.Rebase? ==> IsAncestor(step.expected, commit)
    ensures Steps(s, WorkStep(s, run, step, k, true, raised, commit), run, step, k)
  {
    if IsExamine(step) {
      ExamineSteps(s, run, step, k, raised, commit);
    } else if IsCommit(step) {
      CommitSteps(s, run, step, k);
    } else if IsRecover(step) {
      RecoverSteps(s, run, step, k);
    } else {
      AdoptSteps(s, run, step, k);
    }
  }
}
