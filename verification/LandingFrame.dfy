/** What one step of the lane leaves as it was: other runs' files, the ref, the queue, its caller. */
module LandingFrame {
  import opened Commits
  import opened LandingModel
  import opened LandingSafety

  // A step writes its own run's files only.
  predicate OwnWrites(a: System, b: System, run: RunId) {
    && (b.runs == a.runs || (run in b.runs && b.runs == a.runs[run := b.runs[run]]))
    && (b.ledgers == a.ledgers || (run in b.ledgers && b.ledgers == a.ledgers[run := b.ledgers[run]]))
    && (b.sup.Working? ==> b.sup.run == run)
  }

  // A step goes on with the same continuation, or returns to it.
  predicate KeepsCont(s: System, k: Cont) {
    s.sup.Down? || (s.sup.Working? && s.sup.k == k)
    || s.sup == Return(s, k, true).sup || s.sup == Return(s, k, false).sup
  }

  // The ref moves at a CAS that finds the expected commit, and only there.
  predicate MovesAtCas(a: System, b: System, step: LandingModel.Step) {
    if step.Cas? && a.ref == step.ledger.expected then b.ref == step.ledger.candidate else b.ref == a.ref
  }

  predicate IsFinish(step: LandingModel.Step) {
    step.FinishTask? || step.RecoverFinish?
  }

  // The steps that give up a claim.
  predicate IsSurrender(step: LandingModel.Step) {
    step.BlockFailed? || step.CancelRelease?
  }

  // The queue changes by the completion of the ledger's claim, and only where it is honoured.
  predicate CompletesAtFinish(a: System, b: System, run: RunId, step: LandingModel.Step)
    requires run in a.runs
  {
    if IsFinish(step) && Completes(a, run, step.ledger)
    then b.queue == CompleteTaskOf(a, run, step.ledger).queue
         && b.completions == CompleteTaskOf(a, run, step.ledger).completions
    else (IsSurrender(step) || b.queue == a.queue) && b.completions == a.completions
  }

  // What a step leaves alone.
  predicate Frame(a: System, b: System, run: RunId, step: LandingModel.Step, k: Cont)
    requires run in a.runs
  {
    OwnWrites(a, b, run) && KeepsCont(b, k) && MovesAtCas(a, b, step) && CompletesAtFinish(a, b, run, step)
  }

  lemma EnterFrame(s: System, run: RunId, step: LandingModel.Step, k: Cont, ok: bool, raised: bool, commit: Commit)
    requires run in s.runs && step.Enter?
    ensures Frame(s, ExamineStep(s, run, step, k, ok, raised, commit), run, step, k)
  {
  }

  lemma ReadRefFrame(s: System, run: RunId, step: LandingModel.Step, k: Cont, ok: bool, raised: bool, commit: Commit)
    requires run in s.runs && step.ReadRef?
    ensures Frame(s, ExamineStep(s, run, step, k, ok, raised, commit), run, step, k)
  {
  }

  lemma RebasingFrame(s: System, run: RunId, step: LandingModel.Step, k: Cont, ok: bool, raised: bool, commit: Commit)
    requires run in s.runs && (step.Rebase? || step.ReadHead?)
    ensures Frame(s, ExamineStep(s, run, step, k, ok, raised, commit), run, step, k)
  {
  }

  lemma JudgingFrame(s: System, run: RunId, step: LandingModel.Step, k: Cont, ok: bool, raised: bool, commit: Commit)
    requires run in s.runs && IsExamine(step) && !IsReading(step)
    ensures Frame(s, ExamineStep(s, run, step, k, ok, raised, commit), run, step, k)
  {
  }

  lemma CasFrame(s: System, run: RunId, step: LandingModel.Step, k: Cont, ok: bool)
    requires run in s.runs && (step.WritePrepared? || step.Cas?)
    ensures Frame(s, CommitStep(s, run, step, k, ok), run, step, k)
  {
  }

  lemma PublishFrame(s: System, run: RunId, step: LandingModel.Step, k: Cont, ok: bool)
    requires run in s.runs && (step.WriteIntegrated? || step.Push? || step.WritePushed?)
    ensures Frame(s, CommitStep(s, run, step, k, ok), run, step, k)
  {
  }

  lemma FinishFrame(s: System, run: RunId, step: LandingModel.Step, k: Cont, ok: bool)
    requires run in s.runs && step.FinishTask?
    ensures Frame(s, CommitStep(s, run, step, k, ok), run, step, k)
  {
  }

  lemma CloseFrame(s: System, run: RunId, step: LandingModel.Step, k: Cont, ok: bool)
    requires run in s.runs && (step.MarkDone? || step.WriteFinalized? || step.MarkPending?)
    ensures Frame(s, CommitStep(s, run, step, k, ok), run, step, k)
  {
  }

  lemma CommitFrame(s: System, run: RunId, step: LandingModel.Step, k: Cont, ok: bool)
    requires run in s.runs && IsCommit(step)
    ensures Frame(s, CommitStep(s, run, step, k, ok), run, step, k)
  {
    if step.WritePrepared? || step.Cas? {
      CasFrame(s, run, step, k, ok);
    } else if step.WriteIntegrated? || step.Push? || step.WritePushed? {
      PublishFrame(s, run, step, k, ok);
    } else if step.FinishTask? {
      FinishFrame(s, run, step, k, ok);
    } else {
      CloseFrame(s, run, step, k, ok);
    }
  }

  lemma ReintegrateFrame(s: System, run: RunId, step: LandingModel.Step, k: Cont, ok: bool)
    requires run in s.runs && step.RecoverIntegrated?
    ensures Frame(s, RecoverStep(s, run, step, k, ok), run, step, k)
  {
  }

  lemma RepushFrame(s: System, run: RunId, step: LandingModel.Step, k: Cont, ok: bool)
    requires run in s.runs && step.RecoverPush?
    ensures Frame(s, RecoverStep(s, run, step, k, ok), run, step, k)
  {
  }

  lemma RepushedFrame(s: System, run: RunId, step: LandingModel.Step, k: Cont, ok: bool)
    requires run in s.runs && step.RecoverPushed?
    ensures Frame(s, RecoverStep(s, run, step, k, ok), run, step, k)
  {
  }

  lemma PeekFrame(s: System, run: RunId, step: LandingModel.Step, k: Cont, ok: bool)
    requires run in s.runs && step.RecoverPeek? && s.runs[run].task in s.queue.tasks
    ensures Frame(s, RecoverStep(s, run, step, k, ok), run, step, k)
  {
  }

  lemma MissFrame(s: System, run: RunId, step: LandingModel.Step, k: Cont, ok: bool)
    requires run in s.runs && step.RecoverPeek? && s.runs[run].task !in s.queue.tasks
    ensures Frame(s, RecoverStep(s, run, step, k, ok), run, step, k)
  {
  }

  lemma RefinishFrame(s: System, run: RunId, step: LandingModel.Step, k: Cont, ok: bool)
    requires run in s.runs && step.RecoverFinish?
    ensures Frame(s, RecoverStep(s, run, step, k, ok), run, step, k)
  {
  }

  lemma RemarkFrame(s: System, run: RunId, step: LandingModel.Step, k: Cont, ok: bool)
    requires run in s.runs && step.RecoverMark?
    ensures Frame(s, RecoverStep(s, run, step, k, ok), run, step, k)
  {
  }

  lemma RecloseFrame(s: System, run: RunId, step: LandingModel.Step, k: Cont, ok: bool)
    requires run in s.runs && step.RecoverFinalized?
    ensures Frame(s, RecoverStep(s, run, step, k, ok), run, step, k)
  {
  }

  lemma ReplayFrame(s: System, run: RunId, step: LandingModel.Step, k: Cont, ok: bool)
    requires run in s.runs && IsRecover(step)
    ensures Frame(s, RecoverStep(s, run, step, k, ok), run, step, k)
  {
    if step.RecoverIntegrated? {
      ReintegrateFrame(s, run, step, k, ok);
    } else if step.RecoverPush? {
      RepushFrame(s, run, step, k, ok);
    } else if step.RecoverPushed? {
      RepushedFrame(s, run, step, k, ok);
    } else if step.RecoverPeek? {
      if s.runs[run].task in s.queue.tasks {
        PeekFrame(s, run, step, k, ok);
      } else {
        MissFrame(s, run, step, k, ok);
      }
    } else if step.RecoverFinish? {
      RefinishFrame(s, run, step, k, ok);
    } else if step.RecoverMark? {
      RemarkFrame(s, run, step, k, ok);
    } else {
      RecloseFrame(s, run, step, k, ok);
    }
  }

  lemma FailureFrame(s: System, run: RunId, step: LandingModel.Step, k: Cont)
    requires run in s.runs && !IsExamine(step) && !IsCommit(step) && !IsRecover(step)
    ensures Frame(s, FailureStep(s, run, step, k), run, step, k)
  {
  }

  lemma WorkFrame(s: System, run: RunId, step: LandingModel.Step, k: Cont, ok: bool, raised: bool, commit: Commit)
    requires run in s.runs
    ensures Frame(s, WorkStep(s, run, step, k, ok, raised, commit), run, step, k)
  {
    if step.Enter? {
      EnterFrame(s, run, step, k, ok, raised, commit);
    } else if step.ReadRef? {
      ReadRefFrame(s, run, step, k, ok, raised, commit);
    } else if step.Rebase? || step.ReadHead? {
      RebasingFrame(s, run, step, k, ok, raised, commit);
    } else if IsExamine(step) {
      JudgingFrame(s, run, step, k, ok, raised, commit);
    } else if IsCommit(step) {
      CommitFrame(s, run, step, k, ok);
    } else if IsRecover(step) {
      ReplayFrame(s, run, step, k, ok);
    } else {
      FailureFrame(s, run, step, k);
    }
  }

  // Another run's files are as they were.
  predicate SameFiles(a: System, b: System, r: RunId) {
    && (r in b.runs <==> r in a.runs) && (r in a.runs ==> b.runs[r] == a.runs[r])
    && (r in b.ledgers <==> r in a.ledgers) && (r in a.ledgers ==> b.ledgers[r] == a.ledgers[r])
  }

  lemma OthersKeepFiles(a: System, b: System, run: RunId, r: RunId)
    requires OwnWrites(a, b, run) && r != run
    ensures SameFiles(a, b, r)
  {
  }
}
