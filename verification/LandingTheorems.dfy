/** What holds in every run of the landing machine, from a repository nothing was landed in. */
module LandingTheorems {
  import opened Commits
  import opened QueueTypes
  import opened QueueModel
  import opened LandingModel
  import opened LandingSafety

  lemma {:induction false} ExecuteSplits(s: System, es1: seq<Event>, es2: seq<Event>)
    ensures Execute(s, es1 + es2) == Execute(Execute(s, es1), es2)
    decreases |es1|
  {
    if es1 == [] {
      assert es1 + es2 == es2;
    } else {
      assert (es1 + es2)[1..] == es1[1..] + es2;
      ExecuteSplits(Next(s, es1[0]), es1[1..], es2);
    }
  }

  // Whatever the order of landings, crashes, recoveries and outside edits: a completion made
  // by landing or recovery has its candidate in the ref, then and in every later state, and
  // no claim is completed twice.
  lemma CompletedCandidatesStayIntegrated(s: System, es1: seq<Event>, es2: seq<Event>)
    requires Initial(s)
    ensures var mid := Execute(s, es1);
            var later := Execute(s, es1 + es2);
            && (forall i :: 0 <= i < |mid.completions| ==>
                              && IsAncestor(mid.completions[i].candidate, mid.ref)
                              && IsAncestor(mid.completions[i].candidate, later.ref))
            && (forall i, j :: 0 <= i < j < |mid.completions| ==>
                                 !SameClaim(mid.completions[i], mid.completions[j]))
  {
    InitialInv(s);
    ExecuteKeeps(s, es1);
    ExecuteSplits(s, es1, es2);
    var mid := Execute(s, es1);
    ExecuteKeeps(mid, es2);
    forall i | 0 <= i < |mid.completions|
      ensures IsAncestor(mid.completions[i].candidate, mid.ref)
      ensures IsAncestor(mid.completions[i].candidate, Execute(s, es1 + es2).ref)
    {
      assert CompletionOk(mid, mid.completions[i]);
      StillContains(mid, Execute(mid, es2), mid.completions[i].candidate);
    }
  }

  predicate IsDone(q: Queue, t: TaskId) {
    t in q.tasks && q.tasks[t].status == Done
  }

  // A step that ends in a completion is the finish of a landing or of a recovery.
  predicate FinishesTask(s: System, t: TaskId) {
    && s.sup.Working? && s.sup.run in s.runs && s.runs[s.sup.run].task == t
    && s.sup.run in s.ledgers
    && var ledger := s.ledgers[s.sup.run];
    && (s.sup.step == FinishTask(ledger) || s.sup.step == RecoverFinish(ledger))
    && IsAncestor(ledger.candidate, s.ref)
    && (ledger.pushRequired || (s.sup.step.FinishTask? && s.push) ==> OnRemote(s, ledger.candidate))
  }

  lemma BlockNeverCompletes(q: Queue, op: Op, t: TaskId)
    requires op.Block? || op.Release?
    requires IsDone(QueueModel.Step(q, op), t)
    ensures IsDone(q, t)
  {
  }

  lemma FailureNeverCompletes(s: System, run: RunId, step: LandingModel.Step, k: Cont, t: TaskId)
    requires run in s.runs && IsDone(FailureStep(s, run, step, k).queue, t)
    ensures IsDone(s.queue, t)
  {
    var child := s.runs[run];
    match step
    case BlockFailed(cause) =>
      BlockNeverCompletes(s.queue, Op.Block(child.task, child.lease, false, StatusText(cause)), t);
    case CancelRelease => BlockNeverCompletes(s.queue, Op.Release(child.task, child.lease), t);
    case _ =>
  }

  lemma FinishCompletes(s: System, run: RunId, step: LandingModel.Step, k: Cont, ok: bool, t: TaskId)
    requires run in s.runs && !IsDone(s.queue, t) && IsDone(CommitStep(s, run, step, k, ok).queue, t)
    requires step.FinishTask?
    ensures step.FinishTask? && s.runs[run].task == t
  {
  }

  lemma OthersKeepQueue(s: System, run: RunId, step: LandingModel.Step, k: Cont, ok: bool)
    requires run in s.runs && !step.FinishTask?
    ensures CommitStep(s, run, step, k, ok).queue == s.queue
  {
  }

  lemma CommitCompletes(s: System, run: RunId, step: LandingModel.Step, k: Cont, ok: bool, t: TaskId)
    requires run in s.runs && !IsDone(s.queue, t) && IsDone(CommitStep(s, run, step, k, ok).queue, t)
    ensures step.FinishTask? && s.runs[run].task == t
  {
    if step.FinishTask? {
      FinishCompletes(s, run, step, k, ok, t);
    } else {
      OthersKeepQueue(s, run, step, k, ok);
    }
  }

  lemma RefinishCompletes(s: System, run: RunId, step: LandingModel.Step, k: Cont, ok: bool, t: TaskId)
    requires run in s.runs && !IsDone(s.queue, t) && IsDone(RecoverStep(s, run, step, k, ok).queue, t)
    requires step.RecoverFinish?
    ensures step.RecoverFinish? && s.runs[run].task == t
  {
  }

  lemma OtherReplaysKeepQueue(s: System, run: RunId, step: LandingModel.Step, k: Cont, ok: bool)
    requires run in s.runs && !step.RecoverFinish?
    ensures RecoverStep(s, run, step, k, ok).queue == s.queue
  {
  }

  lemma RecoverCompletes(s: System, run: RunId, step: LandingModel.Step, k: Cont, ok: bool, t: TaskId)
    requires run in s.runs && !IsDone(s.queue, t) && IsDone(RecoverStep(s, run, step, k, ok).queue, t)
    ensures step.RecoverFinish? && s.runs[run].task == t
  {
    if step.RecoverFinish? {
      RefinishCompletes(s, run, step, k, ok, t);
    } else {
      OtherReplaysKeepQueue(s, run, step, k, ok);
    }
  }

  lemma WorkCompletes(s: System, run: RunId, step: LandingModel.Step, k: Cont, ok: bool, raised: bool,
                      commit: Commit, t: TaskId)
    requires run in s.runs && !IsDone(s.queue, t) && IsDone(WorkStep(s, run, step, k, ok, raised, commit).queue, t)
    ensures (step.FinishTask? || step.RecoverFinish?) && s.runs[run].task == t
  {
    ExamineOnlyExamines(s, run, step, k, ok, raised, commit);
    if IsCommit(step) {
      CommitCompletes(s, run, step, k, ok, t);
    } else if IsRecover(step) {
      RecoverCompletes(s, run, step, k, ok, t);
    } else if !IsExamine(step) {
      FailureNeverCompletes(s, run, step, k, t);
    }
  }

  lemma AdvanceCompletes(s: System, ok: bool, raised: bool, commit: Commit, order: seq<RunId>, t: TaskId)
    requires !IsDone(s.queue, t) && IsDone(AdvanceStep(s, ok, raised, commit, order).queue, t)
    ensures s.sup.Working? && s.sup.run in s.runs
    ensures (s.sup.step.FinishTask? || s.sup.step.RecoverFinish?) && s.runs[s.sup.run].task == t
  {
    if s.sup.Working? && s.sup.run in s.runs {
      WorkCompletes(s, s.sup.run, s.sup.step, s.sup.k, ok, raised, commit, t);
    }
  }

  lemma FinishIsGrounded(s: System, t: TaskId)
    requires SupervisorOk(s) && LedgersOk(s) && s.sup.Working? && s.sup.run in s.runs && s.runs[s.sup.run].task == t
    requires s.sup.step.FinishTask? || s.sup.step.RecoverFinish?
    ensures FinishesTask(s, t)
  {
    assert s.sup.run in s.ledgers && LedgerOk(s, s.sup.run);
  }

  // The supervisor makes a task done only for a candidate that the ref already contains,
  // and that the remote contains when a push was asked for.
  lemma SupervisorCompletesOnlyIntegrated(s: System, es: seq<Event>, ok: bool, raised: bool, commit: Commit,
                                          order: seq<RunId>, t: TaskId)
    requires Initial(s)
    requires var now := Execute(s, es);
             !IsDone(now.queue, t) && IsDone(Next(now, Advance(ok, raised, commit, order)).queue, t)
    ensures FinishesTask(Execute(s, es), t)
  {
    InitialInv(s);
    ExecuteKeeps(s, es);
    AdvanceCompletes(Execute(s, es), ok, raised, commit, order, t);
    FinishIsGrounded(Execute(s, es), t);
  }

  // ------------------------------------------------------------- the ledger

  function Rank(state: LedgerState): nat {
    match state
    case Prepared => 0
    case Integrated => 1
    case QueueFinalized => 2
  }

  // Past `prepared`, only the state and the push mark still change.
  predicate Forward(a: Ledger, b: Ledger) {
    && Rank(a.state) <= Rank(b.state)
    && (a.state != Prepared ==>
          && b.expected == a.expected && b.candidate == a.candidate && b.lease == a.lease
          && b.pushRequired == a.pushRequired && (a.pushed ==> b.pushed))
  }

  predicate LedgersForward(a: System, b: System) {
    forall r :: r in a.ledgers ==> r in b.ledgers && Forward(a.ledgers[r], b.ledgers[r])
  }

  // One ledger is written, forward from what is on disk.
  predicate WritesForward(a: System, b: System, run: RunId) {
    b.ledgers == a.ledgers
    || (run in b.ledgers && b.ledgers == a.ledgers[run := b.ledgers[run]]
        && (run in a.ledgers ==> Forward(a.ledgers[run], b.ledgers[run])))
  }

  lemma WritesForwardMeans(a: System, b: System, run: RunId)
    requires WritesForward(a, b, run)
    ensures LedgersForward(a, b)
  {
  }

  lemma CommitForward(s: System, run: RunId, step: LandingModel.Step, k: Cont, ok: bool)
    requires run in s.runs && IsCommit(step) && CommitOk(s, run, step)
    ensures LedgersForward(s, CommitStep(s, run, step, k, ok))
  {
    CommitWritesForward(s, run, step, k, ok);
    WritesForwardMeans(s, CommitStep(s, run, step, k, ok), run);
  }

  lemma FilingForward(s: System, run: RunId, step: LandingModel.Step, k: Cont, ok: bool)
    requires run in s.runs && IsCommit(step) && CommitOk(s, run, step)
    requires step.WritePrepared? || step.Cas? || step.WriteIntegrated? || step.Push?
    ensures WritesForward(s, CommitStep(s, run, step, k, ok), run)
  {
  }

  lemma ClosingForward(s: System, run: RunId, step: LandingModel.Step, k: Cont, ok: bool)
    requires run in s.runs && IsCommit(step) && CommitOk(s, run, step)
    requires !(step.WritePrepared? || step.Cas? || step.WriteIntegrated? || step.Push?)
    ensures WritesForward(s, CommitStep(s, run, step, k, ok), run)
  {
  }

  lemma CommitWritesForward(s: System, run: RunId, step: LandingModel.Step, k: Cont, ok: bool)
    requires run in s.runs && IsCommit(step) && CommitOk(s, run, step)
    ensures WritesForward(s, CommitStep(s, run, step, k, ok), run)
  {
    if step.WritePrepared? || step.Cas? || step.WriteIntegrated? || step.Push? {
      FilingForward(s, run, step, k, ok);
    } else {
      ClosingForward(s, run, step, k, ok);
    }
  }

  lemma RecoverForward(s: System, run: RunId, step: LandingModel.Step, k: Cont, ok: bool)
    requires run in s.runs && IsRecover(step) && RecoverOk(s, run, step)
    ensures LedgersForward(s, RecoverStep(s, run, step, k, ok))
  {
    RecoverWritesForward(s, run, step, k, ok);
    WritesForwardMeans(s, RecoverStep(s, run, step, k, ok), run);
  }

  lemma ReplayForward(s: System, run: RunId, step: LandingModel.Step, k: Cont, ok: bool)
    requires run in s.runs && IsRecover(step) && RecoverOk(s, run, step)
    requires step.RecoverIntegrated? || step.RecoverPush? || step.RecoverPushed?
    ensures WritesForward(s, RecoverStep(s, run, step, k, ok), run)
  {
  }

  lemma RecloseForward(s: System, run: RunId, step: LandingModel.Step, k: Cont, ok: bool)
    requires run in s.runs && IsRecover(step) && RecoverOk(s, run, step)
    requires !(step.RecoverIntegrated? || step.RecoverPush? || step.RecoverPushed?)
    ensures WritesForward(s, RecoverStep(s, run, step, k, ok), run)
  {
  }

  lemma RecoverWritesForward(s: System, run: RunId, step: LandingModel.Step, k: Cont, ok: bool)
    requires run in s.runs && IsRecover(step) && RecoverOk(s, run, step)
    ensures WritesForward(s, RecoverStep(s, run, step, k, ok), run)
  {
    if step.RecoverIntegrated? || step.RecoverPush? || step.RecoverPushed? {
      ReplayForward(s, run, step, k, ok);
    } else {
      RecloseForward(s, run, step, k, ok);
    }
  }

  lemma WorkForward(s: System, ok: bool, raised: bool, commit: Commit)
    requires SupervisorOk(s) && s.sup.Working? && (IsCommit(s.sup.step) || IsRecover(s.sup.step))
    ensures LedgersForward(s, WorkStep(s, s.sup.run, s.sup.step, s.sup.k, ok, raised, commit))
  {
    if IsCommit(s.sup.step) {
      CommitForward(s, s.sup.run, s.sup.step, s.sup.k, ok);
    } else {
      RecoverForward(s, s.sup.run, s.sup.step, s.sup.k, ok);
    }
  }

  lemma NextForward(s: System, e: Event)
    requires SupervisorOk(s)
    ensures LedgersForward(s, Next(s, e))
  {
    if e.Advance? && s.sup.Working? && (IsCommit(s.sup.step) || IsRecover(s.sup.step)) {
      WorkForward(s, e.ok, e.raised, e.commit);
    } else {
      OnlyWorkWritesLedgers(s, e);
      SameLedgersAreForward(s, Next(s, e));
    }
  }

  lemma SameLedgersAreForward(a: System, b: System)
    requires b.ledgers == a.ledgers
    ensures LedgersForward(a, b)
  {
  }

  // An examining step changes neither the queue nor the ledgers.
  predicate OnlyExamines(a: System, b: System) {
    b.ledgers == a.ledgers && b.queue == a.queue && b.completions == a.completions
  }

  lemma ReadingOnlyExamines(s: System, run: RunId, step: LandingModel.Step, k: Cont, ok: bool, raised: bool,
                            commit: Commit)
    requires run in s.runs && IsReading(step)
    ensures OnlyExamines(s, ExamineStep(s, run, step, k, ok, raised, commit))
  {
  }

  lemma JudgingOnlyExamines(s: System, run: RunId, step: LandingModel.Step, k: Cont, ok: bool, raised: bool,
                            commit: Commit)
    requires run in s.runs && !IsReading(step)
    ensures OnlyExamines(s, ExamineStep(s, run, step, k, ok, raised, commit))
  {
  }

  lemma ExamineOnlyExamines(s: System, run: RunId, step: LandingModel.Step, k: Cont, ok: bool, raised: bool,
                            commit: Commit)
    requires run in s.runs
    ensures OnlyExamines(s, ExamineStep(s, run, step, k, ok, raised, commit))
  {
    if IsReading(step) {
      ReadingOnlyExamines(s, run, step, k, ok, raised, commit);
    } else {
      JudgingOnlyExamines(s, run, step, k, ok, raised, commit);
    }
  }

  lemma FailureWritesNoLedger(s: System, run: RunId, step: LandingModel.Step, k: Cont)
    requires run in s.runs
    ensures FailureStep(s, run, step, k).ledgers == s.ledgers
    ensures FailureStep(s, run, step, k).completions == s.completions
  {
  }

  lemma PickWritesNoLedger(s: System, ok: bool, raised: bool, commit: Commit, order: seq<RunId>)
    requires !s.sup.Working? || s.sup.run !in s.runs
    ensures AdvanceStep(s, ok, raised, commit, order).ledgers == s.ledgers
    ensures AdvanceStep(s, ok, raised, commit, order).completions == s.completions
  {
  }

  lemma OnlyWorkWritesLedgers(s: System, e: Event)
    requires e.Advance? && s.sup.Working? ==> !IsCommit(s.sup.step) && !IsRecover(s.sup.step)
    ensures Next(s, e).ledgers == s.ledgers
  {
    if e.Advance? {
      if s.sup.Working? && s.sup.run in s.runs {
        ExamineOnlyExamines(s, s.sup.run, s.sup.step, s.sup.k, e.ok, e.raised, e.commit);
        FailureWritesNoLedger(s, s.sup.run, s.sup.step, s.sup.k);
      } else {
        PickWritesNoLedger(s, e.ok, e.raised, e.commit, e.order);
      }
    }
  }

  lemma {:induction false} ExecuteForward(s: System, es: seq<Event>)
    requires LandingSafety.Inv(s)
    ensures LedgersForward(s, Execute(s, es))
    decreases |es|
  {
    if es != [] {
      NextForward(s, es[0]);
      NextKeeps(s, es[0]);
      ExecuteForward(Next(s, es[0]), es[1..]);
    }
  }

  // A ledger is never lost and never moves backwards.
  lemma LedgersNeverGoBack(s: System, es1: seq<Event>, es2: seq<Event>)
    requires Initial(s)
    ensures LedgersForward(Execute(s, es1), Execute(s, es1 + es2))
  {
    InitialInv(s);
    ExecuteKeeps(s, es1);
    ExecuteSplits(s, es1, es2);
    ExecuteForward(Execute(s, es1), es2);
  }

  // `queue_finalized` means landed, now and later: the task is done, the candidate is in
  // the ref, and on the remote if a push was asked for.
  lemma FinalizedMeansLanded(s: System, es1: seq<Event>, es2: seq<Event>, run: RunId)
    requires Initial(s)
    requires run in Execute(s, es1).ledgers && Execute(s, es1).ledgers[run].state == QueueFinalized
    ensures var later := Execute(s, es1 + es2);
            && run in later.ledgers && later.ledgers[run].state == QueueFinalized
            && TaskDone(later, run)
            && IsAncestor(later.ledgers[run].candidate, later.ref)
            && (later.ledgers[run].pushRequired ==> OnRemote(later, later.ledgers[run].candidate))
  {
    LedgersNeverGoBack(s, es1, es2);
    InitialInv(s);
    ExecuteKeeps(s, es1 + es2);
    assert LedgerOk(Execute(s, es1 + es2), run);
  }

  // ---------------------------------------------------------- the branch ref

  // Only verified trees land: every ref move of the lane goes from the ref's value at that
  // moment to a descendant that passed the final verify, and if the ref had left the
  // worktree's start, that exact diff passed a re-review.
  lemma OnlyVerifiedTreesLand(s: System, es: seq<Event>, i: nat)
    requires Initial(s) && i < |Execute(s, es).moves| && Execute(s, es).moves[i].lander.Some?
    ensures var now := Execute(s, es);
            var m := now.moves[i];
            && IsAncestor(m.from, m.to)
            && (if i == 0 then true else now.moves[i - 1].to == m.from)
            && m.lander.value in now.runs
            && m.to in now.verified
            && (m.from != now.runs[m.lander.value].start ==> Diff(m.to, m.from) in now.reviewed)
  {
    InitialInv(s);
    ExecuteKeeps(s, es);
    assert MoveOk(Execute(s, es), Execute(s, es).moves[i]);
    if i > 0 {
      assert Execute(s, es).moves[i - 1].to == Execute(s, es).moves[i].from;
    }
  }

  // No integration is lost: what was reachable from the ref stays reachable.
  lemma RefNeverLosesCommits(s: System, es1: seq<Event>, es2: seq<Event>, c: Commit)
    requires Initial(s) && IsAncestor(c, Execute(s, es1).ref)
    ensures IsAncestor(c, Execute(s, es1 + es2).ref)
  {
    InitialInv(s);
    ExecuteKeeps(s, es1);
    ExecuteSplits(s, es1, es2);
    ExecuteKeeps(Execute(s, es1), es2);
    StillContains(Execute(s, es1), Execute(s, es1 + es2), c);
  }
}
