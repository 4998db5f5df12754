/**
 * What every run of the landing machine keeps beside its safety invariant: the queue
 * document stays valid, the remote stays behind the ref, no two child runs hold one claim,
 * and at most one ledger waits for its CAS at the ref's present value.
 */
module LandingReach {
  import opened Wrappers
  import opened Commits
  import opened QueueTypes
  import opened QueueModel
  import opened LandingModel
  import opened LandingSafety

  predicate Open(s: System, r: RunId) {
    r in s.ledgers && s.ledgers[r].state != QueueFinalized
  }

  predicate Landed(s: System, r: RunId) {
    r in s.ledgers && s.ledgers[r].state == QueueFinalized
  }

  // Nothing touched the queue task since the run claimed it.
  predicate Live(s: System, r: RunId) {
    && r in s.runs && s.runs[r].task in s.queue.tasks
    && ActiveLease(s.queue.tasks[s.runs[r].task], s.runs[r].lease)
  }

  // A prepared ledger whose CAS would still succeed.
  predicate Waits(l: Ledger, ref: Commit) {
    l.state == Prepared && l.expected == ref
  }

  // The ref is still where the ledger expects it: the landing is to be redone.
  predicate BeforeCas(s: System, r: RunId) {
    r in s.ledgers && Waits(s.ledgers[r], s.ref)
  }

  // No ledger but run's waits.
  predicate AloneAt(ledgers: map<RunId, Ledger>, ref: Commit, run: RunId) {
    forall r :: r in ledgers && r != run ==> !Waits(ledgers[r], ref)
  }

  predicate NoneAt(ledgers: map<RunId, Ledger>, ref: Commit) {
    forall r :: r in ledgers ==> !Waits(ledgers[r], ref)
  }

  predicate OneAt(ledgers: map<RunId, Ledger>, ref: Commit) {
    forall r, x :: r in ledgers && x in ledgers && Waits(ledgers[r], ref) && Waits(ledgers[x], ref) ==> r == x
  }

  // Every open ledger but run's is still to be looked at.
  predicate OpenInBut(ledgers: map<RunId, Ledger>, todo: seq<RunId>, run: RunId) {
    forall r :: r in ledgers && r != run && ledgers[r].state != QueueFinalized ==> r in todo
  }

  predicate OpenIn(ledgers: map<RunId, Ledger>, todo: seq<RunId>) {
    forall r :: r in ledgers && ledgers[r].state != QueueFinalized ==> r in todo
  }

  // Each ledger expects a value the ref has had.
  predicate Behind(ledgers: map<RunId, Ledger>, ref: Commit) {
    forall r :: r in ledgers ==> IsAncestor(ledgers[r].expected, ref)
  }

  predicate RemoteBehind(s: System) {
    s.remote.Some? ==> IsAncestor(s.remote.value, s.ref)
  }

  predicate SameReceipt(a: ChildRun, b: ChildRun) {
    a.task == b.task && a.lease == b.lease
  }

  predicate ClaimsDistinct(runs: map<RunId, ChildRun>) {
    forall r, x :: r in runs && x in runs && r != x ==> !SameReceipt(runs[r], runs[x])
  }

  // ------------------------------------------------------- the lane's place

  predicate BeforeMark(step: Step) {
    step.Enter? || step.ReadRef? || step.Rebase? || step.ReadHead? || step.MarkVerifying?
  }

  // After the `landing_verifying` mark, before the `prepared` ledger.
  predicate InVerdict(step: Step) {
    step.Verify? || step.Safety? || step.Review? || step.WritePrepared?
  }

  predicate BeforeLedger(step: Step) {
    BeforeMark(step) || InVerdict(step)
  }

  // The steps at which the run's own ledger may still wait.
  predicate Holds(step: Step) {
    BeforeLedger(step) || step.Cas? || step.WriteIntegrated?
  }

  // The ref value the landing was begun at.
  function Aim(step: Step): Option<Commit> {
    match step
    case Rebase(e) => Some(e)
    case ReadHead(e) => Some(e)
    case MarkVerifying(e, _) => Some(e)
    case Verify(e, _) => Some(e)
    case Safety(e, _) => Some(e)
    case Review(e, _) => Some(e)
    case WritePrepared(e, _) => Some(e)
    case _ => None
  }

  // A landing outside recovery is a candidate's first.
  predicate FirstLanding(s: System, run: RunId, step: Step) {
    && run in s.runs && run !in s.ledgers
    && s.runs[run].status == (if BeforeMark(step) then CandidateReady else LandingVerifying)
  }

  predicate Slot(s: System, run: RunId, step: Step, k: Cont) {
    if Holds(step) then AloneAt(s.ledgers, s.ref, run)
    else if k.ToRecovery? then OneAt(s.ledgers, s.ref)
    else NoneAt(s.ledgers, s.ref)
  }

  // A verdict that is given after the `landing_verifying` mark and before the first ledger.
  predicate IsVerdict(cause: Refusal) {
    cause.VerifyFailed? || cause.SafetyRed? || cause.ReviewFailed? || cause.ReviewRed?
  }

  // A refused landing that recovery did not start: what it has written so far.
  predicate RefusedAt(s: System, run: RunId, cause: Refusal) {
    if cause.CasFailed? then run in s.ledgers
    else
      && run in s.runs && run !in s.ledgers
      && s.runs[run].status == (if IsVerdict(cause) then LandingVerifying else CandidateReady)
  }

  // A candidate that the lane gives back or marks without landing it.
  predicate Untouched(s: System, run: RunId) {
    run in s.runs && run !in s.ledgers && s.runs[run].status == CandidateReady
  }

  predicate Refuses(step: Step) {
    step.BlockFailed? || step.MarkFailed?
  }

  // Which steps occur under which caller, and what is on disk then.
  predicate Placed(s: System, run: RunId, step: Step, k: Cont) {
    && (step.AdoptMark? ==> k.ToAdoption? && Untouched(s, run))
    && (step.CancelRelease? || step.CancelMark? ==> k.ToLoop? && Untouched(s, run))
    && (Refuses(step) ==> if k.ToRecovery? then run in s.ledgers else RefusedAt(s, run, step.cause))
    && (IsRecover(step) ==> k.ToRecovery?)
    && (BeforeLedger(step) ==>
          if k.ToRecovery? then run in s.ledgers && s.ledgers[run].state == Prepared else FirstLanding(s, run, step))
  }

  predicate Working1(s: System, run: RunId, step: Step, k: Cont) {
    && (Aim(step).Some? ==> IsAncestor(Aim(step).value, s.ref))
    && Slot(s, run, step, k)
    && Placed(s, run, step, k)
    && (k.ToRecovery? && !k.errors ==> OpenInBut(s.ledgers, k.todo, run))
  }

  predicate LaneSup(s: System) {
    match s.sup
    case Down => OneAt(s.ledgers, s.ref)
    case Recovering(todo, errors) => OneAt(s.ledgers, s.ref) && (!errors ==> OpenIn(s.ledgers, todo))
    case Adopting(_, _) => NoneAt(s.ledgers, s.ref)
    case Looping => NoneAt(s.ledgers, s.ref)
    case Working(run, step, k) => Working1(s, run, step, k)
  }

  // The durable part.
  predicate LaneData(s: System) {
    ValidQueue(s.queue) && RemoteBehind(s) && ClaimsDistinct(s.runs) && Behind(s.ledgers, s.ref)
  }

  predicate Lane(s: System) {
    Inv(s) && LaneData(s) && LaneSup(s)
  }

  // ------------------------------------------------------- the ref moves on

  lemma PassedForGood(l: Ledger, before: Commit, after: Commit)
    requires IsAncestor(l.expected, before) && IsAncestor(before, after)
    ensures IsAncestor(l.expected, after)
    ensures Waits(l, after) ==> Waits(l, before)
  {
    AncestorTransitive(l.expected, before, after);
    if l.expected == after {
      AncestorAntisymmetric(before, after);
    }
  }

  // A ledger that the ref has passed never waits again.
  lemma RefGrows(ledgers: map<RunId, Ledger>, before: Commit, after: Commit)
    requires Behind(ledgers, before) && IsAncestor(before, after)
    ensures Behind(ledgers, after)
    ensures forall r :: r in ledgers && Waits(ledgers[r], after) ==> Waits(ledgers[r], before)
  {
    forall r | r in ledgers
      ensures IsAncestor(ledgers[r].expected, after) && (Waits(ledgers[r], after) ==> Waits(ledgers[r], before))
    {
      PassedForGood(ledgers[r], before, after);
    }
  }

  lemma SlotsSurvive(ledgers: map<RunId, Ledger>, before: Commit, after: Commit, run: RunId)
    requires Behind(ledgers, before) && IsAncestor(before, after)
    ensures AloneAt(ledgers, before, run) ==> AloneAt(ledgers, after, run)
    ensures NoneAt(ledgers, before) ==> NoneAt(ledgers, after)
    ensures OneAt(ledgers, before) ==> OneAt(ledgers, after)
  {
    RefGrows(ledgers, before, after);
  }

  lemma AloneIsOne(ledgers: map<RunId, Ledger>, ref: Commit, run: RunId)
    requires AloneAt(ledgers, ref, run)
    ensures OneAt(ledgers, ref)
    ensures run !in ledgers || !Waits(ledgers[run], ref) ==> NoneAt(ledgers, ref)
  {
  }

  // Writing run's ledger leaves the others as they are.
  lemma AloneAfterWrite(ledgers: map<RunId, Ledger>, ref: Commit, run: RunId, l: Ledger)
    requires AloneAt(ledgers, ref, run)
    ensures AloneAt(ledgers[run := l], ref, run)
    ensures !Waits(l, ref) ==> NoneAt(ledgers[run := l], ref)
  {
  }

  // ------------------------------------------------------- the data

  lemma DataOfSmallStep(a: System, b: System, run: RunId)
    requires LaneData(a) && SmallStep(a, b, run)
    ensures LaneData(b)
  {
  }

  lemma DataOfLedgerWrite(a: System, b: System, run: RunId)
    requires LaneData(a) && LedgerOnly(a, b, run) && IsAncestor(b.ledgers[run].expected, a.ref)
    ensures LaneData(b)
  {
  }

  lemma DataOfCas(a: System, b: System, run: RunId, l: Ledger)
    requires LaneData(a) && Moves(a, b, run, l)
    ensures LaneData(b)
  {
    RefGrows(a.ledgers, a.ref, b.ref);
    if a.remote.Some? {
      AncestorTransitive(a.remote.value, a.ref, b.ref);
    }
  }

  lemma DataOfLandingStep(a: System, b: System, run: RunId, l: Ledger)
    requires LaneData(a) && LandingStep(a, b, run, l)
    requires run in b.ledgers ==> IsAncestor(b.ledgers[run].expected, b.ref)
    ensures LaneData(b)
  {
    if LedgerOnly(a, b, run) && LedgerOk(b, run) {
      DataOfLedgerWrite(a, b, run);
    } else if Moves(a, b, run, l) {
      DataOfCas(a, b, run, l);
    }
  }

  lemma DataOfAnyStep(a: System, b: System, run: RunId)
    requires LaneData(a) && AnyStep(a, b, run)
    requires run in b.ledgers ==> IsAncestor(b.ledgers[run].expected, b.ref)
    ensures LaneData(b)
  {
    if SmallStep(a, b, run) {
      DataOfSmallStep(a, b, run);
    } else {
      var l :| LandingStep(a, b, run, l);
      DataOfLandingStep(a, b, run, l);
    }
  }

  // ------------------------------------------------------- control

  predicate ExpectedBehind(s: System, run: RunId) {
    run in s.ledgers ==> IsAncestor(s.ledgers[run].expected, s.ref)
  }

  // The lane is in place after a step of this run.
  predicate InPlace(s: System, run: RunId) {
    LaneSup(s) && ExpectedBehind(s, run)
  }

  lemma EnteredInPlace(s: System, run: RunId, step: Step, k: Cont, ok: bool, raised: bool, commit: Commit)
    requires run in s.runs && Working1(s, run, step, k) && ExpectedBehind(s, run)
    requires step.Enter?
    requires s.runs[run].task in s.queue.tasks && ok
    ensures InPlace(ExamineStep(s, run, step, k, ok, raised, commit), run)
  {
    AloneIsOne(s.ledgers, s.ref, run);
  }

  lemma EnterRefusedInPlace(s: System, run: RunId, step: Step, k: Cont, ok: bool, raised: bool, commit: Commit)
    requires run in s.runs && Working1(s, run, step, k) && ExpectedBehind(s, run)
    requires step.Enter?
    requires s.runs[run].task in s.queue.tasks && !ok
    ensures InPlace(ExamineStep(s, run, step, k, ok, raised, commit), run)
  {
    AloneIsOne(s.ledgers, s.ref, run);
  }

  lemma EnterLostInPlace(s: System, run: RunId, step: Step, k: Cont, ok: bool, raised: bool, commit: Commit)
    requires run in s.runs && Working1(s, run, step, k) && ExpectedBehind(s, run)
    requires step.Enter?
    requires s.runs[run].task !in s.queue.tasks
    ensures InPlace(ExamineStep(s, run, step, k, ok, raised, commit), run)
  {
    AloneIsOne(s.ledgers, s.ref, run);
  }

  lemma EnterInPlace(s: System, run: RunId, step: Step, k: Cont, ok: bool, raised: bool, commit: Commit)
    requires run in s.runs && Working1(s, run, step, k) && ExpectedBehind(s, run)
    requires step.Enter?
    ensures InPlace(ExamineStep(s, run, step, k, ok, raised, commit), run)
  {
    if s.runs[run].task in s.queue.tasks && ok {
      EnteredInPlace(s, run, step, k, ok, raised, commit);
    } else if s.runs[run].task in s.queue.tasks && !ok {
      EnterRefusedInPlace(s, run, step, k, ok, raised, commit);
    } else {
      EnterLostInPlace(s, run, step, k, ok, raised, commit);
    }
  }

  lemma ReadInPlace(s: System, run: RunId, step: Step, k: Cont, ok: bool, raised: bool, commit: Commit)
    requires run in s.runs && Working1(s, run, step, k) && ExpectedBehind(s, run)
    requires step.ReadRef?
    requires ok
    ensures InPlace(ExamineStep(s, run, step, k, ok, raised, commit), run)
  {
    AloneIsOne(s.ledgers, s.ref, run);
  }

  lemma UnreadInPlace(s: System, run: RunId, step: Step, k: Cont, ok: bool, raised: bool, commit: Commit)
    requires run in s.runs && Working1(s, run, step, k) && ExpectedBehind(s, run)
    requires step.ReadRef?
    requires !ok
    ensures InPlace(ExamineStep(s, run, step, k, ok, raised, commit), run)
  {
    AloneIsOne(s.ledgers, s.ref, run);
  }

  lemma ReadRefInPlace(s: System, run: RunId, step: Step, k: Cont, ok: bool, raised: bool, commit: Commit)
    requires run in s.runs && Working1(s, run, step, k) && ExpectedBehind(s, run)
    requires step.ReadRef?
    ensures InPlace(ExamineStep(s, run, step, k, ok, raised, commit), run)
  {
    if ok {
      ReadInPlace(s, run, step, k, ok, raised, commit);
    } else {
      UnreadInPlace(s, run, step, k, ok, raised, commit);
    }
  }

  lemma RebaseInPlace(s: System, run: RunId, step: Step, k: Cont, ok: bool, raised: bool, commit: Commit)
    requires run in s.runs && Working1(s, run, step, k) && ExpectedBehind(s, run)
    requires step.Rebase?
    ensures InPlace(ExamineStep(s, run, step, k, ok, raised, commit), run)
  {
    AloneIsOne(s.ledgers, s.ref, run);
  }

  lemma ReadHeadInPlace(s: System, run: RunId, step: Step, k: Cont, ok: bool, raised: bool, commit: Commit)
    requires run in s.runs && Working1(s, run, step, k) && ExpectedBehind(s, run)
    requires step.ReadHead?
    ensures InPlace(ExamineStep(s, run, step, k, ok, raised, commit), run)
  {
    AloneIsOne(s.ledgers, s.ref, run);
  }

  lemma MarkInPlace(s: System, run: RunId, step: Step, k: Cont, ok: bool, raised: bool, commit: Commit)
    requires run in s.runs && Working1(s, run, step, k) && ExpectedBehind(s, run)
    requires step.MarkVerifying?
    ensures InPlace(ExamineStep(s, run, step, k, ok, raised, commit), run)
  {
  }

  lemma VerifyInPlace(s: System, run: RunId, step: Step, k: Cont, ok: bool, raised: bool, commit: Commit)
    requires run in s.runs && Working1(s, run, step, k) && ExpectedBehind(s, run)
    requires step.Verify?
    ensures InPlace(ExamineStep(s, run, step, k, ok, raised, commit), run)
  {
    AloneIsOne(s.ledgers, s.ref, run);
  }

  lemma SafeMovedInPlace(s: System, run: RunId, step: Step, k: Cont, ok: bool, raised: bool, commit: Commit)
    requires run in s.runs && Working1(s, run, step, k) && ExpectedBehind(s, run)
    requires step.Safety?
    requires ok
    requires step.expected != s.runs[run].start
    ensures InPlace(ExamineStep(s, run, step, k, ok, raised, commit), run)
  {
    AloneIsOne(s.ledgers, s.ref, run);
  }

  lemma SafeUnmovedInPlace(s: System, run: RunId, step: Step, k: Cont, ok: bool, raised: bool, commit: Commit)
    requires run in s.runs && Working1(s, run, step, k) && ExpectedBehind(s, run)
    requires step.Safety?
    requires ok
    requires step.expected == s.runs[run].start
    ensures InPlace(ExamineStep(s, run, step, k, ok, raised, commit), run)
  {
    AloneIsOne(s.ledgers, s.ref, run);
  }

  lemma SafeInPlace(s: System, run: RunId, step: Step, k: Cont, ok: bool, raised: bool, commit: Commit)
    requires run in s.runs && Working1(s, run, step, k) && ExpectedBehind(s, run)
    requires step.Safety?
    requires ok
    ensures InPlace(ExamineStep(s, run, step, k, ok, raised, commit), run)
  {
    if step.expected != s.runs[run].start {
      SafeMovedInPlace(s, run, step, k, ok, raised, commit);
    } else {
      SafeUnmovedInPlace(s, run, step, k, ok, raised, commit);
    }
  }

  lemma UnsafeInPlace(s: System, run: RunId, step: Step, k: Cont, ok: bool, raised: bool, commit: Commit)
    requires run in s.runs && Working1(s, run, step, k) && ExpectedBehind(s, run)
    requires step.Safety?
    requires !ok
    ensures InPlace(ExamineStep(s, run, step, k, ok, raised, commit), run)
  {
    AloneIsOne(s.ledgers, s.ref, run);
  }

  lemma SafetyInPlace(s: System, run: RunId, step: Step, k: Cont, ok: bool, raised: bool, commit: Commit)
    requires run in s.runs && Working1(s, run, step, k) && ExpectedBehind(s, run)
    requires step.Safety?
    ensures InPlace(ExamineStep(s, run, step, k, ok, raised, commit), run)
  {
    if ok {
      SafeInPlace(s, run, step, k, ok, raised, commit);
    } else {
      UnsafeInPlace(s, run, step, k, ok, raised, commit);
    }
  }

  lemma ReviewInPlace(s: System, run: RunId, step: Step, k: Cont, ok: bool, raised: bool, commit: Commit)
    requires run in s.runs && Working1(s, run, step, k) && ExpectedBehind(s, run)
    requires step.Review?
    ensures InPlace(ExamineStep(s, run, step, k, ok, raised, commit), run)
  {
    AloneIsOne(s.ledgers, s.ref, run);
  }

  lemma ExamineInPlace(s: System, run: RunId, step: Step, k: Cont, ok: bool, raised: bool, commit: Commit)
    requires run in s.runs && Working1(s, run, step, k) && ExpectedBehind(s, run)
    requires IsExamine(step)
    ensures InPlace(ExamineStep(s, run, step, k, ok, raised, commit), run)
  {
    match step
    case Enter => EnterInPlace(s, run, step, k, ok, raised, commit);
    case ReadRef => ReadRefInPlace(s, run, step, k, ok, raised, commit);
    case Rebase(_) => RebaseInPlace(s, run, step, k, ok, raised, commit);
    case ReadHead(_) => ReadHeadInPlace(s, run, step, k, ok, raised, commit);
    case MarkVerifying(_, _) => MarkInPlace(s, run, step, k, ok, raised, commit);
    case Verify(_, _) => VerifyInPlace(s, run, step, k, ok, raised, commit);
    case Safety(_, _) => SafetyInPlace(s, run, step, k, ok, raised, commit);
    case Review(_, _) => ReviewInPlace(s, run, step, k, ok, raised, commit);
  }

  lemma PrepareInPlace(s: System, run: RunId, step: Step, k: Cont, ok: bool)
    requires run in s.runs && Working1(s, run, step, k) && ExpectedBehind(s, run)
    requires step.WritePrepared?
    ensures InPlace(CommitStep(s, run, step, k, ok), run)
  {
    AloneAfterWrite(s.ledgers, s.ref, run, NewLedger(s, run, step.expected, step.candidate));
  }

  lemma CasInPlace(s: System, run: RunId, step: Step, k: Cont, ok: bool)
    requires run in s.runs && Working1(s, run, step, k) && ExpectedBehind(s, run)
    requires step.Cas? && s.ref == step.ledger.expected && CommitOk(s, run, step) && Behind(s.ledgers, s.ref)
    ensures InPlace(CommitStep(s, run, step, k, ok), run)
  {
    SlotsSurvive(s.ledgers, s.ref, step.ledger.candidate, run);
    AncestorTransitive(s.ledgers[run].expected, s.ref, step.ledger.candidate);
  }

  lemma CasLostInPlace(s: System, run: RunId, step: Step, k: Cont, ok: bool)
    requires run in s.runs && Working1(s, run, step, k) && ExpectedBehind(s, run)
    requires step.Cas? && s.ref != step.ledger.expected && CommitOk(s, run, step)
    ensures InPlace(CommitStep(s, run, step, k, ok), run)
  {
    AloneIsOne(s.ledgers, s.ref, run);
  }

  lemma IntegrateInPlace(s: System, run: RunId, step: Step, k: Cont, ok: bool)
    requires run in s.runs && Working1(s, run, step, k) && ExpectedBehind(s, run)
    requires step.WriteIntegrated? && CommitOk(s, run, step)
    ensures InPlace(CommitStep(s, run, step, k, ok), run)
  {
    var written := step.ledger.(state := Integrated);
    AloneAfterWrite(s.ledgers, s.ref, run, written);
    AloneIsOne(s.ledgers[run := written], s.ref, run);
  }

  // Writing a ledger that does not wait keeps the slot.
  lemma SlotAfterWrite(ledgers: map<RunId, Ledger>, ref: Commit, run: RunId, l: Ledger)
    requires !Waits(l, ref)
    ensures OneAt(ledgers, ref) ==> OneAt(ledgers[run := l], ref)
    ensures NoneAt(ledgers, ref) ==> NoneAt(ledgers[run := l], ref)
  {
  }

  lemma PushAcceptedInPlace(s: System, run: RunId, step: Step, k: Cont, ok: bool)
    requires run in s.runs && Working1(s, run, step, k) && ExpectedBehind(s, run)
    requires step.Push?
    requires PushAccepted(s, ok)
    ensures InPlace(CommitStep(s, run, step, k, ok), run)
  {
  }

  lemma PushRefusedInPlace(s: System, run: RunId, step: Step, k: Cont, ok: bool)
    requires run in s.runs && Working1(s, run, step, k) && ExpectedBehind(s, run)
    requires step.Push?
    requires !PushAccepted(s, ok)
    ensures InPlace(CommitStep(s, run, step, k, ok), run)
  {
  }

  lemma PushInPlace(s: System, run: RunId, step: Step, k: Cont, ok: bool)
    requires run in s.runs && Working1(s, run, step, k) && ExpectedBehind(s, run)
    requires step.Push?
    ensures InPlace(CommitStep(s, run, step, k, ok), run)
  {
    if PushAccepted(s, ok) {
      PushAcceptedInPlace(s, run, step, k, ok);
    } else {
      PushRefusedInPlace(s, run, step, k, ok);
    }
  }

  lemma PushedInPlace(s: System, run: RunId, step: Step, k: Cont, ok: bool)
    requires run in s.runs && Working1(s, run, step, k) && ExpectedBehind(s, run)
    requires step.WritePushed? && CommitOk(s, run, step)
    ensures InPlace(CommitStep(s, run, step, k, ok), run)
  {
    SlotAfterWrite(s.ledgers, s.ref, run, step.ledger.(pushed := true));
  }

  lemma FinishedInPlace(s: System, run: RunId, step: Step, k: Cont, ok: bool)
    requires run in s.runs && Working1(s, run, step, k) && ExpectedBehind(s, run)
    requires step.FinishTask?
    requires Completes(s, run, step.ledger)
    ensures InPlace(CommitStep(s, run, step, k, ok), run)
  {
  }

  lemma RefusedInPlace(s: System, run: RunId, step: Step, k: Cont, ok: bool)
    requires run in s.runs && Working1(s, run, step, k) && ExpectedBehind(s, run)
    requires step.FinishTask?
    requires !(Completes(s, run, step.ledger))
    ensures InPlace(CommitStep(s, run, step, k, ok), run)
  {
  }

  lemma FinishInPlace(s: System, run: RunId, step: Step, k: Cont, ok: bool)
    requires run in s.runs && Working1(s, run, step, k) && ExpectedBehind(s, run)
    requires step.FinishTask?
    ensures InPlace(CommitStep(s, run, step, k, ok), run)
  {
    if Completes(s, run, step.ledger) {
      FinishedInPlace(s, run, step, k, ok);
    } else {
      RefusedInPlace(s, run, step, k, ok);
    }
  }

  lemma DoneInPlace(s: System, run: RunId, step: Step, k: Cont, ok: bool)
    requires run in s.runs && Working1(s, run, step, k) && ExpectedBehind(s, run)
    requires step.MarkDone?
    ensures InPlace(CommitStep(s, run, step, k, ok), run)
  {
  }

  lemma PendingInPlace(s: System, run: RunId, step: Step, k: Cont, ok: bool)
    requires run in s.runs && Working1(s, run, step, k) && ExpectedBehind(s, run)
    requires step.MarkPending?
    ensures InPlace(CommitStep(s, run, step, k, ok), run)
  {
  }

  lemma CloseInPlace(s: System, run: RunId, step: Step, k: Cont, ok: bool)
    requires run in s.runs && Working1(s, run, step, k) && ExpectedBehind(s, run)
    requires step.WriteFinalized? && CommitOk(s, run, step)
    ensures InPlace(CommitStep(s, run, step, k, ok), run)
  {
    SlotAfterWrite(s.ledgers, s.ref, run, step.ledger.(state := QueueFinalized));
  }

  lemma PublishInPlace(s: System, run: RunId, step: Step, k: Cont, ok: bool)
    requires run in s.runs && Working1(s, run, step, k) && ExpectedBehind(s, run)
    requires IsCommit(step) && CommitOk(s, run, step) && Behind(s.ledgers, s.ref)
    requires step.WritePrepared? || step.Cas? || step.WriteIntegrated? || step.Push?
    ensures InPlace(CommitStep(s, run, step, k, ok), run)
  {
    match step
    case WritePrepared(_, _) => PrepareInPlace(s, run, step, k, ok);
    case Cas(l) =>
      if s.ref == l.expected {
        CasInPlace(s, run, step, k, ok);
      } else {
        CasLostInPlace(s, run, step, k, ok);
      }
    case WriteIntegrated(_) => IntegrateInPlace(s, run, step, k, ok);
    case Push(_) => PushInPlace(s, run, step, k, ok);
  }

  lemma SettleInPlace(s: System, run: RunId, step: Step, k: Cont, ok: bool)
    requires run in s.runs && Working1(s, run, step, k) && ExpectedBehind(s, run)
    requires IsCommit(step) && CommitOk(s, run, step)
    requires !(step.WritePrepared? || step.Cas? || step.WriteIntegrated? || step.Push?)
    ensures InPlace(CommitStep(s, run, step, k, ok), run)
  {
    match step
    case WritePushed(_) => PushedInPlace(s, run, step, k, ok);
    case FinishTask(_) => FinishInPlace(s, run, step, k, ok);
    case MarkDone(_) => DoneInPlace(s, run, step, k, ok);
    case WriteFinalized(_) => CloseInPlace(s, run, step, k, ok);
    case MarkPending => PendingInPlace(s, run, step, k, ok);
  }

  lemma CommitInPlace(s: System, run: RunId, step: Step, k: Cont, ok: bool)
    requires run in s.runs && Working1(s, run, step, k) && ExpectedBehind(s, run)
    requires IsCommit(step) && CommitOk(s, run, step) && Behind(s.ledgers, s.ref)
    ensures InPlace(CommitStep(s, run, step, k, ok), run)
  {
    if step.WritePrepared? || step.Cas? || step.WriteIntegrated? || step.Push? {
      PublishInPlace(s, run, step, k, ok);
    } else {
      SettleInPlace(s, run, step, k, ok);
    }
  }

  lemma ReintegrateInPlace(s: System, run: RunId, step: Step, k: Cont, ok: bool)
    requires run in s.runs && Working1(s, run, step, k) && ExpectedBehind(s, run)
    requires step.RecoverIntegrated? && RecoverOk(s, run, step)
    ensures InPlace(RecoverStep(s, run, step, k, ok), run)
  {
    SlotAfterWrite(s.ledgers, s.ref, run, step.ledger.(state := Integrated));
  }

  lemma RepushInPlace(s: System, run: RunId, step: Step, k: Cont, ok: bool)
    requires run in s.runs && Working1(s, run, step, k) && ExpectedBehind(s, run)
    requires step.RecoverPush?
    ensures InPlace(RecoverStep(s, run, step, k, ok), run)
  {
  }

  lemma RepushedInPlace(s: System, run: RunId, step: Step, k: Cont, ok: bool)
    requires run in s.runs && Working1(s, run, step, k) && ExpectedBehind(s, run)
    requires step.RecoverPushed? && RecoverOk(s, run, step)
    ensures InPlace(RecoverStep(s, run, step, k, ok), run)
  {
    SlotAfterWrite(s.ledgers, s.ref, run, step.ledger.(pushed := true));
  }

  lemma PeekedDoneInPlace(s: System, run: RunId, step: Step, k: Cont, ok: bool)
    requires run in s.runs && Working1(s, run, step, k) && ExpectedBehind(s, run)
    requires step.RecoverPeek?
    requires s.runs[run].task in s.queue.tasks
    requires s.queue.tasks[s.runs[run].task].status == Done
    ensures InPlace(RecoverStep(s, run, step, k, ok), run)
  {
  }

  lemma PeekedOpenInPlace(s: System, run: RunId, step: Step, k: Cont, ok: bool)
    requires run in s.runs && Working1(s, run, step, k) && ExpectedBehind(s, run)
    requires step.RecoverPeek?
    requires s.runs[run].task in s.queue.tasks
    requires s.queue.tasks[s.runs[run].task].status != Done
    ensures InPlace(RecoverStep(s, run, step, k, ok), run)
  {
  }

  lemma PeekedInPlace(s: System, run: RunId, step: Step, k: Cont, ok: bool)
    requires run in s.runs && Working1(s, run, step, k) && ExpectedBehind(s, run)
    requires step.RecoverPeek?
    requires s.runs[run].task in s.queue.tasks
    ensures InPlace(RecoverStep(s, run, step, k, ok), run)
  {
    if s.queue.tasks[s.runs[run].task].status == Done {
      PeekedDoneInPlace(s, run, step, k, ok);
    } else {
      PeekedOpenInPlace(s, run, step, k, ok);
    }
  }

  lemma MissedInPlace(s: System, run: RunId, step: Step, k: Cont, ok: bool)
    requires run in s.runs && Working1(s, run, step, k) && ExpectedBehind(s, run)
    requires step.RecoverPeek?
    requires !(s.runs[run].task in s.queue.tasks)
    ensures InPlace(RecoverStep(s, run, step, k, ok), run)
  {
  }

  lemma PeekInPlace(s: System, run: RunId, step: Step, k: Cont, ok: bool)
    requires run in s.runs && Working1(s, run, step, k) && ExpectedBehind(s, run)
    requires step.RecoverPeek?
    ensures InPlace(RecoverStep(s, run, step, k, ok), run)
  {
    if s.runs[run].task in s.queue.tasks {
      PeekedInPlace(s, run, step, k, ok);
    } else {
      MissedInPlace(s, run, step, k, ok);
    }
  }

  lemma RefinishedInPlace(s: System, run: RunId, step: Step, k: Cont, ok: bool)
    requires run in s.runs && Working1(s, run, step, k) && ExpectedBehind(s, run)
    requires step.RecoverFinish?
    requires Completes(s, run, step.ledger)
    ensures InPlace(RecoverStep(s, run, step, k, ok), run)
  {
    assert RecoverStep(s, run, step, k, ok).sup == Working(run, RecoverMark(step.ledger), k);
  }

  lemma RerefusedInPlace(s: System, run: RunId, step: Step, k: Cont, ok: bool)
    requires run in s.runs && Working1(s, run, step, k) && ExpectedBehind(s, run)
    requires step.RecoverFinish?
    requires !(Completes(s, run, step.ledger))
    ensures InPlace(RecoverStep(s, run, step, k, ok), run)
  {
  }

  lemma RefinishInPlace(s: System, run: RunId, step: Step, k: Cont, ok: bool)
    requires run in s.runs && Working1(s, run, step, k) && ExpectedBehind(s, run)
    requires step.RecoverFinish?
    ensures InPlace(RecoverStep(s, run, step, k, ok), run)
  {
    if Completes(s, run, step.ledger) {
      RefinishedInPlace(s, run, step, k, ok);
    } else {
      RerefusedInPlace(s, run, step, k, ok);
    }
  }

  lemma RemarkInPlace(s: System, run: RunId, step: Step, k: Cont, ok: bool)
    requires run in s.runs && Working1(s, run, step, k) && ExpectedBehind(s, run)
    requires step.RecoverMark?
    ensures InPlace(RecoverStep(s, run, step, k, ok), run)
  {
  }

  lemma RecloseInPlace(s: System, run: RunId, step: Step, k: Cont, ok: bool)
    requires run in s.runs && Working1(s, run, step, k) && ExpectedBehind(s, run)
    requires step.RecoverFinalized? && RecoverOk(s, run, step)
    ensures InPlace(RecoverStep(s, run, step, k, ok), run)
  {
    SlotAfterWrite(s.ledgers, s.ref, run, step.ledger.(state := QueueFinalized));
  }

  lemma RecoverInPlace(s: System, run: RunId, step: Step, k: Cont, ok: bool)
    requires run in s.runs && Working1(s, run, step, k) && ExpectedBehind(s, run)
    requires IsRecover(step) && RecoverOk(s, run, step)
    ensures InPlace(RecoverStep(s, run, step, k, ok), run)
  {
    match step
    case RecoverIntegrated(_) => ReintegrateInPlace(s, run, step, k, ok);
    case RecoverPush(_) => RepushInPlace(s, run, step, k, ok);
    case RecoverPushed(_) => RepushedInPlace(s, run, step, k, ok);
    case RecoverPeek(_) => PeekInPlace(s, run, step, k, ok);
    case RecoverFinish(_) => RefinishInPlace(s, run, step, k, ok);
    case RecoverMark(_) => RemarkInPlace(s, run, step, k, ok);
    case RecoverFinalized(_) => RecloseInPlace(s, run, step, k, ok);
  }

  lemma BlockedInPlace(s: System, run: RunId, step: Step, k: Cont)
    requires run in s.runs && Working1(s, run, step, k) && ExpectedBehind(s, run)
    requires step.BlockFailed? || step.MarkFailed?
    requires step.BlockFailed?
    ensures InPlace(FailureStep(s, run, step, k), run)
  {
  }

  lemma FailedInPlace(s: System, run: RunId, step: Step, k: Cont)
    requires run in s.runs && Working1(s, run, step, k) && ExpectedBehind(s, run)
    requires step.BlockFailed? || step.MarkFailed?
    requires !step.BlockFailed?
    ensures InPlace(FailureStep(s, run, step, k), run)
  {
  }

  lemma BlockInPlace(s: System, run: RunId, step: Step, k: Cont)
    requires run in s.runs && Working1(s, run, step, k) && ExpectedBehind(s, run)
    requires step.BlockFailed? || step.MarkFailed?
    ensures InPlace(FailureStep(s, run, step, k), run)
  {
    if step.BlockFailed? {
      BlockedInPlace(s, run, step, k);
    } else {
      FailedInPlace(s, run, step, k);
    }
  }

  lemma AdoptInPlace(s: System, run: RunId, step: Step, k: Cont)
    requires run in s.runs && Working1(s, run, step, k) && ExpectedBehind(s, run)
    requires step.AdoptMark?
    ensures InPlace(FailureStep(s, run, step, k), run)
  {
  }

  lemma CancelInPlace(s: System, run: RunId, step: Step, k: Cont)
    requires run in s.runs && Working1(s, run, step, k) && ExpectedBehind(s, run)
    requires step.CancelRelease? || step.CancelMark?
    ensures InPlace(FailureStep(s, run, step, k), run)
  {
  }

  lemma FailureInPlace(s: System, run: RunId, step: Step, k: Cont)
    requires run in s.runs && Working1(s, run, step, k) && ExpectedBehind(s, run)
    requires !IsExamine(step) && !IsCommit(step) && !IsRecover(step)
    ensures InPlace(FailureStep(s, run, step, k), run)
  {
    if step.BlockFailed? || step.MarkFailed? {
      BlockInPlace(s, run, step, k);
    } else if step.AdoptMark? {
      AdoptInPlace(s, run, step, k);
    } else {
      CancelInPlace(s, run, step, k);
    }
  }

  // ------------------------------------------------------- every event

  lemma WorkShape(s: System, run: RunId, step: Step, k: Cont, ok: bool, raised: bool, commit: Commit)
    requires Inv(s) && s.sup == Working(run, step, k)
    ensures AnyStep(s, WorkStep(s, run, step, k, ok, raised, commit), run)
  {
    if IsExamine(step) {
      ExamineIsSmall(s, run, step, k, ok, raised, commit);
    } else if IsCommit(step) {
      CommitShape(s, run, step, k, ok);
    } else if IsRecover(step) {
      RecoverShape(s, run, step, k, ok);
    } else {
      FailureIsSmall(s, run, step, k);
    }
  }

  lemma WorkInPlace(s: System, run: RunId, step: Step, k: Cont, ok: bool, raised: bool, commit: Commit)
    requires Lane(s) && s.sup == Working(run, step, k)
    ensures InPlace(WorkStep(s, run, step, k, ok, raised, commit), run)
  {
    assert ExpectedBehind(s, run);
    if IsExamine(step) {
      ExamineInPlace(s, run, step, k, ok, raised, commit);
    } else if IsCommit(step) {
      CommitInPlace(s, run, step, k, ok);
    } else if IsRecover(step) {
      RecoverInPlace(s, run, step, k, ok);
    } else {
      FailureInPlace(s, run, step, k);
    }
  }

  lemma WorkKeepsLane(s: System, run: RunId, step: Step, k: Cont, ok: bool, raised: bool, commit: Commit)
    requires Lane(s) && s.sup == Working(run, step, k)
    ensures Lane(WorkStep(s, run, step, k, ok, raised, commit))
  {
    WorkShape(s, run, step, k, ok, raised, commit);
    WorkInPlace(s, run, step, k, ok, raised, commit);
    DataOfAnyStep(s, WorkStep(s, run, step, k, ok, raised, commit), run);
    WorkKeeps(s, run, step, k, ok, raised, commit);
  }

  lemma PickLedgerLane(s: System, todo: seq<RunId>, errors: bool, ok: bool)
    requires todo != [] && OneAt(s.ledgers, s.ref) && (!errors ==> OpenIn(s.ledgers, todo))
    ensures LaneSup(PickLedger(s, todo, errors, ok))
  {
    assert todo == [todo[0]] + todo[1..];
  }

  lemma PickOrphanLane(s: System, todo: seq<RunId>, errors: bool)
    requires todo != [] && NoneAt(s.ledgers, s.ref)
    requires todo[0] in s.ledgers ==> LedgerOk(s, todo[0])
    ensures LaneSup(PickOrphan(s, todo, errors))
  {
  }

  lemma ControlKeepsLane(s: System, b: System)
    requires Lane(s) && b == s.(sup := b.sup) && Inv(b) && LaneSup(b)
    ensures Lane(b)
  {
  }

  lemma PassEndsLane(s: System, errors: bool, order: seq<RunId>)
    requires OneAt(s.ledgers, s.ref) && (!errors ==> OpenIn(s.ledgers, [])) && s.sup == Recovering([], errors)
    ensures LaneSup(s.(sup := Down))
    ensures !errors ==> LaneSup(s.(sup := Adopting(order, false)))
  {
    NothingOpenNothingWaits(s);
  }

  lemma NothingOpenNothingWaits(s: System)
    ensures OpenIn(s.ledgers, []) ==> NoneAt(s.ledgers, s.ref)
  {
    if OpenIn(s.ledgers, []) {
      forall r | r in s.ledgers
        ensures !Waits(s.ledgers[r], s.ref)
      {
        assert r !in [];
      }
    }
  }

  lemma RecoveringKeepsLane(s: System, todo: seq<RunId>, errors: bool, e: Event)
    requires Lane(s) && s.sup == Recovering(todo, errors) && e.Advance?
    ensures LaneSup(Next(s, e))
  {
    if todo != [] {
      PickLedgerLane(s, todo, errors, e.ok);
    } else {
      PassEndsLane(s, errors, e.order);
    }
  }

  lemma AdoptingKeepsLane(s: System, todo: seq<RunId>, errors: bool, e: Event)
    requires Lane(s) && s.sup == Adopting(todo, errors) && e.Advance?
    ensures LaneSup(Next(s, e))
  {
    if todo != [] {
      assert todo[0] in s.ledgers ==> LedgerOk(s, todo[0]);
      PickOrphanLane(s, todo, errors);
    } else {
      AloneOrNone(s);
    }
  }

  lemma AloneOrNone(s: System)
    requires NoneAt(s.ledgers, s.ref)
    ensures OneAt(s.ledgers, s.ref)
  {
  }

  // The supervisor picks, ends a pass, or does nothing: the data stays.
  lemma RecoveringKeepsData(s: System, e: Event)
    requires e.Advance? && !(s.sup.Working? && s.sup.run in s.runs)
    requires s.sup.Recovering?
    ensures Next(s, e) == s.(sup := Next(s, e).sup)
  {
  }

  lemma OtherwiseKeepsData(s: System, e: Event)
    requires e.Advance? && !(s.sup.Working? && s.sup.run in s.runs)
    requires !s.sup.Recovering?
    ensures Next(s, e) == s.(sup := Next(s, e).sup)
  {
  }

  lemma IdleKeepsData(s: System, e: Event)
    requires e.Advance? && !(s.sup.Working? && s.sup.run in s.runs)
    ensures Next(s, e) == s.(sup := Next(s, e).sup)
  {
    if s.sup.Recovering? {
      RecoveringKeepsData(s, e);
    } else {
      OtherwiseKeepsData(s, e);
    }
  }

  lemma PassKeepsLane(s: System, e: Event)
    requires Lane(s) && e.Advance? && (s.sup.Recovering? || s.sup.Adopting?)
    ensures Lane(Next(s, e))
  {
    IdleKeepsData(s, e);
    AdvanceKeeps(s, e.ok, e.raised, e.commit, e.order);
    if s.sup.Recovering? {
      RecoveringKeepsLane(s, s.sup.todo, s.sup.errors, e);
    } else {
      AdoptingKeepsLane(s, s.sup.todo, s.sup.errors, e);
    }
  }

  lemma AdvanceKeepsLane(s: System, e: Event)
    requires Lane(s) && e.Advance?
    ensures Lane(Next(s, e))
  {
    if s.sup.Working? {
      WorkKeepsLane(s, s.sup.run, s.sup.step, s.sup.k, e.ok, e.raised, e.commit);
    } else if s.sup.Recovering? || s.sup.Adopting? {
      PassKeepsLane(s, e);
    }
  }

  // ------------------------------------------------------- starts, deaths, outsiders

  lemma BootLane(s: System, e: Event)
    requires Lane(s) && e.Boot?
    ensures Lane(Next(s, e))
  {
    LifeKeeps(s, e);
  }

  lemma CrashLane(s: System)
    requires Lane(s)
    ensures Lane(Next(s, Crash))
  {
    LifeKeeps(s, Crash);
    DeathSlot(s);
  }

  lemma DeathSlot(s: System)
    requires LaneSup(s)
    ensures OneAt(s.ledgers, s.ref)
  {
    match s.sup
    case Working(run, step, k) => DeathLeavesOne(s, run, step, k);
    case Adopting(_, _) => AloneOrNone(s);
    case Looping => AloneOrNone(s);
    case _ =>
  }

  lemma DeathLeavesOne(s: System, run: RunId, step: Step, k: Cont)
    requires Slot(s, run, step, k)
    ensures OneAt(s.ledgers, s.ref)
  {
    if Holds(step) {
      AloneIsOne(s.ledgers, s.ref, run);
    } else if !k.ToRecovery? {
      AloneOrNone(s);
    }
  }

  lemma LandLane(s: System, run: RunId)
    requires Lane(s)
    ensures LaneSup(Next(s, Land(run)))
  {
    LandedSlot(s, run);
  }

  lemma CancelLane(s: System, run: RunId)
    requires Lane(s)
    ensures LaneSup(Next(s, Cancel(run)))
  {
  }

  lemma PickLane(s: System, e: Event)
    requires Lane(s) && (e.Land? || e.Cancel?)
    ensures Lane(Next(s, e))
  {
    PickKeeps(s, e);
    PickedOnly(s, e);
    if e.Land? {
      LandLane(s, e.run);
    } else {
      CancelLane(s, e.run);
    }
    ControlKeepsLane(s, Next(s, e));
  }

  lemma PickedOnly(s: System, e: Event)
    requires e.Land? || e.Cancel?
    ensures Next(s, e) == s.(sup := Next(s, e).sup)
  {
  }

  lemma LandedSlot(s: System, run: RunId)
    requires LedgersOk(s)
    ensures Landable(s, run) ==> run !in s.ledgers
  {
    if run in s.ledgers {
      assert LedgerOk(s, run);
    }
  }

  lemma NewCandidateLane(s: System, run: RunId, child: ChildRun)
    requires Lane(s)
    ensures Lane(Next(s, NewCandidate(run, child)))
  {
    var s' := Next(s, NewCandidate(run, child));
    NewCandidateKeeps(s, run, child);
    if s' != s {
      NewRunLane(s, s', run, child);
    }
  }

  lemma NewRunLane(a: System, b: System, run: RunId, child: ChildRun)
    requires Lane(a) && run !in a.runs && ClaimIsNew(a.runs, child) && b == a.(runs := a.runs[run := child])
    ensures LaneData(b) && LaneSup(b)
  {
    assert a.sup.Working? ==> a.sup.run in a.runs;
  }

  lemma OtherCasLane(s: System, expected: Commit, next: Commit)
    requires Lane(s)
    ensures Lane(Next(s, OtherCas(expected, next)))
  {
    var s' := Next(s, OtherCas(expected, next));
    OtherKeeps(s, OtherCas(expected, next));
    if s' != s {
      MovedRefLane(s, s');
    }
  }

  lemma MovedRefLane(a: System, b: System)
    requires Lane(a) && IsAncestor(a.ref, b.ref) && b == a.(ref := b.ref, moves := b.moves)
    ensures LaneData(b) && LaneSup(b)
  {
    RefGrows(a.ledgers, a.ref, b.ref);
    SlotsSurvive(a.ledgers, a.ref, b.ref, if a.sup.Working? then a.sup.run else R(0));
    if a.remote.Some? {
      AncestorTransitive(a.remote.value, a.ref, b.ref);
    }
    if a.sup.Working? && Aim(a.sup.step).Some? {
      AncestorTransitive(Aim(a.sup.step).value, a.ref, b.ref);
    }
  }

  lemma OtherQueueLane(s: System, op: Op)
    requires Lane(s)
    ensures Lane(Next(s, OtherQueue(op)))
  {
    OtherKeeps(s, OtherQueue(op));
  }

  lemma NextKeepsLane(s: System, e: Event)
    requires Lane(s)
    ensures Lane(Next(s, e))
  {
    match e
    case Advance(_, _, _, _) => AdvanceKeepsLane(s, e);
    case Boot(_, _) => BootLane(s, e);
    case Crash => CrashLane(s);
    case Land(_) => PickLane(s, e);
    case Cancel(_) => PickLane(s, e);
    case NewCandidate(run, child) => NewCandidateLane(s, run, child);
    case OtherCas(expected, next) => OtherCasLane(s, expected, next);
    case OtherQueue(op) => OtherQueueLane(s, op);
  }

  lemma {:induction false} ExecuteKeepsLane(s: System, es: seq<Event>)
    requires Lane(s)
    ensures Lane(Execute(s, es))
    decreases |es|
  {
    if es != [] {
      NextKeepsLane(s, es[0]);
      ExecuteKeepsLane(Next(s, es[0]), es[1..]);
    }
  }

  // A repository nothing was landed in, with a valid queue and nothing unknown on the remote.
  predicate Start(s: System) {
    Initial(s) && ValidQueue(s.queue) && RemoteBehind(s)
  }

  lemma StartLane(s: System)
    requires Start(s)
    ensures Lane(s)
  {
    InitialInv(s);
  }

  // In every run: a valid queue, the remote behind the ref, one child run to a claim, and at
  // most one open ledger whose CAS would still succeed.
  lemma EveryRunIsSound(s: System, es: seq<Event>)
    requires Start(s)
    ensures var now := Execute(s, es);
            && ValidQueue(now.queue) && RemoteBehind(now) && ClaimsDistinct(now.runs)
            && OneAt(now.ledgers, now.ref)
  {
    StartLane(s);
    ExecuteKeepsLane(s, es);
    CrashLane(Execute(s, es));
  }
}
