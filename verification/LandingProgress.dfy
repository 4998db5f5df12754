/**
 * A lucky pass over the ledgers or over the orphans, run by run: it comes to its end, and it
 * delivers every landing it owes, whatever becomes of the others.
 */
module LandingProgress {
  import opened Commits
  import opened QueueModel
  import opened LandingModel
  import opened LandingSafety
  import opened LandingTheorems
  import opened LandingReach
  import opened LandingFrame
  import opened LandingPass

  predicate InRecovery(sup: Supervisor) {
    sup.Recovering? || (sup.Working? && sup.k.ToRecovery?)
  }

  predicate InAdoption(sup: Supervisor) {
    sup.Adopting? || (sup.Working? && sup.k.ToAdoption?)
  }

  function ContTodo(k: Cont): seq<RunId> {
    if k.ToLoop? then [] else k.todo
  }

  // What the pass has still to look at.
  function Todo(sup: Supervisor): seq<RunId> {
    match sup
    case Recovering(todo, _) => todo
    case Adopting(todo, _) => todo
    case Working(_, _, k) => ContTodo(k)
    case _ => []
  }

  predicate Errors(sup: Supervisor) {
    match sup
    case Recovering(_, errors) => errors
    case Adopting(_, errors) => errors
    case Working(_, _, k) => !k.ToLoop? && k.errors
    case _ => false
  }

  predicate OnLane(s: System) {
    match s.sup
    case Recovering(_, _) => true
    case Adopting(_, _) => true
    case Working(_, step, k) => !k.ToLoop? && OnPass(step) && AimsAtRef(s, step)
    case _ => false
  }

  predicate Underway(s: System) {
    Lane(s) && OnLane(s)
  }

  // The pass has looked at everything.
  predicate Ended(sup: Supervisor) {
    (sup.Recovering? || sup.Adopting?) && sup.todo == []
  }

  // Steps the pass still takes.
  function Remaining(sup: Supervisor): nat {
    17 * |Todo(sup)| + (if sup.Working? then Left(sup.step) else 0)
  }

  // The pass has gone one step on.
  predicate Onward(a: Supervisor, b: Supervisor) {
    && Remaining(b) < Remaining(a)
    && InRecovery(b) == InRecovery(a) && InAdoption(b) == InAdoption(a)
  }

  lemma IsGrounded(s: System)
    requires Underway(s) && s.sup.Working?
    ensures Grounded(s, s.sup.run, s.sup.step, s.sup.k)
  {
    if s.sup.run in s.ledgers {
      assert LedgerOk(s, s.sup.run);
    }
  }

  // ------------------------------------------------- the next step

  lemma WorkGoesOn(s: System, e: Event)
    requires Underway(s) && s.sup.Working? && Lucky(s, e)
    ensures Steps(s, Next(s, e), s.sup.run, s.sup.step, s.sup.k)
    ensures Frame(s, Next(s, e), s.sup.run, s.sup.step, s.sup.k)
  {
    IsGrounded(s);
    WorkSteps(s, s.sup.run, s.sup.step, s.sup.k, e.raised, e.commit);
    WorkFrame(s, s.sup.run, s.sup.step, s.sup.k, true, e.raised, e.commit);
  }

  lemma GoesOnward(a: System, b: System, run: RunId, step: LandingModel.Step, k: Cont)
    requires a.sup == Working(run, step, k) && !k.ToLoop? && GoesOn(b, run, step, k)
    ensures Onward(a.sup, b.sup) && OnLane(b)
    ensures Todo(b.sup) == Todo(a.sup)
  {
  }

  // What the pass does with the first of its listing.
  function Picked(s: System, run: RunId, k: Cont): Supervisor {
    if k.ToRecovery? then
      if !Open(s, run) then Recovering(k.todo, k.errors)
      else if BeforeCas(s, run) then Working(run, Enter, k)
      else if !IsAncestor(s.ledgers[run].candidate, s.ref) then Recovering(k.todo, true)
      else Working(run, RecoverIntegrated(s.ledgers[run]), k)
    else if k.ToAdoption? then
      if run !in s.runs || s.runs[run].status != CandidateReady then Adopting(k.todo, k.errors)
      else if TaskDone(s, run) then Working(run, AdoptMark, k)
      else if !Live(s, run) then Adopting(k.todo, true)
      else Working(run, Enter, k)
    else Looping
  }

  function RestOf(sup: Supervisor): Cont
    requires (sup.Recovering? || sup.Adopting?) && sup.todo != []
  {
    if sup.Recovering? then ToRecovery(sup.todo[1..], sup.errors) else ToAdoption(sup.todo[1..], sup.errors)
  }

  lemma LedgerPicked(s: System, e: Event)
    requires Lucky(s, e) && s.sup.Recovering? && s.sup.todo != []
    ensures Next(s, e) == s.(sup := Picked(s, s.sup.todo[0], RestOf(s.sup)))
  {
  }

  lemma OrphanPicked(s: System, e: Event)
    requires Lucky(s, e) && s.sup.Adopting? && s.sup.todo != []
    ensures Next(s, e) == s.(sup := Picked(s, s.sup.todo[0], RestOf(s.sup)))
  {
  }

  lemma PicksNext(s: System, e: Event)
    requires Lucky(s, e) && (s.sup.Recovering? || s.sup.Adopting?) && s.sup.todo != []
    ensures Next(s, e) == s.(sup := Picked(s, s.sup.todo[0], RestOf(s.sup)))
  {
    if s.sup.Recovering? {
      LedgerPicked(s, e);
    } else {
      OrphanPicked(s, e);
    }
  }

  lemma PickedOnward(s: System, b: System)
    requires (s.sup.Recovering? || s.sup.Adopting?) && s.sup.todo != []
    requires b == s.(sup := Picked(s, s.sup.todo[0], RestOf(s.sup)))
    ensures Onward(s.sup, b.sup) && OnLane(b)
    ensures Todo(b.sup) == Todo(s.sup)[1..]
  {
  }

  lemma NextUnderway(s: System, e: Event)
    requires Underway(s) && Lucky(s, e) && !Ended(s.sup)
    ensures Underway(Next(s, e)) && Onward(s.sup, Next(s, e).sup)
  {
    NextKeepsLane(s, e);
    if s.sup.Working? {
      WorkGoesOn(s, e);
      GoesOnward(s, Next(s, e), s.sup.run, s.sup.step, s.sup.k);
    } else {
      PicksNext(s, e);
      PickedOnward(s, Next(s, e));
    }
  }

  // ------------------------------------------------- bystanders

  // No two runs hold one claim.
  lemma OneHolder(s: System, r: RunId, x: RunId)
    requires ClaimsDistinct(s.runs) && r != x && Live(s, r) && Live(s, x)
    ensures s.runs[r].task != s.runs[x].task
  {
  }

  // The lane completes no claim but its own run's.
  lemma LiveSurvives(a: System, b: System, run: RunId, step: LandingModel.Step, k: Cont, r: RunId)
    requires Grounded(a, run, step, k) && ClaimsDistinct(a.runs) && Frame(a, b, run, step, k)
    requires r != run && Live(a, r)
    ensures Live(b, r)
  {
    OthersKeepFiles(a, b, run, r);
    QueueAfter(a, b, run, step, k);
    if b.queue != a.queue {
      OneHolder(a, r, run);
    }
  }

  // The queue is as it was, or the run's own claim was completed.
  lemma QueueAfter(a: System, b: System, run: RunId, step: LandingModel.Step, k: Cont)
    requires Grounded(a, run, step, k) && Frame(a, b, run, step, k)
    ensures b.queue == a.queue
            || (IsFinish(step) && Live(a, run)
                && b.queue == Put(a.queue, a.runs[run].task, CompletedTask(a.queue.tasks[a.runs[run].task], false)))
  {
    if IsFinish(step) {
      CompletesIffLive(a, run, step.ledger);
    }
  }

  // The ref moves only for the ledger that waits at it.
  lemma WaitingHoldsRef(a: System, b: System, run: RunId, step: LandingModel.Step, k: Cont, r: RunId)
    requires Working1(a, run, step, k) && run in a.runs && MovesAtCas(a, b, step) && r != run && BeforeCas(a, r)
    ensures b.ref == a.ref
  {
  }

  lemma StaysWaiting(a: System, b: System, run: RunId, step: LandingModel.Step, k: Cont, r: RunId)
    requires Lane(a) && a.sup == Working(run, step, k) && Grounded(a, run, step, k) && Frame(a, b, run, step, k)
    requires r != run && BeforeCas(a, r) && Live(a, r)
    ensures BeforeCas(b, r) && Live(b, r)
  {
    OthersKeepFiles(a, b, run, r);
    LiveSurvives(a, b, run, step, k, r);
    WaitingHoldsRef(a, b, run, step, k, r);
  }

  lemma StaysContained(a: System, b: System, r: RunId)
    requires Grows(a, b) && Behind(a.ledgers, a.ref) && SameFiles(a, b, r)
    requires r in a.ledgers && !BeforeCas(a, r) && IsAncestor(a.ledgers[r].candidate, a.ref)
    ensures !BeforeCas(b, r) && IsAncestor(b.ledgers[r].candidate, b.ref)
  {
    PassedForGood(a.ledgers[r], a.ref, b.ref);
    StillContains(a, b, a.ledgers[r].candidate);
  }

  lemma StaysRecoverable(a: System, b: System, run: RunId, step: LandingModel.Step, k: Cont, r: RunId)
    requires Lane(a) && a.sup == Working(run, step, k) && Grounded(a, run, step, k)
    requires Frame(a, b, run, step, k) && Grows(a, b)
    requires r != run && Open(a, r) && Recoverable(a, r)
    ensures Open(b, r) && Recoverable(b, r)
  {
    OthersKeepFiles(a, b, run, r);
    if BeforeCas(a, r) {
      StaysWaiting(a, b, run, step, k, r);
    } else {
      StaysContained(a, b, r);
      if Live(a, r) {
        LiveSurvives(a, b, run, step, k, r);
      } else {
        DoneSurvives(a, b, r);
      }
    }
  }

  lemma DoneSurvives(a: System, b: System, r: RunId)
    requires Grows(a, b)
    ensures TaskDone(a, r) ==> TaskDone(b, r)
  {
  }

  lemma StaysAwaiting(a: System, b: System, run: RunId, step: LandingModel.Step, k: Cont, r: RunId)
    requires Grounded(a, run, step, k) && ClaimsDistinct(a.runs) && Frame(a, b, run, step, k)
    requires r != run && Awaiting(a, r)
    ensures Awaiting(b, r)
  {
    OthersKeepFiles(a, b, run, r);
    LiveSurvives(a, b, run, step, k, r);
  }

  lemma LandedSurvives(a: System, b: System, r: RunId)
    requires LedgersForward(a, b) && Landed(a, r)
    ensures Landed(b, r)
  {
  }

  // ------------------------------------------------- what a pass owes

  // The pass will land run r: it is at it and nothing is in the way, or will come to it.
  predicate Owed(s: System, r: RunId) {
    if s.sup.Working? && s.sup.run == r then OnCourse(s, r, s.sup.step)
    else Landed(s, r) || (r in Todo(s.sup) && Due(s, r))
  }

  predicate Due(s: System, r: RunId) {
    if InRecovery(s.sup) then Open(s, r) && Recoverable(s, r) else Awaiting(s, r)
  }

  lemma DueAfterWork(s: System, e: Event, r: RunId)
    requires Underway(s) && Lucky(s, e) && s.sup.Working? && s.sup.run != r && Due(s, r)
    ensures Due(Next(s, e), r)
  {
    NextUnderway(s, e);
    WorkGoesOn(s, e);
    IsGrounded(s);
    NextKeeps(s, e);
    if InRecovery(s.sup) {
      StaysRecoverable(s, Next(s, e), s.sup.run, s.sup.step, s.sup.k, r);
    } else {
      StaysAwaiting(s, Next(s, e), s.sup.run, s.sup.step, s.sup.k, r);
    }
  }

  lemma OthersOwed(s: System, e: Event, r: RunId)
    requires Underway(s) && Lucky(s, e) && s.sup.Working? && s.sup.run != r && Owed(s, r)
    ensures Owed(Next(s, e), r)
  {
    WorkGoesOn(s, e);
    GoesOnward(s, Next(s, e), s.sup.run, s.sup.step, s.sup.k);
    if Landed(s, r) {
      NextForward(s, e);
      LandedSurvives(s, Next(s, e), r);
    } else {
      DueAfterWork(s, e, r);
    }
  }

  lemma OwnOwed(s: System, e: Event, r: RunId)
    requires Underway(s) && Lucky(s, e) && s.sup.Working? && s.sup.run == r && Owed(s, r)
    ensures Owed(Next(s, e), r)
  {
    WorkGoesOn(s, e);
  }

  lemma PickedFirst(s: System, b: System, r: RunId)
    requires (s.sup.Recovering? || s.sup.Adopting?) && s.sup.todo != [] && s.sup.todo[0] == r && Owed(s, r)
    requires r in s.ledgers ==> LedgerOk(s, r)
    requires b == s.(sup := Picked(s, r, RestOf(s.sup)))
    ensures Owed(b, r)
  {
  }

  lemma PickedLater(s: System, b: System, r: RunId)
    requires (s.sup.Recovering? || s.sup.Adopting?) && s.sup.todo != [] && s.sup.todo[0] != r && Owed(s, r)
    requires b == s.(sup := Picked(s, s.sup.todo[0], RestOf(s.sup)))
    ensures Owed(b, r)
  {
    PickedOnward(s, b);
    assert Due(b, r) == Due(s, r);
    assert s.sup.todo == [s.sup.todo[0]] + s.sup.todo[1..];
  }

  lemma NextOwes(s: System, e: Event, r: RunId)
    requires Underway(s) && Lucky(s, e) && !Ended(s.sup) && Owed(s, r)
    ensures Owed(Next(s, e), r)
  {
    if s.sup.Working? {
      if s.sup.run == r {
        OwnOwed(s, e, r);
      } else {
        OthersOwed(s, e, r);
      }
    } else {
      PicksNext(s, e);
      if s.sup.todo[0] == r {
        assert r in s.ledgers ==> LedgerOk(s, r);
        PickedFirst(s, Next(s, e), r);
      } else {
        PickedLater(s, Next(s, e), r);
      }
    }
  }

  // ------------------------------------------------- claims and completions

  // The run's claim has been completed, for the candidate its ledger names.
  predicate Paid(s: System, r: RunId) {
    && r in s.runs && r in s.ledgers && s.ledgers[r].state != Prepared
    && Completion(r, s.runs[r].task, s.ledgers[r].lease, s.ledgers[r].candidate) in s.completions
  }

  lemma PaidSurvives(a: System, b: System, r: RunId)
    requires Paid(a, r) && LedgersForward(a, b) && Grows(a, b) && a.completions <= b.completions
    ensures Paid(b, r)
  {
    assert RunKept(a.runs[r], b.runs[r]);
  }

  // A claim that is gone after the step was completed by it.
  lemma FinishPays(a: System, b: System, run: RunId, step: LandingModel.Step, k: Cont)
    requires Grounded(a, run, step, k) && Frame(a, b, run, step, k) && Live(a, run) && b.queue != a.queue
    requires run in b.runs && b.runs[run].task == a.runs[run].task
    requires LedgersForward(a, b)
    ensures Paid(b, run)
  {
    QueueAfter(a, b, run, step, k);
    CompletesIffLive(a, run, step.ledger);
    var c := Completion(run, a.runs[run].task, step.ledger.lease, step.ledger.candidate);
    assert b.completions[|a.completions|] == c;
    FinishedLedger(a, b, run, step, k);
  }

  lemma FinishedLedger(a: System, b: System, run: RunId, step: LandingModel.Step, k: Cont)
    requires Grounded(a, run, step, k) && IsFinish(step) && LedgersForward(a, b)
    ensures run in b.ledgers && b.ledgers[run].state != Prepared
    ensures b.ledgers[run].lease == step.ledger.lease && b.ledgers[run].candidate == step.ledger.candidate
  {
    assert run in a.ledgers && a.ledgers[run] == step.ledger && step.ledger.state == Integrated;
    assert Forward(a.ledgers[run], b.ledgers[run]);
  }

  lemma CompletionsGrow(a: System, b: System, run: RunId, step: LandingModel.Step, k: Cont)
    requires run in a.runs && Frame(a, b, run, step, k)
    ensures a.completions <= b.completions
  {
  }

  // The claim is held still, or was completed for what the ledger names.
  predicate Accounted(s: System, r: RunId) {
    Live(s, r) || Paid(s, r)
  }

  lemma ClaimAfterWork(s: System, e: Event, r: RunId)
    requires Underway(s) && Lucky(s, e) && s.sup.Working? && Live(s, r)
    ensures Accounted(Next(s, e), r)
  {
    WorkGoesOn(s, e);
    IsGrounded(s);
    NextKeeps(s, e);
    NextForward(s, e);
    if s.sup.run != r {
      LiveSurvives(s, Next(s, e), s.sup.run, s.sup.step, s.sup.k, r);
    } else {
      OwnClaimAfterWork(s, Next(s, e), r, s.sup.step, s.sup.k);
    }
  }

  lemma OwnClaimAfterWork(a: System, b: System, run: RunId, step: LandingModel.Step, k: Cont)
    requires Grounded(a, run, step, k) && Frame(a, b, run, step, k) && Live(a, run)
    requires LedgersForward(a, b) && RunsKept(a, b)
    ensures Accounted(b, run)
  {
    assert run in b.runs && RunKept(a.runs[run], b.runs[run]);
    if b.queue != a.queue {
      FinishPays(a, b, run, step, k);
    }
  }

  lemma PaidAfterWork(s: System, e: Event, r: RunId)
    requires Underway(s) && Lucky(s, e) && s.sup.Working? && Paid(s, r)
    ensures Paid(Next(s, e), r)
  {
    WorkGoesOn(s, e);
    NextKeeps(s, e);
    NextForward(s, e);
    CompletionsGrow(s, Next(s, e), s.sup.run, s.sup.step, s.sup.k);
    PaidSurvives(s, Next(s, e), r);
  }

  lemma NextAccounts(s: System, e: Event, r: RunId)
    requires Underway(s) && Lucky(s, e) && !Ended(s.sup) && Accounted(s, r)
    ensures Accounted(Next(s, e), r)
  {
    if !s.sup.Working? {
      PicksNext(s, e);
    } else if Live(s, r) {
      ClaimAfterWork(s, e, r);
    } else {
      PaidAfterWork(s, e, r);
    }
  }

  // ------------------------------------------------- waiting for adoption

  // The candidate waits while recovery is at other runs.
  predicate Parked(s: System, r: RunId) {
    InRecovery(s.sup) && Awaiting(s, r) && (s.sup.Working? ==> s.sup.run != r)
  }

  lemma PickLeavesParked(s: System, b: System, r: RunId)
    requires s.sup.Recovering? && s.sup.todo != [] && b == s.(sup := Picked(s, s.sup.todo[0], RestOf(s.sup)))
    requires Parked(s, r)
    ensures Parked(b, r)
  {
  }

  lemma NextLeavesParked(s: System, e: Event, r: RunId)
    requires Underway(s) && Lucky(s, e) && !Ended(s.sup) && Parked(s, r)
    ensures Parked(Next(s, e), r)
  {
    NextUnderway(s, e);
    if s.sup.Working? {
      WorkGoesOn(s, e);
      IsGrounded(s);
      StaysAwaiting(s, Next(s, e), s.sup.run, s.sup.step, s.sup.k, r);
    } else {
      PicksNext(s, e);
      PickLeavesParked(s, Next(s, e), r);
    }
  }

  // Recovery begins no ledger.
  predicate SameLedgers(a: System, b: System) {
    InRecovery(a.sup) ==> InRecovery(b.sup) && b.ledgers.Keys == a.ledgers.Keys
  }

  // Under recovery the run worked on has a ledger.
  lemma WorksOnLedger(s: System)
    requires Lane(s) && s.sup.Working? && s.sup.k.ToRecovery? && OnPass(s.sup.step)
    ensures s.sup.run in s.ledgers
  {
  }

  lemma NextKeepsLedgers(s: System, e: Event)
    requires Underway(s) && Lucky(s, e) && !Ended(s.sup)
    ensures SameLedgers(s, Next(s, e))
  {
    NextUnderway(s, e);
    if !s.sup.Working? {
      PicksNext(s, e);
    } else if InRecovery(s.sup) {
      WorksOnLedger(s);
      WorkGoesOn(s, e);
      KeysAfterOwnWrite(s, Next(s, e), s.sup.run);
    }
  }

  lemma KeysAfterOwnWrite(a: System, b: System, run: RunId)
    requires OwnWrites(a, b, run) && run in a.ledgers
    ensures b.ledgers.Keys == a.ledgers.Keys
  {
  }

  // ------------------------------------------------- the whole pass

  // What is owed and what is accounted for stays so.
  ghost predicate Honours(a: System, b: System) {
    && LedgersForward(a, b) && Grows(a, b) && SameLedgers(a, b)
    && (forall r :: Owed(a, r) ==> Owed(b, r))
    && (forall r :: Accounted(a, r) ==> Accounted(b, r))
    && (forall r :: Parked(a, r) ==> Parked(b, r))
  }

  lemma NextHonours(s: System, e: Event)
    requires Underway(s) && Lucky(s, e) && !Ended(s.sup)
    ensures Honours(s, Next(s, e))
  {
    NextKeeps(s, e);
    NextForward(s, e);
    NextKeepsLedgers(s, e);
    forall r | Owed(s, r)
      ensures Owed(Next(s, e), r)
    {
      NextOwes(s, e, r);
    }
    forall r | Accounted(s, r)
      ensures Accounted(Next(s, e), r)
    {
      NextAccounts(s, e, r);
    }
    forall r | Parked(s, r)
      ensures Parked(Next(s, e), r)
    {
      NextLeavesParked(s, e, r);
    }
  }

  lemma ForwardChains(a: System, b: System, c: System)
    requires LedgersForward(a, b) && LedgersForward(b, c)
    ensures LedgersForward(a, c)
  {
  }

  lemma HonoursChains(a: System, b: System, c: System)
    requires Honours(a, b) && Honours(b, c)
    ensures Honours(a, c)
  {
    ForwardChains(a, b, c);
    GrowsTransitive(a, b, c);
  }

  // The pass that s is in has come to its end, with every debt paid.
  ghost predicate Over(s: System, end: System) {
    && Underway(end) && Ended(end.sup)
    && InRecovery(end.sup) == InRecovery(s.sup) && InAdoption(end.sup) == InAdoption(s.sup)
    && Honours(s, end)
  }

  lemma OverChains(a: System, b: System, end: System)
    requires Honours(a, b) && Over(b, end)
    requires InRecovery(b.sup) == InRecovery(a.sup) && InAdoption(b.sup) == InAdoption(a.sup)
    ensures Over(a, end)
  {
    HonoursChains(a, b, end);
  }

  lemma ExecuteHead(s: System, es: seq<Event>, m: nat)
    requires m < |es|
    ensures Execute(s, es[..m + 1]) == Execute(Next(s, es[0]), es[1..][..m])
  {
    assert es[..m + 1][1..] == es[1..][..m];
  }

  // The events that are left are lucky for the state they meet.
  lemma {:induction false} LuckyRest(s: System, es: seq<Event>, n: nat)
    requires AllLucky(s, es) && n <= |es|
    ensures AllLucky(Execute(s, es[..n]), es[n..])
    decreases n
  {
    if n > 0 {
      LuckyRest(Next(s, es[0]), es[1..], n - 1);
      ExecuteHead(s, es, n - 1);
      assert es[1..][n - 1..] == es[n..];
    } else {
      assert es[0..] == es;
    }
  }

  // A lucky pass ends within 17 steps for each entry of its listing.
  lemma {:induction false} PassFinishes(s: System, es: seq<Event>) returns (n: nat)
    requires Underway(s) && AllLucky(s, es) && |es| >= Remaining(s.sup)
    ensures n <= |es| && n <= Remaining(s.sup) && Over(s, Execute(s, es[..n]))
    decreases Remaining(s.sup)
  {
    if Ended(s.sup) {
      n := 0;
      GrowsReflexive(s);
    } else {
      RemainsToDo(s);
      NextUnderway(s, es[0]);
      NextHonours(s, es[0]);
      var m := PassFinishes(Next(s, es[0]), es[1..]);
      n := m + 1;
      ExecuteHead(s, es, m);
      OverChains(s, Next(s, es[0]), Execute(s, es[..n]));
    }
  }

  lemma RemainsToDo(s: System)
    requires OnLane(s) && !Ended(s.sup)
    ensures Remaining(s.sup) > 0
  {
  }

  // At the end nothing is owed but what was delivered.
  lemma DebtsPaid(s: System, r: RunId)
    requires Lane(s) && Ended(s.sup) && Owed(s, r)
    ensures Landed(s, r) && TaskDone(s, r) && IsAncestor(s.ledgers[r].candidate, s.ref)
    ensures s.ledgers[r].pushRequired ==> OnRemote(s, s.ledgers[r].candidate)
    ensures Accounted(s, r) ==> Paid(s, r)
  {
    assert LedgerOk(s, r);
  }
}
