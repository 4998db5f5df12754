/**
 * Recovery converges, ledger by ledger: a restarted supervisor whose commands succeed
 * finalizes exactly the ledgers it can finalize, completes each live claim once, goes on to
 * adoption if and only if no ledger stays open, and leaves nothing for a second pass.
 */
module LandingRecovery {
  import opened Wrappers
  import opened Commits
  import opened QueueModel
  import opened LandingModel
  import opened LandingSafety
  import opened LandingTheorems
  import opened LandingReach
  import opened LandingFrame
  import opened LandingPass
  import opened LandingProgress

  // ------------------------------------------------- one ledger's turn

  // The work on a run is bound to finalize it, or bound to fail.
  predicate Bound(s: System, run: RunId, k: Cont, good: bool) {
    && s.sup.Working? && s.sup.run == run && s.sup.k == k
    && (if good then OnCourse(s, run, s.sup.step) else Doomed(s, run, s.sup.step))
  }

  function WorkLeft(sup: Supervisor): nat {
    if sup.Working? then Left(sup.step) else 0
  }

  // It has ended: finalized without an error, or open with one.
  predicate WorkOver(s: System, run: RunId, k: Cont, good: bool) {
    s.sup == Return(s, k, good).sup && (if good then Landed(s, run) else Open(s, run))
  }

  lemma StepDecides(s: System, e: Event, run: RunId, k: Cont, good: bool)
    requires Underway(s) && Lucky(s, e) && Bound(s, run, k, good)
    ensures Underway(Next(s, e))
    ensures Bound(Next(s, e), run, k, good) || WorkOver(Next(s, e), run, k, good)
    ensures Bound(Next(s, e), run, k, good) ==> WorkLeft(Next(s, e).sup) < WorkLeft(s.sup)
  {
    NextUnderway(s, e);
    WorkGoesOn(s, e);
  }

  lemma LuckyHead(s: System, es: seq<Event>)
    requires AllLucky(s, es) && es != []
    ensures Lucky(s, es[0]) && AllLucky(Next(s, es[0]), es[1..])
    ensures Execute(s, es[..1]) == Next(s, es[0])
  {
    ExecuteHead(s, es, 0);
  }

  lemma {:induction false} WorkEnds(s: System, es: seq<Event>, run: RunId, k: Cont, good: bool) returns (n: nat)
    requires Underway(s) && Bound(s, run, k, good) && AllLucky(s, es) && |es| >= WorkLeft(s.sup)
    ensures n <= |es| && n <= WorkLeft(s.sup)
    ensures Underway(Execute(s, es[..n])) && WorkOver(Execute(s, es[..n]), run, k, good)
    decreases WorkLeft(s.sup)
  {
    LuckyHead(s, es);
    StepDecides(s, es[0], run, k, good);
    if Bound(Next(s, es[0]), run, k, good) {
      var m := WorkEnds(Next(s, es[0]), es[1..], run, k, good);
      n := m + 1;
      ExecuteHead(s, es, m);
    } else {
      n := 1;
    }
  }

  lemma TurnBegins(s: System, b: System, run: RunId)
    requires s.sup.Recovering? && s.sup.todo != [] && s.sup.todo[0] == run && Open(s, run)
    requires b == s.(sup := Picked(s, run, RestOf(s.sup)))
    ensures b.sup.Working? ==> Bound(b, run, RestOf(s.sup), Recoverable(s, run)) && WorkLeft(b.sup) <= 16
    ensures !b.sup.Working? ==> WorkOver(b, run, RestOf(s.sup), false) && !Recoverable(s, run)
  {
  }

  lemma TurnEnds(s: System, es: seq<Event>, run: RunId) returns (n: nat)
    requires Underway(s) && s.sup.Recovering? && s.sup.todo != [] && s.sup.todo[0] == run && Open(s, run)
    requires AllLucky(s, es) && |es| >= 17
    ensures n <= 17 && Underway(Execute(s, es[..n]))
    ensures WorkOver(Execute(s, es[..n]), run, RestOf(s.sup), Recoverable(s, run))
  {
    LuckyHead(s, es);
    NextUnderway(s, es[0]);
    PicksNext(s, es[0]);
    var b := Next(s, es[0]);
    TurnBegins(s, b, run);
    if b.sup.Working? {
      var m := WorkEnds(b, es[1..], run, RestOf(s.sup), Recoverable(s, run));
      n := m + 1;
      ExecuteHead(s, es, m);
    } else {
      n := 1;
    }
  }

  // At its turn a ledger is finalized if and only if it is recoverable then, and counts as
  // an error otherwise.
  lemma TurnDecides(s: System, es: seq<Event>, run: RunId) returns (n: nat)
    requires Underway(s) && s.sup.Recovering? && s.sup.todo != [] && s.sup.todo[0] == run && Open(s, run)
    requires AllLucky(s, es) && |es| >= 17
    ensures n <= 17
    ensures Underway(Execute(s, es[..n]))
    ensures Execute(s, es[..n]).sup == Recovering(s.sup.todo[1..], s.sup.errors || !Recoverable(s, run))
    ensures Landed(Execute(s, es[..n]), run) <==> Recoverable(s, run)
  {
    n := TurnEnds(s, es, run);
    TurnIsOver(s, Execute(s, es[..n]), run, Recoverable(s, run));
  }

  lemma TurnIsOver(s: System, end: System, run: RunId, good: bool)
    requires s.sup.Recovering? && s.sup.todo != [] && WorkOver(end, run, RestOf(s.sup), good)
    ensures end.sup == Recovering(s.sup.todo[1..], s.sup.errors || !good)
    ensures Landed(end, run) <==> good
  {
  }

  // ------------------------------------------------- the error flag

  // A ledger the pass has been at and left open.
  predicate LeftOpen(s: System, r: RunId) {
    Open(s, r) && r !in Todo(s.sup) && (s.sup.Working? ==> s.sup.run != r)
  }

  // Every error is some ledger's that was left open.
  ghost predicate Blamed(s: System) {
    Errors(s.sup) ==> exists r :: LeftOpen(s, r)
  }

  // A recovery pass from its start.
  ghost predicate Passing(s: System) {
    && Underway(s) && InRecovery(s.sup) && Distinct(Todo(s.sup)) && Blamed(s)
    && (s.sup.Working? ==>
          && s.sup.run !in Todo(s.sup)
          && (Bound(s, s.sup.run, s.sup.k, true) || Bound(s, s.sup.run, s.sup.k, false)))
  }

  lemma StaysLeftOpen(a: System, b: System, r: RunId)
    requires a.sup.Working? && a.sup.run in a.runs && Frame(a, b, a.sup.run, a.sup.step, a.sup.k)
    requires LeftOpen(a, r) && Todo(b.sup) == Todo(a.sup)
    ensures LeftOpen(b, r)
  {
    OthersKeepFiles(a, b, a.sup.run, r);
  }

  lemma WorkBlames(s: System, e: Event, good: bool)
    requires Passing(s) && Lucky(s, e) && s.sup.Working? && Bound(s, s.sup.run, s.sup.k, good)
    ensures Blamed(Next(s, e))
  {
    var b := Next(s, e);
    WorkGoesOn(s, e);
    GoesOnward(s, b, s.sup.run, s.sup.step, s.sup.k);
    StepDecides(s, e, s.sup.run, s.sup.k, good);
    if Errors(s.sup) {
      var r :| LeftOpen(s, r);
      StaysLeftOpen(s, b, r);
    } else if Errors(b.sup) {
      assert LeftOpen(b, s.sup.run);
    }
  }

  lemma WorkPasses(s: System, e: Event, good: bool)
    requires Passing(s) && Lucky(s, e) && s.sup.Working? && Bound(s, s.sup.run, s.sup.k, good)
    ensures Passing(Next(s, e))
  {
    WorkBlames(s, e, good);
    NextUnderway(s, e);
    WorkGoesOn(s, e);
    GoesOnward(s, Next(s, e), s.sup.run, s.sup.step, s.sup.k);
    StepDecides(s, e, s.sup.run, s.sup.k, good);
  }

  lemma PickBlames(s: System, b: System)
    requires s.sup.Recovering? && s.sup.todo != [] && Distinct(s.sup.todo) && Blamed(s)
    requires b == s.(sup := Picked(s, s.sup.todo[0], RestOf(s.sup)))
    ensures Blamed(b)
  {
    var run := s.sup.todo[0];
    PickedOnward(s, b);
    assert s.sup.todo == [run] + s.sup.todo[1..];
    if Errors(s.sup) {
      var r :| LeftOpen(s, r);
      assert LeftOpen(b, r);
    } else if Errors(b.sup) {
      assert LeftOpen(b, run);
    }
  }

  lemma PickPasses(s: System, e: Event)
    requires Passing(s) && Lucky(s, e) && s.sup.Recovering? && s.sup.todo != []
    ensures Passing(Next(s, e))
  {
    NextUnderway(s, e);
    PicksNext(s, e);
    PickBlames(s, Next(s, e));
    PickedOnward(s, Next(s, e));
    if Open(s, s.sup.todo[0]) {
      TurnBegins(s, Next(s, e), s.sup.todo[0]);
    }
  }

  lemma NextPasses(s: System, e: Event)
    requires Passing(s) && Lucky(s, e) && !Ended(s.sup)
    ensures Passing(Next(s, e))
  {
    if s.sup.Recovering? {
      PickPasses(s, e);
    } else if Bound(s, s.sup.run, s.sup.k, true) {
      WorkPasses(s, e, true);
    } else {
      WorkPasses(s, e, false);
    }
  }

  // ------------------------------------------------- only what is recoverable

  // No other open ledger waits for the ref or holds a claim on the run's task.
  predicate Apart(s: System, r: RunId) {
    && r in s.runs && AloneAt(s.ledgers, s.ref, r)
    && (forall x :: x in s.ledgers && x != r && s.ledgers[x].state != QueueFinalized ==>
          x in s.runs && s.runs[x].task != s.runs[r].task)
  }

  // The pass will not finalize ledger r.
  predicate Failing(s: System, r: RunId) {
    if s.sup.Working? && s.sup.run == r then Doomed(s, r, s.sup.step)
    else LeftOpen(s, r)
         || (Open(s, r) && !Recoverable(s, r) && Apart(s, r) && (s.sup.Working? ==> !IsEarly(s.sup.step)))
  }

  // Past the CAS a step writes no prepared ledger.
  predicate WritesPast(a: System, b: System, run: RunId) {
    b.ledgers == a.ledgers || (run in b.ledgers && b.ledgers[run].state != Prepared)
  }

  lemma CommitWritesPast(s: System, run: RunId, step: LandingModel.Step, k: Cont)
    requires run in s.runs && IsCommit(step) && CommitOk(s, run, step) && !IsEarly(step)
    ensures WritesPast(s, CommitStep(s, run, step, k, true), run)
  {
  }

  lemma ReplayWritesPast(s: System, run: RunId, step: LandingModel.Step, k: Cont)
    requires run in s.runs && IsRecover(step) && RecoverOk(s, run, step)
    ensures WritesPast(s, RecoverStep(s, run, step, k, true), run)
  {
  }

  lemma WorkWritesPast(s: System, e: Event)
    requires Underway(s) && Lucky(s, e) && s.sup.Working? && !IsEarly(s.sup.step)
    ensures WritesPast(s, Next(s, e), s.sup.run)
  {
    if IsCommit(s.sup.step) {
      CommitWritesPast(s, s.sup.run, s.sup.step, s.sup.k);
    } else if IsRecover(s.sup.step) {
      ReplayWritesPast(s, s.sup.run, s.sup.step, s.sup.k);
    }
  }

  lemma StaysApart(a: System, b: System, run: RunId, r: RunId)
    requires Apart(a, r) && b.ref == a.ref && OwnWrites(a, b, run) && run != r && RunsKept(a, b)
    requires WritesPast(a, b, run) && (run in b.ledgers ==> run in a.ledgers) && LedgersForward(a, b)
    ensures Apart(b, r)
  {
    forall x | x in b.ledgers && x != r && b.ledgers[x].state != QueueFinalized
      ensures x in b.runs && b.runs[x].task != b.runs[r].task
    {
      assert x in a.ledgers && Forward(a.ledgers[x], b.ledgers[x]);
    }
  }

  // The claim completed is another task's.
  lemma OtherTaskUntouched(a: System, b: System, run: RunId, step: LandingModel.Step, r: RunId)
    requires run in a.runs && r in a.runs && a.runs[run].task != a.runs[r].task && SameFiles(a, b, r)
    requires b.queue == a.queue
             || (Live(a, run)
                 && b.queue == Put(a.queue, a.runs[run].task, CompletedTask(a.queue.tasks[a.runs[run].task], false)))
    ensures Live(b, r) == Live(a, r) && TaskDone(b, r) == TaskDone(a, r)
  {
  }

  lemma TaskUntouched(a: System, b: System, run: RunId, step: LandingModel.Step, k: Cont, r: RunId)
    requires Grounded(a, run, step, k) && Frame(a, b, run, step, k) && run != r && Apart(a, r)
    ensures SameFiles(a, b, r)
    ensures Live(b, r) == Live(a, r) && TaskDone(b, r) == TaskDone(a, r)
  {
    OthersKeepFiles(a, b, run, r);
    QueueAfter(a, b, run, step, k);
    if b.queue != a.queue {
      OtherTaskUntouched(a, b, run, step, r);
    }
  }

  lemma StaysUnrecoverable(s: System, e: Event, r: RunId)
    requires Passing(s) && Lucky(s, e) && s.sup.Working? && s.sup.run != r && !IsEarly(s.sup.step)
    requires Open(s, r) && !Recoverable(s, r) && Apart(s, r)
    ensures Open(Next(s, e), r) && !Recoverable(Next(s, e), r) && Apart(Next(s, e), r)
  {
    var b := Next(s, e);
    WorkGoesOn(s, e);
    IsGrounded(s);
    TaskUntouched(s, b, s.sup.run, s.sup.step, s.sup.k, r);
    WorkWritesPast(s, e);
    NextKeeps(s, e);
    NextForward(s, e);
    WorksOnLedger(s);
    StaysApart(s, b, s.sup.run, r);
  }

  lemma EarlyIsFar(step: LandingModel.Step)
    ensures IsEarly(step) ==> Left(step) >= 7
    ensures OnPass(step) && !IsEarly(step) ==> Left(step) <= 7
  {
  }

  lemma NotEarlyAgain(s: System, e: Event)
    requires Underway(s) && Lucky(s, e) && s.sup.Working? && !IsEarly(s.sup.step)
    ensures Next(s, e).sup.Working? ==> !IsEarly(Next(s, e).sup.step)
  {
    WorkGoesOn(s, e);
    NearIsNotEarly(Next(s, e), s.sup.run, s.sup.step, s.sup.k);
  }

  lemma NearIsNotEarly(b: System, run: RunId, step: LandingModel.Step, k: Cont)
    requires GoesOn(b, run, step, k) && OnPass(step) && !IsEarly(step)
    ensures b.sup.Working? ==> !IsEarly(b.sup.step)
  {
    EarlyIsFar(step);
    if b.sup.Working? {
      EarlyIsFar(b.sup.step);
    }
  }

  lemma WorkStaysFailing(s: System, e: Event, r: RunId)
    requires Passing(s) && Lucky(s, e) && s.sup.Working? && Failing(s, r)
    ensures Failing(Next(s, e), r)
  {
    var b := Next(s, e);
    WorkGoesOn(s, e);
    GoesOnward(s, b, s.sup.run, s.sup.step, s.sup.k);
    if s.sup.run == r {
      StepDecides(s, e, r, s.sup.k, false);
    } else if LeftOpen(s, r) {
      StaysLeftOpen(s, b, r);
    } else {
      StaysUnrecoverable(s, e, r);
      NotEarlyAgain(s, e);
    }
  }

  lemma OwnTurnFails(s: System, b: System, r: RunId)
    requires s.sup.Recovering? && s.sup.todo != [] && s.sup.todo[0] == r && Distinct(s.sup.todo)
    requires b == s.(sup := Picked(s, r, RestOf(s.sup))) && Failing(s, r)
    ensures Failing(b, r)
  {
    TurnBegins(s, b, r);
    PickedOnward(s, b);
    assert r !in s.sup.todo[1..];
  }

  lemma OtherTurnFails(s: System, b: System, r: RunId)
    requires s.sup.Recovering? && s.sup.todo != [] && s.sup.todo[0] != r
    requires b == s.(sup := Picked(s, s.sup.todo[0], RestOf(s.sup))) && Failing(s, r)
    ensures Failing(b, r)
  {
    PickedOnward(s, b);
    assert s.sup.todo == [s.sup.todo[0]] + s.sup.todo[1..];
    if !LeftOpen(s, r) {
      assert !BeforeCas(s, s.sup.todo[0]);
    }
  }

  lemma NextStaysFailing(s: System, e: Event, r: RunId)
    requires Passing(s) && Lucky(s, e) && !Ended(s.sup) && Failing(s, r)
    ensures Failing(Next(s, e), r)
  {
    if s.sup.Working? {
      WorkStaysFailing(s, e, r);
    } else {
      PicksNext(s, e);
      if s.sup.todo[0] == r {
        OwnTurnFails(s, Next(s, e), r);
      } else {
        OtherTurnFails(s, Next(s, e), r);
      }
    }
  }

  ghost predicate FailuresStay(a: System, b: System) {
    forall r :: Failing(a, r) ==> Failing(b, r)
  }

  lemma NextFailuresStay(s: System, e: Event)
    requires Passing(s) && Lucky(s, e) && !Ended(s.sup)
    ensures FailuresStay(s, Next(s, e))
  {
    forall r | Failing(s, r)
      ensures Failing(Next(s, e), r)
    {
      NextStaysFailing(s, e, r);
    }
  }

  // ------------------------------------------------- the whole pass

  // The pass from s has ended, with every debt paid and every failure standing.
  ghost predicate Recovered(s: System, end: System) {
    Over(s, end) && Passing(end) && FailuresStay(s, end)
  }

  lemma RecoveredChains(a: System, b: System, end: System)
    requires Honours(a, b) && FailuresStay(a, b) && Recovered(b, end)
    requires InRecovery(b.sup) == InRecovery(a.sup) && InAdoption(b.sup) == InAdoption(a.sup)
    ensures Recovered(a, end)
  {
    OverChains(a, b, end);
  }

  lemma RecoveredAtOnce(s: System)
    requires Passing(s) && Ended(s.sup)
    ensures Recovered(s, s)
  {
    GrowsReflexive(s);
  }

  lemma {:induction false} RecoveryFinishes(s: System, es: seq<Event>) returns (n: nat)
    requires Passing(s) && AllLucky(s, es) && |es| >= Remaining(s.sup)
    ensures n <= |es| && n <= Remaining(s.sup)
    ensures Recovered(s, Execute(s, es[..n]))
    decreases Remaining(s.sup)
  {
    if Ended(s.sup) {
      n := 0;
      RecoveredAtOnce(s);
    } else {
      RemainsToDo(s);
      LuckyHead(s, es);
      NextUnderway(s, es[0]);
      NextPasses(s, es[0]);
      NextHonours(s, es[0]);
      NextFailuresStay(s, es[0]);
      var m := RecoveryFinishes(Next(s, es[0]), es[1..]);
      n := m + 1;
      ExecuteHead(s, es, m);
      RecoveredChains(s, Next(s, es[0]), Execute(s, es[..n]));
    }
  }

  // The pass ends with an error if and only if a ledger stays open.
  lemma ErrorsMeanOpen(s: System)
    requires Passing(s) && Ended(s.sup)
    ensures Errors(s.sup) <==> exists r :: Open(s, r)
  {
    if Errors(s.sup) {
      var r :| LeftOpen(s, r);
      assert Open(s, r);
    }
  }

  // ------------------------------------------------- convergence

  lemma BootUnderway(d: System, order: seq<RunId>, push: bool)
    requires Lane(d) && d.sup == Down && Lists(order, d.ledgers.Keys) && Distinct(order)
    ensures Passing(Next(d, Boot(order, push)))
    ensures Next(d, Boot(order, push)) == d.(sup := Recovering(order, false), push := push)
  {
    NextKeepsLane(d, Boot(order, push));
  }

  lemma BootOwes(d: System, b: System, order: seq<RunId>, r: RunId)
    requires b == d.(sup := Recovering(order, false), push := b.push) && Lists(order, d.ledgers.Keys)
    requires r in d.ledgers && (Landed(d, r) || Recoverable(d, r))
    ensures Owed(b, r) && (Live(d, r) ==> Accounted(b, r))
  {
  }

  // The candidate is in, on the remote if that was asked for, its task done, its ledger closed.
  predicate Delivered(s: System, r: RunId) {
    && Landed(s, r) && TaskDone(s, r) && IsAncestor(s.ledgers[r].candidate, s.ref)
    && (s.ledgers[r].pushRequired ==> OnRemote(s, s.ledgers[r].candidate))
  }

  // What a pass that began at d delivers for ledger r.
  predicate Served(d: System, end: System, r: RunId) {
    r in d.ledgers && (Landed(d, r) || Recoverable(d, r)) ==>
      Delivered(end, r) && (Live(d, r) ==> Paid(end, r))
  }

  lemma EndServes(d: System, b: System, end: System, order: seq<RunId>, r: RunId)
    requires b == d.(sup := Recovering(order, false), push := b.push) && Lists(order, d.ledgers.Keys)
    requires Over(b, end)
    ensures Served(d, end, r)
  {
    if r in d.ledgers && (Landed(d, r) || Recoverable(d, r)) {
      BootOwes(d, b, order, r);
      DebtsPaid(end, r);
    }
  }

  predicate Unserved(d: System, end: System, r: RunId) {
    Open(d, r) && !Recoverable(d, r) && Apart(d, r) ==> Open(end, r)
  }

  lemma EndFails(d: System, b: System, end: System, order: seq<RunId>, r: RunId)
    requires b == d.(sup := Recovering(order, false), push := b.push)
    requires FailuresStay(b, end) && !end.sup.Working?
    ensures Unserved(d, end, r)
  {
    if Open(d, r) && !Recoverable(d, r) && Apart(d, r) {
      assert Failing(b, r);
    }
  }

  lemma RestartConverges(d: System, order: seq<RunId>, push: bool, es: seq<Event>) returns (n: nat)
    requires Lane(d) && d.sup == Down && Lists(order, d.ledgers.Keys) && Distinct(order)
    requires AllLucky(Next(d, Boot(order, push)), es) && |es| >= 17 * |order|
    ensures n <= |es| && n <= 17 * |order|
    ensures var end := Execute(Next(d, Boot(order, push)), es[..n]);
            && Over(Next(d, Boot(order, push)), end) && end.sup.Recovering?
            && (forall r :: Served(d, end, r) && Unserved(d, end, r))
            && (Errors(end.sup) <==> exists r :: Open(end, r))
  {
    var b := Next(d, Boot(order, push));
    BootUnderway(d, order, push);
    n := RecoveryFinishes(b, es);
    var end := Execute(b, es[..n]);
    ErrorsMeanOpen(end);
    forall r
      ensures Served(d, end, r) && Unserved(d, end, r)
    {
      EndServes(d, b, end, order, r);
      EndFails(d, b, end, order, r);
    }
  }

  // Recovery converges. Whatever happened before, however the last supervisor died and
  // whatever became of the other ledgers: within 17 steps a ledger, a pass whose commands
  // succeed delivers every ledger that was recoverable when it started, completes each of
  // their live claims, and ends with an error exactly when some ledger stays open. An
  // unrecoverable ledger is left open, unless another ledger waits for the ref or holds a
  // claim on the same task.
  lemma RecoveryConverges(s: System, before: seq<Event>, order: seq<RunId>, push: bool, es: seq<Event>) returns (n: nat)
    requires Start(s)
    requires var d := Execute(s, before);
             && d.sup == Down && Lists(order, d.ledgers.Keys) && Distinct(order)
             && AllLucky(Next(d, Boot(order, push)), es)
    requires |es| >= 17 * |order|
    ensures n <= |es| && n <= 17 * |order|
    ensures var d := Execute(s, before);
            var end := Execute(Next(d, Boot(order, push)), es[..n]);
            && (forall r :: r in d.ledgers && (Landed(d, r) || Recoverable(d, r)) ==>
                  Delivered(end, r) && (Live(d, r) ==> Paid(end, r)))
            && (forall r :: Open(d, r) && Apart(d, r) ==> (Delivered(end, r) <==> Recoverable(d, r)))
            && end.sup == Recovering([], exists r :: Open(end, r))
            && (forall i, j :: 0 <= i < j < |end.completions| ==> !SameClaim(end.completions[i], end.completions[j]))
  {
    StartLane(s);
    ExecuteKeepsLane(s, before);
    var d := Execute(s, before);
    n := RestartConverges(d, order, push, es);
    var end := Execute(Next(d, Boot(order, push)), es[..n]);
    forall r | r in d.ledgers && (Landed(d, r) || Recoverable(d, r))
      ensures Delivered(end, r) && (Live(d, r) ==> Paid(end, r))
    {
      assert Served(d, end, r);
    }
    forall r | Open(d, r) && Apart(d, r)
      ensures Delivered(end, r) <==> Recoverable(d, r)
    {
      assert Served(d, end, r) && Unserved(d, end, r);
    }
  }

  // ------------------------------------------------- deaths that leave a ledger

  // The steps after a CAS that went through.
  predicate CasMade(step: LandingModel.Step) {
    step.WriteIntegrated? || step.Push? || step.WritePushed? || step.FinishTask? || step.MarkDone?
    || step.WriteFinalized? || step.MarkPending? || IsRecover(step)
  }

  // The steps at which a ledger names the run: all of recovery, and a landing from its CAS on.
  predicate LedgerWritten(step: LandingModel.Step, k: Cont) {
    k.ToRecovery? || step.Cas? || CasMade(step) || (Refuses(step) && step.cause.CasFailed?)
  }

  predicate NoStart(es: seq<Event>) {
    forall i :: 0 <= i < |es| ==> !es[i].Boot?
  }

  // Without a supervisor no ledger is written.
  lemma {:induction false} NobodyWrites(s: System, es: seq<Event>)
    requires s.sup == Down && NoStart(es)
    ensures Execute(s, es).sup == Down && Execute(s, es).ledgers == s.ledgers
    decreases |es|
  {
    if es != [] {
      NobodyWrites(Next(s, es[0]), es[1..]);
    }
  }

  lemma WrittenIsThere(s: System)
    requires Lane(s) && s.sup.Working? && LedgerWritten(s.sup.step, s.sup.k)
    ensures s.sup.run in s.ledgers
  {
  }

  lemma UnwrittenIsNotThere(s: System)
    requires Lane(s) && s.sup.Working? && !LedgerWritten(s.sup.step, s.sup.k)
    ensures s.sup.run !in s.ledgers
  {
  }

  // The step says whether a ledger names the run.
  lemma LedgerByStep(s: System)
    requires Lane(s) && s.sup.Working?
    ensures s.sup.run in s.ledgers <==> LedgerWritten(s.sup.step, s.sup.k)
  {
    if LedgerWritten(s.sup.step, s.sup.k) {
      WrittenIsThere(s);
    } else {
      UnwrittenIsNotThere(s);
    }
  }

  lemma MadeIsIn(s: System)
    requires Inv(s) && s.sup.Working? && CasMade(s.sup.step)
    ensures s.sup.run in s.ledgers && IsAncestor(s.ledgers[s.sup.run].candidate, s.ref)
    ensures IsLate(s.sup.step) ==> s.ledgers[s.sup.run].state == Integrated && TaskDone(s, s.sup.run)
  {
    if IsRecover(s.sup.step) {
      ReplayIsIn(s);
    } else {
      LandedIsIn(s);
    }
  }

  lemma LandedIsIn(s: System)
    requires Inv(s) && s.sup.Working? && CasMade(s.sup.step) && !IsRecover(s.sup.step)
    ensures s.sup.run in s.ledgers && IsAncestor(s.ledgers[s.sup.run].candidate, s.ref)
    ensures IsLate(s.sup.step) ==> s.ledgers[s.sup.run].state == Integrated && TaskDone(s, s.sup.run)
  {
    assert CommitOk(s, s.sup.run, s.sup.step);
    assert LedgerOk(s, s.sup.run);
  }

  lemma ReplayIsIn(s: System)
    requires Inv(s) && s.sup.Working? && IsRecover(s.sup.step)
    ensures s.sup.run in s.ledgers && IsAncestor(s.ledgers[s.sup.run].candidate, s.ref)
    ensures IsLate(s.sup.step) ==> s.ledgers[s.sup.run].state == Integrated && TaskDone(s, s.sup.run)
  {
    assert RecoverOk(s, s.sup.run, s.sup.step);
    assert LedgerOk(s, s.sup.run);
  }

  // A claim is live: the ledger is open, and in the ref unless it was never integrated.
  lemma LiveLedger(d: System, r: RunId)
    requires Inv(d) && Live(d, r) && r in d.ledgers
    ensures Open(d, r)
    ensures Recoverable(d, r) <==> d.ref == d.ledgers[r].expected || IsAncestor(d.ledgers[r].candidate, d.ref)
  {
    assert LedgerOk(d, r);
  }

  lemma DeadLedger(now: System, d: System)
    requires Lane(now) && now.sup.Working? && LedgerWritten(now.sup.step, now.sup.k)
    requires Lane(d) && Grows(now, d) && d.ledgers == now.ledgers
    requires Live(d, now.sup.run) || IsLate(now.sup.step)
    ensures Open(d, now.sup.run)
    ensures Recoverable(d, now.sup.run) <==>
              CasMade(now.sup.step) || d.ref == now.ledgers[now.sup.run].expected
              || IsAncestor(now.ledgers[now.sup.run].candidate, d.ref)
  {
    WrittenIsThere(now);
    if CasMade(now.sup.step) {
      MadeIsIn(now);
      StillContains(now, d, now.ledgers[now.sup.run].candidate);
    }
    if Live(d, now.sup.run) {
      LiveLedger(d, now.sup.run);
    } else {
      DoneSurvives(now, d, now.sup.run);
    }
  }

  // What the next supervisor finds of the files.
  lemma AfterDeath(now: System, others: seq<Event>)
    requires Lane(now) && NoStart(others)
    ensures var d := Execute(Next(now, Crash), others);
            Lane(d) && Grows(now, d) && d.ledgers == now.ledgers && d.sup == Down
  {
    CrashLane(now);
    NextKeeps(now, Crash);
    var dead := Next(now, Crash);
    ExecuteKeepsLane(dead, others);
    ExecuteKeeps(dead, others);
    GrowsTransitive(now, dead, Execute(dead, others));
    NobodyWrites(dead, others);
  }

  // A landing or replay whose process dies while a ledger names its run, at whatever step,
  // leaves that ledger open. If the claim is untouched, or the task was just done, it is
  // recoverable if and only if its CAS was made, or others have not moved the ref, or the ref
  // has taken the candidate in.
  lemma CrashWithLedger(s: System, before: seq<Event>, others: seq<Event>)
    requires Start(s) && NoStart(others)
    requires var now := Execute(s, before); now.sup.Working? && LedgerWritten(now.sup.step, now.sup.k)
    requires var now := Execute(s, before); var d := Execute(Next(now, Crash), others);
             Live(d, now.sup.run) || IsLate(now.sup.step)
    ensures var now := Execute(s, before); var d := Execute(Next(now, Crash), others);
            && d.sup == Down && Open(d, now.sup.run) && now.sup.run in now.ledgers
            && (Recoverable(d, now.sup.run) <==>
                  CasMade(now.sup.step) || d.ref == now.ledgers[now.sup.run].expected
                  || IsAncestor(now.ledgers[now.sup.run].candidate, d.ref))
  {
    StartLane(s);
    ExecuteKeepsLane(s, before);
    var now := Execute(s, before);
    AfterDeath(now, others);
    WrittenIsThere(now);
    DeadLedger(now, Execute(Next(now, Crash), others));
  }

  // ------------------------------------------------- second pass

  // A pass that finds every ledger finalized changes nothing, whatever the commands return.
  lemma {:induction false} SecondPassChangesNothing(s: System, todo: seq<RunId>, errors: bool, es: seq<Event>)
    requires s.sup == Recovering(todo, errors)
    requires forall r :: r in s.ledgers ==> s.ledgers[r].state == QueueFinalized
    requires |es| <= |todo| && forall i :: 0 <= i < |es| ==> es[i].Advance?
    ensures Execute(s, es) == s.(sup := Recovering(todo[|es|..], errors))
    decreases |es|
  {
    if es == [] {
      assert todo[0..] == todo;
    } else {
      var s' := Next(s, es[0]);
      assert s' == s.(sup := Recovering(todo[1..], errors));
      SecondPassChangesNothing(s', todo[1..], errors, es[1..]);
      assert todo[1..][|es| - 1..] == todo[|es|..];
    }
  }

  // ------------------------------------------------- errors

  // The pass has met an error, or has stopped.
  predicate Tainted(sup: Supervisor) {
    match sup
    case Down => true
    case Recovering(_, errors) => errors
    case Working(_, _, k) => k.ToRecovery? && k.errors
    case _ => false
  }

  lemma PickStaysTainted(s: System, todo: seq<RunId>, ok: bool)
    requires todo != []
    ensures Tainted(PickLedger(s, todo, true, ok).sup)
  {
  }

  lemma NextStaysTainted(s: System, e: Event)
    requires Tainted(s.sup) && !e.Boot?
    ensures Tainted(Next(s, e).sup)
  {
    if e.Advance? {
      match s.sup
      case Down =>
      case Recovering(todo, _) =>
        if todo != [] {
          PickStaysTainted(s, todo, e.ok);
        }
      case Working(run, step, k) =>
        if run in s.runs {
          WorkFrame(s, run, step, k, e.ok, e.raised, e.commit);
        }
    }
  }

  // A supervisor whose recovery met an error adopts nothing and lands nothing from its
  // loop: whatever happens, it ends without reaching either.
  lemma {:induction false} ErrorsStopTheSupervisor(s: System, es: seq<Event>)
    requires Tainted(s.sup) && NoStart(es)
    ensures Tainted(Execute(s, es).sup)
    decreases |es|
  {
    if es != [] {
      NextStaysTainted(s, es[0]);
      ErrorsStopTheSupervisor(Next(s, es[0]), es[1..]);
    }
  }

  // ------------------------------------------------- a ledger it cannot recover

  // Others moved the ref before the CAS, and it has not taken the candidate in.
  predicate Lost(s: System, r: RunId) {
    Open(s, r) && !BeforeCas(s, r) && !IsAncestor(s.ledgers[r].candidate, s.ref)
  }

  // No supervisor is at work, or one that has not come past the ledgers.
  predicate NotPast(sup: Supervisor, r: RunId) {
    match sup
    case Down => true
    case Recovering(_, _) => true
    case Working(run, _, k) => run != r && k.ToRecovery?
    case _ => false
  }

  predicate Blocked(s: System, r: RunId) {
    Lost(s, r) && NotPast(s.sup, r)
  }

  lemma StaysLost(a: System, b: System, r: RunId)
    requires Lost(a, r) && r in b.ledgers && b.ledgers[r] == a.ledgers[r]
    requires IsAncestor(a.ledgers[r].expected, a.ref) && IsAncestor(a.ref, b.ref)
    requires !IsAncestor(a.ledgers[r].candidate, b.ref)
    ensures Lost(b, r)
  {
    PassedForGood(a.ledgers[r], a.ref, b.ref);
  }

  lemma PickNotPast(s: System, e: Event, r: RunId)
    requires Lost(s, r) && s.sup.Recovering? && e.Advance?
    requires !s.sup.errors ==> OpenIn(s.ledgers, s.sup.todo)
    ensures NotPast(Next(s, e).sup, r)
  {
    if s.sup.todo == [] {
      NothingLeft(s.ledgers, s.sup, r);
    } else {
      LostIsReported(s, s.sup.todo, s.sup.errors, e.ok, r);
    }
  }

  lemma NothingLeft(ledgers: map<RunId, Ledger>, sup: Supervisor, r: RunId)
    requires sup.Recovering? && sup.todo == [] && r in ledgers && ledgers[r].state != QueueFinalized
    ensures !OpenIn(ledgers, sup.todo)
  {
  }

  lemma LostIsReported(s: System, todo: seq<RunId>, errors: bool, ok: bool, r: RunId)
    requires todo != [] && Lost(s, r)
    ensures NotPast(PickLedger(s, todo, errors, ok).sup, r)
  {
  }

  lemma WorkNotPast(s: System, e: Event, r: RunId)
    requires Lane(s) && NotPast(s.sup, r) && s.sup.Working? && e.Advance? && Open(s, r)
    ensures NotPast(Next(s, e).sup, r) && SameFiles(s, Next(s, e), r)
  {
    WorkFrame(s, s.sup.run, s.sup.step, s.sup.k, e.ok, e.raised, e.commit);
    OthersKeepFiles(s, Next(s, e), s.sup.run, r);
  }

  lemma OthersNotPast(s: System, e: Event, r: RunId)
    requires NotPast(s.sup, r) && !e.Advance?
    ensures NotPast(Next(s, e).sup, r) && Next(s, e).ledgers == s.ledgers
  {
  }

  lemma NextNotPast(s: System, e: Event, r: RunId)
    requires Lane(s) && Blocked(s, r)
    ensures NotPast(Next(s, e).sup, r)
    ensures r in Next(s, e).ledgers && Next(s, e).ledgers[r] == s.ledgers[r]
  {
    if !e.Advance? {
      OthersNotPast(s, e, r);
    } else if s.sup.Recovering? {
      IdleKeepsData(s, e);
      PickNotPast(s, e, r);
    } else if s.sup.Working? {
      WorkNotPast(s, e, r);
    }
  }

  lemma NextLeavesBlocked(s: System, e: Event, r: RunId)
    requires Lane(s) && Blocked(s, r) && !IsAncestor(s.ledgers[r].candidate, Next(s, e).ref)
    ensures Blocked(Next(s, e), r) && Next(s, e).ledgers[r] == s.ledgers[r]
  {
    NextNotPast(s, e, r);
    NextKeeps(s, e);
    StaysLost(s, Next(s, e), r);
  }

  // The ref does not take the candidate in.
  predicate NeverContains(s: System, es: seq<Event>, c: Commit)
    decreases |es|
  {
    !IsAncestor(c, s.ref) && (es != [] ==> NeverContains(Next(s, es[0]), es[1..], c))
  }

  lemma {:induction false} StaysBlocked(s: System, es: seq<Event>, r: RunId)
    requires Lane(s) && Blocked(s, r) && NeverContains(s, es, s.ledgers[r].candidate)
    ensures Blocked(Execute(s, es), r) && Execute(s, es).ledgers[r] == s.ledgers[r]
    decreases |es|
  {
    if es != [] {
      assert NeverContains(Next(s, es[0]), es[1..], s.ledgers[r].candidate);
      NextLeavesBlocked(s, es[0], r);
      NextKeepsLane(s, es[0]);
      StaysBlocked(Next(s, es[0]), es[1..], r);
    }
  }

  // Once the supervisor is down, a lost ledger blocks the project: as long as the ref does
  // not take its candidate in, it stays as it is, and no supervisor, however many start and
  // whatever they and others do, comes as far as adopting or landing anything.
  lemma LostLedgerBlocks(s: System, before: seq<Event>, es: seq<Event>, r: RunId)
    requires Start(s)
    requires var d := Execute(s, before);
             d.sup == Down && Lost(d, r) && NeverContains(d, es, d.ledgers[r].candidate)
    ensures var d := Execute(s, before); var end := Execute(d, es);
            && Lost(end, r) && end.ledgers[r] == d.ledgers[r]
            && !end.sup.Adopting? && !end.sup.Looping? && (end.sup.Working? ==> end.sup.k.ToRecovery?)
  {
    StartLane(s);
    ExecuteKeepsLane(s, before);
    StaysBlocked(Execute(s, before), es, r);
  }

  // A CAS that finds the ref moved elsewhere leaves such a ledger.
  lemma LostCasLosesTheLedger(s: System, ok: bool, raised: bool, commit: Commit, order: seq<RunId>)
    requires Lane(s) && s.sup.Working? && s.sup.step.Cas?
    ensures var l := s.sup.step.ledger; var dead := Next(Next(s, Advance(ok, raised, commit, order)), Crash);
            Lost(dead, s.sup.run) <==> s.ref != l.expected && !IsAncestor(l.candidate, s.ref)
  {
    assert s.sup.run in s.ledgers && s.ledgers[s.sup.run] == s.sup.step.ledger && s.sup.step.ledger.state == Prepared;
    CasOutcome(s, s.sup.run, s.sup.step.ledger, s.sup.k, ok);
  }

  lemma CasOutcome(s: System, run: RunId, l: Ledger, k: Cont, ok: bool)
    requires run in s.runs
    ensures var b := CommitStep(s, run, Cas(l), k, ok);
            b.ledgers == s.ledgers && b.ref == if s.ref == l.expected then l.candidate else s.ref
  {
  }
}
