/**
 * An orphan that nobody can adopt: a candidate whose claim is spent. Until its task is done no
 * supervisor comes past it into its loop.
 */
module LandingOrphans {
  import opened Commits
  import opened QueueTypes
  import opened QueueModel
  import opened LandingModel
  import opened LandingSafety
  import opened LandingReach
  import opened LandingFrame
  import opened LandingAdoption

  // The queue has touched the task since the run claimed it.
  predicate Spent(s: System, r: RunId) {
    && r in s.runs && s.runs[r].task in s.queue.tasks && s.runs[r].lease.revision.Some?
    && s.queue.tasks[s.runs[r].task].revision > s.runs[r].lease.revision.value
  }

  // A candidate that can be neither landed nor marked done.
  predicate Abandoned(s: System, r: RunId) {
    StillReady(s, r) && Spent(s, r) && !TaskDone(s, r)
  }

  // No supervisor is at work, or one that has not come past the orphans without an error.
  predicate NotThrough(sup: Supervisor, r: RunId) {
    match sup
    case Down => true
    case Recovering(_, _) => true
    case Adopting(todo, errors) => errors || r in todo
    case Working(run, _, k) => run != r && (k.ToRecovery? || (k.ToAdoption? && (k.errors || r in k.todo)))
    case Looping => false
  }

  // ------------------------------------------------- the orphan stays as it is

  lemma SpentForGood(a: System, b: System, r: RunId)
    requires Grows(a, b) && Spent(a, r)
    ensures Spent(b, r)
  {
    assert RunKept(a.runs[r], b.runs[r]);
    assert TaskKept(a.queue.tasks[a.runs[r].task], b.queue.tasks[a.runs[r].task]);
  }

  lemma IdleStaysReady(s: System, e: Event, r: RunId)
    requires StillReady(s, r) && !(e.Advance? && s.sup.Working? && s.sup.run in s.runs)
    ensures StillReady(Next(s, e), r)
  {
  }

  lemma NextStaysReady(s: System, e: Event, r: RunId)
    requires StillReady(s, r) && (s.sup.Working? ==> s.sup.run != r)
    ensures StillReady(Next(s, e), r)
  {
    if e.Advance? && s.sup.Working? && s.sup.run in s.runs {
      WorkFrame(s, s.sup.run, s.sup.step, s.sup.k, e.ok, e.raised, e.commit);
      OthersKeepFiles(s, Next(s, e), s.sup.run, r);
    } else {
      IdleStaysReady(s, e, r);
    }
  }

  // ------------------------------------------------- no pass comes past it

  lemma LedgerPickNotThrough(s: System, todo: seq<RunId>, errors: bool, ok: bool, r: RunId)
    requires todo != [] && r !in s.ledgers
    ensures NotThrough(PickLedger(s, todo, errors, ok).sup, r)
  {
  }

  lemma RecoveringNotThrough(s: System, e: Event, r: RunId)
    requires s.sup.Recovering? && e.Advance? && r in s.runs && r !in s.ledgers
    ensures NotThrough(Next(s, e).sup, r)
  {
    if s.sup.todo != [] {
      LedgerPickNotThrough(s, s.sup.todo, s.sup.errors, e.ok, r);
    }
  }

  lemma OrphanPickNotThrough(s: System, todo: seq<RunId>, errors: bool, r: RunId)
    requires todo != [] && Abandoned(s, r) && (errors || r in todo)
    ensures NotThrough(PickOrphan(s, todo, errors).sup, r)
  {
    assert todo == [todo[0]] + todo[1..];
  }

  lemma AdoptingNotThrough(s: System, e: Event, r: RunId)
    requires s.sup.Adopting? && e.Advance? && Abandoned(s, r) && NotThrough(s.sup, r)
    ensures NotThrough(Next(s, e).sup, r)
  {
    if s.sup.todo != [] {
      OrphanPickNotThrough(s, s.sup.todo, s.sup.errors, r);
    }
  }

  lemma WorkNotThrough(s: System, e: Event, r: RunId)
    requires s.sup.Working? && s.sup.run in s.runs && e.Advance? && NotThrough(s.sup, r)
    ensures NotThrough(Next(s, e).sup, r)
  {
    WorkFrame(s, s.sup.run, s.sup.step, s.sup.k, e.ok, e.raised, e.commit);
  }

  lemma OthersNotThrough(s: System, e: Event, r: RunId)
    requires !e.Advance? && NotThrough(s.sup, r)
    ensures NotThrough(Next(s, e).sup, r)
  {
  }

  lemma NextNotThrough(s: System, e: Event, r: RunId)
    requires Inv(s) && Abandoned(s, r) && NotThrough(s.sup, r)
    ensures NotThrough(Next(s, e).sup, r)
  {
    assert r in s.ledgers ==> LedgerOk(s, r);
    if !e.Advance? {
      OthersNotThrough(s, e, r);
    } else if s.sup.Recovering? {
      RecoveringNotThrough(s, e, r);
    } else if s.sup.Adopting? {
      AdoptingNotThrough(s, e, r);
    } else if s.sup.Working? {
      WorkNotThrough(s, e, r);
    }
  }

  // The run's task does not become done.
  predicate NeverDone(s: System, es: seq<Event>, r: RunId)
    decreases |es|
  {
    !TaskDone(s, r) && (es != [] ==> NeverDone(Next(s, es[0]), es[1..], r))
  }

  lemma NextStaysAbandoned(s: System, e: Event, r: RunId)
    requires Inv(s) && Abandoned(s, r) && NotThrough(s.sup, r) && !TaskDone(Next(s, e), r)
    ensures Abandoned(Next(s, e), r) && NotThrough(Next(s, e).sup, r)
  {
    NextNotThrough(s, e, r);
    NextStaysReady(s, e, r);
    NextKeeps(s, e);
    SpentForGood(s, Next(s, e), r);
  }

  lemma {:induction false} StaysAbandoned(s: System, es: seq<Event>, r: RunId)
    requires Inv(s) && Abandoned(s, r) && NotThrough(s.sup, r) && NeverDone(s, es, r)
    ensures Abandoned(Execute(s, es), r) && NotThrough(Execute(s, es).sup, r)
    decreases |es|
  {
    if es != [] {
      assert NeverDone(Next(s, es[0]), es[1..], r);
      NextStaysAbandoned(s, es[0], r);
      NextKeeps(s, es[0]);
      StaysAbandoned(Next(s, es[0]), es[1..], r);
    }
  }

  // Once the supervisor is down, an abandoned candidate blocks the project: until its task is
  // done no supervisor, however many start and whatever they and others do, enters its loop.
  lemma AbandonedBlocks(s: System, before: seq<Event>, es: seq<Event>, r: RunId)
    requires Start(s)
    requires var d := Execute(s, before); d.sup == Down && Abandoned(d, r) && NeverDone(d, es, r)
    ensures var end := Execute(Execute(s, before), es);
            && Abandoned(end, r)
            && !end.sup.Looping? && (end.sup.Working? ==> !end.sup.k.ToLoop?)
  {
    InitialInv(s);
    ExecuteKeeps(s, before);
    StaysAbandoned(Execute(s, before), es, r);
  }

  // ------------------------------------------------- how one comes about

  function Released(t: Task): Task {
    t.(status := Pending, revision := t.revision + 1, token := "", owner := "")
  }

  lemma LiveReleases(s: System, run: RunId)
    requires ValidQueue(s.queue) && Live(s, run)
    ensures var task := s.runs[run].task;
            QueueModel.Step(s.queue, Op.Release(task, s.runs[run].lease))
            == Put(s.queue, task, Released(s.queue.tasks[task]))
  {
    var task := s.runs[run].task;
    var q' := Put(s.queue, task, Released(s.queue.tasks[task]));
    assert q'.tasks.Keys == s.queue.tasks.Keys;
    assert ValidQueue(q');
  }

  lemma ReleaseSpends(s: System, run: RunId, k: Cont)
    requires ValidQueue(s.queue) && Live(s, run)
    ensures var b := FailureStep(s, run, CancelRelease, k);
            b.runs == s.runs && Spent(b, run) && !TaskDone(b, run)
  {
    LiveReleases(s, run);
  }

  // A cancellation that dies between the release of a live claim and the run's mark abandons
  // its candidate.
  lemma CancelDeathAbandons(s: System, ok: bool, raised: bool, commit: Commit, order: seq<RunId>)
    requires Lane(s) && s.sup.Working? && s.sup.step.CancelRelease? && Live(s, s.sup.run)
    ensures var dead := Next(Next(s, Advance(ok, raised, commit, order)), Crash);
            dead.sup == Down && Abandoned(dead, s.sup.run)
  {
    ReleaseSpends(s, s.sup.run, s.sup.k);
  }

  lemma Cancelling() returns (es: seq<Event>)
    ensures Lane(Execute(OneClaim(), es)) && Live(Execute(OneClaim(), es), R(0))
    ensures Execute(OneClaim(), es).sup == Working(R(0), CancelRelease, ToLoop)
  {
    var before := LoopReached();
    ExecuteThen(OneClaim(), before, Cancel(R(0)));
    es := before + [Cancel(R(0))];
    StartLane(OneClaim());
    ExecuteKeepsLane(OneClaim(), es);
  }

  // It happens: one candidate, one cancellation, one death.
  lemma AbandonedIsReached() returns (es: seq<Event>)
    ensures Start(OneClaim())
    ensures Execute(OneClaim(), es).sup == Down && Abandoned(Execute(OneClaim(), es), R(0))
  {
    var before := Cancelling();
    ExecuteThen(OneClaim(), before, Works());
    ExecuteThen(OneClaim(), before + [Works()], Crash);
    CancelDeathAbandons(Execute(OneClaim(), before), true, false, BASE, []);
    es := before + [Works()] + [Crash];
  }
}
