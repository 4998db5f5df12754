/**
 * Which runs the next supervisor takes up. After recovery it adopts the candidates of dead
 * supervisors; a run marked `landing_verifying` without a ledger is passed over for good.
 */
module LandingAdoption {
  import opened Wrappers
  import opened Commits
  import opened QueueTypes
  import opened LandingModel
  import opened LandingSafety
  import opened LandingTheorems
  import opened LandingReach
  import opened LandingFrame
  import opened LandingPass
  import opened LandingProgress
  import opened LandingRecovery

  // ------------------------------------------------- the error flag of adoption

  // A candidate that was neither landed nor marked done.
  predicate StillReady(s: System, r: RunId) {
    r in s.runs && s.runs[r].status == CandidateReady
  }

  // The pass is not at run r and will not come to it.
  predicate PassedBy(s: System, r: RunId) {
    r !in Todo(s.sup) && (s.sup.Working? ==> s.sup.run != r)
  }

  // Every error is some candidate's that was passed by.
  ghost predicate Faulted(s: System) {
    Errors(s.sup) ==> exists r :: StillReady(s, r) && PassedBy(s, r)
  }

  // As long as there is no error no candidate was passed by.
  predicate Covers(s: System) {
    !Errors(s.sup) ==> forall r :: r in s.runs && StillReady(s, r) ==> !PassedBy(s, r)
  }

  // What an adoption works on it will land, or mark done.
  predicate WillServe(s: System) {
    s.sup.Working? ==> OnCourse(s, s.sup.run, s.sup.step) || s.sup.step.AdoptMark?
  }

  // An adoption pass from its start.
  ghost predicate AdoptionPassing(s: System) {
    && Underway(s) && InAdoption(s.sup) && Distinct(Todo(s.sup))
    && Faulted(s) && Covers(s) && WillServe(s) && (s.sup.Working? ==> s.sup.run !in Todo(s.sup))
  }

  // The work goes on, or is over with the run served and no new error.
  lemma ServesOn(s: System, e: Event)
    requires Underway(s) && Lucky(s, e) && s.sup.Working? && WillServe(s)
    ensures WillServe(Next(s, e)) && Errors(Next(s, e).sup) == Errors(s.sup)
    ensures Next(s, e).sup.Working? ==> Next(s, e).sup.run == s.sup.run
    ensures !Next(s, e).sup.Working? ==> !StillReady(Next(s, e), s.sup.run)
  {
    NextUnderway(s, e);
    WorkGoesOn(s, e);
    if !s.sup.step.AdoptMark? && !Next(s, e).sup.Working? {
      assert LedgerOk(Next(s, e), s.sup.run);
    }
  }

  lemma ReadyElsewhere(s: System, e: Event, r: RunId)
    requires Underway(s) && Lucky(s, e) && s.sup.Working? && s.sup.run != r
    ensures StillReady(Next(s, e), r) == StillReady(s, r)
  {
    WorkGoesOn(s, e);
    OthersKeepFiles(s, Next(s, e), s.sup.run, r);
  }

  lemma WorkFaults(s: System, e: Event)
    requires AdoptionPassing(s) && Lucky(s, e) && s.sup.Working?
    ensures Faulted(Next(s, e)) && Covers(Next(s, e)) && Todo(Next(s, e).sup) == Todo(s.sup)
  {
    var b := Next(s, e);
    WorkGoesOn(s, e);
    GoesOnward(s, b, s.sup.run, s.sup.step, s.sup.k);
    ServesOn(s, e);
    if Errors(s.sup) {
      var r :| StillReady(s, r) && PassedBy(s, r);
      ReadyElsewhere(s, e, r);
      assert StillReady(b, r) && PassedBy(b, r);
    }
    forall r | !Errors(b.sup) && r in b.runs && StillReady(b, r)
      ensures !PassedBy(b, r)
    {
      if r != s.sup.run {
        ReadyElsewhere(s, e, r);
      }
    }
  }

  lemma PickFaults(s: System, b: System)
    requires s.sup.Adopting? && s.sup.todo != [] && Distinct(s.sup.todo) && Faulted(s)
    requires b == s.(sup := Picked(s, s.sup.todo[0], RestOf(s.sup)))
    ensures Faulted(b)
  {
    var run := s.sup.todo[0];
    PickedOnward(s, b);
    assert s.sup.todo == [run] + s.sup.todo[1..];
    if Errors(s.sup) {
      var r :| StillReady(s, r) && PassedBy(s, r);
      assert StillReady(b, r) && PassedBy(b, r);
    } else if Errors(b.sup) {
      assert StillReady(b, run) && PassedBy(b, run);
    }
  }

  lemma PickCovers(s: System, b: System)
    requires s.sup.Adopting? && s.sup.todo != [] && Covers(s)
    requires b == s.(sup := Picked(s, s.sup.todo[0], RestOf(s.sup)))
    ensures Covers(b) && WillServe(b)
    ensures b.sup.Working? ==> b.sup.run == s.sup.todo[0]
  {
    PickedOnward(s, b);
    assert s.sup.todo == [s.sup.todo[0]] + s.sup.todo[1..];
  }

  lemma NextAdopts(s: System, e: Event)
    requires AdoptionPassing(s) && Lucky(s, e) && !Ended(s.sup)
    ensures AdoptionPassing(Next(s, e))
  {
    NextUnderway(s, e);
    if s.sup.Working? {
      WorkFaults(s, e);
      ServesOn(s, e);
    } else {
      PicksNext(s, e);
      PickFaults(s, Next(s, e));
      PickCovers(s, Next(s, e));
      PickedOnward(s, Next(s, e));
    }
  }

  lemma {:induction false} AdoptionFinishes(s: System, es: seq<Event>) returns (n: nat)
    requires AdoptionPassing(s) && AllLucky(s, es) && |es| >= Remaining(s.sup)
    ensures n <= |es| && n <= Remaining(s.sup)
    ensures Over(s, Execute(s, es[..n])) && AdoptionPassing(Execute(s, es[..n]))
    decreases Remaining(s.sup)
  {
    if Ended(s.sup) {
      n := 0;
      GrowsReflexive(s);
    } else {
      RemainsToDo(s);
      LuckyHead(s, es);
      NextUnderway(s, es[0]);
      NextAdopts(s, es[0]);
      NextHonours(s, es[0]);
      var m := AdoptionFinishes(Next(s, es[0]), es[1..]);
      n := m + 1;
      ExecuteHead(s, es, m);
      OverChains(s, Next(s, es[0]), Execute(s, es[..n]));
    }
  }

  // The pass ends with an error if and only if a candidate is left.
  lemma ErrorsMeanLeft(s: System)
    requires AdoptionPassing(s) && Ended(s.sup)
    ensures Errors(s.sup) <==> exists r :: StillReady(s, r)
  {
    if Errors(s.sup) {
      var r :| StillReady(s, r) && PassedBy(s, r);
      assert StillReady(s, r);
    }
  }

  // ------------------------------------------------- adoption

  lemma AdoptionServes(s: System, end: System, r: RunId)
    requires s.sup.Adopting? && Over(s, end)
    requires r in s.sup.todo && Awaiting(s, r)
    ensures Delivered(end, r) && Paid(end, r)
  {
    assert Owed(s, r) && Accounted(s, r);
    DebtsPaid(end, r);
  }

  // A pass over the orphans lands every reviewed candidate it lists whose claim is
  // untouched and completes that claim, whatever becomes of the other orphans; it ends with an
  // error if and only if some candidate was neither landed nor found done.
  lemma AdoptionConverges(s: System, es: seq<Event>) returns (n: nat)
    requires Lane(s) && s.sup.Adopting? && AllLucky(s, es) && |es| >= 17 * |s.sup.todo|
    ensures n <= |es| && n <= 17 * |s.sup.todo|
    ensures var end := Execute(s, es[..n]);
            && end.sup.Adopting? && end.sup.todo == []
            && (forall r :: r in s.sup.todo && Awaiting(s, r) ==> Delivered(end, r) && Paid(end, r))
            && (!s.sup.errors && Lists(s.sup.todo, s.runs.Keys) && Distinct(s.sup.todo) ==>
                  (end.sup.errors <==> exists r :: StillReady(end, r)))
  {
    if !s.sup.errors && Lists(s.sup.todo, s.runs.Keys) && Distinct(s.sup.todo) {
      n := AdoptionFinishes(s, es);
      ErrorsMeanLeft(Execute(s, es[..n]));
    } else {
      n := PassFinishes(s, es);
    }
    forall r | r in s.sup.todo && Awaiting(s, r)
      ensures Delivered(Execute(s, es[..n]), r) && Paid(Execute(s, es[..n]), r)
    {
      AdoptionServes(s, Execute(s, es[..n]), r);
    }
  }

  // ------------------------------------------------- runs nobody takes up

  // A run that is not waiting for the lane any more, and no ledger names it.
  predicate Forgotten(s: System, r: RunId) {
    && r in s.runs && s.runs[r].status != CandidateReady && r !in s.ledgers
    && (s.sup.Working? ==> s.sup.run != r)
  }

  // A run marked `landing_verifying` whose supervisor died before its ledger was written.
  predicate Stranded(s: System, r: RunId) {
    Forgotten(s, r) && s.runs[r].status == LandingVerifying
  }

  lemma PickingForgets(s: System, e: Event, r: RunId)
    requires Forgotten(s, r) && !(e.Advance? && s.sup.Working? && s.sup.run in s.runs)
    ensures Forgotten(Next(s, e), r) && Next(s, e).runs[r] == s.runs[r]
  {
  }

  lemma NextForgets(s: System, e: Event, r: RunId)
    requires Forgotten(s, r)
    ensures Forgotten(Next(s, e), r) && Next(s, e).runs[r] == s.runs[r]
  {
    if e.Advance? && s.sup.Working? && s.sup.run in s.runs {
      WorkFrame(s, s.sup.run, s.sup.step, s.sup.k, e.ok, e.raised, e.commit);
      OthersKeepFiles(s, Next(s, e), s.sup.run, r);
    } else {
      PickingForgets(s, e, r);
    }
  }

  // No supervisor, however many start and whatever happens, ever lands a forgotten run.
  lemma {:induction false} ForgottenForever(s: System, es: seq<Event>, r: RunId)
    requires Forgotten(s, r)
    ensures Forgotten(Execute(s, es), r) && Execute(s, es).runs[r] == s.runs[r]
    decreases |es|
  {
    if es != [] {
      NextForgets(s, es[0], r);
      ForgottenForever(Next(s, es[0]), es[1..], r);
    }
  }

  // ------------------------------------------------- the next supervisor

  // Every ledger that is open can be finalized.
  ghost predicate AllRecoverable(s: System) {
    forall r :: Open(s, r) ==> Recoverable(s, r)
  }

  lemma NothingOpenAfter(d: System, b: System, end: System)
    requires AllRecoverable(d) && b == d.(sup := b.sup, push := b.push) && InRecovery(b.sup)
    requires SameLedgers(b, end) && forall r :: Served(d, end, r)
    ensures forall r :: !Open(end, r)
  {
    forall r
      ensures !Open(end, r)
    {
      assert Served(d, end, r);
    }
  }

  // Recovery of a repository in which every open ledger is recoverable ends without an error,
  // with the waiting candidates still waiting.
  lemma CleanRestart(d: System, order: seq<RunId>, push: bool, es: seq<Event>) returns (n: nat)
    requires Lane(d) && d.sup == Down && Lists(order, d.ledgers.Keys) && Distinct(order) && AllRecoverable(d)
    requires AllLucky(Next(d, Boot(order, push)), es) && |es| >= 17 * |order|
    ensures n <= |es| && n <= 17 * |order|
    ensures var end := Execute(Next(d, Boot(order, push)), es[..n]);
            && Lane(end) && end.sup == Recovering([], false)
            && (forall r :: Served(d, end, r))
            && (forall r :: Awaiting(d, r) ==> Awaiting(end, r))
  {
    var b := Next(d, Boot(order, push));
    BootUnderway(d, order, push);
    n := RestartConverges(d, order, push, es);
    var end := Execute(b, es[..n]);
    NothingOpenAfter(d, b, end);
    forall r | Awaiting(d, r)
      ensures Awaiting(end, r)
    {
      assert Parked(b, r);
    }
  }

  // No listing is longer than this.
  predicate ListsUpTo(es: seq<Event>, bound: nat) {
    forall i :: 0 <= i < |es| && es[i].Advance? ==> |es[i].order| <= bound
  }

  lemma AdoptionBegins(s: System, e: Event)
    requires Lane(s) && s.sup == Recovering([], false) && Lucky(s, e)
    ensures Lane(Next(s, e)) && Next(s, e) == s.(sup := Adopting(e.order, false)) && Lists(e.order, s.runs.Keys)
    ensures forall r :: Awaiting(s, r) ==> Awaiting(Next(s, e), r)
  {
    NextKeepsLane(s, e);
  }

  // From the end of recovery to the end of adoption.
  lemma AdoptionFollows(s: System, es: seq<Event>, bound: nat, r: RunId) returns (n: nat)
    requires Lane(s) && s.sup == Recovering([], false) && Awaiting(s, r)
    requires AllLucky(s, es) && |es| >= 1 + 17 * bound && ListsUpTo(es, bound)
    ensures n <= |es| && Delivered(Execute(s, es[..n]), r) && Paid(Execute(s, es[..n]), r)
  {
    LuckyHead(s, es);
    AdoptionBegins(s, es[0]);
    var m := AdoptionConverges(Next(s, es[0]), es[1..]);
    n := m + 1;
    ExecuteHead(s, es, m);
  }

  lemma ExecuteOn(s: System, es: seq<Event>, n: nat, m: nat)
    requires n + m <= |es|
    ensures Execute(s, es[..n + m]) == Execute(Execute(s, es[..n]), es[n..][..m])
  {
    ExecuteSplits(s, es[..n], es[n..][..m]);
    assert es[..n] + es[n..][..m] == es[..n + m];
  }

  lemma ListsUpToRest(es: seq<Event>, n: nat, bound: nat)
    requires n <= |es| && ListsUpTo(es, bound)
    ensures ListsUpTo(es[n..], bound)
  {
  }

  lemma AdoptedAfter(b: System, es: seq<Event>, n1: nat, bound: nat, r: RunId) returns (n: nat)
    requires n1 <= |es| && AllLucky(b, es) && |es| >= n1 + 1 + 17 * bound && ListsUpTo(es, bound)
    requires var s := Execute(b, es[..n1]); Lane(s) && s.sup == Recovering([], false) && Awaiting(s, r)
    ensures n <= |es| && Delivered(Execute(b, es[..n]), r) && Paid(Execute(b, es[..n]), r)
  {
    LuckyRest(b, es, n1);
    ListsUpToRest(es, n1, bound);
    var m := AdoptionFollows(Execute(b, es[..n1]), es[n1..], bound, r);
    n := n1 + m;
    ExecuteOn(b, es, n1, m);
  }

  // The supervisor that starts next lands every candidate that waits for it.
  lemma NextSupervisorAdopts(d: System, order: seq<RunId>, push: bool, es: seq<Event>, bound: nat, r: RunId)
    returns (n: nat)
    requires Lane(d) && d.sup == Down && Lists(order, d.ledgers.Keys) && Distinct(order) && AllRecoverable(d)
    requires Awaiting(d, r)
    requires AllLucky(Next(d, Boot(order, push)), es) && |es| >= 17 * |order| + 1 + 17 * bound && ListsUpTo(es, bound)
    ensures n <= |es|
    ensures var end := Execute(Next(d, Boot(order, push)), es[..n]); Delivered(end, r) && Paid(end, r)
  {
    var b := Next(d, Boot(order, push));
    var n1 := CleanRestart(d, order, push, es);
    n := AdoptedAfter(b, es, n1, bound, r);
  }

  // Landed once is landed for good.
  lemma LandedLater(s: System, es: seq<Event>, n: nat, r: RunId)
    requires Lane(s) && n <= |es| && Landed(Execute(s, es[..n]), r)
    ensures Landed(Execute(s, es), r)
  {
    ExecuteSplits(s, es[..n], es[n..]);
    assert es[..n] + es[n..] == es;
    ExecuteKeepsLane(s, es[..n]);
    ExecuteForward(Execute(s, es[..n]), es[n..]);
    LandedSurvives(Execute(s, es[..n]), Execute(s, es), r);
  }

  lemma OpenWhileLive(d: System, r: RunId)
    requires Inv(d) && Live(d, r) && r in d.ledgers
    ensures Open(d, r)
  {
    assert LedgerOk(d, r);
  }

  lemma ServedLands(d: System, end: System, r: RunId)
    requires AllRecoverable(d) && Open(d, r) && Served(d, end, r)
    ensures Landed(end, r)
  {
  }

  lemma RecoveryLands(d: System, order: seq<RunId>, push: bool, es: seq<Event>, r: RunId)
    requires Lane(d) && d.sup == Down && Lists(order, d.ledgers.Keys) && Distinct(order) && AllRecoverable(d)
    requires Open(d, r)
    requires AllLucky(Next(d, Boot(order, push)), es) && |es| >= 17 * |order|
    ensures Landed(Execute(Next(d, Boot(order, push)), es), r)
  {
    BootUnderway(d, order, push);
    var n := CleanRestart(d, order, push, es);
    ServedLands(d, Execute(Next(d, Boot(order, push)), es[..n]), r);
    LandedLater(Next(d, Boot(order, push)), es, n, r);
  }

  lemma AdoptionLands(d: System, order: seq<RunId>, push: bool, es: seq<Event>, bound: nat, r: RunId)
    requires Lane(d) && d.sup == Down && Lists(order, d.ledgers.Keys) && Distinct(order) && AllRecoverable(d)
    requires Awaiting(d, r)
    requires AllLucky(Next(d, Boot(order, push)), es) && |es| >= 17 * |order| + 1 + 17 * bound && ListsUpTo(es, bound)
    ensures Landed(Execute(Next(d, Boot(order, push)), es), r)
  {
    BootUnderway(d, order, push);
    var n := NextSupervisorAdopts(d, order, push, es, bound, r);
    LandedLater(Next(d, Boot(order, push)), es, n, r);
  }

  lemma ForgottenNotLanded(d: System, order: seq<RunId>, push: bool, es: seq<Event>, r: RunId)
    requires d.sup == Down && Forgotten(d, r)
    ensures !Landed(Execute(Next(d, Boot(order, push)), es), r)
  {
    NextForgets(d, Boot(order, push), r);
    ForgottenForever(Next(d, Boot(order, push)), es, r);
  }

  lemma RestartLandsIff(d: System, order: seq<RunId>, push: bool, es: seq<Event>, bound: nat, r: RunId)
    requires Lane(d) && d.sup == Down && Lists(order, d.ledgers.Keys) && Distinct(order) && AllRecoverable(d)
    requires Live(d, r)
    requires AllLucky(Next(d, Boot(order, push)), es) && |es| >= 17 * |order| + 1 + 17 * bound && ListsUpTo(es, bound)
    ensures Landed(Execute(Next(d, Boot(order, push)), es), r)
            <==> r in d.ledgers || d.runs[r].status == CandidateReady
  {
    if r in d.ledgers {
      OpenWhileLive(d, r);
      RecoveryLands(d, order, push, es, r);
    } else if d.runs[r].status == CandidateReady {
      AdoptionLands(d, order, push, es, bound, r);
    } else {
      ForgottenNotLanded(d, order, push, es, r);
    }
  }

  // In every reached state without a supervisor: a run whose claim is untouched is landed by
  // the next supervisor, if its commands succeed and the other ledgers can be finalized, if
  // and only if a ledger names it or it is still marked `candidate_ready`.
  lemma TakenUpIff(s: System, before: seq<Event>, order: seq<RunId>, push: bool, es: seq<Event>, bound: nat, r: RunId)
    requires Start(s)
    requires var d := Execute(s, before);
             && d.sup == Down && Lists(order, d.ledgers.Keys) && Distinct(order) && AllRecoverable(d) && Live(d, r)
             && AllLucky(Next(d, Boot(order, push)), es)
    requires |es| >= 17 * |order| + 1 + 17 * bound && ListsUpTo(es, bound)
    ensures var d := Execute(s, before);
            Landed(Execute(Next(d, Boot(order, push)), es), r)
            <==> r in d.ledgers || d.runs[r].status == CandidateReady
  {
    StartLane(s);
    ExecuteKeepsLane(s, before);
    RestartLandsIff(Execute(s, before), order, push, es, bound, r);
  }

  // ------------------------------------------------- by the step it died at

  // After the `landing_verifying` mark and before the first ledger: at a verdict, or while a red
  // one is being recorded.
  predicate Marked(step: LandingModel.Step) {
    InVerdict(step) || (Refuses(step) && IsVerdict(step.cause))
  }

  lemma UnwrittenDeath(now: System)
    requires Lane(now) && now.sup.Working? && !LedgerWritten(now.sup.step, now.sup.k)
    ensures now.sup.run in now.runs
    ensures now.runs[now.sup.run].status == (if Marked(now.sup.step) then LandingVerifying else CandidateReady)
  {
  }

  lemma MarkedIsUnwritten(step: LandingModel.Step, k: Cont)
    ensures LedgerWritten(step, k) ==> k.ToRecovery? || !Marked(step)
    ensures !LedgerWritten(step, k) ==> !k.ToRecovery?
  {
  }

  lemma DeathMarks(now: System)
    requires Lane(now) && now.sup.Working?
    ensures now.sup.run in now.runs
    ensures (now.sup.run in now.ledgers || now.runs[now.sup.run].status == CandidateReady)
            <==> (now.sup.k.ToRecovery? || !Marked(now.sup.step))
  {
    LedgerByStep(now);
    MarkedIsUnwritten(now.sup.step, now.sup.k);
    if !LedgerWritten(now.sup.step, now.sup.k) {
      UnwrittenDeath(now);
    }
  }

  // A run whose process dies at any step, its claim untouched, is landed by the next supervisor
  // if and only if it did not die after the `landing_verifying` mark and before its first ledger.
  lemma DeathTakenUpIff(s: System, before: seq<Event>, order: seq<RunId>, push: bool, es: seq<Event>, bound: nat)
    requires Start(s)
    requires var now := Execute(s, before); var d := Next(now, Crash);
             && now.sup.Working?
             && Lists(order, d.ledgers.Keys) && Distinct(order) && AllRecoverable(d) && Live(d, now.sup.run)
             && AllLucky(Next(d, Boot(order, push)), es)
    requires |es| >= 17 * |order| + 1 + 17 * bound && ListsUpTo(es, bound)
    ensures var now := Execute(s, before); var d := Next(now, Crash);
            Landed(Execute(Next(d, Boot(order, push)), es), now.sup.run)
            <==> now.sup.k.ToRecovery? || !Marked(now.sup.step)
  {
    StartLane(s);
    ExecuteKeepsLane(s, before);
    var now := Execute(s, before);
    CrashLane(now);
    DeathMarks(now);
    RestartLandsIff(Next(now, Crash), order, push, es, bound, now.sup.run);
  }

  // A first landing that dies between its mark and its ledger is stranded, for good.
  lemma StrandedForever(s: System, before: seq<Event>, es: seq<Event>)
    requires Start(s)
    requires var now := Execute(s, before); now.sup.Working? && Marked(now.sup.step) && !now.sup.k.ToRecovery?
    ensures var now := Execute(s, before); var end := Execute(Next(now, Crash), es);
            now.sup.run in now.runs && Stranded(end, now.sup.run) && end.runs[now.sup.run] == now.runs[now.sup.run]
  {
    StartLane(s);
    ExecuteKeepsLane(s, before);
    var now := Execute(s, before);
    MarkedIsUnwritten(now.sup.step, now.sup.k);
    LedgerByStep(now);
    UnwrittenDeath(now);
    ForgottenForever(Next(now, Crash), es, now.sup.run);
  }

  // ------------------------------------------------- an instance

  const BASE := Commit(0, [])
  const CLAIM := QueueModel.Lease("worker", "token", Some(1))
  const CANDIDATE := ChildRun(H(1), CLAIM, BASE, Commit(1, [BASE]), CandidateReady)

  // One task, claimed; nothing landed yet.
  function OneClaim(): System {
    var task := Task(InProgress, 1, {}, "worker", "token", 1, 0, "", false, NotCompleted, None);
    System(BASE, None, Queue(1, map[H(1) := task], []), map[], map[], false, Down, {}, {}, [], [])
  }

  function Works(): Event {
    Advance(true, false, BASE, [])
  }

  lemma ExecuteThen(s: System, es: seq<Event>, e: Event)
    ensures Execute(s, es + [e]) == Next(Execute(s, es), e)
  {
    ExecuteSplits(s, es, [e]);
    assert [e][1..] == [];
  }

  // The supervisor starts, finds nothing to recover or adopt, and a candidate comes in.
  lemma LoopReached() returns (es: seq<Event>)
    ensures Execute(OneClaim(), es) == OneClaim().(runs := map[R(0) := CANDIDATE], sup := Looping)
  {
    var s := OneClaim();
    es := [Boot([], false)];
    ExecuteThen(s, [], es[0]);
    assert Execute(s, es) == s.(sup := Recovering([], false));
    ExecuteThen(s, es, Works());
    es := es + [Works()];
    assert Execute(s, es) == s.(sup := Adopting([], false));
    ExecuteThen(s, es, Works());
    es := es + [Works()];
    assert Execute(s, es) == s.(sup := Looping);
    assert IsAncestor(BASE, CANDIDATE.head.parents[0]);
    ExecuteThen(s, es, NewCandidate(R(0), CANDIDATE));
    es := es + [NewCandidate(R(0), CANDIDATE)];
  }

  // It is handed over to the lane.
  lemma HandedOver() returns (es: seq<Event>)
    ensures Execute(OneClaim(), es)
            == OneClaim().(runs := map[R(0) := CANDIDATE], sup := Working(R(0), Enter, ToLoop))
  {
    var before := LoopReached();
    ExecuteThen(OneClaim(), before, Land(R(0)));
    es := before + [Land(R(0))];
  }

  // It takes the candidate as far as the verdicts.
  lemma Examined() returns (es: seq<Event>)
    ensures Execute(OneClaim(), es)
            == OneClaim().(runs := map[R(0) := CANDIDATE.(status := LandingVerifying)],
                           sup := Working(R(0), Verify(BASE, CANDIDATE.head), ToLoop))
  {
    var s := OneClaim();
    es := HandedOver();
    var t := Execute(s, es);
    ExecuteThen(s, es, Works());
    es := es + [Works()];
    assert Execute(s, es) == t.(sup := Working(R(0), ReadRef, ToLoop));
    ExecuteThen(s, es, Works());
    es := es + [Works()];
    assert Execute(s, es) == t.(sup := Working(R(0), ReadHead(BASE), ToLoop));
    ExecuteThen(s, es, Works());
    es := es + [Works()];
    assert Execute(s, es) == t.(sup := Working(R(0), MarkVerifying(BASE, CANDIDATE.head), ToLoop));
    ExecuteThen(s, es, Works());
    es := es + [Works()];
  }

  // Stranding happens: one candidate, one death.
  lemma StrandedIsReached() returns (es: seq<Event>)
    ensures Start(OneClaim())
    ensures Stranded(Execute(OneClaim(), es), R(0)) && Live(Execute(OneClaim(), es), R(0))
  {
    var before := Examined();
    es := before + [Crash];
    ExecuteThen(OneClaim(), before, Crash);
  }
}
