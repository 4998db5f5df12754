/**
 * The landing and recovery code, statement by statement, over the durable state it shares
 * with everyone else. A script says what happens between its statements: what others do,
 * whether the command that runs then succeeds, and where the process dies (the script ends).
 * Whatever the script, the state is the one the landing machine reaches.
 */
module LandingController {
  import opened Wrappers
  import opened Commits
  import opened QueueTypes
  import opened QueueModel
  import opened LandingModel
  import opened LandingSafety
  import opened LandingTheorems
  import opened LandingOutcomes

  // What happens before one statement, and what its command returns.
  datatype Turn = Turn(others: seq<Event>, ok: bool, raised: bool, commit: Commit, order: seq<RunId>)

  function Weave(turns: seq<Turn>): seq<Event>
    decreases |turns|
  {
    if turns == [] then []
    else
      var last := turns[|turns| - 1];
      Weave(turns[..|turns| - 1]) + last.others + [Advance(last.ok, last.raised, last.commit, last.order)]
  }

  lemma WeaveOne(s: System, turns: seq<Turn>, n: nat)
    requires n < |turns|
    ensures var before := Execute(Execute(s, Weave(turns[..n])), turns[n].others);
            Execute(s, Weave(turns[..n + 1]))
            == Next(before, Advance(turns[n].ok, turns[n].raised, turns[n].commit, turns[n].order))
  {
    var last := turns[n];
    var e := Advance(last.ok, last.raised, last.commit, last.order);
    assert turns[..n + 1][..n] == turns[..n];
    ExecuteSplits(s, Weave(turns[..n]) + last.others, [e]);
    ExecuteSplits(s, Weave(turns[..n]), last.others);
    var before := Execute(Execute(s, Weave(turns[..n])), last.others);
    assert Execute(before, [e]) == Next(before, e) by {
      assert [e][1..] == [];
    }
  }

  // How a statement ended: the process died, its command failed, or it went through.
  datatype Reply = Died | Broke | Passed

  // How a landing ended.
  datatype Landing = Killed | Refused | Landed

  // Nobody but the supervisor touches a run once it exists.
  predicate Kept(a: map<RunId, ChildRun>, b: map<RunId, ChildRun>) {
    forall r :: r in a ==> r in b && b[r].task == a[r].task && b[r].lease == a[r].lease && b[r].start == a[r].start
  }

  lemma KeptUpdate(a: map<RunId, ChildRun>, b: map<RunId, ChildRun>, run: RunId, child: ChildRun)
    requires Kept(a, b) && run in b
    requires child.task == b[run].task && child.lease == b[run].lease && child.start == b[run].start
    ensures Kept(a, b[run := child])
  {
  }

  // The machine's own step at the statements that landing and replay share.

  lemma PushTakenIs(s: System, run: RunId, l: Ledger, replay: bool, k: Cont, t: Turn)
    requires run in s.runs && s.sup == Working(run, if replay then RecoverPush(l) else Push(l), k)
             && PushAccepted(s, t.ok)
    ensures Next(s, Advance(t.ok, t.raised, t.commit, t.order))
            == At(s.(remote := Some(s.ref)), run, if replay then RecoverPushed(l) else WritePushed(l), k)
  {
  }

  lemma PushRefusedIs(s: System, run: RunId, l: Ledger, replay: bool, k: Cont, t: Turn)
    requires run in s.runs && s.sup == Working(run, if replay then RecoverPush(l) else Push(l), k)
             && !PushAccepted(s, t.ok)
    ensures Next(s, Advance(t.ok, t.raised, t.commit, t.order))
            == if replay then Return(s, k, false) else At(s, run, MarkPending, k)
  {
  }

  lemma CasIs(s: System, run: RunId, l: Ledger, k: Cont, t: Turn)
    requires run in s.runs && s.sup == Working(run, Cas(l), k)
    ensures Next(s, Advance(t.ok, t.raised, t.commit, t.order))
            == if s.ref == l.expected
               then At(s.(ref := l.candidate, moves := s.moves + [Move(Some(run), s.ref, l.candidate)]),
                       run, WriteIntegrated(l), k)
               else At(s, run, BlockFailed(CasFailed), k)
  {
  }

  lemma IntegrateIs(s: System, run: RunId, l: Ledger, k: Cont, t: Turn)
    requires run in s.runs && s.sup == Working(run, WriteIntegrated(l), k)
    ensures var written := l.(state := Integrated);
            Next(s, Advance(t.ok, t.raised, t.commit, t.order))
            == At(WriteLedger(s, run, written), run, if s.push then Push(written) else FinishTask(written), k)
  {
  }

  lemma PushedIs(s: System, run: RunId, l: Ledger, replay: bool, k: Cont, t: Turn)
    requires run in s.runs && s.sup == Working(run, if replay then RecoverPushed(l) else WritePushed(l), k)
    ensures var written := l.(pushed := true);
            Next(s, Advance(t.ok, t.raised, t.commit, t.order))
            == At(WriteLedger(s, run, written), run, if replay then RecoverPeek(written) else FinishTask(written), k)
  {
  }

  lemma FinishIs(s: System, run: RunId, l: Ledger, replay: bool, k: Cont, t: Turn)
    requires run in s.runs && s.sup == Working(run, if replay then RecoverFinish(l) else FinishTask(l), k)
    ensures Next(s, Advance(t.ok, t.raised, t.commit, t.order))
            == if Completes(s, run, l)
               then At(CompleteTaskOf(s, run, l), run, if replay then RecoverMark(l) else MarkDone(l), k)
               else if replay then Return(s, k, false)
               else At(s, run, MarkPending, k)
  {
  }

  lemma DoneIs(s: System, run: RunId, l: Ledger, replay: bool, k: Cont, t: Turn)
    requires run in s.runs && s.sup == Working(run, if replay then RecoverMark(l) else MarkDone(l), k)
    ensures Next(s, Advance(t.ok, t.raised, t.commit, t.order))
            == At(SetStatus(s, run, RunDone), run, if replay then RecoverFinalized(l) else WriteFinalized(l), k)
  {
  }

  lemma FinalizedIs(s: System, run: RunId, l: Ledger, replay: bool, k: Cont, t: Turn)
    requires run in s.runs && s.sup == Working(run, if replay then RecoverFinalized(l) else WriteFinalized(l), k)
    ensures Next(s, Advance(t.ok, t.raised, t.commit, t.order))
            == Return(WriteLedger(s, run, l.(state := QueueFinalized)), k, true)
  {
  }

  lemma FailedIs(s: System, run: RunId, cause: Refusal, blocked: bool, k: Cont, t: Turn)
    requires run in s.runs && s.sup == Working(run, MarkFailed(cause, blocked), k)
    ensures var final := LandingModel.RunStatus.Failed(if blocked then StatusText(cause) else "system_error");
            Next(s, Advance(t.ok, t.raised, t.commit, t.order)) == Return(SetStatus(s, run, final), k, false)
  {
  }

  lemma PendingIs(s: System, run: RunId, k: Cont, t: Turn)
    requires run in s.runs && s.sup == Working(run, MarkPending, k)
    ensures Next(s, Advance(t.ok, t.raised, t.commit, t.order)) == Return(SetStatus(s, run, FinalizePending), k, false)
  {
  }

  lemma IntegratedIs(s: System, run: RunId, l: Ledger, k: Cont, t: Turn)
    requires run in s.runs && s.sup == Working(run, RecoverIntegrated(l), k)
    ensures var written := l.(state := Integrated);
            Next(s, Advance(t.ok, t.raised, t.commit, t.order))
            == At(WriteLedger(s, run, written), run,
                  if written.pushRequired && !written.pushed then RecoverPush(written) else RecoverPeek(written), k)
  {
  }

  lemma PeekIs(s: System, run: RunId, l: Ledger, k: Cont, t: Turn)
    requires run in s.runs && s.sup == Working(run, RecoverPeek(l), k)
    ensures var task := s.runs[run].task;
            Next(s, Advance(t.ok, t.raised, t.commit, t.order))
            == if task !in s.queue.tasks then Return(s, k, false)
               else if s.queue.tasks[task].status == Done then At(s, run, RecoverMark(l), k)
               else At(s, run, RecoverFinish(l), k)
  {
  }

  lemma PickIs(s: System, todo: seq<RunId>, errors: bool, t: Turn)
    requires todo != []
    ensures s.sup == Recovering(todo, errors) ==>
              Next(s, Advance(t.ok, t.raised, t.commit, t.order)) == PickLedger(s, todo, errors, t.ok)
    ensures s.sup == Adopting(todo, errors) ==>
              Next(s, Advance(t.ok, t.raised, t.commit, t.order)) == PickOrphan(s, todo, errors)
  {
  }

  lemma AdoptMarkIs(s: System, run: RunId, k: Cont, t: Turn)
    requires run in s.runs && s.sup == Working(run, AdoptMark, k)
    ensures Next(s, Advance(t.ok, t.raised, t.commit, t.order)) == Return(SetStatus(s, run, RunDone), k, true)
  {
  }

  // A block: the queue it found and left, the system then, and what others did since.
  datatype Blocking = Blocking(found: Queue, left: Queue, mid: System, meanwhile: seq<Event>)

  // What a pass decides about its next entry: nothing to do, an error, redo the landing,
  // or finish what the entry is.
  datatype Choice = Leave | Reject | Redo | Replay

  class Supervised {
    var ref: Commit
    var remote: Option<Commit>
    var queue: Queue
    var runs: map<RunId, ChildRun>
    var ledgers: map<RunId, Ledger>
    const push: bool
    const script: seq<Turn>
    var at: nat
    ghost const origin: System
    ghost var sys: System

    ghost predicate Mirrors(s: System)
      reads this
    {
      s.ref == ref && s.remote == remote && s.queue == queue && s.runs == runs && s.ledgers == ledgers && s.push == push
    }

    ghost predicate Scripted() {
      forall i :: 0 <= i < |script| ==> Outsiders(script[i].others)
    }

    // Alive, between two statements.
    ghost predicate Valid()
      reads this
    {
      && Scripted() && at <= |script| && Mirrors(sys) && sys == Execute(origin, Weave(script[..at]))
    }

    // Dead: the script is used up.
    ghost predicate Dead()
      reads this
    {
      && Scripted() && at == |script| && Mirrors(sys) && sys == Next(Execute(origin, Weave(script)), Crash)
    }

    // Others have acted; the statement's own effect is still to come.
    ghost predicate Poised(t: Turn)
      reads this
    {
      && Scripted() && at < |script| && t == script[at] && Mirrors(sys)
      && sys == Execute(Execute(origin, Weave(script[..at])), t.others)
    }

    // Takes over a repository, with `order` the listing of its ledgers.
    constructor (s: System, order: seq<RunId>, push: bool, script: seq<Turn>)
      requires s.sup == Down && Lists(order, s.ledgers.Keys)
      requires forall i :: 0 <= i < |script| ==> Outsiders(script[i].others)
      ensures Valid() && origin == Next(s, Boot(order, push)) && this.script == script && at == 0
    {
      ref, remote, queue, runs, ledgers := s.ref, s.remote, s.queue, s.runs, s.ledgers;
      this.push, this.script, at := push, script, 0;
      origin, sys := Next(s, Boot(order, push)), Next(s, Boot(order, push));
    }

    // What every other process may do meanwhile.
    method LetOthersAct(es: seq<Event>)
      requires Mirrors(sys) && Outsiders(es)
      modifies this`ref, this`queue, this`runs, this`sys
      ensures Mirrors(sys) && sys == Execute(old(sys), es)
    {
      var i := 0;
      ghost var start := sys;
      while i < |es|
        invariant 0 <= i <= |es| && Mirrors(sys) && Execute(start, es) == Execute(sys, es[i..])
      {
        assert es[i..][1..] == es[i + 1..];
        assert Outsider(es[i]);
        match es[i] {
          case NewCandidate(run, child) =>
            if run !in runs && child.status == CandidateReady && ClaimIsNew(runs, child)
               && IsAncestor(child.start, ref) && IsAncestor(child.start, child.head) {
              runs := runs[run := child];
            }
          case OtherCas(expected, next) =>
            if ref == expected && IsAncestor(expected, next) {
              ref := next;
            }
          case OtherQueue(op) => queue := QueueModel.Step(queue, op);
          case _ =>
        }
        sys := Next(sys, es[i]);
        i := i + 1;
      }
    }

    // The process runs on to its next statement, unless it dies first.
    method Wait() returns (t: Option<Turn>)
      requires Valid()
      modifies this`ref, this`queue, this`runs, this`sys
      ensures t.None? ==> Dead() && sys.sup == Down
      ensures t.Some? ==> Poised(t.value) && sys.sup == old(sys.sup)
      ensures Kept(old(runs), runs)
    {
      if at == |script| {
        assert script[..at] == script;
        sys := Next(sys, Crash);
        return None;
      }
      assert Outsiders(script[at].others);
      OthersKeepControl(sys, script[at].others);
      LetOthersAct(script[at].others);
      t := Some(script[at]);
    }

    // The statement has had its effect.
    method Took(t: Turn)
      requires Poised(t) || (Scripted() && at < |script| && t == script[at])
      requires sys == Execute(Execute(origin, Weave(script[..at])), t.others)
      requires Mirrors(Next(sys, Advance(t.ok, t.raised, t.commit, t.order)))
      modifies this`at, this`sys
      ensures Valid() && sys == Next(old(sys), Advance(t.ok, t.raised, t.commit, t.order))
    {
      WeaveOne(origin, script, at);
      sys := Next(sys, Advance(t.ok, t.raised, t.commit, t.order));
      at := at + 1;
    }

    // The next step of the work on `run`.
    ghost predicate On(run: RunId, step: LandingModel.Step, k: Cont)
      reads this
    {
      Valid() && run in runs && sys.sup == Working(run, step, k)
    }

    // ------------------------------------------------- up to the verdict

    // Loads the task and takes a capacity lease.
    method Enter(run: RunId, ghost k: Cont) returns (r: Reply, known: bool, cause: Refusal)
      requires On(run, LandingModel.Step.Enter, k)
      modifies this
      ensures r == Died ==> Dead()
      ensures r == Broke && known ==> On(run, BlockFailed(cause), k)
      ensures r == Broke && !known ==> Valid() && sys.sup == (if k.ToLoop? then Down else Return(sys, k, false).sup)
      ensures r == Passed ==> On(run, LandingModel.Step.ReadRef, k)
      ensures Kept(old(runs), runs)
    {
      var t := Wait();
      if t.None? {
        return Died, false, StateInvalid;
      }
      known := runs[run].task in queue.tasks;
      cause := if t.value.raised then CapacityFailed else StateInvalid;
      Took(t.value);
      r := if known && t.value.ok then Passed else Broke;
    }

    method ReadRef(run: RunId, ghost k: Cont) returns (r: Reply, expected: Commit)
      requires On(run, LandingModel.Step.ReadRef, k)
      modifies this
      ensures r == Died ==> Dead()
      ensures r == Broke ==> On(run, BlockFailed(StateInvalid), k)
      ensures r == Passed ==>
                run in runs && On(run, if expected != runs[run].start then Rebase(expected) else ReadHead(expected), k)
      ensures Kept(old(runs), runs)
    {
      expected := ref;
      var t := Wait();
      if t.None? {
        return Died, expected;
      }
      expected := ref;
      Took(t.value);
      r := if t.value.ok then Passed else Broke;
    }

    method RebaseOnto(run: RunId, expected: Commit, ghost k: Cont) returns (r: Reply)
      requires On(run, Rebase(expected), k)
      modifies this
      ensures r == Died ==> Dead()
      ensures r == Broke ==> On(run, BlockFailed(Conflicted), k)
      ensures r == Passed ==> On(run, ReadHead(expected), k)
      ensures Kept(old(runs), runs)
    {
      var t := Wait();
      if t.None? {
        return Died;
      }
      var done := t.value.ok && IsAncestor(expected, t.value.commit);
      if done {
        KeptUpdate(old(runs), runs, run, runs[run].(head := t.value.commit));
        runs := runs[run := runs[run].(head := t.value.commit)];
      }
      Took(t.value);
      r := if done then Passed else Broke;
    }

    method HeadOf(run: RunId, expected: Commit, ghost k: Cont) returns (r: Reply, candidate: Commit)
      requires On(run, ReadHead(expected), k)
      modifies this
      ensures r == Died ==> Dead()
      ensures r == Broke ==> On(run, BlockFailed(StateInvalid), k)
      ensures r == Passed ==> On(run, MarkVerifying(expected, candidate), k)
      ensures Kept(old(runs), runs)
    {
      candidate := runs[run].head;
      var t := Wait();
      if t.None? {
        return Died, candidate;
      }
      candidate := runs[run].head;
      Took(t.value);
      r := if t.value.ok then Passed else Broke;
    }

    method Mark(run: RunId, expected: Commit, candidate: Commit, ghost k: Cont) returns (r: Reply)
      requires On(run, MarkVerifying(expected, candidate), k)
      modifies this
      ensures r == Died ==> Dead()
      ensures r != Died ==> r == Passed && On(run, Verify(expected, candidate), k)
      ensures Kept(old(runs), runs)
    {
      var t := Wait();
      if t.None? {
        return Died;
      }
      KeptUpdate(old(runs), runs, run, runs[run].(status := LandingVerifying));
      runs := runs[run := runs[run].(status := LandingVerifying)];
      Took(t.value);
      r := Passed;
    }

    method FinalVerify(run: RunId, expected: Commit, candidate: Commit, ghost k: Cont) returns (r: Reply)
      requires On(run, Verify(expected, candidate), k)
      modifies this
      ensures r == Died ==> Dead()
      ensures r == Broke ==> On(run, BlockFailed(VerifyFailed), k)
      ensures r == Passed ==> On(run, Safety(expected, candidate), k)
      ensures Kept(old(runs), runs)
    {
      var t := Wait();
      if t.None? {
        return Died;
      }
      Took(t.value);
      r := if t.value.ok then Passed else Broke;
    }

    method CheckSafety(run: RunId, expected: Commit, candidate: Commit, ghost k: Cont) returns (r: Reply)
      requires On(run, Safety(expected, candidate), k)
      modifies this
      ensures r == Died ==> Dead()
      ensures r == Broke ==> On(run, BlockFailed(SafetyRed), k)
      ensures r == Passed ==>
                run in runs &&
                On(run, if expected != runs[run].start then Review(expected, candidate)
                        else WritePrepared(expected, candidate), k)
      ensures Kept(old(runs), runs)
    {
      var t := Wait();
      if t.None? {
        return Died;
      }
      Took(t.value);
      r := if t.value.ok then Passed else Broke;
    }

    method Rereview(run: RunId, expected: Commit, candidate: Commit, ghost k: Cont) returns (r: Reply, cause: Refusal)
      requires On(run, Review(expected, candidate), k)
      modifies this
      ensures r == Died ==> Dead()
      ensures r == Broke ==> On(run, BlockFailed(cause), k)
      ensures r == Passed ==> On(run, WritePrepared(expected, candidate), k)
      ensures Kept(old(runs), runs)
    {
      var t := Wait();
      if t.None? {
        return Died, ReviewFailed;
      }
      cause := if t.value.raised then ReviewFailed else ReviewRed;
      Took(t.value);
      r := if t.value.ok then Passed else Broke;
    }

    // ------------------------------------------------- from the ledger on

    method Prepare(run: RunId, expected: Commit, candidate: Commit, ghost k: Cont) returns (r: Reply, ledger: Ledger)
      requires On(run, WritePrepared(expected, candidate), k)
      modifies this
      ensures r == Died ==> Dead()
      ensures r != Died ==> r == Passed && On(run, Cas(ledger), k)
      ensures Kept(old(runs), runs)
    {
      ledger := Ledger(Prepared, expected, candidate, runs[run].lease, push, !push);
      var t := Wait();
      if t.None? {
        return Died, ledger;
      }
      ledgers := ledgers[run := ledger];
      Took(t.value);
      r := Passed;
    }

    method AdvanceRef(run: RunId, ledger: Ledger, ghost k: Cont) returns (r: Reply)
      requires On(run, Cas(ledger), k)
      modifies this
      ensures r == Died ==> Dead()
      ensures r == Broke ==> On(run, BlockFailed(CasFailed), k)
      ensures r == Passed ==> On(run, WriteIntegrated(ledger), k)
      ensures Kept(old(runs), runs)
    {
      var t := Wait();
      if t.None? {
        return Died;
      }
      CasIs(sys, run, ledger, k, t.value);
      r := if ref == ledger.expected then Passed else Broke;
      if r == Passed {
        ref := ledger.candidate;
      }
      Took(t.value);
    }

    method RecordIntegrated(run: RunId, ledger: Ledger, ghost k: Cont) returns (r: Reply, written: Ledger)
      requires On(run, WriteIntegrated(ledger), k)
      modifies this
      ensures r == Died ==> Dead()
      ensures r != Died ==> r == Passed && On(run, if push then Push(written) else FinishTask(written), k)
      ensures Kept(old(runs), runs)
    {
      written := ledger.(state := Integrated);
      var t := Wait();
      if t.None? {
        return Died, written;
      }
      IntegrateIs(sys, run, ledger, k, t.value);
      ledgers := ledgers[run := written];
      Took(t.value);
      r := Passed;
    }

    method PushBranch(run: RunId, ledger: Ledger, replay: bool, ghost k: Cont) returns (r: Reply)
      requires On(run, if replay then RecoverPush(ledger) else Push(ledger), k)
      modifies this
      ensures r == Died ==> Dead()
      ensures r == Broke && !replay ==> On(run, MarkPending, k)
      ensures r == Broke && replay ==> Valid() && sys.sup == Return(sys, k, false).sup
      ensures r == Passed ==> On(run, if replay then RecoverPushed(ledger) else WritePushed(ledger), k)
      ensures Kept(old(runs), runs)
    {
      var t := Wait();
      if t.None? {
        return Died;
      }
      var accepted := t.value.ok && (remote.Some? ==> IsAncestor(remote.value, ref));
      if accepted {
        PushTaken(run, ledger, replay, k, t.value);
      } else {
        PushRefused(run, ledger, replay, k, t.value);
      }
      r := if accepted then Passed else Broke;
    }

    method PushTaken(run: RunId, ledger: Ledger, replay: bool, ghost k: Cont, t: Turn)
      requires Poised(t) && run in runs
      requires sys.sup == Working(run, if replay then RecoverPush(ledger) else Push(ledger), k)
      requires PushAccepted(sys, t.ok)
      modifies this`remote, this`at, this`sys
      ensures On(run, if replay then RecoverPushed(ledger) else WritePushed(ledger), k)
    {
      PushTakenIs(sys, run, ledger, replay, k, t);
      remote := Some(ref);
      Took(t);
    }

    method PushRefused(run: RunId, ledger: Ledger, replay: bool, ghost k: Cont, t: Turn)
      requires Poised(t) && run in runs
      requires sys.sup == Working(run, if replay then RecoverPush(ledger) else Push(ledger), k)
      requires !PushAccepted(sys, t.ok)
      modifies this`at, this`sys
      ensures !replay ==> On(run, MarkPending, k)
      ensures replay ==> Valid() && sys.sup == Return(sys, k, false).sup
    {
      PushRefusedIs(sys, run, ledger, replay, k, t);
      Took(t);
    }

    method RecordPushed(run: RunId, ledger: Ledger, replay: bool, ghost k: Cont) returns (r: Reply, written: Ledger)
      requires On(run, if replay then RecoverPushed(ledger) else WritePushed(ledger), k)
      modifies this
      ensures r == Died ==> Dead()
      ensures r != Died ==> r == Passed && On(run, if replay then RecoverPeek(written) else FinishTask(written), k)
      ensures Kept(old(runs), runs)
    {
      written := ledger.(pushed := true);
      var t := Wait();
      if t.None? {
        return Died, written;
      }
      ledgers := ledgers[run := written];
      PushedIs(sys, run, ledger, replay, k, t.value);
      Took(t.value);
      r := Passed;
    }

    method Finish(run: RunId, ledger: Ledger, replay: bool, ghost k: Cont) returns (r: Reply)
      requires On(run, if replay then RecoverFinish(ledger) else FinishTask(ledger), k)
      modifies this
      ensures r == Died ==> Dead()
      ensures r == Broke && !replay ==> On(run, MarkPending, k)
      ensures r == Broke && replay ==> Valid() && sys.sup == Return(sys, k, false).sup
      ensures r == Passed ==> On(run, if replay then RecoverMark(ledger) else MarkDone(ledger), k)
      ensures Kept(old(runs), runs)
    {
      var t := Wait();
      if t.None? {
        return Died;
      }
      var done := CompleteNow(run, ledger, replay, k, t.value);
      r := if done then Passed else Broke;
    }

    // queue.done under its lock, at this moment.
    method CompleteNow(run: RunId, ledger: Ledger, replay: bool, ghost k: Cont, t: Turn) returns (done: bool)
      requires Poised(t) && run in runs
      requires sys.sup == Working(run, if replay then RecoverFinish(ledger) else FinishTask(ledger), k)
      modifies this`queue, this`at, this`sys
      ensures !done && !replay ==> On(run, MarkPending, k)
      ensures !done && replay ==> Valid() && sys.sup == Return(sys, k, false).sup
      ensures done ==> On(run, if replay then RecoverMark(ledger) else MarkDone(ledger), k)
    {
      FinishIs(sys, run, ledger, replay, k, t);
      match Apply(queue, Op.Complete(runs[run].task, ledger.lease, false, true)) {
        case Ok(q) =>
          queue := q;
          done := true;
        case Err(_) => done := false;
      }
      Took(t);
    }

    method RecordDone(run: RunId, ledger: Ledger, replay: bool, ghost k: Cont) returns (r: Reply)
      requires On(run, if replay then RecoverMark(ledger) else MarkDone(ledger), k)
      modifies this
      ensures r == Died ==> Dead()
      ensures r != Died ==>
                r == Passed && On(run, if replay then RecoverFinalized(ledger) else WriteFinalized(ledger), k)
      ensures Kept(old(runs), runs)
    {
      var t := Wait();
      if t.None? {
        return Died;
      }
      KeptUpdate(old(runs), runs, run, runs[run].(status := RunDone));
      runs := runs[run := runs[run].(status := RunDone)];
      DoneIs(sys, run, ledger, replay, k, t.value);
      Took(t.value);
      r := Passed;
    }

    method RecordFinalized(run: RunId, ledger: Ledger, replay: bool, ghost k: Cont) returns (r: Reply)
      requires On(run, if replay then RecoverFinalized(ledger) else WriteFinalized(ledger), k)
      modifies this
      ensures r == Died ==> Dead()
      ensures r != Died ==>
                r == Passed && Valid() && sys.sup == Return(sys, k, true).sup
                && run in ledgers && ledgers[run] == ledger.(state := QueueFinalized)
      ensures Kept(old(runs), runs)
    {
      var t := Wait();
      if t.None? {
        return Died;
      }
      ledgers := ledgers[run := ledger.(state := QueueFinalized)];
      FinalizedIs(sys, run, ledger, replay, k, t.value);
      Took(t.value);
      r := Passed;
    }

    // ------------------------------------------------- when it goes wrong

    method LeavePending(run: RunId, ghost k: Cont) returns (o: Landing)
      requires On(run, MarkPending, k)
      modifies this
      ensures o == Killed ==> Dead()
      ensures o != Killed ==> o == Refused && Valid() && sys.sup == Return(sys, k, false).sup
      ensures Kept(old(runs), runs)
    {
      var t := Wait();
      if t.None? {
        return Killed;
      }
      KeptUpdate(old(runs), runs, run, runs[run].(status := FinalizePending));
      runs := runs[run := runs[run].(status := FinalizePending)];
      PendingIs(sys, run, k, t.value);
      Took(t.value);
      o := Refused;
    }

    // _landing_failure: block the task under the claim, then mark the run. `b` tells what the
    // block found in the queue, and what others did before the mark was made.
    method LandingFailure(run: RunId, cause: Refusal, ghost k: Cont) returns (o: Landing, ghost b: Blocking)
      requires On(run, BlockFailed(cause), k)
      modifies this
      ensures o == Killed ==> Dead()
      ensures o != Killed ==> o == Refused && Valid() && sys.sup == Return(sys, k, false).sup
      ensures o != Killed ==>
                && run in runs && runs[run].status.Failed?
                && Records(b.found, b.left, runs[run], cause, runs[run].status.status)
                && b.mid.queue == b.left && Outsiders(b.meanwhile) && queue == Execute(b.mid, b.meanwhile).queue
      ensures Kept(old(runs), runs)
    {
      var r, blocked;
      ghost var found;
      r, blocked, found := BlockClaimed(run, cause, k);
      b := Blocking(found, queue, sys, []);
      if r == Died {
        return Killed, b;
      }
      ghost var meanwhile;
      o, meanwhile := RecordFailed(run, cause, blocked, k);
      b := b.(meanwhile := meanwhile);
    }

    method RecordFailed(run: RunId, cause: Refusal, blocked: bool, ghost k: Cont)
      returns (o: Landing, ghost meanwhile: seq<Event>)
      requires On(run, MarkFailed(cause, blocked), k)
      modifies this
      ensures o == Killed ==> Dead()
      ensures o != Killed ==> o == Refused && Valid() && sys.sup == Return(sys, k, false).sup
      ensures o != Killed ==>
                && run in runs && runs[run].status.Failed?
                && runs[run].status.status == (if blocked then StatusText(cause) else "system_error")
                && Outsiders(meanwhile) && queue == Execute(old(sys), meanwhile).queue
      ensures Kept(old(runs), runs)
    {
      var t := Wait();
      if t.None? {
        return Killed, [];
      }
      meanwhile := t.value.others;
      var final := LandingModel.RunStatus.Failed(if blocked then StatusText(cause) else "system_error");
      KeptUpdate(old(runs), runs, run, runs[run].(status := final));
      runs := runs[run := runs[run].(status := final)];
      FailedIs(sys, run, cause, blocked, k, t.value);
      Took(t.value);
      o := Refused;
    }

    method BlockClaimed(run: RunId, cause: Refusal, ghost k: Cont)
      returns (r: Reply, blocked: bool, ghost found: Queue)
      requires On(run, BlockFailed(cause), k)
      modifies this
      ensures r == Died ==> Dead()
      ensures r != Died ==>
                && On(run, MarkFailed(cause, blocked), k) && run in runs
                && Records(found, queue, runs[run], cause, if blocked then StatusText(cause) else "system_error")
      ensures Kept(old(runs), runs)
    {
      var t := Wait();
      found := queue;
      if t.None? {
        return Died, false, found;
      }
      BlockOfClaim(found, runs[run], cause);
      BlockStep(sys, run, cause, k, Advance(t.value.ok, t.value.raised, t.value.commit, t.value.order));
      match Apply(queue, Op.Block(runs[run].task, runs[run].lease, false, StatusText(cause))) {
        case Ok(q) =>
          queue := q;
          blocked := true;
        case Err(_) => blocked := false;
      }
      Took(t.value);
      r := Passed;
    }

    // ------------------------------------------------- one landing

    // Rebase if the ref moved, verify, check the safety policy, re-review if rebased.
    method Examine(run: RunId, ghost k: Cont)
      returns (r: Reply, cause: Refusal, expected: Commit, candidate: Commit)
      requires On(run, LandingModel.Step.ReadRef, k)
      modifies this
      ensures r == Died ==> Dead()
      ensures r == Broke ==> On(run, BlockFailed(cause), k)
      ensures r == Passed ==> On(run, WritePrepared(expected, candidate), k)
      ensures Kept(old(runs), runs)
    {
      var start := runs[run].start;
      candidate := start;
      r, expected := ReadRef(run, k);
      if r != Passed {
        return r, StateInvalid, expected, candidate;
      }
      var rebased := expected != start;
      if rebased {
        r := RebaseOnto(run, expected, k);
        if r != Passed {
          return r, Conflicted, expected, candidate;
        }
      }
      r, candidate := HeadOf(run, expected, k);
      if r != Passed {
        return r, StateInvalid, expected, candidate;
      }
      r, cause := Judge(run, expected, candidate, rebased, k);
    }

    method Judge(run: RunId, expected: Commit, candidate: Commit, rebased: bool, ghost k: Cont)
      returns (r: Reply, cause: Refusal)
      requires On(run, MarkVerifying(expected, candidate), k) && rebased == (expected != runs[run].start)
      modifies this
      ensures r == Died ==> Dead()
      ensures r == Broke ==> On(run, BlockFailed(cause), k)
      ensures r == Passed ==> On(run, WritePrepared(expected, candidate), k)
      ensures Kept(old(runs), runs)
    {
      r := Mark(run, expected, candidate, k);
      if r != Passed {
        return r, VerifyFailed;
      }
      r := FinalVerify(run, expected, candidate, k);
      if r != Passed {
        return r, VerifyFailed;
      }
      r := CheckSafety(run, expected, candidate, k);
      if r != Passed {
        return r, SafetyRed;
      }
      if rebased {
        r, cause := Rereview(run, expected, candidate, k);
        if r != Passed {
          return;
        }
      }
      cause := VerifyFailed;
    }

    // The end of a landing or of a replay: complete the task, close the run, close the ledger.
    method Close(run: RunId, ledger: Ledger, replay: bool, ghost k: Cont) returns (o: Landing)
      requires On(run, if replay then RecoverFinish(ledger) else FinishTask(ledger), k)
      modifies this
      ensures o == Killed ==> Dead()
      ensures o == Refused ==> Valid() && sys.sup == Return(sys, k, false).sup
      ensures o == Landed ==> Finalized(run, k)
      ensures Kept(old(runs), runs)
    {
      var r := Finish(run, ledger, replay, k);
      if r == Died {
        return Killed;
      }
      if r == Broke {
        if replay {
          return Refused;
        }
        o := LeavePending(run, k);
        return;
      }
      o := CloseLedger(run, ledger, replay, k);
    }

    method CloseLedger(run: RunId, ledger: Ledger, replay: bool, ghost k: Cont) returns (o: Landing)
      requires On(run, if replay then RecoverMark(ledger) else MarkDone(ledger), k)
      modifies this
      ensures o == Killed ==> Dead()
      ensures o != Killed ==> o == Landed && Finalized(run, k)
      ensures Kept(old(runs), runs)
    {
      var r := RecordDone(run, ledger, replay, k);
      if r == Died {
        return Killed;
      }
      r := RecordFinalized(run, ledger, replay, k);
      o := if r == Died then Killed else Landed;
    }

    // The run's ledger is closed and control is back with the caller.
    ghost predicate Finalized(run: RunId, k: Cont)
      reads this
    {
      && Valid() && sys.sup == Return(sys, k, true).sup
      && run in ledgers && ledgers[run].state == QueueFinalized
    }

    // The ledger, the ref, the push, the queue.
    method Publish(run: RunId, expected: Commit, candidate: Commit, ghost k: Cont) returns (o: Landing)
      requires On(run, WritePrepared(expected, candidate), k)
      modifies this
      ensures o == Killed ==> Dead()
      ensures o == Refused ==> Valid() && sys.sup == Return(sys, k, false).sup
      ensures o == Landed ==> Finalized(run, k)
      ensures Kept(old(runs), runs)
    {
      var r, ledger := Prepare(run, expected, candidate, k);
      if r == Died {
        return Killed;
      }
      r := AdvanceRef(run, ledger, k);
      if r == Died {
        return Killed;
      }
      if r == Broke {
        ghost var b;
        o, b := LandingFailure(run, CasFailed, k);
        return;
      }
      r, ledger := RecordIntegrated(run, ledger, k);
      if r == Died {
        return Killed;
      }
      o := PushAndClose(run, ledger, k);
    }

    method PushAndClose(run: RunId, integrated: Ledger, ghost k: Cont) returns (o: Landing)
      requires On(run, if push then Push(integrated) else FinishTask(integrated), k)
      modifies this
      ensures o == Killed ==> Dead()
      ensures o == Refused ==> Valid() && sys.sup == Return(sys, k, false).sup
      ensures o == Landed ==> Finalized(run, k)
      ensures Kept(old(runs), runs)
    {
      var ledger := integrated;
      if push {
        var r := PushBranch(run, ledger, false, k);
        if r == Died {
          return Killed;
        }
        if r == Broke {
          o := LeavePending(run, k);
          return;
        }
        r, ledger := RecordPushed(run, ledger, false, k);
        if r == Died {
          return Killed;
        }
      }
      o := Close(run, ledger, false, k);
    }

    // Lands one candidate. Whatever the script, the machine takes exactly these steps.
    method LandCandidate(run: RunId, ghost k: Cont) returns (o: Landing)
      requires On(run, LandingModel.Step.Enter, k)
      modifies this
      ensures o == Killed ==> Dead()
      ensures o == Refused ==>
                Valid() && (sys.sup == Return(sys, k, false).sup || (k.ToLoop? && sys.sup == Down))
      ensures o == Landed ==> Finalized(run, k)
      ensures o == Landed && LandingSafety.Inv(origin) ==>
                && TaskDone(sys, run)
                && IsAncestor(ledgers[run].candidate, ref)
                && (ledgers[run].pushRequired ==> OnRemote(sys, ledgers[run].candidate))
      ensures Kept(old(runs), runs)
    {
      var r, known, cause := Enter(run, k);
      if r == Died {
        return Killed;
      }
      if r == Broke && !known {
        return Refused;
      }
      if r == Broke {
        ghost var b;
        o, b := LandingFailure(run, cause, k);
        return;
      }
      var expected, candidate;
      r, cause, expected, candidate := Examine(run, k);
      if r == Died {
        return Killed;
      }
      if r == Broke {
        ghost var b;
        o, b := LandingFailure(run, cause, k);
        return;
      }
      o := Publish(run, expected, candidate, k);
      if o == Landed && LandingSafety.Inv(origin) {
        ExecuteKeeps(origin, Weave(script[..at]));
        assert LedgerOk(sys, run);
      }
    }

    // ------------------------------------------------- recovery

    // Reads the next ledger of the listing.
    method ExamineLedger(run: RunId, ghost rest: seq<RunId>, ghost errors: bool)
      returns (died: bool, choice: Choice, ledger: Option<Ledger>)
      requires Valid() && sys.sup == Recovering([run] + rest, errors)
      requires run in ledgers ==> run in runs
      modifies this
      ensures died ==> Dead()
      ensures !died && choice == Leave ==> Valid() && sys.sup == Recovering(rest, errors)
      ensures !died && choice == Reject ==> Valid() && sys.sup == Recovering(rest, true)
      ensures !died && choice == Redo ==> On(run, LandingModel.Step.Enter, ToRecovery(rest, errors))
      ensures !died && choice == Replay ==>
                ledger.Some? && On(run, RecoverIntegrated(ledger.value), ToRecovery(rest, errors))
      ensures Kept(old(runs), runs)
    {
      var t := Wait();
      if t.None? {
        return true, Leave, None;
      }
      ghost var todo := [run] + rest;
      assert todo[0] == run && todo[1..] == rest;
      PickIs(sys, todo, errors, t.value);
      if run !in ledgers || ledgers[run].state == QueueFinalized {
        choice, ledger := Leave, None;
      } else if !t.value.ok {
        choice, ledger := Reject, None;
      } else if ledgers[run].state == Prepared && ref == ledgers[run].expected {
        choice, ledger := Redo, None;
      } else if !IsAncestor(ledgers[run].candidate, ref) {
        choice, ledger := Reject, None;
      } else {
        choice, ledger := Replay, Some(ledgers[run]);
      }
      Took(t.value);
      died := false;
    }

    // What the replay of a ledger whose candidate is in the ref does.
    method ReplayLedger(run: RunId, ledger: Ledger, ghost k: Cont) returns (o: Landing)
      requires On(run, RecoverIntegrated(ledger), k)
      modifies this
      ensures o == Killed ==> Dead()
      ensures o == Refused ==> Valid() && sys.sup == Return(sys, k, false).sup
      ensures o == Landed ==> Finalized(run, k)
      ensures Kept(old(runs), runs)
    {
      var r, written := RewriteIntegrated(run, ledger, k);
      if r == Died {
        return Killed;
      }
      if written.pushRequired && !written.pushed {
        r, written := ReplayPush(run, written, k);
        if r != Passed {
          return if r == Died then Killed else Refused;
        }
      }
      o := ReplayClose(run, written, k);
    }

    method ReplayPush(run: RunId, ledger: Ledger, ghost k: Cont) returns (r: Reply, written: Ledger)
      requires On(run, RecoverPush(ledger), k)
      modifies this
      ensures r == Died ==> Dead()
      ensures r == Broke ==> Valid() && sys.sup == Return(sys, k, false).sup
      ensures r == Passed ==> On(run, RecoverPeek(written), k)
      ensures Kept(old(runs), runs)
    {
      written := ledger;
      r := PushBranch(run, ledger, true, k);
      if r == Passed {
        r, written := RecordPushed(run, ledger, true, k);
      }
    }

    method ReplayClose(run: RunId, ledger: Ledger, ghost k: Cont) returns (o: Landing)
      requires On(run, RecoverPeek(ledger), k)
      modifies this
      ensures o == Killed ==> Dead()
      ensures o == Refused ==> Valid() && sys.sup == Return(sys, k, false).sup
      ensures o == Landed ==> Finalized(run, k)
      ensures Kept(old(runs), runs)
    {
      var r, done := PeekTask(run, ledger, k);
      if r != Passed {
        return if r == Died then Killed else Refused;
      }
      if done {
        o := CloseLedger(run, ledger, true, k);
      } else {
        o := Close(run, ledger, true, k);
      }
    }

    method RewriteIntegrated(run: RunId, ledger: Ledger, ghost k: Cont) returns (r: Reply, written: Ledger)
      requires On(run, RecoverIntegrated(ledger), k)
      modifies this
      ensures r == Died ==> Dead()
      ensures r != Died ==>
                r == Passed &&
                On(run, if written.pushRequired && !written.pushed then RecoverPush(written)
                        else RecoverPeek(written), k)
      ensures Kept(old(runs), runs)
    {
      written := ledger.(state := Integrated);
      var t := Wait();
      if t.None? {
        return Died, written;
      }
      ledgers := ledgers[run := written];
      IntegratedIs(sys, run, ledger, k, t.value);
      Took(t.value);
      r := Passed;
    }

    method PeekTask(run: RunId, ledger: Ledger, ghost k: Cont) returns (r: Reply, done: bool)
      requires On(run, RecoverPeek(ledger), k)
      modifies this
      ensures r == Died ==> Dead()
      ensures r == Broke ==> Valid() && sys.sup == Return(sys, k, false).sup
      ensures r == Passed ==> On(run, if done then RecoverMark(ledger) else RecoverFinish(ledger), k)
      ensures Kept(old(runs), runs)
    {
      var t := Wait();
      if t.None? {
        return Died, false;
      }
      var task := runs[run].task;
      r := if task in queue.tasks then Passed else Broke;
      done := task in queue.tasks && queue.tasks[task].status == Done;
      PeekIs(sys, run, ledger, k, t.value);
      Took(t.value);
    }

    // One ledger of the pass.
    method ReconcileLedger(run: RunId, ghost rest: seq<RunId>, ghost errors: bool) returns (o: Landing)
      requires Valid() && sys.sup == Recovering([run] + rest, errors)
      requires run in ledgers ==> run in runs
      modifies this
      ensures o == Killed ==> Dead()
      ensures o != Killed ==> Valid() && sys.sup == Recovering(rest, errors || o == Refused)
      ensures Kept(old(runs), runs)
    {
      ghost var k := ToRecovery(rest, errors);
      var died, choice, ledger := ExamineLedger(run, rest, errors);
      if died {
        return Killed;
      }
      match choice {
        case Leave => o := Landed;
        case Reject => o := Refused;
        case Redo => o := LandCandidate(run, k);
        case Replay => o := ReplayLedger(run, ledger.value, k);
      }
    }

    // _reconcile_file_landing_ledgers
    method ReconcileLedgers(order: seq<RunId>) returns (died: bool, errors: bool)
      requires Valid() && sys.sup == Recovering(order, false) && LandingSafety.Inv(origin)
      modifies this
      ensures died ==> Dead()
      ensures !died ==> Valid() && sys.sup == Recovering([], errors)
    {
      var i := 0;
      errors := false;
      assert order[0..] == order;
      while i < |order|
        invariant i <= |order| && Valid() && sys.sup == Recovering(order[i..], errors)
      {
        assert order[i..] == [order[i]] + order[i + 1..];
        LedgersHaveRuns(origin, Weave(script[..at]), order[i]);
        var o := ReconcileLedger(order[i], order[i + 1..], errors);
        if o == Killed {
          return true, errors;
        }
        errors := errors || o == Refused;
        i := i + 1;
      }
      died := false;
    }

    // Reads the next run of the listing.
    method ExamineOrphan(run: RunId, ghost rest: seq<RunId>, ghost errors: bool)
      returns (died: bool, choice: Choice)
      requires Valid() && sys.sup == Adopting([run] + rest, errors)
      modifies this
      ensures died ==> Dead()
      ensures !died && choice == Leave ==> Valid() && sys.sup == Adopting(rest, errors)
      ensures !died && choice == Reject ==> Valid() && sys.sup == Adopting(rest, true)
      ensures !died && choice == Redo ==> On(run, LandingModel.Step.Enter, ToAdoption(rest, errors))
      ensures !died && choice == Replay ==> On(run, AdoptMark, ToAdoption(rest, errors))
    {
      var t := Wait();
      if t.None? {
        return true, Leave;
      }
      ghost var todo := [run] + rest;
      assert todo[0] == run && todo[1..] == rest;
      PickIs(sys, todo, errors, t.value);
      if run !in runs || runs[run].status != CandidateReady {
        choice := Leave;
      } else if runs[run].task !in queue.tasks {
        choice := Reject;
      } else if queue.tasks[runs[run].task].status == Done {
        choice := Replay;
      } else if !ActiveLease(queue.tasks[runs[run].task], runs[run].lease) {
        choice := Reject;
      } else {
        choice := Redo;
      }
      Took(t.value);
      died := false;
    }

    method MarkAdopted(run: RunId, ghost k: Cont) returns (o: Landing)
      requires On(run, AdoptMark, k)
      modifies this
      ensures o == Killed ==> Dead()
      ensures o != Killed ==> o == Landed && Valid() && sys.sup == Return(sys, k, true).sup
    {
      var t := Wait();
      if t.None? {
        return Killed;
      }
      KeptUpdate(old(runs), runs, run, runs[run].(status := RunDone));
      runs := runs[run := runs[run].(status := RunDone)];
      AdoptMarkIs(sys, run, k, t.value);
      Took(t.value);
      o := Landed;
    }

    method AdoptOrphan(run: RunId, ghost rest: seq<RunId>, ghost errors: bool) returns (o: Landing)
      requires Valid() && sys.sup == Adopting([run] + rest, errors)
      modifies this
      ensures o == Killed ==> Dead()
      ensures o != Killed ==> Valid() && sys.sup == Adopting(rest, errors || o == Refused)
    {
      ghost var k := ToAdoption(rest, errors);
      var died, choice := ExamineOrphan(run, rest, errors);
      if died {
        return Killed;
      }
      match choice {
        case Leave => o := Landed;
        case Reject => o := Refused;
        case Redo => o := LandCandidate(run, k);
        case Replay => o := MarkAdopted(run, k);
      }
    }

    // _reconcile_orphan_candidates
    method AdoptOrphans(order: seq<RunId>) returns (died: bool, errors: bool)
      requires Valid() && sys.sup == Adopting(order, false)
      modifies this
      ensures died ==> Dead()
      ensures !died ==> Valid() && sys.sup == Adopting([], errors)
    {
      var i := 0;
      errors := false;
      assert order[0..] == order;
      while i < |order|
        invariant i <= |order| && Valid() && sys.sup == Adopting(order[i..], errors)
      {
        assert order[i..] == [order[i]] + order[i + 1..];
        var o := AdoptOrphan(order[i], order[i + 1..], errors);
        if o == Killed {
          return true, errors;
        }
        errors := errors || o == Refused;
        i := i + 1;
      }
      died := false;
    }
  }

  lemma LedgersHaveRuns(s: System, es: seq<Event>, run: RunId)
    requires LandingSafety.Inv(s)
    ensures run in Execute(s, es).ledgers ==> run in Execute(s, es).runs
  {
    ExecuteKeeps(s, es);
    assert run in Execute(s, es).ledgers ==> LedgerOk(Execute(s, es), run);
  }
}
