/** What the lane had examined before it moved the ref, told by the events of the run. */
module LandingChecks {
  import opened Wrappers
  import opened Commits
  import opened LandingModel
  import opened LandingSafety

  // A verdict on one run's candidate, on top of one value of the ref.
  datatype Verdict = Verdict(run: RunId, expected: Commit, candidate: Commit)

  // The verdicts that were good: of the final verify, the safety policy and the re-review.
  datatype Log = Log(verified: set<Verdict>, safe: set<Verdict>, reviewed: set<Verdict>)

  const NOTHING := Log({}, {}, {})

  function Noted(log: Log, s: System, e: Event): Log {
    if !(e.Advance? && e.ok && s.sup.Working?) then log
    else match s.sup.step
      case Verify(x, c) => log.(verified := log.verified + {Verdict(s.sup.run, x, c)})
      case Safety(x, c) => log.(safe := log.safe + {Verdict(s.sup.run, x, c)})
      case Review(x, c) => log.(reviewed := log.reviewed + {Verdict(s.sup.run, x, c)})
      case _ => log
  }

  function LogOf(s: System, es: seq<Event>, log: Log): Log
    decreases |es|
  {
    if es == [] then log else LogOf(Next(s, es[0]), es[1..], Noted(log, s, es[0]))
  }

  // Verified, safe, and re-reviewed if the ref had left the commit the worktree started from.
  predicate Backed(s: System, log: Log, run: RunId, expected: Commit, candidate: Commit) {
    var v := Verdict(run, expected, candidate);
    && run in s.runs && v in log.verified && v in log.safe
    && (expected != s.runs[run].start ==> v in log.reviewed)
  }

  // What the supervisor's place in the lane tells about the verdicts.
  predicate PlaceBacked(s: System, log: Log) {
    s.sup.Working? ==>
      match s.sup.step
      case Safety(x, c) => Verdict(s.sup.run, x, c) in log.verified
      case Review(x, c) => Verdict(s.sup.run, x, c) in log.verified * log.safe
      case WritePrepared(x, c) => Backed(s, log, s.sup.run, x, c)
      case Cas(ledger) => Backed(s, log, s.sup.run, ledger.expected, ledger.candidate)
      case _ => true
  }

  predicate MovesBacked(s: System, log: Log) {
    forall i :: 0 <= i < |s.moves| && s.moves[i].lander.Some? ==>
      Backed(s, log, s.moves[i].lander.value, s.moves[i].from, s.moves[i].to)
  }

  predicate LogGrows(a: Log, b: Log) {
    a.verified <= b.verified && a.safe <= b.safe && a.reviewed <= b.reviewed
  }

  lemma StillBacked(a: System, b: System, la: Log, lb: Log, run: RunId, expected: Commit, candidate: Commit)
    requires Backed(a, la, run, expected, candidate) && RunsKept(a, b) && LogGrows(la, lb)
    ensures Backed(b, lb, run, expected, candidate)
  {
    assert RunKept(a.runs[run], b.runs[run]);
  }

  lemma MovesStillBacked(a: System, b: System, la: Log, lb: Log)
    requires MovesBacked(a, la) && b.moves == a.moves && RunsKept(a, b) && LogGrows(la, lb)
    ensures MovesBacked(b, lb)
  {
    forall i | 0 <= i < |b.moves| && b.moves[i].lander.Some?
      ensures Backed(b, lb, b.moves[i].lander.value, b.moves[i].from, b.moves[i].to)
    {
      StillBacked(a, b, la, lb, b.moves[i].lander.value, b.moves[i].from, b.moves[i].to);
    }
  }

  lemma MoveAdded(a: System, b: System, la: Log, lb: Log, m: Move)
    requires MovesBacked(a, la) && b.moves == a.moves + [m] && RunsKept(a, b) && LogGrows(la, lb)
    requires m.lander.Some? ==> Backed(a, la, m.lander.value, m.from, m.to)
    ensures MovesBacked(b, lb)
  {
    forall i | 0 <= i < |b.moves| && b.moves[i].lander.Some?
      ensures Backed(b, lb, b.moves[i].lander.value, b.moves[i].from, b.moves[i].to)
    {
      StillBacked(a, b, la, lb, b.moves[i].lander.value, b.moves[i].from, b.moves[i].to);
    }
  }

  lemma ExaminePlace(s: System, e: Event, log: Log)
    requires PlaceBacked(s, log) && e.Advance? && s.sup.Working? && s.sup.run in s.runs && IsExamine(s.sup.step)
    ensures PlaceBacked(Next(s, e), Noted(log, s, e))
    ensures Next(s, e).moves == s.moves
  {
  }

  lemma CommitPlace(s: System, e: Event, log: Log)
    requires PlaceBacked(s, log) && e.Advance? && s.sup.Working? && s.sup.run in s.runs && IsCommit(s.sup.step)
    ensures PlaceBacked(Next(s, e), Noted(log, s, e))
    ensures !s.sup.step.Cas? ==> Next(s, e).moves == s.moves
  {
  }

  lemma ReplayPlace(s: System, e: Event, log: Log)
    requires e.Advance? && s.sup.Working? && s.sup.run in s.runs && IsRecover(s.sup.step)
    ensures PlaceBacked(Next(s, e), Noted(log, s, e))
    ensures Next(s, e).moves == s.moves && Noted(log, s, e) == log
  {
  }

  lemma FailurePlace(s: System, e: Event, log: Log)
    requires e.Advance? && s.sup.Working? && s.sup.run in s.runs
    requires !IsExamine(s.sup.step) && !IsCommit(s.sup.step) && !IsRecover(s.sup.step)
    ensures PlaceBacked(Next(s, e), Noted(log, s, e))
    ensures Next(s, e).moves == s.moves && Noted(log, s, e) == log
  {
  }

  lemma PickPlace(s: System, e: Event, log: Log)
    requires e.Advance? && !s.sup.Working?
    ensures PlaceBacked(Next(s, e), Noted(log, s, e))
    ensures Next(s, e).moves == s.moves && Noted(log, s, e) == log
  {
  }

  lemma OutsidePlace(s: System, e: Event, log: Log)
    requires PlaceBacked(s, log) && !e.Advance? && RunsKept(s, Next(s, e))
    ensures PlaceBacked(Next(s, e), Noted(log, s, e))
    ensures Next(s, e).moves == s.moves
         || exists m: Move :: m.lander.None? && Next(s, e).moves == s.moves + [m]
  {
  }

  lemma AdvancePlace(s: System, e: Event, log: Log)
    requires PlaceBacked(s, log) && SupervisorOk(s) && e.Advance?
    ensures PlaceBacked(Next(s, e), Noted(log, s, e))
    ensures !(s.sup.Working? && s.sup.step.Cas?) ==> Next(s, e).moves == s.moves
  {
    if !s.sup.Working? {
      PickPlace(s, e, log);
    } else if IsExamine(s.sup.step) {
      ExaminePlace(s, e, log);
    } else if IsCommit(s.sup.step) {
      CommitPlace(s, e, log);
    } else if IsRecover(s.sup.step) {
      ReplayPlace(s, e, log);
    } else {
      FailurePlace(s, e, log);
    }
  }

  lemma CasMoves(s: System, e: Event, log: Log)
    requires PlaceBacked(s, log) && SupervisorOk(s) && e.Advance? && s.sup.Working? && s.sup.step.Cas?
    ensures Noted(log, s, e) == log
    ensures Next(s, e).moves == s.moves
         || exists m: Move :: Next(s, e).moves == s.moves + [m] && m.lander == Some(s.sup.run)
                              && Backed(s, log, s.sup.run, m.from, m.to)
  {
    if s.ref == s.sup.step.ledger.expected {
      var m := Move(Some(s.sup.run), s.ref, s.sup.step.ledger.candidate);
      assert Next(s, e).moves == s.moves + [m];
    }
  }

  lemma NextBacked(s: System, e: Event, log: Log)
    requires LandingSafety.Inv(s) && PlaceBacked(s, log) && MovesBacked(s, log)
    ensures PlaceBacked(Next(s, e), Noted(log, s, e)) && MovesBacked(Next(s, e), Noted(log, s, e))
  {
    var s', log' := Next(s, e), Noted(log, s, e);
    NextKeeps(s, e);
    LogOnlyGrows(log, s, e);
    if e.Advance? {
      AdvancePlace(s, e, log);
      if s.sup.Working? && s.sup.step.Cas? {
        CasMoves(s, e, log);
      }
    } else {
      OutsidePlace(s, e, log);
    }
    if s'.moves == s.moves {
      MovesStillBacked(s, s', log, log');
    } else {
      MoveAdded(s, s', log, log', s'.moves[|s.moves|]);
    }
  }

  lemma LogOnlyGrows(log: Log, s: System, e: Event)
    ensures LogGrows(log, Noted(log, s, e))
  {
  }

  lemma {:induction false} ExecuteBacked(s: System, es: seq<Event>, log: Log)
    requires LandingSafety.Inv(s) && PlaceBacked(s, log) && MovesBacked(s, log)
    ensures MovesBacked(Execute(s, es), LogOf(s, es, log))
    decreases |es|
  {
    if es != [] {
      NextBacked(s, es[0], log);
      NextKeeps(s, es[0]);
      ExecuteBacked(Next(s, es[0]), es[1..], Noted(log, s, es[0]));
    }
  }

  // No landing skips a check: before each ref move of the lane the same run's candidate had,
  // on top of the very commit the ref moved from, passed the final verify and the safety
  // policy, and a re-review if that was not the commit its worktree started from.
  lemma EveryMoveWasChecked(s: System, es: seq<Event>, i: nat)
    requires Initial(s) && i < |Execute(s, es).moves| && Execute(s, es).moves[i].lander.Some?
    ensures var m := Execute(s, es).moves[i];
            Backed(Execute(s, es), LogOf(s, es, NOTHING), m.lander.value, m.from, m.to)
  {
    InitialInv(s);
    ExecuteBacked(s, es, NOTHING);
  }
}
