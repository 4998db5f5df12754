/**
 * Turns between projects when the set of waiting projects changes: when a project loses its
 * place in the round, how often it can be passed over, and that it can be passed over forever.
 */
module CapacityTurns {
  import opened Wrappers
  import opened CapacityModel
  import opened CapacitySafety
  import opened CapacityFairness

  // ------------------------------------------------- places as counts

  function Below(ps: seq<Project>, p: Project): set<Project> {
    set x | x in ps && x.n < p.n
  }

  function Above(ps: seq<Project>, p: Project): set<Project> {
    set x | x in ps && p.n < x.n
  }

  // The projects that come after g and before p in the round.
  function Between(ps: seq<Project>, g: Project, p: Project): set<Project> {
    set x | x in ps && (if g.n < p.n then g.n < x.n < p.n else g.n < x.n || x.n < p.n)
  }

  lemma UnionSize<T>(a: set<T>, b: set<T>, u: set<T>)
    requires a !! b && u == a + b
    ensures |u| == |a| + |b|
  {
  }

  lemma {:induction false} CountBelow(ps: seq<Project>, i: nat)
    requires Increasing(ps) && i < |ps|
    ensures |Below(ps, ps[i])| == i
  {
    if i == 0 {
      assert Below(ps, ps[0]) == {};
    } else {
      CountBelow(ps, i - 1);
      assert Below(ps, ps[i]) == Below(ps, ps[i - 1]) + {ps[i - 1]};
    }
  }

  lemma AboveNext(ps: seq<Project>, i: nat)
    requires Increasing(ps) && i + 1 < |ps|
    ensures Above(ps, ps[i]) == Above(ps, ps[i + 1]) + {ps[i + 1]}
  {
    forall x | x in Above(ps, ps[i])
      ensures x == ps[i + 1] || ps[i + 1].n < x.n
    {
      var k :| 0 <= k < |ps| && ps[k] == x;
      assert k > i;
    }
  }

  lemma {:induction false} CountAbove(ps: seq<Project>, i: nat)
    requires Increasing(ps) && i < |ps|
    ensures |Above(ps, ps[i])| == |ps| - 1 - i
    decreases |ps| - i
  {
    if i == |ps| - 1 {
      assert Above(ps, ps[i]) == {};
    } else {
      CountAbove(ps, i + 1);
      UnionSize(Above(ps, ps[i + 1]), {ps[i + 1]}, Above(ps, ps[i + 1]) + {ps[i + 1]});
      AboveNext(ps, i);
    }
  }

  lemma BelowSplits(ps: seq<Project>, g: Project, p: Project)
    requires g in ps && g.n < p.n
    ensures |Below(ps, p)| == |Below(ps, g)| + 1 + |Between(ps, g, p)|
  {
    UnionSize(Below(ps, g), {g}, Below(ps, g) + {g});
    UnionSize(Below(ps, g) + {g}, Between(ps, g, p), Below(ps, p));
  }

  lemma RoundSplits(ps: seq<Project>, g: Project, p: Project)
    requires p.n < g.n
    ensures |Between(ps, g, p)| == |Above(ps, g)| + |Below(ps, p)|
  {
    UnionSize(Above(ps, g), Below(ps, p), Between(ps, g, p));
  }

  // A project's place in the round is the number of projects between the last grant and it;
  // when the last granted project does not wait, the round starts from the first name.
  lemma PositionCounts(ps: seq<Project>, g: Project, p: Project)
    requires Increasing(ps) && p in ps && g != p
    ensures Position(ps, Some(g), p) == if g in ps then |Between(ps, g, p)| else |Below(ps, p)|
  {
    CountBelow(ps, IndexOf(ps, p));
    if g in ps {
      CountBelow(ps, IndexOf(ps, g));
      CountAbove(ps, IndexOf(ps, g));
      if g.n < p.n {
        BelowSplits(ps, g, p);
      } else {
        RoundSplits(ps, g, p);
      }
    }
  }

  // ------------------------------------------------- when a project loses its place

  // Those that joined the waiting projects between the last grant and p, and those that left.
  function Joined(was: seq<Project>, now: seq<Project>, g: Project, p: Project): set<Project> {
    Between(now, g, p) - Between(was, g, p)
  }

  function Departed(was: seq<Project>, now: seq<Project>, g: Project, p: Project): set<Project> {
    Between(was, g, p) - Between(now, g, p)
  }

  lemma DifferenceSize<T>(a: set<T>, b: set<T>)
    ensures |b| - |a| == |b - a| - |a - b|
  {
    assert a == (a - b) + a * b;
    assert b == (b - a) + a * b;
  }

  // How p's place changes between a grant to g and the next choice. While g waits again it
  // moves by those that joined and left before p's turn. When g has left, the round starts
  // from the first name: p also falls behind the names before g, or gets ahead of those after.
  lemma PlaceMoves(was: seq<Project>, now: seq<Project>, g: Project, p: Project)
    requires Increasing(was) && Increasing(now) && g in was && p in was && p in now && g != p
    ensures Position(now, Some(g), p) - Position(was, Some(g), p)
            == |Joined(was, now, g, p)| - |Departed(was, now, g, p)|
               + (if g in now then 0 else if g.n < p.n then |Below(now, g)| else -|Above(now, g)|)
  {
    PositionCounts(was, g, p);
    PositionCounts(now, g, p);
    DifferenceSize(Between(was, g, p), Between(now, g, p));
    if g !in now {
      RoundStartsOver(now, g, p);
    }
  }

  lemma RoundStartsOver(now: seq<Project>, g: Project, p: Project)
    requires g !in now && g != p
    ensures |Below(now, p)| == |Between(now, g, p)| + (if g.n < p.n then |Below(now, g)| else -|Above(now, g)|)
  {
    if g.n < p.n {
      UnionSize(Below(now, g), Between(now, g, p), Below(now, p));
    } else {
      RoundSplits(now, g, p);
    }
  }

  // A project loses its place only to one that joins before its turn, or when the project
  // granted last stops waiting and somebody with a smaller name waits.
  lemma PlaceLost(was: seq<Project>, now: seq<Project>, g: Project, p: Project)
    requires Increasing(was) && Increasing(now) && g in was && p in was && p in now && g != p
    requires Position(now, Some(g), p) > Position(was, Some(g), p)
    ensures Joined(was, now, g, p) != {} || (g !in now && g.n < p.n && Below(now, g) != {})
  {
    PlaceMoves(was, now, g, p);
  }

  // ------------------------------------------------- bounded bypass

  // At every grant p's head could be granted.
  predicate ReadyAtGrants(policy: Policy, s: State, ops: seq<Op>, p: Project)
    decreases |ops|
  {
    ops != [] ==>
      && (IsGrant(policy, s, ops[0]) ==> ReadyAt(policy, AtChoice(policy, s, ops[0]), p))
      && ReadyAtGrants(policy, Step(policy, s, ops[0]), ops[1..], p)
  }

  predicate ReadyAt(policy: Policy, c: State, p: Project) {
    p in Projects(c.waiters) && Head(c.waiters, p).Some? && Allocatable(policy, c, Head(c.waiters, p).value)
  }

  // The places p loses between one grant and the next choice.
  function Loss(was: seq<Project>, now: seq<Project>, last: Option<Project>, p: Project): nat {
    if p in was && p in now && Position(now, last, p) > Position(was, last, p)
    then Position(now, last, p) - Position(was, last, p) else 0
  }

  // The places p loses in a run; ps were the waiting projects at the last choice before it.
  function Losses(policy: Policy, s: State, ops: seq<Op>, ps: seq<Project>, p: Project): nat
    decreases |ops|
  {
    if ops == [] then 0
    else if IsGrant(policy, s, ops[0]) then
      var now := Projects(AtChoice(policy, s, ops[0]).waiters);
      Loss(ps, now, s.last, p) + Losses(policy, Step(policy, s, ops[0]), ops[1..], now, p)
    else Losses(policy, Step(policy, s, ops[0]), ops[1..], ps, p)
  }

  lemma HonestHead(policy: Policy, s: State, ops: seq<Op>, p: Project)
    requires ops != [] && HonestRun(policy, s, ops) && ReadyAtGrants(policy, s, ops, p)
    ensures Honest(policy, s, ops[0]) && HonestRun(policy, Step(policy, s, ops[0]), ops[1..])
    ensures ReadyAtGrants(policy, Step(policy, s, ops[0]), ops[1..], p)
    ensures IsGrant(policy, s, ops[0]) ==> ReadyAt(policy, AtChoice(policy, s, ops[0]), p)
    ensures !IsGrant(policy, s, ops[0]) ==> Step(policy, s, ops[0]).last == s.last
    ensures GrantLog(policy, s, ops)
            == (if IsGrant(policy, s, ops[0]) then [ops[0].project] else [])
               + GrantLog(policy, Step(policy, s, ops[0]), ops[1..])
  {
    if !IsGrant(policy, s, ops[0]) {
      OnlyGrantsMoveTheTurn(policy, s, ops[0]);
    }
  }

  // A grant to another project brings p at least one place nearer.
  lemma GrantBringsNearer(policy: Policy, s: State, op: Op, p: Project)
    requires IsGrant(policy, s, op) && Honest(policy, s, op) && ReadyAt(policy, AtChoice(policy, s, op), p)
    ensures Step(policy, s, op).last == Some(op.project)
    ensures var now := Projects(AtChoice(policy, s, op).waiters);
            op.project == p || (op.project in now && Position(now, Some(op.project), p) < Position(now, s.last, p))
  {
    GrantIsSelected(policy, s, op);
    PassedOverIsNearer(policy, AtChoice(policy, s, op), p);
  }

  // Bounded bypass: a project whose head can be granted at every grant is passed over at
  // most as often as projects stand before it at first and places are lost to others since.
  lemma {:induction false} BypassBound(policy: Policy, s: State, ops: seq<Op>, ps: seq<Project>, p: Project)
    requires p in ps && ReadyAtGrants(policy, s, ops, p) && HonestRun(policy, s, ops)
    requires |GrantLog(policy, s, ops)| > Position(ps, s.last, p) + Losses(policy, s, ops, ps, p)
    ensures p in GrantLog(policy, s, ops)[..Position(ps, s.last, p) + Losses(policy, s, ops, ps, p) + 1]
    decreases |ops|
  {
    HonestHead(policy, s, ops, p);
    var s' := Step(policy, s, ops[0]);
    if !IsGrant(policy, s, ops[0]) {
      assert GrantLog(policy, s, ops) == GrantLog(policy, s', ops[1..]);
      BypassBound(policy, s', ops[1..], ps, p);
    } else {
      var now := Projects(AtChoice(policy, s, ops[0]).waiters);
      var rest := GrantLog(policy, s', ops[1..]);
      var far := Position(ps, s.last, p) + Losses(policy, s, ops, ps, p);
      GrantBringsNearer(policy, s, ops[0], p);
      if ops[0].project == p {
        assert GrantLog(policy, s, ops)[0] == p;
      } else {
        var near := Position(now, s'.last, p) + Losses(policy, s', ops[1..], now, p);
        BypassBound(policy, s', ops[1..], now, p);
        NearerPrefix(ops[0].project, rest, near, far, p);
      }
    }
  }

  // At every grant the same projects wait.
  predicate FixedSet(policy: Policy, s: State, ops: seq<Op>, ps: seq<Project>)
    decreases |ops|
  {
    ops != [] ==>
      && (IsGrant(policy, s, ops[0]) ==> Projects(AtChoice(policy, s, ops[0]).waiters) == ps)
      && FixedSet(policy, Step(policy, s, ops[0]), ops[1..], ps)
  }

  lemma {:induction false} FixedSetLosesNothing(policy: Policy, s: State, ops: seq<Op>, ps: seq<Project>, p: Project)
    requires FixedSet(policy, s, ops, ps)
    ensures Losses(policy, s, ops, ps, p) == 0
    decreases |ops|
  {
    if ops != [] {
      FixedSetLosesNothing(policy, Step(policy, s, ops[0]), ops[1..], ps, p);
    }
  }

  // With a fixed set of waiting projects that is fewer than their number.
  lemma BoundedBypass(policy: Policy, s: State, ops: seq<Op>, ps: seq<Project>, p: Project)
    requires p in ps && ReadyAtGrants(policy, s, ops, p) && FixedSet(policy, s, ops, ps) && HonestRun(policy, s, ops)
    requires Increasing(ps) && |GrantLog(policy, s, ops)| > Position(ps, s.last, p)
    ensures Position(ps, s.last, p) < |ps|
    ensures p in GrantLog(policy, s, ops)[..Position(ps, s.last, p) + 1]
  {
    PositionInRotation(ps, s.last, p);
    FixedSetLosesNothing(policy, s, ops, ps, p);
    BypassBound(policy, s, ops, ps, p);
  }

  // ------------------------------------------------- passed over without end

  // A run with its end, its grants, and p ready at each of them.
  predicate Plays(policy: Policy, s: State, ops: seq<Op>, p: Project, log: seq<Project>, end: State) {
    && HonestRun(policy, s, ops) && ReadyAtGrants(policy, s, ops, p)
    && GrantLog(policy, s, ops) == log && Run(policy, s, ops) == end
  }

  lemma PlaysOne(policy: Policy, s: State, op: Op, p: Project, t: State, ops: seq<Op>, log: seq<Project>, end: State)
    requires Honest(policy, s, op) && Step(policy, s, op) == t && Plays(policy, t, ops, p, log, end)
    requires IsGrant(policy, s, op) ==> ReadyAt(policy, AtChoice(policy, s, op), p)
    ensures Plays(policy, s, [op] + ops, p, (if IsGrant(policy, s, op) then [op.project] else []) + log, end)
  {
    assert ([op] + ops)[1..] == ops;
  }

  lemma PlaysRest(policy: Policy, s: State, ops: seq<Op>, p: Project, log: seq<Project>, end: State)
    returns (rest: seq<Project>)
    requires Plays(policy, s, ops, p, log, end) && ops != []
    ensures Plays(policy, Step(policy, s, ops[0]), ops[1..], p, rest, end) && Honest(policy, s, ops[0])
    ensures IsGrant(policy, s, ops[0]) ==> ReadyAt(policy, AtChoice(policy, s, ops[0]), p)
    ensures log == (if IsGrant(policy, s, ops[0]) then [ops[0].project] else []) + rest
  {
    rest := GrantLog(policy, Step(policy, s, ops[0]), ops[1..]);
  }

  lemma {:induction false} PlaysOn(policy: Policy, s: State, a: seq<Op>, b: seq<Op>, p: Project,
                                   log: seq<Project>, mid: State, more: seq<Project>, end: State)
    requires Plays(policy, s, a, p, log, mid) && Plays(policy, mid, b, p, more, end)
    ensures Plays(policy, s, a + b, p, log + more, end)
    decreases |a|
  {
    if a == [] {
      assert a + b == b && log + more == more;
    } else {
      var rest := PlaysRest(policy, s, a, p, log, mid);
      var t := Step(policy, s, a[0]);
      PlaysOn(policy, t, a[1..], b, p, rest, mid, more, end);
      PlaysOne(policy, s, a[0], p, t, a[1..] + b, rest + more, end);
      assert a + b == [a[0]] + (a[1..] + b);
      Regroup(if IsGrant(policy, s, a[0]) then [a[0].project] else [], rest, more);
    }
  }

  lemma Regroup(a: seq<Project>, b: seq<Project>, c: seq<Project>)
    ensures a + (b + c) == (a + b) + c
  {
  }

  // Two projects that take turns at one resource, and a third that waits for it.

  const SHUT_OUT := Waiter(Q(0), P(2), None, {X(0)}, 0)

  function Rival(i: nat): Waiter {
    Waiter(Q(i + 1), P(i % 2), None, {X(0)}, i + 1)
  }

  function Holding(i: nat): Lease {
    Lease(T(i + 1), P(i % 2), None, {X(0)}, Live, None)
  }

  // Everybody lives.
  function Alive(i: nat): Census {
    Census(map[T(i + 1) := Healthy, T(i + 2) := Healthy], {Q(0), Q(i + 1), Q(i + 2)})
  }

  function RivalPolls(i: nat, c: Census): Op {
    Op.Poll(c, Q(i + 1), P(i % 2), None, {X(0)}, i + 1, T(i + 1))
  }

  function ThirdPolls(c: Census): Op {
    Op.Poll(c, Q(0), P(2), None, {X(0)}, 0, T(0))
  }

  function Busy(i: nat): State {
    State([Holding(i)], [SHUT_OUT], Some(P(i % 2)))
  }

  function Contested(i: nat): State {
    State([Holding(i)], [SHUT_OUT, Rival(i + 1)], Some(P(i % 2)))
  }

  function Free(i: nat): State {
    State([], [SHUT_OUT, Rival(i + 1)], Some(P(i % 2)))
  }

  lemma NobodyFits(policy: Policy, s: State)
    requires X(0) in Occupied(s.leases) && forall w :: w in s.waiters ==> X(0) in w.resources
    ensures Selected(policy, s).None?
  {
    var order := Rotation(Projects(s.waiters), s.last);
    if Selected(policy, s).Some? {
      SelectedIsHead(policy, s, order);
      HeadIsQueued(s.waiters, Selected(policy, s).value.project);
    }
  }

  // When the project granted last does not wait, the first name is granted.
  lemma FirstNameFirst(policy: Policy, w: Waiter, x: Waiter, last: Option<Project>)
    requires x.project.n < w.project.n && x.provider.None?
    requires last.Some? ==> last.value !in {w.project, x.project}
    ensures Selected(policy, State([], [w, x], last)) == Some(x)
  {
    var ws := [w, x];
    assert ws[1..] == [x] && [x][1..] == [];
    assert Queued([x]) == [x] && Projects([x]) == [x.project];
    assert [x.project][1..] == [] && InsertProject(w.project, []) == [w.project];
    assert InsertProject(w.project, [x.project]) == [x.project] + [w.project];
    assert InsertWaiter(w, []) == [w];
    assert InsertWaiter(w, [x]) == [w, x] || InsertWaiter(w, [x]) == [x, w];
    assert Projects(ws) == [x.project, w.project];
    assert Queued(ws) == [w, x] || Queued(ws) == [x, w];
    assert [w, x][1..] == [x];
    assert FirstFor([x], x.project) == Some(x);
    assert Head(ws, x.project) == Some(x);
  }

  lemma AllStay(i: nat)
    ensures Reconcile(Busy(i), Alive(i)) == Busy(i) && Reconcile(Busy(i + 1), Alive(i)) == Busy(i + 1)
    ensures Reconcile(Contested(i), Alive(i)) == Contested(i) && Reconcile(Free(i), Alive(i)) == Free(i)
  {
    var c := Alive(i);
    assert [Holding(i)][1..] == [] && [Holding(i + 1)][1..] == [];
    assert Retained([Holding(i)], c) == [Holding(i)] && Retained([Holding(i + 1)], c) == [Holding(i + 1)];
    assert [SHUT_OUT][1..] == [] && [SHUT_OUT, Rival(i + 1)][1..] == [Rival(i + 1)] && [Rival(i + 1)][1..] == [];
    assert Fresh([Rival(i + 1)], c) == [Rival(i + 1)] && Fresh([SHUT_OUT], c) == [SHUT_OUT];
    assert Fresh([SHUT_OUT, Rival(i + 1)], c) == [SHUT_OUT, Rival(i + 1)];
  }

  // A poll that finds the resource taken leaves the document as it is.
  lemma PollInVain(policy: Policy, s: State, op: Op)
    requires op.Poll? && op.provider.None? && Reconcile(s, op.census) == s
    requires HasRequest(s.waiters, op.request)
    requires Selected(policy, s).None? || Selected(policy, s).value.request != op.request
    ensures Step(policy, s, op) == s && !IsGrant(policy, s, op)
  {
  }

  lemma ThirdWaits(policy: Policy, s: State, c: Census)
    requires Reconcile(s, c) == s && s.waiters != [] && s.waiters[0] == SHUT_OUT
    requires X(0) in Occupied(s.leases) && forall w :: w in s.waiters ==> X(0) in w.resources
    ensures Step(policy, s, ThirdPolls(c)) == s && !IsGrant(policy, s, ThirdPolls(c))
  {
    NobodyFits(policy, s);
    PollInVain(policy, s, ThirdPolls(c));
  }

  lemma HoldingOccupies(i: nat)
    ensures X(0) in Occupied([Holding(i)])
  {
    assert X(0) in Holding(i).resources;
  }

  lemma ThirdWaitsBusy(policy: Policy, i: nat, c: Census)
    requires Reconcile(Busy(i), c) == Busy(i)
    ensures Step(policy, Busy(i), ThirdPolls(c)) == Busy(i) && !IsGrant(policy, Busy(i), ThirdPolls(c))
  {
    HoldingOccupies(i);
    ThirdWaits(policy, Busy(i), c);
  }

  lemma ThirdWaitsQueued(policy: Policy, i: nat)
    ensures Step(policy, Contested(i), ThirdPolls(Alive(i))) == Contested(i)
            && !IsGrant(policy, Contested(i), ThirdPolls(Alive(i)))
  {
    HoldingOccupies(i);
    AllStay(i);
    ThirdWaits(policy, Contested(i), Alive(i));
  }

  lemma RivalQueues(policy: Policy, i: nat)
    ensures var op := RivalPolls(i + 1, Alive(i));
            Step(policy, Busy(i), op) == Contested(i) && !IsGrant(policy, Busy(i), op)
  {
    AllStay(i);
    HoldingOccupies(i);
    assert [SHUT_OUT] + [Rival(i + 1)] == [SHUT_OUT, Rival(i + 1)];
    assert Enqueued(Busy(i), Rival(i + 1)) == Contested(i);
    NobodyFits(policy, Contested(i));
  }

  lemma HolderLeaves(policy: Policy, i: nat)
    ensures Step(policy, Contested(i), Op.Release(Alive(i), T(i + 1))) == Free(i)
  {
    AllStay(i);
    assert [Holding(i)][1..] == [];
    assert WithoutToken([Holding(i)], T(i + 1)) == [];
  }

  lemma RivalIsNext(policy: Policy, i: nat)
    ensures Selected(policy, Free(i)) == Some(Rival(i + 1))
  {
    FirstNameFirst(policy, SHUT_OUT, Rival(i + 1), Some(P(i % 2)));
  }

  lemma ThirdWaitsFree(policy: Policy, i: nat)
    ensures Step(policy, Free(i), ThirdPolls(Alive(i))) == Free(i) && !IsGrant(policy, Free(i), ThirdPolls(Alive(i)))
  {
    AllStay(i);
    RivalIsNext(policy, i);
    assert Free(i).waiters[0].request == Q(0);
    PollInVain(policy, Free(i), ThirdPolls(Alive(i)));
  }

  lemma RivalIsGranted(policy: Policy, i: nat)
    ensures var op := RivalPolls(i + 1, Alive(i));
            && Step(policy, Free(i), op) == Busy(i + 1) && IsGrant(policy, Free(i), op)
            && AtChoice(policy, Free(i), op) == Free(i)
  {
    AllStay(i);
    RivalIsNext(policy, i);
    assert Free(i).waiters[1].request == Q(i + 2);
    assert [SHUT_OUT, Rival(i + 1)][1..] == [Rival(i + 1)] && [Rival(i + 1)][1..] == [];
    assert WithoutRequest([Rival(i + 1)], Q(i + 2)) == [];
    assert WithoutRequest([SHUT_OUT, Rival(i + 1)], Q(i + 2)) == [SHUT_OUT];
  }

  lemma ThirdIsReady(policy: Policy, i: nat)
    ensures ReadyAt(policy, Free(i), P(2))
  {
    var ws := Free(i).waiters;
    ProjectsOk(ws);
    HeadIsLeast(ws, 0);
    assert ws[0].project in Projects(ws);
    assert Head(ws, P(2)) == Some(SHUT_OUT);
  }

  // Every second call is a poll by p.
  predicate KeepsPolling(ops: seq<Op>, p: Project) {
    ops == [] || (|ops| >= 2 && ops[1].Poll? && ops[1].project == p && KeepsPolling(ops[2..], p))
  }

  lemma {:induction false} PollingOn(a: seq<Op>, b: seq<Op>, p: Project)
    requires KeepsPolling(a, p) && KeepsPolling(b, p)
    ensures KeepsPolling(a + b, p)
  {
    if a == [] {
      assert a + b == b;
    } else {
      PollingOn(a[2..], b, p);
      assert (a + b)[2..] == a[2..] + b;
    }
  }

  lemma GrantPlays(policy: Policy, i: nat) returns (ops: seq<Op>)
    ensures Plays(policy, Free(i), ops, P(2), [P((i + 1) % 2)], Busy(i + 1))
    ensures KeepsPolling(ops, P(2))
  {
    var c := Alive(i);
    var rival, third := RivalPolls(i + 1, c), ThirdPolls(c);
    AllStay(i);
    ThirdWaitsBusy(policy, i + 1, c);
    PlaysOne(policy, Busy(i + 1), third, P(2), Busy(i + 1), [], [], Busy(i + 1));
    RivalIsGranted(policy, i);
    ThirdIsReady(policy, i);
    PlaysOne(policy, Free(i), rival, P(2), Busy(i + 1), [third], [], Busy(i + 1));
    ops := [rival] + [third];
    assert ops[2..] == [];
    assert [third] + [] == [third];
  }

  lemma ReleasePlays(policy: Policy, i: nat) returns (ops: seq<Op>)
    ensures Plays(policy, Contested(i), ops, P(2), [], Free(i))
    ensures KeepsPolling(ops, P(2))
  {
    var c := Alive(i);
    var leave, third := Op.Release(c, T(i + 1)), ThirdPolls(c);
    ThirdWaitsFree(policy, i);
    PlaysOne(policy, Free(i), third, P(2), Free(i), [], [], Free(i));
    HolderLeaves(policy, i);
    PlaysOne(policy, Contested(i), leave, P(2), Free(i), [third], [], Free(i));
    ops := [leave] + [third];
    assert ops[2..] == [];
  }

  lemma QueuePlays(policy: Policy, i: nat) returns (ops: seq<Op>)
    ensures Plays(policy, Busy(i), ops, P(2), [], Contested(i))
    ensures KeepsPolling(ops, P(2))
  {
    var c := Alive(i);
    var rival, third := RivalPolls(i + 1, c), ThirdPolls(c);
    ThirdWaitsQueued(policy, i);
    PlaysOne(policy, Contested(i), third, P(2), Contested(i), [], [], Contested(i));
    RivalQueues(policy, i);
    PlaysOne(policy, Busy(i), rival, P(2), Contested(i), [third], [], Contested(i));
    ops := [rival] + [third];
    assert ops[2..] == [];
  }

  // The next rival queues up behind the third project, the holder leaves, and the rival is
  // granted; the third project polls after every one of these calls.
  lemma RoundPlays(policy: Policy, i: nat) returns (ops: seq<Op>)
    ensures Plays(policy, Busy(i), ops, P(2), [P((i + 1) % 2)], Busy(i + 1))
    ensures KeepsPolling(ops, P(2))
  {
    var g := P((i + 1) % 2);
    var queue := QueuePlays(policy, i);
    var release := ReleasePlays(policy, i);
    var grant := GrantPlays(policy, i);
    PlaysOn(policy, Contested(i), release, grant, P(2), [], Free(i), [g], Busy(i + 1));
    PlaysOn(policy, Busy(i), queue, release + grant, P(2), [], Contested(i), [] + [g], Busy(i + 1));
    PollingOn(release, grant, P(2));
    PollingOn(queue, release + grant, P(2));
    ops := queue + (release + grant);
    assert [] + ([] + [g]) == [g];
  }

  lemma {:induction false} RoundsPlay(policy: Policy, i: nat, j: nat) returns (ops: seq<Op>, log: seq<Project>)
    requires i <= j
    ensures Plays(policy, Busy(i), ops, P(2), log, Busy(j)) && KeepsPolling(ops, P(2))
    ensures |log| == j - i && P(2) !in log
    decreases j - i
  {
    if i == j {
      ops, log := [], [];
    } else {
      var first := RoundPlays(policy, i);
      var rest, more := RoundsPlay(policy, i + 1, j);
      PlaysOn(policy, Busy(i), first, rest, P(2), [P((i + 1) % 2)], Busy(i + 1), more, Busy(j));
      PollingOn(first, rest, P(2));
      ops, log := first + rest, [P((i + 1) % 2)] + more;
    }
  }

  // The first rival takes the resource, and the third project queues up.
  function Opening(): seq<Op> {
    [RivalPolls(0, Alive(0)), ThirdPolls(Alive(0))]
  }

  lemma FirstRivalTakes(policy: Policy)
    ensures var op := RivalPolls(0, Alive(0));
            Honest(policy, EMPTY, op) && Step(policy, EMPTY, op) == State([Holding(0)], [], Some(P(0)))
  {
    var alone := State([], [Rival(0)], None);
    assert [Rival(0)][1..] == [] && Projects([Rival(0)]) == [P(0)] && Queued([Rival(0)]) == [Rival(0)];
    assert Head([Rival(0)], P(0)) == Some(Rival(0));
    assert Selected(policy, alone) == Some(Rival(0));
    assert Enqueued(Reconcile(EMPTY, Alive(0)), Rival(0)) == alone;
    assert WithoutRequest([Rival(0)], Q(1)) == [];
  }

  lemma ThirdArrives(policy: Policy)
    ensures var held := State([Holding(0)], [], Some(P(0))); var op := ThirdPolls(Alive(0));
            Honest(policy, held, op) && Step(policy, held, op) == Busy(0)
  {
    var held := State([Holding(0)], [], Some(P(0)));
    assert [Holding(0)][1..] == [] && Retained([Holding(0)], Alive(0)) == [Holding(0)];
    assert Enqueued(Reconcile(held, Alive(0)), SHUT_OUT) == Busy(0);
    HoldingOccupies(0);
    NobodyFits(policy, Busy(0));
  }

  lemma OpeningPlays(policy: Policy)
    ensures HonestRun(policy, EMPTY, Opening()) && Run(policy, EMPTY, Opening()) == Busy(0)
  {
    FirstRivalTakes(policy);
    ThirdArrives(policy);
    assert Opening()[1..] == [ThirdPolls(Alive(0))] && [ThirdPolls(Alive(0))][1..] == [];
  }

  // The order between projects starves: under every policy and for every n there is a run from
  // the empty document in which a waiting project polls after every call of the others, its
  // head could be granted at each of n grants, and it is granted at none. Two projects that
  // stop waiting when they are granted, and come back, make the round start over each time.
  lemma LostTurnStarves(policy: Policy, n: nat) returns (before: seq<Op>, ops: seq<Op>)
    ensures HonestRun(policy, EMPTY, before) && HonestRun(policy, Run(policy, EMPTY, before), ops)
    ensures var s := Run(policy, EMPTY, before);
            && KeepsPolling(ops, P(2)) && ReadyAtGrants(policy, s, ops, P(2))
            && |GrantLog(policy, s, ops)| == n && P(2) !in GrantLog(policy, s, ops)
  {
    OpeningPlays(policy);
    var log;
    before := Opening();
    ops, log := RoundsPlay(policy, 0, n);
  }
}
