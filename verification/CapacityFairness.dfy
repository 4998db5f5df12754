/** Who gets capacity next: order within a project, turns between projects, provider queues. */
module CapacityFairness {
  import opened Wrappers
  import opened CapacityModel
  import opened CapacitySafety

  // ------------------------------------------------- order within a project

  predicate Ordered(ws: seq<Waiter>) {
    forall i, j :: 0 <= i < j < |ws| ==> Sooner(ws[i], ws[j])
  }

  lemma {:induction false} InsertOrdered(w: Waiter, ws: seq<Waiter>)
    requires Ordered(ws)
    ensures Ordered(InsertWaiter(w, ws))
  {
    if ws != [] && !Sooner(w, ws[0]) {
      InsertOrdered(w, ws[1..]);
      var rest := InsertWaiter(w, ws[1..]);
      InsertKeeps(w, ws[1..]);
      forall j | 0 <= j < |rest|
        ensures Sooner(ws[0], rest[j])
      {
        assert rest[j] in multiset(rest);
        assert rest[j] == w || rest[j] in ws[1..];
      }
    }
  }

  lemma {:induction false} QueuedOrdered(ws: seq<Waiter>)
    ensures Ordered(Queued(ws))
  {
    if ws != [] {
      QueuedOrdered(ws[1..]);
      InsertOrdered(ws[0], Queued(ws[1..]));
    }
  }

  lemma {:induction false} FirstForIsLeast(ws: seq<Waiter>, p: Project, i: nat)
    requires Ordered(ws) && i < |ws| && ws[i].project == p
    ensures FirstFor(ws, p).Some? && Sooner(FirstFor(ws, p).value, ws[i])
  {
    if ws[0].project != p {
      FirstForIsLeast(ws[1..], p, i - 1);
    }
  }

  // A project's head is its oldest request, ties broken by request id.
  lemma HeadIsLeast(ws: seq<Waiter>, i: nat)
    requires i < |ws|
    ensures var head := Head(ws, ws[i].project);
            head.Some? && head.value in ws && head.value.project == ws[i].project && Sooner(head.value, ws[i])
  {
    QueuedOrdered(ws);
    QueuedKeeps(ws);
    assert ws[i] in multiset(Queued(ws));
    var k :| 0 <= k < |Queued(ws)| && Queued(ws)[k] == ws[i];
    FirstForIsLeast(Queued(ws), ws[i].project, k);
    HeadIsQueued(ws, ws[i].project);
  }

  lemma {:induction false} SelectedIsHead(policy: Policy, s: State, order: seq<Project>)
    requires FirstAllocatable(policy, s, order).Some?
    ensures var w := FirstAllocatable(policy, s, order).value;
            w.project in order && Head(s.waiters, w.project) == Some(w) && Allocatable(policy, s, w)
  {
    var head := Head(s.waiters, order[0]);
    if head.Some? && Allocatable(policy, s, head.value) {
      HeadIsQueued(s.waiters, order[0]);
    } else {
      SelectedIsHead(policy, s, order[1..]);
    }
  }

  // Grants within a project follow (requested_at, request_id).
  lemma GrantsAreFifo(policy: Policy, s: State, i: nat)
    requires Selected(policy, s).Some? && i < |s.waiters|
    requires s.waiters[i].project == Selected(policy, s).value.project
    ensures var (w, x) := (Selected(policy, s).value, s.waiters[i]);
            w.at < x.at || (w.at == x.at && w.request.n <= x.request.n)
  {
    SelectedIsHead(policy, s, Rotation(Projects(s.waiters), s.last));
    HeadIsLeast(s.waiters, i);
  }

  // ------------------------------------------------- turns between projects

  predicate Increasing(ps: seq<Project>) {
    forall i, j :: 0 <= i < j < |ps| ==> ps[i].n < ps[j].n
  }

  lemma {:induction false} InsertProjectOk(p: Project, ps: seq<Project>)
    requires Increasing(ps)
    ensures Increasing(InsertProject(p, ps))
    ensures forall x :: x in InsertProject(p, ps) <==> x == p || x in ps
  {
    if ps == [] || p.n <= ps[0].n {
      assert ps != [] && p.n == ps[0].n ==> p == ps[0];
    } else {
      InsertProjectOk(p, ps[1..]);
      var rest := InsertProject(p, ps[1..]);
      forall j | 0 <= j < |rest|
        ensures ps[0].n < rest[j].n
      {
        assert rest[j] in rest;
      }
      assert ps == [ps[0]] + ps[1..];
    }
  }

  // The projects with a waiter, each once, by name.
  lemma {:induction false} ProjectsOk(ws: seq<Waiter>)
    ensures Increasing(Projects(ws))
    ensures forall i :: 0 <= i < |ws| ==> ws[i].project in Projects(ws)
  {
    if ws != [] {
      ProjectsOk(ws[1..]);
      InsertProjectOk(ws[0].project, Projects(ws[1..]));
      forall i | 0 <= i < |ws|
        ensures ws[i].project in Projects(ws)
      {
        assert i > 0 ==> ws[i] == ws[1..][i - 1];
      }
    }
  }

  lemma {:induction false} IndexIs(ps: seq<Project>, i: nat)
    requires Distinct(ps) && i < |ps|
    ensures ps[i] in ps && IndexOf(ps, ps[i]) == i
  {
  }

  // How many projects come before p in the next round.
  function Position(ps: seq<Project>, last: Option<Project>, p: Project): nat
    requires p in ps
  {
    var i, n := IndexOf(ps, p), |ps|;
    if last.Some? && last.value in ps
    then
      var l := IndexOf(ps, last.value);
      if i > l then i - l - 1 else i + n - l - 1
    else i
  }

  lemma PositionInRotation(ps: seq<Project>, last: Option<Project>, p: Project)
    requires Distinct(ps) && p in ps
    ensures p in Rotation(ps, last) && Distinct(Rotation(ps, last))
    ensures IndexOf(Rotation(ps, last), p) == Position(ps, last, p) < |ps|
  {
    var rotation := Rotation(ps, last);
    var i := IndexOf(ps, p);
    if last.Some? && last.value in ps {
      var l := IndexOf(ps, last.value);
      assert forall k :: 0 <= k < |ps| ==>
                           rotation[k] == if k < |ps| - l - 1 then ps[k + l + 1] else ps[k - (|ps| - l - 1)];
    }
    assert rotation[Position(ps, last, p)] == p;
    IndexIs(rotation, Position(ps, last, p));
  }

  lemma {:induction false} FirstAllocatableIsFirst(policy: Policy, s: State, order: seq<Project>, k: nat)
    requires k < |order| && Distinct(order)
    requires Head(s.waiters, order[k]).Some? && Allocatable(policy, s, Head(s.waiters, order[k]).value)
    ensures var w := FirstAllocatable(policy, s, order);
            w.Some? && w.value.project in order && IndexOf(order, w.value.project) <= k
  {
    var head := Head(s.waiters, order[0]);
    if head.Some? && Allocatable(policy, s, head.value) {
      HeadIsQueued(s.waiters, order[0]);
    } else {
      FirstAllocatableIsFirst(policy, s, order[1..], k - 1);
    }
  }

  // Passing p over brings it strictly nearer.
  lemma PassedOverIsNearer(policy: Policy, s: State, p: Project)
    requires p in Projects(s.waiters)
    requires Head(s.waiters, p).Some? && Allocatable(policy, s, Head(s.waiters, p).value)
    ensures Selected(policy, s).Some?
    ensures var ps := Projects(s.waiters);
            var g := Selected(policy, s).value.project;
            g == p || (g in ps && Position(ps, Some(g), p) < Position(ps, s.last, p))
  {
    var ps := Projects(s.waiters);
    ProjectsOk(s.waiters);
    PositionInRotation(ps, s.last, p);
    var rotation := Rotation(ps, s.last);
    FirstAllocatableIsFirst(policy, s, rotation, IndexOf(rotation, p));
    var g := Selected(policy, s).value.project;
    InRotation(ps, s.last, g);
    PositionInRotation(ps, s.last, g);
    if g != p {
      TurnComesNearer(ps, s.last, g, p);
    }
  }

  lemma InRotation(ps: seq<Project>, last: Option<Project>, g: Project)
    requires g in Rotation(ps, last)
    ensures g in ps
  {
  }

  lemma TurnComesNearer(ps: seq<Project>, last: Option<Project>, g: Project, p: Project)
    requires g in ps && p in ps && g != p && Position(ps, last, g) <= Position(ps, last, p)
    ensures Position(ps, Some(g), p) < Position(ps, last, p)
  {
    assert IndexOf(ps, g) != IndexOf(ps, p);
  }

  // The state in which a poll chooses.
  function AtChoice(policy: Policy, s: State, op: Op): State
    requires op.Poll?
  {
    Enqueued(Reconcile(s, op.census), WaiterOf(policy, op))
  }

  predicate IsGrant(policy: Policy, s: State, op: Op) {
    op.Poll? && Grants(policy, s, op.census, WaiterOf(policy, op))
  }

  // The projects granted to, in order.
  function GrantLog(policy: Policy, s: State, ops: seq<Op>): seq<Project>
    decreases |ops|
  {
    if ops == [] then []
    else
      (if IsGrant(policy, s, ops[0]) then [ops[0].project] else [])
      + GrantLog(policy, Step(policy, s, ops[0]), ops[1..])
  }

  lemma GrantIsSelected(policy: Policy, s: State, op: Op)
    requires IsGrant(policy, s, op) && Honest(policy, s, op)
    ensures Selected(policy, AtChoice(policy, s, op)) == Some(WaiterOf(policy, op))
    ensures Step(policy, s, op).last == Some(op.project)
  {
    var c := AtChoice(policy, s, op);
    FirstAllocatableFits(policy, c, Rotation(Projects(c.waiters), c.last));
    var from := FreshThins(s.waiters, op.census);
  }

  lemma OnlyGrantsMoveTheTurn(policy: Policy, s: State, op: Op)
    requires !IsGrant(policy, s, op)
    ensures Step(policy, s, op).last == s.last
  {
  }

  lemma NearerPrefix(g: Project, rest: seq<Project>, near: nat, far: nat, p: Project)
    requires near < far <= |rest| && p in rest[..near + 1]
    ensures p in ([g] + rest)[..far + 1]
  {
    var i :| 0 <= i < near + 1 && rest[i] == p;
    assert ([g] + rest)[..far + 1][i + 1] == p;
  }

  // ------------------------------------------------- waiting for a provider

  predicate Contended(ls: seq<Lease>, p: Provider) {
    exists i :: 0 <= i < |ls| && WaitsFor(ls[i], p)
  }

  lemma {:induction false} LeastExists(ls: seq<Lease>, p: Provider, n: nat, i: nat) returns (m: nat)
    requires i < n <= |ls| && WaitsFor(ls[i], p)
    ensures m < n && WaitsFor(ls[m], p)
    ensures forall j :: 0 <= j < n && WaitsFor(ls[j], p) ==> Precedes(ls[m], ls[j])
    decreases n
  {
    var k := n - 1;
    if exists j :: 0 <= j < k && WaitsFor(ls[j], p) {
      var j :| 0 <= j < k && WaitsFor(ls[j], p);
      var rest := LeastExists(ls, p, k, j);
      m := if WaitsFor(ls[k], p) && Precedes(ls[k], ls[rest]) then k else rest;
    } else {
      m := i;
    }
  }

  lemma LeastIsUnique(ls: seq<Lease>, p: Provider, i: nat, j: nat)
    requires DistinctTokens(ls) && i < |ls| && j < |ls| && WaitsFor(ls[i], p) && WaitsFor(ls[j], p)
    requires Least(ls, i, p) && Least(ls, j, p)
    ensures i == j
  {
    assert Precedes(ls[i], ls[j]) && Precedes(ls[j], ls[i]);
    assert ls[i].token.n == ls[j].token.n;
    assert ls[i].token == ls[j].token;
  }

  // A waiting lease is granted by its poll if and only if it is first in its provider's
  // queue and the provider has room.
  lemma GrantedIffFirst(policy: Policy, ls: seq<Lease>, i: nat, p: Provider, priority: int, now: nat)
    requires SafeLeases(policy, ls) && i < |ls| && WaitsFor(ls[i], p)
    ensures TransitionAt(policy, ls, i, Some(p), priority, now)[i].provider == Some(p)
            <==> (Least(ls, i, p) && Holders(ls, p) < policy.limits[p])
  {
    assert LeaseOk(policy, ls[i]);
    assert ls[i := Queueing(ls[i], p, priority, now)] == ls;
  }

  lemma {:induction false} SomeoneHolds(ls: seq<Lease>, p: Provider) returns (h: nat)
    requires Holders(ls, p) > 0
    ensures h < |ls| && ls[h].provider == Some(p)
  {
    if ls[0].provider == Some(p) {
      h := 0;
    } else {
      h := SomeoneHolds(ls[1..], p);
      h := h + 1;
    }
  }

  // Lease i is first in p's queue.
  predicate First(ls: seq<Lease>, i: nat, p: Provider) {
    i < |ls| && WaitsFor(ls[i], p) && Least(ls, i, p)
  }

  // Lease i takes p at its next poll.
  predicate TakesNext(policy: Policy, ls: seq<Lease>, i: nat, p: Provider, priority: int, now: nat)
    requires i < |ls|
  {
    TransitionAt(policy, ls, i, Some(p), priority, now)[i].provider == Some(p)
  }

  lemma FirstIsUnique(ls: seq<Lease>, p: Provider, m: nat)
    requires DistinctTokens(ls) && First(ls, m, p)
    ensures forall j: nat :: First(ls, j, p) ==> j == m
  {
    forall j: nat | First(ls, j, p)
      ensures j == m
    {
      LeastIsUnique(ls, p, j, m);
    }
  }

  // No deadlock between leases that switch providers: while some lease waits for p, one
  // lease is first in its queue, and either p has room and exactly that one takes it at its
  // next poll, or p is full and held only by leases that wait for nothing.
  lemma SwitchingNeverDeadlocks(policy: Policy, ls: seq<Lease>, p: Provider, priority: int, now: nat)
    requires SafeLeases(policy, ls) && Contended(ls, p)
    ensures p in policy.limits
    ensures exists m: nat :: First(ls, m, p) && forall j: nat :: First(ls, j, p) ==> j == m
    ensures Holders(ls, p) < policy.limits[p] ==>
              forall i: nat :: i < |ls| && WaitsFor(ls[i], p) ==>
                                 (TakesNext(policy, ls, i, p, priority, now) <==> First(ls, i, p))
    ensures Holders(ls, p) >= policy.limits[p] ==> exists h :: 0 <= h < |ls| && ls[h].provider == Some(p)
    ensures forall j :: 0 <= j < |ls| && ls[j].provider == Some(p) ==> ls[j].wait.None?
  {
    var w :| 0 <= w < |ls| && WaitsFor(ls[w], p);
    var m := LeastExists(ls, p, |ls|, w);
    assert LeaseOk(policy, ls[m]);
    assert First(ls, m, p);
    FirstIsUnique(ls, p, m);
    forall i: nat | i < |ls| && WaitsFor(ls[i], p) && Holders(ls, p) < policy.limits[p]
      ensures TakesNext(policy, ls, i, p, priority, now) <==> First(ls, i, p)
    {
      GrantedIffFirst(policy, ls, i, p, priority, now);
    }
    if Holders(ls, p) >= policy.limits[p] {
      var h := SomeoneHolds(ls, p);
    }
    forall j | 0 <= j < |ls| && ls[j].provider == Some(p)
      ensures ls[j].wait.None?
    {
      assert LeaseOk(policy, ls[j]);
    }
  }
}
