/** What every interleaving of broker calls keeps. */
module CapacitySafety {
  import opened Wrappers
  import opened CapacityModel

  predicate WithinLimits(policy: Policy, ls: seq<Lease>) {
    |ls| <= policy.maxWorkers && forall p :: p in policy.limits ==> Holders(ls, p) <= policy.limits[p]
  }

  predicate DistinctTokens(ls: seq<Lease>) {
    forall i, j :: 0 <= i < j < |ls| ==> ls[i].token != ls[j].token
  }

  predicate DisjointResources(ls: seq<Lease>) {
    forall i, j :: 0 <= i < j < |ls| ==> ls[i].resources !! ls[j].resources
  }

  // A lease that waits for a provider holds none; only limited providers are tracked.
  predicate LeaseOk(policy: Policy, l: Lease) {
    && (l.wait.Some? ==> l.provider.None? && l.wait.value.provider in policy.limits)
    && (l.provider.Some? ==> l.provider.value in policy.limits)
  }

  predicate LeasesOk(policy: Policy, ls: seq<Lease>) {
    forall i :: 0 <= i < |ls| ==> LeaseOk(policy, ls[i])
  }

  predicate WaitersOk(policy: Policy, ws: seq<Waiter>) {
    && (forall i, j :: 0 <= i < j < |ws| ==> ws[i].request != ws[j].request)
    && (forall i :: 0 <= i < |ws| && ws[i].provider.Some? ==> ws[i].provider.value in policy.limits)
  }

  predicate SafeLeases(policy: Policy, ls: seq<Lease>) {
    WithinLimits(policy, ls) && DistinctTokens(ls) && DisjointResources(ls) && LeasesOk(policy, ls)
  }

  predicate Safe(policy: Policy, s: State) {
    SafeLeases(policy, s.leases) && WaitersOk(policy, s.waiters)
  }

  // ------------------------------------------------------ leases that go away

  // `out` keeps some of ls, in order, changing at most their status.
  predicate Thins(ls: seq<Lease>, out: seq<Lease>, from: seq<nat>) {
    && |from| == |out|
    && (forall k :: 0 <= k < |out| ==> from[k] < |ls| && out[k] == ls[from[k]].(status := out[k].status))
    && (forall k, m :: 0 <= k < m < |from| ==> from[k] < from[m])
  }

  function Shifted(from: seq<nat>): (r: seq<nat>) {
    seq(|from|, i requires 0 <= i < |from| => from[i] + 1)
  }

  lemma ThinsHead(ls: seq<Lease>, out: seq<Lease>, from: seq<nat>, keep: seq<Lease>) returns (r: seq<nat>)
    requires ls != [] && Thins(ls[1..], out, from)
    requires keep == [] || (|keep| == 1 && keep[0] == ls[0].(status := keep[0].status))
    ensures Thins(ls, keep + out, r)
  {
    r := (if keep == [] then [] else [0]) + Shifted(from);
  }

  lemma {:induction false} RetainedThins(ls: seq<Lease>, c: Census) returns (from: seq<nat>)
    ensures Thins(ls, Retained(ls, c), from)
  {
    if ls == [] {
      from := [];
    } else {
      var rest := RetainedThins(ls[1..], c);
      var h := HealthOf(c, ls[0].token);
      from := ThinsHead(ls, Retained(ls[1..], c), rest, if h == Gone then [] else [ls[0].(status := StatusOf(h))]);
    }
  }

  lemma {:induction false} WithoutTokenThins(ls: seq<Lease>, t: Token) returns (from: seq<nat>)
    ensures Thins(ls, WithoutToken(ls, t), from)
  {
    if ls == [] {
      from := [];
    } else {
      var rest := WithoutTokenThins(ls[1..], t);
      from := ThinsHead(ls, WithoutToken(ls[1..], t), rest, if ls[0].token == t then [] else [ls[0]]);
    }
  }

  lemma ThinsKeeps(policy: Policy, ls: seq<Lease>, out: seq<Lease>, from: seq<nat>)
    requires Thins(ls, out, from) && DistinctTokens(ls) && DisjointResources(ls) && LeasesOk(policy, ls)
    ensures DistinctTokens(out) && DisjointResources(out) && LeasesOk(policy, out)
  {
  }

  lemma {:induction false} RetainedSize(ls: seq<Lease>, c: Census, p: Provider)
    ensures |Retained(ls, c)| <= |ls| && Holders(Retained(ls, c), p) <= Holders(ls, p)
  {
    if ls != [] {
      RetainedSize(ls[1..], c, p);
      var h := HealthOf(c, ls[0].token);
      if h != Gone {
        assert Retained(ls, c)[1..] == Retained(ls[1..], c);
      } else {
        assert Retained(ls, c) == Retained(ls[1..], c);
      }
    }
  }

  lemma {:induction false} WithoutTokenSize(ls: seq<Lease>, t: Token, p: Provider)
    ensures |WithoutToken(ls, t)| <= |ls| && Holders(WithoutToken(ls, t), p) <= Holders(ls, p)
  {
    if ls != [] {
      WithoutTokenSize(ls[1..], t, p);
      if ls[0].token != t {
        assert WithoutToken(ls, t)[1..] == WithoutToken(ls[1..], t);
      } else {
        assert WithoutToken(ls, t) == WithoutToken(ls[1..], t);
      }
    }
  }

  lemma RetainedSafe(policy: Policy, ls: seq<Lease>, c: Census)
    requires SafeLeases(policy, ls)
    ensures SafeLeases(policy, Retained(ls, c))
  {
    var from := RetainedThins(ls, c);
    ThinsKeeps(policy, ls, Retained(ls, c), from);
    RetainedSize(ls, c, V(0));
    forall p | p in policy.limits
      ensures Holders(Retained(ls, c), p) <= policy.limits[p]
    {
      RetainedSize(ls, c, p);
    }
  }

  lemma WithoutTokenSafe(policy: Policy, ls: seq<Lease>, t: Token)
    requires SafeLeases(policy, ls)
    ensures SafeLeases(policy, WithoutToken(ls, t))
  {
    var from := WithoutTokenThins(ls, t);
    ThinsKeeps(policy, ls, WithoutToken(ls, t), from);
    WithoutTokenSize(ls, t, V(0));
    forall p | p in policy.limits
      ensures Holders(WithoutToken(ls, t), p) <= policy.limits[p]
    {
      WithoutTokenSize(ls, t, p);
    }
  }

  lemma {:induction false} TokenGone(ls: seq<Lease>, t: Token)
    ensures forall i :: 0 <= i < |WithoutToken(ls, t)| ==> WithoutToken(ls, t)[i].token != t
  {
    if ls != [] {
      TokenGone(ls[1..], t);
      if ls[0].token == t {
        assert WithoutToken(ls, t) == WithoutToken(ls[1..], t);
      } else {
        assert WithoutToken(ls, t) == [ls[0]] + WithoutToken(ls[1..], t);
      }
    }
  }

  // ------------------------------------------------------ leases that change

  lemma {:induction false} HoldersUpdate(ls: seq<Lease>, i: nat, l: Lease, p: Provider)
    requires i < |ls|
    ensures Holders(ls[i := l], p)
            == Holders(ls, p) - (if ls[i].provider == Some(p) then 1 else 0) + (if l.provider == Some(p) then 1 else 0)
  {
    if i == 0 {
      assert ls[i := l][1..] == ls[1..];
    } else {
      HoldersUpdate(ls[1..], i - 1, l, p);
      assert ls[i := l][1..] == ls[1..][i - 1 := l];
    }
  }

  lemma {:induction false} HoldersAppend(ls: seq<Lease>, l: Lease, p: Provider)
    ensures Holders(ls + [l], p) == Holders(ls, p) + (if l.provider == Some(p) then 1 else 0)
  {
    if ls == [] {
      assert (ls + [l])[1..] == [];
    } else {
      HoldersAppend(ls[1..], l, p);
      assert (ls + [l])[1..] == ls[1..] + [l];
    }
  }

  lemma {:induction false} OccupiedHolds(ls: seq<Lease>, i: nat)
    requires i < |ls|
    ensures ls[i].resources <= Occupied(ls)
  {
    if i > 0 {
      OccupiedHolds(ls[1..], i - 1);
    }
  }

  // A lease keeps its token and resources, and takes a provider only where there is room.
  lemma UpdateSafe(policy: Policy, ls: seq<Lease>, i: nat, l: Lease)
    requires SafeLeases(policy, ls) && i < |ls| && LeaseOk(policy, l)
    requires l.token == ls[i].token && l.resources == ls[i].resources
    requires l.provider.Some? && l.provider != ls[i].provider ==> ProviderAvailable(policy, ls, l.provider)
    ensures SafeLeases(policy, ls[i := l])
  {
    forall p | p in policy.limits
      ensures Holders(ls[i := l], p) <= policy.limits[p]
    {
      HoldersUpdate(ls, i, l, p);
    }
  }

  lemma TransitionSafe(policy: Policy, ls: seq<Lease>, i: nat, provider: Option<Provider>, priority: int, now: nat)
    requires SafeLeases(policy, ls) && i < |ls|
    requires provider.Some? ==> provider.value in policy.limits
    ensures SafeLeases(policy, TransitionAt(policy, ls, i, provider, priority, now))
  {
    var l := ls[i];
    assert LeaseOk(policy, l);
    if l.provider == provider {
      UpdateSafe(policy, ls, i, l.(wait := None));
    } else if provider.None? {
      UpdateSafe(policy, ls, i, l.(provider := None, wait := None));
    } else {
      var queueing := Queueing(l, provider.value, priority, now);
      HoldersUpdate(ls, i, queueing, provider.value);
      UpdateSafe(policy, ls, i, queueing);
      if ProviderAvailable(policy, ls[i := queueing], provider) {
        UpdateSafe(policy, ls, i, l.(provider := provider, wait := None));
      }
    }
  }

  lemma GrantSafe(policy: Policy, s: State, w: Waiter, token: Token)
    requires SafeLeases(policy, s.leases) && Allocatable(policy, s, w)
    requires w.provider.Some? ==> w.provider.value in policy.limits
    requires forall i :: 0 <= i < |s.leases| ==> s.leases[i].token != token
    ensures SafeLeases(policy, Grant(s, w, token).leases)
  {
    var l := Lease(token, w.project, w.provider, w.resources, Live, None);
    forall p | p in policy.limits
      ensures Holders(s.leases + [l], p) <= policy.limits[p]
    {
      HoldersAppend(s.leases, l, p);
    }
    forall i | 0 <= i < |s.leases|
      ensures s.leases[i].resources !! w.resources
    {
      OccupiedHolds(s.leases, i);
    }
  }

  // ------------------------------------------------------------- the waiters

  predicate WaitersThin(ws: seq<Waiter>, out: seq<Waiter>, from: seq<nat>) {
    && |from| == |out|
    && (forall k :: 0 <= k < |out| ==> from[k] < |ws| && out[k] == ws[from[k]])
    && (forall k, m :: 0 <= k < m < |from| ==> from[k] < from[m])
  }

  lemma WaitersThinHead(ws: seq<Waiter>, out: seq<Waiter>, from: seq<nat>, keep: bool) returns (r: seq<nat>)
    requires ws != [] && WaitersThin(ws[1..], out, from)
    ensures WaitersThin(ws, (if keep then [ws[0]] else []) + out, r)
  {
    r := (if keep then [0] else []) + Shifted(from);
  }

  lemma {:induction false} FreshThins(ws: seq<Waiter>, c: Census) returns (from: seq<nat>)
    ensures WaitersThin(ws, Fresh(ws, c), from)
  {
    if ws == [] {
      from := [];
    } else {
      var rest := FreshThins(ws[1..], c);
      from := WaitersThinHead(ws, Fresh(ws[1..], c), rest, ws[0].request in c.beating);
    }
  }

  lemma {:induction false} WithoutRequestThins(ws: seq<Waiter>, r: Request) returns (from: seq<nat>)
    ensures WaitersThin(ws, WithoutRequest(ws, r), from)
  {
    if ws == [] {
      from := [];
    } else {
      var rest := WithoutRequestThins(ws[1..], r);
      from := WaitersThinHead(ws, WithoutRequest(ws[1..], r), rest, ws[0].request != r);
    }
  }

  lemma FreshWaitersOk(policy: Policy, ws: seq<Waiter>, c: Census)
    requires WaitersOk(policy, ws)
    ensures WaitersOk(policy, Fresh(ws, c))
  {
    var from := FreshThins(ws, c);
  }

  lemma WithoutRequestOk(policy: Policy, ws: seq<Waiter>, r: Request)
    requires WaitersOk(policy, ws)
    ensures WaitersOk(policy, WithoutRequest(ws, r))
    ensures !HasRequest(WithoutRequest(ws, r), r)
  {
    var from := WithoutRequestThins(ws, r);
    RequestGone(ws, r);
  }

  lemma {:induction false} RequestGone(ws: seq<Waiter>, r: Request)
    ensures !HasRequest(WithoutRequest(ws, r), r)
  {
    if ws != [] {
      RequestGone(ws[1..], r);
      var rest := WithoutRequest(ws[1..], r);
      forall i | 0 <= i < |WithoutRequest(ws, r)|
        ensures WithoutRequest(ws, r)[i].request != r
      {
        if ws[0].request != r && i > 0 {
          assert WithoutRequest(ws, r)[i] == rest[i - 1];
        } else if ws[0].request == r {
          assert WithoutRequest(ws, r)[i] == rest[i];
        }
      }
    }
  }

  // ------------------------------------------------------------- the selection

  lemma {:induction false} InsertKeeps(w: Waiter, ws: seq<Waiter>)
    ensures multiset(InsertWaiter(w, ws)) == multiset(ws) + multiset{w}
  {
    if ws == [] || Sooner(w, ws[0]) {
    } else {
      InsertKeeps(w, ws[1..]);
      assert ws == [ws[0]] + ws[1..];
    }
  }

  lemma {:induction false} QueuedKeeps(ws: seq<Waiter>)
    ensures multiset(Queued(ws)) == multiset(ws)
  {
    if ws != [] {
      QueuedKeeps(ws[1..]);
      InsertKeeps(ws[0], Queued(ws[1..]));
      assert ws == [ws[0]] + ws[1..];
    }
  }

  lemma {:induction false} FirstForIn(ws: seq<Waiter>, p: Project)
    requires FirstFor(ws, p).Some?
    ensures FirstFor(ws, p).value in ws && FirstFor(ws, p).value.project == p
  {
    if ws[0].project != p {
      FirstForIn(ws[1..], p);
    }
  }

  lemma HeadIsQueued(ws: seq<Waiter>, p: Project)
    requires Head(ws, p).Some?
    ensures Head(ws, p).value in ws && Head(ws, p).value.project == p
  {
    FirstForIn(Queued(ws), p);
    QueuedKeeps(ws);
    assert Head(ws, p).value in multiset(Queued(ws));
  }

  lemma {:induction false} FirstAllocatableFits(policy: Policy, s: State, order: seq<Project>)
    requires FirstAllocatable(policy, s, order).Some?
    ensures FirstAllocatable(policy, s, order).value in s.waiters
    ensures Allocatable(policy, s, FirstAllocatable(policy, s, order).value)
  {
    var head := Head(s.waiters, order[0]);
    if head.Some? && Allocatable(policy, s, head.value) {
      HeadIsQueued(s.waiters, order[0]);
    } else {
      FirstAllocatableFits(policy, s, order[1..]);
    }
  }

  // ------------------------------------------------------------- every call

  // Tokens and request ids are random: a new token is unused, and a queued request with
  // this id is this caller's own.
  predicate Honest(policy: Policy, s: State, op: Op) {
    op.Poll? ==>
      && (forall i :: 0 <= i < |s.leases| ==> s.leases[i].token != op.token)
      && (forall i :: 0 <= i < |s.waiters| && s.waiters[i].request == op.request ==>
           s.waiters[i] == WaiterOf(policy, op))
  }

  predicate HonestRun(policy: Policy, s: State, ops: seq<Op>)
    decreases |ops|
  {
    ops != [] ==> Honest(policy, s, ops[0]) && HonestRun(policy, Step(policy, s, ops[0]), ops[1..])
  }

  lemma ReconcileSafe(policy: Policy, s: State, c: Census)
    requires Safe(policy, s)
    ensures Safe(policy, Reconcile(s, c))
  {
    RetainedSafe(policy, s.leases, c);
    FreshWaitersOk(policy, s.waiters, c);
  }

  lemma PollSafe(policy: Policy, s: State, op: Op)
    requires Safe(policy, s) && op.Poll? && Honest(policy, s, op)
    ensures Safe(policy, Step(policy, s, op))
  {
    var w := WaiterOf(policy, op);
    var r := Reconcile(s, op.census);
    var queued := Enqueued(r, w);
    ReconcileSafe(policy, s, op.census);
    var from := FreshThins(s.waiters, op.census);
    assert WaitersOk(policy, queued.waiters);
    if Grants(policy, s, op.census, w) {
      FirstAllocatableFits(policy, queued, Rotation(Projects(queued.waiters), queued.last));
      var kept := RetainedThins(s.leases, op.census);
      GrantSafe(policy, queued, w, op.token);
      WithoutRequestOk(policy, queued.waiters, w.request);
    }
  }

  lemma StepSafe(policy: Policy, s: State, op: Op)
    requires Safe(policy, s) && Honest(policy, s, op)
    ensures Safe(policy, Step(policy, s, op))
  {
    var r := Reconcile(s, op.census);
    ReconcileSafe(policy, s, op.census);
    match op
    case Poll(_, _, _, _, _, _, _) => PollSafe(policy, s, op);
    case CancelWaiter(_, request) => WithoutRequestOk(policy, r.waiters, request);
    case Heartbeat(_, token) =>
      if Find(r.leases, token).Some? {
        var i := Find(r.leases, token).value;
        UpdateSafe(policy, r.leases, i, Beat(r.leases[i]));
      }
    case Transition(_, token, provider, priority, now) =>
      if Find(r.leases, token).Some? {
        TransitionSafe(policy, r.leases, Find(r.leases, token).value, Normalized(policy, provider), priority, now);
      }
    case Release(_, token) => WithoutTokenSafe(policy, r.leases, token);
    case Snapshot(_) =>
  }

  // Capacity safety: whatever the calls and whoever dies, never more leases than workers,
  // never more holders than a provider's limit, no resource and no token held twice, and no
  // provider held while waiting for another.
  lemma {:induction false} RunSafe(policy: Policy, s: State, ops: seq<Op>)
    requires Safe(policy, s) && HonestRun(policy, s, ops)
    ensures Safe(policy, Run(policy, s, ops))
    decreases |ops|
  {
    if ops != [] {
      StepSafe(policy, s, ops[0]);
      RunSafe(policy, Step(policy, s, ops[0]), ops[1..]);
    }
  }

  lemma EmptyIsSafe(policy: Policy)
    ensures Safe(policy, EMPTY)
  {
  }

  // ------------------------------------------------------------- the snapshot

  function Count(ls: seq<Lease>, status: LeaseStatus): nat {
    if ls == [] then 0 else (if ls[0].status == status then 1 else 0) + Count(ls[1..], status)
  }

  lemma {:induction false} StatusesAddUp(ls: seq<Lease>)
    ensures Count(ls, Live) + Count(ls, Orphan) + Count(ls, NeedsReconcile) == |ls|
  {
    if ls != [] {
      StatusesAddUp(ls[1..]);
    }
  }

  // After reconciliation a lease is `live` exactly when its process and its supervisor live
  // and its heartbeat is recent; leases of dead processes are gone.
  lemma {:induction false} ReconciledStatus(ls: seq<Lease>, c: Census, i: nat)
    requires i < |Retained(ls, c)|
    ensures var l := Retained(ls, c)[i];
            && HealthOf(c, l.token) != Gone
            && (l.status == NeedsReconcile <==> HealthOf(c, l.token) == Stale)
            && (l.status == Orphan <==> HealthOf(c, l.token) == SupervisorGone)
            && (l.status == Live <==> HealthOf(c, l.token) == Healthy)
  {
    var rest := Retained(ls[1..], c);
    if HealthOf(c, ls[0].token) == Gone {
      assert Retained(ls, c) == rest;
      ReconciledStatus(ls[1..], c, i);
    } else if i > 0 {
      assert Retained(ls, c)[i] == rest[i - 1];
      ReconciledStatus(ls[1..], c, i - 1);
    }
  }

  // A living lease is never reclaimed.
  lemma {:induction false} LivingLeaseStays(ls: seq<Lease>, c: Census, i: nat) returns (j: nat)
    requires i < |ls| && HealthOf(c, ls[i].token) != Gone
    ensures j < |Retained(ls, c)|
    ensures Retained(ls, c)[j] == ls[i].(status := StatusOf(HealthOf(c, ls[i].token)))
  {
    if i == 0 {
      j := 0;
    } else {
      j := LivingLeaseStays(ls[1..], c, i - 1);
      if HealthOf(c, ls[0].token) != Gone {
        assert Retained(ls, c)[j + 1] == Retained(ls[1..], c)[j];
        j := j + 1;
      } else {
        assert Retained(ls, c) == Retained(ls[1..], c);
      }
    }
  }
}
