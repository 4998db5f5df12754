/**
 * What a lease holds: what was asked for when it was granted, or the provider it was last
 * switched to; the limits told over what was asked for; and what each call leaves alone.
 */
module CapacityGrants {
  import opened Wrappers
  import opened CapacityModel
  import opened CapacitySafety
  import opened CapacityFairness

  // A provider counts only if the policy limits it.
  predicate Counts(policy: Policy, asked: Option<Provider>, held: Option<Provider>) {
    held == if asked.Some? && asked.value in policy.limits then asked else None
  }

  // The lease that a poll asks for.
  predicate LeasedAs(policy: Policy, op: Op, l: Lease)
    requires op.Poll?
  {
    && l.token == op.token && l.project == op.project && l.resources == op.resources
    && Counts(policy, op.provider, l.provider) && l.status == Live && l.wait.None?
  }

  // The leases that reconciliation keeps, and one more that is what the poll asked for; the
  // caller waits no longer.
  ghost predicate AddsLease(policy: Policy, s: State, op: Op, s': State)
    requires op.Poll?
  {
    && |s'.leases| == |Retained(s.leases, op.census)| + 1
    && s'.leases[..|s'.leases| - 1] == Retained(s.leases, op.census)
    && LeasedAs(policy, op, s'.leases[|s'.leases| - 1])
    && s'.last == Some(op.project)
    && forall w :: w in s'.waiters <==> w in Fresh(s.waiters, op.census) && w.request != op.request
  }

  // No lease more; the caller waits, in the place it had if it was waiting already.
  predicate OnlyQueues(policy: Policy, s: State, op: Op, s': State)
    requires op.Poll?
  {
    && s'.leases == Retained(s.leases, op.census) && s'.last == s.last
    && (if HasRequest(Fresh(s.waiters, op.census), op.request)
        then s'.waiters == Fresh(s.waiters, op.census)
        else |s'.waiters| == |Fresh(s.waiters, op.census)| + 1
             && s'.waiters[..|s'.waiters| - 1] == Fresh(s.waiters, op.census)
             && AsksFor(policy, op, s'.waiters[|s'.waiters| - 1]))
  }

  predicate AsksFor(policy: Policy, op: Op, w: Waiter)
    requires op.Poll?
  {
    && w.request == op.request && w.project == op.project && w.resources == op.resources && w.at == op.at
    && Counts(policy, op.provider, w.provider)
  }

  lemma {:induction false} WithoutRequestIff(ws: seq<Waiter>, r: Request, w: Waiter)
    ensures w in WithoutRequest(ws, r) <==> w in ws && w.request != r
  {
    if ws != [] {
      WithoutRequestIff(ws[1..], r, w);
      assert ws == [ws[0]] + ws[1..];
    }
  }

  lemma {:induction false} FreshIff(ws: seq<Waiter>, c: Census, w: Waiter)
    ensures w in Fresh(ws, c) <==> w in ws && w.request in c.beating
  {
    if ws != [] {
      FreshIff(ws[1..], c, w);
      assert ws == [ws[0]] + ws[1..];
    }
  }

  // A granting poll leaves exactly one lease more, and it is what was asked for.
  lemma GrantAddsLease(policy: Policy, s: State, op: Op)
    requires IsGrant(policy, s, op)
    ensures AddsLease(policy, s, op, Step(policy, s, op))
  {
    var w := WaiterOf(policy, op);
    var queued := AtChoice(policy, s, op);
    forall x
      ensures x in Step(policy, s, op).waiters <==> x in Fresh(s.waiters, op.census) && x.request != op.request
    {
      WithoutRequestIff(queued.waiters, op.request, x);
    }
  }

  // Any other poll only leaves the caller waiting.
  lemma OtherPollsQueue(policy: Policy, s: State, op: Op)
    requires op.Poll? && !IsGrant(policy, s, op)
    ensures OnlyQueues(policy, s, op, Step(policy, s, op))
  {
  }

  // ------------------------------------------------------------- room

  // The positions of the leases that hold p.
  function HoldersAt(ls: seq<Lease>, p: Provider): set<int> {
    set i | 0 <= i < |ls| && ls[i].provider == Some(p)
  }

  lemma {:induction false} HoldersAreCounted(ls: seq<Lease>, p: Provider)
    ensures |HoldersAt(ls, p)| == Holders(ls, p)
    decreases |ls|
  {
    if ls != [] {
      var n := |ls| - 1;
      HoldersAreCounted(ls[..n], p);
      HoldersAppend(ls[..n], ls[n], p);
      assert ls == ls[..n] + [ls[n]];
      HoldersSplit(ls, p);
    }
  }

  lemma HoldersSplit(ls: seq<Lease>, p: Provider)
    requires ls != []
    ensures var n := |ls| - 1;
            |HoldersAt(ls, p)| == |HoldersAt(ls[..n], p)| + (if ls[n].provider == Some(p) then 1 else 0)
  {
    var n := |ls| - 1;
    assert n !in HoldersAt(ls[..n], p);
    if ls[n].provider == Some(p) {
      assert HoldersAt(ls, p) == HoldersAt(ls[..n], p) + {n};
    } else {
      assert HoldersAt(ls, p) == HoldersAt(ls[..n], p);
    }
  }

  lemma {:induction false} OccupiedIff(ls: seq<Lease>, x: Resource)
    ensures x in Occupied(ls) <==> exists i :: 0 <= i < |ls| && x in ls[i].resources
  {
    if ls != [] {
      OccupiedIff(ls[1..], x);
      if x in Occupied(ls[1..]) {
        var i :| 0 <= i < |ls[1..]| && x in ls[1..][i].resources;
        assert x in ls[i + 1].resources;
      }
      if i :| 0 <= i < |ls| && x in ls[i].resources {
        assert i > 0 ==> x in ls[1..][i - 1].resources;
      }
    }
  }

  // A worker, the provider and every resource are free.
  predicate Room(policy: Policy, ls: seq<Lease>, w: Waiter) {
    && |ls| < policy.maxWorkers
    && (w.provider.Some? && w.provider.value in policy.limits ==>
          |HoldersAt(ls, w.provider.value)| < policy.limits[w.provider.value])
    && forall i :: 0 <= i < |ls| ==> ls[i].resources !! w.resources
  }

  lemma AllocatableIffRoom(policy: Policy, s: State, w: Waiter)
    ensures Allocatable(policy, s, w) <==> Room(policy, s.leases, w)
  {
    if w.provider.Some? {
      HoldersAreCounted(s.leases, w.provider.value);
    }
    forall x: Resource
      ensures x in Occupied(s.leases) <==> exists i :: 0 <= i < |s.leases| && x in s.leases[i].resources
    {
      OccupiedIff(s.leases, x);
    }
  }

  // A caller that waits alone is granted by its poll if and only if there is room for it.
  lemma LonePollGrantedIff(policy: Policy, s: State, op: Op)
    requires op.Poll? && (forall w :: w in s.waiters && w.request in op.census.beating ==> w == WaiterOf(policy, op))
    requires |Fresh(s.waiters, op.census)| <= 1
    ensures IsGrant(policy, s, op) <==> Room(policy, Retained(s.leases, op.census), WaiterOf(policy, op))
  {
    var w := WaiterOf(policy, op);
    var queued := AtChoice(policy, s, op);
    if Fresh(s.waiters, op.census) != [] {
      FreshIff(s.waiters, op.census, Fresh(s.waiters, op.census)[0]);
    }
    assert queued.waiters == [w];
    AllocatableIffRoom(policy, queued, w);
    AloneIsSelected(policy, queued, w);
  }

  lemma AloneIsSelected(policy: Policy, s: State, w: Waiter)
    requires s.waiters == [w]
    ensures Selected(policy, s) == if Allocatable(policy, s, w) then Some(w) else None
  {
    assert s.waiters[1..] == [];
    assert Queued(s.waiters) == [w];
    assert Projects(s.waiters) == [w.project];
    assert Head(s.waiters, w.project) == Some(w);
    var order := Rotation([w.project], s.last);
    assert order == [w.project] && Rotation(Projects(s.waiters), s.last) == order;
    assert order[1..] == [] && FirstAllocatable(policy, s, order[1..]) == None;
  }

  // ------------------------------------------------------------- provider switches

  // The lease with this token and no other is rewritten; it keeps its identity.
  predicate OnlyLease(ls: seq<Lease>, ls': seq<Lease>, i: nat)
    requires i < |ls|
  {
    && |ls'| == |ls| && ls' == ls[i := ls'[i]]
    && ls'[i] == ls[i].(provider := ls'[i].provider, wait := ls'[i].wait)
  }

  // The place in p's queue that the lease has, or takes now.
  function PlaceFor(l: Lease, p: Provider, priority: int, now: nat): Wait {
    if l.wait.Some? && l.wait.value.provider == p then l.wait.value else Wait(p, priority, now)
  }

  // Nobody else in p's queue comes before this place: the smaller priority number first,
  // then the earlier request, then the smaller token.
  predicate NobodyBefore(ls: seq<Lease>, i: nat, place: Wait)
    requires i < |ls|
  {
    forall j :: 0 <= j < |ls| && j != i && ls[j].wait.Some? && ls[j].wait.value.provider == place.provider ==>
      var other := ls[j].wait.value;
      || place.priority < other.priority
      || (place.priority == other.priority && place.at < other.at)
      || (place.priority == other.priority && place.at == other.at && ls[i].token.n <= ls[j].token.n)
  }

  // Fewer leases than the limit hold p, this one apart.
  predicate ProviderFree(policy: Policy, ls: seq<Lease>, i: nat, p: Provider)
    requires p in policy.limits
  {
    |HoldersAt(ls, p) - {i}| < policy.limits[p]
  }

  // A switch to an unlimited provider, or to the one it holds, is made at once. Any other
  // gives the held provider up, and is made if nobody is before it and the provider has
  // room; until then the lease waits in its place and holds none.
  lemma SwitchExactly(policy: Policy, ls: seq<Lease>, i: nat, provider: Option<Provider>, priority: int, now: nat)
    requires SafeLeases(policy, ls) && i < |ls| && (provider.Some? ==> provider.value in policy.limits)
    ensures var ls' := TransitionAt(policy, ls, i, provider, priority, now);
            && OnlyLease(ls, ls', i)
            && (if provider.None? || ls[i].provider == provider
                then ls'[i].provider == provider && ls'[i].wait.None?
                else
                  var place := PlaceFor(ls[i], provider.value, priority, now);
                  if NobodyBefore(ls, i, place) && ProviderFree(policy, ls, i, provider.value)
                  then ls'[i].provider == provider && ls'[i].wait.None?
                  else ls'[i].provider.None? && ls'[i].wait == Some(place))
  {
    if provider.Some? && ls[i].provider != provider {
      var p := provider.value;
      var waiting := ls[i := Queueing(ls[i], p, priority, now)];
      FirstInLine(ls, i, p, priority, now);
      FreeAsCounted(policy, ls, i, p, priority, now);
    }
  }

  lemma FirstInLine(ls: seq<Lease>, i: nat, p: Provider, priority: int, now: nat)
    requires i < |ls|
    ensures var waiting := ls[i := Queueing(ls[i], p, priority, now)];
            Least(waiting, i, p) <==> NobodyBefore(ls, i, PlaceFor(ls[i], p, priority, now))
  {
    var waiting := ls[i := Queueing(ls[i], p, priority, now)];
    var place := PlaceFor(ls[i], p, priority, now);
    assert waiting[i].wait == Some(place);
    assert forall j :: 0 <= j < |ls| && j != i ==> waiting[j] == ls[j];
  }

  lemma FreeAsCounted(policy: Policy, ls: seq<Lease>, i: nat, p: Provider, priority: int, now: nat)
    requires i < |ls| && p in policy.limits
    ensures var waiting := ls[i := Queueing(ls[i], p, priority, now)];
            ProviderAvailable(policy, waiting, Some(p)) <==> ProviderFree(policy, ls, i, p)
  {
    var waiting := ls[i := Queueing(ls[i], p, priority, now)];
    HoldersAreCounted(waiting, p);
    assert HoldersAt(waiting, p) == HoldersAt(ls, p) - {i};
  }

  // ------------------------------------------------------------- what was asked for

  // What a token was granted for; the provider is the last one asked for under it.
  datatype Ask = Ask(project: Project, provider: Option<Provider>, resources: set<Resource>)

  // The book after a call: a granting poll opens an entry, a switch of a known lease changes
  // the provider asked for.
  function Entered(policy: Policy, s: State, op: Op, book: map<Token, Ask>): map<Token, Ask> {
    match op
    case Poll(_, _, project, provider, resources, _, token) =>
      if IsGrant(policy, s, op) then book[token := Ask(project, provider, resources)] else book
    case Transition(c, token, provider, _, _) =>
      if token in book && Find(Retained(s.leases, c), token).Some?
      then book[token := book[token].(provider := provider)] else book
    case _ => book
  }

  function BookOf(policy: Policy, s: State, ops: seq<Op>, book: map<Token, Ask>): map<Token, Ask>
    decreases |ops|
  {
    if ops == [] then book else BookOf(policy, Step(policy, s, ops[0]), ops[1..], Entered(policy, s, ops[0], book))
  }

  // The lease holds what was asked for, or waits for the provider asked for.
  predicate HoldsAsked(policy: Policy, ask: Ask, l: Lease) {
    && l.project == ask.project && l.resources == ask.resources
    && if l.wait.None? then Counts(policy, ask.provider, l.provider)
       else l.provider.None? && ask.provider == Some(l.wait.value.provider)
  }

  predicate Entry(policy: Policy, book: map<Token, Ask>, l: Lease) {
    l.token in book && HoldsAsked(policy, book[l.token], l)
  }

  predicate Kept(policy: Policy, book: map<Token, Ask>, ls: seq<Lease>) {
    forall i :: 0 <= i < |ls| ==> Entry(policy, book, ls[i])
  }

  lemma ThinsKept(policy: Policy, book: map<Token, Ask>, ls: seq<Lease>, out: seq<Lease>, from: seq<nat>)
    requires Kept(policy, book, ls) && Thins(ls, out, from)
    ensures Kept(policy, book, out)
  {
    forall k | 0 <= k < |out|
      ensures Entry(policy, book, out[k])
    {
      assert Entry(policy, book, ls[from[k]]);
    }
  }

  lemma RetainedKept(policy: Policy, book: map<Token, Ask>, ls: seq<Lease>, c: Census)
    requires Kept(policy, book, ls)
    ensures Kept(policy, book, Retained(ls, c))
  {
    var from := RetainedThins(ls, c);
    ThinsKept(policy, book, ls, Retained(ls, c), from);
  }

  lemma GrantKept(policy: Policy, s: State, op: Op, book: map<Token, Ask>)
    requires Kept(policy, book, s.leases) && IsGrant(policy, s, op) && Honest(policy, s, op)
    ensures Kept(policy, Entered(policy, s, op, book), Step(policy, s, op).leases)
  {
    var kept := Retained(s.leases, op.census);
    var s', book' := Step(policy, s, op), Entered(policy, s, op, book);
    GrantAddsLease(policy, s, op);
    RetainedKept(policy, book, s.leases, op.census);
    var from := RetainedThins(s.leases, op.census);
    forall i | 0 <= i < |s'.leases|
      ensures Entry(policy, book', s'.leases[i])
    {
      if i < |kept| {
        assert s'.leases[i] == kept[i];
        assert kept[i].token == s.leases[from[i]].token;
        assert Entry(policy, book, kept[i]);
      }
    }
  }

  lemma SwitchKept(policy: Policy, s: State, op: Op, book: map<Token, Ask>)
    requires Safe(policy, s) && Kept(policy, book, s.leases) && op.Transition?
    ensures Kept(policy, Entered(policy, s, op, book), Step(policy, s, op).leases)
  {
    var ls := Retained(s.leases, op.census);
    RetainedKept(policy, book, s.leases, op.census);
    RetainedSafe(policy, s.leases, op.census);
    if Find(ls, op.token).Some? {
      var i := Find(ls, op.token).value;
      assert Entry(policy, book, ls[i]);
      SwitchExactly(policy, ls, i, Normalized(policy, op.provider), op.priority, op.now);
      SwitchedEntry(policy, ls, i, op.provider, op.priority, op.now, book);
    }
  }

  lemma SwitchedEntry(policy: Policy, ls: seq<Lease>, i: nat, provider: Option<Provider>, priority: int, now: nat,
                      book: map<Token, Ask>)
    requires SafeLeases(policy, ls) && i < |ls| && Kept(policy, book, ls) && ls[i].token in book
    ensures var ls' := TransitionAt(policy, ls, i, Normalized(policy, provider), priority, now);
            Kept(policy, book[ls[i].token := book[ls[i].token].(provider := provider)], ls')
  {
    var wanted := Normalized(policy, provider);
    SwitchExactly(policy, ls, i, wanted, priority, now);
    var ls' := TransitionAt(policy, ls, i, wanted, priority, now);
    var book' := book[ls[i].token := book[ls[i].token].(provider := provider)];
    forall j | 0 <= j < |ls'|
      ensures Entry(policy, book', ls'[j])
    {
      assert Entry(policy, book, ls[j]);
      if j != i {
        assert ls'[j] == ls[j] && ls[j].token != ls[i].token;
      }
    }
  }

  lemma BeatKept(policy: Policy, s: State, op: Op, book: map<Token, Ask>)
    requires Kept(policy, book, s.leases) && op.Heartbeat?
    ensures Kept(policy, book, Step(policy, s, op).leases)
  {
    RetainedKept(policy, book, s.leases, op.census);
    var ls := Retained(s.leases, op.census);
    if Find(ls, op.token).Some? {
      var i := Find(ls, op.token).value;
      assert Entry(policy, book, ls[i]);
      assert Entry(policy, book, Beat(ls[i]));
    }
  }

  lemma StepKept(policy: Policy, s: State, op: Op, book: map<Token, Ask>)
    requires Safe(policy, s) && Kept(policy, book, s.leases) && Honest(policy, s, op)
    ensures Kept(policy, Entered(policy, s, op, book), Step(policy, s, op).leases)
  {
    RetainedKept(policy, book, s.leases, op.census);
    match op
    case Poll(_, _, _, _, _, _, _) =>
      if IsGrant(policy, s, op) {
        GrantKept(policy, s, op, book);
      } else {
        OtherPollsQueue(policy, s, op);
      }
    case Heartbeat(_, _) => BeatKept(policy, s, op, book);
    case Transition(_, _, _, _, _) => SwitchKept(policy, s, op, book);
    case Release(_, token) =>
      var from := WithoutTokenThins(Retained(s.leases, op.census), token);
      ThinsKept(policy, book, Retained(s.leases, op.census), Step(policy, s, op).leases, from);
    case _ =>
  }

  lemma {:induction false} RunKept(policy: Policy, s: State, ops: seq<Op>, book: map<Token, Ask>)
    requires Safe(policy, s) && HonestRun(policy, s, ops) && Kept(policy, book, s.leases)
    ensures Kept(policy, BookOf(policy, s, ops, book), Run(policy, s, ops).leases)
    decreases |ops|
  {
    if ops != [] {
      StepSafe(policy, s, ops[0]);
      StepKept(policy, s, ops[0], book);
      RunKept(policy, Step(policy, s, ops[0]), ops[1..], Entered(policy, s, ops[0], book));
    }
  }

  // The leases that do not wait and whose last asked-for provider is p.
  function AskedFor(policy: Policy, book: map<Token, Ask>, ls: seq<Lease>, p: Provider): set<int>
    requires Kept(policy, book, ls)
  {
    set i | 0 <= i < |ls| && ls[i].wait.None?
            && (assert Entry(policy, book, ls[i]); book[ls[i].token].provider == Some(p))
  }

  // The limits over what was asked for, whatever the calls and whoever dies: every lease is
  // of the project and holds the resources it was granted for, and holds or waits for the
  // provider last asked for; there are never more leases than workers, never more working on
  // a provider than its limit, and no resource was asked for by two of them.
  lemma GrantsStayWithinLimits(policy: Policy, ops: seq<Op>)
    requires HonestRun(policy, EMPTY, ops)
    ensures var ls := Run(policy, EMPTY, ops).leases;
            var book := BookOf(policy, EMPTY, ops, map[]);
            && Kept(policy, book, ls) && |ls| <= policy.maxWorkers
            && (forall p :: p in policy.limits ==> |AskedFor(policy, book, ls, p)| <= policy.limits[p])
            && (forall i, j :: 0 <= i < j < |ls| ==>
                  ls[i].token != ls[j].token && book[ls[i].token].resources !! book[ls[j].token].resources)
  {
    EmptyIsSafe(policy);
    RunKept(policy, EMPTY, ops, map[]);
    RunSafe(policy, EMPTY, ops);
    var ls := Run(policy, EMPTY, ops).leases;
    var book := BookOf(policy, EMPTY, ops, map[]);
    forall p | p in policy.limits
      ensures |AskedFor(policy, book, ls, p)| <= policy.limits[p]
    {
      AskedAreHolders(policy, book, ls, p);
    }
    forall i, j | 0 <= i < j < |ls|
      ensures ls[i].token != ls[j].token && book[ls[i].token].resources !! book[ls[j].token].resources
    {
      assert Entry(policy, book, ls[i]) && Entry(policy, book, ls[j]);
    }
  }

  lemma AskedAreHolders(policy: Policy, book: map<Token, Ask>, ls: seq<Lease>, p: Provider)
    requires Kept(policy, book, ls) && p in policy.limits
    ensures |AskedFor(policy, book, ls, p)| <= Holders(ls, p)
  {
    forall i | i in AskedFor(policy, book, ls, p)
      ensures i in HoldersAt(ls, p)
    {
      assert Entry(policy, book, ls[i]);
    }
    HoldersAreCounted(ls, p);
    assert HoldersAt(ls, p) == AskedFor(policy, book, ls, p) + (HoldersAt(ls, p) - AskedFor(policy, book, ls, p));
  }

  // ------------------------------------------------------------- what calls leave alone

  lemma RetainedHolds(ls: seq<Lease>, c: Census, k: nat, j: nat)
    requires DistinctTokens(ls) && k < |Retained(ls, c)| && j < |ls| && Retained(ls, c)[k].token == ls[j].token
    ensures Retained(ls, c)[k] == ls[j].(status := Retained(ls, c)[k].status)
  {
    var from := RetainedThins(ls, c);
    assert ls[from[k]].token == ls[j].token;
  }

  // The same lease before and after a call: its project and its resources never change, and
  // its provider changes only by a switch under its own token.
  lemma OnlySwitchesMoveProviders(policy: Policy, s: State, op: Op, k: nat, j: nat)
    requires Safe(policy, s) && Honest(policy, s, op) && k < |Step(policy, s, op).leases| && j < |s.leases|
    requires Step(policy, s, op).leases[k].token == s.leases[j].token
    ensures var (l, l') := (s.leases[j], Step(policy, s, op).leases[k]);
            && l'.project == l.project && l'.resources == l.resources
            && (!(op.Transition? && op.token == l.token) ==> l'.provider == l.provider && l'.wait == l.wait)
  {
    var ls := Retained(s.leases, op.census);
    RetainedSafe(policy, s.leases, op.census);
    match op
    case Poll(_, _, _, _, _, _, _) =>
      if IsGrant(policy, s, op) {
        GrantAddsLease(policy, s, op);
        assert k < |ls| ==> Step(policy, s, op).leases[k] == ls[k];
      } else {
        OtherPollsQueue(policy, s, op);
      }
      RetainedHolds(s.leases, op.census, k, j);
    case Transition(_, token, provider, priority, now) =>
      if Find(ls, token).Some? {
        SwitchExactly(policy, ls, Find(ls, token).value, Normalized(policy, provider), priority, now);
        RetainedHolds(s.leases, op.census, k, j);
      }
    case Release(_, token) =>
      var from := WithoutTokenThins(ls, token);
      RetainedHolds(s.leases, op.census, from[k], j);
    case _ => RetainedHolds(s.leases, op.census, k, j);
  }

  // Releasing one lease keeps every other: one of a living process with another token stays.
  lemma ReleaseKeepsOthers(policy: Policy, s: State, op: Op, i: nat) returns (j: nat)
    requires op.Release? && i < |s.leases|
    requires s.leases[i].token != op.token && HealthOf(op.census, s.leases[i].token) != Gone
    ensures var s' := Step(policy, s, op);
            && j < |s'.leases| && s'.leases[j] == s.leases[i].(status := s'.leases[j].status)
            && s'.waiters == Fresh(s.waiters, op.census) && s'.last == s.last
  {
    var k := LivingLeaseStays(s.leases, op.census, i);
    j := OtherTokenStays(Retained(s.leases, op.census), op.token, k);
  }

  lemma {:induction false} OthersStay(ls: seq<Lease>, t: Token)
    ensures forall l :: l in WithoutToken(ls, t) <==> l in ls && l.token != t
  {
    if ls != [] {
      OthersStay(ls[1..], t);
      assert ls == [ls[0]] + ls[1..];
    }
  }

  lemma {:induction false} OtherTokenStays(ls: seq<Lease>, t: Token, i: nat) returns (j: nat)
    requires i < |ls| && ls[i].token != t
    ensures j < |WithoutToken(ls, t)| && WithoutToken(ls, t)[j] == ls[i]
  {
    if i == 0 {
      j := 0;
    } else {
      j := OtherTokenStays(ls[1..], t, i - 1);
      if ls[0].token != t {
        assert WithoutToken(ls, t) == [ls[0]] + WithoutToken(ls[1..], t);
        j := j + 1;
      } else {
        assert WithoutToken(ls, t) == WithoutToken(ls[1..], t);
      }
    }
  }

  // Cancelling one request keeps every other waiter that is alive, and touches no lease.
  lemma CancelKeepsOthers(policy: Policy, s: State, op: Op, w: Waiter)
    requires op.CancelWaiter?
    ensures var s' := Step(policy, s, op);
            && (w in s'.waiters <==> w in s.waiters && w.request in op.census.beating && w.request != op.request)
            && s'.leases == Retained(s.leases, op.census) && s'.last == s.last
  {
    FreshIff(s.waiters, op.census, w);
    WithoutRequestIff(Fresh(s.waiters, op.census), op.request, w);
  }

  // A heartbeat revives its lease if that was stale, and changes nothing else.
  lemma HeartbeatEffect(policy: Policy, s: State, op: Op, i: nat)
    requires Safe(policy, s) && op.Heartbeat? && i < |Retained(s.leases, op.census)|
    ensures var (l, s') := (Retained(s.leases, op.census)[i], Step(policy, s, op));
            && |s'.leases| == |Retained(s.leases, op.census)|
            && s'.leases[i] == (if l.token == op.token && l.status == NeedsReconcile then l.(status := Live) else l)
            && s'.waiters == Fresh(s.waiters, op.census) && s'.last == s.last
  {
    var ls := Retained(s.leases, op.census);
    RetainedSafe(policy, s.leases, op.census);
    if ls[i].token == op.token {
      var found := Find(ls, op.token);
      assert found.Some? && found.value == i;
    }
  }
}
