/** The broker as it runs: a document read, changed in memory and written back under its lock. */
module HostCapacityBroker {
  import opened Wrappers
  import opened CapacityModel
  import opened CapacitySafety
  import opened CapacityFairness
  import opened CapacityGrants

  datatype CapacitySnapshot = CapacitySnapshot(
    occupied: nat, live: nat, orphan: nat, needsReconcile: nat, leases: seq<Lease>, waiters: seq<Waiter>)

  // One poll of a waiting call: what other processes did since the last one, the process
  // table, and whether the wait is to end.
  datatype Poll = Poll(others: seq<Op>, census: Census, cancelled: bool, expired: bool, now: nat)

  // A caller that stops polling without an answer has been killed.
  datatype Outcome = Granted | Cancelled | TimedOut | Killed

  datatype Progress = Lost | Waiting | Settled

  // The request as it is repeated at one poll.
  function Asked(ask: Op, poll: Poll): Op {
    match ask
    case Transition(_, token, provider, priority, _) => Op.Transition(poll.census, token, provider, priority, poll.now)
    case Poll(_, request, project, provider, resources, at, token) =>
      Op.Poll(poll.census, request, project, provider, resources, at, token)
    case _ => ask
  }

  // What has happened to the document after these polls.
  function Attempts(ask: Op, polls: seq<Poll>): seq<Op>
    decreases |polls|
  {
    if polls == [] then []
    else
      var last := polls[|polls| - 1];
      Attempts(ask, polls[..|polls| - 1]) + last.others + [Asked(ask, last)]
  }

  // The document the poll `polls[k]` finds.
  function Found(policy: Policy, s: State, ask: Op, polls: seq<Poll>, k: nat): State
    requires k < |polls|
  {
    Run(policy, Run(policy, s, Attempts(ask, polls[..k])), polls[k].others)
  }

  // The poll `polls[k]` is the one that gets the lease.
  predicate GrantedAt(policy: Policy, s: State, ask: Op, polls: seq<Poll>, k: nat)
    requires k < |polls|
  {
    IsGrant(policy, Found(policy, s, ask, polls, k), Asked(ask, polls[k]))
  }

  // How many leases these polls have yielded.
  function Yield(policy: Policy, s: State, ask: Op, polls: seq<Poll>): nat
    decreases |polls|
  {
    if polls == [] then 0
    else
      var k := |polls| - 1;
      Yield(policy, s, ask, polls[..k]) + (if GrantedAt(policy, s, ask, polls, k) then 1 else 0)
  }

  lemma YieldOne(policy: Policy, s: State, ask: Op, polls: seq<Poll>, k: nat)
    requires k < |polls|
    ensures Yield(policy, s, ask, polls[..k + 1])
            == Yield(policy, s, ask, polls[..k]) + (if GrantedAt(policy, s, ask, polls, k) then 1 else 0)
  {
    assert polls[..k + 1][..k] == polls[..k];
  }

  lemma AttemptsOne(policy: Policy, s: State, ask: Op, polls: seq<Poll>, k: nat)
    requires k < |polls|
    ensures Run(policy, s, Attempts(ask, polls[..k + 1]))
            == Step(policy, Found(policy, s, ask, polls, k), Asked(ask, polls[k]))
  {
    var before := Attempts(ask, polls[..k]);
    assert polls[..k + 1][..k] == polls[..k];
    RunOne(policy, s, before + polls[k].others, Asked(ask, polls[k]));
    RunSplits(policy, s, before, polls[k].others);
  }

  lemma {:induction false} RunSplits(policy: Policy, s: State, a: seq<Op>, b: seq<Op>)
    ensures Run(policy, s, a + b) == Run(policy, Run(policy, s, a), b)
    decreases |a|
  {
    if a == [] {
      assert a + b == b;
    } else {
      assert (a + b)[1..] == a[1..] + b;
      RunSplits(policy, Step(policy, s, a[0]), a[1..], b);
    }
  }

  lemma RunOne(policy: Policy, s: State, a: seq<Op>, op: Op)
    ensures Run(policy, s, a + [op]) == Step(policy, Run(policy, s, a), op)
  {
    RunSplits(policy, s, a, [op]);
    assert [op][1..] == [];
    assert Run(policy, Run(policy, s, a), [op]) == Step(policy, Run(policy, s, a), op);
  }

  lemma {:induction false} FirstForTail(ws: seq<Waiter>, w: Waiter, p: Project)
    ensures FirstFor(ws + [w], p)
            == if FirstFor(ws, p).Some? then FirstFor(ws, p) else if w.project == p then Some(w) else None
  {
    if ws == [] {
      assert (ws + [w])[1..] == [];
    } else {
      FirstForTail(ws[1..], w, p);
      assert (ws + [w])[1..] == ws[1..] + [w];
    }
  }

  // Where polling stands after n polls: still waiting, or ended with an outcome.
  predicate Polled(policy: Policy, start: State, ask: Op, polls: seq<Poll>, outcome: Option<Outcome>, n: nat,
                   now: State) {
    && n <= |polls|
    && now == Run(policy, start, Attempts(ask, polls[..n]))
    && Yield(policy, start, ask, polls[..n]) == (if outcome == Some(Granted) then 1 else 0)
    && (outcome == Some(Granted) ==> n > 0 && GrantedAt(policy, start, ask, polls, n - 1))
    && (outcome == Some(TimedOut) ==> n > 0)
    && (outcome == Some(Cancelled) ==> n < |polls|)
    && (outcome == Some(Killed) ==> n == |polls|)
  }

  // The document after n polls of a provider switch.
  predicate Switched(policy: Policy, start: State, ask: Op, polls: seq<Poll>, n: nat, now: State) {
    n <= |polls| && now == Run(policy, start, Attempts(ask, polls[..n]))
  }

  // No lease that is left carries the token.
  predicate Missing(s: State, c: Census, token: Token) {
    forall i :: 0 <= i < |Retained(s.leases, c)| ==> Retained(s.leases, c)[i].token != token
  }

  class Broker {
    const policy: Policy
    var leases: seq<Lease>
    var waiters: seq<Waiter>
    var last: Option<Project>

    function Document(): State
      reads this
    {
      State(leases, waiters, last)
    }

    constructor (policy: Policy)
      ensures this.policy == policy && Document() == EMPTY && Safe(policy, Document())
    {
      this.policy := policy;
      leases, waiters, last := [], [], None;
    }

    // The document as reconciled under the lock; nothing is written yet.
    method Reconciled(c: Census) returns (ls: seq<Lease>, ws: seq<Waiter>)
      ensures State(ls, ws, last) == Reconcile(Document(), c)
    {
      ls := LeasesKept(c);
      ws := WaitersKept(c);
    }

    method LeasesKept(c: Census) returns (ls: seq<Lease>)
      ensures ls == Retained(leases, c)
    {
      ls := [];
      var i := 0;
      while i < |leases|
        invariant 0 <= i <= |leases| && ls + Retained(leases[i..], c) == Retained(leases, c)
      {
        assert leases[i..][1..] == leases[i + 1..];
        var h := HealthOf(c, leases[i].token);
        if h != Gone {
          ls := ls + [leases[i].(status := StatusOf(h))];
        }
        i := i + 1;
      }
    }

    method WaitersKept(c: Census) returns (ws: seq<Waiter>)
      ensures ws == Fresh(waiters, c)
    {
      ws := [];
      var i := 0;
      while i < |waiters|
        invariant 0 <= i <= |waiters| && ws + Fresh(waiters[i..], c) == Fresh(waiters, c)
      {
        assert waiters[i..][1..] == waiters[i + 1..];
        if waiters[i].request in c.beating {
          ws := ws + [waiters[i]];
        }
        i := i + 1;
      }
    }

    // _selected_waiter: project heads in order of request, then one round of projects.
    method SelectedWaiter(s: State) returns (selected: Option<Waiter>)
      ensures selected == Selected(policy, s)
      ensures selected.Some? ==>
                && Allocatable(policy, s, selected.value)
                && forall i :: 0 <= i < |s.waiters| && s.waiters[i].project == selected.value.project ==>
                                 selected.value.at < s.waiters[i].at
                                 || (selected.value.at == s.waiters[i].at
                                     && selected.value.request.n <= s.waiters[i].request.n)
    {
      var heads: map<Project, Waiter> := map[];
      var queue := Queued(s.waiters);
      var i := 0;
      while i < |queue|
        invariant 0 <= i <= |queue|
        invariant forall p :: p in heads <==> FirstFor(queue[..i], p).Some?
        invariant forall p :: p in heads ==> FirstFor(queue[..i], p) == Some(heads[p])
      {
        assert queue[..i + 1] == queue[..i] + [queue[i]];
        forall p
          ensures FirstFor(queue[..i + 1], p)
                  == if FirstFor(queue[..i], p).Some? then FirstFor(queue[..i], p)
                     else if queue[i].project == p then Some(queue[i]) else None
        {
          FirstForTail(queue[..i], queue[i], p);
        }
        if queue[i].project !in heads {
          heads := heads[queue[i].project := queue[i]];
        }
        i := i + 1;
      }
      assert queue[..|queue|] == queue;
      var order := Rotation(Projects(s.waiters), s.last);
      selected := None;
      i := 0;
      while i < |order| && selected.None?
        invariant 0 <= i <= |order|
        invariant selected.None? ==> FirstAllocatable(policy, s, order[i..]) == FirstAllocatable(policy, s, order)
        invariant selected.Some? ==> FirstAllocatable(policy, s, order) == selected
      {
        assert order[i..][1..] == order[i + 1..];
        if order[i] in heads && Allocatable(policy, s, heads[order[i]]) {
          selected := Some(heads[order[i]]);
        }
        i := i + 1;
      }
      if selected.Some? {
        SelectedIsHead(policy, s, order);
        forall j | 0 <= j < |s.waiters| && s.waiters[j].project == selected.value.project
          ensures selected.value.at < s.waiters[j].at
               || (selected.value.at == s.waiters[j].at && selected.value.request.n <= s.waiters[j].request.n)
        {
          GrantsAreFifo(policy, s, j);
        }
      }
    }

    // One locked attempt of `acquire`.
    method TryAcquire(c: Census, w: Waiter, token: Token) returns (granted: bool)
      modifies this
      ensures Document() == AcquirePoll(policy, old(Document()), c, w, token)
      ensures granted == Grants(policy, old(Document()), c, w)
      ensures granted ==>
                && |leases| == |Retained(old(leases), c)| + 1 && leases[..|leases| - 1] == Retained(old(leases), c)
                && leases[|leases| - 1].token == token && leases[|leases| - 1].project == w.project
                && leases[|leases| - 1].provider == w.provider && leases[|leases| - 1].resources == w.resources
                && leases[|leases| - 1].status == Live && leases[|leases| - 1].wait.None?
                && last == Some(w.project) && !HasRequest(waiters, w.request)
      ensures !granted ==>
                leases == Retained(old(leases), c) && last == old(last) && HasRequest(waiters, w.request)
    {
      var ls, ws := Reconciled(c);
      if !HasRequest(ws, w.request) {
        ws := ws + [w];
        assert ws[|ws| - 1].request == w.request;
      }
      var selected := SelectedWaiter(State(ls, ws, last));
      granted := selected.Some? && selected.value.request == w.request;
      if granted {
        RequestGone(ws, w.request);
        ls := ls + [Lease(token, w.project, w.provider, w.resources, Live, None)];
        ws := WithoutRequest(ws, w.request);
        last := Some(w.project);
      }
      leases, waiters := ls, ws;
    }

    method CancelWaiter(c: Census, request: Request)
      modifies this
      ensures Document() == Step(policy, old(Document()), Op.CancelWaiter(c, request))
      ensures !HasRequest(waiters, request)
      ensures forall w :: w in waiters <==> w in old(waiters) && w.request in c.beating && w.request != request
    {
      var ls, ws := Reconciled(c);
      RequestGone(ws, request);
      forall w
        ensures w in WithoutRequest(ws, request) <==> w in waiters && w.request in c.beating && w.request != request
      {
        CancelKeepsOthers(policy, Document(), Op.CancelWaiter(c, request), w);
      }
      leases, waiters := ls, WithoutRequest(ws, request);
    }

    method Heartbeat(c: Census, token: Token) returns (known: bool)
      modifies this
      ensures Document() == Step(policy, old(Document()), Op.Heartbeat(c, token))
      ensures known <==> exists i :: 0 <= i < |leases| && leases[i].token == token
      ensures DistinctTokens(leases) && known ==>
                forall i :: 0 <= i < |leases| && leases[i].token == token ==> leases[i].status != NeedsReconcile
    {
      var ls, ws := Reconciled(c);
      var i := 0;
      var found := Find(ls, token);
      while i < |ls| && ls[i].token != token
        invariant 0 <= i <= |ls| && forall j :: 0 <= j < i ==> ls[j].token != token
      {
        i := i + 1;
      }
      known := i < |ls|;
      FoundFirst(ls, token, i);
      if known {
        ls := ls[i := Beat(ls[i])];
        assert ls[i].token == token;
      }
      leases, waiters := ls, ws;
    }

    method Release(c: Census, token: Token)
      modifies this
      ensures Document() == Step(policy, old(Document()), Op.Release(c, token))
      ensures forall l :: l in leases <==> l in Retained(old(leases), c) && l.token != token
    {
      var ls, ws := Reconciled(c);
      TokenGone(ls, token);
      OthersStay(ls, token);
      leases, waiters := WithoutToken(ls, token), ws;
    }

    // One locked attempt of `transition_provider`.
    method TryTransition(c: Census, token: Token, provider: Option<Provider>, priority: int, now: nat)
      returns (progress: Progress)
      modifies this
      ensures Document() == Step(policy, old(Document()), Op.Transition(c, token, provider, priority, now))
      ensures progress == Lost <==> Missing(old(Document()), c, token)
      ensures progress == Lost ==> Document() == old(Document())
      ensures progress == Settled ==>
                exists i :: 0 <= i < |leases| && leases[i].token == token
                            && leases[i].provider == Normalized(policy, provider) && leases[i].wait.None?
      ensures progress == Waiting ==>
                exists i :: 0 <= i < |leases| && leases[i].token == token
                            && leases[i].provider.None? && leases[i].wait.Some?
    {
      var wanted := Normalized(policy, provider);
      var ls, ws := Reconciled(c);
      var found := Find(ls, token);
      if found.None? {
        return Lost;
      }
      var i := found.value;
      var target := ls[i];
      progress := Settled;
      if target.provider == wanted {
        target := target.(wait := None);
      } else {
        target := target.(provider := None);
        if wanted.None? {
          target := target.(wait := None);
        } else {
          if target.wait.None? || target.wait.value.provider != wanted.value {
            target := target.(wait := Some(Wait(wanted.value, priority, now)));
          }
          var queued := ls[i := target];
          if Least(queued, i, wanted.value) && ProviderAvailable(policy, queued, wanted) {
            target := target.(provider := wanted, wait := None);
          } else {
            progress := Waiting;
          }
        }
      }
      leases, waiters := ls[i := target], ws;
      assert leases[i] == target;
    }

    method Snapshot(c: Census, persist: bool) returns (view: CapacitySnapshot)
      modifies this
      ensures Document() == if persist then Reconcile(old(Document()), c) else old(Document())
      ensures view.leases == Reconcile(old(Document()), c).leases
              && view.waiters == Reconcile(old(Document()), c).waiters
      ensures view.occupied == |view.leases| == view.live + view.orphan + view.needsReconcile
      ensures view.live == Count(view.leases, Live) && view.orphan == Count(view.leases, Orphan)
    {
      var ls, ws := Reconciled(c);
      if persist {
        leases, waiters := ls, ws;
      }
      StatusesAddUp(ls);
      view := CapacitySnapshot(|ls|, Count(ls, Live), Count(ls, Orphan), Count(ls, NeedsReconcile), ls, ws);
    }

    // Other processes work on the document between two polls.
    method LetOthersAct(ops: seq<Op>)
      modifies this
      ensures Document() == Run(policy, old(Document()), ops)
    {
      var i := 0;
      while i < |ops|
        invariant 0 <= i <= |ops| && Run(policy, Document(), ops[i..]) == Run(policy, old(Document()), ops)
      {
        assert ops[i..][1..] == ops[i + 1..];
        var next := Step(policy, Document(), ops[i]);
        leases, waiters, last := next.leases, next.waiters, next.last;
        i := i + 1;
      }
    }

    // One turn of the polling loop.
    method PollOnce(ask: Op, poll: Poll) returns (granted: bool)
      requires ask.Poll?
      modifies this
      ensures var found := Run(policy, old(Document()), poll.others);
              && Document() == Step(policy, found, Asked(ask, poll))
              && granted == IsGrant(policy, found, Asked(ask, poll))
              && if granted then AddsLease(policy, found, Asked(ask, poll), Document())
                 else OnlyQueues(policy, found, Asked(ask, poll), Document())
    {
      LetOthersAct(poll.others);
      if IsGrant(policy, Document(), Asked(ask, poll)) {
        GrantAddsLease(policy, Document(), Asked(ask, poll));
      } else {
        OtherPollsQueue(policy, Document(), Asked(ask, poll));
      }
      granted := TryAcquire(poll.census, WaiterOf(policy, Asked(ask, poll)), ask.token);
    }

    // The polling loop's body: stop if cancelled, poll, stop if granted or out of time.
    method NextPoll(ask: Op, polls: seq<Poll>, k: nat, ghost start: State) returns (outcome: Option<Outcome>, n: nat)
      requires ask.Poll? && k < |polls| && Polled(policy, start, ask, polls, None, k, Document())
      modifies this
      ensures Polled(policy, start, ask, polls, outcome, n, Document())
      ensures k <= n && outcome != Some(Killed) && (outcome.None? ==> n == k + 1)
    {
      if polls[k].cancelled {
        return Some(Cancelled), k;
      }
      AttemptsOne(policy, start, ask, polls, k);
      YieldOne(policy, start, ask, polls, k);
      var granted := PollOnce(ask, polls[k]);
      n := k + 1;
      outcome := if granted then Some(Granted) else if polls[k].expired then Some(TimedOut) else None;
    }

    // The polling loop of `acquire`.
    method PollUntil(ask: Op, polls: seq<Poll>) returns (outcome: Outcome, n: nat)
      requires ask.Poll?
      modifies this
      ensures Polled(policy, old(Document()), ask, polls, Some(outcome), n, Document())
    {
      ghost var start := Document();
      assert polls[..0] == [];
      var end: Option<Outcome> := None;
      n := 0;
      while n < |polls| && end.None?
        invariant Polled(policy, start, ask, polls, end, n, Document()) && end != Some(Killed)
        decreases |polls| - n, end.None?
      {
        end, n := NextPoll(ask, polls, n, start);
      }
      outcome := if end.Some? then end.value else Killed;
    }

    // `acquire`: poll until granted, cancelled or out of time. One call yields at most one
    // lease, and a call that gives up leaves no waiter behind.
    method Acquire(ask: Op, polls: seq<Poll>) returns (outcome: Outcome, n: nat)
      requires ask.Poll?
      modifies this
      ensures n <= |polls|
      ensures outcome == Granted ==>
                n > 0 && AddsLease(policy, Found(policy, old(Document()), ask, polls, n - 1), Asked(ask, polls[n - 1]),
                                   Document())
      ensures outcome == TimedOut ==> n > 0
      ensures outcome == Cancelled ==> n < |polls|
      ensures outcome == Killed ==> n == |polls|
      ensures var after := Run(policy, old(Document()), Attempts(ask, polls[..n]));
              match outcome
              case Granted => Document() == after
              case Killed => Document() == after
              case TimedOut => Document() == Step(policy, after, Op.CancelWaiter(polls[n - 1].census, ask.request))
              case Cancelled =>
                Document() == Step(policy, Run(policy, after, polls[n].others),
                                   Op.CancelWaiter(polls[n].census, ask.request))
      ensures outcome in {Cancelled, TimedOut} ==> !HasRequest(waiters, ask.request)
      ensures Yield(policy, old(Document()), ask, polls[..n]) == if outcome == Granted then 1 else 0
    {
      outcome, n := PollUntil(ask, polls);
      if outcome == Granted {
        AttemptsOne(policy, old(Document()), ask, polls, n - 1);
        GrantAddsLease(policy, Found(policy, old(Document()), ask, polls, n - 1), Asked(ask, polls[n - 1]));
      }
      if outcome == Cancelled {
        LetOthersAct(polls[n].others);
        CancelWaiter(polls[n].census, ask.request);
      } else if outcome == TimedOut {
        CancelWaiter(polls[n - 1].census, ask.request);
      }
    }

    // `transition_provider`: poll until the switch is made, the lease is lost or time is up.
    method TransitionProvider(ask: Op, polls: seq<Poll>) returns (progress: Progress, n: nat)
      requires ask.Transition?
      modifies this
      ensures Switched(policy, old(Document()), ask, polls, n, Document())
      ensures progress == Settled ==>
                exists i :: 0 <= i < |leases| && leases[i].token == ask.token
                            && leases[i].provider == Normalized(policy, ask.provider) && leases[i].wait.None?
      ensures progress == Lost ==> n > 0 && Missing(Document(), polls[n - 1].census, ask.token)
      ensures progress == Waiting ==> n == |polls| || (n > 0 && polls[n - 1].expired)
    {
      ghost var start := Document();
      assert polls[..0] == [];
      n := 0;
      progress := Waiting;
      var late := false;
      while n < |polls| && progress == Waiting && !late
        invariant Switched(policy, start, ask, polls, n, Document())
        invariant late ==> n > 0 && polls[n - 1].expired
        invariant progress == Lost ==> n > 0 && Missing(Document(), polls[n - 1].census, ask.token)
        invariant progress == Settled ==>
                    exists i :: 0 <= i < |leases| && leases[i].token == ask.token
                                && leases[i].provider == Normalized(policy, ask.provider) && leases[i].wait.None?
        decreases |polls| - n
      {
        progress := SwitchOnce(ask, polls, n, start);
        late := polls[n].expired;
        n := n + 1;
      }
    }

    method SwitchOnce(ask: Op, polls: seq<Poll>, k: nat, ghost start: State) returns (progress: Progress)
      requires ask.Transition? && k < |polls| && Switched(policy, start, ask, polls, k, Document())
      modifies this
      ensures Switched(policy, start, ask, polls, k + 1, Document())
      ensures progress == Lost ==> Missing(Document(), polls[k].census, ask.token)
      ensures progress == Settled ==>
                exists i :: 0 <= i < |leases| && leases[i].token == ask.token
                            && leases[i].provider == Normalized(policy, ask.provider) && leases[i].wait.None?
    {
      AttemptsOne(policy, start, ask, polls, k);
      LetOthersAct(polls[k].others);
      progress := TryTransition(polls[k].census, ask.token, ask.provider, ask.priority, polls[k].now);
    }
  }

  lemma {:induction false} FoundFirst(ls: seq<Lease>, token: Token, i: nat)
    requires i <= |ls| && forall j :: 0 <= j < i ==> ls[j].token != token
    requires i < |ls| ==> ls[i].token == token
    ensures Find(ls, token) == if i < |ls| then Some(i) else None
  {
    if i > 0 {
      FoundFirst(ls[1..], token, i - 1);
    }
  }
}
