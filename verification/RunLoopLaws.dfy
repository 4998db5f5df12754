/** Budgets, counters and the wave circuit breaker of the run loop. */
module RunLoopLaws {
  import opened QueueTypes
  import opened RunLoopModel

  // ------------------------------------------------------------- budgets

  // Outcomes the loop may still process.
  function Left(policy: Policy, s: Loop): int {
    (policy.maxTasks - s.done) * policy.consecutive - s.failuresInRow
  }

  predicate Budgeted(policy: Policy, s: Loop) {
    && s.done + s.blocked + |s.active| + |s.completed| <= policy.maxTasks
    && (s.active == [] || s.completed == [])
    && (policy.parallelism == 1 ==> s.active == [] && s.completed == [])
    && s.failuresInRow <= policy.consecutive
    && (!s.ended ==> s.failuresInRow < policy.consecutive)
    && (s.done == policy.maxTasks ==> s.failuresInRow == 0)
    && |s.outcomes| + Left(policy, s) <= policy.maxTasks * policy.consecutive
  }

  lemma LeftIsNatural(policy: Policy, s: Loop)
    requires Budgeted(policy, s)
    ensures Left(policy, s) >= 0
    ensures |s.outcomes| <= policy.maxTasks * policy.consecutive
  {
    if s.done < policy.maxTasks {
      assert (policy.maxTasks - s.done) * policy.consecutive >= 1 * policy.consecutive by {
        MulMonotone(1, policy.maxTasks - s.done, policy.consecutive);
      }
    }
  }

  lemma MulMonotone(a: nat, b: nat, c: nat)
    requires a <= b
    ensures a * c <= b * c
  {
  }

  // A failure that does not stop the loop leaves room for another one.
  lemma ContinuingFailure(policy: Policy, w: World, s: Loop, m: Member)
    requires !m.result.ok && !Judge(policy, w, s, m).stop
    ensures s.failuresInRow + 1 < policy.consecutive
  {
  }

  lemma LeftAfterSuccess(policy: Policy, s: Loop)
    requires s.failuresInRow < policy.consecutive
    ensures (policy.maxTasks - (s.done + 1)) * policy.consecutive < Left(policy, s)
  {
    assert (policy.maxTasks - (s.done + 1)) * policy.consecutive
           == (policy.maxTasks - s.done) * policy.consecutive - policy.consecutive;
  }

  // Processing one outcome spends budget. `s` has already lost the member it processes.
  lemma SettleKeepsBudget(policy: Policy, w: World, s: Loop, m: Member)
    requires Budgeted(policy, s) && !s.ended
    requires s.done + s.blocked + |s.active| + |s.completed| < policy.maxTasks
    ensures Budgeted(policy, Settle(policy, w, s, m))
    ensures Left(policy, Settle(policy, w, s, m)) < Left(policy, s)
  {
    var s' := Settle(policy, w, s, m);
    if m.result.ok {
      LeftAfterSuccess(policy, s);
      assert s'.done == s.done + 1 && s'.failuresInRow == 0;
    } else if !s'.ended {
      ContinuingFailure(policy, w, s, m);
    }
  }

  lemma {:induction false} OnlySizes(wave: seq<Member>)
    ensures |Only(wave, 0)| + |Only(wave, 1)| + |Only(wave, 2)| == |wave|
  {
    if wave != [] {
      OnlySizes(wave[1..]);
    }
  }

  lemma SortedSize(wave: seq<Member>)
    ensures |Sorted(wave)| == |wave|
  {
    OnlySizes(wave);
  }

  lemma DispatchKeepsBudget(policy: Policy, s: Loop, t: Turn)
    requires Budgeted(policy, s) && !s.ended && policy.parallelism != 1
    ensures var d := Dispatched(policy, s, t);
            && Budgeted(policy, d) && Left(policy, d) == Left(policy, s)
            && (!d.ended && d.active == [] ==> d == s && (s.completed != [] || s.stopped))
            && (d.active != [] && s.active != [] ==> d == s)
  {
  }

  lemma GatherKeepsBudget(policy: Policy, w: World, s: Loop)
    requires Budgeted(policy, s) && s.active != []
    ensures Budgeted(policy, Gather(w, s)) && Left(policy, Gather(w, s)) == Left(policy, s)
    ensures Gather(w, s).completed != [] && Gather(w, s).active == []
  {
    var wave := Reports(w, s.active);
    SortedSize(wave);
    SortedSize(CancelCandidates(w, wave));
  }

  // With a member in hand there is room for its outcome.
  predicate PulledOk(policy: Policy, s: Loop, p: Pulled) {
    && Left(policy, p.loop) == Left(policy, s)
    && (if p.member.Some?
        then !p.loop.ended && p.loop.done + p.loop.blocked + |p.loop.active| + |p.loop.completed| < policy.maxTasks
        else p.loop.ended || (p.loop.active != [] && (s.active == [] || p.loop.waiting < s.waiting)))
    && Budgeted(policy, p.loop)
  }

  lemma TakeBudgeted(policy: Policy, w: World, s: Loop)
    requires Budgeted(policy, s) && !s.ended && s.completed != []
    ensures PulledOk(policy, s, Take(policy, w, s)) && Take(policy, w, s).member.Some?
  {
  }

  lemma CollectBudgeted(policy: Policy, w: World, s: Loop)
    requires Budgeted(policy, s) && !s.ended && (s.active != [] || s.completed != [] || s.stopped)
    ensures PulledOk(policy, s, Collect(policy, w, s))
    ensures Collect(policy, w, s).member.Some? || Collect(policy, w, s).loop.ended
  {
    if s.active != [] {
      GatherKeepsBudget(policy, w, s);
      TakeBudgeted(policy, w, Gather(w, s));
    } else if s.completed != [] {
      TakeBudgeted(policy, w, s);
    }
  }

  lemma ParallelBudgeted(policy: Policy, w: World, s: Loop, t: Turn)
    requires Budgeted(policy, s) && !s.ended && policy.parallelism != 1
    ensures PulledOk(policy, s, ParallelPull(policy, w, s, t))
  {
    DispatchKeepsBudget(policy, s, t);
    var d := Dispatched(policy, s, t);
    if !d.ended && !StillRunning(d) {
      CollectBudgeted(policy, w, d);
    }
  }

  // The head of a pass changes nothing else.
  predicate Heads(a: Loop, b: Loop) {
    b == a.(pass := b.pass, reason := b.reason, stopped := b.stopped, ended := b.ended)
  }

  lemma HaltFrame(policy: Policy, s: Loop, present: bool, reason: string)
    ensures Heads(s, Halt(policy, s, present, reason))
  {
  }

  lemma HeadsChain(a: Loop, b: Loop, c: Loop)
    requires Heads(a, b) && Heads(b, c)
    ensures Heads(a, c)
  {
  }

  lemma ReadStopsFrame(policy: Policy, s: Loop, t: Turn)
    ensures Heads(s, ReadStops(policy, s, t))
  {
    var a := Halt(policy, s, t.globalStop, "global_stop_file");
    var b := Halt(policy, a, t.stopFile, "stop_file");
    HaltFrame(policy, s, t.globalStop, "global_stop_file");
    HaltFrame(policy, a, t.stopFile, "stop_file");
    HaltFrame(policy, b, t.timeUp, "time_budget_exhausted");
    HeadsChain(s, a, b);
    HeadsChain(s, b, ReadStops(policy, s, t));
  }

  lemma BegunFrame(policy: Policy, s: Loop)
    ensures Heads(s, Begun(policy, s)) && (!Begun(policy, s).ended ==> Guard(policy, s))
  {
  }

  lemma StopsStay(policy: Policy, s: Loop, t: Turn)
    requires s.ended
    ensures ReadStops(policy, s, t).ended
  {
  }

  lemma OpenedFrame(policy: Policy, w: World, s: Loop)
    ensures Heads(s, Opened(policy, w, s))
    ensures !Opened(policy, w, s).ended ==> Guard(policy, s)
  {
    var begun := Begun(policy, s);
    BegunFrame(policy, s);
    ReadStopsFrame(policy, begun, TurnAt(w, s.pass));
    HeadsChain(s, begun, Opened(policy, w, s));
    if begun.ended {
      StopsStay(policy, begun, TurnAt(w, s.pass));
    }
  }

  lemma HeadsBudgeted(policy: Policy, a: Loop, b: Loop)
    requires Budgeted(policy, a) && !a.ended && Heads(a, b)
    ensures Budgeted(policy, b) && Left(policy, b) == Left(policy, a)
  {
  }

  lemma PullFromBudgeted(policy: Policy, w: World, s: Loop, t: Turn)
    requires Budgeted(policy, s) && (!s.ended ==> Guard(policy, s))
    ensures PulledOk(policy, s, PullFrom(policy, w, s, t))
  {
    if !s.ended && policy.parallelism != 1 {
      ParallelBudgeted(policy, w, s, t);
    }
  }

  lemma PullBudgeted(policy: Policy, w: World, s: Loop)
    requires Budgeted(policy, s) && !s.ended
    ensures PulledOk(policy, s, Pull(policy, w, s))
  {
    OpenedFrame(policy, w, s);
    HeadsBudgeted(policy, s, Opened(policy, w, s));
    PullFromBudgeted(policy, w, Opened(policy, w, s), TurnAt(w, s.pass));
  }

  // The measure of the loop: outcomes left, then whether a wave runs, then its delay.
  predicate Advances(policy: Policy, a: Loop, b: Loop) {
    b.ended
    || Left(policy, b) < Left(policy, a)
    || (Left(policy, b) == Left(policy, a) && b.active != [] && (a.active == [] || b.waiting < a.waiting))
  }

  // Every pass keeps the budget and comes nearer to the end.
  lemma PassKeepsBudget(policy: Policy, w: World, s: Loop)
    requires Budgeted(policy, s) && !s.ended
    ensures Budgeted(policy, Pass(policy, w, s)) && Advances(policy, s, Pass(policy, w, s))
  {
    PullBudgeted(policy, w, s);
    var p := Pull(policy, w, s);
    if p.member.Some? {
      SettleKeepsBudget(policy, w, p.loop, p.member.value);
    }
  }

  // ------------------------------------------------------------- run.yaml agrees

  predicate Agrees(s: Loop) {
    s.summary.done == s.done && s.summary.blocked == s.blocked && s.summary.failuresInRow == s.failuresInRow
  }

  lemma SettleAgrees(policy: Policy, w: World, s: Loop, m: Member)
    requires Agrees(s)
    ensures Agrees(Settle(policy, w, s, m))
  {
  }

  // What a pass does before its outcome leaves the counters alone.
  predicate SameCounters(a: Loop, b: Loop) {
    && b.done == a.done && b.blocked == a.blocked && b.failuresInRow == a.failuresInRow
    && b.failures == a.failures && b.scheduled == a.scheduled && b.summary == a.summary && b.outcomes == a.outcomes
  }

  lemma DispatchedCounters(policy: Policy, s: Loop, t: Turn)
    ensures SameCounters(s, Dispatched(policy, s, t))
  {
  }

  lemma GatherCounters(w: World, s: Loop)
    ensures SameCounters(s, Gather(w, s))
  {
  }

  lemma TakeCounters(policy: Policy, w: World, s: Loop)
    requires s.completed != []
    ensures SameCounters(s, Take(policy, w, s).loop)
  {
  }

  lemma CollectCounters(policy: Policy, w: World, s: Loop)
    ensures SameCounters(s, Collect(policy, w, s).loop)
  {
    GatherCounters(w, s);
    var g := if s.active != [] then Gather(w, s) else s;
    if g.completed != [] {
      TakeCounters(policy, w, g);
    }
  }

  lemma ParallelPullCounters(policy: Policy, w: World, s: Loop, t: Turn)
    ensures SameCounters(s, ParallelPull(policy, w, s, t).loop)
  {
    DispatchedCounters(policy, s, t);
    CollectCounters(policy, w, Dispatched(policy, s, t));
  }

  lemma PullFromCounters(policy: Policy, w: World, s: Loop, t: Turn)
    ensures SameCounters(s, PullFrom(policy, w, s, t).loop)
  {
    if !s.ended && policy.parallelism != 1 {
      ParallelPullCounters(policy, w, s, t);
    }
  }

  lemma PullCounters(policy: Policy, w: World, s: Loop)
    ensures SameCounters(s, Pull(policy, w, s).loop)
  {
    OpenedFrame(policy, w, s);
    PullFromCounters(policy, w, Opened(policy, w, s), TurnAt(w, s.pass));
  }

  // The counters in run.yaml are the loop's own at the head of every pass.
  lemma PassAgrees(policy: Policy, w: World, s: Loop)
    requires Agrees(s)
    ensures Agrees(Pass(policy, w, s))
  {
    PullCounters(policy, w, s);
    var p := Pull(policy, w, s);
    if p.member.Some? {
      SettleAgrees(policy, w, p.loop, p.member.value);
    }
  }

  // ------------------------------------------------------------- retries

  // A task is put back at most sameTask - 1 times, each time for one more failure.
  ghost predicate RetriesBounded(policy: Policy, s: Loop) {
    forall t: TaskId :: Get(s.scheduled, t) <= Get(s.failures, t) && Get(s.scheduled, t) <= policy.sameTask - 1
  }

  lemma ClassifyCounts(policy: Policy, w: World, s: Loop, m: Member)
    ensures var v := Classify(policy, w, s, m);
            && !v.retried
            && (v.failures == s.failures
                || (m.result.task.Some? && v.failures == Failed(s.failures, m.result.task.value)))
            && (m.result.status in RETRYABLE_FAILURE && m.result.task.Some? && !v.stop ==>
                  v.failures == Failed(s.failures, m.result.task.value))
  {
  }

  lemma JudgeRetries(policy: Policy, w: World, s: Loop, m: Member)
    ensures var v := Judge(policy, w, s, m);
            && (v.failures == s.failures
                || (m.result.task.Some? && v.failures == Failed(s.failures, m.result.task.value)))
            && (v.retried ==>
                  && m.result.task.Some? && m.result.status in RETRYABLE_FAILURE
                  && v.failures == Failed(s.failures, m.result.task.value)
                  && Get(v.failures, m.result.task.value) < policy.sameTask)
  {
    ClassifyCounts(policy, w, s, m);
  }

  lemma SettleKeepsRetries(policy: Policy, w: World, s: Loop, m: Member)
    requires RetriesBounded(policy, s)
    ensures RetriesBounded(policy, Settle(policy, w, s, m))
  {
    JudgeRetries(policy, w, s, m);
  }

  lemma PassKeepsRetries(policy: Policy, w: World, s: Loop)
    requires RetriesBounded(policy, s)
    ensures RetriesBounded(policy, Pass(policy, w, s))
  {
    PullCounters(policy, w, s);
    var p := Pull(policy, w, s);
    if p.member.Some? {
      SettleKeepsRetries(policy, w, p.loop, p.member.value);
    }
  }

  // ------------------------------------------------------------- candidates are conserved

  // The children lo+1 .. hi whose worker ended with a candidate.
  function Ready(w: World, lo: nat, hi: nat): multiset<Child>
    requires lo <= hi
    decreases hi
  {
    if lo == hi then multiset{}
    else Ready(w, lo, hi - 1) + (if w.worker(C(hi)).status == "candidate_ready" then multiset{C(hi)} else multiset{})
  }

  // Active workers are the youngest children, in order.
  predicate Numbered(s: Loop) {
    |s.active| <= s.children && From(s.active, s.children - |s.active|)
  }

  // Every candidate is landed, released, waiting to be processed or still being made.
  predicate Conserved(w: World, s: Loop) {
    Numbered(s)
    && s.landed + s.released + Candidates(s.completed) + Ready(w, s.children - |s.active|, s.children)
       == Ready(w, 0, s.children)
  }

  lemma {:induction false} ReadySplits(w: World, lo: nat, mid: nat, hi: nat)
    requires lo <= mid <= hi
    ensures Ready(w, lo, hi) == Ready(w, lo, mid) + Ready(w, mid, hi)
    decreases hi
  {
    if mid < hi {
      ReadySplits(w, lo, mid, hi - 1);
    }
  }

  lemma {:induction false} ReadyOnce(w: World, lo: nat, hi: nat, c: Child)
    requires lo <= hi
    ensures Ready(w, lo, hi)[c] == if lo < c.n <= hi && w.worker(c).status == "candidate_ready" then 1 else 0
    decreases hi
  {
    if lo < hi {
      ReadyOnce(w, lo, hi - 1, c);
    }
  }

  function One(m: Member): multiset<Child> {
    if IsCandidate(m) then multiset{m.child} else multiset{}
  }

  lemma AddAssociates(a: multiset<Child>, b: multiset<Child>, c: multiset<Child>)
    ensures a + (b + c) == (a + b) + c
  {
  }

  lemma CandidatesCons(m: Member, rest: seq<Member>)
    ensures Candidates([m] + rest) == One(m) + Candidates(rest)
  {
    assert ([m] + rest)[1..] == rest;
  }

  lemma CandidatesHead(ms: seq<Member>)
    requires ms != []
    ensures Candidates(ms) == One(ms[0]) + Candidates(ms[1..])
  {
  }

  lemma TailOfConcat(a: seq<Member>, b: seq<Member>)
    requires a != []
    ensures (a + b)[1..] == a[1..] + b && (a + b)[0] == a[0]
  {
  }

  lemma {:induction false} CandidatesAppend(a: seq<Member>, b: seq<Member>)
    ensures Candidates(a + b) == Candidates(a) + Candidates(b)
    decreases |a|
  {
    if a == [] {
      assert a + b == b;
    } else {
      CandidatesAppend(a[1..], b);
      TailOfConcat(a, b);
      CandidatesHead(a);
      CandidatesHead(a + b);
      AddAssociates(One(a[0]), Candidates(a[1..]), Candidates(b));
    }
  }

  lemma {:induction false} OnlyCandidatesHead(m: Member, rest: seq<Member>, key: nat)
    ensures Candidates(Only([m] + rest, key))
            == (if Key(m) == key then if IsCandidate(m) then multiset{m.child} else multiset{} else multiset{})
               + Candidates(Only(rest, key))
  {
    assert ([m] + rest)[1..] == rest;
    assert Only([m] + rest, key) == (if Key(m) == key then [m] else []) + Only(rest, key);
    CandidatesAppend(if Key(m) == key then [m] else [], Only(rest, key));
    assert [m][1..] == [];
  }

  lemma {:induction false} OnlyCandidates(wave: seq<Member>)
    ensures Candidates(Only(wave, 0)) + Candidates(Only(wave, 1)) + Candidates(Only(wave, 2)) == Candidates(wave)
  {
    if wave != [] {
      var m, rest := wave[0], wave[1..];
      OnlyCandidates(rest);
      assert wave == [m] + rest;
      OnlyCandidatesHead(m, rest, 0);
      OnlyCandidatesHead(m, rest, 1);
      OnlyCandidatesHead(m, rest, 2);
      OneOfThree(Key(m), if IsCandidate(m) then multiset{m.child} else multiset{},
                 Candidates(Only(rest, 0)), Candidates(Only(rest, 1)), Candidates(Only(rest, 2)));
    }
  }

  lemma OneOfThree(key: nat, one: multiset<Child>, a: multiset<Child>, b: multiset<Child>, c: multiset<Child>)
    requires key < 3
    ensures var none: multiset<Child> := multiset{};
            ((if key == 0 then one else none) + a) + ((if key == 1 then one else none) + b)
            + ((if key == 2 then one else none) + c)
            == one + (a + b + c)
  {
  }

  lemma SortedCandidates(wave: seq<Member>)
    ensures Candidates(Sorted(wave)) == Candidates(wave)
  {
    OnlyCandidates(wave);
    CandidatesAppend(Only(wave, 0) + Only(wave, 1), Only(wave, 2));
    CandidatesAppend(Only(wave, 0), Only(wave, 1));
  }

  lemma {:induction false} CancelledAreNoCandidates(w: World, wave: seq<Member>)
    ensures Candidates(CancelCandidates(w, wave)) == multiset{}
  {
    if wave != [] {
      CancelledAreNoCandidates(w, wave[1..]);
      assert CancelCandidates(w, wave)[1..] == CancelCandidates(w, wave[1..]);
    }
  }

  lemma ReadyOne(w: World, lo: nat)
    ensures Ready(w, lo, lo + 1)
            == if w.worker(C(lo + 1)).status == "candidate_ready" then multiset{C(lo + 1)} else multiset{}
  {
    assert Ready(w, lo, lo) == multiset{};
  }

  // The attempts are the children after lo, in order.
  predicate From(active: seq<Attempt>, lo: nat) {
    forall i :: 0 <= i < |active| ==> active[i].child == C(lo + 1 + i)
  }

  lemma FromTail(active: seq<Attempt>, lo: nat)
    requires From(active, lo) && active != []
    ensures active[0].child == C(lo + 1) && From(active[1..], lo + 1)
  {
  }

  lemma ReadyFirst(w: World, lo: nat, hi: nat)
    requires lo < hi
    ensures Ready(w, lo, hi)
            == (if w.worker(C(lo + 1)).status == "candidate_ready" then multiset{C(lo + 1)} else multiset{})
               + Ready(w, lo + 1, hi)
  {
    ReadySplits(w, lo, lo + 1, hi);
    ReadyOne(w, lo);
  }

  lemma {:induction false} ReportsReady(w: World, active: seq<Attempt>, lo: nat, hi: nat)
    requires From(active, lo) && hi == lo + |active|
    ensures Candidates(Reports(w, active)) == Ready(w, lo, hi)
    decreases |active|
  {
    if active == [] {
      assert Ready(w, lo, lo) == multiset{};
    } else {
      FromTail(active, lo);
      ReportsReady(w, active[1..], lo + 1, hi);
      ReportsHead(w, active);
      ReadyFirst(w, lo, hi);
    }
  }

  lemma ReportsHead(w: World, active: seq<Attempt>)
    requires active != []
    ensures Candidates(Reports(w, active))
            == (if w.worker(active[0].child).status == "candidate_ready" then multiset{active[0].child} else multiset{})
               + Candidates(Reports(w, active[1..]))
  {
    assert Reports(w, active) == [Reported(w, active[0])] + Reports(w, active[1..]);
    CandidatesCons(Reported(w, active[0]), Reports(w, active[1..]));
  }

  lemma BrokenQueue(w: World, wave: seq<Member>)
    ensures Candidates(Sorted(CancelCandidates(w, wave))) == multiset{}
  {
    SortedCandidates(CancelCandidates(w, wave));
    CancelledAreNoCandidates(w, wave);
  }

  lemma GatherIs(w: World, s: Loop)
    requires s.completed == []
    ensures var g := Gather(w, s);
            var wave := Reports(w, s.active);
            && g.active == [] && g.children == s.children && g.landed == s.landed && g.wave == wave
            && g.order == g.completed
            && (if Broken(w, wave)
                then g.completed == Sorted(CancelCandidates(w, wave)) && g.released == s.released + Candidates(wave)
                else g.completed == Sorted(wave) && g.released == s.released)
  {
    assert [] + Sorted(Reports(w, s.active)) == Sorted(Reports(w, s.active));
    assert [] + Sorted(CancelCandidates(w, Reports(w, s.active))) == Sorted(CancelCandidates(w, Reports(w, s.active)));
  }

  // A broken wave's candidates are all released.
  lemma GatherBroken(w: World, s: Loop)
    requires s.completed == [] && Broken(w, Reports(w, s.active))
    ensures var g := Gather(w, s);
            Candidates(g.completed) == multiset{} && g.released == s.released + Candidates(Reports(w, s.active))
  {
    GatherIs(w, s);
    BrokenQueue(w, Reports(w, s.active));
  }

  // Any other wave's candidates are all queued.
  lemma GatherUnbroken(w: World, s: Loop)
    requires s.completed == [] && !Broken(w, Reports(w, s.active))
    ensures var g := Gather(w, s);
            Candidates(g.completed) == Candidates(Reports(w, s.active)) && g.released == s.released
  {
    GatherIs(w, s);
    SortedCandidates(Reports(w, s.active));
  }

  lemma GatherPlaces(w: World, s: Loop)
    ensures var g := Gather(w, s);
            g.active == [] && g.children == s.children && g.landed == s.landed
  {
  }

  lemma BalanceAfterWave(w: World, a: Loop, b: Loop, r: multiset<Child>)
    requires Conserved(w, a) && a.completed == [] && r == Ready(w, a.children - |a.active|, a.children)
    requires b.active == [] && b.children == a.children && b.landed == a.landed
    requires (b.released == a.released && Candidates(b.completed) == r)
             || (b.released == a.released + r && Candidates(b.completed) == multiset{})
    ensures Conserved(w, b)
  {
    assert Candidates(a.completed) == multiset{};
    assert Ready(w, b.children, b.children) == multiset{};
  }

  // A gathered wave's candidates are queued, or all released.
  lemma GatherConserves(w: World, s: Loop)
    requires Conserved(w, s) && s.completed == []
    ensures Conserved(w, Gather(w, s))
  {
    ReportsReady(w, s.active, s.children - |s.active|, s.children);
    GatherPlaces(w, s);
    if Broken(w, Reports(w, s.active)) {
      GatherBroken(w, s);
    } else {
      GatherUnbroken(w, s);
    }
    BalanceAfterWave(w, s, Gather(w, s), Candidates(Reports(w, s.active)));
  }

  lemma DispatchNumbers(policy: Policy, s: Loop, t: Turn)
    requires s.active == []
    ensures var d := Dispatch(policy, s, t);
            && Numbered(d) && d.children == s.children + |d.active|
            && d.landed == s.landed && d.released == s.released && d.completed == s.completed
  {
  }

  lemma DispatchConserves(policy: Policy, w: World, s: Loop, t: Turn)
    requires Conserved(w, s) && s.active == []
    ensures Conserved(w, Dispatch(policy, s, t))
  {
    DispatchNumbers(policy, s, t);
    DispatchedBalance(w, s, Dispatch(policy, s, t));
  }

  lemma DispatchedBalance(w: World, a: Loop, b: Loop)
    requires Conserved(w, a) && a.active == []
    requires Numbered(b) && b.children == a.children + |b.active|
    requires b.landed == a.landed && b.released == a.released && b.completed == a.completed
    ensures Conserved(w, b)
  {
    assert Ready(w, a.children, a.children) == multiset{};
    ReadySplits(w, 0, a.children, b.children);
  }

  // Settling an outcome touches no candidate.
  lemma SettleFrame(policy: Policy, w: World, s: Loop, m: Member)
    ensures var s' := Settle(policy, w, s, m);
            SamePlaces(s, s') && s'.waiting == s.waiting && s'.wave == s.wave && s'.order == s.order
  {
    var v := Judge(policy, w, s, m);
    CountedFrame(policy, w, Judged(w, s, m, v), m, v.blocked, v.stop);
  }

  lemma CountedFrame(policy: Policy, w: World, s: Loop, m: Member, blocked: bool, stop: bool)
    ensures var s' := Counted(policy, w, s, m, blocked, stop);
            SamePlaces(s, s') && s'.waiting == s.waiting && s'.wave == s.wave && s'.order == s.order
  {
  }

  lemma TakeFacts(policy: Policy, w: World, s: Loop)
    requires s.completed != []
    ensures var b := Take(policy, w, s).loop;
            var m := s.completed[0];
            var one := if IsCandidate(m) then multiset{m.child} else multiset{};
            && b.active == s.active && b.children == s.children && b.completed == s.completed[1..]
            && ((b.landed == s.landed + one && b.released == s.released)
                || (b.landed == s.landed && b.released == s.released + one))
  {
  }

  lemma TakenBalance(w: World, a: Loop, b: Loop)
    requires Conserved(w, a) && a.completed != []
    requires b.active == a.active && b.children == a.children && b.completed == a.completed[1..]
    requires var one := One(a.completed[0]);
             (b.landed == a.landed + one && b.released == a.released)
             || (b.landed == a.landed && b.released == a.released + one)
    ensures Conserved(w, b)
  {
    CandidatesHead(a.completed);
    OneMoves(a.landed, a.released, One(a.completed[0]), Candidates(b.completed), b.landed, b.released);
  }

  lemma OneMoves(landed: multiset<Child>, released: multiset<Child>, one: multiset<Child>, rest: multiset<Child>,
                 landed': multiset<Child>, released': multiset<Child>)
    requires (landed' == landed + one && released' == released) || (landed' == landed && released' == released + one)
    ensures landed' + released' + rest == landed + released + (one + rest)
  {
  }

  lemma CollectConserves(policy: Policy, w: World, s: Loop)
    requires Conserved(w, s) && (s.active == [] || s.completed == [])
    ensures Conserved(w, Collect(policy, w, s).loop)
  {
    if s.active != [] {
      GatherConserves(w, s);
    }
    var g := if s.active != [] then Gather(w, s) else s;
    if g.completed != [] {
      TakeFacts(policy, w, g);
      TakenBalance(w, g, Take(policy, w, g).loop);
    } else {
      SameBalance(w, g, Collect(policy, w, s).loop);
    }
  }

  // What conservation looks at.
  predicate SamePlaces(a: Loop, b: Loop) {
    && b.active == a.active && b.completed == a.completed && b.children == a.children
    && b.landed == a.landed && b.released == a.released
  }

  lemma SameBalance(w: World, a: Loop, b: Loop)
    requires SamePlaces(a, b)
    ensures Conserved(w, a) ==> Conserved(w, b)
  {
  }

  lemma ParallelConserves(policy: Policy, w: World, s: Loop, t: Turn)
    requires Conserved(w, s) && (s.active == [] || s.completed == [])
    ensures Conserved(w, ParallelPull(policy, w, s, t).loop)
  {
    var d := Dispatched(policy, s, t);
    if s.active == [] && s.completed == [] && !s.stopped {
      DispatchConserves(policy, w, s, t);
      DispatchNumbers(policy, s, t);
    }
    if !d.ended && !StillRunning(d) {
      CollectConserves(policy, w, d);
    } else {
      SameBalance(w, d, ParallelPull(policy, w, s, t).loop);
    }
  }

  lemma PullFromConserves(policy: Policy, w: World, s: Loop, t: Turn)
    requires Conserved(w, s) && policy.parallelism != 1 && (s.active == [] || s.completed == [])
    ensures Conserved(w, PullFrom(policy, w, s, t).loop)
  {
    if !s.ended {
      ParallelConserves(policy, w, s, t);
    }
  }

  lemma PullConserves(policy: Policy, w: World, s: Loop)
    requires Conserved(w, s) && policy.parallelism != 1 && (s.active == [] || s.completed == [])
    ensures Conserved(w, Pull(policy, w, s).loop)
  {
    OpenedFrame(policy, w, s);
    SameBalance(w, s, Opened(policy, w, s));
    PullFromConserves(policy, w, Opened(policy, w, s), TurnAt(w, s.pass));
  }

  lemma PassConserves(policy: Policy, w: World, s: Loop)
    requires Conserved(w, s) && policy.parallelism != 1 && (s.active == [] || s.completed == [])
    ensures Conserved(w, Pass(policy, w, s))
  {
    PullConserves(policy, w, s);
    var p := Pull(policy, w, s);
    if p.member.Some? {
      SettleFrame(policy, w, p.loop, p.member.value);
      SameBalance(w, p.loop, Settle(policy, w, p.loop, p.member.value));
    }
  }

  // ------------------------------------------------------------- the wave circuit breaker

  predicate Ordered(order: seq<Member>) {
    forall i, j :: 0 <= i < j < |order| ==> Key(order[i]) <= Key(order[j])
  }

  predicate NoCandidate(order: seq<Member>) {
    forall i :: 0 <= i < |order| ==> !IsCandidate(order[i])
  }

  // A worker that reports a candidate reports success.
  ghost predicate Sane(w: World) {
    forall c: Child :: w.worker(c).status == "candidate_ready" ==> w.worker(c).ok
  }

  // What is still to be processed is the end of the ordered wave.
  predicate WaveOk(w: World, s: Loop) {
    && |s.completed| <= |s.order| && s.completed == s.order[|s.order| - |s.completed|..]
    && Ordered(s.order)
    && (Broken(w, s.wave) ==> NoCandidate(s.order))
    && (!Broken(w, s.wave) ==> multiset(s.order) == multiset(s.wave))
    && (forall i :: 0 <= i < |s.order| && IsCandidate(s.order[i]) ==> Key(s.order[i]) == 1)
  }

  lemma {:induction false} OnlyKeys(wave: seq<Member>, key: nat)
    ensures forall i :: 0 <= i < |Only(wave, key)| ==> Key(Only(wave, key)[i]) == key && Only(wave, key)[i] in wave
  {
    if wave != [] {
      OnlyKeys(wave[1..], key);
    }
  }

  lemma {:induction false} OnlyMembers(wave: seq<Member>)
    ensures multiset(Only(wave, 0)) + multiset(Only(wave, 1)) + multiset(Only(wave, 2)) == multiset(wave)
  {
    if wave != [] {
      OnlyMembers(wave[1..]);
      assert wave == [wave[0]] + wave[1..];
    }
  }

  lemma SortedIsOrdered(wave: seq<Member>)
    ensures Ordered(Sorted(wave)) && multiset(Sorted(wave)) == multiset(wave)
  {
    OnlyKeys(wave, 0);
    OnlyKeys(wave, 1);
    OnlyKeys(wave, 2);
    OnlyMembers(wave);
  }

  lemma SortedKeeps(wave: seq<Member>, i: nat)
    requires i < |Sorted(wave)|
    ensures Sorted(wave)[i] in wave
  {
    SortedIsOrdered(wave);
    assert Sorted(wave)[i] in multiset(Sorted(wave));
  }

  lemma CancelledHasNoCandidate(w: World, wave: seq<Member>)
    ensures NoCandidate(Sorted(CancelCandidates(w, wave)))
  {
    var order := Sorted(CancelCandidates(w, wave));
    forall i | 0 <= i < |order|
      ensures !IsCandidate(order[i])
    {
      SortedKeeps(CancelCandidates(w, wave), i);
    }
  }

  lemma ReportedCandidatesAreOk(w: World, active: seq<Attempt>)
    requires Sane(w)
    ensures forall i :: 0 <= i < |Sorted(Reports(w, active))| && IsCandidate(Sorted(Reports(w, active))[i])
                        ==> Key(Sorted(Reports(w, active))[i]) == 1
  {
    var order := Sorted(Reports(w, active));
    forall i | 0 <= i < |order| && IsCandidate(order[i])
      ensures Key(order[i]) == 1
    {
      SortedKeeps(Reports(w, active), i);
    }
  }

  lemma GatherWave(w: World, s: Loop)
    requires s.completed == [] && Sane(w)
    ensures WaveOk(w, Gather(w, s))
  {
    var wave := Reports(w, s.active);
    GatherIs(w, s);
    SortedIsOrdered(wave);
    SortedIsOrdered(CancelCandidates(w, wave));
    CancelledHasNoCandidate(w, wave);
    ReportedCandidatesAreOk(w, s.active);
  }

  // Position of the member just taken.
  function Taken(s: Loop): int {
    |s.order| - |s.completed| - 1
  }

  // The candidate landed last was cleared: its wave has no P0/P1 failure, and every failed
  // member of the wave came before it, without ending the loop.
  predicate Cleared(w: World, s: Loop) {
    && 0 <= Taken(s) < |s.order| && IsCandidate(s.order[Taken(s)])
    && !Broken(w, s.wave)
    && multiset(s.order) == multiset(s.wave)
    && forall i :: Taken(s) <= i < |s.order| ==> Key(s.order[i]) >= 1
  }

  lemma TakenWave(w: World, a: Loop, b: Loop)
    requires WaveOk(w, a) && a.completed != []
    requires b.completed == a.completed[1..] && b.order == a.order && b.wave == a.wave
    ensures WaveOk(w, b)
    ensures IsCandidate(a.completed[0]) ==> Cleared(w, b)
  {
    var k := |a.order| - |a.completed|;
    assert a.completed[0] == a.order[k];
    assert a.completed[1..] == a.order[k + 1..];
  }

  lemma TakeLands(policy: Policy, w: World, s: Loop)
    requires s.completed != []
    ensures var b := Take(policy, w, s).loop;
            && b.completed == s.completed[1..] && b.order == s.order && b.wave == s.wave
            && (b.landed != s.landed ==> IsCandidate(s.completed[0]))
  {
  }

  lemma TakeWave(policy: Policy, w: World, s: Loop)
    requires WaveOk(w, s) && s.completed != []
    ensures var b := Take(policy, w, s).loop;
            WaveOk(w, b) && (b.landed != s.landed ==> Cleared(w, b))
  {
    TakeLands(policy, w, s);
    TakenWave(w, s, Take(policy, w, s).loop);
  }

  // The wave's part of the state.
  predicate SameWave(a: Loop, b: Loop) {
    b.completed == a.completed && b.order == a.order && b.wave == a.wave && b.landed == a.landed
  }

  lemma CollectWave(policy: Policy, w: World, s: Loop)
    requires WaveOk(w, s) && Sane(w) && (s.active == [] || s.completed == [])
    ensures var b := Collect(policy, w, s).loop;
            WaveOk(w, b) && (b.landed != s.landed ==> Cleared(w, b))
  {
    if s.active != [] {
      GatherWave(w, s);
    }
    var g := if s.active != [] then Gather(w, s) else s;
    if g.completed != [] {
      TakeWave(policy, w, g);
    }
  }

  lemma DispatchedWave(policy: Policy, s: Loop, t: Turn)
    ensures SameWave(s, Dispatched(policy, s, t))
    ensures s.active != [] || s.completed != [] ==> Dispatched(policy, s, t) == s
  {
  }

  lemma ParallelWave(policy: Policy, w: World, s: Loop, t: Turn)
    requires WaveOk(w, s) && Sane(w) && (s.active == [] || s.completed == [])
    ensures var b := ParallelPull(policy, w, s, t).loop;
            WaveOk(w, b) && (b.landed != s.landed ==> Cleared(w, b))
  {
    DispatchedWave(policy, s, t);
    var d := Dispatched(policy, s, t);
    if !d.ended && !StillRunning(d) {
      CollectWave(policy, w, d);
    }
  }

  lemma PullWave(policy: Policy, w: World, s: Loop)
    requires WaveOk(w, s) && Sane(w) && (s.active == [] || s.completed == [])
    ensures var b := Pull(policy, w, s).loop;
            WaveOk(w, b) && (b.landed != s.landed ==> Cleared(w, b))
  {
    OpenedFrame(policy, w, s);
    PullFromWave(policy, w, Opened(policy, w, s), TurnAt(w, s.pass));
  }

  lemma SerialWave(w: World, s: Loop, t: Turn)
    ensures SameWave(s, SerialPull(w, s, t).loop)
  {
  }

  lemma PullFromWave(policy: Policy, w: World, s: Loop, t: Turn)
    requires WaveOk(w, s) && Sane(w) && (s.active == [] || s.completed == [])
    ensures var b := PullFrom(policy, w, s, t).loop;
            WaveOk(w, b) && (b.landed != s.landed ==> Cleared(w, b))
  {
    if s.ended {
    } else if policy.parallelism == 1 {
      SerialWave(w, s, t);
      SameWaveKeeps(w, s, SerialPull(w, s, t).loop);
    } else {
      ParallelWave(policy, w, s, t);
    }
  }

  // A pass lands a candidate only when its wave is cleared.
  lemma PassLandsOnlyCleared(policy: Policy, w: World, s: Loop)
    requires WaveOk(w, s) && Sane(w) && (s.active == [] || s.completed == [])
    ensures WaveOk(w, Pass(policy, w, s))
    ensures Pass(policy, w, s).landed != s.landed ==> Cleared(w, Pass(policy, w, s))
  {
    PullWave(policy, w, s);
    var p := Pull(policy, w, s);
    if p.member.Some? {
      SettleFrame(policy, w, p.loop, p.member.value);
      SameWaveKeeps(w, p.loop, Settle(policy, w, p.loop, p.member.value));
    }
  }

  lemma SameWaveKeeps(w: World, a: Loop, b: Loop)
    requires SameWave(a, b)
    ensures WaveOk(w, a) == WaveOk(w, b) && Cleared(w, a) == Cleared(w, b)
  {
  }

  // The member's review has neither a P0 nor a P1 finding.
  predicate NoFindings(w: World, m: Member) {
    m.result.task.Some? ==> w.findings(m.child).p0 == 0 && w.findings(m.child).p1 == 0
  }

  // A cleared candidate's wave: each member with a P0/P1 finding succeeded, and each failed
  // member that no breaker cancelled has been processed before it.
  lemma ClearedMeans(w: World, s: Loop, i: nat)
    requires Cleared(w, s) && i < |s.wave|
    ensures !s.wave[i].result.ok ==> NoFindings(w, s.wave[i])
    ensures !s.wave[i].result.ok && s.wave[i].result.status != "cancelled_by_breaker" ==>
              s.wave[i] in s.order[..Taken(s)]
  {
    UnbrokenMember(w, s.wave, i);
    assert s.wave[i] in multiset(s.wave);
    assert s.wave[i] in multiset(s.order);
    var k :| 0 <= k < |s.order| && s.order[k] == s.wave[i];
    if k < Taken(s) {
      assert s.order[..Taken(s)][k] == s.wave[i];
    }
  }

  lemma {:induction false} UnbrokenMember(w: World, wave: seq<Member>, i: nat)
    requires !Broken(w, wave) && i < |wave|
    ensures !BreaksWave(w, wave[i])
  {
    if i > 0 {
      UnbrokenMember(w, wave[1..], i - 1);
    }
  }

  // ------------------------------------------------------------- whole runs

  ghost predicate Inv(policy: Policy, w: World, s: Loop) {
    && Budgeted(policy, s) && Agrees(s) && RetriesBounded(policy, s)
    && (policy.parallelism != 1 ==> Conserved(w, s) && WaveOk(w, s))
  }

  lemma StartInv(policy: Policy, w: World)
    ensures Inv(policy, w, START)
  {
    assert Ready(w, 0, 0) == multiset{};
    assert Broken(w, []) == false;
    assert START.order[0..] == [];
  }

  lemma PassKeepsInv(policy: Policy, w: World, s: Loop)
    requires Inv(policy, w, s) && Sane(w) && !s.ended
    ensures Inv(policy, w, Pass(policy, w, s)) && Advances(policy, s, Pass(policy, w, s))
    ensures policy.parallelism != 1 && Pass(policy, w, s).landed != s.landed ==> Cleared(w, Pass(policy, w, s))
  {
    PassKeepsBudget(policy, w, s);
    PassAgrees(policy, w, s);
    PassKeepsRetries(policy, w, s);
    if policy.parallelism != 1 {
      PassConserves(policy, w, s);
      PassLandsOnlyCleared(policy, w, s);
    }
  }

  // No child runs on when the loop has ended.
  lemma ExactlyOnce(w: World, s: Loop, c: Child)
    requires Conserved(w, s) && s.active == []
    ensures var end := Leftovers(s);
            end.landed[c] + end.released[c]
            == if 0 < c.n <= s.children && w.worker(c).status == "candidate_ready" then 1 else 0
  {
    assert Ready(w, s.children, s.children) == multiset{};
    ReadyOnce(w, 0, s.children, c);
    assert Leftovers(s).landed + Leftovers(s).released == Ready(w, 0, s.children);
  }

  function Continue(policy: Policy, w: World, s: Loop): Loop {
    if s.ended then s else Pass(policy, w, s)
  }

  lemma ContinueKeepsInv(policy: Policy, w: World, s: Loop)
    requires Inv(policy, w, s) && Sane(w)
    ensures Inv(policy, w, Continue(policy, w, s))
  {
    if !s.ended {
      PassKeepsInv(policy, w, s);
    }
  }

  // The loop's state after n passes.
  function After(policy: Policy, w: World, n: nat): Loop {
    if n == 0 then START else Continue(policy, w, After(policy, w, n - 1))
  }

  lemma {:induction false} EveryStateInv(policy: Policy, w: World, n: nat)
    requires Sane(w)
    ensures Inv(policy, w, After(policy, w, n))
  {
    if n == 0 {
      StartInv(policy, w);
    } else {
      EveryStateInv(policy, w, n - 1);
      ContinueKeepsInv(policy, w, After(policy, w, n - 1));
    }
  }

  // The wave circuit breaker, in every run: a candidate lands only if no failed member of its
  // wave has a P0/P1 finding, and every failed member that no breaker cancelled has already
  // been processed and has not stopped the loop.
  lemma CircuitBreaker(policy: Policy, w: World, n: nat, i: nat)
    requires Sane(w) && policy.parallelism != 1
    requires After(policy, w, n + 1).landed != After(policy, w, n).landed
    requires i < |After(policy, w, n + 1).wave|
    ensures var s := After(policy, w, n + 1);
            var m := s.wave[i];
            && !After(policy, w, n).ended
            && (!m.result.ok ==> NoFindings(w, m))
            && 0 <= Taken(s) < |s.order|
            && (!m.result.ok && m.result.status != "cancelled_by_breaker" ==> m in s.order[..Taken(s)])
  {
    EveryStateInv(policy, w, n);
    PassKeepsInv(policy, w, After(policy, w, n));
    ClearedMeans(w, After(policy, w, n + 1), i);
  }
}
