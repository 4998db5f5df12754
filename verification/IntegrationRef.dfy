/**
 * The integration branch: one Git ref that every process moves only by
 * compare-and-swap.
 *
 * Each method below runs one git command after another, and other processes may
 * run any number of their own between two commands. `Others` stands for them: it
 * replays an arbitrary list of update-ref calls. The only thing known about such
 * a call is that it asks for a forward move (`Forward`), and each method proves
 * the same of the calls it issues itself, so the argument closes over any number
 * of processes running these methods at once.
 */
module IntegrationRef {
  import opened Wrappers
  import opened Commits

  // git update-ref <branch> <next> <expected>; no expected value means "must not exist"
  datatype UpdateRef = UpdateRef(expected: Option<Commit>, next: Commit)

  datatype GitError = Diverged | CannotFastForward | CasLost | PushFailed

  predicate Forward(call: UpdateRef) {
    call.expected.Some? ==> IsAncestor(call.expected.value, call.next)
  }

  predicate AllForward(calls: seq<UpdateRef>) {
    forall i :: 0 <= i < |calls| ==> Forward(calls[i])
  }

  function ApplyCall(head: Option<Commit>, call: UpdateRef): Option<Commit> {
    if head == call.expected then Some(call.next) else head
  }

  function ApplyCalls(head: Option<Commit>, calls: seq<UpdateRef>): Option<Commit>
    decreases |calls|
  {
    if calls == [] then head else ApplyCalls(ApplyCall(head, calls[0]), calls[1..])
  }

  // The ref still names a branch, and everything that was reachable from it still is.
  predicate Advances(before: Option<Commit>, after: Option<Commit>) {
    before.Some? ==> after.Some? && IsAncestor(before.value, after.value)
  }

  lemma {:induction false} ApplyConcat(head: Option<Commit>, a: seq<UpdateRef>, b: seq<UpdateRef>)
    ensures ApplyCalls(head, a + b) == ApplyCalls(ApplyCalls(head, a), b)
    decreases |a|
  {
    if a == [] {
      assert a + b == b;
    } else {
      assert (a + b)[1..] == a[1..] + b;
      ApplyConcat(ApplyCall(head, a[0]), a[1..], b);
    }
  }

  lemma AdvancesTransitive(a: Option<Commit>, b: Option<Commit>, c: Option<Commit>)
    requires Advances(a, b) && Advances(b, c)
    ensures Advances(a, c)
  {
    if a.Some? {
      AncestorTransitive(a.value, b.value, c.value);
    }
  }

  // No lost integration: over every interleaving of forward update-ref calls, by any
  // number of processes, whatever was reachable from the branch stays reachable.
  lemma {:induction false} NoLostIntegration(head: Option<Commit>, calls: seq<UpdateRef>, landed: Commit)
    requires AllForward(calls)
    ensures Advances(head, ApplyCalls(head, calls))
    ensures head.Some? && IsAncestor(landed, head.value) ==>
              ApplyCalls(head, calls).Some? && IsAncestor(landed, ApplyCalls(head, calls).value)
    decreases |calls|
  {
    if calls != [] {
      var next := ApplyCall(head, calls[0]);
      assert Forward(calls[0]);
      NoLostIntegration(next, calls[1..], landed);
      AdvancesTransitive(head, next, ApplyCalls(next, calls[1..]));
    }
    if head.Some? && IsAncestor(landed, head.value) {
      AncestorTransitive(landed, head.value, ApplyCalls(head, calls).value);
    }
  }

  // A branch that moved away from a commit never comes back to it, so a stale
  // compare-and-swap stays stale.
  lemma {:induction false} StaleStaysStale(expected: Commit, head: Commit, calls: seq<UpdateRef>)
    requires AllForward(calls) && IsAncestor(expected, head) && expected != head
    ensures ApplyCalls(Some(head), calls) != Some(expected)
  {
    NoLostIntegration(Some(head), calls, head);
    if ApplyCalls(Some(head), calls) == Some(expected) {
      AncestorAntisymmetric(expected, head);
    }
  }

  // What a worktree's start commit must be when nobody else touches the branch.
  function QuietStart(head: Option<Commit>, base: Commit): Result<Commit, GitError> {
    if head.None? then Ok(base)
    else if IsAncestor(base, head.value) then Ok(head.value)
    else if IsAncestor(head.value, base) then Ok(base)
    else Err(Diverged)
  }

  class Branch {
    var head: Option<Commit>

    constructor ()
      ensures head == None
    {
      head := None;
    }

    // One atomic compare-and-swap.
    method Update(call: UpdateRef) returns (ok: bool)
      modifies this
      ensures head == ApplyCall(old(head), call)
      ensures ok <==> old(head) == call.expected
    {
      ok := head == call.expected;
      if ok {
        head := Some(call.next);
      }
    }

    // Whatever other processes do between two git commands of this one.
    method Others(calls: seq<UpdateRef>)
      modifies this
      ensures head == ApplyCalls(old(head), calls)
    {
      var i := 0;
      while i < |calls|
        invariant 0 <= i <= |calls|
        invariant ApplyCalls(head, calls[i..]) == ApplyCalls(old(head), calls)
      {
        assert calls[i..][1..] == calls[i + 1..];
        var _ := Update(calls[i]);
        i := i + 1;
      }
    }

    /** Find or create the branch and return the commit a new worktree starts from.
        `env[k]` is what other processes do before the k-th git command. `trace` is
        every update-ref call that was made meanwhile, in order, and `own` those this
        process made. */
    method IntegrationStartSha(base: Commit, env: seq<seq<UpdateRef>>)
      returns (r: Result<Commit, GitError>, trace: seq<UpdateRef>, own: seq<UpdateRef>)
      requires |env| == 4 && forall k :: 0 <= k < 4 ==> AllForward(env[k])
      modifies this
      ensures AllForward(trace) && AllForward(own)
      ensures head == ApplyCalls(old(head), trace) && Advances(old(head), head)
      ensures r.Ok? ==> IsAncestor(base, r.value)
      ensures r.Ok? ==> head.Some? && IsAncestor(r.value, head.value)
      ensures r == Err(Diverged) ==> head.Some? && !IsAncestor(base, head.value) && !IsAncestor(head.value, base)
      ensures r == Err(CannotFastForward) ==>
                own != [] && own[|own| - 1].next == base && head != own[|own| - 1].expected
      ensures r.Ok? || r == Err(Diverged) || r == Err(CannotFastForward)
      ensures env == [[], [], [], []] ==> r == QuietStart(old(head), base)
      ensures env == [[], [], [], []] && r.Ok? ==> head == Some(r.value)
      ensures env == [[], [], [], []] && r.Err? ==> head == old(head)
    {
      trace, own := env[0], [];
      Others(env[0]);
      NoLostIntegration(old(head), trace, base);
      if head.None? {                                   // git show-ref
        Others(env[1]);
        ApplyConcat(old(head), trace, env[1]);
        trace := trace + env[1];
        var create := UpdateRef(None, base);
        var created := Update(create);
        ApplyConcat(old(head), trace, [create]);
        assert ApplyCalls(ApplyCalls(old(head), trace), [create]) == head by {
          assert [create][1..] == [];
        }
        trace, own := trace + [create], own + [create];
        NoLostIntegration(old(head), trace, base);
        if created {
          r := Ok(base);
          return;
        }
        // The create race was lost: fall through and read the winner.
      }
      var prefix := trace;
      Others(env[2]);
      ApplyConcat(old(head), prefix, env[2]);
      trace := prefix + env[2];
      NoLostIntegration(old(head), trace, base);
      ghost var atRead := head;
      assert Advances(ApplyCalls(old(head), prefix), head) by {
        NoLostIntegration(ApplyCalls(old(head), prefix), env[2], base);
      }
      var integration := head.value;                    // git rev-parse
      if IsAncestor(base, integration) {
        r := Ok(integration);
        return;
      }
      if !IsAncestor(integration, base) {
        r := Err(Diverged);
        return;
      }
      prefix := trace;
      Others(env[3]);
      ApplyConcat(old(head), prefix, env[3]);
      trace := prefix + env[3];
      NoLostIntegration(atRead, env[3], base);
      var forward := UpdateRef(Some(integration), base);
      var updated := Update(forward);
      ApplyConcat(old(head), trace, [forward]);
      assert [forward][1..] == [];
      trace, own := trace + [forward], own + [forward];
      NoLostIntegration(old(head), trace, base);
      r := if updated then Ok(base) else Err(CannotFastForward);
    }

    /** Move the branch to a verified commit, and push it when asked. A run without a
        commit moves nothing. `reviewedFrom` is the commit the worktree is known to
        descend from: `expectedOld` when the caller names one, else the worktree's
        recorded start. */
    method AdvanceIntegrationRef(commit: Option<Commit>, integrationBase: Commit,
                                 expectedOld: Option<Commit>, push: bool, pushOk: bool)
      returns (r: Result<(), GitError>, own: seq<UpdateRef>)
      requires commit.Some? ==>
                 IsAncestor(if expectedOld.Some? then expectedOld.value else integrationBase, commit.value)
      modifies this
      ensures AllForward(own) && head == ApplyCalls(old(head), own) && Advances(old(head), head)
      ensures commit.None? ==> own == []
      ensures var swapped := commit.Some?
                && old(head) == Some(if expectedOld.Some? then expectedOld.value else integrationBase);
              && head == (if swapped then commit else old(head))
              && (r == Err(CasLost) <==> commit.Some? && !swapped)
              && (r == Err(PushFailed) <==> swapped && push && !pushOk)
              && (r.Ok? <==> commit.None? || (swapped && (push ==> pushOk)))
    {
      own := [];
      if commit.None? {
        r := Ok(());
        return;
      }
      var expected := if expectedOld.Some? then expectedOld.value else integrationBase;
      var call := UpdateRef(Some(expected), commit.value);
      var updated := Update(call);
      own := [call];
      assert [call][1..] == [];
      NoLostIntegration(old(head), own, expected);
      if !updated {
        r := Err(CasLost);
      } else if push && !pushOk {
        r := Err(PushFailed);
      } else {
        r := Ok(());
      }
    }
  }
}
