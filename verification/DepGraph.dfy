/** Dependency graphs: walks, cycles, and ranks that rule cycles out. */
module DepGraph {

  // Every dependency is itself a node.
  predicate Closed<K>(g: map<K, set<K>>) {
    forall k :: k in g ==> g[k] <= g.Keys
  }

  // A chain of nodes in which each depends on the next.
  predicate Walk<K>(g: map<K, set<K>>, p: seq<K>) {
    && (forall i :: 0 <= i < |p| ==> p[i] in g)
    && (forall i, j :: 0 <= i && j == i + 1 < |p| ==> p[j] in g[p[i]])
  }

  predicate Cycle<K(==)>(g: map<K, set<K>>, p: seq<K>) {
    |p| >= 2 && Walk(g, p) && p[0] == p[|p| - 1]
  }

  ghost predicate HasCycle<K(!new)>(g: map<K, set<K>>) {
    exists p :: Cycle(g, p)
  }

  predicate Below<K>(rank: map<K, int>, ds: set<K>, bound: int) {
    forall d :: d in ds ==> d in rank && rank[d] < bound
  }

  // Ranks fall along every dependency.
  predicate Ranked<K>(g: map<K, set<K>>, rank: map<K, int>) {
    && rank.Keys == g.Keys
    && forall k :: k in g ==> 0 <= rank[k] && Below(rank, g[k], rank[k])
  }

  ghost predicate HasRank<K(!new)>(g: map<K, set<K>>) {
    exists rank :: Ranked(g, rank)
  }

  lemma {:induction false} RankFallsAlongWalk<K>(g: map<K, set<K>>, rank: map<K, int>, p: seq<K>)
    requires Ranked(g, rank) && Walk(g, p) && p != []
    ensures rank[p[|p| - 1]] + |p| - 1 <= rank[p[0]]
  {
    if |p| > 1 {
      assert p[1] in g[p[0]];
      RankFallsAlongWalk(g, rank, p[1..]);
    }
  }

  lemma {:induction false} RankedHasNoCycle<K(!new)>(g: map<K, set<K>>)
    requires HasRank(g)
    ensures !HasCycle(g)
  {
    var rank :| Ranked(g, rank);
    forall p | Cycle(g, p)
      ensures false
    {
      RankFallsAlongWalk(g, rank, p);
    }
  }

  // More positions than values: some value repeats.
  lemma {:induction false} Pigeonhole<K>(p: seq<K>, s: set<K>) returns (i: nat, j: nat)
    requires |p| > |s| && forall k :: 0 <= k < |p| ==> p[k] in s
    ensures i < j < |p| && p[i] == p[j]
  {
    var last := |p| - 1;
    if k :| 0 <= k < last && p[k] == p[last] {
      i, j := k, last;
    } else {
      i, j := Pigeonhole(p[..last], s - {p[last]});
    }
  }

  ghost predicate DependsWithin<K>(g: map<K, set<K>>, k: K, s: set<K>)
    requires k in g
  {
    exists d :: d in g[k] && d in s
  }

  // If every node of s has a dependency in s, there is a cycle.
  lemma {:induction false} NoSinkMeansCycle<K(!new)>(g: map<K, set<K>>, s: set<K>, p: seq<K>)
    requires s <= g.Keys && p != [] && Walk(g, p)
    requires forall k :: k in s ==> DependsWithin(g, k, s)
    requires forall i :: 0 <= i < |p| ==> p[i] in s
    ensures HasCycle(g)
    decreases |s| + 1 - |p|
  {
    if |p| > |s| {
      var i, j := Pigeonhole(p, s);
      var loop := p[i..j + 1];
      assert Cycle(g, loop);
    } else {
      var last := p[|p| - 1];
      assert DependsWithin(g, last, s);
      var d :| d in g[last] && d in s;
      NoSinkMeansCycle(g, s, p + [d]);
    }
  }

  lemma {:induction false} SinkExists<K(!new)>(g: map<K, set<K>>, s: set<K>) returns (k: K)
    requires !HasCycle(g) && s <= g.Keys && s != {}
    ensures k in s && g[k] !! s
  {
    if c :| c in s && !DependsWithin(g, c, s) {
      k := c;
    } else {
      k :| k in s;
      NoSinkMeansCycle(g, s, [k]);
    }
  }

  // rank numbers a set of nodes that contains all its own dependencies
  predicate PartialRank<K>(g: map<K, set<K>>, rank: map<K, int>) {
    && rank.Keys <= g.Keys
    && (forall k :: k in rank ==> 0 <= rank[k] < |rank.Keys|)
    && (forall k :: k in rank ==> Below(rank, g[k], rank[k]))
  }

  lemma {:induction false} RankOneMore<K>(g: map<K, set<K>>, rank: map<K, int>, k: K)
    requires PartialRank(g, rank) && k in g && k !in rank
    requires g[k] <= rank.Keys
    ensures PartialRank(g, rank[k := |rank.Keys|])
  {
    var more := rank[k := |rank.Keys|];
    assert more.Keys == rank.Keys + {k};
  }

  lemma {:induction false} ExtendRank<K(!new)>(g: map<K, set<K>>, rank: map<K, int>, rest: set<K>)
    requires Closed(g) && !HasCycle(g) && PartialRank(g, rank)
    requires rest == g.Keys - rank.Keys
    ensures HasRank(g)
    decreases rest
  {
    if rest == {} {
      CompleteRank(g, rank);
    } else {
      var k := SinkExists(g, rest);
      RankOneMore(g, rank, k);
      ExtendRank(g, rank[k := |rank.Keys|], rest - {k});
    }
  }

  lemma {:induction false} CompleteRank<K(!new)>(g: map<K, set<K>>, rank: map<K, int>)
    requires Closed(g) && PartialRank(g, rank) && g.Keys - rank.Keys == {}
    ensures HasRank(g)
  {
    assert rank.Keys == g.Keys by {
      forall k | k in g
        ensures k in rank.Keys
      {
        assert k !in g.Keys - rank.Keys;
      }
    }
    assert Ranked(g, rank);
  }

  // On a closed graph the two views agree: no cycle exactly when some rank exists.
  lemma {:induction false} AcyclicIffRanked<K(!new)>(g: map<K, set<K>>)
    requires Closed(g)
    ensures HasRank(g) <==> !HasCycle(g)
  {
    if HasRank(g) {
      RankedHasNoCycle(g);
    } else if !HasCycle(g) {
      ExtendRank(g, map[], g.Keys);
    }
  }

  // A number above every rank.
  ghost function Bound<K>(rank: map<K, int>): (b: nat)
    ensures forall k :: k in rank ==> rank[k] < b
    decreases rank.Keys
  {
    if rank.Keys == {} then 0
    else
      var k :| k in rank.Keys;
      var rest := Bound(rank - {k});
      assert forall x :: x in rank && x != k ==> x in rank - {k} && rank[x] == (rank - {k})[x];
      if rank[k] < rest then rest else rank[k] + 1
  }

  // New nodes may depend on old ones and, along falling local ranks, on each other.
  predicate Attaches<K>(g: map<K, set<K>>, added: map<K, set<K>>, local: map<K, int>) {
    && g.Keys !! added.Keys
    && local.Keys == added.Keys
    && (forall k :: k in local ==> 0 <= local[k])
    && forall k :: k in added ==> Below(local, added[k] - g.Keys, local[k])
  }

  lemma {:induction false} RaisedRank<K(!new)>(g: map<K, set<K>>, rank: map<K, int>, added: map<K, set<K>>,
                                              local: map<K, int>, base: int)
    requires Ranked(g, rank) && Attaches(g, added, local)
    requires 0 <= base && forall k :: k in g ==> rank[k] < base
    ensures HasRank(g + added)
  {
    var raised := map k | k in added :: base + local[k];
    var all, joined := g + added, rank + raised;
    assert all.Keys == g.Keys + added.Keys;
    assert joined.Keys == rank.Keys + raised.Keys;
    forall k | k in all
      ensures 0 <= joined[k] && Below(joined, all[k], joined[k])
    {
      if k in added {
        forall d | d in added[k]
          ensures d in joined && joined[d] < joined[k]
        {
          if d !in g {
            assert d in added[k] - g.Keys;
          }
        }
      } else {
        assert Below(rank, g[k], rank[k]);
      }
    }
    assert Ranked(all, joined);
  }

  lemma {:induction false} AttachKeepsRank<K(!new)>(g: map<K, set<K>>, added: map<K, set<K>>, local: map<K, int>)
    requires HasRank(g) && Attaches(g, added, local)
    ensures HasRank(g + added)
  {
    var rank :| Ranked(g, rank);
    RaisedRank(g, rank, added, local, Bound(rank));
  }
}
