/** Git commits and the ancestor relation that every ref decision is based on. */
module Commits {

  // A commit's identity covers its tree and its parents, so a commit is the
  // value of both, and the history below it can never change.
  datatype Commit = Commit(tree: nat, parents: seq<Commit>)

  // git merge-base --is-ancestor a c
  predicate IsAncestor(a: Commit, c: Commit) {
    a == c || exists i :: 0 <= i < |c.parents| && IsAncestor(a, c.parents[i])
  }

  function Size(c: Commit): nat
    decreases c, 1
  {
    1 + TotalSize(c.parents)
  }

  function TotalSize(cs: seq<Commit>): nat
    decreases cs, 0
  {
    if cs == [] then 0 else Size(cs[0]) + TotalSize(cs[1..])
  }

  lemma {:induction false} MemberSize(cs: seq<Commit>, i: nat)
    requires i < |cs|
    ensures Size(cs[i]) <= TotalSize(cs)
  {
    if i > 0 {
      MemberSize(cs[1..], i - 1);
    }
  }

  lemma {:induction false} AncestorTransitive(a: Commit, b: Commit, c: Commit)
    requires IsAncestor(a, b) && IsAncestor(b, c)
    ensures IsAncestor(a, c)
    decreases c
  {
    if b != c {
      var i :| 0 <= i < |c.parents| && IsAncestor(b, c.parents[i]);
      AncestorTransitive(a, b, c.parents[i]);
    }
  }

  lemma {:induction false} AncestorSize(a: Commit, c: Commit)
    requires IsAncestor(a, c)
    ensures a != c ==> Size(a) < Size(c)
    decreases c
  {
    if a != c {
      var i :| 0 <= i < |c.parents| && IsAncestor(a, c.parents[i]);
      AncestorSize(a, c.parents[i]);
      MemberSize(c.parents, i);
    }
  }

  // History has no cycles: a ref that has moved on can never return.
  lemma {:induction false} AncestorAntisymmetric(a: Commit, c: Commit)
    requires IsAncestor(a, c) && IsAncestor(c, a)
    ensures a == c
  {
    AncestorSize(a, c);
    AncestorSize(c, a);
  }
}
