/** The dependency graph of a Transaction: cycles, what their absence gives, and
    which children are ready to run or to roll back. */
module Dag {
  import opened Common

  /** For each child, the parents it depends on, in the order listed. */
  type Deps = map<Id, seq<Id>>

  function Parents(deps: Deps, id: Id): seq<Id> { if id in deps then deps[id] else [] }

  /** A walk along parents that comes back to where it started. */
  ghost predicate IsCycle(deps: Deps, p: seq<Id>) {
    && |p| >= 2 && p[0] == p[|p| - 1]
    && forall i :: 0 <= i < |p| - 1 ==> p[i + 1] in Parents(deps, p[i])
  }

  ghost predicate Acyclic(deps: Deps) { forall p :: !IsCycle(deps, p) }

  // ---- A set closed under a step contains a loop ---------------------------

  ghost predicate IsWalk(f: map<Id, Id>, p: seq<Id>) {
    && p != [] && (forall i :: 0 <= i < |p| ==> p[i] in f)
    && (forall i :: 0 <= i < |p| - 1 ==> p[i + 1] == f[p[i]])
  }

  ghost function Walk(f: map<Id, Id>, x: Id, n: nat): (p: seq<Id>)
    requires x in f && forall y :: y in f ==> f[y] in f
    ensures |p| == n + 1 && IsWalk(f, p)
  {
    if n == 0 then [x] else var p := Walk(f, x, n - 1); p + [f[p[|p| - 1]]]
  }

  lemma {:induction false} DistinctFits(p: seq<Id>, s: set<Id>)
    requires (forall i :: 0 <= i < |p| ==> p[i] in s) && (forall i, j :: 0 <= i < j < |p| ==> p[i] != p[j])
    ensures |p| <= |s|
  {
    if p != [] {
      var n := |p| - 1;
      DistinctFits(p[..n], s - {p[n]});
    }
  }

  /** A walk as long as its set is large meets itself. */
  lemma WalkRepeats(f: map<Id, Id>, p: seq<Id>) returns (i: nat, j: nat)
    requires IsWalk(f, p) && |p| > |f.Keys|
    ensures i < j < |p| && p[i] == p[j]
  {
    if forall i, j :: 0 <= i < j < |p| ==> p[i] != p[j] {
      DistinctFits(p, f.Keys);
      assert false;
    }
    i, j :| 0 <= i < j < |p| && p[i] == p[j];
  }

  lemma Loop(f: map<Id, Id>, x: Id) returns (p: seq<Id>)
    requires x in f && forall y :: y in f ==> f[y] in f
    ensures |p| >= 2 && p[0] == p[|p| - 1] && IsWalk(f, p)
  {
    var w := Walk(f, x, |f.Keys|);
    var i, j := WalkRepeats(f, w);
    p := w[i..j + 1];
  }

  ghost predicate HasParentIn(deps: Deps, r: set<Id>, x: Id) { exists y :: y in r && y in Parents(deps, x) }

  ghost predicate HasChildIn(deps: Deps, r: set<Id>, x: Id) { exists y :: y in r && x in Parents(deps, y) }

  ghost function ParentIn(deps: Deps, r: set<Id>, x: Id): (y: Id)
    requires HasParentIn(deps, r, x)
    ensures y in r && y in Parents(deps, x)
  {
    var y :| y in r && y in Parents(deps, x); y
  }

  ghost function ChildIn(deps: Deps, r: set<Id>, x: Id): (y: Id)
    requires HasChildIn(deps, r, x)
    ensures y in r && x in Parents(deps, y)
  {
    var y :| y in r && x in Parents(deps, y); y
  }

  /** If every member of a set has a parent in the set, there is a cycle; so
      without one, some member has no parent in the set. */
  lemma SomeoneFirst(deps: Deps, r: set<Id>) returns (x: Id)
    requires r != {} && Acyclic(deps)
    ensures x in r && !HasParentIn(deps, r, x)
  {
    if forall x :: x in r ==> HasParentIn(deps, r, x) {
      var f := map x | x in r :: ParentIn(deps, r, x);
      var y :| y in r;
      var p := Loop(f, y);
      assert IsCycle(deps, p);
      assert false;
    }
    x :| x in r && !HasParentIn(deps, r, x);
  }

  lemma ReversedLoop(deps: Deps, f: map<Id, Id>, p: seq<Id>)
    requires IsWalk(f, p) && |p| >= 2 && p[0] == p[|p| - 1]
    requires forall x :: x in f ==> x in Parents(deps, f[x])
    ensures !Acyclic(deps)
  {
    var q := seq(|p|, i requires 0 <= i < |p| => p[|p| - 1 - i]);
    forall i | 0 <= i < |q| - 1 ensures q[i + 1] in Parents(deps, q[i]) {
      var k := |p| - 2 - i;
      assert p[k + 1] == f[p[k]] && q[i] == p[k + 1] && q[i + 1] == p[k];
    }
    assert IsCycle(deps, q);
  }

  /** Likewise, some member has no child in the set. */
  lemma SomeoneLast(deps: Deps, r: set<Id>) returns (x: Id)
    requires r != {} && Acyclic(deps)
    ensures x in r && !HasChildIn(deps, r, x)
  {
    if forall x :: x in r ==> HasChildIn(deps, r, x) {
      var f := map x | x in r :: ChildIn(deps, r, x);
      var y :| y in r;
      var p := Loop(f, y);
      ReversedLoop(deps, f, p);
      assert false;
    }
    x :| x in r && !HasChildIn(deps, r, x);
  }

  // ---- An order in which every parent comes first --------------------------

  ghost predicate ParentsFirst(deps: Deps, order: seq<Id>) {
    forall i, p :: 0 <= i < |order| && p in Parents(deps, order[i]) ==> p in order[..i]
  }

  /** Where `x` is first listed. */
  ghost function IndexOf(order: seq<Id>, x: Id): (i: nat)
    requires x in order
    ensures i < |order| && order[i] == x && forall j :: 0 <= j < i ==> order[j] != x
  {
    if order[0] == x then 0 else 1 + IndexOf(order[1..], x)
  }

  lemma {:induction false} WalkDescends(deps: Deps, order: seq<Id>, p: seq<Id>, n: nat)
    requires ParentsFirst(deps, order) && n < |p| && p[0] in order
    requires forall i :: 0 <= i < |p| - 1 ==> p[i + 1] in Parents(deps, p[i])
    ensures p[n] in order && IndexOf(order, p[n]) + n <= IndexOf(order, p[0])
  {
    if n > 0 {
      WalkDescends(deps, order, p, n - 1);
      var i := IndexOf(order, p[n - 1]);
      assert p[n - 1 + 1] in order[..i];
    }
  }

  /** Listing every node after its parents leaves no room for a cycle. */
  lemma OrderedIsAcyclic(deps: Deps, order: seq<Id>)
    requires ParentsFirst(deps, order) && forall x :: x in deps ==> x in order
    ensures Acyclic(deps)
  {
    forall p ensures !IsCycle(deps, p) {
      if IsCycle(deps, p) {
        assert p[0 + 1] in Parents(deps, p[0]);
        WalkDescends(deps, order, p, |p| - 1);
      }
    }
  }

  // ---- Which children are ready --------------------------------------------

  predicate ParentsDone(deps: Deps, completed: set<Id>, id: Id) {
    forall p :: p in Parents(deps, id) ==> p in completed
  }

  /** No active child lists `id` as a parent. */
  predicate Unblocked(deps: Deps, touched: set<Id>, resolved: set<Id>, id: Id) {
    forall c :: c in deps && c in touched && c !in resolved ==> id !in deps[c]
  }

  /** Untouched children whose parents have all completed. */
  function ReadyToRun(nodes: set<Id>, deps: Deps, touched: set<Id>, completed: set<Id>): set<Id> {
    set id | id in nodes && id !in touched && ParentsDone(deps, completed, id)
  }

  /** Touched, unresolved children whose rollback is not already under way and
      which no active child depends on. */
  function ReadyToRollback(nodes: set<Id>, deps: Deps, touched: set<Id>, resolved: set<Id>,
      inFlight: set<Id>): set<Id> {
    set id | id in nodes && id in touched && id !in resolved && id !in inFlight &&
        Unblocked(deps, touched, resolved, id)
  }

  /** Nothing in flight and something still untouched: some child is ready. */
  lemma SomethingReadyToRun(nodes: set<Id>, deps: Deps, touched: set<Id>, completed: set<Id>)
    requires Acyclic(deps) && (forall c, p :: c in nodes && p in Parents(deps, c) ==> p in nodes)
    requires touched <= completed && nodes - touched != {}
    ensures ReadyToRun(nodes, deps, touched, completed) != {}
  {
    var x := SomeoneFirst(deps, nodes - touched);
    assert x in ReadyToRun(nodes, deps, touched, completed);
  }

  /** Something touched is unresolved: some unresolved child has no unresolved
      child of its own. */
  lemma SomethingReadyToRollback(nodes: set<Id>, deps: Deps, touched: set<Id>, resolved: set<Id>)
    requires Acyclic(deps) && touched <= nodes && touched - resolved != {}
    ensures ReadyToRollback(nodes, deps, touched, resolved, {}) != {}
  {
    var x := SomeoneLast(deps, touched - resolved);
    forall c | c in deps && c in touched && c !in resolved ensures x !in deps[c] {
      assert x in Parents(deps, c) ==> c in touched - resolved && HasChildIn(deps, touched - resolved, x);
    }
    assert x in ReadyToRollback(nodes, deps, touched, resolved, {});
  }
}
