/** What lawful Transaction streams promise: the order of requests and undoings,
    when a run can go on, and what a conclusion means; and that appendSagaStep
    and dispatchReady append lawfully (go/internal/transaction/saga.go, dag.go). */
module TransactionOrder {
  import opened Common
  import opened Dag
  import opened TransactionStream

  // ---- Order ---------------------------------------------------------------

  /** A touched child's parents have all completed. */
  lemma {:induction false} ParentsCameFirst(es: Stream, c: Id, p: Id)
    requires Lawful(es) && c in ChildStates(es) && p in Parents(SpecOf(es).deps, c)
    ensures Child(p, Done) in es && p in ChildStates(es)
  {
    var n := |es| - 1;
    assert es == es[..n] + [es[n]];
    Snoc(es[..n], es[n]);
    if c in ChildStates(es[..n]) {
      ParentsCameFirst(es[..n], c, p);
    } else {
      assert p in With(ChildStates(es[..n]), Done);
      OneOutcome(es[..n], p);
    }
  }

  /** Where `c` and a touched child that depends on it, however indirectly, sit
      in the graph. */
  ghost predicate IsDescent(deps: Deps, path: seq<Id>) {
    |path| >= 2 && forall i :: 0 <= i < |path| - 1 ==> path[i] in Parents(deps, path[i + 1])
  }

  /** Nothing is requested once a rollback has started. */
  lemma {:induction false} NothingRequestedLate(es: Stream, n: nat, c: Id)
    requires Lawful(es) && n <= |es| && Level(TopLevelState(es[..n])) >= 3 && c in ChildStates(es)
    ensures c in ChildStates(es[..n])
  {
    if n == |es| {
      assert es[..n] == es;
    } else {
      var m := |es| - 1;
      assert es == es[..m] + [es[m]] && es[..m][..n] == es[..n];
      Snoc(es[..m], es[m]);
      LevelNeverFalls(es[..m], n);
      NothingRequestedLate(es[..m], n, c);
    }
  }

  lemma {:induction false} LevelNeverFalls(es: Stream, n: nat)
    requires Lawful(es) && n <= |es|
    ensures Level(TopLevelState(es[..n])) <= Level(TopLevelState(es))
  {
    if n == |es| {
      assert es[..n] == es;
    } else {
      var m := |es| - 1;
      assert es == es[..m] + [es[m]] && es[..m][..n] == es[..n];
      Snoc(es[..m], es[m]);
      LevelNeverFalls(es[..m], n);
    }
  }

  /** Along a descent to a touched child, every child on the way is touched. */
  lemma {:induction false} DescentIsTouched(es: Stream, path: seq<Id>, k: nat)
    requires Lawful(es) && IsDescent(SpecOf(es).deps, path) && path[|path| - 1] in ChildStates(es) && k < |path|
    ensures path[k] in ChildStates(es) && (k < |path| - 1 ==> Child(path[k], Done) in es)
    decreases |path| - k
  {
    if k < |path| - 1 {
      DescentIsTouched(es, path, k + 1);
      ParentsCameFirst(es, path[k + 1], path[k]);
    }
  }

  lemma SpecIsFixed(es: Stream, n: nat)
    requires 0 < n <= |es|
    ensures SpecOf(es[..n]) == SpecOf(es)
  {
  }

  /** Once a child's direct dependents are resolved, so is every touched child
      that depends on it through others. */
  lemma {:induction false} FreeIsDeep(es: Stream, path: seq<Id>)
    requires Lawful(es) && IsDescent(SpecOf(es).deps, path) && path[|path| - 1] in ChildStates(es) && Free(es, path[0])
    ensures ResolvedIn(es, path[|path| - 1])
    decreases |path|
  {
    DescentIsTouched(es, path, 1);
    assert path[0] in Parents(SpecOf(es).deps, path[0 + 1]);
    if |path| > 2 {
      OneOutcome(es, path[1]);
      var j :| 0 <= j < |es| && es[j] == Child(path[1], Undone);
      LawfulAt(es, j);
      SpecIsFixed(es, j);
      NothingRequestedLate(es, j, path[|path| - 1]);
      FreeIsDeep(es[..j], path[1..]);
    }
  }

  // ---- No stall, sound conclusions -----------------------------------------

  /** A Started Transaction with nothing in flight and nothing decided always
      has a child to request. */
  lemma StartedNeverStalls(es: Stream)
    requires Stored(es) && TopLevelState(es).IsStarted? && With(ChildStates(es), Requested) == {}
    ensures ReadyIn(es) != {}
  {
    var cs, spec := ChildStates(es), SpecOf(es);
    forall c | c in cs.Keys ensures c in With(cs, Done) {
      StartedChildren(es, c);
      assert c !in With(cs, Requested) && c !in With(cs, Failed);
    }
    OpensWithSpec(es);
    var x :| x in spec.nodes && !(x in cs && cs[x].Done?);
    assert x in spec.nodes - cs.Keys;
    SomethingReadyToRun(spec.nodes, spec.deps, cs.Keys, With(cs, Done));
  }

  /** A rollback concludes as RolledBack exactly when every touched child is
      resolved. */
  lemma RolledBackMeansResolved(es: Stream)
    requires Lawful(es) && TopLevelState(es).IsRollingBack?
    ensures Consequence(es) == Some(RolledBack) <==> ChildStates(es).Keys == Resolved(ChildStates(es))
  {
    var cs, spec := ChildStates(es), SpecOf(es);
    OpensWithSpec(es);
    forall c | c in cs ensures c in spec.nodes { TouchedIsRequested(es, c); }
    if Consequence(es) == Some(RolledBack) && cs.Keys - Resolved(cs) != {} {
      SomethingReadyToRollback(spec.nodes, spec.deps, cs.Keys, Resolved(cs));
    }
  }

  /** A stuck child, or one some stuck child depends on, directly or through
      children that are themselves unresolved. */
  ghost predicate Hopeless(spec: Spec, cs: Children, path: seq<Id>) {
    && path != [] && path[|path| - 1] in With(cs, Stuck)
    && (forall i :: 0 <= i < |path| ==> path[i] in cs.Keys - Resolved(cs))
    && forall i :: 0 <= i < |path| - 1 ==> path[i] in Parents(spec.deps, path[i + 1])
  }

  ghost predicate IsHopeless(spec: Spec, cs: Children, c: Id) {
    exists path :: Hopeless(spec, cs, path) && path[0] == c
  }

  lemma HopelessUpwards(spec: Spec, cs: Children, c: Id, d: Id)
    requires c in cs.Keys - Resolved(cs) && IsHopeless(spec, cs, d) && c in Parents(spec.deps, d)
    ensures IsHopeless(spec, cs, c)
  {
    var path :| Hopeless(spec, cs, path) && path[0] == d;
    assert Hopeless(spec, cs, [c] + path);
  }

  /** With nothing left to try and nothing in flight, every unresolved child is
      stuck or held up by a stuck one. */
  lemma NothingLeftIsHopeless(spec: Spec, cs: Children, c: Id)
    requires Acyclic(spec.deps) && cs.Keys <= spec.nodes && c in cs.Keys - Resolved(cs)
    requires Candidates(spec, cs) == {} && With(cs, ReversalRequested) == {}
    ensures IsHopeless(spec, cs, c)
  {
    var free := set x | x in cs.Keys - Resolved(cs) && !IsHopeless(spec, cs, x);
    if free != {} {
      var x := SomeoneLast(spec.deps, free);
      if x in With(cs, Stuck) {
        assert Hopeless(spec, cs, [x]);
      } else {
        assert x !in Candidates(spec, cs);
        var d :| d in spec.deps && d in cs && d !in Resolved(cs) && x in spec.deps[d];
        assert d in free ==> HasChildIn(spec.deps, free, x);
        HopelessUpwards(spec, cs, x, d);
      }
      assert false;
    }
    assert c !in free;
  }

  /** A rollback concludes as RollbackFailed exactly when some child is stuck,
      no Reversal is under way, and every unresolved child is beyond help. */
  lemma RollbackFailedMeansHopeless(es: Stream)
    requires Lawful(es) && TopLevelState(es).IsRollingBack?
    ensures Consequence(es) == Some(RollbackFailed) <==>
      && With(ChildStates(es), Stuck) != {} && With(ChildStates(es), ReversalRequested) == {}
      && forall c :: c in ChildStates(es).Keys - Resolved(ChildStates(es)) ==>
        IsHopeless(SpecOf(es), ChildStates(es), c)
  {
    var cs, spec := ChildStates(es), SpecOf(es);
    OpensWithSpec(es);
    forall c | c in cs ensures c in spec.nodes { TouchedIsRequested(es, c); }
    if Consequence(es) == Some(RollbackFailed) {
      forall c | c in cs.Keys - Resolved(cs) ensures IsHopeless(spec, cs, c) { NothingLeftIsHopeless(spec, cs, c); }
    }
    forall c | IsHopeless(spec, cs, c) ensures c !in Candidates(spec, cs) { HopelessIsNoCandidate(spec, cs, c); }
  }

  lemma HopelessIsNoCandidate(spec: Spec, cs: Children, c: Id)
    requires IsHopeless(spec, cs, c)
    ensures c !in Candidates(spec, cs)
  {
    var path :| Hopeless(spec, cs, path) && path[0] == c;
    if |path| > 1 {
      assert path[0] in Parents(spec.deps, path[0 + 1]);
    }
  }

  // ---- Lawful appends ------------------------------------------------------

  lemma ConsequenceMayFollow(es: Stream, e: Event)
    requires Consequence(es) == Some(e)
    ensures MayFollow(es, e)
  {
  }

  /** All that a stream decides may be appended to it, and then nothing is left
      to decide. */
  lemma {:induction false} DecidedIsLawful(es: Stream)
    requires Lawful(es)
    ensures Lawful(es + Decided(es)) && Consequence(es + Decided(es)).None?
    decreases 4 - Level(TopLevelState(es))
  {
    if Consequence(es).Some? {
      var e := Consequence(es).value;
      DecidedStep(es, e);
      ConsequenceMayFollow(es, e);
      LawfulSnoc(es, e);
      DecidedIsLawful(es + [e]);
      assert es + Decided(es) == es + [e] + Decided(es + [e]);
    } else {
      assert es + Decided(es) == es;
    }
  }

  /** What must already hold of a step for it to be recorded lawfully. */
  ghost predicate Justified(es: Stream, e: Event) {
    e.Child? && IsUndoing(e.fact) ==>
      e.id in ChildStates(es) && Free(es, e.id) && (e.fact.ReversalRequested? && Child(e.id, Undone) in es ==> e in es)
  }

  lemma DecidableMayFollow(es: Stream, e: Event)
    requires Lawful(es) && e !in es && StillDecidable(es, e) && Justified(es, e)
    ensures MayFollow(es, e)
  {
  }

  lemma DecidedIsStored(es: Stream)
    requires Lawful(es)
    ensures Stored(es + Decided(es))
  {
    DecidedIsLawful(es);
  }

  lemma Regroup(es: Stream, e: Event, rest: seq<Event>)
    ensures es + ([e] + rest) == es + [e] + rest
  {
  }

  lemma ChildStepKeepsStored(es: Stream, e: Event)
    requires Lawful(es) && MayFollow(es, e)
    ensures Stored(es + ([e] + Decided(es + [e])))
  {
    LawfulSnoc(es, e);
    DecidedIsStored(es + [e]);
    Regroup(es, e, Decided(es + [e]));
  }

  lemma TopStepKeepsStored(es: Stream, e: Event)
    requires Lawful(es) && MayFollow(es, e) && Level(TopLevelState(es + [e])) >= 3
    ensures Stored(es + [e])
  {
    LawfulSnoc(es, e);
  }

  /** Whatever appendSagaStep decides to append keeps a stored stream stored. */
  lemma AppendsKeepStored(es: Stream, e: Event)
    requires Stored(es) && Justified(es, e)
    ensures Stored(es + Appends(es, e))
  {
    if e in es || !StillDecidable(es, e) {
      assert es + Appends(es, e) == es;
    } else {
      DecidableMayFollow(es, e);
      if e.Child? { ChildStepKeepsStored(es, e); } else { Snoc(es, e); TopStepKeepsStored(es, e); }
    }
  }

  /** A slice of intents. */
  function Intents(slice: seq<Id>): (out: seq<Event>)
    ensures |out| == |slice| && forall i :: 0 <= i < |out| ==> out[i] == Child(slice[i], Requested)
  {
    if slice == [] then [] else Intents(slice[..|slice| - 1]) + [Child(slice[|slice| - 1], Requested)]
  }

  function ReadyIn(es: Stream): set<Id> {
    ReadyToRun(SpecOf(es).nodes, SpecOf(es).deps, ChildStates(es).Keys, With(ChildStates(es), Done))
  }

  /** Distinct children the fold found ready. */
  ghost predicate IsSlice(es: Stream, slice: seq<Id>) {
    && (forall i, j :: 0 <= i < j < |slice| ==> slice[i] != slice[j])
    && forall i :: 0 <= i < |slice| ==> slice[i] in ReadyIn(es)
  }

  /** The same stream with more children requested and nothing else changed. */
  ghost predicate AlsoRequests(es: Stream, es': Stream, slice: seq<Id>) {
    && Lawful(es') && TopLevelState(es').IsStarted? && SpecOf(es') == SpecOf(es)
    && (forall c :: c in ChildStates(es') <==> c in ChildStates(es) || c in slice)
    && forall c :: c in ChildStates(es') ==> ChildStates(es')[c] == if c in slice then Requested else ChildStates(es)[c]
  }

  lemma OneMoreIntent(es: Stream, es1: Stream, slice: seq<Id>, c: Id)
    requires AlsoRequests(es, es1, slice) && c in ReadyIn(es) && c !in slice &&
      forall d :: d in slice ==> d !in ChildStates(es)
    ensures AlsoRequests(es, es1 + [Child(c, Requested)], slice + [c])
  {
    assert With(ChildStates(es), Done) <= With(ChildStates(es1), Done);
    assert MayFollow(es1, Child(c, Requested));
    LawfulSnoc(es1, Child(c, Requested));
    Snoc(es1, Child(c, Requested));
  }

  lemma {:induction false} IntentsAreLawful(es: Stream, slice: seq<Id>)
    requires Lawful(es) && TopLevelState(es).IsStarted? && IsSlice(es, slice)
    ensures AlsoRequests(es, es + Intents(slice), slice)
  {
    if slice == [] {
      assert es + Intents(slice) == es;
    } else {
      var n := |slice| - 1;
      IntentsAreLawful(es, slice[..n]);
      OneMoreIntent(es, es + Intents(slice[..n]), slice[..n], slice[n]);
      assert es + Intents(slice) == es + Intents(slice[..n]) + [Child(slice[n], Requested)];
      assert slice == slice[..n] + [slice[n]];
    }
  }

  /** Requesting more children decides nothing. */
  lemma IntentsDecideNothing(es: Stream, es': Stream, slice: seq<Id>)
    requires Stored(es) && TopLevelState(es).IsStarted? && IsSlice(es, slice) && AlsoRequests(es, es', slice)
    ensures Consequence(es').None?
  {
    assert forall c :: c in With(ChildStates(es'), Failed) ==> c in With(ChildStates(es), Failed);
    assert AllDone(SpecOf(es').nodes, ChildStates(es')) ==> AllDone(SpecOf(es).nodes, ChildStates(es));
  }

  /** A slice dispatched against the very fold that chose it is stored lawfully. */
  lemma SliceKeepsStored(es: Stream, slice: seq<Id>)
    requires Stored(es) && TopLevelState(es).IsStarted? && IsSlice(es, slice)
    ensures Stored(es + Intents(slice))
  {
    IntentsAreLawful(es, slice);
    IntentsDecideNothing(es, es + Intents(slice), slice);
  }

  /** So is the slice that starts the Transaction, with TransactionStarted
      leading the same append. */
  lemma FirstSliceKeepsStored(es: Stream, slice: seq<Id>)
    requires Stored(es) && TopLevelState(es).IsInitialized? && IsSlice(es, slice)
    ensures Stored(es + ([Started] + Intents(slice)))
  {
    Snoc(es, Started);
    LawfulSnoc(es, Started);
    OpensWithSpec(es);
    NoneTouchedYet(es);
    assert Stored(es + [Started]);
    SliceKeepsStored(es + [Started], slice);
    assert es + [Started] + Intents(slice) == es + ([Started] + Intents(slice));
  }

  lemma NoneTouchedYet(es: Stream)
    requires Lawful(es) && Level(TopLevelState(es)) < 2
    ensures ChildStates(es) == map[]
  {
    forall c ensures c !in ChildStates(es) {
      TouchedIsRequested(es, c);
      if Child(c, Requested) in es { ForwardOnly(es, Child(c, Requested)); }
    }
  }
}
