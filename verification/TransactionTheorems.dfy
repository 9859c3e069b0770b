/** What holds of a Transaction in every reachable world, whatever runs, rollback
    requests, crashes and Transfer progress led there. */
module TransactionTheorems {
  import opened Common
  import opened Dag
  import opened TransactionStream
  import opened TransactionOrder
  import opened TransactionSaga
  import opened TransactionInvariant

  // ---- Shape ---------------------------------------------------------------

  lemma TerminalIsLast(es: Stream)
    requires Lawful(es) && IsTerminal(TopLevelState(es))
    ensures es != [] && TopOf(es[|es| - 1]) == Some(TopLevelState(es))
  {
    var n := |es| - 1;
    if IsTerminal(TopLevelState(es[..n])) { TerminalIsFinal(es[..n], es[n]); }
  }

  lemma {:induction false} DistinctEvents(es: Stream, i: nat, j: nat)
    requires Lawful(es) && i < j < |es|
    ensures es[i] != es[j]
  {
    LawfulAt(es, j);
    NothingTwice(es[..j], es[j]);
    assert es[..j][i] == es[i];
  }

  /** Every stored stream walks the lifecycle: its top-level events are well
      shaped, no event is recorded twice, nothing follows a terminal state, and
      while Started no child has failed and some child has not completed. */
  lemma StreamShape(w: World)
    requires Reachable(w)
    ensures WellShaped(Spine(w.stream))
    ensures forall i, j :: 0 <= i < j < |w.stream| ==> w.stream[i] != w.stream[j]
    ensures forall n :: 0 <= n < |w.stream| ==> !IsTerminal(TopLevelState(w.stream[..n]))
    ensures TopLevelState(w.stream).IsStarted? ==>
      (forall c :: c in ChildStates(w.stream) ==> ChildStates(w.stream)[c].Requested? || ChildStates(w.stream)[c].Done?)
      && !AllDone(SpecOf(w.stream).nodes, ChildStates(w.stream))
  {
    ReachableInv(w);
    var es := w.stream;
    SpineIsWellShaped(es);
    forall i, j | 0 <= i < j < |es| ensures es[i] != es[j] { DistinctEvents(es, i, j); }
    forall n | 0 <= n < |es| ensures !IsTerminal(TopLevelState(es[..n])) {
      LawfulAt(es, n);
      if IsTerminal(TopLevelState(es[..n])) { TerminalIsFinal(es[..n], es[n]); }
    }
    if TopLevelState(es).IsStarted? {
      forall c | c in ChildStates(es) ensures ChildStates(es)[c].Requested? || ChildStates(es)[c].Done? {
        StartedChildren(es, c);
        assert c !in With(ChildStates(es), Failed);
      }
    }
  }

  // ---- Order ---------------------------------------------------------------

  /** A child is requested only after every parent's completion, and never once
      a rollback has started. */
  lemma RequestOrder(w: World, i: nat, c: Id)
    requires Reachable(w) && i < |w.stream| && w.stream[i] == Child(c, Requested)
    ensures RollbackStarted !in w.stream[..i]
    ensures forall p :: p in Parents(SpecOf(w.stream).deps, c) ==> Child(p, Done) in w.stream[..i]
  {
    ReachableInv(w);
    var es := w.stream[..i];
    LawfulAt(w.stream, i);
    RollingBackIsStarted(es);
    assert es != [];
    SpecIsFixed(w.stream, i);
    forall p | p in Parents(SpecOf(w.stream).deps, c) ensures Child(p, Done) in es {
      assert p in With(ChildStates(es), Done);
      OneOutcome(es, p);
    }
  }

  /** When a run acts to undo a child, every touched child that depends on it,
      directly or through others, has been rolled back or had failed. */
  lemma UndoOrder(w: World, d: nat, path: seq<Id>)
    requires Reachable(w) && PcOf(w, d).Undoing? && IsDescent(SpecOf(w.stream).deps, path)
    requires path[0] == PcOf(w, d).id && path[|path| - 1] in ChildStates(w.stream)
    ensures RollbackStarted in w.stream && ResolvedIn(w.stream, path[|path| - 1])
  {
    ReachableInv(w);
    assert Knows(w, PcOf(w, d));
    FreeIsDeep(w.stream, path);
  }

  /** And so it is for every rollback fact on the stream, at the point where it
      was recorded. */
  lemma UndoneOrder(w: World, i: nat, path: seq<Id>)
    requires Reachable(w) && i < |w.stream| && w.stream[i].Child? && IsUndoing(w.stream[i].fact)
    requires IsDescent(SpecOf(w.stream).deps, path) && path[0] == w.stream[i].id
    requires path[|path| - 1] in ChildStates(w.stream)
    ensures ResolvedIn(w.stream[..i], path[|path| - 1])
  {
    ReachableInv(w);
    LawfulAt(w.stream, i);
    assert w.stream[..i] != [];
    SpecIsFixed(w.stream, i);
    NothingRequestedLate(w.stream, i, path[|path| - 1]);
    FreeIsDeep(w.stream[..i], path);
  }

  // ---- Progress ------------------------------------------------------------

  /** A rollback with nothing left to do: a child is stuck for good, and every
      child not yet resolved is stuck or held up by a stuck one. */
  ghost predicate IsHeldUp(es: Stream) {
    && With(ChildStates(es), Stuck) != {}
    && forall c :: c in ChildStates(es).Keys - Resolved(ChildStates(es)) ==> IsHopeless(SpecOf(es), ChildStates(es), c)
  }

  /** A Started Transaction with nothing in flight always has a child ready. One
      rolling back with no Reversal under way has a child to undo unless every
      child is resolved, or is held up for good by a stuck one. */
  lemma NeverStalls(w: World)
    requires Reachable(w)
    ensures TopLevelState(w.stream).IsStarted? && With(ChildStates(w.stream), Requested) == {} ==>
      ReadyIn(w.stream) != {}
    ensures TopLevelState(w.stream).IsRollingBack? && With(ChildStates(w.stream), ReversalRequested) == {} ==>
      (CandidatesIn(w.stream) == {} <==>
          ChildStates(w.stream).Keys == Resolved(ChildStates(w.stream)) || IsHeldUp(w.stream))
  {
    ReachableInv(w);
    if TopLevelState(w.stream).IsStarted? && With(ChildStates(w.stream), Requested) == {} {
      StartedNeverStalls(w.stream);
    }
    if TopLevelState(w.stream).IsRollingBack? {
      RolledBackMeansResolved(w.stream);
      RollbackFailedMeansHopeless(w.stream);
    }
  }

  // ---- Atomicity -----------------------------------------------------------

  lemma CompletedHadNoRollback(es: Stream)
    requires Lawful(es) && TopLevelState(es).IsCompleted?
    ensures RollbackStarted !in es && AllDone(SpecOf(es).nodes, ChildStates(es))
  {
    TerminalIsLast(es);
    var n := |es| - 1;
    assert es == es[..n] + [es[n]];
    Snoc(es[..n], es[n]);
    RollingBackIsStarted(es[..n]);
  }

  /** A completed Transaction: every child's Transfer committed, and none is or
      ever will be reversed by it. */
  lemma CompletedIsCommitted(w: World, c: Id)
    requires Reachable(w) && TopLevelState(w.stream).IsCompleted? && c in SpecOf(w.stream).nodes
    ensures Live(w, c).IsCommitted? && Reversal(w, c).NotFound?
  {
    ReachableInv(w);
    CompletedHadNoRollback(w.stream);
    OneOutcome(w.stream, c);
    assert Backed(w, Child(c, Done));
  }

  lemma RolledBackIsResolved(es: Stream)
    requires Lawful(es) && TopLevelState(es).IsRolledBack?
    ensures ChildStates(es).Keys == Resolved(ChildStates(es))
  {
    TerminalIsLast(es);
    var n := |es| - 1;
    assert es == es[..n] + [es[n]];
    Snoc(es[..n], es[n]);
    RolledBackMeansResolved(es[..n]);
  }

  /** A rolled back Transaction: every child never existed, ended uncommitted, or
      committed and was reversed by a Reversal that committed too. */
  lemma RolledBackIsUndone(w: World, c: Id)
    requires Reachable(w) && TopLevelState(w.stream).IsRolledBack?
    ensures c !in ChildStates(w.stream) ==> Live(w, c).NotFound? && Reversal(w, c).NotFound?
    ensures c in ChildStates(w.stream) ==>
      EndedUncommitted(Live(w, c)) || (Live(w, c).IsCommitted? && Reversal(w, c).IsCommitted?)
  {
    ReachableInv(w);
    TouchedIsRequested(w.stream, c);
    if c in ChildStates(w.stream) {
      RolledBackIsResolved(w.stream);
      assert c in Resolved(ChildStates(w.stream));
      OneOutcome(w.stream, c);
      assert Backed(w, Child(c, ChildStates(w.stream)[c]));
    }
  }
}
