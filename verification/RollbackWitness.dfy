/** Rollbacks that do happen: one that reverses a committed child, one that fails
    because the Reversal did, and one that two runs leave wedged. */
module RollbackWitness {
  import opened Common
  import opened Dag
  import opened TransactionStream
  import opened TransactionOrder
  import opened TransactionSaga
  import opened TransactionInvariant
  import opened TransactionProgress
  import opened RollbackProgress
  import T = TransferStream
  import V = ValidateDag

  // ---- Two children that wait for nobody -----------------------------------

  const first: Id := Uuid(7, 0)
  const second: Id := Uuid(7, 1)
  const spec: Spec := Spec({first, second}, map[])
  const request: map<Id, V.Child> :=
    map[first := V.Child(first, Some(V.Money(5, "USD"))), second := V.Child(second, Some(V.Money(5, "USD")))]

  function Opened(): Stream { [Initialized(spec)] }
  function Running(): Stream { Opened() + ([Started] + Intents([first, second])) }
  function Unwinding(): Stream { Running() + [RollbackStarted] }

  lemma RequestIsValid()
    ensures V.Valid(request, map[]) && request.Keys == {first, second}
  {
    assert first in request && second in request;
    assert Acyclic(map[]) by {
      forall p ensures !IsCycle(map[], p) {
        if |p| >= 2 { assert p[0 + 1] !in Parents(map[], p[0]); }
      }
    }
  }

  lemma OpenedFacts()
    ensures TopLevelState(Opened()) == IsInitialized && ChildStates(Opened()) == map[] && SpecOf(Opened()) == spec
    ensures Cut(ReadyIn(Opened()), [first, second]) && Consequence(Opened()).None?
  {
    Snoc([], Initialized(spec));
    assert [] + [Initialized(spec)] == Opened();
    assert ReadyIn(Opened()) == {first, second};
  }

  lemma RunningFacts()
    ensures TopLevelState(Running()) == IsStarted && SpecOf(Running()) == spec
    ensures ChildStates(Running()) == map[first := Requested, second := Requested]
    ensures Child(first, Stuck) !in Running() && Child(first, ReversalRequested) !in Running()
  {
    OpenedFacts();
    Snoc(Opened(), Started);
    Snoc(Opened() + [Started], Child(first, Requested));
    Snoc(Opened() + [Started] + [Child(first, Requested)], Child(second, Requested));
    assert Running() == Opened() + [Started] + [Child(first, Requested)] + [Child(second, Requested)];
  }

  lemma UnwindingFacts()
    ensures TopLevelState(Unwinding()) == IsRollingBack && SpecOf(Unwinding()) == spec
    ensures ChildStates(Unwinding()) == map[first := Requested, second := Requested]
    ensures With(ChildStates(Unwinding()), ReversalRequested) == {} && first in CandidatesIn(Unwinding())
    ensures Child(first, Stuck) !in Unwinding() && Child(first, ReversalRequested) !in Unwinding()
  {
    RunningFacts();
    Snoc(Running(), RollbackStarted);
  }

  // ---- Staged, and then committed ------------------------------------------

  lemma Opens()
    ensures Comes(Start, Start, 0, Place(Opened(), map[], map[], Idle))
  {
    RequestIsValid();
    GoesNowhere(Start);
    GoesOn(Start, Start, Open(0, request, map[], true));
    var p := Place([], map[], map[], Opening(Initialized(spec)));
    assert Step(Start, Open(0, request, map[], true)) == At(Start, 0, p);
    ComesOn(Start, Start, 0, p, AppendOpening(0), Place(Opened(), map[], map[], Idle));
  }

  /** Both are dispatched; the first is reserved when the rollback starts. */
  lemma Stages() returns (p: Place)
    ensures Comes(Start, Start, 0, p) && p == Place(Unwinding(), map[first := T.IsStaged], map[], Idle)
  {
    Opens();
    OpenedFacts();
    p := Place(Opened(), map[], map[], Idle);
    RunDispatches(Start, Start, 0, p, [first, second]);
    p := p.(stream := Running());
    RunningFacts();
    RunRequests(Start, Start, 0, p, first);
    p := p.(transfers := map[][first := T.InFlight]);
    ChildMoves(Start, Start, 0, p, first, T.IsStaged);
    p := p.(transfers := p.transfers[first := T.IsStaged]);
    StartIsSound();
    RunStartsRollback(Start, Start, 0, p);
    p := p.(stream := Unwinding());
    assert p.transfers == map[first := T.IsStaged];
  }

  lemma StartIsSound()
    ensures Inv(Start) && Reachable(Start)
  {
    assert IsRun([Start], []) && [Start][|[Start]| - 1] == Start;
    ReachableInv(Start);
  }

  /** Caller 0 is about to cancel a reservation that commits meanwhile. */
  lemma CancelsTooLate() returns (p: Place)
    ensures Comes(Start, Start, 0, p) && p.stream == Unwinding() && p.reversals == map[]
    ensures OutcomeOf(p.transfers, first).IsCommitted?
    ensures p.pc.Undoing? && p.pc.id == first && p.pc.saw.IsStaged?
  {
    p := Stages();
    UnwindingFacts();
    var todo := RunLooks(Start, Start, 0, p, first);
    p := p.(pc := Undoing(first, T.IsStaged, todo));
    ChildMoves(Start, Start, 0, p, first, T.IsPending);
    p := p.(transfers := p.transfers[first := T.IsPending]);
    ChildMoves(Start, Start, 0, p, first, T.IsCommitted);
    p := p.(transfers := p.transfers[first := T.IsCommitted]);
  }

  // ---- And a second run that reverses it -----------------------------------

  /** Another caller takes over, the first staying where it is. */
  lemma TakesOver(o: World, w: World, d: nat, p: Place, e: nat)
    requires Comes(o, w, d, p) && e != d
    ensures Comes(o, At(w, d, p), e, p.(pc := Idle))
  {
    GoesOn(o, At(w, d, p), Stop(e));
  }

  /** Caller 1 has asked for the Reversal, and is about to record that. */
  lemma Reverses(w: World, p: Place) returns (p': Place)
    requires Comes(Start, w, 1, p) && p.pc.Idle? && p.stream == Unwinding() && p.reversals == map[]
    requires OutcomeOf(p.transfers, first).IsCommitted?
    ensures Comes(Start, w, 1, p') && p'.stream == Unwinding() && p'.transfers == p.transfers
    ensures p'.reversals == map[first := T.InFlight]
    ensures p'.pc.Recording? && p'.pc.event == Child(first, ReversalRequested)
  {
    UnwindingFacts();
    var todo := RunLooks(Start, w, 1, p, first);
    RunAsks(Start, w, 1, p.(pc := Undoing(first, T.IsCommitted, todo)), first, todo);
    p' := p.(reversals := map[first := T.InFlight],
             pc := Recording(Child(first, ReversalRequested), RollingBack(todo)));
    assert p'.reversals == p.reversals[first := T.InFlight];
  }

  function Given(): Stream { Unwinding() + [Child(first, Stuck)] }

  function Wedging(): Stream { Given() + [Child(first, ReversalRequested)] }

  lemma GivenFacts()
    ensures Appends(Unwinding(), Child(first, Stuck)) == [Child(first, Stuck)]
    ensures TopLevelState(Given()) == IsRollingBack && SpecOf(Given()) == spec
    ensures ChildStates(Given()) == map[first := Stuck, second := Requested]
  {
    UnwindingFacts();
    Snoc(Unwinding(), Child(first, Stuck));
    assert second in CandidatesIn(Given());
  }

  lemma WedgingFacts()
    ensures Appends(Given(), Child(first, ReversalRequested)) == [Child(first, ReversalRequested)]
    ensures TopLevelState(Wedging()) == IsRollingBack && Child(first, Stuck) in Wedging()
    ensures first in With(ChildStates(Wedging()), ReversalRequested)
  {
    GivenFacts();
    UnwindingFacts();
    Snoc(Given(), Child(first, ReversalRequested));
    assert first in With(ChildStates(Wedging()), ReversalRequested);
  }

  /** Caller 0 gives the child up. */
  lemma GivesUp(w: World, p: Place) returns (p': Place)
    requires Comes(Start, w, 0, p) && p.stream == Unwinding() && OutcomeOf(p.transfers, first).IsCommitted?
    requires p.pc.Undoing? && p.pc.id == first && p.pc.saw.IsStaged?
    ensures Comes(Start, w, 0, p') && p' == p.(stream := Given(), pc := p'.pc)
  {
    var next := RollingBack(p.pc.todo);
    var p1 := p.(pc := Recording(Child(first, Stuck), next));
    ComesOn(Start, w, 0, p, Act(0, true), p1);
    Records(Start, w, 0, p1, Child(first, Stuck), next);
    GivenFacts();
    p' := p.(stream := Given(), pc := next);
  }

  /** Two runs undo one child at once: the first saw it reserved and gives it up,
      the second saw it committed and asks for its Reversal, which fails. */
  lemma WedgedIsReachable() returns (w: World)
    ensures Reachable(w) && Wedged(w, first)
  {
    var p := CancelsTooLate();
    TakesOver(Start, Start, 0, p, 1);
    var x := At(Start, 0, p);
    var q := Reverses(x, p.(pc := Idle));
    var y := At(x, 1, q);
    assert y.drivers[0 := p.pc] == y.drivers;
    var p' := GivesUp(y, q.(pc := p.pc));
    var z := At(y, 0, p');
    assert z.drivers[1 := q.pc] == z.drivers;
    Records(Start, z, 1, p'.(pc := q.pc), Child(first, ReversalRequested), q.pc.next);
    WedgingFacts();
    var r := p'.(stream := Wedging(), pc := q.pc.next);
    ReversalMoves(Start, z, 1, r, first, T.IsFailed);
    w := At(z, 1, r.(reversals := r.reversals[first := T.IsFailed]));
    StartIsSound();
    GoesGrows(Start, w);
  }

  // ---- Reversed, or not ----------------------------------------------------

  /** The committed child, rolled back whole. */
  lemma ReversedIsReachable() returns (w: World)
    ensures Reachable(w) && TopLevelState(w.stream).IsRolledBack?
    ensures Live(w, first).IsCommitted? && Reversal(w, first).IsCommitted?
  {
    var p := CancelsTooLate();
    UnwindingFacts();
    StartIsSound();
    GoesGrows(Start, At(Start, 0, p));
    w := CommittedCanBeReversed(At(Start, 0, p), first);
  }

  lemma ReversingFacts()
    ensures Appends(Unwinding(), Child(first, ReversalRequested)) == [Child(first, ReversalRequested)]
    ensures var es := Unwinding() + [Child(first, ReversalRequested)];
      TopLevelState(es) == IsRollingBack && Child(first, Stuck) !in es &&
      With(ChildStates(es), ReversalRequested) == {first}
  {
    UnwindingFacts();
    Snoc(Unwinding(), Child(first, ReversalRequested));
    var es := Unwinding() + [Child(first, ReversalRequested)];
    assert first in With(ChildStates(es), ReversalRequested);
    assert With(ChildStates(es), ReversalRequested) == {first};
  }

  /** The same child, its Reversal failing: the rollback fails with it. */
  lemma UnreversedIsReachable() returns (w: World)
    ensures Reachable(w) && TopLevelState(w.stream).IsRollbackFailed?
    ensures Live(w, first).IsCommitted? && Reversal(w, first).IsFailed?
  {
    var p := CancelsTooLate();
    TakesOver(Start, Start, 0, p, 1);
    var x := At(Start, 0, p);
    var q := Reverses(x, p.(pc := Idle));
    Records(Start, x, 1, q, Child(first, ReversalRequested), q.pc.next);
    ReversingFacts();
    var r := q.(stream := Unwinding() + [Child(first, ReversalRequested)], pc := q.pc.next);
    ReversalMoves(Start, x, 1, r, first, T.IsFailed);
    var y := At(x, 1, r.(reversals := r.reversals[first := T.IsFailed]));
    StartIsSound();
    GoesGrows(Start, y);
    w := UnreversedFails(y, first);
    assert Since(Live(y, first), Live(w, first)) && Since(Reversal(y, first), Reversal(w, first));
  }
}
