/** A run that shows what a rollback cannot see: a child that ended Failed with
    its money moved leaves a rolled back Transaction out of balance. */
module TransactionWitness {
  import opened Common
  import opened Dag
  import L = Ledger
  import LI = LedgerInvariant
  import T = TransferStream
  import P = TransferProtocol
  import TT = TransferTheorems
  import TW = TransferWitness
  import V = ValidateDag
  import opened TransferNet
  import opened TransactionStream
  import opened TransactionOrder
  import opened TransactionSaga
  import opened TransactionLedger

  // ---- A Transaction of one child ------------------------------------------

  const kid: Id := Uuid(7, 0)
  const spec: Spec := Spec({kid}, map[])
  const request: map<Id, V.Child> := map[kid := V.Child(kid, Some(V.Money(5, "USD")))]

  function Opened(): Stream { [Initialized(spec)] }
  function Dispatched(): Stream { Opened() + ([Started] + Intents([kid])) }

  lemma RequestIsValid()
    ensures V.Valid(request, map[]) && request.Keys == {kid}
  {
    assert kid in request;
    assert Acyclic(map[]) by {
      forall p ensures !IsCycle(map[], p) {
        if |p| >= 2 { assert p[0 + 1] !in Parents(map[], p[0]); }
      }
    }
  }

  lemma OpenedFacts()
    ensures TopLevelState(Opened()) == IsInitialized && ChildStates(Opened()) == map[] && SpecOf(Opened()) == spec
    ensures ReadyIn(Opened()) == {kid} && Cut(ReadyIn(Opened()), [kid]) && Consequence(Opened()).None?
  {
    Snoc([], Initialized(spec));
    assert [] + [Initialized(spec)] == Opened();
    assert ReadyIn(Opened()) == {kid};
  }

  /** One caller at `pc`, the child's Transfer at `transfers`. */
  function At(es: Stream, transfers: Outcomes, pc: Pc): World { World(es, transfers, map[], map[0 := pc]) }

  lemma OpenSteps()
    ensures Enabled(Start, Open(0, request, map[], true))
    ensures Step(Start, Open(0, request, map[], true)) == At([], map[], Opening(Initialized(spec)))
    ensures Step(At([], map[], Opening(Initialized(spec))), AppendOpening(0)) == At(Opened(), map[], Idle)
  {
    RequestIsValid();
  }

  lemma ChooseSteps()
    ensures Step(At(Opened(), map[], Idle), Load(0)) == At(Opened(), map[], Reconciling(Opened(), {}, false))
    ensures Enabled(At(Opened(), map[], Reconciling(Opened(), {}, false)), Proceed(0, [kid]))
    ensures Step(At(Opened(), map[], Reconciling(Opened(), {}, false)), Proceed(0, [kid])) ==
      At(Opened(), map[], Dispatching(Opened(), [kid]))
  {
    OpenedFacts();
  }

  lemma DispatchStep()
    ensures Step(At(Opened(), map[], Dispatching(Opened(), [kid])), AppendSlice(0)) ==
      At(Dispatched(), map[], Requesting({kid}, Idle))
  {
    OpenedFacts();
    assert SetOf([kid]) == {kid};
  }

  /** The child's Transfer is accepted. */
  lemma RequestSteps()
    ensures Step(At(Dispatched(), map[], Requesting({kid}, Idle)), Request(0, kid, true)) ==
      At(Dispatched(), map[kid := T.InFlight], Requesting({}, Idle))
    ensures Step(At(Dispatched(), map[kid := T.InFlight], Requesting({}, Idle)), Finish(0)) ==
      At(Dispatched(), map[kid := T.InFlight], Idle)
  {
    assert {kid} - {kid} == {};
  }

  lemma Dispatches()
    ensures Reachable(At(Dispatched(), map[], Requesting({kid}, Idle)))
  {
    assert IsRun([Start], []) && [Start][|[Start]| - 1] == Start;
    OpenSteps();
    ReachableStep(Start, Open(0, request, map[], true));
    ReachableStep(At([], map[], Opening(Initialized(spec))), AppendOpening(0));
    ChooseSteps();
    ReachableStep(At(Opened(), map[], Idle), Load(0));
    ReachableStep(At(Opened(), map[], Reconciling(Opened(), {}, false)), Proceed(0, [kid]));
    DispatchStep();
    ReachableStep(At(Opened(), map[], Dispatching(Opened(), [kid])), AppendSlice(0));
  }

  /** The child's Transfer is accepted, and then fails. */
  lemma ChildFails() returns (w: World)
    ensures Reachable(w) && w == At(Dispatched(), map[kid := T.IsFailed], Idle)
  {
    Dispatches();
    RequestSteps();
    ReachableStep(At(Dispatched(), map[], Requesting({kid}, Idle)), Request(0, kid, true));
    ReachableStep(At(Dispatched(), map[kid := T.InFlight], Requesting({}, Idle)), Finish(0));
    w := At(Dispatched(), map[kid := T.InFlight], Idle);
    ReachableStep(w, Move(kid, T.IsFailed));
    w := Step(w, Move(kid, T.IsFailed));
  }

  lemma DispatchedFacts()
    ensures TopLevelState(Dispatched()) == IsStarted && ChildStates(Dispatched()) == map[kid := Requested]
    ensures SpecOf(Dispatched()) == spec && With(ChildStates(Dispatched()), Requested) == {kid}
    ensures Dispatched() == Opened() + [Started] + [Child(kid, Requested)]
  {
    OpenedFacts();
    Snoc(Opened(), Started);
    Snoc(Opened() + [Started], Child(kid, Requested));
    assert Intents([kid]) == [Child(kid, Requested)];
  }

  lemma Notices() returns (w: World)
    ensures Reachable(w)
    ensures w == World(Dispatched(), map[kid := T.IsFailed], map[],
                       map[0 := Recording(Child(kid, Failed), Reconciling(Dispatched(), {}, true))])
  {
    w := ChildFails();
    DispatchedFacts();
    ReachableStep(w, Load(0));
    w := Step(w, Load(0));
    assert w.drivers == map[0 := Reconciling(Dispatched(), {kid}, false)];
    ReachableStep(w, ReadOutcome(0, kid));
    w := Step(w, ReadOutcome(0, kid));
    assert {kid} - {kid} == {};
  }

  /** The failure, the rollback it starts and its conclusion, all in one append. */
  lemma FailureConcludes()
    ensures Appends(Dispatched(), Child(kid, Failed)) == [Child(kid, Failed), RollbackStarted, RolledBack]
    ensures TopLevelState(Dispatched() + Appends(Dispatched(), Child(kid, Failed))) == IsRolledBack
    ensures SpecOf(Dispatched() + Appends(Dispatched(), Child(kid, Failed))) == spec
  {
    DispatchedFacts();
    var es := Dispatched();
    var es1 := es + [Child(kid, Failed)];
    Snoc(es, Child(kid, Failed));
    assert kid in With(ChildStates(es1), Failed);
    var es2 := es1 + [RollbackStarted];
    Snoc(es1, RollbackStarted);
    DecidedStep(es1, RollbackStarted);
    assert ChildStates(es2) == map[kid := Failed];
    assert Consequence(es2) == Some(RolledBack);
    DecidedStep(es2, RolledBack);
    Snoc(es2, RolledBack);
    assert es + [Child(kid, Failed), RollbackStarted, RolledBack] == es2 + [RolledBack];
  }

  lemma RollsBack() returns (w: World)
    ensures Reachable(w) && TopLevelState(w.stream).IsRolledBack? && SpecOf(w.stream) == spec
    ensures w.transfers == map[kid := T.IsFailed] && w.reversals == map[]
  {
    w := Notices();
    FailureConcludes();
    ReachableStep(w, LoadStep(0));
    w := Step(w, LoadStep(0));
    ReachableStep(w, AppendStep(0));
    w := Step(w, AppendStep(0));
  }

  // ---- Whose Transfer failed late ------------------------------------------

  /** A Reversal nobody ever asked for, on the ledger the late failure left. */
  lemma UnaskedReversal(s: L.State)
    requires s == TW.Moved(P.Direct) && LI.Sound(s)
    ensures P.Reachable(1, P.World([], s, map[]))
  {
    assert s.transfers.Keys == {Uuid(8, 0), Uuid(0, 0)} && s.pending == map[];
    P.ReachableStart(1, P.World([], s, map[]));
  }

  lemma LateDrives(p: P.World)
    requires P.Reachable(0, p) && TW.FailedYetMoved(p, false, P.Direct)
    ensures Drives(0, p, p.ledger, T.IsFailed)
  {
    TT.ReachableInv(0, p);
    if T.RejectedRequest(p.stream) { T.RejectedStaysRejected(p.stream); }
  }

  lemma UnaskedDrives(r: P.World)
    requires P.Reachable(1, r) && r.stream == []
    ensures Drives(1, r, r.ledger, T.NotFound)
  {
  }

  /** One child, failed late, and its Reversal never asked for. */
  lemma LateOnLedger(w: World, p: P.World, r: P.World)
    requires SpecOf(w.stream) == spec && w.transfers == map[kid := T.IsFailed] && w.reversals == map[]
    requires Drives(0, p, p.ledger, T.IsFailed) && Drives(1, r, p.ledger, T.NotFound) && r.stream == []
    ensures OnLedger(w, p.ledger, map[kid := Pair(0, p, 1, r)])
  {
  }

  lemma NetOfOne(s: L.State, pair: Pair, t: Id)
    ensures TransactionNet(s, map[kid := pair], t) == PairNet(s, pair, t)
  {
    var cs: Pairs := map[kid := pair];
    NetWithout(s, cs, kid, t);
    assert cs - {kid} == map[];
    NobodysNets(s, t);
  }

  lemma LatePairNet(p: P.World, r: P.World)
    requires P.Reachable(0, p) && TW.FailedYetMoved(p, false, P.Direct) && P.Reachable(1, r) && r.stream == [] &&
      r.ledger == p.ledger
    ensures PairNet(p.ledger, Pair(0, p, 1, r), TW.B) == 5
  {
    LateNet(p);
    UncommittedNets(1, r, TW.B);
  }

  /** A reachable, rolled back Transaction, on a ledger where its one child
      committed nothing, was reversed by nothing, and yet moved money. */
  lemma RolledBackCanLeaveMoneyMoved() returns (w: World, s: L.State, cs: Pairs, t: Id)
    ensures Reachable(w) && TopLevelState(w.stream).IsRolledBack? && OnLedger(w, s, cs)
    ensures TransactionNet(s, cs, t) != 0
  {
    w := RollsBack();
    var p, r := LateFailure();
    LateDrives(p);
    UnaskedDrives(r);
    LateOnLedger(w, p, r);
    LatePairNet(p, r);
    NetOfOne(p.ledger, Pair(0, p, 1, r), TW.B);
    s, cs, t := p.ledger, map[kid := Pair(0, p, 1, r)], TW.B;
  }

  lemma LateFailure() returns (p: P.World, r: P.World)
    ensures P.Reachable(0, p) && TW.FailedYetMoved(p, false, P.Direct)
    ensures P.Reachable(1, r) && r.stream == [] && r.ledger == p.ledger
  {
    p := TW.ImmediateFailureCanMoveMoney();
    TT.ReachableInv(0, p);
    UnaskedReversal(p.ledger);
    r := P.World([], p.ledger, map[]);
  }

  lemma LateNet(p: P.World)
    requires P.Reachable(0, p) && TW.FailedYetMoved(p, false, P.Direct)
    ensures DrawnNet(0, p.ledger, TW.B) == 5
  {
    TT.ReachableInv(0, p);
    PostedNetsTo(0, p.stream, p.ledger, [TW.leg], P.Direct, TW.B);
  }
}
