/** What a Transaction's rollback leaves and finds on the ledger, in every world
    the whole system reaches. */
module SystemTheorems {
  import opened Common
  import opened Dag
  import L = Ledger
  import LI = LedgerInvariant
  import M = Manifest
  import TA = TransferAgreement
  import TT = TransferTheorems
  import S = TransactionSaga
  import I = Isolation
  import opened TransactionStream
  import V = TransactionInvariant
  import opened TransactionLedger
  import opened IsolationLedger
  import opened TransactionSystem
  import opened SystemInvariant

  // ---- What holds in every reachable world ---------------------------------

  lemma DrawnIsOwned(k: Cast, j: System, id: Id)
    requires Shaped(k, j)
    ensures Drawn(k, id) <==> Owned(PairsOf(k, j), id)
  {
    if Drawn(k, id) {
      var x :| x in k.draws && Drawer(id) == Some(k.draws[x]);
      assert x.child in PairsOf(k, j) && (x == Forward(x.child) || x == Backward(x.child));
    }
    if Owned(PairsOf(k, j), id) {
      var cs := PairsOf(k, j);
      var c :| c in cs && (Drawer(id) == Some(cs[c].drawer) || Drawer(id) == Some(cs[c].reverser));
      assert Forward(c) in k.draws && Backward(c) in k.draws;
    }
  }

  lemma KeptIsAccounted(k: Cast, j: System)
    requires Shaped(k, j) && Kept(k, j.ledger, j.scene.posted)
    ensures Accounted(j.ledger, PairsOf(k, j), j.scene.posted)
  {
    forall id | id in j.ledger.transfers && LI.Moves(j.ledger.transfers[id]) && !Owned(PairsOf(k, j), id)
      ensures Carried(j.ledger.transfers[id], j.scene.posted)
    {
      DrawnIsOwned(k, j, id);
    }
  }

  lemma PairStands(k: Cast, j: System, c: Id)
    requires Shaped(k, j) && Standing(k, j) && Fitting(k, j) && c in k.dest
    ensures StandsOn(j.scene.saga, j.ledger, c, PairsOf(k, j)[c])
  {
    assert Drives(k.draws[Forward(c)], WorldOf(j, Forward(c)), j.ledger, OutcomeAt(j.scene.saga, Forward(c)));
    assert Drives(k.draws[Backward(c)], WorldOf(j, Backward(c)), j.ledger, OutcomeAt(j.scene.saga, Backward(c)));
    if LegsAt(j, Backward(c)).Some? {
      assert Means(j.procs[Backward(c)], LegsAt(j, Backward(c)).value);
      TT.ReachableInv(k.draws[Forward(c)], WorldOf(j, Forward(c)));
      M.LawfulPreparesOnce(j.procs[Forward(c)].stream);
    }
  }

  lemma PartsAreApart(k: Cast, j: System)
    requires Shaped(k, j)
    ensures Apart(PairsOf(k, j))
  {
    forall c, x | c in k.dest && x in k.dest
      ensures k.draws[Forward(c)] != k.draws[Backward(x)]
      ensures c != x ==> k.draws[Forward(c)] != k.draws[Forward(x)] && k.draws[Backward(c)] != k.draws[Backward(x)]
    {
      assert Forward(c) != Backward(x);
    }
  }

  lemma PairsStand(k: Cast, j: System)
    requires Shaped(k, j) && Standing(k, j) && Fitting(k, j)
    ensures forall c :: c in k.dest ==> StandsOn(j.scene.saga, j.ledger, c, PairsOf(k, j)[c])
  {
    forall c | c in k.dest ensures StandsOn(j.scene.saga, j.ledger, c, PairsOf(k, j)[c]) { PairStands(k, j, c); }
  }

  lemma TogetherOnLedger(w: S.World, s: L.State, cs: Pairs)
    requires cs.Keys == SpecOf(w.stream).nodes && Apart(cs) && forall c :: c in cs.Keys ==> StandsOn(w, s, c, cs[c])
    ensures OnLedger(w, s, cs)
  {
  }

  /** Past its opening, the Transaction's children stand on the one ledger at the
      outcomes the saga reads. */
  lemma StandsOnLedger(k: Cast, j: System)
    requires Shaped(k, j) && Standing(k, j) && Fitting(k, j) && SpecOf(j.scene.saga.stream).nodes == k.dest.Keys
    ensures OnLedger(j.scene.saga, j.ledger, PairsOf(k, j))
  {
    PartsAreApart(k, j);
    PairsStand(k, j);
    TogetherOnLedger(j.scene.saga, j.ledger, PairsOf(k, j));
  }

  lemma LegsFit(k: Cast, j: System, c: Id, leg: M.Leg)
    requires Shaped(k, j) && Standing(k, j) && Fitting(k, j) && c in k.dest && leg in LegsOf(PairsOf(k, j)[c])
    ensures InOrder(SpecOf(j.scene.saga.stream).deps, k.dest, c, leg)
  {
    assert Drives(k.draws[Forward(c)], WorldOf(j, Forward(c)), j.ledger, OutcomeAt(j.scene.saga, Forward(c)));
    TT.ReachableInv(k.draws[Forward(c)], WorldOf(j, Forward(c)));
    M.LawfulPreparesOnce(j.procs[Forward(c)].stream);
    var legs := LegsAt(j, Forward(c)).value;
    assert Means(j.procs[Forward(c)], legs);
    var i :| 0 <= i < |legs| && M.Plain(legs)[i] == leg;
    assert LegFits(k, SpecOf(j.scene.saga.stream).deps, c, legs[i]);
  }

  /** How one child's legs keep to the order of spending. */
  ghost predicate InOrder(deps: Deps, dest: map<Id, Id>, c: Id, leg: M.Leg)
    requires c in dest
  {
    && leg.dest == dest[c] && leg.source != dest[c]
    && forall x :: x in dest && leg.source == dest[x] ==> DependsOn(deps, c, x)
  }

  lemma ChainedInOrder(deps: Deps, cs: Pairs, dest: map<Id, Id>)
    requires cs.Keys == dest.Keys && (forall c, x :: c in dest && x in dest && c != x ==> dest[c] != dest[x])
    requires forall c, leg :: c in cs && leg in LegsOf(cs[c]) ==> InOrder(deps, dest, c, leg)
    ensures Chained(deps, cs, dest)
  {
  }

  lemma SpendsInOrder(k: Cast, j: System)
    requires Shaped(k, j) && Standing(k, j) && Fitting(k, j)
    ensures Chained(SpecOf(j.scene.saga.stream).deps, PairsOf(k, j), k.dest)
  {
    var cs, deps := PairsOf(k, j), SpecOf(j.scene.saga.stream).deps;
    forall c, leg | c in cs && leg in LegsOf(cs[c]) ensures InOrder(deps, k.dest, c, leg) { LegsFit(k, j, c, leg); }
    ChainedInOrder(deps, cs, k.dest);
  }

  lemma {:induction false} SceneRunsSaga(me: Id, ws: seq<I.Scene>, actions: seq<I.Action>, n: nat)
    requires I.IsRun(me, ws, actions) && n < |ws|
    ensures S.Reachable(ws[n].saga)
  {
    if n == 0 {
      assert S.IsRun([S.Start], []) && [S.Start][|[S.Start]| - 1] == S.Start;
    } else {
      SceneRunsSaga(me, ws, actions, n - 1);
      if actions[n - 1].Saga? { S.ReachableStep(ws[n - 1].saga, actions[n - 1].step); }
    }
  }

  lemma SagaIsReachable(me: Id, w: I.Scene)
    requires I.Reachable(me, w)
    ensures S.Reachable(w.saga) && Lawful(w.saga.stream)
  {
    var ws, actions :| I.IsRun(me, ws, actions) && ws[|ws| - 1] == w;
    SceneRunsSaga(me, ws, actions, |ws| - 1);
    I.ReachableInv(me, w);
  }

  /** A Transaction not rejected opened with its plan, for the children cast. */
  lemma OpenedIsNamed(k: Cast, es: Stream)
    requires Lawful(es) && es != [] && es != [Rejected] && Named(k, es)
    ensures SpecOf(es).nodes == k.dest.Keys
  {
    OpensWithSpec(es);
  }

  lemma RolledBackIsOpened(es: Stream)
    requires Lawful(es) && TopLevelState(es).IsRolledBack?
    ensures es != [] && es != [Rejected]
  {
    if es != [] { OpensWithSpec(es); }
  }

  /** A committed child has prepared legs, and so minted its Token and opened its
      account before. */
  lemma CommittedIsTagged(k: Cast, j: System, c: Id)
    requires Inv(k, j) && c in k.dest && S.Live(j.scene.saga, c).IsCommitted?
    ensures I.Tagged(j.scene.minted, k.dest[c], Some(k.me)) && k.dest[c] in j.ledger.accounts
  {
    var x := Forward(c);
    assert Drives(k.draws[x], WorldOf(j, x), j.ledger, OutcomeAt(j.scene.saga, x));
    TT.ReachableInv(k.draws[x], WorldOf(j, x));
    TA.LawfulIsWitnessed(j.procs[x].stream);
    assert Means(j.procs[x], LegsAt(j, x).value);
  }

  // ---- Theorems ------------------------------------------------------------

  /** In every reachable world where the Transaction is rolled back, its records
      have moved each Token by exactly what its Failed children's moved it by, so
      each account holds that and what everyone else's records make it. */
  lemma RolledBackLeaves(k: Cast, j: System, t: Id)
    requires Reachable(k, j) && TopLevelState(j.scene.saga.stream).IsRolledBack?
    ensures Shaped(k, j)
    ensures var cs := PairsOf(k, j);
      && TransactionNet(j.ledger, cs, t) == Sum(FailedParts(j.scene.saga, j.ledger, cs, t))
      && (t in j.ledger.accounts ==>
            PostedBalance(j.ledger, t) == TransactionNet(j.ledger, cs, t) + Sum(RestNets(j.ledger, cs, t)))
  {
    ReachableInv(k, j);
    SagaIsReachable(k.me, j.scene);
    RolledBackIsOpened(j.scene.saga.stream);
    OpenedIsNamed(k, j.scene.saga.stream);
    StandsOnLedger(k, j);
    RolledBackNetsExactly(j.scene.saga, j.ledger, PairsOf(k, j), t);
    if t in j.ledger.accounts { BalanceAddsUp(j.ledger, PairsOf(k, j), t); }
  }

  lemma UndoableIsNamed(k: Cast, scene: I.Scene, c: Id)
    requires I.Reachable(k.me, scene) && Named(k, scene.saga.stream) && V.Undoable(scene.saga.stream, c)
    ensures SpecOf(scene.saga.stream).nodes == k.dest.Keys
  {
    SagaIsReachable(k.me, scene);
    OpenedIsNamed(k, scene.saga.stream);
  }

  lemma UndoingStands(k: Cast, j: System, c: Id)
    requires Inv(k, j) && V.Undoable(j.scene.saga.stream, c) && c in k.dest && S.Live(j.scene.saga, c).IsCommitted?
    requires TT.MovedNothing(k.draws[Backward(c)], j.ledger)
    ensures Undoing(j.scene.saga, j.ledger, PairsOf(k, j), k.dest, c)
  {
    UndoableIsNamed(k, j.scene, c);
    StandsOnLedger(k, j);
    SpendsInOrder(k, j);
  }

  /** In every reachable world where a committed child may be undone and its
      Reversal has posted nothing yet, the Token the child paid into holds what the
      Reversal takes, plus what children that ended Failed moved there. */
  lemma ReversalFinds(k: Cast, j: System, c: Id)
    requires Reachable(k, j) && I.IsOpen(j.scene.saga.stream) && V.Undoable(j.scene.saga.stream, c) && c in k.dest
    requires S.Live(j.scene.saga, c).IsCommitted?
    requires Backward(c) in k.draws && TT.MovedNothing(k.draws[Backward(c)], j.ledger)
    ensures Shaped(k, j) && k.dest[c] in j.ledger.accounts
    ensures var cs := PairsOf(k, j);
      && PostedBalance(j.ledger, k.dest[c]) ==
           PaidIn(LegsOf(cs[c])) + Sum(FailedParts(j.scene.saga, j.ledger, cs, k.dest[c]))
      && M.Net(M.Reversed(LegsOf(cs[c])), k.dest[c]) == 0 - PaidIn(LegsOf(cs[c]))
  {
    ReachableInv(k, j);
    UndoingStands(k, j, c);
    KeptIsAccounted(k, j);
    CommittedIsTagged(k, j, c);
    ReversalFindsExactly(k.me, j.scene, j.ledger, PairsOf(k, j), k.dest, c);
  }
}
