/** What a Reversal finds on the ledger: the Token its child paid into holds just
    what it is about to take back (go/internal/transaction/dag.go,
    wallet/tokens.go, transfer/manifest.go). */
module IsolationLedger {
  import opened Common
  import opened Dag
  import L = Ledger
  import LI = LedgerInvariant
  import M = Manifest
  import T = TransferStream
  import P = TransferProtocol
  import TT = TransferTheorems
  import opened TransferNet
  import opened TransactionStream
  import opened TransactionOrder
  import opened TransactionSaga
  import opened TransactionInvariant
  import opened TransactionLedger
  import I = Isolation

  // ---- How children spend each other's Tokens ------------------------------

  ghost predicate DependsOn(deps: Deps, x: Id, c: Id) {
    exists path :: IsDescent(deps, path) && path[0] == c && path[|path| - 1] == x
  }

  /** The legs a child's Transfer has prepared. */
  function LegsOf(pair: Pair): seq<M.Leg> { M.PreparedLegs(pair.transfer.stream) }

  /** Each child pays into the one Token it mints for itself, and a child that
      spends another's Token depends on it. */
  ghost predicate Chained(deps: Deps, cs: Pairs, dest: map<Id, Id>) {
    && cs.Keys == dest.Keys
    && (forall c, x :: c in dest && x in dest && c != x ==> dest[c] != dest[x])
    && (forall c, leg :: c in cs && leg in LegsOf(cs[c]) ==> leg.dest == dest[c] && leg.source != dest[c])
    && (forall c, x, leg :: c in cs && x in cs && leg in LegsOf(cs[x]) && leg.source == dest[c] ==>
      DependsOn(deps, x, c))
  }

  /** Every record on the ledger that is not the Transaction's posted some leg the
      rest of the world posted. */
  ghost predicate Accounted(s: L.State, cs: Pairs, posted: seq<M.Leg>) {
    forall id :: id in s.transfers && LI.Moves(s.transfers[id]) && !Owned(cs, id) ==> Carried(s.transfers[id], posted)
  }

  ghost predicate Carried(t: L.Stored, posted: seq<M.Leg>) {
    exists leg :: leg in posted && leg.source == t.debit && leg.dest == t.credit
  }

  function PaidIn(legs: seq<M.Leg>): nat {
    if legs == [] then 0 else PaidIn(legs[..|legs| - 1]) + legs[|legs| - 1].amount
  }

  lemma {:induction false} NetIntoOne(legs: seq<M.Leg>, t: Id)
    requires forall leg :: leg in legs ==> leg.dest == t && leg.source != t
    ensures M.Net(legs, t) == PaidIn(legs)
  {
    if legs != [] { NetIntoOne(legs[..|legs| - 1], t); }
  }

  // ---- What the other children have left there -----------------------------

  /** A rollback about to undo the committed child `c`, whose Reversal has posted
      nothing yet. */
  ghost predicate Undoing(w: World, s: L.State, cs: Pairs, dest: map<Id, Id>, c: Id) {
    && OnLedger(w, s, cs) && Chained(SpecOf(w.stream).deps, cs, dest) && c in cs
    && Undoable(w.stream, c) && Live(w, c).IsCommitted? && TT.MovedNothing(cs[c].reverser, s)
  }

  /** A child that depends on one being undone never began, ended uncommitted or
      has been undone. */
  lemma DependentIsResolved(w: World, c: Id, x: Id)
    requires TransactionInvariant.Inv(w) && Undoable(w.stream, c) && DependsOn(SpecOf(w.stream).deps, x, c)
    ensures Live(w, x).NotFound? || EndedUncommitted(Live(w, x)) ||
      (Live(w, x).IsCommitted? && Reversal(w, x).IsCommitted?)
  {
    TouchedIsRequested(w.stream, x);
    if x in ChildStates(w.stream) {
      var path :| IsDescent(SpecOf(w.stream).deps, path) && path[0] == c && path[|path| - 1] == x;
      FreeIsDeep(w.stream, path);
      assert forall f :: Child(x, f) in w.stream ==> Backed(w, Child(x, f));
    }
  }

  /** A Transfer with no leg at a Token has moved nothing there. */
  lemma NoLegThere(me: nat, p: P.World, legs: seq<M.Leg>, t: Id)
    requires P.Reachable(me, p) && legs == M.PreparedLegs(p.stream)
    requires forall leg :: leg in legs ==> leg.source != t && leg.dest != t
    ensures DrawnNet(me, p.ledger, t) == 0
  {
    TT.ReachableInv(me, p);
    M.LawfulPreparesOnce(p.stream);
    var own := if T.LegsOf(p.stream).Some? then T.LegsOf(p.stream).value else [];
    forall k | 0 <= k < |own| ensures own[k].source != t && own[k].dest != t { assert M.Plain(own)[k] in legs; }
    ElsewhereNetsToZero(me, p.ledger, own, t);
  }

  lemma SwapsElsewhere(legs: seq<M.Leg>, t: Id)
    requires forall leg :: leg in legs ==> leg.source != t && leg.dest != t
    ensures forall leg :: leg in M.Reversed(legs) ==> leg.source != t && leg.dest != t
  {
    forall leg | leg in M.Reversed(legs) ensures leg.source != t && leg.dest != t {
      var k :| 0 <= k < |M.Reversed(legs)| && M.Reversed(legs)[k] == leg;
      assert legs[k] in legs;
    }
  }

  /** Nor has its Reversal. */
  lemma NoReversedLegThere(pair: Pair, t: Id)
    requires P.Reachable(pair.reverser, pair.reversal) && Undoes(pair)
    requires forall leg :: leg in LegsOf(pair) ==> leg.source != t && leg.dest != t
    ensures DrawnNet(pair.reverser, pair.reversal.ledger, t) == 0
  {
    var legs := M.PreparedLegs(pair.reversal.stream);
    TT.ReachableInv(pair.reverser, pair.reversal);
    M.LawfulPreparesOnce(pair.reversal.stream);
    SwapsElsewhere(LegsOf(pair), t);
    NoLegThere(pair.reverser, pair.reversal, legs, t);
  }

  lemma BystanderNets(w: World, s: L.State, cs: Pairs, x: Id, t: Id)
    requires OnLedger(w, s, cs) && x in cs
    requires forall leg :: leg in LegsOf(cs[x]) ==> leg.source != t && leg.dest != t
    ensures PairNet(s, cs[x], t) == FailedPart(w, s, cs[x], x, t) == 0
  {
    NoLegThere(cs[x].drawer, cs[x].transfer, LegsOf(cs[x]), t);
    NoReversedLegThere(cs[x], t);
  }

  /** Any other child has moved, at the Token of a child being undone, only what
      it moved if it ended Failed. */
  lemma OtherNets(w: World, s: L.State, cs: Pairs, dest: map<Id, Id>, c: Id, x: Id)
    requires TransactionInvariant.Inv(w) && OnLedger(w, s, cs) && Chained(SpecOf(w.stream).deps, cs, dest)
    requires Undoable(w.stream, c) && c in cs && x in cs && x != c
    ensures PairNet(s, cs[x], dest[c]) == FailedPart(w, s, cs[x], x, dest[c])
  {
    if leg :| leg in LegsOf(cs[x]) && leg.source == dest[c] {
      DependentIsResolved(w, c, x);
      ResolvedNets(w, s, cs, x, dest[c]);
    } else {
      BystanderNets(w, s, cs, x, dest[c]);
    }
  }

  /** The failure hypothesis, for the children that depend on `c`. */
  ghost predicate HonestDependents(w: World, cs: Pairs, c: Id) {
    forall x :: x in cs && Live(w, x).IsFailed? && DependsOn(SpecOf(w.stream).deps, x, c) ==>
      HonestlyFailed(cs[x].drawer, cs[x].transfer)
  }

  lemma HonestDependentsMoveNothing(w: World, s: L.State, cs: Pairs, dest: map<Id, Id>, c: Id)
    requires Undoing(w, s, cs, dest, c) && HonestDependents(w, cs, c)
    ensures Sum(FailedParts(w, s, cs, dest[c])) == 0
  {
    forall x | x in cs ensures FailedPart(w, s, cs[x], x, dest[c]) == 0 {
      if Live(w, x).IsFailed? {
        if leg :| leg in LegsOf(cs[x]) && leg.source == dest[c] {
          HonestFailureNets(cs[x].drawer, cs[x].transfer, dest[c]);
        } else {
          NoLegThere(cs[x].drawer, cs[x].transfer, LegsOf(cs[x]), dest[c]);
        }
      }
    }
    SumZero(FailedParts(w, s, cs, dest[c]));
  }

  // ---- And everyone else ---------------------------------------------------

  lemma OutsidersNetToZero(me: Id, w: I.Scene, s: L.State, cs: Pairs, t: Id)
    requires I.Reachable(me, w) && I.IsOpen(w.saga.stream) && I.Tagged(w.minted, t, Some(me)) &&
      Accounted(s, cs, w.posted)
    ensures Sum(RestNets(s, cs, t)) == 0
  {
    forall id | id in s.transfers ensures RestNets(s, cs, t)[id] == 0 {
      if !Owned(cs, id) && LI.Moves(s.transfers[id]) {
        assert Carried(s.transfers[id], w.posted);
        var leg :| leg in w.posted && leg.source == s.transfers[id].debit && leg.dest == s.transfers[id].credit;
        I.OutsidersKeepOut(me, w, leg);
      }
    }
    SumZero(RestNets(s, cs, t));
  }

  /** A committed child whose Reversal has posted nothing has moved its own legs,
      all into one Token, and the Reversal's legs take them out of it. */
  lemma OwnNet(pair: Pair, s: L.State, t: Id)
    requires Drives(pair.drawer, pair.transfer, s, T.IsCommitted) && TT.MovedNothing(pair.reverser, s)
    requires forall leg :: leg in LegsOf(pair) ==> leg.dest == t && leg.source != t
    ensures PairNet(s, pair, t) == PaidIn(LegsOf(pair))
    ensures M.Net(M.Reversed(LegsOf(pair)), t) == 0 - PaidIn(LegsOf(pair))
  {
    CommittedNets(pair.drawer, pair.transfer, t);
    TT.ReachableInv(pair.drawer, pair.transfer);
    M.LawfulPreparesOnce(pair.transfer.stream);
    NetIntoOne(LegsOf(pair), t);
    M.ReversedNet(LegsOf(pair), t);
    UnmovedNetsToZero(pair.reverser, s, t);
  }

  lemma SumsBut(nets: map<Id, int>, parts: map<Id, int>, c: Id)
    requires nets.Keys == parts.Keys && c in nets && parts[c] == 0
    requires forall x :: x in nets && x != c ==> nets[x] == parts[x]
    ensures Sum(nets) == nets[c] + Sum(parts)
  {
    assert nets == parts[c := nets[c]];
    SumUpdate(parts, c, nets[c]);
  }

  lemma ChildrenNetTo(w: World, s: L.State, cs: Pairs, dest: map<Id, Id>, c: Id)
    requires TransactionInvariant.Inv(w) && Undoing(w, s, cs, dest, c)
    ensures TransactionNet(s, cs, dest[c]) == PaidIn(LegsOf(cs[c])) + Sum(FailedParts(w, s, cs, dest[c]))
    ensures M.Net(M.Reversed(LegsOf(cs[c])), dest[c]) == 0 - PaidIn(LegsOf(cs[c]))
  {
    OwnNet(cs[c], s, dest[c]);
    forall x | x in cs && x != c ensures PairNets(s, cs, dest[c])[x] == FailedParts(w, s, cs, dest[c])[x] {
      OtherNets(w, s, cs, dest, c, x);
    }
    SumsBut(PairNets(s, cs, dest[c]), FailedParts(w, s, cs, dest[c]), c);
  }

  lemma SagaIsSound(me: Id, w: I.Scene)
    requires I.Reachable(me, w)
    ensures TransactionInvariant.Inv(w.saga)
  {
    I.ReachableInv(me, w);
  }

  lemma HoldsTheirNet(s: L.State, cs: Pairs, t: Id)
    requires Apart(cs) && LI.Reconciled(s) && t in s.accounts && Sum(RestNets(s, cs, t)) == 0
    ensures PostedBalance(s, t) == TransactionNet(s, cs, t)
  {
    BalanceAddsUp(s, cs, t);
  }

  // ---- The theorem ---------------------------------------------------------

  /** While a committed child is being undone and its Reversal has posted nothing
      yet, the Token it paid into holds on the ledger what the Reversal is about
      to take, less what children that ended Failed took from it all the same:
      the others that spent it have been undone, and nobody else could. */
  lemma ReversalFindsExactly(me: Id, w: I.Scene, s: L.State, cs: Pairs, dest: map<Id, Id>, c: Id)
    requires I.Reachable(me, w) && I.IsOpen(w.saga.stream) && Accounted(s, cs, w.posted)
    requires Undoing(w.saga, s, cs, dest, c)
    requires LI.Reconciled(s) && dest[c] in s.accounts && I.Tagged(w.minted, dest[c], Some(me))
    ensures PostedBalance(s, dest[c]) == PaidIn(LegsOf(cs[c])) + Sum(FailedParts(w.saga, s, cs, dest[c]))
    ensures M.Net(M.Reversed(LegsOf(cs[c])), dest[c]) == 0 - PaidIn(LegsOf(cs[c]))
  {
    SagaIsSound(me, w);
    OutsidersNetToZero(me, w, s, cs, dest[c]);
    HoldsTheirNet(s, cs, dest[c]);
    ChildrenNetTo(w.saga, s, cs, dest, c);
  }

  /** So if the Failed ones among its dependents were driven honestly, the
      Reversal finds all its money. */
  lemma ReversalFindsItsMoney(me: Id, w: I.Scene, s: L.State, cs: Pairs, dest: map<Id, Id>, c: Id)
    requires I.Reachable(me, w) && I.IsOpen(w.saga.stream) && Accounted(s, cs, w.posted)
    requires Undoing(w.saga, s, cs, dest, c) && HonestDependents(w.saga, cs, c)
    requires LI.Reconciled(s) && dest[c] in s.accounts && I.Tagged(w.minted, dest[c], Some(me))
    ensures PostedBalance(s, dest[c]) == PaidIn(LegsOf(cs[c]))
    ensures M.Net(M.Reversed(LegsOf(cs[c])), dest[c]) == 0 - PaidIn(LegsOf(cs[c]))
  {
    HonestDependentsMoveNothing(w.saga, s, cs, dest, c);
    ReversalFindsExactly(me, w, s, cs, dest, c);
  }
}
