/** A Transaction's children and their Reversals, each a Transfer run of its own,
    over the one ledger they share: what they have moved, all together. */
module TransactionLedger {
  import opened Common
  import L = Ledger
  import LI = LedgerInvariant
  import M = Manifest
  import T = TransferStream
  import P = TransferProtocol
  import TA = TransferAgreement
  import TT = TransferTheorems
  import TF = TransferFailure
  import opened TransferNet
  import opened TransactionStream
  import opened TransactionSaga
  import opened TransactionInvariant
  import opened TransactionTheorems

  // ---- Children on the ledger ----------------------------------------------

  /** A child's Transfer and the Reversal under the id derived from it: who draws
      the ledger ids of each, and where the run of each has got to. */
  datatype Pair = Pair(drawer: nat, transfer: P.World, reverser: nat, reversal: P.World)

  type Pairs = map<Id, Pair>

  /** A Transfer run that has reached `p` on the ledger `s`, where a Transaction
      reads the outcome `o`. */
  ghost predicate Drives(me: nat, p: P.World, s: L.State, o: T.OutcomeKind) {
    P.Reachable(me, p) && p.ledger == s && T.Outcome(p.stream) == o
  }

  /** A Reversal prepares the legs its original prepared, swapped. */
  ghost predicate Undoes(pair: Pair) {
    T.LegsOf(pair.reversal.stream).Some? ==>
      M.Plain(T.LegsOf(pair.reversal.stream).value) == M.Reversed(M.PreparedLegs(pair.transfer.stream))
  }

  /** No two of the Transfers draw the same ids. */
  ghost predicate Apart(cs: Pairs) {
    && (forall c :: c in cs ==> cs[c].drawer != cs[c].reverser)
    && forall c, x :: c in cs && x in cs && c != x ==>
         cs[c].drawer != cs[x].drawer && cs[c].drawer != cs[x].reverser && cs[c].reverser != cs[x].reverser
  }

  /** The saga's world over one ledger: every child's Transfer and Reversal is a
      run that stands on `s`, at the outcome the saga reads. */
  ghost predicate OnLedger(w: World, s: L.State, cs: Pairs) {
    cs.Keys == SpecOf(w.stream).nodes && Apart(cs) && forall c :: c in cs ==> StandsOn(w, s, c, cs[c])
  }

  ghost predicate StandsOn(w: World, s: L.State, c: Id, pair: Pair) {
    && Drives(pair.drawer, pair.transfer, s, Live(w, c)) && Drives(pair.reverser, pair.reversal, s, Reversal(w, c))
    && Undoes(pair)
  }

  // ---- What one Transfer's outcome says of the ledger ----------------------

  /** Neither begun, refused, nor cancelled Transfers have moved anything. */
  lemma UncommittedNets(me: nat, p: P.World, t: Id)
    requires P.Reachable(me, p) &&
      (T.Outcome(p.stream).NotFound? || T.Outcome(p.stream).Rejected? || T.Outcome(p.stream).IsCancelled?)
    ensures DrawnNet(me, p.ledger, t) == 0
  {
    var es := p.stream;
    TT.ReachableInv(me, p);
    if T.Outcome(es).IsCancelled? {
      TT.LedgerAgreement(me, p);
    } else {
      if es != [] && T.RejectedRequest(es) { T.RejectedStaysRejected(es); }
      if es != [] && !T.RejectedRequest(es) { T.AcceptedIsKnown(es); }
      TT.NoLegsMoveNothing(me, es, p.ledger);
    }
    UnmovedNetsToZero(me, p.ledger, t);
  }

  /** A committed Transfer and its committed Reversal cancel out at every Token. */
  lemma ReversedNets(pair: Pair, s: L.State, t: Id)
    requires Drives(pair.drawer, pair.transfer, s, T.IsCommitted) &&
      Drives(pair.reverser, pair.reversal, s, T.IsCommitted) && Undoes(pair)
    ensures DrawnNet(pair.drawer, s, t) + DrawnNet(pair.reverser, s, t) == 0
  {
    CommittedNets(pair.drawer, pair.transfer, t);
    CommittedNets(pair.reverser, pair.reversal, t);
    TT.ReachableInv(pair.drawer, pair.transfer);
    M.LawfulPreparesOnce(pair.transfer.stream);
    M.ReversedNet(M.PreparedLegs(pair.transfer.stream), t);
  }

  /** How a Transfer that ended Failed must have been driven for it to have moved
      nothing: some run to where it stands in which no late Failed landed, or no
      driver acted after losing its claim. */
  ghost predicate HonestlyFailed(me: nat, p: P.World) {
    exists ws, actions :: HonestRun(me, ws, actions) && ws[|ws| - 1] == p
  }

  ghost predicate HonestRun(me: nat, ws: seq<P.World>, actions: seq<P.Action>) {
    && P.IsRun(me, ws, actions)
    && if T.StageRequested(ws[|ws| - 1].stream) then forall i :: 0 <= i < |actions| ==> TF.Orderly(ws[i], actions[i])
       else forall i :: 0 <= i < |actions| ==> TF.Punctual(ws[i], actions[i])
  }

  lemma HonestFailureNets(me: nat, p: P.World, t: Id)
    requires HonestlyFailed(me, p) && T.Outcome(p.stream).IsFailed?
    ensures DrawnNet(me, p.ledger, t) == 0
  {
    var ws, actions :| HonestRun(me, ws, actions) && ws[|ws| - 1] == p;
    var n := |ws| - 1;
    TA.RunKeepsInv(me, ws, actions, n);
    FailedIsThere(p.stream);
    if T.StageRequested(p.stream) { TF.StagedFailureMovesNothing(me, ws, actions, n); }
    else { TF.ImmediateFailureMovesNothing(me, ws, actions, n); }
    UnmovedNetsToZero(me, p.ledger, t);
  }

  lemma {:induction false} FailedIsThere(es: T.Stream)
    requires T.CurrentPhase(es).InFailed?
    ensures T.Failed in es
  {
    var n := |es| - 1;
    if !es[n].Failed? { FailedIsThere(es[..n]); }
  }

  // ---- What the Transaction has moved --------------------------------------

  /** What one child and its Reversal have moved a Token by. */
  ghost function PairNet(s: L.State, pair: Pair, t: Id): int {
    DrawnNet(pair.drawer, s, t) + DrawnNet(pair.reverser, s, t)
  }

  ghost function PairNets(s: L.State, cs: Pairs, t: Id): map<Id, int> { map c | c in cs :: PairNet(s, cs[c], t) }

  /** Credits less debits at a Token, over every record of the Transaction's
      Transfers on the ledger. */
  ghost function TransactionNet(s: L.State, cs: Pairs, t: Id): int { Sum(PairNets(s, cs, t)) }

  /** What a child that ended Failed has moved. */
  ghost function FailedPart(w: World, s: L.State, pair: Pair, c: Id, t: Id): int {
    if Live(w, c).IsFailed? then DrawnNet(pair.drawer, s, t) else 0
  }

  ghost function FailedParts(w: World, s: L.State, cs: Pairs, t: Id): map<Id, int> {
    map c | c in cs :: FailedPart(w, s, cs[c], c, t)
  }

  /** Once resolved, a child has moved only what it moved if it ended Failed. */
  lemma ResolvedNets(w: World, s: L.State, cs: Pairs, c: Id, t: Id)
    requires OnLedger(w, s, cs) && Licensed(w) && c in cs
    requires Live(w, c).NotFound? || EndedUncommitted(Live(w, c)) ||
      (Live(w, c).IsCommitted? && Reversal(w, c).IsCommitted?)
    ensures PairNet(s, cs[c], t) == FailedPart(w, s, cs[c], c, t)
  {
    if Live(w, c).IsCommitted? {
      ReversedNets(cs[c], s, t);
    } else {
      UncommittedNets(cs[c].reverser, cs[c].reversal, t);
      if !Live(w, c).IsFailed? { UncommittedNets(cs[c].drawer, cs[c].transfer, t); }
    }
  }

  lemma RolledBackChildNets(w: World, s: L.State, cs: Pairs, c: Id, t: Id)
    requires Reachable(w) && TopLevelState(w.stream).IsRolledBack? && OnLedger(w, s, cs) && c in cs
    ensures PairNet(s, cs[c], t) == FailedPart(w, s, cs[c], c, t)
  {
    ReachableInv(w);
    RolledBackIsUndone(w, c);
    ResolvedNets(w, s, cs, c, t);
  }

  lemma SameParts(w: World, s: L.State, cs: Pairs, t: Id)
    requires forall c :: c in cs ==> PairNet(s, cs[c], t) == FailedPart(w, s, cs[c], c, t)
    ensures PairNets(s, cs, t) == FailedParts(w, s, cs, t)
  {
  }

  /** A rolled back Transaction has moved each Token by exactly what its Failed
      children moved it by, and by nothing else. */
  lemma RolledBackNetsExactly(w: World, s: L.State, cs: Pairs, t: Id)
    requires Reachable(w) && TopLevelState(w.stream).IsRolledBack? && OnLedger(w, s, cs)
    ensures TransactionNet(s, cs, t) == Sum(FailedParts(w, s, cs, t))
  {
    forall c | c in cs ensures PairNet(s, cs[c], t) == FailedPart(w, s, cs[c], c, t) {
      RolledBackChildNets(w, s, cs, c, t);
    }
    SameParts(w, s, cs, t);
  }

  // ---- What is left on the books -------------------------------------------

  /** A record of one of the Transaction's Transfers. */
  ghost predicate Owned(cs: Pairs, id: Id) {
    exists c :: c in cs && (Drawer(id) == Some(cs[c].drawer) || Drawer(id) == Some(cs[c].reverser))
  }

  ghost function AllNets(s: L.State, t: Id): map<Id, int> {
    map id | id in s.transfers :: PostedNet(s.transfers[id], t)
  }

  /** What everyone else's records have moved a Token by. */
  ghost function RestNets(s: L.State, cs: Pairs, t: Id): map<Id, int> {
    map id | id in s.transfers :: if Owned(cs, id) then 0 else PostedNet(s.transfers[id], t)
  }

  lemma OwnedWithout(cs: Pairs, c: Id, id: Id)
    requires c in cs
    ensures Owned(cs, id) <==>
      Owned(cs - {c}, id) || Drawer(id) == Some(cs[c].drawer) || Drawer(id) == Some(cs[c].reverser)
  {
    if x :| x in cs && x != c && (Drawer(id) == Some(cs[x].drawer) || Drawer(id) == Some(cs[x].reverser)) {
      assert (cs - {c})[x] == cs[x];
    }
  }

  lemma ApartWithout(cs: Pairs, c: Id, id: Id)
    requires Apart(cs) && c in cs && Owned(cs - {c}, id)
    ensures Drawer(id) != Some(cs[c].drawer) && Drawer(id) != Some(cs[c].reverser)
  {
    var x :| x in cs - {c} && (Drawer(id) == Some((cs - {c})[x].drawer) || Drawer(id) == Some((cs - {c})[x].reverser));
    assert (cs - {c})[x] == cs[x];
  }

  /** One child's records are its Transfer's and its Reversal's. */
  lemma RestWithout(s: L.State, cs: Pairs, c: Id, t: Id)
    requires Apart(cs) && c in cs
    ensures Sum(RestNets(s, cs - {c}, t)) == Sum(RestNets(s, cs, t)) + PairNet(s, cs[c], t)
  {
    var own := map id | id in s.transfers :: DrawnNets(cs[c].drawer, s, t)[id] + DrawnNets(cs[c].reverser, s, t)[id];
    forall id | id in s.transfers ensures RestNets(s, cs - {c}, t)[id] == RestNets(s, cs, t)[id] + own[id] {
      OwnedWithout(cs, c, id);
      if Owned(cs - {c}, id) { ApartWithout(cs, c, id); }
    }
    SumAdds(own, DrawnNets(cs[c].drawer, s, t), DrawnNets(cs[c].reverser, s, t));
    SumAdds(RestNets(s, cs - {c}, t), RestNets(s, cs, t), own);
  }

  lemma ApartStays(cs: Pairs, c: Id)
    requires Apart(cs)
    ensures Apart(cs - {c})
  {
  }

  lemma NetWithout(s: L.State, cs: Pairs, c: Id, t: Id)
    requires c in cs
    ensures TransactionNet(s, cs, t) == TransactionNet(s, cs - {c}, t) + PairNet(s, cs[c], t)
  {
    SumRemove(PairNets(s, cs, t), c);
    assert PairNets(s, cs, t) - {c} == PairNets(s, cs - {c}, t);
  }

  lemma NobodysNets(s: L.State, t: Id)
    ensures RestNets(s, map[], t) == AllNets(s, t) && TransactionNet(s, map[], t) == 0
  {
    assert PairNets(s, map[], t) == map[];
  }

  /** Every record is the Transaction's or somebody else's. */
  lemma {:induction false} NetsAddUp(s: L.State, cs: Pairs, t: Id)
    requires Apart(cs)
    ensures Sum(AllNets(s, t)) == TransactionNet(s, cs, t) + Sum(RestNets(s, cs, t))
    decreases |cs|
  {
    if cs == map[] {
      NobodysNets(s, t);
    } else {
      var c :| c in cs;
      ApartStays(cs, c);
      NetsAddUp(s, cs - {c}, t);
      RestWithout(s, cs, c, t);
      NetWithout(s, cs, c, t);
    }
  }

  function PostedBalance(s: L.State, t: Id): int
    requires t in s.accounts
  {
    s.accounts[t].creditsPosted - s.accounts[t].debitsPosted
  }

  /** On reconciled books an account holds what all the records moved it by. */
  lemma BalanceIsNet(s: L.State, t: Id)
    requires LI.Reconciled(s) && t in s.accounts
    ensures PostedBalance(s, t) == Sum(AllNets(s, t))
  {
    var credits := map id | id in s.transfers :: LI.PostedBy(s.transfers[id], t, LI.Credit);
    var debits := map id | id in s.transfers :: LI.PostedBy(s.transfers[id], t, LI.Debit);
    SumAdds(credits, AllNets(s, t), debits);
    assert LI.PostedTotal(s.accounts[t], LI.Credit) == LI.PostedSum(s.transfers, t, LI.Credit);
    assert LI.PostedTotal(s.accounts[t], LI.Debit) == LI.PostedSum(s.transfers, t, LI.Debit);
  }

  lemma BalanceAddsUp(s: L.State, cs: Pairs, t: Id)
    requires Apart(cs) && LI.Reconciled(s) && t in s.accounts
    ensures PostedBalance(s, t) == TransactionNet(s, cs, t) + Sum(RestNets(s, cs, t))
  {
    BalanceIsNet(s, t);
    NetsAddUp(s, cs, t);
  }

  lemma HonestPartsAreZero(w: World, s: L.State, cs: Pairs, t: Id)
    requires OnLedger(w, s, cs)
    requires forall c :: c in cs && Live(w, c).IsFailed? ==> HonestlyFailed(cs[c].drawer, cs[c].transfer)
    ensures Sum(FailedParts(w, s, cs, t)) == 0
  {
    forall c | c in cs ensures FailedPart(w, s, cs[c], c, t) == 0 {
      if Live(w, c).IsFailed? { HonestFailureNets(cs[c].drawer, cs[c].transfer, t); }
    }
    SumZero(FailedParts(w, s, cs, t));
  }

  /** A rolled back Transaction whose Failed children were driven honestly has
      moved no Token: each holds exactly what everyone else's records make it. */
  lemma RolledBackNetsToZero(w: World, s: L.State, cs: Pairs, t: Id)
    requires Reachable(w) && TopLevelState(w.stream).IsRolledBack? && OnLedger(w, s, cs)
    requires forall c :: c in cs && Live(w, c).IsFailed? ==> HonestlyFailed(cs[c].drawer, cs[c].transfer)
    ensures TransactionNet(s, cs, t) == 0
    ensures LI.Reconciled(s) && t in s.accounts ==> PostedBalance(s, t) == Sum(RestNets(s, cs, t))
  {
    RolledBackNetsExactly(w, s, cs, t);
    HonestPartsAreZero(w, s, cs, t);
    if LI.Reconciled(s) && t in s.accounts { BalanceAddsUp(s, cs, t); }
  }
}
