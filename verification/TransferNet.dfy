/** What one Transfer has moved a Token by on the ledger, read off the ledger's
    own records. */
module TransferNet {
  import opened Common
  import L = Ledger
  import LI = LedgerInvariant
  import M = Manifest
  import opened TransferStream
  import opened TransferProtocol
  import opened TransferAgreement
  import opened TransferTheorems

  /** What one recorded transfer moved account `a` by. */
  function PostedNet(t: L.Stored, a: Id): int { LI.PostedBy(t, a, LI.Credit) - LI.PostedBy(t, a, LI.Debit) }

  ghost function DrawnNets(me: nat, s: L.State, a: Id): map<Id, int> {
    map id | id in s.transfers :: if Drawer(id) == Some(me) then PostedNet(s.transfers[id], a) else 0
  }

  /** What the Transfer that drew its ids as `me` has moved account `a` by:
      credits less debits, over all its records. */
  ghost function DrawnNet(me: nat, s: L.State, a: Id): int { Sum(DrawnNets(me, s, a)) }

  lemma UnmovedNetsToZero(me: nat, s: L.State, a: Id)
    requires MovedNothing(me, s)
    ensures DrawnNet(me, s, a) == 0
  {
    forall id | id in s.transfers ensures DrawnNets(me, s, a)[id] == 0 {
      assert Drawer(id) == Some(me) ==> Mine(me, s, id);
    }
    SumZero(DrawnNets(me, s, a));
  }

  /** A Transfer moves only the Tokens its legs name. */
  lemma ElsewhereNetsToZero(me: nat, s: L.State, legs: seq<Leg>, a: Id)
    requires Own(me, s, legs) && forall k :: 0 <= k < |legs| ==> legs[k].source != a && legs[k].dest != a
    ensures DrawnNet(me, s, a) == 0
  {
    forall id | id in s.transfers ensures DrawnNets(me, s, a)[id] == 0 {
      if Drawer(id) == Some(me) { assert Mine(me, s, id) && FromLegs(s, legs, id); }
    }
    SumZero(DrawnNets(me, s, a));
  }

  // ---- A committed Transfer ------------------------------------------------

  function Ids(batch: Batch, legs: seq<Leg>): (ids: seq<Id>)
    ensures |ids| == |legs| && forall k :: 0 <= k < |legs| ==> ids[k] == Entry(batch, legs[k], false).id
  {
    seq(|legs|, k requires 0 <= k < |legs| => Entry(batch, legs[k], false).id)
  }

  function LegNet(leg: Leg, a: Id): int {
    (if leg.dest == a then leg.amount else 0) - (if leg.source == a then leg.amount else 0)
  }

  lemma {:induction false} ListedIsNet(m: map<Id, int>, ids: seq<Id>, legs: seq<Leg>, a: Id)
    requires |ids| == |legs| && forall k :: 0 <= k < |legs| ==> ids[k] in m && m[ids[k]] == LegNet(legs[k], a)
    ensures ListedSum(m, ids) == M.Net(M.Plain(legs), a)
  {
    if legs != [] {
      var n := |legs| - 1;
      ListedIsNet(m, ids[..n], legs[..n], a);
      assert M.Plain(legs)[..n] == M.Plain(legs[..n]);
    }
  }

  /** A leg's posting moved its two Tokens by its amount. */
  lemma PostingNets(me: nat, s: L.State, batch: Batch, leg: Leg, a: Id)
    requires (batch == Direct || batch == Post) && Did(s, batch, leg) && Drawer(leg.ledgerId) == Some(me)
    ensures var id := Entry(batch, leg, false).id; id in s.transfers && DrawnNets(me, s, a)[id] == LegNet(leg, a)
  {
  }

  /** Every leg is posted from one batch alone. */
  lemma OneBatch(me: nat, es: Stream, s: L.State, legs: seq<Leg>, batch: Batch, k: nat, b: Batch)
    requires Lawful(es) && LegsOf(es) == Some(legs) && Agrees(me, es, s) && k < |legs|
    requires (batch == Direct || batch == Post) && (b == Direct || b == Post) && Did(s, batch, legs[k]) &&
      Did(s, b, legs[k])
    ensures b == batch
  {
    LawfulIsWitnessed(es);
    assert Due(es, legs, batch) && Due(es, legs, b);
  }

  /** Only the batch that posted every leg moved any of its money. */
  lemma OtherRecordsMoveNothing(me: nat, es: Stream, s: L.State, legs: seq<Leg>, batch: Batch, id: Id)
    requires Lawful(es) && LegsOf(es) == Some(legs) && Agrees(me, es, s) && (batch == Direct || batch == Post)
    requires DidAll(s, batch, legs, |legs|) && id in s.transfers && id !in Ids(batch, legs) && Drawer(id) == Some(me)
    ensures !LI.Moves(s.transfers[id])
  {
    forall k, b | 0 <= k < |legs| && (b == Direct || b == Post) && Did(s, b, legs[k])
      ensures Entry(b, legs[k], false).id == Ids(batch, legs)[k]
    {
      OneBatch(me, es, s, legs, batch, k, b);
    }
    assert Mine(me, s, id);
    if LI.Moves(s.transfers[id]) { PostingIsDirectOrPost(me, s, legs, id); }
  }

  lemma PostedNetsTo(me: nat, es: Stream, s: L.State, legs: seq<Leg>, batch: Batch, a: Id)
    requires Lawful(es) && LegsOf(es) == Some(legs) && Agrees(me, es, s) && (batch == Direct || batch == Post)
    requires DidAll(s, batch, legs, |legs|)
    ensures DrawnNet(me, s, a) == M.Net(M.Plain(legs), a)
  {
    var m, ids := DrawnNets(me, s, a), Ids(batch, legs);
    forall k | 0 <= k < |legs| ensures ids[k] in m && m[ids[k]] == LegNet(legs[k], a) {
      PostingNets(me, s, batch, legs[k], a);
    }
    DistinctPostings(me, batch, legs);
    forall id | id in m && id !in ids ensures m[id] == 0 {
      if Drawer(id) == Some(me) { OtherRecordsMoveNothing(me, es, s, legs, batch, id); }
    }
    SumListed(m, ids);
    ListedIsNet(m, ids, legs, a);
  }

  lemma DistinctPostings(me: nat, batch: Batch, legs: seq<Leg>)
    requires PlanOf(me, legs)
    ensures forall i, j :: 0 <= i < j < |legs| ==> Ids(batch, legs)[i] != Ids(batch, legs)[j]
  {
    forall i, j | 0 <= i < j < |legs| ensures Ids(batch, legs)[i] != Ids(batch, legs)[j] {
      assert legs[i].ledgerId != legs[j].ledgerId;
    }
  }

  /** A committed Transfer has moved every Token by exactly what its legs say. */
  lemma CommittedNets(me: nat, w: World, a: Id)
    requires Reachable(me, w) && CurrentPhase(w.stream).InCommitted?
    ensures LegsOf(w.stream).Some? && DrawnNet(me, w.ledger, a) == M.Net(M.Plain(LegsOf(w.stream).value), a)
  {
    ReachableInv(me, w);
    LawfulIsWitnessed(w.stream);
    var legs := LegsOf(w.stream).value;
    PostedNetsTo(me, w.stream, w.ledger, legs, if DidAll(w.ledger, Post, legs, |legs|) then Post else Direct, a);
  }
}
