/** The safety theorems of the Transfer protocol, over every interleaving of
    any number of drivers, crashes, stale claims and outside ledger traffic. */
module TransferTheorems {
  import opened Common
  import L = Ledger
  import LI = LedgerInvariant
  import opened TransferStream
  import opened TransferProtocol
  import opened TransferAgreement

  lemma ReachableInv(me: nat, w: World)
    requires Reachable(me, w)
    ensures Inv(me, w)
  {
    var ws, actions :| IsRun(me, ws, actions) && ws[|ws| - 1] == w;
    RunKeepsInv(me, ws, actions, |ws| - 1);
  }

  /** Two claims with no outcome between them. */
  ghost predicate SameSpell(es: Stream, i: nat, j: nat)
    requires i < j < |es|
  {
    IsMarker(es[i]) && IsMarker(es[j]) && forall k :: i < k < j ==> !Advances(es[k])
  }

  /** Every reachable stream walks the lifecycle to at most one terminal
      outcome; the claims between two outcomes are all of one transition; and a
      prepared Transfer is never cancelled over a claim. */
  lemma Lifecycle(me: nat, w: World)
    requires Reachable(me, w)
    ensures Lawful(w.stream) && PreparedCancelled !in w.stream
    ensures forall i, j ::
      0 <= i < j < |w.stream| && Advances(w.stream[i]) && IsTerminal(PhaseOf(w.stream[i]).value) ==>
      !Advances(w.stream[j]) && !IsMarker(w.stream[j])
    ensures forall i, j :: 0 <= i < j < |w.stream| && SameSpell(w.stream, i, j) ==> w.stream[i] == w.stream[j]
  {
    var es := w.stream;
    ReachableInv(me, w);
    forall i, j | 0 <= i < j < |es| && Advances(es[i]) && IsTerminal(PhaseOf(es[i]).value)
      ensures !Advances(es[j]) && !IsMarker(es[j])
    {
      TerminalIsFinal(es, i, j);
    }
    forall i, j | 0 <= i < j < |es| && SameSpell(es, i, j)
      ensures es[i] == es[j]
    {
      ClaimsAgree(es, i, j);
    }
    assert forall i :: 0 <= i < |es| ==> MayFollow(es[..i], es[i]);
  }

  /** The recorded transfers that moved this leg's money. */
  ghost function PostingsOf(s: L.State, leg: Leg): set<Id> {
    set id | id in s.transfers && LI.Moves(s.transfers[id]) &&
        (id == leg.ledgerId || s.transfers[id].pendingId == leg.ledgerId)
  }

  predicate CarriesLeg(t: L.Stored, leg: Leg) {
    t.debit == leg.source && t.credit == leg.dest && t.amount == leg.amount && t.currency == leg.currency
  }

  /** Exactly one recorded transfer moved this leg's money, on the leg's terms. */
  ghost predicate PostedOnce(s: L.State, leg: Leg) {
    exists id :: PostingsOf(s, leg) == {id} && CarriesLeg(s.transfers[id], leg)
  }

  /** No money of this Transfer's has moved. */
  ghost predicate MovedNothing(me: nat, s: L.State) {
    forall id :: id in s.transfers && Mine(me, s, id) ==> !LI.Moves(s.transfers[id])
  }

  /** A record that moves a leg's money is its direct posting or the post of its
      reservation. */
  lemma PostingIsDirectOrPost(me: nat, s: L.State, legs: seq<Leg>, id: Id)
    requires Own(me, s, legs) && PlanOf(me, legs) && id in s.transfers && Mine(me, s, id) && LI.Moves(s.transfers[id])
    ensures exists k, b ::
      0 <= k < |legs| && (b == Direct || b == Post) && Entry(b, legs[k], false).id == id && Did(s, b, legs[k])
  {
    assert FromLegs(s, legs, id);
  }

  lemma PostedByOne(me: nat, es: Stream, s: L.State, legs: seq<Leg>, k: nat, b: Batch)
    requires Lawful(es) && LegsOf(es) == Some(legs) && Agrees(me, es, s) && k < |legs|
    requires (b == Direct || b == Post) && Did(s, b, legs[k])
    ensures PostedOnce(s, legs[k])
  {
    LawfulIsWitnessed(es);
    var leg, want := legs[k], Entry(b, legs[k], false).id;
    forall id | id in PostingsOf(s, leg) ensures id == want {
      assert Mine(me, s, id);
      PostingIsDirectOrPost(me, s, legs, id);
      var j, c :| 0 <= j < |legs| && (c == Direct || c == Post) && Entry(c, legs[j], false).id == id &&
          Did(s, c, legs[j]);
      assert legs[j].ledgerId == leg.ledgerId;
      assert j == k;
      assert Due(es, legs, b) && Due(es, legs, c);
    }
    assert want in PostingsOf(s, leg);
    assert PostingsOf(s, leg) == {want};
  }

  /** A leg voided is a leg no one posted. */
  lemma VoidedIsNotPosted(s: L.State, leg: Leg)
    requires LI.Sound(s) && Did(s, Void, leg)
    ensures !Did(s, Post, leg)
  {
    assert LI.SettledOnce(s);
  }

  /** With its first leg neither posted directly nor from a reservation, a
      Transfer has moved nothing at all. */
  lemma FirstLegDecides(me: nat, es: Stream, s: L.State, legs: seq<Leg>)
    requires LegsOf(es) == Some(legs) && Agrees(me, es, s)
    requires |legs| > 0 ==> !Did(s, Direct, legs[0]) && !Did(s, Post, legs[0])
    ensures MovedNothing(me, s)
  {
    forall id | id in s.transfers && Mine(me, s, id) ensures !LI.Moves(s.transfers[id]) {
      if LI.Moves(s.transfers[id]) { PostingIsDirectOrPost(me, s, legs, id); }
    }
  }

  /** Without legs there is nothing of its own on the ledger. */
  lemma NoLegsMoveNothing(me: nat, es: Stream, s: L.State)
    requires LegsOf(es).None? && Agrees(me, es, s)
    ensures MovedNothing(me, s)
  {
    forall id | id in s.transfers ensures !Mine(me, s, id) { assert !FromLegs(s, [], id); }
  }

  /** Committed: every leg posted exactly once. Cancelled: nothing moved, and
      every reservation made on the way is voided. */
  lemma LedgerAgreement(me: nat, w: World)
    requires Reachable(me, w)
    ensures CurrentPhase(w.stream).InCommitted? ==>
      LegsOf(w.stream).Some? &&
          forall k :: 0 <= k < |LegsOf(w.stream).value| ==> PostedOnce(w.ledger, LegsOf(w.stream).value[k])
    ensures CurrentPhase(w.stream).InCancelled? ==> MovedNothing(me, w.ledger)
    ensures CurrentPhase(w.stream).InCancelled? && LegsOf(w.stream).Some? ==>
      forall k :: 0 <= k < |LegsOf(w.stream).value| ==> ReservationIs(w.ledger, LegsOf(w.stream).value[k], L.Voided)
  {
    var es, s := w.stream, w.ledger;
    ReachableInv(me, w);
    LawfulIsWitnessed(es);
    if CurrentPhase(es).InCommitted? {
      var legs := LegsOf(es).value;
      forall k | 0 <= k < |legs| ensures PostedOnce(s, legs[k]) {
        PostedByOne(me, es, s, legs, k, if DidAll(s, Post, legs, |legs|) then Post else Direct);
      }
    } else if CurrentPhase(es).InCancelled? {
      CancelledAgrees(me, es, s);
    }
  }

  ghost predicate ReservationIs(s: L.State, leg: Leg, status: L.Status) {
    && leg.ledgerId in s.pending && s.pending[leg.ledgerId] == L.Reservation(leg.source, leg.dest, leg.amount, status)
  }

  lemma VoidedReservation(s: L.State, leg: Leg)
    requires LI.Sound(s) && Did(s, Void, leg)
    ensures ReservationIs(s, leg, L.Voided)
  {
    assert LI.Backed(s, VoidId(leg));
  }

  /** With its first leg voided, a Transfer has moved nothing. */
  lemma VoidedMovesNothing(me: nat, es: Stream, s: L.State, legs: seq<Leg>)
    requires LI.Sound(s) && Agrees(me, es, s) && LegsOf(es) == Some(legs) && StageRequested(es)
    requires DidAll(s, Void, legs, |legs|)
    ensures MovedNothing(me, s)
  {
    if |legs| > 0 {
      VoidedIsNotPosted(s, legs[0]);
      assert Did(s, Direct, legs[0]) ==> Due(es, legs, Direct);
    }
    FirstLegDecides(me, es, s, legs);
  }

  lemma CancelledAgrees(me: nat, es: Stream, s: L.State)
    requires Lawful(es) && LI.Sound(s) && Agrees(me, es, s) && CurrentPhase(es).InCancelled?
    ensures MovedNothing(me, s)
    ensures LegsOf(es).Some? ==>
      forall k :: 0 <= k < |LegsOf(es).value| ==> ReservationIs(s, LegsOf(es).value[k], L.Voided)
  {
    LawfulIsWitnessed(es);
    if LegsOf(es).Some? {
      var legs := LegsOf(es).value;
      forall k | 0 <= k < |legs| ensures ReservationIs(s, legs[k], L.Voided) { VoidedReservation(s, legs[k]); }
      VoidedMovesNothing(me, es, s, legs);
    } else {
      NoLegsMoveNothing(me, es, s);
    }
  }

  /** However posting and voiding drivers race, no leg of a Transfer is posted
      while another of its legs is voided. */
  lemma NeverPostsOneVoidsAnother(me: nat, w: World, i: nat, j: nat)
    requires Reachable(me, w) && LegsOf(w.stream).Some? && i < |LegsOf(w.stream).value| && j < |LegsOf(w.stream).value|
    ensures !(Did(w.ledger, Post, LegsOf(w.stream).value[i]) && Did(w.ledger, Void, LegsOf(w.stream).value[j]))
  {
    ReachableInv(me, w);
    var legs := LegsOf(w.stream).value;
    if Did(w.ledger, Post, legs[i]) && Did(w.ledger, Void, legs[j]) {
      assert Did(w.ledger, Post, legs[0]) && Did(w.ledger, Void, legs[0]);
      VoidedIsNotPosted(w.ledger, legs[0]);
      assert false;
    }
  }

  lemma DecisionMovesOutcome(me: nat, es: Stream, s: L.State, dec: Decision)
    requires Stored(es) && Agrees(me, es, s) && Knows(me, es, s, Trying(es, dec))
    ensures Moves(Outcome(es), Outcome(es + Adds(es, dec)))
  {
    if dec.Prepare? {
      var e, m := Prepared(dec.plan), Marker(PreparedJob(es));
      LawfulEventMovesOutcome(es, e);
      Snoc(es + [e], m);
      assert es + [e, m] == es + [e] + [m];
    } else {
      DecisionIsLawful(me, es, s, dec);
      assert Adds(es, dec) == [Adds(es, dec)[0]];
      LawfulEventMovesOutcome(es, Adds(es, dec)[0]);
    }
  }

  /** Each step moves the coarse outcome a Transaction reads along its lifecycle. */
  lemma OutcomeMovesLawfully(me: nat, w: World, a: Action)
    requires Reachable(me, w) && Enabled(me, w, a)
    ensures Moves(Outcome(w.stream), Outcome(Step(me, w, a).stream))
  {
    ReachableInv(me, w);
    if a.Append? && |w.stream| == |PcOf(w, a.d).seen| {
      assert Knows(me, w.stream, w.ledger, PcOf(w, a.d));
      assert PcOf(w, a.d).seen == w.stream;
      DecisionMovesOutcome(me, w.stream, w.ledger, PcOf(w, a.d).decision);
    }
  }
}
