/** When a Failed Transfer has moved nothing, and never will. */
module TransferFailure {
  import opened Common
  import L = Ledger
  import LI = LedgerInvariant
  import LR = LedgerRuns
  import opened TransferStream
  import opened TransferProtocol
  import opened TransferAgreement
  import opened TransferTheorems

  /** The claim a driver is acting under. */
  function HolderOf(pc: Pc): Option<Claim> {
    match pc
    case Check(c, _) => Some(c)
    case Submitting(c, _, _) => Some(c)
    case Recording(_, holder) => holder
    case Trying(_, Conclude(_, holder)) => holder
    case _ => None
  }

  /** The claim of a driver on its way to record Failed. */
  function Failing(pc: Pc): Option<Claim> {
    match pc
    case Check(c, Recording(Failed, _)) => Some(c)
    case Recording(Failed, holder) => holder
    case Trying(_, Conclude(Failed, holder)) => holder
    case _ => None
  }

  // ---- Staged Transfers ----------------------------------------------------

  /** A driver whose claim was taken over records its Failed all the same, on a
      Transfer that has gone on to Pending meanwhile. */
  predicate LateFailure(w: World, a: Action) {
    && a.Append? && PcOf(w, a.d).Trying? && Failing(PcOf(w, a.d)).Some?
    && CurrentPhase(w.stream).InPending? && !HoldsClaim(w.stream, Failing(PcOf(w, a.d)).value.at)
  }

  /** What a staged Transfer's failure needs of each step: no late Failed, and a
      ledger within its flags wherever a chain is submitted. */
  ghost predicate Orderly(w: World, a: Action) {
    !LateFailure(w, a) && (a.SubmitChain? ==> LI.WithinFlags(w.ledger))
  }

  ghost predicate FirstVoided(s: L.State, legs: seq<Leg>) { |legs| > 0 && Did(s, Void, legs[0]) }

  ghost predicate StagedInv(w: World) {
    && LI.SettlementsRecorded(w.ledger)
    && (forall d :: d in w.drivers && Failing(w.drivers[d]).Some? && Failing(w.drivers[d]).value.job == Commit(true) ==>
          FirstVoided(w.ledger, Failing(w.drivers[d]).value.legs))
    && (StageRequested(w.stream) && Failed in w.stream && LegsOf(w.stream).Some? ==>
          Pending !in w.stream || FirstVoided(w.ledger, LegsOf(w.stream).value))
  }

  lemma OwnPostIsPost(me: nat, s: L.State, legs: seq<Leg>, k: nat)
    requires Own(me, s, legs) && PlanOf(me, legs) && k < |legs| && PostId(legs[k]) in s.transfers
    ensures Did(s, Post, legs[k])
  {
    assert Drawer(PostId(legs[k])) == Drawer(legs[k].ledgerId) == Some(me);
    assert FromLegs(s, legs, PostId(legs[k]));
  }

  lemma OwnSettlement(me: nat, s: L.State, legs: seq<Leg>, k: nat, id: Id)
    requires Own(me, s, legs) && PlanOf(me, legs) && k < |legs| && id in s.transfers
    requires LI.SettlesStored(s.transfers[id]) && s.transfers[id].pendingId == legs[k].ledgerId
    ensures Did(s, Post, legs[k]) || Did(s, Void, legs[k])
  {
    assert FromLegs(s, legs, id);
    var j, b :| 0 <= j < |legs| && Entry(b, legs[j], false).id == id && Did(s, b, legs[j]);
    assert legs[j].ledgerId == legs[k].ledgerId;
  }

  /** A reservation of ours that is no longer open, and was not posted by us, was
      voided by us. */
  lemma LostReservationWasVoided(me: nat, s: L.State, legs: seq<Leg>, k: nat)
    requires LI.Sound(s) && LI.SettlementsRecorded(s) && Own(me, s, legs) && PlanOf(me, legs)
    requires k < |legs| && Did(s, Reserve, legs[k]) && !LR.Postable(s, Entry(Post, legs[k], false))
    ensures Did(s, Void, legs[k])
  {
    var leg := legs[k];
    assert LI.Backed(s, leg.ledgerId);
    if PostId(leg) in s.transfers {
      OwnPostIsPost(me, s, legs, k);
    } else {
      assert LI.HasSettlement(s, leg.ledgerId);
      var id :| id in s.transfers && LI.SettlesStored(s.transfers[id]) && s.transfers[id].pendingId == leg.ledgerId;
      OwnSettlement(me, s, legs, k, id);
    }
  }

  lemma UnpostableLeg(me: nat, s: L.State, legs: seq<Leg>) returns (k: nat)
    requires LI.Sound(s) && LI.WithinFlags(s) && PlanOf(me, legs) && |legs| > 0
    requires !L.Accepted(s, Chain(Post, legs, 0))
    ensures k < |legs| && !LR.Postable(s, Entry(Post, legs[k], false))
  {
    var run := Chain(Post, legs, 0);
    ChainIsDistinct(me, legs, Post, 0);
    LR.RefusedPostLostItsReservation(s, run);
    k :| 0 <= k < |run| && !LR.Postable(s, run[k]);
    assert run[k] == Entry(Post, legs[0 + k], k < |run| - 1);
  }

  /** While no account is beyond its flag, a first chain of posts is refused only
      because the Transfer's reservations were voided. */
  lemma RefusedFirstPost(me: nat, es: Stream, s: L.State, legs: seq<Leg>)
    requires LI.Sound(s) && LI.SettlementsRecorded(s) && LI.WithinFlags(s)
    requires LegsOf(es) == Some(legs) && Agrees(me, es, s) && |legs| > 0 && DidAll(s, Reserve, legs, |legs|)
    requires !L.Accepted(s, Chain(Post, legs, 0))
    ensures FirstVoided(s, legs)
  {
    var k := UnpostableLeg(me, s, legs);
    LostReservationWasVoided(me, s, legs, k);
  }

  lemma SettlementsStay(me: nat, w: World, a: Action)
    requires Inv(me, w) && Enabled(me, w, a) && LI.SettlementsRecorded(w.ledger)
    ensures LI.SettlementsRecorded(Step(me, w, a).ledger)
  {
    match a
    case Outside(run) => LI.AttemptRecordsSettlements(w.ledger, run, |run|);
    case SubmitChain(d) =>
      var pc := PcOf(w, d);
      assert Knows(me, w.stream, w.ledger, pc);
      if pc.done < |pc.claim.legs| {
        var run := Chain(pc.batch, pc.claim.legs, pc.done);
        ChainIsDistinct(me, pc.claim.legs, pc.batch, pc.done);
        LI.AttemptRecordsSettlements(w.ledger, run, |run|);
      }
    case OpenAccount(op) =>
      forall p | p in w.ledger.pending && w.ledger.pending[p].status != L.Open
        ensures LI.HasSettlement(LI.Perform(w.ledger, op), p)
      {
        assert LI.HasSettlement(w.ledger, p);
      }
    case _ =>
  }

  /** Stream and ledger only grow. */
  lemma StepGrows(me: nat, w: World, a: Action)
    requires Inv(me, w) && Enabled(me, w, a)
    ensures w.stream <= Step(me, w, a).stream && LI.Extends(w.ledger, Step(me, w, a).ledger)
  {
    match a
    case Outside(run) => LR.RunExtends(w.ledger, run);
    case SubmitChain(d) =>
      var pc := PcOf(w, d);
      if pc.done < |pc.claim.legs| { LR.RunExtends(w.ledger, Chain(pc.batch, pc.claim.legs, pc.done)); }
    case OpenAccount(op) => OpeningExtends(w.ledger, op);
    case _ =>
  }

  /** Steps other than a refused chain leave nobody newly failing. */
  lemma FailingStays(me: nat, w: World, a: Action, e: nat)
    requires Inv(me, w) && Enabled(me, w, a) && !a.SubmitChain? && e in Step(me, w, a).drivers
    requires Failing(Step(me, w, a).drivers[e]).Some?
    ensures e in w.drivers && Failing(w.drivers[e]) == Failing(Step(me, w, a).drivers[e])
  {
    if e in w.drivers { assert Knows(me, w.stream, w.ledger, w.drivers[e]); }
  }

  /** A driver turns to failing only when the ledger refuses its chain. */
  lemma FailingMeansRefused(w: World, d: nat, c: Claim, batch: Batch, done: nat)
    requires PcOf(w, d) == Submitting(c, batch, done)
    requires Failing(SubmitNext(w, d, c, batch, done).drivers[d]).Some?
    ensures Failing(SubmitNext(w, d, c, batch, done).drivers[d]) == Some(c)
    ensures done < |c.legs| && !L.Accepted(w.ledger, Chain(batch, c.legs, done))
    ensures batch == Reserve || (batch != Void && done == 0)
  {
  }

  /** A posting driver that turns to failing found its reservations voided. */
  lemma RefusedPoster(me: nat, w: World, d: nat)
    requires Inv(me, w) && Enabled(me, w, SubmitChain(d)) && LI.SettlementsRecorded(w.ledger) &&
      LI.WithinFlags(w.ledger)
    requires var f := Failing(Step(me, w, SubmitChain(d)).drivers[d]); f.Some? && f.value.job == Commit(true)
    ensures FirstVoided(w.ledger, Failing(Step(me, w, SubmitChain(d)).drivers[d]).value.legs)
  {
    var pc := PcOf(w, d);
    assert Knows(me, w.stream, w.ledger, pc);
    FailingMeansRefused(w, d, pc.claim, pc.batch, pc.done);
    RefusedFirstPost(me, w.stream, w.ledger, pc.claim.legs);
  }

  lemma StagedDrivers(me: nat, w: World, a: Action)
    requires Inv(me, w) && Enabled(me, w, a) && StagedInv(w)
    requires a.SubmitChain? ==> LI.WithinFlags(w.ledger)
    ensures var w' := Step(me, w, a);
      forall d ::
        d in w'.drivers && Failing(w'.drivers[d]).Some? && Failing(w'.drivers[d]).value.job == Commit(true) ==>
        FirstVoided(w'.ledger, Failing(w'.drivers[d]).value.legs)
  {
    var w' := Step(me, w, a);
    StepGrows(me, w, a);
    forall d | d in w'.drivers && Failing(w'.drivers[d]).Some? && Failing(w'.drivers[d]).value.job == Commit(true)
      ensures FirstVoided(w.ledger, Failing(w'.drivers[d]).value.legs)
    {
      if a.SubmitChain? {
        if a.d == d { RefusedPoster(me, w, d); }
      } else {
        FailingStays(me, w, a, d);
      }
    }
  }

  /** Under a live claim, Failed is recorded either before anything could be
      posted or once the first leg is voided. */
  lemma StagedStream(me: nat, w: World, a: Action)
    requires Inv(me, w) && Enabled(me, w, a) && StagedInv(w) && !LateFailure(w, a)
    ensures var w' := Step(me, w, a);
      StageRequested(w'.stream) && Failed in w'.stream && LegsOf(w'.stream).Some? ==>
        Pending !in w'.stream || FirstVoided(w'.ledger, LegsOf(w'.stream).value)
  {
    var es, w' := w.stream, Step(me, w, a);
    StepGrows(me, w, a);
    LawfulIsWitnessed(es);
    if a.Append? && |es| == |PcOf(w, a.d).seen| {
      var pc := PcOf(w, a.d);
      assert Knows(me, es, w.ledger, pc) && pc.seen == es;
      AppendedFailure(me, w, a.d);
    } else {
      assert w'.stream == es;
    }
  }

  /** What the append of a decision does to a stream that then holds Failed. */
  lemma AppendedFailure(me: nat, w: World, d: nat)
    requires Inv(me, w) && StagedInv(w) && PcOf(w, d).Trying? && PcOf(w, d).seen == w.stream
    requires !LateFailure(w, Append(d))
    ensures var es' := w.stream + Adds(w.stream, PcOf(w, d).decision);
      StageRequested(es') && Failed in es' && LegsOf(es').Some? ==>
        Pending !in es' || FirstVoided(w.ledger, LegsOf(es').value)
  {
    var es, dec := w.stream, PcOf(w, d).decision;
    assert Knows(me, es, w.ledger, PcOf(w, d));
    LawfulIsWitnessed(es);
    if dec.Prepare? {
      PrepareIsStored(es, dec.plan);
    } else {
      DecisionIsLawful(me, es, w.ledger, dec);
      var e := Adds(es, dec)[0];
      assert Adds(es, dec) == [e];
      Snoc(es, e);
    }
  }

  lemma StagedStep(me: nat, w: World, a: Action)
    requires Inv(me, w) && Enabled(me, w, a) && StagedInv(w) && !LateFailure(w, a)
    requires a.SubmitChain? ==> LI.WithinFlags(w.ledger)
    ensures StagedInv(Step(me, w, a))
  {
    SettlementsStay(me, w, a);
    StagedDrivers(me, w, a);
    StagedStream(me, w, a);
  }

  lemma {:induction false} StagedRun(me: nat, ws: seq<World>, actions: seq<Action>, n: nat)
    requires IsRun(me, ws, actions) && n < |ws|
    requires forall i :: 0 <= i < |actions| ==> Orderly(ws[i], actions[i])
    ensures StagedInv(ws[n])
  {
    if n > 0 {
      StagedRun(me, ws, actions, n - 1);
      RunKeepsInv(me, ws, actions, n - 1);
      StagedStep(me, ws[n - 1], actions[n - 1]);
    }
  }

  /** A staged Transfer that Failed has posted no leg, then or ever after,
      provided no driver records Failed on a Pending Transfer under a claim it
      has lost, and the ledger is within its flags wherever a chain is submitted. */
  lemma StagedFailureMovesNothing(me: nat, ws: seq<World>, actions: seq<Action>, n: nat)
    requires IsRun(me, ws, actions) && n < |ws|
    requires forall i :: 0 <= i < |actions| ==> Orderly(ws[i], actions[i])
    requires StageRequested(ws[n].stream) && Failed in ws[n].stream
    ensures MovedNothing(me, ws[n].ledger)
  {
    var es, s := ws[n].stream, ws[n].ledger;
    StagedRun(me, ws, actions, n);
    RunKeepsInv(me, ws, actions, n);
    if LegsOf(es).Some? {
      var legs := LegsOf(es).value;
      if FirstVoided(s, legs) { VoidedIsNotPosted(s, legs[0]); }
      assert |legs| > 0 ==>
        (Did(s, Post, legs[0]) ==> Due(es, legs, Post)) && (Did(s, Direct, legs[0]) ==> Due(es, legs, Direct));
      FirstLegDecides(me, es, s, legs);
    } else {
      NoLegsMoveNothing(me, es, s);
    }
  }

  // ---- Immediate Transfers -------------------------------------------------

  /** A driver that has lost its claim takes no further step that others see. */
  predicate Punctual(w: World, a: Action) {
    (a.Append? || a.SubmitChain?) && HolderOf(PcOf(w, a.d)).Some? ==>
        HoldsClaim(w.stream, HolderOf(PcOf(w, a.d)).value.at)
  }

  ghost predicate Unmoved(s: L.State, legs: seq<Leg>) {
    |legs| > 0 ==> !Did(s, Direct, legs[0]) && !Did(s, Post, legs[0])
  }

  /** No two drivers act under the same claim. */
  ghost predicate OneHolder(w: World) {
    forall d, e ::
      d in w.drivers && e in w.drivers && d != e && HolderOf(w.drivers[d]).Some? && HolderOf(w.drivers[e]).Some? ==>
      HolderOf(w.drivers[d]).value.at != HolderOf(w.drivers[e]).value.at
  }

  predicate FailsHolding(w: World, d: nat)
    requires d in w.drivers
  {
    && Failing(w.drivers[d]).Some? && Failing(w.drivers[d]).value.job == Commit(false)
    && HoldsClaim(w.stream, Failing(w.drivers[d]).value.at)
  }

  /** While a failing driver still holds its claim, nothing has moved. */
  ghost predicate FailingUnmoved(w: World) {
    forall d :: d in w.drivers && FailsHolding(w, d) ==> Unmoved(w.ledger, Failing(w.drivers[d]).value.legs)
  }

  ghost predicate FailedUnmoved(w: World) {
    !StageRequested(w.stream) && Failed in w.stream && LegsOf(w.stream).Some? ==>
        Unmoved(w.ledger, LegsOf(w.stream).value)
  }

  ghost predicate ImmediateInv(w: World) { OneHolder(w) && FailingUnmoved(w) && FailedUnmoved(w) }

  /** If any leg had moved, the chain would have answered Exists. */
  lemma RefusalMeansUnmoved(me: nat, es: Stream, s: L.State, c: Claim, batch: Batch, done: nat)
    requires Lawful(es) && LI.Sound(s) && Agrees(me, es, s) && Claimed(es, c) && Suits(c, batch) &&
      c.job == Commit(false)
    requires done < |c.legs| && !L.Accepted(s, Chain(batch, c.legs, done)) && (batch == Reserve || done == 0)
    ensures Unmoved(s, c.legs)
  {
    var run := Chain(batch, c.legs, done);
    LawfulIsWitnessed(es);
    if Did(s, Direct, c.legs[0]) {
      assert Due(es, c.legs, Direct);
      RefusedIsNotOnRecord(s, c.legs, Direct, 0);
    } else if Did(s, Post, c.legs[0]) {
      assert Due(es, c.legs, Post);
      RefusedIsNotOnRecord(s, c.legs, batch, done);
    }
  }

  lemma RefusedIsNotOnRecord(s: L.State, legs: seq<Leg>, batch: Batch, done: nat)
    requires done < |legs| && !L.Accepted(s, Chain(batch, legs, done))
    ensures exists k :: done <= k < ChainEnd(legs, done) && !Did(s, batch, legs[k])
  {
    var run := Chain(batch, legs, done);
    if forall k :: done <= k < ChainEnd(legs, done) ==> Did(s, batch, legs[k]) {
      forall i | 0 <= i < |run| ensures LR.OnRecord(s, run[i]) { assert Did(s, batch, legs[done + i]); }
      LR.ResubmittingConverges(s, run);
    }
  }

  lemma AppendHolder(me: nat, w: World, d: nat)
    requires PcOf(w, d).Trying?
    ensures var h := HolderOf(Step(me, w, Append(d)).drivers[d]); h.Some? ==>
      h == HolderOf(PcOf(w, d)) || (PcOf(w, d).seen <= w.stream && h.value.at >= |w.stream|)
      || !(PcOf(w, d).seen <= w.stream)
  {
  }

  lemma SubmitHolder(w: World, d: nat, c: Claim, batch: Batch, done: nat)
    ensures HolderOf(SubmitNext(w, d, c, batch, done).drivers[d]).Some? ==>
      HolderOf(SubmitNext(w, d, c, batch, done).drivers[d]) == Some(c)
  {
  }

  /** A claim is new, or it was held before. */
  lemma HolderStep(me: nat, w: World, a: Action, d: nat)
    requires Inv(me, w) && Enabled(me, w, a) && d in Step(me, w, a).drivers && HolderOf(Step(me, w, a).drivers[d]).Some?
    ensures (d in w.drivers && HolderOf(Step(me, w, a).drivers[d]) == HolderOf(w.drivers[d]))
         || (a.Append? && a.d == d && HolderOf(Step(me, w, a).drivers[d]).value.at >= |w.stream|)
  {
    if d in w.drivers { assert Knows(me, w.stream, w.ledger, w.drivers[d]); }
    match a
    case Append(e) => if e == d { AppendHolder(me, w, d); }
    case SubmitChain(e) => if e == d { SubmitHolder(w, d, PcOf(w, d).claim, PcOf(w, d).batch, PcOf(w, d).done); }
    case _ =>
  }

  lemma HolderIsOld(me: nat, w: World, d: nat)
    requires Inv(me, w) && d in w.drivers && HolderOf(w.drivers[d]).Some?
    ensures HolderOf(w.drivers[d]).value.at < |w.stream|
  {
    assert Knows(me, w.stream, w.ledger, w.drivers[d]);
  }

  lemma OneHolderStays(me: nat, w: World, a: Action)
    requires Inv(me, w) && Enabled(me, w, a) && OneHolder(w)
    ensures OneHolder(Step(me, w, a))
  {
    var w' := Step(me, w, a);
    forall d, e | d in w'.drivers && e in w'.drivers && d != e && HolderOf(w'.drivers[d]).Some? &&
      HolderOf(w'.drivers[e]).Some?
      ensures HolderOf(w'.drivers[d]).value.at != HolderOf(w'.drivers[e]).value.at
    {
      HolderStep(me, w, a, d);
      HolderStep(me, w, a, e);
      if d in w.drivers && HolderOf(w.drivers[d]).Some? { HolderIsOld(me, w, d); }
      if e in w.drivers && HolderOf(w.drivers[e]).Some? { HolderIsOld(me, w, e); }
    }
  }

  /** Only this Transfer's own chains can move its money. */
  lemma UnmovedStays(me: nat, w: World, a: Action, legs: seq<Leg>)
    requires Inv(me, w) && Enabled(me, w, a) && !a.SubmitChain? && LegsOf(w.stream) == Some(legs) &&
      Unmoved(w.ledger, legs)
    ensures Unmoved(Step(me, w, a).ledger, legs)
  {
    if a.Outside? {
      var s' := L.ApplyRun(w.ledger, a.run);
      LR.RunExtends(w.ledger, a.run);
      LR.RunRecords(w.ledger, a.run);
      forall id | id in s'.transfers && id !in w.ledger.transfers ensures !Mine(me, s', id) {
        assert LR.OnRecordOf(s', a.run, |a.run|, id);
      }
      if |legs| > 0 && Did(s', Direct, legs[0]) { NewRecords(me, w.ledger, s', legs, Reserve, 0, 0, 0, Direct); }
      if |legs| > 0 && Did(s', Post, legs[0]) { NewRecords(me, w.ledger, s', legs, Reserve, 0, 0, 0, Post); }
    }
  }

  /** A claim once lost is never live again. */
  lemma HeldBefore(es: Stream, es': Stream, at: nat)
    requires es <= es' && at < |es| && HoldsClaim(es', at)
    ensures HoldsClaim(es, at)
    decreases |es'|
  {
    if |es'| > |es| {
      var n := |es'| - 1;
      assert es' == es'[..n] + [es'[n]];
      Snoc(es'[..n], es'[n]);
      HeldBefore(es, es'[..n], at);
    } else {
      assert es' == es;
    }
  }

  /** A punctual chain leaves no failing driver but its own holding a claim. */
  lemma SubmitFailingUnmoved(me: nat, w: World, d: nat)
    requires Inv(me, w) && ImmediateInv(w) && Enabled(me, w, SubmitChain(d)) && Punctual(w, SubmitChain(d))
    ensures FailingUnmoved(Step(me, w, SubmitChain(d)))
  {
    var pc, w' := PcOf(w, d), Step(me, w, SubmitChain(d));
    assert Knows(me, w.stream, w.ledger, pc);
    forall e | e in w'.drivers && FailsHolding(w', e) ensures Unmoved(w'.ledger, Failing(w'.drivers[e]).value.legs) {
      if e == d {
        FailingMeansRefused(w, d, pc.claim, pc.batch, pc.done);
        RefusalMeansUnmoved(me, w.stream, w.ledger, pc.claim, pc.batch, pc.done);
      } else {
        SameClaimSameDriver(me, w, d, e);
      }
    }
  }

  lemma SameClaimSameDriver(me: nat, w: World, d: nat, e: nat)
    requires Inv(me, w) && OneHolder(w) && d in w.drivers && e in w.drivers
    requires HolderOf(w.drivers[d]).Some? && HoldsClaim(w.stream, HolderOf(w.drivers[d]).value.at) && FailsHolding(w, e)
    ensures d == e
  {
    assert Knows(me, w.stream, w.ledger, w.drivers[e]);
  }

  lemma FailingUnmovedStays(me: nat, w: World, a: Action)
    requires Inv(me, w) && ImmediateInv(w) && Enabled(me, w, a) && Punctual(w, a)
    ensures FailingUnmoved(Step(me, w, a))
  {
    if a.SubmitChain? {
      SubmitFailingUnmoved(me, w, a.d);
    } else {
      var w' := Step(me, w, a);
      StepGrows(me, w, a);
      forall d | d in w'.drivers && FailsHolding(w', d) ensures Unmoved(w'.ledger, Failing(w'.drivers[d]).value.legs) {
        FailingStays(me, w, a, d);
        assert Knows(me, w.stream, w.ledger, w.drivers[d]);
        var c := Failing(w.drivers[d]).value;
        HeldBefore(w.stream, w'.stream, c.at);
        assert FailsHolding(w, d);
        UnmovedStays(me, w, a, c.legs);
      }
    }
  }

  /** Once it has legs, a Transfer comes to hold Failed only by an append of a
      driver that was on its way to record it. */
  lemma FailedIsConcluded(me: nat, es: Stream, s: L.State, dec: Decision)
    requires Stored(es) && Agrees(me, es, s) && Knows(me, es, s, Trying(es, dec)) && es != []
    ensures var es' := es + Adds(es, dec);
      && StageRequested(es') == StageRequested(es)
      && (Failed in es' && LegsOf(es').Some? ==>
            LegsOf(es') == LegsOf(es) && (Failed in es || (dec.Conclude? && dec.event.Failed?)))
  {
    LawfulIsWitnessed(es);
    if dec.Prepare? {
      PrepareIsStored(es, dec.plan);
    } else {
      DecisionIsLawful(me, es, s, dec);
      var e := Adds(es, dec)[0];
      assert Adds(es, dec) == [e];
      Snoc(es, e);
      InSnoc(es, e, Failed);
    }
  }

  /** A punctual driver about to record Failed on an immediate Transfer still
      holds the claim it failed under. */
  lemma ConcluderHolds(me: nat, w: World, d: nat, dec: Decision)
    requires Inv(me, w) && PcOf(w, d) == Trying(w.stream, dec) && Punctual(w, Append(d))
    requires dec.Conclude? && dec.event.Failed? && !StageRequested(w.stream)
    ensures d in w.drivers && FailsHolding(w, d) && LegsOf(w.stream) == Some(Failing(w.drivers[d]).value.legs)
  {
    assert Knows(me, w.stream, w.ledger, w.drivers[d]);
    LawfulIsWitnessed(w.stream);
  }

  lemma OpeningHoldsNoFailed(me: nat, s: L.State, dec: Decision)
    requires Knows(me, [], s, Trying([], dec))
    ensures Failed !in [] + Adds([], dec)
  {
  }

  /** A Failed that has just landed found nothing moved. */
  lemma LandedFailureUnmoved(me: nat, w: World, d: nat)
    requires Inv(me, w) && ImmediateInv(w) && PcOf(w, d).Trying? && PcOf(w, d).seen == w.stream &&
      Punctual(w, Append(d))
    ensures var es' := w.stream + Adds(w.stream, PcOf(w, d).decision);
      !StageRequested(es') && Failed in es' && LegsOf(es').Some? ==> Unmoved(w.ledger, LegsOf(es').value)
  {
    var es, dec := w.stream, PcOf(w, d).decision;
    assert Knows(me, es, w.ledger, PcOf(w, d));
    if es != [] {
      FailedIsConcluded(me, es, w.ledger, dec);
      if dec.Conclude? && dec.event.Failed? && !StageRequested(es) { ConcluderHolds(me, w, d, dec); }
    } else {
      OpeningHoldsNoFailed(me, w.ledger, dec);
    }
  }

  lemma FailedUnmovedStays(me: nat, w: World, a: Action)
    requires Inv(me, w) && ImmediateInv(w) && Enabled(me, w, a) && Punctual(w, a)
    ensures FailedUnmoved(Step(me, w, a))
  {
    LawfulIsWitnessed(w.stream);
    if a.Append? && |w.stream| == |PcOf(w, a.d).seen| {
      assert Knows(me, w.stream, w.ledger, PcOf(w, a.d));
      assert PcOf(w, a.d).seen == w.stream;
      LandedFailureUnmoved(me, w, a.d);
    } else if a.SubmitChain? {
      assert HoldsClaim(w.stream, PcOf(w, a.d).claim.at);
    } else if FailedUnmoved(w) && LegsOf(w.stream).Some? && Unmoved(w.ledger, LegsOf(w.stream).value) {
      UnmovedStays(me, w, a, LegsOf(w.stream).value);
    }
  }

  lemma {:induction false} ImmediateRun(me: nat, ws: seq<World>, actions: seq<Action>, n: nat)
    requires IsRun(me, ws, actions) && n < |ws|
    requires forall i :: 0 <= i < |actions| ==> Punctual(ws[i], actions[i])
    ensures ImmediateInv(ws[n])
  {
    if n > 0 {
      ImmediateRun(me, ws, actions, n - 1);
      RunKeepsInv(me, ws, actions, n - 1);
      OneHolderStays(me, ws[n - 1], actions[n - 1]);
      FailingUnmovedStays(me, ws[n - 1], actions[n - 1]);
      FailedUnmovedStays(me, ws[n - 1], actions[n - 1]);
    }
  }

  /** An immediate Transfer that Failed has posted no leg, then or ever after,
      provided a driver that lost its claim takes no further step. */
  lemma ImmediateFailureMovesNothing(me: nat, ws: seq<World>, actions: seq<Action>, n: nat)
    requires IsRun(me, ws, actions) && n < |ws|
    requires forall i :: 0 <= i < |actions| ==> Punctual(ws[i], actions[i])
    requires !StageRequested(ws[n].stream) && Failed in ws[n].stream
    ensures MovedNothing(me, ws[n].ledger)
  {
    var es, s := ws[n].stream, ws[n].ledger;
    ImmediateRun(me, ws, actions, n);
    RunKeepsInv(me, ws, actions, n);
    if LegsOf(es).Some? {
      FirstLegDecides(me, es, s, LegsOf(es).value);
    } else {
      NoLegsMoveNothing(me, es, s);
    }
  }
}
