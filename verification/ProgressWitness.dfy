/** Runs to a staged Transfer that was cancelled and to one that was committed,
    with money at stake: the outcomes whose ledgers TransferTheorems speaks of. */
module ProgressWitness {
  import opened Common
  import L = Ledger
  import LR = LedgerRuns
  import opened TransferStream
  import opened TransferProtocol
  import TA = TransferAgreement
  import TT = TransferTheorems
  import TW = TransferWitness
  import opened TransferChains
  import opened TransferProgress

  /** One leg's batch goes through if its entry does. */
  lemma OneLegPasses(s: L.State, b: Batch)
    requires L.Judge(s, s.accounts, map[], Entry(b, TW.leg, false)) == L.OK
    ensures Through(s, b, [TW.leg], 0) == Passage(1, L.Effect(s, Entry(b, TW.leg, false)))
  {
    assert Chain(b, [TW.leg], 0) == [Entry(b, TW.leg, false)];
    LR.RunOfOne(s, Entry(b, TW.leg, false));
    assert ChainEnd([TW.leg], 0) == 1;
  }

  function Reserved(): L.State { L.Effect(TW.Funded(), Entry(Reserve, TW.leg, false)) }

  lemma LedgerAnswers()
    ensures L.Judge(TW.Funded(), TW.Funded().accounts, map[], Entry(Reserve, TW.leg, false)) == L.OK
    ensures L.Judge(Reserved(), Reserved().accounts, map[], Entry(Void, TW.leg, false)) == L.OK
    ensures L.Judge(Reserved(), Reserved().accounts, map[], Entry(Post, TW.leg, false)) == L.OK
  {
  }

  function Prepares(): Stream { [Accepted(true)] + [Prepared([TW.leg]), StagingStarted] }

  lemma AcceptedFacts()
    ensures CurrentPhase([Accepted(true)]).InAccepted? && StageRequested([Accepted(true)])
  {
    assert [] + [Accepted(true)] == [Accepted(true)];
    Snoc([], Accepted(true));
  }

  /** Driver 1 accepts, prepares and stages. */
  lemma Stages() returns (w: World)
    ensures Reachable(0, w) && PcOf(w, 1).Idle? && w.stream == Prepares() + [Staged] && w.ledger == Reserved()
    ensures CurrentPhase(w.stream).InStaged?
  {
    TW.DriverAccepts(true);
    w := World([Accepted(true)], TW.Books(), map[1 := Idle]);
    TW.Funding(w);
    w := w.(ledger := TW.Funded());
    AcceptedFacts();
    LedgerAnswers();
    OneLegPasses(TW.Funded(), Reserve);
    var w' := AcceptedRunsToItsOutcome(0, w, 1, [TW.leg]);
    AloneIsReachable(0, 1, w, w');
    w := w';
  }

  lemma StagedFacts()
    ensures LegsOf(Prepares() + [Staged]) == Some([TW.leg]) && LiveMarker(Prepares() + [Staged]).None?
    ensures StageRequested(Prepares() + [Staged])
  {
    TW.PreparedFacts(true);
    assert Prepares() == TW.PreparedStream(true);
    Snoc(Prepares(), Staged);
  }

  /** A reachable Transfer that was staged and cancelled, its reservation of five
      voided. */
  lemma StagedCanBeCancelled() returns (w: World)
    ensures Reachable(0, w) && CurrentPhase(w.stream).InCancelled? && Cancelled in w.stream && StageRequested(w.stream)
    ensures LegsOf(w.stream) == Some([TW.leg]) && TW.leg.amount == 5 && TT.ReservationIs(w.ledger, TW.leg, L.Voided)
  {
    var w0 := Stages();
    StagedFacts();
    LedgerAnswers();
    OneLegPasses(Reserved(), Void);
    w := TakenOverRunsToItsOutcome(0, w0, 1, Cancel);
    AloneIsReachable(0, 1, w0, w);
    TA.LegsStable(w0.stream, w.stream);
    TT.LedgerAgreement(0, w);
    assert LegsOf(w.stream).value[0] == TW.leg;
  }

  /** And one that was staged, confirmed and committed, its five posted once. */
  lemma StagedCanBeCommitted() returns (w: World)
    ensures Reachable(0, w) && CurrentPhase(w.stream).InCommitted? && StageRequested(w.stream)
    ensures LegsOf(w.stream) == Some([TW.leg]) && TT.PostedOnce(w.ledger, TW.leg)
  {
    var w0 := Stages();
    StagedFacts();
    var w1 := StagedCanBeConfirmed(0, w0, 1);
    AloneIsReachable(0, 1, w0, w1);
    TA.LegsStable(w0.stream, w1.stream);
    Snoc(w0.stream, Pending);
    LedgerAnswers();
    OneLegPasses(Reserved(), Post);
    w := TakenOverRunsToItsOutcome(0, w1, 1, Commit(true));
    AloneIsReachable(0, 1, w1, w);
    TA.LegsStable(w1.stream, w.stream);
    TT.LedgerAgreement(0, w);
    assert LegsOf(w.stream).value[0] == TW.leg;
  }
}
