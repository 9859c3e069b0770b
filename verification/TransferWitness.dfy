/** Two runs that show why a Failed Transfer is only empty when no driver acts
    under a claim it has lost: one immediate, one staged. */
module TransferWitness {
  import opened Common
  import L = Ledger
  import LI = LedgerInvariant
  import LR = LedgerRuns
  import opened TransferStream
  import opened TransferProtocol
  import opened TransferAgreement

  // ---- Short-hands for several steps of one driver -------------------------

  lemma DecideAppend(me: nat, w: World, d: nat, dec: Decision)
    requires Reachable(me, w) && PcOf(w, d).Idle? && Decides(me, w.stream, dec)
    ensures Reachable(me, World(w.stream + Adds(w.stream, dec), w.ledger, w.drivers[d := Won(w.stream, dec)]))
  {
    ReachableStep(me, w, Decide(d, dec));
    var w' := Step(me, w, Decide(d, dec));
    ReachableStep(me, w', Append(d));
    assert w'.drivers[d := Won(w.stream, dec)] == w.drivers[d := Won(w.stream, dec)];
  }

  lemma Passes(me: nat, w: World, d: nat, c: Claim, next: Pc)
    requires Reachable(me, w) && PcOf(w, d) == Check(c, next) && HoldsClaim(w.stream, c.at)
    ensures Reachable(me, Goto(w, d, next))
  {
    ReachableStep(me, w, RequireClaim(d));
  }

  lemma Records(me: nat, w: World, d: nat, e: Event, h: Option<Claim>)
    requires Reachable(me, w) && PcOf(w, d) == Recording(e, h)
    requires LatestOutcome(w.stream) != Some(e) && Allowed(CurrentPhase(w.stream), e)
    ensures Reachable(me, World(w.stream + [e], w.ledger, w.drivers[d := Idle]))
  {
    ReachableStep(me, w, LoadOutcome(d));
    var w' := Step(me, w, LoadOutcome(d));
    ReachableStep(me, w', Append(d));
    assert w'.drivers[d := Idle] == w.drivers[d := Idle];
  }

  /** Submitting a one-leg Transfer's only chain. */
  lemma Submits(me: nat, w: World, d: nat, c: Claim, batch: Batch)
    requires Reachable(me, w) && PcOf(w, d) == Submitting(c, batch, 0) && |c.legs| == 1
    ensures var t := Entry(batch, c.legs[0], false);
      var code := L.Judge(w.ledger, w.ledger.accounts, map[], t);
      Reachable(me, World(w.stream, if code == L.OK then L.Effect(w.ledger, t) else w.ledger,
                          w.drivers[d := if L.Good(code) then Submitting(c, batch, 1) else OnRefusal(c, batch, 0)]))
  {
    ReachableStep(me, w, SubmitChain(d));
    var t := Entry(batch, c.legs[0], false);
    assert Chain(batch, c.legs, 0) == [t];
    LR.RunOfOne(w.ledger, t);
  }

  lemma Finishes(me: nat, w: World, d: nat, c: Claim, batch: Batch)
    requires Reachable(me, w) && PcOf(w, d) == Submitting(c, batch, 1) && |c.legs| == 1
    ensures Reachable(me, Goto(w, d, AfterBatch(c, batch)))
  {
    ReachableStep(me, w, SubmitChain(d));
  }

  lemma Confirms(me: nat, w: World, d: nat)
    requires Reachable(me, w) && PcOf(w, d).Idle? && CurrentPhase(w.stream).InStaged? &&
      LatestOutcome(w.stream) != Some(Pending)
    ensures Reachable(me, World(w.stream + [Pending], w.ledger, w.drivers[d := Idle]))
  {
    ReachableStep(me, w, Confirm(d));
    var w' := Goto(w, d, Recording(Pending, None));
    Records(me, w', d, Pending, None);
    assert w'.drivers[d := Idle] == w.drivers[d := Idle];
  }

  // ---- The books and the leg -----------------------------------------------

  const A := Uuid(9, 1)   // may not be overdrawn
  const B := Uuid(9, 2)
  const C := Uuid(9, 3)
  const leg := Leg(A, B, 5, "USD", Uuid(0, 0))

  function Free(): L.Account { L.Account("USD", false, false, 0, 0, 0, 0) }
  function Capped(): L.Account { L.Account("USD", false, true, 0, 0, 0, 0) }
  function Books(): L.State { L.State(map[A := Capped(), B := Free(), C := Free()], map[], map[]) }

  /** Someone else pays five into the source account. */
  const funding := L.Transfer(Uuid(8, 0), C, A, 5, "USD", false, L.Regular, NoId)

  function Funded(): L.State { L.Effect(Books(), funding) }

  lemma Funding(w: World)
    requires Reachable(0, w) && w.ledger == Books()
    ensures Reachable(0, w.(ledger := Funded()))
  {
    LR.RunOfOne(Books(), funding);
    ReachableStep(0, w, Outside([funding]));
  }

  lemma LedgerAnswers()
    ensures L.Judge(Books(), Books().accounts, map[], Entry(Direct, leg, false)) == L.ExceedsCredits
    ensures L.Judge(Books(), Books().accounts, map[], Entry(Reserve, leg, false)) == L.ExceedsCredits
    ensures L.Judge(Funded(), Funded().accounts, map[], Entry(Direct, leg, false)) == L.OK
    ensures L.Judge(Funded(), Funded().accounts, map[], Entry(Reserve, leg, false)) == L.OK
  {
  }

  lemma Start()
    ensures Reachable(0, World([], Books(), map[]))
  {
    ReachableStart(0, World([], Books(), map[]));
  }

  /** The stream once a Transfer is prepared and its next step claimed. */
  function PreparedStream(stage: bool): Stream {
    [Accepted(stage)] + [Prepared([leg])] + [Marker(if stage then Stage else Commit(false))]
  }

  function FirstClaim(stage: bool): Claim { Claim(if stage then Stage else Commit(false), 2, [leg]) }

  lemma PreparedFacts(stage: bool)
    ensures var es := PreparedStream(stage);
      && CurrentPhase(es).InPrepared? && StageRequested(es) == stage && LegsOf(es) == Some([leg])
      && LiveMarker(es) == Some(2) && LatestOutcome(es) == Some(Prepared([leg]))
  {
    Snoc([], Accepted(stage));
    assert [] + [Accepted(stage)] == [Accepted(stage)];
    Snoc([Accepted(stage)], Prepared([leg]));
    Snoc([Accepted(stage)] + [Prepared([leg])], Marker(if stage then Stage else Commit(false)));
  }

  lemma DriverAccepts(stage: bool)
    ensures Reachable(0, World([Accepted(stage)], Books(), map[1 := Idle]))
  {
    Start();
    DecideAppend(0, World([], Books(), map[]), 1, Open(true, stage));
    assert [] + [Accepted(stage)] == [Accepted(stage)];
  }

  lemma DriverPrepares(stage: bool)
    ensures Reachable(0, World(PreparedStream(stage), Books(), map[1 := Begin(FirstClaim(stage))]))
  {
    DriverAccepts(stage);
    Snoc([], Accepted(stage));
    assert [] + [Accepted(stage)] == [Accepted(stage)];
    var w := World([Accepted(stage)], Books(), map[1 := Idle]);
    DecideAppend(0, w, 1, Prepare([leg]));
    assert [Accepted(stage)] + Adds(w.stream, Prepare([leg])) == PreparedStream(stage);
    assert w.drivers[1 := Begin(FirstClaim(stage))] == map[1 := Begin(FirstClaim(stage))];
  }

  lemma DriverSubmits(stage: bool)
    ensures var c := FirstClaim(stage);
      Reachable(0, World(PreparedStream(stage), Books(), map[1 := Check(c, Recording(Failed, Some(c)))]))
  {
    DriverPrepares(stage);
    PreparedFacts(stage);
    var es, c := PreparedStream(stage), FirstClaim(stage);
    var batch := FirstBatch(c.job, c.legs);
    Passes(0, World(es, Books(), map[1 := Begin(c)]), 1, c, Submitting(c, batch, 0));
    var ds: map<nat, Pc> := map[1 := Begin(c)];
    assert ds[1 := Submitting(c, batch, 0)] == map[1 := Submitting(c, batch, 0)];
    DriverRefused(stage, map[1 := Submitting(c, batch, 0)]);
  }

  lemma DriverRefused(stage: bool, ds: map<nat, Pc>)
    requires var c := FirstClaim(stage); ds == map[1 := Submitting(c, FirstBatch(c.job, c.legs), 0)]
    requires Reachable(0, World(PreparedStream(stage), Books(), ds))
    ensures var c := FirstClaim(stage);
      Reachable(0, World(PreparedStream(stage), Books(), map[1 := Check(c, Recording(Failed, Some(c)))]))
  {
    var c := FirstClaim(stage);
    LedgerAnswers();
    Submits(0, World(PreparedStream(stage), Books(), ds), 1, c, FirstBatch(c.job, c.legs));
    assert ds[1 := Check(c, Recording(Failed, Some(c)))] == map[1 := Check(c, Recording(Failed, Some(c)))];
  }

  /** Driver 1 accepts, prepares, is refused for want of funds, and passes its
      last claim check: all that remains is to record Failed. */
  lemma DriverAboutToFail(stage: bool)
    ensures Reachable(0, World(PreparedStream(stage), Books(), map[1 := Recording(Failed, Some(FirstClaim(stage)))]))
  {
    DriverSubmits(stage);
    PreparedFacts(stage);
    var c := FirstClaim(stage);
    var ds: map<nat, Pc> := map[1 := Check(c, Recording(Failed, Some(c)))];
    Passes(0, World(PreparedStream(stage), Books(), ds), 1, c, Recording(Failed, Some(c)));
    assert ds[1 := Recording(Failed, Some(c))] == map[1 := Recording(Failed, Some(c))];
  }

  // ---- A second driver takes the claim over and succeeds -------------------

  /** Driver 1 parked on its Failed, driver 2 wherever it is. */
  function Parked(stage: bool, pc: Pc): map<nat, Pc> { map[1 := Recording(Failed, Some(FirstClaim(stage))), 2 := pc] }

  function SecondClaim(stage: bool): Claim { FirstClaim(stage).(at := 3) }

  function ReclaimedStream(stage: bool): Stream { PreparedStream(stage) + [Marker(FirstClaim(stage).job)] }

  lemma ReclaimedFacts(stage: bool)
    ensures var es := ReclaimedStream(stage);
      && CurrentPhase(es).InPrepared? && StageRequested(es) == stage && LegsOf(es) == Some([leg])
      && LiveMarker(es) == Some(3) && LatestOutcome(es) == Some(Prepared([leg]))
  {
    PreparedFacts(stage);
    Snoc(PreparedStream(stage), Marker(FirstClaim(stage).job));
  }

  lemma SecondReclaims(stage: bool)
    ensures Reachable(0, World(ReclaimedStream(stage), Books(), Parked(stage, Begin(SecondClaim(stage)))))
  {
    DriverAboutToFail(stage);
    PreparedFacts(stage);
    var ds: map<nat, Pc> := map[1 := Recording(Failed, Some(FirstClaim(stage)))];
    DecideAppend(0, World(PreparedStream(stage), Books(), ds), 2, ClaimFor(FirstClaim(stage).job));
    assert ds[2 := Begin(SecondClaim(stage))] == Parked(stage, Begin(SecondClaim(stage)));
  }

  lemma SecondPasses(stage: bool)
    ensures var c := SecondClaim(stage);
      Reachable(0, World(ReclaimedStream(stage), Funded(), Parked(stage, Submitting(c, FirstBatch(c.job, c.legs), 0))))
  {
    SecondReclaims(stage);
    ReclaimedFacts(stage);
    var c := SecondClaim(stage);
    var next := Submitting(c, FirstBatch(c.job, c.legs), 0);
    Funding(World(ReclaimedStream(stage), Books(), Parked(stage, Begin(c))));
    Passes(0, World(ReclaimedStream(stage), Funded(), Parked(stage, Begin(c))), 2, c, next);
    assert Parked(stage, Begin(c))[2 := next] == Parked(stage, next);
  }

  /** The books once driver 2's chain is accepted. */
  function Moved(batch: Batch): L.State
    requires batch == Direct || batch == Reserve
  {
    L.Effect(Funded(), Entry(batch, leg, false))
  }

  lemma SecondSubmits(stage: bool)
    ensures var c := SecondClaim(stage); var b := if stage then Reserve else Direct;
      Reachable(0, World(ReclaimedStream(stage), Moved(b), Parked(stage, Submitting(c, b, 1))))
  {
    SecondPasses(stage);
    LedgerAnswers();
    SecondAccepted(stage, Funded(), if stage then Reserve else Direct);
  }

  lemma SecondAccepted(stage: bool, s: L.State, b: Batch)
    requires Reachable(0, World(ReclaimedStream(stage), s, Parked(stage, Submitting(SecondClaim(stage), b, 0))))
    requires L.Judge(s, s.accounts, map[], Entry(b, leg, false)) == L.OK
    ensures Reachable(0, World(ReclaimedStream(stage), L.Effect(s, Entry(b, leg, false)),
      Parked(stage, Submitting(SecondClaim(stage), b, 1))))
  {
    var c := SecondClaim(stage);
    var ds := Parked(stage, Submitting(c, b, 0));
    Submits(0, World(ReclaimedStream(stage), s, ds), 2, c, b);
    assert ds[2 := Submitting(c, b, 1)] == Parked(stage, Submitting(c, b, 1));
  }

  /** Failed is the last word on the stream, and the leg's money has moved. */
  ghost predicate FailedYetMoved(w: World, stage: bool, batch: Batch) {
    && StageRequested(w.stream) == stage && CurrentPhase(w.stream).InFailed?
    && LegsOf(w.stream) == Some([leg]) && Did(w.ledger, batch, leg) && LI.Moves(L.Store(Entry(batch, leg, false)))
  }

  /** Driver 1 wakes up and records its Failed. */
  lemma LateFailureLands(stage: bool, es: Stream, s: L.State, pc: Pc, batch: Batch) returns (w: World)
    requires Reachable(0, World(es, s, Parked(stage, pc))) && Allowed(CurrentPhase(es), Failed) &&
      LatestOutcome(es) != Some(Failed)
    requires es != [] && StageRequested(es) == stage && LegsOf(es) == Some([leg])
    requires Did(s, batch, leg) && (batch == Direct || batch == Post)
    ensures Reachable(0, w) && FailedYetMoved(w, stage, batch) && w.ledger == s
  {
    w := World(es, s, Parked(stage, pc));
    Records(0, w, 1, Failed, Some(FirstClaim(stage)));
    Snoc(es, Failed);
    w := World(es + [Failed], s, w.drivers[1 := Idle]);
  }

  /** An immediate Transfer can end Failed with its leg posted. */
  lemma ImmediateFailureCanMoveMoney() returns (w: World)
    ensures Reachable(0, w) && FailedYetMoved(w, false, Direct) && w.ledger == Moved(Direct)
  {
    SecondSubmits(false);
    ReclaimedFacts(false);
    w := LateFailureLands(false, ReclaimedStream(false), Moved(Direct), Submitting(SecondClaim(false), Direct, 1),
        Direct);
  }

  // ---- Staged: confirmed and posted before the late Failed lands -----------

  function StagedStream(): Stream { ReclaimedStream(true) + [Staged] }
  function PendingStream(): Stream { StagedStream() + [Pending] }
  function PostingStream(): Stream { PendingStream() + [CommittingStarted] }

  lemma StagedFacts()
    ensures CurrentPhase(StagedStream()).InStaged? && LatestOutcome(StagedStream()) == Some(Staged)
    ensures CurrentPhase(PendingStream()).InPending? && LiveMarker(PendingStream()).None?
    ensures CurrentPhase(PostingStream()).InPending? && LatestOutcome(PostingStream()) == Some(Pending)
    ensures LegsOf(PendingStream()) == Some([leg]) == LegsOf(PostingStream()) && StageRequested(PostingStream())
    ensures LiveMarker(PostingStream()) == Some(6)
  {
    ReclaimedFacts(true);
    Snoc(ReclaimedStream(true), Staged);
    Snoc(StagedStream(), Pending);
    Snoc(PendingStream(), CommittingStarted);
  }

  lemma SecondFinishes(s: L.State)
    requires Reachable(0, World(ReclaimedStream(true), s, Parked(true, Submitting(SecondClaim(true), Reserve, 1))))
    ensures Reachable(0, World(ReclaimedStream(true), s, Parked(true, Recording(Staged, Some(SecondClaim(true))))))
  {
    ReclaimedFacts(true);
    var c := SecondClaim(true);
    var ds, next := Parked(true, Submitting(c, Reserve, 1)), Recording(Staged, Some(c));
    Finishes(0, World(ReclaimedStream(true), s, ds), 2, c, Reserve);
    assert ds[2 := Check(c, next)] == Parked(true, Check(c, next));
    Passes(0, World(ReclaimedStream(true), s, Parked(true, Check(c, next))), 2, c, next);
    assert Parked(true, Check(c, next))[2 := next] == Parked(true, next);
  }

  lemma SecondStages(s: L.State)
    requires Reachable(0, World(ReclaimedStream(true), s, Parked(true, Recording(Staged, Some(SecondClaim(true))))))
    ensures Reachable(0, World(StagedStream(), s, Parked(true, Idle)))
  {
    ReclaimedFacts(true);
    var ds := Parked(true, Recording(Staged, Some(SecondClaim(true))));
    Records(0, World(ReclaimedStream(true), s, ds), 2, Staged, Some(SecondClaim(true)));
    assert ds[2 := Idle] == Parked(true, Idle);
  }

  lemma SecondConfirms(s: L.State)
    requires Reachable(0, World(StagedStream(), s, Parked(true, Idle)))
    ensures Reachable(0, World(PendingStream(), s, Parked(true, Idle)))
  {
    StagedFacts();
    Confirms(0, World(StagedStream(), s, Parked(true, Idle)), 2);
    assert Parked(true, Idle)[2 := Idle] == Parked(true, Idle);
  }

  function PostClaim(): Claim { Claim(Commit(true), 6, [leg]) }

  lemma SecondClaimsPost(s: L.State)
    requires Reachable(0, World(PendingStream(), s, Parked(true, Idle)))
    ensures Reachable(0, World(PostingStream(), s, Parked(true, Begin(PostClaim()))))
  {
    StagedFacts();
    DecideAppend(0, World(PendingStream(), s, Parked(true, Idle)), 2, ClaimFor(Commit(true)));
    assert Parked(true, Idle)[2 := Begin(PostClaim())] == Parked(true, Begin(PostClaim()));
  }

  lemma SecondPosts(s: L.State)
    requires Reachable(0, World(PostingStream(), s, Parked(true, Begin(PostClaim()))))
    requires L.Judge(s, s.accounts, map[], Entry(Post, leg, false)) == L.OK
    ensures Reachable(0, World(PostingStream(), L.Effect(s, Entry(Post, leg, false)),
      Parked(true, Submitting(PostClaim(), Post, 1))))
  {
    StagedFacts();
    var c, next := PostClaim(), Submitting(PostClaim(), Post, 0);
    Passes(0, World(PostingStream(), s, Parked(true, Begin(c))), 2, c, next);
    assert Parked(true, Begin(c))[2 := next] == Parked(true, next);
    Submits(0, World(PostingStream(), s, Parked(true, next)), 2, c, Post);
    assert Parked(true, next)[2 := Submitting(c, Post, 1)] == Parked(true, Submitting(c, Post, 1));
  }

  lemma PostIsAccepted()
    ensures L.Judge(Moved(Reserve), Moved(Reserve).accounts, map[], Entry(Post, leg, false)) == L.OK
  {
  }

  lemma StagedThenPosted(s: L.State)
    requires Reachable(0, World(ReclaimedStream(true), s, Parked(true, Submitting(SecondClaim(true), Reserve, 1))))
    requires L.Judge(s, s.accounts, map[], Entry(Post, leg, false)) == L.OK
    ensures Reachable(0, World(PostingStream(), L.Effect(s, Entry(Post, leg, false)),
      Parked(true, Submitting(PostClaim(), Post, 1))))
  {
    SecondFinishes(s);
    SecondStages(s);
    SecondConfirms(s);
    SecondClaimsPost(s);
    SecondPosts(s);
  }

  /** A staged Transfer can end Failed with its leg posted, although no post was
      ever refused: the stage step's late Failed lands on a Pending Transfer. */
  lemma StagedFailureCanMoveMoney() returns (w: World)
    ensures Reachable(0, w) && FailedYetMoved(w, true, Post)
  {
    SecondSubmits(true);
    PostIsAccepted();
    StagedThenPosted(Moved(Reserve));
    StagedFacts();
    w := LateFailureLands(true, PostingStream(), L.Effect(Moved(Reserve), Entry(Post, leg, false)),
        Submitting(PostClaim(), Post, 1), Post);
  }
}
