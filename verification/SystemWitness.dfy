/** A run of the whole system to a world where a Reversal is about to find its
    money: one child committed, a rollback requested, its Reversal unasked. */
module SystemWitness {
  import opened Common
  import L = Ledger
  import LI = LedgerInvariant
  import LR = LedgerRuns
  import M = Manifest
  import T = TransferStream
  import P = TransferProtocol
  import TT = TransferTheorems
  import TW = TransferWitness
  import S = TransactionSaga
  import V = TransactionInvariant
  import W = TransactionWitness
  import I = Isolation
  import opened TransactionStream
  import opened IsolationLedger
  import opened TransactionSystem
  import opened SystemInvariant

  const me: Id := Uuid(6, 0)
  const cast: Cast := Cast(me, map[Forward(W.kid) := 0, Backward(W.kid) := 1], map[W.kid := TW.B])

  /** The child's Token is minted, and the two accounts are open. */
  function Staged(saga: S.World, s: L.State, es: T.Stream, ds: map<nat, P.Pc>): System {
    System(I.Scene(saga, [I.Minted(NoId, TW.B, Some(me))], map[], [], []), s,
           map[Forward(W.kid) := Proc(es, ds), Backward(W.kid) := Proc([], map[])])
  }

  lemma IsOurCast()
    ensures IsCast(cast)
  {
    forall x: Part ensures x in cast.draws <==> x.child in cast.dest {
      assert x == Forward(x.child) || x == Backward(x.child);
    }
  }

  // ---- Tokens and accounts -------------------------------------------------

  function Open(): L.State { L.State(map[TW.A := TW.Free(), TW.B := TW.Free()], map[], map[]) }

  function Opening(id: Id): LI.Op { LI.OpenAccount(id, "USD", false, false) }

  lemma Opens()
    ensures Reachable(cast, Staged(S.Start, Open(), [], map[]))
  {
    IsOurCast();
    var j := System(I.Start, L.State(map[], map[], map[]),
                    map[Forward(W.kid) := Proc([], map[]), Backward(W.kid) := Proc([], map[])]);
    assert Reaches(cast, [], j);
    var j1 := j.(ledger := LI.Perform(j.ledger, Opening(TW.A)));
    ReachableStep(cast, j, OpenAccount(Opening(TW.A)), j1);
    var j2 := j1.(ledger := LI.Perform(j1.ledger, Opening(TW.B)));
    ReachableStep(cast, j1, OpenAccount(Opening(TW.B)), j2);
    assert j2.ledger == Open();
    Mints(j2);
  }

  lemma Mints(j: System)
    requires Reachable(cast, j) && IsCast(cast) && j.procs.Keys == cast.draws.Keys && j.scene == I.Start
    ensures Reachable(cast, j.(scene := j.scene.(minted := [I.Minted(NoId, TW.B, Some(me))])))
  {
    var mint := I.Mint(I.Minted(NoId, TW.B, Some(me)));
    var j' := j.(scene := j.scene.(minted := [I.Minted(NoId, TW.B, Some(me))]));
    assert I.Step(me, j.scene, mint) == j'.scene;
    ReachableStep(cast, j, Scene(mint, false, 0), j');
  }

  // ---- The saga ------------------------------------------------------------

  /** A saga step that asks nothing of a Transfer. */
  lemma Acts(saga: S.World, saga': S.World, s: L.State, es: T.Stream, ds: map<nat, P.Pc>, a: S.Action)
    requires Reachable(cast, Staged(saga, s, es, ds)) && S.Enabled(saga, a) && saga' == S.Step(saga, a)
    requires !a.Move? && !a.MoveReversal? && CallOf(saga, a).None?
    requires saga.stream == [] && saga'.stream != [] ==> saga'.stream == W.Opened()
    ensures Reachable(cast, Staged(saga', s, es, ds))
  {
    IsOurCast();
    var j, j' := Staged(saga, s, es, ds), Staged(saga', s, es, ds);
    assert I.Step(me, j.scene, I.Saga(a)) == j'.scene;
    ReachableStep(cast, j, Scene(I.Saga(a), false, 0), j');
  }

  lemma Dispatches()
    ensures Reachable(cast, Staged(W.At(W.Dispatched(), map[], S.Requesting({W.kid}, S.Idle)), Open(), [], map[]))
  {
    Opens();
    W.OpenSteps();
    Acts(S.Start, W.At([], map[], S.Opening(Initialized(W.spec))), Open(), [], map[],
        S.Open(0, W.request, map[], true));
    Acts(W.At([], map[], S.Opening(Initialized(W.spec))), W.At(W.Opened(), map[], S.Idle), Open(), [], map[],
         S.AppendOpening(0));
    Chooses();
  }

  lemma Chooses()
    requires Reachable(cast, Staged(W.At(W.Opened(), map[], S.Idle), Open(), [], map[]))
    ensures Reachable(cast, Staged(W.At(W.Dispatched(), map[], S.Requesting({W.kid}, S.Idle)), Open(), [], map[]))
  {
    var reconciling := W.At(W.Opened(), map[], S.Reconciling(W.Opened(), {}, false));
    var dispatching := W.At(W.Opened(), map[], S.Dispatching(W.Opened(), [W.kid]));
    W.ChooseSteps();
    Acts(W.At(W.Opened(), map[], S.Idle), reconciling, Open(), [], map[], S.Load(0));
    Acts(reconciling, dispatching, Open(), [], map[], S.Proceed(0, [W.kid]));
    W.DispatchStep();
    Acts(dispatching, W.At(W.Dispatched(), map[], S.Requesting({W.kid}, S.Idle)), Open(), [], map[], S.AppendSlice(0));
  }

  function Running(): S.World { W.At(W.Dispatched(), map[W.kid := T.InFlight], S.Idle) }

  function Asking(): S.World { W.At(W.Dispatched(), map[], S.Requesting({W.kid}, S.Idle)) }
  function Granted(): S.World { W.At(W.Dispatched(), map[W.kid := T.InFlight], S.Requesting({}, S.Idle)) }

  lemma RequestBegins()
    ensures IsCast(cast)
    ensures Follows(cast, Staged(Asking(), Open(), [], map[]), Scene(I.Saga(S.Request(0, W.kid, true)), false, 1),
                    Staged(Granted(), Open(), [T.Accepted(false)], map[1 := P.Idle]))
  {
    IsOurCast();
    W.RequestSteps();
    var j, a := Staged(Asking(), Open(), [], map[]), I.Saga(S.Request(0, W.kid, true));
    assert Begins(j, a) && CallOf(j.scene.saga, a.step) == Some(Call(Forward(W.kid), true));
    var ds: map<nat, P.Pc> := map[1 := P.Idle];
    assert Begun(j.procs[Forward(W.kid)], true, false, 1) == Proc([T.Accepted(false)], ds);
  }

  /** The request begins the child's Transfer. */
  lemma Requests()
    ensures Reachable(cast, Staged(Running(), Open(), [T.Accepted(false)], map[1 := P.Idle]))
  {
    Dispatches();
    RequestBegins();
    ReachableStep(cast, Staged(Asking(), Open(), [], map[]), Scene(I.Saga(S.Request(0, W.kid, true)), false, 1),
                  Staged(Granted(), Open(), [T.Accepted(false)], map[1 := P.Idle]));
    W.RequestSteps();
    Acts(Granted(), Running(), Open(), [T.Accepted(false)], map[1 := P.Idle], S.Finish(0));
  }

  // ---- The child's Transfer ------------------------------------------------

  /** What one step of its driver does. */
  ghost predicate Goes(s: L.State, es: T.Stream, pc: P.Pc, a: P.Action, s': L.State, es': T.Stream, pc': P.Pc) {
    && !a.Outside? && !a.OpenAccount? && P.Enabled(0, P.World(es, s, map[1 := pc]), a)
    && P.Step(0, P.World(es, s, map[1 := pc]), a) == P.World(es', s', map[1 := pc'])
  }

  /** A step that shows the saga nothing new. */
  lemma Drives(s: L.State, es: T.Stream, pc: P.Pc, a: P.Action, s': L.State, es': T.Stream, pc': P.Pc)
    requires Reachable(cast, Staged(Running(), s, es, map[1 := pc]))
    requires Goes(s, es, pc, a, s', es', pc') && T.Outcome(es) == T.Outcome(es') == T.InFlight
    requires a.Decide? && a.decision.Prepare? ==> a.decision.plan == [TW.leg] && TW.B in s.accounts
    ensures Reachable(cast, Staged(Running(), s', es', map[1 := pc']))
  {
    DriveFollows(s, es, pc, a, s', es', pc');
    ReachableStep(cast, Staged(Running(), s, es, map[1 := pc]), Drive(Forward(W.kid), a),
                  Staged(Running(), s', es', map[1 := pc']));
  }

  lemma MayDrive(j: System, x: Part, a: P.Action)
    requires IsCast(cast) && j.procs.Keys == cast.draws.Keys && x == Forward(W.kid) && x in j.procs
    requires !a.Outside? && !a.OpenAccount? && P.Enabled(0, WorldOf(j, x), a) && !T.Outcome(j.procs[x].stream).NotFound?
    requires a.Decide? && a.decision.Prepare? ==> Fits(cast, j, x, a.decision.plan)
    ensures DriveEnabled(cast, j, x, a)
  {
  }

  lemma DrivesTo(j: System, x: Part, a: P.Action, j': System, w: P.World)
    requires IsCast(cast) && j.procs.Keys == cast.draws.Keys && x == Forward(W.kid) && DriveEnabled(cast, j, x, a)
    requires P.Step(0, WorldOf(j, x), a) == w && Shown(cast, j.scene, x, T.Outcome(w.stream)) == j'.scene
    requires j'.ledger == w.ledger && j'.procs == j.procs[x := Proc(w.stream, w.drivers)]
    ensures Follows(cast, j, Drive(x, a), j')
  {
  }

  /** One that leaves the saga at `saga'`. */
  lemma FollowsTo(s: L.State, es: T.Stream, pc: P.Pc, a: P.Action, s': L.State, es': T.Stream, pc': P.Pc,
      saga': S.World)
    requires IsCast(cast) && Goes(s, es, pc, a, s', es', pc') && T.Outcome(es) == T.InFlight
    requires Shown(cast, Staged(Running(), s, es, map[1 := pc]).scene, Forward(W.kid), T.Outcome(es')) ==
      Staged(saga', s', es', map[1 := pc']).scene
    requires a.Decide? && a.decision.Prepare? ==>
               Fits(cast, Staged(Running(), s, es, map[1 := pc]), Forward(W.kid), a.decision.plan)
    ensures Follows(cast, Staged(Running(), s, es, map[1 := pc]), Drive(Forward(W.kid), a),
                    Staged(saga', s', es', map[1 := pc']))
  {
    StagedAlike(Running(), s, es, map[1 := pc], saga', s', es', map[1 := pc']);
    StepFollows(Staged(Running(), s, es, map[1 := pc]), P.World(es, s, map[1 := pc]), a,
                Staged(saga', s', es', map[1 := pc']), P.World(es', s', map[1 := pc']));
  }

  lemma StagedAlike(saga: S.World, s: L.State, es: T.Stream, ds: map<nat, P.Pc>, saga': S.World, s': L.State,
      es': T.Stream, ds': map<nat, P.Pc>)
    ensures var j, j' := Staged(saga, s, es, ds), Staged(saga', s', es', ds');
      && j.procs.Keys == cast.draws.Keys && Forward(W.kid) in j.procs
      && WorldOf(j, Forward(W.kid)) == P.World(es, s, ds)
      && j'.ledger == s' && j'.procs == j.procs[Forward(W.kid) := Proc(es', ds')]
  {
  }

  lemma StepFollows(j: System, w: P.World, a: P.Action, j': System, w': P.World)
    requires IsCast(cast) && j.procs.Keys == cast.draws.Keys && Forward(W.kid) in j.procs
    requires WorldOf(j, Forward(W.kid)) == w && !T.Outcome(w.stream).NotFound?
    requires !a.Outside? && !a.OpenAccount? && P.Enabled(0, w, a) && P.Step(0, w, a) == w'
    requires a.Decide? && a.decision.Prepare? ==> Fits(cast, j, Forward(W.kid), a.decision.plan)
    requires Shown(cast, j.scene, Forward(W.kid), T.Outcome(w'.stream)) == j'.scene && j'.ledger == w'.ledger
    requires j'.procs == j.procs[Forward(W.kid) := Proc(w'.stream, w'.drivers)]
    ensures Follows(cast, j, Drive(Forward(W.kid), a), j')
  {
    MayDrive(j, Forward(W.kid), a);
    DrivesTo(j, Forward(W.kid), a, j', w');
  }

  lemma DriveFollows(s: L.State, es: T.Stream, pc: P.Pc, a: P.Action, s': L.State, es': T.Stream, pc': P.Pc)
    requires Goes(s, es, pc, a, s', es', pc') && T.Outcome(es) == T.Outcome(es') == T.InFlight
    requires a.Decide? && a.decision.Prepare? ==> a.decision.plan == [TW.leg] && TW.B in s.accounts
    ensures IsCast(cast) && Follows(cast, Staged(Running(), s, es, map[1 := pc]), Drive(Forward(W.kid), a),
                                    Staged(Running(), s', es', map[1 := pc']))
  {
    IsOurCast();
    if a.Decide? && a.decision.Prepare? { PlanFits(s, es, pc); }
    FollowsTo(s, es, pc, a, s', es', pc', Running());
  }

  lemma PlanFits(s: L.State, es: T.Stream, pc: P.Pc)
    requires TW.B in s.accounts && IsCast(cast)
    ensures Fits(cast, Staged(Running(), s, es, map[1 := pc]), Forward(W.kid), [TW.leg])
  {
    var j := Staged(Running(), s, es, map[1 := pc]);
    assert j.scene.minted[0].token == TW.B && j.scene.minted[0].tag == Some(me);
    assert W.Dispatched() != [];
  }

  function Claimed(): P.Claim { TW.FirstClaim(false) }
  function Plan(): T.Stream { TW.PreparedStream(false) }

  lemma AcceptedFacts()
    ensures T.Outcome([T.Accepted(false)]) == T.InFlight && T.CurrentPhase([T.Accepted(false)]).InAccepted?
    ensures [T.Accepted(false)] + P.Adds([T.Accepted(false)], P.Prepare([TW.leg])) == Plan()
    ensures P.Won([T.Accepted(false)], P.Prepare([TW.leg])) == P.Begin(Claimed())
  {
    T.Snoc([], T.Accepted(false));
    assert [] + [T.Accepted(false)] == [T.Accepted(false)];
  }

  function Preparing(): P.Pc { P.Trying([T.Accepted(false)], P.Prepare([TW.leg])) }

  lemma PreparingGoes()
    ensures Goes(Open(), [T.Accepted(false)], P.Idle, P.Decide(1, P.Prepare([TW.leg])),
                 Open(), [T.Accepted(false)], Preparing())
    ensures Goes(Open(), [T.Accepted(false)], Preparing(), P.Append(1), Open(), Plan(), P.Begin(Claimed()))
  {
    AcceptedFacts();
  }

  lemma PlanFacts()
    ensures T.Outcome(Plan()) == T.InFlight && T.CurrentPhase(Plan()).InPrepared?
    ensures P.HoldsClaim(Plan(), 2) && T.LatestOutcome(Plan()) == Some(T.Prepared([TW.leg]))
  {
    TW.PreparedFacts(false);
  }

  lemma Prepares()
    ensures Reachable(cast, Staged(Running(), Open(), Plan(), map[1 := P.Begin(Claimed())]))
  {
    Requests();
    AcceptedFacts();
    PlanFacts();
    PreparingGoes();
    Drives(Open(), [T.Accepted(false)], P.Idle, P.Decide(1, P.Prepare([TW.leg])),
           Open(), [T.Accepted(false)], Preparing());
    Drives(Open(), [T.Accepted(false)], Preparing(), P.Append(1), Open(), Plan(), P.Begin(Claimed()));
  }

  function Moved(): L.State { L.Effect(Open(), P.Entry(P.Direct, TW.leg, false)) }

  lemma LetThrough()
    ensures L.Accepted(Open(), P.Chain(P.Direct, [TW.leg], 0))
    ensures L.ApplyRun(Open(), P.Chain(P.Direct, [TW.leg], 0)) == Moved()
  {
    assert P.Chain(P.Direct, [TW.leg], 0) == [P.Entry(P.Direct, TW.leg, false)];
    LR.RunOfOne(Open(), P.Entry(P.Direct, TW.leg, false));
  }

  function Submitting(done: nat): P.Pc { P.Submitting(Claimed(), P.Direct, done) }

  lemma SubmittingGoes()
    ensures Goes(Open(), Plan(), P.Begin(Claimed()), P.RequireClaim(1), Open(), Plan(), Submitting(0))
    ensures Goes(Moved(), Plan(), Submitting(1), P.SubmitChain(1), Moved(), Plan(), P.AfterBatch(Claimed(), P.Direct))
  {
    PlanFacts();
  }

  lemma ChainGoes()
    ensures Goes(Open(), Plan(), Submitting(0), P.SubmitChain(1), Moved(), Plan(), Submitting(1))
  {
    LetThrough();
  }

  lemma Submits()
    ensures Reachable(cast, Staged(Running(), Moved(), Plan(), map[1 := P.AfterBatch(Claimed(), P.Direct)]))
  {
    Prepares();
    PlanFacts();
    SubmittingGoes();
    ChainGoes();
    Drives(Open(), Plan(), P.Begin(Claimed()), P.RequireClaim(1), Open(), Plan(), Submitting(0));
    Drives(Open(), Plan(), Submitting(0), P.SubmitChain(1), Moved(), Plan(), Submitting(1));
    Drives(Moved(), Plan(), Submitting(1), P.SubmitChain(1), Moved(), Plan(), P.AfterBatch(Claimed(), P.Direct));
  }

  function Recording(): P.Pc { P.Recording(T.Committed, Some(Claimed())) }
  function Trying(): P.Pc { P.Trying(Plan(), P.Conclude(T.Committed, Some(Claimed()))) }

  lemma RecordingGoes()
    ensures Goes(Moved(), Plan(), P.AfterBatch(Claimed(), P.Direct), P.RequireClaim(1), Moved(), Plan(), Recording())
    ensures Goes(Moved(), Plan(), Recording(), P.LoadOutcome(1), Moved(), Plan(), Trying())
    ensures Goes(Moved(), Plan(), Trying(), P.Append(1), Moved(), Done(), P.Idle)
  {
    PlanFacts();
  }

  lemma Records()
    ensures Reachable(cast, Staged(Running(), Moved(), Plan(), map[1 := Trying()]))
  {
    Submits();
    PlanFacts();
    RecordingGoes();
    Drives(Moved(), Plan(), P.AfterBatch(Claimed(), P.Direct), P.RequireClaim(1), Moved(), Plan(), Recording());
    Drives(Moved(), Plan(), Recording(), P.LoadOutcome(1), Moved(), Plan(), Trying());
  }

  function Done(): T.Stream { Plan() + [T.Committed] }
  function Committed(): S.World { W.At(W.Dispatched(), map[W.kid := T.IsCommitted], S.Idle) }

  lemma DoneFacts()
    ensures T.Outcome(Done()) == T.IsCommitted && T.LegsOf(Done()) == Some([TW.leg])
  {
    TW.PreparedFacts(false);
    T.Snoc(Plan(), T.Committed);
  }

  lemma CommitFollows()
    ensures IsCast(cast)
    ensures Follows(cast, Staged(Running(), Moved(), Plan(), map[1 := Trying()]), Drive(Forward(W.kid), P.Append(1)),
                    Staged(Committed(), Moved(), Done(), map[1 := P.Idle]))
  {
    IsOurCast();
    DoneFacts();
    PlanFacts();
    RecordingGoes();
    ShowsCommitted(Staged(Running(), Moved(), Plan(), map[1 := Trying()]).scene);
    FollowsTo(Moved(), Plan(), Trying(), P.Append(1), Moved(), Done(), P.Idle, Committed());
  }

  /** Its Committed lands, and the saga may read it. */
  lemma Commits()
    ensures Reachable(cast, Staged(Committed(), Moved(), Done(), map[1 := P.Idle]))
  {
    Records();
    CommitFollows();
    ReachableStep(cast, Staged(Running(), Moved(), Plan(), map[1 := Trying()]), Drive(Forward(W.kid), P.Append(1)),
                  Staged(Committed(), Moved(), Done(), map[1 := P.Idle]));
  }

  lemma ShowsCommitted(scene: I.Scene)
    requires scene.saga == Running()
    ensures Shown(cast, scene, Forward(W.kid), T.IsCommitted) == scene.(saga := Committed())
  {
  }

  // ---- The rollback --------------------------------------------------------

  function RollingBack(): Stream { W.Dispatched() + [RollbackStarted] }

  lemma RollbackFacts()
    ensures Appends(W.Dispatched(), RollbackStarted) == [RollbackStarted]
    ensures TopLevelState(RollingBack()).IsRollingBack? && ChildStates(RollingBack()) == map[W.kid := Requested]
    ensures SpecOf(RollingBack()) == W.spec
  {
    W.DispatchedFacts();
    Snoc(W.Dispatched(), RollbackStarted);
  }

  function After(es: Stream, pc: S.Pc): S.World { W.At(es, map[W.kid := T.IsCommitted], pc) }

  function Rolling(): S.World { After(W.Dispatched(), S.Recording(RollbackStarted, S.Idle)) }
  function Appending(): S.World { After(W.Dispatched(), S.Appending(W.Dispatched(), RollbackStarted, S.Idle)) }

  lemma RollbackBegins()
    ensures S.Enabled(Committed(), S.StartRollback(0)) && S.Step(Committed(), S.StartRollback(0)) == Rolling()
  {
    W.DispatchedFacts();
  }

  lemma RollbackLoads()
    ensures S.Step(Rolling(), S.LoadStep(0)) == Appending()
  {
    RollbackFacts();
  }

  lemma RollbackLands()
    ensures S.Step(Appending(), S.AppendStep(0)) == After(RollingBack(), S.Idle)
  {
    RollbackFacts();
  }

  lemma RollsBack()
    ensures Reachable(cast, Staged(After(RollingBack(), S.Idle), Moved(), Done(), map[1 := P.Idle]))
  {
    Commits();
    RollbackBegins();
    Acts(Committed(), Rolling(), Moved(), Done(), map[1 := P.Idle], S.StartRollback(0));
    RollbackLoads();
    RollbackLands();
    Acts(Rolling(), Appending(), Moved(), Done(), map[1 := P.Idle], S.LoadStep(0));
    Acts(Appending(), After(RollingBack(), S.Idle), Moved(), Done(), map[1 := P.Idle], S.AppendStep(0));
  }

  lemma CanBeUndone()
    ensures I.IsOpen(RollingBack()) && V.Undoable(RollingBack(), W.kid)
  {
    RollbackFacts();
    assert RollingBack()[|W.Dispatched()|] == RollbackStarted;
  }

  /** Everything ReversalFinds asks for, all at once, with money at stake. */
  lemma ReversalCanFindMoney() returns (k: Cast, j: System, c: Id)
    ensures Reachable(k, j) && I.IsOpen(j.scene.saga.stream) && V.Undoable(j.scene.saga.stream, c) && c in k.dest
    ensures S.Live(j.scene.saga, c).IsCommitted?
    ensures Backward(c) in k.draws && TT.MovedNothing(k.draws[Backward(c)], j.ledger)
    ensures Shaped(k, j) && PaidIn(LegsOf(PairsOf(k, j)[c])) == 5
  {
    RollsBack();
    CanBeUndone();
    IsOurCast();
    k, j, c := cast, Staged(After(RollingBack(), S.Idle), Moved(), Done(), map[1 := P.Idle]), W.kid;
    PaysFive();
  }

  lemma PaysFive()
    ensures M.PreparedLegs(Done()) == M.Plain([TW.leg]) && PaidIn(M.PreparedLegs(Done())) == 5
  {
    var es: T.Stream := [T.Accepted(false)];
    M.PreparedSnoc([], T.Accepted(false));
    M.PreparedSnoc(es, T.Prepared([TW.leg]));
    M.PreparedSnoc(es + [T.Prepared([TW.leg])], P.Marker(P.Commit(false)));
    M.PreparedSnoc(Plan(), T.Committed);
    assert [] + es == es;
    assert M.Plain([TW.leg])[..0] == [];
  }
}
