/** What every step of the whole system keeps: each of a Transaction's Transfers
    is a run of its own on the one ledger, at the outcome the saga reads. */
module SystemInvariant {
  import opened Common
  import L = Ledger
  import LI = LedgerInvariant
  import LR = LedgerRuns
  import M = Manifest
  import T = TransferStream
  import P = TransferProtocol
  import TA = TransferAgreement
  import TT = TransferTheorems
  import TF = TransferFailure
  import S = TransactionSaga
  import I = Isolation
  import opened TransactionStream
  import opened TransactionLedger
  import opened IsolationLedger
  import opened TransactionSystem

  // ---- The invariant -------------------------------------------------------

  ghost predicate Shaped(k: Cast, j: System) { IsCast(k) && j.procs.Keys == k.draws.Keys }

  /** Every part is a Transfer run on the ledger, at the outcome the saga reads. */
  ghost predicate Standing(k: Cast, j: System)
    requires Shaped(k, j)
  {
    forall x :: x in j.procs ==> Drives(k.draws[x], WorldOf(j, x), j.ledger, OutcomeAt(j.scene.saga, x))
  }

  /** Legs a part has prepared or is about to. */
  ghost predicate Means(p: Proc, legs: seq<T.Leg>) { T.LegsOf(p.stream) == Some(legs) || Planned(p, legs) }

  ghost predicate Fitting(k: Cast, j: System)
    requires Shaped(k, j)
  {
    forall x, legs :: x in j.procs && Means(j.procs[x], legs) ==> Fits(k, j, x, legs)
  }

  ghost predicate Drawn(k: Cast, id: Id) { exists x :: x in k.draws && Drawer(id) == Some(k.draws[x]) }

  /** Right books, on which everyone else's postings are known. */
  ghost predicate Kept(k: Cast, s: L.State, posted: seq<M.Leg>) {
    && LI.Books(s)
    && forall id :: id in s.transfers && LI.Moves(s.transfers[id]) && !Drawn(k, id) ==> Carried(s.transfers[id], posted)
  }

  ghost predicate Named(k: Cast, es: Stream) { es != [] && es[0].Initialized? ==> es[0].spec.nodes == k.dest.Keys }

  ghost predicate Inv(k: Cast, j: System) {
    && Shaped(k, j) && I.Reachable(k.me, j.scene) && Standing(k, j) && Fitting(k, j)
    && Kept(k, j.ledger, j.scene.posted) && Named(k, j.scene.saga.stream)
  }

  // ---- Plans go on fitting -------------------------------------------------

  ghost predicate Grows(k: Cast, j: System, j': System) {
    && Shaped(k, j) && Shaped(k, j') && j.scene.saga.stream <= j'.scene.saga.stream
    && j.scene.minted <= j'.scene.minted && j.ledger.accounts.Keys <= j'.ledger.accounts.Keys
    && forall x :: x in j.procs ==> j.procs[x].stream <= j'.procs[x].stream
  }

  lemma StillFits(k: Cast, j: System, j': System, x: Part, legs: seq<T.Leg>)
    requires Grows(k, j, j') && x in j.procs && Fits(k, j, x, legs)
    ensures Fits(k, j', x, legs)
  {
    match x
    case Forward(c) =>
      var i :| 0 <= i < |j.scene.minted| && j.scene.minted[i].token == k.dest[c] && j.scene.minted[i].tag == Some(k.me);
      assert j'.scene.minted[i] == j.scene.minted[i];
      assert SpecOf(j'.scene.saga.stream) == SpecOf(j.scene.saga.stream);
    case Backward(c) => TA.LegsStable(j.procs[Forward(c)].stream, j'.procs[Forward(c)].stream);
  }

  lemma FittingStays(k: Cast, j: System, j': System)
    requires Grows(k, j, j') && Fitting(k, j)
    requires forall x, legs :: x in j'.procs && Means(j'.procs[x], legs) ==>
      Means(j.procs[x], legs) || Fits(k, j, x, legs)
    ensures Fitting(k, j')
  {
    forall x, legs | x in j'.procs && Means(j'.procs[x], legs) ensures Fits(k, j', x, legs) {
      StillFits(k, j, j', x, legs);
    }
  }

  // ---- The ledger ----------------------------------------------------------

  lemma RunKeeps(k: Cast, s: L.State, posted: seq<M.Leg>, run: seq<L.Transfer>)
    requires Kept(k, s, posted) && LI.Proper(run)
    requires forall i :: 0 <= i < |run| && LI.Moves(L.Store(run[i])) ==>
               Drawn(k, run[i].id) || Carried(L.Store(run[i]), posted)
    ensures Kept(k, L.ApplyRun(s, run), posted)
  {
    var s' := L.ApplyRun(s, run);
    LI.RunKeepsBooks(s, run);
    LR.RunExtends(s, run);
    LR.RunRecords(s, run);
    forall id | id in s'.transfers && LI.Moves(s'.transfers[id]) && !Drawn(k, id)
      ensures Carried(s'.transfers[id], posted)
    {
      if id !in s.transfers {
        assert LR.OnRecordOf(s', run, |run|, id);
        var i :| 0 <= i < |run| && run[i].id == id && LR.OnRecord(s', run[i]);
      }
    }
  }

  /** A chain of one part's is proper, its own, and nobody else's. */
  lemma ChainIsOurs(k: Cast, j: System, x: Part, batch: P.Batch, legs: seq<T.Leg>, done: nat)
    requires Shaped(k, j) && x in j.procs && P.PlanOf(k.draws[x], legs) && TwoSided(legs) && done < |legs|
    ensures var run := P.Chain(batch, legs, done);
      && LI.Proper(run) && (forall i :: 0 <= i < |run| ==> Drawn(k, run[i].id))
      && forall y :: y in k.draws && y != x ==> P.Foreign(k.draws[y], run)
  {
    TA.ChainIsDistinct(k.draws[x], legs, batch, done);
    var run := P.Chain(batch, legs, done);
    forall i | 0 <= i < |run|
      ensures run[i].debit != run[i].credit && Drawer(run[i].id) == Some(k.draws[x])
      ensures run[i].pendingId == NoId || Drawer(run[i].pendingId) == Some(k.draws[x])
    {
      assert legs[done + i].ledgerId.Uuid?;
    }
  }

  predicate TwoSided(legs: seq<T.Leg>) { forall i :: 0 <= i < |legs| ==> legs[i].source != legs[i].dest }

  lemma FitsIsTwoSided(k: Cast, j: System, x: Part, legs: seq<T.Leg>)
    requires Shaped(k, j) && Fitting(k, j) && x in j.procs && Means(j.procs[x], legs)
    ensures TwoSided(legs)
  {
    assert Fits(k, j, x, legs);
    if x.Backward? {
      var own := LegsAt(j, Forward(x.child)).value;
      assert Fits(k, j, Forward(x.child), own);
      forall i | 0 <= i < |legs| ensures legs[i].source != legs[i].dest {
        assert M.Plain(legs)[i] == M.Reversed(M.Plain(own))[i] == M.Swap(M.Plain(own)[i]);
      }
    }
  }

  // ---- The saga, the Tokens and outside callers ----------------------------

  lemma SceneReachable(me: Id, w: I.Scene, a: I.Action)
    requires I.Reachable(me, w) && I.Enabled(me, w, a)
    ensures I.Reachable(me, I.Step(me, w, a))
  {
    var ws, actions :| I.IsRun(me, ws, actions) && ws[|ws| - 1] == w;
    var ws', actions' := ws + [I.Step(me, w, a)], actions + [a];
    forall i | 0 <= i < |actions'|
      ensures I.Enabled(me, ws'[i], actions'[i]) && ws'[i + 1] == I.Step(me, ws'[i], actions'[i])
    {
      if i < |actions| { assert ws'[i] == ws[i] && ws'[i + 1] == ws[i + 1] && actions'[i] == actions[i]; }
    }
    assert I.IsRun(me, ws', actions');
  }

  /** A saga step moves no outcome but that of the Transfer it requests. */
  lemma SagaOutcomes(w: S.World, a: S.Action, x: Part)
    requires S.Enabled(w, a) && !a.Move? && !a.MoveReversal?
    ensures OutcomeAt(S.Step(w, a), x) ==
      if CallOf(w, a).Some? && CallOf(w, a).value.part == x then S.Requests(OutcomeAt(w, x), CallOf(w, a).value.accept)
      else OutcomeAt(w, x)
  {
  }

  lemma SceneGrows(me: Id, w: I.Scene, a: I.Action)
    requires I.Reachable(me, w) && I.Enabled(me, w, a)
    ensures var w' := I.Step(me, w, a);
      && w.saga.stream <= w'.saga.stream && w.minted <= w'.minted && w.posted <= w'.posted
      && (!a.Saga? ==> w'.saga == w.saga)
  {
    I.ReachableInv(me, w);
    if a.Saga? { I.StreamOnlyGrows(w.saga, a.step); }
  }

  lemma UnaskedIsEmpty(me: nat, w: P.World)
    requires P.Reachable(me, w) && T.Outcome(w.stream).NotFound?
    ensures w.stream == []
  {
    TT.ReachableInv(me, w);
    if w.stream != [] && !T.RejectedRequest(w.stream) { T.AcceptedIsKnown(w.stream); }
  }

  /** A request is taken by deciding on the empty stream and appending. */
  lemma BegunIsReachable(me: nat, w: P.World, accept: bool, stage: bool, d: nat)
    requires P.Reachable(me, w) && w.stream == [] && P.PcOf(w, d).Idle?
    ensures var b := Begun(Proc(w.stream, w.drivers), accept, stage, d);
      P.Reachable(me, P.World(b.stream, w.ledger, b.drivers))
  {
    P.ReachableStep(me, w, P.Decide(d, P.Open(accept, stage)));
    var w1 := P.Step(me, w, P.Decide(d, P.Open(accept, stage)));
    P.ReachableStep(me, w1, P.Append(d));
    var b := Begun(Proc(w.stream, w.drivers), accept, stage, d);
    assert P.Step(me, w1, P.Append(d)) == P.World(b.stream, w.ledger, b.drivers);
  }

  lemma BegunDrives(me: nat, w: P.World, accept: bool, stage: bool, d: nat)
    requires P.Reachable(me, w) && T.Outcome(w.stream).NotFound? && P.PcOf(w, d).Idle?
    ensures w.stream == []
    ensures var b := Begun(Proc(w.stream, w.drivers), accept, stage, d);
      Drives(me, P.World(b.stream, w.ledger, b.drivers), w.ledger, S.Requests(T.NotFound, accept))
  {
    UnaskedIsEmpty(me, w);
    BegunIsReachable(me, w, accept, stage, d);
    BegunOutcome(accept, stage);
  }

  lemma BegunMeans(p: Proc, accept: bool, stage: bool, d: nat, legs: seq<T.Leg>)
    requires Means(Begun(p, accept, stage, d), legs)
    ensures Means(p, legs)
  {
    BegunOutcome(accept, stage);
    var e, seen :| e in p.drivers[d := P.Idle] && p.drivers[d := P.Idle][e] == P.Trying(seen, P.Prepare(legs));
    assert e in p.drivers && p.drivers[e] == P.Trying(seen, P.Prepare(legs));
  }

  lemma BegunOutcome(accept: bool, stage: bool)
    ensures T.Outcome([if accept then T.Accepted(stage) else T.RequestRejected]) == S.Requests(T.NotFound, accept)
    ensures T.LegsOf([if accept then T.Accepted(stage) else T.RequestRejected]).None?
  {
    var e := if accept then T.Accepted(stage) else T.RequestRejected;
    assert [] + [e] == [e];
    T.Snoc([], e);
  }

  /** The outcome of part `x` once the call, if any, is answered. */
  function Answered(j: System, a: I.Action, x: Part): T.OutcomeKind {
    var o := OutcomeAt(j.scene.saga, x);
    if a.Saga? && CallOf(j.scene.saga, a.step).Some? && CallOf(j.scene.saga, a.step).value.part == x
    then S.Requests(o, CallOf(j.scene.saga, a.step).value.accept) else o
  }

  lemma AskedMeans(k: Cast, j: System, a: I.Action, stage: bool, d: nat, x: Part)
    requires Shaped(k, j) && Standing(k, j) && x in j.procs
    ensures var procs' := Asked(j, a, stage, d);
      && procs'.Keys == j.procs.Keys && j.procs[x].stream <= procs'[x].stream
      && (forall legs :: Means(procs'[x], legs) ==> Means(j.procs[x], legs))
  {
    if Begins(j, a) && x == CallOf(j.scene.saga, a.step).value.part {
      var call := CallOf(j.scene.saga, a.step).value;
      assert Drives(k.draws[x], WorldOf(j, x), j.ledger, OutcomeAt(j.scene.saga, x));
      UnaskedIsEmpty(k.draws[x], WorldOf(j, x));
      forall legs | Means(Begun(j.procs[x], call.accept, stage, d), legs) ensures Means(j.procs[x], legs) {
        BegunMeans(j.procs[x], call.accept, stage, d, legs);
      }
    }
  }

  /** A call begins the part it names and touches no other. */
  lemma AskedProc(j: System, a: I.Action, stage: bool, d: nat, x: Part)
    requires x in j.procs
    ensures Asked(j, a, stage, d).Keys == j.procs.Keys
    ensures if Begins(j, a) && x == CallOf(j.scene.saga, a.step).value.part
            then Asked(j, a, stage, d)[x] == Begun(j.procs[x], CallOf(j.scene.saga, a.step).value.accept, stage, d)
            else Asked(j, a, stage, d)[x] == j.procs[x] && Answered(j, a, x) == OutcomeAt(j.scene.saga, x)
  {
  }

  lemma AskedStands(k: Cast, j: System, a: I.Action, stage: bool, d: nat, x: Part)
    requires Shaped(k, j) && Standing(k, j) && Answers(j, a, d) && x in j.procs
    ensures var procs' := Asked(j, a, stage, d);
      && procs'.Keys == j.procs.Keys
      && Drives(k.draws[x], P.World(procs'[x].stream, j.ledger, procs'[x].drivers), j.ledger, Answered(j, a, x))
  {
    assert Drives(k.draws[x], WorldOf(j, x), j.ledger, OutcomeAt(j.scene.saga, x));
    AskedProc(j, a, stage, d, x);
    if Begins(j, a) && x == CallOf(j.scene.saga, a.step).value.part {
      BegunDrives(k.draws[x], WorldOf(j, x), CallOf(j.scene.saga, a.step).value.accept, stage, d);
    }
  }

  lemma SceneStands(k: Cast, j: System, a: I.Action, stage: bool, d: nat, scene': I.Scene)
    requires Shaped(k, j) && Standing(k, j) && Answers(j, a, d)
    requires forall x :: x in j.procs ==> OutcomeAt(scene'.saga, x) == Answered(j, a, x)
    ensures var j' := System(scene', j.ledger, Asked(j, a, stage, d)); Shaped(k, j') && Standing(k, j')
  {
    forall x | x in j.procs
      ensures var procs' := Asked(j, a, stage, d);
        && procs'.Keys == j.procs.Keys
        && Drives(k.draws[x], P.World(procs'[x].stream, j.ledger, procs'[x].drivers), j.ledger, Answered(j, a, x))
    {
      AskedStands(k, j, a, stage, d, x);
    }
  }

  lemma SceneFits(k: Cast, j: System, a: I.Action, stage: bool, d: nat, scene': I.Scene)
    requires Shaped(k, j) && Standing(k, j) && Fitting(k, j) && Answers(j, a, d)
    requires j.scene.saga.stream <= scene'.saga.stream && j.scene.minted <= scene'.minted
    ensures var j' := System(scene', j.ledger, Asked(j, a, stage, d)); Shaped(k, j') && Fitting(k, j')
  {
    var j' := System(scene', j.ledger, Asked(j, a, stage, d));
    forall x | x in j.procs
      ensures j'.procs.Keys == j.procs.Keys && j.procs[x].stream <= j'.procs[x].stream
      ensures forall legs :: Means(j'.procs[x], legs) ==> Means(j.procs[x], legs)
    {
      AskedMeans(k, j, a, stage, d, x);
    }
    FittingStays(k, j, j');
  }

  lemma SceneAnswers(k: Cast, j: System, a: I.Action, x: Part)
    requires I.Reachable(k.me, j.scene) && I.Enabled(k.me, j.scene, a)
    requires a.Saga? ==> !a.step.Move? && !a.step.MoveReversal?
    ensures OutcomeAt(I.Step(k.me, j.scene, a).saga, x) == Answered(j, a, x)
  {
    SceneGrows(k.me, j.scene, a);
    if a.Saga? { SagaOutcomes(j.scene.saga, a.step, x); }
  }

  lemma SceneKeeps(k: Cast, j: System, a: I.Action, stage: bool, d: nat)
    requires Inv(k, j) && SceneEnabled(k, j, a, d)
    ensures Inv(k, SceneStep(k, j, a, stage, d))
  {
    var scene' := I.Step(k.me, j.scene, a);
    SceneGrows(k.me, j.scene, a);
    SceneReachable(k.me, j.scene, a);
    forall x | x in j.procs ensures OutcomeAt(scene'.saga, x) == Answered(j, a, x) { SceneAnswers(k, j, a, x); }
    SceneStands(k, j, a, stage, d, scene');
    SceneFits(k, j, a, stage, d, scene');
    StillCarried(k, j.ledger, j.scene.posted, scene'.posted);
  }

  lemma StillCarried(k: Cast, s: L.State, posted: seq<M.Leg>, posted': seq<M.Leg>)
    requires Kept(k, s, posted) && posted <= posted'
    ensures Kept(k, s, posted')
  {
    forall id | id in s.transfers && LI.Moves(s.transfers[id]) && !Drawn(k, id)
      ensures Carried(s.transfers[id], posted')
    {
      var leg :| leg in posted && leg.source == s.transfers[id].debit && leg.dest == s.transfers[id].credit;
      assert leg in posted';
    }
  }

  // ---- The Transfers -------------------------------------------------------

  /** The run one part's step makes on the ledger, if it makes any. */
  function RunOf(w: P.World, a: P.Action): seq<L.Transfer> {
    if a.SubmitChain? && P.PcOf(w, a.d).Submitting? && P.PcOf(w, a.d).done < |P.PcOf(w, a.d).claim.legs|
    then P.Chain(P.PcOf(w, a.d).batch, P.PcOf(w, a.d).claim.legs, P.PcOf(w, a.d).done) else []
  }

  lemma EmptyRun(s: L.State)
    ensures L.ApplyRun(s, []) == s
  {
  }

  lemma StepRuns(me: nat, w: P.World, a: P.Action)
    requires P.Enabled(me, w, a) && !a.Outside? && !a.OpenAccount?
    ensures P.Step(me, w, a).ledger == L.ApplyRun(w.ledger, RunOf(w, a))
  {
    EmptyRun(w.ledger);
  }

  lemma SubmitsItsLegs(me: nat, w: P.World, d: nat)
    requires P.Reachable(me, w) && P.PcOf(w, d).Submitting?
    ensures T.LegsOf(w.stream) == Some(P.PcOf(w, d).claim.legs) && P.PlanOf(me, P.PcOf(w, d).claim.legs)
  {
    TT.ReachableInv(me, w);
    assert TA.Knows(me, w.stream, w.ledger, P.PcOf(w, d));
  }

  lemma RunIsOurs(k: Cast, j: System, x: Part, a: P.Action)
    requires Shaped(k, j) && Standing(k, j) && Fitting(k, j) && DriveEnabled(k, j, x, a)
    ensures var run := RunOf(WorldOf(j, x), a);
      && LI.Proper(run) && (forall i :: 0 <= i < |run| ==> Drawn(k, run[i].id))
      && forall y :: y in k.draws && y != x ==> P.Foreign(k.draws[y], run)
  {
    var w := WorldOf(j, x);
    if RunOf(w, a) != [] {
      var pc := P.PcOf(w, a.d);
      assert Drives(k.draws[x], w, j.ledger, OutcomeAt(j.scene.saga, x));
      SubmitsItsLegs(k.draws[x], w, a.d);
      assert Means(j.procs[x], pc.claim.legs);
      FitsIsTwoSided(k, j, x, pc.claim.legs);
      ChainIsOurs(k, j, x, pc.batch, pc.claim.legs, pc.done);
    }
  }

  ghost function Showing(x: Part, o: T.OutcomeKind): S.Action {
    match x case Forward(c) => S.Move(c, o) case Backward(c) => S.MoveReversal(c, o)
  }

  lemma ShownSaga(saga: S.World, x: Part, o: T.OutcomeKind)
    requires !OutcomeAt(saga, x).NotFound? && T.Moves(OutcomeAt(saga, x), o)
    ensures S.Enabled(saga, Showing(x, o))
    ensures var saga' := S.Step(saga, Showing(x, o));
      && saga'.stream == saga.stream && OutcomeAt(saga', x) == o
      && forall y: Part :: y != x ==> OutcomeAt(saga', y) == OutcomeAt(saga, y)
  {
  }

  /** What a part's step makes of the outcome, the saga is shown. */
  lemma ShownOutcome(k: Cast, scene: I.Scene, x: Part, o: T.OutcomeKind)
    requires I.Reachable(k.me, scene) && T.Moves(OutcomeAt(scene.saga, x), o)
    requires OutcomeAt(scene.saga, x).NotFound? ==> o.NotFound?
    ensures var scene' := Shown(k, scene, x, o);
      && I.Reachable(k.me, scene') && OutcomeAt(scene'.saga, x) == o
      && (forall y: Part :: y != x ==> OutcomeAt(scene'.saga, y) == OutcomeAt(scene.saga, y))
      && scene'.saga.stream == scene.saga.stream && scene'.minted == scene.minted && scene'.posted == scene.posted
  {
    if OutcomeAt(scene.saga, x) != o {
      ShownSaga(scene.saga, x, o);
      SceneReachable(k.me, scene, I.Saga(Showing(x, o)));
    }
  }

  /** A part's step, as the rest of the system takes it. */
  ghost predicate Taken(k: Cast, j: System, x: Part, j': System)
    requires Shaped(k, j)
  {
    && j'.procs.Keys == j.procs.Keys && I.Reachable(k.me, j'.scene)
    && (forall y :: y in j.procs && y != x ==>
          j'.procs[y] == j.procs[y] && OutcomeAt(j'.scene.saga, y) == OutcomeAt(j.scene.saga, y))
    && j'.scene.saga.stream == j.scene.saga.stream && j'.scene.minted == j.scene.minted
    && j'.scene.posted == j.scene.posted
  }

  lemma DriveIsTaken(k: Cast, j: System, x: Part, a: P.Action)
    requires Shaped(k, j) && Standing(k, j) && I.Reachable(k.me, j.scene) && DriveEnabled(k, j, x, a)
    ensures Taken(k, j, x, DriveStep(k, j, x, a))
    ensures var j' := DriveStep(k, j, x, a); OutcomeAt(j'.scene.saga, x) == T.Outcome(j'.procs[x].stream)
  {
    assert Drives(k.draws[x], WorldOf(j, x), j.ledger, OutcomeAt(j.scene.saga, x));
    var w := P.Step(k.draws[x], WorldOf(j, x), a);
    TT.OutcomeMovesLawfully(k.draws[x], WorldOf(j, x), a);
    TakenBy(k, j, x, w);
  }

  lemma TakenBy(k: Cast, j: System, x: Part, w: P.World)
    requires Shaped(k, j) && x in j.procs && I.Reachable(k.me, j.scene)
    requires T.Moves(OutcomeAt(j.scene.saga, x), T.Outcome(w.stream))
    requires OutcomeAt(j.scene.saga, x).NotFound? ==> T.Outcome(w.stream).NotFound?
    ensures var scene' := Shown(k, j.scene, x, T.Outcome(w.stream));
      && Taken(k, j, x, System(scene', w.ledger, j.procs[x := Proc(w.stream, w.drivers)]))
      && OutcomeAt(scene'.saga, x) == T.Outcome(w.stream)
  {
    var o := T.Outcome(w.stream);
    ShownOutcome(k, j.scene, x, o);
    TakenInto(k, j, x, Shown(k, j.scene, x, o), w.ledger, Proc(w.stream, w.drivers));
  }

  lemma TakenInto(k: Cast, j: System, x: Part, scene': I.Scene, s: L.State, p: Proc)
    requires Shaped(k, j) && x in j.procs && I.Reachable(k.me, scene')
    requires forall y: Part :: y != x ==> OutcomeAt(scene'.saga, y) == OutcomeAt(j.scene.saga, y)
    requires scene'.saga.stream == j.scene.saga.stream && scene'.minted == j.scene.minted
    requires scene'.posted == j.scene.posted
    ensures Taken(k, j, x, System(scene', s, j.procs[x := p]))
  {
  }

  lemma OutsideDrives(me: nat, w: P.World, run: seq<L.Transfer>, o: T.OutcomeKind)
    requires Drives(me, w, w.ledger, o) && P.Foreign(me, run)
    ensures Drives(me, w.(ledger := L.ApplyRun(w.ledger, run)), L.ApplyRun(w.ledger, run), o)
  {
    P.ReachableStep(me, w, P.Outside(run));
  }

  lemma DriveStands(k: Cast, j: System, x: Part, a: P.Action, j': System)
    requires Shaped(k, j) && Standing(k, j) && Fitting(k, j) && DriveEnabled(k, j, x, a)
    requires j' == DriveStep(k, j, x, a) && Taken(k, j, x, j')
    requires OutcomeAt(j'.scene.saga, x) == T.Outcome(j'.procs[x].stream)
    ensures Standing(k, j')
  {
    var run := RunOf(WorldOf(j, x), a);
    StepRuns(k.draws[x], WorldOf(j, x), a);
    RunIsOurs(k, j, x, a);
    forall y | y in j'.procs ensures Drives(k.draws[y], WorldOf(j', y), j'.ledger, OutcomeAt(j'.scene.saga, y)) {
      assert Drives(k.draws[y], WorldOf(j, y), j.ledger, OutcomeAt(j.scene.saga, y));
      if y == x { P.ReachableStep(k.draws[x], WorldOf(j, x), a); }
      else { OutsideDrives(k.draws[y], WorldOf(j, y), run, OutcomeAt(j.scene.saga, y)); }
    }
  }

  /** Legs are prepared only from a plan, and a plan is made only by deciding. */
  lemma StepMeans(me: nat, w: P.World, a: P.Action, legs: seq<T.Leg>)
    requires TA.Inv(me, w) && P.Enabled(me, w, a)
    requires var w' := P.Step(me, w, a); T.LegsOf(w'.stream) == Some(legs) || Planned(Proc(w'.stream, w'.drivers), legs)
    ensures T.LegsOf(w.stream) == Some(legs) || Planned(Proc(w.stream, w.drivers), legs)
         || (a.Decide? && a.decision == P.Prepare(legs))
  {
    var w' := P.Step(me, w, a);
    if d, seen :| d in w'.drivers && w'.drivers[d] == P.Trying(seen, P.Prepare(legs)) {
      StepPlans(me, w, a, d, seen, legs);
    } else if T.LegsOf(w.stream) != Some(legs) {
      StepPrepares(me, w, a, legs);
    }
  }

  lemma StepPlans(me: nat, w: P.World, a: P.Action, d: nat, seen: T.Stream, legs: seq<T.Leg>)
    requires TA.Inv(me, w) && P.Enabled(me, w, a)
    requires P.PcOf(P.Step(me, w, a), d) == P.Trying(seen, P.Prepare(legs))
    ensures Planned(Proc(w.stream, w.drivers), legs) || (a.Decide? && a.decision == P.Prepare(legs))
  {
    if P.PcOf(w, d) == P.Trying(seen, P.Prepare(legs)) {
      assert d in w.drivers && w.drivers[d] == P.Trying(seen, P.Prepare(legs));
    } else {
      assert TA.Knows(me, w.stream, w.ledger, P.PcOf(w, d));
    }
  }

  lemma StepPrepares(me: nat, w: P.World, a: P.Action, legs: seq<T.Leg>)
    requires TA.Inv(me, w) && P.Enabled(me, w, a)
    requires T.LegsOf(P.Step(me, w, a).stream) == Some(legs) && T.LegsOf(w.stream) != Some(legs)
    ensures Planned(Proc(w.stream, w.drivers), legs)
  {
    var pc := P.PcOf(w, a.d);
    assert TA.Knows(me, w.stream, w.ledger, pc);
    assert pc.seen == w.stream;
    AddsLegs(me, w.stream, w.ledger, pc);
    assert w.drivers[a.d] == P.Trying(pc.seen, P.Prepare(legs));
  }

  lemma AddsLegs(me: nat, es: T.Stream, s: L.State, pc: P.Pc)
    requires pc.Trying? && pc.seen == es && TA.Knows(me, es, s, pc)
    ensures var es' := es + P.Adds(es, pc.decision);
      T.LegsOf(es') == T.LegsOf(es) || (pc.decision.Prepare? && T.LegsOf(es') == Some(pc.decision.plan))
  {
    var adds := P.Adds(es, pc.decision);
    T.Snoc(es, adds[0]);
    if pc.decision.Prepare? {
      T.Snoc(es + [adds[0]], adds[1]);
      assert es + adds == es + [adds[0]] + [adds[1]];
    } else {
      assert adds == [adds[0]] && !adds[0].Prepared?;
    }
  }

  lemma DriveGrows(k: Cast, j: System, x: Part, a: P.Action, j': System)
    requires Shaped(k, j) && Standing(k, j) && DriveEnabled(k, j, x, a)
    requires j' == DriveStep(k, j, x, a) && Taken(k, j, x, j')
    ensures Grows(k, j, j')
  {
    assert Drives(k.draws[x], WorldOf(j, x), j.ledger, OutcomeAt(j.scene.saga, x));
    WorldGrows(k.draws[x], WorldOf(j, x), a);
  }

  lemma WorldGrows(me: nat, w: P.World, a: P.Action)
    requires P.Reachable(me, w) && P.Enabled(me, w, a) && !a.Outside? && !a.OpenAccount?
    ensures var w' := P.Step(me, w, a); w.stream <= w'.stream && w.ledger.accounts.Keys <= w'.ledger.accounts.Keys
  {
    TT.ReachableInv(me, w);
    TF.StepGrows(me, w, a);
    StepRuns(me, w, a);
  }

  lemma DriveFits(k: Cast, j: System, x: Part, a: P.Action, j': System)
    requires Shaped(k, j) && Standing(k, j) && Fitting(k, j) && DriveEnabled(k, j, x, a)
    requires j' == DriveStep(k, j, x, a) && Taken(k, j, x, j')
    ensures Fitting(k, j')
  {
    DriveGrows(k, j, x, a, j');
    assert Drives(k.draws[x], WorldOf(j, x), j.ledger, OutcomeAt(j.scene.saga, x));
    TT.ReachableInv(k.draws[x], WorldOf(j, x));
    forall y, legs | y in j'.procs && Means(j'.procs[y], legs) ensures Means(j.procs[y], legs) || Fits(k, j, y, legs) {
      if y == x { StepMeans(k.draws[x], WorldOf(j, x), a, legs); }
    }
    FittingStays(k, j, j');
  }

  lemma DriveKeeps(k: Cast, j: System, x: Part, a: P.Action)
    requires Inv(k, j) && DriveEnabled(k, j, x, a)
    ensures Inv(k, DriveStep(k, j, x, a))
  {
    var j' := DriveStep(k, j, x, a);
    DriveIsTaken(k, j, x, a);
    DriveStands(k, j, x, a, j');
    DriveFits(k, j, x, a, j');
    StepRuns(k.draws[x], WorldOf(j, x), a);
    RunIsOurs(k, j, x, a);
    RunKeeps(k, j.ledger, j.scene.posted, RunOf(WorldOf(j, x), a));
  }

  // ---- Everyone else's ledger ----------------------------------------------

  lemma LedgerFits(k: Cast, j: System, s: L.State)
    requires Shaped(k, j) && Fitting(k, j) && j.ledger.accounts.Keys <= s.accounts.Keys
    ensures Fitting(k, j.(ledger := s))
  {
    FittingStays(k, j, j.(ledger := s));
  }

  lemma OpeningKeeps(k: Cast, j: System, op: LI.Op)
    requires Inv(k, j) && op.OpenAccount?
    ensures Inv(k, j.(ledger := LI.Perform(j.ledger, op)))
  {
    var s := LI.Perform(j.ledger, op);
    var j' := j.(ledger := s);
    LI.OpeningKeepsBooks(j.ledger, op);
    LedgerFits(k, j, s);
    forall x | x in j'.procs ensures Drives(k.draws[x], WorldOf(j', x), s, OutcomeAt(j'.scene.saga, x)) {
      assert Drives(k.draws[x], WorldOf(j, x), j.ledger, OutcomeAt(j.scene.saga, x));
      P.ReachableStep(k.draws[x], WorldOf(j, x), P.OpenAccount(op));
    }
  }

  lemma OutsideStands(k: Cast, j: System, run: seq<L.Transfer>)
    requires Shaped(k, j) && Standing(k, j) && forall x :: x in k.draws ==> P.Foreign(k.draws[x], run)
    ensures Standing(k, j.(ledger := L.ApplyRun(j.ledger, run)))
  {
    var j' := j.(ledger := L.ApplyRun(j.ledger, run));
    forall x | x in j'.procs ensures Drives(k.draws[x], WorldOf(j', x), j'.ledger, OutcomeAt(j'.scene.saga, x)) {
      assert Drives(k.draws[x], WorldOf(j, x), j.ledger, OutcomeAt(j.scene.saga, x));
      OutsideDrives(k.draws[x], WorldOf(j, x), run, OutcomeAt(j.scene.saga, x));
    }
  }

  lemma OutsideKeeps(k: Cast, j: System, run: seq<L.Transfer>)
    requires Inv(k, j) && Enabled(k, j, Outside(run))
    ensures Inv(k, j.(ledger := L.ApplyRun(j.ledger, run)))
  {
    RunKeeps(k, j.ledger, j.scene.posted, run);
    OutsideStands(k, j, run);
    LedgerFits(k, j, L.ApplyRun(j.ledger, run));
  }

  lemma StepKeeps(k: Cast, j: System, a: Action)
    requires Inv(k, j) && Enabled(k, j, a)
    ensures Inv(k, Step(k, j, a))
  {
    match a
    case Scene(s, stage, d) => SceneKeeps(k, j, s, stage, d);
    case Drive(x, p) => DriveKeeps(k, j, x, p);
    case Outside(run) => OutsideKeeps(k, j, run);
    case OpenAccount(op) => OpeningKeeps(k, j, op);
  }

  lemma StartHolds(k: Cast, j: System)
    requires IsCast(k) && IsStart(k, j)
    ensures Inv(k, j)
  {
    assert I.IsRun(k.me, [I.Start], []) && [I.Start][|[I.Start]| - 1] == I.Start;
    LI.HistoryKeepsBooks([]);
    forall x | x in j.procs ensures Drives(k.draws[x], WorldOf(j, x), j.ledger, OutcomeAt(j.scene.saga, x)) {
      P.ReachableStart(k.draws[x], WorldOf(j, x));
    }
  }

  lemma {:induction false} RunKeepsInv(k: Cast, actions: seq<Action>, j: System)
    requires IsCast(k) && Reaches(k, actions, j)
    ensures Inv(k, j)
  {
    if actions == [] {
      StartHolds(k, j);
    } else {
      var n := |actions| - 1;
      var before :| Reaches(k, actions[..n], before) && Follows(k, before, actions[n], j);
      RunKeepsInv(k, actions[..n], before);
      StepKeeps(k, before, actions[n]);
    }
  }

  lemma ReachableInv(k: Cast, j: System)
    requires Reachable(k, j)
    ensures Inv(k, j)
  {
    var actions :| Reaches(k, actions, j);
    RunKeepsInv(k, actions, j);
  }
}
