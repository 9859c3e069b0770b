/** Where a Transaction can still get to: from every reachable world, when it can
    complete, when it can roll back, and when it can conclude at all
    (go/internal/transaction/saga.go). */
module TransactionProgress {
  import opened Common
  import opened Dag
  import opened TransactionStream
  import opened TransactionOrder
  import opened TransactionSaga
  import opened TransactionInvariant
  import opened TransactionTheorems
  import opened TransactionFailure
  import T = TransferStream

  // ---- What can follow a world ---------------------------------------------

  ghost predicate Takes(w: World, a: Action, w': World) { Enabled(w, a) && w' == Step(w, a) }

  ghost predicate Leads(w: World, actions: seq<Action>, w': World) {
    if actions == [] then w' == w
    else
      var n := |actions| - 1;
      exists mid :: Leads(w, actions[..n], mid) && Takes(mid, actions[n], w')
  }

  /** Some sequence of actions leads from `w` to `w'`. */
  ghost predicate Goes(w: World, w': World) { exists actions :: Leads(w, actions, w') }

  lemma GoesNowhere(w: World)
    ensures Goes(w, w)
  {
    assert Leads(w, [], w);
  }

  lemma GoesOn(w: World, x: World, a: Action)
    requires Goes(w, x) && Enabled(x, a)
    ensures Goes(w, Step(x, a))
  {
    var actions :| Leads(w, actions, x);
    var actions' := actions + [a];
    assert actions'[..|actions|] == actions && actions'[|actions|] == a;
    assert Takes(x, a, Step(x, a));
    assert Leads(w, actions', Step(x, a));
  }

  /** Everything on the way grows, and every world on it is sound. */
  lemma {:induction false} LeadsGrows(w: World, actions: seq<Action>, w': World)
    requires Inv(w) && Leads(w, actions, w')
    ensures Inv(w') && Grows(w, w') && (Reachable(w) ==> Reachable(w'))
  {
    if actions != [] {
      var n := |actions| - 1;
      var mid :| Leads(w, actions[..n], mid) && Takes(mid, actions[n], w');
      LeadsGrows(w, actions[..n], mid);
      StepKeepsInv(mid, actions[n]);
      StepGrows(mid, actions[n]);
      GrowsOn(w, mid, w');
      if Reachable(w) { ReachableStep(mid, actions[n]); }
    }
  }

  lemma GrowsOn(w: World, x: World, y: World)
    requires Grows(w, x) && Grows(x, y)
    ensures Grows(w, y)
  {
    forall c ensures Since(Live(w, c), Live(y, c)) && Since(Reversal(w, c), Reversal(y, c)) {
      assert Since(Live(w, c), Live(x, c)) && Since(Live(x, c), Live(y, c));
      assert Since(Reversal(w, c), Reversal(x, c)) && Since(Reversal(x, c), Reversal(y, c));
    }
  }

  lemma GoesGrows(w: World, w': World)
    requires Inv(w) && Goes(w, w')
    ensures Inv(w') && Grows(w, w') && (Reachable(w) ==> Reachable(w'))
  {
    var actions :| Leads(w, actions, w');
    LeadsGrows(w, actions, w');
  }

  // ---- One caller at work --------------------------------------------------

  /** All but the other callers. */
  datatype Place = Place(stream: Stream, transfers: Outcomes, reversals: Outcomes, pc: Pc)

  function At(w: World, d: nat, p: Place): World { World(p.stream, p.transfers, p.reversals, w.drivers[d := p.pc]) }

  /** From `o`, caller `d` can come to stand at `p`, the others being as in `w`. */
  ghost predicate Comes(o: World, w: World, d: nat, p: Place) { Goes(o, At(w, d, p)) }

  lemma ComesOn(o: World, w: World, d: nat, p: Place, a: Action, p': Place)
    requires Comes(o, w, d, p) && Enabled(At(w, d, p), a) && Step(At(w, d, p), a) == At(At(w, d, p), d, p')
    ensures Comes(o, w, d, p')
  {
    GoesOn(o, At(w, d, p), a);
    assert w.drivers[d := p.pc][d := p'.pc] == w.drivers[d := p'.pc];
  }

  /** A Transfer or a Reversal moves on meanwhile. */
  lemma ChildMoves(o: World, w: World, d: nat, p: Place, c: Id, to: T.OutcomeKind)
    requires Comes(o, w, d, p) && !OutcomeOf(p.transfers, c).NotFound? && T.Moves(OutcomeOf(p.transfers, c), to)
    ensures Comes(o, w, d, p.(transfers := p.transfers[c := to]))
  {
    GoesOn(o, At(w, d, p), Move(c, to));
  }

  lemma ReversalMoves(o: World, w: World, d: nat, p: Place, c: Id, to: T.OutcomeKind)
    requires Comes(o, w, d, p) && !OutcomeOf(p.reversals, c).NotFound? && T.Moves(OutcomeOf(p.reversals, c), to)
    ensures Comes(o, w, d, p.(reversals := p.reversals[c := to]))
  {
    GoesOn(o, At(w, d, p), MoveReversal(c, to));
  }

  /** A run may end anywhere, and the next one starts afresh. */
  lemma Stops(o: World, w: World, d: nat, p: Place)
    requires Comes(o, w, d, p)
    ensures Comes(o, w, d, p.(pc := Idle))
  {
    ComesOn(o, w, d, p, Stop(d), p.(pc := Idle));
  }

  /** appendSagaStep, with nobody in the way. */
  lemma Records(o: World, w: World, d: nat, p: Place, e: Event, next: Pc)
    requires Comes(o, w, d, p) && p.pc == Recording(e, next)
    ensures Comes(o, w, d, p.(stream := p.stream + Appends(p.stream, e), pc := next))
  {
    var p' := p.(stream := p.stream + Appends(p.stream, e), pc := next);
    if Appends(p.stream, e) == [] {
      assert p.stream + Appends(p.stream, e) == p.stream;
      ComesOn(o, w, d, p, LoadStep(d), p');
    } else {
      var p1 := p.(pc := Appending(p.stream, e, next));
      ComesOn(o, w, d, p, LoadStep(d), p1);
      ComesOn(o, w, d, p1, AppendStep(d), p');
    }
  }

  // ---- Slices --------------------------------------------------------------

  lemma {:induction false} Pick(ready: set<Id>, n: nat) returns (slice: seq<Id>)
    requires n <= |ready|
    ensures |slice| == n && (forall i :: 0 <= i < n ==> slice[i] in ready)
    ensures forall i, j :: 0 <= i < j < n ==> slice[i] != slice[j]
    decreases n
  {
    if n == 0 {
      slice := [];
    } else {
      var x :| x in ready;
      slice := Pick(ready - {x}, n - 1);
      slice := [x] + slice;
    }
  }

  /** Some slice takes `c` along. */
  lemma CutWith(ready: set<Id>, c: Id) returns (slice: seq<Id>)
    requires c in ready
    ensures Cut(ready, slice) && c in slice
  {
    var n := if |ready| > MaxDispatchPerStep then MaxDispatchPerStep else |ready|;
    slice := Pick(ready - {c}, n - 1);
    slice := [c] + slice;
  }

  /** A slice is all that is ready, unless that is more than one step may take. */
  lemma SliceIsWhole(ready: set<Id>, slice: seq<Id>)
    requires Cut(ready, slice)
    ensures SetOf(slice) <= ready && |SetOf(slice)| == |slice| <= MaxDispatchPerStep
    ensures |ready| <= MaxDispatchPerStep ==> SetOf(slice) == ready
  {
    DistinctSize(slice);
    Smaller(SetOf(slice), ready);
    if |ready| <= MaxDispatchPerStep { assert |ready - SetOf(slice)| == 0; }
  }

  lemma {:induction false} DistinctSize(slice: seq<Id>)
    requires forall i, j :: 0 <= i < j < |slice| ==> slice[i] != slice[j]
    ensures |SetOf(slice)| == |slice|
  {
    if slice != [] {
      var n := |slice| - 1;
      DistinctSize(slice[..n]);
      assert SetOf(slice) == SetOf(slice[..n]) + {slice[n]};
    }
  }

  // ---- Forward -------------------------------------------------------------

  lemma RunDispatches(o: World, w: World, d: nat, p: Place, slice: seq<Id>)
    requires Comes(o, w, d, p) && p.pc.Idle? && CanOpen(TopLevelState(p.stream))
    requires With(ChildStates(p.stream), Requested) == {} && Consequence(p.stream).None?
    requires Cut(ReadyIn(p.stream), slice) && slice != []
    ensures Comes(o, w, d, p.(stream := p.stream + SliceEvents(p.stream, slice)))
  {
    var p1 := p.(pc := Reconciling(p.stream, {}, false));
    ComesOn(o, w, d, p, Load(d), p1);
    var p2 := p.(pc := Dispatching(p.stream, slice));
    ComesOn(o, w, d, p1, Proceed(d, slice), p2);
    var p3 := p.(stream := p.stream + SliceEvents(p.stream, slice), pc := Requesting(SetOf(slice), Idle));
    ComesOn(o, w, d, p2, AppendSlice(d), p3);
    Stops(o, w, d, p3);
  }

  predicate InFlightAt(p: Place, c: Id) {
    TopLevelState(p.stream).IsStarted? && c in With(ChildStates(p.stream), Requested)
  }

  lemma RunRequests(o: World, w: World, d: nat, p: Place, c: Id)
    requires Comes(o, w, d, p) && p.pc.Idle? && InFlightAt(p, c) && OutcomeOf(p.transfers, c).NotFound?
    ensures Comes(o, w, d, p.(transfers := p.transfers[c := T.InFlight]))
  {
    var all := With(ChildStates(p.stream), Requested);
    var p1 := p.(pc := Reconciling(p.stream, all, false));
    ComesOn(o, w, d, p, Load(d), p1);
    var rest := Reconciling(p.stream, all - {c}, false);
    var p2 := p.(pc := Requesting({c}, rest));
    ComesOn(o, w, d, p1, ReadOutcome(d, c), p2);
    var p3 := p.(transfers := p.transfers[c := T.InFlight], pc := Requesting({c} - {c}, rest));
    ComesOn(o, w, d, p2, Request(d, c, true), p3);
    Stops(o, w, d, p3);
  }

  /** A committed child in flight is recorded as completed. */
  lemma RunCompletes(o: World, w: World, d: nat, p: Place, c: Id)
    requires Comes(o, w, d, p) && p.pc.Idle? && InFlightAt(p, c) && OutcomeOf(p.transfers, c).IsCommitted?
    ensures Comes(o, w, d, p.(stream := p.stream + Appends(p.stream, Child(c, Done))))
  {
    var all := With(ChildStates(p.stream), Requested);
    var p1 := p.(pc := Reconciling(p.stream, all, false));
    ComesOn(o, w, d, p, Load(d), p1);
    var p2 := p.(pc := Recording(Child(c, Done), Reconciling(p.stream, all - {c}, true)));
    ComesOn(o, w, d, p1, ReadOutcome(d, c), p2);
    Records(o, w, d, p2, Child(c, Done), Reconciling(p.stream, all - {c}, true));
    Stops(o, w, d, p2.(stream := p.stream + Appends(p.stream, Child(c, Done)),
                       pc := Reconciling(p.stream, all - {c}, true)));
  }

  /** One whose Transfer ended otherwise is recorded as failed: a rejection by
      asking for it once more. */
  lemma RunFails(o: World, w: World, d: nat, p: Place, c: Id)
    requires Comes(o, w, d, p) && p.pc.Idle? && InFlightAt(p, c) && EndedUncommitted(OutcomeOf(p.transfers, c))
    ensures Comes(o, w, d, p.(stream := p.stream + Appends(p.stream, Child(c, Failed))))
  {
    var all := With(ChildStates(p.stream), Requested);
    var p1 := p.(pc := Reconciling(p.stream, all, false));
    ComesOn(o, w, d, p, Load(d), p1);
    var next := Reconciling(p.stream, all - {c}, true);
    if OutcomeOf(p.transfers, c).Rejected? {
      RunFindsRejected(o, w, d, p1, c);
      next := Requesting({c} - {c}, next);
    } else {
      ComesOn(o, w, d, p1, ReadOutcome(d, c), p.(pc := Recording(Child(c, Failed), next)));
    }
    Records(o, w, d, p.(pc := Recording(Child(c, Failed), next)), Child(c, Failed), next);
    Stops(o, w, d, p.(stream := p.stream + Appends(p.stream, Child(c, Failed)), pc := next));
  }

  lemma RunFindsRejected(o: World, w: World, d: nat, p: Place, c: Id)
    requires Comes(o, w, d, p) && OutcomeOf(p.transfers, c).Rejected? && p.pc.Reconciling? && c in p.pc.todo
    ensures Comes(o, w, d, p.(pc := Recording(Child(c, Failed),
      Requesting({c} - {c}, Reconciling(p.pc.seen, p.pc.todo - {c}, true)))))
  {
    var rest := Reconciling(p.pc.seen, p.pc.todo - {c}, p.pc.moved);
    var p2 := p.(pc := Requesting({c}, rest));
    ComesOn(o, w, d, p, ReadOutcome(d, c), p2);
    assert p.transfers[c := T.Rejected] == p.transfers;
    ComesOn(o, w, d, p2, Request(d, c, true),
        p.(pc := Recording(Child(c, Failed), Requesting({c} - {c}, Moved(rest)))));
  }

  /** A child in flight that has not ended otherwise can still commit. */
  lemma ChildCommits(o: World, w: World, d: nat, p: Place, c: Id)
    requires Comes(o, w, d, p) && p.pc.Idle? && InFlightAt(p, c) && !EndedUncommitted(OutcomeOf(p.transfers, c))
    ensures Comes(o, w, d, p.(transfers := p.transfers[c := T.IsCommitted]))
  {
    match OutcomeOf(p.transfers, c)
    case NotFound =>
      RunRequests(o, w, d, p, c);
      var p1 := p.(transfers := p.transfers[c := T.InFlight]);
      ChildMoves(o, w, d, p1, c, T.IsCommitted);
      assert p1.transfers[c := T.IsCommitted] == p.transfers[c := T.IsCommitted];
    case IsStaged =>
      ChildMoves(o, w, d, p, c, T.IsPending);
      var p1 := p.(transfers := p.transfers[c := T.IsPending]);
      ChildMoves(o, w, d, p1, c, T.IsCommitted);
      assert p1.transfers[c := T.IsCommitted] == p.transfers[c := T.IsCommitted];
    case _ => ChildMoves(o, w, d, p, c, T.IsCommitted);
  }

  /** What a child's completion does to a Started stream with no failure on it. */
  lemma DoneAppends(es: Stream, c: Id)
    requires Stored(es) && TopLevelState(es).IsStarted? && c in With(ChildStates(es), Requested)
    ensures var es' := es + Appends(es, Child(c, Done));
      TopLevelState(es').IsCompleted? ||
      (TopLevelState(es').IsStarted? && ChildStates(es') == ChildStates(es)[c := Done] && SpecOf(es') == SpecOf(es))
  {
    OneOutcome(es, c);
    var es1 := es + [Child(c, Done)];
    Snoc(es, Child(c, Done));
    assert With(ChildStates(es1), Failed) == {} by {
      forall x | x in With(ChildStates(es1), Failed) ensures x in With(ChildStates(es), Failed) {}
    }
    Regroup(es, Child(c, Done), Decided(es1));
    if Consequence(es1).Some? {
      DecidedStep(es1, Completed);
      Snoc(es1, Completed);
      assert es1 + Decided(es1) == es1 + [Completed];
    } else {
      assert es1 + Decided(es1) == es1;
    }
  }

  function Unfinished(es: Stream): set<Id> { SpecOf(es).nodes - With(ChildStates(es), Done) }

  ghost predicate NoneFailed(ts: Outcomes) { forall c :: !EndedUncommitted(OutcomeOf(ts, c)) }

  ghost predicate CanComplete(w: World) { exists w' :: Goes(w, w') && TopLevelState(w'.stream).IsCompleted? }

  /** The slice is in flight, and what was done still is. */
  predicate Dispatched(es: Stream, es': Stream, slice: seq<Id>) {
    && TopLevelState(es').IsStarted? && SpecOf(es') == SpecOf(es)
    && (forall c :: c in slice ==> c in With(ChildStates(es'), Requested))
    && With(ChildStates(es), Done) <= With(ChildStates(es'), Done)
  }

  lemma IntentsDispatch(es: Stream, slice: seq<Id>)
    requires Lawful(es) && TopLevelState(es).IsStarted? && IsSlice(es, slice)
    ensures Dispatched(es, es + Intents(slice), slice)
  {
    IntentsAreLawful(es, slice);
    forall c | c in With(ChildStates(es), Done) ensures c in With(ChildStates(es + Intents(slice)), Done) {
      assert c !in ReadyIn(es);
    }
  }

  lemma SliceAppends(es: Stream, slice: seq<Id>)
    requires Stored(es) && CanOpen(TopLevelState(es)) && IsSlice(es, slice)
    ensures Dispatched(es, es + SliceEvents(es, slice), slice)
  {
    if TopLevelState(es).IsInitialized? {
      Snoc(es, Started);
      LawfulSnoc(es, Started);
      OpensWithSpec(es);
      IntentsDispatch(es + [Started], slice);
      assert es + [Started] + Intents(slice) == es + ([Started] + Intents(slice));
    } else {
      IntentsDispatch(es, slice);
    }
  }

  /** Nothing has been requested yet, so some child waits for none. */
  lemma InitializedIsReady(es: Stream)
    requires Lawful(es) && TopLevelState(es).IsInitialized?
    ensures ReadyIn(es) != {} && With(ChildStates(es), Requested) == {} && Consequence(es).None?
  {
    OpensWithSpec(es);
    NoneTouchedYet(es);
    SomethingReadyToRun(SpecOf(es).nodes, SpecOf(es).deps, {}, {});
  }

  lemma OneFewer(es: Stream, es': Stream, c: Id)
    requires Lawful(es) && c in ChildStates(es) && ChildStates(es)[c].Requested?
    requires ChildStates(es') == ChildStates(es)[c := Done] && SpecOf(es') == SpecOf(es)
    ensures |Unfinished(es')| < |Unfinished(es)|
  {
    TouchedIsRequested(es, c);
    assert Unfinished(es') == Unfinished(es) - {c};
  }

  lemma NoMore(es: Stream, es': Stream)
    requires SpecOf(es') == SpecOf(es) && With(ChildStates(es), Done) <= With(ChildStates(es'), Done)
    ensures |Unfinished(es')| <= |Unfinished(es)|
  {
    Smaller(Unfinished(es'), Unfinished(es));
  }

  lemma Smaller(a: set<Id>, b: set<Id>)
    requires a <= b
    ensures |a| <= |b|
  {
    assert b == a + (b - a);
  }

  /** A place on the way to completion: caller `d` is free, no child has failed. */
  ghost predicate Forward(o: World, w: World, d: nat, p: Place) {
    Inv(o) && Comes(o, w, d, p) && p.pc.Idle? && NoneFailed(p.transfers)
  }

  lemma StillNoneFailed(ts: Outcomes, c: Id)
    requires NoneFailed(ts)
    ensures NoneFailed(ts[c := T.IsCommitted])
  {
    var ts' := ts[c := T.IsCommitted];
    forall x ensures !EndedUncommitted(OutcomeOf(ts', x)) {
      assert !EndedUncommitted(OutcomeOf(ts, x));
    }
  }

  /** A child in flight commits and is recorded. */
  lemma FinishesOne(o: World, w: World, d: nat, p: Place, c: Id) returns (p': Place)
    requires Forward(o, w, d, p) && Stored(p.stream) && InFlightAt(p, c)
    ensures Forward(o, w, d, p') && (TopLevelState(p'.stream).IsCompleted? ||
      (TopLevelState(p'.stream).IsStarted? && |Unfinished(p'.stream)| < |Unfinished(p.stream)|))
  {
    ChildCommits(o, w, d, p, c);
    p' := p.(transfers := p.transfers[c := T.IsCommitted]);
    RunCompletes(o, w, d, p', c);
    p' := p'.(stream := p.stream + Appends(p.stream, Child(c, Done)));
    StillNoneFailed(p.transfers, c);
    DoneAppends(p.stream, c);
    if TopLevelState(p'.stream).IsStarted? { OneFewer(p.stream, p'.stream, c); }
  }

  /** With nothing in flight, some child is. */
  lemma DispatchesSome(o: World, w: World, d: nat, p: Place) returns (p': Place)
    requires Forward(o, w, d, p) && Stored(p.stream) && CanOpen(TopLevelState(p.stream))
    requires With(ChildStates(p.stream), Requested) == {}
    ensures Forward(o, w, d, p') && TopLevelState(p'.stream).IsStarted?
    ensures With(ChildStates(p'.stream), Requested) != {} && |Unfinished(p'.stream)| <= |Unfinished(p.stream)|
  {
    var es := p.stream;
    if TopLevelState(es).IsInitialized? { InitializedIsReady(es); } else { StartedNeverStalls(es); }
    var c :| c in ReadyIn(es);
    var slice := CutWith(ReadyIn(es), c);
    RunDispatches(o, w, d, p, slice);
    SliceAppends(es, slice);
    NoMore(es, es + SliceEvents(es, slice));
    p' := p.(stream := es + SliceEvents(es, slice));
  }

  /** One child after another is requested, commits and is recorded. */
  lemma {:induction false} CompletesFrom(o: World, w: World, d: nat, p: Place)
    requires Forward(o, w, d, p) && CanOpen(TopLevelState(p.stream))
    ensures CanComplete(o)
    decreases |Unfinished(p.stream)|, With(ChildStates(p.stream), Requested) == {}
  {
    GoesGrows(o, At(w, d, p));
    var p': Place;
    if TopLevelState(p.stream).IsInitialized? { InitializedIsReady(p.stream); }
    if c :| c in With(ChildStates(p.stream), Requested) {
      p' := FinishesOne(o, w, d, p, c);
    } else {
      p' := DispatchesSome(o, w, d, p);
    }
    if TopLevelState(p'.stream).IsCompleted? {
      assert Goes(o, At(w, d, p'));
    } else {
      CompletesFrom(o, w, d, p');
    }
  }

  /** What a failed child does to a Started stream. */
  lemma FailedAppends(es: Stream, c: Id)
    requires Lawful(es) && TopLevelState(es).IsStarted? && c in With(ChildStates(es), Requested)
    ensures var es' := es + Appends(es, Child(c, Failed));
      es <= es' && Child(c, Failed) in es' && RollbackStarted in es'
  {
    OneOutcome(es, c);
    var es1 := es + [Child(c, Failed)];
    Snoc(es, Child(c, Failed));
    assert c in With(ChildStates(es1), Failed);
    DecidedStep(es1, RollbackStarted);
    Regroup(es, Child(c, Failed), Decided(es1));
    assert (es1 + Decided(es1))[|es|] == Child(c, Failed) && (es1 + Decided(es1))[|es1|] == RollbackStarted;
  }

  /** Once a child's Transfer has ended without committing, a run by itself records
      that and starts the rollback, no Transfer moving meanwhile. */
  lemma FailureStartsRollback(w: World, c: Id) returns (w': World)
    requires Reachable(w) && TopLevelState(w.stream).IsStarted? && EndedUncommitted(Live(w, c))
    ensures Goes(w, w') && w'.transfers == w.transfers && w'.reversals == w.reversals && w.stream <= w'.stream
    ensures Child(c, Failed) in w'.stream && RollbackStarted in w'.stream
  {
    ReachableInv(w);
    TouchedIsRequested(w.stream, c);
    StartedChildren(w.stream, c);
    OneOutcome(w.stream, c);
    assert Backed(w, Child(c, ChildStates(w.stream)[c]));
    assert c !in With(ChildStates(w.stream), Failed);
    var p := Fresh(w, 0);
    RunFails(w, w, 0, p, c);
    FailedAppends(w.stream, c);
    w' := At(w, 0, p.(stream := p.stream + Appends(p.stream, Child(c, Failed))));
  }

  /** A Transaction that is not yet rolling back can complete exactly while no
      child's Transfer has ended without committing. */
  lemma CompletesExactly(w: World)
    requires Reachable(w) && CanOpen(TopLevelState(w.stream))
    ensures CanComplete(w) <==> forall c :: !EndedUncommitted(Live(w, c))
  {
    ReachableInv(w);
    if forall c :: !EndedUncommitted(Live(w, c)) {
      var p := Fresh(w, 0);
      forall c ensures !EndedUncommitted(OutcomeOf(p.transfers, c)) { assert !EndedUncommitted(Live(w, c)); }
      CompletesFrom(w, w, 0, p);
    }
    if CanComplete(w) {
      var w' :| Goes(w, w') && TopLevelState(w'.stream).IsCompleted?;
      GoesGrows(w, w');
      forall c ensures !EndedUncommitted(Live(w, c)) { EndedForbids(w, w', c); }
    }
  }

  lemma EndedForbids(w: World, w': World, c: Id)
    requires Inv(w) && w.stream != [] && Reachable(w') && Grows(w, w') && TopLevelState(w'.stream).IsCompleted?
    ensures !EndedUncommitted(Live(w, c))
  {
    if EndedUncommitted(Live(w, c)) {
      assert Since(Live(w, c), Live(w', c));
      TouchedIsRequested(w.stream, c);
      CompletedIsCommitted(w', c);
    }
  }

  /** Caller `d`, crashed if it was at work, and everything else as it was. */
  lemma Fresh(w: World, d: nat) returns (p: Place)
    ensures Comes(w, w, d, p) && p == Place(w.stream, w.transfers, w.reversals, Idle)
  {
    p := Place(w.stream, w.transfers, w.reversals, Idle);
    GoesNowhere(w);
    GoesOn(w, w, Stop(d));
  }

  // ---- A run nobody disturbs -----------------------------------------------

  /** Goes back to the stream before it decides anything more. */
  predicate DecidesAfresh(pc: Pc) {
    match pc
    case Reconciling(_, _, moved) => moved
    case Awaiting(_, _, moved) => moved
    case Dispatching(_, _) => false
    case Requesting(_, next) => DecidesAfresh(next)
    case Recording(_, next) => DecidesAfresh(next)
    case Appending(_, _, next) => DecidesAfresh(next)
    case _ => true
  }

  /** Decides on the stream as it stands, or goes back to it first. */
  predicate UpToDate(es: Stream, pc: Pc) {
    match pc
    case Reconciling(seen, _, moved) => moved || seen == es
    case Awaiting(seen, _, moved) => moved || seen == es
    case Dispatching(seen, _) => seen == es
    case Requesting(_, next) => UpToDate(es, next)
    case _ => DecidesAfresh(pc)
  }

  lemma {:induction false} AfreshIsUpToDate(es: Stream, pc: Pc)
    requires DecidesAfresh(pc)
    ensures UpToDate(es, pc)
    decreases pc
  {
    if pc.Requesting? { AfreshIsUpToDate(es, pc.next); }
  }

  lemma MovedIsAfresh(es: Stream, pc: Pc)
    requires UpToDate(es, pc) && (pc.Reconciling? || pc.Idle?)
    ensures DecidesAfresh(Moved(pc))
  {
  }

  /** A request is made on the way through reconciling, or after dispatching; a
      record on the way from there, or from a rollback. */
  predicate Shaped(pc: Pc) {
    match pc
    case Requesting(_, next) => next.Reconciling? || next.Idle?
    case Recording(_, next) => !next.Recording? && !next.Appending? && Shaped(next)
    case Appending(_, _, next) => !next.Recording? && !next.Appending? && Shaped(next)
    case _ => true
  }

  lemma OwnStepIsUpToDate(w: World, a: Action)
    requires Enabled(w, a) && HasCaller(a) && UpToDate(w.stream, PcOf(w, a.d)) && Shaped(PcOf(w, a.d))
    ensures UpToDate(Step(w, a).stream, PcOf(Step(w, a), a.d)) && Shaped(PcOf(Step(w, a), a.d))
  {
    var pc := PcOf(w, a.d);
    if a.AppendStep? || a.LoadStep? { AfreshIsUpToDate(Step(w, a).stream, pc.next); }
    if a.Request? { MovedIsAfresh(w.stream, pc.next); }
  }

  ghost predicate Undisturbed(actions: seq<Action>, d: nat) {
    forall i :: 0 <= i < |actions| && HasCaller(actions[i]) ==> actions[i].d == d
  }

  lemma {:induction false} AloneIsUpToDate(w: World, actions: seq<Action>, w': World, d: nat)
    requires PcOf(w, d).Idle? && Leads(w, actions, w') && Undisturbed(actions, d)
    ensures UpToDate(w'.stream, PcOf(w', d)) && Shaped(PcOf(w', d))
  {
    if actions != [] {
      var n := |actions| - 1;
      var mid :| Leads(w, actions[..n], mid) && Takes(mid, actions[n], w');
      assert Undisturbed(actions[..n], d);
      AloneIsUpToDate(w, actions[..n], mid, d);
      if HasCaller(actions[n]) { OwnStepIsUpToDate(mid, actions[n]); }
    }
  }

  /** With no other caller at work, whatever Transfers and Reversals do meanwhile, a
      run dispatches against the stream as it stands, so its slice lands, and undoes
      only children that stream still offers. */
  lemma AloneActsOnWhatStands(w: World, actions: seq<Action>, w': World, d: nat, slice: seq<Id>)
    requires PcOf(w, d).Idle? && Leads(w, actions, w') && Undisturbed(actions, d)
    ensures PcOf(w', d).Dispatching? ==>
      Step(w', AppendSlice(d)).stream == w'.stream + SliceEvents(w'.stream, PcOf(w', d).slice)
    ensures Enabled(w', ProceedRollback(d, slice)) && PcOf(Step(w', ProceedRollback(d, slice)), d).RollingBack? ==>
      forall c :: c in slice ==> c in CandidatesIn(w'.stream)
  {
    AloneIsUpToDate(w, actions, w', d);
  }
}
