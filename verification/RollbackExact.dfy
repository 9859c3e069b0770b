/** From a world where nobody is at work, exactly when a Transaction can be rolled
    back whole: a child recorded as stuck stays so
    (go/internal/transaction/saga.go). */
module RollbackExact {
  import opened Common
  import opened TransactionStream
  import opened TransactionOrder
  import opened TransactionSaga
  import opened TransactionInvariant
  import opened TransactionTheorems
  import opened TransactionFailure
  import opened TransactionProgress
  import opened RollbackProgress

  // ---- Callers that leave a child alone ------------------------------------

  /** Not a rollback fact of `c`. */
  predicate LeavesOut(c: Id, e: Event) { e.Child? && e.id == c ==> !IsUndoing(e.fact) }

  predicate Avoids(c: Id, pc: Pc) {
    match pc
    case Requesting(_, next) => Avoids(c, next)
    case Awaiting(seen, todo, _) => c !in todo && c in With(ChildStates(seen), Stuck)
    case RollingBack(todo) => c !in todo
    case Undoing(id, _, todo) => id != c && c !in todo
    case Recording(e, next) => LeavesOut(c, e) && Avoids(c, next)
    case Appending(_, e, next) => LeavesOut(c, e) && Avoids(c, next)
    case _ => true
  }

  /** Stuck, the rollback having begun, and nobody at work on it. */
  ghost predicate Lost(w: World, c: Id) {
    && c in With(ChildStates(w.stream), Stuck) && Level(TopLevelState(w.stream)) >= 3
    && forall d :: Avoids(c, PcOf(w, d))
  }

  // ---- Every step ----------------------------------------------------------

  lemma LoadAvoids(es: Stream, c: Id)
    requires c in With(ChildStates(es), Stuck) && Level(TopLevelState(es)) >= 3
    ensures Avoids(c, Begin(es))
  {
  }

  lemma ActAvoids(w: World, a: Action, c: Id)
    requires Enabled(w, a) && (a.Act? || a.Look? || a.ReadReversal?) && Avoids(c, PcOf(w, a.d))
    ensures Avoids(c, PcOf(Step(w, a), a.d))
  {
  }

  lemma NextAvoids(w: World, a: Action, c: Id)
    requires Enabled(w, a) && HasCaller(a) && Avoids(c, PcOf(w, a.d))
    requires !a.Act? && !a.Look? && !a.ReadReversal? && !a.Load? && !a.Proceed? && !a.ProceedRollback?
    ensures Avoids(c, PcOf(Step(w, a), a.d))
  {
    if a.Request? { assert Avoids(c, Moved(PcOf(w, a.d).next)); }
  }

  lemma ProceedAvoids(w: World, a: Action, c: Id)
    requires Enabled(w, a) && (a.Proceed? || a.ProceedRollback?) && Avoids(c, PcOf(w, a.d))
    ensures Avoids(c, PcOf(Step(w, a), a.d))
  {
  }

  lemma CallerAvoids(w: World, a: Action, c: Id)
    requires Enabled(w, a) && HasCaller(a) && Lost(w, c)
    ensures Avoids(c, PcOf(Step(w, a), a.d))
  {
    assert Avoids(c, PcOf(w, a.d));
    if a.Load? { LoadAvoids(w.stream, c); }
    else if a.Act? || a.Look? || a.ReadReversal? { ActAvoids(w, a, c); }
    else if a.Proceed? || a.ProceedRollback? { ProceedAvoids(w, a, c); }
    else { NextAvoids(w, a, c); }
  }

  /** What others record leaves it stuck. */
  lemma AppendsLeave(es: Stream, e: Event, c: Id)
    requires c in With(ChildStates(es), Stuck) && Level(TopLevelState(es)) >= 3 && LeavesOut(c, e)
    ensures c in With(ChildStates(es + Appends(es, e)), Stuck)
  {
    if e in es || !StillDecidable(es, e) {
      assert es + Appends(es, e) == es;
    } else {
      Snoc(es, e);
      if e.Child? {
        Regroup(es, e, Decided(es + [e]));
        DecidedLeaves(es + [e]);
      }
    }
  }

  lemma {:induction false} DecidedLeaves(es: Stream)
    ensures ChildStates(es + Decided(es)) == ChildStates(es)
    decreases 4 - Level(TopLevelState(es))
  {
    if Consequence(es).Some? {
      var e := Consequence(es).value;
      DecidedStep(es, e);
      Snoc(es, e);
      DecidedLeaves(es + [e]);
      assert es + Decided(es) == es + [e] + Decided(es + [e]);
    } else {
      assert es + Decided(es) == es;
    }
  }

  /** Only appendSagaStep still adds to the stream. */
  lemma OnlyStepsAppend(w: World, a: Action)
    requires Inv(w) && Enabled(w, a) && Level(TopLevelState(w.stream)) >= 3 && !a.AppendStep?
    ensures Step(w, a).stream == w.stream
  {
    if a.AppendSlice? {
      assert Knows(w, PcOf(w, a.d)) && !CanOpen(TopLevelState(w.stream));
      assert PcOf(w, a.d).seen != w.stream;
    }
  }

  lemma StreamLeaves(w: World, a: Action, c: Id)
    requires Inv(w) && Enabled(w, a) && Lost(w, c)
    ensures c in With(ChildStates(Step(w, a).stream), Stuck)
  {
    if a.AppendStep? {
      var pc := PcOf(w, a.d);
      assert Knows(w, pc) && Avoids(c, pc);
      if |w.stream| == |pc.seen| {
        assert pc.seen == w.stream;
        AppendsLeave(w.stream, pc.event, c);
      }
    } else {
      OnlyStepsAppend(w, a);
    }
  }

  lemma StepKeepsLost(w: World, a: Action, c: Id)
    requires Inv(w) && Enabled(w, a) && Lost(w, c)
    ensures Lost(Step(w, a), c)
  {
    var w' := Step(w, a);
    StepKeepsInv(w, a);
    StepGrows(w, a);
    StreamLeaves(w, a, c);
    LevelNeverFalls(w'.stream, |w.stream|);
    assert w'.stream[..|w.stream|] == w.stream;
    forall d ensures Avoids(c, PcOf(w', d)) {
      OthersStand(w, a, d);
      if HasCaller(a) && d == a.d { CallerAvoids(w, a, c); }
    }
  }

  lemma {:induction false} LostStays(w: World, actions: seq<Action>, w': World, c: Id)
    requires Inv(w) && Lost(w, c) && Leads(w, actions, w')
    ensures Inv(w') && Lost(w', c)
  {
    if actions != [] {
      var n := |actions| - 1;
      var mid :| Leads(w, actions[..n], mid) && Takes(mid, actions[n], w');
      LostStays(w, actions[..n], mid, c);
      StepKeepsLost(mid, actions[n], c);
      StepKeepsInv(mid, actions[n]);
    }
  }

  // ---- At rest -------------------------------------------------------------

  ghost predicate AtRest(w: World) { forall d :: PcOf(w, d).Idle? }

  lemma StuckAtRestIsLost(w: World, c: Id)
    requires Inv(w) && AtRest(w) && c in With(ChildStates(w.stream), Stuck)
    ensures Lost(w, c)
  {
    OneOutcome(w.stream, c);
    ForwardOnly(w.stream, Child(c, Stuck));
  }

  lemma LostForbids(w: World, w': World, c: Id)
    requires Inv(w) && Lost(w, c) && Goes(w, w')
    ensures !TopLevelState(w'.stream).IsRolledBack?
  {
    var actions :| Leads(w, actions, w');
    LostStays(w, actions, w', c);
    if TopLevelState(w'.stream).IsRolledBack? { RolledBackIsResolved(w'.stream); }
  }

  /** While nobody is at work, an open Transaction can be rolled back whole exactly
      when no child is stuck and no Reversal has ended without committing. */
  lemma RollsBackExactly(w: World)
    requires Reachable(w) && w.stream != [] && !IsTerminal(TopLevelState(w.stream)) && AtRest(w)
    ensures CanRollBack(w) <==> With(ChildStates(w.stream), Stuck) == {} && AllReversible(w.reversals)
  {
    ReachableInv(w);
    RollsBackWhole(w);
    if c :| CanRollBack(w) && c in With(ChildStates(w.stream), Stuck) {
      var w' :| Goes(w, w') && TopLevelState(w'.stream).IsRolledBack?;
      StuckAtRestIsLost(w, c);
      LostForbids(w, w', c);
    }
  }
}
