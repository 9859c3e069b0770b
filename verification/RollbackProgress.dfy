/** When a rollback can still conclude, and when it can undo everything
    (go/internal/transaction/saga.go). */
module RollbackProgress {
  import opened Common
  import opened TransactionStream
  import opened TransactionOrder
  import opened TransactionSaga
  import opened TransactionInvariant
  import opened TransactionTheorems
  import opened TransactionProgress
  import T = TransferStream

  // ---- A child that can neither be undone nor given up ---------------------

  /** Recorded as stuck and, by another run, as being reversed since; and the
      Reversal ended without committing. A second record that it is stuck would
      be taken for the first. */
  predicate Wedged(w: World, c: Id) {
    && TopLevelState(w.stream).IsRollingBack? && c in With(ChildStates(w.stream), ReversalRequested)
    && Child(c, Stuck) in w.stream && EndedUncommitted(Reversal(w, c))
  }

  /** While a child is being reversed and can get no further record, a rollback
      does not conclude. */
  lemma {:induction false} StaysAwaited(es: Stream, es': Stream, c: Id)
    requires es <= es' && Lawful(es') && TopLevelState(es).IsRollingBack?
    requires c in With(ChildStates(es), ReversalRequested) && Child(c, Stuck) in es && Child(c, Undone) !in es'
    requires Child(c, ReversalRequested) in es
    ensures TopLevelState(es').IsRollingBack? && c in With(ChildStates(es'), ReversalRequested)
  {
    if es' != es {
      var n := |es'| - 1;
      assert es' == es'[..n] + [es'[n]];
      Snoc(es'[..n], es'[n]);
      StaysAwaited(es, es'[..n], c);
      assert es <= es'[..n];
    }
  }

  lemma WedgedStays(w: World, w': World, c: Id)
    requires Inv(w) && Inv(w') && Grows(w, w') && Wedged(w, c)
    ensures Wedged(w', c)
  {
    OneOutcome(w.stream, c);
    assert Backed(w, Child(c, ReversalRequested));
    assert Since(Live(w, c), Live(w', c)) && Since(Reversal(w, c), Reversal(w', c));
    assert Child(c, Undone) in w'.stream ==> Backed(w', Child(c, Undone));
    StaysAwaited(w.stream, w'.stream, c);
  }

  // ---- What a record does to a rolling back stream -------------------------

  /** A child with a rollback fact on the stream has one as its state, and once
      undone it is not reversed again. */
  lemma {:induction false} UndoingIsLast(es: Stream, c: Id)
    requires Lawful(es) && c in ChildStates(es)
    ensures (exists f :: IsUndoing(f) && Child(c, f) in es) ==> IsUndoing(ChildStates(es)[c])
    ensures ChildStates(es)[c].ReversalRequested? ==> Child(c, Undone) !in es
  {
    var n := |es| - 1;
    assert es == es[..n] + [es[n]];
    Snoc(es[..n], es[n]);
    TouchedIsRequested(es[..n], c);
    if c in ChildStates(es[..n]) { UndoingIsLast(es[..n], c); }
    if f :| IsUndoing(f) && Child(c, f) in es[..n] { ForwardOnly(es[..n], Child(c, f)); }
  }

  predicate IsConclusion(es: Stream) {
    TopLevelState(es) == if With(ChildStates(es), Stuck) == {} then IsRolledBack else IsRollbackFailed
  }

  /** The fact is on the stream; the rollback goes on or has concluded, and it
      concludes as RolledBack unless a child is stuck. */
  ghost predicate Recorded(es: Stream, es': Stream, c: Id, f: Fact) {
    && ChildStates(es') == ChildStates(es)[c := f] && SpecOf(es') == SpecOf(es) && Child(c, f) in es'
    && (forall x, g :: Child(x, g) in es' ==> Child(x, g) in es || (x == c && g == f))
    && (TopLevelState(es').IsRollingBack? || IsConclusion(es'))
  }

  lemma UndoingAppends(es: Stream, c: Id, f: Fact)
    requires TopLevelState(es).IsRollingBack? && IsUndoing(f) && Child(c, f) !in es
    ensures Recorded(es, es + Appends(es, Child(c, f)), c, f)
  {
    var es1 := es + [Child(c, f)];
    Snoc(es, Child(c, f));
    Regroup(es, Child(c, f), Decided(es1));
    if Consequence(es1).Some? {
      var e := Consequence(es1).value;
      DecidedStep(es1, e);
      Snoc(es1, e);
      assert Decided(es1 + [e]) == [];
      assert es1 + Decided(es1) == es1 + [e];
    } else {
      assert es1 + Decided(es1) == es1;
    }
  }

  // ---- Reversals under way -------------------------------------------------

  /** A run reads a Reversal that has concluded, and records what it meant. */
  lemma RunResolves(o: World, w: World, d: nat, p: Place, c: Id, f: Fact)
    requires Comes(o, w, d, p) && p.pc.Idle? && TopLevelState(p.stream).IsRollingBack?
    requires c in With(ChildStates(p.stream), ReversalRequested)
    requires if f.Undone? then OutcomeOf(p.reversals, c).IsCommitted?
             else f.Stuck? && EndedUncommitted(OutcomeOf(p.reversals, c))
    ensures Comes(o, w, d, p.(stream := p.stream + Appends(p.stream, Child(c, f))))
  {
    var all := With(ChildStates(p.stream), ReversalRequested);
    var p1 := p.(pc := Awaiting(p.stream, all, false));
    ComesOn(o, w, d, p, Load(d), p1);
    var next := Awaiting(p.stream, all - {c}, true);
    var p2 := p.(pc := Recording(Child(c, f), next));
    ComesOn(o, w, d, p1, ReadReversal(d, c), p2);
    Records(o, w, d, p2, Child(c, f), next);
    Stops(o, w, d, p2.(stream := p.stream + Appends(p.stream, Child(c, f)), pc := next));
  }

  /** A Reversal that was accepted and has not ended otherwise can still commit. */
  lemma ReversalCommits(o: World, w: World, d: nat, p: Place, c: Id)
    requires Comes(o, w, d, p)
    requires !OutcomeOf(p.reversals, c).NotFound? && !EndedUncommitted(OutcomeOf(p.reversals, c))
    ensures Comes(o, w, d, p.(reversals := p.reversals[c := T.IsCommitted]))
  {
    if OutcomeOf(p.reversals, c).IsStaged? {
      ReversalMoves(o, w, d, p, c, T.IsPending);
      var p1 := p.(reversals := p.reversals[c := T.IsPending]);
      ReversalMoves(o, w, d, p1, c, T.IsCommitted);
      assert p1.reversals[c := T.IsCommitted] == p.reversals[c := T.IsCommitted];
    } else {
      ReversalMoves(o, w, d, p, c, T.IsCommitted);
    }
  }

  // ---- Children to undo ----------------------------------------------------

  /** With no Reversal under way, a run reads any candidate's outcome. */
  lemma RunLooks(o: World, w: World, d: nat, p: Place, c: Id) returns (todo: set<Id>)
    requires Comes(o, w, d, p) && p.pc.Idle? && TopLevelState(p.stream).IsRollingBack?
    requires With(ChildStates(p.stream), ReversalRequested) == {} && c in CandidatesIn(p.stream)
    ensures Comes(o, w, d, p.(pc := Undoing(c, OutcomeOf(p.transfers, c), todo)))
  {
    var slice := CutWith(CandidatesIn(p.stream), c);
    var p1 := p.(pc := Awaiting(p.stream, {}, false));
    ComesOn(o, w, d, p, Load(d), p1);
    var p2 := p.(pc := RollingBack(SetOf(slice)));
    ComesOn(o, w, d, p1, ProceedRollback(d, slice), p2);
    todo := SetOf(slice) - {c};
    ComesOn(o, w, d, p2, Look(d, c), p.(pc := Undoing(c, OutcomeOf(p.transfers, c), todo)));
  }

  /** A child whose Transfer ended uncommitted is recorded as undone. */
  lemma RunAbandons(o: World, w: World, d: nat, p: Place, c: Id, saw: T.OutcomeKind, todo: set<Id>)
    requires Comes(o, w, d, p) && p.pc == Undoing(c, saw, todo)
    requires EndedUncommitted(saw) || (OutcomeOf(p.transfers, c).IsCancelled? &&
      (saw.InFlight? || saw.IsStaged? || saw.IsPending?))
    ensures Comes(o, w, d, p.(stream := p.stream + Appends(p.stream, Child(c, Undone)), pc := Idle))
  {
    var p1 := p.(pc := Recording(Child(c, Undone), RollingBack(todo)));
    ComesOn(o, w, d, p, Act(d, true), p1);
    Records(o, w, d, p1, Child(c, Undone), RollingBack(todo));
    Stops(o, w, d, p1.(stream := p.stream + Appends(p.stream, Child(c, Undone)), pc := RollingBack(todo)));
  }

  /** The Reversal of a committed child is asked for, and what came of it is about
      to be recorded. */
  lemma RunAsks(o: World, w: World, d: nat, p: Place, c: Id, todo: set<Id>)
    requires Comes(o, w, d, p) && p.pc == Undoing(c, T.IsCommitted, todo)
    ensures var r := Requests(OutcomeOf(p.reversals, c), true);
      Comes(o, w, d, p.(reversals := p.reversals[c := r],
                        pc := Recording(Child(c, if r.Rejected? then Stuck else ReversalRequested), RollingBack(todo))))
  {
    var r := Requests(OutcomeOf(p.reversals, c), true);
    var e := Child(c, if r.Rejected? then Stuck else ReversalRequested);
    ComesOn(o, w, d, p, Act(d, true), p.(reversals := p.reversals[c := r], pc := Recording(e, RollingBack(todo))));
  }

  /** One whose Transfer committed is recorded as being reversed, or as stuck if
      its Reversal had been rejected. */
  lemma RunReverses(o: World, w: World, d: nat, p: Place, c: Id, todo: set<Id>)
    requires Comes(o, w, d, p) && p.pc == Undoing(c, T.IsCommitted, todo)
    ensures var r := Requests(OutcomeOf(p.reversals, c), true);
      var e := Child(c, if r.Rejected? then Stuck else ReversalRequested);
      Comes(o, w, d, p.(stream := p.stream + Appends(p.stream, e), reversals := p.reversals[c := r], pc := Idle))
  {
    var r := Requests(OutcomeOf(p.reversals, c), true);
    var e := Child(c, if r.Rejected? then Stuck else ReversalRequested);
    var p1 := p.(reversals := p.reversals[c := r], pc := Recording(e, RollingBack(todo)));
    RunAsks(o, w, d, p, c, todo);
    Records(o, w, d, p1, e, RollingBack(todo));
    Stops(o, w, d, p1.(stream := p.stream + Appends(p.stream, e), pc := RollingBack(todo)));
  }

  /** One nobody has requested is requested, refused, and looked at again. */
  lemma RunRefuses(o: World, w: World, d: nat, p: Place, c: Id, todo: set<Id>)
    requires Comes(o, w, d, p) && p.pc == Undoing(c, T.NotFound, todo) && OutcomeOf(p.transfers, c).NotFound?
    ensures Comes(o, w, d, p.(transfers := p.transfers[c := T.Rejected], pc := Undoing(c, T.Rejected, todo - {c})))
  {
    var p1 := p.(transfers := p.transfers[c := T.Rejected], pc := RollingBack(todo + {c}));
    ComesOn(o, w, d, p, Act(d, false), p1);
    assert todo + {c} - {c} == todo - {c};
    ComesOn(o, w, d, p1, Look(d, c), p1.(pc := Undoing(c, T.Rejected, todo - {c})));
  }

  /** One still reserved or in flight is cancelled. */
  lemma RunCancels(o: World, w: World, d: nat, p: Place, c: Id, todo: set<Id>)
    requires Comes(o, w, d, p) && p.pc == Undoing(c, OutcomeOf(p.transfers, c), todo)
    requires var now := OutcomeOf(p.transfers, c); now.InFlight? || now.IsStaged? || now.IsPending?
    ensures Comes(o, w, d, p.(stream := p.stream + Appends(p.stream, Child(c, Undone)),
                              transfers := p.transfers[c := T.IsCancelled], pc := Idle))
  {
    ChildMoves(o, w, d, p, c, T.IsCancelled);
    RunAbandons(o, w, d, p.(transfers := p.transfers[c := T.IsCancelled]), c, OutcomeOf(p.transfers, c), todo);
  }

  // ---- One step of a rollback ----------------------------------------------

  /** No Reversal has ended without committing. */
  ghost predicate AllReversible(rs: Outcomes) { forall c :: !EndedUncommitted(OutcomeOf(rs, c)) }

  /** Nothing keeps the rollback from undoing every child. */
  ghost predicate Clean(p: Place) { With(ChildStates(p.stream), Stuck) == {} && AllReversible(p.reversals) }

  ghost predicate NoneWedged(p: Place) {
    forall c :: c in With(ChildStates(p.stream), ReversalRequested) && EndedUncommitted(OutcomeOf(p.reversals, c)) ==>
      Child(c, Stuck) !in p.stream
  }

  ghost predicate Backward(o: World, w: World, d: nat, p: Place) {
    Inv(o) && Comes(o, w, d, p) && p.pc.Idle? && NoneWedged(p)
  }

  /** Children a rollback still has work with, and those it has yet to act on. */
  function Open(cs: Children): set<Id> {
    set c | c in cs && (cs[c].Requested? || cs[c].Done? || cs[c].ReversalRequested?)
  }

  function Untried(cs: Children): set<Id> { set c | c in cs && (cs[c].Requested? || cs[c].Done?) }

  /** Less is left to do. */
  predicate Closer(cs: Children, cs': Children) {
    |Open(cs')| < |Open(cs)| || (|Open(cs')| <= |Open(cs)| && |Untried(cs')| < |Untried(cs)|)
  }

  lemma RecordedIsCloser(cs: Children, c: Id, f: Fact)
    requires c in Open(cs) && IsUndoing(f) && (f.ReversalRequested? ==> c in Untried(cs))
    ensures Closer(cs, cs[c := f])
  {
    var cs' := cs[c := f];
    if f.ReversalRequested? {
      assert Open(cs') == Open(cs);
      assert Untried(cs') == Untried(cs) - {c};
    } else {
      assert Open(cs') == Open(cs) - {c};
    }
  }

  /** One step on: the rollback has concluded, or has less to do; and a clean one
      stays so. */
  ghost predicate StepsOn(o: World, w: World, d: nat, p: Place, p': Place) {
    && Backward(o, w, d, p') && (Clean(p) ==> Clean(p'))
    && (if TopLevelState(p'.stream).IsRollingBack? then Closer(ChildStates(p.stream), ChildStates(p'.stream))
        else IsConclusion(p'.stream))
  }

  /** No further Reversal has ended without committing. */
  ghost predicate NoWorse(rs: Outcomes, rs': Outcomes) {
    forall x :: EndedUncommitted(OutcomeOf(rs', x)) ==> EndedUncommitted(OutcomeOf(rs, x))
  }

  lemma StillNoneWedged(p: Place, p': Place, c: Id, f: Fact)
    requires NoneWedged(p) && Recorded(p.stream, p'.stream, c, f) && NoWorse(p.reversals, p'.reversals)
    requires f.ReversalRequested? ==> Child(c, Stuck) !in p.stream
    ensures NoneWedged(p')
  {
  }

  lemma StillClean(p: Place, p': Place, c: Id, f: Fact)
    requires Clean(p) && Recorded(p.stream, p'.stream, c, f) && NoWorse(p.reversals, p'.reversals)
    requires f.Stuck? ==> EndedUncommitted(OutcomeOf(p.reversals, c))
    ensures Clean(p')
  {
    assert !EndedUncommitted(OutcomeOf(p.reversals, c));
    assert With(ChildStates(p'.stream), Stuck) == {};
  }

  lemma StepTaken(o: World, w: World, d: nat, p: Place, p': Place, c: Id, f: Fact)
    requires Backward(o, w, d, p) && Comes(o, w, d, p') && p'.pc.Idle? && NoWorse(p.reversals, p'.reversals)
    requires Recorded(p.stream, p'.stream, c, f) && IsUndoing(f) && c in Open(ChildStates(p.stream))
    requires f.ReversalRequested? ==> c in Untried(ChildStates(p.stream)) && Child(c, Stuck) !in p.stream
    requires f.Stuck? ==> EndedUncommitted(OutcomeOf(p.reversals, c))
    ensures StepsOn(o, w, d, p, p')
  {
    RecordedIsCloser(ChildStates(p.stream), c, f);
    StillNoneWedged(p, p', c, f);
    if Clean(p) { StillClean(p, p', c, f); }
  }

  /** A Reversal under way concludes and is recorded. */
  lemma ResolvesOne(o: World, w: World, d: nat, p: Place, c: Id) returns (p': Place)
    requires Backward(o, w, d, p) && Inv(At(w, d, p)) && TopLevelState(p.stream).IsRollingBack?
    requires c in With(ChildStates(p.stream), ReversalRequested)
    ensures StepsOn(o, w, d, p, p')
  {
    OneOutcome(p.stream, c);
    UndoingIsLast(p.stream, c);
    assert Backed(At(w, d, p), Child(c, ReversalRequested));
    var f := if EndedUncommitted(OutcomeOf(p.reversals, c)) then Stuck else Undone;
    p' := p;
    if f.Undone? {
      ReversalCommits(o, w, d, p, c);
      p' := p.(reversals := p.reversals[c := T.IsCommitted]);
    }
    RunResolves(o, w, d, p', c, f);
    p' := p'.(stream := p.stream + Appends(p.stream, Child(c, f)));
    UndoingAppends(p.stream, c, f);
    StepTaken(o, w, d, p, p', c, f);
  }

  /** A candidate is undone, or starts being reversed. */
  lemma UndoesOne(o: World, w: World, d: nat, p: Place, c: Id) returns (p': Place)
    requires Backward(o, w, d, p) && Inv(At(w, d, p)) && TopLevelState(p.stream).IsRollingBack?
    requires With(ChildStates(p.stream), ReversalRequested) == {} && c in CandidatesIn(p.stream)
    ensures StepsOn(o, w, d, p, p')
  {
    UndoingIsLast(p.stream, c);
    var todo := RunLooks(o, w, d, p, c);
    var now := OutcomeOf(p.transfers, c);
    var p1 := p.(pc := Undoing(c, now, todo));
    if now.IsCommitted? {
      p' := UndoesCommitted(o, w, d, p, c, todo);
    } else {
      if EndedUncommitted(now) {
        RunAbandons(o, w, d, p1, c, now, todo);
        p' := p1.(pc := Idle);
      } else if now.NotFound? {
        RunRefuses(o, w, d, p1, c, todo);
        p' := p1.(transfers := p.transfers[c := T.Rejected], pc := Undoing(c, T.Rejected, todo - {c}));
        RunAbandons(o, w, d, p', c, T.Rejected, todo - {c});
      } else {
        RunCancels(o, w, d, p1, c, todo);
        p' := p1.(transfers := p.transfers[c := T.IsCancelled]);
      }
      p' := p'.(stream := p.stream + Appends(p.stream, Child(c, Undone)), pc := Idle);
      UndoingAppends(p.stream, c, Undone);
      StepTaken(o, w, d, p, p', c, Undone);
    }
  }

  lemma UndoesCommitted(o: World, w: World, d: nat, p: Place, c: Id, todo: set<Id>) returns (p': Place)
    requires Backward(o, w, d, p) && TopLevelState(p.stream).IsRollingBack? && c in Untried(ChildStates(p.stream))
    requires forall f :: Child(c, f) in p.stream ==> !IsUndoing(f)
    requires Comes(o, w, d, p.(pc := Undoing(c, T.IsCommitted, todo)))
    ensures StepsOn(o, w, d, p, p')
  {
    var r := Requests(OutcomeOf(p.reversals, c), true);
    var f := if r.Rejected? then Stuck else ReversalRequested;
    RunReverses(o, w, d, p.(pc := Undoing(c, T.IsCommitted, todo)), c, todo);
    p' := p.(stream := p.stream + Appends(p.stream, Child(c, f)), reversals := p.reversals[c := r], pc := Idle);
    UndoingAppends(p.stream, c, f);
    StepTaken(o, w, d, p, p', c, f);
  }

  /** What a rollback with nothing left to do concludes. */
  lemma NothingLeft(es: Stream) returns (e: Event)
    requires Lawful(es) && TopLevelState(es).IsRollingBack?
    requires With(ChildStates(es), ReversalRequested) == {} && CandidatesIn(es) == {}
    ensures Consequence(es) == Some(e) && Appends(es, e) == [e]
    ensures IsConclusion(es + [e]) && ChildStates(es + [e]) == ChildStates(es)
  {
    e := if With(ChildStates(es), Stuck) == {} then RolledBack else RollbackFailed;
    if e in es { LevelsRise(es, e); }
    Snoc(es, e);
  }

  /** And a run records it. */
  lemma RunConcludes(o: World, w: World, d: nat, p: Place) returns (p': Place)
    requires Backward(o, w, d, p) && Lawful(p.stream) && TopLevelState(p.stream).IsRollingBack?
    requires With(ChildStates(p.stream), ReversalRequested) == {} && CandidatesIn(p.stream) == {}
    ensures StepsOn(o, w, d, p, p')
  {
    var e := NothingLeft(p.stream);
    var p1 := p.(pc := Awaiting(p.stream, {}, false));
    ComesOn(o, w, d, p, Load(d), p1);
    var p2 := p.(pc := Recording(e, Idle));
    ComesOn(o, w, d, p1, ProceedRollback(d, []), p2);
    Records(o, w, d, p2, e, Idle);
    p' := p.(stream := p.stream + [e]);
  }

  /** Whatever the rollback has left to do, a step of it can be taken. */
  lemma SomeStep(o: World, w: World, d: nat, p: Place) returns (p': Place)
    requires Backward(o, w, d, p) && TopLevelState(p.stream).IsRollingBack?
    ensures StepsOn(o, w, d, p, p')
  {
    GoesGrows(o, At(w, d, p));
    if c :| c in With(ChildStates(p.stream), ReversalRequested) {
      p' := ResolvesOne(o, w, d, p, c);
    } else if c :| c in CandidatesIn(p.stream) {
      p' := UndoesOne(o, w, d, p, c);
    } else {
      p' := RunConcludes(o, w, d, p);
    }
  }

  // ---- Concluding ----------------------------------------------------------

  ghost predicate CanConclude(w: World) { exists w' :: Goes(w, w') && IsTerminal(TopLevelState(w'.stream)) }

  ghost predicate CanRollBack(w: World) { exists w' :: Goes(w, w') && TopLevelState(w'.stream).IsRolledBack? }

  lemma {:induction false} ConcludesFrom(o: World, w: World, d: nat, p: Place)
    requires Backward(o, w, d, p) && TopLevelState(p.stream).IsRollingBack?
    ensures CanConclude(o) && (Clean(p) ==> CanRollBack(o))
    decreases |Open(ChildStates(p.stream))|, |Untried(ChildStates(p.stream))|
  {
    var p' := SomeStep(o, w, d, p);
    if TopLevelState(p'.stream).IsRollingBack? {
      ConcludesFrom(o, w, d, p');
    } else {
      assert Goes(o, At(w, d, p'));
    }
  }

  /** StartTransactionRollback, recorded alone. */
  lemma RunStartsRollback(o: World, w: World, d: nat, p: Place)
    requires Inv(o) && Comes(o, w, d, p) && p.pc.Idle? && CanOpen(TopLevelState(p.stream))
    ensures Comes(o, w, d, p.(stream := p.stream + [RollbackStarted]))
  {
    GoesGrows(o, At(w, d, p));
    if RollbackStarted in p.stream { LevelsRise(p.stream, RollbackStarted); }
    var p1 := p.(pc := Recording(RollbackStarted, Idle));
    ComesOn(o, w, d, p, StartRollback(d), p1);
    Records(o, w, d, p1, RollbackStarted, Idle);
  }

  /** Before a rollback no child is being reversed or stuck. */
  lemma NothingUndoneYet(es: Stream)
    requires Lawful(es) && CanOpen(TopLevelState(es))
    ensures With(ChildStates(es), ReversalRequested) == {} && With(ChildStates(es), Stuck) == {}
  {
    if TopLevelState(es).IsInitialized? {
      NoneTouchedYet(es);
    } else {
      forall c | c in ChildStates(es) ensures !IsUndoing(ChildStates(es)[c]) { StartedChildren(es, c); }
    }
  }

  lemma CanConcludeFrom(w: World)
    requires Inv(w) && w.stream != [] && !IsTerminal(TopLevelState(w.stream)) && forall c :: !Wedged(w, c)
    ensures CanConclude(w)
    ensures With(ChildStates(w.stream), Stuck) == {} && AllReversible(w.reversals) ==> CanRollBack(w)
  {
    var p := Fresh(w, 0);
    OpensWithSpec(w.stream);
    if !TopLevelState(p.stream).IsRollingBack? {
      RunStartsRollback(w, w, 0, p);
      Snoc(w.stream, RollbackStarted);
      NothingUndoneYet(w.stream);
      p := p.(stream := p.stream + [RollbackStarted]);
    } else {
      forall c | c in With(ChildStates(p.stream), ReversalRequested) && EndedUncommitted(OutcomeOf(p.reversals, c))
        ensures Child(c, Stuck) !in p.stream
      {
        assert !Wedged(w, c);
      }
    }
    ConcludesFrom(w, w, 0, p);
  }

  /** An open Transaction can reach a terminal state exactly while no child is
      wedged; once one is, it never will. */
  lemma ConcludesExactly(w: World)
    requires Reachable(w) && w.stream != [] && !IsTerminal(TopLevelState(w.stream))
    ensures CanConclude(w) <==> forall c :: !Wedged(w, c)
  {
    ReachableInv(w);
    if forall c :: !Wedged(w, c) { CanConcludeFrom(w); }
    if CanConclude(w) {
      var w' :| Goes(w, w') && IsTerminal(TopLevelState(w'.stream));
      GoesGrows(w, w');
      forall c ensures !Wedged(w, c) { if Wedged(w, c) { WedgedStays(w, w', c); } }
    }
  }

  /** It can be rolled back whole while no child is stuck and no Reversal has
      ended without committing; and not at all once one has. */
  lemma RollsBackWhole(w: World)
    requires Reachable(w) && w.stream != [] && !IsTerminal(TopLevelState(w.stream))
    ensures With(ChildStates(w.stream), Stuck) == {} && AllReversible(w.reversals) ==> CanRollBack(w)
    ensures CanRollBack(w) ==> AllReversible(w.reversals)
  {
    ReachableInv(w);
    if With(ChildStates(w.stream), Stuck) == {} && AllReversible(w.reversals) {
      forall c ensures !Wedged(w, c) { assert !EndedUncommitted(OutcomeOf(w.reversals, c)); }
      CanConcludeFrom(w);
    }
    if CanRollBack(w) {
      var w' :| Goes(w, w') && TopLevelState(w'.stream).IsRolledBack?;
      GoesGrows(w, w');
      forall c ensures !EndedUncommitted(OutcomeOf(w.reversals, c)) { UnreversedForbids(w, w', c); }
    }
  }

  lemma UnreversedForbids(w: World, w': World, c: Id)
    requires Inv(w) && Reachable(w') && Grows(w, w') && TopLevelState(w'.stream).IsRolledBack?
    ensures !EndedUncommitted(Reversal(w, c))
  {
    if EndedUncommitted(Reversal(w, c)) {
      assert Live(w, c).IsCommitted?;
      assert Since(Live(w, c), Live(w', c)) && Since(Reversal(w, c), Reversal(w', c));
      RolledBackIsUndone(w', c);
    }
  }

  /** From any world where a child's Transfer has committed, nothing is stuck and
      no Reversal has ended otherwise, a rollback can end with that Transfer and
      its Reversal both committed. */
  lemma CommittedCanBeReversed(w: World, c: Id) returns (w': World)
    requires Reachable(w) && !IsTerminal(TopLevelState(w.stream)) && Live(w, c).IsCommitted?
    requires With(ChildStates(w.stream), Stuck) == {} && AllReversible(w.reversals)
    ensures Goes(w, w') && Reachable(w') && TopLevelState(w'.stream).IsRolledBack?
    ensures Live(w', c).IsCommitted? && Reversal(w', c).IsCommitted?
  {
    ReachableInv(w);
    RollsBackWhole(w);
    w' :| Goes(w, w') && TopLevelState(w'.stream).IsRolledBack?;
    GoesGrows(w, w');
    assert Since(Live(w, c), Live(w', c));
    TouchedIsRequested(w'.stream, c);
    RolledBackIsUndone(w', c);
  }

  /** Once a Reversal has ended without committing, a rollback that is not wedged
      can conclude, and does so as RollbackFailed. */
  lemma UnreversedFails(w: World, c: Id) returns (w': World)
    requires Reachable(w) && !IsTerminal(TopLevelState(w.stream)) && EndedUncommitted(Reversal(w, c))
    requires forall x :: !Wedged(w, x)
    ensures Goes(w, w') && Reachable(w') && Grows(w, w') && TopLevelState(w'.stream).IsRollbackFailed?
  {
    ReachableInv(w);
    ConcludesExactly(w);
    w' :| Goes(w, w') && IsTerminal(TopLevelState(w'.stream));
    GoesGrows(w, w');
    assert RollbackStarted in w'.stream;
    OpensWithSpec(w'.stream);
    if TopLevelState(w'.stream).IsCompleted? { CompletedHadNoRollback(w'.stream); }
    if TopLevelState(w'.stream).IsRolledBack? { UnreversedForbids(w, w', c); }
  }
}
