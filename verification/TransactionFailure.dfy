/** What a rollback that failed says of the Transfers and Reversals behind it
    (go/internal/transaction/saga.go). */
module TransactionFailure {
  import opened Common
  import opened TransactionStream
  import opened TransactionOrder
  import opened TransactionSaga
  import opened TransactionInvariant
  import opened TransactionTheorems
  import T = TransferStream

  // ---- Why a child is stuck ------------------------------------------------

  /** Reserved and waiting: a rollback has to cancel it. */
  predicate IsReserved(o: T.OutcomeKind) { o.IsStaged? || o.IsPending? }

  /** Its Reversal ended without committing, or it was reserved, the cancel came
      too late, and it committed or failed instead. */
  predicate Grounds(w: World, c: Id, was: bool) {
    EndedUncommitted(Reversal(w, c)) || (was && (Live(w, c).IsCommitted? || Live(w, c).IsFailed?))
  }

  /** A caller about to record that `c` is stuck has grounds, and one about to
      cancel it saw it reserved. */
  predicate HasGrounds(w: World, c: Id, was: bool, pc: Pc) {
    match pc
    case Requesting(_, next) => HasGrounds(w, c, was, next)
    case Undoing(id, saw, _) => id == c && IsReserved(saw) ==> was
    case Recording(e, next) => (e == Child(c, Stuck) ==> Grounds(w, c, was)) && HasGrounds(w, c, was, next)
    case Appending(_, e, next) => (e == Child(c, Stuck) ==> Grounds(w, c, was)) && HasGrounds(w, c, was, next)
    case _ => true
  }

  /** `was` says whether `c` has ever been reserved. */
  ghost predicate Grounded(w: World, c: Id, was: bool) {
    && (IsReserved(Live(w, c)) ==> was) && (Child(c, Stuck) in w.stream ==> Grounds(w, c, was))
    && forall d :: HasGrounds(w, c, was, PcOf(w, d))
  }

  lemma {:induction false} GroundsStay(w: World, w': World, c: Id, was: bool, was': bool, pc: Pc)
    requires Grows(w, w') && (was ==> was') && HasGrounds(w, c, was, pc)
    ensures HasGrounds(w', c, was', pc) && (Grounds(w, c, was) ==> Grounds(w', c, was'))
    decreases pc
  {
    assert Since(Live(w, c), Live(w', c)) && Since(Reversal(w, c), Reversal(w', c));
    match pc
    case Requesting(_, next) => GroundsStay(w, w', c, was, was', next);
    case Recording(_, next) => GroundsStay(w, w', c, was, was', next);
    case Appending(_, _, next) => GroundsStay(w, w', c, was, was', next);
    case _ =>
  }

  // ---- Every step ----------------------------------------------------------

  lemma StreamGrows(w: World, a: Action)
    requires Inv(w) && Enabled(w, a)
    ensures w.stream <= Step(w, a).stream
  {
  }

  lemma OutcomesMoveOn(w: World, a: Action, c: Id)
    requires Enabled(w, a)
    ensures Since(Live(w, c), Live(Step(w, a), c)) && Since(Reversal(w, c), Reversal(Step(w, a), c))
  {
    if a.Move? { MovesIsSince(Live(w, a.c), a.to); }
    if a.MoveReversal? { MovesIsSince(Reversal(w, a.c), a.to); }
  }

  lemma StepGrows(w: World, a: Action)
    requires Inv(w) && Enabled(w, a)
    ensures Grows(w, Step(w, a))
  {
    StepKeepsInv(w, a);
    StreamGrows(w, a);
    forall c ensures Since(Live(w, c), Live(Step(w, a), c)) && Since(Reversal(w, c), Reversal(Step(w, a), c)) {
      OutcomesMoveOn(w, a, c);
    }
  }

  predicate HasCaller(a: Action) { !a.Move? && !a.MoveReversal? }

  lemma OthersStand(w: World, a: Action, x: nat)
    requires Enabled(w, a)
    ensures (HasCaller(a) && x == a.d) || PcOf(Step(w, a), x) == PcOf(w, x)
  {
  }

  lemma BeginHasGrounds(w: World, es: Stream, c: Id, was: bool)
    ensures HasGrounds(w, c, was, Begin(es))
  {
  }

  lemma MovedHasGrounds(w: World, c: Id, was: bool, pc: Pc)
    requires HasGrounds(w, c, was, pc)
    ensures HasGrounds(w, c, was, Moved(pc))
  {
  }

  /** A caller that goes on from where it stood. */
  lemma NextHasGrounds(w: World, a: Action, c: Id, was: bool)
    requires Enabled(w, a) && HasCaller(a) && HasGrounds(Step(w, a), c, was, PcOf(w, a.d))
    requires !a.Act? && !a.ReadReversal? && !a.Look? && !a.Load?
    ensures HasGrounds(Step(w, a), c, was, PcOf(Step(w, a), a.d))
  {
    if a.Request? { MovedHasGrounds(Step(w, a), c, was, PcOf(w, a.d).next); }
  }

  lemma ReadHasGrounds(w: World, a: Action, c: Id, was: bool)
    requires Enabled(w, a) && (a.ReadReversal? || a.Look?) && (IsReserved(Live(w, c)) ==> was)
    ensures HasGrounds(Step(w, a), c, was, PcOf(Step(w, a), a.d))
  {
  }

  /** The caller that acts, after its step. */
  lemma CallerHasGrounds(w: World, a: Action, c: Id, was: bool)
    requires Inv(w) && Enabled(w, a) && HasCaller(a) && Grounded(w, c, was)
    ensures HasGrounds(Step(w, a), c, was, PcOf(Step(w, a), a.d))
  {
    if a.Load? {
      BeginHasGrounds(Step(w, a), w.stream, c, was);
    } else if a.Act? {
      ActHasGrounds(w, a, c, was);
    } else if a.ReadReversal? || a.Look? {
      ReadHasGrounds(w, a, c, was);
    } else {
      StepGrows(w, a);
      GroundsStay(w, Step(w, a), c, was, was, PcOf(w, a.d));
      NextHasGrounds(w, a, c, was);
    }
  }

  lemma ActHasGrounds(w: World, a: Action, c: Id, was: bool)
    requires Inv(w) && Enabled(w, a) && a.Act? && Grounded(w, c, was)
    ensures HasGrounds(Step(w, a), c, was, PcOf(Step(w, a), a.d))
  {
    var pc := PcOf(w, a.d);
    assert Knows(w, pc) && HasGrounds(w, c, was, pc);
  }

  lemma StuckHasGrounds(w: World, a: Action, c: Id, was: bool)
    requires Inv(w) && Enabled(w, a) && Grounded(w, c, was) && Child(c, Stuck) in Step(w, a).stream
    ensures Grounds(Step(w, a), c, was)
  {
    StepGrows(w, a);
    if Child(c, Stuck) in w.stream {
      GroundsStay(w, Step(w, a), c, was, was, Idle);
    } else {
      var pc := PcOf(w, a.d);
      assert HasGrounds(w, c, was, pc);
      AddedIsRecorded(w, a, c);
      GroundsStay(w, Step(w, a), c, was, was, pc);
    }
  }

  /** A stuck child is recorded by a caller that meant to. */
  lemma AddedIsRecorded(w: World, a: Action, c: Id)
    requires Inv(w) && Enabled(w, a) && Child(c, Stuck) in Step(w, a).stream && Child(c, Stuck) !in w.stream
    ensures a.AppendStep? && PcOf(w, a.d).event == Child(c, Stuck)
  {
    if a.AppendOpening? { assert Knows(w, PcOf(w, a.d)); }
    if a.AppendStep? && |w.stream| == |PcOf(w, a.d).seen| { AppendsOnly(PcOf(w, a.d).seen, PcOf(w, a.d).event, c); }
    if a.AppendSlice? && |w.stream| == |PcOf(w, a.d).seen| { SliceHoldsNone(PcOf(w, a.d).seen, PcOf(w, a.d).slice, c); }
  }

  lemma AppendsOnly(es: Stream, e: Event, c: Id)
    requires Child(c, Stuck) in Appends(es, e)
    ensures e == Child(c, Stuck)
  {
  }

  lemma SliceHoldsNone(es: Stream, slice: seq<Id>, c: Id)
    ensures Child(c, Stuck) !in SliceEvents(es, slice)
  {
  }

  lemma StepGrounded(w: World, a: Action, c: Id, was: bool)
    requires Inv(w) && Enabled(w, a) && Grounded(w, c, was)
    ensures Grounded(Step(w, a), c, was || IsReserved(Live(Step(w, a), c)))
  {
    var w', was' := Step(w, a), was || IsReserved(Live(Step(w, a), c));
    StepGrows(w, a);
    forall d ensures HasGrounds(w', c, was', PcOf(w', d)) {
      OthersStand(w, a, d);
      if HasCaller(a) && d == a.d {
        CallerHasGrounds(w, a, c, was);
        GroundsStay(w', w', c, was, was', PcOf(w', d));
      } else {
        GroundsStay(w, w', c, was, was', PcOf(w, d));
      }
    }
    if Child(c, Stuck) in w'.stream { StuckHasGrounds(w, a, c, was); }
  }

  // ---- Over whole runs -----------------------------------------------------

  /** `c` was reserved at some point up to the n-th world. */
  ghost predicate WasReserved(ws: seq<World>, n: nat, c: Id)
    requires n < |ws|
  {
    exists m :: 0 <= m <= n && IsReserved(Live(ws[m], c))
  }

  lemma {:induction false} RunGrounded(ws: seq<World>, actions: seq<Action>, n: nat, c: Id)
    requires IsRun(ws, actions) && n < |ws|
    ensures Grounded(ws[n], c, WasReserved(ws, n, c))
  {
    if n > 0 {
      RunGrounded(ws, actions, n - 1, c);
      RunKeepsInv(ws, actions, n - 1);
      StepGrounded(ws[n - 1], actions[n - 1], c, WasReserved(ws, n - 1, c));
      assert WasReserved(ws, n, c) <==> WasReserved(ws, n - 1, c) || IsReserved(Live(ws[n], c));
    }
  }

  /** A child recorded as stuck: its Reversal ended without committing, or it had
      been reserved and committed or failed before the cancel reached it. One
      that was never reserved is stuck only for its Reversal's sake. */
  lemma StuckMeansUnreversed(ws: seq<World>, actions: seq<Action>, n: nat, c: Id)
    requires IsRun(ws, actions) && n < |ws| && Child(c, Stuck) in ws[n].stream
    ensures EndedUncommitted(Reversal(ws[n], c)) ||
      (WasReserved(ws, n, c) && (Live(ws[n], c).IsCommitted? || Live(ws[n], c).IsFailed?))
  {
    RunGrounded(ws, actions, n, c);
  }

  // ---- A failed rollback ---------------------------------------------------

  lemma FailedRollbackIsHeldUp(es: Stream)
    requires Lawful(es) && TopLevelState(es).IsRollbackFailed?
    ensures IsHeldUp(es) && With(ChildStates(es), ReversalRequested) == {}
  {
    TerminalIsLast(es);
    var n := |es| - 1;
    assert es == es[..n] + [es[n]];
    Snoc(es[..n], es[n]);
    RollbackFailedMeansHopeless(es[..n]);
    if n > 0 { assert es[..n][0] == es[0]; }
  }

  /** Stuck on the stream, and so for good, with the Transfer or Reversal that made
      it so. */
  ghost predicate CannotBeUndone(ws: seq<World>, n: nat, c: Id)
    requires n < |ws|
  {
    && c in With(ChildStates(ws[n].stream), Stuck)
    && (EndedUncommitted(Reversal(ws[n], c)) ||
        (WasReserved(ws, n, c) && (Live(ws[n], c).IsCommitted? || Live(ws[n], c).IsFailed?)))
  }

  /** It cannot be undone, or some child that cannot depends on it, through
      children that are not undone either. */
  ghost predicate HeldUp(ws: seq<World>, n: nat, c: Id)
    requires n < |ws|
  {
    exists path ::
      && Hopeless(SpecOf(ws[n].stream), ChildStates(ws[n].stream), path) && path[0] == c
      && CannotBeUndone(ws, n, path[|path| - 1])
  }

  lemma StuckCannotBeUndone(ws: seq<World>, actions: seq<Action>, n: nat, c: Id)
    requires IsRun(ws, actions) && n < |ws| && c in With(ChildStates(ws[n].stream), Stuck)
    ensures CannotBeUndone(ws, n, c)
  {
    RunKeepsInv(ws, actions, n);
    OneOutcome(ws[n].stream, c);
    StuckMeansUnreversed(ws, actions, n, c);
  }

  /** A failed rollback: some child cannot be undone, and every touched child is
      undone, ended uncommitted, or is held up by one that cannot be. */
  lemma RollbackFailedIsHeldUp(ws: seq<World>, actions: seq<Action>, n: nat)
    requires IsRun(ws, actions) && n < |ws| && TopLevelState(ws[n].stream).IsRollbackFailed?
    ensures exists c :: CannotBeUndone(ws, n, c)
    ensures forall c :: c in ChildStates(ws[n].stream) ==>
      || EndedUncommitted(Live(ws[n], c)) || (Live(ws[n], c).IsCommitted? && Reversal(ws[n], c).IsCommitted?)
      || HeldUp(ws, n, c)
  {
    RunKeepsInv(ws, actions, n);
    FailedRollbackIsHeldUp(ws[n].stream);
    var s :| s in With(ChildStates(ws[n].stream), Stuck);
    StuckCannotBeUndone(ws, actions, n, s);
    forall c | c in ChildStates(ws[n].stream)
      ensures || EndedUncommitted(Live(ws[n], c)) || (Live(ws[n], c).IsCommitted? && Reversal(ws[n], c).IsCommitted?)
              || HeldUp(ws, n, c)
    {
      TouchedIsHeldUpOrResolved(ws, actions, n, c);
    }
  }

  lemma TouchedIsHeldUpOrResolved(ws: seq<World>, actions: seq<Action>, n: nat, c: Id)
    requires IsRun(ws, actions) && n < |ws| && IsHeldUp(ws[n].stream) && c in ChildStates(ws[n].stream)
    ensures || EndedUncommitted(Live(ws[n], c)) || (Live(ws[n], c).IsCommitted? && Reversal(ws[n], c).IsCommitted?)
            || HeldUp(ws, n, c)
  {
    var es := ws[n].stream;
    RunKeepsInv(ws, actions, n);
    if c in Resolved(ChildStates(es)) {
      OneOutcome(es, c);
      assert Backed(ws[n], Child(c, ChildStates(es)[c]));
    } else {
      assert IsHopeless(SpecOf(es), ChildStates(es), c);
      var path :| Hopeless(SpecOf(es), ChildStates(es), path) && path[0] == c;
      StuckCannotBeUndone(ws, actions, n, path[|path| - 1]);
    }
  }
}
