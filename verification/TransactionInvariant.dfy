/** What every step of the Transaction saga keeps: a stored stream, each fact on
    it backed by a Transfer that can no longer say otherwise, and drivers that
    only act on what the stream already records. */
module TransactionInvariant {
  import opened Common
  import opened Dag
  import opened TransactionStream
  import opened TransactionOrder
  import opened TransactionSaga
  import T = TransferStream
  import V = ValidateDag

  predicate EndedUncommitted(o: T.OutcomeKind) { o.Rejected? || o.IsFailed? || o.IsCancelled? }

  /** Any number of lawful moves. */
  predicate Since(o: T.OutcomeKind, o': T.OutcomeKind) {
    match o
    case NotFound => true
    case InFlight => !o'.NotFound? && !o'.Rejected?
    case IsStaged => o'.IsStaged? || o'.IsPending? || o'.IsCommitted? || o'.IsFailed? || o'.IsCancelled?
    case IsPending => o'.IsPending? || o'.IsCommitted? || o'.IsFailed? || o'.IsCancelled?
    case _ => o' == o
  }

  /** The outcome behind a recorded fact. */
  predicate Backed(w: World, e: Event) {
    e.Child? ==>
      match e.fact
      case Done => Live(w, e.id).IsCommitted?
      case Failed => EndedUncommitted(Live(w, e.id))
      case ReversalRequested =>
        Live(w, e.id).IsCommitted? && !Reversal(w, e.id).NotFound? && !Reversal(w, e.id).Rejected?
      case Undone =>
        || EndedUncommitted(Live(w, e.id))
        || (Live(w, e.id).IsCommitted? && Reversal(w, e.id).IsCommitted? && Child(e.id, ReversalRequested) in w.stream)
      case _ => true
  }

  /** The rollback has begun, and every touched dependent of `c` is resolved. */
  predicate Undoable(es: Stream, c: Id) { RollbackStarted in es && c in ChildStates(es) && Free(es, c) }

  /** A step a caller may be about to record. */
  predicate Recordable(w: World, e: Event) {
    && Backed(w, e)
    && (e.Child? ==> !e.fact.Requested? && (IsUndoing(e.fact) ==> Undoable(w.stream, e.id)))
  }

  ghost predicate Knows(w: World, pc: Pc) {
    match pc
    case Idle => true
    case Opening(e) => e.Rejected? || (e.Initialized? && ValidSpec(e.spec))
    case Reconciling(seen, todo, _) =>
      seen <= w.stream && CanOpen(TopLevelState(seen)) && forall c :: c in todo ==> Child(c, Requested) in w.stream
    case Dispatching(seen, slice) => seen <= w.stream && CanOpen(TopLevelState(seen)) && IsSlice(seen, slice)
    case Requesting(todo, next) => Knows(w, next) && forall c :: c in todo ==> Child(c, Requested) in w.stream
    case Awaiting(seen, todo, _) =>
      seen <= w.stream && TopLevelState(seen).IsRollingBack? &&
          forall c :: c in todo ==> Child(c, ReversalRequested) in w.stream
    case RollingBack(todo) => forall c :: c in todo ==> Undoable(w.stream, c)
    case Undoing(c, saw, todo) =>
      Undoable(w.stream, c) && Since(saw, Live(w, c)) && forall x :: x in todo ==> Undoable(w.stream, x)
    case Recording(e, next) => Recordable(w, e) && Knows(w, next)
    case Appending(seen, e, next) => seen <= w.stream && Recordable(w, e) && Knows(w, next)
  }

  /** Transfers are requested only on a recorded intent, and reversed only once a
      committed one is being rolled back. */
  ghost predicate Licensed(w: World) {
    && (forall c :: !Live(w, c).NotFound? ==> Child(c, Requested) in w.stream)
    && (forall c :: !Reversal(w, c).NotFound? ==> Live(w, c).IsCommitted? && RollbackStarted in w.stream)
  }

  ghost predicate AllBacked(w: World) { forall e :: e in w.stream ==> Backed(w, e) }

  ghost predicate Inv(w: World) {
    Stored(w.stream) && AllBacked(w) && Licensed(w) && forall d :: Knows(w, PcOf(w, d))
  }

  // ---- What a step leaves standing -----------------------------------------

  /** One world after another: the stream only grows, outcomes only move on. */
  ghost predicate Grows(w: World, w': World) {
    && w.stream <= w'.stream && Lawful(w'.stream)
    && (forall c :: Since(Live(w, c), Live(w', c))) && (forall c :: Since(Reversal(w, c), Reversal(w', c)))
  }

  lemma {:induction false} StillTouched(es: Stream, es': Stream, c: Id)
    requires es <= es' && Lawful(es') && c in ChildStates(es)
    ensures c in ChildStates(es')
  {
    if es == es' {
    } else {
      var m := |es'| - 1;
      assert es' == es'[..m] + [es'[m]];
      Snoc(es'[..m], es'[m]);
      StillTouched(es, es'[..m], c);
    }
  }

  lemma StillUndoable(es: Stream, es': Stream, c: Id)
    requires es <= es' && Lawful(es) && Lawful(es') && Undoable(es, c)
    ensures Undoable(es', c)
  {
    StillTouched(es, es', c);
    assert es == es'[..|es|];
    LevelsRise(es, RollbackStarted);
    forall d | d in SpecOf(es').deps && d in ChildStates(es') && c in SpecOf(es').deps[d] ensures ResolvedIn(es', d) {
      NothingRequestedLate(es', |es|, d);
      assert ResolvedIn(es, d);
    }
  }

  lemma StillBacked(w: World, w': World, e: Event)
    requires Grows(w, w') && Backed(w, e)
    ensures Backed(w', e)
  {
    if e.Child? { assert Since(Live(w, e.id), Live(w', e.id)) && Since(Reversal(w, e.id), Reversal(w', e.id)); }
  }

  lemma StillRecordable(w: World, w': World, e: Event)
    requires Grows(w, w') && Lawful(w.stream) && Recordable(w, e)
    ensures Recordable(w', e)
  {
    StillBacked(w, w', e);
    if e.Child? && IsUndoing(e.fact) { StillUndoable(w.stream, w'.stream, e.id); }
  }

  lemma AllStillUndoable(es: Stream, es': Stream, todo: set<Id>)
    requires es <= es' && Lawful(es) && Lawful(es') && forall c :: c in todo ==> Undoable(es, c)
    ensures forall c :: c in todo ==> Undoable(es', c)
  {
    forall c | c in todo ensures Undoable(es', c) { StillUndoable(es, es', c); }
  }

  lemma SinceSince(o: T.OutcomeKind, o': T.OutcomeKind, o'': T.OutcomeKind)
    requires Since(o, o') && Since(o', o'')
    ensures Since(o, o'')
  {
  }

  /** What a caller knows, it knows for good. */
  lemma {:induction false} StillKnows(w: World, w': World, pc: Pc)
    requires Grows(w, w') && Lawful(w.stream) && Knows(w, pc)
    ensures Knows(w', pc)
    decreases pc
  {
    match pc
    case Requesting(_, next) => StillKnows(w, w', next);
    case RollingBack(todo) => AllStillUndoable(w.stream, w'.stream, todo);
    case Undoing(c, saw, todo) =>
      AllStillUndoable(w.stream, w'.stream, todo);
      StillUndoable(w.stream, w'.stream, c);
      SinceSince(saw, Live(w, c), Live(w', c));
    case Recording(e, next) => StillKnows(w, w', next); StillRecordable(w, w', e);
    case Appending(_, e, next) => StillKnows(w, w', next); StillRecordable(w, w', e);
    case _ =>
  }

  /** A step that keeps the shared state sound, and leaves its own caller
      knowing what it acts on, keeps everything. */
  lemma Settle(w: World, w': World, d: nat)
    requires Inv(w) && Grows(w, w') && Stored(w'.stream) && AllBacked(w') && Licensed(w')
    requires Knows(w', PcOf(w', d)) && forall x :: x != d ==> PcOf(w', x) == PcOf(w, x)
    ensures Inv(w')
  {
    forall x ensures Knows(w', PcOf(w', x)) {
      if x != d { StillKnows(w, w', PcOf(w, x)); }
    }
  }

  /** A step of one caller that touches nothing shared. */
  lemma OnlyPc(w: World, d: nat, pc: Pc)
    requires Inv(w) && Knows(w, pc)
    ensures Inv(Goto(w, d, pc))
  {
    var w' := Goto(w, d, pc);
    StillKnows(w, w', pc);
    Settle(w, w', d);
  }

  // ---- Reading and deciding ------------------------------------------------

  lemma {:induction false} UndoneWasUndoable(es: Stream, e: Event)
    requires Lawful(es) && e in es && e.Child? && IsUndoing(e.fact)
    ensures Undoable(es, e.id)
  {
    var n := |es| - 1;
    assert es == es[..n] + [es[n]];
    if es[n] == e { RollingBackIsStarted(es[..n]); } else { UndoneWasUndoable(es[..n], e); }
    StillUndoable(es[..n], es, e.id);
  }

  lemma BeginKnows(w: World)
    requires Lawful(w.stream)
    ensures Knows(w, Begin(w.stream))
  {
    forall c | c in ChildStates(w.stream)
      ensures Child(c, Requested) in w.stream && Child(c, ChildStates(w.stream)[c]) in w.stream
    {
      TouchedIsRequested(w.stream, c);
      OneOutcome(w.stream, c);
    }
  }

  lemma ReadKnows(w: World, pc: Pc, c: Id)
    requires pc.Reconciling? && Knows(w, pc) && c in pc.todo
    ensures Knows(w, AfterOutcome(pc, c, Live(w, c)))
  {
    assert Knows(w, Reconciling(pc.seen, pc.todo - {c}, pc.moved)) &&
        Knows(w, Reconciling(pc.seen, pc.todo - {c}, true));
  }

  lemma ProceedKnows(w: World, pc: Pc, slice: seq<Id>)
    requires pc.Reconciling? && Knows(w, pc) && Cut(ReadyIn(pc.seen), slice)
    ensures Knows(w, AfterReconciling(pc, slice))
  {
  }

  lemma ReversalKnows(w: World, pc: Pc, c: Id)
    requires Lawful(w.stream) && AllBacked(w) && pc.Awaiting? && Knows(w, pc) && c in pc.todo
    ensures Knows(w, AfterReversal(pc, c, Reversal(w, c)))
  {
    UndoneWasUndoable(w.stream, Child(c, ReversalRequested));
    assert Backed(w, Child(c, ReversalRequested));
    assert Knows(w, Awaiting(pc.seen, pc.todo - {c}, true));
  }

  lemma CandidateIsUndoable(es: Stream, c: Id)
    requires Lawful(es) && TopLevelState(es).IsRollingBack? && c in CandidatesIn(es)
    ensures Undoable(es, c)
  {
    RollingBackIsStarted(es);
    forall d | d in SpecOf(es).deps && d in ChildStates(es) && c in SpecOf(es).deps[d] ensures ResolvedIn(es, d) {
      assert d in Resolved(ChildStates(es));
      OneOutcome(es, d);
    }
  }

  lemma ProceedRollbackKnows(w: World, pc: Pc, slice: seq<Id>)
    requires Lawful(w.stream) && pc.Awaiting? && Knows(w, pc) && Cut(CandidatesIn(pc.seen), slice)
    ensures Knows(w, AfterAwaiting(pc, slice))
  {
    LawfulAt(w.stream, |pc.seen|);
    assert w.stream[..|pc.seen|] == pc.seen;
    forall c | c in SetOf(slice) ensures Undoable(w.stream, c) {
      CandidateIsUndoable(pc.seen, c);
      StillUndoable(pc.seen, w.stream, c);
    }
  }

  // ---- Outcomes ------------------------------------------------------------

  lemma MovesIsSince(o: T.OutcomeKind, o': T.OutcomeKind)
    requires T.Moves(o, o')
    ensures Since(o, o')
  {
  }

  /** A child's Transfer may move on by itself, or be requested on an intent. */
  lemma OutcomeKeeps(w: World, d: nat, pc: Pc, c: Id, o: T.OutcomeKind)
    requires Inv(w) && Child(c, Requested) in w.stream && Since(Live(w, c), o)
    requires var w' := Goto(w, d, pc).(transfers := w.transfers[c := o]); Knows(w', pc)
    ensures Inv(Goto(w, d, pc).(transfers := w.transfers[c := o]))
  {
    var w' := Goto(w, d, pc).(transfers := w.transfers[c := o]);
    assert Grows(w, w');
    forall e | e in w'.stream ensures Backed(w', e) { StillBacked(w, w', e); }
    assert Licensed(w') by {
      forall x | !Reversal(w', x).NotFound? ensures Live(w', x).IsCommitted? { assert Live(w, x).IsCommitted?; }
    }
    Settle(w, w', d);
  }

  lemma ReversalKeeps(w: World, d: nat, pc: Pc, c: Id, o: T.OutcomeKind)
    requires Inv(w) && Live(w, c).IsCommitted? && RollbackStarted in w.stream && Since(Reversal(w, c), o)
    requires var w' := Goto(w, d, pc).(reversals := w.reversals[c := o]); Knows(w', pc)
    ensures Inv(Goto(w, d, pc).(reversals := w.reversals[c := o]))
  {
    var w' := Goto(w, d, pc).(reversals := w.reversals[c := o]);
    assert Grows(w, w');
    forall e | e in w'.stream ensures Backed(w', e) { StillBacked(w, w', e); }
    Settle(w, w', d);
  }

  // ---- Appends -------------------------------------------------------------

  /** A longer stored stream whose new facts are backed. */
  lemma StreamKeeps(w: World, d: nat, pc: Pc, adds: seq<Event>)
    requires Inv(w) && Stored(w.stream + adds)
    requires var w' := Goto(w, d, pc).(stream := w.stream + adds);
      Knows(w', pc) && forall e :: e in adds ==> Backed(w', e)
    ensures Inv(Goto(w, d, pc).(stream := w.stream + adds))
  {
    var w' := Goto(w, d, pc).(stream := w.stream + adds);
    assert Grows(w, w');
    forall e | e in w'.stream ensures Backed(w', e) { if e in w.stream { StillBacked(w, w', e); } }
    Settle(w, w', d);
  }

  lemma OpeningIsStored(e: Event)
    requires e.Rejected? || (e.Initialized? && ValidSpec(e.spec))
    ensures Stored([e])
  {
    assert [] + [e] == [e];
    LawfulSnoc([], e);
    Snoc([], e);
  }

  lemma OpeningKeeps(w: World, d: nat, e: Event)
    requires Inv(w) && PcOf(w, d) == Opening(e)
    ensures Inv(Goto(w, d, Idle).(stream := if w.stream == [] then [e] else w.stream))
  {
    if w.stream == [] {
      assert Knows(w, Opening(e));
      OpeningIsStored(e);
      assert w.stream + [e] == [e];
      StreamKeeps(w, d, Idle, [e]);
    } else {
      OnlyPc(w, d, Idle);
    }
  }

  lemma SliceIsStored(seen: Stream, slice: seq<Id>)
    requires Stored(seen) && CanOpen(TopLevelState(seen)) && IsSlice(seen, slice)
    ensures Stored(seen + SliceEvents(seen, slice))
  {
    if TopLevelState(seen).IsInitialized? { FirstSliceKeepsStored(seen, slice); }
    else { SliceKeepsStored(seen, slice); }
  }

  lemma SliceKeeps(w: World, d: nat, seen: Stream, slice: seq<Id>)
    requires Inv(w) && PcOf(w, d) == Dispatching(seen, slice) && |w.stream| == |seen|
    ensures Inv(Goto(w, d, Requesting(SetOf(slice), Idle)).(stream := w.stream + SliceEvents(seen, slice)))
  {
    assert seen == w.stream;
    SliceIsStored(seen, slice);
    var adds, pc := SliceEvents(seen, slice), Requesting(SetOf(slice), Idle);
    var w' := Goto(w, d, pc).(stream := w.stream + adds);
    forall c | c in slice ensures Child(c, Requested) in adds {
      var i :| 0 <= i < |slice| && slice[i] == c;
      assert Intents(slice)[i] == Child(c, Requested);
    }
    StreamKeeps(w, d, pc, adds);
  }

  /** Evidence decides the order of a child's last facts: once it is undone, no
      Reversal of it is newly requested. */
  lemma RecordableIsJustified(w: World, e: Event)
    requires AllBacked(w) && Recordable(w, e)
    ensures Justified(w.stream, e)
  {
    if e.Child? && e.fact.ReversalRequested? && Child(e.id, Undone) in w.stream {
      assert Backed(w, Child(e.id, Undone));
    }
  }

  lemma DecidedIsBacked(w: World, es: Stream, e: Event)
    requires e in Decided(es)
    ensures Backed(w, e)
  {
  }

  lemma StepKeeps(w: World, d: nat, seen: Stream, e: Event, next: Pc)
    requires Inv(w) && PcOf(w, d) == Appending(seen, e, next) && |w.stream| == |seen|
    ensures Inv(Goto(w, d, next).(stream := w.stream + Appends(seen, e)))
  {
    assert seen == w.stream;
    RecordableIsJustified(w, e);
    AppendsKeepStored(seen, e);
    var adds := Appends(seen, e);
    var w' := Goto(w, d, next).(stream := w.stream + adds);
    assert Grows(w, w');
    StillKnows(w, w', next);
    forall x | x in adds ensures Backed(w', x) {
      if x == e { StillBacked(w, w', e); } else { DecidedIsBacked(w', seen + [e], x); }
    }
    StreamKeeps(w, d, next, adds);
  }

  // ---- Every step ----------------------------------------------------------

  lemma RequestKnows(w: World, pc: Pc, c: Id)
    requires pc.Requesting? && Knows(w, pc) && c in pc.todo
    ensures Knows(w, AfterRequest(pc, c, Live(w, c)))
  {
    assert Knows(w, Moved(pc.next));
  }

  lemma RequestKeeps(w: World, d: nat, c: Id, accept: bool)
    requires Inv(w) && PcOf(w, d).Requesting? && c in PcOf(w, d).todo
    ensures Inv(Step(w, Request(d, c, accept)))
  {
    var pc, o := PcOf(w, d), Requests(Live(w, c), accept);
    var pc' := AfterRequest(pc, c, o);
    var w' := Goto(w, d, pc').(transfers := w.transfers[c := o]);
    assert Grows(w, w');
    StillKnows(w, w', pc);
    RequestKnows(w', pc, c);
    OutcomeKeeps(w, d, pc', c, o);
  }

  /** rollbackChild on a committed child: ask for its Reversal. */
  lemma ActOnCommitted(w: World, d: nat, c: Id, todo: set<Id>, accept: bool)
    requires Inv(w) && PcOf(w, d) == Undoing(c, T.IsCommitted, todo)
    ensures Inv(Undo(w, d, c, T.IsCommitted, todo, accept))
  {
    assert Knows(w, PcOf(w, d)) && Knows(w, RollingBack(todo));
    var o := Requests(Reversal(w, c), accept);
    ReversalKeeps(w, d, Recording(Child(c, if o.Rejected? then Stuck else ReversalRequested), RollingBack(todo)), c, o);
  }

  /** On one nobody has requested yet: make the request, then look again. */
  lemma ActOnMissing(w: World, d: nat, c: Id, todo: set<Id>, accept: bool)
    requires Inv(w) && PcOf(w, d) == Undoing(c, T.NotFound, todo)
    ensures Inv(Undo(w, d, c, T.NotFound, todo, accept))
  {
    assert Knows(w, PcOf(w, d));
    TouchedIsRequested(w.stream, c);
    OutcomeKeeps(w, d, RollingBack(todo + {c}), c, Requests(Live(w, c), accept));
  }

  lemma ActKnows(w: World, c: Id, saw: T.OutcomeKind, todo: set<Id>, d: nat, accept: bool)
    requires Knows(w, Undoing(c, saw, todo)) && Answered(saw, Live(w, c)) && !saw.NotFound? && !saw.IsCommitted?
    ensures Undo(w, d, c, saw, todo, accept) == Goto(w, d, PcOf(Undo(w, d, c, saw, todo, accept), d))
    ensures Knows(w, PcOf(Undo(w, d, c, saw, todo, accept), d))
  {
    assert Knows(w, RollingBack(todo)) && Knows(w, RollingBack(todo + {c}));
  }

  lemma ActKeeps(w: World, d: nat, accept: bool)
    requires Inv(w) && PcOf(w, d).Undoing? && Answered(PcOf(w, d).saw, Live(w, PcOf(w, d).id))
    ensures Inv(Step(w, Act(d, accept)))
  {
    var pc := PcOf(w, d);
    match pc.saw
    case NotFound => ActOnMissing(w, d, pc.id, pc.todo, accept);
    case IsCommitted => ActOnCommitted(w, d, pc.id, pc.todo, accept);
    case _ =>
      ActKnows(w, pc.id, pc.saw, pc.todo, d, accept);
      OnlyPc(w, d, PcOf(Undo(w, d, pc.id, pc.saw, pc.todo, accept), d));
  }

  lemma MoveKeeps(w: World, c: Id, o: T.OutcomeKind)
    requires Inv(w) && !Live(w, c).NotFound? && T.Moves(Live(w, c), o)
    ensures Inv(w.(transfers := w.transfers[c := o]))
  {
    MovesIsSince(Live(w, c), o);
    var w' := w.(transfers := w.transfers[c := o]);
    assert Grows(w, w');
    StillKnows(w, w', PcOf(w, 0));
    forall e | e in w'.stream ensures Backed(w', e) { StillBacked(w, w', e); }
    Settle(w, w', 0);
  }

  lemma MoveReversalKeeps(w: World, c: Id, o: T.OutcomeKind)
    requires Inv(w) && !Reversal(w, c).NotFound? && T.Moves(Reversal(w, c), o)
    ensures Inv(w.(reversals := w.reversals[c := o]))
  {
    MovesIsSince(Reversal(w, c), o);
    var w' := w.(reversals := w.reversals[c := o]);
    assert Grows(w, w');
    StillKnows(w, w', PcOf(w, 0));
    forall e | e in w'.stream ensures Backed(w', e) { StillBacked(w, w', e); }
    Settle(w, w', 0);
  }

  lemma OpenKnows(w: World, transfers: map<Id, V.Child>, deps: Deps, accept: bool)
    ensures Knows(w, Opening(
      if V.Valid(transfers, deps) && accept then Initialized(Spec(transfers.Keys, deps)) else Rejected))
  {
    if V.Valid(transfers, deps) {
      var k :| k in transfers;
      assert transfers.Keys != {};
    }
  }

  lemma StepKeepsInv(w: World, a: Action)
    requires Inv(w) && Enabled(w, a)
    ensures Inv(Step(w, a))
  {
    match a
    case Open(d, transfers, deps, accept) => OpenKnows(w, transfers, deps, accept); OnlyPc(w, d, PcOf(Step(w, a), d));
    case AppendOpening(d) => OpeningKeeps(w, d, PcOf(w, d).event);
    case StartRollback(d) => OnlyPc(w, d, Recording(RollbackStarted, Idle));
    case Load(d) => BeginKnows(w); OnlyPc(w, d, Begin(w.stream));
    case ReadOutcome(d, c) => ReadKnows(w, PcOf(w, d), c); OnlyPc(w, d, AfterOutcome(PcOf(w, d), c, Live(w, c)));
    case Proceed(d, slice) => ProceedKnows(w, PcOf(w, d), slice); OnlyPc(w, d, AfterReconciling(PcOf(w, d), slice));
    case AppendSlice(d) =>
      var pc := PcOf(w, d);
      if |w.stream| == |pc.seen| { SliceKeeps(w, d, pc.seen, pc.slice); } else { OnlyPc(w, d, Idle); }
    case Request(d, c, accept) => RequestKeeps(w, d, c, accept);
    case ReadReversal(d, c) =>
      ReversalKnows(w, PcOf(w, d), c);
      OnlyPc(w, d, AfterReversal(PcOf(w, d), c, Reversal(w, c)));
    case ProceedRollback(d, slice) =>
      ProceedRollbackKnows(w, PcOf(w, d), slice);
      OnlyPc(w, d, AfterAwaiting(PcOf(w, d), slice));
    case Look(d, c) => OnlyPc(w, d, Undoing(c, Live(w, c), PcOf(w, d).todo - {c}));
    case Act(d, accept) => ActKeeps(w, d, accept);
    case Finish(d) => OnlyPc(w, d, if PcOf(w, d).Requesting? then PcOf(w, d).next else Idle);
    case LoadStep(d) => OnlyPc(w, d, PcOf(Step(w, a), d));
    case AppendStep(d) =>
      var pc := PcOf(w, d);
      if |w.stream| == |pc.seen| { StepKeeps(w, d, pc.seen, pc.event, pc.next); }
      else { OnlyPc(w, d, Recording(pc.event, pc.next)); }
    case Stop(d) => OnlyPc(w, d, Idle);
    case Move(c, to) => MoveKeeps(w, c, to);
    case MoveReversal(c, to) => MoveReversalKeeps(w, c, to);
  }

  lemma {:induction false} RunKeepsInv(ws: seq<World>, actions: seq<Action>, n: nat)
    requires IsRun(ws, actions) && n < |ws|
    ensures Inv(ws[n])
  {
    if n > 0 {
      RunKeepsInv(ws, actions, n - 1);
      StepKeepsInv(ws[n - 1], actions[n - 1]);
    }
  }

  lemma ReachableInv(w: World)
    requires Reachable(w)
    ensures Inv(w)
  {
    var ws, actions :| IsRun(ws, actions) && ws[|ws| - 1] == w;
    RunKeepsInv(ws, actions, |ws| - 1);
  }
}
