/** A Transaction's own event stream: its folds, what they decide next, and what
    every lawful stream keeps (go/internal/transaction/saga.go). */
module TransactionStream {
  import opened Common
  import opened Dag
  import V = ValidateDag

  /** What TransactionInitialized records: the children and their dependencies. */
  datatype Spec = Spec(nodes: set<Id>, deps: Deps)

  /** The bookkeeping facts about one child; the last one is its state. `Done`,
      `Undone` and `Stuck` are the source's Completed, RolledBack and
      RollbackFailed within a Transaction. */
  datatype Fact = Requested | Done | Failed | ReversalRequested | Undone | Stuck

  datatype Event =
    | Initialized(spec: Spec) | Rejected | Started | RollbackStarted
    | Completed | RolledBack | RollbackFailed
    | Child(id: Id, fact: Fact)

  datatype Top =
    | NoState | IsInitialized | IsRejected | IsStarted | IsRollingBack
    | IsCompleted | IsRolledBack | IsRollbackFailed

  type Stream = seq<Event>

  function TopOf(e: Event): Option<Top> {
    match e
    case Initialized(_) => Some(IsInitialized)
    case Rejected => Some(IsRejected)
    case Started => Some(IsStarted)
    case RollbackStarted => Some(IsRollingBack)
    case Completed => Some(IsCompleted)
    case RolledBack => Some(IsRolledBack)
    case RollbackFailed => Some(IsRollbackFailed)
    case Child(_, _) => None
  }

  function TopLevelState(es: Stream): Top {
    if es == [] then NoState
    else match TopOf(es[|es| - 1]) { case Some(t) => t case None => TopLevelState(es[..|es| - 1]) }
  }

  type Children = map<Id, Fact>

  /** Each touched child's last fact. */
  function ChildStates(es: Stream): Children {
    if es == [] then map[]
    else
      var cs, e := ChildStates(es[..|es| - 1]), es[|es| - 1];
      if e.Child? then cs[e.id := e.fact] else cs
  }

  /** The recorded plan; no state that reads it is reachable without one. */
  function SpecOf(es: Stream): Spec {
    if es != [] && es[0].Initialized? then es[0].spec else Spec({}, map[])
  }

  function With(cs: Children, f: Fact): set<Id> { set id | id in cs && cs[id] == f }

  predicate AllDone(nodes: set<Id>, cs: Children) { forall id :: id in nodes ==> id in cs && cs[id].Done? }

  /** Children a rollback needs nothing more from. */
  function Resolved(cs: Children): set<Id> { With(cs, Undone) + With(cs, Failed) }

  /** planRollback's candidates: children ready to be rolled back, the stuck ones left alone. */
  function Candidates(spec: Spec, cs: Children): set<Id> {
    ReadyToRollback(spec.nodes, spec.deps, cs.Keys, Resolved(cs), With(cs, ReversalRequested)) - With(cs, Stuck)
  }

  /** The Transaction-level step the events alone decide next. */
  function Consequence(es: Stream): Option<Event> {
    var cs, spec := ChildStates(es), SpecOf(es);
    match TopLevelState(es)
    case IsStarted =>
      if With(cs, Failed) != {} then Some(RollbackStarted)
      else if AllDone(spec.nodes, cs) then Some(Completed)
      else None
    case IsRollingBack =>
      if Candidates(spec, cs) != {} || With(cs, ReversalRequested) != {} then None
      else if With(cs, Stuck) != {} then Some(RollbackFailed)
      else Some(RolledBack)
    case _ => None
  }

  /** Whether a step decided from an older fold may still be recorded. */
  predicate StillDecidable(es: Stream, e: Event) {
    match e
    case Child(c, f) =>
      if f.Done? || f.Failed? then TopLevelState(es).IsStarted? && c in ChildStates(es) && ChildStates(es)[c].Requested?
      else !f.Requested? && TopLevelState(es).IsRollingBack?
    case RollbackStarted => TopLevelState(es).IsInitialized? || TopLevelState(es).IsStarted?
    case Completed => Consequence(es) == Some(e)
    case RolledBack => Consequence(es) == Some(e)
    case RollbackFailed => Consequence(es) == Some(e)
    case _ => false
  }

  /** How far along the lifecycle a state is. */
  function Level(t: Top): nat {
    match t
    case NoState => 0
    case IsInitialized => 1
    case IsStarted => 2
    case IsRollingBack => 3
    case _ => 4
  }

  predicate IsTerminal(t: Top) { Level(t) == 4 }

  lemma Snoc(es: Stream, e: Event)
    ensures TopLevelState(es + [e]) == if TopOf(e).Some? then TopOf(e).value else TopLevelState(es)
    ensures ChildStates(es + [e]) == if e.Child? then ChildStates(es)[e.id := e.fact] else ChildStates(es)
    ensures es != [] ==> SpecOf(es + [e]) == SpecOf(es)
  {
    assert (es + [e])[..|es|] == es;
  }

  /** Everything the events decide from here on, until they decide no more. */
  function Decided(es: Stream): (out: seq<Event>)
    ensures forall i :: 0 <= i < |out| ==> !out[i].Child?
    decreases 4 - Level(TopLevelState(es))
  {
    match Consequence(es)
    case None => []
    case Some(e) => Snoc(es, e); [e] + Decided(es + [e])
  }

  lemma DecidedStep(es: Stream, e: Event)
    requires Consequence(es) == Some(e)
    ensures Decided(es) == [e] + Decided(es + [e]) && Level(TopLevelState(es)) < Level(TopLevelState(es + [e])) <= 4
  {
    Snoc(es, e);
  }

  /** appendSagaStep's loop: a child's outcome, with all that it decides. */
  method PendingFor(es: Stream, e: Event) returns (pending: seq<Event>)
    requires e.Child?
    ensures pending == [e] + Decided(es + [e]) && Consequence(es + pending).None?
  {
    pending := [e];
    var after := es + [e];
    var next := Consequence(after);
    while next.Some?
      invariant after == es + pending && next == Consequence(after)
      invariant [e] + Decided(es + [e]) == pending + Decided(after)
      decreases 4 - Level(TopLevelState(after))
    {
      DecidedStep(after, next.value);
      pending := pending + [next.value];
      after := after + [next.value];
      next := Consequence(after);
    }
  }

  /** What appendSagaStep appends to the stream it loaded: nothing when the fact
      is there already or no longer holds. */
  function Appends(es: Stream, e: Event): seq<Event> {
    if e in es || !StillDecidable(es, e) then []
    else if e.Child? then [e] + Decided(es + [e])
    else [e]
  }

  // ---- Lawful streams ------------------------------------------------------

  ghost predicate ValidSpec(s: Spec) { s.nodes != {} && V.NoDangling(s.nodes, s.deps) && Acyclic(s.deps) }

  /** A rollback record, or a failure, says a child is resolved. */
  predicate ResolvedIn(es: Stream, c: Id) { Child(c, Undone) in es || Child(c, Failed) in es }

  /** Every touched direct dependent of `c` is resolved on the stream. */
  predicate Free(es: Stream, c: Id) {
    forall d :: d in SpecOf(es).deps && d in ChildStates(es) && c in SpecOf(es).deps[d] ==> ResolvedIn(es, d)
  }

  predicate IsUndoing(f: Fact) { f.ReversalRequested? || f.Undone? || f.Stuck? }

  /** The lifecycle: which state each event may be recorded in. */
  predicate Gate(t: Top, e: Event) {
    match e
    case Initialized(_) => t.NoState?
    case Rejected => t.NoState?
    case Started => t.IsInitialized?
    case RollbackStarted => t.IsInitialized? || t.IsStarted?
    case Completed => t.IsStarted?
    case RolledBack => t.IsRollingBack?
    case RollbackFailed => t.IsRollingBack?
    case Child(_, f) => if IsUndoing(f) then t.IsRollingBack? else t.IsStarted?
  }

  /** A child is requested once its parents are done, has one outcome, and is
      undone once its dependents are resolved. */
  ghost predicate MayRecord(es: Stream, c: Id, f: Fact) {
    if f.Requested? then
      && c in SpecOf(es).nodes && c !in ChildStates(es)
      && ParentsDone(SpecOf(es).deps, With(ChildStates(es), Done), c)
    else
      && c in ChildStates(es) && Child(c, f) !in es
      && (f.Done? || f.Failed? ==> ChildStates(es)[c].Requested?)
      && (IsUndoing(f) ==> Free(es, c))
      && (f.ReversalRequested? ==> Child(c, Undone) !in es)
  }

  ghost predicate MayFollow(es: Stream, e: Event) {
    && Gate(TopLevelState(es), e)
    && match e
       case Initialized(spec) => es == [] && ValidSpec(spec)
       case Rejected => es == []
       case Started => true
       case RollbackStarted => true
       case Child(c, f) => MayRecord(es, c, f)
       case _ => Consequence(es) == Some(e)
  }

  ghost predicate Lawful(es: Stream) {
    es == [] || (Lawful(es[..|es| - 1]) && MayFollow(es[..|es| - 1], es[|es| - 1]))
  }

  /** A stored stream: lawful, and while Started it decides nothing by itself. */
  ghost predicate Stored(es: Stream) { Lawful(es) && (TopLevelState(es).IsStarted? ==> Consequence(es).None?) }

  lemma LawfulSnoc(es: Stream, e: Event)
    requires Lawful(es) && MayFollow(es, e)
    ensures Lawful(es + [e])
  {
    assert (es + [e])[..|es|] == es;
  }

  /** Every event of a lawful stream could follow those before it. */
  lemma {:induction false} LawfulAt(es: Stream, n: nat)
    requires Lawful(es) && n <= |es|
    ensures Lawful(es[..n]) && (n < |es| ==> MayFollow(es[..n], es[n]))
  {
    if n == |es| {
      assert es[..n] == es;
    } else if n < |es| - 1 {
      LawfulAt(es[..|es| - 1], n);
      assert es[..|es| - 1][..n] == es[..n];
    }
  }

  // ---- Shape ---------------------------------------------------------------

  /** A stream in any running state opened with a valid plan. */
  lemma {:induction false} OpensWithSpec(es: Stream)
    requires Lawful(es) && es != []
    ensures TopLevelState(es) != NoState
    ensures TopLevelState(es).IsRejected? <==> es == [Rejected]
    ensures es != [Rejected] ==> es[0].Initialized? && ValidSpec(SpecOf(es))
  {
    var n := |es| - 1;
    assert es == es[..n] + [es[n]];
    Snoc(es[..n], es[n]);
    if n > 0 { OpensWithSpec(es[..n]); }
  }

  /** No top-level event is behind the state it led to. */
  lemma {:induction false} LevelsRise(es: Stream, e: Event)
    requires Lawful(es) && e in es && TopOf(e).Some?
    ensures Level(TopOf(e).value) <= Level(TopLevelState(es))
  {
    var n := |es| - 1;
    assert es == es[..n] + [es[n]];
    Snoc(es[..n], es[n]);
    if es[n] != e { LevelsRise(es[..n], e); }
  }

  /** Children are touched only by being requested, and are named by the plan. */
  lemma {:induction false} TouchedIsRequested(es: Stream, c: Id)
    requires Lawful(es)
    ensures c in ChildStates(es) <==> Child(c, Requested) in es
    ensures c in ChildStates(es) ==> c in SpecOf(es).nodes
    ensures forall f :: Child(c, f) in es ==> c in ChildStates(es)
  {
    if es != [] {
      var n := |es| - 1;
      assert es == es[..n] + [es[n]];
      Snoc(es[..n], es[n]);
      TouchedIsRequested(es[..n], c);
      assert n == 0 ==> es[..n] == [];
    }
  }

  /** No event is recorded twice. */
  lemma NothingTwice(es: Stream, e: Event)
    requires Lawful(es) && MayFollow(es, e)
    ensures e !in es
  {
    if e in es {
      if TopOf(e).Some? { LevelsRise(es, e); } else { TouchedIsRequested(es, e.id); }
    }
  }

  /** Nothing is recorded after a terminal state. */
  lemma TerminalIsFinal(es: Stream, e: Event)
    requires Lawful(es) && IsTerminal(TopLevelState(es))
    ensures !MayFollow(es, e)
  {
    assert es != [];
  }

  /** Children are touched only once Started, and undone only once the rollback
      has started. */
  lemma {:induction false} ForwardOnly(es: Stream, e: Event)
    requires Lawful(es) && e in es && e.Child?
    ensures Level(TopLevelState(es)) >= 2
    ensures IsUndoing(e.fact) ==> RollbackStarted in es && Level(TopLevelState(es)) >= 3
  {
    var n := |es| - 1;
    assert es == es[..n] + [es[n]];
    Snoc(es[..n], es[n]);
    if es[n] == e { RollingBackIsStarted(es[..n]); } else { ForwardOnly(es[..n], e); }
  }

  lemma {:induction false} RollingBackIsStarted(es: Stream)
    requires Lawful(es)
    ensures TopLevelState(es).IsRollingBack? ==> RollbackStarted in es
    ensures TopLevelState(es).IsStarted? ==> Started in es && RollbackStarted !in es
  {
    if es != [] {
      var n := |es| - 1;
      assert es == es[..n] + [es[n]];
      Snoc(es[..n], es[n]);
      RollingBackIsStarted(es[..n]);
      if RollbackStarted in es[..n] { LevelsRise(es[..n], RollbackStarted); }
    }
  }

  /** While a child is merely requested nothing else is said of it, and no child
      both completes and fails. */
  lemma {:induction false} OneOutcome(es: Stream, c: Id)
    requires Lawful(es) && c in ChildStates(es)
    ensures ChildStates(es)[c].Requested? ==> forall f :: Child(c, f) in es ==> f.Requested?
    ensures Child(c, ChildStates(es)[c]) in es
    ensures !(Child(c, Done) in es && Child(c, Failed) in es)
  {
    var n := |es| - 1;
    assert es == es[..n] + [es[n]];
    Snoc(es[..n], es[n]);
    TouchedIsRequested(es[..n], c);
    if c in ChildStates(es[..n]) { OneOutcome(es[..n], c); }
  }

  /** Before a rollback a touched child is in flight, done or failed. */
  lemma StartedChildren(es: Stream, c: Id)
    requires Lawful(es) && TopLevelState(es).IsStarted? && c in ChildStates(es)
    ensures !IsUndoing(ChildStates(es)[c])
  {
    OneOutcome(es, c);
    ForwardOnly(es, Child(c, ChildStates(es)[c]));
  }

  /** The top-level events, in order. */
  function Spine(es: Stream): (s: seq<Event>)
    ensures forall i :: 0 <= i < |s| ==> !s[i].Child?
  {
    if es == [] then []
    else var s := Spine(es[..|es| - 1]); if es[|es| - 1].Child? then s else s + [es[|es| - 1]]
  }

  function TopOfSpine(s: seq<Event>): Top
    requires forall i :: 0 <= i < |s| ==> !s[i].Child?
  {
    if s == [] then NoState else TopOf(s[|s| - 1]).value
  }

  /** Which top-level event directly follows which. */
  predicate Next(e: Event, e': Event) {
    match e
    case Initialized(_) => e'.Started? || e'.RollbackStarted?
    case Started => e'.Completed? || e'.RollbackStarted?
    case RollbackStarted => e'.RolledBack? || e'.RollbackFailed?
    case _ => false
  }

  /** Initialized, maybe Started, then Completed, or a rollback and how it
      concluded; or a rejection alone. A rollback can fail only once Started. */
  predicate WellShaped(s: seq<Event>) {
    && (s != [] ==> s[0].Initialized? || s[0].Rejected?)
    && (forall i :: 0 < i < |s| ==> Next(s[i - 1], s[i]))
    && (RollbackFailed in s ==> Started in s)
  }

  lemma {:induction false} SpineEndsAtTop(es: Stream)
    ensures TopLevelState(es) == TopOfSpine(Spine(es))
  {
    if es != [] { SpineEndsAtTop(es[..|es| - 1]); }
  }

  lemma SpineSnoc(s: seq<Event>, t: Top, e: Event)
    requires WellShaped(s) && (forall i :: 0 <= i < |s| ==> !s[i].Child?) && t == TopOfSpine(s)
    requires Gate(t, e) && !e.Child? && (e.RollbackFailed? ==> Started in s)
    ensures WellShaped(s + [e])
  {
  }

  /** A stuck child was requested, so its Transaction had started. */
  lemma StuckWasStarted(es: Stream)
    requires Lawful(es) && Consequence(es) == Some(RollbackFailed)
    ensures Started in es
  {
    var c :| c in With(ChildStates(es), Stuck);
    TouchedIsRequested(es, c);
    RequestedIsStarted(es, c);
  }

  lemma {:induction false} RequestedIsStarted(es: Stream, c: Id)
    requires Lawful(es) && Child(c, Requested) in es
    ensures Started in es
  {
    var n := |es| - 1;
    assert es == es[..n] + [es[n]];
    if es[n] == Child(c, Requested) { RollingBackIsStarted(es[..n]); } else { RequestedIsStarted(es[..n], c); }
  }

  lemma {:induction false} InSpine(es: Stream, e: Event)
    requires e in es && !e.Child?
    ensures e in Spine(es)
  {
    var n := |es| - 1;
    assert es == es[..n] + [es[n]];
    if es[n] != e { InSpine(es[..n], e); }
  }

  lemma {:induction false} SpineIsWellShaped(es: Stream)
    requires Lawful(es)
    ensures WellShaped(Spine(es))
  {
    if es != [] {
      var n := |es| - 1;
      assert es == es[..n] + [es[n]];
      SpineIsWellShaped(es[..n]);
      SpineEndsAtTop(es[..n]);
      if !es[n].Child? {
        if es[n].RollbackFailed? {
          StuckWasStarted(es[..n]);
          InSpine(es[..n], Started);
        }
        SpineSnoc(Spine(es[..n]), TopLevelState(es[..n]), es[n]);
      }
    }
  }
}
