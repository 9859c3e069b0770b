/** A Transfer's own event stream: its folds, the lifecycle they walk, and what
    every lawful stream keeps (go/internal/transfer/saga.go, server.go). */
module TransferStream {
  import opened Common

  datatype Leg = Leg(source: Id, dest: Id, amount: nat, currency: string, ledgerId: Id)

  datatype Event =
    // The opening decision. A Reversal opens the same way (ReversalRequestAccepted).
    | Accepted(stage: bool) | RequestRejected
    // Saga outcomes.
    | Prepared(legs: seq<Leg>) | Staged | Pending | Committed | Failed
    | Cancelled | AcceptedCancelled | PreparedCancelled
    // Claim markers.
    | StagingStarted | CommittingStarted | CancellingStarted
    // Refused settlement commands, recorded on the stream.
    | ConfirmRejected | CancelRejected | PostRejected

  datatype Phase = Unknown | InAccepted | InPrepared | InStaged | InPending | InCommitted | InFailed | InCancelled

  type Stream = seq<Event>

  /** The state an event moves a Transfer to, if it moves it at all. */
  function PhaseOf(e: Event): Option<Phase> {
    match e
    case Accepted(_) => Some(InAccepted)
    case Prepared(_) => Some(InPrepared)
    case Staged => Some(InStaged)
    case Pending => Some(InPending)
    case Committed => Some(InCommitted)
    case Failed => Some(InFailed)
    case Cancelled => Some(InCancelled)
    case AcceptedCancelled => Some(InCancelled)
    case PreparedCancelled => Some(InCancelled)
    case _ => None
  }

  predicate Advances(e: Event) { PhaseOf(e).Some? }

  predicate IsMarker(e: Event) { e.StagingStarted? || e.CommittingStarted? || e.CancellingStarted? }

  predicate IsTerminal(p: Phase) { p.InCommitted? || p.InFailed? || p.InCancelled? }

  function Front(es: Stream): Stream requires es != [] { es[..|es| - 1] }
  function Last(es: Stream): Event requires es != [] { es[|es| - 1] }

  function CurrentPhase(es: Stream): Phase {
    if es == [] then Unknown
    else match PhaseOf(Last(es)) { case Some(p) => p case None => CurrentPhase(Front(es)) }
  }

  /** The index of the newest claim marker nothing has overtaken. */
  function LiveMarker(es: Stream): (r: Option<nat>)
    ensures r.Some? ==> r.value < |es| && IsMarker(es[r.value])
  {
    if es == [] then None
    else if IsMarker(Last(es)) then Some(|es| - 1)
    else if Advances(Last(es)) then None
    else LiveMarker(Front(es))
  }

  function LatestOutcome(es: Stream): Option<Event> {
    if es == [] then None
    else if Advances(Last(es)) then Some(Last(es))
    else LatestOutcome(Front(es))
  }

  /** The legs the first TransferPrepared recorded. */
  function LegsOf(es: Stream): Option<seq<Leg>> {
    if es == [] then None
    else if LegsOf(Front(es)).Some? then LegsOf(Front(es))
    else if Last(es).Prepared? then Some(Last(es).legs)
    else None
  }

  predicate StageRequested(es: Stream) { es != [] && es[0].Accepted? && es[0].stage }

  predicate RejectedRequest(es: Stream) { es != [] && es[0].RequestRejected? }

  /** The lifecycle: which outcome may be recorded from which state. */
  predicate Allowed(p: Phase, e: Event) {
    match p
    case InAccepted => e.AcceptedCancelled? || e.Failed?
    case InPrepared => e.Staged? || e.Committed? || e.Failed? || e.PreparedCancelled?
    case InStaged => e.Pending? || e.Cancelled?
    case InPending => e.Committed? || e.Failed? || e.Cancelled?
    case _ => false
  }

  datatype OutcomeKind = NotFound | Rejected | InFlight | IsStaged | IsPending | IsCommitted | IsFailed | IsCancelled

  /** The coarse view a Transaction has of its child. */
  function Outcome(es: Stream): OutcomeKind {
    if es == [] then NotFound
    else if RejectedRequest(es) then Rejected
    else match CurrentPhase(es)
      case InAccepted => InFlight
      case InPrepared => InFlight
      case InStaged => IsStaged
      case InPending => IsPending
      case InCommitted => IsCommitted
      case InFailed => IsFailed
      case InCancelled => IsCancelled
      case Unknown => NotFound
  }

  // ---- Lawful streams ------------------------------------------------------

  /** A live claim of another kind blocks this marker. */
  predicate ClaimFree(es: Stream, marker: Event) {
    LiveMarker(es).Some? ==> es[LiveMarker(es).value] == marker
  }

  predicate MayClaim(es: Stream, marker: Event) {
    match marker
    case StagingStarted => CurrentPhase(es).InPrepared? && StageRequested(es)
    case CommittingStarted => CurrentPhase(es).InPending? || (CurrentPhase(es).InPrepared? && !StageRequested(es))
    case CancellingStarted => CurrentPhase(es).InStaged? || CurrentPhase(es).InPending?
    case _ => false
  }

  /** What may come next on a stream: the whole lifecycle, claims included. */
  predicate MayFollow(es: Stream, e: Event) {
    match e
    case Accepted(_) => es == []
    case RequestRejected => es == []
    case Prepared(_) => CurrentPhase(es).InAccepted?
    case Staged => CurrentPhase(es).InPrepared? && StageRequested(es)
    case Pending => CurrentPhase(es).InStaged?
    case Committed => CurrentPhase(es).InPending? || (CurrentPhase(es).InPrepared? && !StageRequested(es))
    case Failed => CurrentPhase(es).InAccepted? || CurrentPhase(es).InPrepared? || CurrentPhase(es).InPending?
    case Cancelled => CurrentPhase(es).InStaged? || CurrentPhase(es).InPending?
    case AcceptedCancelled => CurrentPhase(es).InAccepted?
    case PreparedCancelled => false
    case ConfirmRejected => es != [] && !CurrentPhase(es).InStaged? && !CurrentPhase(es).InPending?
    case CancelRejected =>
      && es != [] && !CurrentPhase(es).InStaged? && !CurrentPhase(es).InPending?
      && !CurrentPhase(es).InCancelled?
    case PostRejected => es != [] && !CurrentPhase(es).InPending? && !CurrentPhase(es).InCommitted?
    case _ => MayClaim(es, e) && ClaimFree(es, e)
  }

  ghost predicate Lawful(es: Stream) {
    forall i :: 0 <= i < |es| ==> MayFollow(es[..i], es[i])
  }

  /** A stored stream: lawful, and never Prepared without a claim on what is
      next, since both are written together. */
  ghost predicate Stored(es: Stream) {
    Lawful(es) && (CurrentPhase(es).InPrepared? ==> LiveMarker(es).Some?)
  }

  lemma LawfulSnoc(es: Stream, e: Event)
    requires Lawful(es) && MayFollow(es, e)
    ensures Lawful(es + [e])
  {
    var es' := es + [e];
    forall i | 0 <= i < |es'| ensures MayFollow(es'[..i], es'[i]) {
      if i < |es| { assert es'[..i] == es[..i]; } else { assert es'[..i] == es; }
    }
  }

  lemma LawfulPrefix(es: Stream, n: nat)
    requires Lawful(es) && n <= |es|
    ensures Lawful(es[..n])
  {
    forall i | 0 <= i < n ensures MayFollow(es[..n][..i], es[..n][i]) {
      assert es[..n][..i] == es[..i];
    }
  }

  /** One more event, fold by fold. */
  lemma Snoc(es: Stream, e: Event)
    ensures CurrentPhase(es + [e]) == if Advances(e) then PhaseOf(e).value else CurrentPhase(es)
    ensures LiveMarker(es + [e]) == if IsMarker(e) then Some(|es|) else if Advances(e) then None else LiveMarker(es)
    ensures LatestOutcome(es + [e]) == if Advances(e) then Some(e) else LatestOutcome(es)
    ensures LegsOf(es + [e]) == if LegsOf(es).Some? then LegsOf(es) else if e.Prepared? then Some(e.legs) else None
    ensures es != [] ==> StageRequested(es + [e]) == StageRequested(es)
  {
    assert Front(es + [e]) == es && Last(es + [e]) == e;
  }

  lemma NothingAfterTerminal(es: Stream, e: Event)
    requires IsTerminal(CurrentPhase(es)) && MayFollow(es, e)
    ensures !Advances(e) && !IsMarker(e)
  {
  }

  /** Once terminal, always so: nothing that moves or claims a Transfer follows
      a terminal outcome. */
  lemma {:induction false} TerminalIsFinal(es: Stream, i: nat, j: nat)
    requires Lawful(es) && i < j <= |es| && Advances(es[i]) && IsTerminal(PhaseOf(es[i]).value)
    ensures CurrentPhase(es[..j]) == PhaseOf(es[i]).value
    ensures j < |es| ==> !Advances(es[j]) && !IsMarker(es[j])
  {
    var before, e := es[..j - 1], es[j - 1];
    assert es[..j] == before + [e];
    Snoc(before, e);
    if j > i + 1 { TerminalIsFinal(es, i, j - 1); }
    if j < |es| { NothingAfterTerminal(es[..j], es[j]); }
  }

  /** Every outcome that may follow is one recordOutcome's own table allows. */
  lemma LawfulOutcomeIsAllowed(es: Stream, e: Event)
    requires MayFollow(es, e) && Advances(e) && !e.Accepted? && !e.Prepared?
    ensures Allowed(CurrentPhase(es), e)
  {
  }

  /** Claims between two outcomes are all of one transition. */
  lemma {:induction false} ClaimsAgree(es: Stream, i: nat, j: nat)
    requires Lawful(es) && i < j < |es| && IsMarker(es[i]) && IsMarker(es[j])
    requires forall k :: i < k < j ==> !Advances(es[k])
    ensures es[i] == es[j]
  {
    LiveSince(es, i, j);
    assert MayFollow(es[..j], es[j]);
    var m := LiveMarker(es[..j]).value;
    if m > i { ClaimsAgree(es, i, m); }
  }

  /** A marker nothing has overtaken stays live, or a newer one does. */
  lemma {:induction false} LiveSince(es: Stream, i: nat, j: nat)
    requires i < j <= |es| && IsMarker(es[i]) && forall k :: i < k < j ==> !Advances(es[k])
    ensures LiveMarker(es[..j]).Some? && i <= LiveMarker(es[..j]).value < j
    ensures es[..j][LiveMarker(es[..j]).value] == es[LiveMarker(es[..j]).value]
  {
    if j > i + 1 { LiveSince(es, i, j - 1); }
    assert es[..j] == es[..j - 1] + [es[j - 1]];
    Snoc(es[..j - 1], es[j - 1]);
  }

  /** A stream that opened with a refusal never starts a saga. */
  lemma {:induction false} RejectedStaysRejected(es: Stream)
    requires Lawful(es) && RejectedRequest(es)
    ensures CurrentPhase(es) == Unknown && LegsOf(es).None? && LiveMarker(es).None?
    ensures forall e :: MayFollow(es, e) ==> !Advances(e) && !IsMarker(e)
  {
    var n := |es| - 1;
    assert es == es[..n] + [es[n]];
    assert MayFollow(es[..n], es[n]);
    Snoc(es[..n], es[n]);
    if n > 0 {
      LawfulPrefix(es, n);
      RejectedStaysRejected(es[..n]);
    }
  }

  /** Any other lawful stream opened with an acceptance and is in a real state. */
  lemma {:induction false} AcceptedIsKnown(es: Stream)
    requires Lawful(es) && es != [] && !RejectedRequest(es)
    ensures es[0].Accepted? && CurrentPhase(es) != Unknown
  {
    var n := |es| - 1;
    assert MayFollow(es[..n], es[n]);
    if n > 0 {
      LawfulPrefix(es, n);
      AcceptedIsKnown(es[..n]);
    } else {
      assert es[..n] == [];
    }
  }

  /** The moves a Transaction may see a child make. */
  predicate Moves(o: OutcomeKind, o': OutcomeKind) {
    || o == o'
    || (o.NotFound? && (o'.InFlight? || o'.Rejected?))
    || (o.InFlight? && (o'.IsStaged? || o'.IsCommitted? || o'.IsFailed? || o'.IsCancelled?))
    || (o.IsStaged? && (o'.IsPending? || o'.IsCancelled?))
    || (o.IsPending? && (o'.IsCommitted? || o'.IsFailed? || o'.IsCancelled?))
  }

  /** Every lawful event moves the coarse outcome along its own lifecycle. */
  lemma LawfulEventMovesOutcome(es: Stream, e: Event)
    requires Lawful(es) && MayFollow(es, e)
    ensures Moves(Outcome(es), Outcome(es + [e]))
  {
    Snoc(es, e);
    LawfulSnoc(es, e);
    if es != [] && RejectedRequest(es) { RejectedStaysRejected(es); }
    if es != [] && !RejectedRequest(es) { AcceptedIsKnown(es); }
  }
}
