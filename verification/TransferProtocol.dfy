/** One Transfer driven by any number of concurrent callers: each loads the
    stream, decides, claims by compare-and-swap append, submits chains of legs
    to the ledger and records an outcome. A driver may stop for good at any
    point, and any live claim may be judged stale
    (go/internal/transfer/saga.go, server.go). */
module TransferProtocol {
  import opened Common
  import L = Ledger
  import LI = LedgerInvariant
  import opened TransferStream

  // ---- Legs as ledger transfers --------------------------------------------

  /** The four batches a saga step submits: reservations, posts of them, direct
      postings of a narrow immediate Transfer, and voids. */
  datatype Batch = Reserve | Post | Direct | Void

  function PostId(leg: Leg): Id { DetId(leg.ledgerId, ":post") }
  function VoidId(leg: Leg): Id { DetId(leg.ledgerId, ":void") }

  function Entry(batch: Batch, leg: Leg, linked: bool): L.Transfer {
    match batch
    case Reserve => L.Transfer(leg.ledgerId, leg.source, leg.dest, leg.amount, leg.currency, linked, L.Pending, NoId)
    case Direct => L.Transfer(leg.ledgerId, leg.source, leg.dest, leg.amount, leg.currency, linked, L.Regular, NoId)
    case Post => L.Transfer(PostId(leg), leg.source, leg.dest, leg.amount, leg.currency, linked, L.PostPending,
        leg.ledgerId)
    case Void => L.Transfer(VoidId(leg), leg.source, leg.dest, leg.amount, leg.currency, linked, L.VoidPending,
        leg.ledgerId)
  }

  /** Where the chain starting at leg `done` ends. */
  function ChainEnd(legs: seq<Leg>, done: nat): nat
    requires done <= |legs|
  {
    if done + L.BatchMax <= |legs| then done + L.BatchMax else |legs|
  }

  /** The chain starting at leg `done`: at most one ledger request, linked
      throughout so that it applies all or nothing. */
  function Chain(batch: Batch, legs: seq<Leg>, done: nat): (run: seq<L.Transfer>)
    requires done < |legs|
    ensures |run| == ChainEnd(legs, done) - done
    ensures forall i :: 0 <= i < |run| ==> run[i] == Entry(batch, legs[done + i], i < |run| - 1)
  {
    var n := ChainEnd(legs, done) - done;
    seq(n, i requires 0 <= i < n => Entry(batch, legs[done + i], i < n - 1))
  }

  // ---- Drivers -------------------------------------------------------------

  datatype Job = Stage | Commit(posting: bool) | Cancel

  function Marker(job: Job): Event {
    match job case Stage => StagingStarted case Commit(_) => CommittingStarted case Cancel => CancellingStarted
  }

  /** A claim held at index `at` of the stream, with the legs read back. */
  datatype Claim = Claim(job: Job, at: nat, legs: seq<Leg>)

  /** What a load decided to append, compare-and-swapped onto what it saw. */
  datatype Decision =
    | Open(accepted: bool, stage: bool)
    | Prepare(plan: seq<Leg>)
    | FailUnprepared
    | ClaimFor(job: Job)
    | CancelEarly(event: Event)
    | Refuse(event: Event)
    | Conclude(event: Event, holder: Option<Claim>)

  datatype Pc =
    | Idle
    | Trying(seen: Stream, decision: Decision)
    | Check(claim: Claim, next: Pc)
    | Submitting(claim: Claim, batch: Batch, done: nat)
    | Recording(event: Event, holder: Option<Claim>)

  /** The first batch a claimed job submits. */
  function FirstBatch(job: Job, legs: seq<Leg>): Batch {
    match job
    case Stage => Reserve
    case Commit(posting) => if posting then Post else if |legs| <= L.BatchMax then Direct else Reserve
    case Cancel => Void
  }

  function Begin(claim: Claim): Pc { Check(claim, Submitting(claim, FirstBatch(claim.job, claim.legs), 0)) }

  /** Where a job goes once a batch is wholly submitted. */
  function AfterBatch(claim: Claim, batch: Batch): Pc {
    match batch
    case Reserve =>
      Check(claim, if claim.job.Stage? then Recording(Staged, Some(claim)) else Submitting(claim, Post, 0))
    case Post => Check(claim, Recording(Committed, Some(claim)))
    case Direct => Check(claim, Recording(Committed, Some(claim)))
    case Void => Check(claim, Recording(Cancelled, Some(claim)))
  }

  /** Where a job goes when the ledger refuses a chain: compensate, unless money
      has already moved or the batch was a void, which are errors. */
  function OnRefusal(claim: Claim, batch: Batch, done: nat): Pc {
    if batch == Reserve || (batch != Void && done == 0) then Check(claim, Recording(Failed, Some(claim))) else Idle
  }

  function PreparedJob(es: Stream): Job { if StageRequested(es) then Stage else Commit(false) }

  /** What a decision appends. */
  function Adds(seen: Stream, d: Decision): seq<Event> {
    match d
    case Open(accepted, stage) => [if accepted then Accepted(stage) else RequestRejected]
    case Prepare(plan) => [Prepared(plan), Marker(PreparedJob(seen))]
    case FailUnprepared => [Failed]
    case ClaimFor(job) => [Marker(job)]
    case CancelEarly(e) => [e]
    case Refuse(e) => [e]
    case Conclude(e, _) => [e]
  }

  /** Where a driver goes once its append has landed. */
  function Won(seen: Stream, d: Decision): Pc {
    match d
    case Prepare(plan) => Begin(Claim(PreparedJob(seen), |seen| + 1, plan))
    case ClaimFor(job) => if LegsOf(seen).Some? then Begin(Claim(job, |seen|, LegsOf(seen).value)) else Idle
    case _ => Idle
  }

  /** Where it goes when another write landed first: an outcome is rebuilt and
      tried again, everything else is decided afresh. */
  function Lost(d: Decision): Pc { if d.Conclude? then Recording(d.event, d.holder) else Idle }

  // ---- Decisions -----------------------------------------------------------

  /** A fresh plan: every leg under a UUID this Transfer drew for it. */
  predicate PlanOf(me: nat, legs: seq<Leg>) {
    && (forall i :: 0 <= i < |legs| ==> legs[i].ledgerId.Uuid? && legs[i].ledgerId.drawer == me)
    && (forall i, j :: 0 <= i < j < |legs| ==> legs[i].ledgerId != legs[j].ledgerId)
  }

  /** claimForDispatch's gate: the step is due, and no live claim stands in the
      way, or one of the same transition that was judged stale. */
  predicate Claimable(es: Stream, job: Job) {
    && LegsOf(es).Some? && ClaimFree(es, Marker(job))
    && match job
       case Stage => CurrentPhase(es).InPrepared? && StageRequested(es)
       case Commit(posting) =>
         if posting then CurrentPhase(es).InPending? else CurrentPhase(es).InPrepared? && !StageRequested(es)
       case Cancel => CurrentPhase(es).InStaged? || CurrentPhase(es).InPending?
  }

  /** What an idle caller may decide on the stream it has just loaded. */
  predicate Decides(me: nat, es: Stream, d: Decision) {
    match d
    case Open(_, _) => es == []
    case Prepare(plan) => CurrentPhase(es).InAccepted? && PlanOf(me, plan)
    case FailUnprepared => CurrentPhase(es).InAccepted?
    case ClaimFor(job) => Claimable(es, job)
    case CancelEarly(e) =>
      || (e.AcceptedCancelled? && CurrentPhase(es).InAccepted?)
      || (e.PreparedCancelled? && CurrentPhase(es).InPrepared? && LiveMarker(es).None?)
    case Refuse(e) => (e.ConfirmRejected? || e.CancelRejected? || e.PostRejected?) && MayFollow(es, e)
    case Conclude(_, _) => false
  }

  // ---- Steps ---------------------------------------------------------------

  datatype World = World(stream: Stream, ledger: L.State, drivers: map<nat, Pc>)

  function PcOf(w: World, d: nat): Pc { if d in w.drivers then w.drivers[d] else Idle }

  function Goto(w: World, d: nat, pc: Pc): World { w.(drivers := w.drivers[d := pc]) }

  predicate HoldsClaim(es: Stream, at: nat) { LiveMarker(es) == Some(at) }

  datatype Action =
    | Decide(d: nat, decision: Decision)   // an idle caller loads and decides
    | Confirm(d: nat)                      // ConfirmStagedTransfer found it staged
    | LoadOutcome(d: nat)                  // recordOutcome's load
    | Append(d: nat)                       // the compare-and-swap itself
    | Contend(d: nat)                      // the append lost on a Wallet or Token it also writes
    | RequireClaim(d: nat)                 // is my claim still the live one?
    | SubmitChain(d: nat)                  // one ledger request
    | Outside(run: seq<L.Transfer>)        // anyone else's ledger run
    | OpenAccount(op: LI.Op)               // anyone opens an account

  /** Nobody else draws this Transfer's ids. */
  predicate Foreign(me: nat, run: seq<L.Transfer>) {
    && LI.DistinctIds(run)
    && forall i :: 0 <= i < |run| ==> Drawer(run[i].id) != Some(me) && Drawer(run[i].pendingId) != Some(me)
  }

  predicate Enabled(me: nat, w: World, a: Action) {
    match a
    case Decide(d, decision) => PcOf(w, d).Idle? && Decides(me, w.stream, decision)
    case Confirm(d) => PcOf(w, d).Idle? && CurrentPhase(w.stream).InStaged?
    case LoadOutcome(d) => PcOf(w, d).Recording?
    case Append(d) => PcOf(w, d).Trying?
    case Contend(d) => PcOf(w, d).Trying?
    case RequireClaim(d) => PcOf(w, d).Check?
    case SubmitChain(d) => PcOf(w, d).Submitting?
    case Outside(run) => Foreign(me, run)
    case OpenAccount(op) => op.OpenAccount?
  }

  /** recordOutcome: converge, refuse, or go on to append. */
  function Reload(es: Stream, e: Event, holder: Option<Claim>): Pc {
    if LatestOutcome(es) == Some(e) || !Allowed(CurrentPhase(es), e) then Idle
    else Trying(es, Conclude(e, holder))
  }

  function SubmitNext(w: World, d: nat, claim: Claim, batch: Batch, done: nat): World {
    if done >= |claim.legs| then Goto(w, d, AfterBatch(claim, batch))
    else
      var run := Chain(batch, claim.legs, done);
      Goto(w, d, if L.Accepted(w.ledger, run) then Submitting(claim, batch, ChainEnd(claim.legs, done))
                 else OnRefusal(claim, batch, done))
      .(ledger := L.ApplyRun(w.ledger, run))
  }

  function Step(me: nat, w: World, a: Action): World
    requires Enabled(me, w, a)
  {
    match a
    case Decide(d, decision) => Goto(w, d, Trying(w.stream, decision))
    case Confirm(d) => Goto(w, d, Recording(Pending, None))
    case LoadOutcome(d) => var pc := PcOf(w, d); Goto(w, d, Reload(w.stream, pc.event, pc.holder))
    case Append(d) =>
      var pc := PcOf(w, d);
      if |w.stream| == |pc.seen|
      then Goto(w, d, Won(pc.seen, pc.decision)).(stream := w.stream + Adds(pc.seen, pc.decision))
      else Goto(w, d, Lost(pc.decision))
    case Contend(d) => Goto(w, d, Lost(PcOf(w, d).decision))
    case RequireClaim(d) =>
      var pc := PcOf(w, d);
      Goto(w, d, if HoldsClaim(w.stream, pc.claim.at) then pc.next else Idle)
    case SubmitChain(d) => var pc := PcOf(w, d); SubmitNext(w, d, pc.claim, pc.batch, pc.done)
    case Outside(run) => w.(ledger := L.ApplyRun(w.ledger, run))
    case OpenAccount(op) => w.(ledger := LI.Perform(w.ledger, op))
  }

  /** A run from a Transfer nobody has requested yet, over sound books holding
      nothing of its own. */
  ghost predicate Initial(me: nat, w: World) {
    && w.stream == [] && w.drivers == map[] && LI.Sound(w.ledger) && LI.SettlementsRecorded(w.ledger)
    && forall id :: id in w.ledger.transfers ==>
         Drawer(id) != Some(me) && Drawer(w.ledger.transfers[id].pendingId) != Some(me)
  }

  /** The worlds a sequence of actions passes through. */
  ghost predicate IsRun(me: nat, ws: seq<World>, actions: seq<Action>) {
    && |ws| == |actions| + 1 && Initial(me, ws[0])
    && forall i :: 0 <= i < |actions| ==> Enabled(me, ws[i], actions[i]) && ws[i + 1] == Step(me, ws[i], actions[i])
  }

  ghost predicate Reachable(me: nat, w: World) {
    exists ws, actions :: IsRun(me, ws, actions) && ws[|ws| - 1] == w
  }

  lemma ReachableStep(me: nat, w: World, a: Action)
    requires Reachable(me, w) && Enabled(me, w, a)
    ensures Reachable(me, Step(me, w, a))
  {
    var ws, actions :| IsRun(me, ws, actions) && ws[|ws| - 1] == w;
    var ws', actions' := ws + [Step(me, w, a)], actions + [a];
    forall i | 0 <= i < |actions'|
      ensures Enabled(me, ws'[i], actions'[i]) && ws'[i + 1] == Step(me, ws'[i], actions'[i])
    {
      if i < |actions| { assert ws'[i] == ws[i] && ws'[i + 1] == ws[i + 1] && actions'[i] == actions[i]; }
    }
    assert IsRun(me, ws', actions');
  }

  lemma ReachableStart(me: nat, w: World)
    requires Initial(me, w)
    ensures Reachable(me, w)
  {
    assert IsRun(me, [w], []) && [w][|[w]| - 1] == w;
  }
}
