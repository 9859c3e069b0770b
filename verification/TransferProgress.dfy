/** What one driver gets done by itself: a claimed step runs to the outcome it is
    for, unless the ledger refuses it
    (go/internal/transfer/saga.go, server.go). */
module TransferProgress {
  import opened Common
  import L = Ledger
  import opened TransferStream
  import opened TransferProtocol
  import opened TransferAgreement
  import opened TransferTheorems
  import opened TransferChains

  // ---- One driver alone ----------------------------------------------------

  predicate IsOf(a: Action, d: nat) { !a.Outside? && !a.OpenAccount? && a.d == d }

  ghost predicate Takes(me: nat, d: nat, w: World, a: Action, w': World) {
    IsOf(a, d) && Enabled(me, w, a) && w' == Step(me, w, a)
  }

  /** These actions, all of driver `d`, lead from `w` to `w'`. */
  ghost predicate Leads(me: nat, d: nat, w: World, actions: seq<Action>, w': World) {
    if actions == [] then w' == w
    else
      var n := |actions| - 1;
      exists mid :: Leads(me, d, w, actions[..n], mid) && Takes(me, d, mid, actions[n], w')
  }

  ghost predicate Alone(me: nat, d: nat, w: World, w': World) { exists actions :: Leads(me, d, w, actions, w') }

  lemma AloneStart(me: nat, d: nat, w: World)
    ensures Alone(me, d, w, w)
  {
    assert Leads(me, d, w, [], w);
  }

  lemma AloneOn(me: nat, d: nat, w: World, x: World, a: Action, y: World)
    requires Alone(me, d, w, x) && Takes(me, d, x, a, y)
    ensures Alone(me, d, w, y)
  {
    var actions :| Leads(me, d, w, actions, x);
    var actions' := actions + [a];
    assert actions'[..|actions|] == actions && actions'[|actions|] == a;
    assert Leads(me, d, w, actions', y);
  }

  /** Where driver `d` stands, everyone else being as in `w`. */
  function At(w: World, d: nat, es: Stream, s: L.State, pc: Pc): World { World(es, s, w.drivers[d := pc]) }

  lemma AtStep(me: nat, d: nat, w: World, es: Stream, s: L.State, pc: Pc, a: Action, es': Stream, s': L.State, pc': Pc)
    requires Alone(me, d, w, At(w, d, es, s, pc)) && IsOf(a, d) && Enabled(me, At(w, d, es, s, pc), a)
    requires Step(me, At(w, d, es, s, pc), a) == At(At(w, d, es, s, pc), d, es', s', pc')
    ensures Alone(me, d, w, At(w, d, es', s', pc'))
  {
    AloneOn(me, d, w, At(w, d, es, s, pc), a, At(At(w, d, es, s, pc), d, es', s', pc'));
    assert w.drivers[d := pc][d := pc'] == w.drivers[d := pc'];
  }

  // ---- A live claim is still due -------------------------------------------

  /** Nothing has advanced the Transfer since the live claim was made. */
  lemma {:induction false} LivePhase(es: Stream, at: nat)
    requires LiveMarker(es) == Some(at)
    ensures at < |es| && IsMarker(es[at]) && CurrentPhase(es) == CurrentPhase(es[..at])
  {
    var n := |es| - 1;
    assert es == es[..n] + [es[n]];
    Snoc(es[..n], es[n]);
    if !IsMarker(es[n]) {
      LivePhase(es[..n], at);
      assert es[..n][..at] == es[..at];
    }
  }

  /** The state a job starts from. */
  predicate From(p: Phase, job: Job) {
    match job
    case Stage => p.InPrepared?
    case Commit(posting) => if posting then p.InPending? else p.InPrepared?
    case Cancel => p.InStaged? || p.InPending?
  }

  lemma HeldIsDue(es: Stream, c: Claim)
    requires Lawful(es) && Claimed(es, c) && HoldsClaim(es, c.at)
    ensures From(CurrentPhase(es), c.job)
  {
    LivePhase(es, c.at);
    LawfulIsWitnessed(es);
    assert MayFollow(es[..c.at], es[c.at]);
    assert c.at > 0 && es[..c.at][0] == es[0];
  }

  // ---- Submitting ----------------------------------------------------------

  /** A batch goes as far as the ledger lets it. */
  lemma {:induction false} SubmitsAll(me: nat, d: nat, w: World, es: Stream, s: L.State, c: Claim, b: Batch, done: nat)
    requires done <= |c.legs| && Alone(me, d, w, At(w, d, es, s, Submitting(c, b, done)))
    ensures var p := Through(s, b, c.legs, done);
      var pc := if p.done == |c.legs| then Submitting(c, b, p.done) else OnRefusal(c, b, p.done);
      Alone(me, d, w, At(w, d, es, p.ledger, pc))
    decreases |c.legs| - done
  {
    if done < |c.legs| {
      var run := Chain(b, c.legs, done);
      if L.Accepted(s, run) {
        AtStep(me, d, w, es, s, Submitting(c, b, done), SubmitChain(d),
               es, L.ApplyRun(s, run), Submitting(c, b, ChainEnd(c.legs, done)));
        SubmitsAll(me, d, w, es, L.ApplyRun(s, run), c, b, ChainEnd(c.legs, done));
      } else {
        AtStep(me, d, w, es, s, Submitting(c, b, done), SubmitChain(d), es, s, OnRefusal(c, b, done));
      }
    }
  }

  // ---- Recording -----------------------------------------------------------

  /** recordOutcome, from its load on. */
  lemma RecordsNow(me: nat, d: nat, w: World, es: Stream, s: L.State, e: Event, holder: Option<Claim>)
    requires Alone(me, d, w, At(w, d, es, s, Recording(e, holder)))
    requires Allowed(CurrentPhase(es), e) && LatestOutcome(es) != Some(e)
    ensures Alone(me, d, w, At(w, d, es + [e], s, Idle))
  {
    AtStep(me, d, w, es, s, Recording(e, holder), LoadOutcome(d), es, s, Trying(es, Conclude(e, holder)));
    AtStep(me, d, w, es, s, Trying(es, Conclude(e, holder)), Append(d), es + [e], s, Idle);
  }

  /** A claim check that passes, then the outcome's load and its append. */
  lemma Concludes(me: nat, d: nat, w: World, es: Stream, s: L.State, c: Claim, e: Event)
    requires Alone(me, d, w, At(w, d, es, s, Check(c, Recording(e, Some(c)))))
    requires HoldsClaim(es, c.at) && Allowed(CurrentPhase(es), e) && LatestOutcome(es) != Some(e)
    ensures Alone(me, d, w, At(w, d, es + [e], s, Idle))
  {
    AtStep(me, d, w, es, s, Check(c, Recording(e, Some(c))), RequireClaim(d), es, s, Recording(e, Some(c)));
    RecordsNow(me, d, w, es, s, e, Some(c));
  }

  /** The state and the event a job is for. */
  function Goal(job: Job): Phase {
    match job case Stage => InStaged case Commit(_) => InCommitted case Cancel => InCancelled
  }

  function GoalEvent(job: Job): Event {
    match job case Stage => Staged case Commit(_) => Committed case Cancel => Cancelled
  }

  /** The batch after which a job has only to be recorded. */
  predicate IsLast(job: Job, b: Batch) {
    match job
    case Stage => b == Reserve
    case Commit(_) => b == Post || b == Direct
    case Cancel => b == Void
  }

  lemma {:induction false} OutcomeIsPhase(es: Stream, e: Event)
    requires LatestOutcome(es) == Some(e)
    ensures Advances(e) && CurrentPhase(es) == PhaseOf(e).value
  {
    var n := |es| - 1;
    assert es == es[..n] + [es[n]];
    Snoc(es[..n], es[n]);
    if !Advances(es[n]) { OutcomeIsPhase(es[..n], e); }
  }

  lemma NotTheLatest(es: Stream, e: Event)
    requires Advances(e) && CurrentPhase(es) != PhaseOf(e).value
    ensures LatestOutcome(es) != Some(e)
  {
    if LatestOutcome(es) == Some(e) { OutcomeIsPhase(es, e); }
  }

  /** Allowed from where a live claim stands, and not recorded yet. */
  lemma GoalIsNext(es: Stream, c: Claim)
    requires Lawful(es) && Claimed(es, c) && HoldsClaim(es, c.at)
    ensures Allowed(CurrentPhase(es), GoalEvent(c.job)) && LatestOutcome(es) != Some(GoalEvent(c.job))
    ensures CurrentPhase(es + [GoalEvent(c.job)]) == Goal(c.job)
  {
    HeldIsDue(es, c);
    NotTheLatest(es, GoalEvent(c.job));
    Snoc(es, GoalEvent(c.job));
  }

  lemma FailedIsNext(es: Stream, c: Claim)
    requires Lawful(es) && Claimed(es, c) && HoldsClaim(es, c.at) && !c.job.Cancel?
    ensures Allowed(CurrentPhase(es), Failed) && LatestOutcome(es) != Some(Failed)
    ensures CurrentPhase(es + [Failed]).InFailed?
  {
    HeldIsDue(es, c);
    NotTheLatest(es, Failed);
    Snoc(es, Failed);
  }

  // ---- A claimed step runs to its end --------------------------------------

  /** The ledger lets the rest of the job through, nobody interfering: what is
      left of this batch and, once a wide Transfer is reserved, its posts. */
  predicate LetsThrough(s: L.State, c: Claim, b: Batch, done: nat)
    requires done <= |c.legs|
  {
    var p := Through(s, b, c.legs, done);
    p.done == |c.legs| && (c.job.Commit? && b == Reserve ==> Through(p.ledger, Post, c.legs, 0).done == |c.legs|)
  }

  /** The books once it is through. */
  function Settled(s: L.State, c: Claim, b: Batch, done: nat): L.State
    requires done <= |c.legs|
  {
    var p := Through(s, b, c.legs, done);
    if c.job.Commit? && b == Reserve then Through(p.ledger, Post, c.legs, 0).ledger else p.ledger
  }

  /** With its last batch submitted, a job is recorded. */
  lemma LastBatchRecorded(me: nat, d: nat, w: World, es: Stream, s: L.State, c: Claim, b: Batch)
    requires Alone(me, d, w, At(w, d, es, s, Submitting(c, b, |c.legs|))) && IsLast(c.job, b)
    requires Lawful(es) && Claimed(es, c) && HoldsClaim(es, c.at)
    ensures Alone(me, d, w, At(w, d, es + [GoalEvent(c.job)], s, Idle))
  {
    var next := Check(c, Recording(GoalEvent(c.job), Some(c)));
    AtStep(me, d, w, es, s, Submitting(c, b, |c.legs|), SubmitChain(d), es, s, next);
    GoalIsNext(es, c);
    Concludes(me, d, w, es, s, c, GoalEvent(c.job));
  }

  /** A wide immediate Transfer, all reserved, goes on to post. */
  lemma ReservedGoesOn(me: nat, d: nat, w: World, es: Stream, s: L.State, c: Claim)
    requires Alone(me, d, w, At(w, d, es, s, Submitting(c, Reserve, |c.legs|))) && c.job.Commit?
    requires HoldsClaim(es, c.at)
    ensures Alone(me, d, w, At(w, d, es, s, Submitting(c, Post, 0)))
  {
    var next := Check(c, Submitting(c, Post, 0));
    AtStep(me, d, w, es, s, Submitting(c, Reserve, |c.legs|), SubmitChain(d), es, s, next);
    AtStep(me, d, w, es, s, next, RequireClaim(d), es, s, Submitting(c, Post, 0));
  }

  lemma RunsThrough(me: nat, d: nat, w: World, es: Stream, s: L.State, c: Claim, b: Batch, done: nat)
    requires done <= |c.legs| && Alone(me, d, w, At(w, d, es, s, Submitting(c, b, done))) && Suits(c, b)
    requires Lawful(es) && Claimed(es, c) && HoldsClaim(es, c.at) && LetsThrough(s, c, b, done)
    ensures Alone(me, d, w, At(w, d, es + [GoalEvent(c.job)], Settled(s, c, b, done), Idle))
  {
    var p := Through(s, b, c.legs, done);
    SubmitsAll(me, d, w, es, s, c, b, done);
    if c.job.Commit? && b == Reserve {
      ReservedGoesOn(me, d, w, es, p.ledger, c);
      SubmitsAll(me, d, w, es, p.ledger, c, Post, 0);
      LastBatchRecorded(me, d, w, es, Through(p.ledger, Post, c.legs, 0).ledger, c, Post);
    } else {
      LastBatchRecorded(me, d, w, es, p.ledger, c, b);
    }
  }

  lemma AtIsSelf(w: World, d: nat)
    requires d in w.drivers
    ensures At(w, d, w.stream, w.ledger, w.drivers[d]) == w
  {
    assert w.drivers[d := w.drivers[d]] == w.drivers;
  }

  // ---- Theorems ------------------------------------------------------------

  /** A driver that holds the live claim and whose chains the ledger lets through
      gets by itself to the outcome its job is for: Staged, Committed or
      Cancelled, over the books its chains left. */
  lemma StepRunsToItsOutcome(me: nat, w: World, d: nat) returns (w': World)
    requires Reachable(me, w) && PcOf(w, d).Submitting? && HoldsClaim(w.stream, PcOf(w, d).claim.at)
    requires var pc := PcOf(w, d); pc.done <= |pc.claim.legs| && LetsThrough(w.ledger, pc.claim, pc.batch, pc.done)
    ensures Alone(me, d, w, w') && CurrentPhase(w'.stream) == Goal(PcOf(w, d).claim.job) && PcOf(w', d).Idle?
    ensures w'.stream == w.stream + [GoalEvent(PcOf(w, d).claim.job)]
    ensures var pc := PcOf(w, d); w'.ledger == Settled(w.ledger, pc.claim, pc.batch, pc.done)
  {
    var pc := PcOf(w, d);
    ReachableInv(me, w);
    assert Knows(me, w.stream, w.ledger, pc);
    AloneStart(me, d, w);
    AtIsSelf(w, d);
    RunsThrough(me, d, w, w.stream, w.ledger, pc.claim, pc.batch, pc.done);
    GoalIsNext(w.stream, pc.claim);
    w' := At(w, d, w.stream + [GoalEvent(pc.claim.job)], Settled(w.ledger, pc.claim, pc.batch, pc.done), Idle);
  }

  /** Refused before any money has moved, a driver holding its claim records
      Failed by itself; refused after, or refused a void, it stops there. */
  lemma RefusedStepFailsOrStops(me: nat, w: World, d: nat) returns (w': World)
    requires Reachable(me, w) && PcOf(w, d).Submitting? && HoldsClaim(w.stream, PcOf(w, d).claim.at)
    requires var pc := PcOf(w, d);
      pc.done <= |pc.claim.legs| && Through(w.ledger, pc.batch, pc.claim.legs, pc.done).done < |pc.claim.legs|
    ensures Alone(me, d, w, w') && PcOf(w', d).Idle?
    ensures var pc := PcOf(w, d); var p := Through(w.ledger, pc.batch, pc.claim.legs, pc.done);
      && w'.ledger == p.ledger
      && w'.stream == if pc.batch == Reserve || ((pc.batch == Direct || pc.batch == Post) && p.done == 0)
                      then w.stream + [Failed] else w.stream
  {
    var pc := PcOf(w, d);
    var c, p := pc.claim, Through(w.ledger, pc.batch, pc.claim.legs, pc.done);
    ReachableInv(me, w);
    assert Knows(me, w.stream, w.ledger, pc);
    AloneStart(me, d, w);
    AtIsSelf(w, d);
    SubmitsAll(me, d, w, w.stream, w.ledger, c, pc.batch, pc.done);
    w' := At(w, d, w.stream, p.ledger, Idle);
    if pc.batch == Reserve || ((pc.batch == Direct || pc.batch == Post) && p.done == 0) {
      FailedIsNext(w.stream, c);
      Concludes(me, d, w, w.stream, p.ledger, c, Failed);
      w' := At(w, d, w.stream + [Failed], p.ledger, Idle);
    }
  }

  // ---- From the start ------------------------------------------------------

  /** The ledger lets the whole job through: a stage its reservations, a posting
      its posts, an immediate commit its direct postings if they fit one request
      and otherwise its reservations and then their posts, a cancel its voids. */
  predicate Fundable(s: L.State, job: Job, legs: seq<Leg>) {
    var n := |legs|;
    match job
    case Stage => Through(s, Reserve, legs, 0).done == n
    case Commit(posting) =>
      if posting then Through(s, Post, legs, 0).done == n
      else if n <= L.BatchMax then Through(s, Direct, legs, 0).done == n
      else
        var held := Through(s, Reserve, legs, 0);
        held.done == n && Through(held.ledger, Post, legs, 0).done == n
    case Cancel => Through(s, Void, legs, 0).done == n
  }

  /** The books once a whole job is through. */
  function Paid(s: L.State, job: Job, legs: seq<Leg>): L.State {
    match job
    case Stage => Through(s, Reserve, legs, 0).ledger
    case Commit(posting) =>
      if posting then Through(s, Post, legs, 0).ledger
      else if |legs| <= L.BatchMax then Through(s, Direct, legs, 0).ledger
      else Through(Through(s, Reserve, legs, 0).ledger, Post, legs, 0).ledger
    case Cancel => Through(s, Void, legs, 0).ledger
  }

  /** A claim just taken runs to its outcome. */
  lemma BegunRunsThrough(me: nat, d: nat, w: World, es: Stream, s: L.State, c: Claim)
    requires Alone(me, d, w, At(w, d, es, s, Begin(c))) && Fundable(s, c.job, c.legs)
    requires Lawful(es) && Claimed(es, c) && HoldsClaim(es, c.at)
    ensures Alone(me, d, w, At(w, d, es + [GoalEvent(c.job)], Paid(s, c.job, c.legs), Idle))
    ensures CurrentPhase(es + [GoalEvent(c.job)]) == Goal(c.job)
  {
    var b := FirstBatch(c.job, c.legs);
    AtStep(me, d, w, es, s, Begin(c), RequireClaim(d), es, s, Submitting(c, b, 0));
    RunsThrough(me, d, w, es, s, c, b, 0);
    GoalIsNext(es, c);
  }

  /** A driver's first step. */
  lemma FirstStep(me: nat, d: nat, w: World, a: Action, pc: Pc)
    requires IsOf(a, d) && Enabled(me, w, a) && Step(me, w, a) == Goto(w, d, pc)
    ensures Alone(me, d, w, At(w, d, w.stream, w.ledger, pc))
  {
    AloneStart(me, d, w);
    AloneOn(me, d, w, w, a, Goto(w, d, pc));
  }

  /** An idle driver's decision, and its append. */
  lemma Decided(me: nat, d: nat, w: World, dec: Decision)
    requires PcOf(w, d).Idle? && Decides(me, w.stream, dec)
    ensures Alone(me, d, w, At(w, d, w.stream + Adds(w.stream, dec), w.ledger, Won(w.stream, dec)))
  {
    var es, s := w.stream, w.ledger;
    FirstStep(me, d, w, Decide(d, dec), Trying(es, dec));
    AtStep(me, d, w, es, s, Trying(es, dec), Append(d), es + Adds(es, dec), s, Won(es, dec));
  }

  /** The step a Transfer is prepared for. */
  function NextJob(es: Stream): Job { if StageRequested(es) then Stage else Commit(false) }

  lemma PreparedIsClaimed(me: nat, es: Stream, plan: seq<Leg>)
    requires Lawful(es) && CurrentPhase(es).InAccepted?
    ensures var es' := es + [Prepared(plan), Marker(NextJob(es))]; var c := Claim(NextJob(es), |es| + 1, plan);
      Lawful(es') && Claimed(es', c) && HoldsClaim(es', c.at)
  {
    LawfulIsWitnessed(es);
    var es1 := es + [Prepared(plan)];
    Snoc(es, Prepared(plan));
    LawfulSnoc(es, Prepared(plan));
    Snoc(es1, Marker(NextJob(es)));
    LawfulSnoc(es1, Marker(NextJob(es)));
    assert es + [Prepared(plan), Marker(NextJob(es))] == es1 + [Marker(NextJob(es))];
  }

  /** From Accepted, with a plan the ledger can fund, an idle driver gets by itself
      to Staged if staging was asked for, and to Committed otherwise. */
  lemma AcceptedRunsToItsOutcome(me: nat, w: World, d: nat, plan: seq<Leg>) returns (w': World)
    requires Reachable(me, w) && PcOf(w, d).Idle? && CurrentPhase(w.stream).InAccepted?
    requires PlanOf(me, plan) && Fundable(w.ledger, NextJob(w.stream), plan)
    ensures Alone(me, d, w, w') && PcOf(w', d).Idle?
    ensures CurrentPhase(w'.stream) == if StageRequested(w.stream) then InStaged else InCommitted
    ensures w'.stream ==
      w.stream + [Prepared(plan), Marker(NextJob(w.stream))] + [GoalEvent(NextJob(w.stream))]
    ensures w'.ledger == Paid(w.ledger, NextJob(w.stream), plan)
  {
    var es, c := w.stream, Claim(NextJob(w.stream), |w.stream| + 1, plan);
    ReachableInv(me, w);
    Decided(me, d, w, Prepare(plan));
    PreparedIsClaimed(me, es, plan);
    var es' := es + [Prepared(plan), Marker(NextJob(es))];
    BegunRunsThrough(me, d, w, es', w.ledger, c);
    w' := At(w, d, es' + [GoalEvent(c.job)], Paid(w.ledger, c.job, plan), Idle);
  }

  /** The job is due and no live claim of another transition stands in its way. */
  predicate CanBeTaken(es: Stream, job: Job) {
    && From(CurrentPhase(es), job) && (LiveMarker(es).Some? ==> es[LiveMarker(es).value] == Marker(job))
    && (job.Stage? ==> StageRequested(es)) && (job == Commit(false) ==> !StageRequested(es))
  }

  lemma TakenIsClaimed(es: Stream, job: Job)
    requires Lawful(es) && CanBeTaken(es, job)
    ensures LegsOf(es).Some? && Claimable(es, job)
    ensures var es' := es + [Marker(job)]; var c := Claim(job, |es|, LegsOf(es).value);
      Lawful(es') && Claimed(es', c) && HoldsClaim(es', c.at)
  {
    LawfulIsWitnessed(es);
    Snoc(es, Marker(job));
    LawfulSnoc(es, Marker(job));
  }

  /** From any later state, an idle driver takes the step that is due, over from
      another if need be, and gets by itself to the outcome it is for. */
  lemma TakenOverRunsToItsOutcome(me: nat, w: World, d: nat, job: Job) returns (w': World)
    requires Reachable(me, w) && PcOf(w, d).Idle? && CanBeTaken(w.stream, job)
    requires LegsOf(w.stream).Some? && Fundable(w.ledger, job, LegsOf(w.stream).value)
    ensures Alone(me, d, w, w') && PcOf(w', d).Idle? && CurrentPhase(w'.stream) == Goal(job)
    ensures w'.stream == w.stream + [Marker(job)] + [GoalEvent(job)]
    ensures w'.ledger == Paid(w.ledger, job, LegsOf(w.stream).value)
  {
    var es, c := w.stream, Claim(job, |w.stream|, LegsOf(w.stream).value);
    ReachableInv(me, w);
    TakenIsClaimed(es, job);
    Decided(me, d, w, ClaimFor(job));
    BegunRunsThrough(me, d, w, es + [Marker(job)], w.ledger, c);
    w' := At(w, d, es + [Marker(job)] + [GoalEvent(job)], Paid(w.ledger, job, c.legs), Idle);
  }

  /** A staged Transfer is confirmed by one driver alone. */
  lemma StagedCanBeConfirmed(me: nat, w: World, d: nat) returns (w': World)
    requires Reachable(me, w) && PcOf(w, d).Idle? && CurrentPhase(w.stream).InStaged?
    ensures Alone(me, d, w, w') && PcOf(w', d).Idle? && w'.stream == w.stream + [Pending] && w'.ledger == w.ledger
    ensures CurrentPhase(w'.stream).InPending?
  {
    var es, s := w.stream, w.ledger;
    NotTheLatest(es, Pending);
    Snoc(es, Pending);
    FirstStep(me, d, w, Confirm(d), Recording(Pending, None));
    RecordsNow(me, d, w, es, s, Pending, None);
    w' := At(w, d, es + [Pending], s, Idle);
  }

  // ---- Outcomes that are overtaken, and early ends -------------------------

  /** However a driver about to append an outcome has been overtaken, it records it
      by itself as long as the outcome may still follow. */
  lemma OvertakenOutcomeLands(me: nat, w: World, d: nat) returns (w': World)
    requires Reachable(me, w) && PcOf(w, d).Trying? && PcOf(w, d).decision.Conclude?
    requires MayFollow(w.stream, PcOf(w, d).decision.event)
    ensures Alone(me, d, w, w') && PcOf(w', d).Idle? && w'.ledger == w.ledger
    ensures w'.stream == w.stream + [PcOf(w, d).decision.event]
  {
    var es, s, pc := w.stream, w.ledger, PcOf(w, d);
    var e := pc.decision.event;
    ReachableInv(me, w);
    assert Knows(me, es, s, pc);
    LawfulOutcomeIsAllowed(es, e);
    NotTheLatest(es, e);
    if |es| == |pc.seen| {
      FirstStepTo(me, d, w, Append(d), es + [e], Idle);
    } else {
      FirstStepTo(me, d, w, Append(d), es, Recording(e, pc.decision.holder));
      RecordsNow(me, d, w, es, s, e, pc.decision.holder);
    }
    w' := At(w, d, es + [e], s, Idle);
  }

  lemma FirstStepTo(me: nat, d: nat, w: World, a: Action, es: Stream, pc: Pc)
    requires IsOf(a, d) && Enabled(me, w, a) && Step(me, w, a) == At(w, d, es, w.ledger, pc)
    ensures Alone(me, d, w, At(w, d, es, w.ledger, pc))
  {
    AloneStart(me, d, w);
    AloneOn(me, d, w, w, a, At(w, d, es, w.ledger, pc));
  }

  /** A settlement command refused for the state the Transfer is in. */
  predicate IsRefusal(p: Phase, e: Event) {
    || (e.ConfirmRejected? && !p.InStaged? && !p.InPending?)
    || (e.CancelRejected? && !p.InStaged? && !p.InPending? && !p.InCancelled?)
    || (e.PostRejected? && !p.InPending? && !p.InCommitted?)
  }

  /** A request is answered once, either way; an accepted Transfer may still be
      cancelled, or fail for want of sources, before anything is prepared; and a
      settlement command that comes at the wrong time is refused on record. */
  lemma CanBeDecided(me: nat, w: World, d: nat, e: Event) returns (w': World)
    requires Reachable(me, w) && PcOf(w, d).Idle?
    requires if w.stream == [] then e.Accepted? || e.RequestRejected?
             else IsRefusal(CurrentPhase(w.stream), e) ||
                  (CurrentPhase(w.stream).InAccepted? && (e.AcceptedCancelled? || e.Failed?))
    ensures Alone(me, d, w, w') && PcOf(w', d).Idle? && w'.stream == w.stream + [e] && w'.ledger == w.ledger
  {
    var dec :=
      if e.Accepted? then Open(true, e.stage) else if e.RequestRejected? then Open(false, false)
      else if e.Failed? then FailUnprepared else if e.AcceptedCancelled? then CancelEarly(e) else Refuse(e);
    Decided(me, d, w, dec);
    w' := At(w, d, w.stream + [e], w.ledger, Idle);
  }

  /** What is reached alone is reached. */
  lemma {:induction false} LedIsReachable(me: nat, d: nat, w: World, actions: seq<Action>, w': World)
    requires Reachable(me, w) && Leads(me, d, w, actions, w')
    ensures Reachable(me, w')
  {
    if actions != [] {
      var n := |actions| - 1;
      var mid :| Leads(me, d, w, actions[..n], mid) && Takes(me, d, mid, actions[n], w');
      LedIsReachable(me, d, w, actions[..n], mid);
      ReachableStep(me, mid, actions[n]);
    }
  }

  lemma AloneIsReachable(me: nat, d: nat, w: World, w': World)
    requires Reachable(me, w) && Alone(me, d, w, w')
    ensures Reachable(me, w')
  {
    var actions :| Leads(me, d, w, actions, w');
    LedIsReachable(me, d, w, actions, w');
  }
}
