/** Stream and ledger agree in every reachable state of the Transfer protocol. */
module TransferAgreement {
  import opened Common
  import L = Ledger
  import LI = LedgerInvariant
  import LR = LedgerRuns
  import opened TransferStream
  import opened TransferProtocol

  // ---- What the ledger holds of a leg --------------------------------------

  /** Leg `leg`'s entry of `batch` is on record. */
  predicate Did(s: L.State, batch: Batch, leg: Leg) { LR.OnRecord(s, Entry(batch, leg, false)) }

  ghost predicate DidAll(s: L.State, batch: Batch, legs: seq<Leg>, n: nat)
    requires n <= |legs|
  {
    forall k :: 0 <= k < n ==> Did(s, batch, legs[k])
  }

  predicate Mine(me: nat, s: L.State, id: Id)
    requires id in s.transfers
  {
    Drawer(id) == Some(me) || Drawer(s.transfers[id].pendingId) == Some(me)
  }

  ghost predicate FromLegs(s: L.State, legs: seq<Leg>, id: Id) {
    exists k, batch :: 0 <= k < |legs| && Entry(batch, legs[k], false).id == id && Did(s, batch, legs[k])
  }

  /** Everything of this Transfer's on record is an entry of one of its legs. */
  ghost predicate Own(me: nat, s: L.State, legs: seq<Leg>) {
    forall id :: id in s.transfers && Mine(me, s, id) ==> FromLegs(s, legs, id)
  }

  predicate Wide(legs: seq<Leg>) { |legs| > L.BatchMax }

  /** Which batches a Transfer of this shape, this far along, can have run. */
  predicate Due(es: Stream, legs: seq<Leg>, batch: Batch) {
    match batch
    case Direct => !StageRequested(es) && !Wide(legs)
    case Reserve => StageRequested(es) || Wide(legs)
    case Post => Pending in es || (!StageRequested(es) && Wide(legs))
    case Void => Staged in es
  }

  ghost predicate AllDue(es: Stream, s: L.State, legs: seq<Leg>) {
    forall k, batch :: 0 <= k < |legs| && Did(s, batch, legs[k]) ==> Due(es, legs, batch)
  }

  /** A batch reaches the ledger in leg order, its first chain whole. */
  ghost predicate InOrder(s: L.State, legs: seq<Leg>) {
    && (forall j, k, batch :: 0 <= j < k < |legs| && Did(s, batch, legs[k]) ==> Did(s, batch, legs[j]))
    && (forall k, batch :: 0 <= k < ChainEnd(legs, 0) && Did(s, batch, legs[0]) ==> Did(s, batch, legs[k]))
  }

  /** Nothing is posted from a reservation before every leg is reserved. */
  ghost predicate PostsReserved(s: L.State, legs: seq<Leg>) {
    forall k :: 0 <= k < |legs| && Did(s, Post, legs[k]) ==> DidAll(s, Reserve, legs, |legs|)
  }

  /** What each recorded outcome says about the ledger. */
  ghost predicate OutcomesHold(es: Stream, s: L.State, legs: seq<Leg>) {
    && (Staged in es ==> DidAll(s, Reserve, legs, |legs|))
    && (Committed in es ==> DidAll(s, Post, legs, |legs|) || DidAll(s, Direct, legs, |legs|))
    && (Cancelled in es ==> DidAll(s, Void, legs, |legs|))
  }

  ghost predicate Agrees(me: nat, es: Stream, s: L.State) {
    match LegsOf(es)
    case None => Own(me, s, [])
    case Some(legs) =>
      && PlanOf(me, legs) && Own(me, s, legs) && AllDue(es, s, legs)
      && InOrder(s, legs) && PostsReserved(s, legs) && OutcomesHold(es, s, legs)
  }

  // ---- What each driver knows ----------------------------------------------

  predicate JobDue(es: Stream, job: Job) {
    match job
    case Stage => StageRequested(es)
    case Commit(posting) => if posting then Pending in es else !StageRequested(es)
    case Cancel => Staged in es
  }

  predicate Claimed(es: Stream, c: Claim) {
    LegsOf(es) == Some(c.legs) && JobDue(es, c.job) && c.at < |es| && es[c.at] == Marker(c.job)
  }

  predicate Suits(c: Claim, batch: Batch) {
    match c.job
    case Stage => batch == Reserve
    case Commit(posting) =>
      if posting then batch == Post
      else if Wide(c.legs) then batch == Reserve || batch == Post
      else batch == Direct
    case Cancel => batch == Void
  }

  ghost predicate Evidence(es: Stream, s: L.State, e: Event, holder: Option<Claim>) {
    match e
    case Pending => holder.None? && Staged in es
    case Staged => holder.Some? && Claimed(es, holder.value) && holder.value.job.Stage? &&
      DidAll(s, Reserve, holder.value.legs, |holder.value.legs|)
    case Committed => holder.Some? && Claimed(es, holder.value) && holder.value.job.Commit? &&
      (DidAll(s, Post, holder.value.legs, |holder.value.legs|) ||
          DidAll(s, Direct, holder.value.legs, |holder.value.legs|))
    case Cancelled => holder.Some? && Claimed(es, holder.value) && holder.value.job.Cancel? &&
      DidAll(s, Void, holder.value.legs, |holder.value.legs|)
    case Failed => holder.Some? && Claimed(es, holder.value) && !holder.value.job.Cancel?
    case _ => false
  }

  ghost predicate Knows(me: nat, es: Stream, s: L.State, pc: Pc) {
    match pc
    case Idle => true
    case Trying(seen, d) =>
      && seen <= es
      && (if d.Conclude? then Allowed(CurrentPhase(seen), d.event) && Evidence(es, s, d.event, d.holder)
          else Decides(me, seen, d))
    case Check(c, next) =>
      && Claimed(es, c) && Knows(me, es, s, next)
      && (next.Submitting? ==> next.claim == c) && (next.Recording? ==> next.holder == Some(c))
      && (next.Submitting? || next.Recording?)
    case Submitting(c, batch, done) =>
      && Claimed(es, c) && Suits(c, batch) && done <= |c.legs| && DidAll(s, batch, c.legs, done)
      && (batch == Post ==> DidAll(s, Reserve, c.legs, |c.legs|))
    case Recording(e, holder) => Evidence(es, s, e, holder)
  }

  ghost predicate Inv(me: nat, w: World) {
    && Stored(w.stream) && LI.Sound(w.ledger) && Agrees(me, w.stream, w.ledger)
    && forall d :: d in w.drivers ==> Knows(me, w.stream, w.ledger, w.drivers[d])
  }

  // ---- Facts about streams -------------------------------------------------

  /** What the current state says about the events behind it. */
  ghost predicate Witnessed(es: Stream) {
    var p := CurrentPhase(es);
    && (p.Unknown? || p.InAccepted? ==> LegsOf(es).None?)
    && (p.InPrepared? || p.InStaged? || p.InPending? || p.InCommitted? ==> LegsOf(es).Some?)
    && (p.InStaged? ==> Staged in es) && (p.InPending? ==> Pending in es)
    && (p.InCommitted? ==> Committed in es)
    && (Staged in es ==> StageRequested(es) && LegsOf(es).Some? && !p.InPrepared? && !p.InAccepted? && !p.Unknown?)
    && (Pending in es ==> Staged in es && !p.InStaged?)
    && (Committed in es ==> LegsOf(es).Some? && p.InCommitted?) && (Cancelled in es ==> Staged in es && p.InCancelled?)
    && (p.InCancelled? ==> LegsOf(es).None? || Cancelled in es)
    && (Failed in es ==> p.InFailed?)
    && (es != [] && !RejectedRequest(es) ==> es[0].Accepted?)
    && (IsTerminal(p) ==> LiveMarker(es).None?)
    && (LiveMarker(es).Some? && es[LiveMarker(es).value].StagingStarted? ==> p.InPrepared?)
  }

  lemma InSnoc(es: Stream, e: Event, x: Event)
    ensures x in es + [e] <==> x in es || x == e
  {
  }

  lemma WitnessSnoc(es: Stream, e: Event)
    requires Witnessed(es) && MayFollow(es, e)
    ensures Witnessed(es + [e])
  {
    Snoc(es, e);
    InSnoc(es, e, Staged);
    InSnoc(es, e, Pending);
    InSnoc(es, e, Committed);
    InSnoc(es, e, Cancelled);
    InSnoc(es, e, Failed);
  }

  lemma {:induction false} LawfulIsWitnessed(es: Stream)
    requires Lawful(es)
    ensures Witnessed(es)
  {
    if es != [] {
      var n := |es| - 1;
      LawfulPrefix(es, n);
      LawfulIsWitnessed(es[..n]);
      assert MayFollow(es[..n], es[n]) && es == es[..n] + [es[n]];
      WitnessSnoc(es[..n], es[n]);
    }
  }

  lemma {:induction false} LegsStable(es: Stream, es': Stream)
    requires es <= es' && LegsOf(es).Some?
    ensures LegsOf(es') == LegsOf(es)
    decreases |es'|
  {
    if |es'| > |es| {
      LegsStable(es, es'[..|es'| - 1]);
    } else {
      assert es == es';
    }
  }

  lemma ClaimStays(es: Stream, es': Stream, c: Claim)
    requires es <= es' && Claimed(es, c)
    ensures Claimed(es', c)
  {
    LegsStable(es, es');
  }

  /** Whatever a driver knows stays true as stream and ledger grow. */
  lemma {:induction false} KnowledgeStays(me: nat, es: Stream, s: L.State, es': Stream, s': L.State, pc: Pc)
    requires es <= es' && LI.Extends(s, s') && Knows(me, es, s, pc)
    ensures Knows(me, es', s', pc)
    decreases pc
  {
    match pc
    case Idle =>
    case Trying(seen, d) =>
      if d.Conclude? && d.holder.Some? { ClaimStays(es, es', d.holder.value); }
    case Check(c, next) =>
      ClaimStays(es, es', c);
      KnowledgeStays(me, es, s, es', s', next);
    case Submitting(c, _, _) =>
      ClaimStays(es, es', c);
    case Recording(_, holder) =>
      if holder.Some? { ClaimStays(es, es', holder.value); }
  }

  // ---- Ledger steps --------------------------------------------------------

  /** Between `s` and `s'` this Transfer recorded nothing but `batch`'s entries
      for legs `lo` to `hi`. */
  ghost predicate RecordsOnly(me: nat, s: L.State, s': L.State, legs: seq<Leg>, batch: Batch, lo: nat, hi: nat)
    requires lo <= hi <= |legs|
  {
    && LI.Extends(s, s')
    && forall id :: id in s'.transfers && id !in s.transfers && Mine(me, s', id) ==>
         exists k :: lo <= k < hi && Entry(batch, legs[k], false).id == id && Did(s', batch, legs[k])
  }

  lemma NewRecords(me: nat, s: L.State, s': L.State, legs: seq<Leg>, batch: Batch, lo: nat, hi: nat, k: nat, b: Batch)
    requires lo <= hi <= |legs| && RecordsOnly(me, s, s', legs, batch, lo, hi) && PlanOf(me, legs)
    requires k < |legs| && Did(s', b, legs[k])
    ensures Did(s, b, legs[k]) || (b == batch && lo <= k < hi)
  {
    var id := Entry(b, legs[k], false).id;
    if id !in s.transfers {
      assert Mine(me, s', id);
      var j :| lo <= j < hi && Entry(batch, legs[j], false).id == id && Did(s', batch, legs[j]);
      assert legs[j].ledgerId == legs[k].ledgerId;
    }
  }

  lemma OwnAfter(me: nat, s: L.State, s': L.State, legs: seq<Leg>, batch: Batch, lo: nat, hi: nat)
    requires lo <= hi <= |legs| && RecordsOnly(me, s, s', legs, batch, lo, hi) && Own(me, s, legs)
    ensures Own(me, s', legs)
  {
    forall id | id in s'.transfers && Mine(me, s', id) ensures FromLegs(s', legs, id) {
      if id in s.transfers {
        assert Mine(me, s, id) && FromLegs(s, legs, id);
        var k, b :| 0 <= k < |legs| && Entry(b, legs[k], false).id == id && Did(s, b, legs[k]);
        assert Did(s', b, legs[k]);
      }
    }
  }

  lemma InOrderAfter(me: nat, s: L.State, s': L.State, legs: seq<Leg>, batch: Batch, lo: nat, hi: nat)
    requires lo <= hi <= |legs| && RecordsOnly(me, s, s', legs, batch, lo, hi) && PlanOf(me, legs)
    requires InOrder(s, legs)
    requires lo < hi ==> DidAll(s', batch, legs, hi) && (lo == 0 ==> hi == ChainEnd(legs, 0))
    ensures InOrder(s', legs)
  {
    forall j, k, b | 0 <= j < k < |legs| && Did(s', b, legs[k]) ensures Did(s', b, legs[j]) {
      NewRecords(me, s, s', legs, batch, lo, hi, k, b);
      if Did(s, b, legs[k]) { assert Did(s, b, legs[j]); }
    }
    forall k, b | 0 <= k < ChainEnd(legs, 0) && Did(s', b, legs[0]) ensures Did(s', b, legs[k]) {
      NewRecords(me, s, s', legs, batch, lo, hi, 0, b);
      if Did(s, b, legs[0]) { assert Did(s, b, legs[k]); }
    }
  }

  lemma AgreesAfterRun(me: nat, es: Stream, s: L.State, s': L.State, legs: seq<Leg>, batch: Batch, lo: nat, hi: nat)
    requires LegsOf(es) == Some(legs) && Agrees(me, es, s)
    requires lo <= hi <= |legs| && RecordsOnly(me, s, s', legs, batch, lo, hi)
    requires lo < hi ==> Due(es, legs, batch) && DidAll(s', batch, legs, hi) && (lo == 0 ==> hi == ChainEnd(legs, 0))
    requires lo < hi && batch == Post ==> DidAll(s, Reserve, legs, |legs|)
    ensures Agrees(me, es, s')
  {
    forall k | 0 <= k < |legs| && Did(s', Post, legs[k]) ensures DidAll(s', Reserve, legs, |legs|) {
      NewRecords(me, s, s', legs, batch, lo, hi, k, Post);
    }
    OwnAfter(me, s, s', legs, batch, lo, hi);
    InOrderAfter(me, s, s', legs, batch, lo, hi);
    forall k, b | 0 <= k < |legs| && Did(s', b, legs[k]) ensures Due(es, legs, b) {
      NewRecords(me, s, s', legs, batch, lo, hi, k, b);
    }
  }

  lemma ForeignRunAgrees(me: nat, es: Stream, s: L.State, run: seq<L.Transfer>)
    requires LI.Sound(s) && Agrees(me, es, s) && Foreign(me, run)
    ensures Agrees(me, es, L.ApplyRun(s, run))
  {
    var s' := L.ApplyRun(s, run);
    LR.RunExtends(s, run);
    LR.RunRecords(s, run);
    forall id | id in s'.transfers && id !in s.transfers ensures !Mine(me, s', id) {
      assert LR.OnRecordOf(s', run, |run|, id);
    }
    if LegsOf(es).Some? {
      AgreesAfterRun(me, es, s, s', LegsOf(es).value, Reserve, 0, 0);
    }
  }

  lemma ChainIsDistinct(me: nat, legs: seq<Leg>, batch: Batch, done: nat)
    requires PlanOf(me, legs) && done < |legs|
    ensures LI.DistinctIds(Chain(batch, legs, done)) && LR.DistinctReservations(Chain(Post, legs, done))
  {
    forall i, j | 0 <= i < j < ChainEnd(legs, done) - done
      ensures Chain(batch, legs, done)[i].id != Chain(batch, legs, done)[j].id
      ensures Chain(Post, legs, done)[i].pendingId != Chain(Post, legs, done)[j].pendingId
    {
      assert legs[done + i].ledgerId != legs[done + j].ledgerId;
    }
  }

  /** An accepted chain puts all its legs on record. */
  lemma ChainDid(s: L.State, s': L.State, legs: seq<Leg>, batch: Batch, done: nat)
    requires done < |legs| && DidAll(s, batch, legs, done) && LI.Extends(s, s')
    requires LR.AllOnRecord(s', Chain(batch, legs, done))
    ensures DidAll(s', batch, legs, ChainEnd(legs, done))
  {
    var run := Chain(batch, legs, done);
    forall k | 0 <= k < ChainEnd(legs, done) ensures Did(s', batch, legs[k]) {
      if k >= done { assert LR.OnRecord(s', run[k - done]); } else { assert Did(s, batch, legs[k]); }
    }
  }

  /** A chain records its own legs and nothing else. */
  lemma ChainRecordsOnly(me: nat, s: L.State, s': L.State, legs: seq<Leg>, batch: Batch, done: nat)
    requires done < |legs| && LI.Extends(s, s')
    requires var run := Chain(batch, legs, done);
      forall id :: id in s'.transfers && id !in s.transfers ==> LR.OnRecordOf(s', run, |run|, id)
    ensures RecordsOnly(me, s, s', legs, batch, done, ChainEnd(legs, done))
  {
    var run := Chain(batch, legs, done);
    forall id | id in s'.transfers && id !in s.transfers
      ensures exists k ::
        done <= k < ChainEnd(legs, done) && Entry(batch, legs[k], false).id == id && Did(s', batch, legs[k])
    {
      assert LR.OnRecordOf(s', run, |run|, id);
      var i :| 0 <= i < |run| && run[i].id == id && LR.OnRecord(s', run[i]);
      assert Entry(batch, legs[done + i], false).id == id && Did(s', batch, legs[done + i]);
    }
  }

  lemma ChainRecords(me: nat, s: L.State, legs: seq<Leg>, batch: Batch, done: nat)
    requires LI.Sound(s) && PlanOf(me, legs) && done < |legs| && DidAll(s, batch, legs, done)
    ensures var s', hi := L.ApplyRun(s, Chain(batch, legs, done)), ChainEnd(legs, done);
      if L.Accepted(s, Chain(batch, legs, done))
      then RecordsOnly(me, s, s', legs, batch, done, hi) && DidAll(s', batch, legs, hi)
      else s' == s
  {
    var run := Chain(batch, legs, done);
    ChainIsDistinct(me, legs, batch, done);
    LR.RunExtends(s, run);
    LR.RunRecords(s, run);
    if L.Accepted(s, run) {
      ChainDid(s, L.ApplyRun(s, run), legs, batch, done);
      ChainRecordsOnly(me, s, L.ApplyRun(s, run), legs, batch, done);
    }
  }

  lemma ChainAgrees(me: nat, es: Stream, s: L.State, c: Claim, batch: Batch, done: nat)
    requires LI.Sound(s) && Agrees(me, es, s) && Claimed(es, c) && Suits(c, batch)
    requires done < |c.legs| && DidAll(s, batch, c.legs, done) &&
      (batch == Post ==> DidAll(s, Reserve, c.legs, |c.legs|))
    ensures Agrees(me, es, L.ApplyRun(s, Chain(batch, c.legs, done)))
  {
    var run := Chain(batch, c.legs, done);
    ChainRecords(me, s, c.legs, batch, done);
    if L.Accepted(s, run) {
      AgreesAfterRun(me, es, s, L.ApplyRun(s, run), c.legs, batch, done, ChainEnd(c.legs, done));
    }
  }

  // ---- Every step keeps the invariant --------------------------------------

  /** A driver's own move, with stream and ledger growing under everyone. */
  lemma MoveKeeps(me: nat, w: World, w': World, d: nat)
    requires Inv(me, w) && w.stream <= w'.stream && LI.Extends(w.ledger, w'.ledger)
    requires Stored(w'.stream) && LI.Sound(w'.ledger) && Agrees(me, w'.stream, w'.ledger)
    requires w'.drivers == w.drivers ||
      (w'.drivers == w.drivers[d := PcOf(w', d)] && Knows(me, w'.stream, w'.ledger, PcOf(w', d)))
    ensures Inv(me, w')
  {
    forall e | e in w'.drivers ensures Knows(me, w'.stream, w'.ledger, w'.drivers[e]) {
      if w'.drivers == w.drivers || e != d {
        KnowledgeStays(me, w.stream, w.ledger, w'.stream, w'.ledger, w.drivers[e]);
      }
    }
  }

  lemma LedgerMoveKeeps(me: nat, w: World, d: nat, pc: Pc, s: L.State)
    requires Inv(me, w) && LI.Extends(w.ledger, s) && LI.Sound(s) && Agrees(me, w.stream, s) &&
      Knows(me, w.stream, s, pc)
    ensures Inv(me, Goto(w, d, pc).(ledger := s))
  {
    MoveKeeps(me, w, Goto(w, d, pc).(ledger := s), d);
  }

  lemma BatchDoneKnows(me: nat, es: Stream, s: L.State, c: Claim, batch: Batch)
    requires Claimed(es, c) && Suits(c, batch) && DidAll(s, batch, c.legs, |c.legs|)
    ensures Knows(me, es, s, AfterBatch(c, batch))
  {
  }

  lemma RefusalKnows(me: nat, es: Stream, s: L.State, c: Claim, batch: Batch, done: nat)
    requires Claimed(es, c) && Suits(c, batch)
    ensures Knows(me, es, s, OnRefusal(c, batch, done))
  {
  }

  lemma ChainNextKnows(me: nat, es: Stream, s: L.State, c: Claim, batch: Batch, done: nat)
    requires LI.Sound(s) && Agrees(me, es, s) && Knows(me, es, s, Submitting(c, batch, done)) && done < |c.legs|
    ensures var run := Chain(batch, c.legs, done);
      Knows(me, es, L.ApplyRun(s, run),
            if L.Accepted(s, run) then Submitting(c, batch, ChainEnd(c.legs, done)) else OnRefusal(c, batch, done))
  {
    var run := Chain(batch, c.legs, done);
    LR.RunExtends(s, run);
    ChainRecords(me, s, c.legs, batch, done);
    if !L.Accepted(s, run) { RefusalKnows(me, es, s, c, batch, done); }
  }

  lemma ChainKeeps(me: nat, w: World, d: nat, c: Claim, batch: Batch, done: nat)
    requires Inv(me, w) && Knows(me, w.stream, w.ledger, Submitting(c, batch, done)) && done < |c.legs|
    ensures Inv(me, SubmitNext(w, d, c, batch, done))
  {
    LR.RunExtends(w.ledger, Chain(batch, c.legs, done));
    ChainAgrees(me, w.stream, w.ledger, c, batch, done);
    ChainNextKnows(me, w.stream, w.ledger, c, batch, done);
    var run := Chain(batch, c.legs, done);
    var next := if L.Accepted(w.ledger, run) then Submitting(c, batch, ChainEnd(c.legs, done))
                else OnRefusal(c, batch, done);
    LedgerMoveKeeps(me, w, d, next, L.ApplyRun(w.ledger, run));
  }

  lemma SubmitKeeps(me: nat, w: World, d: nat)
    requires Inv(me, w) && PcOf(w, d).Submitting?
    ensures var pc := PcOf(w, d); Inv(me, SubmitNext(w, d, pc.claim, pc.batch, pc.done))
  {
    var pc := PcOf(w, d);
    assert Knows(me, w.stream, w.ledger, pc);
    if pc.done < |pc.claim.legs| {
      ChainKeeps(me, w, d, pc.claim, pc.batch, pc.done);
    } else {
      BatchDoneKnows(me, w.stream, w.ledger, pc.claim, pc.batch);
      MoveKeeps(me, w, SubmitNext(w, d, pc.claim, pc.batch, pc.done), d);
    }
  }

  /** What an outcome must find on the ledger before it is recorded. */
  ghost predicate Borne(es: Stream, s: L.State, e: Event) {
    match LegsOf(es)
    case None => !e.Staged? && !e.Committed? && !e.Cancelled?
    case Some(legs) =>
      && (e.Staged? ==> DidAll(s, Reserve, legs, |legs|))
      && (e.Committed? ==> DidAll(s, Post, legs, |legs|) || DidAll(s, Direct, legs, |legs|))
      && (e.Cancelled? ==> DidAll(s, Void, legs, |legs|))
  }

  lemma StoredSnoc(es: Stream, e: Event)
    requires Stored(es) && MayFollow(es, e) && !e.Prepared?
    ensures Stored(es + [e])
  {
    Snoc(es, e);
    LawfulSnoc(es, e);
  }

  lemma DueStays(es: Stream, e: Event, legs: seq<Leg>, batch: Batch)
    requires es != [] && Due(es, legs, batch)
    ensures Due(es + [e], legs, batch)
  {
    Snoc(es, e);
  }

  /** One lawful event, borne out by the ledger, keeps stream and ledger agreeing. */
  lemma EventAgrees(me: nat, es: Stream, s: L.State, e: Event)
    requires Agrees(me, es, s) && !e.Prepared? && Borne(es, s, e)
    ensures Agrees(me, es + [e], s)
  {
    Snoc(es, e);
    if LegsOf(es).Some? {
      var legs := LegsOf(es).value;
      forall k, b | 0 <= k < |legs| && Did(s, b, legs[k]) ensures Due(es + [e], legs, b) { DueStays(es, e, legs, b); }
      assert OutcomesHold(es + [e], s, legs) by {
        assert forall x :: x in es + [e] <==> x in es || x == e;
      }
    }
  }

  /** A Transfer with no legs yet has nothing on the ledger. */
  lemma NothingYet(me: nat, s: L.State, plan: seq<Leg>, k: nat, b: Batch)
    requires Own(me, s, []) && PlanOf(me, plan) && k < |plan|
    ensures !Did(s, b, plan[k])
  {
    var id := Entry(b, plan[k], false).id;
    assert Drawer(id) == Some(me) && !FromLegs(s, [], id);
  }

  /** Preparing writes the legs and the claim on the next step together. */
  lemma PrepareIsStored(es: Stream, plan: seq<Leg>)
    requires Stored(es) && CurrentPhase(es).InAccepted?
    ensures var es' := es + [Prepared(plan), Marker(PreparedJob(es))];
      && Stored(es') && LegsOf(es') == Some(plan) && StageRequested(es') == StageRequested(es)
  {
    var e, m := Prepared(plan), Marker(PreparedJob(es));
    LawfulIsWitnessed(es);
    Snoc(es, e);
    LawfulSnoc(es, e);
    Snoc(es + [e], m);
    LawfulSnoc(es + [e], m);
    assert es + [e, m] == es + [e] + [m];
  }

  lemma PrepareAgrees(me: nat, es: Stream, s: L.State, plan: seq<Leg>)
    requires Stored(es) && Agrees(me, es, s) && CurrentPhase(es).InAccepted? && PlanOf(me, plan)
    ensures var es' := es + [Prepared(plan), Marker(PreparedJob(es))];
      && Stored(es') && Agrees(me, es', s) && Claimed(es', Claim(PreparedJob(es), |es| + 1, plan))
  {
    var es' := es + [Prepared(plan), Marker(PreparedJob(es))];
    LawfulIsWitnessed(es);
    PrepareIsStored(es, plan);
    forall k, b | 0 <= k < |plan| ensures !Did(s, b, plan[k]) { NothingYet(me, s, plan, k, b); }
    assert forall x :: x in es' ==> x in es || x.Prepared? || IsMarker(x);
    forall id | id in s.transfers ensures !Mine(me, s, id) { assert !FromLegs(s, [], id); }
  }

  /** A driver may only append what the lifecycle allows: for a recorded outcome
      because of what the driver knows, otherwise because of what it loaded. */
  lemma DecisionIsLawful(me: nat, es: Stream, s: L.State, dec: Decision)
    requires Stored(es) && Agrees(me, es, s) && !dec.Prepare? && Knows(me, es, s, Trying(es, dec))
    ensures |Adds(es, dec)| == 1 && MayFollow(es, Adds(es, dec)[0]) && Borne(es, s, Adds(es, dec)[0])
    ensures !Adds(es, dec)[0].Prepared?
  {
    LawfulIsWitnessed(es);
  }

  /** A claim just won starts a job the stream is ready for. */
  lemma ClaimKnows(me: nat, es: Stream, s: L.State, job: Job)
    requires Stored(es) && Agrees(me, es, s) && Claimable(es, job)
    ensures Knows(me, es + [Marker(job)], s, Begin(Claim(job, |es|, LegsOf(es).value)))
  {
    LawfulIsWitnessed(es);
    Snoc(es, Marker(job));
    assert forall x :: x in es ==> x in es + [Marker(job)];
  }

  lemma PrepareKnows(me: nat, es: Stream, s: L.State, plan: seq<Leg>)
    requires Stored(es) && Agrees(me, es, s) && CurrentPhase(es).InAccepted? && PlanOf(me, plan)
    ensures Knows(me, es + [Prepared(plan), Marker(PreparedJob(es))], s, Begin(Claim(PreparedJob(es), |es| + 1, plan)))
  {
    PrepareAgrees(me, es, s, plan);
  }

  lemma WonKnows(me: nat, es: Stream, s: L.State, dec: Decision)
    requires Stored(es) && Agrees(me, es, s) && Knows(me, es, s, Trying(es, dec))
    ensures Knows(me, es + Adds(es, dec), s, Won(es, dec))
  {
    match dec
    case Prepare(plan) => PrepareKnows(me, es, s, plan);
    case ClaimFor(job) => ClaimKnows(me, es, s, job);
    case _ =>
  }

  lemma AppendKeeps(me: nat, w: World, d: nat)
    requires Inv(me, w) && PcOf(w, d).Trying? && |w.stream| == |PcOf(w, d).seen|
    ensures var pc := PcOf(w, d);
      Inv(me, Goto(w, d, Won(pc.seen, pc.decision)).(stream := w.stream + Adds(pc.seen, pc.decision)))
  {
    var pc, es := PcOf(w, d), w.stream;
    assert Knows(me, es, w.ledger, pc);
    assert pc.seen == es;
    var w' := Goto(w, d, Won(es, pc.decision)).(stream := es + Adds(es, pc.decision));
    if pc.decision.Prepare? {
      PrepareAgrees(me, es, w.ledger, pc.decision.plan);
    } else {
      DecisionIsLawful(me, es, w.ledger, pc.decision);
      assert Adds(es, pc.decision) == [Adds(es, pc.decision)[0]];
      StoredSnoc(es, Adds(es, pc.decision)[0]);
      EventAgrees(me, es, w.ledger, Adds(es, pc.decision)[0]);
    }
    WonKnows(me, es, w.ledger, pc.decision);
    MoveKeeps(me, w, w', d);
  }

  lemma OpeningExtends(s: L.State, op: LI.Op)
    requires op.OpenAccount? && LI.Sound(s)
    ensures LI.Sound(LI.Perform(s, op)) && LI.Extends(s, LI.Perform(s, op))
    ensures LI.Perform(s, op).transfers == s.transfers && LI.Perform(s, op).pending == s.pending
  {
    var s' := LI.Perform(s, op);
    forall i | i in s'.transfers ensures LI.Backed(s', i) { assert LI.Backed(s, i); }
  }

  lemma OpeningAgrees(me: nat, es: Stream, s: L.State, s': L.State)
    requires s'.transfers == s.transfers && Agrees(me, es, s)
    ensures Agrees(me, es, s')
  {
    if LegsOf(es).Some? {
      AgreesAfterRun(me, es, s, s', LegsOf(es).value, Reserve, 0, 0);
    }
  }

  lemma OutsideKeeps(me: nat, w: World, a: Action)
    requires Inv(me, w) && Enabled(me, w, a) && (a.Outside? || a.OpenAccount?)
    ensures Inv(me, Step(me, w, a))
  {
    if a.Outside? {
      LR.RunExtends(w.ledger, a.run);
      ForeignRunAgrees(me, w.stream, w.ledger, a.run);
    } else {
      OpeningExtends(w.ledger, a.op);
      OpeningAgrees(me, w.stream, w.ledger, LI.Perform(w.ledger, a.op));
    }
    MoveKeeps(me, w, Step(me, w, a), 0);
  }

  /** A move that touches neither stream nor ledger. */
  lemma GotoKeeps(me: nat, w: World, d: nat, pc: Pc)
    requires Inv(me, w) && Knows(me, w.stream, w.ledger, pc)
    ensures Inv(me, Goto(w, d, pc))
  {
    MoveKeeps(me, w, Goto(w, d, pc), d);
  }

  lemma LoadKeeps(me: nat, w: World, a: Action)
    requires Inv(me, w) && Enabled(me, w, a)
    requires a.Decide? || a.Confirm? || a.LoadOutcome? || a.Contend? || a.RequireClaim?
    ensures Inv(me, Step(me, w, a))
  {
    var pc := PcOf(w, a.d);
    assert Knows(me, w.stream, w.ledger, pc);
    LawfulIsWitnessed(w.stream);
    GotoKeeps(me, w, a.d, PcOf(Step(me, w, a), a.d));
  }

  lemma StepKeeps(me: nat, w: World, a: Action)
    requires Inv(me, w) && Enabled(me, w, a)
    ensures Inv(me, Step(me, w, a))
  {
    match a
    case Append(d) =>
      if |w.stream| == |PcOf(w, d).seen| {
        AppendKeeps(me, w, d);
      } else {
        assert Knows(me, w.stream, w.ledger, PcOf(w, d));
        GotoKeeps(me, w, d, Lost(PcOf(w, d).decision));
      }
    case SubmitChain(d) => SubmitKeeps(me, w, d);
    case Outside(_) => OutsideKeeps(me, w, a);
    case OpenAccount(_) => OutsideKeeps(me, w, a);
    case _ => LoadKeeps(me, w, a);
  }

  lemma {:induction false} RunKeepsInv(me: nat, ws: seq<World>, actions: seq<Action>, n: nat)
    requires IsRun(me, ws, actions) && n < |ws|
    ensures Inv(me, ws[n])
  {
    if n > 0 {
      RunKeepsInv(me, ws, actions, n - 1);
      StepKeeps(me, ws[n - 1], actions[n - 1]);
    }
  }
}
