/** Exactly when a Failed Transfer will never have moved any money: whatever
    driver is still about to submit its first chain can be let through by what
    the rest of the world does. */
module TransferExact {
  import opened Common
  import L = Ledger
  import LI = LedgerInvariant
  import LR = LedgerRuns
  import LF = LedgerFunding
  import opened TransferStream
  import opened TransferProtocol
  import opened TransferAgreement
  import opened TransferTheorems
  import opened TransferFailure

  // ---- Continuations -------------------------------------------------------

  ghost predicate IsPath(me: nat, ws: seq<World>, actions: seq<Action>) {
    && |ws| == |actions| + 1
    && forall i :: 0 <= i < |actions| ==> Enabled(me, ws[i], actions[i]) && ws[i + 1] == Step(me, ws[i], actions[i])
  }

  ghost predicate CanReach(me: nat, w: World, w': World) {
    exists ws, actions :: IsPath(me, ws, actions) && ws[0] == w && ws[|ws| - 1] == w'
  }

  lemma ReachesItself(me: nat, w: World)
    ensures CanReach(me, w, w)
  {
    assert IsPath(me, [w], []) && [w][0] == w && [w][|[w]| - 1] == w;
  }

  lemma ReachesOn(me: nat, w: World, w': World, a: Action)
    requires CanReach(me, w, w') && Enabled(me, w', a)
    ensures CanReach(me, w, Step(me, w', a))
  {
    var ws, actions :| IsPath(me, ws, actions) && ws[0] == w && ws[|ws| - 1] == w';
    var ws', actions' := ws + [Step(me, w', a)], actions + [a];
    forall i | 0 <= i < |actions'|
      ensures Enabled(me, ws'[i], actions'[i]) && ws'[i + 1] == Step(me, ws'[i], actions'[i])
    {
      if i < |actions| { assert ws'[i] == ws[i] && ws'[i + 1] == ws[i + 1] && actions'[i] == actions[i]; }
    }
    assert IsPath(me, ws', actions') && ws'[0] == w && ws'[|ws'| - 1] == Step(me, w', a);
  }

  /** Nothing of this Transfer's has moved, and nothing ever will. */
  ghost predicate StaysUnmoved(me: nat, w: World) {
    forall w' :: CanReach(me, w, w') ==> MovedNothing(me, w'.ledger)
  }

  // ---- Nobody left to move it ----------------------------------------------

  /** About to submit the first chain that moves money. */
  predicate AtFirstChain(pc: Pc) { pc.Submitting? && (pc.batch == Direct || pc.batch == Post) && pc.done == 0 }

  ghost predicate NobodyAtFirstChain(w: World) { forall d :: d in w.drivers ==> !AtFirstChain(w.drivers[d]) }

  /** Failed, its first leg unmoved, and nobody able to move it. */
  ghost predicate Spent(me: nat, w: World, legs: seq<Leg>) {
    && Inv(me, w) && Failed in w.stream && LegsOf(w.stream) == Some(legs) && |legs| > 0
    && Unmoved(w.ledger, legs) && (FirstVoided(w.ledger, legs) || NobodyAtFirstChain(w))
  }

  /** A terminal stream has no live claim, so no driver newly gets that far. */
  lemma NobodyGetsThere(me: nat, w: World, a: Action)
    requires Inv(me, w) && Enabled(me, w, a) && Failed in w.stream && NobodyAtFirstChain(w)
    ensures NobodyAtFirstChain(Step(me, w, a))
  {
    LawfulIsWitnessed(w.stream);
    var w' := Step(me, w, a);
    forall d | d in w'.drivers ensures !AtFirstChain(w'.drivers[d]) {
      if d in w.drivers { assert Knows(me, w.stream, w.ledger, w.drivers[d]); }
    }
  }

  /** A chain moves the first leg only from its start, and not once that is voided. */
  lemma ChainLeavesUnmoved(me: nat, w: World, d: nat, legs: seq<Leg>)
    requires Spent(me, w, legs) && PcOf(w, d).Submitting?
    ensures Unmoved(Step(me, w, SubmitChain(d)).ledger, legs)
  {
    var pc, w' := PcOf(w, d), Step(me, w, SubmitChain(d));
    assert Knows(me, w.stream, w.ledger, pc);
    StepKeeps(me, w, SubmitChain(d));
    if pc.done < |legs| && L.Accepted(w.ledger, Chain(pc.batch, legs, pc.done)) {
      ChainRecords(me, w.ledger, legs, pc.batch, pc.done);
      FirstLegStays(me, w, w'.ledger, pc.batch, pc.done, legs);
    }
  }

  lemma FirstLegStays(me: nat, w: World, s': L.State, batch: Batch, done: nat, legs: seq<Leg>)
    requires Spent(me, w, legs) && done < |legs| && DidAll(w.ledger, batch, legs, done)
    requires RecordsOnly(me, w.ledger, s', legs, batch, done, ChainEnd(legs, done)) && LI.Sound(s') &&
      Agrees(me, w.stream, s')
    requires FirstVoided(w.ledger, legs) || !((batch == Direct || batch == Post) && done == 0)
    ensures Unmoved(s', legs)
  {
    LawfulIsWitnessed(w.stream);
    forall b | (b == Direct || b == Post) && Did(s', b, legs[0]) ensures FirstVoided(w.ledger, legs) {
      NewRecords(me, w.ledger, s', legs, batch, done, ChainEnd(legs, done), 0, b);
    }
    if FirstVoided(w.ledger, legs) {
      VoidedIsNotPosted(s', legs[0]);
      assert Did(s', Void, legs[0]) && Due(w.stream, legs, Void);
      assert Did(s', Direct, legs[0]) ==> Due(w.stream, legs, Direct);
    }
  }

  lemma SpentStays(me: nat, w: World, a: Action, legs: seq<Leg>)
    requires Spent(me, w, legs) && Enabled(me, w, a)
    ensures Spent(me, Step(me, w, a), legs)
  {
    StepKeeps(me, w, a);
    StepGrows(me, w, a);
    LegsStable(w.stream, Step(me, w, a).stream);
    if a.SubmitChain? { ChainLeavesUnmoved(me, w, a.d, legs); } else { UnmovedStays(me, w, a, legs); }
    if NobodyAtFirstChain(w) { NobodyGetsThere(me, w, a); }
  }

  lemma {:induction false} SpentForGood(me: nat, ws: seq<World>, actions: seq<Action>, n: nat, legs: seq<Leg>)
    requires IsPath(me, ws, actions) && n < |ws| && Spent(me, ws[0], legs)
    ensures Spent(me, ws[n], legs)
  {
    if n > 0 {
      SpentForGood(me, ws, actions, n - 1, legs);
      SpentStays(me, ws[n - 1], actions[n - 1], legs);
    }
  }

  lemma SpentStaysUnmoved(me: nat, w: World, legs: seq<Leg>)
    requires Spent(me, w, legs)
    ensures StaysUnmoved(me, w)
  {
    forall w' | CanReach(me, w, w') ensures MovedNothing(me, w'.ledger) {
      var ws, actions :| IsPath(me, ws, actions) && ws[0] == w && ws[|ws| - 1] == w';
      SpentForGood(me, ws, actions, |ws| - 1, legs);
      FirstLegDecides(me, w'.stream, w'.ledger, legs);
    }
  }

  // ---- Letting a driver through --------------------------------------------

  /** Reached by what others do alone: the Transfer's stream, its drivers and its
      own records are as they were. */
  ghost predicate Aside(me: nat, w: World, w': World, legs: seq<Leg>) {
    && CanReach(me, w, w') && Inv(me, w') && w'.stream == w.stream && w'.drivers == w.drivers
    && LI.SettlementsRecorded(w'.ledger) && LF.OneFlag(w'.ledger)
    && forall k, b :: 0 <= k < |legs| && Did(w'.ledger, b, legs[k]) ==> Did(w.ledger, b, legs[k])
  }

  lemma OthersRecordNothingOfOurs(me: nat, w: World, a: Action, legs: seq<Leg>, k: nat, b: Batch)
    requires Inv(me, w) && Enabled(me, w, a) && (a.Outside? || a.OpenAccount?) && LegsOf(w.stream) == Some(legs)
    requires k < |legs| && Did(Step(me, w, a).ledger, b, legs[k])
    ensures Did(w.ledger, b, legs[k])
  {
    if a.Outside? {
      var s' := L.ApplyRun(w.ledger, a.run);
      LR.RunExtends(w.ledger, a.run);
      LR.RunRecords(w.ledger, a.run);
      forall id | id in s'.transfers && id !in w.ledger.transfers ensures !Mine(me, s', id) {
        assert LR.OnRecordOf(s', a.run, |a.run|, id);
      }
      NewRecords(me, w.ledger, s', legs, Reserve, 0, 0, k, b);
    }
  }

  lemma AsideStep(me: nat, w: World, w': World, a: Action, legs: seq<Leg>)
    requires Aside(me, w, w', legs) && LegsOf(w.stream) == Some(legs) && Enabled(me, w', a) &&
      (a.Outside? || a.OpenAccount?)
    requires LF.OneFlag(Step(me, w', a).ledger)
    ensures Aside(me, w, Step(me, w', a), legs)
  {
    ReachesOn(me, w, w', a);
    StepKeeps(me, w', a);
    SettlementsStay(me, w', a);
    forall k, b | 0 <= k < |legs| && Did(Step(me, w', a).ledger, b, legs[k]) ensures Did(w.ledger, b, legs[k]) {
      OthersRecordNothingOfOurs(me, w', a, legs, k, b);
    }
  }

  function Opening(id: Id): LI.Op { LI.OpenAccount(id, "", false, false) }

  lemma Opened(me: nat, w: World, w': World, legs: seq<Leg>, id: Id) returns (w'': World)
    requires Aside(me, w, w', legs) && LegsOf(w.stream) == Some(legs)
    ensures Aside(me, w, w'', legs) && w''.ledger == LI.Perform(w'.ledger, Opening(id))
    ensures id in w''.ledger.accounts && w'.ledger.accounts.Keys <= w''.ledger.accounts.Keys
  {
    w'' := Step(me, w', OpenAccount(Opening(id)));
    AsideStep(me, w, w', OpenAccount(Opening(id)), legs);
  }

  lemma LegOpened(me: nat, w: World, w': World, legs: seq<Leg>, leg: Leg) returns (w'': World)
    requires Aside(me, w, w', legs) && LegsOf(w.stream) == Some(legs)
    ensures Aside(me, w, w'', legs) && w'.ledger.accounts.Keys <= w''.ledger.accounts.Keys
    ensures leg.source in w''.ledger.accounts && leg.dest in w''.ledger.accounts
  {
    w'' := Opened(me, w, w', legs, leg.source);
    w'' := Opened(me, w, w'', legs, leg.dest);
  }

  /** Accounts the legs name can be opened where they are missing. */
  lemma {:induction false} LegsOpened(me: nat, w: World, legs: seq<Leg>, n: nat) returns (w': World)
    requires Aside(me, w, w, legs) && LegsOf(w.stream) == Some(legs) && n <= |legs|
    ensures Aside(me, w, w', legs)
    ensures forall k :: 0 <= k < n ==> legs[k].source in w'.ledger.accounts && legs[k].dest in w'.ledger.accounts
  {
    if n == 0 {
      w' := w;
    } else {
      w' := LegsOpened(me, w, legs, n - 1);
      w' := LegOpened(me, w, w', legs, legs[n - 1]);
    }
  }

  /** Everyone's id but this Transfer's. */
  ghost function Stranger(me: nat, ids: set<Id>): (id: Id)
    ensures id !in ids && Drawer(id) != Some(me)
  {
    LF.Unused(ids, me + 1)
  }

  lemma FundedOne(me: nat, w: World, w': World, legs: seq<Leg>, a: Id, f: Id, room: nat) returns (w'': World)
    requires Aside(me, w, w', legs) && LegsOf(w.stream) == Some(legs)
    requires a in w'.ledger.accounts && f in w'.ledger.accounts && a != f && LF.Uncapped(w'.ledger.accounts[f])
    ensures Aside(me, w, w'', legs) && LF.SameFlags(w'.ledger, w''.ledger) && LF.Roomy(w''.ledger.accounts[a], room)
    ensures forall x :: x in w'.ledger.accounts && x != a && x != f ==> w''.ledger.accounts[x] == w'.ledger.accounts[x]
  {
    var id := Stranger(me, w'.ledger.transfers.Keys);
    var t := LF.Funding(id, w'.ledger, a, f, room);
    LF.FundingGivesRoom(w'.ledger, a, f, id, room);
    LF.FundingKeepsFlags(w'.ledger, a, f, id, room);
    w'' := Step(me, w', Outside([t]));
    AsideStep(me, w, w', Outside([t]), legs);
  }

  /** One counterparty can give every other account the room it needs. */
  lemma {:induction false} FundedAll(me: nat, w: World, w': World, legs: seq<Leg>, todo: set<Id>, f: Id,
      room: nat) returns (w'': World)
    requires Aside(me, w, w', legs) && LegsOf(w.stream) == Some(legs)
    requires todo <= w'.ledger.accounts.Keys && f in w'.ledger.accounts && f !in todo &&
      LF.Uncapped(w'.ledger.accounts[f])
    ensures Aside(me, w, w'', legs) && LF.SameFlags(w'.ledger, w''.ledger)
    ensures forall a :: a in todo ==> LF.Roomy(w''.ledger.accounts[a], room)
    ensures forall a :: a in w'.ledger.accounts && a !in todo && a != f ==>
      w''.ledger.accounts[a] == w'.ledger.accounts[a]
  {
    if todo == {} {
      w'' := w';
    } else {
      var a :| a in todo;
      var w1 := FundedAll(me, w, w', legs, todo - {a}, f, room);
      w'' := FundedOne(me, w, w1, legs, a, f, room);
    }
  }

  /** Others can always bring about a ledger with room everywhere. */
  lemma RoomEverywhere(me: nat, w: World, legs: seq<Leg>, room: nat) returns (w': World)
    requires Inv(me, w) && LegsOf(w.stream) == Some(legs) && LI.SettlementsRecorded(w.ledger) && LF.OneFlag(w.ledger)
    ensures Aside(me, w, w', legs) && LF.AllRoomy(w'.ledger, room)
    ensures forall k :: 0 <= k < |legs| ==> legs[k].source in w'.ledger.accounts && legs[k].dest in w'.ledger.accounts
  {
    ReachesItself(me, w);
    w' := LegsOpened(me, w, legs, |legs|);
    var f := Stranger(me, w'.ledger.accounts.Keys);
    var w1 := Opened(me, w, w', legs, f);
    w' := FundedAll(me, w, w1, legs, w1.ledger.accounts.Keys - {f}, f, room);
    forall a | a in w'.ledger.accounts ensures LF.Roomy(w'.ledger.accounts[a], room) {
      if a == f { assert LF.Uncapped(w1.ledger.accounts[f]); }
    }
  }

  // ---- The first chain goes through ----------------------------------------

  /** An unmoved narrow Transfer has no record under its legs' own ids. */
  lemma DirectIsFresh(me: nat, es: Stream, s: L.State, legs: seq<Leg>, k: nat)
    requires LegsOf(es) == Some(legs) && Agrees(me, es, s) && Due(es, legs, Direct) && Unmoved(s, legs) && k < |legs|
    ensures legs[k].ledgerId !in s.transfers
  {
    forall j, b | 0 <= j < |legs| && Did(s, b, legs[j]) ensures b == Post || b == Void {
      assert Due(es, legs, b) && (j > 0 ==> Did(s, b, legs[0]));
    }
    assert legs[k].ledgerId in s.transfers ==> FromLegs(s, legs, legs[k].ledgerId);
  }

  lemma DirectGoesThrough(me: nat, es: Stream, s: L.State, legs: seq<Leg>)
    requires LegsOf(es) == Some(legs) && Agrees(me, es, s) && Due(es, legs, Direct) && Unmoved(s, legs) && |legs| > 0
    requires forall k :: 0 <= k < |legs| ==> legs[k].source in s.accounts && legs[k].dest in s.accounts
    requires LF.AllRoomy(s, LF.Amounts(Chain(Direct, legs, 0), |Chain(Direct, legs, 0)|))
    ensures L.Accepted(s, Chain(Direct, legs, 0))
  {
    var run := Chain(Direct, legs, 0);
    forall i | 0 <= i < |run| ensures run[i].id !in s.transfers { DirectIsFresh(me, es, s, legs, 0 + i); }
    LF.RunFits(s, run, |run|);
  }

  lemma PostGoesThrough(me: nat, es: Stream, s: L.State, legs: seq<Leg>)
    requires LI.Sound(s) && LI.SettlementsRecorded(s) && LF.AllRoomy(s, 0)
    requires LegsOf(es) == Some(legs) && Agrees(me, es, s) && |legs| > 0 && DidAll(s, Reserve, legs, |legs|) &&
      !FirstVoided(s, legs)
    ensures L.Accepted(s, Chain(Post, legs, 0))
  {
    assert LI.WithinFlags(s) by {
      forall a | a in s.accounts ensures L.DebitsWithin(s.accounts[a]) && L.CreditsWithin(s.accounts[a]) {
        assert LF.Roomy(s.accounts[a], 0);
      }
    }
    if !L.Accepted(s, Chain(Post, legs, 0)) { RefusedFirstPost(me, es, s, legs); }
  }

  /** An accepted first chain has moved the first leg. */
  lemma SubmittedMoves(me: nat, w: World, d: nat, legs: seq<Leg>)
    requires Inv(me, w) && LegsOf(w.stream) == Some(legs) && |legs| > 0 && AtFirstChain(PcOf(w, d))
    requires L.Accepted(w.ledger, Chain(PcOf(w, d).batch, legs, 0))
    ensures !MovedNothing(me, Step(me, w, SubmitChain(d)).ledger)
  {
    var b, s' := PcOf(w, d).batch, Step(me, w, SubmitChain(d)).ledger;
    assert Knows(me, w.stream, w.ledger, PcOf(w, d));
    ChainRecords(me, w.ledger, legs, b, 0);
    DidMoves(me, s', legs, b);
  }

  lemma DidMoves(me: nat, s: L.State, legs: seq<Leg>, b: Batch)
    requires PlanOf(me, legs) && |legs| > 0 && (b == Direct || b == Post) && Did(s, b, legs[0])
    ensures !MovedNothing(me, s)
  {
    var id := Entry(b, legs[0], false).id;
    assert Mine(me, s, id) && LI.Moves(s.transfers[id]);
  }

  /** A driver about to submit a first chain that no void stops can be let
      through, by funds the rest of the world provides. */
  lemma CanBeLetThrough(me: nat, w: World, d: nat, legs: seq<Leg>) returns (w': World)
    requires Inv(me, w) && LegsOf(w.stream) == Some(legs) && |legs| > 0 && d in w.drivers && AtFirstChain(w.drivers[d])
    requires LI.SettlementsRecorded(w.ledger) && LF.OneFlag(w.ledger) && Unmoved(w.ledger, legs) &&
      !FirstVoided(w.ledger, legs)
    ensures CanReach(me, w, w') && !MovedNothing(me, w'.ledger)
  {
    var b := w.drivers[d].batch;
    var chain := Chain(b, legs, 0);
    var w1 := RoomEverywhere(me, w, legs, LF.Amounts(chain, |chain|));
    assert Knows(me, w1.stream, w1.ledger, w1.drivers[d]);
    if b == Direct {
      DirectGoesThrough(me, w1.stream, w1.ledger, legs);
    } else {
      assert LF.AllRoomy(w1.ledger, 0) by { LessRoom(w1.ledger, LF.Amounts(chain, |chain|)); }
      PostGoesThrough(me, w1.stream, w1.ledger, legs);
    }
    SubmittedMoves(me, w1, d, legs);
    ReachesOn(me, w, w1, SubmitChain(d));
    w' := Step(me, w1, SubmitChain(d));
  }

  lemma LessRoom(s: L.State, room: nat)
    requires LF.AllRoomy(s, room)
    ensures LF.AllRoomy(s, 0)
  {
    forall a | a in s.accounts ensures LF.Roomy(s.accounts[a], 0) { assert LF.Roomy(s.accounts[a], room); }
  }

  // ---- Exactly when --------------------------------------------------------

  lemma PlannedStaysUnmovedExactly(me: nat, w: World, legs: seq<Leg>)
    requires Inv(me, w) && Failed in w.stream && LegsOf(w.stream) == Some(legs) && |legs| > 0
    requires LI.SettlementsRecorded(w.ledger) && LF.OneFlag(w.ledger)
    ensures StaysUnmoved(me, w) <==> Unmoved(w.ledger, legs) && (FirstVoided(w.ledger, legs) || NobodyAtFirstChain(w))
  {
    if Unmoved(w.ledger, legs) && (FirstVoided(w.ledger, legs) || NobodyAtFirstChain(w)) {
      SpentStaysUnmoved(me, w, legs);
    }
    if StaysUnmoved(me, w) {
      ReachesItself(me, w);
      forall b | b == Direct || b == Post ensures !Did(w.ledger, b, legs[0]) {
        if Did(w.ledger, b, legs[0]) { DidMoves(me, w.ledger, legs, b); }
      }
      if !FirstVoided(w.ledger, legs) && !NobodyAtFirstChain(w) {
        var d :| d in w.drivers && AtFirstChain(w.drivers[d]);
        var w' := CanBeLetThrough(me, w, d, legs);
      }
    }
  }

  predicate Legless(es: Stream) { LegsOf(es).None? || LegsOf(es).value == [] }

  lemma {:induction false} LegsStand(es: Stream, m: nat, n: nat)
    requires m <= n <= |es| && forall k :: m <= k < n ==> !es[k].Prepared?
    ensures LegsOf(es[..n]) == LegsOf(es[..m])
  {
    if m < n {
      LegsStand(es, m, n - 1);
      assert es[..n] == es[..n - 1] + [es[n - 1]];
      Snoc(es[..n - 1], es[n - 1]);
    }
  }

  /** No leg is ever prepared after a Failed. */
  lemma FailedKeepsLegs(es: Stream, es': Stream)
    requires Lawful(es') && es <= es' && Failed in es
    ensures LegsOf(es') == LegsOf(es)
  {
    var i :| 0 <= i < |es| && es[i] == Failed;
    forall k | |es| <= k < |es'| ensures !es'[k].Prepared? { TerminalIsFinal(es', i, k); }
    LegsStand(es', |es|, |es'|);
    assert es'[..|es|] == es && es'[..|es'|] == es';
  }

  lemma {:induction false} LeglessForGood(me: nat, ws: seq<World>, actions: seq<Action>, n: nat)
    requires IsPath(me, ws, actions) && n < |ws| && Inv(me, ws[0]) && Failed in ws[0].stream && Legless(ws[0].stream)
    ensures Inv(me, ws[n]) && Failed in ws[n].stream && Legless(ws[n].stream)
  {
    if n > 0 {
      LeglessForGood(me, ws, actions, n - 1);
      StepKeeps(me, ws[n - 1], actions[n - 1]);
      StepGrows(me, ws[n - 1], actions[n - 1]);
      FailedKeepsLegs(ws[n - 1].stream, ws[n].stream);
    }
  }

  lemma LeglessMovesNothing(me: nat, w: World)
    requires Inv(me, w) && Legless(w.stream)
    ensures MovedNothing(me, w.ledger)
  {
    if LegsOf(w.stream).Some? {
      FirstLegDecides(me, w.stream, w.ledger, []);
    } else {
      NoLegsMoveNothing(me, w.stream, w.ledger);
    }
  }

  /** A Transfer that failed before it had any leg never moves anything. */
  lemma LeglessStaysUnmoved(me: nat, w: World)
    requires Inv(me, w) && Failed in w.stream && Legless(w.stream)
    ensures StaysUnmoved(me, w)
  {
    forall w' | CanReach(me, w, w') ensures MovedNothing(me, w'.ledger) {
      var ws, actions :| IsPath(me, ws, actions) && ws[0] == w && ws[|ws| - 1] == w';
      LeglessForGood(me, ws, actions, |ws| - 1);
      LeglessMovesNothing(me, w');
    }
  }

  lemma {:induction false} RunRecordsSettlements(me: nat, ws: seq<World>, actions: seq<Action>, n: nat)
    requires IsRun(me, ws, actions) && n < |ws|
    ensures Inv(me, ws[n]) && LI.SettlementsRecorded(ws[n].ledger)
  {
    RunKeepsInv(me, ws, actions, n);
    if n > 0 {
      RunRecordsSettlements(me, ws, actions, n - 1);
      SettlementsStay(me, ws[n - 1], actions[n - 1]);
    }
  }

  /** No money moved and nobody able to move it: no legs were prepared, or the
      first is unmoved and either its reservation is voided or no driver is about
      to submit a first chain. */
  ghost predicate OutOfReach(w: World) {
    Legless(w.stream) ||
      var legs := LegsOf(w.stream).value;
      Unmoved(w.ledger, legs) && (FirstVoided(w.ledger, legs) || NobodyAtFirstChain(w))
  }

  /** A Failed Transfer, staged or immediate, has moved nothing and never will, if
      and only if it is out of everyone's reach. */
  lemma FailedStaysUnmovedExactly(me: nat, w: World)
    requires Reachable(me, w) && Failed in w.stream && LF.OneFlag(w.ledger)
    ensures StaysUnmoved(me, w) <==> OutOfReach(w)
  {
    var ws, actions :| IsRun(me, ws, actions) && ws[|ws| - 1] == w;
    RunRecordsSettlements(me, ws, actions, |ws| - 1);
    if Legless(w.stream) {
      LeglessStaysUnmoved(me, w);
    } else {
      PlannedStaysUnmovedExactly(me, w, LegsOf(w.stream).value);
    }
  }
}
