/** Why a rollback finds its money where it left it: Tokens a Transaction tagged
    stay out of everyone else's reach while it is open
    (go/internal/wallet/tokens.go, transaction/server.go, transfer/manifest.go). */
module Isolation {
  import opened Common
  import opened TransactionStream
  import opened TransactionSaga
  import opened TransactionInvariant
  import M = Manifest

  /** A Transaction whose tags still hide its Tokens: any that has not completed,
      been rolled back or been rejected, a failed rollback included. */
  predicate IsOpen(es: Stream) {
    !TopLevelState(es).IsCompleted? && !TopLevelState(es).IsRolledBack? && !TopLevelState(es).IsRejected?
  }

  /** TokenMintedForWallet: the Token, and the Transaction it is tagged with. */
  datatype Minted = Minted(wallet: Id, token: Id, tag: Option<Id>)

  predicate IsVisible(m: Minted, caller: Option<Id>, open: bool) { m.tag.None? || m.tag == caller || !open }

  // ---- One scan ------------------------------------------------------------

  /** The Tokens a scan of the first `n` keeps, given what each check of a tag
      answered. No checker means every tag counts as resolved. */
  function Visible(minted: seq<Minted>, caller: Option<Id>, checker: Option<seq<bool>>, n: nat): seq<Id>
    requires n <= |minted| && (checker.Some? ==> |checker.value| == |minted|)
  {
    if n == 0 then []
    else
      var rest, m := Visible(minted, caller, checker, n - 1), minted[n - 1];
      if IsVisible(m, caller, checker.Some? && checker.value[n - 1]) then rest + [m.token] else rest
  }

  /** TokensOfVisibleTo: keeps a Token, in mint order, exactly when it is
      untagged, the caller's own, or its Transaction answered closed. */
  method TokensOfVisibleTo(minted: seq<Minted>, caller: Option<Id>,
      checker: Option<seq<bool>>) returns (visible: seq<Id>)
    requires checker.Some? ==> |checker.value| == |minted|
    ensures visible == Visible(minted, caller, checker, |minted|)
    ensures exists at :: KeptAt(minted, caller, checker, |minted|, visible, at)
  {
    visible := [];
    for n := 0 to |minted|
      invariant visible == Visible(minted, caller, checker, n)
    {
      if minted[n].tag.None? || minted[n].tag == caller || checker.None? {
        visible := visible + [minted[n].token];
      } else if !checker.value[n] {
        visible := visible + [minted[n].token];
      }
    }
    ghost var at := VisibleInMintOrder(minted, caller, checker, |minted|, visible);
  }

  /** A Token a scan keeps was listed at a place where the scan could see it. */
  lemma {:induction false} VisibleIsSeen(minted: seq<Minted>, caller: Option<Id>, checker: Option<seq<bool>>, n: nat,
      t: Id)
    requires n <= |minted| && (checker.Some? ==> |checker.value| == |minted|)
    ensures t in Visible(minted, caller, checker, n) <==> exists i :: 0 <= i < n && Keeps(minted, caller, checker, i, t)
  {
    if n > 0 {
      VisibleIsSeen(minted, caller, checker, n - 1, t);
      assert Keeps(minted, caller, checker, n - 1, t) ==> t in Visible(minted, caller, checker, n);
    }
  }

  predicate Keeps(minted: seq<Minted>, caller: Option<Id>, checker: Option<seq<bool>>, i: nat, t: Id)
    requires i < |minted| && (checker.Some? ==> |checker.value| == |minted|)
  {
    && minted[i].token == t
    && (minted[i].tag.None? || minted[i].tag == caller || checker.None? || !checker.value[i])
  }

  /** `at` rises through the places a scan of the first `n` keeps, and misses none. */
  ghost predicate KeptAt(minted: seq<Minted>, caller: Option<Id>, checker: Option<seq<bool>>, n: nat, kept: seq<Id>,
      at: seq<nat>)
    requires n <= |minted| && (checker.Some? ==> |checker.value| == |minted|)
  {
    && |at| == |kept| && (forall i, j :: 0 <= i < j < |at| ==> at[i] < at[j])
    && (forall i :: 0 <= i < |at| ==> at[i] < n && kept[i] == minted[at[i]].token)
    && forall k: nat :: k < n ==> (k in at <==> Keeps(minted, caller, checker, k, minted[k].token))
  }

  lemma KeepsOneMore(minted: seq<Minted>, caller: Option<Id>, checker: Option<seq<bool>>, n: nat, kept: seq<Id>,
      at: seq<nat>)
    requires n < |minted| && (checker.Some? ==> |checker.value| == |minted|)
    requires KeptAt(minted, caller, checker, n, kept, at) && Keeps(minted, caller, checker, n, minted[n].token)
    ensures KeptAt(minted, caller, checker, n + 1, kept + [minted[n].token], at + [n])
  {
    assert forall i :: 0 <= i < |at| ==> at[i] in at;
  }

  lemma KeepsNoMore(minted: seq<Minted>, caller: Option<Id>, checker: Option<seq<bool>>, n: nat, kept: seq<Id>,
      at: seq<nat>)
    requires n < |minted| && (checker.Some? ==> |checker.value| == |minted|)
    requires KeptAt(minted, caller, checker, n, kept, at) && !Keeps(minted, caller, checker, n, minted[n].token)
    ensures KeptAt(minted, caller, checker, n + 1, kept, at)
  {
    assert n !in at;
  }

  /** A scan keeps Tokens in the order they were minted, and each that it may. */
  lemma {:induction false} VisibleInMintOrder(minted: seq<Minted>, caller: Option<Id>, checker: Option<seq<bool>>,
      n: nat, kept: seq<Id>) returns (at: seq<nat>)
    requires n <= |minted| && (checker.Some? ==> |checker.value| == |minted|)
    requires kept == Visible(minted, caller, checker, n)
    ensures KeptAt(minted, caller, checker, n, kept, at)
  {
    if n == 0 {
      at := [];
    } else {
      var before := Visible(minted, caller, checker, n - 1);
      at := VisibleInMintOrder(minted, caller, checker, n - 1, before);
      if Keeps(minted, caller, checker, n - 1, minted[n - 1].token) {
        KeepsOneMore(minted, caller, checker, n - 1, before, at);
        at := at + [n - 1];
      } else {
        KeepsNoMore(minted, caller, checker, n - 1, before, at);
      }
    }
  }

  // ---- Everyone else -------------------------------------------------------

  /** An outside caller working out a forward Transfer's sources. */
  datatype Caller = Resting | Scanning(owner: Option<Id>, todo: seq<Minted>, visible: seq<Id>)

  /** One Transaction and everyone else: its own saga, the Tokens minted so far,
      the outside callers, and the forward legs they have planned and the legs
      they have posted, Reversals included. */
  datatype Scene = Scene(saga: TransactionSaga.World, minted: seq<Minted>, callers: map<nat, Caller>,
                         planned: seq<M.Leg>, posted: seq<M.Leg>)

  datatype Action =
    | Saga(step: TransactionSaga.Action)
    | Mint(m: Minted)
    | Scan(o: nat, owner: Option<Id>, wallet: Id)   // load a Wallet's stream
    | Check(o: nat, open: bool)                     // and judge its next Token
    | Plan(o: nat, legs: seq<M.Leg>)                // legs drawn from what was visible
    | Post(leg: M.Leg)
    | PostReversal(leg: M.Leg)

  function CallerOf(w: Scene, o: nat): Caller { if o in w.callers then w.callers[o] else Resting }

  predicate IsMinted(minted: seq<Minted>, t: Id) { exists i :: 0 <= i < |minted| && minted[i].token == t }

  /** `t` was minted with the tag `owner`. */
  predicate Tagged(minted: seq<Minted>, t: Id, owner: Option<Id>) {
    exists i :: 0 <= i < |minted| && minted[i].token == t && minted[i].tag == owner
  }

  function OfWallet(minted: seq<Minted>, wallet: Id): (out: seq<Minted>)
    ensures forall m :: m in out <==> m in minted && m.wallet == wallet
  {
    if minted == [] then []
    else
      var rest := OfWallet(minted[..|minted| - 1], wallet);
      if minted[|minted| - 1].wallet == wallet then rest + [minted[|minted| - 1]] else rest
  }

  /** A forward leg takes from a Token the caller saw, or from one it minted as
      its source, and gives to one it minted. */
  predicate Draws(w: Scene, c: Caller, leg: M.Leg)
    requires c.Scanning?
  {
    (leg.source in c.visible || Tagged(w.minted, leg.source, c.owner)) && Tagged(w.minted, leg.dest, c.owner)
  }

  predicate Enabled(me: Id, w: Scene, a: Action) {
    match a
    case Saga(step) => TransactionSaga.Enabled(w.saga, step)
    case Mint(m) => !IsMinted(w.minted, m.token)
    case Scan(o, owner, _) => CallerOf(w, o).Resting? && owner != Some(me)
    case Check(o, open) =>
      && CallerOf(w, o).Scanning? && CallerOf(w, o).todo != []
      && (CallerOf(w, o).todo[0].tag == Some(me) ==> open == IsOpen(w.saga.stream))
    case Plan(o, legs) =>
      && CallerOf(w, o).Scanning? && CallerOf(w, o).todo == []
      && forall i :: 0 <= i < |legs| ==> Draws(w, CallerOf(w, o), legs[i])
    case Post(leg) => leg in w.planned
    case PostReversal(leg) => leg in w.posted
  }

  ghost function Step(me: Id, w: Scene, a: Action): Scene
    requires Enabled(me, w, a)
  {
    match a
    case Saga(step) => w.(saga := TransactionSaga.Step(w.saga, step))
    case Mint(m) => w.(minted := w.minted + [m])
    case Scan(o, owner, wallet) => w.(callers := w.callers[o := Scanning(owner, OfWallet(w.minted, wallet), [])])
    case Check(o, open) =>
      var c := CallerOf(w, o);
      var visible := if IsVisible(c.todo[0], c.owner, open) then c.visible + [c.todo[0].token] else c.visible;
      w.(callers := w.callers[o := Scanning(c.owner, c.todo[1..], visible)])
    case Plan(o, legs) => w.(callers := w.callers[o := Resting], planned := w.planned + legs)
    case Post(leg) => w.(posted := w.posted + [leg])
    case PostReversal(leg) => w.(posted := w.posted + [M.Swap(leg)])
  }

  const Start: Scene := Scene(TransactionSaga.Start, [], map[], [], [])

  ghost predicate IsRun(me: Id, ws: seq<Scene>, actions: seq<Action>) {
    && |ws| == |actions| + 1 && ws[0] == Start
    && forall i :: 0 <= i < |actions| ==> Enabled(me, ws[i], actions[i]) && ws[i + 1] == Step(me, ws[i], actions[i])
  }

  ghost predicate Reachable(me: Id, w: Scene) {
    exists ws, actions :: IsRun(me, ws, actions) && ws[|ws| - 1] == w
  }

  // ---- While it is open ----------------------------------------------------

  /** Touches none of the Transaction's Tokens. */
  predicate Clear(me: Id, minted: seq<Minted>, leg: M.Leg) {
    !Tagged(minted, leg.source, Some(me)) && !Tagged(minted, leg.dest, Some(me))
  }

  predicate Known(minted: seq<Minted>, leg: M.Leg) { IsMinted(minted, leg.source) && IsMinted(minted, leg.dest) }

  /** Every Token is minted once, with one tag. */
  predicate MintedOnce(minted: seq<Minted>) {
    forall i, j :: 0 <= i < j < |minted| ==> minted[i].token != minted[j].token
  }

  /** What an outside caller has seen: minted Tokens, and none of the
      Transaction's while it is open. */
  predicate Sees(me: Id, open: bool, minted: seq<Minted>, c: Caller) {
    c.Scanning? ==>
      && c.owner != Some(me)
      && (forall i :: 0 <= i < |c.todo| ==> c.todo[i] in minted)
      && (forall t :: t in c.visible ==> IsMinted(minted, t) && (open ==> !Tagged(minted, t, Some(me))))
  }

  predicate Harmless(me: Id, open: bool, minted: seq<Minted>, legs: seq<M.Leg>) {
    forall leg :: leg in legs ==> Known(minted, leg) && (open ==> Clear(me, minted, leg))
  }

  ghost predicate Inv(me: Id, w: Scene) {
    && TransactionInvariant.Inv(w.saga) && MintedOnce(w.minted)
    && (forall o :: Sees(me, IsOpen(w.saga.stream), w.minted, CallerOf(w, o)))
    && Harmless(me, IsOpen(w.saga.stream), w.minted, w.planned) &&
      Harmless(me, IsOpen(w.saga.stream), w.minted, w.posted)
  }

  // ---- Closed is for good --------------------------------------------------

  lemma {:induction false} ClosedStaysClosed(es: Stream, es': Stream)
    requires es <= es' && Lawful(es') && !IsOpen(es)
    ensures es' == es
  {
    if |es'| > |es| {
      ClosedStaysClosed(es, es'[..|es'| - 1]);
    }
  }

  lemma StreamOnlyGrows(w: TransactionSaga.World, a: TransactionSaga.Action)
    requires TransactionInvariant.Inv(w) && TransactionSaga.Enabled(w, a)
    ensures w.stream <= TransactionSaga.Step(w, a).stream
  {
  }

  lemma SagaKeeps(me: Id, w: Scene, step: TransactionSaga.Action)
    requires Inv(me, w) && TransactionSaga.Enabled(w.saga, step)
    ensures Inv(me, w.(saga := TransactionSaga.Step(w.saga, step)))
  {
    var saga' := TransactionSaga.Step(w.saga, step);
    StepKeepsInv(w.saga, step);
    StreamOnlyGrows(w.saga, step);
    assert IsOpen(saga'.stream) ==> IsOpen(w.saga.stream) by {
      if !IsOpen(w.saga.stream) { ClosedStaysClosed(w.saga.stream, saga'.stream); }
    }
    var w' := w.(saga := saga');
    forall o ensures Sees(me, IsOpen(saga'.stream), w'.minted, CallerOf(w', o)) {
      assert Sees(me, IsOpen(w.saga.stream), w.minted, CallerOf(w, o)) && CallerOf(w', o) == CallerOf(w, o);
    }
  }

  // ---- Minting, scanning, planning, posting --------------------------------

  /** A new Token changes nothing about the ones already minted. */
  lemma MintElsewhere(minted: seq<Minted>, m: Minted, t: Id, owner: Option<Id>)
    requires IsMinted(minted, t) && !IsMinted(minted, m.token)
    ensures IsMinted(minted + [m], t) && (Tagged(minted + [m], t, owner) <==> Tagged(minted, t, owner))
  {
    var k :| 0 <= k < |minted| && minted[k].token == t;
    assert (minted + [m])[k].token == t;
    if Tagged(minted, t, owner) {
      var i :| 0 <= i < |minted| && minted[i].token == t && minted[i].tag == owner;
      assert (minted + [m])[i] == minted[i];
    }
  }

  lemma MintKeeps(me: Id, w: Scene, m: Minted)
    requires Inv(me, w) && !IsMinted(w.minted, m.token)
    ensures Inv(me, w.(minted := w.minted + [m]))
  {
    var open, minted' := IsOpen(w.saga.stream), w.minted + [m];
    forall t | IsMinted(w.minted, t)
      ensures IsMinted(minted', t) && (Tagged(minted', t, Some(me)) <==> Tagged(w.minted, t, Some(me)))
    { MintElsewhere(w.minted, m, t, Some(me)); }
    forall o ensures Sees(me, open, minted', CallerOf(w, o)) { assert Sees(me, open, w.minted, CallerOf(w, o)); }
    assert Harmless(me, open, minted', w.planned) && Harmless(me, open, minted', w.posted);
    var w' := w.(minted := minted');
    assert forall o :: CallerOf(w', o) == CallerOf(w, o);
  }

  lemma OneTag(minted: seq<Minted>, t: Id, a: Option<Id>, b: Option<Id>)
    requires MintedOnce(minted) && Tagged(minted, t, a) && Tagged(minted, t, b)
    ensures a == b
  {
  }

  lemma CallerKeeps(me: Id, w: Scene, o: nat, c: Caller)
    requires Inv(me, w) && Sees(me, IsOpen(w.saga.stream), w.minted, c)
    ensures Inv(me, w.(callers := w.callers[o := c]))
  {
    var w' := w.(callers := w.callers[o := c]);
    forall x ensures Sees(me, IsOpen(w.saga.stream), w.minted, CallerOf(w', x)) {
      assert Sees(me, IsOpen(w.saga.stream), w.minted, CallerOf(w, x));
    }
  }

  lemma LegsKeep(me: Id, w: Scene, planned: seq<M.Leg>, posted: seq<M.Leg>)
    requires Inv(me, w)
    requires Harmless(me, IsOpen(w.saga.stream), w.minted, planned) &&
      Harmless(me, IsOpen(w.saga.stream), w.minted, posted)
    ensures Inv(me, w.(planned := planned, posted := posted))
  {
    var w' := w.(planned := planned, posted := posted);
    forall x ensures Sees(me, IsOpen(w.saga.stream), w.minted, CallerOf(w', x)) {
      assert CallerOf(w', x) == CallerOf(w, x);
    }
  }

  lemma CheckSees(me: Id, w: Scene, c: Caller, open: bool, visible: seq<Id>)
    requires MintedOnce(w.minted) && c.Scanning? && c.todo != [] && Sees(me, IsOpen(w.saga.stream), w.minted, c)
    requires c.todo[0].tag == Some(me) ==> open == IsOpen(w.saga.stream)
    requires visible == if IsVisible(c.todo[0], c.owner, open) then c.visible + [c.todo[0].token] else c.visible
    ensures Sees(me, IsOpen(w.saga.stream), w.minted, Scanning(c.owner, c.todo[1..], visible))
  {
    var m := c.todo[0];
    assert m in c.todo && m in w.minted;
    var k :| 0 <= k < |w.minted| && w.minted[k] == m;
    assert IsMinted(w.minted, m.token) && Tagged(w.minted, m.token, m.tag);
    if Tagged(w.minted, m.token, Some(me)) { OneTag(w.minted, m.token, m.tag, Some(me)); }
    assert forall i :: 0 <= i < |c.todo[1..]| ==> c.todo[1..][i] == c.todo[i + 1];
  }

  lemma DrawsIsHarmless(me: Id, w: Scene, c: Caller, leg: M.Leg)
    requires MintedOnce(w.minted) && c.Scanning? && Sees(me, IsOpen(w.saga.stream), w.minted, c) && Draws(w, c, leg)
    ensures Known(w.minted, leg) && (IsOpen(w.saga.stream) ==> Clear(me, w.minted, leg))
  {
    if Tagged(w.minted, leg.dest, Some(me)) { OneTag(w.minted, leg.dest, c.owner, Some(me)); }
    if Tagged(w.minted, leg.source, c.owner) && Tagged(w.minted, leg.source, Some(me)) {
      OneTag(w.minted, leg.source, c.owner, Some(me));
    }
  }

  lemma PlanKeeps(me: Id, w: Scene, o: nat, legs: seq<M.Leg>)
    requires Inv(me, w) && Enabled(me, w, Plan(o, legs))
    ensures Inv(me, Step(me, w, Plan(o, legs)))
  {
    var c := CallerOf(w, o);
    assert Sees(me, IsOpen(w.saga.stream), w.minted, c);
    forall leg | leg in legs ensures Known(w.minted, leg) && (IsOpen(w.saga.stream) ==> Clear(me, w.minted, leg)) {
      DrawsIsHarmless(me, w, c, leg);
    }
    LegsKeep(me, w, w.planned + legs, w.posted);
    CallerKeeps(me, w.(planned := w.planned + legs), o, Resting);
  }

  lemma StepKeeps(me: Id, w: Scene, a: Action)
    requires Inv(me, w) && Enabled(me, w, a)
    ensures Inv(me, Step(me, w, a))
  {
    match a
    case Saga(step) => SagaKeeps(me, w, step);
    case Mint(m) => MintKeeps(me, w, m);
    case Scan(o, owner, wallet) => CallerKeeps(me, w, o, Scanning(owner, OfWallet(w.minted, wallet), []));
    case Check(o, open) =>
      var c := CallerOf(w, o);
      var visible := if IsVisible(c.todo[0], c.owner, open) then c.visible + [c.todo[0].token] else c.visible;
      assert Sees(me, IsOpen(w.saga.stream), w.minted, c);
      CheckSees(me, w, c, open, visible);
      CallerKeeps(me, w, o, Scanning(c.owner, c.todo[1..], visible));
    case Plan(o, legs) => PlanKeeps(me, w, o, legs);
    case Post(leg) => LegsKeep(me, w, w.planned, w.posted + [leg]);
    case PostReversal(leg) => LegsKeep(me, w, w.planned, w.posted + [M.Swap(leg)]);
  }

  lemma {:induction false} RunKeepsInv(me: Id, ws: seq<Scene>, actions: seq<Action>, n: nat)
    requires IsRun(me, ws, actions) && n < |ws|
    ensures Inv(me, ws[n])
  {
    if n > 0 {
      RunKeepsInv(me, ws, actions, n - 1);
      StepKeeps(me, ws[n - 1], actions[n - 1]);
    }
  }

  lemma ReachableInv(me: Id, w: Scene)
    requires Reachable(me, w)
    ensures Inv(me, w)
  {
    var ws, actions :| IsRun(me, ws, actions) && ws[|ws| - 1] == w;
    RunKeepsInv(me, ws, actions, |ws| - 1);
  }

  /** While a Transaction is open, nobody else has planned or posted a leg that
      debits or credits a Token it tagged. */
  lemma OutsidersKeepOut(me: Id, w: Scene, leg: M.Leg)
    requires Reachable(me, w) && IsOpen(w.saga.stream) && (leg in w.planned || leg in w.posted)
    ensures !Tagged(w.minted, leg.source, Some(me)) && !Tagged(w.minted, leg.dest, Some(me))
  {
    ReachableInv(me, w);
    assert Clear(me, w.minted, leg);
  }

  // ---- Open for exactly as long as it may go on ----------------------------

  /** Once a child is being undone, its state says so. */
  lemma {:induction false} UndoingShows(es: Stream, c: Id, f: Fact)
    requires Lawful(es) && Child(c, f) in es && IsUndoing(f)
    ensures c in ChildStates(es) && IsUndoing(ChildStates(es)[c])
  {
    var n := |es| - 1;
    assert es == es[..n] + [es[n]];
    Snoc(es[..n], es[n]);
    if es[n] != Child(c, f) {
      UndoingShows(es[..n], c, f);
      RollingBackSince(es[..n], Child(c, f));
    }
  }

  /** Nothing but undoing is recorded of a child after its undoing began. */
  lemma {:induction false} RollingBackSince(es: Stream, e: Event)
    requires Lawful(es) && e in es && e.Child? && IsUndoing(e.fact)
    ensures Level(TopLevelState(es)) >= 3
  {
    var n := |es| - 1;
    assert es == es[..n] + [es[n]];
    Snoc(es[..n], es[n]);
    if es[n] != e { RollingBackSince(es[..n], e); }
  }

  /** No Reversal is asked for once a child is undone. */
  lemma {:induction false} AwaitedIsNotUndone(es: Stream, c: Id)
    requires Lawful(es) && c in ChildStates(es) && ChildStates(es)[c].ReversalRequested?
    ensures Child(c, Undone) !in es && Child(c, ReversalRequested) in es
  {
    var n := |es| - 1;
    assert es == es[..n] + [es[n]];
    Snoc(es[..n], es[n]);
    if es[n] != Child(c, ReversalRequested) { AwaitedIsNotUndone(es[..n], c); }
  }

  /** A rollback under way always has something left to record. */
  lemma RollingBackGoesOn(es: Stream) returns (e: Event)
    requires Lawful(es) && TopLevelState(es).IsRollingBack?
    ensures MayFollow(es, e)
  {
    if Consequence(es).Some? {
      e := Consequence(es).value;
    } else if CandidatesIn(es) != {} {
      var c :| c in CandidatesIn(es);
      CandidateIsUndoable(es, c);
      if Child(c, Stuck) in es { UndoingShows(es, c, Stuck); }
      e := Child(c, Stuck);
    } else {
      var c :| c in With(ChildStates(es), ReversalRequested);
      AwaitedIsNotUndone(es, c);
      UndoneWasUndoable(es, Child(c, ReversalRequested));
      e := Child(c, Undone);
    }
  }

  lemma {:induction false} FailedRollbackShows(es: Stream)
    requires Lawful(es) && RollbackFailed in es
    ensures TopLevelState(es).IsRollbackFailed?
  {
    var n := |es| - 1;
    assert es == es[..n] + [es[n]];
    Snoc(es[..n], es[n]);
    if es[n] != RollbackFailed { FailedRollbackShows(es[..n]); }
  }

  lemma {:induction false} FailedRollbackIsThere(es: Stream)
    requires TopLevelState(es).IsRollbackFailed?
    ensures RollbackFailed in es
  {
    var n := |es| - 1;
    if es[n] != RollbackFailed { FailedRollbackIsThere(es[..n]); }
  }

  /** A Transaction is open exactly while something may still be recorded of it,
      or its rollback has failed. */
  lemma OpenExactly(es: Stream)
    requires Lawful(es)
    ensures IsOpen(es) <==> RollbackFailed in es || exists e :: MayFollow(es, e)
  {
    if RollbackFailed in es { FailedRollbackShows(es); }
    match TopLevelState(es)
    case NoState =>
      if es != [] { OpensWithSpec(es); }
      assert MayFollow(es, Rejected);
    case IsInitialized => assert MayFollow(es, RollbackStarted);
    case IsStarted => assert MayFollow(es, RollbackStarted);
    case IsRollingBack => var e := RollingBackGoesOn(es);
    case IsRollbackFailed => FailedRollbackIsThere(es);
    case _ =>
  }

  // ---- Once it is closed ---------------------------------------------------

  /** Each Token of the Transaction's that the Wallet listed is still to be judged
      or has been found visible. */
  ghost predicate NoneMissed(me: Id, listed: seq<Minted>, wallet: Id, c: Caller) {
    c.Scanning? && forall k :: 0 <= k < |listed| && listed[k].wallet == wallet && listed[k].tag == Some(me) ==>
      listed[k] in c.todo || listed[k].token in c.visible
  }

  lemma CheckMisses(me: Id, listed: seq<Minted>, wallet: Id, c: Caller, visible: seq<Id>)
    requires NoneMissed(me, listed, wallet, c) && c.todo != []
    requires c.visible <= visible && (c.todo[0].tag == Some(me) ==> c.todo[0].token in visible)
    ensures NoneMissed(me, listed, wallet, Scanning(c.owner, c.todo[1..], visible))
  {
    forall k | 0 <= k < |listed| && listed[k].wallet == wallet && listed[k].tag == Some(me)
      ensures listed[k] in c.todo[1..] || listed[k].token in visible
    {
      if listed[k] in c.todo && listed[k] != c.todo[0] { assert c.todo == [c.todo[0]] + c.todo[1..]; }
    }
  }

  /** A scan begun once the Transaction is closed misses none of its Tokens. */
  lemma StepMissesNone(me: Id, w: Scene, a: Action, o: nat, listed: seq<Minted>, wallet: Id)
    requires Inv(me, w) && Enabled(me, w, a) && !IsOpen(w.saga.stream)
    requires NoneMissed(me, listed, wallet, CallerOf(w, o)) && !(a.Plan? && a.o == o)
    ensures NoneMissed(me, listed, wallet, CallerOf(Step(me, w, a), o)) && !IsOpen(Step(me, w, a).saga.stream)
  {
    if a.Saga? {
      StepKeepsInv(w.saga, a.step);
      StreamOnlyGrows(w.saga, a.step);
      ClosedStaysClosed(w.saga.stream, Step(me, w, a).saga.stream);
    }
    if a.Check? && a.o == o {
      var c := CallerOf(w, o);
      CheckMisses(me, listed, wallet, c, CallerOf(Step(me, w, a), o).visible);
    }
  }

  lemma {:induction false} ScanMissesNone(me: Id, ws: seq<Scene>, actions: seq<Action>, m: nat, n: nat,
                                          o: nat, owner: Option<Id>, wallet: Id)
    requires IsRun(me, ws, actions) && m < n < |ws| && actions[m] == Scan(o, owner, wallet)
    requires !IsOpen(ws[m].saga.stream) && forall i :: m < i < n ==> !(actions[i].Plan? && actions[i].o == o)
    ensures NoneMissed(me, ws[m].minted, wallet, CallerOf(ws[n], o)) && !IsOpen(ws[n].saga.stream)
  {
    RunKeepsInv(me, ws, actions, n - 1);
    if n == m + 1 {
      forall k | 0 <= k < |ws[m].minted| && ws[m].minted[k].wallet == wallet
        ensures ws[m].minted[k] in OfWallet(ws[m].minted, wallet)
      {
      }
    } else {
      ScanMissesNone(me, ws, actions, m, n - 1, o, owner, wallet);
      StepMissesNone(me, ws[n - 1], actions[n - 1], o, ws[m].minted, wallet);
    }
  }

  /** Once a Transaction has completed or been rolled back, every caller's scan of
      a Wallet begun from then on ends with all the Tokens it tagged there
      visible: nothing stays hidden. */
  lemma ClosedTokensAreFree(me: Id, ws: seq<Scene>, actions: seq<Action>, m: nat, n: nat,
                            o: nat, owner: Option<Id>, wallet: Id, k: nat)
    requires IsRun(me, ws, actions) && m < n < |ws| && actions[m] == Scan(o, owner, wallet)
    requires TopLevelState(ws[m].saga.stream).IsCompleted? || TopLevelState(ws[m].saga.stream).IsRolledBack?
    requires forall i :: m < i < n ==> !(actions[i].Plan? && actions[i].o == o)
    requires k < |ws[m].minted| && ws[m].minted[k].wallet == wallet && ws[m].minted[k].tag == Some(me)
    ensures CallerOf(ws[n], o).Scanning?
    ensures CallerOf(ws[n], o).todo == [] ==> ws[m].minted[k].token in CallerOf(ws[n], o).visible
  {
    ScanMissesNone(me, ws, actions, m, n, o, owner, wallet);
  }
}
