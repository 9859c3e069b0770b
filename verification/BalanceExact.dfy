/** When a Token's recordings are bound to end at its ledger balance: from any
    moment on, once its account is written no more and whatever else drivers do,
    exactly when some step that wrote cannot conclude without recording what
    stands (go/internal/token/balance.go, go/internal/transfer/saga.go). */
module BalanceExact {
  import opened Balance

  // ---- Settling ------------------------------------------------------------

  /** Everything but a ledger write: drivers record, skip, lose, fail, return,
      leave and come back as they like. */
  predicate Settling(a: Action) { !a.Write? }

  ghost predicate IsPath(ws: seq<World>, actions: seq<Action>) {
    && |ws| == |actions| + 1
    && forall i :: 0 <= i < |actions| ==>
         Sized(ws[i]) && Settling(actions[i]) && Enabled(ws[i], actions[i]) && ws[i + 1] == Step(ws[i], actions[i])
  }

  ghost predicate CanSettle(w: World, w': World) {
    exists ws, actions :: IsPath(ws, actions) && ws[0] == w && ws[|ws| - 1] == w'
  }

  /** Every step that wrote has its outcome. */
  predicate Settled(w: World) { forall s :: s in w.written ==> Concluded(w, s) }

  /** However drivers go on, once every step is concluded the Token is current. */
  ghost predicate SettlesCurrent(w: World) {
    forall w' :: CanSettle(w, w') && Settled(w') ==> Current(w')
  }

  // ---- Who can still record what -------------------------------------------

  predicate Loads(w: World, pc: Pc) {
    (pc.Loaded? || pc.Observed?) && pc.n <= |w.stream| && (pc.Observed? ==> pc.version < |w.history|)
  }

  /** What a driver that has loaded will compare: the figures it read, or those
      standing. */
  function Figure(w: World, pc: Pc): Figures
    requires w.history != [] && Loads(w, pc)
  {
    if pc.Observed? then w.history[pc.version] else w.history[|w.history| - 1]
  }

  /** Can skip: its figures end the stream as it loaded it. */
  predicate IsSkipper(w: World, pc: Pc)
    requires w.history != []
  {
    Loads(w, pc) && !Concluded(w, pc.step) && pc.n > 0 && w.stream[pc.n - 1] == Figure(w, pc)
  }

  /** Can land figures that stand no more. */
  predicate IsStale(w: World, pc: Pc)
    requires w.history != []
  {
    && pc.Observed? && Loads(w, pc) && !Concluded(w, pc.step) && pc.n == |w.stream| && !IsSkipper(w, pc)
    && w.history[pc.version] != w.history[|w.history| - 1]
  }

  /** Can conclude step `s` and record nothing. */
  predicate Drops(w: World, pc: Pc, s: nat)
    requires w.history != []
  {
    !pc.Idle? && pc.step == s && (IsSkipper(w, pc) || pc.Refused?)
  }

  /** A step that wrote and is yet to conclude, with no driver about to skip it or
      fail it: whoever drives it must first read the figures that stand. */
  ghost predicate Forced(w: World, s: nat)
    requires w.history != []
  {
    s in w.written && !Concluded(w, s) && forall d :: !Drops(w, PcOf(w, d), s)
  }

  /** Current, and nobody about to land outdated figures; or some step is forced,
      and one stays so whichever outdated figures land first. */
  ghost predicate Bound(w: World)
    requires w.history != []
  {
    if Current(w) then forall d :: !IsStale(w, PcOf(w, d))
    else
      && (exists s :: Forced(w, s))
      && forall d :: IsStale(w, PcOf(w, d)) ==> exists s :: Forced(w, s) && s != PcOf(w, d).step
  }

  // ---- Settling keeps the bond ---------------------------------------------

  predicate Lands(w: World, a: Action)
    requires Sized(w) && Enabled(w, a)
  {
    && a.Append? && !Concluded(w, PcOf(w, a.d).step)
    && !Skips(w, PcOf(w, a.d).n, PcOf(w, a.d).version) && |w.stream| == PcOf(w, a.d).n
  }

  lemma HistoryStands(w: World, a: Action)
    requires Inv(w) && Settling(a) && Enabled(w, a)
    ensures Step(w, a).history == w.history && Step(w, a).written == w.written
    ensures w.stream <= Step(w, a).stream && (!Lands(w, a) ==> Step(w, a).stream == w.stream)
  {
  }

  lemma OthersStand(w: World, a: Action, x: nat)
    requires Inv(w) && Settling(a) && Enabled(w, a)
    ensures x != a.d ==> PcOf(Step(w, a), x) == PcOf(w, x)
  {
  }

  lemma OutcomesStand(w: World, a: Action, s: nat)
    requires Inv(w) && Settling(a) && Enabled(w, a) && Concluded(w, s)
    ensures Concluded(Step(w, a), s)
  {
  }

  /** A step is concluded by whoever drops it or lands for it. */
  lemma ConcludedBy(w: World, a: Action, s: nat)
    requires Inv(w) && Settling(a) && Enabled(w, a) && !Concluded(w, s) && Concluded(Step(w, a), s)
    ensures Drops(w, PcOf(w, a.d), s) || (Lands(w, a) && PcOf(w, a.d).step == s)
  {
    assert Knows(w, PcOf(w, a.d));
  }

  /** Nobody newly becomes able to drop a step while the Token is not current. */
  lemma DropsWasThere(w: World, a: Action, x: nat, s: nat)
    requires Inv(w) && Settling(a) && Enabled(w, a) && !Current(w) && s in w.written
    requires Drops(Step(w, a), PcOf(Step(w, a), x), s)
    ensures Drops(w, PcOf(w, x), s)
  {
    assert Knows(w, PcOf(w, x));
    HistoryStands(w, a);
    OthersStand(w, a, x);
    if PcOf(w, x) != Idle && Concluded(w, PcOf(w, x).step) { OutcomesStand(w, a, PcOf(w, x).step); }
  }

  lemma ForcedStays(w: World, a: Action, s: nat)
    requires Inv(w) && Settling(a) && Enabled(w, a) && !Current(w) && Forced(w, s)
    requires Lands(w, a) ==> PcOf(w, a.d).step != s
    ensures Forced(Step(w, a), s)
  {
    HistoryStands(w, a);
    if Concluded(Step(w, a), s) { ConcludedBy(w, a, s); }
    forall x ensures !Drops(Step(w, a), PcOf(Step(w, a), x), s) {
      if Drops(Step(w, a), PcOf(Step(w, a), x), s) { DropsWasThere(w, a, x, s); }
    }
  }

  /** Nobody newly becomes stale, and whoever stands while another lands is
      overtaken. */
  lemma StaleWasThere(w: World, a: Action, x: nat)
    requires Inv(w) && Settling(a) && Enabled(w, a) && IsStale(Step(w, a), PcOf(Step(w, a), x))
    ensures !Lands(w, a) && IsStale(w, PcOf(w, x)) && PcOf(Step(w, a), x) == PcOf(w, x)
  {
    assert Knows(w, PcOf(w, x));
    HistoryStands(w, a);
    OthersStand(w, a, x);
    if PcOf(w, x) != Idle && Concluded(w, PcOf(w, x).step) { OutcomesStand(w, a, PcOf(w, x).step); }
  }

  /** What lands is stale or makes the Token current. */
  lemma LandedIsCurrent(w: World, a: Action)
    requires Inv(w) && Settling(a) && Enabled(w, a) && Lands(w, a)
    ensures Current(Step(w, a)) <==> !IsStale(w, PcOf(w, a.d))
  {
    assert Knows(w, PcOf(w, a.d));
  }

  lemma CurrentKeepsBond(w: World, a: Action)
    requires Inv(w) && Settling(a) && Enabled(w, a) && Current(w) && Bound(w)
    ensures Bound(Step(w, a))
  {
    HistoryStands(w, a);
    if Lands(w, a) { LandedIsCurrent(w, a); }
    forall x ensures !IsStale(Step(w, a), PcOf(Step(w, a), x)) {
      if IsStale(Step(w, a), PcOf(Step(w, a), x)) { StaleWasThere(w, a, x); }
    }
  }

  lemma LandingKeepsBond(w: World, a: Action)
    requires Inv(w) && Settling(a) && Enabled(w, a) && !Current(w) && Bound(w) && Lands(w, a)
    ensures Bound(Step(w, a))
  {
    LandedIsCurrent(w, a);
    forall x ensures !IsStale(Step(w, a), PcOf(Step(w, a), x)) {
      if IsStale(Step(w, a), PcOf(Step(w, a), x)) { StaleWasThere(w, a, x); }
    }
    if !Current(Step(w, a)) {
      var s :| Forced(w, s) && s != PcOf(w, a.d).step;
      ForcedStays(w, a, s);
    }
  }

  lemma QuietStepKeepsBond(w: World, a: Action)
    requires Inv(w) && Settling(a) && Enabled(w, a) && !Current(w) && Bound(w) && !Lands(w, a)
    ensures Bound(Step(w, a))
  {
    HistoryStands(w, a);
    var s :| Forced(w, s);
    ForcedStays(w, a, s);
    forall x | IsStale(Step(w, a), PcOf(Step(w, a), x))
      ensures exists t :: Forced(Step(w, a), t) && t != PcOf(Step(w, a), x).step
    {
      StaleWasThere(w, a, x);
      var t :| Forced(w, t) && t != PcOf(w, x).step;
      ForcedStays(w, a, t);
    }
  }

  lemma StepKeepsBond(w: World, a: Action)
    requires Inv(w) && Settling(a) && Enabled(w, a) && Bound(w)
    ensures Inv(Step(w, a)) && Bound(Step(w, a))
  {
    StepKeeps(w, a);
    if Current(w) { CurrentKeepsBond(w, a); }
    else if Lands(w, a) { LandingKeepsBond(w, a); }
    else { QuietStepKeepsBond(w, a); }
  }

  lemma {:induction false} PathKeepsBond(ws: seq<World>, actions: seq<Action>, n: nat)
    requires IsPath(ws, actions) && n < |ws| && Inv(ws[0]) && Bound(ws[0])
    ensures Inv(ws[n]) && Bound(ws[n])
  {
    if n > 0 {
      PathKeepsBond(ws, actions, n - 1);
      StepKeepsBond(ws[n - 1], actions[n - 1]);
    }
  }

  lemma BoundSettlesCurrent(w: World)
    requires Inv(w) && Bound(w)
    ensures SettlesCurrent(w)
  {
    forall w' | CanSettle(w, w') && Settled(w') ensures Current(w') {
      var ws, actions :| IsPath(ws, actions) && ws[0] == w && ws[|ws| - 1] == w';
      PathKeepsBond(ws, actions, |ws| - 1);
      assert forall s :: !Forced(w', s);
    }
  }

  // ---- Without the bond, the Token can end stale ---------------------------

  lemma SettlesToItself(w: World)
    ensures CanSettle(w, w)
  {
    assert IsPath([w], []) && [w][0] == w;
  }

  lemma SettlesOn(w: World, x: World, a: Action)
    requires CanSettle(w, x) && Inv(x) && Settling(a) && Enabled(x, a)
    ensures CanSettle(w, Step(x, a)) && Inv(Step(x, a))
  {
    StepKeeps(x, a);
    var ws, actions :| IsPath(ws, actions) && ws[0] == w && ws[|ws| - 1] == x;
    var ws', actions' := ws + [Step(x, a)], actions + [a];
    forall i | 0 <= i < |actions'|
      ensures Sized(ws'[i]) && Settling(actions'[i]) && Enabled(ws'[i], actions'[i])
      ensures ws'[i + 1] == Step(ws'[i], actions'[i])
    {
      if i < |actions| { assert ws'[i] == ws[i] && ws'[i + 1] == ws[i + 1] && actions'[i] == actions[i]; }
    }
    assert IsPath(ws', actions') && ws'[0] == w;
  }

  function Outcomes(w: World): set<nat> { w.recorded + w.failed }

  /** `y` is `x` but that the steps `done` are concluded, with nothing recorded
      and no driver of another step moved. */
  ghost predicate Dropped(x: World, y: World, done: set<nat>) {
    && Inv(y) && y.history == x.history && y.stream == x.stream && y.written == x.written
    && Outcomes(y) == Outcomes(x) + done
    && forall d :: PcOf(y, d) == PcOf(x, d) || (!PcOf(x, d).Idle? && PcOf(x, d).step in done)
  }

  lemma SkipperDrops(w: World, x: World, d: nat) returns (y: World)
    requires CanSettle(w, x) && Inv(x) && IsSkipper(x, PcOf(x, d))
    ensures CanSettle(w, y) && Dropped(x, y, {PcOf(x, d).step}) && PcOf(y, d).Idle?
  {
    y := x;
    if PcOf(x, d).Loaded? {
      SettlesOn(w, x, Read(d));
      y := Step(x, Read(d));
    }
    SettlesOn(w, y, Append(d));
    y := Step(y, Append(d));
  }

  lemma RefusedDrops(w: World, x: World, d: nat) returns (y: World)
    requires CanSettle(w, x) && Inv(x) && PcOf(x, d).Refused? && !Concluded(x, PcOf(x, d).step)
    ensures CanSettle(w, y) && Dropped(x, y, {PcOf(x, d).step})
  {
    SettlesOn(w, x, Fail(d));
    y := Step(x, Fail(d));
  }

  ghost function Above(ids: set<nat>): (d: nat)
    ensures forall x :: x in ids ==> x < d
  {
    if ids == {} then 0
    else
      var m :| m in ids;
      var d := Above(ids - {m});
      assert forall x :: x in ids ==> x == m || x in ids - {m};
      if d > m then d else m + 1
  }

  lemma NewcomerLoads(w: World, x: World, d: nat, s: nat) returns (y: World)
    requires CanSettle(w, x) && Inv(x) && PcOf(x, d).Idle? && s in x.written
    ensures CanSettle(w, y) && Inv(y) && y == Goto(x, d, Loaded(s, |x.stream|))
  {
    SettlesOn(w, x, Retry(d, s));
    var x1 := Step(x, Retry(d, s));
    SettlesOn(w, x1, Load(d));
    y := Step(x1, Load(d));
    assert y.drivers == x.drivers[d := Loaded(s, |x.stream|)];
  }

  lemma NewcomerGone(x: World, y: World, z: World, d: nat, s: nat)
    requires PcOf(x, d).Idle? && y == Goto(x, d, Loaded(s, |x.stream|)) && Dropped(y, z, {s}) && PcOf(z, d).Idle?
    ensures Dropped(x, z, {s})
  {
    forall e ensures PcOf(z, e) == PcOf(x, e) || (!PcOf(x, e).Idle? && PcOf(x, e).step in {s}) {
      if e != d { assert PcOf(y, e) == PcOf(x, e); }
    }
  }

  /** Over a current stream a new driver finds nothing to record. */
  lemma NewcomerDrops(w: World, x: World, s: nat) returns (y: World)
    requires CanSettle(w, x) && Inv(x) && Current(x) && s in x.written && !Concluded(x, s)
    ensures CanSettle(w, y) && Dropped(x, y, {s})
  {
    var d := Above(x.drivers.Keys);
    assert d !in x.drivers;
    var x' := NewcomerLoads(w, x, d, s);
    y := SkipperDrops(w, x', d);
    NewcomerGone(x, x', y, d, s);
  }

  ghost predicate Droppable(x: World, s: nat)
    requires x.history != []
  {
    s in x.written && !Concluded(x, s) && (Current(x) || exists d :: Drops(x, PcOf(x, d), s))
  }

  lemma DropsOne(w: World, x: World, s: nat) returns (y: World)
    requires CanSettle(w, x) && Inv(x) && Droppable(x, s)
    ensures CanSettle(w, y) && Dropped(x, y, {s})
  {
    if Current(x) {
      y := NewcomerDrops(w, x, s);
    } else {
      var d :| Drops(x, PcOf(x, d), s);
      if PcOf(x, d).Refused? { y := RefusedDrops(w, x, d); } else { y := SkipperDrops(w, x, d); }
    }
  }

  lemma StillDroppable(x: World, y: World, s: nat, t: nat)
    requires Inv(x) && Dropped(x, y, {s}) && Droppable(x, t) && t != s
    ensures Droppable(y, t)
  {
    assert Concluded(y, t) <==> t in Outcomes(y);
    if !Current(x) {
      var d :| Drops(x, PcOf(x, d), t);
      assert Drops(y, PcOf(y, d), t);
    }
  }

  lemma OneMoreDropped(x: World, y: World, z: World, s: nat, done: set<nat>)
    requires Dropped(x, y, {s}) && s in done && Dropped(y, z, done - {s})
    ensures Dropped(x, z, done)
  {
    assert {s} + (done - {s}) == done;
  }

  /** All of `done` can be concluded with nothing recorded. */
  lemma {:induction false} DropsAll(w: World, x: World, done: set<nat>) returns (y: World)
    requires CanSettle(w, x) && Inv(x) && forall s :: s in done ==> Droppable(x, s)
    ensures CanSettle(w, y) && Dropped(x, y, done)
    decreases done
  {
    y := x;
    if done != {} {
      var s :| s in done;
      var x' := DropsOne(w, x, s);
      forall t | t in done - {s} ensures Droppable(x', t) { StillDroppable(x, x', s, t); }
      y := DropsAll(w, x', done - {s});
      OneMoreDropped(x, x', y, s, done);
    }
  }

  ghost function Unconcluded(w: World): set<nat> { set s | s in w.written && !Concluded(w, s) }

  lemma StaleLands(w: World, x: World, last: nat) returns (y: World)
    requires CanSettle(w, x) && Inv(x) && IsStale(x, PcOf(x, last))
    ensures CanSettle(w, y) && !Current(y) && y.written == x.written &&
      Outcomes(y) == Outcomes(x) + {PcOf(x, last).step}
  {
    SettlesOn(w, x, Append(last));
    y := Step(x, Append(last));
  }

  lemma AllConcluded(w: World, y: World, done: set<nat>)
    requires y.written == w.written && Outcomes(y) == Outcomes(w) + done && Unconcluded(w) <= done
    ensures Settled(y)
  {
    forall s | s in y.written ensures Concluded(y, s) { assert s in Outcomes(w) || s in Unconcluded(w); }
  }

  /** Every other step concluded, `last` lands figures that stand no more. */
  lemma StaleOneEnds(w: World, last: nat) returns (y: World)
    requires Inv(w) && IsStale(w, PcOf(w, last))
    requires forall s :: s in Unconcluded(w) - {PcOf(w, last).step} ==> Droppable(w, s)
    ensures CanSettle(w, y) && Settled(y) && !Current(y)
  {
    var s := PcOf(w, last).step;
    var done := Unconcluded(w) - {s};
    SettlesToItself(w);
    var x := DropsAll(w, w, done);
    assert PcOf(x, last) == PcOf(w, last) && s !in Outcomes(x);
    y := StaleLands(w, x, last);
    assert Outcomes(y) == Outcomes(w) + (done + {s});
    AllConcluded(w, y, done + {s});
  }

  lemma UnboundCanEndStale(w: World) returns (y: World)
    requires Inv(w) && !Bound(w)
    ensures CanSettle(w, y) && Settled(y) && !Current(y)
  {
    if last :| IsStale(w, PcOf(w, last)) && (Current(w) || forall s :: Forced(w, s) ==> s == PcOf(w, last).step) {
      forall s | s in Unconcluded(w) - {PcOf(w, last).step} ensures Droppable(w, s) {
        assert Current(w) || !Forced(w, s);
      }
      y := StaleOneEnds(w, last);
    } else {
      forall s | s in Unconcluded(w) ensures Droppable(w, s) { assert !Forced(w, s); }
      SettlesToItself(w);
      y := DropsAll(w, w, Unconcluded(w));
      AllConcluded(w, y, Unconcluded(w));
    }
  }

  /** From any reachable moment, over everything drivers may do while the account
      is written no more: the Token is sure to end current exactly when it is
      Bound to. */
  lemma SettlesCurrentExactly(w: World)
    requires Reachable(w)
    ensures w.history != [] && (SettlesCurrent(w) <==> Bound(w))
  {
    ReachableInv(w);
    if Bound(w) {
      BoundSettlesCurrent(w);
    } else {
      var y := UnboundCanEndStale(w);
    }
  }
}
