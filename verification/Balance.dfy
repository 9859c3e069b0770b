/** Recording a Token's ledger balance on its own stream: any number of saga
    steps writing to its account and recording what they moved, each driven by
    any number of drivers, interleaved at every load, read and append
    (go/internal/token/balance.go, go/internal/transfer/saga.go). */
module Balance {
  /** TokenBalanceRecorded's figures. */
  datatype Figures = Figures(posted: int, pendingOut: nat, pendingIn: nat)

  /** One driver of a saga step. */
  datatype Pc =
    | Idle
    | Owing(step: nat)                       // the step's ledger writes are made, recording is next
    | Loaded(step: nat, n: nat)              // loaded a stream of `n` recordings
    | Observed(step: nat, n: nat, version: nat)
    | Refused(step: nat)                     // refused by the ledger, about to record Failed instead

  /** The account's successive figures, the recordings on the Token's stream,
      the version each was read at and the version standing when it landed, a
      version being how many writes the account has seen. `written` has the
      version each step's last write made. A step's outcome lands once: in
      `recorded` with the balances, in `failed` without. `strayed` says some
      driver skipped on figures that had come back. */
  datatype World = World(
    history: seq<Figures>, stream: seq<Figures>, readAt: seq<nat>, landedAt: seq<nat>,
    written: map<nat, nat>, recorded: set<nat>, failed: set<nat>, drivers: map<nat, Pc>, strayed: bool)

  /** `Retry` drives a step whose writes are already there. `Leave` is a driver
      that stops anywhere, its step being as it was: it found the outcome on
      record, lost its claim, lost its append on some other stream, or crashed.
      A recording no outcome follows is a step of its own. */
  datatype Action =
    | Write(d: nat, s: nat, figures: Figures)
    | Retry(d: nat, s: nat)
    | Refuse(d: nat, s: nat)
    | Load(d: nat)
    | Read(d: nat)
    | Append(d: nat)
    | Fail(d: nat)
    | Leave(d: nat)

  function PcOf(w: World, d: nat): Pc { if d in w.drivers then w.drivers[d] else Idle }

  function Goto(w: World, d: nat, pc: Pc): World { w.(drivers := w.drivers[d := pc]) }

  predicate Concluded(w: World, s: nat) { s in w.recorded || s in w.failed }

  predicate Recording(pc: Pc, s: nat) { (pc.Loaded? || pc.Observed?) && pc.step == s }

  /** All of a step's writes come before any driver of it records, though perhaps
      after its Failed has landed. A refusal says that none has been made. */
  predicate Enabled(w: World, a: Action) {
    match a
    case Write(d, s, _) =>
      && (PcOf(w, d).Idle? || PcOf(w, d) == Owing(s)) && s !in w.recorded
      && forall x :: x in w.drivers ==> !Recording(w.drivers[x], s)
    case Retry(d, s) => PcOf(w, d).Idle? && s in w.written
    case Refuse(d, s) => PcOf(w, d).Idle? && s !in w.written && !Concluded(w, s)
    case Load(d) => PcOf(w, d).Owing?
    case Read(d) => PcOf(w, d).Loaded?
    case Append(d) => PcOf(w, d).Observed?
    case Fail(d) => PcOf(w, d).Refused?
    case Leave(_) => true
  }

  predicate Sized(w: World) {
    && w.history != [] && |w.readAt| == |w.stream| == |w.landedAt|
    && (forall d :: d in w.drivers && w.drivers[d].Observed? ==>
          w.drivers[d].version < |w.history| && w.drivers[d].n <= |w.stream|)
  }

  /** The figures read equal the last ones on the stream as loaded. */
  predicate Skips(w: World, n: nat, version: nat)
    requires version < |w.history| && n <= |w.stream|
  {
    n > 0 && w.history[version] == w.stream[n - 1]
  }

  /** The atomic append of an outcome and its balances. It is lost if the outcome
      has landed meanwhile, or the Token's stream has grown. */
  function Appended(w: World, d: nat): World
    requires Sized(w) && PcOf(w, d).Observed?
  {
    var pc := PcOf(w, d);
    if Concluded(w, pc.step) then Goto(w, d, Owing(pc.step))
    else if Skips(w, pc.n, pc.version) then
      Goto(w, d, Idle).(recorded := w.recorded + {pc.step}, strayed := w.strayed || w.readAt[pc.n - 1] != pc.version)
    else if |w.stream| != pc.n then Goto(w, d, Owing(pc.step))
    else
      Goto(w, d, Idle).(
        recorded := w.recorded + {pc.step}, stream := w.stream + [w.history[pc.version]],
        readAt := w.readAt + [pc.version], landedAt := w.landedAt + [|w.history| - 1])
  }

  function Step(w: World, a: Action): World
    requires Sized(w) && Enabled(w, a)
  {
    match a
    case Write(d, s, figures) =>
      Goto(w, d, Owing(s)).(history := w.history + [figures], written := w.written[s := |w.history|])
    case Retry(d, s) => Goto(w, d, Owing(s))
    case Refuse(d, s) => Goto(w, d, Refused(s))
    case Load(d) => Goto(w, d, Loaded(PcOf(w, d).step, |w.stream|))
    case Read(d) => Goto(w, d, Observed(PcOf(w, d).step, PcOf(w, d).n, |w.history| - 1))
    case Append(d) => Appended(w, d)
    case Fail(d) =>
      var s := PcOf(w, d).step;
      Goto(w, d, Idle).(failed := if Concluded(w, s) then w.failed else w.failed + {s})
    case Leave(d) => Goto(w, d, Idle)
  }

  function Opened(figures: Figures): World { World([figures], [], [], [], map[], {}, {}, map[], false) }

  ghost predicate IsRun(ws: seq<World>, actions: seq<Action>) {
    && |ws| == |actions| + 1 && (exists figures :: ws[0] == Opened(figures))
    && forall i :: 0 <= i < |actions| ==>
         Sized(ws[i]) && Enabled(ws[i], actions[i]) && ws[i + 1] == Step(ws[i], actions[i])
  }

  ghost predicate Reachable(w: World) { exists ws, actions :: IsRun(ws, actions) && ws[|ws| - 1] == w }

  // ---- What every step keeps -----------------------------------------------

  /** Recordings are ledger figures, each read after every earlier one landed. */
  predicate Ordered(w: World) {
    && |w.readAt| == |w.landedAt| == |w.stream|
    && (forall i :: 0 <= i < |w.stream| ==>
          w.readAt[i] <= w.landedAt[i] < |w.history| && w.stream[i] == w.history[w.readAt[i]])
    && (forall i, j :: 0 <= i < j < |w.stream| ==> w.landedAt[i] <= w.readAt[j])
  }

  /** A driver that records has its step's writes behind it. */
  predicate Knows(w: World, pc: Pc) {
    match pc
    case Idle => true
    case Refused(_) => true
    case Owing(s) => s in w.written
    case Loaded(s, n) => s in w.written && n <= |w.stream|
    case Observed(s, n, version) =>
      && s in w.written && w.written[s] <= version < |w.history| && n <= |w.stream| == |w.landedAt|
      && forall i :: 0 <= i < n ==> w.landedAt[i] <= version
  }

  /** Each version is some step's, and a step's last write made the latest. */
  ghost predicate Written(w: World) {
    && (forall s :: s in w.written ==> w.written[s] < |w.history|)
    && (|w.history| > 1 ==> exists s :: s in w.written && w.written[s] == |w.history| - 1)
  }

  /** The last recording reflects the writes of step `s`. */
  predicate Reflects(w: World, s: nat) {
    s in w.written && w.readAt != [] && w.written[s] <= w.readAt[|w.readAt| - 1]
  }

  ghost predicate Inv(w: World) {
    && Sized(w) && Ordered(w) && Written(w) && (forall d :: Knows(w, PcOf(w, d)))
    && (!w.strayed ==> forall s :: s in w.recorded ==> Reflects(w, s))
  }

  /** Driver `d` alone moves, and nothing it or others rely on is taken back. */
  ghost predicate Grows(w: World, w': World, d: nat) {
    && Sized(w) && Sized(w') && w.history <= w'.history && w.landedAt <= w'.landedAt
    && forall x :: x != d ==> PcOf(w', x) == PcOf(w, x)
  }

  lemma Settle(w: World, w': World, d: nat)
    requires Grows(w, w', d) && w'.written == w.written && Knows(w', PcOf(w', d))
    requires forall x :: Knows(w, PcOf(w, x))
    ensures forall x :: Knows(w', PcOf(w', x))
  {
    forall x ensures Knows(w', PcOf(w', x)) { if x != d { assert Knows(w, PcOf(w, x)); } }
  }

  lemma WriteSettles(w: World, d: nat, s: nat, figures: Figures)
    requires Inv(w) && Enabled(w, Write(d, s, figures))
    ensures forall x :: Knows(Step(w, Write(d, s, figures)), PcOf(Step(w, Write(d, s, figures)), x))
  {
    var w' := Step(w, Write(d, s, figures));
    forall x ensures Knows(w', PcOf(w', x)) {
      assert Knows(w, PcOf(w, x));
      assert x != d ==> PcOf(w', x) == PcOf(w, x) && !Recording(PcOf(w, x), s);
    }
  }

  lemma WriteKeeps(w: World, d: nat, s: nat, figures: Figures)
    requires Inv(w) && Enabled(w, Write(d, s, figures))
    ensures Inv(Step(w, Write(d, s, figures)))
  {
    var w' := Step(w, Write(d, s, figures));
    WriteSettles(w, d, s, figures);
    assert w'.written[s] == |w'.history| - 1;
    if !w.strayed { forall t | t in w'.recorded ensures Reflects(w', t) { assert Reflects(w, t); } }
  }

  /** A driver's own move, with no write, recording or outcome. */
  lemma PcKeeps(w: World, d: nat, pc: Pc)
    requires Inv(w) && Knows(w, pc)
    ensures Inv(Goto(w, d, pc))
  {
    var w' := Goto(w, d, pc);
    Settle(w, w', d);
    if !w.strayed { forall t | t in w'.recorded ensures Reflects(w', t) { assert Reflects(w, t); } }
  }

  lemma LastIsNewest(w: World, i: nat)
    requires Sized(w) && Ordered(w) && i < |w.stream|
    ensures w.readAt[i] <= w.readAt[|w.readAt| - 1]
  {
  }

  lemma LandKeeps(w: World, d: nat)
    requires Inv(w) && PcOf(w, d).Observed? && !Concluded(w, PcOf(w, d).step)
    requires !Skips(w, PcOf(w, d).n, PcOf(w, d).version) && |w.stream| == PcOf(w, d).n
    ensures Inv(Step(w, Append(d)))
  {
    var pc, w' := PcOf(w, d), Step(w, Append(d));
    assert Knows(w, pc);
    assert Ordered(w');
    Settle(w, w', d);
    if !w.strayed {
      forall t | t in w'.recorded ensures Reflects(w', t) {
        if t != pc.step { assert Reflects(w, t); assert w.readAt[pc.n - 1] <= w.landedAt[pc.n - 1] <= pc.version; }
      }
    }
  }

  lemma SkipKeeps(w: World, d: nat)
    requires Inv(w) && PcOf(w, d).Observed? && !Concluded(w, PcOf(w, d).step)
    requires Skips(w, PcOf(w, d).n, PcOf(w, d).version)
    ensures Inv(Step(w, Append(d)))
  {
    var pc, w' := PcOf(w, d), Step(w, Append(d));
    assert Knows(w, pc);
    Settle(w, w', d);
    if !w'.strayed {
      LastIsNewest(w, pc.n - 1);
      forall t | t in w'.recorded ensures Reflects(w', t) { if t != pc.step { assert Reflects(w, t); } }
    }
  }

  lemma AppendKeeps(w: World, d: nat)
    requires Inv(w) && PcOf(w, d).Observed?
    ensures Inv(Step(w, Append(d)))
  {
    var pc := PcOf(w, d);
    assert Knows(w, pc);
    if Concluded(w, pc.step) { PcKeeps(w, d, Owing(pc.step)); }
    else if Skips(w, pc.n, pc.version) { SkipKeeps(w, d); }
    else if |w.stream| != pc.n { PcKeeps(w, d, Owing(pc.step)); }
    else { LandKeeps(w, d); }
  }

  lemma FailKeeps(w: World, d: nat)
    requires Inv(w) && PcOf(w, d).Refused?
    ensures Inv(Step(w, Fail(d)))
  {
    var w' := Step(w, Fail(d));
    Settle(w, w', d);
    if !w.strayed { forall t | t in w'.recorded ensures Reflects(w', t) { assert Reflects(w, t); } }
  }

  lemma StepKeeps(w: World, a: Action)
    requires Inv(w) && Enabled(w, a)
    ensures Inv(Step(w, a))
  {
    match a
    case Write(d, s, figures) => WriteKeeps(w, d, s, figures);
    case Retry(d, s) => PcKeeps(w, d, Owing(s));
    case Refuse(d, s) => PcKeeps(w, d, Refused(s));
    case Load(d) => assert Knows(w, PcOf(w, d)); PcKeeps(w, d, Loaded(PcOf(w, d).step, |w.stream|));
    case Read(d) => ReadKeeps(w, d);
    case Append(d) => AppendKeeps(w, d);
    case Fail(d) => FailKeeps(w, d);
    case Leave(d) => PcKeeps(w, d, Idle);
  }

  lemma ReadKeeps(w: World, d: nat)
    requires Inv(w) && PcOf(w, d).Loaded?
    ensures Inv(Step(w, Read(d)))
  {
    assert Knows(w, PcOf(w, d));
    PcKeeps(w, d, Observed(PcOf(w, d).step, PcOf(w, d).n, |w.history| - 1));
  }

  lemma {:induction false} RunKeepsInv(ws: seq<World>, actions: seq<Action>, n: nat)
    requires IsRun(ws, actions) && n < |ws|
    ensures Inv(ws[n])
  {
    if n > 0 {
      RunKeepsInv(ws, actions, n - 1);
      StepKeeps(ws[n - 1], actions[n - 1]);
    }
  }

  lemma ReachableInv(w: World)
    requires Reachable(w)
    ensures Inv(w)
  {
    var ws, actions :| IsRun(ws, actions) && ws[|ws| - 1] == w;
    RunKeepsInv(ws, actions, |ws| - 1);
  }

  // ---- Theorems ------------------------------------------------------------

  /** Along a Token's stream, every recording holds figures the account really
      had, read at or after every ledger write that preceded any earlier
      recording. */
  lemma RecordingsAreInOrder(w: World, i: nat, j: nat)
    requires Reachable(w) && i < j < |w.stream|
    ensures |w.readAt| == |w.landedAt| == |w.stream| && w.readAt[i] <= w.landedAt[i] <= w.readAt[j] < |w.history|
    ensures w.stream[i] == w.history[w.readAt[i]] && w.stream[j] == w.history[w.readAt[j]]
  {
    ReachableInv(w);
  }

  /** The last recording is what the account holds. */
  predicate Current(w: World) {
    w.stream != [] && w.history != [] && w.stream[|w.stream| - 1] == w.history[|w.history| - 1]
  }

  /** When every step that wrote has recorded and no skip strayed, the Token is
      current. */
  lemma AllRecordedIsCurrent(w: World)
    requires Reachable(w) && w.written.Keys <= w.recorded && !w.strayed && |w.history| > 1
    ensures Current(w)
  {
    ReachableInv(w);
    var s :| s in w.written && w.written[s] == |w.history| - 1;
    assert Reflects(w, s);
  }

  predicate NeverReturns(history: seq<Figures>) {
    forall i, j :: 0 <= i < j < |history| ==> history[i] != history[j]
  }

  /** No skip strays while the account never returns to figures it had before. */
  lemma {:induction false} NoReturnNoStray(ws: seq<World>, actions: seq<Action>, n: nat)
    requires IsRun(ws, actions) && n < |ws| && NeverReturns(ws[n].history)
    ensures !ws[n].strayed
  {
    if n > 0 {
      RunKeepsInv(ws, actions, n - 1);
      HistoryGrows(ws[n - 1], actions[n - 1]);
      NoReturnNoStray(ws, actions, n - 1);
    }
  }

  lemma HistoryGrows(w: World, a: Action)
    requires Sized(w) && Enabled(w, a)
    ensures w.history <= Step(w, a).history
  {
  }

  lemma CurrentWithoutReturn(w: World)
    requires Reachable(w) && w.written.Keys <= w.recorded && NeverReturns(w.history) && |w.history| > 1
    ensures Current(w)
  {
    var ws, actions :| IsRun(ws, actions) && ws[|ws| - 1] == w;
    NoReturnNoStray(ws, actions, |ws| - 1);
    AllRecordedIsCurrent(w);
  }

  // ---- Figures that come back ----------------------------------------------

  lemma ReachableStep(w: World, a: Action)
    requires Reachable(w) && Enabled(w, a)
    ensures Sized(w) && Reachable(Step(w, a))
  {
    ReachableInv(w);
    var ws, actions :| IsRun(ws, actions) && ws[|ws| - 1] == w;
    var ws', actions' := ws + [Step(w, a)], actions + [a];
    forall i | 0 <= i < |actions'|
      ensures Sized(ws'[i]) && Enabled(ws'[i], actions'[i]) && ws'[i + 1] == Step(ws'[i], actions'[i])
    {
      if i < |actions| { assert ws'[i] == ws[i] && ws'[i + 1] == ws[i + 1] && actions'[i] == actions[i]; }
    }
    assert ws'[0] == ws[0];
    assert IsRun(ws', actions');
  }

  lemma Opens(figures: Figures)
    ensures Reachable(Opened(figures))
  {
    var w := Opened(figures);
    assert IsRun([w], []) && [w][|[w]| - 1] == w;
  }

  /** One driver's load and ledger read, nobody interfering. */
  lemma LoadsAndReads(w: World, d: nat) returns (w': World)
    requires Reachable(w) && PcOf(w, d).Owing? && w.history != []
    ensures Reachable(w') && w' == Goto(w, d, Observed(PcOf(w, d).step, |w.stream|, |w.history| - 1))
  {
    ReachableStep(w, Load(d));
    var w1 := Step(w, Load(d));
    ReachableStep(w1, Read(d));
    w' := Step(w1, Read(d));
    assert w'.drivers == w.drivers[d := Observed(PcOf(w, d).step, |w.stream|, |w.history| - 1)];
  }

  /** And its step's ledger write before them: driver `d` drives step `d`. */
  lemma Observes(w: World, d: nat, figures: Figures) returns (w': World)
    requires Reachable(w) && PcOf(w, d).Idle? && d !in w.recorded
    requires forall x :: x in w.drivers ==> !Recording(w.drivers[x], d)
    ensures Reachable(w') && Sized(w')
    ensures w' == Goto(w, d, Observed(d, |w.stream|, |w.history|))
                  .(history := w.history + [figures], written := w.written[d := |w.history|])
  {
    ReachableStep(w, Write(d, d, figures));
    w' := LoadsAndReads(Step(w, Write(d, d, figures)), d);
    assert w'.drivers == w.drivers[d := Observed(d, |w.stream|, |w.history|)];
    ReachableInv(w');
  }

  /** Its append. */
  lemma Lands(w: World, d: nat) returns (w': World)
    requires Reachable(w) && PcOf(w, d).Observed? && Sized(w)
    ensures Reachable(w') && w' == Step(w, Append(d))
  {
    ReachableStep(w, Append(d));
    w' := Step(w, Append(d));
  }

  const Z := Figures(0, 0, 0)
  const A := Figures(10, 0, 0)
  const B := Figures(20, 0, 0)

  /** The first step has recorded A. */
  lemma RecordsA() returns (w: World)
    ensures Reachable(w) && w == World([Z, A], [A], [1], [1], map[0 := 1], {0}, {}, map[0 := Idle], false)
  {
    Opens(Z);
    w := Observes(Opened(Z), 0, A);
    w := Lands(w, 0);
  }

  /** The second has read B but not appended; the third finds A again, and skips. */
  lemma SkipsA() returns (w: World)
    ensures Reachable(w)
    ensures w == World([Z, A, B, A], [A], [1], [1], map[0 := 1, 1 := 2, 2 := 3], {0, 2}, {},
                       map[0 := Idle, 1 := Observed(1, 1, 2), 2 := Idle], true)
  {
    w := RecordsA();
    w := Observes(w, 1, B);
    assert w == World([Z, A, B], [A], [1], [1], map[0 := 1, 1 := 2], {0}, {},
                      map[0 := Idle, 1 := Observed(1, 1, 2)], false);
    w := Observes(w, 2, A);
    w := Lands(w, 2);
  }

  /** A driver that skips leaves no trace on the stream, so when the figures have
      come back an older observation can still land after it: every step has
      recorded, yet the last recording is not what the account holds. */
  lemma SkippedReturnLeavesStaleBalance() returns (w: World)
    ensures Reachable(w) && w.written.Keys <= w.recorded && w.stream != [] && !Current(w)
  {
    w := SkipsA();
    ReachableInv(w);
    w := Lands(w, 1);
  }

  /** A Failed carries no balances, so one recorded late, over a step that has
      written meanwhile, leaves the account's figures on no stream. */
  lemma LateFailureLeavesNoBalance() returns (w: World)
    ensures Reachable(w) && |w.history| > 1 && w.stream == []
    ensures forall s :: s in w.written ==> Concluded(w, s)
  {
    Opens(Z);
    ReachableStep(Opened(Z), Refuse(1, 0));
    w := Step(Opened(Z), Refuse(1, 0));
    ReachableStep(w, Write(0, 0, A));
    w := Step(w, Write(0, 0, A));
    ReachableStep(w, Fail(1));
    w := Step(w, Fail(1));
  }
}
