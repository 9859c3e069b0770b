/** The Recovery sweep for one entity: concurrent sweeps, a lagging projection
    and Go's own outcomes, interleaved at every query
    (ruby/app/services/ach/recover_due.rb, owed.rb). */
module Recovery {
  import opened X = TransactionStream

  /** A recorded Recovery: where its Transaction stands in Go, and where the
      projection has last seen it. Its sequence is its place in the table. */
  datatype Rec = Rec(amount: nat, clearedSeq: nat, live: Top, seen: Top)

  /** A late deposit return recorded as debt: whether it has completed, and
      whether the projection has seen that. */
  datatype Debt = Debt(amount: nat, done: bool, seen: bool)

  /** A Transaction may have gone from one state to the other. */
  predicate Leads(t: Top, t': Top) {
    match t
    case NoState => true
    case IsInitialized => !t'.NoState? && !t'.IsRejected?
    case IsStarted => t'.IsStarted? || t'.IsCompleted? || t'.IsRollingBack? || t'.IsRolledBack? || t'.IsRollbackFailed?
    case IsRollingBack => t'.IsRollingBack? || t'.IsRolledBack? || t'.IsRollbackFailed?
    case _ => t' == t
  }

  predicate Refused(t: Top) { t.IsRejected? || t.IsRolledBack? }

  predicate Settled(t: Top) { t.IsCompleted? || Refused(t) }

  /** may_follow?: another Recovery only after one that completed, or after one
      that was refused once cleared cash has moved on. */
  predicate MayFollow(state: Top, latest: Rec, clearedSeq: nat) {
    if state.IsInitialized? || state.IsStarted? || state.IsRollingBack? || state.IsRollbackFailed? then false
    else if !Refused(state) then true
    else clearedSeq > latest.clearedSeq
  }

  // ---- What is owed --------------------------------------------------------

  function Completed(recs: seq<Rec>, n: nat): nat
    requires n <= |recs|
  {
    if n == 0 then 0 else Completed(recs, n - 1) + if recs[n - 1].live.IsCompleted? then recs[n - 1].amount else 0
  }

  function SeenCompleted(recs: seq<Rec>, n: nat): nat
    requires n <= |recs|
  {
    if n == 0 then 0 else SeenCompleted(recs, n - 1) + if recs[n - 1].seen.IsCompleted? then recs[n - 1].amount else 0
  }

  /** What has been, or may yet be, collected. */
  function Exposed(recs: seq<Rec>, n: nat): nat
    requires n <= |recs|
  {
    if n == 0 then 0 else Exposed(recs, n - 1) + if Refused(recs[n - 1].live) then 0 else recs[n - 1].amount
  }

  function DebtDone(debts: seq<Debt>, n: nat): nat
    requires n <= |debts|
  {
    if n == 0 then 0 else DebtDone(debts, n - 1) + if debts[n - 1].done then debts[n - 1].amount else 0
  }

  function DebtSeen(debts: seq<Debt>, n: nat): nat
    requires n <= |debts|
  {
    if n == 0 then 0 else DebtSeen(debts, n - 1) + if debts[n - 1].seen then debts[n - 1].amount else 0
  }

  /** for_recovery: completed debt less what was recovered, never negative. */
  function ForRecovery(returned: nat, recovered: nat): nat { if returned > recovered then returned - recovered else 0 }

  function Least(a: nat, b: int): int { if b < a then b else a }

  // ---- Steps ---------------------------------------------------------------

  /** A sweep between two of its queries. */
  datatype Pc =
    | Idle
    | Latest(n: nat)                                             // the latest Recovery is the n-th
    | Cash(n: nat, available: int, clearedSeq: nat)
    | Due(n: nat, available: int, clearedSeq: nat)               // may_follow? said yes
    | Returned(n: nat, available: int, clearedSeq: nat, returned: nat)
    | Sized(n: nat, amount: nat, clearedSeq: nat)

  datatype World = World(recs: seq<Rec>, debts: seq<Debt>, sweeps: map<nat, Pc>)

  const Start: World := World([], [], map[])

  function PcOf(w: World, s: nat): Pc { if s in w.sweeps then w.sweeps[s] else Idle }

  function Goto(w: World, s: nat, pc: Pc): World { w.(sweeps := w.sweeps[s := pc]) }

  datatype Action =
    | Notice(amount: nat)                 // a late return is recorded
    | DebtCompletes(i: nat)
    | DebtSeenBy(i: nat)                  // the projection catches up
    | GoMoves(i: nat, to: Top)
    | RecSeen(i: nat, to: Top)
    | ReadLatest(s: nat)
    | ReadCash(s: nat, available: int, clearedSeq: nat)
    | Decide(s: nat)                      // reads the latest one's projected state
    | ReadReturned(s: nat)
    | ReadRecovered(s: nat)
    | Insert(s: nat)                      // under the unique (entity, sequence) index
    | Stop(s: nat)

  predicate Enabled(w: World, a: Action) {
    match a
    case Notice(_) => true
    case DebtCompletes(i) => i < |w.debts|
    case DebtSeenBy(i) => i < |w.debts| && w.debts[i].done
    case GoMoves(i, to) => i < |w.recs| && Leads(w.recs[i].live, to)
    case RecSeen(i, to) => i < |w.recs| && Leads(w.recs[i].seen, to) && Leads(to, w.recs[i].live)
    case ReadLatest(s) => PcOf(w, s).Idle?
    case ReadCash(s, _, _) => PcOf(w, s).Latest?
    case Decide(s) => PcOf(w, s).Cash? && PcOf(w, s).n <= |w.recs|
    case ReadReturned(s) => PcOf(w, s).Due?
    case ReadRecovered(s) => PcOf(w, s).Returned?
    case Insert(s) => PcOf(w, s).Sized?
    case Stop(_) => true
  }

  /** next_recovery, once the latest one's state is known: send it again when the
      read model has not seen it, wait, or go on to size the next. */
  function AfterState(w: World, pc: Pc): Pc
    requires pc.Cash? && pc.n <= |w.recs|
  {
    if pc.n == 0 then Due(0, pc.available, pc.clearedSeq)
    else
      var latest := w.recs[pc.n - 1];
      if latest.seen.NoState? || !MayFollow(latest.seen, latest, pc.clearedSeq) then Idle
      else Due(pc.n, pc.available, pc.clearedSeq)
  }

  function AfterSums(w: World, pc: Pc): Pc
    requires pc.Returned?
  {
    var amount := Least(ForRecovery(pc.returned, SeenCompleted(w.recs, |w.recs|)), pc.available);
    if amount > 0 then Sized(pc.n, amount, pc.clearedSeq) else Idle
  }

  function Step(w: World, a: Action): World
    requires Enabled(w, a)
  {
    match a
    case Notice(amount) => w.(debts := w.debts + [Debt(amount, false, false)])
    case DebtCompletes(i) => w.(debts := w.debts[i := Debt(w.debts[i].amount, true, w.debts[i].seen)])
    case DebtSeenBy(i) => w.(debts := w.debts[i := Debt(w.debts[i].amount, true, true)])
    case GoMoves(i, to) => w.(recs := w.recs[i := w.recs[i].(live := to)])
    case RecSeen(i, to) => w.(recs := w.recs[i := w.recs[i].(seen := to)])
    case ReadLatest(s) => Goto(w, s, Latest(|w.recs|))
    case ReadCash(s, available, clearedSeq) => Goto(w, s, Cash(PcOf(w, s).n, available, clearedSeq))
    case Decide(s) => Goto(w, s, AfterState(w, PcOf(w, s)))
    case ReadReturned(s) =>
      var pc := PcOf(w, s);
      Goto(w, s, Returned(pc.n, pc.available, pc.clearedSeq, DebtSeen(w.debts, |w.debts|)))
    case ReadRecovered(s) => Goto(w, s, AfterSums(w, PcOf(w, s)))
    case Insert(s) =>
      var pc := PcOf(w, s);
      if |w.recs| == pc.n then Goto(w, s, Idle).(recs := w.recs + [Rec(pc.amount, pc.clearedSeq, NoState, NoState)])
      else Goto(w, s, Idle)
    case Stop(s) => Goto(w, s, Idle)
  }

  ghost predicate IsRun(ws: seq<World>, actions: seq<Action>) {
    && |ws| == |actions| + 1 && ws[0] == Start
    && forall i :: 0 <= i < |actions| ==> Enabled(ws[i], actions[i]) && ws[i + 1] == Step(ws[i], actions[i])
  }

  ghost predicate Reachable(w: World) { exists ws, actions :: IsRun(ws, actions) && ws[|ws| - 1] == w }

  // ---- What every step keeps -----------------------------------------------

  /** The projection has seen each of the first `n` settle. */
  predicate AllSettled(recs: seq<Rec>, n: nat) { n <= |recs| && forall i :: 0 <= i < n ==> Settled(recs[i].seen) }

  predicate Lagging(recs: seq<Rec>) { forall i :: 0 <= i < |recs| ==> Leads(recs[i].seen, recs[i].live) }

  predicate HonestDebts(debts: seq<Debt>) { forall i :: 0 <= i < |debts| ==> (debts[i].seen ==> debts[i].done) }

  predicate Knows(w: World, pc: Pc) {
    match pc
    case Idle => true
    case Latest(n) => n <= |w.recs|
    case Cash(n, _, _) => n <= |w.recs|
    case Due(n, _, _) => AllSettled(w.recs, n)
    case Returned(n, _, _, returned) => AllSettled(w.recs, n) && returned <= DebtDone(w.debts, |w.debts|)
    case Sized(n, amount, _) =>
      && amount > 0 && AllSettled(w.recs, n)
      && Completed(w.recs, n) + amount <= DebtDone(w.debts, |w.debts|)
  }

  ghost predicate Inv(w: World) {
    && Lagging(w.recs) && HonestDebts(w.debts) && (w.recs != [] ==> AllSettled(w.recs, |w.recs| - 1))
    && Exposed(w.recs, |w.recs|) <= DebtDone(w.debts, |w.debts|)
    && forall s :: Knows(w, PcOf(w, s))
  }

  lemma {:induction false} SettledIsCounted(recs: seq<Rec>, n: nat)
    requires Lagging(recs) && AllSettled(recs, n)
    ensures Completed(recs, n) == SeenCompleted(recs, n) == Exposed(recs, n)
  {
    if n > 0 { SettledIsCounted(recs, n - 1); }
  }

  lemma {:induction false} SeenGrows(recs: seq<Rec>, n: nat, m: nat)
    requires n <= m <= |recs|
    ensures SeenCompleted(recs, n) <= SeenCompleted(recs, m)
  {
    if n < m { SeenGrows(recs, n, m - 1); }
  }

  lemma {:induction false} SeenDebtIsDone(debts: seq<Debt>, n: nat)
    requires HonestDebts(debts) && n <= |debts|
    ensures DebtSeen(debts, n) <= DebtDone(debts, n)
  {
    if n > 0 { SeenDebtIsDone(debts, n - 1); }
  }

  // ---- Recoveries and debts move on ----------------------------------------

  /** The same table with each Recovery moved on, and perhaps one more. */
  predicate MovedOn(recs: seq<Rec>, recs': seq<Rec>) {
    && |recs| <= |recs'|
    && forall i :: 0 <= i < |recs| ==>
         recs'[i].amount == recs[i].amount && Leads(recs[i].live, recs'[i].live) && Leads(recs[i].seen, recs'[i].seen)
  }

  lemma {:induction false} SettledStays(recs: seq<Rec>, recs': seq<Rec>, n: nat)
    requires Lagging(recs) && MovedOn(recs, recs') && AllSettled(recs, n)
    ensures AllSettled(recs', n) && Completed(recs', n) == Completed(recs, n)
  {
    if n > 0 { SettledStays(recs, recs', n - 1); }
  }

  lemma {:induction false} ExposureFalls(recs: seq<Rec>, recs': seq<Rec>, n: nat)
    requires MovedOn(recs, recs') && n <= |recs|
    ensures Exposed(recs', n) <= Exposed(recs, n)
  {
    if n > 0 { ExposureFalls(recs, recs', n - 1); }
  }

  predicate Grew(debts: seq<Debt>, debts': seq<Debt>) {
    && |debts| <= |debts'|
    && forall i :: 0 <= i < |debts| ==> debts'[i].amount == debts[i].amount && (debts[i].done ==> debts'[i].done)
  }

  lemma {:induction false} DebtGrows(debts: seq<Debt>, debts': seq<Debt>, n: nat)
    requires Grew(debts, debts') && n <= |debts|
    ensures DebtDone(debts, n) <= DebtDone(debts', n)
  {
    if n > 0 { DebtGrows(debts, debts', n - 1); }
  }

  lemma {:induction false} DebtRises(debts: seq<Debt>, n: nat, m: nat)
    requires n <= m <= |debts|
    ensures DebtDone(debts, n) <= DebtDone(debts, m)
  {
    if n < m { DebtRises(debts, n, m - 1); }
  }

  lemma StillKnows(w: World, w': World, pc: Pc)
    requires Lagging(w.recs) && MovedOn(w.recs, w'.recs) && Grew(w.debts, w'.debts) && Knows(w, pc)
    ensures Knows(w', pc)
  {
    DebtGrows(w.debts, w'.debts, |w.debts|);
    DebtRises(w'.debts, |w.debts|, |w'.debts|);
    if (pc.Due? || pc.Returned? || pc.Sized?) { SettledStays(w.recs, w'.recs, pc.n); }
  }

  /** Nobody's sweep moved; the tables did. */
  lemma TablesKeep(w: World, recs: seq<Rec>, debts: seq<Debt>)
    requires Inv(w) && MovedOn(w.recs, recs) && |recs| == |w.recs| && Lagging(recs) && Grew(w.debts, debts) &&
      HonestDebts(debts)
    ensures Inv(w.(recs := recs, debts := debts))
  {
    var w' := w.(recs := recs, debts := debts);
    forall s ensures Knows(w', PcOf(w', s)) { StillKnows(w, w', PcOf(w, s)); }
    if recs != [] { SettledStays(w.recs, recs, |recs| - 1); }
    ExposureFalls(w.recs, recs, |recs|);
    DebtGrows(w.debts, debts, |w.debts|);
    DebtRises(debts, |w.debts|, |debts|);
  }

  lemma SweepKeeps(w: World, s: nat, pc: Pc)
    requires Inv(w) && Knows(w, pc)
    ensures Inv(Goto(w, s, pc))
  {
    var w' := Goto(w, s, pc);
    forall x ensures Knows(w', PcOf(w', x)) { assert Knows(w, PcOf(w, x)); }
  }

  // ---- A sweep's own steps -------------------------------------------------

  lemma DecideKnows(w: World, pc: Pc)
    requires Inv(w) && pc.Cash? && Knows(w, pc)
    ensures Knows(w, AfterState(w, pc))
  {
  }

  lemma SumsKnow(w: World, pc: Pc)
    requires Inv(w) && pc.Returned? && Knows(w, pc)
    ensures Knows(w, AfterSums(w, pc))
  {
    SettledIsCounted(w.recs, pc.n);
    SeenGrows(w.recs, pc.n, |w.recs|);
  }

  lemma {:induction false} SamePrefix(recs: seq<Rec>, r: Rec, n: nat)
    requires n <= |recs|
    ensures Exposed(recs + [r], n) == Exposed(recs, n)
  {
    if n > 0 { SamePrefix(recs, r, n - 1); }
  }

  lemma InsertKeeps(w: World, s: nat)
    requires Inv(w) && PcOf(w, s).Sized? && |w.recs| == PcOf(w, s).n
    ensures Inv(Step(w, Insert(s)))
  {
    var pc, w' := PcOf(w, s), Step(w, Insert(s));
    assert Knows(w, pc);
    SettledIsCounted(w.recs, pc.n);
    SamePrefix(w.recs, w'.recs[pc.n], pc.n);
    assert w'.recs[..pc.n] == w.recs;
    forall x ensures Knows(w', PcOf(w', x)) { if x != s { StillKnows(w, w', PcOf(w, x)); } }
  }

  lemma StepKeeps(w: World, a: Action)
    requires Inv(w) && Enabled(w, a)
    ensures Inv(Step(w, a))
  {
    match a
    case Notice(amount) => TablesKeep(w, w.recs, Step(w, a).debts);
    case DebtCompletes(i) => TablesKeep(w, w.recs, Step(w, a).debts);
    case DebtSeenBy(i) => TablesKeep(w, w.recs, Step(w, a).debts);
    case GoMoves(i, to) => TablesKeep(w, Step(w, a).recs, w.debts);
    case RecSeen(i, to) => TablesKeep(w, Step(w, a).recs, w.debts);
    case ReadLatest(s) => SweepKeeps(w, s, Latest(|w.recs|));
    case ReadCash(s, available, clearedSeq) => assert Knows(w, PcOf(w, s)); SweepKeeps(w, s, PcOf(Step(w, a), s));
    case Decide(s) =>
      assert Knows(w, PcOf(w, s));
      DecideKnows(w, PcOf(w, s));
      SweepKeeps(w, s, AfterState(w, PcOf(w, s)));
    case ReadReturned(s) =>
      assert Knows(w, PcOf(w, s));
      SeenDebtIsDone(w.debts, |w.debts|);
      SweepKeeps(w, s, PcOf(Step(w, a), s));
    case ReadRecovered(s) =>
      assert Knows(w, PcOf(w, s));
      SumsKnow(w, PcOf(w, s));
      SweepKeeps(w, s, AfterSums(w, PcOf(w, s)));
    case Insert(s) => if |w.recs| == PcOf(w, s).n { InsertKeeps(w, s); } else { SweepKeeps(w, s, Idle); }
    case Stop(s) => SweepKeeps(w, s, Idle);
  }

  lemma {:induction false} RunKeepsInv(ws: seq<World>, actions: seq<Action>, n: nat)
    requires IsRun(ws, actions) && n < |ws|
    ensures Inv(ws[n])
  {
    if n > 0 {
      RunKeepsInv(ws, actions, n - 1);
      StepKeeps(ws[n - 1], actions[n - 1]);
    }
  }

  lemma ReachableInv(w: World)
    requires Reachable(w)
    ensures Inv(w)
  {
    var ws, actions :| IsRun(ws, actions) && ws[|ws| - 1] == w;
    RunKeepsInv(ws, actions, |ws| - 1);
  }

  // ---- Theorems ------------------------------------------------------------

  /** At most one Recovery is unconcluded, and it is the latest. */
  lemma OneAtATime(w: World, i: nat)
    requires Reachable(w) && i < |w.recs| && !Settled(w.recs[i].live)
    ensures i == |w.recs| - 1
  {
    ReachableInv(w);
  }

  lemma {:induction false} CompletedIsExposed(recs: seq<Rec>, n: nat)
    requires n <= |recs|
    ensures Completed(recs, n) <= Exposed(recs, n)
  {
    if n > 0 { CompletedIsExposed(recs, n - 1); }
  }

  /** Recovery never over-collects: what completed Recoveries took, with what the
      unconcluded one may still take, is never more than the debt returns that
      completed. */
  lemma NeverOverCollects(w: World)
    requires Reachable(w)
    ensures Completed(w.recs, |w.recs|) <= Exposed(w.recs, |w.recs|) <= DebtDone(w.debts, |w.debts|)
  {
    ReachableInv(w);
    CompletedIsExposed(w.recs, |w.recs|);
  }
}
