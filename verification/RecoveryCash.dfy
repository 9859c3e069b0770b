/** What each Recovery is sized by: the debt and the recoveries its sweep read, and
    the cleared cash it read; and that a refused one is retried only once cleared
    cash has moved on (ruby/app/services/ach/recover_due.rb). */
module RecoveryCash {
  import opened Recovery
  import opened X = TransactionStream

  // ---- Retries -------------------------------------------------------------

  /** If the one before was refused, cleared cash has moved on since it read it. */
  predicate Fresher(recs: seq<Rec>, n: nat, clearedSeq: nat) {
    0 < n <= |recs| && Refused(recs[n - 1].live) ==> clearedSeq > recs[n - 1].clearedSeq
  }

  predicate PcFresher(w: World, pc: Pc) {
    pc.Due? || pc.Returned? || pc.Sized? ==> Fresher(w.recs, pc.n, pc.clearedSeq)
  }

  ghost predicate Paced(w: World) {
    && (forall i :: 0 <= i < |w.recs| ==> Fresher(w.recs, i, w.recs[i].clearedSeq))
    && forall s :: PcFresher(w, PcOf(w, s))
  }

  /** A Recovery another has followed, or is about to, has settled for good. */
  lemma SettledIsFixed(w: World, a: Action, i: nat)
    requires Inv(w) && Enabled(w, a) && i < |w.recs|
    ensures i < |Step(w, a).recs| && Step(w, a).recs[i].clearedSeq == w.recs[i].clearedSeq
    ensures Settled(w.recs[i].seen) ==> Step(w, a).recs[i].live == w.recs[i].live
  {
  }

  lemma StillFresher(w: World, a: Action, n: nat, clearedSeq: nat)
    requires Inv(w) && Enabled(w, a) && AllSettled(w.recs, n) && Fresher(w.recs, n, clearedSeq)
    ensures Fresher(Step(w, a).recs, n, clearedSeq)
  {
    if n > 0 { SettledIsFixed(w, a, n - 1); }
  }

  lemma DecidedIsFresher(w: World, pc: Pc)
    requires Inv(w) && pc.Cash? && pc.n <= |w.recs|
    ensures PcFresher(w, AfterState(w, pc))
  {
  }

  /** Every sweep, after a step of anyone's. */
  lemma SweepsPaced(w: World, a: Action, s: nat)
    requires Inv(w) && Enabled(w, a) && Paced(w)
    ensures PcFresher(Step(w, a), PcOf(Step(w, a), s))
  {
    var pc := PcOf(w, s);
    assert Knows(w, pc) && PcFresher(w, pc);
    if pc.Due? || pc.Returned? || pc.Sized? { StillFresher(w, a, pc.n, pc.clearedSeq); }
    if a == Decide(s) { DecidedIsFresher(w, pc); }
  }

  lemma TablePaced(w: World, a: Action, i: nat)
    requires Inv(w) && Enabled(w, a) && Paced(w) && i < |Step(w, a).recs|
    ensures Fresher(Step(w, a).recs, i, Step(w, a).recs[i].clearedSeq)
  {
    if i < |w.recs| {
      SettledIsFixed(w, a, i);
      assert Fresher(w.recs, i, w.recs[i].clearedSeq);
      StillFresher(w, a, i, w.recs[i].clearedSeq);
    } else {
      assert a.Insert?;
      assert PcFresher(w, PcOf(w, a.s));
    }
  }

  lemma {:induction false} RunPaced(ws: seq<World>, actions: seq<Action>, n: nat)
    requires IsRun(ws, actions) && n < |ws|
    ensures Paced(ws[n])
  {
    if n > 0 {
      RunPaced(ws, actions, n - 1);
      RunKeepsInv(ws, actions, n - 1);
      forall s ensures PcFresher(ws[n], PcOf(ws[n], s)) { SweepsPaced(ws[n - 1], actions[n - 1], s); }
      forall i | 0 <= i < |ws[n].recs| ensures Fresher(ws[n].recs, i, ws[n].recs[i].clearedSeq) {
        TablePaced(ws[n - 1], actions[n - 1], i);
      }
    }
  }

  /** A Recovery that follows a refused one read cleared cash later than it did;
      every Recovery but the latest has completed or been refused. */
  lemma RetryHasNewerCash(w: World, i: nat)
    requires Reachable(w) && 0 < i < |w.recs|
    ensures w.recs[i - 1].live.IsCompleted? || Refused(w.recs[i - 1].live)
    ensures Refused(w.recs[i - 1].live) ==> w.recs[i].clearedSeq > w.recs[i - 1].clearedSeq
  {
    ReachableInv(w);
    var ws, actions :| IsRun(ws, actions) && ws[|ws| - 1] == w;
    RunPaced(ws, actions, |ws| - 1);
    assert Fresher(w.recs, i, w.recs[i].clearedSeq);
  }

  // ---- Amounts -------------------------------------------------------------

  ghost predicate CashRead(actions: seq<Action>, n: nat, s: nat, available: int, clearedSeq: nat) {
    n <= |actions| && exists i :: 0 <= i < n && actions[i] == ReadCash(s, available, clearedSeq)
  }

  ghost predicate DebtRead(ws: seq<World>, actions: seq<Action>, n: nat, s: nat, returned: nat) {
    n <= |actions| <= |ws| &&
      exists i :: 0 <= i < n && actions[i] == ReadReturned(s) && returned == DebtSeen(ws[i].debts, |ws[i].debts|)
  }

  ghost predicate RecoveredRead(ws: seq<World>, actions: seq<Action>, n: nat, s: nat, recovered: nat) {
    n <= |actions| <= |ws| &&
      exists i :: 0 <= i < n && actions[i] == ReadRecovered(s) && recovered == SeenCompleted(ws[i].recs, |ws[i].recs|)
  }

  /** The smaller of the cash available and the debt not yet recovered, and more
      than nothing. */
  predicate IsShare(amount: nat, available: int, returned: nat, recovered: nat) {
    && 0 < amount <= available && amount <= returned - recovered
    && (amount == available || amount == returned - recovered)
  }

  /** All of it read by this sweep before its n-th step. */
  ghost predicate SizedBy(ws: seq<World>, actions: seq<Action>, n: nat, s: nat, amount: nat, clearedSeq: nat) {
    exists available, returned, recovered ::
      && CashRead(actions, n, s, available, clearedSeq) && DebtRead(ws, actions, n, s, returned)
      && RecoveredRead(ws, actions, n, s, recovered) && IsShare(amount, available, returned, recovered)
  }

  ghost predicate HasRead(ws: seq<World>, actions: seq<Action>, n: nat, s: nat, pc: Pc) {
    match pc
    case Idle => true
    case Latest(_) => true
    case Cash(_, available, clearedSeq) => CashRead(actions, n, s, available, clearedSeq)
    case Due(_, available, clearedSeq) => CashRead(actions, n, s, available, clearedSeq)
    case Returned(_, available, clearedSeq, returned) =>
      CashRead(actions, n, s, available, clearedSeq) && DebtRead(ws, actions, n, s, returned)
    case Sized(_, amount, clearedSeq) => SizedBy(ws, actions, n, s, amount, clearedSeq)
  }

  lemma StillRead(ws: seq<World>, actions: seq<Action>, n: nat, s: nat, pc: Pc)
    requires HasRead(ws, actions, n, s, pc) && n + 1 <= |actions| <= |ws|
    ensures HasRead(ws, actions, n + 1, s, pc)
  {
    if pc.Sized? {
      var available, returned, recovered :|
        && CashRead(actions, n, s, available, pc.clearedSeq) && DebtRead(ws, actions, n, s, returned)
        && RecoveredRead(ws, actions, n, s, recovered) && IsShare(pc.amount, available, returned, recovered);
      assert CashRead(actions, n + 1, s, available, pc.clearedSeq) && DebtRead(ws, actions, n + 1, s, returned);
      assert RecoveredRead(ws, actions, n + 1, s, recovered);
    }
  }

  lemma SumsAreRead(ws: seq<World>, actions: seq<Action>, n: nat, s: nat, pc: Pc)
    requires n < |actions| <= |ws| && actions[n] == ReadRecovered(s) && pc.Returned? && HasRead(ws, actions, n, s, pc)
    ensures HasRead(ws, actions, n + 1, s, AfterSums(ws[n], pc))
  {
    var recovered := SeenCompleted(ws[n].recs, |ws[n].recs|);
    StillRead(ws, actions, n, s, pc);
    assert RecoveredRead(ws, actions, n + 1, s, recovered);
    var pc' := AfterSums(ws[n], pc);
    if pc'.Sized? { assert IsShare(pc'.amount, pc.available, pc.returned, recovered); }
  }

  lemma StepReads(ws: seq<World>, actions: seq<Action>, n: nat, s: nat)
    requires IsRun(ws, actions) && n < |actions| && HasRead(ws, actions, n, s, PcOf(ws[n], s))
    ensures HasRead(ws, actions, n + 1, s, PcOf(ws[n + 1], s))
  {
    var pc, a := PcOf(ws[n], s), actions[n];
    StillRead(ws, actions, n, s, pc);
    if a == ReadRecovered(s) { SumsAreRead(ws, actions, n, s, pc); }
  }

  lemma {:induction false} RunReads(ws: seq<World>, actions: seq<Action>, n: nat, s: nat)
    requires IsRun(ws, actions) && n < |ws|
    ensures HasRead(ws, actions, n, s, PcOf(ws[n], s))
  {
    if n > 0 {
      RunReads(ws, actions, n - 1, s);
      StepReads(ws, actions, n - 1, s);
    }
  }

  /** Every Recovery a sweep records is for the smaller of the cleared cash it read
      as available and the debt it read as completed less what it read as
      recovered, and carries how far that view of the cash reached. */
  lemma RecoveryIsSized(ws: seq<World>, actions: seq<Action>, n: nat, s: nat)
    requires IsRun(ws, actions) && n < |actions| && actions[n] == Insert(s) && |ws[n].recs| < |ws[n + 1].recs|
    ensures ws[n + 1].recs[..|ws[n].recs|] == ws[n].recs && |ws[n + 1].recs| == |ws[n].recs| + 1
    ensures var r := ws[n + 1].recs[|ws[n].recs|]; SizedBy(ws, actions, n, s, r.amount, r.clearedSeq)
  {
    RunReads(ws, actions, n, s);
  }

  // ---- A sweep with nobody in the way --------------------------------------

  /** The latest Recovery, if any, was seen to complete, or to be refused when
      cleared cash did not reach as far. */
  predicate NextIsDue(recs: seq<Rec>, clearedSeq: nat) {
    recs == [] ||
      var latest := recs[|recs| - 1];
      latest.seen.IsCompleted? || (Refused(latest.seen) && clearedSeq > latest.clearedSeq)
  }

  ghost predicate Sweeps(ws: seq<World>, actions: seq<Action>) {
    && |ws| == |actions| + 1
    && forall i :: 0 <= i < |actions| ==> Enabled(ws[i], actions[i]) && ws[i + 1] == Step(ws[i], actions[i])
  }

  lemma SweepDecides(w: World, s: nat, available: int, clearedSeq: nat) returns (ws: seq<World>)
    requires PcOf(w, s).Idle? && NextIsDue(w.recs, clearedSeq)
    ensures Sweeps(ws, [ReadLatest(s), ReadCash(s, available, clearedSeq), Decide(s)]) && ws[0] == w
    ensures ws[3].recs == w.recs && ws[3].debts == w.debts && PcOf(ws[3], s) == Due(|w.recs|, available, clearedSeq)
  {
    var w1 := Step(w, ReadLatest(s));
    var w2 := Step(w1, ReadCash(s, available, clearedSeq));
    ws := [w, w1, w2, Step(w2, Decide(s))];
  }

  /** The debt read as completed less what was read as recovered. */
  function Unrecovered(w: World): int { DebtSeen(w.debts, |w.debts|) - SeenCompleted(w.recs, |w.recs|) }

  predicate Grown(w: World, w': World, amount: int, clearedSeq: nat) {
    amount >= 0 && w'.debts == w.debts && w'.recs == w.recs + [Rec(amount, clearedSeq, NoState, NoState)]
  }

  lemma SweepSizes(w: World, s: nat, available: int, clearedSeq: nat) returns (ws: seq<World>)
    requires PcOf(w, s) == Due(|w.recs|, available, clearedSeq) && available > 0 && Unrecovered(w) > 0
    ensures Sweeps(ws, [ReadReturned(s), ReadRecovered(s), Insert(s)]) && ws[0] == w
    ensures Grown(w, ws[3], if available < Unrecovered(w) then available else Unrecovered(w), clearedSeq)
  {
    var w1 := Step(w, ReadReturned(s));
    var w2 := Step(w1, ReadRecovered(s));
    ws := [w, w1, w2, Step(w2, Insert(s))];
  }

  /** When another is due, something is owed and some cash is available, a sweep
      records the next Recovery: for what is owed, or for the cash if that is
      less. */
  lemma SweepRecords(w: World, s: nat, available: int, clearedSeq: nat) returns (ws: seq<World>)
    requires PcOf(w, s).Idle? && NextIsDue(w.recs, clearedSeq) && available > 0 && Unrecovered(w) > 0
    ensures Sweeps(ws, [ReadLatest(s), ReadCash(s, available, clearedSeq), Decide(s)] +
                       [ReadReturned(s), ReadRecovered(s), Insert(s)])
    ensures ws[0] == w
    ensures Grown(w, ws[6], if available < Unrecovered(w) then available else Unrecovered(w), clearedSeq)
  {
    var first := SweepDecides(w, s, available, clearedSeq);
    var second := SweepSizes(first[3], s, available, clearedSeq);
    ws := first + second[1..];
  }
}
