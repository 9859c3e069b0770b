/** Exactly when the books stay right, over every history of openings and
    requests, whatever their ids and accounts (go/internal/ledger/fake_client.go). */
module LedgerExact {
  import opened Common
  import opened Ledger
  import opened LedgerInvariant

  // ---- What the ledger really writes ---------------------------------------

  /** What a recorded transfer added to `a`'s posted total: one from an account to
      itself writes its credit over its debit. */
  function WrittenBy(t: Stored, a: Id, side: Side): int {
    if side == Debit && t.debit == t.credit then 0 else PostedBy(t, a, side)
  }

  function WithheldBy(r: Reservation, a: Id, side: Side): int {
    if side == Debit && r.debit == r.credit then 0 else HeldBy(r, a, side)
  }

  ghost function WrittenSum(transfers: map<Id, Stored>, a: Id, side: Side): int {
    Sum(map i | i in transfers :: WrittenBy(transfers[i], a, side))
  }

  ghost function WithheldSum(pending: map<Id, Reservation>, a: Id, side: Side): int {
    Sum(map p | p in pending :: WithheldBy(pending[p], a, side))
  }

  /** Posted beyond what the records still show. */
  ghost function PostedGap(s: State, a: Id, side: Side): int
    requires a in s.accounts
  {
    PostedTotal(s.accounts[a], side) - WrittenSum(s.transfers, a, side)
  }

  /** Held beyond what the open reservations still show. */
  ghost function HeldGap(s: State, a: Id, side: Side): int
    requires a in s.accounts
  {
    PendingTotal(s.accounts[a], side) - WithheldSum(s.pending, a, side)
  }

  // ---- What an applied entry writes over -----------------------------------

  /** The posting an entry's own record replaces. */
  function OverPosted(s: State, t: Transfer, a: Id, side: Side): int {
    if t.id in s.transfers then WrittenBy(s.transfers[t.id], a, side) else 0
  }

  /** The hold an entry's own reservation replaces. */
  function OverHeld(s: State, t: Transfer, a: Id, side: Side): int {
    if t.kind == Pending && t.id in s.pending then WithheldBy(s.pending[t.id], a, side) else 0
  }

  /** Writes over a record that moved money, or over an open reservation. */
  predicate Clobbers(s: State, t: Transfer) {
    || (t.id in s.transfers && Moves(s.transfers[t.id]) && s.transfers[t.id].amount > 0)
    || (t.kind == Pending && t.id in s.pending && s.pending[t.id].status == Open && s.pending[t.id].amount > 0)
  }

  lemma WrittenSumUpdate(transfers: map<Id, Stored>, i: Id, t: Stored, a: Id, side: Side)
    ensures WrittenSum(transfers[i := t], a, side) ==
      WrittenSum(transfers, a, side) +
          WrittenBy(t, a, side) - (if i in transfers then WrittenBy(transfers[i], a, side) else 0)
  {
    var m := map k | k in transfers :: WrittenBy(transfers[k], a, side);
    var transfers' := transfers[i := t];
    assert (map k | k in transfers' :: WrittenBy(transfers'[k], a, side)) == m[i := WrittenBy(t, a, side)];
    SumUpdate(m, i, WrittenBy(t, a, side));
  }

  lemma WithheldSumUpdate(pending: map<Id, Reservation>, p: Id, r: Reservation, a: Id, side: Side)
    ensures WithheldSum(pending[p := r], a, side) ==
      WithheldSum(pending, a, side) +
          WithheldBy(r, a, side) - (if p in pending then WithheldBy(pending[p], a, side) else 0)
  {
    var m := map k | k in pending :: WithheldBy(pending[k], a, side);
    var pending' := pending[p := r];
    assert (map k | k in pending' :: WithheldBy(pending'[k], a, side)) == m[p := WithheldBy(r, a, side)];
    SumUpdate(m, p, WithheldBy(r, a, side));
  }

  /** What an applied entry really does to `a`'s pending total. */
  function Withholds(t: Transfer, a: Id, side: Side): int {
    if side == Debit && t.debit == t.credit then 0 else Reserves(t, a, side)
  }

  lemma EffectOnTotals(s: State, t: Transfer, a: Id, side: Side)
    requires t.debit in s.accounts && t.credit in s.accounts && a in s.accounts
    ensures var a' := Effect(s, t).accounts[a];
      && PostedTotal(a', side) == PostedTotal(s.accounts[a], side) + WrittenBy(Store(t), a, side)
      && PendingTotal(a', side) == PendingTotal(s.accounts[a], side) + Withholds(t, a, side)
  {
  }

  lemma RecordedWithholds(s: State, t: Transfer, a: Id, side: Side)
    requires Applicable(s, t)
    ensures WithheldSum(Recorded(s.pending, t), a, side) ==
      WithheldSum(s.pending, a, side) + Withholds(t, a, side) - OverHeld(s, t, a, side)
  {
    if t.kind == Pending {
      WithheldSumUpdate(s.pending, t.id, Reservation(t.debit, t.credit, t.amount, Open), a, side);
    } else if Settles(t) {
      WithheldSumUpdate(s.pending, t.pendingId, s.pending[t.pendingId].(status := SettledAs(t)), a, side);
    }
  }

  /** An applied entry widens the gaps by just what it writes over. */
  lemma EffectOnGaps(s: State, t: Transfer, a: Id, side: Side)
    requires Applicable(s, t) && a in s.accounts
    ensures PostedGap(Effect(s, t), a, side) == PostedGap(s, a, side) + OverPosted(s, t, a, side)
    ensures HeldGap(Effect(s, t), a, side) == HeldGap(s, a, side) + OverHeld(s, t, a, side)
  {
    EffectOnTotals(s, t, a, side);
    WrittenSumUpdate(s.transfers, t.id, Store(t), a, side);
    RecordedWithholds(s, t, a, side);
  }

  // ---- Money moved from an account to itself -------------------------------

  function SelfBy(t: Stored): int { if t.debit == t.credit && Moves(t) then t.amount else 0 }

  ghost function SelfSum(transfers: map<Id, Stored>): int { Sum(map i | i in transfers :: SelfBy(transfers[i])) }

  lemma SelfSumUpdate(transfers: map<Id, Stored>, i: Id, t: Stored)
    ensures SelfSum(transfers[i := t]) ==
      SelfSum(transfers) + SelfBy(t) - (if i in transfers then SelfBy(transfers[i]) else 0)
  {
    var m := map k | k in transfers :: SelfBy(transfers[k]);
    var transfers' := transfers[i := t];
    assert (map k | k in transfers' :: SelfBy(transfers'[k])) == m[i := SelfBy(t)];
    SumUpdate(m, i, SelfBy(t));
  }

  predicate LoopedMove(s: State, i: Id) {
    && i in s.transfers && Moves(s.transfers[i])
    && s.transfers[i].debit == s.transfers[i].credit && s.transfers[i].amount > 0
  }

  predicate LoopedHold(s: State, p: Id) {
    && p in s.pending && s.pending[p].status == Open
    && s.pending[p].debit == s.pending[p].credit && s.pending[p].amount > 0
  }

  /** No money on record moved, or is held, from an account to itself. */
  ghost predicate NoSelf(s: State) {
    (forall i :: i in s.transfers ==> !LoopedMove(s, i)) && forall p :: p in s.pending ==> !LoopedHold(s, p)
  }

  // ---- The books, exactly --------------------------------------------------

  /** Nothing has been written over: no gap, and a drift of just the self moves. */
  ghost predicate Kept(s: State) {
    && (forall a, side :: a in s.accounts ==> PostedGap(s, a, side) == 0 && HeldGap(s, a, side) == 0)
    && Drift(s) == SelfSum(s.transfers)
  }

  /** Something has: some account was credited with more than still shows. */
  ghost predicate HasGap(s: State) { exists a :: a in s.accounts && CreditGap(s, a) > 0 }

  ghost function CreditGap(s: State, a: Id): int
    requires a in s.accounts
  {
    PostedGap(s, a, Credit) + HeldGap(s, a, Credit)
  }

  ghost predicate Told(s: State, tidy: bool) { if tidy then Kept(s) else HasGap(s) }

  lemma GapStays(s: State, t: Transfer)
    requires Applicable(s, t) && HasGap(s)
    ensures HasGap(Effect(s, t))
  {
    var a :| a in s.accounts && CreditGap(s, a) > 0;
    EffectOnGaps(s, t, a, Credit);
    assert CreditGap(Effect(s, t), a) > 0;
  }

  lemma ClobberOpensGap(s: State, t: Transfer)
    requires Applicable(s, t) && Kept(s) && NamesAccounts(s) && Clobbers(s, t)
    ensures HasGap(Effect(s, t))
  {
    var a := if t.id in s.transfers && Moves(s.transfers[t.id]) && s.transfers[t.id].amount > 0
             then s.transfers[t.id].credit else s.pending[t.id].credit;
    EffectOnGaps(s, t, a, Credit);
    assert CreditGap(Effect(s, t), a) > 0;
  }

  lemma TidyEffectKeeps(s: State, t: Transfer)
    requires Applicable(s, t) && Kept(s) && !Clobbers(s, t)
    ensures Kept(Effect(s, t))
  {
    var s' := Effect(s, t);
    forall a, side | a in s'.accounts ensures PostedGap(s', a, side) == 0 && HeldGap(s', a, side) == 0 {
      EffectOnGaps(s, t, a, side);
    }
    EffectDrift(s, t);
    SelfSumUpdate(s.transfers, t.id, Store(t));
  }

  lemma EffectTells(s: State, t: Transfer, tidy: bool)
    requires Applicable(s, t) && NamesAccounts(s) && Told(s, tidy)
    ensures Told(Effect(s, t), tidy && !Clobbers(s, t))
  {
    if !tidy { GapStays(s, t); } else if Clobbers(s, t) { ClobberOpensGap(s, t); } else { TidyEffectKeeps(s, t); }
  }

  lemma NoSelfIsWritten(s: State, a: Id, side: Side)
    requires NoSelf(s)
    ensures PostedSum(s.transfers, a, side) == WrittenSum(s.transfers, a, side)
    ensures HeldSum(s.pending, a, side) == WithheldSum(s.pending, a, side)
  {
    assert (map i | i in s.transfers :: PostedBy(s.transfers[i], a, side)) ==
        (map i | i in s.transfers :: WrittenBy(s.transfers[i], a, side));
    assert (map p | p in s.pending :: HeldBy(s.pending[p], a, side)) ==
        (map p | p in s.pending :: WithheldBy(s.pending[p], a, side));
  }

  lemma KeptIsReconciled(s: State)
    requires NoSelf(s)
    ensures Kept(s) <==> Reconciled(s) && Drift(s) == 0
  {
    forall a, side | a in s.accounts
      ensures PostedGap(s, a, side) == PostedTotal(s.accounts[a], side) - PostedSum(s.transfers, a, side)
      ensures HeldGap(s, a, side) == PendingTotal(s.accounts[a], side) - HeldSum(s.pending, a, side)
    {
      NoSelfIsWritten(s, a, side);
    }
    SumZero(map i | i in s.transfers :: SelfBy(s.transfers[i]));
  }

  /** The credit side of the records is what was written there. */
  lemma CreditIsWritten(s: State, a: Id)
    ensures PostedSum(s.transfers, a, Credit) == WrittenSum(s.transfers, a, Credit)
    ensures HeldSum(s.pending, a, Credit) == WithheldSum(s.pending, a, Credit)
  {
    assert (map i | i in s.transfers :: PostedBy(s.transfers[i], a, Credit)) ==
        (map i | i in s.transfers :: WrittenBy(s.transfers[i], a, Credit));
    assert (map p | p in s.pending :: HeldBy(s.pending[p], a, Credit)) ==
        (map p | p in s.pending :: WithheldBy(s.pending[p], a, Credit));
  }

  lemma ReconciledHasNoGap(s: State)
    requires Reconciled(s)
    ensures !HasGap(s)
  {
    forall a | a in s.accounts ensures CreditGap(s, a) == 0 { CreditIsWritten(s, a); }
  }

  /** Two sums that agree term by term in one direction agree everywhere. */
  lemma EqualSumsAgree(m: map<Id, int>, m': map<Id, int>, k: Id)
    requires m.Keys == m'.Keys && k in m && (forall i :: i in m ==> m[i] <= m'[i]) && Sum(m) == Sum(m')
    ensures m[k] == m'[k]
  {
    var d := map i | i in m :: m'[i] - m[i];
    SumAdds(m', m, d);
    SumRemove(d, k);
    SumNonNegative(d - {k});
  }

  lemma NoLoopedMove(s: State, i: Id)
    requires Reconciled(s) && Kept(s) && NamesAccounts(s)
    ensures !LoopedMove(s, i)
  {
    if LoopedMove(s, i) {
      var a := s.transfers[i].debit;
      assert PostedGap(s, a, Debit) == 0;
      EqualSumsAgree(map k | k in s.transfers :: WrittenBy(s.transfers[k], a, Debit),
                     map k | k in s.transfers :: PostedBy(s.transfers[k], a, Debit), i);
    }
  }

  lemma NoLoopedHold(s: State, p: Id)
    requires Reconciled(s) && Kept(s) && NamesAccounts(s)
    ensures !LoopedHold(s, p)
  {
    if LoopedHold(s, p) {
      var a := s.pending[p].debit;
      assert HeldGap(s, a, Debit) == 0;
      EqualSumsAgree(map k | k in s.pending :: WithheldBy(s.pending[k], a, Debit),
                     map k | k in s.pending :: HeldBy(s.pending[k], a, Debit), p);
    }
  }

  lemma ReconciledHasNoSelf(s: State)
    requires Reconciled(s) && Kept(s) && NamesAccounts(s)
    ensures NoSelf(s)
  {
    forall i ensures !LoopedMove(s, i) { NoLoopedMove(s, i); }
    forall p ensures !LoopedHold(s, p) { NoLoopedHold(s, p); }
  }

  lemma BooksAreTold(s: State, tidy: bool)
    requires Sound(s) && Told(s, tidy)
    ensures Books(s) <==> tidy && NoSelf(s)
  {
    if Reconciled(s) {
      ReconciledHasNoGap(s);
      if tidy { ReconciledHasNoSelf(s); }
    }
    if tidy && NoSelf(s) { KeptIsReconciled(s); }
  }

  // ---- Whole runs ----------------------------------------------------------

  /** No entry the run applies writes over money. */
  ghost predicate Tidy(base: State, run: seq<Transfer>, n: nat)
    requires n <= |run|
  {
    n > 0 ==>
      var s := Attempt(base, run, n - 1);
      && Tidy(base, run, n - 1)
      && (Judge(base, s.cur.accounts, s.tried, run[n - 1]) == OK ==> !Clobbers(s.cur, run[n - 1]))
  }

  lemma EntryTells(base: State, s: Scratch, t: Transfer, tidy: bool)
    requires Sound(base) && Midway(base, s) && Sound(s.cur) && Told(s.cur, tidy)
    ensures Told(Entry(base, s, t).cur, tidy && (Judge(base, s.cur.accounts, s.tried, t) == OK ==> !Clobbers(s.cur, t)))
  {
    if Judge(base, s.cur.accounts, s.tried, t) == OK {
      AppliedEntry(base, s, t);
      EffectTells(s.cur, t, tidy);
    }
  }

  lemma {:induction false} AttemptTells(base: State, run: seq<Transfer>, n: nat, tidy: bool)
    requires n <= |run| && Sound(base) && Told(base, tidy)
    ensures Told(Attempt(base, run, n).cur, tidy && Tidy(base, run, n))
  {
    if n > 0 {
      AttemptTells(base, run, n - 1, tidy);
      AttemptKeepsSound(base, run, n - 1);
      EntryTells(base, Attempt(base, run, n - 1), run[n - 1], tidy && Tidy(base, run, n - 1));
    }
  }

  ghost predicate TidyRun(s: State, run: seq<Transfer>) { Accepted(s, run) ==> Tidy(s, run, |run|) }

  lemma RunTells(s: State, run: seq<Transfer>, tidy: bool)
    requires Sound(s) && Told(s, tidy)
    ensures Sound(ApplyRun(s, run)) && Told(ApplyRun(s, run), tidy && TidyRun(s, run))
  {
    AttemptKeepsSound(s, run, |run|);
    AttemptTells(s, run, |run|, tidy);
  }

  // ---- Self moves, entry by entry ------------------------------------------

  /** Moves or reserves money from an account to itself. */
  predicate Loops(t: Transfer) {
    t.debit == t.credit && t.amount > 0 && (t.kind == Regular || t.kind == Pending || t.kind == PostPending)
  }

  /** No entry the run applies does. */
  predicate NoLoops(run: seq<Transfer>, codes: seq<Code>)
    requires |codes| <= |run|
  {
    forall i :: 0 <= i < |codes| && codes[i] == OK ==> !Loops(run[i])
  }

  /** Some self move the run itself put there. */
  ghost predicate HasLoop(base: State, cur: State) {
    (exists i :: LoopedMove(cur, i)) || exists p :: p !in base.pending && LoopedHold(cur, p)
  }

  ghost predicate LoopTold(base: State, cur: State, clean: bool) { if clean then NoSelf(cur) else HasLoop(base, cur) }

  lemma LoopStays(base: State, s: State, t: Transfer)
    requires Applicable(s, t) && HasLoop(base, s) && !Clobbers(s, t) && (Settles(t) ==> t.pendingId in base.pending)
    ensures HasLoop(base, Effect(s, t))
  {
    if i :| LoopedMove(s, i) {
      assert LoopedMove(Effect(s, t), i);
    } else {
      var p :| p !in base.pending && LoopedHold(s, p);
      assert LoopedHold(Effect(s, t), p);
    }
  }

  lemma LoopShows(base: State, s: State, t: Transfer)
    requires Applicable(s, t) && t.id !in base.pending && NoSelf(s) && !Clobbers(s, t)
    ensures LoopTold(base, Effect(s, t), !Loops(t))
  {
    if Loops(t) {
      if t.kind == Pending { assert LoopedHold(Effect(s, t), t.id); } else { assert LoopedMove(Effect(s, t), t.id); }
    }
  }

  lemma EntryLoops(base: State, s: Scratch, t: Transfer, clean: bool)
    requires Sound(base) && Midway(base, s) && LoopTold(base, s.cur, clean)
    requires Judge(base, s.cur.accounts, s.tried, t) == OK ==> !Clobbers(s.cur, t)
    ensures LoopTold(base, Entry(base, s, t).cur,
      clean && (Judge(base, s.cur.accounts, s.tried, t) == OK ==> !Loops(t)))
  {
    if Judge(base, s.cur.accounts, s.tried, t) == OK {
      AppliedEntry(base, s, t);
      if clean { LoopShows(base, s.cur, t); } else { LoopStays(base, s.cur, t); }
    }
  }

  lemma NoLoopsSnoc(run: seq<Transfer>, codes: seq<Code>, c: Code)
    requires |codes| < |run|
    ensures NoLoops(run, codes + [c]) <==> NoLoops(run, codes) && (c == OK ==> !Loops(run[|codes|]))
  {
    assert forall i :: 0 <= i < |codes| ==> (codes + [c])[i] == codes[i];
    assert (codes + [c])[|codes|] == c;
  }

  lemma {:induction false} AttemptLoops(base: State, run: seq<Transfer>, n: nat)
    requires n <= |run| && Sound(base) && NoSelf(base) && Tidy(base, run, n)
    ensures LoopTold(base, Attempt(base, run, n).cur, NoLoops(run, Attempt(base, run, n).codes))
  {
    if n > 0 {
      var s := Attempt(base, run, n - 1);
      AttemptLoops(base, run, n - 1);
      AttemptKeepsSound(base, run, n - 1);
      NoLoopsSnoc(run, s.codes, Judge(base, s.cur.accounts, s.tried, run[n - 1]));
      EntryLoops(base, s, run[n - 1], NoLoops(run, s.codes));
    }
  }

  /** What a run accepted by the ledger must do to leave the books right: write
      over no money, and move or reserve none from an account to itself. */
  ghost predicate Harmless(s: State, run: seq<Transfer>) {
    Accepted(s, run) ==> Tidy(s, run, |run|) && NoLoops(run, Attempt(s, run, |run|).codes)
  }

  lemma HarmlessLeavesNoSelf(s: State, run: seq<Transfer>)
    requires Sound(s) && NoSelf(s)
    ensures Harmless(s, run) <==> TidyRun(s, run) && NoSelf(ApplyRun(s, run))
  {
    if Accepted(s, run) && Tidy(s, run, |run|) {
      AttemptLoops(s, run, |run|);
    }
  }

  /** One run, over right books that show no self move: they stay right exactly
      when it is refused or harmless. Repeated ids alone do no harm. */
  lemma RunKeepsBooksExactly(s: State, run: seq<Transfer>)
    requires Books(s) && NoSelf(s)
    ensures Books(ApplyRun(s, run)) <==> Harmless(s, run)
  {
    KeptIsReconciled(s);
    RunTells(s, run, true);
    BooksAreTold(ApplyRun(s, run), TidyRun(s, run));
    HarmlessLeavesNoSelf(s, run);
  }

  // ---- Whole histories -----------------------------------------------------

  ghost predicate TidyRuns(s: State, batch: seq<Transfer>, start: nat)
    requires start <= |batch| && Closed(batch)
    decreases |batch| - start
  {
    start < |batch| ==>
      var end := RunEnd(batch, start);
      TidyRun(s, batch[start..end]) && TidyRuns(ApplyRun(s, batch[start..end]), batch, end)
  }

  lemma {:induction false} RunsTell(s: State, batch: seq<Transfer>, start: nat, tidy: bool)
    requires start <= |batch| && Closed(batch) && Sound(s) && Told(s, tidy)
    ensures Sound(ApplyRuns(s, batch, start)) && Told(ApplyRuns(s, batch, start), tidy && TidyRuns(s, batch, start))
    decreases |batch| - start
  {
    if start < |batch| {
      var end := RunEnd(batch, start);
      RunTells(s, batch[start..end], tidy);
      RunsTell(ApplyRun(s, batch[start..end]), batch, end, tidy && TidyRun(s, batch[start..end]));
    }
  }

  ghost predicate TidyOp(s: State, op: Op) {
    op.Request? && BatchRefusal(op.batch).None? ==> TidyRuns(s, op.batch, 0)
  }

  /** No entry the ledger ever applied wrote over money. */
  ghost predicate TidyHistory(ops: seq<Op>) {
    ops != [] ==> TidyHistory(ops[..|ops| - 1]) && TidyOp(History(ops[..|ops| - 1]), ops[|ops| - 1])
  }

  /** An account nobody has named yet opens with nothing posted or held on it. */
  lemma OpensWithoutGap(s: State, id: Id, side: Side)
    requires NamesAccounts(s) && id !in s.accounts
    ensures WrittenSum(s.transfers, id, side) == 0 && WithheldSum(s.pending, id, side) == 0
  {
    SumZero(map i | i in s.transfers :: WrittenBy(s.transfers[i], id, side));
    SumZero(map p | p in s.pending :: WithheldBy(s.pending[p], id, side));
  }

  lemma OpeningTells(s: State, op: Op, tidy: bool)
    requires op.OpenAccount? && Sound(s) && Told(s, tidy)
    ensures Sound(Perform(s, op)) && Told(Perform(s, op), tidy)
  {
    OpeningKeepsSound(s, op);
    if op.id !in s.accounts {
      var s' := Perform(s, op);
      if tidy {
        forall a, side | a in s'.accounts ensures PostedGap(s', a, side) == 0 && HeldGap(s', a, side) == 0 {
          if a == op.id { OpensWithoutGap(s, a, side); } else { assert PostedGap(s, a, side) == 0; }
        }
        OpeningTotal(s.accounts, op.id, s'.accounts[op.id], Debit);
        OpeningTotal(s.accounts, op.id, s'.accounts[op.id], Credit);
      } else {
        var a :| a in s.accounts && CreditGap(s, a) > 0;
        assert CreditGap(s', a) > 0;
      }
    }
  }

  lemma {:induction false} HistoryTells(ops: seq<Op>)
    ensures Sound(History(ops)) && Told(History(ops), TidyHistory(ops))
  {
    if ops == [] {
      SumZero<Id>(map[]);
      assert SelfSum(map[]) == Sum<Id>(map[]);
    } else {
      var before, op := ops[..|ops| - 1], ops[|ops| - 1];
      HistoryTells(before);
      match op
      case OpenAccount(_, _, _, _) => OpeningTells(History(before), op, TidyHistory(before));
      case Request(batch) =>
        if BatchRefusal(batch).None? { RunsTell(History(before), batch, 0, TidyHistory(before)); }
    }
  }

  /** Over every history of openings and requests whatever: the totals are the
      sums of what is on record, and debits equal credits, exactly when no
      applied entry ever wrote over money and none on record moved, or is held,
      from an account to itself. */
  lemma HistoryKeepsBooksExactly(ops: seq<Op>)
    ensures Books(History(ops)) <==> TidyHistory(ops) && NoSelf(History(ops))
  {
    HistoryTells(ops);
    BooksAreTold(History(ops), TidyHistory(ops));
  }
}
