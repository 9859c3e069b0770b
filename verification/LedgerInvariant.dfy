/** What every history of ledger requests keeps: reservations and settlements
    agree, totals are exactly the sums of what was accepted, debits equal
    credits, and flagged accounts stay within their flag. */
module LedgerInvariant {
  import opened Common
  import opened Ledger

  // ---- Reservations and settlements agree ----------------------------------

  predicate SameTerms(r: Reservation, t: Stored) {
    r.debit == t.debit && r.credit == t.credit && r.amount == t.amount
  }

  /** A recorded transfer is borne out by the reservation it made or settled. */
  predicate Backed(s: State, i: Id)
    requires i in s.transfers
  {
    var t := s.transfers[i];
    match t.kind
    case Unspecified => true
    case Regular => true
    case Pending => i in s.pending && SameTerms(s.pending[i], t)
    case PostPending =>
      && t.pendingId in s.pending && SameTerms(s.pending[t.pendingId], t)
      && s.pending[t.pendingId].status == Posted
    case VoidPending =>
      && t.pendingId in s.pending && SameTerms(s.pending[t.pendingId], t)
      && s.pending[t.pendingId].status == Voided
  }

  predicate SettlesStored(t: Stored) { t.kind == PostPending || t.kind == VoidPending }

  ghost predicate AllBacked(s: State) { forall i :: i in s.transfers ==> Backed(s, i) }

  ghost predicate SettledOnce(s: State) {
    forall i, j :: i in s.transfers && j in s.transfers && SettleSame(s.transfers[i], s.transfers[j]) ==> i == j
  }

  predicate SettleSame(t: Stored, u: Stored) {
    SettlesStored(t) && SettlesStored(u) && t.pendingId == u.pendingId
  }

  ghost predicate NamesAccounts(s: State) {
    && (forall i :: i in s.transfers ==> s.transfers[i].debit in s.accounts && s.transfers[i].credit in s.accounts)
    && (forall p :: p in s.pending ==> s.pending[p].debit in s.accounts && s.pending[p].credit in s.accounts)
  }

  /** Every reservation was recorded under its own id and names real accounts;
      every settlement is borne out, and no reservation is settled twice. */
  ghost predicate Sound(s: State) {
    s.pending.Keys <= s.transfers.Keys && AllBacked(s) && NamesAccounts(s) && SettledOnce(s)
  }

  /** Nothing a run does reaches what `base` recorded. */
  ghost predicate Extends(base: State, cur: State) {
    forall i :: i in base.transfers ==> i in cur.transfers && cur.transfers[i] == base.transfers[i]
  }

  /** The reservations of `base` as a run midway sees them. */
  ghost predicate Tracks(base: State, s: Scratch) {
    forall p :: p in base.pending ==>
      && p in s.cur.pending
      && (p !in s.tried ==> s.cur.pending[p] == base.pending[p])
      && s.cur.pending[p].(status := Open) == base.pending[p].(status := Open)
  }

  ghost predicate SettlesOnly(base: State, cur: State) {
    forall i :: i in cur.transfers && SettlesStored(cur.transfers[i]) ==> cur.transfers[i].pendingId in base.pending
  }

  ghost predicate Midway(base: State, s: Scratch) {
    && Extends(base, s.cur) && Tracks(base, s) && SettlesOnly(base, s.cur)
    && forall p :: p in s.tried ==> s.tried[p] != Open
  }

  /** An applied entry settles an open reservation on its own terms; no
      settlement so far names its id. */
  ghost predicate Applicable(s: State, t: Transfer) {
    && t.debit in s.accounts && t.credit in s.accounts
    && (Settles(t) ==>
          && t.pendingId in s.pending && s.pending[t.pendingId].status == Open
          && SameTerms(s.pending[t.pendingId], Store(t)))
    && (forall i :: i in s.transfers && SettlesStored(s.transfers[i]) ==> s.transfers[i].pendingId != t.id)
  }

  lemma AppliedEntry(base: State, s: Scratch, t: Transfer)
    requires Sound(base) && Midway(base, s)
    requires Judge(base, s.cur.accounts, s.tried, t) == OK
    ensures t.id !in base.pending && (Settles(t) ==> t.pendingId in base.pending) && Applicable(s.cur, t)
  {
  }

  lemma EffectKeepsBacked(s: State, t: Transfer)
    requires Applicable(s, t) && AllBacked(s)
    ensures AllBacked(Effect(s, t))
  {
    var s' := Effect(s, t);
    forall i | i in s'.transfers ensures Backed(s', i) {
      if i != t.id { assert Backed(s, i); }
    }
  }

  lemma EffectSettlesOnce(s: State, t: Transfer)
    requires Applicable(s, t) && AllBacked(s) && SettledOnce(s)
    ensures SettledOnce(Effect(s, t))
  {
    forall i | i in s.transfers ensures !SettleSame(s.transfers[i], Store(t)) {
      assert Backed(s, i);
    }
  }

  lemma EffectKeepsSound(s: State, t: Transfer)
    requires Applicable(s, t) && Sound(s)
    ensures Sound(Effect(s, t))
  {
    EffectKeepsBacked(s, t);
    EffectSettlesOnce(s, t);
  }

  lemma EntryTracks(base: State, s: Scratch, t: Transfer)
    requires Sound(base) && Midway(base, s)
    ensures Tracks(base, Entry(base, s, t))
  {
    if Judge(base, s.cur.accounts, s.tried, t) == OK { AppliedEntry(base, s, t); }
  }

  lemma EntryKeepsMidway(base: State, s: Scratch, t: Transfer)
    requires Sound(base) && Midway(base, s)
    ensures Midway(base, Entry(base, s, t))
  {
    EntryTracks(base, s, t);
    if Judge(base, s.cur.accounts, s.tried, t) == OK { AppliedEntry(base, s, t); }
  }

  lemma EntryKeepsSound(base: State, s: Scratch, t: Transfer)
    requires Sound(base) && Midway(base, s) && Sound(s.cur)
    ensures Sound(Entry(base, s, t).cur)
  {
    if Judge(base, s.cur.accounts, s.tried, t) == OK {
      AppliedEntry(base, s, t);
      EffectKeepsSound(s.cur, t);
    }
  }

  lemma {:induction false} AttemptKeepsSound(base: State, run: seq<Transfer>, n: nat)
    requires n <= |run| && Sound(base)
    ensures Sound(Attempt(base, run, n).cur) && Midway(base, Attempt(base, run, n))
  {
    if n > 0 {
      AttemptKeepsSound(base, run, n - 1);
      EntryKeepsMidway(base, Attempt(base, run, n - 1), run[n - 1]);
      EntryKeepsSound(base, Attempt(base, run, n - 1), run[n - 1]);
    }
  }

  // ---- Totals are the sums of what was accepted ----------------------------

  datatype Side = Debit | Credit

  function Party(t: Stored, side: Side): Id { if side == Debit then t.debit else t.credit }

  predicate Moves(t: Stored) { t.kind == Regular || t.kind == PostPending }

  function PostedTotal(a: Account, side: Side): int {
    if side == Debit then a.debitsPosted else a.creditsPosted
  }

  function PendingTotal(a: Account, side: Side): int {
    if side == Debit then a.debitsPending else a.creditsPending
  }

  /** What one recorded transfer posted to account `a`. */
  function PostedBy(t: Stored, a: Id, side: Side): int {
    if Moves(t) && Party(t, side) == a then t.amount else 0
  }

  /** What one reservation holds on account `a`. */
  function HeldBy(r: Reservation, a: Id, side: Side): int {
    if r.status == Open && (if side == Debit then r.debit else r.credit) == a then r.amount else 0
  }

  ghost function PostedSum(transfers: map<Id, Stored>, a: Id, side: Side): int {
    Sum(map i | i in transfers :: PostedBy(transfers[i], a, side))
  }

  ghost function HeldSum(pending: map<Id, Reservation>, a: Id, side: Side): int {
    Sum(map p | p in pending :: HeldBy(pending[p], a, side))
  }

  /** Each account's posted totals are exactly the recorded transfers that moved
      money through it, and its pending totals exactly its open reservations. */
  ghost predicate Reconciled(s: State) {
    forall a, side :: a in s.accounts ==>
      && PostedTotal(s.accounts[a], side) == PostedSum(s.transfers, a, side)
      && PendingTotal(s.accounts[a], side) == HeldSum(s.pending, a, side)
  }

  lemma PostedSumInsert(transfers: map<Id, Stored>, i: Id, t: Stored, a: Id, side: Side)
    requires i !in transfers
    ensures PostedSum(transfers[i := t], a, side) == PostedSum(transfers, a, side) + PostedBy(t, a, side)
  {
    var m := map k | k in transfers :: PostedBy(transfers[k], a, side);
    var transfers' := transfers[i := t];
    assert (map k | k in transfers' :: PostedBy(transfers'[k], a, side)) == m[i := PostedBy(t, a, side)];
    SumUpdate(m, i, PostedBy(t, a, side));
  }

  lemma HeldSumUpdate(pending: map<Id, Reservation>, p: Id, r: Reservation, a: Id, side: Side)
    ensures HeldSum(pending[p := r], a, side) ==
      HeldSum(pending, a, side) + HeldBy(r, a, side) - (if p in pending then HeldBy(pending[p], a, side) else 0)
  {
    var m := map k | k in pending :: HeldBy(pending[k], a, side);
    var pending' := pending[p := r];
    assert (map k | k in pending' :: HeldBy(pending'[k], a, side)) == m[p := HeldBy(r, a, side)];
    SumUpdate(m, p, HeldBy(r, a, side));
  }

  /** What an applied entry does to the pending total of account `a`. */
  function Reserves(t: Transfer, a: Id, side: Side): int {
    if Party(Store(t), side) != a then 0
    else if t.kind == Pending then t.amount
    else if Settles(t) then 0 - t.amount
    else 0
  }

  lemma EffectOnAccount(s: State, t: Transfer, a: Id, side: Side)
    requires t.debit in s.accounts && t.credit in s.accounts && t.debit != t.credit && a in s.accounts
    ensures var a' := Effect(s, t).accounts[a];
      && PostedTotal(a', side) == PostedTotal(s.accounts[a], side) + PostedBy(Store(t), a, side)
      && PendingTotal(a', side) == PendingTotal(s.accounts[a], side) + Reserves(t, a, side)
  {
  }

  lemma RecordedHolds(s: State, t: Transfer, a: Id, side: Side)
    requires Applicable(s, t) && t.id !in s.pending
    ensures HeldSum(Recorded(s.pending, t), a, side) == HeldSum(s.pending, a, side) + Reserves(t, a, side)
  {
    if t.kind == Pending {
      HeldSumUpdate(s.pending, t.id, Reservation(t.debit, t.credit, t.amount, Open), a, side);
    } else if Settles(t) {
      HeldSumUpdate(s.pending, t.pendingId, s.pending[t.pendingId].(status := SettledAs(t)), a, side);
    }
  }

  lemma EffectKeepsReconciled(s: State, t: Transfer)
    requires Applicable(s, t) && t.id !in s.pending && t.id !in s.transfers && t.debit != t.credit
    requires Reconciled(s)
    ensures Reconciled(Effect(s, t))
  {
    forall a, side | a in s.accounts
      ensures var s' := Effect(s, t);
        && PostedTotal(s'.accounts[a], side) == PostedSum(s'.transfers, a, side)
        && PendingTotal(s'.accounts[a], side) == HeldSum(s'.pending, a, side)
    {
      EffectOnAccount(s, t, a, side);
      PostedSumInsert(s.transfers, t.id, Store(t), a, side);
      RecordedHolds(s, t, a, side);
    }
  }

  /** No total is ever negative, so no settlement underflows an unsigned one. */
  lemma ReconciledTotalsAreNatural(s: State, a: Id, side: Side)
    requires Reconciled(s) && a in s.accounts
    ensures PostedTotal(s.accounts[a], side) >= 0 && PendingTotal(s.accounts[a], side) >= 0
  {
    SumNonNegative(map i | i in s.transfers :: PostedBy(s.transfers[i], a, side));
    SumNonNegative(map p | p in s.pending :: HeldBy(s.pending[p], a, side));
  }

  // ---- Debits equal credits ------------------------------------------------

  ghost function Total(accounts: map<Id, Account>, side: Side): int {
    Sum(map a | a in accounts :: PostedTotal(accounts[a], side))
  }

  /** Posted credits less posted debits, over the whole ledger. */
  ghost function Drift(s: State): int { Total(s.accounts, Credit) - Total(s.accounts, Debit) }

  lemma TotalUpdate(accounts: map<Id, Account>, k: Id, v: Account, side: Side)
    requires k in accounts
    ensures Total(accounts[k := v], side) ==
      Total(accounts, side) + PostedTotal(v, side) - PostedTotal(accounts[k], side)
  {
    var m := map a | a in accounts :: PostedTotal(accounts[a], side);
    var accounts' := accounts[k := v];
    assert (map a | a in accounts' :: PostedTotal(accounts'[a], side)) == m[k := PostedTotal(v, side)];
    SumUpdate(m, k, PostedTotal(v, side));
  }

  /** Money moved by a transfer from an account to itself: its credit is
      written over its debit. */
  function SelfMoved(t: Transfer): int {
    if t.debit == t.credit && Moves(Store(t)) then t.amount else 0
  }

  lemma EffectDrift(s: State, t: Transfer)
    requires t.debit in s.accounts && t.credit in s.accounts
    ensures Drift(Effect(s, t)) == Drift(s) + SelfMoved(t)
  {
    var d, c := Debited(s.accounts[t.debit], t), Credited(s.accounts[t.credit], t);
    forall side ensures Total(Effect(s, t).accounts, side) ==
      Total(s.accounts, side) + PostedTotal(c, side) - PostedTotal(s.accounts[t.credit], side)
        + (if t.debit == t.credit then 0 else PostedTotal(d, side) - PostedTotal(s.accounts[t.debit], side))
    {
      TotalUpdate(s.accounts, t.debit, d, side);
      TotalUpdate(s.accounts[t.debit := d], t.credit, c, side);
    }
  }

  // ---- Flags ---------------------------------------------------------------

  ghost predicate WithinFlags(s: State) {
    forall a :: a in s.accounts ==> DebitsWithin(s.accounts[a]) && CreditsWithin(s.accounts[a])
  }

  lemma EffectKeepsFlags(s: State, t: Transfer)
    requires t.debit in s.accounts && t.credit in s.accounts && WithinFlags(s) && t.kind != VoidPending
    requires DebitsWithin(Debited(s.accounts[t.debit], t)) && CreditsWithin(Credited(s.accounts[t.credit], t))
    ensures WithinFlags(Effect(s, t))
  {
    assert DebitsWithin(s.accounts[t.credit]) && CreditsWithin(s.accounts[t.debit]);
  }

  /** Room the two accounts of a reservation need before it can be released
      without leaving either beyond its flag. */
  predicate RoomToVoid(s: State, t: Transfer)
    requires t.debit in s.accounts && t.credit in s.accounts
  {
    var d, c := s.accounts[t.debit], s.accounts[t.credit];
    && (c.debitsCapped ==> c.debitsPosted + c.debitsPending + t.amount <= c.creditsPosted + c.creditsPending)
    && (d.creditsCapped ==> d.creditsPosted + d.creditsPending + t.amount <= d.debitsPosted + d.debitsPending)
  }

  /** A void is never rechecked against the accounts losing the reservation, so
      it keeps the flags exactly when both had the room to lose it. */
  lemma VoidKeepsFlagsExactly(s: State, t: Transfer)
    requires t.debit in s.accounts && t.credit in s.accounts && WithinFlags(s)
    requires t.kind == VoidPending && t.debit != t.credit
    ensures WithinFlags(Effect(s, t)) <==> RoomToVoid(s, t)
  {
    var d, c, s' := s.accounts[t.debit], s.accounts[t.credit], Effect(s, t);
    assert DebitsWithin(c) && CreditsWithin(c) && DebitsWithin(d) && CreditsWithin(d);
    assert s'.accounts[t.debit] == Debited(d, t) && s'.accounts[t.credit] == Credited(c, t);
    assert forall a :: a in s'.accounts && a != t.debit && a != t.credit ==> s'.accounts[a] == s.accounts[a];
  }

  // ---- Whole runs and whole histories --------------------------------------

  predicate DistinctIds(run: seq<Transfer>) {
    forall i, j :: 0 <= i < j < |run| ==> run[i].id != run[j].id
  }

  /** A run as the ledger expects it: two different accounts per entry, and a
      different id for each. */
  predicate Proper(run: seq<Transfer>) {
    DistinctIds(run) && forall i :: 0 <= i < |run| ==> run[i].debit != run[i].credit
  }

  predicate VoidFree(run: seq<Transfer>) { forall i :: 0 <= i < |run| ==> run[i].kind != VoidPending }

  /** A run midway has recorded only ids of its own. */
  lemma {:induction false} AttemptRecords(base: State, run: seq<Transfer>, n: nat, id: Id)
    requires n <= |run| && id in Attempt(base, run, n).cur.transfers
    ensures id in base.transfers || exists i :: 0 <= i < n && run[i].id == id
  {
    if n > 0 && id in Attempt(base, run, n - 1).cur.transfers { AttemptRecords(base, run, n - 1, id); }
  }

  lemma NextIdIsFresh(base: State, run: seq<Transfer>, n: nat)
    requires n < |run| && DistinctIds(run)
    ensures run[n].id in Attempt(base, run, n).cur.transfers ==> run[n].id in base.transfers
  {
    if run[n].id in Attempt(base, run, n).cur.transfers { AttemptRecords(base, run, n, run[n].id); }
  }

  lemma EntryKeepsReconciled(base: State, s: Scratch, t: Transfer)
    requires Sound(base) && Midway(base, s) && Sound(s.cur) && Reconciled(s.cur)
    requires t.debit != t.credit && (t.id in s.cur.transfers ==> t.id in base.transfers)
    ensures Reconciled(Entry(base, s, t).cur)
  {
    if Judge(base, s.cur.accounts, s.tried, t) == OK {
      AppliedEntry(base, s, t);
      EffectKeepsReconciled(s.cur, t);
    }
  }

  lemma NextKeepsReconciled(base: State, run: seq<Transfer>, n: nat, s: Scratch)
    requires n < |run| && Sound(base) && Proper(run) && s == Attempt(base, run, n) && Reconciled(s.cur)
    ensures Reconciled(Entry(base, s, run[n]).cur)
  {
    AttemptKeepsSound(base, run, n);
    NextIdIsFresh(base, run, n);
    EntryKeepsReconciled(base, s, run[n]);
  }

  lemma {:induction false} AttemptKeepsReconciled(base: State, run: seq<Transfer>, n: nat)
    requires n <= |run| && Sound(base) && Reconciled(base) && Proper(run)
    ensures Reconciled(Attempt(base, run, n).cur)
  {
    if n > 0 {
      AttemptKeepsReconciled(base, run, n - 1);
      NextKeepsReconciled(base, run, n - 1, Attempt(base, run, n - 1));
    }
  }

  /** Every settled reservation has its settlement on record. */
  ghost predicate SettlementsRecorded(s: State) {
    forall p :: p in s.pending && s.pending[p].status != Open ==> HasSettlement(s, p)
  }

  ghost predicate HasSettlement(s: State, p: Id) {
    exists i :: i in s.transfers && SettlesStored(s.transfers[i]) && s.transfers[i].pendingId == p
  }

  lemma EffectRecordsSettlement(s: State, t: Transfer)
    requires SettlementsRecorded(s) && Applicable(s, t) && t.id !in s.transfers
    ensures SettlementsRecorded(Effect(s, t))
  {
    var s' := Effect(s, t);
    forall p | p in s'.pending && s'.pending[p].status != Open ensures HasSettlement(s', p) {
      if Settles(t) && p == t.pendingId {
        assert SettlesStored(s'.transfers[t.id]);
      } else {
        assert HasSettlement(s, p);
        var i :| i in s.transfers && SettlesStored(s.transfers[i]) && s.transfers[i].pendingId == p;
        assert s'.transfers[i] == s.transfers[i];
      }
    }
  }

  lemma EntryRecordsSettlement(base: State, s: Scratch, t: Transfer)
    requires Sound(base) && Midway(base, s) && SettlementsRecorded(s.cur)
    requires t.id in s.cur.transfers ==> t.id in base.transfers
    ensures SettlementsRecorded(Entry(base, s, t).cur)
  {
    if Judge(base, s.cur.accounts, s.tried, t) == OK {
      AppliedEntry(base, s, t);
      EffectRecordsSettlement(s.cur, t);
    }
  }

  lemma {:induction false} AttemptRecordsSettlements(base: State, run: seq<Transfer>, n: nat)
    requires n <= |run| && Sound(base) && SettlementsRecorded(base) && DistinctIds(run)
    ensures SettlementsRecorded(Attempt(base, run, n).cur)
  {
    if n > 0 {
      AttemptRecordsSettlements(base, run, n - 1);
      AttemptKeepsSound(base, run, n - 1);
      NextIdIsFresh(base, run, n - 1);
      EntryRecordsSettlement(base, Attempt(base, run, n - 1), run[n - 1]);
    }
  }

  /** No applied entry of a run moves money from an account to itself. */
  predicate NoSelfMove(run: seq<Transfer>, codes: seq<Code>)
    requires |codes| <= |run|
  {
    forall i :: 0 <= i < |codes| && codes[i] == OK ==> SelfMoved(run[i]) == 0
  }

  lemma NoSelfMoveSnoc(run: seq<Transfer>, codes: seq<Code>, c: Code)
    requires |codes| < |run|
    ensures NoSelfMove(run, codes + [c]) <==> NoSelfMove(run, codes) && (c == OK ==> SelfMoved(run[|codes|]) == 0)
  {
    assert forall i :: 0 <= i < |codes| ==> (codes + [c])[i] == codes[i];
    assert (codes + [c])[|codes|] == c;
  }

  /** How far a run midway has drifted from the books it started from. */
  ghost predicate DriftsBySelfMoves(from: int, run: seq<Transfer>, s: Scratch) {
    && |s.codes| <= |run| && Drift(s.cur) >= from
    && (Drift(s.cur) == from <==> NoSelfMove(run, s.codes))
  }

  lemma EntryDrift(from: int, run: seq<Transfer>, base: State, s: Scratch)
    requires DriftsBySelfMoves(from, run, s) && |s.codes| < |run|
    ensures DriftsBySelfMoves(from, run, Entry(base, s, run[|s.codes|]))
  {
    var t := run[|s.codes|];
    var c := Judge(base, s.cur.accounts, s.tried, t);
    NoSelfMoveSnoc(run, s.codes, c);
    if c == OK { EffectDrift(s.cur, t); }
  }

  lemma {:induction false} AttemptDrift(base: State, run: seq<Transfer>, n: nat)
    requires n <= |run|
    ensures DriftsBySelfMoves(Drift(base), run, Attempt(base, run, n))
  {
    if n > 0 {
      AttemptDrift(base, run, n - 1);
      EntryDrift(Drift(base), run, base, Attempt(base, run, n - 1));
    }
  }

  /** A run keeps posted debits equal to posted credits exactly when it is
      refused or no entry it applies moves money from an account to itself. */
  lemma RunConservesExactly(s: State, run: seq<Transfer>)
    ensures Drift(ApplyRun(s, run)) == Drift(s) <==>
      !Accepted(s, run) || NoSelfMove(run, Attempt(s, run, |run|).codes)
  {
    AttemptDrift(s, run, |run|);
  }

  lemma EntryKeepsFlags(base: State, s: Scratch, t: Transfer)
    requires WithinFlags(s.cur) && t.kind != VoidPending
    ensures WithinFlags(Entry(base, s, t).cur)
  {
    if Judge(base, s.cur.accounts, s.tried, t) == OK { EffectKeepsFlags(s.cur, t); }
  }

  lemma {:induction false} AttemptKeepsFlags(base: State, run: seq<Transfer>, n: nat)
    requires n <= |run| && WithinFlags(base) && VoidFree(run)
    ensures WithinFlags(Attempt(base, run, n).cur)
  {
    if n > 0 {
      AttemptKeepsFlags(base, run, n - 1);
      EntryKeepsFlags(base, Attempt(base, run, n - 1), run[n - 1]);
    }
  }

  /** Everything a proper history keeps. */
  ghost predicate Books(s: State) { Sound(s) && Reconciled(s) && Drift(s) == 0 }

  lemma RunKeepsBooks(s: State, run: seq<Transfer>)
    requires Books(s) && Proper(run)
    ensures Books(ApplyRun(s, run))
  {
    AttemptKeepsSound(s, run, |run|);
    AttemptKeepsReconciled(s, run, |run|);
    RunConservesExactly(s, run);
  }

  /** A history: accounts opened and requests submitted, in any order. */
  datatype Op =
    | OpenAccount(id: Id, currency: string, creditsCapped: bool, debitsCapped: bool)
    | Request(batch: seq<Transfer>)

  /** Every linked run of a batch is proper. */
  ghost predicate ProperRuns(batch: seq<Transfer>, start: nat)
    requires start <= |batch| && Closed(batch)
    decreases |batch| - start
  {
    start < |batch| ==> var end := RunEnd(batch, start); Proper(batch[start..end]) && ProperRuns(batch, end)
  }

  ghost predicate ProperOp(op: Op) {
    op.Request? && BatchRefusal(op.batch).None? ==> ProperRuns(op.batch, 0)
  }

  predicate VoidFreeOp(op: Op) { op.Request? ==> VoidFree(op.batch) }

  function Perform(s: State, op: Op): State {
    match op
    case OpenAccount(id, currency, cc, dc) =>
      if id in s.accounts then s else s.(accounts := s.accounts[id := Account(currency, cc, dc, 0, 0, 0, 0)])
    case Request(batch) => Submit(s, batch)
  }

  function History(ops: seq<Op>): State {
    if ops == [] then State(map[], map[], map[]) else Perform(History(ops[..|ops| - 1]), ops[|ops| - 1])
  }

  lemma {:induction false} ApplyRunsKeepsBooks(s: State, batch: seq<Transfer>, start: nat)
    requires start <= |batch| && Closed(batch) && Books(s) && ProperRuns(batch, start)
    ensures Books(ApplyRuns(s, batch, start))
    decreases |batch| - start
  {
    if start < |batch| {
      var end := RunEnd(batch, start);
      RunKeepsBooks(s, batch[start..end]);
      ApplyRunsKeepsBooks(ApplyRun(s, batch[start..end]), batch, end);
    }
  }

  lemma {:induction false} ApplyRunsKeepsFlags(s: State, batch: seq<Transfer>, start: nat)
    requires start <= |batch| && Closed(batch) && WithinFlags(s) && VoidFree(batch)
    ensures WithinFlags(ApplyRuns(s, batch, start))
    decreases |batch| - start
  {
    if start < |batch| {
      var end := RunEnd(batch, start);
      AttemptKeepsFlags(s, batch[start..end], end - start);
      ApplyRunsKeepsFlags(ApplyRun(s, batch[start..end]), batch, end);
    }
  }

  lemma OpeningKeepsReconciled(s: State, op: Op)
    requires op.OpenAccount? && NamesAccounts(s) && Reconciled(s)
    ensures Reconciled(Perform(s, op))
  {
    if op.id !in s.accounts {
      var s' := Perform(s, op);
      forall a, side | a in s'.accounts
        ensures PostedTotal(s'.accounts[a], side) == PostedSum(s'.transfers, a, side)
             && PendingTotal(s'.accounts[a], side) == HeldSum(s'.pending, a, side)
      {
        if a == op.id {
          SumZero(map i | i in s.transfers :: PostedBy(s.transfers[i], a, side));
          SumZero(map p | p in s.pending :: HeldBy(s.pending[p], a, side));
        }
      }
    }
  }

  lemma OpeningKeepsSound(s: State, op: Op)
    requires op.OpenAccount? && Sound(s)
    ensures Sound(Perform(s, op))
  {
    var s' := Perform(s, op);
    forall i | i in s'.transfers ensures Backed(s', i) { assert Backed(s, i); }
  }

  /** An account nobody has named yet opens with nothing posted or held on it. */
  lemma OpeningKeepsBooks(s: State, op: Op)
    requires op.OpenAccount? && Books(s)
    ensures Books(Perform(s, op))
  {
    OpeningKeepsReconciled(s, op);
    OpeningKeepsSound(s, op);
    if op.id !in s.accounts {
      var s' := Perform(s, op);
      OpeningTotal(s.accounts, op.id, s'.accounts[op.id], Debit);
      OpeningTotal(s.accounts, op.id, s'.accounts[op.id], Credit);
    }
  }

  lemma OpeningTotal(accounts: map<Id, Account>, k: Id, v: Account, side: Side)
    requires k !in accounts && PostedTotal(v, side) == 0
    ensures Total(accounts[k := v], side) == Total(accounts, side)
  {
    var m := map a | a in accounts :: PostedTotal(accounts[a], side);
    var accounts' := accounts[k := v];
    assert (map a | a in accounts' :: PostedTotal(accounts'[a], side)) == m[k := 0];
    SumUpdate(m, k, 0);
  }

  /** Over every history whatever, while nothing is voided every account stays
      within its flag. */
  lemma {:induction false} HistoryKeepsFlags(ops: seq<Op>)
    requires forall i :: 0 <= i < |ops| ==> VoidFreeOp(ops[i])
    ensures WithinFlags(History(ops))
  {
    if ops != [] {
      var before, op := ops[..|ops| - 1], ops[|ops| - 1];
      HistoryKeepsFlags(before);
      assert VoidFreeOp(op);
      if op.Request? && BatchRefusal(op.batch).None? { ApplyRunsKeepsFlags(History(before), op.batch, 0); }
    }
  }

  /** Over every history of proper requests, the books reconcile and debits equal
      credits. LedgerExact says when they do over any history at all. */
  lemma {:induction false} HistoryKeepsBooks(ops: seq<Op>)
    requires forall i :: 0 <= i < |ops| ==> ProperOp(ops[i])
    ensures Books(History(ops))
    ensures (forall i :: 0 <= i < |ops| ==> VoidFreeOp(ops[i])) ==> WithinFlags(History(ops))
  {
    if forall i :: 0 <= i < |ops| ==> VoidFreeOp(ops[i]) { HistoryKeepsFlags(ops); }
    if ops == [] {
      SumZero<Id>(map[]);
    } else {
      var before, op := ops[..|ops| - 1], ops[|ops| - 1];
      HistoryKeepsBooks(before);
      match op
      case OpenAccount(_, _, _, _) => OpeningKeepsBooks(History(before), op);
      case Request(batch) =>
        if BatchRefusal(batch).None? { ApplyRunsKeepsBooks(History(before), batch, 0); }
    }
  }
}
