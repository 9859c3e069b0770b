/** The double-entry ledger: accounts with posted and pending totals, linked
    runs applied all-or-nothing on shadow state, two-phase reservations and
    idempotent transfer ids (go/internal/ledger/fake_client.go). */
module Ledger {
  import opened Common

  const BatchMax: nat := 253

  // Go keeps totals as uint64. They are `int` here so that "a settlement never
  // underflows" is a theorem (LedgerInvariant) rather than a typing accident.
  datatype Account = Account(
    currency: string, creditsCapped: bool, debitsCapped: bool,
    debitsPosted: int, creditsPosted: int, debitsPending: int, creditsPending: int)

  datatype Kind = Unspecified | Regular | Pending | PostPending | VoidPending

  datatype Transfer = Transfer(
    id: Id, debit: Id, credit: Id, amount: nat, currency: string, linked: bool, kind: Kind, pendingId: Id)

  datatype Stored = Stored(debit: Id, credit: Id, amount: nat, currency: string, kind: Kind, pendingId: Id)

  datatype Status = Open | Posted | Voided

  datatype Reservation = Reservation(debit: Id, credit: Id, amount: nat, status: Status)

  datatype Code =
    | OK | Exists | ExistsWithDifferentFields | ExceedsCredits | ExceedsDebits
    | LinkedEventFailed | PendingTransferNotFound | AccountNotFound

  datatype State = State(accounts: map<Id, Account>, transfers: map<Id, Stored>, pending: map<Id, Reservation>)

  datatype BatchError = BatchTooLarge | EndsInLinkedChain
  datatype BatchResult = Refused(error: BatchError) | Results(codes: seq<Code>)

  function Store(t: Transfer): Stored {
    Stored(t.debit, t.credit, t.amount, t.currency, t.kind, t.pendingId)
  }

  predicate Settles(t: Transfer) { t.kind == PostPending || t.kind == VoidPending }

  // ---- One entry -----------------------------------------------------------

  function Debited(a: Account, t: Transfer): Account {
    match t.kind
    case Unspecified => a
    case Regular => a.(debitsPosted := a.debitsPosted + t.amount)
    case Pending => a.(debitsPending := a.debitsPending + t.amount)
    case PostPending => a.(debitsPending := a.debitsPending - t.amount, debitsPosted := a.debitsPosted + t.amount)
    case VoidPending => a.(debitsPending := a.debitsPending - t.amount)
  }

  function Credited(a: Account, t: Transfer): Account {
    match t.kind
    case Unspecified => a
    case Regular => a.(creditsPosted := a.creditsPosted + t.amount)
    case Pending => a.(creditsPending := a.creditsPending + t.amount)
    case PostPending => a.(creditsPending := a.creditsPending - t.amount, creditsPosted := a.creditsPosted + t.amount)
    case VoidPending => a.(creditsPending := a.creditsPending - t.amount)
  }

  predicate DebitsWithin(a: Account) {
    a.debitsCapped ==> a.debitsPosted + a.debitsPending <= a.creditsPosted + a.creditsPending
  }

  predicate CreditsWithin(a: Account) {
    a.creditsCapped ==> a.creditsPosted + a.creditsPending <= a.debitsPosted + a.debitsPending
  }

  function SettledAs(t: Transfer): Status
    requires Settles(t)
  {
    if t.kind == PostPending then Posted else Voided
  }

  function Recorded(pending: map<Id, Reservation>, t: Transfer): map<Id, Reservation> {
    if t.kind == Pending then
      pending[t.id := Reservation(t.debit, t.credit, t.amount, Open)]
    else if Settles(t) && t.pendingId in pending then
      pending[t.pendingId := pending[t.pendingId].(status := SettledAs(t))]
    else
      pending
  }

  /** What one applied entry does to the books. The credit side is written
      last, so a transfer from an account to itself loses its debit. */
  function Effect(s: State, t: Transfer): State
    requires t.debit in s.accounts && t.credit in s.accounts
  {
    State(
      s.accounts[t.debit := Debited(s.accounts[t.debit], t)][t.credit := Credited(s.accounts[t.credit], t)],
      s.transfers[t.id := Store(t)],
      Recorded(s.pending, t))
  }

  /** A run in progress: the codes so far, the books as they would stand, and
      the settlements tried so far. */
  datatype Scratch = Scratch(codes: seq<Code>, cur: State, tried: map<Id, Status>)

  predicate NamesOpenReservation(base: State, tried: map<Id, Status>, t: Transfer) {
    && t.pendingId in base.pending
    && (if t.pendingId in tried then tried[t.pendingId] else base.pending[t.pendingId].status) == Open
    && base.pending[t.pendingId].debit == t.debit
    && base.pending[t.pendingId].credit == t.credit
    && base.pending[t.pendingId].amount == t.amount
  }

  /** The verdict on the next entry of a run. Ids and reservations are looked
      up in `base`, the books before the run; totals in the run's own shadow. */
  function Judge(base: State, accounts: map<Id, Account>, tried: map<Id, Status>, t: Transfer): (c: Code)
    ensures c == OK ==>
      && t.id !in base.transfers && t.debit in accounts && t.credit in accounts
      && (Settles(t) ==> NamesOpenReservation(base, tried, t))
  {
    if t.id in base.transfers then
      if base.transfers[t.id] == Store(t) then Exists else ExistsWithDifferentFields
    else if t.debit !in accounts || t.credit !in accounts then AccountNotFound
    else if Settles(t) && !NamesOpenReservation(base, tried, t) then PendingTransferNotFound
    else if !DebitsWithin(Debited(accounts[t.debit], t)) then ExceedsCredits
    else if !CreditsWithin(Credited(accounts[t.credit], t)) then ExceedsDebits
    else OK
  }

  /** A settlement that got as far as the account flags counts as tried, even
      when a flag then refuses it. */
  function Tried(tried: map<Id, Status>, t: Transfer, c: Code): map<Id, Status> {
    if Settles(t) && (c == OK || c == ExceedsCredits || c == ExceedsDebits)
    then tried[t.pendingId := SettledAs(t)] else tried
  }

  function Entry(base: State, s: Scratch, t: Transfer): Scratch {
    var c := Judge(base, s.cur.accounts, s.tried, t);
    Scratch(s.codes + [c], if c == OK then Effect(s.cur, t) else s.cur, Tried(s.tried, t, c))
  }

  // ---- One linked run ------------------------------------------------------

  /** The first `n` entries of a run, tried in order against `base`. */
  function Attempt(base: State, run: seq<Transfer>, n: nat): (s: Scratch)
    requires n <= |run|
    ensures |s.codes| == n
    ensures s.cur.accounts.Keys == base.accounts.Keys
  {
    if n == 0 then Scratch([], base, map[])
    else Entry(base, Attempt(base, run, n - 1), run[n - 1])
  }

  predicate Good(c: Code) { c == OK || c == Exists }

  predicate Accepted(base: State, run: seq<Transfer>) {
    AllGood(Attempt(base, run, |run|).codes)
  }

  predicate AllGood(codes: seq<Code>) { forall i :: 0 <= i < |codes| ==> Good(codes[i]) }

  /** A run applies whole or not at all. */
  function ApplyRun(base: State, run: seq<Transfer>): State {
    if Accepted(base, run) then Attempt(base, run, |run|).cur else base
  }

  /** What a failed run reports: an entry that would have applied says only
      that its chain failed. */
  function LinkedFailure(codes: seq<Code>): seq<Code> {
    seq(|codes|, i requires 0 <= i < |codes| => if codes[i] == OK then LinkedEventFailed else codes[i])
  }

  function RunCodes(base: State, run: seq<Transfer>): seq<Code> {
    var codes := Attempt(base, run, |run|).codes;
    if AllGood(codes) then codes else LinkedFailure(codes)
  }

  // ---- One batch -----------------------------------------------------------

  predicate Closed(batch: seq<Transfer>) { batch != [] ==> !batch[|batch| - 1].linked }

  /** Where the run starting at `start` ends: just past its first unlinked entry. */
  function RunEnd(batch: seq<Transfer>, start: nat): (end: nat)
    requires start < |batch| && Closed(batch)
    ensures start < end <= |batch| && !batch[end - 1].linked
    ensures forall i :: start <= i < end - 1 ==> batch[i].linked
    decreases |batch| - start
  {
    if batch[start].linked then RunEnd(batch, start + 1) else start + 1
  }

  /** The books after every run from `start` on, in order. */
  function ApplyRuns(s: State, batch: seq<Transfer>, start: nat): State
    requires start <= |batch| && Closed(batch)
    decreases |batch| - start
  {
    if start == |batch| then s
    else var end := RunEnd(batch, start); ApplyRuns(ApplyRun(s, batch[start..end]), batch, end)
  }

  /** What each entry from `start` on is told, at its own index. */
  function BatchCodes(s: State, batch: seq<Transfer>, start: nat): seq<Code>
    requires start <= |batch| && Closed(batch)
    decreases |batch| - start
  {
    if start == |batch| then []
    else
      var end := RunEnd(batch, start);
      RunCodes(s, batch[start..end]) + BatchCodes(ApplyRun(s, batch[start..end]), batch, end)
  }

  function BatchRefusal(batch: seq<Transfer>): Option<BatchError> {
    if |batch| > BatchMax then Some(BatchTooLarge)
    else if !Closed(batch) then Some(EndsInLinkedChain)
    else None
  }

  /** The books after one request. */
  function Submit(s: State, batch: seq<Transfer>): State {
    if BatchRefusal(batch).Some? then s else ApplyRuns(s, batch, 0)
  }
}
