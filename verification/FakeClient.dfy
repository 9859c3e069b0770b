/** The in-memory ledger client itself: maps mutated under a lock, a shadow of
    the totals per linked run (go/internal/ledger/fake_client.go). */
module LedgerClient {
  import opened Common
  import opened Ledger
  import LI = LedgerInvariant
  import opened LedgerAnswers

  /** The accounts a run sees: its own shadow first, then the books. */
  function Seen(shadow: map<Id, Account>, accounts: map<Id, Account>): map<Id, Account> {
    accounts + shadow
  }

  lemma SeenUpdate(shadow: map<Id, Account>, accounts: map<Id, Account>, k: Id, v: Account)
    ensures Seen(shadow[k := v], accounts) == Seen(shadow, accounts)[k := v]
  {
  }

  /** The accounts after one applied entry. */
  function Shifted(accounts: map<Id, Account>, t: Transfer): map<Id, Account>
    requires t.debit in accounts && t.credit in accounts
  {
    accounts[t.debit := Debited(accounts[t.debit], t)][t.credit := Credited(accounts[t.credit], t)]
  }

  /** Tries one entry against the run's shadow. */
  method TryEntry(base: State, t: Transfer, shadow: map<Id, Account>, tried: map<Id, Status>)
    returns (code: Code, shadow': map<Id, Account>, tried': map<Id, Status>)
    requires shadow.Keys <= base.accounts.Keys
    ensures code == Judge(base, Seen(shadow, base.accounts), tried, t)
    ensures tried' == Tried(tried, t, code)
    ensures shadow.Keys <= shadow'.Keys <= base.accounts.Keys && (code != OK ==> shadow' == shadow)
    ensures code == OK ==> t.debit in shadow' && t.credit in shadow'
    ensures code == OK ==> Seen(shadow', base.accounts) == Shifted(Seen(shadow, base.accounts), t)
  {
    shadow', tried' := shadow, tried;
    if t.id in base.transfers {
      code := if base.transfers[t.id] == Store(t) then Exists else ExistsWithDifferentFields;
    } else if t.debit !in base.accounts || t.credit !in base.accounts {
      code := AccountNotFound;
    } else if Settles(t) && !NamesOpenReservation(base, tried, t) {
      code := PendingTransferNotFound;
    } else {
      var debit := Debited(if t.debit in shadow then shadow[t.debit] else base.accounts[t.debit], t);
      var credit := Credited(if t.credit in shadow then shadow[t.credit] else base.accounts[t.credit], t);
      if Settles(t) { tried' := tried[t.pendingId := SettledAs(t)]; }
      if !DebitsWithin(debit) {
        code := ExceedsCredits;
      } else if !CreditsWithin(credit) {
        code := ExceedsDebits;
      } else {
        code := OK;
        SeenUpdate(shadow, base.accounts, t.debit, debit);
        shadow' := shadow[t.debit := debit];
        SeenUpdate(shadow', base.accounts, t.credit, credit);
        shadow' := shadow'[t.credit := credit];
      }
    }
  }

  lemma AllGoodSnoc(codes: seq<Code>, c: Code)
    ensures AllGood(codes + [c]) <==> AllGood(codes) && Good(c)
  {
    assert forall i :: 0 <= i < |codes| ==> (codes + [c])[i] == codes[i];
    assert (codes + [c])[|codes|] == c;
  }

  /** Every applied entry has left both its accounts in the shadow. */
  predicate InShadow(run: seq<Transfer>, codes: seq<Code>, shadow: map<Id, Account>)
    requires |codes| <= |run|
  {
    forall i :: 0 <= i < |codes| && codes[i] == OK ==> run[i].debit in shadow && run[i].credit in shadow
  }

  /** Tries a whole run against shadow totals. */
  method TryRun(base: State, run: seq<Transfer>)
    returns (codes: seq<Code>, failed: bool, shadow: map<Id, Account>)
    ensures codes == Attempt(base, run, |run|).codes
    ensures failed <==> !Accepted(base, run)
    ensures Shadowed(run, codes, shadow, Attempt(base, run, |run|).cur.accounts)
  {
    codes, failed, shadow := [], false, map[];
    var tried: map<Id, Status> := map[];
    for j := 0 to |run|
      invariant |codes| == j && Trying(base, run, codes, shadow, tried)
      invariant failed <==> !AllGood(codes)
    {
      var code, shadow', tried' := TryEntry(base, run[j], shadow, tried);
      AllGoodSnoc(codes, code);
      TryingNext(base, run, codes, shadow, tried, shadow', tried');
      codes, shadow, tried := codes + [code], shadow', tried';
      failed := failed || (code != OK && code != Exists);
    }
    ShadowHolds(run, codes, shadow, base.accounts);
  }

  /** A run midway: what has been tried agrees with the specification. */
  ghost predicate Trying(base: State, run: seq<Transfer>, codes: seq<Code>, shadow: map<Id, Account>,
      tried: map<Id, Status>) {
    && |codes| <= |run|
    && var s := Attempt(base, run, |codes|);
    && codes == s.codes && tried == s.tried
    && shadow.Keys <= base.accounts.Keys && InShadow(run, codes, shadow)
    && Seen(shadow, base.accounts) == s.cur.accounts
  }

  lemma TryingNext(base: State, run: seq<Transfer>, codes: seq<Code>, shadow: map<Id, Account>, tried: map<Id, Status>,
                   shadow': map<Id, Account>, tried': map<Id, Status>)
    requires |codes| < |run| && Trying(base, run, codes, shadow, tried)
    requires shadow.Keys <= shadow'.Keys <= base.accounts.Keys
    requires var t, seen := run[|codes|], Seen(shadow, base.accounts);
      var c := Judge(base, seen, tried, t);
      && tried' == Tried(tried, t, c)
      && (c == OK ==> t.debit in shadow' && t.credit in shadow')
      && Seen(shadow', base.accounts) == if c == OK then Shifted(seen, t) else seen
    ensures Trying(base, run, codes + [Judge(base, Seen(shadow, base.accounts), tried, run[|codes|])], shadow', tried')
  {
    var s' := AttemptNext(base, run, |codes|);
    var c := Judge(base, Seen(shadow, base.accounts), tried, run[|codes|]);
    assert InShadow(run, codes + [c], shadow');
  }

  /** One more entry tried. */
  ghost function AttemptNext(base: State, run: seq<Transfer>, j: nat): (s': Scratch)
    requires j < |run|
    ensures s' == Attempt(base, run, j + 1)
    ensures var s := Attempt(base, run, j); var c := Judge(base, s.cur.accounts, s.tried, run[j]);
      && s'.codes == s.codes + [c] && s'.tried == Tried(s.tried, run[j], c)
      && s'.cur.accounts == if c == OK then Shifted(s.cur.accounts, run[j]) else s.cur.accounts
  {
    Attempt(base, run, j + 1)
  }

  /** The shadow holds an account's final totals. */
  predicate Holds(shadow: map<Id, Account>, final: map<Id, Account>, a: Id) {
    a in shadow && a in final && shadow[a] == final[a]
  }

  /** Every applied entry's accounts are in the shadow, at their final totals. */
  ghost predicate Shadowed(run: seq<Transfer>, codes: seq<Code>, shadow: map<Id, Account>, final: map<Id, Account>)
    requires |run| == |codes|
  {
    forall i :: 0 <= i < |run| && codes[i] == OK ==>
      Holds(shadow, final, run[i].debit) && Holds(shadow, final, run[i].credit)
  }

  lemma ShadowHolds(run: seq<Transfer>, codes: seq<Code>, shadow: map<Id, Account>, accounts: map<Id, Account>)
    requires |run| == |codes| && InShadow(run, codes, shadow)
    ensures Shadowed(run, codes, shadow, Seen(shadow, accounts))
  {
  }

  ghost predicate Touched(run: seq<Transfer>, codes: seq<Code>, n: nat, a: Id)
    requires n <= |codes| <= |run|
  {
    exists i :: 0 <= i < n && codes[i] == OK && (run[i].debit == a || run[i].credit == a)
  }

  /** An account no applied entry names keeps its totals through a run. */
  lemma {:induction false} UntouchedKeeps(base: State, run: seq<Transfer>, n: nat, a: Id)
    requires n <= |run| && a in base.accounts
    requires !Touched(run, Attempt(base, run, n).codes, n, a)
    ensures Attempt(base, run, n).cur.accounts[a] == base.accounts[a]
  {
    if n > 0 {
      var s, s' := Attempt(base, run, n - 1), Attempt(base, run, n);
      assert forall i :: 0 <= i < n - 1 ==> s'.codes[i] == s.codes[i];
      UntouchedKeeps(base, run, n - 1, a);
    }
  }

  /** The books midway through a commit: final totals for every account an
      applied entry has named so far, the old totals elsewhere. */
  ghost predicate PartlyWritten(was: map<Id, Account>, final: map<Id, Account>, now: map<Id, Account>,
                                run: seq<Transfer>, codes: seq<Code>, n: nat)
    requires n <= |codes| <= |run|
  {
    && now.Keys == was.Keys == final.Keys
    && forall a :: a in now ==> now[a] == if Touched(run, codes, n, a) then final[a] else was[a]
  }

  lemma WrittenSnoc(was: map<Id, Account>, final: map<Id, Account>, now: map<Id, Account>,
                    run: seq<Transfer>, codes: seq<Code>, n: nat)
    requires n < |run| == |codes| && PartlyWritten(was, final, now, run, codes, n)
    ensures codes[n] != OK ==> PartlyWritten(was, final, now, run, codes, n + 1)
    ensures codes[n] == OK && run[n].debit in now && run[n].credit in now ==>
      PartlyWritten(was, final, now[run[n].debit := final[run[n].debit]][run[n].credit := final[run[n].credit]],
                    run, codes, n + 1)
  {
    forall a ensures Touched(run, codes, n + 1, a) <==>
      Touched(run, codes, n, a) || (codes[n] == OK && (run[n].debit == a || run[n].credit == a))
    {
    }
  }

  lemma WrittenWhole(base: State, run: seq<Transfer>, now: map<Id, Account>)
    requires var s := Attempt(base, run, |run|);
      PartlyWritten(base.accounts, s.cur.accounts, now, run, s.codes, |run|)
    ensures now == Attempt(base, run, |run|).cur.accounts
  {
    var s := Attempt(base, run, |run|);
    forall a | a in now ensures now[a] == s.cur.accounts[a] {
      if !Touched(run, s.codes, |run|, a) { UntouchedKeeps(base, run, |run|, a); }
    }
  }

  /** What committing entry `j` adds to the record. */
  lemma CommitSnoc(base: State, run: seq<Transfer>, j: nat)
    requires j < |run|
    ensures var before, after := Attempt(base, run, j).cur, Attempt(base, run, j + 1).cur;
      if Attempt(base, run, |run|).codes[j] == OK then
        && run[j].debit in base.accounts && run[j].credit in base.accounts
        && after.transfers == before.transfers[run[j].id := Store(run[j])]
        && after.pending == Recorded(before.pending, run[j])
      else after == before
  {
    CodesStable(base, run, j + 1, |run|);
    assert Attempt(base, run, |run|).codes[j] == Attempt(base, run, |run|).codes[..j + 1][j];
  }

  /** Writes an accepted run's fresh entries through to the books. */
  method CommitRun(base: State, run: seq<Transfer>, codes: seq<Code>, shadow: map<Id, Account>) returns (books: State)
    requires codes == Attempt(base, run, |run|).codes
    requires Shadowed(run, codes, shadow, Attempt(base, run, |run|).cur.accounts)
    ensures books == Attempt(base, run, |run|).cur
  {
    books := base;
    CommittingEnds(base, run, base);
    for j := 0 to |run|
      invariant Committing(base, run, j, books)
    {
      var t := run[j];
      CommittingNext(base, run, j, books, shadow);
      if codes[j] == OK {
        books := State(
          books.accounts[t.debit := shadow[t.debit]][t.credit := shadow[t.credit]],
          books.transfers[t.id := Store(t)], Recorded(books.pending, t));
      }
    }
    CommittingEnds(base, run, books);
  }

  lemma CommittingEnds(base: State, run: seq<Transfer>, now: State)
    ensures Committing(base, run, 0, base)
    ensures Committing(base, run, |run|, now) ==> now == Attempt(base, run, |run|).cur
  {
    if Committing(base, run, |run|, now) { WrittenWhole(base, run, now.accounts); }
  }

  /** A commit midway: `n` entries written through. */
  ghost predicate Committing(base: State, run: seq<Transfer>, n: nat, now: State) {
    && n <= |run|
    && now.transfers == Attempt(base, run, n).cur.transfers && now.pending == Attempt(base, run, n).cur.pending
    && var s := Attempt(base, run, |run|);
    PartlyWritten(base.accounts, s.cur.accounts, now.accounts, run, s.codes, n)
  }

  lemma CommittingNext(base: State, run: seq<Transfer>, j: nat, now: State, shadow: map<Id, Account>)
    requires j < |run| && Committing(base, run, j, now)
    requires Shadowed(run, Attempt(base, run, |run|).codes, shadow, Attempt(base, run, |run|).cur.accounts)
    ensures Attempt(base, run, |run|).codes[j] == OK ==>
      && run[j].debit in shadow && run[j].credit in shadow
      && Committing(base, run, j + 1, State(
        now.accounts[run[j].debit := shadow[run[j].debit]][run[j].credit := shadow[run[j].credit]],
        now.transfers[run[j].id := Store(run[j])], Recorded(now.pending, run[j])))
    ensures Attempt(base, run, |run|).codes[j] != OK ==> Committing(base, run, j + 1, now)
  {
    var s := Attempt(base, run, |run|);
    CommitSnoc(base, run, j);
    WrittenSnoc(base.accounts, s.cur.accounts, now.accounts, run, s.codes, j);
    if s.codes[j] == OK {
      assert Holds(shadow, s.cur.accounts, run[j].debit) && Holds(shadow, s.cur.accounts, run[j].credit);
    }
  }

  /** Scans a run from `start` to its unlinked end. */
  method ScanRun(batch: seq<Transfer>, start: nat) returns (end: nat)
    requires start < |batch| && Closed(batch)
    ensures end == RunEnd(batch, start)
  {
    end := start;
    while batch[end].linked
      invariant start <= end < |batch| && RunEnd(batch, start) == RunEnd(batch, end)
      decreases |batch| - end
    {
      end := end + 1;
    }
    end := end + 1;
  }

  lemma BatchCodesUnfold(s: State, results: seq<Code>, batch: seq<Transfer>, start: nat)
    requires start < |batch| && Closed(batch)
    ensures var end := RunEnd(batch, start); var run := batch[start..end];
      && ApplyRuns(s, batch, start) == ApplyRuns(ApplyRun(s, run), batch, end)
      && results + BatchCodes(s, batch, start) == results + RunCodes(s, run) + BatchCodes(ApplyRun(s, run), batch, end)
  {
  }

  lemma RequestTold(s: State, batch: seq<Transfer>)
    requires BatchRefusal(batch).None?
    ensures |BatchCodes(s, batch, 0)| == |batch|
    ensures LI.Sound(s) && LI.DistinctIds(batch) ==>
      forall i :: 0 <= i < |batch| ==> Told(s, Submit(s, batch), batch[i], BatchCodes(s, batch, 0)[i])
  {
    RestLength(s, batch, 0);
    if LI.Sound(s) && LI.DistinctIds(batch) {
      forall i | 0 <= i < |batch| ensures Told(s, Submit(s, batch), batch[i], BatchCodes(s, batch, 0)[i]) {
        AnswersAreTheRecord(s, batch, i);
      }
    }
  }

  class FakeClient {
    var accounts: map<Id, Account>
    var transfers: map<Id, Stored>
    var pending: map<Id, Reservation>

    function Books(): State reads this { State(accounts, transfers, pending) }

    constructor ()
      ensures Books() == State(map[], map[], map[])
    {
      accounts, transfers, pending := map[], map[], map[];
    }

    /** One linked run: all of it, or none. */
    method SubmitRun(run: seq<Transfer>) returns (codes: seq<Code>)
      modifies this
      ensures Books() == ApplyRun(old(Books()), run) && codes == RunCodes(old(Books()), run)
      ensures |codes| == |run| && (AllGood(codes) <==> Accepted(old(Books()), run))
      ensures !AllGood(codes) ==> Books() == old(Books()) && Explains(old(Books()), run, codes)
    {
      CodesTellAcceptance(Books(), run);
      var failed, shadow;
      codes, failed, shadow := TryRun(Books(), run);
      if failed {
        codes := LinkedFailure(codes);
      } else {
        var books := CommitRun(Books(), run, codes, shadow);
        accounts, transfers, pending := books.accounts, books.transfers, books.pending;
      }
    }

    /** One request: refused whole, or applied run by run. */
    method CreateTransfers(batch: seq<Transfer>) returns (r: BatchResult)
      modifies this
      ensures Books() == Submit(old(Books()), batch)
      ensures r == match BatchRefusal(batch)
                   case Some(e) => Refused(e)
                   case None => Results(BatchCodes(old(Books()), batch, 0))
      ensures r.Results? ==> |r.codes| == |batch|
      ensures r.Results? && LI.Sound(old(Books())) && LI.DistinctIds(batch) ==>
        forall i :: 0 <= i < |batch| ==> Told(old(Books()), Books(), batch[i], r.codes[i])
    {
      if |batch| > BatchMax { return Refused(BatchTooLarge); }
      if |batch| > 0 && batch[|batch| - 1].linked { return Refused(EndsInLinkedChain); }
      var results: seq<Code> := [];
      var start := 0;
      while start < |batch|
        invariant start <= |batch|
        invariant ApplyRuns(old(Books()), batch, 0) == ApplyRuns(Books(), batch, start)
        invariant BatchCodes(old(Books()), batch, 0) == results + BatchCodes(Books(), batch, start)
      {
        var end := ScanRun(batch, start);
        BatchCodesUnfold(Books(), results, batch, start);
        var codes := SubmitRun(batch[start..end]);
        results := results + codes;
        start := end;
      }
      r := Results(results);
      RequestTold(old(Books()), batch);
    }
  }
}
