/** Where the ledger's promises stop: two kinds of run the hypotheses of
    LedgerInvariant leave out, each shown to break what they protect. */
module LedgerWitness {
  import opened Common
  import opened Ledger
  import opened LedgerInvariant
  import opened LedgerRuns

  const X: Id := Uuid(0, 0)
  const A: Id := Uuid(0, 1)
  const B: Id := Uuid(0, 2)

  /** Three empty accounts, of which only A may not be overdrawn. */
  const Opened: State := State(map[X := Fresh(false), A := Fresh(true), B := Fresh(false)], map[], map[])

  function Fresh(capped: bool): Account { Account("USD", false, capped, 0, 0, 0, 0) }

  lemma OpenedIsBalanced()
    ensures Books(Opened) && WithinFlags(Opened)
  {
    var ops := [OpenAccount(X, "USD", false, false), OpenAccount(A, "USD", false, true),
        OpenAccount(B, "USD", false, false)];
    HistoryKeepsBooks(ops);
    assert ops[..2][..1][..0] == [] && ops[..2][..1] == ops[..1] && ops[..2] == ops[..2];
    var s1 := Perform(State(map[], map[], map[]), ops[0]);
    assert History(ops[..1]) == s1 by { assert ops[..1][..0] == []; }
    assert History(ops[..2]) == Perform(s1, ops[1]) by { assert ops[..2][..1] == ops[..1]; }
    assert History(ops) == Perform(Perform(s1, ops[1]), ops[2]);
    assert History(ops).accounts == Opened.accounts;
  }

  function Plain(n: nat, debit: Id, credit: Id, kind: Kind, pendingId: Id): Transfer {
    Transfer(Uuid(1, n), debit, credit, 5, "USD", false, kind, pendingId)
  }

  const Reserve: Transfer := Plain(0, X, A, Pending, NoId)
  const Spend: Transfer := Plain(1, A, B, Regular, NoId)
  const Void: Transfer := Plain(2, X, A, VoidPending, Uuid(1, 0))

  /** A with nothing posted but a promised credit of 5. */
  lemma Reserved() returns (s: State)
    ensures s == ApplyRun(Opened, [Reserve]) && Reserve.id in s.transfers && s.transfers.Keys == {Reserve.id}
    ensures X in s.accounts && s.accounts[X] == Fresh(false).(debitsPending := 5)
    ensures A in s.accounts && s.accounts[A] == Fresh(true).(creditsPending := 5)
    ensures B in s.accounts && s.accounts[B] == Fresh(false)
    ensures Reserve.id in s.pending && s.pending[Reserve.id] == Reservation(X, A, 5, Open)
  {
    RunOfOne(Opened, Reserve);
    s := Effect(Opened, Reserve);
  }

  /** A has spent what it was only promised. */
  lemma Spent() returns (s: State)
    ensures s == ApplyRun(ApplyRun(Opened, [Reserve]), [Spend]) && Void.id !in s.transfers
    ensures X in s.accounts && s.accounts[X] == Fresh(false).(debitsPending := 5)
    ensures A in s.accounts && s.accounts[A] == Fresh(true).(creditsPending := 5, debitsPosted := 5)
    ensures Reserve.id in s.pending && s.pending[Reserve.id] == Reservation(X, A, 5, Open)
  {
    var s1 := Reserved();
    RunOfOne(s1, Spend);
    s := Effect(s1, Spend);
  }

  lemma Voided() returns (s: State)
    ensures s == ApplyRun(ApplyRun(ApplyRun(Opened, [Reserve]), [Spend]), [Void])
    ensures A in s.accounts && !DebitsWithin(s.accounts[A])
  {
    var s2 := Spent();
    RunOfOne(s2, Void);
    s := Effect(s2, Void);
  }

  /** A promised credit counts towards what an account may spend, and voiding the
      promise checks nothing: three proper runs over balanced books leave a
      capped account overdrawn. */
  lemma VoidCanOverdraw()
    ensures Books(Opened) && WithinFlags(Opened) && Proper([Reserve]) && Proper([Spend]) && Proper([Void])
    ensures !WithinFlags(ApplyRun(ApplyRun(ApplyRun(Opened, [Reserve]), [Spend]), [Void]))
  {
    OpenedIsBalanced();
    var s := Voided();
    assert !DebitsWithin(s.accounts[A]);
  }

  /** The same reservation twice in one run: both are judged against the books
      before it, so both apply. */
  lemma ReservedTwice() returns (s: State)
    ensures s == ApplyRun(Opened, [Reserve, Reserve]) && Accepted(Opened, [Reserve, Reserve])
    ensures X in s.accounts && s.accounts[X].debitsPending == 10 &&
      s.pending == map[Reserve.id := Reservation(X, A, 5, Open)]
  {
    var run := [Reserve, Reserve];
    assert Attempt(Opened, run, 0) == Scratch([], Opened, map[]);
    assert Attempt(Opened, run, 1) == Entry(Opened, Attempt(Opened, run, 0), Reserve);
    var s1 := Effect(Opened, Reserve);
    assert Attempt(Opened, run, 1) == Scratch([OK], s1, map[]);
    assert Attempt(Opened, run, 2) == Entry(Opened, Attempt(Opened, run, 1), Reserve);
    assert Attempt(Opened, run, 2) == Scratch([OK, OK], Effect(s1, Reserve), map[]);
    s := Effect(s1, Reserve);
  }

  /** Ids are looked up in the books before the run, so two reservations under
      one id in one run both apply while only one is kept: the pending totals
      are then more than the open reservations hold. */
  lemma RepeatedIdBreaksPending()
    ensures Books(Opened) && !DistinctIds([Reserve, Reserve]) && !Reconciled(ApplyRun(Opened, [Reserve, Reserve]))
  {
    OpenedIsBalanced();
    var s := ReservedTwice();
    HeldByOne();
    assert PendingTotal(s.accounts[X], Debit) != HeldSum(s.pending, X, Debit);
    assert [Reserve, Reserve][0].id == [Reserve, Reserve][1].id;
  }

  lemma HeldByOne()
    ensures HeldSum(map[Reserve.id := Reservation(X, A, 5, Open)], X, Debit) == 5
  {
    var held := map[Reserve.id := Reservation(X, A, 5, Open)];
    var m := map p | p in held :: HeldBy(held[p], X, Debit);
    SumRemove(m, Reserve.id);
    assert m - {Reserve.id} == map[];
  }
}
