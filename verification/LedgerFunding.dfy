/** What the rest of the world can do for an account: with the right counterparty
    and a large enough amount, one transfer gives it all the room its flag asks
    for, unless it carries both flags. */
module LedgerFunding {
  import opened Common
  import opened Ledger
  import opened LedgerRuns

  /** The two flags exclude each other. */
  ghost predicate OneFlag(s: State) {
    forall a :: a in s.accounts ==> !(s.accounts[a].debitsCapped && s.accounts[a].creditsCapped)
  }

  /** `room` more may move through the account without meeting its flag. */
  predicate Roomy(a: Account, room: nat) {
    && (a.debitsCapped ==> a.debitsPosted + a.debitsPending + room <= a.creditsPosted + a.creditsPending)
    && (a.creditsCapped ==> a.creditsPosted + a.creditsPending + room <= a.debitsPosted + a.debitsPending)
  }

  /** The same accounts, with the same flags, whatever their totals. */
  ghost predicate SameFlags(s: State, s': State) {
    && s.accounts.Keys == s'.accounts.Keys
    && forall a :: a in s.accounts ==>
         s.accounts[a].debitsCapped == s'.accounts[a].debitsCapped &&
             s.accounts[a].creditsCapped == s'.accounts[a].creditsCapped
  }

  // ---- Ids nobody has drawn ------------------------------------------------

  ghost function AboveAll(ids: set<Id>, drawer: nat): (n: nat)
    ensures forall m: nat :: Uuid(drawer, m) in ids ==> m < n
    decreases |ids|
  {
    if ids == {} then 0
    else
      var x :| x in ids;
      var n := AboveAll(ids - {x}, drawer);
      assert forall m: nat :: Uuid(drawer, m) in ids ==> Uuid(drawer, m) in ids - {x} || Uuid(drawer, m) == x;
      if x.Uuid? && x.n >= n then x.n + 1 else n
  }

  ghost function Unused(ids: set<Id>, drawer: nat): (id: Id)
    ensures id !in ids && id.Uuid? && id.drawer == drawer
  {
    Uuid(drawer, AboveAll(ids, drawer))
  }

  // ---- Funding -------------------------------------------------------------

  function Magnitude(x: int): nat { if x < 0 then -x else x }

  /** Enough to give any account room, whatever its totals. */
  function Enough(a: Account, room: nat): nat {
    Magnitude(a.debitsPosted + a.debitsPending) + Magnitude(a.creditsPosted + a.creditsPending) + room
  }

  /** A credit to an account that may not be overdrawn, a debit of one that may
      not be overpaid. */
  function Funding(id: Id, s: State, a: Id, counterparty: Id, room: nat): Transfer
    requires a in s.accounts
  {
    var amount := Enough(s.accounts[a], room);
    if s.accounts[a].debitsCapped then Transfer(id, counterparty, a, amount, "", false, Regular, NoId)
    else Transfer(id, a, counterparty, amount, "", false, Regular, NoId)
  }

  predicate Uncapped(a: Account) { !a.debitsCapped && !a.creditsCapped }

  /** What a funding transfer does to its two accounts. */
  lemma FundedAccounts(s: State, a: Id, f: Id, id: Id, room: nat)
    requires a in s.accounts && f in s.accounts && a != f && Uncapped(s.accounts[f])
    requires !(s.accounts[a].debitsCapped && s.accounts[a].creditsCapped)
    ensures var t := Funding(id, s, a, f, room);
      && DebitsWithin(Debited(s.accounts[t.debit], t)) && CreditsWithin(Credited(s.accounts[t.credit], t))
      && Roomy(Effect(s, t).accounts[a], room) && Uncapped(Effect(s, t).accounts[f])
  {
    var x := s.accounts[a];
    assert Enough(x, room) >= Magnitude(x.debitsPosted + x.debitsPending) +
        Magnitude(x.creditsPosted + x.creditsPending) + room;
  }

  lemma FundingGivesRoom(s: State, a: Id, f: Id, id: Id, room: nat)
    requires a in s.accounts && f in s.accounts && a != f && Uncapped(s.accounts[f]) && id !in s.transfers
    requires !(s.accounts[a].debitsCapped && s.accounts[a].creditsCapped)
    ensures var t := Funding(id, s, a, f, room);
      ApplyRun(s, [t]) == Effect(s, t) && Roomy(Effect(s, t).accounts[a], room)
  {
    FundedAccounts(s, a, f, id, room);
    RunOfOne(s, Funding(id, s, a, f, room));
  }

  lemma FundingKeepsFlags(s: State, a: Id, f: Id, id: Id, room: nat)
    requires a in s.accounts && f in s.accounts
    ensures var s' := Effect(s, Funding(id, s, a, f, room));
      SameFlags(s, s') && forall x :: x in s.accounts && x != a && x != f ==> s'.accounts[x] == s.accounts[x]
  {
  }

  // ---- A chain of direct postings ------------------------------------------

  function Amounts(run: seq<Transfer>, n: nat): nat
    requires n <= |run|
  {
    if n == 0 then 0 else Amounts(run, n - 1) + run[n - 1].amount
  }

  lemma {:induction false} AmountsGrow(run: seq<Transfer>, n: nat, m: nat)
    requires n <= m <= |run|
    ensures Amounts(run, n) <= Amounts(run, m)
  {
    if n < m { AmountsGrow(run, n, m - 1); }
  }

  /** Fresh postings between accounts on the books. */
  ghost predicate Fresh(s: State, run: seq<Transfer>) {
    forall i :: 0 <= i < |run| ==>
      run[i].kind == Regular && run[i].id !in s.transfers && run[i].debit in s.accounts && run[i].credit in s.accounts
  }

  ghost predicate AllRoomy(s: State, room: nat) { forall a :: a in s.accounts ==> Roomy(s.accounts[a], room) }

  lemma EntryFits(base: State, s: Scratch, t: Transfer, room: nat)
    requires t.kind == Regular && t.id !in base.transfers && t.debit in s.cur.accounts && t.credit in s.cur.accounts
    requires AllRoomy(s.cur, t.amount + room)
    ensures Judge(base, s.cur.accounts, s.tried, t) == OK && AllRoomy(Entry(base, s, t).cur, room)
  {
    assert Roomy(s.cur.accounts[t.debit], t.amount + room) && Roomy(s.cur.accounts[t.credit], t.amount + room);
  }

  /** A run midway, all of it through so far and room left for the rest. */
  ghost predicate Fitting(run: seq<Transfer>, s: Scratch) {
    && |s.codes| <= |run| && AllGood(s.codes) && Amounts(run, |s.codes|) <= Amounts(run, |run|)
    && AllRoomy(s.cur, Amounts(run, |run|) - Amounts(run, |s.codes|))
  }

  lemma EntryKeepsFitting(base: State, run: seq<Transfer>, s: Scratch)
    requires Fitting(run, s) && |s.codes| < |run| && Fresh(base, run) && s.cur.accounts.Keys == base.accounts.Keys
    ensures Fitting(run, Entry(base, s, run[|s.codes|]))
  {
    var n := |s.codes|;
    AmountsGrow(run, n + 1, |run|);
    EntryFits(base, s, run[n], Amounts(run, |run|) - Amounts(run, n + 1));
  }

  /** With room for all it moves, a run of fresh postings goes through. */
  lemma {:induction false} RunFits(s: State, run: seq<Transfer>, n: nat)
    requires n <= |run| && Fresh(s, run) && AllRoomy(s, Amounts(run, |run|))
    ensures Fitting(run, Attempt(s, run, n))
  {
    if n > 0 {
      RunFits(s, run, n - 1);
      EntryKeepsFitting(s, run, Attempt(s, run, n - 1));
    } else {
      AmountsGrow(run, 0, |run|);
    }
  }
}
