/** What a selection means on the ledger it was read from: posting it leaves no
    account overdrawn (go/internal/transfer/manifest.go, ledger/client.go). */
module ManifestLedger {
  import opened Common
  import opened Manifest
  import L = Ledger
  import LI = LedgerInvariant

  /** What the ledger answers when asked for these Tokens' balances. */
  predicate Reads(s: L.State, tokens: seq<Id>, balances: Balances) {
    && (forall t :: t in tokens ==> (t in balances <==> t in s.accounts))
    && forall t :: t in balances && t in s.accounts ==>
         && balances[t].creditsPosted == s.accounts[t].creditsPosted
         && balances[t].debitsPosted == s.accounts[t].debitsPosted
  }

  /** The run that posts these takes, into accounts that are not their source. */
  predicate Posts(run: seq<L.Transfer>, takes: seq<Take>) {
    && |run| == |takes|
    && forall i :: 0 <= i < |run| ==>
         && run[i].debit == takes[i].token && run[i].amount == takes[i].amount
         && run[i].credit != run[i].debit && LI.Moves(L.Store(run[i]))
  }

  /** What the first `n` takes take from `t`. */
  function TakenFrom(takes: seq<Take>, n: nat, t: Id): nat
    requires n <= |takes|
  {
    if n == 0 then 0
    else TakenFrom(takes, n - 1, t) + if takes[n - 1].token == t then takes[n - 1].amount else 0
  }

  /** One post, applied or not, debits its own source at most, and lowers no
      posted total. */
  lemma PostsOne(base: L.State, s: L.Scratch, e: L.Transfer, t: Id)
    requires t in s.cur.accounts && e.debit != e.credit && LI.Moves(L.Store(e))
    ensures var s' := L.Entry(base, s, e);
      && t in s'.cur.accounts && s'.cur.accounts[t].creditsPosted >= s.cur.accounts[t].creditsPosted
      && s'.cur.accounts[t].debitsPosted <= s.cur.accounts[t].debitsPosted + if e.debit == t then e.amount else 0
  {
    if L.Judge(base, s.cur.accounts, s.tried, e) == L.OK {
      LI.EffectOnAccount(s.cur, e, t, LI.Debit);
      LI.EffectOnAccount(s.cur, e, t, LI.Credit);
    }
  }

  /** A run of posts debits an account by no more than the takes say, and lowers
      no posted total. */
  lemma {:induction false} PostsUpTo(s: L.State, run: seq<L.Transfer>, takes: seq<Take>, n: nat, t: Id)
    requires n <= |run| && Posts(run, takes) && t in s.accounts
    ensures var a := L.Attempt(s, run, n).cur.accounts[t];
      && a.debitsPosted <= s.accounts[t].debitsPosted + TakenFrom(takes, n, t)
      && a.creditsPosted >= s.accounts[t].creditsPosted
  {
    if n > 0 {
      PostsUpTo(s, run, takes, n - 1, t);
      PostsOne(s, L.Attempt(s, run, n - 1), run[n - 1], t);
    }
  }

  lemma {:induction false} TakenOnce(takes: seq<Take>, n: nat, k: nat)
    requires k < n <= |takes| && forall i, j :: 0 <= i < j < |takes| ==> takes[i].token != takes[j].token
    ensures TakenFrom(takes, n, takes[k].token) == takes[k].amount
  {
    if k < n - 1 { TakenOnce(takes, n - 1, k); } else { TakenNever(takes, k, takes[k].token); }
  }

  lemma {:induction false} TakenNever(takes: seq<Take>, n: nat, t: Id)
    requires n <= |takes| && forall i :: 0 <= i < n ==> takes[i].token != t
    ensures TakenFrom(takes, n, t) == 0
  {
    if n > 0 { TakenNever(takes, n - 1, t); }
  }

  predicate Solvent(s: L.State, t: Id) {
    t in s.accounts ==> s.accounts[t].debitsPosted <= s.accounts[t].creditsPosted
  }

  /** No take is more than its account holds. */
  lemma TakenIsHeld(s: L.State, tokens: seq<Id>, balances: Balances, takes: seq<Take>, at: seq<nat>, t: Id)
    requires Reads(s, tokens, balances) && OldestFirst(tokens, balances, takes, at) && t in s.accounts && Solvent(s, t)
    requires forall i, j :: 0 <= i < j < |tokens| ==> tokens[i] != tokens[j]
    ensures s.accounts[t].debitsPosted + TakenFrom(takes, |takes|, t) <= s.accounts[t].creditsPosted
  {
    if k :| 0 <= k < |takes| && takes[k].token == t {
      forall i, j | 0 <= i < j < |takes| ensures takes[i].token != takes[j].token { assert at[i] < at[j]; }
      TakenOnce(takes, |takes|, k);
      assert Covers(balances, takes[k]) && tokens[at[k]] in tokens;
    } else {
      TakenNever(takes, |takes|, t);
    }
  }

  /** Posting a selection over the books it was read from, whether the ledger
      takes it or refuses it, overdraws no account that was not overdrawn. */
  lemma SelectionOverdrawsNobody(s: L.State, tokens: seq<Id>, balances: Balances, amount: nat, takes: seq<Take>,
                                 run: seq<L.Transfer>, t: Id)
    requires Reads(s, tokens, balances) && IsSelection(tokens, balances, amount, takes) && Posts(run, takes)
    requires forall i, j :: 0 <= i < j < |tokens| ==> tokens[i] != tokens[j]
    requires Solvent(s, t)
    ensures Solvent(L.ApplyRun(s, run), t)
  {
    if t in s.accounts {
      var at :| OldestFirst(tokens, balances, takes, at);
      TakenIsHeld(s, tokens, balances, takes, at, t);
      PostsUpTo(s, run, takes, |run|, t);
    }
  }
}
