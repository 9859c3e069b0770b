/** What a caller learns from submitting one linked run: an accepted run is
    recorded whole and for good, a repeated one changes nothing, and a post is
    refused only when a reservation it names is no longer open. */
module LedgerRuns {
  import opened Common
  import opened Ledger
  import opened LedgerInvariant

  /** `t` is on record, exactly as submitted. */
  predicate OnRecord(s: State, t: Transfer) {
    t.id in s.transfers && s.transfers[t.id] == Store(t)
  }

  predicate AllOnRecord(s: State, run: seq<Transfer>) {
    forall i :: 0 <= i < |run| ==> OnRecord(s, run[i])
  }

  /** Whatever was on record stays on record, unchanged. */
  lemma RunExtends(s: State, run: seq<Transfer>)
    requires Sound(s)
    ensures Sound(ApplyRun(s, run)) && Extends(s, ApplyRun(s, run))
  {
    AttemptKeepsSound(s, run, |run|);
  }

  /** What a run midway has put on record. */
  ghost predicate RecordsSoFar(base: State, run: seq<Transfer>, s: Scratch) {
    && |s.codes| <= |run|
    && (forall i :: 0 <= i < |s.codes| && Good(s.codes[i]) ==> OnRecord(s.cur, run[i]))
    && (forall id :: id in s.cur.transfers && id !in base.transfers ==> OnRecordOf(s.cur, run, |s.codes|, id))
  }

  ghost predicate OnRecordOf(s: State, run: seq<Transfer>, n: nat, id: Id)
    requires n <= |run|
  {
    exists i :: 0 <= i < n && run[i].id == id && OnRecord(s, run[i])
  }

  lemma EntryRecords(base: State, run: seq<Transfer>, s: Scratch)
    requires DistinctIds(run) && RecordsSoFar(base, run, s) && |s.codes| < |run|
    requires Sound(base) && Midway(base, s)
    ensures RecordsSoFar(base, run, Entry(base, s, run[|s.codes|]))
  {
    var n := |s.codes|;
    var t := run[n];
    var s' := Entry(base, s, t);
    var c := Judge(base, s.cur.accounts, s.tried, t);
    forall i | 0 <= i <= n && Good(s'.codes[i]) ensures OnRecord(s'.cur, run[i]) {
      if i < n { assert s'.codes[i] == s.codes[i]; assert run[i].id != t.id; }
    }
    forall id | id in s'.cur.transfers && id !in base.transfers ensures OnRecordOf(s'.cur, run, n + 1, id) {
      if id == t.id && c == OK {
        assert OnRecord(s'.cur, run[n]);
      } else {
        assert OnRecordOf(s.cur, run, n, id);
        var i :| 0 <= i < n && run[i].id == id && OnRecord(s.cur, run[i]);
        assert OnRecord(s'.cur, run[i]);
      }
    }
  }

  lemma {:induction false} AttemptRecordsSoFar(base: State, run: seq<Transfer>, n: nat)
    requires n <= |run| && DistinctIds(run) && Sound(base)
    ensures RecordsSoFar(base, run, Attempt(base, run, n))
  {
    if n > 0 {
      AttemptRecordsSoFar(base, run, n - 1);
      AttemptKeepsSound(base, run, n - 1);
      EntryRecords(base, run, Attempt(base, run, n - 1));
    }
  }

  /** An accepted run is on record whole; any run records nothing but its own. */
  lemma RunRecords(s: State, run: seq<Transfer>)
    requires Sound(s) && DistinctIds(run)
    ensures Accepted(s, run) ==> AllOnRecord(ApplyRun(s, run), run)
    ensures forall id :: id in ApplyRun(s, run).transfers && id !in s.transfers ==>
      OnRecordOf(ApplyRun(s, run), run, |run|, id)
  {
    AttemptRecordsSoFar(s, run, |run|);
  }

  lemma {:induction false} AttemptRepeats(s: State, run: seq<Transfer>, n: nat)
    requires n <= |run| && AllOnRecord(s, run)
    ensures Attempt(s, run, n).cur == s && AllGood(Attempt(s, run, n).codes)
  {
    if n > 0 {
      AttemptRepeats(s, run, n - 1);
      assert OnRecord(s, run[n - 1]);
    }
  }

  /** Submitting a run again, at any later time, is accepted and changes nothing. */
  lemma ResubmittingConverges(s: State, run: seq<Transfer>)
    requires AllOnRecord(s, run)
    ensures Accepted(s, run) && ApplyRun(s, run) == s
  {
    AttemptRepeats(s, run, |run|);
  }

  /** A run of one entry is accepted on that entry's own verdict. */
  lemma RunOfOne(s: State, t: Transfer)
    ensures Accepted(s, [t]) <==> Good(Judge(s, s.accounts, map[], t))
    ensures ApplyRun(s, [t]) == if Judge(s, s.accounts, map[], t) == OK then Effect(s, t) else s
  {
    var a := Attempt(s, [t], 1);
    assert a == Entry(s, Attempt(s, [t], 0), t);
    assert a.codes[0] == Judge(s, s.accounts, map[], t);
  }

  // ---- A post is refused only when a reservation is not open ---------------

  /** A post that can go through: done already, or its reservation still open. */
  predicate Postable(s: State, t: Transfer) {
    && t.kind == PostPending
    && (OnRecord(s, t) ||
        (t.id !in s.transfers && t.pendingId in s.pending && s.pending[t.pendingId].status == Open
         && SameTerms(s.pending[t.pendingId], Store(t))))
  }

  predicate DistinctReservations(run: seq<Transfer>) {
    forall i, j :: 0 <= i < j < |run| ==> run[i].pendingId != run[j].pendingId
  }

  /** A run of posts midway: nothing refused, no account pushed past its flag. */
  ghost predicate PostsSoFar(base: State, run: seq<Transfer>, s: Scratch) {
    && |s.codes| <= |run| && AllGood(s.codes) && WithinFlags(s.cur) && s.cur.accounts.Keys == base.accounts.Keys
    && forall p :: p in s.tried ==> exists i :: 0 <= i < |s.codes| && run[i].pendingId == p
  }

  lemma EntryPosts(base: State, run: seq<Transfer>, s: Scratch)
    requires PostsSoFar(base, run, s) && |s.codes| < |run| && DistinctReservations(run)
    requires NamesAccounts(base) && Postable(base, run[|s.codes|])
    ensures PostsSoFar(base, run, Entry(base, s, run[|s.codes|]))
  {
    var t := run[|s.codes|];
    if t.id !in base.transfers {
      assert t.pendingId !in s.tried;
      assert DebitsWithin(s.cur.accounts[t.debit]) && CreditsWithin(s.cur.accounts[t.credit]);
      EffectKeepsFlags(s.cur, t);
    }
    var s' := Entry(base, s, t);
    assert Good(s'.codes[|s.codes|]) && forall i :: 0 <= i < |s.codes| ==> s'.codes[i] == s.codes[i];
    forall p | p in s'.tried ensures exists i :: 0 <= i < |s'.codes| && run[i].pendingId == p {
      if p !in s.tried { assert run[|s.codes|].pendingId == p; }
    }
  }

  lemma {:induction false} AttemptPosts(base: State, run: seq<Transfer>, n: nat)
    requires n <= |run| && DistinctReservations(run) && NamesAccounts(base) && WithinFlags(base)
    requires forall i :: 0 <= i < |run| ==> Postable(base, run[i])
    ensures PostsSoFar(base, run, Attempt(base, run, n))
  {
    if n > 0 {
      AttemptPosts(base, run, n - 1);
      EntryPosts(base, run, Attempt(base, run, n - 1));
    }
  }

  /** While no account is beyond its flag, a run of posts is refused only if
      some reservation it names is no longer open and was not posted by it. */
  lemma RefusedPostLostItsReservation(s: State, run: seq<Transfer>)
    requires Sound(s) && WithinFlags(s) && DistinctReservations(run) && !Accepted(s, run)
    ensures exists i :: 0 <= i < |run| && !Postable(s, run[i])
  {
    if forall i :: 0 <= i < |run| ==> Postable(s, run[i]) {
      AttemptPosts(s, run, |run|);
    }
  }
}
