/** What the ledger's answers tell a caller: whether a run was taken, why it was
    not, and which entries of a request are on record afterwards
    (go/internal/ledger/fake_client.go). */
module LedgerAnswers {
  import opened Ledger
  import opened LedgerInvariant
  import opened LedgerRuns

  /** The verdict on entry `i`, the ones before it having been tried. */
  function Verdict(s: State, run: seq<Transfer>, i: nat): Code
    requires i < |run|
  {
    Judge(s, Attempt(s, run, i).cur.accounts, Attempt(s, run, i).tried, run[i])
  }

  /** Codes never change once given. */
  lemma {:induction false} CodesStable(s: State, run: seq<Transfer>, n: nat, m: nat)
    requires n <= m <= |run|
    ensures Attempt(s, run, n).codes == Attempt(s, run, m).codes[..n]
  {
    if n < m { CodesStable(s, run, n, m - 1); }
  }

  lemma CodeIsVerdict(s: State, run: seq<Transfer>, i: nat)
    requires i < |run|
    ensures Attempt(s, run, |run|).codes[i] == Verdict(s, run, i)
  {
    CodesStable(s, run, i + 1, |run|);
    assert Attempt(s, run, i + 1).codes[i] == Attempt(s, run, |run|).codes[..i + 1][i];
  }

  // ---- One run -------------------------------------------------------------

  /** A refused run answers OK nowhere. Some entry is told the verdict that
      refused it, which is neither that it exists nor that its chain failed. */
  ghost predicate Explains(s: State, run: seq<Transfer>, codes: seq<Code>) {
    && |codes| == |run| && (forall i :: 0 <= i < |run| ==> codes[i] != OK)
    && exists i :: 0 <= i < |run| && Refuses(codes[i]) && codes[i] == Verdict(s, run, i)
  }

  predicate Refuses(c: Code) { c != OK && c != Exists && c != LinkedEventFailed }

  lemma RunCodesAt(s: State, run: seq<Transfer>, i: nat)
    requires i < |run|
    ensures |RunCodes(s, run)| == |run|
    ensures Accepted(s, run) ==> Good(Verdict(s, run, i)) && RunCodes(s, run)[i] == Verdict(s, run, i)
    ensures !Accepted(s, run) ==>
      RunCodes(s, run)[i] == if Verdict(s, run, i) == OK then LinkedEventFailed else Verdict(s, run, i)
  {
    CodeIsVerdict(s, run, i);
  }

  /** A run is taken exactly when every entry is told OK or Exists, and a refused
      one says why. */
  lemma CodesTellAcceptance(s: State, run: seq<Transfer>)
    ensures |RunCodes(s, run)| == |run|
    ensures Accepted(s, run) <==> AllGood(RunCodes(s, run))
    ensures !Accepted(s, run) ==> Explains(s, run, RunCodes(s, run))
  {
    forall i | 0 <= i < |run|
      ensures Accepted(s, run) ==> RunCodes(s, run)[i] == Verdict(s, run, i)
      ensures !Accepted(s, run) ==> RunCodes(s, run)[i] != OK
    {
      RunCodesAt(s, run, i);
    }
    if !Accepted(s, run) {
      var i :| 0 <= i < |run| && !Good(Attempt(s, run, |run|).codes[i]);
      RunCodesAt(s, run, i);
      CodeIsVerdict(s, run, i);
    }
  }

  /** An entry is told Exists exactly when it was on record as submitted, and OK
      or Exists exactly when it is on record afterwards. */
  lemma RunAnswersAreTheRecord(s: State, run: seq<Transfer>, i: nat)
    requires Sound(s) && DistinctIds(run) && i < |run|
    ensures |RunCodes(s, run)| == |run|
    ensures RunCodes(s, run)[i] == Exists <==> OnRecord(s, run[i])
    ensures Good(RunCodes(s, run)[i]) <==> OnRecord(ApplyRun(s, run), run[i])
  {
    RunCodesAt(s, run, i);
    RunRecords(s, run);
  }

  // ---- One request ---------------------------------------------------------

  lemma ApplyingLeaves(s: State, run: seq<Transfer>, t: Transfer)
    requires Sound(s) && DistinctIds(run) && forall i :: 0 <= i < |run| ==> run[i].id != t.id
    ensures Sound(ApplyRun(s, run)) && (OnRecord(ApplyRun(s, run), t) <==> OnRecord(s, t))
  {
    RunExtends(s, run);
    RunRecords(s, run);
    assert !OnRecordOf(ApplyRun(s, run), run, |run|, t.id);
  }

  /** Runs that do not name an id leave its record as it was. */
  lemma {:induction false} RestLeaves(s: State, batch: seq<Transfer>, start: nat, t: Transfer)
    requires start <= |batch| && Closed(batch) && Sound(s) && DistinctIds(batch)
    requires forall i :: start <= i < |batch| ==> batch[i].id != t.id
    ensures OnRecord(ApplyRuns(s, batch, start), t) <==> OnRecord(s, t)
    decreases |batch| - start
  {
    if start < |batch| {
      var end := RunEnd(batch, start);
      ApplyingLeaves(s, batch[start..end], t);
      RestLeaves(ApplyRun(s, batch[start..end]), batch, end, t);
    }
  }

  /** What entry `i` of a request is told, the books before and after it. */
  ghost predicate Told(s: State, s': State, t: Transfer, c: Code) {
    (c == Exists <==> OnRecord(s, t)) && (Good(c) <==> OnRecord(s', t))
  }

  lemma RunLength(s: State, run: seq<Transfer>)
    ensures |RunCodes(s, run)| == |run|
  {
    CodesTellAcceptance(s, run);
  }

  lemma {:induction false} RestLength(s: State, batch: seq<Transfer>, start: nat)
    requires start <= |batch| && Closed(batch)
    ensures |BatchCodes(s, batch, start)| == |batch| - start
    decreases |batch| - start
  {
    if start < |batch| {
      var end := RunEnd(batch, start);
      RunLength(s, batch[start..end]);
      RestLength(ApplyRun(s, batch[start..end]), batch, end);
    }
  }

  /** A request answers its first run, then the rest over what that left. */
  lemma CodesSplit(s: State, batch: seq<Transfer>, start: nat, end: nat, run: seq<Transfer>)
    requires start < |batch| && Closed(batch) && end == RunEnd(batch, start) && run == batch[start..end]
    ensures |RunCodes(s, run)| == end - start && |BatchCodes(ApplyRun(s, run), batch, end)| == |batch| - end
    ensures BatchCodes(s, batch, start) == RunCodes(s, run) + BatchCodes(ApplyRun(s, run), batch, end)
    ensures ApplyRuns(s, batch, start) == ApplyRuns(ApplyRun(s, run), batch, end)
  {
    RunLength(s, run);
    RestLength(ApplyRun(s, run), batch, end);
  }

  lemma SliceIsDistinct(batch: seq<Transfer>, start: nat, end: nat)
    requires start <= end <= |batch| && DistinctIds(batch)
    ensures DistinctIds(batch[start..end])
  {
  }

  /** An entry of one run, whose record nothing later changes. */
  lemma HereTold(s: State, run: seq<Transfer>, k: nat, last: State)
    requires Sound(s) && DistinctIds(run) && k < |run|
    requires OnRecord(last, run[k]) <==> OnRecord(ApplyRun(s, run), run[k])
    ensures |RunCodes(s, run)| == |run| && Told(s, last, run[k], RunCodes(s, run)[k])
  {
    RunAnswersAreTheRecord(s, run, k);
  }

  lemma FirstRunTold(s: State, batch: seq<Transfer>, start: nat, end: nat, run: seq<Transfer>, k: nat)
    requires start < |batch| && Closed(batch) && end == RunEnd(batch, start) && run == batch[start..end] && k < |run|
    requires Sound(s) && DistinctIds(batch)
    ensures |BatchCodes(s, batch, start)| == |batch| - start
    ensures Told(s, ApplyRuns(s, batch, start), run[k], BatchCodes(s, batch, start)[k])
  {
    CodesSplit(s, batch, start, end, run);
    SliceIsDistinct(batch, start, end);
    RunExtends(s, run);
    RestLeaves(ApplyRun(s, run), batch, end, run[k]);
    HereTold(s, run, k, ApplyRuns(s, batch, start));
  }

  /** The first run does not name it, and the rest tell it. */
  lemma LaterTold(s: State, run: seq<Transfer>, last: State, t: Transfer, c: Code)
    requires Sound(s) && DistinctIds(run) && (forall k :: 0 <= k < |run| ==> run[k].id != t.id)
    requires Told(ApplyRun(s, run), last, t, c)
    ensures Told(s, last, t, c)
  {
    ApplyingLeaves(s, run, t);
  }

  /** From `start` on, entry `i` is told what the books say before and after. */
  ghost predicate RestTells(s: State, batch: seq<Transfer>, start: nat, i: nat)
    requires start <= i < |batch| && Closed(batch)
  {
    && |BatchCodes(s, batch, start)| == |batch| - start
    && Told(s, ApplyRuns(s, batch, start), batch[i], BatchCodes(s, batch, start)[i - start])
  }

  lemma RestToldStep(s: State, batch: seq<Transfer>, start: nat, end: nat, run: seq<Transfer>, i: nat)
    requires start < |batch| && Closed(batch) && end == RunEnd(batch, start) && run == batch[start..end]
    requires Sound(s) && DistinctIds(batch) && end <= i < |batch| && RestTells(ApplyRun(s, run), batch, end, i)
    ensures RestTells(s, batch, start, i)
  {
    CodesSplit(s, batch, start, end, run);
    SliceIsDistinct(batch, start, end);
    LaterTold(s, run, ApplyRuns(s, batch, start), batch[i], BatchCodes(s, batch, start)[i - start]);
  }

  lemma SoundAfter(s: State, run: seq<Transfer>)
    requires Sound(s)
    ensures Sound(ApplyRun(s, run))
  {
    RunExtends(s, run);
  }

  lemma FirstRunTells(s: State, batch: seq<Transfer>, start: nat, end: nat, run: seq<Transfer>, i: nat)
    requires start < |batch| && Closed(batch) && end == RunEnd(batch, start) && run == batch[start..end]
    requires Sound(s) && DistinctIds(batch) && start <= i < end
    ensures RestTells(s, batch, start, i)
  {
    assert run[i - start] == batch[i];
    FirstRunTold(s, batch, start, end, run, i - start);
  }

  /** Run after run, over the books each left. */
  lemma {:induction false} RestTold(s: State, batch: seq<Transfer>, start: nat, i: nat)
    requires start <= i < |batch| && Closed(batch) && Sound(s) && DistinctIds(batch)
    ensures RestTells(s, batch, start, i)
    decreases |batch| - start, 1
  {
    var end := RunEnd(batch, start);
    var run := batch[start..end];
    if i < end { FirstRunTells(s, batch, start, end, run, i); } else { LaterRunTells(s, batch, start, end, run, i); }
  }

  lemma {:induction false} LaterRunTells(s: State, batch: seq<Transfer>, start: nat, end: nat, run: seq<Transfer>,
      i: nat)
    requires start < |batch| && Closed(batch) && end == RunEnd(batch, start) && run == batch[start..end]
    requires Sound(s) && DistinctIds(batch) && end <= i < |batch|
    ensures RestTells(s, batch, start, i)
    decreases |batch| - start, 0
  {
    SoundAfter(s, run);
    RestTold(ApplyRun(s, run), batch, end, i);
    RestToldStep(s, batch, start, end, run, i);
  }

  /** For a request of distinct ids over sound books: an entry is told Exists
      exactly when it was on record as submitted before the request, and OK or
      Exists exactly when it is on record after it. */
  lemma AnswersAreTheRecord(s: State, batch: seq<Transfer>, i: nat)
    requires Sound(s) && DistinctIds(batch) && BatchRefusal(batch).None? && i < |batch|
    ensures |BatchCodes(s, batch, 0)| == |batch|
    ensures Told(s, Submit(s, batch), batch[i], BatchCodes(s, batch, 0)[i])
  {
    RestTold(s, batch, 0, i);
  }
}
