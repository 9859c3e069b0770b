/** Cutting a batch of legs into linked chains, and why one chain is one
    all-or-nothing ledger request (go/internal/transfer/saga.go). */
module TransferChains {
  import L = Ledger
  import opened TransferStream
  import opened TransferProtocol

  /** The same entries, each linked to the next. */
  function Linked(chain: seq<L.Transfer>): (r: seq<L.Transfer>)
    ensures |r| == |chain| && forall i :: 0 <= i < |r| ==> r[i] == chain[i].(linked := i < |chain| - 1)
  {
    seq(|chain|, i requires 0 <= i < |chain| => chain[i].(linked := i < |chain| - 1))
  }

  function End(batch: seq<L.Transfer>, start: nat): nat
    requires start <= |batch|
  {
    if start + L.BatchMax <= |batch| then start + L.BatchMax else |batch|
  }

  /** The k-th entry, in its place in its own chain and linked unless it ends it. */
  predicate Lands(batch: seq<L.Transfer>, out: seq<seq<L.Transfer>>, k: nat)
    requires k < |batch|
  {
    var c, i := k / L.BatchMax, k % L.BatchMax;
    c < |out| && i < |out[c]| <= L.BatchMax && out[c][i] == batch[k].(linked := i < |out[c]| - 1)
  }

  lemma CutsLand(batch: seq<L.Transfer>, out: seq<seq<L.Transfer>>, k: nat)
    requires |batch| <= |out| * L.BatchMax && k < |batch|
    requires forall c :: 0 <= c < |out| ==>
      c * L.BatchMax < |batch| && out[c] == Linked(batch[c * L.BatchMax..End(batch, c * L.BatchMax)])
    ensures Lands(batch, out, k)
  {
    var c, i := k / L.BatchMax, k % L.BatchMax;
    assert k == c * L.BatchMax + i;
    assert out[c] == Linked(batch[c * L.BatchMax..End(batch, c * L.BatchMax)]);
  }

  /** Cuts `batch` into consecutive linked chains of at most one request each:
      every entry is in exactly one chain, in order. */
  method Chains(batch: seq<L.Transfer>) returns (out: seq<seq<L.Transfer>>)
    ensures forall c :: 0 <= c < |out| ==>
      c * L.BatchMax < |batch| && out[c] == Linked(batch[c * L.BatchMax..End(batch, c * L.BatchMax)])
    ensures |batch| <= |out| * L.BatchMax < |batch| + L.BatchMax
    ensures forall k :: 0 <= k < |batch| ==> Lands(batch, out, k)
  {
    out := [];
    var start := 0;
    while start < |batch|
      invariant start == |out| * L.BatchMax < |batch| + L.BatchMax
      invariant forall c :: 0 <= c < |out| ==>
        c * L.BatchMax < |batch| && out[c] == Linked(batch[c * L.BatchMax..End(batch, c * L.BatchMax)])
    {
      var chain := batch[start..End(batch, start)];
      for i := 0 to |chain|
        invariant |chain| == End(batch, start) - start
        invariant forall j :: 0 <= j < i ==> chain[j] == batch[start + j].(linked := j < |chain| - 1)
        invariant forall j :: i <= j < |chain| ==> chain[j] == batch[start + j]
      {
        chain := chain[i := chain[i].(linked := i < |chain| - 1)];
      }
      assert chain == Linked(batch[start..End(batch, start)]);
      out := out + [chain];
      start := start + L.BatchMax;
    }
    forall k | 0 <= k < |batch| ensures Lands(batch, out, k) { CutsLand(batch, out, k); }
  }

  /** One chain of a Transfer's legs is one ledger request, and that request is
      one linked run: it applies whole or not at all. */
  lemma ChainIsOneRun(s: L.State, batch: Batch, legs: seq<Leg>, done: nat)
    requires done < |legs|
    ensures var chain := Chain(batch, legs, done);
      && L.BatchRefusal(chain).None? && L.RunEnd(chain, 0) == |chain|
      && L.Submit(s, chain) == L.ApplyRun(s, chain) && L.BatchCodes(s, chain, 0) == L.RunCodes(s, chain)
  {
    var chain := Chain(batch, legs, done);
    assert chain[0..|chain|] == chain;
    assert L.ApplyRuns(L.ApplyRun(s, chain), chain, |chain|) == L.ApplyRun(s, chain);
    assert L.BatchCodes(L.ApplyRun(s, chain), chain, |chain|) == [];
    var codes := L.RunCodes(s, chain);
    assert codes + [] == codes;
  }

  /** How far a batch gets from leg `done` on with nobody interfering: the legs
      submitted, and the books then. */
  datatype Passage = Passage(done: nat, ledger: L.State)

  function Through(s: L.State, batch: Batch, legs: seq<Leg>, done: nat): (p: Passage)
    requires done <= |legs|
    ensures done <= p.done <= |legs|
    decreases |legs| - done
  {
    if done == |legs| || !L.Accepted(s, Chain(batch, legs, done)) then Passage(done, s)
    else Through(L.ApplyRun(s, Chain(batch, legs, done)), batch, legs, ChainEnd(legs, done))
  }
}
