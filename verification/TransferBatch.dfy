/** Submitting a step's batch to the ledger client and reading its answers
    (go/internal/transfer/saga.go, ledger/fake_client.go). */
module TransferBatch {
  import opened Common
  import L = Ledger
  import LA = LedgerAnswers
  import LC = LedgerClient
  import opened TransferStream
  import opened TransferProtocol
  import opened TransferChains

  /** ledgerRefusal: the chains applied before it, and either the leg that was
      refused with what it was told, or the whole request's error. */
  datatype Refusal =
    | OfLeg(chainsApplied: nat, leg: nat, code: L.Code)
    | OfRequest(chainsApplied: nat, error: L.BatchError)

  /** The first answer that is neither OK nor Exists. */
  predicate FirstBad(codes: seq<L.Code>, i: nat) {
    i < |codes| && codes[i] != L.OK && codes[i] != L.Exists &&
      forall j :: 0 <= j < i ==> codes[j] == L.OK || codes[j] == L.Exists
  }

  /** What a refusal says of the answers to chain `c`. */
  ghost predicate Reports(codes: seq<L.Code>, c: nat, refusal: Option<Refusal>) {
    match refusal
    case None => L.AllGood(codes)
    case Some(OfLeg(applied, leg, code)) =>
      applied == c && exists i: nat :: FirstBad(codes, i) && leg == c * L.BatchMax + i && code == codes[i]
    case Some(OfRequest(_, _)) => false
  }

  method ReadAnswers(codes: seq<L.Code>, c: nat) returns (refusal: Option<Refusal>)
    ensures Reports(codes, c, refusal)
  {
    for i := 0 to |codes|
      invariant forall j :: 0 <= j < i ==> codes[j] == L.OK || codes[j] == L.Exists
    {
      if codes[i] != L.OK && codes[i] != L.Exists {
        assert FirstBad(codes, i);
        return Some(OfLeg(c, c * L.BatchMax + i, codes[i]));
      }
    }
    refusal := None;
  }

  /** submitChain: one request, and what its answers report. */
  method SubmitChain(client: LC.FakeClient, chain: seq<L.Transfer>, c: nat) returns (refusal: Option<Refusal>)
    modifies client
    ensures client.Books() == L.Submit(old(client.Books()), chain)
    ensures match L.BatchRefusal(chain)
            case Some(e) => refusal == Some(OfRequest(c, e))
            case None => Reports(L.BatchCodes(old(client.Books()), chain, 0), c, refusal)
  {
    var r := client.CreateTransfers(chain);
    if r.Refused? {
      refusal := Some(OfRequest(c, r.error));
    } else {
      refusal := ReadAnswers(r.codes, c);
    }
  }

  /** The answers to one chain tell whether it was accepted, which is what decides
      where a driver goes next. */
  lemma AnswersDecide(s: L.State, batch: Batch, legs: seq<Leg>, done: nat)
    requires done < |legs|
    ensures var chain := Chain(batch, legs, done);
      && L.BatchRefusal(chain).None? && L.Submit(s, chain) == L.ApplyRun(s, chain)
      && (L.AllGood(L.BatchCodes(s, chain, 0)) <==> L.Accepted(s, chain))
  {
    ChainIsOneRun(s, batch, legs, done);
    LA.CodesTellAcceptance(s, Chain(batch, legs, done));
  }

  /** A driver's next chain, read off the answers as submitChain reads them. */
  lemma SubmitNextReadsAnswers(w: World, d: nat, claim: Claim, batch: Batch, done: nat)
    requires done < |claim.legs|
    ensures var chain := Chain(batch, claim.legs, done);
      var taken := L.AllGood(L.BatchCodes(w.ledger, chain, 0));
      && SubmitNext(w, d, claim, batch, done).ledger == L.Submit(w.ledger, chain)
      && PcOf(SubmitNext(w, d, claim, batch, done), d) ==
           if taken then Submitting(claim, batch, ChainEnd(claim.legs, done)) else OnRefusal(claim, batch, done)
  {
    AnswersDecide(w.ledger, batch, claim.legs, done);
  }

  function Entries(batch: Batch, legs: seq<Leg>): (out: seq<L.Transfer>)
    ensures |out| == |legs| && forall i :: 0 <= i < |legs| ==> out[i] == Entry(batch, legs[i], false)
  {
    seq(|legs|, i requires 0 <= i < |legs| => Entry(batch, legs[i], false))
  }

  lemma CutIsChain(batch: Batch, legs: seq<Leg>, start: nat)
    requires start < |legs|
    ensures Linked(Entries(batch, legs)[start..End(Entries(batch, legs), start)]) == Chain(batch, legs, start)
  {
  }

  /** One chain of a batch: taken whole and reported as such, or refused whole. */
  method SubmitNth(client: LC.FakeClient, batch: Batch, legs: seq<Leg>, chain: seq<L.Transfer>, c: nat)
    returns (refusal: Option<Refusal>)
    requires c * L.BatchMax < |legs| && chain == Chain(batch, legs, c * L.BatchMax)
    modifies client
    ensures client.Books() == L.ApplyRun(old(client.Books()), chain)
    ensures refusal.None? <==> L.Accepted(old(client.Books()), chain)
    ensures refusal.Some? ==> refusal.value.chainsApplied == c
  {
    AnswersDecide(client.Books(), batch, legs, c * L.BatchMax);
    refusal := SubmitChain(client, chain, c);
  }

  /** How many legs the first `c` chains hold. */
  function Reached(c: nat, legs: seq<Leg>): (n: nat)
    ensures n <= |legs|
  {
    if c * L.BatchMax <= |legs| then c * L.BatchMax else |legs|
  }

  /** What is left to go through once `c` chains have been submitted. */
  ghost predicate OnTheWay(p: Passage, s: L.State, batch: Batch, legs: seq<Leg>, c: nat) {
    p == Through(s, batch, legs, Reached(c, legs))
  }

  lemma ChainOnTheWay(p: Passage, s: L.State, batch: Batch, legs: seq<Leg>, c: nat)
    requires OnTheWay(p, s, batch, legs, c) && c * L.BatchMax < |legs|
    ensures var chain := Chain(batch, legs, c * L.BatchMax);
      if L.Accepted(s, chain) then OnTheWay(p, L.ApplyRun(s, chain), batch, legs, c + 1)
      else p == Passage(c * L.BatchMax, s) && L.ApplyRun(s, chain) == s
  {
  }

  /** submitBatch: chain after chain, stopping at the first refused. */
  method SubmitBatch(client: LC.FakeClient, batch: Batch, legs: seq<Leg>) returns (refusal: Option<Refusal>)
    modifies client
    ensures var p := Through(old(client.Books()), batch, legs, 0);
      && client.Books() == p.ledger && (refusal.None? <==> p.done == |legs|)
      && (refusal.Some? ==> refusal.value.chainsApplied * L.BatchMax == p.done)
  {
    ghost var p := Through(client.Books(), batch, legs, 0);
    var chains := Chains(Entries(batch, legs));
    var c := 0;
    while c < |chains|
      invariant c <= |chains| && OnTheWay(p, client.Books(), batch, legs, c)
    {
      CutIsChain(batch, legs, c * L.BatchMax);
      ChainOnTheWay(p, client.Books(), batch, legs, c);
      refusal := SubmitNth(client, batch, legs, chains[c], c);
      if refusal.Some? { return; }
      c := c + 1;
    }
    refusal := None;
  }
}
