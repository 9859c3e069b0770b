/** Which Tokens a Transfer's legs draw on, and how a Reversal's legs undo them
    (go/internal/transfer/manifest.go). */
module Manifest {
  import opened Common
  import T = TransferStream

  // ---- FIFO selection ------------------------------------------------------

  const MaxInt64: nat := 0x7FFF_FFFF_FFFF_FFFF

  datatype Balance = Balance(creditsPosted: nat, debitsPosted: nat)

  type Balances = map<Id, Balance>

  /** PostedNet refuses totals that do not fit an int64. */
  predicate Overflows(balances: Balances, t: Id) {
    t in balances && (balances[t].creditsPosted > MaxInt64 || balances[t].debitsPosted > MaxInt64)
  }

  /** What a Token can give: its posted balance, if there is one and it is
      positive. */
  function Capacity(balances: Balances, t: Id): nat {
    if t in balances && balances[t].creditsPosted > balances[t].debitsPosted
    then balances[t].creditsPosted - balances[t].debitsPosted else 0
  }

  /** What the first `n` Tokens can give together. */
  function Total(tokens: seq<Id>, balances: Balances, n: nat): nat
    requires n <= |tokens|
  {
    if n == 0 then 0 else Total(tokens, balances, n - 1) + Capacity(balances, tokens[n - 1])
  }

  /** The first `n` Tokens that can give anything, oldest first. */
  function Givers(tokens: seq<Id>, balances: Balances, n: nat): seq<Id>
    requires n <= |tokens|
  {
    if n == 0 then []
    else if Capacity(balances, tokens[n - 1]) > 0 then Givers(tokens, balances, n - 1) + [tokens[n - 1]]
    else Givers(tokens, balances, n - 1)
  }

  datatype Take = Take(token: Id, amount: nat)

  function Sum(takes: seq<Take>): nat {
    if takes == [] then 0 else Sum(takes[..|takes| - 1]) + takes[|takes| - 1].amount
  }

  /** Oldest first, each drained before the next is touched, and exactly
      `amount` in all. */
  ghost predicate Fifo(tokens: seq<Id>, balances: Balances, amount: nat, takes: seq<Take>) {
    var givers := Givers(tokens, balances, |tokens|);
    && Sum(takes) == amount && |takes| <= |givers|
    && (forall i :: 0 <= i < |takes| ==>
      takes[i].token == givers[i] && 0 < takes[i].amount <= Capacity(balances, givers[i]))
    && (forall i :: 0 <= i < |takes| - 1 ==> takes[i].amount == Capacity(balances, givers[i]))
  }

  datatype Selection = Selected(takes: seq<Take>) | Short(missing: nat) | Overflow(token: Id)

  // ---- What a selection means to the ledger --------------------------------

  /** The ledger has credited it with no more than it debited it, or has no such
      account at all. */
  predicate IsSpent(balances: Balances, t: Id) {
    t in balances ==> balances[t].creditsPosted <= balances[t].debitsPosted
  }

  /** A take the account's totals cover, and one that uses them up. */
  predicate Covers(balances: Balances, take: Take) {
    && take.token in balances && take.amount > 0
    && balances[take.token].debitsPosted + take.amount <= balances[take.token].creditsPosted
  }

  predicate Exhausts(balances: Balances, take: Take) {
    take.token in balances && balances[take.token].debitsPosted + take.amount == balances[take.token].creditsPosted
  }

  /** `at` lists, rising, where in `tokens` each take was made. Every take is
      covered, all but the last use their Token up, and every Token passed over
      on the way was spent. */
  ghost predicate OldestFirst(tokens: seq<Id>, balances: Balances, takes: seq<Take>, at: seq<nat>) {
    && |at| == |takes| && (forall i :: 0 <= i < |at| ==> at[i] < |tokens| && takes[i].token == tokens[at[i]])
    && (forall i, j :: 0 <= i < j < |at| ==> at[i] < at[j])
    && (forall i :: 0 <= i < |takes| ==> Covers(balances, takes[i]))
    && (forall i :: 0 <= i < |takes| - 1 ==> Exhausts(balances, takes[i]))
    && (forall k: nat :: at != [] && k < at[|at| - 1] && k !in at ==> IsSpent(balances, tokens[k]))
  }

  /** What the Tokens hold together, the overdrawn ones aside. */
  function PositiveNets(tokens: seq<Id>, balances: Balances): nat {
    if tokens == [] then 0
    else
      var n := |tokens| - 1;
      var rest := PositiveNets(tokens[..n], balances);
      if IsSpent(balances, tokens[n]) then rest
      else rest + balances[tokens[n]].creditsPosted - balances[tokens[n]].debitsPosted
  }

  lemma {:induction false} TotalIsPositiveNets(tokens: seq<Id>, balances: Balances, n: nat)
    requires n <= |tokens|
    ensures Total(tokens, balances, n) == PositiveNets(tokens[..n], balances)
  {
    if n > 0 {
      TotalIsPositiveNets(tokens, balances, n - 1);
      assert tokens[..n][..n - 1] == tokens[..n - 1];
    }
  }

  /** `at` lists, rising, where among `tokens` the `givers` stand: all that are
      not spent. */
  ghost predicate Stand(tokens: seq<Id>, balances: Balances, givers: seq<Id>, at: seq<nat>) {
    && |at| == |givers| && (forall i :: 0 <= i < |at| ==> at[i] < |tokens| && givers[i] == tokens[at[i]])
    && (forall i, j :: 0 <= i < j < |at| ==> at[i] < at[j])
    && (forall k: nat :: k < |tokens| ==> (k in at <==> !IsSpent(balances, tokens[k])))
  }

  lemma StandMore(tokens: seq<Id>, balances: Balances, givers: seq<Id>, at: seq<nat>, t: Id)
    requires Stand(tokens, balances, givers, at)
    ensures IsSpent(balances, t) ==> Stand(tokens + [t], balances, givers, at)
    ensures !IsSpent(balances, t) ==> Stand(tokens + [t], balances, givers + [t], at + [|tokens|])
  {
    assert forall i :: 0 <= i < |at| ==> at[i] in at;
    assert |tokens| !in at;
  }

  lemma {:induction false} GiversStand(tokens: seq<Id>, balances: Balances, n: nat) returns (at: seq<nat>)
    requires n <= |tokens|
    ensures Stand(tokens[..n], balances, Givers(tokens, balances, n), at)
  {
    at := [];
    if n > 0 {
      var t, givers := tokens[n - 1], Givers(tokens, balances, n - 1);
      assert Givers(tokens, balances, n) == if IsSpent(balances, t) then givers else givers + [t];
      at := GiversStand(tokens, balances, n - 1);
      StandMore(tokens[..n - 1], balances, givers, at, t);
      assert tokens[..n] == tokens[..n - 1] + [t];
      if !IsSpent(balances, t) { at := at + [n - 1]; }
    }
  }

  /** Whoever stands before the last of the first `n` is one of them or spent. */
  lemma PassedOver(tokens: seq<Id>, balances: Balances, givers: seq<Id>, at: seq<nat>, n: nat, k: nat)
    requires Stand(tokens, balances, givers, at) && 0 < n <= |at| && k < at[n - 1]
    ensures k in at[..n] || IsSpent(balances, tokens[k])
  {
    if k in at {
      var i :| 0 <= i < |at| && at[i] == k;
      assert i < n;
      assert at[..n][i] == k;
    }
  }

  lemma TakesAreCovered(tokens: seq<Id>, balances: Balances, amount: nat, takes: seq<Take>, i: nat)
    requires Fifo(tokens, balances, amount, takes) && i < |takes|
    ensures Covers(balances, takes[i]) && (i < |takes| - 1 ==> Exhausts(balances, takes[i]))
  {
  }

  /** The first `n` of a Stand. */
  lemma StandUpTo(tokens: seq<Id>, balances: Balances, givers: seq<Id>, at: seq<nat>, n: nat)
    requires Stand(tokens, balances, givers, at) && n <= |at|
    ensures forall k: nat :: n > 0 && k < at[n - 1] && k !in at[..n] ==> IsSpent(balances, tokens[k])
  {
    if n > 0 {
      forall k: nat | k < at[n - 1] ensures k in at[..n] || IsSpent(balances, tokens[k]) {
        PassedOver(tokens, balances, givers, at, n, k);
      }
    }
  }

  /** FIFO in the ledger's own totals. */
  lemma FifoIsOldestFirst(tokens: seq<Id>, balances: Balances, amount: nat, takes: seq<Take>) returns (at: seq<nat>)
    requires Fifo(tokens, balances, amount, takes)
    ensures OldestFirst(tokens, balances, takes, at)
  {
    var all := GiversStand(tokens, balances, |tokens|);
    assert tokens[..|tokens|] == tokens;
    StandUpTo(tokens, balances, Givers(tokens, balances, |tokens|), all, |takes|);
    forall i | 0 <= i < |takes|
      ensures Covers(balances, takes[i]) && (i < |takes| - 1 ==> Exhausts(balances, takes[i]))
    {
      TakesAreCovered(tokens, balances, amount, takes, i);
    }
    at := all[..|takes|];
  }

  /** A Token with a total beyond an int64 is met while something is still
      missing. */
  ghost predicate MeetsOverflow(tokens: seq<Id>, balances: Balances, amount: nat, n: nat) {
    && n < |tokens| && PositiveNets(tokens[..n], balances) < amount && tokens[n] in balances
    && (balances[tokens[n]].creditsPosted > MaxInt64 || balances[tokens[n]].debitsPosted > MaxInt64)
    && forall i :: 0 <= i < n && tokens[i] in balances ==>
         balances[tokens[i]].creditsPosted <= MaxInt64 && balances[tokens[i]].debitsPosted <= MaxInt64
  }

  ghost predicate OverflowMet(tokens: seq<Id>, balances: Balances, amount: nat) {
    exists n: nat :: MeetsOverflow(tokens, balances, amount, n)
  }

  /** Exactly `amount`, oldest first. */
  ghost predicate IsSelection(tokens: seq<Id>, balances: Balances, amount: nat, takes: seq<Take>) {
    Sum(takes) == amount && exists at :: OldestFirst(tokens, balances, takes, at)
  }

  predicate NoneOverflows(tokens: seq<Id>, balances: Balances, n: nat)
    requires n <= |tokens|
  {
    forall i :: 0 <= i < n ==> !Overflows(balances, tokens[i])
  }

  /** Midway: the first `n` Tokens drained, and still more to find. */
  ghost predicate Drained(tokens: seq<Id>, balances: Balances, n: nat, takes: seq<Take>) {
    && n <= |tokens| && |takes| == |Givers(tokens, balances, n)| && Sum(takes) == Total(tokens, balances, n)
    && forall i :: 0 <= i < |takes| ==>
         takes[i].token == Givers(tokens, balances, n)[i] && 0 < takes[i].amount == Capacity(balances, takes[i].token)
  }

  lemma SumSnoc(takes: seq<Take>, t: Take)
    ensures Sum(takes + [t]) == Sum(takes) + t.amount
  {
    assert (takes + [t])[..|takes|] == takes;
  }

  lemma {:induction false} GiversGrow(tokens: seq<Id>, balances: Balances, n: nat, m: nat)
    requires n <= m <= |tokens|
    ensures Givers(tokens, balances, n) <= Givers(tokens, balances, m)
    ensures Total(tokens, balances, n) <= Total(tokens, balances, m)
  {
    if n < m { GiversGrow(tokens, balances, n, m - 1); }
  }

  lemma DrainOne(tokens: seq<Id>, balances: Balances, n: nat, takes: seq<Take>, takes': seq<Take>)
    requires Drained(tokens, balances, n, takes) && n < |tokens|
    requires var cap := Capacity(balances, tokens[n]);
      takes' == if cap == 0 then takes else takes + [Take(tokens[n], cap)]
    ensures Drained(tokens, balances, n + 1, takes')
  {
    SumSnoc(takes, Take(tokens[n], Capacity(balances, tokens[n])));
  }

  lemma LastTake(tokens: seq<Id>, balances: Balances, n: nat, takes: seq<Take>, rest: nat)
    requires Drained(tokens, balances, n, takes) && n < |tokens| && 0 < rest <= Capacity(balances, tokens[n])
    ensures Fifo(tokens, balances, Total(tokens, balances, n) + rest, takes + [Take(tokens[n], rest)])
  {
    SumSnoc(takes, Take(tokens[n], rest));
    GiversGrow(tokens, balances, n + 1, |tokens|);
    var givers := Givers(tokens, balances, |tokens|);
    assert Givers(tokens, balances, n + 1) == Givers(tokens, balances, n) + [tokens[n]];
    assert forall i :: 0 <= i <= |takes| ==> givers[i] == Givers(tokens, balances, n + 1)[i];
  }

  lemma FifoSelects(tokens: seq<Id>, balances: Balances, amount: nat, takes: seq<Take>)
    requires Fifo(tokens, balances, amount, takes)
    ensures IsSelection(tokens, balances, amount, takes)
  {
    var at := FifoIsOldestFirst(tokens, balances, amount, takes);
  }

  /** Enough has been found, no overflow having been met. */
  lemma EnoughFound(tokens: seq<Id>, balances: Balances, n: nat, amount: nat)
    requires n <= |tokens| && Total(tokens, balances, n) >= amount && NoneOverflows(tokens, balances, n)
    ensures amount <= PositiveNets(tokens, balances) && !OverflowMet(tokens, balances, amount)
  {
    NoOverflowMet(tokens, balances, amount, n);
    GiversGrow(tokens, balances, n, |tokens|);
    TotalIsPositiveNets(tokens, balances, |tokens|);
    assert tokens[..|tokens|] == tokens;
  }

  /** What an answer says: exactly `amount` oldest first, or exactly what the
      Tokens together fall short by, or the Token whose totals overflow. */
  ghost predicate Answers(tokens: seq<Id>, balances: Balances, amount: nat, r: Selection) {
    match r
    case Selected(takes) =>
      && Fifo(tokens, balances, amount, takes) && IsSelection(tokens, balances, amount, takes)
      && amount <= PositiveNets(tokens, balances) && !OverflowMet(tokens, balances, amount)
    case Short(missing) =>
      0 < missing == amount - PositiveNets(tokens, balances) && !OverflowMet(tokens, balances, amount)
    case Overflow(token) => exists n: nat :: MeetsOverflow(tokens, balances, amount, n) && tokens[n] == token
  }

  /** The last take closes a selection. */
  lemma Closes(tokens: seq<Id>, balances: Balances, n: nat, takes: seq<Take>, rest: nat, amount: nat, all: seq<Take>)
    requires Drained(tokens, balances, n, takes) && n < |tokens| && 0 < rest <= Capacity(balances, tokens[n])
    requires Total(tokens, balances, n) + rest == amount && all == takes + [Take(tokens[n], rest)]
    ensures Fifo(tokens, balances, amount, all) && IsSelection(tokens, balances, amount, all)
  {
    assert Fifo(tokens, balances, amount, all) by { LastTake(tokens, balances, n, takes, rest); }
    FifoSelects(tokens, balances, amount, all);
  }

  lemma NothingToFind(tokens: seq<Id>, balances: Balances)
    ensures Answers(tokens, balances, 0, Selected([]))
  {
    assert OldestFirst(tokens, balances, [], []);
  }

  lemma OverflowAnswers(tokens: seq<Id>, balances: Balances, amount: nat, n: nat)
    requires n < |tokens| && NoneOverflows(tokens, balances, n) && Overflows(balances, tokens[n])
    requires Total(tokens, balances, n) < amount
    ensures Answers(tokens, balances, amount, Overflow(tokens[n]))
  {
    TotalIsPositiveNets(tokens, balances, n);
    assert MeetsOverflow(tokens, balances, amount, n);
  }

  lemma ShortAnswers(tokens: seq<Id>, balances: Balances, amount: nat, missing: nat)
    requires NoneOverflows(tokens, balances, |tokens|) && missing > 0
    requires Total(tokens, balances, |tokens|) + missing == amount
    ensures Answers(tokens, balances, amount, Short(missing))
  {
    TotalIsPositiveNets(tokens, balances, |tokens|);
    assert tokens[..|tokens|] == tokens;
    forall m: nat | m < |tokens| ensures !MeetsOverflow(tokens, balances, amount, m) {
      assert !Overflows(balances, tokens[m]);
    }
  }

  /** Selects exactly the FIFO legs when the Tokens can cover the amount, and
      otherwise reports exactly what is missing. */
  method SelectSourceTokens(tokens: seq<Id>, balances: Balances, amount: nat) returns (r: Selection)
    ensures Answers(tokens, balances, amount, r)
  {
    var takes: seq<Take> := [];
    var remaining := amount;
    var n := 0;
    if amount == 0 { NothingToFind(tokens, balances); return Selected([]); }
    while n < |tokens|
      invariant n <= |tokens| && Drained(tokens, balances, n, takes) && NoneOverflows(tokens, balances, n)
      invariant remaining > 0 && Total(tokens, balances, n) + remaining == amount
    {
      var token := tokens[n];
      if Overflows(balances, token) {
        OverflowAnswers(tokens, balances, amount, n);
        return Overflow(token);
      }
      var take := Capacity(balances, token);
      if take >= remaining {
        Closes(tokens, balances, n, takes, remaining, amount, takes + [Take(token, remaining)]);
        EnoughFound(tokens, balances, n + 1, amount);
        return Selected(takes + [Take(token, remaining)]);
      }
      DrainOne(tokens, balances, n, takes, if take == 0 then takes else takes + [Take(token, take)]);
      if take > 0 { takes := takes + [Take(token, take)]; }
      remaining := remaining - take;
      n := n + 1;
    }
    ShortAnswers(tokens, balances, amount, remaining);
    r := Short(remaining);
  }

  lemma NoOverflowMet(tokens: seq<Id>, balances: Balances, amount: nat, n: nat)
    requires n <= |tokens| && Total(tokens, balances, n) >= amount && NoneOverflows(tokens, balances, n)
    ensures !OverflowMet(tokens, balances, amount)
  {
    forall m: nat ensures !MeetsOverflow(tokens, balances, amount, m) {
      if n <= m < |tokens| {
        GiversGrow(tokens, balances, n, m);
        TotalIsPositiveNets(tokens, balances, m);
      }
    }
  }

  lemma FifoIsNoLonger(tokens: seq<Id>, balances: Balances, amount: nat, a: seq<Take>, b: seq<Take>)
    requires Fifo(tokens, balances, amount, a) && Fifo(tokens, balances, amount, b)
    ensures |a| >= |b|
  {
    if |a| < |b| {
      var n := if a == [] then 0 else |a| - 1;
      assert a != [] ==> b[..|a|] == b[..n] + [b[n]];
      SameSum(a, b, n);
      SumUpTo(a, n, b[n].amount);
      SumSnoc(b[..n], b[n]);
      SumGrowsStrictly(b, |a|);
    }
  }

  /** All of a list but its last entry, which is at most `last`. */
  lemma SumUpTo(a: seq<Take>, n: nat, last: nat)
    requires n == if a == [] then 0 else |a| - 1
    requires a != [] ==> a[n].amount <= last
    ensures a != [] ==> Sum(a) <= Sum(a[..n]) + last
    ensures a == [] ==> Sum(a) == 0
  {
  }

  /** There is only one way to be FIFO. */
  lemma FifoIsUnique(tokens: seq<Id>, balances: Balances, amount: nat, a: seq<Take>, b: seq<Take>)
    requires Fifo(tokens, balances, amount, a) && Fifo(tokens, balances, amount, b)
    ensures a == b
  {
    FifoIsNoLonger(tokens, balances, amount, a, b);
    FifoIsNoLonger(tokens, balances, amount, b, a);
    if a != [] {
      SameSum(a, b, |a| - 1);
      assert forall i :: 0 <= i < |a| ==> a[i] == b[i];
    }
  }

  lemma {:induction false} SameSum(a: seq<Take>, b: seq<Take>, n: nat)
    requires n <= |a| && n <= |b| && forall i :: 0 <= i < n ==> a[i].amount == b[i].amount
    ensures Sum(a[..n]) == Sum(b[..n])
  {
    if n > 0 {
      SameSum(a, b, n - 1);
      assert a[..n][..n - 1] == a[..n - 1] && b[..n][..n - 1] == b[..n - 1];
    }
  }

  lemma {:induction false} SumGrows(a: seq<Take>, n: nat)
    requires n <= |a|
    ensures Sum(a[..n]) <= Sum(a)
  {
    if n == |a| {
      assert a[..n] == a;
    } else {
      SumGrows(a[..|a| - 1], n);
      assert a[..|a| - 1][..n] == a[..n];
    }
  }

  lemma SumGrowsStrictly(a: seq<Take>, n: nat)
    requires n < |a| && a[n].amount > 0
    ensures Sum(a[..n]) < Sum(a)
  {
    SumSnoc(a[..n], a[n]);
    assert a[..n + 1] == a[..n] + [a[n]];
    SumGrows(a, n + 1);
  }

  // ---- Reversal ------------------------------------------------------------

  datatype Leg = Leg(source: Id, dest: Id, amount: nat, currency: string)

  function Plain(legs: seq<T.Leg>): (out: seq<Leg>)
    ensures |out| == |legs|
    ensures forall i :: 0 <= i < |legs| ==>
      out[i] == Leg(legs[i].source, legs[i].dest, legs[i].amount, legs[i].currency)
  {
    if legs == [] then []
    else var l := legs[|legs| - 1]; Plain(legs[..|legs| - 1]) + [Leg(l.source, l.dest, l.amount, l.currency)]
  }

  function Swap(l: Leg): Leg { Leg(l.dest, l.source, l.amount, l.currency) }

  function Reversed(legs: seq<Leg>): (out: seq<Leg>)
    ensures |out| == |legs| && forall i :: 0 <= i < |legs| ==> out[i] == Swap(legs[i])
  {
    if legs == [] then [] else Reversed(legs[..|legs| - 1]) + [Swap(legs[|legs| - 1])]
  }

  /** Reversing twice gives the originals back. */
  lemma ReversedTwice(legs: seq<Leg>)
    ensures Reversed(Reversed(legs)) == legs
  {
    forall i | 0 <= i < |legs| ensures Reversed(Reversed(legs))[i] == legs[i] {
      assert Reversed(legs)[i] == Swap(legs[i]);
    }
  }

  /** What posting the legs once does to one Token's posted balance. */
  function Net(legs: seq<Leg>, t: Id): int {
    if legs == [] then 0
    else
      var l := legs[|legs| - 1];
      Net(legs[..|legs| - 1], t) + (if l.dest == t then l.amount else 0) - (if l.source == t then l.amount else 0)
  }

  /** A Reversal moves every Token back by exactly what the original moved it. */
  lemma {:induction false} ReversedNet(legs: seq<Leg>, t: Id)
    ensures Net(Reversed(legs), t) == -Net(legs, t)
  {
    if legs != [] {
      ReversedNet(legs[..|legs| - 1], t);
      assert Reversed(legs)[..|legs| - 1] == Reversed(legs[..|legs| - 1]);
    }
  }

  /** Every leg any TransferPrepared on the stream records. */
  function PreparedLegs(es: T.Stream): seq<Leg> {
    if es == [] then []
    else
      var legs := PreparedLegs(es[..|es| - 1]);
      if es[|es| - 1].Prepared? then legs + Plain(es[|es| - 1].legs) else legs
  }

  method AppendSwapped(before: seq<Leg>, prepared: seq<T.Leg>) returns (legs: seq<Leg>)
    ensures legs == before + Reversed(Plain(prepared))
  {
    legs := before;
    for k := 0 to |prepared|
      invariant |legs| == |before| + k && legs[..|before|] == before
      invariant forall i :: 0 <= i < k ==> legs[|before| + i] == Swap(Plain(prepared)[i])
    {
      legs := legs + [Leg(prepared[k].dest, prepared[k].source, prepared[k].amount, prepared[k].currency)];
    }
  }

  datatype ReversalPlan = Reverses(legs: seq<Leg>) | NotFound | NotCommitted | NoLegs

  /** The Reversal of exactly what a committed Transfer prepared. */
  method ReversalManifest(es: T.Stream) returns (r: ReversalPlan)
    ensures r == (
      if es == [] then NotFound
      else if !T.CurrentPhase(es).InCommitted? then NotCommitted
      else if PreparedLegs(es) == [] then NoLegs
      else Reverses(Reversed(PreparedLegs(es))))
  {
    if es == [] { return NotFound; }
    if !T.CurrentPhase(es).InCommitted? { return NotCommitted; }
    var legs: seq<Leg> := [];
    for n := 0 to |es|
      invariant legs == Reversed(PreparedLegs(es[..n]))
    {
      assert es[..n + 1][..n] == es[..n];
      if es[n].Prepared? {
        ReversedAppend(PreparedLegs(es[..n]), Plain(es[n].legs));
        legs := AppendSwapped(legs, es[n].legs);
      }
    }
    assert es[..|es|] == es;
    if legs == [] { return NoLegs; }
    r := Reverses(legs);
  }

  lemma ReversedAppend(a: seq<Leg>, b: seq<Leg>)
    ensures Reversed(a + b) == Reversed(a) + Reversed(b)
  {
  }

  lemma {:induction false} PreparedMovesOn(es: T.Stream)
    requires T.Lawful(es) && T.LegsOf(es).Some?
    ensures !T.CurrentPhase(es).InAccepted?
  {
    var n := |es| - 1;
    T.LawfulPrefix(es, n);
    assert T.MayFollow(es[..n], es[n]) && es == es[..n] + [es[n]];
    T.Snoc(es[..n], es[n]);
    if T.LegsOf(es[..n]).Some? { PreparedMovesOn(es[..n]); }
  }

  lemma PreparedSnoc(es: T.Stream, e: T.Event)
    ensures PreparedLegs(es + [e]) == PreparedLegs(es) + if e.Prepared? then Plain(e.legs) else []
  {
    assert (es + [e])[..|es|] == es;
  }

  /** A lawful stream prepares once, so its Reversal undoes exactly its legs. */
  lemma {:induction false} LawfulPreparesOnce(es: T.Stream)
    requires T.Lawful(es)
    ensures PreparedLegs(es) == if T.LegsOf(es).Some? then Plain(T.LegsOf(es).value) else []
  {
    if es != [] {
      var n := |es| - 1;
      T.LawfulPrefix(es, n);
      LawfulPreparesOnce(es[..n]);
      assert es == es[..n] + [es[n]];
      T.Snoc(es[..n], es[n]);
      PreparedSnoc(es[..n], es[n]);
      if es[n].Prepared? {
        assert T.MayFollow(es[..n], es[n]);
        if T.LegsOf(es[..n]).Some? { PreparedMovesOn(es[..n]); }
      }
    }
  }
}
