/** The event store every layer appends to: all-or-nothing writes, each against
    the length its caller last saw (go/internal/eventstore/memory.go, store.go). */
module EventStore {
  /** A stream's identity. The source joins the two with a NUL byte. */
  datatype Key = Key(aggregateType: string, aggregateId: string)

  datatype Write<P> = Write(key: Key, expectedSeq: int, events: seq<P>)

  datatype Event<P> = Event(sequence: nat, globalSeq: nat, payload: P)

  type Streams<P> = map<Key, seq<Event<P>>>

  datatype Result = Ok | MissingIdentity | NegativeSeq | DuplicateStream | Conflict

  function StreamOf<P>(streams: Streams<P>, k: Key): seq<Event<P>> { if k in streams then streams[k] else [] }

  function StreamKey(k: Key): string { k.aggregateType + ['\0'] + k.aggregateId }

  /** Joined keys collide only if a type itself holds the separator. */
  lemma JoinedKeysAreDistinct(a: Key, b: Key)
    requires '\0' !in a.aggregateType && '\0' !in b.aggregateType && StreamKey(a) == StreamKey(b)
    ensures a == b
  {
    var s := StreamKey(a);
    var n, m := |a.aggregateType|, |b.aggregateType|;
    assert s[n] == '\0' && s[m] == '\0';
    assert a.aggregateType == s[..n] && b.aggregateType == s[..m];
    assert a.aggregateId == s[n + 1..] && b.aggregateId == s[m + 1..];
  }

  // ---- What a batch does ---------------------------------------------------

  /** liveWrites: writes that would insert nothing are dropped, unchecked. */
  function Live<P>(writes: seq<Write<P>>): seq<Write<P>> {
    if writes == [] then []
    else
      var n := |writes| - 1;
      if writes[n].events != [] then Live(writes[..n]) + [writes[n]] else Live(writes[..n])
  }

  /** `at` lists, rising, where each kept write stood, and misses no write that
      holds events. */
  ghost predicate Picks<P>(writes: seq<Write<P>>, live: seq<Write<P>>, at: seq<nat>) {
    && |at| == |live|
    && (forall i :: 0 <= i < |at| ==> at[i] < |writes| && live[i] == writes[at[i]])
    && (forall i, j :: 0 <= i < j < |at| ==> at[i] < at[j])
    && (forall k: nat :: k < |writes| ==> (k in at <==> writes[k].events != []))
  }

  lemma PicksMore<P>(writes: seq<Write<P>>, live: seq<Write<P>>, at: seq<nat>, w: Write<P>)
    requires Picks(writes, live, at)
    ensures w.events == [] ==> Picks(writes + [w], live, at)
    ensures w.events != [] ==> Picks(writes + [w], live + [w], at + [|writes|])
  {
    assert forall i :: 0 <= i < |at| ==> at[i] in at;
    assert |writes| !in at;
  }

  /** Live keeps the writes that hold events, all of them, each once and in order. */
  lemma {:induction false} LivePicks<P>(writes: seq<Write<P>>) returns (at: seq<nat>)
    ensures Picks(writes, Live(writes), at)
    ensures forall w :: w in Live(writes) <==> w in writes && w.events != []
  {
    at := [];
    if writes != [] {
      var n := |writes| - 1;
      at := LivePicks(writes[..n]);
      PicksMore(writes[..n], Live(writes[..n]), at, writes[n]);
      assert writes == writes[..n] + [writes[n]];
      if writes[n].events != [] { at := at + [n]; }
    }
  }

  predicate Repeats<P>(writes: seq<Write<P>>, n: nat)
    requires n < |writes|
  {
    exists i :: 0 <= i < n && writes[i].key == writes[n].key
  }

  /** The first thing wrong with the n-th write, the earlier ones being fine. */
  function Fault<P>(writes: seq<Write<P>>, n: nat): Result
    requires n < |writes|
  {
    if writes[n].key.aggregateType == "" || writes[n].key.aggregateId == "" then MissingIdentity
    else if writes[n].expectedSeq < 0 then NegativeSeq
    else if Repeats(writes, n) then DuplicateStream
    else Ok
  }

  /** validateWrites: the first fault, in order. */
  function Valid<P>(writes: seq<Write<P>>, n: nat): Result
    requires n <= |writes|
  {
    if n == 0 then Ok else if !Valid(writes, n - 1).Ok? then Valid(writes, n - 1) else Fault(writes, n - 1)
  }

  /** Some write's caller has not seen all of its stream. */
  predicate Stale<P>(streams: Streams<P>, writes: seq<Write<P>>, n: nat)
    requires n <= |writes|
  {
    exists i :: 0 <= i < n && |StreamOf(streams, writes[i].key)| != writes[i].expectedSeq
  }

  function Verdict<P>(streams: Streams<P>, writes: seq<Write<P>>): Result {
    var live := Live(writes);
    if !Valid(live, |live|).Ok? then Valid(live, |live|)
    else if Stale(streams, live, |live|) then Conflict
    else Ok
  }

  /** A batch numbered after a stream's end and after the whole log's. */
  function Numbered<P>(payloads: seq<P>, length: nat, globalSeq: nat): (out: seq<Event<P>>)
    ensures |out| == |payloads|
    ensures forall i :: 0 <= i < |out| ==> out[i] == Event(length + i + 1, globalSeq + i + 1, payloads[i])
  {
    seq(|payloads|, i requires 0 <= i < |payloads| => Event(length + i + 1, globalSeq + i + 1, payloads[i]))
  }

  datatype Log<P> = Log(streams: Streams<P>, globalSeq: nat)

  function Extend<P>(log: Log<P>, w: Write<P>): Log<P> {
    var s := StreamOf(log.streams, w.key);
    Log(log.streams[w.key := s + Numbered(w.events, |s|, log.globalSeq)], log.globalSeq + |w.events|)
  }

  function Applied<P>(log: Log<P>, writes: seq<Write<P>>, n: nat): Log<P>
    requires n <= |writes|
  {
    if n == 0 then log else Extend(Applied(log, writes, n - 1), writes[n - 1])
  }

  // ---- Which batches are accepted ------------------------------------------

  /** What a store asks of each write that holds events. */
  predicate Fits<P>(streams: Streams<P>, w: Write<P>) {
    && w.key.aggregateType != "" && w.key.aggregateId != ""
    && w.expectedSeq == if w.key in streams then |streams[w.key]| else 0
  }

  /** And of the batch: no stream is named twice. */
  predicate Acceptable<P>(streams: Streams<P>, writes: seq<Write<P>>) {
    && (forall i :: 0 <= i < |writes| && writes[i].events != [] ==> Fits(streams, writes[i]))
    && (forall i, j :: 0 <= i < j < |writes| && writes[i].events != [] && writes[j].events != [] ==>
          writes[i].key != writes[j].key)
  }

  predicate WellFormed<P>(live: seq<Write<P>>) {
    && (forall i :: 0 <= i < |live| ==>
          live[i].key.aggregateType != "" && live[i].key.aggregateId != "" && live[i].expectedSeq >= 0)
    && (forall i, j :: 0 <= i < j < |live| ==> live[i].key != live[j].key)
  }

  /** What is wrong with a batch, by the error it is refused with. A stale write
      is looked for only in a batch that is otherwise well-formed. */
  predicate Explains<P>(streams: Streams<P>, live: seq<Write<P>>, r: Result) {
    match r
    case Ok => true
    case MissingIdentity =>
      exists i :: 0 <= i < |live| && (live[i].key.aggregateType == "" || live[i].key.aggregateId == "")
    case NegativeSeq => exists i :: 0 <= i < |live| && live[i].expectedSeq < 0
    case DuplicateStream => exists i, j :: 0 <= i < j < |live| && live[i].key == live[j].key
    case Conflict => WellFormed(live) && exists i :: 0 <= i < |live| && !Fits(streams, live[i])
  }

  lemma {:induction false} ValidMeansNoFault<P>(writes: seq<Write<P>>, n: nat)
    requires n <= |writes|
    ensures Valid(writes, n).Ok? <==> forall i :: 0 <= i < n ==> Fault(writes, i).Ok?
    ensures !Valid(writes, n).Ok? ==> exists i :: 0 <= i < n && Fault(writes, i) == Valid(writes, n)
  {
    if n > 0 { ValidMeansNoFault(writes, n - 1); }
  }

  lemma FaultIsNamed<P>(streams: Streams<P>, writes: seq<Write<P>>, n: nat)
    requires n < |writes| && !Fault(writes, n).Ok?
    ensures Explains(streams, writes, Fault(writes, n))
  {
  }

  lemma ValidMeansWellFormed<P>(live: seq<Write<P>>)
    ensures Valid(live, |live|).Ok? <==> WellFormed(live)
  {
    ValidMeansNoFault(live, |live|);
    if Valid(live, |live|).Ok? {
      forall i, j | 0 <= i < j < |live| ensures live[i].key != live[j].key { ValidIsDistinct(live, |live|, i, j); }
      forall i | 0 <= i < |live|
        ensures live[i].key.aggregateType != "" && live[i].key.aggregateId != "" && live[i].expectedSeq >= 0
      {
        assert Fault(live, i).Ok?;
      }
    }
  }

  /** Of the writes that hold events. */
  lemma LiveAcceptedExactly<P>(streams: Streams<P>, live: seq<Write<P>>)
    requires forall i :: 0 <= i < |live| ==> live[i].events != []
    ensures WellFormed(live) && !Stale(streams, live, |live|) <==> Acceptable(streams, live)
    ensures WellFormed(live) && Stale(streams, live, |live|) ==> Explains(streams, live, Conflict)
  {
    if Acceptable(streams, live) {
      forall i | 0 <= i < |live| ensures Fits(streams, live[i]) { assert live[i].events != []; }
    }
  }

  lemma PickedIsAcceptable<P>(streams: Streams<P>, writes: seq<Write<P>>, live: seq<Write<P>>, at: seq<nat>)
    requires Picks(writes, live, at)
    ensures Acceptable(streams, writes) <==> Acceptable(streams, live)
  {
    assert forall i :: 0 <= i < |at| ==> at[i] in at && live[i].events != [];
    if Acceptable(streams, writes) {
      forall i, j | 0 <= i < j < |live| ensures live[i].key != live[j].key { assert at[i] < at[j]; }
    }
    if Acceptable(streams, live) { PickedBack(streams, writes, live, at); }
  }

  lemma PickedBack<P>(streams: Streams<P>, writes: seq<Write<P>>, live: seq<Write<P>>, at: seq<nat>)
    requires Picks(writes, live, at) && Acceptable(streams, live)
    ensures Acceptable(streams, writes)
  {
    assert forall i :: 0 <= i < |at| ==> at[i] in at && live[i].events != [];
    forall k | 0 <= k < |writes| && writes[k].events != [] ensures Fits(streams, writes[k]) {
      var i :| 0 <= i < |at| && at[i] == k;
    }
    forall k, l | 0 <= k < l < |writes| && writes[k].events != [] && writes[l].events != []
      ensures writes[k].key != writes[l].key
    {
      var i :| 0 <= i < |at| && at[i] == k;
      var j :| 0 <= j < |at| && at[j] == l;
      if j < i { assert at[j] < at[i]; }
    }
  }

  /** A batch is accepted exactly when it is acceptable, and refused for a fault
      it has. */
  predicate Judged<P>(streams: Streams<P>, writes: seq<Write<P>>, r: Result) {
    (r.Ok? <==> Acceptable(streams, writes)) && Explains(streams, Live(writes), r)
  }

  /** Every write that holds events names a stream, each its own, and expects the
      length it has: then, and only then, the batch is accepted. */
  lemma AcceptedExactly<P>(streams: Streams<P>, writes: seq<Write<P>>)
    ensures Judged(streams, writes, Verdict(streams, writes))
  {
    var live := Live(writes);
    var at := LivePicks(writes);
    PickedIsAcceptable(streams, writes, live, at);
    LiveAcceptedExactly(streams, live);
    ValidMeansWellFormed(live);
    ValidMeansNoFault(live, |live|);
    if i :| 0 <= i < |live| && !Fault(live, i).Ok? && Fault(live, i) == Valid(live, |live|) {
      FaultIsNamed(streams, live, i);
    }
  }

  // ---- The store -----------------------------------------------------------

  /** The writes that hold events, all of them, each once and in order. */
  method LiveWrites<P(==)>(writes: seq<Write<P>>) returns (live: seq<Write<P>>)
    ensures live == Live(writes)
    ensures exists at :: Picks(writes, live, at)
  {
    live := [];
    for n := 0 to |writes|
      invariant live == Live(writes[..n])
    {
      assert writes[..n + 1][..n] == writes[..n];
      if |writes[n].events| > 0 { live := live + [writes[n]]; }
    }
    assert writes[..|writes|] == writes;
    ghost var at := LivePicks(writes);
  }

  lemma {:induction false} FaultStays<P>(writes: seq<Write<P>>, n: nat, m: nat)
    requires n <= m <= |writes| && !Valid(writes, n).Ok?
    ensures Valid(writes, m) == Valid(writes, n)
  {
    if n < m { FaultStays(writes, n, m - 1); }
  }

  method ValidateWrites<P(==)>(writes: seq<Write<P>>) returns (r: Result)
    ensures r == Valid(writes, |writes|)
  {
    var seen: set<Key> := {};
    for n := 0 to |writes|
      invariant Valid(writes, n).Ok?
      invariant forall k :: k in seen <==> exists i :: 0 <= i < n && writes[i].key == k
    {
      var w := writes[n];
      r := if w.key.aggregateType == "" || w.key.aggregateId == "" then MissingIdentity
           else if w.expectedSeq < 0 then NegativeSeq
           else if w.key in seen then DuplicateStream
           else Ok;
      assert w.key in seen <==> Repeats(writes, n);
      assert r == Fault(writes, n) == Valid(writes, n + 1);
      if r != Ok {
        FaultStays(writes, n + 1, |writes|);
        return;
      }
      seen := seen + {w.key};
    }
    r := Ok;
  }

  class MemoryStore<P(==)> {
    var streams: Streams<P>
    var globalSeq: nat

    ghost function Contents(): Log<P>
      reads this
    {
      Log(streams, globalSeq)
    }

    constructor ()
      ensures Contents() == Log(map[], 0)
    {
      streams, globalSeq := map[], 0;
    }

    /** Every live write lands after exactly the events its caller expected, or
        none does; and all of them do exactly when the batch is acceptable. */
    method AppendAtomic(writes: seq<Write<P>>) returns (r: Result)
      modifies this
      ensures r == Verdict(old(streams), writes)
      ensures Judged(old(streams), writes, r)
      ensures Contents() == if r.Ok? then Applied(old(Contents()), Live(writes), |Live(writes)|) else old(Contents())
    {
      AcceptedExactly(streams, writes);
      var live := LiveWrites(writes);
      r := ValidateWrites(live);
      if r != Ok { return; }
      var stale := AnyStale(live);
      if stale { return Conflict; }
      AddAll(live);
    }

    method AnyStale(live: seq<Write<P>>) returns (stale: bool)
      ensures stale <==> Stale(streams, live, |live|)
    {
      for n := 0 to |live|
        invariant !Stale(streams, live, n)
      {
        if |StreamOf(streams, live[n].key)| != live[n].expectedSeq { return true; }
      }
      stale := false;
    }

    method AddAll(live: seq<Write<P>>)
      modifies this
      ensures Contents() == Applied(old(Contents()), live, |live|)
    {
      for n := 0 to |live|
        invariant Contents() == Applied(old(Contents()), live, n)
      {
        Add(live[n]);
      }
    }

    /** One stream's staged batch, numbered event by event. */
    method Add(w: Write<P>)
      modifies this
      ensures Contents() == Extend(old(Contents()), w)
    {
      var stream := StreamOf(streams, w.key);
      var staged: seq<Event<P>> := [];
      for i := 0 to |w.events|
        invariant globalSeq == old(globalSeq) + i && streams == old(streams)
        invariant staged == Numbered(w.events, |stream|, old(globalSeq))[..i]
      {
        globalSeq := globalSeq + 1;
        staged := staged + [Event(|stream| + i + 1, globalSeq, w.events[i])];
      }
      assert staged == Numbered(w.events, |stream|, old(globalSeq));
      streams := streams[w.key := stream + staged];
    }

    method Load(k: Key) returns (events: seq<Event<P>>)
      ensures events == StreamOf(streams, k)
    {
      events := StreamOf(streams, k);
    }
  }

  // ---- What the store promises ---------------------------------------------

  function Payloads<P>(es: seq<Event<P>>): (out: seq<P>)
    ensures |out| == |es| && forall i :: 0 <= i < |es| ==> out[i] == es[i].payload
  {
    seq(|es|, i requires 0 <= i < |es| => es[i].payload)
  }

  lemma {:induction false} ValidIsDistinct<P>(writes: seq<Write<P>>, n: nat, i: nat, j: nat)
    requires n <= |writes| && Valid(writes, n).Ok? && i < j < n
    ensures writes[i].key != writes[j].key
  {
    if j < n - 1 { ValidIsDistinct(writes, n - 1, i, j); } else { assert !Repeats(writes, j); }
  }

  lemma {:induction false} UntouchedUpTo<P>(log: Log<P>, writes: seq<Write<P>>, n: nat, k: Key)
    requires n <= |writes| && forall i :: 0 <= i < n ==> writes[i].key != k
    ensures StreamOf(Applied(log, writes, n).streams, k) == StreamOf(log.streams, k)
  {
    if n > 0 { UntouchedUpTo(log, writes, n - 1, k); }
  }

  lemma ExtendAdds<P>(log: Log<P>, w: Write<P>)
    ensures var before, after := StreamOf(log.streams, w.key), StreamOf(Extend(log, w).streams, w.key);
      before <= after && Payloads(after) == Payloads(before) + w.events
  {
  }

  lemma {:induction false} ExtendedBy<P>(log: Log<P>, writes: seq<Write<P>>, n: nat, i: nat)
    requires i < n <= |writes| && forall j :: 0 <= j < n && j != i ==> writes[j].key != writes[i].key
    ensures var before, after := StreamOf(log.streams, writes[i].key),
      StreamOf(Applied(log, writes, n).streams, writes[i].key);
      before <= after && Payloads(after) == Payloads(before) + writes[i].events
  {
    if i == n - 1 {
      UntouchedUpTo(log, writes, i, writes[i].key);
      ExtendAdds(Applied(log, writes, i), writes[i]);
    } else {
      ExtendedBy(log, writes, n - 1, i);
    }
  }

  /** An accepted batch adds to each named stream exactly its events, directly
      after the ones its caller had counted, and touches no other stream. */
  lemma AcceptedBatchIsExact<P>(log: Log<P>, writes: seq<Write<P>>, k: Key)
    requires Verdict(log.streams, writes).Ok?
    ensures var live := Live(writes);
      var before, after := StreamOf(log.streams, k), StreamOf(Applied(log, live, |live|).streams, k);
      && (forall i :: 0 <= i < |live| && live[i].key == k ==>
            |before| == live[i].expectedSeq && Payloads(after) == Payloads(before) + live[i].events)
      && ((forall i :: 0 <= i < |live| ==> live[i].key != k) ==> after == before)
      && before <= after
  {
    var live := Live(writes);
    forall i, j | 0 <= i < j < |live| ensures live[i].key != live[j].key { ValidIsDistinct(live, |live|, i, j); }
    if i :| 0 <= i < |live| && live[i].key == k {
      ExtendedBy(log, live, |live|, i);
      assert !(|StreamOf(log.streams, live[i].key)| != live[i].expectedSeq);
    } else {
      UntouchedUpTo(log, live, |live|, k);
    }
  }

  /** Sequences count a stream from one, and the global sequence rises along it. */
  predicate Counted<P>(es: seq<Event<P>>, globalSeq: nat) {
    && (forall i :: 0 <= i < |es| ==> es[i].sequence == i + 1 && 0 < es[i].globalSeq <= globalSeq)
    && forall i, j :: 0 <= i < j < |es| ==> es[i].globalSeq < es[j].globalSeq
  }

  predicate Apart<P>(es: seq<Event<P>>, fs: seq<Event<P>>) {
    forall i, j :: 0 <= i < |es| && 0 <= j < |fs| ==> es[i].globalSeq != fs[j].globalSeq
  }

  /** No global sequence is given twice. */
  ghost predicate WellNumbered<P(!new)>(log: Log<P>) {
    && (forall k :: Counted(StreamOf(log.streams, k), log.globalSeq))
    && (forall k, l :: k != l ==> Apart(StreamOf(log.streams, k), StreamOf(log.streams, l)))
  }

  lemma LaterIsApart<P>(es: seq<Event<P>>, fs: seq<Event<P>>, payloads: seq<P>, globalSeq: nat)
    requires Apart(es, fs) && Counted(fs, globalSeq)
    ensures Apart(es + Numbered(payloads, |es|, globalSeq), fs) && Apart(fs, es + Numbered(payloads, |es|, globalSeq))
  {
  }

  lemma LaterIsCounted<P>(es: seq<Event<P>>, payloads: seq<P>, globalSeq: nat)
    requires Counted(es, globalSeq)
    ensures Counted(es + Numbered(payloads, |es|, globalSeq), globalSeq + |payloads|) &&
      Counted(es, globalSeq + |payloads|)
  {
  }

  lemma ExtendKeepsApart<P(!new)>(log: Log<P>, w: Write<P>, k: Key, l: Key)
    requires WellNumbered(log) && k != l
    ensures Apart(StreamOf(Extend(log, w).streams, k), StreamOf(Extend(log, w).streams, l))
  {
    var a, b := StreamOf(log.streams, k), StreamOf(log.streams, l);
    assert Apart(a, b) && Apart(b, a) && Counted(a, log.globalSeq) && Counted(b, log.globalSeq);
    if k == w.key { LaterIsApart(a, b, w.events, log.globalSeq); }
    else if l == w.key { LaterIsApart(b, a, w.events, log.globalSeq); }
  }

  lemma ExtendKeepsNumbers<P(!new)>(log: Log<P>, w: Write<P>)
    requires WellNumbered(log)
    ensures WellNumbered(Extend(log, w))
  {
    var log' := Extend(log, w);
    forall k, l | k != l ensures Apart(StreamOf(log'.streams, k), StreamOf(log'.streams, l)) {
      ExtendKeepsApart(log, w, k, l);
    }
    forall k ensures Counted(StreamOf(log'.streams, k), log'.globalSeq) {
      LaterIsCounted(StreamOf(log.streams, k), w.events, log.globalSeq);
    }
  }

  lemma {:induction false} AppliedKeepsNumbers<P(!new)>(log: Log<P>, writes: seq<Write<P>>, n: nat)
    requires WellNumbered(log) && n <= |writes|
    ensures WellNumbered(Applied(log, writes, n))
  {
    if n > 0 {
      AppliedKeepsNumbers(log, writes, n - 1);
      ExtendKeepsNumbers(Applied(log, writes, n - 1), writes[n - 1]);
    }
  }

  /** The store after any batches, refused ones included. */
  function After<P>(log: Log<P>, batches: seq<seq<Write<P>>>): Log<P> {
    if batches == [] then log
    else
      var n := |batches| - 1;
      var before, live := After(log, batches[..n]), Live(batches[n]);
      if Verdict(before.streams, batches[n]).Ok? then Applied(before, live, |live|) else before
  }

  /** Streams only grow, and every history keeps its numbers. */
  lemma {:induction false} HistoryOnlyGrows<P(!new)>(log: Log<P>, batches: seq<seq<Write<P>>>, k: Key)
    requires WellNumbered(log)
    ensures StreamOf(log.streams, k) <= StreamOf(After(log, batches).streams, k) && WellNumbered(After(log, batches))
  {
    if batches != [] {
      var n := |batches| - 1;
      HistoryOnlyGrows(log, batches[..n], k);
      var before := After(log, batches[..n]);
      if Verdict(before.streams, batches[n]).Ok? {
        AcceptedBatchIsExact(before, batches[n], k);
        AppliedKeepsNumbers(before, Live(batches[n]), |Live(batches[n])|);
      }
    }
  }

  /** Compare-and-swap by length: a batch that expects what a caller loaded is
      accepted only while the stream still is what the caller loaded, whatever
      was appended in between. */
  lemma AcceptedMeansUnchanged<P(!new)>(log: Log<P>, batches: seq<seq<Write<P>>>, writes: seq<Write<P>>, i: nat)
    requires WellNumbered(log) && i < |Live(writes)|
    requires Live(writes)[i].expectedSeq == |StreamOf(log.streams, Live(writes)[i].key)|
    requires Verdict(After(log, batches).streams, writes).Ok?
    ensures StreamOf(After(log, batches).streams, Live(writes)[i].key) == StreamOf(log.streams, Live(writes)[i].key)
  {
    HistoryOnlyGrows(log, batches, Live(writes)[i].key);
    AcceptedBatchIsExact(After(log, batches), writes, Live(writes)[i].key);
  }
}
