/** Ruby's read model: rows folded from at-least-once deliveries under a
    monotonic guard (ruby/app/consumer/projector.rb, balance_projector.rb,
    event_state_map.rb). */
module Projection {
  import opened Common
  import T = TransferStream
  import X = TransactionStream

  // ---- One aggregate's row -------------------------------------------------

  /** A published event as the projector sees it: the state it names, if any,
      the reason it carries and the Transaction it says owns the aggregate. */
  datatype Item<S> = Item(state: Option<S>, reason: Option<string>, owner: Option<Id>)

  datatype Row<S> = Row(state: S, reason: Option<string>, owner: Option<Id>, lastSequence: nat)

  function OrElse<A>(a: Option<A>, b: Option<A>): Option<A> { if a.Some? then a else b }

  /** target_row and record: only an event naming a state opens a row, and only
      one above the row's mark is written to it. */
  function Project<S>(row: Option<Row<S>>, item: Item<S>, sequence: nat): Option<Row<S>> {
    match row
    case None => if item.state.Some? then Some(Row(item.state.value, item.reason, item.owner, sequence)) else None
    case Some(r) =>
      if sequence <= r.lastSequence then row
      else if item.state.Some? then Some(Row(item.state.value, item.reason, OrElse(r.owner, item.owner), sequence))
      else Some(Row(r.state, r.reason, OrElse(r.owner, item.owner), sequence))
  }

  /** The row after deliveries of a stream's events, by index. */
  function Delivered<S>(items: seq<Item<S>>, ds: seq<nat>): Option<Row<S>>
    requires forall k :: 0 <= k < |ds| ==> ds[k] < |items|
  {
    if ds == [] then None
    else var n := |ds| - 1; Project(Delivered(items, ds[..n]), items[ds[n]], ds[n] + 1)
  }

  lemma DeliveredSnoc<S>(items: seq<Item<S>>, ds: seq<nat>, d: nat)
    requires (forall k :: 0 <= k < |ds| ==> ds[k] < |items|) && d < |items|
    ensures Delivered(items, ds + [d]) == Project(Delivered(items, ds), items[d], d + 1)
  {
    assert (ds + [d])[..|ds|] == ds;
  }

  /** How many of the stream's events have been delivered, without a gap. */
  function High(ds: seq<nat>): nat {
    if ds == [] then 0
    else var n := |ds| - 1; if ds[n] + 1 > High(ds[..n]) then ds[n] + 1 else High(ds[..n])
  }

  /** At least once and in order, though it may rewind at any point. */
  predicate InOrder(ds: seq<nat>) { forall k :: 0 <= k < |ds| ==> ds[k] <= High(ds[..k]) }

  /** The last state a stream names, with the reason given for it. */
  function Fold<S>(items: seq<Item<S>>): Option<(S, Option<string>)> {
    if items == [] then None
    else
      var last := items[|items| - 1];
      if last.state.Some? then Some((last.state.value, last.reason)) else Fold(items[..|items| - 1])
  }

  /** The row of a stream delivered once, event by event. */
  function RowOf<S>(items: seq<Item<S>>): Option<Row<S>> {
    if items == [] then None else Project(RowOf(items[..|items| - 1]), items[|items| - 1], |items|)
  }

  lemma {:induction false} RowIsFold<S>(items: seq<Item<S>>)
    ensures RowOf(items).Some? <==> Fold(items).Some?
    ensures RowOf(items).Some? ==> RowOf(items).value.lastSequence == |items|
    ensures RowOf(items).Some? ==> (RowOf(items).value.state, RowOf(items).value.reason) == Fold(items).value
  {
    if items != [] { RowIsFold(items[..|items| - 1]); }
  }

  /** What a row shows is what the last event to name a state said. */
  lemma {:induction false} FoldIsLast<S>(items: seq<Item<S>>) returns (k: nat)
    requires Fold(items).Some?
    ensures k < |items| && items[k].state.Some? && Fold(items).value == (items[k].state.value, items[k].reason)
    ensures forall j :: k < j < |items| ==> items[j].state.None?
  {
    var n := |items| - 1;
    if items[n].state.Some? { k := n; } else { k := FoldIsLast(items[..n]); }
  }

  /** An event at or below the mark changes nothing. */
  lemma {:induction false} RewindIsIgnored<S>(items: seq<Item<S>>, i: nat)
    requires i < |items|
    ensures Project(RowOf(items), items[i], i + 1) == RowOf(items)
  {
    RowIsFold(items);
    if RowOf(items).None? { NothingNamed(items, i); }
  }

  lemma {:induction false} NothingNamed<S>(items: seq<Item<S>>, i: nat)
    requires i < |items| && Fold(items).None?
    ensures items[i].state.None?
  {
    if i < |items| - 1 { NothingNamed(items[..|items| - 1], i); }
  }

  lemma {:induction false} HighFits(ds: seq<nat>, n: nat)
    requires forall k :: 0 <= k < |ds| ==> ds[k] < n
    ensures High(ds) <= n
  {
    if ds != [] { HighFits(ds[..|ds| - 1], n); }
  }

  lemma InOrderFront(ds: seq<nat>)
    requires InOrder(ds) && ds != []
    ensures InOrder(ds[..|ds| - 1]) && ds[|ds| - 1] <= High(ds[..|ds| - 1])
  {
    var n := |ds| - 1;
    forall k | 0 <= k < n ensures ds[..n][k] <= High(ds[..n][..k]) { assert ds[..n][..k] == ds[..k]; }
  }

  /** Whatever was redelivered, the row is that of the longest prefix delivered. */
  lemma {:induction false} DeliveredIsPrefix<S>(items: seq<Item<S>>, ds: seq<nat>)
    requires InOrder(ds) && forall k :: 0 <= k < |ds| ==> ds[k] < |items|
    ensures High(ds) <= |items| && Delivered(items, ds) == RowOf(items[..High(ds)])
  {
    HighFits(ds, |items|);
    if ds != [] {
      var n := |ds| - 1;
      InOrderFront(ds);
      DeliveredIsPrefix(items, ds[..n]);
      var h := High(ds[..n]);
      if ds[n] < h {
        RewindIsIgnored(items[..h], ds[n]);
      } else {
        assert items[..h + 1][..h] == items[..h];
      }
    }
  }

  // ---- EventStateMap -------------------------------------------------------

  function TransactionItems(es: X.Stream, reasons: seq<Option<string>>): (out: seq<Item<X.Top>>)
    requires |reasons| == |es|
    ensures |out| == |es| && forall i :: 0 <= i < |es| ==> out[i] == Item(X.TopOf(es[i]), reasons[i], None)
  {
    seq(|es|, i requires 0 <= i < |es| => Item(X.TopOf(es[i]), reasons[i], None))
  }

  /** A Transfer's state in the read model. */
  datatype TransferState = Rejected | In(phase: T.Phase)

  function TransferStateOf(e: T.Event): Option<TransferState> {
    if e.RequestRejected? then Some(Rejected)
    else match T.PhaseOf(e) { case Some(p) => Some(In(p)) case None => None }
  }

  function TransferItems(es: T.Stream, reasons: seq<Option<string>>, owner: Option<Id>): (out: seq<Item<TransferState>>)
    requires |reasons| == |es|
    ensures |out| == |es|
    ensures forall i :: 0 <= i < |es| ==>
      out[i] == Item(TransferStateOf(es[i]), reasons[i], if i == 0 then owner else None)
  {
    seq(|es|, i requires 0 <= i < |es| => Item(TransferStateOf(es[i]), reasons[i], if i == 0 then owner else None))
  }

  lemma {:induction false} TransactionFold(es: X.Stream, items: seq<Item<X.Top>>, n: nat)
    requires n <= |es| == |items| && forall i :: 0 <= i < |es| ==> items[i].state == X.TopOf(es[i])
    ensures match Fold(items[..n]) {
      case None => X.TopLevelState(es[..n]) == X.NoState
      case Some(s) => X.TopLevelState(es[..n]) == s.0
    }
  {
    if n > 0 {
      TransactionFold(es, items, n - 1);
      assert items[..n][..n - 1] == items[..n - 1] && es[..n][..n - 1] == es[..n - 1];
    }
  }

  /** The reason given by the last of the first `h` events to name a state. */
  ghost predicate LastReason(es: X.Stream, reasons: seq<Option<string>>, h: nat, reason: Option<string>)
    requires h <= |es| == |reasons|
  {
    exists k :: 0 <= k < h && X.TopOf(es[k]).Some? && reason == reasons[k] &&
      forall j :: k < j < h ==> X.TopOf(es[j]).None?
  }

  /** The state of a Transaction's row is Go's own fold of the longest prefix
      delivered, with the reason given for it; the row exists once anything was. */
  lemma TransactionRowIsGosFold(es: X.Stream, reasons: seq<Option<string>>, ds: seq<nat>)
    requires X.Lawful(es) && |reasons| == |es| && InOrder(ds) && ds != [] && forall k :: 0 <= k < |ds| ==> ds[k] < |es|
    ensures var row := Delivered(TransactionItems(es, reasons), ds);
      && 0 < High(ds) <= |es| && row.Some? && row.value.state == X.TopLevelState(es[..High(ds)])
      && row.value.lastSequence == High(ds) && LastReason(es, reasons, High(ds), row.value.reason)
  {
    var items, h := TransactionItems(es, reasons), High(ds);
    DeliveredIsPrefix(items, ds);
    RowIsFold(items[..h]);
    X.LawfulAt(es, h);
    X.OpensWithSpec(es[..h]);
    TransactionFold(es, items, h);
    var k := FoldIsLast(items[..h]);
    assert forall j :: 0 <= j < h ==> items[..h][j].state == X.TopOf(es[j]);
  }

  /** What Go makes of a Transfer: rejected if its request was, else its phase. */
  function GosTransferState(es: T.Stream): TransferState {
    if T.RejectedRequest(es) then Rejected else In(T.CurrentPhase(es))
  }

  lemma {:induction false} TransferFold(es: T.Stream, items: seq<Item<TransferState>>, n: nat)
    requires T.Lawful(es) && 0 < n <= |es| == |items| &&
      forall i :: 0 <= i < |es| ==> items[i].state == TransferStateOf(es[i])
    ensures Fold(items[..n]).Some? && Fold(items[..n]).value.0 == GosTransferState(es[..n])
  {
    assert items[..n][..n - 1] == items[..n - 1] && es[..n] == es[..n - 1] + [es[n - 1]];
    T.LawfulPrefix(es, n);
    T.Snoc(es[..n - 1], es[n - 1]);
    assert T.MayFollow(es[..n - 1], es[n - 1]);
    if n > 1 {
      TransferFold(es, items, n - 1);
      RefusalsChangeNothing(es, n - 1);
    }
  }

  /** Nothing that follows a rejected request names a state. */
  lemma RefusalsChangeNothing(es: T.Stream, n: nat)
    requires T.Lawful(es) && 0 < n < |es|
    ensures T.RejectedRequest(es[..n + 1]) == T.RejectedRequest(es[..n])
    ensures !es[n].RequestRejected? && (T.RejectedRequest(es[..n]) ==> !T.Advances(es[n]))
  {
    assert T.MayFollow(es[..n], es[n]);
    if T.RejectedRequest(es[..n]) {
      T.LawfulPrefix(es, n);
      T.RejectedStaysRejected(es[..n]);
    }
  }

  /** A Transfer's row agrees with Go on the longest prefix delivered: a rejected
      request stays rejected whatever refusals are recorded after it, and the
      owner stated on the opening event is kept. */
  lemma TransferRowIsGosFold(es: T.Stream, reasons: seq<Option<string>>, owner: Option<Id>, ds: seq<nat>)
    requires T.Lawful(es) && |reasons| == |es| && InOrder(ds) && ds != [] && forall k :: 0 <= k < |ds| ==> ds[k] < |es|
    ensures var row := Delivered(TransferItems(es, reasons, owner), ds);
      && 0 < High(ds) <= |es| && row.Some? && row.value.state == GosTransferState(es[..High(ds)])
      && row.value.owner == owner && row.value.lastSequence == High(ds)
  {
    var items, h := TransferItems(es, reasons, owner), High(ds);
    DeliveredIsPrefix(items, ds);
    RowIsFold(items[..h]);
    TransferFold(es, items, h);
    OpeningNamesState(es);
    OwnerIsKept(items, owner, h);
  }

  lemma OpeningNamesState(es: T.Stream)
    requires T.Lawful(es) && es != []
    ensures TransferStateOf(es[0]).Some?
  {
    assert T.MayFollow(es[..0], es[0]) && es[..0] == [];
  }

  lemma {:induction false} OwnerIsKept(items: seq<Item<TransferState>>, owner: Option<Id>, n: nat)
    requires 0 < n <= |items| && items[0].state.Some? && items[0].owner == owner
    requires forall i :: 0 < i < |items| ==> items[i].owner.None?
    ensures RowOf(items[..n]).Some? && RowOf(items[..n]).value.owner == owner
  {
    assert items[..n][..n - 1] == items[..n - 1];
    if n > 1 { OwnerIsKept(items, owner, n - 1); }
  }
}
