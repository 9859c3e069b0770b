/** The projector itself: one read model, events of every aggregate delivered in
    any interleaving (ruby/app/consumer/projector.rb, balance_projector.rb). */
module ReadModel {
  import opened Common
  import opened Projection
  import B = Balance
  import T = TransferStream
  import X = TransactionStream

  datatype Envelope =
    | TransactionEvent(id: Id, sequence: nat, event: X.Event, reason: Option<string>)
    | TransferEvent(id: Id, sequence: nat, fact: T.Event, reason: Option<string>, owner: Option<Id>)
    | TokenBalanceRecorded(id: Id, sequence: nat, globalSeq: nat, wallet: Option<Id>, currency: Option<string>,
        figures: B.Figures)
    | TokenMinted(id: Id)
    | Unlisted   // an event or aggregate type no map lists

  datatype BalanceRow = BalanceRow(wallet: Id, currency: string, figures: B.Figures, lastSequence: nat,
      lastGlobalSeq: nat)

  datatype Tables = Tables(transactions: map<Id, Row<X.Top>>, transfers: map<Id, Row<TransferState>>,
      balances: map<Id, BalanceRow>)

  const Empty: Tables := Tables(map[], map[], map[])

  function Find<R>(rows: map<Id, R>, id: Id): Option<R> { if id in rows then Some(rows[id]) else None }

  function Put<R>(rows: map<Id, R>, id: Id, row: Option<R>): map<Id, R> {
    if row.Some? then rows[id := row.value] else rows
  }

  predicate WellFormed(e: Envelope) { e.TokenBalanceRecorded? ==> e.wallet.Some? && e.currency.Some? }

  function BalanceOf(e: Envelope): BalanceRow
    requires e.TokenBalanceRecorded? && WellFormed(e)
  {
    BalanceRow(e.wallet.value, e.currency.value, e.figures, e.sequence, e.globalSeq)
  }

  /** The one-statement upsert: inserted, or replaced only by a higher sequence. */
  function Upsert(rows: map<Id, BalanceRow>, e: Envelope): map<Id, BalanceRow>
    requires e.TokenBalanceRecorded? && WellFormed(e)
  {
    if e.id in rows && e.sequence <= rows[e.id].lastSequence then rows else rows[e.id := BalanceOf(e)]
  }

  function TransactionItem(e: Envelope): Item<X.Top>
    requires e.TransactionEvent?
  {
    Item(X.TopOf(e.event), e.reason, None)
  }

  function TransferItem(e: Envelope): Item<TransferState>
    requires e.TransferEvent?
  {
    Item(TransferStateOf(e.fact), e.reason, e.owner)
  }

  /** What one delivery makes of the read model. */
  function After(t: Tables, e: Envelope): Tables {
    match e
    case TransactionEvent(id, sequence, _, _) =>
      t.(transactions := Put(t.transactions, id, Project(Find(t.transactions, id), TransactionItem(e), sequence)))
    case TransferEvent(id, sequence, _, _, _) =>
      t.(transfers := Put(t.transfers, id, Project(Find(t.transfers, id), TransferItem(e), sequence)))
    case TokenBalanceRecorded(_, _, _, _, _, _) => if WellFormed(e) then t.(balances := Upsert(t.balances, e)) else t
    case _ => t
  }

  function AfterAll(log: seq<Envelope>): Tables {
    if log == [] then Empty else After(AfterAll(log[..|log| - 1]), log[|log| - 1])
  }

  datatype Outcome = Applied(changed: bool) | UnmappedEvent | MalformedMessage

  class Projector {
    var transactions: map<Id, Row<X.Top>>
    var transfers: map<Id, Row<TransferState>>
    var balances: map<Id, BalanceRow>

    ghost function Rows(): Tables
      reads this
    {
      Tables(transactions, transfers, balances)
    }

    constructor ()
      ensures Rows() == Empty
    {
      transactions, transfers, balances := map[], map[], map[];
    }

    /** Folds one delivery in, and says whether anything changed. An event with no
        mapping is refused before anything is written. */
    method Apply(e: Envelope) returns (r: Outcome)
      modifies this
      ensures Rows() == After(old(Rows()), e)
      ensures r == if e.Unlisted? then UnmappedEvent else if !WellFormed(e) then MalformedMessage
                   else Applied(Rows() != old(Rows()))
    {
      match e
      case Unlisted => r := UnmappedEvent;
      case TokenMinted(_) => r := Applied(false);
      case TokenBalanceRecorded(id, sequence, _, wallet, currency, _) =>
        if wallet.None? || currency.None? { return MalformedMessage; }
        if id in balances && sequence <= balances[id].lastSequence { return Applied(false); }
        balances := balances[id := BalanceOf(e)];
        r := Applied(true);
      case TransactionEvent(id, sequence, _, _) =>
        var row := Target(Find(transactions, id), TransactionItem(e), sequence);
        if row.Some? { transactions := transactions[id := row.value]; }
        r := Applied(row.Some?);
      case TransferEvent(id, sequence, _, _, _) =>
        var row := Target(Find(transfers, id), TransferItem(e), sequence);
        if row.Some? { transfers := transfers[id := row.value]; }
        r := Applied(row.Some?);
    }

    /** target_row, record and describe: the row to write, or none when the guard
        says the event must not be applied. */
    static method Target<S(==)>(row: Option<Row<S>>, item: Item<S>, sequence: nat) returns (written: Option<Row<S>>)
      ensures written.Some? <==> Project(row, item, sequence) != row
      ensures written.Some? ==> Project(row, item, sequence) == written
    {
      if row.None? {
        if item.state.None? { return None; }
        return Some(Row(item.state.value, item.reason, item.owner, sequence));
      }
      if sequence <= row.value.lastSequence { return None; }
      var state, reason, owner := row.value.state, row.value.reason, row.value.owner;
      if item.state.Some? { state, reason := item.state.value, item.reason; }
      if owner.None? { owner := item.owner; }
      written := Some(Row(state, reason, owner, sequence));
    }
  }

  // ---- Interleaved deliveries ----------------------------------------------

  lemma AfterTransaction(t: Tables, e: Envelope, id: Id)
    ensures Find(After(t, e).transactions, id) ==
      if e.TransactionEvent? && e.id == id then Project(Find(t.transactions, id), TransactionItem(e), e.sequence)
      else Find(t.transactions, id)
  {
  }

  lemma AfterTransfer(t: Tables, e: Envelope, id: Id)
    ensures Find(After(t, e).transfers, id) ==
      if e.TransferEvent? && e.id == id then Project(Find(t.transfers, id), TransferItem(e), e.sequence)
      else Find(t.transfers, id)
  {
  }

  /** Which of a Transaction's events the log delivers, in delivery order. */
  function OfTransaction(log: seq<Envelope>, id: Id): seq<nat>
    requires forall e :: e in log && e.TransactionEvent? ==> e.sequence > 0
  {
    if log == [] then []
    else
      var n := |log| - 1;
      var ds := OfTransaction(log[..n], id);
      if log[n].TransactionEvent? && log[n].id == id then ds + [log[n].sequence - 1] else ds
  }

  /** Every envelope naming the Transaction carries the event at its sequence. */
  predicate PublishesTransaction(log: seq<Envelope>, id: Id, items: seq<Item<X.Top>>) {
    && (forall e :: e in log && e.TransactionEvent? ==> e.sequence > 0)
    && forall e :: e in log && e.TransactionEvent? && e.id == id ==>
      e.sequence <= |items| && TransactionItem(e) == items[e.sequence - 1]
  }

  /** However the log interleaves aggregates, a row is made of its own
      aggregate's deliveries alone. */
  lemma {:induction false} TransactionRowIsItsOwn(log: seq<Envelope>, id: Id, items: seq<Item<X.Top>>)
    requires PublishesTransaction(log, id, items)
    ensures forall k :: 0 <= k < |OfTransaction(log, id)| ==> OfTransaction(log, id)[k] < |items|
    ensures Find(AfterAll(log).transactions, id) == Delivered(items, OfTransaction(log, id))
  {
    if log != [] {
      var before, e := log[..|log| - 1], log[|log| - 1];
      TransactionRowIsItsOwn(before, id, items);
      var ds, t := OfTransaction(before, id), AfterAll(before);
      AfterTransaction(t, e, id);
      assert AfterAll(log) == After(t, e);
      if e.TransactionEvent? && e.id == id {
        assert OfTransaction(log, id) == ds + [e.sequence - 1];
        DeliveredSnoc(items, ds, e.sequence - 1);
      } else {
        assert OfTransaction(log, id) == ds;
      }
    }
  }

  function OfTransfer(log: seq<Envelope>, id: Id): seq<nat>
    requires forall e :: e in log && e.TransferEvent? ==> e.sequence > 0
  {
    if log == [] then []
    else
      var n := |log| - 1;
      var ds := OfTransfer(log[..n], id);
      if log[n].TransferEvent? && log[n].id == id then ds + [log[n].sequence - 1] else ds
  }

  predicate PublishesTransfer(log: seq<Envelope>, id: Id, items: seq<Item<TransferState>>) {
    && (forall e :: e in log && e.TransferEvent? ==> e.sequence > 0)
    && forall e :: e in log && e.TransferEvent? && e.id == id ==>
      e.sequence <= |items| && TransferItem(e) == items[e.sequence - 1]
  }

  lemma {:induction false} TransferRowIsItsOwn(log: seq<Envelope>, id: Id, items: seq<Item<TransferState>>)
    requires PublishesTransfer(log, id, items)
    ensures forall k :: 0 <= k < |OfTransfer(log, id)| ==> OfTransfer(log, id)[k] < |items|
    ensures Find(AfterAll(log).transfers, id) == Delivered(items, OfTransfer(log, id))
  {
    if log != [] {
      var before, e := log[..|log| - 1], log[|log| - 1];
      TransferRowIsItsOwn(before, id, items);
      var ds, t := OfTransfer(before, id), AfterAll(before);
      AfterTransfer(t, e, id);
      assert AfterAll(log) == After(t, e);
      if e.TransferEvent? && e.id == id {
        assert OfTransfer(log, id) == ds + [e.sequence - 1];
        DeliveredSnoc(items, ds, e.sequence - 1);
      } else {
        assert OfTransfer(log, id) == ds;
      }
    }
  }

  /** Every envelope of the Transaction carries the event at its sequence, with the
      reason that event gave. */
  predicate CarriesTransaction(log: seq<Envelope>, id: Id, es: X.Stream, reasons: seq<Option<string>>) {
    && |reasons| == |es| && (forall e :: e in log && e.TransactionEvent? ==> e.sequence > 0)
    && forall e :: e in log && e.TransactionEvent? && e.id == id ==>
      e.sequence <= |es| && e.event == es[e.sequence - 1] && e.reason == reasons[e.sequence - 1]
  }

  /** End to end for a Transaction: its row says what Go's fold of the longest
      prefix delivered says, and why. */
  lemma TransactionTableIsGosFold(log: seq<Envelope>, id: Id, es: X.Stream, reasons: seq<Option<string>>)
    requires X.Lawful(es) && CarriesTransaction(log, id, es, reasons)
    requires InOrder(OfTransaction(log, id)) && OfTransaction(log, id) != []
    ensures var h := High(OfTransaction(log, id));
      && h <= |es| && id in AfterAll(log).transactions
      && AfterAll(log).transactions[id].state == X.TopLevelState(es[..h])
      && LastReason(es, reasons, h, AfterAll(log).transactions[id].reason)
  {
    TransactionRowIsItsOwn(log, id, TransactionItems(es, reasons));
    TransactionRowIsGosFold(es, reasons, OfTransaction(log, id));
  }

  /** A Transfer's likewise, its owner stated on the first. */
  predicate CarriesTransfer(log: seq<Envelope>, id: Id, es: T.Stream, reasons: seq<Option<string>>, owner: Option<Id>) {
    && |reasons| == |es| && (forall e :: e in log && e.TransferEvent? ==> e.sequence > 0)
    && forall e :: e in log && e.TransferEvent? && e.id == id ==>
      && e.sequence <= |es| && e.fact == es[e.sequence - 1] && e.reason == reasons[e.sequence - 1]
      && e.owner == if e.sequence == 1 then owner else None
  }

  /** And for a Transfer, with the Transaction that owns it. */
  lemma TransferTableIsGosFold(log: seq<Envelope>, id: Id, es: T.Stream, reasons: seq<Option<string>>,
      owner: Option<Id>)
    requires T.Lawful(es) && CarriesTransfer(log, id, es, reasons, owner)
    requires InOrder(OfTransfer(log, id)) && OfTransfer(log, id) != []
    ensures var h := High(OfTransfer(log, id));
      && h <= |es| && id in AfterAll(log).transfers
      && AfterAll(log).transfers[id].state == GosTransferState(es[..h])
      && AfterAll(log).transfers[id].owner == owner
  {
    TransferRowIsItsOwn(log, id, TransferItems(es, reasons, owner));
    TransferRowIsGosFold(es, reasons, owner, OfTransfer(log, id));
  }

  // ---- Balances ------------------------------------------------------------

  predicate IsBalance(e: Envelope, id: Id) { e.TokenBalanceRecorded? && WellFormed(e) && e.id == id }

  /** For any duplicated or reordered delivery, a Token's row is the recording of
      the highest sequence delivered. */
  lemma {:induction false} BalanceRowIsHighest(log: seq<Envelope>, id: Id)
    ensures id in AfterAll(log).balances ==>
      exists e :: e in log && IsBalance(e, id) && AfterAll(log).balances[id] == BalanceOf(e)
    ensures forall e :: e in log && IsBalance(e, id) ==>
      id in AfterAll(log).balances && e.sequence <= AfterAll(log).balances[id].lastSequence
  {
    if log != [] {
      var n := |log| - 1;
      BalanceRowIsHighest(log[..n], id);
      assert log == log[..n] + [log[n]];
    }
  }

  /** The Token's stream as published: TokenMinted first, then its recordings. */
  predicate Publishes(log: seq<Envelope>, id: Id, w: B.World) {
    forall e :: e in log && IsBalance(e, id) ==>
      2 <= e.sequence < |w.stream| + 2 && e.figures == w.stream[e.sequence - 2]
  }

  /** End to end: the row holds figures the ledger account really had, read no
      earlier than those of any other recording delivered. */
  lemma BalanceRowIsNewest(log: seq<Envelope>, id: Id, w: B.World, e: Envelope)
    requires B.Reachable(w) && Publishes(log, id, w) && e in log && IsBalance(e, id)
    ensures |w.readAt| == |w.stream| && id in AfterAll(log).balances
    ensures var row := AfterAll(log).balances[id];
      && 2 <= e.sequence <= row.lastSequence < |w.stream| + 2
      && w.readAt[e.sequence - 2] <= w.readAt[row.lastSequence - 2] < |w.history|
      && row.figures == w.history[w.readAt[row.lastSequence - 2]]
  {
    BalanceRowIsHighest(log, id);
    B.ReachableInv(w);
    var row := AfterAll(log).balances[id];
    var top :| top in log && IsBalance(top, id) && row == BalanceOf(top);
    if e.sequence < top.sequence { B.RecordingsAreInOrder(w, e.sequence - 2, top.sequence - 2); }
  }
}
