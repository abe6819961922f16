/**
 The projection that folds the event stream into the read models. `Mutate` is the effect of
 one event on the tables, `ApplyOnce` the same behind the applied-event log, in one
 transaction. The consumer class performs these updates in place.
 */
module Projection {
  import opened Contracts
  import opened EventStore

  datatype Status =
    | Pending | PaymentPending | PaymentApproved | PaymentDeclinedStatus | InventoryPending | InventoryReservedStatus
    | InventoryFailed | FraudPending | FraudApprovedStatus | FraudRejectedStatus | ShippingPending | ShippingCreated
    | CompletedStatus | CancelledStatus | FailedStatus

  datatype ReasonText = Given(text: Id) | Composed(failure: Option<FailureReason>)

  datatype OrderRow = OrderRow(userId: Id, status: Status, amount: real, items: seq<Item>,
                               paymentId: Option<Id>, reservationId: Option<Id>, fraudCheckId: Option<Id>,
                               shipmentId: Option<Id>, tracking: Option<Id>, failureReason: Option<ReasonText>,
                               createdAt: nat, updatedAt: nat)

  datatype PaymentStatus = AUTHORIZED | REFUNDED

  datatype PaymentRow = PaymentRow(order: Id, userId: Id, amount: real, status: PaymentStatus, authCode: Id,
                                   refundId: Option<Id>, createdAt: nat, updatedAt: nat)

  datatype ShipmentRow = ShipmentRow(order: Id, tracking: Id, estimate: Id, createdAt: nat, updatedAt: nat)

  datatype Stock = Stock(total: int, reserved: int, available: int)

  /** The four read models and the applied-event log (event id to aggregate). */
  datatype Tables = Tables(orders: map<Id, OrderRow>, payments: map<Id, PaymentRow>, stock: map<Id, Stock>,
                           shipments: map<Id, ShipmentRow>, applied: map<Id, Id>)

  // ----------------------------------------------------------------------------- one event

  /** `item.quantity || 1`. */
  function Quantity(item: Item): nat {
    if item.quantity == 0 then 1 else item.quantity
  }

  function Max0(x: int): int { if x < 0 then 0 else x }

  function ReserveItem(stock: map<Id, Stock>, item: Item): map<Id, Stock> {
    if item.sku !in stock then stock
    else
      var s := stock[item.sku];
      stock[item.sku := s.(reserved := s.reserved + Quantity(item), available := Max0(s.available - Quantity(item)))]
  }

  function ReleaseItem(stock: map<Id, Stock>, item: Item): map<Id, Stock> {
    if item.sku !in stock then stock
    else
      var s := stock[item.sku];
      stock[item.sku := s.(reserved := Max0(s.reserved - Quantity(item)), available := s.available + Quantity(item))]
  }

  function ReserveAll(stock: map<Id, Stock>, items: seq<Item>): map<Id, Stock>
    decreases |items|
  {
    if items == [] then stock else ReserveItem(ReserveAll(stock, items[..|items| - 1]), items[|items| - 1])
  }

  function ReleaseAll(stock: map<Id, Stock>, items: seq<Item>): map<Id, Stock>
    decreases |items|
  {
    if items == [] then stock else ReleaseItem(ReleaseAll(stock, items[..|items| - 1]), items[|items| - 1])
  }

  /** What an event does to the row of its own order. */
  function UpdatedOrder(r: OrderRow, e: Envelope): OrderRow {
    match e.body
    case OrderCreated(_, amount, items) => r.(status := Pending, amount := amount, items := items, updatedAt := e.at)
    case PaymentRequested(_, _) => r.(status := PaymentPending, updatedAt := e.at)
    case PaymentAuthorized(payment, _, _, _) =>
      r.(status := PaymentApproved, paymentId := Some(payment), updatedAt := e.at)
    case PaymentRejected(why) =>
      r.(status := PaymentDeclinedStatus, failureReason := Some(Given(why)), updatedAt := e.at)
    case InventoryReservationRequested(_) => r.(status := InventoryPending, updatedAt := e.at)
    case InventoryReserved(reservation, _) =>
      r.(status := InventoryReservedStatus, reservationId := Some(reservation), updatedAt := e.at)
    case InventoryReservationFailed(_, why) =>
      r.(status := InventoryFailed, failureReason := Some(Given(why)), updatedAt := e.at)
    case FraudCheckRequested(_, _, _) => r.(status := FraudPending, updatedAt := e.at)
    case FraudApproved(check) => r.(status := FraudApprovedStatus, fraudCheckId := Some(check), updatedAt := e.at)
    case FraudRejected(_, why) =>
      r.(status := FraudRejectedStatus, failureReason := Some(Given(why)), updatedAt := e.at)
    case ShipmentRequested(_, _) => r.(status := ShippingPending, updatedAt := e.at)
    case ShipmentCreated(shipment, tracking, _) =>
      r.(status := ShippingCreated, shipmentId := Some(shipment), tracking := Some(tracking), updatedAt := e.at)
    case OrderCompleted(_, _, _, _, _) => r.(status := CompletedStatus, updatedAt := e.at)
    case OrderCancelled(_, cause, _) =>
      r.(status := CancelledStatus, failureReason := Some(Composed(cause)), updatedAt := e.at)
    case OrderFailed(_, failure) =>
      r.(status := FailedStatus, failureReason := Some(Composed(Some(failure))), updatedAt := e.at)
    case _ => r
  }

  function NewOrderRow(e: Envelope): OrderRow
    requires e.body.OrderCreated?
  {
    OrderRow(e.body.userId, Pending, e.body.amount, e.body.items, None, None, None, None, None, None, e.at, e.at)
  }

  function OrdersAfter(orders: map<Id, OrderRow>, e: Envelope): map<Id, OrderRow> {
    if e.aggregate in orders then orders[e.aggregate := UpdatedOrder(orders[e.aggregate], e)]
    else if e.body.OrderCreated? then orders[e.aggregate := NewOrderRow(e)]
    else orders
  }

  /** Authorisation upserts by payment id; a refund updates every row of the order. */
  function PaymentsAfter(payments: map<Id, PaymentRow>, e: Envelope): map<Id, PaymentRow> {
    match e.body
    case PaymentAuthorized(p, user, amount, code) =>
      if p in payments then payments[p := payments[p].(status := AUTHORIZED, updatedAt := e.at)]
      else payments[p := PaymentRow(e.aggregate, user, amount, AUTHORIZED, code, None, e.at, e.at)]
    case PaymentRefunded(refund, _, _) =>
      map p | p in payments :: if payments[p].order == e.aggregate
                               then payments[p].(status := REFUNDED, refundId := Some(refund), updatedAt := e.at)
                               else payments[p]
    case _ => payments
  }

  function ShipmentsAfter(shipments: map<Id, ShipmentRow>, e: Envelope): map<Id, ShipmentRow> {
    match e.body
    case ShipmentCreated(s, tracking, estimate) =>
      if s in shipments then shipments[s := shipments[s].(updatedAt := e.at)]
      else shipments[s := ShipmentRow(e.aggregate, tracking, estimate, e.at, e.at)]
    case _ => shipments
  }

  function StockAfter(stock: map<Id, Stock>, e: Envelope): map<Id, Stock> {
    match e.body
    case InventoryReserved(_, items) => ReserveAll(stock, items)
    case InventoryReleased(_, items) => ReleaseAll(stock, items)
    case _ => stock
  }

  /** The effect of one event on the read models. */
  function Mutate(t: Tables, e: Envelope): Tables {
    Tables(OrdersAfter(t.orders, e), PaymentsAfter(t.payments, e), StockAfter(t.stock, e),
           ShipmentsAfter(t.shipments, e), t.applied)
  }

  /** One committed transaction of `applyHistoricalEvent`. */
  function ApplyOnce(t: Tables, e: Envelope): Tables {
    if e.id in t.applied then t else Mutate(t, e).(applied := t.applied[e.id := e.aggregate])
  }

  function MutateAll(t: Tables, es: seq<Envelope>): Tables
    decreases |es|
  {
    if es == [] then t else Mutate(MutateAll(t, es[..|es| - 1]), es[|es| - 1])
  }

  function ApplyAll(t: Tables, es: seq<Envelope>): Tables
    decreases |es|
  {
    if es == [] then t else ApplyOnce(ApplyAll(t, es[..|es| - 1]), es[|es| - 1])
  }

  // -------------------------------------------------------------------- the consumer itself

  class ReadModels {
    var orders: map<Id, OrderRow>
    var payments: map<Id, PaymentRow>
    var stock: map<Id, Stock>
    var shipments: map<Id, ShipmentRow>
    var applied: map<Id, Id>

    function Contents(): Tables
      reads this
    {
      Tables(orders, payments, stock, shipments, applied)
    }

    constructor (seed: map<Id, Stock>)
      ensures Contents() == Tables(map[], map[], seed, map[], map[])
    {
      orders := map[];
      payments := map[];
      stock := seed;
      shipments := map[];
      applied := map[];
    }

    /** The loop over the items of a reservation or a release, up to the statement that throws. */
    method UpdateStock(items: seq<Item>, reserve: bool, failsAt: nat) returns (threw: bool)
      modifies this`stock
      ensures threw <==> failsAt < |items|
      ensures var done := if threw then items[..failsAt] else items;
              stock == if reserve then ReserveAll(old(stock), done) else ReleaseAll(old(stock), done)
    {
      var i := 0;
      while i < |items|
        invariant 0 <= i <= |items| && i <= failsAt
        invariant stock == if reserve then ReserveAll(old(stock), items[..i]) else ReleaseAll(old(stock), items[..i])
      {
        if i == failsAt {
          return true;
        }
        assert items[..i + 1][..i] == items[..i];
        if reserve {
          stock := ReserveItem(stock, items[i]);
        } else {
          stock := ReleaseItem(stock, items[i]);
        }
        i := i + 1;
      }
      assert items[..i] == items;
      return false;
    }

    method Rollback(t: Tables)
      modifies this
      ensures Contents() == t
    {
      orders, payments, stock, shipments, applied := t.orders, t.payments, t.stock, t.shipments, t.applied;
    }

    /** The statements of one event before the commit, up to the one that throws. */
    method ExecuteInTx(e: Envelope, failsAt: nat) returns (threw: bool)
      modifies this
      ensures threw <==> failsAt < Statements(old(Contents()), e) - 1
      ensures !threw ==> Contents() == ApplyOnce(old(Contents()), e)
    {
      hide UpdatedOrder, PaymentsAfter, ShipmentsAfter, ReserveAll, ReleaseAll, NewOrderRow;
      NoItemsNoChange(stock);
      if failsAt == 0 {
        return true;
      }
      if e.id in applied {
        return false;
      }
      if e.aggregate in orders {
        orders := orders[e.aggregate := UpdatedOrder(orders[e.aggregate], e)];
      } else if e.body.OrderCreated? {
        orders := orders[e.aggregate := NewOrderRow(e)];
      }
      if failsAt == 1 {
        return true;
      }
      payments := PaymentsAfter(payments, e);
      shipments := ShipmentsAfter(shipments, e);
      if failsAt == 2 {
        return true;
      }
      threw := UpdateStock(StockItems(e), e.body.InventoryReserved?, failsAt - 3);
      if threw || failsAt == 3 + |StockItems(e)| {
        return true;
      }
      applied := applied[e.id := e.aggregate];
    }

    /** One call of `applyHistoricalEvent`, statement by statement inside its transaction; the
        last statement is the commit, and `lands` says whether a commit that throws took
        effect nevertheless. Whichever statement throws, the caller sees the error; the tables
        are as before or, if such a commit landed, the event has been applied exactly once,
        as it has if nothing throws. */
    method ApplyHistoricalEvent(e: Envelope, failsAt: nat, lands: bool) returns (threw: bool)
      modifies this
      ensures threw <==> failsAt < Statements(old(Contents()), e)
      ensures var committed := failsAt >= Statements(old(Contents()), e) - if lands then 1 else 0;
              Contents() == if committed then ApplyOnce(old(Contents()), e) else old(Contents())
    {
      hide ApplyOnce;
      var before := Contents();
      threw := ExecuteInTx(e, failsAt);
      if threw {
        Rollback(before);
      } else if failsAt == Statements(before, e) - 1 {
        if !lands {
          Rollback(before);
        }
        threw := true;
      }
    }
  }

  lemma NoItemsNoChange(stock: map<Id, Stock>)
    ensures ReleaseAll(stock, []) == stock
  {
  }

  /** The items whose stock an event moves. */
  function StockItems(e: Envelope): seq<Item> {
    if e.body.InventoryReserved? || e.body.InventoryReleased? then e.body.items else []
  }

  /** How many statements applying an event takes: the look-up in the log, the order row, the
      payment or shipment row, one per item of stock, the entry in the log, and the commit. */
  function Statements(t: Tables, e: Envelope): nat {
    if e.id in t.applied then 2 else 5 + |StockItems(e)|
  }

  // ----------------------------------------------------------------- exactly-once projection

  /** A delivery to the projection, and whether its transaction commits. */
  datatype Delivery = Delivery(event: Envelope, commits: bool)

  function Deliver(t: Tables, d: Delivery): Tables {
    if d.commits then ApplyOnce(t, d.event) else t
  }

  function DeliverAll(t: Tables, ds: seq<Delivery>): Tables
    decreases |ds|
  {
    if ds == [] then t else Deliver(DeliverAll(t, ds[..|ds| - 1]), ds[|ds| - 1])
  }

  /** The committed events, each at its first commit. */
  function FirstCommits(ds: seq<Delivery>): seq<Envelope>
    decreases |ds|
  {
    if ds == [] then []
    else
      var n := |ds| - 1;
      var firsts := FirstCommits(ds[..n]);
      if ds[n].commits && !HasId(firsts, ds[n].event.id) then firsts + [ds[n].event] else firsts
  }

  /** The tables without the applied log. */
  ghost predicate SameModels(a: Tables, b: Tables) {
    a.orders == b.orders && a.payments == b.payments && a.stock == b.stock && a.shipments == b.shipments
  }

  ghost predicate DistinctIds(es: seq<Envelope>) {
    forall i, j :: 0 <= i < j < |es| ==> es[i].id != es[j].id
  }

  lemma MutateModels(a: Tables, b: Tables, e: Envelope)
    requires SameModels(a, b)
    ensures SameModels(Mutate(a, e), Mutate(b, e))
  {
  }

  /** Exactly once: however often events are delivered, rolled back and retried, all four
      read models equal the plain fold of the distinct committed events in the order of
      their first commit, and the applied log holds exactly those events' ids. */
  lemma {:induction false} ExactlyOnce(t: Tables, ds: seq<Delivery>)
    requires t.applied == map[]
    ensures SameModels(DeliverAll(t, ds), MutateAll(t, FirstCommits(ds)))
    ensures DistinctIds(FirstCommits(ds))
    ensures forall id :: id in DeliverAll(t, ds).applied <==> HasId(FirstCommits(ds), id)
    decreases |ds|
  {
    hide Mutate;
    if ds == [] {
    } else {
      var n := |ds| - 1;
      ExactlyOnce(t, ds[..n]);
      var before, firsts, e := DeliverAll(t, ds[..n]), FirstCommits(ds[..n]), ds[n].event;
      if ds[n].commits && !HasId(firsts, e.id) {
        MutateModels(before, MutateAll(t, firsts), e);
        assert (firsts + [e])[..|firsts|] == firsts;
        forall id
          ensures HasId(firsts + [e], id) <==> HasId(firsts, id) || id == e.id
        {
          HasIdSnoc(firsts, e, id);
        }
        assert forall id :: id in Mutate(before, e).applied <==> id in before.applied by { MutateKeepsLog(before, e); }
      }
    }
  }

  lemma MutateKeepsLog(t: Tables, e: Envelope)
    ensures Mutate(t, e).applied == t.applied
  {
  }

  lemma HasIdSnoc(es: seq<Envelope>, e: Envelope, id: Id)
    ensures HasId(es + [e], id) <==> HasId(es, id) || id == e.id
  {
    if HasId(es, id) {
      var i :| 0 <= i < |es| && es[i].id == id;
      assert (es + [e])[i].id == id;
    }
    if id == e.id {
      assert (es + [e])[|es|].id == id;
    }
  }
}
