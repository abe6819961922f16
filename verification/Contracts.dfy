/**
 The vocabulary shared by every protocol of the platform: identifiers, line items,
 the topics of the message log and the domain events that travel over them.
 Identifiers, reasons and timestamps are opaque tokens, so natural numbers stand for them.
 */
module Contracts {

  datatype Option<+T> = None | Some(value: T)

  type Id = nat

  predicate NoRepeats<T(==)>(xs: seq<T>) {
    forall i, j :: 0 <= i < j < |xs| ==> xs[i] != xs[j]
  }

  datatype Item = Item(sku: Id, quantity: nat)

  datatype Topic = Orders | Payments | Inventory | Fraud | Shipping | Notifications

  /** The two compensating actions the saga waits for. */
  datatype Action = PAYMENT_REFUND | INVENTORY_RELEASE

  /** The text stored in `failure_reason`, by the step that wrote it. */
  datatype FailureReason =
    | PaymentDeclined(why: Id)
    | OutOfStock(why: Id)
    | FraudRisk(why: Id)
    | DispatchFailed(why: Id)

  /** Every domain event, with the part of its payload that some component reads. */
  datatype Message =
    | OrderCreated(userId: Id, amount: real, items: seq<Item>)
    | PaymentRequested(userId: Id, amount: real)
    | PaymentAuthorized(paymentId: Id, userId: Id, amount: real, authCode: Id)
    | PaymentRejected(reason: Id)
    | PaymentRefundRequested(refundOf: Option<Id>, amount: real)
    | PaymentRefunded(refundId: Id, refundOf: Option<Id>, amount: real)
    | InventoryReservationRequested(items: seq<Item>)
    | InventoryReserved(reservationId: Id, items: seq<Item>)
    | InventoryReservationFailed(items: seq<Item>, reason: Id)
    | InventoryReleased(releaseOf: Option<Id>, items: seq<Item>)
    | FraudCheckRequested(userId: Id, amount: real, payment: Option<Id>)
    | FraudApproved(fraudCheckId: Id)
    | FraudRejected(fraudCheckId: Id, reason: Id)
    | ShipmentRequested(userId: Id, items: seq<Item>)
    | ShipmentCreated(shipmentId: Id, tracking: Id, estimate: Id)
    | ShipmentFailed(reason: Id)
    | OrderCompleted(userId: Id, amount: real, payment: Option<Id>, shipmentId: Id, tracking: Id)
    | OrderCancelled(userId: Id, cause: Option<FailureReason>, compensated: seq<Action>)
    | OrderFailed(userId: Id, failure: FailureReason)
    | NotificationRequested(userId: Id, tracking: Id)

  function TopicOf(m: Message): Topic {
    match m
    case OrderCreated(_, _, _) | OrderCompleted(_, _, _, _, _) | OrderCancelled(_, _, _) | OrderFailed(_, _) => Orders
    case PaymentRequested(_, _) | PaymentAuthorized(_, _, _, _) | PaymentRejected(_)
       | PaymentRefundRequested(_, _) | PaymentRefunded(_, _, _) => Payments
    case InventoryReservationRequested(_) | InventoryReserved(_, _) | InventoryReservationFailed(_, _)
       | InventoryReleased(_, _) => Inventory
    case FraudCheckRequested(_, _, _) | FraudApproved(_) | FraudRejected(_, _) => Fraud
    case ShipmentRequested(_, _) | ShipmentCreated(_, _, _) | ShipmentFailed(_) => Shipping
    case NotificationRequested(_, _) => Notifications
  }
}
