/**
 The services behind the saga's commands, as reply functions. The chaos engine's fault flag
 and fresh identifiers are parameters, so a statement about all choices is a statement about
 every behaviour of the services.
 */
module Consumers {
  import opened Contracts

  const OUT_OF_STOCK_ITEM: Id := 0

  datatype Choice = Choice(fault: bool, newId: Id, detail: Id, estimate: Id, reason: Id)

  function PaymentReply(request: Message, c: Choice): Option<Message> {
    match request
    case PaymentRequested(user, amount) =>
      if c.fault then Some(PaymentRejected(c.reason)) else Some(PaymentAuthorized(c.newId, user, amount, c.detail))
    case PaymentRefundRequested(payment, amount) => Some(PaymentRefunded(c.newId, payment, amount))
    case _ => None
  }

  predicate Unavailable(items: seq<Item>) {
    exists i :: 0 <= i < |items| && (items[i].sku == OUT_OF_STOCK_ITEM || items[i].quantity > 500)
  }

  function InventoryReply(request: Message, c: Choice): Option<Message> {
    match request
    case InventoryReservationRequested(items) =>
      if c.fault || Unavailable(items) then Some(InventoryReservationFailed(items, c.reason))
      else Some(InventoryReserved(c.newId, items))
    case _ => None
  }

  /** Odd ids stand for the user names that contain the word the check looks for. */
  predicate Suspicious(user: Id) { user % 2 == 1 }

  predicate HighRisk(user: Id, amount: real) { amount > 10000.0 || Suspicious(user) }

  function FraudReply(request: Message, c: Choice): Option<Message> {
    match request
    case FraudCheckRequested(user, amount, _) =>
      if c.fault || HighRisk(user, amount) then Some(FraudRejected(c.newId, c.reason))
      else Some(FraudApproved(c.newId))
    case _ => None
  }

  function ShippingReply(request: Message, c: Choice): Option<Message> {
    match request
    case ShipmentRequested(_, _) =>
      if c.fault then Some(ShipmentFailed(c.reason)) else Some(ShipmentCreated(c.newId, c.detail, c.estimate))
    case _ => None
  }

  /** The reply of the service subscribed to the request's topic, if it replies at all. */
  function Reply(request: Message, c: Choice): Option<Message> {
    match TopicOf(request)
    case Payments => PaymentReply(request, c)
    case Inventory => InventoryReply(request, c)
    case Fraud => FraudReply(request, c)
    case Shipping => ShippingReply(request, c)
    case _ => None
  }

  /** `reply` is one of the possible replies to `request`. */
  predicate Answers(request: Message, reply: Message) {
    match request
    case PaymentRequested(user, amount) =>
      reply.PaymentRejected? || (reply.PaymentAuthorized? && reply.userId == user && reply.amount == amount)
    case PaymentRefundRequested(payment, amount) =>
      reply.PaymentRefunded? && reply.refundOf == payment && reply.amount == amount
    case InventoryReservationRequested(items) =>
      && (reply.InventoryReserved? || reply.InventoryReservationFailed?) && reply.items == items
      && (reply.InventoryReserved? ==> !Unavailable(items))
    case FraudCheckRequested(user, amount, _) =>
      (reply.FraudApproved? && !HighRisk(user, amount)) || reply.FraudRejected?
    case ShipmentRequested(_, _) => reply.ShipmentCreated? || reply.ShipmentFailed?
    case _ => false
  }

  predicate IsRequest(m: Message) {
    m.PaymentRequested? || m.PaymentRefundRequested? || m.InventoryReservationRequested? || m.FraudCheckRequested? ||
    m.ShipmentRequested?
  }

  /** Exactly the five requests are answered, whatever the services choose; an answer names the
      payment, amount and items of its request; unavailable stock is never reserved, and large
      or suspicious orders never pass the fraud check. */
  lemma RepliesAnswer(request: Message, c: Choice)
    ensures Reply(request, c).Some? <==> IsRequest(request)
    ensures Reply(request, c).Some? ==> Answers(request, Reply(request, c).value)
  {
  }

  /** When each service accepts, exactly: payments and shipments without a fault, reservations of
      ordinary items in quantities up to 500 without a fault, fraud checks of amounts up to
      10000 by unsuspicious users without a fault, and refunds always. The reply carries the
      new ids and the request's data, a refusal its reason. */
  lemma ServicesAcceptExactly(request: Message, c: Choice)
    ensures request.PaymentRequested? ==>
              Reply(request, c) == Some(if !c.fault
                                        then PaymentAuthorized(c.newId, request.userId, request.amount, c.detail)
                                        else PaymentRejected(c.reason))
    ensures request.PaymentRefundRequested? ==>
              Reply(request, c) == Some(PaymentRefunded(c.newId, request.refundOf, request.amount))
    ensures request.InventoryReservationRequested? ==>
              Reply(request, c) ==
              Some(if !c.fault && (forall i :: 0 <= i < |request.items| ==> Ordinary(request.items[i]))
                   then InventoryReserved(c.newId, request.items)
                        else InventoryReservationFailed(request.items, c.reason))
    ensures request.FraudCheckRequested? ==>
              Reply(request, c) ==
              Some(if !c.fault && request.amount <= 10000.0 && !Suspicious(request.userId)
                   then FraudApproved(c.newId) else FraudRejected(c.newId, c.reason))
    ensures request.ShipmentRequested? ==>
              Reply(request, c) == Some(if !c.fault then ShipmentCreated(c.newId, c.detail, c.estimate)
                                        else ShipmentFailed(c.reason))
  {
    if request.InventoryReservationRequested? {
      assert (exists i :: 0 <= i < |request.items| && !Ordinary(request.items[i])) <==> Unavailable(request.items);
    }
  }

  predicate Ordinary(item: Item) { item.sku != 0 && item.quantity <= 500 }
}
