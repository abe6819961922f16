/**
 What an order can become. Every order for available items, of a moderate amount and by an
 unsuspicious user can be completed, and no other; every order can fail, and every order can be
 cancelled.
 */
module Completion {
  import opened Contracts
  import opened Saga
  import opened SagaConcurrency
  import opened Consumers
  import opened Fulfilment
  import O = Orphan

  const FINE: Choice := Choice(false, 1, 2, 3, 4)
  const FAULT: Choice := Choice(true, 1, 2, 3, 4)

  function Pay(order: Message): Message requires order.OrderCreated? { PaymentRequested(order.userId, order.amount) }

  function Paying(order: Message): Row requires order.OrderCreated? {
    Row(PAYMENT_PENDING, PAYMENT, NewContext(order), None)
  }

  function Reserving(order: Message): Row requires order.OrderCreated? {
    Row(INVENTORY_PENDING, INVENTORY, NewContext(order).(paymentId := Some(1)), None)
  }

  function Checking(order: Message): Row requires order.OrderCreated? {
    Row(FRAUD_PENDING, FRAUD_CHECK, NewContext(order).(paymentId := Some(1), reservationId := Some(1)), None)
  }

  function Shipping(order: Message): Row requires order.OrderCreated? {
    Row(SHIPPING_PENDING, SHIPPING,
        NewContext(order).(paymentId := Some(1), reservationId := Some(1), fraudCheckId := Some(1)), None)
  }

  lemma Ordered(order: Message) returns (acts: seq<Act>, net: set<Message>)
    requires order.OrderCreated?
    ensures O.Resting(Run(order, acts), Some(Paying(order)), net) && Pay(order) in net
  {
    hide Run;
    assert O.Resting(Run(order, []), None, {order}) by { Nothing(order); }
    O.Handled(order, [], None, {order}, Orders, order, Paying(order), Pay(order));
    acts, net := [] + O.OneHandler(Orders, order), {order} + {Pay(order)};
  }

  lemma Nothing(order: Message)
    ensures O.Resting(Run(order, []), None, {order})
  {
  }

  /** One request answered and its answer handled: the saga moves on and asks the next service. */
  lemma Answered(order: Message, before: seq<Act>, row: Row, net: set<Message>, request: Message, choice: Choice,
                 reply: Message, row': Row, next: Message)
    returns (acts: seq<Act>, net': set<Message>)
    requires O.Resting(Run(order, before), Some(row), net) && request in net && Reply(request, choice) == Some(reply)
    requires TopicOf(reply) in SUBSCRIBED && React(Some(row), reply) == Overwrite(row', [next])
    ensures O.Resting(Run(order, acts), Some(row'), net') && next in net'
  {
    hide Run, React, Reply;
    O.Replied(order, before, Some(row), net, request, choice);
    acts := before + [Respond(request, choice)];
    O.Handled(order, acts, Some(row), net + {reply}, TopicOf(reply), reply, row', next);
    acts, net' := acts + O.OneHandler(TopicOf(reply), reply), net + {reply} + {next};
  }

  /** One request answered and its answer saved. */
  lemma Saved(order: Message, before: seq<Act>, row: Row, net: set<Message>, request: Message, choice: Choice,
              reply: Message)
    returns (acts: seq<Act>)
    requires O.Resting(Run(order, before), Some(row), net) && request in net && Reply(request, choice) == Some(reply)
    requires TopicOf(reply) in SUBSCRIBED && !React(Some(row), reply).Ignore?
    ensures Run(order, acts).saga.row == Handle(Some(row), reply).row
  {
    hide Run, React, Reply, Handle, FreshHandler, Written;
    var t := TopicOf(reply);
    O.Replied(order, before, Some(row), net, request, choice);
    var a := before + [Respond(request, choice)];
    var b := a + [Orchestrate(Read(t, reply))];
    acts := b + [Orchestrate(Save(t))];
    O.RunSnoc(order, a, Orchestrate(Read(t, reply)));
    O.RunSnoc(order, b, Orchestrate(Save(t)));
    var w := Run(order, a);
    assert At(w.saga, t).Idle?;
    assert At(Run(order, b).saga, t) == Loaded(|w.saga.taken|, reply, Some(row)) && Run(order, b).saga.row == Some(row);
    NewlyLoadedIsFresh(Some(row), t, reply);
    WrittenIsHandled(Some(row), t, reply, Some(row));
  }

  lemma Paid(order: Message) returns (acts: seq<Act>, net: set<Message>)
    requires order.OrderCreated?
    ensures O.Resting(Run(order, acts), Some(Reserving(order)), net) &&
            InventoryReservationRequested(order.items) in net
  {
    hide Run;
    acts, net := Ordered(order);
    acts, net := Answered(order, acts, Paying(order), net, Pay(order), FINE,
                          PaymentAuthorized(1, order.userId, order.amount, 2),
                          Reserving(order), InventoryReservationRequested(order.items));
  }

  lemma Approved(order: Message) returns (acts: seq<Act>, net: set<Message>)
    requires order.OrderCreated? && !Unavailable(order.items) && !HighRisk(order.userId, order.amount)
    ensures O.Resting(Run(order, acts), Some(Shipping(order)), net) &&
            ShipmentRequested(order.userId, order.items) in net
  {
    hide Run, Unavailable, HighRisk;
    acts, net := Paid(order);
    var check := FraudCheckRequested(order.userId, order.amount, Some(1));
    acts, net := Answered(order, acts, Reserving(order), net, InventoryReservationRequested(order.items), FINE,
                          InventoryReserved(1, order.items), Checking(order), check);
    acts, net := Answered(order, acts, Checking(order), net, check, FINE, FraudApproved(1), Shipping(order),
                          ShipmentRequested(order.userId, order.items));
  }

  lemma SomeRunCompletes(order: Message) returns (acts: seq<Act>)
    requires order.OrderCreated? && !Unavailable(order.items) && !HighRisk(order.userId, order.amount)
    ensures InState(Run(order, acts).saga.row, COMPLETED)
  {
    hide Run, Unavailable, HighRisk;
    var net;
    acts, net := Approved(order);
    acts := Saved(order, acts, Shipping(order), net, ShipmentRequested(order.userId, order.items), FINE,
                  ShipmentCreated(1, 2, 3));
  }

  ghost predicate Reaches(order: Message, s: State) {
    exists acts :: InState(Run(order, acts).saga.row, s)
  }

  /** Completion, exactly: some run completes the order if and only if every item is an ordinary
      one in a quantity of at most 500, the amount is at most 10000 and the user is not
      suspicious. */
  lemma CompletableExactly(order: Message)
    requires order.OrderCreated?
    ensures Reaches(order, COMPLETED) <==>
            && (forall i :: 0 <= i < |order.items| ==> order.items[i].sku != 0 && order.items[i].quantity <= 500)
            && order.amount <= 10000.0 && !Suspicious(order.userId)
  {
    hide Run;
    if !Unavailable(order.items) && !HighRisk(order.userId, order.amount) {
      var acts := SomeRunCompletes(order);
    } else {
      forall acts
        ensures !InState(Run(order, acts).saga.row, COMPLETED)
      {
        RiskyOrdersNeverComplete(order, acts);
      }
    }
  }

  /** With injected faults every order can fail and every order can be cancelled. */
  lemma EveryOrderCanEndBadly(order: Message)
    requires order.OrderCreated?
    ensures Reaches(order, FAILED) && Reaches(order, CANCELLED)
  {
    hide Run;
    var acts, net := Ordered(order);
    acts := Saved(order, acts, Paying(order), net, Pay(order), FAULT, PaymentRejected(4));
    var acts', net' := Paid(order);
    var refund := PaymentRefundRequested(Some(1), order.amount);
    var row := StartCompensation(Reserving(order), [PAYMENT_REFUND], COMPENSATING_PAYMENT, OutOfStock(4));
    acts', net' := Answered(order, acts', Reserving(order), net', InventoryReservationRequested(order.items), FAULT,
                            InventoryReservationFailed(order.items, 4), row, refund);
    acts' := Saved(order, acts', row, net', refund, FINE, PaymentRefunded(1, Some(1), order.amount));
    RefundCancels(row, PaymentRefunded(1, Some(1), order.amount));
  }

  lemma RefundCancels(row: Row, ev: Message)
    requires row.state == COMPENSATING && row.context.pending == Some([PAYMENT_REFUND]) && ev.PaymentRefunded?
    requires row.context.completed == Some([])
    ensures InState(Handle(Some(row), ev).row, CANCELLED)
  {
    assert WithAction([], PAYMENT_REFUND) == [PAYMENT_REFUND];
  }
}
