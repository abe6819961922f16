/**
 Concrete runs in which a service replies twice to one request: its consumer emitted the
 reply, failed to record the event as processed, and was called again by the retry loop. The
 order ends cancelled or failed, with a payment never refunded or a reservation never released.
 */
module Orphan {
  import opened Contracts
  import opened Saga
  import opened SagaConcurrency
  import opened Consumers
  import opened Fulfilment

  /** A world between two handlers: nothing at work, and the given row and messages. */
  predicate Resting(w: World, row: Option<Row>, net: set<Message>) {
    w.saga.row == row && w.net == net && forall t :: At(w.saga, t).Idle?
  }

  lemma RunSnoc(order: Message, acts: seq<Act>, a: Act)
    ensures Run(order, acts + [a]) == Do(Run(order, acts), a)
  {
    assert (acts + [a])[..|acts|] == acts;
  }

  function OneHandler(t: Topic, ev: Message): seq<Act> {
    [Orchestrate(Read(t, ev)), Orchestrate(Save(t)), Orchestrate(Emit(t))]
  }

  /** One handler from its read to its only emit. */
  lemma Handled(order: Message, acts: seq<Act>, row: Option<Row>, net: set<Message>, t: Topic, ev: Message, r: Row,
                c: Message)
    requires Resting(Run(order, acts), row, net) && ev in net
    requires t in SUBSCRIBED && TopicOf(ev) == t && React(row, ev) == Overwrite(r, [c])
    ensures Resting(Run(order, acts + OneHandler(t, ev)), Some(r), net + {c})
  {
    hide React, Run;
    var w := Run(order, acts);
    var a0 := acts + [Orchestrate(Read(t, ev))];
    var a1 := a0 + [Orchestrate(Save(t))];
    assert acts + OneHandler(t, ev) == a1 + [Orchestrate(Emit(t))];
    RunSnoc(order, acts, Orchestrate(Read(t, ev)));
    RunSnoc(order, a0, Orchestrate(Save(t)));
    RunSnoc(order, a1, Orchestrate(Emit(t)));
    var w0 := Run(order, a0);
    var w1 := Run(order, a1);
    assert w0.saga == Reading(w.saga, t, ev) && w0.net == net;
    assert At(w0.saga, t) == Loaded(|w.saga.taken|, ev, row) && w0.saga.row == row;
    assert w1.saga == Saving(w0.saga, t, At(w0.saga, t)) && w1.net == net;
    assert At(w1.saga, t) == Emitting(ev, |w.saga.issued|, |w.saga.issued| + 1);
    assert w1.saga.issued[|w.saga.issued|] == c;
    var w2 := Run(order, acts + OneHandler(t, ev));
    assert At(w2.saga, t) == Idle && w2.saga.row == Some(r) && w2.net == net + {c};
    forall u | u != t
      ensures At(w2.saga, u).Idle?
    {
      OthersKept(w.saga, Read(t, ev), u);
      OthersKept(w0.saga, Save(t), u);
      OthersKept(w1.saga, Emit(t), u);
    }
  }

  lemma Replied(order: Message, acts: seq<Act>, row: Option<Row>, net: set<Message>, request: Message, choice: Choice)
    requires Resting(Run(order, acts), row, net) && request in net && Reply(request, choice).Some?
    ensures Resting(Run(order, acts + [Respond(request, choice)]), row, net + {Reply(request, choice).value})
  {
    RunSnoc(order, acts, Respond(request, choice));
  }

  const ITEMS: seq<Item> := [Item(1, 2)]
  const ORDER: Message := OrderCreated(6, 40.0, ITEMS)
  const CONTEXT: Context := NewContext(ORDER)
  const ACCEPT1: Choice := Choice(false, 1, 0, 0, 0)
  const ACCEPT2: Choice := Choice(false, 2, 0, 0, 0)
  const REFUSE: Choice := Choice(true, 3, 0, 0, 0)
  const PAY: Message := PaymentRequested(6, 40.0)
  const FIRST: Message := PaymentAuthorized(1, 6, 40.0, 0)
  const SECOND: Message := PaymentAuthorized(2, 6, 40.0, 0)
  const RESERVE: Message := InventoryReservationRequested(ITEMS)
  const REFUSED: Message := InventoryReservationFailed(ITEMS, 0)
  const REFUND: Message := PaymentRefundRequested(Some(1), 40.0)
  const REFUNDED: Message := PaymentRefunded(1, Some(1), 40.0)

  const PAYING: Row := Row(PAYMENT_PENDING, PAYMENT, CONTEXT, None)
  const RESERVING: Row := Row(INVENTORY_PENDING, INVENTORY, CONTEXT.(paymentId := Some(1)), None)
  const UNWINDING: Row := StartCompensation(RESERVING, [PAYMENT_REFUND], COMPENSATING_PAYMENT, OutOfStock(0))

  lemma PaidTwice() returns (acts: seq<Act>)
    ensures Resting(Run(ORDER, acts), Some(RESERVING), {ORDER, PAY, FIRST, SECOND, RESERVE})
  {
    hide Run;
    acts := Ordered();
    Replied(ORDER, acts, Some(PAYING), {ORDER, PAY}, PAY, ACCEPT1);
    acts := acts + [Respond(PAY, ACCEPT1)];
    Replied(ORDER, acts, Some(PAYING), {ORDER, PAY, FIRST}, PAY, ACCEPT2);
    acts := acts + [Respond(PAY, ACCEPT2)];
    Handled(ORDER, acts, Some(PAYING), {ORDER, PAY, FIRST, SECOND}, Payments, FIRST, RESERVING, RESERVE);
    acts := acts + OneHandler(Payments, FIRST);
  }

  lemma EmptyRun()
    ensures Run(ORDER, []) == Begin(ORDER)
  {
  }

  const REJECT: Choice := Choice(true, 1, 0, 0, 9)
  const REJECTED: Message := PaymentRejected(9)
  const DECLINED: Row := Row(FAILED, TERMINAL, CONTEXT, Some(PaymentDeclined(9)))
  const GIVE_UP: Message := OrderFailed(6, PaymentDeclined(9))
  const RESERVED: Message := InventoryReserved(2, ITEMS)

  lemma Ordered() returns (acts: seq<Act>)
    ensures Resting(Run(ORDER, acts), Some(PAYING), {ORDER, PAY})
  {
    hide Run;
    assert Resting(Run(ORDER, []), None, {ORDER}) by { assert Run(ORDER, []) == Begin(ORDER) by { EmptyRun(); } }
    Handled(ORDER, [], None, {ORDER}, Orders, ORDER, PAYING, PAY);
    acts := [] + OneHandler(Orders, ORDER);
  }

  /** The request is first declined, which fails the order, and then authorised. */
  lemma LateAuthorisationOrphansAPayment() returns (acts: seq<Act>)
    ensures InState(Run(ORDER, acts).saga.row, FAILED)
    ensures SECOND in Run(ORDER, acts).net && !Refunded(Run(ORDER, acts).net, SECOND.paymentId)
  {
    hide Run;
    acts := Ordered();
    Replied(ORDER, acts, Some(PAYING), {ORDER, PAY}, PAY, REJECT);
    acts := acts + [Respond(PAY, REJECT)];
    Handled(ORDER, acts, Some(PAYING), {ORDER, PAY, REJECTED}, Payments, REJECTED, DECLINED, GIVE_UP);
    acts := acts + OneHandler(Payments, REJECTED);
    Replied(ORDER, acts, Some(DECLINED), {ORDER, PAY, REJECTED, GIVE_UP}, PAY, ACCEPT2);
    acts := acts + [Respond(PAY, ACCEPT2)];
  }

  /** The reservation is first refused, which cancels the order, and then made. */
  lemma LateReservationIsOrphaned() returns (acts: seq<Act>)
    ensures InState(Run(ORDER, acts).saga.row, CANCELLED)
    ensures RESERVED in Run(ORDER, acts).net && !Released(Run(ORDER, acts).net, RESERVED.reservationId, RESERVED.items)
  {
    hide Run;
    acts := Ordered();
    Replied(ORDER, acts, Some(PAYING), {ORDER, PAY}, PAY, ACCEPT1);
    acts := acts + [Respond(PAY, ACCEPT1)];
    Handled(ORDER, acts, Some(PAYING), {ORDER, PAY, FIRST}, Payments, FIRST, RESERVING, RESERVE);
    acts := acts + OneHandler(Payments, FIRST);
    var net := {ORDER, PAY, FIRST, RESERVE};
    Replied(ORDER, acts, Some(RESERVING), net, RESERVE, ACCEPT2);
    acts := acts + [Respond(RESERVE, ACCEPT2)];
    acts := Unwound(acts, net + {RESERVED});
  }

  /** A refused reservation ends in a refund and a cancelled order, whatever else was sent. */
  lemma Unwound(before: seq<Act>, net: set<Message>) returns (acts: seq<Act>)
    requires Resting(Run(ORDER, before), Some(RESERVING), net) && RESERVE in net
    ensures InState(Run(ORDER, acts).saga.row, CANCELLED) &&
            Run(ORDER, acts).net == net + {REFUSED} + {REFUND} + {REFUNDED}
  {
    hide Run;
    Replied(ORDER, before, Some(RESERVING), net, RESERVE, REFUSE);
    acts := before + [Respond(RESERVE, REFUSE)];
    Handled(ORDER, acts, Some(RESERVING), net + {REFUSED}, Inventory, REFUSED, UNWINDING, REFUND);
    acts := acts + OneHandler(Inventory, REFUSED);
    Replied(ORDER, acts, Some(UNWINDING), net + {REFUSED} + {REFUND}, REFUND, ACCEPT1);
    acts := acts + [Respond(REFUND, ACCEPT1)];
    RefundSettles(ORDER, acts, net + {REFUSED} + {REFUND} + {REFUNDED});
    acts := acts + [Orchestrate(Read(Payments, REFUNDED))] + [Orchestrate(Save(Payments))];
  }

  /** Two replies to one payment request: the cancelled order keeps payment 2 for ever. */
  lemma DoubleReplyOrphansAPayment() returns (acts: seq<Act>)
    ensures InState(Run(ORDER, acts).saga.row, CANCELLED)
    ensures SECOND in Run(ORDER, acts).net && !Refunded(Run(ORDER, acts).net, SECOND.paymentId)
  {
    hide Run;
    acts := PaidTwice();
    acts := Unwound(acts, {ORDER, PAY, FIRST, SECOND, RESERVE});
  }

  lemma RefundSettles(order: Message, acts: seq<Act>, net: set<Message>)
    requires Resting(Run(order, acts), Some(UNWINDING), net) && REFUNDED in net
    ensures var w := Run(order, acts + [Orchestrate(Read(Payments, REFUNDED))] + [Orchestrate(Save(Payments))]);
            InState(w.saga.row, CANCELLED) && w.net == net
  {
    hide Run;
    var a0 := acts + [Orchestrate(Read(Payments, REFUNDED))];
    RunSnoc(order, acts, Orchestrate(Read(Payments, REFUNDED)));
    RunSnoc(order, a0, Orchestrate(Save(Payments)));
    var w0 := Run(order, a0);
    assert React(Some(UNWINDING), REFUNDED) == Barrier(PAYMENT_REFUND);
    assert At(w0.saga, Payments) == Loaded(|Run(order, acts).saga.taken|, REFUNDED, Some(UNWINDING));
    assert PendingOf(UNWINDING.context) == [PAYMENT_REFUND];
    assert WithAction(CompletedOf(UNWINDING.context), PAYMENT_REFUND) == [PAYMENT_REFUND];
  }
}
