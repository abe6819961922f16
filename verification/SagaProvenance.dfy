/**
 Where the contents of a saga row come from. Every id, reason and amount in the row of any
 interleaved run was heard from an event that was delivered and served, and every state is left
 on exactly the events the protocol names.
 */
module SagaProvenance {
  import opened Contracts
  import opened Saga
  import opened SagaBarrier
  import opened SagaConcurrency
  import opened Consumers
  import F = Fulfilment

  // ----------------------------------------------------------------------------- what was heard

  ghost predicate OrderHeard(c: Context, evs: seq<Message>) {
    OrderCreated(c.userId, c.amount, c.items) in evs
  }

  ghost predicate PaymentHeard(c: Context, evs: seq<Message>) {
    c.paymentId.Some? ==> exists m :: m in evs && m.PaymentAuthorized? && m.paymentId == c.paymentId.value
  }

  ghost predicate ReservationHeard(c: Context, evs: seq<Message>) {
    c.reservationId.Some? ==> exists m :: m in evs && m.InventoryReserved? && m.reservationId == c.reservationId.value
  }

  ghost predicate ShipmentHeard(c: Context, evs: seq<Message>) {
    && (c.fraudCheckId.Some? ==> FraudApproved(c.fraudCheckId.value) in evs)
    && (c.shipmentId.Some? || c.tracking.Some? ==> exists m :: m in evs && IsShipment(m, c))
  }

  predicate IsShipment(m: Message, c: Context) {
    m.ShipmentCreated? && c.shipmentId == Some(m.shipmentId) && c.tracking == Some(m.tracking)
  }

  ghost predicate ReasonHeard(reason: FailureReason, evs: seq<Message>) {
    match reason
    case PaymentDeclined(why) => PaymentRejected(why) in evs
    case OutOfStock(why) => exists m :: m in evs && m.InventoryReservationFailed? && m.reason == why
    case FraudRisk(why) => exists m :: m in evs && m.FraudRejected? && m.reason == why
    case DispatchFailed(why) => ShipmentFailed(why) in evs
  }

  ghost predicate Heard(row: Row, evs: seq<Message>) {
    && OrderHeard(row.context, evs) && PaymentHeard(row.context, evs) && ReservationHeard(row.context, evs)
    && ShipmentHeard(row.context, evs)
    && (row.failureReason.Some? ==> ReasonHeard(row.failureReason.value, evs))
  }

  lemma HeardStays(row: Row, evs: seq<Message>, more: seq<Message>)
    requires Heard(row, evs) && forall m :: m in evs ==> m in more
    ensures Heard(row, more)
  {
  }

  lemma OverwriteIsHeard(row: Option<Row>, ev: Message, evs: seq<Message>)
    requires (row.Some? ==> Heard(row.value, evs)) && ev in evs && React(row, ev).Overwrite?
    ensures Heard(React(row, ev).row, evs)
  {
  }

  lemma BarrierIsHeard(row: Row, action: Action, evs: seq<Message>)
    requires Heard(row, evs)
    ensures Heard(ResolveBarrier(row, action).0, evs)
  {
    hide Covers, PendingOf, WithAction, CompletedOf;
  }

  lemma HandleIsHeard(row: Option<Row>, ev: Message, evs: seq<Message>)
    requires (row.Some? ==> Heard(row.value, evs)) && ev in evs
    ensures Handle(row, ev).row.Some? ==> Heard(Handle(row, ev).row.value, evs)
  {
    hide React, ResolveBarrier, Heard;
    match React(row, ev) {
      case Ignore =>
      case Overwrite(_, _) => OverwriteIsHeard(row, ev, evs);
      case Barrier(action) => BarrierMeansCompensating(row, ev); BarrierIsHeard(row.value, action, evs);
    }
  }

  lemma {:induction false} SerialIsHeard(evs: seq<Message>)
    ensures HandleAll(None, evs).row.Some? ==> Heard(HandleAll(None, evs).row.value, evs)
    decreases |evs|
  {
    hide Handle, Heard;
    if evs == [] {
    } else {
      var n := |evs| - 1;
      SerialIsHeard(evs[..n]);
      var row := HandleAll(None, evs[..n]).row;
      if row.Some? {
        HeardStays(row.value, evs[..n], evs);
      }
      HandleIsHeard(row, evs[n], evs);
    }
  }

  /** In every interleaved run, whatever the row says about the order, its payment, reservation,
      fraud check, shipment and failure was said by an event that was served. */
  lemma RowIsHeard(moves: seq<Move>)
    ensures After(moves).row.Some? ==> Heard(After(moves).row.value, After(moves).served)
  {
    hide After, HandleAll, Heard, Fresh, DeliveriesAccounted, CommandsAccounted;
    Serialisability(moves);
    SerialIsHeard(After(moves).served);
  }

  // ------------------------------------------------------------------------- who leaves a state

  /** The events each state waits for. */
  function Awaits(s: State): set<Command> {
    match s
    case PAYMENT_PENDING => {PaymentCmd}
    case INVENTORY_PENDING => {ReservationCmd}
    case FRAUD_PENDING => {FraudCheckCmd}
    case SHIPPING_PENDING => {ShipmentCmd}
    case COMPENSATING => {RefundCmd, ReleaseCmd}
    case _ => {}
  }

  /** The command an event answers, or the release it is. */
  function AnswerTo(ev: Message): Command {
    if ev.InventoryReleased? then ReleaseCmd else F.Question(ev)
  }

  /** Guards, exactly: an order that does not exist or was merely created is started by its
      creation alone, and every other state is left by the answers it waits for and by nothing
      else. */
  lemma GuardsExactly(row: Option<Row>, ev: Message)
    ensures !React(row, ev).Ignore? <==>
            || (ev.OrderCreated? && (row.None? || row.value.state == CREATED))
            || (row.Some? && AnswerTo(ev) in Awaits(row.value.state))
  {
  }

  /** The saga hears its own commands, and leaves them alone: every command but the notification
      travels on a topic the saga reads, a request on the topic of its replies and an ending on
      the topic of the order; and only the release ever moves a row. */
  lemma EchoesAreIgnored(row: Option<Row>, c: Message)
    requires CommandOf(c) != NotACommand
    ensures TopicOf(c) in SUBSCRIBED <==> !c.NotificationRequested?
    ensures c.OrderCompleted? || c.OrderCancelled? || c.OrderFailed? ==>
              forall m: Message :: m.OrderCreated? ==> TopicOf(c) == TopicOf(m)
    ensures forall reply :: Answers(c, reply) ==> TopicOf(reply) == TopicOf(c)
    ensures !React(row, c).Ignore? ==> c.InventoryReleased? && TopicOf(c) == Inventory
  {
  }

  // --------------------------------------------------------------------- rows without the lists

  /** A compensating row that names no pending actions waits for the refund alone, and one that
      names no confirmed actions starts from none. */
  lemma MissingListsDefault(row: Row, actions: seq<Action>)
    requires row.state == COMPENSATING && row.context.pending.None? && row.context.completed.None?
    ensures Confirm(row, actions).0.state == CANCELLED <==> PAYMENT_REFUND in actions
  {
    hide Confirm;
    assert PAYMENT_REFUND in PendingOf(row.context) && CompletedOf(row.context) == [];
    BarrierConfluence(row, actions);
    assert Covers(CompletedOf(row.context) + actions, PendingOf(row.context)) <==> PAYMENT_REFUND in actions;
  }
}
