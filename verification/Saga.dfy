/**
 The order-fulfilment saga: one persistent row per order, moved by domain events that
 may be duplicated, late or out of order, and emitting the next command of the protocol.
 `React` is the guarded decision taken on a freshly read row, `ResolveBarrier` the
 compensation barrier evaluated under the row lock, and `Handle` the effect of one
 complete, undisturbed `processEvent` call.
 */
module Saga {
  import opened Contracts

  datatype State =
    | CREATED | PAYMENT_PENDING | PAYMENT_APPROVED | INVENTORY_PENDING | INVENTORY_RESERVED
    | FRAUD_PENDING | FRAUD_APPROVED | SHIPPING_PENDING | SHIPPED | COMPLETED
    | COMPENSATING | CANCELLED | FAILED

  datatype Step =
    | PAYMENT | INVENTORY | FRAUD_CHECK | SHIPPING | TERMINAL | TERMINAL_SUCCESS | TERMINAL_CANCELLED
    | COMPENSATING_PAYMENT | COMPENSATING_FRAUD | COMPENSATING_SHIPPING | COMPENSATING_WAITING(action: Action)

  datatype Context = Context(
    userId: Id, amount: real, items: seq<Item>,
    paymentId: Option<Id>, reservationId: Option<Id>, fraudCheckId: Option<Id>,
    shipmentId: Option<Id>, tracking: Option<Id>,
    pending: Option<seq<Action>>, completed: Option<seq<Action>>)

  datatype Row = Row(state: State, step: Step, context: Context, failureReason: Option<FailureReason>)

  /** What a handler decides from the row it read: drop the event, overwrite the row and
      emit commands, or hand over to the locked compensation barrier. */
  datatype Decision = Ignore | Overwrite(row: Row, commands: seq<Message>) | Barrier(action: Action)

  datatype Outcome = Outcome(row: Option<Row>, commands: seq<Message>)

  predicate InState(row: Option<Row>, s: State) {
    row.Some? && row.value.state == s
  }

  predicate Terminal(row: Option<Row>) {
    row.Some? && row.value.state in {COMPLETED, CANCELLED, FAILED}
  }

  function NewContext(ev: Message): Context
    requires ev.OrderCreated?
  {
    Context(ev.userId, ev.amount, ev.items, None, None, None, None, None, None, None)
  }

  /** Context and row of an order whose compensation starts with the actions `todo`. */
  function StartCompensation(row: Row, todo: seq<Action>, step: Step, why: FailureReason): Row {
    Row(COMPENSATING, step, row.context.(pending := Some(todo), completed := Some([])), Some(why))
  }

  function ReleaseCommand(c: Context): Message { InventoryReleased(c.reservationId, c.items) }

  function RefundCommand(c: Context): Message { PaymentRefundRequested(c.paymentId, c.amount) }

  /** The guards and transitions of `processEvent`, on the row read at its start. */
  function React(row: Option<Row>, ev: Message): Decision {
    match ev
    case OrderCreated(user, amount, items) =>
      if row.Some? && row.value.state != CREATED then Ignore
      else Overwrite(Row(PAYMENT_PENDING, PAYMENT, NewContext(ev), None), [PaymentRequested(user, amount)])

    case PaymentAuthorized(payment, _, _, _) =>
      if !InState(row, PAYMENT_PENDING) then Ignore
      else
        var c := row.value.context.(paymentId := Some(payment));
        Overwrite(Row(INVENTORY_PENDING, INVENTORY, c, None), [InventoryReservationRequested(c.items)])

    case PaymentRejected(reason) =>
      if !InState(row, PAYMENT_PENDING) then Ignore
      else
        var c := row.value.context;
        Overwrite(Row(FAILED, TERMINAL, c, Some(PaymentDeclined(reason))),
                  [OrderFailed(c.userId, PaymentDeclined(reason))])

    case InventoryReserved(reservation, _) =>
      if !InState(row, INVENTORY_PENDING) then Ignore
      else
        var c := row.value.context.(reservationId := Some(reservation));
        Overwrite(Row(FRAUD_PENDING, FRAUD_CHECK, c, None), [FraudCheckRequested(c.userId, c.amount, c.paymentId)])

    case InventoryReservationFailed(_, reason) =>
      if !InState(row, INVENTORY_PENDING) then Ignore
      else
        var r := StartCompensation(row.value, [PAYMENT_REFUND], COMPENSATING_PAYMENT, OutOfStock(reason));
        Overwrite(r, [RefundCommand(r.context)])

    case FraudApproved(check) =>
      if !InState(row, FRAUD_PENDING) then Ignore
      else
        var c := row.value.context.(fraudCheckId := Some(check));
        Overwrite(Row(SHIPPING_PENDING, SHIPPING, c, None), [ShipmentRequested(c.userId, c.items)])

    case FraudRejected(_, reason) =>
      if !InState(row, FRAUD_PENDING) then Ignore
      else
        var r := StartCompensation(row.value, [INVENTORY_RELEASE, PAYMENT_REFUND], COMPENSATING_FRAUD,
                                   FraudRisk(reason));
        Overwrite(r, [ReleaseCommand(r.context), RefundCommand(r.context)])

    case ShipmentCreated(shipment, tracking, _) =>
      if !InState(row, SHIPPING_PENDING) then Ignore
      else
        var c := row.value.context.(shipmentId := Some(shipment), tracking := Some(tracking));
        Overwrite(Row(COMPLETED, TERMINAL_SUCCESS, c, None),
                  [OrderCompleted(c.userId, c.amount, c.paymentId, shipment, tracking),
                   NotificationRequested(c.userId, tracking)])

    case ShipmentFailed(reason) =>
      if !InState(row, SHIPPING_PENDING) then Ignore
      else
        var r := StartCompensation(row.value, [INVENTORY_RELEASE, PAYMENT_REFUND], COMPENSATING_SHIPPING,
                                   DispatchFailed(reason));
        Overwrite(r, [ReleaseCommand(r.context), RefundCommand(r.context)])

    case PaymentRefunded(_, _, _) =>
      if InState(row, COMPENSATING) then Barrier(PAYMENT_REFUND) else Ignore

    case InventoryReleased(_, _) =>
      if InState(row, COMPENSATING) then Barrier(INVENTORY_RELEASE) else Ignore

    case _ => Ignore
  }

  function PendingOf(c: Context): seq<Action> {
    if c.pending.Some? then c.pending.value else [PAYMENT_REFUND]
  }

  function CompletedOf(c: Context): seq<Action> {
    if c.completed.Some? then c.completed.value else []
  }

  function WithAction(done: seq<Action>, action: Action): seq<Action> {
    if action in done then done else done + [action]
  }

  predicate Covers(done: seq<Action>, todo: seq<Action>) {
    forall a | a in todo :: a in done
  }

  /** The barrier transaction on the row read under lock. */
  function ResolveBarrier(row: Row, action: Action): (Row, seq<Message>) {
    if row.state != COMPENSATING then (row, [])
    else
      var c := row.context;
      var done := WithAction(CompletedOf(c), action);
      var c' := c.(completed := Some(done));
      if Covers(done, PendingOf(c)) then
        (Row(CANCELLED, TERMINAL_CANCELLED, c', row.failureReason), [OrderCancelled(c.userId, row.failureReason, done)])
      else
        (Row(COMPENSATING, COMPENSATING_WAITING(action), c', row.failureReason), [])
  }

  /** One `processEvent` call that nothing interrupts. */
  function Handle(row: Option<Row>, ev: Message): Outcome {
    match React(row, ev)
    case Ignore => Outcome(row, [])
    case Overwrite(r, commands) => Outcome(Some(r), commands)
    case Barrier(action) => var (r, commands) := ResolveBarrier(row.value, action); Outcome(Some(r), commands)
  }

  /** A whole serial run: the row and all commands after handling `evs` one at a time. */
  function HandleAll(row: Option<Row>, evs: seq<Message>): Outcome
    decreases |evs|
  {
    if evs == [] then Outcome(row, [])
    else
      var before := HandleAll(row, evs[..|evs| - 1]);
      var last := Handle(before.row, evs[|evs| - 1]);
      Outcome(last.row, before.commands + last.commands)
  }

  lemma HandleAllSnoc(row: Option<Row>, evs: seq<Message>, ev: Message)
    ensures HandleAll(row, evs + [ev]) ==
            Outcome(Handle(HandleAll(row, evs).row, ev).row,
                    HandleAll(row, evs).commands + Handle(HandleAll(row, evs).row, ev).commands)
  {
    assert (evs + [ev])[..|evs|] == evs;
  }

  /** How the statement or transaction that writes the row ends for its caller. */
  datatype SaveResult = Saved | SaveThrew(committed: bool)

  predicate Moves(save: SaveResult) { save.Saved? || save.committed }

  /**
   The orchestrator over the table of saga rows. `sent` is what the broker accepted.
   `save` says how the write of the row ends and `emits` how many sends succeed before the
   producer throws, so every way a handler can break off is covered.
   */
  class SagaOrchestrator {
    var rows: map<Id, Row>
    var sent: seq<(Id, Message)>

    constructor ()
      ensures rows == map[] && sent == []
    {
      rows := map[];
      sent := [];
    }

    function RowOf(order: Id): Option<Row>
      reads this
    {
      if order in rows then Some(rows[order]) else None
    }

    /** Emits `commands` in order until the producer throws after `emits` sends. */
    method EmitAll(order: Id, commands: seq<Message>, emits: nat) returns (threw: bool)
      modifies this`sent
      ensures threw <==> emits < |commands|
      ensures var n := if emits < |commands| then emits else |commands|;
              sent == old(sent) + seq(n, i requires 0 <= i < n => (order, commands[i]))
    {
      var i := 0;
      while i < |commands|
        invariant 0 <= i <= |commands| && i <= emits
        invariant sent == old(sent) + seq(i, k requires 0 <= k < i => (order, commands[k]))
      {
        if i == emits {
          return true;
        }
        sent := sent + [(order, commands[i])];
        i := i + 1;
      }
      return false;
    }

    /** Evaluates the barrier on the locked row; only a satisfied barrier emits, and only after
        its transaction has committed. */
    method HandleCompensationCompletion(order: Id, action: Action, save: SaveResult, emits: nat) returns (threw: bool)
      requires order in rows
      modifies this
      ensures var (r, commands) := ResolveBarrier(old(rows[order]), action);
              && rows == (if Moves(save) then old(rows)[order := r] else old(rows))
              && (threw <==> old(rows[order]).state == COMPENSATING && (save.SaveThrew? || emits < |commands|))
              && sent == old(sent) + if threw then []
                                     else seq(|commands|, i requires 0 <= i < |commands| => (order, commands[i]))
    {
      var shouldEmitCancelled := false;
      var completedListToEmit: seq<Action> := [];
      var locked := rows[order];

      if locked.state != COMPENSATING && locked.state != CANCELLED {
        assert rows[order := locked] == rows;
        return false;
      }
      if locked.state == CANCELLED {
        assert rows[order := locked] == rows;
        return false;
      }

      var completedList := CompletedOf(locked.context);
      if action !in completedList {
        completedList := completedList + [action];
      }
      var allCompleted := forall a | a in PendingOf(locked.context) :: a in completedList;
      var context := locked.context.(completed := Some(completedList));
      var updated := rows;
      if allCompleted {
        updated := rows[order := Row(CANCELLED, TERMINAL_CANCELLED, context, locked.failureReason)];
        shouldEmitCancelled := true;
        completedListToEmit := completedList;
      } else {
        updated := rows[order := Row(COMPENSATING, COMPENSATING_WAITING(action), context, locked.failureReason)];
      }
      if Moves(save) {
        rows := updated;
      }
      if save.SaveThrew? {
        return true;
      }

      threw := false;
      if shouldEmitCancelled {
        threw := EmitAll(order, [OrderCancelled(locked.context.userId, locked.failureReason, completedListToEmit)],
                         emits);
      }
    }

    /** One call of `processEvent`. The row moves as `Handle` says unless its write is lost,
        other orders' rows never change, and what reaches the broker is a prefix of the
        commands: nothing if the write threw, everything if nothing did. An event that is
        ignored neither writes nor throws. */
    method ProcessEvent(order: Id, ev: Message, save: SaveResult, emits: nat) returns (threw: bool)
      modifies this
      ensures var (before, out) := (old(RowOf(order)), Handle(old(RowOf(order)), ev));
              && RowOf(order) == (if Moves(save) then out.row else before)
              && (forall o :: o != order ==> RowOf(o) == old(RowOf(o)))
              && (threw <==> !React(before, ev).Ignore? && (save.SaveThrew? || emits < |out.commands|))
              && var n := if !threw then |out.commands| else if save.SaveThrew? then 0 else emits;
                 n <= |out.commands| && sent == old(sent) + seq(n, i requires 0 <= i < n => (order, out.commands[i]))
    {
      var saga := RowOf(order);
      threw := false;
      match React(saga, ev) {
        case Ignore =>
        case Overwrite(r, commands) =>
          if Moves(save) {
            rows := rows[order := r];
          }
          if save.SaveThrew? {
            return true;
          }
          threw := EmitAll(order, commands, emits);
        case Barrier(action) =>
          BarrierIsOpen(saga, ev);
          threw := HandleCompensationCompletion(order, action, save, emits);
      }
    }
  }

  lemma BarrierIsOpen(row: Option<Row>, ev: Message)
    requires React(row, ev).Barrier?
    ensures InState(row, COMPENSATING) && |ResolveBarrier(row.value, React(row, ev).action).1| <= 1
  {
  }
}
