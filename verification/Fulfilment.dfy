/**
 The whole fulfilment protocol of one order: the saga with its concurrent handlers, the
 services, and a network that keeps every message ever sent and may deliver any of them
 at any time, in any order, any number of times, or never.
 */
module Fulfilment {
  import opened Contracts
  import opened Saga
  import opened SagaBarrier
  import opened SagaConcurrency
  import opened Consumers

  /** `net` holds every message sent; `answers` pairs requests with the replies they got and
      `follows` pairs saga events with the commands sent because of them. */
  datatype World = World(saga: Orchestration, net: set<Message>,
                         answers: set<(Message, Message)>, follows: set<(Message, Message)>)

  datatype Act = Orchestrate(move: Move) | Respond(request: Message, choice: Choice)

  function Begin(order: Message): World {
    World(START, {order}, {}, {})
  }

  /** The command a move puts on the network. */
  function Published(o: Orchestration, m: Move): set<Message> {
    if m.Emit? && Enabled(o, m) && At(o, m.topic).next < |o.issued| then {o.issued[At(o, m.topic).next]} else {}
  }

  function CauseOf(o: Orchestration, m: Move): set<(Message, Message)> {
    if m.Emit? && Enabled(o, m) && At(o, m.topic).next < |o.issued|
    then {(At(o, m.topic).event, o.issued[At(o, m.topic).next])} else {}
  }

  predicate Can(w: World, a: Act) {
    match a
    case Orchestrate(m) => m.Read? ==> m.event in w.net
    case Respond(request, choice) => request in w.net && Reply(request, choice).Some?
  }

  /** One act; an act that is not possible changes nothing. */
  function Do(w: World, a: Act): World {
    if !Can(w, a) then w
    else
      match a
      case Orchestrate(m) =>
        World(Next(w.saga, m), w.net + Published(w.saga, m), w.answers, w.follows + CauseOf(w.saga, m))
      case Respond(request, choice) =>
        var reply := Reply(request, choice).value;
        w.(net := w.net + {reply}, answers := w.answers + {(request, reply)})
  }

  function Run(order: Message, acts: seq<Act>): World
    decreases |acts|
  {
    if acts == [] then Begin(order) else Do(Run(order, acts[..|acts| - 1]), acts[|acts| - 1])
  }

  // ------------------------------------------------------------------ the story a row tells

  predicate Unwound(row: Row) {
    row.state == COMPENSATING || row.state == CANCELLED
  }

  /** The order failed after its stock was reserved. */
  predicate AfterReservation(reason: Option<FailureReason>) {
    reason.Some? && (reason.value.FraudRisk? || reason.value.DispatchFailed?)
  }

  /** The commands an order has issued, read off its row. */
  function Trail(row: Row): seq<Message> {
    var c := row.context;
    var pay, reserve := PaymentRequested(c.userId, c.amount), InventoryReservationRequested(c.items);
    var check, ship := FraudCheckRequested(c.userId, c.amount, c.paymentId), ShipmentRequested(c.userId, c.items);
    match row.state
    case PAYMENT_PENDING => [pay]
    case INVENTORY_PENDING => [pay, reserve]
    case FRAUD_PENDING => [pay, reserve, check]
    case SHIPPING_PENDING => [pay, reserve, check, ship]
    case COMPLETED =>
      if c.shipmentId.Some? && c.tracking.Some? then
        [pay, reserve, check, ship,
         OrderCompleted(c.userId, c.amount, c.paymentId, c.shipmentId.value, c.tracking.value),
         NotificationRequested(c.userId, c.tracking.value)]
      else []
    case FAILED => if row.failureReason.Some? then [pay, OrderFailed(c.userId, row.failureReason.value)] else []
    case COMPENSATING => UnwindTrail(row)
    case CANCELLED => UnwindTrail(row) + [OrderCancelled(c.userId, row.failureReason, CompletedOf(c))]
    case _ => []
  }

  function UnwindTrail(row: Row): seq<Message> {
    var c := row.context;
    var pay, reserve := PaymentRequested(c.userId, c.amount), InventoryReservationRequested(c.items);
    var check, ship := FraudCheckRequested(c.userId, c.amount, c.paymentId), ShipmentRequested(c.userId, c.items);
    var release, refund := InventoryReleased(c.reservationId, c.items), PaymentRefundRequested(c.paymentId, c.amount);
    match row.failureReason
    case Some(OutOfStock(_)) => [pay, reserve, refund]
    case Some(FraudRisk(_)) => [pay, reserve, check, release, refund]
    case Some(DispatchFailed(_)) => [pay, reserve, check, ship, release, refund]
    case _ => []
  }

  ghost predicate Paid(net: set<Message>, payment: Id) {
    exists m :: m in net && m.PaymentAuthorized? && m.paymentId == payment
  }

  ghost predicate Refunded(net: set<Message>, payment: Id) {
    exists m :: m in net && m.PaymentRefunded? && m.refundOf == Some(payment)
  }

  ghost predicate Reserved(net: set<Message>, reservation: Id, items: seq<Item>) {
    InventoryReserved(reservation, items) in net
  }

  ghost predicate Released(net: set<Message>, reservation: Id, items: seq<Item>) {
    InventoryReleased(Some(reservation), items) in net
  }

  ghost predicate Dispatched(net: set<Message>, shipment: Id, tracking: Id) {
    exists m :: m in net && m.ShipmentCreated? && m.shipmentId == shipment && m.tracking == tracking
  }

  /** What the services did about the payment the saga accepted. */
  ghost predicate PaymentKnown(row: Row, net: set<Message>) {
    if row.state == PAYMENT_PENDING || row.state == FAILED then row.context.paymentId.None?
    else row.context.paymentId.Some? && Paid(net, row.context.paymentId.value)
  }

  ghost predicate ReservationKnown(row: Row, net: set<Message>) {
    if row.state in {FRAUD_PENDING, SHIPPING_PENDING, COMPLETED} ||
       (Unwound(row) && AfterReservation(row.failureReason))
    then row.context.reservationId.Some? && Reserved(net, row.context.reservationId.value, row.context.items)
    else row.context.reservationId.None?
  }

  ghost predicate ShipmentKnown(row: Row, net: set<Message>) {
    if row.state == COMPLETED
    then row.context.shipmentId.Some? && row.context.tracking.Some? &&
         Dispatched(net, row.context.shipmentId.value, row.context.tracking.value)
    else row.context.shipmentId.None? && row.context.tracking.None?
  }

  /** Each action on the confirmed list was really carried out for this order's own ids. */
  ghost predicate ConfirmedInNet(c: Context, net: set<Message>, a: Action) {
    match a
    case PAYMENT_REFUND => c.paymentId.Some? && Refunded(net, c.paymentId.value)
    case INVENTORY_RELEASE => ReleaseCommand(c) in net
  }

  ghost predicate UnwindKnown(row: Row, net: set<Message>) {
    Unwound(row) ==>
      && row.failureReason.Some? && !row.failureReason.value.PaymentDeclined?
      && (row.failureReason.value.OutOfStock? ==> StockRefused(net))
      && row.context.pending == Some(if AfterReservation(row.failureReason)
                                     then [INVENTORY_RELEASE, PAYMENT_REFUND] else [PAYMENT_REFUND])
      && (forall a :: a in CompletedOf(row.context) ==> ConfirmedInNet(row.context, net, a))
      && (row.state == CANCELLED ==> Covers(CompletedOf(row.context), PendingOf(row.context)))
  }

  ghost predicate FailureKnown(row: Row, net: set<Message>) {
    row.state == FAILED ==> row.failureReason.Some? && (exists m :: m in net && m.PaymentRejected?)
  }

  /** The order passed its fraud check. */
  predicate AfterApproval(row: Row) {
    row.state in {SHIPPING_PENDING, COMPLETED} ||
    (Unwound(row) && row.failureReason.Some? && row.failureReason.value.DispatchFailed?)
  }

  /** Verdicts of the fraud check and of the carrier that the row's state rests on. */
  ghost predicate VerdictsKnown(row: Row, net: set<Message>) {
    && (if AfterApproval(row)
        then row.context.fraudCheckId.Some? && FraudApproved(row.context.fraudCheckId.value) in net
        else row.context.fraudCheckId.None?)
    && (Unwound(row) && row.failureReason.Some? && row.failureReason.value.FraudRisk? ==>
          exists m :: m in net && m.FraudRejected?)
    && (Unwound(row) && row.failureReason.Some? && row.failureReason.value.DispatchFailed? ==>
          exists m :: m in net && m.ShipmentFailed?)
  }

  ghost predicate StockRefused(net: set<Message>) {
    exists m :: m in net && m.InventoryReservationFailed?
  }

  ghost predicate SameOrder(c: Context, order: Message) {
    order.OrderCreated? && c.userId == order.userId && c.amount == order.amount && c.items == order.items
  }

  /** The row, the decided commands and the network agree on what happened so far. */
  ghost predicate Story(order: Message, row: Option<Row>, issued: seq<Message>, net: set<Message>) {
    if row.None? then issued == []
    else
      var r := row.value;
      && SameOrder(r.context, order)
      && r.state in {PAYMENT_PENDING, INVENTORY_PENDING, FRAUD_PENDING, SHIPPING_PENDING, COMPLETED, COMPENSATING,
                     CANCELLED, FAILED}
      && issued == Trail(r)
      && PaymentKnown(r, net) && ReservationKnown(r, net) && ShipmentKnown(r, net) && UnwindKnown(r, net)
      && FailureKnown(r, net) && VerdictsKnown(r, net)
  }

  /** Every message has an origin: the order itself, a decided command, or a service's reply. */
  ghost predicate Explained(order: Message, issued: seq<Message>, net: set<Message>, answers: set<(Message, Message)>) {
    && (forall m :: m in net ==> m == order || m in issued || IsAnswer(answers, m))
    && (forall p :: p in answers ==> p.0 in net && p.1 in net && Answers(p.0, p.1))
    && (forall i :: 0 <= i < |issued| ==> CommandOf(issued[i]) != NotACommand)
  }

  ghost predicate IsAnswer(answers: set<(Message, Message)>, m: Message) {
    exists p :: p in answers && p.1 == m
  }

  ghost predicate DeliveredFromNet(w: World) {
    forall t :: At(w.saga, t).Loaded? ==> At(w.saga, t).event in w.net
  }

  ghost predicate Inv(order: Message, w: World) {
    && order.OrderCreated?
    && order in w.net
    && Sound(w.saga)
    && Story(order, w.saga.row, w.saga.issued, w.net)
    && Explained(order, w.saga.issued, w.net, w.answers)
    && DeliveredFromNet(w)
  }

  // --------------------------------------------------------------- where messages come from

  lemma CommandInNetWasIssued(order: Message, issued: seq<Message>, net: set<Message>, answers: set<(Message, Message)>,
                              m: Message)
    requires Explained(order, issued, net, answers) && order.OrderCreated?
    requires m in net && CommandOf(m) != NotACommand
    ensures m in issued
  {
    hide Answers;
    if IsAnswer(answers, m) {
      var p :| p in answers && p.1 == m;
      AnsweredIsCommand(p.0, p.1);
    }
  }

  lemma ReplyInNetWasAsked(order: Message, issued: seq<Message>, net: set<Message>, answers: set<(Message, Message)>,
                           m: Message)
    returns (request: Message)
    requires Explained(order, issued, net, answers) && order.OrderCreated?
    requires m in net && CommandOf(m) == NotACommand && !m.OrderCreated?
    ensures (request, m) in answers && Answers(request, m) && request in issued
  {
    var p :| p in answers && p.1 == m;
    assert p == (p.0, m);
    request := p.0;
    assert Answers(p.0, p.1);
    AnsweredIsCommand(p.0, p.1);
    CommandInNetWasIssued(order, issued, net, answers, request);
  }

  lemma AnsweredIsCommand(request: Message, reply: Message)
    requires Answers(request, reply)
    ensures CommandOf(request) != NotACommand && IsRequest(request)
    ensures CommandOf(reply) == NotACommand && !reply.OrderCreated?
  {
  }

  /** A refund confirmation on the network is for the payment the order's own refund named. */
  lemma RefundIsOwn(order: Message, row: Row, net: set<Message>, answers: set<(Message, Message)>, m: Message)
    requires Explained(order, Trail(row), net, answers) && order.OrderCreated?
    requires m in net && m.PaymentRefunded?
    ensures Unwound(row) && m.refundOf == row.context.paymentId && m.amount == row.context.amount
    ensures RefundCommand(row.context) in net
  {
    hide Answers;
    var request := ReplyInNetWasAsked(order, Trail(row), net, answers, m);
    AnswerKinds(request, m);
  }

  lemma AnswerKinds(request: Message, reply: Message)
    requires Answers(request, reply)
    ensures reply.PaymentRefunded? ==>
              request.PaymentRefundRequested? && reply.refundOf == request.refundOf && reply.amount == request.amount
    ensures reply.PaymentAuthorized? || reply.PaymentRejected? ==> request.PaymentRequested?
    ensures reply.InventoryReserved? || reply.InventoryReservationFailed? ==>
              request == InventoryReservationRequested(reply.items)
    ensures reply.FraudApproved? || reply.FraudRejected? ==> request.FraudCheckRequested?
    ensures reply.ShipmentCreated? || reply.ShipmentFailed? ==> request.ShipmentRequested?
  {
  }

  lemma ReleaseIsOwn(order: Message, row: Row, net: set<Message>, answers: set<(Message, Message)>, m: Message)
    requires Explained(order, Trail(row), net, answers) && order.OrderCreated?
    requires m in net && m.InventoryReleased?
    ensures Unwound(row) && AfterReservation(row.failureReason) && m == ReleaseCommand(row.context)
  {
    hide Answers;
    CommandInNetWasIssued(order, Trail(row), net, answers, m);
  }

  lemma ReservedIsOwn(order: Message, row: Row, net: set<Message>, answers: set<(Message, Message)>, m: Message)
    requires Explained(order, Trail(row), net, answers) && order.OrderCreated?
    requires m in net && m.InventoryReserved?
    ensures m.items == row.context.items
    ensures row.state != PAYMENT_PENDING && row.state != FAILED
  {
    hide Answers;
    var request := ReplyInNetWasAsked(order, Trail(row), net, answers, m);
    AnswerKinds(request, m);
  }

  // ------------------------------------------------------------------ the story is preserved

  lemma StoryPersists(order: Message, row: Option<Row>, issued: seq<Message>, net: set<Message>, net': set<Message>)
    requires Story(order, row, issued, net) && net <= net'
    ensures Story(order, row, issued, net')
  {
    hide Trail, Covers;
  }

  lemma StoryForward(order: Message, row: Option<Row>, net: set<Message>, answers: set<(Message, Message)>, ev: Message)
    requires row.Some? && Story(order, row, Trail(row.value), net) &&
             Explained(order, Trail(row.value), net, answers) && ev in net
    requires ev.PaymentAuthorized? || ev.InventoryReserved? || ev.FraudApproved? || ev.ShipmentCreated?
    ensures var out := Handle(row, ev); Story(order, out.row, Trail(row.value) + out.commands, net)
  {
    hide Explained, UnwindTrail, Covers;
    if ev.InventoryReserved? {
      ReservedIsOwn(order, row.value, net, answers, ev);
    }
  }

  lemma StoryBackward(order: Message, row: Option<Row>, net: set<Message>, ev: Message)
    requires row.Some? && Story(order, row, Trail(row.value), net) && ev in net
    requires ev.PaymentRejected? || ev.InventoryReservationFailed? || ev.FraudRejected? || ev.ShipmentFailed?
    ensures var out := Handle(row, ev); Story(order, out.row, Trail(row.value) + out.commands, net)
  {
    hide Covers;
  }

  lemma StoryBarrier(order: Message, row: Option<Row>, net: set<Message>, answers: set<(Message, Message)>, ev: Message)
    requires row.Some? && Story(order, row, Trail(row.value), net) &&
             Explained(order, Trail(row.value), net, answers) && ev in net
    requires ev.PaymentRefunded? || ev.InventoryReleased?
    ensures var out := Handle(row, ev); Story(order, out.row, Trail(row.value) + out.commands, net)
  {
    hide Explained, Covers;
    var action := if ev.PaymentRefunded? then PAYMENT_REFUND else INVENTORY_RELEASE;
    if InState(row, COMPENSATING) {
      var c := row.value.context;
      if ev.PaymentRefunded? {
        RefundIsOwn(order, row.value, net, answers, ev);
        assert Refunded(net, c.paymentId.value);
      } else {
        ReleaseIsOwn(order, row.value, net, answers, ev);
      }
      assert ConfirmedInNet(c, net, action);
    }
  }

  lemma StoryHandle(order: Message, row: Option<Row>, issued: seq<Message>, net: set<Message>,
                    answers: set<(Message, Message)>, ev: Message)
    requires order.OrderCreated? && Story(order, row, issued, net) && Explained(order, issued, net, answers) &&
             ev in net
    ensures var out := Handle(row, ev); Story(order, out.row, issued + out.commands, net)
  {
    if ev.OrderCreated? {
      assert ev == order by { OrderIsUnique(order, issued, net, answers, ev); }
      StoryCreated(order, row, issued, net);
    } else if row.None? || Ignored(ev) {
      assert Handle(row, ev) == Outcome(row, []) by { IgnoredWithoutRow(row, ev); }
      assert issued + [] == issued;
    } else if ev.PaymentRefunded? || ev.InventoryReleased? {
      StoryBarrier(order, row, net, answers, ev);
    } else if ev.PaymentRejected? || ev.InventoryReservationFailed? || ev.FraudRejected? || ev.ShipmentFailed? {
      StoryBackward(order, row, net, ev);
    } else {
      StoryForward(order, row, net, answers, ev);
    }
  }

  /** Messages the saga has no transition for. */
  predicate Ignored(m: Message) {
    CommandOf(m) != NotACommand && !m.InventoryReleased?
  }

  lemma IgnoredWithoutRow(row: Option<Row>, ev: Message)
    requires !ev.OrderCreated? && (row.None? || Ignored(ev))
    ensures Handle(row, ev) == Outcome(row, [])
  {
  }

  lemma OrderIsUnique(order: Message, issued: seq<Message>, net: set<Message>, answers: set<(Message, Message)>,
                      ev: Message)
    requires Explained(order, issued, net, answers) && ev in net && ev.OrderCreated?
    ensures ev == order
  {
    hide Answers;
    if IsAnswer(answers, ev) {
      var p :| p in answers && p.1 == ev;
      AnsweredIsCommand(p.0, p.1);
    }
  }

  lemma StoryCreated(order: Message, row: Option<Row>, issued: seq<Message>, net: set<Message>)
    requires order.OrderCreated? && Story(order, row, issued, net)
    ensures var out := Handle(row, order); Story(order, out.row, issued + out.commands, net)
  {
    hide Covers, UnwindTrail;
    assert issued + [] == issued;
  }

  // --------------------------------------------------------------------------- every run

  lemma ExplainedGrows(order: Message, issued: seq<Message>, net: set<Message>, answers: set<(Message, Message)>,
                       commands: seq<Message>, published: set<Message>)
    requires Explained(order, issued, net, answers)
    requires forall i :: 0 <= i < |commands| ==> CommandOf(commands[i]) != NotACommand
    requires forall m :: m in published ==> m in issued + commands
    ensures Explained(order, issued + commands, net + published, answers)
  {
    hide Answers, IsAnswer, CommandOf;
  }

  lemma ExplainedAnswer(order: Message, issued: seq<Message>, net: set<Message>, answers: set<(Message, Message)>,
                        request: Message, reply: Message)
    requires Explained(order, issued, net, answers) && request in net && Answers(request, reply)
    ensures Explained(order, issued, net + {reply}, answers + {(request, reply)})
  {
    hide Answers, CommandOf;
    var answers' := answers + {(request, reply)};
    forall m | m in net + {reply}
      ensures m == order || m in issued || IsAnswer(answers', m)
    {
      if m == reply {
        assert (request, reply) in answers';
      } else if IsAnswer(answers, m) {
        var p :| p in answers && p.1 == m;
        assert p in answers';
      }
    }
  }

  lemma HandleDecidesCommands(row: Option<Row>, ev: Message)
    ensures forall i :: 0 <= i < |Handle(row, ev).commands| ==> CommandOf(Handle(row, ev).commands[i]) != NotACommand
  {
  }

  lemma InvRespond(order: Message, w: World, request: Message, choice: Choice)
    requires Inv(order, w)
    ensures Inv(order, Do(w, Respond(request, choice)))
  {
    hide Sound, Story, Explained, Reply, Answers;
    if Can(w, Respond(request, choice)) {
      RepliesAnswer(request, choice);
      var reply := Reply(request, choice).value;
      StoryPersists(order, w.saga.row, w.saga.issued, w.net, w.net + {reply});
      ExplainedAnswer(order, w.saga.issued, w.net, w.answers, request, reply);
    }
  }

  lemma InvSave(order: Message, w: World, t: Topic)
    requires Inv(order, w) && Enabled(w.saga, Save(t))
    ensures Story(order, Next(w.saga, Save(t)).row, Next(w.saga, Save(t)).issued, w.net)
    ensures Explained(order, Next(w.saga, Save(t)).issued, w.net, w.answers)
  {
    hide Story, Explained, Written, Handle, FreshHandler;
    var h := At(w.saga, t);
    assert FreshHandler(w.saga.row, t, h.event, h.snapshot);
    WrittenIsHandled(w.saga.row, t, h.event, h.snapshot);
    StoryHandle(order, w.saga.row, w.saga.issued, w.net, w.answers, h.event);
    HandleDecidesCommands(w.saga.row, h.event);
    var commands := Handle(w.saga.row, h.event).commands;
    ExplainedGrows(order, w.saga.issued, w.net, w.answers, commands, {});
    assert w.net + {} == w.net;
  }

  lemma DeliveredNext(w: World, m: Move)
    requires DeliveredFromNet(w) && Can(w, Orchestrate(m))
    ensures DeliveredFromNet(Do(w, Orchestrate(m)))
  {
    hide React, Written;
    var w' := Do(w, Orchestrate(m));
    forall t | At(w'.saga, t).Loaded?
      ensures At(w'.saga, t).event in w'.net
    {
      if t != m.topic {
        OthersKept(w.saga, m, t);
      }
    }
  }

  lemma InvOrchestrate(order: Message, w: World, m: Move)
    requires Inv(order, w) && Can(w, Orchestrate(m))
    ensures Inv(order, Do(w, Orchestrate(m)))
  {
    hide Sound, Story, Explained, Reading, Saving, Sending, Failing, DeliveredFromNet;
    var w' := Do(w, Orchestrate(m));
    SoundNext(w.saga, m);
    DeliveredNext(w, m);
    if m.Save? && Enabled(w.saga, m) {
      InvSave(order, w, m.topic);
      assert w'.net == w.net;
    } else {
      OnlySavesDecide(w.saga, m);
      StoryPersists(order, w.saga.row, w.saga.issued, w.net, w'.net);
      assert w.saga.issued + [] == w.saga.issued;
      ExplainedGrows(order, w.saga.issued, w.net, w.answers, [], Published(w.saga, m));
    }
  }

  lemma OnlySavesDecide(o: Orchestration, m: Move)
    requires !(m.Save? && Enabled(o, m))
    ensures Next(o, m).row == o.row && Next(o, m).issued == o.issued
  {
    hide React;
  }

  lemma InvBegin(order: Message)
    requires order.OrderCreated?
    ensures Inv(order, Begin(order))
  {
    hide Sound;
    StartIsSound();
  }

  lemma InvDo(order: Message, w: World, a: Act)
    requires Inv(order, w)
    ensures Inv(order, Do(w, a))
  {
    hide Inv;
    if Can(w, a) {
      match a {
        case Orchestrate(m) => InvOrchestrate(order, w, m);
        case Respond(request, choice) => InvRespond(order, w, request, choice);
      }
    }
  }

  lemma {:induction false} InvAlways(order: Message, acts: seq<Act>)
    requires order.OrderCreated?
    ensures Inv(order, Run(order, acts))
    decreases |acts|
  {
    hide Inv, Do;
    if acts == [] {
      InvBegin(order);
    } else {
      InvAlways(order, acts[..|acts| - 1]);
      InvDo(order, Run(order, acts[..|acts| - 1]), acts[|acts| - 1]);
    }
  }

  // ------------------------------------------------------------ compensation matches effects

  /** A finished order: paid, reserved, approved and shipped, and neither refunded nor released. */
  ghost predicate CompletedMatches(order: Message, w: World)
    requires order.OrderCreated? && w.saga.row.Some?
  {
    var c := w.saga.row.value.context;
    && c.paymentId.Some? && Paid(w.net, c.paymentId.value)
    && c.reservationId.Some? && Reserved(w.net, c.reservationId.value, order.items)
    && c.shipmentId.Some? && c.tracking.Some? && Dispatched(w.net, c.shipmentId.value, c.tracking.value)
    && c.fraudCheckId.Some? && FraudApproved(c.fraudCheckId.value) in w.net
    && (forall m :: m in w.net || m in w.saga.issued ==>
          !m.PaymentRefundRequested? && !m.PaymentRefunded? && !m.InventoryReleased?)
  }

  /** A cancelled order: the accepted payment was refunded, and the accepted reservation, if
      there was one, was released with the items that had been reserved. */
  ghost predicate CancelledMatches(order: Message, w: World)
    requires order.OrderCreated? && w.saga.row.Some?
  {
    var c := w.saga.row.value.context;
    && c.paymentId.Some? && Paid(w.net, c.paymentId.value) && Refunded(w.net, c.paymentId.value)
    && (c.reservationId.Some? ==>
          Reserved(w.net, c.reservationId.value, order.items) && Released(w.net, c.reservationId.value, order.items))
    && (forall m :: m in w.net && m.PaymentRefunded? ==> m.refundOf == c.paymentId && m.amount == order.amount)
    && (forall m :: m in w.net && m.InventoryReleased? ==> c.reservationId.Some? && m.releaseOf == c.reservationId)
  }

  /** A failed order: no payment accepted, and no reservation even asked for. */
  ghost predicate FailedMatches(order: Message, w: World)
    requires order.OrderCreated? && w.saga.row.Some?
  {
    var c := w.saga.row.value.context;
    && c.paymentId.None? && c.reservationId.None?
    && (forall m :: m in w.net || m in w.saga.issued ==>
          !m.InventoryReservationRequested? && !m.InventoryReserved? && !m.PaymentRefundRequested? &&
          !m.PaymentRefunded? && !m.InventoryReleased?)
  }

  lemma CompletedIsClean(order: Message, w: World)
    requires Inv(order, w) && InState(w.saga.row, COMPLETED)
    ensures CompletedMatches(order, w)
  {
    hide Sound, Explained, UnwindTrail;
    var row := w.saga.row.value;
    forall m | m in w.net || m in w.saga.issued
      ensures !m.PaymentRefundRequested? && !m.PaymentRefunded? && !m.InventoryReleased?
    {
      if m in w.net && (m.PaymentRefundRequested? || m.InventoryReleased?) {
        CommandInNetWasIssued(order, Trail(row), w.net, w.answers, m);
      } else if m in w.net && m.PaymentRefunded? {
        RefundIsOwn(order, row, w.net, w.answers, m);
      }
    }
  }

  lemma CancelledIsUndone(order: Message, w: World)
    requires Inv(order, w) && InState(w.saga.row, CANCELLED)
    ensures CancelledMatches(order, w)
  {
    hide Sound, Explained, UnwindTrail;
    var row := w.saga.row.value;
    assert PAYMENT_REFUND in PendingOf(row.context);
    assert ConfirmedInNet(row.context, w.net, PAYMENT_REFUND);
    if row.context.reservationId.Some? {
      assert AfterReservation(row.failureReason);
      assert row.context.pending == Some([INVENTORY_RELEASE, PAYMENT_REFUND]);
      assert [INVENTORY_RELEASE, PAYMENT_REFUND][0] == INVENTORY_RELEASE;
      assert INVENTORY_RELEASE in PendingOf(row.context);
      assert ConfirmedInNet(row.context, w.net, INVENTORY_RELEASE);
    }
    forall m | m in w.net && m.PaymentRefunded?
      ensures m.refundOf == row.context.paymentId && m.amount == order.amount
    {
      RefundIsOwn(order, row, w.net, w.answers, m);
    }
    forall m | m in w.net && m.InventoryReleased?
      ensures row.context.reservationId.Some? && m.releaseOf == row.context.reservationId
    {
      ReleaseIsOwn(order, row, w.net, w.answers, m);
    }
  }

  lemma FailedIsUntouched(order: Message, w: World)
    requires Inv(order, w) && InState(w.saga.row, FAILED)
    ensures FailedMatches(order, w)
  {
    hide Sound, Explained, UnwindTrail;
    var row := w.saga.row.value;
    forall m | m in w.net || m in w.saga.issued
      ensures !m.InventoryReservationRequested? && !m.InventoryReserved? && !m.PaymentRefundRequested? &&
              !m.PaymentRefunded? && !m.InventoryReleased?
    {
      if m in w.net && (m.InventoryReservationRequested? || m.PaymentRefundRequested? || m.InventoryReleased?) {
        CommandInNetWasIssued(order, Trail(row), w.net, w.answers, m);
      } else if m in w.net && m.PaymentRefunded? {
        RefundIsOwn(order, row, w.net, w.answers, m);
      } else if m in w.net && m.InventoryReserved? {
        ReservedIsOwn(order, row, w.net, w.answers, m);
      }
    }
  }

  /** In every state of every run, with any duplication, reordering, loss, handler failure
      and any number of replies per request, the outcome of an order matches what the
      services did for it. */
  lemma CompensationMatchesEffects(order: Message, acts: seq<Act>)
    requires order.OrderCreated?
    ensures var w := Run(order, acts);
            && (InState(w.saga.row, COMPLETED) ==> CompletedMatches(order, w))
            && (InState(w.saga.row, CANCELLED) ==> CancelledMatches(order, w))
            && (InState(w.saga.row, FAILED) ==> FailedMatches(order, w))
  {
    hide Run, Inv, CompletedMatches, CancelledMatches, FailedMatches;
    InvAlways(order, acts);
    var w := Run(order, acts);
    if InState(w.saga.row, COMPLETED) {
      CompletedIsClean(order, w);
    } else if InState(w.saga.row, CANCELLED) {
      CancelledIsUndone(order, w);
    } else if InState(w.saga.row, FAILED) {
      FailedIsUntouched(order, w);
    }
  }

  /** Risky orders never get through: in every run, with or without injected faults, an order
      for unavailable items, of a large amount or by a suspicious user is never completed,
      and one for unavailable items never even gets to the fraud check. */
  lemma RiskyOrdersNeverComplete(order: Message, acts: seq<Act>)
    requires order.OrderCreated?
    ensures Unavailable(order.items) || HighRisk(order.userId, order.amount) ==>
              !InState(Run(order, acts).saga.row, COMPLETED)
    ensures Unavailable(order.items) ==> forall m :: m in Run(order, acts).net ==> !m.FraudCheckRequested?
  {
    hide Run, Sound, Unavailable, HighRisk;
    InvAlways(order, acts);
    var w := Run(order, acts);
    if w.saga.row.Some? && w.saga.row.value.context.reservationId.Some? {
      AcceptedIsAvailable(order, w);
    }
    if InState(w.saga.row, COMPLETED) {
      CompletedIsClean(order, w);
      ApprovedIsLowRisk(order, w);
    }
    forall m | m in w.net && m.FraudCheckRequested?
      ensures w.saga.row.Some? && w.saga.row.value.context.reservationId.Some?
    {
      CheckedWasReserved(order, w, m);
    }
  }

  lemma AcceptedIsAvailable(order: Message, w: World)
    requires order.OrderCreated? && Inv(order, w) && w.saga.row.Some? && w.saga.row.value.context.reservationId.Some?
    ensures !Unavailable(order.items)
  {
    hide Sound, Explained, Trail, Unavailable, PaymentKnown, ShipmentKnown, UnwindKnown, VerdictsKnown;
    var c := w.saga.row.value.context;
    var m := InventoryReserved(c.reservationId.value, c.items);
    var q := ReplyInNetWasAsked(order, w.saga.issued, w.net, w.answers, m);
  }

  lemma ApprovedIsLowRisk(order: Message, w: World)
    requires order.OrderCreated? && Inv(order, w) && InState(w.saga.row, COMPLETED)
    ensures !HighRisk(order.userId, order.amount)
  {
    hide Sound, Explained, Unavailable, HighRisk, PaymentKnown, ReservationKnown, UnwindKnown;
    var row := w.saga.row.value;
    var q := ReplyInNetWasAsked(order, w.saga.issued, w.net, w.answers, FraudApproved(row.context.fraudCheckId.value));
  }

  lemma CheckedWasReserved(order: Message, w: World, m: Message)
    requires order.OrderCreated? && Inv(order, w) && m in w.net && m.FraudCheckRequested?
    ensures w.saga.row.Some? && w.saga.row.value.context.reservationId.Some?
  {
    hide Sound, Explained, PaymentKnown, ShipmentKnown, UnwindKnown, VerdictsKnown;
    CommandInNetWasIssued(order, w.saga.issued, w.net, w.answers, m);
  }

  /** Refunds are in full: in every run, a refund that was asked for or made names a payment
      authorised for this order and carries the order's amount. */
  lemma RefundsAreInFull(order: Message, acts: seq<Act>, m: Message)
    requires order.OrderCreated? && m in Run(order, acts).net && (m.PaymentRefundRequested? || m.PaymentRefunded?)
    ensures m.amount == order.amount && m.refundOf.Some? && Paid(Run(order, acts).net, m.refundOf.value)
  {
    hide Run, Sound, Explained, Answers, ReservationKnown, ShipmentKnown, UnwindKnown, FailureKnown, VerdictsKnown;
    InvAlways(order, acts);
    var w := Run(order, acts);
    var q := m;
    if m.PaymentRefunded? {
      q := ReplyInNetWasAsked(order, w.saga.issued, w.net, w.answers, m);
      AnswerKinds(q, m);
    } else {
      CommandInNetWasIssued(order, w.saga.issued, w.net, w.answers, m);
    }
    assert q in w.saga.issued && q.PaymentRefundRequested?;
  }

  /** Every release on the network follows a reservation with the same id and items. */
  lemma ReleaseFollowsReservation(order: Message, acts: seq<Act>, m: Message)
    requires order.OrderCreated? && m in Run(order, acts).net && m.InventoryReleased?
    ensures m.releaseOf.Some? && InventoryReserved(m.releaseOf.value, m.items) in Run(order, acts).net
    ensures m.items == order.items
  {
    hide Run, Sound, Explained;
    InvAlways(order, acts);
    var w := Run(order, acts);
    if w.saga.row.None? {
      CommandInNetWasIssued(order, w.saga.issued, w.net, w.answers, m);
    } else {
      ReleaseIsOwn(order, w.saga.row.value, w.net, w.answers, m);
    }
  }

  // ------------------------------------------------------- one reply per request, or orphans

  /** Deduplication held: no request was answered twice with different replies. */
  ghost predicate OneAnswer(answers: set<(Message, Message)>) {
    forall p, q :: p in answers && q in answers && p.0 == q.0 ==> p.1 == q.1
  }

  /** The command a reply answers. */
  function Question(reply: Message): Command {
    match reply
    case PaymentAuthorized(_, _, _, _) | PaymentRejected(_) => PaymentCmd
    case InventoryReserved(_, _) | InventoryReservationFailed(_, _) => ReservationCmd
    case FraudApproved(_) | FraudRejected(_, _) => FraudCheckCmd
    case ShipmentCreated(_, _, _) | ShipmentFailed(_) => ShipmentCmd
    case PaymentRefunded(_, _, _) => RefundCmd
    case _ => NotACommand
  }

  lemma AnswersItsQuestion(request: Message, reply: Message)
    requires Answers(request, reply)
    ensures Question(reply) == CommandOf(request)
  {
  }

  /** With one reply per request, two replies to the same kind of command are the same reply. */
  lemma SameQuestionSameAnswer(order: Message, issued: seq<Message>, net: set<Message>,
                               answers: set<(Message, Message)>, a: Message, b: Message)
    requires Explained(order, issued, net, answers) && order.OrderCreated? && AllDifferent(issued) && OneAnswer(answers)
    requires a in net && b in net && Question(a) == Question(b) != NotACommand
    ensures a == b
  {
    hide Answers, Explained;
    var p := ReplyInNetWasAsked(order, issued, net, answers, a);
    var q := ReplyInNetWasAsked(order, issued, net, answers, b);
    AnswersItsQuestion(p, a);
    AnswersItsQuestion(q, b);
    var i :| 0 <= i < |issued| && issued[i] == p;
    var j :| 0 <= j < |issued| && issued[j] == q;
    assert i == j;
    assert (p, a).0 == (q, b).0 ==> (p, a).1 == (q, b).1;
  }

  /** If every request was answered at most once, nothing the services did is left behind:
      a cancelled order has every authorised payment refunded and every reservation
      released, a failed one has no authorised payment, and a completed one has exactly the
      payment and the reservation it accepted. */
  lemma NothingOrphaned(order: Message, acts: seq<Act>)
    requires order.OrderCreated? && OneAnswer(Run(order, acts).answers)
    ensures var w := Run(order, acts);
            && (InState(w.saga.row, CANCELLED) ==>
                  && (forall m :: m in w.net && m.PaymentAuthorized? ==> Refunded(w.net, m.paymentId))
                  && (forall m :: m in w.net && m.InventoryReserved? ==> Released(w.net, m.reservationId, m.items)))
            && (InState(w.saga.row, FAILED) ==> forall m :: m in w.net ==> !m.PaymentAuthorized?)
            && (InState(w.saga.row, COMPLETED) ==>
                  && (forall m :: m in w.net && m.PaymentAuthorized? ==>
                        Some(m.paymentId) == w.saga.row.value.context.paymentId)
                  && (forall m :: m in w.net && m.InventoryReserved? ==>
                        Some(m.reservationId) == w.saga.row.value.context.reservationId))
  {
    hide Run, Sound, Explained, Trail;
    InvAlways(order, acts);
    CompensationMatchesEffects(order, acts);
    var w := Run(order, acts);
    DecidedCommandsDiffer(w.saga);
    if w.saga.row.Some? && w.saga.row.value.state in {CANCELLED, FAILED, COMPLETED} {
      var row := w.saga.row.value;
      forall m | m in w.net && m.PaymentAuthorized?
        ensures row.state != FAILED && Some(m.paymentId) == row.context.paymentId
      {
        OwnPayment(order, row, w.net, w.answers, m);
      }
      forall m | m in w.net && m.InventoryReserved? && row.state != FAILED
        ensures Some(m.reservationId) == row.context.reservationId && m.items == order.items
      {
        OwnReservation(order, row, w.net, w.answers, m);
      }
    }
  }

  lemma DecidedCommandsDiffer(o: Orchestration)
    requires Sound(o)
    ensures AllDifferent(o.issued) && Used(o.row)
  {
    hide Fresh, DeliveriesAccounted, CommandsAccounted, HandleAll;
    SerialCommandsDiffer(o.served);
  }

  lemma OwnPayment(order: Message, row: Row, net: set<Message>, answers: set<(Message, Message)>, m: Message)
    requires Story(order, Some(row), Trail(row), net) && Explained(order, Trail(row), net, answers) &&
             AllDifferent(Trail(row)) && OneAnswer(answers)
    requires row.state in {CANCELLED, FAILED, COMPLETED} && m in net && m.PaymentAuthorized?
    ensures row.state != FAILED && Some(m.paymentId) == row.context.paymentId
  {
    hide Explained, Trail, OneAnswer;
    if row.state == FAILED {
      var b :| b in net && b.PaymentRejected?;
      SameQuestionSameAnswer(order, Trail(row), net, answers, m, b);
    } else {
      var b :| b in net && b.PaymentAuthorized? && b.paymentId == row.context.paymentId.value;
      SameQuestionSameAnswer(order, Trail(row), net, answers, m, b);
    }
  }

  lemma OwnReservation(order: Message, row: Row, net: set<Message>, answers: set<(Message, Message)>, m: Message)
    requires Story(order, Some(row), Trail(row), net) && Explained(order, Trail(row), net, answers) &&
             AllDifferent(Trail(row)) && OneAnswer(answers)
    requires row.state in {CANCELLED, COMPLETED} && m in net && m.InventoryReserved?
    ensures Some(m.reservationId) == row.context.reservationId && m.items == order.items
  {
    hide Explained, Trail, OneAnswer;
    if row.context.reservationId.Some? {
      SameQuestionSameAnswer(order, Trail(row), net, answers, m,
                             InventoryReserved(row.context.reservationId.value, row.context.items));
    } else {
      assert StockRefused(net);
      var b :| b in net && b.InventoryReservationFailed?;
      SameQuestionSameAnswer(order, Trail(row), net, answers, m, b);
    }
  }

  // ------------------------------------------------------------ the exact price of more replies

  /** Some service reply authorised a payment. */
  ghost predicate Authorises(answers: set<(Message, Message)>) {
    exists p :: p in answers && p.1.PaymentAuthorized?
  }

  /** All authorising replies name one payment. */
  ghost predicate OnePaymentId(answers: set<(Message, Message)>) {
    forall p, q :: p in answers && q in answers && p.1.PaymentAuthorized? && q.1.PaymentAuthorized? ==>
      p.1.paymentId == q.1.paymentId
  }

  /** Some service reply reserved stock. */
  ghost predicate Reserves(answers: set<(Message, Message)>) {
    exists p :: p in answers && p.1.InventoryReserved?
  }

  /** All reserving replies name one reservation. */
  ghost predicate OneReservationId(answers: set<(Message, Message)>) {
    forall p, q :: p in answers && q in answers && p.1.InventoryReserved? && q.1.InventoryReserved? ==>
      p.1.reservationId == q.1.reservationId
  }

  /** The fraud check was answered, so the saga had accepted a reservation. */
  ghost predicate Judged(answers: set<(Message, Message)>) {
    exists p :: p in answers && (p.1.FraudApproved? || p.1.FraudRejected?)
  }

  ghost predicate AllRefunded(net: set<Message>) {
    forall m :: m in net && m.PaymentAuthorized? ==> Refunded(net, m.paymentId)
  }

  ghost predicate AllReleased(net: set<Message>) {
    forall m :: m in net && m.InventoryReserved? ==> Released(net, m.reservationId, m.items)
  }

  /** The replies on the network are the second halves of the answers. */
  lemma RepliesAreAnswers(order: Message, w: World)
    requires Inv(order, w)
    ensures forall m :: m in w.net && Question(m) != NotACommand ==> IsAnswer(w.answers, m)
    ensures forall p :: p in w.answers ==> p.1 in w.net
  {
    hide Sound, Story, Answers;
    forall m | m in w.net && Question(m) != NotACommand
      ensures IsAnswer(w.answers, m)
    {
      var q := ReplyInNetWasAsked(order, w.saga.issued, w.net, w.answers, m);
      assert (q, m) in w.answers;
    }
  }

  /** All authorisations are the accepted one if and only if they name one payment. */
  lemma PaymentsAreOne(w: World, id: Id)
    requires forall m :: m in w.net && m.PaymentAuthorized? ==> IsAnswer(w.answers, m)
    requires forall p :: p in w.answers ==> p.1 in w.net
    requires Paid(w.net, id)
    ensures (forall m :: m in w.net && m.PaymentAuthorized? ==> m.paymentId == id) <==> OnePaymentId(w.answers)
  {
    if OnePaymentId(w.answers) {
      var a :| a in w.net && a.PaymentAuthorized? && a.paymentId == id;
      assert IsAnswer(w.answers, a);
      var p :| p in w.answers && p.1 == a;
      forall m | m in w.net && m.PaymentAuthorized?
        ensures m.paymentId == id
      {
        var q :| q in w.answers && q.1 == m;
      }
    }
  }

  lemma ReservationsAreOne(w: World, id: Id, items: seq<Item>)
    requires forall m :: m in w.net && m.InventoryReserved? ==> IsAnswer(w.answers, m)
    requires forall p :: p in w.answers ==> p.1 in w.net
    requires Reserved(w.net, id, items)
    ensures (forall m :: m in w.net && m.InventoryReserved? ==> m.reservationId == id) <==> OneReservationId(w.answers)
  {
    if OneReservationId(w.answers) {
      var a := InventoryReserved(id, items);
      assert IsAnswer(w.answers, a);
      var p :| p in w.answers && p.1 == a;
      forall m | m in w.net && m.InventoryReserved?
        ensures m.reservationId == id
      {
        var q :| q in w.answers && q.1 == m;
      }
    }
  }

  lemma CancelledPayments(order: Message, w: World)
    requires Inv(order, w) && InState(w.saga.row, CANCELLED)
    ensures AllRefunded(w.net) <==> OnePaymentId(w.answers)
  {
    hide Inv;
    CancelledIsUndone(order, w);
    RepliesAreAnswers(order, w);
    var id := w.saga.row.value.context.paymentId.value;
    PaymentsAreOne(w, id);
    if AllRefunded(w.net) {
      forall m | m in w.net && m.PaymentAuthorized?
        ensures m.paymentId == id
      {
        assert Refunded(w.net, m.paymentId);
        var r :| r in w.net && r.PaymentRefunded? && r.refundOf == Some(m.paymentId);
      }
    }
  }

  lemma CancelledReservations(order: Message, w: World)
    requires order.OrderCreated? && Inv(order, w) && InState(w.saga.row, CANCELLED)
    ensures AllReleased(w.net) <==> if Judged(w.answers) then OneReservationId(w.answers) else !Reserves(w.answers)
  {
    hide Inv, CancelledMatches, Judged, Reserves, OneReservationId;
    RepliesAreAnswers(order, w);
    JudgedMeansReserved(order, w);
    CancelledReleases(order, w);
    var c := w.saga.row.value.context;
    if c.reservationId.Some? {
      ReservationsAreOne(w, c.reservationId.value, order.items);
    } else {
      NoneReserved(w);
    }
  }

  lemma NoneReserved(w: World)
    requires forall m :: m in w.net && m.InventoryReserved? ==> IsAnswer(w.answers, m)
    requires forall p :: p in w.answers ==> p.1 in w.net
    ensures (forall m :: m in w.net ==> !m.InventoryReserved?) <==> !Reserves(w.answers)
  {
    forall m | m in w.net && m.InventoryReserved?
      ensures Reserves(w.answers)
    {
      assert IsAnswer(w.answers, m);
      var p :| p in w.answers && p.1 == m;
    }
  }

  /** What the one release, if there was one, covers. */
  lemma CancelledReleases(order: Message, w: World)
    requires Inv(order, w) && InState(w.saga.row, CANCELLED)
    ensures var c := w.saga.row.value.context;
            if c.reservationId.Some?
            then Reserved(w.net, c.reservationId.value, order.items) &&
                 (AllReleased(w.net) <==>
                    forall m :: m in w.net && m.InventoryReserved? ==> m.reservationId == c.reservationId.value)
            else AllReleased(w.net) <==> forall m :: m in w.net ==> !m.InventoryReserved?
  {
    hide Sound, Explained, Story;
    CancelledIsUndone(order, w);
    var c := w.saga.row.value.context;
    forall m | m in w.net && m.InventoryReserved?
      ensures m.items == order.items
    {
      ReservedItems(order, w, m);
    }
    forall m | m in w.net && m.InventoryReserved? && Released(w.net, m.reservationId, m.items)
      ensures Some(m.reservationId) == c.reservationId
    {
      assert InventoryReleased(Some(m.reservationId), m.items).InventoryReleased?;
    }
  }

  lemma ReservedItems(order: Message, w: World, m: Message)
    requires Inv(order, w) && w.saga.row.Some? && m in w.net && m.InventoryReserved?
    ensures m.items == order.items
  {
    hide Sound, Explained, Trail;
    ReservedIsOwn(order, w.saga.row.value, w.net, w.answers, m);
  }

  lemma JudgedMeansReserved(order: Message, w: World)
    requires Inv(order, w) && InState(w.saga.row, CANCELLED)
    ensures Judged(w.answers) <==> w.saga.row.value.context.reservationId.Some?
  {
    hide Sound, Explained, Answers, Story, Trail;
    RepliesAreAnswers(order, w);
    var row := w.saga.row.value;
    StoryIsTrail(order, row, w.saga.issued, w.net);
    if Judged(w.answers) {
      var p :| p in w.answers && (p.1.FraudApproved? || p.1.FraudRejected?);
      var q := ReplyInNetWasAsked(order, w.saga.issued, w.net, w.answers, p.1);
      AnswersItsQuestion(q, p.1);
      CheckedAfterReservation(row, q);
      ReservationIsKnown(order, row, w.net);
    }
    if row.context.reservationId.Some? {
      var m := VerdictInNet(order, row, w.net);
      assert IsAnswer(w.answers, m);
      var p :| p in w.answers && p.1 == m;
    }
  }

  lemma StoryIsTrail(order: Message, row: Row, issued: seq<Message>, net: set<Message>)
    requires Story(order, Some(row), issued, net)
    ensures issued == Trail(row)
  {
    hide Trail;
  }

  lemma ReservationIsKnown(order: Message, row: Row, net: set<Message>)
    requires Story(order, Some(row), Trail(row), net) && row.state == CANCELLED && AfterReservation(row.failureReason)
    ensures row.context.reservationId.Some?
  {
    hide Trail, PaymentKnown, ShipmentKnown, UnwindKnown, VerdictsKnown;
  }

  lemma VerdictInNet(order: Message, row: Row, net: set<Message>) returns (m: Message)
    requires Story(order, Some(row), Trail(row), net) && row.state == CANCELLED && row.context.reservationId.Some?
    ensures m in net && (m.FraudApproved? || m.FraudRejected?)
  {
    hide Trail, PaymentKnown, ShipmentKnown, UnwindKnown;
    m :| m in net && (m.FraudApproved? || m.FraudRejected?);
  }

  lemma CheckedAfterReservation(row: Row, q: Message)
    requires row.state == CANCELLED && q in Trail(row) && CommandOf(q) == FraudCheckCmd
    ensures AfterReservation(row.failureReason)
  {
  }

  lemma FailedPayments(order: Message, w: World)
    requires Inv(order, w) && InState(w.saga.row, FAILED)
    ensures AllRefunded(w.net) <==> !Authorises(w.answers)
  {
    hide Inv;
    FailedIsUntouched(order, w);
    RepliesAreAnswers(order, w);
    forall m | m in w.net && m.PaymentAuthorized?
      ensures Authorises(w.answers)
    {
      assert IsAnswer(w.answers, m);
      var p :| p in w.answers && p.1 == m;
    }
    if p :| p in w.answers && p.1.PaymentAuthorized? {
      assert !Refunded(w.net, p.1.paymentId);
    }
  }

  lemma CompletedExtras(order: Message, w: World)
    requires order.OrderCreated? && Inv(order, w) && InState(w.saga.row, COMPLETED)
    ensures var c := w.saga.row.value.context;
            && ((forall m :: m in w.net && m.PaymentAuthorized? ==> Some(m.paymentId) == c.paymentId) <==>
                  OnePaymentId(w.answers))
            && ((forall m :: m in w.net && m.InventoryReserved? ==> Some(m.reservationId) == c.reservationId) <==>
                OneReservationId(w.answers))
  {
    hide Inv, OnePaymentId, OneReservationId;
    CompletedIsClean(order, w);
    RepliesAreAnswers(order, w);
    var c := w.saga.row.value.context;
    PaymentsAreOne(w, c.paymentId.value);
    ReservationsAreOne(w, c.reservationId.value, order.items);
  }

  /** Without that assumption, what the services' replies must satisfy is known exactly, in
      every run: a cancelled order has every authorised payment refunded if and only if the
      authorising replies name one payment, and every reservation released if and only if
      the reserving replies name one reservation, or, where the fraud check was never
      answered, none; a failed order keeps no payment if and only if no reply authorised
      one; a completed order paid and reserved once if and only if the replies name one
      payment and one reservation. */
  lemma OrphansExactly(order: Message, acts: seq<Act>)
    requires order.OrderCreated?
    ensures var w := Run(order, acts);
            && (InState(w.saga.row, CANCELLED) ==>
                  && (AllRefunded(w.net) <==> OnePaymentId(w.answers))
                  && (AllReleased(w.net) <==>
                        if Judged(w.answers) then OneReservationId(w.answers) else !Reserves(w.answers)))
            && (InState(w.saga.row, FAILED) ==>
                  && (AllRefunded(w.net) <==> !Authorises(w.answers))
                  && AllReleased(w.net))
            && (InState(w.saga.row, COMPLETED) ==>
                  var c := w.saga.row.value.context;
                  && ((forall m :: m in w.net && m.PaymentAuthorized? ==> Some(m.paymentId) == c.paymentId) <==>
                      OnePaymentId(w.answers))
                  && ((forall m :: m in w.net && m.InventoryReserved? ==> Some(m.reservationId) == c.reservationId) <==>
                      OneReservationId(w.answers)))
  {
    hide Run, Inv, AllRefunded, Judged, Reserves, Authorises, OnePaymentId, OneReservationId;
    InvAlways(order, acts);
    var w := Run(order, acts);
    if InState(w.saga.row, CANCELLED) {
      CancelledPayments(order, w);
      CancelledReservations(order, w);
    } else if InState(w.saga.row, FAILED) {
      FailedPayments(order, w);
      FailedIsUntouched(order, w);
    } else if InState(w.saga.row, COMPLETED) {
      CompletedExtras(order, w);
    }
  }
}
