/**
 Agreement of the two views of an order: the saga row that drives it and the read model that
 customers see. For every causally ordered history of a settled order, folding it into the
 read models gives the status and the payment row that the saga's outcome calls for.
 */
module Agreement {
  import opened Contracts
  import opened Saga
  import opened SagaConcurrency
  import opened Consumers
  import opened Fulfilment
  import opened Progress
  import opened Liveness
  import opened Causality
  import opened EventStore
  import P = Projection
  import R = Replay

  // ---------------------------------------------------------------- the fold, on bodies alone

  function Bodies(es: seq<Envelope>): seq<Message> {
    seq(|es|, i requires 0 <= i < |es| => es[i].body)
  }

  /** The columns of an order row, but for its timestamps. */
  datatype Field =
    | STATUS | USER | AMOUNT | ITEMS | PAYMENT_ID | RESERVATION_ID | FRAUD_CHECK_ID | SHIPMENT_ID | TRACKING | REASON

  datatype Value =
    | AStatus(status: P.Status) | AnId(id: Id) | AnAmount(amount: real) | Lines(items: seq<Item>)
    | AReason(reason: P.ReasonText)

  function StatusOf(m: Message): Option<P.Status> {
    match m
    case OrderCreated(_, _, _) => Some(P.Pending)
    case PaymentRequested(_, _) => Some(P.PaymentPending)
    case PaymentAuthorized(_, _, _, _) => Some(P.PaymentApproved)
    case PaymentRejected(_) => Some(P.PaymentDeclinedStatus)
    case InventoryReservationRequested(_) => Some(P.InventoryPending)
    case InventoryReserved(_, _) => Some(P.InventoryReservedStatus)
    case InventoryReservationFailed(_, _) => Some(P.InventoryFailed)
    case FraudCheckRequested(_, _, _) => Some(P.FraudPending)
    case FraudApproved(_) => Some(P.FraudApprovedStatus)
    case FraudRejected(_, _) => Some(P.FraudRejectedStatus)
    case ShipmentRequested(_, _) => Some(P.ShippingPending)
    case ShipmentCreated(_, _, _) => Some(P.ShippingCreated)
    case OrderCompleted(_, _, _, _, _) => Some(P.CompletedStatus)
    case OrderCancelled(_, _, _) => Some(P.CancelledStatus)
    case OrderFailed(_, _) => Some(P.FailedStatus)
    case _ => None
  }

  /** The value a message gives a column, if it gives one. */
  function Writes(m: Message, f: Field): Option<Value> {
    match f
    case STATUS => if StatusOf(m).Some? then Some(AStatus(StatusOf(m).value)) else None
    case USER => if m.OrderCreated? then Some(AnId(m.userId)) else None
    case AMOUNT => if m.OrderCreated? then Some(AnAmount(m.amount)) else None
    case ITEMS => if m.OrderCreated? then Some(Lines(m.items)) else None
    case PAYMENT_ID => if m.PaymentAuthorized? then Some(AnId(m.paymentId)) else None
    case RESERVATION_ID => if m.InventoryReserved? then Some(AnId(m.reservationId)) else None
    case FRAUD_CHECK_ID => if m.FraudApproved? then Some(AnId(m.fraudCheckId)) else None
    case SHIPMENT_ID => if m.ShipmentCreated? then Some(AnId(m.shipmentId)) else None
    case TRACKING => if m.ShipmentCreated? then Some(AnId(m.tracking)) else None
    case REASON =>
      if m.PaymentRejected? || m.InventoryReservationFailed? || m.FraudRejected? then Some(AReason(P.Given(m.reason)))
      else if m.OrderCancelled? then Some(AReason(P.Composed(m.cause)))
      else if m.OrderFailed? then Some(AReason(P.Composed(Some(m.failure))))
      else None
  }

  function AnIdIf(id: Option<Id>): Option<Value> { if id.Some? then Some(AnId(id.value)) else None }

  function Holds(r: P.OrderRow, f: Field): Option<Value> {
    match f
    case STATUS => Some(AStatus(r.status))
    case USER => Some(AnId(r.userId))
    case AMOUNT => Some(AnAmount(r.amount))
    case ITEMS => Some(Lines(r.items))
    case PAYMENT_ID => AnIdIf(r.paymentId)
    case RESERVATION_ID => AnIdIf(r.reservationId)
    case FRAUD_CHECK_ID => AnIdIf(r.fraudCheckId)
    case SHIPMENT_ID => AnIdIf(r.shipmentId)
    case TRACKING => AnIdIf(r.tracking)
    case REASON => if r.failureReason.Some? then Some(AReason(r.failureReason.value)) else None
  }

  /** A column of the order, if its row exists. */
  function ValueIn(v: R.View, f: Field): Option<Option<Value>> {
    if v.order.Some? then Some(Holds(v.order.value, f)) else None
  }

  /** The order's creation makes the row; from then on the last writer of a column decides. */
  function Updated(before: Option<Option<Value>>, m: Message, f: Field): Option<Option<Value>> {
    if before.None? then (if m.OrderCreated? then Some(Writes(m, f)) else None)
    else if Writes(m, f).None? || (m.OrderCreated? && f == USER) then before
    else Some(Writes(m, f))
  }

  function LastValue(h: seq<Message>, f: Field): Option<Option<Value>>
    decreases |h|
  {
    if h == [] then None else Updated(LastValue(h[..|h| - 1], f), h[|h| - 1], f)
  }

  /** A payment row, but for its timestamps. */
  datatype Payment = Payment(userId: Id, amount: real, authCode: Id, status: P.PaymentStatus, refund: Option<Id>)

  /** A shipment row, but for its timestamps. */
  datatype Shipment = Shipment(tracking: Id, estimate: Id)

  /** Authorisation adds a payment or revives it, a refund touches all of them. */
  function Pay(before: map<Id, Payment>, m: Message): map<Id, Payment> {
    match m
    case PaymentAuthorized(p, user, amount, code) =>
      if p in before then before[p := before[p].(status := P.AUTHORIZED)]
      else before[p := Payment(user, amount, code, P.AUTHORIZED, None)]
    case PaymentRefunded(refund, _, _) =>
      map p | p in before :: before[p].(status := P.REFUNDED, refund := Some(refund))
    case _ => before
  }

  function LastPayments(h: seq<Message>): map<Id, Payment>
    decreases |h|
  {
    if h == [] then map[] else Pay(LastPayments(h[..|h| - 1]), h[|h| - 1])
  }

  /** The first message about a shipment makes its row. */
  function Ship(before: map<Id, Shipment>, m: Message): map<Id, Shipment> {
    if m.ShipmentCreated? && m.shipmentId !in before then before[m.shipmentId := Shipment(m.tracking, m.estimate)]
    else before
  }

  function LastShipments(h: seq<Message>): map<Id, Shipment>
    decreases |h|
  {
    if h == [] then map[] else Ship(LastShipments(h[..|h| - 1]), h[|h| - 1])
  }

  function PaymentOf(r: P.PaymentRow): Payment { Payment(r.userId, r.amount, r.authCode, r.status, r.refundId) }

  function PaymentsIn(v: R.View): map<Id, Payment> {
    map p | p in v.payments :: PaymentOf(v.payments[p])
  }

  function ShipmentsIn(v: R.View): map<Id, Shipment> {
    map s | s in v.shipments :: Shipment(v.shipments[s].tracking, v.shipments[s].estimate)
  }

  lemma FieldStep(t: P.Tables, e: Envelope, f: Field)
    ensures ValueIn(R.ViewOf(P.Mutate(t, e), e.aggregate), f) ==
              Updated(ValueIn(R.ViewOf(t, e.aggregate), f), e.body, f)
  {
    hide P.PaymentsAfter, P.ShipmentsAfter, P.StockAfter;
  }

  lemma PaymentStep(t: P.Tables, e: Envelope)
    requires R.IdsFree(t, e)
    ensures PaymentsIn(R.ViewOf(P.Mutate(t, e), e.aggregate)) == Pay(PaymentsIn(R.ViewOf(t, e.aggregate)), e.body)
  {
    hide P.OrdersAfter, P.ShipmentsAfter, P.StockAfter;
  }

  lemma ShipmentStep(t: P.Tables, e: Envelope)
    requires R.IdsFree(t, e)
    ensures ShipmentsIn(R.ViewOf(P.Mutate(t, e), e.aggregate)) == Ship(ShipmentsIn(R.ViewOf(t, e.aggregate)), e.body)
  {
    hide P.OrdersAfter, P.PaymentsAfter, P.StockAfter;
  }

  lemma {:induction false} FoldField(o: Id, es: seq<Envelope>, f: Field)
    requires R.AllOf(es, o)
    ensures ValueIn(R.FromScratch(o, es), f) == LastValue(Bodies(es), f)
    decreases |es|
  {
    hide P.Mutate, R.ViewOf, Updated, ValueIn;
    if es == [] {
      NothingAtFirst(o, f);
    } else {
      var n := |es| - 1;
      FoldField(o, es[..n], f);
      FieldStep(P.MutateAll(R.EMPTY, es[..n]), es[n], f);
      assert Bodies(es)[..n] == Bodies(es[..n]);
    }
  }

  lemma {:induction false} FoldRows(o: Id, es: seq<Envelope>)
    requires R.AllOf(es, o)
    ensures PaymentsIn(R.FromScratch(o, es)) == LastPayments(Bodies(es))
    ensures ShipmentsIn(R.FromScratch(o, es)) == LastShipments(Bodies(es))
    decreases |es|
  {
    hide P.Mutate, R.ViewOf, PaymentsIn, ShipmentsIn, Pay, Ship, R.IdsFree, R.SharesId;
    if es == [] {
      NothingAtFirst(o, STATUS);
    } else {
      var n := |es| - 1;
      FoldRows(o, es[..n]);
      EmptyOwnsNothing(es[n]);
      R.OwnersStay(R.EMPTY, es[..n], es[n]);
      PaymentStep(P.MutateAll(R.EMPTY, es[..n]), es[n]);
      ShipmentStep(P.MutateAll(R.EMPTY, es[..n]), es[n]);
      assert Bodies(es)[..n] == Bodies(es[..n]);
    }
  }

  lemma NothingAtFirst(o: Id, f: Field)
    ensures ValueIn(R.ViewOf(R.EMPTY, o), f) == None
    ensures PaymentsIn(R.ViewOf(R.EMPTY, o)) == map[] && ShipmentsIn(R.ViewOf(R.EMPTY, o)) == map[]
  {
  }

  lemma EmptyOwnsNothing(e: Envelope)
    ensures R.IdsFree(R.EMPTY, e)
  {
  }

  // --------------------------------------------------------------- the last word on a column

  /** The order is created once, by message number `i`. */
  ghost predicate CreatedAt(h: seq<Message>, i: nat) {
    i < |h| && h[i].OrderCreated? && forall j :: 0 <= j < |h| && h[j].OrderCreated? ==> j == i
  }

  lemma CreatedInPrefix(h: seq<Message>, i: nat, n: nat)
    requires CreatedAt(h, i) && i < n <= |h|
    ensures CreatedAt(h[..n], i)
  {
  }

  lemma {:induction false} NoRowYet(h: seq<Message>, f: Field)
    requires forall j :: 0 <= j < |h| ==> !h[j].OrderCreated?
    ensures LastValue(h, f).None?
    decreases |h|
  {
    if h == [] {
    } else {
      NoRowYet(h[..|h| - 1], f);
    }
  }

  lemma {:induction false} RowExists(h: seq<Message>, i: nat, f: Field)
    requires CreatedAt(h, i)
    ensures LastValue(h, f).Some?
    decreases |h|
  {
    hide Writes;
    var n := |h| - 1;
    if i < n {
      CreatedInPrefix(h, i, n);
      RowExists(h[..n], i, f);
    } else {
      NoRowYet(h[..n], f);
    }
  }

  /** The last message to write a column of the order decides its value. */
  lemma {:induction false} LastWriter(h: seq<Message>, i: nat, k: nat, f: Field)
    requires CreatedAt(h, i) && i <= k < |h| && Writes(h[k], f).Some?
    requires forall j :: k < j < |h| ==> Writes(h[j], f).None?
    ensures LastValue(h, f) == Some(Writes(h[k], f))
    decreases |h|
  {
    hide Writes;
    var n := |h| - 1;
    if k < n {
      CreatedInPrefix(h, i, n);
      LastWriter(h[..n], i, k, f);
    } else if i < n {
      CreatedInPrefix(h, i, n);
      RowExists(h[..n], i, f);
      assert !h[n].OrderCreated?;
    } else {
      NoRowYet(h[..n], f);
    }
  }

  lemma {:induction false} NeverWritten(h: seq<Message>, i: nat, f: Field)
    requires CreatedAt(h, i) && forall j :: 0 <= j < |h| ==> Writes(h[j], f).None?
    ensures LastValue(h, f) == Some(None)
    decreases |h|
  {
    hide Writes;
    var n := |h| - 1;
    if i < n {
      CreatedInPrefix(h, i, n);
      NeverWritten(h[..n], i, f);
    } else {
      NoRowYet(h[..n], f);
    }
  }

  /** A value was written by some message of the history. */
  lemma {:induction false} ValueHasSource(h: seq<Message>, f: Field) returns (k: nat)
    requires LastValue(h, f).Some? && LastValue(h, f).value.Some?
    ensures k < |h| && Writes(h[k], f) == LastValue(h, f).value
    decreases |h|
  {
    hide Writes;
    var n := |h| - 1;
    if LastValue(h[..n], f) == LastValue(h, f) {
      k := ValueHasSource(h[..n], f);
    } else {
      k := n;
    }
  }

  // ------------------------------------------------------- the payments and shipments of a history

  lemma {:induction false} NoPayments(h: seq<Message>)
    requires forall i :: 0 <= i < |h| ==> !h[i].PaymentAuthorized?
    ensures LastPayments(h) == map[]
    decreases |h|
  {
    if h == [] {
    } else {
      NoPayments(h[..|h| - 1]);
    }
  }

  ghost predicate OnlyPayment(h: seq<Message>, i: nat) {
    i < |h| && h[i].PaymentAuthorized? && forall j :: 0 <= j < |h| && h[j].PaymentAuthorized? ==> j == i
  }

  function NewPayment(m: Message): Payment
    requires m.PaymentAuthorized?
  {
    Payment(m.userId, m.amount, m.authCode, P.AUTHORIZED, None)
  }

  lemma {:induction false} OnePayment(h: seq<Message>, i: nat)
    requires OnlyPayment(h, i) && forall j :: i < j < |h| ==> !h[j].PaymentRefunded?
    ensures LastPayments(h) == map[h[i].paymentId := NewPayment(h[i])]
    decreases |h|
  {
    var n := |h| - 1;
    if i < n {
      OnePayment(h[..n], i);
    } else {
      NoPayments(h[..n]);
    }
  }

  lemma {:induction false} OneRefund(h: seq<Message>, i: nat, k: nat)
    requires OnlyPayment(h, i) && i < k < |h| && h[k].PaymentRefunded?
    requires forall j :: 0 <= j < |h| && h[j].PaymentRefunded? ==> j == k
    ensures LastPayments(h) == map[h[i].paymentId :=
                                   NewPayment(h[i]).(status := P.REFUNDED, refund := Some(h[k].refundId))]
    decreases |h|
  {
    var n := |h| - 1;
    if k < n {
      OneRefund(h[..n], i, k);
    } else {
      OnePayment(h[..n], i);
    }
  }

  lemma {:induction false} NoShipments(h: seq<Message>)
    requires forall i :: 0 <= i < |h| ==> !h[i].ShipmentCreated?
    ensures LastShipments(h) == map[]
    decreases |h|
  {
    if h == [] {
    } else {
      NoShipments(h[..|h| - 1]);
    }
  }

  lemma {:induction false} OneShipment(h: seq<Message>, i: nat)
    requires i < |h| && h[i].ShipmentCreated? && forall j :: 0 <= j < |h| && h[j].ShipmentCreated? ==> j == i
    ensures LastShipments(h) == map[h[i].shipmentId := Shipment(h[i].tracking, h[i].estimate)]
    decreases |h|
  {
    var n := |h| - 1;
    if i < n {
      OneShipment(h[..n], i);
    } else {
      NoShipments(h[..n]);
    }
  }

  // --------------------------------------------------------------------------- the agreement

  function Expected(s: State): P.Status {
    match s
    case COMPLETED => P.CompletedStatus
    case CANCELLED => P.CancelledStatus
    case _ => P.FailedStatus
  }

  /** The message that ends a settled order is on the network and matches its state. */
  lemma EndingSent(order: Message, w: World) returns (m: Message)
    requires Live(order, w) && Settled(w)
    ensures m in w.net && Ending(m) && StatusOf(m) == Some(Expected(w.saga.row.value.state))
  {
    hide SagaConcurrency.Sound, Explained, UnwindTrail, OneAnswer, AllDifferent, NetIsSent, TakenFromNet, Awaited,
         Covers, ConfirmedInNet;
    var row := w.saga.row.value;
    var k := if row.state == COMPLETED then 4 else |Trail(row)| - 1;
    assert w.saga.issued == Trail(row);
    AllSent(order, w, k) by { assert Live(order, w); }
    m := w.saga.issued[k];
  }

  lemma EndingsMatch(order: Message, w: World, m: Message)
    requires Inv(order, w) && m in w.net && Ending(m)
    ensures Terminal(w.saga.row) && StatusOf(m) == Some(Expected(w.saga.row.value.state))
  {
    hide SagaConcurrency.Sound, Explained;
    CommandInNetWasIssued(order, w.saga.issued, w.net, w.answers, m);
  }

  lemma StatusKinds(m: Message)
    ensures StatusOf(m).Some? ==> Stage(m) > 0 || Ending(m)
  {
  }

  /** Only endings give a final status. */
  predicate Final(s: Option<P.Status>) {
    s == Some(P.CompletedStatus) || s == Some(P.CancelledStatus) || s == Some(P.FailedStatus)
  }

  lemma FinalKinds(m: Message)
    requires Final(StatusOf(m))
    ensures Ending(m)
  {
  }

  /** What the saga says about a column of a settled order. */
  function SagaSays(row: Row, f: Field): Option<Value> {
    var c := row.context;
    match f
    case STATUS => Some(AStatus(Expected(row.state)))
    case USER => Some(AnId(c.userId))
    case AMOUNT => Some(AnAmount(c.amount))
    case ITEMS => Some(Lines(c.items))
    case PAYMENT_ID => AnIdIf(c.paymentId)
    case RESERVATION_ID => AnIdIf(c.reservationId)
    case FRAUD_CHECK_ID => AnIdIf(c.fraudCheckId)
    case SHIPMENT_ID => AnIdIf(c.shipmentId)
    case TRACKING => AnIdIf(c.tracking)
    case REASON => if row.state == COMPLETED then None else Some(AReason(P.Composed(row.failureReason)))
  }

  /** A message that writes the column as the saga says, with every other writer before it. */
  ghost predicate Decides(w: World, h: seq<Message>, m: Message, f: Field) {
    m in w.net && w.saga.row.Some? && Writes(m, f).Some? && Writes(m, f) == SagaSays(w.saga.row.value, f) &&
    forall x :: x in w.net && Writes(x, f).Some? ==> x == m || Before(h, x, m)
  }

  ghost predicate Silent(w: World, f: Field) {
    w.saga.row.Some? && SagaSays(w.saga.row.value, f).None? && forall x :: x in w.net ==> Writes(x, f).None?
  }

  lemma SettledIsTerminal(w: World)
    requires Settled(w)
    ensures Terminal(w.saga.row)
  {
  }

  /** Columns written by the message that ends the order. */
  lemma EndingDecides(order: Message, w: World, h: seq<Message>, f: Field) returns (m: Message)
    requires Live(order, w) && Causal(w) && Settled(w) && History(w, h)
    requires f == STATUS || (f == REASON && !InState(w.saga.row, COMPLETED))
    ensures Decides(w, h, m, f)
  {
    hide Live, Causal, History, Settled, Before, Stage;
    m := EndingSent(order, w);
    SettledIsTerminal(w);
    assert Writes(m, f) == SagaSays(w.saga.row.value, f) by { EndingReason(order, w, m); }
    forall x | x in w.net && Writes(x, f).Some?
      ensures x == m || Before(h, x, m)
    {
      StatusKinds(x);
      if Ending(x) {
        OneEnding(order, w, m, x);
      } else {
        EndingIsLast(order, w, h, m, x);
      }
    }
  }

  lemma EndingReason(order: Message, w: World, m: Message)
    requires Live(order, w) && m in w.net && Ending(m)
    ensures w.saga.row.Some? && Writes(m, STATUS) == SagaSays(w.saga.row.value, STATUS)
    ensures w.saga.row.value.state != COMPLETED ==> Writes(m, REASON) == SagaSays(w.saga.row.value, REASON)
  {
    hide SagaConcurrency.Sound, Explained, OneAnswer, AllDifferent, NetIsSent, TakenFromNet, Awaited;
    CommandInNetWasIssued(order, w.saga.issued, w.net, w.answers, m);
  }

  /** Columns written by the order or by one kind of reply. */
  lemma OneWriter(order: Message, w: World, h: seq<Message>, f: Field, m: Message)
    requires Live(order, w) && f != STATUS && f != REASON && m in w.net && Writes(m, f).Some?
    requires w.saga.row.Some? && Writes(m, f) == SagaSays(w.saga.row.value, f)
    ensures Decides(w, h, m, f)
  {
    hide Live, SagaSays, Before;
    forall x | x in w.net && Writes(x, f).Some?
      ensures x == m
    {
      SameWriterRole(x, m, f);
      SameRole(order, w, x, m);
    }
  }

  lemma SameWriterRole(a: Message, b: Message, f: Field)
    requires f != STATUS && f != REASON && Writes(a, f).Some? && Writes(b, f).Some?
    ensures CommandOf(a) == CommandOf(b) && Question(a) == Question(b)
  {
  }

  lemma OrderColumns(order: Message, w: World)
    requires Live(order, w) && w.saga.row.Some?
    ensures forall f :: f in {USER, AMOUNT, ITEMS} ==> Writes(order, f) == SagaSays(w.saga.row.value, f)
    ensures order in w.net && order.OrderCreated?
  {
    hide SagaConcurrency.Sound, Explained, Trail;
  }

  /** The reply behind an id the saga knows, if it knows one. */
  lemma IdColumn(order: Message, w: World, f: Field) returns (m: Message)
    requires Live(order, w) && Terminal(w.saga.row) &&
             f in {PAYMENT_ID, RESERVATION_ID, FRAUD_CHECK_ID, SHIPMENT_ID, TRACKING}
    requires SagaSays(w.saga.row.value, f).Some?
    ensures m in w.net && Writes(m, f) == SagaSays(w.saga.row.value, f)
  {
    hide SagaConcurrency.Sound, Explained, Trail, UnwindKnown, OneAnswer, AllDifferent, NetIsSent, TakenFromNet,
         Awaited;
    var c := w.saga.row.value.context;
    if f == PAYMENT_ID {
      m :| m in w.net && m.PaymentAuthorized? && m.paymentId == c.paymentId.value;
    } else if f == RESERVATION_ID {
      m := InventoryReserved(c.reservationId.value, c.items);
    } else if f == FRAUD_CHECK_ID {
      m := FraudApproved(c.fraudCheckId.value);
    } else {
      m :| m in w.net && m.ShipmentCreated? && m.shipmentId == c.shipmentId.value && m.tracking == c.tracking.value;
    }
  }

  /** Whoever could have written a column the saga has no id for was told no, or never asked. */
  lemma IdColumnSilent(order: Message, w: World, f: Field, x: Message)
    requires Live(order, w) && Terminal(w.saga.row) &&
             f in {PAYMENT_ID, RESERVATION_ID, FRAUD_CHECK_ID, SHIPMENT_ID, TRACKING}
    requires SagaSays(w.saga.row.value, f).None? && x in w.net
    ensures Writes(x, f).None?
  {
    hide Live, Inv;
    if Writes(x, f).Some? {
      LiveHasOrder(order, w);
      var b := Refusal(order, w, x);
      OneReplyEach(order, w, x, b);
      assert false;
    }
  }

  /** If a positive reply is on the network but the saga does not know its id, the negative
      one is there too. */
  lemma Refusal(order: Message, w: World, x: Message) returns (b: Message)
    requires Live(order, w) && Terminal(w.saga.row) && x in w.net
    requires var c := w.saga.row.value.context;
             (x.PaymentAuthorized? && c.paymentId.None?) || (x.InventoryReserved? && c.reservationId.None?) ||
             (x.FraudApproved? && c.fraudCheckId.None?) ||
             (x.ShipmentCreated? && (c.shipmentId.None? || c.tracking.None?))
    ensures b in w.net && b != x && Question(b) == Question(x) != NotACommand
  {
    hide Live, Answers, Explained, Story, Trail;
    LiveExplains(order, w);
    var q := ReplyInNetWasAsked(order, w.saga.issued, w.net, w.answers, x);
    AnswersItsQuestion(q, x);
    LiveStory(order, w);
    b := RefusalInStory(order, w.saga.row.value, w.net, q, x);
  }

  lemma LiveExplains(order: Message, w: World)
    requires Live(order, w)
    ensures order.OrderCreated? && Explained(order, w.saga.issued, w.net, w.answers)
  {
    hide SagaConcurrency.Sound, Story, Explained;
  }

  lemma RefusalInStory(order: Message, row: Row, net: set<Message>, q: Message, x: Message) returns (b: Message)
    requires Story(order, Some(row), Trail(row), net) && Terminal(Some(row)) && q in Trail(row) &&
             Question(x) == CommandOf(q)
    requires var c := row.context;
             (x.PaymentAuthorized? && c.paymentId.None?) || (x.InventoryReserved? && c.reservationId.None?) ||
             (x.FraudApproved? && c.fraudCheckId.None?) ||
             (x.ShipmentCreated? && (c.shipmentId.None? || c.tracking.None?))
    ensures b in net && b != x && Question(b) == Question(x) != NotACommand
  {
    hide Story, Trail, CommandOf;
    if x.PaymentAuthorized? {
      b := PaymentRefused(order, row, net);
    } else if x.InventoryReserved? {
      b := StockIsRefused(order, row, net, q);
    } else if x.FraudApproved? {
      b := ApprovalRefused(order, row, net, q);
    } else {
      b := DispatchRefused(order, row, net, q);
    }
  }

  lemma PaymentRefused(order: Message, row: Row, net: set<Message>) returns (b: Message)
    requires Story(order, Some(row), Trail(row), net) && Terminal(Some(row)) && row.context.paymentId.None?
    ensures b in net && b.PaymentRejected?
  {
    hide Trail, ReservationKnown, ShipmentKnown, UnwindKnown, VerdictsKnown;
    b :| b in net && b.PaymentRejected?;
  }

  lemma StockIsRefused(order: Message, row: Row, net: set<Message>, q: Message) returns (b: Message)
    requires Story(order, Some(row), Trail(row), net) && Terminal(Some(row)) && row.context.reservationId.None?
    requires q in Trail(row) && CommandOf(q) == ReservationCmd
    ensures b in net && b.InventoryReservationFailed?
  {
    hide PaymentKnown, ShipmentKnown, VerdictsKnown, Covers, ConfirmedInNet, UnwindTrail;
    assert StockRefused(net);
    b :| b in net && b.InventoryReservationFailed?;
  }

  lemma ApprovalRefused(order: Message, row: Row, net: set<Message>, q: Message) returns (b: Message)
    requires Story(order, Some(row), Trail(row), net) && Terminal(Some(row)) && row.context.fraudCheckId.None?
    requires q in Trail(row) && CommandOf(q) == FraudCheckCmd
    ensures b in net && b.FraudRejected?
  {
    hide PaymentKnown, ShipmentKnown, ReservationKnown, Covers, ConfirmedInNet;
    b :| b in net && b.FraudRejected?;
  }

  lemma DispatchRefused(order: Message, row: Row, net: set<Message>, q: Message) returns (b: Message)
    requires Story(order, Some(row), Trail(row), net) && Terminal(Some(row)) &&
             (row.context.shipmentId.None? || row.context.tracking.None?)
    requires q in Trail(row) && CommandOf(q) == ShipmentCmd
    ensures b in net && b.ShipmentFailed?
  {
    hide PaymentKnown, ReservationKnown, Covers, ConfirmedInNet;
    b :| b in net && b.ShipmentFailed?;
  }

  /** A completed order was never refused anything. */
  lemma CompletedHasNoReason(order: Message, w: World, x: Message)
    requires Live(order, w) && InState(w.saga.row, COMPLETED) && x in w.net
    ensures Writes(x, REASON).None?
  {
    hide Live, Inv, CompletedMatches, StatusOf;
    LiveHasOrder(order, w);
    CompletedIsClean(order, w);
    if Ending(x) {
      EndingsMatch(order, w, x);
      ReasonOfEnding(x);
    } else if Writes(x, REASON).Some? {
      var b := Granted(order, w, x);
      OneReplyEach(order, w, x, b);
      assert false;
    }
  }

  lemma ReasonOfEnding(x: Message)
    requires StatusOf(x) == Some(P.CompletedStatus)
    ensures Writes(x, REASON).None?
  {
  }

  lemma Granted(order: Message, w: World, x: Message) returns (b: Message)
    requires Live(order, w) && InState(w.saga.row, COMPLETED) &&
             (x.PaymentRejected? || x.InventoryReservationFailed? || x.FraudRejected?)
    ensures b in w.net && b != x && Question(b) == Question(x) != NotACommand
  {
    hide Live, Inv;
    CompletedKnowsIds(order, w);
    if x.PaymentRejected? {
      b := IdColumn(order, w, PAYMENT_ID);
    } else if x.InventoryReservationFailed? {
      b := IdColumn(order, w, RESERVATION_ID);
    } else {
      b := IdColumn(order, w, FRAUD_CHECK_ID);
    }
  }

  lemma CompletedKnowsIds(order: Message, w: World)
    requires Live(order, w) && InState(w.saga.row, COMPLETED)
    ensures SagaSays(w.saga.row.value, PAYMENT_ID).Some? && SagaSays(w.saga.row.value, RESERVATION_ID).Some? &&
            SagaSays(w.saga.row.value, FRAUD_CHECK_ID).Some?
  {
    hide Live, Inv;
    LiveHasOrder(order, w);
    CompletedIsClean(order, w);
  }

  /** Every column is decided by a message, or written by none and unknown to the saga. */
  lemma ColumnDecided(order: Message, w: World, h: seq<Message>, f: Field) returns (m: Option<Message>)
    requires Live(order, w) && Causal(w) && Settled(w) && History(w, h)
    ensures if m.Some? then Decides(w, h, m.value, f) else Silent(w, f)
  {
    hide Live, Causal, Settled, History, Decides, Writes, SagaSays;
    SettledIsTerminal(w);
    if f == STATUS || (f == REASON && !InState(w.saga.row, COMPLETED)) {
      var x := EndingDecides(order, w, h, f);
      m := Some(x);
    } else if f == REASON {
      forall x | x in w.net
        ensures Writes(x, f).None?
      {
        CompletedHasNoReason(order, w, x);
      }
      assert SagaSays(w.saga.row.value, f).None? by { NoReasonWhenCompleted(w.saga.row.value); }
      m := None;
    } else if f in {USER, AMOUNT, ITEMS} {
      OrderColumns(order, w);
      assert Writes(order, f).Some? by { OrderWrites(order, f); }
      OneWriter(order, w, h, f, order);
      m := Some(order);
    } else if SagaSays(w.saga.row.value, f).Some? {
      var x := IdColumn(order, w, f);
      OneWriter(order, w, h, f, x);
      m := Some(x);
    } else {
      forall x | x in w.net
        ensures Writes(x, f).None?
      {
        IdColumnSilent(order, w, f, x);
      }
      m := None;
    }
  }

  lemma NoReasonWhenCompleted(row: Row)
    requires row.state == COMPLETED
    ensures SagaSays(row, REASON).None?
  {
  }

  lemma OrderWrites(order: Message, f: Field)
    requires order.OrderCreated? && f in {USER, AMOUNT, ITEMS}
    ensures Writes(order, f).Some?
  {
  }

  lemma OrderComesFirst(order: Message, w: World, h: seq<Message>) returns (i: nat)
    requires Live(order, w) && Causal(w) && History(w, h)
    ensures CreatedAt(h, i) && h[i] == order
  {
    hide Live, Causal, Before;
    assert order in w.net && order.OrderCreated? by { LiveHasOrder(order, w); }
    i :| 0 <= i < |h| && h[i] == order;
    forall j | 0 <= j < |h| && h[j].OrderCreated?
      ensures j == i
    {
      OneOrder(order, w, h[j]);
    }
  }

  /** No message of the order stands before the order itself. */
  lemma NothingPrecedes(order: Message, w: World, h: seq<Message>, m: Message)
    requires Live(order, w) && Causal(w) && History(w, h) && m in w.net && (Stage(m) > 0 || Ending(m))
    ensures m == order || Before(h, order, m)
  {
    hide Live, Causal, Before, History;
    LiveHasOrder(order, w);
    OrderIsFirstStage(order);
    if Ending(m) {
      EndingIsLast(order, w, h, m, order);
    } else {
      MainLine(order, w, h, m, order);
    }
  }

  lemma FieldAgrees(order: Message, w: World, h: seq<Message>, f: Field)
    requires Live(order, w) && Causal(w) && Settled(w) && History(w, h)
    ensures w.saga.row.Some? && LastValue(h, f) == Some(SagaSays(w.saga.row.value, f))
  {
    hide Live, Causal, Settled, Writes, SagaSays, LastValue, Before, Stage;
    var i := OrderComesFirst(order, w, h);
    var m := ColumnDecided(order, w, h, f);
    if m.Some? {
      assert m.value in h by { assert Decides(w, h, m.value, f); }
      var k :| 0 <= k < |h| && h[k] == m.value;
      forall j | k < j < |h|
        ensures Writes(h[j], f).None?
      {
        assert h[j] in w.net;
        NotBefore(h, j, k);
      }
      WritersAreStaged(m.value, f);
      NothingPrecedes(order, w, h, m.value);
      if m.value != order {
        IsBefore(h, i, k);
      }
      LastWriter(h, i, k, f);
    } else {
      NeverWritten(h, i, f);
    }
  }

  lemma WritersAreStaged(m: Message, f: Field)
    requires Writes(m, f).Some?
    ensures Stage(m) > 0 || Ending(m)
  {
  }

  lemma NotBefore(h: seq<Message>, i: nat, k: nat)
    requires k <= i < |h|
    ensures !Before(h, h[i], h[k])
  {
  }

  lemma IsBefore(h: seq<Message>, i: nat, k: nat)
    requires i < |h| && k < |h| && Before(h, h[i], h[k])
    ensures i < k
  {
  }

  lemma LiveHasOrder(order: Message, w: World)
    requires Live(order, w)
    ensures order in w.net && order.OrderCreated? && Inv(order, w)
  {
    hide SagaConcurrency.Sound, Story, Explained;
  }

  lemma OneEnding(order: Message, w: World, a: Message, b: Message)
    requires Live(order, w) && a in w.net && b in w.net && Ending(a) && Ending(b)
    ensures a == b
  {
    hide Live, Inv;
    LiveHasOrder(order, w);
    EndingsMatch(order, w, a);
    EndingsMatch(order, w, b);
    SameRole(order, w, a, b);
  }

  /** The payment rows the saga's outcome calls for: the accepted payment, of this user and
      amount, refunded exactly if the order was cancelled. */
  predicate PaymentsFit(payments: map<Id, Payment>, row: Row) {
    var c := row.context;
    if c.paymentId.None? then payments == map[]
    else
      && payments.Keys == {c.paymentId.value}
      && payments[c.paymentId.value].userId == c.userId && payments[c.paymentId.value].amount == c.amount
      && payments[c.paymentId.value].status == (if row.state == CANCELLED then P.REFUNDED else P.AUTHORIZED)
      && (payments[c.paymentId.value].refund.Some? <==> row.state == CANCELLED)
  }

  /** The shipment the saga knows of, under its tracking number, and no other. */
  predicate ShipmentsFit(shipments: map<Id, Shipment>, row: Row) {
    var c := row.context;
    if c.shipmentId.None? then shipments == map[]
    else shipments.Keys == {c.shipmentId.value} && Some(shipments[c.shipmentId.value].tracking) == c.tracking
  }

  lemma PaymentsAgree(order: Message, w: World, h: seq<Message>)
    requires Live(order, w) && Causal(w) && Settled(w) && History(w, h)
    ensures w.saga.row.Some? && PaymentsFit(LastPayments(h), w.saga.row.value)
    ensures w.saga.row.value.context.paymentId.None? <==> w.saga.row.value.state == FAILED
  {
    hide Live, Causal, Settled, LastPayments, Before;
    SettledIsTerminal(w);
    var row := w.saga.row.value;
    if row.state == FAILED {
      FailedHasNoPayment(order, w);
      NoPayments(h);
    } else {
      var p := AcceptedPayment(order, w);
      var i :| 0 <= i < |h| && h[i] == p;
      forall j | 0 <= j < |h| && h[j].PaymentAuthorized?
        ensures j == i
      {
        OneReplyEach(order, w, h[j], h[i]);
      }
      if row.state == CANCELLED {
        RefundAgrees(order, w, h, i);
      } else {
        CompletedHasNoRefund(order, w);
        OnePayment(h, i);
      }
    }
  }

  lemma RefundAgrees(order: Message, w: World, h: seq<Message>, i: nat)
    requires Live(order, w) && Causal(w) && History(w, h) && InState(w.saga.row, CANCELLED)
    requires OnlyPayment(h, i) && h[i] in w.net && TermsFit(w.saga.row.value, h[i])
    ensures PaymentsFit(LastPayments(h), w.saga.row.value)
  {
    hide Live, Causal, LastPayments, Before;
    var r := RefundArrived(order, w);
    var k :| 0 <= k < |h| && h[k] == r;
    RefundFollowsPayment(order, w, h, r, h[i]);
    IsBefore(h, i, k);
    forall j | 0 <= j < |h| && h[j].PaymentRefunded?
      ensures j == k
    {
      OneReplyEach(order, w, h[j], h[k]);
    }
    OneRefund(h, i, k);
  }

  /** The authorisation is the one the saga accepted, on the saga's terms. */
  predicate TermsFit(row: Row, p: Message) {
    p.PaymentAuthorized? && row.context.paymentId == Some(p.paymentId) && p.userId == row.context.userId &&
    p.amount == row.context.amount
  }

  lemma ShipmentsAgree(order: Message, w: World, h: seq<Message>)
    requires Live(order, w) && Settled(w) && History(w, h)
    ensures w.saga.row.Some? && ShipmentsFit(LastShipments(h), w.saga.row.value)
  {
    hide Live, Settled, LastShipments, Before;
    SettledIsTerminal(w);
    var row := w.saga.row.value;
    if row.context.shipmentId.None? {
      forall i | 0 <= i < |h|
        ensures !h[i].ShipmentCreated?
      {
        assert h[i] in w.net;
        IdColumnSilent(order, w, SHIPMENT_ID, h[i]);
      }
      NoShipments(h);
    } else {
      ShipmentIsTracked(order, w);
      var m := IdColumn(order, w, TRACKING);
      var i :| 0 <= i < |h| && h[i] == m;
      var s := IdColumn(order, w, SHIPMENT_ID);
      OneReplyEach(order, w, s, m);
      forall j | 0 <= j < |h| && h[j].ShipmentCreated?
        ensures j == i
      {
        OneReplyEach(order, w, h[j], h[i]);
      }
      OneShipment(h, i);
    }
  }

  lemma ShipmentIsTracked(order: Message, w: World)
    requires Live(order, w) && w.saga.row.Some?
    ensures w.saga.row.value.context.shipmentId.Some? ==> w.saga.row.value.context.tracking.Some?
  {
    hide SagaConcurrency.Sound, Explained, Trail, UnwindKnown, OneAnswer, AllDifferent, NetIsSent, TakenFromNet,
         Awaited;
  }

  lemma FailedHasNoPayment(order: Message, w: World)
    requires Live(order, w) && InState(w.saga.row, FAILED)
    ensures w.saga.row.value.context.paymentId.None? && forall m :: m in w.net ==> !m.PaymentAuthorized?
  {
    hide SagaConcurrency.Sound, Explained, Trail, OneAnswer;
    var b :| b in w.net && b.PaymentRejected?;
    forall m | m in w.net
      ensures !m.PaymentAuthorized?
    {
      if m.PaymentAuthorized? {
        OneReplyEach(order, w, m, b) by { assert Live(order, w); }
      }
    }
  }

  lemma AcceptedPayment(order: Message, w: World) returns (p: Message)
    requires Live(order, w) && w.saga.row.Some? && w.saga.row.value.state in {COMPLETED, CANCELLED}
    ensures p in w.net && TermsFit(w.saga.row.value, p)
  {
    hide Live, Explained, Answers;
    LiveExplains(order, w);
    LiveStory(order, w);
    p := PaymentInStory(order, w.saga.row.value, w.net);
    var q := ReplyInNetWasAsked(order, w.saga.issued, w.net, w.answers, p);
    PaymentTerms(w.saga.row.value, q, p);
  }

  lemma PaymentInStory(order: Message, row: Row, net: set<Message>) returns (p: Message)
    requires Story(order, Some(row), Trail(row), net) && row.state in {COMPLETED, CANCELLED}
    ensures p in net && p.PaymentAuthorized? && row.context.paymentId == Some(p.paymentId)
  {
    hide Trail, ReservationKnown, UnwindKnown, VerdictsKnown, ShipmentKnown;
    p :| p in net && p.PaymentAuthorized? && p.paymentId == row.context.paymentId.value;
  }

  lemma PaymentTerms(row: Row, q: Message, p: Message)
    requires q in Trail(row) && Answers(q, p) && p.PaymentAuthorized?
    ensures p.userId == row.context.userId && p.amount == row.context.amount
  {
  }

  lemma RefundArrived(order: Message, w: World) returns (r: Message)
    requires Live(order, w) && InState(w.saga.row, CANCELLED)
    ensures r in w.net && r.PaymentRefunded?
  {
    hide Live, Inv;
    LiveHasOrder(order, w);
    CancelledIsUndone(order, w);
    r :| r in w.net && r.PaymentRefunded?;
  }

  lemma CompletedHasNoRefund(order: Message, w: World)
    requires Live(order, w) && InState(w.saga.row, COMPLETED)
    ensures forall m :: m in w.net ==> !m.PaymentRefunded?
  {
    hide Live, Inv;
    LiveHasOrder(order, w);
    CompletedIsClean(order, w);
  }

  /** The read models show the outcome of the saga: every column of the order row is what
      the saga says, and so are the payment and shipment rows. */
  ghost predicate Shows(v: R.View, row: Row) {
    && v.order.Some?
    && (forall f :: Holds(v.order.value, f) == SagaSays(row, f))
    && (v.order.value.status == P.CompletedStatus <==> row.state == COMPLETED)
    && (v.order.value.status == P.CancelledStatus <==> row.state == CANCELLED)
    && (v.order.value.status == P.FailedStatus <==> row.state == FAILED)
    && PaymentsFit(PaymentsIn(v), row)
    && (row.state == FAILED <==> v.payments == map[])
    && ShipmentsFit(ShipmentsIn(v), row)
  }

  /** Fold and replay of any causal history of a settled order show its outcome. */
  lemma SettledOrdersShow(order: Message, w: World, t: P.Tables, o: Id, es: seq<Envelope>)
    requires Live(order, w) && Causal(w) && Settled(w) && History(w, Bodies(es))
    requires R.AllOf(es, o) && R.ViewOf(t, o) == R.ViewOf(R.EMPTY, o) && R.AllIdsFree(t, es)
    ensures w.saga.row.Some? && Shows(R.ViewOf(P.MutateAll(t, es), o), w.saga.row.value)
  {
    hide Live, Causal, History, R.ViewOf, P.MutateAll, R.FromScratch, LastValue, LastPayments, LastShipments,
         R.IdsFree, Holds, SagaSays, PaymentsIn, ShipmentsIn;
    FoldedFromScratch(t, o, es);
    var v := R.FromScratch(o, es);
    assert Terminal(w.saga.row);
    var row := w.saga.row.value;
    forall f
      ensures ValueIn(v, f) == Some(SagaSays(row, f))
    {
      FieldAgrees(order, w, Bodies(es), f);
      FoldField(o, es, f);
    }
    assert ValueIn(v, STATUS).Some?;
    StatusShown(v.order.value, row);
    PaymentsAgree(order, w, Bodies(es));
    ShipmentsAgree(order, w, Bodies(es));
    FoldRows(o, es);
    NoPaymentRows(v);
  }

  lemma StatusShown(r: P.OrderRow, row: Row)
    requires Holds(r, STATUS) == SagaSays(row, STATUS)
    ensures r.status == Expected(row.state)
  {
  }

  lemma NoPaymentRows(v: R.View)
    ensures PaymentsIn(v) == map[] <==> v.payments == map[]
  {
    if PaymentsIn(v) == map[] {
      assert forall p :: p in v.payments ==> p in PaymentsIn(v);
    }
  }

  // -------------------------------------------------------------------------------- every run

  /** What an act adds to the log. */
  function Sends(w: World, a: Act): seq<Message> {
    match a
    case Orchestrate(m) =>
      if m.Emit? && Enabled(w.saga, m) && At(w.saga, m.topic).next < |w.saga.issued|
      then [w.saga.issued[At(w.saga, m.topic).next]] else []
    case Respond(request, choice) =>
      if Can(w, a) then [Reply(request, choice).value] else []
  }

  /** The messages of the order as the broker received them. */
  function Log(order: Message, acts: seq<Act>): seq<Message>
    decreases |acts|
  {
    if acts == [] then [order]
    else Log(order, acts[..|acts| - 1]) + Sends(Run(order, acts[..|acts| - 1]), acts[|acts| - 1])
  }

  lemma HistoryGrows(w: World, w': World, h: seq<Message>, c: Message, x: Message)
    requires History(w, h) && x !in w.net && c in w.net && w'.net == w.net + {x}
    requires forall p :: p in w.answers || p in w.follows ==> p.0 in w.net && p.1 in w.net
    requires forall p :: p in w'.answers || p in w'.follows ==> p in w.answers || p in w.follows || p == (c, x)
    ensures History(w', h + [x])
  {
    var h' := h + [x];
    forall m
      ensures m in h' <==> m in w'.net
    {
    }
    forall p | p in w'.answers || p in w'.follows
      ensures Before(h', p.0, p.1)
    {
      if p in w.answers || p in w.follows {
        assert Before(h, p.0, p.1);
      }
    }
  }

  lemma PairsInNet(order: Message, w: World)
    requires Inv(order, w) && Causal(w)
    ensures forall p :: p in w.answers || p in w.follows ==> p.0 in w.net && p.1 in w.net
  {
    hide SagaConcurrency.Sound, Story, Answers, Triggers, EmitsCaused;
  }

  lemma LogGrowsByEmit(order: Message, w: World, t: Topic, h: seq<Message>)
    requires Live(order, w) && Causal(w) && History(w, h) && Enabled(w.saga, Emit(t))
    ensures History(Do(w, Orchestrate(Emit(t))), h + Sends(w, Orchestrate(Emit(t))))
  {
    hide Fresh, Serial, DeliveriesAccounted, SentOnce, NoneForgotten, Story, Explained, Awaited, History, React,
         Triggers;
    var g := At(w.saga, t);
    assert Owned(w.saga, g.next, g.end);
    assert EmitCaused(w, g.event, g.next, g.end);
    PairsInNet(order, w);
    HistoryGrows(w, Do(w, Orchestrate(Emit(t))), h, g.event, w.saga.issued[g.next]);
  }

  lemma LogGrowsByReply(order: Message, w: World, request: Message, choice: Choice, h: seq<Message>)
    requires Live(order, w) && Causal(w) && History(w, h) && Can(w, Respond(request, choice)) && !Answered(w, request)
    ensures History(Do(w, Respond(request, choice)), h + Sends(w, Respond(request, choice)))
  {
    hide Live, Causal, History, Reply, Acceptable;
    LiveHasOrder(order, w);
    NewReplyIsAwaited(order, w, request, choice);
    PairsInNet(order, w);
    HistoryGrows(w, Do(w, Respond(request, choice)), h, request, Reply(request, choice).value);
  }

  lemma LogGrows(order: Message, w: World, a: Act, h: seq<Message>)
    requires Live(order, w) && Causal(w) && History(w, h) && Faithful(w, a)
    ensures History(Do(w, a), h + Sends(w, a))
  {
    hide Live, Causal, History, Reply, Reading, Saving, Sending, Failing, Answered;
    if a.Orchestrate? && a.move.Emit? && Enabled(w.saga, a.move) {
      LogGrowsByEmit(order, w, a.move.topic, h);
    } else if a.Respond? && Can(w, a) {
      LogGrowsByReply(order, w, a.request, a.choice, h);
    } else {
      var w' := Do(w, a);
      assert w'.net == w.net && w'.answers == w.answers && w'.follows == w.follows;
      assert h + [] == h;
      SameHistory(w, w', h);
    }
  }

  lemma SameHistory(w: World, w': World, h: seq<Message>)
    requires History(w, h) && w'.net == w.net && w'.answers == w.answers && w'.follows == w.follows
    ensures History(w', h)
  {
    hide Before;
  }

  /** The broker's log is a causally ordered history of the order. */
  lemma {:induction false} LogIsHistory(order: Message, acts: seq<Act>)
    requires order.OrderCreated? && FaithfulRun(order, acts)
    ensures History(Run(order, acts), Log(order, acts))
    decreases |acts|
  {
    hide Live, Causal, Do, Faithful, History, Sends;
    if acts == [] {
      HistoryBegins(order);
    } else {
      var n := |acts| - 1;
      assert forall i :: 0 <= i < n ==> acts[..n][..i] == acts[..i];
      LogIsHistory(order, acts[..n]);
      FaithfulRunsAreLive(order, acts[..n]);
      CausalAlways(order, acts[..n]);
      LogGrows(order, Run(order, acts[..n]), acts[n], Log(order, acts[..n]));
    }
  }

  lemma HistoryBegins(order: Message)
    ensures History(Begin(order), [order])
  {
  }

  /** Agreement: after any run without failures and with one reply per request, once the
      order is settled, every causally ordered history of its messages folds to the status
      `completed` / `cancelled` / `failed` exactly when the saga is COMPLETED / CANCELLED /
      FAILED, with its payment row AUTHORIZED / REFUNDED / absent; a replay shows the same. */
  lemma ReadModelAgrees(order: Message, acts: seq<Act>, t: P.Tables, o: Id, es: seq<Envelope>)
    requires order.OrderCreated? && FaithfulRun(order, acts) && Settled(Run(order, acts))
    requires History(Run(order, acts), Bodies(es))
    requires R.AllOf(es, o) && R.ViewOf(t, o) == R.ViewOf(R.EMPTY, o) && R.AllIdsFree(t, es)
    ensures Shows(R.ViewOf(P.MutateAll(t, es), o), Run(order, acts).saga.row.value)
    ensures P.DistinctIds(es) && R.LogHonest(t, es) ==>
              Shows(R.ViewOf(R.Rebuild(t, o, es), o), Run(order, acts).saga.row.value)
  {
    hide Live, Causal, Run, History, Shows, R.ViewOf, P.MutateAll, R.Rebuild, Settled, R.IdsFree, FaithfulRun;
    FaithfulRunsAreLive(order, acts);
    CausalAlways(order, acts);
    SettledOrdersShow(order, Run(order, acts), t, o, es);
    if P.DistinctIds(es) && R.LogHonest(t, es) {
      R.ReplayIndependence(t, o, es);
      FoldedFromScratch(t, o, es);
    }
  }

  lemma FoldedFromScratch(t: P.Tables, o: Id, es: seq<Envelope>)
    requires R.AllOf(es, o) && R.ViewOf(t, o) == R.ViewOf(R.EMPTY, o) && R.AllIdsFree(t, es)
    ensures R.ViewOf(P.MutateAll(t, es), o) == R.FromScratch(o, es)
  {
    hide R.ViewOf, P.MutateAll, R.IdsFree;
    forall i | 0 <= i < |es|
      ensures R.IdsFree(R.EMPTY, es[i])
    {
      EmptyOwnsNothing(es[i]);
    }
    R.FoldViews(t, R.EMPTY, o, es);
  }

  /** Safety without any assumption on the run: whatever part of the log has been folded, in
      whatever order and however often, a final status is never shown before the saga has
      reached that outcome. */
  lemma FinalStatusIsTrue(order: Message, acts: seq<Act>, o: Id, es: seq<Envelope>)
    requires order.OrderCreated? && R.AllOf(es, o)
    requires forall i :: 0 <= i < |es| ==> es[i].body in Run(order, acts).net
    requires var v := R.FromScratch(o, es).order; v.Some? && Final(Some(v.value.status))
    ensures Terminal(Run(order, acts).saga.row)
    ensures R.FromScratch(o, es).order.value.status == Expected(Run(order, acts).saga.row.value.state)
  {
    hide Run, Inv, R.FromScratch, StatusOf, LastValue;
    InvAlways(order, acts);
    FoldField(o, es, STATUS);
    var k := ValueHasSource(Bodies(es), STATUS);
    FinalKinds(es[k].body);
    EndingsMatch(order, Run(order, acts), es[k].body);
  }
}
