/**
 The rows of an order as folds over its events: columns, payments and shipments come from the
 agreement of saga and read model, timestamps from here. Two sequences of events build the same
 rows if and only if these folds agree.
 */
module RowFolds {
  import opened Contracts
  import opened EventStore
  import P = Projection
  import R = Replay
  import A = Agreement

  // --------------------------------------------------------------------------- timestamps

  datatype Stamps = Stamps(created: nat, updated: nat)

  /** Creation makes the row, and every event that gives a status updates it. */
  function StampOrder(before: Option<Stamps>, e: Envelope): Option<Stamps> {
    if before.None? then (if e.body.OrderCreated? then Some(Stamps(e.at, e.at)) else None)
    else if A.StatusOf(e.body).Some? then Some(before.value.(updated := e.at))
    else before
  }

  function StampPayments(before: map<Id, Stamps>, e: Envelope): map<Id, Stamps> {
    match e.body
    case PaymentAuthorized(p, _, _, _) =>
      before[p := if p in before then before[p].(updated := e.at) else Stamps(e.at, e.at)]
    case PaymentRefunded(_, _, _) => map p | p in before :: before[p].(updated := e.at)
    case _ => before
  }

  function StampShipments(before: map<Id, Stamps>, e: Envelope): map<Id, Stamps> {
    match e.body
    case ShipmentCreated(s, _, _) =>
      before[s := if s in before then before[s].(updated := e.at) else Stamps(e.at, e.at)]
    case _ => before
  }

  function OrderStamps(es: seq<Envelope>): Option<Stamps>
    decreases |es|
  {
    if es == [] then None else StampOrder(OrderStamps(es[..|es| - 1]), es[|es| - 1])
  }

  function PaymentStamps(es: seq<Envelope>): map<Id, Stamps>
    decreases |es|
  {
    if es == [] then map[] else StampPayments(PaymentStamps(es[..|es| - 1]), es[|es| - 1])
  }

  function ShipmentStamps(es: seq<Envelope>): map<Id, Stamps>
    decreases |es|
  {
    if es == [] then map[] else StampShipments(ShipmentStamps(es[..|es| - 1]), es[|es| - 1])
  }

  function OrderStampsIn(v: R.View): Option<Stamps> {
    if v.order.Some? then Some(Stamps(v.order.value.createdAt, v.order.value.updatedAt)) else None
  }

  function PaymentStampsIn(v: R.View): map<Id, Stamps> {
    map p | p in v.payments :: Stamps(v.payments[p].createdAt, v.payments[p].updatedAt)
  }

  function ShipmentStampsIn(v: R.View): map<Id, Stamps> {
    map s | s in v.shipments :: Stamps(v.shipments[s].createdAt, v.shipments[s].updatedAt)
  }

  lemma OrderStampStep(t: P.Tables, e: Envelope)
    ensures OrderStampsIn(R.ViewOf(P.Mutate(t, e), e.aggregate)) ==
              StampOrder(OrderStampsIn(R.ViewOf(t, e.aggregate)), e)
  {
    hide P.PaymentsAfter, P.ShipmentsAfter, P.StockAfter;
  }

  lemma PaymentStampStep(t: P.Tables, e: Envelope)
    requires R.IdsFree(t, e)
    ensures PaymentStampsIn(R.ViewOf(P.Mutate(t, e), e.aggregate)) ==
            StampPayments(PaymentStampsIn(R.ViewOf(t, e.aggregate)), e)
  {
    hide P.OrdersAfter, P.ShipmentsAfter, P.StockAfter;
  }

  lemma ShipmentStampStep(t: P.Tables, e: Envelope)
    requires R.IdsFree(t, e)
    ensures ShipmentStampsIn(R.ViewOf(P.Mutate(t, e), e.aggregate)) ==
            StampShipments(ShipmentStampsIn(R.ViewOf(t, e.aggregate)), e)
  {
    hide P.OrdersAfter, P.PaymentsAfter, P.StockAfter;
  }

  lemma NoStampsAtFirst(o: Id)
    ensures var v := R.ViewOf(R.EMPTY, o);
            OrderStampsIn(v) == None && PaymentStampsIn(v) == map[] && ShipmentStampsIn(v) == map[]
  {
  }

  lemma {:induction false} FoldStamps(o: Id, es: seq<Envelope>)
    requires R.AllOf(es, o)
    ensures var v := R.FromScratch(o, es);
            && OrderStampsIn(v) == OrderStamps(es)
            && PaymentStampsIn(v) == PaymentStamps(es) && ShipmentStampsIn(v) == ShipmentStamps(es)
    decreases |es|
  {
    hide P.Mutate, R.ViewOf, OrderStampsIn, PaymentStampsIn, ShipmentStampsIn, StampOrder, StampPayments,
         StampShipments,
         R.IdsFree, R.SharesId;
    if es == [] {
      NoStampsAtFirst(o);
    } else {
      var n := |es| - 1;
      var t := P.MutateAll(R.EMPTY, es[..n]);
      FoldStamps(o, es[..n]);
      A.EmptyOwnsNothing(es[n]);
      R.OwnersStay(R.EMPTY, es[..n], es[n]);
      OrderStampStep(t, es[n]);
      PaymentStampStep(t, es[n]);
      ShipmentStampStep(t, es[n]);
    }
  }

  // ------------------------------------------------------------------ equal rows, equal folds

  ghost predicate SameColumns(hs: seq<Envelope>, gs: seq<Envelope>) {
    forall f :: A.LastValue(A.Bodies(hs), f) == A.LastValue(A.Bodies(gs), f)
  }

  ghost predicate SameRows(hs: seq<Envelope>, gs: seq<Envelope>) {
    && A.LastPayments(A.Bodies(hs)) == A.LastPayments(A.Bodies(gs))
    && A.LastShipments(A.Bodies(hs)) == A.LastShipments(A.Bodies(gs))
    && OrderStamps(hs) == OrderStamps(gs)
    && PaymentStamps(hs) == PaymentStamps(gs) && ShipmentStamps(hs) == ShipmentStamps(gs)
  }

  ghost predicate SameValues(a: R.View, b: R.View) {
    forall f :: A.ValueIn(a, f) == A.ValueIn(b, f)
  }

  ghost predicate OwnRows(v: R.View, o: Id) {
    && (forall p :: p in v.payments ==> v.payments[p].order == o)
    && (forall s :: s in v.shipments ==> v.shipments[s].order == o)
  }

  /** Rows are equal if their columns and timestamps are. */
  lemma SameOrderRow(a: P.OrderRow, b: P.OrderRow)
    requires forall f :: A.Holds(a, f) == A.Holds(b, f)
    requires a.createdAt == b.createdAt && a.updatedAt == b.updatedAt
    ensures a == b
  {
    assert A.Holds(a, A.STATUS) == A.Holds(b, A.STATUS) && A.Holds(a, A.USER) == A.Holds(b, A.USER);
    assert A.Holds(a, A.AMOUNT) == A.Holds(b, A.AMOUNT) && A.Holds(a, A.ITEMS) == A.Holds(b, A.ITEMS);
    assert A.Holds(a, A.PAYMENT_ID) == A.Holds(b, A.PAYMENT_ID);
    assert A.Holds(a, A.RESERVATION_ID) == A.Holds(b, A.RESERVATION_ID);
    assert A.Holds(a, A.FRAUD_CHECK_ID) == A.Holds(b, A.FRAUD_CHECK_ID);
    assert A.Holds(a, A.SHIPMENT_ID) == A.Holds(b, A.SHIPMENT_ID);
    assert A.Holds(a, A.TRACKING) == A.Holds(b, A.TRACKING) && A.Holds(a, A.REASON) == A.Holds(b, A.REASON);
  }

  lemma SameOrders(a: R.View, b: R.View)
    requires SameValues(a, b) && OrderStampsIn(a) == OrderStampsIn(b)
    ensures a.order == b.order
  {
    hide A.Holds;
    if a.order.Some? {
      forall f
        ensures A.Holds(a.order.value, f) == A.Holds(b.order.value, f)
      {
        assert A.ValueIn(a, f) == A.ValueIn(b, f);
      }
      SameOrderRow(a.order.value, b.order.value);
    }
  }

  lemma SamePayments(a: R.View, b: R.View, o: Id)
    requires OwnRows(a, o) && OwnRows(b, o)
    requires A.PaymentsIn(a) == A.PaymentsIn(b) && PaymentStampsIn(a) == PaymentStampsIn(b)
    ensures a.payments == b.payments
  {
    assert forall p :: p in a.payments <==> p in A.PaymentsIn(a);
    assert forall p :: p in b.payments <==> p in A.PaymentsIn(b);
    forall p | p in a.payments
      ensures p in b.payments && a.payments[p] == b.payments[p]
    {
      assert A.PaymentsIn(a)[p] == A.PaymentsIn(b)[p] && PaymentStampsIn(a)[p] == PaymentStampsIn(b)[p];
    }
  }

  lemma SameShipments(a: R.View, b: R.View, o: Id)
    requires OwnRows(a, o) && OwnRows(b, o)
    requires A.ShipmentsIn(a) == A.ShipmentsIn(b) && ShipmentStampsIn(a) == ShipmentStampsIn(b)
    ensures a.shipments == b.shipments
  {
    assert forall s :: s in a.shipments <==> s in A.ShipmentsIn(a);
    assert forall s :: s in b.shipments <==> s in A.ShipmentsIn(b);
    forall s | s in a.shipments
      ensures s in b.shipments && a.shipments[s] == b.shipments[s]
    {
      assert A.ShipmentsIn(a)[s] == A.ShipmentsIn(b)[s] && ShipmentStampsIn(a)[s] == ShipmentStampsIn(b)[s];
    }
  }

  lemma ViewsOwnRows(t: P.Tables, o: Id)
    ensures OwnRows(R.ViewOf(t, o), o)
  {
  }

  /** Two sequences of an order's events build the same rows if and only if their folds agree. */
  lemma ScratchExactly(o: Id, hs: seq<Envelope>, gs: seq<Envelope>)
    requires R.AllOf(hs, o) && R.AllOf(gs, o)
    ensures R.FromScratch(o, hs) == R.FromScratch(o, gs) <==> SameColumns(hs, gs) && SameRows(hs, gs)
  {
    hide R.ViewOf, P.MutateAll, A.LastValue, A.LastPayments, A.LastShipments, OrderStamps, PaymentStamps,
         ShipmentStamps,
         A.ValueIn, A.PaymentsIn, A.ShipmentsIn, OrderStampsIn, PaymentStampsIn, ShipmentStampsIn, OwnRows;
    var a, b := R.FromScratch(o, hs), R.FromScratch(o, gs);
    forall f
      ensures A.ValueIn(a, f) == A.LastValue(A.Bodies(hs), f) && A.ValueIn(b, f) == A.LastValue(A.Bodies(gs), f)
    {
      A.FoldField(o, hs, f);
      A.FoldField(o, gs, f);
    }
    A.FoldRows(o, hs);
    A.FoldRows(o, gs);
    FoldStamps(o, hs);
    FoldStamps(o, gs);
    ViewsOwnRows(P.MutateAll(R.EMPTY, hs), o);
    ViewsOwnRows(P.MutateAll(R.EMPTY, gs), o);
    if SameColumns(hs, gs) && SameRows(hs, gs) {
      assert SameValues(a, b);
      SameOrders(a, b);
      SamePayments(a, b, o);
      SameShipments(a, b, o);
    }
  }
}
