/**
 Rebuilding one order's read models: reset its rows, then apply its stored events in
 sequence order. Replay is proved independent of whatever the tables held before, and equal
 to what live consumption built.
 */
module Replay {
  import opened Contracts
  import opened EventStore
  import opened Projection

  /** The rows of one order in the three tables a reset covers. */
  datatype View = View(order: Option<OrderRow>, payments: map<Id, PaymentRow>, shipments: map<Id, ShipmentRow>)

  function ViewOf(t: Tables, o: Id): View {
    View(if o in t.orders then Some(t.orders[o]) else None,
         map p | p in t.payments && t.payments[p].order == o :: t.payments[p],
         map s | s in t.shipments && t.shipments[s].order == o :: t.shipments[s])
  }

  /** `resetReadModelForAggregate`, cut off after `k` of its four deletions. */
  function ResetUpTo(t: Tables, o: Id, k: nat): Tables {
    Tables(if k >= 1 then t.orders - {o} else t.orders,
           if k >= 2 then (map p | p in t.payments && t.payments[p].order != o :: t.payments[p]) else t.payments,
           t.stock,
           if k >= 3 then (map s | s in t.shipments && t.shipments[s].order != o :: t.shipments[s]) else t.shipments,
           if k >= 4 then (map id | id in t.applied && t.applied[id] != o :: t.applied[id]) else t.applied)
  }

  function Reset(t: Tables, o: Id): Tables { ResetUpTo(t, o, 4) }

  /** `replayAggregate` on the events `es` read from the store. */
  function Rebuild(t: Tables, o: Id, es: seq<Envelope>): Tables {
    ApplyAll(Reset(t, o), es)
  }

  /** The same, cut off by a crash after `k` deletions or after `j` applied events. */
  function CrashedRebuild(t: Tables, o: Id, es: seq<Envelope>, k: nat, j: nat): Tables
    requires j <= |es|
  {
    if k < 4 then ResetUpTo(t, o, k) else ApplyAll(Reset(t, o), es[..j])
  }

  /** The view an order's events define on their own, from empty tables. */
  function FromScratch(o: Id, es: seq<Envelope>): View {
    ViewOf(MutateAll(EMPTY, es), o)
  }

  const EMPTY: Tables := Tables(map[], map[], map[], map[], map[])

  ghost predicate AllOf(es: seq<Envelope>, o: Id) {
    forall i :: 0 <= i < |es| ==> es[i].aggregate == o
  }

  // ---------------------------------------------------------------------------- no sharing

  /** No other order owns a row keyed by a payment or shipment id of this event. */
  ghost predicate IdsFree(t: Tables, e: Envelope) {
    && (e.body.PaymentAuthorized? && e.body.paymentId in t.payments ==>
          t.payments[e.body.paymentId].order == e.aggregate)
    && (e.body.ShipmentCreated? && e.body.shipmentId in t.shipments ==>
          t.shipments[e.body.shipmentId].order == e.aggregate)
  }

  ghost predicate AllIdsFree(t: Tables, es: seq<Envelope>) {
    forall i :: 0 <= i < |es| ==> IdsFree(t, es[i])
  }

  /** The applied log does not credit one of these events to another aggregate. */
  ghost predicate LogHonest(t: Tables, es: seq<Envelope>) {
    forall i :: 0 <= i < |es| && es[i].id in t.applied ==> t.applied[es[i].id] == es[i].aggregate
  }

  // ------------------------------------------------------------------- views and one event

  /** An event of the order changes the view the same way whatever else the tables hold. */
  lemma MutateView(a: Tables, b: Tables, e: Envelope)
    requires ViewOf(a, e.aggregate) == ViewOf(b, e.aggregate) && IdsFree(a, e) && IdsFree(b, e)
    ensures ViewOf(Mutate(a, e), e.aggregate) == ViewOf(Mutate(b, e), e.aggregate)
  {
    hide StockAfter;
    var o := e.aggregate;
    OrderView(a, b, e);
    PaymentView(a, b, e);
    ShipmentView(a, b, e);
  }

  lemma OrderView(a: Tables, b: Tables, e: Envelope)
    requires ViewOf(a, e.aggregate).order == ViewOf(b, e.aggregate).order
    ensures ViewOf(Mutate(a, e), e.aggregate).order == ViewOf(Mutate(b, e), e.aggregate).order
  {
    hide StockAfter, PaymentsAfter, ShipmentsAfter, UpdatedOrder;
  }

  function Owned(payments: map<Id, PaymentRow>, o: Id): map<Id, PaymentRow> {
    map p | p in payments && payments[p].order == o :: payments[p]
  }

  function OwnedShipments(shipments: map<Id, ShipmentRow>, o: Id): map<Id, ShipmentRow> {
    map s | s in shipments && shipments[s].order == o :: shipments[s]
  }

  lemma PaymentView(a: Tables, b: Tables, e: Envelope)
    requires ViewOf(a, e.aggregate).payments == ViewOf(b, e.aggregate).payments && IdsFree(a, e) && IdsFree(b, e)
    ensures ViewOf(Mutate(a, e), e.aggregate).payments == ViewOf(Mutate(b, e), e.aggregate).payments
  {
    hide StockAfter, OrdersAfter, ShipmentsAfter;
    var o := e.aggregate;
    assert Owned(a.payments, o) == Owned(b.payments, o);
    assert forall p :: (p in a.payments && a.payments[p].order == o) <==> p in Owned(a.payments, o);
    assert forall p :: (p in b.payments && b.payments[p].order == o) <==> p in Owned(b.payments, o);
    var a', b' := PaymentsAfter(a.payments, e), PaymentsAfter(b.payments, e);
    forall p
      ensures p in Owned(a', o) <==> p in Owned(b', o)
      ensures p in Owned(a', o) ==> Owned(a', o)[p] == Owned(b', o)[p]
    {
      assert p in Owned(a.payments, o) <==> p in Owned(b.payments, o);
      assert p in Owned(a.payments, o) ==> a.payments[p] == b.payments[p];
    }
    assert Owned(a', o) == Owned(b', o);
  }

  lemma ShipmentView(a: Tables, b: Tables, e: Envelope)
    requires ViewOf(a, e.aggregate).shipments == ViewOf(b, e.aggregate).shipments && IdsFree(a, e) && IdsFree(b, e)
    ensures ViewOf(Mutate(a, e), e.aggregate).shipments == ViewOf(Mutate(b, e), e.aggregate).shipments
  {
    hide StockAfter, OrdersAfter, PaymentsAfter;
    var o := e.aggregate;
    assert OwnedShipments(a.shipments, o) == OwnedShipments(b.shipments, o);
    assert forall s :: (s in a.shipments && a.shipments[s].order == o) <==> s in OwnedShipments(a.shipments, o);
    assert forall s :: (s in b.shipments && b.shipments[s].order == o) <==> s in OwnedShipments(b.shipments, o);
    var a', b' := ShipmentsAfter(a.shipments, e), ShipmentsAfter(b.shipments, e);
    forall s
      ensures s in OwnedShipments(a', o) <==> s in OwnedShipments(b', o)
      ensures s in OwnedShipments(a', o) ==> OwnedShipments(a', o)[s] == OwnedShipments(b', o)[s]
    {
      assert s in OwnedShipments(a.shipments, o) <==> s in OwnedShipments(b.shipments, o);
      assert s in OwnedShipments(a.shipments, o) ==> a.shipments[s] == b.shipments[s];
    }
    assert OwnedShipments(a', o) == OwnedShipments(b', o);
  }

  /** An event of another order that shares no id with this one leaves its view alone. */
  lemma ForeignEvent(t: Tables, e: Envelope, o: Id)
    requires e.aggregate != o && IdsFree(t, e)
    ensures ViewOf(Mutate(t, e), o) == ViewOf(t, o)
  {
    hide StockAfter, UpdatedOrder;
    var t' := Mutate(t, e);
    assert ViewOf(t', o).order == ViewOf(t, o).order;
    ForeignPayments(t.payments, e, o) by { assert IdsFree(t, e); }
    ForeignShipments(t.shipments, e, o);
  }

  lemma ForeignPayments(payments: map<Id, PaymentRow>, e: Envelope, o: Id)
    requires e.aggregate != o
    requires e.body.PaymentAuthorized? && e.body.paymentId in payments ==>
               payments[e.body.paymentId].order == e.aggregate
    ensures (map p | p in PaymentsAfter(payments, e) && PaymentsAfter(payments, e)[p].order == o ::
               PaymentsAfter(payments, e)[p])
            == (map p | p in payments && payments[p].order == o :: payments[p])
  {
  }

  lemma ForeignShipments(shipments: map<Id, ShipmentRow>, e: Envelope, o: Id)
    requires e.aggregate != o
    requires e.body.ShipmentCreated? && e.body.shipmentId in shipments ==>
               shipments[e.body.shipmentId].order == e.aggregate
    ensures (map s | s in ShipmentsAfter(shipments, e) && ShipmentsAfter(shipments, e)[s].order == o ::
               ShipmentsAfter(shipments, e)[s])
            == (map s | s in shipments && shipments[s].order == o :: shipments[s])
  {
  }

  /** Rows never change owner, and the row an event inserts belongs to the event's order. */
  lemma MutateOwners(t: Tables, e: Envelope, f: Envelope)
    requires IdsFree(t, f)
    requires e.aggregate != f.aggregate ==> !SharesId(e, f)
    ensures IdsFree(Mutate(t, e), f)
  {
    hide StockAfter, OrdersAfter;
  }

  /** Two events name the same payment or the same shipment. */
  ghost predicate SharesId(e: Envelope, f: Envelope) {
    || (e.body.PaymentAuthorized? && f.body.PaymentAuthorized? && e.body.paymentId == f.body.paymentId)
    || (e.body.ShipmentCreated? && f.body.ShipmentCreated? && e.body.shipmentId == f.body.shipmentId)
  }

  // ------------------------------------------------------------------- independence of replay

  lemma {:induction false} OwnersStay(t: Tables, es: seq<Envelope>, f: Envelope)
    requires IdsFree(t, f)
    requires forall i :: 0 <= i < |es| && es[i].aggregate != f.aggregate ==> !SharesId(es[i], f)
    ensures IdsFree(MutateAll(t, es), f)
    decreases |es|
  {
    hide Mutate, IdsFree, SharesId;
    if es == [] {
    } else {
      OwnersStay(t, es[..|es| - 1], f);
      MutateOwners(MutateAll(t, es[..|es| - 1]), es[|es| - 1], f);
    }
  }

  lemma {:induction false} FoldViews(a: Tables, b: Tables, o: Id, es: seq<Envelope>)
    requires AllOf(es, o) && ViewOf(a, o) == ViewOf(b, o) && AllIdsFree(a, es) && AllIdsFree(b, es)
    ensures ViewOf(MutateAll(a, es), o) == ViewOf(MutateAll(b, es), o)
    decreases |es|
  {
    hide Mutate, ViewOf, IdsFree, SharesId;
    if es == [] {
    } else {
      var n := |es| - 1;
      FoldViews(a, b, o, es[..n]);
      OwnersStay(a, es[..n], es[n]);
      OwnersStay(b, es[..n], es[n]);
      MutateView(MutateAll(a, es[..n]), MutateAll(b, es[..n]), es[n]);
    }
  }

  /** The applied log after recording `es` one by one. */
  function Logged(log: map<Id, Id>, es: seq<Envelope>): map<Id, Id>
    decreases |es|
  {
    if es == [] then log else Logged(log, es[..|es| - 1])[es[|es| - 1].id := es[|es| - 1].aggregate]
  }

  lemma {:induction false} LoggedIds(log: map<Id, Id>, es: seq<Envelope>, id: Id)
    ensures id in Logged(log, es) <==> id in log || HasId(es, id)
    ensures id in Logged(log, es) && !HasId(es, id) ==> Logged(log, es)[id] == log[id]
    ensures HasId(es, id) ==> HasAs(es, id, Logged(log, es)[id])
    decreases |es|
  {
    if es == [] {
    } else {
      var n := |es| - 1;
      LoggedIds(log, es[..n], id);
      assert es == es[..n] + [es[n]];
      HasIdSnoc(es[..n], es[n], id);
      HasAsSnoc(es[..n], es[n], id);
      assert HasAs(es, es[n].id, es[n].aggregate);
    }
  }

  /** With a clean log, applying is folding. */
  lemma {:induction false} ApplyIsFold(t: Tables, es: seq<Envelope>)
    requires DistinctIds(es) && forall i :: 0 <= i < |es| ==> es[i].id !in t.applied
    ensures SameModels(ApplyAll(t, es), MutateAll(t, es))
    ensures ApplyAll(t, es).applied == Logged(t.applied, es)
    decreases |es|
  {
    hide Mutate;
    if es == [] {
    } else {
      var n := |es| - 1;
      var before := ApplyAll(t, es[..n]);
      ApplyIsFold(t, es[..n]);
      LoggedIds(t.applied, es[..n], es[n].id);
      assert !HasId(es[..n], es[n].id);
      MutateModels(before, MutateAll(t, es[..n]), es[n]);
      MutateKeepsLog(before, es[n]);
    }
  }

  ghost predicate HasAs(es: seq<Envelope>, id: Id, aggregate: Id) {
    exists i :: 0 <= i < |es| && es[i].id == id && es[i].aggregate == aggregate
  }

  lemma HasAsSnoc(es: seq<Envelope>, e: Envelope, id: Id)
    ensures forall g :: HasAs(es, id, g) ==> HasAs(es + [e], id, g)
  {
    forall g | HasAs(es, id, g)
      ensures HasAs(es + [e], id, g)
    {
      var i :| 0 <= i < |es| && es[i].id == id && es[i].aggregate == g;
      assert (es + [e])[i] == es[i];
    }
  }

  lemma ResetIsClean(t: Tables, o: Id, es: seq<Envelope>)
    requires AllOf(es, o) && AllIdsFree(t, es) && LogHonest(t, es)
    ensures ViewOf(Reset(t, o), o) == ViewOf(EMPTY, o)
    ensures AllIdsFree(Reset(t, o), es) && AllIdsFree(EMPTY, es)
    ensures forall i :: 0 <= i < |es| ==> es[i].id !in Reset(t, o).applied
  {
    assert ViewOf(Reset(t, o), o).order == None == ViewOf(EMPTY, o).order;
    assert ViewOf(Reset(t, o), o).payments == map[] == ViewOf(EMPTY, o).payments;
    assert ViewOf(Reset(t, o), o).shipments == map[] == ViewOf(EMPTY, o).shipments;
  }

  lemma ViewsOfSameModels(a: Tables, b: Tables, o: Id)
    requires SameModels(a, b)
    ensures ViewOf(a, o) == ViewOf(b, o)
  {
  }

  /** Replay independence: from any content of this order's rows and of the log, a full
      replay yields the view that the order's events define on their own. */
  lemma ReplayIndependence(t: Tables, o: Id, es: seq<Envelope>)
    requires AllOf(es, o) && DistinctIds(es) && AllIdsFree(t, es) && LogHonest(t, es)
    ensures ViewOf(Rebuild(t, o, es), o) == FromScratch(o, es)
  {
    hide Mutate, ViewOf, ResetUpTo, IdsFree, MutateAll, ApplyAll;
    ResetIsClean(t, o, es);
    ApplyIsFold(Reset(t, o), es);
    ViewsOfSameModels(ApplyAll(Reset(t, o), es), MutateAll(Reset(t, o), es), o);
    FoldViews(Reset(t, o), EMPTY, o, es);
  }

  lemma {:induction false} ApplyOwners(t: Tables, es: seq<Envelope>, f: Envelope)
    requires IdsFree(t, f)
    requires forall i :: 0 <= i < |es| && es[i].aggregate != f.aggregate ==> !SharesId(es[i], f)
    ensures IdsFree(ApplyAll(t, es), f)
    decreases |es|
  {
    hide Mutate, SharesId;
    if es == [] {
    } else {
      ApplyOwners(t, es[..|es| - 1], f);
      MutateOwners(ApplyAll(t, es[..|es| - 1]), es[|es| - 1], f);
    }
  }

  lemma ResetOwners(t: Tables, o: Id, k: nat, es: seq<Envelope>)
    requires AllIdsFree(t, es) && LogHonest(t, es)
    ensures AllIdsFree(ResetUpTo(t, o, k), es) && LogHonest(ResetUpTo(t, o, k), es)
  {
  }

  /** A reset cut off anywhere: the order row goes first, then its payments, then its shipments,
      and the applied log only when all of them are gone; so no statement's loss can leave rows
      whose events would be applied to them again. */
  lemma ResetGoesInOrder(t: Tables, o: Id, k: nat)
    ensures var (r, v) := (ResetUpTo(t, o, k), ViewOf(ResetUpTo(t, o, k), o));
            && (v.order.Some? ==> r == t)
            && (v.payments != map[] ==> r.shipments == t.shipments && r.applied == t.applied)
            && (v.shipments != map[] ==> r.applied == t.applied)
            && (r.applied != t.applied ==> v == View(None, map[], map[]))
            && r.stock == t.stock
    ensures o in t.orders && k > 0 ==> ResetUpTo(t, o, k) != t
  {
    if k >= 1 {
      assert o !in ResetUpTo(t, o, k).orders;
    }
    if k >= 2 {
      assert ViewOf(ResetUpTo(t, o, k), o).payments == map[];
    }
    if k >= 3 {
      assert ViewOf(ResetUpTo(t, o, k), o).shipments == map[];
    }
  }

  /** A crash at any point of a replay leaves tables from which a replay still works. */
  lemma CrashLeavesCleanTables(t: Tables, o: Id, es: seq<Envelope>, k: nat, j: nat)
    requires AllOf(es, o) && DistinctIds(es) && AllIdsFree(t, es) && LogHonest(t, es) && j <= |es|
    ensures AllIdsFree(CrashedRebuild(t, o, es, k, j), es) && LogHonest(CrashedRebuild(t, o, es, k, j), es)
  {
    hide Mutate, ResetUpTo, SharesId, IdsFree, ApplyAll;
    if k < 4 {
      ResetOwners(t, o, k, es);
    } else {
      ResetOwners(t, o, 4, es);
      ResetIsClean(t, o, es);
      forall i | 0 <= i < |es|
        ensures IdsFree(ApplyAll(Reset(t, o), es[..j]), es[i])
      {
        ApplyOwners(Reset(t, o), es[..j], es[i]);
      }
      ApplyIsFold(Reset(t, o), es[..j]);
      var t' := ApplyAll(Reset(t, o), es[..j]);
      forall i | 0 <= i < |es| && es[i].id in t'.applied
        ensures t'.applied[es[i].id] == es[i].aggregate
      {
        LoggedIds(Reset(t, o).applied, es[..j], es[i].id);
        assert HasAs(es[..j], es[i].id, t'.applied[es[i].id]);
        var m :| 0 <= m < j && es[..j][m].id == es[i].id && es[..j][m].aggregate == t'.applied[es[i].id];
      }
    }
  }

  /** A replay after a replay that crashed anywhere gives the same rows as one clean replay,
      and in particular replaying twice changes nothing. */
  lemma ReplayAfterCrash(t: Tables, o: Id, es: seq<Envelope>, k: nat, j: nat)
    requires AllOf(es, o) && DistinctIds(es) && AllIdsFree(t, es) && LogHonest(t, es) && j <= |es|
    ensures ViewOf(Rebuild(CrashedRebuild(t, o, es, k, j), o, es), o) == ViewOf(Rebuild(t, o, es), o)
    ensures ViewOf(Rebuild(Rebuild(t, o, es), o, es), o) == ViewOf(Rebuild(t, o, es), o)
  {
    hide ViewOf, Rebuild, FromScratch, IdsFree, LogHonest, AllIdsFree;
    CrashLeavesCleanTables(t, o, es, k, j);
    CrashLeavesCleanTables(t, o, es, 4, |es|);
    assert CrashedRebuild(t, o, es, 4, |es|) == Rebuild(t, o, es) by { FullCrashIsRebuild(t, o, es); }
    ReplayIndependence(t, o, es);
    ReplayIndependence(CrashedRebuild(t, o, es, k, j), o, es);
    ReplayIndependence(Rebuild(t, o, es), o, es);
  }

  lemma FullCrashIsRebuild(t: Tables, o: Id, es: seq<Envelope>)
    ensures CrashedRebuild(t, o, es, 4, |es|) == Rebuild(t, o, es)
  {
    assert es[..|es|] == es;
  }

  lemma ResetLeavesOthers(t: Tables, o: Id, k: nat, other: Id)
    requires other != o
    ensures ViewOf(ResetUpTo(t, o, k), other) == ViewOf(t, other)
  {
    var t' := ResetUpTo(t, o, k);
    assert ViewOf(t', other).order == ViewOf(t, other).order;
    assert ViewOf(t', other).payments == ViewOf(t, other).payments;
    assert ViewOf(t', other).shipments == ViewOf(t, other).shipments;
  }

  lemma {:induction false} ApplyLeavesOthers(t: Tables, o: Id, es: seq<Envelope>, other: Id)
    requires other != o && AllOf(es, o) && AllIdsFree(t, es)
    ensures ViewOf(ApplyAll(t, es), other) == ViewOf(t, other)
    decreases |es|
  {
    hide Mutate, ViewOf, IdsFree, SharesId;
    if es == [] {
    } else {
      var n := |es| - 1;
      ApplyLeavesOthers(t, o, es[..n], other);
      ApplyOwners(t, es[..n], es[n]);
      ForeignEvent(ApplyAll(t, es[..n]), es[n], other);
      LogIrrelevant(Mutate(ApplyAll(t, es[..n]), es[n]), ApplyAll(t, es), other);
    }
  }

  lemma LogIrrelevant(a: Tables, b: Tables, o: Id)
    ensures SameModels(a, b) ==> ViewOf(a, o) == ViewOf(b, o)
  {
    if SameModels(a, b) {
      ViewsOfSameModels(a, b, o);
    }
  }

  /** Replay of one order leaves the rows of every other order as they were, and so does one
      that crashed anywhere. */
  lemma ReplayLeavesOthers(t: Tables, o: Id, es: seq<Envelope>, other: Id, k: nat, j: nat)
    requires other != o && AllOf(es, o) && AllIdsFree(t, es) && LogHonest(t, es) && j <= |es|
    ensures ViewOf(Rebuild(t, o, es), other) == ViewOf(t, other)
    ensures ViewOf(CrashedRebuild(t, o, es, k, j), other) == ViewOf(t, other)
  {
    hide Mutate, ViewOf, ResetUpTo, IdsFree, ApplyAll;
    ResetOwners(t, o, 4, es);
    ApplyLeavesOthers(Reset(t, o), o, es, other);
    ApplyLeavesOthers(Reset(t, o), o, es[..j], other);
    ResetLeavesOthers(t, o, 4, other);
    ResetLeavesOthers(t, o, k, other);
  }

  // ---------------------------------------------------------------- the price of shared ids

  lemma {:induction false} ForeignRowsStay(t: Tables, es: seq<Envelope>, p: Id, s: Id)
    ensures p in t.payments ==>
              p in MutateAll(t, es).payments && MutateAll(t, es).payments[p].order == t.payments[p].order
    ensures s in t.shipments ==>
              s in MutateAll(t, es).shipments && MutateAll(t, es).shipments[s].order == t.shipments[s].order
    decreases |es|
  {
    hide StockAfter, OrdersAfter;
    if es == [] {
    } else {
      ForeignRowsStay(t, es[..|es| - 1], p, s);
    }
  }

  lemma {:induction false} InsertedRowsAreOwn(o: Id, es: seq<Envelope>, i: nat)
    requires AllOf(es, o) && i < |es|
    ensures es[i].body.PaymentAuthorized? ==> es[i].body.paymentId in FromScratch(o, es).payments
    ensures es[i].body.ShipmentCreated? ==> es[i].body.shipmentId in FromScratch(o, es).shipments
  {
    hide StockAfter, OrdersAfter, MutateAll;
    var prefix, rest := es[..i + 1], es[i + 1..];
    assert prefix[..i] == es[..i] && prefix[i] == es[i];
    assert MutateAll(EMPTY, prefix) == Mutate(MutateAll(EMPTY, es[..i]), es[i]) by { FoldSnoc(EMPTY, prefix); }
    RowsOfOneOrder(o, es[..i]);
    FoldSplit(EMPTY, prefix, rest);
    assert prefix + rest == es;
    if es[i].body.PaymentAuthorized? {
      ForeignRowsStay(MutateAll(EMPTY, prefix), rest, es[i].body.paymentId, 0);
    } else if es[i].body.ShipmentCreated? {
      ForeignRowsStay(MutateAll(EMPTY, prefix), rest, 0, es[i].body.shipmentId);
    }
  }

  lemma FoldSnoc(t: Tables, es: seq<Envelope>)
    requires es != []
    ensures MutateAll(t, es) == Mutate(MutateAll(t, es[..|es| - 1]), es[|es| - 1])
  {
  }

  lemma {:induction false} FoldSplit(t: Tables, a: seq<Envelope>, b: seq<Envelope>)
    ensures MutateAll(t, a + b) == MutateAll(MutateAll(t, a), b)
    decreases |b|
  {
    hide Mutate;
    if b == [] {
      assert a + b == a;
    } else {
      FoldSplit(t, a, b[..|b| - 1]);
      assert (a + b)[..|a + b| - 1] == a + b[..|b| - 1];
    }
  }

  lemma {:induction false} RowsOfOneOrder(o: Id, es: seq<Envelope>)
    requires AllOf(es, o)
    ensures forall p :: p in MutateAll(EMPTY, es).payments ==> MutateAll(EMPTY, es).payments[p].order == o
    ensures forall s :: s in MutateAll(EMPTY, es).shipments ==> MutateAll(EMPTY, es).shipments[s].order == o
    decreases |es|
  {
    hide StockAfter, OrdersAfter;
    if es == [] {
    } else {
      RowsOfOneOrder(o, es[..|es| - 1]);
    }
  }

  lemma SharedIdIsMissing(t: Tables, o: Id, es: seq<Envelope>, i: nat)
    requires AllOf(es, o) && DistinctIds(es) && LogHonest(t, es) && i < |es| && !IdsFree(t, es[i])
    ensures ViewOf(Rebuild(t, o, es), o) != FromScratch(o, es)
  {
    hide MutateAll, ApplyAll;
    InsertedRowsAreOwn(o, es, i);
    var r := Reset(t, o);
    assert forall k :: 0 <= k < |es| ==> es[k].id !in r.applied;
    ApplyIsFold(r, es);
    if es[i].body.PaymentAuthorized? && es[i].body.paymentId in t.payments &&
       t.payments[es[i].body.paymentId].order != o {
      ForeignRowsStay(r, es, es[i].body.paymentId, 0);
    } else {
      ForeignRowsStay(r, es, 0, es[i].body.shipmentId);
    }
  }

  /** Replay rebuilds the order from its own events if and only if no other order owns a row
      under one of its payment or shipment ids. */
  lemma ReplayFaithfulExactly(t: Tables, o: Id, es: seq<Envelope>)
    requires AllOf(es, o) && DistinctIds(es) && LogHonest(t, es)
    ensures ViewOf(Rebuild(t, o, es), o) == FromScratch(o, es) <==> AllIdsFree(t, es)
  {
    hide ViewOf, Rebuild, FromScratch, IdsFree, LogHonest;
    if AllIdsFree(t, es) {
      ReplayIndependence(t, o, es);
    } else {
      var i :| 0 <= i < |es| && !IdsFree(t, es[i]);
      SharedIdIsMissing(t, o, es, i);
    }
  }

  // ---------------------------------------------------------------------- the replay service

  /** `replayAggregate`: the order's events are read from the store in sequence order, then four
      deletions, then one transaction per event. `budget` is how many deletions and
      transactions succeed before one throws, and `lands` whether that one took effect
      nevertheless. */
  class EventReplayService {
    const models: ReadModels
    const store: EventStoreTable

    constructor (models: ReadModels, store: EventStoreTable)
      ensures this.models == models && this.store == store
    {
      this.models, this.store := models, store;
    }

    method ReplayAggregate(o: Id, budget: nat, lands: bool) returns (completed: bool)
      modifies models
      ensures var events, done := Events(Ordered(store.entries, o)), if lands then budget + 1 else budget;
              && (completed <==> budget >= 4 + |events|)
              && models.Contents() ==
                 if completed then Rebuild(old(models.Contents()), o, events)
                 else CrashedRebuild(old(models.Contents()), o, events, done, if done < 4 then 0 else done - 4)
    {
      var events := Events(Ordered(store.entries, o));
      completed := ResetRows(o, budget, lands);
      if completed {
        completed := ApplyEvents(events, budget - 4, lands);
        assert events[..|events|] == events;
      } else if budget == 3 && lands {
        assert events[..0] == [];
      }
    }

    method ResetRows(o: Id, budget: nat, lands: bool) returns (completed: bool)
      modifies models
      ensures completed <==> budget >= 4
      ensures models.Contents() == ResetUpTo(old(models.Contents()), o, if lands then budget + 1 else budget)
    {
      ghost var t := models.Contents();
      var done := if lands then budget + 1 else budget;
      if done == 0 { return false; }
      models.orders := models.orders - {o};
      assert models.Contents() == ResetUpTo(t, o, 1);
      if done == 1 { return false; }
      models.payments := map p | p in models.payments && models.payments[p].order != o :: models.payments[p];
      assert models.Contents() == ResetUpTo(t, o, 2);
      if done == 2 { return false; }
      models.shipments := map s | s in models.shipments && models.shipments[s].order != o :: models.shipments[s];
      assert models.Contents() == ResetUpTo(t, o, 3);
      if done == 3 { return false; }
      models.applied := map id | id in models.applied && models.applied[id] != o :: models.applied[id];
      return budget >= 4;
    }

    /** The loop over the events, up to the one whose transaction throws. */
    method ApplyEvents(events: seq<Envelope>, budget: nat, lands: bool) returns (completed: bool)
      modifies models
      ensures completed <==> budget >= |events|
      ensures models.Contents() == ApplyAll(old(models.Contents()),
                                            if completed then events else events[..if lands then budget + 1
                                                            else budget])
    {
      hide ApplyOnce;
      ghost var t := models.Contents();
      var i := 0;
      while i < |events|
        invariant 0 <= i <= |events| && i <= budget
        invariant models.Contents() == ApplyAll(t, events[..i])
      {
        assert events[..i + 1][..i] == events[..i];
        var failsAt := 5 + |StockItems(events[i])|;
        if i == budget {
          failsAt := if lands then Statements(models.Contents(), events[i]) - 1 else 0;
        }
        var threw := models.ApplyHistoricalEvent(events[i], failsAt, lands);
        if threw { return false; }
        i := i + 1;
      }
      assert events[..i] == events;
      return true;
    }
  }
}
