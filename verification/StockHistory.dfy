/**
 The stock counters under the real protocol. Every causal history of an order pairs its
 release with its own reservation, and so does any interleaving of many orders' histories;
 the accounting of the stock counters therefore holds for what the projection really consumes.
 */
module StockHistory {
  import opened Contracts
  import opened EventStore
  import opened Projection
  import opened Replay
  import opened StockAccounting
  import L = LiveReplay
  import S = SagaConcurrency
  import F = Fulfilment
  import C = Causality
  import A = Agreement

  // ------------------------------------------------------------------------------- one order

  lemma {:induction false} StillOutstanding(h: seq<Envelope>, k: nat)
    requires k < |h| && h[k].body.InventoryReserved? && forall i :: 0 <= i < |h| ==> !IsRelease(h[i])
    ensures Reservation(h[k].aggregate, h[k].body.reservationId, h[k].body.items) in Outstanding(h)
    decreases |h|
  {
    var n := |h| - 1;
    if k == n {
    } else {
      StillOutstanding(h[..n], k);
    }
  }

  /** The fraud check stands before its verdict and before the carrier's refusal. */
  lemma CheckBefore(order: Message, w: F.World, h: seq<Message>, e: Message) returns (check: Message)
    requires F.Inv(order, w) && C.Causal(w) && C.History(w, h) && e in w.net
    requires e.FraudRejected? || e.FraudApproved? || e.ShipmentFailed?
    ensures check in w.net && check.FraudCheckRequested? && C.Before(h, check, e)
    decreases if e.ShipmentFailed? then 1 else 0
  {
    hide F.Inv, C.Causal, C.Before;
    var c := C.Cause(order, w, h, e);
    if e.ShipmentFailed? {
      var a := C.Cause(order, w, h, c);
      check := CheckBefore(order, w, h, a);
      C.BeforeTransitive(h, check, a, c);
      C.BeforeTransitive(h, check, c, e);
    } else {
      check := c;
    }
  }

  /** The cause of the fraud check is the reservation in the row. */
  lemma CheckedReservation(order: Message, w: F.World, h: seq<Message>, check: Message) returns (r: Message)
    requires F.Inv(order, w) && C.Causal(w) && C.ChecksCaused(w) && C.History(w, h)
    requires check in w.net && check.FraudCheckRequested?
    ensures r in w.net && C.Before(h, r, check) && C.IsStoredReservation(w.saga.row, r)
  {
    hide C.Causal, C.Before, C.ChecksEmitted, C.IsStoredReservation, S.Sound, F.Story;
    r := C.Cause(order, w, h, check);
    assert (r, check) !in w.answers;
    assert (r, check).1.FraudCheckRequested?;
  }

  lemma ReleaseOfRow(order: Message, w: F.World, m: Message)
    requires F.Inv(order, w) && m in w.net && m.InventoryReleased?
    ensures w.saga.row.Some? && m.releaseOf == w.saga.row.value.context.reservationId
    ensures m.items == w.saga.row.value.context.items
  {
    hide S.Sound, F.Explained;
    if w.saga.row.None? {
      F.CommandInNetWasIssued(order, w.saga.issued, w.net, w.answers, m);
    } else {
      F.ReleaseIsOwn(order, w.saga.row.value, w.net, w.answers, m);
    }
  }

  /** The reservation that a release undoes stands before it in every causal history of every
      run, whatever fails and however often requests are answered. */
  lemma ReservedBefore(order: Message, acts: seq<F.Act>, h: seq<Message>, m: Message) returns (r: Message)
    requires order.OrderCreated? && C.History(F.Run(order, acts), h)
    requires m in F.Run(order, acts).net && m.InventoryReleased?
    ensures m.releaseOf.Some? && r == InventoryReserved(m.releaseOf.value, m.items)
    ensures r in F.Run(order, acts).net && C.Before(h, r, m)
  {
    hide F.Run, F.Inv, C.Causal, C.ChecksCaused, C.Before;
    F.InvAlways(order, acts);
    C.CausalAlways(order, acts);
    C.ChecksAlways(order, acts);
    var w := F.Run(order, acts);
    var e := C.Cause(order, w, h, m);
    var check := CheckBefore(order, w, h, e);
    r := CheckedReservation(order, w, h, check);
    ReleaseOfRow(order, w, m);
    C.BeforeTransitive(h, r, check, e);
    C.BeforeTransitive(h, r, e, m);
  }

  /** Every causal history of every run, as the events of one order, is paired. */
  lemma HistoryIsPaired(order: Message, acts: seq<F.Act>, o: Id, es: seq<Envelope>)
    requires order.OrderCreated? && C.History(F.Run(order, acts), A.Bodies(es)) && AllOf(es, o)
    ensures Paired(es)
  {
    hide F.Run, F.Inv, C.Before, Outstanding;
    var h, w := A.Bodies(es), F.Run(order, acts);
    F.InvAlways(order, acts);
    forall i | 0 <= i < |es| && IsRelease(es[i])
      ensures es[i].body.releaseOf.Some? && ReleasedBy(es[i]) in Outstanding(es[..i])
    {
      assert h[i] in w.net;
      var r := ReservedBefore(order, acts, h, h[i]);
      var k :| 0 <= k < |h| && h[k] == r;
      A.IsBefore(h, k, i);
      forall j | 0 <= j < i
        ensures !IsRelease(es[..i][j])
      {
        assert h[j] in w.net && h[j] != h[i];
        if h[j].InventoryReleased? {
          C.SameCommand(order, w, h[j], h[i]);
        }
      }
      StillOutstanding(es[..i], k);
    }
  }

  // ----------------------------------------------------------------------------- many orders

  function OfOrder(rs: seq<Reservation>, o: Id): seq<Reservation> {
    if rs == [] then [] else (if rs[0].order == o then [rs[0]] else []) + OfOrder(rs[1..], o)
  }

  lemma OfOrderCons(r: Reservation, rs: seq<Reservation>, o: Id)
    ensures OfOrder([r] + rs, o) == (if r.order == o then [r] else []) + OfOrder(rs, o)
  {
    assert ([r] + rs)[1..] == rs;
  }

  lemma {:induction false} OfOrderSnoc(rs: seq<Reservation>, r: Reservation, o: Id)
    ensures OfOrder(rs + [r], o) == OfOrder(rs, o) + if r.order == o then [r] else []
  {
    hide OfOrder;
    if rs == [] {
      assert rs + [r] == [r] + rs;
      OfOrderCons(r, rs, o);
      NoneOfOrder(o);
    } else {
      OfOrderSnoc(rs[1..], r, o);
      OfOrderCons(rs[0], rs[1..], o);
      OfOrderCons(rs[0], rs[1..] + [r], o);
      assert rs == [rs[0]] + rs[1..] && rs + [r] == [rs[0]] + (rs[1..] + [r]);
    }
  }

  lemma {:induction false} OfOrderRemove(rs: seq<Reservation>, r: Reservation, o: Id)
    ensures OfOrder(RemoveFirst(rs, r), o) == if r.order == o then RemoveFirst(OfOrder(rs, o), r) else OfOrder(rs, o)
  {
    if rs == [] {
    } else if rs[0] == r {
      if r.order == o {
        assert OfOrder(rs, o)[0] == r && OfOrder(rs, o)[1..] == OfOrder(rs[1..], o);
      } else {
        assert OfOrder(rs, o) == OfOrder(rs[1..], o);
      }
    } else {
      OfOrderRemove(rs[1..], r, o);
      assert RemoveFirst(rs, r)[0] == rs[0] && RemoveFirst(rs, r)[1..] == RemoveFirst(rs[1..], r);
      if rs[0].order == o {
        assert OfOrder(rs, o)[0] == rs[0] && OfOrder(rs, o)[1..] == OfOrder(rs[1..], o);
      } else {
        assert OfOrder(rs, o) == OfOrder(rs[1..], o);
      }
    }
  }

  lemma {:induction false} OfOrderMembers(rs: seq<Reservation>, o: Id, r: Reservation)
    ensures r in OfOrder(rs, o) ==> r in rs
  {
    if rs == [] {
    } else {
      OfOrderMembers(rs[1..], o, r);
    }
  }

  /** What is outstanding of one order depends on its own events only. */
  lemma {:induction false} OutstandingIsLocal(h: seq<Envelope>, o: Id)
    ensures OfOrder(Outstanding(h), o) == Outstanding(L.Only(h, o))
    decreases |h|
  {
    hide RemoveFirst, OfOrder;
    if h == [] {
      assert OfOrder([], o) == [] by { NoneOfOrder(o); }
    } else {
      var n := |h| - 1;
      var own := L.Only(h[..n], o);
      OutstandingIsLocal(h[..n], o);
      if h[n].aggregate == o {
        assert (own + [h[n]])[..|own|] == own;
      } else {
        assert own + [] == own;
      }
      if h[n].body.InventoryReserved? {
        OfOrderSnoc(Outstanding(h[..n]), Reservation(h[n].aggregate, h[n].body.reservationId, h[n].body.items), o);
      } else if IsRelease(h[n]) {
        OfOrderRemove(Outstanding(h[..n]), ReleasedBy(h[n]), o);
      }
    }
  }

  lemma NoneOfOrder(o: Id)
    ensures OfOrder([], o) == []
  {
  }

  lemma {:induction false} OnlyOfPrefix(h: seq<Envelope>, n: nat, o: Id)
    requires n <= |h|
    ensures L.Only(h[..n], o) <= L.Only(h, o)
    decreases |h|
  {
    if n == |h| {
      assert h[..n] == h;
    } else {
      OnlyOfPrefix(h[..|h| - 1], n, o);
      assert h[..|h| - 1][..n] == h[..n];
    }
  }

  /** An interleaving is paired if each order's own events are. */
  lemma InterleavingIsPaired(h: seq<Envelope>)
    requires forall o :: Paired(L.Only(h, o))
    ensures Paired(h)
  {
    hide Outstanding, L.Only, OfOrder;
    forall i | 0 <= i < |h| && IsRelease(h[i])
      ensures h[i].body.releaseOf.Some? && ReleasedBy(h[i]) in Outstanding(h[..i])
    {
      var o := h[i].aggregate;
      var before, own := L.Only(h[..i], o), L.Only(h, o);
      OnlyOfPrefix(h, i + 1, o);
      L.OnlySnoc(h[..i], h[i], o);
      assert h[..i + 1] == h[..i] + [h[i]];
      assert own[|before|] == h[i] && own[..|before|] == before;
      OutstandingIsLocal(h[..i], o);
      OfOrderMembers(Outstanding(h[..i]), o, ReleasedBy(h[i]));
    }
  }

  // ------------------------------------------------------------------- what has been consumed

  /** The events on the inventory topic, the only ones that move stock. */
  function OnInventory(es: seq<Envelope>): seq<Envelope>
    decreases |es|
  {
    if es == [] then []
    else
      var n := |es| - 1;
      OnInventory(es[..n]) + if TopicOf(es[n].body) == Inventory then [es[n]] else []
  }

  lemma {:induction false} OutstandingOnInventory(es: seq<Envelope>)
    ensures Outstanding(es) == Outstanding(OnInventory(es))
    decreases |es|
  {
    if es == [] {
    } else {
      var n := |es| - 1;
      var own := OnInventory(es[..n]);
      OutstandingOnInventory(es[..n]);
      if TopicOf(es[n].body) == Inventory {
        assert (own + [es[n]])[..|own|] == own;
      } else {
        assert own + [] == own;
      }
    }
  }

  /** Pairing grows event by event. */
  lemma PairedUnfolds(es: seq<Envelope>)
    requires es != []
    ensures var n := |es| - 1;
            Paired(es) <==>
            Paired(es[..n]) &&
            (IsRelease(es[n]) ==> es[n].body.releaseOf.Some? && ReleasedBy(es[n]) in Outstanding(es[..n]))
  {
    hide Outstanding;
    var n := |es| - 1;
    assert forall i :: 0 <= i < n ==> es[..n][i] == es[i] && es[..n][..i] == es[..i];
  }

  /** Pairing concerns the inventory topic only. */
  lemma {:induction false} PairedOnInventory(es: seq<Envelope>)
    ensures Paired(es) <==> Paired(OnInventory(es))
    decreases |es|
  {
    hide Paired, Outstanding;
    if es == [] {
    } else {
      var n := |es| - 1;
      var own := OnInventory(es[..n]);
      PairedOnInventory(es[..n]);
      OutstandingOnInventory(es[..n]);
      PairedUnfolds(es);
      if TopicOf(es[n].body) == Inventory {
        assert (own + [es[n]])[..|own|] == own;
        PairedUnfolds(own + [es[n]]);
      } else {
        assert own + [] == own;
      }
    }
  }

  lemma PrefixIsPaired(es: seq<Envelope>, all: seq<Envelope>)
    requires Paired(all) && es <= all
    ensures Paired(es)
  {
    hide Outstanding;
    forall i | 0 <= i < |es| && IsRelease(es[i])
      ensures es[i].body.releaseOf.Some? && ReleasedBy(es[i]) in Outstanding(es[..i])
    {
      assert es[..i] == all[..i] && es[i] == all[i];
    }
  }

  /** What the projection has consumed of one order: on the inventory topic, which delivers in
      order, the beginning of some causal history of some run; on the other topics, anything. */
  ghost predicate Consumed(es: seq<Envelope>, o: Id) {
    OnInventory(es) == [] ||
    exists order: Message, acts: seq<F.Act>, all: seq<Envelope> ::
      && order.OrderCreated? && C.History(F.Run(order, acts), A.Bodies(all))
      && AllOf(all, o) && OnInventory(es) <= OnInventory(all)
  }

  lemma ConsumedIsPaired(es: seq<Envelope>, o: Id)
    requires Consumed(es, o)
    ensures Paired(es)
  {
    hide C.History, F.Run, Outstanding, OnInventory, Paired;
    PairedOnInventory(es);
    if OnInventory(es) == [] {
      NothingIsPaired();
    } else {
      var order: Message, acts: seq<F.Act>, all: seq<Envelope> :|
        && order.OrderCreated? && C.History(F.Run(order, acts), A.Bodies(all))
        && AllOf(all, o) && OnInventory(es) <= OnInventory(all);
      HistoryIsPaired(order, acts, o, all);
      PairedOnInventory(all);
      PrefixIsPaired(OnInventory(es), OnInventory(all));
    }
  }

  lemma NothingIsPaired()
    ensures Paired([])
  {
  }

  /** Whatever orders run, with whatever failures and repeated replies, however their events
      interleave and however far the projection has got with each topic of each, reserved
      stock is exactly the outstanding reservations, and reserved plus available is the total
      exactly while no reservation has exceeded what was available. */
  lemma StockFollowsOrders(t: Tables, h: seq<Envelope>, sku: Id)
    requires forall o :: Consumed(L.Only(h, o), o)
    requires sku in t.stock && t.stock[sku].reserved == 0 && t.stock[sku].available == t.stock[sku].total >= 0
    ensures var s := MutateAll(t, h).stock;
            && sku in s
            && s[sku].reserved == Held(Outstanding(h), sku)
            && s[sku].available >= 0
            && s[sku].reserved + s[sku].available == s[sku].total + TotalOverdraft(t, h, sku)
            && (s[sku].reserved + s[sku].available == s[sku].total <==> !EverOverdrawn(t, h, sku))
  {
    hide Consumed, Paired, L.Only, MutateAll, Held, Outstanding, EverOverdrawn, TotalOverdraft;
    forall o
      ensures Paired(L.Only(h, o))
    {
      ConsumedIsPaired(L.Only(h, o), o);
    }
    InterleavingIsPaired(h);
    StockAccounts(t, h, sku);
  }
}
