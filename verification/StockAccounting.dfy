/**
 Stock counters against reservations. A history pairs every release with an earlier
 reservation of the same order, id and items; the counters then account exactly for what is
 still reserved, and reserved plus available exceeds the total exactly when some reservation
 took more than was available.
 */
module StockAccounting {
  import opened Contracts
  import opened EventStore
  import opened Projection
  import opened Replay

  datatype Reservation = Reservation(order: Id, id: Id, items: seq<Item>)

  /** How much of `sku` a list of items takes; an item without a quantity counts as one. */
  function Amount(items: seq<Item>, sku: Id): nat
    decreases |items|
  {
    if items == [] then 0
    else
      var last := items[|items| - 1];
      Amount(items[..|items| - 1], sku) +
      if last.sku != sku then 0 else if last.quantity == 0 then 1 else last.quantity
  }

  function Held(rs: seq<Reservation>, sku: Id): nat {
    if rs == [] then 0 else Amount(rs[0].items, sku) + Held(rs[1..], sku)
  }

  function RemoveFirst(rs: seq<Reservation>, r: Reservation): seq<Reservation> {
    if rs == [] then [] else if rs[0] == r then rs[1..] else [rs[0]] + RemoveFirst(rs[1..], r)
  }

  predicate IsRelease(e: Envelope) {
    e.body.InventoryReleased?
  }

  function ReleasedBy(e: Envelope): Reservation
    requires IsRelease(e)
  {
    Reservation(e.aggregate, if e.body.releaseOf.Some? then e.body.releaseOf.value else 0, e.body.items)
  }

  /** The reservations made and not yet released. */
  function Outstanding(h: seq<Envelope>): seq<Reservation>
    decreases |h|
  {
    if h == [] then []
    else
      var n := |h| - 1;
      var rs := Outstanding(h[..n]);
      if h[n].body.InventoryReserved? then rs + [Reservation(h[n].aggregate, h[n].body.reservationId, h[n].body.items)]
      else if IsRelease(h[n]) then RemoveFirst(rs, ReleasedBy(h[n]))
      else rs
  }

  /** Every release in the history follows its own reservation. */
  ghost predicate Paired(h: seq<Envelope>) {
    forall i :: 0 <= i < |h| && IsRelease(h[i]) ==> h[i].body.releaseOf.Some? && ReleasedBy(h[i]) in Outstanding(h[..i])
  }

  /** Some item of the list takes more than is available when its turn comes. */
  predicate Overdraws(stock: map<Id, Stock>, items: seq<Item>, sku: Id)
    decreases |items|
  {
    if items == [] then false
    else
      var n := |items| - 1;
      var before := ReserveAll(stock, items[..n]);
      Overdraws(stock, items[..n], sku) ||
      (items[n].sku == sku && sku in before && Quantity(items[n]) > before[sku].available)
  }

  /** How many pieces of `sku` the list takes beyond what is available, item by item. */
  function Overdraft(stock: map<Id, Stock>, items: seq<Item>, sku: Id): nat
    decreases |items|
  {
    if items == [] then 0
    else
      var n := |items| - 1;
      var before := ReserveAll(stock, items[..n]);
      Overdraft(stock, items[..n], sku) +
      if items[n].sku == sku && sku in before && Quantity(items[n]) > before[sku].available
      then Quantity(items[n]) - Max0(before[sku].available) else 0
  }

  /** How many pieces of `sku` the reservations of the history took beyond what was available. */
  function TotalOverdraft(t: Tables, h: seq<Envelope>, sku: Id): nat
    decreases |h|
  {
    if h == [] then 0
    else
      var n := |h| - 1;
      TotalOverdraft(t, h[..n], sku) +
      if h[n].body.InventoryReserved? then Overdraft(MutateAll(t, h[..n]).stock, h[n].body.items, sku) else 0
  }

  /** Some reservation of the history took more of `sku` than was available. */
  predicate EverOverdrawn(t: Tables, h: seq<Envelope>, sku: Id)
    decreases |h|
  {
    if h == [] then false
    else
      var n := |h| - 1;
      EverOverdrawn(t, h[..n], sku) ||
      (h[n].body.InventoryReserved? && Overdraws(MutateAll(t, h[..n]).stock, h[n].body.items, sku))
  }

  // ------------------------------------------------------------------------ one list of items

  lemma {:induction false} ReserveEffect(stock: map<Id, Stock>, items: seq<Item>, sku: Id)
    requires sku in stock && stock[sku].available >= 0
    ensures var s := ReserveAll(stock, items);
            && sku in s && s[sku].total == stock[sku].total
            && s[sku].reserved == stock[sku].reserved + Amount(items, sku)
            && s[sku].available == stock[sku].available - Amount(items, sku) + Overdraft(stock, items, sku) >= 0
    ensures Overdraft(stock, items, sku) > 0 <==> Overdraws(stock, items, sku)
    decreases |items|
  {
    if items == [] {
    } else {
      ReserveEffect(stock, items[..|items| - 1], sku);
    }
  }

  lemma {:induction false} ReleaseEffect(stock: map<Id, Stock>, items: seq<Item>, sku: Id)
    requires sku in stock && stock[sku].reserved >= Amount(items, sku)
    ensures var s := ReleaseAll(stock, items);
            && sku in s && s[sku].total == stock[sku].total
            && s[sku].reserved == stock[sku].reserved - Amount(items, sku)
            && s[sku].available == stock[sku].available + Amount(items, sku)
    decreases |items|
  {
    if items == [] {
    } else {
      ReleaseEffect(stock, items[..|items| - 1], sku);
    }
  }

  // ----------------------------------------------------------------------- sums of reservations

  lemma {:induction false} HeldSnoc(rs: seq<Reservation>, r: Reservation, sku: Id)
    ensures Held(rs + [r], sku) == Held(rs, sku) + Amount(r.items, sku)
  {
    if rs == [] {
      assert rs + [r] == [r];
    } else {
      HeldSnoc(rs[1..], r, sku);
      assert rs + [r] == [rs[0]] + (rs[1..] + [r]);
    }
  }

  lemma {:induction false} HeldRemove(rs: seq<Reservation>, r: Reservation, sku: Id)
    requires r in rs
    ensures Held(rs, sku) == Held(RemoveFirst(rs, r), sku) + Amount(r.items, sku)
  {
    if rs[0] == r {
    } else {
      HeldRemove(rs[1..], r, sku);
      assert RemoveFirst(rs, r)[1..] == RemoveFirst(rs[1..], r);
    }
  }

  // --------------------------------------------------------------------------------- the law

  lemma PairedPrefix(h: seq<Envelope>)
    requires Paired(h) && h != []
    ensures Paired(h[..|h| - 1])
    ensures IsRelease(h[|h| - 1]) ==> ReleasedBy(h[|h| - 1]) in Outstanding(h[..|h| - 1])
  {
    var g := h[..|h| - 1];
    forall i | 0 <= i < |g| && IsRelease(g[i])
      ensures g[i].body.releaseOf.Some? && ReleasedBy(g[i]) in Outstanding(g[..i])
    {
      assert g[..i] == h[..i] && g[i] == h[i];
    }
  }

  /** From any counters on, a paired history moves `reserved` by exactly what it leaves
      outstanding, and `available` by the same, up to what its reservations overdrew;
      `available` never goes negative. */
  lemma {:induction false} CountersFollowReservations(t: Tables, h: seq<Envelope>, sku: Id)
    requires Paired(h) && sku in t.stock && t.stock[sku].reserved >= 0 && t.stock[sku].available >= 0
    ensures var s := MutateAll(t, h).stock;
            && sku in s && s[sku].total == t.stock[sku].total
            && s[sku].reserved == t.stock[sku].reserved + Held(Outstanding(h), sku)
            && s[sku].available == t.stock[sku].available - Held(Outstanding(h), sku) + TotalOverdraft(t, h, sku) >= 0
    ensures TotalOverdraft(t, h, sku) > 0 <==> EverOverdrawn(t, h, sku)
    decreases |h|
  {
    hide OrdersAfter, PaymentsAfter, ShipmentsAfter, ReserveAll, ReleaseAll, Overdraws, Overdraft, Amount;
    if h == [] {
    } else {
      var n := |h| - 1;
      PairedPrefix(h);
      CountersFollowReservations(t, h[..n], sku);
      var s := MutateAll(t, h[..n]).stock;
      var rs := Outstanding(h[..n]);
      if h[n].body.InventoryReserved? {
        ReserveEffect(s, h[n].body.items, sku);
        HeldSnoc(rs, Reservation(h[n].aggregate, h[n].body.reservationId, h[n].body.items), sku);
      } else if IsRelease(h[n]) {
        HeldRemove(rs, ReleasedBy(h[n]), sku);
        ReleaseEffect(s, h[n].body.items, sku);
      }
    }
  }

  /** Stock accounting from the seeded table: reserved stock is the sum of the outstanding
      reservations, neither counter goes negative, and reserved plus available is the total
      plus what was ever taken beyond what was available: equal to the total exactly while
      no reservation has exceeded what was available. */
  lemma StockAccounts(t: Tables, h: seq<Envelope>, sku: Id)
    requires Paired(h) && sku in t.stock && t.stock[sku].reserved == 0
    requires t.stock[sku].available == t.stock[sku].total >= 0
    ensures var s := MutateAll(t, h).stock;
            && sku in s
            && s[sku].reserved == Held(Outstanding(h), sku)
            && s[sku].available >= 0
            && s[sku].reserved + s[sku].available == s[sku].total + TotalOverdraft(t, h, sku)
            && (s[sku].reserved + s[sku].available == s[sku].total <==> !EverOverdrawn(t, h, sku))
  {
    hide MutateAll, Held, Outstanding, EverOverdrawn, TotalOverdraft;
    CountersFollowReservations(t, h, sku);
  }

  ghost predicate NonNegative(stock: map<Id, Stock>) {
    forall sku :: sku in stock ==> stock[sku].reserved >= 0 && stock[sku].available >= 0
  }

  ghost predicate SameTotals(a: map<Id, Stock>, b: map<Id, Stock>) {
    a.Keys == b.Keys && forall sku :: sku in a ==> a[sku].total == b[sku].total
  }

  lemma {:induction false} ItemsKeepNonNegative(stock: map<Id, Stock>, items: seq<Item>)
    requires NonNegative(stock)
    ensures NonNegative(ReserveAll(stock, items)) && SameTotals(stock, ReserveAll(stock, items))
    ensures NonNegative(ReleaseAll(stock, items)) && SameTotals(stock, ReleaseAll(stock, items))
    decreases |items|
  {
    if items == [] {
    } else {
      ItemsKeepNonNegative(stock, items[..|items| - 1]);
    }
  }

  /** Whatever is delivered, paired or not, no counter ever goes negative, totals never change,
      and no event makes or removes a stock row. */
  lemma {:induction false} CountersNeverNegative(t: Tables, h: seq<Envelope>)
    requires NonNegative(t.stock)
    ensures NonNegative(MutateAll(t, h).stock) && SameTotals(t.stock, MutateAll(t, h).stock)
    decreases |h|
  {
    hide OrdersAfter, PaymentsAfter, ShipmentsAfter, ReserveAll, ReleaseAll;
    if h == [] {
    } else {
      var n := |h| - 1;
      CountersNeverNegative(t, h[..n]);
      if h[n].body.InventoryReserved? || h[n].body.InventoryReleased? {
        ItemsKeepNonNegative(MutateAll(t, h[..n]).stock, h[n].body.items);
      }
    }
  }

  lemma ReleaseOne(stock: map<Id, Stock>, item: Item)
    ensures ReleaseAll(stock, [item]) == ReleaseItem(stock, item)
  {
    assert [item][..0] == [];
    assert ReleaseAll(stock, []) == stock;
  }

  /** A release that no reservation precedes brings the reserved counter down to zero and no
      further, and makes its pieces available all the same. */
  lemma UnpairedReleaseIsClamped(t: Tables, e: Envelope, item: Item)
    requires e.body.InventoryReleased? && e.body.items == [item] && item.sku in t.stock
    requires 0 <= t.stock[item.sku].reserved < Amount([item], item.sku)
    ensures var s := Mutate(t, e).stock;
            && item.sku in s && s[item.sku].reserved == 0
            && s[item.sku].available == t.stock[item.sku].available + Amount([item], item.sku)
  {
    ReleaseOne(t.stock, item);
    assert [item][..0] == [];
    assert Amount([], item.sku) == 0;
  }

  // ---------------------------------------------------------------------- stock and replay

  /** A replay applies the order's stock events a second time. It shifts reserved stock by
      what the order still holds and available stock by the same, up to what the repeated
      reservations overdraw; so it leaves the counters alone if and only if the order holds
      none of that item and its reservations fit into what is available now. */
  lemma ReplayShiftsStock(t: Tables, o: Id, es: seq<Envelope>, sku: Id)
    requires AllOf(es, o) && DistinctIds(es) && LogHonest(t, es)
    requires Paired(es) && sku in t.stock && t.stock[sku].reserved >= 0 && t.stock[sku].available >= 0
    ensures var s, held, over := Rebuild(t, o, es).stock, Held(Outstanding(es), sku),
            TotalOverdraft(Reset(t, o), es, sku);
            && sku in s && s[sku].total == t.stock[sku].total
            && s[sku].reserved == t.stock[sku].reserved + held
            && s[sku].available == t.stock[sku].available - held + over >= 0
            && (s[sku] == t.stock[sku] <==> held == 0 && !EverOverdrawn(Reset(t, o), es, sku))
  {
    hide MutateAll, ApplyAll, Held, Outstanding, Mutate, ViewOf, IdsFree, EverOverdrawn, TotalOverdraft;
    assert forall i :: 0 <= i < |es| ==> es[i].id !in Reset(t, o).applied;
    ApplyIsFold(Reset(t, o), es);
    CountersFollowReservations(Reset(t, o), es, sku);
  }

  const TAKEN: Envelope := Envelope(1, 9, 0, None, InventoryReserved(4, [Item(1, 5)]))
  const GIVEN_BACK: Envelope := Envelope(2, 9, 1, None, InventoryReleased(Some(4), [Item(1, 5)]))
  const SOLD_OUT: Tables := EMPTY.(stock := map[1 := Stock(5, 5, 0)])

  lemma TakenAndGivenBack(t: Tables, stock: Stock)
    requires t.stock == map[1 := stock]
    ensures MutateAll(t, [TAKEN, GIVEN_BACK]).stock ==
            ReleaseItem(ReserveItem(t.stock, Item(1, 5)), Item(1, 5))
  {
    hide OrdersAfter, PaymentsAfter, ShipmentsAfter;
    var items := [Item(1, 5)];
    assert [TAKEN, GIVEN_BACK][..1] == [TAKEN] && [TAKEN][..0] == [];
    assert MutateAll(t, [TAKEN]) == Mutate(MutateAll(t, []), TAKEN);
    assert items[..0] == [];
    assert ReserveAll(t.stock, items) == ReserveItem(ReserveAll(t.stock, []), items[0]);
    var s := ReserveItem(t.stock, items[0]);
    assert ReleaseAll(s, items) == ReleaseItem(ReleaseAll(s, []), items[0]);
  }

  /** Another order holds all five pieces. Replaying an order that took five and gave them
      back, and so holds nothing, makes five pieces available that are not there. */
  lemma ReplayFreesForeignStock()
    ensures var es := [TAKEN, GIVEN_BACK];
            && AllOf(es, 9) && DistinctIds(es) && AllIdsFree(SOLD_OUT, es) && LogHonest(SOLD_OUT, es) && Paired(es)
            && Held(Outstanding(es), 1) == 0
            && Rebuild(SOLD_OUT, 9, es).stock == map[1 := Stock(5, 5, 5)]
  {
    hide Mutate, MutateAll, ApplyAll;
    var es := [TAKEN, GIVEN_BACK];
    assert es[..1] == [TAKEN] && [TAKEN][..0] == [];
    var r := Reservation(9, 4, [Item(1, 5)]);
    assert Outstanding([TAKEN]) == [] + [r] == [r];
    assert Outstanding(es) == RemoveFirst([r], r) == [];
    assert Paired(es) by { assert ReleasedBy(es[1]) == r && r in Outstanding(es[..1]); }
    var start := Reset(SOLD_OUT, 9);
    assert start == SOLD_OUT;
    ApplyIsFold(start, es);
    TakenAndGivenBack(start, Stock(5, 5, 0));
  }
}
