/**
 The append-only event store. Appends of one aggregate are serialised by an advisory lock,
 so any interleaving of appends is some sequence of atomic appends.
 */
module EventStore {
  import opened Contracts

  /** An event as it travels: `number` is the optional explicit sequence number. */
  datatype Envelope = Envelope(id: Id, aggregate: Id, at: nat, number: Option<nat>, body: Message)

  datatype Entry = Entry(event: Envelope, number: nat)

  datatype AppendResult = Stored | AlreadyStored | NumberTaken

  predicate Recorded(store: seq<Entry>, id: Id) {
    exists i :: 0 <= i < |store| && store[i].event.id == id
  }

  predicate NumberUsed(store: seq<Entry>, aggregate: Id, number: nat) {
    exists i :: 0 <= i < |store| && store[i].event.aggregate == aggregate && store[i].number == number
  }

  /** The largest sequence number of an aggregate, 0 if it has no event. */
  function Highest(store: seq<Entry>, aggregate: Id): (h: nat)
    ensures forall i :: 0 <= i < |store| && store[i].event.aggregate == aggregate ==> store[i].number <= h
    ensures h > 0 ==> NumberUsed(store, aggregate, h)
  {
    if store == [] then 0
    else
      var n := |store| - 1;
      var h := Highest(store[..n], aggregate);
      if store[n].event.aggregate == aggregate && store[n].number > h then store[n].number
      else
        assert h > 0 ==> NumberUsed(store[..n], aggregate, h);
        h
  }

  /** The number an append will use: the explicit one, or the next free one. */
  function NumberFor(store: seq<Entry>, e: Envelope): nat {
    if e.number.Some? && e.number.value > 0 then e.number.value else Highest(store, e.aggregate) + 1
  }

  function Append(store: seq<Entry>, e: Envelope): (seq<Entry>, AppendResult) {
    if Recorded(store, e.id) then (store, AlreadyStored)
    else if NumberUsed(store, e.aggregate, NumberFor(store, e)) then (store, NumberTaken)
    else (store + [Entry(e, NumberFor(store, e))], Stored)
  }

  function AppendAll(events: seq<Envelope>): seq<Entry>
    decreases |events|
  {
    if events == [] then [] else Append(AppendAll(events[..|events| - 1]), events[|events| - 1]).0
  }

  /** The entries of one aggregate, in append order. */
  function Of(store: seq<Entry>, aggregate: Id): seq<Entry>
    decreases |store|
  {
    if store == [] then []
    else
      var n := |store| - 1;
      Of(store[..n], aggregate) + (if store[n].event.aggregate == aggregate then [store[n]] else [])
  }

  // --------------------------------------------------------------------- what appends keep

  /** Event ids are unique, and so are the numbers within an aggregate. */
  ghost predicate Sound(store: seq<Entry>) {
    && (forall i, j :: 0 <= i < j < |store| ==> store[i].event.id != store[j].event.id)
    && (forall i, j :: 0 <= i < j < |store| && store[i].event.aggregate == store[j].event.aggregate ==>
          store[i].number != store[j].number)
    && (forall i :: 0 <= i < |store| ==> store[i].number > 0)
  }

  /** The entries of the aggregate are numbered 1, 2, ... in append order. */
  ghost predicate Dense(store: seq<Entry>, aggregate: Id) {
    forall i :: 0 <= i < |Of(store, aggregate)| ==> Of(store, aggregate)[i].number == i + 1
  }

  /** Appending keeps the store sound and everything already in it, in place; appending an
      event again changes nothing. */
  lemma AppendKeeps(store: seq<Entry>, e: Envelope)
    requires Sound(store)
    ensures var (store', r) := Append(store, e);
            && Sound(store') && store <= store'
            && (r == Stored || r == AlreadyStored ==>
                  Recorded(store', e.id) && Append(store', e) == (store', AlreadyStored))
            && (r != Stored ==> store' == store)
  {
    var (store', r) := Append(store, e);
    if r == Stored {
      assert store'[|store|].event.id == e.id;
    }
  }

  lemma OfSnoc(store: seq<Entry>, x: Entry, aggregate: Id)
    ensures Of(store + [x], aggregate) == Of(store, aggregate) + (if x.event.aggregate == aggregate then [x] else [])
  {
    assert (store + [x])[..|store|] == store;
  }

  lemma {:induction false} OfMembers(store: seq<Entry>, aggregate: Id, x: Entry)
    ensures x in Of(store, aggregate) <==> x in store && x.event.aggregate == aggregate
    decreases |store|
  {
    if store == [] {
    } else {
      OfMembers(store[..|store| - 1], aggregate, x);
      assert store == store[..|store| - 1] + [store[|store| - 1]];
    }
  }

  lemma DenseHighest(store: seq<Entry>, aggregate: Id)
    requires Dense(store, aggregate)
    ensures Highest(store, aggregate) == |Of(store, aggregate)|
  {
    var own, h := Of(store, aggregate), Highest(store, aggregate);
    if |own| > 0 {
      OfMembers(store, aggregate, own[|own| - 1]);
      var i :| 0 <= i < |store| && store[i] == own[|own| - 1];
    }
    if h > 0 {
      var i :| 0 <= i < |store| && store[i].event.aggregate == aggregate && store[i].number == h;
      OfMembers(store, aggregate, store[i]);
      var j :| 0 <= j < |own| && own[j] == store[i];
    }
  }

  /** The numbering stays 1..n exactly when the new event gets number n + 1: an explicit
      number that is not the next one is the only way to break it. */
  lemma NumberingExactly(store: seq<Entry>, e: Envelope)
    requires Sound(store) && Dense(store, e.aggregate) && Append(store, e).1 == Stored
    ensures Dense(Append(store, e).0, e.aggregate) <==>
            (e.number.Some? && e.number.value > 0 ==> e.number.value == |Of(store, e.aggregate)| + 1)
  {
    hide Sound, Dense, Of, Append;
    DenseHighest(store, e.aggregate);
    StoredShape(store, e);
    DenseSnoc(store, Entry(e, NumberFor(store, e)));
  }

  lemma StoredShape(store: seq<Entry>, e: Envelope)
    requires Append(store, e).1 == Stored
    ensures Append(store, e).0 == store + [Entry(e, NumberFor(store, e))]
  {
    hide NumberFor, Recorded, NumberUsed;
  }

  lemma DenseSnoc(store: seq<Entry>, x: Entry)
    requires Dense(store, x.event.aggregate)
    ensures Dense(store + [x], x.event.aggregate) <==> x.number == |Of(store, x.event.aggregate)| + 1
  {
    hide Of;
    OfSnoc(store, x, x.event.aggregate);
    var own, own' := Of(store, x.event.aggregate), Of(store + [x], x.event.aggregate);
    assert own'[|own|] == x;
    assert forall i :: 0 <= i < |own| ==> own'[i] == own[i];
  }

  lemma OtherAggregatesKept(store: seq<Entry>, e: Envelope, aggregate: Id)
    requires aggregate != e.aggregate
    ensures Of(Append(store, e).0, aggregate) == Of(store, aggregate)
  {
    OfSnoc(store, Entry(e, NumberFor(store, e)), aggregate);
  }

  /** Distinct events in order of first appearance. */
  function Distinct(events: seq<Envelope>): seq<Envelope>
    decreases |events|
  {
    if events == [] then []
    else
      var n := |events| - 1;
      var d := Distinct(events[..n]);
      if HasId(d, events[n].id) then d else d + [events[n]]
  }

  predicate HasId(events: seq<Envelope>, id: Id) {
    exists i :: 0 <= i < |events| && events[i].id == id
  }

  function Events(entries: seq<Entry>): seq<Envelope> {
    seq(|entries|, i requires 0 <= i < |entries| => entries[i].event)
  }

  /** Event store law: under any interleaving of appends without explicit numbers, each
      aggregate's events are numbered exactly 1..n in append order, event ids are unique, no
      append ever fails, and the store holds the distinct events in order of first append. */
  lemma {:induction false} StoreOrder(events: seq<Envelope>)
    requires forall i :: 0 <= i < |events| ==> events[i].number.None?
    ensures Sound(AppendAll(events))
    ensures forall aggregate :: Dense(AppendAll(events), aggregate)
    ensures Events(AppendAll(events)) == Distinct(events)
    decreases |events|
  {
    hide Sound, Dense, Highest, NumberFor, NumberUsed;
    if events == [] {
      EmptyStoreIsSound();
    } else {
      var n := |events| - 1;
      var store, e := AppendAll(events[..n]), events[n];
      StoreOrder(events[..n]);
      AppendKeeps(store, e);
      if !Recorded(store, e.id) {
        NextNumberIsFree(store, e);
        forall aggregate
          ensures Dense(Append(store, e).0, aggregate)
        {
          DenseAppend(store, e, aggregate);
        }
      }
      SameIds(store, e.id);
    }
  }

  lemma EmptyStoreIsSound()
    ensures Sound([]) && forall aggregate :: Dense([], aggregate)
  {
  }

  lemma SameIds(store: seq<Entry>, id: Id)
    ensures Recorded(store, id) <==> HasId(Events(store), id)
  {
    if Recorded(store, id) {
      var i :| 0 <= i < |store| && store[i].event.id == id;
      assert Events(store)[i].id == id;
    }
  }

  lemma NextNumberIsFree(store: seq<Entry>, e: Envelope)
    requires e.number.None? && !Recorded(store, e.id)
    ensures Append(store, e).1 == Stored
  {
  }

  lemma DenseAppend(store: seq<Entry>, e: Envelope, aggregate: Id)
    requires Sound(store) && Dense(store, aggregate) && e.number.None? && !Recorded(store, e.id)
    ensures Dense(Append(store, e).0, aggregate)
  {
    if aggregate == e.aggregate {
      NextNumberIsFree(store, e);
      NumberingExactly(store, e);
    } else {
      OtherAggregatesKept(store, e, aggregate);
    }
  }

  // ------------------------------------------------------------------------ reading in order

  /** Inserts an entry into a list ordered by number. */
  function Insert(sorted: seq<Entry>, x: Entry): seq<Entry> {
    if sorted == [] then [x]
    else if x.number <= sorted[0].number then [x] + sorted
    else [sorted[0]] + Insert(sorted[1..], x)
  }

  /** `SELECT ... WHERE aggregate_id = $1 ORDER BY sequence_number`. */
  function Ordered(store: seq<Entry>, aggregate: Id): seq<Entry>
    decreases |store|
  {
    if store == [] then []
    else
      var n := |store| - 1;
      var rest := Ordered(store[..n], aggregate);
      if store[n].event.aggregate == aggregate then Insert(rest, store[n]) else rest
  }

  ghost predicate Increasing(s: seq<Entry>) {
    forall i, j :: 0 <= i < j < |s| ==> s[i].number < s[j].number
  }

  lemma {:induction false} InsertMembers(sorted: seq<Entry>, x: Entry)
    ensures multiset(Insert(sorted, x)) == multiset(sorted) + multiset{x}
    ensures forall y :: y in Insert(sorted, x) <==> y in sorted || y == x
  {
    if sorted == [] || x.number <= sorted[0].number {
    } else {
      InsertMembers(sorted[1..], x);
      assert sorted == [sorted[0]] + sorted[1..];
    }
  }

  lemma {:induction false} InsertKeeps(sorted: seq<Entry>, x: Entry)
    requires Increasing(sorted) && forall i :: 0 <= i < |sorted| ==> sorted[i].number != x.number
    ensures Increasing(Insert(sorted, x))
  {
    if sorted == [] || x.number <= sorted[0].number {
    } else {
      InsertKeeps(sorted[1..], x);
      InsertMembers(sorted[1..], x);
      var rest := Insert(sorted[1..], x);
      forall k | 0 <= k < |rest|
        ensures sorted[0].number < rest[k].number
      {
        assert rest[k] in rest;
        assert rest[k] in sorted[1..] || rest[k] == x;
      }
    }
  }

  lemma {:induction false} OrderedMembers(store: seq<Entry>, aggregate: Id)
    ensures multiset(Ordered(store, aggregate)) == multiset(Of(store, aggregate))
    ensures forall x :: x in Ordered(store, aggregate) <==> x in Of(store, aggregate)
    decreases |store|
  {
    hide Insert;
    if store == [] {
    } else {
      var n := |store| - 1;
      OrderedMembers(store[..n], aggregate);
      if store[n].event.aggregate == aggregate {
        InsertMembers(Ordered(store[..n], aggregate), store[n]);
      }
    }
  }

  lemma SoundPrefix(store: seq<Entry>, n: nat)
    requires Sound(store) && n <= |store|
    ensures Sound(store[..n])
  {
  }

  lemma {:induction false} OrderedIncreases(store: seq<Entry>, aggregate: Id)
    requires Sound(store)
    ensures Increasing(Ordered(store, aggregate))
    decreases |store|
  {
    hide Insert, Sound, Increasing, Of;
    if store == [] {
      NothingIncreases();
    } else {
      var n := |store| - 1;
      SoundPrefix(store, n);
      OrderedIncreases(store[..n], aggregate);
      if store[n].event.aggregate == aggregate {
        var rest := Ordered(store[..n], aggregate);
        OrderedMembers(store[..n], aggregate);
        forall i | 0 <= i < |rest|
          ensures rest[i].number != store[n].number
        {
          OfMembers(store[..n], aggregate, rest[i]);
          NumberIsNew(store, n, rest[i]);
        }
        InsertKeeps(rest, store[n]);
      }
    }
  }

  lemma NothingIncreases()
    ensures Increasing([])
  {
  }

  lemma NumberIsNew(store: seq<Entry>, n: nat, x: Entry)
    requires Sound(store) && n < |store| && x in store[..n] && x.event.aggregate == store[n].event.aggregate
    ensures x.number != store[n].number
  {
  }

  /** Reading an aggregate gives exactly its entries, in strictly increasing order of their
      numbers, so the second sort key never decides anything. */
  lemma ReadInOrder(store: seq<Entry>, aggregate: Id)
    requires Sound(store)
    ensures Increasing(Ordered(store, aggregate))
    ensures multiset(Ordered(store, aggregate)) == multiset(Of(store, aggregate))
    ensures forall x :: x in Ordered(store, aggregate) <==> x in store && x.event.aggregate == aggregate
  {
    hide Sound, Increasing, Ordered, Of;
    OrderedIncreases(store, aggregate);
    OrderedMembers(store, aggregate);
    forall x
      ensures x in Ordered(store, aggregate) <==> x in store && x.event.aggregate == aggregate
    {
      OfMembers(store, aggregate, x);
    }
  }

  lemma {:induction false} InsertLast(sorted: seq<Entry>, x: Entry)
    requires forall i :: 0 <= i < |sorted| ==> sorted[i].number < x.number
    ensures Insert(sorted, x) == sorted + [x]
  {
    if sorted == [] {
    } else {
      InsertLast(sorted[1..], x);
      assert sorted + [x] == [sorted[0]] + (sorted[1..] + [x]);
    }
  }

  /** In a densely numbered store, reading in sequence order is reading in append order. */
  lemma {:induction false} DenseReadsInAppendOrder(store: seq<Entry>, aggregate: Id)
    requires Dense(store, aggregate)
    ensures Ordered(store, aggregate) == Of(store, aggregate)
    decreases |store|
  {
    if store == [] {
    } else {
      var n := |store| - 1;
      var own, own' := Of(store[..n], aggregate), Of(store, aggregate);
      assert forall i :: 0 <= i < |own| ==> own'[i] == own[i];
      DenseReadsInAppendOrder(store[..n], aggregate);
      if store[n].event.aggregate == aggregate {
        assert own'[|own|] == store[n];
        InsertLast(own, store[n]);
      }
    }
  }

  /** The table behind `appendToEventStore`. */
  class EventStoreTable {
    var entries: seq<Entry>

    constructor ()
      ensures entries == []
    {
      entries := [];
    }

    method AppendToEventStore(e: Envelope) returns (r: AppendResult)
      requires Sound(entries)
      modifies this
      ensures Sound(entries) && old(entries) <= entries
      ensures (entries, r) == Append(old(entries), e)
    {
      AppendKeeps(entries, e);
      if Recorded(entries, e.id) {
        return AlreadyStored;
      }
      var number := if e.number.Some? && e.number.value > 0 then e.number.value else Highest(entries, e.aggregate) + 1;
      if NumberUsed(entries, e.aggregate, number) {
        return NumberTaken;
      }
      entries := entries + [Entry(e, number)];
      return Stored;
    }
  }
}
