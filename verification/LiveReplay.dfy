/**
 Live consumption against replay. Each event is appended to the store in one transaction and
 applied to the read models in another; deliveries are duplicated, transactions roll back,
 and orders interleave. If the events of an order are applied in the order they were
 appended, its live rows are the rows a replay rebuilds.
 */
module LiveReplay {
  import opened Contracts
  import opened EventStore
  import opened Projection
  import opened Replay

  /** One transaction of `processEvent`, or its rollback. */
  datatype LiveStep = Keep(event: Envelope) | Project(event: Envelope, commits: bool)

  /** Store and tables, and the events in the order their effect was first committed. */
  datatype Live = Live(store: seq<Entry>, tables: Tables, applied: seq<Envelope>)

  predicate IsStored(store: seq<Entry>, e: Envelope) {
    exists i :: 0 <= i < |store| && store[i].event == e
  }

  function LiveNext(s: Live, step: LiveStep): Live {
    match step
    case Keep(e) => s.(store := Append(s.store, e).0)
    case Project(e, commits) =>
      if !commits || !IsStored(s.store, e) then s
      else Live(s.store, ApplyOnce(s.tables, e), if e.id in s.tables.applied then s.applied else s.applied + [e])
  }

  function LiveAll(seed: map<Id, Stock>, steps: seq<LiveStep>): Live
    decreases |steps|
  {
    if steps == [] then Live([], EMPTY.(stock := seed), [])
    else LiveNext(LiveAll(seed, steps[..|steps| - 1]), steps[|steps| - 1])
  }

  /** The events of one order. */
  function Only(es: seq<Envelope>, o: Id): seq<Envelope>
    decreases |es|
  {
    if es == [] then []
    else Only(es[..|es| - 1], o) + (if es[|es| - 1].aggregate == o then [es[|es| - 1]] else [])
  }

  ghost predicate NoSharing(es: seq<Envelope>) {
    forall i, j :: 0 <= i < |es| && 0 <= j < |es| && es[i].aggregate != es[j].aggregate ==> !SharesId(es[i], es[j])
  }

  /** Nothing carries an explicit sequence number. */
  ghost predicate Unnumbered(steps: seq<LiveStep>) {
    forall i :: 0 <= i < |steps| ==> steps[i].event.number.None?
  }

  /** An event is appended only when all stored events of its order have been applied. */
  ghost predicate Exclusive(seed: map<Id, Stock>, steps: seq<LiveStep>, o: Id) {
    forall i :: 0 <= i < |steps| && steps[i].Keep? && steps[i].event.aggregate == o ==>
      CaughtUp(LiveAll(seed, steps[..i]), o)
  }

  ghost predicate CaughtUp(s: Live, o: Id) {
    forall i :: 0 <= i < |s.store| && s.store[i].event.aggregate == o ==> s.store[i].event.id in s.tables.applied
  }

  // ------------------------------------------------------------------------------ invariants

  ghost predicate LiveInv(seed: map<Id, Stock>, s: Live) {
    && Sound(s.store)
    && (forall o :: Dense(s.store, o))
    && DistinctIds(s.applied)
    && s.tables == ApplyAll(EMPTY.(stock := seed), s.applied)
    && s.tables.applied == Logged(map[], s.applied)
    && (forall i :: 0 <= i < |s.applied| ==> IsStored(s.store, s.applied[i]))
  }

  lemma LiveKeep(seed: map<Id, Stock>, s: Live, e: Envelope)
    requires LiveInv(seed, s) && e.number.None?
    ensures LiveInv(seed, LiveNext(s, Keep(e)))
  {
    hide Sound, Dense, ApplyAll, Logged, DistinctIds, Append;
    AppendKeeps(s.store, e);
    var store' := Append(s.store, e).0;
    forall o
      ensures Dense(store', o)
    {
      if !Recorded(s.store, e.id) {
        DenseAppend(s.store, e, o);
      } else {
        AppendRecorded(s.store, e);
      }
    }
    forall i | 0 <= i < |s.applied|
      ensures IsStored(store', s.applied[i])
    {
      assert IsStored(s.store, s.applied[i]);
      var k :| 0 <= k < |s.store| && s.store[k].event == s.applied[i];
      assert store'[k] == s.store[k];
    }
  }

  lemma AppendRecorded(store: seq<Entry>, e: Envelope)
    requires Recorded(store, e.id)
    ensures Append(store, e) == (store, AlreadyStored)
  {
  }

  lemma LiveProject(seed: map<Id, Stock>, s: Live, e: Envelope)
    requires LiveInv(seed, s) && IsStored(s.store, e) && e.id !in s.tables.applied
    ensures LiveInv(seed, LiveNext(s, Project(e, true)))
  {
    hide Sound, Dense, Mutate;
    assert (s.applied + [e])[..|s.applied|] == s.applied;
    LoggedIds(map[], s.applied, e.id);
    MutateKeepsLog(s.tables, e);
    forall i | 0 <= i < |s.applied|
      ensures s.applied[i].id != e.id
    {
      assert !HasId(s.applied, e.id);
    }
  }

  lemma LiveInitially(seed: map<Id, Stock>)
    ensures LiveInv(seed, Live([], EMPTY.(stock := seed), []))
  {
  }

  lemma {:induction false} LiveAlways(seed: map<Id, Stock>, steps: seq<LiveStep>)
    requires Unnumbered(steps)
    ensures LiveInv(seed, LiveAll(seed, steps))
    decreases |steps|
  {
    hide LiveInv, ApplyOnce, Append;
    if steps == [] {
      LiveInitially(seed);
    } else {
      var n := |steps| - 1;
      LiveAlways(seed, steps[..n]);
      var s := LiveAll(seed, steps[..n]);
      match steps[n] {
        case Keep(e) => LiveKeep(seed, s, e);
        case Project(e, commits) =>
          if commits && IsStored(s.store, e) && e.id !in s.tables.applied {
            LiveProject(seed, s, e);
          } else {
            AppliedAgain(s.tables, e);
          }
      }
    }
  }

  lemma AppliedAgain(t: Tables, e: Envelope)
    ensures e.id in t.applied ==> ApplyOnce(t, e) == t
  {
  }

  // ------------------------------------------------------------------------ one order at a time

  lemma OnlySnoc(es: seq<Envelope>, e: Envelope, o: Id)
    ensures Only(es + [e], o) == Only(es, o) + (if e.aggregate == o then [e] else [])
  {
    assert (es + [e])[..|es|] == es;
  }

  lemma {:induction false} OnlyMembers(es: seq<Envelope>, o: Id, e: Envelope)
    ensures e in Only(es, o) <==> e in es && e.aggregate == o
    decreases |es|
  {
    if es == [] {
    } else {
      OnlyMembers(es[..|es| - 1], o, e);
      assert es == es[..|es| - 1] + [es[|es| - 1]];
    }
  }

  /** The view of an order after any interleaving is the view its own events build alone. */
  lemma {:induction false} ViewIsLocal(seed: map<Id, Stock>, es: seq<Envelope>, o: Id)
    requires NoSharing(es)
    ensures ViewOf(MutateAll(EMPTY.(stock := seed), es), o) == FromScratch(o, Only(es, o))
    decreases |es|
  {
    hide Mutate, ViewOf, SharesId, IdsFree;
    var start := EMPTY.(stock := seed);
    if es == [] {
      ViewsOfSameModels'(seed, o);
    } else {
      var n := |es| - 1;
      var e := es[n];
      ViewIsLocal(seed, es[..n], o);
      var own := Only(es[..n], o);
      NothingOwnedYet(seed, e);
      OwnersStay(start, es[..n], e);
      if e.aggregate == o {
        OnlySharing(es, o, n);
        OwnersStay(EMPTY, own, e);
        MutateView(MutateAll(start, es[..n]), MutateAll(EMPTY, own), e);
        assert (own + [e])[..|own|] == own;
      } else {
        ForeignEvent(MutateAll(start, es[..n]), e, o);
        assert own + [] == own;
      }
    }
  }

  lemma ViewsOfSameModels'(seed: map<Id, Stock>, o: Id)
    ensures ViewOf(EMPTY.(stock := seed), o) == ViewOf(EMPTY, o)
  {
  }

  lemma NothingOwnedYet(seed: map<Id, Stock>, e: Envelope)
    ensures IdsFree(EMPTY.(stock := seed), e) && IdsFree(EMPTY, e)
  {
  }

  lemma OnlySharing(es: seq<Envelope>, o: Id, n: nat)
    requires n < |es| && es[n].aggregate == o
    ensures forall i :: 0 <= i < |Only(es[..n], o)| && Only(es[..n], o)[i].aggregate != es[n].aggregate ==>
              !SharesId(Only(es[..n], o)[i], es[n])
  {
    forall i | 0 <= i < |Only(es[..n], o)|
      ensures Only(es[..n], o)[i].aggregate == o
    {
      OnlyMembers(es[..n], o, Only(es[..n], o)[i]);
    }
  }

  // ------------------------------------------------------------------------- the main theorem

  /** The events of the order took effect in the order they were appended, all of them. */
  ghost predicate InOrder(s: Live, o: Id) {
    Only(s.applied, o) == Events(Of(s.store, o))
  }

  lemma StoredEventsAreDistinct(store: seq<Entry>, o: Id)
    requires Sound(store) && Dense(store, o)
    ensures DistinctIds(Events(Of(store, o))) && AllOf(Events(Of(store, o)), o)
  {
    var own := Of(store, o);
    forall i, j | 0 <= i < j < |own|
      ensures own[i].event.id != own[j].event.id
    {
      OfMembers(store, o, own[i]);
      OfMembers(store, o, own[j]);
      var a :| 0 <= a < |store| && store[a] == own[i];
      var b :| 0 <= b < |store| && store[b] == own[j];
      assert own[i].number != own[j].number;
    }
    forall i | 0 <= i < |own|
      ensures own[i].event.aggregate == o
    {
      OfMembers(store, o, own[i]);
    }
  }

  lemma LiveTablesAreClean(seed: map<Id, Stock>, s: Live, o: Id, es: seq<Envelope>)
    requires LiveInv(seed, s) && NoSharing(Events(s.store)) && es == Events(Of(s.store, o))
    ensures AllIdsFree(s.tables, es) && LogHonest(s.tables, es)
  {
    hide Dense, Mutate, SharesId, IdsFree, ApplyAll;
    forall i | 0 <= i < |es|
      ensures IdsFree(s.tables, es[i])
      ensures es[i].id in s.tables.applied ==> s.tables.applied[es[i].id] == es[i].aggregate
    {
      OfMembers(s.store, o, Of(s.store, o)[i]);
      var k :| 0 <= k < |s.store| && s.store[k] == Of(s.store, o)[i];
      assert Events(s.store)[k] == es[i];
      NothingOwnedYet(seed, es[i]);
      forall m | 0 <= m < |s.applied| && s.applied[m].aggregate != es[i].aggregate
        ensures !SharesId(s.applied[m], es[i])
      {
        var q :| 0 <= q < |s.store| && s.store[q].event == s.applied[m];
        assert Events(s.store)[q] == s.applied[m];
      }
      ApplyOwners(EMPTY.(stock := seed), s.applied, es[i]);
      LoggedIds(map[], s.applied, es[i].id);
      if es[i].id in s.tables.applied {
        var m :| 0 <= m < |s.applied| && s.applied[m].id == es[i].id &&
                 s.applied[m].aggregate == s.tables.applied[es[i].id];
        var q :| 0 <= q < |s.store| && s.store[q].event == s.applied[m];
        assert q == k;
      }
    }
  }

  lemma AppliedSharesNothing(seed: map<Id, Stock>, s: Live)
    requires LiveInv(seed, s) && NoSharing(Events(s.store))
    ensures NoSharing(s.applied)
  {
    hide Sound, Dense, ApplyAll, SharesId;
    forall i, j | 0 <= i < |s.applied| && 0 <= j < |s.applied| && s.applied[i].aggregate != s.applied[j].aggregate
      ensures !SharesId(s.applied[i], s.applied[j])
    {
      var a :| 0 <= a < |s.store| && s.store[a].event == s.applied[i];
      var b :| 0 <= b < |s.store| && s.store[b].event == s.applied[j];
      assert Events(s.store)[a] == s.applied[i] && Events(s.store)[b] == s.applied[j];
    }
  }

  /** Live equals replay: if an order's events took effect in append order, its order,
      payment and shipment rows are exactly those a replay from the store rebuilds. */
  lemma LiveEqualsReplay(seed: map<Id, Stock>, steps: seq<LiveStep>, o: Id)
    requires Unnumbered(steps)
    requires NoSharing(Events(LiveAll(seed, steps).store))
    requires InOrder(LiveAll(seed, steps), o)
    ensures var s := LiveAll(seed, steps);
            ViewOf(s.tables, o) == ViewOf(Rebuild(s.tables, o, Events(Ordered(s.store, o))), o)
  {
    hide LiveAll, Mutate, ViewOf, Rebuild, FromScratch, ApplyAll, MutateAll, Sound, Dense, SharesId, Logged;
    LiveAlways(seed, steps);
    var s := LiveAll(seed, steps);
    var es := Events(Of(s.store, o));
    DenseReadsInAppendOrder(s.store, o);
    StoredEventsAreDistinct(s.store, o);
    LiveTablesAreClean(seed, s, o, es);
    ReplayIndependence(s.tables, o, es);
    AppliedSharesNothing(seed, s);
    ViewIsLocal(seed, s.applied, o);
    ApplyIsFold(EMPTY.(stock := seed), s.applied);
    ViewsOfSameModels(s.tables, MutateAll(EMPTY.(stock := seed), s.applied), o);
  }

  // ------------------------------------------------------- one event of an order at a time

  /** All stored events of the order are applied in append order, except perhaps the last. */
  ghost predicate AtMostOneBehind(s: Live, o: Id) {
    InOrder(s, o) || exists e :: Events(Of(s.store, o)) == Only(s.applied, o) + [e] && e.id !in s.tables.applied
  }

  lemma EventsOfSnoc(store: seq<Entry>, x: Entry, o: Id)
    ensures Events(Of(store + [x], o)) == Events(Of(store, o)) + (if x.event.aggregate == o then [x.event] else [])
  {
    OfSnoc(store, x, o);
  }

  lemma BehindKeep(seed: map<Id, Stock>, s: Live, e: Envelope, o: Id)
    requires LiveInv(seed, s) && AtMostOneBehind(s, o) && e.number.None? && (e.aggregate == o ==> CaughtUp(s, o))
    ensures AtMostOneBehind(LiveNext(s, Keep(e)), o)
  {
    hide Sound, Dense, ApplyAll, Logged;
    if !Recorded(s.store, e.id) {
      NextNumberIsFree(s.store, e);
      EventsOfSnoc(s.store, Entry(e, NumberFor(s.store, e)), o);
      if e.aggregate == o {
        if !InOrder(s, o) {
          var x :| Events(Of(s.store, o)) == Only(s.applied, o) + [x] && x.id !in s.tables.applied;
          LastIsStored(s.store, o, x);
          assert false;
        }
        if e.id in s.tables.applied {
          AppliedIsRecorded(seed, s, e.id);
        }
      }
    }
  }

  lemma LastIsStored(store: seq<Entry>, o: Id, x: Envelope)
    requires Events(Of(store, o)) != [] && Events(Of(store, o))[|Of(store, o)| - 1] == x
    ensures exists i :: 0 <= i < |store| && store[i].event.aggregate == o && store[i].event == x
  {
    var y := Of(store, o)[|Of(store, o)| - 1];
    OfMembers(store, o, y);
  }

  lemma AppliedIsRecorded(seed: map<Id, Stock>, s: Live, id: Id)
    requires LiveInv(seed, s) && id in s.tables.applied
    ensures Recorded(s.store, id)
  {
    hide Sound, Dense, ApplyAll;
    LoggedIds(map[], s.applied, id);
    var i :| 0 <= i < |s.applied| && s.applied[i].id == id;
    var k :| 0 <= k < |s.store| && s.store[k].event == s.applied[i];
  }

  lemma BehindProject(seed: map<Id, Stock>, s: Live, e: Envelope, o: Id)
    requires LiveInv(seed, s) && AtMostOneBehind(s, o) && IsStored(s.store, e) && e.id !in s.tables.applied
    ensures AtMostOneBehind(LiveNext(s, Project(e, true)), o)
  {
    hide Sound, Dense, ApplyAll, Mutate;
    OnlySnoc(s.applied, e, o);
    MutateKeepsLog(s.tables, e);
    var own := Only(s.applied, o);
    if e.aggregate == o {
      StoredIsInOf(s.store, e);
      assert e !in s.applied by {
        LoggedIds(map[], s.applied, e.id);
        assert e in s.applied ==> HasId(s.applied, e.id);
      }
      OnlyMembers(s.applied, o, e);
      assert e !in own && e in Events(Of(s.store, o));
    } else if !InOrder(s, o) {
      var x :| Events(Of(s.store, o)) == own + [x] && x.id !in s.tables.applied;
      LastIsStored(s.store, o, x);
      OneEventPerId(s.store, x, e) by { assert LiveInv(seed, s); }
      assert x.id !in LiveNext(s, Project(e, true)).tables.applied;
    }
  }

  lemma OneEventPerId(store: seq<Entry>, x: Envelope, e: Envelope)
    requires Sound(store) && IsStored(store, x) && IsStored(store, e) && x != e
    ensures x.id != e.id
  {
  }

  lemma StoredIsInOf(store: seq<Entry>, e: Envelope)
    requires IsStored(store, e)
    ensures e in Events(Of(store, e.aggregate))
  {
    var k :| 0 <= k < |store| && store[k].event == e;
    OfMembers(store, e.aggregate, store[k]);
    var j :| 0 <= j < |Of(store, e.aggregate)| && Of(store, e.aggregate)[j] == store[k];
    assert Events(Of(store, e.aggregate))[j] == e;
  }

  lemma {:induction false} NeverTwoBehind(seed: map<Id, Stock>, steps: seq<LiveStep>, o: Id)
    requires Unnumbered(steps) && Exclusive(seed, steps, o)
    ensures AtMostOneBehind(LiveAll(seed, steps), o)
    decreases |steps|
  {
    hide LiveInv, AtMostOneBehind, ApplyOnce, Append, CaughtUp;
    if steps == [] {
      NothingBehindAtFirst(seed, o);
    } else {
      var n := |steps| - 1;
      assert forall i :: 0 <= i <= n ==> steps[..n][..i] == steps[..i];
      NeverTwoBehind(seed, steps[..n], o);
      LiveAlways(seed, steps[..n]);
      var s := LiveAll(seed, steps[..n]);
      match steps[n] {
        case Keep(e) => BehindKeep(seed, s, e, o);
        case Project(e, commits) =>
          if commits && IsStored(s.store, e) && e.id !in s.tables.applied {
            BehindProject(seed, s, e, o);
          } else {
            AppliedAgain(s.tables, e);
          }
      }
    }
  }

  lemma NothingBehindAtFirst(seed: map<Id, Stock>, o: Id)
    ensures AtMostOneBehind(Live([], EMPTY.(stock := seed), []), o)
  {
    assert InOrder(Live([], EMPTY.(stock := seed), []), o);
  }

  /** If an event of the order is appended only after the apply of the previous one, and all
      its stored events have been applied, live rows and replayed rows agree. */
  lemma ExclusiveLiveEqualsReplay(seed: map<Id, Stock>, steps: seq<LiveStep>, o: Id)
    requires Unnumbered(steps) && Exclusive(seed, steps, o) && CaughtUp(LiveAll(seed, steps), o)
    requires NoSharing(Events(LiveAll(seed, steps).store))
    ensures var s := LiveAll(seed, steps);
            ViewOf(s.tables, o) == ViewOf(Rebuild(s.tables, o, Events(Ordered(s.store, o))), o)
  {
    hide LiveAll, Exclusive, ViewOf, Rebuild, NoSharing;
    NeverTwoBehind(seed, steps, o);
    var s := LiveAll(seed, steps);
    if !InOrder(s, o) {
      var x :| Events(Of(s.store, o)) == Only(s.applied, o) + [x] && x.id !in s.tables.applied;
      LastIsStored(s.store, o, x);
      assert false;
    }
    LiveEqualsReplay(seed, steps, o);
  }

  // ------------------------------------------------------------- why the order matters

  const CREATED: Envelope := Envelope(1, 9, 0, None, OrderCreated(6, 40.0, [Item(1, 2)]))
  const REQUESTED: Envelope := Envelope(2, 9, 1, None, PaymentRequested(6, 40.0))
  const RACE: seq<LiveStep> := [Keep(CREATED), Keep(REQUESTED), Project(REQUESTED, true), Project(CREATED, true)]

  /** Two events appended before either is applied, and then applied the other way round:
      everything is applied, yet the live order says pending and its replay payment pending. */
  lemma OutOfOrderDiffers()
    ensures Unnumbered(RACE) && CaughtUp(LiveAll(map[], RACE), 9)
    ensures var s := LiveAll(map[], RACE);
            ViewOf(s.tables, 9) != ViewOf(Rebuild(s.tables, 9, Events(Ordered(s.store, 9))), 9)
  {
    var store := [Entry(CREATED, 1), Entry(REQUESTED, 2)];
    RaceEnds(store);
    var s := LiveAll(map[], RACE);
    var row := NewOrderRow(CREATED);
    var start := Reset(s.tables, 9);
    assert start == EMPTY;
    assert Events(Ordered(store, 9)) == [CREATED, REQUESTED] by { RaceStored(store); }
    assert [CREATED, REQUESTED][..1] == [CREATED] && [CREATED][..0] == [];
    assert ApplyAll(EMPTY, [CREATED]) == ApplyOnce(EMPTY, CREATED);
    assert ViewOf(s.tables, 9).order == Some(row);
  }

  lemma RaceStored(store: seq<Entry>)
    requires store == [Entry(CREATED, 1), Entry(REQUESTED, 2)]
    ensures Events(Ordered(store, 9)) == [CREATED, REQUESTED]
  {
    var first, second := Entry(CREATED, 1), Entry(REQUESTED, 2);
    assert store[..1] == [first] && [first][..0] == [];
    assert Ordered([], 9) == [];
    assert Ordered([first], 9) == Insert([], first) == [first];
    assert [first][1..] == [];
    assert Ordered(store, 9) == Insert([first], second) == [first] + Insert([], second) == [first, second];
  }

  lemma LiveSnoc(seed: map<Id, Stock>, steps: seq<LiveStep>, step: LiveStep)
    ensures LiveAll(seed, steps + [step]) == LiveNext(LiveAll(seed, steps), step)
  {
    assert (steps + [step])[..|steps|] == steps;
  }

  lemma FirstAppend(e: Envelope)
    requires e.number.None?
    ensures Append([], e).0 == [Entry(e, 1)]
  {
    assert Highest([], e.aggregate) == 0;
  }

  lemma SecondAppend(d: Envelope, e: Envelope)
    requires e.number.None? && e.aggregate == d.aggregate && e.id != d.id
    ensures Append([Entry(d, 1)], e).0 == [Entry(d, 1), Entry(e, 2)]
  {
    hide Highest;
    var store := [Entry(d, 1)];
    assert store[0].number <= Highest(store, d.aggregate);
    assert NumberFor(store, e) == 2;
  }

  lemma RaceKeeps()
    ensures LiveNext(Live([], EMPTY, []), Keep(CREATED)) == Live([Entry(CREATED, 1)], EMPTY, [])
    ensures LiveNext(Live([Entry(CREATED, 1)], EMPTY, []), Keep(REQUESTED)) ==
              Live([Entry(CREATED, 1), Entry(REQUESTED, 2)], EMPTY, [])
  {
    hide Append, ApplyOnce;
    FirstAppend(CREATED);
    SecondAppend(CREATED, REQUESTED);
  }

  lemma RaceProjects(store: seq<Entry>)
    requires store == [Entry(CREATED, 1), Entry(REQUESTED, 2)]
    ensures LiveNext(Live(store, EMPTY, []), Project(REQUESTED, true)) ==
              Live(store, EMPTY.(applied := map[2 := 9]), [REQUESTED])
    ensures LiveNext(Live(store, EMPTY.(applied := map[2 := 9]), [REQUESTED]), Project(CREATED, true)) ==
            Live(store, Tables(map[9 := NewOrderRow(CREATED)], map[], map[], map[], map[2 := 9, 1 := 9]),
                 [REQUESTED, CREATED])
  {
    assert store[1].event == REQUESTED && store[0].event == CREATED;
  }

  lemma RaceEnds(store: seq<Entry>)
    requires store == [Entry(CREATED, 1), Entry(REQUESTED, 2)]
    ensures LiveAll(map[], RACE) ==
            Live(store, Tables(map[9 := NewOrderRow(CREATED)], map[], map[], map[], map[2 := 9, 1 := 9]),
                 [REQUESTED, CREATED])
  {
    hide LiveAll, LiveNext;
    var a, b, c, d := Keep(CREATED), Keep(REQUESTED), Project(REQUESTED, true), Project(CREATED, true);
    RaceStarts();
    RaceKeeps();
    RaceProjects(store);
    LiveSnoc(map[], [], a);
    LiveSnoc(map[], [a], b);
    LiveSnoc(map[], [a, b], c);
    LiveSnoc(map[], [a, b, c], d);
    assert [] + [a] == [a] && [a] + [b] == [a, b] && [a, b] + [c] == [a, b, c] && [a, b, c] + [d] == RACE;
  }

  lemma RaceStarts()
    ensures LiveAll(map[], []) == Live([], EMPTY, [])
  {
  }
}
