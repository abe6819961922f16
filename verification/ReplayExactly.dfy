/**
 Exactly when live consumption and replay agree, for every run of the projection, and, for the
 events of a real order, in terms of the order in which they took effect and were appended.
 */
module ReplayExactly {
  import opened Contracts
  import opened EventStore
  import opened Saga
  import opened Consumers
  import opened LiveReplay
  import opened RowFolds
  import opened EventOrder
  import P = Projection
  import R = Replay
  import A = Agreement
  import C = Causality
  import F = Fulfilment
  import G = Progress
  import S = SagaConcurrency

  // ------------------------------------------------------------------------------- every run

  lemma {:induction false} OnlyIsOf(es: seq<Envelope>, o: Id)
    ensures R.AllOf(Only(es, o), o)
    decreases |es|
  {
    if es == [] {
    } else {
      OnlyIsOf(es[..|es| - 1], o);
    }
  }

  /** The live rows and the replayed rows, each from its own sequence of events. */
  lemma LiveAndReplayed(seed: map<Id, P.Stock>, steps: seq<LiveStep>, o: Id)
    requires Unnumbered(steps) && NoSharing(Events(LiveAll(seed, steps).store))
    ensures var s := LiveAll(seed, steps);
            && LiveInv(seed, s)
            && R.AllOf(Only(s.applied, o), o) && R.AllOf(Events(Of(s.store, o)), o)
            && R.ViewOf(s.tables, o) == R.FromScratch(o, Only(s.applied, o))
            && R.ViewOf(R.Rebuild(s.tables, o, Events(Ordered(s.store, o))), o) ==
                 R.FromScratch(o, Events(Of(s.store, o)))
  {
    hide LiveAll, P.Mutate, R.ViewOf, R.Rebuild, R.FromScratch, P.ApplyAll, P.MutateAll, EventStore.Sound, Dense,
         R.SharesId,
         R.Logged;
    LiveAlways(seed, steps);
    var s := LiveAll(seed, steps);
    var es := Events(Of(s.store, o));
    DenseReadsInAppendOrder(s.store, o);
    StoredEventsAreDistinct(s.store, o);
    LiveTablesAreClean(seed, s, o, es);
    R.ReplayIndependence(s.tables, o, es);
    AppliedSharesNothing(seed, s);
    ViewIsLocal(seed, s.applied, o);
    R.ApplyIsFold(R.EMPTY.(stock := seed), s.applied);
    R.ViewsOfSameModels(s.tables, P.MutateAll(R.EMPTY.(stock := seed), s.applied), o);
    OnlyIsOf(s.applied, o);
  }

  /** Live equals replay, exactly, for every run: the live rows of an order are the replayed
      ones if and only if the events in the order they took effect and the events in the order
      they were appended leave the same last value in each column, the same payments and
      shipments, and the same timestamps. */
  lemma LiveEqualsReplayExactly(seed: map<Id, P.Stock>, steps: seq<LiveStep>, o: Id)
    requires Unnumbered(steps) && NoSharing(Events(LiveAll(seed, steps).store))
    ensures var s := LiveAll(seed, steps);
            R.ViewOf(s.tables, o) == R.ViewOf(R.Rebuild(s.tables, o, Events(Ordered(s.store, o))), o) <==>
            SameColumns(Only(s.applied, o), Events(Of(s.store, o))) &&
            SameRows(Only(s.applied, o), Events(Of(s.store, o)))
  {
    hide LiveAll, R.ViewOf, R.Rebuild, R.FromScratch, LiveInv, SameColumns, SameRows;
    LiveAndReplayed(seed, steps, o);
    var s := LiveAll(seed, steps);
    ScratchExactly(o, Only(s.applied, o), Events(Of(s.store, o)));
  }

  // ------------------------------------------------------------------------- events of a run

  /** The events are the messages of a run without failures and with one reply per request, each
      in one event. */
  ghost predicate OfRun(es: seq<Envelope>, order: Message, acts: seq<F.Act>) {
    && order.OrderCreated? && G.FaithfulRun(order, acts)
    && NoRepeats(A.Bodies(es))
    && (forall m :: m in A.Bodies(es) <==> m in F.Run(order, acts).net)
  }

  /** A requested reservation means a payment was authorised. */
  lemma RequestedWasPaid(order: Message, w: F.World, q: Message) returns (p: Message)
    requires G.Live(order, w) && q in w.saga.issued && S.CommandOf(q) == S.ReservationCmd
    ensures p in w.net && p.PaymentAuthorized?
  {
    hide G.Live, F.Story, F.Trail;
    G.RowBehindCommands(order, w, q);
    p := PaidInStory(order, w.saga.row.value, w.net, q);
  }

  lemma PaidInStory(order: Message, row: Row, net: set<Message>, q: Message) returns (p: Message)
    requires F.Story(order, Some(row), F.Trail(row), net) && q in F.Trail(row) && S.CommandOf(q) == S.ReservationCmd
    ensures p in net && p.PaymentAuthorized?
  {
    hide F.ReservationKnown, F.ShipmentKnown, F.UnwindKnown, F.VerdictsKnown, F.UnwindTrail;
    p :| p in net && p.PaymentAuthorized?;
  }

  /** An order is refused once: a rejected payment, a refused reservation and a refused check
      exclude each other. */
  lemma RefusedOnce(order: Message, w: F.World, a: Message, b: Message)
    requires G.Live(order, w) && a in w.net && b in w.net
    requires a.PaymentRejected? || a.InventoryReservationFailed? || a.FraudRejected?
    requires b.PaymentRejected? || b.InventoryReservationFailed? || b.FraudRejected?
    ensures a == b
  {
    hide G.Live;
    if F.Question(a) == F.Question(b) {
      G.OneReplyEach(order, w, a, b);
    } else if a.PaymentRejected? || b.PaymentRejected? {
      var late := if a.PaymentRejected? then b else a;
      var p := PaidBefore(order, w, late);
      G.OneReplyEach(order, w, p, if a.PaymentRejected? then a else b);
      assert false;
    } else {
      var r := ReservedBeforeCheck(order, w, if a.FraudRejected? then a else b);
      G.OneReplyEach(order, w, r, if a.FraudRejected? then b else a);
      assert false;
    }
  }

  lemma PaidBefore(order: Message, w: F.World, b: Message) returns (p: Message)
    requires G.Live(order, w) && b in w.net && (b.InventoryReservationFailed? || b.FraudRejected?)
    ensures p in w.net && p.PaymentAuthorized?
  {
    hide G.Live, F.Explained, Answers;
    A.LiveExplains(order, w);
    var q := F.ReplyInNetWasAsked(order, w.saga.issued, w.net, w.answers, b);
    F.AnswersItsQuestion(q, b);
    if b.InventoryReservationFailed? {
      p := RequestedWasPaid(order, w, q);
    } else {
      var r := ReservedBeforeCheck(order, w, b);
      var q' := F.ReplyInNetWasAsked(order, w.saga.issued, w.net, w.answers, r);
      F.AnswersItsQuestion(q', r);
      p := RequestedWasPaid(order, w, q');
    }
  }

  lemma ReservedBeforeCheck(order: Message, w: F.World, b: Message) returns (r: Message)
    requires G.Live(order, w) && b in w.net && b.FraudRejected?
    ensures r in w.net && r.InventoryReserved?
  {
    hide G.Live, F.Explained, Answers, F.Story, F.Trail;
    A.LiveExplains(order, w);
    var q := F.ReplyInNetWasAsked(order, w.saga.issued, w.net, w.answers, b);
    F.AnswersItsQuestion(q, b);
    G.RowBehindCommands(order, w, q);
    r := ReservedInStory(order, w.saga.row.value, w.net, q);
  }

  lemma ReservedInStory(order: Message, row: Row, net: set<Message>, q: Message) returns (r: Message)
    requires F.Story(order, Some(row), F.Trail(row), net) && q in F.Trail(row) && S.CommandOf(q) == S.FraudCheckCmd
    ensures r in net && r.InventoryReserved?
  {
    hide F.PaymentKnown, F.ShipmentKnown, F.UnwindKnown, F.VerdictsKnown;
    r := InventoryReserved(row.context.reservationId.value, row.context.items);
  }

  /** Two messages of a run that write the same into a column are the same message. */
  lemma OneWordOneMessage(order: Message, w: F.World, a: Message, b: Message, f: A.Field)
    requires G.Live(order, w) && a in w.net && b in w.net
    requires A.Writes(a, f).Some? && A.Writes(a, f) == A.Writes(b, f)
    ensures a == b
  {
    hide G.Live;
    if f == A.STATUS {
      StatusTellsRole(a, b);
      C.SameRole(order, w, a, b);
    } else if f == A.REASON {
      if C.Ending(a) && C.Ending(b) {
        A.OneEnding(order, w, a, b);
      } else {
        ReasonKinds(a, b);
        RefusedOnce(order, w, a, b);
      }
    } else {
      A.SameWriterRole(a, b, f);
      C.SameRole(order, w, a, b);
    }
  }

  lemma StatusTellsRole(a: Message, b: Message)
    requires A.StatusOf(a).Some? && A.StatusOf(a) == A.StatusOf(b)
    ensures S.CommandOf(a) == S.CommandOf(b) && F.Question(a) == F.Question(b)
  {
  }

  lemma ReasonKinds(a: Message, b: Message)
    requires A.Writes(a, A.REASON).Some? && A.Writes(a, A.REASON) == A.Writes(b, A.REASON) &&
             !(C.Ending(a) && C.Ending(b))
    ensures a.PaymentRejected? || a.InventoryReservationFailed? || a.FraudRejected?
    ensures b.PaymentRejected? || b.InventoryReservationFailed? || b.FraudRejected?
  {
  }

  lemma EventOfMessage(es: seq<Envelope>, a: Envelope, b: Envelope)
    requires NoRepeats(A.Bodies(es)) && a in es && b in es && a.body == b.body
    ensures a == b
  {
    var i :| 0 <= i < |es| && es[i] == a;
    var j :| 0 <= j < |es| && es[j] == b;
    assert A.Bodies(es)[i] == A.Bodies(es)[j];
  }

  /** The events of a run are telling. */
  lemma RunIsTelling(es: seq<Envelope>, order: Message, acts: seq<F.Act>)
    requires OfRun(es, order, acts)
    ensures Telling(es)
  {
    hide G.Live, F.Run, G.FaithfulRun, A.Writes;
    var w := F.Run(order, acts);
    G.FaithfulRunsAreLive(order, acts);
    forall e | e in es
      ensures e.body in w.net
    {
      var i :| 0 <= i < |es| && es[i] == e;
      assert A.Bodies(es)[i] == e.body;
    }
    assert NoRepeats(es) by {
      assert forall i :: 0 <= i < |es| ==> A.Bodies(es)[i] == es[i].body;
    }
    assert exists c :: c in es && c.body.OrderCreated? by {
      A.LiveHasOrder(order, w);
      var i :| 0 <= i < |es| && A.Bodies(es)[i] == order;
      assert es[i] in es && es[i].body == order;
    }
    forall a, b, f | a in es && b in es && SameWord(a, b, f)
      ensures a == b
    {
      OneWordOneMessage(order, w, a.body, b.body, f);
      EventOfMessage(es, a, b);
    }
    forall a, b, f | a in es && b in es && SameColumn(a, b, f)
      ensures a == b
    {
      A.SameWriterRole(a.body, b.body, f);
      C.SameRole(order, w, a.body, b.body);
      EventOfMessage(es, a, b);
    }
    forall a, b | a in es && b in es && a.body.PaymentRefunded? && b.body.PaymentRefunded?
      ensures a == b
    {
      G.OneReplyEach(order, w, a.body, b.body);
      EventOfMessage(es, a, b);
    }
  }

  lemma SameElementsTell(hs: seq<Envelope>, gs: seq<Envelope>)
    requires Telling(gs) && NoRepeats(hs) && forall e :: e in hs <==> e in gs
    ensures Telling(hs)
  {
    hide A.Writes, SameWord, SameColumn;
    var c :| c in gs && c.body.OrderCreated?;
    assert c in hs;
  }

  // ------------------------------------------------------------------------------ the theorem

  lemma {:induction false} OnlyKeepsIds(es: seq<Envelope>, o: Id)
    requires P.DistinctIds(es)
    ensures NoRepeats(Only(es, o))
    decreases |es|
  {
    if es == [] {
    } else {
      var n := |es| - 1;
      OnlyKeepsIds(es[..n], o);
      forall e | e in Only(es[..n], o)
        ensures e != es[n]
      {
        OnlyMembers(es[..n], o, e);
        var i :| 0 <= i < n && es[..n][i] == e;
        assert es[i].id != es[n].id;
      }
      var own := Only(es[..n], o);
      forall i, j | 0 <= i < j < |Only(es, o)|
        ensures Only(es, o)[i] != Only(es, o)[j]
      {
        assert own[i] in own;
        assert j < |own| ==> Only(es, o)[j] == own[j];
      }
    }
  }

  /** When everything stored has been applied, the same events stand in both sequences. */
  lemma CaughtUpSameEvents(seed: map<Id, P.Stock>, s: Live, o: Id, e: Envelope)
    requires LiveInv(seed, s) && CaughtUp(s, o)
    ensures e in Only(s.applied, o) <==> e in Events(Of(s.store, o))
  {
    hide Dense, P.ApplyAll, Only, Of;
    OnlyMembers(s.applied, o, e);
    if e in Only(s.applied, o) {
      var i :| 0 <= i < |s.applied| && s.applied[i] == e;
      assert IsStored(s.store, s.applied[i]);
      StoredIsInOf(s.store, e);
    }
    if e in Events(Of(s.store, o)) {
      var j :| 0 <= j < |Of(s.store, o)| && Events(Of(s.store, o))[j] == e;
      OfMembers(s.store, o, Of(s.store, o)[j]);
      var k :| 0 <= k < |s.store| && s.store[k] == Of(s.store, o)[j];
      assert e.id in s.tables.applied;
      R.LoggedIds(map[], s.applied, e.id);
      var m :| 0 <= m < |s.applied| && s.applied[m].id == e.id;
      assert IsStored(s.store, s.applied[m]);
      var q :| 0 <= q < |s.store| && s.store[q].event == s.applied[m];
      assert q == k;
    }
  }

  /** Live equals replay, exactly, for the events of a real order once all of them have been
      applied: the rows agree if and only if, between the order in which the events took effect
      and the order in which they were appended, the same event was last to give a status, the
      same was last to give a reason, the same events with ids came after the order's
      creation, and the refund came on the same side of its authorisation. */
  lemma LiveEqualsReplayByOrder(seed: map<Id, P.Stock>, steps: seq<LiveStep>, o: Id, order: Message, acts: seq<F.Act>)
    requires Unnumbered(steps) && NoSharing(Events(LiveAll(seed, steps).store)) && CaughtUp(LiveAll(seed, steps), o)
    requires OfRun(Events(Of(LiveAll(seed, steps).store, o)), order, acts)
    ensures var s := LiveAll(seed, steps);
            R.ViewOf(s.tables, o) == R.ViewOf(R.Rebuild(s.tables, o, Events(Ordered(s.store, o))), o) <==>
            SameWhereItMatters(Only(s.applied, o), Events(Of(s.store, o)))
  {
    hide LiveAll, R.ViewOf, R.Rebuild, R.FromScratch, SameColumns, SameRows, SameWhereItMatters, Telling, OfRun, Only,
         Of,
         P.ApplyAll, EventStore.Sound, Dense, R.Logged, NoSharing, CaughtUp;
    LiveEqualsReplayExactly(seed, steps, o);
    LiveAlways(seed, steps);
    var s := LiveAll(seed, steps);
    var hs, gs := Only(s.applied, o), Events(Of(s.store, o));
    RunIsTelling(gs, order, acts);
    OnlyKeepsIds(s.applied, o);
    forall e
      ensures e in hs <==> e in gs
    {
      CaughtUpSameEvents(seed, s, o, e);
    }
    SameElementsTell(hs, gs);
    FoldsByOrder(hs, gs);
  }

  /** What is asked of the order of effects when the store has the events in causal order. */
  ghost predicate KeepsCauses(hs: seq<Envelope>, gs: seq<Envelope>) {
    && Writer(hs, A.STATUS) == Writer(gs, A.STATUS)
    && Writer(hs, A.REASON) == Writer(gs, A.REASON)
    && (forall x :: x in hs && WritesId(x.body) ==> CreatedBefore(hs, x))
    && RefundsFollow(hs)
  }

  ghost predicate RefundsFollow(hs: seq<Envelope>) {
    forall p, r :: p in hs && r in hs && p.body.PaymentAuthorized? && r.body.PaymentRefunded? ==> Precedes(hs, p, r)
  }

  /** In a causal history every event with an id comes after the creation, and the refund
      after its authorisation. */
  lemma CausalOrder(gs: seq<Envelope>, order: Message, acts: seq<F.Act>)
    requires OfRun(gs, order, acts) && C.History(F.Run(order, acts), A.Bodies(gs))
    ensures forall x :: x in gs && WritesId(x.body) ==> CreatedBefore(gs, x)
    ensures RefundsFollow(gs)
  {
    hide F.Run, G.FaithfulRun, G.Live, C.Causal, C.History, CreatedBefore, Precedes, WritesId, F.Inv, NoRepeats;
    var w := F.Run(order, acts);
    G.FaithfulRunsAreLive(order, acts);
    C.CausalAlways(order, acts);
    A.LiveHasOrder(order, w);
    forall x | x in gs && WritesId(x.body)
      ensures CreatedBefore(gs, x)
    {
      CreatedFirst(gs, order, w, x);
    }
    forall p, r | p in gs && r in gs && p.body.PaymentAuthorized? && r.body.PaymentRefunded?
      ensures Precedes(gs, p, r)
    {
      RefundedLater(gs, order, w, p, r);
    }
  }

  lemma CreatedFirst(gs: seq<Envelope>, order: Message, w: F.World, x: Envelope)
    requires G.Live(order, w) && C.Causal(w) && C.History(w, A.Bodies(gs)) && order.OrderCreated? && order in w.net
    requires x in gs && WritesId(x.body)
    ensures CreatedBefore(gs, x)
  {
    hide G.Live, C.Causal, C.Before;
    var h := A.Bodies(gs);
    assert order in h;
    var i :| 0 <= i < |h| && h[i] == order;
    var j :| 0 <= j < |gs| && gs[j] == x;
    assert h[j] == x.body && h[j] in w.net;
    A.NothingPrecedes(order, w, h, x.body);
    A.IsBefore(h, i, j);
    assert gs[i].body.OrderCreated?;
  }

  lemma RefundedLater(gs: seq<Envelope>, order: Message, w: F.World, p: Envelope, r: Envelope)
    requires G.Live(order, w) && C.Causal(w) && C.History(w, A.Bodies(gs))
    requires p in gs && r in gs && p.body.PaymentAuthorized? && r.body.PaymentRefunded?
    ensures Precedes(gs, p, r)
  {
    hide G.Live, C.Causal, C.Before;
    var h := A.Bodies(gs);
    var i :| 0 <= i < |gs| && gs[i] == p;
    var j :| 0 <= j < |gs| && gs[j] == r;
    assert h[i] == p.body && h[j] == r.body && h[i] in w.net && h[j] in w.net;
    C.RefundFollowsPayment(order, w, h, r.body, p.body);
    A.IsBefore(h, i, j);
  }

  /** The same when the events were appended in causal order: the rows agree if and only if the
      same events were last to give a status and a reason, every event with an id took effect
      after the order's creation, and the refund after its authorisation. */
  lemma LiveEqualsReplayByCauses(seed: map<Id, P.Stock>, steps: seq<LiveStep>, o: Id, order: Message, acts: seq<F.Act>)
    requires Unnumbered(steps) && NoSharing(Events(LiveAll(seed, steps).store)) && CaughtUp(LiveAll(seed, steps), o)
    requires OfRun(Events(Of(LiveAll(seed, steps).store, o)), order, acts)
    requires C.History(F.Run(order, acts), A.Bodies(Events(Of(LiveAll(seed, steps).store, o))))
    ensures var s := LiveAll(seed, steps);
            R.ViewOf(s.tables, o) == R.ViewOf(R.Rebuild(s.tables, o, Events(Ordered(s.store, o))), o) <==>
            KeepsCauses(Only(s.applied, o), Events(Of(s.store, o)))
  {
    hide LiveAll, LiveInv, R.ViewOf, R.Rebuild, OfRun, Only, Of, NoSharing, CaughtUp, Writer, CreatedBefore, Precedes,
         WritesId, C.History, F.Run;
    LiveEqualsReplayByOrder(seed, steps, o, order, acts);
    LiveAlways(seed, steps);
    var s := LiveAll(seed, steps);
    var hs, gs := Only(s.applied, o), Events(Of(s.store, o));
    CausalOrder(gs, order, acts);
    forall e
      ensures e in hs <==> e in gs
    {
      CaughtUpSameEvents(seed, s, o, e);
    }
  }
}
