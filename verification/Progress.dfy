/**
 Progress of one order when nothing fails: emits succeed, every request is answered once,
 every message is delivered at least once and no handler is suspended for ever. Duplicates
 and reordering remain unrestricted. Every awaited message finds the saga ready for it, and
 a measure on the whole protocol brings the order to a terminal state with all its
 commands sent.
 */
module Progress {
  import opened Contracts
  import opened Saga
  import opened SagaBarrier
  import opened SagaConcurrency
  import opened Consumers
  import opened Fulfilment

  // -------------------------------------------------- what a message still has to contribute

  /** Messages the saga has a transition for. */
  predicate EventKind(m: Message) {
    CommandOf(m) == NotACommand || m.InventoryReleased?
  }

  predicate Confirmed(row: Option<Row>, a: Action) {
    row.Some? && (row.value.state == CANCELLED ||
                  (row.value.state == COMPENSATING && a in CompletedOf(row.value.context)))
  }

  predicate Past(row: Option<Row>, states: set<State>) {
    row.Some? && row.value.state !in states
  }

  /** The saga has already taken the step that `m` calls for. */
  predicate Done(row: Option<Row>, m: Message) {
    match m
    case OrderCreated(_, _, _) => row.Some?
    case PaymentAuthorized(_, _, _, _) | PaymentRejected(_) => Past(row, {PAYMENT_PENDING})
    case InventoryReserved(_, _) | InventoryReservationFailed(_, _) => Past(row, {PAYMENT_PENDING, INVENTORY_PENDING})
    case FraudApproved(_) | FraudRejected(_, _) => Past(row, {PAYMENT_PENDING, INVENTORY_PENDING, FRAUD_PENDING})
    case ShipmentCreated(_, _, _) | ShipmentFailed(_) =>
      Past(row, {PAYMENT_PENDING, INVENTORY_PENDING, FRAUD_PENDING, SHIPPING_PENDING})
    case PaymentRefunded(_, _, _) => Confirmed(row, PAYMENT_REFUND)
    case InventoryReleased(_, _) => Confirmed(row, INVENTORY_RELEASE)
    case _ => true
  }

  /** The saga is in the state that accepts `m`. */
  predicate Acceptable(row: Option<Row>, m: Message) {
    !Done(row, m) && !React(row, m).Ignore?
  }

  ghost predicate InHand(o: Orchestration, m: Message) {
    exists t :: At(o, t).Loaded? && At(o, t).event == m
  }

  /** An undelivered event finds the saga accepting it; a delivered one is in a handler's
      hands or has had its effect. */
  ghost predicate Awaited(o: Orchestration, m: Message) {
    if m in o.taken then InHand(o, m) || Done(o.row, m) else Acceptable(o.row, m)
  }

  ghost predicate Answered(w: World, request: Message) {
    exists p :: p in w.answers && p.0 == request
  }

  /** A command is on the network exactly when its number is on the sent list. */
  ghost predicate NetIsSent(w: World) {
    && (forall i :: 0 <= i < |w.saga.sent| ==>
          w.saga.sent[i] < |w.saga.issued| && w.saga.issued[w.saga.sent[i]] in w.net)
    && (forall k :: 0 <= k < |w.saga.issued| && w.saga.issued[k] in w.net ==> k in w.saga.sent)
  }

  ghost predicate TakenFromNet(w: World) {
    forall i :: 0 <= i < |w.saga.taken| ==> w.saga.taken[i] in w.net
  }

  /** The invariant of runs without failures and with one reply per request. */
  ghost predicate Live(order: Message, w: World) {
    && Inv(order, w)
    && AllDifferent(w.saga.issued) && Used(w.saga.row)
    && OneAnswer(w.answers)
    && NetIsSent(w)
    && TakenFromNet(w)
    && w.saga.lost == {}
    && forall m :: m in w.net && EventKind(m) ==> Awaited(w.saga, m)
  }

  /** Acts of a run without failures in which each request is answered at most once. */
  ghost predicate Faithful(w: World, a: Act) {
    match a
    case Orchestrate(m) => !m.Fail?
    case Respond(request, choice) => Can(w, a) ==> !Answered(w, request)
  }

  // ------------------------------------------------------------------------ lemmas on one row

  lemma DoneStays(row: Option<Row>, ev: Message, m: Message)
    requires Used(row) && Done(row, m)
    ensures Done(Handle(row, ev).row, m)
  {
  }

  lemma SavedIsDone(row: Option<Row>, t: Topic, ev: Message, snapshot: Option<Row>)
    requires Used(row) && FreshHandler(row, t, ev, snapshot)
    ensures Done(Handle(row, ev).row, ev)
  {
  }

  /** Two plain events a row accepts are replies to the same command. */
  lemma AcceptedTogether(row: Option<Row>, a: Message, b: Message)
    requires Used(row) && React(row, a).Overwrite? && !React(row, b).Ignore?
    ensures (a.OrderCreated? && b.OrderCreated?) || Question(a) == Question(b) != NotACommand
  {
  }

  lemma BarrierEvents(row: Option<Row>, m: Message)
    requires InState(row, COMPENSATING) && !React(row, m).Ignore?
    ensures m.PaymentRefunded? || m.InventoryReleased?
  {
  }

  lemma BarrierOpenFor(row: Row, ev: Message, m: Message)
    requires row.state == COMPENSATING && Acceptable(Some(row), m)
    requires (ev.PaymentRefunded? && m.InventoryReleased?) || (ev.InventoryReleased? && m.PaymentRefunded?)
    requires (if m.PaymentRefunded? then PAYMENT_REFUND else INVENTORY_RELEASE) in PendingOf(row.context)
    ensures Acceptable(Handle(Some(row), ev).row, m)
  {
  }

  // --------------------------------------------------------- the step that serves one event

  lemma OneReplyEach(order: Message, w: World, a: Message, b: Message)
    requires Live(order, w) && a in w.net && b in w.net && Question(a) == Question(b) != NotACommand
    ensures a == b
  {
    hide Sound, Story, Explained, OneAnswer, AllDifferent;
    SameQuestionSameAnswer(order, w.saga.issued, w.net, w.answers, a, b);
  }

  lemma OneOrder(order: Message, w: World, a: Message)
    requires Live(order, w) && a in w.net && a.OrderCreated?
    ensures a == order
  {
    hide Sound, Story, Explained;
    OrderIsUnique(order, w.saga.issued, w.net, w.answers, a);
  }

  lemma ReleaseInNet(order: Message, w: World, m: Message)
    requires Live(order, w) && w.saga.row.Some? && m in w.net && m.InventoryReleased?
    ensures m == ReleaseCommand(w.saga.row.value.context)
    ensures INVENTORY_RELEASE in PendingOf(w.saga.row.value.context)
  {
    hide Sound, Explained, Trail;
    ReleaseIsOwn(order, w.saga.row.value, w.net, w.answers, m);
    assert [INVENTORY_RELEASE, PAYMENT_REFUND][0] == INVENTORY_RELEASE;
  }

  lemma RefundAlwaysPending(order: Message, w: World)
    requires Live(order, w) && InState(w.saga.row, COMPENSATING)
    ensures PAYMENT_REFUND in PendingOf(w.saga.row.value.context)
  {
    hide Sound, Explained, Trail;
    assert [INVENTORY_RELEASE, PAYMENT_REFUND][1] == PAYMENT_REFUND;
    assert [PAYMENT_REFUND][0] == PAYMENT_REFUND;
  }

  /** Serving one event leaves every still undelivered event acceptable. */
  lemma StaysAcceptable(order: Message, w: World, t: Topic, m: Message)
    requires Live(order, w) && At(w.saga, t).Loaded? && m in w.net && EventKind(m) && m !in w.saga.taken
    ensures Acceptable(Handle(w.saga.row, At(w.saga, t).event).row, m)
  {
    hide Live, React, Handle, Acceptable, FreshHandler;
    var row, h := w.saga.row, At(w.saga, t);
    LoadedFacts(order, w, t);
    UndeliveredIsAcceptable(order, w, m);
    FreshCases(row, t, h.event, h.snapshot);
    if React(row, h.event).Overwrite? {
      AcceptedTogether(row, h.event, m) by { AcceptableReacts(row, m); }
      if h.event.OrderCreated? {
        OneOrder(order, w, m);
        OneOrder(order, w, h.event);
      } else {
        OneReplyEach(order, w, m, h.event);
      }
      assert false;
    } else if InState(row, COMPENSATING) {
      BarrierEvents(row, m) by { AcceptableReacts(row, m); }
      if m.PaymentRefunded? {
        RefundAlwaysPending(order, w);
        if h.event.PaymentRefunded? {
          OneReplyEach(order, w, m, h.event);
          assert false;
        }
      } else {
        ReleaseInNet(order, w, m);
        if h.event.InventoryReleased? {
          ReleaseInNet(order, w, h.event);
          assert false;
        }
      }
      BarrierOpenFor(row.value, h.event, m);
    } else {
      IgnoredIsHandled(row, h.event);
    }
  }

  lemma AcceptableReacts(row: Option<Row>, m: Message)
    requires Acceptable(row, m)
    ensures !React(row, m).Ignore? && !Done(row, m)
  {
  }

  lemma FreshCases(row: Option<Row>, t: Topic, ev: Message, snapshot: Option<Row>)
    requires FreshHandler(row, t, ev, snapshot)
    ensures || React(row, ev).Overwrite?
            || (InState(row, COMPENSATING) && (ev.PaymentRefunded? || ev.InventoryReleased?))
            || (InState(row, CANCELLED) && React(row, ev).Ignore?)
  {
  }

  lemma LoadedFacts(order: Message, w: World, t: Topic)
    requires Live(order, w) && At(w.saga, t).Loaded?
    ensures FreshHandler(w.saga.row, t, At(w.saga, t).event, At(w.saga, t).snapshot)
    ensures At(w.saga, t).event in w.net && At(w.saga, t).event in w.saga.taken
    ensures Used(w.saga.row)
  {
    hide Serial, Story, Explained, CommandsAccounted, ServedOnce, NoneMissing, FreshHandler, Used;
    assert HeldBy(w.saga, At(w.saga, t).ticket, At(w.saga, t).event);
  }

  lemma UndeliveredIsAcceptable(order: Message, w: World, m: Message)
    requires Live(order, w) && m in w.net && EventKind(m) && m !in w.saga.taken
    ensures Acceptable(w.saga.row, m)
  {
    hide Inv, Acceptable, Used;
    assert Awaited(w.saga, m);
  }

  lemma AwaitedSave(order: Message, w: World, t: Topic, m: Message)
    requires Live(order, w) && Enabled(w.saga, Save(t)) && m in w.net && EventKind(m)
    ensures Awaited(Next(w.saga, Save(t)), m)
  {
    hide Live, React, Handle, Acceptable, Done, Written, FreshHandler, Used;
    var o, o' := w.saga, Next(w.saga, Save(t));
    var h := At(o, t);
    LoadedFacts(order, w, t);
    WrittenIsHandled(o.row, t, h.event, h.snapshot);
    assert o'.row == Handle(o.row, h.event).row && o'.taken == o.taken;
    if m !in o.taken {
      StaysAcceptable(order, w, t, m);
    } else if m == h.event {
      SavedIsDone(o.row, t, h.event, h.snapshot);
    } else {
      assert Awaited(o, m) by { LiveAwaits(order, w, m); }
      if Done(o.row, m) {
        DoneStays(o.row, h.event, m);
      } else {
        var u :| At(o, u).Loaded? && At(o, u).event == m;
        OthersKept(o, Save(t), u);
        assert At(o', u).Loaded? && At(o', u).event == m;
      }
    }
  }

  lemma LiveAwaits(order: Message, w: World, m: Message)
    requires Live(order, w) && m in w.net && EventKind(m)
    ensures Awaited(w.saga, m)
  {
  }

  lemma AwaitedRead(order: Message, w: World, t: Topic, ev: Message, m: Message)
    requires Live(order, w) && ev in w.net && Enabled(w.saga, Read(t, ev)) && m in w.net && EventKind(m)
    ensures Awaited(Next(w.saga, Read(t, ev)), m)
  {
    hide Live, React, Done;
    var o, o' := w.saga, Next(w.saga, Read(t, ev));
    LiveAwaits(order, w, m);
    if m == ev {
      assert m in o'.taken;
      if m !in o.taken {
        assert At(o', t).Loaded? && At(o', t).event == m;
      } else if !Done(o.row, m) {
        var u :| At(o, u).Loaded? && At(o, u).event == m;
        LoadedTopic(order, w, u);
      }
    } else if m in o.taken && !Done(o.row, m) {
      var u :| At(o, u).Loaded? && At(o, u).event == m;
      OthersKept(o, Read(t, ev), u);
      assert At(o', u).event == m;
    }
  }

  /** The topic of a loaded handler is the topic of its event. */
  lemma LoadedTopic(order: Message, w: World, u: Topic)
    requires Live(order, w) && At(w.saga, u).Loaded?
    ensures TopicOf(At(w.saga, u).event) == u
  {
    LoadedFacts(order, w, u);
  }

  /** Sending, like any move other than reads and saves, leaves hands and row as they were. */
  lemma AwaitedElse(order: Message, w: World, m: Message, move: Move)
    requires Live(order, w) && m in w.net && EventKind(m)
    requires !move.Fail? && !(Enabled(w.saga, move) && (move.Read? || move.Save?))
    ensures Awaited(Next(w.saga, move), m)
  {
    hide Live, React, Done;
    var o, o' := w.saga, Next(w.saga, move);
    LiveAwaits(order, w, m);
    if m in o.taken && !Done(o.row, m) {
      var u :| At(o, u).Loaded? && At(o, u).event == m;
      if u != move.topic {
        OthersKept(o, move, u);
      }
      assert At(o', u).event == m;
    }
  }

  // ------------------------------------------------------------- new messages are acceptable

  /** A row that is past a reply's step has that step's reply on the network. */
  lemma DoneHasEvidence(order: Message, row: Row, net: set<Message>, request: Message, m: Message)
    requires Story(order, Some(row), Trail(row), net)
    requires request in Trail(row) && Question(m) == CommandOf(request) != NotACommand && Done(Some(row), m)
    ensures exists b :: b in net && Question(b) == Question(m)
  {
    hide UnwindTrail, Covers;
    match CommandOf(request) {
      case PaymentCmd =>
        if row.state == FAILED {
          var b :| b in net && b.PaymentRejected?;
          assert Question(b) == Question(m);
        } else {
          var b :| b in net && b.PaymentAuthorized? && b.paymentId == row.context.paymentId.value;
          assert Question(b) == Question(m);
        }
      case ReservationCmd => ReservationEvidence(order, row, net, m);
      case FraudCheckCmd => FraudEvidence(order, row, net, request, m);
      case ShipmentCmd => ShipmentEvidence(order, row, net, request, m);
      case RefundCmd => RefundEvidence(order, row, net, request, m);
      case _ => TrailHasNoReplyFor(row, m);
    }
  }

  lemma TrailHasNoReplyFor(row: Row, m: Message)
    ensures Question(m) in {PaymentCmd, ReservationCmd, FraudCheckCmd, ShipmentCmd, RefundCmd, NotACommand}
  {
  }

  lemma ReservationEvidence(order: Message, row: Row, net: set<Message>, m: Message)
    requires Story(order, Some(row), Trail(row), net)
    requires Question(m) == ReservationCmd && Done(Some(row), m) && row.state != FAILED
    ensures exists b :: b in net && Question(b) == Question(m)
  {
    hide Trail, Covers;
    if row.context.reservationId.Some? {
      assert Question(InventoryReserved(row.context.reservationId.value, row.context.items)) == Question(m);
    } else {
      assert StockRefused(net);
      var b :| b in net && b.InventoryReservationFailed?;
      assert Question(b) == Question(m);
    }
  }

  lemma FraudEvidence(order: Message, row: Row, net: set<Message>, request: Message, m: Message)
    requires Story(order, Some(row), Trail(row), net)
    requires request in Trail(row) && request.FraudCheckRequested? && Question(m) == FraudCheckCmd && Done(Some(row), m)
    ensures exists b :: b in net && Question(b) == Question(m)
  {
    hide Covers;
    var b :| b in net && (b.FraudApproved? || b.FraudRejected?);
    assert Question(b) == Question(m);
  }

  lemma ShipmentEvidence(order: Message, row: Row, net: set<Message>, request: Message, m: Message)
    requires Story(order, Some(row), Trail(row), net)
    requires request in Trail(row) && request.ShipmentRequested? && Question(m) == ShipmentCmd && Done(Some(row), m)
    ensures exists b :: b in net && Question(b) == Question(m)
  {
    hide Covers;
    var b :| b in net && (b.ShipmentCreated? || b.ShipmentFailed?);
    assert Question(b) == Question(m);
  }

  lemma RefundEvidence(order: Message, row: Row, net: set<Message>, request: Message, m: Message)
    requires Story(order, Some(row), Trail(row), net)
    requires request in Trail(row) && request.PaymentRefundRequested? && Question(m) == RefundCmd && Done(Some(row), m)
    ensures exists b :: b in net && Question(b) == Question(m)
  {
    hide Trail, UnwindTrail;
    assert row.context.pending.Some? && PAYMENT_REFUND in row.context.pending.value by {
      assert [INVENTORY_RELEASE, PAYMENT_REFUND][1] == PAYMENT_REFUND;
      assert [PAYMENT_REFUND][0] == PAYMENT_REFUND;
    }
    assert PAYMENT_REFUND in CompletedOf(row.context);
    assert ConfirmedInNet(row.context, net, PAYMENT_REFUND);
    var b :| b in net && b.PaymentRefunded? && b.refundOf == row.context.paymentId;
    assert Question(b) == Question(m);
  }

  /** A reply to a command the order did issue is accepted unless its step is done. */
  lemma NotDoneIsAccepted(row: Row, request: Message, m: Message)
    requires request in Trail(row) && Question(m) == CommandOf(request) != NotACommand && !Done(Some(row), m)
    ensures !React(Some(row), m).Ignore?
  {
    hide CompletedOf;
  }

  lemma NewReplyIsAwaited(order: Message, w: World, request: Message, choice: Choice)
    requires Live(order, w) && Can(w, Respond(request, choice)) && !Answered(w, request)
    ensures Reply(request, choice).value !in w.net
    ensures Acceptable(w.saga.row, Reply(request, choice).value)
  {
    hide Reply, Answers, React, Done, Story, Explained, Trail, Sound;
    var reply := Reply(request, choice).value;
    RepliesAnswer(request, choice);
    AnswersItsQuestion(request, reply);
    AnsweredIsCommand(request, reply);
    CommandInNetWasIssued(order, w.saga.issued, w.net, w.answers, request);
    if b :| b in w.net && Question(b) == Question(reply) {
      AskedTwice(order, w, request, b);
      assert false;
    }
    RowBehindCommands(order, w, request);
    var row := w.saga.row.value;
    if Done(w.saga.row, reply) {
      DoneHasEvidence(order, row, w.net, request, reply);
      assert false;
    }
    NotDoneIsAccepted(row, request, reply);
  }

  lemma AskedTwice(order: Message, w: World, request: Message, b: Message)
    requires Live(order, w) && request in w.saga.issued && b in w.net &&
             Question(b) == CommandOf(request) != NotACommand
    ensures Answered(w, request)
  {
    hide Answers, Story, Explained, Sound;
    var p := ReplyInNetWasAsked(order, w.saga.issued, w.net, w.answers, b);
    AnswersItsQuestion(p, b);
    var i :| 0 <= i < |w.saga.issued| && w.saga.issued[i] == p;
    var j :| 0 <= j < |w.saga.issued| && w.saga.issued[j] == request;
    assert i == j;
    assert (p, b).0 == request;
  }

  lemma RowBehindCommands(order: Message, w: World, c: Message)
    requires Live(order, w) && c in w.saga.issued
    ensures w.saga.row.Some? && w.saga.issued == Trail(w.saga.row.value)
    ensures Story(order, w.saga.row, w.saga.issued, w.net)
  {
    hide Trail, Sound, Explained;
  }

  /** A release that goes out now was not on the network, and the saga is waiting for it. */
  lemma NewReleaseIsAwaited(order: Message, w: World, t: Topic)
    requires Live(order, w) && Enabled(w.saga, Emit(t)) && Owned(w.saga, At(w.saga, t).next, At(w.saga, t).end)
    requires w.saga.issued[At(w.saga, t).next].InventoryReleased?
    ensures w.saga.issued[At(w.saga, t).next] !in w.net
    ensures Acceptable(w.saga.row, w.saga.issued[At(w.saga, t).next])
  {
    hide Sound, Explained, React, Story, Trail, Confirmed;
    var c := w.saga.issued[At(w.saga, t).next];
    RowBehindCommands(order, w, c);
    ReleaseInTrail(w.saga.row.value, c);
    UnsentIsUnconfirmed(order, w.saga.row.value, w.net);
    CompensatingAcceptsRelease(w.saga.row, c);
  }

  lemma UnsentIsUnconfirmed(order: Message, row: Row, net: set<Message>)
    requires Story(order, Some(row), Trail(row), net)
    requires Unwound(row) && AfterReservation(row.failureReason) && ReleaseCommand(row.context) !in net
    ensures row.state == COMPENSATING && !Confirmed(Some(row), INVENTORY_RELEASE)
  {
    hide Trail;
    assert [INVENTORY_RELEASE, PAYMENT_REFUND][0] == INVENTORY_RELEASE;
    assert !ConfirmedInNet(row.context, net, INVENTORY_RELEASE);
    assert INVENTORY_RELEASE !in CompletedOf(row.context);
  }

  lemma ReleaseInTrail(row: Row, c: Message)
    requires c in Trail(row) && c.InventoryReleased?
    ensures Unwound(row) && AfterReservation(row.failureReason) && c == ReleaseCommand(row.context)
  {
    hide CompletedOf;
  }

  lemma CompensatingAcceptsRelease(row: Option<Row>, c: Message)
    requires InState(row, COMPENSATING) && c.InventoryReleased?
    ensures React(row, c) == Barrier(INVENTORY_RELEASE)
  {
  }

  // ------------------------------------------------------------- the invariant of good runs

  lemma LiveBegin(order: Message)
    requires order.OrderCreated?
    ensures Live(order, Begin(order))
  {
    hide Sound, Story, Explained;
    InvBegin(order);
  }

  lemma NetIsSentMove(w: World, m: Move)
    requires Sound(w.saga) && AllDifferent(w.saga.issued) && NetIsSent(w) && Can(w, Orchestrate(m))
    requires AllDifferent(Next(w.saga, m).issued)
    requires forall c :: c in Next(w.saga, m).issued && c !in w.saga.issued ==> c !in w.net
    ensures NetIsSent(Do(w, Orchestrate(m)))
  {
    hide Fresh, Serial, DeliveriesAccounted, React, Written;
    var w' := Do(w, Orchestrate(m));
    if m.Emit? && Enabled(w.saga, m) {
      var h := At(w.saga, m.topic);
      assert Owned(w.saga, h.next, h.end);
      assert w'.saga.sent == w.saga.sent + [h.next] && w'.saga.issued == w.saga.issued;
      forall k | 0 <= k < |w'.saga.issued| && w'.saga.issued[k] in w'.net
        ensures k in w'.saga.sent
      {
        if w'.saga.issued[k] !in w.net {
          assert w'.saga.issued[k] == w.saga.issued[h.next];
          assert w'.saga.sent[|w.saga.sent|] == h.next;
        }
      }
    } else if m.Save? && Enabled(w.saga, m) {
      assert w'.net == w.net && w'.saga.sent == w.saga.sent;
      var n := |w.saga.issued|;
      assert w.saga.issued == w'.saga.issued[..n];
      forall k | 0 <= k < |w'.saga.issued| && w'.saga.issued[k] in w'.net
        ensures k in w'.saga.sent
      {
        if k >= n {
          FreshCommand(w.saga.issued, w'.saga.issued, k);
        }
      }
    }
  }

  lemma FreshCommand(issued: seq<Message>, issued': seq<Message>, k: nat)
    requires issued <= issued' && AllDifferent(issued') && |issued| <= k < |issued'|
    ensures issued'[k] !in issued
  {
  }

  /** A command decided just now is not on the network yet. */
  lemma NewCommandsNotInNet(order: Message, w: World, m: Move, c: Message)
    requires Live(order, w) && Can(w, Orchestrate(m))
    requires c in Next(w.saga, m).issued && c !in w.saga.issued
    ensures c !in w.net
  {
    hide Sound, Story, Explained, Next;
    InvOrchestrate(order, w, m);
    var w' := Do(w, Orchestrate(m));
    if c in w.net {
      IssuedAreCommands(order, w', c);
      CommandInNetWasIssued(order, w.saga.issued, w.net, w.answers, c);
      assert false;
    }
  }

  lemma IssuedAreCommands(order: Message, w: World, c: Message)
    requires Inv(order, w) && c in w.saga.issued
    ensures CommandOf(c) != NotACommand
  {
    hide Sound, Story;
    var i :| 0 <= i < |w.saga.issued| && w.saga.issued[i] == c;
  }

  lemma TakenAndLost(w: World, m: Move)
    requires TakenFromNet(w) && w.saga.lost == {} && Can(w, Orchestrate(m)) && !m.Fail?
    ensures TakenFromNet(Do(w, Orchestrate(m))) && Do(w, Orchestrate(m)).saga.lost == {}
  {
    hide React, Written;
  }

  lemma AwaitedMove(order: Message, w: World, m: Move, x: Message)
    requires Live(order, w) && Can(w, Orchestrate(m)) && !m.Fail?
    requires x in Do(w, Orchestrate(m)).net && EventKind(x)
    ensures Awaited(Do(w, Orchestrate(m)).saga, x)
  {
    hide Live, Awaited, Reading, Saving, Sending, Failing;
    if x in w.net {
      if m.Read? && Enabled(w.saga, m) {
        AwaitedRead(order, w, m.topic, m.event, x);
      } else if m.Save? && Enabled(w.saga, m) {
        AwaitedSave(order, w, m.topic, x);
      } else {
        AwaitedElse(order, w, x, m);
      }
    } else {
      AwaitedNew(order, w, m, x);
    }
  }

  lemma AwaitedNew(order: Message, w: World, m: Move, x: Message)
    requires Live(order, w) && x in Published(w.saga, m) && x !in w.net && EventKind(x)
    ensures Awaited(Next(w.saga, m), x)
  {
    hide Story, Explained, Fresh, Serial, DeliveriesAccounted, Acceptable;
    var h := At(w.saga, m.topic);
    assert Owned(w.saga, h.next, h.end);
    IssuedAreCommands(order, w, x);
    NewReleaseIsAwaited(order, w, m.topic);
    NotTaken(w, x);
    assert Next(w.saga, m).row == w.saga.row && Next(w.saga, m).taken == w.saga.taken;
  }

  lemma NotTaken(w: World, x: Message)
    requires TakenFromNet(w) && x !in w.net
    ensures x !in w.saga.taken
  {
  }

  lemma LiveMove(order: Message, w: World, m: Move)
    requires Live(order, w) && Can(w, Orchestrate(m)) && !m.Fail?
    ensures Live(order, Do(w, Orchestrate(m)))
  {
    hide Inv, Sound, Awaited, Next, Used, OneAnswer, NetIsSent, TakenFromNet, AllDifferent;
    var w' := Do(w, Orchestrate(m));
    InvOrchestrate(order, w, m);
    InvSound(order, w');
    InvSound(order, w);
    DecidedCommandsDiffer(w'.saga);
    forall c | c in Next(w.saga, m).issued && c !in w.saga.issued
      ensures c !in w.net
    {
      NewCommandsNotInNet(order, w, m, c);
    }
    NetIsSentMove(w, m);
    TakenAndLost(w, m);
    forall x | x in w'.net && EventKind(x)
      ensures Awaited(w'.saga, x)
    {
      AwaitedMove(order, w, m, x);
    }
  }

  lemma InvSound(order: Message, w: World)
    requires Inv(order, w)
    ensures Sound(w.saga)
  {
    hide Sound, Story, Explained;
  }

  lemma LiveRespond(order: Message, w: World, request: Message, choice: Choice)
    requires Live(order, w) && Can(w, Respond(request, choice)) && !Answered(w, request)
    ensures Live(order, Do(w, Respond(request, choice)))
  {
    hide Inv, Reply, Used, AllDifferent, Acceptable, Done;
    var w' := Do(w, Respond(request, choice));
    var reply := Reply(request, choice).value;
    InvRespond(order, w, request, choice);
    NewReplyIsAwaited(order, w, request, choice);
    RepliesAnswer(request, choice);
    AnsweredIsCommand(request, reply);
    NotTaken(w, reply);
    forall k | 0 <= k < |w.saga.issued| && w.saga.issued[k] in w'.net
      ensures k in w'.saga.sent
    {
      IssuedAreCommands(order, w, w.saga.issued[k]);
    }
    forall x | x in w'.net && EventKind(x)
      ensures Awaited(w'.saga, x)
    {
      if x != reply {
        LiveAwaits(order, w, x);
      }
    }
  }

  lemma LiveDo(order: Message, w: World, a: Act)
    requires Live(order, w) && Faithful(w, a)
    ensures Live(order, Do(w, a))
  {
    hide Live;
    if Can(w, a) {
      match a {
        case Orchestrate(m) => LiveMove(order, w, m);
        case Respond(request, choice) => LiveRespond(order, w, request, choice);
      }
    }
  }

  /** A run in which nothing fails and each request is answered at most once. */
  ghost predicate FaithfulRun(order: Message, acts: seq<Act>) {
    forall i :: 0 <= i < |acts| ==> Faithful(Run(order, acts[..i]), acts[i])
  }

  lemma {:induction false} FaithfulRunsAreLive(order: Message, acts: seq<Act>)
    requires order.OrderCreated? && FaithfulRun(order, acts)
    ensures Live(order, Run(order, acts))
    decreases |acts|
  {
    hide Live, Do, Faithful;
    if acts == [] {
      LiveBegin(order);
    } else {
      var n := |acts| - 1;
      assert forall i :: 0 <= i < n ==> acts[..n][..i] == acts[..i];
      FaithfulRunsAreLive(order, acts[..n]);
      LiveDo(order, Run(order, acts[..n]), acts[n]);
    }
  }

  /** After any faithful run, with duplicates and in any order of delivery, the first delivery
      of every reply, of the order and of a release finds the saga in the state that accepts
      it. */
  lemma FirstDeliveryIsAccepted(order: Message, acts: seq<Act>, m: Message)
    requires order.OrderCreated? && FaithfulRun(order, acts)
    requires m in Run(order, acts).net && EventKind(m) && m !in Run(order, acts).saga.taken
    ensures !React(Run(order, acts).saga.row, m).Ignore?
  {
    hide Live, React, Run, FaithfulRun;
    FaithfulRunsAreLive(order, acts);
    LiveAwaits(order, Run(order, acts), m);
  }
}
