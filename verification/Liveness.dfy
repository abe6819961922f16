/**
 Termination of the fulfilment protocol. An infinite run is a sequence of worlds; fairness
 says that a handler at work is eventually scheduled, an unanswered request is eventually
 answered, and a message never delivered is eventually delivered. Nothing else is assumed:
 duplicates may arrive for ever.
 */
module Liveness {
  import opened Contracts
  import opened Saga
  import opened SagaBarrier
  import opened SagaConcurrency
  import opened Consumers
  import opened Fulfilment
  import opened Progress

  // -------------------------------------------------------------------------- the measure

  function Missing(c: Context): nat {
    (if PAYMENT_REFUND in CompletedOf(c) then 0 else 1) + (if INVENTORY_RELEASE in CompletedOf(c) then 0 else 1)
  }

  /** How far the row is from a terminal state. */
  function Rank(row: Option<Row>): nat {
    if row.None? then 8
    else
      match row.value.state
      case PAYMENT_PENDING => 7
      case INVENTORY_PENDING => 6
      case FRAUD_PENDING => 5
      case SHIPPING_PENDING => 4
      case COMPENSATING => 1 + Missing(row.value.context)
      case _ => 0
  }

  /** Rows that differ in nothing that matters for progress. */
  ghost predicate SameStage(a: Option<Row>, b: Option<Row>) {
    && (a.None? <==> b.None?)
    && (a.Some? ==> && a.value.state == b.value.state
                    && (forall x :: x in CompletedOf(a.value.context) <==> x in CompletedOf(b.value.context)))
  }

  function Work(h: Handler): nat {
    if h.Emitting? && h.next < h.end then h.end - h.next else 0
  }

  function TotalWork(o: Orchestration): nat {
    Work(At(o, Orders)) + Work(At(o, Payments)) + Work(At(o, Inventory)) + Work(At(o, Fraud)) + Work(At(o, Shipping))
  }

  ghost function Unanswered(w: World): set<Message> {
    set m | m in w.net && IsRequest(m) && !Answered(w, m)
  }

  ghost function Measure(w: World): nat {
    10 * Rank(w.saga.row) + 2 * TotalWork(w.saga) + |Unanswered(w)|
  }

  lemma HandleRank(row: Option<Row>, ev: Message)
    requires Used(row)
    ensures var out := Handle(row, ev);
            && |out.commands| <= 2
            && Rank(out.row) <= Rank(row)
            && (Rank(out.row) == Rank(row) ==> out.commands == [] && SameStage(row, out.row))
  {
    hide Waiting;
  }

  lemma DoneSame(a: Option<Row>, b: Option<Row>, m: Message)
    requires SameStage(a, b)
    ensures Done(a, m) == Done(b, m)
  {
  }

  lemma SubsetSmaller(a: set<Message>, b: set<Message>)
    requires a <= b
    ensures |a| <= |b|
  {
    if a != b {
      var rest := b - a;
      assert b == a + rest;
      assert |a + rest| == |a| + |rest|;
    }
  }

  lemma WorkChanges(o: Orchestration, o': Orchestration, t: Topic)
    requires t in SUBSCRIBED
    requires forall u :: u != t ==> At(o', u) == At(o, u)
    ensures TotalWork(o') + Work(At(o, t)) == TotalWork(o) + Work(At(o', t))
  {
    hide At, Work;
  }

  /** Effect of one faithful act on the measure. */
  ghost predicate Descends(w: World, w': World) {
    && Measure(w') <= Measure(w)
    && (Measure(w') == Measure(w) ==> SameStage(w.saga.row, w'.saga.row))
  }

  lemma DescendsSave(order: Message, w: World, t: Topic)
    requires Live(order, w) && Enabled(w.saga, Save(t))
    ensures Descends(w, Do(w, Orchestrate(Save(t))))
    ensures !Done(w.saga.row, At(w.saga, t).event) ==> Measure(Do(w, Orchestrate(Save(t)))) < Measure(w)
  {
    hide Live, React, Handle, Written, FreshHandler, Used, Rank, Done, SameStage, Answered;
    var w' := Do(w, Orchestrate(Save(t)));
    var o, h := w.saga, At(w.saga, t);
    LoadedFacts(order, w, t);
    WrittenIsHandled(o.row, t, h.event, h.snapshot);
    HandleRank(o.row, h.event);
    SavedIsDone(o.row, t, h.event, h.snapshot);
    forall u | u != t
      ensures At(w'.saga, u) == At(o, u)
    {
      OthersKept(o, Save(t), u);
    }
    WorkChanges(o, w'.saga, t);
    assert w'.net == w.net && w'.answers == w.answers;
    assert Unanswered(w') == Unanswered(w) by { SameUnanswered(w, w'); }
    if SameStage(o.row, w'.saga.row) {
      DoneSame(o.row, w'.saga.row, h.event);
    }
  }

  lemma SameUnanswered(w: World, w': World)
    requires w'.net == w.net && w'.answers == w.answers
    ensures Unanswered(w') == Unanswered(w)
  {
    hide Answered;
    assert forall m :: Answered(w, m) == Answered(w', m) by { SameAnswered(w, w'); }
  }

  lemma SameAnswered(w: World, w': World)
    requires w'.answers == w.answers
    ensures forall m :: Answered(w, m) == Answered(w', m)
  {
  }

  lemma DescendsEmit(order: Message, w: World, t: Topic)
    requires Live(order, w) && Enabled(w.saga, Emit(t))
    ensures Measure(Do(w, Orchestrate(Emit(t)))) < Measure(w)
  {
    hide React, Rank, Answered, Story, Explained, Fresh, Serial, DeliveriesAccounted;
    var w' := Do(w, Orchestrate(Emit(t)));
    var o, h := w.saga, At(w.saga, t);
    assert Owned(o, h.next, h.end);
    forall u | u != t
      ensures At(w'.saga, u) == At(o, u)
    {
      OthersKept(o, Emit(t), u);
    }
    WorkChanges(o, w'.saga, t);
    assert Work(At(w'.saga, t)) == Work(h) - 1;
    var c := o.issued[h.next];
    SameAnswered(w, w');
    assert Unanswered(w') <= Unanswered(w) + {c};
    SubsetSmaller(Unanswered(w'), Unanswered(w) + {c});
  }

  lemma DescendsRespond(order: Message, w: World, request: Message, choice: Choice)
    requires Live(order, w) && Can(w, Respond(request, choice)) && !Answered(w, request)
    ensures Measure(Do(w, Respond(request, choice))) < Measure(w)
  {
    hide Live, Reply, Rank;
    var w' := Do(w, Respond(request, choice));
    var reply := Reply(request, choice).value;
    RepliesAnswer(request, choice);
    AnsweredIsCommand(request, reply);
    assert (request, reply) in w'.answers;
    assert Answered(w', request);
    forall m | m in Unanswered(w')
      ensures m in Unanswered(w) - {request}
    {
    }
    SubsetSmaller(Unanswered(w'), Unanswered(w) - {request});
    assert Unanswered(w) == (Unanswered(w) - {request}) + {request};
    assert w'.saga == w.saga;
  }

  lemma DescendsRead(order: Message, w: World, t: Topic, ev: Message)
    requires Live(order, w)
    ensures Descends(w, Do(w, Orchestrate(Read(t, ev))))
    ensures Do(w, Orchestrate(Read(t, ev))).saga.row == w.saga.row
  {
    hide Live, React, Rank, Answered;
    var m := Read(t, ev);
    var w' := Do(w, Orchestrate(m));
    if Can(w, Orchestrate(m)) && Enabled(w.saga, m) {
      forall u | u != t
        ensures At(w'.saga, u) == At(w.saga, u)
      {
        OthersKept(w.saga, m, u);
      }
      WorkChanges(w.saga, w'.saga, t);
      assert w'.net == w.net && w'.answers == w.answers;
      SameUnanswered(w, w');
    } else {
      assert w'.saga == w.saga && w'.net == w.net && w'.answers == w.answers;
      SameUnanswered(w, w');
    }
  }

  lemma DescendsDo(order: Message, w: World, a: Act)
    requires Live(order, w) && Faithful(w, a)
    ensures Descends(w, Do(w, a))
  {
    hide Live, Measure, Next, SameStage;
    if a.Respond? && Can(w, a) {
      DescendsRespond(order, w, a.request, a.choice);
    } else if a.Orchestrate? && a.move.Read? {
      DescendsRead(order, w, a.move.topic, a.move.event);
    } else if a.Orchestrate? && a.move.Save? && Enabled(w.saga, a.move) {
      DescendsSave(order, w, a.move.topic);
    } else if a.Orchestrate? && a.move.Emit? && Enabled(w.saga, a.move) {
      DescendsEmit(order, w, a.move.topic);
    } else {
      Idles(w, a);
      assert SameStage(w.saga.row, w.saga.row) by { StageReflexive(w.saga.row); }
    }
  }

  lemma StageReflexive(row: Option<Row>)
    ensures SameStage(row, row)
  {
  }

  lemma Idles(w: World, a: Act)
    requires !Can(w, a) || (a.Orchestrate? && !Enabled(w.saga, a.move))
    ensures Measure(Do(w, a)) == Measure(w) && Do(w, a).saga == w.saga
  {
    hide React, Answered;
    var w' := Do(w, a);
    assert w'.saga == w.saga && w'.net == w.net && w'.answers == w.answers;
    SameUnanswered(w, w');
  }

  // ---------------------------------------------------------------------- something is due

  /** Terminal, with every decided command on the network. */
  ghost predicate Settled(w: World) {
    Terminal(w.saga.row) && forall t :: !At(w.saga, t).Emitting?
  }

  datatype Duty = ToSave(topic: Topic) | ToEmit(topic: Topic) | ToAnswer(request: Message) | ToDeliver(event: Message)

  ghost predicate Due(w: World, d: Duty) {
    match d
    case ToSave(t) => t in SUBSCRIBED && At(w.saga, t).Loaded? && !Done(w.saga.row, At(w.saga, t).event)
    case ToEmit(t) => t in SUBSCRIBED && At(w.saga, t).Emitting?
    case ToAnswer(q) => q in w.net && IsRequest(q) && !Answered(w, q)
    case ToDeliver(m) => m in w.net && EventKind(m) && m !in w.saga.taken
  }

  /** The command whose completion a non-terminal row is waiting for. */
  function Need(row: Row): Command {
    match row.state
    case PAYMENT_PENDING => PaymentCmd
    case INVENTORY_PENDING => ReservationCmd
    case FRAUD_PENDING => FraudCheckCmd
    case SHIPPING_PENDING => ShipmentCmd
    case COMPENSATING => if PAYMENT_REFUND in CompletedOf(row.context) then ReleaseCmd else RefundCmd
    case _ => NotACommand
  }

  lemma NeededCommandWasDecided(order: Message, row: Row, net: set<Message>) returns (k: nat)
    requires Story(order, Some(row), Trail(row), net) && Used(Some(row)) && !Terminal(Some(row))
    ensures k < |Trail(row)| && CommandOf(Trail(row)[k]) == Need(row) != NotACommand
    ensures Trail(row)[k].InventoryReleased? <==> Need(row) == ReleaseCmd
    ensures Need(row) == ReleaseCmd ==> INVENTORY_RELEASE !in CompletedOf(row.context)
  {
    hide ConfirmedInNet, Paid, Refunded;
    match row.state {
      case PAYMENT_PENDING => k := 0;
      case INVENTORY_PENDING => k := 1;
      case FRAUD_PENDING => k := 2;
      case SHIPPING_PENDING => k := 3;
      case COMPENSATING =>
        if PAYMENT_REFUND in CompletedOf(row.context) {
          k := |Trail(row)| - 2;
        } else {
          k := |Trail(row)| - 1;
        }
    }
  }

  lemma NeededIsNotDone(row: Row, m: Message)
    requires Used(Some(row)) && !Terminal(Some(row))
    requires (Question(m) == Need(row) != NotACommand) ||
             (m.InventoryReleased? && Need(row) == ReleaseCmd && INVENTORY_RELEASE !in CompletedOf(row.context))
    ensures !Done(Some(row), m)
  {
    hide Waiting;
  }

  /** An event that is needed and on the network is to be delivered or to be saved. */
  lemma NeededEventIsDue(order: Message, w: World, m: Message) returns (d: Duty)
    requires Live(order, w) && m in w.net && EventKind(m) && !Done(w.saga.row, m)
    ensures Due(w, d)
  {
    hide Live, Done, EventKind, Acceptable;
    LiveAwaits(order, w, m);
    if m !in w.saga.taken {
      d := ToDeliver(m);
    } else {
      var t :| At(w.saga, t).Loaded? && At(w.saga, t).event == m;
      HandlersAreSubscribed(order, w, t);
      d := ToSave(t);
    }
  }

  lemma HandlersAreSubscribed(order: Message, w: World, t: Topic)
    requires Live(order, w) && !At(w.saga, t).Idle?
    ensures t in SUBSCRIBED
  {
    hide Fresh, Serial, DeliveriesAccounted, CommandsAccounted, Story, Explained;
  }

  /** Once nothing is being emitted, every decided command is on the network. */
  lemma AllSent(order: Message, w: World, k: nat)
    requires Live(order, w) && k < |w.saga.issued| && forall t :: !At(w.saga, t).Emitting?
    ensures w.saga.issued[k] in w.net
  {
    hide Fresh, Serial, DeliveriesAccounted, Story, Explained, SentOnce, RangesOwned;
    assert k in w.saga.sent || k in w.saga.lost || Unsent(w.saga, k);
  }

  /** No reachable state is stuck: unless the order is settled, something is due. */
  lemma SomethingIsDue(order: Message, w: World) returns (d: Duty)
    requires Live(order, w) && !Settled(w)
    ensures Due(w, d)
  {
    hide Live, Due, Done, Story, Trail, Question, CommandOf, Used;
    if t :| At(w.saga, t).Emitting? {
      HandlersAreSubscribed(order, w, t);
      d := ToEmit(t);
      assert Due(w, d) by { EmitIsDue(w, t); }
    } else if w.saga.row.None? {
      assert order in w.net && EventKind(order) && !Done(w.saga.row, order) by { OrderIsNeeded(order, w); }
      d := NeededEventIsDue(order, w, order);
    } else {
      var row := w.saga.row.value;
      LiveStory(order, w);
      var k := NeededCommandWasDecided(order, row, w.net);
      AllSent(order, w, k);
      d := NeededCommandIsDue(order, w, w.saga.issued[k]);
    }
  }

  /** After any faithful run, an order that is not settled has something due. */
  lemma NeverStuck(order: Message, acts: seq<Act>) returns (d: Duty)
    requires order.OrderCreated? && FaithfulRun(order, acts) && !Settled(Run(order, acts))
    ensures Due(Run(order, acts), d)
  {
    hide Live, Due, Settled, Run, FaithfulRun;
    FaithfulRunsAreLive(order, acts);
    d := SomethingIsDue(order, Run(order, acts));
  }

  lemma EmitIsDue(w: World, t: Topic)
    requires t in SUBSCRIBED && At(w.saga, t).Emitting?
    ensures Due(w, ToEmit(t))
  {
  }

  lemma OrderIsNeeded(order: Message, w: World)
    requires Live(order, w) && w.saga.row.None?
    ensures order in w.net && EventKind(order) && !Done(w.saga.row, order)
  {
    hide Sound, Story, Explained, React;
  }

  lemma LiveStory(order: Message, w: World)
    requires Live(order, w)
    ensures w.saga.row.Some? ==>
              Story(order, w.saga.row, w.saga.issued, w.net) && w.saga.issued == Trail(w.saga.row.value)
    ensures Used(w.saga.row)
  {
    hide Sound, Explained, Trail, Used;
  }

  lemma NeededCommandIsDue(order: Message, w: World, c: Message) returns (d: Duty)
    requires Live(order, w) && w.saga.row.Some? && !Terminal(w.saga.row) && c in w.net
    requires CommandOf(c) == Need(w.saga.row.value) != NotACommand
    requires c.InventoryReleased? <==> Need(w.saga.row.value) == ReleaseCmd
    requires c.InventoryReleased? ==> INVENTORY_RELEASE !in CompletedOf(w.saga.row.value.context)
    ensures Due(w, d)
  {
    hide Live, Done, Used;
    LiveStory(order, w);
    if c.InventoryReleased? {
      NeededIsNotDone(w.saga.row.value, c);
      d := NeededEventIsDue(order, w, c);
    } else if Answered(w, c) {
      var p :| p in w.answers && p.0 == c;
      AnswerInNet(order, w, p);
      AnswersItsQuestion(p.0, p.1);
      AnsweredIsCommand(p.0, p.1);
      NeededIsNotDone(w.saga.row.value, p.1);
      d := NeededEventIsDue(order, w, p.1);
    } else {
      NeedIsRequest(w.saga.row.value, c);
      d := ToAnswer(c);
    }
  }

  lemma NeedIsRequest(row: Row, c: Message)
    requires CommandOf(c) == Need(row) != NotACommand && !c.InventoryReleased?
    ensures IsRequest(c)
  {
  }

  lemma AnswerInNet(order: Message, w: World, p: (Message, Message))
    requires Live(order, w) && p in w.answers
    ensures p.1 in w.net && Answers(p.0, p.1)
  {
    hide Sound, Story, Answers;
  }

  // ---------------------------------------------------------------------- infinite fair runs

  ghost predicate StepAt(trace: nat -> World, acts: nat -> Act, n: nat) {
    trace(n + 1) == Do(trace(n), acts(n)) && Faithful(trace(n), acts(n))
  }

  /** What a duty waits for. */
  ghost predicate Discharges(w: World, a: Act, d: Duty) {
    match d
    case ToSave(t) => a == Orchestrate(Save(t))
    case ToEmit(t) => a == Orchestrate(Emit(t))
    case ToAnswer(q) => a.Respond? && a.request == q
    case ToDeliver(m) => a == Orchestrate(Read(TopicOf(m), m)) && At(w.saga, TopicOf(m)).Idle?
  }

  ghost predicate EventuallyDischarged(trace: nat -> World, acts: nat -> Act, n: nat, d: Duty) {
    exists m: nat :: n <= m && Discharges(trace(m), acts(m), d)
  }

  ghost predicate FairRun(order: Message, trace: nat -> World, acts: nat -> Act) {
    && order.OrderCreated?
    && trace(0) == Begin(order)
    && (forall n: nat :: StepAt(trace, acts, n))
    && (forall n: nat, d: Duty :: Due(trace(n), d) ==> EventuallyDischarged(trace, acts, n, d))
  }

  lemma {:induction false} LiveAt(order: Message, trace: nat -> World, acts: nat -> Act, n: nat)
    requires FairRun(order, trace, acts)
    ensures Live(order, trace(n))
  {
    hide Live, Do, Due, Discharges;
    if n == 0 {
      LiveBegin(order);
    } else {
      LiveAt(order, trace, acts, n - 1);
      assert StepAt(trace, acts, n - 1);
      LiveDo(order, trace(n - 1), acts(n - 1));
    }
  }

  /** A due duty stays due until it is discharged or the measure drops. */
  lemma DutyStays(order: Message, w: World, a: Act, d: Duty)
    requires Live(order, w) && Faithful(w, a) && Due(w, d) && !Discharges(w, a, d)
    ensures Measure(Do(w, a)) < Measure(w) || Due(Do(w, a), d)
  {
    hide Live, Measure, Done, React, Written, SameStage, EventKind;
    DescendsDo(order, w, a);
    if Measure(Do(w, a)) == Measure(w) {
      match d {
        case ToSave(t) =>
          SaveStays(w, a, t);
          DoneSame(w.saga.row, Do(w, a).saga.row, At(w.saga, t).event);
        case ToEmit(t) => EmitStays(w, a, t);
        case ToAnswer(q) => AnswerStays(w, a, q);
        case ToDeliver(m) => DeliverStays(order, w, a, m);
      }
    }
  }

  lemma SaveStays(w: World, a: Act, t: Topic)
    requires At(w.saga, t).Loaded? && Faithful(w, a) && a != Orchestrate(Save(t))
    ensures At(Do(w, a).saga, t) == At(w.saga, t)
  {
    hide React, Written;
    if a.Orchestrate? && a.move.topic != t {
      OthersKept(w.saga, a.move, t);
    }
  }

  lemma EmitStays(w: World, a: Act, t: Topic)
    requires At(w.saga, t).Emitting? && Faithful(w, a) && a != Orchestrate(Emit(t))
    ensures At(Do(w, a).saga, t) == At(w.saga, t)
  {
    hide React, Written;
    if a.Orchestrate? && a.move.topic != t {
      OthersKept(w.saga, a.move, t);
    }
  }

  lemma AnswerStays(w: World, a: Act, q: Message)
    requires q in w.net && IsRequest(q) && !Answered(w, q) && !(a.Respond? && a.request == q)
    ensures q in Do(w, a).net && !Answered(Do(w, a), q)
  {
    hide Next;
  }

  lemma DeliverStays(order: Message, w: World, a: Act, m: Message)
    requires m in w.net && EventKind(m) && m !in w.saga.taken
    requires !(a == Orchestrate(Read(TopicOf(m), m)) && At(w.saga, TopicOf(m)).Idle?)
    ensures m in Do(w, a).net && m !in Do(w, a).saga.taken
  {
    hide React, Written, EventKind;
  }

  /** Discharging a duty drops the measure, or leaves a save due that will. */
  lemma DischargeHelps(order: Message, w: World, a: Act, d: Duty)
    requires Live(order, w) && Faithful(w, a) && Due(w, d) && Discharges(w, a, d)
    ensures Measure(Do(w, a)) < Measure(w) ||
            (d.ToDeliver? && Measure(Do(w, a)) <= Measure(w) && Due(Do(w, a), ToSave(TopicOf(d.event))))
  {
    hide Live, Measure, Done, React, Written, EventKind, SameStage, Reply;
    match d {
      case ToSave(t) => DescendsSave(order, w, t);
      case ToEmit(t) => DescendsEmit(order, w, t);
      case ToAnswer(q) =>
        RepliesAnswer(q, a.choice);
        DescendsRespond(order, w, q, a.choice);
      case ToDeliver(m) =>
        DescendsRead(order, w, TopicOf(m), m);
        UndeliveredIsAcceptable(order, w, m);
        AcceptableReacts(w.saga.row, m);
        ReactingTopicIsSubscribed(w.saga.row, m);
        var w' := Do(w, a);
        assert At(w'.saga, TopicOf(m)) == Loaded(|w.saga.taken|, m, w.saga.row);
    }
  }

  lemma ReactingTopicIsSubscribed(row: Option<Row>, m: Message)
    requires !React(row, m).Ignore?
    ensures TopicOf(m) in SUBSCRIBED
  {
  }

  /** Walk along the run to the act that discharges the duty, or to a smaller measure. */
  lemma {:induction false} DutyPaysOff(order: Message, trace: nat -> World, acts: nat -> Act, n: nat, d: Duty, m: nat)
    returns (k: nat)
    requires FairRun(order, trace, acts) && Due(trace(n), d) && n <= m && Discharges(trace(m), acts(m), d)
    ensures Measure(trace(k)) < Measure(trace(n))
    decreases if d.ToDeliver? then 1 else 0, m - n
  {
    hide Live, Measure, Do, Due, Discharges, Faithful;
    LiveAt(order, trace, acts, n);
    assert StepAt(trace, acts, n);
    if Discharges(trace(n), acts(n), d) {
      DischargeHelps(order, trace(n), acts(n), d);
      if Measure(trace(n + 1)) < Measure(trace(n)) {
        k := n + 1;
      } else {
        var save := ToSave(TopicOf(d.event));
        assert EventuallyDischarged(trace, acts, n + 1, save);
        var m' :| n + 1 <= m' && Discharges(trace(m'), acts(m'), save);
        k := DutyPaysOff(order, trace, acts, n + 1, save, m');
      }
    } else {
      DutyStays(order, trace(n), acts(n), d);
      DescendsDo(order, trace(n), acts(n));
      if Measure(trace(n + 1)) < Measure(trace(n)) {
        k := n + 1;
      } else {
        k := DutyPaysOff(order, trace, acts, n + 1, d, m);
      }
    }
  }

  lemma {:induction false} SettlesFrom(order: Message, trace: nat -> World, acts: nat -> Act, n: nat) returns (k: nat)
    requires FairRun(order, trace, acts)
    ensures Settled(trace(k))
    decreases Measure(trace(n))
  {
    hide Live, Due, Discharges, Measure, StepAt, Settled;
    if Settled(trace(n)) {
      k := n;
    } else {
      LiveAt(order, trace, acts, n);
      var d := SomethingIsDue(order, trace(n));
      assert EventuallyDischarged(trace, acts, n, d);
      var m: nat :| n <= m && Discharges(trace(m), acts(m), d);
      var n' := DutyPaysOff(order, trace, acts, n, d, m);
      k := SettlesFrom(order, trace, acts, n');
    }
  }

  lemma {:induction false} SettledForEver(order: Message, trace: nat -> World, acts: nat -> Act, k: nat, n: nat)
    requires FairRun(order, trace, acts) && Terminal(trace(k).saga.row) && k <= n
    ensures trace(n).saga.row == trace(k).saga.row
    decreases n
  {
    hide Live, Due, Discharges;
    if k == n {
    } else {
      SettledForEver(order, trace, acts, k, n - 1);
      assert StepAt(trace, acts, n - 1);
      LiveAt(order, trace, acts, n - 1);
      TerminalRowStays(order, trace(n - 1), acts(n - 1));
    }
  }

  lemma TerminalRowStays(order: Message, w: World, a: Act)
    requires Live(order, w) && Terminal(w.saga.row)
    ensures Do(w, a).saga.row == w.saga.row
  {
    hide Live, React, Written, Handle, FreshHandler;
    if a.Orchestrate? && Enabled(w.saga, a.move) && a.move.Save? {
      var h := At(w.saga, a.move.topic);
      LoadedFacts(order, w, a.move.topic);
      WrittenIsHandled(w.saga.row, a.move.topic, h.event, h.snapshot);
      TerminalIgnores(w.saga.row, h.event);
    }
  }

  lemma TerminalIgnores(row: Option<Row>, ev: Message)
    requires Terminal(row)
    ensures Handle(row, ev) == Outcome(row, [])
  {
  }

  /** Termination: every fair run without failures brings the order to COMPLETED, CANCELLED
      or FAILED with all its commands sent, and its row never changes again. */
  lemma EveryOrderTerminates(order: Message, trace: nat -> World, acts: nat -> Act) returns (k: nat)
    requires FairRun(order, trace, acts)
    ensures Settled(trace(k))
    ensures forall n: nat :: k <= n ==> trace(n).saga.row == trace(k).saga.row
  {
    hide Live, Due, Discharges, FairRun, Terminal;
    k := SettlesFrom(order, trace, acts, 0);
    forall n: nat | k <= n
      ensures trace(n).saga.row == trace(k).saga.row
    {
      SettledForEver(order, trace, acts, k, n);
    }
  }
}
