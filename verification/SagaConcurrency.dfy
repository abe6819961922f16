/**
 Concurrent handlers of one order. The log is keyed by order id, so each topic has at most
 one handler at work for the order, while handlers of different topics interleave freely
 between reading the row, saving it and emitting. Any event may be delivered at any time,
 any number of times, and a handler may break off at every point.
 */
module SagaConcurrency {
  import opened Contracts
  import opened Saga
  import opened SagaBarrier

  /** A handler is idle; or it has read the row and passed its guard for delivery number
      `ticket`; or it is emitting the decided commands numbered `next` up to `end`. */
  datatype Handler =
    | Idle
    | Loaded(ticket: nat, event: Message, snapshot: Option<Row>)
    | Emitting(event: Message, next: nat, end: nat)

  /** The saga row with its handlers and the record of the run. Deliveries are numbered in
      `taken`; `served` lists the events in the order they took effect and `tickets` their
      delivery numbers; `dropped` are deliveries whose handler failed before its save.
      Decided commands are numbered in `issued`; `sent` lists the numbers of those the broker
      accepted, in broker order, and `lost` those that went down with a failing handler. */
  datatype Orchestration = Orchestration(
    row: Option<Row>, handlers: map<Topic, Handler>,
    taken: seq<Message>, served: seq<Message>, tickets: seq<nat>, dropped: set<nat>,
    issued: seq<Message>, sent: seq<nat>, lost: set<nat>)

  datatype Move = Read(topic: Topic, event: Message) | Save(topic: Topic) | Emit(topic: Topic) | Fail(topic: Topic)

  const SUBSCRIBED: set<Topic> := {Orders, Payments, Inventory, Fraud, Shipping}

  const START: Orchestration :=
    Orchestration(None, map[Orders := Idle, Payments := Idle, Inventory := Idle, Fraud := Idle, Shipping := Idle],
                  [], [], [], {}, [], [], {})

  function At(o: Orchestration, t: Topic): Handler {
    if t in o.handlers then o.handlers[t] else Idle
  }

  function EmitRange(ev: Message, next: nat, end: nat): Handler {
    if next < end then Emitting(ev, next, end) else Idle
  }

  /** What a save writes: a plain transition overwrites the row with a value computed from
      the snapshot, while the barrier works on the row as it is now, under its lock (and on
      the snapshot, should the row be gone). */
  function Written(row: Option<Row>, snapshot: Option<Row>, ev: Message): Outcome {
    match React(snapshot, ev)
    case Ignore => Outcome(row, [])
    case Overwrite(r, commands) => Outcome(Some(r), commands)
    case Barrier(action) =>
      var (r, commands) := ResolveBarrier(if row.Some? then row.value else snapshot.value, action);
      Outcome(Some(r), commands)
  }

  predicate Enabled(o: Orchestration, m: Move) {
    && m.topic in SUBSCRIBED
    && match m
       case Read(t, ev) => TopicOf(ev) == t && At(o, t).Idle?
       case Save(t) => At(o, t).Loaded?
       case Emit(t) => At(o, t).Emitting?
       case Fail(t) => !At(o, t).Idle?
  }

  function Range(next: nat, end: nat): (r: set<nat>)
    ensures forall k: nat :: k in r <==> next <= k < end
    decreases end - next
  {
    if next < end then {next} + Range(next + 1, end) else {}
  }

  function Reading(o: Orchestration, t: Topic, ev: Message): Orchestration {
    var o' := o.(taken := o.taken + [ev]);
    if React(o.row, ev).Ignore? then o'.(served := o.served + [ev], tickets := o.tickets + [|o.taken|])
    else o'.(handlers := o.handlers[t := Loaded(|o.taken|, ev, o.row)])
  }

  function Saving(o: Orchestration, t: Topic, h: Handler): Orchestration
    requires h.Loaded?
  {
    var out := Written(o.row, h.snapshot, h.event);
    o.(row := out.row, served := o.served + [h.event], tickets := o.tickets + [h.ticket],
       issued := o.issued + out.commands,
       handlers := o.handlers[t := EmitRange(h.event, |o.issued|, |o.issued| + |out.commands|)])
  }

  function Sending(o: Orchestration, t: Topic, h: Handler): Orchestration
    requires h.Emitting?
  {
    o.(handlers := o.handlers[t := EmitRange(h.event, h.next + 1, h.end)], sent := o.sent + [h.next])
  }

  function Failing(o: Orchestration, t: Topic, h: Handler): Orchestration
    requires !h.Idle?
  {
    if h.Loaded? then o.(handlers := o.handlers[t := Idle], dropped := o.dropped + {h.ticket})
    else o.(handlers := o.handlers[t := Idle], lost := o.lost + Range(h.next, h.end))
  }

  /** One move; a move that is not enabled changes nothing. */
  function Next(o: Orchestration, m: Move): Orchestration {
    if !Enabled(o, m) then o
    else
      match m
      case Read(t, ev) => Reading(o, t, ev)
      case Save(t) => Saving(o, t, At(o, t))
      case Emit(t) => Sending(o, t, At(o, t))
      case Fail(t) => Failing(o, t, At(o, t))
  }

  /** The state after any sequence of moves. */
  function After(moves: seq<Move>): Orchestration
    decreases |moves|
  {
    if moves == [] then START else Next(After(moves[..|moves| - 1]), moves[|moves| - 1])
  }

  // ---------------------------------------------------------------- one row, many handlers

  /** No handler ever works on a stale row: a loaded plain transition still sees the very row
      it read, and a loaded barrier handler finds the order compensating or cancelled. */
  ghost predicate Fresh(o: Orchestration) {
    forall t :: At(o, t).Loaded? ==> FreshHandler(o.row, t, At(o, t).event, At(o, t).snapshot)
  }

  predicate FreshHandler(row: Option<Row>, t: Topic, ev: Message, snapshot: Option<Row>) {
    && TopicOf(ev) == t
    && match React(snapshot, ev)
       case Ignore => false
       case Overwrite(_, _) => row == snapshot
       case Barrier(_) => Unwinding(row)
  }

  predicate Unwinding(row: Option<Row>) {
    row.Some? && row.value.state in {COMPENSATING, CANCELLED}
  }

  /** A row that some event can overwrite is left by the events of one topic only. */
  lemma OneTopicLeaves(row: Option<Row>, a: Message, b: Message)
    requires React(row, a).Overwrite? && !React(row, b).Ignore?
    ensures TopicOf(a) == TopicOf(b)
  {
  }

  lemma UnwindingRowsAreNotOverwritten(row: Option<Row>, ev: Message)
    requires Unwinding(row)
    ensures !React(row, ev).Overwrite?
  {
  }

  lemma BarrierStaysUnwinding(row: Option<Row>, snapshot: Option<Row>, ev: Message)
    requires React(snapshot, ev).Barrier? && Unwinding(row)
    ensures Unwinding(Written(row, snapshot, ev).row)
  {
  }

  lemma BarrierSnapshotUnwinding(row: Option<Row>, ev: Message)
    requires React(row, ev).Barrier?
    ensures Unwinding(row)
  {
  }

  /** A fresh handler writes what an undisturbed handler would have written. */
  lemma WrittenIsHandled(row: Option<Row>, t: Topic, ev: Message, snapshot: Option<Row>)
    requires FreshHandler(row, t, ev, snapshot)
    ensures Written(row, snapshot, ev) == Handle(row, ev)
  {
  }

  /** Two fresh handlers of different topics: one saving leaves the other fresh. */
  lemma SaveKeepsOtherFresh(row: Option<Row>, t: Topic, ev: Message, snapshot: Option<Row>,
                            u: Topic, ev': Message, snapshot': Option<Row>)
    requires t != u && FreshHandler(row, t, ev, snapshot) && FreshHandler(row, u, ev', snapshot')
    ensures FreshHandler(Written(row, snapshot, ev).row, u, ev', snapshot')
  {
    hide React, Written, Unwinding;
    if React(snapshot, ev).Overwrite? {
      if React(snapshot', ev').Overwrite? {
        OneTopicLeaves(row, ev, ev');
        assert false;
      } else {
        UnwindingRowsAreNotOverwritten(row, ev);
        assert false;
      }
    } else {
      if React(snapshot', ev').Overwrite? {
        UnwindingRowsAreNotOverwritten(row, ev');
        assert false;
      } else {
        BarrierStaysUnwinding(row, snapshot, ev);
      }
    }
  }

  lemma FreshNext(o: Orchestration, m: Move)
    requires Fresh(o)
    ensures Fresh(Next(o, m))
  {
    hide React, Written, FreshHandler;
    var o' := Next(o, m);
    forall t | At(o', t).Loaded?
      ensures FreshHandler(o'.row, t, At(o', t).event, At(o', t).snapshot)
    {
      if m.topic != t || !Enabled(o, m) {
        assert At(o', t) == At(o, t);
        if Enabled(o, m) && m.Save? {
          var h := At(o, m.topic);
          SaveKeepsOtherFresh(o.row, m.topic, h.event, h.snapshot, t, At(o, t).event, At(o, t).snapshot);
        }
      } else {
        assert m.Read?;
        NewlyLoadedIsFresh(o.row, t, m.event);
      }
    }
  }

  lemma NewlyLoadedIsFresh(row: Option<Row>, t: Topic, ev: Message)
    requires TopicOf(ev) == t && !React(row, ev).Ignore?
    ensures FreshHandler(row, t, ev, row)
  {
    if React(row, ev).Barrier? {
      BarrierSnapshotUnwinding(row, ev);
    }
  }

  // ------------------------------------------------------------------------------- runs

  /** The run so far is a serial run of the served events. */
  ghost predicate Serial(o: Orchestration) {
    HandleAll(None, o.served) == Outcome(o.row, o.issued)
  }

  ghost predicate AtWork(o: Orchestration, ticket: nat) {
    exists t :: At(o, t).Loaded? && At(o, t).ticket == ticket
  }

  ghost predicate Unsent(o: Orchestration, number: nat) {
    exists t :: At(o, t).Emitting? && At(o, t).next <= number < At(o, t).end
  }

  /** The served events are deliveries, each served at most once. */
  ghost predicate ServedOnce(o: Orchestration) {
    && |o.served| == |o.tickets|
    && NoRepeats(o.tickets)
    && (forall i :: 0 <= i < |o.tickets| ==> o.tickets[i] < |o.taken| && o.served[i] == o.taken[o.tickets[i]])
  }

  /** Dropped deliveries and those at work are served by nobody, and no two handlers share one. */
  ghost predicate HeldOnce(o: Orchestration) {
    && (forall k :: k in o.dropped ==> k < |o.taken| && k !in o.tickets)
    && (forall t :: At(o, t).Loaded? ==> HeldBy(o, At(o, t).ticket, At(o, t).event))
    && (forall t, u :: t != u && At(o, t).Loaded? && At(o, u).Loaded? ==> At(o, t).ticket != At(o, u).ticket)
  }

  ghost predicate HeldBy(o: Orchestration, k: nat, ev: Message) {
    k < |o.taken| && o.taken[k] == ev && k !in o.tickets && k !in o.dropped
  }

  /** No delivery disappears. */
  ghost predicate NoneMissing(o: Orchestration) {
    forall k :: 0 <= k < |o.taken| ==> k in o.tickets || k in o.dropped || AtWork(o, k)
  }

  /** Every delivery is served once, at work, or dropped: exactly one of the three. */
  ghost predicate DeliveriesAccounted(o: Orchestration) {
    ServedOnce(o) && HeldOnce(o) && NoneMissing(o)
  }

  /** The sent commands are decided ones, each sent at most once. */
  ghost predicate SentOnce(o: Orchestration) {
    && NoRepeats(o.sent)
    && (forall i :: 0 <= i < |o.sent| ==> o.sent[i] < |o.issued|)
    && (forall k :: k in o.lost ==> k < |o.issued| && k !in o.sent)
  }

  /** Emitting handlers own disjoint ranges of decided commands not yet sent or lost. */
  ghost predicate RangesOwned(o: Orchestration) {
    && (forall t :: At(o, t).Emitting? ==> Owned(o, At(o, t).next, At(o, t).end))
    && (forall t, u :: t != u && At(o, t).Emitting? && At(o, u).Emitting? ==>
          At(o, t).end <= At(o, u).next || At(o, u).end <= At(o, t).next)
  }

  ghost predicate Owned(o: Orchestration, next: nat, end: nat) {
    next < end <= |o.issued| && forall k :: next <= k < end ==> k !in o.sent && k !in o.lost
  }

  ghost predicate NoneForgotten(o: Orchestration) {
    forall k :: 0 <= k < |o.issued| ==> k in o.sent || k in o.lost || Unsent(o, k)
  }

  /** Every decided command is sent once, still unsent, or lost: exactly one of the three. */
  ghost predicate CommandsAccounted(o: Orchestration) {
    SentOnce(o) && RangesOwned(o) && NoneForgotten(o)
  }

  lemma OthersKept(o: Orchestration, m: Move, u: Topic)
    requires u != m.topic
    ensures At(Next(o, m), u) == At(o, u)
  {
    hide React, Written;
  }

  lemma ServedOnceNext(o: Orchestration, m: Move)
    requires ServedOnce(o) && HeldOnce(o)
    ensures ServedOnce(Next(o, m))
  {
    hide React, Written;
  }

  lemma HeldOnceNext(o: Orchestration, m: Move)
    requires ServedOnce(o) && HeldOnce(o)
    ensures HeldOnce(Next(o, m))
  {
    hide React, Written;
    var o' := Next(o, m);
    forall u | u != m.topic
      ensures At(o', u) == At(o, u)
    {
      OthersKept(o, m, u);
    }
    forall t | At(o', t).Loaded?
      ensures HeldBy(o', At(o', t).ticket, At(o', t).event)
    {
      if t != m.topic {
        assert HeldBy(o, At(o, t).ticket, At(o, t).event);
      }
    }
  }

  lemma NoneMissingNext(o: Orchestration, m: Move)
    requires NoneMissing(o)
    ensures NoneMissing(Next(o, m))
  {
    hide React, Written;
    var o' := Next(o, m);
    forall k | 0 <= k < |o'.taken|
      ensures k in o'.tickets || k in o'.dropped || AtWork(o', k)
    {
      if k == |o.taken| {
        if React(o.row, m.event).Ignore? {
          assert o'.tickets[|o.tickets|] == k;
        } else {
          assert At(o', m.topic).ticket == k;
        }
      } else if k in o.tickets {
        assert o.tickets <= o'.tickets;
      } else if AtWork(o, k) {
        var u :| At(o, u).Loaded? && At(o, u).ticket == k;
        if u != m.topic {
          OthersKept(o, m, u);
          assert At(o', u).ticket == k;
        } else if Enabled(o, m) && m.Save? {
          assert o'.tickets[|o.tickets|] == k;
        } else if !Enabled(o, m) {
          assert At(o', u).ticket == k;
        }
      }
    }
  }

  lemma SentOnceNext(o: Orchestration, m: Move)
    requires SentOnce(o) && RangesOwned(o)
    ensures SentOnce(Next(o, m))
  {
    hide React, Written;
    if Enabled(o, m) && (m.Emit? || (m.Fail? && At(o, m.topic).Emitting?)) {
      var h := At(o, m.topic);
      assert Owned(o, h.next, h.end);
      assert h.next !in o.sent && h.next !in o.lost;
      if m.Fail? {
        assert forall k :: k in Range(h.next, h.end) ==> h.next <= k < h.end;
      }
    }
  }

  lemma RangesOwnedNext(o: Orchestration, m: Move)
    requires SentOnce(o) && RangesOwned(o)
    ensures RangesOwned(Next(o, m))
  {
    hide React, Written, At, Owned;
    var o' := Next(o, m);
    forall u | u != m.topic
      ensures At(o', u) == At(o, u)
    {
      OthersKept(o, m, u);
    }
    forall t | At(o', t).Emitting?
      ensures Owned(o', At(o', t).next, At(o', t).end)
    {
      OwnedNext(o, m, t);
    }
    forall t, u | t != u && At(o', t).Emitting? && At(o', u).Emitting?
      ensures At(o', t).end <= At(o', u).next || At(o', u).end <= At(o', t).next
    {
      if t == m.topic {
        ShrunkOrNew(o, m, u);
      } else if u == m.topic {
        ShrunkOrNew(o, m, t);
      }
    }
  }

  /** The mover's new range is part of its old one or lies beyond every other handler's. */
  lemma ShrunkOrNew(o: Orchestration, m: Move, u: Topic)
    requires RangesOwned(o) && u != m.topic && At(o, u).Emitting? && At(Next(o, m), m.topic).Emitting?
    ensures var (h, g) := (At(Next(o, m), m.topic), At(o, u)); h.end <= g.next || g.end <= h.next
  {
    hide React, Written;
    assert Owned(o, At(o, u).next, At(o, u).end);
  }

  lemma OwnedNext(o: Orchestration, m: Move, t: Topic)
    requires SentOnce(o) && RangesOwned(o) && At(Next(o, m), t).Emitting?
    ensures Owned(Next(o, m), At(Next(o, m), t).next, At(Next(o, m), t).end)
  {
    hide React, Written;
    var o' := Next(o, m);
    if At(o, t).Emitting? {
      assert Owned(o, At(o, t).next, At(o, t).end);
    }
    if t != m.topic {
      OthersKept(o, m, t);
      if At(o, m.topic).Emitting? {
        assert At(o, t).end <= At(o, m.topic).next || At(o, m.topic).end <= At(o, t).next;
        assert Owned(o, At(o, m.topic).next, At(o, m.topic).end);
      }
    }
  }

  lemma NoneForgottenNext(o: Orchestration, m: Move)
    requires NoneForgotten(o)
    ensures NoneForgotten(Next(o, m))
  {
    hide React, Written;
    var o' := Next(o, m);
    forall k | 0 <= k < |o'.issued|
      ensures k in o'.sent || k in o'.lost || Unsent(o', k)
    {
      if k >= |o.issued| {
        assert At(o', m.topic).Emitting? && At(o', m.topic).next <= k < At(o', m.topic).end;
      } else if k in o.sent {
        assert o.sent <= o'.sent;
      } else if Unsent(o, k) {
        var u :| At(o, u).Emitting? && At(o, u).next <= k < At(o, u).end;
        if u != m.topic || !Enabled(o, m) {
          assert At(o', u) == At(o, u);
        } else if m.Emit? {
          if k == At(o, u).next {
            assert o'.sent[|o.sent|] == k;
          } else {
            assert At(o', u).Emitting?;
          }
        }
      }
    }
  }

  lemma SerialNext(o: Orchestration, m: Move)
    requires Fresh(o) && Serial(o)
    ensures Serial(Next(o, m))
  {
    hide React, Handle, HandleAll, Written, FreshHandler;
    if Enabled(o, m) && m.Read? {
      IgnoredIsHandled(o.row, m.event);
      HandleAllSnoc(None, o.served, m.event);
      assert o.issued + [] == o.issued;
    } else if Enabled(o, m) && m.Save? {
      var h := At(o, m.topic);
      WrittenIsHandled(o.row, m.topic, h.event, h.snapshot);
      HandleAllSnoc(None, o.served, h.event);
    }
  }

  lemma IgnoredIsHandled(row: Option<Row>, ev: Message)
    ensures React(row, ev).Ignore? ==> Handle(row, ev) == Outcome(row, [])
  {
  }

  /** What holds of the orchestrator in every state of every run. */
  ghost predicate Sound(o: Orchestration) {
    Fresh(o) && Serial(o) && DeliveriesAccounted(o) && CommandsAccounted(o) && Subscribed(o)
  }

  /** Only subscribed topics have handlers at work. */
  ghost predicate Subscribed(o: Orchestration) {
    forall t :: !At(o, t).Idle? ==> t in SUBSCRIBED
  }

  lemma SubscribedNext(o: Orchestration, m: Move)
    requires Subscribed(o)
    ensures Subscribed(Next(o, m))
  {
    hide React, Written;
    forall t | !At(Next(o, m), t).Idle?
      ensures t in SUBSCRIBED
    {
      if t != m.topic {
        OthersKept(o, m, t);
      }
    }
  }

  lemma SoundNext(o: Orchestration, m: Move)
    requires Sound(o)
    ensures Sound(Next(o, m))
  {
    hide Next, Serial, DeliveriesAccounted, CommandsAccounted, Fresh, Subscribed;
    SubscribedNext(o, m);
    FreshNext(o, m);
    SerialNext(o, m);
    AccountedNext(o, m);
  }

  /** Serialisability: every interleaving leaves the row and the decided commands of the
      serial run that handles the served events one at a time, in the order their handlers
      took effect; every delivery is served, still at work or dropped by a failure, and what
      the broker got is the decided commands, except what is unsent or lost with a failure. */
  lemma {:induction false} Serialisability(moves: seq<Move>)
    ensures Sound(After(moves))
    decreases |moves|
  {
    hide Next, Sound;
    if moves == [] {
      StartIsSound();
    } else {
      Serialisability(moves[..|moves| - 1]);
      SoundNext(After(moves[..|moves| - 1]), moves[|moves| - 1]);
    }
  }

  lemma AccountedNext(o: Orchestration, m: Move)
    requires DeliveriesAccounted(o) && CommandsAccounted(o)
    ensures DeliveriesAccounted(Next(o, m)) && CommandsAccounted(Next(o, m))
  {
    hide Next, ServedOnce, HeldOnce, NoneMissing, SentOnce, RangesOwned, NoneForgotten;
    ServedOnceNext(o, m);
    HeldOnceNext(o, m);
    NoneMissingNext(o, m);
    SentOnceNext(o, m);
    RangesOwnedNext(o, m);
    NoneForgottenNext(o, m);
  }

  lemma StartIsSound()
    ensures Sound(START)
  {
    hide React;
  }

  ghost predicate Quiescent(o: Orchestration) {
    forall t :: At(o, t).Idle?
  }

  /** A run in which every handler finished and none failed is a serial run of exactly the
      delivered events, each once, and the broker holds exactly the commands of that serial
      run, each once. */
  lemma CleanRunsAreSerial(moves: seq<Move>)
    requires Quiescent(After(moves))
    requires forall i :: 0 <= i < |moves| ==> !moves[i].Fail?
    ensures var o := After(moves);
            && HandleAll(None, o.served) == Outcome(o.row, o.issued)
            && |o.served| == |o.tickets| && NoRepeats(o.tickets)
            && (forall k :: 0 <= k < |o.taken| ==> k in o.tickets)
            && (forall i :: 0 <= i < |o.tickets| ==> o.tickets[i] < |o.taken| && o.served[i] == o.taken[o.tickets[i]])
            && NoRepeats(o.sent)
            && (forall k :: 0 <= k < |o.issued| <==> k in o.sent)
  {
    hide Next, After, Handle, HandleAll, React;
    Serialisability(moves);
    NothingLost(moves);
  }

  lemma {:induction false} NothingLost(moves: seq<Move>)
    requires forall i :: 0 <= i < |moves| ==> !moves[i].Fail?
    ensures After(moves).lost == {} && After(moves).dropped == {}
    decreases |moves|
  {
    hide React, Written;
    if moves == [] {
    } else {
      NothingLost(moves[..|moves| - 1]);
    }
  }

  // -------------------------------------------------------------- at most one of each command

  datatype Command =
    | PaymentCmd | ReservationCmd | FraudCheckCmd | ShipmentCmd | RefundCmd | ReleaseCmd
    | CompletedCmd | NotifyCmd | FailedCmd | CancelledCmd | NotACommand

  function CommandOf(m: Message): Command {
    match m
    case PaymentRequested(_, _) => PaymentCmd
    case InventoryReservationRequested(_) => ReservationCmd
    case FraudCheckRequested(_, _, _) => FraudCheckCmd
    case ShipmentRequested(_, _) => ShipmentCmd
    case PaymentRefundRequested(_, _) => RefundCmd
    case InventoryReleased(_, _) => ReleaseCmd
    case OrderCompleted(_, _, _, _, _) => CompletedCmd
    case NotificationRequested(_, _) => NotifyCmd
    case OrderFailed(_, _) => FailedCmd
    case OrderCancelled(_, _, _) => CancelledCmd
    case _ => NotACommand
  }

  /** The commands an order in a given state may already have issued. */
  function Possible(row: Option<Row>): set<Command> {
    if row.None? then {}
    else
      match row.value.state
      case PAYMENT_PENDING => {PaymentCmd}
      case INVENTORY_PENDING => {PaymentCmd, ReservationCmd}
      case FRAUD_PENDING => {PaymentCmd, ReservationCmd, FraudCheckCmd}
      case SHIPPING_PENDING => {PaymentCmd, ReservationCmd, FraudCheckCmd, ShipmentCmd}
      case COMPLETED => {PaymentCmd, ReservationCmd, FraudCheckCmd, ShipmentCmd, CompletedCmd, NotifyCmd}
      case COMPENSATING => {PaymentCmd, ReservationCmd, FraudCheckCmd, ShipmentCmd, RefundCmd, ReleaseCmd}
      case CANCELLED => {PaymentCmd, ReservationCmd, FraudCheckCmd, ShipmentCmd, RefundCmd, ReleaseCmd, CancelledCmd}
      case FAILED => {PaymentCmd, FailedCmd}
      case _ => {}
  }

  predicate AllDifferent(cs: seq<Message>) {
    forall i, j :: 0 <= i < j < |cs| ==> CommandOf(cs[i]) != CommandOf(cs[j])
  }

  /** States the code can leave an order in; the other states of the type are never used. */
  predicate Used(row: Option<Row>) {
    row.Some? ==>
      && row.value.state in {PAYMENT_PENDING, INVENTORY_PENDING, FRAUD_PENDING, SHIPPING_PENDING, COMPLETED,
                             COMPENSATING, CANCELLED, FAILED}
      && (row.value.state == COMPENSATING ==> Waiting(row.value))
  }

  /** The commands decided by one handler are new for the order. */
  ghost predicate NewCommands(row: Option<Row>, out: Outcome) {
    && AllDifferent(out.commands)
    && Possible(row) <= Possible(out.row)
    && forall i :: 0 <= i < |out.commands| ==>
         CommandOf(out.commands[i]) !in Possible(row) && CommandOf(out.commands[i]) in Possible(out.row)
  }

  lemma OverwriteIssuesNewCommands(row: Option<Row>, ev: Message)
    requires Used(row) && React(row, ev).Overwrite?
    ensures NewCommands(row, Outcome(Some(React(row, ev).row), React(row, ev).commands))
    ensures React(row, ev).row.state != COMPENSATING || ev.InventoryReservationFailed? || ev.FraudRejected? ||
            ev.ShipmentFailed?
  {
    hide Waiting, NewContext;
  }

  lemma BarrierIssuesNewCommands(row: Row, action: Action)
    requires Used(Some(row)) && row.state == COMPENSATING
    ensures var (r, commands) := ResolveBarrier(row, action); NewCommands(Some(row), Outcome(Some(r), commands))
  {
    hide Used, Covers, WithAction;
  }

  lemma HandleIssuesNewCommands(row: Option<Row>, ev: Message)
    requires Used(row)
    ensures NewCommands(row, Handle(row, ev))
  {
    hide React, NewCommands, ResolveBarrier, Used;
    match React(row, ev) {
      case Ignore => NoCommands(row);
      case Overwrite(_, _) => OverwriteIssuesNewCommands(row, ev);
      case Barrier(action) => BarrierMeansCompensating(row, ev); BarrierIssuesNewCommands(row.value, action);
    }
  }

  lemma NoCommands(row: Option<Row>)
    ensures NewCommands(row, Outcome(row, []))
  {
  }

  lemma BarrierMeansCompensating(row: Option<Row>, ev: Message)
    requires React(row, ev).Barrier?
    ensures InState(row, COMPENSATING)
  {
  }

  lemma BarrierKeepsUsed(row: Row, action: Action)
    requires Used(Some(row)) && row.state == COMPENSATING
    ensures Used(Some(ResolveBarrier(row, action).0))
  {
  }

  lemma OverwriteKeepsUsed(row: Option<Row>, ev: Message)
    requires Used(row) && React(row, ev).Overwrite?
    ensures Used(Some(React(row, ev).row))
  {
    var r := React(row, ev).row;
    if r.state == COMPENSATING {
      assert PAYMENT_REFUND in PendingOf(r.context) && CompletedOf(r.context) == [];
    }
  }

  lemma HandleKeepsUsed(row: Option<Row>, ev: Message)
    requires Used(row)
    ensures Used(Handle(row, ev).row)
  {
    hide React, ResolveBarrier, Used;
    match React(row, ev) {
      case Ignore =>
      case Overwrite(_, _) => OverwriteKeepsUsed(row, ev);
      case Barrier(action) => BarrierMeansCompensating(row, ev); BarrierKeepsUsed(row.value, action);
    }
  }

  lemma {:induction false} SerialCommandsDiffer(evs: seq<Message>)
    ensures var out := HandleAll(None, evs);
            && Used(out.row)
            && AllDifferent(out.commands)
            && forall i :: 0 <= i < |out.commands| ==> CommandOf(out.commands[i]) in Possible(out.row)
    decreases |evs|
  {
    if evs == [] {
    } else {
      var n := |evs| - 1;
      hide Handle, Used, CommandOf, Possible;
      SerialCommandsDiffer(evs[..n]);
      HandleKeepsUsed(HandleAll(None, evs[..n]).row, evs[n]);
      HandleIssuesNewCommands(HandleAll(None, evs[..n]).row, evs[n]);
    }
  }

  /** What the broker holds of this order's commands, in the order it accepted them. */
  function Emitted(o: Orchestration): seq<Message>
    requires forall i :: 0 <= i < |o.sent| ==> o.sent[i] < |o.issued|
  {
    seq(|o.sent|, i requires 0 <= i < |o.sent| => o.issued[o.sent[i]])
  }

  /** At most once: whatever is delivered, repeated, delayed or cut short by a failure, the
      order's commands are pairwise different, both those decided and those that reached
      the broker; and the order only ever rests in a state the code uses. */
  lemma CommandsAtMostOnce(moves: seq<Move>)
    ensures AllDifferent(After(moves).issued)
    ensures forall i :: 0 <= i < |After(moves).sent| ==> After(moves).sent[i] < |After(moves).issued|
    ensures AllDifferent(Emitted(After(moves)))
    ensures forall i :: 0 <= i < |Emitted(After(moves))| ==>
              CommandOf(Emitted(After(moves))[i]) in Possible(After(moves).row)
    ensures Used(After(moves).row)
  {
    hide Next, After, HandleAll, CommandOf, Possible, Used;
    Serialisability(moves);
    SerialCommandsDiffer(After(moves).served);
  }

  /** The three terminal states absorb every further event. */
  lemma {:induction false} TerminalAbsorbs(row: Option<Row>, evs: seq<Message>)
    requires Terminal(row)
    ensures HandleAll(row, evs) == Outcome(row, [])
    decreases |evs|
  {
    if evs == [] {
    } else {
      TerminalAbsorbs(row, evs[..|evs| - 1]);
    }
  }

  /** The step recorded beside the state says the same: which reply the order waits for, which
      failure is being compensated, or which confirmation came last. */
  predicate StepFits(row: Row) {
    match row.state
    case PAYMENT_PENDING => row.step == PAYMENT && row.failureReason.None?
    case INVENTORY_PENDING => row.step == INVENTORY && row.failureReason.None?
    case FRAUD_PENDING => row.step == FRAUD_CHECK && row.failureReason.None?
    case SHIPPING_PENDING => row.step == SHIPPING && row.failureReason.None?
    case COMPLETED => row.step == TERMINAL_SUCCESS && row.failureReason.None?
    case FAILED => row.step == TERMINAL && row.failureReason.Some? && row.failureReason.value.PaymentDeclined?
    case CANCELLED => row.step == TERMINAL_CANCELLED && row.failureReason.Some? &&
                      !row.failureReason.value.PaymentDeclined?
    case COMPENSATING =>
      row.failureReason.Some? &&
      (match row.step
       case COMPENSATING_PAYMENT => row.failureReason.value.OutOfStock? && CompletedOf(row.context) == []
       case COMPENSATING_FRAUD => row.failureReason.value.FraudRisk? && CompletedOf(row.context) == []
       case COMPENSATING_SHIPPING => row.failureReason.value.DispatchFailed? && CompletedOf(row.context) == []
       case COMPENSATING_WAITING(action) => !row.failureReason.value.PaymentDeclined? &&
                                            action in CompletedOf(row.context)
       case _ => false)
    case _ => false
  }

  lemma HandleKeepsStep(row: Option<Row>, ev: Message)
    requires row.Some? ==> StepFits(row.value)
    ensures Handle(row, ev).row.Some? ==> StepFits(Handle(row, ev).row.value)
  {
    hide Covers, PendingOf;
  }

  lemma {:induction false} SerialStepsFit(evs: seq<Message>)
    ensures HandleAll(None, evs).row.Some? ==> StepFits(HandleAll(None, evs).row.value)
    decreases |evs|
  {
    hide Handle, StepFits;
    if evs == [] {
    } else {
      SerialStepsFit(evs[..|evs| - 1]);
      HandleKeepsStep(HandleAll(None, evs[..|evs| - 1]).row, evs[|evs| - 1]);
    }
  }

  /** In every run, whatever the interleaving, the recorded step fits the state and the failure. */
  lemma StepsFit(moves: seq<Move>)
    ensures After(moves).row.Some? ==> StepFits(After(moves).row.value)
  {
    hide After, HandleAll, StepFits, Fresh, DeliveriesAccounted, CommandsAccounted;
    Serialisability(moves);
    SerialStepsFit(After(moves).served);
  }
}
