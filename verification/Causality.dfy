/**
 Causes and effects on the message log. Every command on the network was sent because of one
 saga event and every reply because of one request, and a history that respects these causes
 ends with the message that closes the order.
 */
module Causality {
  import opened Contracts
  import opened Saga
  import opened SagaConcurrency
  import opened Consumers
  import opened Fulfilment
  import opened Progress

  /** The saga sends `command` on handling `ev`. */
  predicate Triggers(ev: Message, command: Message) {
    match command
    case PaymentRequested(_, _) => ev.OrderCreated?
    case InventoryReservationRequested(_) => ev.PaymentAuthorized?
    case FraudCheckRequested(_, _, _) => ev.InventoryReserved?
    case ShipmentRequested(_, _) => ev.FraudApproved?
    case PaymentRefundRequested(_, _) => ev.InventoryReservationFailed? || ev.FraudRejected? || ev.ShipmentFailed?
    case InventoryReleased(_, _) => ev.FraudRejected? || ev.ShipmentFailed?
    case OrderCompleted(_, _, _, _, _) | NotificationRequested(_, _) => ev.ShipmentCreated?
    case OrderFailed(_, _) => ev.PaymentRejected?
    case OrderCancelled(_, _, _) => ev.PaymentRefunded? || ev.InventoryReleased?
    case _ => false
  }

  ghost predicate EmitsCaused(w: World) {
    forall t :: At(w.saga, t).Emitting? ==> EmitCaused(w, At(w.saga, t).event, At(w.saga, t).next, At(w.saga, t).end)
  }

  ghost predicate EmitCaused(w: World, ev: Message, next: nat, end: nat) {
    ev in w.net && next < end <= |w.saga.issued| && forall k :: next <= k < end ==> Triggers(ev, w.saga.issued[k])
  }

  ghost predicate HasCause(w: World, m: Message) {
    exists p :: p in w.follows && p.1 == m
  }

  /** Every command on the network has a recorded cause, and every recorded cause is one. */
  ghost predicate Causal(w: World) {
    && (forall m :: m in w.net && CommandOf(m) != NotACommand ==> HasCause(w, m))
    && (forall p :: p in w.follows ==> p.0 in w.net && p.1 in w.net && Triggers(p.0, p.1))
    && EmitsCaused(w)
  }

  lemma WrittenIsTriggered(row: Option<Row>, snapshot: Option<Row>, ev: Message)
    ensures forall k :: 0 <= k < |Written(row, snapshot, ev).commands| ==>
              Triggers(ev, Written(row, snapshot, ev).commands[k])
  {
  }

  lemma SaveCaused(w: World, t: Topic)
    requires Causal(w) && DeliveredFromNet(w) && Enabled(w.saga, Save(t))
    ensures EmitsCaused(Do(w, Orchestrate(Save(t))))
  {
    hide Triggers, Written, CommandOf;
    var w' := Do(w, Orchestrate(Save(t)));
    var h := At(w.saga, t);
    WrittenIsTriggered(w.saga.row, h.snapshot, h.event);
    forall u | At(w'.saga, u).Emitting?
      ensures EmitCaused(w', At(w'.saga, u).event, At(w'.saga, u).next, At(w'.saga, u).end)
    {
      if u != t {
        OthersKept(w.saga, Save(t), u);
        assert EmitCaused(w, At(w.saga, u).event, At(w.saga, u).next, At(w.saga, u).end);
      }
    }
  }

  lemma OtherMovesCaused(w: World, m: Move)
    requires Causal(w) && Enabled(w.saga, m) && !m.Save?
    ensures EmitsCaused(Do(w, Orchestrate(m)))
  {
    hide Triggers, React, CommandOf;
    var w' := Do(w, Orchestrate(m));
    forall u | At(w'.saga, u).Emitting?
      ensures EmitCaused(w', At(w'.saga, u).event, At(w'.saga, u).next, At(w'.saga, u).end)
    {
      if u != m.topic {
        OthersKept(w.saga, m, u);
      }
      assert EmitCaused(w, At(w.saga, u).event, At(w.saga, u).next, At(w.saga, u).end);
    }
  }

  lemma CausalMove(w: World, m: Move)
    requires Causal(w) && DeliveredFromNet(w)
    ensures Causal(Do(w, Orchestrate(m)))
  {
    hide Triggers, Next, CommandOf;
    var w' := Do(w, Orchestrate(m));
    if Can(w, Orchestrate(m)) && Enabled(w.saga, m) {
      if m.Save? {
        SaveCaused(w, m.topic);
      } else {
        OtherMovesCaused(w, m);
      }
      if m.Emit? {
        var h := At(w.saga, m.topic);
        assert EmitCaused(w, h.event, h.next, h.end);
        assert Triggers(h.event, w.saga.issued[h.next]);
      }
      forall x | x in w'.net && CommandOf(x) != NotACommand
        ensures HasCause(w', x)
      {
        if x in w.net {
          var p :| p in w.follows && p.1 == x;
          assert p in w'.follows;
        } else {
          assert x in Published(w.saga, m);
          assert (At(w.saga, m.topic).event, x) in w'.follows;
        }
      }
    } else {
      NothingMoved(w, m);
    }
  }

  lemma NothingMoved(w: World, m: Move)
    requires !Can(w, Orchestrate(m)) || !Enabled(w.saga, m)
    ensures Do(w, Orchestrate(m)) == w
  {
    hide React;
    assert w.net + {} == w.net && w.follows + {} == w.follows;
  }

  lemma CausalRespond(w: World, request: Message, choice: Choice)
    requires Causal(w)
    ensures Causal(Do(w, Respond(request, choice)))
  {
    hide Triggers, Reply;
    var w' := Do(w, Respond(request, choice));
    if Can(w, Respond(request, choice)) {
      var reply := Reply(request, choice).value;
      RepliesAnswer(request, choice);
      AnsweredIsCommand(request, reply);
      forall x | x in w'.net && CommandOf(x) != NotACommand
        ensures HasCause(w', x)
      {
        assert HasCause(w, x);
      }
      forall u | At(w'.saga, u).Emitting?
        ensures EmitCaused(w', At(w'.saga, u).event, At(w'.saga, u).next, At(w'.saga, u).end)
      {
        assert EmitCaused(w, At(w.saga, u).event, At(w.saga, u).next, At(w.saga, u).end);
      }
    }
  }

  lemma CausalDo(order: Message, w: World, a: Act)
    requires Inv(order, w) && Causal(w)
    ensures Causal(Do(w, a))
  {
    hide Causal, Sound, Story, Explained;
    match a {
      case Orchestrate(m) => CausalMove(w, m);
      case Respond(request, choice) => CausalRespond(w, request, choice);
    }
  }

  lemma CausalBegin(order: Message)
    requires order.OrderCreated?
    ensures Causal(Begin(order))
  {
    hide React;
  }

  /** Every run records a cause for every message but the order itself. */
  lemma {:induction false} CausalAlways(order: Message, acts: seq<Act>)
    requires order.OrderCreated?
    ensures Causal(Run(order, acts))
    decreases |acts|
  {
    hide Causal, Do, Inv;
    if acts == [] {
      CausalBegin(order);
    } else {
      CausalAlways(order, acts[..|acts| - 1]);
      InvAlways(order, acts[..|acts| - 1]);
      CausalDo(order, Run(order, acts[..|acts| - 1]), acts[|acts| - 1]);
    }
  }

  // ------------------------------------------------------- the reservation behind the fraud check

  /** The event is the reservation the row has stored. */
  ghost predicate IsStoredReservation(row: Option<Row>, ev: Message) {
    && row.Some? && row.value.context.reservationId.Some?
    && ev == InventoryReserved(row.value.context.reservationId.value, row.value.context.items)
  }

  ghost predicate ChecksEmitted(w: World, t: Topic) {
    At(w.saga, t).Emitting? ==>
      forall k | At(w.saga, t).next <= k < At(w.saga, t).end && k < |w.saga.issued| ::
        w.saga.issued[k].FraudCheckRequested? ==> IsStoredReservation(w.saga.row, At(w.saga, t).event)
  }

  /** A fraud check is sent because of the very reservation the saga has accepted. */
  ghost predicate ChecksCaused(w: World) {
    && (forall p :: p in w.follows && p.1.FraudCheckRequested? ==> IsStoredReservation(w.saga.row, p.0))
    && (forall t :: ChecksEmitted(w, t))
  }

  /** An accepted reservation is never replaced. */
  lemma ReservationStays(order: Message, row: Option<Row>, issued: seq<Message>, net: set<Message>, ev: Message,
                         x: Message)
    requires Story(order, row, issued, net) && IsStoredReservation(row, x)
    ensures IsStoredReservation(Handle(row, ev).row, x)
  {
    hide Trail, PaymentKnown, ShipmentKnown, UnwindKnown, VerdictsKnown, Covers;
  }

  /** The handler that decides the fraud check has just stored the reservation it read. */
  lemma CheckIsDecided(order: Message, row: Option<Row>, issued: seq<Message>, net: set<Message>,
                       answers: set<(Message, Message)>, ev: Message, k: nat)
    requires order.OrderCreated? && Story(order, row, issued, net) && Explained(order, issued, net, answers) &&
             ev in net
    requires k < |Handle(row, ev).commands| && Handle(row, ev).commands[k].FraudCheckRequested?
    ensures IsStoredReservation(Handle(row, ev).row, ev)
  {
    hide Explained, Trail, PaymentKnown, ShipmentKnown, UnwindKnown, VerdictsKnown, Covers;
    assert ev.InventoryReserved?;
    ReservedIsOwn(order, row.value, net, answers, ev);
  }

  lemma ChecksSave(order: Message, w: World, t: Topic)
    requires Inv(order, w) && ChecksCaused(w) && Enabled(w.saga, Save(t))
    ensures ChecksCaused(Do(w, Orchestrate(Save(t))))
  {
    hide Story, Explained, Handle, React, IsStoredReservation, Serial, DeliveriesAccounted, CommandsAccounted,
         FreshHandler, Written;
    var w', h := Do(w, Orchestrate(Save(t))), At(w.saga, t);
    assert FreshHandler(w.saga.row, t, h.event, h.snapshot);
    WrittenIsHandled(w.saga.row, t, h.event, h.snapshot);
    var out := Handle(w.saga.row, h.event);
    assert w'.follows == w.follows && w'.saga.row == out.row && w'.saga.issued == w.saga.issued + out.commands;
    forall x | IsStoredReservation(w.saga.row, x)
      ensures IsStoredReservation(out.row, x)
    {
      ReservationStays(order, w.saga.row, w.saga.issued, w.net, h.event, x);
    }
    forall u
      ensures ChecksEmitted(w', u)
    {
      if u != t {
        OthersKept(w.saga, Save(t), u);
        ChecksElsewhere(order, w, w', u);
      } else {
        forall k | 0 <= k < |out.commands| && out.commands[k].FraudCheckRequested?
          ensures IsStoredReservation(out.row, h.event)
        {
          CheckIsDecided(order, w.saga.row, w.saga.issued, w.net, w.answers, h.event, k);
        }
      }
    }
  }

  /** A handler that goes on emitting still emits commands decided before. */
  lemma ChecksElsewhere(order: Message, w: World, w': World, u: Topic)
    requires Inv(order, w) && ChecksEmitted(w, u) && At(w'.saga, u) == At(w.saga, u)
    requires w.saga.issued <= w'.saga.issued
    requires forall x :: IsStoredReservation(w.saga.row, x) ==> IsStoredReservation(w'.saga.row, x)
    ensures ChecksEmitted(w', u)
  {
    hide Story, Explained, IsStoredReservation, Serial, DeliveriesAccounted, Fresh;
    if At(w.saga, u).Emitting? {
      assert Owned(w.saga, At(w.saga, u).next, At(w.saga, u).end);
    }
  }

  lemma ChecksMove(order: Message, w: World, m: Move)
    requires Inv(order, w) && ChecksCaused(w) && !(m.Save? && Enabled(w.saga, m)) && Can(w, Orchestrate(m))
    ensures ChecksCaused(Do(w, Orchestrate(m)))
  {
    hide Story, Explained, IsStoredReservation, React, Serial, DeliveriesAccounted, CommandsAccounted, Fresh;
    var w' := Do(w, Orchestrate(m));
    OnlySavesDecide(w.saga, m);
    forall u
      ensures ChecksEmitted(w', u)
    {
      if u != m.topic {
        OthersKept(w.saga, m, u);
      }
      assert ChecksEmitted(w, u);
    }
    if m.Emit? && Enabled(w.saga, m) {
      assert ChecksEmitted(w, m.topic);
      EmitsItsOwn(order, w, m.topic);
    }
  }

  lemma EmitsItsOwn(order: Message, w: World, t: Topic)
    requires Inv(order, w) && At(w.saga, t).Emitting?
    ensures At(w.saga, t).next < At(w.saga, t).end <= |w.saga.issued|
  {
    hide Story, Explained, Serial, DeliveriesAccounted, Fresh;
    assert Owned(w.saga, At(w.saga, t).next, At(w.saga, t).end);
  }

  lemma ChecksDo(order: Message, w: World, a: Act)
    requires Inv(order, w) && ChecksCaused(w)
    ensures ChecksCaused(Do(w, a))
  {
    hide Inv, Next, IsStoredReservation;
    if Can(w, a) {
      match a {
        case Orchestrate(m) =>
          if m.Save? && Enabled(w.saga, m) {
            ChecksSave(order, w, m.topic);
          } else {
            ChecksMove(order, w, m);
          }
        case Respond(request, choice) =>
          forall t
            ensures ChecksEmitted(Do(w, a), t)
          {
            assert ChecksEmitted(w, t);
          }
      }
    }
  }

  /** In every run the fraud check was sent because of the reservation in the row. */
  lemma {:induction false} ChecksAlways(order: Message, acts: seq<Act>)
    requires order.OrderCreated?
    ensures ChecksCaused(Run(order, acts))
    decreases |acts|
  {
    hide ChecksCaused, Do, Inv;
    if acts == [] {
      assert ChecksCaused(Begin(order)) by { ChecksBegin(order); }
    } else {
      ChecksAlways(order, acts[..|acts| - 1]);
      InvAlways(order, acts[..|acts| - 1]);
      ChecksDo(order, Run(order, acts[..|acts| - 1]), acts[|acts| - 1]);
    }
  }

  lemma ChecksBegin(order: Message)
    ensures ChecksCaused(Begin(order))
  {
    hide React;
  }

  // ------------------------------------------------------------------------ causal histories

  ghost predicate Before(h: seq<Message>, a: Message, b: Message) {
    forall i, j :: 0 <= i < |h| && 0 <= j < |h| && h[i] == a && h[j] == b ==> i < j
  }

  /** All messages of the world, each once, every effect after its cause. */
  ghost predicate History(w: World, h: seq<Message>) {
    && (forall i, j :: 0 <= i < j < |h| ==> h[i] != h[j])
    && (forall m :: m in h <==> m in w.net)
    && (forall p :: p in w.answers || p in w.follows ==> Before(h, p.0, p.1))
  }

  lemma BeforeTransitive(h: seq<Message>, a: Message, b: Message, c: Message)
    requires Before(h, a, b) && Before(h, b, c) && b in h
    ensures Before(h, a, c)
  {
    var k :| 0 <= k < |h| && h[k] == b;
  }

  /** Two messages of one order in the same role are the same message. */
  lemma SameRole(order: Message, w: World, a: Message, b: Message)
    requires Live(order, w) && a in w.net && b in w.net && CommandOf(a) == CommandOf(b) && Question(a) == Question(b)
    ensures a == b
  {
    hide Live, Inv, Question;
    if CommandOf(a) != NotACommand {
      LiveKeepsInv(order, w);
      SameCommand(order, w, a, b);
    } else if Question(a) != NotACommand {
      OneReplyEach(order, w, a, b);
    } else {
      RoleOfOrder(a);
      RoleOfOrder(b);
      OneOrder(order, w, a);
      OneOrder(order, w, b);
    }
  }

  lemma LiveKeepsInv(order: Message, w: World)
    requires Live(order, w)
    ensures Inv(order, w)
  {
    hide Inv;
  }

  lemma RoleOfOrder(a: Message)
    requires CommandOf(a) == Question(a) == NotACommand
    ensures a.OrderCreated?
  {
  }

  lemma SameCommand(order: Message, w: World, a: Message, b: Message)
    requires Inv(order, w) && a in w.net && b in w.net && CommandOf(a) == CommandOf(b) != NotACommand
    ensures a == b
  {
    hide Sound, Story, Explained, CommandOf;
    DecidedCommandsDiffer(w.saga);
    CommandInNetWasIssued(order, w.saga.issued, w.net, w.answers, a);
    CommandInNetWasIssued(order, w.saga.issued, w.net, w.answers, b);
    var i :| 0 <= i < |w.saga.issued| && w.saga.issued[i] == a;
    var j :| 0 <= j < |w.saga.issued| && w.saga.issued[j] == b;
    assert i == j;
  }

  /** Whatever is on the network, other than the order, comes after what caused it. */
  lemma Cause(order: Message, w: World, h: seq<Message>, m: Message) returns (c: Message)
    requires Inv(order, w) && Causal(w) && History(w, h) && m in w.net && !m.OrderCreated?
    ensures c in w.net && ((c, m) in w.answers || (c, m) in w.follows) && Before(h, c, m) &&
            (Triggers(c, m) || Answers(c, m))
  {
    hide Sound, Story, CommandOf, Triggers, Answers, Before;
    if CommandOf(m) != NotACommand {
      var p :| p in w.follows && p.1 == m;
      c := p.0;
      assert p == (c, m);
    } else {
      c := ReplyInNetWasAsked(order, w.saga.issued, w.net, w.answers, m);
      assert (c, m) in w.answers;
      assert Before(h, (c, m).0, (c, m).1);
    }
  }

  // -------------------------------------------------------------------- the main line of an order

  /** Position on the way from the order to the shipment; 0 for messages beside that way. */
  function Stage(m: Message): nat {
    match m
    case OrderCreated(_, _, _) => 1
    case PaymentRequested(_, _) => 2
    case PaymentAuthorized(_, _, _, _) | PaymentRejected(_) => 3
    case InventoryReservationRequested(_) => 4
    case InventoryReserved(_, _) | InventoryReservationFailed(_, _) => 5
    case FraudCheckRequested(_, _, _) => 6
    case FraudApproved(_) | FraudRejected(_, _) => 7
    case ShipmentRequested(_, _) => 8
    case ShipmentCreated(_, _, _) | ShipmentFailed(_) => 9
    case _ => 0
  }

  /** Events after which nothing further happens on the main line. */
  predicate Closing(m: Message) {
    m.PaymentRejected? || m.InventoryReservationFailed? || m.FraudRejected? || m.ShipmentFailed? || m.ShipmentCreated?
  }

  lemma CauseIsOneStageBack(c: Message, m: Message)
    requires Stage(m) > 1 && (Triggers(c, m) || Answers(c, m))
    ensures Stage(c) == Stage(m) - 1 && !Closing(c)
  {
  }

  lemma StageIsRole(a: Message, b: Message)
    requires Stage(a) == Stage(b) > 0
    ensures CommandOf(a) == CommandOf(b) && Question(a) == Question(b)
  {
  }

  /** Everything up to the stage of `m` is at or before `m`, and nothing before it closed. */
  lemma {:induction false} MainLine(order: Message, w: World, h: seq<Message>, m: Message, x: Message)
    requires Live(order, w) && Causal(w) && History(w, h) && m in w.net && x in w.net && 0 < Stage(x) <= Stage(m)
    ensures x == m || (Before(h, x, m) && !Closing(x))
    decreases Stage(m)
  {
    hide Live, Inv, Causal, Stage, Triggers, Answers, Before, CommandOf, Question, Closing;
    if Stage(x) == Stage(m) {
      StageIsRole(x, m);
      SameRole(order, w, x, m);
    } else {
      OrderIsFirstStage(m);
      LiveKeepsInv(order, w);
      var c := Cause(order, w, h, m);
      CauseIsOneStageBack(c, m);
      MainLine(order, w, h, c, x);
      if x != c {
        BeforeTransitive(h, x, c, m);
      }
    }
  }

  lemma OrderIsFirstStage(m: Message)
    ensures m.OrderCreated? <==> Stage(m) == 1
  {
  }

  /** A closing event is the last of its order's main line. */
  lemma ClosingIsLast(order: Message, w: World, h: seq<Message>, e: Message, x: Message)
    requires Live(order, w) && Causal(w) && History(w, h) && e in w.net && x in w.net && Closing(e) && 0 < Stage(x)
    ensures x == e || Before(h, x, e)
  {
    hide Live, Causal, History, Before;
    if Stage(x) <= Stage(e) {
      MainLine(order, w, h, e, x);
    } else {
      MainLine(order, w, h, x, e);
    }
  }

  predicate Ending(m: Message) {
    m.OrderCompleted? || m.OrderCancelled? || m.OrderFailed?
  }

  lemma EndingCause(c: Message, m: Message)
    requires (Ending(m) || m.PaymentRefunded? || m.PaymentRefundRequested? || m.InventoryReleased?) &&
             (Triggers(c, m) || Answers(c, m))
    ensures Ending(m) ==> Closing(c) || c.PaymentRefunded? || c.InventoryReleased?
    ensures m.PaymentRefunded? ==> c.PaymentRefundRequested?
    ensures m.PaymentRefundRequested? || m.InventoryReleased? ==> Closing(c)
    ensures !m.OrderCreated?
  {
  }

  /** A closing event stands before the refund request and the release. */
  lemma CompensationFollowsClosing(order: Message, w: World, h: seq<Message>, m: Message) returns (e: Message)
    requires Live(order, w) && Causal(w) && History(w, h) && m in w.net
    requires m.PaymentRefunded? || m.PaymentRefundRequested? || m.InventoryReleased?
    ensures e in w.net && Closing(e) && Before(h, e, m)
    decreases if m.PaymentRefunded? then 1 else 0
  {
    hide Live, Inv, Causal, Triggers, Answers, Before, Closing;
    LiveKeepsInv(order, w);
    var c := Cause(order, w, h, m);
    EndingCause(c, m);
    if m.PaymentRefunded? {
      e := CompensationFollowsClosing(order, w, h, c);
      BeforeTransitive(h, e, c, m);
    } else {
      e := c;
    }
  }

  /** The message that ends the order comes after everything on its main line. */
  lemma EndingIsLast(order: Message, w: World, h: seq<Message>, m: Message, x: Message)
    requires Live(order, w) && Causal(w) && History(w, h) && m in w.net && Ending(m) && x in w.net && 0 < Stage(x)
    ensures Before(h, x, m)
  {
    hide Live, Inv, Causal, Triggers, Answers, Before, Closing, Stage;
    LiveKeepsInv(order, w);
    var c := Cause(order, w, h, m);
    EndingCause(c, m);
    var e := c;
    if !Closing(c) {
      e := CompensationFollowsClosing(order, w, h, c);
      BeforeTransitive(h, e, c, m);
    }
    ClosingIsLast(order, w, h, e, x);
    if x != e {
      BeforeTransitive(h, x, e, m);
    }
  }

  /** After any faithful run, in every causal history, the message that ends the order comes
      after everything on its main line. */
  lemma EndingClosesHistory(order: Message, acts: seq<Act>, h: seq<Message>, m: Message, x: Message)
    requires order.OrderCreated? && FaithfulRun(order, acts) && History(Run(order, acts), h)
    requires m in Run(order, acts).net && Ending(m) && x in Run(order, acts).net && 0 < Stage(x)
    ensures Before(h, x, m)
  {
    hide Live, Causal, Run, FaithfulRun, Before, Stage, History;
    FaithfulRunsAreLive(order, acts);
    CausalAlways(order, acts);
    EndingIsLast(order, Run(order, acts), h, m, x);
  }

  /** A refund comes after the authorisation it undoes. */
  lemma RefundFollowsPayment(order: Message, w: World, h: seq<Message>, r: Message, p: Message)
    requires Live(order, w) && Causal(w) && History(w, h) && r in w.net && r.PaymentRefunded? && p in w.net &&
             p.PaymentAuthorized?
    ensures Before(h, p, r)
  {
    hide Live, Causal, Before;
    var e := CompensationFollowsClosing(order, w, h, r);
    ClosingIsLast(order, w, h, e, p);
    if p != e {
      BeforeTransitive(h, p, e, r) by { assert History(w, h); }
    }
  }
}
