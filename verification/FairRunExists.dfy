/**
 Fair runs exist: a declined order, followed act by act until nothing is due. The
 termination theorem is therefore not a statement about nothing.
 */
module FairRunExists {
  import opened Contracts
  import opened Saga
  import opened SagaConcurrency
  import opened Consumers
  import opened Fulfilment
  import opened Progress
  import opened Liveness

  const ORDER: Message := OrderCreated(6, 40.0, [Item(1, 2)])
  const PAY: Message := PaymentRequested(6, 40.0)
  const DECLINE: Choice := Choice(true, 1, 0, 0, 5)
  const DECLINED: Message := PaymentRejected(5)
  const FAILURE: Message := OrderFailed(6, PaymentDeclined(5))

  const PAYING: Row := Row(PAYMENT_PENDING, PAYMENT, NewContext(ORDER), None)
  const ENDED: Row := Row(FAILED, TERMINAL, NewContext(ORDER), Some(PaymentDeclined(5)))

  function ActAt(n: nat): Act {
    match n
    case 0 => Orchestrate(Read(Orders, ORDER))
    case 1 => Orchestrate(Save(Orders))
    case 2 => Orchestrate(Emit(Orders))
    case 3 => Respond(PAY, DECLINE)
    case 4 => Orchestrate(Read(Payments, DECLINED))
    case 5 => Orchestrate(Save(Payments))
    case _ => Orchestrate(Emit(Payments))
  }

  function WorldAt(n: nat): World {
    if n == 0 then Begin(ORDER) else Do(WorldAt(n - 1), ActAt(n - 1))
  }

  /** A world of this run, up to the handlers' record keeping. */
  ghost predicate Looks(w: World, row: Option<Row>, orders: Handler, payments: Handler, taken: seq<Message>,
                        issued: seq<Message>,
                        net: set<Message>, answers: set<(Message, Message)>) {
    && w.saga.row == row && w.saga.taken == taken && w.saga.issued == issued && w.net == net && w.answers == answers
    && At(w.saga, Orders) == orders && At(w.saga, Payments) == payments
    && At(w.saga, Inventory).Idle? && At(w.saga, Fraud).Idle? && At(w.saga, Shipping).Idle?
    && At(w.saga, Notifications).Idle?
  }

  lemma FirstActs()
    ensures Looks(WorldAt(0), None, Idle, Idle, [], [], {ORDER}, {})
    ensures Looks(WorldAt(1), None, Loaded(0, ORDER, None), Idle, [ORDER], [], {ORDER}, {})
    ensures Looks(WorldAt(2), Some(PAYING), Emitting(ORDER, 0, 1), Idle, [ORDER], [PAY], {ORDER}, {})
    ensures Looks(WorldAt(3), Some(PAYING), Idle, Idle, [ORDER], [PAY], {ORDER, PAY}, {})
  {
    assert WorldAt(1) == Do(WorldAt(0), ActAt(0));
    assert WorldAt(2) == Do(WorldAt(1), ActAt(1));
    assert WorldAt(3) == Do(WorldAt(2), ActAt(2));
  }

  lemma LastActs()
    ensures Looks(WorldAt(4), Some(PAYING), Idle, Idle, [ORDER], [PAY], {ORDER, PAY, DECLINED}, {(PAY, DECLINED)})
    ensures Looks(WorldAt(5), Some(PAYING), Idle, Loaded(1, DECLINED, Some(PAYING)), [ORDER, DECLINED], [PAY],
                  {ORDER, PAY, DECLINED}, {(PAY, DECLINED)})
    ensures Looks(WorldAt(6), Some(ENDED), Idle, Emitting(DECLINED, 1, 2), [ORDER, DECLINED], [PAY, FAILURE],
                  {ORDER, PAY, DECLINED}, {(PAY, DECLINED)})
    ensures Looks(WorldAt(7), Some(ENDED), Idle, Idle, [ORDER, DECLINED], [PAY, FAILURE],
                  {ORDER, PAY, DECLINED, FAILURE}, {(PAY, DECLINED)})
  {
    hide WorldAt, Do, Looks, ActAt;
    FirstActs();
    Unfolds(3);
    Declining(WorldAt(3));
    Unfolds(4);
    Reading4(WorldAt(4));
    Unfolds(5);
    Saving5(WorldAt(5));
    Unfolds(6);
    Sending6(WorldAt(6));
  }

  lemma Declining(w: World)
    requires Looks(w, Some(PAYING), Idle, Idle, [ORDER], [PAY], {ORDER, PAY}, {})
    ensures Looks(Do(w, ActAt(3)), Some(PAYING), Idle, Idle, [ORDER], [PAY], {ORDER, PAY, DECLINED}, {(PAY, DECLINED)})
  {
    assert Reply(PAY, DECLINE) == Some(DECLINED);
  }

  lemma Reading4(w: World)
    requires Looks(w, Some(PAYING), Idle, Idle, [ORDER], [PAY], {ORDER, PAY, DECLINED}, {(PAY, DECLINED)})
    ensures Looks(Do(w, ActAt(4)), Some(PAYING), Idle, Loaded(1, DECLINED, Some(PAYING)), [ORDER, DECLINED], [PAY],
                  {ORDER, PAY, DECLINED}, {(PAY, DECLINED)})
  {
  }

  lemma Saving5(w: World)
    requires Looks(w, Some(PAYING), Idle, Loaded(1, DECLINED, Some(PAYING)), [ORDER, DECLINED], [PAY],
                   {ORDER, PAY, DECLINED}, {(PAY, DECLINED)})
    ensures Looks(Do(w, ActAt(5)), Some(ENDED), Idle, Emitting(DECLINED, 1, 2), [ORDER, DECLINED], [PAY, FAILURE],
                  {ORDER, PAY, DECLINED}, {(PAY, DECLINED)})
  {
  }

  lemma Sending6(w: World)
    requires Looks(w, Some(ENDED), Idle, Emitting(DECLINED, 1, 2), [ORDER, DECLINED], [PAY, FAILURE],
                   {ORDER, PAY, DECLINED}, {(PAY, DECLINED)})
    ensures Looks(Do(w, ActAt(6)), Some(ENDED), Idle, Idle, [ORDER, DECLINED], [PAY, FAILURE],
                  {ORDER, PAY, DECLINED, FAILURE}, {(PAY, DECLINED)})
  {
  }

  lemma Unfolds(n: nat)
    ensures WorldAt(n + 1) == Do(WorldAt(n), ActAt(n))
  {
  }

  lemma {:induction false} RestsFrom(n: nat)
    requires n >= 7
    ensures WorldAt(n) == WorldAt(7)
  {
    hide WorldAt, Do, Looks, ActAt;
    if n == 7 {
    } else {
      RestsFrom(n - 1);
      LastActs();
      Unfolds(n - 1);
      Resting7(WorldAt(7), n - 1);
    }
  }

  lemma Resting7(w: World, n: nat)
    requires n >= 7
    requires Looks(w, Some(ENDED), Idle, Idle, [ORDER, DECLINED], [PAY, FAILURE], {ORDER, PAY, DECLINED, FAILURE},
                   {(PAY, DECLINED)})
    ensures Do(w, ActAt(n)) == w
  {
    assert w.net + {} == w.net && w.follows + {} == w.follows;
  }

  /** Whatever is due in a world of this run is what the run does next. */
  lemma DueIsNext(n: nat, d: Duty)
    requires Due(WorldAt(n), d)
    ensures Discharges(WorldAt(n), ActAt(n), d)
  {
    hide WorldAt, React;
    FirstActs();
    LastActs();
    if n >= 7 {
      RestsFrom(n);
      NothingDueAtTheEnd(WorldAt(7), d);
    } else if n >= 4 {
      DueLate(WorldAt(n), n, d);
    } else {
      DueEarly(WorldAt(n), n, d);
    }
  }

  lemma NothingDueAtTheEnd(w: World, d: Duty)
    requires Looks(w, Some(ENDED), Idle, Idle, [ORDER, DECLINED], [PAY, FAILURE], {ORDER, PAY, DECLINED, FAILURE},
                   {(PAY, DECLINED)})
    ensures !Due(w, d)
  {
    assert (PAY, DECLINED) in w.answers;
    assert Answered(w, PAY);
    assert [ORDER, DECLINED][0] in w.saga.taken && [ORDER, DECLINED][1] in w.saga.taken;
  }

  lemma DueEarly(w: World, n: nat, d: Duty)
    requires n < 4 && Due(w, d)
    requires n == 0 ==> Looks(w, None, Idle, Idle, [], [], {ORDER}, {})
    requires n == 1 ==> Looks(w, None, Loaded(0, ORDER, None), Idle, [ORDER], [], {ORDER}, {})
    requires n == 2 ==> Looks(w, Some(PAYING), Emitting(ORDER, 0, 1), Idle, [ORDER], [PAY], {ORDER}, {})
    requires n == 3 ==> Looks(w, Some(PAYING), Idle, Idle, [ORDER], [PAY], {ORDER, PAY}, {})
    ensures Discharges(w, ActAt(n), d)
  {
    hide WorldAt;
    assert n > 0 ==> w.saga.taken[0] == ORDER;
  }

  lemma DueLate(w: World, n: nat, d: Duty)
    requires 4 <= n < 7 && Due(w, d)
    requires n == 4 ==> Looks(w, Some(PAYING), Idle, Idle, [ORDER], [PAY], {ORDER, PAY, DECLINED}, {(PAY, DECLINED)})
    requires n == 5 ==> Looks(w, Some(PAYING), Idle, Loaded(1, DECLINED, Some(PAYING)), [ORDER, DECLINED], [PAY],
                              {ORDER, PAY, DECLINED}, {(PAY, DECLINED)})
    requires n == 6 ==> Looks(w, Some(ENDED), Idle, Emitting(DECLINED, 1, 2), [ORDER, DECLINED], [PAY, FAILURE],
                              {ORDER, PAY, DECLINED}, {(PAY, DECLINED)})
    ensures Discharges(w, ActAt(n), d)
  {
    hide WorldAt;
    assert (PAY, DECLINED) in w.answers;
    assert Answered(w, PAY);
    assert w.saga.taken[0] == ORDER;
    assert n > 4 ==> w.saga.taken[1] == DECLINED;
  }

  lemma FaithfulAt(n: nat)
    ensures Faithful(WorldAt(n), ActAt(n))
  {
    hide WorldAt, React;
    FirstActs();
  }

  /** There is a fair run without failures. */
  lemma SomeRunIsFair()
    ensures FairRun(ORDER, WorldAt, ActAt)
  {
    hide WorldAt, ActAt, Due, Discharges, Faithful, Do;
    forall n: nat
      ensures StepAt(WorldAt, ActAt, n)
    {
      Unfolds(n);
      FaithfulAt(n);
    }
    forall n: nat, d: Duty | Due(WorldAt(n), d)
      ensures EventuallyDischarged(WorldAt, ActAt, n, d)
    {
      DueIsNext(n, d);
    }
    assert WorldAt(0) == Begin(ORDER) by { FirstWorld(); }
  }

  lemma FirstWorld()
    ensures WorldAt(0) == Begin(ORDER)
  {
  }
}
