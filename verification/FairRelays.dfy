/**
 Fair runs of the outbox exist: a row is inserted, claimed, sent and published, and from then
 on the clock ticks and the worker polls in turn.
 */
module FairRelays {
  import opened Contracts
  import opened Outbox
  import opened OutboxWorkers
  import opened OutboxDrain

  function Plan(n: nat): Step {
    if n == 0 then Insert(1, 1)
    else if n == 1 then Claim(0, 1, 30, {}, [1])
    else if n == 2 then Send(0, true, 0)
    else if n == 3 then MarkPublished(0, Returned, 0)
    else if n % 2 == 0 then Tick(1)
    else Claim(0, 1, 30, {}, [])
  }

  ghost function Planned(n: nat): Relays {
    if n == 0 then INITIAL else Next(Planned(n - 1), Plan(n - 1))
  }

  const FIRST: OutboxRow := NewRow(1, 0)
  const IN_PROGRESS: OutboxRow := Leased(FIRST, 0, 0, 30)
  const DONE: OutboxRow := Outbox.MarkedPublished(IN_PROGRESS, 0)
  const TOKEN: Token := Token(1, 1)

  /** The table, the clock and the worker's hands: all that decides which steps are enabled. */
  ghost predicate Looks(s: Relays, rows: Table, now: nat, hand: Worker) {
    s.rows == rows && s.now == now && At(s, 0) == hand && s.workers.Keys <= {0}
  }

  lemma Inserts(s: Relays)
    requires s == INITIAL
    ensures Looks(Next(s, Insert(1, 1)), map[1 := FIRST], 0, IDLE)
  {
  }

  lemma ClaimsIt(s: Relays)
    requires Looks(s, map[1 := FIRST], 0, IDLE)
    ensures Enabled(s, Claim(0, 1, 30, {}, [1]))
    ensures Looks(Next(s, Claim(0, 1, 30, {}, [1])), map[1 := IN_PROGRESS], 0, Worker([TOKEN], Ready))
  {
    var ids: seq<Id> := [1];
    assert Elements(ids) == {1} && Free(s.rows, {}, 0) == {1};
    assert Takes(s.rows, {}, 0, 1, {1});
    assert Tokens(s.rows, ids) == [TOKEN];
    assert Claimed(s.rows, {1}, 0, 0, 30) == map[1 := IN_PROGRESS];
  }

  lemma SendsIt(s: Relays)
    requires Looks(s, map[1 := IN_PROGRESS], 0, Worker([TOKEN], Ready))
    ensures Works(s, Send(0, true, 0), 0)
    ensures Looks(Next(s, Send(0, true, 0)), map[1 := IN_PROGRESS], 0, Worker([TOKEN], Acked))
  {
  }

  lemma PublishesIt(s: Relays)
    requires Looks(s, map[1 := IN_PROGRESS], 0, Worker([TOKEN], Acked))
    ensures Works(s, MarkPublished(0, Returned, 0), 0)
    ensures Looks(Next(s, MarkPublished(0, Returned, 0)), map[1 := DONE], 0, IDLE)
  {
    assert [TOKEN][1..] == [];
  }

  lemma PollsInVain(s: Relays, now: nat, id: Id)
    requires Looks(s, map[1 := DONE], now, IDLE)
    ensures Polls(s, Claim(0, 1, 30, {}, []), id)
    ensures Looks(Next(s, Claim(0, 1, 30, {}, [])), map[1 := DONE], now, IDLE)
  {
    var ids: seq<Id> := [];
    assert Elements(ids) == {} && Free(s.rows, {}, now) == {};
    assert Takes(s.rows, {}, now, 1, {});
    assert Tokens(s.rows, ids) == [];
  }

  lemma Ticks(s: Relays, now: nat)
    requires Looks(s, map[1 := DONE], now, IDLE)
    ensures Looks(Next(s, Tick(1)), map[1 := DONE], now + 1, IDLE)
  {
  }

  lemma Opening()
    ensures Looks(Planned(1), map[1 := FIRST], 0, IDLE)
    ensures Looks(Planned(2), map[1 := IN_PROGRESS], 0, Worker([TOKEN], Ready))
    ensures Looks(Planned(3), map[1 := IN_PROGRESS], 0, Worker([TOKEN], Acked))
    ensures Looks(Planned(4), map[1 := DONE], 0, IDLE)
    ensures Works(Planned(2), Plan(2), 0) && Works(Planned(3), Plan(3), 0)
  {
    hide Next, Looks, Works, Enabled;
    Inserts(Planned(0));
    ClaimsIt(Planned(1));
    SendsIt(Planned(2));
    PublishesIt(Planned(3));
  }

  lemma {:induction false} Forever(n: nat)
    requires n >= 4
    ensures Looks(Planned(n), map[1 := DONE], (n - 3) / 2, IDLE)
  {
    hide Next, Looks, Polls;
    if n == 4 {
      Opening();
    } else {
      Forever(n - 1);
      if (n - 1) % 2 == 0 {
        Ticks(Planned(n - 1), (n - 4) / 2);
      } else {
        PollsInVain(Planned(n - 1), (n - 4) / 2, 0);
      }
    }
  }

  lemma HandsEmpty(n: nat, w: Id)
    requires Batch(Planned(n), w) != []
    ensures w == 0 && (n == 2 || n == 3)
  {
    hide Next;
    if n >= 4 {
      Forever(n);
    } else {
      Opening();
    }
  }

  lemma PollTime(n: nat, id: Id)
    requires n >= 5 && n % 2 == 1
    ensures Polls(Planned(n), Plan(n), id)
  {
    hide Next, Looks, Polls;
    Forever(n);
    PollsInVain(Planned(n), (n - 3) / 2, id);
  }

  lemma ClockTime(n: nat)
    requires n >= 4
    ensures Planned(n).now == (n - 3) / 2
  {
    hide Next;
    Forever(n);
  }

  /** Some run is fair, and its row ends published. */
  lemma SomeRunIsFair() returns (trace: nat -> Relays, steps: nat -> Step)
    ensures FairRun(trace, steps) && 1 in trace(4).rows && trace(4).rows[1].status == PUBLISHED
  {
    hide Next, Works, Polls, Looks, Planned;
    trace := (n: nat) => Planned(n);
    steps := (n: nat) => Plan(n);
    assert trace(0) == INITIAL by { FirstState(); }
    forall n: nat
      ensures StepsAt(trace, steps, n)
    {
      OneStep(n);
    }
    forall n: nat, w: Id | Batch(trace(n), w) != []
      ensures WorksLater(trace, steps, n, w)
    {
      HandsEmpty(n, w);
      Opening();
      assert Works(trace(n), steps(n), w);
    }
    forall n: nat, id: Id
      ensures PolledLater(trace, steps, n, id)
    {
      PollTime(2 * n + 5, id);
      assert Polls(trace(2 * n + 5), steps(2 * n + 5), id);
    }
    forall n: nat, time: nat
      ensures Reaches(trace, n, time)
    {
      var m := 2 * time + 2 * n + 6;
      ClockTime(m);
      assert trace(m).now > time;
    }
    assert trace(4).rows == map[1 := DONE] by { RowAtFour(); }
  }

  lemma FirstState()
    ensures Planned(0) == INITIAL
  {
  }

  lemma OneStep(n: nat)
    ensures Planned(n + 1) == Next(Planned(n), Plan(n))
  {
    hide Next;
  }

  lemma RowAtFour()
    ensures Planned(4).rows == map[1 := DONE]
  {
    hide Next, Works;
    Opening();
  }
}
