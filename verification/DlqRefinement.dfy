/**
 The step system of consumers and replays does what the consumer and the replay service do: an
 undisturbed sequence of its steps leaves the tables as one call of `handleMessage` or
 `replayDLQ` leaves them.
 */
module DlqRefinement {
  import opened Contracts
  import opened IdempotentConsumer
  import opened DlqReplay
  import Outbox

  function RunFrom(p: Platform, steps: seq<Step>, retries: nat): Platform
    decreases |steps|
  {
    if steps == [] then p else Next(RunFrom(p, steps[..|steps| - 1], retries), steps[|steps| - 1], retries)
  }

  lemma RunSnoc(p: Platform, steps: seq<Step>, step: Step, retries: nat)
    ensures RunFrom(p, steps + [step], retries) == Next(RunFrom(p, steps, retries), step, retries)
  {
    assert (steps + [step])[..|steps|] == steps;
  }

  // ------------------------------------------------------------------------------ deliveries

  function Repeat(pair: Pair, k: nat): seq<Pair> {
    if k == 0 then [] else Repeat(pair, k - 1) + [pair]
  }

  /** A delivery and its first `k` attempts. */
  function Attempts(pair: Pair, script: nat -> Attempt, k: nat): seq<Step> {
    if k == 0 then [Deliver(pair)] else Attempts(pair, script, k - 1) + [Try(pair, script(k - 1))]
  }

  /** The whole delivery: attempts up to the first success, or all of them and the dead letter. */
  function Delivery(pair: Pair, script: nat -> Attempt, n: nat, letter: Id, commits: bool, now: nat): seq<Step> {
    var first := FirstSuccess(script, 0, n);
    if first < n then Attempts(pair, script, first + 1)
    else Attempts(pair, script, n) + [GiveUp(pair, letter, commits, now)]
  }

  /** The platform after `k` attempts that did not succeed. */
  ghost function Midway(p: Platform, pair: Pair, script: nat -> Attempt, k: nat): Platform {
    p.(store := MarksAfter(p.store, pair, script, k), handlers := p.handlers[pair := Handler(k)],
       calls := p.calls + Repeat(pair, k))
  }

  /** One more attempt that does not succeed. */
  lemma TryRefines(p: Platform, pair: Pair, script: nat -> Attempt, n: nat, k: nat)
    requires k < n && !script(k).Succeeded?
    ensures Next(Midway(p, pair, script, k), Try(pair, script(k)), n) == Midway(p, pair, script, k + 1)
  {
    hide MarksAfter, Marked;
    MarksAfterOne(p.store, pair, script, k);
    var mid := Midway(p, pair, script, k);
    assert mid.calls + [pair] == p.calls + Repeat(pair, k + 1);
    assert mid.handlers[pair := Handler(k + 1)] == p.handlers[pair := Handler(k + 1)];
  }

  lemma DeliverRefines(p: Platform, pair: Pair, script: nat -> Attempt, n: nat)
    requires pair !in p.handlers && !IsProcessed(p.store, pair)
    ensures RunFrom(p, Attempts(pair, script, 0), n) == Midway(p, pair, script, 0)
  {
    hide MarksAfter;
    NoneMarked(p.store, pair, script);
    assert [] + [Deliver(pair)] == Attempts(pair, script, 0);
    RunSnoc(p, [], Deliver(pair), n);
    assert p.calls + [] == p.calls;
  }

  lemma {:induction false} AttemptsRefine(p: Platform, pair: Pair, script: nat -> Attempt, n: nat, k: nat)
    requires pair !in p.handlers && !IsProcessed(p.store, pair) && k <= FirstSuccess(script, 0, n)
    ensures RunFrom(p, Attempts(pair, script, k), n) == Midway(p, pair, script, k)
  {
    hide Next, RunFrom, Midway, FirstSuccess;
    if k == 0 {
      DeliverRefines(p, pair, script, n);
    } else {
      AttemptsRefine(p, pair, script, n, k - 1);
      RunSnoc(p, Attempts(pair, script, k - 1), Try(pair, script(k - 1)), n);
      TryRefines(p, pair, script, n, k - 1);
    }
  }

  /** A delivery that nothing disturbs leaves the tables and the calls of one `handleMessage`. */
  lemma DeliveryRefines(p: Platform, pair: Pair, script: nat -> Attempt, n: nat, letter: Id, commits: bool, now: nat)
    requires pair !in p.handlers && !IsProcessed(p.store, pair)
    requires letter !in p.store.dlq && letter !in p.store.dlqOutbox
    ensures var ending := EndingOf(p.store, Valid(pair.0), true, pair.1, script, n, commits);
            RunFrom(p, Delivery(pair, script, n, letter, commits, now), n) ==
            p.(store := StoreAfter(p.store, Valid(pair.0), pair.1, script, n, ending, letter, now),
               calls := p.calls + Repeat(pair, CallsOf(ending, Valid(pair.0), script, n)))
  {
    hide MarksAfter, FirstSuccess, RunFrom, DeadLetter, Marked;
    var first := FirstSuccess(script, 0, n);
    AttemptsRefine(p, pair, script, n, first);
    var mid := Midway(p, pair, script, first);
    assert mid.handlers - {pair} == p.handlers;
    assert pair == (pair.0, pair.1);
    if first < n {
      RunSnoc(p, Attempts(pair, script, first), Try(pair, script(first)), n);
      MarkedTwice(p.store, pair, script, first);
      assert mid.calls + [pair] == p.calls + Repeat(pair, first + 1);
    } else {
      RunSnoc(p, Attempts(pair, script, n), GiveUp(pair, letter, commits, now), n);
      OverwritesMark(p.store, pair, script, n, letter, now);
      MarksOnly(p.store, pair, script, n);
    }
  }

  lemma MarksOnly(s: Store, pair: Pair, script: nat -> Attempt, k: nat)
    ensures MarksAfter(s, pair, script, k).dlq == s.dlq && MarksAfter(s, pair, script, k).dlqOutbox == s.dlqOutbox
  {
  }

  /** A delivery is refused exactly when `handleMessage` would skip it or is at work on it. */
  lemma RefusedExactly(p: Platform, pair: Pair, script: nat -> Attempt, n: nat, commits: bool)
    ensures Next(p, Deliver(pair), n) == p <==>
            pair in p.handlers || EndingOf(p.store, Valid(pair.0), true, pair.1, script, n, commits) == Skipped
  {
    assert pair == (pair.0, pair.1);
    if pair !in p.handlers && !IsProcessed(p.store, pair) {
      assert pair in Next(p, Deliver(pair), n).handlers;
    }
  }

  /** An unparsable message leaves the tables as `handleMessage` does. */
  lemma RejectRefines(p: Platform, consumer: Id, script: nat -> Attempt, n: nat, letter: Id, commits: bool, now: nat)
    requires letter !in p.store.dlq && letter !in p.store.dlqOutbox
    ensures var ending := EndingOf(p.store, Malformed, true, consumer, script, n, commits);
            Next(p, Reject(consumer, letter, commits, now), n) ==
            p.(store := StoreAfter(p.store, Malformed, consumer, script, n, ending, letter, now))
  {
    hide MalformedLetter;
  }

  // --------------------------------------------------------------------------------- replays

  /** The statements of a replay, with how each of them ends, up to its last. */
  function Statements(r: Id, original: bool, results: nat -> Result): seq<Step> {
    var a, b, c, d, e := Continue(r, results(0)), Continue(r, results(1)), Continue(r, results(2)),
                         Continue(r, results(3)),
                         Continue(r, results(4));
    if !results(0).Fine? then [a, e]
    else if !results(1).Fine? then [a, b, e]
    else if !original || !results(2).Fine? then [a, b, c, e]
    else if !results(3).Fine? then [a, b, c, d, e]
    else [a, b, c, d]
  }

  /** The platform with replay `r` of letter `d` at a stage. */
  ghost predicate AtStage(q: Platform, p: Platform, r: Id, d: Id, stage: Stage, status: DlqStatus, cleared: bool,
                          sent: bool)
    requires d in p.store.dlq
  {
    var row := p.store.dlq[d];
    && q.store == p.store.(marks := if cleared then p.store.marks - {PairOf(row)} else p.store.marks,
                           dlq := p.store.dlq[d := row.(status := status)])
    && q.republished == (if sent then p.republished + {d} else p.republished)
    && q.replays == p.replays[r := Replay(d, row, stage)]
    && q.handlers == p.handlers && q.calls == p.calls
  }

  lemma Starts(p: Platform, r: Id, d: Id, retries: nat)
    requires r !in p.replays && d in p.store.dlq && p.store.dlq[d].status != DISCARDED
    ensures AtStage(Next(p, StartReplay(r, d), retries), p, r, d, Opening, p.store.dlq[d].status, false, false)
  {
    var row := p.store.dlq[d];
    assert p.store.dlq[d := row.(status := row.status)] == p.store.dlq;
  }

  lemma Opens(q: Platform, p: Platform, r: Id, d: Id, result: Result, retries: nat)
    requires r !in p.replays && d in p.store.dlq && AtStage(q, p, r, d, Opening, p.store.dlq[d].status, false, false)
    ensures AtStage(Next(q, Continue(r, result), retries), p, r, d, if result.Fine? then Clearing else Reverting,
                    if Happens(result) then REPLAYING else p.store.dlq[d].status, false, false)
  {
  }

  lemma Clears(q: Platform, p: Platform, r: Id, d: Id, result: Result, retries: nat)
    requires r !in p.replays && d in p.store.dlq && AtStage(q, p, r, d, Clearing, REPLAYING, false, false)
    ensures AtStage(Next(q, Continue(r, result), retries), p, r, d, if result.Fine? then Sending else Reverting,
                    REPLAYING, Happens(result), false)
  {
  }

  lemma Sends(q: Platform, p: Platform, r: Id, d: Id, result: Result, retries: nat)
    requires r !in p.replays && d in p.store.dlq && AtStage(q, p, r, d, Sending, REPLAYING, true, false)
    ensures var acked := p.store.dlq[d].original && result.Fine?;
            AtStage(Next(q, Continue(r, result), retries), p, r, d, if acked then Resolving
                                                            else Reverting, REPLAYING, true, acked)
  {
  }

  /** The replay is over: only the tables and the acknowledged republications differ. */
  ghost predicate Over(q: Platform, p: Platform, d: Id, status: DlqStatus, cleared: bool, sent: bool)
    requires d in p.store.dlq
  {
    var row := p.store.dlq[d];
    && q.store == p.store.(marks := if cleared then p.store.marks - {PairOf(row)} else p.store.marks,
                           dlq := p.store.dlq[d := row.(status := status)])
    && q.republished == (if sent then p.republished + {d} else p.republished)
    && q.replays == p.replays && q.handlers == p.handlers && q.calls == p.calls
  }

  lemma Resolves(q: Platform, p: Platform, r: Id, d: Id, result: Result, retries: nat)
    requires r !in p.replays && d in p.store.dlq && AtStage(q, p, r, d, Resolving, REPLAYING, true, true)
    ensures var q' := Next(q, Continue(r, result), retries);
            if result.Fine? then Over(q', p, d, REPLAYED, true, true)
            else AtStage(q', p, r, d, Reverting, if result.committed then REPLAYED else REPLAYING, true, true)
  {
    assert q.replays - {r} == p.replays;
  }

  lemma Reverts(q: Platform, p: Platform, r: Id, d: Id, status: DlqStatus, cleared: bool, sent: bool, result: Result,
                retries: nat)
    requires r !in p.replays && d in p.store.dlq && AtStage(q, p, r, d, Reverting, status, cleared, sent)
    ensures Over(Next(q, Continue(r, result), retries), p, d, if Happens(result) then UNRESOLVED
                                                            else status, cleared, sent)
  {
    assert q.replays - {r} == p.replays;
  }

  /** From the opened replay to the end of its sends: where it stands and what it has done. */
  lemma ReplayUpToSend(p: Platform, r: Id, d: Id, results: nat -> Result, retries: nat)
    returns (steps: seq<Step>, status: DlqStatus, cleared: bool)
    requires r !in p.replays && d in p.store.dlq && p.store.dlq[d].status != DISCARDED
    ensures var row := p.store.dlq[d];
            && cleared == (results(0).Fine? && Happens(results(1)))
            && status == (if Happens(results(0)) then REPLAYING else row.status)
            && AtStage(RunFrom(p, steps, retries), p, r, d, if Republishes(row, results) then Resolving else Reverting,
                       status, cleared, Republishes(row, results))
    ensures steps == [StartReplay(r, d), Continue(r, results(0))] +
                     (if !results(0).Fine? then [] else if !results(1).Fine? then [Continue(r, results(1))]
                      else [Continue(r, results(1)), Continue(r, results(2))])
  {
    hide RunFrom, Next, AtStage;
    RunNothing(p, retries);
    assert [] + [StartReplay(r, d)] == [StartReplay(r, d)];
    RunSnoc(p, [], StartReplay(r, d), retries);
    Starts(p, r, d, retries);
    steps := [StartReplay(r, d)];
    Opens(RunFrom(p, steps, retries), p, r, d, results(0), retries);
    RunSnoc(p, steps, Continue(r, results(0)), retries);
    steps := steps + [Continue(r, results(0))];
    status, cleared := if Happens(results(0)) then REPLAYING else p.store.dlq[d].status, false;
    if results(0).Fine? {
      Clears(RunFrom(p, steps, retries), p, r, d, results(1), retries);
      RunSnoc(p, steps, Continue(r, results(1)), retries);
      steps, cleared := steps + [Continue(r, results(1))], Happens(results(1));
      if results(1).Fine? {
        Sends(RunFrom(p, steps, retries), p, r, d, results(2), retries);
        RunSnoc(p, steps, Continue(r, results(2)), retries);
        steps := steps + [Continue(r, results(2))];
      }
    }
  }

  /** A replay that nothing disturbs leaves the tables of one `replayDLQ`, and republishes the
      letter exactly when that does. */
  lemma ReplayRefines(p: Platform, r: Id, d: Id, results: nat -> Result, retries: nat)
    requires r !in p.replays && d in p.store.dlq && p.store.dlq[d].status != DISCARDED
    ensures var q := RunFrom(p, [StartReplay(r, d)] + Statements(r, p.store.dlq[d].original, results), retries);
            && q.store == ReplayedStore(p.store, d, results)
            && q.republished == (if Republishes(p.store.dlq[d], results) then p.republished + {d} else p.republished)
            && q.replays == p.replays && q.handlers == p.handlers && q.calls == p.calls
  {
    hide RunFrom, Next, AtStage;
    var row := p.store.dlq[d];
    var all := [StartReplay(r, d)] + Statements(r, row.original, results);
    var steps, status, cleared := ReplayUpToSend(p, r, d, results, retries);
    var sent := Republishes(row, results);
    if sent {
      Resolves(RunFrom(p, steps, retries), p, r, d, results(3), retries);
      RunSnoc(p, steps, Continue(r, results(3)), retries);
      steps := steps + [Continue(r, results(3))];
    }
    if sent && results(3).Fine? {
      assert all == steps;
    } else {
      if sent && results(3).committed {
        status := REPLAYED;
      }
      Reverts(RunFrom(p, steps, retries), p, r, d, status, cleared, sent, results(4), retries);
      RunSnoc(p, steps, Continue(r, results(4)), retries);
      assert all == steps + [Continue(r, results(4))];
    }
  }

  lemma RunNothing(p: Platform, retries: nat)
    ensures RunFrom(p, [], retries) == p
  {
  }
}
