/**
 The outbox drains. In every infinite run in which busy workers go on working (or die), the
 clock advances and idle workers keep polling, every row ends published, failed, or given up
 by its worker on the tenth attempt. Oldest-first claims are what keeps a row from starving.
 */
module OutboxDrain {
  import opened Contracts
  import opened Outbox
  import opened OutboxWorkers

  // ------------------------------------------------------------------------------- fair runs

  /** A busy worker's own step. */
  ghost predicate Works(s: Relays, step: Step, w: Id) {
    Enabled(s, step) && (step.Send? || step.MarkPublished? || step.MarkFailed? || step.Crash?) && step.worker == w
  }

  /** A claim that could take the row: it takes at least one row and does not find it locked. */
  ghost predicate Polls(s: Relays, step: Step, id: Id) {
    step.Claim? && Enabled(s, step) && step.limit > 0 && id !in step.locked
  }

  ghost predicate StepsAt(trace: nat -> Relays, steps: nat -> Step, n: nat) {
    trace(n + 1) == Next(trace(n), steps(n))
  }

  ghost predicate WorksLater(trace: nat -> Relays, steps: nat -> Step, n: nat, w: Id) {
    exists m: nat :: n <= m && Works(trace(m), steps(m), w)
  }

  ghost predicate PolledLater(trace: nat -> Relays, steps: nat -> Step, n: nat, id: Id) {
    exists m: nat :: n <= m && Polls(trace(m), steps(m), id)
  }

  ghost predicate Reaches(trace: nat -> Relays, n: nat, time: nat) {
    exists m: nat :: n <= m && trace(m).now > time
  }

  ghost predicate FairRun(trace: nat -> Relays, steps: nat -> Step) {
    && trace(0) == INITIAL
    && (forall n: nat :: StepsAt(trace, steps, n))
    && (forall n: nat, w: Id :: Batch(trace(n), w) != [] ==> WorksLater(trace, steps, n, w))
    && (forall n: nat, id: Id :: PolledLater(trace, steps, n, id))
    && (forall n: nat, time: nat :: Reaches(trace, n, time))
  }

  lemma {:induction false} InvAt(trace: nat -> Relays, steps: nat -> Step, n: nat)
    requires FairRun(trace, steps)
    ensures Inv(trace(n))
  {
    hide Inv, Next, PolledLater, WorksLater, Reaches;
    if n == 0 {
      InvInitially();
    } else {
      InvAt(trace, steps, n - 1);
      assert StepsAt(trace, steps, n - 1);
      InvNext(trace(n - 1), steps(n - 1));
    }
  }

  // -------------------------------------------------------------------- how far a row is from its end

  predicate InHand(s: Relays, id: Id) {
    && id in s.rows && s.rows[id].status.PROCESSING? && s.rows[id].owner.Some?
    && Token(id, s.rows[id].attempts) in Batch(s, s.rows[id].owner.value)
  }

  function Left(r: OutboxRow): nat {
    if r.attempts <= MAX_ATTEMPTS then MAX_ATTEMPTS - r.attempts else 0
  }

  function Distance(s: Relays, id: Id): nat
    requires id in s.rows
  {
    3 * Left(s.rows[id]) + if Ended(s, id) then 0 else if InHand(s, id) then 2 else 1
  }

  /** No step takes a row further from its end; if it stays as far, its row is unchanged. */
  lemma DistanceShrinks(s: Relays, step: Step, id: Id)
    requires Inv(s) && id in s.rows
    ensures id in Next(s, step).rows && Distance(Next(s, step), id) <= Distance(s, id)
    ensures Distance(Next(s, step), id) == Distance(s, id) ==>
              Next(s, step).rows[id] == s.rows[id] && InHand(Next(s, step), id) == InHand(s, id)
  {
    hide Next, Inv, Ended, InHand, RowOk;
    RowsMove(s, step, id);
    RowIsOk(s, id);
    InvNext(s, step);
    if Ended(s, id) {
      EndedStays(s, step, id);
      EndedNotInHand(s, id);
      EndedNotInHand(Next(s, step), id);
    } else if Next(s, step).rows[id] == s.rows[id] {
      if InHand(Next(s, step), id) {
        HandsOnlyByClaim(s, step, id);
      }
      EndedIsOut(s, step, id);
    } else {
      ChangedIsCloser(s, step, id);
    }
  }

  lemma RowIsOk(s: Relays, id: Id)
    requires Inv(s) && id in s.rows
    ensures RowOk(s.rows[id])
  {
    hide TokensOk, TokensDiffer, SendsOk, AcksOk, OwnersOk, LostOk, ClaimsOk, JournalOk, RowOk;
  }

  lemma EndedNotInHand(s: Relays, id: Id)
    requires Inv(s) && Ended(s, id)
    ensures !InHand(s, id)
  {
    hide TokensOk, TokensDiffer, SendsOk, AcksOk, OwnersOk, ClaimsOk, JournalOk, RowOk, RowsOk;
  }

  /** An unchanged row that is in hand after the step was in hand before. */
  lemma HandsOnlyByClaim(s: Relays, step: Step, id: Id)
    requires Inv(s) && id in s.rows && id in Next(s, step).rows && Next(s, step).rows[id] == s.rows[id] &&
             InHand(Next(s, step), id)
    ensures InHand(s, id)
  {
    hide Next, Enabled, RowsOk, TokensDiffer, SendsOk, AcksOk, OwnersOk, LostOk, ClaimsOk, JournalOk, Tokens;
    var w := s.rows[id].owner.value;
    var k := Token(id, s.rows[id].attempts);
    BatchesMove(s, step, w);
    if step.Claim? && w == step.worker && Enabled(s, step) {
      NewTokensAreNew(s.rows, step.ids, k) by { PositiveAttempts(s, id); }
    }
  }

  lemma PositiveAttempts(s: Relays, id: Id)
    requires Inv(s) && id in s.rows && s.rows[id].status.PROCESSING?
    ensures Issued(s.rows, Token(id, s.rows[id].attempts))
  {
    RowIsOk(s, id);
  }

  lemma EndedIsOut(s: Relays, step: Step, id: Id)
    requires Inv(s) && id in s.rows && id in Next(s, step).rows && Next(s, step).rows[id] == s.rows[id] && !Ended(s, id)
    ensures Ended(Next(s, step), id) ==> InHand(s, id)
    ensures InHand(s, id) && !InHand(Next(s, step), id) ==> Distance(Next(s, step), id) < Distance(s, id)
  {
    hide Next, RowsOk, TokensOk, TokensDiffer, SendsOk, AcksOk, LostOk, ClaimsOk, JournalOk;
  }

  lemma ChangedIsCloser(s: Relays, step: Step, id: Id)
    requires Inv(s) && id in s.rows && id in Next(s, step).rows && Next(s, step).rows[id] != s.rows[id] && !Ended(s, id)
    ensures Distance(Next(s, step), id) < Distance(s, id)
  {
    hide Next, TokensDiffer, SendsOk, AcksOk, OwnersOk, ClaimsOk, JournalOk;
    RowsMove(s, step, id);
    RowIsOk(s, id);
    if !step.Claim? {
      MarkedWasInHand(s, step.worker, id);
    }
  }

  /** Only a row in its owner's hands can be completed. */
  lemma MarkedWasInHand(s: Relays, w: Id, id: Id)
    requires Inv(s) && id in s.rows && Marks(s, w, id, s.rows[id])
    ensures InHand(s, id)
  {
    hide RowsOk, TokensDiffer, SendsOk, AcksOk, OwnersOk, LostOk, ClaimsOk, JournalOk;
    assert TokenOk(s.rows, w, Batch(s, w)[0]);
  }

  // ----------------------------------------------------------------------- a row in a worker's hands

  function PhaseRank(p: Phase): nat {
    match p
    case Ready => 2
    case Acked => 1
    case Errored(_) => 0
  }

  /** Steps the worker still takes before it is done with number `i` of its batch. */
  function Ahead(s: Relays, w: Id, i: nat): nat {
    3 * i + PhaseRank(At(s, w).phase)
  }

  /** A step of the worker brings it closer to the row, or completes it, or loses it. */
  lemma WorkAdvances(s: Relays, step: Step, id: Id, w: Id, i: nat) returns (j: nat)
    requires Inv(s) && id in s.rows && InHand(s, id) && s.rows[id].owner == Some(w) && Works(s, step, w)
    requires i < |Batch(s, w)| && Batch(s, w)[i] == Token(id, s.rows[id].attempts)
    requires id in Next(s, step).rows && Distance(Next(s, step), id) == Distance(s, id)
    ensures j < |Batch(Next(s, step), w)| && Batch(Next(s, step), w)[j] == Batch(s, w)[i]
    ensures Ahead(Next(s, step), w, j) < Ahead(s, w, i)
  {
    hide Inv, Distance, Publish, Fail, InHand, Ended;
    var s' := Next(s, step);
    DistanceShrinks(s, step, id);
    HandKeepsToken(s, s', id, w, Batch(s, w)[i]);
    assert Batch(s', w) != [];
    if Batch(s', w) == Batch(s, w) {
      j := i;
    } else {
      assert Batch(s', w) == Batch(s, w)[1..];
      if i == 0 {
        HeadIsGone(s, w);
        assert false;
      }
      j := i - 1;
    }
  }

  lemma HandKeepsToken(s: Relays, s': Relays, id: Id, w: Id, k: Token)
    requires InHand(s, id) && s.rows[id].owner == Some(w) && k == Token(id, s.rows[id].attempts)
    requires InHand(s', id) && s'.rows[id] == s.rows[id]
    ensures k in Batch(s', w)
  {
  }

  lemma HeadIsGone(s: Relays, w: Id)
    requires Inv(s) && Batch(s, w) != []
    ensures Batch(s, w)[0] !in Batch(s, w)[1..]
  {
    hide RowsOk, TokensOk, SendsOk, AcksOk, OwnersOk, LostOk, ClaimsOk, JournalOk;
    var b := Batch(s, w);
    assert NoRepeats(b);
  }

  lemma OthersLeaveHands(s: Relays, step: Step, w: Id)
    requires Batch(s, w) != [] && !Works(s, step, w)
    ensures At(Next(s, step), w) == At(s, w)
  {
    hide Takes, NoRepeats, Publish, Fail, Claimed, Inserted;
  }

  lemma {:induction false} HandResolves(trace: nat -> Relays, steps: nat -> Step, n: nat, id: Id, w: Id, i: nat, m: nat)
    returns (k: nat)
    requires FairRun(trace, steps) && id in trace(n).rows && InHand(trace(n), id) && trace(n).rows[id].owner == Some(w)
    requires i < |Batch(trace(n), w)| && Batch(trace(n), w)[i] == Token(id, trace(n).rows[id].attempts)
    requires n <= m && Works(trace(m), steps(m), w)
    ensures k >= n && id in trace(k).rows && Distance(trace(k), id) < Distance(trace(n), id)
    decreases Ahead(trace(n), w, i), m - n
  {
    hide Inv, Next, Distance, InHand, Works, PolledLater, Reaches;
    InvAt(trace, steps, n);
    assert StepsAt(trace, steps, n);
    DistanceShrinks(trace(n), steps(n), id);
    if Distance(trace(n + 1), id) < Distance(trace(n), id) {
      k := n + 1;
    } else if Works(trace(n), steps(n), w) {
      var j := WorkAdvances(trace(n), steps(n), id, w, i);
      assert WorksLater(trace, steps, n + 1, w);
      var m' :| n + 1 <= m' && Works(trace(m'), steps(m'), w);
      k := HandResolves(trace, steps, n + 1, id, w, j, m');
    } else {
      OthersLeaveHands(trace(n), steps(n), w);
      k := HandResolves(trace, steps, n + 1, id, w, i, m);
    }
  }

  // --------------------------------------------------------------------- a row waiting to be claimed

  function Weight(t: Table, x: Id, time: nat): nat {
    if x in t && t[x].created <= time then Left(t[x]) else 0
  }

  /** Claims that rows created up to `time` can still absorb. */
  function Budget(t: Table, ids: seq<Id>, time: nat): nat
    decreases |ids|
  {
    if ids == [] then 0 else Budget(t, ids[..|ids| - 1], time) + Weight(t, ids[|ids| - 1], time)
  }

  lemma {:induction false} BudgetShrinks(t: Table, t': Table, ids: seq<Id>, time: nat)
    requires forall x :: x in ids ==> Weight(t', x, time) <= Weight(t, x, time)
    ensures Budget(t', ids, time) <= Budget(t, ids, time)
    ensures (exists x :: x in ids && Weight(t', x, time) < Weight(t, x, time)) ==>
              Budget(t', ids, time) < Budget(t, ids, time)
    decreases |ids|
  {
    hide Weight;
    if ids == [] {
    } else {
      var n := |ids| - 1;
      assert ids == ids[..n] + [ids[n]];
      BudgetShrinks(t, t', ids[..n], time);
    }
  }

  lemma WeightShrinks(s: Relays, step: Step, x: Id, time: nat)
    requires x in s.rows
    ensures Weight(Next(s, step).rows, x, time) <= Weight(s.rows, x, time)
  {
    hide Next;
    AttemptsGrow(s, step, x);
  }

  lemma NewIsYounger(s: Relays, step: Step, time: nat)
    requires JournalOk(s) && s.now > time
    ensures Budget(Next(s, step).rows, Next(s, step).journal, time) == Budget(Next(s, step).rows, s.journal, time)
  {
    hide Takes, NoRepeats, Claimed, Publish, Fail;
    var s' := Next(s, step);
    if s'.journal != s.journal {
      assert s'.journal[..|s.journal|] == s.journal;
    }
  }

  lemma BudgetNext(s: Relays, step: Step, time: nat)
    requires JournalOk(s) && s.now > time
    ensures Budget(Next(s, step).rows, Next(s, step).journal, time) <= Budget(s.rows, s.journal, time)
    ensures (exists x :: x in s.rows && Weight(Next(s, step).rows, x, time) < Weight(s.rows, x, time)) ==>
              Budget(Next(s, step).rows, Next(s, step).journal, time) < Budget(s.rows, s.journal, time)
  {
    hide Next, Weight, Budget;
    NewIsYounger(s, step, time);
    forall x | x in s.journal
      ensures Weight(Next(s, step).rows, x, time) <= Weight(s.rows, x, time)
    {
      WeightShrinks(s, step, x, time);
    }
    BudgetShrinks(s.rows, Next(s, step).rows, s.journal, time);
  }

  /** A claim that passes over a free row takes an older one. */
  lemma PassedOver(s: Relays, step: Step, id: Id) returns (x: Id)
    requires Polls(s, step, id) && id in s.rows && Claimable(s.rows[id], s.now) && id !in step.ids
    ensures x in s.rows && Weight(Next(s, step).rows, x, s.rows[id].created) < Weight(s.rows, x, s.rows[id].created)
  {
    hide NoRepeats;
    var chosen, free := Elements(step.ids), Free(s.rows, step.locked, s.now);
    assert id in free && id !in chosen;
    assert |chosen| > 0 by { NonEmpty(free, id); }
    x :| x in chosen;
    assert x in free && id in free - chosen;
    assert s.rows[x].created <= s.rows[id].created;
  }

  lemma NonEmpty(a: set<Id>, x: Id)
    requires x in a
    ensures |a| > 0
  {
  }

  /** Nobody holds the row and its lease, if any, has run out. */
  ghost predicate Waiting(s: Relays, id: Id) {
    id in s.rows && !InHand(s, id) && Claimable(s.rows[id], s.now) && s.now > s.rows[id].created
  }

  lemma ClaimableLater(r: OutboxRow, now: nat, later: nat)
    requires Claimable(r, now) && now <= later
    ensures Claimable(r, later)
  {
  }

  lemma TimeGrows(s: Relays, step: Step)
    ensures s.now <= Next(s, step).now
  {
    hide Takes;
  }

  lemma WaitingStays(s: Relays, step: Step, id: Id)
    requires Inv(s) && Waiting(s, id) && id in Next(s, step).rows && Distance(Next(s, step), id) == Distance(s, id)
    ensures Waiting(Next(s, step), id)
  {
    hide Inv, Next, Distance, Claimable, InHand;
    DistanceShrinks(s, step, id);
    TimeGrows(s, step);
    ClaimableLater(s.rows[id], s.now, Next(s, step).now);
  }

  lemma JournalIsOk(s: Relays)
    requires Inv(s)
    ensures JournalOk(s)
  {
    hide RowsOk, TokensOk, TokensDiffer, SendsOk, AcksOk, OwnersOk, LostOk, ClaimsOk, JournalOk;
  }

  /** A claim that takes the row changes it. */
  lemma TakenChanges(s: Relays, step: Step, id: Id)
    requires step.Claim? && Enabled(s, step) && id in step.ids && id in s.rows
    ensures id in Next(s, step).rows && Next(s, step).rows[id] != s.rows[id]
  {
    hide Takes, NoRepeats;
    assert id in Elements(step.ids);
  }

  lemma {:induction false} ClaimComes(trace: nat -> Relays, steps: nat -> Step, n: nat, id: Id, m: nat) returns (k: nat)
    requires FairRun(trace, steps) && Waiting(trace(n), id) && n <= m && Polls(trace(m), steps(m), id)
    ensures k >= n && id in trace(k).rows && Distance(trace(k), id) < Distance(trace(n), id)
    decreases Budget(trace(n).rows, trace(n).journal, trace(n).rows[id].created), m - n
  {
    hide Inv, Next, Distance, InHand, Claimable, WorksLater, Reaches, Budget, Weight, Polls, JournalOk;
    InvAt(trace, steps, n);
    assert StepsAt(trace, steps, n);
    DistanceShrinks(trace(n), steps(n), id);
    if Distance(trace(n + 1), id) < Distance(trace(n), id) {
      k := n + 1;
    } else {
      WaitingStays(trace(n), steps(n), id);
      JournalIsOk(trace(n));
      BudgetNext(trace(n), steps(n), trace(n).rows[id].created);
      if Polls(trace(n), steps(n), id) {
        NotTaken(trace(n), steps(n), id);
        var x := PassedOver(trace(n), steps(n), id);
        assert PolledLater(trace, steps, n + 1, id);
        var m' :| n + 1 <= m' && Polls(trace(m'), steps(m'), id);
        k := ClaimComes(trace, steps, n + 1, id, m');
      } else {
        k := ClaimComes(trace, steps, n + 1, id, m);
      }
    }
  }

  lemma NotTaken(s: Relays, step: Step, id: Id)
    requires Polls(s, step, id) && id in s.rows && id in Next(s, step).rows && Next(s, step).rows[id] == s.rows[id]
    ensures id !in step.ids
  {
    hide Next, Enabled;
    if id in step.ids {
      TakenChanges(s, step, id);
    }
  }

  /** A row that is neither ended nor in hand only waits for the clock. */
  lemma OnlyTimeIsMissing(s: Relays, id: Id)
    requires Inv(s) && id in s.rows && !Ended(s, id) && !InHand(s, id)
    ensures forall now: nat :: (s.rows[id].expires.Some? ==> now > s.rows[id].expires.value) ==>
              Claimable(s.rows[id], now)
  {
    hide TokensOk, TokensDiffer, SendsOk, AcksOk, LostOk, ClaimsOk, JournalOk;
    RowIsOk(s, id);
  }

  function Deadline(r: OutboxRow): nat {
    var e := if r.expires.Some? then r.expires.value else 0;
    if e < r.created then r.created else e
  }

  lemma {:induction false} LeaseRunsOut(trace: nat -> Relays, steps: nat -> Step, n: nat, id: Id, m: nat)
    returns (k: nat)
    requires FairRun(trace, steps) && id in trace(n).rows && !Ended(trace(n), id) && !InHand(trace(n), id)
    requires n <= m && trace(m).now > Deadline(trace(n).rows[id])
    ensures k >= n && id in trace(k).rows && Distance(trace(k), id) < Distance(trace(n), id)
    decreases m - n
  {
    hide Inv, Next, Distance, InHand, Claimable, WorksLater, Reaches, PolledLater, Ended;
    InvAt(trace, steps, n);
    if n == m {
      OnlyTimeIsMissing(trace(n), id);
      assert Waiting(trace(n), id);
      assert PolledLater(trace, steps, n, id);
      k := PollComes(trace, steps, n, id);
    } else {
      assert StepsAt(trace, steps, n);
      DistanceShrinks(trace(n), steps(n), id);
      if Distance(trace(n + 1), id) < Distance(trace(n), id) {
        k := n + 1;
      } else {
        StillOpen(trace(n), trace(n + 1), id);
        k := LeaseRunsOut(trace, steps, n + 1, id, m);
      }
    }
  }

  lemma PollComes(trace: nat -> Relays, steps: nat -> Step, n: nat, id: Id) returns (k: nat)
    requires FairRun(trace, steps) && Waiting(trace(n), id) && PolledLater(trace, steps, n, id)
    ensures k >= n && id in trace(k).rows && Distance(trace(k), id) < Distance(trace(n), id)
  {
    hide FairRun, Waiting, Polls, Distance;
    var m: nat :| n <= m && Polls(trace(m), steps(m), id);
    k := ClaimComes(trace, steps, n, id, m);
  }

  lemma StillOpen(s: Relays, s': Relays, id: Id)
    requires id in s.rows && id in s'.rows && Distance(s', id) == Distance(s, id) && s'.rows[id] == s.rows[id] &&
             !Ended(s, id)
    ensures !Ended(s', id)
  {
    hide Ended, InHand;
  }

  lemma GetsCloser(trace: nat -> Relays, steps: nat -> Step, n: nat, id: Id) returns (k: nat)
    requires FairRun(trace, steps) && id in trace(n).rows && !Ended(trace(n), id)
    ensures k >= n && id in trace(k).rows && Distance(trace(k), id) < Distance(trace(n), id)
  {
    hide Inv, Next, Distance, Works, Polls, PolledLater, Ended;
    if InHand(trace(n), id) {
      var w := trace(n).rows[id].owner.value;
      var i :| 0 <= i < |Batch(trace(n), w)| && Batch(trace(n), w)[i] == Token(id, trace(n).rows[id].attempts);
      assert WorksLater(trace, steps, n, w);
      var m: nat :| n <= m && Works(trace(m), steps(m), w);
      k := HandResolves(trace, steps, n, id, w, i, m);
    } else {
      assert Reaches(trace, n, Deadline(trace(n).rows[id]));
      var m: nat :| n <= m && trace(m).now > Deadline(trace(n).rows[id]);
      k := LeaseRunsOut(trace, steps, n, id, m);
    }
  }

  lemma {:induction false} EndComes(trace: nat -> Relays, steps: nat -> Step, n: nat, id: Id) returns (k: nat)
    requires FairRun(trace, steps) && id in trace(n).rows
    ensures k >= n && Ended(trace(k), id)
    decreases Distance(trace(n), id)
  {
    hide FairRun, Distance, Ended;
    if Ended(trace(n), id) {
      k := n;
    } else {
      var n' := GetsCloser(trace, steps, n, id);
      k := EndComes(trace, steps, n', id);
    }
  }

  lemma {:induction false} EndLasts(trace: nat -> Relays, steps: nat -> Step, k: nat, id: Id, m: nat)
    requires FairRun(trace, steps) && Ended(trace(k), id) && k <= m
    ensures Ended(trace(m), id) && id in trace(m).rows && id in trace(k).rows && trace(m).rows[id] == trace(k).rows[id]
    decreases m
  {
    hide Inv, Next, Stuck, WorksLater, PolledLater, Reaches;
    if k == m {
    } else {
      EndLasts(trace, steps, k, id, m - 1);
      InvAt(trace, steps, m - 1);
      assert StepsAt(trace, steps, m - 1);
      EndedStays(trace(m - 1), steps(m - 1), id);
    }
  }

  /** Drain: in every fair run every row is, from some point on and for ever, published,
      failed, or in progress on a tenth attempt that its worker gave up. */
  lemma EveryRowEnds(trace: nat -> Relays, steps: nat -> Step, n: nat, id: Id) returns (k: nat)
    requires FairRun(trace, steps) && id in trace(n).rows
    ensures k >= n && Ended(trace(k), id)
    ensures forall m: nat :: k <= m ==> Ended(trace(m), id) && trace(m).rows[id] == trace(k).rows[id]
  {
    hide FairRun, Ended;
    k := EndComes(trace, steps, n, id);
    forall m: nat | k <= m
      ensures Ended(trace(m), id) && id in trace(m).rows && id in trace(k).rows &&
              trace(m).rows[id] == trace(k).rows[id]
    {
      EndLasts(trace, steps, k, id, m);
    }
  }
}
