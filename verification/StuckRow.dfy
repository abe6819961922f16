/**
 A run that leaves an outbox row in progress for ever: ten times its worker claims it, dies
 before completing it, and the lease runs out.
 */
module StuckRow {
  import opened Contracts
  import opened Outbox
  import opened OutboxWorkers

  const CLAIM: Step := Claim(0, 1, 30, {}, [1])

  function Rounds(k: nat): seq<Step> {
    if k == 0 then [Insert(1, 1)] else Rounds(k - 1) + [CLAIM] + [Crash(0)] + [Tick(31)]
  }

  function RowAfter(k: nat): (r: OutboxRow)
    ensures r.attempts == k && r.created == 0
    ensures if k == 0 then r.status.PENDING? else r.status.PROCESSING? && r.expires == Some(31 * k - 1)
  {
    if k == 0 then NewRow(1, 0) else Leased(RowAfter(k - 1), 0, 31 * (k - 1), 30)
  }

  ghost predicate Looks(s: Relays, r: OutboxRow, now: nat, hand: Worker) {
    s.rows == map[1 := r] && s.now == now && At(s, 0) == hand
  }

  lemma Claims(s: Relays, k: nat)
    requires Looks(s, RowAfter(k), 31 * k, IDLE) && k < MAX_ATTEMPTS
    ensures Looks(Next(s, CLAIM), RowAfter(k + 1), 31 * k, Worker([Token(1, k + 1)], Ready))
  {
    var ids: seq<Id> := [1];
    assert Elements(ids) == {1} && Free(s.rows, {}, s.now) == {1};
    assert Takes(s.rows, {}, s.now, 1, {1});
    assert Tokens(s.rows, ids) == [Token(1, k + 1)];
    assert Claimed(s.rows, {1}, 0, s.now, 30) == map[1 := RowAfter(k + 1)];
  }

  lemma Dies(s: Relays, k: nat, r: OutboxRow)
    requires Looks(s, r, 31 * k, Worker([Token(1, k + 1)], Ready))
    ensures Looks(Next(s, Crash(0)), r, 31 * k, IDLE) && Token(1, k + 1) in Next(s, Crash(0)).lost
  {
    var b := Batch(s, 0);
    assert b[0..] == b && b[0] in Elements(b);
  }

  lemma Waits(s: Relays, k: nat, r: OutboxRow)
    requires Looks(s, r, 31 * k, IDLE)
    ensures Looks(Next(s, Tick(31)), r, 31 * (k + 1), IDLE) && Next(s, Tick(31)).lost == s.lost
  {
  }

  lemma {:induction false} AfterRounds(k: nat)
    requires k <= MAX_ATTEMPTS
    ensures Looks(After(Rounds(k)), RowAfter(k), 31 * k, IDLE)
    ensures k > 0 ==> Token(1, k) in After(Rounds(k)).lost
  {
    hide After, Next, Looks, RowAfter;
    if k == 0 {
      FirstRound();
    } else {
      AfterRounds(k - 1);
      var steps := Rounds(k - 1);
      AfterSnoc(steps, CLAIM);
      Claims(After(steps), k - 1);
      AfterSnoc(steps + [CLAIM], Crash(0));
      Dies(After(steps + [CLAIM]), k - 1, RowAfter(k));
      AfterSnoc(steps + [CLAIM] + [Crash(0)], Tick(31));
      Waits(After(steps + [CLAIM] + [Crash(0)]), k - 1, RowAfter(k));
    }
  }

  lemma FirstRound()
    ensures Looks(After(Rounds(0)), RowAfter(0), 0, IDLE)
  {
    assert [] + [Insert(1, 1)] == Rounds(0);
    AfterSnoc([], Insert(1, 1));
  }

  /** A reachable row that is stuck: in progress on its tenth attempt, with nobody left to
      complete it, although its lease ran out long ago. */
  lemma SomeRowIsStuck() returns (steps: seq<Step>)
    ensures Stuck(After(steps), 1) && After(steps).rows[1].expires.Some?
    ensures After(steps).rows[1].expires.value < After(steps).now
    ensures !Claimable(After(steps).rows[1], After(steps).now)
  {
    hide After;
    steps := Rounds(MAX_ATTEMPTS);
    AfterRounds(MAX_ATTEMPTS);
  }
}
