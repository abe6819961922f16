/**
 The consumer every service is built on: deduplication by a mark per event and consumer, a
 bounded retry loop with exponential backoff and jitter, and a dead-letter transaction.
 */
module IdempotentConsumer {
  import opened Contracts
  import Outbox

  datatype MarkStatus = PROCESSED | FAILED

  datatype DlqStatus = UNRESOLVED | REPLAYING | REPLAYED | DISCARDED

  /** A dead letter; `original` says whether the event it was made from is in its payload. */
  datatype DlqRow = DlqRow(eventId: Id, original: bool, consumer: Id, attempts: nat, status: DlqStatus)

  type Pair = (Id, Id)

  /** The tables: marks by event and consumer, dead letters, and their outbox. */
  datatype Store = Store(marks: map<Pair, MarkStatus>, dlq: map<Id, DlqRow>, dlqOutbox: Outbox.Table)

  /** The event id recorded for a message that could not be parsed. */
  const MALFORMED_EVENT: Id := 0

  // ---------------------------------------------------------------------------- statements

  /** Only a PROCESSED mark counts as processed. */
  predicate IsProcessed(s: Store, pair: Pair) {
    pair in s.marks && s.marks[pair] == PROCESSED
  }

  function Marked(s: Store, pair: Pair, status: MarkStatus): Store {
    s.(marks := s.marks[pair := status])
  }

  function Recorded(dlq: map<Id, DlqRow>, id: Id, row: DlqRow): map<Id, DlqRow> {
    if id in dlq then dlq[id := dlq[id].(attempts := dlq[id].attempts + 1)] else dlq[id := row]
  }

  /** The transaction of `handleExhaustedRetriesDLQ`. */
  function DeadLetter(s: Store, id: Id, pair: Pair, now: nat): Store {
    Store(s.marks[pair := FAILED], Recorded(s.dlq, id, DlqRow(pair.0, true, pair.1, 1, UNRESOLVED)),
          Outbox.Inserted(s.dlqOutbox, id, id, now))
  }

  /** The transaction of `handleNonRetryableDLQ`: no mark is written. */
  function MalformedLetter(s: Store, id: Id, consumer: Id, now: nat): Store {
    Store(s.marks, Recorded(s.dlq, id, DlqRow(MALFORMED_EVENT, false, consumer, 1, UNRESOLVED)),
          Outbox.Inserted(s.dlqOutbox, id, id, now))
  }

  /** The inline completion after the dead letter was sent. */
  function MarkedDlqPublished(s: Store, id: Id, consumer: Id, now: nat): Store {
    s.(dlqOutbox := Outbox.Publish(s.dlqOutbox, id, Some(consumer), now))
  }

  /** The completion is fenced on a row in progress, so on the row just inserted it does
      nothing: the dead letter stays pending in its outbox although it was sent. */
  lemma InlineCompletionIsVoid(s: Store, id: Id, pair: Pair, consumer: Id, now: nat, later: nat)
    requires id !in s.dlqOutbox
    ensures var s' := DeadLetter(s, id, pair, now); MarkedDlqPublished(s', id, consumer, later) == s'
    ensures var s' := MalformedLetter(s, id, consumer, now); MarkedDlqPublished(s', id, consumer, later) == s'
  {
  }

  /** The completion takes effect exactly on a row in progress under the consumer's own lease,
      and then only publishes that row. */
  lemma InlineCompletionExactly(s: Store, id: Id, consumer: Id, now: nat)
    ensures var s' := MarkedDlqPublished(s, id, consumer, now);
            && (s' != s <==> id in s.dlqOutbox && s.dlqOutbox[id].status == Outbox.PROCESSING
                             && s.dlqOutbox[id].owner == Some(consumer))
            && s'.marks == s.marks && s'.dlq == s.dlq && s'.dlqOutbox.Keys == s.dlqOutbox.Keys
            && (s' != s ==> s'.dlqOutbox[id].status == Outbox.PUBLISHED && s'.dlqOutbox[id].publishedAt == Some(now))
            && forall x :: x in s.dlqOutbox && x != id ==> s'.dlqOutbox[x] == s.dlqOutbox[x]
  {
    if id in s.dlqOutbox && s.dlqOutbox[id].status == Outbox.PROCESSING && s.dlqOutbox[id].owner == Some(consumer) {
      assert MarkedDlqPublished(s, id, consumer, now).dlqOutbox[id].status == Outbox.PUBLISHED;
    }
  }

  /** On a row that is already there the completion may take effect, but only in the outbox. */
  lemma CompletionAfterInsert(s: Store, id: Id, pair: Pair, consumer: Id, now: nat, later: nat)
    ensures var s' := DeadLetter(s, id, pair, now);
            && (id !in s.dlqOutbox ==> MarkedDlqPublished(s', id, consumer, later) == s')
            && id in s'.dlqOutbox && (id !in s.dlqOutbox ==> s'.dlqOutbox[id].status == Outbox.PENDING)
    ensures var s' := MalformedLetter(s, id, consumer, now);
            && (id !in s.dlqOutbox ==> MarkedDlqPublished(s', id, consumer, later) == s')
            && id in s'.dlqOutbox && (id !in s.dlqOutbox ==> s'.dlqOutbox[id].status == Outbox.PENDING)
  {
    if id !in s.dlqOutbox {
      InlineCompletionIsVoid(s, id, pair, consumer, now, later);
    }
  }

  // ------------------------------------------------------------------------------- backoff

  function Pow2(n: nat): nat {
    if n == 0 then 1 else 2 * Pow2(n - 1)
  }

  const MAX_DELAY: nat := 10000

  /** The wait after failed attempt number `attempt`, without jitter. */
  function Backoff(base: nat, attempt: nat): nat
    requires attempt >= 1
  {
    if base * Pow2(attempt - 1) < MAX_DELAY then base * Pow2(attempt - 1) else MAX_DELAY
  }

  function Min(a: nat, b: nat): nat { if a < b then a else b }

  /** The first wait is the base delay, and each further one twice the one before, up to ten
      seconds. */
  lemma BackoffDoubles(base: nat, k: nat)
    requires k >= 1
    ensures Backoff(base, 1) == Min(base, 10000)
    ensures Backoff(base, k + 1) == Min(2 * Backoff(base, k), 10000)
    ensures Backoff(base, k) == Min(base * Pow2(k - 1), 10000)
  {
    assert Pow2(k) == 2 * Pow2(k - 1);
    assert base * Pow2(k) == 2 * (base * Pow2(k - 1));
  }

  function Sum(xs: seq<nat>): nat
    decreases |xs|
  {
    if xs == [] then 0 else Sum(xs[..|xs| - 1]) + xs[|xs| - 1]
  }

  /** The largest value of `floor(random * jitter)`. */
  function MaxDraw(jitter: nat): nat { if jitter == 0 then 0 else jitter - 1 }

  /** Waits as the loop makes them: number `i` follows failed attempt `i + 1`. */
  ghost predicate BackoffWaits(base: nat, jitter: nat, waits: seq<nat>) {
    forall i :: 0 <= i < |waits| ==> Backoff(base, i + 1) <= waits[i] <= Backoff(base, i + 1) + MaxDraw(jitter)
  }

  /** No wait exceeds the cap plus jitter, and all of them together stay below the
      geometric sum of the uncapped delays plus jitter. */
  lemma {:induction false} TotalWait(base: nat, jitter: nat, waits: seq<nat>)
    requires BackoffWaits(base, jitter, waits)
    ensures forall i :: 0 <= i < |waits| ==> waits[i] <= MAX_DELAY + MaxDraw(jitter)
    ensures Sum(waits) <= base * (Pow2(|waits|) - 1) + |waits| * MaxDraw(jitter)
    decreases |waits|
  {
    if waits == [] {
    } else {
      var n := |waits| - 1;
      TotalWait(base, jitter, waits[..n]);
      assert Pow2(|waits|) == 2 * Pow2(n);
      LastWait(base, n, MaxDraw(jitter));
    }
  }

  lemma LastWait(base: nat, n: nat, d: nat)
    ensures base * (Pow2(n) - 1) + base * Pow2(n) == base * (2 * Pow2(n) - 1)
    ensures n * d + d == (n + 1) * d
  {
  }

  lemma {:induction false} Pow2Grows(m: nat, n: nat)
    requires m <= n
    ensures 1 <= Pow2(m) <= Pow2(n)
    decreases n
  {
    if m < n {
      Pow2Grows(m, n - 1);
    } else if n > 0 {
      Pow2Grows(m - 1, n - 1);
    }
  }

  /** The geometric sum of `k` delays, plus jitter. */
  function WaitLimit(base: nat, jitter: nat, k: nat): int {
    base * (Pow2(k) - 1) + k * MaxDraw(jitter)
  }

  /** The bound for at most `k` waits. */
  lemma WaitBound(base: nat, jitter: nat, waits: seq<nat>, k: nat)
    requires BackoffWaits(base, jitter, waits) && |waits| <= k
    ensures Sum(waits) <= WaitLimit(base, jitter, k)
  {
    TotalWait(base, jitter, waits);
    Pow2Grows(|waits|, k);
    MoreIsMore(base, Pow2(|waits|) - 1, Pow2(k) - 1);
    MoreIsMore(MaxDraw(jitter), |waits|, k);
  }

  lemma MoreIsMore(x: nat, a: nat, b: nat)
    requires a <= b
    ensures x * a <= x * b && a * x <= b * x
  {
    assert x * (b - a) >= 0;
  }

  // ----------------------------------------------------------------------------- one delivery

  datatype Delivery = Valid(event: Id) | Malformed

  /** How one attempt goes: the service throws, its mark throws before or after committing,
      or both succeed. */
  datatype Attempt = ProcessThrew | MarkThrew(committed: bool) | Succeeded

  /** How the dead-letter handling goes: the number of the statement that throws, counting
      the inserts and then the commit (a larger number: none does), whether a commit that
      throws took effect nevertheless, whether the broker acknowledges the dead letter, and
      whether the inline completion throws. */
  datatype DlqScript =
    DlqScript(failsAt: nat, lands: bool, acked: bool, completionThrows: bool, now: nat, later: nat)

  /** No statement of the transaction throws, so the dead letter is sent next. */
  predicate Returns(d: Delivery, dlq: DlqScript) {
    dlq.failsAt >= if d.Valid? then 4 else 3
  }

  /** The transaction takes effect: nothing throws, or only a commit that landed. */
  predicate Commits(d: Delivery, dlq: DlqScript) {
    Returns(d, dlq) || (dlq.lands && dlq.failsAt == if d.Valid? then 3 else 2)
  }

  /** How a delivery ends. `Rethrown` leaves it to the broker to deliver again. `Dropped` is a
      dead-letter transaction that failed: the error is logged, the offset moves on, and
      nothing remembers the event. */
  datatype Ending = Skipped | Processed | DeadLettered | Dropped | Rethrown

  datatype Health = Healthy | Degraded | Down

  /** The first successful attempt, counted from 0, or `n` if none of the `n` succeeds. */
  function FirstSuccess(script: nat -> Attempt, i: nat, n: nat): (k: nat)
    requires i <= n
    ensures i <= k <= n && (forall j :: i <= j < k ==> !script(j).Succeeded?) && (k < n ==> script(k).Succeeded?)
    decreases n - i
  {
    if i == n || script(i).Succeeded? then i else FirstSuccess(script, i + 1, n)
  }

  /** Marks after `k` unsuccessful attempts: a mark that committed before throwing stays. */
  ghost function MarksAfter(s: Store, pair: Pair, script: nat -> Attempt, k: nat): Store {
    if exists i :: 0 <= i < k && script(i) == MarkThrew(true) then Marked(s, pair, PROCESSED) else s
  }

  lemma MarksAfterOne(s: Store, pair: Pair, script: nat -> Attempt, k: nat)
    ensures MarksAfter(s, pair, script, k + 1) ==
            if script(k) == MarkThrew(true) then Marked(MarksAfter(s, pair, script, k), pair, PROCESSED)
            else MarksAfter(s, pair, script, k)
  {
    if script(k) == MarkThrew(true) {
      assert Marked(Marked(s, pair, PROCESSED), pair, PROCESSED) == Marked(s, pair, PROCESSED);
    } else if i :| 0 <= i < k + 1 && script(i) == MarkThrew(true) {
      assert i < k;
    }
  }

  class BaseConsumer {
    const name: Id
    const maxRetries: nat
    const baseBackoff: nat
    const jitter: nat
    var store: Store
    var lettersSent: seq<Id>
    var processedCount: nat
    var failureCount: nat
    var status: Health

    constructor (name: Id, maxRetries: nat, baseBackoff: nat, jitter: nat, store: Store)
      ensures this.name == name && this.maxRetries == maxRetries && this.baseBackoff == baseBackoff &&
              this.jitter == jitter
      ensures this.store == store && lettersSent == [] && processedCount == 0 && failureCount == 0 && status == Down
    {
      this.name, this.maxRetries, this.baseBackoff, this.jitter := name, maxRetries, baseBackoff, jitter;
      this.store := store;
      lettersSent := [];
      processedCount, failureCount, status := 0, 0, Down;
    }

    /** The retry loop; `script` says how each attempt goes and `draws` are the jitter draws. */
    method RetryLoop(event: Id, script: nat -> Attempt, draws: nat -> nat) returns (done: bool, calls: nat,
                     waits: seq<nat>)
      modifies this`store, this`processedCount, this`status
      ensures var first := FirstSuccess(script, 0, maxRetries);
              && (done <==> first < maxRetries)
              && calls == (if done then first + 1 else maxRetries)
              && waits == Waits(baseBackoff, draws, if done || maxRetries == 0 then first else maxRetries - 1)
      ensures store == if done then Marked(old(store), (event, name), PROCESSED)
                       else MarksAfter(old(store), (event, name), script, maxRetries)
      ensures processedCount == old(processedCount) + if done then 1 else 0
      ensures status == if done then Healthy else old(status)
    {
      hide Backoff, MarksAfter, Marked, Waits, FirstSuccess;
      calls, waits := 0, [];
      NoneWaited(baseBackoff, draws);
      var pair := (event, name);
      NoneMarked(store, pair, script);
      var attempt := 0;
      while attempt < maxRetries
        invariant attempt <= maxRetries && calls == attempt
        invariant waits == Waits(baseBackoff, draws,
                                  if attempt < maxRetries || maxRetries == 0 then attempt else maxRetries - 1)
        invariant FirstSuccess(script, 0, maxRetries) >= attempt
        invariant store == MarksAfter(old(store), pair, script, attempt)
        invariant processedCount == old(processedCount) && status == old(status)
      {
        attempt := attempt + 1;
        calls := calls + 1;
        MarksAfterOne(old(store), pair, script, attempt - 1);
        match script(attempt - 1) {
          case Succeeded =>
            MarkedTwice(old(store), pair, script, attempt - 1);
            store := Marked(store, pair, PROCESSED);
            processedCount := processedCount + 1;
            status := Healthy;
            return true, calls, waits;
          case MarkThrew(committed) =>
            if committed {
              store := Marked(store, pair, PROCESSED);
            }
          case ProcessThrew =>
        }
        if attempt < maxRetries {
          OneMoreWait(baseBackoff, draws, attempt);
          waits := waits + [Backoff(baseBackoff, attempt) + draws(attempt - 1)];
        }
      }
      done := false;
    }

    /** Dead letter, FAILED mark and outbox row, statement by statement on the transaction's
        own copy, then the send and the inline completion. Whichever statement throws, and
        whether or not a throwing commit landed, the tables hold all three rows or are
        untouched; the letter is sent only if nothing threw, and its outbox row stays pending
        even then. */
    method HandleExhaustedRetriesDlq(event: Id, dlqId: Id, dlq: DlqScript) returns (committed: bool)
      modifies this`store, this`lettersSent
      ensures committed <==> Commits(Valid(event), dlq)
      ensures !committed ==> store == old(store)
      ensures lettersSent == old(lettersSent) + if dlq.failsAt >= 4 && dlq.acked then [dlqId] else []
      ensures committed ==> store.marks == old(store).marks[(event, name) := FAILED]
      ensures committed ==> store.dlq == DeadLetter(old(store), dlqId, (event, name), dlq.now).dlq
      ensures committed && dlqId !in old(store).dlqOutbox ==>
                store == DeadLetter(old(store), dlqId, (event, name), dlq.now) &&
                store.dlqOutbox[dlqId].status == Outbox.PENDING
    {
      CompletionAfterInsert(store, dlqId, (event, name), name, dlq.now, dlq.later);
      var work := store;
      if dlq.failsAt == 0 { return false; }
      work := work.(dlq := Recorded(work.dlq, dlqId, DlqRow(event, true, name, 1, UNRESOLVED)));
      if dlq.failsAt == 1 { return false; }
      work := Marked(work, (event, name), FAILED);
      if dlq.failsAt == 2 { return false; }
      work := work.(dlqOutbox := Outbox.Inserted(work.dlqOutbox, dlqId, dlqId, dlq.now));
      if dlq.failsAt == 3 && !dlq.lands { return false; }
      store := work;
      committed := true;
      if dlq.failsAt == 3 || !dlq.acked { return; }
      lettersSent := lettersSent + [dlqId];
      if dlq.completionThrows { return; }
      store := MarkedDlqPublished(store, dlqId, name, dlq.later);
    }

    /** The same for a message that could not be parsed: no mark is written. */
    method HandleNonRetryableDlq(dlqId: Id, dlq: DlqScript) returns (committed: bool)
      modifies this`store, this`lettersSent
      ensures committed <==> Commits(Malformed, dlq)
      ensures !committed ==> store == old(store)
      ensures lettersSent == old(lettersSent) + if dlq.failsAt >= 3 && dlq.acked then [dlqId] else []
      ensures committed ==> store.marks == old(store).marks
      ensures committed ==> store.dlq == MalformedLetter(old(store), dlqId, name, dlq.now).dlq
      ensures committed && dlqId !in old(store).dlqOutbox ==>
                store == MalformedLetter(old(store), dlqId, name, dlq.now) &&
                store.dlqOutbox[dlqId].status == Outbox.PENDING
    {
      CompletionAfterInsert(store, dlqId, (MALFORMED_EVENT, name), name, dlq.now, dlq.later);
      var work := store;
      if dlq.failsAt == 0 { return false; }
      work := work.(dlq := Recorded(work.dlq, dlqId, DlqRow(MALFORMED_EVENT, false, name, 1, UNRESOLVED)));
      if dlq.failsAt == 1 { return false; }
      work := work.(dlqOutbox := Outbox.Inserted(work.dlqOutbox, dlqId, dlqId, dlq.now));
      if dlq.failsAt == 2 && !dlq.lands { return false; }
      store := work;
      committed := true;
      if dlq.failsAt == 2 || !dlq.acked { return; }
      lettersSent := lettersSent + [dlqId];
      if dlq.completionThrows { return; }
      store := MarkedDlqPublished(store, dlqId, name, dlq.later);
    }

    /** One delivery; `readable` is false when the look-up of the mark throws. It ends in exactly
        one way, each decided by a condition on the start. */
    method HandleMessage(d: Delivery, readable: bool, script: nat -> Attempt, draws: nat -> nat, dlqId: Id,
                         dlq: DlqScript)
      returns (ending: Ending, calls: nat, waits: seq<nat>)
      requires forall i :: draws(i) == 0 || draws(i) < jitter
      modifies this
      ensures calls <= maxRetries && WaitsFit(baseBackoff, jitter, maxRetries, draws, waits)
      ensures ending == EndingOf(old(store), d, readable, name, script, maxRetries, Commits(d, dlq))
      ensures calls == CallsOf(ending, d, script, maxRetries)
      ensures var after := StoreAfter(old(store), d, name, script, maxRetries, ending, dlqId, dlq.now);
              && store.marks == after.marks && store.dlq == after.dlq
              && (dlqId !in old(store).dlqOutbox ==> store == after)
      ensures lettersSent == old(lettersSent) +
                if ending == DeadLettered && dlq.acked && dlq.failsAt >= (if d.Valid? then 4 else 3)
                then [dlqId] else []
      ensures processedCount == old(processedCount) + (if ending == Processed then 1 else 0)
      ensures failureCount == old(failureCount) +
                (if d.Valid? && (ending == DeadLettered || ending == Dropped) then 1 else 0)
      ensures status == if ending == Processed then Healthy
                        else if d.Valid? && (ending == DeadLettered || ending == Dropped) then Degraded else old(status)
    {
      hide Backoff, MarksAfter, Waits, FirstSuccess, WaitsFit, DeadLetter, MalformedLetter, Marked, IsProcessed;
      calls, waits := 0, [];
      WaitsFitLoop(baseBackoff, jitter, maxRetries, draws, 0);
      NoneWaited(baseBackoff, draws);
      if d.Malformed? {
        var committed := HandleNonRetryableDlq(dlqId, dlq);
        MalformedMarks(old(store), dlqId, name, dlq.now);
        return if committed then DeadLettered else Dropped, calls, waits;
      }
      if !readable {
        return Rethrown, calls, waits;
      }
      if IsProcessed(store, (d.event, name)) {
        return Skipped, calls, waits;
      }
      var done;
      done, calls, waits := RetryLoop(d.event, script, draws);
      WaitsFitLoop(baseBackoff, jitter, maxRetries, draws, |waits|);
      if done {
        return Processed, calls, waits;
      }
      failureCount := failureCount + 1;
      status := Degraded;
      OverwritesMark(old(store), (d.event, name), script, maxRetries, dlqId, dlq.now);
      var committed := HandleExhaustedRetriesDlq(d.event, dlqId, dlq);
      return if committed then DeadLettered else Dropped, calls, waits;
    }
  }

  lemma MalformedMarks(s: Store, id: Id, consumer: Id, now: nat)
    ensures MalformedLetter(s, id, consumer, now).marks == s.marks
  {
  }

  /** How many waits `n` attempts can have. */
  function Retries(n: nat): nat { if n == 0 then 0 else n - 1 }

  function EndingOf(s: Store, d: Delivery, readable: bool, consumer: Id, script: nat -> Attempt, n: nat,
                    commits: bool): Ending {
    if d.Valid? && !readable then Rethrown
    else if d.Valid? && IsProcessed(s, (d.event, consumer)) then Skipped
    else if d.Valid? && FirstSuccess(script, 0, n) < n then Processed
    else if commits then DeadLettered
    else Dropped
  }

  function CallsOf(ending: Ending, d: Delivery, script: nat -> Attempt, n: nat): nat {
    if d.Malformed? || ending == Skipped || ending == Rethrown then 0
    else if ending == Processed then FirstSuccess(script, 0, n) + 1
    else n
  }

  ghost function StoreAfter(s: Store, d: Delivery, consumer: Id, script: nat -> Attempt, n: nat, ending: Ending,
                            dlqId: Id, now: nat): Store {
    match ending
    case Skipped | Rethrown => s
    case Processed => if d.Valid? then Marked(s, (d.event, consumer), PROCESSED) else s
    case DeadLettered => if d.Valid? then DeadLetter(s, dlqId, (d.event, consumer), now)
                         else MalformedLetter(s, dlqId, consumer, now)
    case Dropped => if d.Valid? then MarksAfter(s, (d.event, consumer), script, n) else s
  }

  predicate HasMark(s: Store, pair: Pair, status: MarkStatus) {
    pair in s.marks && s.marks[pair] == status
  }

  ghost predicate SomeSuccess(script: nat -> Attempt, n: nat) {
    exists i :: 0 <= i < n && script(i).Succeeded?
  }

  /** How a delivery ends, exactly. It is rethrown if and only if the look-up throws, and skipped
      if and only if its pair carries a PROCESSED mark; a FAILED mark never stops it. Otherwise
      it is processed if and only if some attempt succeeds. What remains, and every unparsable
      message, is dead-lettered if all statements up to the commit succeed and the commit
      returns or at least lands, and dropped if not. */
  lemma EndingExactly(s: Store, d: Delivery, readable: bool, consumer: Id, script: nat -> Attempt, n: nat,
                      dlq: DlqScript)
    ensures var ending := EndingOf(s, d, readable, consumer, script, n, Commits(d, dlq));
            && (ending == Rethrown <==> d.Valid? && !readable)
            && (ending == Skipped <==> d.Valid? && readable && HasMark(s, (d.event, consumer), PROCESSED))
            && (ending == Processed <==>
                  d.Valid? && readable && !HasMark(s, (d.event, consumer), PROCESSED) && SomeSuccess(script, n))
            && (ending == DeadLettered <==>
                  || (d.Malformed? && (dlq.failsAt > 2 || (dlq.failsAt == 2 && dlq.lands)))
                  || (d.Valid? && readable && !HasMark(s, (d.event, consumer), PROCESSED) && !SomeSuccess(script, n) &&
                      (dlq.failsAt > 3 || (dlq.failsAt == 3 && dlq.lands))))
    ensures d.Valid? && readable && HasMark(s, (d.event, consumer), FAILED) ==>
              EndingOf(s, d, readable, consumer, script, n, Commits(d, dlq)) != Skipped
  {
    hide FirstSuccess;
    var first := FirstSuccess(script, 0, n);
    if SomeSuccess(script, n) {
      var i :| 0 <= i < n && script(i).Succeeded?;
      assert first <= i;
    }
  }

  /** What a delivery leaves behind, table by table. */
  lemma StoreExactly(s: Store, d: Delivery, consumer: Id, script: nat -> Attempt, n: nat, ending: Ending, id: Id,
                     now: nat)
    requires d.Malformed? ==> ending == DeadLettered || ending == Dropped
    ensures var t := StoreAfter(s, d, consumer, script, n, ending, id, now);
            var letter := if d.Valid? then DlqRow(d.event, true, consumer, 1, UNRESOLVED)
                          else DlqRow(MALFORMED_EVENT, false, consumer, 1, UNRESOLVED);
            var row := Outbox.OutboxRow(id, Outbox.PENDING, 0, None, None, None, now, None, None);
            && t.marks == (if d.Malformed? || ending == Skipped || ending == Rethrown then s.marks
                           else if ending == Processed then s.marks[(d.event, consumer) := PROCESSED]
                           else if ending == DeadLettered then s.marks[(d.event, consumer) := FAILED]
                           else if exists i :: 0 <= i < n && script(i) == MarkThrew(true)
                           then s.marks[(d.event, consumer) := PROCESSED] else s.marks)
            && t.dlq == (if ending != DeadLettered then s.dlq
                         else if id in s.dlq then s.dlq[id := s.dlq[id].(attempts := s.dlq[id].attempts + 1)]
                         else s.dlq[id := letter])
            && t.dlqOutbox == (if ending != DeadLettered ||
                               id in s.dlqOutbox then s.dlqOutbox else s.dlqOutbox[id := row])
  {
  }

  /** A delivery that is not skipped leaves a trace of its event, a mark or a dead letter, if
      and only if the dead-letter transaction can commit, or some attempt succeeds or has its
      mark committed before it throws; otherwise the event is forgotten. */
  lemma TraceExactly(s: Store, event: Id, consumer: Id, script: nat -> Attempt, n: nat, commits: bool, dlqId: Id,
                     now: nat)
    requires (event, consumer) !in s.marks && dlqId !in s.dlq
    ensures var ending := EndingOf(s, Valid(event), true, consumer, script, n, commits);
            StoreAfter(s, Valid(event), consumer, script, n, ending, dlqId, now) != s <==>
            commits || exists i :: 0 <= i < n && (script(i).Succeeded? || script(i) == MarkThrew(true))
  {
    hide Recorded;
    var pair := (event, consumer);
    var ending := EndingOf(s, Valid(event), true, consumer, script, n, commits);
    var s' := StoreAfter(s, Valid(event), consumer, script, n, ending, dlqId, now);
    var first := FirstSuccess(script, 0, n);
    if i :| 0 <= i < n && script(i).Succeeded? {
      assert first <= i;
      assert pair in s'.marks;
    } else if i :| 0 <= i < n && script(i) == MarkThrew(true) {
      assert pair in s'.marks;
    } else if commits {
      assert pair in s'.marks;
    } else {
      assert ending == Dropped;
    }
  }

  function Waits(base: nat, draws: nat -> nat, k: nat): (waits: seq<nat>)
    ensures |waits| == k && forall i :: 0 <= i < k ==> waits[i] == Backoff(base, i + 1) + draws(i)
  {
    if k == 0 then [] else Waits(base, draws, k - 1) + [Backoff(base, k) + draws(k - 1)]
  }

  lemma WaitsAre(base: nat, draws: nat -> nat, k: nat)
    ensures forall i :: 0 <= i < k ==> Waits(base, draws, k)[i] == Min(base * Pow2(i), 10000) + draws(i)
  {
    hide Waits, Pow2, Min, Backoff;
    forall i | 0 <= i < k
      ensures Waits(base, draws, k)[i] == Min(base * Pow2(i), 10000) + draws(i)
    {
      BackoffDoubles(base, i + 1);
    }
  }

  /** The waits of one delivery with at most `n` attempts: each is the base delay doubled for
      every failed attempt before, capped at ten seconds, plus its draw; none exceeds the cap
      plus the largest draw, and all together stay below the geometric sum plus the draws. */
  ghost predicate WaitsFit(base: nat, jitter: nat, n: nat, draws: nat -> nat, waits: seq<nat>) {
    && |waits| <= Retries(n)
    && (forall i :: 0 <= i < |waits| ==> waits[i] == Min(base * Pow2(i), 10000) + draws(i))
    && (jitter > 0 ==> forall i :: 0 <= i < |waits| ==> waits[i] <= 10000 + jitter - 1)
    && (n > 0 && jitter > 0 ==> Sum(waits) <= base * (Pow2(n - 1) - 1) + (n - 1) * (jitter - 1))
  }

  lemma WaitsFitLoop(base: nat, jitter: nat, n: nat, draws: nat -> nat, k: nat)
    requires k <= Retries(n) && forall i :: draws(i) == 0 || draws(i) < jitter
    ensures WaitsFit(base, jitter, n, draws, Waits(base, draws, k))
  {
    hide Waits, Pow2, Min, Backoff, Sum, WaitLimit, MaxDraw;
    DrawsAreBounded(jitter, draws);
    LimitIs(base, jitter, n);
    WaitsAreBounded(base, jitter, draws, k, Retries(n));
    WaitsAre(base, draws, k);
  }

  lemma DrawsAreBounded(jitter: nat, draws: nat -> nat)
    requires forall i :: draws(i) == 0 || draws(i) < jitter
    ensures forall i :: draws(i) <= MaxDraw(jitter)
    ensures jitter > 0 ==> MAX_DELAY + MaxDraw(jitter) == 10000 + jitter - 1
  {
  }

  lemma LimitIs(base: nat, jitter: nat, n: nat)
    ensures n > 0 && jitter > 0 ==>
              WaitLimit(base, jitter, Retries(n)) == base * (Pow2(n - 1) - 1) + (n - 1) * (jitter - 1)
  {
  }

  lemma NoneWaited(base: nat, draws: nat -> nat)
    ensures Waits(base, draws, 0) == []
  {
  }

  lemma OneMoreWait(base: nat, draws: nat -> nat, k: nat)
    requires k > 0
    ensures Waits(base, draws, k) == Waits(base, draws, k - 1) + [Backoff(base, k) + draws(k - 1)]
  {
  }

  lemma WaitsAreBounded(base: nat, jitter: nat, draws: nat -> nat, k: nat, n: nat)
    requires k <= n && forall i :: draws(i) <= MaxDraw(jitter)
    ensures var waits := Waits(base, draws, k);
            && (forall i :: 0 <= i < |waits| ==> waits[i] <= MAX_DELAY + MaxDraw(jitter))
            && Sum(waits) <= WaitLimit(base, jitter, n)
  {
    hide WaitLimit, Waits;
    TotalWait(base, jitter, Waits(base, draws, k));
    WaitBound(base, jitter, Waits(base, draws, k), n);
  }

  lemma NoneMarked(s: Store, pair: Pair, script: nat -> Attempt)
    ensures MarksAfter(s, pair, script, 0) == s
  {
  }

  lemma MarkedTwice(s: Store, pair: Pair, script: nat -> Attempt, k: nat)
    ensures Marked(MarksAfter(s, pair, script, k), pair, PROCESSED) == Marked(s, pair, PROCESSED)
  {
  }

  /** The dead-letter transaction replaces whatever mark the attempts left. */
  lemma OverwritesMark(s: Store, pair: Pair, script: nat -> Attempt, k: nat, id: Id, now: nat)
    ensures var t := MarksAfter(s, pair, script, k);
            && DeadLetter(t, id, pair, now) == DeadLetter(s, id, pair, now)
            && DeadLetter(s, id, pair, now).marks == t.marks[pair := FAILED]
            && t.dlqOutbox == s.dlqOutbox
  {
  }
}
