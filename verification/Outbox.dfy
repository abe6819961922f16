/**
 The transactional outbox: a table of events waiting for the broker, claimed by relay workers
 under a lease and completed under a fence on the lease's owner.
 */
module Outbox {
  import opened Contracts

  datatype OutboxStatus = PENDING | PROCESSING | PUBLISHED | FAILED

  datatype OutboxRow = OutboxRow(event: Id, status: OutboxStatus, attempts: nat, owner: Option<Id>,
                                 leasedAt: Option<nat>, expires: Option<nat>,
                                 created: nat, publishedAt: Option<nat>, lastError: Option<Id>)

  type Table = map<Id, OutboxRow>

  const MAX_ATTEMPTS: nat := 10

  /** How a completion statement ends for the worker. */
  datatype Mark = Returned | Threw(committed: bool)

  function NewRow(event: Id, now: nat): OutboxRow {
    OutboxRow(event, PENDING, 0, None, None, None, now, None, None)
  }

  /** `INSERT ... ON CONFLICT (id) DO NOTHING`. */
  function Inserted(t: Table, id: Id, event: Id, now: nat): Table {
    if id in t then t else t[id := NewRow(event, now)]
  }

  predicate Claimable(r: OutboxRow, now: nat) {
    && (r.status.PENDING? || (r.status.PROCESSING? && (r.expires.None? || r.expires.value < now)))
    && r.attempts < MAX_ATTEMPTS
  }

  function Leased(r: OutboxRow, worker: Id, now: nat, lease: nat): OutboxRow {
    r.(status := PROCESSING, owner := Some(worker), leasedAt := Some(now), expires := Some(now + lease),
       attempts := r.attempts + 1)
  }

  /** What a claim does to a row: the lease is the worker's and ends when it asked for. */
  predicate IsLeased(r: OutboxRow, r': OutboxRow, worker: Id, now: nat, lease: nat) {
    && r'.status == PROCESSING && r'.owner == Some(worker) && r'.leasedAt == Some(now)
    && r'.expires == Some(now + lease) && r'.attempts == r.attempts + 1
    && r'.event == r.event && r'.created == r.created && r'.publishedAt == r.publishedAt && r'.lastError == r.lastError
  }

  lemma ClaimLeases(t: Table, worker: Id, now: nat, lease: nat)
    ensures forall id :: id in t ==> IsLeased(t[id], Leased(t[id], worker, now, lease), worker, now, lease)
  {
  }

  /** A claim lasts as long as it asked for: the row can be taken again from the moment after
      its end on, as long as it has attempts to spare. */
  lemma LeaseEndsAsAsked(r: OutboxRow, worker: Id, now: nat, lease: nat, later: nat)
    ensures Claimable(Leased(r, worker, now, lease), later) <==> later > now + lease && r.attempts + 1 < 10
  {
  }

  /** The completion fence: the row is in progress and, if a worker is named, leased to it. */
  predicate Fenced(r: OutboxRow, worker: Option<Id>) {
    r.status.PROCESSING? && (worker.None? || r.owner == worker)
  }

  function MarkedPublished(r: OutboxRow, now: nat): OutboxRow {
    r.(status := PUBLISHED, publishedAt := Some(now), owner := None, expires := None)
  }

  function MarkedFailed(r: OutboxRow, error: Id): OutboxRow {
    r.(lastError := Some(error), owner := None, expires := None,
       status := if r.attempts >= MAX_ATTEMPTS then FAILED else PENDING)
  }

  function Publish(t: Table, id: Id, worker: Option<Id>, now: nat): Table {
    if id in t && Fenced(t[id], worker) then t[id := MarkedPublished(t[id], now)] else t
  }

  function Fail(t: Table, id: Id, worker: Option<Id>, error: Id): Table {
    if id in t && Fenced(t[id], worker) then t[id := MarkedFailed(t[id], error)] else t
  }

  function Claimed(t: Table, chosen: set<Id>, worker: Id, now: nat, lease: nat): Table {
    map id | id in t :: if id in chosen then Leased(t[id], worker, now, lease) else t[id]
  }

  // --------------------------------------------------------------------- what a claim takes

  /** Claimable rows that no concurrent claim has locked. */
  function Free(t: Table, locked: set<Id>, now: nat): set<Id> {
    set id | id in t && id !in locked && Claimable(t[id], now)
  }

  /** The rows a claim may take: those waiting, those in progress whose lease has ended or was
      never dated, none of them after ten attempts and none locked by another claim. */
  lemma FreeExactly(t: Table, locked: set<Id>, now: nat, id: Id)
    ensures id in Free(t, locked, now) <==>
            && id in t && id !in locked && t[id].attempts < 10
            && match t[id].status {
                 case PENDING => true
                 case PROCESSING => t[id].expires == None || (exists end :: t[id].expires == Some(end) && now > end)
                 case PUBLISHED => false
                 case FAILED => false
               }
  {
  }

  predicate Older(t: Table, chosen: set<Id>, rest: set<Id>)
    requires chosen <= t.Keys && rest <= t.Keys
  {
    forall c, x | c in chosen && x in rest :: t[c].created <= t[x].created
  }

  /** `ORDER BY created_at LIMIT limit FOR UPDATE SKIP LOCKED`, declaratively. */
  ghost predicate Takes(t: Table, locked: set<Id>, now: nat, limit: nat, chosen: set<Id>) {
    var free := Free(t, locked, now);
    && chosen <= free
    && |chosen| == (if |free| < limit then |free| else limit)
    && Older(t, chosen, free - chosen)
  }

  /** With distinct creation times a claim has no choice. */
  lemma ClaimIsDetermined(t: Table, locked: set<Id>, now: nat, limit: nat, a: set<Id>, b: set<Id>)
    requires Takes(t, locked, now, limit, a) && Takes(t, locked, now, limit, b)
    requires forall x, y :: x in t && y in t && t[x].created == t[y].created ==> x == y
    ensures a == b
  {
    if a != b {
      var x, y := SameSizeDiffers(a, b);
      assert false;
    }
  }

  lemma SameSizeDiffers(a: set<Id>, b: set<Id>) returns (x: Id, y: Id)
    requires |a| == |b| && a != b
    ensures x in a && x !in b && y in b && y !in a
  {
    assert a == (a - b) + (a * b) && b == (b - a) + (a * b);
    assert |a| == |a - b| + |a * b| && |b| == |b - a| + |a * b|;
    x :| x in a - b;
    y :| y in b - a;
  }

  /** Two concurrent claims, the second skipping what the first has locked, take different
      rows, and together exactly what one claim with the sum of their limits may take. */
  lemma ConcurrentClaims(t: Table, locked: set<Id>, now: nat, k: nat, a: set<Id>, l: nat, b: set<Id>)
    requires Takes(t, locked, now, k, a) && Takes(t, locked + a, now, l, b)
    ensures a !! b
    ensures Takes(t, locked, now, k + l, a + b)
  {
    hide Free, Older;
    var free := Free(t, locked, now);
    SkipLocked(t, locked, a, now);
    SplitSizes(free, a, b);
    OlderTogether(t, free, a, b);
  }

  lemma SkipLocked(t: Table, locked: set<Id>, a: set<Id>, now: nat)
    ensures Free(t, locked + a, now) == Free(t, locked, now) - a && Free(t, locked, now) <= t.Keys
  {
    hide Claimable;
  }

  lemma SplitSizes(free: set<Id>, a: set<Id>, b: set<Id>)
    requires a <= free && b <= free - a
    ensures |free| == |a| + |free - a| && |a + b| == |a| + |b|
  {
    assert free == a + (free - a);
  }

  lemma OlderTogether(t: Table, free: set<Id>, a: set<Id>, b: set<Id>)
    requires a <= free && b <= free - a && free <= t.Keys && Older(t, a, free - a) && Older(t, b, (free - a) - b)
    ensures Older(t, a + b, free - (a + b))
  {
  }

  /** Any number of concurrent claims: `takes[i]` skips everything the earlier ones locked. */
  ghost predicate Concurrent(t: Table, locked: set<Id>, now: nat, limits: seq<nat>, takes: seq<set<Id>>) {
    |limits| == |takes| &&
    forall i :: 0 <= i < |takes| ==> Takes(t, locked + Union(takes[..i]), now, limits[i], takes[i])
  }

  function Union(takes: seq<set<Id>>): set<Id>
    decreases |takes|
  {
    if takes == [] then {} else Union(takes[..|takes| - 1]) + takes[|takes| - 1]
  }

  function Total(limits: seq<nat>): nat
    decreases |limits|
  {
    if limits == [] then 0 else Total(limits[..|limits| - 1]) + limits[|limits| - 1]
  }

  /** Lease exclusion: however many workers claim at once, their rows are pairwise different,
      and all of them together are the oldest claimable rows up to the sum of the limits. */
  lemma {:induction false} ManyConcurrentClaims(t: Table, locked: set<Id>, now: nat, limits: seq<nat>,
                                                takes: seq<set<Id>>)
    requires Concurrent(t, locked, now, limits, takes)
    ensures forall i, j :: 0 <= i < j < |takes| ==> takes[i] !! takes[j]
    ensures Takes(t, locked, now, Total(limits), Union(takes))
    decreases |takes|
  {
    hide Takes, Concurrent;
    LastConcurrent(t, locked, now, limits, takes);
    if takes == [] {
      NothingTaken(t, locked, now);
    } else {
      var n := |takes| - 1;
      ManyConcurrentClaims(t, locked, now, limits[..n], takes[..n]);
      ConcurrentClaims(t, locked, now, Total(limits[..n]), Union(takes[..n]), limits[n], takes[n]);
      forall i | 0 <= i < n
        ensures takes[i] !! takes[n]
      {
        UnionHolds(takes[..n], i);
      }
    }
  }

  lemma LastConcurrent(t: Table, locked: set<Id>, now: nat, limits: seq<nat>, takes: seq<set<Id>>)
    requires Concurrent(t, locked, now, limits, takes)
    ensures |limits| == |takes|
    ensures takes != [] ==>
              var n := |takes| - 1;
              Concurrent(t, locked, now, limits[..n], takes[..n]) &&
              Takes(t, locked + Union(takes[..n]), now, limits[n], takes[n])
  {
    hide Takes, Union;
    if takes != [] {
      var n := |takes| - 1;
      assert forall i :: 0 <= i < n ==> takes[..n][..i] == takes[..i];
    }
  }

  lemma NothingTaken(t: Table, locked: set<Id>, now: nat)
    ensures Takes(t, locked, now, 0, {})
  {
  }

  lemma {:induction false} UnionHolds(takes: seq<set<Id>>, i: nat)
    requires i < |takes|
    ensures takes[i] <= Union(takes)
    decreases |takes|
  {
    if i == |takes| - 1 {
    } else {
      UnionHolds(takes[..|takes| - 1], i);
    }
  }

  lemma OlderNext(t: Table, chosen: set<Id>, rest: set<Id>, next: Id)
    requires chosen <= t.Keys && rest <= t.Keys && Older(t, chosen, rest)
    requires next in rest && forall x :: x in rest ==> t[next].created <= t[x].created
    ensures Older(t, chosen + {next}, rest - {next})
  {
  }

  lemma NoneChosen(t: Table, rest: set<Id>)
    requires rest <= t.Keys
    ensures Older(t, {}, rest)
  {
  }

  // ---------------------------------------------------------------------------- the table

  class OutboxTable {
    var rows: Table

    constructor ()
      ensures rows == map[]
    {
      rows := map[];
    }

    method InsertOutboxEvent(id: Id, event: Id, now: nat)
      modifies this
      ensures rows == Inserted(old(rows), id, event, now)
      ensures rows == if id in old(rows) then old(rows)
                      else old(rows)[id := OutboxRow(event, PENDING, 0, None, None, None, now, None, None)]
    {
      if id !in rows {
        rows := rows[id := NewRow(event, now)];
      }
    }

    /** The first row of `ids` in creation order. */
    method Oldest(ids: set<Id>) returns (oldest: Id)
      requires ids != {} && ids <= rows.Keys
      ensures oldest in ids && forall x :: x in ids ==> rows[oldest].created <= rows[x].created
    {
      oldest :| oldest in ids;
      var rest := ids - {oldest};
      while rest != {}
        invariant rest <= ids && oldest in ids
        invariant forall x :: x in ids && x !in rest ==> rows[oldest].created <= rows[x].created
        decreases |rest|
      {
        var x :| x in rest;
        if rows[x].created < rows[oldest].created {
          oldest := x;
        }
        rest := rest - {x};
      }
    }

    /** Claims the oldest claimable rows, up to the limit, that no one else has locked. */
    method GetPendingOutboxEvents(limit: nat, worker: Id, lease: nat, now: nat, locked: set<Id>)
      returns (chosen: set<Id>)
      modifies this
      ensures Takes(old(rows), locked, now, limit, chosen)
      ensures rows == Claimed(old(rows), chosen, worker, now, lease)
      ensures rows.Keys == old(rows).Keys
      ensures forall id :: id in rows && id !in chosen ==> rows[id] == old(rows)[id]
      ensures forall id :: id in chosen && id in rows ==> IsLeased(old(rows)[id], rows[id], worker, now, lease)
    {
      hide Claimable, Older, Leased, IsLeased;
      ClaimLeases(rows, worker, now, lease);
      NoneChosen(rows, Free(rows, locked, now));
      var free := Free(rows, locked, now);
      chosen := {};
      var rest := free;
      while |chosen| < limit && rest != {}
        invariant rows == old(rows)
        invariant rest == free - chosen && chosen <= free && |chosen| <= limit
        invariant Older(rows, chosen, rest)
        decreases |rest|
      {
        var next := Oldest(rest);
        OlderNext(rows, chosen, rest, next);
        chosen := chosen + {next};
        rest := rest - {next};
      }
      SplitSizes(free, chosen, {});
      rows := map id | id in rows :: if id in chosen then Leased(rows[id], worker, now, lease) else rows[id];
    }

    method MarkOutboxEventPublished(id: Id, worker: Option<Id>, now: nat) returns (success: bool)
      modifies this
      ensures success <==>
                id in old(rows) && old(rows)[id].status == PROCESSING && (worker.None? || old(rows)[id].owner == worker)
      ensures rows == Publish(old(rows), id, worker, now)
    {
      success := id in rows && Fenced(rows[id], worker);
      if success {
        rows := rows[id := MarkedPublished(rows[id], now)];
      }
    }

    method MarkOutboxEventFailed(id: Id, error: Id, worker: Option<Id>) returns (success: bool)
      modifies this
      ensures success <==>
                id in old(rows) && old(rows)[id].status == PROCESSING && (worker.None? || old(rows)[id].owner == worker)
      ensures rows == Fail(old(rows), id, worker, error)
    {
      success := id in rows && Fenced(rows[id], worker);
      if success {
        rows := rows[id := MarkedFailed(rows[id], error)];
      }
    }
  }

  /** A relay worker; `sent` are the ids whose send the broker acknowledged. */
  class OutboxRelay {
    const worker: Id
    const batchSize: nat
    const lease: nat
    const table: OutboxTable
    var isRunning: bool
    var isProcessing: bool
    var sent: seq<Id>

    constructor (worker: Id, batchSize: nat, lease: nat, table: OutboxTable)
      ensures this.worker == worker && this.table == table && sent == [] && !isProcessing && !isRunning
      ensures this.batchSize == if batchSize == 0 then 50 else batchSize
      ensures this.lease == if lease == 0 then 30 else lease
    {
      this.worker := worker;
      this.batchSize := if batchSize == 0 then 50 else batchSize;
      this.lease := if lease == 0 then 30 else lease;
      this.table := table;
      isRunning := false;
      isProcessing := false;
      sent := [];
    }

    /** Sends one claimed row. `acked` says whether the broker acknowledges, `publish` and
        `fail` how the two completions end. A publication that cannot be recorded is recorded
        as a failure; only a failure that cannot be recorded is thrown. */
    method PublishEvent(id: Id, now: nat, acked: bool, publish: Mark, fail: Mark, error: Id) returns (threw: bool)
      modifies this`sent, table
      ensures sent == old(sent) + if acked then [id] else []
      ensures threw <==> !(acked && publish.Returned?) && fail.Threw?
      ensures var published := if acked && publish != Threw(false) then Publish(old(table.rows), id, Some(worker), now)
                               else old(table.rows);
              table.rows == if (acked && publish.Returned?) || fail == Threw(false) then published
                            else Fail(published, id, Some(worker), error)
      // a row whose publication was recorded stays published, whatever happens then
      ensures acked && publish != Threw(false) ==> table.rows == Publish(old(table.rows), id, Some(worker), now)
    {
      threw := false;
      if acked {
        sent := sent + [id];
        if publish != Threw(false) {
          var _ := table.MarkOutboxEventPublished(id, Some(worker), now);
        }
        if publish.Returned? {
          return;
        }
      }
      if fail != Threw(false) {
        var _ := table.MarkOutboxEventFailed(id, error, Some(worker));
      }
      threw := fail.Threw?;
    }

    /** An undisturbed sweep: every claimed row is published if the broker acknowledged it and
        else put back or, after its tenth attempt, given up; all other rows are untouched. */
    method ProcessBatch(now: nat, locked: set<Id>, acks: set<Id>, error: Id) returns (count: nat, ghost chosen: set<Id>)
      modifies this, table
      ensures isProcessing == old(isProcessing)
      ensures old(isProcessing) ==> count == 0 && chosen == {} && sent == old(sent) && table.rows == old(table.rows)
      ensures !old(isProcessing) ==> Takes(old(table.rows), locked, now, batchSize, chosen) && count == |chosen|
      ensures !old(isProcessing) ==> table.rows == Swept(old(table.rows), chosen, acks, worker, now, lease, error)
      ensures old(sent) <= sent && multiset(sent[|old(sent)|..]) == multiset(chosen * acks)
    {
      count, chosen := 0, {};
      if isProcessing {
        return;
      }
      isProcessing := true;
      var batch := table.GetPendingOutboxEvents(batchSize, worker, lease, now, locked);
      chosen := batch;
      ClaimIsFenced(old(table.rows), batch, worker, now, lease);
      SweptIsCompleted(old(table.rows), batch, acks, worker, now, lease, error);
      count := PublishAll(batch, now, acks, error);
      isProcessing := false;
    }

    /** The loop over a claimed batch; the claim returns its rows in no particular order. */
    method PublishAll(batch: set<Id>, now: nat, acks: set<Id>, error: Id) returns (count: nat)
      requires batch <= table.rows.Keys && forall id :: id in batch ==> Fenced(table.rows[id], Some(worker))
      modifies this`sent, table
      ensures count == |batch|
      ensures table.rows == Completed(old(table.rows), batch, acks, now, error)
      ensures old(sent) <= sent && multiset(sent[|old(sent)|..]) == multiset(batch * acks)
    {
      hide Completed, Fenced, Publish, Fail;
      count := 0;
      var todo := batch;
      ghost var done: set<Id> := {};
      CompletedNone(table.rows, acks, now, error);
      while todo != {}
        invariant todo <= batch && done == batch - todo && count == |done|
        invariant old(sent) <= sent && multiset(sent[|old(sent)|..]) == multiset(done * acks)
        invariant table.rows == Completed(old(table.rows), done, acks, now, error)
        decreases |todo|
      {
        var id :| id in todo;
        SentOneMore(old(sent), sent, id, done, acks);
        CompletedOneMore(old(table.rows), done, id, acks, worker, now, error);
        var threw := PublishEvent(id, now, id in acks, Returned, Returned, error);
        todo := todo - {id};
        done := done + {id};
        count := count + 1;
      }
      assert done == batch;
    }

    /** A sweep on demand; refused while stopped or busy. */
    method Trigger(now: nat, locked: set<Id>, acks: set<Id>, error: Id) returns (ghost chosen: set<Id>)
      modifies this, table
      ensures !old(isRunning) || old(isProcessing) ==>
                table.rows == old(table.rows) && sent == old(sent) && chosen == {}
      ensures old(isRunning) && !old(isProcessing) ==>
                && Takes(old(table.rows), locked, now, batchSize, chosen)
                && table.rows == Swept(old(table.rows), chosen, acks, worker, now, lease, error)
    {
      chosen := {};
      if !isRunning || isProcessing {
        return;
      }
      var count: nat;
      count, chosen := ProcessBatch(now, locked, acks, error);
    }
  }

  /** Completion of the claimed rows `done`. */
  function Completed(t: Table, done: set<Id>, acks: set<Id>, now: nat, error: Id): Table {
    map id | id in t ::
      if id !in done then t[id]
      else if id in acks then MarkedPublished(t[id], now)
      else MarkedFailed(t[id], error)
  }

  /** Every row after a whole sweep, in terms of the row before it. */
  function Swept(t: Table, chosen: set<Id>, acks: set<Id>, worker: Id, now: nat, lease: nat, error: Id): Table {
    map id | id in t ::
      if id !in chosen then t[id]
      else if id in acks then t[id].(status := PUBLISHED, attempts := t[id].attempts + 1, publishedAt := Some(now),
                                     owner := None, leasedAt := Some(now), expires := None)
      else t[id].(status := if t[id].attempts + 1 >= MAX_ATTEMPTS then FAILED else PENDING,
                  attempts := t[id].attempts + 1, lastError := Some(error),
                  owner := None, leasedAt := Some(now), expires := None)
  }

  lemma SweptIsCompleted(t: Table, chosen: set<Id>, acks: set<Id>, worker: Id, now: nat, lease: nat, error: Id)
    requires chosen <= t.Keys
    ensures Completed(Claimed(t, chosen, worker, now, lease), chosen, acks, now, error) ==
              Swept(t, chosen, acks, worker, now, lease, error)
  {
  }

  lemma CompletedNone(t: Table, acks: set<Id>, now: nat, error: Id)
    ensures Completed(t, {}, acks, now, error) == t
  {
  }

  lemma ClaimIsFenced(t: Table, chosen: set<Id>, worker: Id, now: nat, lease: nat)
    requires chosen <= t.Keys
    ensures var u := Claimed(t, chosen, worker, now, lease);
            chosen <= u.Keys && forall id :: id in chosen ==> Fenced(u[id], Some(worker))
  {
  }

  lemma CompletedOneMore(t: Table, done: set<Id>, id: Id, acks: set<Id>, worker: Id, now: nat, error: Id)
    requires id in t && id !in done && Fenced(t[id], Some(worker))
    ensures var u := Completed(t, done, acks, now, error);
            Completed(t, done + {id}, acks, now, error) ==
            if id in acks then Publish(u, id, Some(worker), now) else Fail(u, id, Some(worker), error)
  {
  }

  lemma SentOneMore(start: seq<Id>, was: seq<Id>, id: Id, done: set<Id>, acks: set<Id>)
    requires start <= was && id !in done && multiset(was[|start|..]) == multiset(done * acks)
    ensures var now := was + if id in acks then [id] else [];
            start <= now && multiset(now[|start|..]) == multiset((done + {id}) * acks)
  {
    var now := was + if id in acks then [id] else [];
    if id in acks {
      assert now[|start|..] == was[|start|..] + [id];
      assert (done + {id}) * acks == done * acks + {id};
    } else {
      assert now == was;
      assert (done + {id}) * acks == done * acks;
    }
  }
}
