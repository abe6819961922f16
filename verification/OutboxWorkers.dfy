/**
 Any number of relay workers over one outbox table, with a clock, lease expiry, failing sends,
 completions that throw before or after they commit, and crashes at every point. A worker
 claims a batch only when it has none in hand, and works through it one row at a time.
 */
module OutboxWorkers {
  import opened Contracts
  import opened Outbox

  /** One claim of one row: the row and the value its attempt counter got. */
  datatype Token = Token(id: Id, attempt: nat)

  /** Progress on the first row of the batch: to be sent, acknowledged, or to be recorded failed. */
  datatype Phase = Ready | Acked | Errored(error: Id)

  datatype Worker = Worker(batch: seq<Token>, phase: Phase)

  /** The table, the clock and the workers, with the record of the run: row ids in insertion
      order, claims and sends in order, acknowledged sends, and claims whose worker gave up
      without completing them. */
  datatype Relays = Relays(rows: Table, now: nat, workers: map<Id, Worker>,
                           journal: seq<Id>, claims: seq<Token>, sends: seq<Token>, acks: set<Token>, lost: set<Token>)

  datatype Step =
    | Tick(delay: nat)
    | Insert(id: Id, event: Id)
    | Claim(worker: Id, limit: nat, lease: nat, locked: set<Id>, ids: seq<Id>)
    | Send(worker: Id, acked: bool, error: Id)
    | MarkPublished(worker: Id, result: Mark, error: Id)
    | MarkFailed(worker: Id, result: Mark)
    | Crash(worker: Id)

  const IDLE: Worker := Worker([], Ready)

  const INITIAL: Relays := Relays(map[], 0, map[], [], [], [], {}, {})

  function At(s: Relays, w: Id): Worker {
    if w in s.workers then s.workers[w] else IDLE
  }

  function Batch(s: Relays, w: Id): seq<Token> { At(s, w).batch }

  function Elements<T(==)>(xs: seq<T>): set<T> { set x | x in xs }

  function Tokens(t: Table, ids: seq<Id>): seq<Token>
    requires Elements(ids) <= t.Keys
  {
    seq(|ids|, i requires 0 <= i < |ids| => assert ids[i] in Elements(ids); Token(ids[i], t[ids[i]].attempts + 1))
  }

  ghost predicate Enabled(s: Relays, step: Step) {
    match step
    case Tick(_) | Insert(_, _) => true
    case Claim(w, limit, _, locked, ids) => Batch(s, w) == [] && NoRepeats(ids) &&
                                            Takes(s.rows, locked, s.now, limit, Elements(ids))
    case Send(w, _, _) => Batch(s, w) != [] && At(s, w).phase.Ready?
    case MarkPublished(w, _, _) => Batch(s, w) != [] && At(s, w).phase.Acked?
    case MarkFailed(w, _) => Batch(s, w) != [] && At(s, w).phase.Errored?
    case Crash(w) => Batch(s, w) != []
  }

  ghost function Inserting(s: Relays, id: Id, event: Id): Relays {
    s.(rows := Inserted(s.rows, id, event, s.now), journal := if id in s.rows then s.journal else s.journal + [id])
  }

  ghost function Claiming(s: Relays, w: Id, lease: nat, ids: seq<Id>): Relays
    requires Elements(ids) <= s.rows.Keys
  {
    s.(rows := Claimed(s.rows, Elements(ids), w, s.now, lease),
       workers := s.workers[w := Worker(Tokens(s.rows, ids), Ready)],
       claims := s.claims + Tokens(s.rows, ids))
  }

  ghost function Sending(s: Relays, w: Id, acked: bool, error: Id): Relays
    requires Batch(s, w) != []
  {
    var k := Batch(s, w)[0];
    s.(sends := s.sends + [k], acks := if acked then s.acks + {k} else s.acks,
       workers := s.workers[w := At(s, w).(phase := if acked then Acked else Errored(error))])
  }

  /** The worker goes on to the next row of its batch. */
  ghost function Advanced(s: Relays, w: Id): Relays
    requires Batch(s, w) != []
  {
    s.(workers := s.workers[w := Worker(Batch(s, w)[1..], Ready)])
  }

  /** The worker gives up the rows of its batch from number `start` on. */
  ghost function Abandoned(s: Relays, w: Id, start: nat): Relays
    requires start <= |Batch(s, w)|
  {
    s.(workers := s.workers[w := IDLE], lost := s.lost + Elements(Batch(s, w)[start..]))
  }

  ghost function PublishRow(s: Relays, w: Id, result: Mark): Relays
    requires Batch(s, w) != []
  {
    if result == Threw(false) then s else s.(rows := Publish(s.rows, Batch(s, w)[0].id, Some(w), s.now))
  }

  ghost function FailRow(s: Relays, w: Id, result: Mark): Relays
    requires Batch(s, w) != [] && At(s, w).phase.Errored?
  {
    if result == Threw(false) then s else s.(rows := Fail(s.rows, Batch(s, w)[0].id, Some(w), At(s, w).phase.error))
  }

  /** One step; a step that is not enabled changes nothing. */
  ghost function Next(s: Relays, step: Step): Relays {
    if !Enabled(s, step) then s
    else
      match step
      case Tick(d) => s.(now := s.now + d)
      case Insert(id, event) => Inserting(s, id, event)
      case Claim(w, _, lease, _, ids) => Claiming(s, w, lease, ids)
      case Send(w, acked, error) => Sending(s, w, acked, error)
      case MarkPublished(w, result, error) =>
        var s' := PublishRow(s, w, result);
        if result.Returned? then Advanced(s', w)
        else s'.(workers := s'.workers[w := At(s, w).(phase := Errored(error))])
      case MarkFailed(w, result) =>
        var s' := FailRow(s, w, result);
        if result.Returned? then Advanced(s', w) else Abandoned(s', w, if result.committed then 1 else 0)
      case Crash(w) => Abandoned(s, w, 0)
  }

  ghost function After(steps: seq<Step>): Relays
    decreases |steps|
  {
    if steps == [] then INITIAL else Next(After(steps[..|steps| - 1]), steps[|steps| - 1])
  }

  // ----------------------------------------------------------------------------- invariants

  /** A row is owned and leased exactly while it is in progress, and its attempts, times and
      last error fit its status. */
  predicate RowOk(r: OutboxRow) {
    && r.attempts <= MAX_ATTEMPTS
    && (r.status.PENDING? ==> r.attempts < MAX_ATTEMPTS)
    && (r.status.FAILED? ==> r.attempts == MAX_ATTEMPTS)
    && (r.status.PROCESSING? <==> r.owner.Some?)
    && (r.status.PROCESSING? <==> r.expires.Some?)
    && (r.attempts > 0 <==> r.leasedAt.Some?)
    && (r.status.PROCESSING? || r.status.PUBLISHED? ==> r.attempts > 0)
    && (r.status.PUBLISHED? <==> r.publishedAt.Some?)
    && (r.status.FAILED? || (r.status.PENDING? && r.attempts > 0) ==> r.lastError.Some?)
  }

  ghost predicate RowsOk(s: Relays) {
    forall id :: id in s.rows ==> RowOk(s.rows[id])
  }

  /** A claim in a worker's hands: the worker owns the row exactly while the row is in
      progress and has not been claimed again. */
  predicate TokenOk(t: Table, w: Id, k: Token) {
    && k.id in t
    && 1 <= k.attempt <= t[k.id].attempts
    && (t[k.id].owner == Some(w) ==> t[k.id].attempts == k.attempt)
    && (t[k.id].status.PROCESSING? && t[k.id].attempts == k.attempt ==> t[k.id].owner == Some(w))
  }

  ghost predicate TokensOk(s: Relays) {
    forall w, i :: 0 <= i < |Batch(s, w)| ==> TokenOk(s.rows, w, Batch(s, w)[i])
  }

  /** No claim is in two hands, or twice in one. */
  ghost predicate TokensDiffer(s: Relays) {
    && (forall w :: NoRepeats(Batch(s, w)))
    && (forall w, v, k :: w != v && k in Batch(s, w) ==> k !in Batch(s, v))
  }

  predicate Issued(t: Table, k: Token) {
    k.id in t && 1 <= k.attempt <= t[k.id].attempts
  }

  /** Each claim is sent at most once, and the unsent ones in hand have not been sent. */
  ghost predicate SendsOk(s: Relays) {
    && NoRepeats(s.sends)
    && (forall k :: k in s.sends ==> Issued(s.rows, k))
    && (forall w, i :: 0 <= i < |Batch(s, w)| && (i > 0 || At(s, w).phase.Ready?) ==> Batch(s, w)[i] !in s.sends)
  }

  /** A published row was acknowledged by the broker. */
  ghost predicate AcksOk(s: Relays) {
    && (forall k :: k in s.acks ==> k in s.sends)
    && (forall w :: Batch(s, w) != [] && At(s, w).phase.Acked? ==> Batch(s, w)[0] in s.acks)
    && (forall id :: id in s.rows && s.rows[id].status.PUBLISHED? ==> Acknowledged(s, id))
  }

  ghost predicate Acknowledged(s: Relays, id: Id) {
    exists k :: k in s.acks && k.id == id
  }

  /** A row in progress is in its owner's hands, or its claim was given up. */
  ghost predicate OwnersOk(s: Relays) {
    forall id :: id in s.rows && s.rows[id].status.PROCESSING? ==>
      Token(id, s.rows[id].attempts) in s.lost ||
      (s.rows[id].owner.Some? && Token(id, s.rows[id].attempts) in Batch(s, s.rows[id].owner.value))
  }

  ghost predicate LostOk(s: Relays) {
    && (forall k :: k in s.lost ==> Issued(s.rows, k))
    && (forall w, k :: k in s.lost ==> k !in Batch(s, w))
  }

  function CountFor(ks: seq<Token>, id: Id): nat
    decreases |ks|
  {
    if ks == [] then 0 else CountFor(ks[..|ks| - 1], id) + if ks[|ks| - 1].id == id then 1 else 0
  }

  /** The attempt counter counts the claims. */
  ghost predicate ClaimsOk(s: Relays) {
    forall id :: CountFor(s.claims, id) == if id in s.rows then s.rows[id].attempts else 0
  }

  /** The journal lists the rows, oldest first. */
  ghost predicate JournalOk(s: Relays) {
    && NoRepeats(s.journal)
    && (forall id :: id in s.journal <==> id in s.rows)
    && (forall id :: id in s.rows ==> s.rows[id].created <= s.now)
  }

  ghost predicate Inv(s: Relays) {
    && RowsOk(s) && TokensOk(s) && TokensDiffer(s) && SendsOk(s) && AcksOk(s)
    && OwnersOk(s) && LostOk(s) && ClaimsOk(s) && JournalOk(s)
}

  // ------------------------------------------------------------------- what one row can go through

  /** Everything a step can do to an existing row. */
  ghost predicate RowStep(s: Relays, step: Step, id: Id, r: OutboxRow, r': OutboxRow) {
    || r' == r
    || (step.Claim? && id in step.ids && Claimable(r, s.now) && r' == Leased(r, step.worker, s.now, step.lease))
    || (step.MarkPublished? && At(s, step.worker).phase.Acked? && Marks(s, step.worker, id, r) &&
        r' == Outbox.MarkedPublished(r, s.now))
    || (step.MarkFailed? && At(s, step.worker).phase.Errored? && Marks(s, step.worker, id, r) &&
        r' == Outbox.MarkedFailed(r, At(s, step.worker).phase.error))
  }

  ghost predicate Marks(s: Relays, w: Id, id: Id, r: OutboxRow) {
    Batch(s, w) != [] && Batch(s, w)[0].id == id && r.status.PROCESSING? && r.owner == Some(w)
  }

  /** No step deletes a row, and rows change only by claim and fenced completion. */
  lemma RowsMove(s: Relays, step: Step, id: Id)
    requires id in s.rows
    ensures id in Next(s, step).rows && RowStep(s, step, id, s.rows[id], Next(s, step).rows[id])
  {
    hide NoRepeats, Claimable;
    if Enabled(s, step) && step.Claim? && id in step.ids {
      ClaimedIsClaimable(s, step, id);
    }
  }

  lemma ClaimedIsClaimable(s: Relays, step: Step, id: Id)
    requires step.Claim? && Enabled(s, step) && id in step.ids
    ensures id in s.rows && Claimable(s.rows[id], s.now)
  {
    hide NoRepeats, Claimable, Older;
    assert id in Elements(step.ids);
  }

  lemma NewRows(s: Relays, step: Step, id: Id)
    requires id !in s.rows && id in Next(s, step).rows
    ensures step.Insert? && Next(s, step).rows[id] == NewRow(step.event, s.now)
  {
    hide NoRepeats, Takes;
  }

  /** Attempts never shrink, and creation times never change. */
  lemma AttemptsGrow(s: Relays, step: Step, id: Id)
    requires id in s.rows
    ensures id in Next(s, step).rows && s.rows[id].attempts <= Next(s, step).rows[id].attempts
    ensures Next(s, step).rows[id].created == s.rows[id].created && Next(s, step).rows[id].event == s.rows[id].event
  {
    hide Next, Claimable, Marks;
    RowsMove(s, step, id);
  }

  lemma IssuedStays(s: Relays, step: Step, k: Token)
    requires Issued(s.rows, k)
    ensures Issued(Next(s, step).rows, k)
  {
    hide Next;
    AttemptsGrow(s, step, k.id);
  }

  /** The batches after a step: a claim fills the hands of its worker, everything else keeps a
      suffix of what was there. */
  ghost predicate Shrinks(before: seq<Token>, after: seq<Token>) {
    after == before || after == [] || (before != [] && after == before[1..])
  }

  lemma BatchesMove(s: Relays, step: Step, w: Id)
    ensures step.Claim? && w == step.worker && Enabled(s, step) ==>
              && Batch(s, w) == [] && Elements(step.ids) <= s.rows.Keys
              && Batch(Next(s, step), w) == Tokens(s.rows, step.ids)
              && At(Next(s, step), w).phase.Ready?
    ensures !(step.Claim? && w == step.worker && Enabled(s, step)) ==> Shrinks(Batch(s, w), Batch(Next(s, step), w))
  {
    hide NoRepeats, Claimable, Publish, Fail, Claimed, Older;
  }

  // ------------------------------------------------------------------------- each invariant kept

  lemma RowsOkNext(s: Relays, step: Step)
    requires RowsOk(s)
    ensures RowsOk(Next(s, step))
  {
    hide Next, Batch;
    forall id | id in Next(s, step).rows
      ensures RowOk(Next(s, step).rows[id])
    {
      if id in s.rows {
        RowsMove(s, step, id);
      } else {
        NewRows(s, step, id);
      }
    }
  }

  lemma TokenKept(s: Relays, step: Step, w: Id, k: Token)
    requires TokenOk(s.rows, w, k) && k in Batch(s, w)
    ensures TokenOk(Next(s, step).rows, w, k)
  {
    hide Next, Claimable;
    RowsMove(s, step, k.id);
    if step.Claim? && Next(s, step).rows[k.id] != s.rows[k.id] {
      OthersClaim(s, step, w);
    }
  }

  lemma OthersClaim(s: Relays, step: Step, w: Id)
    requires step.Claim? && Next(s, step) != s && Batch(s, w) != []
    ensures step.worker != w
  {
    hide Takes, NoRepeats, Claiming;
  }

  lemma NewTokenOk(s: Relays, step: Step, i: nat)
    requires step.Claim? && Enabled(s, step) && i < |step.ids| && Elements(step.ids) <= s.rows.Keys
    ensures TokenOk(Next(s, step).rows, step.worker, Tokens(s.rows, step.ids)[i])
  {
    hide Takes, NoRepeats;
    assert step.ids[i] in Elements(step.ids);
  }

  lemma TokensOkNext(s: Relays, step: Step)
    requires TokensOk(s)
    ensures TokensOk(Next(s, step))
  {
    hide Next, TokenOk, Enabled;
    var s' := Next(s, step);
    forall w, i | 0 <= i < |Batch(s', w)|
      ensures TokenOk(s'.rows, w, Batch(s', w)[i])
    {
      BatchesMove(s, step, w);
      if step.Claim? && w == step.worker && Enabled(s, step) {
        NewTokenOk(s, step, i);
      } else {
        ShrunkIsOld(Batch(s, w), Batch(s', w), i);
        TokenKept(s, step, w, Batch(s', w)[i]);
      }
    }
  }

  lemma ShrunkIsOld(before: seq<Token>, after: seq<Token>, i: nat)
    requires Shrinks(before, after) && i < |after|
    ensures after[i] in before
  {
  }

  lemma ShrunkKeepsDistinct(before: seq<Token>, after: seq<Token>)
    requires Shrinks(before, after) && NoRepeats(before)
    ensures NoRepeats(after)
  {
  }

  lemma NewTokensDiffer(t: Table, ids: seq<Id>)
    requires Elements(ids) <= t.Keys && NoRepeats(ids)
    ensures NoRepeats(Tokens(t, ids))
  {
  }

  /** A new claim has a number no earlier claim of its row has. */
  lemma NewTokensAreNew(t: Table, ids: seq<Id>, k: Token)
    requires Elements(ids) <= t.Keys && Issued(t, k)
    ensures k !in Tokens(t, ids)
  {
  }

  lemma TokensDifferNext(s: Relays, step: Step)
    requires TokensOk(s) && TokensDiffer(s)
    ensures TokensDiffer(Next(s, step))
  {
    hide Next, Enabled, NoRepeats, Shrinks;
    var s' := Next(s, step);
    forall w
      ensures NoRepeats(Batch(s', w))
    {
      BatchesMove(s, step, w);
      if step.Claim? && w == step.worker && Enabled(s, step) {
        EnabledClaim(s, step);
        NewTokensDiffer(s.rows, step.ids);
      } else {
        ShrunkKeepsDistinct(Batch(s, w), Batch(s', w));
      }
    }
    forall w, v, k | w != v && k in Batch(s', w)
      ensures k !in Batch(s', v)
    {
      HandsDiffer(s, step, w, v, k);
    }
  }

  lemma EnabledClaim(s: Relays, step: Step)
    requires step.Claim? && Enabled(s, step)
    ensures NoRepeats(step.ids)
  {
    hide NoRepeats, Takes;
  }

  lemma HandsDiffer(s: Relays, step: Step, w: Id, v: Id, k: Token)
    requires TokensOk(s) && TokensDiffer(s) && w != v && k in Batch(Next(s, step), w)
    ensures k !in Batch(Next(s, step), v)
  {
    hide Next, Enabled, NoRepeats, Tokens;
    BatchesMove(s, step, w);
    BatchesMove(s, step, v);
    var s' := Next(s, step);
    if step.Claim? && w == step.worker && Enabled(s, step) {
      if k in Batch(s', v) {
        assert k in Batch(s, v);
        NewTokensAreNew(s.rows, step.ids, k) by { HeldIsIssued(s, v, k); }
      }
    } else if step.Claim? && v == step.worker && Enabled(s, step) {
      assert k in Batch(s, w);
      NewTokensAreNew(s.rows, step.ids, k) by { HeldIsIssued(s, w, k); }
    } else {
      assert k in Batch(s, w);
    }
  }

  lemma HeldIsIssued(s: Relays, w: Id, k: Token)
    requires TokensOk(s) && k in Batch(s, w)
    ensures Issued(s.rows, k)
  {
    var i :| 0 <= i < |Batch(s, w)| && Batch(s, w)[i] == k;
    assert TokenOk(s.rows, w, Batch(s, w)[i]);
  }

  lemma SendsNext(s: Relays, step: Step)
    requires TokensOk(s) && SendsOk(s)
    ensures NoRepeats(Next(s, step).sends) && forall k :: k in Next(s, step).sends ==> Issued(Next(s, step).rows, k)
  {
    hide Next, Enabled, Issued;
    SendsMove(s, step);
    forall k | k in Next(s, step).sends
      ensures Issued(Next(s, step).rows, k)
    {
      if k !in s.sends {
        HeldIsIssued(s, step.worker, k);
      }
      IssuedStays(s, step, k);
    }
  }

  lemma SendsMove(s: Relays, step: Step)
    ensures Next(s, step).sends == s.sends ||
            (step.Send? && Batch(s, step.worker) != [] && At(s, step.worker).phase.Ready? &&
             Next(s, step).sends == s.sends + [Batch(s, step.worker)[0]]
             && Batch(Next(s, step), step.worker) == Batch(s, step.worker)
             && !At(Next(s, step), step.worker).phase.Ready?)
  {
    hide Takes, NoRepeats, Publish, Fail, Claimed, Inserted;
  }

  /** The phase is `Ready` in a batch just claimed or just moved on, and else as it was. */
  lemma UnsentMove(s: Relays, step: Step, w: Id, i: nat)
    requires i < |Batch(Next(s, step), w)| && (i > 0 || At(Next(s, step), w).phase.Ready?)
    requires !(step.Claim? && w == step.worker && Enabled(s, step))
    ensures exists j :: 0 <= j < |Batch(s, w)| && Batch(s, w)[j] == Batch(Next(s, step), w)[i] &&
                        (j > 0 || At(s, w).phase.Ready?)
  {
    hide Next, Enabled;
    var s' := Next(s, step);
    WorkerMoves(s, step, w);
    var j := if Batch(s', w) == Batch(s, w) then i else i + 1;
    assert Batch(s, w)[j] == Batch(s', w)[i];
  }

  lemma WorkerMoves(s: Relays, step: Step, w: Id)
    requires !(step.Claim? && w == step.worker && Enabled(s, step))
    ensures var (a, b) := (At(s, w), At(Next(s, step), w));
            a == b || (a.batch == b.batch && !b.phase.Ready?) || b.batch == [] ||
            (a.batch != [] && b.batch == a.batch[1..])
  {
    hide Takes, NoRepeats, Publish, Fail, Claimed, Inserted;
  }

  lemma UnsentNext(s: Relays, step: Step, w: Id, i: nat)
    requires TokensOk(s) && TokensDiffer(s) && SendsOk(s)
    requires i < |Batch(Next(s, step), w)| && (i > 0 || At(Next(s, step), w).phase.Ready?)
    ensures Batch(Next(s, step), w)[i] !in Next(s, step).sends
  {
    hide Next, Enabled, Issued, TokenOk, Tokens;
    var s' := Next(s, step);
    SendsMove(s, step);
    if step.Claim? && w == step.worker && Enabled(s, step) {
      BatchesMove(s, step, w);
      var k := Batch(s', w)[i];
      if k in s.sends {
        NewTokensAreNew(s.rows, step.ids, k);
      }
    } else {
      UnsentMove(s, step, w, i);
      var j :| 0 <= j < |Batch(s, w)| && Batch(s, w)[j] == Batch(s', w)[i] && (j > 0 || At(s, w).phase.Ready?);
      assert Batch(s, w)[j] !in s.sends;
      if s'.sends != s.sends && Batch(s', w)[i] == Batch(s, step.worker)[0] {
        SameHand(s, w, step.worker, Batch(s', w)[i]);
      }
    }
  }

  lemma SameHand(s: Relays, w: Id, v: Id, k: Token)
    requires TokensDiffer(s) && k in Batch(s, w) && k in Batch(s, v)
    ensures w == v && NoRepeats(Batch(s, w))
  {
  }

  lemma SendsOkNext(s: Relays, step: Step)
    requires TokensOk(s) && TokensDiffer(s) && SendsOk(s)
    ensures SendsOk(Next(s, step))
  {
    hide Next, Issued, TokensOk, TokensDiffer, NoRepeats;
    SendsNext(s, step);
    forall w, i | 0 <= i < |Batch(Next(s, step), w)| && (i > 0 || At(Next(s, step), w).phase.Ready?)
      ensures Batch(Next(s, step), w)[i] !in Next(s, step).sends
    {
      UnsentNext(s, step, w, i);
    }
  }

  lemma AcksMove(s: Relays, step: Step)
    ensures s.acks <= Next(s, step).acks
    ensures forall k :: k in Next(s, step).acks && k !in s.acks ==> k in Next(s, step).sends
    ensures forall k :: k in s.sends ==> k in Next(s, step).sends
    ensures forall w :: Batch(Next(s, step), w) != [] && At(Next(s, step), w).phase.Acked? ==>
              (At(s, w) == At(Next(s, step), w)) || Batch(Next(s, step), w)[0] in Next(s, step).acks
  {
    hide Takes, NoRepeats, Publish, Fail, Claimed, Inserted;
  }

  lemma AcksOkNext(s: Relays, step: Step)
    requires AcksOk(s)
    ensures AcksOk(Next(s, step))
  {
    hide Next, Claimable;
    var s' := Next(s, step);
    AcksMove(s, step);
    forall id | id in s'.rows && s'.rows[id].status.PUBLISHED?
      ensures Acknowledged(s', id)
    {
      if id !in s.rows {
        NewRows(s, step, id);
      } else {
        RowsMove(s, step, id);
        if s.rows[id].status.PUBLISHED? {
          var k :| k in s.acks && k.id == id;
          assert k in s'.acks;
        } else {
          assert Batch(s, step.worker)[0] in s'.acks;
        }
      }
    }
  }

  /** A claim leaves a worker's hands by its completion or into `lost`. */
  lemma ReleasedTokens(s: Relays, step: Step, w: Id, k: Token)
    requires k in Batch(s, w) && k !in Batch(Next(s, step), w) && k !in Next(s, step).lost
    ensures Enabled(s, step) && (step.MarkPublished? || step.MarkFailed?) && step.worker == w && k == Batch(s, w)[0] &&
            step.result != Threw(false)
  {
    hide Takes, NoRepeats, Publish, Fail, Claimed, Inserted;
  }

  lemma LostMove(s: Relays, step: Step)
    ensures s.lost <= Next(s, step).lost
    ensures forall k :: k in Next(s, step).lost && k !in s.lost ==>
              k in Batch(s, step.worker) && Batch(Next(s, step), step.worker) == []
    ensures Next(s, step).lost != s.lost ==> step.MarkFailed? || step.Crash?
  {
    hide Takes, NoRepeats, Publish, Fail, Claimed, Inserted;
  }

  lemma OwnersOkNext(s: Relays, step: Step)
    requires RowsOk(s) && TokensOk(s) && OwnersOk(s)
    ensures OwnersOk(Next(s, step))
  {
    hide Next, Enabled, RowOk, TokenOk;
    var s' := Next(s, step);
    forall id | id in s'.rows && s'.rows[id].status.PROCESSING?
      ensures Token(id, s'.rows[id].attempts) in s'.lost ||
              (s'.rows[id].owner.Some? && Token(id, s'.rows[id].attempts) in Batch(s', s'.rows[id].owner.value))
    {
      OwnerNext(s, step, id);
    }
  }

  lemma OwnerNext(s: Relays, step: Step, id: Id)
    requires RowsOk(s) && TokensOk(s) && OwnersOk(s) && id in Next(s, step).rows &&
             Next(s, step).rows[id].status.PROCESSING?
    ensures var s' := Next(s, step);
            Token(id, s'.rows[id].attempts) in s'.lost ||
            (s'.rows[id].owner.Some? && Token(id, s'.rows[id].attempts) in Batch(s', s'.rows[id].owner.value))
  {
    hide Next, Enabled, TokensOk, Claimable, Marks, RowsOk;
    var s' := Next(s, step);
    LostMove(s, step);
    if id !in s.rows {
      NewRows(s, step, id);
    } else {
      RowsMove(s, step, id);
      if s'.rows[id] == s.rows[id] {
        var k := Token(id, s.rows[id].attempts);
        if k !in s'.lost && k !in Batch(s', s.rows[id].owner.value) {
          ReleasedTokens(s, step, s.rows[id].owner.value, k);
          CompletedMoves(s, step);
          assert false;
        }
      } else {
        ClaimedIsInHand(s, step, id);
      }
    }
  }

  /** A completion that commits on an owned row takes it out of progress. */
  lemma CompletedMoves(s: Relays, step: Step)
    requires Enabled(s, step) && (step.MarkPublished? || step.MarkFailed?) && step.result != Threw(false)
    ensures var id := Batch(s, step.worker)[0].id;
            id in s.rows && Fenced(s.rows[id], Some(step.worker)) ==> !Next(s, step).rows[id].status.PROCESSING?
  {
  }

  lemma ClaimedIsInHand(s: Relays, step: Step, id: Id)
    requires step.Claim? && id in step.ids && id in s.rows && Next(s, step) != s
    ensures id in Next(s, step).rows && Next(s, step).rows[id].owner == Some(step.worker)
    ensures Token(id, Next(s, step).rows[id].attempts) in Batch(Next(s, step), step.worker)
  {
    hide Takes, NoRepeats;
    var i :| 0 <= i < |step.ids| && step.ids[i] == id;
    assert Enabled(s, step);
    BatchesMove(s, step, step.worker);
    assert id in Elements(step.ids);
    assert Tokens(s.rows, step.ids)[i] == Token(id, s.rows[id].attempts + 1);
  }

  lemma LostOkNext(s: Relays, step: Step)
    requires TokensOk(s) && TokensDiffer(s) && LostOk(s)
    ensures LostOk(Next(s, step))
  {
    hide Next, Enabled, Issued, TokensOk, TokensDiffer, Tokens;
    var s' := Next(s, step);
    LostMove(s, step);
    forall k | k in s'.lost
      ensures Issued(s.rows, k) && Issued(s'.rows, k)
    {
      if k !in s.lost {
        HeldIsIssued(s, step.worker, k);
      }
      IssuedStays(s, step, k);
    }
    forall w, k | k in s'.lost
      ensures k !in Batch(s', w)
    {
      if k in Batch(s', w) {
        BatchesMove(s, step, w);
        if step.Claim? && w == step.worker && Enabled(s, step) {
          NewTokensAreNew(s.rows, step.ids, k);
        } else {
          assert k in Batch(s, w);
          if k !in s.lost {
            SameHand(s, w, step.worker, k);
          }
        }
      }
    }
  }

  lemma {:induction false} CountAppend(a: seq<Token>, b: seq<Token>, id: Id)
    ensures CountFor(a + b, id) == CountFor(a, id) + CountFor(b, id)
    decreases |b|
  {
    if b == [] {
      assert a + b == a;
    } else {
      var n := |b| - 1;
      assert (a + b)[..|a + b| - 1] == a + b[..n];
      CountAppend(a, b[..n], id);
    }
  }

  lemma {:induction false} CountTokens(t: Table, ids: seq<Id>, id: Id)
    requires Elements(ids) <= t.Keys && NoRepeats(ids)
    ensures CountFor(Tokens(t, ids), id) == if id in ids then 1 else 0
    decreases |ids|
  {
    if ids == [] {
    } else {
      var n := |ids| - 1;
      assert Elements(ids[..n]) <= Elements(ids);
      CountTokens(t, ids[..n], id);
      assert Tokens(t, ids)[..n] == Tokens(t, ids[..n]);
      assert ids == ids[..n] + [ids[n]];
    }
  }

  lemma ClaimsOkNext(s: Relays, step: Step)
    requires ClaimsOk(s)
    ensures ClaimsOk(Next(s, step))
  {
    hide Next, Enabled, CountFor;
    forall id
      ensures CountFor(Next(s, step).claims, id) == if id in Next(s, step).rows
                                                    then Next(s, step).rows[id].attempts else 0
    {
      ClaimCounted(s, step, id);
    }
  }

  lemma ClaimCounted(s: Relays, step: Step, id: Id)
    requires ClaimsOk(s)
    ensures CountFor(Next(s, step).claims, id) == if id in Next(s, step).rows then Next(s, step).rows[id].attempts
                                                  else 0
  {
    hide CountFor, Takes, NoRepeats, Tokens;
    var s' := Next(s, step);
    if step.Claim? && Enabled(s, step) {
      assert Elements(step.ids) <= s.rows.Keys by { BatchesMove(s, step, step.worker); }
      CountAppend(s.claims, Tokens(s.rows, step.ids), id);
      CountTokens(s.rows, step.ids, id);
    }
  }

  lemma JournalOkNext(s: Relays, step: Step)
    requires JournalOk(s)
    ensures JournalOk(Next(s, step))
  {
    hide Next, Takes;
    var s' := Next(s, step);
    JournalMoves(s, step);
    forall id | id in s'.rows
      ensures s'.rows[id].created <= s'.now
    {
      if id in s.rows {
        AttemptsGrow(s, step, id);
      } else {
        NewRows(s, step, id);
      }
    }
  }

  lemma JournalMoves(s: Relays, step: Step)
    requires JournalOk(s)
    ensures NoRepeats(Next(s, step).journal) && s.now <= Next(s, step).now && s.journal <= Next(s, step).journal
    ensures forall id :: id in Next(s, step).journal <==> id in Next(s, step).rows
  {
    hide Takes;
  }

  // ------------------------------------------------------------------------------ every run

  lemma InvNext(s: Relays, step: Step)
    requires Inv(s)
    ensures Inv(Next(s, step))
  {
    hide Next, RowsOk, TokensOk, TokensDiffer, SendsOk, AcksOk, OwnersOk, LostOk, ClaimsOk, JournalOk;
    RowsOkNext(s, step);
    TokensOkNext(s, step);
    TokensDifferNext(s, step);
    SendsOkNext(s, step);
    AcksOkNext(s, step);
    OwnersOkNext(s, step);
    LostOkNext(s, step);
    ClaimsOkNext(s, step);
    JournalOkNext(s, step);
  }

  lemma InvInitially()
    ensures Inv(INITIAL)
  {
  }

  lemma {:induction false} InvAlways(steps: seq<Step>)
    ensures Inv(After(steps))
    decreases |steps|
  {
    hide Inv, Next;
    if steps == [] {
      InvInitially();
    } else {
      InvAlways(steps[..|steps| - 1]);
      InvNext(After(steps[..|steps| - 1]), steps[|steps| - 1]);
    }
  }

  lemma AfterSnoc(steps: seq<Step>, step: Step)
    ensures After(steps + [step]) == Next(After(steps), step)
  {
    hide Next;
    assert (steps + [step])[..|steps|] == steps;
  }

  /** Outbox safety: in every run, a published row was acknowledged by the broker, and no row
      is ever deleted. */
  lemma {:induction false} PublishedWasAcknowledged(steps: seq<Step>, more: seq<Step>)
    ensures forall id :: id in After(steps).rows && After(steps).rows[id].status.PUBLISHED? ==>
              Acknowledged(After(steps), id)
    ensures After(steps).rows.Keys <= After(steps + more).rows.Keys
    decreases |more|
  {
    hide Next, After, Acknowledged, RowsOk, TokensOk, TokensDiffer, SendsOk, OwnersOk, LostOk, ClaimsOk, JournalOk;
    InvAlways(steps);
    if more == [] {
      assert steps + more == steps;
    } else {
      var n := |more| - 1;
      PublishedWasAcknowledged(steps, more[..n]);
      assert steps + more == steps + more[..n] + [more[n]];
      AfterSnoc(steps + more[..n], more[n]);
      forall id | id in After(steps + more[..n]).rows
        ensures id in After(steps + more).rows
      {
        AttemptsGrow(After(steps + more[..n]), more[n], id);
      }
    }
  }

  // ----------------------------------------------------------------------- leases and fencing

  /** The owner check is a fence by claim: a completion takes effect exactly when the row is
      still in progress under the very claim the worker holds. */
  lemma FenceIsByClaim(steps: seq<Step>, w: Id)
    requires Batch(After(steps), w) != []
    ensures var (t, k) := (After(steps).rows, Batch(After(steps), w)[0]);
            k.id in t && (Fenced(t[k.id], Some(w)) <==> t[k.id].status.PROCESSING? && t[k.id].attempts == k.attempt)
  {
    hide After, Next, TokensDiffer, SendsOk, AcksOk, OwnersOk, LostOk, ClaimsOk, JournalOk;
    InvAlways(steps);
    assert TokenOk(After(steps).rows, w, Batch(After(steps), w)[0]);
  }

  lemma {:induction false} AttemptsGrowAlong(steps: seq<Step>, more: seq<Step>, id: Id)
    requires id in After(steps).rows
    ensures id in After(steps + more).rows && After(steps).rows[id].attempts <= After(steps + more).rows[id].attempts
    decreases |more|
  {
    hide Next, After;
    if more == [] {
      assert steps + more == steps;
    } else {
      var n := |more| - 1;
      AttemptsGrowAlong(steps, more[..n], id);
      assert steps + more == steps + more[..n] + [more[n]];
      AfterSnoc(steps + more[..n], more[n]);
      AttemptsGrow(After(steps + more[..n]), more[n], id);
    }
  }

  /** Fencing: once the row of a claim has been claimed again, no completion made under the
      old claim, now or at any later time, changes any row. */
  lemma StaleClaimIsPowerless(steps: seq<Step>, more: seq<Step>, w: Id, k: Token, step: Step)
    requires k.id in After(steps).rows && After(steps).rows[k.id].attempts > k.attempt
    requires Batch(After(steps + more), w) != [] && Batch(After(steps + more), w)[0] == k
    requires (step.MarkPublished? || step.MarkFailed?) && step.worker == w
    ensures After(steps + more + [step]).rows == After(steps + more).rows
  {
    hide After, Batch;
    AttemptsGrowAlong(steps, more, k.id);
    FenceIsByClaim(steps + more, w);
    AfterSnoc(steps + more, step);
    UnfencedChangesNothing(After(steps + more), step);
  }

  lemma UnfencedChangesNothing(s: Relays, step: Step)
    requires (step.MarkPublished? || step.MarkFailed?) && Batch(s, step.worker) != []
    requires Batch(s, step.worker)[0].id in s.rows ==> !Fenced(s.rows[Batch(s, step.worker)[0].id], Some(step.worker))
    ensures Next(s, step).rows == s.rows
  {
  }

  /** A completion of the claim `k` by the worker that holds it. */
  ghost predicate Completes(s: Relays, step: Step, k: Token) {
    && (step.MarkPublished? || step.MarkFailed?)
    && Batch(s, step.worker) != [] && Batch(s, step.worker)[0] == k
  }

  /** The row is in progress under the claim `k`, and its lease lasts at least until `expires`. */
  ghost predicate LeasedUnder(s: Relays, k: Token, r: OutboxRow) {
    k.id in s.rows && s.rows[k.id] == r && r.status.PROCESSING? && r.attempts == k.attempt && r.expires.Some?
  }

  lemma LeaseKeepsRow(s: Relays, step: Step, k: Token, r: OutboxRow)
    requires Inv(s) && LeasedUnder(s, k, r) && s.now <= r.expires.value && !Completes(s, step, k)
    ensures LeasedUnder(Next(s, step), k, r)
  {
    hide Next, RowsOk, TokensDiffer, SendsOk, AcksOk, OwnersOk, LostOk, ClaimsOk, JournalOk;
    RowsMove(s, step, k.id);
    forall w | Marks(s, w, k.id, r)
      ensures Batch(s, w)[0] == k
    {
      assert TokenOk(s.rows, w, Batch(s, w)[0]);
    }
  }

  /** A lease holds: along every continuation, until the lease has run out or the holder has
      completed its claim, the row stays exactly as the claim left it; nobody else claims,
      completes or otherwise changes it. */
  lemma {:induction false} LeaseHolds(steps: seq<Step>, more: seq<Step>, k: Token, r: OutboxRow)
    requires LeasedUnder(After(steps), k, r)
    requires forall i :: 0 <= i < |more| ==>
      After(steps + more[..i]).now <= r.expires.value && !Completes(After(steps + more[..i]), more[i], k)
    ensures LeasedUnder(After(steps + more), k, r)
    decreases |more|
  {
    hide After, Next, Inv, LeasedUnder, Completes;
    if more == [] {
      assert steps + more == steps;
    } else {
      var n := |more| - 1;
      assert forall i :: 0 <= i < n ==> more[..n][..i] == more[..i];
      LeaseHolds(steps, more[..n], k, r);
      assert steps + more == steps + more[..n] + [more[n]];
      AfterSnoc(steps + more[..n], more[n]);
      InvAlways(steps + more[..n]);
      LeaseKeepsRow(After(steps + more[..n]), more[n], k, r);
    }
  }

  /** The row is as the claim left it, or has been claimed again after the lease had run out. */
  ghost predicate HeldOrLapsed(s: Relays, k: Token, r: OutboxRow) {
    && k.id in s.rows && r.status.PROCESSING? && r.attempts == k.attempt && r.expires.Some?
    && (s.rows[k.id] == r || (s.rows[k.id].attempts > k.attempt && s.now > r.expires.value))
  }

  lemma HeldOrLapsedNext(s: Relays, step: Step, k: Token, r: OutboxRow)
    requires Inv(s) && HeldOrLapsed(s, k, r) && !Completes(s, step, k)
    ensures HeldOrLapsed(Next(s, step), k, r)
  {
    hide Next, RowsOk, TokensDiffer, SendsOk, AcksOk, OwnersOk, LostOk, ClaimsOk;
    RowsMove(s, step, k.id);
    AttemptsGrow(s, step, k.id);
    JournalMoves(s, step);
    forall w | s.rows[k.id] == r && Marks(s, w, k.id, r)
      ensures Batch(s, w)[0] == k
    {
      assert TokenOk(s.rows, w, Batch(s, w)[0]);
    }
  }

  lemma {:induction false} HeldOrLapsedAlong(steps: seq<Step>, more: seq<Step>, k: Token, r: OutboxRow)
    requires HeldOrLapsed(After(steps), k, r)
    requires forall i :: 0 <= i < |more| ==> !Completes(After(steps + more[..i]), more[i], k)
    ensures HeldOrLapsed(After(steps + more), k, r)
    decreases |more|
  {
    hide After, Next, Inv, HeldOrLapsed, Completes;
    if more == [] {
      assert steps + more == steps;
    } else {
      var n := |more| - 1;
      assert forall i :: 0 <= i < n ==> more[..n][..i] == more[..i];
      HeldOrLapsedAlong(steps, more[..n], k, r);
      assert steps + more == steps + more[..n] + [more[n]];
      AfterSnoc(steps + more[..n], more[n]);
      InvAlways(steps + more[..n]);
      HeldOrLapsedNext(After(steps + more[..n]), more[n], k, r);
    }
  }

  lemma ClaimTakes(s: Relays, claim: Step, id: Id)
    requires claim.Claim? && Enabled(s, claim) && id in claim.ids
    ensures id in s.rows && id in Next(s, claim).rows
    ensures IsLeased(s.rows[id], Next(s, claim).rows[id], claim.worker, s.now, claim.lease)
  {
    hide Takes, NoRepeats, IsLeased, Leased;
    ClaimedIsClaimable(s, claim, id);
    ClaimLeases(s.rows, claim.worker, s.now, claim.lease);
    assert id in Elements(claim.ids);
  }

  /** A claim lasts exactly as long as it asked for. Along every continuation in which its
      holder does not complete it, the row stays as the claim left it while the clock is at
      most the claim's time plus its lease; it is claimed again only after that; and as long as
      it is not, it is claimable exactly from then on, if it has attempts to spare. */
  lemma ClaimLastsExactly(steps: seq<Step>, claim: Step, id: Id, more: seq<Step>)
    requires claim.Claim? && Enabled(After(steps), claim) && id in claim.ids && id in After(steps).rows
    requires var k := Token(id, After(steps).rows[id].attempts + 1);
             forall i :: 0 <= i < |more| ==> !Completes(After(steps + [claim] + more[..i]), more[i], k)
    ensures var before, claimed, s := After(steps), After(steps + [claim]), After(steps + [claim] + more);
            var end, attempt := before.now + claim.lease, before.rows[id].attempts + 1;
            && id in claimed.rows && id in s.rows
            && (s.now <= end ==> s.rows[id] == claimed.rows[id])
            && (s.rows[id].attempts > attempt ==> s.now > end)
            && (s.rows[id].attempts == attempt ==> (Claimable(s.rows[id], s.now) <==> s.now > end && attempt < 10))
  {
    hide After, Next, Enabled, Completes, Claimable;
    AfterSnoc(steps, claim);
    ClaimTakes(After(steps), claim, id);
    var r := After(steps + [claim]).rows[id];
    var k := Token(id, After(steps).rows[id].attempts + 1);
    HeldOrLapsedAlong(steps + [claim], more, k, r);
    LeasedIsClaimable(r, After(steps + [claim] + more).now);
  }

  lemma LeasedIsClaimable(r: OutboxRow, now: nat)
    requires r.status.PROCESSING? && r.expires.Some?
    ensures Claimable(r, now) <==> now > r.expires.value && r.attempts < 10
  {
  }

  // ------------------------------------------------------------------------- bounded attempts

  function AttemptsIn(ks: seq<Token>, id: Id): set<nat> {
    set k | k in ks && k.id == id :: k.attempt
  }

  lemma {:induction false} DistinctAreCounted(ks: seq<Token>, id: Id)
    requires NoRepeats(ks)
    ensures CountFor(ks, id) == |AttemptsIn(ks, id)|
    decreases |ks|
  {
    if ks == [] {
    } else {
      var n := |ks| - 1;
      DistinctAreCounted(ks[..n], id);
      assert ks == ks[..n] + [ks[n]];
      if ks[n].id == id {
        assert AttemptsIn(ks, id) == AttemptsIn(ks[..n], id) + {ks[n].attempt};
        forall k | k in ks[..n] && k.id == id
          ensures k.attempt != ks[n].attempt
        {
          assert k != ks[n];
        }
      } else {
        assert AttemptsIn(ks, id) == AttemptsIn(ks[..n], id);
      }
    }
  }

  /** How many sends a run has made, acknowledged or not. */
  ghost function SendsMade(steps: seq<Step>): nat
    decreases |steps|
  {
    if steps == [] then 0
    else
      var n := |steps| - 1;
      SendsMade(steps[..n]) + if steps[n].Send? && Enabled(After(steps[..n]), steps[n]) then 1 else 0
  }

  lemma SendIsRecorded(s: Relays, step: Step)
    ensures |Next(s, step).sends| == |s.sends| + if step.Send? && Enabled(s, step) then 1 else 0
    ensures forall k :: k in Next(s, step).acks && k !in s.acks ==> step.Send? && step.acked
    ensures step.Send? && Enabled(s, step) && step.acked ==> Batch(s, step.worker)[0] in Next(s, step).acks
  {
    hide Takes, NoRepeats, Publish, Fail, Claimed, Inserted;
  }

  /** The record of sends is complete: it counts every send of the run. */
  lemma {:induction false} EverySendIsRecorded(steps: seq<Step>)
    ensures |After(steps).sends| == SendsMade(steps)
    decreases |steps|
  {
    hide Next, Enabled;
    if steps == [] {
    } else {
      EverySendIsRecorded(steps[..|steps| - 1]);
      SendIsRecorded(After(steps[..|steps| - 1]), steps[|steps| - 1]);
    }
  }

  function UpTo(n: nat): (r: set<nat>)
    ensures forall i :: i in r <==> 1 <= i <= n
  {
    if n == 0 then {} else UpTo(n - 1) + {n}
  }

  lemma {:induction false} UpToSize(n: nat)
    ensures |UpTo(n)| == n
  {
    if n == 0 {
    } else {
      UpToSize(n - 1);
    }
  }

  lemma Fits(a: set<nat>, n: nat)
    requires a <= UpTo(n)
    ensures |a| <= n
  {
    UpToSize(n);
    assert UpTo(n) == a + (UpTo(n) - a);
    assert |UpTo(n)| == |a| + |UpTo(n) - a|;
  }

  /** Bounded attempts: a row is claimed at most ten times and sent at most once per claim,
      waits only with attempts to spare, fails only after the tenth, and is owned exactly
      while in progress. */
  lemma AttemptsAreBounded(steps: seq<Step>, id: Id)
    requires id in After(steps).rows
    ensures var s := After(steps);
            && RowOk(s.rows[id])
            && CountFor(s.claims, id) == s.rows[id].attempts <= 10
            && (s.rows[id].status.PENDING? ==> s.rows[id].attempts < 10)
            && (s.rows[id].status.FAILED? ==> s.rows[id].attempts == 10)
            && CountFor(s.sends, id) <= s.rows[id].attempts
  {
    hide After, Next, TokensOk, TokensDiffer, AcksOk, OwnersOk, LostOk, JournalOk, CountFor;
    InvAlways(steps);
    var s := After(steps);
    DistinctAreCounted(s.sends, id);
    assert AttemptsIn(s.sends, id) <= UpTo(s.rows[id].attempts) by { SentWithin(s, id); }
    Fits(AttemptsIn(s.sends, id), s.rows[id].attempts);
  }

  lemma SentWithin(s: Relays, id: Id)
    requires SendsOk(s) && id in s.rows
    ensures AttemptsIn(s.sends, id) <= UpTo(s.rows[id].attempts)
  {
    forall n | n in AttemptsIn(s.sends, id)
      ensures n in UpTo(s.rows[id].attempts)
    {
      assert Token(id, n) in s.sends;
      assert Issued(s.rows, Token(id, n));
    }
  }

  // --------------------------------------------------------------------------------- drain

  /** In progress on the last attempt, with nobody left to complete it. */
  predicate Stuck(s: Relays, id: Id) {
    && id in s.rows && s.rows[id].status.PROCESSING? && s.rows[id].attempts == MAX_ATTEMPTS
    && Token(id, MAX_ATTEMPTS) in s.lost
  }

  predicate Ended(s: Relays, id: Id) {
    id in s.rows && (s.rows[id].status.PUBLISHED? || s.rows[id].status.FAILED? || Stuck(s, id))
  }

  /** The row can be claimed now or will be once its lease has run out. */
  ghost predicate ClaimableEventually(r: OutboxRow) {
    exists now: nat :: Claimable(r, now)
  }

  lemma EventualClaims(r: OutboxRow)
    requires RowOk(r)
    ensures ClaimableEventually(r) <==> r.status.PENDING? || (r.status.PROCESSING? && r.attempts < MAX_ATTEMPTS)
  {
    if r.status.PENDING? {
      assert Claimable(r, 0);
    } else if r.status.PROCESSING? && r.attempts < MAX_ATTEMPTS {
      assert Claimable(r, r.expires.value + 1);
    }
  }

  /** Drain, exactly: when no worker has the row in hand, it is published, failed, or was given
      up on its tenth attempt, if and only if it will never be claimable again. */
  lemma DrainedExactly(steps: seq<Step>, id: Id)
    requires id in After(steps).rows
    requires forall w :: Token(id, After(steps).rows[id].attempts) !in Batch(After(steps), w)
    ensures Ended(After(steps), id) <==> !ClaimableEventually(After(steps).rows[id])
  {
    hide After, Next, TokensOk, TokensDiffer, AcksOk, SendsOk, LostOk, JournalOk, ClaimsOk, ClaimableEventually, RowOk;
    InvAlways(steps);
    EventualClaims(After(steps).rows[id]);
    assert RowOk(After(steps).rows[id]);
    AttemptsFitStatus(After(steps).rows[id]);
  }

  lemma AttemptsFitStatus(r: OutboxRow)
    requires RowOk(r)
    ensures r.attempts <= MAX_ATTEMPTS
  {
  }

  /** Published, failed and stuck are for ever. */
  lemma EndedStays(s: Relays, step: Step, id: Id)
    requires Inv(s) && Ended(s, id)
    ensures Ended(Next(s, step), id) && Next(s, step).rows[id] == s.rows[id]
  {
    hide Next, TokensDiffer, SendsOk, AcksOk, OwnersOk, ClaimsOk, JournalOk, RowOk;
    LostMove(s, step);
    EndedRow(s.rows[id], s.now) by { assert RowOk(s.rows[id]); }
    forall w
      ensures !Marks(s, w, id, s.rows[id])
    {
      if Stuck(s, id) {
        StuckIsNotMarked(s, w, id);
      }
    }
    RowsMove(s, step, id);
  }

  lemma EndedRow(r: OutboxRow, now: nat)
    requires RowOk(r)
    ensures Claimable(r, now) ==> r.attempts < MAX_ATTEMPTS && (r.status.PENDING? || r.status.PROCESSING?)
  {
  }

  lemma StuckIsNotMarked(s: Relays, w: Id, id: Id)
    requires TokensOk(s) && LostOk(s) && Stuck(s, id)
    ensures !Marks(s, w, id, s.rows[id])
  {
    if Marks(s, w, id, s.rows[id]) {
      assert false;
    }
  }

  lemma {:induction false} EndedForEver(steps: seq<Step>, more: seq<Step>, id: Id)
    requires Ended(After(steps), id)
    ensures Ended(After(steps + more), id) && After(steps + more).rows[id] == After(steps).rows[id]
    decreases |more|
  {
    hide Next, After, Ended, Inv;
    if more == [] {
      assert steps + more == steps;
    } else {
      var n := |more| - 1;
      EndedForEver(steps, more[..n], id);
      assert steps + more == steps + more[..n] + [more[n]];
      AfterSnoc(steps + more[..n], more[n]);
      InvAlways(steps + more[..n]);
      EndedStays(After(steps + more[..n]), more[n], id);
    }
  }
}
