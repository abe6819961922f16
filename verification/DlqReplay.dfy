/**
 Consumers and dead-letter replays over the same tables. For one event and one consumer there
 is at most one delivery at work; deliveries of different pairs, dead-letter replays, crashes
 and failing statements interleave freely.
 */
module DlqReplay {
  import opened Contracts
  import opened IdempotentConsumer
  import Outbox

  /** A delivery at work, with the number of calls of the service it has made. */
  datatype Handler = Handler(tried: nat)

  datatype Stage = Opening | Clearing | Sending | Resolving | Reverting

  /** A call of `replayDLQ` and the row it read. */
  datatype Replay = Replay(letter: Id, row: DlqRow, stage: Stage)

  /** How a statement ends for its caller. */
  datatype Result = Fine | Threw(committed: bool)

  /** The tables and whoever is at work on them, with the record of the run: calls of the
      services in order, dead letters whose republication the broker acknowledged, and
      pairs whose mark a replay has cleared. */
  datatype Platform = Platform(store: Store, handlers: map<Pair, Handler>, replays: map<Id, Replay>,
                               calls: seq<Pair>, republished: set<Id>, cleared: set<Pair>)

  datatype Step =
    | Deliver(pair: Pair)
    | Try(pair: Pair, result: Attempt)
    | GiveUp(pair: Pair, letter: Id, commits: bool, now: nat)
    | Reject(consumer: Id, letter: Id, commits: bool, now: nat)
    | Die(pair: Pair)
    | StartReplay(replay: Id, letter: Id)
    | Continue(replay: Id, outcome: Result)
    | KillReplay(replay: Id)
    | Discard(letter: Id)

  const EMPTY: Platform := Platform(Store(map[], map[], map[]), map[], map[], [], {}, {})

  predicate Happens(r: Result) { r.Fine? || r.committed }

  function WithStatus(s: Store, letter: Id, status: DlqStatus): Store {
    if letter in s.dlq then s.(dlq := s.dlq[letter := s.dlq[letter].(status := status)]) else s
  }

  function PairOf(row: DlqRow): Pair { (row.eventId, row.consumer) }

  /** `resetProcessedEventForReplay`. */
  function Cleared(s: Store, pair: Pair): Store { s.(marks := s.marks - {pair}) }

  /** One more call of the service, and the mark if it succeeds. */
  function Trying(p: Platform, pair: Pair, result: Attempt): Platform
    requires pair in p.handlers
  {
    var q := p.(calls := p.calls + [pair], handlers := p.handlers[pair := Handler(p.handlers[pair].tried + 1)]);
    match result
    case ProcessThrew => q
    case MarkThrew(committed) => if committed then q.(store := Marked(p.store, pair, PROCESSED)) else q
    case Succeeded => q.(store := Marked(p.store, pair, PROCESSED), handlers := p.handlers - {pair})
  }

  function Restaged(p: Platform, r: Id, stage: Stage): Platform
    requires r in p.replays
  {
    p.(replays := p.replays[r := p.replays[r].(stage := stage)])
  }

  /** The next statement of a replay. A letter without its original event makes the send
      throw before anything is published. */
  function Continuing(p: Platform, r: Id, result: Result): Platform
    requires r in p.replays
  {
    var replay := p.replays[r];
    match replay.stage
    case Opening =>
      var q := if Happens(result) then p.(store := WithStatus(p.store, replay.letter, REPLAYING)) else p;
      Restaged(q, r, if result.Fine? then Clearing else Reverting)
    case Clearing =>
      var pair := PairOf(replay.row);
      var q := if Happens(result) then p.(store := Cleared(p.store, pair), cleared := p.cleared + {pair}) else p;
      Restaged(q, r, if result.Fine? then Sending else Reverting)
    case Sending =>
      if replay.row.original && result.Fine?
      then Restaged(p.(republished := p.republished + {replay.letter}), r, Resolving)
      else Restaged(p, r, Reverting)
    case Resolving =>
      var q := if Happens(result) then p.(store := WithStatus(p.store, replay.letter, REPLAYED)) else p;
      if result.Fine? then q.(replays := q.replays - {r}) else Restaged(q, r, Reverting)
    case Reverting =>
      var q := if Happens(result) then p.(store := WithStatus(p.store, replay.letter, UNRESOLVED)) else p;
      q.(replays := q.replays - {r})
  }

  /** A delivery is skipped exactly when its pair is marked PROCESSED. */
  predicate Enabled(p: Platform, step: Step, retries: nat) {
    match step
    case Deliver(pair) => pair !in p.handlers && !IsProcessed(p.store, pair)
    case Try(pair, _) => pair in p.handlers && p.handlers[pair].tried < retries
    case GiveUp(pair, letter, _, _) =>
      pair in p.handlers && p.handlers[pair].tried >= retries && letter !in p.store.dlq && letter !in p.store.dlqOutbox
    case Reject(_, letter, _, _) => letter !in p.store.dlq && letter !in p.store.dlqOutbox
    case Die(pair) => pair in p.handlers
    case StartReplay(r, letter) => r !in p.replays && letter in p.store.dlq && p.store.dlq[letter].status != DISCARDED
    case Continue(r, _) => r in p.replays
    case KillReplay(r) => r in p.replays
    case Discard(letter) => letter in p.store.dlq
  }

  function Next(p: Platform, step: Step, retries: nat): Platform {
    if !Enabled(p, step, retries) then p
    else
      match step
      case Deliver(pair) => p.(handlers := p.handlers[pair := Handler(0)])
      case Try(pair, result) => Trying(p, pair, result)
      case GiveUp(pair, letter, commits, now) =>
        p.(handlers := p.handlers - {pair},
           store := if commits then DeadLetter(p.store, letter, pair, now) else p.store)
      case Reject(consumer, letter, commits, now) =>
        p.(store := if commits then MalformedLetter(p.store, letter, consumer, now) else p.store)
      case Die(pair) => p.(handlers := p.handlers - {pair})
      case StartReplay(r, letter) => p.(replays := p.replays[r := Replay(letter, p.store.dlq[letter], Opening)])
      case Continue(r, result) => Continuing(p, r, result)
      case KillReplay(r) => p.(replays := p.replays - {r})
      case Discard(letter) => p.(store := WithStatus(p.store, letter, DISCARDED))
  }

  function After(steps: seq<Step>, retries: nat): Platform
    decreases |steps|
  {
    if steps == [] then EMPTY else Next(After(steps[..|steps| - 1], retries), steps[|steps| - 1], retries)
  }

  // ------------------------------------------------------------------------- what every run keeps

  ghost predicate LetterFor(p: Platform, pair: Pair) {
    exists d :: d in p.store.dlq && p.store.dlq[d].original && PairOf(p.store.dlq[d]) == pair
  }

  /** Dead letters, their outbox rows and the marks belong together. */
  ghost predicate LettersOk(p: Platform) {
    && p.store.dlq.Keys == p.store.dlqOutbox.Keys
    && (forall d :: d in p.store.dlqOutbox ==> p.store.dlqOutbox[d].status == Outbox.PENDING)
    && (forall pair :: pair in p.store.marks && p.store.marks[pair] == FAILED ==> LetterFor(p, pair))
    && (forall d :: d in p.store.dlq && p.store.dlq[d].original ==>
          PairOf(p.store.dlq[d]) in p.store.marks || PairOf(p.store.dlq[d]) in p.cleared)
  }

  /** A replay read an existing letter whose contents never change. */
  predicate SameLetter(a: DlqRow, b: DlqRow) {
    a.eventId == b.eventId && a.consumer == b.consumer && a.original == b.original
  }

  ghost predicate ReplaysOk(p: Platform) {
    && (forall r :: r in p.replays ==>
          p.replays[r].letter in p.store.dlq && SameLetter(p.replays[r].row, p.store.dlq[p.replays[r].letter]))
    && (forall r :: r in p.replays && p.replays[r].stage.Resolving? ==> p.replays[r].letter in p.republished)
    && (forall d :: d in p.store.dlq && p.store.dlq[d].status == REPLAYED ==> d in p.republished)
    && (forall d :: d in p.republished ==> d in p.store.dlq && p.store.dlq[d].original)
  }

  ghost predicate CallsOk(p: Platform, retries: nat) {
    && (forall pair :: IsProcessed(p.store, pair) ==> pair in p.calls)
    && (forall pair :: pair in p.handlers ==> p.handlers[pair].tried <= retries)
  }

  lemma StatusKeepsLetters(p: Platform, q: Platform, letter: Id, status: DlqStatus)
    requires LettersOk(p) && q.store == WithStatus(p.store, letter, status) && q.cleared == p.cleared
    ensures LettersOk(q)
  {
    forall pair | pair in q.store.marks && q.store.marks[pair] == FAILED
      ensures LetterFor(q, pair)
    {
      assert LetterFor(p, pair);
      var d :| d in p.store.dlq && p.store.dlq[d].original && PairOf(p.store.dlq[d]) == pair;
      assert d in q.store.dlq;
    }
  }

  lemma SameTablesKeepLetters(p: Platform, q: Platform)
    requires LettersOk(p) && q.store == p.store && q.cleared == p.cleared
    ensures LettersOk(q)
  {
    hide PairOf;
    assert forall pair :: LetterFor(p, pair) ==> LetterFor(q, pair);
  }

  lemma ClearKeepsLetters(p: Platform, q: Platform, pair: Pair)
    requires LettersOk(p) && q.store == Cleared(p.store, pair) && q.cleared == p.cleared + {pair}
    ensures LettersOk(q)
  {
    hide PairOf;
    assert forall x :: LetterFor(p, x) ==> LetterFor(q, x);
  }

  lemma ProcessedKeepsLetters(p: Platform, q: Platform, pair: Pair)
    requires LettersOk(p) && q.store == Marked(p.store, pair, PROCESSED) && q.cleared == p.cleared
    ensures LettersOk(q)
  {
    hide PairOf;
    assert forall x :: LetterFor(p, x) ==> LetterFor(q, x);
  }

  lemma DeadLetterKeeps(p: Platform, q: Platform, letter: Id, pair: Pair, now: nat)
    requires LettersOk(p) && letter !in p.store.dlq && q.store == DeadLetter(p.store, letter, pair, now) &&
             q.cleared == p.cleared
    ensures LettersOk(q)
  {
    assert LetterFor(q, pair) by { assert q.store.dlq[letter].original && PairOf(q.store.dlq[letter]) == pair; }
    forall x | LetterFor(p, x)
      ensures LetterFor(q, x)
    {
      var d :| d in p.store.dlq && p.store.dlq[d].original && PairOf(p.store.dlq[d]) == x;
      assert q.store.dlq[d] == p.store.dlq[d];
    }
  }

  lemma MalformedKeeps(p: Platform, q: Platform, letter: Id, consumer: Id, now: nat)
    requires LettersOk(p) && letter !in p.store.dlq && q.store == MalformedLetter(p.store, letter, consumer, now) &&
             q.cleared == p.cleared
    ensures LettersOk(q)
  {
    forall x | LetterFor(p, x)
      ensures LetterFor(q, x)
    {
      var d :| d in p.store.dlq && p.store.dlq[d].original && PairOf(p.store.dlq[d]) == x;
      assert q.store.dlq[d] == p.store.dlq[d];
    }
  }

  lemma LettersOkNext(p: Platform, step: Step, retries: nat)
    requires LettersOk(p)
    ensures LettersOk(Next(p, step, retries))
  {
    hide LettersOk, DeadLetter, MalformedLetter, Marked, Cleared, WithStatus, PairOf;
    var q := Next(p, step, retries);
    if q.store == p.store && q.cleared == p.cleared {
      SameTablesKeepLetters(p, q);
    } else {
      match step {
        case Try(pair, _) => ProcessedKeepsLetters(p, q, pair);
        case GiveUp(pair, letter, _, now) => DeadLetterKeeps(p, q, letter, pair, now);
        case Reject(consumer, letter, _, now) => MalformedKeeps(p, q, letter, consumer, now);
        case Discard(letter) => StatusKeepsLetters(p, q, letter, DISCARDED);
        case Continue(r, result) => ContinueKeepsLetters(p, r, result);
        case _ => assert false;
      }
    }
  }

  lemma ContinueKeepsLetters(p: Platform, r: Id, result: Result)
    requires LettersOk(p) && r in p.replays
    ensures LettersOk(Continuing(p, r, result))
  {
    hide LettersOk, Cleared, WithStatus, PairOf;
    var q := Continuing(p, r, result);
    var replay := p.replays[r];
    if !Happens(result) || replay.stage.Sending? {
      SameTablesKeepLetters(p, q);
    } else {
      match replay.stage {
        case Opening => StatusKeepsLetters(p, q, replay.letter, REPLAYING);
        case Clearing => ClearKeepsLetters(p, q, PairOf(replay.row));
        case Resolving => StatusKeepsLetters(p, q, replay.letter, REPLAYED);
        case Reverting => StatusKeepsLetters(p, q, replay.letter, UNRESOLVED);
      }
    }
  }

  /** What a step does to a dead letter that exists. */
  lemma LettersMove(p: Platform, step: Step, retries: nat, d: Id)
    requires d in p.store.dlq
    ensures var q := Next(p, step, retries);
            && d in q.store.dlq && SameLetter(q.store.dlq[d], p.store.dlq[d])
            && (q.store.dlq[d].status == REPLAYED && p.store.dlq[d].status != REPLAYED ==>
                  step.Continue? && step.replay in p.replays && p.replays[step.replay].stage.Resolving? &&
                  p.replays[step.replay].letter == d)
  {
    hide Continuing, Trying, WithStatus, DeadLetter, MalformedLetter;
    if Enabled(p, step, retries) {
      match step {
        case Try(x, result) => TryKeepsLetters(p, x, result);
        case GiveUp(x, letter, _, now) => NewLetterKeepsOld(p.store, letter, x, now, d);
        case Reject(c, letter, _, now) => NewLetterKeepsOld(p.store, letter, (0, c), now, d);
        case Continue(r, result) => ContinueMovesLetters(p, r, result, d);
        case Discard(letter) => StatusMoves(p.store, letter, DISCARDED, d);
        case _ =>
      }
    }
  }

  lemma TryKeepsLetters(p: Platform, x: Pair, result: Attempt)
    requires x in p.handlers
    ensures Trying(p, x, result).store.dlq == p.store.dlq && Trying(p, x, result).store.dlqOutbox == p.store.dlqOutbox
    ensures var marks := Trying(p, x, result).store.marks;
            forall pair :: pair in marks && marks[pair] == FAILED ==>
              pair in p.store.marks && p.store.marks[pair] == FAILED
  {
  }

  lemma NewLetterKeepsOld(s: Store, letter: Id, x: Pair, now: nat, d: Id)
    requires letter !in s.dlq && d in s.dlq
    ensures d in DeadLetter(s, letter, x, now).dlq && DeadLetter(s, letter, x, now).dlq[d] == s.dlq[d]
    ensures d in MalformedLetter(s, letter, x.1, now).dlq && MalformedLetter(s, letter, x.1, now).dlq[d] == s.dlq[d]
  {
  }

  lemma StatusMoves(s: Store, letter: Id, status: DlqStatus, d: Id)
    ensures WithStatus(s, letter, status).dlq.Keys == s.dlq.Keys
    ensures WithStatus(s, letter, status).marks == s.marks && WithStatus(s, letter, status).dlqOutbox == s.dlqOutbox
    ensures d in s.dlq ==>
              WithStatus(s, letter, status).dlq[d] == if d == letter then s.dlq[d].(status := status) else s.dlq[d]
  {
  }

  lemma ContinueMovesLetters(p: Platform, r: Id, result: Result, d: Id)
    requires r in p.replays
    ensures var q := Continuing(p, r, result);
            && q.store.dlq.Keys == p.store.dlq.Keys && q.store.dlqOutbox == p.store.dlqOutbox
            && (forall pair :: pair in q.store.marks ==>
                  pair in p.store.marks && q.store.marks[pair] == p.store.marks[pair])
            && (d in p.store.dlq ==> SameLetter(q.store.dlq[d], p.store.dlq[d]))
            && (d in p.store.dlq && q.store.dlq[d].status == REPLAYED && p.store.dlq[d].status != REPLAYED ==>
                  p.replays[r].stage.Resolving? && p.replays[r].letter == d)
  {
    hide WithStatus, PairOf;
    var letter := p.replays[r].letter;
    StatusMoves(p.store, letter, REPLAYING, d);
    StatusMoves(p.store, letter, REPLAYED, d);
    StatusMoves(p.store, letter, UNRESOLVED, d);
  }

  lemma NewLetters(p: Platform, step: Step, retries: nat, d: Id)
    requires d !in p.store.dlq && d in Next(p, step, retries).store.dlq
    ensures Next(p, step, retries).store.dlq[d].status == UNRESOLVED
  {
  }

  /** A replay that goes on keeps its letter, and resolves only what was republished. */
  ghost predicate GoesOn(p: Platform, q: Platform, r: Id) {
    && r in p.replays && r in q.replays
    && q.replays[r].letter == p.replays[r].letter && q.replays[r].row == p.replays[r].row
    && (q.replays[r].stage.Resolving? ==> p.replays[r].stage.Resolving? || q.replays[r].letter in q.republished)
  }

  lemma ContinueRepublishes(p: Platform, r: Id, result: Result)
    requires r in p.replays
    ensures var q := Continuing(p, r, result);
            && p.republished <= q.republished
            && (forall d :: d in q.republished && d !in p.republished ==>
                  p.replays[r].letter == d && p.replays[r].row.original)
            && (forall x :: x in q.replays ==> GoesOn(p, q, x))
  {
    hide Cleared, WithStatus, PairOf;
  }

  lemma RepublishMoves(p: Platform, step: Step, retries: nat)
    ensures var q := Next(p, step, retries);
            && p.republished <= q.republished
            && (forall d :: d in q.republished && d !in p.republished ==>
                  step.Continue? && step.replay in p.replays && p.replays[step.replay].letter == d &&
                  p.replays[step.replay].row.original)
            && (forall r :: r in q.replays ==>
                  || GoesOn(p, q, r)
                  || (step.StartReplay? && step.letter in p.store.dlq &&
                      q.replays[r] == Replay(step.letter, p.store.dlq[step.letter], Opening)))
  {
    hide DeadLetter, MalformedLetter, WithStatus, Continuing;
    if step.Continue? && Enabled(p, step, retries) {
      ContinueRepublishes(p, step.replay, step.outcome);
    }
  }

  lemma ReplaysOkNext(p: Platform, step: Step, retries: nat)
    requires ReplaysOk(p)
    ensures ReplaysOk(Next(p, step, retries))
  {
    hide Next;
    var q := Next(p, step, retries);
    RepublishMoves(p, step, retries);
    forall d | d in p.store.dlq
      ensures d in q.store.dlq && SameLetter(q.store.dlq[d], p.store.dlq[d])
    {
      LettersMove(p, step, retries, d);
    }
    forall d | d in q.store.dlq && q.store.dlq[d].status == REPLAYED
      ensures d in q.republished
    {
      if d in p.store.dlq {
        LettersMove(p, step, retries, d);
      } else {
        NewLetters(p, step, retries, d);
      }
    }
  }

  lemma CallsOkNext(p: Platform, step: Step, retries: nat)
    requires CallsOk(p, retries)
    ensures CallsOk(Next(p, step, retries), retries)
  {
    hide Recorded;
  }

  ghost predicate Inv(p: Platform, retries: nat) {
    LettersOk(p) && ReplaysOk(p) && CallsOk(p, retries)
  }

  lemma {:induction false} InvAlways(steps: seq<Step>, retries: nat)
    ensures Inv(After(steps, retries), retries)
    decreases |steps|
  {
    hide LettersOk, ReplaysOk, CallsOk, Next;
    if steps == [] {
      InvInitially(retries);
    } else {
      var n := |steps| - 1;
      InvAlways(steps[..n], retries);
      LettersOkNext(After(steps[..n], retries), steps[n], retries);
      ReplaysOkNext(After(steps[..n], retries), steps[n], retries);
      CallsOkNext(After(steps[..n], retries), steps[n], retries);
    }
  }

  lemma InvInitially(retries: nat)
    ensures Inv(EMPTY, retries)
  {
  }

  // --------------------------------------------------------------------------------- the theorems

  /** REPLAYED means the broker acknowledged the republished event; a dead letter made from a
      message that could not be parsed is never republished, so it is never REPLAYED. */
  lemma ReplayedWasRepublished(steps: seq<Step>, retries: nat, d: Id)
    requires d in After(steps, retries).store.dlq
    ensures var p := After(steps, retries);
            && (p.store.dlq[d].status == REPLAYED ==> d in p.republished)
            && (!p.store.dlq[d].original ==> d !in p.republished && p.store.dlq[d].status != REPLAYED)
  {
    hide After, LettersOk, CallsOk;
    InvAlways(steps, retries);
  }

  predicate HasFailed(s: Store, pair: Pair) {
    pair in s.marks && s.marks[pair] == FAILED
  }

  /** Dead letter, outbox row and FAILED mark appear in one step or not at all: a step that
      creates a letter creates its outbox row, and marks the pair if the event was readable;
      a pair gets a FAILED mark only together with a new letter for it. */
  lemma AllTogetherOrNotAtAll(p: Platform, step: Step, retries: nat)
    ensures var q := Next(p, step, retries);
            && (p.store.dlq.Keys == p.store.dlqOutbox.Keys ==> q.store.dlq.Keys == q.store.dlqOutbox.Keys)
            && (forall d :: d in q.store.dlq && d !in p.store.dlq && q.store.dlq[d].original ==>
                  && d in q.store.dlqOutbox && q.store.dlqOutbox[d].status == Outbox.PENDING
                  && PairOf(q.store.dlq[d]) in q.store.marks && q.store.marks[PairOf(q.store.dlq[d])] == FAILED)
            && (forall pair :: HasFailed(q.store, pair) && !HasFailed(p.store, pair) ==>
                  step.GiveUp? && step.letter !in p.store.dlq && step.letter in q.store.dlq &&
                  PairOf(q.store.dlq[step.letter]) == pair
                  && q.store.dlq[step.letter].original && step.letter in q.store.dlqOutbox)
  {
    hide Continuing, Trying, WithStatus, DeadLetter, MalformedLetter;
    if Enabled(p, step, retries) {
      match step {
        case Try(x, result) => TryKeepsLetters(p, x, result);
        case GiveUp(x, letter, _, now) => DeadLetterIsWhole(p.store, letter, x, now);
        case Reject(c, letter, _, now) => MalformedIsWhole(p.store, letter, c, now);
        case Continue(r, result) => ContinueMovesLetters(p, r, result, 0);
        case Discard(letter) => StatusMoves(p.store, letter, DISCARDED, 0);
        case _ =>
      }
    }
  }

  lemma DeadLetterIsWhole(s: Store, letter: Id, x: Pair, now: nat)
    requires letter !in s.dlq && letter !in s.dlqOutbox
    ensures var t := DeadLetter(s, letter, x, now);
            && t.dlq == s.dlq[letter := DlqRow(x.0, true, x.1, 1, UNRESOLVED)] && PairOf(t.dlq[letter]) == x
            && t.dlqOutbox.Keys == s.dlqOutbox.Keys + {letter} && t.dlqOutbox[letter].status == Outbox.PENDING
            && t.marks == s.marks[x := FAILED]
  {
  }

  lemma MalformedIsWhole(s: Store, letter: Id, consumer: Id, now: nat)
    requires letter !in s.dlq && letter !in s.dlqOutbox
    ensures var t := MalformedLetter(s, letter, consumer, now);
            && t.dlq == s.dlq[letter := DlqRow(MALFORMED_EVENT, false, consumer, 1, UNRESOLVED)]
            && t.dlqOutbox.Keys == s.dlqOutbox.Keys + {letter} && t.marks == s.marks
  {
  }

  /** The record of every run: each dead letter has a pending outbox row, each FAILED mark a
      letter, and each readable letter a mark unless a replay has cleared that very pair. */
  lemma LettersAreConsistent(steps: seq<Step>, retries: nat)
    ensures LettersOk(After(steps, retries))
  {
    hide After, LettersOk, ReplaysOk, CallsOk;
    InvAlways(steps, retries);
  }

  ghost predicate Clears(p: Platform, step: Step, pair: Pair) {
    && step.Continue? && step.replay in p.replays && p.replays[step.replay].stage.Clearing?
    && PairOf(p.replays[step.replay].row) == pair && Happens(step.outcome)
  }

  function CountOf(calls: seq<Pair>, pair: Pair): nat
    decreases |calls|
  {
    if calls == [] then 0 else CountOf(calls[..|calls| - 1], pair) + if calls[|calls| - 1] == pair then 1 else 0
  }

  /** A replay clears exactly one pair's mark; no step but a clear, an attempt or a dead
      letter of the very pair changes its mark, and none but an attempt of it calls its
      service. */
  lemma OtherPairsUntouched(p: Platform, step: Step, retries: nat, pair: Pair)
    requires !Clears(p, step, pair)
    requires !((step.Deliver? || step.Try? || step.GiveUp? || step.Die?) && step.pair == pair)
    ensures var q := Next(p, step, retries);
            && (pair in q.store.marks <==> pair in p.store.marks)
            && (pair in p.store.marks ==> q.store.marks[pair] == p.store.marks[pair])
            && (pair in q.handlers <==> pair in p.handlers)
            && CountOf(q.calls, pair) == CountOf(p.calls, pair)
  {
    hide Continuing, Trying, DeadLetter, MalformedLetter, WithStatus, CountOf, Clears;
    if Enabled(p, step, retries) {
      match step {
        case Try(x, result) => TryTouchesOne(p, x, result, pair);
        case GiveUp(x, letter, _, now) => LettersTouchOne(p.store, letter, x, now, pair);
        case Reject(c, letter, _, now) => LettersTouchOne(p.store, letter, (0, c), now, pair);
        case Continue(r, result) => ContinueTouches(p, r, result, pair, step);
        case Discard(letter) => StatusTouchesNone(p.store, letter, DISCARDED);
        case _ =>
      }
    }
  }

  lemma StatusTouchesNone(s: Store, letter: Id, status: DlqStatus)
    ensures WithStatus(s, letter, status).marks == s.marks
  {
  }

  lemma TryTouchesOne(p: Platform, x: Pair, result: Attempt, pair: Pair)
    requires x in p.handlers && x != pair
    ensures var q := Trying(p, x, result);
            && (pair in q.store.marks <==> pair in p.store.marks)
            && (pair in p.store.marks ==> q.store.marks[pair] == p.store.marks[pair])
            && (pair in q.handlers <==> pair in p.handlers)
            && CountOf(q.calls, pair) == CountOf(p.calls, pair)
  {
    assert (p.calls + [x])[..|p.calls|] == p.calls;
  }

  lemma LettersTouchOne(s: Store, letter: Id, x: Pair, now: nat, pair: Pair)
    ensures MalformedLetter(s, letter, x.1, now).marks == s.marks
    ensures x != pair ==> var t := DeadLetter(s, letter, x, now);
                          (pair in t.marks <==> pair in s.marks) && (pair in s.marks ==> t.marks[pair] == s.marks[pair])
  {
  }

  lemma ContinueTouches(p: Platform, r: Id, result: Result, pair: Pair, step: Step)
    requires r in p.replays && step == Continue(r, result) && !Clears(p, step, pair)
    ensures var q := Continuing(p, r, result);
            && (pair in q.store.marks <==> pair in p.store.marks)
            && (pair in p.store.marks ==> q.store.marks[pair] == p.store.marks[pair])
            && q.handlers == p.handlers && q.calls == p.calls
  {
    hide WithStatus;
    var replay := p.replays[r];
    StatusTouchesNone(p.store, replay.letter, REPLAYING);
    StatusTouchesNone(p.store, replay.letter, REPLAYED);
    StatusTouchesNone(p.store, replay.letter, UNRESOLVED);
  }

  /** Nobody is at work on the pair and it is marked PROCESSED. */
  ghost predicate Closed(p: Platform, pair: Pair) {
    IsProcessed(p.store, pair) && pair !in p.handlers
  }

  lemma ClosedStays(p: Platform, step: Step, retries: nat, pair: Pair)
    requires Closed(p, pair) && !Clears(p, step, pair)
    ensures Closed(Next(p, step, retries), pair) &&
            CountOf(Next(p, step, retries).calls, pair) == CountOf(p.calls, pair)
  {
    hide CountOf, Next, Clears;
    if (step.Deliver? || step.Try? || step.GiveUp? || step.Die?) && step.pair == pair {
      ClosedRefuses(p, step, retries);
    } else {
      OtherPairsUntouched(p, step, retries, pair);
    }
  }

  lemma ClosedRefuses(p: Platform, step: Step, retries: nat)
    requires step.Deliver? || step.Try? || step.GiveUp? || step.Die?
    requires Closed(p, step.pair)
    ensures Next(p, step, retries) == p
  {
  }

  lemma AfterSnoc(steps: seq<Step>, step: Step, retries: nat)
    ensures After(steps + [step], retries) == Next(After(steps, retries), step, retries)
  {
    assert (steps + [step])[..|steps|] == steps;
  }

  /** Idempotence: once a pair is marked PROCESSED and its delivery is over, then along every
      continuation the consumer never calls its service on the event again, until a replay
      clears exactly that pair. */
  lemma {:induction false} ProcessedStops(steps: seq<Step>, more: seq<Step>, retries: nat, pair: Pair)
    requires Closed(After(steps, retries), pair)
    requires forall i :: 0 <= i < |more| ==> !Clears(After(steps + more[..i], retries), more[i], pair)
    ensures Closed(After(steps + more, retries), pair)
    ensures CountOf(After(steps + more, retries).calls, pair) == CountOf(After(steps, retries).calls, pair)
    decreases |more|
  {
    hide After, Next, CountOf, Clears, Closed;
    if more == [] {
      assert steps + more == steps;
    } else {
      var n := |more| - 1;
      assert forall i :: 0 <= i < n ==> more[..n][..i] == more[..i];
      ProcessedStops(steps, more[..n], retries, pair);
      assert steps + more == steps + more[..n] + [more[n]];
      AfterSnoc(steps + more[..n], more[n], retries);
      ClosedStays(After(steps + more[..n], retries), more[n], retries, pair);
    }
  }

  /** One delivery calls the service at most `retries` times. */
  lemma {:induction false} CallsAreBounded(steps: seq<Step>, retries: nat, pair: Pair)
    ensures pair in After(steps, retries).handlers ==> After(steps, retries).handlers[pair].tried <= retries
    ensures IsProcessed(After(steps, retries).store, pair) ==> pair in After(steps, retries).calls
  {
    hide After, LettersOk, ReplaysOk;
    InvAlways(steps, retries);
  }

  // -------------------------------------------------------------------------------- discarding

  /** The letter is discarded and no replay that has read it is under way. */
  ghost predicate Retired(p: Platform, d: Id) {
    && d in p.store.dlq && p.store.dlq[d].status == DISCARDED
    && forall r :: r in p.replays ==> p.replays[r].letter != d
  }

  lemma RetiredStays(p: Platform, step: Step, retries: nat, d: Id)
    requires Retired(p, d)
    ensures Retired(Next(p, step, retries), d)
  {
    hide Continuing, Trying, WithStatus, DeadLetter, MalformedLetter;
    if Enabled(p, step, retries) {
      match step {
        case Try(x, result) => TryKeepsLetters(p, x, result); TryKeepsReplays(p, x, result);
        case GiveUp(x, letter, _, now) => NewLetterKeepsOld(p.store, letter, x, now, d);
        case Reject(c, letter, _, now) => NewLetterKeepsOld(p.store, letter, (0, c), now, d);
        case Continue(r, result) => ContinueElsewhere(p, r, result, d);
        case Discard(letter) => StatusMoves(p.store, letter, DISCARDED, d);
        case _ =>
      }
    }
  }

  lemma TryKeepsReplays(p: Platform, x: Pair, result: Attempt)
    requires x in p.handlers
    ensures Trying(p, x, result).replays == p.replays
  {
  }

  lemma ContinueElsewhere(p: Platform, r: Id, result: Result, d: Id)
    requires r in p.replays && p.replays[r].letter != d && d in p.store.dlq
    ensures var q := Continuing(p, r, result);
            && d in q.store.dlq && q.store.dlq[d] == p.store.dlq[d]
            && forall x :: x in q.replays ==> x in p.replays && q.replays[x].letter == p.replays[x].letter
  {
    hide WithStatus, PairOf;
    var letter := p.replays[r].letter;
    StatusMoves(p.store, letter, REPLAYING, d);
    StatusMoves(p.store, letter, REPLAYED, d);
    StatusMoves(p.store, letter, UNRESOLVED, d);
  }

  lemma {:induction false} RetiredForEver(steps: seq<Step>, more: seq<Step>, retries: nat, d: Id)
    requires Retired(After(steps, retries), d)
    ensures Retired(After(steps + more, retries), d)
    decreases |more|
  {
    hide After, Next, Retired;
    if more == [] {
      assert steps + more == steps;
    } else {
      var n := |more| - 1;
      RetiredForEver(steps, more[..n], retries, d);
      assert steps + more == steps + more[..n] + [more[n]];
      AfterSnoc(steps + more[..n], more[n], retries);
      RetiredStays(After(steps + more[..n], retries), more[n], retries, d);
    }
  }

  ghost predicate StaysDiscarded(steps: seq<Step>, more: seq<Step>, retries: nat, d: Id) {
    var p := After(steps + more, retries);
    d in p.store.dlq && p.store.dlq[d].status == DISCARDED
  }

  /** From every stage, at most two statements of a replay undo the discard. */
  lemma ReplayUndoes(steps: seq<Step>, retries: nat, d: Id, r: Id) returns (more: seq<Step>)
    requires var p := After(steps, retries); d in p.store.dlq && r in p.replays && p.replays[r].letter == d
    ensures !StaysDiscarded(steps, more, retries, d)
  {
    hide After;
    var p := After(steps, retries);
    var fine, fails := Continue(r, Fine), Continue(r, Threw(false));
    AfterSnoc(steps, fine, retries);
    if p.replays[r].stage.Clearing? || p.replays[r].stage.Sending? {
      AfterSnoc(steps, fails, retries);
      AfterSnoc(steps + [fails], fine, retries);
      more := [fails, fine];
      assert steps + more == steps + [fails] + [fine];
    } else {
      more := [fine];
    }
  }

  /** Discarding, exactly: a discarded letter stays discarded along every continuation if and
      only if no replay of it is under way at that moment. */
  lemma DiscardLastsExactly(steps: seq<Step>, retries: nat, d: Id)
    requires var p := After(steps, retries); d in p.store.dlq && p.store.dlq[d].status == DISCARDED
    ensures (forall more :: StaysDiscarded(steps, more, retries, d)) <==>
            (forall r :: r in After(steps, retries).replays ==> After(steps, retries).replays[r].letter != d)
  {
    hide After;
    var p := After(steps, retries);
    if r :| r in p.replays && p.replays[r].letter == d {
      var more := ReplayUndoes(steps, retries, d, r);
    } else {
      forall more
        ensures StaysDiscarded(steps, more, retries, d)
      {
        RetiredForEver(steps, more, retries, d);
      }
    }
  }

  // ------------------------------------------------------------------------ what can be replayed

  ghost predicate EndsReplayed(steps: seq<Step>, more: seq<Step>, retries: nat, d: Id) {
    var p := After(steps + more, retries);
    d in p.store.dlq && p.store.dlq[d].status == REPLAYED
  }

  lemma {:induction false} UnreadableStays(steps: seq<Step>, more: seq<Step>, retries: nat, d: Id)
    requires d in After(steps, retries).store.dlq
    ensures d in After(steps + more, retries).store.dlq
    ensures After(steps + more, retries).store.dlq[d].original == After(steps, retries).store.dlq[d].original
    decreases |more|
  {
    hide After, Next;
    if more == [] {
      assert steps + more == steps;
    } else {
      var n := |more| - 1;
      UnreadableStays(steps, more[..n], retries, d);
      assert steps + more == steps + more[..n] + [more[n]];
      AfterSnoc(steps + more[..n], more[n], retries);
      LettersMove(After(steps + more[..n], retries), more[n], retries, d);
    }
  }

  function Remaining(stage: Stage): nat {
    match stage
    case Opening => 4
    case Clearing => 3
    case Sending => 2
    case Resolving => 1
    case Reverting => 0
  }

  /** A replay of a readable letter whose statements all succeed ends REPLAYED. */
  lemma {:induction false} FinishReplay(steps: seq<Step>, retries: nat, d: Id, r: Id) returns (more: seq<Step>)
    requires var p := After(steps, retries);
             && d in p.store.dlq && r in p.replays && p.replays[r].letter == d
             && p.replays[r].row.original && !p.replays[r].stage.Reverting?
    ensures EndsReplayed(steps, more, retries, d)
    decreases Remaining(After(steps, retries).replays[r].stage)
  {
    hide After;
    var p, fine := After(steps, retries), Continue(r, Fine);
    AfterSnoc(steps, fine, retries);
    if p.replays[r].stage.Resolving? {
      more := [fine];
    } else {
      var rest := FinishReplay(steps + [fine], retries, d, r);
      more := [fine] + rest;
      assert steps + more == steps + [fine] + rest;
    }
  }

  lemma {:induction false} FreshId(ids: set<Id>) returns (r: Id)
    ensures forall x :: x in ids ==> x < r
  {
    if ids == {} {
      r := 0;
    } else {
      var x :| x in ids;
      var s := FreshId(ids - {x});
      r := if s <= x then x + 1 else s;
      forall y | y in ids
        ensures y < r
      {
        assert y == x || y in ids - {x};
      }
    }
  }

  /** A readable letter that is not discarded can be replayed by a new replay. */
  lemma StartAndFinish(steps: seq<Step>, retries: nat, d: Id) returns (more: seq<Step>)
    requires var p := After(steps, retries);
             d in p.store.dlq && p.store.dlq[d].original && p.store.dlq[d].status != DISCARDED
    ensures EndsReplayed(steps, more, retries, d)
  {
    hide After, EndsReplayed;
    var p := After(steps, retries);
    var r := FreshId(p.replays.Keys);
    assert r !in p.replays;
    var start := StartReplay(r, d);
    AfterSnoc(steps, start, retries);
    var rest := FinishReplay(steps + [start], retries, d, r);
    more := [start] + rest;
    EndsReplayedAppend(steps, start, rest, retries, d);
  }

  lemma EndsReplayedAppend(steps: seq<Step>, step: Step, rest: seq<Step>, retries: nat, d: Id)
    requires EndsReplayed(steps + [step], rest, retries, d)
    ensures EndsReplayed(steps, [step] + rest, retries, d)
  {
    hide After;
    assert steps + ([step] + rest) == steps + [step] + rest;
  }

  /** A replay that has read a readable letter brings it to REPLAYED from every stage, one
      that is reverting by way of a new replay. */
  lemma GoOnAndFinish(steps: seq<Step>, retries: nat, d: Id, r: Id) returns (more: seq<Step>)
    requires var p := After(steps, retries);
             d in p.store.dlq && p.store.dlq[d].original && r in p.replays && p.replays[r].letter == d
    ensures EndsReplayed(steps, more, retries, d)
  {
    hide After, EndsReplayed, LettersOk, CallsOk;
    InvAlways(steps, retries);
    if After(steps, retries).replays[r].stage.Reverting? {
      var fine := Continue(r, Fine);
      AfterSnoc(steps, fine, retries);
      var rest := StartAndFinish(steps + [fine], retries, d);
      more := [fine] + rest;
      EndsReplayedAppend(steps, fine, rest, retries, d);
    } else {
      more := FinishReplay(steps, retries, d, r);
    }
  }

  /** Replayability, exactly: a dead letter can still end REPLAYED along some continuation if
      and only if it carries its original event and is not discarded, or is discarded while a
      replay of it is under way. */
  lemma ReplayableExactly(steps: seq<Step>, retries: nat, d: Id)
    requires d in After(steps, retries).store.dlq
    ensures var p := After(steps, retries);
            (exists more :: EndsReplayed(steps, more, retries, d)) <==>
            p.store.dlq[d].original &&
            (p.store.dlq[d].status != DISCARDED || exists r :: r in p.replays && p.replays[r].letter == d)
  {
    hide After, EndsReplayed;
    var p := After(steps, retries);
    if more :| EndsReplayed(steps, more, retries, d) {
      ReplayedEndIsReadable(steps, more, retries, d);
    }
    if p.store.dlq[d].original {
      if p.store.dlq[d].status != DISCARDED {
        var more := StartAndFinish(steps, retries, d);
      } else if r :| r in p.replays && p.replays[r].letter == d {
        var more := GoOnAndFinish(steps, retries, d, r);
      }
    }
  }

  lemma ReplayedEndIsReadable(steps: seq<Step>, more: seq<Step>, retries: nat, d: Id)
    requires d in After(steps, retries).store.dlq && EndsReplayed(steps, more, retries, d)
    ensures After(steps, retries).store.dlq[d].original && !Retired(After(steps, retries), d)
  {
    hide After;
    UnreadableStays(steps, more, retries, d);
    ReplayedWasRepublished(steps + more, retries, d);
    if Retired(After(steps, retries), d) {
      RetiredForEver(steps, more, retries, d);
    }
  }

  const PAIR: Pair := (1, 2)
  const LETTER: DlqRow := DlqRow(1, true, 2, 1, UNRESOLVED)

  lemma LetterWritten(steps: seq<Step>)
    requires steps == [Deliver(PAIR), Try(PAIR, ProcessThrew), GiveUp(PAIR, 5, true, 0)]
    ensures var p := After(steps, 1); p.store.dlq == map[5 := LETTER] && p.replays == map[]
  {
    var a := [Deliver(PAIR)];
    var b := a + [Try(PAIR, ProcessThrew)];
    assert After([], 1) == EMPTY && [] + [Deliver(PAIR)] == a;
    AfterSnoc([], Deliver(PAIR), 1);
    AfterSnoc(a, Try(PAIR, ProcessThrew), 1);
    assert After(b, 1).handlers == map[PAIR := Handler(1)] && After(b, 1).store == EMPTY.store;
    AfterSnoc(b, GiveUp(PAIR, 5, true, 0), 1);
    assert steps == b + [GiveUp(PAIR, 5, true, 0)];
  }

  lemma ReplayAt(steps: seq<Step>, row: DlqRow, stage: Stage, step: Step, row': DlqRow, stage': Stage)
    requires var p := After(steps, 1); p.store.dlq == map[5 := row] && p.replays == map[0 := Replay(5, LETTER, stage)]
    requires step == Discard(5) ==> row' == row.(status := DISCARDED) && stage' == stage
    requires step != Discard(5) ==> step == Continue(0, Fine)
    requires step == Continue(0, Fine) && stage.Opening? ==> row' == row.(status := REPLAYING) && stage'.Clearing?
    requires step == Continue(0, Fine) && stage.Clearing? ==> row' == row && stage'.Sending?
    requires step == Continue(0, Fine) && stage.Sending? ==> row' == row && stage'.Resolving?
    requires step == Continue(0, Fine) ==> !stage.Resolving? && !stage.Reverting?
    ensures var p := After(steps + [step], 1);
            p.store.dlq == map[5 := row'] && p.replays == map[0 := Replay(5, LETTER, stage')]
  {
    hide After;
    AfterSnoc(steps, step, 1);
  }

  lemma ReplayStarts(steps: seq<Step>)
    requires var p := After(steps, 1); p.store.dlq == map[5 := LETTER] && p.replays == map[]
    ensures var p := After(steps + [StartReplay(0, 5)], 1);
            p.store.dlq == map[5 := LETTER] && p.replays == map[0 := Replay(5, LETTER, Opening)]
  {
    hide After;
    AfterSnoc(steps, StartReplay(0, 5), 1);
  }

  lemma ReplayResolves(steps: seq<Step>, row: DlqRow)
    requires var p := After(steps, 1);
             p.store.dlq == map[5 := row] && p.replays == map[0 := Replay(5, LETTER, Resolving)]
    ensures After(steps + [Continue(0, Fine)], 1).store.dlq == map[5 := row.(status := REPLAYED)]
  {
    hide After;
    AfterSnoc(steps, Continue(0, Fine), 1);
  }

  /** A run in which an operator discards a letter while its replay waits for the broker's
      acknowledgement, and the letter ends REPLAYED. */
  lemma ReplayOverridesDiscard() returns (steps: seq<Step>)
    ensures 5 in After(steps, 1).store.dlq && After(steps, 1).store.dlq[5].status == DISCARDED
    ensures 5 in After(steps + [Continue(0, Fine)], 1).store.dlq
    ensures After(steps + [Continue(0, Fine)], 1).store.dlq[5].status == REPLAYED
  {
    hide After;
    var fine := Continue(0, Fine);
    steps := [Deliver(PAIR), Try(PAIR, ProcessThrew), GiveUp(PAIR, 5, true, 0)];
    LetterWritten(steps);
    ReplayStarts(steps);
    steps := steps + [StartReplay(0, 5)];
    var row := LETTER.(status := REPLAYING);
    ReplayAt(steps, LETTER, Opening, fine, row, Clearing);
    steps := steps + [fine];
    ReplayAt(steps, row, Clearing, fine, row, Sending);
    steps := steps + [fine];
    ReplayAt(steps, row, Sending, fine, row, Resolving);
    steps := steps + [fine];
    ReplayAt(steps, row, Resolving, Discard(5), row.(status := DISCARDED), Resolving);
    steps := steps + [Discard(5)];
    ReplayResolves(steps, row.(status := DISCARDED));
  }

  // ---------------------------------------------------------------------------- the replay service

  /** The broker acknowledges the letter: it is readable and nothing threw up to the send. */
  predicate Republishes(row: DlqRow, results: nat -> Result) {
    row.original && results(0).Fine? && results(1).Fine? && results(2).Fine?
  }

  /** The status a replay leaves: a failed one is reverted unless that throws too, and then the
      last status written stays. */
  function FinalStatus(row: DlqRow, results: nat -> Result): DlqStatus {
    var resolved := Republishes(row, results) && Happens(results(3));
    if resolved && results(3).Fine? then REPLAYED
    else if Happens(results(4)) then UNRESOLVED
    else if resolved then REPLAYED
    else if Happens(results(0)) then REPLAYING
    else row.status
  }

  /** The tables after an undisturbed replay. */
  function ReplayedStore(s: Store, d: Id, results: nat -> Result): Store
    requires d in s.dlq
  {
    var row := s.dlq[d];
    s.(marks := if results(0).Fine? && Happens(results(1)) then s.marks - {PairOf(row)} else s.marks,
       dlq := s.dlq[d := row.(status := FinalStatus(row, results))])
  }

  datatype ReplayResult = NotFound | Refused | Success | Failed

  /** `replayDLQ` when nothing else touches the tables; `results` says how each of its
      statements ends: mark replaying, clear the mark, publish, resolve, revert. */
  class DlqReplayService {
    var store: Store
    var republished: set<Id>

    constructor (store: Store)
      ensures this.store == store && republished == {}
    {
      this.store := store;
      republished := {};
    }

    method ReplayDlq(d: Id, results: nat -> Result) returns (r: ReplayResult)
      modifies this
      ensures r == NotFound <==> d !in old(store).dlq
      ensures r == Refused <==> d in old(store).dlq && old(store).dlq[d].status == DISCARDED
      ensures r == NotFound || r == Refused ==> store == old(store) && republished == old(republished)
      ensures r == Success || r == Failed ==>
                var row := old(store).dlq[d];
                && (r == Success <==>
                      row.original && results(0).Fine? && results(1).Fine? && results(2).Fine? && results(3).Fine?)
                && republished == old(republished) + (if Republishes(row, results) then {d} else {})
                && store == ReplayedStore(old(store), d, results)
                && (r == Success ==> store.dlq[d].status == REPLAYED)
                && (r == Failed && Happens(results(4)) ==> store.dlq[d].status == UNRESOLVED)
    {
      if d !in store.dlq {
        return NotFound;
      }
      var row := store.dlq[d];
      if row.status == DISCARDED {
        return Refused;
      }
      var threw := false;
      if Happens(results(0)) {
        store := WithStatus(store, d, REPLAYING);
      }
      threw := !results(0).Fine?;
      if !threw {
        if Happens(results(1)) {
          store := Cleared(store, PairOf(row));
        }
        threw := !results(1).Fine?;
      }
      if !threw {
        if row.original && results(2).Fine? {
          republished := republished + {d};
        } else {
          threw := true;
        }
      }
      if !threw {
        if Happens(results(3)) {
          store := WithStatus(store, d, REPLAYED);
        }
        threw := !results(3).Fine?;
      }
      if threw && Happens(results(4)) {
        store := WithStatus(store, d, UNRESOLVED);
      }
      assert store.dlq == old(store).dlq[d := row.(status := store.dlq[d].status)];
      return if threw then Failed else Success;
    }
  }
}
