/**
 The compensation barrier under every sequence of refund and release confirmations:
 whatever their order and multiplicity, the saga is cancelled exactly when the pending
 actions are covered, and the cancellation is announced once, at the first covering prefix.
 */
module SagaBarrier {
  import opened Contracts
  import opened Saga

  /** The barrier transaction applied to each confirmed action in turn. */
  function Confirm(row: Row, actions: seq<Action>): (Row, seq<Message>)
    decreases |actions|
  {
    if actions == [] then (row, [])
    else
      var (r, sent) := Confirm(row, actions[..|actions| - 1]);
      var (r', more) := ResolveBarrier(r, actions[|actions| - 1]);
      (r', sent + more)
  }

  /** A compensating row as the saga saves it: some pending action is still unconfirmed. */
  predicate Waiting(row: Row) {
    && row.state == COMPENSATING
    && NoRepeats(CompletedOf(row.context))
    && !Covers(CompletedOf(row.context), PendingOf(row.context))
  }

  /** The pending actions are covered once `actions` are confirmed on top of `row`. */
  predicate CoveredBy(row: Row, actions: seq<Action>) {
    Covers(CompletedOf(row.context) + actions, PendingOf(row.context))
  }

  predicate FirstCovering(row: Row, actions: seq<Action>, k: nat) {
    0 < k <= |actions| && CoveredBy(row, actions[..k]) && !CoveredBy(row, actions[..k - 1])
  }

  /** The confirmed list after `actions`, while the barrier is still open. */
  function Accumulate(done: seq<Action>, actions: seq<Action>): seq<Action>
    decreases |actions|
  {
    if actions == [] then done
    else WithAction(Accumulate(done, actions[..|actions| - 1]), actions[|actions| - 1])
  }

  lemma {:induction false} AccumulateKeeps(done: seq<Action>, actions: seq<Action>)
    requires NoRepeats(done)
    ensures NoRepeats(Accumulate(done, actions))
    ensures done <= Accumulate(done, actions)
    ensures forall a :: a in Accumulate(done, actions) <==> a in done || a in actions
    decreases |actions|
  {
    if actions == [] {
    } else {
      var n := |actions| - 1;
      AccumulateKeeps(done, actions[..n]);
      assert actions == actions[..n] + [actions[n]];
    }
  }

  lemma CoveredMonotone(row: Row, shorter: seq<Action>, longer: seq<Action>)
    requires forall a :: a in shorter ==> a in longer
    ensures CoveredBy(row, shorter) ==> CoveredBy(row, longer)
  {
    var done := CompletedOf(row.context);
    assert forall a :: a in done + shorter ==> a in done + longer;
  }

  lemma {:induction false} OpenBarrier(row: Row, actions: seq<Action>)
    requires Waiting(row) && !CoveredBy(row, actions)
    ensures Confirm(row, actions).1 == []
    ensures Confirm(row, actions).0.state == COMPENSATING
    ensures Confirm(row, actions).0.failureReason == row.failureReason
    ensures Confirm(row, actions).0.context.(completed := row.context.completed) == row.context
    ensures CompletedOf(Confirm(row, actions).0.context) == Accumulate(CompletedOf(row.context), actions)
    decreases |actions|
  {
    if actions == [] {
    } else {
      var n := |actions| - 1;
      var prefix := actions[..n];
      CoveredMonotone(row, prefix, actions);
      OpenBarrier(row, prefix);
      AccumulateKeeps(CompletedOf(row.context), actions);
      AccumulateKeeps(CompletedOf(row.context), prefix);
      CoversByElements(Accumulate(CompletedOf(row.context), actions), CompletedOf(row.context) + actions,
                       PendingOf(row.context));
    }
  }

  lemma CoversByElements(a: seq<Action>, b: seq<Action>, todo: seq<Action>)
    requires forall x :: x in a <==> x in b
    ensures Covers(a, todo) == Covers(b, todo)
  {
  }

  lemma {:induction false} ClosedBarrier(row: Row, actions: seq<Action>, more: seq<Action>)
    requires Confirm(row, actions).0.state == CANCELLED
    ensures Confirm(row, actions + more) == Confirm(row, actions)
    decreases |more|
  {
    if more == [] {
      assert actions + more == actions;
    } else {
      var n := |more| - 1;
      ClosedBarrier(row, actions, more[..n]);
      assert (actions + more)[..|actions + more| - 1] == actions + more[..n];
      assert Confirm(row, actions).1 + [] == Confirm(row, actions).1;
    }
  }

  /** The confirmation that completes the cover cancels the order and announces it. */
  lemma CoveringConfirmation(row: Row, actions: seq<Action>, k: nat)
    requires Waiting(row) && FirstCovering(row, actions, k)
    ensures var done := Accumulate(CompletedOf(row.context), actions[..k]);
            && Confirm(row, actions[..k]).0.state == CANCELLED
            && Confirm(row, actions[..k]).0.context == row.context.(completed := Some(done))
            && Confirm(row, actions[..k]).1 == [OrderCancelled(row.context.userId, row.failureReason, done)]
  {
    var upTo := actions[..k];
    assert upTo[..k - 1] == actions[..k - 1];
    OpenBarrier(row, upTo[..k - 1]);
    AccumulateKeeps(CompletedOf(row.context), upTo);
    CoversByElements(Accumulate(CompletedOf(row.context), upTo), CompletedOf(row.context) + upTo,
                       PendingOf(row.context));
  }

  /** A covering sequence has a first covering prefix. */
  lemma {:induction false} FirstCover(row: Row, actions: seq<Action>) returns (k: nat)
    requires Waiting(row) && CoveredBy(row, actions)
    ensures FirstCovering(row, actions, k)
    decreases |actions|
  {
    var n := |actions|;
    assert actions[..n] == actions;
    assert CompletedOf(row.context) + [] == CompletedOf(row.context);
    if CoveredBy(row, actions[..n - 1]) {
      k := FirstCover(row, actions[..n - 1]);
      assert actions[..n - 1][..k] == actions[..k];
      assert actions[..n - 1][..k - 1] == actions[..k - 1];
    } else {
      k := n;
    }
  }

  /** From the first covering prefix on, nothing changes and nothing more is sent. */
  lemma SettledAtFirstCover(row: Row, actions: seq<Action>, k: nat)
    requires Waiting(row) && FirstCovering(row, actions, k)
    ensures Confirm(row, actions) == Confirm(row, actions[..k])
    ensures Confirm(row, actions[..k]).0.state == CANCELLED
    ensures Confirm(row, actions[..k - 1]).0.state == COMPENSATING
    ensures Confirm(row, actions).1 == [Announcement(row, actions[..k])]
    ensures CompletedOf(Confirm(row, actions).0.context) == Accumulate(CompletedOf(row.context), actions[..k])
  {
    hide ResolveBarrier, CoveredBy, Accumulate, Confirm;
    OpenBarrier(row, actions[..k - 1]);
    CoveringConfirmation(row, actions, k);
    ClosedBarrier(row, actions[..k], actions[k..]);
    assert actions[..k] + actions[k..] == actions;
  }

  function Announcement(row: Row, actions: seq<Action>): Message {
    OrderCancelled(row.context.userId, row.failureReason, Accumulate(CompletedOf(row.context), actions))
  }

  /** Barrier law: cancelled if and only if the confirmations cover the pending list; the
      announcement is sent exactly once, at the first covering prefix, listing the actions
      confirmed by then; the confirmed list never shrinks and never repeats an action. */
  lemma BarrierConfluence(row: Row, actions: seq<Action>)
    requires Waiting(row)
    ensures Confirm(row, actions).0.state == CANCELLED <==> CoveredBy(row, actions)
    ensures Confirm(row, actions).0.state == COMPENSATING <==> !CoveredBy(row, actions)
    ensures !CoveredBy(row, actions) ==> Confirm(row, actions).1 == []
    ensures CoveredBy(row, actions) ==> exists k: nat :: FirstCovering(row, actions, k)
    ensures forall k: nat :: FirstCovering(row, actions, k) ==>
              && Confirm(row, actions).1 == [Announcement(row, actions[..k])]
              && Confirm(row, actions[..k]).0.state == CANCELLED
              && Confirm(row, actions[..k - 1]).0.state == COMPENSATING
    ensures CompletedOf(row.context) <= CompletedOf(Confirm(row, actions).0.context)
    ensures NoRepeats(CompletedOf(Confirm(row, actions).0.context))
  {
    hide ResolveBarrier, CoveredBy, Accumulate, Confirm, Announcement;
    forall k: nat | FirstCovering(row, actions, k)
      ensures Confirm(row, actions).1 == [Announcement(row, actions[..k])]
      ensures Confirm(row, actions[..k]).0.state == CANCELLED
      ensures Confirm(row, actions[..k - 1]).0.state == COMPENSATING
    {
      SettledAtFirstCover(row, actions, k);
    }
    if CoveredBy(row, actions) {
      var k := FirstCover(row, actions);
      SettledAtFirstCover(row, actions, k);
      AccumulateKeeps(CompletedOf(row.context), actions[..k]);
    } else {
      OpenBarrier(row, actions);
      AccumulateKeeps(CompletedOf(row.context), actions);
    }
  }

  /** Order and repetition of the confirmations never matter for the verdict. */
  lemma BarrierOrderIrrelevant(row: Row, one: seq<Action>, other: seq<Action>)
    requires Waiting(row)
    requires forall a :: a in one <==> a in other
    ensures Confirm(row, one).0.state == Confirm(row, other).0.state
    ensures |Confirm(row, one).1| == |Confirm(row, other).1|
  {
    CoveredMonotone(row, one, other);
    CoveredMonotone(row, other, one);
    hide ResolveBarrier, CoveredBy, Accumulate, Confirm;
    BarrierConfluence(row, one);
    BarrierConfluence(row, other);
    if CoveredBy(row, one) {
      var k := FirstCover(row, one);
      var k' := FirstCover(row, other);
    }
  }
}
