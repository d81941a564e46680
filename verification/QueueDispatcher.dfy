/** The dispatcher as the coroutine runs it: a loop of at most eight attempts over a store that
    others change at every await. Each method is proved against `QueueDispatch`. */
module QueueDispatcher {
  import opened Common
  import opened QueueDispatch

  class Dispatcher {
    // the queue store
    var items: seq<Item>
    // what happened to it, and what this call did
    var trace: seq<Op>
    var claimed: seq<nat>
    var runs: seq<nat>
    var returned: bool
    var result: Option<nat>
    var tries: nat

    ghost function View(): Call
      reads this
    {
      Call(Store(items), trace, claimed, runs, returned, result, tries)
    }

    constructor (items: seq<Item>)
      ensures View() == Idle(Store(items))
    {
      this.items := items;
      trace, claimed, runs, returned, result, tries := [], [], [], false, None, 0;
    }

    /** The scan of `claim_next` and of the session listing. */
    method Find(policies: set<Policy>) returns (first: Option<nat>)
      ensures first == FirstQueued(items, policies)
    {
      var i := 0;
      while i < |items|
        invariant 0 <= i <= |items|
        invariant FirstQueued(items, policies) == FirstQueued(items, policies, i)
      {
        if QueuedAs(items, i, policies) { return Some(i); }
        i := i + 1;
      }
      return None;
    }

    /** One operation on the store, by this call or another caller. */
    method Perform(op: Op)
      modifies this`items, this`trace
      ensures View() == Do(old(View()), [op])
    {
      ghost var c := View();
      DoOne(c, op);
      match op {
        case Enqueue(policy) => items := items + [Item(policy, Queued, 0)];
        case ClaimNext(policy) =>
          var first := Find({policy});
          if first.Some? { items := items[first.value := items[first.value].(status := Dispatching)]; }
        case Retarget(i) => if QueuedAs(items, i, {Auto, Steer}) { items := items[i := items[i].(policy := Steer)]; }
        case MarkDispatched(i) => items := WithStatus(items, i, Dispatched);
        case MarkFailed(i) => items := WithStatus(items, i, Failed);
        case CancelCheck(i) => if Cancelable(items, i) { items := items[i := items[i].(cancels := items[i].cancels + 1)]; }
        case CancelWrite(i) =>
          if i < |items| && items[i].cancels > 0 {
            items := items[i := items[i].(status := Canceled, cancels := items[i].cancels - 1)];
          }
        case ClaimForTurn(matching, limit) => items := ClaimTurn(items, matching, TurnLimit(limit), 0);
        case Reset(stale) => items := ResetStale(items, stale);
      }
      trace := trace + [op];
    }

    /** What others do while this call awaits. */
    method Await(ops: seq<Op>)
      modifies this`items, this`trace
      ensures View() == Do(old(View()), ops)
    {
      ghost var c := View();
      var i := 0;
      assert Do(c, []) == c by { DoNothing(c); }
      while i < |ops|
        invariant 0 <= i <= |ops|
        invariant View() == Do(c, ops[..i])
      {
        DoJoins(c, ops[..i], [ops[i]]);
        assert ops[..i] + [ops[i]] == ops[..i + 1];
        Perform(ops[i]);
        i := i + 1;
      }
      assert ops[..i] == ops;
    }

    method DispatchClaimed(i: nat, a: Attempt)
      modifies this
      ensures View() == QueueDispatch.DispatchClaimed(old(View()), i, a)
    {
      Await(a.atMark);
      if !a.created {
        Perform(MarkFailed(i));
      } else {
        runs := runs + [i];
        if a.markOk {
          Perform(MarkDispatched(i));
          result := Some(i);
        } else {
          Perform(MarkFailed(i));
          result := None;
        }
      }
      returned := true;
    }

    method DispatchAuto(next: nat, a: Attempt)
      modifies this
      ensures View() == QueueDispatch.DispatchAuto(old(View()), next, a)
    {
      Await(a.atClaim);
      if a.steerable {
        var retargeted := QueuedAs(items, next, {Auto, Steer});
        Perform(Retarget(next));
        returned := retargeted;
        return;
      }
      var first := Find({Auto});
      Perform(ClaimNext(Auto));
      if first.Some? {
        claimed := claimed + [first.value];
        DispatchClaimed(first.value, a);
      }
    }

    method DispatchSteer(a: Attempt)
      modifies this
      ensures View() == QueueDispatch.DispatchSteer(old(View()), a)
    {
      if a.steerAllowed {
        returned := true;
        return;
      }
      Await(a.atClaim);
      var first := Find({Steer});
      Perform(ClaimNext(Steer));
      if first.Some? {
        claimed := claimed + [first.value];
        Await(a.atMark);
        Perform(MarkFailed(first.value));
      }
    }

    method TryOnce(a: Attempt)
      modifies this
      ensures View() == QueueDispatch.TryOnce(old(View()), a)
    {
      Await(a.atList);
      var next := Find({Auto, Steer});
      if next.None? || a.active {
        returned := true;
        return;
      }
      if items[next.value].policy.Auto? { DispatchAuto(next.value, a); } else { DispatchSteer(a); }
    }

    /** One turn of the attempt loop. */
    method TryNext(attempts: nat -> Attempt)
      requires tries < MAX_ATTEMPTS && !returned
      modifies this
      ensures View() == TurnOf(attempts)(old(View())).(tries := old(tries) + 1)
    {
      ghost var c := View();
      var n := tries;
      TryOnce(attempts(n));
      tries := n + 1;
      assert View() == QueueDispatch.TryOnce(c, attempts(n)).(tries := n + 1);
    }

    /** At most eight attempts, until the call returns. */
    method TryAll(attempts: nat -> Attempt)
      modifies this
      ensures View() == QueueDispatch.TryAll(TurnOf(attempts), old(View()))
    {
      ghost var turn := TurnOf(attempts);
      ghost var goal := QueueDispatch.TryAll(turn, View());
      while tries < MAX_ATTEMPTS && !returned
        invariant QueueDispatch.TryAll(turn, View()) == goal
        decreases MAX_ATTEMPTS - tries
      {
        ghost var c := View();
        TryNext(attempts);
        TryAllStep(turn, c, View());
      }
    }

    method DispatchNext(w: World) returns (run: Option<nat>)
      requires View() == Idle(View().store)
      modifies this
      ensures View() == QueueDispatch.DispatchNext(old(View()).store, w)
      ensures run == result
    {
      Await(w.atReset);
      Perform(Reset(w.stale));
      TryAll(w.attempts);
      run := result;
    }
  }

  lemma DoJoins(c: Call, xs: seq<Op>, ys: seq<Op>)
    ensures Do(c, xs + ys) == Do(Do(c, xs), ys)
  {
    ApplyAllJoins(c.store, xs, ys);
    assert c.trace + (xs + ys) == c.trace + xs + ys;
  }
}
