/** Queued user inputs: the store's operations, each atomic under its lock, and the bounded
    dispatcher loop that runs between them. Items are listed in enqueue order and named by
    their index there. */
module QueueDispatch {
  import opened Common

  datatype Policy = Auto | Steer
  datatype Status = Queued | Dispatching | Dispatched | Failed | Canceled

  /** `cancels`: cancel requests for the item that passed their status check and have yet to write.
      The store checks and writes under two separate locks. */
  datatype Item = Item(policy: Policy, status: Status, cancels: nat)

  datatype Store = Store(items: seq<Item>)

  datatype Op =
    | Enqueue(policy: Policy)
    | ClaimNext(policy: Policy)
    | ClaimForTurn(matching: set<nat>, limit: int)
    | Retarget(item: nat)
    | MarkDispatched(item: nat)
    | MarkFailed(item: nat)
    | CancelCheck(item: nat)
    | CancelWrite(item: nat)
    | Reset(stale: set<nat>)

  // ---- the store ----

  predicate QueuedAs(items: seq<Item>, i: nat, policies: set<Policy>) {
    i < |items| && items[i].status.Queued? && items[i].policy in policies
  }

  /** The first queued item of one of these policies. */
  function FirstQueued(items: seq<Item>, policies: set<Policy>, from: nat := 0): (r: Option<nat>)
    ensures r.Some? ==> from <= r.value && QueuedAs(items, r.value, policies)
    ensures forall i :: from <= i < |items| && QueuedAs(items, i, policies) ==> r.Some? && r.value <= i
    decreases |items| - from
  {
    if from >= |items| then None
    else if QueuedAs(items, from, policies) then Some(from)
    else FirstQueued(items, policies, from + 1)
  }

  function WithStatus(items: seq<Item>, i: nat, status: Status): seq<Item> {
    if i < |items| then items[i := items[i].(status := status)] else items
  }

  /** `claim_for_active_turn`: queued items that fit the turn become its steers, up to a limit. */
  function ClaimTurn(items: seq<Item>, matching: set<nat>, left: nat, from: nat): (r: seq<Item>)
    requires from <= |items|
    ensures |r| == |items|
    ensures forall i :: 0 <= i < |items| ==>
              r[i] == items[i] || (i >= from && items[i].status.Queued? && r[i] == items[i].(policy := Steer, status := Dispatching))
    decreases |items| - from
  {
    if from == |items| || left == 0 then items
    else if items[from].status.Queued? && from in matching
    then ClaimTurn(items[from := items[from].(policy := Steer, status := Dispatching)], matching, left - 1, from + 1)
    else ClaimTurn(items, matching, left, from + 1)
  }

  /** `max(1, min(32, int(limit or 8)))` */
  function TurnLimit(limit: int): nat {
    Max(1, Min(32, if limit == 0 then 8 else limit))
  }

  function ResetStale(items: seq<Item>, stale: set<nat>): (r: seq<Item>)
    ensures |r| == |items|
  {
    seq(|items|, i requires 0 <= i < |items| =>
      if i in stale && items[i].status.Dispatching? then items[i].(status := Queued) else items[i])
  }

  predicate Cancelable(items: seq<Item>, i: nat) {
    i < |items| && (items[i].status.Queued? || items[i].status.Dispatching?)
  }

  predicate CancelPending(s: Store, i: nat) {
    i < |s.items| && s.items[i].cancels > 0
  }

  function Apply(s: Store, op: Op): Store {
    match op
    case Enqueue(policy) => s.(items := s.items + [Item(policy, Queued, 0)])
    case ClaimNext(policy) =>
      var first := FirstQueued(s.items, {policy});
      if first.Some? then s.(items := WithStatus(s.items, first.value, Dispatching)) else s
    case ClaimForTurn(matching, limit) => s.(items := ClaimTurn(s.items, matching, TurnLimit(limit), 0))
    case Retarget(i) => if QueuedAs(s.items, i, {Auto, Steer}) then s.(items := s.items[i := s.items[i].(policy := Steer)]) else s
    case MarkDispatched(i) => s.(items := WithStatus(s.items, i, Dispatched))
    case MarkFailed(i) => s.(items := WithStatus(s.items, i, Failed))
    case CancelCheck(i) =>
      if Cancelable(s.items, i) then s.(items := s.items[i := s.items[i].(cancels := s.items[i].cancels + 1)]) else s
    case CancelWrite(i) =>
      if CancelPending(s, i)
      then s.(items := s.items[i := s.items[i].(status := Canceled, cancels := s.items[i].cancels - 1)])
      else s
    case Reset(stale) => s.(items := ResetStale(s.items, stale))
  }

  function ApplyAll(s: Store, ops: seq<Op>): Store
    decreases |ops|
  {
    if ops == [] then s else ApplyAll(Apply(s, ops[0]), ops[1..])
  }

  // ---- what each operation does to each item ----

  /** The queued items among these that fit the turn, before item i. */
  function FittingBefore(items: seq<Item>, matching: set<nat>, from: nat, i: nat): nat
    requires i <= |items|
    decreases i
  {
    if i <= from then 0
    else FittingBefore(items, matching, from, i - 1) + (if items[i - 1].status.Queued? && i - 1 in matching then 1 else 0)
  }

  lemma {:induction false} FittingHead(items: seq<Item>, matching: set<nat>, from: nat, i: nat)
    requires from < i <= |items|
    ensures FittingBefore(items, matching, from, i)
            == (if items[from].status.Queued? && from in matching then 1 else 0) + FittingBefore(items, matching, from + 1, i)
    decreases i
  {
    if i == from + 1 {
    } else {
      FittingHead(items, matching, from, i - 1);
    }
  }

  lemma {:induction false} FittingSame(items: seq<Item>, others: seq<Item>, matching: set<nat>, from: nat, i: nat)
    requires i <= |items| == |others| && forall j :: from <= j < i ==> items[j] == others[j]
    ensures FittingBefore(items, matching, from, i) == FittingBefore(others, matching, from, i)
    decreases i
  {
    if i <= from {
    } else {
      FittingSame(items, others, matching, from, i - 1);
    }
  }

  lemma {:induction false} ClaimTurnAt(items: seq<Item>, matching: set<nat>, left: nat, from: nat, i: nat)
    requires from <= |items| && i < |items|
    ensures ClaimTurn(items, matching, left, from)[i]
            == if from <= i && items[i].status.Queued? && i in matching && FittingBefore(items, matching, from, i) < left
               then items[i].(policy := Steer, status := Dispatching) else items[i]
    decreases |items| - from
  {
    if from == |items| || left == 0 {
    } else if items[from].status.Queued? && from in matching {
      var next := items[from := items[from].(policy := Steer, status := Dispatching)];
      ClaimTurnAt(next, matching, left - 1, from + 1, i);
      if from < i {
        FittingHead(items, matching, from, i);
        FittingSame(items, next, matching, from + 1, i);
      }
    } else {
      ClaimTurnAt(items, matching, left, from + 1, i);
      if from < i { FittingHead(items, matching, from, i); }
    }
  }

  /** The item an operation names, or takes: the first queued one of the policy, the first queued ones
      that fit the turn, up to one to thirty-two, or eight when no limit is given. */
  predicate Touches(s: Store, op: Op, i: nat)
    requires i < |s.items|
  {
    match op
    case Enqueue(_) => false
    case ClaimNext(policy) => QueuedAs(s.items, i, {policy}) && forall j :: 0 <= j < i ==> !QueuedAs(s.items, j, {policy})
    case ClaimForTurn(matching, limit) =>
      && s.items[i].status.Queued? && i in matching
      && FittingBefore(s.items, matching, 0, i) < (if limit == 0 then 8 else if limit < 1 then 1 else if limit > 32 then 32 else limit)
    case Retarget(item) => i == item && s.items[i].status.Queued?
    case MarkDispatched(item) => i == item
    case MarkFailed(item) => i == item
    case CancelCheck(item) => i == item && s.items[i].status in {Queued, Dispatching}
    case CancelWrite(item) => i == item && s.items[i].cancels > 0
    case Reset(stale) => i in stale && s.items[i].status == Dispatching
  }

  /** What it makes of such an item. */
  function Touched(op: Op, item: Item): Item {
    match op
    case Enqueue(_) => item
    case ClaimNext(_) => item.(status := Dispatching)
    case ClaimForTurn(_, _) => item.(status := Dispatching, policy := Steer)
    case Retarget(_) => item.(policy := Steer)
    case MarkDispatched(_) => item.(status := Dispatched)
    case MarkFailed(_) => item.(status := Failed)
    case CancelCheck(_) => item.(cancels := item.cancels + 1)
    case CancelWrite(_) => item.(status := Canceled, cancels := if item.cancels > 0 then item.cancels - 1 else 0)
    case Reset(_) => item.(status := Queued)
  }

  lemma ClaimTouches(s: Store, policy: Policy, i: nat)
    requires i < |s.items|
    ensures Apply(s, ClaimNext(policy)).items[i]
            == if Touches(s, ClaimNext(policy), i) then s.items[i].(status := Dispatching) else s.items[i]
  {
    var first := FirstQueued(s.items, {policy});
    if first.Some? {
      assert QueuedAs(s.items, first.value, {policy});
      if i == first.value { assert Touches(s, ClaimNext(policy), i); }
    }
  }

  /** Each operation, item by item: it changes the items it touches and no other, and only an enqueue
      adds one, queued, at the end. */
  lemma OperationTouches(s: Store, op: Op)
    ensures var r := Apply(s, op).items;
            && |r| == |s.items| + (if op.Enqueue? then 1 else 0)
            && (op.Enqueue? ==> r[|s.items|] == Item(op.policy, Queued, 0))
            && forall i :: 0 <= i < |s.items| ==> r[i] == if Touches(s, op, i) then Touched(op, s.items[i]) else s.items[i]
  {
    var r := Apply(s, op).items;
    forall i | 0 <= i < |s.items| ensures r[i] == if Touches(s, op, i) then Touched(op, s.items[i]) else s.items[i] {
      if op.ClaimForTurn? {
        ClaimTurnAt(s.items, op.matching, TurnLimit(op.limit), 0, i);
      } else if op.ClaimNext? {
        ClaimTouches(s, op.policy, i);
      } else if op.Retarget? {
        assert s.items[i].policy.Auto? || s.items[i].policy.Steer?;
      }
    }
  }

  // ---- the one-way door ----

  /** Without crash resets an item never returns to the queue, never turns from steer to auto,
      and keeps its policy once it has left the queue. */
  predicate Evolves(a: Item, b: Item) {
    && (!a.status.Queued? ==> !b.status.Queued? && b.policy == a.policy)
    && (a.policy.Steer? ==> b.policy.Steer?)
  }

  predicate Later(a: seq<Item>, b: seq<Item>) {
    |a| <= |b| && forall i :: 0 <= i < |a| ==> Evolves(a[i], b[i])
  }

  predicate NoReset(ops: seq<Op>) {
    forall i :: 0 <= i < |ops| ==> ops[i].Reset? ==> ops[i].stale == {}
  }

  lemma ApplyEvolves(s: Store, op: Op)
    requires op.Reset? ==> op.stale == {}
    ensures Later(s.items, Apply(s, op).items)
  {
  }

  lemma {:induction false} OpsEvolve(s: Store, ops: seq<Op>)
    requires NoReset(ops)
    ensures Later(s.items, ApplyAll(s, ops).items)
    decreases |ops|
  {
    if ops == [] {
    } else {
      ApplyEvolves(s, ops[0]);
      OpsEvolve(Apply(s, ops[0]), ops[1..]);
    }
  }

  /** The item that an operation claims for a run, if any. */
  function ClaimedBy(s: Store, op: Op): seq<nat> {
    var first := FirstQueued(s.items, {Auto});
    if op == ClaimNext(Auto) && first.Some? then [first.value] else []
  }

  /** The auto claims of a history, in the order they were made, whoever made them. */
  function AutoClaims(s: Store, ops: seq<Op>): seq<nat>
    decreases |ops|
  {
    if ops == [] then [] else ClaimedBy(s, ops[0]) + AutoClaims(Apply(s, ops[0]), ops[1..])
  }

  /** No auto item below `floor` is waiting. */
  predicate Drained(items: seq<Item>, floor: nat) {
    floor <= |items| && forall i :: 0 <= i < floor ==> !QueuedAs(items, i, {Auto})
  }

  lemma DrainedStays(a: seq<Item>, b: seq<Item>, floor: nat)
    requires Later(a, b) && Drained(a, floor)
    ensures Drained(b, floor)
  {
    forall i | 0 <= i < floor ensures !QueuedAs(b, i, {Auto}) {
      assert !QueuedAs(a, i, {Auto}) && Evolves(a[i], b[i]);
    }
  }

  /** A claim takes the first waiting auto item, so none is left up to it. */
  lemma ClaimDrains(s: Store)
    requires FirstQueued(s.items, {Auto}).Some?
    ensures Drained(Apply(s, ClaimNext(Auto)).items, FirstQueued(s.items, {Auto}).value + 1)
  {
    var first, t := FirstQueued(s.items, {Auto}).value, Apply(s, ClaimNext(Auto));
    forall i | 0 <= i < first + 1 ensures !QueuedAs(t.items, i, {Auto}) {
      if i < first { assert !QueuedAs(s.items, i, {Auto}); }
    }
  }

  /** In every history without crash resets, however its callers interleave, auto items are
      claimed in enqueue order and none twice. */
  lemma {:induction false} ClaimsInEnqueueOrder(s: Store, ops: seq<Op>, floor: nat)
    requires NoReset(ops) && Drained(s.items, floor)
    ensures Ascending(AutoClaims(s, ops))
    ensures forall i :: 0 <= i < |AutoClaims(s, ops)| ==> floor <= AutoClaims(s, ops)[i]
    decreases |ops|
  {
    if ops == [] {
    } else {
      var t := Apply(s, ops[0]);
      ApplyEvolves(s, ops[0]);
      DrainedStays(s.items, t.items, floor);
      var first := FirstQueued(s.items, {Auto});
      if ops[0] == ClaimNext(Auto) && first.Some? {
        ClaimDrains(s);
        ClaimsInEnqueueOrder(t, ops[1..], first.value + 1);
      } else {
        ClaimsInEnqueueOrder(t, ops[1..], floor);
      }
    }
  }

  /** How often an item occurs. */
  function Times(xs: seq<nat>, i: nat): nat
    decreases |xs|
  {
    if xs == [] then 0 else (if xs[0] == i then 1 else 0) + Times(xs[1..], i)
  }

  lemma {:induction false} TimesJoin(xs: seq<nat>, ys: seq<nat>, i: nat)
    ensures Times(xs + ys, i) == Times(xs, i) + Times(ys, i)
    decreases |xs|
  {
    if xs == [] {
      assert xs + ys == ys;
    } else {
      TimesJoin(xs[1..], ys, i);
      assert (xs + ys)[1..] == xs[1..] + ys;
    }
  }

  predicate MayBeClaimed(s: Store, i: nat) {
    i >= |s.items| || QueuedAs(s.items, i, {Auto})
  }

  predicate ReturnedBy(s: Store, op: Op, i: nat) {
    op.Reset? && i in op.stale && i < |s.items| && s.items[i].status.Dispatching?
  }

  /** How many resets of a history returned the item to the queue. */
  function Returns(s: Store, ops: seq<Op>, i: nat): nat
    decreases |ops|
  {
    if ops == [] then 0
    else
      (if ReturnedBy(s, ops[0], i) then 1 else 0) + Returns(Apply(s, ops[0]), ops[1..], i)
  }

  /** A claim uses up the item's turn, and only a reset gives it another. */
  lemma ClaimStep(s: Store, op: Op, i: nat)
    ensures op == ClaimNext(Auto) && FirstQueued(s.items, {Auto}) == Some(i) ==>
              MayBeClaimed(s, i) && !MayBeClaimed(Apply(s, op), i)
    ensures MayBeClaimed(Apply(s, op), i) ==> MayBeClaimed(s, i) || ReturnedBy(s, op, i)
  {
  }

  /** With crash resets, in every history: an item is claimed for a run at most once, not at all
      unless it is waiting as auto or enqueued later, and once more for each reset that returned
      it to the queue. */
  lemma {:induction false} ClaimsPerItem(s: Store, ops: seq<Op>, i: nat)
    ensures Times(AutoClaims(s, ops), i)
            <= (if MayBeClaimed(s, i) then 1 else 0) + Returns(s, ops, i)
    decreases |ops|
  {
    if ops == [] {
    } else {
      var next := Apply(s, ops[0]);
      ClaimsPerItem(next, ops[1..], i);
      TimesJoin(ClaimedBy(s, ops[0]), AutoClaims(next, ops[1..]), i);
      ClaimStep(s, ops[0], i);
    }
  }

  /** A crash reset can undo both: a slow dispatch is claimed, and run, a second time. */
  lemma ResetClaimsTwice()
    ensures AutoClaims(Store([Item(Auto, Queued, 0)]), [ClaimNext(Auto), Reset({0}), ClaimNext(Auto)]) == [0, 0]
  {
    var s0 := Store([Item(Auto, Queued, 0)]);
    var s1 := Apply(s0, ClaimNext(Auto));
    var s2 := Apply(s1, Reset({0}));
    assert s1.items == [Item(Auto, Dispatching, 0)] && s2.items == [Item(Auto, Queued, 0)];
    assert AutoClaims(s2, [ClaimNext(Auto)]) == [0];
    assert [Reset({0}), ClaimNext(Auto)][1..] == [ClaimNext(Auto)];
    assert [ClaimNext(Auto), Reset({0}), ClaimNext(Auto)][1..] == [Reset({0}), ClaimNext(Auto)];
  }

  // ---- one dispatcher call ----

  /** What one attempt meets: the operations of others before each of its own, and the answers of
      the runtime it asks. */
  datatype Attempt = Attempt(
    atList: seq<Op>, active: bool, steerable: bool, steerAllowed: bool,
    atClaim: seq<Op>, atMark: seq<Op>, created: bool, markOk: bool)

  datatype World = World(atReset: seq<Op>, stale: set<nat>, attempts: nat -> Attempt)

  const MAX_ATTEMPTS := 8

  /** A call in progress: the store, the history so far, what this call claimed, which items it
      made a run of, and the item whose run it returns. */
  datatype Call = Call(
    store: Store, trace: seq<Op>, claimed: seq<nat>, runs: seq<nat>, returned: bool, result: Option<nat>, tries: nat)

  function Idle(s: Store): Call {
    Call(s, [], [], [], false, None, 0)
  }

  function Do(c: Call, ops: seq<Op>): Call {
    c.(store := ApplyAll(c.store, ops), trace := c.trace + ops)
  }

  /** `_dispatch_claimed_queued_input`: a run whose item cannot be marked is not returned, and its
      item is marked failed. */
  function DispatchClaimed(c: Call, i: nat, a: Attempt): Call {
    var waited := Do(c, a.atMark);
    if !a.created then Do(waited, [MarkFailed(i)]).(returned := true)
    else
      var ran := waited.(runs := waited.runs + [i]);
      Do(ran, [if a.markOk then MarkDispatched(i) else MarkFailed(i)])
      .(returned := true, result := if a.markOk then Some(i) else None)
  }

  function DispatchAuto(c: Call, next: nat, a: Attempt): Call {
    var ready := Do(c, a.atClaim);
    if a.steerable then
      Do(ready, [Retarget(next)]).(returned := QueuedAs(ready.store.items, next, {Auto, Steer}))
    else
      var first := FirstQueued(ready.store.items, {Auto});
      var tried := Do(ready, [ClaimNext(Auto)]);
      if first.None? then tried
      else DispatchClaimed(tried.(claimed := tried.claimed + [first.value]), first.value, a)
  }

  function DispatchSteer(c: Call, a: Attempt): Call {
    if a.steerAllowed then c.(returned := true)
    else
      var ready := Do(c, a.atClaim);
      var first := FirstQueued(ready.store.items, {Steer});
      var tried := Do(ready, [ClaimNext(Steer)]);
      if first.None? then tried
      else
        var claimed := tried.(claimed := tried.claimed + [first.value]);
        Do(Do(claimed, a.atMark), [MarkFailed(first.value)])
  }

  function TryOnce(c: Call, a: Attempt): Call {
    var listed := Do(c, a.atList);
    var next := FirstQueued(listed.store.items, {Auto, Steer});
    if next.None? || a.active then listed.(returned := true)
    else if listed.store.items[next.value].policy.Auto? then DispatchAuto(listed, next.value, a)
    else DispatchSteer(listed, a)
  }

  /** One turn of the attempt loop. */
  function TurnOf(attempts: nat -> Attempt): Call -> Call {
    (c: Call) => TryOnce(c, attempts(c.tries))
  }

  /** Turns until the call returns, at most eight. */
  function TryAll(turn: Call -> Call, c: Call): Call
    decreases MAX_ATTEMPTS - c.tries
  {
    if c.returned || c.tries >= MAX_ATTEMPTS then c else TryAll(turn, turn(c).(tries := c.tries + 1))
  }

  /** After the reset of items whose dispatch looks crashed. */
  function Opened(s: Store, w: World): Call {
    Do(Do(Idle(s), w.atReset), [Reset(w.stale)])
  }

  /** `_dispatch_next_queued_input` */
  function DispatchNext(s: Store, w: World): Call {
    TryAll(TurnOf(w.attempts), Opened(s, w))
  }

  // ---- what a call keeps ----

  lemma {:induction false} ApplyAllJoins(s: Store, xs: seq<Op>, ys: seq<Op>)
    ensures ApplyAll(s, xs + ys) == ApplyAll(ApplyAll(s, xs), ys)
    decreases |xs|
  {
    if xs == [] {
      assert xs + ys == ys;
    } else {
      ApplyAllJoins(Apply(s, xs[0]), xs[1..], ys);
      assert (xs + ys)[1..] == xs[1..] + ys;
    }
  }

  predicate Settled(items: seq<Item>, i: nat) {
    i < |items| && (items[i].status.Dispatched? || items[i].status.Failed?)
  }

  predicate IsMark(op: Op, i: nat) {
    op == MarkDispatched(i) || op == MarkFailed(i)
  }

  predicate NoMark(ops: seq<Op>, i: nat) {
    forall k :: 0 <= k < |ops| ==> !IsMark(ops[k], i)
  }

  /** No operation but a mark brings a canceled item back. */
  lemma {:induction false} CanceledStays(s: Store, ops: seq<Op>, i: nat)
    requires i < |s.items| && s.items[i].status.Canceled? && NoMark(ops, i)
    ensures i < |ApplyAll(s, ops).items| && ApplyAll(s, ops).items[i].status.Canceled?
    decreases |ops|
  {
    if ops == [] {
    } else {
      CanceledStays(Apply(s, ops[0]), ops[1..], i);
    }
  }

  /** A settled item stays settled, over any operations that do not mark it again, if and only if
      no cancel of it both had passed its check by then and writes. */
  lemma {:induction false} SettledIff(s: Store, ops: seq<Op>, i: nat)
    requires Settled(s.items, i) && NoMark(ops, i)
    ensures i < |ApplyAll(s, ops).items|
    ensures Settled(ApplyAll(s, ops).items, i) <==> !(CancelPending(s, i) && CancelWrite(i) in ops)
    ensures !Settled(ApplyAll(s, ops).items, i) ==> ApplyAll(s, ops).items[i].status.Canceled?
    decreases |ops|
  {
    if ops == [] {
    } else if ops[0] == CancelWrite(i) && CancelPending(s, i) {
      CanceledStays(Apply(s, ops[0]), ops[1..], i);
    } else {
      SettledIff(Apply(s, ops[0]), ops[1..], i);
    }
  }

  /** The position just after the last mark of the item, 0 when there is none. */
  function LastMark(trace: seq<Op>, i: nat): (p: nat)
    ensures p <= |trace| && NoMark(trace[p..], i)
    ensures p > 0 ==> IsMark(trace[p - 1], i)
  {
    if trace == [] then 0
    else if IsMark(trace[|trace| - 1], i) then |trace|
    else LastMark(trace[..|trace| - 1], i)
  }

  /** The history marks the item, which existed by then. */
  predicate Marked(s0: Store, trace: seq<Op>, i: nat) {
    var p := LastMark(trace, i);
    p > 0 && i < |ApplyAll(s0, trace[..p - 1]).items|
  }

  /** A cancel had passed its check when the item was marked for the last time, and wrote after it. */
  predicate CanceledLate(s0: Store, trace: seq<Op>, i: nat) {
    var p := LastMark(trace, i);
    CancelPending(ApplyAll(s0, trace[..p]), i) && CancelWrite(i) in trace[p..]
  }

  /** A marked item ends dispatched or failed if and only if it was not canceled late; and then it
      ends canceled. */
  lemma MarkedExactly(s0: Store, trace: seq<Op>, i: nat)
    requires Marked(s0, trace, i)
    ensures var s := ApplyAll(s0, trace);
            && i < |s.items|
            && (Settled(s.items, i) <==> !CanceledLate(s0, trace, i))
            && (CanceledLate(s0, trace, i) ==> s.items[i].status.Canceled?)
  {
    var p := LastMark(trace, i);
    LastMarkSettles(s0, trace, i);
    assert trace == trace[..p] + trace[p..];
    ApplyAllJoins(s0, trace[..p], trace[p..]);
    SettledIff(ApplyAll(s0, trace[..p]), trace[p..], i);
  }

  lemma LastMarkSettles(s0: Store, trace: seq<Op>, i: nat)
    requires Marked(s0, trace, i)
    ensures Settled(ApplyAll(s0, trace[..LastMark(trace, i)]).items, i)
  {
    var p := LastMark(trace, i);
    assert trace[..p] == trace[..p - 1] + [trace[p - 1]];
    ApplyAllJoins(s0, trace[..p - 1], [trace[p - 1]]);
    ApplyOne(ApplyAll(s0, trace[..p - 1]), trace[p - 1]);
  }

  lemma ApplyOne(s: Store, op: Op)
    ensures ApplyAll(s, [op]) == Apply(s, op)
  {
    assert ApplyAll(Apply(s, op), [op][1..]) == Apply(s, op);
  }

  lemma {:induction false} ItemsStay(s: Store, ops: seq<Op>)
    ensures |s.items| <= |ApplyAll(s, ops).items|
    decreases |ops|
  {
    if ops == [] {
    } else {
      ItemsStay(Apply(s, ops[0]), ops[1..]);
    }
  }

  lemma MarkedAfterMark(s0: Store, trace: seq<Op>, mark: Op, i: nat)
    requires IsMark(mark, i) && i < |ApplyAll(s0, trace).items|
    ensures Marked(s0, trace + [mark], i)
  {
    assert (trace + [mark])[..|trace|] == trace;
  }

  lemma {:induction false} MarkedStays(s0: Store, trace: seq<Op>, ops: seq<Op>, i: nat)
    requires Marked(s0, trace, i)
    ensures Marked(s0, trace + ops, i)
    decreases |ops|
  {
    if ops == [] {
      assert trace + ops == trace;
    } else {
      MarkedOneMore(s0, trace, ops[0], i);
      MarkedStays(s0, trace + [ops[0]], ops[1..], i);
      assert trace + [ops[0]] + ops[1..] == trace + ops;
    }
  }

  lemma MarkedOneMore(s0: Store, trace: seq<Op>, op: Op, i: nat)
    requires Marked(s0, trace, i)
    ensures Marked(s0, trace + [op], i)
  {
    var p := LastMark(trace, i);
    var longer := trace + [op];
    assert longer[..|trace|] == trace && longer[..p - 1] == trace[..p - 1];
    if IsMark(op, i) {
      ApplyAllJoins(s0, trace[..p - 1], trace[p - 1..]);
      assert trace == trace[..p - 1] + trace[p - 1..];
      ItemsStay(ApplyAll(s0, trace[..p - 1]), trace[p - 1..]);
    } else {
      assert LastMark(longer, i) == p;
    }
  }

  /** The invariant of a call that began with store s0. */
  predicate CallInv(s0: Store, c: Call) {
    && c.store == ApplyAll(s0, c.trace)
    && (forall k :: 0 <= k < |c.claimed| ==> Marked(s0, c.trace, c.claimed[k]))
    && |c.runs| <= (if c.returned then 1 else 0)
    && (forall k :: 0 <= k < |c.runs| ==> c.runs[k] in c.claimed && RunMarked(c, c.runs[k]))
    && (c.result.Some? ==> c.runs == [c.result.value])
  }

  /** The item of a run is dispatched if the call returns the run, failed otherwise. */
  predicate RunMarked(c: Call, i: nat) {
    i < |c.store.items| && c.store.items[i].status == if c.result.Some? then Dispatched else Failed
  }

  lemma DoKeeps(s0: Store, c: Call, ops: seq<Op>)
    requires CallInv(s0, c) && c.runs == []
    ensures CallInv(s0, Do(c, ops))
  {
    ApplyAllJoins(s0, c.trace, ops);
    forall k | 0 <= k < |c.claimed| ensures Marked(s0, Do(c, ops).trace, c.claimed[k]) {
      MarkedStays(s0, c.trace, ops, c.claimed[k]);
    }
  }

  /** Claim an item, let others act, then mark it: the item is settled. */
  lemma MarkSettles(s0: Store, c: Call, i: nat, ops: seq<Op>, mark: Op)
    requires CallInv(s0, c) && c.runs == [] && i < |c.store.items| && IsMark(mark, i)
    ensures var r := Do(Do(c, ops), [mark]);
            && CallInv(s0, r) && Marked(s0, r.trace, i) && i < |r.store.items|
            && r.store.items[i].status == if mark.MarkDispatched? then Dispatched else Failed
  {
    var waited := Do(c, ops);
    DoKeeps(s0, c, ops);
    DoKeeps(s0, waited, [mark]);
    ItemsStay(c.store, ops);
    MarkedAfterMark(s0, waited.trace, mark, i);
    ApplyOne(waited.store, mark);
  }

  lemma ClaimedAndMarked(s0: Store, c: Call, i: nat)
    requires CallInv(s0, c) && Marked(s0, c.trace, i)
    ensures CallInv(s0, c.(claimed := c.claimed + [i]))
  {
    assert forall j :: j in c.claimed ==> j in c.claimed + [i];
  }

  lemma DispatchClaimedKeeps(s0: Store, c: Call, i: nat, a: Attempt)
    requires CallInv(s0, c) && !c.returned && i < |c.store.items|
    ensures CallInv(s0, DispatchClaimed(c.(claimed := c.claimed + [i]), i, a))
  {
    var mark := if a.created && a.markOk then MarkDispatched(i) else MarkFailed(i);
    MarkSettles(s0, c, i, a.atMark, mark);
    var r := Do(Do(c, a.atMark), [mark]);
    ClaimedAndMarked(s0, r, i);
    assert c.runs == [];
    assert (r.claimed + [i])[|r.claimed|] == i;
    var d := DispatchClaimed(c.(claimed := c.claimed + [i]), i, a);
    assert d == r.(claimed := r.claimed + [i], runs := d.runs, returned := true, result := d.result);
    assert d.runs == [] || d.runs == [i];
  }

  lemma TryOnceKeeps(s0: Store, c: Call, a: Attempt)
    requires CallInv(s0, c) && !c.returned
    ensures CallInv(s0, TryOnce(c, a))
  {
    var listed := Do(c, a.atList);
    DoKeeps(s0, c, a.atList);
    var next := FirstQueued(listed.store.items, {Auto, Steer});
    if next.Some? && !a.active {
      var ready := Do(listed, a.atClaim);
      DoKeeps(s0, listed, a.atClaim);
      DoKeeps(s0, ready, [Retarget(next.value)]);
      ClaimKeeps(s0, ready, Auto, a);
      ClaimKeeps(s0, ready, Steer, a);
    }
  }

  lemma ClaimKeeps(s0: Store, ready: Call, policy: Policy, a: Attempt)
    requires CallInv(s0, ready) && !ready.returned
    ensures var tried := Do(ready, [ClaimNext(policy)]);
            var first := FirstQueued(ready.store.items, {policy});
            && CallInv(s0, tried)
            && (first.Some? ==>
                  var claimed := tried.(claimed := tried.claimed + [first.value]);
                  && CallInv(s0, DispatchClaimed(claimed, first.value, a))
                  && CallInv(s0, Do(Do(claimed, a.atMark), [MarkFailed(first.value)])))
  {
    var tried := Do(ready, [ClaimNext(policy)]);
    var first := FirstQueued(ready.store.items, {policy});
    DoKeeps(s0, ready, [ClaimNext(policy)]);
    ItemsStay(ready.store, [ClaimNext(policy)]);
    if first.Some? {
      DispatchClaimedKeeps(s0, tried, first.value, a);
      MarkSettles(s0, tried, first.value, a.atMark, MarkFailed(first.value));
      ClaimedAndMarked(s0, Do(Do(tried, a.atMark), [MarkFailed(first.value)]), first.value);
    }
  }

  /** What every turn of a call that has not returned keeps. */
  ghost predicate KeptByTurns(turn: Call -> Call, good: Call -> bool) {
    forall c {:trigger turn(c)} :: good(c) && !c.returned && c.tries < MAX_ATTEMPTS ==> good(turn(c).(tries := c.tries + 1))
  }

  lemma {:induction false} TryAllKeeps(turn: Call -> Call, good: Call -> bool, c: Call)
    requires KeptByTurns(turn, good) && good(c)
    ensures good(TryAll(turn, c))
    decreases MAX_ATTEMPTS - c.tries
  {
    if c.returned || c.tries >= MAX_ATTEMPTS {
    } else {
      TryAllKeeps(turn, good, turn(c).(tries := c.tries + 1));
    }
  }

  lemma TurnKeeps(s0: Store, c: Call, a: Attempt)
    requires CallInv(s0, c) && !c.returned && |c.claimed| <= c.tries
    ensures var r := TryOnce(c, a).(tries := c.tries + 1); CallInv(s0, r) && |r.claimed| <= r.tries
  {
    TryOnceKeeps(s0, c, a);
    OneClaimPerTry(c, a);
  }

  lemma OneClaimPerTry(c: Call, a: Attempt)
    ensures |TryOnce(c, a).claimed| <= |c.claimed| + 1
  {
  }

  /** Every call, whatever others do to the store meanwhile: it makes at most one run, of an item
      it claimed; that item is dispatched at the return if the call returns the run, and failed if
      it does not, its mark having raised; the call claims at most eight items; and each claimed
      item ends dispatched or failed if and only if it was not canceled late. */
  lemma CallSettlesItsClaims(s: Store, w: World)
    ensures var c := DispatchNext(s, w);
            && c.store == ApplyAll(s, c.trace)
            && |c.runs| <= 1 && |c.claimed| <= MAX_ATTEMPTS
            && (forall k :: 0 <= k < |c.runs| ==> c.runs[k] in c.claimed && RunMarked(c, c.runs[k]))
            && (c.result.Some? ==> c.runs == [c.result.value])
            && (forall k :: 0 <= k < |c.claimed| ==>
                  var i := c.claimed[k];
                  && i < |c.store.items| && Marked(s, c.trace, i)
                  && (Settled(c.store.items, i) <==> !CanceledLate(s, c.trace, i))
                  && (CanceledLate(s, c.trace, i) ==> c.store.items[i].status.Canceled?))
  {
    CallKeeps(s, w);
    var c := DispatchNext(s, w);
    forall k | 0 <= k < |c.claimed|
      ensures var i := c.claimed[k];
              && i < |c.store.items| && Marked(s, c.trace, i)
              && (Settled(c.store.items, i) <==> !CanceledLate(s, c.trace, i))
              && (CanceledLate(s, c.trace, i) ==> c.store.items[i].status.Canceled?)
    {
      MarkedExactly(s, c.trace, c.claimed[k]);
    }
  }

  /** After the call its run's item keeps its mark, whatever others do but mark it again, if and
      only if no cancel that had passed its check by the return writes. */
  lemma RunStaysSettledIff(s: Store, w: World, later: seq<Op>)
    requires DispatchNext(s, w).runs != [] && NoMark(later, DispatchNext(s, w).runs[0])
    ensures var c := DispatchNext(s, w);
            var i := c.runs[0];
            Settled(ApplyAll(c.store, later).items, i) <==> !(CancelPending(c.store, i) && CancelWrite(i) in later)
  {
    CallSettlesItsClaims(s, w);
    SettledIff(DispatchNext(s, w).store, later, DispatchNext(s, w).runs[0]);
  }

  lemma CallKeeps(s: Store, w: World)
    ensures CallInv(s, DispatchNext(s, w)) && |DispatchNext(s, w).claimed| <= MAX_ATTEMPTS
  {
    var c := Idle(s);
    DoKeeps(s, c, w.atReset);
    DoKeeps(s, Do(c, w.atReset), [Reset(w.stale)]);
    var good := (c: Call) => CallInv(s, c) && |c.claimed| <= c.tries <= MAX_ATTEMPTS;
    forall c: Call | good(c) && !c.returned && c.tries < MAX_ATTEMPTS
      ensures good(TurnOf(w.attempts)(c).(tries := c.tries + 1))
    {
      TurnKeeps(s, c, w.attempts(c.tries));
    }
    TryAllKeeps(TurnOf(w.attempts), good, Opened(s, w));
  }

  // ---- a late cancel ----

  function LateCancelAttempt(n: nat): Attempt {
    if n == 0 then Attempt([], false, false, false, [], [CancelCheck(0)], true, true)
    else Attempt([CancelWrite(0)], false, false, false, [], [], true, true)
  }

  /** A cancel checks and writes under two locks. A call that fails a stale steer in one attempt
      finds it canceled in the next: the cancel checked before the mark and wrote after it. */
  lemma LateCancelOverwrites()
    ensures var c := DispatchNext(Store([Item(Steer, Queued, 0)]), World([], {}, LateCancelAttempt));
            c.claimed == [0] && c.store.items == [Item(Steer, Canceled, 0)] && c.returned
  {
    var w := World([], {}, LateCancelAttempt);
    var c0 := Opened(Store([Item(Steer, Queued, 0)]), w);
    LateCancelOpened(w);
    var turn := TurnOf(w.attempts);
    var c1 := turn(c0).(tries := 1);
    assert turn(c0) == TryOnce(c0, LateCancelAttempt(0));
    LateCancelFirst(c0);
    var c2 := turn(c1).(tries := 2);
    assert turn(c1) == TryOnce(c1, LateCancelAttempt(1));
    LateCancelSecond(c1);
    assert TryAll(turn, c0) == TryAll(turn, c1) == TryAll(turn, c2) == c2;
  }

  lemma LateCancelOpened(w: World)
    requires w.atReset == [] && w.stale == {}
    ensures var c := Opened(Store([Item(Steer, Queued, 0)]), w);
            c.store == Store([Item(Steer, Queued, 0)]) && c.claimed == [] && !c.returned && c.tries == 0
  {
    var s := Store([Item(Steer, Queued, 0)]);
    ApplyOne(s, Reset({}));
    assert ResetStale(s.items, {}) == s.items;
  }

  lemma LateCancelFirst(c: Call)
    requires c.store == Store([Item(Steer, Queued, 0)]) && c.claimed == [] && !c.returned
    ensures var r := TryOnce(c, LateCancelAttempt(0));
            r.store == Store([Item(Steer, Failed, 1)]) && r.claimed == [0] && !r.returned
  {
    ApplyOne(c.store, ClaimNext(Steer));
    var s1 := Apply(c.store, ClaimNext(Steer));
    assert s1.items == [Item(Steer, Dispatching, 0)];
    ApplyOne(s1, CancelCheck(0));
    ApplyOne(Apply(s1, CancelCheck(0)), MarkFailed(0));
  }

  lemma LateCancelSecond(c: Call)
    requires c.store == Store([Item(Steer, Failed, 1)]) && !c.returned
    ensures var r := TryOnce(c, LateCancelAttempt(1));
            r.store.items == [Item(Steer, Canceled, 0)] && r.claimed == c.claimed && r.returned
  {
    ApplyOne(c.store, CancelWrite(0));
  }

  // ---- which items become runs, and in which order ----

  lemma {:induction false} AutoClaimsJoin(s: Store, xs: seq<Op>, ys: seq<Op>)
    ensures AutoClaims(s, xs + ys) == AutoClaims(s, xs) + AutoClaims(ApplyAll(s, xs), ys)
    decreases |xs|
  {
    if xs == [] {
      assert xs + ys == ys;
    } else {
      var now, next, rest := ClaimedBy(s, xs[0]), Apply(s, xs[0]), xs[1..];
      AutoClaimsJoin(next, rest, ys);
      assert (xs + ys)[0] == xs[0] && (xs + ys)[1..] == rest + ys;
      JoinClaims(now, AutoClaims(next, rest), AutoClaims(ApplyAll(next, rest), ys));
    }
  }

  lemma JoinClaims(a: seq<nat>, b: seq<nat>, c: seq<nat>)
    ensures a + (b + c) == a + b + c
  {
  }

  /** A steer item is never claimed for a run of its own, resets included. */
  lemma {:induction false} SteerNeverRuns(s: Store, ops: seq<Op>, i: nat)
    requires i < |s.items| && s.items[i].policy.Steer?
    ensures i !in AutoClaims(s, ops)
    decreases |ops|
  {
    if ops == [] {
    } else {
      SteerNeverRuns(Apply(s, ops[0]), ops[1..], i);
    }
  }

  predicate RunsAreClaims(s0: Store, c: Call) {
    c.store == ApplyAll(s0, c.trace) && forall k :: 0 <= k < |c.runs| ==> c.runs[k] in AutoClaims(s0, c.trace)
  }

  lemma DoKeepsRuns(s0: Store, c: Call, ops: seq<Op>)
    requires RunsAreClaims(s0, c)
    ensures RunsAreClaims(s0, Do(c, ops))
    ensures forall i :: i in AutoClaims(s0, c.trace) ==> i in AutoClaims(s0, c.trace + ops)
  {
    ApplyAllJoins(s0, c.trace, ops);
    AutoClaimsJoin(s0, c.trace, ops);
  }

  lemma AutoClaimed(s0: Store, c: Call)
    requires RunsAreClaims(s0, c) && FirstQueued(c.store.items, {Auto}).Some?
    ensures FirstQueued(c.store.items, {Auto}).value in AutoClaims(s0, Do(c, [ClaimNext(Auto)]).trace)
  {
    AutoClaimsJoin(s0, c.trace, [ClaimNext(Auto)]);
    assert AutoClaims(c.store, [ClaimNext(Auto)])[0] == FirstQueued(c.store.items, {Auto}).value;
  }

  lemma DispatchClaimedRuns(s0: Store, c: Call, i: nat, a: Attempt)
    requires RunsAreClaims(s0, c) && i in AutoClaims(s0, c.trace)
    ensures RunsAreClaims(s0, DispatchClaimed(c, i, a))
  {
    var waited := Do(c, a.atMark);
    DoKeepsRuns(s0, c, a.atMark);
    DoKeepsRuns(s0, waited, [MarkFailed(i)]);
    DoKeepsRuns(s0, waited.(runs := waited.runs + [i]), [if a.markOk then MarkDispatched(i) else MarkFailed(i)]);
  }

  lemma TryOnceRuns(s0: Store, c: Call, a: Attempt)
    requires RunsAreClaims(s0, c)
    ensures RunsAreClaims(s0, TryOnce(c, a))
  {
    var listed := Do(c, a.atList);
    DoKeepsRuns(s0, c, a.atList);
    var ready := Do(listed, a.atClaim);
    DoKeepsRuns(s0, listed, a.atClaim);
    var next := FirstQueued(listed.store.items, {Auto, Steer});
    if next.Some? { DoKeepsRuns(s0, ready, [Retarget(next.value)]); }
    AutoBranchRuns(s0, ready, a);
    SteerBranchRuns(s0, ready, a);
  }

  lemma AutoBranchRuns(s0: Store, ready: Call, a: Attempt)
    requires RunsAreClaims(s0, ready)
    ensures var tried := Do(ready, [ClaimNext(Auto)]);
            var first := FirstQueued(ready.store.items, {Auto});
            && RunsAreClaims(s0, tried)
            && (first.Some? ==>
                  RunsAreClaims(s0, DispatchClaimed(tried.(claimed := tried.claimed + [first.value]), first.value, a)))
  {
    var tried := Do(ready, [ClaimNext(Auto)]);
    DoKeepsRuns(s0, ready, [ClaimNext(Auto)]);
    var first := FirstQueued(ready.store.items, {Auto});
    if first.Some? {
      AutoClaimed(s0, ready);
      DispatchClaimedRuns(s0, tried.(claimed := tried.claimed + [first.value]), first.value, a);
    }
  }

  lemma SteerBranchRuns(s0: Store, ready: Call, a: Attempt)
    requires RunsAreClaims(s0, ready)
    ensures var tried := Do(ready, [ClaimNext(Steer)]);
            var first := FirstQueued(ready.store.items, {Steer});
            && RunsAreClaims(s0, tried)
            && (first.Some? ==>
                  RunsAreClaims(s0, Do(Do(tried.(claimed := tried.claimed + [first.value]), a.atMark), [MarkFailed(first.value)])))
  {
    var tried := Do(ready, [ClaimNext(Steer)]);
    DoKeepsRuns(s0, ready, [ClaimNext(Steer)]);
    var first := FirstQueued(ready.store.items, {Steer});
    if first.Some? {
      var claimed := tried.(claimed := tried.claimed + [first.value]);
      DoKeepsRuns(s0, claimed, a.atMark);
      DoKeepsRuns(s0, Do(claimed, a.atMark), [MarkFailed(first.value)]);
    }
  }

  lemma CallRunsItsAutoClaims(s: Store, w: World)
    ensures RunsAreClaims(s, DispatchNext(s, w))
  {
    var c := Idle(s);
    DoKeepsRuns(s, c, w.atReset);
    DoKeepsRuns(s, Do(c, w.atReset), [Reset(w.stale)]);
    forall c: Call | RunsAreClaims(s, c) ensures RunsAreClaims(s, TurnOf(w.attempts)(c).(tries := c.tries + 1)) {
      TryOnceRuns(s, c, w.attempts(c.tries));
    }
    TryAllKeeps(TurnOf(w.attempts), c => RunsAreClaims(s, c), Opened(s, w));
  }

  lemma {:induction false} ClaimLeavesDrained(s: Store, ops: seq<Op>, i: nat)
    requires NoReset(ops) && i in AutoClaims(s, ops)
    ensures Drained(ApplyAll(s, ops).items, i + 1)
    decreases |ops|
  {
    var t := Apply(s, ops[0]);
    var first := FirstQueued(s.items, {Auto});
    if ops[0] == ClaimNext(Auto) && first.Some? && first.value == i {
      ClaimDrains(s);
      OpsEvolve(t, ops[1..]);
      DrainedStays(t.items, ApplyAll(t, ops[1..]).items, i + 1);
    } else {
      ClaimLeavesDrained(t, ops[1..], i);
    }
  }

  /** The runs made by dispatcher calls one after another. */
  function Runs(s: Store, worlds: seq<World>): seq<nat>
    decreases |worlds|
  {
    if worlds == [] then []
    else var c := DispatchNext(s, worlds[0]); c.runs + Runs(c.store, worlds[1..])
  }

  predicate NoResets(s: Store, worlds: seq<World>)
    decreases |worlds|
  {
    worlds == [] ||
    var c := DispatchNext(s, worlds[0]);
    NoReset(c.trace) && NoResets(c.store, worlds[1..])
  }

  lemma CallInOrder(s: Store, w: World, floor: nat)
    requires NoReset(DispatchNext(s, w).trace) && Drained(s.items, floor)
    ensures var c := DispatchNext(s, w);
            || (c.runs == [] && Drained(c.store.items, floor))
            || (|c.runs| == 1 && floor <= c.runs[0] && Drained(c.store.items, c.runs[0] + 1))
  {
    var c := DispatchNext(s, w);
    CallSettlesItsClaims(s, w);
    CallRunsItsAutoClaims(s, w);
    ClaimsInEnqueueOrder(s, c.trace, floor);
    if c.runs == [] {
      OpsEvolve(s, c.trace);
      DrainedStays(s.items, c.store.items, floor);
    } else {
      ClaimLeavesDrained(s, c.trace, c.runs[0]);
    }
  }

  /** Over whole runs of the dispatcher, without crash resets and whatever else happens to the
      store: items are dispatched in enqueue order and none twice. */
  lemma {:induction false} RunsInEnqueueOrder(s: Store, worlds: seq<World>, floor: nat)
    requires NoResets(s, worlds) && Drained(s.items, floor)
    ensures Ascending(Runs(s, worlds))
    ensures forall k :: 0 <= k < |Runs(s, worlds)| ==> floor <= Runs(s, worlds)[k]
    decreases |worlds|
  {
    if worlds == [] {
    } else {
      CallInOrder(s, worlds[0], floor);
      var c := DispatchNext(s, worlds[0]);
      var next := if c.runs == [] then floor else c.runs[0] + 1;
      RunsInEnqueueOrder(c.store, worlds[1..], next);
      OneMoreInOrder(c.runs, Runs(c.store, worlds[1..]), floor);
    }
  }

  lemma OneMoreInOrder(first: seq<nat>, rest: seq<nat>, floor: nat)
    requires |first| <= 1 && Ascending(rest) && (first != [] ==> floor <= first[0])
    requires forall k :: 0 <= k < |rest| ==> (if first == [] then floor else first[0] + 1) <= rest[k]
    ensures Ascending(first + rest) && forall k :: 0 <= k < |first + rest| ==> floor <= (first + rest)[k]
  {
  }

  /** The dispatcher validates one item and claims by policy. Without crash resets it claims the
      item it validated exactly if that is still queued as it was; otherwise a later one, which
      for a steer means that an item is failed that was never validated. */
  lemma ClaimsWhatItValidated(before: seq<Item>, after: seq<Item>, next: nat)
    requires Later(before, after) && FirstQueued(before, {Auto, Steer}) == Some(next)
    ensures var policy := before[next].policy;
            var claimed := FirstQueued(after, {policy});
            && (claimed == Some(next) <==> QueuedAs(after, next, {policy}))
            && (claimed.Some? && claimed.value != next ==> next < claimed.value)
  {
    var policy := before[next].policy;
    var claimed := FirstQueued(after, {policy});
    forall i | 0 <= i < next ensures !QueuedAs(after, i, {policy}) {
      assert before[i].policy == Auto || before[i].policy == Steer;
      assert !QueuedAs(before, i, {Auto, Steer}) && Evolves(before[i], after[i]);
    }
  }

  // ---- a call on its own ----

  ghost predicate Alone(w: World) {
    w.atReset == [] && w.stale == {}
    && forall n: nat :: w.attempts(n).atList == [] && w.attempts(n).atClaim == [] && w.attempts(n).atMark == []
  }

  predicate OthersKeepStatus(s0: Store, c: Call) {
    |c.store.items| == |s0.items|
    && forall i: nat :: i < |s0.items| && i !in c.claimed ==> c.store.items[i].status == s0.items[i].status
  }

  lemma DoNothing(c: Call)
    ensures Do(c, []) == c
  {
  }

  lemma DoOne(c: Call, op: Op)
    ensures Do(c, [op]).store == Apply(c.store, op)
  {
    assert ApplyAll(Apply(c.store, op), [op][1..]) == Apply(c.store, op);
  }

  lemma ClaimAlone(s0: Store, c: Call, policy: Policy)
    requires OthersKeepStatus(s0, c)
    ensures var first := FirstQueued(c.store.items, {policy});
            var tried := Do(c, [ClaimNext(policy)]);
            && (first.None? ==> OthersKeepStatus(s0, tried))
            && (first.Some? ==>
                  var claimed := tried.(claimed := tried.claimed + [first.value]);
                  && OthersKeepStatus(s0, Do(claimed, [MarkFailed(first.value)]))
                  && OthersKeepStatus(s0, Do(claimed, [MarkDispatched(first.value)])))
  {
    var first := FirstQueued(c.store.items, {policy});
    var tried := Do(c, [ClaimNext(policy)]);
    DoOne(c, ClaimNext(policy));
    if first.Some? {
      var claimed := tried.(claimed := tried.claimed + [first.value]);
      assert claimed.claimed[|tried.claimed|] == first.value;
      assert forall i :: i in tried.claimed ==> i in claimed.claimed;
      DoOne(claimed, MarkFailed(first.value));
      DoOne(claimed, MarkDispatched(first.value));
    }
  }

  lemma DispatchAutoAlone(s0: Store, c: Call, next: nat, a: Attempt)
    requires OthersKeepStatus(s0, c) && a.atClaim == [] && a.atMark == []
    ensures OthersKeepStatus(s0, DispatchAuto(c, next, a))
  {
    DoNothing(c);
    ClaimAlone(s0, c, Auto);
    DoOne(c, Retarget(next));
    var first := FirstQueued(c.store.items, {Auto});
    if first.Some? {
      var tried := Do(c, [ClaimNext(Auto)]);
      DoNothing(tried.(claimed := tried.claimed + [first.value]));
    }
  }

  lemma DispatchSteerAlone(s0: Store, c: Call, a: Attempt)
    requires OthersKeepStatus(s0, c) && a.atClaim == [] && a.atMark == []
    ensures OthersKeepStatus(s0, DispatchSteer(c, a))
  {
    DoNothing(c);
    ClaimAlone(s0, c, Steer);
    var first := FirstQueued(c.store.items, {Steer});
    if first.Some? {
      var tried := Do(c, [ClaimNext(Steer)]);
      DoNothing(tried.(claimed := tried.claimed + [first.value]));
    }
  }

  lemma TryOnceAlone(s0: Store, c: Call, a: Attempt)
    requires OthersKeepStatus(s0, c) && a.atList == [] && a.atClaim == [] && a.atMark == []
    ensures OthersKeepStatus(s0, TryOnce(c, a))
  {
    DoNothing(c);
    var next := FirstQueued(c.store.items, {Auto, Steer});
    if next.Some? { DispatchAutoAlone(s0, c, next.value, a); }
    DispatchSteerAlone(s0, c, a);
  }

  /** A call changes the status of the at most eight items it claims and of no other: stale steers
      past the eighth stay queued for a later call. */
  lemma OnlyClaimedChange(s: Store, w: World)
    requires Alone(w)
    ensures OthersKeepStatus(s, DispatchNext(s, w)) && |DispatchNext(s, w).claimed| <= MAX_ATTEMPTS
  {
    CallSettlesItsClaims(s, w);
    var c := Idle(s);
    DoNothing(c);
    DoOne(c, Reset({}));
    assert ResetStale(s.items, {}) == s.items;
    forall c: Call | OthersKeepStatus(s, c) ensures OthersKeepStatus(s, TurnOf(w.attempts)(c).(tries := c.tries + 1)) {
      TryOnceAlone(s, c, w.attempts(c.tries));
    }
    TryAllKeeps(TurnOf(w.attempts), c => OthersKeepStatus(s, c), Opened(s, w));
  }

  // ---- when a call makes a run ----

  /** The item is the first queued one of these policies. */
  predicate IsFirst(items: seq<Item>, policies: set<Policy>, i: nat) {
    QueuedAs(items, i, policies) && forall j :: 0 <= j < i ==> !QueuedAs(items, j, policies)
  }

  predicate NoneQueued(items: seq<Item>, policies: set<Policy>) {
    forall i :: 0 <= i < |items| ==> !QueuedAs(items, i, policies)
  }

  lemma FirstIs(items: seq<Item>, policies: set<Policy>, i: nat)
    ensures FirstQueued(items, policies) == Some(i) <==> IsFirst(items, policies, i)
    ensures FirstQueued(items, policies) == None <==> NoneQueued(items, policies)
  {
  }

  /** What an attempt lists, and what it claims from. */
  function Listed(c: Call, a: Attempt): seq<Item> {
    ApplyAll(c.store, a.atList).items
  }

  function AtClaim(c: Call, a: Attempt): seq<Item> {
    ApplyAll(ApplyAll(c.store, a.atList), a.atClaim).items
  }

  /** The attempt finds an auto item first, no active run and a target it cannot steer, and an auto
      item is still there to claim. */
  predicate Dispatches(c: Call, a: Attempt) {
    && !a.active && !a.steerable
    && (exists i :: 0 <= i < |Listed(c, a)| && IsFirst(Listed(c, a), {Auto, Steer}, i) && Listed(c, a)[i].policy == Auto)
    && !NoneQueued(AtClaim(c, a), {Auto})
  }

  /** The attempt finds a steer item first that its turn no longer admits, no active run, and a steer
      item is still there to claim. */
  predicate FailsSteer(c: Call, a: Attempt) {
    && !a.active && !a.steerAllowed
    && (exists i :: 0 <= i < |Listed(c, a)| && IsFirst(Listed(c, a), {Auto, Steer}, i) && Listed(c, a)[i].policy == Steer)
    && !NoneQueued(AtClaim(c, a), {Steer})
  }

  /** The attempt has nothing to do, or must wait: nothing is queued, a run is active, or the first
      item is a steer its turn still admits. */
  predicate Idles(c: Call, a: Attempt) {
    || NoneQueued(Listed(c, a), {Auto, Steer}) || a.active
    || (a.steerAllowed
        && exists i :: 0 <= i < |Listed(c, a)| && IsFirst(Listed(c, a), {Auto, Steer}, i) && Listed(c, a)[i].policy == Steer)
  }

  /** One attempt. Idle, it ends the call and touches no item. It claims one item, the first of its
      policy, exactly when it dispatches or fails a steer, and makes a run exactly when it dispatches
      and the creation succeeds; both a dispatch and an idle attempt end the call. */
  lemma AttemptOutcome(c: Call, a: Attempt)
    requires !c.returned && c.runs == [] && c.result == None
    ensures var d := TryOnce(c, a);
            && (Idles(c, a) ==> d.returned && d.claimed == c.claimed && d.runs == [] && d.store.items == Listed(c, a))
            && (Dispatches(c, a) ==>
                  exists i :: 0 <= i < |AtClaim(c, a)| && IsFirst(AtClaim(c, a), {Auto}, i) && d.claimed == c.claimed + [i]
                              && d.returned && d.runs == (if a.created then [i] else [])
                              && d.result == (if a.created && a.markOk then Some(i) else None))
            && (FailsSteer(c, a) ==>
                  exists i :: 0 <= i < |AtClaim(c, a)| && IsFirst(AtClaim(c, a), {Steer}, i) && d.claimed == c.claimed + [i]
                              && !d.returned && d.runs == [] && d.result == None)
            && (!Dispatches(c, a) && !FailsSteer(c, a) ==> d.claimed == c.claimed && d.runs == [] && d.result == None)
  {
    var listed := Do(c, a.atList);
    var next := FirstQueued(listed.store.items, {Auto, Steer});
    if next.Some? { FirstIs(listed.store.items, {Auto, Steer}, next.value); } else { FirstIs(listed.store.items, {Auto, Steer}, 0); }
    OnlyFirst(listed.store.items, {Auto, Steer});
    if next.Some? && !a.active {
      if listed.store.items[next.value].policy.Auto? {
        AutoOutcome(listed, next.value, a);
      } else {
        SteerOutcome(listed, a);
      }
    }
  }

  lemma OnlyFirst(items: seq<Item>, policies: set<Policy>)
    ensures forall i, j :: 0 <= i < |items| && 0 <= j < |items| && IsFirst(items, policies, i) && IsFirst(items, policies, j) ==> i == j
    ensures NoneQueued(items, policies) ==> forall i :: 0 <= i < |items| ==> !IsFirst(items, policies, i)
  {
  }

  lemma AutoOutcome(listed: Call, next: nat, a: Attempt)
    requires !listed.returned && listed.runs == [] && listed.result == None
    ensures var d, ready := DispatchAuto(listed, next, a), ApplyAll(listed.store, a.atClaim).items;
            && (a.steerable || NoneQueued(ready, {Auto}) ==> d.claimed == listed.claimed && d.runs == [] && d.result == None)
            && (!a.steerable && !NoneQueued(ready, {Auto}) ==>
                  exists i :: 0 <= i < |ready| && IsFirst(ready, {Auto}, i) && d.claimed == listed.claimed + [i]
                              && d.returned && d.runs == (if a.created then [i] else [])
                              && d.result == (if a.created && a.markOk then Some(i) else None))
  {
    var ready := Do(listed, a.atClaim);
    var first := FirstQueued(ready.store.items, {Auto});
    if first.Some? { FirstIs(ready.store.items, {Auto}, first.value); } else { FirstIs(ready.store.items, {Auto}, 0); }
  }

  lemma SteerOutcome(listed: Call, a: Attempt)
    requires !listed.returned && listed.runs == [] && listed.result == None
    ensures var d, ready := DispatchSteer(listed, a), ApplyAll(listed.store, a.atClaim).items;
            && (a.steerAllowed ==> d == listed.(returned := true))
            && (!a.steerAllowed && NoneQueued(ready, {Steer}) ==> d.claimed == listed.claimed && d.runs == [] && d.result == None)
            && (!a.steerAllowed && !NoneQueued(ready, {Steer}) ==>
                  exists i :: 0 <= i < |ready| && IsFirst(ready, {Steer}, i) && d.claimed == listed.claimed + [i]
                              && !d.returned && d.runs == [] && d.result == None)
  {
    var ready := Do(listed, a.atClaim);
    var first := FirstQueued(ready.store.items, {Steer});
    if first.Some? { FirstIs(ready.store.items, {Steer}, first.value); } else { FirstIs(ready.store.items, {Steer}, 0); }
  }

  /** A target that can be steered gets the item as its steer, and the call ends if the item was still
      there; nothing is claimed. */
  lemma SteerableRetargets(c: Call, a: Attempt, i: nat)
    requires !c.returned && !a.active && a.steerable
    requires IsFirst(Listed(c, a), {Auto, Steer}, i) && Listed(c, a)[i].policy == Auto
    ensures var d := TryOnce(c, a);
            && d.claimed == c.claimed && d.runs == c.runs
            && (if QueuedAs(AtClaim(c, a), i, {Auto, Steer})
                then d.returned && d.store.items == AtClaim(c, a)[i := AtClaim(c, a)[i].(policy := Steer)]
                else !d.returned && d.store.items == AtClaim(c, a))
  {
    FirstIs(Listed(c, a), {Auto, Steer}, i);
    ApplyOne(ApplyAll(ApplyAll(c.store, a.atList), a.atClaim), Retarget(i));
  }

  /** The call after its first n attempts. */
  function After(s: Store, w: World, n: nat): Call {
    if n == 0 then Opened(s, w)
    else
      var c := After(s, w, n - 1);
      if c.returned then c else TryOnce(c, w.attempts(n - 1)).(tries := n)
  }

  lemma {:induction false} AfterTries(s: Store, w: World, n: nat)
    ensures var c := After(s, w, n); c.tries <= n && (!c.returned ==> c.tries == n)
    decreases n
  {
    if n == 0 {
    } else {
      AfterTries(s, w, n - 1);
    }
  }

  lemma TryAllStep(turn: Call -> Call, c: Call, next: Call)
    requires !c.returned && c.tries < MAX_ATTEMPTS && next == turn(c).(tries := c.tries + 1)
    ensures TryAll(turn, c) == TryAll(turn, next)
  {
  }

  lemma ReturnedStays(turn: Call -> Call, c: Call)
    requires c.returned || c.tries >= MAX_ATTEMPTS
    ensures TryAll(turn, c) == c
  {
  }

  lemma AttemptIsNext(s: Store, w: World, n: nat)
    requires n < MAX_ATTEMPTS
    ensures TryAll(TurnOf(w.attempts), After(s, w, n)) == TryAll(TurnOf(w.attempts), After(s, w, n + 1))
  {
    var c := After(s, w, n);
    AfterTries(s, w, n);
    if !c.returned { TryAllStep(TurnOf(w.attempts), c, After(s, w, n + 1)); }
  }

  /** The loop is at most eight attempts, one after the other. */
  lemma {:induction false} DispatchIsAfter(s: Store, w: World, n: nat)
    requires n <= MAX_ATTEMPTS
    ensures TryAll(TurnOf(w.attempts), After(s, w, n)) == After(s, w, MAX_ATTEMPTS)
    decreases MAX_ATTEMPTS - n
  {
    if n == MAX_ATTEMPTS {
      AfterTries(s, w, n);
      ReturnedStays(TurnOf(w.attempts), After(s, w, n));
    } else {
      AttemptIsNext(s, w, n);
      DispatchIsAfter(s, w, n + 1);
    }
  }

  /** Attempt n is made, and makes a run. */
  predicate RunsAt(s: Store, w: World, n: nat) {
    !After(s, w, n).returned && Dispatches(After(s, w, n), w.attempts(n)) && w.attempts(n).created
  }

  lemma AttemptRuns(c: Call, a: Attempt)
    requires !c.returned && c.runs == [] && c.result == None
    ensures TryOnce(c, a).runs != [] <==> Dispatches(c, a) && a.created
    ensures !TryOnce(c, a).returned ==> TryOnce(c, a).runs == [] && TryOnce(c, a).result == None
  {
    AttemptOutcome(c, a);
  }

  lemma {:induction false} AfterRuns(s: Store, w: World, n: nat)
    ensures var c := After(s, w, n);
            && (c.runs != [] <==> exists k :: 0 <= k < n && RunsAt(s, w, k))
            && (!c.returned ==> c.runs == [] && c.result == None)
    decreases n
  {
    if n == 0 {
    } else {
      AfterRuns(s, w, n - 1);
      var c := After(s, w, n - 1);
      if !c.returned {
        AttemptRuns(c, w.attempts(n - 1));
        assert After(s, w, n).runs != [] <==> RunsAt(s, w, n - 1);
      } else {
        assert After(s, w, n) == c && !RunsAt(s, w, n - 1);
      }
    }
  }

  /** A call makes a run if and only if one of its attempts, not ended before, finds an auto item first,
      no active run, a target it cannot steer, an auto item left to claim, and the creation succeeds. */
  lemma CallMakesRunIff(s: Store, w: World)
    ensures DispatchNext(s, w).runs != [] <==> exists n :: 0 <= n < 8 && RunsAt(s, w, n)
  {
    DispatchIsAfter(s, w, 0);
    AfterRuns(s, w, MAX_ATTEMPTS);
  }

  lemma ReturnedIsKept(s: Store, w: World, n: nat)
    requires After(s, w, n).returned
    ensures After(s, w, n + 1) == After(s, w, n)
  {
  }

  lemma {:induction false} AfterStays(s: Store, w: World, n: nat, m: nat)
    requires n <= m && After(s, w, n).returned
    ensures After(s, w, m) == After(s, w, n)
    decreases m - n
  {
    if m == n {
    } else {
      ReturnedIsKept(s, w, n);
      AfterStays(s, w, n + 1, m);
    }
  }

  /** An active run ends the call: an attempt that finds one leaves it with what earlier attempts
      claimed, no run, and the items as it listed them. */
  lemma ActiveEndsTheCall(s: Store, w: World, n: nat)
    requires n < 8 && !After(s, w, n).returned && w.attempts(n).active
    ensures var c, d := After(s, w, n), DispatchNext(s, w);
            d.returned && d.claimed == c.claimed && d.runs == [] && d.result == None && d.store.items == Listed(c, w.attempts(n))
  {
    AfterRuns(s, w, n);
    AttemptOutcome(After(s, w, n), w.attempts(n));
    DispatchIsAfter(s, w, 0);
    AfterStays(s, w, n + 1, MAX_ATTEMPTS);
  }
}
