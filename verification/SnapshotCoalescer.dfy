/** The run-monitor snapshot coalescer: a single-flight collection per key with a short-lived
    cache, under interleaved callers, collections and completion callbacks.

    A collection is named by its index among all that were started. Time is a monotone count of
    clock ticks; `lag` bounds how long a finished collection waits for its callback. */
module SnapshotCoalescer {
  import opened Common

  datatype Key = Key(loop: nat, service: nat, limit: int)

  datatype Config = Config(ttl: nat, lag: nat)

  datatype Flight = Running | Finished(at: nat, ok: bool)

  /** `settled`: its completion callback has run. */
  datatype Collection = Collection(key: Key, started: nat, flight: Flight, settled: bool)

  datatype Entry = Entry(recorded: nat, source: nat)

  datatype Answer = FromCache(recorded: nat, source: nat) | FromFlight(source: nat)

  datatype Caller = Caller(key: Key, at: nat, answer: Answer)

  datatype State = State(
    now: nat,
    collections: seq<Collection>,
    inFlight: map<Key, nat>,
    cache: map<Key, Entry>,
    callers: seq<Caller>)

  datatype Step =
    | Tick(ticks: nat)
    | Collect(loop: nat, service: nat, limit: int)
    | Finish(collection: nat, ok: bool)
    | Complete(collection: nat)

  function Start(): State {
    State(0, [], map[], map[], [])
  }

  function KeyFor(loop: nat, service: nat, limit: int): Key {
    Key(loop, service, Max(1, limit))
  }

  predicate Fresh(cfg: Config, s: State, key: Key) {
    key in s.cache && s.now - s.cache[key].recorded <= cfg.ttl
  }

  function Answered(s: State, key: Key, answer: Answer): State {
    s.(callers := s.callers + [Caller(key, s.now, answer)])
  }

  function Created(s: State, key: Key): State {
    s.(collections := s.collections + [Collection(key, s.now, Running, false)],
       inFlight := s.inFlight[key := |s.collections|])
  }

  /** `collect`, up to the await: a fresh snapshot, the collection in flight, or a new one. */
  function CollectFor(cfg: Config, s: State, key: Key): State {
    if Fresh(cfg, s, key) then Answered(s, key, FromCache(s.cache[key].recorded, s.cache[key].source))
    else if key in s.inFlight then Answered(s, key, FromFlight(s.inFlight[key]))
    else Answered(Created(s, key), key, FromFlight(|s.collections|))
  }

  /** `_complete`: free the slot if it is still this collection's, and record a snapshot. */
  function CompleteOf(s: State, i: nat): State
    requires i < |s.collections| && s.collections[i].flight.Finished?
  {
    var c := s.collections[i];
    s.(collections := s.collections[i := c.(settled := true)],
       inFlight := if c.key in s.inFlight && s.inFlight[c.key] == i then s.inFlight - {c.key} else s.inFlight,
       cache := if c.flight.ok then s.cache[c.key := Entry(s.now, i)] else s.cache)
  }

  predicate Unsettled(s: State, i: nat) {
    i < |s.collections| && s.collections[i].flight.Finished? && !s.collections[i].settled
  }

  predicate MayTick(cfg: Config, s: State, ticks: nat) {
    forall i :: 0 <= i < |s.collections| && Unsettled(s, i) ==> s.now + ticks - s.collections[i].flight.at <= cfg.lag
  }

  /** One step; a step that is not enabled changes nothing. */
  function Next(cfg: Config, s: State, step: Step): State {
    match step
    case Tick(ticks) => if MayTick(cfg, s, ticks) then s.(now := s.now + ticks) else s
    case Collect(loop, service, limit) => CollectFor(cfg, s, KeyFor(loop, service, limit))
    case Finish(i, ok) =>
      if i < |s.collections| && s.collections[i].flight.Running?
      then s.(collections := s.collections[i := s.collections[i].(flight := Finished(s.now, ok))])
      else s
    case Complete(i) => if Unsettled(s, i) then CompleteOf(s, i) else s
  }

  function Run(cfg: Config, s: State, steps: seq<Step>): State
    decreases |steps|
  {
    if steps == [] then s else Run(cfg, Next(cfg, s, steps[0]), steps[1..])
  }

  // ---- the invariant ----

  /** Exactly the collections whose callback has not run hold their key's slot. */
  predicate SlotsInv(s: State) {
    && (forall k :: k in s.inFlight ==>
          && s.inFlight[k] < |s.collections|
          && s.collections[s.inFlight[k]].key == k && !s.collections[s.inFlight[k]].settled)
    && (forall i :: 0 <= i < |s.collections| && !s.collections[i].settled ==>
          s.collections[i].key in s.inFlight && s.inFlight[s.collections[i].key] == i)
    && (forall i :: 0 <= i < |s.collections| && s.collections[i].settled ==> s.collections[i].flight.Finished?)
  }

  /** A snapshot of this collection, recorded at most `lag` after it finished. */
  predicate RecordedFrom(cfg: Config, s: State, key: Key, recorded: nat, source: nat) {
    && source < |s.collections| && s.collections[source].key == key && s.collections[source].settled
    && s.collections[source].flight.Finished? && s.collections[source].flight.ok
    && s.collections[source].flight.at <= recorded <= s.collections[source].flight.at + cfg.lag
    && recorded <= s.now
  }

  predicate CacheInv(cfg: Config, s: State) {
    forall k :: k in s.cache ==>
      && RecordedFrom(cfg, s, k, s.cache[k].recorded, s.cache[k].source)
      && (k in s.inFlight ==> s.cache[k].source < s.inFlight[k])
  }

  predicate ClockInv(cfg: Config, s: State) {
    forall i :: 0 <= i < |s.collections| && s.collections[i].flight.Finished? ==>
      && s.collections[i].flight.at <= s.now
      && (!s.collections[i].settled ==> s.now <= s.collections[i].flight.at + cfg.lag)
  }

  predicate CallerInv(cfg: Config, s: State, c: Caller) {
    && c.at <= s.now
    && match c.answer
       case FromCache(recorded, source) => RecordedFrom(cfg, s, c.key, recorded, source) && c.at <= recorded + cfg.ttl
       case FromFlight(source) =>
         && source < |s.collections| && s.collections[source].key == c.key
         && (s.collections[source].flight.Finished? ==> c.at <= s.collections[source].flight.at + cfg.lag)
  }

  predicate CallersInv(cfg: Config, s: State) {
    forall i :: 0 <= i < |s.callers| ==> CallerInv(cfg, s, s.callers[i])
  }

  predicate Inv(cfg: Config, s: State) {
    SlotsInv(s) && CacheInv(cfg, s) && ClockInv(cfg, s) && CallersInv(cfg, s)
  }

  lemma AnsweredKeeps(cfg: Config, s: State, key: Key, answer: Answer)
    requires Inv(cfg, s) && CallerInv(cfg, s, Caller(key, s.now, answer))
    ensures Inv(cfg, Answered(s, key, answer))
  {
    var r := Answered(s, key, answer);
    forall i | 0 <= i < |r.callers| ensures CallerInv(cfg, r, r.callers[i]) {
      if i < |s.callers| { assert CallerInv(cfg, s, s.callers[i]); }
    }
  }

  lemma CreatedKeeps(cfg: Config, s: State, key: Key)
    requires Inv(cfg, s) && key !in s.inFlight
    ensures Inv(cfg, Created(s, key))
  {
    var r := Created(s, key);
    assert SlotsInv(r);
    assert CacheInv(cfg, r);
    forall i | 0 <= i < |s.callers| ensures CallerInv(cfg, r, s.callers[i]) {
      assert CallerInv(cfg, s, s.callers[i]);
    }
  }

  lemma CollectKeeps(cfg: Config, s: State, key: Key)
    requires Inv(cfg, s)
    ensures Inv(cfg, CollectFor(cfg, s, key))
  {
    if Fresh(cfg, s, key) {
      AnsweredKeeps(cfg, s, key, FromCache(s.cache[key].recorded, s.cache[key].source));
    } else if key in s.inFlight {
      AnsweredKeeps(cfg, s, key, FromFlight(s.inFlight[key]));
    } else {
      CreatedKeeps(cfg, s, key);
      AnsweredKeeps(cfg, Created(s, key), key, FromFlight(|s.collections|));
    }
  }

  lemma FinishKeeps(cfg: Config, s: State, i: nat, ok: bool)
    requires Inv(cfg, s)
    ensures Inv(cfg, Next(cfg, s, Finish(i, ok)))
  {
    var r := Next(cfg, s, Finish(i, ok));
    forall j | 0 <= j < |s.callers| ensures CallerInv(cfg, r, s.callers[j]) {
      assert CallerInv(cfg, s, s.callers[j]);
    }
  }

  lemma CompleteKeeps(cfg: Config, s: State, i: nat)
    requires Inv(cfg, s) && Unsettled(s, i)
    ensures Inv(cfg, CompleteOf(s, i))
  {
    var r := CompleteOf(s, i);
    forall j | 0 <= j < |s.callers| ensures CallerInv(cfg, r, s.callers[j]) {
      assert CallerInv(cfg, s, s.callers[j]);
    }
  }

  lemma TickKeeps(cfg: Config, s: State, ticks: nat)
    requires Inv(cfg, s)
    ensures Inv(cfg, Next(cfg, s, Tick(ticks)))
  {
    var r := Next(cfg, s, Tick(ticks));
    assert forall i :: 0 <= i < |s.collections| ==> Unsettled(s, i) == (s.collections[i].flight.Finished? && !s.collections[i].settled);
    forall j | 0 <= j < |s.callers| ensures CallerInv(cfg, r, s.callers[j]) {
      assert CallerInv(cfg, s, s.callers[j]);
    }
  }

  lemma NextKeeps(cfg: Config, s: State, step: Step)
    requires Inv(cfg, s)
    ensures Inv(cfg, Next(cfg, s, step))
  {
    match step
    case Tick(ticks) => TickKeeps(cfg, s, ticks);
    case Collect(loop, service, limit) => CollectKeeps(cfg, s, KeyFor(loop, service, limit));
    case Finish(i, ok) => FinishKeeps(cfg, s, i, ok);
    case Complete(i) => if Unsettled(s, i) { CompleteKeeps(cfg, s, i); }
  }

  lemma {:induction false} RunKeeps(cfg: Config, s: State, steps: seq<Step>)
    requires Inv(cfg, s)
    ensures Inv(cfg, Run(cfg, s, steps))
    decreases |steps|
  {
    if steps == [] {
    } else {
      NextKeeps(cfg, s, steps[0]);
      RunKeeps(cfg, Next(cfg, s, steps[0]), steps[1..]);
    }
  }

  // ---- main results ----

  predicate Busy(c: Collection) {
    c.flight.Running? || !c.settled
  }

  /** Single flight: in every interleaving at most one collection per key is running, or waiting
      for its callback. */
  lemma SingleFlight(cfg: Config, steps: seq<Step>, i: nat, j: nat)
    requires var s := Run(cfg, Start(), steps);
             i < |s.collections| && j < |s.collections| && s.collections[i].key == s.collections[j].key
             && Busy(s.collections[i]) && Busy(s.collections[j])
    ensures i == j
  {
    RunKeeps(cfg, Start(), steps);
  }

  /** A call adds one caller, for its loop, its service and its limit, which is at least 1. */
  lemma CollectAsks(cfg: Config, s: State, loop: nat, service: nat, limit: int)
    ensures var r := Next(cfg, s, Collect(loop, service, limit));
            && |r.callers| == |s.callers| + 1 && r.callers[..|s.callers|] == s.callers
            && r.callers[|s.callers|].key == Key(loop, service, if limit < 1 then 1 else limit) && r.callers[|s.callers|].at == s.now
  {
  }

  lemma {:induction false} CallersStay(cfg: Config, s: State, steps: seq<Step>)
    ensures |s.callers| <= |Run(cfg, s, steps).callers| && Run(cfg, s, steps).callers[..|s.callers|] == s.callers
    decreases |steps|
  {
    if steps == [] {
    } else {
      var next := Next(cfg, s, steps[0]);
      CallersStay(cfg, next, steps[1..]);
      assert |s.callers| <= |next.callers| && next.callers[..|s.callers|] == s.callers;
      assert Run(cfg, s, steps).callers[..|s.callers|] == Run(cfg, s, steps).callers[..|next.callers|][..|s.callers|];
    }
  }

  /** Two calls share a collection only if they ask on one event loop, of one service, for one limit. */
  lemma SharedOnlyAlike(cfg: Config, first: seq<Step>, a: Step, between: seq<Step>, b: Step, later: seq<Step>)
    requires a.Collect? && b.Collect?
    ensures var s := Run(cfg, Start(), first);
            var t := Run(cfg, Next(cfg, s, a), between);
            var end := Run(cfg, Next(cfg, t, b), later);
            && |s.callers| < |t.callers| < |end.callers|
            && (end.callers[|s.callers|].answer.source == end.callers[|t.callers|].answer.source ==>
                  a.loop == b.loop && a.service == b.service && Max(1, a.limit) == Max(1, b.limit))
  {
    var s := Run(cfg, Start(), first);
    var asked := Next(cfg, s, a);
    var t := Run(cfg, asked, between);
    var again := Next(cfg, t, b);
    var end := Run(cfg, again, later);
    CollectAsks(cfg, s, a.loop, a.service, a.limit);
    CollectAsks(cfg, t, b.loop, b.service, b.limit);
    CallersStay(cfg, asked, between);
    CallersStay(cfg, again, later);
    RunKeeps(cfg, Start(), first);
    NextKeeps(cfg, s, a);
    RunKeeps(cfg, asked, between);
    NextKeeps(cfg, t, b);
    RunKeeps(cfg, again, later);
    assert end.callers[|t.callers|] == end.callers[..|again.callers|][|t.callers|] == again.callers[|t.callers|];
    assert end.callers[|s.callers|] == end.callers[..|again.callers|][|s.callers|] == again.callers[..|t.callers|][|s.callers|]
           == t.callers[..|asked.callers|][|s.callers|] == asked.callers[|s.callers|];
    assert CallerInv(cfg, end, end.callers[|s.callers|]) && CallerInv(cfg, end, end.callers[|t.callers|]);
  }

  /** Each caller's snapshot was recorded at most the TTL before its call, if it came from the
      cache, and finished at most TTL plus lag before it. */
  lemma SnapshotsAreRecent(cfg: Config, steps: seq<Step>, i: nat)
    requires i < |Run(cfg, Start(), steps).callers|
    ensures var s := Run(cfg, Start(), steps);
            var c := s.callers[i];
            && c.answer.source < |s.collections| && s.collections[c.answer.source].key == c.key
            && (c.answer.FromCache? ==> c.at <= c.answer.recorded + cfg.ttl)
            && (s.collections[c.answer.source].flight.Finished? ==>
                  c.at <= s.collections[c.answer.source].flight.at + cfg.ttl + cfg.lag)
  {
    RunKeeps(cfg, Start(), steps);
    var s := Run(cfg, Start(), steps);
    assert CallerInv(cfg, s, s.callers[i]);
  }

  /** Until its callback runs, a finished collection is still joined, however long ago it
      finished. */
  lemma FinishedFlightIsJoined(cfg: Config, steps: seq<Step>, i: nat)
    requires Unsettled(Run(cfg, Start(), steps), i)
    requires !Fresh(cfg, Run(cfg, Start(), steps), Run(cfg, Start(), steps).collections[i].key)
    ensures var s := Run(cfg, Start(), steps);
            var key := s.collections[i].key;
            CollectFor(cfg, s, key).callers == s.callers + [Caller(key, s.now, FromFlight(i))]
  {
    RunKeeps(cfg, Start(), steps);
  }

  // ---- when the TTL alone bounds a snapshot's age ----

  /** The caller's snapshot finished at most the TTL before the call, or is yet to finish. */
  predicate WithinTtl(cfg: Config, s: State, c: Caller)
    requires c.answer.source < |s.collections|
  {
    s.collections[c.answer.source].flight.Finished? ==> c.at <= s.collections[c.answer.source].flight.at + cfg.ttl
  }

  ghost predicate AllWithinTtl(cfg: Config) {
    forall steps, i :: 0 <= i < |Run(cfg, Start(), steps).callers| ==>
      var s := Run(cfg, Start(), steps);
      s.callers[i].answer.source < |s.collections| && WithinTtl(cfg, s, s.callers[i])
  }

  /** A collection that finishes, is recorded `lag` later, and is still fresh the TTL after that. */
  function LateRecording(cfg: Config): seq<Step> {
    [Collect(0, 0, 1), Finish(0, true), Tick(cfg.lag), Complete(0), Tick(cfg.ttl), Collect(0, 0, 1)]
  }

  lemma {:induction false} RunJoins(cfg: Config, s: State, steps: seq<Step>, last: Step)
    ensures Run(cfg, s, steps + [last]) == Next(cfg, Run(cfg, s, steps), last)
    decreases |steps|
  {
    if steps == [] {
      assert Run(cfg, Next(cfg, s, last), []) == Next(cfg, s, last);
      assert ([] + [last])[0] == last && ([] + [last])[1..] == [];
    } else {
      RunJoins(cfg, Next(cfg, s, steps[0]), steps[1..], last);
      assert (steps + [last])[1..] == steps[1..] + [last];
    }
  }

  lemma RecordedLate(cfg: Config)
    ensures var s := Run(cfg, Start(), LateRecording(cfg)[..5]);
            var key := KeyFor(0, 0, 1);
            && s.now == cfg.lag + cfg.ttl && |s.callers| == 1
            && s.collections == [Collection(key, 0, Finished(0, true), true)]
            && s.cache == map[key := Entry(cfg.lag, 0)] && s.inFlight == map[]
  {
    var key := KeyFor(0, 0, 1);
    var steps := LateRecording(cfg);
    RunJoins(cfg, Start(), [], steps[0]);
    var s1 := Next(cfg, Start(), steps[0]);
    assert s1.collections == [Collection(key, 0, Running, false)];
    var s2 := Next(cfg, s1, steps[1]);
    assert s2.collections == [Collection(key, 0, Finished(0, true), false)];
    RunJoins(cfg, Start(), [steps[0]], steps[1]);
    var s3 := Next(cfg, s2, steps[2]);
    RunJoins(cfg, Start(), [steps[0], steps[1]], steps[2]);
    var s4 := Next(cfg, s3, steps[3]);
    RunJoins(cfg, Start(), [steps[0], steps[1], steps[2]], steps[3]);
    assert s4.collections == [Collection(key, 0, Finished(0, true), true)] && s4.inFlight == map[];
    var s5 := Next(cfg, s4, steps[4]);
    RunJoins(cfg, Start(), [steps[0], steps[1], steps[2], steps[3]], steps[4]);
    assert steps[..5] == [steps[0], steps[1], steps[2], steps[3]] + [steps[4]];
    assert [] + [steps[0]] == [steps[0]];
    assert [steps[0]] + [steps[1]] == [steps[0], steps[1]];
    assert [steps[0], steps[1]] + [steps[2]] == [steps[0], steps[1], steps[2]];
    assert [steps[0], steps[1], steps[2]] + [steps[3]] == [steps[0], steps[1], steps[2], steps[3]];
  }

  /** With a lag, a run whose last caller gets a snapshot that finished TTL plus lag before. */
  lemma LagOutlivesTtl(cfg: Config)
    ensures var s := Run(cfg, Start(), LateRecording(cfg));
            && |s.callers| == 2 && s.callers[1].answer == FromCache(cfg.lag, 0) && |s.collections| == 1
            && s.collections[0].flight == Finished(0, true) && s.callers[1].at == cfg.ttl + cfg.lag
  {
    RecordedLate(cfg);
    RunJoins(cfg, Start(), LateRecording(cfg)[..5], LateRecording(cfg)[5]);
    assert LateRecording(cfg)[..5] + [LateRecording(cfg)[5]] == LateRecording(cfg);
  }

  /** Every caller of every run gets a snapshot that finished at most the TTL before its call, or
      after it, if and only if callbacks are prompt. */
  lemma TtlBoundsAgeIff(cfg: Config)
    ensures AllWithinTtl(cfg) <==> cfg.lag == 0
  {
    LagOutlivesTtl(cfg);
    if AllWithinTtl(cfg) {
      var s := Run(cfg, Start(), LateRecording(cfg));
      assert WithinTtl(cfg, s, s.callers[1]);
    }
    if cfg.lag == 0 {
      forall steps, i | 0 <= i < |Run(cfg, Start(), steps).callers|
        ensures var s := Run(cfg, Start(), steps);
                s.callers[i].answer.source < |s.collections| && WithinTtl(cfg, s, s.callers[i])
      {
        SnapshotsAreRecent(cfg, steps, i);
      }
    }
  }

  /** What the rest of a run leaves of a state: its callers, and its finished flights; a flight that
      was running finishes, if at all, no earlier than now. */
  predicate Continues(s: State, r: State) {
    && s.now <= r.now && |s.collections| <= |r.collections| && s.callers <= r.callers
    && forall i :: 0 <= i < |s.collections| ==>
         if s.collections[i].flight.Finished? then r.collections[i].flight == s.collections[i].flight
         else r.collections[i].flight.Finished? ==> s.now <= r.collections[i].flight.at
  }

  lemma {:induction false} RunContinues(cfg: Config, s: State, steps: seq<Step>)
    ensures Continues(s, Run(cfg, s, steps))
    decreases |steps|
  {
    if steps == [] {
    } else {
      var t := Next(cfg, s, steps[0]);
      assert Continues(s, t);
      RunContinues(cfg, t, steps[1..]);
    }
  }

  /** A caller that joined a flight: its callback had not run at the call. If the snapshot turns
      out older than the call, it had finished by then and was waiting for its callback, for at
      most the lag. */
  lemma JoinedSnapshotAge(cfg: Config, steps: seq<Step>, key: Key, later: seq<Step>)
    ensures var s := Run(cfg, Start(), steps);
            var t := CollectFor(cfg, s, key);
            var r := Run(cfg, t, later);
            && |s.callers| < |r.callers|
            && var c := r.callers[|s.callers|];
               && c.answer.source < |t.collections| <= |r.collections|
               && (c.answer.FromFlight? ==>
                     && !t.collections[c.answer.source].settled
                     && (r.collections[c.answer.source].flight.Finished? && r.collections[c.answer.source].flight.at < c.at ==>
                           && t.collections[c.answer.source].flight == r.collections[c.answer.source].flight
                           && c.at <= r.collections[c.answer.source].flight.at + cfg.lag))
  {
    RunKeeps(cfg, Start(), steps);
    var s := Run(cfg, Start(), steps);
    var t := CollectFor(cfg, s, key);
    RunContinues(cfg, t, later);
    CollectKeeps(cfg, s, key);
    var c := t.callers[|s.callers|];
    assert CallerInv(cfg, t, c);
    assert Run(cfg, t, later).callers[|s.callers|] == c;
  }

  /** Along every run the recorded time and the collection of a cached snapshot never go back. */
  lemma {:induction false} CacheNeverGoesBack(cfg: Config, s: State, steps: seq<Step>, key: Key)
    requires Inv(cfg, s) && key in s.cache
    ensures var r := Run(cfg, s, steps);
            key in r.cache && s.cache[key].recorded <= r.cache[key].recorded && s.cache[key].source <= r.cache[key].source
    decreases |steps|
  {
    if steps == [] {
    } else {
      NextKeeps(cfg, s, steps[0]);
      CacheStep(cfg, s, steps[0], key);
      CacheNeverGoesBack(cfg, Next(cfg, s, steps[0]), steps[1..], key);
    }
  }

  lemma CacheStep(cfg: Config, s: State, step: Step, key: Key)
    requires Inv(cfg, s) && key in s.cache
    ensures var t := Next(cfg, s, step);
            key in t.cache && s.cache[key].recorded <= t.cache[key].recorded && s.cache[key].source <= t.cache[key].source
  {
    assert RecordedFrom(cfg, s, key, s.cache[key].recorded, s.cache[key].source);
  }

  /** A failed or cancelled collection leaves the cache as it was and frees its slot: the next
      call for that key, unless a fresh snapshot answers it, starts a new collection. */
  lemma FailureFreesTheSlot(cfg: Config, steps: seq<Step>, i: nat)
    requires Unsettled(Run(cfg, Start(), steps), i)
    ensures var s := Run(cfg, Start(), steps);
            var t := Next(cfg, s, Complete(i));
            var key := s.collections[i].key;
            && key !in t.inFlight
            && (!s.collections[i].flight.ok ==> t.cache == s.cache)
            && (s.collections[i].flight.ok ==> key in t.cache && t.cache[key] == Entry(t.now, i))
            && (!Fresh(cfg, t, key) ==>
                  CollectFor(cfg, t, key).callers == t.callers + [Caller(key, t.now, FromFlight(|t.collections|))])
  {
    RunKeeps(cfg, Start(), steps);
  }

  // ---- the class ----

  class Coalescer {
    const cfg: Config
    var inFlight: map<Key, nat>
    var cache: map<Key, Entry>
    // the event loop around it
    var now: nat
    var collections: seq<Collection>
    var callers: seq<Caller>

    ghost function View(): State
      reads this
    {
      State(now, collections, inFlight, cache, callers)
    }

    constructor (ttl: int, lag: nat)
      ensures View() == Start() && cfg == Config(Max(0, ttl), lag)
    {
      cfg := Config(Max(0, ttl), lag);
      inFlight, cache, now, collections, callers := map[], map[], 0, [], [];
    }

    method Collect(loop: nat, service: nat, limit: int) returns (answer: Answer)
      modifies this
      ensures View() == CollectFor(cfg, old(View()), KeyFor(loop, service, limit))
      ensures callers != [] && callers[|callers| - 1].answer == answer
    {
      var key := KeyFor(loop, service, limit);
      if key in cache && now - cache[key].recorded <= cfg.ttl {
        answer := FromCache(cache[key].recorded, cache[key].source);
      } else {
        if key !in inFlight {
          var created := |collections|;
          collections := collections + [Collection(key, now, Running, false)];
          inFlight := inFlight[key := created];
        }
        answer := FromFlight(inFlight[key]);
      }
      callers := callers + [Caller(key, now, answer)];
    }

    method Complete(i: nat)
      requires Unsettled(View(), i)
      modifies this
      ensures View() == CompleteOf(old(View()), i)
    {
      var c := collections[i];
      if c.key in inFlight && inFlight[c.key] == i { inFlight := inFlight - {c.key}; }
      if c.flight.ok { cache := cache[c.key := Entry(now, i)]; }
      collections := collections[i := c.(settled := true)];
    }
  }
}
