/** The session-token cache: a payload is looked up under the signature of the three stores it
    was built from, and built under a per-key lock after a second look. Threads interleave at
    every store read; a signature is read store by store.

    A store's signature stands for its version, which only grows. */
module TokenCache {
  import opened Common

  datatype Store = SessionStore(session: nat) | TokenUsage | PromptCache

  datatype Key = Key(session: nat, scope: nat)

  datatype Versions = Versions(session: nat, usage: nat, prompt: nat)

  predicate AtLeast(a: Versions, b: Versions) {
    a.session >= b.session && a.usage >= b.usage && a.prompt >= b.prompt
  }

  function VersionOf(versions: map<Store, nat>, store: Store): nat {
    if store in versions then versions[store] else 0
  }

  function Current(versions: map<Store, nat>, key: Key): Versions {
    Versions(VersionOf(versions, SessionStore(key.session)), VersionOf(versions, TokenUsage), VersionOf(versions, PromptCache))
  }

  datatype Entry = Entry(signature: Versions, at: nat, payload: Versions)

  /** Where a thread is. `locked` tells the second signature from the first; a build reads each
      store at least once, and its payload is as old as the first read of each. */
  datatype Phase =
    | SignSession(locked: bool)
    | SignUsage(locked: bool, session: nat)
    | SignPrompt(locked: bool, session: nat, usage: nat)
    | Look(locked: bool, signature: Versions)
    | Waiting
    | Building(signature: Versions, readSession: Option<nat>, readUsage: Option<nat>, readPrompt: Option<nat>)
    | Returned(signature: Versions, payload: Versions)
    | Raised

  /** `begun`: the versions when the call began. */
  datatype Thread = Thread(key: Key, begun: Versions, phase: Phase)

  datatype State = State(
    now: nat,
    versions: map<Store, nat>,
    cache: map<Key, Entry>,
    holder: map<Key, nat>,
    threads: seq<Thread>)

  datatype Step =
    | Tick(ticks: nat)
    | Write(store: Store)
    | Call(key: Key)
    | Advance(thread: nat)
    | Read(thread: nat, store: Store)
    | Fail(thread: nat)

  const TTL := 10

  /** `_cached_session_tokens_payload` */
  function Cached(cache: map<Key, Entry>, key: Key, signature: Versions, now: nat): Option<Versions> {
    if key in cache && cache[key].signature == signature && now - cache[key].at <= TTL
    then Some(cache[key].payload) else None
  }

  function Moved(s: State, t: nat, phase: Phase): State
    requires t < |s.threads|
  {
    s.(threads := s.threads[t := s.threads[t].(phase := phase)])
  }

  /** The lock is released when the locked block is left. */
  function Released(s: State, t: nat, phase: Phase): State
    requires t < |s.threads|
  {
    Moved(s, t, phase).(holder := s.holder - {s.threads[t].key})
  }

  function LookUp(s: State, t: nat, locked: bool, signature: Versions): State
    requires t < |s.threads|
  {
    var hit := Cached(s.cache, s.threads[t].key, signature, s.now);
    if locked then
      if hit.Some? then Released(s, t, Returned(signature, hit.value))
      else Moved(s, t, Building(signature, None, None, None))
    else if hit.Some? then Moved(s, t, Returned(signature, hit.value))
    else Moved(s, t, Waiting)
  }

  function Acquire(s: State, t: nat): State
    requires t < |s.threads|
  {
    var key := s.threads[t].key;
    if key in s.holder then s else Moved(s, t, SignSession(true)).(holder := s.holder[key := t])
  }

  function Build(s: State, t: nat, signature: Versions, payload: Versions): State
    requires t < |s.threads|
  {
    Released(s, t, Returned(signature, payload)).(cache := s.cache[s.threads[t].key := Entry(signature, s.now, payload)])
  }

  function AdvanceOf(s: State, t: nat): State
    requires t < |s.threads|
  {
    var key := s.threads[t].key;
    match s.threads[t].phase
    case SignSession(locked) => Moved(s, t, SignUsage(locked, VersionOf(s.versions, SessionStore(key.session))))
    case SignUsage(locked, a) => Moved(s, t, SignPrompt(locked, a, VersionOf(s.versions, TokenUsage)))
    case SignPrompt(locked, a, b) => Moved(s, t, Look(locked, Versions(a, b, VersionOf(s.versions, PromptCache))))
    case Look(locked, signature) => LookUp(s, t, locked, signature)
    case Waiting => Acquire(s, t)
    case Building(signature, a, b, c) =>
      if a.Some? && b.Some? && c.Some? then Build(s, t, signature, Versions(a.value, b.value, c.value)) else s
    case Returned(_, _) => s
    case Raised => s
  }

  function First(seen: Option<nat>, version: nat): Option<nat> {
    if seen.Some? then seen else Some(version)
  }

  /** A build reads one of its stores, in any order and as often as it likes. */
  function ReadOf(s: State, t: nat, store: Store): State
    requires t < |s.threads| && s.threads[t].phase.Building?
  {
    var p := s.threads[t].phase;
    var version := VersionOf(s.versions, store);
    match store
    case SessionStore(session) =>
      if session == s.threads[t].key.session then Moved(s, t, p.(readSession := First(p.readSession, version))) else s
    case TokenUsage => Moved(s, t, p.(readUsage := First(p.readUsage, version)))
    case PromptCache => Moved(s, t, p.(readPrompt := First(p.readPrompt, version)))
  }

  /** One step; a step that is not enabled changes nothing. */
  function Next(s: State, step: Step): State {
    match step
    case Tick(ticks) => s.(now := s.now + ticks)
    case Write(store) => s.(versions := s.versions[store := VersionOf(s.versions, store) + 1])
    case Call(key) => s.(threads := s.threads + [Thread(key, Current(s.versions, key), SignSession(false))])
    case Advance(t) => if t < |s.threads| then AdvanceOf(s, t) else s
    case Read(t, store) => if t < |s.threads| && s.threads[t].phase.Building? then ReadOf(s, t, store) else s
    case Fail(t) => if t < |s.threads| && s.threads[t].phase.Building? then Released(s, t, Raised) else s
  }

  function Run(s: State, steps: seq<Step>): State
    decreases |steps|
  {
    if steps == [] then s else Run(Next(s, steps[0]), steps[1..])
  }

  function Start(): State {
    State(0, map[], map[], map[], [])
  }

  // ---- the invariant ----

  predicate Locked(p: Phase) {
    p.Building? || ((p.SignSession? || p.SignUsage? || p.SignPrompt? || p.Look?) && p.locked)
  }

  predicate ReadSince(seen: Option<nat>, floor: nat) {
    seen.Some? ==> seen.value >= floor
  }

  /** Every version a thread holds was read after its call began, and a build's reads after its
      signature. */
  predicate PhaseInv(versions: map<Store, nat>, t: Thread) {
    var now := Current(versions, t.key);
    match t.phase
    case SignSession(_) => true
    case SignUsage(_, a) => t.begun.session <= a <= now.session
    case SignPrompt(_, a, b) => t.begun.session <= a <= now.session && t.begun.usage <= b <= now.usage
    case Look(_, signature) => AtLeast(signature, t.begun) && AtLeast(now, signature)
    case Waiting => true
    case Building(signature, a, b, c) =>
      && AtLeast(signature, t.begun) && AtLeast(now, signature)
      && ReadSince(a, signature.session) && ReadSince(b, signature.usage) && ReadSince(c, signature.prompt)
    case Returned(signature, payload) => AtLeast(signature, t.begun) && AtLeast(payload, signature)
    case Raised => true
  }

  predicate ThreadInv(s: State, i: nat)
    requires i < |s.threads|
  {
    var t := s.threads[i];
    && AtLeast(Current(s.versions, t.key), t.begun)
    && PhaseInv(s.versions, t)
    && (Locked(t.phase) <==> t.key in s.holder && s.holder[t.key] == i)
  }

  predicate Inv(s: State) {
    && (forall i :: 0 <= i < |s.threads| ==> ThreadInv(s, i))
    && (forall k :: k in s.cache ==> AtLeast(s.cache[k].payload, s.cache[k].signature))
    && (forall k :: k in s.holder ==> s.holder[k] < |s.threads| && s.threads[s.holder[k]].key == k)
  }

  /** A step of one thread keeps the others, as long as it takes or drops only its own lock. */
  lemma OthersKeep(s: State, r: State, t: nat)
    requires Inv(s) && t < |s.threads| && |r.threads| == |s.threads| && r.versions == s.versions
    requires forall i :: 0 <= i < |s.threads| && i != t ==> r.threads[i] == s.threads[i]
    requires r.threads[t].key == s.threads[t].key
    requires forall k :: k != s.threads[t].key ==> (k in r.holder <==> k in s.holder) && (k in r.holder ==> r.holder[k] == s.holder[k])
    requires var k := s.threads[t].key; k in s.holder ==> (k in r.holder && r.holder[k] == s.holder[k]) || (s.holder[k] == t && k !in r.holder)
    requires var k := s.threads[t].key; k !in s.holder && k in r.holder ==> r.holder[k] == t
    requires ThreadInv(r, t)
    requires forall k :: k in r.cache ==> AtLeast(r.cache[k].payload, r.cache[k].signature)
    ensures Inv(r)
  {
    forall i | 0 <= i < |r.threads| ensures ThreadInv(r, i) {
      if i != t { assert ThreadInv(s, i); }
    }
  }

  lemma LookUpKeeps(s: State, t: nat)
    requires Inv(s) && t < |s.threads| && s.threads[t].phase.Look?
    ensures Inv(AdvanceOf(s, t))
  {
    assert ThreadInv(s, t);
    var r := AdvanceOf(s, t);
    assert ThreadInv(r, t);
    OthersKeep(s, r, t);
  }

  lemma BuildKeeps(s: State, t: nat)
    requires Inv(s) && t < |s.threads| && s.threads[t].phase.Building?
    ensures Inv(AdvanceOf(s, t)) && Inv(Released(s, t, Raised))
  {
    assert ThreadInv(s, t);
    assert ThreadInv(AdvanceOf(s, t), t);
    OthersKeep(s, AdvanceOf(s, t), t);
    assert ThreadInv(Released(s, t, Raised), t);
    OthersKeep(s, Released(s, t, Raised), t);
  }

  lemma AcquireKeeps(s: State, t: nat)
    requires Inv(s) && t < |s.threads| && s.threads[t].phase.Waiting?
    ensures Inv(AdvanceOf(s, t))
  {
    assert ThreadInv(s, t);
    var r := AdvanceOf(s, t);
    assert ThreadInv(r, t);
    OthersKeep(s, r, t);
  }

  lemma SignKeeps(s: State, t: nat)
    requires Inv(s) && t < |s.threads|
    requires s.threads[t].phase.SignSession? || s.threads[t].phase.SignUsage? || s.threads[t].phase.SignPrompt?
    ensures Inv(AdvanceOf(s, t))
  {
    assert ThreadInv(s, t);
    var r := AdvanceOf(s, t);
    assert r == Moved(s, t, r.threads[t].phase);
    assert ThreadInv(r, t);
    OthersKeep(s, r, t);
  }

  lemma AdvanceKeeps(s: State, t: nat)
    requires Inv(s) && t < |s.threads|
    ensures Inv(AdvanceOf(s, t))
  {
    match s.threads[t].phase
    case Look(_, _) => LookUpKeeps(s, t);
    case Building(_, _, _, _) => BuildKeeps(s, t);
    case Waiting => AcquireKeeps(s, t);
    case Returned(_, _) =>
    case Raised =>
    case _ => SignKeeps(s, t);
  }

  lemma ReadKeeps(s: State, t: nat, store: Store)
    requires Inv(s) && t < |s.threads| && s.threads[t].phase.Building?
    ensures Inv(ReadOf(s, t, store))
  {
    assert ThreadInv(s, t);
    var r := ReadOf(s, t, store);
    assert ThreadInv(r, t);
    OthersKeep(s, r, t);
  }

  lemma WriteKeeps(s: State, store: Store)
    requires Inv(s)
    ensures Inv(Next(s, Write(store)))
  {
    var r := Next(s, Write(store));
    forall i | 0 <= i < |r.threads| ensures ThreadInv(r, i) {
      assert ThreadInv(s, i);
      assert AtLeast(Current(r.versions, s.threads[i].key), Current(s.versions, s.threads[i].key));
    }
  }

  lemma CallKeeps(s: State, key: Key)
    requires Inv(s)
    ensures Inv(Next(s, Call(key)))
  {
    var r := Next(s, Call(key));
    forall i | 0 <= i < |r.threads| ensures ThreadInv(r, i) {
      if i < |s.threads| { assert ThreadInv(s, i); }
    }
  }

  lemma NextKeeps(s: State, step: Step)
    requires Inv(s)
    ensures Inv(Next(s, step))
  {
    match step
    case Tick(_) =>
      forall i | 0 <= i < |s.threads| ensures ThreadInv(Next(s, step), i) { assert ThreadInv(s, i); }
    case Write(store) => WriteKeeps(s, store);
    case Call(key) => CallKeeps(s, key);
    case Advance(t) => if t < |s.threads| { AdvanceKeeps(s, t); }
    case Read(t, store) => if t < |s.threads| && s.threads[t].phase.Building? { ReadKeeps(s, t, store); }
    case Fail(t) => if t < |s.threads| && s.threads[t].phase.Building? { BuildKeeps(s, t); }
  }

  lemma {:induction false} RunKeeps(s: State, steps: seq<Step>)
    requires Inv(s)
    ensures Inv(Run(s, steps))
    decreases |steps|
  {
    if steps == [] {
    } else {
      NextKeeps(s, steps[0]);
      RunKeeps(Next(s, steps[0]), steps[1..]);
    }
  }

  // ---- main results ----

  /** In every interleaving, whether the payload was cached or built: it is never older than the
      signature it was looked up under, nor that than the stores when the call began. */
  lemma NeverOlderThanTheSignature(steps: seq<Step>, i: nat)
    requires i < |Run(Start(), steps).threads| && Run(Start(), steps).threads[i].phase.Returned?
    ensures var t := Run(Start(), steps).threads[i];
            AtLeast(t.phase.payload, t.phase.signature) && AtLeast(t.phase.signature, t.begun)
  {
    RunKeeps(Start(), steps);
    assert ThreadInv(Run(Start(), steps), i);
  }

  /** Only one thread per key is past the lock, building or about to. */
  lemma OneBuilderPerKey(steps: seq<Step>, i: nat, j: nat)
    requires var s := Run(Start(), steps);
             i < |s.threads| && j < |s.threads| && s.threads[i].key == s.threads[j].key
             && Locked(s.threads[i].phase) && Locked(s.threads[j].phase)
    ensures i == j
  {
    RunKeeps(Start(), steps);
    var s := Run(Start(), steps);
    assert ThreadInv(s, i) && ThreadInv(s, j);
  }

  /** A cached payload is handed out exactly when it was stored under the same signature at most ten
      ticks ago; else the thread goes on, to its lock before it holds it, to a build once it does. */
  lemma HitsAreFresh(steps: seq<Step>, i: nat)
    requires i < |Run(Start(), steps).threads| && Run(Start(), steps).threads[i].phase.Look?
    ensures var s := Run(Start(), steps);
            var t := s.threads[i];
            var next := Next(s, Advance(i)).threads[i].phase;
            var hit := t.key in s.cache && s.cache[t.key].signature == t.phase.signature && s.now <= s.cache[t.key].at + 10;
            && (t.key in s.cache ==> s.cache[t.key].at <= s.now)
            && next == if hit then Returned(t.phase.signature, s.cache[t.key].payload)
                       else if t.phase.locked then Building(t.phase.signature, None, None, None) else Waiting
  {
    StoredInThePast(Start(), steps);
  }

  predicate PastStores(s: State) {
    forall k :: k in s.cache ==> s.cache[k].at <= s.now
  }

  lemma {:induction false} StoredInThePast(s: State, steps: seq<Step>)
    requires PastStores(s)
    ensures PastStores(Run(s, steps))
    decreases |steps|
  {
    if steps == [] {
    } else {
      StoredInThePast(Next(s, steps[0]), steps[1..]);
    }
  }

  // ---- the module's dictionaries ----

  /** What one call reads outside the dictionaries: two signatures, the times of its two looks and
      of its store, and the outcome of the build. */
  datatype Reads = Reads(first: Versions, second: Versions, look1: nat, look2: nat, stored: nat, built: Option<Versions>)

  /** The outcome of a call that nobody interleaves with. */
  function CallAlone(cache: map<Key, Entry>, key: Key, r: Reads): (Option<Versions>, map<Key, Entry>) {
    if Cached(cache, key, r.first, r.look1).Some? then (Cached(cache, key, r.first, r.look1), cache)
    else if Cached(cache, key, r.second, r.look2).Some? then (Cached(cache, key, r.second, r.look2), cache)
    else if r.built.None? then (None, cache)
    else (r.built, cache[key := Entry(r.second, r.stored, r.built.value)])
  }

  // ---- a call that nobody interleaves with ----

  lemma RunOne(s: State, step: Step)
    ensures Run(s, [step]) == Next(s, step)
  {
    assert [step][1..] == [];
  }

  lemma {:induction false} RunJoins(s: State, xs: seq<Step>, ys: seq<Step>)
    ensures Run(s, xs + ys) == Run(Run(s, xs), ys)
    decreases |xs|
  {
    if xs == [] {
      assert xs + ys == ys;
    } else {
      TailJoins(xs, ys);
      RunJoins(Next(s, xs[0]), xs[1..], ys);
    }
  }

  /** One step of thread i after another. */
  function Steps(i: nat, n: nat): (r: seq<Step>)
    ensures |r| == n && forall j :: 0 <= j < n ==> r[j] == Advance(i)
  {
    if n == 0 then [] else [Advance(i)] + Steps(i, n - 1)
  }

  lemma StepsHead(s: State, i: nat, n: nat)
    requires n > 0
    ensures Run(s, Steps(i, n)) == Run(Next(s, Advance(i)), Steps(i, n - 1))
  {
    assert Steps(i, n)[1..] == Steps(i, n - 1);
  }

  /** The three stores are signed one after the other, and the signature is their versions. */
  lemma Signs(s: State, i: nat, locked: bool)
    requires i < |s.threads| && s.threads[i].phase == SignSession(locked)
    ensures Run(s, Steps(i, 3)) == Moved(s, i, Look(locked, Current(s.versions, s.threads[i].key)))
  {
    StepsHead(s, i, 3);
    StepsHead(Next(s, Advance(i)), i, 2);
    StepsHead(Next(Next(s, Advance(i)), Advance(i)), i, 1);
  }

  lemma MovedTwice(s: State, i: nat, p: Phase, q: Phase)
    requires i < |s.threads|
    ensures Moved(Moved(s, i, p), i, q) == Moved(s, i, q) && Released(Moved(s, i, p), i, q) == Released(s, i, q)
    ensures Moved(s, i, p).threads[i].key == s.threads[i].key && Moved(s, i, p).threads[i].phase == p
  {
    assert Moved(Moved(s, i, p), i, q).threads == Moved(s, i, q).threads;
  }

  function Reads3(i: nat, key: Key): seq<Step> {
    [Read(i, SessionStore(key.session)), Read(i, TokenUsage), Read(i, PromptCache)]
  }

  lemma ReadsAll(s: State, i: nat, signature: Versions)
    requires i < |s.threads| && s.threads[i].phase == Building(signature, None, None, None)
    ensures var now := Current(s.versions, s.threads[i].key);
            Run(s, Reads3(i, s.threads[i].key)) == Moved(s, i, Building(signature, Some(now.session), Some(now.usage), Some(now.prompt)))
  {
    var key, now := s.threads[i].key, Current(s.versions, s.threads[i].key);
    var p1 := Building(signature, Some(now.session), None, None);
    var p2 := Building(signature, Some(now.session), Some(now.usage), None);
    var steps := Reads3(i, key);
    MovedTwice(s, i, p1, p2);
    MovedTwice(s, i, p2, Building(signature, Some(now.session), Some(now.usage), Some(now.prompt)));
    assert Next(s, steps[0]) == Moved(s, i, p1);
    assert Next(Moved(s, i, p1), steps[1]) == Moved(s, i, p2);
    assert steps[1..] == [steps[1], steps[2]] && steps[1..][1..] == [steps[2]];
    RunOne(Moved(s, i, p2), steps[2]);
  }

  /** A build reads its three stores and stores what it read under its signature. */
  lemma Builds(s: State, i: nat, signature: Versions)
    requires i < |s.threads| && s.threads[i].phase == Building(signature, None, None, None)
    ensures var key, now := s.threads[i].key, Current(s.versions, s.threads[i].key);
            Run(s, Reads3(i, key) + [Advance(i)])
            == Released(s, i, Returned(signature, now)).(cache := s.cache[key := Entry(signature, s.now, now)])
  {
    var key, now := s.threads[i].key, Current(s.versions, s.threads[i].key);
    var read := Building(signature, Some(now.session), Some(now.usage), Some(now.prompt));
    ReadsAll(s, i, signature);
    RunJoins(s, Reads3(i, key), [Advance(i)]);
    RunOne(Moved(s, i, read), Advance(i));
    MovedTwice(s, i, read, Returned(signature, now));
  }

  /** The steps of one call: sign and look, take the lock, sign and look again, build. */
  function AloneSteps(i: nat, key: Key): seq<Step> {
    [Call(key)] + Steps(i, 3) + [Advance(i)] + [Advance(i)] + Steps(i, 3) + [Advance(i)]
    + (Reads3(i, key) + [Advance(i)])
  }

  lemma Looks(s: State, key: Key)
    ensures var i, now := |s.threads|, Current(s.versions, key);
            var hit := Cached(s.cache, key, now, s.now);
            Run(s, [Call(key)] + Steps(i, 3) + [Advance(i)])
            == s.(threads := s.threads + [Thread(key, now, if hit.Some? then Returned(now, hit.value) else Waiting)])
  {
    var i, now := |s.threads|, Current(s.versions, key);
    var called := Next(s, Call(key));
    RunJoins(s, [Call(key)] + Steps(i, 3), [Advance(i)]);
    RunJoins(s, [Call(key)], Steps(i, 3));
    RunOne(s, Call(key));
    Signs(called, i, false);
    RunOne(Run(called, Steps(i, 3)), Advance(i));
    LooksOnce(s, key);
  }

  lemma LooksOnce(s: State, key: Key)
    ensures var i, now := |s.threads|, Current(s.versions, key);
            var hit := Cached(s.cache, key, now, s.now);
            Next(Moved(Next(s, Call(key)), i, Look(false, now)), Advance(i))
            == s.(threads := s.threads + [Thread(key, now, if hit.Some? then Returned(now, hit.value) else Waiting)])
  {
    var i, now := |s.threads|, Current(s.versions, key);
    var looking := Moved(Next(s, Call(key)), i, Look(false, now));
    assert looking.threads == s.threads + [Thread(key, now, Look(false, now))];
    var hit := Cached(s.cache, key, now, s.now);
    assert looking.threads[i := Thread(key, now, if hit.Some? then Returned(now, hit.value) else Waiting)]
           == s.threads + [Thread(key, now, if hit.Some? then Returned(now, hit.value) else Waiting)];
  }

  lemma LocksAndLooks(s: State, i: nat)
    requires i < |s.threads| && s.threads[i].phase.Waiting? && s.threads[i].key !in s.holder
    requires Cached(s.cache, s.threads[i].key, Current(s.versions, s.threads[i].key), s.now).None?
    ensures var key := s.threads[i].key;
            Run(s, [Advance(i)] + Steps(i, 3) + [Advance(i)])
            == Moved(s, i, Building(Current(s.versions, key), None, None, None)).(holder := s.holder[key := i])
  {
    RunJoins(s, [Advance(i)] + Steps(i, 3), [Advance(i)]);
    RunJoins(s, [Advance(i)], Steps(i, 3));
    RunOne(s, Advance(i));
    var held := Next(s, Advance(i));
    Signs(held, i, true);
    RunOne(Run(held, Steps(i, 3)), Advance(i));
    assert Run(s, [Advance(i)] + Steps(i, 3) + [Advance(i)]).threads
           == Moved(s, i, Building(Current(s.versions, s.threads[i].key), None, None, None)).threads;
  }

  lemma {:induction false} ReturnedStays(s: State, i: nat, steps: seq<Step>)
    requires i < |s.threads| && s.threads[i].phase.Returned?
    requires forall j :: 0 <= j < |steps| ==> steps[j] == Advance(i) || (steps[j].Read? && steps[j].thread == i)
    ensures Run(s, steps) == s
    decreases |steps|
  {
    if steps == [] {
    } else {
      ReturnedStays(s, i, steps[1..]);
    }
  }

  /** The other threads as they were, this one returned, and its lock free. */
  predicate Returns(s: State, r: State, key: Key, signature: Versions, payload: Versions) {
    && r.threads == s.threads + [Thread(key, signature, Returned(signature, payload))]
    && r.holder == s.holder && r.now == s.now && r.versions == s.versions
  }

  /** A call that nobody interleaves with and whose lock is free returns the cached payload if it is
      fresh and its stores have not moved, and else builds one of the current versions and stores it;
      the outcome is that of the call on the module's dictionaries. */
  lemma AloneReturns(s: State, key: Key)
    requires key !in s.holder
    ensures var r, now := Run(s, AloneSteps(|s.threads|, key)), Current(s.versions, key);
            var (payload, cache) := CallAlone(s.cache, key, Reads(now, now, s.now, s.now, s.now, Some(now)));
            payload.Some? && Returns(s, r, key, now, payload.value) && r.cache == cache
  {
    var i, now := |s.threads|, Current(s.versions, key);
    var begin := [Call(key)] + Steps(i, 3) + [Advance(i)];
    var middle := [Advance(i)] + Steps(i, 3) + [Advance(i)];
    var end := Reads3(i, key) + [Advance(i)];
    assert AloneSteps(i, key) == begin + middle + end;
    RunJoins(s, begin + middle, end);
    RunJoins(s, begin, middle);
    Looks(s, key);
    var looked := Run(s, begin);
    if looked.threads[i].phase.Returned? {
      ReturnedStays(looked, i, middle);
      ReturnedStays(looked, i, end);
    } else {
      LocksAndLooks(looked, i);
      var building := Run(looked, middle);
      Builds(building, i, now);
      assert building.holder - {key} == s.holder;
      assert Run(building, end).threads == s.threads + [Thread(key, now, Returned(now, now))];
    }
  }

  /** A build that fails leaves the cache as it was and frees its lock. */
  lemma FailureFreesTheLock(s: State, i: nat)
    requires i < |s.threads| && s.threads[i].phase.Building?
    ensures var r := Next(s, Fail(i));
            r.cache == s.cache && r.threads[i].phase == Raised && s.threads[i].key !in r.holder
            && forall k :: k != s.threads[i].key && k in s.holder ==> k in r.holder && r.holder[k] == s.holder[k]
  {
  }

  function WritesOf(steps: seq<Step>, store: Store): nat
    decreases |steps|
  {
    if steps == [] then 0 else (if steps[0] == Write(store) then 1 else 0) + WritesOf(steps[1..], store)
  }

  function TicksOf(steps: seq<Step>): nat
    decreases |steps|
  {
    if steps == [] then 0 else (if steps[0].Tick? then steps[0].ticks else 0) + TicksOf(steps[1..])
  }

  lemma StepCounts(s: State, step: Step, store: Store)
    ensures VersionOf(Next(s, step).versions, store) == VersionOf(s.versions, store) + (if step == Write(store) then 1 else 0)
    ensures Next(s, step).now == s.now + (if step.Tick? then step.ticks else 0)
  {
    if step.Advance? && step.thread < |s.threads| { AdvanceKeepsStores(s, step.thread); }
  }

  lemma AdvanceKeepsStores(s: State, t: nat)
    requires t < |s.threads|
    ensures AdvanceOf(s, t).versions == s.versions && AdvanceOf(s, t).now == s.now
  {
  }

  /** A store's version counts its writes, and the clock its ticks. */
  lemma {:induction false} VersionsCountWrites(s: State, steps: seq<Step>, store: Store)
    ensures VersionOf(Run(s, steps).versions, store) == VersionOf(s.versions, store) + WritesOf(steps, store)
    ensures Run(s, steps).now == s.now + TicksOf(steps)
    decreases |steps|
  {
    if steps == [] {
    } else {
      StepCounts(s, steps[0], store);
      VersionsCountWrites(Next(s, steps[0]), steps[1..], store);
    }
  }

  class TokenCaches {
    var cache: map<Key, Entry>
    var locks: map<Key, nat>
    var made: nat

    /** Every lock was made once, for one key. */
    predicate Valid()
      reads this
    {
      && (forall k :: k in locks ==> locks[k] < made)
      && (forall j, k :: j in locks && k in locks && locks[j] == locks[k] ==> j == k)
    }

    constructor ()
      ensures Valid() && cache == map[] && locks == map[]
    {
      cache, locks, made := map[], map[], 0;
    }

    method Find(key: Key, signature: Versions, now: nat) returns (hit: Option<Versions>)
      ensures hit == Cached(cache, key, signature, now)
    {
      if key in cache {
        var entry := cache[key];
        if entry.signature == signature && now - entry.at <= TTL { return Some(entry.payload); }
      }
      return None;
    }

    /** `_session_tokens_lock_for`: the same lock for a key ever after, another for other keys. */
    method LockFor(key: Key) returns (lock: nat)
      requires Valid()
      modifies this`locks, this`made
      ensures Valid()
      ensures locks == old(locks)[key := lock]
      ensures key in old(locks) ==> lock == old(locks)[key]
      ensures forall k :: k in locks && locks[k] == lock ==> k == key
    {
      if key !in locks {
        locks := locks[key := made];
        made := made + 1;
      }
      lock := locks[key];
    }

    /** `_session_tokens_payload` */
    method Payload(key: Key, r: Reads) returns (payload: Option<Versions>)
      requires Valid()
      modifies this
      ensures Valid()
      ensures (payload, cache) == CallAlone(old(cache), key, r)
    {
      payload := Find(key, r.first, r.look1);
      if payload.Some? { return; }
      var lock := LockFor(key);
      payload := Find(key, r.second, r.look2);
      if payload.Some? || r.built.None? { return; }
      payload := r.built;
      cache := cache[key := Entry(r.second, r.stored, payload.value)];
    }
  }
}
