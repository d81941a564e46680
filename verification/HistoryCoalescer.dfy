/** The coalesced history read: one request per session and storage signature, shared by the
    callers that read the same signature while it is in flight.

    A signature stands for the version of the session's store, which only grows. */
module HistoryCoalescer {
  import opened Common

  datatype Key = Key(session: nat, signature: nat)

  /** A read of the session's history: pending, or done at the version it saw. `released`: its
      completion callback has run. */
  datatype Request = Request(key: Key, read: Option<nat>, failed: bool, released: bool)

  datatype Caller =
    | Signing(session: nat)
    | Signed(key: Key)
    | Joined(key: Key, request: nat)

  datatype State = State(
    versions: map<nat, nat>,
    inFlight: map<Key, nat>,
    requests: seq<Request>,
    callers: seq<Caller>)

  datatype Step =
    | Write(session: nat)
    | Call(session: nat)
    | Sign(caller: nat)
    | Join(caller: nat)
    | Read(request: nat)
    | FailRead(request: nat)
    | Release(request: nat)

  function VersionOf(versions: map<nat, nat>, session: nat): nat {
    if session in versions then versions[session] else 0
  }

  function Created(s: State, key: Key): State {
    s.(requests := s.requests + [Request(key, None, false, false)], inFlight := s.inFlight[key := |s.requests|])
  }

  /** `_get_session_history_coalesced` between its two awaits. */
  function JoinOf(s: State, c: nat, key: Key): State
    requires c < |s.callers|
  {
    var r := if key in s.inFlight then s else Created(s, key);
    r.(callers := r.callers[c := Joined(key, r.inFlight[key])])
  }

  predicate Finished(r: Request) {
    r.read.Some? || r.failed
  }

  /** `_release_session_history_request` */
  function ReleaseOf(s: State, i: nat): State
    requires i < |s.requests|
  {
    var key := s.requests[i].key;
    s.(requests := s.requests[i := s.requests[i].(released := true)],
       inFlight := if key in s.inFlight && s.inFlight[key] == i then s.inFlight - {key} else s.inFlight)
  }

  /** One step; a step that is not enabled changes nothing. */
  function Next(s: State, step: Step): State {
    match step
    case Write(session) => s.(versions := s.versions[session := VersionOf(s.versions, session) + 1])
    case Call(session) => s.(callers := s.callers + [Signing(session)])
    case Sign(c) =>
      if c < |s.callers| && s.callers[c].Signing?
      then s.(callers := s.callers[c := Signed(Key(s.callers[c].session, VersionOf(s.versions, s.callers[c].session)))])
      else s
    case Join(c) => if c < |s.callers| && s.callers[c].Signed? then JoinOf(s, c, s.callers[c].key) else s
    case Read(i) =>
      if i < |s.requests| && !Finished(s.requests[i])
      then s.(requests := s.requests[i := s.requests[i].(read := Some(VersionOf(s.versions, s.requests[i].key.session)))])
      else s
    case FailRead(i) =>
      if i < |s.requests| && !Finished(s.requests[i])
      then s.(requests := s.requests[i := s.requests[i].(failed := true)])
      else s
    case Release(i) => if i < |s.requests| && Finished(s.requests[i]) && !s.requests[i].released then ReleaseOf(s, i) else s
  }

  function Run(s: State, steps: seq<Step>): State
    decreases |steps|
  {
    if steps == [] then s else Run(Next(s, steps[0]), steps[1..])
  }

  function Start(): State {
    State(map[], map[], [], [])
  }

  // ---- one caller ----

  /** A caller that signs and joins at once asks for the current version of its session: it joins the
      request for that in flight, or starts one, which reads that version unless it is written. */
  lemma CallerAsks(s: State, session: nat)
    ensures var c := |s.callers|;
            var key := Key(session, VersionOf(s.versions, session));
            var joined := Next(Next(Next(s, Call(session)), Sign(c)), Join(c));
            var i := if key in s.inFlight then s.inFlight[key] else |s.requests|;
            && joined.callers == s.callers + [Joined(key, i)] && joined.versions == s.versions
            && joined.requests == (if key in s.inFlight then s.requests else s.requests + [Request(key, None, false, false)])
            && joined.inFlight == s.inFlight[key := i]
            && (key !in s.inFlight ==> Next(joined, Read(i)).requests[i].read == Some(VersionOf(s.versions, session)))
  {
    var c := |s.callers|;
    var called := Next(s, Call(session));
    var signed := Next(called, Sign(c));
    assert signed.callers == s.callers + [Signed(Key(session, VersionOf(s.versions, session)))];
    if Key(session, VersionOf(s.versions, session)) in s.inFlight {
      assert s.inFlight[Key(session, VersionOf(s.versions, session)) := s.inFlight[Key(session, VersionOf(s.versions, session))]] == s.inFlight;
    }
  }

  /** A request ends once, read or failed, and once ended gives up its slot and no other. */
  lemma RequestEnds(s: State, i: nat)
    requires i < |s.requests| && !Finished(s.requests[i]) && !s.requests[i].released
    requires s.requests[i].key in s.inFlight && s.inFlight[s.requests[i].key] == i
    ensures var read, failed := Next(s, Read(i)), Next(s, FailRead(i));
            && read.requests[i].read == Some(VersionOf(s.versions, s.requests[i].key.session)) && failed.requests[i].failed
            && (forall r :: r in [read, failed] ==>
                  && Next(r, Read(i)) == r && Next(r, FailRead(i)) == r
                  && Next(r, Release(i)).inFlight == s.inFlight - {s.requests[i].key}
                  && Next(r, Release(i)).requests[i] == r.requests[i].(released := true))
  {
  }

  function WritesOf(steps: seq<Step>, session: nat): nat
    decreases |steps|
  {
    if steps == [] then 0 else (if steps[0] == Write(session) then 1 else 0) + WritesOf(steps[1..], session)
  }

  /** A session's version counts its writes. */
  lemma {:induction false} VersionsCountWrites(s: State, steps: seq<Step>, session: nat)
    ensures VersionOf(Run(s, steps).versions, session) == VersionOf(s.versions, session) + WritesOf(steps, session)
    decreases |steps|
  {
    if steps == [] {
    } else {
      VersionsCountWrites(Next(s, steps[0]), steps[1..], session);
    }
  }

  predicate KeyReached(s: State, key: Key) {
    key.signature <= VersionOf(s.versions, key.session)
  }

  predicate SlotsInv(s: State) {
    && (forall k :: k in s.inFlight ==>
          s.inFlight[k] < |s.requests| && s.requests[s.inFlight[k]].key == k && !s.requests[s.inFlight[k]].released)
    && (forall i :: 0 <= i < |s.requests| && !s.requests[i].released ==>
          s.requests[i].key in s.inFlight && s.inFlight[s.requests[i].key] == i)
    && (forall i :: 0 <= i < |s.requests| && s.requests[i].released ==> Finished(s.requests[i]))
  }

  predicate RequestsInv(s: State) {
    forall i :: 0 <= i < |s.requests| ==>
      && KeyReached(s, s.requests[i].key)
      && (s.requests[i].read.Some? ==> s.requests[i].read.value >= s.requests[i].key.signature)
  }

  predicate CallersInv(s: State) {
    forall c :: 0 <= c < |s.callers| ==>
      match s.callers[c]
      case Signing(_) => true
      case Signed(key) => KeyReached(s, key)
      case Joined(key, request) => request < |s.requests| && s.requests[request].key == key
  }

  predicate Inv(s: State) {
    SlotsInv(s) && RequestsInv(s) && CallersInv(s)
  }

  lemma CreatedKeeps(s: State, key: Key)
    requires Inv(s) && KeyReached(s, key) && key !in s.inFlight
    ensures Inv(Created(s, key))
  {
  }

  lemma JoinKeeps(s: State, c: nat)
    requires Inv(s) && c < |s.callers| && s.callers[c].Signed?
    ensures Inv(JoinOf(s, c, s.callers[c].key))
  {
    var key := s.callers[c].key;
    if key !in s.inFlight { CreatedKeeps(s, key); }
    var r := if key in s.inFlight then s else Created(s, key);
    assert Inv(r) && r.callers == s.callers;
  }

  /** Finishing a request, at a version at least its signature or not at all, moves nothing else. */
  lemma FinishKeeps(s: State, i: nat, r: Request)
    requires Inv(s) && i < |s.requests| && r.key == s.requests[i].key && r.released == s.requests[i].released
    requires r.read.Some? ==> r.read.value >= r.key.signature
    requires Finished(r)
    ensures Inv(s.(requests := s.requests[i := r]))
  {
  }

  lemma ReleaseKeeps(s: State, i: nat)
    requires Inv(s)
    ensures Inv(Next(s, Release(i)))
  {
  }

  lemma NextKeeps(s: State, step: Step)
    requires Inv(s)
    ensures Inv(Next(s, step))
  {
    match step
    case Join(c) => if c < |s.callers| && s.callers[c].Signed? { JoinKeeps(s, c); }
    case Read(i) => if i < |s.requests| { FinishKeeps(s, i, Next(s, step).requests[i]); }
    case FailRead(i) => if i < |s.requests| { FinishKeeps(s, i, Next(s, step).requests[i]); }
    case Release(i) => ReleaseKeeps(s, i);
    case _ =>
  }

  lemma {:induction false} RunKeeps(s: State, steps: seq<Step>)
    requires Inv(s)
    ensures Inv(Run(s, steps))
    decreases |steps|
  {
    if steps == [] {
    } else {
      NextKeeps(s, steps[0]);
      RunKeeps(Next(s, steps[0]), steps[1..]);
    }
  }

  /** In every interleaving, a caller's history was read at a version at least that of the
      signature it joined under, even when another caller's request answers it. */
  lemma NeverOlderThanTheSignature(steps: seq<Step>, c: nat)
    requires var s := Run(Start(), steps); c < |s.callers| && s.callers[c].Joined?
    ensures var s := Run(Start(), steps);
            var joined := s.callers[c];
            && joined.request < |s.requests| && s.requests[joined.request].key == joined.key
            && (s.requests[joined.request].read.Some? ==> s.requests[joined.request].read.value >= joined.key.signature)
  {
    RunKeeps(Start(), steps);
  }

  /** At most one request per session and signature is in flight; a finished one, failed or not,
      gives up the slot it holds when its callback runs. */
  lemma OneRequestPerKey(steps: seq<Step>, i: nat, j: nat)
    requires var s := Run(Start(), steps);
             i < |s.requests| && j < |s.requests| && s.requests[i].key == s.requests[j].key
             && !s.requests[i].released && !s.requests[j].released
    ensures i == j
    ensures var s := Run(Start(), steps); Finished(s.requests[i]) ==> s.requests[i].key !in Next(s, Release(i)).inFlight
  {
    RunKeeps(Start(), steps);
  }

  class Coalescer {
    var inFlight: map<Key, nat>
    var requests: seq<Request>

    constructor ()
      ensures inFlight == map[] && requests == []
    {
      inFlight, requests := map[], [];
    }

    ghost function View(versions: map<nat, nat>, callers: seq<Caller>): State
      reads this
    {
      State(versions, inFlight, requests, callers)
    }

    /** The lookup under the lock; the caller awaits the request it returns. */
    method Join(key: Key, ghost versions: map<nat, nat>, ghost callers: seq<Caller>, ghost c: nat) returns (request: nat)
      requires c < |callers|
      modifies this
      ensures View(versions, callers[c := Joined(key, request)]) == JoinOf(old(View(versions, callers)), c, key)
    {
      if key !in inFlight {
        inFlight := inFlight[key := |requests|];
        requests := requests + [Request(key, None, false, false)];
      }
      request := inFlight[key];
    }

    method Release(i: nat, ghost versions: map<nat, nat>, ghost callers: seq<Caller>)
      requires i < |requests|
      modifies this
      ensures View(versions, callers) == ReleaseOf(old(View(versions, callers)), i)
    {
      var key := requests[i].key;
      if key in inFlight && inFlight[key] == i { inFlight := inFlight - {key}; }
      requests := requests[i := requests[i].(released := true)];
    }
  }
}
