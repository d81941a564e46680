/** The live WebSocket session of a chat run: a reader that subscribes to the log, then
    catches up once per wake-up, beside a writer that appends to the log and then marks the
    registry. An event is its offset.

    A session is a sequence of atomic steps of both processes and of the publisher, so
    quantifying over step sequences quantifies over their interleavings. */
module LiveSession {
  import opened Common

  datatype Event = Event(isPublic: bool, terminal: bool)

  /** What the session reads of a registry record: has the status ended, and the offset of
      the last marked event. */
  datatype Run = Run(ended: bool, latest: int)

  datatype Phase =
    | Waking(fallback: Run)
    | Listing(run: Run)
    | Sending(run: Run, batch: seq<int>, listed: nat)
    | Parked
    | EndedByEvent
    | EndedByStatus(run: Run)

  datatype State = State(
    log: seq<Event>,
    run: Run,
    published: nat,
    queue: seq<int>,
    cursor: int,
    sent: seq<int>,
    phase: Phase)

  /** `found` says whether the registry read succeeds; a failed read falls back on an older
      record. */
  datatype Step =
    | Append(event: Event)
    | Mark(offset: nat, ended: bool)
    | SetStatus(ended: bool)
    | Publish
    | ReadRegistry(found: bool)
    | ListLog
    | Send
    | Wake(found: bool)

  /** The client's cursor, and the record its subscription was resolved against. */
  datatype Subscription = Subscription(after: int, origin: Run)

  const QUEUE_CAPACITY := 500

  // ---- the public part of the log ----

  /** The public offsets x with after < x < hi, ascending. */
  function PublicIn(log: seq<Event>, after: int, hi: int): seq<int>
    decreases if hi < 0 then 0 else hi
  {
    if hi <= 0 then []
    else PublicIn(log, after, hi - 1) + (if after < hi - 1 < |log| && log[hi - 1].isPublic then [hi - 1] else [])
  }

  lemma {:induction false} PublicInHolds(log: seq<Event>, after: int, hi: int, x: int)
    ensures x in PublicIn(log, after, hi) <==> 0 <= x < |log| && after < x < hi && log[x].isPublic
    decreases if hi < 0 then 0 else hi
  {
    if hi <= 0 {
    } else {
      PublicInHolds(log, after, hi - 1, x);
    }
  }

  lemma {:induction false} PublicInAscends(log: seq<Event>, after: int, hi: int)
    ensures forall i :: 0 <= i < |PublicIn(log, after, hi)| ==> after < PublicIn(log, after, hi)[i] < hi
    ensures forall i, j :: 0 <= i < j < |PublicIn(log, after, hi)| ==> PublicIn(log, after, hi)[i] < PublicIn(log, after, hi)[j]
    decreases if hi < 0 then 0 else hi
  {
    if hi <= 0 {
    } else {
      PublicInAscends(log, after, hi - 1);
    }
  }

  lemma {:induction false} PublicInGrows(log: seq<Event>, e: Event, after: int, hi: int)
    requires hi <= Max(|log|, after + 1)
    ensures PublicIn(log + [e], after, hi) == PublicIn(log, after, hi)
    decreases if hi < 0 then 0 else hi
  {
    if hi <= 0 {
    } else {
      PublicInGrows(log, e, after, hi - 1);
    }
  }

  lemma {:induction false} PublicInSplit(log: seq<Event>, after: int, mid: int, hi: int)
    requires after <= mid < hi
    ensures PublicIn(log, after, hi) == PublicIn(log, after, mid + 1) + PublicIn(log, mid, hi)
    decreases hi - mid
  {
    if hi > mid + 1 {
      PublicInSplit(log, after, mid, hi - 1);
    } else {
      PublicInNothing(log, mid, hi);
    }
  }

  lemma {:induction false} PublicInNothing(log: seq<Event>, after: int, hi: int)
    requires hi <= after + 1
    ensures PublicIn(log, after, hi) == []
    decreases if hi < 0 then 0 else hi
  {
    if hi <= 0 {
    } else {
      PublicInNothing(log, after, hi - 1);
    }
  }

  /** Taking the first of the remaining offsets. */
  lemma PublicInHead(log: seq<Event>, cursor: int, hi: int)
    requires PublicIn(log, cursor, hi) != []
    ensures var h := PublicIn(log, cursor, hi)[0];
            && 0 <= h < |log| && cursor < h < hi && log[h].isPublic
            && PublicIn(log, cursor, h + 1) == [h]
            && PublicIn(log, h, hi) == PublicIn(log, cursor, hi)[1..]
  {
    var p := PublicIn(log, cursor, hi);
    var h := p[0];
    assert h in p;
    PublicInHolds(log, cursor, hi, h);
    PublicInAscends(log, cursor, hi);
    PublicInSplit(log, cursor, h, hi);
    if PublicIn(log, cursor, h) != [] {
      var x := PublicIn(log, cursor, h)[0];
      PublicInHolds(log, cursor, h, x);
      PublicInHolds(log, cursor, hi, x);
    }
  }

  // ---- steps ----

  /** The status half of `_send_catchup`: is the record ended and its last event reached? */
  predicate StatusEnds(run: Run, cursor: int) {
    run.ended && cursor >= OrMinusOne(run.latest)
  }

  /** One turn of the send loop, or what follows it once nothing is left to send. */
  function SendOne(s: State, run: Run, batch: seq<int>, listed: nat): State {
    if batch == [] then s.(phase := if StatusEnds(run, s.cursor) then EndedByStatus(run) else Parked)
    else if batch[0] <= s.cursor then s.(phase := Sending(run, batch[1..], listed))
    else
      var ends := 0 <= batch[0] < |s.log| && s.log[batch[0]].terminal;
      s.(cursor := batch[0], sent := s.sent + [batch[0]],
         phase := if ends then EndedByEvent else Sending(run, batch[1..], listed))
  }

  /** One step; a step that is not enabled changes nothing. */
  function Next(sub: Subscription, s: State, step: Step): State {
    match step
    case Append(e) => s.(log := s.log + [e])
    case Mark(offset, ended) =>
      if offset < |s.log| && s.log[offset].isPublic then s.(run := Run(ended, offset)) else s
    case SetStatus(ended) => s.(run := s.run.(ended := ended))
    case Publish =>
      if s.published < |s.log|
      then s.(queue := PutDropOldest(s.queue, s.published, QUEUE_CAPACITY), published := s.published + 1)
      else s
    case ReadRegistry(found) =>
      if s.phase.Waking? then s.(phase := Listing(if found then s.run else s.phase.fallback)) else s
    case ListLog =>
      if s.phase.Listing?
      then s.(phase := Sending(s.phase.run, PublicIn(s.log, s.cursor, |s.log|), |s.log|))
      else s
    case Send => if s.phase.Sending? then SendOne(s, s.phase.run, s.phase.batch, s.phase.listed) else s
    case Wake(found) =>
      if s.phase.Parked? && s.queue != []
      then s.(queue := s.queue[1..], phase := Waking(if found then s.run else sub.origin))
      else s
  }

  function Session(sub: Subscription, s: State, steps: seq<Step>): State
    decreases |steps|
  {
    if steps == [] then s else Session(sub, Next(sub, s, steps[0]), steps[1..])
  }

  /** A reader that has just subscribed; earlier events may still be on their way to it. */
  function Begin(sub: Subscription, log: seq<Event>, run: Run, published: nat): State {
    State(log, run, published, [], sub.after, [], Waking(sub.origin))
  }

  /** The writer marks only offsets it has logged, and it logs public events. */
  predicate Marked(log: seq<Event>, run: Run) {
    run.latest == -1 || (0 <= run.latest < |log| && log[run.latest].isPublic)
  }

  predicate ValidBegin(sub: Subscription, log: seq<Event>, run: Run, published: nat) {
    Marked(log, run) && Marked(log, sub.origin) && published <= |log|
  }

  // ---- the invariant ----

  predicate NoTerminal(log: seq<Event>, offsets: seq<int>) {
    forall i :: 0 <= i < |offsets| ==> 0 <= offsets[i] < |log| && !log[offsets[i]].terminal
  }

  predicate PhaseInv(s: State) {
    match s.phase
    case Waking(fallback) => Marked(s.log, fallback) && NoTerminal(s.log, s.sent)
    case Listing(run) => Marked(s.log, run) && NoTerminal(s.log, s.sent)
    case Sending(run, batch, listed) =>
      && Marked(s.log, run) && run.latest < listed <= |s.log|
      && batch == PublicIn(s.log, s.cursor, listed)
      && (s.queue == [] ==> s.published <= listed)
      && NoTerminal(s.log, s.sent)
    case Parked => (s.queue == [] ==> PublicIn(s.log, s.cursor, s.published) == []) && NoTerminal(s.log, s.sent)
    case EndedByEvent =>
      && s.sent != [] && s.sent[|s.sent| - 1] == s.cursor
      && 0 <= s.cursor < |s.log| && s.log[s.cursor].terminal
      && NoTerminal(s.log, s.sent[..|s.sent| - 1])
    case EndedByStatus(run) =>
      run.ended && Marked(s.log, run) && run.latest <= s.cursor && NoTerminal(s.log, s.sent)
  }

  predicate CursorIsLastSent(sub: Subscription, s: State) {
    s.cursor == sub.after || (s.sent != [] && s.sent[|s.sent| - 1] == s.cursor)
  }

  predicate SessionInv(sub: Subscription, s: State) {
    && s.published <= |s.log|
    && Marked(s.log, s.run) && Marked(s.log, sub.origin)
    && sub.after <= s.cursor && (s.cursor < |s.log| || s.cursor == sub.after)
    && s.sent == PublicIn(s.log, sub.after, s.cursor + 1)
    && CursorIsLastSent(sub, s)
    && PhaseInv(s)
  }

  lemma NoTerminalGrows(log: seq<Event>, e: Event, offsets: seq<int>)
    requires NoTerminal(log, offsets)
    ensures NoTerminal(log + [e], offsets)
  {
  }

  lemma AppendKeepsPhase(s: State, e: Event)
    requires PhaseInv(s) && s.published <= |s.log|
    ensures PhaseInv(s.(log := s.log + [e]))
  {
    match s.phase
    case Sending(run, batch, listed) =>
      NoTerminalGrows(s.log, e, s.sent);
      PublicInGrows(s.log, e, s.cursor, listed);
    case Parked =>
      NoTerminalGrows(s.log, e, s.sent);
      PublicInGrows(s.log, e, s.cursor, s.published);
    case EndedByEvent => NoTerminalGrows(s.log, e, s.sent[..|s.sent| - 1]);
    case _ => NoTerminalGrows(s.log, e, s.sent);
  }

  lemma AppendKeeps(sub: Subscription, s: State, e: Event)
    requires SessionInv(sub, s)
    ensures SessionInv(sub, s.(log := s.log + [e]))
  {
    PublicInGrows(s.log, e, sub.after, s.cursor + 1);
    AppendKeepsPhase(s, e);
  }

  /** Nothing left to send: the record's last event was reached, `or -1` or not. */
  lemma DrainedReaches(log: seq<Event>, cursor: int, run: Run, listed: nat)
    requires Marked(log, run) && run.latest < listed <= |log| && PublicIn(log, cursor, listed) == []
    ensures run.latest >= 0 ==> run.latest <= cursor
    ensures cursor >= OrMinusOne(run.latest) <==> cursor >= run.latest
  {
    PublicInHolds(log, cursor, listed, run.latest);
  }

  lemma DrainedNothing(log: seq<Event>, cursor: int, listed: nat, published: nat)
    requires published <= listed && PublicIn(log, cursor, listed) == []
    ensures PublicIn(log, cursor, published) == []
  {
    if PublicIn(log, cursor, published) != [] {
      var x := PublicIn(log, cursor, published)[0];
      PublicInHolds(log, cursor, published, x);
      PublicInHolds(log, cursor, listed, x);
    }
  }

  lemma DrainKeeps(sub: Subscription, s: State)
    requires SessionInv(sub, s) && s.phase.Sending? && s.phase.batch == []
    ensures SessionInv(sub, SendOne(s, s.phase.run, s.phase.batch, s.phase.listed))
  {
    DrainedReaches(s.log, s.cursor, s.phase.run, s.phase.listed);
    if s.queue == [] { DrainedNothing(s.log, s.cursor, s.phase.listed, s.published); }
  }

  lemma SendKeeps(sub: Subscription, s: State)
    requires SessionInv(sub, s) && s.phase.Sending? && s.phase.batch != []
    ensures SessionInv(sub, SendOne(s, s.phase.run, s.phase.batch, s.phase.listed))
  {
    var batch, listed := s.phase.batch, s.phase.listed;
    var h := batch[0];
    PublicInHead(s.log, s.cursor, listed);
    PublicInSplit(s.log, sub.after, s.cursor, h + 1);
    var r := SendOne(s, s.phase.run, batch, listed);
    assert r.sent == s.sent + [h] == PublicIn(s.log, sub.after, h + 1);
    assert r.sent[..|r.sent| - 1] == s.sent;
    if r.phase.Sending? {
      assert r.phase.batch == PublicIn(s.log, h, listed);
      assert NoTerminal(r.log, r.sent);
    } else {
      assert r.phase == EndedByEvent;
    }
  }

  /** The registry and the publisher. */
  lemma WriteKeeps(sub: Subscription, s: State, step: Step)
    requires SessionInv(sub, s) && (step.Mark? || step.SetStatus? || step.Publish?)
    ensures SessionInv(sub, Next(sub, s, step))
  {
    assert Next(sub, s, step).phase == s.phase && Next(sub, s, step).sent == s.sent && Next(sub, s, step).log == s.log;
    if step.Publish? { assert Next(sub, s, step) == s || Next(sub, s, step).queue != []; }
  }

  /** The reader, but for its sends. */
  lemma ReadKeeps(sub: Subscription, s: State, step: Step)
    requires SessionInv(sub, s) && (step.ReadRegistry? || step.ListLog? || step.Wake?)
    ensures SessionInv(sub, Next(sub, s, step))
  {
    assert Next(sub, s, step).sent == s.sent && Next(sub, s, step).log == s.log && Next(sub, s, step).cursor == s.cursor;
  }

  lemma NextKeeps(sub: Subscription, s: State, step: Step)
    requires SessionInv(sub, s)
    ensures SessionInv(sub, Next(sub, s, step))
  {
    if step.Append? {
      AppendKeeps(sub, s, step.event);
    } else if step.Mark? || step.SetStatus? || step.Publish? {
      WriteKeeps(sub, s, step);
    } else if step.ReadRegistry? || step.ListLog? || step.Wake? {
      ReadKeeps(sub, s, step);
    } else if s.phase.Sending? {
      if s.phase.batch == [] { DrainKeeps(sub, s); } else { SendKeeps(sub, s); }
    }
  }

  lemma {:induction false} SessionKeeps(sub: Subscription, s: State, steps: seq<Step>)
    requires SessionInv(sub, s)
    ensures SessionInv(sub, Session(sub, s, steps))
    decreases |steps|
  {
    if steps == [] {
    } else {
      NextKeeps(sub, s, steps[0]);
      SessionKeeps(sub, Next(sub, s, steps[0]), steps[1..]);
    }
  }

  lemma BeginKeeps(sub: Subscription, log: seq<Event>, run: Run, published: nat)
    requires ValidBegin(sub, log, run, published)
    ensures SessionInv(sub, Begin(sub, log, run, published))
  {
    PublicInNothing(log, sub.after, sub.after + 1);
  }

  // ---- main results ----

  /** Live delivery, over every interleaving: the client was sent exactly the public events from
      its cursor to the session's, each once, in order, and none after a terminal one. A session
      ended by an event ends with that event; one ended by status had sent every public event up
      to the last offset of the record it read. */
  lemma LiveDelivery(sub: Subscription, log: seq<Event>, run: Run, published: nat, steps: seq<Step>)
    requires ValidBegin(sub, log, run, published)
    ensures var s := Session(sub, Begin(sub, log, run, published), steps);
            && s.sent == PublicIn(s.log, sub.after, s.cursor + 1)
            && (forall i, j :: 0 <= i < j < |s.sent| ==> s.sent[i] < s.sent[j])
            && (!s.phase.EndedByEvent? ==> NoTerminal(s.log, s.sent))
            && (s.phase.EndedByEvent? ==>
                  && s.sent != [] && 0 <= s.cursor < |s.log| && s.log[s.cursor].terminal
                  && s.sent[|s.sent| - 1] == s.cursor && NoTerminal(s.log, s.sent[..|s.sent| - 1]))
            && (s.phase.EndedByStatus? ==>
                  && s.phase.run.ended && s.phase.run.latest < |s.log|
                  && forall x :: sub.after < x <= s.phase.run.latest && 0 <= x && s.log[x].isPublic ==> x in s.sent)
  {
    BeginKeeps(sub, log, run, published);
    SessionKeeps(sub, Begin(sub, log, run, published), steps);
    var s := Session(sub, Begin(sub, log, run, published), steps);
    PublicInAscends(s.log, sub.after, s.cursor + 1);
    if s.phase.EndedByStatus? { StatusSaw(sub, s); }
  }

  lemma StatusSaw(sub: Subscription, s: State)
    requires SessionInv(sub, s) && s.phase.EndedByStatus? && s.phase.run.latest < |s.log|
    ensures forall x :: sub.after < x <= s.phase.run.latest && 0 <= x && s.log[x].isPublic ==> x in s.sent
  {
    forall x | sub.after < x <= s.phase.run.latest && 0 <= x && s.log[x].isPublic ensures x in s.sent {
      PublicInHolds(s.log, sub.after, s.cursor + 1, x);
    }
  }

  /** The `or -1` of the status check is harmless: whenever the check is made, reading the
      offset plainly would decide the same. */
  lemma GuardIsHarmless(sub: Subscription, log: seq<Event>, run: Run, published: nat, steps: seq<Step>)
    requires ValidBegin(sub, log, run, published)
    ensures var s := Session(sub, Begin(sub, log, run, published), steps);
            s.phase.Sending? && s.phase.batch == [] ==>
              (StatusEnds(s.phase.run, s.cursor) <==> s.phase.run.ended && s.cursor >= s.phase.run.latest)
  {
    BeginKeeps(sub, log, run, published);
    SessionKeeps(sub, Begin(sub, log, run, published), steps);
    var s := Session(sub, Begin(sub, log, run, published), steps);
    if s.phase.Sending? && s.phase.batch == [] {
      DrainedReaches(s.log, s.cursor, s.phase.run, s.phase.listed);
    }
  }

  /** No lost wake-up: a parked reader with an empty queue has nothing left to send of what was
      published; once publication has caught up with the log, it has sent the whole public log
      past its cursor. */
  lemma NoLostWakeUp(sub: Subscription, log: seq<Event>, run: Run, published: nat, steps: seq<Step>)
    requires ValidBegin(sub, log, run, published)
    ensures var s := Session(sub, Begin(sub, log, run, published), steps);
            s.phase.Parked? && s.queue == [] ==>
              && PublicIn(s.log, s.cursor, s.published) == []
              && (s.published == |s.log| ==> s.sent == PublicIn(s.log, sub.after, |s.log|))
  {
    BeginKeeps(sub, log, run, published);
    SessionKeeps(sub, Begin(sub, log, run, published), steps);
    var s := Session(sub, Begin(sub, log, run, published), steps);
    if s.phase.Parked? && s.queue == [] && s.published == |s.log| {
      if s.cursor < |s.log| - 1 {
        PublicInSplit(s.log, sub.after, s.cursor, |s.log|);
      } else if s.cursor >= |s.log| {
        PublicInNothing(s.log, sub.after, |s.log|);
        PublicInNothing(s.log, sub.after, s.cursor + 1);
      }
    }
  }

  /** Only events wake the reader: once a session is drained, no registry change by itself, an
      ended status included, makes it move before the next append. */
  lemma {:induction false} StatusAloneDoesNotWake(sub: Subscription, s: State, steps: seq<Step>)
    requires s.phase.Parked? && s.queue == [] && s.published == |s.log|
    requires forall i :: 0 <= i < |steps| ==> !steps[i].Append?
    ensures var r := Session(sub, s, steps); r.phase.Parked? && r.sent == s.sent
    decreases |steps|
  {
    if steps == [] {
    } else {
      StatusAloneDoesNotWake(sub, Next(sub, s, steps[0]), steps[1..]);
    }
  }

  // ---- which record a catch-up decides by ----

  /** An ended record that a reader cannot miss: it points at an event, or the client did not ask for
      a cursor below -1, which no record reaches. */
  predicate Decisive(sub: Subscription, record: Run) {
    record.ended && (record.latest >= 0 || sub.after >= -1)
  }

  /** The catch-up under way, or just over, is for this record: it lists and sends for it, and once
      it is over it parks only if the record was not decisive, and ends by status only if it had
      ended. */
  predicate DecidesBy(sub: Subscription, phase: Phase, record: Run) {
    match phase
    case Waking(_) => false
    case Listing(run) => run == record
    case Sending(run, _, _) => run == record
    case Parked => !Decisive(sub, record)
    case EndedByEvent => true
    case EndedByStatus(run) => run == record && record.ended
  }

  predicate NoWake(steps: seq<Step>) {
    forall i :: 0 <= i < |steps| ==> !steps[i].Wake?
  }

  lemma NextDecides(sub: Subscription, s: State, step: Step, record: Run)
    requires SessionInv(sub, s) && DecidesBy(sub, s.phase, record)
    requires Decisive(sub, record) || !step.Wake?
    ensures DecidesBy(sub, Next(sub, s, step).phase, record)
  {
    if step.Send? && s.phase.Sending? && s.phase.batch == [] {
      DrainedReaches(s.log, s.cursor, s.phase.run, s.phase.listed);
    }
  }

  /** Over every interleaving: a catch-up decides by the record that its registry read found, or by
      the one it was woken with when the read failed. One for a decisive record never parks: it ends
      by a terminal event or by status. One for a record that had not ended does not end by status. */
  lemma {:induction false} CatchUpDecides(sub: Subscription, s: State, record: Run, steps: seq<Step>)
    requires SessionInv(sub, s) && DecidesBy(sub, s.phase, record)
    requires Decisive(sub, record) || NoWake(steps)
    ensures SessionInv(sub, Session(sub, s, steps)) && DecidesBy(sub, Session(sub, s, steps).phase, record)
    decreases |steps|
  {
    if steps == [] {
    } else {
      NextKeeps(sub, s, steps[0]);
      NextDecides(sub, s, steps[0], record);
      CatchUpDecides(sub, Next(sub, s, steps[0]), record, steps[1..]);
    }
  }

  /** A woken reader waits for its registry read. */
  lemma {:induction false} WakingWaits(sub: Subscription, s: State, steps: seq<Step>)
    requires s.phase.Waking? && forall i :: 0 <= i < |steps| ==> !steps[i].ReadRegistry?
    ensures Session(sub, s, steps).phase == s.phase
    decreases |steps|
  {
    if steps == [] {
    } else {
      WakingWaits(sub, Next(sub, s, steps[0]), steps[1..]);
    }
  }

  lemma {:induction false} SessionJoins(sub: Subscription, s: State, xs: seq<Step>, ys: seq<Step>)
    ensures Session(sub, s, xs + ys) == Session(sub, Session(sub, s, xs), ys)
    decreases |xs|
  {
    if xs == [] {
      assert xs + ys == ys;
    } else {
      TailJoins(xs, ys);
      SessionJoins(sub, Next(sub, s, xs[0]), xs[1..], ys);
    }
  }

  lemma SessionOne(sub: Subscription, s: State, step: Step)
    ensures Session(sub, s, [step]) == Next(sub, s, step)
  {
    assert [step][1..] == [];
  }

  lemma ReadDecides(sub: Subscription, s: State, found: bool, steps: seq<Step>)
    requires SessionInv(sub, s) && s.phase.Waking?
    ensures var record := if found then s.run else s.phase.fallback;
            Decisive(sub, record) || NoWake(steps) ==>
              DecidesBy(sub, Session(sub, Next(sub, s, ReadRegistry(found)), steps).phase, record)
  {
    var record := if found then s.run else s.phase.fallback;
    NextKeeps(sub, s, ReadRegistry(found));
    if Decisive(sub, record) || NoWake(steps) { CatchUpDecides(sub, Next(sub, s, ReadRegistry(found)), record, steps); }
  }

  lemma WakingKept(sub: Subscription, s: State, pause: seq<Step>)
    requires SessionInv(sub, s) && s.phase.Waking? && forall i :: 0 <= i < |pause| ==> !pause[i].ReadRegistry?
    ensures SessionInv(sub, Session(sub, s, pause)) && Session(sub, s, pause).phase == s.phase
  {
    WakingWaits(sub, s, pause);
    SessionKeeps(sub, s, pause);
  }

  /** The record that the catch-up of a wake-up decides by: the one in the registry when it reads it,
      else the one there when it woke, else the one its subscription was resolved against. */
  lemma WakeDecides(sub: Subscription, s: State, found: bool, pause: seq<Step>, foundAgain: bool, steps: seq<Step>)
    requires SessionInv(sub, s) && s.phase.Parked? && s.queue != []
    requires forall i :: 0 <= i < |pause| ==> !pause[i].ReadRegistry?
    ensures var paused := Session(sub, Next(sub, s, Wake(found)), pause);
            var record := if foundAgain then paused.run else if found then s.run else sub.origin;
            Decisive(sub, record) || NoWake(steps) ==>
              DecidesBy(sub, Session(sub, Next(sub, paused, ReadRegistry(foundAgain)), steps).phase, record)
  {
    var woken := Next(sub, s, Wake(found));
    assert woken.phase == Waking(if found then s.run else sub.origin);
    assert SessionInv(sub, woken) by { NextKeeps(sub, s, Wake(found)); }
    WakingKept(sub, woken, pause);
    ReadDecides(sub, Session(sub, woken, pause), foundAgain, steps);
  }

  /** The first catch-up decides by the registry too, else by the record of the subscription. */
  lemma BeginDecides(sub: Subscription, log: seq<Event>, run: Run, published: nat, pause: seq<Step>, found: bool, steps: seq<Step>)
    requires ValidBegin(sub, log, run, published)
    requires forall i :: 0 <= i < |pause| ==> !pause[i].ReadRegistry?
    ensures var paused := Session(sub, Begin(sub, log, run, published), pause);
            var record := if found then paused.run else sub.origin;
            Decisive(sub, record) || NoWake(steps) ==>
              DecidesBy(sub, Session(sub, Next(sub, paused, ReadRegistry(found)), steps).phase, record)
  {
    BeginKeeps(sub, log, run, published);
    WakingKept(sub, Begin(sub, log, run, published), pause);
    ReadDecides(sub, Session(sub, Begin(sub, log, run, published), pause), found, steps);
  }

  /** A cursor below -1 is not reached by a record without events: the reader parks on an ended run. */
  lemma BelowMinusOneParks()
    ensures var sub := Subscription(-2, Run(true, -1));
            Session(sub, Begin(sub, [], Run(true, -1), 0), [ReadRegistry(true), ListLog, Send]).phase.Parked?
  {
    var sub := Subscription(-2, Run(true, -1));
    var s := Begin(sub, [], Run(true, -1), 0);
    var listed := Next(sub, Next(sub, s, ReadRegistry(true)), ListLog);
    assert listed.phase == Sending(Run(true, -1), [], 0);
    assert [ReadRegistry(true), ListLog, Send][1..] == [ListLog, Send] && [ListLog, Send][1..] == [Send];
    SessionOne(sub, listed, Send);
  }

  // ---- a catch-up comes to its end ----

  function Sends(steps: seq<Step>): nat
    decreases |steps|
  {
    if steps == [] then 0 else (if steps[0].Send? then 1 else 0) + Sends(steps[1..])
  }

  lemma {:induction false} OverStaysOver(sub: Subscription, s: State, steps: seq<Step>)
    requires s.phase.EndedByEvent? || s.phase.EndedByStatus?
    ensures Session(sub, s, steps).phase == s.phase
    decreases |steps|
  {
    if steps == [] {
    } else {
      OverStaysOver(sub, Next(sub, s, steps[0]), steps[1..]);
    }
  }

  /** The sends of a batch and one more, among whatever steps, finish a catch-up for a decisive record. */
  lemma {:induction false} SendsFinish(sub: Subscription, s: State, record: Run, steps: seq<Step>)
    requires SessionInv(sub, s) && Decisive(sub, record) && DecidesBy(sub, s.phase, record) && !s.phase.Listing?
    requires s.phase.Sending? ==> Sends(steps) > |s.phase.batch|
    ensures var r := Session(sub, s, steps); r.phase.EndedByEvent? || r.phase.EndedByStatus?
    decreases |steps|
  {
    if !s.phase.Sending? {
      OverStaysOver(sub, s, steps);
    } else {
      NextKeeps(sub, s, steps[0]);
      NextDecides(sub, s, steps[0], record);
      SendsFinish(sub, Next(sub, s, steps[0]), record, steps[1..]);
    }
  }

  /** A reader that finds its record ended closes the session: once it has listed the log and made
      its sends, whatever else happens meanwhile, it has ended by an event or by status. */
  lemma EndedRecordCloses(sub: Subscription, s: State, pause: seq<Step>, steps: seq<Step>)
    requires SessionInv(sub, s) && s.phase.Waking? && Decisive(sub, s.run)
    requires forall i :: 0 <= i < |pause| ==> !pause[i].ListLog?
    requires var paused := Session(sub, Next(sub, s, ReadRegistry(true)), pause);
             Sends(steps) > |PublicIn(paused.log, paused.cursor, |paused.log|)|
    ensures var r := Session(sub, s, [ReadRegistry(true)] + pause + [ListLog] + steps);
            r.phase.EndedByEvent? || r.phase.EndedByStatus?
  {
    var read := Next(sub, s, ReadRegistry(true));
    NextKeeps(sub, s, ReadRegistry(true));
    ListingWaits(sub, read, pause);
    SessionKeeps(sub, read, pause);
    var paused := Session(sub, read, pause);
    NextKeeps(sub, paused, ListLog);
    SessionJoins(sub, s, [ReadRegistry(true)] + pause + [ListLog], steps);
    SessionJoins(sub, s, [ReadRegistry(true)] + pause, [ListLog]);
    SessionJoins(sub, s, [ReadRegistry(true)], pause);
    SessionOne(sub, s, ReadRegistry(true));
    SessionOne(sub, paused, ListLog);
    SendsFinish(sub, Next(sub, paused, ListLog), s.run, steps);
  }

  lemma {:induction false} ListingWaits(sub: Subscription, s: State, steps: seq<Step>)
    requires s.phase.Listing? && forall i :: 0 <= i < |steps| ==> !steps[i].ListLog?
    ensures Session(sub, s, steps).phase == s.phase
    decreases |steps|
  {
    if steps == [] {
    } else {
      ListingWaits(sub, Next(sub, s, steps[0]), steps[1..]);
    }
  }

  // ---- the subscriber's queue ----

  /** It holds the events published last, at most five hundred. */
  predicate QueueRecent(s: State) {
    |s.queue| <= 500 && |s.queue| <= s.published && s.queue == Range(s.published - |s.queue|, s.published)
  }

  lemma PublishRecent(sub: Subscription, s: State)
    requires QueueRecent(s) && s.published < |s.log|
    ensures QueueRecent(Next(sub, s, Publish)) && |Next(sub, s, Publish).queue| == Min(|s.queue| + 1, 500)
  {
    RangeExtend(s.published - |s.queue|, s.published);
    if |s.queue| == 500 { assert s.queue[1..] == Range(s.published - |s.queue| + 1, s.published); }
  }

  lemma OldestTaken(s: State)
    requires QueueRecent(s) && s.queue != []
    ensures s.queue[1..] == Range(s.published - |s.queue| + 1, s.published)
  {
  }

  lemma StepRecent(sub: Subscription, s: State, step: Step)
    requires QueueRecent(s)
    ensures QueueRecent(Next(sub, s, step))
  {
    if s.queue != [] { OldestTaken(s); }
    if step.Publish? && s.published < |s.log| { PublishRecent(sub, s); }
  }

  /** In every session the queue holds the events published last; a publication drops the oldest of
      them exactly when it holds five hundred, and a wake-up takes the oldest. */
  lemma {:induction false} QueueDropsOldest(sub: Subscription, s: State, steps: seq<Step>)
    requires QueueRecent(s)
    ensures var r := Session(sub, s, steps);
            && QueueRecent(r)
            && (r.published < |r.log| ==> |Next(sub, r, Publish).queue| == Min(|r.queue| + 1, 500))
            && (r.phase.Parked? && r.queue != [] ==>
                  forall found :: Next(sub, r, Wake(found)).queue == Range(r.published - |r.queue| + 1, r.published))
    decreases |steps|
  {
    if steps == [] {
      if s.published < |s.log| { PublishRecent(sub, s); }
      if s.queue != [] { OldestTaken(s); }
    } else {
      StepRecent(sub, s, steps[0]);
      QueueDropsOldest(sub, Next(sub, s, steps[0]), steps[1..]);
    }
  }

  // ---- growing logs ----

  lemma {:induction false} PublicInPrefix(log: seq<Event>, grown: seq<Event>, after: int, hi: int)
    requires log <= grown && hi <= Max(|log|, after + 1)
    ensures PublicIn(log, after, hi) == PublicIn(grown, after, hi)
    decreases if hi < 0 then 0 else hi
  {
    if hi <= 0 {
    } else {
      PublicInPrefix(log, grown, after, hi - 1);
    }
  }

  lemma {:induction false} LogGrows(sub: Subscription, s: State, steps: seq<Step>)
    ensures s.log <= Session(sub, s, steps).log
    decreases |steps|
  {
    if steps == [] {
    } else {
      LogGrows(sub, Next(sub, s, steps[0]), steps[1..]);
    }
  }

  lemma JoinedOffsets(log: seq<Event>, grown: seq<Event>, after: int, cut: int, cursor: int)
    requires log <= grown && after <= cut <= cursor && (cut < |log| || cut == after)
    ensures PublicIn(log, after, cut + 1) + PublicIn(grown, cut, cursor + 1) == PublicIn(grown, after, cursor + 1)
  {
    PublicInPrefix(log, grown, after, cut + 1);
    if cut < cursor {
      PublicInSplit(grown, after, cut, cursor + 1);
    } else {
      PublicInNothing(grown, cut, cursor + 1);
    }
  }
}
