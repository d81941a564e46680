/** The live session's reader as the coroutine runs it: list, send in a loop, check the status,
    and go back to the queue. A catch-up takes many steps of the session; here it is one call,
    and `CatchUpIsAtomic` shows that the interleaved steps cannot tell the difference. */
module LiveReader {
  import opened Common
  import opened LiveSession

  datatype Outcome = Outcome(cursor: int, sent: seq<int>, terminal: bool)

  predicate IsTerminal(log: seq<Event>, offset: int) {
    0 <= offset < |log| && log[offset].terminal
  }

  /** `_send_catchup` on what it read: send until a terminal event, then check the status. */
  function CatchUp(log: seq<Event>, run: Run, cursor: int, sent: seq<int>, batch: seq<int>): Outcome
    decreases |batch|
  {
    if batch == [] then Outcome(cursor, sent, StatusEnds(run, cursor))
    else if batch[0] <= cursor then CatchUp(log, run, cursor, sent, batch[1..])
    else if IsTerminal(log, batch[0]) then Outcome(batch[0], sent + [batch[0]], true)
    else CatchUp(log, run, batch[0], sent + [batch[0]], batch[1..])
  }

  // ---- the interleaved catch-up is the atomic one ----

  /** How the catch-up a session is in the middle of will end. */
  function Pending(s: State): Outcome
    requires s.phase.Sending?
  {
    CatchUp(s.log, s.phase.run, s.cursor, s.sent, s.phase.batch)
  }

  /** A finished catch-up left this behind. */
  predicate Finished(s: State, o: Outcome) {
    && (s.phase.Parked? || s.phase.EndedByEvent? || s.phase.EndedByStatus?)
    && o == Outcome(s.cursor, s.sent, !s.phase.Parked?)
  }

  predicate Within(log: seq<Event>, batch: seq<int>) {
    forall i :: 0 <= i < |batch| ==> batch[i] < |log|
  }

  lemma {:induction false} CatchUpIgnoresAppend(log: seq<Event>, e: Event, run: Run, cursor: int, sent: seq<int>, batch: seq<int>)
    requires Within(log, batch)
    ensures CatchUp(log + [e], run, cursor, sent, batch) == CatchUp(log, run, cursor, sent, batch)
    decreases |batch|
  {
    if batch == [] {
    } else {
      CatchUpIgnoresAppend(log, e, run, cursor, sent, batch[1..]);
      CatchUpIgnoresAppend(log, e, run, batch[0], sent + [batch[0]], batch[1..]);
    }
  }

  lemma PendingKept(sub: Subscription, s: State, step: Step)
    requires s.phase.Sending? && Within(s.log, s.phase.batch)
    ensures var t := Next(sub, s, step);
            if t.phase.Sending? then Within(t.log, t.phase.batch) && Pending(t) == Pending(s)
            else Finished(t, Pending(s))
  {
    if step.Append? {
      CatchUpIgnoresAppend(s.log, step.event, s.phase.run, s.cursor, s.sent, s.phase.batch);
    }
  }

  /** Until the next wake-up, whatever the writer and the publisher do meanwhile, the sends of a
      catch-up amount to the one call. */
  lemma {:induction false} CatchUpIsAtomic(sub: Subscription, s: State, steps: seq<Step>)
    requires s.phase.Sending? && Within(s.log, s.phase.batch)
    requires forall i :: 0 <= i < |steps| ==> !steps[i].Wake?
    ensures var r := Session(sub, s, steps);
            if r.phase.Sending? then Pending(r) == Pending(s) else Finished(r, Pending(s))
    decreases |steps|
  {
    if steps == [] {
    } else {
      PendingKept(sub, s, steps[0]);
      var t := Next(sub, s, steps[0]);
      if t.phase.Sending? {
        CatchUpIsAtomic(sub, t, steps[1..]);
      } else {
        FinishedStays(sub, t, Pending(s), steps[1..]);
      }
    }
  }

  lemma {:induction false} FinishedStays(sub: Subscription, s: State, o: Outcome, steps: seq<Step>)
    requires Finished(s, o)
    requires forall i :: 0 <= i < |steps| ==> !steps[i].Wake?
    ensures Finished(Session(sub, s, steps), o)
    decreases |steps|
  {
    if steps == [] {
    } else {
      FinishedStays(sub, Next(sub, s, steps[0]), o, steps[1..]);
    }
  }

  // ---- what a catch-up delivers ----

  /** A catch-up sends the public events from its cursor on, and stops short of the end of the
      listed log only at a terminal event. */
  lemma {:induction false} CatchUpDelivers(log: seq<Event>, run: Run, after: int, cursor: int, sent: seq<int>, batch: seq<int>)
    requires after <= cursor && sent == PublicIn(log, after, cursor + 1) && batch == PublicIn(log, cursor, |log|)
    ensures var o := CatchUp(log, run, cursor, sent, batch);
            && cursor <= o.cursor && (o.cursor < |log| || o.cursor == cursor)
            && o.sent == PublicIn(log, after, o.cursor + 1)
            && (o.terminal ==> IsTerminal(log, o.cursor) || StatusEnds(run, o.cursor))
            && (!o.terminal || !IsTerminal(log, o.cursor) ==> PublicIn(log, o.cursor, |log|) == [])
    decreases |batch|
  {
    if batch == [] {
    } else {
      var h := batch[0];
      HeadSent(log, after, cursor);
      assert sent + [h] == PublicIn(log, after, h + 1);
      if !IsTerminal(log, h) { CatchUpDelivers(log, run, after, h, sent + [h], batch[1..]); }
    }
  }

  lemma HeadSent(log: seq<Event>, after: int, cursor: int)
    requires after <= cursor && PublicIn(log, cursor, |log|) != []
    ensures var h := PublicIn(log, cursor, |log|)[0];
            && cursor < h < |log|
            && PublicIn(log, after, h + 1) == PublicIn(log, after, cursor + 1) + [h]
            && PublicIn(log, h, |log|) == PublicIn(log, cursor, |log|)[1..]
  {
    PublicInHead(log, cursor, |log|);
    PublicInSplit(log, after, cursor, PublicIn(log, cursor, |log|)[0] + 1);
  }

  // ---- the reader ----

  /** What one wake-up finds: the outcomes of its two registry reads and the log it lists. */
  datatype Moment = Moment(outer: Option<Run>, inner: Option<Run>, log: seq<Event>)

  function RecordAt(m: Moment, origin: Run): Run {
    if m.inner.Some? then m.inner.value else if m.outer.Some? then m.outer.value else origin
  }

  function ServeOne(origin: Run, o: Outcome, m: Moment): Outcome {
    CatchUp(m.log, RecordAt(m, origin), o.cursor, o.sent, PublicIn(m.log, o.cursor, |m.log|))
  }

  /** The session over its wake-ups, the catch-up before the first of them included. */
  function ServeAll(origin: Run, o: Outcome, moments: seq<Moment>): Outcome
    decreases |moments|
  {
    if moments == [] || o.terminal then o
    else
      ServeAll(origin, ServeOne(origin, o, moments[0]), moments[1..])
  }

  class Reader {
    var cursor: int
    var sent: seq<int>
    var closed: bool

    ghost function View(): Outcome
      reads this
    {
      Outcome(cursor, sent, closed)
    }

    constructor (after: int)
      ensures View() == Outcome(after, [], false)
    {
      cursor, sent, closed := after, [], false;
    }

    /** `list_public_events_after` */
    method ListAfter(log: seq<Event>, after: int) returns (batch: seq<int>)
      ensures batch == PublicIn(log, after, |log|)
    {
      batch := [];
      var i := 0;
      while i < |log|
        invariant 0 <= i <= |log|
        invariant batch == PublicIn(log, after, i)
      {
        if i > after && log[i].isPublic { batch := batch + [i]; }
        i := i + 1;
      }
    }

    method SendCatchup(log: seq<Event>, run: Run)
      requires !closed
      modifies this
      ensures View() == CatchUp(log, run, old(cursor), old(sent), PublicIn(log, old(cursor), |log|))
    {
      var batch := ListAfter(log, cursor);
      ghost var o := CatchUp(log, run, cursor, sent, batch);
      var i := 0;
      while i < |batch| && !closed
        invariant 0 <= i <= |batch|
        invariant if closed then View() == o else CatchUp(log, run, cursor, sent, batch[i..]) == o
      {
        assert batch[i..][1..] == batch[i + 1..];
        if batch[i] > cursor {
          cursor := batch[i];
          sent := sent + [cursor];
          closed := IsTerminal(log, cursor);
        }
        i := i + 1;
      }
      if !closed { closed := StatusEnds(run, cursor); }
    }

    /** The session loop: it closes at the first terminal catch-up. */
    method Serve(origin: Run, moments: seq<Moment>)
      modifies this
      ensures View() == ServeAll(origin, old(View()), moments)
    {
      ghost var o := View();
      var i := 0;
      while i < |moments| && !closed
        invariant 0 <= i <= |moments|
        invariant ServeAll(origin, o, moments) == ServeAll(origin, View(), moments[i..])
      {
        assert moments[i..][1..] == moments[i + 1..];
        SendCatchup(moments[i].log, RecordAt(moments[i], origin));
        i := i + 1;
      }
    }
  }

  /** The moments of one session list the same log, longer each time. */
  predicate Growing(log: seq<Event>, moments: seq<Moment>)
    decreases |moments|
  {
    moments == [] || (log <= moments[0].log && Growing(moments[0].log, moments[1..]))
  }

  function LastLog(log: seq<Event>, moments: seq<Moment>): seq<Event> {
    if moments == [] then log else moments[|moments| - 1].log
  }

  /** The client was sent exactly the public events from its own cursor to the session's. */
  predicate Delivers(log: seq<Event>, after: int, o: Outcome) {
    && after <= o.cursor && (o.cursor < |log| || o.cursor == after)
    && o.sent == PublicIn(log, after, o.cursor + 1)
  }

  /** Nothing of the log is left to send, unless the session closed. */
  predicate Complete(log: seq<Event>, o: Outcome) {
    o.terminal || PublicIn(log, o.cursor, |log|) == []
  }

  lemma DeliversOnGrown(log: seq<Event>, grown: seq<Event>, after: int, o: Outcome)
    requires Delivers(log, after, o) && log <= grown
    ensures Delivers(grown, after, o)
  {
    PublicInPrefix(log, grown, after, o.cursor + 1);
  }

  lemma ServeOneDelivers(origin: Run, after: int, o: Outcome, m: Moment)
    requires Delivers(m.log, after, o)
    ensures Delivers(m.log, after, ServeOne(origin, o, m)) && Complete(m.log, ServeOne(origin, o, m))
  {
    CatchUpDelivers(m.log, RecordAt(m, origin), after, o.cursor, o.sent, PublicIn(m.log, o.cursor, |m.log|));
  }

  /** Over a whole session the reader sends exactly the public events from the client's cursor
      to its own, in order and each once; it leaves no listed event behind unless it closed. */
  lemma {:induction false} ServeDelivers(origin: Run, after: int, log: seq<Event>, o: Outcome, moments: seq<Moment>)
    requires Growing(log, moments) && Delivers(log, after, o)
    requires moments == [] ==> Complete(log, o)
    ensures Delivers(LastLog(log, moments), after, ServeAll(origin, o, moments))
    ensures Complete(LastLog(log, moments), ServeAll(origin, o, moments))
    decreases |moments|
  {
    if o.terminal || moments == [] {
      GrowingLast(log, moments);
      DeliversOnGrown(log, LastLog(log, moments), after, o);
    } else {
      var m := moments[0];
      DeliversOnGrown(log, m.log, after, o);
      ServeOneDelivers(origin, after, o, m);
      assert LastLog(log, moments) == LastLog(m.log, moments[1..]);
      ServeDelivers(origin, after, m.log, ServeOne(origin, o, m), moments[1..]);
    }
  }

  lemma {:induction false} GrowingLast(log: seq<Event>, moments: seq<Moment>)
    requires Growing(log, moments)
    ensures log <= LastLog(log, moments)
    decreases |moments|
  {
    if moments == [] {
    } else {
      GrowingLast(moments[0].log, moments[1..]);
    }
  }

  // ---- when the reader closes ----

  /** A terminal event among the public ones past the client's cursor. */
  predicate ListsTerminal(log: seq<Event>, after: int) {
    exists x :: 0 <= x < |log| && after < x && log[x].isPublic && log[x].terminal
  }

  /** An ended record whose last event the reader has reached once it has sent what is listed: any,
      but for one without events and a client that asked for a cursor below -1 and is sent nothing. */
  predicate EndsAt(record: Run, log: seq<Event>, after: int) {
    record.ended && (record.latest >= 0 || after >= -1 || PublicIn(log, after, |log|) != [])
  }

  /** A reader in the middle of a catch-up that has met no terminal event. */
  predicate Ongoing(log: seq<Event>, after: int, cursor: int, sent: seq<int>) {
    && after <= cursor && sent == PublicIn(log, after, cursor + 1) && NoTerminal(log, sent)
    && (cursor == after || (sent != [] && sent[|sent| - 1] == cursor))
  }

  lemma DrainedStatus(log: seq<Event>, run: Run, after: int, cursor: int, sent: seq<int>)
    requires Ongoing(log, after, cursor, sent) && Marked(log, run) && PublicIn(log, cursor, |log|) == []
    ensures StatusEnds(run, cursor) <==> EndsAt(run, log, after)
  {
    DrainedReaches(log, cursor, run, |log|);
    if cursor > after {
      PublicInHolds(log, after, cursor + 1, cursor);
      PublicInHolds(log, after, |log|, cursor);
    }
  }

  lemma DrainedListsNone(log: seq<Event>, after: int, cursor: int, sent: seq<int>)
    requires Ongoing(log, after, cursor, sent) && PublicIn(log, cursor, |log|) == []
    ensures !ListsTerminal(log, after)
  {
    forall x | 0 <= x < |log| && after < x && log[x].isPublic ensures !log[x].terminal {
      PublicInHolds(log, cursor, |log|, x);
      PublicInHolds(log, after, cursor + 1, x);
      assert x in sent;
    }
  }

  lemma HeadTerminal(log: seq<Event>, after: int, cursor: int, sent: seq<int>)
    requires Ongoing(log, after, cursor, sent) && PublicIn(log, cursor, |log|) != []
    ensures var h := PublicIn(log, cursor, |log|)[0];
            if IsTerminal(log, h) then ListsTerminal(log, after) else Ongoing(log, after, h, sent + [h])
  {
    HeadSent(log, after, cursor);
    PublicInHead(log, cursor, |log|);
    var h := PublicIn(log, cursor, |log|)[0];
    if !IsTerminal(log, h) { assert NoTerminal(log, sent + [h]); }
  }

  /** A catch-up closes the session exactly when it lists a terminal event or the record it was given
      has ended and is reached. */
  lemma {:induction false} CatchUpCloses(log: seq<Event>, run: Run, after: int, cursor: int, sent: seq<int>, batch: seq<int>)
    requires Ongoing(log, after, cursor, sent) && Marked(log, run) && batch == PublicIn(log, cursor, |log|)
    ensures var o := CatchUp(log, run, cursor, sent, batch);
            && (o.terminal <==> ListsTerminal(log, after) || EndsAt(run, log, after))
            && (!o.terminal ==> Ongoing(log, after, o.cursor, o.sent))
    decreases |batch|
  {
    if batch == [] {
      DrainedStatus(log, run, after, cursor, sent);
      DrainedListsNone(log, after, cursor, sent);
    } else {
      HeadSent(log, after, cursor);
      HeadTerminal(log, after, cursor, sent);
      if !IsTerminal(log, batch[0]) { CatchUpCloses(log, run, after, batch[0], sent + [batch[0]], batch[1..]); }
    }
  }

  /** A wake-up closes the session: a terminal event is listed, or the record has ended that the second
      registry read found, else the first, else that of the subscription. */
  predicate Closes(origin: Run, after: int, m: Moment) {
    || ListsTerminal(m.log, after)
    || (m.inner.Some? && EndsAt(m.inner.value, m.log, after))
    || (m.inner.None? && m.outer.Some? && EndsAt(m.outer.value, m.log, after))
    || (m.inner.None? && m.outer.None? && EndsAt(origin, m.log, after))
  }

  /** The records a wake-up reads point into the log it lists. */
  predicate Sound(origin: Run, m: Moment) {
    && Marked(m.log, origin)
    && (m.inner.Some? ==> Marked(m.log, m.inner.value)) && (m.outer.Some? ==> Marked(m.log, m.outer.value))
  }

  lemma OngoingOnGrown(log: seq<Event>, grown: seq<Event>, after: int, cursor: int, sent: seq<int>)
    requires Ongoing(log, after, cursor, sent) && log <= grown
    ensures Ongoing(grown, after, cursor, sent)
  {
    if cursor == after {
      PublicInNothing(log, after, cursor + 1);
      PublicInNothing(grown, after, cursor + 1);
    } else {
      PublicInHolds(log, after, cursor + 1, cursor);
      PublicInPrefix(log, grown, after, cursor + 1);
    }
  }

  /** The reader closes exactly when one of its wake-ups does. */
  lemma {:induction false} ServeCloses(origin: Run, after: int, log: seq<Event>, o: Outcome, moments: seq<Moment>)
    requires !o.terminal && Ongoing(log, after, o.cursor, o.sent) && Growing(log, moments)
    requires forall k :: 0 <= k < |moments| ==> Sound(origin, moments[k])
    ensures ServeAll(origin, o, moments).terminal <==> exists k :: 0 <= k < |moments| && Closes(origin, after, moments[k])
    decreases |moments|
  {
    if moments == [] {
    } else {
      var m := moments[0];
      OngoingOnGrown(log, m.log, after, o.cursor, o.sent);
      CatchUpCloses(m.log, RecordAt(m, origin), after, o.cursor, o.sent, PublicIn(m.log, o.cursor, |m.log|));
      var next := ServeOne(origin, o, m);
      assert next.terminal <==> Closes(origin, after, m);
      if next.terminal {
        assert Closes(origin, after, moments[0]);
      } else {
        ServeCloses(origin, after, m.log, next, moments[1..]);
        LaterMoment(origin, after, moments);
      }
    }
  }

  lemma LaterMoment(origin: Run, after: int, moments: seq<Moment>)
    requires moments != [] && !Closes(origin, after, moments[0])
    ensures (exists k :: 0 <= k < |moments| && Closes(origin, after, moments[k]))
            <==> exists k :: 0 <= k < |moments[1..]| && Closes(origin, after, moments[1..][k])
  {
    if k :| 0 <= k < |moments| && Closes(origin, after, moments[k]) { assert moments[1..][k - 1] == moments[k]; }
    if k :| 0 <= k < |moments[1..]| && Closes(origin, after, moments[1..][k]) { assert moments[k + 1] == moments[1..][k]; }
  }

  /** A session, from its subscription on: it closes exactly when one of its wake-ups closes it. */
  lemma SessionCloses(origin: Run, after: int, moments: seq<Moment>)
    requires Growing([], moments) && forall k :: 0 <= k < |moments| ==> Sound(origin, moments[k])
    ensures ServeAll(origin, Outcome(after, [], false), moments).terminal
            <==> exists k :: 0 <= k < |moments| && Closes(origin, after, moments[k])
  {
    PublicInNothing([], after, after + 1);
    ServeCloses(origin, after, [], Outcome(after, [], false), moments);
  }
}
