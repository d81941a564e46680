/** Reconnecting to a live chat session with the last event id received. */
module LiveReconnect {
  import opened Common
  import opened EventIds
  import opened LiveSession
  import opened Text

  /** The cursor a client asks for with the id of the last event received, and no explicit one. */
  function ReconnectAfter(streamRunId: string, eventLogId: string, sent: seq<int>): int
    requires sent != []
  {
    ResolveSubscription(streamRunId, eventLogId, None, StreamEventId(streamRunId, eventLogId, sent[|sent| - 1]))
  }

  lemma ReconnectsAtLastSent(streamRunId: string, eventLogId: string, sent: seq<int>)
    requires streamRunId != "" && eventLogId != "" && !IsSpace(streamRunId[0])
    requires sent != [] && sent[|sent| - 1] >= 0
    ensures ReconnectAfter(streamRunId, eventLogId, sent) == sent[|sent| - 1]
  {
    StreamRoundTrip(streamRunId, eventLogId, sent[|sent| - 1]);
  }

  /** Cut a session anywhere after its first event and begin again at the last offset sent. */
  lemma ContinuesAtCursor(sub: Subscription, log: seq<Event>, run: Run, published: nat, steps: seq<Step>,
                          again: Subscription, grown: seq<Event>, run': Run, published': nat, steps': seq<Step>)
    requires ValidBegin(sub, log, run, published) && ValidBegin(again, grown, run', published')
    requires var s := Session(sub, Begin(sub, log, run, published), steps);
             s.log <= grown && s.sent != [] && again.after == s.sent[|s.sent| - 1]
    ensures var s := Session(sub, Begin(sub, log, run, published), steps);
            var t := Session(again, Begin(again, grown, run', published'), steps');
            s.sent + t.sent == PublicIn(t.log, sub.after, t.cursor + 1)
  {
    CursorReached(sub, log, run, published, steps);
    CursorReached(again, grown, run', published', steps');
    LogGrows(again, Begin(again, grown, run', published'), steps');
    var s := Session(sub, Begin(sub, log, run, published), steps);
    var t := Session(again, Begin(again, grown, run', published'), steps');
    assert s.log <= t.log;
    Rejoined(sub, s, again, t);
  }

  /** Lossless reconnect: cut a session anywhere after its first event and subscribe again, on
      the log as it has grown, with the id of the last event received. The two sessions together
      sent what one uninterrupted session would have. */
  lemma LosslessReconnect(streamRunId: string, eventLogId: string, sub: Subscription, log: seq<Event>, run: Run, published: nat,
                          steps: seq<Step>, again: Subscription, grown: seq<Event>, run': Run, published': nat, steps': seq<Step>)
    requires streamRunId != "" && eventLogId != "" && !IsSpace(streamRunId[0])
    requires ValidBegin(sub, log, run, published) && ValidBegin(again, grown, run', published')
    requires var s := Session(sub, Begin(sub, log, run, published), steps);
             s.log <= grown && s.sent != [] && again.after == ReconnectAfter(streamRunId, eventLogId, s.sent)
    ensures var s := Session(sub, Begin(sub, log, run, published), steps);
            var t := Session(again, Begin(again, grown, run', published'), steps');
            s.sent + t.sent == PublicIn(t.log, sub.after, t.cursor + 1)
  {
    CursorReached(sub, log, run, published, steps);
    ReconnectsAtLastSent(streamRunId, eventLogId, Session(sub, Begin(sub, log, run, published), steps).sent);
    ContinuesAtCursor(sub, log, run, published, steps, again, grown, run', published', steps');
  }

  lemma Rejoined(sub: Subscription, s: State, again: Subscription, t: State)
    requires s.log <= t.log && again.after == s.cursor
    requires sub.after <= s.cursor <= t.cursor && (s.cursor < |s.log| || s.cursor == sub.after)
    requires s.sent == PublicIn(s.log, sub.after, s.cursor + 1) && t.sent == PublicIn(t.log, again.after, t.cursor + 1)
    ensures s.sent + t.sent == PublicIn(t.log, sub.after, t.cursor + 1)
  {
    JoinedOffsets(s.log, t.log, sub.after, s.cursor, t.cursor);
  }

  lemma CursorReached(sub: Subscription, log: seq<Event>, run: Run, published: nat, steps: seq<Step>)
    requires ValidBegin(sub, log, run, published)
    ensures var s := Session(sub, Begin(sub, log, run, published), steps);
            && sub.after <= s.cursor && s.sent == PublicIn(s.log, sub.after, s.cursor + 1)
            && (s.cursor < |s.log| || s.cursor == sub.after)
            && (s.sent != [] ==> s.sent[|s.sent| - 1] == s.cursor && 0 <= s.cursor)
  {
    BeginKeeps(sub, log, run, published);
    SessionKeeps(sub, Begin(sub, log, run, published), steps);
    var s := Session(sub, Begin(sub, log, run, published), steps);
    PublicInNothing(s.log, sub.after, sub.after + 1);
    PublicInHolds(s.log, sub.after, s.cursor + 1, s.cursor);
  }
}
