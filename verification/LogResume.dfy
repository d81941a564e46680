/** Reconnecting to a runtime log with the last received event id (section 9.2 of the WHATWG
    HTML Living Standard, server-sent events): what the joined sessions deliver. */
module LogResume {
  import opened Common
  import opened EventIds
  import opened RuntimeLogTail

  /** The id line of a frame; heartbeats and the snapshot of an empty cursor carry none. */
  function FrameId(scope: string, runId: string, f: Frame): string {
    match f
    case Snapshot(_, latest) => if latest >= 0 then EventId(scope, runId, latest) else ""
    case LogEvent(offset) => EventId(scope, runId, offset)
    case Gap(_, observed) => EventId(scope, runId, observed)
    case Heartbeat(_) => ""
  }

  /** The last event id of a client: frames without an id leave it as it was. */
  function LastEventId(scope: string, runId: string, frames: seq<Frame>): string {
    if frames == [] then ""
    else
      var id := FrameId(scope, runId, frames[|frames| - 1]);
      if id != "" then id else LastEventId(scope, runId, frames[..|frames| - 1])
  }

  /** Whatever the client received, its last event id resumes at the cursor of its frames. */
  lemma {:induction false} ResumesAtCursor(scope: string, runId: string, frames: seq<Frame>)
    requires WellTraced(frames) && (frames != [] ==> Base(frames) >= -1)
    ensures ResolveAfter(scope, runId, None, LastEventId(scope, runId, frames)) == Cursor(frames)
    ensures Cursor(frames) >= -1
    decreases |frames|
  {
    if frames == [] {
    } else {
      var front, last := frames[..|frames| - 1], frames[|frames| - 1];
      AllAccounted(frames, 0);
      if front != [] {
        assert Base(front) == Base(frames);
        ResumesAtCursor(scope, runId, front);
      }
      match last
      case Snapshot(_, latest) => if latest >= 0 { RoundTrip(scope, runId, latest); }
      case LogEvent(offset) => RoundTrip(scope, runId, offset);
      case Gap(_, observed) => RoundTrip(scope, runId, observed);
      case Heartbeat(_) => assert LastEventId(scope, runId, frames) == LastEventId(scope, runId, front);
    }
    NothingToResume(scope, runId);
  }

  lemma NothingToResume(scope: string, runId: string)
    ensures ResolveAfter(scope, runId, None, "") == -1
  {
  }

  /** A prefix of what a session sends is again well traced: the client may be cut anywhere. */
  lemma {:induction false} CutAnywhere(frames: seq<Frame>, k: nat)
    requires WellTraced(frames) && k <= |frames|
    ensures WellTraced(frames[..k])
    decreases |frames|
  {
    if k == |frames| {
      assert frames[..k] == frames;
    } else {
      CutAnywhere(frames[..|frames| - 1], k);
      assert frames[..|frames| - 1][..k] == frames[..k];
    }
  }

  lemma BaseOfCut(frames: seq<Frame>, k: nat)
    requires WellTraced(frames) && 0 < k <= |frames|
    ensures WellTraced(frames[..k]) && Base(frames[..k]) == Base(frames)
  {
    CutAnywhere(frames, k);
  }

  /** What a client holds after a cut: its first session up to some frame, and a second session. */
  predicate Joined(received: seq<Frame>, resumed: seq<Frame>) {
    && WellTraced(received) && received != [] && WellTraced(resumed) && resumed != []
    && !EndsInGap(resumed) && Cursor(received) <= Base(resumed)
  }

  /** Of the offsets past the first base, exactly these are neither delivered nor announced: the
      event a gap frame was about to send at the cut, and what the second snapshot skipped. */
  predicate Lost(received: seq<Frame>, resumed: seq<Frame>, x: int)
    requires Joined(received, resumed)
  {
    (EndsInGap(received) && x == Cursor(received)) || Cursor(received) < x <= Base(resumed)
  }

  lemma JoinedAccount(received: seq<Frame>, resumed: seq<Frame>, x: int)
    requires Joined(received, resumed)
    ensures Ascending(Delivered(received) + Delivered(resumed))
    ensures var delivered := x in Delivered(received) + Delivered(resumed);
            var announced := InGap(received, x) || InGap(resumed, x);
            && (Base(received) < x <= Cursor(resumed) ==> (delivered || announced <==> !Lost(received, resumed, x)))
            && !(delivered && announced)
  {
    DeliveredAscends(received);
    DeliveredAscends(resumed);
    AllAccounted(received, x);
    AllAccounted(resumed, x);
    DeliveredPastBase(resumed);
    assert x in Delivered(received) + Delivered(resumed) <==> x in Delivered(received) || x in Delivered(resumed);
  }

  lemma DeliveredPastBase(frames: seq<Frame>)
    requires WellTraced(frames) && frames != []
    ensures forall i :: 0 <= i < |Delivered(frames)| ==> Base(frames) < Delivered(frames)[i]
  {
    forall i | 0 <= i < |Delivered(frames)| ensures Base(frames) < Delivered(frames)[i] {
      AllAccounted(frames, Delivered(frames)[i]);
    }
  }

  /** Lossless resume, for any two sessions. The first began without an explicit cursor and is cut
      after any of its frames; the client reconnects with its last event id, and the second session
      runs on as it likes. Then delivered offsets increase across the cut, and every offset from
      the first base to the final cursor is delivered or announced as a gap, never both, except the
      event that an unrecovered gap frame was about to send when the cut fell behind it, and a
      backlog that the second snapshot's window did not reach. The latter is empty if and only if
      the backlog fits the window. */
  lemma LosslessResume(cfg: Config, scope: string, runId: string, lastId: string, end: nat, published: nat,
                       steps: seq<Step>, k: nat, end': nat, published': nat, steps': seq<Step>, x: int)
    requires ValidConfig(cfg) && published <= end && published' <= end'
    requires 0 < k <= |Session(cfg, Begin(end, published, ResolveAfter(scope, runId, None, lastId)), steps).frames|
    requires var s := Session(cfg, Begin(end, published, ResolveAfter(scope, runId, None, lastId)), steps);
             Session(cfg, Begin(end', published', ResolveAfter(scope, runId, None, LastEventId(scope, runId, s.frames[..k]))), steps').phase.Live?
    ensures var s := Session(cfg, Begin(end, published, ResolveAfter(scope, runId, None, lastId)), steps);
            var received := s.frames[..k];
            var t := Session(cfg, Begin(end', published', ResolveAfter(scope, runId, None, LastEventId(scope, runId, received))), steps');
            && Joined(received, t.frames) && t.frames[0].Snapshot?
            && (Base(t.frames) == Cursor(received) <==> t.frames[0].latest - Cursor(received) <= Min(cfg.tail, cfg.limit))
            && Ascending(Delivered(received) + Delivered(t.frames))
            && (Base(received) < x <= Cursor(t.frames) ==>
                  (x in Delivered(received) + Delivered(t.frames) || InGap(received, x) || InGap(t.frames, x)
                   <==> !Lost(received, t.frames, x)))
            && !(x in Delivered(received) + Delivered(t.frames) && (InGap(received, x) || InGap(t.frames, x)))
  {
    var after := ResolveAfter(scope, runId, None, lastId);
    var s := Session(cfg, Begin(end, published, after), steps);
    BaseKept(cfg, after, Begin(end, published, after), steps);
    BaseOfCut(s.frames, k);
    ResumesAtCursor(scope, runId, s.frames[..k]);
    var again := Begin(end', published', Cursor(s.frames[..k]));
    BaseKept(cfg, Cursor(s.frames[..k]), again, steps');
    JoinedAccount(s.frames[..k], Session(cfg, again, steps').frames, x);
  }
}
