/** The runtime-log tail: one snapshot, then a live phase over a bounded queue that drops its
    oldest entry, with gap detection and catch-up from a bounded window of the log.

    An event is its offset: the log is append-only and the frame carries the event logged
    there. A session is a sequence of atomic steps of the writer, the publisher and the
    reader, so quantifying over step sequences quantifies over interleavings. */
module RuntimeLogTail {
  import opened Common

  datatype Frame =
    | Snapshot(events: seq<int>, latest: int)
    | LogEvent(offset: int)
    | Gap(after: int, observed: int)
    | Heartbeat(latest: int)

  /** `limit` is the page size of the request. `tail` bounds what the log can return: 240
      events from its index, or the whole page when payloads are read from the file. */
  datatype Config = Config(limit: int, tail: int)

  predicate ValidConfig(cfg: Config) {
    1 <= cfg.limit <= 1000 && 1 <= cfg.tail
  }

  function QueueCapacity(cfg: Config): int {
    Max(100, cfg.limit)
  }

  datatype Phase = Subscribed | Live

  /** `end` events are in the log and `published` of them were handed to the subscriber's
      queue or had been before it subscribed. */
  datatype State = State(
    end: nat,
    published: nat,
    queue: seq<int>,
    phase: Phase,
    latest: int,
    frames: seq<Frame>)

  datatype Step = Append | Publish | TakeSnapshot | Wake | Timeout

  // ---- the log window ----

  function WindowSize(cfg: Config, requested: int): int {
    Min(Max(1, Min(requested, 1000)), cfg.tail)
  }

  /** `list_event_window`: the last events of the log, ascending. */
  function Window(cfg: Config, end: nat, requested: int): seq<int> {
    Range(Max(0, end - WindowSize(cfg, requested)), end)
  }

  function Filter(events: seq<int>, after: int): seq<int> {
    if events == [] then []
    else Filter(events[..|events| - 1], after) + (if events[|events| - 1] > after then [events[|events| - 1]] else [])
  }

  function EventsAfter(cfg: Config, end: nat, after: int, requested: int): seq<int> {
    Filter(Window(cfg, end, requested), after)
  }

  lemma {:induction false} FilterRange(lo: int, hi: int, after: int)
    ensures Filter(Range(lo, hi), after) == Range(Max(lo, after + 1), hi)
    decreases hi - lo
  {
    if hi <= lo {
    } else {
      var r := Range(lo, hi);
      RangeExtend(lo, hi - 1);
      assert r[..|r| - 1] == Range(lo, hi - 1);
      FilterRange(lo, hi - 1, after);
      if hi - 1 > after { RangeExtend(Max(lo, after + 1), hi - 1); }
    }
  }

  /** The first offset such a read returns, if it returns any: past the cursor, and among the last
      events of the log, as many as were asked for, at least one, at most a thousand and at most
      what the log can return. */
  function FirstReturned(cfg: Config, end: nat, after: int, requested: int): int {
    Max(Max(0, end - Min(cfg.tail, Max(1, Min(1000, requested)))), after + 1)
  }

  lemma EventsAfterRange(cfg: Config, end: nat, after: int, requested: int)
    ensures EventsAfter(cfg, end, after, requested) == Range(FirstReturned(cfg, end, after, requested), end)
  {
    WindowIs(cfg, requested);
    FilterRange(Max(0, end - WindowSize(cfg, requested)), end, after);
  }

  lemma WindowIs(cfg: Config, requested: int)
    ensures WindowSize(cfg, requested) == Min(cfg.tail, Max(1, Min(1000, requested)))
  {
  }

  // ---- steps ----

  function EventFrames(offsets: seq<int>): seq<Frame> {
    if offsets == [] then [] else [LogEvent(offsets[0])] + EventFrames(offsets[1..])
  }

  /** The reaction to one queued event: the frames sent and the new cursor. */
  function Receive(cfg: Config, end: nat, latest: int, offset: int): (seq<Frame>, int) {
    if offset <= latest then ([], latest)
    else if offset > latest + 1 then
      var catchup := EventsAfter(cfg, end, latest, Max(cfg.limit, offset - latest));
      if catchup != [] && catchup[0] == latest + 1
      then (EventFrames(catchup), catchup[|catchup| - 1])
      else ([Gap(latest, offset), LogEvent(offset)], offset)
    else ([LogEvent(offset)], offset)
  }

  function Snapshotted(cfg: Config, s: State): State {
    var replay := EventsAfter(cfg, s.end, s.latest, cfg.limit);
    var latest := if replay == [] then s.latest else Max(s.latest, replay[|replay| - 1]);
    s.(phase := Live, latest := latest, frames := s.frames + [Snapshot(replay, latest)])
  }

  /** One step; a step that is not enabled changes nothing. */
  function Next(cfg: Config, s: State, step: Step): State {
    match step
    case Append => s.(end := s.end + 1)
    case Publish =>
      if s.published < s.end
      then s.(queue := PutDropOldest(s.queue, s.published, QueueCapacity(cfg)), published := s.published + 1)
      else s
    case TakeSnapshot => if s.phase.Subscribed? then Snapshotted(cfg, s) else s
    case Wake =>
      if s.phase.Live? && s.queue != [] then
        var (frames, latest) := Receive(cfg, s.end, s.latest, s.queue[0]);
        s.(queue := s.queue[1..], latest := latest, frames := s.frames + frames)
      else s
    case Timeout => if s.phase.Live? && s.queue == [] then s.(frames := s.frames + [Heartbeat(s.latest)]) else s
  }

  function Session(cfg: Config, s: State, steps: seq<Step>): State
    decreases |steps|
  {
    if steps == [] then s else Session(cfg, Next(cfg, s, steps[0]), steps[1..])
  }

  /** A reader that has just subscribed with a cursor; events appended earlier may still be
      on their way to it. */
  function Begin(end: nat, published: nat, after: int): State {
    State(end, published, [], Subscribed, after, [])
  }

  // ---- the queue ----

  /** The subscriber's queue holds the latest published events, at most a hundred or a page. */
  predicate QueueRecent(cfg: Config, s: State) {
    |s.queue| <= Max(100, cfg.limit) && |s.queue| <= s.published && s.queue == Range(s.published - |s.queue|, s.published)
  }

  lemma NextRecent(cfg: Config, s: State, step: Step)
    requires ValidConfig(cfg) && QueueRecent(cfg, s)
    ensures QueueRecent(cfg, Next(cfg, s, step))
    ensures step.Publish? && s.published < s.end ==>
              |Next(cfg, s, step).queue| == Min(|s.queue| + 1, Max(100, cfg.limit))
  {
    if step.Publish? && s.published < s.end {
      RangeExtend(s.published - |s.queue|, s.published);
      if |s.queue| >= QueueCapacity(cfg) { assert s.queue[1..] == Range(s.published - |s.queue| + 1, s.published); }
    }
  }

  /** What the queue drops: in every session it holds the events published last, and a publication
      drops the oldest of them exactly when it holds as many as a page, or a hundred. */
  lemma {:induction false} QueueDropsOldest(cfg: Config, s: State, steps: seq<Step>)
    requires ValidConfig(cfg) && QueueRecent(cfg, s)
    ensures var t := Session(cfg, s, steps);
            && QueueRecent(cfg, t)
            && (t.published < t.end ==> |Next(cfg, t, Publish).queue| == Min(|t.queue| + 1, Max(100, cfg.limit)))
    decreases |steps|
  {
    if steps == [] {
      NextRecent(cfg, s, Publish);
    } else {
      NextRecent(cfg, s, steps[0]);
      QueueDropsOldest(cfg, Next(cfg, s, steps[0]), steps[1..]);
    }
  }

  // ---- gap exactness ----

  /** A jump to `offset` sends an unrecovered gap exactly when the log holds more events past
      the cursor than can be read back: a page or the jump, whichever is larger, up to a thousand
      and what the log can return; otherwise every event from the cursor to the end of the log is
      sent, in order. */
  lemma GapExactness(cfg: Config, end: nat, latest: int, offset: int)
    requires ValidConfig(cfg) && -1 <= latest && latest + 1 < offset < end
    ensures var w := Min(cfg.tail, Min(1000, Max(cfg.limit, offset - latest)));
            Receive(cfg, end, latest, offset) ==
              if end - 1 - latest > w then ([Gap(latest, offset), LogEvent(offset)], offset)
              else (EventFrames(Range(latest + 1, end)), end - 1)
  {
    var requested := Max(cfg.limit, offset - latest);
    EventsAfterRange(cfg, end, latest, requested);
    assert FirstReturned(cfg, end, latest, requested) == latest + 1 <==> end - 1 - latest <= WindowSize(cfg, requested);
  }

  // ---- well-formed frame sequences ----

  /** The cursor a client holds after these frames. */
  function Cursor(frames: seq<Frame>): int {
    if frames == [] then -1
    else
      match frames[|frames| - 1]
      case Snapshot(_, latest) => latest
      case LogEvent(offset) => offset
      case Gap(_, observed) => observed
      case Heartbeat(latest) => latest
  }

  predicate EndsInGap(frames: seq<Frame>) {
    frames != [] && frames[|frames| - 1].Gap?
  }

  /** May the frame follow? Events continue the cursor or resolve the gap just announced; a gap
      starts at the cursor and leaves something out. */
  predicate Continues(frames: seq<Frame>, f: Frame) {
    match f
    case Snapshot(events, latest) => frames == [] && events == Range(latest + 1 - |events|, latest + 1)
    case LogEvent(offset) => frames != [] && offset == Cursor(frames) + (if EndsInGap(frames) then 0 else 1)
    case Gap(after, observed) => frames != [] && !EndsInGap(frames) && after == Cursor(frames) && after + 1 < observed
    case Heartbeat(latest) => frames != [] && !EndsInGap(frames) && latest == Cursor(frames)
  }

  predicate WellTraced(frames: seq<Frame>) {
    frames == [] || (WellTraced(frames[..|frames| - 1]) && Continues(frames[..|frames| - 1], frames[|frames| - 1]))
  }

  lemma WellTracedAppend(frames: seq<Frame>, f: Frame)
    requires WellTraced(frames) && Continues(frames, f)
    ensures WellTraced(frames + [f]) && frames + [f] != []
  {
    assert (frames + [f])[..|frames|] == frames;
  }

  lemma EventFramesHead(frames: seq<Frame>, lo: int, hi: int)
    requires lo < hi
    ensures frames + EventFrames(Range(lo, hi)) == frames + [LogEvent(lo)] + EventFrames(Range(lo + 1, hi))
  {
    assert Range(lo, hi)[1..] == Range(lo + 1, hi);
  }

  lemma {:induction false} WellTracedEvents(frames: seq<Frame>, lo: int, hi: int)
    requires WellTraced(frames) && frames != [] && !EndsInGap(frames) && Cursor(frames) == lo - 1 && lo <= hi
    ensures var r := frames + EventFrames(Range(lo, hi));
            WellTraced(r) && r != [] && Cursor(r) == hi - 1 && !EndsInGap(r)
    decreases hi - lo
  {
    if lo == hi {
      assert frames + EventFrames(Range(lo, hi)) == frames;
    } else {
      WellTracedAppend(frames, LogEvent(lo));
      EventFramesHead(frames, lo, hi);
      WellTracedEvents(frames + [LogEvent(lo)], lo + 1, hi);
    }
  }

  /** The invariant of a session. */
  predicate SessionInv(s: State) {
    && s.published <= s.end
    && (forall i :: 0 <= i < |s.queue| ==> 0 <= s.queue[i] < s.published)
    && WellTraced(s.frames) && !EndsInGap(s.frames)
    && (s.phase.Subscribed? <==> s.frames == [])
    && (s.phase.Live? ==> s.latest == Cursor(s.frames))
    && (s.queue != [] ==> s.queue[|s.queue| - 1] == s.published - 1)
    && (s.phase.Live? && s.queue == [] && s.published > 0 ==> s.published - 1 <= s.latest)
  }

  lemma SnapshotKeeps(cfg: Config, s: State)
    requires ValidConfig(cfg) && SessionInv(s) && s.phase.Subscribed?
    ensures SessionInv(Snapshotted(cfg, s))
    ensures s.end > 0 ==> s.end - 1 <= Snapshotted(cfg, s).latest
  {
    EventsAfterRange(cfg, s.end, s.latest, cfg.limit);
    var replay := EventsAfter(cfg, s.end, s.latest, cfg.limit);
    var t := Snapshotted(cfg, s);
    if replay == [] {
      assert s.end <= FirstReturned(cfg, s.end, s.latest, cfg.limit);
    } else {
      assert t.latest == s.end - 1;
    }
    assert replay == Range(t.latest + 1 - |replay|, t.latest + 1);
    WellTracedAppend(s.frames, Snapshot(replay, t.latest));
  }

  lemma ReceiveKeeps(cfg: Config, frames: seq<Frame>, end: nat, latest: int, offset: int)
    requires ValidConfig(cfg) && 0 <= offset < end
    requires WellTraced(frames) && frames != [] && !EndsInGap(frames) && Cursor(frames) == latest
    ensures var (sent, cursor) := Receive(cfg, end, latest, offset);
            && WellTraced(frames + sent) && frames + sent != [] && !EndsInGap(frames + sent)
            && Cursor(frames + sent) == cursor
            && latest <= cursor && offset <= cursor
  {
    if offset <= latest {
      assert frames + [] == frames;
    } else if offset == latest + 1 {
      WellTracedAppend(frames, LogEvent(offset));
    } else {
      var catchup := EventsAfter(cfg, end, latest, Max(cfg.limit, offset - latest));
      EventsAfterRange(cfg, end, latest, Max(cfg.limit, offset - latest));
      if catchup != [] && catchup[0] == latest + 1 {
        assert catchup == Range(latest + 1, end);
        WellTracedEvents(frames, latest + 1, end);
      } else {
        WellTracedGap(frames, latest, offset);
      }
    }
  }

  lemma WellTracedGap(frames: seq<Frame>, latest: int, offset: int)
    requires WellTraced(frames) && frames != [] && !EndsInGap(frames) && Cursor(frames) == latest && latest + 1 < offset
    ensures var r := frames + [Gap(latest, offset), LogEvent(offset)];
            WellTraced(r) && r != [] && !EndsInGap(r) && Cursor(r) == offset
  {
    WellTracedAppend(frames, Gap(latest, offset));
    WellTracedAppend(frames + [Gap(latest, offset)], LogEvent(offset));
    assert frames + [Gap(latest, offset)] + [LogEvent(offset)] == frames + [Gap(latest, offset), LogEvent(offset)];
  }

  lemma WakeKeeps(cfg: Config, s: State)
    requires ValidConfig(cfg) && SessionInv(s)
    ensures SessionInv(Next(cfg, s, Wake))
  {
    if s.phase.Live? && s.queue != [] { ReceiveKeeps(cfg, s.frames, s.end, s.latest, s.queue[0]); }
  }

  lemma TimeoutKeeps(cfg: Config, s: State)
    requires ValidConfig(cfg) && SessionInv(s)
    ensures SessionInv(Next(cfg, s, Timeout))
  {
    if s.phase.Live? && s.queue == [] { WellTracedAppend(s.frames, Heartbeat(s.latest)); }
  }

  lemma {:induction false} SessionKeeps(cfg: Config, s: State, steps: seq<Step>)
    requires ValidConfig(cfg) && SessionInv(s)
    ensures SessionInv(Session(cfg, s, steps))
    decreases |steps|
  {
    if steps == [] {
    } else {
      match steps[0] {
        case TakeSnapshot => if s.phase.Subscribed? { SnapshotKeeps(cfg, s); }
        case Wake => WakeKeeps(cfg, s);
        case Timeout => TimeoutKeeps(cfg, s);
        case Append =>
        case Publish =>
      }
      SessionKeeps(cfg, Next(cfg, s, steps[0]), steps[1..]);
    }
  }

  // ---- conservation ----

  /** The offsets a client was sent, snapshot included. */
  function Delivered(frames: seq<Frame>): seq<int> {
    if frames == [] then []
    else
      Delivered(frames[..|frames| - 1]) +
      match frames[|frames| - 1]
      case Snapshot(events, _) => events
      case LogEvent(offset) => [offset]
      case Gap(_, _) => []
      case Heartbeat(_) => []
  }

  /** Is the offset inside the open range of an announced gap? */
  predicate InGap(frames: seq<Frame>, x: int) {
    exists i :: 0 <= i < |frames| && frames[i].Gap? && frames[i].after < x < frames[i].observed
  }

  /** The cursor below the first snapshot event. */
  function Base(frames: seq<Frame>): int
    requires WellTraced(frames) && frames != []
  {
    FirstIsSnapshot(frames);
    frames[0].latest - |frames[0].events|
  }

  lemma {:induction false} FirstIsSnapshot(frames: seq<Frame>)
    requires WellTraced(frames) && frames != []
    ensures frames[0].Snapshot?
    decreases |frames|
  {
    if |frames| == 1 {
    } else {
      FirstIsSnapshot(frames[..|frames| - 1]);
    }
  }

  /** Offset x is past the base and at most the cursor exactly when it was delivered, lies in an
      announced gap, or is the event an announced gap is about to send; never two of these. */
  predicate Accounted(frames: seq<Frame>, x: int)
    requires WellTraced(frames) && frames != []
  {
    var delivered, gap, pending := x in Delivered(frames), InGap(frames, x), EndsInGap(frames) && x == Cursor(frames);
    && (Base(frames) < x <= Cursor(frames) <==> delivered || gap || pending)
    && !(delivered && gap) && !(delivered && pending) && !(gap && pending)
  }

  lemma InGapAppend(frames: seq<Frame>, f: Frame, x: int)
    ensures InGap(frames + [f], x) <==> InGap(frames, x) || (f.Gap? && f.after < x < f.observed)
  {
    var r := frames + [f];
    if InGap(frames, x) {
      var i :| 0 <= i < |frames| && frames[i].Gap? && frames[i].after < x < frames[i].observed;
      assert r[i] == frames[i];
    }
    if f.Gap? && f.after < x < f.observed { assert r[|frames|] == f; }
  }

  lemma {:induction false} AllAccounted(frames: seq<Frame>, x: int)
    requires WellTraced(frames) && frames != []
    ensures Accounted(frames, x) && Base(frames) <= Cursor(frames)
    decreases |frames|
  {
    var front, last := frames[..|frames| - 1], frames[|frames| - 1];
    assert frames == front + [last];
    InGapAppend(front, last, x);
    if front == [] {
      FirstAccounted(last, x);
    } else {
      AllAccounted(front, x);
      assert Base(frames) == Base(front);
    }
  }

  lemma FirstAccounted(first: Frame, x: int)
    requires WellTraced([first])
    ensures Accounted([first], x) && Base([first]) <= Cursor([first])
  {
    assert [first][..0] == [] && Delivered([first]) == first.events && !InGap([first], x);
    RangeHas(first.latest + 1 - |first.events|, first.latest + 1, x);
  }

  lemma {:induction false} DeliveredAscends(frames: seq<Frame>)
    requires WellTraced(frames)
    ensures Ascending(Delivered(frames))
    ensures forall i :: 0 <= i < |Delivered(frames)| ==> Delivered(frames)[i] <= Cursor(frames)
    ensures EndsInGap(frames) ==> forall i :: 0 <= i < |Delivered(frames)| ==> Delivered(frames)[i] < Cursor(frames)
    decreases |frames|
  {
    if frames == [] {
    } else {
      DeliveredAscends(frames[..|frames| - 1]);
    }
  }

  // ---- the base is what was asked for ----

  /** The base of a session that asked for the events past `after` and whose snapshot reached
      `latest`: the cursor asked for, unless the window does not reach back to it. */
  function BaseFor(cfg: Config, after: int, latest: int): int {
    if latest < 0 then after else Max(after, Max(-1, latest - Min(cfg.tail, cfg.limit)))
  }

  predicate BaseInv(cfg: Config, after: int, s: State) {
    if s.frames == [] then s.latest == after
    else
      WellTraced(s.frames) && s.frames[0].Snapshot? && after <= s.frames[0].latest
      && Base(s.frames) == BaseFor(cfg, after, s.frames[0].latest)
  }

  lemma SnapshotBase(cfg: Config, s: State)
    requires ValidConfig(cfg) && SessionInv(s) && s.phase.Subscribed?
    ensures var t := Snapshotted(cfg, s);
            && BaseInv(cfg, s.latest, t) && t.frames != []
            && t.frames[0].latest == if s.end > 0 then Max(s.latest, s.end - 1) else s.latest
  {
    SnapshotKeeps(cfg, s);
    EventsAfterRange(cfg, s.end, s.latest, cfg.limit);
    assert Snapshotted(cfg, s).frames == [Snapshotted(cfg, s).frames[0]];
  }

  /** The first frame stays. */
  lemma FirstStays(cfg: Config, s: State, step: Step)
    requires SessionInv(s) && s.frames != []
    ensures Next(cfg, s, step).frames != [] && Next(cfg, s, step).frames[0] == s.frames[0]
  {
  }

  lemma {:induction false} BaseKept(cfg: Config, after: int, s: State, steps: seq<Step>)
    requires ValidConfig(cfg) && SessionInv(s) && BaseInv(cfg, after, s)
    ensures SessionInv(Session(cfg, s, steps)) && BaseInv(cfg, after, Session(cfg, s, steps))
    ensures s.frames != [] ==> Session(cfg, s, steps).frames != [] && Session(cfg, s, steps).frames[0] == s.frames[0]
    decreases |steps|
  {
    if steps == [] {
    } else {
      var t := Next(cfg, s, steps[0]);
      StepKeeps(cfg, s, steps[0]);
      if s.frames != [] {
        FirstStays(cfg, s, steps[0]);
      } else if t.frames != [] {
        SnapshotBase(cfg, s);
      }
      BaseKept(cfg, after, t, steps[1..]);
    }
  }

  lemma StepKeeps(cfg: Config, s: State, step: Step)
    requires ValidConfig(cfg) && SessionInv(s)
    ensures SessionInv(Next(cfg, s, step))
  {
    SessionKeeps(cfg, s, [step]);
    assert Session(cfg, s, [step]) == Session(cfg, Next(cfg, s, step), []);
  }

  /** Tail conservation: in every reachable live state, whatever the queue dropped, delivered
      offsets strictly increase, and for every x: x lies between the base and the cursor exactly
      when it was delivered or lies in the open range of an announced gap, never both. The base is
      the cursor asked for, or the start of the snapshot's window when that lies further on. */
  lemma TailConservation(cfg: Config, end: nat, published: nat, after: int, steps: seq<Step>, x: int)
    requires ValidConfig(cfg) && published <= end
    requires Session(cfg, Begin(end, published, after), steps).phase.Live?
    ensures var s := Session(cfg, Begin(end, published, after), steps);
            && WellTraced(s.frames) && s.frames != [] && s.latest == Cursor(s.frames)
            && s.frames[0].Snapshot? && Base(s.frames) == BaseFor(cfg, after, s.frames[0].latest)
            && Ascending(Delivered(s.frames))
            && (Base(s.frames) < x <= s.latest <==> x in Delivered(s.frames) || InGap(s.frames, x))
            && !(x in Delivered(s.frames) && InGap(s.frames, x))
  {
    BaseKept(cfg, after, Begin(end, published, after), steps);
    var s := Session(cfg, Begin(end, published, after), steps);
    DeliveredAscends(s.frames);
    AllAccounted(s.frames, x);
  }

  /** What the snapshot skips, with E the end of the log it read: nothing past the cursor asked
      for if and only if the backlog E - 1 - after fits a page and what the log can return;
      otherwise everything up to the start of that window. */
  lemma SnapshotSkips(cfg: Config, end: nat, published: nat, after: int, before: seq<Step>, later: seq<Step>)
    requires ValidConfig(cfg) && published <= end && after >= -1
    requires Session(cfg, Begin(end, published, after), before).phase.Subscribed?
    ensures var atEnd := Session(cfg, Begin(end, published, after), before).end;
            var s := Session(cfg, Begin(end, published, after), before + [TakeSnapshot] + later);
            && WellTraced(s.frames) && s.frames != []
            && (Base(s.frames) == after <==> atEnd - 1 - after <= Min(cfg.tail, cfg.limit))
            && (Base(s.frames) != after ==> Base(s.frames) == atEnd - 1 - Min(cfg.tail, cfg.limit))
  {
    var b := Begin(end, published, after);
    BaseKept(cfg, after, b, before);
    var u := Session(cfg, b, before);
    SessionJoins(cfg, b, before, [TakeSnapshot] + later);
    assert before + [TakeSnapshot] + later == before + ([TakeSnapshot] + later);
    assert ([TakeSnapshot] + later)[1..] == later;
    SnapshotBase(cfg, u);
    SnapshotKeeps(cfg, u);
    BaseKept(cfg, after, Snapshotted(cfg, u), later);
  }

  lemma {:induction false} SessionJoins(cfg: Config, s: State, xs: seq<Step>, ys: seq<Step>)
    ensures Session(cfg, s, xs + ys) == Session(cfg, Session(cfg, s, xs), ys)
    decreases |xs|
  {
    if xs == [] {
      assert xs + ys == ys;
    } else {
      SessionJoins(cfg, Next(cfg, s, xs[0]), xs[1..], ys);
      assert (xs + ys)[1..] == xs[1..] + ys;
    }
  }

  /** How many of the steps are of this kind. */
  function CountOf(steps: seq<Step>, kind: Step): nat
    decreases |steps|
  {
    if steps == [] then 0 else (if steps[0] == kind then 1 else 0) + CountOf(steps[1..], kind)
  }

  /** The log grows by one event with each append and with nothing else; publication never passes it. */
  lemma {:induction false} LogGrowsByAppends(cfg: Config, s: State, steps: seq<Step>)
    requires s.published <= s.end
    ensures var t := Session(cfg, s, steps);
            t.end == s.end + CountOf(steps, Append) && s.published <= t.published <= t.end
    decreases |steps|
  {
    if steps == [] {
    } else {
      LogGrowsByAppends(cfg, Next(cfg, s, steps[0]), steps[1..]);
    }
  }

  /** A live reader takes one queued event each time it wakes, and reaches it at least: as many
      wake-ups as there are queued events, among whatever appends, empty its queue and bring it to the
      last event published. */
  lemma {:induction false} WakesDrain(cfg: Config, s: State, steps: seq<Step>)
    requires ValidConfig(cfg) && SessionInv(s) && s.phase.Live? && forall i :: 0 <= i < |steps| ==> steps[i] in {Wake, Append}
    requires CountOf(steps, Wake) >= |s.queue|
    ensures var t := Session(cfg, s, steps);
            t.queue == [] && t.published == s.published && (s.published > 0 ==> s.published - 1 <= t.latest)
    decreases |steps|
  {
    if steps == [] {
    } else {
      StepKeeps(cfg, s, steps[0]);
      WakesDrain(cfg, Next(cfg, s, steps[0]), steps[1..]);
    }
  }

  /** A timeout sends a heartbeat with the cursor exactly when the reader is live and has nothing queued. */
  lemma HeartbeatsWhenIdle(cfg: Config, end: nat, published: nat, after: int, steps: seq<Step>)
    requires ValidConfig(cfg) && published <= end
    ensures var s := Session(cfg, Begin(end, published, after), steps);
            var idle := s.frames != [] && s.queue == [];
            Next(cfg, s, Timeout).frames == s.frames + (if idle then [Heartbeat(Cursor(s.frames))] else [])
  {
    SessionKeeps(cfg, Begin(end, published, after), steps);
  }

  /** No event is left behind: a live reader with an empty queue, once every appended event was
      published, has its cursor at the end of the log. */
  lemma TailCatchesUp(cfg: Config, end: nat, published: nat, after: int, steps: seq<Step>)
    requires ValidConfig(cfg) && published <= end
    ensures var s := Session(cfg, Begin(end, published, after), steps);
            s.phase.Live? && s.queue == [] && s.published == s.end > 0 ==> s.end - 1 <= s.latest
  {
    SessionKeeps(cfg, Begin(end, published, after), steps);
  }
}
