/** `_stream_runtime_log_events` as the generator runs it: a cursor it moves, a queue it drains
    and frames it yields, beside the log it reads. Each method is proved against the function of
    the same meaning in `RuntimeLogTail`, where the session's properties are proved. */
module LogTailStream {
  import opened Common
  import opened RuntimeLogTail

  class TailStream {
    const cfg: Config
    // the log and the subscription
    var end: nat
    var published: nat
    var queue: seq<int>
    // the generator
    var phase: Phase
    var latest: int
    var frames: seq<Frame>

    ghost function View(): State
      reads this
    {
      State(end, published, queue, phase, latest, frames)
    }

    constructor (cfg: Config, end: nat, published: nat, after: int)
      ensures View() == Begin(end, published, after) && this.cfg == cfg
    {
      this.cfg, this.end, this.published := cfg, end, published;
      queue, phase, latest, frames := [], Subscribed, after, [];
    }

    /** `_runtime_log_events_after`: the window, filtered by the cursor. */
    method EventsAfter(after: int, requested: int) returns (events: seq<int>)
      ensures events == RuntimeLogTail.EventsAfter(cfg, end, after, requested)
      ensures events == Range(FirstReturned(cfg, end, after, requested), end)
    {
      EventsAfterRange(cfg, end, after, requested);
      var window := Window(cfg, end, requested);
      events := [];
      var i := 0;
      while i < |window|
        invariant 0 <= i <= |window|
        invariant events == Filter(window[..i], after)
      {
        assert window[..i + 1][..i] == window[..i];
        if window[i] > after { events := events + [window[i]]; }
        i := i + 1;
      }
      assert window[..i] == window;
    }

    method TakeSnapshot()
      requires phase.Subscribed?
      modifies this
      ensures View() == Snapshotted(cfg, old(View()))
    {
      var replay := EventsAfter(latest, cfg.limit);
      if replay != [] {
        EventsAfterRange(cfg, end, latest, cfg.limit);
        latest := Max(latest, replay[|replay| - 1]);
      }
      frames := frames + [Snapshot(replay, latest)];
      phase := Live;
    }

    /** The catch-up loop; events at or before the cursor would be skipped, and none is. */
    method YieldAll(events: seq<int>)
      requires events != [] && latest < events[0]
      requires forall i, j :: 0 <= i < j < |events| ==> events[i] < events[j]
      modifies this`latest, this`frames
      ensures frames == old(frames) + EventFrames(events)
      ensures latest == events[|events| - 1]
    {
      var i := 0;
      while i < |events|
        invariant 0 <= i <= |events|
        invariant frames + EventFrames(events[i..]) == old(frames) + EventFrames(events)
        invariant i < |events| ==> latest < events[i]
        invariant i > 0 ==> latest == events[i - 1]
      {
        FramesStep(frames, events, i);
        if events[i] > latest {
          latest := events[i];
          frames := frames + [LogEvent(latest)];
        }
        i := i + 1;
      }
    }

    method Receive(offset: int)
      modifies this`latest, this`frames
      ensures frames == old(frames) + RuntimeLogTail.Receive(cfg, end, old(latest), offset).0
      ensures latest == RuntimeLogTail.Receive(cfg, end, old(latest), offset).1
    {
      if offset <= latest { return; }
      if offset > latest + 1 {
        var requested := Max(cfg.limit, offset - latest);
        var catchup := EventsAfter(latest, requested);
        EventsAfterRange(cfg, end, latest, requested);
        if catchup == [] || catchup[0] != latest + 1 {
          frames := frames + [Gap(latest, offset)];
          latest := offset;
          frames := frames + [LogEvent(offset)];
          return;
        }
        YieldAll(catchup);
        return;
      }
      latest := offset;
      frames := frames + [LogEvent(offset)];
    }

    method Put(offset: int)
      modifies this`queue
      ensures queue == PutDropOldest(old(queue), offset, QueueCapacity(cfg))
    {
      if |queue| >= QueueCapacity(cfg) && queue != [] { queue := queue[1..]; }
      queue := queue + [offset];
    }

    method Take(step: Step)
      modifies this
      ensures View() == Next(cfg, old(View()), step)
    {
      match step
      case Append => end := end + 1;
      case Publish =>
        if published < end {
          Put(published);
          published := published + 1;
        }
      case TakeSnapshot => if phase.Subscribed? { TakeSnapshot(); }
      case Wake =>
        if phase.Live? && queue != [] {
          var offset := queue[0];
          queue := queue[1..];
          Receive(offset);
        }
      case Timeout =>
        if phase.Live? && queue == [] { frames := frames + [Heartbeat(latest)]; }
    }

    /** A session of the stream beside its writer and publisher. */
    method Run(steps: seq<Step>)
      modifies this
      ensures View() == Session(cfg, old(View()), steps)
    {
      var i := 0;
      while i < |steps|
        invariant 0 <= i <= |steps|
        invariant Session(cfg, old(View()), steps) == Session(cfg, View(), steps[i..])
      {
        assert steps[i..][1..] == steps[i + 1..];
        Take(steps[i]);
        i := i + 1;
      }
    }
  }

  lemma FramesStep(frames: seq<Frame>, events: seq<int>, i: nat)
    requires i < |events|
    ensures frames + EventFrames(events[i..]) == frames + [LogEvent(events[i])] + EventFrames(events[i + 1..])
  {
    assert events[i..][1..] == events[i + 1..];
  }
}
