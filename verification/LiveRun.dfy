/** The chat run writer and the live session together: what a client of a run's own log
    receives. The session's writer steps are the run's own writes, in their order; the reader, the
    publisher and the subscription interleave with them as they like. */
module LiveRun {
  import opened Common
  import R = ChatRun
  import opened ChatLog
  import opened ChatSettlement
  import opened ChatTerminal
  import opened LiveSession

  /** The run's log as the live session reads it; every line of it is public. */
  function LiveLog(log: seq<R.Entry>): (r: seq<Event>)
    ensures |r| == |log|
    ensures forall i :: 0 <= i < |log| ==> r[i] == Event(true, log[i].event.kind.TurnCompleted?)
  {
    seq(|log|, i requires 0 <= i < |log| => Event(true, log[i].event.kind.TurnCompleted?))
  }

  /** The registry record of a run as the live session reads it. */
  function LiveRecord(run: R.RuntimeRun): Run {
    Run(R.IsEnded(run.status), run.latest)
  }

  /** In every run, finished or not, a logged `turn_completed` is the last line of the log. */
  lemma CompletionIsLast(env: R.Env, w: R.World)
    ensures var log := R.RunChat(env, w).out.log;
            forall i :: 0 <= i < |log| && log[i].event.kind.TurnCompleted? ==> i == |log| - 1
  {
    RunRecords(env, w);
  }

  // ---- what a reader sees of a run's writes ----

  datatype Stores = Stores(log: seq<Event>, run: Run)

  function See(v: Stores, x: R.Write): Stores {
    match x
    case Logged(e) => v.(log := v.log + [Event(true, e.kind.TurnCompleted?)])
    case Marked(offset, status) => v.(run := Run(R.IsEnded(status), offset))
    case Updated(status) => v.(run := v.run.(ended := R.IsEnded(status)))
  }

  /** The log and the record after these writes. */
  function Seen(writes: seq<R.Write>): Stores {
    if writes == [] then Stores([], Run(false, -1)) else See(Seen(writes[..|writes| - 1]), writes[|writes| - 1])
  }

  /** Every mark is of a line already logged. */
  predicate MarksLogged(writes: seq<R.Write>) {
    forall i :: 0 <= i < |writes| && writes[i].Marked? ==> writes[i].offset < |Seen(writes[..i]).log|
  }

  predicate Replays(out: R.Output) {
    Seen(out.writes) == Stores(LiveLog(out.log), LiveRecord(out.run)) && MarksLogged(out.writes)
  }

  lemma SeenAppend(writes: seq<R.Write>, x: R.Write)
    requires MarksLogged(writes) && (x.Marked? ==> x.offset < |Seen(writes).log|)
    ensures Seen(writes + [x]) == See(Seen(writes), x) && MarksLogged(writes + [x])
  {
    assert (writes + [x])[..|writes|] == writes;
    assert forall i :: 0 <= i < |writes| ==> (writes + [x])[..i] == writes[..i];
  }

  lemma LogReplays(env: R.Env, out: R.Output, e: R.PublicEvent, sequence: int)
    requires Replays(out)
    ensures Replays(R.Log(env, out, e, sequence))
  {
    SeenAppend(out.writes, R.Logged(e));
    var logged := Seen(out.writes + [R.Logged(e)]);
    assert logged.log == LiveLog(out.log + [R.Entry(e, sequence)]);
    SeenAppend(out.writes + [R.Logged(e)], R.Marked(|out.log|, R.StatusFor(e)));
  }

  lemma UpdateReplays(out: R.Output, status: R.RunStatus)
    requires Replays(out)
    ensures Replays(R.Update(out, status))
  {
    SeenAppend(out.writes, R.Updated(status));
  }

  lemma ReplaysKept(env: R.Env)
    ensures Kept(env, Replays)
  {
    forall out, e | Replays(out) ensures Replays(R.Emit(env, out, e)) {
      LogReplays(env, out, e, R.NextSequence(out.run));
    }
    forall out | Replays(out) ensures Replays(R.Update(out, R.Running)) && Replays(R.Update(out, R.Orphaned)) {
      UpdateReplays(out, R.Running);
      UpdateReplays(out, R.Orphaned);
    }
  }

  lemma StartReplays(env: R.Env)
    ensures Replays(R.Start(env).out)
  {
    var out := R.Init().out;
    assert LiveLog([]) == [];
    UpdateReplays(out, R.Running);
    var marked := if env.updateOk(0) then R.Update(out, R.Running) else out;
    LogReplays(env, marked, R.Plain(R.ChatRunStarted), 0);
  }

  /** The writes of every run lead to its log and its record. */
  lemma WritesReplay(env: R.Env, w: R.World)
    ensures Replays(R.RunChat(env, w).out)
  {
    ReplaysKept(env);
    StartReplays(env);
    RunKeeps(env, Replays, w);
  }

  // ---- prefixes of the writes ----

  lemma SeenMore(writes: seq<R.Write>, n: nat)
    requires n < |writes|
    ensures Seen(writes[..n + 1]) == See(Seen(writes[..n]), writes[n])
  {
    assert writes[..n + 1][..n] == writes[..n];
  }

  /** The record points into the log, whose lines are public. */
  lemma {:induction false} SeenMarked(writes: seq<R.Write>, n: nat)
    requires MarksLogged(writes) && n <= |writes|
    ensures var v := Seen(writes[..n]); LiveSession.Marked(v.log, v.run) && forall i :: 0 <= i < |v.log| ==> v.log[i].isPublic
    decreases n
  {
    if n == 0 {
    } else {
      SeenMarked(writes, n - 1);
      SeenMore(writes, n - 1);
    }
  }

  lemma {:induction false} SeenGrows(writes: seq<R.Write>, j: nat, k: nat)
    requires j <= k <= |writes|
    ensures Seen(writes[..j]).log <= Seen(writes[..k]).log
    decreases k
  {
    if j == k {
    } else {
      SeenGrows(writes, j, k - 1);
      SeenMore(writes, k - 1);
    }
  }

  lemma {:induction false} EndedByWrite(writes: seq<R.Write>, n: nat)
    requires n <= |writes| && Seen(writes[..n]).run.ended
    ensures exists i :: 0 <= i < n && Ending(writes[i])
    decreases n
  {
    if n == 0 {
    } else {
      SeenMore(writes, n - 1);
      if writes[n - 1].Logged? { EndedByWrite(writes, n - 1); } else { assert Ending(writes[n - 1]); }
    }
  }

  /** Once the record is ended, it stays so and the log stays as it is. */
  lemma {:induction false} EndedStays(writes: seq<R.Write>, j: nat, k: nat)
    requires LastWord(writes) && j <= k <= |writes| && Seen(writes[..j]).run.ended
    ensures Seen(writes[..k]).run.ended && Seen(writes[..k]).log == Seen(writes[..j]).log
    decreases k
  {
    if j == k {
    } else {
      EndedStays(writes, j, k - 1);
      EndedByWrite(writes, k - 1);
      SeenMore(writes, k - 1);
    }
  }

  // ---- a session beside the writer of a run ----

  predicate WriterStep(x: Step) {
    x.Append? || x.Mark? || x.SetStatus?
  }

  function WriterPart(steps: seq<Step>): seq<Step> {
    if steps == [] then [] else (if WriterStep(steps[0]) then [steps[0]] else []) + WriterPart(steps[1..])
  }

  function LiveStep(x: R.Write): Step {
    match x
    case Logged(e) => Append(Event(true, e.kind.TurnCompleted?))
    case Marked(offset, status) => Mark(offset, R.IsEnded(status))
    case Updated(status) => SetStatus(R.IsEnded(status))
  }

  function LiveSteps(writes: seq<R.Write>): (r: seq<Step>)
    ensures |r| == |writes| && forall i :: 0 <= i < |writes| ==> r[i] == LiveStep(writes[i])
  {
    seq(|writes|, i requires 0 <= i < |writes| => LiveStep(writes[i]))
  }

  /** The client resolved its run after j of the writes and subscribed after k of them; the writer
      makes a beginning of the others, in their order, among the steps. */
  predicate Beside(writes: seq<R.Write>, j: nat, k: nat, sub: Subscription, published: nat, steps: seq<Step>) {
    && j <= k <= |writes|
    && sub.origin == Seen(writes[..j]).run && published <= |Seen(writes[..k]).log|
    && WriterPart(steps) <= LiveSteps(writes[k..])
  }

  function Subscribed(writes: seq<R.Write>, k: nat, sub: Subscription, published: nat): State
    requires k <= |writes|
  {
    Begin(sub, Seen(writes[..k]).log, Seen(writes[..k]).run, published)
  }

  /** The state shows the stores after n of the writes. */
  predicate Shows(writes: seq<R.Write>, n: nat, s: State) {
    n <= |writes| && Stores(s.log, s.run) == Seen(writes[..n])
  }

  lemma StepShows(sub: Subscription, s: State, step: Step, writes: seq<R.Write>, n: nat)
    requires MarksLogged(writes) && Shows(writes, n, s)
    requires WriterStep(step) ==> n < |writes| && step == LiveStep(writes[n])
    ensures Shows(writes, if WriterStep(step) then n + 1 else n, Next(sub, s, step))
  {
    SeenMarked(writes, n);
    if WriterStep(step) { SeenMore(writes, n); }
  }

  lemma LiveStepsTail(writes: seq<R.Write>, n: nat)
    requires n < |writes|
    ensures LiveSteps(writes[n..])[1..] == LiveSteps(writes[n + 1..])
  {
    assert writes[n..][1..] == writes[n + 1..];
  }

  lemma WriterNext(steps: seq<Step>, writes: seq<R.Write>, n: nat)
    requires steps != [] && n <= |writes| && WriterPart(steps) <= LiveSteps(writes[n..])
    ensures if WriterStep(steps[0])
            then n < |writes| && steps[0] == LiveStep(writes[n]) && WriterPart(steps[1..]) <= LiveSteps(writes[n + 1..])
            else WriterPart(steps[1..]) <= LiveSteps(writes[n..])
  {
    if WriterStep(steps[0]) {
      assert WriterPart(steps)[0] == steps[0] == LiveSteps(writes[n..])[0] == LiveStep(writes[n]);
      assert WriterPart(steps)[1..] == WriterPart(steps[1..]);
      LiveStepsTail(writes, n);
    }
  }

  // ---- sessions that end by status ----

  /** A record the reader holds is no more ended than the registry's; once the record that it lists
      for is ended, it lists the whole log. */
  predicate Fresh(sub: Subscription, s: State) {
    && (sub.origin.ended ==> s.run.ended)
    && match s.phase
       case Waking(fallback) => fallback.ended ==> s.run.ended
       case Listing(run) => run.ended ==> s.run.ended
       case Sending(run, batch, listed) => run.ended ==> s.run.ended && listed == |s.log|
       case EndedByStatus(run) => s.run.ended && PublicIn(s.log, s.cursor, |s.log|) == []
       case _ => true
  }

  lemma NextFresh(sub: Subscription, s: State, step: Step)
    requires SessionInv(sub, s) && Fresh(sub, s)
    requires s.run.ended ==> Next(sub, s, step).run.ended && Next(sub, s, step).log == s.log
    ensures Fresh(sub, Next(sub, s, step))
  {
  }

  lemma EndedKeepsStores(sub: Subscription, s: State, step: Step, writes: seq<R.Write>, n: nat)
    requires MarksLogged(writes) && LastWord(writes) && Shows(writes, n, s) && s.run.ended
    requires WriterStep(step) ==> n < |writes| && step == LiveStep(writes[n])
    ensures Next(sub, s, step).run.ended && Next(sub, s, step).log == s.log
  {
    StepShows(sub, s, step, writes, n);
    if WriterStep(step) { EndedStays(writes, n, n + 1); }
  }

  /** Along the session the stores are those of the run, and the reader's records stay fresh. */
  lemma {:induction false} SessionShows(sub: Subscription, s: State, steps: seq<Step>, writes: seq<R.Write>, n: nat) returns (m: nat)
    requires MarksLogged(writes) && LastWord(writes) && Shows(writes, n, s)
    requires SessionInv(sub, s) && Fresh(sub, s) && WriterPart(steps) <= LiveSteps(writes[n..])
    ensures m == n + |WriterPart(steps)| && Shows(writes, m, Session(sub, s, steps))
    ensures SessionInv(sub, Session(sub, s, steps)) && Fresh(sub, Session(sub, s, steps))
    decreases |steps|
  {
    if steps == [] {
      m := n;
    } else {
      WriterNext(steps, writes, n);
      StepShows(sub, s, steps[0], writes, n);
      if s.run.ended { EndedKeepsStores(sub, s, steps[0], writes, n); }
      NextFresh(sub, s, steps[0]);
      NextKeeps(sub, s, steps[0]);
      m := SessionShows(sub, Next(sub, s, steps[0]), steps[1..], writes, if WriterStep(steps[0]) then n + 1 else n);
    }
  }

  lemma SubscribedFresh(sub: Subscription, writes: seq<R.Write>, j: nat, k: nat, published: nat)
    requires MarksLogged(writes) && LastWord(writes) && Beside(writes, j, k, sub, published, [])
    ensures var s := Subscribed(writes, k, sub, published);
            && ValidBegin(sub, s.log, s.run, published) && Shows(writes, k, s) && SessionInv(sub, s) && Fresh(sub, s)
  {
    SeenMarked(writes, j);
    SeenMarked(writes, k);
    SeenGrows(writes, j, k);
    if sub.origin.ended { EndedStays(writes, j, k); }
    BeginKeeps(sub, Seen(writes[..k]).log, Seen(writes[..k]).run, published);
  }

  // ---- what the client receives ----

  lemma {:induction false} AllPublic(log: seq<Event>, after: int, hi: int)
    requires 0 <= hi <= |log| && forall i :: 0 <= i < |log| ==> log[i].isPublic
    ensures PublicIn(log, after, hi) == Range(Max(0, after + 1), hi)
    decreases hi
  {
    if hi <= 0 {
    } else {
      AllPublic(log, after, hi - 1);
      if after < hi - 1 { RangeExtend(Max(0, after + 1), hi - 1); }
    }
  }

  /** A session with nothing left has sent everything past its cursor. */
  lemma SentAll(sub: Subscription, s: State)
    requires SessionInv(sub, s) && PublicIn(s.log, s.cursor, |s.log|) == []
    ensures s.sent == PublicIn(s.log, sub.after, |s.log|)
  {
    if s.cursor < |s.log| - 1 {
      PublicInSplit(s.log, sub.after, s.cursor, |s.log|);
    } else if s.cursor >= |s.log| {
      PublicInNothing(s.log, sub.after, |s.log|);
      PublicInNothing(s.log, sub.after, s.cursor + 1);
    }
  }

  /** The whole log of a run, line by line, from the client's cursor on. */
  predicate SentWhole(s: State, after: int, log: seq<R.Entry>) {
    s.log == LiveLog(log) && s.sent == Range(Max(0, after + 1), |log|)
  }

  lemma DrainedHasNoTerminal(sub: Subscription, s: State)
    requires SessionInv(sub, s) && s.phase.Parked? && s.queue == [] && s.published == |s.log|
    requires forall i :: 0 <= i < |s.log| ==> s.log[i].isPublic
    ensures forall x :: 0 <= x < |s.log| && sub.after < x ==> !s.log[x].terminal
  {
    SentAll(sub, s);
    forall x | 0 <= x < |s.log| && sub.after < x ensures !s.log[x].terminal {
      PublicInHolds(s.log, sub.after, |s.log|, x);
      assert x in s.sent;
    }
  }

  /** A session that has seen m of the writes that led to this log and record. */
  predicate SessionSees(sub: Subscription, s: State, out: R.Output, m: nat) {
    && Replays(out) && LastWord(out.writes) && RecordOfLog(out)
    && Shows(out.writes, m, s) && SessionInv(sub, s) && Fresh(sub, s)
  }

  lemma SeesAll(sub: Subscription, s: State, out: R.Output, m: nat)
    requires SessionSees(sub, s, out, m)
    ensures s.log <= LiveLog(out.log) && forall i :: 0 <= i < |s.log| ==> s.log[i].isPublic
    ensures s.phase.EndedByStatus? ==> s.log == LiveLog(out.log) && R.IsEnded(out.run.status)
  {
    var writes := out.writes;
    assert writes[..|writes|] == writes;
    SeenMarked(writes, m);
    SeenGrows(writes, m, |writes|);
    if s.phase.EndedByStatus? { EndedStays(writes, m, |writes|); }
  }

  /** What the session has sent of the run when it ends. */
  lemma EndedSession(sub: Subscription, s: State, out: R.Output, m: nat)
    requires SessionSees(sub, s, out, m)
    ensures s.phase.EndedByEvent? || s.phase.EndedByStatus? ==> SentWhole(s, sub.after, out.log)
    ensures s.phase.EndedByEvent? ==> s.sent != [] && s.log[|s.log| - 1].terminal
  {
    SeesAll(sub, s, out, m);
    if s.phase.EndedByEvent? {
      assert LiveLog(out.log)[s.cursor].terminal;
      assert s.cursor == |out.log| - 1 && |s.log| == |out.log|;
      PublicInNothing(s.log, s.cursor, |s.log|);
      AllPublic(s.log, sub.after, |s.log|);
    } else if s.phase.EndedByStatus? {
      SentAll(sub, s);
      AllPublic(s.log, sub.after, |s.log|);
    }
  }

  /** A session beside the writer of a run. */
  lemma SessionOfRun(env: R.Env, w: R.World, sub: Subscription, j: nat, k: nat, published: nat, steps: seq<Step>)
    returns (m: nat, s: State)
    requires Beside(R.RunChat(env, w).out.writes, j, k, sub, published, steps)
    ensures s == Session(sub, Subscribed(R.RunChat(env, w).out.writes, k, sub, published), steps)
    ensures SessionSees(sub, s, R.RunChat(env, w).out, m) && m == k + |WriterPart(steps)|
  {
    var writes := R.RunChat(env, w).out.writes;
    WritesReplay(env, w);
    RunRecords(env, w);
    EndedIsTheLastWord(env, w);
    SubscribedFresh(sub, writes, j, k, published);
    s := Session(sub, Subscribed(writes, k, sub, published), steps);
    m := SessionShows(sub, Subscribed(writes, k, sub, published), steps, writes, k);
  }

  /** What a client of this log has been sent: if the session ended, by event or by status, every
      line of the whole log past the client's cursor, each once and in order; by event, the turn
      completion last; by status, no completion. If it waits with nothing queued once all is
      published, there is no completion left to deliver. */
  predicate ClientSees(sub: Subscription, s: State, log: seq<R.Entry>) {
    && s.log <= LiveLog(log)
    && (s.phase.EndedByEvent? || s.phase.EndedByStatus? ==> SentWhole(s, sub.after, log))
    && (s.phase.EndedByEvent? ==> s.sent != [] && s.log != [] && s.log[|s.log| - 1].terminal)
    && (s.phase.EndedByStatus? ==> NoTerminal(s.log, s.sent))
    && (s.phase.Parked? && s.queue == [] && s.published == |s.log| ==>
          forall x :: 0 <= x < |s.log| && sub.after < x ==> !s.log[x].terminal)
  }

  lemma SeesTheWholeRun(sub: Subscription, s: State, out: R.Output, m: nat)
    requires SessionSees(sub, s, out, m)
    ensures ClientSees(sub, s, out.log)
  {
    SeesAll(sub, s, out, m);
    EndedSession(sub, s, out, m);
    if s.phase.Parked? && s.queue == [] && s.published == |s.log| { DrainedHasNoTerminal(sub, s); }
  }

  /** End to end, for every run and every session beside its writer, wherever in the run its client
      resolved and subscribed, over every interleaving. */
  lemma ClientSeesTheWholeRun(env: R.Env, w: R.World, sub: Subscription, j: nat, k: nat, published: nat, steps: seq<Step>)
    requires Beside(R.RunChat(env, w).out.writes, j, k, sub, published, steps)
    ensures var out := R.RunChat(env, w).out;
            ClientSees(sub, Session(sub, Subscribed(out.writes, k, sub, published), steps), out.log)
  {
    var m, s := SessionOfRun(env, w, sub, j, k, published, steps);
    SeesTheWholeRun(sub, s, R.RunChat(env, w).out, m);
  }

  lemma RangeEnds(lo: int, hi: int)
    ensures lo < hi ==> Range(lo, hi) != [] && Range(lo, hi)[|Range(lo, hi)| - 1] == hi - 1
  {
  }

  /** Beside a run whose record is not orphaned. */
  lemma SettledStatusEnd(sub: Subscription, s: State, out: R.Output, m: nat)
    requires SessionSees(sub, s, out, m) && s.phase.EndedByStatus? && !out.run.status.Orphaned?
    ensures 0 <= |s.log| - 1 <= sub.after && s.log[|s.log| - 1].terminal && s.sent == []
  {
    SeesAll(sub, s, out, m);
    EndedSession(sub, s, out, m);
    assert Pointing(out) && out.run.latest == |out.log| - 1;
    assert s.log[|s.log| - 1].terminal;
    RangeEnds(Max(0, sub.after + 1), |s.log|);
  }

  lemma UninterruptedRecord(env: R.Env, w: R.World)
    requires R.RunChat(env, w).interruptions == []
    ensures !R.RunChat(env, w).out.run.status.Orphaned?
  {
    OrphanedIffInterrupted(env, w);
  }

  /** A session that ends by status beside a run that records no interruption sends nothing: its
      client had the completion when it subscribed. */
  lemma StatusEndMeansSeen(env: R.Env, w: R.World, sub: Subscription, j: nat, k: nat, published: nat, steps: seq<Step>, s: State)
    requires R.RunChat(env, w).interruptions == []
    requires Beside(R.RunChat(env, w).out.writes, j, k, sub, published, steps)
    requires s == Session(sub, Subscribed(R.RunChat(env, w).out.writes, k, sub, published), steps) && s.phase.EndedByStatus?
    ensures 0 <= |s.log| - 1 <= sub.after && s.log[|s.log| - 1].terminal && s.sent == []
  {
    UninterruptedRecord(env, w);
    var m, t := SessionOfRun(env, w, sub, j, k, published, steps);
    SettledStatusEnd(sub, s, R.RunChat(env, w).out, m);
  }

  // ---- sessions that were open when the run ended ----

  lemma {:induction false} WriterPartJoins(xs: seq<Step>, ys: seq<Step>)
    ensures WriterPart(xs + ys) == WriterPart(xs) + WriterPart(ys)
    decreases |xs|
  {
    if xs == [] {
      assert xs + ys == ys;
    } else {
      TailJoins(xs, ys);
      WriterPartJoins(xs[1..], ys);
      Associates(if WriterStep(xs[0]) then [xs[0]] else [], WriterPart(xs[1..]), WriterPart(ys));
    }
  }

  /** All of the run's writes were made among the first steps. */
  predicate WriterDone(writes: seq<R.Write>, k: nat, first: seq<Step>)
    requires k <= |writes|
  {
    WriterPart(first) == LiveSteps(writes[k..])
  }

  /** Then the registry holds the run's record. */
  lemma DoneShowsRecord(env: R.Env, w: R.World, sub: Subscription, j: nat, k: nat, published: nat, first: seq<Step>)
    requires Beside(R.RunChat(env, w).out.writes, j, k, sub, published, first)
    requires WriterDone(R.RunChat(env, w).out.writes, k, first)
    ensures var out := R.RunChat(env, w).out;
            var s := Session(sub, Subscribed(out.writes, k, sub, published), first);
            s.run == LiveRecord(out.run) && s.log == LiveLog(out.log) && SessionInv(sub, s)
  {
    var m, s := SessionOfRun(env, w, sub, j, k, published, first);
    var writes := R.RunChat(env, w).out.writes;
    assert writes[..|writes|] == writes;
    assert m == |writes|;
  }

  lemma {:induction false} LogStays(sub: Subscription, s: State, steps: seq<Step>)
    requires WriterPart(steps) == []
    ensures Session(sub, s, steps).log == s.log
    decreases |steps|
  {
    if steps == [] {
    } else {
      LogStays(sub, Next(sub, s, steps[0]), steps[1..]);
    }
  }

  lemma {:induction false} PublicInShort(log: seq<Event>, after: int, hi: nat)
    ensures |PublicIn(log, after, hi)| <= hi
    decreases hi
  {
    if hi == 0 {
    } else {
      PublicInShort(log, after, hi - 1);
    }
  }

  /** Without writes there is no more to send than the log holds. */
  lemma DoneWritesNothing(sub: Subscription, s: State, pause: seq<Step>, last: seq<Step>)
    requires WriterPart([ReadRegistry(true)] + pause + [ListLog] + last) == []
    ensures var paused := Session(sub, Next(sub, s, ReadRegistry(true)), pause);
            |PublicIn(paused.log, paused.cursor, |paused.log|)| <= |s.log|
  {
    WriterPartJoins([ReadRegistry(true)] + pause + [ListLog], last);
    WriterPartJoins([ReadRegistry(true)] + pause, [ListLog]);
    WriterPartJoins([ReadRegistry(true)], pause);
    var read := Next(sub, s, ReadRegistry(true));
    LogStays(sub, read, pause);
    var paused := Session(sub, read, pause);
    PublicInShort(paused.log, paused.cursor, |paused.log|);
  }

  /** A client that subscribed while the run went on, and is woken after the run has ended with an
      ended record, an interrupted one say: its session closes once it has read the registry, listed
      the log and made its sends, and it has been sent every line of the log past its cursor. */
  lemma EndedRunClosesItsSessions(env: R.Env, w: R.World, sub: Subscription, j: nat, k: nat, published: nat,
                                  first: seq<Step>, pause: seq<Step>, last: seq<Step>)
    requires Beside(R.RunChat(env, w).out.writes, j, k, sub, published, first + ([ReadRegistry(true)] + pause + [ListLog] + last))
    requires WriterDone(R.RunChat(env, w).out.writes, k, first)
    requires Session(sub, Subscribed(R.RunChat(env, w).out.writes, k, sub, published), first).phase.Waking?
    requires Decisive(sub, LiveRecord(R.RunChat(env, w).out.run))
    requires (forall i :: 0 <= i < |pause| ==> !pause[i].ListLog?) && Sends(last) > |R.RunChat(env, w).out.log|
    ensures var out := R.RunChat(env, w).out;
            var steps := first + ([ReadRegistry(true)] + pause + [ListLog] + last);
            var s := Session(sub, Subscribed(out.writes, k, sub, published), steps);
            (s.phase.EndedByEvent? || s.phase.EndedByStatus?) && SentWhole(s, sub.after, out.log)
  {
    var out := R.RunChat(env, w).out;
    var begun := Subscribed(out.writes, k, sub, published);
    var rest := [ReadRegistry(true)] + pause + [ListLog] + last;
    WriterPartJoins(first, rest);
    DoneShowsRecord(env, w, sub, j, k, published, first);
    var s := Session(sub, begun, first);
    DoneWritesNothing(sub, s, pause, last);
    EndedRecordCloses(sub, s, pause, last);
    SessionJoins(sub, begun, first, rest);
    ClientSeesTheWholeRun(env, w, sub, j, k, published, first + rest);
  }

  /** A run whose stream ends at once, with nothing failing. */
  function SilentRun(): R.State {
    R.RunChat(R.Env((n, e) => true, n => true, n => true, n => false, n => false),
              R.World([], R.Exhausted, true, [], [], false))
  }

  const SILENT_WRITES := [R.Updated(R.Running), R.Logged(R.Plain(R.ChatRunStarted)), R.Marked(0, R.Running), R.Updated(R.Orphaned)]

  lemma SilentRunWrites()
    ensures SilentRun().out.writes == SILENT_WRITES
    ensures SilentRun().interruptions == [R.MissingTerminalEvent]
  {
  }

  /** What a reader sees of these writes. */
  lemma SilentStores()
    ensures Seen(SILENT_WRITES[..4]) == Stores([Event(true, false)], Run(true, 0))
  {
    assert SILENT_WRITES[..0] == [];
    SeenMore(SILENT_WRITES, 0);
    SeenMore(SILENT_WRITES, 1);
    SeenMore(SILENT_WRITES, 2);
    SeenMore(SILENT_WRITES, 3);
  }

  lemma OneLineSession(sub: Subscription, s0: State)
    requires sub == Subscription(-1, Run(true, 0)) && s0 == Begin(sub, [Event(true, false)], Run(true, 0), 1)
    ensures var s := Session(sub, s0, [ReadRegistry(true), ListLog, Send, Send]);
            s.phase.EndedByStatus? && s.sent == [0] && s.log == [Event(true, false)]
  {
    var steps := [ReadRegistry(true), ListLog, Send, Send];
    assert steps[1..] == [ListLog, Send, Send] && steps[1..][1..] == [Send, Send] && steps[1..][1..][1..] == [Send];
    var s2 := Next(sub, Next(sub, s0, ReadRegistry(true)), ListLog);
    assert PublicIn(s0.log, -1, 1) == PublicIn(s0.log, -1, 0) + [0] == [0];
    assert s2.phase == Sending(s0.run, [0], 1);
    var s3 := Next(sub, s2, Send);
    assert s3.phase == Sending(s0.run, [], 1) && s3.sent == [0];
    assert Session(sub, s0, steps) == Session(sub, s2, [Send, Send]) == Session(sub, s3, [Send]) == Next(sub, s3, Send);
  }

  /** Without that: beside an interrupted run a session can end by status and have sent lines, with
      no completion in the log. */
  lemma InterruptedRunEndsByStatus()
    ensures var writes := SilentRun().out.writes;
            var sub := Subscription(-1, Seen(writes[..4]).run);
            var steps := [ReadRegistry(true), ListLog, Send, Send];
            && Beside(writes, 4, 4, sub, 1, steps)
            && var s := Session(sub, Subscribed(writes, 4, sub, 1), steps);
               s.phase.EndedByStatus? && s.sent == [0] && s.log == [Event(true, false)]
  {
    SilentRunWrites();
    SilentStores();
    var sub := Subscription(-1, Run(true, 0));
    assert WriterPart([ReadRegistry(true), ListLog, Send, Send]) == [];
    OneLineSession(sub, Begin(sub, [Event(true, false)], Run(true, 0), 1));
  }
}
