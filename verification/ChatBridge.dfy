/** The task bridge in closed form: which task events it handles, what it offers for them,
    and how it settles a missing commit. */
module ChatBridge {
  import opened Common
  import opened ChatRun
  import opened ChatSettlement

  function Stamp(p: PublicEvent, taskRunId: string): PublicEvent {
    p.(taskRunId := Some(taskRunId), runtimeTaskRunId := Some(taskRunId))
  }

  function Stamped(ps: seq<PublicEvent>, taskRunId: string): seq<PublicEvent> {
    if ps == [] then [] else [Stamp(ps[0], taskRunId)] + Stamped(ps[1..], taskRunId)
  }

  /** An event that another run left in the task's log. */
  predicate ByOther(t: TaskEvent, taskRunId: string) {
    t.runId !in {"", taskRunId}
  }

  predicate EndsTask(t: TaskEvent, taskRunId: string) {
    t.family == BridgeEnd && !ByOther(t, taskRunId)
  }

  /** What one task event contributes, apart from the terminal pair. */
  function Contribution(t: TaskEvent, taskRunId: string): seq<PublicEvent> {
    if ByOther(t, taskRunId) then [ForTask(RuntimeStatus, taskRunId)]
    else if t.family.BridgePublic? then Stamped(t.projections, taskRunId)
    else []
  }

  /** What the task events at offsets 1, .., n-1 contribute, in order. */
  function Contributions(task: seq<TaskEvent>, taskRunId: string, n: nat): seq<PublicEvent>
    requires n <= |task|
  {
    if n <= 1 then [] else Contributions(task, taskRunId, n - 1) + Contribution(task[n - 1], taskRunId)
  }

  /** Final output among them. */
  predicate Shows(o: seq<PublicEvent>) {
    exists i :: 0 <= i < |o| && o[i].kind in {TextFinal, StreamRepair}
  }

  /** A settled commit among them: acknowledged, failed or skipped. */
  predicate Commits(o: seq<PublicEvent>) {
    exists i :: 0 <= i < |o| && o[i].kind in COMMIT_SETTLED
  }

  const COMMIT_SETTLED: set<Kind> := {CommitAck, CommitFailed, CommitSkipped}

  /** The completion of a bridged turn: it keeps the task's status, read as completed when there is
      none, and says whether the turn completed, was stopped or failed. */
  function Completion(taskRunId: string, taskStatus: string): PublicEvent {
    var state := if taskStatus == "" then "completed" else taskStatus;
    ForTask(TurnCompleted, taskRunId).(
      completionState := state,
      status := if state == "completed" then "completed"
                else if state in {"aborted", "cancelled", "canceled", "stopped", "blocked"} then "stopped"
                else "failed")
  }

  /** The end of a bridged turn: a failed commit when output was shown and the task settled
      none, then the terminal pair. */
  function Closing(shown: seq<PublicEvent>, taskRunId: string, taskStatus: string): seq<PublicEvent> {
    (if Shows(shown) && !Commits(shown) then [ForTask(CommitFailed, taskRunId)] else [])
    + [ForTask(BridgeTerminal, taskRunId), Completion(taskRunId, taskStatus)]
  }

  /** All that one task event makes the bridge offer, after it has shown this. */
  function Part(t: TaskEvent, taskRunId: string, shown: seq<PublicEvent>): seq<PublicEvent> {
    var mine := Contribution(t, taskRunId);
    mine + (if EndsTask(t, taskRunId) then Closing(shown + mine, taskRunId, t.status) else [])
  }

  /** All that the bridge offers for the task events at offsets 1, .., c. */
  function BridgeOffers(task: seq<TaskEvent>, taskRunId: string, c: int): seq<PublicEvent>
    requires c < |task|
  {
    if c < 1 then [] else Contributions(task, taskRunId, c) + Part(task[c], taskRunId, Contributions(task, taskRunId, c))
  }

  // ---- one task event ----

  lemma ShowsAppend(a: seq<PublicEvent>, b: seq<PublicEvent>)
    ensures Shows(a + b) <==> Shows(a) || Shows(b)
    ensures Commits(a + b) <==> Commits(a) || Commits(b)
  {
    if Shows(a) { var i :| 0 <= i < |a| && a[i].kind in {TextFinal, StreamRepair}; assert (a + b)[i] == a[i]; }
    if Shows(b) { var i :| 0 <= i < |b| && b[i].kind in {TextFinal, StreamRepair}; assert (a + b)[|a| + i] == b[i]; }
    if Commits(a) { var i :| 0 <= i < |a| && a[i].kind in COMMIT_SETTLED; assert (a + b)[i] == a[i]; }
    if Commits(b) { var i :| 0 <= i < |b| && b[i].kind in COMMIT_SETTLED; assert (a + b)[|a| + i] == b[i]; }
  }

  lemma ShowsOne(e: PublicEvent)
    ensures Shows([e]) <==> ShowsOutput(e.kind)
    ensures Commits([e]) <==> SettlesCommit(e.kind)
  {
    assert [e][0] == e;
  }

  /** State r follows s by offering all of `added`, or, when an append raised, a beginning of it. */
  predicate Wrote(s: State, r: State, added: seq<PublicEvent>) {
    && (r.halt == Going ==> s.halt == Going && r.out.offered == s.out.offered + added)
    && (r.halt != Going ==> s.out.offered <= r.out.offered <= s.out.offered + added)
    && (s.halt != Going ==> r == s)
  }

  lemma WroteOne(env: Env, s: State, e: PublicEvent)
    ensures Wrote(s, Append(env, s, e), [e])
  {
  }

  lemma WroteNothing(s: State)
    ensures Wrote(s, s, [])
  {
  }

  lemma WroteThen(s: State, m: State, r: State, x: seq<PublicEvent>, y: seq<PublicEvent>)
    requires Wrote(s, m, x) && Wrote(m, r, y)
    ensures Wrote(s, r, x + y)
  {
    assert s.out.offered + (x + y) == s.out.offered + x + y;
  }

  lemma AppendTaskTrace(env: Env, s: State, p: PublicEvent, taskRunId: string)
    ensures var r := AppendTask(env, s, p, taskRunId);
            && Wrote(s, r, [Stamp(p, taskRunId)])
            && (s.halt == Going ==> r.task == Observe(s.task, p.kind))
  {
    if s.halt == Going {
      WroteOne(env, s.(task := Observe(s.task, p.kind)), Stamp(p, taskRunId));
    }
  }

  lemma {:induction false} AppendTaskAllTrace(env: Env, s: State, ps: seq<PublicEvent>, taskRunId: string)
    ensures var r := AppendTaskAll(env, s, ps, taskRunId);
            && Wrote(s, r, Stamped(ps, taskRunId))
            && (r.halt == Going ==>
                  && r.task.outputObserved == (s.task.outputObserved || Shows(Stamped(ps, taskRunId)))
                  && r.task.commitObserved == (s.task.commitObserved || Commits(Stamped(ps, taskRunId))))
    decreases |ps|
  {
    if ps == [] {
      WroteNothing(s);
    } else {
      var e, rest := Stamp(ps[0], taskRunId), Stamped(ps[1..], taskRunId);
      var next := AppendTask(env, s, ps[0], taskRunId);
      AppendTaskTrace(env, s, ps[0], taskRunId);
      AppendTaskAllTrace(env, next, ps[1..], taskRunId);
      WroteThen(s, next, AppendTaskAll(env, next, ps[1..], taskRunId), [e], rest);
      ShowsOne(e);
      ShowsAppend([e], rest);
    }
  }

  lemma CloseBridgeTrace(env: Env, s: State, taskRunId: string, taskStatus: string, shown: seq<PublicEvent>)
    requires s.halt == Going ==> s.task.outputObserved == Shows(shown) && s.task.commitObserved == Commits(shown)
    ensures Wrote(s, CloseBridge(env, s, taskRunId, taskStatus), Closing(shown, taskRunId, taskStatus))
  {
    if s.halt != Going { return; }
    var missing := Shows(shown) && !Commits(shown);
    var failed, ended, done := ForTask(CommitFailed, taskRunId), ForTask(BridgeTerminal, taskRunId), TerminalEvent(taskRunId, taskStatus);
    var a := if missing then Append(env, s, failed) else s;
    var b := Append(env, a, ended);
    if missing { WroteOne(env, s, failed); } else { WroteNothing(s); }
    WroteOne(env, a, ended);
    WroteOne(env, b, done);
    WroteThen(a, b, Append(env, b, done), [ended], [done]);
    WroteThen(s, a, Append(env, b, done), if missing then [failed] else [], [ended] + [done]);
    assert [ended] + [done] == [ended, done];
  }

  /** State r follows s by projecting t, when the bridge had offered `shown` for the task. */
  predicate Projected(s: State, r: State, t: TaskEvent, taskRunId: string, shown: seq<PublicEvent>) {
    var next := shown + Contribution(t, taskRunId);
    && Wrote(s, r, Part(t, taskRunId, shown))
    && (r.halt == Going && !EndsTask(t, taskRunId) ==> r.task.outputObserved == Shows(next) && r.task.commitObserved == Commits(next))
  }

  lemma ForeignTaskTrace(env: Env, s: State, t: TaskEvent, taskRunId: string, shown: seq<PublicEvent>)
    requires s.task.outputObserved == Shows(shown) && s.task.commitObserved == Commits(shown)
    requires ByOther(t, taskRunId)
    ensures Projected(s, ProjectTask(env, s, t, taskRunId), t, taskRunId, shown)
  {
    ShowsAppend(shown, Contribution(t, taskRunId));
    ShowsOne(ForTask(RuntimeStatus, taskRunId));
    WroteOne(env, s, ForTask(RuntimeStatus, taskRunId));
    assert Part(t, taskRunId, shown) == [ForTask(RuntimeStatus, taskRunId)];
  }

  lemma PublicTaskTrace(env: Env, s: State, t: TaskEvent, taskRunId: string, shown: seq<PublicEvent>)
    requires s.task.outputObserved == Shows(shown) && s.task.commitObserved == Commits(shown)
    requires !ByOther(t, taskRunId) && t.family.BridgePublic?
    ensures Projected(s, ProjectTask(env, s, t, taskRunId), t, taskRunId, shown)
  {
    ShowsAppend(shown, Contribution(t, taskRunId));
    AppendTaskAllTrace(env, s, t.projections, taskRunId);
    assert Part(t, taskRunId, shown) == Contribution(t, taskRunId);
  }

  lemma ProjectTaskTrace(env: Env, s: State, t: TaskEvent, taskRunId: string, shown: seq<PublicEvent>)
    requires s.task.outputObserved == Shows(shown) && s.task.commitObserved == Commits(shown)
    ensures Projected(s, ProjectTask(env, s, t, taskRunId), t, taskRunId, shown)
  {
    if ByOther(t, taskRunId) {
      ForeignTaskTrace(env, s, t, taskRunId, shown);
    } else if t.family.BridgePublic? {
      PublicTaskTrace(env, s, t, taskRunId, shown);
    } else {
      assert Contribution(t, taskRunId) == [] && shown + [] == shown;
      if t.family.BridgeEnd? {
        CloseBridgeTrace(env, s, taskRunId, t.status, shown);
        assert Part(t, taskRunId, shown) == Closing(shown, taskRunId, t.status);
      } else {
        WroteNothing(s);
      }
    }
  }

  // ---- the listing passes ----

  /** What a bridge has offered that has handled the offsets 1, .., cursor: all they make it offer,
      unless an append raised; then what came before the last of them, and a beginning of its part. */
  predicate Traced(base: seq<PublicEvent>, s: State, task: seq<TaskEvent>, taskRunId: string)
    requires -1 <= s.task.cursor < |task|
  {
    var c := s.task.cursor;
    var all := base + BridgeOffers(task, taskRunId, c);
    if s.halt.Raised? then
      base + Contributions(task, taskRunId, Max(c, 0)) <= s.out.offered <= all
    else
      s.out.offered == all
  }

  /** The flags of a bridge that goes on say what it has shown. */
  predicate Observed(s: State, task: seq<TaskEvent>, taskRunId: string)
    requires -1 <= s.task.cursor < |task|
  {
    var shown := Contributions(task, taskRunId, s.task.cursor + 1);
    s.task.outputObserved == Shows(shown) && s.task.commitObserved == Commits(shown)
  }

  /** Each task event from offset 1 up to the cursor was handled exactly once and in order;
      only the last can have ended the bridge; and what was offered is exactly what the
      handled events make the bridge offer. */
  predicate BridgeTrace(base: seq<PublicEvent>, s: State, task: seq<TaskEvent>, taskRunId: string) {
    var c := s.task.cursor;
    && (c == -1 || 1 <= c < |task|)
    && s.task.handled == Range(1, c + 1)
    && (forall o :: 1 <= o < c ==> !EndsTask(task[o], taskRunId))
    && (s.task.closed ==> 1 <= c && s.halt == Going && EndsTask(task[c], taskRunId))
    && (s.halt == Going && !s.task.closed ==> (1 <= c ==> !EndsTask(task[c], taskRunId)) && Observed(s, task, taskRunId))
    && Traced(base, s, task, taskRunId)
  }

  /** Has every offset in 1, .., n-1 been handled, unless the bridge is over? */
  predicate CaughtUp(s: State, n: nat) {
    s.halt == Going && !s.task.closed ==> n - 1 <= Max(s.task.cursor, 0)
  }

  /** The step of a task event that is not skipped, before its projection and flush. */
  function Moved(s: State, offset: nat): State {
    s.(task := s.task.(cursor := OrMinusOne(offset), handled := s.task.handled + [offset]))
  }

  /** Without an end among them, the bridge offers the contributions and nothing else. */
  lemma OffersOpen(task: seq<TaskEvent>, taskRunId: string, c: int)
    requires -1 <= c < |task| && (1 <= c ==> !EndsTask(task[c], taskRunId))
    ensures BridgeOffers(task, taskRunId, c) == Contributions(task, taskRunId, c + 1)
  {
  }

  lemma FlushTrace(env: Env, previous: int, base: seq<PublicEvent>, moved: State, s: State, task: seq<TaskEvent>, offset: nat,
                   taskRunId: string)
    requires 1 <= offset < |task| && (s.halt == Going || s.halt == Raised)
    requires s.task.cursor == offset && !s.task.closed && s.task.handled == Range(1, offset + 1)
    requires forall o :: 1 <= o < offset ==> !EndsTask(task[o], taskRunId)
    requires moved.out.offered == base + Contributions(task, taskRunId, offset)
    requires Projected(moved, s, task[offset], taskRunId, Contributions(task, taskRunId, offset))
    ensures var flushed := Flush(env, previous, s);
            var r := if flushed.halt == Going then flushed.(task := flushed.task.(closed := EndsTask(task[offset], taskRunId))) else flushed;
            BridgeTrace(base, r, task, taskRunId)
  {
    ProjectedTraced(base, moved, s, task, offset, taskRunId);
  }

  lemma Reassociate(a: seq<PublicEvent>, b: seq<PublicEvent>, c: seq<PublicEvent>)
    ensures a + b + c == a + (b + c)
  {
  }

  lemma ProjectedTraced(base: seq<PublicEvent>, moved: State, s: State, task: seq<TaskEvent>, offset: nat, taskRunId: string)
    requires 1 <= offset < |task| && s.task.cursor == offset && (s.halt == Going || s.halt == Raised)
    requires moved.out.offered == base + Contributions(task, taskRunId, offset)
    requires Wrote(moved, s, Part(task[offset], taskRunId, Contributions(task, taskRunId, offset)))
    ensures Traced(base, s, task, taskRunId)
  {
    var shown := Contributions(task, taskRunId, offset);
    var part := Part(task[offset], taskRunId, shown);
    assert BridgeOffers(task, taskRunId, offset) == shown + part;
    Reassociate(base, shown, part);
    assert Max(offset, 0) == offset;
  }

  /** An open bridge that has handled the offsets below this one. */
  predicate UpTo(base: seq<PublicEvent>, s: State, task: seq<TaskEvent>, offset: nat, taskRunId: string)
    requires offset <= |task|
  {
    var shown := Contributions(task, taskRunId, offset);
    && s.halt == Going && !s.task.closed
    && offset == Max(s.task.cursor, 0) + 1 && s.task.handled == Range(1, offset)
    && (forall o :: 1 <= o < offset ==> !EndsTask(task[o], taskRunId))
    && s.out.offered == base + shown
    && s.task.outputObserved == Shows(shown) && s.task.commitObserved == Commits(shown)
  }

  lemma TracedUpTo(base: seq<PublicEvent>, s: State, task: seq<TaskEvent>, offset: nat, taskRunId: string)
    requires BridgeTrace(base, s, task, taskRunId) && s.halt == Going && !s.task.closed
    requires offset == Max(s.task.cursor, 0) + 1 <= |task|
    ensures UpTo(base, s, task, offset, taskRunId)
  {
    OffersOpen(task, taskRunId, s.task.cursor);
    assert Contributions(task, taskRunId, offset) == Contributions(task, taskRunId, s.task.cursor + 1);
  }

  /** The event after the last handled one. */
  lemma HandleNextTrace(env: Env, base: seq<PublicEvent>, s: State, task: seq<TaskEvent>, offset: nat, taskRunId: string)
    requires 1 <= offset < |task| && UpTo(base, s, task, offset, taskRunId)
    ensures BridgeTrace(base, HandleTask(env, s, task[offset], offset, taskRunId), task, taskRunId)
  {
    var moved := Moved(s, offset);
    ProjectTaskTrace(env, moved, task[offset], taskRunId, Contributions(task, taskRunId, offset));
    RangeExtend(1, offset);
    FlushTrace(env, s.out.run.latest, base, moved, ProjectTask(env, moved, task[offset], taskRunId), task, offset, taskRunId);
  }

  lemma HandleTaskTrace(env: Env, base: seq<PublicEvent>, s: State, task: seq<TaskEvent>, offset: nat, taskRunId: string)
    requires offset < |task| && BridgeTrace(base, s, task, taskRunId) && CaughtUp(s, offset)
    ensures var r := HandleTask(env, s, task[offset], offset, taskRunId);
            && BridgeTrace(base, r, task, taskRunId) && CaughtUp(r, offset + 1)
            && s.task.cursor <= r.task.cursor && (r.task.cursor == s.task.cursor || r.task.cursor == offset)
            && r.bridge == s.bridge
  {
    if s.halt == Going && !s.task.closed && OrMinusOne(offset) > s.task.cursor {
      TracedUpTo(base, s, task, offset, taskRunId);
      HandleNextTrace(env, base, s, task, offset, taskRunId);
    }
  }

  lemma {:induction false} HandleListedTrace(env: Env, base: seq<PublicEvent>, s: State, task: seq<TaskEvent>, from: nat, to: nat, taskRunId: string)
    requires from <= to <= |task|
    requires BridgeTrace(base, s, task, taskRunId) && CaughtUp(s, from)
    ensures var r := HandleListed(env, s, task, from, to, taskRunId);
            && BridgeTrace(base, r, task, taskRunId) && CaughtUp(r, to)
            && s.task.cursor <= r.task.cursor
            && (r.task.cursor == s.task.cursor || r.task.cursor < to)
            && r.bridge == s.bridge
    decreases |task| - from
  {
    if from == to {
    } else {
      var next := HandleTask(env, s, task[from], from, taskRunId);
      assert BridgeTrace(base, next, task, taskRunId) && CaughtUp(next, from + 1) by {
        HandleTaskTrace(env, base, s, task, from, taskRunId);
      }
      HandleListedTrace(env, base, next, task, from + 1, to, taskRunId);
    }
  }

  /** Is the offset in one of the listings? */
  predicate Listed(rounds: seq<Round>, task: seq<TaskEvent>, o: int) {
    exists k :: 0 <= k < |rounds| && o < Min(rounds[k].listed, |task|)
  }

  lemma ListedTail(rounds: seq<Round>, task: seq<TaskEvent>, o: int)
    requires rounds != []
    ensures Listed(rounds, task, o) <==> o < Min(rounds[0].listed, |task|) || Listed(rounds[1..], task, o)
  {
    if Listed(rounds[1..], task, o) {
      var k :| 0 <= k < |rounds[1..]| && o < Min(rounds[1..][k].listed, |task|);
      assert rounds[k + 1] == rounds[1..][k];
    }
    if Listed(rounds, task, o) && o >= Min(rounds[0].listed, |task|) {
      var k :| 0 <= k < |rounds| && o < Min(rounds[k].listed, |task|);
      assert rounds[1..][k - 1] == rounds[k];
    }
  }

  /** A wait changes neither what was handled nor what was offered. */
  lemma WaitTrace(env: Env, base: seq<PublicEvent>, before: State, s: State, task: seq<TaskEvent>, wait: Wait, taskRunId: string)
    requires BridgeTrace(base, s, task, taskRunId)
    ensures BridgeTrace(base, AfterPass(env, before, s, wait), task, taskRunId)
  {
    if s.halt == Going && !s.task.closed { OffersOpen(task, taskRunId, s.task.cursor); }
  }

  lemma PassTrace(env: Env, base: seq<PublicEvent>, s: State, task: seq<TaskEvent>, round: Round, taskRunId: string)
    requires BridgeTrace(base, s, task, taskRunId)
    ensures var r := Pass(env, s, task, round, taskRunId);
            var to := Min(round.listed, |task|);
            && BridgeTrace(base, r, task, taskRunId) && CaughtUp(r, to)
            && s.task.cursor <= r.task.cursor && (r.task.cursor == s.task.cursor || r.task.cursor < to)
  {
    var to := Min(round.listed, |task|);
    HandleListedTrace(env, base, s, task, 0, to, taskRunId);
    WaitTrace(env, base, s, HandleListed(env, s, task, 0, to, taskRunId), task, round.wait, taskRunId);
  }

  /** Bridge exactly-once, over any sequence of listings and wake-ups: the handled offsets are
      exactly 1, .., cursor; every listed offset from 1 on is handled unless the bridge ended
      before it; nothing else is offered. */
  lemma {:induction false} PassesTrace(env: Env, base: seq<PublicEvent>, s: State, task: seq<TaskEvent>, rounds: seq<Round>, taskRunId: string)
    requires BridgeTrace(base, s, task, taskRunId)
    ensures var r := Passes(env, s, task, rounds, taskRunId);
            && BridgeTrace(base, r, task, taskRunId)
            && s.task.cursor <= r.task.cursor
            && (r.task.cursor == s.task.cursor || Listed(rounds, task, r.task.cursor))
            && (r.halt == Going && !r.task.closed ==>
                  forall o :: 1 <= o && Listed(rounds, task, o) ==> o <= r.task.cursor)
    decreases |rounds|
  {
    if rounds == [] {
    } else {
      PassTrace(env, base, s, task, rounds[0], taskRunId);
      var passed := Pass(env, s, task, rounds[0], taskRunId);
      PassesTrace(env, base, passed, task, rounds[1..], taskRunId);
      var r := Passes(env, s, task, rounds, taskRunId);
      ListedTail(rounds, task, r.task.cursor);
      HaltSticks(env, passed, task, rounds[1..], taskRunId);
      forall o | r.halt == Going && !r.task.closed && 1 <= o && Listed(rounds, task, o) ensures o <= r.task.cursor {
        ListedTail(rounds, task, o);
      }
    }
  }

  lemma {:induction false} HaltSticks(env: Env, s: State, task: seq<TaskEvent>, rounds: seq<Round>, taskRunId: string)
    ensures s.halt != Going || s.task.closed ==> Passes(env, s, task, rounds, taskRunId) == s
    decreases |rounds|
  {
    if rounds == [] {
    } else if s.halt != Going || s.task.closed {
      ListedSticks(env, s, task, 0, Min(rounds[0].listed, |task|), taskRunId);
      HaltSticks(env, Pass(env, s, task, rounds[0], taskRunId), task, rounds[1..], taskRunId);
    }
  }

  lemma {:induction false} ListedSticks(env: Env, s: State, task: seq<TaskEvent>, from: nat, to: nat, taskRunId: string)
    requires from <= to <= |task|
    requires s.halt != Going || s.task.closed
    ensures HandleListed(env, s, task, from, to, taskRunId) == s
    decreases |task| - from
  {
    if from == to {
    } else {
      ListedSticks(env, s, task, from + 1, to, taskRunId);
    }
  }

  // ---- whole runs ----

  predicate BridgesTask(env: Env, w: World) {
    NeedsBridge(Streamed(env, w)) && Streamed(env, w).bridge.value.taskRunId != ""
  }

  function BridgedTask(env: Env, w: World): string
    requires BridgesTask(env, w)
  {
    Streamed(env, w).bridge.value.taskRunId
  }

  /** Bridge exactly-once for whole runs: what was handled is 1, .., cursor in order; a bridge that
      is still waiting has handled every offset listed from 1 on; and it is over exactly when a
      terminal event of its own task, at an offset of at least 1, was listed. */
  lemma BridgeExactlyOnce(env: Env, w: World)
    requires BridgesTask(env, w)
    ensures var s := Bridged(env, w);
            && BridgeTrace(Streamed(env, w).out.offered, s, w.task, BridgedTask(env, w))
            && (s.halt == Going ==>
                  (s.task.closed <==> exists o :: 1 <= o && Listed(w.rounds, w.task, o) && EndsTask(w.task[o], BridgedTask(env, w))))
            && (s.halt == Going && !s.task.closed ==>
                  forall o :: 1 <= o && Listed(w.rounds, w.task, o) ==> o <= s.task.cursor)
  {
    var taskRunId := BridgedTask(env, w);
    var s := Streamed(env, w);
    var base := s.out.offered;
    var begun := Begun(env, s);
    assert s.task == Init().task;
    assert base + [] == base;
    PassesTrace(env, base, begun, w.task, w.rounds, taskRunId);
    var r := Passes(env, begun, w.task, w.rounds, taskRunId);
    if r.halt == Going && r.task.closed {
      var c := r.task.cursor;
      assert 1 <= c && Listed(w.rounds, w.task, c) && EndsTask(w.task[c], taskRunId);
    }
  }

  /** How many ack, failed or skipped commit events were offered. */
  function Settlements(o: seq<PublicEvent>): nat {
    if o == [] then 0 else Settlements(o[..|o| - 1]) + (if o[|o| - 1].kind in COMMIT_SETTLED then 1 else 0)
  }

  lemma SettlementsAppend(o: seq<PublicEvent>, e: PublicEvent)
    ensures Settlements(o + [e]) == Settlements(o) + (if e.kind in COMMIT_SETTLED then 1 else 0)
  {
    assert (o + [e])[..|o|] == o;
  }

  /** `o` ends with the terminal pair after base and shown, has a settled commit before it when
      output was shown, and holds one failed commit of the writer exactly when none was shown. */
  predicate CommitSettled(o: seq<PublicEvent>, base: seq<PublicEvent>, shown: seq<PublicEvent>, taskRunId: string) {
    var missing := Shows(shown) && !Commits(shown);
    && |o| == |base| + |shown| + (if missing then 3 else 2)
    && o[..|base| + |shown|] == base + shown
    && o[|o| - 2].kind.BridgeTerminal? && o[|o| - 1].kind.TurnCompleted?
    && (Shows(shown) ==> exists i :: |base| <= i < |o| - 2 && o[i].kind in COMMIT_SETTLED)
    && Settlements(o) == Settlements(base + shown) + (if missing then 1 else 0)
    && (missing ==> o[|o| - 3] == ForTask(CommitFailed, taskRunId))
  }

  lemma SettlementsPair(o: seq<PublicEvent>, x: PublicEvent, y: PublicEvent)
    requires x.kind !in COMMIT_SETTLED && y.kind !in COMMIT_SETTLED
    ensures Settlements(o + [x, y]) == Settlements(o)
  {
    SettlementsAppend(o, x);
    SettlementsAppend(o + [x], y);
    assert o + [x, y] == o + [x] + [y];
  }

  lemma ClosedWithoutCommit(o: seq<PublicEvent>, base: seq<PublicEvent>, shown: seq<PublicEvent>, taskRunId: string,
                            x: PublicEvent, y: PublicEvent)
    requires Shows(shown) && !Commits(shown) && x.kind.BridgeTerminal? && y.kind.TurnCompleted?
    requires o == base + shown + ([ForTask(CommitFailed, taskRunId)] + [x, y])
    ensures CommitSettled(o, base, shown, taskRunId)
  {
    var failed := ForTask(CommitFailed, taskRunId);
    var begin := base + shown;
    SettlementsAppend(begin, failed);
    SettlementsPair(begin + [failed], x, y);
    assert o == begin + [failed] + [x, y];
    assert o[|begin|] == failed;
  }

  lemma ClosedWithCommit(o: seq<PublicEvent>, base: seq<PublicEvent>, shown: seq<PublicEvent>, taskRunId: string,
                         x: PublicEvent, y: PublicEvent)
    requires (Shows(shown) ==> Commits(shown)) && x.kind.BridgeTerminal? && y.kind.TurnCompleted?
    requires o == base + shown + [x, y]
    ensures CommitSettled(o, base, shown, taskRunId)
  {
    SettlementsPair(base + shown, x, y);
    if Shows(shown) {
      var i :| 0 <= i < |shown| && shown[i].kind in COMMIT_SETTLED;
      assert o[|base| + i] == shown[i];
    }
  }

  lemma ClosingSettles(base: seq<PublicEvent>, shown: seq<PublicEvent>, taskRunId: string, taskStatus: string)
    ensures CommitSettled(base + shown + Closing(shown, taskRunId, taskStatus), base, shown, taskRunId)
  {
    var o := base + shown + Closing(shown, taskRunId, taskStatus);
    var x, y := ForTask(BridgeTerminal, taskRunId), Completion(taskRunId, taskStatus);
    if Shows(shown) && !Commits(shown) {
      ClosedWithoutCommit(o, base, shown, taskRunId, x, y);
    } else {
      assert Closing(shown, taskRunId, taskStatus) == [x, y];
      ClosedWithCommit(o, base, shown, taskRunId, x, y);
    }
  }

  /** The commits among what a bridge offers after `from`: an offered terminal follows a settled
      commit if output was shown; a commit past those of the task is one failed commit of the
      writer, and only if output was shown and the task supplied none. */
  predicate CommitFirst(o: seq<PublicEvent>, from: nat, shown: seq<PublicEvent>, taskRunId: string)
    requires from <= |o|
  {
    && (forall j :: from <= j < |o| && o[j].kind.BridgeTerminal? ==> (Shows(o[from..j]) ==> Commits(o[from..j])))
    && (forall j :: from + |shown| <= j < |o| && o[j].kind in COMMIT_SETTLED ==>
          j == from + |shown| && o[j] == ForTask(CommitFailed, taskRunId) && Shows(shown) && !Commits(shown))
  }

  lemma {:induction false} StampedPlain(ps: seq<PublicEvent>, taskRunId: string)
    requires forall i :: 0 <= i < |ps| ==> BridgeProjectable(ps[i].kind)
    ensures forall i :: 0 <= i < |Stamped(ps, taskRunId)| ==> !Stamped(ps, taskRunId)[i].kind.BridgeTerminal?
    decreases |ps|
  {
    if ps == [] {
    } else {
      StampedPlain(ps[1..], taskRunId);
    }
  }

  lemma {:induction false} ContributionsPlain(task: seq<TaskEvent>, taskRunId: string, n: nat)
    requires n <= |task|
    ensures forall i :: 0 <= i < |Contributions(task, taskRunId, n)| ==> !Contributions(task, taskRunId, n)[i].kind.BridgeTerminal?
    decreases n
  {
    if n <= 1 {
    } else {
      ContributionsPlain(task, taskRunId, n - 1);
      StampedPlain(task[n - 1].projections, taskRunId);
    }
  }

  /** Events by where they come from: shown, the writer's commit, the terminal pair. */
  lemma ClosingAt(base: seq<PublicEvent>, shown: seq<PublicEvent>, extra: seq<PublicEvent>, x: PublicEvent, y: PublicEvent, j: nat)
    requires |base| <= j < |base| + |shown| + |extra| + 2
    ensures var all, at := base + shown + (extra + [x, y]), j - |base|;
            && all[j] == (if at < |shown| then shown[at] else if at < |shown| + |extra| then extra[at - |shown|]
                          else if at == |shown| + |extra| then x else y)
            && (at == |shown| + |extra| ==> all[|base|..j] == shown + extra)
  {
  }

  /** Any beginning of what a bridge offers when it ends. */
  lemma ClosingCommits(o: seq<PublicEvent>, base: seq<PublicEvent>, shown: seq<PublicEvent>, taskRunId: string, taskStatus: string)
    requires base <= o <= base + shown + Closing(shown, taskRunId, taskStatus)
    requires forall i :: 0 <= i < |shown| ==> !shown[i].kind.BridgeTerminal?
    ensures CommitFirst(o, |base|, shown, taskRunId)
  {
    var extra := if Shows(shown) && !Commits(shown) then [ForTask(CommitFailed, taskRunId)] else [];
    var x, y := ForTask(BridgeTerminal, taskRunId), Completion(taskRunId, taskStatus);
    var all := base + shown + (extra + [x, y]);
    assert all == base + shown + Closing(shown, taskRunId, taskStatus);
    forall j | |base| <= j < |o| && o[j].kind.BridgeTerminal? ensures Shows(o[|base|..j]) ==> Commits(o[|base|..j]) {
      ClosingAt(base, shown, extra, x, y, j);
      assert o[|base|..j] == all[|base|..j];
      ShowsAppend(shown, extra);
      ShowsOne(ForTask(CommitFailed, taskRunId));
    }
    forall j | |base| + |shown| <= j < |o| && o[j].kind in COMMIT_SETTLED
      ensures j == |base| + |shown| && o[j] == ForTask(CommitFailed, taskRunId) && Shows(shown) && !Commits(shown)
    {
      ClosingAt(base, shown, extra, x, y, j);
    }
  }

  lemma PrefixChain(a: seq<PublicEvent>, b: seq<PublicEvent>, c: seq<PublicEvent>)
    requires a <= b && b <= c
    ensures a <= c
  {
  }

  lemma BridgeOffersClosing(base: seq<PublicEvent>, task: seq<TaskEvent>, taskRunId: string, c: int)
    requires -1 <= c < |task|
    ensures var shown := Contributions(task, taskRunId, c + 1);
            base + BridgeOffers(task, taskRunId, c)
            == base + shown + (if 1 <= c && EndsTask(task[c], taskRunId) then Closing(shown, taskRunId, task[c].status) else [])
  {
    if 1 <= c {
      var before, mine := Contributions(task, taskRunId, c), Contribution(task[c], taskRunId);
      assert Contributions(task, taskRunId, c + 1) == before + mine;
    }
  }

  lemma BridgeCommits(base: seq<PublicEvent>, s: State, task: seq<TaskEvent>, taskRunId: string)
    requires BridgeTrace(base, s, task, taskRunId)
    ensures base <= s.out.offered && CommitFirst(s.out.offered, |base|, Contributions(task, taskRunId, s.task.cursor + 1), taskRunId)
  {
    var c := s.task.cursor;
    var shown := Contributions(task, taskRunId, c + 1);
    var status := if 1 <= c then task[c].status else "";
    var all := base + BridgeOffers(task, taskRunId, c);
    BridgeOffersClosing(base, task, taskRunId, c);
    ContributionsPlain(task, taskRunId, c + 1);
    PrefixChain(s.out.offered, all, base + shown + Closing(shown, taskRunId, status));
    PrefixChain(base, base + Contributions(task, taskRunId, Max(c, 0)), s.out.offered);
    ClosingCommits(s.out.offered, base, shown, taskRunId, status);
  }

  /** Commit settlement, for every run that went to the bridge, halted or not: no
      `task_bridge_terminal` is offered before a commit ack, failure or skip if final output was
      shown before it; the writer adds at most one failed commit of its own, and only when output
      was shown and the task supplied none. A bridge that closed ends with the terminal pair and
      has that commit exactly then. */
  lemma CommitSettlement(env: Env, w: World)
    requires BridgesTask(env, w)
    ensures var s, base := Bridged(env, w), Streamed(env, w).out.offered;
            && -1 <= s.task.cursor < |w.task| && base <= s.out.offered
            && var shown := Contributions(w.task, BridgedTask(env, w), s.task.cursor + 1);
               && CommitFirst(s.out.offered, |base|, shown, BridgedTask(env, w))
               && (s.task.closed ==> 1 <= s.task.cursor && CommitSettled(s.out.offered, base, shown, BridgedTask(env, w)))
  {
    BridgeExactlyOnce(env, w);
    var s, base, taskRunId := Bridged(env, w), Streamed(env, w).out.offered, BridgedTask(env, w);
    BridgeCommits(base, s, w.task, taskRunId);
    if s.task.closed {
      BridgeOffersClosing(base, w.task, taskRunId, s.task.cursor);
      ClosingSettles(base, Contributions(w.task, taskRunId, s.task.cursor + 1), taskRunId, w.task[s.task.cursor].status);
    }
  }

  /** The bridge asks for the task log from `task_event_start_offset` 0 but never reads offset
      0: `0 or -1` is the starting cursor. A task whose only event ends it is never bridged to
      an end, whatever the listings and wake-ups. */
  lemma OffsetZeroIsNeverBridged(env: Env, w: World)
    requires BridgesTask(env, w)
    ensures 0 !in Bridged(env, w).task.handled
    ensures |w.task| == 1 ==> !Bridged(env, w).task.closed && Bridged(env, w).task.handled == []
  {
    BridgeExactlyOnce(env, w);
    if |w.task| == 1 { assert Bridged(env, w).task.cursor == -1; }
  }
}
