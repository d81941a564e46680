/** When the writer touches the registry's record, so that it stays running: at the start, when the
    bridge opens, when it begins to list, and at every wait that times out. */
module ChatTouches {
  import opened Common
  import opened ChatRun
  import opened ChatBridge
  import opened ChatSettlement

  function Touches(writes: seq<Write>): nat {
    if writes == [] then 0
    else Touches(writes[..|writes| - 1]) + (if writes[|writes| - 1] == Updated(Running) then 1 else 0)
  }

  /** The waits that time out, where a listing holds nothing past the earlier ones. */
  function IdleTimeouts(seen: nat, rounds: seq<Round>, task: seq<TaskEvent>): nat
    decreases |rounds|
  {
    if rounds == [] then 0
    else
      var n := Min(rounds[0].listed, |task|);
      (if n <= seen && rounds[0].wait.TimedOut? then 1 else 0) + IdleTimeouts(Max(seen, n), rounds[1..], task)
  }

  lemma TouchesAppend(writes: seq<Write>, x: Write)
    ensures Touches(writes + [x]) == Touches(writes) + (if x == Updated(Running) then 1 else 0)
  {
    assert (writes + [x])[..|writes|] == writes;
  }

  // ---- events do not touch the record ----

  lemma LogTouchesNot(env: Env, out: Output, e: PublicEvent, sequence: int)
    ensures Touches(Log(env, out, e, sequence).writes) == Touches(out.writes)
  {
    TouchesAppend(out.writes, Logged(e));
    TouchesAppend(out.writes + [Logged(e)], Marked(|out.log|, StatusFor(e)));
  }

  lemma AppendTouchesNot(env: Env, s: State, e: PublicEvent)
    ensures Touches(Append(env, s, e).out.writes) == Touches(s.out.writes)
  {
    LogTouchesNot(env, s.out, e, NextSequence(s.out.run));
  }

  lemma {:induction false} AppendTaskAllTouchesNot(env: Env, s: State, ps: seq<PublicEvent>, taskRunId: string)
    ensures Touches(AppendTaskAll(env, s, ps, taskRunId).out.writes) == Touches(s.out.writes)
    decreases |ps|
  {
    if ps == [] {
    } else {
      AppendTouchesNot(env, s.(task := Observe(s.task, ps[0].kind)),
                       ps[0].(taskRunId := Some(taskRunId), runtimeTaskRunId := Some(taskRunId)));
      AppendTaskAllTouchesNot(env, AppendTask(env, s, ps[0], taskRunId), ps[1..], taskRunId);
    }
  }

  lemma CloseBridgeTouchesNot(env: Env, s: State, taskRunId: string, taskStatus: string)
    ensures Touches(CloseBridge(env, s, taskRunId, taskStatus).out.writes) == Touches(s.out.writes)
  {
    var failed, ended := ForTask(CommitFailed, taskRunId), ForTask(BridgeTerminal, taskRunId);
    AppendTouchesNot(env, s, failed);
    var settled := if s.task.outputObserved && !s.task.commitObserved then Append(env, s, failed) else s;
    AppendTouchesNot(env, settled, ended);
    AppendTouchesNot(env, Append(env, settled, ended), TerminalEvent(taskRunId, taskStatus));
  }

  lemma ProjectTaskTouchesNot(env: Env, s: State, t: TaskEvent, taskRunId: string)
    ensures Touches(ProjectTask(env, s, t, taskRunId).out.writes) == Touches(s.out.writes)
  {
    if Foreign(t, taskRunId) {
      AppendTouchesNot(env, s, ForTask(RuntimeStatus, taskRunId));
    } else {
      AppendTaskAllTouchesNot(env, s, t.projections, taskRunId);
      CloseBridgeTouchesNot(env, if t.family.BridgePublic? then AppendTaskAll(env, s, t.projections, taskRunId) else s, taskRunId, t.status);
    }
  }

  lemma HandleTaskTouchesNot(env: Env, s: State, t: TaskEvent, offset: nat, taskRunId: string)
    ensures Touches(HandleTask(env, s, t, offset, taskRunId).out.writes) == Touches(s.out.writes)
  {
    ProjectTaskTouchesNot(env, Moved(s, offset), t, taskRunId);
  }

  lemma {:induction false} HandleListedTouchesNot(env: Env, s: State, task: seq<TaskEvent>, from: nat, to: nat, taskRunId: string)
    requires from <= to <= |task|
    ensures Touches(HandleListed(env, s, task, from, to, taskRunId).out.writes) == Touches(s.out.writes)
    decreases |task| - from
  {
    if from == to {
    } else {
      HandleTaskTouchesNot(env, s, task[from], from, taskRunId);
      HandleListedTouchesNot(env, HandleTask(env, s, task[from], from, taskRunId), task, from + 1, to, taskRunId);
    }
  }

  // ---- the stream ----

  ghost predicate Updates(env: Env, ok: bool) {
    forall p: nat :: env.updateOk(p) == ok
  }

  function Taken(ok: bool, n: nat): nat {
    if ok then n else 0
  }

  /** While the stream goes on the record was touched at the start, and when the bridge opened. */
  predicate StreamTouched(s: State, ok: bool) {
    s.halt == Going ==> Touches(s.out.writes) == Taken(ok, if s.bridge.Some? then 2 else 1)
  }

  lemma TouchTouches(env: Env, s: State, ok: bool)
    requires Updates(env, ok) && s.halt == Going
    ensures Touches(Touch(env, s).out.writes) == Touches(s.out.writes) + Taken(ok, 1)
  {
    TouchesAppend(s.out.writes, Updated(Running));
  }

  lemma OfferTouches(env: Env, s: State, e: PublicEvent, ok: bool)
    requires StreamTouched(s, ok)
    ensures StreamTouched(Offer(env, s, e), ok)
  {
    AppendTouchesNot(env, s, e);
  }

  lemma OpenBridgeTouches(env: Env, s: State, taskRunId: string, ok: bool)
    requires s.turn.Some? && Updates(env, ok) && StreamTouched(s, ok)
    ensures StreamTouched(OpenBridge(env, s, taskRunId), ok)
  {
    if s.halt == Going && s.bridge.None? {
      var context := BridgeContext(taskRunId, s.turn.value.turnId, s.turn.value.turnRunId, NextSequence(s.out.run));
      var bound, e := s.(bridge := Some(context)), ForTask(BridgeStarted, taskRunId);
      AppendTouchesNot(env, bound, e);
      if Offer(env, bound, e).halt == Going { TouchTouches(env, Offer(env, bound, e), ok); }
    }
  }

  lemma ProjectTouches(env: Env, s: State, ev: StreamEvent, p: PublicEvent, ok: bool)
    requires Updates(env, ok) && StreamTouched(s, ok)
    ensures StreamTouched(Project(env, s, ev, p), ok)
  {
    if StreamOver(s) { return; }
    var q := WithDefaults(p, ev);
    OfferTouches(env, s, q, ok);
    if s.turn.None? {
      OfferTouches(env, s, Plain(RuntimeStatus), ok);
    } else if IsOriginBound(q) {
      OpenBridgeTouches(env, Offer(env, s, q), BridgedTaskRunId(q, ev), ok);
    } else if IsHandoff(q) {
      OpenBridgeTouches(env, s, BridgedTaskRunId(q, ev), ok);
    }
  }

  lemma {:induction false} ProjectAllTouches(env: Env, s: State, ev: StreamEvent, ps: seq<PublicEvent>, ok: bool)
    requires Updates(env, ok) && StreamTouched(s, ok)
    ensures StreamTouched(ProjectAll(env, s, ev, ps), ok)
    decreases |ps|
  {
    if ps == [] {
    } else {
      ProjectTouches(env, s, ev, ps[0], ok);
      ProjectAllTouches(env, Project(env, s, ev, ps[0]), ev, ps[1..], ok);
    }
  }

  lemma {:induction false} StreamAllTouches(env: Env, s: State, inputs: seq<StreamEvent>, ok: bool)
    requires Updates(env, ok) && StreamTouched(s, ok)
    ensures StreamTouched(StreamAll(env, s, inputs), ok)
    decreases |inputs|
  {
    if inputs == [] {
    } else {
      var created := TurnContextFrom(inputs[0], NextSequence(s.out.run));
      OfferTouches(env, s.(turn := created), Plain(TurnBound), ok);
      ProjectAllTouches(env, BindTurn(env, s, inputs[0]), inputs[0], inputs[0].projections, ok);
      StreamAllTouches(env, StreamStep(env, s, inputs[0]), inputs[1..], ok);
    }
  }

  lemma StreamedTouches(env: Env, w: World, ok: bool)
    requires Updates(env, ok)
    ensures StreamTouched(Streamed(env, w), ok)
  {
    var s := Init();
    TouchesAppend(s.out.writes, Updated(Running));
    LogTouchesNot(env, if ok then Update(s.out, Running) else s.out, Plain(ChatRunStarted), 0);
    StreamAllTouches(env, Start(env), w.inputs, ok);
  }

  // ---- the bridge ----

  predicate Waits(s: State) {
    s.halt == Going && !s.task.closed
  }

  /** A bridge that still waits after a listing is at its last offset or where it was; 0 is no place
      to be. */
  lemma {:induction false} ListedCursor(env: Env, s: State, task: seq<TaskEvent>, from: nat, to: nat, taskRunId: string)
    requires from <= to <= |task| && -1 <= s.task.cursor
    ensures var r := HandleListed(env, s, task, from, to, taskRunId);
            Waits(r) ==> Waits(s) && r.task.cursor == if from < to && 2 <= to then Max(s.task.cursor, to - 1) else s.task.cursor
    decreases |task| - from
  {
    if from == to {
    } else {
      ListedCursor(env, HandleTask(env, s, task[from], from, taskRunId), task, from + 1, to, taskRunId);
    }
  }

  lemma PassTouches(env: Env, s: State, task: seq<TaskEvent>, round: Round, taskRunId: string, ok: bool)
    requires Updates(env, ok) && -1 <= s.task.cursor
    ensures var r, n, seen := Pass(env, s, task, round, taskRunId), Min(round.listed, |task|), Max(s.task.cursor, 0) + 1;
            Waits(r) ==>
              && -1 <= r.task.cursor && Max(r.task.cursor, 0) + 1 == Max(seen, n)
              && Touches(r.out.writes) == Touches(s.out.writes) + Taken(ok, if n <= seen && round.wait.TimedOut? then 1 else 0)
  {
    var to := Min(round.listed, |task|);
    ListedCursor(env, s, task, 0, to, taskRunId);
    HandleListedTouchesNot(env, s, task, 0, to, taskRunId);
    var listed := HandleListed(env, s, task, 0, to, taskRunId);
    if listed.halt == Going { TouchTouches(env, listed, ok); }
  }

  lemma {:induction false} PassesTouch(env: Env, s: State, task: seq<TaskEvent>, rounds: seq<Round>, taskRunId: string, ok: bool)
    requires Updates(env, ok) && -1 <= s.task.cursor
    requires Waits(Passes(env, s, task, rounds, taskRunId))
    ensures Touches(Passes(env, s, task, rounds, taskRunId).out.writes)
            == Touches(s.out.writes) + Taken(ok, IdleTimeouts(Max(s.task.cursor, 0) + 1, rounds, task))
    decreases |rounds|
  {
    if rounds == [] {
    } else {
      var passed := Pass(env, s, task, rounds[0], taskRunId);
      HaltSticks(env, passed, task, rounds[1..], taskRunId);
      PassTouches(env, s, task, rounds[0], taskRunId, ok);
      PassesTouch(env, passed, task, rounds[1..], taskRunId, ok);
    }
  }

  /** A bridge that waits: the run has touched the record at the start, when the bridge opened, when it
      began to list, and at every wait that timed out; with a registry that takes no update, never. */
  lemma WaitingBridgeTouches(env: Env, w: World, ok: bool)
    requires Updates(env, ok) && BridgesTask(env, w) && Waits(Bridged(env, w))
    ensures Touches(Bridged(env, w).out.writes) == Taken(ok, 3 + IdleTimeouts(1, w.rounds, w.task))
  {
    var s := Streamed(env, w);
    StreamedTouches(env, w, ok);
    TouchTouches(env, s.(task := s.task.(cursor := -1)), ok);
    PassesTouch(env, Begun(env, s), w.task, w.rounds, BridgedTask(env, w), ok);
  }
}
