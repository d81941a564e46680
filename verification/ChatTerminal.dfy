/** What the end of a run means: the registry's record against the log, the status a bridged task
    gives its run, and the handoff terminal that the client never sees. */
module ChatTerminal {
  import opened Common
  import opened ChatRun
  import opened ChatBridge
  import opened ChatLog
  import opened ChatSettlement

  // ---- the registry record speaks of the log ----

  /** The statuses of a turn that was completed, as opposed to orphaned. */
  predicate IsSettled(status: RunStatus) {
    status.Completed? || status.Failed? || status.Stopped?
  }

  /** The record points at a logged turn completion. */
  predicate Pointing(out: Output) {
    0 <= out.run.latest < |out.log| && out.log[out.run.latest].event.kind.TurnCompleted?
  }

  /** A logged completion is the last line of the log and ends the turn. */
  predicate CompletionLast(out: Output) {
    && (forall i :: 0 <= i < |out.log| && out.log[i].event.kind.TurnCompleted? ==> i == |out.log| - 1)
    && (OpenTurn(out) ==> forall i :: 0 <= i < |out.log| ==> !out.log[i].event.kind.TurnCompleted?)
  }

  /** The record points into the log. Unless orphaned, its status is that of a completed turn
      exactly when it points at a logged completion, the last offer, of that status. */
  predicate RecordOfLog(out: Output) {
    && CompletionLast(out)
    && (out.run.latest == -1 || 0 <= out.run.latest < |out.log|)
    && (!out.run.status.Orphaned? ==> (IsSettled(out.run.status) <==> Pointing(out)))
    && (out.run.terminalEvent <==> IsSettled(out.run.status))
    && (IsSettled(out.run.status) ==>
          && out.offered != [] && out.log[out.run.latest].event == out.offered[|out.offered| - 1]
          && out.run.status == StatusFor(out.offered[|out.offered| - 1]))
  }

  lemma EmitCompletes(env: Env, out: Output, e: PublicEvent)
    requires CompletionLast(out) && OpenTurn(out)
    ensures CompletionLast(Emit(env, out, e))
  {
    CountAppend(out.offered, e, TurnCompleted);
  }

  lemma EmitRecordsLog(env: Env, out: Output, e: PublicEvent)
    requires RecordOfLog(out) && OpenTurn(out)
    ensures RecordOfLog(Emit(env, out, e))
  {
    EmitCompletes(env, out, e);
  }

  lemma UpdateRecords(out: Output, status: RunStatus)
    requires RecordOfLog(out) && (status.Orphaned? || (status.Running? && OpenTurn(out)))
    ensures RecordOfLog(Update(out, status))
  {
  }

  lemma RecordKept(env: Env)
    ensures Kept(env, RecordOfLog)
  {
    forall out, e | RecordOfLog(out) && OpenTurn(out) ensures RecordOfLog(Emit(env, out, e)) { EmitRecordsLog(env, out, e); }
    forall out | RecordOfLog(out) ensures RecordOfLog(Update(out, Orphaned)) { UpdateRecords(out, Orphaned); }
    forall out | RecordOfLog(out) && OpenTurn(out) ensures RecordOfLog(Update(out, Running)) { UpdateRecords(out, Running); }
  }

  lemma StartRecords(env: Env)
    ensures RecordOfLog(Start(env).out)
  {
    var out := Start(env).out;
    assert |out.log| <= 1 && forall i :: 0 <= i < |out.log| ==> out.log[i].event == Plain(ChatRunStarted);
  }

  lemma RunRecords(env: Env, w: World)
    ensures RecordOfLog(RunChat(env, w).out)
  {
    RecordKept(env);
    StartRecords(env);
    RunKeeps(env, RecordOfLog, w);
  }

  /** In every run, whatever registry writes fail: the record points into the log; it is orphaned
      exactly when an interruption was recorded; otherwise it is completed, failed or stopped
      exactly when it points at a logged completion, and then of that completion's status. So a
      reader finds it ended exactly when the run was interrupted or it points at a completion. */
  lemma RegistryFollowsLog(env: Env, w: World)
    ensures var r := RunChat(env, w);
            var run := r.out.run;
            && (run.latest == -1 || 0 <= run.latest < |r.out.log|)
            && (run.status.Orphaned? <==> r.interruptions != [])
            && (IsSettled(run.status) <==> r.interruptions == [] && Pointing(r.out))
            && (IsSettled(run.status) ==> run.status == StatusFor(r.out.log[run.latest].event))
            && (run.terminalEvent <==> IsSettled(run.status))
            && (IsEnded(run.status) <==> r.interruptions != [] || Pointing(r.out))
  {
    RunRecords(env, w);
    OrphanedIffInterrupted(env, w);
  }

  /** A run whose record is terminal offered one turn completion, as its last event, and the
      recorded status is the one that event carries. */
  lemma RecordedStatus(env: Env, w: World)
    requires RunChat(env, w).out.run.terminalEvent
    ensures var out := RunChat(env, w).out;
            && Count(out.offered, TurnCompleted) == 1 && EndsCompleted(out.offered)
            && out.run.status == StatusFor(out.offered[|out.offered| - 1])
  {
    RunRecords(env, w);
    StreamedSettles(env, w);
    if ViaBridge(env, w) { BridgedSettles(env, w); }
    CountLast(RunChat(env, w).out.offered);
  }

  // ---- the record's last word ----

  /** A write after which a reader finds the record ended. */
  predicate Ending(x: Write) {
    (x.Marked? || x.Updated?) && IsEnded(x.status)
  }

  /** After a write that ends the record nothing is logged and the record stays ended. */
  predicate LastWord(writes: seq<Write>) {
    forall i, j :: 0 <= i < j < |writes| && Ending(writes[i]) ==> Ending(writes[j])
  }

  predicate Undecided(writes: seq<Write>) {
    forall i :: 0 <= i < |writes| ==> !Ending(writes[i])
  }

  predicate WritesEnd(out: Output) {
    LastWord(out.writes) && (OpenTurn(out) ==> Undecided(out.writes))
  }

  lemma EmitEnds(env: Env, out: Output, e: PublicEvent)
    requires WritesEnd(out) && OpenTurn(out)
    ensures WritesEnd(Emit(env, out, e))
  {
    CountAppend(out.offered, e, TurnCompleted);
  }

  lemma EndsKept(env: Env)
    ensures Kept(env, WritesEnd)
  {
    forall out, e | WritesEnd(out) && OpenTurn(out) ensures WritesEnd(Emit(env, out, e)) { EmitEnds(env, out, e); }
  }

  lemma StartEnds(env: Env)
    ensures WritesEnd(Start(env).out)
  {
    var out := Start(env).out;
    assert Undecided(out.writes);
  }

  /** An ended record is the writer's last word, in every run: nothing is logged after it, and only
      an interruption can replace it, by another ended one. */
  lemma EndedIsTheLastWord(env: Env, w: World)
    ensures LastWord(RunChat(env, w).out.writes)
  {
    EndsKept(env);
    StartEnds(env);
    RunKeeps(env, WritesEnd, w);
  }

  // ---- the status of a bridged run ----

  /** The registry status of a run whose task ended with this status. */
  function RunStatusForTask(taskStatus: string): RunStatus {
    if taskStatus == "" || taskStatus == "completed" then Completed
    else if taskStatus in {"aborted", "cancelled", "canceled", "stopped", "blocked"} then Stopped
    else Failed
  }

  /** A bridged run ends as its task did: the two status mappings and the registry write
      compose, whatever the filter and the registry did before. */
  lemma BridgedStatus(env: Env, w: World)
    requires Ended(env, w) && BridgesTask(env, w) && Bridged(env, w).task.closed
    requires RunChat(env, w).out.run.terminalEvent
    ensures 1 <= Bridged(env, w).task.cursor < |w.task|
    ensures RunChat(env, w).out.run.status == RunStatusForTask(w.task[Bridged(env, w).task.cursor].status)
  {
    RecordedStatus(env, w);
    BridgeExactlyOnce(env, w);
    var s := Bridged(env, w);
    var c := s.task.cursor;
    var shown := Contributions(w.task, BridgedTask(env, w), c + 1);
    ClosingEnds(Streamed(env, w).out.offered + shown, shown, BridgedTask(env, w), w.task[c].status);
    assert RunChat(env, w).out == s.out;
    TerminalEventStatus(BridgedTask(env, w), w.task[c].status);
  }

  lemma ClosingEnds(before: seq<PublicEvent>, shown: seq<PublicEvent>, taskRunId: string, taskStatus: string)
    ensures var o := before + Closing(shown, taskRunId, taskStatus);
            o != [] && o[|o| - 1] == Completion(taskRunId, taskStatus)
  {
  }

  lemma TerminalEventStatus(taskRunId: string, taskStatus: string)
    ensures StatusFor(Completion(taskRunId, taskStatus)) == RunStatusForTask(taskStatus)
  {
    assert "stopped"[0] == 's' && "failed"[0] == 'f' && "completed"[0] == 'c';
  }

  // ---- the handoff terminal is swallowed ----

  predicate NoHandoff(o: seq<PublicEvent>) {
    forall i :: 0 <= i < |o| ==> !IsHandoff(o[i])
  }

  lemma OfferSwallows(env: Env, s: State, e: PublicEvent)
    requires NoHandoff(s.out.offered) && !IsHandoff(e)
    ensures NoHandoff(Offer(env, s, e).out.offered)
  {
  }

  lemma OpenBridgeSwallows(env: Env, s: State, taskRunId: string)
    requires NoHandoff(s.out.offered) && s.turn.Some?
    ensures NoHandoff(OpenBridge(env, s, taskRunId).out.offered)
    ensures s.halt == Going && OpenBridge(env, s, taskRunId).halt == Going ==> OpenBridge(env, s, taskRunId).bridge.Some?
  {
    var context := BridgeContext(taskRunId, s.turn.value.turnId, s.turn.value.turnRunId, NextSequence(s.out.run));
    OfferSwallows(env, s.(bridge := Some(context)), ForTask(BridgeStarted, taskRunId));
  }

  /** The stream loop: nothing offered is a handoff, and once one was observed the loop is over
      with a bridge to run and no terminal. */
  predicate Swallowed(s: State) {
    NoHandoff(s.out.offered) && (s.handoff ==> s.bridge.Some? && !s.terminal)
  }

  lemma ProjectSwallows(env: Env, s: State, ev: StreamEvent, p: PublicEvent)
    requires Swallowed(s)
    ensures Swallowed(Project(env, s, ev, p))
  {
    var q := WithDefaults(p, ev);
    OfferSwallows(env, s, Plain(RuntimeStatus));
    if !IsHandoff(q) { OfferSwallows(env, s, q); }
    if s.turn.Some? {
      OpenBridgeSwallows(env, s, BridgedTaskRunId(q, ev));
      if IsOriginBound(q) { OpenBridgeSwallows(env, Offer(env, s, q), BridgedTaskRunId(q, ev)); }
    }
  }

  lemma {:induction false} ProjectAllSwallows(env: Env, s: State, ev: StreamEvent, ps: seq<PublicEvent>)
    requires Swallowed(s)
    ensures Swallowed(ProjectAll(env, s, ev, ps))
    decreases |ps|
  {
    if ps == [] {
    } else {
      ProjectSwallows(env, s, ev, ps[0]);
      ProjectAllSwallows(env, Project(env, s, ev, ps[0]), ev, ps[1..]);
    }
  }

  lemma {:induction false} StreamAllSwallows(env: Env, s: State, inputs: seq<StreamEvent>)
    requires Swallowed(s)
    ensures Swallowed(StreamAll(env, s, inputs))
    decreases |inputs|
  {
    if inputs == [] {
    } else {
      if !StreamOver(s) {
        OfferSwallows(env, s.(turn := TurnContextFrom(inputs[0], NextSequence(s.out.run))), Plain(TurnBound));
        ProjectAllSwallows(env, BindTurn(env, s, inputs[0]), inputs[0], inputs[0].projections);
      }
      StreamAllSwallows(env, StreamStep(env, s, inputs[0]), inputs[1..]);
    }
  }

  /** In every run the stream never offers a handoff terminal; a run that observed one and was not
      halted goes on to the bridge. */
  lemma HandoffIsSwallowed(env: Env, w: World)
    ensures NoHandoff(Streamed(env, w).out.offered)
    ensures Streamed(env, w).handoff && Streamed(env, w).halt == Going ==> NeedsBridge(Streamed(env, w))
  {
    OfferSwallows(env, Init(), Plain(ChatRunStarted));
    assert Swallowed(Start(env));
    StreamAllSwallows(env, Start(env), w.inputs);
  }
}
