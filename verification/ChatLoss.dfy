/** When a run that offered its terminal is not settled once: the exact condition, in what the
    environment does at the terminal's position, with runs in which a cancellation or a failed
    mark loses it. */
module ChatLoss {
  import opened Common
  import opened ChatRun
  import opened ChatLog
  import opened ChatSettlement

  /** The registry offset lies in the log, so a successful mark always advances it. */
  predicate Inside(out: Output) {
    out.run.latest < |out.log|
  }

  lemma EmitInside(env: Env, out: Output, e: PublicEvent)
    requires Inside(out)
    ensures Inside(Emit(env, out, e)) && |out.log| <= |Emit(env, out, e).log|
  {
  }

  lemma InsideKept(env: Env)
    ensures Kept(env, Inside)
  {
    forall out, e | Inside(out) ensures Inside(Emit(env, out, e)) { EmitInside(env, out, e); }
  }

  lemma AppendInside(env: Env, s: State, e: PublicEvent)
    requires Inside(s.out)
    ensures Inside(Append(env, s, e).out) && |s.out.log| <= |Append(env, s, e).out.log|
  {
    EmitInside(env, s.out, e);
  }

  lemma AppendCounts(env: Env, s: State, e: PublicEvent)
    requires Completions(s) == 0
    ensures e.kind != TurnCompleted ==> Completions(Append(env, s, e)) == 0
    ensures Completions(Append(env, s, e)) != 0 ==> s.halt == Going && Append(env, s, e).halt == Going
  {
    CountAppend(s.out.offered, e, TurnCompleted);
  }

  /** The registry offset advances exactly when the event was logged and marked. */
  lemma AppendAdvances(env: Env, s: State, e: PublicEvent)
    requires Inside(s.out) && s.halt == Going && Append(env, s, e).halt == Going
    ensures var r, p := Append(env, s, e), |s.out.offered|;
            && r.out.offered == s.out.offered + [e]
            && (r.out.run.latest > s.out.run.latest <==> Accepted(env, p, e) && env.markOk(p))
            && (r.out.run.latest > s.out.run.latest ==> r.out.run.latest == |s.out.log|)
  {
  }

  // ---- the stream path ----

  /** A terminal offered by the stream is cancelled behind exactly when it was logged and marked and
      a cancellation arrives at the flush that this allows. */
  predicate StreamLoss(env: Env, s: State) {
    && Inside(s.out)
    && (Completions(s) == 1 ==> (s.halt.Cancelled? <==> TerminalTaken(env, s.out.offered) && env.cancelAt(|s.out.offered|)))
  }

  lemma FlushLoss(env: Env, previous: int, s: State)
    requires Inside(s.out) && s.halt == Going
    requires Completions(s) == 1 ==> (TerminalTaken(env, s.out.offered) <==> s.out.run.latest > previous)
    ensures StreamLoss(env, Flush(env, previous, s)) && Completions(Flush(env, previous, s)) == Completions(s)
  {
  }

  lemma OfferLoss(env: Env, s: State, e: PublicEvent)
    requires Inside(s.out) && Completions(s) == 0
    ensures StreamLoss(env, Offer(env, s, e))
    ensures e.kind != TurnCompleted ==> Completions(Offer(env, s, e)) == 0
  {
    AppendInside(env, s, e);
    AppendCounts(env, s, e);
    var r := Append(env, s, e);
    if r.halt == Going {
      AppendAdvances(env, s, e);
      TakenLast(env, s.out.offered, e);
      CountAppend(s.out.offered, e, TurnCompleted);
      FlushLoss(env, s.out.run.latest, r);
    }
  }

  lemma OpenBridgeLoss(env: Env, s: State, taskRunId: string)
    requires Inside(s.out) && Completions(s) == 0 && s.turn.Some?
    ensures Inside(OpenBridge(env, s, taskRunId).out) && Completions(OpenBridge(env, s, taskRunId)) == 0
  {
    var context := BridgeContext(taskRunId, s.turn.value.turnId, s.turn.value.turnRunId, NextSequence(s.out.run));
    OfferLoss(env, s.(bridge := Some(context)), ForTask(BridgeStarted, taskRunId));
  }

  lemma OriginLoss(env: Env, s: State, q: PublicEvent, taskRunId: string)
    requires Inside(s.out) && Completions(s) == 0 && s.turn.Some? && q.kind.OriginBound?
    ensures StreamLoss(env, OpenBridge(env, Offer(env, s, q), taskRunId))
  {
    OfferLoss(env, s, q);
    OpenBridgeLoss(env, Offer(env, s, q), taskRunId);
  }

  lemma ProjectLoss(env: Env, s: State, ev: StreamEvent, p: PublicEvent)
    requires StreamInv(env, s) && StreamLoss(env, s)
    ensures StreamLoss(env, Project(env, s, ev, p))
  {
    if StreamOver(s) { return; }
    var q := WithDefaults(p, ev);
    if s.turn.None? && NeedsTurn(q.kind) {
      OfferLoss(env, s, Plain(RuntimeStatus));
    } else if IsOriginBound(q) {
      if s.turn.Some? { OriginLoss(env, s, q, BridgedTaskRunId(q, ev)); }
    } else if IsHandoff(q) {
      if s.turn.Some? { OpenBridgeLoss(env, s, BridgedTaskRunId(q, ev)); }
    } else {
      OfferLoss(env, s, q);
    }
  }

  lemma {:induction false} ProjectAllLoss(env: Env, s: State, ev: StreamEvent, ps: seq<PublicEvent>)
    requires StreamInv(env, s) && StreamLoss(env, s)
    ensures StreamLoss(env, ProjectAll(env, s, ev, ps))
    decreases |ps|
  {
    if ps == [] {
    } else {
      ProjectSettles(env, s, ev, ps[0]);
      ProjectLoss(env, s, ev, ps[0]);
      ProjectAllLoss(env, Project(env, s, ev, ps[0]), ev, ps[1..]);
    }
  }

  lemma BindTurnLoss(env: Env, s: State, ev: StreamEvent)
    requires StreamInv(env, s) && StreamLoss(env, s) && !StreamOver(s)
    ensures StreamLoss(env, BindTurn(env, s, ev))
  {
    OfferLoss(env, s.(turn := TurnContextFrom(ev, NextSequence(s.out.run))), Plain(TurnBound));
  }

  lemma {:induction false} StreamAllLoss(env: Env, s: State, inputs: seq<StreamEvent>)
    requires StreamInv(env, s) && StreamLoss(env, s)
    ensures StreamLoss(env, StreamAll(env, s, inputs))
    decreases |inputs|
  {
    if inputs == [] {
    } else {
      if !StreamOver(s) {
        BindTurnLoss(env, s, inputs[0]);
        BindTurnSettles(env, s, inputs[0]);
        ProjectAllLoss(env, BindTurn(env, s, inputs[0]), inputs[0], inputs[0].projections);
        ProjectAllSettles(env, BindTurn(env, s, inputs[0]), inputs[0], inputs[0].projections);
      }
      StreamAllLoss(env, StreamStep(env, s, inputs[0]), inputs[1..]);
    }
  }

  lemma StartLoss(env: Env)
    ensures StreamLoss(env, Start(env))
  {
    StartSettles(env);
    assert Inside(Start(env).out);
  }

  lemma StreamedLoss(env: Env, w: World)
    ensures StreamLoss(env, Streamed(env, w))
  {
    StartSettles(env);
    StartLoss(env);
    StreamAllLoss(env, Start(env), w.inputs);
    StreamAllSettles(env, Start(env), w.inputs);
  }

  // ---- the bridge path ----

  /** A terminal of the bridge that was logged and marked is cancelled behind exactly when a
      cancellation arrives at the flush after it. */
  predicate BridgeLoss(env: Env, s: State) {
    && Inside(s.out)
    && (Completions(s) == 1 && TerminalTaken(env, s.out.offered) ==> (s.halt.Cancelled? <==> env.cancelAt(|s.out.offered|)))
  }

  /** The state in which the bridge offers its terminal. */
  function BeforeTerminal(env: Env, s: State, taskRunId: string): State {
    var missing := s.task.outputObserved && !s.task.commitObserved;
    Append(env, if missing then Append(env, s, ForTask(CommitFailed, taskRunId)) else s, ForTask(BridgeTerminal, taskRunId))
  }

  lemma BeforeTerminalKeeps(env: Env, s: State, taskRunId: string)
    requires Inside(s.out) && Completions(s) == 0
    ensures var b := BeforeTerminal(env, s, taskRunId);
            Inside(b.out) && |s.out.log| <= |b.out.log| && Completions(b) == 0
  {
    var a := if s.task.outputObserved && !s.task.commitObserved then Append(env, s, ForTask(CommitFailed, taskRunId)) else s;
    AppendInside(env, s, ForTask(CommitFailed, taskRunId));
    AppendCounts(env, s, ForTask(CommitFailed, taskRunId));
    AppendInside(env, a, ForTask(BridgeTerminal, taskRunId));
    AppendCounts(env, a, ForTask(BridgeTerminal, taskRunId));
  }

  /** The closing offers the terminal last, and its mark passes every offset marked before. */
  lemma CloseBridgeAdvances(env: Env, s: State, taskRunId: string, taskStatus: string)
    requires Inside(s.out) && Completions(s) == 0
    ensures var r := CloseBridge(env, s, taskRunId, taskStatus);
            Completions(r) != 0 ==> r.halt == Going && (TerminalTaken(env, r.out.offered) ==> r.out.run.latest > s.out.run.latest)
  {
    BeforeTerminalKeeps(env, s, taskRunId);
    var b, e := BeforeTerminal(env, s, taskRunId), TerminalEvent(taskRunId, taskStatus);
    var r := Append(env, b, e);
    assert r == CloseBridge(env, s, taskRunId, taskStatus);
    AppendCounts(env, b, e);
    if Completions(r) != 0 {
      AppendAdvances(env, b, e);
      TakenLast(env, b.out.offered, e);
    }
  }

  lemma ProjectTaskAdvances(env: Env, s: State, t: TaskEvent, taskRunId: string)
    requires Inside(s.out) && AtMostOneCompletion(env, s, false) && s.halt == Going
    ensures var r := ProjectTask(env, s, t, taskRunId);
            && Inside(r.out)
            && (Completions(r) != 0 ==> r.halt == Going && (TerminalTaken(env, r.out.offered) ==> r.out.run.latest > s.out.run.latest))
  {
    InsideKept(env);
    ProjectTaskKeeps(env, Inside, s, t, taskRunId);
    ProjectTaskAccount(env, s, t, taskRunId);
    if Ends(t, taskRunId) { CloseBridgeAdvances(env, s, taskRunId, t.status); }
  }

  lemma HandleTaskLoss(env: Env, s: State, t: TaskEvent, offset: nat, taskRunId: string)
    requires BridgeInv(env, s) && BridgeLoss(env, s)
    ensures BridgeLoss(env, HandleTask(env, s, t, offset, taskRunId))
  {
    if s.halt != Going || s.task.closed || OrMinusOne(offset) <= s.task.cursor { return; }
    var moved := s.(task := s.task.(cursor := OrMinusOne(offset), handled := s.task.handled + [offset]));
    ProjectTaskAdvances(env, moved, t, taskRunId);
  }

  lemma {:induction false} HandleListedLoss(env: Env, s: State, task: seq<TaskEvent>, from: nat, to: nat, taskRunId: string)
    requires from <= to <= |task| && BridgeInv(env, s) && BridgeLoss(env, s)
    ensures BridgeLoss(env, HandleListed(env, s, task, from, to, taskRunId))
    decreases |task| - from
  {
    if from == to {
    } else {
      var next := HandleTask(env, s, task[from], from, taskRunId);
      assert BridgeInv(env, next) && BridgeLoss(env, next) by {
        HandleTaskSettles(env, s, task[from], from, taskRunId);
        HandleTaskLoss(env, s, task[from], from, taskRunId);
      }
      HandleListedLoss(env, next, task, from + 1, to, taskRunId);
    }
  }

  lemma PassLoss(env: Env, s: State, task: seq<TaskEvent>, round: Round, taskRunId: string)
    requires BridgeInv(env, s) && BridgeLoss(env, s)
    ensures BridgeLoss(env, Pass(env, s, task, round, taskRunId))
  {
    var to := Min(round.listed, |task|);
    HandleListedSettles(env, s, task, 0, to, taskRunId);
    HandleListedLoss(env, s, task, 0, to, taskRunId);
  }

  lemma {:induction false} PassesLoss(env: Env, s: State, task: seq<TaskEvent>, rounds: seq<Round>, taskRunId: string)
    requires BridgeInv(env, s) && BridgeLoss(env, s)
    ensures BridgeLoss(env, Passes(env, s, task, rounds, taskRunId))
    decreases |rounds|
  {
    if rounds == [] {
    } else {
      PassLoss(env, s, task, rounds[0], taskRunId);
      PassSettles(env, s, task, rounds[0], taskRunId);
      PassesLoss(env, Pass(env, s, task, rounds[0], taskRunId), task, rounds[1..], taskRunId);
    }
  }

  lemma BridgedLoss(env: Env, w: World)
    requires ViaBridge(env, w)
    ensures BridgeLoss(env, Bridged(env, w))
  {
    StreamedSettles(env, w);
    StreamedLoss(env, w);
    BegunSettles(env, w);
    var s := Streamed(env, w);
    PassesLoss(env, Begun(env, s), w.task, w.rounds, s.bridge.value.taskRunId);
  }

  // ---- the exact condition ----

  /** The run offered its terminal, at the last position p, and then:
      from the stream, the filter and the registry took it and a cancellation arrived at the flush
      after it; from the bridge, the filter or the registry did not take it, or a cancellation
      arrived at the flush after it. */
  predicate TerminalLost(env: Env, w: World) {
    var s := Bridged(env, w);
    && EndsCompleted(s.out.offered)
    && var p := |s.out.offered| - 1;
       var taken := env.emit(p, s.out.offered[p]) && env.markOk(p);
       if ViaBridge(env, w) then !taken || env.cancelAt(p + 1) else taken && env.cancelAt(p + 1)
  }

  /** Single settlement, for every exit of every run: the turn is settled exactly once if and only
      if its terminal, once offered, was not lost to the environment. */
  lemma SingleSettlement(env: Env, w: World)
    requires RunChat(env, w).exited
    ensures SettledOnce(RunChat(env, w)) <==> !TerminalLost(env, w)
  {
    SettlementAtExit(env, w);
    StreamedSettles(env, w);
    StreamedLoss(env, w);
    if ViaBridge(env, w) {
      BridgedSettles(env, w);
      BridgedLoss(env, w);
    }
    if EndsCompleted(Bridged(env, w).out.offered) { CountLast(Bridged(env, w).out.offered); }
  }

  // ---- runs that lose their terminal ----

  /** Everything is accepted and marked; a cancellation arrives at the second flush. */
  function CancellingEnv(): Env {
    Env((n, e) => true, n => true, n => true, n => false, n => n == 2)
  }

  /** A stream of one event that completes the turn. */
  function OneCompletion(): World {
    World([StreamEvent("message", "", "", "", [Plain(TurnCompleted)])], Exhausted, true, [], [], false)
  }

  lemma CancellingStart()
    ensures var s := Start(CancellingEnv());
            && s.halt == Going && s.out.offered == [Plain(ChatRunStarted)] && s.turn == None && s.out.run.latest == 0
            && !StreamOver(s) && s.interruptions == []
  {
  }

  lemma CancelledOffer(s: State, ev: StreamEvent)
    requires ev == OneCompletion().inputs[0]
    requires s.halt == Going && s.out.offered == [Plain(ChatRunStarted)] && s.turn == None && s.out.run.latest == 0
    requires !StreamOver(s) && |s.out.log| > 0
    ensures var r := StreamStep(CancellingEnv(), s, ev);
            r.halt == Cancelled && r.out.offered == [Plain(ChatRunStarted), Plain(TurnCompleted)] && r.interruptions == s.interruptions
  {
    var env := CancellingEnv();
    assert WithDefaults(ev.projections[0], ev) == Plain(TurnCompleted) && !IsHandoff(Plain(TurnCompleted));
    var r := Project(env, s, ev, ev.projections[0]);
    assert BindTurn(env, s, ev) == s;
    assert ev.projections[1..] == [];
    assert ProjectAll(env, s, ev, ev.projections) == ProjectAll(env, r, ev, []) == r;
  }

  lemma CancelledStream()
    ensures var s := Streamed(CancellingEnv(), OneCompletion());
            s.halt == Cancelled && s.out.offered == [Plain(ChatRunStarted), Plain(TurnCompleted)] && s.interruptions == []
  {
    var env, w := CancellingEnv(), OneCompletion();
    CancellingStart();
    CancelledOffer(Start(env), w.inputs[0]);
    var r := StreamStep(env, Start(env), w.inputs[0]);
    assert w.inputs[1..] == [];
    assert StreamAll(env, Start(env), w.inputs) == StreamAll(env, r, []) == r;
  }

  /** From the stream: the terminal is logged and marked, and the cancellation at the flush after
      it makes the run record an interruption too. */
  lemma CancelledAfterTerminal()
    ensures var (env, w) := (CancellingEnv(), OneCompletion());
            && RunChat(env, w).exited && TerminalLost(env, w) && !SettledOnce(RunChat(env, w))
            && RunChat(env, w).interruptions == [StreamCancelled]
  {
    CancelledStream();
    SingleSettlement(CancellingEnv(), OneCompletion());
  }

  /** Nothing is rejected or raises, and nothing goes wrong before the terminal at position 4. */
  ghost predicate QuietBefore4(env: Env) {
    && (forall n, e :: env.emit(n, e)) && (forall n :: !env.raiseAt(n))
    && (forall n :: n < 4 ==> env.markOk(n)) && (forall n :: n < 5 ==> !env.cancelAt(n))
  }

  /** A turn that hands over to a task, whose log ends the task at offset 1. */
  function HandoffStream(): StreamEvent {
    StreamEvent("harness_run_started", "taskrun:1", "turnrun:turn:1", "turn:1",
                [Plain(TurnCompleted).(terminalReason := HANDOFF_REASON)])
  }

  const EndingTask: seq<TaskEvent> := [TaskEvent("", NotBridged, "", []), TaskEvent("taskrun:1", BridgeEnd, "completed", [])]

  function HandedOver(): World {
    World([HandoffStream()], Exhausted, true, EndingTask, [Round(2, Woken)], false)
  }

  /** The bridge has been opened, after this many offers, and nothing has gone wrong. */
  predicate Waiting(s: State, offers: nat) {
    && s.halt == Going && !s.terminal && !s.task.closed && s.task.cursor == -1 && !s.task.outputObserved
    && |s.out.offered| == offers
  }

  lemma HandoffProjects(ev: StreamEvent)
    requires ev == HandoffStream()
    ensures var q := WithDefaults(ev.projections[0], ev);
            IsHandoff(q) && !IsOriginBound(q) && !NeedsTurn(q.kind) && BridgedTaskRunId(q, ev) == "taskrun:1"
    ensures TurnContextFrom(ev, 0).Some?
  {
    assert "taskrun:1"[..|"taskrun:"|] == "taskrun:";
  }

  lemma HandoffStreams(env: Env)
    requires QuietBefore4(env)
    ensures var s := Streamed(env, HandedOver());
            Waiting(s, 3) && s.handoff && s.bridge.Some? && s.bridge.value.taskRunId == "taskrun:1"
  {
    var ev := HandoffStream();
    var s0 := Start(env);
    HandoffProjects(ev);
    var s1 := BindTurn(env, s0, ev);
    assert Waiting(s1, 2) && s1.turn.Some? && !s1.handoff && s1.bridge.None?;
    var s2 := Project(env, s1, ev, ev.projections[0]);
    assert Waiting(s2, 3) && s2.handoff && s2.bridge.Some? && s2.bridge.value.taskRunId == "taskrun:1";
    assert ev.projections[1..] == [] && [ev][1..] == [];
    assert ProjectAll(env, s1, ev, ev.projections) == ProjectAll(env, s2, ev, []) == s2;
    assert StreamAll(env, s0, [ev]) == StreamAll(env, StreamStep(env, s0, ev), []) == s2;
  }

  /** The bridge offers its terminal at position 4; the flush after it yields in any case, as the
      bridge's own terminal before it was marked. */
  lemma EndingTaskCloses(env: Env, s: State)
    requires QuietBefore4(env) && Waiting(s, 3) && Inside(s.out)
    ensures var r := Pass(env, s, EndingTask, Round(2, Woken), "taskrun:1");
            && r.bridge == s.bridge && |r.out.offered| == 5 && EndsCompleted(r.out.offered)
            && (if env.cancelAt(5) then r.halt == Cancelled else r.halt == Going && r.task.closed)
  {
    var id := "taskrun:1";
    assert HandleTask(env, s, EndingTask[0], 0, id) == s;
    var moved := s.(task := s.task.(cursor := 1, handled := s.task.handled + [1]));
    var b := Append(env, moved, ForTask(BridgeTerminal, id));
    AppendInside(env, moved, ForTask(BridgeTerminal, id));
    AppendAdvances(env, moved, ForTask(BridgeTerminal, id));
    AppendAdvances(env, b, TerminalEvent(id, "completed"));
    var r := CloseBridge(env, moved, id, "completed");
    assert r == Append(env, b, TerminalEvent(id, "completed")) && |r.out.offered| == 5;
    var closed := HandleTask(env, s, EndingTask[1], 1, id);
    assert closed.out == r.out && (closed.halt == Going ==> closed.task.closed);
    assert HandleListed(env, s, EndingTask, 1, 2, id) == HandleListed(env, closed, EndingTask, 2, 2, id) == closed;
    assert HandleListed(env, s, EndingTask, 0, 2, id) == HandleListed(env, s, EndingTask, 1, 2, id);
  }

  lemma HandedOverBridges(env: Env)
    requires QuietBefore4(env)
    ensures var r := Bridged(env, HandedOver());
            && ViaBridge(env, HandedOver()) && EndsCompleted(r.out.offered) && |r.out.offered| == 5
            && (if env.cancelAt(5) then r.halt == Cancelled else r.halt == Going && r.task.closed)
  {
    var w := HandedOver();
    HandoffStreams(env);
    StreamedLoss(env, w);
    var begun := Begun(env, Streamed(env, w));
    assert Inside(begun.out) && Waiting(begun, 3);
    EndingTaskCloses(env, begun);
    var passed := Pass(env, begun, w.task, w.rounds[0], "taskrun:1");
    assert w.rounds[1..] == [];
    assert Passes(env, begun, w.task, w.rounds, "taskrun:1") == Passes(env, passed, w.task, [], "taskrun:1") == passed;
  }

  /** From the bridge: the run offers its terminal at position 4, and loses it when the mark there
      fails or a cancellation arrives at the flush after it; it then records an interruption too. */
  lemma BridgeTerminalLost(env: Env)
    requires QuietBefore4(env)
    ensures var r := RunChat(env, HandedOver());
            && r.exited && ViaBridge(env, HandedOver()) && EndsCompleted(r.out.offered)
            && (SettledOnce(r) <==> env.markOk(4) && !env.cancelAt(5))
            && (!SettledOnce(r) ==> Completions(r) == 1 && |r.interruptions| == 1)
  {
    HandedOverBridges(env);
    BridgedSettles(env, HandedOver());
    CountLast(Bridged(env, HandedOver()).out.offered);
    SingleSettlement(env, HandedOver());
  }

  /** The two ways, with a failed mark and with a late cancellation. */
  lemma BridgeLosesBothWays()
    ensures var unmarked := Env((n, e) => true, n => n != 4, n => true, n => false, n => false);
            var cancelled := Env((n, e) => true, n => true, n => true, n => false, n => n == 5);
            && !SettledOnce(RunChat(unmarked, HandedOver())) && RunChat(unmarked, HandedOver()).exited
            && !SettledOnce(RunChat(cancelled, HandedOver())) && RunChat(cancelled, HandedOver()).exited
  {
    BridgeTerminalLost(Env((n, e) => true, n => n != 4, n => true, n => false, n => false));
    BridgeTerminalLost(Env((n, e) => true, n => true, n => true, n => false, n => n == 5));
  }
}
