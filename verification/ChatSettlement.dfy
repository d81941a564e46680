/** How a run ends: every exit settles the turn exactly once, or records exactly one
    interruption. */
module ChatSettlement {
  import opened Common
  import opened ChatRun

  /** How many events of kind k were offered. */
  function Count(o: seq<PublicEvent>, k: Kind): nat {
    if o == [] then 0 else Count(o[..|o| - 1], k) + (if o[|o| - 1].kind == k then 1 else 0)
  }

  lemma CountAppend(o: seq<PublicEvent>, e: PublicEvent, k: Kind)
    ensures Count(o + [e], k) == Count(o, k) + (if e.kind == k then 1 else 0)
  {
    assert (o + [e])[..|o|] == o;
  }

  function Completions(s: State): nat {
    Count(s.out.offered, TurnCompleted)
  }

  predicate EndsCompleted(o: seq<PublicEvent>) {
    |o| > 0 && o[|o| - 1].kind.TurnCompleted?
  }

  /** The sequence ends in a terminal that the filter and the registry took. */
  predicate TerminalTaken(env: Env, o: seq<PublicEvent>) {
    EndsCompleted(o) && env.emit(|o| - 1, o[|o| - 1]) && env.markOk(|o| - 1)
  }

  predicate ContextMissing(codes: seq<InterruptionCode>) {
    |codes| == 1 && (codes[0].TaskOriginBindingContextMissing? || codes[0].TaskBridgeContextMissing?)
  }

  /** What every state of the stream loop and of the bridge loop satisfies. `done` is
      the flag by which the loop in question knows that its terminal was offered. The record
      shows a terminal exactly when one was taken, and is orphaned by an interruption only. */
  predicate AtMostOneCompletion(env: Env, s: State, done: bool) {
    && Completions(s) <= 1
    && (Completions(s) == 1 ==> EndsCompleted(s.out.offered))
    && (s.halt.Going? ==> (done <==> Completions(s) == 1))
    && (s.halt.Raised? || s.halt.Returned? ==> Completions(s) == 0)
    && (s.halt.Cancelled? && Completions(s) == 1 ==> env.cancelAt(|s.out.offered|))
    && (s.halt.Returned? ==> ContextMissing(s.interruptions))
    && (!s.halt.Returned? ==> s.interruptions == [])
    && (s.out.run.terminalEvent <==> TerminalTaken(env, s.out.offered))
    && (s.out.run.status.Orphaned? <==> s.halt.Returned?)
    && !s.exited
  }

  predicate StreamInv(env: Env, s: State) {
    && AtMostOneCompletion(env, s, s.terminal)
    && !s.task.closed
  }

  lemma TakenLast(env: Env, o: seq<PublicEvent>, e: PublicEvent)
    ensures EndsCompleted(o + [e]) <==> e.kind.TurnCompleted?
    ensures TerminalTaken(env, o + [e]) <==> e.kind.TurnCompleted? && env.emit(|o|, e) && env.markOk(|o|)
  {
  }

  lemma NoneTaken(env: Env, o: seq<PublicEvent>)
    requires Count(o, TurnCompleted) == 0
    ensures !EndsCompleted(o) && !TerminalTaken(env, o)
  {
  }

  /** What the append of one event does to the record. */
  lemma EmitRecords(env: Env, out: Output, e: PublicEvent)
    requires !out.run.terminalEvent && !out.run.status.Orphaned?
    ensures var r := Emit(env, out, e);
            && r.offered == out.offered + [e] && !r.run.status.Orphaned?
            && (r.run.terminalEvent <==> e.kind.TurnCompleted? && env.emit(|out.offered|, e) && env.markOk(|out.offered|))
  {
  }

  /** An append that is not the terminal keeps the account; the terminal, offered once,
      completes it. */
  lemma AppendAccount(env: Env, s: State, e: PublicEvent)
    requires AtMostOneCompletion(env, s, false)
    ensures e.kind != TurnCompleted ==> AtMostOneCompletion(env, Append(env, s, e), false)
    ensures AtMostOneCompletion(env, Append(env, s, e), e.kind == TurnCompleted)
  {
    if s.halt == Going && !env.raiseAt(|s.out.offered|) {
      CountAppend(s.out.offered, e, TurnCompleted);
      NoneTaken(env, s.out.offered);
      EmitRecords(env, s.out, e);
      TakenLast(env, s.out.offered, e);
    }
  }

  lemma OfferAccount(env: Env, s: State, e: PublicEvent)
    requires AtMostOneCompletion(env, s, false)
    ensures AtMostOneCompletion(env, Offer(env, s, e), e.kind == TurnCompleted)
  {
    AppendAccount(env, s, e);
  }

  lemma TouchAccount(env: Env, s: State)
    requires AtMostOneCompletion(env, s, false)
    ensures AtMostOneCompletion(env, Touch(env, s), false)
  {
    if s.halt == Going { NoneTaken(env, s.out.offered); }
  }

  lemma OpenBridgeAccount(env: Env, s: State, taskRunId: string)
    requires AtMostOneCompletion(env, s, false) && s.turn.Some?
    ensures AtMostOneCompletion(env, OpenBridge(env, s, taskRunId), false)
  {
    if s.halt == Going && s.bridge.None? {
      var context := BridgeContext(taskRunId, s.turn.value.turnId, s.turn.value.turnRunId, NextSequence(s.out.run));
      var bound := s.(bridge := Some(context));
      OfferAccount(env, bound, ForTask(BridgeStarted, taskRunId));
      TouchAccount(env, Offer(env, bound, ForTask(BridgeStarted, taskRunId)));
    }
  }

  lemma ProjectSettles(env: Env, s: State, ev: StreamEvent, p: PublicEvent)
    requires StreamInv(env, s)
    ensures StreamInv(env, Project(env, s, ev, p))
  {
    if StreamOver(s) { return; }
    var q := WithDefaults(p, ev);
    if s.turn.None? && NeedsTurn(q.kind) {
      OfferAccount(env, s, Plain(RuntimeStatus));
    } else if IsOriginBound(q) {
      if s.turn.Some? {
        OfferAccount(env, s, q);
        OpenBridgeAccount(env, Offer(env, s, q), BridgedTaskRunId(q, ev));
      }
    } else if IsHandoff(q) {
      if s.turn.Some? {
        OpenBridgeAccount(env, s, BridgedTaskRunId(q, ev));
      }
    } else {
      OfferAccount(env, s, q);
    }
  }

  lemma {:induction false} ProjectAllSettles(env: Env, s: State, ev: StreamEvent, ps: seq<PublicEvent>)
    requires StreamInv(env, s)
    ensures StreamInv(env, ProjectAll(env, s, ev, ps))
    decreases |ps|
  {
    if ps == [] {
    } else {
      ProjectSettles(env, s, ev, ps[0]);
      ProjectAllSettles(env, Project(env, s, ev, ps[0]), ev, ps[1..]);
    }
  }

  lemma BindTurnSettles(env: Env, s: State, ev: StreamEvent)
    requires StreamInv(env, s) && !StreamOver(s)
    ensures StreamInv(env, BindTurn(env, s, ev))
  {
    var created := TurnContextFrom(ev, NextSequence(s.out.run));
    if s.turn.None? && created.Some? { OfferAccount(env, s.(turn := created), Plain(TurnBound)); }
  }

  lemma {:induction false} StreamAllSettles(env: Env, s: State, inputs: seq<StreamEvent>)
    requires StreamInv(env, s)
    ensures StreamInv(env, StreamAll(env, s, inputs))
    decreases |inputs|
  {
    if inputs == [] {
    } else {
      var ev := inputs[0];
      if !StreamOver(s) {
        BindTurnSettles(env, s, ev);
        ProjectAllSettles(env, BindTurn(env, s, ev), ev, ev.projections);
      }
      StreamAllSettles(env, StreamStep(env, s, ev), inputs[1..]);
    }
  }

  lemma StartOffers(env: Env)
    ensures var s := Start(env);
            && (s.out.offered == [] || s.out.offered == [Plain(ChatRunStarted)])
            && !s.out.run.terminalEvent && !s.out.run.status.Orphaned? && !s.halt.Returned?
  {
  }

  lemma NoCompletionYet(o: seq<PublicEvent>)
    requires o == [] || o == [Plain(ChatRunStarted)]
    ensures Count(o, TurnCompleted) == 0
  {
    CountAppend([], Plain(ChatRunStarted), TurnCompleted);
    assert [] + [Plain(ChatRunStarted)] == [Plain(ChatRunStarted)];
  }

  lemma StartSettles(env: Env)
    ensures StreamInv(env, Start(env)) && Completions(Start(env)) == 0
  {
    StartOffers(env);
    NoCompletionYet(Start(env).out.offered);
    NoneTaken(env, Start(env).out.offered);
  }

  lemma StreamedSettles(env: Env, w: World)
    ensures StreamInv(env, Streamed(env, w))
  {
    StartSettles(env);
    StreamAllSettles(env, Start(env), w.inputs);
  }

  // ---- the bridge ----

  lemma ViewAccount(env: Env, s: State, view: TaskView)
    requires AtMostOneCompletion(env, s, false)
    ensures AtMostOneCompletion(env, s.(task := view), false)
  {
  }

  lemma AppendTaskOpen(env: Env, s: State, p: PublicEvent, taskRunId: string)
    requires AtMostOneCompletion(env, s, false) && BridgeProjectable(p.kind)
    ensures AtMostOneCompletion(env, AppendTask(env, s, p, taskRunId), false)
  {
    if s.halt == Going {
      var observed := s.(task := Observe(s.task, p.kind));
      ViewAccount(env, s, Observe(s.task, p.kind));
      AppendAccount(env, observed, p.(taskRunId := Some(taskRunId), runtimeTaskRunId := Some(taskRunId)));
    }
  }

  lemma {:induction false} AppendTaskAllOpen(env: Env, s: State, ps: seq<PublicEvent>, taskRunId: string)
    requires AtMostOneCompletion(env, s, false)
    requires forall i :: 0 <= i < |ps| ==> BridgeProjectable(ps[i].kind)
    ensures AtMostOneCompletion(env, AppendTaskAll(env, s, ps, taskRunId), false)
    decreases |ps|
  {
    if ps == [] {
    } else {
      AppendTaskOpen(env, s, ps[0], taskRunId);
      AppendTaskAllOpen(env, AppendTask(env, s, ps[0], taskRunId), ps[1..], taskRunId);
    }
  }

  predicate BridgeInv(env: Env, s: State) {
    AtMostOneCompletion(env, s, s.task.closed) && !s.terminal && (s.task.closed ==> s.halt.Going?)
  }

  lemma CloseBridgeAccount(env: Env, s: State, taskRunId: string, taskStatus: string)
    requires AtMostOneCompletion(env, s, false)
    ensures AtMostOneCompletion(env, CloseBridge(env, s, taskRunId, taskStatus), true)
  {
    var missing := s.task.outputObserved && !s.task.commitObserved;
    if missing { AppendAccount(env, s, ForTask(CommitFailed, taskRunId)); }
    var a := if missing then Append(env, s, ForTask(CommitFailed, taskRunId)) else s;
    AppendAccount(env, a, ForTask(BridgeTerminal, taskRunId));
    AppendAccount(env, Append(env, a, ForTask(BridgeTerminal, taskRunId)), TerminalEvent(taskRunId, taskStatus));
  }

  lemma ProjectTaskAccount(env: Env, s: State, t: TaskEvent, taskRunId: string)
    requires AtMostOneCompletion(env, s, false)
    ensures AtMostOneCompletion(env, ProjectTask(env, s, t, taskRunId), Ends(t, taskRunId))
  {
    if Foreign(t, taskRunId) {
      AppendAccount(env, s, ForTask(RuntimeStatus, taskRunId));
    } else {
      if t.family.BridgePublic? { AppendTaskAllOpen(env, s, t.projections, taskRunId); }
      if t.family.BridgeEnd? { CloseBridgeAccount(env, s, taskRunId, t.status); }
    }
  }

  lemma FlushSettles(env: Env, previous: int, s: State, done: bool)
    requires AtMostOneCompletion(env, s, done) && !s.terminal && !s.task.closed
    ensures var flushed := Flush(env, previous, s);
            BridgeInv(env, if flushed.halt == Going then flushed.(task := flushed.task.(closed := done)) else flushed)
  {
  }

  lemma HandleTaskSettles(env: Env, s: State, t: TaskEvent, offset: nat, taskRunId: string)
    requires BridgeInv(env, s)
    ensures BridgeInv(env, HandleTask(env, s, t, offset, taskRunId))
  {
    if s.halt != Going || s.task.closed || OrMinusOne(offset) <= s.task.cursor { return; }
    var moved := s.(task := s.task.(cursor := OrMinusOne(offset), handled := s.task.handled + [offset]));
    ProjectTaskAccount(env, moved, t, taskRunId);
    FlushSettles(env, s.out.run.latest, ProjectTask(env, moved, t, taskRunId), Ends(t, taskRunId));
  }

  lemma CountLast(o: seq<PublicEvent>)
    requires EndsCompleted(o)
    ensures Count(o, TurnCompleted) >= 1
  {
  }

  lemma {:induction false} HandleListedSettles(env: Env, s: State, task: seq<TaskEvent>, from: nat, to: nat, taskRunId: string)
    requires from <= to <= |task|
    requires BridgeInv(env, s)
    ensures BridgeInv(env, HandleListed(env, s, task, from, to, taskRunId))
    decreases |task| - from
  {
    if from == to {
    } else {
      HandleTaskSettles(env, s, task[from], from, taskRunId);
      HandleListedSettles(env, HandleTask(env, s, task[from], from, taskRunId), task, from + 1, to, taskRunId);
    }
  }

  lemma TouchSettles(env: Env, s: State)
    requires BridgeInv(env, s) && !s.task.closed
    ensures BridgeInv(env, Touch(env, s)) && !Touch(env, s).task.closed
  {
    TouchAccount(env, s);
  }

  lemma PassSettles(env: Env, s: State, task: seq<TaskEvent>, round: Round, taskRunId: string)
    requires BridgeInv(env, s)
    ensures BridgeInv(env, Pass(env, s, task, round, taskRunId))
  {
    var to := Min(round.listed, |task|);
    HandleListedSettles(env, s, task, 0, to, taskRunId);
    var listed := HandleListed(env, s, task, 0, to, taskRunId);
    if listed.halt == Going && !listed.task.closed { TouchSettles(env, listed); }
  }

  lemma {:induction false} PassesSettle(env: Env, s: State, task: seq<TaskEvent>, rounds: seq<Round>, taskRunId: string)
    requires BridgeInv(env, s)
    ensures BridgeInv(env, Passes(env, s, task, rounds, taskRunId))
    decreases |rounds|
  {
    if rounds == [] {
    } else {
      PassSettles(env, s, task, rounds[0], taskRunId);
      PassesSettle(env, Pass(env, s, task, rounds[0], taskRunId), task, rounds[1..], taskRunId);
    }
  }

  // ---- the run ----

  predicate ViaBridge(env: Env, w: World) {
    NeedsBridge(Streamed(env, w))
  }

  /** What the exit sees when a terminal that was offered does not settle the run: a cancellation,
      or a registry record that the bridge cannot read the terminal back from. `ChatLoss` says
      when this happens. */
  predicate TerminalUnread(env: Env, w: World) {
    var s := Bridged(env, w);
    && EndsCompleted(s.out.offered)
    && (s.halt.Cancelled? || (ViaBridge(env, w) && !TerminalTaken(env, s.out.offered)))
  }

  predicate SettledOnce(s: State) {
    || (Completions(s) == 1 && EndsCompleted(s.out.offered) && s.interruptions == [])
    || (Completions(s) == 0 && |s.interruptions| == 1)
  }

  /** The state in which the bridge starts listing. */
  function Begun(env: Env, s: State): State {
    Touch(env, s.(task := s.task.(cursor := -1)))
  }

  lemma BegunSettles(env: Env, w: World)
    requires ViaBridge(env, w)
    ensures BridgeInv(env, Begun(env, Streamed(env, w))) && !Streamed(env, w).task.closed
  {
    StreamedSettles(env, w);
    var s := Streamed(env, w);
    TouchSettles(env, s.(task := s.task.(cursor := -1)));
  }

  lemma BridgedSettles(env: Env, w: World)
    requires ViaBridge(env, w)
    ensures Bridged(env, w).halt.Going? && Bridged(env, w).task.closed ==>
              (Bridged(env, w).terminal <==> TerminalTaken(env, Bridged(env, w).out.offered))
    ensures AtMostOneCompletion(env, Bridged(env, w), Bridged(env, w).task.closed && Streamed(env, w).bridge.value.taskRunId != "")
  {
    StreamedSettles(env, w);
    BegunSettles(env, w);
    var s := Streamed(env, w);
    PassesSettle(env, Begun(env, s), w.task, w.rounds, s.bridge.value.taskRunId);
  }

  /** Every exit of every run settles the turn exactly once unless the terminal was unread. */
  lemma SettlementAtExit(env: Env, w: World)
    requires RunChat(env, w).exited
    ensures SettledOnce(RunChat(env, w)) <==> !TerminalUnread(env, w)
  {
    StreamedSettles(env, w);
    var s := Bridged(env, w);
    if ViaBridge(env, w) { BridgedSettles(env, w); }
    assert RunChat(env, w) == Exit(s, w.liveBoundTask) by {
      if !Ended(env, w) { StillRunning(env, w); }
    }
    if EndsCompleted(s.out.offered) { CountLast(s.out.offered); }
  }

  lemma StillRunning(env: Env, w: World)
    requires !Ended(env, w)
    ensures !RunChat(env, w).exited
  {
    StreamedSettles(env, w);
    if ViaBridge(env, w) { BridgedSettles(env, w); }
  }

  /** In every run, finished or not, the record is orphaned exactly when an interruption was
      recorded. */
  lemma OrphanedIffInterrupted(env: Env, w: World)
    ensures RunChat(env, w).out.run.status.Orphaned? <==> RunChat(env, w).interruptions != []
  {
    StreamedSettles(env, w);
    if ViaBridge(env, w) { BridgedSettles(env, w); }
  }

  /** The recorded interruption names its cause: a context that was missing, a cancellation, an
      exception, or an end without a terminal; the last two say whether a bound task lives on. */
  lemma InterruptionNamesCause(env: Env, w: World, c: InterruptionCode)
    requires RunChat(env, w).exited && c in RunChat(env, w).interruptions
    ensures c in {TaskOriginBindingContextMissing, TaskBridgeContextMissing} <==> Bridged(env, w).halt.Returned?
    ensures c == StreamCancelled <==> Bridged(env, w).halt.Cancelled?
    ensures c in {StreamException, ProjectionStreamException} <==> Bridged(env, w).halt.Raised?
    ensures c in {MissingTerminalEvent, MissingTaskBridgeTerminal} <==> Bridged(env, w).halt.Going? && !Bridged(env, w).terminal
    ensures c in {ProjectionStreamException, MissingTaskBridgeTerminal} ==> w.liveBoundTask
    ensures c in {StreamException, MissingTerminalEvent} ==> !w.liveBoundTask
  {
    StreamedSettles(env, w);
    if ViaBridge(env, w) { BridgedSettles(env, w); }
    ExitNames(Bridged(env, w), w.liveBoundTask, c);
    assert RunChat(env, w) == Exit(Bridged(env, w), w.liveBoundTask) by {
      if !Ended(env, w) { StillRunning(env, w); }
    }
  }

  lemma ExitNames(s: State, live: bool, c: InterruptionCode)
    requires s.halt.Returned? ==> ContextMissing(s.interruptions)
    requires !s.halt.Returned? ==> s.interruptions == []
    requires c in Exit(s, live).interruptions
    ensures c in {TaskOriginBindingContextMissing, TaskBridgeContextMissing} <==> s.halt.Returned?
    ensures c == StreamCancelled <==> s.halt.Cancelled?
    ensures c in {StreamException, ProjectionStreamException} <==> s.halt.Raised?
    ensures c in {MissingTerminalEvent, MissingTaskBridgeTerminal} <==> s.halt.Going? && !s.terminal
    ensures c in {ProjectionStreamException, MissingTaskBridgeTerminal} ==> live
    ensures c in {StreamException, MissingTerminalEvent} ==> !live
  {
  }

  /** When the filter and the registry accept every event and no cancellation arrives at
      a flush, every exit settles exactly once. */
  lemma SettlesWhenAccepted(env: Env, w: World)
    requires RunChat(env, w).exited
    requires forall pos, e :: env.emit(pos, e)
    requires forall pos :: env.markOk(pos)
    requires forall pos :: !env.cancelAt(pos)
    ensures SettledOnce(RunChat(env, w))
  {
    SettlementAtExit(env, w);
    StreamedSettles(env, w);
    if ViaBridge(env, w) { BridgedSettles(env, w); }
    var s := Bridged(env, w);
    if EndsCompleted(s.out.offered) { CountLast(s.out.offered); }
  }
}
