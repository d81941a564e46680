/** The public log of a run: which offered events reach it, and how the sequence of a
    projection frame relates to its log offset. */
module ChatLog {
  import opened Common
  import opened ChatRun
  import opened ChatSettlement

  // ---- an induction principle for what a run writes ----

  /** The turn's terminal has not been offered and no interruption was recorded. */
  predicate OpenTurn(out: Output) {
    Count(out.offered, TurnCompleted) == 0 && !out.run.status.Orphaned?
  }

  /** A property of the output that every write a run can make keeps: an event or a registry touch
      while the turn is open, and the one interruption. */
  ghost predicate Kept(env: Env, P: Output -> bool) {
    && (forall out, e :: P(out) && OpenTurn(out) ==> P(Emit(env, out, e)))
    && (forall out :: P(out) && OpenTurn(out) ==> P(Update(out, Running)))
    && (forall out :: P(out) && !out.run.status.Orphaned? ==> P(Update(out, Orphaned)))
  }

  lemma OfferKeeps(env: Env, P: Output -> bool, s: State, e: PublicEvent)
    requires Kept(env, P) && P(s.out) && AtMostOneCompletion(env, s, false)
    ensures P(Offer(env, s, e).out) && P(Append(env, s, e).out)
  {
  }

  lemma TouchKeeps(env: Env, P: Output -> bool, s: State)
    requires Kept(env, P) && P(s.out) && AtMostOneCompletion(env, s, false)
    ensures P(Touch(env, s).out)
  {
  }

  lemma OpenBridgeKeeps(env: Env, P: Output -> bool, s: State, taskRunId: string)
    requires Kept(env, P) && P(s.out) && s.turn.Some? && AtMostOneCompletion(env, s, false)
    ensures P(OpenBridge(env, s, taskRunId).out)
  {
    if s.halt == Going && s.bridge.None? {
      var context := BridgeContext(taskRunId, s.turn.value.turnId, s.turn.value.turnRunId, NextSequence(s.out.run));
      var bound := s.(bridge := Some(context));
      OfferKeeps(env, P, bound, ForTask(BridgeStarted, taskRunId));
      OfferAccount(env, bound, ForTask(BridgeStarted, taskRunId));
      TouchKeeps(env, P, Offer(env, bound, ForTask(BridgeStarted, taskRunId)));
    }
  }

  lemma ProjectKeeps(env: Env, P: Output -> bool, s: State, ev: StreamEvent, p: PublicEvent)
    requires Kept(env, P) && P(s.out) && StreamInv(env, s)
    ensures P(Project(env, s, ev, p).out)
  {
    if StreamOver(s) { return; }
    var q := WithDefaults(p, ev);
    OfferKeeps(env, P, s, Plain(RuntimeStatus));
    OfferKeeps(env, P, s, q);
    if s.turn.Some? {
      OpenBridgeKeeps(env, P, s, BridgedTaskRunId(q, ev));
      if IsOriginBound(q) {
        OfferAccount(env, s, q);
        OpenBridgeKeeps(env, P, Offer(env, s, q), BridgedTaskRunId(q, ev));
      }
    }
  }

  lemma {:induction false} ProjectAllKeeps(env: Env, P: Output -> bool, s: State, ev: StreamEvent, ps: seq<PublicEvent>)
    requires Kept(env, P) && P(s.out) && StreamInv(env, s)
    ensures P(ProjectAll(env, s, ev, ps).out)
    decreases |ps|
  {
    if ps == [] {
    } else {
      ProjectKeeps(env, P, s, ev, ps[0]);
      ProjectSettles(env, s, ev, ps[0]);
      ProjectAllKeeps(env, P, Project(env, s, ev, ps[0]), ev, ps[1..]);
    }
  }

  lemma BindTurnKeeps(env: Env, P: Output -> bool, s: State, ev: StreamEvent)
    requires Kept(env, P) && P(s.out) && StreamInv(env, s) && !StreamOver(s)
    ensures P(BindTurn(env, s, ev).out)
  {
    var created := TurnContextFrom(ev, NextSequence(s.out.run));
    OfferKeeps(env, P, s.(turn := created), Plain(TurnBound));
  }

  lemma {:induction false} StreamAllKeeps(env: Env, P: Output -> bool, s: State, inputs: seq<StreamEvent>)
    requires Kept(env, P) && P(s.out) && StreamInv(env, s)
    ensures P(StreamAll(env, s, inputs).out)
    decreases |inputs|
  {
    if inputs == [] {
    } else {
      var ev := inputs[0];
      if !StreamOver(s) {
        BindTurnKeeps(env, P, s, ev);
        BindTurnSettles(env, s, ev);
        ProjectAllKeeps(env, P, BindTurn(env, s, ev), ev, ev.projections);
        ProjectAllSettles(env, BindTurn(env, s, ev), ev, ev.projections);
      }
      StreamAllKeeps(env, P, StreamStep(env, s, ev), inputs[1..]);
    }
  }

  lemma AppendTaskKeeps(env: Env, P: Output -> bool, s: State, p: PublicEvent, taskRunId: string)
    requires Kept(env, P) && P(s.out) && AtMostOneCompletion(env, s, false)
    ensures P(AppendTask(env, s, p, taskRunId).out)
  {
    if s.halt == Going {
      var observed := s.(task := Observe(s.task, p.kind));
      ViewAccount(env, s, Observe(s.task, p.kind));
      OfferKeeps(env, P, observed, p.(taskRunId := Some(taskRunId), runtimeTaskRunId := Some(taskRunId)));
    }
  }

  lemma {:induction false} AppendTaskAllKeeps(env: Env, P: Output -> bool, s: State, ps: seq<PublicEvent>, taskRunId: string)
    requires Kept(env, P) && P(s.out) && AtMostOneCompletion(env, s, false)
    requires forall i :: 0 <= i < |ps| ==> BridgeProjectable(ps[i].kind)
    ensures P(AppendTaskAll(env, s, ps, taskRunId).out)
    decreases |ps|
  {
    if ps == [] {
    } else {
      AppendTaskKeeps(env, P, s, ps[0], taskRunId);
      AppendTaskOpen(env, s, ps[0], taskRunId);
      AppendTaskAllKeeps(env, P, AppendTask(env, s, ps[0], taskRunId), ps[1..], taskRunId);
    }
  }

  lemma CloseBridgeKeeps(env: Env, P: Output -> bool, s: State, taskRunId: string, taskStatus: string)
    requires Kept(env, P) && P(s.out) && AtMostOneCompletion(env, s, false)
    ensures P(CloseBridge(env, s, taskRunId, taskStatus).out)
  {
    var failed, ended := ForTask(CommitFailed, taskRunId), ForTask(BridgeTerminal, taskRunId);
    OfferKeeps(env, P, s, failed);
    AppendAccount(env, s, failed);
    var a := if s.task.outputObserved && !s.task.commitObserved then Append(env, s, failed) else s;
    OfferKeeps(env, P, a, ended);
    AppendAccount(env, a, ended);
    OfferKeeps(env, P, Append(env, a, ended), TerminalEvent(taskRunId, taskStatus));
  }

  lemma ProjectTaskKeeps(env: Env, P: Output -> bool, s: State, t: TaskEvent, taskRunId: string)
    requires Kept(env, P) && P(s.out) && AtMostOneCompletion(env, s, false)
    ensures P(ProjectTask(env, s, t, taskRunId).out)
  {
    if Foreign(t, taskRunId) {
      OfferKeeps(env, P, s, ForTask(RuntimeStatus, taskRunId));
    } else if t.family.BridgePublic? {
      AppendTaskAllKeeps(env, P, s, t.projections, taskRunId);
    } else {
      CloseBridgeKeeps(env, P, s, taskRunId, t.status);
    }
  }

  lemma HandleTaskKeeps(env: Env, P: Output -> bool, s: State, t: TaskEvent, offset: nat, taskRunId: string)
    requires Kept(env, P) && P(s.out) && BridgeInv(env, s)
    ensures P(HandleTask(env, s, t, offset, taskRunId).out)
  {
    if s.halt != Going || s.task.closed || OrMinusOne(offset) <= s.task.cursor { return; }
    var moved := s.(task := s.task.(cursor := OrMinusOne(offset), handled := s.task.handled + [offset]));
    ProjectTaskKeeps(env, P, moved, t, taskRunId);
  }

  lemma {:induction false} HandleListedKeeps(env: Env, P: Output -> bool, s: State, task: seq<TaskEvent>, from: nat, to: nat, taskRunId: string)
    requires from <= to <= |task|
    requires Kept(env, P) && P(s.out) && BridgeInv(env, s)
    ensures P(HandleListed(env, s, task, from, to, taskRunId).out)
    decreases |task| - from
  {
    if from == to {
    } else {
      HandleTaskKeeps(env, P, s, task[from], from, taskRunId);
      HandleTaskSettles(env, s, task[from], from, taskRunId);
      HandleListedKeeps(env, P, HandleTask(env, s, task[from], from, taskRunId), task, from + 1, to, taskRunId);
    }
  }

  lemma PassKeeps(env: Env, P: Output -> bool, s: State, task: seq<TaskEvent>, round: Round, taskRunId: string)
    requires Kept(env, P) && P(s.out) && BridgeInv(env, s)
    ensures P(Pass(env, s, task, round, taskRunId).out)
  {
    var to := Min(round.listed, |task|);
    HandleListedKeeps(env, P, s, task, 0, to, taskRunId);
    HandleListedSettles(env, s, task, 0, to, taskRunId);
    var listed := HandleListed(env, s, task, 0, to, taskRunId);
    if listed.halt == Going && !listed.task.closed { TouchKeeps(env, P, listed); }
  }

  lemma {:induction false} PassesKeep(env: Env, P: Output -> bool, s: State, task: seq<TaskEvent>, rounds: seq<Round>, taskRunId: string)
    requires Kept(env, P) && P(s.out) && BridgeInv(env, s)
    ensures P(Passes(env, s, task, rounds, taskRunId).out)
    decreases |rounds|
  {
    if rounds == [] {
    } else {
      PassKeeps(env, P, s, task, rounds[0], taskRunId);
      PassSettles(env, s, task, rounds[0], taskRunId);
      PassesKeep(env, P, Pass(env, s, task, rounds[0], taskRunId), task, rounds[1..], taskRunId);
    }
  }

  lemma BridgedKeeps(env: Env, P: Output -> bool, w: World)
    requires Kept(env, P) && P(Start(env).out)
    ensures P(Streamed(env, w).out) && P(Bridged(env, w).out)
  {
    StartSettles(env);
    StreamAllKeeps(env, P, Start(env), w.inputs);
    if ViaBridge(env, w) {
      var s := Streamed(env, w);
      StreamedSettles(env, w);
      TouchKeeps(env, P, s.(task := s.task.(cursor := -1)));
      BegunSettles(env, w);
      PassesKeep(env, P, Begun(env, s), w.task, w.rounds, s.bridge.value.taskRunId);
    }
  }

  /** Whatever holds after the start and is kept by every write holds of the whole run, the record
      of its interruption included. */
  lemma RunKeeps(env: Env, P: Output -> bool, w: World)
    requires Kept(env, P) && P(Start(env).out)
    ensures P(RunChat(env, w).out)
  {
    BridgedKeeps(env, P, w);
    StreamedSettles(env, w);
    if ViaBridge(env, w) { BridgedSettles(env, w); }
  }

  // ---- the log is the accepted part of what was offered ----

  function LoggedEvents(log: seq<Entry>): seq<PublicEvent> {
    if log == [] then [] else LoggedEvents(log[..|log| - 1]) + [log[|log| - 1].event]
  }

  /** The filter accepts the event, and it is no placeholder for a model wait. */
  predicate LetThrough(env: Env, position: nat, e: PublicEvent) {
    env.emit(position, e) && (e.kind == RuntimeStatus ==> !e.waitPlaceholder)
  }

  /** The offered events the filter let through; the start event is not filtered. */
  function AcceptedEvents(env: Env, o: seq<PublicEvent>): seq<PublicEvent> {
    if o == [] then []
    else
      var last := |o| - 1;
      AcceptedEvents(env, o[..last]) + (if last == 0 || LetThrough(env, last, o[last]) then [o[last]] else [])
  }

  predicate LogIsAccepted(env: Env, out: Output) {
    out.offered != [] && LoggedEvents(out.log) == AcceptedEvents(env, out.offered)
  }

  lemma EmitLogs(env: Env, out: Output, e: PublicEvent)
    requires LogIsAccepted(env, out)
    ensures LogIsAccepted(env, Emit(env, out, e))
  {
    assert (out.offered + [e])[..|out.offered|] == out.offered;
    assert forall x: Entry :: (out.log + [x])[..|out.log|] == out.log;
  }

  lemma StartLogs(env: Env)
    requires !env.raiseAt(0)
    ensures LogIsAccepted(env, Start(env).out)
  {
    var e := Plain(ChatRunStarted);
    var out := Start(env).out;
    assert out.offered == [e] && out.log == [Entry(e, 0)];
    assert [e][..0] == [] && out.log[..0] == [];
    assert LoggedEvents(out.log) == LoggedEvents([]) + [e];
    assert AcceptedEvents(env, out.offered) == AcceptedEvents(env, []) + [e];
  }

  /** In every run that gets past its start, the log holds exactly the accepted events, in
      the order they were offered. */
  lemma LogHoldsAccepted(env: Env, w: World)
    requires !env.raiseAt(0)
    ensures LoggedEvents(RunChat(env, w).out.log) == AcceptedEvents(env, RunChat(env, w).out.offered)
  {
    var P := (out: Output) => LogIsAccepted(env, out);
    forall out, e | P(out) ensures P(Emit(env, out, e)) { EmitLogs(env, out, e); }
    StartLogs(env);
    RunKeeps(env, P, w);
  }

  // ---- frame sequences ----

  /** The registry offset stays inside the log; sequences never decrease, never pass their
      offset, and the next one continues them. */
  predicate SequencesOrdered(out: Output) {
    && -1 <= out.run.latest
    && (out.run.latest == -1 || out.run.latest < |out.log|)
    && (forall i :: 0 <= i < |out.log| ==> 0 <= out.log[i].sequence <= i)
    && (forall i, j :: 0 <= i < j < |out.log| ==> out.log[i].sequence <= out.log[j].sequence)
    && (forall i :: 0 <= i < |out.log| ==> out.log[i].sequence <= NextSequence(out.run))
  }

  lemma EmitOrdered(env: Env, out: Output, e: PublicEvent)
    requires SequencesOrdered(out)
    ensures SequencesOrdered(Emit(env, out, e))
  {
    assert NextSequence(out.run) <= |out.log|;
  }

  lemma OrderedKept(env: Env)
    ensures Kept(env, SequencesOrdered)
  {
    forall out, e | SequencesOrdered(out) ensures SequencesOrdered(Emit(env, out, e)) { EmitOrdered(env, out, e); }
  }

  lemma StartOrdered(env: Env)
    ensures SequencesOrdered(Start(env).out)
  {
    var out := Start(env).out;
    assert |out.log| <= 1 && forall i :: 0 <= i < |out.log| ==> out.log[i].sequence == 0;
  }

  /** In every run, whatever registry writes fail: frame sequences never decrease along the
      log and never pass the log offset. */
  lemma SequencesNeverDecrease(env: Env, w: World)
    ensures SequencesOrdered(RunChat(env, w).out)
  {
    OrderedKept(env);
    StartOrdered(env);
    RunKeeps(env, SequencesOrdered, w);
  }

  /** `int(latest or -1) + 1` reads the offset 0 as absent, so the second frame repeats
      the first sequence. */
  function FrameSequence(offset: nat): nat {
    if offset == 1 then 0 else offset
  }

  predicate SequencesExact(out: Output) {
    && out.run.latest == |out.log| - 1
    && forall i :: 0 <= i < |out.log| ==> out.log[i].sequence == FrameSequence(i)
  }

  lemma EmitExact(env: Env, out: Output, e: PublicEvent)
    requires SequencesExact(out) && env.markOk(|out.offered|)
    ensures SequencesExact(Emit(env, out, e))
  {
  }

  /** With successful registry writes the sequence of each frame is its log offset, except at
      offset 1; so sequences repeat there and nowhere else. */
  lemma SequencesAreOffsets(env: Env, w: World)
    requires forall pos :: env.markOk(pos)
    ensures SequencesExact(RunChat(env, w).out)
    ensures var log := RunChat(env, w).out.log;
            forall i :: 0 < i < |log| ==> (log[i].sequence == log[i - 1].sequence <==> i == 1)
  {
    forall out, e | SequencesExact(out) ensures SequencesExact(Emit(env, out, e)) { EmitExact(env, out, e); }
    RunKeeps(env, SequencesExact, w);
  }
}
