/** What every prefix of a run keeps: anchors come before the content that needs them,
    and contexts are written once. */
module ChatOrder {
  import opened Common
  import opened ChatRun
  import opened ChatSettlement

  // ---- turn-bound safety ----

  /** The agent stream itself emits neither of the two anchors the writer owns. */
  predicate WriterOwnsAnchors(inputs: seq<StreamEvent>) {
    forall i :: 0 <= i < |inputs| ==> OwnsAnchors(inputs[i].projections)
  }

  predicate OwnsAnchors(ps: seq<PublicEvent>) {
    forall j :: 0 <= j < |ps| ==> ps[j].kind != TurnBound && ps[j].kind != BridgeStarted
  }

  predicate NeedsAnchor(k: Kind) {
    NeedsTurn(k) || k.BridgeStarted?
  }

  /** May e follow this prefix? Content and the bridge start need the turn anchor; each
      anchor comes once; the bridge start names the bridged task. */
  predicate Fits(prefix: seq<PublicEvent>, e: PublicEvent, bridge: Option<BridgeContext>) {
    && (NeedsAnchor(e.kind) ==> Count(prefix, TurnBound) == 1)
    && (e.kind.TurnBound? ==> Count(prefix, TurnBound) == 0)
    && (e.kind.BridgeStarted? ==>
          Count(prefix, BridgeStarted) == 0 && bridge.Some? && e == ForTask(BridgeStarted, bridge.value.taskRunId))
  }

  predicate Anchored(o: seq<PublicEvent>, bridge: Option<BridgeContext>) {
    o == [] || (Anchored(o[..|o| - 1], bridge) && Fits(o[..|o| - 1], o[|o| - 1], bridge))
  }

  lemma AnchoredAppend(o: seq<PublicEvent>, e: PublicEvent, bridge: Option<BridgeContext>)
    requires Anchored(o, bridge) && Fits(o, e, bridge)
    ensures Anchored(o + [e], bridge)
  {
    assert (o + [e])[..|o|] == o;
  }

  lemma {:induction false} AnchoredBeforeBridge(o: seq<PublicEvent>, bridge: Option<BridgeContext>)
    requires Anchored(o, None)
    ensures Anchored(o, bridge)
  {
    if o == [] {
    } else {
      AnchoredBeforeBridge(o[..|o| - 1], bridge);
    }
  }

  predicate AnchorCounts(o: seq<PublicEvent>, turn: bool, bridge: bool, going: bool) {
    && (!turn ==> Count(o, TurnBound) == 0 && !bridge)
    && (!bridge ==> Count(o, BridgeStarted) == 0)
    && (going && turn ==> Count(o, TurnBound) == 1)
  }

  predicate AnchorInv(s: State) {
    && Anchored(s.out.offered, s.bridge)
    && AnchorCounts(s.out.offered, s.turn.Some?, s.bridge.Some?, s.halt.Going?)
  }

  /** An ordinary event: no anchor, and bound when it needs to be. */
  lemma AppendOrdinary(env: Env, s: State, e: PublicEvent)
    requires AnchorInv(s)
    requires e.kind != TurnBound && e.kind != BridgeStarted
    requires NeedsTurn(e.kind) ==> s.turn.Some?
    ensures AnchorInv(Append(env, s, e))
  {
    var o := s.out.offered;
    if s.halt == Going && !env.raiseAt(|o|) {
      CountAppend(o, e, TurnBound);
      CountAppend(o, e, BridgeStarted);
      AnchoredAppend(o, e, s.bridge);
      assert Append(env, s, e).out.offered == o + [e];
    }
  }

  lemma OfferOrdinary(env: Env, s: State, e: PublicEvent)
    requires AnchorInv(s)
    requires e.kind != TurnBound && e.kind != BridgeStarted
    requires NeedsTurn(e.kind) ==> s.turn.Some?
    ensures AnchorInv(Offer(env, s, e))
  {
    AppendOrdinary(env, s, e);
    FlushAnchors(env, s.out.run.latest, Append(env, s, e));
  }

  lemma FlushAnchors(env: Env, previous: int, s: State)
    requires AnchorInv(s)
    ensures AnchorInv(Flush(env, previous, s))
  {
  }

  lemma TouchAnchors(env: Env, s: State)
    requires AnchorInv(s)
    ensures AnchorInv(Touch(env, s))
  {
  }

  lemma OpenBridgeAnchors(env: Env, s: State, taskRunId: string)
    requires AnchorInv(s) && s.turn.Some?
    ensures AnchorInv(OpenBridge(env, s, taskRunId))
  {
    if s.halt == Going && s.bridge.None? {
      var e := ForTask(BridgeStarted, taskRunId);
      var o := s.out.offered;
      var context := Some(BridgeContext(taskRunId, s.turn.value.turnId, s.turn.value.turnRunId, NextSequence(s.out.run)));
      var bound := s.(bridge := context);
      AnchoredBeforeBridge(o, context);
      CountAppend(o, e, TurnBound);
      CountAppend(o, e, BridgeStarted);
      AnchoredAppend(o, e, context);
      var appended := Append(env, bound, e);
      assert appended.out.offered == (if env.raiseAt(|o|) then o else o + [e]);
      assert AnchorInv(appended);
      FlushAnchors(env, s.out.run.latest, appended);
      TouchAnchors(env, Offer(env, bound, e));
    }
  }

  lemma BindTurnAnchors(env: Env, s: State, ev: StreamEvent)
    requires AnchorInv(s)
    ensures AnchorInv(BindTurn(env, s, ev))
  {
    var created := TurnContextFrom(ev, NextSequence(s.out.run));
    if s.turn.None? && created.Some? {
      var e := Plain(TurnBound);
      var o := s.out.offered;
      CountAppend(o, e, TurnBound);
      CountAppend(o, e, BridgeStarted);
      AnchoredAppend(o, e, s.bridge);
      var appended := Append(env, s.(turn := created), e);
      assert appended.out.offered == o || appended.out.offered == o + [e];
      assert AnchorInv(appended);
      FlushAnchors(env, s.out.run.latest, appended);
    }
  }

  lemma ProjectAnchors(env: Env, s: State, ev: StreamEvent, p: PublicEvent)
    requires AnchorInv(s)
    requires p.kind != TurnBound && p.kind != BridgeStarted
    ensures AnchorInv(Project(env, s, ev, p))
  {
    var q := WithDefaults(p, ev);
    if StreamOver(s) { return; }
    if s.turn.None? && NeedsTurn(q.kind) {
      OfferOrdinary(env, s, Plain(RuntimeStatus));
    } else if IsOriginBound(q) {
      if s.turn.Some? {
        OfferOrdinary(env, s, q);
        OpenBridgeAnchors(env, Offer(env, s, q), BridgedTaskRunId(q, ev));
      }
    } else if IsHandoff(q) {
      if s.turn.Some? { OpenBridgeAnchors(env, s, BridgedTaskRunId(q, ev)); }
    } else {
      OfferOrdinary(env, s, q);
    }
  }

  lemma {:induction false} ProjectAllAnchors(env: Env, s: State, ev: StreamEvent, ps: seq<PublicEvent>)
    requires AnchorInv(s) && OwnsAnchors(ps)
    ensures AnchorInv(ProjectAll(env, s, ev, ps))
    decreases |ps|
  {
    if ps == [] {
    } else {
      ProjectAnchors(env, s, ev, ps[0]);
      ProjectAllAnchors(env, Project(env, s, ev, ps[0]), ev, ps[1..]);
    }
  }

  lemma {:induction false} StreamAllAnchors(env: Env, s: State, inputs: seq<StreamEvent>)
    requires AnchorInv(s) && WriterOwnsAnchors(inputs)
    ensures AnchorInv(StreamAll(env, s, inputs))
    decreases |inputs|
  {
    if inputs == [] {
    } else {
      if !StreamOver(s) {
        BindTurnAnchors(env, s, inputs[0]);
        ProjectAllAnchors(env, BindTurn(env, s, inputs[0]), inputs[0], inputs[0].projections);
      }
      StreamAllAnchors(env, StreamStep(env, s, inputs[0]), inputs[1..]);
    }
  }

  lemma {:induction false} AppendTaskAllAnchors(env: Env, s: State, ps: seq<PublicEvent>, taskRunId: string)
    requires AnchorInv(s) && s.turn.Some?
    requires forall i :: 0 <= i < |ps| ==> BridgeProjectable(ps[i].kind)
    ensures AnchorInv(AppendTaskAll(env, s, ps, taskRunId))
    decreases |ps|
  {
    if ps == [] {
    } else {
      if s.halt == Going {
        var observed := s.(task := Observe(s.task, ps[0].kind));
        assert AnchorInv(observed);
        AppendOrdinary(env, observed, ps[0].(taskRunId := Some(taskRunId), runtimeTaskRunId := Some(taskRunId)));
      }
      AppendTaskAllAnchors(env, AppendTask(env, s, ps[0], taskRunId), ps[1..], taskRunId);
    }
  }

  lemma CloseBridgeAnchors(env: Env, s: State, taskRunId: string, taskStatus: string)
    requires AnchorInv(s) && s.turn.Some?
    ensures AnchorInv(CloseBridge(env, s, taskRunId, taskStatus))
  {
    var missing := s.task.outputObserved && !s.task.commitObserved;
    if missing { AppendOrdinary(env, s, ForTask(CommitFailed, taskRunId)); }
    var a := if missing then Append(env, s, ForTask(CommitFailed, taskRunId)) else s;
    AppendOrdinary(env, a, ForTask(BridgeTerminal, taskRunId));
    AppendOrdinary(env, Append(env, a, ForTask(BridgeTerminal, taskRunId)), TerminalEvent(taskRunId, taskStatus));
  }

  lemma ProjectTaskAnchors(env: Env, s: State, t: TaskEvent, taskRunId: string)
    requires AnchorInv(s) && s.turn.Some?
    ensures AnchorInv(ProjectTask(env, s, t, taskRunId))
  {
    if Foreign(t, taskRunId) {
      AppendOrdinary(env, s, ForTask(RuntimeStatus, taskRunId));
    } else {
      if t.family.BridgePublic? { AppendTaskAllAnchors(env, s, t.projections, taskRunId); }
      if t.family.BridgeEnd? { CloseBridgeAnchors(env, s, taskRunId, t.status); }
    }
  }

  lemma HandleTaskAnchors(env: Env, s: State, t: TaskEvent, offset: nat, taskRunId: string)
    requires AnchorInv(s) && s.turn.Some?
    ensures AnchorInv(HandleTask(env, s, t, offset, taskRunId))
  {
    if s.halt != Going || s.task.closed || OrMinusOne(offset) <= s.task.cursor { return; }
    var moved := s.(task := s.task.(cursor := OrMinusOne(offset), handled := s.task.handled + [offset]));
    ProjectTaskAnchors(env, moved, t, taskRunId);
    FlushAnchors(env, s.out.run.latest, ProjectTask(env, moved, t, taskRunId));
  }

  lemma {:induction false} HandleListedAnchors(env: Env, s: State, task: seq<TaskEvent>, from: nat, to: nat, taskRunId: string)
    requires from <= to <= |task|
    requires AnchorInv(s) && s.turn.Some?
    ensures AnchorInv(HandleListed(env, s, task, from, to, taskRunId))
    ensures HandleListed(env, s, task, from, to, taskRunId).turn == s.turn
    decreases |task| - from
  {
    if from == to {
    } else {
      HandleTaskAnchors(env, s, task[from], from, taskRunId);
      HandleListedAnchors(env, HandleTask(env, s, task[from], from, taskRunId), task, from + 1, to, taskRunId);
    }
  }

  lemma WaitAnchors(env: Env, before: State, s: State, wait: Wait)
    requires AnchorInv(s)
    ensures AnchorInv(AfterPass(env, before, s, wait)) && AfterPass(env, before, s, wait).turn == s.turn
  {
    TouchAnchors(env, s);
  }

  lemma PassAnchors(env: Env, s: State, task: seq<TaskEvent>, round: Round, taskRunId: string)
    requires AnchorInv(s) && s.turn.Some?
    ensures AnchorInv(Pass(env, s, task, round, taskRunId)) && Pass(env, s, task, round, taskRunId).turn == s.turn
  {
    var to := Min(round.listed, |task|);
    HandleListedAnchors(env, s, task, 0, to, taskRunId);
    WaitAnchors(env, s, HandleListed(env, s, task, 0, to, taskRunId), round.wait);
  }

  lemma {:induction false} PassesAnchors(env: Env, s: State, task: seq<TaskEvent>, rounds: seq<Round>, taskRunId: string)
    requires AnchorInv(s) && s.turn.Some?
    ensures AnchorInv(Passes(env, s, task, rounds, taskRunId))
    decreases |rounds|
  {
    if rounds == [] {
    } else {
      PassAnchors(env, s, task, rounds[0], taskRunId);
      PassesAnchors(env, Pass(env, s, task, rounds[0], taskRunId), task, rounds[1..], taskRunId);
    }
  }

  lemma StartAnchors(env: Env)
    ensures AnchorInv(Start(env))
  {
    var o := Start(env).out.offered;
    var e := Plain(ChatRunStarted);
    CountAppend([], e, TurnBound);
    CountAppend([], e, BridgeStarted);
    AnchoredAppend([], e, None);
    assert o == [] || o == [] + [e];
  }

  lemma StreamedAnchors(env: Env, w: World)
    requires WriterOwnsAnchors(w.inputs)
    ensures AnchorInv(Streamed(env, w))
  {
    StartAnchors(env);
    StreamAllAnchors(env, Start(env), w.inputs);
  }

  lemma BridgedAnchors(env: Env, w: World)
    requires WriterOwnsAnchors(w.inputs)
    ensures AnchorInv(Bridged(env, w))
  {
    StreamedAnchors(env, w);
    var s := Streamed(env, w);
    if NeedsBridge(s) && s.bridge.value.taskRunId != "" {
      var reset := s.(task := s.task.(cursor := -1));
      TouchAnchors(env, reset);
      PassesAnchors(env, Touch(env, reset), w.task, w.rounds, s.bridge.value.taskRunId);
    }
  }

  lemma {:induction false} AnchoredCounts(o: seq<PublicEvent>, bridge: Option<BridgeContext>)
    requires Anchored(o, bridge)
    ensures Count(o, TurnBound) <= 1 && Count(o, BridgeStarted) <= 1
  {
    if o == [] {
    } else {
      AnchoredCounts(o[..|o| - 1], bridge);
    }
  }

  lemma {:induction false} AnchoredAt(o: seq<PublicEvent>, bridge: Option<BridgeContext>, j: nat)
    requires Anchored(o, bridge) && j < |o|
    ensures Fits(o[..j], o[j], bridge)
  {
    if j == |o| - 1 {
    } else {
      AnchoredAt(o[..|o| - 1], bridge, j);
      assert o[..|o| - 1][..j] == o[..j];
    }
  }

  lemma ExitAnchors(s: State, liveBoundTask: bool)
    requires AnchorInv(s)
    ensures Anchored(Exit(s, liveBoundTask).out.offered, Exit(s, liveBoundTask).bridge)
  {
  }

  lemma RunAnchors(env: Env, w: World)
    requires WriterOwnsAnchors(w.inputs)
    ensures Anchored(RunChat(env, w).out.offered, RunChat(env, w).bridge)
  {
    StreamedAnchors(env, w);
    BridgedAnchors(env, w);
    ExitAnchors(Bridged(env, w), w.liveBoundTask);
  }

  /** Turn-bound safety, for every run and every prefix of one: no event that needs a turn
      precedes `chat_turn_bound`; that event and `task_bridge_started` are each offered at
      most once and in that order; the bridge start names the task of the one bridge context. */
  lemma TurnBoundSafety(env: Env, w: World)
    requires WriterOwnsAnchors(w.inputs)
    ensures var o := RunChat(env, w).out.offered;
            && Count(o, TurnBound) <= 1 && Count(o, BridgeStarted) <= 1
            && forall j :: 0 <= j < |o| ==> Fits(o[..j], o[j], RunChat(env, w).bridge)
  {
    RunAnchors(env, w);
    var r := RunChat(env, w);
    AnchoredCounts(r.out.offered, r.bridge);
    forall j | 0 <= j < |r.out.offered| ensures Fits(r.out.offered[..j], r.out.offered[j], r.bridge) {
      AnchoredAt(r.out.offered, r.bridge, j);
    }
  }

  // ---- contexts are written once ----

  predicate KeepsContexts(s: State, t: State) {
    (s.turn.Some? ==> t.turn == s.turn) && (s.bridge.Some? ==> t.bridge == s.bridge)
  }

  lemma {:induction false} ProjectAllKeepsContexts(env: Env, s: State, ev: StreamEvent, ps: seq<PublicEvent>)
    ensures KeepsContexts(s, ProjectAll(env, s, ev, ps))
    decreases |ps|
  {
    if ps == [] {
    } else {
      assert KeepsContexts(s, Project(env, s, ev, ps[0]));
      ProjectAllKeepsContexts(env, Project(env, s, ev, ps[0]), ev, ps[1..]);
    }
  }

  /** Once set, the turn context and the bridge context survive every later event, also a
      second origin binding that names another task. */
  lemma {:induction false} ContextsWrittenOnce(env: Env, s: State, inputs: seq<StreamEvent>)
    ensures KeepsContexts(s, StreamAll(env, s, inputs))
    decreases |inputs|
  {
    if inputs == [] {
    } else {
      if !StreamOver(s) {
        ProjectAllKeepsContexts(env, BindTurn(env, s, inputs[0]), inputs[0], inputs[0].projections);
      }
      ContextsWrittenOnce(env, StreamStep(env, s, inputs[0]), inputs[1..]);
    }
  }
}
