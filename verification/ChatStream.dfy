/** What the stream loop offers, in closed form: the agent's events in order, each as it is or with
    what the writer puts in its place, up to the first that ends the loop. */
module ChatStream {
  import opened Common
  import opened ChatRun
  import opened ChatBridge
  import opened ChatSettlement

  /** What the loop meets one by one: an event arrives, or one of its projections is due. */
  datatype Cue = Arrival(ev: StreamEvent) | Projection(ev: StreamEvent, p: PublicEvent)

  function ProjectionCues(ev: StreamEvent, ps: seq<PublicEvent>): seq<Cue>
    decreases |ps|
  {
    if ps == [] then [] else [Projection(ev, ps[0])] + ProjectionCues(ev, ps[1..])
  }

  function Cues(inputs: seq<StreamEvent>): seq<Cue>
    decreases |inputs|
  {
    if inputs == [] then []
    else
      [Arrival(inputs[0])] + ProjectionCues(inputs[0], inputs[0].projections) + Cues(inputs[1..])
  }

  // ---- the agent's events ----

  /** The first event with the ids of its turn binds the turn. */
  predicate Binds(ev: StreamEvent) {
    && ev.eventType in {"harness_run_started", "single_agent_turn_started"}
    && ev.turnRunId != ""
    && (ev.activeTurnId != "" || StartsWith(ev.turnRunId, "turnrun:turn:"))
  }

  const TURN_CONTEXT_REQUIRED: set<Kind> := {
    PublicFeedback, StreamRepair, TextDelta, TextFinal, CommitAck, CommitChecked, CommitFailed, CommitSkipped,
    ToolRequested, ToolPermission, ToolStarted, ToolCompleted
  }

  /** A projection carries the event's task id where it has none of its own. */
  function Sent(c: Cue): PublicEvent
    requires c.Projection?
  {
    var own := (id: Option<string>) => if id.None? && c.ev.taskRunId != "" then Some(c.ev.taskRunId) else id;
    c.p.(taskRunId := own(c.p.taskRunId), runtimeTaskRunId := own(c.p.runtimeTaskRunId))
  }

  predicate IsTask(id: Option<string>) {
    id.Some? && StartsWith(id.value, "taskrun:")
  }

  predicate NamesTask(q: PublicEvent) {
    IsTask(q.taskRunId) || IsTask(q.runtimeTaskRunId)
  }

  /** The record of the task that a turn started. */
  predicate StartsTask(q: PublicEvent) {
    && q.kind.OriginBound? && q.binding.Some?
    && (NamesTask(q) || StartsWith(q.binding.value, "taskrun:"))
  }

  /** A completion that says the task goes on. */
  predicate HandsOver(q: PublicEvent) {
    && q.kind.TurnCompleted? && NamesTask(q)
    && "task_executor_scheduled" in {q.completionState, q.terminalReason, q.status}
  }

  /** The task a bridge is for: named by the projection, or else by its event. */
  function TaskOf(c: Cue): string
    requires c.Projection?
  {
    var q := Sent(c);
    if IsTask(q.taskRunId) then q.taskRunId.value
    else if IsTask(q.runtimeTaskRunId) then q.runtimeTaskRunId.value
    else c.ev.taskRunId
  }

  predicate BindsTurn(c: Cue) {
    c.Arrival? && Binds(c.ev)
  }

  predicate OpensBridge(c: Cue) {
    c.Projection? && (StartsTask(Sent(c)) || HandsOver(Sent(c)))
  }

  predicate Bound(before: seq<Cue>) {
    exists i :: 0 <= i < |before| && BindsTurn(before[i])
  }

  predicate Bridging(before: seq<Cue>) {
    exists i :: 0 <= i < |before| && OpensBridge(before[i])
  }

  // ---- what each makes the run offer ----

  /** What is offered for a cue that comes after these. */
  function Shown(before: seq<Cue>, c: Cue): seq<PublicEvent> {
    if c.Arrival? then
      if Binds(c.ev) && !Bound(before) then [Plain(TurnBound)] else []
    else
      var q := Sent(c);
      var opening := if Bridging(before) then [] else [ForTask(BridgeStarted, TaskOf(c))];
      if !Bound(before) && q.kind in TURN_CONTEXT_REQUIRED then [Plain(RuntimeStatus)]
      else if OpensBridge(c) then
        if !Bound(before) then [] else if HandsOver(q) then opening else [q] + opening
      else [q]
  }

  /** A completion ends the loop, and so does a task without a turn. */
  predicate Closing(before: seq<Cue>, c: Cue) {
    c.Projection? && (Sent(c).kind.TurnCompleted? || (OpensBridge(c) && !Bound(before)))
  }

  /** Everything offered for these cues, up to the one that ends the loop. */
  function Script(before: seq<Cue>, cues: seq<Cue>): seq<PublicEvent>
    decreases |cues|
  {
    if cues == [] then []
    else
      Shown(before, cues[0]) + (if Closing(before, cues[0]) then [] else Script(before + [cues[0]], cues[1..]))
  }

  /** `handover`: the task without a turn was named by a handoff, not by its record. */
  datatype Finish = Unfinished | WithoutTurn(handover: bool) | HandedOver | OnCompletion

  /** How the loop ends on these cues. */
  function FinishOf(before: seq<Cue>, cues: seq<Cue>): Finish
    decreases |cues|
  {
    if cues == [] then Unfinished
    else if !Closing(before, cues[0]) then FinishOf(before + [cues[0]], cues[1..])
    else if OpensBridge(cues[0]) then if Bound(before) then HandedOver else WithoutTurn(HandsOver(Sent(cues[0])))
    else OnCompletion
  }

  // ---- the writer's branches are these ----

  lemma TurnRunPrefix(s: string)
    ensures StartsWith(s, "turnrun:turn:") <==> StartsWith(s, "turnrun:") && StartsWith(s[|"turnrun:"|..], "turn:")
  {
    assert "turnrun:" + "turn:" == "turnrun:turn:";
    if StartsWith(s, "turnrun:") && StartsWith(s[8..], "turn:") {
      assert s[..13] == s[..8] + s[8..][..5];
    }
    if StartsWith(s, "turnrun:turn:") {
      assert s[..8] == s[..13][..8] == "turnrun:turn:"[..8] == "turnrun:";
      assert s[8..][..5] == s[..13][8..] == "turnrun:turn:"[8..] == "turn:";
    }
  }

  lemma BindsIff(ev: StreamEvent, start: int)
    ensures TurnContextFrom(ev, start).Some? <==> Binds(ev)
  {
    TurnRunPrefix(ev.turnRunId);
    if StartsWith(ev.turnRunId, "turnrun:turn:") { assert ev.turnRunId[8..] != ""; }
  }

  lemma TaskIdIff(q: PublicEvent)
    ensures TaskRunIdOf(q) != "" <==> NamesTask(q)
    ensures NamesTask(q) ==> TaskRunIdOf(q) == if IsTask(q.taskRunId) then q.taskRunId.value else q.runtimeTaskRunId.value
  {
  }

  lemma CueIs(c: Cue)
    requires c.Projection?
    ensures var q := WithDefaults(c.p, c.ev);
            && q == Sent(c) && (IsHandoff(q) <==> HandsOver(q)) && (IsOriginBound(q) <==> StartsTask(q))
            && BridgedTaskRunId(q, c.ev) == TaskOf(c)
            && (NeedsTurn(q.kind) <==> q.kind in TURN_CONTEXT_REQUIRED)
  {
    TaskIdIff(Sent(c));
  }

  lemma BoundMore(before: seq<Cue>, c: Cue)
    ensures Bound(before + [c]) <==> Bound(before) || BindsTurn(c)
    ensures Bridging(before + [c]) <==> Bridging(before) || OpensBridge(c)
  {
    var more := before + [c];
    assert more[|before|] == c && forall i :: 0 <= i < |before| ==> more[i] == before[i];
  }

  // ---- one cue ----

  /** The loop goes on, with the contexts that these cues have set. */
  predicate Playing(s: State, before: seq<Cue>) {
    && !StreamOver(s)
    && s.interruptions == []
    && (s.turn.Some? <==> Bound(before)) && (s.bridge.Some? <==> Bridging(before)) && (s.bridge.Some? ==> s.turn.Some?)
  }

  /** All of the script has been offered, or, raised or cancelled, a beginning of it. */
  predicate Offered(offered: seq<PublicEvent>, r: State, script: seq<PublicEvent>) {
    && offered <= r.out.offered <= offered + script
    && (r.halt.Going? || r.halt.Returned? ==> r.out.offered == offered + script)
  }

  predicate Finished(r: State, finish: Finish) {
    && (r.halt.Returned? ==>
          && finish.WithoutTurn?
          && r.interruptions == [if finish.handover then TaskBridgeContextMissing else TaskOriginBindingContextMissing])
    && (r.halt.Going? ==>
          !finish.WithoutTurn? && (r.terminal <==> finish.OnCompletion?) && (r.handoff <==> finish.HandedOver?))
  }

  /** State r follows s, which had met `before`, by playing these cues. */
  predicate Played(s: State, r: State, before: seq<Cue>, cues: seq<Cue>) {
    && Offered(s.out.offered, r, Script(before, cues))
    && Finished(r, FinishOf(before, cues))
    && (r.halt.Going? && FinishOf(before, cues).Unfinished? ==> Playing(r, before + cues))
  }

  lemma OfferWrote(env: Env, s: State, e: PublicEvent)
    ensures Wrote(s, Offer(env, s, e), [e])
  {
  }

  lemma OpenBridgeWrote(env: Env, s: State, taskRunId: string)
    requires s.turn.Some?
    ensures var r := OpenBridge(env, s, taskRunId);
            && Wrote(s, r, if s.bridge.Some? then [] else [ForTask(BridgeStarted, taskRunId)])
            && (r.halt.Going? ==> r.bridge.Some?) && !(s.halt.Going? && r.halt.Returned?)
  {
    if s.halt == Going && s.bridge.None? {
      var context := BridgeContext(taskRunId, s.turn.value.turnId, s.turn.value.turnRunId, NextSequence(s.out.run));
      OfferWrote(env, s.(bridge := Some(context)), ForTask(BridgeStarted, taskRunId));
    }
  }

  lemma ArrivalPlayed(env: Env, s: State, ev: StreamEvent, before: seq<Cue>)
    requires Playing(s, before)
    ensures Played(s, BindTurn(env, s, ev), before, [Arrival(ev)])
  {
    var c := Arrival(ev);
    OneCue(before, c);
    BoundMore(before, c);
    BindsIff(ev, NextSequence(s.out.run));
    OfferWrote(env, s.(turn := TurnContextFrom(ev, NextSequence(s.out.run))), Plain(TurnBound));
  }

  lemma OneCue(before: seq<Cue>, c: Cue)
    ensures Script(before, [c]) == Shown(before, c)
    ensures FinishOf(before, [c]) == if !Closing(before, c) then Unfinished
                                     else if OpensBridge(c)
                                     then if Bound(before) then HandedOver else WithoutTurn(HandsOver(Sent(c)))
                                     else OnCompletion
  {
    assert [c][1..] == [];
  }

  lemma ProjectionPlayed(env: Env, s: State, ev: StreamEvent, p: PublicEvent, before: seq<Cue>)
    requires Playing(s, before)
    ensures Played(s, Project(env, s, ev, p), before, [Projection(ev, p)])
  {
    var c := Projection(ev, p);
    var q := Sent(c);
    OneCue(before, c);
    BoundMore(before, c);
    CueIs(c);
    if s.turn.None? && NeedsTurn(q.kind) {
      OfferWrote(env, s, Plain(RuntimeStatus));
    } else if IsOriginBound(q) {
      if s.turn.Some? { OriginPlayed(env, s, c, before); }
    } else if IsHandoff(q) {
      if s.turn.Some? { OpenBridgeWrote(env, s, TaskOf(c)); }
    } else {
      OfferWrote(env, s, q);
    }
  }

  lemma OriginPlayed(env: Env, s: State, c: Cue, before: seq<Cue>)
    requires Playing(s, before) && s.turn.Some? && c.Projection? && StartsTask(Sent(c))
    ensures Played(s, OpenBridge(env, Offer(env, s, Sent(c)), TaskOf(c)), before, [c])
  {
    OneCue(before, c);
    BoundMore(before, c);
    var m := Offer(env, s, Sent(c));
    OfferWrote(env, s, Sent(c));
    OpenBridgeWrote(env, m, TaskOf(c));
    WroteThen(s, m, OpenBridge(env, m, TaskOf(c)), [Sent(c)], if s.bridge.Some? then [] else [ForTask(BridgeStarted, TaskOf(c))]);
  }

  // ---- the turn context ----

  /** The turn of an event that binds one: named by it, or by its turn run. */
  function TurnOf(ev: StreamEvent): string
    requires Binds(ev)
  {
    TurnRunPrefix(ev.turnRunId);
    if ev.activeTurnId != "" then ev.activeTurnId else ev.turnRunId[|"turnrun:"|..]
  }

  /** The turn context comes from the first event that binds the turn. */
  predicate BoundByFirst(turn: TurnContext, inputs: seq<StreamEvent>) {
    exists i :: 0 <= i < |inputs| && Binds(inputs[i]) && (forall j :: 0 <= j < i ==> !Binds(inputs[j]))
                && turn.turnId == TurnOf(inputs[i]) && turn.turnRunId == inputs[i].turnRunId
  }

  lemma TurnContextIs(ev: StreamEvent, start: int)
    requires Binds(ev)
    ensures TurnContextFrom(ev, start) == Some(TurnContext(TurnOf(ev), ev.turnRunId, start))
  {
    BindsIff(ev, start);
    TurnRunPrefix(ev.turnRunId);
  }

  lemma {:induction false} ProjectAllKeepsTurn(env: Env, s: State, ev: StreamEvent, ps: seq<PublicEvent>)
    ensures ProjectAll(env, s, ev, ps).turn == s.turn
    decreases |ps|
  {
    if ps == [] {
    } else {
      ProjectAllKeepsTurn(env, Project(env, s, ev, ps[0]), ev, ps[1..]);
    }
  }

  lemma StepTurn(env: Env, s: State, ev: StreamEvent)
    ensures var r := StreamStep(env, s, ev);
            r.turn == s.turn || (s.turn.None? && Binds(ev) && r.turn.Some?
                                 && r.turn.value.turnId == TurnOf(ev) && r.turn.value.turnRunId == ev.turnRunId)
    ensures !StreamOver(s) && s.turn.None? && Binds(ev) ==> StreamStep(env, s, ev).turn.Some?
  {
    BindsIff(ev, NextSequence(s.out.run));
    if Binds(ev) { TurnContextIs(ev, NextSequence(s.out.run)); }
    ProjectAllKeepsTurn(env, BindTurn(env, s, ev), ev, ev.projections);
  }

  /** In every run the turn's ids are those of the first event that binds it. */
  lemma {:induction false} TurnIsFirstBound(env: Env, s: State, inputs: seq<StreamEvent>)
    ensures s.turn.Some? ==> StreamAll(env, s, inputs).turn == s.turn
    ensures s.turn.None? && StreamAll(env, s, inputs).turn.Some? ==> BoundByFirst(StreamAll(env, s, inputs).turn.value, inputs)
    decreases |inputs|
  {
    if inputs == [] {
    } else {
      var m := StreamStep(env, s, inputs[0]);
      StepTurn(env, s, inputs[0]);
      TurnIsFirstBound(env, m, inputs[1..]);
      var r := StreamAll(env, s, inputs);
      if s.turn.None? && r.turn.Some? {
        if m.turn.None? {
          assert !StreamOver(s) by { if StreamOver(s) { OverStays(env, s, inputs); } }
          var i :| 0 <= i < |inputs[1..]| && Binds(inputs[1..][i]) && (forall j :: 0 <= j < i ==> !Binds(inputs[1..][j]))
                   && r.turn.value.turnId == TurnOf(inputs[1..][i]) && r.turn.value.turnRunId == inputs[1..][i].turnRunId;
          assert forall j :: 0 <= j < i + 1 ==> !Binds(inputs[j]) by {
            assert forall j :: 1 <= j < i + 1 ==> inputs[j] == inputs[1..][j - 1];
          }
          assert inputs[i + 1] == inputs[1..][i];
        } else {
          assert Binds(inputs[0]);
        }
      }
    }
  }

  lemma {:induction false} OverStays(env: Env, s: State, inputs: seq<StreamEvent>)
    requires StreamOver(s)
    ensures StreamAll(env, s, inputs) == s
    decreases |inputs|
  {
    if inputs == [] {
    } else {
      OverStays(env, s, inputs[1..]);
    }
  }

  // ---- many cues ----

  lemma ScriptStep(before: seq<Cue>, cues: seq<Cue>)
    requires cues != []
    ensures Closing(before, cues[0]) ==>
              Script(before, cues) == Shown(before, cues[0]) && !FinishOf(before, cues).Unfinished?
    ensures !Closing(before, cues[0]) ==>
              && Script(before, cues) == Shown(before, cues[0]) + Script(before + [cues[0]], cues[1..])
              && FinishOf(before, cues) == FinishOf(before + [cues[0]], cues[1..])
  {
  }

  /** How the loop ends does not depend on what follows its end. */
  lemma ClosedJoins(before: seq<Cue>, x: seq<Cue>, y: seq<Cue>)
    requires x != [] && Closing(before, x[0])
    ensures FinishOf(before, x + y) == FinishOf(before, x) && Script(before, x + y) == Script(before, x)
    ensures !FinishOf(before, x).Unfinished?
  {
    TailJoins(x, y);
  }

  lemma {:induction false} ScriptJoins(before: seq<Cue>, x: seq<Cue>, y: seq<Cue>)
    ensures FinishOf(before, x + y) == if FinishOf(before, x).Unfinished? then FinishOf(before + x, y) else FinishOf(before, x)
    ensures Script(before, x + y) == Script(before, x) + (if FinishOf(before, x).Unfinished? then Script(before + x, y) else [])
    decreases |x|
  {
    if x == [] {
      assert x + y == y && before + x == before;
    } else if Closing(before, x[0]) {
      ClosedJoins(before, x, y);
    } else {
      TailJoins(x, y);
      Regroup(before, x, x[1..]);
      var next := before + [x[0]];
      ScriptStep(before, x);
      ScriptStep(before, x + y);
      ScriptJoins(next, x[1..], y);
      var more := if FinishOf(before, x).Unfinished? then Script(before + x, y) else [];
      Associates(Shown(before, x[0]), Script(next, x[1..]), more);
    }
  }

  /** Nothing is played once the loop is over. */
  lemma PlayedOver(s: State, m: State, before: seq<Cue>, x: seq<Cue>, y: seq<Cue>)
    requires Played(s, m, before, x) && StreamOver(m)
    ensures Played(s, m, before, x + y)
  {
    ScriptJoins(before, x, y);
    BeginsWith(s.out.offered, Script(before, x), Script(before, x + y));
  }

  lemma BeginsWith(a: seq<PublicEvent>, x: seq<PublicEvent>, y: seq<PublicEvent>)
    requires x <= y
    ensures a + x <= a + y
  {
  }

  lemma OfferedOn(offered: seq<PublicEvent>, m: State, r: State, x: seq<PublicEvent>, y: seq<PublicEvent>)
    requires m.out.offered == offered + x && Offered(m.out.offered, r, y)
    ensures Offered(offered, r, x + y)
  {
    Associates(offered, x, y);
  }

  /** The loop goes on. */
  lemma PlayedOn(s: State, m: State, r: State, before: seq<Cue>, x: seq<Cue>, y: seq<Cue>)
    requires Played(s, m, before, x) && !StreamOver(m) && Played(m, r, before + x, y)
    ensures Played(s, r, before, x + y)
  {
    ScriptJoins(before, x, y);
    Associates(before, x, y);
    OfferedOn(s.out.offered, m, r, Script(before, x), Script(before + x, y));
  }

  lemma PlayedThen(s: State, m: State, r: State, before: seq<Cue>, x: seq<Cue>, y: seq<Cue>)
    requires Played(s, m, before, x)
    requires if StreamOver(m) then r == m else Played(m, r, before + x, y)
    ensures Played(s, r, before, x + y)
  {
    if StreamOver(m) { PlayedOver(s, m, before, x, y); } else { PlayedOn(s, m, r, before, x, y); }
  }

  lemma NothingPlayed(s: State, before: seq<Cue>)
    requires Playing(s, before)
    ensures Played(s, s, before, [])
  {
    assert before + [] == before;
  }

  lemma {:induction false} ProjectAllPlayed(env: Env, s: State, ev: StreamEvent, ps: seq<PublicEvent>, before: seq<Cue>)
    ensures StreamOver(s) ==> ProjectAll(env, s, ev, ps) == s
    ensures Playing(s, before) ==> Played(s, ProjectAll(env, s, ev, ps), before, ProjectionCues(ev, ps))
    decreases |ps|
  {
    if ps == [] {
      if Playing(s, before) { NothingPlayed(s, before); }
    } else {
      var m := Project(env, s, ev, ps[0]);
      ProjectAllPlayed(env, m, ev, ps[1..], before + [Projection(ev, ps[0])]);
      if Playing(s, before) {
        ProjectionPlayed(env, s, ev, ps[0], before);
        PlayedThen(s, m, ProjectAll(env, m, ev, ps[1..]), before, [Projection(ev, ps[0])], ProjectionCues(ev, ps[1..]));
      }
    }
  }

  lemma StepPlayed(env: Env, s: State, ev: StreamEvent, before: seq<Cue>)
    requires Playing(s, before)
    ensures Played(s, StreamStep(env, s, ev), before, [Arrival(ev)] + ProjectionCues(ev, ev.projections))
  {
    var m := BindTurn(env, s, ev);
    ArrivalPlayed(env, s, ev, before);
    ProjectAllPlayed(env, m, ev, ev.projections, before + [Arrival(ev)]);
    PlayedThen(s, m, ProjectAll(env, m, ev, ev.projections), before, [Arrival(ev)], ProjectionCues(ev, ev.projections));
  }

  lemma {:induction false} StreamAllPlayed(env: Env, s: State, inputs: seq<StreamEvent>, before: seq<Cue>)
    ensures StreamOver(s) ==> StreamAll(env, s, inputs) == s
    ensures Playing(s, before) ==> Played(s, StreamAll(env, s, inputs), before, Cues(inputs))
    decreases |inputs|
  {
    if inputs == [] {
      if Playing(s, before) { NothingPlayed(s, before); }
    } else {
      var ev := inputs[0];
      var cues := [Arrival(ev)] + ProjectionCues(ev, ev.projections);
      var m := StreamStep(env, s, ev);
      StreamAllPlayed(env, m, inputs[1..], before + cues);
      if Playing(s, before) {
        StepPlayed(env, s, ev, before);
        PlayedThen(s, m, StreamAll(env, m, inputs[1..]), before, cues, Cues(inputs[1..]));
      }
    }
  }

  /** Every run's turn context comes from the first event that binds the turn. */
  lemma TurnComesFromFirst(env: Env, w: World)
    ensures Streamed(env, w).turn.Some? ==> BoundByFirst(Streamed(env, w).turn.value, w.inputs)
  {
    TurnIsFirstBound(env, Start(env), w.inputs);
  }

  /** What the agent streamed is what is offered, for every run: the start, then for each event the
      turn anchor where it binds the turn, and its projections in order, up to the first that ends
      the loop. A run that raised or was cancelled has offered a beginning of that; any other has
      offered it all, and has ended the loop as it ends: on a completion, on a handoff, for want of
      a turn, or not at all. */
  lemma StreamOffersScript(env: Env, w: World)
    ensures var s := Streamed(env, w);
            var full := [Plain(ChatRunStarted)] + Script([], Cues(w.inputs));
            var finish := FinishOf([], Cues(w.inputs));
            && s.out.offered <= full
            && (s.halt.Going? || s.halt.Returned? ==> s.out.offered == full)
            && Finished(s, finish)
  {
    var s := Start(env);
    StreamAllPlayed(env, s, w.inputs, []);
    StartOffers(env);
    if !StreamOver(s) { assert Playing(s, []); }
  }

  /** A run whose first append raises logs nothing and ends orphaned: its writes are the touch at the
      start, if the registry takes it, and the interruption. */
  lemma FailedStart(env: Env, w: World)
    requires env.raiseAt(0)
    ensures var r := RunChat(env, w);
            && r.exited && r.out.offered == [] && r.out.log == [] && r.out.run == RuntimeRun(-1, Orphaned, false)
            && r.out.writes == (if env.updateOk(0) then [Updated(Running)] else []) + [Updated(Orphaned)]
            && r.interruptions == [if w.liveBoundTask then ProjectionStreamException else StreamException]
  {
    StreamAllPlayed(env, Start(env), w.inputs, []);
  }
}
