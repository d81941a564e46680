/** The chat run writer as the coroutine runs it: mutable frame variables, loops with early
    exits, and appends to the shared log and registry. Each method is proved against the
    function of the same name in `ChatRun`, where the run's properties are proved. */
module ChatWriter {
  import opened Common
  import opened ChatRun

  class RunWriter {
    const env: Env
    // the stores it writes
    var offered: seq<PublicEvent>
    var log: seq<Entry>
    var run: RuntimeRun
    ghost var writes: seq<Write>
    var interruptions: seq<InterruptionCode>
    // the coroutine's frame
    var turn: Option<TurnContext>
    var bridge: Option<BridgeContext>
    var terminal: bool
    var handoff: bool
    var halt: Halt
    var task: TaskView
    var exited: bool

    ghost function View(): State
      reads this
    {
      State(Output(offered, log, run, writes), turn, bridge, terminal, handoff, halt, interruptions, task, exited)
    }

    constructor (env: Env)
      ensures View() == Init() && this.env == env
    {
      this.env := env;
      offered, log, run, writes := [], [], RuntimeRun(-1, Starting, false), [];
      turn, bridge, terminal, handoff, halt := None, None, false, false, Going;
      interruptions, task, exited := [], TaskView(-1, [], false, false, false), false;
    }

    method LogEvent(e: PublicEvent, sequence: int)
      modifies this`log, this`run, this`writes
      ensures View().out == Log(env, old(View().out), e, sequence)
    {
      var offset := |log|;
      log, writes := log + [Entry(e, sequence)], writes + [Logged(e)];
      if env.markOk(|offered|) {
        run := RuntimeRun(offset, StatusFor(e), e.kind.TurnCompleted?);
        writes := writes + [Marked(offset, StatusFor(e))];
      }
    }

    /** A registry update with a status and no terminal event. */
    method UpdateRun(status: RunStatus)
      modifies this`run, this`writes
      ensures View().out == Update(old(View().out), status)
    {
      run := run.(status := status, terminalEvent := false);
      writes := writes + [Updated(status)];
    }

    method Append(e: PublicEvent)
      modifies this
      ensures View() == ChatRun.Append(env, old(View()), e)
    {
      if halt != Going { return; }
      if env.raiseAt(|offered|) {
        halt := Raised;
        return;
      }
      if Accepted(env, |offered|, e) {
        LogEvent(e, NextSequence(run));
      }
      offered := offered + [e];
    }

    method Flush(previous: int)
      modifies this
      ensures View() == ChatRun.Flush(env, previous, old(View()))
    {
      if halt == Going && run.latest > previous && env.cancelAt(|offered|) {
        halt := Cancelled;
      }
    }

    method Offer(e: PublicEvent)
      modifies this
      ensures View() == ChatRun.Offer(env, old(View()), e)
    {
      var previous := run.latest;
      Append(e);
      Flush(previous);
    }

    method Touch()
      modifies this
      ensures View() == ChatRun.Touch(env, old(View()))
    {
      if halt == Going && env.updateOk(|offered|) { UpdateRun(Running); }
    }

    method Start()
      requires View() == Init()
      modifies this
      ensures View() == ChatRun.Start(env)
    {
      if env.updateOk(0) { UpdateRun(Running); }
      if env.raiseAt(0) {
        halt := Raised;
        return;
      }
      LogEvent(Plain(ChatRunStarted), 0);
      offered := [Plain(ChatRunStarted)];
      Flush(-1);
    }

    // ---- the stream loop ----

    method RecordInterruption(code: InterruptionCode)
      modifies this
      ensures View() == ChatRun.RecordInterruption(old(View()), code)
    {
      UpdateRun(Orphaned);
      interruptions := interruptions + [code];
    }

    method Interrupt(code: InterruptionCode)
      modifies this
      ensures View() == ChatRun.Interrupt(old(View()), code)
    {
      RecordInterruption(code);
      halt := Returned;
    }

    method BindTurn(ev: StreamEvent)
      modifies this
      ensures View() == ChatRun.BindTurn(env, old(View()), ev)
    {
      if turn.None? {
        var created := TurnContextFrom(ev, NextSequence(run));
        if created.Some? {
          turn := created;
          Offer(Plain(TurnBound));
        }
      }
    }

    method OpenBridge(taskRunId: string)
      requires turn.Some?
      modifies this
      ensures View() == ChatRun.OpenBridge(env, old(View()), taskRunId)
    {
      if halt == Going && bridge.None? {
        bridge := Some(BridgeContext(taskRunId, turn.value.turnId, turn.value.turnRunId, NextSequence(run)));
        Offer(ForTask(BridgeStarted, taskRunId));
        Touch();
      }
    }

    /** One projection, while the loop is still running. */
    method Project(ev: StreamEvent, p: PublicEvent)
      requires !StreamOver(View())
      modifies this
      ensures View() == ChatRun.Project(env, old(View()), ev, p)
    {
      var q := WithDefaults(p, ev);
      if turn.None? && NeedsTurn(q.kind) {
        Offer(Plain(RuntimeStatus));
      } else if IsOriginBound(q) {
        if turn.None? {
          Interrupt(TaskOriginBindingContextMissing);
        } else {
          Offer(q);
          OpenBridge(BridgedTaskRunId(q, ev));
        }
      } else if IsHandoff(q) {
        if turn.None? {
          Interrupt(TaskBridgeContextMissing);
        } else {
          OpenBridge(BridgedTaskRunId(q, ev));
          if halt == Going { handoff := true; }
        }
      } else {
        Offer(q);
        if halt == Going { terminal := q.kind.TurnCompleted?; }
      }
    }

    method StreamStep(ev: StreamEvent)
      requires !StreamOver(View())
      modifies this
      ensures View() == ChatRun.StreamStep(env, old(View()), ev)
    {
      ghost var s0 := View();
      BindTurn(ev);
      var i := 0;
      while i < |ev.projections| && halt == Going && !terminal && !handoff
        invariant 0 <= i <= |ev.projections|
        invariant ChatRun.StreamStep(env, s0, ev) == ProjectAll(env, View(), ev, ev.projections[i..])
      {
        assert ev.projections[i..][1..] == ev.projections[i + 1..];
        Project(ev, ev.projections[i]);
        i := i + 1;
      }
      OverSticks(env, View(), ev, ev.projections[i..]);
    }

    // ---- the bridge ----

    method AppendTask(p: PublicEvent, taskRunId: string)
      modifies this
      ensures View() == ChatRun.AppendTask(env, old(View()), p, taskRunId)
    {
      if halt != Going { return; }
      task := task.(outputObserved := task.outputObserved || ShowsOutput(p.kind),
                    commitObserved := task.commitObserved || SettlesCommit(p.kind));
      Append(p.(taskRunId := Some(taskRunId), runtimeTaskRunId := Some(taskRunId)));
    }

    method CloseBridge(taskRunId: string, taskStatus: string)
      modifies this
      ensures View() == ChatRun.CloseBridge(env, old(View()), taskRunId, taskStatus)
    {
      if task.outputObserved && !task.commitObserved {
        Append(ForTask(CommitFailed, taskRunId));
      }
      Append(ForTask(BridgeTerminal, taskRunId));
      Append(TerminalEvent(taskRunId, taskStatus));
    }

    method ProjectTask(t: TaskEvent, taskRunId: string)
      modifies this
      ensures View() == ChatRun.ProjectTask(env, old(View()), t, taskRunId)
    {
      if Foreign(t, taskRunId) {
        Append(ForTask(RuntimeStatus, taskRunId));
        return;
      }
      if t.family.BridgePublic? {
        ghost var s0 := View();
        var i := 0;
        while i < |t.projections|
          invariant 0 <= i <= |t.projections|
          invariant AppendTaskAll(env, s0, t.projections, taskRunId) == AppendTaskAll(env, View(), t.projections[i..], taskRunId)
        {
          assert t.projections[i..][1..] == t.projections[i + 1..];
          AppendTask(t.projections[i], taskRunId);
          i := i + 1;
        }
      }
      if t.family.BridgeEnd? {
        CloseBridge(taskRunId, t.status);
      }
    }

    method HandleTask(t: TaskEvent, offset: nat, taskRunId: string)
      modifies this
      ensures View() == ChatRun.HandleTask(env, old(View()), t, offset, taskRunId)
    {
      if halt != Going || task.closed || OrMinusOne(offset) <= task.cursor { return; }
      task := task.(cursor := OrMinusOne(offset), handled := task.handled + [offset]);
      var previous := run.latest;
      ProjectTask(t, taskRunId);
      Flush(previous);
      if halt == Going { task := task.(closed := Ends(t, taskRunId)); }
    }

    /** One pass: list, handle, and wait when nothing was new. */
    method Pass(events: seq<TaskEvent>, round: Round, taskRunId: string)
      modifies this
      ensures View() == ChatRun.Pass(env, old(View()), events, round, taskRunId)
    {
      ghost var s0 := View();
      var before := task.cursor;
      var to := Min(round.listed, |events|);
      var i := 0;
      while i < to
        invariant 0 <= i <= to
        invariant HandleListed(env, s0, events, 0, to, taskRunId) == HandleListed(env, View(), events, i, to, taskRunId)
      {
        HandleTask(events[i], i, taskRunId);
        i := i + 1;
      }
      if halt == Going && !task.closed && task.cursor <= before {
        match round.wait
        case Woken =>
        case TimedOut => Touch();
        case WaitCancelled => halt := Cancelled;
        case WaitRaised => halt := Raised;
      }
    }

    method Bridge(subscribes: bool, events: seq<TaskEvent>, rounds: seq<Round>)
      requires bridge.Some?
      modifies this
      ensures View() == ChatRun.Bridge(env, old(View()), subscribes, events, rounds)
    {
      var taskRunId := bridge.value.taskRunId;
      if taskRunId == "" {
        terminal := run.terminalEvent;
        task := task.(closed := true);
        return;
      }
      if !subscribes {
        halt := Raised;
        return;
      }
      task := task.(cursor := -1);
      Touch();
      ghost var s1 := View();
      var i := 0;
      while i < |rounds|
        invariant 0 <= i <= |rounds|
        invariant Passes(env, s1, events, rounds, taskRunId) == Passes(env, View(), events, rounds[i..], taskRunId)
      {
        assert rounds[i..][1..] == rounds[i + 1..];
        Pass(events, rounds[i], taskRunId);
        i := i + 1;
      }
      if halt == Going && task.closed { terminal := run.terminalEvent; }
    }

    // ---- the run ----

    method Stream(inputs: seq<StreamEvent>, end: StreamEnd)
      requires View() == Init()
      modifies this
      ensures View() == EndStream(StreamAll(env, ChatRun.Start(env), inputs), end)
    {
      Start();
      ghost var s0 := View();
      var i := 0;
      while i < |inputs| && halt == Going && !terminal && !handoff
        invariant 0 <= i <= |inputs|
        invariant StreamAll(env, s0, inputs) == StreamAll(env, View(), inputs[i..])
      {
        assert inputs[i..][1..] == inputs[i + 1..];
        StreamStep(inputs[i]);
        i := i + 1;
      }
      StreamSticks(env, View(), inputs[i..]);
      if halt == Going && !terminal && !handoff {
        match end
        case Open =>
        case Exhausted =>
        case StreamRaised => halt := Raised;
        case StreamCancelledEnd => halt := Cancelled;
      }
    }

    method Exit(liveBoundTask: bool)
      modifies this
      ensures View() == ChatRun.Exit(old(View()), liveBoundTask)
    {
      match halt {
        case Returned =>
        case Cancelled => RecordInterruption(StreamCancelled);
        case Raised => RecordInterruption(if liveBoundTask then ProjectionStreamException else StreamException);
        case Going =>
          if !terminal { RecordInterruption(if liveBoundTask then MissingTaskBridgeTerminal else MissingTerminalEvent); }
      }
      exited := true;
    }

    /** `_run_chat_to_event_log` over a world: what it writes and how it ends is `RunChat`. */
    method Run(w: World)
      requires View() == Init()
      modifies this
      ensures View() == RunChat(env, w)
    {
      Stream(w.inputs, w.end);
      var over := halt != Going || terminal || handoff;
      if !over && w.end.Open? { return; }
      var bridging := halt == Going && bridge.Some? && !terminal;
      if bridging { Bridge(w.subscribes, w.task, w.rounds); }
      if bridging && halt == Going && !task.closed { return; }
      Exit(w.liveBoundTask);
    }
  }

  lemma {:induction false} OverSticks(env: Env, s: State, ev: StreamEvent, ps: seq<PublicEvent>)
    ensures StreamOver(s) || ps == [] ==> ProjectAll(env, s, ev, ps) == s
    decreases |ps|
  {
    if ps == [] {
    } else if StreamOver(s) {
      OverSticks(env, s, ev, ps[1..]);
    }
  }

  lemma {:induction false} StreamSticks(env: Env, s: State, inputs: seq<StreamEvent>)
    ensures StreamOver(s) || inputs == [] ==> StreamAll(env, s, inputs) == s
    decreases |inputs|
  {
    if inputs == [] {
    } else if StreamOver(s) {
      StreamSticks(env, s, inputs[1..]);
    }
  }
}
