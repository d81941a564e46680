/** The chat run writer as a function of its environment: what one run offers to
    the public stream, what reaches its log, and how it ends.

    A payload is reduced to its type, the ids and the flags the writer branches
    on. Everything the writer does not decide is an oracle in `Env`, indexed by
    the number of events offered so far, or part of the `World` it consumes. */
module ChatRun {
  import opened Common

  datatype Kind =
    | ChatRunStarted | TurnBound | OriginBound | BridgeStarted | BridgeTerminal | TurnCompleted
    | RuntimeStatus | StepSummary | ActionAdmission
    | PublicFeedback | StreamRepair | TextDelta | TextFinal
    | CommitAck | CommitChecked | CommitFailed | CommitSkipped
    | ToolRequested | ToolPermission | ToolStarted | ToolCompleted
    | OtherPublic(name: string)

  /** TURN_CONTEXT_REQUIRED_PUBLIC_EVENTS */
  predicate NeedsTurn(k: Kind) {
    k.PublicFeedback? || k.StreamRepair? || k.TextDelta? || k.TextFinal?
    || k.CommitAck? || k.CommitChecked? || k.CommitFailed? || k.CommitSkipped?
    || k.ToolRequested? || k.ToolCompleted? || k.ToolStarted? || k.ToolPermission?
  }

  /** The types `_project_public_stream_event` can produce for a task event in
      TASK_BRIDGE_PUBLIC_EVENT_TYPES. */
  predicate BridgeProjectable(k: Kind) {
    NeedsTurn(k) || k.StepSummary? || k.ActionAdmission?
  }

  predicate ShowsOutput(k: Kind) {
    k.TextFinal? || k.StreamRepair?
  }

  predicate SettlesCommit(k: Kind) {
    k.CommitAck? || k.CommitFailed? || k.CommitSkipped?
  }

  /** One projected public event. The id fields are absent when the payload has no
      such key; `binding` is the task id of a `task_origin_binding` record. */
  datatype PublicEvent = PublicEvent(
    kind: Kind,
    taskRunId: Option<string>,
    runtimeTaskRunId: Option<string>,
    binding: Option<string>,
    status: string,
    terminalReason: string,
    completionState: string,
    waitPlaceholder: bool)

  function Plain(k: Kind): PublicEvent {
    PublicEvent(k, None, None, None, "", "", "", false)
  }

  function ForTask(k: Kind, taskRunId: string): PublicEvent {
    Plain(k).(taskRunId := Some(taskRunId), runtimeTaskRunId := Some(taskRunId))
  }

  /** One event of the agent stream with its run references and its projections. */
  datatype StreamEvent = StreamEvent(
    eventType: string,
    taskRunId: string,
    turnRunId: string,
    activeTurnId: string,
    projections: seq<PublicEvent>)

  type TaskProjection = p: PublicEvent | BridgeProjectable(p.kind) witness Plain(StepSummary)

  datatype TaskEventFamily = BridgePublic | BridgeEnd | NotBridged

  /** One event of the task log; its offset is its index there. */
  datatype TaskEvent = TaskEvent(
    runId: string,
    family: TaskEventFamily,
    status: string,
    projections: seq<TaskProjection>)

  datatype TurnContext = TurnContext(turnId: string, turnRunId: string, sequenceStart: int)

  datatype BridgeContext = BridgeContext(taskRunId: string, turnId: string, turnRunId: string, sequenceBase: int)

  datatype RunStatus = Starting | Running | Completed | Failed | Stopped | Orphaned

  /** TERMINAL_RUNTIME_RUN_STATUSES */
  predicate IsEnded(status: RunStatus) {
    status.Completed? || status.Failed? || status.Stopped? || status.Orphaned?
  }

  /** The registry record of the run. */
  datatype RuntimeRun = RuntimeRun(latest: int, status: RunStatus, terminalEvent: bool)

  /** A public log line; its offset is its index. */
  datatype Entry = Entry(event: PublicEvent, sequence: int)

  datatype InterruptionCode =
    | TaskOriginBindingContextMissing | TaskBridgeContextMissing | StreamCancelled
    | ProjectionStreamException | StreamException | MissingTaskBridgeTerminal | MissingTerminalEvent

  /** Why the coroutine stopped moving: an exception, a cancellation, an early
      return; `Going` otherwise. */
  datatype Halt = Going | Raised | Cancelled | Returned

  /** One write that other processes can see: a log line, or a registry record with a new
      offset and status or with a new status only. */
  datatype Write = Logged(event: PublicEvent) | Marked(offset: nat, status: RunStatus) | Updated(status: RunStatus)

  /** What the run has written: the events offered to the filter, the public log, the registry
      record, and the writes that led to both, in order. */
  datatype Output = Output(offered: seq<PublicEvent>, log: seq<Entry>, run: RuntimeRun, writes: seq<Write>)

  /** The local variables of the bridge loop, with the offsets it has handled. */
  datatype TaskView = TaskView(
    cursor: int,
    handled: seq<int>,
    outputObserved: bool,
    commitObserved: bool,
    closed: bool)

  datatype State = State(
    out: Output,
    turn: Option<TurnContext>,
    bridge: Option<BridgeContext>,
    terminal: bool,
    handoff: bool,
    halt: Halt,
    interruptions: seq<InterruptionCode>,
    task: TaskView,
    exited: bool)

  /** Oracles: the projection filter, whether a registry write succeeds, and at
      which calls an exception or a cancellation strikes. */
  datatype Env = Env(
    emit: (nat, PublicEvent) -> bool,
    markOk: nat -> bool,
    updateOk: nat -> bool,
    raiseAt: nat -> bool,
    cancelAt: nat -> bool)

  datatype StreamEnd = Open | Exhausted | StreamRaised | StreamCancelledEnd

  datatype Wait = Woken | TimedOut | WaitCancelled | WaitRaised

  /** One pass of the bridge loop: how many task events the listing holds, and how
      the wait ends when the pass made no progress. A listing that raises is one that holds
      none before a wait that raises. */
  datatype Round = Round(listed: nat, wait: Wait)

  /** Everything a run consumes; a finite prefix when the stream is still open or
      the rounds run out. `subscribes` says whether subscribing to the task log succeeds. */
  datatype World = World(
    inputs: seq<StreamEvent>,
    end: StreamEnd,
    subscribes: bool,
    task: seq<TaskEvent>,
    rounds: seq<Round>,
    liveBoundTask: bool)

  // ---- run references and projected data ----

  function TurnIdFromTurnRunId(turnRunId: string): string {
    if !StartsWith(turnRunId, "turnrun:") then ""
    else
      var candidate := turnRunId[|"turnrun:"|..];
      if StartsWith(candidate, "turn:") then candidate else ""
  }

  function TurnContextFrom(ev: StreamEvent, sequenceStart: int): Option<TurnContext> {
    if ev.eventType != "harness_run_started" && ev.eventType != "single_agent_turn_started" then None
    else
      var turnId := if ev.activeTurnId != "" then ev.activeTurnId else TurnIdFromTurnRunId(ev.turnRunId);
      if ev.turnRunId == "" || turnId == "" then None
      else Some(TurnContext(turnId, ev.turnRunId, sequenceStart))
  }

  /** `data.setdefault` of the event's task id under both keys. */
  function WithDefaults(p: PublicEvent, ev: StreamEvent): PublicEvent {
    if ev.taskRunId == "" then p
    else p.(
      runtimeTaskRunId := if p.runtimeTaskRunId.Some? then p.runtimeTaskRunId else Some(ev.taskRunId),
      taskRunId := if p.taskRunId.Some? then p.taskRunId else Some(ev.taskRunId))
  }

  function TaskRunIdOf(p: PublicEvent): string {
    if p.taskRunId.Some? && StartsWith(p.taskRunId.value, "taskrun:") then p.taskRunId.value
    else if p.runtimeTaskRunId.Some? && StartsWith(p.runtimeTaskRunId.value, "taskrun:") then p.runtimeTaskRunId.value
    else ""
  }

  const HANDOFF_REASON := "task_executor_scheduled"

  predicate IsHandoff(p: PublicEvent) {
    && p.kind.TurnCompleted?
    && (p.completionState == HANDOFF_REASON || p.terminalReason == HANDOFF_REASON || p.status == HANDOFF_REASON)
    && TaskRunIdOf(p) != ""
  }

  predicate IsOriginBound(p: PublicEvent) {
    && p.kind.OriginBound?
    && p.binding.Some?
    && (TaskRunIdOf(p) != "" || StartsWith(p.binding.value, "taskrun:"))
  }

  function BridgedTaskRunId(p: PublicEvent, ev: StreamEvent): string {
    if TaskRunIdOf(p) != "" then TaskRunIdOf(p) else ev.taskRunId
  }

  function StatusFor(e: PublicEvent): RunStatus {
    if !e.kind.TurnCompleted? then Running
    else if e.status == "failed" then Failed
    else if e.status == "stopped" then Stopped
    else Completed
  }

  function PublicTurnStatus(taskStatus: string): string {
    if taskStatus == "completed" then "completed"
    else if taskStatus in {"aborted", "cancelled", "canceled", "stopped", "blocked"} then "stopped"
    else "failed"
  }

  // ---- one append ----

  function NextSequence(run: RuntimeRun): int {
    OrMinusOne(run.latest) + 1
  }

  predicate Accepted(env: Env, pos: nat, e: PublicEvent) {
    !(e.kind.RuntimeStatus? && e.waitPlaceholder) && env.emit(pos, e)
  }

  function Log(env: Env, out: Output, e: PublicEvent, sequence: int): Output {
    var logged := out.(log := out.log + [Entry(e, sequence)], writes := out.writes + [Logged(e)]);
    if env.markOk(|out.offered|)
    then logged.(run := RuntimeRun(|out.log|, StatusFor(e), e.kind.TurnCompleted?),
                 writes := logged.writes + [Marked(|out.log|, StatusFor(e))])
    else logged
  }

  /** `update_run` with a status and no terminal event. */
  function Update(out: Output, status: RunStatus): Output {
    out.(run := out.run.(status := status, terminalEvent := false), writes := out.writes + [Updated(status)])
  }

  /** `_append_chat_public_event` when nothing raises. */
  function Emit(env: Env, out: Output, e: PublicEvent): Output {
    var logged := if Accepted(env, |out.offered|, e) then Log(env, out, e, NextSequence(out.run)) else out;
    logged.(offered := out.offered + [e])
  }

  /** The call in context: it may raise, and a halted run does nothing more. */
  function Append(env: Env, s: State, e: PublicEvent): (r: State)
    ensures r.turn == s.turn && r.bridge == s.bridge && r.terminal == s.terminal && r.handoff == s.handoff
    ensures r.task == s.task && r.interruptions == s.interruptions
    ensures r.halt == s.halt || (s.halt == Going && r.halt == Raised)
  {
    if s.halt != Going then s
    else if env.raiseAt(|s.out.offered|) then s.(halt := Raised)
    else s.(out := Emit(env, s.out, e))
  }

  /** `_allow_public_stream_flush`: yields to the loop, where a cancellation can
      arrive, only if the registry offset advanced. */
  function Flush(env: Env, previous: int, s: State): State {
    if s.halt == Going && s.out.run.latest > previous && env.cancelAt(|s.out.offered|) then s.(halt := Cancelled)
    else s
  }

  function Offer(env: Env, s: State, e: PublicEvent): (r: State)
    ensures r.turn == s.turn && r.bridge == s.bridge && r.terminal == s.terminal && r.handoff == s.handoff
    ensures r.task == s.task && r.interruptions == s.interruptions
  {
    Flush(env, s.out.run.latest, Append(env, s, e))
  }

  /** A best-effort registry update to "running" with no terminal event. */
  function Touch(env: Env, s: State): State {
    if s.halt == Going && env.updateOk(|s.out.offered|) then s.(out := Update(s.out, Running)) else s
  }

  // ---- the stream loop ----

  function Init(): State {
    State(Output([], [], RuntimeRun(-1, Starting, false), []), None, None, false, false, Going, [],
          TaskView(-1, [], false, false, false), false)
  }

  /** `mark_running`, then `chat_run_started`, which is logged without the filter
      and with sequence 0. */
  function Start(env: Env): State {
    var s := Init();
    var marked := if env.updateOk(0) then Update(s.out, Running) else s.out;
    if env.raiseAt(0) then s.(out := marked, halt := Raised)
    else
      var e := Plain(ChatRunStarted);
      Flush(env, -1, s.(out := Log(env, marked, e, 0).(offered := [e])))
  }

  predicate StreamOver(s: State) {
    s.halt != Going || s.terminal || s.handoff
  }

  /** `record_chat_turn_run_runtime_interruption`: the record keeps its offset and is orphaned. */
  function RecordInterruption(s: State, code: InterruptionCode): State {
    s.(out := Update(s.out, Orphaned), interruptions := s.interruptions + [code])
  }

  function Interrupt(s: State, code: InterruptionCode): State {
    RecordInterruption(s, code).(halt := Returned)
  }

  function BindTurn(env: Env, s: State, ev: StreamEvent): (r: State)
    ensures r.task == s.task
  {
    var created := TurnContextFrom(ev, NextSequence(s.out.run));
    if s.turn.Some? || created.None? then s
    else Offer(env, s.(turn := created), Plain(TurnBound))
  }

  function OpenBridge(env: Env, s: State, taskRunId: string): (r: State)
    requires s.turn.Some?
    ensures r.turn == s.turn && r.terminal == s.terminal && r.handoff == s.handoff && r.task == s.task
    ensures s.bridge.Some? ==> r.bridge == s.bridge
  {
    if s.halt != Going || s.bridge.Some? then s
    else
      var context := BridgeContext(taskRunId, s.turn.value.turnId, s.turn.value.turnRunId, NextSequence(s.out.run));
      Touch(env, Offer(env, s.(bridge := Some(context)), ForTask(BridgeStarted, taskRunId)))
  }

  function Project(env: Env, s: State, ev: StreamEvent, p: PublicEvent): (r: State)
    ensures r.task == s.task
  {
    var q := WithDefaults(p, ev);
    if StreamOver(s) then s
    else if s.turn.None? && NeedsTurn(q.kind) then Offer(env, s, Plain(RuntimeStatus))
    else if IsOriginBound(q) then
      if s.turn.None? then Interrupt(s, TaskOriginBindingContextMissing)
      else
        OpenBridge(env, Offer(env, s, q), BridgedTaskRunId(q, ev))
    else if IsHandoff(q) then
      if s.turn.None? then Interrupt(s, TaskBridgeContextMissing)
      else
        var bound := OpenBridge(env, s, BridgedTaskRunId(q, ev));
        if bound.halt == Going then bound.(handoff := true) else bound
    else
      var offered := Offer(env, s, q);
      if offered.halt == Going then offered.(terminal := q.kind.TurnCompleted?) else offered
  }

  function ProjectAll(env: Env, s: State, ev: StreamEvent, ps: seq<PublicEvent>): (r: State)
    ensures r.task == s.task
    decreases |ps|
  {
    if ps == [] then s else ProjectAll(env, Project(env, s, ev, ps[0]), ev, ps[1..])
  }

  function StreamStep(env: Env, s: State, ev: StreamEvent): (r: State)
    ensures r.task == s.task
  {
    if StreamOver(s) then s else ProjectAll(env, BindTurn(env, s, ev), ev, ev.projections)
  }

  function StreamAll(env: Env, s: State, inputs: seq<StreamEvent>): (r: State)
    ensures r.task == s.task
    decreases |inputs|
  {
    if inputs == [] then s else StreamAll(env, StreamStep(env, s, inputs[0]), inputs[1..])
  }

  function EndStream(s: State, end: StreamEnd): State {
    if StreamOver(s) then s
    else if end.StreamRaised? then s.(halt := Raised)
    else if end.StreamCancelledEnd? then s.(halt := Cancelled)
    else s
  }

  // ---- the task bridge ----

  predicate Foreign(t: TaskEvent, taskRunId: string) {
    t.runId != "" && t.runId != taskRunId
  }

  predicate Ends(t: TaskEvent, taskRunId: string) {
    !Foreign(t, taskRunId) && t.family.BridgeEnd?
  }

  function Observe(v: TaskView, k: Kind): TaskView {
    v.(outputObserved := v.outputObserved || ShowsOutput(k),
       commitObserved := v.commitObserved || SettlesCommit(k))
  }

  function AppendTask(env: Env, s: State, p: PublicEvent, taskRunId: string): (r: State)
    ensures r.turn == s.turn && r.bridge == s.bridge && r.terminal == s.terminal && r.handoff == s.handoff
    ensures r.task.cursor == s.task.cursor && r.task.handled == s.task.handled && r.task.closed == s.task.closed
    ensures r.halt == s.halt || (s.halt == Going && r.halt == Raised)
  {
    if s.halt != Going then s
    else
      Append(env,
             s.(task := Observe(s.task, p.kind)),
             p.(taskRunId := Some(taskRunId), runtimeTaskRunId := Some(taskRunId)))
  }

  function AppendTaskAll(env: Env, s: State, ps: seq<PublicEvent>, taskRunId: string): (r: State)
    ensures r.turn == s.turn && r.bridge == s.bridge && r.terminal == s.terminal && r.handoff == s.handoff
    ensures r.task.cursor == s.task.cursor && r.task.handled == s.task.handled && r.task.closed == s.task.closed
    ensures r.halt == s.halt || (s.halt == Going && r.halt == Raised)
    decreases |ps|
  {
    if ps == [] then s else AppendTaskAll(env, AppendTask(env, s, ps[0], taskRunId), ps[1..], taskRunId)
  }

  function TerminalEvent(taskRunId: string, taskStatus: string): PublicEvent {
    var raw := if taskStatus == "" then "completed" else taskStatus;
    ForTask(TurnCompleted, taskRunId).(status := PublicTurnStatus(raw), completionState := raw)
  }

  /** `_append_task_bridge_terminal`: the missing commit, then the terminal pair. */
  function CloseBridge(env: Env, s: State, taskRunId: string, taskStatus: string): (r: State)
    ensures r.turn == s.turn && r.bridge == s.bridge && r.terminal == s.terminal && r.handoff == s.handoff
    ensures r.task.cursor == s.task.cursor && r.task.handled == s.task.handled && r.task.closed == s.task.closed
    ensures r.halt == s.halt || (s.halt == Going && r.halt == Raised)
  {
    var settled := if s.task.outputObserved && !s.task.commitObserved
                   then Append(env, s, ForTask(CommitFailed, taskRunId)) else s;
    Append(env, Append(env, settled, ForTask(BridgeTerminal, taskRunId)), TerminalEvent(taskRunId, taskStatus))
  }

  /** `_project_task_runtime_event_to_chat` */
  function ProjectTask(env: Env, s: State, t: TaskEvent, taskRunId: string): (r: State)
    ensures r.turn == s.turn && r.bridge == s.bridge && r.terminal == s.terminal && r.handoff == s.handoff
    ensures r.task.cursor == s.task.cursor && r.task.handled == s.task.handled && r.task.closed == s.task.closed
    ensures r.halt == s.halt || (s.halt == Going && r.halt == Raised)
  {
    if Foreign(t, taskRunId) then Append(env, s, ForTask(RuntimeStatus, taskRunId))
    else
      var projected := if t.family.BridgePublic? then AppendTaskAll(env, s, t.projections, taskRunId) else s;
      if t.family.BridgeEnd? then CloseBridge(env, projected, taskRunId, t.status) else projected
  }

  /** One listed event: skipped when its offset, read with `or -1`, is not past the
      cursor. */
  function HandleTask(env: Env, s: State, t: TaskEvent, offset: nat, taskRunId: string): (r: State)
    ensures r.bridge == s.bridge
    ensures r.task.cursor == if s.halt == Going && !s.task.closed then Max(s.task.cursor, OrMinusOne(offset)) else s.task.cursor
  {
    if s.halt != Going || s.task.closed || OrMinusOne(offset) <= s.task.cursor then s
    else
      var moved := s.(task := s.task.(cursor := OrMinusOne(offset), handled := s.task.handled + [offset]));
      var flushed := Flush(env, s.out.run.latest, ProjectTask(env, moved, t, taskRunId));
      if flushed.halt == Going then flushed.(task := flushed.task.(closed := Ends(t, taskRunId))) else flushed
  }

  /** The listing pass over offsets from, .., to-1. */
  function HandleListed(env: Env, s: State, task: seq<TaskEvent>, from: nat, to: nat, taskRunId: string): State
    requires from <= to <= |task|
    decreases |task| - from
  {
    if from == to then s
    else HandleListed(env, HandleTask(env, s, task[from], from, taskRunId), task, from + 1, to, taskRunId)
  }

  function AfterPass(env: Env, before: State, s: State, wait: Wait): (r: State)
    ensures r.task == s.task && (r.halt == Going ==> s.halt == Going)
  {
    if s.halt != Going || s.task.closed || s.task.cursor > before.task.cursor then s
    else match wait
      case Woken => s
      case TimedOut => Touch(env, s)
      case WaitCancelled => s.(halt := Cancelled)
      case WaitRaised => s.(halt := Raised)
  }

  function Pass(env: Env, s: State, task: seq<TaskEvent>, round: Round, taskRunId: string): State {
    AfterPass(env, s, HandleListed(env, s, task, 0, Min(round.listed, |task|), taskRunId), round.wait)
  }

  function Passes(env: Env, s: State, task: seq<TaskEvent>, rounds: seq<Round>, taskRunId: string): State
    decreases |rounds|
  {
    if rounds == [] then s else Passes(env, Pass(env, s, task, rounds[0], taskRunId), task, rounds[1..], taskRunId)
  }

  /** `_bridge_task_run_to_chat_stream` and the reading of its result. */
  function Bridge(env: Env, s: State, subscribes: bool, task: seq<TaskEvent>, rounds: seq<Round>): State
    requires s.bridge.Some?
  {
    var taskRunId := s.bridge.value.taskRunId;
    if taskRunId == "" then s.(terminal := s.out.run.terminalEvent, task := s.task.(closed := true))
    else if !subscribes then s.(halt := Raised)
    else
      var passed := Passes(env, Touch(env, s.(task := s.task.(cursor := -1))), task, rounds, taskRunId);
      if passed.halt == Going && passed.task.closed then passed.(terminal := passed.out.run.terminalEvent) else passed
  }

  // ---- the whole run ----

  predicate NeedsBridge(s: State) {
    s.halt == Going && s.bridge.Some? && !s.terminal
  }

  /** The exception handlers and the missing-terminal check at the end. */
  function Exit(s: State, liveBoundTask: bool): State {
    var left :=
      match s.halt
      case Returned => s
      case Cancelled => RecordInterruption(s, StreamCancelled)
      case Raised => RecordInterruption(s, if liveBoundTask then ProjectionStreamException else StreamException)
      case Going =>
        if s.terminal then s
        else RecordInterruption(s, if liveBoundTask then MissingTaskBridgeTerminal else MissingTerminalEvent);
    left.(exited := true)
  }

  function Streamed(env: Env, w: World): State {
    EndStream(StreamAll(env, Start(env), w.inputs), w.end)
  }

  function Bridged(env: Env, w: World): State {
    var s := Streamed(env, w);
    if NeedsBridge(s) then Bridge(env, s, w.subscribes, w.task, w.rounds) else s
  }

  /** Has the run stopped consuming its world? */
  predicate Ended(env: Env, w: World) {
    var s := Streamed(env, w);
    (StreamOver(s) || !w.end.Open?) && (NeedsBridge(s) ==> Bridged(env, w).halt != Going || Bridged(env, w).task.closed)
  }

  /** `_run_chat_to_event_log` over a world; `exited` is set once it has ended. */
  function RunChat(env: Env, w: World): State {
    if Ended(env, w) then Exit(Bridged(env, w), w.liveBoundTask)
    else if StreamOver(Streamed(env, w)) || !w.end.Open? then Bridged(env, w)
    else Streamed(env, w)
  }
}
