/** When a run stops, in closed form: what ends the stream loop and the bridge where no append raises
    and no cancellation arrives at a flush. */
module ChatExit {
  import opened Common
  import opened ChatRun
  import opened ChatBridge
  import opened ChatSettlement
  import opened ChatStream
  import opened ChatTerminal

  /** Nothing strikes while an event is appended or flushed. */
  ghost predicate Calm(env: Env) {
    forall p: nat :: !env.raiseAt(p) && !env.cancelAt(p)
  }

  predicate Unstruck(s: State) {
    s.halt.Going? || s.halt.Returned?
  }

  // ---- the stream ----

  lemma OpenBridgeCalm(env: Env, s: State, taskRunId: string)
    requires Calm(env) && s.turn.Some? && Unstruck(s)
    ensures Unstruck(OpenBridge(env, s, taskRunId))
  {
  }

  lemma ProjectCalm(env: Env, s: State, ev: StreamEvent, p: PublicEvent)
    requires Calm(env) && Unstruck(s)
    ensures Unstruck(Project(env, s, ev, p))
  {
  }

  lemma {:induction false} ProjectAllCalm(env: Env, s: State, ev: StreamEvent, ps: seq<PublicEvent>)
    requires Calm(env) && Unstruck(s)
    ensures Unstruck(ProjectAll(env, s, ev, ps))
    decreases |ps|
  {
    if ps == [] {
    } else {
      ProjectCalm(env, s, ev, ps[0]);
      ProjectAllCalm(env, Project(env, s, ev, ps[0]), ev, ps[1..]);
    }
  }

  lemma {:induction false} StreamAllCalm(env: Env, s: State, inputs: seq<StreamEvent>)
    requires Calm(env) && Unstruck(s)
    ensures Unstruck(StreamAll(env, s, inputs))
    decreases |inputs|
  {
    if inputs == [] {
    } else {
      ProjectAllCalm(env, BindTurn(env, s, inputs[0]), inputs[0], inputs[0].projections);
      StreamAllCalm(env, StreamStep(env, s, inputs[0]), inputs[1..]);
    }
  }

  /** How the stream loop leaves the run: a task without a turn returns; a stream that is over without
      a completion or a handoff leaves it as the stream ended. */
  function StreamHalt(w: World): Halt {
    match FinishOf([], Cues(w.inputs))
    case WithoutTurn(_) => Returned
    case Unfinished => (match w.end case StreamRaised => Raised case StreamCancelledEnd => Cancelled case _ => Going)
    case _ => Going
  }

  lemma StreamHalts(env: Env, w: World)
    requires Calm(env)
    ensures Streamed(env, w).halt == StreamHalt(w)
  {
    StreamOffersScript(env, w);
    StreamAllCalm(env, Start(env), w.inputs);
    StreamAllFinishes(env, w);
  }

  /** Before its end is looked at, the loop is over exactly when the script is. */
  lemma StreamAllFinishes(env: Env, w: World)
    requires Calm(env)
    ensures var s := StreamAll(env, Start(env), w.inputs);
            Finished(s, FinishOf([], Cues(w.inputs)))
            && (StreamOver(s) <==> !FinishOf([], Cues(w.inputs)).Unfinished?)
  {
    StreamOffersScript(env, w.(end := Open));
    StreamAllCalm(env, Start(env), w.inputs);
  }

  // ---- the bridge ----

  lemma {:induction false} AppendTaskAllCalm(env: Env, s: State, ps: seq<PublicEvent>, taskRunId: string)
    requires Calm(env)
    ensures AppendTaskAll(env, s, ps, taskRunId).halt == s.halt
    decreases |ps|
  {
    if ps == [] {
    } else {
      AppendTaskAllCalm(env, AppendTask(env, s, ps[0], taskRunId), ps[1..], taskRunId);
    }
  }

  lemma ProjectTaskCalm(env: Env, s: State, t: TaskEvent, taskRunId: string)
    requires Calm(env)
    ensures ProjectTask(env, s, t, taskRunId).halt == s.halt
  {
    AppendTaskAllCalm(env, s, t.projections, taskRunId);
  }

  lemma {:induction false} HandleListedCalm(env: Env, s: State, task: seq<TaskEvent>, from: nat, to: nat, taskRunId: string)
    requires from <= to <= |task| && Calm(env)
    ensures HandleListed(env, s, task, from, to, taskRunId).halt == s.halt
    decreases |task| - from
  {
    if from == to {
    } else {
      ProjectTaskCalm(env, Moved(s, from), task[from], taskRunId);
      HandleListedCalm(env, HandleTask(env, s, task[from], from, taskRunId), task, from + 1, to, taskRunId);
    }
  }

  datatype BridgeEnding = BridgeWaits | TaskEnded | BridgeRaised | BridgeCancelled

  predicate EndListed(seen: nat, n: nat, task: seq<TaskEvent>, taskRunId: string)
    requires n <= |task|
  {
    exists o :: seen <= o < n && EndsTask(task[o], taskRunId)
  }

  /** How a bridge that has seen the offsets below `seen` ends on these listings: on the first that
      holds the end of its task, or at the first wait, behind a listing with nothing new, that is
      cancelled or raises. */
  function EndingOf(seen: nat, rounds: seq<Round>, task: seq<TaskEvent>, taskRunId: string): BridgeEnding
    decreases |rounds|
  {
    if rounds == [] then BridgeWaits
    else
      var n := Min(rounds[0].listed, |task|);
      if EndListed(seen, n, task, taskRunId) then TaskEnded
      else if n <= seen && rounds[0].wait.WaitCancelled? then BridgeCancelled
      else if n <= seen && rounds[0].wait.WaitRaised? then BridgeRaised
      else EndingOf(Max(seen, n), rounds[1..], task, taskRunId)
  }

  predicate EndsAs(s: State, ending: BridgeEnding) {
    match ending
    case BridgeWaits => s.halt.Going? && !s.task.closed
    case TaskEnded => s.halt.Going? && s.task.closed
    case BridgeRaised => s.halt.Raised?
    case BridgeCancelled => s.halt.Cancelled?
  }

  predicate NoneEnded(task: seq<TaskEvent>, c: int, taskRunId: string)
    requires c < |task|
  {
    forall o :: 1 <= o <= c ==> !EndsTask(task[o], taskRunId)
  }

  lemma TraceCursor(base: seq<PublicEvent>, s: State, task: seq<TaskEvent>, taskRunId: string)
    requires BridgeTrace(base, s, task, taskRunId)
    ensures s.task.cursor < |task| && (s.task.cursor == -1 || 1 <= s.task.cursor)
    ensures s.task.closed ==> 1 <= s.task.cursor && EndsTask(task[s.task.cursor], taskRunId)
    ensures s.halt == Going && !s.task.closed ==> NoneEnded(task, s.task.cursor, taskRunId)
  {
  }

  lemma CursorMoves(task: seq<TaskEvent>, before: int, after: int, n: nat, closed: bool, taskRunId: string)
    requires before <= after < |task| && (before == -1 || 1 <= before) && (after == before || after < n) && n <= |task|
    requires NoneEnded(task, before, taskRunId) && (after == -1 || 1 <= after)
    requires if closed then 1 <= after && EndsTask(task[after], taskRunId) else n - 1 <= Max(after, 0) && NoneEnded(task, after, taskRunId)
    ensures closed <==> EndListed(Max(before, 0) + 1, n, task, taskRunId)
    ensures after > before <==> n > Max(before, 0) + 1
    ensures !closed ==> Max(after, 0) + 1 == Max(Max(before, 0) + 1, n)
  {
    if closed { assert Max(before, 0) + 1 <= after < n && EndsTask(task[after], taskRunId); }
  }

  /** One listing: it closes the bridge exactly when it holds the end of its task. */
  lemma ListingEnds(env: Env, base: seq<PublicEvent>, s: State, task: seq<TaskEvent>, n: nat, taskRunId: string)
    requires Calm(env) && BridgeTrace(base, s, task, taskRunId) && s.halt == Going && !s.task.closed && n <= |task|
    ensures var r, seen := HandleListed(env, s, task, 0, n, taskRunId), Max(s.task.cursor, 0) + 1;
            && r.halt == Going && (r.task.closed <==> EndListed(seen, n, task, taskRunId))
            && (r.task.cursor > s.task.cursor <==> n > seen)
            && (!r.task.closed ==> Max(r.task.cursor, 0) + 1 == Max(seen, n))
  {
    var r := HandleListed(env, s, task, 0, n, taskRunId);
    HandleListedTrace(env, base, s, task, 0, n, taskRunId);
    HandleListedCalm(env, s, task, 0, n, taskRunId);
    TraceCursor(base, s, task, taskRunId);
    TraceCursor(base, r, task, taskRunId);
    CursorMoves(task, s.task.cursor, r.task.cursor, n, r.task.closed, taskRunId);
  }

  lemma PassEnds(env: Env, base: seq<PublicEvent>, s: State, task: seq<TaskEvent>, round: Round, taskRunId: string)
    requires Calm(env) && BridgeTrace(base, s, task, taskRunId) && s.halt == Going && !s.task.closed
    ensures var r, n, seen := Pass(env, s, task, round, taskRunId), Min(round.listed, |task|), Max(s.task.cursor, 0) + 1;
            if EndListed(seen, n, task, taskRunId) then EndsAs(r, TaskEnded)
            else if n <= seen && round.wait.WaitCancelled? then EndsAs(r, BridgeCancelled)
            else if n <= seen && round.wait.WaitRaised? then EndsAs(r, BridgeRaised)
            else EndsAs(r, BridgeWaits) && Max(r.task.cursor, 0) + 1 == Max(seen, n)
  {
    ListingEnds(env, base, s, task, Min(round.listed, |task|), taskRunId);
  }

  lemma {:induction false} PassesEnd(env: Env, base: seq<PublicEvent>, s: State, task: seq<TaskEvent>, rounds: seq<Round>, taskRunId: string)
    requires Calm(env) && BridgeTrace(base, s, task, taskRunId) && s.halt == Going && !s.task.closed
    ensures EndsAs(Passes(env, s, task, rounds, taskRunId), EndingOf(Max(s.task.cursor, 0) + 1, rounds, task, taskRunId))
    decreases |rounds|
  {
    if rounds == [] {
    } else {
      var passed := Pass(env, s, task, rounds[0], taskRunId);
      PassTrace(env, base, s, task, rounds[0], taskRunId);
      PassEnds(env, base, s, task, rounds[0], taskRunId);
      if passed.halt == Going && !passed.task.closed {
        PassesEnd(env, base, passed, task, rounds[1..], taskRunId);
      } else {
        HaltSticks(env, passed, task, rounds[1..], taskRunId);
      }
    }
  }

  /** A bridge of no task is over at once; one that cannot subscribe raises. */
  function BridgeEndingOf(w: World, taskRunId: string): BridgeEnding {
    if taskRunId == "" then TaskEnded
    else if !w.subscribes then BridgeRaised
    else EndingOf(1, w.rounds, w.task, taskRunId)
  }

  lemma BridgeEnds(env: Env, w: World)
    requires Calm(env) && NeedsBridge(Streamed(env, w))
    ensures EndsAs(Bridged(env, w), BridgeEndingOf(w, Streamed(env, w).bridge.value.taskRunId))
  {
    var s := Streamed(env, w);
    assert s.task == Init().task && s.out.offered + [] == s.out.offered;
    if s.bridge.value.taskRunId != "" && w.subscribes {
      PassesEnd(env, s.out.offered, Begun(env, s), w.task, w.rounds, s.bridge.value.taskRunId);
    }
  }

  // ---- the run ----

  /** Does the run go on to the bridge: on a handoff, or when the stream is over without an end, with
      a task to bridge? */
  predicate GoesToBridge(w: World) {
    var finish := FinishOf([], Cues(w.inputs));
    finish.HandedOver? || (finish.Unfinished? && w.end.Exhausted? && Bridging(Cues(w.inputs)))
  }

  /** Is the stream loop over? */
  predicate StreamDone(w: World) {
    !FinishOf([], Cues(w.inputs)).Unfinished? || !w.end.Open?
  }

  lemma BridgedIff(env: Env, w: World)
    requires Calm(env) && StreamDone(w)
    ensures NeedsBridge(Streamed(env, w)) <==> GoesToBridge(w)
  {
    StreamHalts(env, w);
    StreamOffersScript(env, w);
    HandoffIsSwallowed(env, w);
    if FinishOf([], Cues(w.inputs)).Unfinished? && Streamed(env, w).halt == Going {
      StreamAllPlayed(env, Start(env), w.inputs, []);
      assert [] + Cues(w.inputs) == Cues(w.inputs);
    }
  }

  lemma EndedIff(env: Env, w: World)
    requires Calm(env)
    ensures (StreamOver(Streamed(env, w)) || !w.end.Open?) <==> StreamDone(w)
    ensures Ended(env, w) <==> StreamDone(w) && (NeedsBridge(Streamed(env, w)) ==> !EndsAs(Bridged(env, w), BridgeWaits))
  {
    StreamAllFinishes(env, w);
  }

  lemma ExitedIff(env: Env, w: World)
    ensures RunChat(env, w).exited <==> Ended(env, w)
  {
    if !Ended(env, w) { StillRunning(env, w); }
  }

  /** A run exits when its stream loop is over and, where it goes on to the bridge, that is too; until
      the loop is over nothing of the task's log is read. */
  lemma ExitsIff(env: Env, w: World)
    requires Calm(env)
    ensures var r := RunChat(env, w);
            && (StreamDone(w) ==> (NeedsBridge(Streamed(env, w)) <==> GoesToBridge(w)))
            && (r.exited <==>
                  StreamDone(w) && (GoesToBridge(w) ==> !BridgeEndingOf(w, Streamed(env, w).bridge.value.taskRunId).BridgeWaits?))
            && r.task == (if StreamDone(w) then Bridged(env, w) else Streamed(env, w)).task
            && r.out.offered == (if StreamDone(w) then Bridged(env, w) else Streamed(env, w)).out.offered
  {
    EndedIff(env, w);
    ExitedIff(env, w);
    if StreamDone(w) {
      BridgedIff(env, w);
      if GoesToBridge(w) { BridgeEnds(env, w); }
    }
  }
}
