/**
 * What every run of a task keeps (application/employee_runtime/runtime.py): legal moves, one end, verdicts before
 * completion, a bounded number of executions, budgets, and which rows a killed process can leave behind.
 */
module RuntimeRuns {
  import opened Wrappers
  import opened Transcripts
  import opened Tasks
  import opened Worlds
  import opened Approvals
  import opened Executor
  import opened ExecutorRuns
  import opened Runtime

  // ----- Rows follow one another -----

  function Events(log: seq<Entry>): seq<TaskEvent> {
    if log == [] then []
    else
      var last := log[|log| - 1];
      Events(log[..|log| - 1]) + if last.Row? && last.event.Some? then [last.event.value] else []
  }

  /** Every row has the status of the row before it, or comes with the legal event that leads there. */
  ghost predicate Follows(start: TaskStatus, log: seq<Entry>, end: TaskStatus)
    decreases |log|
  {
    if log == [] then start == end
    else
      var before := log[..|log| - 1];
      match log[|log| - 1]
      case Row(task, None) => task.status == end && Follows(start, before, end)
      case Row(task, Some(event)) =>
        event.to == end == task.status && CanTransition(event.from, end) && Follows(start, before, event.from)
      case _ => Follows(start, before, end)
  }

  lemma {:induction false} FollowsAppend(
      a: TaskStatus, first: seq<Entry>, b: TaskStatus, second: seq<Entry>, c: TaskStatus)
    requires Follows(a, first, b) && Follows(b, second, c)
    ensures Follows(a, first + second, c)
    decreases |second|
  {
    if second == [] {
      assert first + second == first;
    } else {
      var n := |second| - 1;
      assert (first + second)[..|first + second| - 1] == first + second[..n] && (first + second)[|first| + n] == second[n];
      match second[n] {
        case Row(task, Some(event)) => FollowsAppend(a, first, b, second[..n], event.from);
        case _ => FollowsAppend(a, first, b, second[..n], c);
      }
    }
  }

  lemma {:induction false} FollowsIsPath(start: TaskStatus, log: seq<Entry>, end: TaskStatus)
    requires Follows(start, log, end)
    ensures IsPath(start, Events(log), end)
    decreases |log|
  {
    if log == [] {
    } else {
      var before := log[..|log| - 1];
      match log[|log| - 1] {
        case Row(task, Some(event)) =>
          FollowsIsPath(start, before, event.from);
          assert [event][1..] == [];
          PathAppend(start, Events(before), event.from, [event], end);
        case _ =>
          FollowsIsPath(start, before, end);
          assert Events(log) == Events(before);
      }
    }
  }

  lemma OneRowFollows(task: Task, event: TaskEvent)
    requires CanTransition(event.from, event.to) && task.status == event.to
    ensures Follows(event.from, [Row(task, Some(event))], event.to)
  {
    assert [Row(task, Some(event))][..0] == [];
  }

  lemma NothingFollows(entry: Entry, status: TaskStatus)
    requires !entry.Row?
    ensures Follows(status, [entry], status)
  {
    assert [entry][..0] == [];
  }

  lemma EnterFollows(from: TaskStatus, to: TaskStatus, changed: Task, state: RunState)
    ensures var stage := Enter(from, to, changed, state);
            && (stage.moved.Moved? ==> stage.moved.task.status == to && Follows(from, stage.log, to))
            && (stage.moved.Stopped? ==> stage.log == [] && stage.moved.end == Illegal(TaskEvent(from, to)))
            && (stage.moved.Moved? <==> CanTransition(from, to))
  {
    if CanTransition(from, to) {
      OneRowFollows(changed.(status := to), TaskEvent(from, to));
    }
  }

  lemma {:induction false} KeepFollows(start: TaskStatus, kept: Kept, acts: seq<Act>)
    requires Follows(start, kept.log, kept.task.status)
    ensures var after := KeepAll(kept, acts); Follows(start, after.log, after.task.status)
  {
    if acts == [] {
    } else {
      var n := |acts| - 1;
      KeepFollows(start, kept, acts[..n]);
      var before, after := KeepAll(kept, acts[..n]), KeepAll(kept, acts);
      if after.log != before.log {
        assert after.log[..|after.log| - 1] == before.log;
      }
    }
  }

  /** What a stage leaves behind, and where it stops. */
  ghost predicate Keeps(start: TaskStatus, stage: Stage, end: TaskStatus) {
    && Follows(start, stage.log, end)
    && match stage.moved
       case Moved(task, _) => end == task.status
       case Stopped(why) =>
         && (why.Illegal? ==> why.move.from == end && !CanTransition(end, why.move.to))
         && (!IsTerminal(start) ==> !IsTerminal(end))
  }

  lemma EnterKeeps(from: TaskStatus, to: TaskStatus, changed: Task, state: RunState) returns (end: TaskStatus)
    ensures Keeps(from, Enter(from, to, changed, state), end)
  {
    EnterFollows(from, to, changed, state);
    end := if CanTransition(from, to) then to else from;
  }

  lemma OpenKeeps(s: Surroundings, k: nat, task: Task, state: RunState) returns (end: TaskStatus)
    ensures Keeps(task.status, Open(s, k, task, state), end)
  {
    hide Follows;
    assert Follows(task.status, [], task.status) by { EmptyFollows(task.status); }
    var planning := s.plan(k);
    if planning.PlannerFailed? {
      return task.status;
    }
    var plan := if planning.Planned? then Some(planning.plan) else None;
    var begun := state.(stage := STAGE_EXECUTING, transcript := OpeningTranscript(s, k, plan, state));
    end := EnterKeeps(task.status, RUNNING, task.(step := 0, state := SaveRunState(begun)), begun);
  }

  lemma EmptyFollows(status: TaskStatus)
    ensures Follows(status, [], status)
  {
  }

  lemma VerifyKeeps(s: Surroundings, k: nat, task: Task, state: RunState, result: TaskResult) returns (end: TaskStatus)
    ensures Keeps(task.status, Verify(s, k, task, state, result), end)
  {
    hide Follows, Judge, Enter;
    var entered := Enter(task.status, VERIFYING, task, state);
    EnterFollows(task.status, VERIFYING, task, state);
    if entered.moved.Stopped? {
      end := EnterKeeps(task.status, VERIFYING, task, state);
      return;
    }
    var verdict := Judge(result, s.opinion(k));
    var ruling := Ruling(result.summary, verdict);
    NothingFollows(ruling, VERIFYING);
    FollowsAppend(task.status, entered.log, VERIFYING, [ruling], VERIFYING);
    end := FollowKeeps(entered.moved.task, state, result, verdict);
    FollowsAppend(task.status, entered.log + [ruling], VERIFYING,
                  Follow(entered.moved.task, state, result, verdict).log, end);
  }

  lemma FollowKeeps(task: Task, state: RunState, result: TaskResult, verdict: Verdict) returns (end: TaskStatus)
    ensures Keeps(task.status, Follow(task, state, result, verdict), end)
  {
    hide Follows, Enter;
    match verdict
    case NoVerdict(_) =>
      EmptyFollows(task.status);
      end := task.status;
    case Passed =>
      end := EnterKeeps(task.status, COMPLETED, task.(result := Some(result)), state.(stage := STAGE_DONE));
    case Rejected(reason, missing) =>
      if state.attempt < MAX_ATTEMPTS && result.stoppedBy.None? {
        end := EnterKeeps(task.status, PLANNING, task,
                          state.(stage := STAGE_PLANNING, attempt := state.attempt + 1,
                                 feedback := if missing != [] then missing else [reason]));
      } else {
        end := EnterKeeps(task.status, FAILED,
                          task.(error := Some("VerificationFailed"), result := Some(result),
                                attempts := task.attempts + 1),
                          state.(stage := STAGE_DONE));
      }
  }

  lemma ExecuteKeeps(s: Surroundings, e: Employee, k: nat, task: Task, state: RunState) returns (end: TaskStatus)
    ensures Keeps(task.status, Execute(s, e, k, task, state), end)
  {
    hide Follows, Loop, Verify, KeepAll, Cancel;
    var run := Loop(e, s.world(k), state.transcript);
    NothingFollows(Execution(run), task.status);
    var start := Kept([Execution(run)], task, state);
    KeepFollows(task.status, start, run.acts);
    StatusAfterExecution(e, s.world(k), state.transcript, start);
    var kept := KeepAll(start, run.acts);
    match run.end
    case Raised(_) => end := kept.task.status;
    case Finished(outcome) =>
      var after := kept.state.(transcript := outcome.transcript, stage := STAGE_VERIFYING);
      if outcome.cancelled {
        end := CancelKeeps(kept.task, after, ResultOf(outcome));
        FollowsAppend(task.status, kept.log, kept.task.status, Cancel(kept.task, after, ResultOf(outcome)).log, end);
      } else {
        end := VerifyKeeps(s, k, kept.task, after, ResultOf(outcome));
        FollowsAppend(task.status, kept.log, kept.task.status, Verify(s, k, kept.task, after, ResultOf(outcome)).log, end);
      }
  }

  lemma CancelKeeps(task: Task, state: RunState, result: TaskResult) returns (end: TaskStatus)
    ensures Keeps(task.status, Cancel(task, state, result), end)
  {
    end := EnterKeeps(task.status, CANCELLED, task.(result := Some(result)), state.(stage := STAGE_DONE));
  }

  lemma StageKeeps(s: Surroundings, e: Employee, k: nat, task: Task, state: RunState) returns (end: TaskStatus)
    ensures Keeps(task.status, OneStage(s, e, k, task, state), end)
  {
    hide Follows, Execute, Open;
    if state.stage == STAGE_PLANNING {
      if task.status == PLANNING {
        end := OpenKeeps(s, k, task, state);
      } else {
        var entered := Enter(task.status, PLANNING, task, state);
        EnterFollows(task.status, PLANNING, task, state);
        EmptyFollows(task.status);
        if entered.moved.Stopped? {
          end := task.status;
        } else {
          end := OpenKeeps(s, k, entered.moved.task, state);
          FollowsAppend(task.status, entered.log, PLANNING, Open(s, k, entered.moved.task, state).log, end);
        }
      }
    } else if state.stage == STAGE_EXECUTING {
      end := ExecuteKeeps(s, e, k, task, state);
    } else {
      EmptyFollows(task.status);
      end := task.status;
    }
  }

  /** Whatever state a run starts from, the rows it saves are a path of allowed transitions from there; and when it
      stops at an illegal move, that move starts where the path ends and is not in the table. */
  lemma {:induction false} RowsAreAPath(s: Surroundings, e: Employee, k: nat, task: Task, state: RunState)
    returns (end: TaskStatus)
    ensures var r := Stages(s, e, k, task, state);
            && Follows(task.status, r.log, end)
            && IsPath(task.status, Events(r.log), end)
            && (r.end.Illegal? ==> r.end.move.from == end && !CanTransition(end, r.end.move.to))
    decreases SendBacksLeft(state), Distance(state)
  {
    hide Follows, OneStage, Stages, IsPath;
    if state.stage == STAGE_DONE {
      StagesDone(s, e, k, task, state);
      EmptyFollows(task.status);
      end := task.status;
    } else {
      StagesStep(s, e, k, task, state);
      end := StageKeeps(s, e, k, task, state);
      var stage := OneStage(s, e, k, task, state);
      if stage.moved.Moved? {
        StagesEnd(s, e, k, task, state);
        var middle := end;
        end := RowsAreAPath(s, e, k + 1, stage.moved.task, stage.moved.state);
        FollowsAppend(task.status, stage.log, middle, Stages(s, e, k + 1, stage.moved.task, stage.moved.state).log, end);
      }
    }
    FollowsIsPath(task.status, Stages(s, e, k, task, state).log, end);
  }

  // ----- The status after an execution -----

  function LastTold(acts: seq<Act>): Option<TaskStatus> {
    if acts == [] then None
    else if acts[|acts| - 1].Told? then Some(acts[|acts| - 1].status)
    else LastTold(acts[..|acts| - 1])
  }

  lemma {:induction false} LastToldIsLast(acts: seq<Act>) returns (k: nat)
    ensures LastTold(acts).Some? ==>
              k < |acts| && acts[k] == Told(LastTold(acts).value) && forall j :: k < j < |acts| ==> !acts[j].Told?
    ensures LastTold(acts).None? ==> forall j :: 0 <= j < |acts| ==> !acts[j].Told?
  {
    k := 0;
    if acts == [] {
    } else {
      var n := |acts| - 1;
      if acts[n].Told? {
        k := n;
      } else {
        k := LastToldIsLast(acts[..n]);
      }
    }
  }

  ghost predicate OnlyGateTells(acts: seq<Act>) {
    forall k :: 0 <= k < |acts| && acts[k].Told? ==> acts[k].status in {WAITING_FOR_APPROVAL, RUNNING}
  }

  /** The last status told is RUNNING, and one is told exactly when somebody was asked. */
  lemma QuestionsEndRunning(acts: seq<Act>)
    requires Orderly(acts)
    ensures OnlyGateTells(acts)
    ensures LastTold(acts) == if Told(WAITING_FOR_APPROVAL) in acts then Some(RUNNING) else None
  {
    forall k: nat | k < |acts| ensures OnlyGateStatuses(acts, k) && QuestionsAreClosed(acts, k) {}
    assert forall k: nat :: k < |acts| && acts[k].Told? ==> OnlyGateStatuses(acts, k);
    var k := LastToldIsLast(acts);
    if LastTold(acts).Some? {
      assert OnlyGateStatuses(acts, k) && QuestionsAreClosed(acts, k);
      assert acts[k].status == RUNNING;
      assert Told(WAITING_FOR_APPROVAL) == acts[k - 1] || Told(WAITING_FOR_APPROVAL) == acts[k - 2];
    }
  }

  lemma {:induction false} KeptStatus(kept: Kept, acts: seq<Act>)
    requires OnlyGateTells(acts)
    ensures IsTerminal(kept.task.status) || LastTold(acts).None? ==>
              KeepAll(kept, acts).task.status == kept.task.status || LastTold(acts).Some?
    ensures IsTerminal(kept.task.status) ==> KeepAll(kept, acts).task.status == kept.task.status
    ensures !IsTerminal(kept.task.status) ==> !IsTerminal(KeepAll(kept, acts).task.status)
    ensures !IsTerminal(kept.task.status) && LastTold(acts) == Some(RUNNING) ==>
              KeepAll(kept, acts).task.status == RUNNING
  {
    if acts == [] {
    } else {
      KeptStatus(kept, acts[..|acts| - 1]);
    }
  }

  /** An execution leaves the status as it found it, unless it asked somebody: then the task is running. */
  lemma StatusAfterExecution(e: Employee, w: World, t: Transcript, kept: Kept)
    ensures var acts := Loop(e, w, t).acts; var before := kept.task.status;
            && OnlyGateTells(acts)
            && KeepAll(kept, acts).task.status ==
               if !IsTerminal(before) && Told(WAITING_FOR_APPROVAL) in acts then RUNNING else before
  {
    hide Loop, Orderly, OnlyGateTells;
    var acts := Loop(e, w, t).acts;
    RunIsOrderly(e, w, t);
    QuestionsEndRunning(acts);
    KeptStatus(kept, acts);
  }

  // ----- Which states a run can be taken up from -----

  /** The tool loop finishes of its own accord without having asked anybody. */
  ghost predicate FinishesUnasked(run: Ran) {
    run.end.Finished? && !run.end.outcome.cancelled && Told(WAITING_FOR_APPROVAL) !in run.acts
  }

  /** The first move that is not one of the gate's is not in the table. */
  ghost predicate Blocked(s: Surroundings, e: Employee, k: nat, task: Task, state: RunState) {
    if state.stage == STAGE_DONE then false
    else if state.stage == STAGE_EXECUTING then
      var run := Loop(e, s.world(k), state.transcript);
      if IsTerminal(task.status) then run.end.Finished? else task.status != RUNNING && FinishesUnasked(run)
    else task.status != PLANNING && !CanTransition(task.status, PLANNING)
  }

  predicate Known(state: RunState) {
    state.stage == STAGE_PLANNING || state.stage == STAGE_EXECUTING
  }

  lemma VerifyMoves(s: Surroundings, k: nat, task: Task, state: RunState, result: TaskResult)
    ensures var moved := Verify(s, k, task, state, result).moved;
            && ((moved.Stopped? && moved.end.Illegal?) <==> task.status != RUNNING)
            && (moved.Stopped? ==> !moved.end.Returned?)
            && (moved.Moved? ==>
                  || (moved.state.stage == STAGE_DONE && moved.task.status in {COMPLETED, FAILED})
                  || (moved.state.stage == STAGE_PLANNING && moved.task.status == PLANNING))
  {
    hide Judge;
  }

  /** A stage stops at an illegal move exactly when the run is blocked; otherwise it moves on to a state from which the
      next stage is not blocked, or to an end. */
  lemma StageMoves(s: Surroundings, e: Employee, k: nat, task: Task, state: RunState)
    requires state.stage != STAGE_DONE
    ensures var moved := OneStage(s, e, k, task, state).moved;
            && ((moved.Stopped? && moved.end.Illegal?) ==> Blocked(s, e, k, task, state))
            && (moved.Stopped? ==> !moved.end.Returned?)
            && if Known(state) then
                 && (Blocked(s, e, k, task, state) ==> moved.Stopped? && moved.end.Illegal?)
                 && (moved.Moved? ==>
                       || (moved.state.stage == STAGE_DONE && IsTerminal(moved.task.status))
                       || (moved.state.stage == STAGE_PLANNING && moved.task.status == PLANNING)
                       || (moved.state.stage == STAGE_EXECUTING && moved.task.status == RUNNING))
               else moved.Moved? && moved.state.stage == STAGE_PLANNING && moved.task == task
  {
    hide Loop, Verify, KeepAll;
    if state.stage == STAGE_EXECUTING {
      var run := Loop(e, s.world(k), state.transcript);
      var start := Kept([Execution(run)], task, state);
      StatusAfterExecution(e, s.world(k), state.transcript, start);
      var kept := KeepAll(start, run.acts);
      if run.end.Finished? {
        VerifyMoves(s, k, kept.task, kept.state.(transcript := run.end.outcome.transcript, stage := STAGE_VERIFYING),
                    ResultOf(run.end.outcome));
      }
    }
  }

  /** A run makes an illegal move if and only if it is blocked where it starts: its state says EXECUTING, its status is
      not RUNNING, and the tool loop finishes uncancelled without asking anybody; or its state says anything else and
      its status neither is nor can become PLANNING; or it had ended before. */
  lemma {:induction false} IllegalIffBlocked(s: Surroundings, e: Employee, k: nat, task: Task, state: RunState)
    ensures Stages(s, e, k, task, state).end.Illegal? <==> Blocked(s, e, k, task, state)
    decreases SendBacksLeft(state), Distance(state)
  {
    hide OneStage, Stages, Loop;
    if state.stage == STAGE_DONE {
      StagesDone(s, e, k, task, state);
    } else {
      StagesStep(s, e, k, task, state);
      StageMoves(s, e, k, task, state);
      var moved := OneStage(s, e, k, task, state).moved;
      if moved.Moved? {
        StagesEnd(s, e, k, task, state);
        IllegalIffBlocked(s, e, k + 1, moved.task, moved.state);
      }
    }
  }

  // ----- One terminal event, at the end -----

  lemma {:induction false} LastEventEnds(start: TaskStatus, events: seq<TaskEvent>, end: TaskStatus)
    requires IsPath(start, events, end)
    ensures if events == [] then start == end else events[|events| - 1].to == end
    decreases |events|
  {
    if |events| > 1 {
      LastEventEnds(events[0].to, events[1..], end);
    }
  }

  /** A run that starts unfinished returns exactly when its rows end in a terminal status; the terminal event is then
      the last of its events and the only one. A run that stops for any other reason leaves the task unfinished. */
  lemma {:induction false} ReturnsIffTerminal(
      s: Surroundings, e: Employee, k: nat, task: Task, state: RunState) returns (end: TaskStatus)
    requires if state.stage == STAGE_DONE then IsTerminal(task.status) else !IsTerminal(task.status)
    ensures var r := Stages(s, e, k, task, state); var events := Events(r.log);
            && Follows(task.status, r.log, end)
            && (r.end.Returned? <==> IsTerminal(end))
            && (state.stage != STAGE_DONE && r.end.Returned? ==>
                  events != [] && events[|events| - 1].to == end
                  && forall j: nat :: j < |events| && IsTerminal(events[j].to) ==> j == |events| - 1)
    decreases SendBacksLeft(state), Distance(state)
  {
    hide Follows, OneStage, Stages, IsPath, Loop, Blocked;
    var r := Stages(s, e, k, task, state);
    if state.stage == STAGE_DONE {
      StagesDone(s, e, k, task, state);
      EmptyFollows(task.status);
      end := task.status;
    } else {
      StagesStep(s, e, k, task, state);
      end := StageKeeps(s, e, k, task, state);
      StageMoves(s, e, k, task, state);
      var stage := OneStage(s, e, k, task, state);
      if stage.moved.Moved? {
        StagesEnd(s, e, k, task, state);
        var middle := end;
        end := ReturnsIffTerminal(s, e, k + 1, stage.moved.task, stage.moved.state);
        FollowsAppend(task.status, stage.log, middle, Stages(s, e, k + 1, stage.moved.task, stage.moved.state).log, end);
      }
      FollowsIsPath(task.status, r.log, end);
      LastEventEnds(task.status, Events(r.log), end);
      forall j: nat | j < |Events(r.log)| && IsTerminal(Events(r.log)[j].to) ensures j == |Events(r.log)| - 1 {
        TerminalEventIsLast(task.status, Events(r.log), end, j);
      }
    }
  }
}
