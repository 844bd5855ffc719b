/**
 * What a task ends as, in terms of what the tool loop answered and the verifying model said
 * (application/employee_runtime/runtime.py, application/employee_runtime/verifier.py).
 */
module RuntimeVerdicts {
  import opened Wrappers
  import opened Text
  import opened Transcripts
  import opened Tasks
  import opened Worlds
  import opened Executor
  import opened Runtime
  import opened RuntimeRuns
  import opened RuntimeBudgets

  /** The tool loop finished with an answer that says something, and nobody cancelled. */
  predicate Answers(run: Ran) {
    run.end.Finished? && !run.end.outcome.cancelled && !Blank(run.end.outcome.answer)
  }

  /** The verifying model says yes. */
  predicate SaysYes(o: Opinion) {
    o.Opinion? && o.passed
  }

  /** There is a result, and it is not accepted: it says nothing, or the model says no or nothing that can be read. */
  predicate TurnedDown(run: Ran, o: Opinion) {
    && run.end.Finished? && !run.end.outcome.cancelled
    && (Blank(run.end.outcome.answer) || o.Unreadable? || (o.Opinion? && !o.passed))
  }

  /** What the next opening is told after that. */
  function WhatIsMissing(run: Ran, o: Opinion): seq<string>
    requires TurnedDown(run, o)
  {
    if Blank(run.end.outcome.answer) then ["any result at all"]
    else if o.Unreadable? then ["a second opinion"]
    else if o.missing != [] then o.missing
    else [o.reason]
  }

  /** The result of the task is what the execution ended with. */
  ghost predicate IsResultOf(result: Option<TaskResult>, run: Ran) {
    && run.end.Finished? && result.Some?
    && result.value.summary == run.end.outcome.answer && result.value.stoppedBy == run.end.outcome.stoppedBy
    && result.value.steps == run.end.outcome.transcript.steps
    && result.value.observations == run.end.outcome.transcript.observations
  }

  /** The status is RUNNING after the execution, so that the result can be checked. */
  ghost predicate CanBeChecked(task: Task, run: Ran) {
    task.status == RUNNING || Told(WAITING_FOR_APPROVAL) in run.acts
  }

  // ----- One execution -----

  lemma VerdictOnOpinion(s: Surroundings, k: nat, task: Task, state: RunState, run: Ran, result: TaskResult)
    requires run.end.Finished? && !run.end.outcome.cancelled && result == ResultOf(run.end.outcome)
    requires task.status == RUNNING
    ensures var moved, o := Verify(s, k, task, state, result).moved, s.opinion(k);
            if TurnedDown(run, o) then
              if state.attempt < MAX_ATTEMPTS && run.end.outcome.stoppedBy.None? then
                && moved.Moved? && moved.task.status == PLANNING
                && moved.state == state.(stage := STAGE_PLANNING, attempt := state.attempt + 1,
                                         feedback := WhatIsMissing(run, o))
              else
                && moved.Moved? && moved.task.status == FAILED && moved.state.stage == STAGE_DONE
                && moved.task.error == Some("VerificationFailed") && moved.task.attempts == task.attempts + 1
                && IsResultOf(moved.task.result, run)
            else if SaysYes(o) then
              && moved.Moved? && moved.task.status == COMPLETED && moved.state.stage == STAGE_DONE
              && IsResultOf(moved.task.result, run)
            else moved == Stopped(Crashed(o.error))
  {
  }

  /** An execution, whatever it did: it is cancelled, it completes the task, is sent back with what is missing, fails it,
      or stops - each exactly when the answer and the opinion met at this stage say so. */
  lemma ExecutionEnds(s: Surroundings, e: Employee, k: nat, task: Task, state: RunState)
    requires !IsTerminal(task.status) && state.stage == STAGE_EXECUTING
    ensures var run, o := Loop(e, s.world(k), state.transcript), s.opinion(k);
            var stage := OneStage(s, e, k, task, state); var moved := stage.moved;
            match run.end
            case Raised(error) => moved == Stopped(Crashed(error))
            case Finished(outcome) =>
              if outcome.cancelled then
                && moved.Moved? && moved.task.status == CANCELLED && moved.state.stage == STAGE_DONE
                && IsResultOf(moved.task.result, run)
              else if !CanBeChecked(task, run) then moved.Stopped? && moved.end.Illegal?
              else if TurnedDown(run, o) then
                if state.attempt < MAX_ATTEMPTS && outcome.stoppedBy.None? then
                  && moved.Moved? && moved.task.status == PLANNING && moved.state.stage == STAGE_PLANNING
                  && moved.state.attempt == state.attempt + 1 && moved.state.feedback == WhatIsMissing(run, o)
                else
                  && moved.Moved? && moved.task.status == FAILED && moved.state.stage == STAGE_DONE
                  && moved.task.error == Some("VerificationFailed") && IsResultOf(moved.task.result, run)
              else if SaysYes(o) then
                && moved.Moved? && moved.task.status == COMPLETED && moved.state.stage == STAGE_DONE
                && IsResultOf(moved.task.result, run)
              else moved == Stopped(Crashed(o.error))
  {
    hide Loop, KeepAll, Verify, WhatIsMissing, TurnedDown, SaysYes;
    var run := Loop(e, s.world(k), state.transcript);
    var start := Kept([Execution(run)], task, state);
    StatusAfterExecution(e, s.world(k), state.transcript, start);
    KeepingKeepsTheStage(start, run.acts);
    var kept := KeepAll(start, run.acts);
    if run.end.Finished? && !run.end.outcome.cancelled {
      var after := kept.state.(transcript := run.end.outcome.transcript, stage := STAGE_VERIFYING);
      if CanBeChecked(task, run) {
        VerdictOnOpinion(s, k, kept.task, after, run, ResultOf(run.end.outcome));
      } else {
        VerifyMoves(s, k, kept.task, after, ResultOf(run.end.outcome));
      }
    }
  }

  // ----- A whole run -----

  /** The stage of the `n`-th execution of a run that starts at stage `k`: an execution and a plan take turns. */
  function StageOf(k: nat, state: RunState, n: nat): nat
    requires n > 0 && state.stage != STAGE_DONE
  {
    k + Distance(state) - 1 + 2 * (n - 1)
  }

  /** The task ends as the last execution and the opinion on it say. */
  ghost predicate EndsAsJudged(s: Surroundings, k: nat, state: RunState, runs: seq<Ran>, end: RunEnd, status: TaskStatus)
    requires state.stage != STAGE_DONE
  {
    if runs == [] then !IsTerminal(status)
    else
      var run, o := runs[|runs| - 1], s.opinion(StageOf(k, state, |runs|));
      && (status == COMPLETED <==> !end.Illegal? && Answers(run) && SaysYes(o))
      && (status == CANCELLED <==> run.end.Finished? && run.end.outcome.cancelled)
      && (status == FAILED <==>
            && !end.Illegal? && TurnedDown(run, o)
            && (run.end.outcome.stoppedBy.Some? || |runs| > SendBacksLeft(state)))
      && (!end.Illegal? && Answers(run) && o.NoOpinion? ==> end == Crashed(o.error))
      && (run.end.Raised? ==> end == Crashed(run.end.error))
  }

  lemma NotExecuting(s: Surroundings, e: Employee, k: nat, task: Task, state: RunState)
    requires !IsTerminal(task.status) && state.stage != STAGE_DONE && state.stage != STAGE_EXECUTING
    ensures var stage := OneStage(s, e, k, task, state);
            && Runs(stage.log) == []
            && (stage.moved.Moved? ==>
                  && stage.moved.state.stage != STAGE_DONE && !IsTerminal(stage.moved.task.status)
                  && SendBacksLeft(stage.moved.state) == SendBacksLeft(state)
                  && Distance(stage.moved.state) == Distance(state) - 1)
            && (stage.moved.Stopped? ==> !IsTerminal(StatusAfter(task.status, stage.log)))
  {
    hide Runs, StatusAfter, Loop, Follows;
    StageIsDecided(s, e, k, task, state);
    var end := StageKeeps(s, e, k, task, state);
    FollowsToStatusAfter(task.status, OneStage(s, e, k, task, state).log, end);
  }

  /** What the last execution comes to when nothing is executed after it. */
  lemma LastExecutionJudged(
      s: Surroundings, e: Employee, k: nat, task: Task, state: RunState, end: RunEnd, status: TaskStatus)
    requires !IsTerminal(task.status) && state.stage == STAGE_EXECUTING
    requires var moved := OneStage(s, e, k, task, state).moved;
             if moved.Stopped? then end == moved.end && !IsTerminal(status)
             else if moved.state.stage == STAGE_DONE then !end.Illegal? && status == moved.task.status
             else !end.Illegal? && !IsTerminal(status)
    ensures EndsAsJudged(s, k, state, [Loop(e, s.world(k), state.transcript)], end, status)
  {
    hide OneStage, Loop, WhatIsMissing;
    ExecutionEnds(s, e, k, task, state);
  }

  lemma JudgedLater(
      s: Surroundings, k: nat, state: RunState, before: seq<Ran>, later: RunState, runs: seq<Ran>, end: RunEnd,
      status: TaskStatus)
    requires state.stage != STAGE_DONE && later.stage != STAGE_DONE && runs != []
    requires EndsAsJudged(s, k + 1, later, runs, end, status)
    requires if before == [] then SendBacksLeft(later) == SendBacksLeft(state) && Distance(later) == Distance(state) - 1
             else
               && |before| == 1 && SendBacksLeft(later) == SendBacksLeft(state) - 1
               && Distance(state) == 1 && Distance(later) == 2
    ensures EndsAsJudged(s, k, state, before + runs, end, status)
  {
    assert StageOf(k + 1, later, |runs|) == StageOf(k, state, |before + runs|);
    assert (before + runs)[|before + runs| - 1] == runs[|runs| - 1];
  }

  /** Over every run of an unfinished task, retry included: it completes if and only if its last execution answered, said
      something, and the model asked about that answer said yes; it is cancelled if and only if that execution was; it
      fails if and only if the result was turned down - also for an opinion that cannot be read - and a budget had
      stopped it or no send-back was left; and whatever the execution or the model raises ends the run. The only other
      way is a result that could not be checked, and nothing is decided then. */
  lemma {:induction false} RunsEndAsJudged(s: Surroundings, e: Employee, k: nat, task: Task, state: RunState)
    requires state.stage != STAGE_DONE && !IsTerminal(task.status)
    ensures var r := Stages(s, e, k, task, state);
            EndsAsJudged(s, k, state, Runs(r.log), r.end, StatusAfter(task.status, r.log))
    decreases SendBacksLeft(state), Distance(state)
  {
    hide OneStage, Stages, Runs, StatusAfter, Loop, EndsAsJudged, Follows;
    var r, stage := Stages(s, e, k, task, state), OneStage(s, e, k, task, state);
    StagesStep(s, e, k, task, state);
    StageIsDecided(s, e, k, task, state);
    if stage.moved.Stopped? {
      var end := StageKeeps(s, e, k, task, state);
      FollowsToStatusAfter(task.status, stage.log, end);
      if state.stage == STAGE_EXECUTING {
        LastExecutionJudged(s, e, k, task, state, r.end, StatusAfter(task.status, r.log));
      } else {
        NotExecuting(s, e, k, task, state);
        NothingJudged(s, k, state, r.end, StatusAfter(task.status, r.log));
      }
    } else {
      StagesEnd(s, e, k, task, state);
      JudgedFromHere(s, e, k, task, state);
    }
  }

  lemma NothingJudged(s: Surroundings, k: nat, state: RunState, end: RunEnd, status: TaskStatus)
    requires state.stage != STAGE_DONE && !IsTerminal(status)
    ensures EndsAsJudged(s, k, state, [], end, status)
  {
  }

  lemma JudgedFromHere(s: Surroundings, e: Employee, k: nat, task: Task, state: RunState)
    requires state.stage != STAGE_DONE && !IsTerminal(task.status)
    requires OneStage(s, e, k, task, state).moved.Moved?
    ensures var r := Stages(s, e, k, task, state);
            EndsAsJudged(s, k, state, Runs(r.log), r.end, StatusAfter(task.status, r.log))
    decreases SendBacksLeft(state), Distance(state), 0
  {
    hide OneStage, Stages, Runs, StatusAfter, Loop, EndsAsJudged, Follows, WhatIsMissing;
    var r, stage := Stages(s, e, k, task, state), OneStage(s, e, k, task, state);
    var later, run := stage.moved.state, Loop(e, s.world(k), state.transcript);
    StagesStep(s, e, k, task, state);
    StagesEnd(s, e, k, task, state);
    StageIsDecided(s, e, k, task, state);
    var rest := Stages(s, e, k + 1, stage.moved.task, later);
    LogsAppend(task.status, stage.log, rest.log);
    if state.stage == STAGE_EXECUTING {
      ExecutionEnds(s, e, k, task, state);
    } else {
      NotExecuting(s, e, k, task, state);
    }
    if later.stage == STAGE_DONE {
      StagesDone(s, e, k + 1, stage.moved.task, later);
      NoEntries(stage.moved.task.status);
      assert Runs(stage.log) + [] == Runs(stage.log);
      LastExecutionJudged(s, e, k, task, state, r.end, StatusAfter(task.status, r.log));
    } else {
      RunsEndAsJudged(s, e, k + 1, stage.moved.task, later);
      if Runs(rest.log) != [] {
        JudgedLater(s, k, state, Runs(stage.log), later, Runs(rest.log), r.end, StatusAfter(task.status, r.log));
      } else {
        NobodyJudged(s, k + 1, later, r.end, StatusAfter(task.status, r.log));
        assert Runs(stage.log) + [] == Runs(stage.log);
        if state.stage == STAGE_EXECUTING {
          IllegalIffBlocked(s, e, k + 1, stage.moved.task, later);
          LastExecutionJudged(s, e, k, task, state, r.end, StatusAfter(task.status, r.log));
        } else {
          NothingJudged(s, k, state, r.end, StatusAfter(task.status, r.log));
        }
      }
    }
  }

  lemma NobodyJudged(s: Surroundings, k: nat, state: RunState, end: RunEnd, status: TaskStatus)
    requires state.stage != STAGE_DONE && EndsAsJudged(s, k, state, [], end, status)
    ensures !IsTerminal(status)
  {
  }

  lemma JudgedAtFirst(s: Surroundings, state: RunState, runs: seq<Ran>, end: RunEnd, status: TaskStatus)
    requires state.stage == STAGE_PLANNING && state.attempt == 1
    requires EndsAsJudged(s, 0, state, runs, end, status) && !end.Illegal? && |runs| <= 2
    ensures runs == [] ==> !IsTerminal(status)
    ensures runs != [] ==>
              var run, o := runs[|runs| - 1], s.opinion(2 * |runs| - 1);
              && (status == COMPLETED <==> Answers(run) && SaysYes(o))
              && (status == CANCELLED <==> run.end.Finished? && run.end.outcome.cancelled)
              && (status == FAILED <==>
                    TurnedDown(run, o) && (run.end.outcome.stoppedBy.Some? || |runs| == 2))
  {
    hide Answers, TurnedDown, SaysYes;
  }

  /** A new task: its executions are at the stages 1 and 3, nothing is ever refused to it, and so it completes if and only
      if its last execution answered with something and the model said yes to that. */
  lemma NewTasksEndAsJudged(s: Surroundings, e: Employee)
    ensures var r := Session(s, e, NEW_TASK); var runs, status := Runs(r.log), StatusAfter(CREATED, r.log);
            && !r.end.Illegal? && |runs| <= 2
            && (runs == [] ==> !IsTerminal(status))
            && (runs != [] ==>
                  var run, o := runs[|runs| - 1], s.opinion(2 * |runs| - 1);
                  && (status == COMPLETED <==> Answers(run) && SaysYes(o))
                  && (status == CANCELLED <==> run.end.Finished? && run.end.outcome.cancelled)
                  && (status == FAILED <==>
                        TurnedDown(run, o) && (run.end.outcome.stoppedBy.Some? || |runs| == 2)))
  {
    hide Stages, Loop, Runs, StatusAfter, LoadRunState, Rulings, WellJudged, EndsAsJudged, Answers, TurnedDown, SaysYes;
    NothingSavedIsAFreshRun();
    var state := RunState(STAGE_PLANNING, EMPTY_TRANSCRIPT, 1, []);
    IllegalIffBlocked(s, e, 0, NEW_TASK, state);
    RunIsDecided(s, e, 0, NEW_TASK, state);
    RunsEndAsJudged(s, e, 0, NEW_TASK, state);
    JudgedAtFirst(s, state, Runs(Session(s, e, NEW_TASK).log), Session(s, e, NEW_TASK).end,
                  StatusAfter(CREATED, Session(s, e, NEW_TASK).log));
  }
}
