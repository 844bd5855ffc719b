/**
 * What a failed task says, and who reads it (application/task_runner.py, application/employee_runtime/runtime.py,
 * application/prometheus/supervisor.py): failures are counted once, and the supervisor understands the runner.
 */
module TaskFailures {
  import opened Wrappers
  import opened Transcripts
  import opened Tasks
  import opened Worlds
  import opened Executor
  import opened Runtime
  import opened RuntimeRuns
  import opened RuntimeBudgets
  import opened RuntimeCrashes
  import opened TaskRunner
  import opened Supervisor

  // ----- Failures are counted -----

  /** A failed task has an error and one failure more; any other has the error and the count it had. */
  predicate Counted(before: Task, after: Task) {
    if after.status == FAILED then after.attempts == before.attempts + 1 && after.error.Some?
    else after.attempts == before.attempts && after.error == before.error
  }

  predicate SameFailures(before: Task, after: Task) {
    after.attempts == before.attempts && after.error == before.error
  }

  ghost predicate NoFailureIn(log: seq<Entry>, before: Task) {
    forall k :: 0 <= k < |log| && log[k].Row? ==> SameFailures(before, log[k].task)
  }

  lemma {:induction false} KeepingFailsNothing(kept: Kept, acts: seq<Act>, before: Task)
    requires NoFailureIn(kept.log, before) && SameFailures(before, kept.task)
    ensures NoFailureIn(KeepAll(kept, acts).log, before) && SameFailures(before, KeepAll(kept, acts).task)
  {
    hide SaveRunState;
    if acts == [] {
    } else {
      KeepingFailsNothing(kept, acts[..|acts| - 1], before);
    }
  }

  /** A stage that stops has not counted anything; one that moves on has counted its own failure. */
  lemma StageCounts(s: Surroundings, e: Employee, k: nat, task: Task, state: RunState)
    requires state.stage != STAGE_DONE && !IsTerminal(task.status)
    ensures var stage := OneStage(s, e, k, task, state);
            && (stage.moved.Stopped? ==> NoFailureIn(stage.log, task))
            && (stage.moved.Moved? ==>
                  && Counted(task, stage.moved.task)
                  && (stage.moved.task.status == FAILED ==> stage.moved.state.stage == STAGE_DONE))
  {
    hide Loop, KeepAll, Judge, SaveRunState;
    if state.stage == STAGE_EXECUTING {
      var run := Loop(e, s.world(k), state.transcript);
      KeepingFailsNothing(Kept([Execution(run)], task, state), run.acts, task);
      StatusAfterExecution(e, s.world(k), state.transcript, Kept([Execution(run)], task, state));
    }
  }

  lemma {:induction false} NothingFailed(task: Task, log: seq<Entry>)
    requires NoFailureIn(log, task)
    ensures SameFailures(task, LastRow(task, log))
  {
    if log != [] && !log[|log| - 1].Row? {
      NothingFailed(task, log[..|log| - 1]);
    }
  }

  lemma {:induction false} StagesCount(s: Surroundings, e: Employee, k: nat, task: Task, state: RunState)
    requires state.stage != STAGE_DONE && !IsTerminal(task.status)
    ensures Counted(task, LastRow(task, Stages(s, e, k, task, state).log))
    decreases SendBacksLeft(state), Distance(state)
  {
    hide OneStage, Stages, LastRow, Loop, Follows, StatusAfter, Blocked;
    StagesStep(s, e, k, task, state);
    StageCounts(s, e, k, task, state);
    StageMoves(s, e, k, task, state);
    StageSavesTheTask(s, e, k, task, state);
    var stage := OneStage(s, e, k, task, state);
    if stage.moved.Stopped? {
      NothingFailed(task, stage.log);
      var end := StageKeeps(s, e, k, task, state);
      FollowsToStatusAfter(task.status, stage.log, end);
      RowStatus(task, stage.log);
    } else {
      StagesEnd(s, e, k, task, state);
      var task', state' := stage.moved.task, stage.moved.state;
      LastRowAppend(task, stage.log, Stages(s, e, k + 1, task', state').log);
      if state'.stage == STAGE_DONE {
        StagesDone(s, e, k + 1, task', state');
        NoRows(task');
      } else {
        assert !IsTerminal(task'.status);
        StagesCount(s, e, k + 1, task', state');
      }
    }
  }

  lemma TryCounts(outside: Try, task: Task)
    requires !IsTerminal(task.status) && SavedStage(task) != STAGE_DONE
    ensures Counted(task, LastRow(task, RunOnce(outside, task).log))
  {
    hide Stages, LastRow, LoadRunState;
    NoRows(task);
    if outside.Assembled? && Readable(task) {
      LoadedStage(task);
      StagesCount(outside.surroundings, outside.employee, 0, task, LoadRunState(task.state).value);
    }
  }

  lemma MarkCounts(stored: Task, error: Exception)
    requires !IsTerminal(stored.status)
    ensures Counted(stored, LastRow(stored, MarkFailed(stored, error)))
    ensures LastRow(stored, MarkFailed(stored, error)).status == FAILED
    ensures LastRow(stored, MarkFailed(stored, error)).result == stored.result
  {
    EveryUnfinishedTaskCanEnd(stored.status);
    assert MarkFailed(stored, error)[..0] == [];
  }

  /** Over all the tries of one run: the count of failures goes up by one, and an error is written, exactly when the task
      ends as FAILED - by a verdict or by an exception, however many tries raised one. */
  lemma {:induction false} FailuresAreCountedOnce(outside: nat -> Try, maxAttempts: int, attempt: nat, task: Task)
    requires !IsTerminal(task.status) && SavedStage(task) != STAGE_DONE
    ensures Counted(task, LastRow(task, RunFrom(outside, maxAttempts, attempt, task).log))
    decreases maxAttempts - attempt
  {
    hide RunFrom, RunOnce, LastRow, MarkFailed, SavedStage, Follows, IsRetryable;
    RunFromStep(outside, maxAttempts, attempt, task);
    var once := RunOnce(outside(attempt), task);
    var stored, error := LastRow(task, once.log), ErrorOf(once.end);
    TryCounts(outside(attempt), task);
    TryFollows(outside(attempt), task);
    if error.Some? {
      if IsRetryable(error.value) && attempt < maxAttempts {
        FailuresAreCountedOnce(outside, maxAttempts, attempt + 1, stored);
        LastRowAppend(task, once.log, RunFrom(outside, maxAttempts, attempt + 1, stored).log);
      } else {
        MarkCounts(stored, error.value);
        LastRowAppend(task, once.log, MarkFailed(stored, error.value));
      }
    }
  }

  // ----- The supervisor reads what the runner wrote -----

  /** A task that ends by an exception, and what the supervisor of a plan takes from its row: a permission denied calls for
      somebody else, a provider that failed under one of the names it knows for the same again, and an illegal move for
      neither, unless a call was refused - as long as no budget had stopped an execution before. */
  lemma TheSupervisorReadsTheError(outside: nat -> Try, maxAttempts: int, task: Task)
    requires !IsTerminal(task.status) && SavedStage(task) != STAGE_DONE
    ensures var r := RunFrom(outside, maxAttempts, 1, task); var final := LastRow(task, r.log);
            && r.tries != []
            && (match r.tries[|r.tries| - 1]
                case Returned(_) => true
                case Illegal(_) => !WorthRepeating(final) && final.error != Some("PermissionDeniedError")
                case Crashed(error) =>
                  && (error.PermissionDeniedError? && !StoppedByBudget(final) ==>
                        WorthReassigning(final) && !WorthRepeating(final))
                  && (error.ProviderError? && !StoppedByBudget(final) ==>
                        (WorthRepeating(final) <==> ProviderFailed(Some(error.name)))))
  {
    hide RunFrom, LastRow, SavedStage, Follows;
    RunnerFinishesTheTask(outside, maxAttempts, 1, task);
    NamesAreOthers();
  }

  lemma NamesAreOthers()
    ensures !ProviderFailed(Some("PermissionDeniedError")) && !ProviderFailed(Some("InvalidStateTransitionError"))
    ensures "InvalidStateTransitionError" != "PermissionDeniedError"
  {
    assert |"PermissionDeniedError"| == 21 && |"InvalidStateTransitionError"| == 27;
    assert |"ProviderTimeoutError"| == 20 && |"ProviderUnavailableError"| == 24;
    assert |"RateLimitError"| == 14 && |"ProviderError"| == 13;
  }
}
