/**
 * The task runner: every run ends with the task finished (application/task_runner.py, application/orchestrator.py).
 *
 * `RunFrom` is the runner's loop as a function: what is saved, and how each try ended. `TaskRunner.Run` is the loop,
 * saving and reloading through the repository.
 */
module TaskRunner {
  import opened Wrappers
  import opened Text
  import opened Transcripts
  import opened Tasks
  import opened Worlds
  import opened Executor
  import opened Runtime
  import opened RuntimeRuns
  import opened RuntimeBudgets
  import opened RuntimeCrashes

  /** What one try meets: an exception while the employee and its runtime are put together, or both of them. */
  datatype Try = NotAssembled(error: Exception) | Assembled(surroundings: Surroundings, employee: Employee)

  datatype Runner = Runner(log: seq<Entry>, tries: seq<RunEnd>)

  /** The exception that leaves the runtime, if one does. */
  function ErrorOf(end: RunEnd): Option<Exception> {
    match end
    case Returned(_) => None
    case Crashed(error) => Some(error)
    case Illegal(move) => Some(InvalidStateTransitionError(move))
  }

  function RunOnce(outside: Try, task: Task): RunLog {
    match outside
    case NotAssembled(error) => RunLog([], Crashed(error))
    case Assembled(surroundings, employee) => Session(surroundings, employee, task)
  }

  /** `_mark_failed`: the stored task becomes FAILED, unless it is finished already. */
  function MarkFailed(stored: Task, error: Exception): seq<Entry> {
    if IsTerminal(stored.status) then []
    else
      match TransitionTo(stored.(error := Some(ErrorName(error)), attempts := stored.attempts + 1), FAILED)
      case Ok((failed, event)) => [Row(failed, Some(event))]
      case Err(_) => []
  }

  function RunFrom(outside: nat -> Try, maxAttempts: int, attempt: nat, task: Task): Runner
    decreases maxAttempts - attempt
  {
    var once := RunOnce(outside(attempt), task);
    var stored := LastRow(task, once.log);
    match ErrorOf(once.end)
    case None => Runner(once.log, [once.end])
    case Some(error) =>
      if IsRetryable(error) && attempt < maxAttempts then
        var rest := RunFrom(outside, maxAttempts, attempt + 1, stored);
        Runner(once.log + rest.log, [once.end] + rest.tries)
      else Runner(once.log + MarkFailed(stored, error), [once.end])
  }

  lemma RunFromStep(outside: nat -> Try, maxAttempts: int, attempt: nat, task: Task)
    ensures var r, once := RunFrom(outside, maxAttempts, attempt, task), RunOnce(outside(attempt), task);
            var stored := LastRow(task, once.log);
            match ErrorOf(once.end)
            case None => r == Runner(once.log, [once.end])
            case Some(error) =>
              if IsRetryable(error) && attempt < maxAttempts then
                var rest := RunFrom(outside, maxAttempts, attempt + 1, stored);
                r == Runner(once.log + rest.log, [once.end] + rest.tries)
              else r == Runner(once.log + MarkFailed(stored, error), [once.end])
  {
    hide RunOnce, LastRow, MarkFailed;
  }

  /** The runner. The repository holds the rows of the one task it runs. */
  class TaskRunner {
    const tasks: TaskRepository
    const maxAttempts: int

    constructor (tasks: TaskRepository, maxAttempts: int)
      ensures this.tasks == tasks && this.maxAttempts == maxAttempts
    {
      this.tasks, this.maxAttempts := tasks, maxAttempts;
    }

    /** The row in the repository, or the task one has. */
    method Reload(task: Task) returns (stored: Task)
      ensures stored == LastRow(task, tasks.history)
    {
      return LastRow(task, tasks.history);
    }

    method Fail(task: Task, error: Exception) returns (failed: Task)
      modifies tasks
      ensures tasks.history == old(tasks.history) + MarkFailed(old(LastRow(task, tasks.history)), error)
      ensures failed == LastRow(task, tasks.history)
    {
      var current := Reload(task);
      if IsTerminal(current.status) {
        return current;
      }
      EveryUnfinishedTaskCanEnd(current.status);
      var transition := TransitionTo(current.(error := Some(ErrorName(error)), attempts := current.attempts + 1), FAILED);
      var (after, event) := transition.value;
      failed := after;
      tasks.Save(failed, Some(event));
    }

    /** Assembling is part of the try: a missing employee fails here like anything else. */
    method TryOnce(outside: Try, task: Task) returns (end: RunEnd)
      modifies tasks
      ensures end == RunOnce(outside, task).end
      ensures tasks.history == old(tasks.history) + RunOnce(outside, task).log
    {
      hide Session;
      match outside {
        case NotAssembled(error) => return Crashed(error);
        case Assembled(surroundings, employee) =>
          var runtime := new EmployeeRuntime(surroundings, employee, tasks);
          end := runtime.Run(task);
      }
    }

    method Run(outside: nat -> Try, start: Task) returns (final: Task)
      requires LastRow(start, tasks.history) == start
      modifies tasks
      ensures var r := RunFrom(outside, maxAttempts, 1, start);
              tasks.history == old(tasks.history) + r.log && final == LastRow(start, r.log)
    {
      hide *;
      var attempt, task := 1, start;
      ghost var before := tasks.history;
      ghost var done: seq<Entry> := [];
      UnderwayAtFirst(outside, maxAttempts, start, before);
      while true
        invariant Underway(outside, maxAttempts, start, before, tasks.history, done, attempt, task)
        decreases maxAttempts - attempt
      {
        ghost var once, history := RunOnce(outside(attempt), task), tasks.history;
        var end := TryOnce(outside(attempt), task);
        TriedOnce(outside, maxAttempts, start, before, history, done, attempt, task);
        var error := ErrorOf(end);
        if error.None? {
          break;
        }
        if IsRetryable(error.value) && attempt < maxAttempts {
          attempt, done := attempt + 1, done + once.log;
          task := Reload(task);
          continue;
        }
        task := Fail(task, error.value);
        break;
      }
      final := Reload(task);
    }
  }

  /** Where the loop stands: what is left to do, done, makes up the whole; and the task in hand is the stored one. */
  ghost predicate Underway(
      outside: nat -> Try, maxAttempts: int, start: Task, before: seq<Entry>, history: seq<Entry>,
      done: seq<Entry>, attempt: nat, task: Task)
  {
    && history == before + done && attempt >= 1
    && RunFrom(outside, maxAttempts, 1, start).log == done + RunFrom(outside, maxAttempts, attempt, task).log
    && task == LastRow(start, done) && LastRow(task, history) == task
  }

  lemma UnderwayAtFirst(outside: nat -> Try, maxAttempts: int, start: Task, history: seq<Entry>)
    requires LastRow(start, history) == start
    ensures Underway(outside, maxAttempts, start, history, history, [], 1, start)
  {
    hide RunFrom;
  }

  lemma TriedOnce(
      outside: nat -> Try, maxAttempts: int, start: Task, before: seq<Entry>, history: seq<Entry>,
      done: seq<Entry>, attempt: nat, task: Task)
    requires Underway(outside, maxAttempts, start, before, history, done, attempt, task)
    ensures var once := RunOnce(outside(attempt), task); var stored := LastRow(task, once.log);
            var after := history + once.log; var whole := RunFrom(outside, maxAttempts, 1, start).log;
            && LastRow(task, after) == stored
            && match ErrorOf(once.end)
               case None => after == before + whole && stored == LastRow(start, whole)
               case Some(error) =>
                 if IsRetryable(error) && attempt < maxAttempts then
                   Underway(outside, maxAttempts, start, before, after, done + once.log, attempt + 1, stored)
                 else
                   var all := after + MarkFailed(stored, error);
                   all == before + whole && LastRow(LastRow(task, all), all) == LastRow(start, whole)
  {
    hide RunFrom, RunOnce, MarkFailed, LastRow, Classify;
    RunFromStep(outside, maxAttempts, attempt, task);
    var once := RunOnce(outside(attempt), task);
    var stored, after := LastRow(task, once.log), history + once.log;
    LastRowAppend(task, history, once.log);
    LastRowAppend(start, done, once.log);
    LastRowTwice(task, after);
    Regroup(before, done, once.log);
    match ErrorOf(once.end) {
      case None =>
      case Some(error) =>
        Regroup(done, once.log, RunFrom(outside, maxAttempts, attempt + 1, stored).log);
        var marked := MarkFailed(stored, error);
        Regroup(done, once.log, marked);
        Regroup(before, done + once.log, marked);
        LastRowAppend(task, after, marked);
        LastRowAppend(start, done + once.log, marked);
        LastRowTwice(task, after + marked);
    }
  }

  lemma {:induction false} LastRowTwice(task: Task, log: seq<Entry>)
    ensures LastRow(LastRow(task, log), log) == LastRow(task, log)
  {
    if log != [] && !log[|log| - 1].Row? {
      LastRowTwice(task, log[..|log| - 1]);
    }
  }

  // ----- No row says DONE -----

  /** The saved state is the one the run found, or says EXECUTING. */
  predicate FoundOrExecuting(task: Task, found: SavedRunState) {
    task.state == found || SavedStage(task) == STAGE_EXECUTING
  }

  ghost predicate AllFoundOrExecuting(log: seq<Entry>, found: SavedRunState) {
    forall k :: 0 <= k < |log| && log[k].Row? ==> FoundOrExecuting(log[k].task, found)
  }

  lemma {:induction false} KeepingSaysExecuting(kept: Kept, acts: seq<Act>, found: SavedRunState)
    requires kept.state.stage == STAGE_EXECUTING && AllFoundOrExecuting(kept.log, found)
    requires FoundOrExecuting(kept.task, found)
    ensures var after := KeepAll(kept, acts);
            && after.state.stage == STAGE_EXECUTING && AllFoundOrExecuting(after.log, found)
            && FoundOrExecuting(after.task, found)
  {
    hide SaveRunState;
    if acts == [] {
    } else {
      KeepingSaysExecuting(kept, acts[..|acts| - 1], found);
      var before, act := KeepAll(kept, acts[..|acts| - 1]), acts[|acts| - 1];
      if act.Saved? {
        SavedAs(before.state.(transcript := act.transcript));
      }
    }
  }

  lemma VerifySaysNothingNew(
      s: Surroundings, k: nat, task: Task, state: RunState, result: TaskResult, found: SavedRunState)
    requires FoundOrExecuting(task, found)
    ensures var stage := Verify(s, k, task, state, result);
            && AllFoundOrExecuting(stage.log, found)
            && (stage.moved.Moved? ==> FoundOrExecuting(stage.moved.task, found))
  {
    hide Judge;
  }

  lemma StageSaysExecuting(s: Surroundings, e: Employee, k: nat, task: Task, state: RunState, found: SavedRunState)
    requires state.stage != STAGE_DONE && FoundOrExecuting(task, found)
    ensures var stage := OneStage(s, e, k, task, state);
            && AllFoundOrExecuting(stage.log, found)
            && (stage.moved.Moved? ==> FoundOrExecuting(stage.moved.task, found))
  {
    hide SaveRunState, Loop, KeepAll, Verify;
    if state.stage == STAGE_EXECUTING {
      var run := Loop(e, s.world(k), state.transcript);
      var start := Kept([Execution(run)], task, state);
      KeepingSaysExecuting(start, run.acts, found);
      var kept := KeepAll(start, run.acts);
      if run.end.Finished? {
        var after := kept.state.(transcript := run.end.outcome.transcript, stage := STAGE_VERIFYING);
        VerifySaysNothingNew(s, k, kept.task, after, ResultOf(run.end.outcome), found);
      }
    } else if state.stage == STAGE_PLANNING {
      var planning := s.plan(k);
      var plan := if planning.Planned? then Some(planning.plan) else None;
      SavedAs(state.(stage := STAGE_EXECUTING, transcript := OpeningTranscript(s, k, plan, state)));
    }
  }

  /** No run writes the stage DONE, or any other but EXECUTING: a row that says something else said so before. */
  lemma {:induction false} RowsSayExecuting(
      s: Surroundings, e: Employee, k: nat, task: Task, state: RunState, found: SavedRunState)
    requires FoundOrExecuting(task, found)
    ensures var log := Stages(s, e, k, task, state).log;
            AllFoundOrExecuting(log, found) && FoundOrExecuting(LastRow(task, log), found)
    decreases SendBacksLeft(state), Distance(state)
  {
    hide OneStage, Stages, FoundOrExecuting, LastRow;
    if state.stage == STAGE_DONE {
      StagesDone(s, e, k, task, state);
      NoRows(task);
    } else {
      StagesStep(s, e, k, task, state);
      StageSaysExecuting(s, e, k, task, state, found);
      var stage := OneStage(s, e, k, task, state);
      if stage.moved.Moved? {
        StagesEnd(s, e, k, task, state);
        var task', state' := stage.moved.task, stage.moved.state;
        RowsSayExecuting(s, e, k + 1, task', state', found);
        StageSavesTheTask(s, e, k, task, state);
        LastRowAppend(task, stage.log, Stages(s, e, k + 1, task', state').log);
      } else {
        LastRowIsARow(task, stage.log);
      }
    }
  }

  lemma {:induction false} LastRowIsARow(task: Task, log: seq<Entry>)
    ensures LastRow(task, log) == task || exists k :: 0 <= k < |log| && log[k].Row? && log[k].task == LastRow(task, log)
  {
    if log != [] && !log[|log| - 1].Row? {
      LastRowIsARow(task, log[..|log| - 1]);
    }
  }

  lemma {:induction false} RowStatus(task: Task, log: seq<Entry>)
    ensures LastRow(task, log).status == StatusAfter(task.status, log)
  {
    if log != [] && !log[|log| - 1].Row? {
      RowStatus(task, log[..|log| - 1]);
    }
  }

  // ----- The runner's runs -----

  /** One try, from any row: its rows follow the table. A try from an unfinished row that does not say DONE leaves the
      task finished exactly when it raises nothing, and otherwise leaves a row that does not say DONE either. */
  lemma TryFollows(outside: Try, task: Task)
    ensures var once := RunOnce(outside, task);
            && Follows(task.status, once.log, LastRow(task, once.log).status)
            && (!IsTerminal(task.status) && SavedStage(task) != STAGE_DONE ==>
                  && (ErrorOf(once.end).None? <==> IsTerminal(LastRow(task, once.log).status))
                  && SavedStage(LastRow(task, once.log)) != STAGE_DONE)
  {
    hide Stages, Follows, IsPath, LoadRunState, StatusAfter, LastRow;
    var once := RunOnce(outside, task);
    RowStatus(task, once.log);
    NoRows(task);
    EmptyFollows(task.status);
    if outside.Assembled? && Readable(task) {
      var s, e, state := outside.surroundings, outside.employee, LoadRunState(task.state).value;
      LoadedStage(task);
      var end := RowsAreAPath(s, e, 0, task, state);
      FollowsToStatusAfter(task.status, once.log, end);
      RowsSayExecuting(s, e, 0, task, state, task.state);
      if !IsTerminal(task.status) && SavedStage(task) != STAGE_DONE {
        var end' := ReturnsIffTerminal(s, e, 0, task, state);
        FollowsToStatusAfter(task.status, once.log, end');
      }
    }
  }

  /** A model provider or an integration failed, and says that it may work the next time. */
  predicate RaisedTransient(end: RunEnd) {
    end.Crashed? && (end.error.ProviderError? || end.error.IntegrationError?) && end.error.transient
  }

  lemma TransientIff(end: RunEnd)
    ensures ErrorOf(end).Some? && IsRetryable(ErrorOf(end).value) <==> RaisedTransient(end)
  {
  }

  /** Every try but the last failed in a way worth retrying. */
  ghost predicate OnlyTransientRetried(tries: seq<RunEnd>) {
    tries != [] && forall i :: 0 <= i < |tries| - 1 ==> RaisedTransient(tries[i])
  }

  lemma MarkFollows(stored: Task, error: Exception)
    ensures Follows(stored.status, MarkFailed(stored, error), LastRow(stored, MarkFailed(stored, error)).status)
    ensures !IsTerminal(stored.status) ==> LastRow(stored, MarkFailed(stored, error)).status == FAILED
                                           && LastRow(stored, MarkFailed(stored, error)).error == Some(ErrorName(error))
    ensures IsTerminal(stored.status) ==> MarkFailed(stored, error) == []
  {
    EveryUnfinishedTaskCanEnd(stored.status);
    if !IsTerminal(stored.status) {
      assert MarkFailed(stored, error)[..0] == [];
    }
  }

  /** Whatever the task, its rows and the exceptions: the runner's rows follow the table, it tries again only after a
      transient failure and at most `maxAttempts` times, and an unfinished task that does not say DONE is finished when
      it returns - by the runtime when the last try raised nothing, otherwise as FAILED. */
  lemma {:induction false} RunnerFinishesTheTask(outside: nat -> Try, maxAttempts: int, attempt: nat, task: Task)
    ensures var r := RunFrom(outside, maxAttempts, attempt, task); var final := LastRow(task, r.log);
            && Follows(task.status, r.log, final.status)
            && OnlyTransientRetried(r.tries)
            && |r.tries| <= (if attempt < maxAttempts then maxAttempts - attempt + 1 else 1)
            && (!IsTerminal(task.status) && SavedStage(task) != STAGE_DONE ==>
                  && IsTerminal(final.status)
                  && (ErrorOf(r.tries[|r.tries| - 1]).Some? ==>
                        final.status == FAILED && final.error == Some(ErrorName(ErrorOf(r.tries[|r.tries| - 1]).value))))
    decreases maxAttempts - attempt
  {
    hide RunFrom, RunOnce, Follows, LastRow, MarkFailed, SavedStage, ErrorName, RaisedTransient, IsRetryable;
    RunFromStep(outside, maxAttempts, attempt, task);
    var r, once := RunFrom(outside, maxAttempts, attempt, task), RunOnce(outside(attempt), task);
    var stored, error := LastRow(task, once.log), ErrorOf(once.end);
    TryFollows(outside(attempt), task);
    TransientIff(once.end);
    if error.Some? {
      if IsRetryable(error.value) && attempt < maxAttempts {
        RunnerFinishesTheTask(outside, maxAttempts, attempt + 1, stored);
        var rest := RunFrom(outside, maxAttempts, attempt + 1, stored);
        LastRowAppend(task, once.log, rest.log);
        FollowsAppend(task.status, once.log, stored.status, rest.log, LastRow(stored, rest.log).status);
        assert r.tries[|r.tries| - 1] == rest.tries[|rest.tries| - 1];
      } else {
        var marked := MarkFailed(stored, error.value);
        LastRowAppend(task, once.log, marked);
        MarkFollows(stored, error.value);
        FollowsAppend(task.status, once.log, stored.status, marked, LastRow(stored, marked).status);
      }
    }
  }

  /** Try by try: there is a next one if and only if this one raised something transient and tries were left. */
  lemma {:induction false} TriedAgainIff(outside: nat -> Try, maxAttempts: int, attempt: nat, task: Task, i: nat)
    ensures var tries := RunFrom(outside, maxAttempts, attempt, task).tries;
            && tries != []
            && (i < |tries| ==> (i + 1 < |tries| <==> RaisedTransient(tries[i]) && attempt + i < maxAttempts))
    decreases maxAttempts - attempt
  {
    hide RunFrom, RunOnce, LastRow, MarkFailed, RaisedTransient;
    RunFromStep(outside, maxAttempts, attempt, task);
    var once := RunOnce(outside(attempt), task);
    TransientIff(once.end);
    if RaisedTransient(once.end) && attempt < maxAttempts {
      var stored := LastRow(task, once.log);
      TriedAgainIff(outside, maxAttempts, attempt + 1, stored, if i > 0 then i - 1 else 0);
    }
  }

  lemma {:induction false} FinishedStays(status: TaskStatus, log: seq<Entry>, end: TaskStatus)
    requires Follows(status, log, end) && IsTerminal(status)
    ensures end == status && Events(log) == []
    ensures forall k :: 0 <= k < |log| && log[k].Row? ==> log[k].task.status == status
    decreases |log|
  {
    if log == [] {
    } else {
      var before, last := log[..|log| - 1], log[|log| - 1];
      if last.Row? && last.event.Some? {
        FinishedStays(status, before, last.event.value.from);
      } else {
        FinishedStays(status, before, end);
        hide Follows;
        forall k | 0 <= k < |log| && log[k].Row? ensures log[k].task.status == status {
          if k < |before| {
            assert before[k] == log[k];
          }
        }
      }
    }
  }

  /** A finished task is never given another status, however often it is run again; and over all the tries of one run
      a task that starts unfinished gets at most one terminal event, the last. */
  lemma TerminalIsForGood(outside: nat -> Try, maxAttempts: int, task: Task)
    ensures var log := RunFrom(outside, maxAttempts, 1, task).log; var events := Events(log);
            && IsPath(task.status, events, LastRow(task, log).status)
            && (IsTerminal(task.status) ==>
                  events == [] && forall k :: 0 <= k < |log| && log[k].Row? ==> log[k].task.status == task.status)
            && (forall j: nat :: j < |events| && IsTerminal(events[j].to) ==>
                  j == |events| - 1 && LastRow(task, log).status == events[j].to)
  {
    hide RunFrom, Follows, LastRow, IsPath;
    RunnerFinishesTheTask(outside, maxAttempts, 1, task);
    var log := RunFrom(outside, maxAttempts, 1, task).log;
    var end := LastRow(task, log).status;
    FollowsIsPath(task.status, log, end);
    if IsTerminal(task.status) {
      FinishedStays(task.status, log, end);
    }
    forall j: nat | j < |Events(log)| && IsTerminal(Events(log)[j].to)
      ensures j == |Events(log)| - 1 && end == Events(log)[j].to
    {
      TerminalEventIsLast(task.status, Events(log), end, j);
    }
  }

  // ----- When the verifier cannot be reached -----

  /** The last thing that happened is that the verifier raised this. */
  predicate VerifierRaised(log: seq<Entry>, error: Exception) {
    log != [] && log[|log| - 1].Ruling? && log[|log| - 1].verdict == NoVerdict(error)
  }

  lemma {:induction false} KeepingRulesNothing(kept: Kept, acts: seq<Act>, error: Exception)
    requires !VerifierRaised(kept.log, error)
    ensures !VerifierRaised(KeepAll(kept, acts).log, error)
  {
    if acts == [] {
    } else {
      KeepingRulesNothing(kept, acts[..|acts| - 1], error);
    }
  }

  lemma VerifyRaises(
      s: Surroundings, k: nat, task: Task, state: RunState, result: TaskResult, before: seq<Entry>, error: Exception)
    requires CrashPoint(task) && SavedStage(task) == STAGE_EXECUTING && !IsTerminal(task.status)
    requires !VerifierRaised(before, error) && VerifierRaised(before + Verify(s, k, task, state, result).log, error)
    ensures var stage := Verify(s, k, task, state, result); var row := LastRow(task, before + stage.log);
            && stage.moved == Stopped(Crashed(error)) && stage.log != [] && stage.log[0].Row?
            && row.status == VERIFYING && CrashPoint(row) && SavedStage(row) == STAGE_EXECUTING
  {
    hide Judge, LoadRunState;
    var stage := Verify(s, k, task, state, result);
    assert before + [] == before;
    if task.status == RUNNING {
      var verdict := Judge(result, s.opinion(k));
      var row := Row(task.(status := VERIFYING), Some(TaskEvent(RUNNING, VERIFYING)));
      var ruling := Ruling(result.summary, verdict);
      assert verdict.NoVerdict? ==> stage.log == [row, ruling];
      LastIsTheRow(task, before, row, ruling);
    }
  }

  lemma LastIsTheRow(task: Task, before: seq<Entry>, row: Entry, ruling: Entry)
    requires row.Row? && !ruling.Row?
    ensures LastRow(task, before + [row, ruling]) == row.task
  {
    assert (before + [row, ruling])[..|before| + 1] == before + [row];
  }

  lemma {:induction false} LastRowOfEither(a: Task, b: Task, log: seq<Entry>, k: nat)
    requires k < |log| && log[k].Row?
    ensures LastRow(a, log) == LastRow(b, log)
    decreases |log|
  {
    if log[|log| - 1].Row? {
    } else {
      LastRowOfEither(a, b, log[..|log| - 1], k);
    }
  }

  /** A stage in which the verifier raises stops with its exception. */
  lemma StageRaises(s: Surroundings, e: Employee, k: nat, task: Task, state: RunState, error: Exception)
    requires state.stage != STAGE_DONE && Between(task, state) && VerifierRaised(OneStage(s, e, k, task, state).log, error)
    ensures var stage := OneStage(s, e, k, task, state); var row := LastRow(task, stage.log);
            && stage.moved == Stopped(Crashed(error))
            && row.status == VERIFYING && CrashPoint(row) && SavedStage(row) == STAGE_EXECUTING
  {
    hide LoadRunState, SaveRunState, Loop, KeepAll, Verify, LastRow;
    if state.stage == STAGE_EXECUTING {
      var run := Loop(e, s.world(k), state.transcript);
      var start := Kept([Execution(run)], task, state);
      StatusAfterExecution(e, s.world(k), state.transcript, start);
      KeepingLeavesCrashPoints(start, run.acts);
      KeepingRulesNothing(start, run.acts, error);
      var kept := KeepAll(start, run.acts);
      if run.end.Finished? && !run.end.outcome.cancelled {
        var after := kept.state.(transcript := run.end.outcome.transcript, stage := STAGE_VERIFYING);
        VerifyRaises(s, k, kept.task, after, ResultOf(run.end.outcome), kept.log, error);
        var verified := Verify(s, k, kept.task, after, ResultOf(run.end.outcome));
        LastRowOfEither(task, kept.task, kept.log + verified.log, |kept.log|);
      }
    }
  }

  /** A run in which the verifier raised last ends with its exception, and leaves a row that says VERIFYING beside
      EXECUTING. */
  lemma {:induction false} RaisedVerdictsLeaveVerifying(
      s: Surroundings, e: Employee, k: nat, task: Task, state: RunState, error: Exception)
    requires Between(task, state) && VerifierRaised(Stages(s, e, k, task, state).log, error)
    ensures var r := Stages(s, e, k, task, state); var row := LastRow(task, r.log);
            && r.end == Crashed(error)
            && row.status == VERIFYING && CrashPoint(row) && SavedStage(row) == STAGE_EXECUTING
    decreases SendBacksLeft(state), Distance(state)
  {
    hide OneStage, Stages, CrashPoint, LastRow, SavedStage;
    if state.stage == STAGE_DONE {
      StagesDone(s, e, k, task, state);
    } else {
      StagesStep(s, e, k, task, state);
      StageLeavesCrashPoints(s, e, k, task, state);
      var stage := OneStage(s, e, k, task, state);
      if VerifierRaised(stage.log, error) {
        StageRaises(s, e, k, task, state, error);
      }
      if stage.moved.Moved? {
        StagesEnd(s, e, k, task, state);
        var rest := Stages(s, e, k + 1, stage.moved.task, stage.moved.state);
        assert rest.log == [] ==> stage.log + rest.log == stage.log;
        RaisedVerdictsLeaveVerifying(s, e, k + 1, stage.moved.task, stage.moved.state, error);
        StageSavesTheTask(s, e, k, task, state);
        LastRowAppend(task, stage.log, rest.log);
      }
    }
  }

  /** So it is for a running task when its tool loop finishes with an answer and the verifier cannot be reached. */
  lemma VerifierRaisesOnAnAnswer(s: Surroundings, e: Employee, task: Task, error: Exception)
    requires CrashPoint(task) && task.status == RUNNING && s.opinion(0) == NoOpinion(error)
    requires var run := FirstExecution(s, e, task);
             run.end.Finished? && !run.end.outcome.cancelled && !Blank(run.end.outcome.answer)
    ensures VerifierRaised(Session(s, e, task).log, error) && Session(s, e, task).end == Crashed(error)
  {
    hide Stages, Loop, KeepAll, LoadRunState;
    LoadedStage(task);
    var state, run := LoadRunState(task.state).value, FirstExecution(s, e, task);
    StagesStep(s, e, 0, task, state);
    StatusAfterExecution(e, s.world(0), state.transcript, Kept([Execution(run)], task, state));
  }

  /** The verifier raises, whatever the run before it was, and what it raises is transient: the runner tries again, from
      a row that says VERIFYING beside EXECUTING. The second try ends at an illegal move if and only if its first
      execution finishes, uncancelled, without asking anybody; the task is then FAILED by that move after two tries,
      which hides the transient failure it began with. */
  lemma TransientVerdictsAreNotRetried(outside: nat -> Try, maxAttempts: int, attempt: nat, task: Task, error: Exception)
    requires CrashPoint(task) && !IsTerminal(task.status)
    requires outside(attempt).Assembled? && outside(attempt + 1).Assembled?
    requires VerifierRaised(RunOnce(outside(attempt), task).log, error)
    requires RaisedTransient(Crashed(error)) && attempt < maxAttempts
    ensures var r := RunFrom(outside, maxAttempts, attempt, task); var final := LastRow(task, r.log);
            var stored := LastRow(task, RunOnce(outside(attempt), task).log); var next := outside(attempt + 1);
            && |r.tries| >= 2 && r.tries[0] == Crashed(error)
            && Readable(stored) && stored.status == VERIFYING && SavedStage(stored) == STAGE_EXECUTING
            && (r.tries[1].Illegal? <==> FinishesUnasked(FirstExecution(next.surroundings, next.employee, stored)))
            && (r.tries[1].Illegal? ==>
                  |r.tries| == 2 && final.status == FAILED && final.error == Some("InvalidStateTransitionError"))
  {
    hide Stages, Loop, Follows, LastRow, RunFrom, MarkFailed, LoadRunState, Between;
    var once, s, e := RunOnce(outside(attempt), task), outside(attempt).surroundings, outside(attempt).employee;
    StartsBetween(task);
    RaisedVerdictsLeaveVerifying(s, e, 0, task, LoadRunState(task.state).value, error);
    var stored := LastRow(task, once.log);
    RunFromStep(outside, maxAttempts, attempt, task);
    ResumedVerdict(outside, maxAttempts, attempt + 1, stored);
    LastRowAppend(task, once.log, RunFrom(outside, maxAttempts, attempt + 1, stored).log);
  }

  lemma StartsBetween(task: Task)
    requires CrashPoint(task) && !IsTerminal(task.status)
    ensures Between(task, LoadRunState(task.state).value)
  {
    LoadedStage(task);
  }

  /** The second of the two tries. */
  lemma ResumedVerdict(outside: nat -> Try, maxAttempts: int, attempt: nat, task: Task)
    requires CrashPoint(task) && task.status == VERIFYING && outside(attempt).Assembled?
    ensures var r := RunFrom(outside, maxAttempts, attempt, task); var final := LastRow(task, r.log);
            && r.tries != []
            && (r.tries[0].Illegal? <==>
                  FinishesUnasked(FirstExecution(outside(attempt).surroundings, outside(attempt).employee, task)))
            && (r.tries[0].Illegal? ==>
                  |r.tries| == 1 && final.status == FAILED && final.error == Some("InvalidStateTransitionError"))
  {
    hide Session, FirstExecution, Follows, LastRow, RunFrom, MarkFailed, LoadRunState;
    RunFromStep(outside, maxAttempts, attempt, task);
    var once := RunOnce(outside(attempt), task);
    var stored := LastRow(task, once.log);
    LateCrashesAreLegalIffAsked(outside(attempt).surroundings, outside(attempt).employee, task);
    TryFollows(outside(attempt), task);
    if once.end.Illegal? {
      MarkFollows(stored, ErrorOf(once.end).value);
      LastRowAppend(task, once.log, MarkFailed(stored, ErrorOf(once.end).value));
    }
  }
}
