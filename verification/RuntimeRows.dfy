/**
 * What the rows of a run hold (application/employee_runtime/runtime.py, application/employee_runtime/transcript.py):
 * every one of them can be read back, exactly, as a complete conversation, and the last one holds the result.
 */
module RuntimeRows {
  import opened Wrappers
  import opened Transcripts
  import opened Tasks
  import opened Worlds
  import opened Executor
  import opened ExecutorRuns
  import opened ExecutorResume
  import opened Runtime
  import opened RuntimeRuns
  import opened RuntimeBudgets

  // ----- Conversations on disk -----

  /** A conversation that can be saved, read back and gone on with. */
  ghost predicate Sane(t: Transcript) {
    Complete(t.messages) && ExactMessages(t.messages) && Paired(t)
  }

  ghost predicate SavesExact(acts: seq<Act>) {
    forall k :: 0 <= k < |acts| && acts[k].Saved? ==> ExactMessages(acts[k].transcript.messages)
  }

  lemma TurnSavesExact(e: Employee, w: World, t: Transcript)
    requires ExactMessages(t.messages) && CallsHaveIds(w)
    ensures SavesExact(Turn(e, w, t).acts)
  {
    hide RunCalls, BestAnswer, OfferedIn;
    var offered := OfferedIn(e, t);
    var reply := w.generate(t, offered);
    if reply.Reply? {
      var said := AfterReply(t, reply).WithMessage(AssistantMessage(reply.content, reply.calls));
      BatchSavesNothing(e, w, said, reply.calls);
      BatchStaysExact(e, w, said, reply.calls);
    }
  }

  lemma {:induction false} RunSavesExact(e: Employee, w: World, t: Transcript)
    requires ExactMessages(t.messages) && CallsHaveIds(w)
    ensures SavesExact(Loop(e, w, t).acts)
    decreases e.limits.maxSteps - t.steps
  {
    hide Turn, Loop, ExactMessages, CallsHaveIds;
    LoopStep(e, w, t);
    TurnSavesExact(e, w, t);
    var turn := Turn(e, w, t);
    if turn.next.Continue? {
      TurnStaysExact(e, w, t);
      RunSavesExact(e, w, turn.next.transcript);
    }
  }

  ghost predicate SavesSane(acts: seq<Act>) {
    forall k :: 0 <= k < |acts| && acts[k].Saved? ==> Sane(acts[k].transcript)
  }

  lemma RunSavesSane(e: Employee, w: World, t: Transcript)
    requires Sane(t) && CallsHaveIds(w)
    ensures SavesSane(Loop(e, w, t).acts)
  {
    hide Loop, Complete, ExactMessages, Paired, CallsHaveIds;
    ExchangesAreComplete(e, w, t);
    ObservationsMatchReplies(e, w, t);
    RunSavesExact(e, w, t);
  }

  /** The row reads back as a conversation that can be gone on with. */
  ghost predicate HoldsSane(task: Task) {
    LoadRunState(task.state).Some? && Sane(LoadRunState(task.state).value.transcript)
  }

  ghost predicate AllHoldSane(log: seq<Entry>) {
    forall k :: 0 <= k < |log| && log[k].Row? ==> HoldsSane(log[k].task)
  }

  lemma SavedSane(task: Task, state: RunState)
    requires Sane(state.transcript) && task.state == SaveRunState(state)
    ensures HoldsSane(task)
  {
    RunStateComesBack(state);
  }

  lemma {:induction false} KeepingHoldsSane(kept: Kept, acts: seq<Act>)
    requires SavesSane(acts) && AllHoldSane(kept.log) && HoldsSane(kept.task)
    ensures AllHoldSane(KeepAll(kept, acts).log) && HoldsSane(KeepAll(kept, acts).task)
  {
    hide Sane, LoadRunState, SaveRunState;
    if acts == [] {
    } else {
      KeepingHoldsSane(kept, acts[..|acts| - 1]);
      var before, act := KeepAll(kept, acts[..|acts| - 1]), acts[|acts| - 1];
      if act.Saved? {
        SavedSane(KeepAll(kept, acts).task, before.state.(transcript := act.transcript));
      }
    }
  }

  lemma OpeningIsSane(s: Surroundings, k: nat, plan: Option<string>, state: RunState)
    ensures Sane(OpeningTranscript(s, k, plan, state))
  {
    var system, user := SystemMessage(s.system(k)), UserMessage(s.instruction(k, plan, state.feedback));
    PlainIsComplete(system);
    PlainIsComplete(user);
    CompleteAppend([system], [user]);
    assert [system] + [user] == [system, user];
    ToolContentsOneMore([], system);
    ToolContentsOneMore([system], user);
    assert [] + [system] == [system];
    assert ToolContents([system, user]) == [] && Summaries([]) == [];
  }

  /** Where a run stands between two stages: its row is sane, and so is the conversation it is about to go on with. */
  ghost predicate Standing(task: Task, state: RunState) {
    HoldsSane(task) && (state.stage == STAGE_EXECUTING ==> Sane(state.transcript))
  }

  lemma VerifyHoldsSane(s: Surroundings, k: nat, task: Task, state: RunState, result: TaskResult)
    requires HoldsSane(task)
    ensures var stage := Verify(s, k, task, state, result);
            && AllHoldSane(stage.log)
            && (stage.moved.Moved? ==> Standing(stage.moved.task, stage.moved.state))
  {
    hide Judge, Sane, LoadRunState;
  }

  lemma StageHoldsSane(s: Surroundings, e: Employee, k: nat, task: Task, state: RunState)
    requires Standing(task, state) && state.stage != STAGE_DONE && CallsHaveIds(s.world(k))
    ensures var stage := OneStage(s, e, k, task, state);
            && AllHoldSane(stage.log)
            && (stage.moved.Moved? ==> Standing(stage.moved.task, stage.moved.state))
  {
    hide Loop, KeepAll, Verify, Sane, LoadRunState, SaveRunState, CallsHaveIds;
    if state.stage == STAGE_EXECUTING {
      var run := Loop(e, s.world(k), state.transcript);
      RunSavesSane(e, s.world(k), state.transcript);
      var start := Kept([Execution(run)], task, state);
      KeepingHoldsSane(start, run.acts);
      var kept := KeepAll(start, run.acts);
      if run.end.Finished? {
        var after := kept.state.(transcript := run.end.outcome.transcript, stage := STAGE_VERIFYING);
        VerifyHoldsSane(s, k, kept.task, after, ResultOf(run.end.outcome));
      }
    } else if state.stage == STAGE_PLANNING {
      var planning := s.plan(k);
      var plan := if planning.Planned? then Some(planning.plan) else None;
      OpeningIsSane(s, k, plan, state);
      var begun := state.(stage := STAGE_EXECUTING, transcript := OpeningTranscript(s, k, plan, state));
      SavedSane(task.(status := RUNNING, step := 0, state := SaveRunState(begun)), begun);
    }
  }

  /** Whenever the process dies: the row it leaves reads back as a complete conversation, every call answered, one
      observation per reply, exactly as it was saved - so the process that takes the task up starts from one. */
  lemma {:induction false} RowsAreConversations(s: Surroundings, e: Employee, k: nat, task: Task, state: RunState)
    requires Standing(task, state) && forall j: nat :: CallsHaveIds(s.world(j))
    ensures AllHoldSane(Stages(s, e, k, task, state).log)
    decreases SendBacksLeft(state), Distance(state)
  {
    hide OneStage, Stages, HoldsSane, Standing, CallsHaveIds;
    if state.stage == STAGE_DONE {
      StagesDone(s, e, k, task, state);
    } else {
      StagesStep(s, e, k, task, state);
      StageHoldsSane(s, e, k, task, state);
      var stage := OneStage(s, e, k, task, state);
      if stage.moved.Moved? {
        StagesEnd(s, e, k, task, state);
        RowsAreConversations(s, e, k + 1, stage.moved.task, stage.moved.state);
      }
    }
  }

  /** The same from row to row: a new task is such a row, and every row of a session that starts at one is one. */
  lemma SessionsLeaveConversations(s: Surroundings, e: Employee, task: Task)
    requires HoldsSane(task) && forall j: nat :: CallsHaveIds(s.world(j))
    ensures HoldsSane(NEW_TASK) && AllHoldSane(Session(s, e, task).log)
  {
    hide Stages, CallsHaveIds;
    NothingSavedIsAFreshRun();
    assert Sane(EMPTY_TRANSCRIPT) by { EmptyIsSane(); }
    RowsAreConversations(s, e, 0, task, LoadRunState(task.state).value);
  }

  lemma EmptyIsSane()
    ensures Sane(EMPTY_TRANSCRIPT)
  {
    assert Summaries([]) == [];
  }

  // ----- The result -----

  /** The row of a finished task: the result of the last execution, and the error and the count of a failure. */
  ghost predicate CarriesResult(before: Task, after: Task, run: Ran) {
    && run.end.Finished?
    && after.result == Some(ResultOf(run.end.outcome))
    && (after.status == FAILED ==> after.error == Some("VerificationFailed") && after.attempts == before.attempts + 1)
    && (after.status != FAILED ==> after.error == before.error && after.attempts == before.attempts)
  }

  lemma {:induction false} KeepingLeavesResults(kept: Kept, acts: seq<Act>)
    ensures var after := KeepAll(kept, acts).task;
            after.result == kept.task.result && after.error == kept.task.error && after.attempts == kept.task.attempts
  {
    hide SaveRunState;
    if acts == [] {
    } else {
      KeepingLeavesResults(kept, acts[..|acts| - 1]);
    }
  }

  lemma StageCarriesResult(s: Surroundings, e: Employee, k: nat, task: Task, state: RunState)
    requires state.stage != STAGE_DONE && !IsTerminal(task.status)
    ensures var moved := OneStage(s, e, k, task, state).moved;
            moved.Moved? ==>
              if moved.state.stage == STAGE_DONE then
                state.stage == STAGE_EXECUTING
                && CarriesResult(task, moved.task, Loop(e, s.world(k), state.transcript))
              else
                moved.task.result == task.result && moved.task.error == task.error && moved.task.attempts == task.attempts
  {
    hide Loop, KeepAll, Judge, SaveRunState;
    if state.stage == STAGE_EXECUTING {
      var run := Loop(e, s.world(k), state.transcript);
      KeepingLeavesResults(Kept([Execution(run)], task, state), run.acts);
    }
  }

  /** A run that returns gives the result of its last execution, and so does the last row: the partial one of a cancelled
      or failed task too. A failure is marked as a failed verification and counted once; anything else is left alone. */
  lemma {:induction false} ReturnsTheLastExecution(s: Surroundings, e: Employee, k: nat, task: Task, state: RunState)
    requires state.stage != STAGE_DONE && !IsTerminal(task.status)
    ensures var r := Stages(s, e, k, task, state); var runs := Runs(r.log);
            r.end.Returned? ==>
              && runs != [] && CarriesResult(task, LastRow(task, r.log), runs[|runs| - 1])
              && r.end.result == ResultOf(runs[|runs| - 1].end.outcome)
    decreases SendBacksLeft(state), Distance(state)
  {
    hide OneStage, Stages, Runs, Rulings, StatusAfter, Loop, LastRow, Blocked, Execute;
    StagesStep(s, e, k, task, state);
    StageMoves(s, e, k, task, state);
    StageCarriesResult(s, e, k, task, state);
    StageSavesTheTask(s, e, k, task, state);
    StageIsDecided(s, e, k, task, state);
    var stage := OneStage(s, e, k, task, state);
    if stage.moved.Moved? {
      StagesEnd(s, e, k, task, state);
      var task', state' := stage.moved.task, stage.moved.state;
      var rest := Stages(s, e, k + 1, task', state');
      LogsAppend(task.status, stage.log, rest.log);
      LastRowAppend(task, stage.log, rest.log);
      if state'.stage == STAGE_DONE {
        StagesDone(s, e, k + 1, task', state');
        assert stage.log + [] == stage.log;
      } else {
        ReturnsTheLastExecution(s, e, k + 1, task', state');
      }
    }
  }

  // ----- The second attempt -----

  /** After a rejection the next stage opens a new conversation: an instruction made from what the verdict found missing -
      or from its reason when it names nothing - no observations, no steps, and the money already spent; and its row
      reads back as that. */
  lemma TheRetryIsToldWhatIsMissing(
      s: Surroundings, k: nat, task: Task, state: RunState, result: TaskResult, reason: string, missing: seq<string>)
    returns (plan: Option<string>)
    requires task.status == RUNNING && Judge(result, s.opinion(k)) == Rejected(reason, missing)
    requires state.attempt < MAX_ATTEMPTS && result.stoppedBy.None?
    ensures var rejected := Verify(s, k, task, state, result);
            && rejected.moved.Moved? && rejected.moved.state.stage == STAGE_PLANNING
            && var again := Plan(s, k + 1, rejected.moved.task, rejected.moved.state);
               again.moved.Moved? ==>
                 && again.moved.state.transcript.messages ==
                    [SystemMessage(s.system(k + 1)),
                     UserMessage(s.instruction(k + 1, plan, if missing != [] then missing else [reason]))]
                 && again.moved.state.transcript.observations == [] && again.moved.state.transcript.steps == 0
                 && again.moved.state.transcript.cost == state.transcript.cost
                 && again.moved.task.status == RUNNING
                 && LoadRunState(again.moved.task.state) == Some(again.moved.state)
  {
    hide Verify, Judge, SaveRunState, LoadRunState;
    RejectionSendsBack(s, k, task, state, result, reason, missing);
    var next := Verify(s, k, task, state, result).moved.state;
    var planning := s.plan(k + 1);
    plan := if planning.Planned? then Some(planning.plan) else None;
    var begun := next.(stage := STAGE_EXECUTING, transcript := OpeningTranscript(s, k + 1, plan, next));
    OpeningIsSane(s, k + 1, plan, next);
    SavedExactly(begun);
  }

  lemma SavedExactly(state: RunState)
    requires Sane(state.transcript)
    ensures LoadRunState(SaveRunState(state)) == Some(state)
  {
    RunStateComesBack(state);
  }

  lemma RejectionSendsBack(
      s: Surroundings, k: nat, task: Task, state: RunState, result: TaskResult, reason: string, missing: seq<string>)
    requires task.status == RUNNING && Judge(result, s.opinion(k)) == Rejected(reason, missing)
    requires state.attempt < MAX_ATTEMPTS && result.stoppedBy.None?
    ensures var moved := Verify(s, k, task, state, result).moved;
            && moved.Moved? && moved.task == task.(status := PLANNING)
            && moved.state == state.(stage := STAGE_PLANNING, attempt := state.attempt + 1,
                                     feedback := if missing != [] then missing else [reason])
  {
    hide Judge;
  }
}
