/**
 * Killed and taken up again (application/employee_runtime/runtime.py, domain/tasks/task.py): which rows a run can
 * leave behind at the moment it dies, and what becomes of a task that is resumed from each of them.
 */
module RuntimeCrashes {
  import opened Wrappers
  import opened Text
  import opened Transcripts
  import opened Tasks
  import opened Policies
  import opened Refusals
  import opened Worlds
  import opened Approvals
  import opened Executor
  import opened ExecutorRuns
  import opened Runtime
  import opened RuntimeRuns
  import opened RuntimeBudgets

  /** The stage a row would be resumed at. */
  function SavedStage(task: Task): string {
    GetOr(task.state.stage, STAGE_PLANNING)
  }

  predicate Readable(task: Task) {
    LoadRunState(task.state).Some?
  }

  /** The statuses an unfinished row can have beside a saved stage. The saved stage stays EXECUTING while the status
      moves on to VERIFYING, and back to PLANNING after a rejection. */
  predicate CrashPair(status: TaskStatus, stage: string) {
    || (stage == STAGE_PLANNING && status in {CREATED, PLANNING})
    || (stage == STAGE_EXECUTING && status in {RUNNING, WAITING_FOR_APPROVAL, VERIFYING, PLANNING})
  }

  /** A row a process can leave behind when it dies. */
  predicate CrashPoint(task: Task) {
    Readable(task) && (IsTerminal(task.status) || CrashPair(task.status, SavedStage(task)))
  }

  ghost predicate AllCrashPoints(log: seq<Entry>) {
    forall k :: 0 <= k < |log| && log[k].Row? ==> CrashPoint(log[k].task)
  }

  lemma AllBoth(a: seq<Entry>, b: seq<Entry>)
    requires AllCrashPoints(a) && AllCrashPoints(b)
    ensures AllCrashPoints(a + b)
  {
  }

  /** Where a run stands between two stages. */
  ghost predicate Between(task: Task, state: RunState) {
    && CrashPoint(task)
    && if state.stage == STAGE_DONE then IsTerminal(task.status)
       else
         && !IsTerminal(task.status)
         && if state.stage == STAGE_EXECUTING then SavedStage(task) == STAGE_EXECUTING
            else state.stage == STAGE_PLANNING && task.status in {CREATED, PLANNING}
  }

  lemma SavedIsReadable(state: RunState)
    ensures LoadRunState(SaveRunState(state)).Some?
  {
    RunStateComesBack(state);
  }

  lemma {:induction false} KeepingLeavesCrashPoints(kept: Kept, acts: seq<Act>)
    requires OnlyGateTells(acts) && AllCrashPoints(kept.log)
    requires CrashPoint(kept.task) && !IsTerminal(kept.task.status)
    requires kept.state.stage == STAGE_EXECUTING && SavedStage(kept.task) == STAGE_EXECUTING
    ensures var after := KeepAll(kept, acts);
            && AllCrashPoints(after.log) && CrashPoint(after.task) && !IsTerminal(after.task.status)
            && after.state.stage == STAGE_EXECUTING && SavedStage(after.task) == STAGE_EXECUTING
  {
    hide LoadRunState, SaveRunState;
    if acts == [] {
    } else {
      KeepingLeavesCrashPoints(kept, acts[..|acts| - 1]);
      var before, act := KeepAll(kept, acts[..|acts| - 1]), acts[|acts| - 1];
      if act.Saved? {
        SavedIsReadable(before.state.(transcript := act.transcript));
        assert SaveRunState(before.state.(transcript := act.transcript)).stage == Some(STAGE_EXECUTING) by {
          SavedAs(before.state.(transcript := act.transcript));
        }
      }
    }
  }

  lemma SavedAs(state: RunState)
    ensures SaveRunState(state).stage == Some(state.stage)
  {
  }

  lemma VerifyLeavesCrashPoints(s: Surroundings, k: nat, task: Task, state: RunState, result: TaskResult)
    requires CrashPoint(task) && !IsTerminal(task.status) && SavedStage(task) == STAGE_EXECUTING
    ensures var stage := Verify(s, k, task, state, result);
            && AllCrashPoints(stage.log)
            && (stage.moved.Moved? ==> Between(stage.moved.task, stage.moved.state))
  {
    hide Judge, LoadRunState;
  }

  lemma StageLeavesCrashPoints(s: Surroundings, e: Employee, k: nat, task: Task, state: RunState)
    requires state.stage != STAGE_DONE && Between(task, state)
    ensures var stage := OneStage(s, e, k, task, state);
            && AllCrashPoints(stage.log)
            && (stage.moved.Moved? ==> Between(stage.moved.task, stage.moved.state))
  {
    hide LoadRunState, SaveRunState, Loop, KeepAll, Verify, OnlyGateTells, OpeningTranscript;
    if state.stage == STAGE_EXECUTING {
      var run := Loop(e, s.world(k), state.transcript);
      var start := Kept([Execution(run)], task, state);
      StatusAfterExecution(e, s.world(k), state.transcript, start);
      KeepingLeavesCrashPoints(start, run.acts);
      var kept := KeepAll(start, run.acts);
      if run.end.Finished? {
        var after := kept.state.(transcript := run.end.outcome.transcript, stage := STAGE_VERIFYING);
        VerifyLeavesCrashPoints(s, k, kept.task, after, ResultOf(run.end.outcome));
        if !run.end.outcome.cancelled {
          AllBoth(kept.log, Verify(s, k, kept.task, after, ResultOf(run.end.outcome)).log);
        }
      }
    } else {
      var planning := s.plan(k);
      var plan := if planning.Planned? then Some(planning.plan) else None;
      var begun := state.(stage := STAGE_EXECUTING, transcript := OpeningTranscript(s, k, plan, state));
      SavedIsReadable(begun);
      SavedAs(begun);
    }
  }

  lemma {:induction false} StagesLeaveCrashPoints(s: Surroundings, e: Employee, k: nat, task: Task, state: RunState)
    requires Between(task, state)
    ensures AllCrashPoints(Stages(s, e, k, task, state).log)
    decreases SendBacksLeft(state), Distance(state)
  {
    hide OneStage, Stages, CrashPoint;
    if state.stage == STAGE_DONE {
      StagesDone(s, e, k, task, state);
    } else {
      StagesStep(s, e, k, task, state);
      StageLeavesCrashPoints(s, e, k, task, state);
      var stage := OneStage(s, e, k, task, state);
      if stage.moved.Moved? {
        StagesEnd(s, e, k, task, state);
        StagesLeaveCrashPoints(s, e, k + 1, stage.moved.task, stage.moved.state);
        AllBoth(stage.log, Stages(s, e, k + 1, stage.moved.task, stage.moved.state).log);
      }
    }
  }

  lemma LoadedStage(task: Task)
    requires Readable(task)
    ensures LoadRunState(task.state).value.stage == SavedStage(task)
  {
  }

  /** A new task is a crash point, and whatever a run that starts at one saves is one again - killed at any moment, any
      number of times, a task is found in one of the six unfinished pairs, or finished. */
  lemma CrashPointsStay(s: Surroundings, e: Employee, task: Task)
    requires CrashPoint(task) && !IsTerminal(task.status)
    ensures CrashPoint(NEW_TASK)
    ensures AllCrashPoints(Session(s, e, task).log)
  {
    hide Stages;
    LoadedStage(task);
    NothingSavedIsAFreshRun();
    StagesLeaveCrashPoints(s, e, 0, task, LoadRunState(task.state).value);
  }

  // ----- Resuming -----

  /** A new task, one killed while planning, and one killed while running are taken up without an illegal move. */
  lemma EarlyCrashesAreLegal(s: Surroundings, e: Employee, task: Task)
    requires CrashPoint(task) && !IsTerminal(task.status)
    requires SavedStage(task) == STAGE_PLANNING || task.status == RUNNING
    ensures !Session(s, e, task).end.Illegal?
  {
    hide Stages, Loop;
    LoadedStage(task);
    IllegalIffBlocked(s, e, 0, task, LoadRunState(task.state).value);
  }

  /** What the first execution of a resumed process does. */
  ghost function FirstExecution(s: Surroundings, e: Employee, task: Task): Ran
    requires Readable(task)
  {
    Loop(e, s.world(0), LoadRunState(task.state).value.transcript)
  }

  /** A task killed while a question was open, while its result was being checked, or just after it was sent back, ends
      at an illegal move if and only if its first execution finishes, uncancelled, without asking anybody. */
  lemma LateCrashesAreLegalIffAsked(s: Surroundings, e: Employee, task: Task)
    requires CrashPoint(task) && !IsTerminal(task.status)
    requires SavedStage(task) == STAGE_EXECUTING && task.status != RUNNING
    ensures Session(s, e, task).end.Illegal? <==> FinishesUnasked(FirstExecution(s, e, task))
  {
    hide Stages, Loop;
    LoadedStage(task);
    IllegalIffBlocked(s, e, 0, task, LoadRunState(task.state).value);
  }

  /** Without a question such a task never completes: it is cancelled, or it stops unfinished - at an illegal move or at
      an exception - for somebody else to mark as failed. */
  lemma UnaskedResumesNeverComplete(s: Surroundings, e: Employee, task: Task)
    requires CrashPoint(task) && !IsTerminal(task.status)
    requires SavedStage(task) == STAGE_EXECUTING && task.status != RUNNING
    requires Told(WAITING_FOR_APPROVAL) !in FirstExecution(s, e, task).acts
    ensures var r := Session(s, e, task);
            if r.end.Returned? then StatusAfter(task.status, r.log) == CANCELLED
            else !IsTerminal(StatusAfter(task.status, r.log))
  {
    hide Stages, Loop, Execute, Runs, Rulings, StatusAfter, Follows;
    LoadedStage(task);
    var state := LoadRunState(task.state).value;
    var run := FirstExecution(s, e, task);
    LateCrashesAreLegalIffAsked(s, e, task);
    var end := ReturnsIffTerminal(s, e, 0, task, state);
    FollowsToStatusAfter(task.status, Session(s, e, task).log, end);
    StagesStep(s, e, 0, task, state);
    ExecutionIsDecided(s, e, 0, task, state);
    StageMoves(s, e, 0, task, state);
    var stage := Execute(s, e, 0, task, state);
    if stage.moved.Moved? {
      StagesEnd(s, e, 0, task, state);
      if stage.moved.state.stage == STAGE_DONE {
        StagesDone(s, e, 1, stage.moved.task, stage.moved.state);
        assert stage.log + [] == stage.log;
      }
    }
  }

  /** After a question it can: the gate sets the status to RUNNING when the question is closed, and from there the
      verdict is legal again. */
  lemma AnAnsweredQuestionUnblocks(s: Surroundings, e: Employee, task: Task)
    requires CrashPoint(task) && !IsTerminal(task.status) && SavedStage(task) == STAGE_EXECUTING
    requires var run := FirstExecution(s, e, task);
             && Told(WAITING_FOR_APPROVAL) in run.acts && run.end.Finished? && !run.end.outcome.cancelled
             && !Blank(run.end.outcome.answer)
    requires s.opinion(0).Opinion? && s.opinion(0).passed
    ensures Session(s, e, task).end.Returned? && StatusAfter(task.status, Session(s, e, task).log) == COMPLETED
  {
    hide Stages, Loop, KeepAll, Runs, Rulings, StatusAfter, Follows, LoadRunState;
    LoadedStage(task);
    var state := LoadRunState(task.state).value;
    var run := FirstExecution(s, e, task);
    StagesStep(s, e, 0, task, state);
    ExecutionIsDecided(s, e, 0, task, state);
    var start := Kept([Execution(run)], task, state);
    StatusAfterExecution(e, s.world(0), state.transcript, start);
    var stage := Execute(s, e, 0, task, state);
    StagesEnd(s, e, 0, task, state);
    StagesDone(s, e, 1, stage.moved.task, stage.moved.state);
    assert stage.log + [] == stage.log;
  }

  // ----- A new task -----

  /** The run of a new task, start to end: its events lead from CREATED along the table and no move is refused; it
      returns exactly when they end in a terminal status, and that event is the last and the only one of its kind; it
      has at most MAX_ATTEMPTS executions, all but the last rejected; it completes exactly when its last verdict passes;
      it begins at most MAX_ATTEMPTS times the step limit of model calls, each below the cap, and however it ends it
      costs less than the cap plus the dearest call, unless it costs nothing; and when it returns without having been
      cancelled, its last row says what all of it cost. */
  lemma NewTaskRuns(s: Surroundings, e: Employee, most: real) returns (end: TaskStatus)
    ensures var r := Session(s, e, NEW_TASK); var events, runs, rulings := Events(r.log), Runs(r.log), Rulings(r.log);
            && IsPath(CREATED, events, end)
            && !r.end.Illegal?
            && (r.end.Returned? <==> IsTerminal(end))
            && (r.end.Returned? ==>
                  && events != [] && events[|events| - 1].to == end
                  && (forall j: nat :: j < |events| && IsTerminal(events[j].to) ==> j == |events| - 1)
                  && runs != [] && end == ConclusionOf(runs, rulings))
            && WellJudged(runs, rulings) && |runs| <= MAX_ATTEMPTS
            && LedgerOf(ActsOf(runs)).begun <= MAX_ATTEMPTS * StepsLeft(e, 0)
            && AskedBelow(ActsOf(runs), e.limits.maxCost)
            && (r.end.Returned? && end != CANCELLED ==>
                  LastRow(NEW_TASK, r.log).cost == LedgerOf(ActsOf(runs)).spent)
            && (PaidAtMost(ActsOf(runs), most) ==>
                  LedgerOf(ActsOf(runs)).spent == 0.0 || LedgerOf(ActsOf(runs)).spent < e.limits.maxCost + most)
  {
    hide Stages, Loop, Follows, IsPath, Runs, Rulings, StatusAfter, LedgerOf, ActsOf, LastRow, StepsLeft, WellJudged;
    NothingSavedIsAFreshRun();
    var state := RunState(STAGE_PLANNING, EMPTY_TRANSCRIPT, 1, []);
    var r := Stages(s, e, 0, NEW_TASK, state);
    IllegalIffBlocked(s, e, 0, NEW_TASK, state);
    end := ReturnsIffTerminal(s, e, 0, NEW_TASK, state);
    FollowsIsPath(CREATED, r.log, end);
    FollowsToStatusAfter(CREATED, r.log, end);
    RunIsDecided(s, e, 0, NEW_TASK, state);
    RunStaysInBudget(s, e, 0, NEW_TASK, state, most);
  }

  // ----- A run that leaves every kind of row behind -----

  const MAIL := ToolSpec("mail", SEND, HIGH, false)

  /** Somebody who may mail, for two more steps. */
  function Sender(steps: int, cost: real): Employee {
    Employee([MAIL], {}, Limits(steps + 2, cost + 2.0, 60.0), true)
  }

  /** At step `n` the model sends a mail, which somebody approves; otherwise it says it is done. */
  function OneMail(n: int, t: Transcript): Reply {
    if t.steps == n then Reply("", [ToolCall("1", "mail", map[])], 1.0) else Reply("done", [], 1.0)
  }

  function MailWorld(n: int): World {
    World(t => false, t => 0.0, (t, offered) => OneMail(n, t), (t, name) => Some(MAIL), (t, call) => NoJudgement,
          (t, call) => Answered(APPROVED), (t, call) => ToolResult(true, "sent", ""))
  }

  /** The verdict on stage 1 is a rejection, every other one passes. */
  function MailSurroundings(n: int): Surroundings {
    Surroundings(k => Unplannable, k => "", (k, plan, feedback) => "", k => MailWorld(n),
                 k => if k == 1 then Opinion(false, "send it again", []) else Opinion(true, "", []))
  }

  lemma {:induction false} NoPolicyNoOpinion(names: seq<string>, rules: Rules)
    ensures Opinions(names, {}, rules) == []
  {
    if names == [] {
    } else {
      NoPolicyNoOpinion(names[1..], rules);
    }
  }

  /** The gate asks about the mail, and it is approved. */
  lemma MailIsAsked(n: int, steps: int, cost: real, t: Transcript, call: ToolCall)
    ensures Check(Sender(steps, cost), MailWorld(n), t, call, MAIL) ==
            Checked(Allowed, [Decided("mail", REQUIRE_APPROVAL), Told(WAITING_FOR_APPROVAL), Heard("mail", APPROVED),
                              Told(RUNNING)])
  {
    var request := RequestFor(Sender(steps, cost), MAIL, None);
    var rules, threshold := name => Decide(name, request.call), Threshold(request.call);
    NoPolicyNoOpinion(CATALOG, rules);
    assert Opinions(CATALOG, request.policies, rules) + [threshold] == [threshold];
  }

  /** The execution asks once, and finishes. */
  lemma MailRun(t: Transcript)
    ensures var run := Loop(Sender(t.steps, t.cost), MailWorld(t.steps), t);
            && |run.acts| >= 6 && run.acts[0].Asked? && run.acts[1].Paid? && run.acts[2].Decided?
            && run.acts[3] == Told(WAITING_FOR_APPROVAL)
            && run.end.Finished? && !run.end.outcome.cancelled && run.end.outcome.answer == "done"
            && run.end.outcome.stoppedBy.None?
  {
    hide Loop, Withheld, Offered, NamesOf, BestAnswer, Check, Summary, Refusals.Refusals;
    var e, w := Sender(t.steps, t.cost), MailWorld(t.steps);
    LoopStep(e, w, t);
    var call := ToolCall("1", "mail", map[]);
    var reply := OneMail(t.steps, t);
    var said := AfterReply(t, reply).WithMessage(AssistantMessage("", [call]));
    MailIsAsked(t.steps, t.steps, t.cost, said, call);
    var one := Invoke(e, w, said, call);
    BatchGoesOn(e, w, said, [call]);
    var next := AfterCall(said, call, one.outcome);
    NoCallsLeft(e, w, next);
    assert [call][1..] == [];
    LoopStep(e, w, next);
  }

  /** Some row of the log is unfinished with this status beside this stage. */
  ghost predicate LeavesBehind(log: seq<Entry>, status: TaskStatus, stage: string) {
    exists k :: 0 <= k < |log| && log[k].Row? && log[k].task.status == status && SavedStage(log[k].task) == stage
  }

  lemma LeftInEither(a: seq<Entry>, b: seq<Entry>, status: TaskStatus, stage: string)
    requires LeavesBehind(a, status, stage) || LeavesBehind(b, status, stage)
    ensures LeavesBehind(a + b, status, stage)
  {
    if LeavesBehind(a, status, stage) {
      var k :| 0 <= k < |a| && a[k].Row? && a[k].task.status == status && SavedStage(a[k].task) == stage;
      assert (a + b)[k] == a[k];
    } else {
      var k :| 0 <= k < |b| && b[k].Row? && b[k].task.status == status && SavedStage(b[k].task) == stage;
      assert (a + b)[|a| + k] == b[k];
    }
  }

  lemma {:induction false} KeptSoFar(kept: Kept, acts: seq<Act>, i: nat)
    requires i <= |acts|
    ensures KeepAll(kept, acts[..i]).log <= KeepAll(kept, acts).log
  {
    if i < |acts| {
      var before := acts[..|acts| - 1];
      KeptSoFar(kept, before, i);
      assert before[..i] == acts[..i];
    } else {
      assert acts[..i] == acts;
    }
  }

  /** A question found the task running. */
  lemma WaitingIsSaved(kept: Kept, acts: seq<Act>)
    requires kept.task.status == RUNNING && |acts| >= 4
    requires acts[0].Asked? && acts[1].Paid? && acts[2].Decided? && acts[3] == Told(WAITING_FOR_APPROVAL)
    ensures LeavesBehind(KeepAll(kept, acts).log, WAITING_FOR_APPROVAL, SavedStage(kept.task))
  {
    hide SavedStage;
    var quiet, asked := acts[..3], acts[..4];
    assert quiet[..2][..1][..0] == [] && quiet[..2][..1] == [acts[0]] && quiet[..2] == [acts[0], acts[1]];
    assert asked[..3] == quiet;
    assert KeepAll(kept, [acts[0]]) == kept by { assert [acts[0]][..0] == []; }
    assert KeepAll(kept, quiet[..2]) == kept;
    assert KeepAll(kept, quiet) == kept;
    var row := Row(kept.task.(status := WAITING_FOR_APPROVAL), Some(TaskEvent(RUNNING, WAITING_FOR_APPROVAL)));
    assert KeepAll(kept, asked).log == kept.log + [row];
    KeptSoFar(kept, acts, 4);
    assert KeepAll(kept, acts).log[|kept.log|] == row;
    assert SavedStage(row.task) == SavedStage(kept.task) by { SameStage(kept.task, WAITING_FOR_APPROVAL); }
  }

  lemma SameStage(task: Task, status: TaskStatus)
    ensures SavedStage(task.(status := status)) == SavedStage(task)
  {
  }

  /** Each of the six pairs is really found on disk: a new task is the first, and a run of it leaves the others. */
  lemma EveryPairIsLeftBehind()
    ensures NEW_TASK.status == CREATED && SavedStage(NEW_TASK) == STAGE_PLANNING
    ensures var log := Session(MailSurroundings(0), Sender(0, 0.0), NEW_TASK).log;
            && LeavesBehind(log, PLANNING, STAGE_PLANNING) && LeavesBehind(log, RUNNING, STAGE_EXECUTING)
            && LeavesBehind(log, WAITING_FOR_APPROVAL, STAGE_EXECUTING)
            && LeavesBehind(log, VERIFYING, STAGE_EXECUTING) && LeavesBehind(log, PLANNING, STAGE_EXECUTING)
  {
    hide Stages, Loop, KeepAll, LeavesBehind, Execute, SaveRunState;
    var s, e := MailSurroundings(0), Sender(0, 0.0);
    NothingSavedIsAFreshRun();
    var initial := RunState(STAGE_PLANNING, EMPTY_TRANSCRIPT, 1, []);
    StagesStep(s, e, 0, NEW_TASK, initial);
    var planned := OneStage(s, e, 0, NEW_TASK, initial);
    var begun := initial.(stage := STAGE_EXECUTING, transcript := OpeningTranscript(s, 0, None, initial));
    SavedAs(begun);
    SavedIsReadable(begun);
    var task := planned.moved.task;
    assert planned.log[0].Row? && planned.log[1].Row?;
    PlannedLeavesTwo(planned.log);
    StagesStep(s, e, 1, task, begun);
    var executed := Execute(s, e, 1, task, begun);
    ExecutedLeavesThree(task, begun);
    var rest := Stages(s, e, 1, task, begun).log;
    forall status, stage | LeavesBehind(executed.log, status, stage)
      ensures LeavesBehind(planned.log + rest, status, stage)
    {
      if executed.moved.Moved? {
        LeftInEither(executed.log, Stages(s, e, 2, executed.moved.task, executed.moved.state).log, status, stage);
      }
      LeftInEither(planned.log, rest, status, stage);
    }
    LeftInEither(planned.log, rest, PLANNING, STAGE_PLANNING);
    LeftInEither(planned.log, rest, RUNNING, STAGE_EXECUTING);
  }

  lemma PlannedLeavesTwo(log: seq<Entry>)
    requires |log| == 2 && log[0].Row? && log[1].Row?
    requires log[0].task.status == PLANNING && SavedStage(log[0].task) == STAGE_PLANNING
    requires log[1].task.status == RUNNING && SavedStage(log[1].task) == STAGE_EXECUTING
    ensures LeavesBehind(log, PLANNING, STAGE_PLANNING) && LeavesBehind(log, RUNNING, STAGE_EXECUTING)
  {
  }

  lemma ExecutedLeavesThree(task: Task, state: RunState)
    requires task.status == RUNNING && SavedStage(task) == STAGE_EXECUTING && CrashPoint(task)
    requires state.stage == STAGE_EXECUTING && state.attempt == 1
    requires state.transcript.steps == 0 && state.transcript.cost == 0.0
    ensures var log := Execute(MailSurroundings(0), Sender(0, 0.0), 1, task, state).log;
            && LeavesBehind(log, WAITING_FOR_APPROVAL, STAGE_EXECUTING)
            && LeavesBehind(log, VERIFYING, STAGE_EXECUTING) && LeavesBehind(log, PLANNING, STAGE_EXECUTING)
  {
    hide Loop, KeepAll, LeavesBehind, CrashPoint;
    var s, e := MailSurroundings(0), Sender(0, 0.0);
    var run := Loop(e, s.world(1), state.transcript);
    MailRun(state.transcript);
    var start := Kept([Execution(run)], task, state);
    StatusAfterExecution(e, s.world(1), state.transcript, start);
    KeepingLeavesCrashPoints(start, run.acts);
    KeepingKeepsTheStage(start, run.acts);
    WaitingIsSaved(start, run.acts);
    var kept := KeepAll(start, run.acts);
    var after := kept.state.(transcript := run.end.outcome.transcript, stage := STAGE_VERIFYING);
    var result := ResultOf(run.end.outcome);
    RejectedLeavesTwo(s, kept.task, after, result);
    var verified := Verify(s, 1, kept.task, after, result).log;
    forall status, stage | LeavesBehind(kept.log, status, stage) || LeavesBehind(verified, status, stage)
      ensures LeavesBehind(kept.log + verified, status, stage)
    {
      LeftInEither(kept.log, verified, status, stage);
    }
  }

  lemma RejectedLeavesTwo(s: Surroundings, task: Task, state: RunState, result: TaskResult)
    requires task.status == RUNNING && SavedStage(task) == STAGE_EXECUTING && state.attempt == 1
    requires s.opinion(1).Opinion? && !s.opinion(1).passed && result.stoppedBy.None?
    ensures var log := Verify(s, 1, task, state, result).log;
            LeavesBehind(log, VERIFYING, STAGE_EXECUTING) && LeavesBehind(log, PLANNING, STAGE_EXECUTING)
  {
    var log := Verify(s, 1, task, state, result).log;
    assert |log| == 3 && log[0].Row? && log[2].Row?;
  }
}
