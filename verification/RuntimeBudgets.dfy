/**
 * Executions, verdicts and money over a whole run of a task, retry included
 * (application/employee_runtime/runtime.py, application/employee_runtime/executor.py).
 */
module RuntimeBudgets {
  import opened Wrappers
  import opened Text
  import opened Transcripts
  import opened Tasks
  import opened Worlds
  import opened Executor
  import opened ExecutorRuns
  import opened Runtime
  import opened RuntimeRuns

  // ----- Executions and verdicts -----

  /** The executions of a run, in order. */
  function Runs(log: seq<Entry>): seq<Ran> {
    if log == [] then []
    else
      var last := log[|log| - 1];
      Runs(log[..|log| - 1]) + if last.Execution? then [last.run] else []
  }

  /** The verdicts of a run, in order, each with the summary it was given on. */
  function Rulings(log: seq<Entry>): seq<(string, Verdict)> {
    if log == [] then []
    else
      var last := log[|log| - 1];
      Rulings(log[..|log| - 1]) + if last.Ruling? then [(last.summary, last.verdict)] else []
  }

  /** The status of the last row, or the one the run started with. */
  function StatusAfter(start: TaskStatus, log: seq<Entry>): TaskStatus {
    if log == [] then start
    else if log[|log| - 1].Row? then log[|log| - 1].task.status
    else StatusAfter(start, log[..|log| - 1])
  }

  lemma {:induction false} FollowsToStatusAfter(start: TaskStatus, log: seq<Entry>, end: TaskStatus)
    requires Follows(start, log, end)
    ensures end == StatusAfter(start, log)
    decreases |log|
  {
    if log != [] && !log[|log| - 1].Row? {
      FollowsToStatusAfter(start, log[..|log| - 1], end);
    }
  }

  lemma {:induction false} LogsAppend(start: TaskStatus, a: seq<Entry>, b: seq<Entry>)
    ensures Runs(a + b) == Runs(a) + Runs(b)
    ensures Rulings(a + b) == Rulings(a) + Rulings(b)
    ensures StatusAfter(start, a + b) == StatusAfter(StatusAfter(start, a), b)
    decreases |b|
  {
    hide Runs, Rulings, StatusAfter;
    if b == [] {
      LogsAppendNothing(start, a);
    } else {
      var before, last := b[..|b| - 1], b[|b| - 1];
      LogsAppend(start, a, before);
      assert a + b == a + before + [last] && b == before + [last];
      OneEntryMore(start, a + before, last);
      OneEntryMore(StatusAfter(start, a), before, last);
      Regroup(Runs(a), Runs(before), RunsIn(last));
      Regroup(Rulings(a), Rulings(before), RulingsIn(last));
    }
  }

  lemma LogsAppendNothing(start: TaskStatus, a: seq<Entry>)
    ensures Runs(a + []) == Runs(a) + Runs([])
    ensures Rulings(a + []) == Rulings(a) + Rulings([])
    ensures StatusAfter(start, a + []) == StatusAfter(StatusAfter(start, a), [])
  {
    assert a + [] == a;
  }

  function RunsIn(entry: Entry): seq<Ran> {
    if entry.Execution? then [entry.run] else []
  }

  function RulingsIn(entry: Entry): seq<(string, Verdict)> {
    if entry.Ruling? then [(entry.summary, entry.verdict)] else []
  }

  lemma OneEntryMore(start: TaskStatus, log: seq<Entry>, entry: Entry)
    ensures Runs(log + [entry]) == Runs(log) + RunsIn(entry)
    ensures Rulings(log + [entry]) == Rulings(log) + RulingsIn(entry)
    ensures StatusAfter(start, log + [entry]) == if entry.Row? then entry.task.status else StatusAfter(start, log)
  {
    assert (log + [entry])[..|log|] == log;
  }

  lemma RowsOnly(start: TaskStatus, row: Entry)
    ensures !row.Execution? && !row.Ruling? ==> Runs([row]) == [] && Rulings([row]) == []
    ensures row.Execution? ==> Runs([row]) == [row.run] && Rulings([row]) == []
    ensures row.Ruling? ==> Runs([row]) == [] && Rulings([row]) == [(row.summary, row.verdict)]
    ensures StatusAfter(start, [row]) == if row.Row? then row.task.status else start
  {
    assert [row][..0] == [];
  }

  /** A callback adds one row or nothing. */
  lemma KeepAddsARow(kept: Kept, act: Act)
    ensures var after := Keep(kept, act);
            after.log == kept.log || exists row: Entry :: row.Row? && after.log == kept.log + [row]
  {
    hide SaveRunState;
    var after := Keep(kept, act);
    if after.log != kept.log {
      assert after.log == kept.log + [after.log[|kept.log|]];
    }
  }

  lemma {:induction false} KeepingAddsRows(kept: Kept, acts: seq<Act>)
    ensures var after := KeepAll(kept, acts); Runs(after.log) == Runs(kept.log) && Rulings(after.log) == Rulings(kept.log)
  {
    hide Runs, Rulings, Keep, StatusAfter;
    if acts == [] {
    } else {
      var n := |acts| - 1;
      KeepingAddsRows(kept, acts[..n]);
      var before, after := KeepAll(kept, acts[..n]), KeepAll(kept, acts);
      KeepAddsARow(before, acts[n]);
      if after.log != before.log {
        var row: Entry :| row.Row? && after.log == before.log + [row];
        LogsAppend(CREATED, before.log, [row]);
        RowsOnly(CREATED, row);
      }
    }
  }

  lemma EnterAddsARow(from: TaskStatus, to: TaskStatus, changed: Task, state: RunState)
    ensures var stage := Enter(from, to, changed, state);
            && Runs(stage.log) == [] && Rulings(stage.log) == []
            && StatusAfter(from, stage.log) == if CanTransition(from, to) then to else from
  {
    RowsOnly(from, Row(changed.(status := to), Some(TaskEvent(from, to))));
  }

  lemma PlanningAddsRows(s: Surroundings, k: nat, task: Task, state: RunState)
    ensures var stage := Plan(s, k, task, state);
            && Runs(stage.log) == [] && Rulings(stage.log) == []
            && (stage.moved.Moved? ==> StatusAfter(task.status, stage.log) == stage.moved.task.status)
  {
    hide Runs, Rulings, StatusAfter;
    var planning := s.plan(k);
    NoEntries(task.status);
    NoEntries(PLANNING);
    var plan := if planning.Planned? then Some(planning.plan) else None;
    var begun := state.(stage := STAGE_EXECUTING, transcript := OpeningTranscript(s, k, plan, state));
    EnterAddsARow(PLANNING, RUNNING, task.(status := PLANNING, step := 0, state := SaveRunState(begun)), begun);
    EnterAddsARow(task.status, PLANNING, task, state);
    EnterAddsARow(task.status, RUNNING, task.(step := 0, state := SaveRunState(begun)), begun);
    if task.status != PLANNING && CanTransition(task.status, PLANNING) {
      LogsAppend(task.status, Enter(task.status, PLANNING, task, state).log,
                 Open(s, k, task.(status := PLANNING), state).log);
    }
  }

  lemma NoEntries(start: TaskStatus)
    ensures Runs([]) == [] && Rulings([]) == [] && StatusAfter(start, []) == start
  {
  }

  /** What a verdict does: nothing is ruled on but the answer of the execution before it, and the ruling decides. */
  lemma VerifyDecides(s: Surroundings, k: nat, task: Task, state: RunState, result: TaskResult)
    ensures var stage := Verify(s, k, task, state, result); var verdict := Judge(result, s.opinion(k));
            && Runs(stage.log) == []
            && (Rulings(stage.log) == [] || Rulings(stage.log) == [(result.summary, verdict)])
            && (stage.moved.Moved? ==>
                  && Rulings(stage.log) == [(result.summary, verdict)]
                  && StatusAfter(task.status, stage.log) == stage.moved.task.status
                  && match verdict
                     case NoVerdict(_) => false
                     case Passed => stage.moved.state.stage == STAGE_DONE && stage.moved.task.status == COMPLETED
                     case Rejected(_, _) =>
                       if SendBacksLeft(state) > 0 && result.stoppedBy.None? then
                         stage.moved.state.stage == STAGE_PLANNING && stage.moved.task.status == PLANNING
                         && SendBacksLeft(stage.moved.state) == SendBacksLeft(state) - 1
                       else stage.moved.state.stage == STAGE_DONE && stage.moved.task.status == FAILED)
  {
    hide Runs, Rulings, StatusAfter, Judge;
    EnterAddsARow(task.status, VERIFYING, task, state);
    var entered := Enter(task.status, VERIFYING, task, state);
    if entered.moved.Moved? {
      var checking := entered.moved.task;
      var verdict := Judge(result, s.opinion(k));
      var ruling := Ruling(result.summary, verdict);
      RowsOnly(VERIFYING, ruling);
      LogsAppend(task.status, entered.log, [ruling]);
      var rest := Follow(checking, state, result, verdict);
      LogsAppend(task.status, entered.log + [ruling], rest.log);
      NoEntries(VERIFYING);
      EnterAddsARow(VERIFYING, COMPLETED, checking.(result := Some(result)), state.(stage := STAGE_DONE));
      EnterAddsARow(VERIFYING, FAILED,
                    checking.(error := Some("VerificationFailed"), result := Some(result),
                              attempts := checking.attempts + 1),
                    state.(stage := STAGE_DONE));
      if verdict.Rejected? {
        EnterAddsARow(VERIFYING, PLANNING, checking,
                      state.(stage := STAGE_PLANNING, attempt := state.attempt + 1,
                             feedback := if verdict.missing != [] then verdict.missing else [verdict.reason]));
      }
    }
  }

  /** An execution that may be sent back: it finished of its own accord. */
  ghost predicate Completes(run: Ran) {
    run.end.Finished? && !run.end.outcome.cancelled && run.end.outcome.stoppedBy.None?
  }

  lemma ExecutionIsDecided(s: Surroundings, e: Employee, k: nat, task: Task, state: RunState)
    requires !IsTerminal(task.status)
    ensures var run := Loop(e, s.world(k), state.transcript); var stage := Execute(s, e, k, task, state);
            && Runs(stage.log) == [run]
            && |Rulings(stage.log)| <= 1
            && (Rulings(stage.log) != [] ==>
                  run.end.Finished? && !run.end.outcome.cancelled && Rulings(stage.log)[0].0 == run.end.outcome.answer
                  && (Rulings(stage.log)[0].1.Passed? ==> !Blank(run.end.outcome.answer)))
            && (stage.moved.Moved? ==>
                  && run.end.Finished? && StatusAfter(task.status, stage.log) == stage.moved.task.status
                  && if stage.moved.state.stage == STAGE_DONE then
                       && (Rulings(stage.log) == [] <==> run.end.outcome.cancelled)
                       && stage.moved.task.status ==
                          (if Rulings(stage.log) == [] then CANCELLED
                           else if Rulings(stage.log)[0].1.Passed? then COMPLETED else FAILED)
                       && (Rulings(stage.log) != [] ==> !Rulings(stage.log)[0].1.NoVerdict?)
                     else
                       && stage.moved.state.stage == STAGE_PLANNING && stage.moved.task.status == PLANNING
                       && Completes(run) && Rulings(stage.log) != [] && Rulings(stage.log)[0].1.Rejected?
                       && SendBacksLeft(stage.moved.state) == SendBacksLeft(state) - 1)
  {
    hide Runs, Rulings, StatusAfter, Loop, KeepAll, Verify, Follows;
    var run := Loop(e, s.world(k), state.transcript);
    var start := Kept([Execution(run)], task, state);
    RowsOnly(task.status, Execution(run));
    KeepingAddsRows(start, run.acts);
    KeepingKeepsTheStage(start, run.acts);
    var kept := KeepAll(start, run.acts);
    NothingFollows(Execution(run), task.status);
    KeepFollows(task.status, start, run.acts);
    FollowsToStatusAfter(task.status, kept.log, kept.task.status);
    StatusAfterExecution(e, s.world(k), state.transcript, start);
    if run.end.Finished? {
      var outcome := run.end.outcome;
      var after := kept.state.(transcript := outcome.transcript, stage := STAGE_VERIFYING);
      if outcome.cancelled {
        EnterAddsARow(kept.task.status, CANCELLED, kept.task.(result := Some(ResultOf(outcome))),
                      after.(stage := STAGE_DONE));
        LogsAppend(task.status, kept.log, Cancel(kept.task, after, ResultOf(outcome)).log);
      } else {
        VerifyDecides(s, k, kept.task, after, ResultOf(outcome));
        LogsAppend(task.status, kept.log, Verify(s, k, kept.task, after, ResultOf(outcome)).log);
      }
    }
  }

  /** Every execution but the last finished of its own accord and was rejected; a verdict is on the answer of its
      execution, and passes nothing but an answer that says something. */
  ghost predicate WellJudged(runs: seq<Ran>, rulings: seq<(string, Verdict)>) {
    && |rulings| <= |runs| <= |rulings| + 1
    && (forall i :: 0 <= i < |runs| - 1 ==> Completes(runs[i]) && rulings[i].1.Rejected?)
    && (forall i :: 0 <= i < |rulings| ==>
          && runs[i].end.Finished? && !runs[i].end.outcome.cancelled
          && rulings[i].0 == runs[i].end.outcome.answer
          && (rulings[i].1.Passed? ==> !Blank(rulings[i].0)))
  }

  /** How a run that returned came to its end: cancelled without a verdict, completed by a verdict that passed, or
      failed by one that did not. */
  function ConclusionOf(runs: seq<Ran>, rulings: seq<(string, Verdict)>): TaskStatus {
    if |rulings| < |runs| || rulings == [] then CANCELLED
    else if rulings[|rulings| - 1].1.Passed? then COMPLETED
    else FAILED
  }

  lemma JudgedThen(run: Ran, ruling: (string, Verdict), runs: seq<Ran>, rulings: seq<(string, Verdict)>)
    requires WellJudged(runs, rulings) && Completes(run) && ruling.1.Rejected? && ruling.0 == run.end.outcome.answer
    ensures WellJudged([run] + runs, [ruling] + rulings)
    ensures runs != [] ==> ConclusionOf([run] + runs, [ruling] + rulings) == ConclusionOf(runs, rulings)
  {
    var rs, vs := [run] + runs, [ruling] + rulings;
    forall i | 0 <= i < |rs| - 1 ensures Completes(rs[i]) && vs[i].1.Rejected? {
      if i > 0 {
        assert rs[i] == runs[i - 1] && vs[i] == rulings[i - 1];
      }
    }
    forall i | 0 <= i < |vs|
      ensures rs[i].end.Finished? && !rs[i].end.outcome.cancelled && vs[i].0 == rs[i].end.outcome.answer
              && (vs[i].1.Passed? ==> !Blank(vs[i].0))
    {
      if i > 0 {
        assert rs[i] == runs[i - 1] && vs[i] == rulings[i - 1];
      }
    }
  }

  /** Over a whole run, whatever the verdicts, limits, cancellations and questions: it has at most one execution more
      than it can be sent back, every execution but the last finished of its own accord and was rejected - so a stop by
      a limit is never retried - and when the run returns, its last verdict, or the lack of one, is what the task ends
      as. */
  lemma {:induction false} RunIsDecided(s: Surroundings, e: Employee, k: nat, task: Task, state: RunState)
    requires state.stage != STAGE_DONE && !IsTerminal(task.status)
    ensures var r := Stages(s, e, k, task, state); var runs, rulings := Runs(r.log), Rulings(r.log);
            && WellJudged(runs, rulings)
            && |runs| <= SendBacksLeft(state) + 1
            && (r.end.Returned? ==> runs != [] && StatusAfter(task.status, r.log) == ConclusionOf(runs, rulings))
    decreases SendBacksLeft(state), Distance(state)
  {
    hide OneStage, Stages, Runs, Rulings, StatusAfter, Loop, Blocked;
    var r := Stages(s, e, k, task, state);
    StagesStep(s, e, k, task, state);
    StageMoves(s, e, k, task, state);
    var stage := OneStage(s, e, k, task, state);
    StageIsDecided(s, e, k, task, state);
    if stage.moved.Moved? {
      StagesEnd(s, e, k, task, state);
      var rest := Stages(s, e, k + 1, stage.moved.task, stage.moved.state);
      LogsAppend(task.status, stage.log, rest.log);
      if stage.moved.state.stage == STAGE_DONE {
        StagesDone(s, e, k + 1, stage.moved.task, stage.moved.state);
        NoEntries(stage.moved.task.status);
        assert r.log == stage.log;
      } else {
        RunIsDecided(s, e, k + 1, stage.moved.task, stage.moved.state);
        if state.stage == STAGE_EXECUTING {
          var run := Loop(e, s.world(k), state.transcript);
          JudgedThen(run, Rulings(stage.log)[0], Runs(rest.log), Rulings(rest.log));
          assert Rulings(stage.log) == [Rulings(stage.log)[0]];
        } else {
          assert [] + Runs(rest.log) == Runs(rest.log) && [] + Rulings(rest.log) == Rulings(rest.log);
        }
      }
    }
  }

  lemma StageIsDecided(s: Surroundings, e: Employee, k: nat, task: Task, state: RunState)
    requires state.stage != STAGE_DONE && !IsTerminal(task.status)
    ensures var stage := OneStage(s, e, k, task, state);
            if state.stage == STAGE_EXECUTING then stage == Execute(s, e, k, task, state)
            else
              && Runs(stage.log) == [] && Rulings(stage.log) == []
              && (stage.moved.Moved? ==>
                    && stage.moved.state.stage != STAGE_DONE
                    && SendBacksLeft(stage.moved.state) == SendBacksLeft(state)
                    && StatusAfter(task.status, stage.log) == stage.moved.task.status)
    ensures state.stage == STAGE_EXECUTING ==>
            var run := Loop(e, s.world(k), state.transcript); var stage := OneStage(s, e, k, task, state);
            && Runs(stage.log) == [run] && |Rulings(stage.log)| <= 1
            && WellJudged(Runs(stage.log), Rulings(stage.log))
            && (stage.moved.Moved? ==>
                  && StatusAfter(task.status, stage.log) == stage.moved.task.status
                  && if stage.moved.state.stage == STAGE_DONE then
                       stage.moved.task.status == ConclusionOf(Runs(stage.log), Rulings(stage.log))
                     else
                       && Completes(run) && Rulings(stage.log) != [] && Rulings(stage.log)[0].1.Rejected?
                       && Rulings(stage.log)[0].0 == run.end.outcome.answer
                       && SendBacksLeft(stage.moved.state) == SendBacksLeft(state) - 1)
  {
    hide Runs, Rulings, StatusAfter, Loop, Execute;
    if state.stage == STAGE_EXECUTING {
      ExecutionIsDecided(s, e, k, task, state);
    } else {
      PlanningAddsRows(s, k, task, state);
      NoEntries(task.status);
    }
  }

  // ----- Model calls and money -----

  /** Everything the executions of a run did. */
  function ActsOf(runs: seq<Ran>): seq<Act> {
    if runs == [] then [] else ActsOf(runs[..|runs| - 1]) + runs[|runs| - 1].acts
  }

  lemma ActsOfOneMore(a: seq<Ran>, run: Ran)
    ensures ActsOf(a + [run]) == ActsOf(a) + run.acts
  {
    assert (a + [run])[..|a|] == a;
  }

  lemma {:induction false} ActsOfBoth(a: seq<Ran>, b: seq<Ran>)
    ensures ActsOf(a + b) == ActsOf(a) + ActsOf(b)
  {
    hide ActsOf;
    if b == [] {
      NoActs();
      assert a + b == a && ActsOf(a) + [] == ActsOf(a);
    } else {
      var before, last := b[..|b| - 1], b[|b| - 1];
      ActsOfBoth(a, before);
      ActsOfOneMore(a + before, last);
      ActsOfOneMore(before, last);
      assert b == before + [last] && a + b == a + before + [last];
      Regroup(ActsOf(a), ActsOf(before), last.acts);
    }
  }

  lemma ActsOfOne(run: Ran)
    ensures ActsOf([run]) == run.acts && ActsOf([]) == []
  {
    assert [run][..0] == [];
  }

  /** Steps left to a transcript. */
  function StepsLeft(e: Employee, steps: int): nat {
    if steps < e.limits.maxSteps then e.limits.maxSteps - steps else 0
  }

  /** How many model calls a run may still begin: the rest of the execution under way, and a full one for every
      execution that can still follow. */
  function Allowance(e: Employee, state: RunState): nat {
    if state.stage == STAGE_DONE then 0
    else if state.stage == STAGE_EXECUTING then
      StepsLeft(e, state.transcript.steps) + SendBacksLeft(state) * StepsLeft(e, 0)
    else (SendBacksLeft(state) + 1) * StepsLeft(e, 0)
  }

  /** After a stage the books agree: what was spent is what the state has grown by, and the row says the same. */
  ghost predicate Balanced(e: Employee, task: Task, state: RunState, stage: Stage) {
    var l := LedgerOf(ActsOf(Runs(stage.log)));
    && AskedBelow(ActsOf(Runs(stage.log)), e.limits.maxCost)
    && (stage.moved.Moved? ==>
          && l.begun + Allowance(e, stage.moved.state) <= Allowance(e, state)
          && stage.moved.state.transcript.cost == state.transcript.cost + l.spent
          && (stage.moved.task.status != CANCELLED && task.cost == state.transcript.cost ==>
                stage.moved.task.cost == stage.moved.state.transcript.cost))
    && (stage.moved.Stopped? ==> l.begun <= Allowance(e, state))
    && forall most :: PaidAtMost(ActsOf(Runs(stage.log)), most) ==> OneCallOver(e, state.transcript.cost, l, most)
  }

  /** Nothing was spent, or what was spent before and since is below the cap plus the dearest call. */
  ghost predicate OneCallOver(e: Employee, before: real, l: Ledger, most: real) {
    l.spent == 0.0 || before + l.spent < e.limits.maxCost + most
  }

  /** What the last saved step costs, or what there was before. */
  function LastSavedCost(before: real, acts: seq<Act>): real {
    if acts == [] then before
    else if acts[|acts| - 1].Saved? then acts[|acts| - 1].transcript.cost
    else LastSavedCost(before, acts[..|acts| - 1])
  }

  lemma {:induction false} RowsCostTheLastStep(kept: Kept, acts: seq<Act>)
    ensures KeepAll(kept, acts).task.cost == LastSavedCost(kept.task.cost, acts)
  {
    if acts == [] {
    } else {
      RowsCostTheLastStep(kept, acts[..|acts| - 1]);
    }
  }

  lemma {:induction false} LastSavedAppend(before: real, a: seq<Act>, b: seq<Act>)
    ensures LastSavedCost(before, a + b) == LastSavedCost(LastSavedCost(before, a), b)
    decreases |b|
  {
    if b == [] {
      assert a + b == a;
    } else {
      var n := |b| - 1;
      LastSavedAppend(before, a, b[..n]);
      assert (a + b)[..|a + b| - 1] == a + b[..n] && (a + b)[|a + b| - 1] == b[n];
    }
  }

  lemma TurnSavesItsCost(e: Employee, w: World, t: Transcript)
    ensures var turn := Turn(e, w, t);
            && (turn.next.Continue? ==> LastSavedCost(t.cost, turn.acts) == turn.next.transcript.cost)
            && (turn.next.Halt? && turn.next.end.Finished? && !turn.next.end.outcome.cancelled ==>
                  LastSavedCost(t.cost, turn.acts) == turn.next.end.outcome.transcript.cost)
  {
    hide RunCalls, BestAnswer, OfferedIn;
    ContinuingOrAnswering(e, w, t);
  }

  lemma ContinuingOrAnswering(e: Employee, w: World, t: Transcript)
    ensures var turn := Turn(e, w, t);
            && (turn.next.Continue? ==> turn.acts != [] && turn.acts[|turn.acts| - 1] == Saved(turn.next.transcript))
            && (turn.next.Halt? && turn.next.end.Finished? && !turn.next.end.outcome.cancelled ==>
                  if turn.acts == [] then turn.next.end.outcome.transcript == t
                  else turn.acts[|turn.acts| - 1] == Saved(turn.next.end.outcome.transcript))
  {
    hide RunCalls, BestAnswer, OfferedIn;
  }

  /** Unless it is cancelled, a run that finishes has saved everything it paid for. */
  lemma {:induction false} FinishedRunsSaveTheirCost(e: Employee, w: World, t: Transcript)
    ensures var r := Loop(e, w, t);
            r.end.Finished? && !r.end.outcome.cancelled ==>
              LastSavedCost(t.cost, r.acts) == r.end.outcome.transcript.cost
    decreases e.limits.maxSteps - t.steps
  {
    hide Turn, Loop, LastSavedCost;
    LoopStep(e, w, t);
    TurnSavesItsCost(e, w, t);
    var turn := Turn(e, w, t);
    if turn.next.Continue? {
      var rest := Loop(e, w, turn.next.transcript);
      FinishedRunsSaveTheirCost(e, w, turn.next.transcript);
      LastSavedAppend(t.cost, turn.acts, rest.acts);
    }
  }

  lemma OneAttemptLess(e: Employee, left: nat)
    requires left > 0
    ensures (left - 1 + 1) * StepsLeft(e, 0) == left * StepsLeft(e, 0)
  {
  }

  lemma ExecutionBalances(s: Surroundings, e: Employee, k: nat, task: Task, state: RunState)
    requires state.stage == STAGE_EXECUTING && !IsTerminal(task.status)
    ensures Balanced(e, task, state, Execute(s, e, k, task, state))
  {
    hide Loop, KeepAll, Verify, Runs, Rulings, LedgerOf, ActsOf, StatusAfter, StepsLeft, LastSavedCost;
    var run := Loop(e, s.world(k), state.transcript);
    ExecutionIsDecided(s, e, k, task, state);
    ActsOfOne(run);
    ExecutionLedger(e, s.world(k), state.transcript);
    var start := Kept([Execution(run)], task, state);
    RowsCostTheLastStep(start, run.acts);
    FinishedRunsSaveTheirCost(e, s.world(k), state.transcript);
    var kept := KeepAll(start, run.acts);
    if run.end.Finished? {
      var after := kept.state.(transcript := run.end.outcome.transcript, stage := STAGE_VERIFYING);
      VerifyKeepsTheBooks(s, k, kept.task, after, ResultOf(run.end.outcome));
    }
    if SendBacksLeft(state) > 0 {
      OneAttemptLess(e, SendBacksLeft(state));
    }
    assert SendBacksLeft(state) * StepsLeft(e, 0) >= 0;
  }

  /** The bound of one execution, in terms of the steps left to it. */
  lemma ExecutionLedger(e: Employee, w: World, t: Transcript)
    ensures var r := Loop(e, w, t); var l := LedgerOf(r.acts);
            && l.begun <= StepsLeft(e, t.steps)
            && AskedBelow(r.acts, e.limits.maxCost)
            && (r.end.Finished? ==> r.end.outcome.transcript.cost == t.cost + l.spent)
            && forall most :: PaidAtMost(r.acts, most) ==> OneCallOver(e, t.cost, l, most)
  {
    hide Loop, LedgerOf;
    RunKeepsItsBudget(e, w, t, 0.0);
    forall most | PaidAtMost(Loop(e, w, t).acts, most)
      ensures OneCallOver(e, t.cost, LedgerOf(Loop(e, w, t).acts), most)
    {
      RunKeepsItsBudget(e, w, t, most);
    }
  }

  lemma VerifyKeepsTheBooks(s: Surroundings, k: nat, task: Task, state: RunState, result: TaskResult)
    ensures var moved := Verify(s, k, task, state, result).moved;
            moved.Moved? ==> moved.task.cost == task.cost && moved.state.transcript == state.transcript
  {
    hide Judge;
  }

  lemma PlanningBalances(s: Surroundings, e: Employee, k: nat, task: Task, state: RunState)
    requires state.stage != STAGE_EXECUTING && state.stage != STAGE_DONE
    ensures Balanced(e, task, state, OneStage(s, e, k, task, state))
  {
    hide Runs, Rulings, StatusAfter, LedgerOf, SaveRunState, ActsOf, StepsLeft;
    PlanningAddsRows(s, k, task, state);
    NoEntries(task.status);
    assert ActsOf([]) == [] by { NoActs(); }
    assert LedgerOf([]) == Ledger(0, 0, 0.0) by { EmptyLedger(); }
    MoreSendBacks(SendBacksLeft(state), StepsLeft(e, 0));
  }

  lemma MoreSendBacks(n: nat, m: nat)
    ensures (n + 1) * m == m + n * m
  {
  }

  lemma NoActs()
    ensures ActsOf([]) == []
  {
  }

  lemma EmptyLedger()
    ensures LedgerOf([]) == Ledger(0, 0, 0.0)
  {
  }

  /** The row a run leaves last. */
  function LastRow(start: Task, log: seq<Entry>): Task {
    if log == [] then start
    else if log[|log| - 1].Row? then log[|log| - 1].task
    else LastRow(start, log[..|log| - 1])
  }

  lemma {:induction false} LastRowAppend(start: Task, a: seq<Entry>, b: seq<Entry>)
    ensures LastRow(start, a + b) == LastRow(LastRow(start, a), b)
    decreases |b|
  {
    if b == [] {
      assert a + b == a;
    } else {
      var n := |b| - 1;
      LastRowAppend(start, a, b[..n]);
      assert (a + b)[..|a + b| - 1] == a + b[..n] && (a + b)[|a + b| - 1] == b[n];
    }
  }

  lemma {:induction false} KeepingSavesTheTask(start: Task, kept: Kept, acts: seq<Act>)
    requires LastRow(start, kept.log) == kept.task
    ensures LastRow(start, KeepAll(kept, acts).log) == KeepAll(kept, acts).task
  {
    if acts == [] {
    } else {
      var n := |acts| - 1;
      KeepingSavesTheTask(start, kept, acts[..n]);
      var before, after := KeepAll(kept, acts[..n]), KeepAll(kept, acts);
      if after.log != before.log {
        assert after.log[..|after.log| - 1] == before.log;
      }
    }
  }

  /** What a stage moves on with is what it saved last. */
  lemma StageSavesTheTask(s: Surroundings, e: Employee, k: nat, task: Task, state: RunState)
    ensures var stage := OneStage(s, e, k, task, state);
            stage.moved.Moved? ==> LastRow(task, stage.log) == stage.moved.task
  {
    hide Loop, KeepAll, Judge, LastRow;
    assert LastRow(task, []) == task by { NoRows(task); }
    if state.stage == STAGE_EXECUTING {
      var run := Loop(e, s.world(k), state.transcript);
      var start := Kept([Execution(run)], task, state);
      NoRowIn(task, Execution(run));
      KeepingSavesTheTask(task, start, run.acts);
      var kept := KeepAll(start, run.acts);
      if run.end.Finished? {
        var outcome := run.end.outcome;
        var after := kept.state.(transcript := outcome.transcript, stage := STAGE_VERIFYING);
        if outcome.cancelled {
          EndsWithItsRow(task, kept.log, Cancel(kept.task, after, ResultOf(outcome)));
        } else {
          EndsWithItsRow(task, kept.log, Verify(s, k, kept.task, after, ResultOf(outcome)));
        }
      }
    } else if state.stage == STAGE_PLANNING {
      EndsWithItsRow(task, [], Plan(s, k, task, state));
      assert [] + Plan(s, k, task, state).log == Plan(s, k, task, state).log;
    }
  }

  lemma NoRows(start: Task)
    ensures LastRow(start, []) == start
  {
  }

  lemma NoRowIn(start: Task, entry: Entry)
    requires !entry.Row?
    ensures LastRow(start, [entry]) == start
  {
    assert [entry][..0] == [];
  }

  lemma EndsWithItsRow(start: Task, before: seq<Entry>, stage: Stage)
    requires stage.moved.Moved? ==> stage.log != [] && stage.log[|stage.log| - 1].Row?
                                    && stage.log[|stage.log| - 1].task == stage.moved.task
    ensures stage.moved.Moved? ==> LastRow(start, before + stage.log) == stage.moved.task
  {
  }

  /** Over a whole run: at most `Allowance` model calls are begun - for a new task, MAX_ATTEMPTS times the step limit -
      each while less than the cap is spent; however the run ends, all of it cost less than the cap plus the dearest
      call, unless nothing was spent; and if it returns without having been cancelled, the last row costs what the task
      cost before and everything paid since. */
  lemma {:induction false} RunStaysInBudget(
      s: Surroundings, e: Employee, k: nat, task: Task, state: RunState, most: real)
    requires state.stage != STAGE_DONE && !IsTerminal(task.status)
    ensures var r := Stages(s, e, k, task, state); var acts := ActsOf(Runs(r.log));
            && LedgerOf(acts).begun <= Allowance(e, state)
            && AskedBelow(acts, e.limits.maxCost)
            && (r.end.Returned? && StatusAfter(task.status, r.log) != CANCELLED && task.cost == state.transcript.cost ==>
                  LastRow(task, r.log).cost == task.cost + LedgerOf(acts).spent)
            && (PaidAtMost(acts, most) ==> OneCallOver(e, state.transcript.cost, LedgerOf(acts), most))
    decreases SendBacksLeft(state), Distance(state)
  {
    hide *;
    var r := Stages(s, e, k, task, state);
    StagesStep(s, e, k, task, state);
    StageStays(s, e, k, task, state);
    StageBalances(s, e, k, task, state);
    StageSavesTheTask(s, e, k, task, state);
    var stage := OneStage(s, e, k, task, state);
    var a := ActsOf(Runs(stage.log));
    if stage.moved.Moved? {
      StagesEnd(s, e, k, task, state);
      var rest := Stages(s, e, k + 1, stage.moved.task, stage.moved.state);
      var b := ActsOf(Runs(rest.log));
      LogsAppend(task.status, stage.log, rest.log);
      LastRowAppend(task, stage.log, rest.log);
      ActsOfBoth(Runs(stage.log), Runs(rest.log));
      if stage.moved.state.stage == STAGE_DONE {
        StagesDone(s, e, k + 1, stage.moved.task, stage.moved.state);
        assert r.log == stage.log;
        StageIsAll(e, task, state, stage, most);
      } else {
        RunStaysInBudget(s, e, k + 1, stage.moved.task, stage.moved.state, most);
        StageThenRest(e, task, state, stage, a, b, most);
      }
    } else {
      StageIsAll(e, task, state, stage, most);
    }
  }

  /** What a stage that moves on leaves: its task is finished exactly when the run is, and was saved with this status. */
  lemma StageStays(s: Surroundings, e: Employee, k: nat, task: Task, state: RunState)
    requires state.stage != STAGE_DONE && !IsTerminal(task.status)
    ensures var stage := OneStage(s, e, k, task, state);
            && (stage.moved.Stopped? ==> !stage.moved.end.Returned?)
            && (stage.moved.Moved? ==>
                  && StatusAfter(task.status, stage.log) == stage.moved.task.status
                  && (stage.moved.state.stage != STAGE_DONE ==>
                        !IsTerminal(stage.moved.task.status) && stage.moved.task.status != CANCELLED))
  {
    hide OneStage, Loop, StatusAfter, Runs, Rulings, Execute, Blocked;
    StageMoves(s, e, k, task, state);
    StageIsDecided(s, e, k, task, state);
  }

  lemma StageIsAll(e: Employee, task: Task, state: RunState, stage: Stage, most: real)
    requires Balanced(e, task, state, stage)
    ensures var acts := ActsOf(Runs(stage.log));
            && LedgerOf(acts).begun <= Allowance(e, state) && AskedBelow(acts, e.limits.maxCost)
            && (stage.moved.Moved? && stage.moved.task.status != CANCELLED && task.cost == state.transcript.cost ==>
                  stage.moved.task.cost == task.cost + LedgerOf(acts).spent)
            && (PaidAtMost(acts, most) ==> OneCallOver(e, state.transcript.cost, LedgerOf(acts), most))
  {
    hide LedgerOf, ActsOf, Runs, AskedBelow, PaidAtMost, Allowance;
  }

  /** The books of a stage and those of the run after it add up. */
  lemma StageThenRest(
      e: Employee, task: Task, state: RunState, stage: Stage, a: seq<Act>, b: seq<Act>, most: real)
    requires Balanced(e, task, state, stage) && stage.moved.Moved? && a == ActsOf(Runs(stage.log))
    requires LedgerOf(b).begun <= Allowance(e, stage.moved.state) && AskedBelow(b, e.limits.maxCost)
    ensures LedgerOf(a + b).begun <= Allowance(e, state) && AskedBelow(a + b, e.limits.maxCost)
    ensures stage.moved.state.transcript.cost + LedgerOf(b).spent == state.transcript.cost + LedgerOf(a + b).spent
    ensures stage.moved.task.status != CANCELLED && task.cost == state.transcript.cost ==>
              && stage.moved.task.cost == stage.moved.state.transcript.cost
              && stage.moved.task.cost + LedgerOf(b).spent == task.cost + LedgerOf(a + b).spent
    ensures (PaidAtMost(b, most) ==> OneCallOver(e, stage.moved.state.transcript.cost, LedgerOf(b), most)) ==>
            (PaidAtMost(a + b, most) ==> OneCallOver(e, state.transcript.cost, LedgerOf(a + b), most))
  {
    hide LedgerOf, ActsOf, Runs, AskedBelow, PaidAtMost, Allowance;
    LedgerAppend(a, b);
    PaidInBoth(a, b, most);
    BelowBoth(a, b, e.limits.maxCost);
  }

  lemma PaidInBoth(a: seq<Act>, b: seq<Act>, most: real)
    ensures PaidAtMost(a + b, most) ==> PaidAtMost(a, most) && PaidAtMost(b, most)
  {
    assert forall k :: 0 <= k < |a| ==> (a + b)[k] == a[k];
    assert forall k :: 0 <= k < |b| ==> (a + b)[|a| + k] == b[k];
  }

  lemma BelowBoth(a: seq<Act>, b: seq<Act>, cap: real)
    requires AskedBelow(a, cap) && AskedBelow(b, cap)
    ensures AskedBelow(a + b, cap)
  {
  }

  lemma StageBalances(s: Surroundings, e: Employee, k: nat, task: Task, state: RunState)
    requires state.stage != STAGE_DONE && !IsTerminal(task.status)
    ensures Balanced(e, task, state, OneStage(s, e, k, task, state))
  {
    hide Execute, Balanced, Plan;
    if state.stage == STAGE_EXECUTING {
      ExecutionBalances(s, e, k, task, state);
    } else {
      PlanningBalances(s, e, k, task, state);
    }
  }
}
