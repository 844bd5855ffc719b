/**
 * What a row says its task cost (application/employee_runtime/runtime.py, application/employee_runtime/executor.py): the
 * money is written down after a step, so a reply that was paid for in a step cut short is not in it.
 */
module RuntimeCosts {
  import opened Wrappers
  import opened Transcripts
  import opened Tasks
  import opened Worlds
  import opened Executor
  import opened ExecutorRuns
  import opened Runtime
  import opened RuntimeRuns
  import opened RuntimeBudgets

  // ----- A reply that was paid and never saved -----

  /** The price of the reply the acts stop in: paid for, and no step saved since. */
  function CutReply(acts: seq<Act>): Option<real> {
    if acts == [] then None
    else
      match acts[|acts| - 1]
      case Paid(cost) => Some(cost)
      case Saved(_) => None
      case _ => CutReply(acts[..|acts| - 1])
  }

  function Lag(acts: seq<Act>): real {
    if CutReply(acts).Some? then CutReply(acts).value else 0.0
  }

  lemma {:induction false} CutReplyAppend(a: seq<Act>, b: seq<Act>)
    requires CutReply(a).None?
    ensures CutReply(a + b) == CutReply(b)
    decreases |b|
  {
    if b == [] {
      assert a + b == a;
    } else {
      var n := |b| - 1;
      CutReplyAppend(a, b[..n]);
      assert (a + b)[..|a + b| - 1] == a + b[..n] && (a + b)[|a + b| - 1] == b[n];
    }
  }

  /** Acts of a batch hide neither a price nor a step. */
  lemma {:induction false} BatchHidesNothing(head: seq<Act>, before: real, acts: seq<Act>)
    requires forall k :: 0 <= k < |acts| ==> !acts[k].Paid? && !acts[k].Saved?
    ensures CutReply(head + acts) == CutReply(head) && LastSavedCost(before, head + acts) == LastSavedCost(before, head)
    decreases |acts|
  {
    if acts == [] {
      assert head + acts == head;
    } else {
      var n := |acts| - 1;
      BatchHidesNothing(head, before, acts[..n]);
      assert (head + acts)[..|head + acts| - 1] == head + acts[..n] && (head + acts)[|head + acts| - 1] == acts[n];
    }
  }

  /** A turn cut inside the batch of its reply: by a cancellation, or by an exception after the reply was paid for. */
  ghost predicate CutInside(t: Transcript, turn: Turned) {
    turn.next.Halt? &&
    match turn.next.end
    case Finished(o) => o.cancelled && o.transcript.steps == t.steps + 1
    case Raised(_) => LedgerOf(turn.acts).answered == 1
  }

  lemma TurnLag(e: Employee, w: World, t: Transcript)
    ensures var turn := Turn(e, w, t);
            && LastSavedCost(t.cost, turn.acts) + Lag(turn.acts) == t.cost + LedgerOf(turn.acts).spent
            && (turn.next.Continue? ==> CutReply(turn.acts).None?)
            && (CutReply(turn.acts).Some? <==> CutInside(t, turn))
  {
    hide RunCalls, BestAnswer, OfferedIn, LedgerOf, LastSavedCost, CutReply;
    TurnLedger(e, w, t);
    TurnSavesItsCost(e, w, t);
    var offered := OfferedIn(e, t);
    var asked := Asked(t.cost, NamesOf(offered));
    var reply := w.generate(t, offered);
    ShortLedgers(asked, reply, [], []);
    ShortLags(t.cost, asked, reply, t);
    if reply.Reply? {
      var said := AfterReply(t, reply).WithMessage(AssistantMessage(reply.content, reply.calls));
      var batch := RunCalls(e, w, said, reply.calls);
      var head := [asked, Paid(reply.cost)];
      BatchSavesNothing(e, w, said, reply.calls);
      BatchHidesNothing(head, t.cost, batch.acts);
      ShortLags(t.cost, asked, reply, said);
      SavedLast(t.cost, head, said);
      SavedLast(t.cost, head + batch.acts, batch.transcript);
      ShortLedgers(asked, reply, batch.acts, []);
      assert head + batch.acts + [] == head + batch.acts;
    }
  }

  lemma ShortLags(before: real, asked: Act, reply: Reply, t: Transcript)
    requires asked.Asked?
    ensures CutReply([]).None? && LastSavedCost(before, []) == before
    ensures CutReply([asked]).None? && LastSavedCost(before, [asked]) == before
    ensures reply.Reply? ==>
              && CutReply([asked, Paid(reply.cost)]) == Some(reply.cost)
              && LastSavedCost(before, [asked, Paid(reply.cost)]) == before
  {
    assert [asked][..0] == [];
    if reply.Reply? {
      assert [asked, Paid(reply.cost)][..1] == [asked];
    }
  }

  lemma SavedLast(before: real, acts: seq<Act>, t: Transcript)
    ensures CutReply(acts + [Saved(t)]).None? && LastSavedCost(before, acts + [Saved(t)]) == t.cost
  {
  }

  /** Whatever a run ends by, its last saved step costs what the run has spent, less the reply it was cut in. */
  lemma {:induction false} RunLag(e: Employee, w: World, t: Transcript)
    ensures var acts := Loop(e, w, t).acts;
            LastSavedCost(t.cost, acts) + Lag(acts) == t.cost + LedgerOf(acts).spent
    decreases e.limits.maxSteps - t.steps
  {
    hide Turn, Loop, LastSavedCost, LedgerOf, CutReply;
    LoopStep(e, w, t);
    TurnLag(e, w, t);
    var turn := Turn(e, w, t);
    if turn.next.Continue? {
      var t', rest := turn.next.transcript, Loop(e, w, turn.next.transcript).acts;
      RunLag(e, w, t');
      TurnSavesItsCost(e, w, t);
      LastSavedAppend(t.cost, turn.acts, rest);
      CutReplyAppend(turn.acts, rest);
      LedgerAppend(turn.acts, rest);
    }
  }

  /** When a run has been cut in a reply: a run that finishes, exactly when it was cancelled between two calls and leaves
      a conversation cut short; a run that raises, exactly when it did so after the model had answered. */
  lemma {:induction false} CutMeansCutShort(e: Employee, w: World, t: Transcript)
    requires Complete(t.messages)
    ensures var r := Loop(e, w, t); var l := LedgerOf(r.acts);
            match r.end
            case Finished(o) => CutReply(r.acts).Some? <==> o.cancelled && CutShort(o.transcript.messages)
            case Raised(_) => CutReply(r.acts).Some? <==> l.answered == l.begun
    decreases e.limits.maxSteps - t.steps
  {
    hide Turn, Loop, LedgerOf, CutReply, Complete, CutShort, LastSavedCost;
    LoopStep(e, w, t);
    TurnLag(e, w, t);
    TurnLedger(e, w, t);
    TurnIsComplete(e, w, t);
    var turn := Turn(e, w, t);
    if turn.next.Continue? {
      var rest := Loop(e, w, turn.next.transcript);
      CutMeansCutShort(e, w, turn.next.transcript);
      CutReplyAppend(turn.acts, rest.acts);
      LedgerAppend(turn.acts, rest.acts);
    } else if turn.next.end.Finished? {
      CancelledTurns(e, w, t);
      var o := turn.next.end.outcome;
      if CutShort(o.transcript.messages) {
        CutShortIsNotComplete(o.transcript.messages);
      }
    }
  }

  /** A cancelled turn ends where it began, or inside the batch of its reply. */
  lemma CancelledTurns(e: Employee, w: World, t: Transcript)
    requires Complete(t.messages)
    ensures var next := Turn(e, w, t).next;
            next.Halt? && next.end.Finished? && next.end.outcome.cancelled ==>
              var o := next.end.outcome;
              || (o.transcript == t)
              || (o.transcript.steps == t.steps + 1 && CutShort(o.transcript.messages))
  {
    hide RunCalls, BestAnswer, OfferedIn, Complete, CutShort;
    var reply := w.generate(t, OfferedIn(e, t));
    if reply.Reply? {
      var first := AssistantMessage(reply.content, reply.calls);
      var said := AfterReply(t, reply).WithMessage(first);
      var m := BatchReplies(e, w, said, reply.calls);
      ExchangeAfter(t.messages, said, RunCalls(e, w, said, reply.calls).transcript, first, m);
    }
  }

  // ----- Rows -----

  function LagOf(runs: seq<Ran>): real {
    if runs == [] then 0.0 else Lag(runs[|runs| - 1].acts)
  }

  lemma EnterKeepsTheCost(from: TaskStatus, to: TaskStatus, changed: Task, state: RunState, start: Task)
    requires start.cost == changed.cost
    ensures LastRow(start, Enter(from, to, changed, state).log).cost == changed.cost
  {
    var log := Enter(from, to, changed, state).log;
    if log != [] {
      assert log[..0] == [];
    }
  }

  lemma NoRowNoChange(start: Task, log: seq<Entry>, entry: Entry)
    requires !entry.Row?
    ensures LastRow(start, log + [entry]) == LastRow(start, log)
  {
    assert (log + [entry])[..|log|] == log;
  }

  lemma VerifyKeepsTheCost(s: Surroundings, k: nat, task: Task, state: RunState, result: TaskResult)
    ensures LastRow(task, Verify(s, k, task, state, result).log).cost == task.cost
  {
    hide Judge, LastRow, Enter;
    var entered := Enter(task.status, VERIFYING, task, state);
    EnterKeepsTheCost(task.status, VERIFYING, task, state, task);
    EnterFollows(task.status, VERIFYING, task, state);
    if entered.moved.Moved? {
      var checking := entered.moved.task;
      assert checking.cost == task.cost by { MovedKeepsTheCost(task.status, VERIFYING, task, state); }
      var verdict := Judge(result, s.opinion(k));
      var rest := Follow(checking, state, result, verdict);
      NoRowNoChange(task, entered.log, Ruling(result.summary, verdict));
      LastRowAppend(task, entered.log + [Ruling(result.summary, verdict)], rest.log);
      FollowKeepsTheCost(checking, state, result, verdict, LastRow(task, entered.log));
    }
  }

  lemma MovedKeepsTheCost(from: TaskStatus, to: TaskStatus, changed: Task, state: RunState)
    ensures Enter(from, to, changed, state).moved.Moved? ==>
              Enter(from, to, changed, state).moved.task.cost == changed.cost
  {
  }

  lemma FollowKeepsTheCost(task: Task, state: RunState, result: TaskResult, verdict: Verdict, start: Task)
    requires start.cost == task.cost
    ensures LastRow(start, Follow(task, state, result, verdict).log).cost == task.cost
  {
    hide Enter, LastRow;
    NoRows(start);
    var done := state.(stage := STAGE_DONE);
    EnterKeepsTheCost(task.status, COMPLETED, task.(result := Some(result)), done, start);
    EnterKeepsTheCost(task.status, FAILED,
                      task.(error := Some("VerificationFailed"), result := Some(result), attempts := task.attempts + 1),
                      done, start);
    if verdict.Rejected? {
      EnterKeepsTheCost(task.status, PLANNING, task,
                        state.(stage := STAGE_PLANNING, attempt := state.attempt + 1,
                               feedback := if verdict.missing != [] then verdict.missing else [verdict.reason]), start);
    }
  }

  /** The row an execution leaves, whatever comes after the tool loop, costs its last saved step. */
  lemma ExecutionCosts(s: Surroundings, e: Employee, k: nat, task: Task, state: RunState)
    ensures LastRow(task, Execute(s, e, k, task, state).log).cost ==
            LastSavedCost(task.cost, Loop(e, s.world(k), state.transcript).acts)
  {
    hide Loop, KeepAll, Verify, Enter, LastRow, LastSavedCost;
    var run := Loop(e, s.world(k), state.transcript);
    var start := Kept([Execution(run)], task, state);
    NoRowIn(task, Execution(run));
    KeepingSavesTheTask(task, start, run.acts);
    RowsCostTheLastStep(start, run.acts);
    var kept := KeepAll(start, run.acts);
    if run.end.Finished? {
      var outcome := run.end.outcome;
      var after := kept.state.(transcript := outcome.transcript, stage := STAGE_VERIFYING);
      if outcome.cancelled {
        var ended := kept.task.(result := Some(ResultOf(outcome)));
        EnterKeepsTheCost(kept.task.status, CANCELLED, ended, after.(stage := STAGE_DONE), kept.task);
        LastRowAppend(task, kept.log, Cancel(kept.task, after, ResultOf(outcome)).log);
      } else {
        VerifyKeepsTheCost(s, k, kept.task, after, ResultOf(outcome));
        LastRowAppend(task, kept.log, Verify(s, k, kept.task, after, ResultOf(outcome)).log);
      }
    }
  }

  lemma OpeningCosts(s: Surroundings, k: nat, task: Task, state: RunState, start: Task)
    requires start.cost == task.cost
    ensures LastRow(start, Open(s, k, task, state).log).cost == task.cost
  {
    hide SaveRunState, LastRow, Enter;
    NoRows(start);
    var planning := s.plan(k);
    var plan := if planning.Planned? then Some(planning.plan) else None;
    var begun := state.(stage := STAGE_EXECUTING, transcript := OpeningTranscript(s, k, plan, state));
    EnterKeepsTheCost(task.status, RUNNING, task.(step := 0, state := SaveRunState(begun)), begun, start);
  }

  lemma PlanningCosts(s: Surroundings, k: nat, task: Task, state: RunState)
    ensures LastRow(task, Plan(s, k, task, state).log).cost == task.cost
  {
    hide LastRow, Enter, Open;
    OpeningCosts(s, k, task, state, task);
    EnterKeepsTheCost(task.status, PLANNING, task, state, task);
    MovedKeepsTheCost(task.status, PLANNING, task, state);
    var entered := Enter(task.status, PLANNING, task, state);
    if entered.moved.Moved? {
      OpeningCosts(s, k, entered.moved.task, state, LastRow(task, entered.log));
      LastRowAppend(task, entered.log, Open(s, k, entered.moved.task, state).log);
      SameStateMoved(task.status, PLANNING, task, state);
    }
  }

  lemma SameStateMoved(from: TaskStatus, to: TaskStatus, changed: Task, state: RunState)
    ensures Enter(from, to, changed, state).moved.Moved? ==> Enter(from, to, changed, state).moved.state == state
  {
  }

  lemma StageCosts(s: Surroundings, e: Employee, k: nat, task: Task, state: RunState)
    requires state.stage != STAGE_DONE && !IsTerminal(task.status) && task.cost == state.transcript.cost
    ensures var stage := OneStage(s, e, k, task, state);
            && LastRow(task, stage.log).cost + LagOf(Runs(stage.log)) ==
               task.cost + LedgerOf(ActsOf(Runs(stage.log))).spent
            && (stage.moved.Moved? && stage.moved.state.stage != STAGE_DONE ==> LagOf(Runs(stage.log)) == 0.0)
  {
    hide Loop, LastRow, LedgerOf, ActsOf, Runs, Rulings, StatusAfter, Execute, LastSavedCost, CutReply, SaveRunState;
    if state.stage == STAGE_EXECUTING {
      var run := Loop(e, s.world(k), state.transcript);
      RunLag(e, s.world(k), state.transcript);
      ExecutionCosts(s, e, k, task, state);
      StageIsDecided(s, e, k, task, state);
      FinishedRunsSaveTheirCost(e, s.world(k), state.transcript);
      ExecutionLedger(e, s.world(k), state.transcript);
      ActsOfOne(run);
    } else {
      StageIsDecided(s, e, k, task, state);
      PlanningCosts(s, k, task, state);
      NoRows(task);
      NoActs();
      EmptyLedger();
    }
  }

  /** However a run ends - returned, dead of an exception or stopped at an illegal move - its last row costs what the
      task cost before and everything paid since, less the reply its last execution was cut in. */
  lemma {:induction false} RowsLagOneReply(s: Surroundings, e: Employee, k: nat, task: Task, state: RunState)
    requires state.stage != STAGE_DONE && !IsTerminal(task.status) && task.cost == state.transcript.cost
    ensures var r := Stages(s, e, k, task, state); var runs := Runs(r.log);
            LastRow(task, r.log).cost + LagOf(runs) == task.cost + LedgerOf(ActsOf(runs)).spent
    decreases SendBacksLeft(state), Distance(state)
  {
    hide *;
    var r := Stages(s, e, k, task, state);
    StagesStep(s, e, k, task, state);
    StageStays(s, e, k, task, state);
    StageCosts(s, e, k, task, state);
    StageBooks(s, e, k, task, state);
    StageSavesTheTask(s, e, k, task, state);
    var stage := OneStage(s, e, k, task, state);
    if stage.moved.Moved? {
      StagesEnd(s, e, k, task, state);
      var rest := Stages(s, e, k + 1, stage.moved.task, stage.moved.state);
      var a, b := Runs(stage.log), Runs(rest.log);
      LogsAppend(task.status, stage.log, rest.log);
      LastRowAppend(task, stage.log, rest.log);
      ActsOfBoth(a, b);
      LedgerAppend(ActsOf(a), ActsOf(b));
      if stage.moved.state.stage == STAGE_DONE {
        StagesDone(s, e, k + 1, stage.moved.task, stage.moved.state);
        assert r.log == stage.log;
      } else {
        RowsLagOneReply(s, e, k + 1, stage.moved.task, stage.moved.state);
        LastLag(a, b);
        PlusSpent(LedgerOf(ActsOf(a)), LedgerOf(ActsOf(b)));
      }
    }
  }

  lemma PlusSpent(a: Ledger, b: Ledger)
    ensures a.Plus(b).spent == a.spent + b.spent
  {
  }

  lemma LastLag(a: seq<Ran>, b: seq<Ran>)
    requires LagOf(a) == 0.0
    ensures LagOf(a + b) == LagOf(b)
  {
    assert a + [] == a;
  }

  /** A stage that goes on leaves row and state in step. */
  lemma StageBooks(s: Surroundings, e: Employee, k: nat, task: Task, state: RunState)
    requires state.stage != STAGE_DONE && !IsTerminal(task.status) && task.cost == state.transcript.cost
    ensures var moved := OneStage(s, e, k, task, state).moved;
            moved.Moved? && moved.state.stage != STAGE_DONE ==> moved.task.cost == moved.state.transcript.cost
  {
    hide OneStage, Runs, LedgerOf, ActsOf, AskedBelow, PaidAtMost, Allowance, StatusAfter;
    StageBalances(s, e, k, task, state);
    StageStays(s, e, k, task, state);
  }

  /** The last row says what the task cost if and only if the last execution was not cut inside a batch, or the reply it
      was cut in cost nothing. */
  lemma RowSaysTheCostIffNotCut(s: Surroundings, e: Employee, k: nat, task: Task, state: RunState)
    requires state.stage != STAGE_DONE && !IsTerminal(task.status) && task.cost == state.transcript.cost
    ensures var r := Stages(s, e, k, task, state); var runs := Runs(r.log);
            LastRow(task, r.log).cost == task.cost + LedgerOf(ActsOf(runs)).spent <==>
            runs == [] || CutReply(runs[|runs| - 1].acts) in {None, Some(0.0)}
  {
    hide Stages, Runs, LastRow, LedgerOf, ActsOf, CutReply;
    RowsLagOneReply(s, e, k, task, state);
  }

  // ----- Rows and what they hold -----

  /** The row and the conversation in it say the same cost, and the same number of steps. */
  ghost predicate SaysOneCost(task: Task) {
    && LoadRunState(task.state).Some? && LoadRunState(task.state).value.transcript.cost == task.cost
    && LoadRunState(task.state).value.transcript.steps == task.step
  }

  ghost predicate AllSayOneCost(log: seq<Entry>) {
    forall k :: 0 <= k < |log| && log[k].Row? ==> SaysOneCost(log[k].task)
  }

  lemma SavedCost(task: Task, state: RunState)
    requires task.cost == state.transcript.cost && task.step == state.transcript.steps
    requires task.state == SaveRunState(state)
    ensures SaysOneCost(task)
  {
    RunStateComesBack(state);
  }

  lemma {:induction false} KeepingSaysOneCost(kept: Kept, acts: seq<Act>)
    requires AllSayOneCost(kept.log) && SaysOneCost(kept.task)
    ensures AllSayOneCost(KeepAll(kept, acts).log) && SaysOneCost(KeepAll(kept, acts).task)
  {
    hide LoadRunState, SaveRunState;
    if acts == [] {
    } else {
      KeepingSaysOneCost(kept, acts[..|acts| - 1]);
      var before, act := KeepAll(kept, acts[..|acts| - 1]), acts[|acts| - 1];
      if act.Saved? {
        SavedCost(KeepAll(kept, acts).task, before.state.(transcript := act.transcript));
      }
    }
  }

  lemma VerifySaysOneCost(s: Surroundings, k: nat, task: Task, state: RunState, result: TaskResult)
    requires SaysOneCost(task)
    ensures var stage := Verify(s, k, task, state, result);
            AllSayOneCost(stage.log) && (stage.moved.Moved? ==> SaysOneCost(stage.moved.task))
  {
    hide Judge, LoadRunState;
  }

  lemma StageSaysOneCost(s: Surroundings, e: Employee, k: nat, task: Task, state: RunState)
    requires SaysOneCost(task) && state.stage != STAGE_DONE && task.cost == state.transcript.cost
    ensures var stage := OneStage(s, e, k, task, state);
            AllSayOneCost(stage.log) && (stage.moved.Moved? ==> SaysOneCost(stage.moved.task))
  {
    hide Loop, KeepAll, Verify, LoadRunState, SaveRunState;
    if state.stage == STAGE_EXECUTING {
      var run := Loop(e, s.world(k), state.transcript);
      var start := Kept([Execution(run)], task, state);
      KeepingSaysOneCost(start, run.acts);
      var kept := KeepAll(start, run.acts);
      if run.end.Finished? {
        var after := kept.state.(transcript := run.end.outcome.transcript, stage := STAGE_VERIFYING);
        VerifySaysOneCost(s, k, kept.task, after, ResultOf(run.end.outcome));
      }
    } else if state.stage == STAGE_PLANNING {
      var planning := s.plan(k);
      var plan := if planning.Planned? then Some(planning.plan) else None;
      var begun := state.(stage := STAGE_EXECUTING, transcript := OpeningTranscript(s, k, plan, state));
      SavedCost(task.(status := RUNNING, step := 0, state := SaveRunState(begun)), begun);
    }
  }

  lemma {:induction false} StagesSayOneCost(s: Surroundings, e: Employee, k: nat, task: Task, state: RunState)
    requires SaysOneCost(task) && !IsTerminal(task.status) && task.cost == state.transcript.cost
    ensures AllSayOneCost(Stages(s, e, k, task, state).log)
    decreases SendBacksLeft(state), Distance(state)
  {
    hide *;
    if state.stage == STAGE_DONE {
      StagesDone(s, e, k, task, state);
      NothingSays();
    } else {
      StagesStep(s, e, k, task, state);
      StageSaysOneCost(s, e, k, task, state);
      StageStays(s, e, k, task, state);
      StageBooks(s, e, k, task, state);
      var stage := OneStage(s, e, k, task, state);
      if stage.moved.Moved? {
        StagesEnd(s, e, k, task, state);
        if stage.moved.state.stage == STAGE_DONE {
          StagesDone(s, e, k + 1, stage.moved.task, stage.moved.state);
          assert stage.log + [] == stage.log;
        } else {
          StagesSayOneCost(s, e, k + 1, stage.moved.task, stage.moved.state);
          BothSay(stage.log, Stages(s, e, k + 1, stage.moved.task, stage.moved.state).log);
        }
      }
    }
  }

  lemma NothingSays()
    ensures AllSayOneCost([])
  {
  }

  lemma BothSay(a: seq<Entry>, b: seq<Entry>)
    requires AllSayOneCost(a) && AllSayOneCost(b)
    ensures AllSayOneCost(a + b)
  {
  }

  /** From any row a process can find: the next session's rows agree with the conversations in them, and its last row
      says what the task has cost exactly when that session was not cut in a reply that cost something. What an earlier
      session lost in this way stays lost. */
  lemma SessionsSayTheCost(s: Surroundings, e: Employee, task: Task)
    requires SaysOneCost(task) && !IsTerminal(task.status)
    requires LoadRunState(task.state).value.stage != STAGE_DONE
    ensures SaysOneCost(NEW_TASK)
    ensures var r := Session(s, e, task); var runs := Runs(r.log);
            && AllSayOneCost(r.log)
            && (LastRow(task, r.log).cost == task.cost + LedgerOf(ActsOf(runs)).spent <==>
                runs == [] || CutReply(runs[|runs| - 1].acts) in {None, Some(0.0)})
  {
    hide Stages, Runs, LastRow, LedgerOf, ActsOf, CutReply;
    NothingSavedIsAFreshRun();
    var state := LoadRunState(task.state).value;
    StagesSayOneCost(s, e, 0, task, state);
    RowSaysTheCostIffNotCut(s, e, 0, task, state);
  }

  // ----- A cancelled task that is too cheap -----

  const ONE_STEP := Employee([], {}, Limits(1, 10.0, 60.0), false)

  const A_CALL := ToolCall("1", "look", map[])

  /** The model asks for a tool, for 1.0, and somebody cancels before it is called. */
  const STOPPED_WORLD := World(
    (t: Transcript) => |t.messages| > 2,
    t => 0.0,
    (t, offered) => Reply("", [A_CALL], 1.0),
    (t, name) => None,
    (t, call) => NoJudgement,
    (t, call) => Answered(REJECTED),
    (t, call) => ToolResult(false, "", ""))

  const STOPPED := Surroundings(
    k => Unplannable, k => "", (k, plan, feedback) => "", k => STOPPED_WORLD, k => Unreadable)

  lemma StoppedRun(t: Transcript)
    requires |t.messages| == 2 && t.steps == 0 && t.cost == 0.0 && t.observations == []
    ensures var run := Loop(ONE_STEP, STOPPED_WORLD, t);
            && run.end.Finished? && run.end.outcome.cancelled
            && LedgerOf(run.acts).spent == 1.0 && CutReply(run.acts) == Some(1.0)
  {
    hide Loop, LedgerOf, CutReply, BestAnswer;
    LoopStep(ONE_STEP, STOPPED_WORLD, t);
    var asked := Asked(t.cost, NamesOf(OfferedIn(ONE_STEP, t)));
    var reply := Reply("", [A_CALL], 1.0);
    var said := AfterReply(t, reply).WithMessage(AssistantMessage("", [A_CALL]));
    BatchStops(ONE_STEP, STOPPED_WORLD, said, [A_CALL]);
    assert [asked, Paid(1.0)] + [] + [] == [asked, Paid(1.0)] == [asked, Paid(1.0)] + [];
    ShortLedgers(asked, reply, [], []);
    ShortLags(t.cost, asked, reply, t);
  }

  /** A new task, cancelled at the first call of its first reply: one unit is spent, the task is CANCELLED, and its row
      says it cost nothing. */
  lemma ACancelledRowIsTooCheap()
    ensures var r := Session(STOPPED, ONE_STEP, NEW_TASK);
            && r.end.Returned? && LastRow(NEW_TASK, r.log).status == CANCELLED
            && LedgerOf(ActsOf(Runs(r.log))).spent == 1.0 && LastRow(NEW_TASK, r.log).cost == 0.0
  {
    hide Stages, Loop, Runs, Rulings, LastRow, LedgerOf, ActsOf, CutReply, StatusAfter, SaveRunState;
    hide Execute, LastSavedCost;
    NothingSavedIsAFreshRun();
    var state := RunState(STAGE_PLANNING, EMPTY_TRANSCRIPT, 1, []);
    StagesStep(STOPPED, ONE_STEP, 0, NEW_TASK, state);
    var planned := OneStage(STOPPED, ONE_STEP, 0, NEW_TASK, state);
    var task, begun := planned.moved.task, planned.moved.state;
    StoppedRun(begun.transcript);
    var run := Loop(ONE_STEP, STOPPED_WORLD, begun.transcript);
    StagesStep(STOPPED, ONE_STEP, 1, task, begun);
    ExecutionIsCancelled(task, begun);
    var executed := Execute(STOPPED, ONE_STEP, 1, task, begun);
    StagesEnd(STOPPED, ONE_STEP, 1, task, begun);
    StagesDone(STOPPED, ONE_STEP, 2, executed.moved.task, executed.moved.state);
    assert executed.log + [] == executed.log;
    PlanningAddsRows(STOPPED, 0, NEW_TASK, state);
    ExecutionIsDecided(STOPPED, ONE_STEP, 1, task, begun);
    LogsAppend(CREATED, planned.log, executed.log);
    assert [] + [run] == [run];
    ActsOfOne(run);
    StageSavesTheTask(STOPPED, ONE_STEP, 0, NEW_TASK, state);
    StageSavesTheTask(STOPPED, ONE_STEP, 1, task, begun);
    LastRowAppend(NEW_TASK, planned.log, executed.log);
    RowsLagOneReply(STOPPED, ONE_STEP, 0, NEW_TASK, state);
  }

  lemma ExecutionIsCancelled(task: Task, state: RunState)
    requires task.status == RUNNING && state.stage == STAGE_EXECUTING
    requires var run := Loop(ONE_STEP, STOPPED_WORLD, state.transcript); run.end.Finished? && run.end.outcome.cancelled
    ensures var moved := Execute(STOPPED, ONE_STEP, 1, task, state).moved;
            moved.Moved? && moved.state.stage == STAGE_DONE && moved.task.status == CANCELLED
  {
    hide Loop, KeepAll, SaveRunState;
    var run := Loop(ONE_STEP, STOPPED_WORLD, state.transcript);
    StatusAfterExecution(ONE_STEP, STOPPED_WORLD, state.transcript, Kept([Execution(run)], task, state));
    KeepingKeepsTheStage(Kept([Execution(run)], task, state), run.acts);
  }
}
