/**
 * The runtime of an employee: plan, execute, verify, and once more when the verdict is a rejection
 * (application/employee_runtime/runtime.py, application/employee_runtime/verifier.py).
 *
 * `Stages` is a whole run as a function: the rows it saves, with the executions and verdicts between them, and how it
 * ends. `EmployeeRuntime.Run` is the loop that saves them one after another.
 */
module Runtime {
  import opened Wrappers
  import opened Text
  import opened Transcripts
  import opened Tasks
  import opened Worlds
  import opened Executor

  const STAGE_PLANNING := "PLANNING"
  const STAGE_EXECUTING := "EXECUTING"
  const STAGE_VERIFYING := "VERIFYING"
  const STAGE_DONE := "DONE"

  const MAX_ATTEMPTS := 2

  datatype Planning = Planned(plan: string) | Unplannable | PlannerFailed(error: Exception)

  /** What the verifying model says: a verdict, or something that is not one. */
  datatype Opinion = Opinion(passed: bool, reason: string, missing: seq<string>) | Unreadable | NoOpinion(error: Exception)

  datatype Verdict = Passed | Rejected(reason: string, missing: seq<string>) | NoVerdict(error: Exception)

  /** The outside of one process that runs a task, by the number of the stage that meets it. */
  datatype Surroundings = Surroundings(
    plan: nat -> Planning,
    system: nat -> string,
    instruction: (nat, Option<string>, seq<string>) -> string,
    world: nat -> World,
    opinion: nat -> Opinion)

  /** What a run leaves behind: the rows it saves with the event beside them, and what happened in between. */
  datatype Entry =
    | Row(task: Task, event: Option<TaskEvent>)
    | Execution(run: Ran)
    | Ruling(summary: string, verdict: Verdict)

  datatype RunEnd = Returned(result: TaskResult) | Crashed(error: Exception) | Illegal(move: TaskEvent)

  datatype Moved = Moved(task: Task, state: RunState) | Stopped(end: RunEnd)

  datatype Stage = Stage(log: seq<Entry>, moved: Moved)

  datatype RunLog = RunLog(log: seq<Entry>, end: RunEnd)

  /** A transition and the row that records it, or the exception of an illegal one; `changed` is the task with
      everything else the transition changes. */
  function Enter(from: TaskStatus, to: TaskStatus, changed: Task, state: RunState): Stage {
    match TransitionTo(changed.(status := from), to)
    case Ok((task, event)) => Stage([Row(task, Some(event))], Moved(task, state))
    case Err(move) => Stage([], Stopped(Illegal(move)))
  }

  /** `first`, and then what follows when it moved on. */
  function Then(first: Stage, rest: Stage): Stage {
    Stage(first.log + rest.log, rest.moved)
  }

  // ----- Planning -----

  /** The transcript an execution starts from: two messages, nothing observed, and the money already spent. */
  function OpeningTranscript(s: Surroundings, k: nat, plan: Option<string>, state: RunState): Transcript {
    Transcript([SystemMessage(s.system(k)), UserMessage(s.instruction(k, plan, state.feedback))], [],
               state.transcript.cost, 0)
  }

  function Open(s: Surroundings, k: nat, task: Task, state: RunState): Stage {
    var planning := s.plan(k);
    if planning.PlannerFailed? then Stage([], Stopped(Crashed(planning.error)))
    else
      var plan := if planning.Planned? then Some(planning.plan) else None;
      var begun := state.(stage := STAGE_EXECUTING, transcript := OpeningTranscript(s, k, plan, state));
      Enter(task.status, RUNNING, task.(step := 0, state := SaveRunState(begun)), begun)
  }

  function Plan(s: Surroundings, k: nat, task: Task, state: RunState): Stage {
    if task.status == PLANNING then Open(s, k, task, state)
    else
      var entered := Enter(task.status, PLANNING, task, state);
      if entered.moved.Stopped? then entered else Then(entered, Open(s, k, entered.moved.task, state))
  }

  // ----- Executing -----

  /** The task and the state while the tool loop runs, and the rows saved so far. */
  datatype Kept = Kept(log: seq<Entry>, task: Task, state: RunState)

  /** The two callbacks: `persist` after a step, `waiting` around a question. */
  function Keep(kept: Kept, act: Act): Kept {
    match act
    case Saved(t) =>
      var state := kept.state.(transcript := t);
      var task := kept.task.(step := t.steps, state := SaveRunState(state), cost := t.cost);
      Kept(kept.log + [Row(task, None)], task, state)
    case Told(status) =>
      if kept.task.status == status || !CanTransition(kept.task.status, status) then kept
      else
        var task := kept.task.(status := status);
        kept.(log := kept.log + [Row(task, Some(TaskEvent(kept.task.status, status)))], task := task)
    case _ => kept
  }

  function KeepAll(kept: Kept, acts: seq<Act>): Kept {
    if acts == [] then kept else Keep(KeepAll(kept, acts[..|acts| - 1]), acts[|acts| - 1])
  }

  function ResultOf(outcome: StepOutcome): TaskResult {
    TaskResult(outcome.answer, outcome.transcript.steps, outcome.transcript.observations, outcome.stoppedBy, [])
  }

  function Execute(s: Surroundings, e: Employee, k: nat, task: Task, state: RunState): Stage {
    var run := Loop(e, s.world(k), state.transcript);
    var kept := KeepAll(Kept([Execution(run)], task, state), run.acts);
    match run.end
    case Raised(error) => Stage(kept.log, Stopped(Crashed(error)))
    case Finished(outcome) =>
      var after := kept.state.(transcript := outcome.transcript, stage := STAGE_VERIFYING);
      Then(Stage(kept.log, Moved(kept.task, after)),
           if outcome.cancelled then Cancel(kept.task, after, ResultOf(outcome))
           else Verify(s, k, kept.task, after, ResultOf(outcome)))
  }

  // ----- Verifying -----

  /** The verifier: nothing said is rejected unseen, and an answer that cannot be read is a rejection. */
  function Judge(result: TaskResult, opinion: Opinion): Verdict {
    if Blank(result.summary) then Rejected("The task produced no output", ["any result at all"])
    else
      match opinion
      case NoOpinion(error) => NoVerdict(error)
      case Unreadable => Rejected("The verifier did not return a readable verdict", ["a second opinion"])
      case Opinion(passed, reason, missing) => if passed then Passed else Rejected(reason, missing)
  }

  /** What a verdict leads to. */
  function Follow(task: Task, state: RunState, result: TaskResult, verdict: Verdict): Stage {
    match verdict
    case NoVerdict(error) => Stage([], Stopped(Crashed(error)))
    case Passed => Enter(task.status, COMPLETED, task.(result := Some(result)), state.(stage := STAGE_DONE))
    case Rejected(reason, missing) =>
      if state.attempt < MAX_ATTEMPTS && result.stoppedBy.None? then
        Enter(task.status, PLANNING, task,
              state.(stage := STAGE_PLANNING, attempt := state.attempt + 1,
                     feedback := if missing != [] then missing else [reason]))
      else
        Enter(task.status, FAILED,
              task.(error := Some("VerificationFailed"), result := Some(result), attempts := task.attempts + 1),
              state.(stage := STAGE_DONE))
  }

  function Verify(s: Surroundings, k: nat, task: Task, state: RunState, result: TaskResult): Stage {
    var entered := Enter(task.status, VERIFYING, task, state);
    if entered.moved.Stopped? then entered
    else
      var verdict := Judge(result, s.opinion(k));
      var rest := Follow(entered.moved.task, state, result, verdict);
      Stage(entered.log + [Ruling(result.summary, verdict)] + rest.log, rest.moved)
  }

  function Cancel(task: Task, state: RunState, result: TaskResult): Stage {
    Enter(task.status, CANCELLED, task.(result := Some(result)), state.(stage := STAGE_DONE))
  }

  // ----- The run -----

  function OneStage(s: Surroundings, e: Employee, k: nat, task: Task, state: RunState): Stage {
    if state.stage == STAGE_PLANNING then Plan(s, k, task, state)
    else if state.stage == STAGE_EXECUTING then Execute(s, e, k, task, state)
    else Stage([], Moved(task, state.(stage := STAGE_PLANNING)))
  }

  /** How many executions can still be sent back, and how far the current one has come. */
  function SendBacksLeft(state: RunState): nat {
    if state.attempt < MAX_ATTEMPTS then MAX_ATTEMPTS - state.attempt else 0
  }

  function Distance(state: RunState): nat {
    if state.stage == STAGE_DONE then 0
    else if state.stage == STAGE_EXECUTING then 1
    else if state.stage == STAGE_PLANNING then 2
    else 3
  }

  /** A replayed loop leaves stage, attempt and feedback alone. */
  lemma {:induction false} KeepingKeepsTheStage(kept: Kept, acts: seq<Act>)
    ensures KeepAll(kept, acts).state == kept.state.(transcript := KeepAll(kept, acts).state.transcript)
  {
    if acts == [] {
    } else {
      KeepingKeepsTheStage(kept, acts[..|acts| - 1]);
    }
  }

  /** Every stage brings the run closer to its end, or uses up a send-back. */
  lemma StagesEnd(s: Surroundings, e: Employee, k: nat, task: Task, state: RunState)
    requires state.stage != STAGE_DONE && OneStage(s, e, k, task, state).moved.Moved?
    ensures var next := OneStage(s, e, k, task, state).moved.state;
            && (SendBacksLeft(next) < SendBacksLeft(state)
                || (SendBacksLeft(next) == SendBacksLeft(state) && Distance(next) < Distance(state)))
  {
    hide Loop, KeepAll, Judge;
    if state.stage == STAGE_EXECUTING {
      var run := Loop(e, s.world(k), state.transcript);
      KeepingKeepsTheStage(Kept([Execution(run)], task, state), run.acts);
    }
  }

  function Stages(s: Surroundings, e: Employee, k: nat, task: Task, state: RunState): RunLog
    decreases SendBacksLeft(state), Distance(state)
  {
    if state.stage == STAGE_DONE then
      RunLog([], Returned(if task.result.Some? then task.result.value else TaskResult("", 0, [], None, [])))
    else
      var stage := OneStage(s, e, k, task, state);
      match stage.moved
      case Stopped(end) => RunLog(stage.log, end)
      case Moved(task', state') =>
        StagesEnd(s, e, k, task, state);
        var rest := Stages(s, e, k + 1, task', state');
        RunLog(stage.log + rest.log, rest.end)
  }

  lemma StagesStep(s: Surroundings, e: Employee, k: nat, task: Task, state: RunState)
    requires state.stage != STAGE_DONE
    ensures var r, stage := Stages(s, e, k, task, state), OneStage(s, e, k, task, state);
            && (stage.moved.Stopped? ==> r == RunLog(stage.log, stage.moved.end))
            && (stage.moved.Moved? ==>
                  var rest := Stages(s, e, k + 1, stage.moved.task, stage.moved.state);
                  r == RunLog(stage.log + rest.log, rest.end))
  {
    hide OneStage;
  }

  /** A process picks the task up from its row. */
  function Session(s: Surroundings, e: Employee, task: Task): RunLog {
    match LoadRunState(task.state)
    case None => RunLog([], Crashed(UnexpectedError("ValueError")))
    case Some(state) => Stages(s, e, 0, task, state)
  }

  /** The rows of one task, in the order they were saved, with what happened in between. */
  class TaskRepository {
    var history: seq<Entry>

    constructor ()
      ensures history == []
    {
      history := [];
    }

    method Save(task: Task, event: Option<TaskEvent>)
      modifies this
      ensures history == old(history) + [Row(task, event)]
    {
      history := history + [Row(task, event)];
    }

    method Note(entry: Entry)
      requires !entry.Row?
      modifies this
      ensures history == old(history) + [entry]
    {
      history := history + [entry];
    }
  }

  class EmployeeRuntime {
    const surroundings: Surroundings
    const employee: Employee
    const tasks: TaskRepository

    constructor (surroundings: Surroundings, employee: Employee, tasks: TaskRepository)
      ensures this.surroundings == surroundings && this.employee == employee && this.tasks == tasks
    {
      this.surroundings, this.employee, this.tasks := surroundings, employee, tasks;
    }

    /** `transition_to`, and the save that follows it. */
    method Transition(task: Task, to: TaskStatus, changed: Task, state: RunState) returns (moved: Moved)
      modifies tasks
      ensures moved == Enter(task.status, to, changed, state).moved
      ensures tasks.history == old(tasks.history) + Enter(task.status, to, changed, state).log
    {
      var transition := TransitionTo(changed.(status := task.status), to);
      match transition {
        case Err(move) => return Stopped(Illegal(move));
        case Ok((after, event)) =>
          tasks.Save(after, Some(event));
          return Moved(after, state);
      }
    }

    method PlanWork(k: nat, task: Task, state: RunState) returns (moved: Moved)
      modifies tasks
      ensures moved == Plan(surroundings, k, task, state).moved
      ensures tasks.history == old(tasks.history) + Plan(surroundings, k, task, state).log
    {
      var current := task;
      if task.status != PLANNING {
        moved := Transition(task, PLANNING, task, state);
        if moved.Stopped? {
          return;
        }
        current := moved.task;
      }
      var planning := surroundings.plan(k);
      if planning.PlannerFailed? {
        return Stopped(Crashed(planning.error));
      }
      var plan := if planning.Planned? then Some(planning.plan) else None;
      var begun := state.(stage := STAGE_EXECUTING, transcript := OpeningTranscript(surroundings, k, plan, state));
      moved := Transition(current, RUNNING, current.(step := 0, state := SaveRunState(begun)), begun);
    }

    /** The tool loop with its two callbacks, and then the verdict, or the end of a cancelled task. */
    method ExecuteWork(k: nat, task: Task, state: RunState) returns (moved: Moved)
      modifies tasks
      ensures moved == Execute(surroundings, employee, k, task, state).moved
      ensures tasks.history == old(tasks.history) + Execute(surroundings, employee, k, task, state).log
    {
      hide Loop, KeepAll, Verify, Cancel;
      var journal := new Journal();
      var executor := new Executor(employee, surroundings.world(k), journal);
      var end := executor.Run(state.transcript);
      ghost var run := Loop(employee, surroundings.world(k), state.transcript);
      assert [] + run.acts == run.acts;
      tasks.Note(Execution(Ran(journal.acts, end)));
      var current, latest := CallBack(journal.acts, task, state, Execution(Ran(journal.acts, end)));
      match end {
        case Raised(error) => return Stopped(Crashed(error));
        case Finished(outcome) =>
          var after := latest.(transcript := outcome.transcript, stage := STAGE_VERIFYING);
          if outcome.cancelled {
            moved := CancelWork(current, after, ResultOf(outcome));
          } else {
            moved := VerifyWork(k, current, after, ResultOf(outcome));
          }
      }
    }

    /** What the tool loop calls back with: a transcript after every step, a status around every question. */
    method CallBack(acts: seq<Act>, task: Task, state: RunState, ghost execution: Entry)
      returns (current: Task, latest: RunState)
      modifies tasks
      requires tasks.history != [] && tasks.history[|tasks.history| - 1] == execution
      ensures var kept := KeepAll(Kept([execution], task, state), acts);
              && current == kept.task && latest == kept.state
              && tasks.history == old(tasks.history)[..|old(tasks.history)| - 1] + kept.log
    {
      ghost var earlier := tasks.history[..|tasks.history| - 1];
      ghost var start := Kept([execution], task, state);
      current, latest := task, state;
      assert acts[..0] == [];
      for i := 0 to |acts|
        invariant KeepAll(start, acts[..i]).task == current && KeepAll(start, acts[..i]).state == latest
        invariant tasks.history == earlier + KeepAll(start, acts[..i]).log
      {
        ghost var kept := KeepAll(start, acts[..i]);
        assert acts[..i + 1][..i] == acts[..i];
        match acts[i] {
          case Saved(t) =>
            latest := latest.(transcript := t);
            current := current.(step := t.steps, state := SaveRunState(latest), cost := t.cost);
            tasks.Save(current, None);
            assert earlier + kept.log + [Row(current, None)] == earlier + (kept.log + [Row(current, None)]);
          case Told(status) =>
            if current.status != status && CanTransition(current.status, status) {
              var event := TaskEvent(current.status, status);
              current := current.(status := status);
              tasks.Save(current, Some(event));
              assert earlier + kept.log + [Row(current, Some(event))] == earlier + (kept.log + [Row(current, Some(event))]);
            }
          case _ =>
        }
      }
      assert acts[..|acts|] == acts;
    }

    method VerifyWork(k: nat, task: Task, state: RunState, result: TaskResult) returns (moved: Moved)
      modifies tasks
      ensures moved == Verify(surroundings, k, task, state, result).moved
      ensures tasks.history == old(tasks.history) + Verify(surroundings, k, task, state, result).log
    {
      moved := Transition(task, VERIFYING, task, state);
      if moved.Stopped? {
        return;
      }
      var checking := moved.task;
      var verdict := Judge(result, surroundings.opinion(k));
      tasks.Note(Ruling(result.summary, verdict));
      match verdict {
        case NoVerdict(error) => return Stopped(Crashed(error));
        case Passed =>
          moved := Transition(checking, COMPLETED, checking.(result := Some(result)), state.(stage := STAGE_DONE));
        case Rejected(reason, missing) =>
          if state.attempt < MAX_ATTEMPTS && result.stoppedBy.None? {
            moved := Transition(checking, PLANNING, checking,
                                state.(stage := STAGE_PLANNING, attempt := state.attempt + 1,
                                       feedback := if missing != [] then missing else [reason]));
          } else {
            moved := Transition(checking, FAILED,
                                checking.(error := Some("VerificationFailed"), result := Some(result),
                                          attempts := checking.attempts + 1),
                                state.(stage := STAGE_DONE));
          }
      }
    }

    method CancelWork(task: Task, state: RunState, result: TaskResult) returns (moved: Moved)
      modifies tasks
      ensures moved == Cancel(task, state, result).moved
      ensures tasks.history == old(tasks.history) + Cancel(task, state, result).log
    {
      moved := Transition(task, CANCELLED, task.(result := Some(result)), state.(stage := STAGE_DONE));
    }

    /** `run`: load the state the row holds and work through the stages, saving as it goes, until one is the last. */
    method Run(start: Task) returns (end: RunEnd)
      modifies tasks
      ensures end == Session(surroundings, employee, start).end
      ensures tasks.history == old(tasks.history) + Session(surroundings, employee, start).log
    {
      hide OneStage, Stages, Plan, Execute, LoadRunState;
      var loaded := LoadRunState(start.state);
      if loaded.None? {
        return Crashed(UnexpectedError("ValueError"));
      }
      var task, state, k := start, loaded.value, 0;
      ghost var done: seq<Entry> := [];
      ghost var whole := Stages(surroundings, employee, 0, start, state);
      while state.stage != STAGE_DONE
        invariant tasks.history == old(tasks.history) + done
        invariant whole.end == Stages(surroundings, employee, k, task, state).end
        invariant whole.log == done + Stages(surroundings, employee, k, task, state).log
        decreases SendBacksLeft(state), Distance(state)
      {
        StagesStep(surroundings, employee, k, task, state);
        ghost var log := OneStage(surroundings, employee, k, task, state).log;
        var moved := AdvanceStage(k, task, state);
        assert old(tasks.history) + done + log == old(tasks.history) + (done + log);
        if moved.Stopped? {
          return moved.end;
        }
        StagesEnd(surroundings, employee, k, task, state);
        ghost var rest := Stages(surroundings, employee, k + 1, moved.task, moved.state).log;
        assert done + (log + rest) == done + log + rest;
        task, state, k, done := moved.task, moved.state, k + 1, done + log;
      }
      StagesDone(surroundings, employee, k, task, state);
      assert done + [] == done;
      return Returned(if task.result.Some? then task.result.value else TaskResult("", 0, [], None, []));
    }

    method AdvanceStage(k: nat, task: Task, state: RunState) returns (moved: Moved)
      requires state.stage != STAGE_DONE
      modifies tasks
      ensures moved == OneStage(surroundings, employee, k, task, state).moved
      ensures tasks.history == old(tasks.history) + OneStage(surroundings, employee, k, task, state).log
    {
      hide Plan, Execute;
      if state.stage == STAGE_PLANNING {
        moved := PlanWork(k, task, state);
      } else if state.stage == STAGE_EXECUTING {
        moved := ExecuteWork(k, task, state);
      } else {
        moved := Moved(task, state.(stage := STAGE_PLANNING));
      }
    }
  }

  lemma StagesDone(s: Surroundings, e: Employee, k: nat, task: Task, state: RunState)
    requires state.stage == STAGE_DONE
    ensures Stages(s, e, k, task, state) ==
            RunLog([], Returned(if task.result.Some? then task.result.value else TaskResult("", 0, [], None, [])))
  {
    hide OneStage;
  }
}
