/** The task and its state machine (domain/tasks/task.py), and what a failure means (application/orchestrator.py). */
module Tasks {
  import opened Wrappers
  import opened Transcripts

  datatype TaskStatus =
    | CREATED | PLANNING | RUNNING | WAITING_FOR_TOOL | WAITING_FOR_APPROVAL | VERIFYING
    | COMPLETED | FAILED | CANCELLED

  const TERMINAL_STATUSES: set<TaskStatus> := {COMPLETED, FAILED, CANCELLED}

  const RESUMABLE_STATUSES: set<TaskStatus> := {CREATED, PLANNING, RUNNING, WAITING_FOR_TOOL, VERIFYING}

  function AllowedTransitions(from: TaskStatus): set<TaskStatus> {
    match from
    case CREATED => {PLANNING, RUNNING, FAILED, CANCELLED}
    case PLANNING => {RUNNING, FAILED, CANCELLED}
    case RUNNING => {WAITING_FOR_TOOL, WAITING_FOR_APPROVAL, VERIFYING, PLANNING, COMPLETED, FAILED, CANCELLED}
    case WAITING_FOR_TOOL => {RUNNING, FAILED, CANCELLED}
    case WAITING_FOR_APPROVAL => {RUNNING, FAILED, CANCELLED}
    case VERIFYING => {COMPLETED, PLANNING, RUNNING, FAILED, CANCELLED}
    case COMPLETED => {}
    case FAILED => {}
    case CANCELLED => {}
  }

  predicate CanTransition(from: TaskStatus, to: TaskStatus) {
    to in AllowedTransitions(from)
  }

  predicate IsTerminal(status: TaskStatus) {
    status in TERMINAL_STATUSES
  }

  datatype TaskEvent = TaskEvent(from: TaskStatus, to: TaskStatus)

  datatype LimitKind = STEPS | COST | WALL_TIME

  datatype TaskResult = TaskResult(
    summary: string, steps: int, observations: seq<Observation>, stoppedBy: Option<LimitKind>, artifacts: seq<string>)

  datatype Task = Task(
    status: TaskStatus,
    step: int,
    state: SavedRunState,
    result: Option<TaskResult>,
    error: Option<string>,
    attempts: int,
    cost: real)

  /** `Task.create`: a task nobody has started. */
  const NEW_TASK := Task(CREATED, 0, NOTHING_SAVED, None, None, 0, 0.0)

  // ----- The table -----

  /** A task that is not finished can always be failed and always be cancelled; a finished one goes nowhere. */
  lemma EveryUnfinishedTaskCanEnd(status: TaskStatus)
    ensures IsTerminal(status) <==> AllowedTransitions(status) == {}
    ensures !IsTerminal(status) <==> CanTransition(status, FAILED) && CanTransition(status, CANCELLED)
    ensures status in RESUMABLE_STATUSES <==> !IsTerminal(status) && status != WAITING_FOR_APPROVAL
  {
  }

  /** Events recorded one after another, each from where the one before it ended. */
  ghost predicate IsPath(start: TaskStatus, events: seq<TaskEvent>, end: TaskStatus)
    decreases |events|
  {
    if events == [] then start == end
    else events[0].from == start && CanTransition(start, events[0].to) && IsPath(events[0].to, events[1..], end)
  }

  /** `transition_to`: the moved task with the event of its move, or the two statuses of an illegal move. It
      succeeds exactly when some event leads there, and then its event does, from a task that differs in nothing but
      the status. */
  function TransitionTo(task: Task, status: TaskStatus): (r: Result<(Task, TaskEvent), TaskEvent>)
    ensures r.Ok? <==> exists event :: IsPath(task.status, [event], status)
    ensures r.Ok? ==> IsPath(task.status, [r.value.1], r.value.0.status) && r.value.0.status == status
    ensures r.Ok? ==> r.value.0.(status := task.status) == task
    ensures r.Err? ==> r.error.from == task.status && r.error.to == status && !IsPath(task.status, [r.error], status)
  {
    var event := TaskEvent(task.status, status);
    assert forall e: TaskEvent :: [e][1..] == [];
    if CanTransition(task.status, status) then
      assert IsPath(task.status, [event], status);
      Ok((task.(status := status), event))
    else Err(event)
  }

  lemma {:induction false} PathAppend(
      a: TaskStatus, first: seq<TaskEvent>, b: TaskStatus, second: seq<TaskEvent>, c: TaskStatus)
    requires IsPath(a, first, b) && IsPath(b, second, c)
    ensures IsPath(a, first + second, c)
    decreases |first|
  {
    if first == [] {
      assert first + second == second;
    } else {
      PathAppend(first[0].to, first[1..], b, second, c);
      assert (first + second)[1..] == first[1..] + second;
    }
  }

  /** Nothing follows a terminal event, so on any path it is the last one and there is at most one. */
  lemma {:induction false} TerminalEventIsLast(start: TaskStatus, events: seq<TaskEvent>, end: TaskStatus, k: nat)
    requires IsPath(start, events, end) && k < |events|
    ensures IsTerminal(events[k].to) ==> k == |events| - 1 && end == events[k].to
    decreases k
  {
    if k == 0 {
      if |events| > 1 {
        assert IsPath(events[0].to, events[1..], end) && events[1..][0] == events[1];
      }
    } else {
      TerminalEventIsLast(events[0].to, events[1..], end, k - 1);
    }
  }

  // ----- What a failure means -----

  /** The exception hierarchy of domain/errors.py, as far as `classify` looks at it. */
  datatype Exception =
    | ProviderError(name: string, transient: bool)
    | IntegrationError(name: string, transient: bool)
    | ConfigurationError(name: string)
    | PermissionDeniedError
    | StorageError(name: string)
    | ExecutionError(name: string)
    | InvalidStateTransitionError(move: TaskEvent)
    | OtherPrometheusError(name: string)
    | UnexpectedError(name: string)

  datatype FailureKind = TRANSIENT | PERMANENT | CONFIGURATION | EXECUTION | UNKNOWN

  function Classify(error: Exception): FailureKind {
    match error
    case ProviderError(_, transient) => if transient then TRANSIENT else PERMANENT
    case IntegrationError(_, transient) => if transient then TRANSIENT else PERMANENT
    case ConfigurationError(_) => CONFIGURATION
    case PermissionDeniedError => PERMANENT
    case StorageError(_) => CONFIGURATION
    case ExecutionError(_) => EXECUTION
    case InvalidStateTransitionError(_) => PERMANENT
    case OtherPrometheusError(_) => PERMANENT
    case UnexpectedError(_) => UNKNOWN
  }

  function ErrorName(error: Exception): string {
    match error
    case PermissionDeniedError => "PermissionDeniedError"
    case InvalidStateTransitionError(_) => "InvalidStateTransitionError"
    case _ => error.name
  }

  predicate IsRetryable(error: Exception) {
    Classify(error) == TRANSIENT
  }

  /** The ways into each status: work begins from planning or after any wait, a person or a tool is waited for only while
      running, only a running task is checked, it is planned anew only before it ran, while it runs or when it was
      turned down, and it is completed only while running or after the check. */
  lemma WaysIn(from: TaskStatus)
    ensures CanTransition(from, RUNNING) <==> !IsTerminal(from) && from != RUNNING
    ensures CanTransition(from, WAITING_FOR_TOOL) <==> from == RUNNING
    ensures CanTransition(from, WAITING_FOR_APPROVAL) <==> from == RUNNING
    ensures CanTransition(from, VERIFYING) <==> from == RUNNING
    ensures CanTransition(from, PLANNING) <==> from in {CREATED, RUNNING, VERIFYING}
    ensures CanTransition(from, COMPLETED) <==> from in {RUNNING, VERIFYING}
    ensures !CanTransition(from, CREATED)
  {
  }
}
