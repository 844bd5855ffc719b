/**
 * Running a workflow (application/workflows/engine.py, `WorkflowEngine.run` and `_run_step`).
 *
 * The work itself is an arbitrary function of the step, of what earlier steps produced and of the attempt number.
 */
module WorkflowEngine {
  import opened Wrappers
  import opened WorkflowOrder

  /** What one call of `submit_and_run` comes back with. */
  datatype Attempt = Raised(message: string) | Ended(taskId: nat, completed: bool, summary: string)

  type Work = (Step, map<string, string>, nat) -> Attempt

  datatype StepOutcome = StepOutcome(
    step: string, employee: string, taskId: Option<nat>, succeeded: bool, attempts: nat, summary: string)

  datatype RunStatus = Running | Completed | Failed

  datatype RunSummary = Unfinished | StepFailed(step: string) | SomeFailed(ran: nat, failed: seq<string>) | AllRan(ran: nat)

  datatype WorkflowRun = WorkflowRun(workflow: string, status: RunStatus, steps: seq<StepOutcome>, summary: RunSummary)

  /** Every save of a run, oldest first. */
  class WorkflowRunRepository {
    var saved: seq<WorkflowRun>

    constructor ()
      ensures saved == []
    {
      saved := [];
    }

    method Save(run: WorkflowRun)
      modifies this
      ensures saved == old(saved) + [run]
    {
      saved := saved + [run];
    }
  }

  // ----- One step -----

  predicate Succeeds(attempt: Attempt) {
    attempt.Ended? && attempt.completed
  }

  function SummaryOf(attempt: Attempt): string {
    if attempt.Raised? then attempt.message else attempt.summary
  }

  function AttemptLimit(step: Step): nat {
    if step.maxAttempts < 1 then 1 else step.maxAttempts
  }

  /** The task of the last attempt that got as far as a task. */
  ghost predicate LastTask(step: Step, produced: map<string, string>, work: Work, attempts: nat, taskId: Option<nat>) {
    match taskId
    case None => forall a :: 1 <= a <= attempts ==> work(step, produced, a).Raised?
    case Some(id) =>
      exists a :: 1 <= a <= attempts && work(step, produced, a).Ended? && work(step, produced, a).taskId == id &&
        forall b :: a < b <= attempts ==> work(step, produced, b).Raised?
  }

  /** The step was tried until its first success or until it ran out of attempts, and the outcome is its last attempt. */
  ghost predicate IsOutcome(step: Step, produced: map<string, string>, work: Work, o: StepOutcome) {
    && o.step == step.name && o.employee == step.employee
    && (if step.maxAttempts < 1 then o.attempts == 1 else 1 <= o.attempts <= step.maxAttempts)
    && (forall a: nat :: 1 <= a < o.attempts ==> !Succeeds(work(step, produced, a)))
    && o.succeeded == Succeeds(work(step, produced, o.attempts))
    && (!o.succeeded ==> o.attempts >= step.maxAttempts)
    && (match work(step, produced, o.attempts)
        case Raised(message) => o.summary == message
        case Ended(_, _, summary) => o.summary == summary)
    && LastTask(step, produced, work, o.attempts, o.taskId)
  }

  /** The retry loop as a function: `o` is the outcome so far, `attempt` the next attempt to make. */
  function RetryFrom(step: Step, produced: map<string, string>, work: Work, attempt: nat, o: StepOutcome): StepOutcome
    decreases AttemptLimit(step) + 1 - attempt
  {
    if attempt > AttemptLimit(step) then o
    else match work(step, produced, attempt)
      case Raised(message) =>
        RetryFrom(step, produced, work, attempt + 1, o.(attempts := attempt, summary := message))
      case Ended(taskId, completed, summary) =>
        var next := o.(taskId := Some(taskId), attempts := attempt, succeeded := completed, summary := summary);
        if completed then next else RetryFrom(step, produced, work, attempt + 1, next)
  }

  function OutcomeOf(step: Step, produced: map<string, string>, work: Work): StepOutcome {
    RetryFrom(step, produced, work, 1, StepOutcome(step.name, step.employee, None, false, 0, ""))
  }

  method RunStep(step: Step, produced: map<string, string>, work: Work) returns (outcome: StepOutcome)
    ensures outcome == OutcomeOf(step, produced, work)
  {
    outcome := StepOutcome(step.name, step.employee, None, false, 0, "");
    for attempt := 1 to AttemptLimit(step) + 1
      invariant RetryFrom(step, produced, work, attempt, outcome) == OutcomeOf(step, produced, work)
    {
      var result := work(step, produced, attempt);
      match result
      case Raised(message) =>
        outcome := outcome.(attempts := attempt, summary := message);
      case Ended(taskId, completed, summary) =>
        outcome := outcome.(taskId := Some(taskId), attempts := attempt, succeeded := completed, summary := summary);
        if outcome.succeeded {
          return;
        }
    }
  }

  lemma {:induction false} RetryOutcome(
      step: Step, produced: map<string, string>, work: Work, attempt: nat, o: StepOutcome)
    requires 1 <= attempt <= AttemptLimit(step) + 1
    requires o.step == step.name && o.employee == step.employee && o.attempts == attempt - 1 && !o.succeeded
    requires forall a: nat :: 1 <= a < attempt ==> !Succeeds(work(step, produced, a))
    requires attempt > 1 ==> o.summary == SummaryOf(work(step, produced, o.attempts))
    requires LastTask(step, produced, work, o.attempts, o.taskId)
    ensures IsOutcome(step, produced, work, RetryFrom(step, produced, work, attempt, o))
    decreases AttemptLimit(step) + 1 - attempt
  {
    if attempt <= AttemptLimit(step) {
      match work(step, produced, attempt)
      case Raised(message) =>
        RetryOutcome(step, produced, work, attempt + 1, o.(attempts := attempt, summary := message));
      case Ended(taskId, completed, summary) =>
        var next := o.(taskId := Some(taskId), attempts := attempt, succeeded := completed, summary := summary);
        assert LastTask(step, produced, work, attempt, Some(taskId));
        if !completed { RetryOutcome(step, produced, work, attempt + 1, next); }
    }
  }

  /** A step's outcome: attempts run to the first success or to the limit, and the last one is what is reported. */
  lemma OutcomeIsFirstSuccess(step: Step, produced: map<string, string>, work: Work)
    ensures IsOutcome(step, produced, work, OutcomeOf(step, produced, work))
  {
    RetryOutcome(step, produced, work, 1, StepOutcome(step.name, step.employee, None, false, 0, ""));
  }

  // ----- The whole run -----

  /** What the first `k` outcomes hand to later steps: the summaries of the ones that succeeded. */
  ghost function Produced(outcomes: seq<StepOutcome>, k: nat): map<string, string>
    requires k <= |outcomes|
  {
    if k == 0 then map[]
    else
      var rest := Produced(outcomes, k - 1);
      if outcomes[k - 1].succeeded then rest[outcomes[k - 1].step := outcomes[k - 1].summary] else rest
  }

  /** A step that failed and is declared to stop the run. */
  predicate Stops(step: Step, o: StepOutcome) {
    !o.succeeded && step.onFailure.Stop?
  }

  /** The recorded steps are the first steps of the run order, each run with what the earlier ones produced. */
  ghost predicate Recorded(order: seq<Step>, work: Work, outcomes: seq<StepOutcome>) {
    |outcomes| <= |order| && forall k :: 0 <= k < |outcomes| ==> RecordedAt(order, work, outcomes, k)
  }

  ghost predicate RecordedAt(order: seq<Step>, work: Work, outcomes: seq<StepOutcome>, k: int)
    requires 0 <= k < |outcomes| <= |order|
  {
    outcomes[k] == OutcomeOf(order[k], Produced(outcomes, k), work)
  }

  lemma RecordedStep(order: seq<Step>, work: Work, outcomes: seq<StepOutcome>, o: StepOutcome)
    requires Recorded(order, work, outcomes) && |outcomes| < |order|
    requires o == OutcomeOf(order[|outcomes|], Produced(outcomes, |outcomes|), work)
    ensures Recorded(order, work, outcomes + [o])
    ensures forall j: nat :: j <= |outcomes| ==> Produced(outcomes + [o], j) == Produced(outcomes, j)
  {
    hide Produced, OutcomeOf;
    forall j: nat | j <= |outcomes| ensures Produced(outcomes + [o], j) == Produced(outcomes, j) {
      ProducedIsStable(outcomes, [o], j);
    }
    forall j | 0 <= j < |outcomes + [o]| ensures RecordedAt(order, work, outcomes + [o], j) {
      if j < |outcomes| {
        assert RecordedAt(order, work, outcomes, j);
      }
    }
  }

  /** Failed exactly when the last recorded step is the only one that failed and stops; completed otherwise, with
      every step recorded and every failure survivable. */
  ghost predicate Concluded(order: seq<Step>, run: WorkflowRun)
    requires |run.steps| <= |order|
  {
    var n := |run.steps|;
    && (forall k :: 0 <= k < n - 1 ==> !Stops(order[k], run.steps[k]))
    && (run.status.Failed? <==> n > 0 && Stops(order[n - 1], run.steps[n - 1]))
    && (!run.status.Failed? ==> run.status.Completed? && n == |order|)
    && (run.status.Failed? ==> run.summary == StepFailed(order[n - 1].name))
    && (run.status.Completed? ==>
          run.summary == if FailedNames(run.steps) == [] then AllRan(n) else SomeFailed(n, FailedNames(run.steps)))
  }

  function FailedNames(outcomes: seq<StepOutcome>): (r: seq<string>)
    ensures r == [] <==> forall k :: 0 <= k < |outcomes| ==> outcomes[k].succeeded
  {
    if outcomes == [] then []
    else
      var n := |outcomes| - 1;
      var rest := FailedNames(outcomes[..n]);
      assert forall k :: 0 <= k < n ==> outcomes[..n][k] == outcomes[k];
      if outcomes[n].succeeded then rest else rest + [outcomes[n].step]
  }

  /** What is on disk after `k` steps of a run that is still going. */
  function Snapshot(name: string, outcomes: seq<StepOutcome>, k: nat): WorkflowRun
    requires k <= |outcomes|
  {
    WorkflowRun(name, Running, outcomes[..k], Unfinished)
  }

  /** What has been saved by the time these steps are recorded: one row before the first step, one after each. */
  function Progress(name: string, outcomes: seq<StepOutcome>): seq<WorkflowRun> {
    seq(|outcomes| + 1, k requires 0 <= k <= |outcomes| => Snapshot(name, outcomes, k))
  }

  lemma ProgressAtFirst(name: string)
    ensures Progress(name, []) == [WorkflowRun(name, Running, [], Unfinished)]
  {
  }

  lemma ProgressStep(name: string, outcomes: seq<StepOutcome>, o: StepOutcome)
    ensures Progress(name, outcomes + [o]) ==
            Progress(name, outcomes) + [WorkflowRun(name, Running, outcomes + [o], Unfinished)]
  {
    var all := outcomes + [o];
    assert all[..|all|] == all;
    assert forall k :: 0 <= k <= |outcomes| ==> all[..k] == outcomes[..k];
  }

  /** Everything saved by a run: its progress, and the run as it ended. */
  function Journal(run: WorkflowRun): seq<WorkflowRun> {
    Progress(run.workflow, run.steps) + [run]
  }

  lemma {:induction false} ProducedIsStable(outcomes: seq<StepOutcome>, more: seq<StepOutcome>, k: nat)
    requires k <= |outcomes|
    ensures Produced(outcomes + more, k) == Produced(outcomes, k)
  {
    if k > 0 {
      ProducedIsStable(outcomes, more, k - 1);
    }
  }

  /** The steps of a run, in the order they are given. */
  method RunInOrder(name: string, order: seq<Step>, work: Work, runs: WorkflowRunRepository) returns (run: WorkflowRun)
    modifies runs
    ensures run.workflow == name && Recorded(order, work, run.steps) && Concluded(order, run)
    ensures runs.saved == old(runs.saved) + Journal(run)
  {
    hide OutcomeOf, IsOutcome, RecordedAt, Snapshot, FailedNames;
    run := WorkflowRun(name, Running, [], Unfinished);
    runs.Save(run);
    ProgressAtFirst(name);
    var produced := map[];
    for k := 0 to |order|
      invariant run == WorkflowRun(name, Running, run.steps, Unfinished) && |run.steps| == k
      invariant Recorded(order, work, run.steps)
      invariant produced == Produced(run.steps, k)
      invariant forall j :: 0 <= j < k ==> !Stops(order[j], run.steps[j])
      invariant runs.saved == old(runs.saved) + Progress(name, run.steps)
    {
      var step, before := order[k], run.steps;
      var outcome := RunStep(step, produced, work);
      RecordedStep(order, work, before, outcome);
      ProgressStep(name, before, outcome);
      run := run.(steps := run.steps + [outcome]);
      runs.Save(run);
      if outcome.succeeded {
        assert outcome.step == step.name by { OutcomeIsFirstSuccess(step, produced, work); }
        produced := produced[step.name := outcome.summary];
      } else if step.onFailure.Stop? {
        run := run.(status := Failed, summary := StepFailed(step.name));
        runs.Save(run);
        return;
      }
    }
    var failed := FailedNames(run.steps);
    var summary := if failed == [] then AllRan(|run.steps|) else SomeFailed(|run.steps|, failed);
    run := run.(status := Completed, summary := summary);
    runs.Save(run);
  }

  method Run(name: string, steps: seq<Step>, work: Work, runs: WorkflowRunRepository)
    returns (r: Result<WorkflowRun, OrderError>)
    modifies runs
    ensures r.Err? <==> !WellFormed(steps) || HasCycle(steps)
    ensures r.Err? && r.error.DuplicateNames? <==> !UniqueNames(steps)
    ensures r.Err? && r.error.DuplicateNames? ==> r.error.names == DuplicatedNames(steps)
    ensures r.Err? && r.error.UnknownDependency? <==> UniqueNames(steps) && !KnownNames(steps)
    ensures r.Err? && r.error.UnknownDependency? ==> FirstUnknown(steps, r.error.step, r.error.missing)
    ensures r.Err? && r.error.DependencyCycle? <==> WellFormed(steps) && HasCycle(steps)
    ensures r.Err? && r.error.DependencyCycle? ==> r.error.stuck == StuckNames(steps)
    ensures r.Err? ==> runs.saved == old(runs.saved)
    ensures r.Ok? ==> runs.saved == old(runs.saved) + Journal(r.value)
    ensures r.Ok? ==> exists order :: InRunOrder(steps, order) && Recorded(order, work, r.value.steps)
                                      && Concluded(order, r.value) && r.value.workflow == name
  {
    var ordering := OrderSteps(steps);
    if ordering.Err? {
      return Err(ordering.error);
    }
    var run := RunInOrder(name, ordering.value, work, runs);
    return Ok(run);
  }

  // ----- What a recorded run guarantees -----

  /** A run fails exactly at a failed step that is declared to stop it, which is then the last one recorded; a failure that
      is declared survivable never ends it, and every step of the order is recorded then. */
  lemma OnlyStoppingFailuresStop(order: seq<Step>, run: WorkflowRun)
    requires |run.steps| <= |order| && Concluded(order, run)
    ensures var n := |run.steps|;
            && (run.status.Failed? <==>
                  exists k :: 0 <= k < n && !run.steps[k].succeeded && order[k].onFailure.Stop?)
            && (forall k :: 0 <= k < n && !run.steps[k].succeeded && order[k].onFailure.Stop? ==> k == n - 1)
            && (!run.status.Failed? ==> n == |order|)
  {
    assert forall k :: 0 <= k < |run.steps| ==>
        (Stops(order[k], run.steps[k]) <==> !run.steps[k].succeeded && order[k].onFailure.Stop?);
  }

  /** Whatever a recorded step depends on was recorded before it, and if it failed it was declared survivable. */
  lemma StartedAfterDependencies(
      steps: seq<Step>, order: seq<Step>, work: Work, run: WorkflowRun, k: nat, name: string)
    requires WellFormed(steps) && !HasCycle(steps) && InRunOrder(steps, order)
    requires Recorded(order, work, run.steps) && Concluded(order, run)
    requires k < |run.steps| && name in order[k].dependsOn
    ensures exists j :: 0 <= j < k && run.steps[j].step == name
                        && (run.steps[j].succeeded || order[j].onFailure.Continue?)
  {
    var idx :| IsRunOrder(steps, idx) && order == Select(steps, idx);
    var j := DependenciesComeFirst(steps, idx, k, name);
    OutcomeIsFirstSuccess(order[j], Produced(run.steps, j), work);
    assert RecordedAt(order, work, run.steps, j);
    assert !Stops(order[j], run.steps[j]);
  }

  /** A step reads exactly the results of the earlier steps that succeeded. */
  lemma {:induction false} ReadsEarlierSuccesses(outcomes: seq<StepOutcome>, k: nat, name: string)
    requires k <= |outcomes|
    requires forall i, j :: 0 <= i < j < |outcomes| ==> outcomes[i].step != outcomes[j].step
    ensures name in Produced(outcomes, k) <==> exists j :: 0 <= j < k && outcomes[j].step == name && outcomes[j].succeeded
    ensures forall j :: 0 <= j < k && outcomes[j].step == name && outcomes[j].succeeded ==>
              name in Produced(outcomes, k) && Produced(outcomes, k)[name] == outcomes[j].summary
  {
    if k > 0 {
      ReadsEarlierSuccesses(outcomes, k - 1, name);
    }
  }

  /** The work decides everything: two recorded runs of one workflow agree step by step as far as both go. */
  lemma {:induction false} RunsAgree(order: seq<Step>, work: Work, a: seq<StepOutcome>, b: seq<StepOutcome>, k: nat)
    requires Recorded(order, work, a) && Recorded(order, work, b) && k <= |a| && k <= |b|
    ensures Produced(a, k) == Produced(b, k) && forall j :: 0 <= j < k ==> a[j] == b[j]
  {
    if k > 0 {
      RunsAgree(order, work, a, b, k - 1);
      assert RecordedAt(order, work, a, k - 1) && RecordedAt(order, work, b, k - 1);
    }
  }

  /** Two concluded runs of one workflow are the same run. */
  lemma RunIsDetermined(order: seq<Step>, work: Work, r1: WorkflowRun, r2: WorkflowRun)
    requires Recorded(order, work, r1.steps) && Concluded(order, r1)
    requires Recorded(order, work, r2.steps) && Concluded(order, r2)
    requires r1.workflow == r2.workflow
    ensures r1 == r2
  {
    var k := if |r1.steps| < |r2.steps| then |r1.steps| else |r2.steps|;
    RunsAgree(order, work, r1.steps, r2.steps, k);
    assert |r1.steps| == |r2.steps|;
    assert r1.steps == r2.steps;
  }
}
