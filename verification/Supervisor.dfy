/**
 * The supervisor of a plan: waves of tasks under a parallel limit, recovery, and what a failed task means
 * (application/prometheus/supervisor.py, domain/workforce/acceptance.py).
 *
 * `Supervise` is a whole plan as a function of what the attempts come to. `Supervisor.Run` runs each wave with its
 * tasks interleaved in any order the limit allows, and is proved to come to the same.
 */
module Supervisor {
  import opened Wrappers
  import opened Transcripts
  import opened Tasks
  import opened Plans
  import opened Coordinator

  datatype Recovery = RETRY | REASSIGN | REPLAN | GIVE_UP

  // ----- Accepting a result -----

  datatype Acceptance = Acceptance(accepted: bool, refused: bool)

  const TAKEN := Acceptance(true, false)

  function ObservationsOf(task: Task): seq<Observation> {
    if task.result.Some? then task.result.value.observations else []
  }

  predicate SomethingSucceeded(observations: seq<Observation>) {
    exists k :: 0 <= k < |observations| && observations[k].succeeded
  }

  predicate SomethingRefused(observations: seq<Observation>) {
    exists k :: 0 <= k < |observations| && observations[k].details.refused
  }

  /** A completed task whose every call failed has done nothing, whatever it says; that it was refused something is
      worth knowing then. */
  function Accept(task: Task): Acceptance {
    var o := ObservationsOf(task);
    if task.status == COMPLETED && o != [] && !SomethingSucceeded(o) then Acceptance(false, SomethingRefused(o)) else TAKEN
  }

  /** `accept`, counting. */
  method JudgeResult(task: Task) returns (a: Acceptance)
    ensures a == Accept(task)
  {
    if task.status != COMPLETED {
      return TAKEN;
    }
    var o := ObservationsOf(task);
    var attempted, succeeded, refused := 0, 0, 0;
    for k := 0 to |o|
      invariant attempted == k && succeeded >= 0 && refused >= 0
      invariant succeeded > 0 <==> exists j :: 0 <= j < k && o[j].succeeded
      invariant refused > 0 <==> exists j :: 0 <= j < k && !o[j].succeeded && o[j].details.refused
    {
      attempted := attempted + 1;
      if o[k].succeeded {
        succeeded := succeeded + 1;
      } else if o[k].details.refused {
        refused := refused + 1;
      }
    }
    if attempted == 0 || succeeded > 0 {
      return TAKEN;
    }
    return Acceptance(false, refused > 0);
  }

  // ----- What a failure calls for -----

  datatype TaskOutcome = TaskOutcome(task: Task, employee: string, acceptance: Acceptance)

  predicate Succeeded(outcome: TaskOutcome) {
    outcome.task.status == COMPLETED && outcome.acceptance.accepted
  }

  const TRANSIENT_ERRORS: set<string> :=
    {"RateLimitError", "ProviderTimeoutError", "ProviderError", "ProviderUnavailableError"}

  /** `classify`: by what the run reported, in this order. */
  function RecoveryOf(task: Task): Recovery {
    if task.status == COMPLETED then RETRY
    else if task.status == CANCELLED then GIVE_UP
    else if task.result.Some? && task.result.value.stoppedBy.Some? then REPLAN
    else
      var kind := if task.error.Some? then task.error.value else "";
      if kind in TRANSIENT_ERRORS then RETRY
      else if kind == "PermissionDeniedError" || SomethingRefused(ObservationsOf(task)) then REASSIGN
      else REPLAN
  }

  function RecoveryFor(outcome: TaskOutcome): Recovery {
    if outcome.task.status == COMPLETED then if outcome.acceptance.refused then REASSIGN else REPLAN
    else RecoveryOf(outcome.task)
  }

  // ----- One task -----

  /** What an attempt comes to: the employee the delegator chooses for the task with this context, other than these,
      and the finished task. */
  datatype Attempted = Attempted(employee: string, finished: Task)

  type Workforce = (PlannedTask, nat, SharedContext, set<string>) -> Attempted

  function Outcome(
      w: Workforce, planned: PlannedTask, attempt: nat, context: SharedContext, avoid: set<string>): TaskOutcome
  {
    var a := w(planned, attempt, context, avoid);
    TaskOutcome(a.finished, a.employee, Accept(a.finished))
  }

  /** The record of the run shows that the employee could not reach something: a permission it does not have, or a call
      that never got to its tool. */
  predicate CouldNotReach(task: Task) {
    (task.status != COMPLETED && task.error == Some("PermissionDeniedError")) || SomethingRefused(ObservationsOf(task))
  }

  /** The errors under which a provider that may answer the next time is known. */
  predicate ProviderFailed(error: Option<string>) {
    || error == Some("RateLimitError") || error == Some("ProviderTimeoutError")
    || error == Some("ProviderError") || error == Some("ProviderUnavailableError")
  }

  /** What each recovery stands for, read off the record of the attempt: nobody recovers from a cancellation; the same
      again is for a failure of the provider that no budget caused; somebody else is for work that could not be reached,
      unless a budget or the provider stopped it, reported as done or not; everything else needs another plan. */
  lemma WhatRecoveryMeans(
      w: Workforce, planned: PlannedTask, attempt: nat, context: SharedContext, avoid: set<string>)
    requires !Succeeded(Outcome(w, planned, attempt, context, avoid))
    ensures var o := Outcome(w, planned, attempt, context, avoid); var task := o.task;
            var stopped := task.status != COMPLETED && task.result.Some? && task.result.value.stoppedBy.Some?;
            var provider := task.status != COMPLETED && ProviderFailed(task.error);
            && (RecoveryFor(o) == GIVE_UP <==> task.status == CANCELLED)
            && (RecoveryFor(o) == RETRY <==> task.status != CANCELLED && !stopped && provider)
            && (RecoveryFor(o) == REASSIGN <==> task.status != CANCELLED && !stopped && !provider && CouldNotReach(task))
  {
    var task := w(planned, attempt, context, avoid).finished;
    assert "" !in TRANSIENT_ERRORS && "PermissionDeniedError" !in TRANSIENT_ERRORS by { NamesDiffer(); }
  }

  lemma NamesDiffer()
    ensures "" !in TRANSIENT_ERRORS && "PermissionDeniedError" !in TRANSIENT_ERRORS
  {
    assert |"PermissionDeniedError"| == 21 && |"ProviderTimeoutError"| == 20 && |"ProviderUnavailableError"| == 24;
    assert |"RateLimitError"| == 14 && |"ProviderError"| == 13;
  }

  /** Where a task stands: about to make an attempt, or finished. */
  datatype Progress = Attempting(attempt: nat, avoid: set<string>) | Ended(outcome: TaskOutcome)

  const FIRST_ATTEMPT := Attempting(1, {})

  /** One attempt, and whether there will be another. */
  function AfterAttempt(
      w: Workforce, maxAttempts: int, planned: PlannedTask, context: SharedContext, p: Progress): Progress
    requires p.Attempting?
  {
    var outcome := Outcome(w, planned, p.attempt, context, p.avoid);
    if Succeeded(outcome) || p.attempt >= maxAttempts then Ended(outcome)
    else
      match RecoveryFor(outcome)
      case REASSIGN => Attempting(p.attempt + 1, p.avoid + {outcome.employee})
      case RETRY => Attempting(p.attempt + 1, p.avoid)
      case _ => Ended(outcome)
  }

  function CarryOn(w: Workforce, maxAttempts: int, planned: PlannedTask, context: SharedContext, p: Progress): TaskOutcome
    decreases if p.Attempting? && p.attempt < maxAttempts then maxAttempts - p.attempt else 0, p.Attempting?
  {
    if p.Ended? then p.outcome
    else CarryOn(w, maxAttempts, planned, context, AfterAttempt(w, maxAttempts, planned, context, p))
  }

  function Carry(w: Workforce, maxAttempts: int, planned: PlannedTask, context: SharedContext): TaskOutcome {
    CarryOn(w, maxAttempts, planned, context, FIRST_ATTEMPT)
  }

  /** The attempts made from here on: whom each avoided, and what it came to. */
  function AttemptsFrom(
      w: Workforce, maxAttempts: int, planned: PlannedTask, context: SharedContext, p: Progress)
    : seq<(set<string>, TaskOutcome)>
    decreases if p.Attempting? && p.attempt < maxAttempts then maxAttempts - p.attempt else 0, p.Attempting?
  {
    if p.Ended? then []
    else
      [(p.avoid, Outcome(w, planned, p.attempt, context, p.avoid))]
      + AttemptsFrom(w, maxAttempts, planned, context, AfterAttempt(w, maxAttempts, planned, context, p))
  }

  /** A task is attempted at most `maxAttempts` times and at least once; every attempt but the last failed in a way that
      calls for the same again or for somebody else, and whoever the task was out of reach for is avoided by every later
      attempt; the last attempt is the outcome, and there is none after it because it succeeded, or there were no more, or
      because nobody could help. */
  lemma {:induction false} AttemptsAreJustified(
      w: Workforce, maxAttempts: int, planned: PlannedTask, context: SharedContext, p: Progress)
    requires p.Attempting? && p.attempt >= 1
    ensures var a := AttemptsFrom(w, maxAttempts, planned, context, p);
            && 1 <= |a| <= (if p.attempt < maxAttempts then maxAttempts - p.attempt + 1 else 1)
            && a[0].0 == p.avoid
            && a[|a| - 1].1 == CarryOn(w, maxAttempts, planned, context, p)
            && (forall i :: 0 <= i < |a| - 1 ==> !Succeeded(a[i].1) && RecoveryFor(a[i].1) in {RETRY, REASSIGN})
            && (|| Succeeded(a[|a| - 1].1) || p.attempt + |a| - 1 >= maxAttempts
                || RecoveryFor(a[|a| - 1].1) in {REPLAN, GIVE_UP})
            && (forall i, j :: 0 <= i < j < |a| ==>
                  a[i].0 <= a[j].0 && (RecoveryFor(a[i].1) == REASSIGN ==> a[i].1.employee in a[j].0))
    decreases if p.attempt < maxAttempts then maxAttempts - p.attempt else 0
  {
    hide RecoveryFor, Succeeded, Outcome;
    var next := AfterAttempt(w, maxAttempts, planned, context, p);
    var a := AttemptsFrom(w, maxAttempts, planned, context, p);
    var rest := AttemptsFrom(w, maxAttempts, planned, context, next);
    if next.Attempting? {
      AttemptsAreJustified(w, maxAttempts, planned, context, next);
      forall i, j | 0 <= i < j < |a|
        ensures a[i].0 <= a[j].0 && (RecoveryFor(a[i].1) == REASSIGN ==> a[i].1.employee in a[j].0)
      {
        assert a[j] == rest[j - 1];
        if i > 0 {
          assert a[i] == rest[i - 1];
        } else {
          assert next.avoid <= rest[j - 1].0 by { assert rest[0].0 == next.avoid; }
        }
      }
      forall i | 0 <= i < |a| - 1 ensures !Succeeded(a[i].1) && RecoveryFor(a[i].1) in {RETRY, REASSIGN} {
        if i > 0 {
          assert a[i] == rest[i - 1];
        }
      }
    }
  }

  /** The same again: the provider failed, and neither a cancellation nor a budget ended the task. */
  predicate WorthRepeating(task: Task) {
    task.status !in {COMPLETED, CANCELLED} && !StoppedByBudget(task) && ProviderFailed(task.error)
  }

  predicate StoppedByBudget(task: Task) {
    task.result.Some? && task.result.value.stoppedBy.Some?
  }

  /** Somebody else: the work was out of reach, done or not, and nothing else explains the failure. */
  predicate WorthReassigning(task: Task) {
    if task.status == COMPLETED then SomethingRefused(ObservationsOf(task))
    else
      && task.status != CANCELLED && !StoppedByBudget(task) && !ProviderFailed(task.error)
      && (task.error == Some("PermissionDeniedError") || SomethingRefused(ObservationsOf(task)))
  }

  /** The work is done: the task completed, and made no call or one that succeeded. */
  predicate WorkIsDone(task: Task) {
    && task.status == COMPLETED
    && (ObservationsOf(task) == [] || SomethingSucceeded(ObservationsOf(task)))
  }

  /** What the workforce does at these attempts, each avoiding whom it should. */
  ghost predicate TriedAsAsked(
      w: Workforce, planned: PlannedTask, context: SharedContext, first: nat, a: seq<(set<string>, TaskOutcome)>)
  {
    forall i :: 0 <= i < |a| ==>
      w(planned, first + i, context, a[i].0) == Attempted(a[i].1.employee, a[i].1.task)
  }

  /** There is a next attempt if and only if the work is not done, there are attempts left, and the record of this one
      says that the same again or somebody else can help; and somebody is avoided from then on exactly when it says
      somebody else. */
  ghost predicate TriedAgainIff(maxAttempts: int, first: nat, a: seq<(set<string>, TaskOutcome)>, i: nat)
    requires i < |a|
  {
    var task := a[i].1.task;
    && (i + 1 < |a| <==>
          !WorkIsDone(task) && first + i < maxAttempts && (WorthRepeating(task) || WorthReassigning(task)))
    && (i + 1 < |a| ==> a[i + 1].0 == a[i].0 + if WorthReassigning(task) then {a[i].1.employee} else {})
  }

  lemma NextAttemptIff(
      w: Workforce, maxAttempts: int, planned: PlannedTask, context: SharedContext, p: Progress)
    requires p.Attempting?
    ensures var o := Outcome(w, planned, p.attempt, context, p.avoid);
            var next := AfterAttempt(w, maxAttempts, planned, context, p);
            && (Succeeded(o) <==> WorkIsDone(o.task))
            && (next.Attempting? <==>
                  !WorkIsDone(o.task) && p.attempt < maxAttempts && (WorthRepeating(o.task) || WorthReassigning(o.task)))
            && (next.Attempting? ==>
                  next == Attempting(p.attempt + 1, p.avoid + if WorthReassigning(o.task) then {o.employee} else {}))
            && (next.Ended? ==> next.outcome == o)
  {
    hide Outcome;
    var o := Outcome(w, planned, p.attempt, context, p.avoid);
    TakenAsAccepted(w, planned, p.attempt, context, p.avoid);
    if !Succeeded(o) {
      WhatRecoveryMeans(w, planned, p.attempt, context, p.avoid);
    }
  }

  lemma TakenAsAccepted(w: Workforce, planned: PlannedTask, attempt: nat, context: SharedContext, avoid: set<string>)
    ensures var o := Outcome(w, planned, attempt, context, avoid);
            && o.acceptance == Accept(o.task) && w(planned, attempt, context, avoid) == Attempted(o.employee, o.task)
  {
  }

  /** Attempt by attempt, in terms of the finished tasks alone: what is tried again, by whom not, and why no more. */
  lemma {:induction false} AttemptsStopIff(
      w: Workforce, maxAttempts: int, planned: PlannedTask, context: SharedContext, p: Progress)
    requires p.Attempting?
    ensures var a := AttemptsFrom(w, maxAttempts, planned, context, p);
            && a != [] && a[0].0 == p.avoid && TriedAsAsked(w, planned, context, p.attempt, a)
            && forall i: nat :: i < |a| ==> TriedAgainIff(maxAttempts, p.attempt, a, i)
    decreases if p.attempt < maxAttempts then maxAttempts - p.attempt else 0
  {
    hide Outcome, Succeeded, WorkIsDone, WorthRepeating, WorthReassigning, AfterAttempt;
    var a := AttemptsFrom(w, maxAttempts, planned, context, p);
    var next := AfterAttempt(w, maxAttempts, planned, context, p);
    NextAttemptIff(w, maxAttempts, planned, context, p);
    TakenAsAccepted(w, planned, p.attempt, context, p.avoid);
    if next.Ended? {
      assert AttemptsFrom(w, maxAttempts, planned, context, next) == [];
    } else {
      var rest := AttemptsFrom(w, maxAttempts, planned, context, next);
      AttemptsStopIff(w, maxAttempts, planned, context, next);
      forall i | 0 <= i < |a|
        ensures w(planned, p.attempt + i, context, a[i].0) == Attempted(a[i].1.employee, a[i].1.task)
      {
        if i > 0 {
          assert a[i] == rest[i - 1];
        }
      }
      forall i: nat | i < |a| ensures TriedAgainIff(maxAttempts, p.attempt, a, i) {
        if i > 0 {
          assert a[i] == rest[i - 1] && TriedAgainIff(maxAttempts, next.attempt, rest, i - 1);
        }
      }
    }
  }

  // ----- A wave -----

  /** A planned task, what it was told, and what became of it. */
  datatype Handled = Handled(planned: PlannedTask, context: SharedContext, outcome: TaskOutcome)

  /** Everything a supervision depends on. */
  datatype Setup = Setup(
    plan: Plan, baseline: SharedContext, order: Enumeration, workforce: Workforce, maxAttempts: int)

  function Context(s: Setup, results: Results, id: TaskId): SharedContext {
    ContextFor(s.plan, s.baseline, s.order, results, id)
  }

  function Handle(s: Setup, results: Results, planned: PlannedTask): Handled {
    var context := Context(s, results, planned.id);
    Handled(planned, context, Carry(s.workforce, s.maxAttempts, planned, context))
  }

  function WaveOf(s: Setup, results: Results, ready: seq<PlannedTask>): seq<Handled> {
    seq(|ready|, k requires 0 <= k < |ready| => Handle(s, results, ready[k]))
  }

  // ----- A plan -----

  function DoneAfter(done: set<TaskId>, wave: seq<Handled>): set<TaskId> {
    done + set k | 0 <= k < |wave| && Succeeded(wave[k].outcome) :: wave[k].planned.id
  }

  function ResultsAfter(results: Results, wave: seq<Handled>): Results {
    if wave == [] then results
    else
      var last := wave[|wave| - 1];
      var before := ResultsAfter(results, wave[..|wave| - 1]);
      if Succeeded(last.outcome) then Recorded(before, last.planned.id, last.outcome.task) else before
  }

  /** The recovery the first failed task of a wave calls for. */
  function FirstRecovery(wave: seq<Handled>): Option<Recovery> {
    if wave == [] then None
    else
      var before, last := FirstRecovery(wave[..|wave| - 1]), wave[|wave| - 1];
      if before.Some? || Succeeded(last.outcome) then before else Some(RecoveryFor(last.outcome))
  }

  datatype Supervision = Supervision(waves: seq<seq<Handled>>, recovery: Option<Recovery>)

  lemma {:induction false} NoRecoveryNoFailure(wave: seq<Handled>)
    ensures FirstRecovery(wave).None? <==> forall k :: 0 <= k < |wave| ==> Succeeded(wave[k].outcome)
  {
    hide RecoveryFor, Succeeded;
    if wave == [] {
    } else {
      NoRecoveryNoFailure(wave[..|wave| - 1]);
    }
  }

  /** The recovery of a wave is what the first of its failed tasks calls for, whatever failed after it. */
  lemma {:induction false} FirstFailureDecides(wave: seq<Handled>, k: nat)
    requires k < |wave| && !Succeeded(wave[k].outcome)
    requires forall j :: 0 <= j < k ==> Succeeded(wave[j].outcome)
    ensures FirstRecovery(wave) == Some(RecoveryFor(wave[k].outcome))
  {
    hide RecoveryFor, Succeeded;
    var n := |wave| - 1;
    if k == n {
      NoRecoveryNoFailure(wave[..n]);
    } else {
      FirstFailureDecides(wave[..n], k);
    }
  }

  /** A wave without a failure makes progress. */
  lemma WavesMakeProgress(plan: Plan, done: set<TaskId>, wave: seq<Handled>, ready: seq<PlannedTask>)
    requires ready == Ready(plan, done) && ready != [] && |wave| == |ready|
    requires forall k :: 0 <= k < |wave| ==> wave[k].planned == ready[k] && Succeeded(wave[k].outcome)
    ensures Ids(plan.tasks) - DoneAfter(done, wave) < Ids(plan.tasks) - done
  {
    var first := wave[0].planned;
    assert first in ready && first.id !in done;
    assert first.id in DoneAfter(done, wave) && first.id in Ids(plan.tasks);
  }

  function Supervise(s: Setup, done: set<TaskId>, results: Results): Supervision
    decreases Ids(s.plan.tasks) - done
  {
    var ready := Ready(s.plan, done);
    if ready == [] then Supervision([], if Blocked(s.plan, done) then Some(REPLAN) else None)
    else
      var wave := WaveOf(s, results, ready);
      var recovery := FirstRecovery(wave);
      if recovery.Some? then Supervision([wave], recovery)
      else
        NoRecoveryNoFailure(wave);
        WavesMakeProgress(s.plan, done, wave, ready);
        var rest := Supervise(s, DoneAfter(done, wave), ResultsAfter(results, wave));
        Supervision([wave] + rest.waves, rest.recovery)
  }

  lemma SuperviseStep(s: Setup, done: set<TaskId>, results: Results)
    ensures var r, ready := Supervise(s, done, results), Ready(s.plan, done);
            if ready == [] then r == Supervision([], if Blocked(s.plan, done) then Some(REPLAN) else None)
            else
              var wave := WaveOf(s, results, ready);
              if FirstRecovery(wave).Some? then r == Supervision([wave], FirstRecovery(wave))
              else
                var rest := Supervise(s, DoneAfter(done, wave), ResultsAfter(results, wave));
                r == Supervision([wave] + rest.waves, rest.recovery)
  {
    hide Ready, Blocked, WaveOf, FirstRecovery, DoneAfter, ResultsAfter;
  }

  // ----- Interleavings -----

  /** One task of a wave: waiting for the limit, at work with its context, or finished. */
  datatype Slot = Waiting | Working(context: SharedContext, progress: Progress) {
    predicate Busy() { Working? && progress.Attempting? }
    predicate Finished() { Working? && progress.Ended? }
  }

  function BusyCount(slots: seq<Slot>): nat {
    if slots == [] then 0
    else BusyCount(slots[..|slots| - 1]) + if slots[|slots| - 1].Busy() then 1 else 0
  }

  /** The moves the event loop may make next: start a waiting task while the limit allows, or finish an attempt. */
  predicate CanMove(slots: seq<Slot>, k: int, limit: nat) {
    0 <= k < |slots| && (slots[k].Busy() || (slots[k].Waiting? && BusyCount(slots) < limit))
  }

  function Work(maxAttempts: int, slot: Slot): nat {
    match slot
    case Waiting => (if maxAttempts > 1 then maxAttempts else 1) + 1
    case Working(_, Attempting(attempt, _)) => if attempt < maxAttempts then maxAttempts - attempt + 1 else 1
    case Working(_, Ended(_)) => 0
  }

  function WorkLeft(maxAttempts: int, slots: seq<Slot>): nat {
    if slots == [] then 0
    else WorkLeft(maxAttempts, slots[..|slots| - 1]) + Work(maxAttempts, slots[|slots| - 1])
  }

  lemma {:induction false} WorkLeftAfter(maxAttempts: int, slots: seq<Slot>, k: nat, slot: Slot)
    requires k < |slots|
    ensures WorkLeft(maxAttempts, slots[k := slot]) ==
            WorkLeft(maxAttempts, slots) - Work(maxAttempts, slots[k]) + Work(maxAttempts, slot)
    ensures BusyCount(slots[k := slot]) ==
            BusyCount(slots) - (if slots[k].Busy() then 1 else 0) + (if slot.Busy() then 1 else 0)
  {
    var n := |slots| - 1;
    if k < n {
      WorkLeftAfter(maxAttempts, slots[..n], k, slot);
      assert slots[k := slot][..n] == slots[..n][k := slot];
    } else {
      assert slots[k := slot][..n] == slots[..n];
    }
  }

  /** While a task of the wave is unfinished, something can move. */
  lemma {:induction false} SomethingCanMove(slots: seq<Slot>, limit: nat)
    requires limit > 0 && exists k :: 0 <= k < |slots| && !slots[k].Finished()
    ensures exists k :: CanMove(slots, k, limit)
  {
    if k :| 0 <= k < |slots| && slots[k].Busy() {
      assert CanMove(slots, k, limit);
    } else {
      NobodyBusy(slots);
      var k :| 0 <= k < |slots| && !slots[k].Finished();
      assert CanMove(slots, k, limit);
    }
  }

  lemma {:induction false} NobodyBusy(slots: seq<Slot>)
    requires forall k :: 0 <= k < |slots| ==> !slots[k].Busy()
    ensures BusyCount(slots) == 0
  {
    if slots == [] {
    } else {
      NobodyBusy(slots[..|slots| - 1]);
    }
  }

  /** When the limit lets a task in, and when it finishes. */
  datatype Mark = Begun(id: TaskId) | Over(id: TaskId)

  function InFlight(marks: seq<Mark>): int {
    if marks == [] then 0
    else InFlight(marks[..|marks| - 1]) + if marks[|marks| - 1].Begun? then 1 else -1
  }

  /** At no moment are more than `limit` tasks in flight. */
  ghost predicate WithinLimit(marks: seq<Mark>, limit: nat) {
    forall n :: 0 <= n <= |marks| ==> InFlight(marks[..n]) <= limit
  }

  lemma OneMoreMark(marks: seq<Mark>, mark: Mark, limit: nat)
    requires WithinLimit(marks, limit) && InFlight(marks) + (if mark.Begun? then 1 else -1) <= limit
    ensures WithinLimit(marks + [mark], limit)
    ensures InFlight(marks + [mark]) == InFlight(marks) + if mark.Begun? then 1 else -1
  {
    var more := marks + [mark];
    assert more[..|marks|] == marks;
    forall n | 0 <= n <= |more| ensures InFlight(more[..n]) <= limit {
      if n <= |marks| {
        assert more[..n] == marks[..n];
      } else {
        assert more[..n] == more;
      }
    }
  }

  /** Every task at work was told what it is entitled to, and is on its way to what it comes to by itself. */
  ghost predicate OnTheirWay(s: Setup, results: Results, ready: seq<PlannedTask>, slots: seq<Slot>)
    requires |slots| == |ready|
  {
    forall k :: 0 <= k < |slots| && slots[k].Working? ==> OnItsWay(s, results, ready[k], slots[k])
  }

  ghost predicate OnItsWay(s: Setup, results: Results, planned: PlannedTask, slot: Slot)
    requires slot.Working?
  {
    && slot.context == Context(s, results, planned.id)
    && (slot.progress.Attempting? ==> slot.progress.attempt >= 1)
    && CarryOn(s.workforce, s.maxAttempts, planned, slot.context, slot.progress) ==
       Carry(s.workforce, s.maxAttempts, planned, slot.context)
  }

  method AllWaiting(s: Setup, ghost results: Results, ready: seq<PlannedTask>) returns (slots: seq<Slot>)
    ensures |slots| == |ready| && OnTheirWay(s, results, ready, slots) && BusyCount(slots) == 0
  {
    slots := seq(|ready|, _ => Waiting);
    NobodyBusy(slots);
  }

  lemma CanMoveIsReady(s: Setup, results: Results, ready: seq<PlannedTask>, slots: seq<Slot>, k: int, limit: nat)
    requires |slots| == |ready| && OnTheirWay(s, results, ready, slots) && CanMove(slots, k, limit)
    ensures 0 <= k < |slots|
    ensures slots[k].Waiting? || (slots[k].Busy() && slots[k].progress.attempt >= 1)
    ensures slots[k].Waiting? ==> BusyCount(slots) < limit
  {
    hide Context, CarryOn, Carry, BusyCount;
  }

  lemma MovedAlong(s: Setup, results: Results, ready: seq<PlannedTask>, slots: seq<Slot>, k: nat, slot: Slot)
    requires |slots| == |ready| && OnTheirWay(s, results, ready, slots) && k < |slots|
    requires slots[k].Waiting? || (slots[k].Busy() && slots[k].progress.attempt >= 1)
    requires slot ==
             if slots[k].Waiting? then Working(Context(s, results, ready[k].id), FIRST_ATTEMPT)
             else Working(slots[k].context,
                          AfterAttempt(s.workforce, s.maxAttempts, ready[k], slots[k].context, slots[k].progress))
    ensures OnTheirWay(s, results, ready, slots[k := slot])
    ensures slots[k].Waiting? ==> slot.Busy()
  {
    hide Context, AfterAttempt;
    assert OnItsWay(s, results, ready[k], slot) by {
      NextAttemptIsValid(s, ready[k], slots[k]);
    }
  }

  lemma NextAttemptIsValid(s: Setup, planned: PlannedTask, slot: Slot)
    ensures slot.Busy() ==>
              var next := AfterAttempt(s.workforce, s.maxAttempts, planned, slot.context, slot.progress);
              next.Attempting? ==> next.attempt >= 1
  {
  }

  lemma MarksAfterMove(
      before: seq<Mark>, marks: seq<Mark>, slots: seq<Slot>, k: nat, slot: Slot, id: TaskId, limit: nat)
    requires k < |slots| && slot.Working?
    requires slots[k].Waiting? || slots[k].Busy()
    requires slots[k].Waiting? ==> slot.Busy() && BusyCount(slots) < limit
    requires BusyCount(slots) == InFlight(before) <= limit && WithinLimit(before, limit)
    requires marks == before + if slots[k].Waiting? then [Begun(id)] else if slot.Finished() then [Over(id)] else []
    ensures BusyCount(slots[k := slot]) == InFlight(marks) <= limit && WithinLimit(marks, limit)
    ensures before <= marks
  {
    hide BusyCount, WithinLimit, InFlight;
    WorkLeftAfter(0, slots, k, slot);
    OneMoreMarkOrNot(before, if slots[k].Waiting? then Begun(id) else Over(id), limit);
    assert before + [] == before;
  }

  lemma OneMoreMarkOrNot(marks: seq<Mark>, mark: Mark, limit: nat)
    requires WithinLimit(marks, limit)
    ensures InFlight(marks) + (if mark.Begun? then 1 else -1) <= limit ==> WithinLimit(marks + [mark], limit)
    ensures InFlight(marks + [mark]) == InFlight(marks) + if mark.Begun? then 1 else -1
  {
    if InFlight(marks) + (if mark.Begun? then 1 else -1) <= limit {
      OneMoreMark(marks, mark, limit);
    } else {
      assert (marks + [mark])[..|marks|] == marks;
    }
  }

  method AllFinished(s: Setup, ghost results: Results, ready: seq<PlannedTask>, slots: seq<Slot>)
    returns (wave: seq<Handled>)
    requires |slots| == |ready| && OnTheirWay(s, results, ready, slots)
    requires forall k :: 0 <= k < |slots| ==> slots[k].Finished()
    ensures wave == WaveOf(s, results, ready) && BusyCount(slots) == 0
  {
    hide Context, Carry;
    NobodyBusy(slots);
    wave := seq(|ready|, k requires 0 <= k < |ready| => Handled(ready[k], slots[k].context, slots[k].progress.outcome));
    forall k | 0 <= k < |ready| ensures wave[k] == WaveOf(s, results, ready)[k] {
      assert OnItsWay(s, results, ready[k], slots[k]);
    }
  }

  class Supervisor {
    const setup: Setup
    const maxParallel: nat
    var marks: seq<Mark>

    /** The limit is at least one. */
    constructor (setup: Setup, maxParallel: int)
      ensures this.setup == setup && this.maxParallel >= 1 && marks == []
      ensures this.maxParallel == if maxParallel > 1 then maxParallel else 1
    {
      this.setup := setup;
      this.maxParallel := if maxParallel > 1 then maxParallel else 1;
      marks := [];
    }

    /** One move of one task: it is let in and told its context, or it makes an attempt. */
    method Move(coordinator: WorkforceCoordinator, planned: PlannedTask, slot: Slot) returns (next: Slot)
      requires coordinator.plan == setup.plan && coordinator.baseline == setup.baseline && coordinator.order == setup.order
      requires slot.Waiting? || (slot.Busy() && slot.progress.attempt >= 1)
      modifies `marks
      ensures next ==
              if slot.Waiting? then Working(Context(setup, coordinator.results, planned.id), FIRST_ATTEMPT)
              else Working(slot.context,
                           AfterAttempt(setup.workforce, setup.maxAttempts, planned, slot.context, slot.progress))
      ensures marks == old(marks) +
              if slot.Waiting? then [Begun(planned.id)] else if next.Finished() then [Over(planned.id)] else []
      ensures Work(setup.maxAttempts, next) < Work(setup.maxAttempts, slot)
      ensures next.Busy() ==> next.progress.attempt >= 1
    {
      if slot.Waiting? {
        var context := coordinator.Share(planned.id);
        marks := marks + [Begun(planned.id)];
        return Working(context, FIRST_ATTEMPT);
      }
      var progress := AfterAttempt(setup.workforce, setup.maxAttempts, planned, slot.context, slot.progress);
      if progress.Ended? {
        marks := marks + [Over(planned.id)];
      }
      return Working(slot.context, progress);
    }

    /** A wave, its tasks interleaved in whatever order the limit allows: it ends, never more than `maxParallel` tasks
        are in flight, and whatever the order, what it comes to is what each task comes to by itself. */
    method RunWave(coordinator: WorkforceCoordinator, ready: seq<PlannedTask>) returns (wave: seq<Handled>)
      requires maxParallel >= 1 && WithinLimit(marks, maxParallel) && InFlight(marks) == 0
      requires coordinator.plan == setup.plan && coordinator.baseline == setup.baseline && coordinator.order == setup.order
      modifies `marks
      ensures wave == WaveOf(setup, coordinator.results, ready)
      ensures WithinLimit(marks, maxParallel) && InFlight(marks) == 0
      ensures old(marks) <= marks
    {
      hide *;
      var slots := AllWaiting(setup, coordinator.results, ready);
      while exists k :: 0 <= k < |slots| && !slots[k].Finished()
        invariant |slots| == |ready| && OnTheirWay(setup, coordinator.results, ready, slots)
        invariant BusyCount(slots) == InFlight(marks) <= maxParallel && WithinLimit(marks, maxParallel)
        invariant old(marks) <= marks
        decreases WorkLeft(setup.maxAttempts, slots)
      {
        SomethingCanMove(slots, maxParallel);
        var k :| CanMove(slots, k, maxParallel);
        ghost var before := marks;
        CanMoveIsReady(setup, coordinator.results, ready, slots, k, maxParallel);
        var slot := Move(coordinator, ready[k], slots[k]);
        MovedAlong(setup, coordinator.results, ready, slots, k, slot);
        WorkLeftAfter(setup.maxAttempts, slots, k, slot);
        MarksAfterMove(before, marks, slots, k, slot, ready[k].id, maxParallel);
        slots := slots[k := slot];
      }
      wave := AllFinished(setup, coordinator.results, ready, slots);
    }

    /** `run`: wave after wave, until one has a failure or nothing is ready. For every interleaving the outcomes are
        those of `Supervise`. */
    method Run() returns (waves: seq<seq<Handled>>, recovery: Option<Recovery>)
      requires maxParallel >= 1 && marks == []
      modifies `marks
      ensures Supervision(waves, recovery) == Supervise(setup, {}, map[])
      ensures WithinLimit(marks, maxParallel)
    {
      hide Supervise, Ready, Blocked, WaveOf, Recorded;
      var done: set<TaskId>, outcomes: seq<seq<Handled>> := {}, [];
      recovery := None;
      var coordinator := new WorkforceCoordinator(setup.plan, setup.baseline, setup.order);
      ghost var whole := Supervise(setup, {}, map[]);
      ghost var rest := whole;
      while true
        invariant coordinator.plan == setup.plan && coordinator.baseline == setup.baseline
        invariant coordinator.order == setup.order && fresh(coordinator)
        invariant WithinLimit(marks, maxParallel) && InFlight(marks) == 0
        invariant recovery.None? && rest == Supervise(setup, done, coordinator.results)
        invariant whole == Supervision(outcomes + rest.waves, rest.recovery)
        decreases Ids(setup.plan.tasks) - done
      {
        SuperviseStep(setup, done, coordinator.results);
        var ready := Ready(setup.plan, done);
        if ready == [] {
          break;
        }
        var wave := RunWave(coordinator, ready);
        ghost var results, before := coordinator.results, done;
        outcomes := outcomes + [wave];
        WaveIsOfReady(setup, results, ready);
        ghost var marked := marks;
        assert wave[..0] == [];
        for k := 0 to |wave|
          invariant coordinator.plan == setup.plan && coordinator.baseline == setup.baseline
          invariant coordinator.order == setup.order && marks == marked
          invariant done == DoneAfter(before, wave[..k])
          invariant coordinator.results == ResultsAfter(results, wave[..k])
          invariant recovery == FirstRecovery(wave[..k])
        {
          assert wave[..k + 1][..k] == wave[..k];
          if Succeeded(wave[k].outcome) {
            done := done + {wave[k].planned.id};
            coordinator.Record(wave[k].planned.id, wave[k].outcome.task);
          } else if recovery.None? {
            recovery := Some(RecoveryFor(wave[k].outcome));
          }
        }
        assert wave[..|wave|] == wave;
        if recovery.Some? {
          break;
        }
        NoRecoveryNoFailure(wave);
        WavesMakeProgress(setup.plan, before, wave, ready);
        rest := Supervise(setup, done, coordinator.results);
      }
      if recovery.None? && Blocked(setup.plan, done) {
        recovery := Some(REPLAN);
      }
      waves := outcomes;
    }
  }

  lemma WaveIsOfReady(s: Setup, results: Results, ready: seq<PlannedTask>)
    ensures |WaveOf(s, results, ready)| == |ready|
    ensures forall k :: 0 <= k < |ready| ==> WaveOf(s, results, ready)[k].planned == ready[k]
  {
    hide Context, Carry;
  }
}
