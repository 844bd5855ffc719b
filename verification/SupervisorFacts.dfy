/**
 * What a task of a supervised plan is told (application/prometheus/supervisor.py, application/workforce/coordinator.py):
 * of each direct dependency what it was for, what it found and the files it left, and nothing else.
 */
module SupervisorFacts {
  import opened Text
  import opened Tasks
  import opened Plans
  import opened Coordinator
  import opened Supervisor
  import opened SupervisorRuns

  /** The fact names the goal first and ends with what was found. */
  predicate Tells(fact: string, goal: string, found: string) {
    |fact| >= |goal| + |found| && fact[..|goal|] == goal && fact[|fact| - |found|..] == found
  }

  /** The task completed with a summary that says something. */
  predicate HandsOver(finished: Task) {
    finished.status == COMPLETED && finished.result.Some? && !Blank(finished.result.value.summary)
  }

  lemma HandoverIs(finished: Task)
    ensures var h := HandoverOf(finished);
            && (h.Some? <==> HandsOver(finished))
            && (h.Some? ==> h.value == Handover(Strip(finished.result.value.summary), finished.result.value.artifacts))
  {
    hide Strip, Blank;
  }

  lemma {:induction false} GoalIs(tasks: seq<PlannedTask>, planned: PlannedTask)
    requires DistinctIds(tasks) && planned in tasks
    ensures GoalAmong(tasks, planned.id) == planned.goal
  {
    if tasks[0] == planned {
    } else {
      assert tasks == [tasks[0]] + tasks[1..];
      var k :| 0 <= k < |tasks| && tasks[k] == planned;
      assert tasks[0].id != tasks[k].id;
      GoalIs(tasks[1..], planned);
    }
  }

  lemma FactTells(plan: Plan, results: Results, planned: PlannedTask)
    requires DistinctIds(plan.tasks) && planned in plan.tasks && planned.id in results
    ensures Tells(FactFrom(plan, results, planned.id), planned.goal, results[planned.id].summary)
  {
    hide GoalAmong;
    GoalIs(plan.tasks, planned);
  }

  /** A dependency of a started task, as it was handled in an earlier wave. */
  ghost predicate IsHandledBefore(s: Setup, w: nat, d: TaskId, v: nat, i: nat) {
    && v < w && v < |Start(s).waves| && i < |Start(s).waves[v]|
    && Start(s).waves[v][i].planned.id == d && Succeeded(Start(s).waves[v][i].outcome)
  }

  /** What is on record of a dependency when its dependent starts. */
  lemma RecordOf(s: Setup, w: nat, j: nat, d: TaskId) returns (v: nat, i: nat)
    requires DistinctIds(s.plan.tasks) && w < |Start(s).waves| && j < |Start(s).waves[w]|
    requires d in DependsOn(s.plan, Start(s).waves[w][j].planned.id)
    ensures IsHandledBefore(s, w, d, v, i) && Start(s).waves[v][i].planned in s.plan.tasks
    ensures var results, f := ResultsBefore(map[], Start(s).waves, w), Start(s).waves[v][i].outcome.task;
            && (d in results <==> HandsOver(f))
            && (d in results ==> results[d] == Handover(Strip(f.result.value.summary), f.result.value.artifacts))
  {
    hide Start, ResultsBefore, HandoverOf, Succeeded, DependsOn, HandsOver, Strip;
    assert StartedIn(Start(s).waves, w, Start(s).waves[w][j].planned.id);
    v := DependenciesSucceedFirst(s, w, Start(s).waves[w][j].planned.id, d);
    i :| i < |Start(s).waves[v]| && Start(s).waves[v][i].planned.id == d && Succeeded(Start(s).waves[v][i].outcome);
    RecordStays(s, w, v, i);
    HandoverIs(Start(s).waves[v][i].outcome.task);
    WaveIsDistinct(s, v);
  }

  /** Of every direct dependency a task is told what it was for and what it found, when it found something to say, and
      every file it left. */
  lemma DependenciesAreTold(s: Setup, w: nat, j: nat, d: TaskId) returns (v: nat, i: nat)
    requires DistinctIds(s.plan.tasks) && w < |Start(s).waves| && j < |Start(s).waves[w]|
    requires d in DependsOn(s.plan, Start(s).waves[w][j].planned.id)
    requires Lists(s.order, DependsOn(s.plan, Start(s).waves[w][j].planned.id))
    ensures IsHandledBefore(s, w, d, v, i)
    ensures var c, h := Start(s).waves[w][j].context, Start(s).waves[v][i]; var f := h.outcome.task;
            HandsOver(f) ==>
              && |s.baseline.facts| <= |c.facts|
              && (exists fact :: fact in c.facts[|s.baseline.facts|..]
                                 && Tells(fact, h.planned.goal, Strip(f.result.value.summary)))
              && forall name :: name in f.result.value.artifacts ==> name in c.artifacts
  {
    hide Start, ResultsBefore, DependsOn, Strip, Blank, Tells, ContextFor, Carry;
    v, i := RecordOf(s, w, j, d);
    HandledAsSaid(s, w, j);
    var results, id := ResultsBefore(map[], Start(s).waves, w), Start(s).waves[w][j].planned.id;
    var f := Start(s).waves[v][i].outcome.task;
    if HandsOver(f) {
      FactTells(s.plan, results, Start(s).waves[v][i].planned);
      var fact := FactFrom(s.plan, results, d);
      ContextIsWhatWasHanded(s.plan, s.baseline, s.order, results, id, fact, "");
      forall name | name in f.result.value.artifacts ensures name in Start(s).waves[w][j].context.artifacts {
        ContextIsWhatWasHanded(s.plan, s.baseline, s.order, results, id, fact, name);
      }
    }
  }

  /** And that is all: any other fact, and any other file, is the baseline's. */
  lemma NothingElseIsTold(s: Setup, w: nat, j: nat, fact: string, name: string)
    requires DistinctIds(s.plan.tasks) && w < |Start(s).waves| && j < |Start(s).waves[w]|
    requires Lists(s.order, DependsOn(s.plan, Start(s).waves[w][j].planned.id))
    ensures var c, others := Start(s).waves[w][j].context, DependsOn(s.plan, Start(s).waves[w][j].planned.id);
            && s.baseline.facts <= c.facts && c.constraints == s.baseline.constraints && c.data == s.baseline.data
            && (fact in c.facts[|s.baseline.facts|..] ==>
                  exists d, v: nat, i: nat :: d in others && IsHandledBefore(s, w, d, v, i)
                                    && var h := Start(s).waves[v][i];
                                       HandsOver(h.outcome.task)
                                       && Tells(fact, h.planned.goal, Strip(h.outcome.task.result.value.summary)))
            && (name in c.artifacts && name !in s.baseline.artifacts ==>
                  exists d, v: nat, i: nat :: d in others && IsHandledBefore(s, w, d, v, i)
                                    && HandsOver(Start(s).waves[v][i].outcome.task)
                                    && name in Start(s).waves[v][i].outcome.task.result.value.artifacts)
  {
    hide Start, ResultsBefore, DependsOn, HandsOver, Strip, Tells, ContextFor, Carry, IsHandledBefore;
    HandledAsSaid(s, w, j);
    var results, id := ResultsBefore(map[], Start(s).waves, w), Start(s).waves[w][j].planned.id;
    var c := Start(s).waves[w][j].context;
    ContextIsWhatWasHanded(s.plan, s.baseline, s.order, results, id, fact, name);
    if fact in c.facts[|s.baseline.facts|..] {
      var d :| d in DependsOn(s.plan, id) && d in results && fact == FactFrom(s.plan, results, d);
      var v, i := RecordOf(s, w, j, d);
      WasHandled(s, w, d, v, i);
      FactTells(s.plan, results, Start(s).waves[v][i].planned);
    }
    if name in c.artifacts && name !in s.baseline.artifacts {
      var d :| d in DependsOn(s.plan, id) && d in results && name in results[d].artifacts;
      var v, i := RecordOf(s, w, j, d);
      WasHandled(s, w, d, v, i);
    }
  }

  lemma WasHandled(s: Setup, w: nat, d: TaskId, v: nat, i: nat)
    requires IsHandledBefore(s, w, d, v, i)
    ensures v < |Start(s).waves| && i < |Start(s).waves[v]| && Start(s).waves[v][i].planned.id == d
  {
  }
}
