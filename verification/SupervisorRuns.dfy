/**
 * What every supervised plan keeps, over any graph and any failures (application/prometheus/supervisor.py): who starts,
 * when, what it is told, and what the plan ends with.
 */
module SupervisorRuns {
  import opened Wrappers
  import opened Plans
  import opened Coordinator
  import opened Supervisor

  // ----- The waves of a run -----

  /** What is done before wave `w`. */
  function DoneBefore(done: set<TaskId>, waves: seq<seq<Handled>>, w: nat): set<TaskId>
    requires w <= |waves|
  {
    if w == 0 then done else DoneAfter(DoneBefore(done, waves, w - 1), waves[w - 1])
  }

  /** What has been handed over before wave `w`. */
  function ResultsBefore(results: Results, waves: seq<seq<Handled>>, w: nat): Results
    requires w <= |waves|
  {
    if w == 0 then results else ResultsAfter(ResultsBefore(results, waves, w - 1), waves[w - 1])
  }

  lemma {:induction false} OneWaveEarlier(
      done: set<TaskId>, results: Results, wave: seq<Handled>, rest: seq<seq<Handled>>, w: nat)
    requires w <= |rest|
    ensures DoneBefore(done, [wave] + rest, w + 1) == DoneBefore(DoneAfter(done, wave), rest, w)
    ensures ResultsBefore(results, [wave] + rest, w + 1) == ResultsBefore(ResultsAfter(results, wave), rest, w)
  {
    hide DoneAfter, ResultsAfter;
    if w > 0 {
      OneWaveEarlier(done, results, wave, rest, w - 1);
    }
  }

  /** Wave `w` is made of what was ready by then, with what had been handed over by then; only the last can fail. */
  ghost predicate WaveFits(s: Setup, done: set<TaskId>, results: Results, waves: seq<seq<Handled>>, w: nat)
    requires w < |waves|
  {
    && Ready(s.plan, DoneBefore(done, waves, w)) != []
    && waves[w] == WaveOf(s, ResultsBefore(results, waves, w), Ready(s.plan, DoneBefore(done, waves, w)))
    && (w < |waves| - 1 ==> FirstRecovery(waves[w]).None?)
  }

  /** How a run ends: with the recovery its last wave calls for, or, when no task failed, because nothing is ready. */
  ghost predicate EndFits(s: Setup, done: set<TaskId>, r: Supervision) {
    if r.waves != [] && FirstRecovery(r.waves[|r.waves| - 1]).Some? then
      r.recovery == FirstRecovery(r.waves[|r.waves| - 1])
    else
      var end := DoneBefore(done, r.waves, |r.waves|);
      Ready(s.plan, end) == [] && r.recovery == if Outstanding(s.plan, end) then Some(REPLAN) else None
  }

  lemma FitsOneLater(
      s: Setup, done: set<TaskId>, results: Results, wave: seq<Handled>, rest: seq<seq<Handled>>, w: nat)
    requires w < |rest| && WaveFits(s, DoneAfter(done, wave), ResultsAfter(results, wave), rest, w)
    ensures WaveFits(s, done, results, [wave] + rest, w + 1)
  {
    hide DoneAfter, ResultsAfter, Ready, WaveOf, FirstRecovery;
    OneWaveEarlier(done, results, wave, rest, w);
  }

  lemma {:induction false} WavesFit(s: Setup, done: set<TaskId>, results: Results)
    ensures var r := Supervise(s, done, results);
            && EndFits(s, done, r)
            && forall w: nat :: w < |r.waves| ==> WaveFits(s, done, results, r.waves, w)
    decreases Ids(s.plan.tasks) - done
  {
    hide Supervise, Ready, WaveOf, FirstRecovery, DoneAfter, ResultsAfter, Outstanding;
    SuperviseStep(s, done, results);
    var r, ready := Supervise(s, done, results), Ready(s.plan, done);
    var wave := WaveOf(s, results, ready);
    if ready != [] && FirstRecovery(wave).None? {
      NoRecoveryNoFailure(wave);
      WaveIsOfReady(s, results, ready);
      WavesMakeProgress(s.plan, done, wave, ready);
      var done', results' := DoneAfter(done, wave), ResultsAfter(results, wave);
      WavesFit(s, done', results');
      var rest := Supervise(s, done', results');
      OneWaveEarlier(done, results, wave, rest.waves, |rest.waves|);
      forall w: nat | w < |r.waves| ensures WaveFits(s, done, results, r.waves, w) {
        if w > 0 {
          FitsOneLater(s, done, results, wave, rest.waves, w - 1);
        }
      }
    }
  }

  // ----- Who starts, and when -----

  function Start(s: Setup): Supervision {
    Supervise(s, {}, map[])
  }

  /** The task is in wave `w`. */
  ghost predicate StartedIn(waves: seq<seq<Handled>>, w: nat, id: TaskId) {
    w < |waves| && exists k :: 0 <= k < |waves[w]| && waves[w][k].planned.id == id
  }

  ghost predicate SucceededIn(waves: seq<seq<Handled>>, w: nat, id: TaskId) {
    w < |waves| && exists k :: 0 <= k < |waves[w]| && waves[w][k].planned.id == id && Succeeded(waves[w][k].outcome)
  }

  lemma {:induction false} DoneMeansSucceeded(waves: seq<seq<Handled>>, w: nat, id: TaskId)
    requires w <= |waves|
    ensures id in DoneBefore({}, waves, w) <==> exists v: nat :: v < w && SucceededIn(waves, v, id)
  {
    hide Succeeded;
    if w > 0 {
      DoneMeansSucceeded(waves, w - 1, id);
      if SucceededIn(waves, w - 1, id) {
        assert id in DoneBefore({}, waves, w);
      }
      if id in DoneBefore({}, waves, w) && id !in DoneBefore({}, waves, w - 1) {
        assert SucceededIn(waves, w - 1, id);
      }
    }
  }

  /** No task starts before every task it depends on has succeeded, in an earlier wave. */
  lemma DependenciesSucceedFirst(s: Setup, w: nat, id: TaskId, other: TaskId) returns (v: nat)
    requires StartedIn(Start(s).waves, w, id) && other in DependsOn(s.plan, id)
    ensures v < w && SucceededIn(Start(s).waves, v, other)
  {
    hide Supervise, Succeeded, SucceededIn, DoneBefore, ResultsBefore;
    var waves: seq<seq<Handled>> := Start(s).waves;
    WavesFit(s, {}, map[]);
    assert WaveFits(s, {}, map[], waves, w);
    var k :| 0 <= k < |waves[w]| && waves[w][k].planned.id == id;
    var ready := Ready(s.plan, DoneBefore({}, waves, w));
    WaveIsOfReady(s, ResultsBefore(map[], waves, w), ready);
    assert ready[k] in ready;
    DoneMeansSucceeded(waves, w, other);
    v :| v < w && SucceededIn(waves, v, other);
  }

  lemma {:induction false} DoneOnlyGrows(done: set<TaskId>, waves: seq<seq<Handled>>, v: nat, w: nat)
    requires v <= w <= |waves|
    ensures DoneBefore(done, waves, v) <= DoneBefore(done, waves, w)
  {
    if v < w {
      DoneOnlyGrows(done, waves, v, w - 1);
    }
  }

  /** A task is in one wave at most. */
  lemma StartedOnce(s: Setup, v: nat, w: nat, id: TaskId)
    requires StartedIn(Start(s).waves, v, id) && StartedIn(Start(s).waves, w, id)
    ensures v == w
  {
    if v != w {
      StartedNotLater(s, if v < w then v else w, if v < w then w else v, id);
    }
  }

  lemma StartedNotLater(s: Setup, v: nat, w: nat, id: TaskId)
    requires StartedIn(Start(s).waves, v, id) && v < w < |Start(s).waves|
    ensures !StartedIn(Start(s).waves, w, id)
  {
    hide Supervise, Succeeded, DoneBefore, ResultsBefore, DoneAfter, WaveOf;
    var waves: seq<seq<Handled>> := Start(s).waves;
    WavesFit(s, {}, map[]);
    assert WaveFits(s, {}, map[], waves, v) && WaveFits(s, {}, map[], waves, w);
    NoRecoveryNoFailure(waves[v]);
    assert id in DoneBefore({}, waves, v + 1) by { AllSucceededIsDone(waves, v, id); }
    DoneOnlyGrows({}, waves, v + 1, w);
    var ready := Ready(s.plan, DoneBefore({}, waves, w));
    WaveIsOfReady(s, ResultsBefore(map[], waves, w), ready);
    forall k | 0 <= k < |waves[w]| ensures waves[w][k].planned.id != id {
      assert ready[k] in ready;
    }
  }

  lemma AllSucceededIsDone(waves: seq<seq<Handled>>, v: nat, id: TaskId)
    requires StartedIn(waves, v, id) && forall k :: 0 <= k < |waves[v]| ==> Succeeded(waves[v][k].outcome)
    ensures id in DoneBefore({}, waves, v + 1)
  {
    hide Succeeded;
  }

  /** Everything upstream of a started task, however far, succeeded in an earlier wave. */
  lemma {:induction false} UpstreamSucceeded(s: Setup, w: nat, chain: seq<TaskId>, i: nat) returns (v: nat)
    requires IsChain(s.plan, chain) && StartedIn(Start(s).waves, w, chain[0]) && i < |chain|
    ensures StartedIn(Start(s).waves, v, chain[i])
    ensures if i == 0 then v == w else v < w && SucceededIn(Start(s).waves, v, chain[i])
    decreases i
  {
    hide Start, DependsOn;
    v := w;
    if i > 0 {
      var u := UpstreamSucceeded(s, w, chain, i - 1);
      assert chain[i - 1 + 1] in DependsOn(s.plan, chain[i - 1]);
      v := DependenciesSucceedFirst(s, u, chain[i - 1], chain[i]);
    }
  }

  /** Neither a task on a cycle nor one downstream of a cycle is ever started. */
  lemma NothingOnACycleStarts(s: Setup, w: nat, chain: seq<TaskId>, cycle: seq<TaskId>)
    requires IsChain(s.plan, chain) && IsCycle(s.plan, cycle) && chain[|chain| - 1] == cycle[0]
    ensures !StartedIn(Start(s).waves, w, chain[0])
  {
    hide Start, StartedIn, SucceededIn;
    if StartedIn(Start(s).waves, w, chain[0]) {
      var u := UpstreamSucceeded(s, w, chain, |chain| - 1);
      var v := UpstreamSucceeded(s, u, cycle, |cycle| - 1);
      StartedOnce(s, u, v, cycle[0]);
      assert false;
    }
  }

  /** Nothing downstream of a task that did not succeed - it failed, or was itself never started - is ever started. */
  lemma NothingDownstreamOfAFailureStarts(s: Setup, w: nat, chain: seq<TaskId>, failed: TaskId)
    requires IsChain(s.plan, chain) && |chain| > 1 && chain[|chain| - 1] == failed
    requires forall v: nat :: !SucceededIn(Start(s).waves, v, failed)
    ensures !StartedIn(Start(s).waves, w, chain[0])
  {
    hide Start, StartedIn, SucceededIn;
    if StartedIn(Start(s).waves, w, chain[0]) {
      var v := UpstreamSucceeded(s, w, chain, |chain| - 1);
    }
  }

  // ----- How it ends -----

  function Outcomes(waves: seq<seq<Handled>>): seq<Handled> {
    if waves == [] then [] else Outcomes(waves[..|waves| - 1]) + waves[|waves| - 1]
  }

  /** `all_succeeded`: as many outcomes as tasks, and every one of them a success. */
  ghost predicate AllSucceeded(plan: Plan, waves: seq<seq<Handled>>) {
    |Outcomes(waves)| == |plan.tasks| && forall k :: 0 <= k < |Outcomes(waves)| ==> Succeeded(Outcomes(waves)[k].outcome)
  }

  function PlannedOf(outcomes: seq<Handled>): seq<PlannedTask> {
    seq(|outcomes|, k requires 0 <= k < |outcomes| => outcomes[k].planned)
  }

  lemma {:induction false} DistinctCount(tasks: seq<PlannedTask>)
    requires DistinctIds(tasks)
    ensures |Ids(tasks)| == |tasks|
  {
    if tasks == [] {
      assert Ids(tasks) == {};
    } else {
      var n := |tasks| - 1;
      DistinctCount(tasks[..n]);
      assert Ids(tasks) == Ids(tasks[..n]) + {tasks[n].id};
    }
  }

  /** A subset of the same size is the whole. */
  lemma SubsetOfSameSize<T>(a: set<T>, b: set<T>)
    requires a <= b
    ensures |a| <= |b| && (|a| == |b| ==> a == b)
  {
    assert b == a + (b - a) && |b| == |a| + |b - a|;
  }

  /** Every outcome is one of the first `n` waves. */
  ghost predicate FromWaves(outcomes: seq<Handled>, waves: seq<seq<Handled>>, n: nat) {
    forall h :: h in outcomes ==> exists v: nat :: v < n && v < |waves| && h in waves[v]
  }

  /** The first waves of a run. */
  lemma {:induction false} OutcomesSoFar(s: Setup, w: nat)
    requires DistinctIds(s.plan.tasks) && w <= |Start(s).waves|
    ensures var waves := Start(s).waves; var planned := PlannedOf(Outcomes(waves[..w]));
            && DistinctIds(planned)
            && Ids(planned) <= Ids(s.plan.tasks)
            && DoneBefore({}, waves, w) <= Ids(planned)
            && (forall v: nat, k :: v < w && 0 <= k < |waves[v]| ==> waves[v][k] in Outcomes(waves[..w]))
            && FromWaves(Outcomes(waves[..w]), waves, w)
            && (w < |waves| || (waves != [] ==> FirstRecovery(waves[|waves| - 1]).None?) ==>
                  DoneBefore({}, waves, w) == Ids(planned))
  {
    hide Start, Succeeded, DoneBefore, ResultsBefore, FirstRecovery, Outcomes, DoneAfter, WaveOf;
    var waves: seq<seq<Handled>> := Start(s).waves;
    if w == 0 {
      NoOutcomes(waves);
    } else {
      OutcomesSoFar(s, w - 1);
      StartFits(s, w - 1);
      OneMoreWave(s, waves, w - 1);
    }
  }

  lemma NoOutcomes(waves: seq<seq<Handled>>)
    ensures Outcomes([]) == [] && DoneBefore({}, waves, 0) == {} && PlannedOf([]) == [] && Ids([]) == {}
    ensures waves[..0] == []
  {
  }

  lemma StartFits(s: Setup, w: nat)
    requires w < |Start(s).waves|
    ensures WaveFits(s, {}, map[], Start(s).waves, w)
  {
    WavesFit(s, {}, map[]);
  }

  lemma OneMoreWave(s: Setup, waves: seq<seq<Handled>>, w: nat)
    requires DistinctIds(s.plan.tasks) && w < |waves| && WaveFits(s, {}, map[], waves, w)
    requires var planned := PlannedOf(Outcomes(waves[..w]));
             && DistinctIds(planned) && Ids(planned) <= Ids(s.plan.tasks) && DoneBefore({}, waves, w) == Ids(planned)
    requires forall v: nat, k :: v < w && 0 <= k < |waves[v]| ==> waves[v][k] in Outcomes(waves[..w])
    requires FromWaves(Outcomes(waves[..w]), waves, w)
    ensures var planned := PlannedOf(Outcomes(waves[..w + 1]));
            && DistinctIds(planned) && Ids(planned) <= Ids(s.plan.tasks)
            && DoneBefore({}, waves, w + 1) <= Ids(planned)
            && (FirstRecovery(waves[w]).None? ==> DoneBefore({}, waves, w + 1) == Ids(planned))
    ensures forall v: nat, k :: v < w + 1 && 0 <= k < |waves[v]| ==> waves[v][k] in Outcomes(waves[..w + 1])
    ensures FromWaves(Outcomes(waves[..w + 1]), waves, w + 1)
  {
    hide Succeeded, ResultsBefore, FirstRecovery, WaveOf;
    assert waves[..w + 1][..w] == waves[..w];
    var before, wave := Outcomes(waves[..w]), waves[w];
    assert Outcomes(waves[..w + 1]) == before + wave;
    var done := DoneBefore({}, waves, w);
    var ready := Ready(s.plan, done);
    WaveIsOfReady(s, ResultsBefore(map[], waves, w), ready);
    ReadyIsDistinct(s.plan, done, s.plan.tasks);
    NoRecoveryNoFailure(wave);
    var planned := PlannedOf(before + wave);
    assert planned == PlannedOf(before) + ready;
    forall k | 0 <= k < |ready| ensures ready[k].id !in done && ready[k].id in Ids(s.plan.tasks) {
      assert ready[k] in ready;
    }
    forall i, j | 0 <= i < j < |planned| ensures planned[i].id != planned[j].id {
      if i < |before| <= j {
        assert planned[i].id in Ids(PlannedOf(before)) by { assert PlannedOf(before)[i].id == planned[i].id; }
      }
    }
    IdsOfBoth(PlannedOf(before), ready);
    assert DoneBefore({}, waves, w + 1) == DoneAfter(done, wave);
    forall id | id in DoneAfter(done, wave) ensures id in Ids(planned) {
      if id !in done {
        var k :| 0 <= k < |wave| && wave[k].planned.id == id;
        assert ready[k].id == id;
      }
    }
    if FirstRecovery(wave).None? {
      forall id | id in Ids(ready) ensures id in DoneAfter(done, wave) {
        var k :| 0 <= k < |ready| && ready[k].id == id;
        assert wave[k].planned.id == id && Succeeded(wave[k].outcome);
      }
    }
  }

  lemma IdsOfBoth(a: seq<PlannedTask>, b: seq<PlannedTask>)
    ensures Ids(a + b) == Ids(a) + Ids(b)
  {
    forall id | id in Ids(a) + Ids(b) ensures id in Ids(a + b) {
      if id in Ids(a) {
        var k :| 0 <= k < |a| && a[k].id == id;
        assert (a + b)[k].id == id;
      } else {
        var k :| 0 <= k < |b| && b[k].id == id;
        assert (a + b)[|a| + k].id == id;
      }
    }
  }

  /** `recovery` is None exactly when every task of the plan succeeded. */
  lemma RecoveryIffNotAllSucceeded(s: Setup)
    requires DistinctIds(s.plan.tasks)
    ensures Start(s).recovery.None? <==> AllSucceeded(s.plan, Start(s).waves)
  {
    hide Supervise, Succeeded, DoneBefore, ResultsBefore, FirstRecovery, Outcomes, Ids, Ready, WaveOf, Outstanding;
    var r := Start(s);
    var n := |r.waves|;
    assert r.waves[..n] == r.waves;
    WavesFit(s, {}, map[]);
    OutcomesSoFar(s, n);
    var outcomes := Outcomes(r.waves);
    var planned, done := PlannedOf(outcomes), DoneBefore({}, r.waves, n);
    DistinctCount(planned);
    DistinctCount(s.plan.tasks);
    SubsetOfSameSize(Ids(planned), Ids(s.plan.tasks));
    if n > 0 {
      NoRecoveryNoFailure(r.waves[n - 1]);
    }
    if n > 0 && FirstRecovery(r.waves[n - 1]).Some? {
      var k :| 0 <= k < |r.waves[n - 1]| && !Succeeded(r.waves[n - 1][k].outcome);
      assert r.waves[n - 1][k] in outcomes;
    } else {
      forall k | 0 <= k < |outcomes| ensures Succeeded(outcomes[k].outcome) {
        assert outcomes[k] in outcomes;
        var v: nat :| v < n && v < |r.waves| && outcomes[k] in r.waves[v];
        assert WaveFits(s, {}, map[], r.waves, v);
        NoRecoveryNoFailure(r.waves[v]);
      }
      NothingOutstanding(s.plan, done);
      assert done == Ids(planned) && |planned| == |outcomes|;
      if Ids(s.plan.tasks) <= done {
        assert Ids(planned) == Ids(s.plan.tasks);
      }
    }
  }

  lemma NothingOutstanding(plan: Plan, done: set<TaskId>)
    ensures !Outstanding(plan, done) <==> Ids(plan.tasks) <= done
  {
    if Ids(plan.tasks) <= done {
      forall k | 0 <= k < |plan.tasks| ensures plan.tasks[k].id in done {
        assert plan.tasks[k].id in Ids(plan.tasks);
      }
    }
  }

  /** When no task fails, the plan falls short exactly when its edges describe a cycle. */
  lemma ShortfallMeansCycle(s: Setup)
    requires WellFormed(s.plan)
    requires forall w: nat :: w < |Start(s).waves| ==> FirstRecovery(Start(s).waves[w]).None?
    ensures Start(s).recovery == if HasCycle(s.plan) then Some(REPLAN) else None
  {
    hide Supervise, Succeeded, DoneBefore, ResultsBefore, FirstRecovery, Ready, Outstanding, DependsOn;
    var r := Start(s);
    var n := |r.waves|;
    WavesFit(s, {}, map[]);
    var done := DoneBefore({}, r.waves, n);
    if Outstanding(s.plan, done) {
      BlockedMeansCycle(s.plan, done);
    }
    if HasCycle(s.plan) {
      var cycle :| IsCycle(s.plan, cycle);
      CycleIsInThePlan(s.plan, cycle);
      if !Outstanding(s.plan, done) {
        NothingOutstanding(s.plan, done);
        DoneMeansSucceeded(r.waves, n, cycle[0]);
        var v: nat :| v < n && SucceededIn(r.waves, v, cycle[0]);
        NothingOnACycleStarts(s, v, [cycle[0]], cycle);
        assert false;
      }
    }
  }

  lemma CycleIsInThePlan(plan: Plan, cycle: seq<TaskId>)
    requires WellFormed(plan) && IsCycle(plan, cycle)
    ensures cycle[0] in Ids(plan.tasks)
  {
    assert cycle[0 + 1] in DependsOn(plan, cycle[0]);
    var k :| 0 <= k < |plan.dependencies| && plan.dependencies[k].0 == cycle[0] && plan.dependencies[k].1 == cycle[1];
    assert plan.dependencies[k] in plan.dependencies;
  }

  // ----- Who learns what from whom -----

  /** `x` is upstream of `id`, at any distance. */
  ghost predicate Upstream(plan: Plan, id: TaskId, x: TaskId) {
    exists chain :: IsChain(plan, chain) && |chain| > 1 && chain[0] == id && chain[|chain| - 1] == x
  }

  lemma DirectIsUpstream(plan: Plan, id: TaskId, d: TaskId)
    requires d in DependsOn(plan, id)
    ensures Upstream(plan, id, d)
    ensures forall x :: Upstream(plan, d, x) ==> Upstream(plan, id, x)
  {
    assert IsChain(plan, [id, d]) && [id, d][1] == d;
    forall x | Upstream(plan, d, x) ensures Upstream(plan, id, x) {
      var chain :| IsChain(plan, chain) && |chain| > 1 && chain[0] == d && chain[|chain| - 1] == x;
      assert IsChain(plan, [id] + chain);
      assert ([id] + chain)[0] == id && ([id] + chain)[|chain|] == x;
    }
  }

  /** Two workforces do the same with this task. */
  ghost predicate Alike(a: Workforce, b: Workforce, id: TaskId) {
    forall planned: PlannedTask, attempt, context, avoid ::
      planned.id == id ==> a(planned, attempt, context, avoid) == b(planned, attempt, context, avoid)
  }

  lemma {:induction false} AlikeCarry(
      a: Workforce, b: Workforce, maxAttempts: int, planned: PlannedTask, context: SharedContext, p: Progress)
    requires Alike(a, b, planned.id)
    ensures CarryOn(a, maxAttempts, planned, context, p) == CarryOn(b, maxAttempts, planned, context, p)
    decreases if p.Attempting? && p.attempt < maxAttempts then maxAttempts - p.attempt else 0, p.Attempting?
  {
    hide Alike, RecoveryFor, Succeeded;
    if p.Attempting? {
      AlikeAttempt(a, b, planned, p.attempt, context, p.avoid);
      AlikeCarry(a, b, maxAttempts, planned, context, AfterAttempt(a, maxAttempts, planned, context, p));
    }
  }

  lemma AlikeAttempt(
      a: Workforce, b: Workforce, planned: PlannedTask, attempt: nat, context: SharedContext, avoid: set<string>)
    requires Alike(a, b, planned.id)
    ensures Outcome(a, planned, attempt, context, avoid) == Outcome(b, planned, attempt, context, avoid)
  {
  }

  /** What the results say about a task is this handover, or nothing. */
  ghost predicate Says(results: Results, id: TaskId, h: Option<Handover>) {
    if h.Some? then id in results && results[id] == h.value else id !in results
  }

  lemma {:induction false} OthersLeaveItAlone(results: Results, wave: seq<Handled>, id: TaskId)
    requires forall k :: 0 <= k < |wave| ==> wave[k].planned.id != id
    ensures id in ResultsAfter(results, wave) <==> id in results
    ensures id in results ==> ResultsAfter(results, wave)[id] == results[id]
  {
    hide HandoverOf, Succeeded;
    if wave == [] {
    } else {
      OthersLeaveItAlone(results, wave[..|wave| - 1], id);
    }
  }

  lemma {:induction false} ItsOwnIsRecorded(results: Results, wave: seq<Handled>, j: nat)
    requires DistinctIds(PlannedOf(wave)) && j < |wave| && Succeeded(wave[j].outcome) && wave[j].planned.id !in results
    ensures Says(ResultsAfter(results, wave), wave[j].planned.id, HandoverOf(wave[j].outcome.task))
  {
    hide HandoverOf, Succeeded;
    var n := |wave| - 1;
    var before := wave[..n];
    assert forall k :: 0 <= k < |wave| ==> PlannedOf(wave)[k] == wave[k].planned;
    assert PlannedOf(before) == PlannedOf(wave)[..n];
    if j == n {
      OthersLeaveItAlone(results, before, wave[j].planned.id);
    } else {
      ItsOwnIsRecorded(results, before, j);
      assert PlannedOf(wave)[j].id != PlannedOf(wave)[n].id;
    }
  }

  lemma WaveIsDistinct(s: Setup, w: nat)
    requires DistinctIds(s.plan.tasks) && w < |Start(s).waves|
    ensures DistinctIds(PlannedOf(Start(s).waves[w]))
    ensures forall k :: 0 <= k < |Start(s).waves[w]| ==> Start(s).waves[w][k].planned in s.plan.tasks
  {
    hide Start, DoneBefore, ResultsBefore, WaveOf;
    StartFits(s, w);
    var done := DoneBefore({}, Start(s).waves, w);
    var ready := Ready(s.plan, done);
    WaveIsOfReady(s, ResultsBefore(map[], Start(s).waves, w), ready);
    ReadyIsDistinct(s.plan, done, s.plan.tasks);
    assert PlannedOf(Start(s).waves[w]) == ready;
    forall k | 0 <= k < |ready| ensures Start(s).waves[w][k].planned in s.plan.tasks {
      assert ready[k] in ready;
    }
  }

  lemma NotInAnyOther(s: Setup, v: nat, u: nat, id: TaskId)
    requires StartedIn(Start(s).waves, v, id) && u != v && u < |Start(s).waves|
    ensures var wave := Start(s).waves[u]; forall k :: 0 <= k < |wave| ==> wave[k].planned.id != id
  {
    hide Start;
    if StartedIn(Start(s).waves, u, id) {
      StartedOnce(s, v, u, id);
    }
  }

  /** Before its wave nothing is recorded of a task. */
  lemma {:induction false} NothingRecordedYet(s: Setup, w: nat, v: nat, id: TaskId)
    requires w <= v && StartedIn(Start(s).waves, v, id)
    ensures id !in ResultsBefore(map[], Start(s).waves, w)
  {
    hide Start, ResultsAfter;
    if w > 0 {
      NothingRecordedYet(s, w - 1, v, id);
      var waves: seq<seq<Handled>> := Start(s).waves;
      NotInAnyOther(s, v, w - 1, id);
      OthersLeaveItAlone(ResultsBefore(map[], waves, w - 1), waves[w - 1], id);
    }
  }

  /** After its wave the record of a task that succeeded is what it handed over, and it stays that. */
  lemma {:induction false} RecordStays(s: Setup, w: nat, v: nat, j: nat)
    requires DistinctIds(s.plan.tasks) && v < w <= |Start(s).waves| && j < |Start(s).waves[v]|
    requires Succeeded(Start(s).waves[v][j].outcome)
    ensures var h := Start(s).waves[v][j];
            Says(ResultsBefore(map[], Start(s).waves, w), h.planned.id, HandoverOf(h.outcome.task))
    decreases w
  {
    hide Start, ResultsAfter, HandoverOf, Succeeded;
    var waves: seq<seq<Handled>> := Start(s).waves;
    var id := waves[v][j].planned.id;
    assert StartedIn(waves, v, id);
    if v == w - 1 {
      NothingRecordedYet(s, v, v, id);
      WaveIsDistinct(s, v);
      ItsOwnIsRecorded(ResultsBefore(map[], waves, v), waves[v], j);
    } else {
      RecordStays(s, w - 1, v, j);
      NotInAnyOther(s, v, w - 1, id);
      OthersLeaveItAlone(ResultsBefore(map[], waves, w - 1), waves[w - 1], id);
    }
  }

  /** Two setups that differ in nothing but how their workforces do. */
  ghost predicate Comparable(a: Setup, b: Setup) {
    && a.plan == b.plan && a.baseline == b.baseline && a.order == b.order && a.maxAttempts == b.maxAttempts
    && DistinctIds(a.plan.tasks)
    && forall id :: Lists(a.order, DependsOn(a.plan, id))
  }

  lemma HandledAsSaid(s: Setup, w: nat, j: nat)
    requires w < |Start(s).waves| && j < |Start(s).waves[w]|
    ensures var h := Start(s).waves[w][j];
            && h.context == Context(s, ResultsBefore(map[], Start(s).waves, w), h.planned.id)
            && h.outcome == Carry(s.workforce, s.maxAttempts, h.planned, h.context)
  {
    hide Start, DoneBefore, ResultsBefore, Context, Carry, Ready;
    StartFits(s, w);
  }

  lemma SameIdSameTask(tasks: seq<PlannedTask>, x: PlannedTask, y: PlannedTask)
    requires DistinctIds(tasks) && x in tasks && y in tasks && x.id == y.id
    ensures x == y
  {
  }

  /** Two runs of one plan, with the same baseline, in which everything upstream of a task does alike: whatever the rest
      of the plan does, and whenever, the task is told the same in both. */
  lemma {:induction false} NothingElseFlowsIn(a: Setup, b: Setup, w: nat, j: nat, v: nat, i: nat)
    requires Comparable(a, b)
    requires w < |Start(a).waves| && j < |Start(a).waves[w]| && v < |Start(b).waves| && i < |Start(b).waves[v]|
    requires Start(a).waves[w][j].planned.id == Start(b).waves[v][i].planned.id
    requires forall x :: Upstream(a.plan, Start(a).waves[w][j].planned.id, x) ==> Alike(a.workforce, b.workforce, x)
    ensures Start(a).waves[w][j].context == Start(b).waves[v][i].context
    decreases w
  {
    hide Start, Alike, Upstream, ResultsBefore, DependsOn, HandoverOf, Succeeded, CarryOn;
    var id := Start(a).waves[w][j].planned.id;
    var ra, rb := ResultsBefore(map[], Start(a).waves, w), ResultsBefore(map[], Start(b).waves, v);
    assert StartedIn(Start(a).waves, w, id) && StartedIn(Start(b).waves, v, id);
    forall d | d in DependsOn(a.plan, id) ensures (d in ra <==> d in rb) && (d in ra ==> ra[d] == rb[d]) {
      DirectIsUpstream(a.plan, id, d);
      var w' := DependenciesSucceedFirst(a, w, id, d);
      var v' := DependenciesSucceedFirst(b, v, id, d);
      var j': nat :| j' < |Start(a).waves[w']| && Start(a).waves[w'][j'].planned.id == d
                     && Succeeded(Start(a).waves[w'][j'].outcome);
      var i': nat :| i' < |Start(b).waves[v']| && Start(b).waves[v'][i'].planned.id == d
                     && Succeeded(Start(b).waves[v'][i'].outcome);
      NothingElseFlowsIn(a, b, w', j', v', i');
      SameOutcome(a, b, w', j', v', i');
      RecordStays(a, w, w', j');
      RecordStays(b, v, v', i');
    }
    HandledAsSaid(a, w, j);
    HandledAsSaid(b, v, i);
    ContextIsLocal(a.plan, a.baseline, a.order, ra, rb, id);
  }

  lemma SameOutcome(a: Setup, b: Setup, w: nat, j: nat, v: nat, i: nat)
    requires Comparable(a, b)
    requires w < |Start(a).waves| && j < |Start(a).waves[w]| && v < |Start(b).waves| && i < |Start(b).waves[v]|
    requires var x, y := Start(a).waves[w][j], Start(b).waves[v][i];
             x.planned.id == y.planned.id && x.context == y.context && Alike(a.workforce, b.workforce, x.planned.id)
    ensures Start(a).waves[w][j].outcome == Start(b).waves[v][i].outcome
  {
    hide Start, Alike, CarryOn, ResultsBefore, Context;
    HandledAsSaid(a, w, j);
    HandledAsSaid(b, v, i);
    WaveIsDistinct(a, w);
    WaveIsDistinct(b, v);
    var x, y := Start(a).waves[w][j], Start(b).waves[v][i];
    SameIdSameTask(a.plan.tasks, x.planned, y.planned);
    AlikeCarry(a.workforce, b.workforce, a.maxAttempts, x.planned, x.context, FIRST_ATTEMPT);
  }
}
