/**
 * Killed between two steps and taken up again (application/employee_runtime/runtime.py): the rows and the end are those
 * of a run that was never killed.
 */
module RuntimeReplays {
  import opened Wrappers
  import opened Transcripts
  import opened Tasks
  import opened Worlds
  import opened Executor
  import opened ExecutorResume
  import opened Runtime

  /** What one process meets at its stage `a` the other meets at its stage `b`: the same plan, instructions and verdict,
      and a model, tools and people that answer alike. Nobody cancels, and no clock runs out. */
  ghost predicate MeetAlike(s: Surroundings, v: Surroundings, e: Employee, a: nat, b: nat) {
    && s.plan(a) == v.plan(b) && s.system(a) == v.system(b) && s.opinion(a) == v.opinion(b)
    && (forall plan, feedback :: s.instruction(a, plan, feedback) == v.instruction(b, plan, feedback))
    && AnswerAlike(s.world(a), v.world(b)) && Undisturbed(e, s.world(a)) && Undisturbed(e, v.world(b))
  }

  /** The second process meets from its stage `j` on what the first would have met from its stage `k` on. */
  ghost predicate CarriesOn(s: Surroundings, v: Surroundings, e: Employee, k: nat, j: nat) {
    forall a: nat, b: nat :: a >= k && a - k == b - j ==> MeetAlike(s, v, e, a, b)
  }

  lemma MetNow(s: Surroundings, v: Surroundings, e: Employee, k: nat, j: nat)
    requires CarriesOn(s, v, e, k, j)
    ensures MeetAlike(s, v, e, k, j)
  {
  }

  lemma CarriesOnLater(s: Surroundings, v: Surroundings, e: Employee, k: nat, j: nat)
    requires CarriesOn(s, v, e, k, j)
    ensures CarriesOn(s, v, e, k + 1, j + 1)
  {
  }

  /** In such surroundings a stage, and then a run, comes to the same. */
  lemma SameStage(s: Surroundings, v: Surroundings, e: Employee, k: nat, j: nat, task: Task, state: RunState)
    requires CarriesOn(s, v, e, k, j)
    ensures OneStage(s, e, k, task, state) == OneStage(v, e, j, task, state)
  {
    hide Loop, KeepAll, Judge, AnswerAlike, Undisturbed, SaveRunState;
    assert MeetAlike(s, v, e, k, j);
    SameRun(e, s.world(k), v.world(j), state.transcript);
  }

  lemma {:induction false} SameStages(
      s: Surroundings, v: Surroundings, e: Employee, k: nat, j: nat, task: Task, state: RunState)
    requires CarriesOn(s, v, e, k, j)
    ensures Stages(s, e, k, task, state) == Stages(v, e, j, task, state)
    decreases SendBacksLeft(state), Distance(state)
  {
    hide OneStage, Stages, CarriesOn;
    if state.stage == STAGE_DONE {
      StagesDone(s, e, k, task, state);
      StagesDone(v, e, j, task, state);
    } else {
      StagesStep(s, e, k, task, state);
      StagesStep(v, e, j, task, state);
      SameStage(s, v, e, k, j, task, state);
      var stage := OneStage(s, e, k, task, state);
      if stage.moved.Moved? {
        StagesEnd(s, e, k, task, state);
        CarriesOnLater(s, v, e, k, j);
        SameStages(s, v, e, k + 1, j + 1, stage.moved.task, stage.moved.state);
      }
    }
  }

  // ----- The callbacks of a run in two parts -----

  lemma {:induction false} KeepBoth(kept: Kept, a: seq<Act>, b: seq<Act>)
    ensures KeepAll(kept, a + b) == KeepAll(KeepAll(kept, a), b)
    decreases |b|
  {
    hide Keep;
    if b == [] {
      assert a + b == a;
    } else {
      var n := |b| - 1;
      KeepBoth(kept, a, b[..n]);
      assert (a + b)[..|a + b| - 1] == a + b[..n] && (a + b)[|a + b| - 1] == b[n];
    }
  }

  /** What a replay saves does not depend on what was saved before. */
  lemma {:induction false} KeepAfter(first: seq<Entry>, second: seq<Entry>, task: Task, state: RunState, acts: seq<Act>)
    ensures var a, b := KeepAll(Kept(first + second, task, state), acts), KeepAll(Kept(second, task, state), acts);
            a == b.(log := first + b.log)
  {
    hide SaveRunState;
    if acts == [] {
    } else {
      var n := |acts| - 1;
      KeepAfter(first, second, task, state, acts[..n]);
      var b := KeepAll(Kept(second, task, state), acts[..n]);
      KeepOneAfter(first, b, acts[n]);
    }
  }

  lemma KeepOneAfter(first: seq<Entry>, kept: Kept, act: Act)
    ensures Keep(kept.(log := first + kept.log), act) == Keep(kept, act).(log := first + Keep(kept, act).log)
  {
    hide SaveRunState;
    var log := Keep(kept, act).log;
    assert log != kept.log ==> log == kept.log + [log[|log| - 1]] && first + kept.log + [log[|log| - 1]] == first + log;
  }

  // ----- Killed after a step -----

  /** What is saved by the end of these steps of the tool loop, and where the row and the state then stand. */
  function SavedBy(e: Employee, w: World, task: Task, state: RunState, acts: seq<Act>): Kept {
    KeepAll(Kept([Execution(Loop(e, w, state.transcript))], task, state), acts)
  }

  /** The row holds the transcript the steps have reached. */
  lemma RowHoldsTheStep(
      e: Employee, w: World, task: Task, state: RunState, n: nat, acts: seq<Act>, t: Transcript)
    requires Reaches(e, w, state.transcript, n, acts, t)
    requires n > 0 || task.state == SaveRunState(state)
    ensures var kept := SavedBy(e, w, task, state, acts);
            kept.state == state.(transcript := t) && kept.task.state == SaveRunState(kept.state)
  {
    hide Loop, Reaches, SaveRunState;
    var start := Kept([Execution(Loop(e, w, state.transcript))], task, state);
    KeepingKeepsTheStage(start, acts);
    if n > 0 {
      LastSaved(e, w, state.transcript, n, acts, t);
      KeepingKeepsTheStage(start, acts[..|acts| - 1]);
    } else {
      NoSteps(e, w, state.transcript, acts, t);
    }
  }

  lemma NoSteps(e: Employee, w: World, t: Transcript, acts: seq<Act>, t': Transcript)
    requires Reaches(e, w, t, 0, acts, t')
    ensures acts == [] && t' == t
  {
  }

  /** The execution goes on from the row as it would have gone on, and so does the verdict after it. */
  lemma StageGoesOn(
      s: Surroundings, v: Surroundings, e: Employee, k: nat, task: Task, state: RunState, n: nat, acts: seq<Act>,
      t: Transcript)
    requires CarriesOn(s, v, e, k, 0) && state.stage == STAGE_EXECUTING
    requires Reaches(e, s.world(k), state.transcript, n, acts, t)
    requires n > 0 || task.state == SaveRunState(state)
    ensures var kept := SavedBy(e, s.world(k), task, state, acts);
            var whole, rest := Execute(s, e, k, task, state), Execute(v, e, 0, kept.task, kept.state);
            && whole.moved == rest.moved
            && rest.log != [] && rest.log[0] == Execution(Loop(e, v.world(0), t))
            && whole.log == kept.log + rest.log[1..]
  {
    hide Loop, Reaches, KeepAll, Verify, Cancel, CarriesOn, AnswerAlike, Undisturbed;
    var w := s.world(k);
    var kept := SavedBy(e, w, task, state, acts);
    RowHoldsTheStep(e, w, task, state, n, acts, t);
    MetNow(s, v, e, k, 0);
    RunSplits(e, w, state.transcript, n, acts, t);
    SameRun(e, w, v.world(0), t);
    var more := Loop(e, v.world(0), t);
    KeepBoth(Kept([Execution(Loop(e, w, state.transcript))], task, state), acts, more.acts);
    assert kept == Kept(kept.log + [], kept.task, kept.state);
    KeepAfter(kept.log, [], kept.task, kept.state, more.acts);
    KeepAfter([Execution(more)], [], kept.task, kept.state, more.acts);
    assert [Execution(more)] + [] == [Execution(more)];
    var later := KeepAll(Kept([], kept.task, kept.state), more.acts);
    if more.end.Finished? {
      SameVerdict(s, v, e, k, later.task, later.state.(transcript := more.end.outcome.transcript, stage := STAGE_VERIFYING),
                  ResultOf(more.end.outcome));
      var verdict := AfterLoop(v, 0, later, more.end.outcome);
      Regroup(kept.log, later.log, verdict.log);
      Regroup([Execution(more)], later.log, verdict.log);
    }
  }

  function AfterLoop(s: Surroundings, k: nat, kept: Kept, outcome: StepOutcome): Stage {
    var after := kept.state.(transcript := outcome.transcript, stage := STAGE_VERIFYING);
    if outcome.cancelled then Cancel(kept.task, after, ResultOf(outcome))
    else Verify(s, k, kept.task, after, ResultOf(outcome))
  }

  lemma SameVerdict(
      s: Surroundings, v: Surroundings, e: Employee, k: nat, task: Task, state: RunState, result: TaskResult)
    requires CarriesOn(s, v, e, k, 0)
    ensures Verify(s, k, task, state, result) == Verify(v, 0, task, state, result)
  {
    hide CarriesOn, AnswerAlike, Undisturbed, Judge, Follow;
    MetNow(s, v, e, k, 0);
  }

  /** A process killed at stage `k` of a run, after any number of steps of the tool loop; another one takes the task up
      from the row. What the two save together, entry for entry, and how the second ends, is what the first would have
      saved, and how it would have ended, had it not been killed - retry, verdicts and all. */
  lemma ResumedRunIsTheWholeRun(
      s: Surroundings, v: Surroundings, e: Employee, k: nat, task: Task, state: RunState, n: nat, acts: seq<Act>,
      t: Transcript)
    requires CarriesOn(s, v, e, k, 0) && CallsHaveIds(s.world(k)) && ExactMessages(state.transcript.messages)
    requires state.stage == STAGE_EXECUTING
    requires Reaches(e, s.world(k), state.transcript, n, acts, t)
    requires n > 0 || task.state == SaveRunState(state)
    ensures var kept := SavedBy(e, s.world(k), task, state, acts);
            var whole, resumed := Stages(s, e, k, task, state), Session(v, e, kept.task);
            && whole.end == resumed.end
            && resumed.log != [] && resumed.log[0] == Execution(Loop(e, v.world(0), t))
            && whole.log == kept.log + resumed.log[1..]
  {
    hide Loop, Reaches, SavedBy, Execute, Stages, CarriesOn, AnswerAlike, Undisturbed, CallsHaveIds, ExactMessages;
    hide SaveRunState, LoadRunState;
    var kept := SavedBy(e, s.world(k), task, state, acts);
    RowHoldsTheStep(e, s.world(k), task, state, n, acts, t);
    RunSplits(e, s.world(k), state.transcript, n, acts, t);
    RunStateComesBack(kept.state);
    StagesStep(s, e, k, task, state);
    StagesStep(v, e, 0, kept.task, kept.state);
    StageGoesOn(s, v, e, k, task, state, n, acts, t);
    var whole, rest := Execute(s, e, k, task, state), Execute(v, e, 0, kept.task, kept.state);
    if rest.moved.Moved? {
      CarriesOnLater(s, v, e, k, 0);
      SameStages(s, v, e, k + 1, 1, rest.moved.task, rest.moved.state);
      var later := Stages(v, e, 1, rest.moved.task, rest.moved.state).log;
      assert (rest.log + later)[1..] == rest.log[1..] + later;
      Regroup(kept.log, rest.log[1..], later);
    }
  }
}
