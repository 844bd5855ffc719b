/**
 * Which tasks can still complete when they are taken up late (application/employee_runtime/runtime.py,
 * domain/tasks/task.py): for a given employee and a given row, exactly when some outside lets the resumed task complete.
 */
module RuntimeResumes {
  import opened Wrappers
  import opened Text
  import opened Transcripts
  import opened Tasks
  import opened Policies
  import opened Worlds
  import opened Approvals
  import opened Executor
  import opened ExecutorPolicies
  import opened Delegation
  import opened Runtime
  import opened RuntimeBudgets
  import opened RuntimeCrashes

  /** The employee was given its tools from this registry. */
  ghost predicate Registered(e: Employee, tools: ToolTable, allowed: set<string>) {
    Named(tools) && IsGranted(e, tools, allowed)
  }

  /** An outside in which tools come from the registry and no clock runs backwards. Everything else is free. */
  ghost predicate Plausible(s: Surroundings, e: Employee, tools: ToolTable, allowed: set<string>) {
    forall k: nat :: Confined(e, s.world(k), tools, allowed) && forall t :: s.world(k).elapsed(t) >= 0.0
  }

  ghost predicate Completes(s: Surroundings, e: Employee, task: Task) {
    Session(s, e, task).end.Returned? && StatusAfter(task.status, Session(s, e, task).log) == COMPLETED
  }

  /** The employee has budget left for another step after this transcript. */
  predicate HasBudget(e: Employee, t: Transcript) {
    t.steps < e.limits.maxSteps && t.cost < e.limits.maxCost && 0.0 < e.limits.maxWallTime
  }

  /** A row left behind at a moment when the saved stage said EXECUTING and the status something else. */
  predicate LateCrash(task: Task) {
    CrashPoint(task) && !IsTerminal(task.status) && SavedStage(task) == STAGE_EXECUTING && task.status != RUNNING
  }

  function SavedTranscript(task: Task): Transcript
    requires Readable(task)
  {
    LoadRunState(task.state).value.transcript
  }

  // ----- Nobody can be asked -----

  /** Without budget the loop ends before it has done anything. */
  lemma NothingWithoutBudget(e: Employee, w: World, t: Transcript)
    requires !HasBudget(e, t) && w.elapsed(t) >= 0.0
    ensures Loop(e, w, t).acts == []
  {
    hide BestAnswer, TakeReply;
  }

  lemma NobodyAskedWhenResumed(s: Surroundings, e: Employee, tools: ToolTable, allowed: set<string>, task: Task)
    requires Plausible(s, e, tools, allowed) && LateCrash(task)
    requires !(CanAsk(e, tools, allowed) && HasBudget(e, SavedTranscript(task)))
    ensures Told(WAITING_FOR_APPROVAL) !in FirstExecution(s, e, task).acts
  {
    hide Loop, CanAsk, HasBudget, Confined, LoadRunState;
    assert Confined(e, s.world(0), tools, allowed);
    if !CanAsk(e, tools, allowed) {
      NobodyIsAsked(e, s.world(0), tools, allowed, SavedTranscript(task));
    } else {
      NothingWithoutBudget(e, s.world(0), SavedTranscript(task));
    }
  }

  // ----- Somebody is asked -----

  /** At step `n` the model calls the tool, which calls the call critical; somebody approves it. */
  function Questioned(n: int, name: string, tools: ToolTable, allowed: set<string>): World {
    World(t => false, t => 0.0,
          (t: Transcript, offered) =>
            Reply("done", if t.steps == n then [ToolCall("1", name, map[])] else [], 0.0),
          (t, wanted) => GetTool(tools, allowed, wanted), (t, call) => Judged(RiskAssessment(CRITICAL, "")),
          (t, call) => Answered(APPROVED), (t, call) => ToolResult(true, "", ""))
  }

  function WithQuestion(n: int, name: string, tools: ToolTable, allowed: set<string>): Surroundings {
    Surroundings(k => Unplannable, k => "", (k, plan, feedback) => "", k => Questioned(n, name, tools, allowed),
                 k => Opinion(true, "", []))
  }

  lemma CriticalCallsAreAsked(
      e: Employee, tools: ToolTable, allowed: set<string>, n: int, name: string, t: Transcript, call: ToolCall)
    requires e.approver && name in tools && IsAllowed(name, allowed) && !Forbids(e.policies, tools[name].effect)
    requires call.name == name
    ensures var one := Invoke(e, Questioned(n, name, tools, allowed), t, call);
            one.outcome.Invocation? && |one.acts| >= 2 && one.acts[1] == Told(WAITING_FOR_APPROVAL)
  {
    hide Evaluate, Forbids;
    var request := RequestFor(e, tools[name], Some(RiskAssessment(CRITICAL, "")));
    DeniedIffForbidden(request);
    RiskyCallsAreNeverAllowed(tools[name], Some(RiskAssessment(CRITICAL, "")), request);
  }

  lemma SaidDone(messages: seq<Message>, calls: seq<ToolCall>, reply: Message)
    requires reply.role == Tool
    ensures BestAnswer(messages + [AssistantMessage("done", calls)] + [reply]) == "done"
  {
    var said := messages + [AssistantMessage("done", calls)];
    assert (said + [reply])[..|said|] == said;
  }

  /** The execution asks once and finishes, with an answer, whether or not the question took the last step. */
  lemma QuestionedRun(e: Employee, tools: ToolTable, allowed: set<string>, name: string, t: Transcript)
    requires HasBudget(e, t)
    requires e.approver && name in tools && IsAllowed(name, allowed) && !Forbids(e.policies, tools[name].effect)
    ensures var run := Loop(e, Questioned(t.steps, name, tools, allowed), t);
            && Told(WAITING_FOR_APPROVAL) in run.acts
            && run.end.Finished? && !run.end.outcome.cancelled && run.end.outcome.answer == "done"
  {
    hide Loop, OfferedIn, NamesOf, BestAnswer, Invoke, Summary, Refusals.Refusals, GetTool, Forbids;
    var w, call := Questioned(t.steps, name, tools, allowed), ToolCall("1", name, map[]);
    LoopStep(e, w, t);
    var said := AfterReply(t, Reply("done", [call], 0.0)).WithMessage(AssistantMessage("done", [call]));
    CriticalCallsAreAsked(e, tools, allowed, t.steps, name, said, call);
    var one := Invoke(e, w, said, call);
    BatchGoesOn(e, w, said, [call]);
    assert [call][1..] == [];
    var next := AfterCall(said, call, one.outcome);
    NoCallsLeft(e, w, next);
    SaidDone(t.messages, [call], next.messages[|next.messages| - 1]);
    var turn := Turn(e, w, t);
    assert turn.next == Continue(next) && turn.acts[3] == one.acts[1];
    LoopStep(e, w, next);
    assert Loop(e, w, t).acts[3] == turn.acts[3];
  }

  /** A task left in a late pair, with its employee and its registry: some outside lets it complete when it is resumed if
      and only if the employee has somebody to ask about some tool it may use, and budget left for the step that asks.
      Without either it never completes, and is refused the next move whenever its loop finishes uncancelled. */
  lemma LateCrashesCompleteIffAskable(e: Employee, tools: ToolTable, allowed: set<string>, task: Task)
    requires Registered(e, tools, allowed) && LateCrash(task)
    ensures (exists s :: Plausible(s, e, tools, allowed) && Completes(s, e, task)) <==>
            CanAsk(e, tools, allowed) && HasBudget(e, SavedTranscript(task))
    ensures !(CanAsk(e, tools, allowed) && HasBudget(e, SavedTranscript(task))) ==>
              forall s :: Plausible(s, e, tools, allowed) ==>
                var end := FirstExecution(s, e, task).end;
                Session(s, e, task).end.Illegal? <==> end.Finished? && !end.outcome.cancelled
  {
    hide Session, FirstExecution, StatusAfter, HasBudget, Plausible, LoadRunState, Forbids, WithQuestion;
    if CanAsk(e, tools, allowed) && HasBudget(e, SavedTranscript(task)) {
      var name :| name in tools && IsAllowed(name, allowed) && !Forbids(e.policies, tools[name].effect);
      var s := QuestionCompletes(e, tools, allowed, task, name);
      assert Plausible(s, e, tools, allowed) && Completes(s, e, task);
    } else {
      forall s | Plausible(s, e, tools, allowed)
        ensures !Completes(s, e, task)
        ensures Session(s, e, task).end.Illegal? <==>
                FirstExecution(s, e, task).end.Finished? && !FirstExecution(s, e, task).end.outcome.cancelled
      {
        NobodyAskedWhenResumed(s, e, tools, allowed, task);
        UnaskedResumesNeverComplete(s, e, task);
        LateCrashesAreLegalIffAsked(s, e, task);
      }
    }
  }

  lemma QuestionCompletes(e: Employee, tools: ToolTable, allowed: set<string>, task: Task, name: string)
    returns (s: Surroundings)
    requires Registered(e, tools, allowed) && LateCrash(task) && HasBudget(e, SavedTranscript(task))
    requires e.approver && name in tools && IsAllowed(name, allowed) && !Forbids(e.policies, tools[name].effect)
    ensures Plausible(s, e, tools, allowed) && Completes(s, e, task)
  {
    hide Session, Loop, StatusAfter, LoadRunState, Forbids;
    var t := SavedTranscript(task);
    s := WithQuestion(t.steps, name, tools, allowed);
    QuestionedRun(e, tools, allowed, name, t);
    assert !Blank("done") by { assert "done"[0] == 'd'; }
    AnAnsweredQuestionUnblocks(s, e, task);
  }
}
