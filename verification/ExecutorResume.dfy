/**
 * Resuming the tool loop (application/employee_runtime/executor.py, application/employee_runtime/transcript.py):
 * stopping after a step, saving, reading back and going on comes to the same as not stopping.
 */
module ExecutorResume {
  import opened Wrappers
  import opened Transcripts
  import opened Policies
  import opened Refusals
  import opened Worlds
  import opened Executor
  import opened ExecutorRuns

  /** Two worlds whose model, tools and people answer alike. */
  ghost predicate AnswerAlike(w: World, v: World) {
    && (forall t, offered :: w.generate(t, offered) == v.generate(t, offered))
    && (forall t, name :: w.find(t, name) == v.find(t, name))
    && (forall t, call :: w.assess(t, call) == v.assess(t, call))
    && (forall t, call :: w.answer(t, call) == v.answer(t, call))
    && (forall t, call :: w.execute(t, call) == v.execute(t, call))
  }

  /** Nobody cancels, and the wall clock never runs out. */
  ghost predicate Undisturbed(e: Employee, w: World) {
    && (forall t :: !w.cancelled(t))
    && (forall t :: w.elapsed(t) < e.limits.maxWallTime)
  }

  /** Every call the model makes has an id. */
  ghost predicate CallsHaveIds(w: World) {
    forall t, offered :: w.generate(t, offered).Reply? ==> HaveIds(w.generate(t, offered).calls)
  }

  ghost predicate HaveIds(calls: seq<ToolCall>) {
    forall k :: 0 <= k < |calls| ==> calls[k].id != ""
  }

  // ----- Alike worlds, alike runs -----

  lemma SameInvocation(e: Employee, w: World, v: World, t: Transcript, call: ToolCall)
    requires AnswerAlike(w, v)
    ensures Invoke(e, w, t, call) == Invoke(e, v, t, call)
  {
    hide Evaluate;
  }

  lemma {:induction false} SameBatch(e: Employee, w: World, v: World, t: Transcript, calls: seq<ToolCall>)
    requires AnswerAlike(w, v) && (forall t :: !w.cancelled(t)) && (forall t :: !v.cancelled(t))
    ensures RunCalls(e, w, t, calls) == RunCalls(e, v, t, calls)
    decreases |calls|
  {
    hide Invoke, AfterCall, AnswerAlike, RunCalls;
    if calls == [] {
      NoCallsLeft(e, w, t);
      NoCallsLeft(e, v, t);
    } else {
      BatchStops(e, w, t, calls);
      BatchStops(e, v, t, calls);
      SameInvocation(e, w, v, t, calls[0]);
      var one := Invoke(e, w, t, calls[0]);
      if one.outcome.Invocation? {
        BatchGoesOn(e, w, t, calls);
        BatchGoesOn(e, v, t, calls);
        SameBatch(e, w, v, AfterCall(t, calls[0], one.outcome), calls[1..]);
      }
    }
  }

  lemma SameTurn(e: Employee, w: World, v: World, t: Transcript)
    requires AnswerAlike(w, v) && Undisturbed(e, w) && Undisturbed(e, v)
    ensures Turn(e, w, t) == Turn(e, v, t)
  {
    hide RunCalls, BestAnswer, OfferedIn;
    var reply := w.generate(t, OfferedIn(e, t));
    if reply.Reply? {
      var said := AfterReply(t, reply).WithMessage(AssistantMessage(reply.content, reply.calls));
      SameBatch(e, w, v, said, reply.calls);
    }
  }

  lemma {:induction false} SameRun(e: Employee, w: World, v: World, t: Transcript)
    requires AnswerAlike(w, v) && Undisturbed(e, w) && Undisturbed(e, v)
    ensures Loop(e, w, t) == Loop(e, v, t)
    decreases e.limits.maxSteps - t.steps
  {
    hide Turn, Loop, AnswerAlike, Undisturbed;
    SameTurn(e, w, v, t);
    LoopStep(e, w, t);
    LoopStep(e, v, t);
    if Turn(e, w, t).next.Continue? {
      SameRun(e, w, v, Turn(e, w, t).next.transcript);
    }
  }

  // ----- What is saved is read back -----

  lemma {:induction false} BatchStaysExact(e: Employee, w: World, t: Transcript, calls: seq<ToolCall>)
    requires ExactMessages(t.messages) && HaveIds(calls)
    ensures ExactMessages(RunCalls(e, w, t, calls).transcript.messages)
    decreases |calls|
  {
    hide Invoke, RunCalls, Refusals.Refusals, Summary;
    if calls == [] {
      NoCallsLeft(e, w, t);
    } else {
      BatchStops(e, w, t, calls);
      var one := Invoke(e, w, t, calls[0]);
      if !w.cancelled(t) && one.outcome.Invocation? {
        BatchGoesOn(e, w, t, calls);
        BatchStaysExact(e, w, AfterCall(t, calls[0], one.outcome), calls[1..]);
      }
    }
  }

  lemma TurnStaysExact(e: Employee, w: World, t: Transcript)
    requires ExactMessages(t.messages) && CallsHaveIds(w)
    ensures Turn(e, w, t).next.Continue? ==> ExactMessages(Turn(e, w, t).next.transcript.messages)
  {
    hide RunCalls, BestAnswer, OfferedIn;
    var reply := w.generate(t, OfferedIn(e, t));
    if reply.Reply? {
      var said := AfterReply(t, reply).WithMessage(AssistantMessage(reply.content, reply.calls));
      BatchStaysExact(e, w, said, reply.calls);
    }
  }

  // ----- Stopping and resuming -----

  /** The transcript after `n` turns that all went on, and everything done in them. */
  ghost predicate Reaches(e: Employee, w: World, t: Transcript, n: nat, acts: seq<Act>, t': Transcript)
    decreases n
  {
    if n == 0 then acts == [] && t' == t
    else
      var turn := Turn(e, w, t);
      && turn.next.Continue?
      && turn.acts <= acts
      && Reaches(e, w, turn.next.transcript, n - 1, acts[|turn.acts|..], t')
  }

  lemma {:induction false} RunSplits(e: Employee, w: World, t: Transcript, n: nat, acts: seq<Act>, t': Transcript)
    requires Reaches(e, w, t, n, acts, t')
    ensures Loop(e, w, t).end == Loop(e, w, t').end
    ensures Loop(e, w, t).acts == acts + Loop(e, w, t').acts
    ensures ExactMessages(t.messages) && CallsHaveIds(w) ==> ExactMessages(t'.messages)
    decreases n
  {
    hide Turn, Loop, ExactMessages, CallsHaveIds;
    if n == 0 {
      assert [] + Loop(e, w, t).acts == Loop(e, w, t).acts;
    } else {
      LoopStep(e, w, t);
      var turn := Turn(e, w, t);
      var later := acts[|turn.acts|..];
      RunSplits(e, w, turn.next.transcript, n - 1, later, t');
      if ExactMessages(t.messages) && CallsHaveIds(w) {
        TurnStaysExact(e, w, t);
      }
      assert acts == turn.acts + later;
      assert turn.acts + (later + Loop(e, w, t').acts) == turn.acts + later + Loop(e, w, t').acts;
    }
  }

  /** What the steps before the stop handed over last is the transcript the run stopped with. */
  lemma {:induction false} LastSaved(e: Employee, w: World, t: Transcript, n: nat, acts: seq<Act>, t': Transcript)
    requires n > 0 && Reaches(e, w, t, n, acts, t')
    ensures acts != [] && acts[|acts| - 1] == Saved(t')
    decreases n
  {
    hide Turn;
    var turn := Turn(e, w, t);
    ContinuingTurnSaves(e, w, t);
    if n > 1 {
      LastSaved(e, w, turn.next.transcript, n - 1, acts[|turn.acts|..], t');
    } else {
      assert Reaches(e, w, turn.next.transcript, 0, acts[|turn.acts|..], t');
    }
  }

  lemma ContinuingTurnSaves(e: Employee, w: World, t: Transcript)
    ensures var turn := Turn(e, w, t);
            turn.next.Continue? ==> turn.acts != [] && turn.acts[|turn.acts| - 1] == Saved(turn.next.transcript)
  {
    hide RunCalls, BestAnswer, OfferedIn;
  }

  /** Stop after any number of steps that went on, save the run state, read it back in another process and go on
      there: the outcome is that of the run that was never stopped, and what the two processes did together is what it
      did. */
  lemma ResumeEqualsContinue(
      e: Employee, w: World, v: World, t: Transcript, n: nat, acts: seq<Act>, t': Transcript, s: RunState)
    requires AnswerAlike(w, v) && Undisturbed(e, w) && Undisturbed(e, v) && CallsHaveIds(w)
    requires ExactMessages(t.messages)
    requires Reaches(e, w, t, n, acts, t') && s.transcript == t'
    ensures LoadRunState(SaveRunState(s)) == Some(s)
    ensures Loop(e, w, t).end == Loop(e, v, LoadRunState(SaveRunState(s)).value.transcript).end
    ensures Loop(e, w, t).acts == acts + Loop(e, v, LoadRunState(SaveRunState(s)).value.transcript).acts
  {
    hide Turn, Loop, Reaches, AnswerAlike, Undisturbed, CallsHaveIds, ExactMessages;
    RunSplits(e, w, t, n, acts, t');
    RunStateComesBack(s);
    SameRun(e, w, v, t');
  }

  /** Stopping after the final answer is different: that step leaves no trace of being final, and resuming from it asks
      the model once more, unless a budget is used up by then. */
  lemma AnswerIsAskedForAgain(e: Employee, w: World, v: World, t: Transcript, answer: Transcript)
    requires Undisturbed(e, v)
    requires Turn(e, w, t).next.Halt? && Saved(answer) in Turn(e, w, t).acts
    ensures answer.messages != []
    ensures Loop(e, w, t).end == Finished(StepOutcome(answer, answer.messages[|answer.messages| - 1].content, None, false))
    ensures var again := Loop(e, v, answer);
            if answer.steps < e.limits.maxSteps && answer.cost < e.limits.maxCost
            then again.acts != [] && again.acts[0].Asked?
            else again.acts == [] && again.end.Finished? && again.end.outcome.stoppedBy.Some?
  {
    hide RunCalls, BestAnswer, OfferedIn, Loop;
    LoopStep(e, w, t);
    LoopStep(e, v, answer);
    var reply := w.generate(t, OfferedIn(e, t));
    if reply.Reply? {
      var said := AfterReply(t, reply).WithMessage(AssistantMessage(reply.content, reply.calls));
      BatchSavesNothing(e, w, said, reply.calls);
    }
  }
}
