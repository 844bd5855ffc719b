/**
 * The tool loop of an employee (application/employee_runtime/executor.py).
 *
 * `Turn` is one pass of the loop as a function of the transcript, `Loop` the whole loop; `Executor.Run` is the loop
 * itself, recording on the journal what it does to the outside.
 */
module Executor {
  import opened Wrappers
  import opened Transcripts
  import opened Tasks
  import opened Policies
  import opened Refusals
  import opened Worlds
  import opened Approvals

  datatype StepOutcome = StepOutcome(
    transcript: Transcript, answer: string, stoppedBy: Option<LimitKind>, cancelled: bool)

  datatype End = Finished(outcome: StepOutcome) | Raised(error: Exception)

  /** A run of the loop: what it did, and how it ended. */
  datatype Ran = Ran(acts: seq<Act>, end: End)

  // ----- One call -----

  datatype Invocation = Invocation(result: ToolResult, refused: bool) | InvocationFailed(error: Exception)

  datatype Invoked = Invoked(outcome: Invocation, acts: seq<Act>)

  /** `_invoke`: permission first, then the gate, then the tool. */
  function Invoke(e: Employee, w: World, t: Transcript, call: ToolCall): Invoked {
    match w.find(t, call.name)
    case None => Invoked(Invocation(ToolResult(false, "", "may not use " + call.name), true), [])
    case Some(spec) =>
      var gate := Check(e, w, t, call, spec);
      match gate.outcome
      case Broken(error) => Invoked(InvocationFailed(error), gate.acts)
      case Refused(reason) => Invoked(Invocation(ToolResult(false, "", reason), true), gate.acts)
      case Allowed => Invoked(Invocation(w.execute(t, call), false), gate.acts + [Executed(spec.name)])
  }

  function Summary(call: ToolCall, result: ToolResult): string {
    if !result.success then call.name + " failed: " + result.error
    else if result.output == "" then call.name + " returned nothing."
    else call.name + " returned: " + result.output
  }

  /** `_observe`: the observation of a call, with a notice when it is the refusal that withdraws the tool. */
  function Observe(t: Transcript, call: ToolCall, outcome: Invocation): Observation
    requires outcome.Invocation?
  {
    var notice := if outcome.refused && Refusals.Refusals(t.observations, call.name) + 1 >= REFUSAL_LIMIT
                  then " " + call.name + " is no longer available." else "";
    Observation(t.steps, Summary(call, outcome.result) + notice, outcome.result.success,
                Details(call.name, call.arguments, outcome.refused))
  }

  /** The transcript after a call: its observation, and the reply to the model. */
  function AfterCall(t: Transcript, call: ToolCall, outcome: Invocation): Transcript
    requires outcome.Invocation?
  {
    var o := Observe(t, call, outcome);
    t.WithObservation(o).WithMessage(ToolMessage(o.summary, call.id))
  }

  // ----- One batch of calls -----

  datatype BatchEnd = Done | Interrupted | Failed(error: Exception)

  datatype Batch = Batch(acts: seq<Act>, transcript: Transcript, end: BatchEnd)

  function RunCalls(e: Employee, w: World, t: Transcript, calls: seq<ToolCall>): (b: Batch)
    ensures b.transcript.steps == t.steps && b.transcript.cost == t.cost
    decreases |calls|
  {
    if calls == [] then Batch([], t, Done)
    else if w.cancelled(t) then Batch([], t, Interrupted)
    else
      var one := Invoke(e, w, t, calls[0]);
      if one.outcome.InvocationFailed? then Batch(one.acts, t, Failed(one.outcome.error))
      else
        var rest := RunCalls(e, w, AfterCall(t, calls[0], one.outcome), calls[1..]);
        Batch(one.acts + rest.acts, rest.transcript, rest.end)
  }

  lemma NoCallsLeft(e: Employee, w: World, t: Transcript)
    ensures RunCalls(e, w, t, []) == Batch([], t, Done)
  {
  }

  /** A batch ends before its next call: cancelled, or because the call failed. */
  lemma BatchStops(e: Employee, w: World, t: Transcript, calls: seq<ToolCall>)
    requires calls != []
    ensures w.cancelled(t) ==> RunCalls(e, w, t, calls) == Batch([], t, Interrupted)
    ensures !w.cancelled(t) && Invoke(e, w, t, calls[0]).outcome.InvocationFailed? ==>
              RunCalls(e, w, t, calls) ==
              Batch(Invoke(e, w, t, calls[0]).acts, t, Failed(Invoke(e, w, t, calls[0]).outcome.error))
  {
    hide Invoke;
  }

  /** A batch goes on after a call. */
  lemma BatchGoesOn(e: Employee, w: World, t: Transcript, calls: seq<ToolCall>)
    requires calls != [] && !w.cancelled(t) && Invoke(e, w, t, calls[0]).outcome.Invocation?
    ensures var one := Invoke(e, w, t, calls[0]);
            var rest := RunCalls(e, w, AfterCall(t, calls[0], one.outcome), calls[1..]);
            RunCalls(e, w, t, calls) == Batch(one.acts + rest.acts, rest.transcript, rest.end)
  {
    hide Invoke, AfterCall;
  }

  /** With `done` behind it, the rest of a batch makes up the whole batch. */
  function After(done: seq<Act>, rest: Batch): Batch {
    Batch(done + rest.acts, rest.transcript, rest.end)
  }

  lemma AfterBoth(done: seq<Act>, more: seq<Act>, rest: Batch)
    ensures After(done, After(more, rest)) == After(done + more, rest)
  {
    assert done + (more + rest.acts) == (done + more) + rest.acts;
  }

  // ----- One turn -----

  /** Whatever the employee last said. */
  function BestAnswer(messages: seq<Message>): string {
    if messages == [] then ""
    else
      var last := messages[|messages| - 1];
      if last.content != "" && last.role == Assistant then last.content else BestAnswer(messages[..|messages| - 1])
  }

  /** The granted tools without the withheld ones. */
  function Offered(granted: seq<ToolSpec>, barred: set<string>): seq<ToolSpec> {
    if granted == [] then []
    else (if granted[0].name in barred then [] else [granted[0]]) + Offered(granted[1..], barred)
  }

  function NamesOf(specs: seq<ToolSpec>): seq<string> {
    seq(|specs|, k requires 0 <= k < |specs| => specs[k].name)
  }

  function OfferedIn(e: Employee, t: Transcript): seq<ToolSpec> {
    Offered(e.granted, Withheld(t.observations))
  }

  datatype Next = Continue(transcript: Transcript) | Halt(end: End)

  datatype Turned = Turned(acts: seq<Act>, next: Next)

  /** The transcript after the model was paid for. */
  function AfterReply(t: Transcript, reply: Reply): Transcript
    requires reply.Reply?
  {
    t.WithSpend(reply.cost).Advanced()
  }

  function Turn(e: Employee, w: World, t: Transcript): (r: Turned)
    ensures r.next.Continue? ==> r.next.transcript.steps == t.steps + 1 && t.steps < e.limits.maxSteps
  {
    if w.cancelled(t) then
      Turned([], Halt(Finished(StepOutcome(t, BestAnswer(t.messages), None, true))))
    else
      var exceeded := ExceededBy(e.limits, t.steps, t.cost, w.elapsed(t));
      if exceeded.Some? then
        Turned([], Halt(Finished(StepOutcome(t, BestAnswer(t.messages), exceeded, false))))
      else
        var offered := OfferedIn(e, t);
        var asked := Asked(t.cost, NamesOf(offered));
        var reply := w.generate(t, offered);
        if reply.NoReply? then Turned([asked], Halt(Raised(reply.error)))
        else TakeReply(e, w, t, asked, reply)
  }

  /** The part of a turn after the model has answered. */
  function TakeReply(e: Employee, w: World, t: Transcript, asked: Act, reply: Reply): (r: Turned)
    requires reply.Reply?
    ensures r.next.Continue? ==> r.next.transcript.steps == t.steps + 1
  {
    var paid := AfterReply(t, reply);
    var head := [asked, Paid(reply.cost)];
    var said := paid.WithMessage(AssistantMessage(reply.content, reply.calls));
    if reply.calls == [] then
      Turned(head + [Saved(said)], Halt(Finished(StepOutcome(said, reply.content, None, false))))
    else
      var batch := RunCalls(e, w, said, reply.calls);
      match batch.end
      case Failed(error) => Turned(head + batch.acts, Halt(Raised(error)))
      case Interrupted =>
        Turned(head + batch.acts, Halt(Finished(
          StepOutcome(batch.transcript, BestAnswer(batch.transcript.messages), None, true))))
      case Done => Turned(head + batch.acts + [Saved(batch.transcript)], Continue(batch.transcript))
  }

  lemma ReplyStartsWithAsked(e: Employee, w: World, t: Transcript, asked: Act, reply: Reply)
    requires reply.Reply?
    ensures var acts := TakeReply(e, w, t, asked, reply).acts; acts != [] && [asked] + acts[1..] == acts
  {
    hide RunCalls;
  }

  // ----- The loop -----

  function Loop(e: Employee, w: World, t: Transcript): Ran
    decreases e.limits.maxSteps - t.steps
  {
    var turn := Turn(e, w, t);
    match turn.next
    case Halt(end) => Ran(turn.acts, end)
    case Continue(t') =>
      var rest := Loop(e, w, t');
      Ran(turn.acts + rest.acts, rest.end)
  }

  lemma LoopStep(e: Employee, w: World, t: Transcript)
    ensures var r, turn := Loop(e, w, t), Turn(e, w, t);
            && (turn.next.Halt? ==> r == Ran(turn.acts, turn.next.end))
            && (turn.next.Continue? ==>
                  var rest := Loop(e, w, turn.next.transcript);
                  r.acts == turn.acts + rest.acts && r.end == rest.end)
  {
  }

  class Executor {
    const employee: Employee
    const world: World
    const journal: Journal
    const gate: ApprovalGate

    ghost predicate Valid() {
      gate.employee == employee && gate.world == world && gate.journal == journal
    }

    constructor (employee: Employee, world: World, journal: Journal)
      ensures Valid() && this.employee == employee && this.world == world && this.journal == journal
    {
      this.employee, this.world, this.journal := employee, world, journal;
      gate := new ApprovalGate(employee, world, journal);
    }

    method InvokeCall(t: Transcript, call: ToolCall) returns (outcome: Invocation)
      requires Valid()
      modifies journal
      ensures outcome == Invoke(employee, world, t, call).outcome
      ensures journal.acts == old(journal.acts) + Invoke(employee, world, t, call).acts
    {
      var found := world.find(t, call.name);
      if found.None? {
        return Invocation(ToolResult(false, "", "may not use " + call.name), true);
      }
      var allowed := gate.CheckCall(t, call, found.value);
      match allowed
      case Broken(error) => return InvocationFailed(error);
      case Refused(reason) => return Invocation(ToolResult(false, "", reason), true);
      case Allowed =>
        journal.Record(Executed(found.value.name));
        return Invocation(world.execute(t, call), false);
    }

    /** The inner loop of `run`: the calls of one reply, one after another. */
    method RunBatch(start: Transcript, calls: seq<ToolCall>) returns (t: Transcript, end: BatchEnd)
      requires Valid()
      modifies journal
      ensures t == RunCalls(employee, world, start, calls).transcript
      ensures end == RunCalls(employee, world, start, calls).end
      ensures journal.acts == old(journal.acts) + RunCalls(employee, world, start, calls).acts
    {
      hide RunCalls, Invoke, AfterCall;
      ghost var whole := RunCalls(employee, world, start, calls);
      t := start;
      ghost var done := [];
      for k := 0 to |calls|
        invariant journal.acts == old(journal.acts) + done
        invariant whole == After(done, RunCalls(employee, world, t, calls[k..]))
      {
        assert calls[k..][0] == calls[k] && calls[k..][1..] == calls[k + 1..];
        BatchStops(employee, world, t, calls[k..]);
        if world.cancelled(t) {
          assert done + [] == done;
          return t, Interrupted;
        }
        var outcome := InvokeCall(t, calls[k]);
        ghost var acts := Invoke(employee, world, t, calls[k]).acts;
        assert old(journal.acts) + done + acts == old(journal.acts) + (done + acts);
        if outcome.InvocationFailed? {
          return t, Failed(outcome.error);
        }
        BatchGoesOn(employee, world, t, calls[k..]);
        t := AfterCall(t, calls[k], outcome);
        AfterBoth(done, acts, RunCalls(employee, world, t, calls[k + 1..]));
        done := done + acts;
      }
      assert calls[|calls|..] == [] && done + [] == done;
      NoCallsLeft(employee, world, t);
      return t, Done;
    }

    /** `run`: advance until finished or out of budget. */
    method Run(start: Transcript) returns (end: End)
      requires Valid()
      modifies journal
      ensures end == Loop(employee, world, start).end
      ensures journal.acts == old(journal.acts) + Loop(employee, world, start).acts
    {
      hide Loop, Turn;
      ghost var whole := Loop(employee, world, start);
      var t := start;
      ghost var done := [];
      while true
        invariant journal.acts == old(journal.acts) + done
        invariant whole.end == Loop(employee, world, t).end && whole.acts == done + Loop(employee, world, t).acts
        decreases employee.limits.maxSteps - t.steps
      {
        LoopStep(employee, world, t);
        var next := RunTurn(t);
        ghost var acts := Turn(employee, world, t).acts;
        assert old(journal.acts) + done + acts == old(journal.acts) + (done + acts);
        if next.Halt? {
          return next.end;
        }
        ghost var rest := Loop(employee, world, next.transcript).acts;
        assert done + (acts + rest) == (done + acts) + rest;
        t, done := next.transcript, done + acts;
      }
    }

    /** The body of the outer loop. */
    method RunTurn(t: Transcript) returns (next: Next)
      requires Valid()
      modifies journal
      ensures next == Turn(employee, world, t).next
      ensures journal.acts == old(journal.acts) + Turn(employee, world, t).acts
    {
      hide TakeReply, Withheld, Offered, NamesOf, BestAnswer;
      if world.cancelled(t) {
        return Halt(Finished(StepOutcome(t, BestAnswer(t.messages), None, true)));
      }
      var exceeded := ExceededBy(employee.limits, t.steps, t.cost, world.elapsed(t));
      if exceeded.Some? {
        return Halt(Finished(StepOutcome(t, BestAnswer(t.messages), exceeded, false)));
      }
      var barred := WithheldTools(t.observations);
      var offered := Offered(employee.granted, barred);
      var asked := Asked(t.cost, NamesOf(offered));
      journal.Record(asked);
      var reply := world.generate(t, offered);
      if reply.NoReply? {
        return Halt(Raised(reply.error));
      }
      next := FinishTurn(t, asked, reply);
      ReplyStartsWithAsked(employee, world, t, asked, reply);
    }

    /** The rest of the body: the reply is paid for, and its calls are made. */
    method FinishTurn(t: Transcript, ghost asked: Act, reply: Reply) returns (next: Next)
      requires Valid() && reply.Reply?
      modifies journal
      ensures next == TakeReply(employee, world, t, asked, reply).next
      ensures journal.acts == old(journal.acts) + TakeReply(employee, world, t, asked, reply).acts[1..]
    {
      hide RunCalls, BestAnswer;
      journal.Record(Paid(reply.cost));
      var said := AfterReply(t, reply).WithMessage(AssistantMessage(reply.content, reply.calls));
      if reply.calls == [] {
        journal.Record(Saved(said));
        assert TakeReply(employee, world, t, asked, reply).acts[1..] == [Paid(reply.cost), Saved(said)];
        return Halt(Finished(StepOutcome(said, reply.content, None, false)));
      }
      var after, end := RunBatch(said, reply.calls);
      ghost var acts := RunCalls(employee, world, said, reply.calls).acts;
      assert ([asked, Paid(reply.cost)] + acts)[1..] == [Paid(reply.cost)] + acts;
      match end {
        case Failed(error) =>
          return Halt(Raised(error));
        case Interrupted =>
          return Halt(Finished(StepOutcome(after, BestAnswer(after.messages), None, true)));
        case Done =>
          journal.Record(Saved(after));
          assert ([asked, Paid(reply.cost)] + acts + [Saved(after)])[1..] == [Paid(reply.cost)] + acts + [Saved(after)];
          return Continue(after);
      }
    }
  }
}
