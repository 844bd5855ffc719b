/**
 * What a run of the tool loop records of its calls (application/employee_runtime/executor.py): for every observation the
 * call that was made, whether its tool was entered, and what the tool gave back.
 */
module ExecutorResults {
  import opened Text
  import opened Transcripts
  import opened Refusals
  import opened Worlds
  import opened Approvals
  import opened Executor
  import opened ExecutorRuns
  import opened ExecutorRefusals

  /** A call of a run, with the transcript it was made on. */
  datatype Made = Made(before: Transcript, call: ToolCall)

  /** The call got to its tool. */
  ghost predicate Reached(e: Employee, w: World, m: Made) {
    var found := w.find(m.before, m.call.name);
    found.Some? && Check(e, w, m.before, m.call, found.value).outcome == Allowed
  }

  /** The observation is of this call: refused unless it got to its tool, succeeded exactly when the tool did, and holding
      what the tool gave back - its output, or its error - after the name of the tool. */
  ghost predicate Records(e: Employee, w: World, m: Made, o: Observation) {
    var reached, result := Reached(e, w, m), w.execute(m.before, m.call);
    && o.step == m.before.steps
    && o.details == Details(m.call.name, m.call.arguments, !reached)
    && (o.succeeded <==> reached && result.success)
    && (reached && result.success ==> Infix(result.output, o.summary))
    && (reached && !result.success ==> Infix(result.error, o.summary))
    && (if reached && result.success then m.call.name + " returned" else m.call.name + " failed: ") <= o.summary
  }

  /** The observations since `t` are of these calls, in order. */
  ghost predicate AllRecorded(e: Employee, w: World, t: Transcript, t': Transcript, made: seq<Made>) {
    && t.observations <= t'.observations && |t'.observations| == |t.observations| + |made|
    && forall i :: 0 <= i < |made| ==>
         && Records(e, w, made[i], t'.observations[|t.observations| + i])
         && made[i].before.observations == t'.observations[..|t.observations| + i]
  }

  lemma NothingRecorded(e: Employee, w: World, t: Transcript, t': Transcript)
    requires t'.observations == t.observations
    ensures AllRecorded(e, w, t, t', [])
  {
  }

  lemma RecordedThen(
      e: Employee, w: World, t: Transcript, a: seq<Made>, t1: Transcript, b: seq<Made>, t2: Transcript)
    requires AllRecorded(e, w, t, t1, a) && AllRecorded(e, w, t1, t2, b)
    ensures AllRecorded(e, w, t, t2, a + b)
  {
    hide Records;
    var n := |t.observations|;
    forall i | 0 <= i < |a + b|
      ensures Records(e, w, (a + b)[i], t2.observations[n + i])
              && (a + b)[i].before.observations == t2.observations[..n + i]
    {
      if i < |a| {
        assert t1.observations[n + i] == t2.observations[n + i];
        assert t1.observations[..n + i] == t2.observations[..n + i];
      } else {
        assert (a + b)[i] == b[i - |a|];
      }
    }
  }

  lemma SummaryHolds(call: ToolCall, result: ToolResult, notice: string)
    ensures result.success ==> Infix(result.output, Summary(call, result) + notice)
    ensures !result.success ==> Infix(result.error, Summary(call, result) + notice)
    ensures (if result.success then call.name + " returned" else call.name + " failed: ") <= Summary(call, result) + notice
  {
    var head := if !result.success then call.name + " failed: " else call.name + " returned: ";
    var told := if result.success then result.output else result.error;
    if result.success && result.output == "" {
      assert InfixAt("", Summary(call, result) + notice, 0);
    } else {
      assert InfixAt(told, head + told + notice, |head|);
    }
  }

  lemma ObserveRecords(e: Employee, w: World, t: Transcript, call: ToolCall)
    requires Invoke(e, w, t, call).outcome.Invocation?
    ensures Records(e, w, Made(t, call), Observe(t, call, Invoke(e, w, t, call).outcome))
  {
    hide Check, Summary, Infix, Refusals.Refusals;
    var outcome := Invoke(e, w, t, call).outcome;
    SummaryHolds(call, outcome.result, "");
    assert Summary(call, outcome.result) + "" == Summary(call, outcome.result);
  }

  lemma CallRecords(e: Employee, w: World, t: Transcript, call: ToolCall)
    requires Invoke(e, w, t, call).outcome.Invocation?
    ensures AllRecorded(e, w, t, AfterCall(t, call, Invoke(e, w, t, call).outcome), [Made(t, call)])
  {
    hide Invoke, Observe, Records;
    var o := Observe(t, call, Invoke(e, w, t, call).outcome);
    ObserveRecords(e, w, t, call);
    assert (t.observations + [o])[..|t.observations|] == t.observations;
  }

  lemma {:induction false} BatchRecords(e: Employee, w: World, t: Transcript, calls: seq<ToolCall>)
    returns (made: seq<Made>)
    ensures AllRecorded(e, w, t, RunCalls(e, w, t, calls).transcript, made)
    ensures |made| <= |calls| && forall i :: 0 <= i < |made| ==> made[i].call == calls[i]
    ensures RunCalls(e, w, t, calls).end.Done? ==> |made| == |calls|
    decreases |calls|
  {
    hide AllRecorded, Invoke, AfterCall, RunCalls;
    made := [];
    NothingRecorded(e, w, t, t);
    if calls == [] {
      NoCallsLeft(e, w, t);
    } else {
      BatchStops(e, w, t, calls);
      var one := Invoke(e, w, t, calls[0]);
      if !w.cancelled(t) && one.outcome.Invocation? {
        BatchGoesOn(e, w, t, calls);
        CallRecords(e, w, t, calls[0]);
        var t1 := AfterCall(t, calls[0], one.outcome);
        var rest := BatchRecords(e, w, t1, calls[1..]);
        RecordedThen(e, w, t, [Made(t, calls[0])], t1, rest, RunCalls(e, w, t, calls).transcript);
        made := [Made(t, calls[0])] + rest;
      }
    }
  }

  lemma TurnRecords(e: Employee, w: World, t: Transcript) returns (made: seq<Made>)
    ensures AllRecorded(e, w, t, Leaves(t, Turn(e, w, t).next), made)
    ensures made != [] ==>
              var reply := w.generate(t, OfferedIn(e, t));
              reply.Reply? && |made| <= |reply.calls| && forall i :: 0 <= i < |made| ==> made[i].call == reply.calls[i]
  {
    hide RunCalls, AllRecorded, BestAnswer, OfferedIn;
    var reply := w.generate(t, OfferedIn(e, t));
    made := [];
    NothingRecorded(e, w, t, t);
    if reply.Reply? {
      var said := AfterReply(t, reply).WithMessage(AssistantMessage(reply.content, reply.calls));
      NothingRecorded(e, w, t, said);
      var next := Turn(e, w, t).next;
      if reply.calls != [] && Leaves(t, next) == RunCalls(e, w, said, reply.calls).transcript {
        made := BatchRecords(e, w, said, reply.calls);
        RecordedThen(e, w, t, [], said, made, Leaves(t, next));
        assert [] + made == made;
      }
    }
  }

  /** Over a whole run, a call at a time: what the model and whoever judges the result are told of it is what happened. An
      observation says success exactly when the tool was entered and succeeded, is flagged exactly when it was not
      entered, and holds the tool's output or its error. */
  lemma {:induction false} ObservationsSayWhatHappened(e: Employee, w: World, t: Transcript) returns (made: seq<Made>)
    ensures Loop(e, w, t).end.Finished? ==> AllRecorded(e, w, t, Loop(e, w, t).end.outcome.transcript, made)
    decreases e.limits.maxSteps - t.steps
  {
    hide Turn, AllRecorded, Loop;
    LoopStep(e, w, t);
    made := TurnRecords(e, w, t);
    var turn := Turn(e, w, t);
    if turn.next.Continue? {
      var rest := ObservationsSayWhatHappened(e, w, turn.next.transcript);
      if Loop(e, w, t).end.Finished? {
        RecordedThen(e, w, t, made, turn.next.transcript, rest, Loop(e, w, t).end.outcome.transcript);
      }
      made := made + rest;
    }
  }

  /** The reply to a refused call says why, and says that the tool is gone exactly when this refusal withdraws it or an
      earlier one has: when its name is withheld from then on. */
  lemma WithdrawalsAreTold(e: Employee, w: World, t: Transcript, call: ToolCall)
    requires Invoke(e, w, t, call).outcome.Invocation? && Invoke(e, w, t, call).outcome.refused
    ensures var after := AfterCall(t, call, Invoke(e, w, t, call).outcome);
            var o := after.observations[|t.observations|];
            o.summary == call.name + " failed: " + Invoke(e, w, t, call).outcome.result.error
                         + if call.name in Withheld(after.observations) then " " + call.name + " is no longer available."
                           else ""
  {
    hide Check, Withheld, Refusals.Refusals, PlainName;
    var outcome := Invoke(e, w, t, call).outcome;
    var o := Observe(t, call, outcome);
    RefusedOnceMore(t.observations, o, call.name);
    WithheldIffRefusedTwice(t.observations + [o], call.name);
    assert Summary(call, outcome.result) + "" == Summary(call, outcome.result);
  }

  lemma RefusedOnceMore(observations: seq<Observation>, o: Observation, name: string)
    requires o.details.refused && o.details.tool == name
    ensures Refusals.Refusals(observations, name) + 1 >= REFUSAL_LIMIT <==>
            Refusals.Refusals(observations + [o], name) >= REFUSAL_LIMIT
  {
    hide Strip;
    assert (observations + [o])[..|observations|] == observations;
    if !PlainName(name) {
      if Refusals.Refusals(observations, name) > 0 {
        CountedNamesArePlain(observations, name);
      }
      if Refusals.Refusals(observations + [o], name) > 0 {
        CountedNamesArePlain(observations + [o], name);
      }
    }
  }

  // ----- What the model said -----

  /** What the employee said, in order. */
  function SaidBy(messages: seq<Message>): seq<Message> {
    if messages == [] then []
    else
      var last := messages[|messages| - 1];
      SaidBy(messages[..|messages| - 1]) + if last.role == Assistant then [last] else []
  }

  lemma SaidByOneMore(messages: seq<Message>, m: Message)
    ensures SaidBy(messages + [m]) == SaidBy(messages) + if m.role == Assistant then [m] else []
  {
    assert (messages + [m])[..|messages|] == messages;
  }

  /** The message is what the model replied when it was asked on this transcript: its words and its calls. */
  ghost predicate IsReplyOn(e: Employee, w: World, t: Transcript, m: Message) {
    var reply := w.generate(t, OfferedIn(e, t));
    reply.Reply? && m.content == reply.content && m.toolCalls == reply.calls
  }

  /** Since `t` the employee has said what the model replied on these transcripts, in order, and nothing else. */
  ghost predicate AllSaid(e: Employee, w: World, t: Transcript, t': Transcript, asked: seq<Transcript>) {
    var before, after := SaidBy(t.messages), SaidBy(t'.messages);
    && |after| == |before| + |asked| && before <= after
    && forall i :: 0 <= i < |asked| ==> IsReplyOn(e, w, asked[i], after[|before| + i])
  }

  lemma NothingSaid(e: Employee, w: World, t: Transcript, t': Transcript)
    requires SaidBy(t'.messages) == SaidBy(t.messages)
    ensures AllSaid(e, w, t, t', [])
  {
  }

  lemma SaidThen(
      e: Employee, w: World, t: Transcript, a: seq<Transcript>, t1: Transcript, b: seq<Transcript>, t2: Transcript)
    requires AllSaid(e, w, t, t1, a) && AllSaid(e, w, t1, t2, b)
    ensures AllSaid(e, w, t, t2, a + b)
  {
    hide SaidBy, IsReplyOn;
    var n, one, two := |SaidBy(t.messages)|, SaidBy(t1.messages), SaidBy(t2.messages);
    forall i | 0 <= i < |a + b| ensures IsReplyOn(e, w, (a + b)[i], two[n + i]) {
      if i < |a| {
        assert one[n + i] == two[n + i];
      } else {
        assert (a + b)[i] == b[i - |a|];
      }
    }
  }

  lemma {:induction false} BatchSaysNothing(e: Employee, w: World, t: Transcript, calls: seq<ToolCall>)
    ensures SaidBy(RunCalls(e, w, t, calls).transcript.messages) == SaidBy(t.messages)
    decreases |calls|
  {
    hide SaidBy, Invoke, RunCalls, Refusals.Refusals, Summary;
    if calls == [] {
      NoCallsLeft(e, w, t);
    } else {
      BatchStops(e, w, t, calls);
      var one := Invoke(e, w, t, calls[0]);
      if !w.cancelled(t) && one.outcome.Invocation? {
        BatchGoesOn(e, w, t, calls);
        BatchSaysNothing(e, w, AfterCall(t, calls[0], one.outcome), calls[1..]);
        SaidByOneMore(t.messages, ToolMessage(Observe(t, calls[0], one.outcome).summary, calls[0].id));
      }
    }
  }

  /** What a turn leaves, without how: the same transcript, or one reply with the answers to its calls. */
  lemma TurnLeaves(e: Employee, w: World, t: Transcript)
    ensures var turn, reply := Turn(e, w, t), w.generate(t, OfferedIn(e, t));
            Leaves(t, turn.next) != t ==>
              && turn.acts != [] && reply.Reply? && !(turn.next.Halt? && turn.next.end.Raised?)
              && var said := AfterReply(t, reply).WithMessage(AssistantMessage(reply.content, reply.calls));
                 Leaves(t, turn.next) == said || Leaves(t, turn.next) == RunCalls(e, w, said, reply.calls).transcript
  {
    hide RunCalls, BestAnswer, OfferedIn, NamesOf;
  }

  lemma TurnSays(e: Employee, w: World, t: Transcript) returns (asked: seq<Transcript>)
    ensures AllSaid(e, w, t, Leaves(t, Turn(e, w, t).next), asked) && |asked| <= 1
    ensures !(Turn(e, w, t).next.Halt? && Turn(e, w, t).next.end.Raised?) ==>
              |asked| == LedgerOf(Turn(e, w, t).acts).answered
  {
    hide Turn, SaidBy, RunCalls, OfferedIn, AllSaid, LedgerOf, IsReplyOn, Leaves;
    var reply, turn := w.generate(t, OfferedIn(e, t)), Turn(e, w, t);
    TurnLeaves(e, w, t);
    AnswersAreSteps(e, w, t);
    asked := [];
    NothingSaid(e, w, t, t);
    if Leaves(t, turn.next) != t {
      var m := AssistantMessage(reply.content, reply.calls);
      var said := AfterReply(t, reply).WithMessage(m);
      SaidByOneMore(t.messages, m);
      BatchSaysNothing(e, w, said, reply.calls);
      ReplyIsReply(e, w, t, m);
      OneReplySaid(e, w, t, Leaves(t, turn.next), m);
      asked := [t];
    }
  }

  /** A turn that raises nothing has one step more for every answer. */
  lemma AnswersAreSteps(e: Employee, w: World, t: Transcript)
    ensures var turn := Turn(e, w, t);
            !(turn.next.Halt? && turn.next.end.Raised?) ==>
              LedgerOf(turn.acts).answered == Leaves(t, turn.next).steps - t.steps
  {
    hide Turn, LedgerOf;
    TurnLedger(e, w, t);
    TurnSteps(e, w, t);
  }

  lemma TurnSteps(e: Employee, w: World, t: Transcript)
    ensures Turn(e, w, t).next.Continue? ==> Turn(e, w, t).next.transcript.steps == t.steps + 1
  {
    hide RunCalls, BestAnswer, OfferedIn, NamesOf;
  }

  lemma ReplyIsReply(e: Employee, w: World, t: Transcript, m: Message)
    requires var reply := w.generate(t, OfferedIn(e, t)); reply.Reply? && m == AssistantMessage(reply.content, reply.calls)
    ensures IsReplyOn(e, w, t, m)
  {
  }

  lemma OneReplySaid(e: Employee, w: World, t: Transcript, t': Transcript, m: Message)
    requires SaidBy(t'.messages) == SaidBy(t.messages) + [m] && IsReplyOn(e, w, t, m)
    ensures AllSaid(e, w, t, t', [t])
  {
  }

  /** Over a whole run: the employee says exactly what the model replied, its words and its calls, once for every reply
      that was paid for. */
  lemma {:induction false} EmployeesSayTheReplies(e: Employee, w: World, t: Transcript) returns (asked: seq<Transcript>)
    ensures Loop(e, w, t).end.Finished? ==>
              && AllSaid(e, w, t, Loop(e, w, t).end.outcome.transcript, asked)
              && |asked| == LedgerOf(Loop(e, w, t).acts).answered
    decreases e.limits.maxSteps - t.steps
  {
    hide Turn, AllSaid, Loop, LedgerOf;
    LoopStep(e, w, t);
    asked := TurnSays(e, w, t);
    var turn := Turn(e, w, t);
    if turn.next.Continue? {
      var rest := EmployeesSayTheReplies(e, w, turn.next.transcript);
      LedgerAppend(turn.acts, Loop(e, w, turn.next.transcript).acts);
      if Loop(e, w, t).end.Finished? {
        SaidThen(e, w, t, asked, turn.next.transcript, rest, Loop(e, w, t).end.outcome.transcript);
      }
      asked := asked + rest;
    }
  }
}
