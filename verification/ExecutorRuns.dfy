/**
 * What every run of the tool loop keeps: complete exchanges, licensed calls, budgets and withdrawn tools
 * (application/employee_runtime/executor.py).
 */
module ExecutorRuns {
  import opened Wrappers
  import opened Transcripts
  import opened Policies
  import opened Refusals
  import opened Worlds
  import opened Approvals
  import opened Executor

  // ----- Exchanges are complete -----

  /** The reply to one call and the observation beside it. */
  ghost predicate Matches(m: Message, o: Observation, call: ToolCall, step: int) {
    m == ToolMessage(o.summary, call.id) && o.details.tool == call.name && o.step == step
  }

  /** `t'` is `t` with the replies to the first `m` calls, and one observation for each. */
  ghost predicate Replied(t: Transcript, t': Transcript, calls: seq<ToolCall>, m: nat) {
    && m <= |calls| && t.messages <= t'.messages && t.observations <= t'.observations
    && |t'.messages| == |t.messages| + m && |t'.observations| == |t.observations| + m
    && forall k :: 0 <= k < m ==>
         Matches(t'.messages[|t.messages| + k], t'.observations[|t.observations| + k], calls[k], t.steps)
  }

  lemma OneReply(e: Employee, w: World, t: Transcript, call: ToolCall)
    requires Invoke(e, w, t, call).outcome.Invocation?
    ensures Replied(t, AfterCall(t, call, Invoke(e, w, t, call).outcome), [call], 1)
  {
    hide Invoke, Refusals.Refusals, Summary;
  }

  lemma RepliedThen(t: Transcript, t1: Transcript, t2: Transcript, calls: seq<ToolCall>, m: nat)
    requires calls != [] && Replied(t, t1, [calls[0]], 1) && Replied(t1, t2, calls[1..], m) && t1.steps == t.steps
    ensures Replied(t, t2, calls, m + 1)
  {
    var i, j := |t.messages|, |t.observations|;
    assert t2.messages[i] == t1.messages[i] && t2.observations[j] == t1.observations[j];
    assert Matches(t1.messages[i + 0], t1.observations[j + 0], [calls[0]][0], t.steps);
    forall k | 0 <= k < m + 1 ensures Matches(t2.messages[i + k], t2.observations[j + k], calls[k], t.steps) {
      if k > 0 {
        assert Matches(t2.messages[|t1.messages| + (k - 1)], t2.observations[|t1.observations| + (k - 1)],
                       calls[1..][k - 1], t1.steps);
      }
    }
  }

  /** A batch that is done has replied to every call; one that is not has stopped before some call. */
  lemma {:induction false} BatchReplies(e: Employee, w: World, t: Transcript, calls: seq<ToolCall>) returns (m: nat)
    ensures Replied(t, RunCalls(e, w, t, calls).transcript, calls, m)
    ensures RunCalls(e, w, t, calls).end.Done? <==> m == |calls|
    decreases |calls|
  {
    if calls == [] {
      NoCallsLeft(e, w, t);
      return 0;
    }
    BatchStops(e, w, t, calls);
    var one := Invoke(e, w, t, calls[0]);
    if w.cancelled(t) || one.outcome.InvocationFailed? {
      return 0;
    }
    BatchGoesOn(e, w, t, calls);
    OneReply(e, w, t, calls[0]);
    var t1 := AfterCall(t, calls[0], one.outcome);
    m := BatchReplies(e, w, t1, calls[1..]);
    RepliedThen(t, t1, RunCalls(e, w, t, calls).transcript, calls, m);
    m := m + 1;
  }

  /** The messages end with an assistant's calls of which only the first few are replied to. */
  ghost predicate CutShort(messages: seq<Message>) {
    exists done, first, replies ::
      && messages == done + ([first] + replies) && Complete(done) && first.role == Assistant
      && |replies| < |first.toolCalls| && Replies(replies, first.toolCalls[..|replies|])
  }

  lemma CutShortIsNotComplete(messages: seq<Message>)
    requires CutShort(messages)
    ensures !Complete(messages)
  {
    var done, first, replies :|
      && messages == done + ([first] + replies) && Complete(done) && first.role == Assistant
      && |replies| < |first.toolCalls| && Replies(replies, first.toolCalls[..|replies|]);
    CutShortIsIncomplete(done, first, replies);
  }

  /** Replies to the first `m` calls after a complete conversation and the message that asked for them. */
  lemma ExchangeAfter(before: seq<Message>, t: Transcript, t': Transcript, first: Message, m: nat)
    requires Complete(before) && first.role == Assistant && t.messages == before + [first]
    requires Replied(t, t', first.toolCalls, m)
    ensures m == |first.toolCalls| ==> Complete(t'.messages)
    ensures m < |first.toolCalls| ==> CutShort(t'.messages)
  {
    hide Complete, CutShort;
    var replies := t'.messages[|t.messages|..];
    assert t'.messages == before + ([first] + replies);
    forall k | 0 <= k < m ensures replies[k].role == Tool && replies[k].toolCallId == Some(first.toolCalls[k].id) {
      assert Matches(t'.messages[|t.messages| + k], t'.observations[|t.observations| + k], first.toolCalls[k], t.steps);
    }
    if m == |first.toolCalls| {
      ExchangeIsComplete(first, replies);
      CompleteAppend(before, [first] + replies);
    } else {
      assert first.toolCalls[..|replies|] == first.toolCalls[..m];
      CutShortIs(t'.messages, before, first, replies);
    }
  }

  lemma CutShortIs(messages: seq<Message>, done: seq<Message>, first: Message, replies: seq<Message>)
    requires messages == done + ([first] + replies) && Complete(done) && first.role == Assistant
    requires |replies| < |first.toolCalls| && Replies(replies, first.toolCalls[..|replies|])
    ensures CutShort(messages)
  {
  }

  ghost predicate SavesComplete(acts: seq<Act>) {
    forall k :: 0 <= k < |acts| && acts[k].Saved? ==> Complete(acts[k].transcript.messages)
  }

  /** A run ends with a complete conversation, unless it was cancelled between two calls of one reply. */
  ghost predicate EndsComplete(end: End) {
    end.Finished? ==>
      Complete(end.outcome.transcript.messages) || (end.outcome.cancelled && CutShort(end.outcome.transcript.messages))
  }

  lemma ReplyIsComplete(e: Employee, w: World, t: Transcript, asked: Act, reply: Reply)
    requires Complete(t.messages) && reply.Reply? && asked.Asked?
    ensures var turn := TakeReply(e, w, t, asked, reply);
            && SavesComplete(turn.acts)
            && (turn.next.Halt? ==> EndsComplete(turn.next.end))
            && (turn.next.Continue? ==> Complete(turn.next.transcript.messages))
  {
    hide RunCalls, CutShort, Complete, BestAnswer;
    var first := AssistantMessage(reply.content, reply.calls);
    var said := AfterReply(t, reply).WithMessage(first);
    if reply.calls == [] {
      PlainIsComplete(first);
      CompleteAppend(t.messages, [first]);
    } else {
      var batch := RunCalls(e, w, said, reply.calls);
      var m := BatchReplies(e, w, said, reply.calls);
      ExchangeAfter(t.messages, said, batch.transcript, first, m);
      BatchSavesNothing(e, w, said, reply.calls);
    }
  }

  lemma {:induction false} BatchSavesNothing(e: Employee, w: World, t: Transcript, calls: seq<ToolCall>)
    ensures forall k :: 0 <= k < |RunCalls(e, w, t, calls).acts| ==>
              !RunCalls(e, w, t, calls).acts[k].Saved? && !RunCalls(e, w, t, calls).acts[k].Asked?
              && !RunCalls(e, w, t, calls).acts[k].Paid?
    decreases |calls|
  {
    if calls == [] {
      NoCallsLeft(e, w, t);
    } else {
      BatchStops(e, w, t, calls);
      InvokeSavesNothing(e, w, t, calls[0]);
      if !w.cancelled(t) && Invoke(e, w, t, calls[0]).outcome.Invocation? {
        BatchGoesOn(e, w, t, calls);
        BatchSavesNothing(e, w, AfterCall(t, calls[0], Invoke(e, w, t, calls[0]).outcome), calls[1..]);
      }
    }
  }

  lemma InvokeSavesNothing(e: Employee, w: World, t: Transcript, call: ToolCall)
    ensures forall k :: 0 <= k < |Invoke(e, w, t, call).acts| ==>
              !Invoke(e, w, t, call).acts[k].Saved? && !Invoke(e, w, t, call).acts[k].Asked?
              && !Invoke(e, w, t, call).acts[k].Paid?
  {
    hide Evaluate;
  }

  lemma TurnIsComplete(e: Employee, w: World, t: Transcript)
    requires Complete(t.messages)
    ensures var turn := Turn(e, w, t);
            && SavesComplete(turn.acts)
            && (turn.next.Halt? ==> EndsComplete(turn.next.end))
            && (turn.next.Continue? ==> Complete(turn.next.transcript.messages))
  {
    hide TakeReply, Complete, CutShort, BestAnswer, OfferedIn;
    var offered := OfferedIn(e, t);
    var reply := w.generate(t, offered);
    if reply.Reply? {
      ReplyIsComplete(e, w, t, Asked(t.cost, NamesOf(offered)), reply);
    }
  }

  /** Every transcript handed to `on_step` is a complete exchange, and so is the one a run ends with unless it was
      cancelled in the middle of a batch; that one is cut short, so it was never handed over. */
  lemma {:induction false} ExchangesAreComplete(e: Employee, w: World, t: Transcript)
    requires Complete(t.messages)
    ensures SavesComplete(Loop(e, w, t).acts) && EndsComplete(Loop(e, w, t).end)
    decreases e.limits.maxSteps - t.steps
  {
    hide Turn, Complete, CutShort, Loop;
    LoopStep(e, w, t);
    TurnIsComplete(e, w, t);
    var turn := Turn(e, w, t);
    if turn.next.Continue? {
      ExchangesAreComplete(e, w, turn.next.transcript);
    }
  }

  // ----- One observation per reply -----

  function ToolContents(messages: seq<Message>): seq<string> {
    if messages == [] then []
    else
      var last := messages[|messages| - 1];
      ToolContents(messages[..|messages| - 1]) + if last.role == Tool then [last.content] else []
  }

  function Summaries(observations: seq<Observation>): seq<string> {
    seq(|observations|, k requires 0 <= k < |observations| => observations[k].summary)
  }

  /** The replies the model has read are the summaries of the observations, one for one and in order. */
  ghost predicate Paired(t: Transcript) {
    ToolContents(t.messages) == Summaries(t.observations)
  }

  lemma PairedAfterCall(t: Transcript, call: ToolCall, outcome: Invocation)
    requires Paired(t) && outcome.Invocation?
    ensures Paired(AfterCall(t, call, outcome))
  {
    hide Refusals.Refusals, Summary;
    var o := Observe(t, call, outcome);
    ToolContentsOneMore(t.messages, ToolMessage(o.summary, call.id));
    assert Summaries(t.observations + [o]) == Summaries(t.observations) + [o.summary];
  }

  lemma ToolContentsOneMore(messages: seq<Message>, m: Message)
    ensures ToolContents(messages + [m]) == ToolContents(messages) + if m.role == Tool then [m.content] else []
  {
    assert (messages + [m])[..|messages|] == messages;
  }

  lemma {:induction false} BatchKeepsPaired(e: Employee, w: World, t: Transcript, calls: seq<ToolCall>)
    requires Paired(t)
    ensures Paired(RunCalls(e, w, t, calls).transcript)
    decreases |calls|
  {
    hide Paired, AfterCall, Invoke, RunCalls;
    if calls == [] {
      NoCallsLeft(e, w, t);
    } else {
      BatchStops(e, w, t, calls);
      var one := Invoke(e, w, t, calls[0]);
      if !w.cancelled(t) && one.outcome.Invocation? {
        BatchGoesOn(e, w, t, calls);
        PairedAfterCall(t, calls[0], one.outcome);
        BatchKeepsPaired(e, w, AfterCall(t, calls[0], one.outcome), calls[1..]);
      }
    }
  }

  ghost predicate SavesPaired(acts: seq<Act>) {
    forall k :: 0 <= k < |acts| && acts[k].Saved? ==> Paired(acts[k].transcript)
  }

  lemma ReplyKeepsPaired(e: Employee, w: World, t: Transcript, asked: Act, reply: Reply)
    requires Paired(t) && reply.Reply? && asked.Asked?
    ensures var turn := TakeReply(e, w, t, asked, reply);
            SavesPaired(turn.acts) && (turn.next.Continue? ==> Paired(turn.next.transcript))
  {
    hide RunCalls, BestAnswer, ToolContents, Summaries;
    var first := AssistantMessage(reply.content, reply.calls);
    var said := AfterReply(t, reply).WithMessage(first);
    ToolContentsOneMore(t.messages, first);
    assert Paired(said);
    BatchKeepsPaired(e, w, said, reply.calls);
    BatchSavesNothing(e, w, said, reply.calls);
  }

  /** In every transcript handed to `on_step` there is one observation per reply. */
  lemma {:induction false} ObservationsMatchReplies(e: Employee, w: World, t: Transcript)
    requires Paired(t)
    ensures SavesPaired(Loop(e, w, t).acts)
    decreases e.limits.maxSteps - t.steps
  {
    hide Turn, Paired, Loop;
    LoopStep(e, w, t);
    TurnKeepsPaired(e, w, t);
    var turn := Turn(e, w, t);
    if turn.next.Continue? {
      ObservationsMatchReplies(e, w, turn.next.transcript);
    }
  }

  lemma TurnKeepsPaired(e: Employee, w: World, t: Transcript)
    requires Paired(t)
    ensures var turn := Turn(e, w, t);
            SavesPaired(turn.acts) && (turn.next.Continue? ==> Paired(turn.next.transcript))
  {
    hide TakeReply, Paired, BestAnswer, OfferedIn;
    var offered := OfferedIn(e, t);
    var reply := w.generate(t, offered);
    if reply.Reply? {
      ReplyKeepsPaired(e, w, t, Asked(t.cost, NamesOf(offered)), reply);
    }
  }

  // ----- Licensed calls -----

  lemma InvokeIsOrderly(e: Employee, w: World, t: Transcript, call: ToolCall)
    ensures Orderly(Invoke(e, w, t, call).acts)
  {
    hide Check, Orderly;
    var found := w.find(t, call.name);
    if found.Some? {
      GateIsOrderly(e, w, t, call, found.value);
    } else {
      assert Orderly([]) by { NothingIsOrderly(); }
    }
  }

  lemma NothingIsOrderly()
    ensures Orderly([])
  {
  }

  /** Acts that are neither calls nor statuses nor questions are orderly. */
  lemma PlainIsOrderly(acts: seq<Act>)
    requires forall k :: 0 <= k < |acts| ==> acts[k].Asked? || acts[k].Paid? || acts[k].Saved?
    ensures Orderly(acts)
  {
  }

  lemma {:induction false} BatchIsOrderly(e: Employee, w: World, t: Transcript, calls: seq<ToolCall>)
    ensures Orderly(RunCalls(e, w, t, calls).acts)
    decreases |calls|
  {
    hide Orderly, Invoke, AfterCall, RunCalls;
    NothingIsOrderly();
    if calls == [] {
      NoCallsLeft(e, w, t);
    } else {
      BatchStops(e, w, t, calls);
      InvokeIsOrderly(e, w, t, calls[0]);
      var one := Invoke(e, w, t, calls[0]);
      if !w.cancelled(t) && one.outcome.Invocation? {
        BatchGoesOn(e, w, t, calls);
        var t1 := AfterCall(t, calls[0], one.outcome);
        BatchIsOrderly(e, w, t1, calls[1..]);
        OrderlyAppend(one.acts, RunCalls(e, w, t1, calls[1..]).acts);
      }
    }
  }

  lemma TurnIsOrderly(e: Employee, w: World, t: Transcript)
    ensures Orderly(Turn(e, w, t).acts)
  {
    hide RunCalls, Orderly, BestAnswer, OfferedIn;
    var offered := OfferedIn(e, t);
    var asked := Asked(t.cost, NamesOf(offered));
    var reply := w.generate(t, offered);
    NothingIsOrderly();
    PlainIsOrderly([asked]);
    if reply.Reply? {
      var said := AfterReply(t, reply).WithMessage(AssistantMessage(reply.content, reply.calls));
      var batch := RunCalls(e, w, said, reply.calls);
      var head := [asked, Paid(reply.cost)];
      PlainIsOrderly(head);
      PlainIsOrderly(head + [Saved(said)]);
      BatchIsOrderly(e, w, said, reply.calls);
      OrderlyAppend(head, batch.acts);
      PlainIsOrderly([Saved(batch.transcript)]);
      OrderlyAppend(head + batch.acts, [Saved(batch.transcript)]);
    }
  }

  /** In every run a tool is entered only after an ALLOW or an approval, every question follows a decision to ask, and
      the status is back to RUNNING after each, even when the run ends with an exception. */
  lemma {:induction false} RunIsOrderly(e: Employee, w: World, t: Transcript)
    ensures Orderly(Loop(e, w, t).acts)
    decreases e.limits.maxSteps - t.steps
  {
    hide Turn, Orderly, Loop;
    LoopStep(e, w, t);
    TurnIsOrderly(e, w, t);
    var turn := Turn(e, w, t);
    if turn.next.Continue? {
      RunIsOrderly(e, w, turn.next.transcript);
      OrderlyAppend(turn.acts, Loop(e, w, turn.next.transcript).acts);
    }
  }

  // ----- Budgets -----

  /** What a run has cost so far: calls of the model begun, calls answered, and what they cost. */
  datatype Ledger = Ledger(begun: nat, answered: nat, spent: real) {
    function Plus(that: Ledger): Ledger {
      Ledger(begun + that.begun, answered + that.answered, spent + that.spent)
    }
  }

  function LedgerOf(acts: seq<Act>): Ledger {
    if acts == [] then Ledger(0, 0, 0.0) else LedgerOf(acts[..|acts| - 1]).Plus(Entry(acts[|acts| - 1]))
  }

  function Entry(act: Act): Ledger {
    match act
    case Asked(_, _) => Ledger(1, 0, 0.0)
    case Paid(cost) => Ledger(0, 1, cost)
    case _ => Ledger(0, 0, 0.0)
  }

  lemma LedgerOfOneMore(acts: seq<Act>, act: Act)
    ensures LedgerOf(acts + [act]) == LedgerOf(acts).Plus(Entry(act))
  {
    assert (acts + [act])[..|acts|] == acts;
  }

  lemma {:induction false} LedgerAppend(a: seq<Act>, b: seq<Act>)
    ensures LedgerOf(a + b) == LedgerOf(a).Plus(LedgerOf(b))
  {
    hide LedgerOf;
    if b == [] {
      LedgerAppendNothing(a);
    } else {
      var before, last := b[..|b| - 1], b[|b| - 1];
      LedgerAppend(a, before);
      LedgerAppendOne(a, before, last);
      assert b == before + [last];
    }
  }

  lemma LedgerAppendNothing(a: seq<Act>)
    ensures LedgerOf(a + []) == LedgerOf(a).Plus(LedgerOf([]))
  {
    assert a + [] == a;
  }

  lemma LedgerAppendOne(a: seq<Act>, before: seq<Act>, last: Act)
    requires LedgerOf(a + before) == LedgerOf(a).Plus(LedgerOf(before))
    ensures LedgerOf(a + (before + [last])) == LedgerOf(a).Plus(LedgerOf(before + [last]))
  {
    hide LedgerOf, Entry;
    assert a + (before + [last]) == a + before + [last];
    LedgerOfOneMore(a + before, last);
    LedgerOfOneMore(before, last);
  }

  lemma {:induction false} NoCallsNoCost(acts: seq<Act>)
    requires forall k :: 0 <= k < |acts| ==> !acts[k].Asked? && !acts[k].Paid?
    ensures LedgerOf(acts) == Ledger(0, 0, 0.0)
  {
    if acts == [] {
    } else {
      NoCallsNoCost(acts[..|acts| - 1]);
    }
  }

  /** Every call of the model is begun while less than the cap is spent. */
  ghost predicate AskedBelow(acts: seq<Act>, cap: real) {
    forall k :: 0 <= k < |acts| && acts[k].Asked? ==> acts[k].spent < cap
  }

  /** Nothing paid is more than `most`. */
  ghost predicate PaidAtMost(acts: seq<Act>, most: real) {
    forall k :: 0 <= k < |acts| && acts[k].Paid? ==> acts[k].cost <= most
  }

  /** What a turn does to the books. */
  lemma TurnLedger(e: Employee, w: World, t: Transcript)
    ensures var turn := Turn(e, w, t); var l := LedgerOf(turn.acts);
            && AskedBelow(turn.acts, e.limits.maxCost)
            && (turn.next.Continue? ==>
                  l == Ledger(1, 1, turn.next.transcript.cost - t.cost) && t.cost < e.limits.maxCost)
            && (turn.next.Halt? && turn.next.end.Finished? ==>
                  var o := turn.next.end.outcome.transcript;
                  && l.begun == l.answered <= 1 && (l.begun == 1 ==> t.cost < e.limits.maxCost)
                  && (l.begun == 0 ==> l.spent == 0.0)
                  && o.steps == t.steps + l.begun && o.cost == t.cost + l.spent)
            && (turn.next.Halt? && turn.next.end.Raised? ==> l.begun == 1)
            && (l.begun == 1 ==> t.steps < e.limits.maxSteps && t.cost < e.limits.maxCost)
            && l.answered <= l.begun <= 1 && (l.answered == 0 ==> l.spent == 0.0)
            && (forall most :: PaidAtMost(turn.acts, most) && l.answered == 1 ==> l.spent <= most)
  {
    hide RunCalls, BestAnswer, OfferedIn, LedgerOf;
    var offered := OfferedIn(e, t);
    var asked := Asked(t.cost, NamesOf(offered));
    var reply := w.generate(t, offered);
    ShortLedgers(asked, reply, [], []);
    if reply.Reply? {
      var said := AfterReply(t, reply).WithMessage(AssistantMessage(reply.content, reply.calls));
      var batch := RunCalls(e, w, said, reply.calls);
      BatchSavesNothing(e, w, said, reply.calls);
      ShortLedgers(asked, reply, [], [Saved(said)]);
      ShortLedgers(asked, reply, batch.acts, []);
      ShortLedgers(asked, reply, batch.acts, [Saved(batch.transcript)]);
      var head := [asked, Paid(reply.cost)];
      assert head + [] + [Saved(said)] == head + [Saved(said)] && head + batch.acts + [] == head + batch.acts;
      assert (head + [Saved(said)])[1] == (head + batch.acts)[1] == (head + batch.acts + [Saved(batch.transcript)])[1]
             == Paid(reply.cost);
    }
  }

  lemma ShortLedgers(asked: Act, reply: Reply, middle: seq<Act>, last: seq<Act>)
    requires asked.Asked? && forall k :: 0 <= k < |middle| ==> !middle[k].Asked? && !middle[k].Paid?
    requires forall k :: 0 <= k < |last| ==> last[k].Saved?
    ensures LedgerOf([]) == Ledger(0, 0, 0.0) && LedgerOf([asked]) == Ledger(1, 0, 0.0)
    ensures reply.Reply? ==>
              LedgerOf([asked, Paid(reply.cost)] + middle + last) == Ledger(1, 1, reply.cost)
  {
    hide LedgerOf;
    OneEntry(asked);
    if reply.Reply? {
      var paid := Paid(reply.cost);
      OneEntry(paid);
      assert [asked] + [paid] == [asked, paid];
      LedgerAppend([asked], [paid]);
      NoCallsNoCost(middle);
      NoCallsNoCost(last);
      LedgerAppend([asked, paid], middle);
      LedgerAppend([asked, paid] + middle, last);
    }
  }

  lemma OneEntry(act: Act)
    ensures LedgerOf([act]) == Entry(act) && LedgerOf([]) == Ledger(0, 0, 0.0)
  {
    assert [act][..0] == [];
  }

  /** A run begins at most as many calls as there are steps left, each while less than the cap is spent; if no single
      call costs more than `most`, it ends - by whatever end - below the cap plus `most`, unless it spent nothing; and
      when it ends without an exception its steps and its cost have grown by exactly the calls made and their price. */
  lemma {:induction false} RunKeepsItsBudget(e: Employee, w: World, t: Transcript, most: real)
    ensures var r := Loop(e, w, t); var l := LedgerOf(r.acts);
            && l.begun <= (if t.steps < e.limits.maxSteps then e.limits.maxSteps - t.steps else 0)
            && AskedBelow(r.acts, e.limits.maxCost)
            && (PaidAtMost(r.acts, most) ==> l.spent == 0.0 || t.cost + l.spent < e.limits.maxCost + most)
            && (r.end.Finished? ==>
                  var o := r.end.outcome.transcript;
                  l.answered == l.begun && o.steps == t.steps + l.begun && o.cost == t.cost + l.spent)
    decreases e.limits.maxSteps - t.steps
  {
    hide Turn, LedgerOf, Loop;
    LoopStep(e, w, t);
    TurnLedger(e, w, t);
    var turn := Turn(e, w, t);
    if turn.next.Continue? {
      var rest := Loop(e, w, turn.next.transcript);
      RunKeepsItsBudget(e, w, turn.next.transcript, most);
      LedgerAppend(turn.acts, rest.acts);
      if PaidAtMost(turn.acts + rest.acts, most) {
        assert PaidAtMost(turn.acts, most) by {
          assert forall k :: 0 <= k < |turn.acts| ==> (turn.acts + rest.acts)[k] == turn.acts[k];
        }
        assert PaidAtMost(rest.acts, most) by {
          assert forall k :: 0 <= k < |rest.acts| ==> (turn.acts + rest.acts)[|turn.acts| + k] == rest.acts[k];
        }
      }
    }
  }

  // ----- How a run ends -----

  /** The answer at hand: the last thing the employee said that was not empty, or nothing. */
  ghost predicate IsLastSaid(messages: seq<Message>, answer: string) {
    if answer == "" then
      forall k :: 0 <= k < |messages| && messages[k].role == Assistant ==> messages[k].content == ""
    else
      exists k :: 0 <= k < |messages| && messages[k].role == Assistant && messages[k].content == answer
                  && forall j :: k < j < |messages| && messages[j].role == Assistant ==> messages[j].content == ""
  }

  lemma {:induction false} BestAnswerIsLastSaid(messages: seq<Message>)
    ensures IsLastSaid(messages, BestAnswer(messages))
  {
    if messages == [] {
    } else {
      var n := |messages| - 1;
      var before, answer := messages[..n], BestAnswer(messages);
      BestAnswerIsLastSaid(before);
      if messages[n].content != "" && messages[n].role == Assistant {
        assert messages[n].content == answer;
      } else if answer != "" {
        var k :| 0 <= k < |before| && before[k].role == Assistant && before[k].content == answer
                 && forall j :: k < j < |before| && before[j].role == Assistant ==> before[j].content == "";
        assert messages[k].content == answer;
        forall j | k < j < |messages| && messages[j].role == Assistant ensures messages[j].content == "" {
          if j < n {
            assert before[j] == messages[j];
          }
        }
      } else {
        forall k | 0 <= k < |messages| && messages[k].role == Assistant ensures messages[k].content == "" {
          if k < n {
            assert before[k] == messages[k];
          }
        }
      }
    }
  }

  /** A run that finishes does so for one of three reasons: it was cancelled where it stands; a budget is used up there,
      the first of steps, cost and time, and nobody had cancelled; or the model answered without asking for a tool.
      Stopped short, it answers with the last thing the employee said. */
  ghost predicate Explained(e: Employee, w: World, o: StepOutcome) {
    var t := o.transcript;
    if o.cancelled then w.cancelled(t) && o.stoppedBy.None? && IsLastSaid(t.messages, o.answer)
    else if o.stoppedBy.Some? then
      && !w.cancelled(t) && IsLastSaid(t.messages, o.answer)
      && match o.stoppedBy.value
         case STEPS => t.steps >= e.limits.maxSteps
         case COST => t.steps < e.limits.maxSteps && t.cost >= e.limits.maxCost
         case WALL_TIME => t.steps < e.limits.maxSteps && t.cost < e.limits.maxCost && w.elapsed(t) >= e.limits.maxWallTime
    else t.messages != [] && t.messages[|t.messages| - 1] == AssistantMessage(o.answer, [])
  }

  lemma {:induction false} InterruptedIsCancelled(e: Employee, w: World, t: Transcript, calls: seq<ToolCall>)
    ensures RunCalls(e, w, t, calls).end.Interrupted? ==> w.cancelled(RunCalls(e, w, t, calls).transcript)
    decreases |calls|
  {
    hide RunCalls, Invoke, AfterCall;
    if calls == [] {
      NoCallsLeft(e, w, t);
    } else {
      BatchStops(e, w, t, calls);
      var one := Invoke(e, w, t, calls[0]);
      if !w.cancelled(t) && one.outcome.Invocation? {
        BatchGoesOn(e, w, t, calls);
        InterruptedIsCancelled(e, w, AfterCall(t, calls[0], one.outcome), calls[1..]);
      }
    }
  }

  lemma TurnIsExplained(e: Employee, w: World, t: Transcript)
    ensures var next := Turn(e, w, t).next;
            next.Halt? && next.end.Finished? ==> Explained(e, w, next.end.outcome)
  {
    hide RunCalls, BestAnswer, OfferedIn, IsLastSaid;
    BestAnswerIsLastSaid(t.messages);
    var reply := w.generate(t, OfferedIn(e, t));
    if reply.Reply? {
      var said := AfterReply(t, reply).WithMessage(AssistantMessage(reply.content, reply.calls));
      InterruptedIsCancelled(e, w, said, reply.calls);
      BestAnswerIsLastSaid(RunCalls(e, w, said, reply.calls).transcript.messages);
    }
  }

  lemma {:induction false} EndsAreExplained(e: Employee, w: World, t: Transcript)
    ensures Loop(e, w, t).end.Finished? ==> Explained(e, w, Loop(e, w, t).end.outcome)
    decreases e.limits.maxSteps - t.steps
  {
    hide Turn, Loop, Explained;
    LoopStep(e, w, t);
    TurnIsExplained(e, w, t);
    if Turn(e, w, t).next.Continue? {
      EndsAreExplained(e, w, Turn(e, w, t).next.transcript);
    }
  }
}
