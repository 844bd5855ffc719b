/**
 * Refused tools over a whole run (application/employee_runtime/executor.py, domain/tools/refusals.py): what counts as
 * refused, what is offered after it, and how many steps one refused tool can cost.
 */
module ExecutorRefusals {
  import opened Wrappers
  import opened Text
  import opened Transcripts
  import opened Policies
  import opened Refusals
  import opened Worlds
  import opened Approvals
  import opened Executor
  import opened ExecutorRuns

  /** The registry finds a tool under its own name. */
  ghost predicate Registry(w: World) {
    forall t, name :: w.find(t, name).Some? ==> w.find(t, name).value.name == name
  }

  // ----- Refused means not executed -----

  function ExecutedTools(acts: seq<Act>): seq<string> {
    if acts == [] then []
    else ExecutedTools(acts[..|acts| - 1]) +
         (var last := acts[|acts| - 1]; if last.Executed? then [last.tool] else [])
  }

  /** The tools of the observations that are not flagged as refused. */
  function ReachedTools(observations: seq<Observation>): seq<string> {
    if observations == [] then []
    else ReachedTools(observations[..|observations| - 1]) +
         (var last := observations[|observations| - 1]; if last.details.refused then [] else [last.details.tool])
  }

  lemma {:induction false} ExecutedAppend(a: seq<Act>, b: seq<Act>)
    ensures ExecutedTools(a + b) == ExecutedTools(a) + ExecutedTools(b)
  {
    if b == [] {
      assert a + b == a;
    } else {
      var n := |b| - 1;
      ExecutedAppend(a, b[..n]);
      assert (a + b)[..|a + b| - 1] == a + b[..n] && (a + b)[|a + b| - 1] == b[n];
    }
  }

  lemma {:induction false} NothingExecuted(acts: seq<Act>)
    requires forall k :: 0 <= k < |acts| ==> !acts[k].Executed?
    ensures ExecutedTools(acts) == []
  {
    if acts == [] {
    } else {
      NothingExecuted(acts[..|acts| - 1]);
    }
  }

  lemma CheckExecutesNothing(e: Employee, w: World, t: Transcript, call: ToolCall, spec: ToolSpec)
    ensures ExecutedTools(Check(e, w, t, call, spec).acts) == []
  {
    hide Evaluate, ExecutedTools;
    NothingExecuted(Check(e, w, t, call, spec).acts);
  }

  /** A call is flagged as refused exactly when the tool was not entered. */
  lemma RefusedIffNotExecuted(e: Employee, w: World, t: Transcript, call: ToolCall)
    requires Registry(w) && Invoke(e, w, t, call).outcome.Invocation?
    ensures ExecutedTools(Invoke(e, w, t, call).acts) ==
            if Invoke(e, w, t, call).outcome.refused then [] else [call.name]
  {
    hide Check;
    var found := w.find(t, call.name);
    if found.Some? {
      var gate := Check(e, w, t, call, found.value);
      CheckExecutesNothing(e, w, t, call, found.value);
      ExecutedAppend(gate.acts, [Executed(found.value.name)]);
      assert [Executed(found.value.name)][..0] == [];
    }
  }

  /** The observations grow by exactly the calls made, each flagged refused unless its tool was executed. */
  ghost predicate Accounts(t: Transcript, acts: seq<Act>, t': Transcript) {
    t.observations <= t'.observations
    && ReachedTools(t'.observations) == ReachedTools(t.observations) + ExecutedTools(acts)
  }

  lemma AccountsThen(t: Transcript, a: seq<Act>, t1: Transcript, b: seq<Act>, t2: Transcript)
    requires Accounts(t, a, t1) && Accounts(t1, b, t2)
    ensures Accounts(t, a + b, t2)
  {
    ExecutedAppend(a, b);
    var r := ReachedTools(t.observations);
    assert (r + ExecutedTools(a)) + ExecutedTools(b) == r + (ExecutedTools(a) + ExecutedTools(b));
  }

  lemma CallAccounts(e: Employee, w: World, t: Transcript, call: ToolCall)
    requires Registry(w) && Invoke(e, w, t, call).outcome.Invocation?
    ensures Accounts(t, Invoke(e, w, t, call).acts, AfterCall(t, call, Invoke(e, w, t, call).outcome))
  {
    hide Invoke, Refusals.Refusals, Summary, ExecutedTools;
    RefusedIffNotExecuted(e, w, t, call);
    var o := Observe(t, call, Invoke(e, w, t, call).outcome);
    assert (t.observations + [o])[..|t.observations|] == t.observations;
  }

  lemma QuietAccounts(t: Transcript, acts: seq<Act>)
    requires forall k :: 0 <= k < |acts| ==> !acts[k].Executed?
    ensures Accounts(t, acts, t)
  {
    hide ReachedTools, ExecutedTools;
    NothingExecuted(acts);
    assert ReachedTools(t.observations) + [] == ReachedTools(t.observations);
  }

  lemma {:induction false} BatchAccounts(e: Employee, w: World, t: Transcript, calls: seq<ToolCall>)
    requires Registry(w)
    ensures var b := RunCalls(e, w, t, calls);
            t.observations <= b.transcript.observations
            && (!b.end.Failed? ==> Accounts(t, b.acts, b.transcript))
    decreases |calls|
  {
    hide Accounts, Invoke, AfterCall, RunCalls, Registry;
    var m := BatchReplies(e, w, t, calls);
    QuietAccounts(t, []);
    if calls == [] {
      NoCallsLeft(e, w, t);
    } else {
      BatchStops(e, w, t, calls);
      var one := Invoke(e, w, t, calls[0]);
      if !w.cancelled(t) && one.outcome.Invocation? {
        BatchGoesOn(e, w, t, calls);
        var t1 := AfterCall(t, calls[0], one.outcome);
        CallAccounts(e, w, t, calls[0]);
        BatchAccounts(e, w, t1, calls[1..]);
        if !RunCalls(e, w, t1, calls[1..]).end.Failed? {
          AccountsThen(t, one.acts, t1, RunCalls(e, w, t1, calls[1..]).acts, RunCalls(e, w, t, calls).transcript);
        }
      }
    }
  }

  /** The transcript a turn leaves behind; a turn that raises leaves none, so the one before stays. */
  function Leaves(t: Transcript, next: Next): Transcript {
    match next
    case Continue(t') => t'
    case Halt(Finished(o)) => o.transcript
    case Halt(Raised(_)) => t
  }

  lemma TurnAccounts(e: Employee, w: World, t: Transcript)
    requires Registry(w)
    ensures var turn := Turn(e, w, t);
            t.observations <= Leaves(t, turn.next).observations
            && ((turn.next.Halt? && turn.next.end.Raised?) || Accounts(t, turn.acts, Leaves(t, turn.next)))
  {
    hide RunCalls, Accounts, BestAnswer, OfferedIn, Registry;
    var offered := OfferedIn(e, t);
    var asked := Asked(t.cost, NamesOf(offered));
    var reply := w.generate(t, offered);
    QuietAccounts(t, []);
    if reply.Reply? {
      var said := AfterReply(t, reply).WithMessage(AssistantMessage(reply.content, reply.calls));
      var head := [asked, Paid(reply.cost)];
      SameObservations(t, head + [Saved(said)], said);
      SameObservations(t, head, said);
      var batch := RunCalls(e, w, said, reply.calls);
      BatchAccounts(e, w, said, reply.calls);
      if reply.calls != [] && !batch.end.Failed? {
        AccountsThen(t, head, said, batch.acts, batch.transcript);
        QuietAccounts(batch.transcript, [Saved(batch.transcript)]);
        AccountsThen(t, head + batch.acts, batch.transcript, [Saved(batch.transcript)], batch.transcript);
      }
    }
  }

  lemma SameObservations(t: Transcript, acts: seq<Act>, t': Transcript)
    requires t'.observations == t.observations && forall k :: 0 <= k < |acts| ==> !acts[k].Executed?
    ensures Accounts(t, acts, t')
  {
    hide ReachedTools, ExecutedTools;
    QuietAccounts(t, acts);
  }

  /** Over a whole run: the tools of the observations not flagged as refused are, in order, exactly the tools that were
      executed. */
  lemma {:induction false} ObservationsAccountForTools(e: Employee, w: World, t: Transcript)
    requires Registry(w)
    ensures Loop(e, w, t).end.Finished? ==> Accounts(t, Loop(e, w, t).acts, Loop(e, w, t).end.outcome.transcript)
    decreases e.limits.maxSteps - t.steps
  {
    hide Turn, Accounts, Loop, Registry;
    LoopStep(e, w, t);
    TurnAccounts(e, w, t);
    var turn := Turn(e, w, t);
    if turn.next.Continue? {
      ObservationsAccountForTools(e, w, turn.next.transcript);
      if Loop(e, w, t).end.Finished? {
        AccountsThen(t, turn.acts, turn.next.transcript, Loop(e, w, turn.next.transcript).acts,
                     Loop(e, w, t).end.outcome.transcript);
      }
    }
  }

  // ----- Refused means failed -----

  /** No observation is of a refused call that succeeded. */
  ghost predicate RefusalsFail(observations: seq<Observation>) {
    forall k :: 0 <= k < |observations| && observations[k].details.refused ==> !observations[k].succeeded
  }

  lemma RefusedCallFails(e: Employee, w: World, t: Transcript, call: ToolCall)
    requires Invoke(e, w, t, call).outcome.Invocation? && RefusalsFail(t.observations)
    ensures RefusalsFail(AfterCall(t, call, Invoke(e, w, t, call).outcome).observations)
  {
    hide Check, Refusals.Refusals, Summary;
  }

  lemma {:induction false} BatchRefusalsFail(e: Employee, w: World, t: Transcript, calls: seq<ToolCall>)
    requires RefusalsFail(t.observations)
    ensures RefusalsFail(RunCalls(e, w, t, calls).transcript.observations)
    decreases |calls|
  {
    hide RefusalsFail, AfterCall, Invoke, RunCalls;
    if calls == [] {
      NoCallsLeft(e, w, t);
    } else {
      BatchStops(e, w, t, calls);
      var one := Invoke(e, w, t, calls[0]);
      if !w.cancelled(t) && one.outcome.Invocation? {
        BatchGoesOn(e, w, t, calls);
        RefusedCallFails(e, w, t, calls[0]);
        BatchRefusalsFail(e, w, AfterCall(t, calls[0], one.outcome), calls[1..]);
      }
    }
  }

  lemma TurnRefusalsFail(e: Employee, w: World, t: Transcript)
    requires RefusalsFail(t.observations)
    ensures RefusalsFail(Leaves(t, Turn(e, w, t).next).observations)
  {
    hide RunCalls, RefusalsFail, BestAnswer, OfferedIn;
    var reply := w.generate(t, OfferedIn(e, t));
    if reply.Reply? {
      var said := AfterReply(t, reply).WithMessage(AssistantMessage(reply.content, reply.calls));
      BatchRefusalsFail(e, w, said, reply.calls);
    }
  }

  /** A refused call is recorded as one that failed, throughout every run: so a task whose calls were all refused has
      nothing that succeeded to show for it. */
  lemma {:induction false} RefusedCallsFail(e: Employee, w: World, t: Transcript)
    requires RefusalsFail(t.observations)
    ensures Loop(e, w, t).end.Finished? ==> RefusalsFail(Loop(e, w, t).end.outcome.transcript.observations)
    decreases e.limits.maxSteps - t.steps
  {
    hide Turn, RefusalsFail, Loop;
    LoopStep(e, w, t);
    TurnRefusalsFail(e, w, t);
    if Turn(e, w, t).next.Continue? {
      RefusedCallsFail(e, w, Turn(e, w, t).next.transcript);
    }
  }

  // ----- Withdrawn tools are not offered -----

  ghost predicate OffersNone(acts: seq<Act>, barred: set<string>) {
    forall k, name :: 0 <= k < |acts| && acts[k].Asked? && name in acts[k].offered ==> name !in barred
  }

  lemma {:induction false} OfferedAvoids(granted: seq<ToolSpec>, barred: set<string>)
    ensures forall spec :: spec in Offered(granted, barred) <==> spec in granted && spec.name !in barred
  {
    if granted == [] {
    } else {
      OfferedAvoids(granted[1..], barred);
      assert granted == [granted[0]] + granted[1..];
    }
  }

  lemma OfferedFirst(spec: ToolSpec, rest: seq<ToolSpec>, barred: set<string>)
    ensures Offered([spec] + rest, barred) == (if spec.name in barred then [] else [spec]) + Offered(rest, barred)
    ensures Offered([], barred) == []
  {
    assert ([spec] + rest)[1..] == rest;
  }

  /** Withholding takes single tools out of the list and leaves the others in order. */
  lemma {:induction false} OfferedInOrder(a: seq<ToolSpec>, b: seq<ToolSpec>, barred: set<string>)
    ensures Offered(a + b, barred) == Offered(a, barred) + Offered(b, barred)
    ensures |a| == 1 ==> Offered(a, barred) == if a[0].name in barred then [] else a
  {
    hide Offered;
    if a == [] {
      OfferedNothing(barred);
      assert a + b == b && [] + Offered(b, barred) == Offered(b, barred);
    } else {
      var first := if a[0].name in barred then [] else [a[0]];
      OfferedInOrder(a[1..], b, barred);
      OfferedFirst(a[0], a[1..] + b, barred);
      OfferedFirst(a[0], a[1..], barred);
      assert a + b == [a[0]] + (a[1..] + b) && a == [a[0]] + a[1..];
      Regroup(first, Offered(a[1..], barred), Offered(b, barred));
      if |a| == 1 {
        assert a[1..] == [] && first + [] == first;
      }
    }
  }

  lemma OfferedNothing(barred: set<string>)
    ensures Offered([], barred) == []
  {
  }

  lemma TurnOffersNoneWithheld(e: Employee, w: World, t: Transcript)
    ensures OffersNone(Turn(e, w, t).acts, Withheld(t.observations))
  {
    hide RunCalls, BestAnswer, Withheld;
    OfferedAvoids(e.granted, Withheld(t.observations));
    var offered := OfferedIn(e, t);
    assert forall k :: 0 <= k < |offered| ==> offered[k] in offered;
    var reply := w.generate(t, offered);
    if reply.Reply? {
      var said := AfterReply(t, reply).WithMessage(AssistantMessage(reply.content, reply.calls));
      BatchSavesNothing(e, w, said, reply.calls);
    }
  }

  /** What is withheld at any point of a run is not offered again in the rest of it. */
  lemma {:induction false} WithheldStaysWithheld(e: Employee, w: World, t: Transcript)
    requires Registry(w)
    ensures OffersNone(Loop(e, w, t).acts, Withheld(t.observations))
    decreases e.limits.maxSteps - t.steps
  {
    hide Turn, Loop, Withheld, Registry;
    LoopStep(e, w, t);
    TurnOffersNoneWithheld(e, w, t);
    var turn := Turn(e, w, t);
    if turn.next.Continue? {
      var t' := turn.next.transcript;
      WithheldStaysWithheld(e, w, t');
      TurnAccounts(e, w, t);
      assert t'.observations == t.observations + t'.observations[|t.observations|..];
      WithheldOnlyGrows(t.observations, t'.observations[|t.observations|..]);
    }
  }

  // ----- Steps wasted on a refused tool -----

  /** How often a call to the tool by exactly this name was refused. */
  function RefusedCalls(observations: seq<Observation>, name: string): nat {
    if observations == [] then 0
    else
      var last := observations[|observations| - 1];
      RefusedCalls(observations[..|observations| - 1], name) +
      if last.details.refused && last.details.tool == name then 1 else 0
  }

  /** A name as it is counted: not empty, and without whitespace around it. */
  predicate PlainName(name: string) {
    name != "" && Strip(name) == name
  }

  lemma {:induction false} RefusedCallsAppend(a: seq<Observation>, b: seq<Observation>, name: string)
    ensures RefusedCalls(a + b, name) == RefusedCalls(a, name) + RefusedCalls(b, name)
  {
    if b == [] {
      assert a + b == a;
    } else {
      var n := |b| - 1;
      RefusedCallsAppend(a, b[..n], name);
      assert (a + b)[..|a + b| - 1] == a + b[..n] && (a + b)[|a + b| - 1] == b[n];
    }
  }

  lemma {:induction false} RefusedCallsAreCounted(observations: seq<Observation>, name: string)
    requires PlainName(name)
    ensures RefusedCalls(observations, name) <= Refusals.Refusals(observations, name)
  {
    hide Strip;
    if observations == [] {
    } else {
      RefusedCallsAreCounted(observations[..|observations| - 1], name);
    }
  }

  /** Some tool of the list has this name. */
  predicate Lists(specs: seq<ToolSpec>, name: string) {
    exists spec :: spec in specs && spec.name == name
  }

  /** A tool is offered exactly when it is granted and not withheld. */
  lemma OfferedIffGranted(e: Employee, t: Transcript, name: string)
    ensures Lists(OfferedIn(e, t), name) <==> Lists(e.granted, name) && name !in Withheld(t.observations)
  {
    hide Withheld;
    OfferedAvoids(e.granted, Withheld(t.observations));
  }

  /** The turn offers the tool and a call to it is refused. */
  ghost predicate Wastes(e: Employee, w: World, t: Transcript, name: string) {
    Lists(OfferedIn(e, t), name)
    && RefusedCalls(Leaves(t, Turn(e, w, t).next).observations, name) > RefusedCalls(t.observations, name)
  }

  ghost function WastedTurns(e: Employee, w: World, t: Transcript, name: string): nat
    decreases e.limits.maxSteps - t.steps
  {
    (if Wastes(e, w, t, name) then 1 else 0) +
    match Turn(e, w, t).next
    case Halt(_) => 0
    case Continue(t') => WastedTurns(e, w, t', name)
  }

  lemma TurnWastes(e: Employee, w: World, t: Transcript, name: string)
    requires Registry(w) && PlainName(name)
    ensures var after := Leaves(t, Turn(e, w, t).next).observations;
            && Refusals.Refusals(t.observations, name) <= Refusals.Refusals(after, name)
            && (Wastes(e, w, t, name) ==>
                  Refusals.Refusals(t.observations, name) < REFUSAL_LIMIT
                  && Refusals.Refusals(t.observations, name) < Refusals.Refusals(after, name))
  {
    hide Turn, PlainName, Withheld, Registry, OfferedIn, Lists;
    TurnAccounts(e, w, t);
    OfferedIffGranted(e, t, name);
    var before, after := t.observations, Leaves(t, Turn(e, w, t).next).observations;
    var more := after[|before|..];
    assert after == before + more;
    RefusalsAppend(before, more, name);
    RefusedCallsAppend(before, more, name);
    RefusedCallsAreCounted(more, name);
    WithheldIffRefusedTwice(before, name);
  }

  /** At most two steps both offer a tool and record its refusal, counting the refusals a resumed run starts with. */
  lemma {:induction false} RefusalsAreBounded(e: Employee, w: World, t: Transcript, name: string)
    requires Registry(w) && PlainName(name)
    ensures var before := Refusals.Refusals(t.observations, name);
            WastedTurns(e, w, t, name) <= if before < REFUSAL_LIMIT then REFUSAL_LIMIT - before else 0
    decreases e.limits.maxSteps - t.steps
  {
    hide Wastes, Registry, PlainName, Refusals.Refusals;
    TurnWastes(e, w, t, name);
    var next := Turn(e, w, t).next;
    if next.Continue? {
      RefusalsAreBounded(e, w, next.transcript, name);
    }
  }

  /** Withdrawal works for plain names only: a tool whose name has whitespace around it, or none at all, is counted
      under another name or not at all and is offered for ever. */
  lemma {:induction false} OnlyPlainNamesAreWithheld(observations: seq<Observation>, name: string)
    ensures name in Withheld(observations) ==> PlainName(name)
    ensures PlainName(name) && RefusedCalls(observations, name) >= REFUSAL_LIMIT ==> name in Withheld(observations)
  {
    hide Strip;
    WithheldIffRefusedTwice(observations, name);
    if Refusals.Refusals(observations, name) > 0 {
      CountedNamesArePlain(observations, name);
    }
    if PlainName(name) {
      RefusedCallsAreCounted(observations, name);
    }
  }

  lemma {:induction false} CountedNamesArePlain(observations: seq<Observation>, name: string)
    requires Refusals.Refusals(observations, name) > 0
    ensures PlainName(name)
  {
    hide Strip;
    var last := observations[|observations| - 1];
    if RefusedName(last) == Some(name) {
      StripTwice(last.details.tool);
    } else {
      CountedNamesArePlain(observations[..|observations| - 1], name);
    }
  }

  // ----- Refusals under another spelling -----

  /** Every refusal counted under this name was of a call to exactly this name. */
  predicate RefusedAsSpelled(observations: seq<Observation>, name: string) {
    forall k :: 0 <= k < |observations| && RefusedName(observations[k]) == Some(name) ==>
      observations[k].details.tool == name
  }

  /** A plain name is counted for its own refusals if and only if nothing was refused that is the same name with
      whitespace around it; then it is withheld exactly when calls to it were refused twice. */
  lemma {:induction false} CountedAsSpelledIff(observations: seq<Observation>, name: string)
    requires PlainName(name)
    ensures RefusedCalls(observations, name) == Refusals.Refusals(observations, name) <==>
            RefusedAsSpelled(observations, name)
    ensures RefusedAsSpelled(observations, name) ==>
              (name in Withheld(observations) <==> RefusedCalls(observations, name) >= REFUSAL_LIMIT)
  {
    hide Strip, Withheld;
    WithheldIffRefusedTwice(observations, name);
    if observations == [] {
    } else {
      var n := |observations| - 1;
      CountedAsSpelledIff(observations[..n], name);
      RefusedCallsAreCounted(observations[..n], name);
      SpelledSoFar(observations, name);
    }
  }

  lemma SpelledSoFar(observations: seq<Observation>, name: string)
    requires observations != []
    ensures var n := |observations| - 1;
            RefusedAsSpelled(observations, name) <==>
            RefusedAsSpelled(observations[..n], name)
            && (RefusedName(observations[n]) == Some(name) ==> observations[n].details.tool == name)
  {
    hide RefusedName;
    var n := |observations| - 1;
    assert forall k :: 0 <= k < n ==> observations[..n][k] == observations[k];
  }

  /** A tool nobody was ever refused can be withdrawn: two refused calls to its name with a space before it are enough. */
  lemma ATwinIsWithdrawn()
    ensures var o := Observation(0, "", false, Details(" web", map[], true));
            && "web" in Withheld([o, o]) && RefusedCalls([o, o], "web") == 0
            && !RefusedAsSpelled([o, o], "web") && PlainName("web")
  {
    var o := Observation(0, "", false, Details(" web", map[], true));
    SpacedWeb();
    assert RefusedName(o) == Some("web");
    assert [o, o][..1] == [o] && [o][..0] == [];
    assert Refusals.Refusals([o], "web") == 1 && Refusals.Refusals([o, o], "web") == 2;
    WithheldIffRefusedTwice([o, o], "web");
    assert RefusedCalls([o], "web") == 0;
    assert RefusedName([o, o][0]) == Some("web") && [o, o][0].details.tool != "web";
  }

  lemma SpacedWeb()
    ensures Strip(" web") == "web" && Strip("web") == "web"
  {
    var lead := StripSplits(" web");
    assert Strip(" web") == " web"[lead..lead + |Strip(" web")|];
    var lead' := StripSplits("web");
  }

  lemma StripTwice(s: string)
    ensures Strip(Strip(s)) == Strip(s)
  {
    var lead := StripSplits(s);
    var t := Strip(s);
    var lead' := StripSplits(t);
    hide Strip;
    if t != "" {
      assert lead' == 0 && lead' + |Strip(t)| == |t|;
      assert Strip(t) == t[0..|t|];
    }
  }

  // ----- Which names waste every step -----

  /** A tool that is gone from the registry, and a model that calls it at every step and costs nothing. */
  function Gone(name: string): World {
    World(t => false, t => 0.0, (t, offered) => Reply("", [ToolCall("1", name, map[])], 0.0), (t, wanted) => None,
          (t, call) => NoJudgement, (t, call) => Answered(REJECTED), (t, call) => ToolResult(false, "", ""))
  }

  lemma GoneToolIsRefused(e: Employee, t: Transcript, name: string)
    requires t.steps < e.limits.maxSteps && t.cost < e.limits.maxCost && 0.0 < e.limits.maxWallTime
    ensures var next := Turn(e, Gone(name), t).next;
            && next.Continue? && next.transcript.cost == t.cost
            && RefusedCalls(next.transcript.observations, name) == RefusedCalls(t.observations, name) + 1
  {
    hide OfferedIn, NamesOf, BestAnswer, Summary, Refusals.Refusals;
    var w, call := Gone(name), ToolCall("1", name, map[]);
    var said := AfterReply(t, Reply("", [call], 0.0)).WithMessage(AssistantMessage("", [call]));
    var one := Invoke(e, w, said, call);
    BatchGoesOn(e, w, said, [call]);
    assert [call][1..] == [];
    NoCallsLeft(e, w, AfterCall(said, call, one.outcome));
    var o := Observe(said, call, one.outcome);
    assert (t.observations + [o])[..|t.observations|] == t.observations;
  }

  /** A granted tool whose name is not plain can waste every step there is: offered at each of them, and refused. */
  lemma {:induction false} OtherNamesWasteEveryStep(e: Employee, t: Transcript, name: string)
    requires !PlainName(name) && Lists(e.granted, name)
    requires t.cost < e.limits.maxCost && 0.0 < e.limits.maxWallTime
    ensures WastedTurns(e, Gone(name), t, name) ==
            if t.steps < e.limits.maxSteps then e.limits.maxSteps - t.steps else 0
    decreases e.limits.maxSteps - t.steps
  {
    hide Turn, PlainName, Gone, Withheld, RefusedCalls, OfferedIn, Lists;
    OnlyPlainNamesAreWithheld(t.observations, name);
    OfferedIffGranted(e, t, name);
    if t.steps < e.limits.maxSteps {
      GoneToolIsRefused(e, t, name);
      OtherNamesWasteEveryStep(e, Turn(e, Gone(name), t).next.transcript, name);
    } else {
      NothingWastedAtTheEnd(e, Gone(name), t, name);
    }
  }

  lemma NothingWastedAtTheEnd(e: Employee, w: World, t: Transcript, name: string)
    requires t.steps >= e.limits.maxSteps
    ensures WastedTurns(e, w, t, name) == 0
  {
    hide BestAnswer, TakeReply, RefusedCalls, Withheld;
  }

  /** What is not granted is never offered, and wastes nothing. */
  lemma {:induction false} NothingWastedUnlessGranted(e: Employee, w: World, t: Transcript, name: string)
    requires !Lists(e.granted, name)
    ensures WastedTurns(e, w, t, name) == 0
    decreases e.limits.maxSteps - t.steps
  {
    hide Turn, Lists, OfferedIn, RefusedCalls, Withheld;
    OfferedIffGranted(e, t, name);
    var next := Turn(e, w, t).next;
    if next.Continue? {
      NothingWastedUnlessGranted(e, w, next.transcript, name);
    }
  }

  /** So the limit on refusals bounds the steps wasted on a tool exactly when its name is plain or was never granted, for
      an employee that has more steps left than the limit, and money and time to take them. */
  lemma RefusalsAreBoundedIffPlainOrNotGranted(e: Employee, t: Transcript, name: string)
    requires e.limits.maxSteps - t.steps > REFUSAL_LIMIT && t.cost < e.limits.maxCost && 0.0 < e.limits.maxWallTime
    ensures (forall w :: Registry(w) ==> WastedTurns(e, w, t, name) <= REFUSAL_LIMIT) <==>
            PlainName(name) || !Lists(e.granted, name)
  {
    hide PlainName, WastedTurns, Refusals.Refusals, Lists;
    if !Lists(e.granted, name) {
      forall w ensures WastedTurns(e, w, t, name) <= REFUSAL_LIMIT {
        NothingWastedUnlessGranted(e, w, t, name);
      }
    } else if PlainName(name) {
      forall w | Registry(w) ensures WastedTurns(e, w, t, name) <= REFUSAL_LIMIT {
        RefusalsAreBounded(e, w, t, name);
      }
    } else {
      OtherNamesWasteEveryStep(e, t, name);
      assert Registry(Gone(name));
    }
  }
}
