/**
 * What the gate's decisions come to over a whole run of the tool loop (application/employee_runtime/executor.py,
 * application/employee_runtime/approvals.py): who is asked, and what is executed, for the tools of a registry.
 */
module ExecutorPolicies {
  import opened Transcripts
  import opened Tasks
  import opened Policies
  import opened Worlds
  import opened Approvals
  import opened Executor
  import opened ExecutorRuns
  import opened Delegation

  ghost predicate AllAre(acts: seq<Act>, p: Act -> bool) {
    forall k :: 0 <= k < |acts| ==> p(acts[k])
  }

  /** Whatever call is made, the gate and the tool do nothing but this. */
  ghost predicate EveryCall(e: Employee, w: World, p: Act -> bool) {
    forall t, call :: AllAre(Invoke(e, w, t, call).acts, p)
  }

  /** So is everything the loop does besides its calls. */
  ghost predicate AllowsTheRest(p: Act -> bool) {
    && (forall spent, offered :: p(Asked(spent, offered)))
    && (forall cost :: p(Paid(cost)))
    && (forall t :: p(Saved(t)))
  }

  lemma AllAreBoth(a: seq<Act>, b: seq<Act>, p: Act -> bool)
    requires AllAre(a, p) && AllAre(b, p)
    ensures AllAre(a + b, p)
  {
  }

  lemma {:induction false} BatchDoes(e: Employee, w: World, t: Transcript, calls: seq<ToolCall>, p: Act -> bool)
    requires EveryCall(e, w, p)
    ensures AllAre(RunCalls(e, w, t, calls).acts, p)
    decreases |calls|
  {
    hide Invoke, AfterCall, RunCalls;
    if calls == [] {
      NoCallsLeft(e, w, t);
    } else {
      BatchStops(e, w, t, calls);
      var one := Invoke(e, w, t, calls[0]);
      assert AllAre(one.acts, p);
      if !w.cancelled(t) && one.outcome.Invocation? {
        BatchGoesOn(e, w, t, calls);
        BatchDoes(e, w, AfterCall(t, calls[0], one.outcome), calls[1..], p);
      }
    }
  }

  lemma TurnDoes(e: Employee, w: World, t: Transcript, p: Act -> bool)
    requires EveryCall(e, w, p) && AllowsTheRest(p)
    ensures AllAre(Turn(e, w, t).acts, p)
  {
    hide RunCalls, BestAnswer, OfferedIn, NamesOf, EveryCall;
    var reply := w.generate(t, OfferedIn(e, t));
    if reply.Reply? {
      var said := AfterReply(t, reply).WithMessage(AssistantMessage(reply.content, reply.calls));
      BatchDoes(e, w, said, reply.calls, p);
    }
  }

  /** What every call does, every run does. */
  lemma {:induction false} LoopDoes(e: Employee, w: World, t: Transcript, p: Act -> bool)
    requires EveryCall(e, w, p) && AllowsTheRest(p)
    ensures AllAre(Loop(e, w, t).acts, p)
    decreases e.limits.maxSteps - t.steps
  {
    hide Turn, Loop, EveryCall, AllowsTheRest, AllAre;
    LoopStep(e, w, t);
    TurnDoes(e, w, t, p);
    var turn := Turn(e, w, t);
    if turn.next.Continue? {
      LoopDoes(e, w, turn.next.transcript, p);
      AllAreBoth(turn.acts, Loop(e, w, turn.next.transcript).acts, p);
    }
  }

  /** What the gate decides of a registered tool. */
  lemma CallIsDecided(e: Employee, w: World, tools: ToolTable, allowed: set<string>, t: Transcript, call: ToolCall)
    requires Confined(e, w, tools, allowed)
    ensures var acts := Invoke(e, w, t, call).acts;
            acts != [] ==>
              && call.name in tools && IsAllowed(call.name, allowed)
              && acts[0].Decided? && acts[0].tool == call.name && (forall k :: 0 < k < |acts| ==> !acts[k].Decided?)
              && (!tools[call.name].reversible ==> acts[0] != Decided(call.name, ALLOW))
              && (!e.approver ==> Told(WAITING_FOR_APPROVAL) !in acts)
              && (Forbids(e.policies, tools[call.name].effect) ==> acts == [Decided(call.name, DENY)])
              && (forall k :: 0 <= k < |acts| && acts[k].Executed? ==> acts[k].tool == call.name)
  {
    hide Evaluate, ListSpecs, Forbids;
    assert w.find(t, call.name) == GetTool(tools, allowed, call.name);
    if w.find(t, call.name).Some? {
      assert tools[call.name].name == call.name;
      var spec, assessment := tools[call.name], AssessmentOf(w.assess(t, call));
      DeniedIffForbidden(RequestFor(e, spec, assessment));
      RiskyCallsAreNeverAllowed(spec, assessment, RequestFor(e, spec, assessment));
    }
  }

  // ----- Irreversible tools -----

  /** A tool that cannot be undone is entered on nobody's judgement but a person's: in every run of the loop, each entry
      comes right after an approval of that tool. */
  lemma IrreversibleToolsAreApproved(
      e: Employee, w: World, tools: ToolTable, allowed: set<string>, t: Transcript, tool: string, k: nat)
    requires Confined(e, w, tools, allowed) && tool in tools && !tools[tool].reversible
    requires k < |Loop(e, w, t).acts| && Loop(e, w, t).acts[k] == Executed(tool)
    ensures var acts := Loop(e, w, t).acts;
            e.approver && k >= 2 && acts[k - 1] == Told(RUNNING) && acts[k - 2] == Heard(tool, APPROVED)
  {
    hide Loop, Invoke, Confined;
    var p: Act -> bool := (act: Act) => act != Decided(tool, ALLOW);
    forall t, call ensures AllAre(Invoke(e, w, t, call).acts, p) {
      CallIsDecided(e, w, tools, allowed, t, call);
    }
    LoopDoes(e, w, t, p);
    RunIsOrderly(e, w, t);
    var acts := Loop(e, w, t).acts;
    assert Licensed(acts, k);
    assert k >= 1 ==> p(acts[k - 1]);
    assert acts[k - 3] == Told(WAITING_FOR_APPROVAL) && acts[k - 3] in acts;
    if !CanAsk(e, tools, allowed) {
      NobodyIsAsked(e, w, tools, allowed, t);
    }
  }

  // ----- What is declared -----

  /** A policy holds over whole runs: nothing an employee's policies forbid is ever executed, whoever would approve it. */
  lemma ForbiddenEffectsNeverHappen(
      e: Employee, w: World, tools: ToolTable, allowed: set<string>, t: Transcript, k: nat)
    requires Confined(e, w, tools, allowed)
    requires k < |Loop(e, w, t).acts| && Loop(e, w, t).acts[k].Executed?
    ensures var tool := Loop(e, w, t).acts[k].tool;
            && tool in tools && IsAllowed(tool, allowed) && !Forbids(e.policies, tools[tool].effect)
            && ("read_only" in e.policies ==> tools[tool].effect == READ)
  {
    hide Loop, Invoke, Confined;
    var p: Act -> bool :=
      (act: Act) =>
        act.Executed? ==>
          act.tool in tools && IsAllowed(act.tool, allowed) && !Forbids(e.policies, tools[act.tool].effect);
    forall t, call ensures AllAre(Invoke(e, w, t, call).acts, p) {
      CallIsDecided(e, w, tools, allowed, t, call);
    }
    LoopDoes(e, w, t, p);
    assert p(Loop(e, w, t).acts[k]);
  }

  // ----- Who is asked -----

  /** Somebody can be asked about some tool: there is an approver, and a tool it may use that is not forbidden. */
  predicate CanAsk(e: Employee, tools: ToolTable, allowed: set<string>) {
    && e.approver
    && exists name :: name in tools && IsAllowed(name, allowed) && !Forbids(e.policies, tools[name].effect)
  }

  /** Otherwise no run asks. */
  lemma NobodyIsAsked(e: Employee, w: World, tools: ToolTable, allowed: set<string>, t: Transcript)
    requires Confined(e, w, tools, allowed) && !CanAsk(e, tools, allowed)
    ensures Told(WAITING_FOR_APPROVAL) !in Loop(e, w, t).acts
  {
    hide Loop, Invoke, Confined, Forbids;
    var p: Act -> bool := (act: Act) => act != Told(WAITING_FOR_APPROVAL);
    forall t, call ensures AllAre(Invoke(e, w, t, call).acts, p) {
      CallIsDecided(e, w, tools, allowed, t, call);
    }
    LoopDoes(e, w, t, p);
    assert forall k :: 0 <= k < |Loop(e, w, t).acts| ==> p(Loop(e, w, t).acts[k]);
  }

  // ----- What every write waits for -----

  /** A call reaches its tool exactly when the tool is registered and allowed, nothing forbids what it does, and it needs
      no approval or gets one. */
  lemma ExecutedIffLetThrough(e: Employee, w: World, tools: ToolTable, allowed: set<string>, t: Transcript, call: ToolCall)
    requires Confined(e, w, tools, allowed)
    ensures Executed(call.name) in Invoke(e, w, t, call).acts <==>
            && call.name in tools && IsAllowed(call.name, allowed)
            && !w.assess(t, call).JudgementFailed? && !Forbids(e.policies, tools[call.name].effect)
            && (NeedsApproval(e, tools[call.name], w.assess(t, call)) ==>
                  e.approver && w.answer(t, call) == Answered(APPROVED))
  {
    hide Evaluate, ListSpecs, Forbids, NeedsApproval;
    assert w.find(t, call.name) == GetTool(tools, allowed, call.name);
    if w.find(t, call.name).Some? {
      assert tools[call.name].name == call.name;
      WhoIsLetThrough(e, w, t, call, tools[call.name]);
    }
  }

  /** With every write to be approved, no run enters a tool that changes something but right after an approval of it. */
  lemma EveryWriteIsApproved(
      e: Employee, w: World, tools: ToolTable, allowed: set<string>, t: Transcript, tool: string, k: nat)
    requires Confined(e, w, tools, allowed) && "approve_every_write" in e.policies
    requires tool in tools && tools[tool].effect != READ
    requires k < |Loop(e, w, t).acts| && Loop(e, w, t).acts[k] == Executed(tool)
    ensures var acts := Loop(e, w, t).acts;
            k >= 2 && acts[k - 1] == Told(RUNNING) && acts[k - 2] == Heard(tool, APPROVED)
  {
    hide Loop, Invoke, Confined;
    var p: Act -> bool := (act: Act) => act != Decided(tool, ALLOW);
    forall t, call ensures AllAre(Invoke(e, w, t, call).acts, p) {
      CallIsDecided(e, w, tools, allowed, t, call);
      WritesAreNotAllowed(e, w, tools, allowed, t, call);
    }
    LoopDoes(e, w, t, p);
    RunIsOrderly(e, w, t);
    var acts := Loop(e, w, t).acts;
    assert Licensed(acts, k);
    assert k >= 1 ==> p(acts[k - 1]);
  }

  lemma WritesAreNotAllowed(e: Employee, w: World, tools: ToolTable, allowed: set<string>, t: Transcript, call: ToolCall)
    requires Confined(e, w, tools, allowed) && "approve_every_write" in e.policies
    ensures call.name in tools && tools[call.name].effect != READ ==>
              Decided(call.name, ALLOW) !in Invoke(e, w, t, call).acts
  {
    hide Evaluate, ListSpecs, Forbids, ResolveRisk;
    assert w.find(t, call.name) == GetTool(tools, allowed, call.name);
    if w.find(t, call.name).Some? {
      DecisionTable(RequestFor(e, tools[call.name], AssessmentOf(w.assess(t, call))));
    }
  }
}
