/**
 * What a delegator can hand down (application/employee_runtime/runtime.py, `_effective`, infrastructure/tools/registry.py):
 * narrowing the tools of an employee works, widening them cannot, over every run of the task.
 */
module Delegation {
  import opened Wrappers
  import opened Transcripts
  import opened Tasks
  import opened Policies
  import opened Refusals
  import opened Worlds
  import opened Executor
  import opened ExecutorRefusals
  import opened Runtime

  const EVERY_TOOL := "*"

  /** `_is_allowed`: what is listed, or everything for who lists the wildcard. */
  predicate IsAllowed(name: string, allowed: set<string>) {
    EVERY_TOOL in allowed || name in allowed
  }

  /** `_effective`: the declared tools, narrowed to what the assignment grants when it says so. */
  function Effective(declared: set<string>, granted: Option<set<string>>): set<string> {
    if granted.None? then declared else declared * granted.value
  }

  /** Nobody gets a tool the declaration does not allow, or one the assignment does not; and whoever is allowed a tool by
      both keeps it, unless exactly one of the two allows it by the wildcard alone. */
  lemma NarrowingNeverWidens(name: string, declared: set<string>, granted: set<string>)
    ensures IsAllowed(name, Effective(declared, Some(granted))) ==> IsAllowed(name, declared) && IsAllowed(name, granted)
    ensures IsAllowed(name, declared) && IsAllowed(name, granted) ==>
              (IsAllowed(name, Effective(declared, Some(granted))) <==>
               (EVERY_TOOL in declared && EVERY_TOOL in granted) || (name in declared && name in granted))
    ensures IsAllowed(name, Effective(declared, None)) <==> IsAllowed(name, declared)
  {
  }

  /** An employee that declares the wildcard is left without a single tool by a grant that names tools. */
  lemma NamedGrantsDisarmTheWildcard(name: string, granted: set<string>)
    requires EVERY_TOOL !in granted
    ensures IsAllowed(name, {EVERY_TOOL}) && !IsAllowed(name, Effective({EVERY_TOOL}, Some(granted)))
  {
  }

  type ToolTable = map<string, ToolSpec>

  ghost predicate Named(tools: ToolTable) {
    forall name :: name in tools ==> tools[name].name == name
  }

  /** `get`: no tool, or one the actor may not use, is not found. */
  function GetTool(tools: ToolTable, allowed: set<string>, name: string): Option<ToolSpec> {
    if name in tools && IsAllowed(name, allowed) then Some(tools[name]) else None
  }

  /** `list_specs`, given the names in order. */
  function ListSpecs(tools: ToolTable, allowed: set<string>, names: seq<string>): (specs: seq<ToolSpec>)
    ensures Named(tools) ==> forall spec :: spec in specs ==> IsAllowed(spec.name, allowed)
  {
    if names == [] then []
    else
      (if names[0] in tools && IsAllowed(names[0], allowed) then [tools[names[0]]] else [])
      + ListSpecs(tools, allowed, names[1..])
  }

  /** The employee was handed what the registry lists for it. */
  ghost predicate IsGranted(e: Employee, tools: ToolTable, allowed: set<string>) {
    exists names :: (forall name :: name in names <==> name in tools) && e.granted == ListSpecs(tools, allowed, names)
  }

  /** The employee and its world see the tools through the registry, as this actor. */
  ghost predicate Confined(e: Employee, w: World, tools: ToolTable, allowed: set<string>) {
    && Named(tools)
    && (forall t, name :: w.find(t, name) == GetTool(tools, allowed, name))
    && IsGranted(e, tools, allowed)
  }

  /** Whatever is offered or executed is allowed. */
  ghost predicate StaysWithin(acts: seq<Act>, allowed: set<string>) {
    forall k :: 0 <= k < |acts| ==> Within(acts[k], allowed)
  }

  ghost predicate Within(act: Act, allowed: set<string>) {
    match act
    case Executed(tool) => IsAllowed(tool, allowed)
    case Asked(_, offered) => forall name :: name in offered ==> IsAllowed(name, allowed)
    case _ => true
  }

  lemma WithinBoth(a: seq<Act>, b: seq<Act>, allowed: set<string>)
    requires StaysWithin(a, allowed) && StaysWithin(b, allowed)
    ensures StaysWithin(a + b, allowed)
  {
  }

  lemma CallStaysWithin(e: Employee, w: World, tools: ToolTable, allowed: set<string>, t: Transcript, call: ToolCall)
    requires Confined(e, w, tools, allowed)
    ensures StaysWithin(Invoke(e, w, t, call).acts, allowed)
  {
    hide Evaluate, ListSpecs;
    assert w.find(t, call.name) == GetTool(tools, allowed, call.name);
  }

  lemma {:induction false} BatchStaysWithin(
      e: Employee, w: World, tools: ToolTable, allowed: set<string>, t: Transcript, calls: seq<ToolCall>)
    requires Confined(e, w, tools, allowed)
    ensures StaysWithin(RunCalls(e, w, t, calls).acts, allowed)
    decreases |calls|
  {
    hide Confined, Invoke, AfterCall, RunCalls, Within;
    if calls == [] {
      NoCallsLeft(e, w, t);
    } else {
      BatchStops(e, w, t, calls);
      CallStaysWithin(e, w, tools, allowed, t, calls[0]);
      var one := Invoke(e, w, t, calls[0]);
      if !w.cancelled(t) && one.outcome.Invocation? {
        BatchGoesOn(e, w, t, calls);
        BatchStaysWithin(e, w, tools, allowed, AfterCall(t, calls[0], one.outcome), calls[1..]);
      }
    }
  }

  lemma TurnStaysWithin(e: Employee, w: World, tools: ToolTable, allowed: set<string>, t: Transcript)
    requires Confined(e, w, tools, allowed)
    ensures StaysWithin(Turn(e, w, t).acts, allowed)
  {
    hide RunCalls, BestAnswer, Withheld, ListSpecs;
    OfferedAvoids(e.granted, Withheld(t.observations));
    var offered := OfferedIn(e, t);
    forall name | name in NamesOf(offered) ensures IsAllowed(name, allowed) {
      var k :| 0 <= k < |offered| && NamesOf(offered)[k] == name;
      assert offered[k] in offered && offered[k] in e.granted;
    }
    var reply := w.generate(t, offered);
    if reply.Reply? {
      var said := AfterReply(t, reply).WithMessage(AssistantMessage(reply.content, reply.calls));
      BatchStaysWithin(e, w, tools, allowed, said, reply.calls);
    }
  }

  lemma {:induction false} LoopStaysWithin(e: Employee, w: World, tools: ToolTable, allowed: set<string>, t: Transcript)
    requires Confined(e, w, tools, allowed)
    ensures StaysWithin(Loop(e, w, t).acts, allowed)
    decreases e.limits.maxSteps - t.steps
  {
    hide Turn, Loop, Confined, StaysWithin;
    LoopStep(e, w, t);
    TurnStaysWithin(e, w, tools, allowed, t);
    var turn := Turn(e, w, t);
    if turn.next.Continue? {
      LoopStaysWithin(e, w, tools, allowed, turn.next.transcript);
      WithinBoth(turn.acts, Loop(e, w, turn.next.transcript).acts, allowed);
    }
  }

  ghost predicate ExecutionsStayWithin(log: seq<Entry>, allowed: set<string>) {
    forall k :: 0 <= k < |log| && log[k].Execution? ==> StaysWithin(log[k].run.acts, allowed)
  }

  lemma {:induction false} KeepingRunsNothing(kept: Kept, acts: seq<Act>, allowed: set<string>)
    requires ExecutionsStayWithin(kept.log, allowed)
    ensures ExecutionsStayWithin(KeepAll(kept, acts).log, allowed)
  {
    hide StaysWithin, SaveRunState;
    if acts == [] {
    } else {
      KeepingRunsNothing(kept, acts[..|acts| - 1], allowed);
    }
  }

  lemma StageStaysWithin(
      s: Surroundings, e: Employee, k: nat, task: Task, state: RunState, tools: ToolTable, allowed: set<string>)
    requires Confined(e, s.world(k), tools, allowed)
    ensures ExecutionsStayWithin(OneStage(s, e, k, task, state).log, allowed)
  {
    hide StaysWithin, Loop, KeepAll, Judge, SaveRunState, Confined;
    if state.stage == STAGE_EXECUTING {
      LoopStaysWithin(e, s.world(k), tools, allowed, state.transcript);
      var run := Loop(e, s.world(k), state.transcript);
      KeepingRunsNothing(Kept([Execution(run)], task, state), run.acts, allowed);
    }
  }

  /** Whatever the delegator grants and whatever the model asks for: in no execution of any run of the task is a tool
      offered or entered that the declaration does not allow, or that the assignment does not. */
  lemma {:induction false} DelegationNeverEscalates(
      s: Surroundings, e: Employee, k: nat, task: Task, state: RunState, tools: ToolTable, declared: set<string>,
      granted: Option<set<string>>)
    requires forall j: nat :: Confined(e, s.world(j), tools, Effective(declared, granted))
    ensures ExecutionsStayWithin(Stages(s, e, k, task, state).log, Effective(declared, granted))
    ensures forall name :: IsAllowed(name, Effective(declared, granted)) ==>
              IsAllowed(name, declared) && (granted.Some? ==> IsAllowed(name, granted.value))
    decreases SendBacksLeft(state), Distance(state)
  {
    hide OneStage, Stages, Confined, StaysWithin;
    if state.stage == STAGE_DONE {
      StagesDone(s, e, k, task, state);
    } else {
      StagesStep(s, e, k, task, state);
      StageStaysWithin(s, e, k, task, state, tools, Effective(declared, granted));
      var stage := OneStage(s, e, k, task, state);
      if stage.moved.Moved? {
        StagesEnd(s, e, k, task, state);
        DelegationNeverEscalates(s, e, k + 1, stage.moved.task, stage.moved.state, tools, declared, granted);
      }
    }
  }

  lemma {:induction false} ListedIffAllowed(tools: ToolTable, allowed: set<string>, names: seq<string>, spec: ToolSpec)
    ensures spec in ListSpecs(tools, allowed, names) <==>
            exists name :: name in names && name in tools && IsAllowed(name, allowed) && spec == tools[name]
  {
    if names == [] {
    } else {
      ListedIffAllowed(tools, allowed, names[1..], spec);
      assert names == [names[0]] + names[1..];
    }
  }

  /** At every step an employee is offered exactly the registered tools it is allowed and that were not withdrawn. */
  lemma OfferedIffAllowed(
      e: Employee, w: World, tools: ToolTable, allowed: set<string>, t: Transcript, name: string)
    requires Confined(e, w, tools, allowed)
    ensures (exists spec :: spec in OfferedIn(e, t) && spec.name == name) <==>
            name in tools && IsAllowed(name, allowed) && name !in Withheld(t.observations)
  {
    hide Withheld, ListSpecs;
    var names :| (forall n :: n in names <==> n in tools) && e.granted == ListSpecs(tools, allowed, names);
    OfferedAvoids(e.granted, Withheld(t.observations));
    forall spec
      ensures spec in e.granted <==> exists n :: n in names && n in tools && IsAllowed(n, allowed) && spec == tools[n]
    {
      ListedIffAllowed(tools, allowed, names, spec);
    }
    if name in tools && IsAllowed(name, allowed) && name !in Withheld(t.observations) {
      assert tools[name] in OfferedIn(e, t);
    }
  }
}
