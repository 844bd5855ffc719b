/**
 * A plan: tasks and the edges between them (domain/workforce/protocols.py), and how the planner reads one out of what
 * the model answered (application/prometheus/planner.py).
 */
module Plans {
  import opened Text
  import WorkflowOrder

  type TaskId = nat

  datatype PlannedTask = PlannedTask(id: TaskId, goal: string)

  /** `dependencies` are pairs of a task and one it depends on. */
  datatype Plan = Plan(tasks: seq<PlannedTask>, dependencies: seq<(TaskId, TaskId)>)

  function Ids(tasks: seq<PlannedTask>): set<TaskId> {
    set k | 0 <= k < |tasks| :: tasks[k].id
  }

  ghost predicate DistinctIds(tasks: seq<PlannedTask>) {
    forall i, j :: 0 <= i < j < |tasks| ==> tasks[i].id != tasks[j].id
  }

  /** Every edge joins two different tasks of the plan. */
  ghost predicate WellFormed(plan: Plan) {
    && DistinctIds(plan.tasks)
    && forall e :: e in plan.dependencies ==> e.0 in Ids(plan.tasks) && e.1 in Ids(plan.tasks) && e.0 != e.1
  }

  function DependsOn(plan: Plan, id: TaskId): set<TaskId> {
    set k | 0 <= k < |plan.dependencies| && plan.dependencies[k].0 == id :: plan.dependencies[k].1
  }

  predicate IsReady(plan: Plan, done: set<TaskId>, task: PlannedTask) {
    task.id !in done && DependsOn(plan, task.id) <= done
  }

  function ReadyAmong(plan: Plan, done: set<TaskId>, tasks: seq<PlannedTask>): (ready: seq<PlannedTask>)
    ensures forall task :: task in ready <==> task in tasks && IsReady(plan, done, task)
  {
    if tasks == [] then []
    else
      assert tasks == [tasks[0]] + tasks[1..];
      (if IsReady(plan, done, tasks[0]) then [tasks[0]] else []) + ReadyAmong(plan, done, tasks[1..])
  }

  lemma {:induction false} ReadyIsDistinct(plan: Plan, done: set<TaskId>, tasks: seq<PlannedTask>)
    requires DistinctIds(tasks)
    ensures DistinctIds(ReadyAmong(plan, done, tasks))
  {
    if tasks == [] {
    } else {
      var rest := ReadyAmong(plan, done, tasks[1..]);
      ReadyIsDistinct(plan, done, tasks[1..]);
      forall k | 0 <= k < |rest| ensures rest[k].id != tasks[0].id {
        assert rest[k] in tasks[1..];
      }
    }
  }

  /** Unfinished tasks that depend on finished ones only, listed as the plan lists them. */
  function Ready(plan: Plan, done: set<TaskId>): (ready: seq<PlannedTask>)
    ensures forall task :: task in ready <==> task in plan.tasks && IsReady(plan, done, task)
  {
    ReadyAmong(plan, done, plan.tasks)
  }

  predicate Outstanding(plan: Plan, done: set<TaskId>) {
    exists k :: 0 <= k < |plan.tasks| && plan.tasks[k].id !in done
  }

  /** The plan is not finished, and no task of it can be started. */
  predicate Blocked(plan: Plan, done: set<TaskId>) {
    Outstanding(plan, done) && Ready(plan, done) == []
  }

  // ----- Cycles -----

  /** Each task of the chain depends on the next. */
  ghost predicate IsChain(plan: Plan, chain: seq<TaskId>) {
    && chain != []
    && forall k :: 0 <= k < |chain| - 1 ==> chain[k + 1] in DependsOn(plan, chain[k])
  }

  ghost predicate IsCycle(plan: Plan, chain: seq<TaskId>) {
    IsChain(plan, chain) && |chain| >= 2 && chain[0] == chain[|chain| - 1]
  }

  ghost predicate HasCycle(plan: Plan) {
    exists chain :: IsCycle(plan, chain)
  }

  function IndexOf(tasks: seq<PlannedTask>, id: TaskId): (k: nat)
    requires id in Ids(tasks)
    ensures k < |tasks| && tasks[k].id == id
  {
    if tasks[0].id == id then 0
    else
      assert id in Ids(tasks[1..]) by {
        var j :| 0 <= j < |tasks| && tasks[j].id == id;
        assert tasks[1..][j - 1].id == id;
      }
      1 + IndexOf(tasks[1..], id)
  }

  /** In a blocked plan one can walk from an unfinished task to one it waits for, for ever. */
  lemma {:induction false} WaitingChain(plan: Plan, done: set<TaskId>, id: TaskId, n: nat) returns (chain: seq<TaskId>)
    requires WellFormed(plan) && Ready(plan, done) == [] && id in Ids(plan.tasks) && id !in done
    ensures IsChain(plan, chain) && chain[0] == id && |chain| == n + 1
    ensures forall k :: 0 <= k < |chain| ==> chain[k] in Ids(plan.tasks)
    decreases n
  {
    chain := [id];
    if n > 0 {
      var i := IndexOf(plan.tasks, id);
      assert plan.tasks[i] !in Ready(plan, done);
      var next :| next in DependsOn(plan, id) && next !in done;
      var k :| 0 <= k < |plan.dependencies| && plan.dependencies[k].0 == id && plan.dependencies[k].1 == next;
      assert plan.dependencies[k] in plan.dependencies;
      var rest := WaitingChain(plan, done, next, n - 1);
      chain := [id] + rest;
    }
  }

  /** A plan with well-formed edges that is blocked has a cycle. */
  lemma BlockedMeansCycle(plan: Plan, done: set<TaskId>)
    requires WellFormed(plan) && Blocked(plan, done)
    ensures HasCycle(plan)
  {
    hide IndexOf, Ready, IsChain, DependsOn, WellFormed;
    var i :| 0 <= i < |plan.tasks| && plan.tasks[i].id !in done;
    assert plan.tasks[i].id in Ids(plan.tasks);
    var chain := WaitingChain(plan, done, plan.tasks[i].id, |plan.tasks|);
    var places := seq(|chain|, k requires 0 <= k < |chain| => IndexOf(plan.tasks, chain[k]));
    WorkflowOrder.Pigeonhole(places, |plan.tasks|);
    var a, b :| 0 <= a < b < |places| && places[a] == places[b];
    assert chain[a] == plan.tasks[places[a]].id == chain[b];
    PartOfChain(plan, chain, a, b);
    var cycle := chain[a..b + 1];
    assert cycle[0] == chain[a] && cycle[|cycle| - 1] == chain[b];
    CycleFound(plan, cycle);
  }

  lemma CycleFound(plan: Plan, cycle: seq<TaskId>)
    requires IsCycle(plan, cycle)
    ensures HasCycle(plan)
  {
  }

  lemma PartOfChain(plan: Plan, chain: seq<TaskId>, a: nat, b: nat)
    requires IsChain(plan, chain) && a < b < |chain|
    ensures IsChain(plan, chain[a..b + 1])
  {
    var part := chain[a..b + 1];
    forall k | 0 <= k < |part| - 1 ensures part[k + 1] in DependsOn(plan, part[k]) {
      assert chain[a + k + 1] in DependsOn(plan, chain[a + k]);
    }
  }

  // ----- Reading a plan -----

  /** One entry of the model's list: not an object at all, or a goal, an id it may have, and what it depends on. */
  datatype RawItem = NotAnObject | RawItem(goal: string, id: string, dependsOn: seq<string>)

  function Decimal(n: nat): string {
    (if n < 10 then "" else Decimal(n / 10)) + ["0123456789"[n % 10]]
  }

  function Key(item: RawItem, index: nat): string
    requires item.RawItem?
  {
    if item.id != "" then item.id else "t" + Decimal(index + 1)
  }

  predicate Usable(item: RawItem) {
    item.RawItem? && Strip(item.goal) != ""
  }

  /** The dictionary of tasks: keys in the order they first came, each with the task that came last. A task is made
      with a new id; the index of its entry serves as one. */
  datatype TaskTable = TaskTable(keys: seq<string>, tasks: map<string, PlannedTask>) {
    ghost predicate Valid(read: nat) {
      && (forall key :: key in keys <==> key in tasks)
      && (forall i, j :: 0 <= i < j < |keys| ==> keys[i] != keys[j])
      && (forall key :: key in tasks ==> tasks[key].id < read)
      && (forall key, other :: key in tasks && other in tasks && key != other ==> tasks[key].id != tasks[other].id)
    }

    function With(key: string, task: PlannedTask): TaskTable {
      TaskTable(if key in tasks then keys else keys + [key], tasks[key := task])
    }

    function Listed(): seq<PlannedTask>
      requires forall key :: key in keys ==> key in tasks
    {
      seq(|keys|, k requires 0 <= k < |keys| => tasks[keys[k]])
    }
  }

  /** The table after the first `n` entries. */
  function TableOf(raw: seq<RawItem>, n: nat): TaskTable
    requires n <= |raw|
  {
    if n == 0 then TaskTable([], map[])
    else
      var before, item := TableOf(raw, n - 1), raw[n - 1];
      if Usable(item) then before.With(Key(item, n - 1), PlannedTask(n - 1, Strip(item.goal))) else before
  }

  lemma {:induction false} TableIsValid(raw: seq<RawItem>, n: nat)
    requires n <= |raw|
    ensures TableOf(raw, n).Valid(n)
    ensures |TableOf(raw, n).keys| <= n
    ensures forall key :: key in TableOf(raw, n).tasks ==>
              var i := TableOf(raw, n).tasks[key].id;
              Usable(raw[i]) && Key(raw[i], i) == key && TableOf(raw, n).tasks[key].goal == Strip(raw[i].goal)
  {
    hide Strip, Usable, Key;
    if n > 0 {
      TableIsValid(raw, n - 1);
      var before := TableOf(raw, n - 1);
      if Usable(raw[n - 1]) {
        UsableIsAnObject(raw[n - 1]);
        WithStaysValid(before, Key(raw[n - 1], n - 1), PlannedTask(n - 1, Strip(raw[n - 1].goal)));
      }
    }
  }

  lemma WithStaysValid(table: TaskTable, key: string, task: PlannedTask)
    requires table.Valid(task.id)
    ensures table.With(key, task).Valid(task.id + 1)
  {
  }

  /** How many entries the first loop reads: it stops once there are as many tasks as a plan may have. */
  function EntriesRead(raw: seq<RawItem>, maxTasks: nat, from: nat): (n: nat)
    requires from <= |raw|
    ensures from <= n <= |raw|
    decreases |raw| - from
  {
    if from == |raw| then from
    else if Usable(raw[from]) && |TableOf(raw, from + 1).keys| == maxTasks then from + 1
    else EntriesRead(raw, maxTasks, from + 1)
  }

  /** The edges one entry states with its first `n` dependencies. */
  function EntryEdges(item: RawItem, key: string, table: TaskTable, n: nat): seq<(TaskId, TaskId)>
    requires item.RawItem? && n <= |item.dependsOn| && key in table.tasks
  {
    if n == 0 then []
    else
      var other := item.dependsOn[n - 1];
      EntryEdges(item, key, table, n - 1) +
      if other in table.tasks && other != key then [(table.tasks[key].id, table.tasks[other].id)] else []
  }

  /** The edges the first `n` entries state. */
  function EdgesOf(raw: seq<RawItem>, table: TaskTable, n: nat): seq<(TaskId, TaskId)>
    requires n <= |raw|
  {
    if n == 0 then [] else EdgesOf(raw, table, n - 1) + EdgesAt(raw, table, n - 1)
  }

  /** Entry `i` states the edge: it names a task of the plan that is not its own. */
  ghost predicate States(raw: seq<RawItem>, table: TaskTable, i: nat, e: (TaskId, TaskId)) {
    && i < |raw| && raw[i].RawItem? && Key(raw[i], i) in table.tasks
    && exists other :: other in raw[i].dependsOn && LeadsTo(table, Key(raw[i], i), other, e)
  }

  /** This dependency names another task of the plan, and the edge to it is `e`. */
  predicate LeadsTo(table: TaskTable, key: string, other: string, e: (TaskId, TaskId))
    requires key in table.tasks
  {
    other in table.tasks && other != key && e == (table.tasks[key].id, table.tasks[other].id)
  }

  lemma {:induction false} EntryEdgesAreStated(item: RawItem, key: string, table: TaskTable, n: nat, e: (TaskId, TaskId))
    requires item.RawItem? && n <= |item.dependsOn| && key in table.tasks
    ensures e in EntryEdges(item, key, table, n) <==>
            exists other :: other in item.dependsOn[..n] && LeadsTo(table, key, other, e)
  {
    if n > 0 {
      EntryEdgesAreStated(item, key, table, n - 1, e);
      var before, last := item.dependsOn[..n - 1], item.dependsOn[n - 1];
      assert item.dependsOn[..n] == before + [last];
      assert e in EntryEdges(item, key, table, n) <==>
             e in EntryEdges(item, key, table, n - 1) || LeadsTo(table, key, last, e);
      hide EntryEdges, LeadsTo;
    }
  }

  /** The edges entry `i` adds. */
  function EdgesAt(raw: seq<RawItem>, table: TaskTable, i: nat): seq<(TaskId, TaskId)>
    requires i < |raw|
  {
    if raw[i].RawItem? && Key(raw[i], i) in table.tasks
    then EntryEdges(raw[i], Key(raw[i], i), table, |raw[i].dependsOn|) else []
  }

  lemma EdgesAtAreStated(raw: seq<RawItem>, table: TaskTable, i: nat, e: (TaskId, TaskId))
    requires i < |raw|
    ensures e in EdgesAt(raw, table, i) <==> States(raw, table, i, e)
  {
    hide Key;
    if raw[i].RawItem? && Key(raw[i], i) in table.tasks {
      EntryEdgesAreStated(raw[i], Key(raw[i], i), table, |raw[i].dependsOn|, e);
      assert raw[i].dependsOn[..|raw[i].dependsOn|] == raw[i].dependsOn;
    }
  }

  lemma {:induction false} EdgesAreStated(raw: seq<RawItem>, table: TaskTable, n: nat, e: (TaskId, TaskId))
    requires n <= |raw|
    ensures e in EdgesOf(raw, table, n) <==> exists i :: 0 <= i < n && States(raw, table, i, e)
  {
    hide Key, States, EntryEdges, EdgesAt;
    if n > 0 {
      EdgesAreStated(raw, table, n - 1, e);
      EdgesAtAreStated(raw, table, n - 1, e);
    }
  }

  function TableRead(raw: seq<RawItem>, maxTasks: nat): TaskTable {
    TableOf(raw, EntriesRead(raw, maxTasks, 0))
  }

  class ObjectivePlanner {
    const maxTasks: nat

    constructor (maxTasks: nat)
      ensures this.maxTasks == maxTasks
    {
      this.maxTasks := maxTasks;
    }

    /** The first loop of `_read`: a task for every entry with a goal, up to the most a plan may have. */
    method ReadTasks(raw: seq<RawItem>) returns (table: TaskTable)
      ensures table == TableRead(raw, maxTasks)
    {
      hide Usable, Key, Strip;
      table := TaskTable([], map[]);
      for i := 0 to |raw|
        invariant table == TableOf(raw, i) && EntriesRead(raw, maxTasks, 0) == EntriesRead(raw, maxTasks, i)
      {
        if Usable(raw[i]) {
          assert raw[i].RawItem? by { UsableIsAnObject(raw[i]); }
          table := table.With(Key(raw[i], i), PlannedTask(i, Strip(raw[i].goal)));
          if |table.keys| == maxTasks {
            return;
          }
        }
      }
    }

    /** The second loop: the edges. Only the first entries are looked at, as many as there are tasks. */
    method ReadEdges(raw: seq<RawItem>, table: TaskTable) returns (edges: seq<(TaskId, TaskId)>)
      requires |table.keys| <= |raw|
      ensures edges == EdgesOf(raw, table, |table.keys|)
    {
      hide Key;
      edges := [];
      for i := 0 to |table.keys|
        invariant edges == EdgesOf(raw, table, i)
      {
        if raw[i].RawItem? && Key(raw[i], i) in table.tasks {
          var key := Key(raw[i], i);
          ghost var before := edges;
          for d := 0 to |raw[i].dependsOn|
            invariant edges == before + EntryEdges(raw[i], key, table, d)
          {
            var other := raw[i].dependsOn[d];
            if other in table.tasks && other != key {
              edges := edges + [(table.tasks[key].id, table.tasks[other].id)];
            }
          }
        }
      }
    }

    /** `_read`: the plan in the model's answer. */
    method Read(raw: seq<RawItem>) returns (plan: Plan)
      ensures var table := TableRead(raw, maxTasks);
              && |table.keys| <= |raw| && (forall key :: key in table.keys ==> key in table.tasks)
              && plan == Plan(table.Listed(), EdgesOf(raw, table, |table.keys|))
    {
      var table := ReadTasks(raw);
      TableIsValid(raw, EntriesRead(raw, maxTasks, 0));
      var edges := ReadEdges(raw, table);
      plan := Plan(table.Listed(), edges);
    }

    /** `plan`: what was read, or the objective itself as the one task when nothing could be. */
    method MakePlan(raw: seq<RawItem>, objective: string) returns (plan: Plan)
      ensures WellFormed(plan) && plan.tasks != []
      ensures var table := TableRead(raw, maxTasks);
              && |table.keys| <= |raw| && (forall key :: key in table.keys ==> key in table.tasks)
              && plan == if table.keys == [] then Plan([PlannedTask(|raw|, objective)], []) else PlanRead(raw, maxTasks)
      ensures |TableRead(raw, maxTasks).keys| == 0 <==>
              forall i :: 0 <= i < EntriesRead(raw, maxTasks, 0) ==> !Usable(raw[i])
    {
      plan := Read(raw);
      PlansAreWellFormed(raw, maxTasks);
      NothingReadIffNothingUsable(raw, EntriesRead(raw, maxTasks, 0));
      if plan.tasks == [] {
        plan := Plan([PlannedTask(|raw|, objective)], []);
      }
    }
  }

  lemma {:induction false} NothingReadIffNothingUsable(raw: seq<RawItem>, n: nat)
    requires n <= |raw|
    ensures |TableOf(raw, n).keys| == 0 <==> forall i :: 0 <= i < n ==> !Usable(raw[i])
  {
    hide Usable, Key, Strip;
    if n > 0 {
      NothingReadIffNothingUsable(raw, n - 1);
      TableIsValid(raw, n - 1);
      if Usable(raw[n - 1]) {
        UsableIsAnObject(raw[n - 1]);
        WithIsNotEmpty(TableOf(raw, n - 1), Key(raw[n - 1], n - 1), PlannedTask(n - 1, Strip(raw[n - 1].goal)));
      }
    }
  }

  lemma WithIsNotEmpty(table: TaskTable, key: string, task: PlannedTask)
    requires forall k :: k in table.tasks ==> k in table.keys
    ensures table.With(key, task).keys != []
  {
  }

  lemma UsableIsAnObject(item: RawItem)
    requires Usable(item)
    ensures item.RawItem?
  {
  }

  function PlanRead(raw: seq<RawItem>, maxTasks: nat): Plan
    requires var table := TableRead(raw, maxTasks);
             |table.keys| <= |raw| && forall key :: key in table.keys ==> key in table.tasks
  {
    var table := TableRead(raw, maxTasks);
    Plan(table.Listed(), EdgesOf(raw, table, |table.keys|))
  }

  /** Whatever the model answers: the tasks have distinct ids and goals that say something, each from an entry under
      that entry's key, and every edge joins two different tasks of the plan. */
  lemma PlansAreWellFormed(raw: seq<RawItem>, maxTasks: nat)
    ensures var table := TableRead(raw, maxTasks);
            |table.keys| <= |raw| && forall key :: key in table.keys ==> key in table.tasks
    ensures WellFormed(PlanRead(raw, maxTasks))
    ensures forall task :: task in PlanRead(raw, maxTasks).tasks ==>
              task.id < |raw| && Usable(raw[task.id]) && task.goal == Strip(raw[task.id].goal) && task.goal != ""
  {
    hide Key, Strip, EdgesOf;
    var n := EntriesRead(raw, maxTasks, 0);
    TableIsValid(raw, n);
    var table := TableRead(raw, maxTasks);
    var plan := PlanRead(raw, maxTasks);
    forall key | key in table.tasks ensures table.tasks[key].id in Ids(plan.tasks) {
      var k :| 0 <= k < |table.keys| && table.keys[k] == key;
      assert plan.tasks[k].id == table.tasks[key].id;
    }
    forall e | e in plan.dependencies ensures e.0 in Ids(plan.tasks) && e.1 in Ids(plan.tasks) && e.0 != e.1 {
      EdgesAreStated(raw, table, |table.keys|, e);
      var i :| 0 <= i < |table.keys| && States(raw, table, i, e);
    }
  }

  /** No edge is lost: whatever an entry states about tasks of the plan is an edge of the plan. */
  ghost predicate EveryStatedEdgeIsRead(raw: seq<RawItem>, table: TaskTable)
    requires |table.keys| <= |raw|
  {
    forall i: nat, e :: States(raw, table, i, e) ==> e in EdgesOf(raw, table, |table.keys|)
  }

  /** What the entries that are not looked at state is stated by an entry that is. */
  ghost predicate LateEntriesStateNothingNew(raw: seq<RawItem>, table: TaskTable) {
    forall i: nat, e :: |table.keys| <= i && States(raw, table, i, e) ==>
      exists j :: 0 <= j < |table.keys| && States(raw, table, j, e)
  }

  /** Only as many entries are looked at for edges as there are tasks: no edge is lost if and only if the entries after
      them state no edge that is not stated before. */
  lemma EdgesAreLostIffLate(raw: seq<RawItem>, maxTasks: nat)
    ensures var table := TableRead(raw, maxTasks);
            |table.keys| <= |raw| && (EveryStatedEdgeIsRead(raw, table) <==> LateEntriesStateNothingNew(raw, table))
  {
    hide States, EdgesOf, TableOf;
    TableIsValid(raw, EntriesRead(raw, maxTasks, 0));
    var table := TableRead(raw, maxTasks);
    forall e: (TaskId, TaskId)
      ensures e in EdgesOf(raw, table, |table.keys|) <==> exists j :: 0 <= j < |table.keys| && States(raw, table, j, e)
    {
      EdgesAreStated(raw, table, |table.keys|, e);
    }
  }

  /** In particular nothing is lost when every entry becomes a task of its own: the plan has exactly the edges stated. */
  lemma NoEdgeIsLost(raw: seq<RawItem>, maxTasks: nat, e: (TaskId, TaskId))
    requires |TableRead(raw, maxTasks).keys| == |raw|
    ensures EveryStatedEdgeIsRead(raw, TableRead(raw, maxTasks))
    ensures e in EdgesOf(raw, TableRead(raw, maxTasks), |raw|) <==>
            exists i :: 0 <= i < |raw| && States(raw, TableRead(raw, maxTasks), i, e)
  {
    EdgesAreLostIffLate(raw, maxTasks);
    EdgesAreStated(raw, TableRead(raw, maxTasks), |raw|, e);
  }

  lemma BothReady(a: PlannedTask, b: PlannedTask)
    ensures Ready(Plan([a, b], []), {}) == [a, b]
  {
    var plan := Plan([a, b], []);
    assert IsReady(plan, {}, a) && IsReady(plan, {}, b);
    assert [a, b][1..] == [b] && [b][1..] == [];
    assert ReadyAmong(plan, {}, [b]) == [b];
  }

  /** One useless entry, and two tasks of which the second waits for the first. */
  const ONE_SKIPPED: seq<RawItem> := [NotAnObject, RawItem("fetch", "a", []), RawItem("report", "b", ["a"])]

  const TWO_TASKS := TaskTable(["a", "b"], map["a" := PlannedTask(1, "fetch"), "b" := PlannedTask(2, "report")])

  lemma TwoTasksAreRead()
    ensures TableOf(ONE_SKIPPED, 3) == TWO_TASKS && |TableOf(ONE_SKIPPED, 2).keys| == 1
    ensures Usable(ONE_SKIPPED[1]) && Usable(ONE_SKIPPED[2]) && !Usable(ONE_SKIPPED[0])
  {
    hide Strip;
    Solidly("fetch");
    Solidly("report");
    assert TableOf(ONE_SKIPPED, 1) == TaskTable([], map[]);
    assert TableOf(ONE_SKIPPED, 2) == TaskTable(["a"], map["a" := PlannedTask(1, "fetch")]);
  }

  lemma AllThreeAreRead()
    ensures TableRead(ONE_SKIPPED, 6) == TWO_TASKS
  {
    hide Strip, TableOf, Usable;
    TwoTasksAreRead();
    assert EntriesRead(ONE_SKIPPED, 6, 2) == EntriesRead(ONE_SKIPPED, 6, 3) == 3;
    assert EntriesRead(ONE_SKIPPED, 6, 0) == EntriesRead(ONE_SKIPPED, 6, 1) == EntriesRead(ONE_SKIPPED, 6, 2);
  }

  lemma OnlyTheLastStatesAnEdge()
    ensures States(ONE_SKIPPED, TWO_TASKS, 2, (2, 1))
    ensures forall j: nat, e :: j < 2 ==> !States(ONE_SKIPPED, TWO_TASKS, j, e)
  {
    hide Strip, TableOf;
    TwoTasksAreRead();
    assert "a" in ONE_SKIPPED[2].dependsOn && LeadsTo(TWO_TASKS, "b", "a", (2, 1));
  }

  /** An entry that is skipped costs an edge at the end of the list: with one useless entry before two tasks, the second
      of which waits for the first, both tasks are read, the edge between them is not, and both are ready at once. */
  lemma ASkippedEntryLosesAnEdge()
    ensures TableRead(ONE_SKIPPED, 6) == TWO_TASKS
    ensures States(ONE_SKIPPED, TWO_TASKS, 2, (2, 1)) && !EveryStatedEdgeIsRead(ONE_SKIPPED, TWO_TASKS)
    ensures EdgesOf(ONE_SKIPPED, TWO_TASKS, |TWO_TASKS.keys|) == []
    ensures var plan := Plan([PlannedTask(1, "fetch"), PlannedTask(2, "report")], []); Ready(plan, {}) == plan.tasks
  {
    hide TableRead, EdgesOf, States;
    BothReady(PlannedTask(1, "fetch"), PlannedTask(2, "report"));
    AllThreeAreRead();
    OnlyTheLastStatesAnEdge();
    EdgesAreLostIffLate(ONE_SKIPPED, 6);
    NoEdgeFrom(ONE_SKIPPED, TWO_TASKS, 2);
  }

  lemma NoEdgeFrom(raw: seq<RawItem>, table: TaskTable, n: nat)
    requires n <= |raw| && forall j: nat, e :: j < n ==> !States(raw, table, j, e)
    ensures EdgesOf(raw, table, n) == []
  {
    hide States, EdgesOf;
    var edges := EdgesOf(raw, table, n);
    if edges != [] {
      EdgesAreStated(raw, table, n, edges[0]);
    }
  }

  lemma Solidly(s: string)
    requires s != "" && !IsSpace(s[0]) && !IsSpace(s[|s| - 1])
    ensures Strip(s) == s
  {
    hide Strip;
    var lead := StripSplits(s);
    assert lead == 0 && |Strip(s)| == |s|;
  }

  // ----- Which entries become tasks -----

  /** The number a string of digits stands for. */
  function ReadDecimal(digits: string): int {
    if digits == "" then 0
    else 10 * ReadDecimal(digits[..|digits| - 1]) + (digits[|digits| - 1] as int - '0' as int)
  }

  lemma {:induction false} DecimalReadsBack(n: nat)
    ensures ReadDecimal(Decimal(n)) == n && Decimal(n) != ""
    ensures forall k :: 0 <= k < |Decimal(n)| ==> '0' <= Decimal(n)[k] <= '9'
  {
    var last := "0123456789"[n % 10];
    assert last as int - '0' as int == n % 10;
    var before := if n < 10 then "" else Decimal(n / 10);
    assert Decimal(n) == before + [last] && (before + [last])[..|before|] == before;
    if n >= 10 {
      DecimalReadsBack(n / 10);
    }
  }

  /** An entry goes by the id it gives itself, and otherwise by a `t` and its place in the list, counted from one. */
  lemma EntriesGoBy(item: RawItem, index: nat)
    requires item.RawItem?
    ensures item.id != "" ==> Key(item, index) == item.id
    ensures item.id == "" ==> Key(item, index) != "" && Key(item, index)[0] == 't'
                              && ReadDecimal(Key(item, index)[1..]) == index + 1
  {
    DecimalReadsBack(index + 1);
    assert ("t" + Decimal(index + 1))[1..] == Decimal(index + 1);
  }

  /** The first of these entries that goes by this key; `n` when none does. */
  function FirstOf(raw: seq<RawItem>, n: nat, key: string): (first: nat)
    requires n <= |raw|
    ensures first <= n
  {
    if n == 0 then 0
    else
      var before := FirstOf(raw, n - 1, key);
      if before < n - 1 then before
      else if Usable(raw[n - 1]) && Key(raw[n - 1], n - 1) == key then n - 1
      else n
  }

  /** Every entry with a goal has its task in the table, or gave way to a later one under the same key. */
  ghost predicate HoldsTheLast(raw: seq<RawItem>, n: nat, table: TaskTable)
    requires n <= |raw|
  {
    forall i :: 0 <= i < n && Usable(raw[i]) ==>
      Key(raw[i], i) in table.tasks && i <= table.tasks[Key(raw[i], i)].id
  }

  /** The keys are those some entry goes by, in the order in which they first came. */
  ghost predicate InOrderOfFirst(raw: seq<RawItem>, n: nat, table: TaskTable)
    requires n <= |raw|
  {
    && (forall key :: key in table.tasks <==> FirstOf(raw, n, key) < n)
    && forall a, b :: 0 <= a < b < |table.keys| ==> FirstOf(raw, n, table.keys[a]) < FirstOf(raw, n, table.keys[b])
  }

  lemma FirstStays(raw: seq<RawItem>, n: nat, key: string)
    requires 0 < n <= |raw|
    ensures FirstOf(raw, n - 1, key) < n - 1 ==> FirstOf(raw, n, key) == FirstOf(raw, n - 1, key)
    ensures FirstOf(raw, n - 1, key) >= n - 1 ==>
              FirstOf(raw, n, key) == if Usable(raw[n - 1]) && Key(raw[n - 1], n - 1) == key then n - 1 else n
  {
    hide Usable, Key;
  }

  lemma SkippedEntry(raw: seq<RawItem>, n: nat, table: TaskTable)
    requires 0 < n <= |raw| && !Usable(raw[n - 1])
    requires HoldsTheLast(raw, n - 1, table) && InOrderOfFirst(raw, n - 1, table) && table.Valid(n - 1)
    ensures HoldsTheLast(raw, n, table) && InOrderOfFirst(raw, n, table)
  {
    hide Usable, Key, FirstOf;
    forall key ensures FirstOf(raw, n, key) < n <==> FirstOf(raw, n - 1, key) < n - 1 {
      FirstStays(raw, n, key);
    }
    forall a, b | 0 <= a < b < |table.keys|
      ensures FirstOf(raw, n, table.keys[a]) < FirstOf(raw, n, table.keys[b])
    {
      assert table.keys[a] in table.keys && table.keys[b] in table.keys;
      FirstStays(raw, n, table.keys[a]);
      FirstStays(raw, n, table.keys[b]);
    }
  }

  lemma UsedEntry(raw: seq<RawItem>, n: nat, before: TaskTable, task: PlannedTask)
    requires 0 < n <= |raw| && raw[n - 1].RawItem? && Usable(raw[n - 1]) && task.id == n - 1
    requires HoldsTheLast(raw, n - 1, before) && InOrderOfFirst(raw, n - 1, before) && before.Valid(n - 1)
    ensures var table := before.With(Key(raw[n - 1], n - 1), task);
            HoldsTheLast(raw, n, table) && InOrderOfFirst(raw, n, table)
  {
    hide Usable, Key, FirstOf;
    var key := Key(raw[n - 1], n - 1);
    var table := before.With(key, task);
    forall k ensures k in table.tasks <==> FirstOf(raw, n, k) < n {
      FirstStays(raw, n, k);
    }
    forall a, b | 0 <= a < b < |table.keys|
      ensures FirstOf(raw, n, table.keys[a]) < FirstOf(raw, n, table.keys[b])
    {
      FirstStays(raw, n, table.keys[a]);
      FirstStays(raw, n, table.keys[b]);
      assert table.keys[a] == before.keys[a] && before.keys[a] in before.keys;
      if b < |before.keys| {
        assert before.keys[b] in before.keys;
      }
    }
  }

  lemma {:induction false} TableHoldsTheLast(raw: seq<RawItem>, n: nat)
    requires n <= |raw|
    ensures HoldsTheLast(raw, n, TableOf(raw, n)) && InOrderOfFirst(raw, n, TableOf(raw, n))
  {
    hide Usable, Key, Strip, HoldsTheLast, InOrderOfFirst;
    if n == 0 {
      NothingHeld(raw);
    } else {
      TableHoldsTheLast(raw, n - 1);
      TableIsValid(raw, n - 1);
      if Usable(raw[n - 1]) {
        UsableIsAnObject(raw[n - 1]);
        UsedEntry(raw, n, TableOf(raw, n - 1), PlannedTask(n - 1, Strip(raw[n - 1].goal)));
      } else {
        SkippedEntry(raw, n, TableOf(raw, n - 1));
      }
    }
  }

  lemma NothingHeld(raw: seq<RawItem>)
    ensures HoldsTheLast(raw, 0, TableOf(raw, 0)) && InOrderOfFirst(raw, 0, TableOf(raw, 0))
  {
  }

  lemma {:induction false} ReadUpToTheLimit(raw: seq<RawItem>, maxTasks: nat, from: nat)
    requires from <= |raw| && (maxTasks > 0 ==> |TableOf(raw, from).keys| < maxTasks)
    ensures var n := EntriesRead(raw, maxTasks, from);
            && (maxTasks > 0 ==> |TableOf(raw, n).keys| <= maxTasks)
            && (n < |raw| ==> |TableOf(raw, n).keys| == maxTasks)
    decreases |raw| - from
  {
    hide Usable, Key, Strip;
    if from < |raw| && !(Usable(raw[from]) && |TableOf(raw, from + 1).keys| == maxTasks) {
      OneKeyMore(raw, from);
      ReadUpToTheLimit(raw, maxTasks, from + 1);
    }
  }

  lemma OneKeyMore(raw: seq<RawItem>, n: nat)
    requires n < |raw|
    ensures |TableOf(raw, n).keys| <= |TableOf(raw, n + 1).keys| <= |TableOf(raw, n).keys| + 1
    ensures !Usable(raw[n]) ==> TableOf(raw, n + 1) == TableOf(raw, n)
  {
    hide Usable, Key, Strip;
  }

  /** A plan has no more tasks than it may, and entries are left unread only when it has as many; of those read each with a
      goal has its task, unless a later one goes by the same key; and the tasks are in the order in which their keys first
      came. */
  lemma PlansHoldWhatTheyMay(raw: seq<RawItem>, maxTasks: nat)
    requires maxTasks > 0
    ensures var n, table := EntriesRead(raw, maxTasks, 0), TableRead(raw, maxTasks);
            && |table.keys| <= maxTasks && (n < |raw| ==> |table.keys| == maxTasks)
            && InOrderOfFirst(raw, n, table)
            && (forall i :: 0 <= i < n && Usable(raw[i]) ==>
                  && Key(raw[i], i) in table.tasks && i <= table.tasks[Key(raw[i], i)].id < n
                  && var j := table.tasks[Key(raw[i], i)].id;
                     Usable(raw[j]) && Key(raw[j], j) == Key(raw[i], i)
                     && table.tasks[Key(raw[i], i)].goal == Strip(raw[j].goal))
  {
    hide Usable, Key, Strip;
    var n := EntriesRead(raw, maxTasks, 0);
    ReadUpToTheLimit(raw, maxTasks, 0);
    TableHoldsTheLast(raw, n);
    TableIsValid(raw, n);
  }
}
