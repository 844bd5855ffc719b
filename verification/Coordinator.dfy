/**
 * What one employee is told about another's work (application/workforce/coordinator.py).
 *
 * The order in which a set of task ids is enumerated is not the coordinator's to choose; it is a parameter, any
 * function that lists every member of a set once.
 */
module Coordinator {
  import opened Wrappers
  import opened Text
  import opened Tasks
  import opened Plans

  datatype SharedContext = SharedContext(
    facts: seq<string>, constraints: seq<string>, artifacts: seq<string>, data: map<string, string>)

  /** What the coordinator keeps of a completed task. */
  datatype Handover = Handover(summary: string, artifacts: seq<string>)

  type Results = map<TaskId, Handover>

  type Enumeration = set<TaskId> -> seq<TaskId>

  ghost predicate Lists(order: Enumeration, ids: set<TaskId>) {
    && (forall id :: id in order(ids) <==> id in ids)
    && (forall i, j :: 0 <= i < j < |order(ids)| ==> order(ids)[i] != order(ids)[j])
  }

  /** Only a completed task hands something on, and only when its summary says something. */
  function HandoverOf(finished: Task): (h: Option<Handover>)
    ensures h.Some? <==> finished.status == COMPLETED && finished.result.Some? && !Blank(finished.result.value.summary)
  {
    if finished.status != COMPLETED || finished.result.None? then None
    else
      var summary := Strip(finished.result.value.summary);
      StripIsTrimmed(finished.result.value.summary);
      if summary == "" then None else Some(Handover(summary, finished.result.value.artifacts))
  }

  function Recorded(results: Results, id: TaskId, finished: Task): Results {
    var h := HandoverOf(finished);
    if h.None? then results else results[id := h.value]
  }

  function GoalAmong(tasks: seq<PlannedTask>, id: TaskId): string {
    if tasks == [] then "an earlier task"
    else if tasks[0].id == id then tasks[0].goal
    else GoalAmong(tasks[1..], id)
  }

  function FactFrom(plan: Plan, results: Results, id: TaskId): string
    requires id in results
  {
    GoalAmong(plan.tasks, id) + " -> " + results[id].summary
  }

  function Facts(plan: Plan, results: Results, ids: seq<TaskId>): seq<string> {
    if ids == [] then []
    else
      var last := ids[|ids| - 1];
      Facts(plan, results, ids[..|ids| - 1]) + if last in results then [FactFrom(plan, results, last)] else []
  }

  function Artifacts(results: Results, ids: seq<TaskId>): seq<string> {
    if ids == [] then []
    else
      var last := ids[|ids| - 1];
      Artifacts(results, ids[..|ids| - 1]) + if last in results then results[last].artifacts else []
  }

  /** Each entry where it first appears: the keys of a dictionary made from a list. */
  function Unique(list: seq<string>): (u: seq<string>)
    ensures forall x :: x in u <==> x in list
    ensures forall i, j :: 0 <= i < j < |u| ==> u[i] != u[j]
  {
    if list == [] then []
    else
      var before, last := Unique(list[..|list| - 1]), list[|list| - 1];
      assert list == list[..|list| - 1] + [last];
      if last in before then before else before + [last]
  }

  function ContextFor(
      plan: Plan, baseline: SharedContext, order: Enumeration, results: Results, id: TaskId): SharedContext
  {
    var others := order(DependsOn(plan, id));
    SharedContext(
      baseline.facts + Facts(plan, results, others),
      baseline.constraints,
      Unique(baseline.artifacts + Artifacts(results, others)),
      baseline.data)
  }

  class WorkforceCoordinator {
    const plan: Plan
    const baseline: SharedContext
    const order: Enumeration
    var results: Results

    constructor (plan: Plan, baseline: SharedContext, order: Enumeration)
      ensures this.plan == plan && this.baseline == baseline && this.order == order && results == map[]
    {
      this.plan, this.baseline, this.order := plan, baseline, order;
      results := map[];
    }

    method Record(planned: TaskId, finished: Task)
      modifies this
      ensures results == Recorded(old(results), planned, finished)
    {
      if finished.status != COMPLETED || finished.result.None? {
        return;
      }
      var summary := Strip(finished.result.value.summary);
      if summary == "" {
        return;
      }
      results := results[planned := Handover(summary, finished.result.value.artifacts)];
    }

    /** The baseline, and what was kept of the direct dependencies, dependency by dependency. */
    method Share(planned: TaskId) returns (context: SharedContext)
      ensures context == ContextFor(plan, baseline, order, results, planned)
    {
      var facts, artifacts := baseline.facts, baseline.artifacts;
      var others := order(DependsOn(plan, planned));
      assert others[..0] == [];
      for k := 0 to |others|
        invariant facts == baseline.facts + Facts(plan, results, others[..k])
        invariant artifacts == baseline.artifacts + Artifacts(results, others[..k])
      {
        var other := others[k];
        assert others[..k + 1][..k] == others[..k];
        if other in results {
          facts := facts + [FactFrom(plan, results, other)];
          artifacts := artifacts + results[other].artifacts;
          assert baseline.artifacts + Artifacts(results, others[..k]) + results[other].artifacts ==
                 baseline.artifacts + (Artifacts(results, others[..k]) + results[other].artifacts);
        }
      }
      assert others[..|others|] == others;
      return SharedContext(facts, baseline.constraints, Unique(artifacts), baseline.data);
    }
  }

  // ----- Nothing but the direct dependencies -----

  /** Two sets of results with the same entries for these tasks. */
  ghost predicate SameFor(a: Results, b: Results, ids: set<TaskId>) {
    forall id :: id in ids ==> (id in a <==> id in b) && (id in a ==> a[id] == b[id])
  }

  lemma {:induction false} SameFacts(plan: Plan, a: Results, b: Results, ids: seq<TaskId>)
    requires forall id :: id in ids ==> (id in a <==> id in b) && (id in a ==> a[id] == b[id])
    ensures Facts(plan, a, ids) == Facts(plan, b, ids) && Artifacts(a, ids) == Artifacts(b, ids)
  {
    if ids == [] {
    } else {
      assert ids[|ids| - 1] in ids;
      SameFacts(plan, a, b, ids[..|ids| - 1]);
    }
  }

  /** A task's context depends on nothing but what its direct dependencies handed over. */
  lemma ContextIsLocal(plan: Plan, baseline: SharedContext, order: Enumeration, a: Results, b: Results, id: TaskId)
    requires Lists(order, DependsOn(plan, id)) && SameFor(a, b, DependsOn(plan, id))
    ensures ContextFor(plan, baseline, order, a, id) == ContextFor(plan, baseline, order, b, id)
  {
    SameFacts(plan, a, b, order(DependsOn(plan, id)));
  }

  /** Some listed task handed this over. */
  ghost predicate HandedBy(plan: Plan, results: Results, ids: seq<TaskId>, fact: string) {
    exists id :: id in ids && id in results && fact == FactFrom(plan, results, id)
  }

  lemma {:induction false} FactsAreHanded(plan: Plan, results: Results, ids: seq<TaskId>, fact: string)
    ensures fact in Facts(plan, results, ids) <==> HandedBy(plan, results, ids, fact)
  {
    if ids == [] {
    } else {
      var before, last := ids[..|ids| - 1], ids[|ids| - 1];
      FactsAreHanded(plan, results, before, fact);
      assert ids == before + [last];
    }
  }

  lemma {:induction false} ArtifactsAreHanded(results: Results, ids: seq<TaskId>, name: string)
    ensures name in Artifacts(results, ids) <==> exists id :: id in ids && id in results && name in results[id].artifacts
  {
    if ids == [] {
    } else {
      var before, last := ids[..|ids| - 1], ids[|ids| - 1];
      ArtifactsAreHanded(results, before, name);
      assert ids == before + [last];
    }
  }

  /** A task is told the baseline and, for each direct dependency that handed something over, that; every file is named
      once. Nothing a task further up the plan produced is in there. */
  lemma ContextIsWhatWasHanded(
      plan: Plan, baseline: SharedContext, order: Enumeration, results: Results, id: TaskId, fact: string, name: string)
    requires Lists(order, DependsOn(plan, id))
    ensures var c := ContextFor(plan, baseline, order, results, id);
            && baseline.facts <= c.facts
            && (fact in c.facts[|baseline.facts|..] <==>
                  exists d :: d in DependsOn(plan, id) && d in results && fact == FactFrom(plan, results, d))
            && (name in c.artifacts <==>
                  name in baseline.artifacts
                  || exists d :: d in DependsOn(plan, id) && d in results && name in results[d].artifacts)
            && (forall i, j :: 0 <= i < j < |c.artifacts| ==> c.artifacts[i] != c.artifacts[j])
            && c.constraints == baseline.constraints && c.data == baseline.data
  {
    var others := order(DependsOn(plan, id));
    FactsAreHanded(plan, results, others, fact);
    ArtifactsAreHanded(results, others, name);
    var c := ContextFor(plan, baseline, order, results, id);
    assert c.facts[|baseline.facts|..] == Facts(plan, results, others);
  }
}
