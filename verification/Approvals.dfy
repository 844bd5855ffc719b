/**
 * The gate between the executor and a tool (application/employee_runtime/approvals.py).
 *
 * `Check` is the gate as a function: its outcome and what it did on the way. `ApprovalGate.Check` does it step by step
 * on the journal, including the status that is restored whatever became of the question.
 */
module Approvals {
  import opened Wrappers
  import opened Transcripts
  import opened Tasks
  import opened Policies
  import opened Worlds

  datatype GateOutcome = Allowed | Refused(reason: string) | Broken(error: Exception)

  datatype Checked = Checked(outcome: GateOutcome, acts: seq<Act>)

  function RequestFor(e: Employee, spec: ToolSpec, assessment: Option<RiskAssessment>): PolicyRequest {
    PolicyRequest(
      CallFacts(spec.name, spec.effect, ResolveRisk(spec, assessment), spec.reversible,
                if assessment.Some? then assessment.value.reason else ""),
      e.policies)
  }

  /** The tool's assessment of the call, when it makes one. */
  function AssessmentOf(j: Judgement): Option<RiskAssessment> {
    if j.Judged? then Some(j.assessment) else None
  }

  function NotApproved(spec: ToolSpec, reason: string): string {
    spec.name + " was not approved: " + reason
  }

  /** Asking: parked before the question, running again after it. */
  function Ask(w: World, t: Transcript, call: ToolCall, spec: ToolSpec, reason: string): Checked {
    match w.answer(t, call)
    case NoAnswer(error) => Checked(Broken(error), [Told(WAITING_FOR_APPROVAL), Told(RUNNING)])
    case Answered(state) =>
      Checked(if state == APPROVED then Allowed else Refused(NotApproved(spec, reason)),
              [Told(WAITING_FOR_APPROVAL), Heard(spec.name, state), Told(RUNNING)])
  }

  function Check(e: Employee, w: World, t: Transcript, call: ToolCall, spec: ToolSpec): Checked {
    var judgement := w.assess(t, call);
    if judgement.JudgementFailed? then Checked(Broken(judgement.error), [])
    else
      var d := Evaluate(RequestFor(e, spec, AssessmentOf(judgement)));
      var decided := [Decided(spec.name, d.decision)];
      match d.decision
      case ALLOW => Checked(Allowed, decided)
      case DENY => Checked(Refused(NotApproved(spec, d.reason)), decided)
      case REQUIRE_APPROVAL =>
        if !e.approver then Checked(Refused(NotApproved(spec, "no approver is configured")), decided)
        else
          var asked := Ask(w, t, call, spec, d.reason);
          Checked(asked.outcome, decided + asked.acts)
  }

  class ApprovalGate {
    const employee: Employee
    const world: World
    const journal: Journal

    constructor (employee: Employee, world: World, journal: Journal)
      ensures this.employee == employee && this.world == world && this.journal == journal
    {
      this.employee, this.world, this.journal := employee, world, journal;
    }

    /** `_ask`: the task is marked as waiting while the question is open, and as running afterwards, answer or not. */
    method AskPerson(t: Transcript, call: ToolCall, spec: ToolSpec, reason: string) returns (outcome: GateOutcome)
      modifies journal
      ensures outcome == Ask(world, t, call, spec, reason).outcome
      ensures journal.acts == old(journal.acts) + Ask(world, t, call, spec, reason).acts
    {
      journal.Record(Told(WAITING_FOR_APPROVAL));
      var answer := world.answer(t, call);
      if answer.Answered? {
        journal.Record(Heard(spec.name, answer.state));
      }
      journal.Record(Told(RUNNING));
      match answer
      case NoAnswer(error) => outcome := Broken(error);
      case Answered(state) =>
        outcome := if state == APPROVED then Allowed else Refused(NotApproved(spec, reason));
    }

    method CheckCall(t: Transcript, call: ToolCall, spec: ToolSpec) returns (outcome: GateOutcome)
      modifies journal
      ensures outcome == Check(employee, world, t, call, spec).outcome
      ensures journal.acts == old(journal.acts) + Check(employee, world, t, call, spec).acts
    {
      var judgement := world.assess(t, call);
      if judgement.JudgementFailed? {
        return Broken(judgement.error);
      }
      var d := Evaluate(RequestFor(employee, spec, AssessmentOf(judgement)));
      journal.Record(Decided(spec.name, d.decision));
      if d.decision == ALLOW {
        return Allowed;
      }
      if d.decision == DENY {
        return Refused(NotApproved(spec, d.reason));
      }
      if !employee.approver {
        return Refused(NotApproved(spec, "no approver is configured"));
      }
      outcome := AskPerson(t, call, spec, d.reason);
    }
  }

  // ----- What the acts of a gate look like -----

  /** A tool is entered only right after the engine allowed the call, or right after the status came back from a
      question that was answered with an approval. */
  ghost predicate Licensed(acts: seq<Act>, k: nat)
    requires k < |acts|
  {
    acts[k].Executed? ==>
      || (k >= 1 && acts[k - 1] == Decided(acts[k].tool, ALLOW))
      || (k >= 4 && acts[k - 1] == Told(RUNNING) && acts[k - 2] == Heard(acts[k].tool, APPROVED)
          && acts[k - 3] == Told(WAITING_FOR_APPROVAL) && acts[k - 4] == Decided(acts[k].tool, REQUIRE_APPROVAL))
  }

  /** Every question is put after the engine asked for one, and the task is running again right after it. */
  ghost predicate QuestionsAreClosed(acts: seq<Act>, k: nat)
    requires k < |acts|
  {
    acts[k] == Told(WAITING_FOR_APPROVAL) ==>
      && k >= 1 && acts[k - 1].Decided? && acts[k - 1].decision == REQUIRE_APPROVAL
      && (|| (k + 1 < |acts| && acts[k + 1] == Told(RUNNING))
          || (k + 2 < |acts| && acts[k + 1].Heard? && acts[k + 2] == Told(RUNNING)))
  }

  /** A status is only ever told around a question. */
  ghost predicate OnlyGateStatuses(acts: seq<Act>, k: nat)
    requires k < |acts|
  {
    acts[k].Told? ==>
      || acts[k].status == WAITING_FOR_APPROVAL
      || (acts[k].status == RUNNING && k >= 1 &&
          (acts[k - 1] == Told(WAITING_FOR_APPROVAL) ||
           (k >= 2 && acts[k - 1].Heard? && acts[k - 2] == Told(WAITING_FOR_APPROVAL))))
  }

  ghost predicate Orderly(acts: seq<Act>) {
    forall k: nat :: k < |acts| ==> Licensed(acts, k) && QuestionsAreClosed(acts, k) && OnlyGateStatuses(acts, k)
  }

  lemma OrderlyAppend(a: seq<Act>, b: seq<Act>)
    requires Orderly(a) && Orderly(b)
    ensures Orderly(a + b)
  {
    forall k: nat | k < |a + b|
      ensures Licensed(a + b, k) && QuestionsAreClosed(a + b, k) && OnlyGateStatuses(a + b, k)
    {
      if k < |a| {
        assert Licensed(a, k) && QuestionsAreClosed(a, k) && OnlyGateStatuses(a, k);
      } else {
        var j := k - |a|;
        assert Licensed(b, j) && QuestionsAreClosed(b, j) && OnlyGateStatuses(b, j);
      }
    }
  }

  /** The gate followed by the call it allowed, or by nothing. */
  lemma GateIsOrderly(e: Employee, w: World, t: Transcript, call: ToolCall, spec: ToolSpec)
    ensures Orderly(Check(e, w, t, call, spec).acts)
    ensures Check(e, w, t, call, spec).outcome == Allowed ==>
              Orderly(Check(e, w, t, call, spec).acts + [Executed(spec.name)])
  {
    hide Orderly, Evaluate;
    OneDecision(spec.name, ALLOW);
    OneDecision(spec.name, REQUIRE_APPROVAL);
    OneDecision(spec.name, DENY);
    var answer := w.answer(t, call);
    OneQuestion(spec.name, answer);
    assert Orderly([]) by { NothingDone(); }
  }

  lemma NothingDone()
    ensures Orderly([])
  {
  }

  lemma OneDecision(tool: string, d: Decision)
    ensures Orderly([Decided(tool, d)])
    ensures d == ALLOW ==> Orderly([Decided(tool, d)] + [Executed(tool)])
  {
  }

  lemma OneQuestion(tool: string, answer: Answer)
    ensures var asked := [Decided(tool, REQUIRE_APPROVAL)];
            match answer
            case NoAnswer(_) => Orderly(asked + [Told(WAITING_FOR_APPROVAL), Told(RUNNING)])
            case Answered(state) =>
              var heard := asked + [Told(WAITING_FOR_APPROVAL), Heard(tool, state), Told(RUNNING)];
              Orderly(heard) && (state == APPROVED ==> Orderly(heard + [Executed(tool)]))
  {
  }

  /** Whatever the employee declared: a call of an irreversible tool, and one resolved to HIGH or above, is let through
      only by an approval, and a denied call is put to nobody. */
  lemma WhoMayProceed(e: Employee, w: World, t: Transcript, call: ToolCall, spec: ToolSpec)
    ensures var c := Check(e, w, t, call, spec);
            var risk := ResolveRisk(spec, AssessmentOf(w.assess(t, call)));
            && (c.outcome == Allowed && (!spec.reversible || AtLeast(risk, HIGH)) ==>
                  e.approver && w.answer(t, call) == Answered(APPROVED) && Heard(spec.name, APPROVED) in c.acts)
            && (Decided(spec.name, DENY) in c.acts ==> c.acts == [Decided(spec.name, DENY)] && c.outcome.Refused?)
            && ((exists state :: Heard(spec.name, state) in c.acts) ==> Decided(spec.name, REQUIRE_APPROVAL) in c.acts)
  {
    var assessment := AssessmentOf(w.assess(t, call));
    RiskyCallsAreNeverAllowed(spec, assessment, RequestFor(e, spec, assessment));
  }

  /** The call is put to a person, unless it is forbidden: its tool cannot be undone, or it is assessed - or unassessed,
      declared - as risky, or it changes something and every change is to be approved. */
  predicate NeedsApproval(e: Employee, spec: ToolSpec, judgement: Judgement) {
    || !spec.reversible
    || (if judgement.Judged? then judgement.assessment.risk else spec.risk) in {HIGH, CRITICAL}
    || ("approve_every_write" in e.policies && spec.effect != READ)
  }

  /** Who gets to a tool, start to end: nobody whose policies forbid what it does; everybody else whose call needs no
      approval; and whoever needs one exactly when there is somebody to ask and the answer is an approval. */
  lemma WhoIsLetThrough(e: Employee, w: World, t: Transcript, call: ToolCall, spec: ToolSpec)
    ensures var c, judgement, answer := Check(e, w, t, call, spec), w.assess(t, call), w.answer(t, call);
            var open := !judgement.JudgementFailed? && !Forbids(e.policies, spec.effect);
            var asked := open && NeedsApproval(e, spec, judgement) && e.approver;
            && (c.outcome == Allowed <==>
                  open && (!NeedsApproval(e, spec, judgement) || (asked && answer == Answered(APPROVED))))
            && (Told(WAITING_FOR_APPROVAL) in c.acts <==> asked)
            && (c.outcome.Broken? <==> judgement.JudgementFailed? || (asked && answer.NoAnswer?))
            && (c.outcome.Broken? ==>
                  c.outcome.error == if judgement.JudgementFailed? then judgement.error else answer.error)
            && (forall tool, state :: Heard(tool, state) in c.acts <==>
                  asked && answer == Answered(state) && tool == spec.name)
  {
    hide Evaluate, Forbids, ResolveRisk;
    var assessment := AssessmentOf(w.assess(t, call));
    DecisionTable(RequestFor(e, spec, assessment));
    RiskyIff(spec, assessment);
  }
}
