/**
 * Who may act without being asked: the risk of a call, the catalog of policies and the engine that combines them
 * (domain/policies/risk.py, domain/policies/rules.py, domain/approvals/gate.py).
 */
module Policies {
  import opened Wrappers

  datatype RiskLevel = LOW | MEDIUM | HIGH | CRITICAL

  datatype Effect = READ | WRITE | EXECUTE | DELETE | SEND | PUBLISH | SPEND

  datatype Decision = ALLOW | REQUIRE_APPROVAL | DENY

  datatype PolicyDecision = PolicyDecision(decision: Decision, reason: string, risk: RiskLevel)

  datatype ToolSpec = ToolSpec(name: string, effect: Effect, risk: RiskLevel, reversible: bool)

  datatype RiskAssessment = RiskAssessment(risk: RiskLevel, reason: string)

  /** What a rule may look at. */
  datatype CallFacts = CallFacts(tool: string, effect: Effect, risk: RiskLevel, reversible: bool, riskReason: string)

  /** One action, with everything a decision may depend on: the call, and the policies the actor declared. */
  datatype PolicyRequest = PolicyRequest(call: CallFacts, policies: set<string>)

  const APPROVAL_THRESHOLD := HIGH

  function Order(level: RiskLevel): nat {
    match level
    case LOW => 0
    case MEDIUM => 1
    case HIGH => 2
    case CRITICAL => 3
  }

  predicate AtLeast(level: RiskLevel, threshold: RiskLevel) {
    Order(level) >= Order(threshold)
  }

  function Highest(a: RiskLevel, b: RiskLevel): RiskLevel {
    if Order(b) > Order(a) then b else a
  }

  function Severity(d: Decision): nat {
    match d
    case ALLOW => 0
    case REQUIRE_APPROVAL => 1
    case DENY => 2
  }

  /** How risky this call is: a reversible tool's own assessment wins either way, an irreversible tool is never below
      the threshold. */
  function ResolveRisk(spec: ToolSpec, assessment: Option<RiskAssessment>): RiskLevel {
    if spec.reversible then
      if assessment.Some? then assessment.value.risk else spec.risk
    else
      var level := Highest(spec.risk, APPROVAL_THRESHOLD);
      if assessment.Some? then Highest(level, assessment.value.risk) else level
  }

  // ----- The catalog -----

  function ReasonOr(call: CallFacts, otherwise: string): string {
    if call.riskReason != "" then call.riskReason else call.tool + otherwise
  }

  function DenyEffects(call: CallFacts, effects: set<Effect>, reason: string): Option<PolicyDecision> {
    if call.effect !in effects then None else Some(PolicyDecision(DENY, reason, call.risk))
  }

  function Irreversible(call: CallFacts): Option<PolicyDecision> {
    if call.reversible && !AtLeast(call.risk, APPROVAL_THRESHOLD) then None
    else Some(PolicyDecision(REQUIRE_APPROVAL,
                             ReasonOr(call, " cannot be undone and this employee asks before acting"), call.risk))
  }

  function ApproveEveryWrite(call: CallFacts): Option<PolicyDecision> {
    if call.effect == READ then None
    else Some(PolicyDecision(REQUIRE_APPROVAL,
                             ReasonOr(call, " changes something and this employee asks first"), call.risk))
  }

  /** The names of the catalog, sorted. */
  const CATALOG: seq<string> := [
    "approve_every_write", "no_deleting", "no_irreversible_actions", "no_publishing",
    "no_sending", "no_spending", "read_only"]

  /** What one rule of the catalog says; None when it has no opinion. */
  function Decide(name: string, call: CallFacts): Option<PolicyDecision> {
    if name == "approve_every_write" then ApproveEveryWrite(call)
    else if name == "no_deleting" then DenyEffects(call, {DELETE}, "this employee may not delete anything")
    else if name == "no_irreversible_actions" then Irreversible(call)
    else if name == "no_publishing" then DenyEffects(call, {PUBLISH}, "this employee may not publish anything")
    else if name == "no_sending" then DenyEffects(call, {SEND}, "this employee may not send anything")
    else if name == "no_spending" then DenyEffects(call, {SPEND}, "this employee may not spend money")
    else if name == "read_only" then
      DenyEffects(call, {WRITE, EXECUTE, DELETE, SEND, PUBLISH, SPEND}, "this employee is declared read-only")
    else None
  }

  function Threshold(call: CallFacts): PolicyDecision {
    if AtLeast(call.risk, APPROVAL_THRESHOLD) then
      PolicyDecision(REQUIRE_APPROVAL, ReasonOr(call, " is a risky action"), call.risk)
    else PolicyDecision(ALLOW, call.riskReason, call.risk)
  }

  // ----- The engine -----

  type Rules = string -> Option<PolicyDecision>

  /** The decisions of the declared rules that have one, in name order. */
  function Opinions(names: seq<string>, declared: set<string>, rules: Rules): seq<PolicyDecision> {
    if names == [] then []
    else
      var opinion := if names[0] in declared then rules(names[0]) else None;
      (if opinion.Some? then [opinion.value] else []) + Opinions(names[1..], declared, rules)
  }

  /** Python's `max` by severity: the first of the most severe. */
  function MostSevere(decisions: seq<PolicyDecision>): PolicyDecision
    requires decisions != []
  {
    if |decisions| == 1 then decisions[0]
    else
      var rest := MostSevere(decisions[1..]);
      if Severity(rest.decision) > Severity(decisions[0].decision) then rest else decisions[0]
  }

  /** The engine over any catalog: what the declared rules and the threshold come to. */
  function Combine(names: seq<string>, declared: set<string>, rules: Rules, threshold: PolicyDecision): PolicyDecision {
    MostSevere(Opinions(names, declared, rules) + [threshold])
  }

  function Evaluate(request: PolicyRequest): PolicyDecision {
    Combine(CATALOG, request.policies, name => Decide(name, request.call), Threshold(request.call))
  }

  /** Some declared rule says `d`. */
  ghost predicate Says(names: seq<string>, declared: set<string>, rules: Rules, d: PolicyDecision) {
    exists name :: name in names && name in declared && rules(name) == Some(d)
  }

  lemma {:induction false} MostSevereIsMax(decisions: seq<PolicyDecision>)
    requires decisions != []
    ensures MostSevere(decisions) in decisions
    ensures forall d :: d in decisions ==> Severity(d.decision) <= Severity(MostSevere(decisions).decision)
  {
    if |decisions| > 1 {
      MostSevereIsMax(decisions[1..]);
      assert decisions == [decisions[0]] + decisions[1..];
    }
  }

  lemma {:induction false} OpinionsAre(names: seq<string>, declared: set<string>, rules: Rules, d: PolicyDecision)
    ensures d in Opinions(names, declared, rules) <==> Says(names, declared, rules, d)
  {
    if names == [] {
    } else {
      OpinionsAre(names[1..], declared, rules, d);
      assert names == [names[0]] + names[1..];
      if Says(names[1..], declared, rules, d) {
        var name :| name in names[1..] && name in declared && rules(name) == Some(d);
        assert name in names;
      }
    }
  }

  /** The outcome is the threshold's or a declared rule's, and nothing declared is more severe. */
  lemma CombineIsMostSevere(names: seq<string>, declared: set<string>, rules: Rules, threshold: PolicyDecision)
    ensures var c := Combine(names, declared, rules, threshold);
            && (c == threshold || Says(names, declared, rules, c))
            && Severity(threshold.decision) <= Severity(c.decision)
            && forall d :: Says(names, declared, rules, d) ==> Severity(d.decision) <= Severity(c.decision)
  {
    var opinions := Opinions(names, declared, rules);
    var all := opinions + [threshold];
    MostSevereIsMax(all);
    forall d ensures d in all <==> d == threshold || Says(names, declared, rules, d) {
      OpinionsAre(names, declared, rules, d);
    }
  }

  /** Some policy the actor declared answers this request with `d`. */
  ghost predicate Declares(request: PolicyRequest, d: Decision) {
    exists p: PolicyDecision :: p.decision == d && Says(CATALOG, request.policies, name => Decide(name, request.call), p)
  }

  /** What the engine decides, whatever the order of the rules: DENY exactly when a declared rule denies; otherwise
      asking exactly when a declared rule asks or the risk is at the threshold; otherwise ALLOW. */
  lemma EvaluateDecides(request: PolicyRequest)
    ensures Evaluate(request).decision == DENY <==> Declares(request, DENY)
    ensures Evaluate(request).decision == ALLOW <==>
              !Declares(request, DENY) && !Declares(request, REQUIRE_APPROVAL) && !AtLeast(request.call.risk, HIGH)
  {
    CombineIsMostSevere(CATALOG, request.policies, name => Decide(name, request.call), Threshold(request.call));
  }

  /** A declaration can only narrow: more policies never make the decision milder. */
  lemma MorePoliciesNeverMilder(request: PolicyRequest, more: set<string>)
    requires request.policies <= more
    ensures Severity(Evaluate(request).decision) <= Severity(Evaluate(request.(policies := more)).decision)
  {
    var rules: Rules := name => Decide(name, request.call);
    CombineIsMostSevere(CATALOG, request.policies, rules, Threshold(request.call));
    CombineIsMostSevere(CATALOG, more, rules, Threshold(request.call));
    forall d | Says(CATALOG, request.policies, rules, d) ensures Says(CATALOG, more, rules, d) {
      var name :| name in CATALOG && name in request.policies && rules(name) == Some(d);
    }
  }

  /** Whatever is declared, a call at the threshold and a call of an irreversible tool are never simply allowed. */
  lemma RiskyCallsAreNeverAllowed(spec: ToolSpec, assessment: Option<RiskAssessment>, request: PolicyRequest)
    requires request.call.risk == ResolveRisk(spec, assessment)
    ensures !spec.reversible ==> AtLeast(request.call.risk, HIGH)
    ensures AtLeast(request.call.risk, HIGH) ==> Evaluate(request).decision != ALLOW
  {
    EvaluateDecides(request);
  }

  /** An employee declared read-only is denied everything but reading; without any policy it is asked about exactly
      what is risky. */
  lemma ReadOnlyDeniesEveryChange(request: PolicyRequest)
    ensures "read_only" in request.policies && request.call.effect != READ ==> Evaluate(request).decision == DENY
    ensures request.policies == {} ==>
              Evaluate(request).decision == if AtLeast(request.call.risk, HIGH) then REQUIRE_APPROVAL else ALLOW
  {
    EvaluateDecides(request);
    if "read_only" in request.policies && request.call.effect != READ {
      var p := PolicyDecision(DENY, "this employee is declared read-only", request.call.risk);
      assert CATALOG[6] == "read_only" && Decide("read_only", request.call) == Some(p);
      assert Says(CATALOG, request.policies, name => Decide(name, request.call), p);
    }
  }

  /** Some declared policy forbids this kind of action. */
  predicate Forbids(policies: set<string>, effect: Effect) {
    || ("read_only" in policies && effect != READ)
    || ("no_deleting" in policies && effect == DELETE)
    || ("no_publishing" in policies && effect == PUBLISH)
    || ("no_sending" in policies && effect == SEND)
    || ("no_spending" in policies && effect == SPEND)
  }

  lemma DeclaredDenial(request: PolicyRequest, k: nat)
    requires k < |CATALOG| && CATALOG[k] in request.policies
    requires Decide(CATALOG[k], request.call).Some? && Decide(CATALOG[k], request.call).value.decision == DENY
    ensures Declares(request, DENY)
  {
    hide Decide;
    assert Says(CATALOG, request.policies, name => Decide(name, request.call), Decide(CATALOG[k], request.call).value);
  }

  lemma WhoDenies(call: CallFacts, name: string)
    ensures (Decide(name, call).Some? && Decide(name, call).value.decision == DENY) <==> Forbids({name}, call.effect)
  {
  }

  lemma ForbidsOne(policies: set<string>, effect: Effect) returns (k: nat)
    ensures Forbids(policies, effect) <==> k < |CATALOG| && CATALOG[k] in policies && Forbids({CATALOG[k]}, effect)
    ensures forall name :: name in policies && Forbids({name}, effect) ==> Forbids(policies, effect)
  {
    k := if "read_only" in policies && effect != READ then 6 else if effect == DELETE then 1
         else if effect == PUBLISH then 3 else if effect == SEND then 4 else 5;
  }

  /** A denial depends on nothing but what the tool does and what is declared: no tool can talk its way out of one, or
      into one, by what it says of a call. */
  lemma DeniedIffForbidden(request: PolicyRequest)
    ensures Evaluate(request).decision == DENY <==> Forbids(request.policies, request.call.effect)
  {
    hide Evaluate, Decide, Forbids, CATALOG;
    EvaluateDecides(request);
    var rules: Rules := name => Decide(name, request.call);
    var k := ForbidsOne(request.policies, request.call.effect);
    if Declares(request, DENY) {
      var p: PolicyDecision :| p.decision == DENY && Says(CATALOG, request.policies, rules, p);
      var name :| name in CATALOG && name in request.policies && rules(name) == Some(p);
      WhoDenies(request.call, name);
    }
    if Forbids(request.policies, request.call.effect) {
      WhoDenies(request.call, CATALOG[k]);
      DeclaredDenial(request, k);
    }
  }

  // ----- When somebody is asked -----

  /** A declared policy, or the risk of the call, puts it to a person. */
  predicate AsksAbout(policies: set<string>, call: CallFacts) {
    || ("approve_every_write" in policies && call.effect != READ)
    || ("no_irreversible_actions" in policies && !call.reversible)
    || call.risk in {HIGH, CRITICAL}
  }

  lemma WhoAsks(call: CallFacts, name: string)
    ensures Decide(name, call).Some? && Decide(name, call).value.decision == REQUIRE_APPROVAL <==>
            || (name == "approve_every_write" && call.effect != READ)
            || (name == "no_irreversible_actions" && (!call.reversible || call.risk in {HIGH, CRITICAL}))
  {
  }

  lemma DeclaredAsking(request: PolicyRequest, k: nat)
    requires k < |CATALOG| && CATALOG[k] in request.policies
    requires Decide(CATALOG[k], request.call).Some?
    requires Decide(CATALOG[k], request.call).value.decision == REQUIRE_APPROVAL
    ensures Declares(request, REQUIRE_APPROVAL)
  {
    hide Decide;
    assert Says(CATALOG, request.policies, name => Decide(name, request.call), Decide(CATALOG[k], request.call).value);
  }

  lemma DeclaresAskingIff(request: PolicyRequest)
    ensures Declares(request, REQUIRE_APPROVAL) ==> AsksAbout(request.policies, request.call)
    ensures "approve_every_write" in request.policies && request.call.effect != READ ==>
              Declares(request, REQUIRE_APPROVAL)
    ensures "no_irreversible_actions" in request.policies && !request.call.reversible ==>
              Declares(request, REQUIRE_APPROVAL)
  {
    hide Decide;
    var rules: Rules := name => Decide(name, request.call);
    assert CATALOG[0] == "approve_every_write" && CATALOG[2] == "no_irreversible_actions";
    WhoAsks(request.call, CATALOG[0]);
    WhoAsks(request.call, CATALOG[2]);
    if "approve_every_write" in request.policies && request.call.effect != READ {
      DeclaredAsking(request, 0);
    }
    if "no_irreversible_actions" in request.policies && !request.call.reversible {
      DeclaredAsking(request, 2);
    }
    if Declares(request, REQUIRE_APPROVAL) {
      var p: PolicyDecision :| p.decision == REQUIRE_APPROVAL && Says(CATALOG, request.policies, rules, p);
      var name :| name in CATALOG && name in request.policies && rules(name) == Some(p);
      WhoAsks(request.call, name);
    }
  }

  /** The engine, by what is declared: it denies exactly what is forbidden; of the rest it asks exactly about changes when
      every write is to be approved, about irreversible tools when those are, and about whatever is at HIGH or above;
      everything else is allowed. */
  lemma DecisionTable(request: PolicyRequest)
    ensures var d := Evaluate(request).decision;
            var forbidden := Forbids(request.policies, request.call.effect);
            var asked := AsksAbout(request.policies, request.call);
            && (d == DENY <==> forbidden)
            && (d == REQUIRE_APPROVAL <==> !forbidden && asked)
            && (d == ALLOW <==> !forbidden && !asked)
  {
    hide Evaluate, Decide, Forbids, Declares;
    EvaluateDecides(request);
    DeniedIffForbidden(request);
    DeclaresAskingIff(request);
  }

  /** A call is at HIGH or above exactly when its tool cannot be undone, or it was assessed so, or, unassessed, its tool
      is: a tool's own word on the call counts either way when the tool is reversible. */
  lemma RiskyIff(spec: ToolSpec, assessment: Option<RiskAssessment>)
    ensures ResolveRisk(spec, assessment) in {HIGH, CRITICAL} <==>
            || !spec.reversible
            || (if assessment.Some? then assessment.value.risk else spec.risk) in {HIGH, CRITICAL}
    ensures ResolveRisk(spec, assessment) == CRITICAL <==>
            if assessment.Some? && spec.reversible then assessment.value.risk == CRITICAL
            else spec.risk == CRITICAL || (assessment.Some? && assessment.value.risk == CRITICAL)
  {
  }
}
