/**
 * The default policy setup: for each of three resources an approval request is submitted by
 * `"system"`, and a rule that needs that approval, lets only `"admin"` in and grants one
 * permission is added under the resource.
 */
module DefaultPolicies {
  import opened Results
  import opened Dicts
  import opened Text
  import opened Audit
  import opened PolicyEngine

  /** The rule `register_default_policies` adds for `permission`, tied to the approval `requestId`. */
  function DefaultRule(permission: string, requestId: string): Rule {
    Rule({permission}, Some({"admin"}), true, Some(requestId))
  }

  /** The stored rule under `resourceId` is the default rule for `permission` and `requestId`, on a new object. */
  ghost predicate HoldsDefault(engine: PolicyEngine, resourceId: string, permission: string, requestId: string)
    reads engine, engine.rules.Values
  {
    resourceId in engine.rules && engine.rules[resourceId].View() == DefaultRule(permission, requestId)
  }

  /** One block of `register_default_policies`: submit the approval, then add the rule that needs it. */
  method AddDefault(engine: PolicyEngine, resourceId: string, permission: string, now: string)
    returns (id: string, rule: AccessRule)
    requires engine.Valid()
    modifies engine, engine.approvals, engine.approvals.store
    ensures engine.Valid() && engine.approvals.counter == old(engine.approvals.counter) + 1
    ensures id == RequestId(engine.approvals.counter)
    ensures |NatToString(engine.approvals.counter)| <= MaxStrDigits ==> id !in old(engine.approvals.requests.m)
    ensures engine.approvals.requests == old(engine.approvals.requests).Put(id,
      ApprovalRequest(id, permission, resourceId, "system", "pending", now))
    ensures engine.rules == old(engine.rules)[resourceId := rule]
    ensures fresh(rule) && rule.View() == DefaultRule(permission, id)
  {
    var approval := engine.approvals.Submit(permission, resourceId, "system", now);
    rule := new AccessRule({permission}, Some({"admin"}), true, Some(approval.requestId));
    engine.AddRule(resourceId, rule);
    id := approval.requestId;
  }

  /**
   * `register_default_policies`: three submits in order, for `tool:calculator`,
   * `agent:finance_agent` and `workflow:workflow`, each followed by its rule, so the rules carry
   * the next three approval ids and those requests are pending, submitted by `"system"`.
   */
  method RegisterDefaultPolicies(engine: PolicyEngine, now: string)
    requires engine.Valid()
    modifies engine, engine.approvals, engine.approvals.store
    ensures engine.Valid() && engine.approvals.counter == old(engine.approvals.counter) + 3
    ensures "tool:calculator" in engine.rules && "agent:finance_agent" in engine.rules && "workflow:workflow" in engine.rules
    ensures engine.rules == old(engine.rules)["tool:calculator" := engine.rules["tool:calculator"]]
      ["agent:finance_agent" := engine.rules["agent:finance_agent"]]["workflow:workflow" := engine.rules["workflow:workflow"]]
    ensures engine.rules["tool:calculator"].View() == DefaultRule("tool.execute", RequestId(old(engine.approvals.counter) + 1))
    ensures engine.rules["agent:finance_agent"].View() == DefaultRule("agent.execute", RequestId(old(engine.approvals.counter) + 2))
    ensures engine.rules["workflow:workflow"].View() == DefaultRule("workflow.execute", RequestId(old(engine.approvals.counter) + 3))
    ensures engine.approvals.Get(RequestId(old(engine.approvals.counter) + 1)) == Some(
      ApprovalRequest(RequestId(old(engine.approvals.counter) + 1), "tool.execute", "tool:calculator", "system", "pending", now))
    ensures engine.approvals.Get(RequestId(old(engine.approvals.counter) + 2)) == Some(
      ApprovalRequest(RequestId(old(engine.approvals.counter) + 2), "agent.execute", "agent:finance_agent", "system", "pending", now))
    ensures engine.approvals.Get(RequestId(old(engine.approvals.counter) + 3)) == Some(
      ApprovalRequest(RequestId(old(engine.approvals.counter) + 3), "workflow.execute", "workflow:workflow", "system", "pending", now))
  {
    ghost var c := engine.approvals.counter;
    var toolId, toolRule := AddDefault(engine, "tool:calculator", "tool.execute", now);
    assert toolId == RequestId(c + 1);
    var agentId, agentRule := AddDefault(engine, "agent:finance_agent", "agent.execute", now);
    assert agentId == RequestId(c + 2);
    var workflowId, workflowRule := AddDefault(engine, "workflow:workflow", "workflow.execute", now);
    assert workflowId == RequestId(c + 3);
    RequestIdInjective(c + 1, c + 2);
    RequestIdInjective(c + 1, c + 3);
    RequestIdInjective(c + 2, c + 3);
    assert engine.rules == old(engine.rules)["tool:calculator" := toolRule]["agent:finance_agent" := agentRule]
      ["workflow:workflow" := workflowRule];
  }

  /**
   * Until its request is approved, a default rule denies every user and every permission: the
   * approval is checked first.
   */
  lemma DefaultDeniesUntilApproved(permission: string, requestId: string, approval: Option<ApprovalRequest>,
                                   resourceId: string)
    requires !Approved(approval)
    ensures forall userId, p ::
      Verdict(DefaultRule(permission, requestId), approval, userId, resourceId, p) == Fail(ApprovalRequiredError(resourceId))
  {
  }

  /** Once approved, a default rule lets `"admin"` use its one permission and nobody else anything. */
  lemma DefaultAfterApproval(permission: string, requestId: string, approval: Option<ApprovalRequest>,
                             resourceId: string)
    requires Approved(approval)
    ensures forall userId, p ::
      Verdict(DefaultRule(permission, requestId), approval, userId, resourceId, p).Pass? <==> userId == "admin" && p == permission
  {
  }
}
