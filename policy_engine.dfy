/**
 * The resource-level ACL policy engine. A rule for a resource may demand an approval request,
 * restrict the users, and lists the permissions it grants. `check` raises `PermissionDenied`
 * (an `Outcome.Fail` here) or returns. A permission is its string value (`"tool.execute"`), and
 * the user's role-based `has_permission` is a function parameter.
 */
module PolicyEngine {
  import opened Results
  import opened Dicts
  import opened Text
  import opened Audit

  /** The fields of an `AccessRule`, as a value. */
  datatype Rule = Rule(permissions: set<string>, allowedUsers: Option<set<string>>, requiresApproval: bool,
                       approvalRequestId: Option<string>)

  /** `AccessRule`: a mutable dataclass, shared between the caller and the engine. */
  class AccessRule {
    const permissions: set<string>
    const allowedUsers: Option<set<string>>
    const requiresApproval: bool
    var approvalRequestId: Option<string>

    constructor (permissions: set<string>, allowedUsers: Option<set<string>>, requiresApproval: bool,
                 approvalRequestId: Option<string>)
      ensures View() == Rule(permissions, allowedUsers, requiresApproval, approvalRequestId)
    {
      this.permissions := permissions;
      this.allowedUsers := allowedUsers;
      this.requiresApproval := requiresApproval;
      this.approvalRequestId := approvalRequestId;
    }

    function View(): Rule
      reads this
    {
      Rule(permissions, allowedUsers, requiresApproval, approvalRequestId)
    }
  }

  /** `if not rule.approval_request_id`: `None` and `""` both mean that no request was made. */
  predicate HasRequestId(id: Option<string>) {
    id.Some? && id.value != ""
  }

  /** `if rule.allowed_users`: `None` and the empty set both leave the users unrestricted. */
  predicate RestrictsUsers(rule: Rule) {
    rule.allowedUsers.Some? && rule.allowedUsers.value != {}
  }

  /** `approval` is present and approved. */
  predicate Approved(approval: Option<ApprovalRequest>) {
    approval.Some? && approval.value.status == "approved"
  }

  function ApprovalRequiredError(resourceId: string): string {
    "PermissionDenied: Approval required for resource " + resourceId
  }

  function UserNotAllowedError(userId: string, resourceId: string): string {
    "PermissionDenied: User " + userId + " not allowed for resource " + resourceId
  }

  function PermissionDeniedError(permission: string, resourceId: string): string {
    "PermissionDenied: Permission " + permission + " denied for resource " + resourceId
  }

  function MissingPermissionError(userId: string, permission: string): string {
    "PermissionDenied: User " + userId + " missing permission: " + permission
  }

  /**
   * The verdict on a resource that has a rule, once its approval request (if it needs one) has
   * been looked up: the approval, the user list and the permission set are checked in that
   * order, and the first that fails gives the exception.
   */
  function Verdict(rule: Rule, approval: Option<ApprovalRequest>, userId: string, resourceId: string,
                   permission: string): (r: Outcome)
    ensures r.Pass? <==>
      (rule.requiresApproval ==> Approved(approval))
      && (RestrictsUsers(rule) ==> userId in rule.allowedUsers.value)
      && permission in rule.permissions
    ensures rule.requiresApproval && !Approved(approval) ==> r == Fail(ApprovalRequiredError(resourceId))
    ensures (rule.requiresApproval ==> Approved(approval)) && RestrictsUsers(rule) && userId !in rule.allowedUsers.value
      ==> r == Fail(UserNotAllowedError(userId, resourceId))
    ensures ((rule.requiresApproval ==> Approved(approval)) && (RestrictsUsers(rule) ==> userId in rule.allowedUsers.value)
      && permission !in rule.permissions) ==> r == Fail(PermissionDeniedError(permission, resourceId))
  {
    if rule.requiresApproval && !Approved(approval) then Fail(ApprovalRequiredError(resourceId))
    else if RestrictsUsers(rule) && userId !in rule.allowedUsers.value then Fail(UserNotAllowedError(userId, resourceId))
    else if permission !in rule.permissions then Fail(PermissionDeniedError(permission, resourceId))
    else Pass
  }

  /** A rule that needs an approval denies every user while its request is not approved. */
  lemma PendingDeniesEveryone(rule: Rule, approval: Option<ApprovalRequest>, resourceId: string, permission: string)
    requires rule.requiresApproval && !Approved(approval)
    ensures forall userId :: Verdict(rule, approval, userId, resourceId, permission) == Fail(ApprovalRequiredError(resourceId))
  {
  }

  /** `PolicyEngine`: the rules by resource id, and the approval service `check` submits to. */
  class PolicyEngine {
    var rules: map<string, AccessRule>
    const approvals: ApprovalService

    ghost predicate Valid()
      reads this, approvals, approvals.store
    {
      approvals.Valid()
    }

    constructor (approvals: ApprovalService)
      ensures rules == map[] && this.approvals == approvals
    {
      rules := map[];
      this.approvals := approvals;
    }

    /** `add_rule`: the rule is stored under the resource id, replacing any earlier one. */
    method AddRule(resourceId: string, rule: AccessRule)
      modifies this
      ensures rules == old(rules)[resourceId := rule]
    {
      rules := rules[resourceId := rule];
    }

    /**
     * `check`. Without a rule the user's own permission decides. With a rule that needs an
     * approval and has no request yet, a pending request for (permission, resource, user) is
     * submitted and its id stored on the rule, so that this check is denied and later checks
     * look the same request up; the verdict then follows the rule.
     */
    method Check(userId: string, granted: string -> bool, resourceId: string, permission: string, now: string)
      returns (r: Outcome)
      requires Valid()
      modifies if resourceId in rules then {rules[resourceId]} else {}, approvals, approvals.store
      ensures Valid() && rules == old(rules) && approvals.store.events == old(approvals.store.events)
      ensures resourceId !in rules ==>
        && (r.Pass? <==> granted(permission))
        && (r.Fail? ==> r == Fail(MissingPermissionError(userId, permission)))
        && approvals.requests == old(approvals.requests) && approvals.counter == old(approvals.counter)
      ensures forall k :: k in rules && (resourceId !in rules || rules[k] != rules[resourceId]) ==>
        rules[k].approvalRequestId == old(rules[k].approvalRequestId)
      ensures resourceId in rules ==>
        var rule := rules[resourceId];
        var submits := rule.requiresApproval && !HasRequestId(old(rule.approvalRequestId));
        && (submits ==>
              && approvals.counter == old(approvals.counter) + 1
              && rule.approvalRequestId == Some(RequestId(approvals.counter))
              && (|NatToString(approvals.counter)| <= MaxStrDigits ==> RequestId(approvals.counter) !in old(approvals.requests.m))
              && approvals.requests == old(approvals.requests).Put(RequestId(approvals.counter),
                   ApprovalRequest(RequestId(approvals.counter), permission, resourceId, userId, "pending", now))
              && r == Fail(ApprovalRequiredError(resourceId)))
        && (!submits ==>
              && rule.approvalRequestId == old(rule.approvalRequestId)
              && approvals.requests == old(approvals.requests) && approvals.counter == old(approvals.counter))
        && r == Verdict(rule.View(),
                        if rule.requiresApproval then approvals.Get(rule.approvalRequestId.value) else None,
                        userId, resourceId, permission)
    {
      if resourceId !in rules {
        if !granted(permission) {
          return Fail(MissingPermissionError(userId, permission));
        }
        return Pass;
      }
      r := CheckRule(rules[resourceId], userId, resourceId, permission, now);
    }

    /**
     * `check` on a resource that has a rule: the approval step, then the verdict on the rule as
     * it stands afterwards.
     */
    method CheckRule(rule: AccessRule, userId: string, resourceId: string, permission: string, now: string)
      returns (r: Outcome)
      requires Valid()
      modifies rule, approvals, approvals.store
      ensures Valid() && approvals.store.events == old(approvals.store.events)
      ensures var submits := rule.requiresApproval && !HasRequestId(old(rule.approvalRequestId));
        && (submits ==>
              && approvals.counter == old(approvals.counter) + 1
              && rule.approvalRequestId == Some(RequestId(approvals.counter))
              && (|NatToString(approvals.counter)| <= MaxStrDigits ==> RequestId(approvals.counter) !in old(approvals.requests.m))
              && approvals.requests == old(approvals.requests).Put(RequestId(approvals.counter),
                   ApprovalRequest(RequestId(approvals.counter), permission, resourceId, userId, "pending", now))
              && r == Fail(ApprovalRequiredError(resourceId)))
        && (!submits ==>
              && rule.approvalRequestId == old(rule.approvalRequestId)
              && approvals.requests == old(approvals.requests) && approvals.counter == old(approvals.counter))
        && r == Verdict(rule.View(),
                        if rule.requiresApproval then approvals.Get(rule.approvalRequestId.value) else None,
                        userId, resourceId, permission)
    {
      var approval: Option<ApprovalRequest> := None;
      if rule.requiresApproval {
        if !HasRequestId(rule.approvalRequestId) {
          var submitted := approvals.Submit(permission, resourceId, userId, now);
          rule.approvalRequestId := Some(submitted.requestId);
        }
        approval := approvals.Get(rule.approvalRequestId.value);
      }
      r := Verdict(rule.View(), approval, userId, resourceId, permission);
    }
  }

  /** The first check on a rule that needs an approval and has none yet: denied, and a request submitted. */
  method FirstCheck(engine: PolicyEngine, rule: AccessRule, userId: string, resourceId: string, permission: string)
    returns (first: Outcome, requestId: string)
    requires engine.Valid() && resourceId in engine.rules && engine.rules[resourceId] == rule
    requires rule.requiresApproval && rule.approvalRequestId == None
    modifies engine.rules.Values, engine.approvals, engine.approvals.store
    ensures engine.Valid() && engine.rules == old(engine.rules)
    ensures first == Fail(ApprovalRequiredError(resourceId))
    ensures requestId == RequestId(old(engine.approvals.counter) + 1) && requestId in engine.approvals.requests.m
    ensures rule.approvalRequestId == Some(requestId) && HasRequestId(rule.approvalRequestId)
  {
    first := engine.Check(userId, (p: string) => false, resourceId, permission, "t0");
    requestId := rule.approvalRequestId.value;
    assert requestId[..|ApprovalPrefix|] == ApprovalPrefix;
  }

  /** Once the rule's request is approved, a check by an allowed user for a listed permission passes. */
  method CheckAfterApproval(engine: PolicyEngine, rule: AccessRule, userId: string, resourceId: string, permission: string)
    returns (second: Outcome)
    requires engine.Valid() && resourceId in engine.rules && engine.rules[resourceId] == rule
    requires rule.requiresApproval && HasRequestId(rule.approvalRequestId)
    requires Approved(engine.approvals.Get(rule.approvalRequestId.value))
    requires rule.allowedUsers == Some({userId}) && permission in rule.permissions
    modifies rule, engine.approvals, engine.approvals.store
    ensures second == Pass
  {
    second := engine.Check(userId, (p: string) => false, resourceId, permission, "t1");
  }

  /**
   * The approval flow: a rule that needs an approval denies its first check and submits a
   * request; once that request is approved, the same check passes.
   */
  method ApprovalFlow(approvals: ApprovalService, userId: string, resourceId: string, permission: string)
    returns (first: Outcome, requestId: string, second: Outcome)
    requires approvals.Valid()
    modifies approvals, approvals.store
    ensures first == Fail(ApprovalRequiredError(resourceId))
    ensures requestId == RequestId(old(approvals.counter) + 1)
    ensures second == Pass
  {
    ghost var c := approvals.counter;
    var engine := new PolicyEngine(approvals);
    var rule := new AccessRule({permission}, Some({userId}), true, None);
    engine.AddRule(resourceId, rule);
    first, requestId := FirstCheck(engine, rule, userId, resourceId, permission);
    assert requestId == RequestId(c + 1);
    var approved := approvals.Approve(requestId);
    second := CheckAfterApproval(engine, rule, userId, resourceId, permission);
  }

  /** A resource without a rule is decided by the user's role alone. */
  method NoRuleUsesRole(approvals: ApprovalService, userId: string, permission: string)
    returns (allowed: Outcome, denied: Outcome)
    requires approvals.Valid()
    modifies approvals, approvals.store
    ensures allowed == Pass && denied == Fail(MissingPermissionError(userId, permission))
  {
    var engine := new PolicyEngine(approvals);
    allowed := engine.Check(userId, (p: string) => true, "tool:any", permission, "t0");
    denied := engine.Check(userId, (p: string) => false, "tool:any", permission, "t0");
  }

  /** A user outside a non-empty `allowed_users` set is denied, whatever their role. */
  method AclDenies(approvals: ApprovalService, permission: string)
    returns (r: Outcome)
    requires approvals.Valid()
    modifies approvals, approvals.store
    ensures r == Fail(UserNotAllowedError("bob", "tool:sensitive"))
  {
    var engine := new PolicyEngine(approvals);
    var rule := new AccessRule({permission}, Some({"alice"}), false, None);
    engine.AddRule("tool:sensitive", rule);
    r := engine.Check("bob", (p: string) => true, "tool:sensitive", permission, "t0");
  }
}
