/**
 * The GenXBot orchestrator: `create_run` proposes a fixed plan and two actions (a test command
 * and an edit), marks which actions are safe and gates the run on the safety policy;
 * `decide_action` records a human decision on one proposed action, simulates it when approved,
 * and completes the run once every action is executed or rejected.
 *
 * The LLM pipeline is an input (`Pipeline`); the clock is read as one `now` per call, and the
 * uuid draws are a sequence of their hex texts.
 */
module Orchestrator {
  import opened Results
  import opened Text
  import opened RunSchemas
  import opened SafetyPolicy
  import opened Store

  // ---- create_run ----

  /**
   * The truncated hex texts of the uuid draws `create_run` makes (`uuid4().hex[:8]` or `[:10]`),
   * in order: the four plan steps, the two actions, the run, the plan artifact and the review
   * artifact.
   */
  type Draws = s: seq<string> | |s| == 9 witness ["", "", "", "", "", "", "", "", ""]

  // The ids, agent names, event names and fixed texts of the records the orchestrator writes.
  const RunPrefix: string := "run_"
  const StepPrefix: string := "step_"
  const ActionPrefix: string := "action_"
  const ArtifactPrefix: string := "artifact_"
  const TargetFile: string := "/TARGET_FILE.py"
  const SystemAgent: string := "system"
  const PlannerAgent: string := "planner"
  const ExecutorAgent: string := "executor"
  const ReviewerAgent: string := "reviewer"
  const UserAgent: string := "user"
  const GenxaiBootstrap: string := "genxai_bootstrap"
  const PlanCreated: string := "plan_created"
  const ActionsProposed: string := "actions_proposed"
  const ProposedWord: string := "Proposed "
  const ProposedTail: string := " actions; awaiting approval."
  const BulletPrefix: string := "- "
  const BulletSeparator: string := "\n- "
  const ReviewTitle: string := "Critic review feedback"
  const ActionWord: string := "Action "
  const Space: string := " "
  const CommentLabel: string := ". Comment: "
  const ExecutedWord: string := "Executed "
  const ColonSpace: string := ": "
  const ResultFor: string := "Result for "
  const CommandSimulated: string := "Command simulated: "
  const PatchSimulated: string := "Patch simulated for "
  const Newline: string := "\n"

  /**
   * What the planner/executor/reviewer pipeline produced, if it ran. `review` is `Some(str(c))`
   * when the reviewer's last critique `c` is truthy and `None` when it is falsy (a missing or
   * empty critique).
   */
  datatype Pipeline =
    | NoApiKey
    | PipelineError(message: string)
    | PipelineDone(planText: string, executorOutput: string, review: Option<string>)

  const PlanTitles: seq<string> := [
    "Ingest repository and identify project context",
    "Generate implementation plan from goal",
    "Propose safe code edits",
    "Run lint/tests and summarize result"
  ]

  const PatchDraftHeader: string := "*** genxai-proposed patch draft ***\n"

  /** The four pending plan steps, with the ids of uuid draws 0 to 3. */
  function PlanSteps(draws: Draws): (steps: seq<PlanStep>)
    ensures |steps| == 4
    ensures forall i :: 0 <= i < 4 ==> steps[i] == PlanStep(StepPrefix + draws[i], PlanTitles[i], StepPending, false)
  {
    seq(4, i requires 0 <= i < 4 => PlanStep(StepPrefix + draws[i], PlanTitles[i], StepPending, false))
  }

  const TestCommand: string := "pytest -q"
  const TestDescription: string := "Run unit tests to establish baseline"
  const EditDescription: string := "Apply patch for requested feature implementation"
  const SimulatedPatch: string := "*** simulated patch ***"

  /** The test command and the edit every run proposes, with the ids of uuid draws 4 and 5. */
  function BaseActions(repoPath: string, draws: Draws): (actions: seq<ProposedAction>)
    ensures |actions| == 2 && actions[0].actionType == CommandType && actions[0].command == Some(TestCommand)
    ensures actions[1].actionType == EditType
    ensures forall i :: 0 <= i < 2 ==> !actions[i].safe && actions[i].status == Pending
  {
    [
      ProposedAction(ActionPrefix + draws[4], CommandType, TestDescription, false, Pending, Some(TestCommand), None, None),
      ProposedAction(ActionPrefix + draws[5], EditType, EditDescription, false, Pending,
        None, Some(repoPath + TargetFile), Some(SimulatedPatch))
    ]
  }

  /** The executor output, when the pipeline produced one; `""` otherwise. */
  function ExecutorOutput(p: Pipeline): string {
    if p.PipelineDone? then p.executorOutput else ""
  }

  /**
   * A non-empty executor output replaces the edit's patch with the draft header followed by at
   * most 1200 characters of that output.
   */
  function WithPatchDraft(actions: seq<ProposedAction>, executorOutput: string): (r: seq<ProposedAction>)
    requires |actions| == 2
    ensures |r| == 2 && r[0] == actions[0]
    ensures executorOutput == "" ==> r == actions
    ensures executorOutput != "" ==> r[1] == actions[1].(patch := Some(PatchDraftHeader + Truncate(executorOutput, 1200)))
  {
    if executorOutput != "" then actions[1 := actions[1].(patch := Some(PatchDraftHeader + Truncate(executorOutput, 1200)))]
    else actions
  }

  /** The `safe` flag `create_run` sets: a command whose command text is given and safe. */
  predicate SafeFlag(a: ProposedAction) {
    a.actionType == CommandType && SafeCommandGiven(a.command)
  }

  /** The two rules agree: an action is marked safe exactly when it does not need an approval. */
  lemma SafeFlagIffNoApproval(a: ProposedAction)
    ensures SafeFlag(a) <==> !RequiresApproval(a)
  {
  }

  /** `has_gate`: some action needs an approval. */
  predicate HasGate(actions: seq<ProposedAction>) {
    exists i :: 0 <= i < |actions| && RequiresApproval(actions[i])
  }

  /**
   * The gating tail of `create_run`: each proposed action gets its `safe` flag and nothing else
   * of it changes; the run is to await approval when some action needs one and to run
   * otherwise, which is to say exactly when some action is not safe.
   */
  method GateActions(proposed: seq<ProposedAction>) returns (actions: seq<ProposedAction>, status: RunStatus)
    ensures |actions| == |proposed|
    ensures forall i :: 0 <= i < |proposed| ==> actions[i] == proposed[i].(safe := SafeFlag(proposed[i]))
    ensures status == (if HasGate(actions) then AwaitingApproval else Running)
    ensures status == Running <==> forall i :: 0 <= i < |actions| ==> actions[i].safe
  {
    actions := proposed;
    var i := 0;
    while i < |actions|
      invariant 0 <= i <= |actions| == |proposed|
      invariant forall j :: 0 <= j < i ==> actions[j] == proposed[j].(safe := SafeFlag(proposed[j]))
      invariant forall j :: i <= j < |actions| ==> actions[j] == proposed[j]
    {
      actions := actions[i := actions[i].(safe := SafeFlag(actions[i]))];
      i := i + 1;
    }
    forall j | 0 <= j < |actions|
      ensures actions[j].safe <==> !RequiresApproval(actions[j])
    {
      SafeFlagIffNoApproval(actions[j]);
    }
    var hasGate := HasGate(actions);
    status := if hasGate then AwaitingApproval else Running;
  }

  const RuntimeAgent: string := "genxai_runtime"
  const PipelineFallback: string := "pipeline_fallback"
  const PipelineExecuted: string := "pipeline_executed"
  const NoApiKeyContent: string :=
    "OPENAI_API_KEY missing; using deterministic fallback while keeping GenXAI wiring active."
  const PipelineErrorPrefix: string := "Live pipeline failed, fallback activated: "
  const PipelineDoneContent: string := "Planner/executor/reviewer pipeline completed with live LLM runtime."

  /** The timeline entry that records how the pipeline went. */
  function PipelineEvent(p: Pipeline, now: string): TimelineEvent {
    match p
    case NoApiKey => TimelineEvent(now, RuntimeAgent, PipelineFallback, NoApiKeyContent)
    case PipelineError(message) => TimelineEvent(now, RuntimeAgent, PipelineFallback, PipelineErrorPrefix + message)
    case PipelineDone(_, _, _) => TimelineEvent(now, RuntimeAgent, PipelineExecuted, PipelineDoneContent)
  }

  /** `"\n".join(f"- {t}" for t in titles)`. */
  function Bullets(titles: seq<string>): (r: string)
    ensures titles != [] ==> StartsWith(r, BulletPrefix + titles[0])
  {
    if titles == [] then ""
    else if |titles| == 1 then BulletPrefix + titles[0]
    else Bullets(titles[..|titles| - 1]) + BulletSeparator + titles[|titles| - 1]
  }

  /** The plan text of the pipeline, or the bulleted plan titles when the pipeline did not run. */
  function PlanText(p: Pipeline): (t: string)
    ensures p.PipelineDone? ==> t == p.planText
    ensures !p.PipelineDone? ==> StartsWith(t, BulletPrefix + PlanTitles[0])
  {
    if p.PipelineDone? then p.planText else Bullets(PlanTitles)
  }

  /** The reviewer's critique, as its `str`, when the pipeline produced a truthy one. */
  function ReviewArtifacts(p: Pipeline, draws: Draws): (r: seq<Artifact>)
    ensures |r| <= 1
    ensures r != [] <==> p.PipelineDone? && p.review.Some?
  {
    if p.PipelineDone? && p.review.Some? then
      [Artifact(ArtifactPrefix + draws[8], Summary, ReviewTitle, p.review.value)]
    else []
  }

  const CreatedMemorySummary: string :=
    "GenXAI memory initialized for this run. Planner/executor/reviewer context is tracked via MemorySystem."

  // ---- decide_action ----

  /** `next(a for a in actions if a.id == actionId)`: the position of the first action with that id. */
  function FindAction(actions: seq<ProposedAction>, actionId: string): (r: Option<nat>)
    ensures r.Some? ==> r.value < |actions| && actions[r.value].id == actionId
    ensures r.Some? ==> forall j :: 0 <= j < r.value ==> actions[j].id != actionId
    ensures r.None? <==> forall j :: 0 <= j < |actions| ==> actions[j].id != actionId
  {
    if actions == [] then None
    else if actions[0].id == actionId then Some(0)
    else
      match FindAction(actions[1..], actionId)
      case None => None
      case Some(i) => Some(i + 1)
  }

  /** `all(a.status in {"executed", "rejected"} for a in actions)`. */
  predicate AllResolved(actions: seq<ProposedAction>) {
    forall i :: 0 <= i < |actions| ==> actions[i].status == Executed || actions[i].status == Rejected
  }

  /** Python's f-string of an optional text: the text, or `"None"`. */
  function OptionText(o: Option<string>): string {
    if o.Some? then o.value else NoneText
  }

  // The names and texts of the records `decide_action` adds.
  const ApprovalDecision: string := "approval_decision"
  const ActionExecuted: string := "action_executed"
  const RunCompleted: string := "run_completed"
  const NoneText: string := "None"
  const NoComment: string := "n/a"
  const CompletedContent: string := "Run completed with all actions resolved."
  const SummaryTitle: string := "Run summary"
  const SummaryContent: string := "Prototype execution complete. Integrate real tool runners next."

  /**
   * The `approval_decision` record: by the user, naming the action and its new status, then the
   * comment, or `"n/a"` when there is none or it is empty.
   */
  function DecisionEvent(action: ProposedAction, comment: Option<string>, now: string): (e: TimelineEvent)
    ensures e.timestamp == now && e.agent == UserAgent && e.event == ApprovalDecision
    ensures StartsWith(e.content, ActionWord + action.id + Space + ActionStatusName(action.status) + CommentLabel)
    ensures var tail := if comment.Some? && comment.value != "" then comment.value else NoComment;
      |tail| <= |e.content| && e.content[|e.content| - |tail|..] == tail
  {
    TimelineEvent(now, UserAgent, ApprovalDecision,
      ActionWord + action.id + Space + ActionStatusName(action.status) + CommentLabel
      + (if comment.Some? && comment.value != "" then comment.value else NoComment))
  }

  /** The `action_executed` record: by the executor, naming the action's type and description. */
  function ExecutedEvent(action: ProposedAction, now: string): (e: TimelineEvent)
    ensures e.timestamp == now && e.agent == ExecutorAgent && e.event == ActionExecuted
    ensures StartsWith(e.content, ExecutedWord + action.actionType + ColonSpace)
    ensures |action.description| <= |e.content|
      && e.content[|e.content| - |action.description|..] == action.description
  {
    TimelineEvent(now, ExecutorAgent, ActionExecuted, ExecutedWord + action.actionType + ColonSpace + action.description)
  }

  /** The kind of the simulated result: command output for a command, a diff otherwise. */
  function ResultKind(action: ProposedAction): ArtifactKind {
    if action.actionType == CommandType then CommandOutput else Diff
  }

  function ResultArtifact(id: string, action: ProposedAction): (a: Artifact)
    ensures a.kind == ResultKind(action)
  {
    Artifact(id, ResultKind(action), ResultFor + action.id,
      if action.actionType == CommandType then CommandSimulated + OptionText(action.command)
      else PatchSimulated + OptionText(action.filePath) + Newline + action.patch.GetOr(""))
  }

  function CompletedEvent(now: string): TimelineEvent {
    TimelineEvent(now, ReviewerAgent, RunCompleted, CompletedContent)
  }

  function SummaryArtifact(id: string): Artifact {
    Artifact(id, Summary, SummaryTitle, SummaryContent)
  }

  function EventNames(events: seq<TimelineEvent>): (names: seq<string>)
    ensures |names| == |events| && forall i :: 0 <= i < |events| ==> names[i] == events[i].event
  {
    seq(|events|, i requires 0 <= i < |events| => events[i].event)
  }

  function Kinds(artifacts: seq<Artifact>): (kinds: seq<ArtifactKind>)
    ensures |kinds| == |artifacts| && forall i :: 0 <= i < |artifacts| ==> kinds[i] == artifacts[i].kind
  {
    seq(|artifacts|, i requires 0 <= i < |artifacts| => artifacts[i].kind)
  }

  /** The events a decision appends, by name. */
  function DecisionEventNames(approve: bool, completed: bool): seq<string> {
    [ApprovalDecision] + (if approve then [ActionExecuted] else []) + (if completed then [RunCompleted] else [])
  }

  /** The chosen action as the decision event names it: `approved` or `rejected`. */
  function Decided(chosen: ProposedAction, approve: bool): ProposedAction {
    chosen.(status := if approve then Approved else Rejected)
  }

  /** The chosen action at the end of the decision: `executed` when approved, `rejected` when not. */
  function Final(decided: ProposedAction, approve: bool): ProposedAction {
    if approve then decided.(status := Executed) else decided
  }

  /**
   * The first half of a decision on action `i`: the action is resolved, the decision is logged
   * (naming the action `approved` or `rejected`), and an approval also logs the execution and
   * adds the simulated result.
   */
  function Resolved(s: RunState, i: nat, approval: ApprovalRequest, now: string, resultId: string): (r: RunState)
    requires i < |s.pendingActions|
    ensures |r.pendingActions| == |s.pendingActions| && r.status == s.status && r.updatedAt == s.updatedAt
    ensures r.pendingActions[i] == s.pendingActions[i].(status := if approval.approve then Executed else Rejected)
    ensures forall j :: 0 <= j < |s.pendingActions| && j != i ==> r.pendingActions[j] == s.pendingActions[j]
  {
    var decided := Decided(s.pendingActions[i], approval.approve);
    var final := Final(decided, approval.approve);
    s.(pendingActions := s.pendingActions[i := final],
       timeline := s.timeline + [DecisionEvent(decided, approval.comment, now)]
         + (if approval.approve then [ExecutedEvent(final, now)] else []),
       artifacts := s.artifacts + (if approval.approve then [ResultArtifact(resultId, final)] else []))
  }

  /**
   * The second half: the run is completed, with the completion event and a summary, when every
   * action is resolved, and awaits approval otherwise; either way it is stamped `now`.
   */
  function Concluded(s: RunState, now: string, summaryId: string): (r: RunState)
    ensures r.pendingActions == s.pendingActions && r.updatedAt == now
    ensures r.status == (if AllResolved(s.pendingActions) then Completed else AwaitingApproval)
  {
    if AllResolved(s.pendingActions) then
      s.(status := Completed, timeline := s.timeline + [CompletedEvent(now)],
         artifacts := s.artifacts + [SummaryArtifact(summaryId)], updatedAt := now)
    else s.(status := AwaitingApproval, updatedAt := now)
  }

  /**
   * `decide_action` on the state of a run. An action id the run does not propose leaves the
   * state as it is; otherwise the first action with that id is resolved and the run concluded.
   */
  function Decide(s: RunState, approval: ApprovalRequest, now: string, resultId: string, summaryId: string)
    : (r: RunState)
    ensures FindAction(s.pendingActions, approval.actionId).None? ==> r == s
  {
    match FindAction(s.pendingActions, approval.actionId)
    case None => s
    case Some(i) => Concluded(Resolved(s, i, approval, now, resultId), now, summaryId)
  }

  /** `a + b` starts with `a` and continues with `b`. */
  lemma Split<T>(a: seq<T>, b: seq<T>)
    ensures (a + b)[..|a|] == a && (a + b)[|a|..] == b
  {
  }

  /**
   * A decision on a proposed action changes that action only, to `executed` when approved and
   * `rejected` when not, and leaves the run `completed` exactly when every action is executed or
   * rejected, awaiting approval otherwise.
   */
  lemma DecideActions(s: RunState, approval: ApprovalRequest, now: string, resultId: string, summaryId: string)
    requires FindAction(s.pendingActions, approval.actionId).Some?
    ensures var i := FindAction(s.pendingActions, approval.actionId).value;
      var r := Decide(s, approval, now, resultId, summaryId);
      && |r.pendingActions| == |s.pendingActions|
      && r.pendingActions[i] == s.pendingActions[i].(status := if approval.approve then Executed else Rejected)
      && (forall j :: 0 <= j < |s.pendingActions| && j != i ==> r.pendingActions[j] == s.pendingActions[j])
      && r.status == (if AllResolved(r.pendingActions) then Completed else AwaitingApproval)
      && r.updatedAt == now
  {
  }

  /** `b` extends `a`: it starts with `a`. */
  predicate Extends<T(==)>(b: seq<T>, a: seq<T>) {
    |a| <= |b| && b[..|a|] == a
  }

  /** Two extensions in a row: what was added overall is what each step added, in order. */
  lemma ExtendsChain<T>(a: seq<T>, b: seq<T>, c: seq<T>)
    requires Extends(b, a) && Extends(c, b)
    ensures Extends(c, a) && c[|a|..] == b[|a|..] + c[|b|..]
  {
    assert c[..|b|][..|a|] == c[..|a|];
  }

  lemma EventNamesAppend(x: seq<TimelineEvent>, y: seq<TimelineEvent>)
    ensures EventNames(x + y) == EventNames(x) + EventNames(y)
  {
  }

  lemma KindsAppend(x: seq<Artifact>, y: seq<Artifact>)
    ensures Kinds(x + y) == Kinds(x) + Kinds(y)
  {
  }

  /** The first half of a decision appends the decision event, and the execution and its result when approved. */
  lemma ResolvedLog(s: RunState, i: nat, approval: ApprovalRequest, now: string, resultId: string)
    requires i < |s.pendingActions|
    ensures var r := Resolved(s, i, approval, now, resultId);
      && Extends(r.timeline, s.timeline) && Extends(r.artifacts, s.artifacts)
      && EventNames(r.timeline[|s.timeline|..]) == [ApprovalDecision] + (if approval.approve then [ActionExecuted] else [])
      && Kinds(r.artifacts[|s.artifacts|..]) == (if approval.approve then [ResultKind(s.pendingActions[i])] else [])
  {
    var r := Resolved(s, i, approval, now, resultId);
    var decided := Decided(s.pendingActions[i], approval.approve);
    var final := Final(decided, approval.approve);
    var events := [DecisionEvent(decided, approval.comment, now)] + (if approval.approve then [ExecutedEvent(final, now)] else []);
    var results := if approval.approve then [ResultArtifact(resultId, final)] else [];
    assert r.timeline == s.timeline + events;
    assert r.artifacts == s.artifacts + results;
    Split(s.timeline, events);
    Split(s.artifacts, results);
  }

  /** The second half appends the completion event and the summary exactly when the run is completed. */
  lemma ConcludedLog(s: RunState, now: string, summaryId: string)
    ensures var r := Concluded(s, now, summaryId);
      && Extends(r.timeline, s.timeline) && Extends(r.artifacts, s.artifacts)
      && EventNames(r.timeline[|s.timeline|..]) == (if r.status == Completed then [RunCompleted] else [])
      && Kinds(r.artifacts[|s.artifacts|..]) == (if r.status == Completed then [Summary] else [])
  {
    var r := Concluded(s, now, summaryId);
    if AllResolved(s.pendingActions) {
      Split(s.timeline, [CompletedEvent(now)]);
      Split(s.artifacts, [SummaryArtifact(summaryId)]);
    } else {
      assert r.timeline[|s.timeline|..] == [];
      assert r.artifacts[|s.artifacts|..] == [];
    }
  }

  /**
   * A decision keeps the timeline and the artifacts and appends to them: the decision event,
   * then the execution event and one result (command output or diff) when approved, then the
   * completion event and a summary when the run is completed.
   */
  lemma DecideLog(s: RunState, approval: ApprovalRequest, now: string, resultId: string, summaryId: string)
    requires FindAction(s.pendingActions, approval.actionId).Some?
    ensures var i := FindAction(s.pendingActions, approval.actionId).value;
      var r := Decide(s, approval, now, resultId, summaryId);
      var done := r.status == Completed;
      && Extends(r.timeline, s.timeline)
      && EventNames(r.timeline[|s.timeline|..]) == DecisionEventNames(approval.approve, done)
      && Extends(r.artifacts, s.artifacts)
      && Kinds(r.artifacts[|s.artifacts|..])
         == (if approval.approve then [ResultKind(s.pendingActions[i])] else []) + (if done then [Summary] else [])
  {
    var i := FindAction(s.pendingActions, approval.actionId).value;
    var mid := Resolved(s, i, approval, now, resultId);
    var r := Concluded(mid, now, summaryId);
    ResolvedLog(s, i, approval, now, resultId);
    ConcludedLog(mid, now, summaryId);
    ExtendsChain(s.timeline, mid.timeline, r.timeline);
    ExtendsChain(s.artifacts, mid.artifacts, r.artifacts);
    EventNamesAppend(mid.timeline[|s.timeline|..], r.timeline[|mid.timeline|..]);
    KindsAppend(mid.artifacts[|s.artifacts|..], r.artifacts[|mid.artifacts|..]);
  }

  /** Once every action is resolved, any further decision keeps the run completed. */
  lemma ResolvedStaysCompleted(s: RunState, approval: ApprovalRequest, now: string, resultId: string, summaryId: string)
    requires AllResolved(s.pendingActions)
    requires FindAction(s.pendingActions, approval.actionId).Some?
    ensures Decide(s, approval, now, resultId, summaryId).status == Completed
  {
    var r := Decide(s, approval, now, resultId, summaryId);
    var i := FindAction(s.pendingActions, approval.actionId).value;
    forall j | 0 <= j < |r.pendingActions|
      ensures r.pendingActions[j].status == Executed || r.pendingActions[j].status == Rejected
    {
      if j != i {
        assert r.pendingActions[j] == s.pendingActions[j];
      }
    }
  }

  /** Deciding the one unresolved action completes the run, whichever way it is decided. */
  lemma LastDecisionCompletes(s: RunState, approval: ApprovalRequest, now: string, resultId: string, summaryId: string)
    requires FindAction(s.pendingActions, approval.actionId).Some?
    requires forall j :: 0 <= j < |s.pendingActions| && j != FindAction(s.pendingActions, approval.actionId).value ==>
      s.pendingActions[j].status == Executed || s.pendingActions[j].status == Rejected
    ensures Decide(s, approval, now, resultId, summaryId).status == Completed
  {
    var r := Decide(s, approval, now, resultId, summaryId);
    var i := FindAction(s.pendingActions, approval.actionId).value;
    forall j | 0 <= j < |r.pendingActions|
      ensures r.pendingActions[j].status == Executed || r.pendingActions[j].status == Rejected
    {
      if j != i {
        assert r.pendingActions[j] == s.pendingActions[j];
      }
    }
  }

  /** While some other action is unresolved, a decision leaves the run awaiting approval. */
  lemma OpenActionKeepsAwaiting(s: RunState, approval: ApprovalRequest, now: string, resultId: string, summaryId: string,
                                k: nat)
    requires FindAction(s.pendingActions, approval.actionId).Some?
    requires k < |s.pendingActions| && k != FindAction(s.pendingActions, approval.actionId).value
    requires s.pendingActions[k].status == Pending || s.pendingActions[k].status == Approved
    ensures Decide(s, approval, now, resultId, summaryId).status == AwaitingApproval
  {
    var r := Decide(s, approval, now, resultId, summaryId);
    assert r.pendingActions[k] == s.pendingActions[k];
  }

  const BootstrapContent: string := "Initializing GenXAI agents, runtime, tools, and memory."
  const PlanCreatedContent: string := "Generated 4-step autonomous coding plan."
  const PlanTitle: string := "Initial execution plan"

  function BootstrapEvent(now: string): TimelineEvent {
    TimelineEvent(now, SystemAgent, GenxaiBootstrap, BootstrapContent)
  }

  /** The two events `create_run` logs once the `count` actions are proposed. */
  function ProposalEvents(count: nat, now: string): seq<TimelineEvent> {
    [TimelineEvent(now, PlannerAgent, PlanCreated, PlanCreatedContent),
     TimelineEvent(now, ExecutorAgent, ActionsProposed, ProposedWord + NatToString(count) + ProposedTail)]
  }

  function PlanArtifact(p: Pipeline, draws: Draws): Artifact {
    Artifact(ArtifactPrefix + draws[7], Plan, PlanTitle, PlanText(p))
  }

  /** The base actions, once gated: the test command is safe and the edit is not. */
  lemma BaseActionsGated(repoPath: string, draws: Draws, executorOutput: string)
    ensures var proposed := WithPatchDraft(BaseActions(repoPath, draws), executorOutput);
      && SafeFlag(proposed[0]) && !SafeFlag(proposed[1]) && HasGate(proposed)
  {
    var proposed := WithPatchDraft(BaseActions(repoPath, draws), executorOutput);
    PytestIsSafe();
    assert TestCommand == PytestQuiet;
    assert RequiresApproval(proposed[1]);
  }

  /**
   * The proposal part of `create_run`: the base actions, the edit's patch drawn from the executor
   * output, gated; the test command comes out safe, the edit does not, so the run awaits approval.
   */
  method ProposeActions(repoPath: string, draws: Draws, executorOutput: string)
    returns (actions: seq<ProposedAction>, status: RunStatus)
    ensures |actions| == 2
    ensures actions[0] == BaseActions(repoPath, draws)[0].(safe := true)
    ensures actions[1] == WithPatchDraft(BaseActions(repoPath, draws), executorOutput)[1]
    ensures status == AwaitingApproval
  {
    var proposed := WithPatchDraft(BaseActions(repoPath, draws), executorOutput);
    actions, status := GateActions(proposed);
    BaseActionsGated(repoPath, draws, executorOutput);
  }

  /**
   * The state `create_run` gives a run: it awaits approval of its two actions, the test command
   * marked safe and the edit, its patch drafted from the executor output, not; the timeline holds
   * the bootstrap, pipeline and proposal events, the artifacts the plan and the review.
   */
  function CreatedState(repoPath: string, pipeline: Pipeline, draws: Draws, now: string): (s: RunState)
    ensures s.status == AwaitingApproval && |s.pendingActions| == 2
    ensures s.pendingActions[0].actionType == CommandType && s.pendingActions[0].safe
    ensures s.pendingActions[1].actionType == EditType && !s.pendingActions[1].safe
    ensures s.pendingActions[0].status == Pending && s.pendingActions[1].status == Pending
    ensures |s.timeline| == 4 && 1 <= |s.artifacts| <= 2 && s.artifacts[0].kind == Plan
    ensures s.updatedAt == now
  {
    var base := BaseActions(repoPath, draws);
    RunState(AwaitingApproval,
      [BootstrapEvent(now), PipelineEvent(pipeline, now)] + ProposalEvents(2, now),
      [PlanArtifact(pipeline, draws)] + ReviewArtifacts(pipeline, draws),
      [base[0].(safe := true), WithPatchDraft(base, ExecutorOutput(pipeline))[1]],
      now)
  }

  /** What `create_run` builds: the state above, the run's id from uuid draw 6, and its plan steps. */
  ghost predicate IsCreatedRun(run: RunSession, goal: string, repoPath: string, pipeline: Pipeline, draws: Draws,
                               now: string)
    reads run
  {
    && run.id == RunPrefix + draws[6] && run.goal == goal && run.repoPath == repoPath
    && run.State() == CreatedState(repoPath, pipeline, draws, now)
    && run.planSteps == PlanSteps(draws)
    && run.memorySummary == CreatedMemorySummary && run.createdAt == now
  }

  /** The run session `create_run` builds, before it is filed. */
  method NewRun(goal: string, repoPath: string, pipeline: Pipeline, draws: Draws, now: string)
    returns (run: RunSession)
    ensures fresh(run) && IsCreatedRun(run, goal, repoPath, pipeline, draws, now)
  {
    var actions, status := ProposeActions(repoPath, draws, ExecutorOutput(pipeline));
    var timeline := [BootstrapEvent(now), PipelineEvent(pipeline, now)] + ProposalEvents(|actions|, now);
    var artifacts := [PlanArtifact(pipeline, draws)] + ReviewArtifacts(pipeline, draws);
    run := new RunSession(RunPrefix + draws[6], goal, repoPath, status, PlanSteps(draws), timeline, artifacts, actions,
      CreatedMemorySummary, now, now);
  }

  class GenXBotOrchestrator {
    const store: RunStore

    constructor (store: RunStore)
      ensures this.store == store
    {
      this.store := store;
    }

    /**
     * `create_run`: a new run with the four plan steps and the two base actions, the edit's patch
     * drawn from the executor output when there is one; the actions are gated, the run is filed
     * in the store, and, because the edit always needs an approval, it awaits approval.
     */
    method CreateRun(goal: string, repoPath: string, pipeline: Pipeline, draws: Draws, now: string)
      returns (run: RunSession)
      requires store.Valid()
      modifies store
      ensures store.Valid() && fresh(run)
      ensures store.runs == old(store.runs).Put(run.id, run)
      ensures IsCreatedRun(run, goal, repoPath, pipeline, draws, now)
    {
      run := NewRun(goal, repoPath, pipeline, draws, now);
      run := store.Create(run);
    }

    /**
     * `decide_action`: `None` for a run id the store does not hold; otherwise the stored run,
     * whose state becomes `Decide` of its old state. The run object is updated in place, so the
     * store maps the same ids to the same objects afterwards.
     */
    method DecideAction(runId: string, approval: ApprovalRequest, now: string, resultId: string, summaryId: string)
      returns (r: Option<RunSession>)
      requires store.Valid()
      modifies store, if runId in store.runs.m then {store.runs.m[runId]} else {}
      ensures store.Valid() && store.runs == old(store.runs)
      ensures r.None? <==> runId !in old(store.runs.m)
      ensures r.Some? ==> runId in old(store.runs.m) && r.value == old(store.runs.m[runId])
      ensures r.Some? ==> r.value.State() == Decide(old(store.runs.m[runId].State()), approval, now, resultId, summaryId)
      ensures r.Some? ==> (r.value.planSteps == old(store.runs.m[runId].planSteps)
        && r.value.memorySummary == old(store.runs.m[runId].memorySummary)
        && r.value.createdAt == old(store.runs.m[runId].createdAt))
    {
      var found := store.Get(runId);
      if found.None? {
        return None;
      }
      var run := found.value;
      var changed := ApplyDecision(run, approval, now, resultId, summaryId);
      if changed {
        UpdateSameRun(store.runs, run);
        run := store.Update(run);
      }
      r := Some(run);
    }
  }

  /**
   * The body of `decide_action` once the run is found: nothing happens, and `false` is returned,
   * when the run proposes no action with that id; otherwise the first such action is decided,
   * the run concluded, and `true` is returned.
   */
  method ApplyDecision(run: RunSession, approval: ApprovalRequest, now: string, resultId: string, summaryId: string)
    returns (changed: bool)
    modifies run
    ensures changed <==> FindAction(old(run.pendingActions), approval.actionId).Some?
    ensures run.State() == Decide(old(run.State()), approval, now, resultId, summaryId)
    ensures run.planSteps == old(run.planSteps) && run.memorySummary == old(run.memorySummary)
    ensures run.createdAt == old(run.createdAt)
  {
    var index := FindAction(run.pendingActions, approval.actionId);
    if index.None? {
      return false;
    }
    RecordDecision(run, index.value, approval, now, resultId);
    Conclude(run, now, summaryId);
    changed := true;
  }

  /** Lines 331-362 of `decide_action`: the state of `run` becomes `Resolved` of its old state. */
  method RecordDecision(run: RunSession, i: nat, approval: ApprovalRequest, now: string, resultId: string)
    requires i < |run.pendingActions|
    modifies run
    ensures run.State() == Resolved(old(run.State()), i, approval, now, resultId)
    ensures run.planSteps == old(run.planSteps) && run.memorySummary == old(run.memorySummary)
    ensures run.createdAt == old(run.createdAt)
  {
    var chosen := run.pendingActions[i].(status := if approval.approve then Approved else Rejected);
    run.pendingActions := run.pendingActions[i := chosen];
    run.timeline := run.timeline + [DecisionEvent(chosen, approval.comment, now)];
    if approval.approve {
      chosen := chosen.(status := Executed);
      run.pendingActions := run.pendingActions[i := chosen];
      run.timeline := run.timeline + [ExecutedEvent(chosen, now)];
      run.artifacts := run.artifacts + [ResultArtifact(resultId, chosen)];
    }
  }

  /** Lines 364-384 of `decide_action`: the state of `run` becomes `Concluded` of its old state. */
  method Conclude(run: RunSession, now: string, summaryId: string)
    modifies run
    ensures run.State() == Concluded(old(run.State()), now, summaryId)
    ensures run.planSteps == old(run.planSteps) && run.memorySummary == old(run.memorySummary)
    ensures run.createdAt == old(run.createdAt)
  {
    if AllResolved(run.pendingActions) {
      run.status := Completed;
      run.timeline := run.timeline + [CompletedEvent(now)];
      run.artifacts := run.artifacts + [SummaryArtifact(summaryId)];
    } else {
      run.status := AwaitingApproval;
    }
    run.updatedAt := now;
  }

  /**
   * A fresh run approved on its first action (the test command): that action is executed and
   * its output recorded after the plan, and the run still awaits the edit's approval.
   */
  method ApproveFirstAction(goal: string, repoPath: string, pipeline: Pipeline, draws: Draws, now: string,
                            comment: Option<string>, resultDraw: string, summaryDraw: string)
    returns (r: Option<RunSession>)
    ensures r.Some? && |r.value.pendingActions| == 2
    ensures r.value.pendingActions[0].status == Executed && r.value.pendingActions[1].status == Pending
    ensures r.value.status == AwaitingApproval
    ensures |r.value.artifacts| >= 2 && r.value.artifacts[|r.value.artifacts| - 1].kind == CommandOutput
    ensures |r.value.timeline| >= 2 && r.value.timeline[|r.value.timeline| - 1].event == ActionExecuted
  {
    var store := new RunStore();
    var orchestrator := new GenXBotOrchestrator(store);
    var run := orchestrator.CreateRun(goal, repoPath, pipeline, draws, now);
    ghost var before := run.State();
    var approval := ApprovalRequest(run.pendingActions[0].id, true, comment);
    var resultId := ArtifactPrefix + resultDraw;
    var summaryId := ArtifactPrefix + summaryDraw;
    ScenarioOutcome(before, approval, now, resultId, summaryId);
    r := orchestrator.DecideAction(run.id, approval, now, resultId, summaryId);
  }

  /** The decision of the scenario above, on the state of the run. */
  lemma ScenarioOutcome(s: RunState, approval: ApprovalRequest, now: string, resultId: string, summaryId: string)
    requires |s.pendingActions| == 2 && s.pendingActions[0].id == approval.actionId && approval.approve
    requires s.pendingActions[0].actionType == CommandType && s.pendingActions[1].status == Pending
    requires |s.artifacts| >= 1
    ensures var r := Decide(s, approval, now, resultId, summaryId);
      && |r.pendingActions| == 2
      && r.pendingActions[0].status == Executed && r.pendingActions[1].status == Pending
      && r.status == AwaitingApproval
      && |r.artifacts| >= 2 && r.artifacts[|r.artifacts| - 1].kind == CommandOutput
      && |r.timeline| >= 2 && r.timeline[|r.timeline| - 1].event == ActionExecuted
  {
    assert FindAction(s.pendingActions, approval.actionId) == Some(0);
    var r := Decide(s, approval, now, resultId, summaryId);
    DecideActions(s, approval, now, resultId, summaryId);
    assert r.pendingActions[1] == s.pendingActions[1];
    assert !AllResolved(r.pendingActions);
    DecideLog(s, approval, now, resultId, summaryId);
    var added := r.timeline[|s.timeline|..];
    assert EventNames(added) == [ApprovalDecision, ActionExecuted];
    assert r.timeline[|r.timeline| - 1] == added[1];
    var results := r.artifacts[|s.artifacts|..];
    assert Kinds(results) == [CommandOutput];
    assert r.artifacts[|r.artifacts| - 1] == results[0];
  }
}
