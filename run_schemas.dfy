/**
 * The GenXBot run records: a run session with its plan, timeline, artifacts and the actions it
 * proposes, each of which waits for a human decision. A run session is updated in place by the
 * orchestrator; the records inside it are values.
 */
module RunSchemas {
  import opened Results

  datatype RunStatus = Created | AwaitingApproval | Running | Completed | Failed

  datatype StepStatus = StepPending | StepRunning | StepCompleted | StepFailed

  datatype ActionStatus = Pending | Approved | Rejected | Executed

  datatype ArtifactKind = Plan | Diff | CommandOutput | Summary

  /** The status names as the records spell them. */
  function ActionStatusName(s: ActionStatus): string {
    match s
    case Pending => "pending"
    case Approved => "approved"
    case Rejected => "rejected"
    case Executed => "executed"
  }

  datatype PlanStep = PlanStep(id: string, title: string, status: StepStatus, requiresApproval: bool)

  datatype TimelineEvent = TimelineEvent(timestamp: string, agent: string, event: string, content: string)

  datatype Artifact = Artifact(id: string, kind: ArtifactKind, title: string, content: string)

  /**
   * An action the run proposes. The action type is kept as text so that the safety policy's
   * branch for a type other than `"edit"` and `"command"` is part of the model.
   */
  datatype ProposedAction = ProposedAction(
    id: string,
    actionType: string,
    description: string,
    safe: bool,
    status: ActionStatus,
    command: Option<string>,
    filePath: Option<string>,
    patch: Option<string>)

  const CommandType: string := "command"
  const EditType: string := "edit"

  /** A human decision on one action of a run. */
  datatype ApprovalRequest = ApprovalRequest(actionId: string, approve: bool, comment: Option<string>)

  /** The part of a run session that changes after it is created. */
  datatype RunState = RunState(
    status: RunStatus,
    timeline: seq<TimelineEvent>,
    artifacts: seq<Artifact>,
    pendingActions: seq<ProposedAction>,
    updatedAt: string)

  class RunSession {
    const id: string
    const goal: string
    const repoPath: string
    var status: RunStatus
    var planSteps: seq<PlanStep>
    var timeline: seq<TimelineEvent>
    var artifacts: seq<Artifact>
    var pendingActions: seq<ProposedAction>
    var memorySummary: string
    var createdAt: string
    var updatedAt: string

    function State(): RunState
      reads this
    {
      RunState(status, timeline, artifacts, pendingActions, updatedAt)
    }

    /** A session with the given fields, as the record constructor builds it. */
    constructor (id: string, goal: string, repoPath: string, status: RunStatus, planSteps: seq<PlanStep>,
                 timeline: seq<TimelineEvent>, artifacts: seq<Artifact>, pendingActions: seq<ProposedAction>,
                 memorySummary: string, createdAt: string, updatedAt: string)
      ensures this.id == id && this.goal == goal && this.repoPath == repoPath
      ensures State() == RunState(status, timeline, artifacts, pendingActions, updatedAt)
      ensures this.planSteps == planSteps && this.memorySummary == memorySummary && this.createdAt == createdAt
    {
      this.id := id;
      this.goal := goal;
      this.repoPath := repoPath;
      this.status := status;
      this.planSteps := planSteps;
      this.timeline := timeline;
      this.artifacts := artifacts;
      this.pendingActions := pendingActions;
      this.memorySummary := memorySummary;
      this.createdAt := createdAt;
      this.updatedAt := updatedAt;
    }
  }
}
