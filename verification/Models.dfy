/** Values shared by every module: task and step snapshots, risk, and the events
    that accompany each commit. */
module Models {

  datatype Option<+T> = None | Some(value: T)

  /** The original pass plus a single rework round. */
  const MAX_ROUNDS: nat := 2

  datatype TaskStatus =
    | Queued
    | Planning
    | AssessingRisk
    | AwaitingApproval
    | Running
    | Verifying
    | Completed
    | Failed
    | Denied
  {
    predicate Terminal() {
      Completed? || Failed? || Denied?
    }
  }

  datatype StepStatus = Pending | Running | Completed | Failed

  datatype RiskLevel = Low | Medium | High | Critical

  datatype Risk = Risk(
    score: int,
    level: RiskLevel,
    factors: seq<string>,
    requiresApproval: bool,
    heuristicScore: int,
    agentScore: int)

  /** The persisted form of one plan step. */
  datatype StepRow = StepRow(
    id: string,
    title: string,
    agent: string,
    detail: string,
    status: StepStatus,
    output: string,
    attempts: nat,
    error: string)

  /** The persisted form of a task: what one commit writes and what a restart reads back. */
  datatype TaskRow = TaskRow(
    id: string,
    goal: string,
    tenant: string,
    autoApprove: bool,
    status: TaskStatus,
    steps: seq<StepRow>,
    risk: Option<Risk>,
    result: string,
    error: string,
    verified: Option<bool>,
    verification: string,
    rework: nat,
    decision: Option<bool>)

  datatype Event =
    | TaskCreated
    | TaskQueued
    | TaskRecovered(status: TaskStatus)
    | StatusChanged(status: TaskStatus)
    | AgentStarted(agent: string)
    | PlanCreated(size: nat)
    | RiskAssessed(risk: Risk)
    | ApprovalRequired
    | ApprovalAuto
    | ApprovalResolved(approved: bool)
    | ApprovalTimeout
    | StepStarted(step: string)
    | StepAttempted(step: string, agent: string, attempts: nat)
    | StepRetry(step: string, error: string, next: nat)
    | StepCompleted(step: string, agent: string, output: string, attempts: nat)
    | StepFailed(step: string, error: string)
    | ProviderError(scope: Option<string>, message: string)
    | ReworkStarted(round: nat)
    | TaskCompleted(result: string)
    | TaskFailed(error: string)
    | StreamEnd(status: TaskStatus)

  /** One database transaction of the controller: an event and the snapshot saved with it. */
  datatype Commit = Commit(event: Event, row: TaskRow)

  /** A step proposed by the planning model, before it gets an identifier. */
  datatype PlannedStep = PlannedStep(title: string, agent: string, detail: string)

  /** A task as the API creates it. */
  function NewTask(id: string, goal: string, tenant: string, autoApprove: bool): TaskRow {
    TaskRow(id, goal, tenant, autoApprove, Queued, [], None, "", "", None, "", 0, None)
  }

  function NewStep(id: string, p: PlannedStep): StepRow {
    StepRow(id, p.title, p.agent, p.detail, Pending, "", 0, "")
  }
}
