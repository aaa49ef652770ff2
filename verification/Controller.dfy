/** The controller of one task as a small-step machine.

    A control point names where the runner stands; a step either commits (it saves the
    whole snapshot together with one event) or is silent. Everything the runner cannot
    choose itself (model answers, exceptions, polls, the clock) arrives as an input. */
module Controller {
  import opened Models

  datatype Config = Config(maxStepRetries: nat, celery: bool)

  datatype Ctl =
    | Start                                     // about to enter the run
    | PlanOpened                                // status `planning` committed
    | Planning                                  // the planner is being asked
    | Planned                                   // the plan is committed
    | AssessOpened                              // status `assessing_risk` committed
    | Assessing                                 // the safety agent is being asked
    | Gate                                      // risk known, approval not yet settled
    | Waiting                                   // polling for a decision
    | Paused                                    // worker released until a decision arrives
    | Cleared                                   // execution may proceed
    | Refused                                   // denied or timed out
    | Loop(round: nat, i: nat)                  // the round looks at step i
    | Ready(round: nat, i: nat)                 // the task status for step i is in place
    | Attempt(round: nat, i: nat, a: nat)       // attempt a is about to be recorded
    | Calling(round: nat, i: nat, a: nat)       // the agent is being asked
    | Unavailable(i: nat)                       // the provider failed during step i
    | Broken                                    // a step failed for good
    | Rework(round: nat)                        // `rework.started` committed, steps not yet reset
    | Synthesizing                              // the planner is writing the report
    | Reported                                  // `task.completed` committed
    | Failing                                   // `provider.error` of the handler committed
    | Doomed                                    // `task.failed` committed
    | Finishing(inHandler: bool)                // terminal status committed
    | Done                                      // `stream.end` committed
    | Aborted                                   // an exception left the handler

  datatype Input =
    | Go
    | Proposed(items: seq<PlannedStep>, ids: seq<string>)
    | Assessed(risk: Risk)
    | Polled(approved: bool)
    | DeadlinePassed
    | Answered(output: string)
    | Judged(passed: bool, notes: string)
    | Synthesized(report: string)
    | Raised(provider: bool, message: string)

  datatype Move = Move(ctl: Ctl, task: TaskRow, event: Option<Event>)

  const VERIFIER := "verifier"
  const COMMITTEE := {"planner", "safety", "coder", "browser", "verifier"}
  const DENIED_RESULT := "Task stopped at the human approval gate."
  const VERIFIER_STEP :=
    PlannedStep("Verify outputs against the goal", VERIFIER, "Check requirement coverage and consistency.")

  // ---------------------------------------------------------------- helpers

  function Emitted(k: Ctl, t: TaskRow, e: Event): Option<Move> {
    Some(Move(k, t, Some(e)))
  }

  function Silent(k: Ctl, t: TaskRow): Option<Move> {
    Some(Move(k, t, None))
  }

  function SetStatus(k: Ctl, t: TaskRow, s: TaskStatus): Option<Move> {
    Emitted(k, t.(status := s), StatusChanged(s))
  }

  function WithStep(t: TaskRow, i: nat, s: StepRow): TaskRow
    requires i < |t.steps|
  {
    t.(steps := t.steps[i := s])
  }

  /** The schema the planning model must meet; identifiers are fresh and pairwise distinct. */
  predicate ValidProposal(items: seq<PlannedStep>, ids: seq<string>) {
    && 1 <= |items| <= 6
    && |ids| == |items| + 1
    && (forall i :: 0 <= i < |items| ==> items[i].agent in {"planner", "coder", "browser"})
    && (forall i, j :: 0 <= i < j < |ids| ==> ids[i] != ids[j])
  }

  /** Every plan is the proposal followed by the one verifier step. */
  function PlanOf(items: seq<PlannedStep>, ids: seq<string>): seq<StepRow>
    requires |ids| == |items| + 1
  {
    seq(|ids|, i requires 0 <= i < |ids| => NewStep(ids[i], if i < |items| then items[i] else VERIFIER_STEP))
  }

  function ResumeStep(s: StepRow): StepRow {
    if s.status.Running? || s.status.Failed? then s.(status := Pending, error := "") else s
  }

  function ResetStep(s: StepRow): StepRow {
    s.(status := Pending, output := "", error := "")
  }

  function ResumeSteps(steps: seq<StepRow>): seq<StepRow> {
    seq(|steps|, i requires 0 <= i < |steps| => ResumeStep(steps[i]))
  }

  function ResetSteps(steps: seq<StepRow>): seq<StepRow> {
    seq(|steps|, i requires 0 <= i < |steps| => ResetStep(steps[i]))
  }

  function Reset(t: TaskRow): TaskRow {
    t.(steps := ResetSteps(t.steps), verified := None)
  }

  function FailureText(steps: seq<StepRow>): string {
    if steps == [] then "Step execution failed"
    else if steps[0].status.Failed? then steps[0].error
    else FailureText(steps[1..])
  }

  /** The risk gate of this snapshot is open without asking anyone. */
  predicate Unrestricted(t: TaskRow) {
    t.risk.None? || !t.risk.value.requiresApproval
  }

  // ------------------------------------------------------------------ moves

  /** The handler around the whole run. */
  function Handle(t: TaskRow, provider: bool, message: string): Option<Move> {
    var u := t.(error := message);
    if provider then Emitted(Failing, u, ProviderError(None, message))
    else Emitted(Doomed, u, TaskFailed(message))
  }

  function Launch(t: TaskRow): Option<Move> {
    SetStatus(if t.rework + 1 <= MAX_ROUNDS then Loop(t.rework + 1, 0) else Synthesizing, t, TaskStatus.Running)
  }

  function Deny(t: TaskRow): Option<Move> {
    SetStatus(Finishing(false), t.(result := DENIED_RESULT), Denied)
  }

  function GateMove(c: Config, t: TaskRow): Option<Move> {
    if Unrestricted(t) || t.decision == Some(true) then Silent(Cleared, t)
    else if t.autoApprove then Emitted(Cleared, t, ApprovalAuto)
    else if t.decision == Some(false) then Silent(Refused, t)
    else if c.celery || !t.status.AwaitingApproval? then
      Emitted(if c.celery then Paused else Waiting, t.(decision := None, status := AwaitingApproval), ApprovalRequired)
    else Silent(Waiting, t)
  }

  function WaitMove(t: TaskRow, x: Input): Option<Move> {
    match x
    case Polled(true) => Silent(Cleared, t.(decision := Some(true)))
    case Polled(false) => Silent(Refused, t.(decision := Some(false)))
    case DeadlinePassed => Emitted(Refused, t.(decision := Some(false)), ApprovalTimeout)
    case _ => None
  }

  function LoopMove(t: TaskRow, r: nat, i: nat): Option<Move> {
    if i < |t.steps| then
      if t.steps[i].status.Completed? then Silent(Loop(r, i + 1), t)
      else if t.steps[i].agent == VERIFIER then SetStatus(Ready(r, i), t, Verifying)
      else if !t.status.Running? then SetStatus(Ready(r, i), t, TaskStatus.Running)
      else Silent(Ready(r, i), t)
    else if t.verified == Some(true) then Silent(Synthesizing, t)
    else if r < MAX_ROUNDS then Emitted(Rework(r), t.(rework := t.rework + 1), ReworkStarted(t.rework + 1))
    else Handle(t, false, "RuntimeError: Verification failed after rework: " + t.verification)
  }

  function ReadyMove(t: TaskRow, r: nat, i: nat): Option<Move>
    requires i < |t.steps|
  {
    var s := t.steps[i];
    if s.agent !in COMMITTEE then
      var f := s.(status := StepStatus.Failed, error := "Unknown agent: " + s.agent);
      Emitted(Broken, WithStep(t, i, f), StepFailed(s.id, f.error))
    else
      Emitted(Attempt(r, i, 1), WithStep(t, i, s.(status := StepStatus.Running)), StepStarted(s.id))
  }

  function AttemptMove(t: TaskRow, r: nat, i: nat, a: nat): Option<Move>
    requires i < |t.steps|
  {
    var s := t.steps[i].(attempts := t.steps[i].attempts + 1);
    Emitted(Calling(r, i, a), WithStep(t, i, s), StepAttempted(s.id, s.agent, s.attempts))
  }

  function Succeed(t: TaskRow, r: nat, i: nat, output: string): Option<Move>
    requires i < |t.steps|
  {
    var s := t.steps[i].(output := output, error := "", status := StepStatus.Completed);
    Emitted(Loop(r, i + 1), WithStep(t, i, s), StepCompleted(s.id, s.agent, output, s.attempts))
  }

  /** Only the verifier writes the verdict, and it does so before its step completes. */
  function CallMove(c: Config, t: TaskRow, r: nat, i: nat, a: nat, x: Input): Option<Move>
    requires i < |t.steps|
  {
    var s := t.steps[i];
    match x
    case Answered(output) =>
      if s.agent == VERIFIER then None else Succeed(t, r, i, output)
    case Judged(passed, notes) =>
      if s.agent != VERIFIER then None
      else Succeed(t.(verified := Some(passed), verification := notes), r, i, notes)
    case Raised(true, message) =>
      var f := s.(status := StepStatus.Failed, error := message);
      Emitted(Unavailable(i), WithStep(t, i, f), ProviderError(Some(s.id), message))
    case Raised(false, message) =>
      if a < c.maxStepRetries + 1 then
        Emitted(Attempt(r, i, a + 1), WithStep(t, i, s.(error := message)), StepRetry(s.id, message, a + 1))
      else
        var f := s.(status := StepStatus.Failed, error := message);
        Emitted(Broken, WithStep(t, i, f), StepFailed(s.id, message))
    case _ => None
  }

  /** Saving the episodic memory of a finished task may raise; inside the handler nothing catches it. */
  function FinishMove(t: TaskRow, inHandler: bool, x: Input): Option<Move> {
    match x
    case Go => Emitted(Done, t, StreamEnd(t.status))
    case Raised(false, message) => if inHandler then Silent(Aborted, t) else Handle(t, false, message)
    case _ => None
  }

  function PlanMove(t: TaskRow, x: Input): Option<Move> {
    match x
    case Proposed(items, ids) =>
      if ValidProposal(items, ids) then Emitted(Planned, t.(steps := PlanOf(items, ids)), PlanCreated(|ids|)) else None
    case Raised(p, message) => Handle(t, p, message)
    case _ => None
  }

  function AssessMove(t: TaskRow, x: Input): Option<Move> {
    match x
    case Assessed(risk) => Emitted(Gate, t.(risk := Some(risk)), RiskAssessed(risk))
    case Raised(p, message) => Handle(t, p, message)
    case _ => None
  }

  function ReportMove(t: TaskRow, x: Input): Option<Move> {
    match x
    case Synthesized(report) => Emitted(Reported, t.(result := report), TaskCompleted(report))
    case Raised(p, message) => Handle(t, p, message)
    case _ => None
  }

  /** The points at which the runner waits for nothing. */
  function AutoMove(c: Config, k: Ctl, t: TaskRow): Option<Move> {
    match k
    case Start =>
      if t.steps == [] || t.risk.None? then SetStatus(PlanOpened, t, TaskStatus.Planning)
      else Silent(Gate, t.(steps := ResumeSteps(t.steps)))
    case PlanOpened => Emitted(Ctl.Planning, t, AgentStarted("planner"))
    case Planned => SetStatus(AssessOpened, t, AssessingRisk)
    case AssessOpened => Emitted(Assessing, t, AgentStarted("safety"))
    case Gate => GateMove(c, t)
    case Cleared => Launch(t)
    case Refused => Deny(t)
    case Loop(r, i) => LoopMove(t, r, i)
    case Ready(r, i) => if i < |t.steps| then ReadyMove(t, r, i) else None
    case Attempt(r, i, a) => if i < |t.steps| then AttemptMove(t, r, i, a) else None
    case Unavailable(i) =>
      if i < |t.steps| then Emitted(Broken, t, StepFailed(t.steps[i].id, t.steps[i].error)) else None
    case Broken => Handle(t, false, "RuntimeError: " + FailureText(t.steps))
    case Rework(r) => SetStatus(Loop(r + 1, 0), Reset(t), TaskStatus.Running)
    case Reported => SetStatus(Finishing(false), t, TaskStatus.Completed)
    case Failing => Emitted(Doomed, t, TaskFailed(t.error))
    case Doomed => SetStatus(Finishing(true), t, TaskStatus.Failed)
    case _ => None
  }

  /** One step of the runner; None when the input does not fit the control point. */
  function Step(c: Config, k: Ctl, t: TaskRow, x: Input): Option<Move> {
    match k
    case Planning => PlanMove(t, x)
    case Assessing => AssessMove(t, x)
    case Waiting => WaitMove(t, x)
    case Calling(r, i, a) => if i < |t.steps| then CallMove(c, t, r, i, a, x) else None
    case Synthesizing => ReportMove(t, x)
    case Finishing(h) => FinishMove(t, h, x)
    case _ => if x == Go then AutoMove(c, k, t) else None
  }
}
