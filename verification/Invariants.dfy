/** What one runner keeps, whatever row it started from: the local invariant of the
    controller and the facts about a single step that the whole-run theorems build on. */
module Invariants {
  import opened Models
  import opened Controller

  // ------------------------------------------------------------- step lists

  /** COMPLETED*, then at most one RUNNING or FAILED, then PENDING*. */
  ghost predicate Ordered(steps: seq<StepRow>) {
    forall i, j :: 0 <= i < j < |steps| && !steps[j].status.Pending? ==> steps[i].status.Completed?
  }

  ghost predicate AllDone(steps: seq<StepRow>) {
    forall i :: 0 <= i < |steps| ==> steps[i].status.Completed?
  }

  ghost predicate AllFresh(steps: seq<StepRow>) {
    forall i :: 0 <= i < |steps| ==> steps[i].status.Pending? && steps[i].attempts == 0 && steps[i].output == ""
  }

  /** No step is RUNNING or FAILED. */
  ghost predicate Settled(steps: seq<StepRow>) {
    forall i :: 0 <= i < |steps| ==> steps[i].status.Pending? || steps[i].status.Completed?
  }

  /** One to six steps of planner, coder or browser, then the one verifier step; identifiers are distinct. */
  ghost predicate PlanShape(steps: seq<StepRow>) {
    && 2 <= |steps| <= 7
    && steps[|steps| - 1].agent == VERIFIER
    && (forall i :: 0 <= i < |steps| - 1 ==> steps[i].agent in {"planner", "coder", "browser"})
    && (forall i, j :: 0 <= i < j < |steps| ==> steps[i].id != steps[j].id)
  }

  /** Step i is the one at work: everything before it is done, everything after it is pending. */
  ghost predicate Front(steps: seq<StepRow>, i: nat) {
    && i <= |steps|
    && (forall j :: 0 <= j < i ==> steps[j].status.Completed?)
    && (forall j :: i < j < |steps| ==> steps[j].status.Pending?)
  }

  // -------------------------------------------------------- local invariant

  /** Holds of every snapshot that is ever committed. */
  ghost predicate Sound(t: TaskRow) {
    && (t.risk.None? ==> AllFresh(t.steps) && t.rework == 0)
    && (t.steps != [] ==> PlanShape(t.steps))
    && (t.risk.Some? ==> t.steps != [])
    && Ordered(t.steps)
    && t.rework < MAX_ROUNDS
    && (t.verified.Some? <==> t.risk.Some? && AllDone(t.steps))
    && (t.status.Completed? ==> t.verified == Some(true))
  }

  /** The gate lets this snapshot execute. */
  predicate Permitted(t: TaskRow) {
    t.risk.Some? && (!t.risk.value.requiresApproval || t.decision == Some(true) || t.autoApprove)
  }

  /** The runner has passed the gate and may still work on a step. */
  predicate Executing(k: Ctl) {
    k.Cleared? || k.Loop? || k.Ready? || k.Attempt? || k.Calling? || k.Rework?
  }

  ghost predicate At(c: Config, k: Ctl, t: TaskRow) {
    match k
    case Start => true
    case PlanOpened => t.risk.None?
    case Planning => t.risk.None?
    case Planned => t.risk.None? && t.steps != []
    case AssessOpened => t.risk.None? && t.steps != []
    case Assessing => t.risk.None? && t.steps != []
    case Gate => t.risk.Some? && Settled(t.steps)
    case Waiting => t.risk.Some? && Settled(t.steps)
    case Paused => t.risk.Some? && Settled(t.steps)
    case Cleared => t.risk.Some? && Settled(t.steps)
    case Refused => t.risk.Some? && Settled(t.steps)
    case Loop(r, i) =>
      && t.risk.Some? && r == t.rework + 1 && Settled(t.steps) && i <= |t.steps|
      && (forall j :: 0 <= j < i ==> t.steps[j].status.Completed?)
    case Ready(r, i) =>
      && t.risk.Some? && r == t.rework + 1 && i < |t.steps| && Front(t.steps, i) && t.steps[i].status.Pending?
    case Attempt(r, i, a) =>
      && t.risk.Some? && r == t.rework + 1 && i < |t.steps| && Front(t.steps, i) && t.steps[i].status.Running?
      && t.steps[i].agent in COMMITTEE && 1 <= a <= c.maxStepRetries + 1
    case Calling(r, i, a) =>
      && t.risk.Some? && r == t.rework + 1 && i < |t.steps| && Front(t.steps, i) && t.steps[i].status.Running?
      && t.steps[i].agent in COMMITTEE && 1 <= a <= c.maxStepRetries + 1
    case Unavailable(i) => i < |t.steps|
    case Broken => true
    case Rework(r) => t.risk.Some? && 1 <= r == t.rework && t.verified == Some(false)
    case Synthesizing => t.verified == Some(true)
    case Reported => t.verified == Some(true)
    case Failing => true
    case Doomed => true
    case Finishing(_) => t.status.Terminal()
    case Done => t.status.Terminal()
    case Aborted => t.status.Terminal()
  }

  /** The local invariant: it speaks of the runner's own copy of the task only. */
  ghost predicate Local(c: Config, k: Ctl, t: TaskRow) {
    && Sound(t)
    && At(c, k, t)
    && (Executing(k) ==> Permitted(t))
    && (Executing(k) && !k.Cleared? ==> t.status.Running? || t.status.Verifying?)
  }

  // ----------------------------------------------------------- preservation

  lemma PlansAreShaped(items: seq<PlannedStep>, ids: seq<string>)
    requires ValidProposal(items, ids)
    ensures PlanShape(PlanOf(items, ids)) && AllFresh(PlanOf(items, ids)) && Ordered(PlanOf(items, ids))
  {
  }

  /** The plan is the proposal, step by step and in order, and then the verifier's step. */
  lemma PlanKeepsProposal(items: seq<PlannedStep>, ids: seq<string>)
    requires |ids| == |items| + 1
    ensures |PlanOf(items, ids)| == |items| + 1
    ensures forall i :: 0 <= i < |items| ==>
              var s := PlanOf(items, ids)[i];
              s.id == ids[i] && s.title == items[i].title && s.agent == items[i].agent && s.detail == items[i].detail
    ensures var s := PlanOf(items, ids)[|items|];
            && s.id == ids[|items|] && s.agent == "verifier"
            && s.title == "Verify outputs against the goal"
            && s.detail == "Check requirement coverage and consistency."
  {
  }

  ghost predicate Keeps(c: Config, m: Option<Move>) {
    m.Some? ==> Local(c, m.value.ctl, m.value.task)
  }

  lemma PlanningKeeps(c: Config, t: TaskRow, x: Input)
    requires Local(c, Ctl.Planning, t)
    ensures Keeps(c, PlanMove(t, x))
  {
    if x.Proposed? && ValidProposal(x.items, x.ids) {
      PlansAreShaped(x.items, x.ids);
      assert PlanOf(x.items, x.ids)[0].status.Pending?;
    }
  }

  lemma ResumeIsSettled(steps: seq<StepRow>)
    requires Ordered(steps)
    ensures Settled(ResumeSteps(steps)) && Ordered(ResumeSteps(steps))
    ensures AllDone(ResumeSteps(steps)) <==> AllDone(steps)
    ensures PlanShape(steps) ==> PlanShape(ResumeSteps(steps))
  {
    var u := ResumeSteps(steps);
    assert forall i :: 0 <= i < |u| ==> (u[i].status.Completed? <==> steps[i].status.Completed?);
  }

  lemma FreshIsSettled(steps: seq<StepRow>)
    requires AllFresh(steps) && steps != []
    ensures Settled(steps) && !AllDone(steps)
  {
    assert steps[0].status.Pending?;
  }

  lemma StartKeeps(c: Config, t: TaskRow)
    requires Local(c, Start, t)
    ensures Keeps(c, AutoMove(c, Start, t))
  {
    ResumeIsSettled(t.steps);
    hide Ordered, Settled, AllDone, PlanShape, ResumeSteps;
  }

  lemma SettledFront(steps: seq<StepRow>, i: nat)
    requires Ordered(steps) && Settled(steps) && i < |steps| && !steps[i].status.Completed?
    requires forall j :: 0 <= j < i ==> steps[j].status.Completed?
    ensures Front(steps, i) && steps[i].status.Pending? && !AllDone(steps)
  {
  }

  lemma LoopKeeps(c: Config, t: TaskRow, r: nat, i: nat)
    requires Local(c, Loop(r, i), t)
    ensures Keeps(c, LoopMove(t, r, i))
  {
    if i < |t.steps| {
      if !t.steps[i].status.Completed? {
        SettledFront(t.steps, i);
      }
    } else {
      assert AllDone(t.steps);
      var passed := t.verified.value;
      assert t.verified == Some(passed);
    }
    hide Ordered, AllDone, PlanShape, AllFresh;
  }

  lemma StepEditKeeps(t: TaskRow, i: nat, s: StepRow)
    requires Sound(t) && t.risk.Some? && i < |t.steps| && Front(t.steps, i) && !t.steps[i].status.Completed?
    requires s.id == t.steps[i].id && s.agent == t.steps[i].agent && !s.status.Completed?
    ensures Sound(WithStep(t, i, s)) && Front(WithStep(t, i, s).steps, i)
  {
    var u := WithStep(t, i, s).steps;
    assert !u[i].status.Completed?;
  }

  lemma CompletionKeeps(c: Config, t: TaskRow, r: nat, i: nat, a: nat, x: Input)
    requires Local(c, Calling(r, i, a), t) && (x.Answered? || x.Judged?)
    ensures Keeps(c, CallMove(c, t, r, i, a, x))
  {
    var m := CallMove(c, t, r, i, a, x);
    if m.Some? {
      var u := m.value.task.steps;
      assert forall j :: 0 <= j <= i ==> u[j].status.Completed?;
      assert forall j :: i < j < |u| ==> u[j].status.Pending?;
      assert x.Judged? <==> i == |u| - 1;
      if i < |u| - 1 {
        assert !u[i + 1].status.Completed?;
      } else {
        assert AllDone(u);
      }
    }
  }

  lemma ReadyKeeps(c: Config, t: TaskRow, r: nat, i: nat)
    requires Local(c, Ready(r, i), t)
    ensures Keeps(c, ReadyMove(t, r, i))
  {
    StepEditKeeps(t, i, ReadyMove(t, r, i).value.task.steps[i]);
    hide Sound, Front;
  }

  lemma AttemptKeeps(c: Config, t: TaskRow, r: nat, i: nat, a: nat)
    requires Local(c, Attempt(r, i, a), t)
    ensures Keeps(c, AttemptMove(t, r, i, a))
  {
    StepEditKeeps(t, i, AttemptMove(t, r, i, a).value.task.steps[i]);
    hide Sound, Front;
  }

  lemma FailureKeeps(c: Config, t: TaskRow, r: nat, i: nat, a: nat, x: Input)
    requires Local(c, Calling(r, i, a), t) && x.Raised?
    ensures Keeps(c, CallMove(c, t, r, i, a, x))
  {
    StepEditKeeps(t, i, CallMove(c, t, r, i, a, x).value.task.steps[i]);
    hide Sound, Front;
  }

  lemma ReworkKeeps(c: Config, t: TaskRow, r: nat)
    requires Local(c, Rework(r), t)
    ensures Keeps(c, AutoMove(c, Rework(r), t))
  {
    var u := ResetSteps(t.steps);
    assert u[0].status.Pending?;
  }

  lemma AssessingKeeps(c: Config, t: TaskRow, x: Input)
    requires Local(c, Assessing, t)
    ensures Keeps(c, AssessMove(t, x))
  {
    FreshIsSettled(t.steps);
    hide Ordered, AllDone, AllFresh, PlanShape, Settled;
  }

  lemma GateKeeps(c: Config, t: TaskRow)
    requires Local(c, Gate, t)
    ensures Keeps(c, GateMove(c, t))
  {
    hide Ordered, AllDone, AllFresh, PlanShape, Settled;
  }

  /** The remaining control points leave the steps as they are. */
  lemma QuietKeeps(c: Config, k: Ctl, t: TaskRow, x: Input)
    requires Local(c, k, t)
    requires !Working(k) && !k.Planning? && !k.Start? && !k.Loop? && !k.Assessing? && !k.Rework? && !k.Gate?
    ensures Keeps(c, Step(c, k, t, x))
  {
    hide Ordered, AllDone, AllFresh, PlanShape, Settled, Front, FailureText, GateMove;
  }

  /** Every step of a runner keeps the local invariant. */
  lemma StepKeepsLocal(c: Config, k: Ctl, t: TaskRow, x: Input)
    requires Local(c, k, t)
    ensures Keeps(c, Step(c, k, t, x))
  {
    hide Local;
    match k {
      case Planning => PlanningKeeps(c, t, x);
      case Start => StartKeeps(c, t);
      case Loop(r, i) => LoopKeeps(c, t, r, i);
      case Assessing => AssessingKeeps(c, t, x);
      case Ready(r, i) => ReadyKeeps(c, t, r, i);
      case Attempt(r, i, a) => AttemptKeeps(c, t, r, i, a);
      case Calling(r, i, a) =>
        if x.Raised? {
          FailureKeeps(c, t, r, i, a, x);
        } else if x.Answered? || x.Judged? {
          CompletionKeeps(c, t, r, i, a, x);
        }
      case Rework(r) => ReworkKeeps(c, t, r);
      case Gate => GateKeeps(c, t);
      case _ => QuietKeeps(c, k, t, x);
    }
  }

  /** Any committed snapshot is a sound starting point for a later run. */
  lemma SoundRowsRestart(c: Config, t: TaskRow)
    requires Sound(t)
    ensures Local(c, Start, t)
  {
  }

  // ----------------------------------------------------------------- frames

  /** Only these control points touch a single step. */
  predicate Working(k: Ctl) {
    k.Ready? || k.Attempt? || k.Calling?
  }

  /** Which fields a move may change, by control point. */
  lemma StepsFrame(c: Config, k: Ctl, t: TaskRow, x: Input)
    requires Step(c, k, t, x).Some? && !Working(k) && !k.Start? && !k.Planning? && !k.Rework?
    ensures Step(c, k, t, x).value.task.steps == t.steps
  {
    hide FailureText;
  }

  /** Where all steps may change at once. */
  lemma BulkFrame(c: Config, k: Ctl, t: TaskRow, x: Input)
    requires Step(c, k, t, x).Some?
    ensures var u := Step(c, k, t, x).value.task.steps;
            && (k.Start? ==> u == t.steps || u == ResumeSteps(t.steps))
            && (k.Rework? ==> u == ResetSteps(t.steps))
            && (k.Planning? && x.Proposed? ==> ValidProposal(x.items, x.ids) && u == PlanOf(x.items, x.ids))
            && (k.Planning? && !x.Proposed? ==> u == t.steps)
  {
    hide ResumeSteps, ResetSteps, PlanOf, FailureText, ValidProposal;
  }

  lemma RiskFrame(c: Config, k: Ctl, t: TaskRow, x: Input)
    requires Step(c, k, t, x).Some? && !k.Assessing?
    ensures Step(c, k, t, x).value.task.risk == t.risk
  {
    hide ResumeSteps, ResetSteps, PlanOf, FailureText, ValidProposal;
  }

  lemma VerdictFrame(c: Config, k: Ctl, t: TaskRow, x: Input)
    requires Step(c, k, t, x).Some? && !k.Calling? && !k.Rework?
    ensures Step(c, k, t, x).value.task.verified == t.verified
  {
    hide ResumeSteps, ResetSteps, PlanOf, FailureText, ValidProposal;
  }

  lemma CounterFrame(c: Config, k: Ctl, t: TaskRow, x: Input)
    requires Step(c, k, t, x).Some? && !k.Loop?
    ensures Step(c, k, t, x).value.task.rework == t.rework && !Step(c, k, t, x).value.ctl.Rework?
  {
    hide ResumeSteps, ResetSteps, PlanOf, FailureText, ValidProposal;
  }

  /** The rework counter moves exactly when `rework.started` is committed. */
  lemma ReworkFrame(c: Config, k: Ctl, t: TaskRow, x: Input)
    requires Step(c, k, t, x).Some?
    ensures var m := Step(c, k, t, x).value; m.task.rework == t.rework + (if m.ctl.Rework? then 1 else 0)
  {
    if k.Loop? {
      hide FailureText;
    } else {
      CounterFrame(c, k, t, x);
      hide Step;
    }
  }

  lemma ReworkEvent(c: Config, k: Ctl, t: TaskRow, x: Input)
    requires Step(c, k, t, x).Some?
    ensures var m := Step(c, k, t, x).value;
            && (m.ctl.Rework? <==> m.event.Some? && m.event.value.ReworkStarted?)
            && (m.ctl.Rework? ==> k.Loop? && m.event == Some(ReworkStarted(m.task.rework)))
  {
    hide ResumeSteps, ResetSteps, PlanOf, FailureText, ValidProposal;
  }

  lemma DoneEvents(c: Config, k: Ctl, t: TaskRow, x: Input)
    requires Step(c, k, t, x).Some? && Step(c, k, t, x).value.event.Some?
    ensures var m := Step(c, k, t, x).value;
            m.event.value.StepCompleted? ==> k.Calling? && m.ctl == Loop(k.round, k.i + 1)
  {
    hide ResumeSteps, ResetSteps, PlanOf, FailureText, ValidProposal;
  }

  lemma AttemptEvents(c: Config, k: Ctl, t: TaskRow, x: Input)
    requires Step(c, k, t, x).Some? && Step(c, k, t, x).value.event.Some?
    ensures var m := Step(c, k, t, x).value;
            m.event.value.StepAttempted? ==> k.Attempt? && m.ctl == Calling(k.round, k.i, k.a)
  {
    hide ResumeSteps, ResetSteps, PlanOf, FailureText, ValidProposal;
  }

  /** Step events are committed only where a step is worked on, and speak of that step. */
  lemma WorkEvents(c: Config, k: Ctl, t: TaskRow, x: Input)
    requires Step(c, k, t, x).Some? && Step(c, k, t, x).value.event.Some?
    ensures var m := Step(c, k, t, x).value;
            var e := m.event.value;
            && (e.StepCompleted? ==> k.Calling? && m.ctl == Loop(k.round, k.i + 1))
            && (e.StepAttempted? ==> k.Attempt? && m.ctl == Calling(k.round, k.i, k.a))
  {
    hide Step;
    DoneEvents(c, k, t, x);
    AttemptEvents(c, k, t, x);
  }

  ghost predicate SameWorkOrder(a: StepRow, b: StepRow) {
    a.id == b.id && a.title == b.title && a.agent == b.agent && a.detail == b.detail
  }

  /** What one move does to the step at work. */
  ghost predicate StepEdit(s: StepRow, u: StepRow, e: Event) {
    && SameWorkOrder(s, u)
    && u.attempts == s.attempts + (if e.StepAttempted? then 1 else 0)
    && (e.StepAttempted? ==> e == StepAttempted(s.id, s.agent, u.attempts))
    && (if e.StepCompleted? then u.status.Completed? && e == StepCompleted(s.id, s.agent, u.output, u.attempts)
        else !u.status.Completed? && u.output == s.output)
  }

  lemma WorkFrame(c: Config, k: Ctl, t: TaskRow, x: Input)
    requires Local(c, k, t) && Working(k) && Step(c, k, t, x).Some?
    ensures var m := Step(c, k, t, x).value;
            && k.i < |t.steps| == |m.task.steps|
            && m.task.steps == t.steps[k.i := m.task.steps[k.i]]
            && m.event.Some?
            && StepEdit(t.steps[k.i], m.task.steps[k.i], m.event.value)
  {
    hide Sound, Front;
  }

  /** Where the work on a step can lead. */
  lemma WorkCtl(c: Config, k: Ctl, t: TaskRow, x: Input)
    requires Step(c, k, t, x).Some?
    ensures var n := Step(c, k, t, x).value.ctl;
            && (k.Ready? ==> n.Broken? || n == Attempt(k.round, k.i, 1))
            && (k.Attempt? ==> n == Calling(k.round, k.i, k.a))
            && (k.Calling? ==> n.Loop? || n.Unavailable? || n.Broken? || n == Attempt(k.round, k.i, k.a + 1))
            && (!Working(k) ==> !n.Attempt? && !n.Calling?)
            && !n.Start?
  {
    hide ResumeSteps, ResetSteps, PlanOf, FailureText, ValidProposal;
  }
}
