/** Gate safety, and the shape of every committed snapshot, over every run of the single-process
    system: any plan, any answers, any number of crashes, any interleaving with the reviewer
    and the janitor. */
module Safety {
  import opened Models
  import opened Controller
  import opened Invariants
  import opened InProcess
  import opened SystemInvariant

  // ------------------------------------------------------------ gate safety

  ghost predicate AttemptsPermitted(log: seq<Commit>) {
    forall j :: 0 <= j < |log| && log[j].event.StepAttempted? ==> Permitted(log[j].row)
  }

  lemma AttemptMoves(c: Config, k: Ctl, t: TaskRow, x: Input)
    requires Local(c, k, t) && Step(c, k, t, x).Some?
    requires Step(c, k, t, x).value.event.Some? && Step(c, k, t, x).value.event.value.StepAttempted?
    ensures k.Attempt? && Permitted(Step(c, k, t, x).value.task)
    ensures var e := Step(c, k, t, x).value.event.value;
            var u := Step(c, k, t, x).value.task;
            e.step == t.steps[k.i].id && e.agent == t.steps[k.i].agent && e.attempts == t.steps[k.i].attempts + 1
  {
    hide Sound, ResumeSteps, ResetSteps, PlanOf, FailureText, ValidProposal, Settled, Front;
  }

  lemma AttemptsStayPermitted(c: Config, w: World, l: Label)
    requires Inv(c, w) && AttemptsPermitted(w.log) && Apply(c, w, l).Some?
    ensures AttemptsPermitted(Apply(c, w, l).value.log)
  {
    if l.Run? {
      var m := Step(c, w.ctl, w.live, l.x).value;
      if m.event.Some? && m.event.value.StepAttempted? {
        AttemptMoves(c, w.ctl, w.live, l.x);
      }
    }
    hide Step, Local, Sound;
  }

  /** Gate safety: no attempt is ever committed on a snapshot the gate would not let through. */
  lemma GateSafety(c: Config, w0: World, ls: seq<Label>, w: World)
    requires Reaches(c, w0, ls, w)
    ensures AttemptsPermitted(w.log)
  {
    var G := (l: Label) => true;
    var P := (v: World) => AttemptsPermitted(v.log);
    forall v, l | Inv(c, v) && P(v) && G(l) && Apply(c, v, l).Some? ensures P(Apply(c, v, l).value) {
      AttemptsStayPermitted(c, v, l);
    }
    Induct(c, G, P, w0, ls, w);
  }

  // ---------------------------------------------------------- step shape

  lemma SoundRows(c: Config, w: World, l: Label)
    requires Inv(c, w) && Apply(c, w, l).Some? && (forall j :: 0 <= j < |w.log| ==> Sound(w.log[j].row))
    ensures var v := Apply(c, w, l).value; forall j :: 0 <= j < |v.log| ==> Sound(v.log[j].row)
  {
    hide Apply, Step, Sound;
    var v := Apply(c, w, l).value;
    ApplyKeepsInv(c, w, l);
    assert Sound(v.row);
    if l.Run? {
      RunEffect(c, w, l.x);
    } else {
      OutsiderEffect(c, w, l);
    }
    assert forall j :: 0 <= j < |w.log| ==> v.log[j] == w.log[j];
  }

  /** Ordered says what it is meant to: everything before some index is COMPLETED and everything after it is
      PENDING, so at most the step at that index is RUNNING or FAILED. */
  lemma OrderedHasFront(steps: seq<StepRow>)
    ensures Ordered(steps) <==> exists n: nat :: n <= |steps| && Front(steps, n)
  {
    if Ordered(steps) {
      var n: nat := 0;
      while n < |steps| && steps[n].status.Completed?
        invariant n <= |steps|
        invariant forall j :: 0 <= j < n ==> steps[j].status.Completed?
      {
        n := n + 1;
      }
      assert Front(steps, n);
    }
  }

  /** At every commit the step statuses read COMPLETED*, at most one RUNNING or FAILED, PENDING*;
      the plan has the planner's shape and the rework counter stays below MAX_ROUNDS. */
  lemma StepShape(c: Config, w0: World, ls: seq<Label>, w: World, j: nat)
    requires Reaches(c, w0, ls, w) && j < |w.log|
    ensures Ordered(w.log[j].row.steps)
    ensures w.log[j].row.steps != [] ==> PlanShape(w.log[j].row.steps)
    ensures w.log[j].row.rework < MAX_ROUNDS
  {
    var G := (l: Label) => true;
    var P := (v: World) => forall j :: 0 <= j < |v.log| ==> Sound(v.log[j].row);
    forall v, l | Inv(c, v) && P(v) && G(l) && Apply(c, v, l).Some? ensures P(Apply(c, v, l).value) {
      SoundRows(c, v, l);
    }
    Induct(c, G, P, w0, ls, w);
  }

  // --------------------------------------------------------------- denials

  /** A denied task needed a decision, and the decision was no. */
  predicate DenialJustified(t: TaskRow) {
    t.status.Denied? ==> NeedsDecision(t) && t.decision == Some(false)
  }

  ghost predicate DenialState(w: World) {
    && (w.ctl.Waiting? || w.ctl.Refused? ==> NeedsDecision(w.live))
    && DenialJustified(w.live) && DenialJustified(w.row)
    && forall j :: 0 <= j < |w.log| ==> DenialJustified(w.log[j].row)
  }

  lemma GateDenials(c: Config, t: TaskRow)
    requires t.risk.Some? && GateMove(c, t).Some?
    ensures var m := GateMove(c, t).value;
            && (m.task.status.Denied? ==> t.status.Denied?)
            && (m.ctl.Waiting? || m.ctl.Refused? ==> NeedsDecision(t))
            && m.task.decision == t.decision && m.task.autoApprove == t.autoApprove
  {
    if t.decision.Some? {
      var approved := t.decision.value;
      assert t.decision == Some(approved);
    }
  }

  lemma DecisionFrame(c: Config, k: Ctl, t: TaskRow, x: Input)
    requires !k.Gate? && !k.Waiting? && Step(c, k, t, x).Some?
    ensures var u := Step(c, k, t, x).value.task; u.decision == t.decision && u.autoApprove == t.autoApprove
  {
    hide ResumeSteps, ResetSteps, PlanOf, FailureText, ValidProposal, GateMove;
  }

  lemma DeniedFrame(c: Config, k: Ctl, t: TaskRow, x: Input)
    requires !k.Gate? && !k.Waiting? && !k.Refused? && Step(c, k, t, x).Some?
    ensures Step(c, k, t, x).value.task.status.Denied? ==> t.status.Denied?
  {
    hide ResumeSteps, ResetSteps, PlanOf, FailureText, ValidProposal, GateMove;
  }

  lemma RefusalFrame(c: Config, k: Ctl, t: TaskRow, x: Input)
    requires !k.Gate? && !k.Waiting? && Step(c, k, t, x).Some?
    ensures !Step(c, k, t, x).value.ctl.Waiting? && !Step(c, k, t, x).value.ctl.Refused?
  {
    hide ResumeSteps, ResetSteps, PlanOf, FailureText, ValidProposal, GateMove;
  }

  lemma DenialMoves(c: Config, k: Ctl, t: TaskRow, x: Input)
    requires Local(c, k, t) && Step(c, k, t, x).Some?
    ensures var m := Step(c, k, t, x).value;
            && (m.task.status.Denied? ==> t.status.Denied? || k.Refused?)
            && (m.ctl.Waiting? || m.ctl.Refused? ==> k.Waiting? || (k.Gate? && NeedsDecision(t)))
            && (!k.Waiting? ==> m.task.decision == t.decision)
            && (k.Waiting? && !x.Polled? ==> m.task.decision == Some(false))
            && (k.Waiting? && x.Polled? ==> m.task.decision == Some(x.approved) && m.task.status == t.status)
            && m.task.autoApprove == t.autoApprove
  {
    hide Sound, Settled, Front;
    if k.Gate? {
      GateDenials(c, t);
      hide GateMove;
    } else if !k.Waiting? {
      DecisionFrame(c, k, t, x);
      RefusalFrame(c, k, t, x);
      if !k.Refused? {
        DeniedFrame(c, k, t, x);
      }
      hide Step;
    }
  }

  lemma RunKeepsDenial(c: Config, w: World, x: Input)
    requires Inv(c, w) && DenialState(w) && Apply(c, w, Run(x)).Some?
    ensures DenialState(Apply(c, w, Run(x)).value)
  {
    var v := Apply(c, w, Run(x)).value;
    RunEffect(c, w, x);
    DenialMoves(c, w.ctl, w.live, x);
    if !w.ctl.Assessing? {
      RiskFrame(c, w.ctl, w.live, x);
    }
    assert w.live.status == w.row.status;
    assert x.Polled? ==> w.row.decision == Some(x.approved);
    assert w.ctl.Assessing? ==> w.live.risk.None?;
    hide Apply, Step, Local, Sound, JanitorState, ReviewerState, ResumeSteps;
    assert DenialJustified(v.live);
    if v.log != w.log {
      assert v.log[..|w.log|] == w.log;
    }
  }

  lemma OutsiderKeepsDenial(c: Config, w: World, l: Label)
    requires Inv(c, w) && DenialState(w) && !l.Run? && Apply(c, w, l).Some?
    ensures DenialState(Apply(c, w, l).value)
  {
    hide Local, Sound, ResumeSteps, Step;
  }

  /** No task is denied unless its risk needs a decision, `auto_approve` is off and the decision is no. */
  lemma DeniedOnlyByDecision(c: Config, w0: World, ls: seq<Label>, w: World, j: nat)
    requires Reaches(c, w0, ls, w) && j < |w.log| && w.log[j].row.status.Denied?
    ensures NeedsDecision(w.log[j].row) && w.log[j].row.decision == Some(false)
  {
    var G := (l: Label) => true;
    var P := (v: World) => DenialState(v);
    forall v, l | Inv(c, v) && P(v) && G(l) && Apply(c, v, l).Some? ensures P(Apply(c, v, l).value) {
      if l.Run? { RunKeepsDenial(c, v, l.x); } else { OutsiderKeepsDenial(c, v, l); }
    }
    Induct(c, G, P, w0, ls, w);
  }

  // ------------------------------------------------------------ work status

  /** The status under which an agent's step is worked on. */
  function StatusFor(agent: string): TaskStatus {
    if agent == VERIFIER then Verifying else TaskStatus.Running
  }

  predicate WorkStatus(k: Ctl, t: TaskRow) {
    (k.Ready? || k.Attempt? || k.Calling?) && k.i < |t.steps| ==> t.status == StatusFor(t.steps[k.i].agent)
  }

  /** A step event, and the status committed with it. */
  ghost predicate EventStatus(m: Commit) {
    m.event.StepAttempted? ==> m.row.status == StatusFor(m.event.agent)
  }

  lemma RunKeepsWorkStatus(c: Config, k: Ctl, t: TaskRow, x: Input)
    requires Local(c, k, t) && WorkStatus(k, t) && Step(c, k, t, x).Some?
    ensures WorkStatus(Step(c, k, t, x).value.ctl, Step(c, k, t, x).value.task)
  {
    if Working(k) {
      WorkingKeepsStatus(c, k, t, x);
      WorkFrame(c, k, t, x);
      WorkCtl(c, k, t, x);
      hide Step, Sound, Front;
    } else if k.Loop? {
      hide Sound, Settled, FailureText;
    } else {
      NothingStarts(c, k, t, x);
      hide Step, Local;
    }
  }

  lemma WorkingKeepsStatus(c: Config, k: Ctl, t: TaskRow, x: Input)
    requires Working(k) && Step(c, k, t, x).Some?
    ensures Step(c, k, t, x).value.task.status == t.status
  {
  }

  lemma NothingStarts(c: Config, k: Ctl, t: TaskRow, x: Input)
    requires !Working(k) && !k.Loop? && Step(c, k, t, x).Some?
    ensures !Working(Step(c, k, t, x).value.ctl)
  {
    hide ResumeSteps, ResetSteps, PlanOf, FailureText, ValidProposal;
  }

  ghost predicate StatusState(w: World) {
    WorkStatus(w.ctl, w.live) && forall j :: 0 <= j < |w.log| ==> EventStatus(w.log[j])
  }

  lemma StatusStays(c: Config, w: World, l: Label)
    requires Inv(c, w) && StatusState(w) && Apply(c, w, l).Some?
    ensures StatusState(Apply(c, w, l).value)
  {
    var v := Apply(c, w, l).value;
    assert Local(c, w.ctl, w.live);
    if l.Run? {
      RunEffect(c, w, l.x);
      RunKeepsWorkStatus(c, w.ctl, w.live, l.x);
      var m := Step(c, w.ctl, w.live, l.x).value;
      if m.event.Some? && m.event.value.StepAttempted? {
        AttemptMoves(c, w.ctl, w.live, l.x);
        WorkingKeepsStatus(c, w.ctl, w.live, l.x);
        assert w.ctl.i < |w.live.steps|;
      }
      hide Step, Apply, Inv, Local;
    } else {
      OutsiderEffect(c, w, l);
      OutsiderIdles(c, w, l);
      hide Step, Apply, Inv, Local;
    }
  }

  /** Nobody interferes while a step is worked on, except by a restart. */
  lemma OutsiderIdles(c: Config, w: World, l: Label)
    requires Inv(c, w) && !l.Run? && Apply(c, w, l).Some?
    ensures l.Restart? || Apply(c, w, l).value.live == w.live || !Working(w.ctl)
  {
    hide Local, Sound, Linked;
  }

  /** Whatever agent is called, the task says VERIFYING for the verifier and RUNNING for every other. */
  lemma StatusMatchesAgent(c: Config, w0: World, ls: seq<Label>, w: World, j: nat)
    requires Reaches(c, w0, ls, w) && j < |w.log| && w.log[j].event.StepAttempted?
    ensures w.log[j].row.status == if w.log[j].event.agent == VERIFIER then Verifying else TaskStatus.Running
  {
    var G := (l: Label) => true;
    var P := (v: World) => StatusState(v);
    forall v, l | Inv(c, v) && P(v) && G(l) && Apply(c, v, l).Some? ensures P(Apply(c, v, l).value) {
      StatusStays(c, v, l);
    }
    Induct(c, G, P, w0, ls, w);
    assert EventStatus(w.log[j]);
  }
}
