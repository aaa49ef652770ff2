/** The invariant of the single-process system and the induction principle over its runs. */
module SystemInvariant {
  import opened Models
  import opened Controller
  import opened Invariants
  import opened InProcess

  /** The gate would not open without a decision. */
  predicate NeedsDecision(t: TaskRow) {
    t.risk.Some? && t.risk.value.requiresApproval && !t.autoApprove
  }

  /** The runner has not settled the approval question yet. */
  predicate Early(k: Ctl) {
    k.Start? || k.Gate? || k.Waiting?
  }

  predicate Late(k: Ctl) {
    k.Refused? || k.Finishing? || k.Doomed? || k.Done? || k.Aborted?
  }

  /** Between commits the live object differs from the row at most by the resumed steps and the decision. */
  ghost predicate Linked(row: TaskRow, live: TaskRow) {
    && live == row.(steps := live.steps, decision := live.decision)
    && (live.steps == row.steps || live.steps == ResumeSteps(row.steps))
  }

  ghost predicate ApprovalState(w: World) {
    && (w.row.status.AwaitingApproval? ==> NeedsDecision(w.row))
    && (w.row.status.AwaitingApproval? ==> Early(w.ctl) || w.ctl.Paused? || w.ctl.Cleared? || w.ctl.Refused?)
    && (Undecided(w.row) ==> Early(w.ctl) || w.ctl.Paused?)
    && (Early(w.ctl) && w.live.decision.Some? ==> w.row.decision == w.live.decision)
    && (w.ctl.Refused? ==> w.live.decision == Some(false))
    && (!w.row.status.AwaitingApproval? ==> w.row.decision == w.live.decision)
  }

  ghost predicate ReviewerState(w: World) {
    w.announcing.Some? ==> Early(w.ctl) && w.janitor.Idle? && w.row.decision == w.announcing
                           && w.row.status.AwaitingApproval?
  }

  ghost predicate JanitorState(w: World) {
    !w.janitor.Idle? ==>
      && NeedsDecision(w.live)
      && w.row.decision == Some(false)
      && w.live.decision != Some(true)
      && (Early(w.ctl) || Late(w.ctl))
      && (Late(w.ctl) ==> w.live.decision == Some(false))
      && (w.live.decision.None? ==> w.janitor.Claimed? && w.live.status.AwaitingApproval?)
  }

  ghost predicate Inv(c: Config, w: World) {
    && Local(c, w.ctl, w.live)
    && Sound(w.row)
    && Linked(w.row, w.live)
    && ApprovalState(w)
    && ReviewerState(w)
    && JanitorState(w)
    && (if c.celery then w.announcing.None? && w.janitor.Idle? else !w.ctl.Paused?)
  }

  // ----------------------------------------------------------- preservation

  /** What a silent step may do to the live object. */
  lemma SilentMoves(c: Config, k: Ctl, t: TaskRow, x: Input)
    requires Step(c, k, t, x).Some? && Step(c, k, t, x).value.event.None?
    ensures var u := Step(c, k, t, x).value.task;
            && (k.Start? ==> u == t.(steps := ResumeSteps(t.steps)))
            && (k.Waiting? ==> x.Polled? && u == t.(decision := Some(x.approved)))
            && (!k.Start? && !k.Waiting? ==> u == t)
  {
  }

  lemma ResumeTwice(steps: seq<StepRow>)
    ensures ResumeSteps(ResumeSteps(steps)) == ResumeSteps(steps)
  {
  }

  lemma RunKeepsLink(c: Config, w: World, x: Input)
    requires Inv(c, w) && Apply(c, w, Run(x)).Some?
    ensures var v := Apply(c, w, Run(x)).value; Linked(v.row, v.live)
  {
    var m := Step(c, w.ctl, w.live, x).value;
    if m.event.None? {
      SilentMoves(c, w.ctl, w.live, x);
      ResumeTwice(w.row.steps);
    }
    hide Step, Sound, Local;
  }

  /** A commit that asks for approval leaves the runner waiting or paused; a silent step settles the question
      only as the row already has it. */
  lemma RunKeepsApproval(c: Config, w: World, x: Input)
    requires Inv(c, w) && Apply(c, w, Run(x)).Some?
    ensures ApprovalState(Apply(c, w, Run(x)).value)
  {
    hide Sound, ResumeSteps, ResetSteps, PlanOf, FailureText, ValidProposal, At, ReviewerState, JanitorState;
    if w.row.status.AwaitingApproval? {
      assert w.live.risk.Some? by {
        hide Step;
      }
      AwaitingMoves(c, w, x);
    } else {
      CalmMoves(c, w.ctl, w.live, x);
    }
    hide Step, Local;
  }

  lemma AwaitingMoves(c: Config, w: World, x: Input)
    requires Inv(c, w) && w.row.status.AwaitingApproval? && Apply(c, w, Run(x)).Some?
    ensures var v := Apply(c, w, Run(x)).value;
            if v.log == w.log then
              && (Early(v.ctl) || v.ctl.Cleared? || v.ctl.Refused?)
              && (v.ctl.Cleared? || v.ctl.Refused? ==> v.row.decision.Some?)
              && (Early(v.ctl) && v.live.decision.Some? ==> v.row.decision == v.live.decision)
              && (v.ctl.Refused? ==> v.live.decision == Some(false))
            else
              && (v.live.status.AwaitingApproval? ==> v.ctl.Refused? || v.ctl.Paused?)
              && !Early(v.ctl)
              && (v.ctl.Refused? ==> v.live.decision == Some(false))
  {
    hide Ordered, AllDone, AllFresh, PlanShape, Settled, Front, ResumeSteps, ReviewerState, JanitorState;
  }

  lemma CalmCommits(c: Config, k: Ctl, t: TaskRow, x: Input)
    requires !t.status.AwaitingApproval? && Step(c, k, t, x).Some?
    ensures var m := Step(c, k, t, x).value;
            && (m.event.Some? && m.task.status.AwaitingApproval? ==>
                  NeedsDecision(m.task) && m.task.decision.None? && (m.ctl.Waiting? || m.ctl.Paused?))
            && (m.ctl.Refused? ==> m.task.decision == Some(false))
  {
    hide ResumeSteps, ResetSteps, PlanOf, FailureText, ValidProposal;
  }

  lemma CalmMoves(c: Config, k: Ctl, t: TaskRow, x: Input)
    requires !t.status.AwaitingApproval? && Step(c, k, t, x).Some?
    ensures var m := Step(c, k, t, x).value;
            && (m.event.Some? && m.task.status.AwaitingApproval? ==>
                  NeedsDecision(m.task) && m.task.decision.None? && (m.ctl.Waiting? || m.ctl.Paused?))
            && (m.event.None? && Early(m.ctl) ==> k.Start? && m.task.decision == t.decision)
            && (m.ctl.Refused? ==> m.task.decision == Some(false))
            && (m.event.None? ==> m.task.status == t.status)
            && (m.event.None? && !x.Polled? ==> m.task.decision == t.decision)
            && (m.event.None? && x.Polled? ==> m.task.decision == Some(x.approved))
  {
    hide Step;
    CalmCommits(c, k, t, x);
    if Step(c, k, t, x).value.event.None? {
      CalmSilence(c, k, t, x);
    }
  }

  lemma CalmSilence(c: Config, k: Ctl, t: TaskRow, x: Input)
    requires !t.status.AwaitingApproval? && Step(c, k, t, x).Some? && Step(c, k, t, x).value.event.None?
    ensures var m := Step(c, k, t, x).value;
            && (Early(m.ctl) ==> k.Start? && x == Go)
            && m.task.status == t.status
            && m.task.decision == (if x.Polled? then Some(x.approved) else t.decision)
  {
    hide ResumeSteps, ResetSteps, PlanOf, FailureText, ValidProposal;
  }

  lemma RunKeepsJanitor(c: Config, w: World, x: Input)
    requires Inv(c, w) && Apply(c, w, Run(x)).Some?
    ensures JanitorState(Apply(c, w, Run(x)).value)
  {
    hide ResumeSteps, ResetSteps, PlanOf, FailureText, ValidProposal, Ordered, AllDone, AllFresh, PlanShape;
  }

  lemma PauseNeedsCelery(c: Config, k: Ctl, t: TaskRow, x: Input)
    ensures Step(c, k, t, x).Some? && Step(c, k, t, x).value.ctl.Paused? ==> c.celery
  {
    hide ResumeSteps, ResetSteps, PlanOf, FailureText, ValidProposal;
  }

  lemma RunKeepsInv(c: Config, w: World, x: Input)
    requires Inv(c, w) && Apply(c, w, Run(x)).Some?
    ensures Inv(c, Apply(c, w, Run(x)).value)
  {
    StepKeepsLocal(c, w.ctl, w.live, x);
    RunKeepsLink(c, w, x);
    RunKeepsApproval(c, w, x);
    RunKeepsJanitor(c, w, x);
    PauseNeedsCelery(c, w.ctl, w.live, x);
    hide Step, Linked, ApprovalState, JanitorState, Sound, At;
  }

  /** Nobody but the runner changes steps, risk, rework or verdict of the live object. */
  lemma OutsiderKeepsLocal(c: Config, k: Ctl, t: TaskRow, u: TaskRow)
    requires Local(c, k, t) && (Early(k) || Late(k))
    requires u == t.(decision := u.decision, result := u.result, status := u.status)
    requires u.status == t.status || u.status.Denied?
    ensures Local(c, k, u)
  {
    hide Ordered, AllDone, AllFresh, PlanShape;
  }

  lemma OutsiderKeepsSound(t: TaskRow, u: TaskRow)
    requires Sound(t)
    requires u == t.(decision := u.decision, result := u.result, status := u.status)
    requires u.status == t.status || u.status.Denied?
    ensures Sound(u)
  {
    hide Ordered, AllDone, AllFresh, PlanShape;
  }

  lemma OutsiderKeepsInv(c: Config, w: World, l: Label)
    requires Inv(c, w) && !l.Run? && Apply(c, w, l).Some?
    ensures Inv(c, Apply(c, w, l).value)
  {
    var v := Apply(c, w, l).value;
    if l.Restart? {
      SoundRowsRestart(c, w.row);
    } else if l.Decide? || l.Claim? {
      OutsiderKeepsSound(w.row, v.row);
    } else if !l.MemoryLost? {
      OutsiderKeepsLocal(c, w.ctl, w.live, v.live);
    }
    hide Sound, At, ResumeSteps;
  }

  lemma ApplyKeepsInv(c: Config, w: World, l: Label)
    requires Inv(c, w) && Apply(c, w, l).Some?
    ensures Inv(c, Apply(c, w, l).value)
  {
    hide Inv, Apply;
    if l.Run? {
      RunKeepsInv(c, w, l.x);
    } else {
      OutsiderKeepsInv(c, w, l);
    }
  }

  lemma CreatedInv(c: Config, w0: World)
    requires Reaches(c, w0, [], w0)
    ensures Inv(c, w0)
  {
  }

  // ---------------------------------------------------- effect of one label

  /** The events a reviewer, the janitor or a restart commits. */
  predicate Outside(e: Event) {
    e.ApprovalResolved? || e.ApprovalTimeout? || e.TaskRecovered? || e == StatusChanged(Denied) || e.StreamEnd?
  }

  /** v appends one commit to the log of w, and that commit is the row and the live object of v. */
  ghost predicate Appends(w: World, v: World) {
    && |v.log| == |w.log| + 1
    && v.log == w.log + [v.log[|w.log|]]
    && v.log[|w.log|].row == v.row == v.live
  }

  /** Everyone but the runner leaves the work alone; a restart falls back to the row's steps. */
  lemma OutsiderEffect(c: Config, w: World, l: Label)
    requires Inv(c, w) && !l.Run? && Apply(c, w, l).Some?
    ensures var v := Apply(c, w, l).value;
            && v.live == w.live.(steps := v.live.steps, decision := v.live.decision,
                                 result := v.live.result, status := v.live.status)
            && (l.Restart? ==> v.live.steps == w.row.steps && v.ctl.Start? && v.restarts == w.restarts + 1)
            && (!l.Restart? ==> v.live.steps == w.live.steps && v.ctl == w.ctl && v.restarts == w.restarts)
            && (v.log == w.log || (Appends(w, v) && Outside(v.log[|w.log|].event)))
            && (l.Restart? ==> Appends(w, v) && v.log[|w.log|].event.TaskRecovered?)
            && (v.log == w.log ==> v.live == w.live && v.row == w.row.(decision := v.row.decision))
  {
    hide Local, Sound, ResumeSteps, ApprovalState, ReviewerState, JanitorState;
  }

  lemma RunEffect(c: Config, w: World, x: Input)
    requires Apply(c, w, Run(x)).Some?
    ensures Step(c, w.ctl, w.live, x).Some?
    ensures var v := Apply(c, w, Run(x)).value;
            var m := Step(c, w.ctl, w.live, x).value;
            && v.ctl == m.ctl && v.live == m.task && v.restarts == w.restarts
            && (m.event.Some? ==> Appends(w, v) && v.log[|w.log|].event == m.event.value)
            && (m.event.None? ==> v.log == w.log && v.row == w.row)
  {
    hide Step;
  }

  // -------------------------------------------------------------- induction

  /** Every reachable world satisfies the invariant. */
  lemma {:induction false} ReachableInv(c: Config, w0: World, ls: seq<Label>, w: World)
    requires Reaches(c, w0, ls, w)
    ensures Inv(c, w)
    decreases |ls|
  {
    hide Inv, Apply;
    if ls == [] {
      CreatedInv(c, w0);
    } else {
      var v := Exec(c, w0, ls[..|ls| - 1]).value;
      ReachableInv(c, w0, ls[..|ls| - 1], v);
      ApplyKeepsInv(c, v, ls[|ls| - 1]);
    }
  }

  /** P is kept by every transition that leaves a world satisfying the invariant and obeying G. */
  ghost predicate Inductive(c: Config, G: Label -> bool, P: World -> bool) {
    forall w, l :: Inv(c, w) && P(w) && G(l) && Apply(c, w, l).Some? ==> P(Apply(c, w, l).value)
  }

  ghost predicate Only(G: Label -> bool, ls: seq<Label>) {
    forall i :: 0 <= i < |ls| ==> G(ls[i])
  }

  /** Induction over runs whose labels all obey G. */
  lemma {:induction false} Induct(c: Config, G: Label -> bool, P: World -> bool, w0: World, ls: seq<Label>, w: World)
    requires Reaches(c, w0, ls, w) && Only(G, ls) && P(w0) && Inductive(c, G, P)
    ensures P(w)
    decreases |ls|
  {
    hide Inv, Apply;
    if ls != [] {
      var v := Exec(c, w0, ls[..|ls| - 1]).value;
      assert Only(G, ls[..|ls| - 1]);
      Induct(c, G, P, w0, ls[..|ls| - 1], v);
      ReachableInv(c, w0, ls[..|ls| - 1], v);
    }
  }
}