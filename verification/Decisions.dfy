/** When a decision stands in a single process: exactly as long as no deadline passes over an approval. */
module Decisions {
  import opened Models
  import opened Controller
  import opened Invariants
  import opened InProcess
  import opened SystemInvariant
  import Safety

  /** Once a commit carries a decision, every later commit carries it. */
  ghost predicate Stands(log: seq<Commit>) {
    forall i, j :: 0 <= i <= j < |log| && log[i].row.decision.Some? ==> log[j].row.decision == log[i].row.decision
  }

  /** As Stands, and the decision of the row, d, agrees. */
  ghost predicate Standing(log: seq<Commit>, d: Option<bool>) {
    Stands(log) && forall i :: 0 <= i < |log| && log[i].row.decision.Some? ==> d == log[i].row.decision
  }

  /** A transition that does not change a decision in force keeps decisions standing. */
  lemma StandingGrows(log: seq<Commit>, d: Option<bool>, log': seq<Commit>, row: TaskRow)
    requires Standing(log, d) && (d.Some? ==> row.decision == d)
    requires log' == log || (|log'| == |log| + 1 && log'[..|log|] == log && log'[|log|].row == row)
    ensures Standing(log', row.decision)
  {
    assert log' != log ==> forall i :: 0 <= i < |log| ==> log'[i] == log[i];
  }

  // -------------------------------------------------------------- invariant

  /** The gate was left with the row's decision, and an approval in the row is in the last commit once announced. */
  ghost predicate DecisionState(w: World) {
    && (w.row.status.AwaitingApproval? && (w.ctl.Cleared? || w.ctl.Refused?) ==> w.row.decision == w.live.decision)
    && (w.row.decision == Some(true) && w.announcing.None? ==>
          |w.log| > 0 && w.log[|w.log| - 1].row.decision == Some(true))
  }

  /** The deadline passes although an approval is stored. */
  predicate Overridden(w: World, l: Label) {
    l == Run(DeadlinePassed) && w.row.decision == Some(true)
  }

  ghost predicate Decides(w: World, v: World, l: Label) {
    && DecisionState(v)
    && (w.row.decision.Some? && !Overridden(w, l) ==> v.row.decision == w.row.decision)
    && (Overridden(w, l) ==> v.row.decision == Some(false) && v.log != w.log)
  }

  /** While approval is awaited, the gate commits nothing in a single process and settles only what is decided. */
  lemma GateSettles(c: Config, t: TaskRow)
    requires !c.celery && NeedsDecision(t) && t.status.AwaitingApproval?
    ensures var m := GateMove(c, t).value;
            && GateMove(c, t).Some? && m.event.None? && m.task == t
            && (m.ctl.Cleared? || m.ctl.Refused? ==> t.decision.Some?)
  {
  }

  lemma StartIsSilent(c: Config, t: TaskRow)
    requires t.risk.Some? && t.steps != []
    ensures Step(c, Start, t, Go) == Silent(Gate, t.(steps := ResumeSteps(t.steps)))
    ensures forall x :: Step(c, Start, t, x).Some? ==> x == Go
  {
    hide ResumeSteps;
  }

  lemma WaitDecides(c: Config, w: World, x: Input)
    requires Inv(c, w) && DecisionState(w) && w.ctl.Waiting? && Apply(c, w, Run(x)).Some?
    ensures Decides(w, Apply(c, w, Run(x)).value, Run(x))
  {
    hide Local, Sound, ReviewerState, JanitorState;
    var v := Apply(c, w, Run(x)).value;
    if w.row.decision.Some? {
      var stored := w.row.decision.value;
      assert w.row.decision == Some(stored);
    }
    if x.DeadlinePassed? {
      assert |v.log| == |w.log| + 1;
    }
  }

  /** Awaiting approval, the runner commits only from where the gate was left. */
  lemma AwaitingDecides(c: Config, w: World, x: Input)
    requires Inv(c, w) && DecisionState(w) && !c.celery && w.row.status.AwaitingApproval?
    requires (w.ctl.Start? || w.ctl.Gate?) && Apply(c, w, Run(x)).Some?
    ensures Decides(w, Apply(c, w, Run(x)).value, Run(x))
  {
    assert w.live.steps != [] && w.live.risk == w.row.risk && w.live.autoApprove == w.row.autoApprove by {
      hide Step, ReviewerState, JanitorState, ResumeSteps;
    }
    if w.ctl.Start? {
      StartIsSilent(c, w.live);
      hide Step;
    } else {
      GateSettles(c, w.live);
      assert Step(c, w.ctl, w.live, x) == GateMove(c, w.live) by {
        hide GateMove;
      }
      hide Step, GateMove;
    }
    hide Local, Sound, ReviewerState, JanitorState, ResumeSteps;
  }

  /** Everywhere else what the runner commits has the decision it holds, which is the row's. */
  lemma CalmDecides(c: Config, w: World, x: Input)
    requires Inv(c, w) && DecisionState(w) && !c.celery && !w.ctl.Waiting? && Apply(c, w, Run(x)).Some?
    requires w.row.status.AwaitingApproval? ==> w.ctl.Cleared? || w.ctl.Refused?
    ensures Decides(w, Apply(c, w, Run(x)).value, Run(x))
  {
    var v := Apply(c, w, Run(x)).value;
    RunEffect(c, w, x);
    assert w.ctl.Gate? ==> w.live.risk.Some? by {
      hide Step, Sound;
    }
    assert w.row.decision == w.live.decision;
    hide Apply, Inv, Step;
    DeadlineOnlyWaiting(c, w.ctl, w.live);
    if w.ctl.Gate? {
      GateLeavesDecision(c, w.live, x);
    } else {
      Safety.DecisionFrame(c, w.ctl, w.live, x);
      if v.log == w.log && v.row.status.AwaitingApproval? {
        ClearedCommits(c, w.ctl, w.live, x);
      }
    }
  }

  lemma GateLeavesDecision(c: Config, t: TaskRow, x: Input)
    requires t.risk.Some? && Step(c, Gate, t, x).Some?
    ensures Step(c, Gate, t, x).value.task.decision == t.decision
  {
    Safety.GateDenials(c, t);
    hide GateMove;
  }

  lemma DeadlineOnlyWaiting(c: Config, k: Ctl, t: TaskRow)
    ensures Step(c, k, t, DeadlinePassed).Some? ==> k.Waiting?
  {
    hide PlanOf, ValidProposal;
  }

  lemma ClearedCommits(c: Config, k: Ctl, t: TaskRow, x: Input)
    requires (k.Cleared? || k.Refused?) && Step(c, k, t, x).Some?
    ensures Step(c, k, t, x).value.event.Some?
  {
  }

  lemma RunDecides(c: Config, w: World, x: Input)
    requires Inv(c, w) && DecisionState(w) && !c.celery && Apply(c, w, Run(x)).Some?
    ensures Decides(w, Apply(c, w, Run(x)).value, Run(x))
  {
    assert w.row.status.AwaitingApproval? ==> Early(w.ctl) || w.ctl.Cleared? || w.ctl.Refused? by {
      hide Local, Sound, Apply;
    }
    hide Apply, Inv, DecisionState;
    if w.ctl.Waiting? {
      WaitDecides(c, w, x);
    } else if w.row.status.AwaitingApproval? && (w.ctl.Start? || w.ctl.Gate?) {
      AwaitingDecides(c, w, x);
    } else {
      CalmDecides(c, w, x);
    }
  }

  lemma OutsiderDecides(c: Config, w: World, l: Label)
    requires Inv(c, w) && DecisionState(w) && !c.celery && !l.Run? && Apply(c, w, l).Some?
    ensures Decides(w, Apply(c, w, l).value, l)
  {
    hide Local, Sound, ResumeSteps, Step;
  }

  // ---------------------------------------------------------------- theorem

  /** No deadline passes while an approval is stored: the guard a poll at the deadline would check. */
  ghost predicate NeverOverridden(c: Config, w0: World, ls: seq<Label>)
    decreases |ls|
  {
    ls == [] ||
    (var front := ls[..|ls| - 1];
     && NeverOverridden(c, w0, front)
     && (Exec(c, w0, front).Some? ==> !Overridden(Exec(c, w0, front).value, ls[|ls| - 1])))
  }

  lemma LogGrows(c: Config, w: World, l: Label)
    requires Inv(c, w) && Apply(c, w, l).Some?
    ensures var v := Apply(c, w, l).value;
            v.log == w.log || (|v.log| == |w.log| + 1 && v.log[..|w.log|] == w.log && v.log[|w.log|].row == v.row)
  {
    hide Apply, Inv;
    if l.Run? {
      RunEffect(c, w, l.x);
    } else {
      OutsiderEffect(c, w, l);
    }
    hide Step;
  }

  lemma FallenStaysFallen(log: seq<Commit>, log': seq<Commit>)
    requires !Stands(log) && |log| <= |log'| && log'[..|log|] == log
    ensures !Stands(log')
  {
    var i, j :| 0 <= i <= j < |log| && log[i].row.decision.Some? && log[j].row.decision != log[i].row.decision;
    assert log'[i] == log[i] && log'[j] == log[j];
  }

  ghost predicate Verdict(c: Config, w0: World, ls: seq<Label>, w: World) {
    && DecisionState(w)
    && (if NeverOverridden(c, w0, ls) then Standing(w.log, w.row.decision) else !Stands(w.log))
  }

  lemma VerdictStays(c: Config, w0: World, ls: seq<Label>, l: Label, v: World, w: World)
    requires Exec(c, w0, ls) == Some(v) && Verdict(c, w0, ls, v)
    requires Inv(c, v) && !c.celery && Apply(c, v, l) == Some(w)
    ensures Verdict(c, w0, ls + [l], w)
  {
    assert (ls + [l])[..|ls|] == ls;
    hide Apply, Inv, Exec;
    LogGrows(c, v, l);
    if l.Run? {
      RunDecides(c, v, l.x);
    } else {
      OutsiderDecides(c, v, l);
    }
    if !NeverOverridden(c, w0, ls) {
      FallenStaysFallen(v.log, w.log);
    } else if Overridden(v, l) {
      NoPollAtDeadline(c, v, l);
      var n := |v.log| - 1;
      assert w.log[n] == v.log[n] && w.log[n + 1].row.decision == Some(false);
    } else {
      StandingGrows(v.log, v.row.decision, w.log, w.row);
    }
  }

  /** The runner moves only when no decision is stored but unannounced. */
  lemma NoPollAtDeadline(c: Config, w: World, l: Label)
    requires Overridden(w, l) && Apply(c, w, l).Some?
    ensures w.announcing.None?
  {
    hide Step;
  }

  lemma {:induction false} RunsHaveVerdicts(c: Config, w0: World, ls: seq<Label>, w: World)
    requires Reaches(c, w0, ls, w) && !c.celery
    ensures Verdict(c, w0, ls, w)
    decreases |ls|
  {
    hide Apply, Inv, Verdict;
    if ls == [] {
      CreatedVerdict(c, w0);
    } else {
      var front, l := ls[..|ls| - 1], ls[|ls| - 1];
      var v := Exec(c, w0, front).value;
      RunsHaveVerdicts(c, w0, front, v);
      ReachableInv(c, w0, front, v);
      VerdictStays(c, w0, front, l, v, w);
      assert front + [l] == ls;
    }
  }

  lemma CreatedVerdict(c: Config, w0: World)
    requires Reaches(c, w0, [], w0)
    ensures Verdict(c, w0, [], w0)
  {
  }

  /** A committed decision is in every later commit exactly if no deadline passed while an approval was stored;
      and then the row carries it too. */
  lemma DecisionStandsUnlessOverridden(c: Config, w0: World, ls: seq<Label>, w: World)
    requires Reaches(c, w0, ls, w) && !c.celery
    ensures Stands(w.log) <==> NeverOverridden(c, w0, ls)
    ensures Stands(w.log) ==>
              forall i :: 0 <= i < |w.log| && w.log[i].row.decision.Some? ==> w.row.decision == w.log[i].row.decision
  {
    hide Reaches, Stands;
    RunsHaveVerdicts(c, w0, ls, w);
  }

  lemma {:induction false} NoDeadline(c: Config, w0: World, ls: seq<Label>)
    requires Run(DeadlinePassed) !in ls
    ensures NeverOverridden(c, w0, ls)
    decreases |ls|
  {
    hide Exec;
    if ls != [] {
      NoDeadline(c, w0, ls[..|ls| - 1]);
    }
  }

  /** In particular a decision stands in every run without a deadline, whatever reviewers, janitor and crashes do. */
  lemma DecisionStands(c: Config, w0: World, ls: seq<Label>, w: World, i: nat, j: nat)
    requires Reaches(c, w0, ls, w) && !c.celery && Run(DeadlinePassed) !in ls
    requires i <= j < |w.log| && w.log[i].row.decision.Some?
    ensures w.log[j].row.decision == w.log[i].row.decision == w.row.decision
  {
    hide Reaches;
    NoDeadline(c, w0, ls);
    DecisionStandsUnlessOverridden(c, w0, ls, w);
  }
}
