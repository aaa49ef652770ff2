/** The report is written from the outputs the verifier passed. */
module Verdict {
  import opened Models
  import opened Controller
  import opened Invariants
  import opened InProcess
  import opened SystemInvariant

  predicate AsksVerifier(m: Commit) {
    m.event.StepAttempted? && m.event.agent == VERIFIER
  }

  /** The steps as the verifier last saw them. */
  function Examined(log: seq<Commit>): Option<seq<StepRow>>
    decreases |log|
  {
    if log == [] then None
    else if AsksVerifier(log[|log| - 1]) then Some(log[|log| - 1].row.steps)
    else Examined(log[..|log| - 1])
  }

  lemma ExaminedSnoc(log: seq<Commit>, m: Commit)
    ensures Examined(log + [m]) == if AsksVerifier(m) then Some(m.row.steps) else Examined(log)
  {
    assert (log + [m])[..|log|] == log;
  }

  /** What the report is synthesized from: title and output of every completed step but the verifier's. */
  function ReportInput(steps: seq<StepRow>): seq<(string, string)> {
    if steps == [] then []
    else
      (if steps[0].status.Completed? && steps[0].agent != VERIFIER then [(steps[0].title, steps[0].output)] else [])
      + ReportInput(steps[1..])
  }

  /** What the verifier judges: title and output of every step that has an output. */
  function JudgedInput(steps: seq<StepRow>): seq<(string, string)> {
    if steps == [] then []
    else (if steps[0].output != "" then [(steps[0].title, steps[0].output)] else []) + JudgedInput(steps[1..])
  }

  function NonEmpty(items: seq<(string, string)>): seq<(string, string)> {
    if items == [] then []
    else (if items[0].1 != "" then [items[0]] else []) + NonEmpty(items[1..])
  }

  /** b is a with the verifier's own step completed: all other work is the same and done. */
  ghost predicate Judgement(a: seq<StepRow>, b: seq<StepRow>) {
    && |a| == |b|
    && PlanShape(b)
    && AllDone(b)
    && a[|a| - 1].output == ""
    && (forall i :: 0 <= i < |a| - 1 ==> a[i].title == b[i].title && a[i].output == b[i].output)
  }

  /** The verifier is asked about the current steps; a verdict speaks of the outputs it was asked about. */
  ghost predicate VerdictState(w: World) {
    && (w.ctl.Calling? && w.ctl.i < |w.live.steps| && w.live.steps[w.ctl.i].agent == VERIFIER ==>
          Examined(w.log) == Some(w.live.steps))
    && (w.live.verified.Some? ==> Examined(w.log).Some? && Judgement(Examined(w.log).value, w.live.steps))
  }

  ghost predicate BlankUntilDone(steps: seq<StepRow>) {
    forall i :: 0 <= i < |steps| && !steps[i].status.Completed? ==> steps[i].output == ""
  }

  lemma ResumeKeepsBlank(steps: seq<StepRow>)
    ensures BlankUntilDone(ResumeSteps(steps)) <==> BlankUntilDone(steps)
    ensures AllDone(ResumeSteps(steps)) ==> ResumeSteps(steps) == steps
  {
    var u := ResumeSteps(steps);
    assert forall i :: 0 <= i < |u| ==> u[i].output == steps[i].output
                                        && (u[i].status.Completed? <==> steps[i].status.Completed?);
    assert AllDone(u) ==> forall i :: 0 <= i < |u| ==> u[i] == steps[i];
  }

  lemma RunKeepsBlank(c: Config, k: Ctl, t: TaskRow, x: Input)
    requires Local(c, k, t) && BlankUntilDone(t.steps) && Step(c, k, t, x).Some?
    ensures BlankUntilDone(Step(c, k, t, x).value.task.steps)
  {
    if Working(k) {
      WorkFrame(c, k, t, x);
      assert !t.steps[k.i].status.Completed?;
      hide Step, Sound;
    } else if k.Planning? {
      if x.Proposed? {
        PlansAreShaped(x.items, x.ids);
      }
    } else if k.Start? {
      ResumeKeepsBlank(t.steps);
      hide BlankUntilDone, ResumeSteps, Sound;
    } else if k.Rework? {
      hide Sound;
    } else {
      StepsFrame(c, k, t, x);
      hide Step, BlankUntilDone;
    }
  }

  /** Once there is a verdict the steps stay as they are until a rework discards it. */
  lemma VerdictFreezes(c: Config, k: Ctl, t: TaskRow, x: Input)
    requires Local(c, k, t) && !Working(k) && Step(c, k, t, x).Some?
    ensures var u := Step(c, k, t, x).value.task;
            u.verified.Some? ==> u.verified == t.verified && u.steps == t.steps
  {
    if k.Start? {
      ResumeKeepsBlank(t.steps);
      ResumeIsSettled(t.steps);
    } else if !k.Rework? {
      VerdictFrame(c, k, t, x);
      if !k.Planning? {
        StepsFrame(c, k, t, x);
      }
      hide Step;
    }
    hide ResumeSteps, ResetSteps, Ordered, PlanShape, AllFresh, AllDone, Settled;
  }

  lemma WorkVerdict(c: Config, w: World, x: Input)
    requires Inv(c, w) && VerdictState(w) && BlankUntilDone(w.live.steps)
    requires Working(w.ctl) && Apply(c, w, Run(x)).Some?
    ensures VerdictState(Apply(c, w, Run(x)).value)
  {
    var v := Apply(c, w, Run(x)).value;
    var k := w.ctl;
    RunEffect(c, w, x);
    WorkFrame(c, k, w.live, x);
    WorkEvents(c, k, w.live, x);
    WorkCtl(c, k, w.live, x);
    VerdictComesLast(c, k, w.live, x);
    ExaminedSnoc(w.log, v.log[|w.log|]);
    hide Apply, Step, Examined, Inv, Local, Sound, AllDone;
    assert v.live.verified.Some? ==> AllDone(v.live.steps) && k.i == |v.live.steps| - 1;
  }

  /** A runner at work on a step has no verdict; if its next step gives one, the step was the last and all are done. */
  lemma VerdictComesLast(c: Config, k: Ctl, t: TaskRow, x: Input)
    requires Local(c, k, t) && Working(k) && Step(c, k, t, x).Some?
    ensures k.i < |t.steps| && !t.steps[k.i].status.Completed? && t.verified.None?
    ensures var u := Step(c, k, t, x).value.task;
            u.verified.Some? ==> AllDone(u.steps) && PlanShape(u.steps) && k.i == |u.steps| - 1
  {
    WorkFrame(c, k, t, x);
    WorkEvents(c, k, t, x);
    StepKeepsLocal(c, k, t, x);
    hide Step, Ordered, Settled;
  }

  lemma QuietVerdict(c: Config, w: World, x: Input)
    requires Inv(c, w) && VerdictState(w) && !Working(w.ctl) && Apply(c, w, Run(x)).Some?
    ensures VerdictState(Apply(c, w, Run(x)).value)
  {
    var v := Apply(c, w, Run(x)).value;
    RunEffect(c, w, x);
    WorkCtl(c, w.ctl, w.live, x);
    VerdictFreezes(c, w.ctl, w.live, x);
    if v.log != w.log {
      WorkEvents(c, w.ctl, w.live, x);
      ExaminedSnoc(w.log, v.log[|w.log|]);
    }
    hide Apply, Step, Examined, Inv, Judgement;
  }

  lemma OutsiderVerdict(c: Config, w: World, l: Label)
    requires Inv(c, w) && VerdictState(w) && !l.Run? && Apply(c, w, l).Some?
    ensures VerdictState(Apply(c, w, l).value)
  {
    var v := Apply(c, w, l).value;
    OutsiderEffect(c, w, l);
    ResumeKeepsBlank(w.row.steps);
    if v.log != w.log {
      ExaminedSnoc(w.log, v.log[|w.log|]);
    }
    hide Apply, Examined, ApprovalState, ReviewerState, JanitorState, At, Judgement, ResumeSteps;
    hide Ordered, PlanShape, AllFresh, AllDone;
  }

  ghost predicate Consistent(w: World) {
    VerdictState(w) && BlankUntilDone(w.live.steps)
  }

  lemma ConsistentStays(c: Config, w: World, l: Label)
    requires Inv(c, w) && Consistent(w) && Apply(c, w, l).Some?
    ensures Consistent(Apply(c, w, l).value)
  {
    if l.Run? {
      RunEffect(c, w, l.x);
      RunKeepsBlank(c, w.ctl, w.live, l.x);
      if Working(w.ctl) {
        WorkVerdict(c, w, l.x);
      } else {
        QuietVerdict(c, w, l.x);
      }
    } else {
      OutsiderEffect(c, w, l);
      OutsiderVerdict(c, w, l);
      ResumeKeepsBlank(w.row.steps);
    }
    hide Apply, Step, VerdictState, BlankUntilDone, Local, Sound, ResumeSteps;
    hide ApprovalState, ReviewerState, JanitorState;
  }

  // ------------------------------------------------------------ the two inputs

  lemma JudgedOfWork(a: seq<StepRow>, b: seq<StepRow>)
    requires |a| == |b| && |b| >= 1 && a[|a| - 1].output == "" && b[|b| - 1].agent == VERIFIER
    requires forall i :: 0 <= i < |b| - 1 ==> b[i].agent != VERIFIER && b[i].status.Completed?
    requires forall i :: 0 <= i < |a| - 1 ==> a[i].title == b[i].title && a[i].output == b[i].output
    ensures NonEmpty(ReportInput(b)) == JudgedInput(a)
    decreases |a|
  {
    if |a| > 1 {
      JudgedOfWork(a[1..], b[1..]);
      assert ReportInput(b) == [(b[0].title, b[0].output)] + ReportInput(b[1..]);
      assert ([(b[0].title, b[0].output)] + ReportInput(b[1..]))[1..] == ReportInput(b[1..]);
    } else {
      assert a[1..] == [] && b[1..] == [];
    }
  }

  // ------------------------------------------------------------------ theorem

  /** m, appended to log, is not a report, or one written on verified, fully completed work. */
  ghost predicate ReportVerified(log: seq<Commit>, m: Commit) {
    m.event.TaskCompleted? ==>
      && m.row.verified == Some(true)
      && AllDone(m.row.steps)
      && Examined(log).Some?
      && NonEmpty(ReportInput(m.row.steps)) == JudgedInput(Examined(log).value)
  }

  ghost predicate ReportsVerified(log: seq<Commit>) {
    forall j :: 0 <= j < |log| ==> ReportVerified(log[..j], log[j])
  }

  lemma ReportsGrow(log: seq<Commit>, m: Commit)
    requires ReportsVerified(log) && ReportVerified(log, m)
    ensures ReportsVerified(log + [m])
  {
    hide ReportVerified;
    forall j | 0 <= j < |log + [m]| ensures ReportVerified((log + [m])[..j], (log + [m])[j]) {
      assert (log + [m])[..j] == log[..j];
      assert j == |log| ==> log[..j] == log;
    }
  }

  lemma ReportMoves(c: Config, k: Ctl, t: TaskRow, x: Input)
    requires Step(c, k, t, x).Some? && Step(c, k, t, x).value.event.Some?
    requires Step(c, k, t, x).value.event.value.TaskCompleted?
    ensures k.Synthesizing? && Step(c, k, t, x).value.task == t.(result := Step(c, k, t, x).value.event.value.result)
  {
    hide ResumeSteps, ResetSteps, PlanOf, FailureText, ValidProposal;
  }

  lemma JudgementInputs(a: seq<StepRow>, b: seq<StepRow>)
    requires Judgement(a, b)
    ensures NonEmpty(ReportInput(b)) == JudgedInput(a)
  {
    JudgedOfWork(a, b);
  }

  lemma ReportsStayVerified(c: Config, w: World, l: Label)
    requires Inv(c, w) && Consistent(w) && ReportsVerified(w.log) && Apply(c, w, l).Some?
    ensures ReportsVerified(Apply(c, w, l).value.log)
  {
    var v := Apply(c, w, l).value;
    hide ReportsVerified, Judgement, Examined, AllDone, ReportInput, JudgedInput, At;
    if l.Run? {
      RunEffect(c, w, l.x);
    } else {
      OutsiderEffect(c, w, l);
    }
    hide Apply, ApprovalState, ReviewerState, JanitorState;
    if v.log != w.log {
      var m := v.log[|w.log|];
      if m.event.TaskCompleted? {
        ReportMoves(c, w.ctl, w.live, l.x);
        ReportIsVerified(c, w, m);
      }
      hide Step, Inv, Consistent;
      ReportsGrow(w.log, m);
    }
  }

  lemma ReportIsVerified(c: Config, w: World, m: Commit)
    requires Inv(c, w) && Consistent(w) && w.ctl.Synthesizing?
    requires m.row == w.live.(result := m.row.result)
    ensures ReportVerified(w.log, m)
  {
    hide ApprovalState, ReviewerState, JanitorState, Examined, ReportInput, JudgedInput, Ordered, PlanShape;
    JudgementInputs(Examined(w.log).value, w.live.steps);
  }

  /** A completed task is verified work: all steps are done, the verdict is positive, and the report was
      written from exactly the outputs the verifier had been asked about. */
  lemma VerifiedResult(c: Config, w0: World, ls: seq<Label>, w: World)
    requires Reaches(c, w0, ls, w)
    ensures ReportsVerified(w.log)
    ensures w.row.status.Completed? ==>
              && w.row.verified == Some(true)
              && AllDone(w.row.steps)
              && Examined(w.log).Some?
              && NonEmpty(ReportInput(w.row.steps)) == JudgedInput(Examined(w.log).value)
    ensures w.row.rework < MAX_ROUNDS
  {
    var G := (l: Label) => true;
    var P := (v: World) => Consistent(v) && ReportsVerified(v.log);
    forall v, l | Inv(c, v) && P(v) && G(l) && Apply(c, v, l).Some? ensures P(Apply(c, v, l).value) {
      ConsistentStays(c, v, l);
      ReportsStayVerified(c, v, l);
    }
    Induct(c, G, P, w0, ls, w);
    ReachableInv(c, w0, ls, w);
    if w.row.status.Completed? {
      ResumeKeepsBlank(w.row.steps);
      ResumeIsSettled(w.row.steps);
      JudgementInputs(Examined(w.log).value, w.live.steps);
    }
    hide Apply, ApprovalState, ReviewerState, JanitorState, Examined, ReportInput, JudgedInput, Judgement, AllDone, At;
  }

  /** The report's input is the title and output of every completed step but the verifier's, and of no other. */
  lemma {:induction false} ReportInputIsWork(steps: seq<StepRow>, x: (string, string))
    ensures x in ReportInput(steps) <==>
              exists i :: 0 <= i < |steps| && steps[i].status.Completed? && steps[i].agent != VERIFIER &&
                          x == (steps[i].title, steps[i].output)
    decreases |steps|
  {
    if steps != [] {
      ReportInputIsWork(steps[1..], x);
      if exists i :: 0 <= i < |steps| && steps[i].status.Completed? && steps[i].agent != VERIFIER &&
                     x == (steps[i].title, steps[i].output) {
        var i :| 0 <= i < |steps| && steps[i].status.Completed? && steps[i].agent != VERIFIER &&
                 x == (steps[i].title, steps[i].output);
        if i > 0 {
          assert steps[1..][i - 1] == steps[i];
        }
      }
    }
  }

  /** The verifier's input is the title and output of every step that has an output. */
  lemma {:induction false} JudgedInputIsWork(steps: seq<StepRow>, x: (string, string))
    ensures x in JudgedInput(steps) <==>
              exists i :: 0 <= i < |steps| && steps[i].output != "" && x == (steps[i].title, steps[i].output)
    decreases |steps|
  {
    if steps != [] {
      JudgedInputIsWork(steps[1..], x);
      if exists i :: 0 <= i < |steps| && steps[i].output != "" && x == (steps[i].title, steps[i].output) {
        var i :| 0 <= i < |steps| && steps[i].output != "" && x == (steps[i].title, steps[i].output);
        if i > 0 {
          assert steps[1..][i - 1] == steps[i];
        }
      }
    }
  }
}
