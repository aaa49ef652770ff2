/** Facts about the work itself that survive every interleaving in worker mode, stale copies included:
    an induction principle over rows and copies, and what every report is written from. */
module CeleryWork {
  import opened Models
  import opened Controller
  import opened Invariants
  import opened Celery
  import opened CeleryOrder
  import opened Verdict
  import CelerySafety
  import CeleryTurns

  /** What a process outside a run may change in its copy. */
  predicate Edited(t: TaskRow, u: TaskRow) {
    u == t.(decision := u.decision, result := u.result, error := u.error, status := u.status)
  }

  /** Q holds of a row wherever a runner may stand with it, given the log. */
  ghost predicate Grows(Q: (seq<Commit>, Ctl, TaskRow) -> bool) {
    forall log, k, t, m :: Q(log, k, t) ==> Q(log + [m], k, t)
  }

  ghost predicate Weakens(Q: (seq<Commit>, Ctl, TaskRow) -> bool) {
    forall log, k, t :: Q(log, k, t) ==> Q(log, Start, t)
  }

  ghost predicate SurvivesEdits(Q: (seq<Commit>, Ctl, TaskRow) -> bool) {
    forall log, t, u :: Q(log, Start, t) && Edited(t, u) ==> Q(log, Start, u)
  }

  /** The log after a move. */
  function After(log: seq<Commit>, m: Move): seq<Commit> {
    if m.event.Some? then log + [Commit(m.event.value, m.task)] else log
  }

  ghost predicate SurvivesSteps(c: Config, H: (TaskRow, Input) -> bool, Q: (seq<Commit>, Ctl, TaskRow) -> bool) {
    forall log, k, t, x :: Local(c, k, t) && Q(log, k, t) && H(t, x) && Step(c, k, t, x).Some? ==>
      Q(After(log, Step(c, k, t, x).value), Step(c, k, t, x).value.ctl, Step(c, k, t, x).value.task)
  }

  ghost predicate Stable(c: Config, H: (TaskRow, Input) -> bool, Q: (seq<Commit>, Ctl, TaskRow) -> bool) {
    Grows(Q) && Weakens(Q) && SurvivesEdits(Q) && SurvivesSteps(c, H, Q)
  }

  ghost predicate CopyHas(Q: (seq<Commit>, Ctl, TaskRow) -> bool, log: seq<Commit>, q: Proc) {
    && (q.copy.Some? ==> Q(log, Start, q.copy.value))
    && (q.act.Working? && q.copy.Some? ==> Q(log, q.act.ctl, q.copy.value))
  }

  ghost predicate Everywhere(Q: (seq<Commit>, Ctl, TaskRow) -> bool, w: World) {
    && Q(w.log, Start, w.row)
    && (forall p :: 0 <= p < |w.procs| ==> CopyHas(Q, w.log, w.procs[p]))
    && (forall j :: 0 <= j < |w.log| ==> Q(w.log, Start, w.log[j].row))
  }

  /** Inputs of runs satisfy H. */
  predicate Honest(H: (TaskRow, Input) -> bool, w: World, l: Label) {
    l.Run? && l.p < |w.procs| && w.procs[l.p].copy.Some? ==> H(w.procs[l.p].copy.value, l.x)
  }

  function Honestly(H: (TaskRow, Input) -> bool): (World, Label) -> bool {
    (w, l) => Honest(H, w, l)
  }

  /** No condition on inputs. */
  function Any(): (TaskRow, Input) -> bool {
    (t, x) => true
  }

  lemma CopyGrows(Q: (seq<Commit>, Ctl, TaskRow) -> bool, log: seq<Commit>, q: Proc, m: Commit)
    requires Grows(Q) && CopyHas(Q, log, q)
    ensures CopyHas(Q, log + [m], q)
  {
  }

  /** p alone moves, and its commit, if any, is its new row. */
  lemma MoveKeeps(Q: (seq<Commit>, Ctl, TaskRow) -> bool, w: World, v: World, p: nat)
    requires Grows(Q) && Everywhere(Q, w) && p < |w.procs| == |v.procs|
    requires forall q :: 0 <= q < |w.procs| && q != p ==> v.procs[q] == w.procs[q]
    requires v.log == w.log || exists m :: v.log == w.log + [m] && m.row == v.row
    requires Q(v.log, Start, v.row) && CopyHas(Q, v.log, v.procs[p])
    ensures Everywhere(Q, v)
  {
    if v.log != w.log {
      var m :| v.log == w.log + [m] && m.row == v.row;
      forall q | 0 <= q < |v.procs| ensures CopyHas(Q, v.log, v.procs[q]) {
        if q != p {
          CopyGrows(Q, w.log, w.procs[q], m);
        }
      }
      hide CopyHas;
      forall j | 0 <= j < |v.log| ensures Q(v.log, Start, v.log[j].row) {
        if j < |w.log| {
          assert v.log[j] == w.log[j];
        }
      }
    } else {
      hide CopyHas;
    }
  }

  lemma RunKeeps(c: Config, H: (TaskRow, Input) -> bool, Q: (seq<Commit>, Ctl, TaskRow) -> bool,
                 w: World, p: nat, x: Input)
    requires CelerySafety.Inv(c, w) && Stable(c, H, Q) && Everywhere(Q, w) && Honest(H, w, Run(p, x))
    requires p < |w.procs| && RunStep(c, w, p, x).Some?
    ensures Everywhere(Q, RunStep(c, w, p, x).value)
  {
    var v := RunStep(c, w, p, x).value;
    var k, t := w.procs[p].act.ctl, w.procs[p].copy.value;
    assert CelerySafety.ProcOk(c, w.procs[p]) && CopyHas(Q, w.log, w.procs[p]);
    var m := Step(c, k, t, x).value;
    hide Step, Local, CelerySafety.Inv, Everywhere;
    assert Q(After(w.log, m), m.ctl, m.task);
    assert v.log == After(w.log, m);
    assert Q(v.log, Start, v.row) by {
      if m.event.None? {
        RowHas(Q, w);
      }
    }
    hide SurvivesSteps, SurvivesEdits;
    if m.event.Some? {
      assert v.log == w.log + [Commit(m.event.value, m.task)];
    }
    MoveKeeps(Q, w, v, p);
  }

  lemma RowHas(Q: (seq<Commit>, Ctl, TaskRow) -> bool, w: World)
    requires Everywhere(Q, w)
    ensures Q(w.log, Start, w.row)
  {
  }

  lemma ProceedKeeps(Q: (seq<Commit>, Ctl, TaskRow) -> bool, w: World, p: nat)
    requires Grows(Q) && SurvivesEdits(Q) && Everywhere(Q, w) && p < |w.procs| && Proceed(w, p).Some?
    ensures Everywhere(Q, Proceed(w, p).value)
  {
    var v := Proceed(w, p).value;
    assert CopyHas(Q, w.log, w.procs[p]);
    RowHas(Q, w);
    hide Everywhere;
    if v.log != w.log {
      var m := v.log[|w.log|];
      assert Edited(w.procs[p].copy.value, v.row);
      assert Q(w.log, Start, v.row);
      assert v.log == w.log + [m] && m.row == v.row;
    }
    hide SurvivesEdits;
    MoveKeeps(Q, w, v, p);
  }

  lemma ClaimKeeps(Q: (seq<Commit>, Ctl, TaskRow) -> bool, w: World, p: nat, approved: bool, e: Event)
    requires Grows(Q) && SurvivesEdits(Q) && Everywhere(Q, w)
    requires p < |w.procs| && Claim(w, p, approved, e).Some?
    ensures Everywhere(Q, Claim(w, p, approved, e).value)
  {
    var v := Claim(w, p, approved, e).value;
    assert CopyHas(Q, w.log, w.procs[p]);
    RowHas(Q, w);
    assert Edited(w.row, v.row);
    if w.procs[p].copy.Some? {
      assert Edited(w.procs[p].copy.value, v.procs[p].copy.value);
    }
    hide Everywhere;
    MoveKeeps(Q, w, v, p);
  }

  lemma UnsentKeeps(Q: (seq<Commit>, Ctl, TaskRow) -> bool, w: World, p: nat, message: string)
    requires Grows(Q) && SurvivesEdits(Q) && Everywhere(Q, w)
    requires p < |w.procs| && Unsent(w, p, message).Some?
    ensures Everywhere(Q, Unsent(w, p, message).value)
  {
    var v := Unsent(w, p, message).value;
    assert CopyHas(Q, w.log, w.procs[p]);
    assert Edited(w.procs[p].copy.value, v.row);
    assert Q(w.log, Start, v.row);
    hide Everywhere, SurvivesEdits;
    assert v.log == w.log + [v.log[|w.log|]];
    MoveKeeps(Q, w, v, p);
  }

  lemma ApplyKeeps(c: Config, H: (TaskRow, Input) -> bool, Q: (seq<Commit>, Ctl, TaskRow) -> bool, w: World, l: Label)
    requires CelerySafety.Inv(c, w) && Stable(c, H, Q) && Everywhere(Q, w) && Honest(H, w, l)
    requires Apply(c, w, l).Some?
    ensures Everywhere(Q, Apply(c, w, l).value)
  {
    hide RunStep, Proceed, Claim, Unsent, CelerySafety.Inv, SurvivesSteps, SurvivesEdits, Weakens, Grows;
    var v := Apply(c, w, l).value;
    if l.Duplicate? || l.LeaseEnds? {
    } else {
      var p := l.p;
      assert CopyHas(Q, w.log, w.procs[p]);
      RowHas(Q, w);
      hide Everywhere;
      match l {
        case Run(_, x) => RunKeeps(c, H, Q, w, p, x);
        case Go(_) => ProceedKeeps(Q, w, p);
        case SendFails(_, message) => UnsentKeeps(Q, w, p, message);
        case Decide(_, approved) => ClaimKeeps(Q, w, p, approved, ApprovalResolved(approved));
        case Expire(_) => ClaimKeeps(Q, w, p, false, ApprovalTimeout);
        case _ => MoveKeeps(Q, w, v, p);
      }
    }
  }

  lemma CreatedHas(c: Config, Q: (seq<Commit>, Ctl, TaskRow) -> bool, w0: World)
    requires Reaches(c, w0, [], w0) && Q(w0.log, Start, w0.row)
    ensures Everywhere(Q, w0)
  {
  }

  /** What is stable holds of every row and every copy in every run with honest inputs. */
  lemma {:induction false} HoldsEverywhere(c: Config, H: (TaskRow, Input) -> bool,
                                           Q: (seq<Commit>, Ctl, TaskRow) -> bool,
                                           w0: World, ls: seq<Label>, w: World)
    requires Reaches(c, w0, ls, w) && Along(c, w0, ls, Honestly(H))
    requires Stable(c, H, Q) && Q(w0.log, Start, w0.row)
    ensures Everywhere(Q, w)
    decreases |ls|
  {
    hide Apply, Everywhere, Stable, CelerySafety.Inv;
    if ls == [] {
      CreatedHas(c, Q, w0);
    } else {
      var front, l := ls[..|ls| - 1], ls[|ls| - 1];
      var v := Exec(c, w0, front).value;
      HoldsEverywhere(c, H, Q, w0, front, v);
      CelerySafety.ReachableInv(c, w0, front, v);
      ApplyKeeps(c, H, Q, v, l);
    }
  }

  // ---------------------------------------------------------------- verdicts

  /** Some verifier was asked about exactly these steps. */
  ghost predicate Asked(log: seq<Commit>, steps: seq<StepRow>) {
    exists j :: 0 <= j < |log| && AsksVerifier(log[j]) && log[j].row.steps == steps
  }

  /** Some verifier was asked about what these steps are now, its own step aside. */
  ghost predicate Judged(log: seq<Commit>, steps: seq<StepRow>) {
    exists j :: 0 <= j < |log| && AsksVerifier(log[j]) && Judgement(log[j].row.steps, steps)
  }

  /** A verdict speaks of outputs a verifier was asked about; the verifier in progress is asked about these steps. */
  ghost predicate Vouched(log: seq<Commit>, k: Ctl, t: TaskRow) {
    && BlankUntilDone(t.steps)
    && (t.verified.Some? ==> Judged(log, t.steps))
    && (k.Calling? && k.i < |t.steps| && t.steps[k.i].agent == VERIFIER ==> Asked(log, t.steps))
  }

  lemma VouchedGrows(log: seq<Commit>, k: Ctl, t: TaskRow, m: Commit)
    requires Vouched(log, k, t)
    ensures Vouched(log + [m], k, t)
  {
    hide Judgement, BlankUntilDone;
    var all := log + [m];
    if t.verified.Some? {
      var j :| 0 <= j < |log| && AsksVerifier(log[j]) && Judgement(log[j].row.steps, t.steps);
      assert all[j] == log[j];
    }
    if Asked(log, t.steps) {
      var j :| 0 <= j < |log| && AsksVerifier(log[j]) && log[j].row.steps == t.steps;
      assert all[j] == log[j];
    }
  }

  lemma WorkVouches(c: Config, log: seq<Commit>, k: Ctl, t: TaskRow, x: Input)
    requires Local(c, k, t) && Vouched(log, k, t) && Invariants.Working(k) && Step(c, k, t, x).Some?
    ensures var m := Step(c, k, t, x).value; Vouched(After(log, m), m.ctl, m.task)
  {
    var m := Step(c, k, t, x).value;
    RunKeepsBlank(c, k, t, x);
    WorkFrame(c, k, t, x);
    WorkEvents(c, k, t, x);
    WorkCtl(c, k, t, x);
    StepKeepsLocal(c, k, t, x);
    var e := Commit(m.event.value, m.task);
    VouchedCopies(log, k, t, e);
    hide Step, Ordered, Settled;
    assert !t.steps[k.i].status.Completed? && t.verified.None?;
    if m.task.verified.Some? {
      assert AllDone(m.task.steps) && k.i == |t.steps| - 1;
      var j :| 0 <= j < |log| && AsksVerifier(log[j]) && log[j].row.steps == t.steps;
      assert (log + [e])[j] == log[j];
      assert Judgement(t.steps, m.task.steps);
    }
    if m.ctl.Calling? {
      assert (log + [e])[|log|] == e;
    }
  }

  /** What was asked stays asked. */
  lemma VouchedCopies(log: seq<Commit>, k: Ctl, t: TaskRow, m: Commit)
    requires Vouched(log, k, t)
    ensures Asked(log, t.steps) ==> Asked(log + [m], t.steps)
  {
    if Asked(log, t.steps) {
      var j :| 0 <= j < |log| && AsksVerifier(log[j]) && log[j].row.steps == t.steps;
      assert (log + [m])[j] == log[j];
    }
  }

  lemma QuietVouches(c: Config, log: seq<Commit>, k: Ctl, t: TaskRow, x: Input)
    requires Local(c, k, t) && Vouched(log, k, t) && !Invariants.Working(k) && Step(c, k, t, x).Some?
    ensures var m := Step(c, k, t, x).value; Vouched(After(log, m), m.ctl, m.task)
  {
    var m := Step(c, k, t, x).value;
    RunKeepsBlank(c, k, t, x);
    VerdictFreezes(c, k, t, x);
    WorkCtl(c, k, t, x);
    hide Step, Local, BlankUntilDone, Judged, Asked;
    assert Vouched(log, m.ctl, m.task);
    if m.event.Some? {
      VouchedGrows(log, m.ctl, m.task, Commit(m.event.value, m.task));
    }
  }

  /** Vouched, as a property to hold everywhere. */
  ghost function Vouching(): (seq<Commit>, Ctl, TaskRow) -> bool {
    (log, k, t) => Vouched(log, k, t)
  }

  lemma VouchedIsStable(c: Config)
    ensures Stable(c, Any(), Vouching())
  {
    var Q := Vouching();
    forall log, k, t, m | Q(log, k, t) ensures Q(log + [m], k, t) {
      VouchedGrows(log, k, t, m);
    }
    forall log, k, t, x | Local(c, k, t) && Q(log, k, t) && Step(c, k, t, x).Some?
      ensures Q(After(log, Step(c, k, t, x).value), Step(c, k, t, x).value.ctl, Step(c, k, t, x).value.task)
    {
      if Invariants.Working(k) {
        WorkVouches(c, log, k, t, x);
      } else {
        QuietVouches(c, log, k, t, x);
      }
    }
    hide Step, Local, After, Judged, Asked, BlankUntilDone;
  }

  lemma {:induction false} AnyInput(c: Config, w0: World, ls: seq<Label>)
    ensures Along(c, w0, ls, Honestly(Any()))
    decreases |ls|
  {
    hide Exec;
    if ls != [] {
      AnyInput(c, w0, ls[..|ls| - 1]);
    }
  }

  lemma RowsAreVouched(c: Config, w0: World, ls: seq<Label>, w: World)
    requires Reaches(c, w0, ls, w)
    ensures forall j :: 0 <= j < |w.log| ==> Vouched(w.log, Start, w.log[j].row)
    ensures Vouched(w.log, Start, w.row)
  {
    hide Apply, Exec, Stable, Step;
    VouchedIsStable(c);
    AnyInput(c, w0, ls);
    HoldsEverywhere(c, Any(), Vouching(), w0, ls, w);
    hide Vouched, CopyHas;
  }

  /** m, committed after log, is not a report, or one of fully completed work with a positive verdict, written from
      exactly the outputs some verifier had been asked about. */
  ghost predicate ReportAsked(log: seq<Commit>, m: Commit) {
    m.event.TaskCompleted? ==>
      && m.row.verified == Some(true)
      && AllDone(m.row.steps)
      && exists j :: 0 <= j < |log| && AsksVerifier(log[j]) &&
                     NonEmpty(ReportInput(m.row.steps)) == JudgedInput(log[j].row.steps)
  }

  ghost predicate ReportsAsked(log: seq<Commit>) {
    forall j :: 0 <= j < |log| ==> ReportAsked(log[..j], log[j])
  }

  lemma AskedGrows(log: seq<Commit>, m: Commit)
    requires ReportsAsked(log) && ReportAsked(log, m)
    ensures ReportsAsked(log + [m])
  {
    hide ReportAsked;
    forall j | 0 <= j < |log + [m]| ensures ReportAsked((log + [m])[..j], (log + [m])[j]) {
      assert (log + [m])[..j] == log[..j];
      assert j == |log| ==> log[..j] == log;
    }
  }

  /** A sound, vouched row with a verdict is written from what was asked. */
  lemma VouchedReport(log: seq<Commit>, m: Commit)
    requires Sound(m.row) && Vouched(log + [m], Start, m.row)
    requires m.event.TaskCompleted? ==> m.row.verified == Some(true)
    ensures ReportAsked(log, m)
  {
    hide BlankUntilDone, Judgement, ReportInput, JudgedInput, NonEmpty, Ordered, PlanShape, AllDone;
    if m.event.TaskCompleted? {
      var all := log + [m];
      var j :| 0 <= j < |all| && AsksVerifier(all[j]) && Judgement(all[j].row.steps, m.row.steps);
      JudgementInputs(all[j].row.steps, m.row.steps);
      assert j < |log| && all[j] == log[j];
    }
  }

  lemma LastReport(c: Config, w0: World, ls: seq<Label>, w: World)
    requires Reaches(c, w0, ls, w) && |w.log| > 0
    ensures ReportAsked(w.log[..|w.log| - 1], w.log[|w.log| - 1])
  {
    hide Reaches, Sound, Vouched, ReportAsked;
    CelerySafety.ReachableInv(c, w0, ls, w);
    RowsAreVouched(c, w0, ls, w);
    var n := |w.log| - 1;
    assert w.log == w.log[..n] + [w.log[n]];
    VouchedReport(w.log[..n], w.log[n]);
  }

  /** Verified results in worker mode, stale copies or not: every report, and every COMPLETED row, is fully completed
      work with a positive verdict on exactly the outputs some verifier call in the log was asked about. */
  lemma {:induction false} WorkersReportVerified(c: Config, w0: World, ls: seq<Label>, w: World)
    requires Reaches(c, w0, ls, w)
    ensures ReportsAsked(w.log)
    ensures w.row.status.Completed? ==>
              w.row.verified == Some(true) && AllDone(w.row.steps) && Judged(w.log, w.row.steps)
    decreases |ls|
  {
    hide Apply, ReportsAsked, ReportAsked, Sound, Vouched, AllDone, Judged;
    if ls == [] {
      FirstReport(c, w0);
    } else {
      var v, l := Exec(c, w0, ls[..|ls| - 1]).value, ls[|ls| - 1];
      WorkersReportVerified(c, w0, ls[..|ls| - 1], v);
      CeleryTurns.LogGrows(c, v, l);
      if w.log != v.log {
        LastReport(c, w0, ls, w);
        AskedGrows(v.log, w.log[|v.log|]);
        assert w.log == v.log + [w.log[|v.log|]];
      }
    }
    CelerySafety.ReachableInv(c, w0, ls, w);
    RowsAreVouched(c, w0, ls, w);
    CompletedIsVouched(w.log, w.row);
  }

  lemma FirstReport(c: Config, w0: World)
    requires Reaches(c, w0, [], w0)
    ensures ReportsAsked(w0.log) && |w0.log| > 0
  {
  }

  lemma CompletedIsVouched(log: seq<Commit>, t: TaskRow)
    requires Sound(t) && Vouched(log, Start, t)
    ensures t.status.Completed? ==> t.verified == Some(true) && AllDone(t.steps) && Judged(log, t.steps)
  {
    hide BlankUntilDone, Judged, Ordered, PlanShape, AllDone;
  }
}
