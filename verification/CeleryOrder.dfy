/** When the approved plan is the executed plan in worker mode: a condition on who may load the row and who may
    decide, at that moment. */
module CeleryOrder {
  import opened Models
  import opened Controller
  import opened Invariants
  import opened Frozen
  import opened Celery
  import SystemInvariant
  import CelerySafety
  import opened CeleryRuns

  /** D holds of every transition of a run, where it is taken. */
  ghost predicate Along(c: Config, w0: World, ls: seq<Label>, D: (World, Label) -> bool)
    decreases |ls|
  {
    ls == [] ||
    (var front := ls[..|ls| - 1];
     Along(c, w0, front, D) && (Exec(c, w0, front).Some? ==> D(Exec(c, w0, front).value, ls[|ls| - 1])))
  }

  /** The process still has to write its copy, outside a run. */
  predicate Owes(a: Act) {
    a.Sending? || a.Queueing? || a.Losing? || a.Telling? || a.Denying? || a.Ending?
  }

  predicate NobodyOwes(w: World) {
    forall p :: 0 <= p < |w.procs| ==> !Owes(w.procs[p].act)
  }

  /** The label starts a run, if the row has not ended. */
  predicate Loads(w: World, l: Label) {
    l.Go? && l.p < |w.procs| && w.procs[l.p].act.Loading? && !w.row.status.Terminal()
  }

  predicate Claims(l: Label) {
    l.Decide? || l.Expire?
  }

  // ------------------------------------------------------------ frozen plan

  /** A row without an assessment is loaded only while nobody owes a write, and whoever decides has no copy of the
      task or one with the row's plan. */
  ghost predicate PlanSchedule(w: World, l: Label) {
    && (Loads(w, l) && w.row.risk.None? ==> NobodyOwes(w))
    && (Claims(l) && l.p < |w.procs| && w.procs[l.p].copy.Some? ==> SamePlan(w.row, w.procs[l.p].copy.value))
  }

  /** Nothing awaits approval without an assessment. */
  predicate Assessed(t: TaskRow) {
    t.status.AwaitingApproval? ==> t.risk.Some?
  }

  ghost predicate CopyKept(row: TaskRow, q: Proc) {
    q.copy.Some? ==>
      && Assessed(q.copy.value)
      && (q.act.Working? || Owes(q.act) ==> SamePlan(row, q.copy.value))
  }

  ghost predicate PlanKept(w: World) {
    && PlanFrozen(w.log, w.row)
    && Assessed(w.row)
    && (forall p :: 0 <= p < |w.procs| ==> CopyKept(w.row, w.procs[p]))
    && (w.row.risk.None? ==>
          forall p, q :: 0 <= p < |w.procs| && 0 <= q < |w.procs| && Owes(w.procs[p].act) ==> !w.procs[q].act.Working?)
  }

  lemma SamePlanSymmetric(a: TaskRow, b: TaskRow)
    requires SamePlan(a, b)
    ensures SamePlan(b, a)
  {
    forall i | 0 <= i < |a.steps| ensures SameWorkOrder(b.steps[i], a.steps[i]) {
      assert SameWorkOrder(a.steps[i], b.steps[i]);
    }
  }

  lemma SamePlanReflexive(a: TaskRow)
    ensures SamePlan(a, a)
  {
  }

  lemma PlanHasRisk(a: TaskRow, b: TaskRow)
    requires SamePlan(a, b)
    ensures a.risk == b.risk
  {
  }

  lemma SilentKeepsPlan(c: Config, k: Ctl, t: TaskRow, x: Input)
    requires Step(c, k, t, x).Some? && Step(c, k, t, x).value.event.None?
    ensures SamePlan(t, Step(c, k, t, x).value.task)
  {
    SystemInvariant.SilentMoves(c, k, t, x);
    hide Step;
  }

  lemma AwaitingOnlyFromGate(c: Config, k: Ctl, t: TaskRow, x: Input)
    requires Step(c, k, t, x).Some? && !k.Gate?
    ensures Step(c, k, t, x).value.task.status.AwaitingApproval? ==> t.status.AwaitingApproval?
  {
    hide ResumeSteps, ResetSteps, PlanOf, FailureText, ValidProposal, GateMove;
  }

  /** A run asks for approval only with an assessment. */
  lemma RunKeepsAssessed(c: Config, k: Ctl, t: TaskRow, x: Input)
    requires Local(c, k, t) && Assessed(t) && Step(c, k, t, x).Some?
    ensures Assessed(Step(c, k, t, x).value.task)
  {
    assert k.Gate? ==> t.risk.Some? by {
      hide Sound, Settled, Step;
    }
    if !k.Gate? {
      AwaitingOnlyFromGate(c, k, t, x);
    }
    if !k.Assessing? {
      RiskFrame(c, k, t, x);
      hide Step, Local;
    } else {
      hide Local;
    }
  }

  /** The log and the row after a commit, when every plan in force is kept. */
  lemma CommitFreezes(w: World, v: World, e: Event)
    requires PlanFrozen(w.log, w.row) && v.log == w.log + [Commit(e, v.row)]
    requires w.row.risk.Some? ==> SamePlan(w.row, v.row)
    ensures PlanFrozen(v.log, v.row)
  {
    FrozenGrows(w.log, w.row, v.row, Commit(e, v.row));
  }

  lemma CopyStaysKept(row: TaskRow, row': TaskRow, q: Proc)
    requires CopyKept(row, q) && SamePlan(row, row')
    ensures CopyKept(row', q)
  {
    if q.copy.Some? && (q.act.Working? || Owes(q.act)) {
      SamePlanSymmetric(row, row');
      SamePlanTransitive(row', row, q.copy.value);
    }
  }

  /** p alone moves; where the row has an assessment, the plan stays, and otherwise nobody else writes. */
  lemma MoveKeepsPlan(w: World, v: World, p: nat)
    requires PlanKept(w) && p < |w.procs| == |v.procs|
    requires forall q :: 0 <= q < |w.procs| && q != p ==> v.procs[q] == w.procs[q]
    requires PlanFrozen(v.log, v.row) && Assessed(v.row) && CopyKept(v.row, v.procs[p])
    requires SamePlan(w.row, v.row) ||
             (w.row.risk.None? &&
              forall q :: 0 <= q < |w.procs| && q != p ==> !Owes(w.procs[q].act) && !w.procs[q].act.Working?)
    requires w.row.risk.None? && Owes(v.procs[p].act) ==> Owes(w.procs[p].act)
    requires w.row.risk.None? && v.procs[p].act.Working? ==> w.procs[p].act.Working? || NobodyOwes(w)
    ensures PlanKept(v)
  {
    hide PlanFrozen, CopyKept, SamePlan;
    forall q | 0 <= q < |v.procs| && q != p ensures CopyKept(v.row, v.procs[q]) {
      if SamePlan(w.row, v.row) {
        CopyStaysKept(w.row, v.row, w.procs[q]);
      } else {
        IdleCopyKept(w.row, v.row, w.procs[q]);
      }
    }
    if SamePlan(w.row, v.row) {
      PlanHasRisk(w.row, v.row);
    }
  }

  lemma IdleCopyKept(row: TaskRow, row': TaskRow, q: Proc)
    requires CopyKept(row, q) && !Owes(q.act) && !q.act.Working?
    ensures CopyKept(row', q)
  {
  }

  lemma RunKeepsFrozen(c: Config, w: World, p: nat, x: Input)
    requires CelerySafety.Inv(c, w) && LockHeld(w) && PlanKept(w) && w.expiries == 0
    requires p < |w.procs| && RunStep(c, w, p, x).Some?
    ensures PlanKept(RunStep(c, w, p, x).value)
  {
    var v := RunStep(c, w, p, x).value;
    var k, t := w.procs[p].act.ctl, w.procs[p].copy.value;
    assert CelerySafety.ProcOk(c, w.procs[p]) && CopyKept(w.row, w.procs[p]);
    assert forall q :: 0 <= q < |w.procs| && q != p ==> !w.procs[q].act.Working?;
    var m := Step(c, k, t, x).value;
    hide Step, Local, Sound, SamePlan, PlanFrozen, CelerySafety.Inv, CelerySafety.ProcOk, LockHeld;
    RunKeepsAssessed(c, k, t, x);
    PlanHasRisk(w.row, t);
    if m.event.None? {
      SilentKeepsPlan(c, k, t, x);
      SamePlanTransitive(w.row, t, m.task);
      SamePlanReflexive(w.row);
    } else {
      if w.row.risk.Some? {
        RunKeepsPlan(c, k, t, x);
        SamePlanTransitive(w.row, t, m.task);
      }
      CommitFreezes(w, v, m.event.value);
      SamePlanReflexive(m.task);
    }
    MoveKeepsPlan(w, v, p);
  }

  /** A commit of an edited copy outside a run, by a process that owed it. */
  lemma OutsideKeepsFrozen(w: World, v: World, p: nat, e: Event)
    requires PlanKept(w) && p < |w.procs| == |v.procs|
    requires Owes(w.procs[p].act) && w.procs[p].copy.Some? && !v.procs[p].act.Working? && v.procs[p].copy == Some(v.row)
    requires var u := w.procs[p].copy.value;
             && v.row == u.(decision := v.row.decision, result := v.row.result, error := v.row.error,
                            status := v.row.status)
             && (v.row.status == u.status || !v.row.status.AwaitingApproval?)
    requires v.log == w.log + [Commit(e, v.row)]
    requires forall q :: 0 <= q < |w.procs| && q != p ==> v.procs[q] == w.procs[q]
    ensures PlanKept(v)
  {
    assert CopyKept(w.row, w.procs[p]);
    assert SamePlan(w.row, v.row);
    SamePlanReflexive(v.row);
    hide SamePlan, PlanFrozen;
    CommitFreezes(w, v, e);
    MoveKeepsPlan(w, v, p);
  }

  /** A transition of p without a commit: at most the row's decision changes, and p's copy has the row's plan. */
  lemma QuietKeepsFrozen(w: World, v: World, p: nat)
    requires PlanKept(w) && p < |w.procs| == |v.procs|
    requires v.log == w.log && v.row == w.row.(decision := v.row.decision)
    requires forall q :: 0 <= q < |w.procs| && q != p ==> v.procs[q] == w.procs[q]
    requires CopyKept(v.row, v.procs[p])
    requires w.row.risk.None? && Owes(v.procs[p].act) ==> Owes(w.procs[p].act)
    requires w.row.risk.None? && v.procs[p].act.Working? ==> w.procs[p].act.Working? || NobodyOwes(w)
    ensures PlanKept(v)
  {
    assert SamePlan(w.row, v.row);
    assert PlanFrozen(v.log, v.row) by {
      RowDecisionIsFree(w.log, w.row, v.row);
    }
    hide SamePlan, PlanFrozen, CopyKept;
    MoveKeepsPlan(w, v, p);
  }

  lemma RowDecisionIsFree(log: seq<Commit>, row: TaskRow, row': TaskRow)
    requires PlanFrozen(log, row) && row' == row.(decision := row'.decision)
    ensures PlanFrozen(log, row')
  {
    forall i | 0 <= i < |log| && log[i].row.risk.Some? ensures SamePlan(log[i].row, row') {
      assert SamePlan(log[i].row, row);
    }
  }

  lemma ProceedKeepsFrozen(w: World, p: nat)
    requires PlanKept(w) && PlanSchedule(w, Label.Go(p)) && p < |w.procs| && Proceed(w, p).Some?
    ensures PlanKept(Proceed(w, p).value)
  {
    var v := Proceed(w, p).value;
    assert CopyKept(w.row, w.procs[p]) && Assessed(w.row);
    SamePlanReflexive(w.row);
    SamePlanReflexive(v.row);
    hide PlanKept, SamePlan;
    if v.log != w.log {
      OutsideKeepsFrozen(w, v, p, v.log[|w.log|].event);
    } else {
      QuietKeepsFrozen(w, v, p);
    }
  }

  lemma ClaimKeepsFrozen(w: World, p: nat, approved: bool, e: Event)
    requires PlanKept(w) && p < |w.procs| && Claim(w, p, approved, e).Some?
    requires w.procs[p].copy.Some? ==> SamePlan(w.row, w.procs[p].copy.value)
    ensures PlanKept(Claim(w, p, approved, e).value)
  {
    var v := Claim(w, p, approved, e).value;
    assert CopyKept(w.row, w.procs[p]) && Assessed(w.row);
    assert SamePlan(v.row, v.procs[p].copy.value);
    hide PlanKept, SamePlan;
    QuietKeepsFrozen(w, v, p);
  }

  lemma FrozenStays(c: Config, w: World, l: Label)
    requires CelerySafety.Inv(c, w) && LockHeld(w) && PlanKept(w) && PlanSchedule(w, l) && Apply(c, w, l).Some?
    requires w.expiries == 0
    ensures PlanKept(Apply(c, w, l).value)
  {
    var v := Apply(c, w, l).value;
    if !l.Duplicate? && !l.LeaseEnds? {
      assert CopyKept(w.row, w.procs[l.p]);
    }
    hide SamePlan, PlanFrozen, RunStep, Proceed, Claim, CelerySafety.Inv, LockHeld;
    if l.LeaseEnds? || l.Duplicate? {
    } else if l.Run? {
      RunKeepsFrozen(c, w, l.p, l.x);
    } else if l.Go? {
      ProceedKeepsFrozen(w, l.p);
    } else if l.Decide? {
      ClaimKeepsFrozen(w, l.p, l.approved, ApprovalResolved(l.approved));
    } else if l.Expire? {
      ClaimKeepsFrozen(w, l.p, false, ApprovalTimeout);
    } else if l.SendFails? {
      hide PlanKept;
      OutsideKeepsFrozen(w, v, l.p, v.log[|w.log|].event);
    } else {
      hide PlanKept;
      QuietKeepsFrozen(w, v, l.p);
    }
  }

  lemma {:induction false} RunsAreFrozen(c: Config, w0: World, ls: seq<Label>, w: World)
    requires Reaches(c, w0, ls, w) && Along(c, w0, ls, PlanSchedule) && w.expiries == 0
    ensures PlanKept(w)
    decreases |ls|
  {
    hide Apply, PlanKept, LockHeld, PlanSchedule, CelerySafety.Inv, Runs, Serial;
    if ls == [] {
      CreatedFrozen(c, w0);
    } else {
      var v, l := Exec(c, w0, ls[..|ls| - 1]).value, ls[|ls| - 1];
      CountersGrow(c, v, l);
      RunsAreFrozen(c, w0, ls[..|ls| - 1], v);
      CelerySafety.ReachableInv(c, w0, ls[..|ls| - 1], v);
      ReachableRuns(c, w0, ls[..|ls| - 1], v);
      FrozenStays(c, v, l);
    }
  }

  lemma CreatedFrozen(c: Config, w0: World)
    requires Reaches(c, w0, [], w0)
    ensures PlanKept(w0)
  {
  }

  lemma CountersGrow(c: Config, w: World, l: Label)
    requires Apply(c, w, l).Some?
    ensures var v := Apply(c, w, l).value; v.expiries >= w.expiries && v.faults >= w.faults
  {
    hide Step;
  }

  /** The approved plan is the executed plan, if no lease ends early, the write after enqueueing precedes the load of
      an unassessed row, and whoever decides has no copy of the task or one with the row's plan. */
  lemma ApprovedPlanIsExecuted(c: Config, w0: World, ls: seq<Label>, w: World, i: nat, j: nat)
    requires Reaches(c, w0, ls, w) && Along(c, w0, ls, PlanSchedule) && w.expiries == 0
    requires i <= j < |w.log| && w.log[i].row.risk.Some?
    ensures SamePlan(w.log[i].row, w.log[j].row)
  {
    RunsAreFrozen(c, w0, ls, w);
    hide SamePlan;
  }
}
