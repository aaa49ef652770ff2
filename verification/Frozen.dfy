/** The plan that was assessed is the plan that runs. */
module Frozen {
  import opened Models
  import opened Controller
  import opened Invariants
  import opened InProcess
  import opened SystemInvariant

  /** Same risk, and step by step the same identifier, title, agent and detail. */
  ghost predicate SamePlan(a: TaskRow, b: TaskRow) {
    && a.risk == b.risk
    && |a.steps| == |b.steps|
    && (forall i :: 0 <= i < |a.steps| ==> SameWorkOrder(a.steps[i], b.steps[i]))
  }

  /** The plans of all assessed commits agree with each other and with the live object. */
  ghost predicate PlanFrozen(log: seq<Commit>, live: TaskRow) {
    && (forall i :: 0 <= i < |log| && log[i].row.risk.Some? ==> SamePlan(log[i].row, live))
    && (forall i, j :: 0 <= i <= j < |log| && log[i].row.risk.Some? ==> SamePlan(log[i].row, log[j].row))
  }

  lemma RunKeepsPlan(c: Config, k: Ctl, t: TaskRow, x: Input)
    requires Local(c, k, t) && t.risk.Some? && Step(c, k, t, x).Some?
    ensures SamePlan(t, Step(c, k, t, x).value.task)
  {
    RiskFrame(c, k, t, x);
    if Working(k) {
      WorkFrame(c, k, t, x);
      hide Step, Sound;
    } else if !k.Start? && !k.Rework? {
      StepsFrame(c, k, t, x);
      hide Step, Sound;
    } else {
      hide Sound;
    }
  }

  lemma SamePlanTransitive(a: TaskRow, b: TaskRow, d: TaskRow)
    requires SamePlan(a, b) && SamePlan(b, d)
    ensures SamePlan(a, d)
  {
    forall i | 0 <= i < |a.steps| ensures SameWorkOrder(a.steps[i], d.steps[i]) {
      assert SameWorkOrder(a.steps[i], b.steps[i]);
      assert SameWorkOrder(b.steps[i], d.steps[i]);
    }
  }

  lemma FrozenGrows(log: seq<Commit>, t: TaskRow, u: TaskRow, m: Commit)
    requires PlanFrozen(log, t) && m.row == u
    requires t.risk.Some? ==> SamePlan(t, u)
    ensures PlanFrozen(log, u) && PlanFrozen(log + [m], u)
  {
    forall i | 0 <= i < |log| && log[i].row.risk.Some? ensures SamePlan(log[i].row, u) {
      SamePlanTransitive(log[i].row, t, u);
    }
    assert SamePlan(u, u);
  }

  lemma ApplyKeepsPlan(c: Config, w: World, l: Label)
    requires Inv(c, w) && w.live.risk.Some? && Apply(c, w, l).Some?
    ensures SamePlan(w.live, Apply(c, w, l).value.live)
  {
    var v := Apply(c, w, l).value;
    if l.Run? {
      RunEffect(c, w, l.x);
      RunKeepsPlan(c, w.ctl, w.live, l.x);
      hide SamePlan;
    } else {
      OutsiderEffect(c, w, l);
    }
    hide Apply, Step, Local, Sound, ApprovalState, ReviewerState, JanitorState;
  }

  lemma FrozenStays(c: Config, w: World, l: Label)
    requires Inv(c, w) && PlanFrozen(w.log, w.live) && Apply(c, w, l).Some?
    ensures var v := Apply(c, w, l).value; PlanFrozen(v.log, v.live)
  {
    var v := Apply(c, w, l).value;
    if w.live.risk.Some? {
      ApplyKeepsPlan(c, w, l);
    }
    if l.Run? {
      RunEffect(c, w, l.x);
    } else {
      OutsiderEffect(c, w, l);
    }
    FrozenGrows(w.log, w.live, v.live, Commit(TaskCreated, v.live));
    if v.log != w.log {
      FrozenGrows(w.log, w.live, v.live, v.log[|w.log|]);
    }
    hide Apply, Step, Inv, PlanFrozen, SamePlan;
  }

  /** The approved plan is the executed plan: from the first commit that carries a risk assessment on,
      every commit carries that assessment and the same steps in the same order. */
  lemma ApprovedPlanIsExecuted(c: Config, w0: World, ls: seq<Label>, w: World, i: nat, j: nat)
    requires Reaches(c, w0, ls, w) && i <= j < |w.log| && w.log[i].row.risk.Some?
    ensures SamePlan(w.log[i].row, w.log[j].row)
  {
    var G := (l: Label) => true;
    var P := (v: World) => PlanFrozen(v.log, v.live);
    forall v, l | Inv(c, v) && P(v) && G(l) && Apply(c, v, l).Some? ensures P(Apply(c, v, l).value) {
      FrozenStays(c, v, l);
    }
    Induct(c, G, P, w0, ls, w);
  }
}
