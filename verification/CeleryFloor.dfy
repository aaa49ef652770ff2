/** The risk floor in worker mode: it holds of every row and every copy, stale or not. */
module CeleryFloor {
  import opened Models
  import opened Controller
  import opened Invariants
  import opened Frozen
  import opened RiskScore
  import opened Celery
  import opened CeleryOrder
  import opened CeleryWork
  import CelerySafety

  /** Every assessment is one the safety agent makes of the copy in front of it. */
  ghost function ByAgent(p: Policy): (TaskRow, Input) -> bool {
    (t: TaskRow, x: Input) => x.Assessed? ==> AssessedAs(p, t, x.risk)
  }

  ghost function Scoring(p: Policy): (seq<Commit>, Ctl, TaskRow) -> bool {
    (log, k, t) => Scored(p, t)
  }

  lemma EditsKeepScored(p: Policy, t: TaskRow, u: TaskRow)
    requires Scored(p, t) && Edited(t, u)
    ensures Scored(p, u)
  {
    if t.risk.Some? {
      assert SamePlan(t, u);
      ScoredStays(p, t, u);
    }
  }

  lemma StepKeepsScored(c: Config, p: Policy, k: Ctl, t: TaskRow, x: Input)
    requires Local(c, k, t) && Scored(p, t) && Step(c, k, t, x).Some?
    requires x.Assessed? ==> AssessedAs(p, t, x.risk)
    ensures Scored(p, Step(c, k, t, x).value.task)
  {
    var u := Step(c, k, t, x).value.task;
    hide Step, Local, AssessedAs;
    GoalFrame(c, k, t, x);
    if t.risk.Some? {
      RunKeepsPlan(c, k, t, x);
      ScoredStays(p, t, u);
    } else if u.risk.Some? {
      RiskAppears(c, k, t, x);
      assert Text(u) == Text(t);
      SameAssessment(p, t, u, x.risk);
    }
  }

  lemma ScoredIsStable(c: Config, p: Policy)
    ensures Stable(c, ByAgent(p), Scoring(p))
  {
    var Q, H := Scoring(p), ByAgent(p);
    forall log: seq<Commit>, t, u | Q(log, Start, t) && Edited(t, u) ensures Q(log, Start, u) {
      EditsKeepScored(p, t, u);
    }
    forall log, k, t, x | Local(c, k, t) && Q(log, k, t) && H(t, x) && Step(c, k, t, x).Some?
      ensures Q(After(log, Step(c, k, t, x).value), Step(c, k, t, x).value.ctl, Step(c, k, t, x).value.task)
    {
      StepKeepsScored(c, p, k, t, x);
    }
    hide Step, Local, After, Scored, AssessedAs, Edited;
  }

  /** The floor in worker mode: if the text of an attempted plan matches a pattern whose weight reaches the threshold,
      the attempt has an approval or the request's own `auto_approve`, whatever the safety model answered and
      whatever copies were written. */
  lemma WorkersEnforceFloor(c: Config, w0: World, ls: seq<Label>, w: World, p: Policy, j: nat)
    requires Reaches(c, w0, ls, w) && Along(c, w0, ls, Honestly(ByAgent(p)))
    requires j < |w.log| && w.log[j].event.StepAttempted? && Flagged(p, w.log[j].row)
    ensures w.log[j].row.decision == Some(true) || w.log[j].row.autoApprove
  {
    hide Apply, Exec, Along, Stable, Flagged, Scored;
    CelerySafety.WorkersRespectGate(c, w0, ls, w);
    ScoredIsStable(c, p);
    FirstIsScored(c, w0, p);
    HoldsEverywhere(c, ByAgent(p), Scoring(p), w0, ls, w);
    assert Scoring(p)(w.log, Start, w.log[j].row);
    hide Reaches, CopyHas;
    assert Permitted(w.log[j].row);
    FloorNeedsApproval(p, w.log[j].row);
  }

  lemma FirstIsScored(c: Config, w0: World, p: Policy)
    requires exists t: TaskRow, n: nat, q: nat ::
               t == NewTask(t.id, t.goal, t.tenant, t.autoApprove) && w0 == Created(t, n, q)
    ensures Scored(p, w0.row)
  {
  }
}
