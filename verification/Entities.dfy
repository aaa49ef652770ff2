/** The live objects the controller updates in place, and the store of one task. */
module Entities {
  import opened Models
  import opened Controller
  import opened InProcess

  class PlanStep {
    const id: string
    const title: string
    const agent: string
    const detail: string
    var status: StepStatus
    var output: string
    var attempts: nat
    var error: string

    function Row(): (r: StepRow)
      reads this
    {
      StepRow(id, title, agent, detail, status, output, attempts, error)
    }

    constructor (r: StepRow)
      ensures Row() == r
    {
      id, title, agent, detail := r.id, r.title, r.agent, r.detail;
      status, output, attempts, error := r.status, r.output, r.attempts, r.error;
    }
  }

  function Rows(steps: seq<PlanStep>): (r: seq<StepRow>)
    reads steps
    ensures |r| == |steps| && forall i :: 0 <= i < |steps| ==> r[i] == steps[i].Row()
  {
    if steps == [] then [] else Rows(steps[..|steps| - 1]) + [steps[|steps| - 1].Row()]
  }

  ghost predicate Distinct(steps: seq<PlanStep>) {
    forall i, j :: 0 <= i < j < |steps| ==> steps[i] != steps[j]
  }

  /** Builds the step objects of a plan. */
  method Materialize(rows: seq<StepRow>) returns (steps: seq<PlanStep>)
    ensures Rows(steps) == rows && Distinct(steps) && fresh(steps)
  {
    steps := [];
    for i := 0 to |rows|
      invariant |steps| == i && Distinct(steps) && fresh(steps)
      invariant forall j :: 0 <= j < i ==> steps[j].Row() == rows[j]
    {
      var s := new PlanStep(rows[i]);
      steps := steps + [s];
    }
  }

  class Task {
    const id: string
    const goal: string
    const tenant: string
    const autoApprove: bool
    var status: TaskStatus
    var steps: seq<PlanStep>
    var risk: Option<Risk>
    var result: string
    var error: string
    var verified: Option<bool>
    var verification: string
    var rework: nat
    var decision: Option<bool>

    ghost predicate Valid()
      reads this
    {
      Distinct(steps)
    }

    /** The snapshot that a commit writes. */
    function Row(): TaskRow
      reads this, steps
    {
      TaskRow(id, goal, tenant, autoApprove, status, Rows(steps), risk, result, error,
              verified, verification, rework, decision)
    }

    constructor (r: TaskRow)
      ensures Valid() && Row() == r && fresh(steps)
    {
      id, goal, tenant, autoApprove := r.id, r.goal, r.tenant, r.autoApprove;
      status, risk, result, error := r.status, r.risk, r.result, r.error;
      verified, verification, rework, decision := r.verified, r.verification, r.rework, r.decision;
      var built := Materialize(r.steps);
      steps := built;
    }
  }

  /** The row and the events of one task. The ghost fields record which run of the system wrote them. */
  class Store {
    const cfg: Config
    var row: TaskRow
    var events: seq<Event>
    ghost var origin: World
    ghost var labels: seq<Label>
    ghost var world: World

    /** What is stored is what some run of the system commits. */
    ghost predicate Valid()
      reads this
    {
      && Reaches(cfg, origin, labels, world)
      && row == world.row
      && |events| == |world.log|
      && forall j :: 0 <= j < |events| ==> events[j] == world.log[j].event
    }

    /** Stores a new task with its `task.created` event. */
    constructor (cfg: Config, t: TaskRow)
      requires t == NewTask(t.id, t.goal, t.tenant, t.autoApprove)
      ensures Valid() && this.cfg == cfg && world == Created(t.id, t.goal, t.tenant, t.autoApprove)
      ensures labels == []
    {
      this.cfg := cfg;
      row, events := t, [TaskCreated];
      origin := Created(t.id, t.goal, t.tenant, t.autoApprove);
      labels, world := [], Created(t.id, t.goal, t.tenant, t.autoApprove);
    }

    ghost method Advance(l: Label)
      requires Reaches(cfg, origin, labels, world) && Apply(cfg, world, l).Some?
      modifies this`labels, this`world
      ensures Reaches(cfg, origin, labels, world)
      ensures labels == old(labels) + [l] && world == Apply(cfg, old(world), l).value
    {
      ExecSnoc(cfg, origin, labels, l);
      labels, world := labels + [l], Apply(cfg, world, l).value;
    }

    /** One transaction: the snapshot and its event. It must be a commit the system can make. */
    method SaveTaskAndEvent(t: TaskRow, e: Event, ghost l: Label)
      requires Valid() && Apply(cfg, world, l).Some?
      requires var v := Apply(cfg, world, l).value; v.row == t && v.log == world.log + [Commit(e, t)]
      modifies this
      ensures Valid() && origin == old(origin)
      ensures row == t && events == old(events) + [e]
      ensures labels == old(labels) + [l] && world == Apply(cfg, old(world), l).value
    {
      row, events := t, events + [e];
      Advance(l);
    }

    /** The compare-and-update of an approval: it succeeds exactly on an undecided waiting row. */
    method Decide(approved: bool, ghost l: Label) returns (won: bool)
      requires Valid() && !cfg.celery && world.announcing.None? && world.janitor.Idle?
      requires l == InProcess.Decide(approved) || (!approved && l == Claim)
      modifies this
      ensures Valid() && origin == old(origin) && events == old(events)
      ensures won <==> Undecided(old(row))
      ensures row == if won then old(row).(decision := Some(approved)) else old(row)
      ensures won ==> labels == old(labels) + [l] && world == Apply(cfg, old(world), l).value
      ensures !won ==> labels == old(labels) && world == old(world)
    {
      won := row.status.AwaitingApproval? && row.decision.None?;
      if won {
        row := row.(decision := Some(approved));
        Advance(l);
      }
    }
  }
}
