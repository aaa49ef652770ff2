/** The single-process system around one task: the runner, a reviewer, the approval
    janitor's thread, and restarts of the process.

    The runner and the reviewer share one live task object; the store holds one row.
    A restart may come after any transition: it forgets the live object and continues
    from the row. A run of the system is a list of labels. */
module InProcess {
  import opened Models
  import opened Controller

  datatype Janitor = Idle | Claimed | Expired | Stopped

  datatype World = World(
    ctl: Ctl,
    live: TaskRow,
    row: TaskRow,
    log: seq<Commit>,
    announcing: Option<bool>,   // a reviewer's decision is stored but not yet announced
    janitor: Janitor,
    restarts: nat,
    faults: nat)                // memory writes that raised into the handler of a run

  datatype Label =
    | Run(x: Input)             // one step of the runner
    | Decide(approved: bool)    // the reviewer's compare-and-update
    | Announce                  // the reviewer's `approval.resolved`
    | Claim                     // the janitor's compare-and-update
    | Expire                    // the janitor's `approval.timeout`
    | Stop                      // the janitor's terminal status
    | EndStream                 // the janitor's `stream.end`
    | MemoryLost                // the janitor's memory write raises
    | Restart                   // crash, then recovery

  /** The world right after `task.created`. */
  function Created(id: string, goal: string, tenant: string, autoApprove: bool): World {
    var t := NewTask(id, goal, tenant, autoApprove);
    World(Start, t, t, [Commit(TaskCreated, t)], None, Idle, 0, 0)
  }

  /** Saves the live object together with an event. */
  function Save(w: World, t: TaskRow, e: Event): World {
    w.(live := t, row := t, log := w.log + [Commit(e, t)])
  }

  /** A memory write of a finished task raises into the handler of the run. */
  predicate MemoryFault(k: Ctl, x: Input) {
    k == Finishing(false) && x.Raised?
  }

  function RunMove(w: World, x: Input, m: Move): World {
    var u := w.(ctl := m.ctl, live := m.task, faults := w.faults + if MemoryFault(w.ctl, x) then 1 else 0);
    if m.event.Some? then Save(u, m.task, m.event.value) else u
  }

  /** The status and decision that `decide_approval` and `expire_approval` test. */
  predicate Undecided(row: TaskRow) {
    row.status.AwaitingApproval? && row.decision.None?
  }

  function Apply(c: Config, w: World, l: Label): Option<World> {
    match l
    case Run(x) =>
      if w.announcing.Some? || (x.Polled? && w.row.decision != Some(x.approved)) then None
      else
        var m := Step(c, w.ctl, w.live, x);
        if m.None? then None else Some(RunMove(w, x, m.value))
    case Decide(b) =>
      if !c.celery && w.announcing.None? && Undecided(w.row)
      then Some(w.(row := w.row.(decision := Some(b)), announcing := Some(b))) else None
    case Announce =>
      if w.announcing.None? then None
      else Some(Save(w.(announcing := None), w.live.(decision := w.announcing), ApprovalResolved(w.announcing.value)))
    case Claim =>
      if !c.celery && w.janitor.Idle? && Undecided(w.row)
      then Some(w.(row := w.row.(decision := Some(false)), janitor := Claimed)) else None
    case Expire =>
      if !w.janitor.Claimed? then None
      else Some(Save(w.(janitor := Expired), w.live.(decision := Some(false)), ApprovalTimeout))
    case Stop =>
      if !w.janitor.Expired? then None
      else Some(Save(w.(janitor := Stopped), w.live.(result := DENIED_RESULT, status := Denied), StatusChanged(Denied)))
    case EndStream =>
      if !w.janitor.Stopped? then None
      else Some(Save(w.(janitor := Idle), w.live, StreamEnd(w.live.status)))
    case MemoryLost =>
      if !w.janitor.Stopped? then None else Some(w.(janitor := Idle))
    case Restart =>
      if c.celery || w.row.status.Terminal() then None
      else
        Some(Save(w.(ctl := Start, announcing := None, janitor := Idle, restarts := w.restarts + 1),
                  w.row, TaskRecovered(w.row.status)))
  }

  /** The world after a list of labels, if each of them was possible in turn. */
  function Exec(c: Config, w: World, ls: seq<Label>): Option<World>
    decreases |ls|
  {
    if ls == [] then Some(w)
    else
      var v := Exec(c, w, ls[..|ls| - 1]);
      if v.None? then None else Apply(c, v.value, ls[|ls| - 1])
  }

  lemma ExecSnoc(c: Config, w: World, ls: seq<Label>, l: Label)
    requires Exec(c, w, ls).Some?
    ensures Exec(c, w, ls + [l]) == Apply(c, Exec(c, w, ls).value, l)
  {
    assert (ls + [l])[..|ls|] == ls;
  }

  /** w is reached from the creation of some task by the labels ls. */
  predicate Reaches(c: Config, w0: World, ls: seq<Label>, w: World) {
    && w0 == Created(w0.live.id, w0.live.goal, w0.live.tenant, w0.live.autoApprove)
    && Exec(c, w0, ls) == Some(w)
  }
}
