/** The system in worker mode: any number of processes, each with its own copy of the task, one row,
    a message bag with at-least-once delivery, and a leased lock per task.

    A process does one thing at a time. Everything it commits is its own copy, current or not. */
module Celery {
  import opened Models
  import opened Controller
  import InProcess

  datatype Act =
    | Idle
    | Sending                       // about to put the task on the queue
    | Queueing                      // it is on the queue; `task.queued` is still to be written
    | Losing                        // the queue was unreachable; `task.failed` is still to be written
    | Telling(event: Event)         // a decision is stored; its event is still to be written
    | Denying                       // the terminal status is still to be written
    | Ending                        // `stream.end` is still to be written
    | Loading                       // a worker holds the lock and is about to load the row
    | Working(run: nat, ctl: Ctl)   // a worker runs the task
    | Leaving                       // the run is over, the lock not yet released

  /** A worker that the lock is meant for. */
  predicate Engaged(a: Act) {
    a.Loading? || a.Working? || a.Leaving?
  }

  /** A run that will not move any more. */
  predicate Ended(k: Ctl) {
    k.Done? || k.Paused? || k.Aborted?
  }

  datatype Proc = Proc(copy: Option<TaskRow>, act: Act)

  /** A run of a worker: the row it loaded, when, and what its agents answered. */
  datatype Trip = Trip(from: TaskRow, pos: nat, inputs: seq<Input>)

  datatype World = World(
    row: TaskRow,
    log: seq<Commit>,
    authors: seq<Option<nat>>,      // which run made the commit; None for everyone else
    procs: seq<Proc>,
    messages: nat,
    lock: Option<nat>,
    trips: seq<Trip>,
    expiries: nat,                  // leases that ended while their holder was still engaged
    faults: nat)                    // memory writes that raised into the handler of a run

  datatype Label =
    | Go(p: nat)                            // the next step of whatever p is doing, outside a run
    | Run(p: nat, x: Input)                 // one step of the run in p
    | SendFails(p: nat, message: string)    // the queue is unreachable
    | MemoryLost(p: nat)                    // the memory write of a denied task raises
    | Decide(p: nat, approved: bool)        // a reviewer's compare-and-update through p
    | Expire(p: nat)                        // the scheduled compare-and-update through p
    | Deliver(p: nat)                       // p takes a message and the lock
    | Drop(p: nat)                          // p takes a message, finds the lock held and forgets it
    | Duplicate                             // the broker delivers a message again
    | Crash(p: nat)                         // p loses its copy; its lock and its message stay behind
    | LeaseEnds                             // the lock times out

  /** A task just stored by process p. */
  function Created(t: TaskRow, n: nat, p: nat): World {
    World(t, [Commit(TaskCreated, t)], [None],
          seq(n, i requires 0 <= i < n => if i == p then Proc(Some(t), Sending) else Proc(None, Idle)),
          0, None, [], 0, 0)
  }

  /** p commits its copy t with an event and turns to act. */
  function Save(w: World, p: nat, t: TaskRow, e: Event, run: Option<nat>, act: Act): World
    requires p < |w.procs|
  {
    w.(row := t, log := w.log + [Commit(e, t)], authors := w.authors + [run], procs := w.procs[p := Proc(Some(t), act)])
  }

  function Turn(w: World, p: nat, act: Act): World
    requires p < |w.procs|
  {
    w.(procs := w.procs[p := w.procs[p].(act := act)])
  }

  /** The compare-and-update. The caller goes on with its own copy if it has one. */
  function Claim(w: World, p: nat, approved: bool, e: Event): Option<World>
    requires p < |w.procs|
  {
    if !w.procs[p].act.Idle? || !InProcess.Undecided(w.row) then None
    else
      var row := w.row.(decision := Some(approved));
      var copy := if w.procs[p].copy.Some? then w.procs[p].copy.value.(decision := Some(approved)) else row;
      Some(w.(row := row, procs := w.procs[p := Proc(Some(copy), Telling(e))]))
  }

  /** The next step of a process outside a run. */
  function Proceed(w: World, p: nat): Option<World>
    requires p < |w.procs|
  {
    var act := w.procs[p].act;
    if act.Loading? then
      if w.row.status.Terminal() then Some(Turn(w, p, Leaving))
      else
        Some(w.(procs := w.procs[p := Proc(Some(w.row), Working(|w.trips|, Start))],
                trips := w.trips + [Trip(w.row, |w.log|, [])]))
    else if act.Leaving? then
      Some(Turn(w, p, Idle).(lock := if w.lock == Some(p) then None else w.lock,
                             messages := if w.messages > 0 then w.messages - 1 else 0))
    else if act.Working? && Ended(act.ctl) then Some(Turn(w, p, Leaving))
    else if w.procs[p].copy.None? then None
    else
      var t := w.procs[p].copy.value;
      match act
      case Sending => Some(Turn(w, p, Queueing).(messages := w.messages + 1))
      case Queueing => Some(Save(w, p, t, TaskQueued, None, Idle))
      case Losing => Some(Save(w, p, t, TaskFailed(t.error), None, Ending))
      case Telling(e) => Some(Save(w, p, t, e, None, if e == ApprovalResolved(true) then Sending else Denying))
      case Denying =>
        Some(Save(w, p, t.(result := DENIED_RESULT, status := Denied), StatusChanged(Denied), None, Ending))
      case Ending => Some(Save(w, p, t, StreamEnd(t.status), None, Idle))
      case _ => None
  }

  /** One step of the run in p, by the same controller as in a single process. */
  function RunStep(c: Config, w: World, p: nat, x: Input): Option<World>
    requires p < |w.procs|
  {
    var act := w.procs[p].act;
    if !act.Working? || w.procs[p].copy.None? || act.run >= |w.trips| then None
    else
      var m := Step(c, act.ctl, w.procs[p].copy.value, x);
      if m.None? then None
      else
        var trip := w.trips[act.run];
        var v := w.(trips := w.trips[act.run := trip.(inputs := trip.inputs + [x])],
                    faults := w.faults + if InProcess.MemoryFault(act.ctl, x) then 1 else 0);
        var next := Working(act.run, m.value.ctl);
        Some(if m.value.event.Some? then Save(v, p, m.value.task, m.value.event.value, Some(act.run), next)
             else v.(procs := v.procs[p := Proc(Some(m.value.task), next)]))
  }

  function Unsent(w: World, p: nat, message: string): Option<World>
    requires p < |w.procs|
  {
    if !w.procs[p].act.Sending? || w.procs[p].copy.None? then None
    else
      Some(Save(w, p, w.procs[p].copy.value.(error := message, status := TaskStatus.Failed),
                StatusChanged(TaskStatus.Failed), None, Losing))
  }

  /** The lock times out. That is early if its holder is still engaged; a crashed holder is not. */
  function TimeOut(w: World): Option<World> {
    if w.lock.None? then None
    else
      var early := w.lock.value < |w.procs| && Engaged(w.procs[w.lock.value].act);
      Some(w.(lock := None, expiries := w.expiries + if early then 1 else 0))
  }

  function Apply(c: Config, w: World, l: Label): Option<World> {
    if l.Duplicate? then if w.messages > 0 then Some(w.(messages := w.messages + 1)) else None
    else if l.LeaseEnds? then TimeOut(w)
    else if l.p >= |w.procs| then None
    else
      match l
      case Go(p) => Proceed(w, p)
      case Run(p, x) => RunStep(c, w, p, x)
      case SendFails(p, message) => Unsent(w, p, message)
      case MemoryLost(p) =>
        if w.procs[p].act.Ending? then Some(Turn(w, p, Idle)) else None
      case Decide(p, approved) => Claim(w, p, approved, ApprovalResolved(approved))
      case Expire(p) => Claim(w, p, false, ApprovalTimeout)
      case Deliver(p) =>
        if w.procs[p].act.Idle? && w.messages > 0 && w.lock.None?
        then Some(Turn(w, p, Loading).(lock := Some(p))) else None
      case Drop(p) =>
        if w.procs[p].act.Idle? && w.messages > 0 && w.lock.Some?
        then Some(w.(messages := w.messages - 1)) else None
      case Crash(p) => Some(w.(procs := w.procs[p := Proc(None, Idle)]))
      case _ => None
  }

  function Exec(c: Config, w: World, ls: seq<Label>): Option<World>
    decreases |ls|
  {
    if ls == [] then Some(w)
    else
      var v := Exec(c, w, ls[..|ls| - 1]);
      if v.None? then None else Apply(c, v.value, ls[|ls| - 1])
  }

  lemma ExecSnoc(c: Config, w: World, ls: seq<Label>, l: Label)
    requires Exec(c, w, ls).Some?
    ensures Exec(c, w, ls + [l]) == Apply(c, Exec(c, w, ls).value, l)
  {
    assert (ls + [l])[..|ls|] == ls;
  }

  /** w is reached from the creation of a task by process p, one of n, by the labels ls. */
  ghost predicate Reaches(c: Config, w0: World, ls: seq<Label>, w: World) {
    && c.celery
    && (exists t: TaskRow, n: nat, p: nat ::
          t == NewTask(t.id, t.goal, t.tenant, t.autoApprove) && w0 == Created(t, n, p))
    && Exec(c, w0, ls) == Some(w)
  }
}
