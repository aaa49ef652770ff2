/** What worker mode does not promise: runs on which a stale copy, an early or repeated message, or a
    lost lease defeats a stronger reading. */
module CeleryLimits {
  import opened Models
  import opened Controller
  import opened Celery
  import Invariants

  /** Extends a run by one label. */
  lemma Take(c: Config, w0: World, ls: seq<Label>, w: World, l: Label) returns (more: seq<Label>, v: World)
    requires Reaches(c, w0, ls, w) && Apply(c, w, l).Some?
    ensures Reaches(c, w0, more, v) && v == Apply(c, w, l).value
  {
    hide Apply;
    ExecSnoc(c, w0, ls, l);
    more, v := ls + [l], Apply(c, w, l).value;
  }

  ghost predicate Runs(w: World, p: nat, n: nat, k: Ctl, t: TaskRow) {
    p < |w.procs| && w.procs[p] == Proc(Some(t), Working(n, k)) && n < |w.trips|
  }

  /** v is w after p alone moved within its run n, to k with the copy t. */
  ghost predicate Moved(w: World, v: World, p: nat, n: nat, k: Ctl, t: TaskRow) {
    && p < |w.procs|
    && v.procs == w.procs[p := Proc(Some(t), Working(n, k))]
    && v.messages == w.messages && v.lock == w.lock && v.expiries == w.expiries && n < |v.trips|
  }

  /** A commit of the run in p. */
  lemma Work(c: Config, w0: World, ls: seq<Label>, w: World, p: nat, n: nat, k: Ctl, t: TaskRow, x: Input)
    returns (more: seq<Label>, v: World)
    requires Reaches(c, w0, ls, w) && Runs(w, p, n, k, t)
    requires Step(c, k, t, x).Some? && Step(c, k, t, x).value.event.Some?
    ensures Reaches(c, w0, more, v)
    ensures var m := Step(c, k, t, x).value;
            && Moved(w, v, p, n, m.ctl, m.task) && Runs(v, p, n, m.ctl, m.task)
            && v.row == m.task && v.log == w.log + [Commit(m.event.value, m.task)]
  {
    hide Step, Reaches;
    more, v := Take(c, w0, ls, w, Run(p, x));
  }

  lemma Slip(c: Config, w0: World, ls: seq<Label>, w: World, p: nat, n: nat, k: Ctl, t: TaskRow)
    returns (more: seq<Label>, v: World)
    requires Reaches(c, w0, ls, w) && Runs(w, p, n, k, t)
    requires Step(c, k, t, Input.Go).Some? && Step(c, k, t, Input.Go).value.event.None?
    ensures Reaches(c, w0, more, v)
    ensures var m := Step(c, k, t, Input.Go).value;
            && Moved(w, v, p, n, m.ctl, m.task) && Runs(v, p, n, m.ctl, m.task)
            && v.row == w.row && v.log == w.log
  {
    hide Step, Reaches;
    more, v := Take(c, w0, ls, w, Run(p, Input.Go));
  }

  // ------------------------------------------------------------------ set-up

  const RISK := Risk(80, High, [], true, 80, 0)

  function Sample(): TaskRow {
    NewTask("t", "g", "d", false)
  }

  /** Four processes; process 0 has accepted the task and put it on the queue. */
  lemma Sent(c: Config) returns (w0: World, ls: seq<Label>, w: World)
    requires c.celery
    ensures Reaches(c, w0, ls, w)
    ensures w.procs == [Proc(Some(Sample()), Queueing), Proc(None, Idle), Proc(None, Idle), Proc(None, Idle)]
    ensures w.row == Sample() && w.log == [Commit(TaskCreated, Sample())]
    ensures w.messages == 1 && w.lock.None? && w.expiries == 0
  {
    w0 := Created(Sample(), 4, 0);
    assert Reaches(c, w0, [], w0);
    ls, w := Take(c, w0, [], w0, Label.Go(0));
  }

  /** Process p, idle, takes the message and loads the row. */
  lemma Starts(c: Config, w0: World, ls: seq<Label>, w: World, p: nat) returns (more: seq<Label>, v: World, n: nat)
    requires Reaches(c, w0, ls, w) && p < |w.procs| && w.procs[p].act.Idle?
    requires w.messages > 0 && w.lock.None? && !w.row.status.Terminal()
    ensures Reaches(c, w0, more, v) && Runs(v, p, n, Start, w.row)
    ensures v.procs == w.procs[p := Proc(Some(w.row), Working(n, Start))]
    ensures v.row == w.row && v.log == w.log && v.messages == w.messages
    ensures v.lock == Some(p) && v.expiries == w.expiries
  {
    hide Reaches;
    var a;
    more, a := Take(c, w0, ls, w, Deliver(p));
    more, v := Take(c, w0, more, a, Label.Go(p));
    n := |w.trips|;
  }

  /** What the worker has made of the task when it pauses. */
  predicate Reviewable(t: TaskRow) {
    t.status.AwaitingApproval? && t.decision.None? && t.risk == Some(RISK) && |t.steps| == 2 && !t.autoApprove
  }

  lemma Plans(c: Config, w0: World, ls: seq<Label>, w: World, p: nat, n: nat)
    returns (more: seq<Label>, v: World, t: TaskRow)
    requires c.celery && Reaches(c, w0, ls, w) && Runs(w, p, n, Start, Sample())
    ensures Reaches(c, w0, more, v) && Moved(w, v, p, n, Planned, t) && Runs(v, p, n, Planned, t)
    ensures |t.steps| == 2 && t.risk.None? && !t.autoApprove && t.decision.None? && v.row == t
  {
    var items := [PlannedStep("a", "planner", "")];
    var ids := ["1", "2"];
    assert ids[0] != ids[1];
    assert ValidProposal(items, ids);
    hide Reaches, PlanOf, ValidProposal;
    var a := Sample().(status := TaskStatus.Planning);
    more, v := Work(c, w0, ls, w, p, n, Start, Sample(), Input.Go);
    more, v := Work(c, w0, more, v, p, n, PlanOpened, a, Input.Go);
    more, v := Work(c, w0, more, v, p, n, Ctl.Planning, a, Proposed(items, ids));
    t := a.(steps := PlanOf(items, ids));
  }

  lemma Pauses(c: Config, w0: World, ls: seq<Label>, w: World, p: nat, n: nat, t: TaskRow)
    returns (more: seq<Label>, v: World, u: TaskRow)
    requires c.celery && Reaches(c, w0, ls, w) && Runs(w, p, n, Planned, t)
    requires |t.steps| == 2 && t.risk.None? && !t.autoApprove && t.decision.None?
    ensures Reaches(c, w0, more, v) && Moved(w, v, p, n, Paused, u) && Runs(v, p, n, Paused, u)
    ensures v.row == u && Reviewable(u) && |v.log| > 0 && v.log[|v.log| - 1] == Commit(ApprovalRequired, u)
  {
    hide Reaches;
    var a := t.(status := AssessingRisk);
    more, v := Work(c, w0, ls, w, p, n, Planned, t, Input.Go);
    more, v := Work(c, w0, more, v, p, n, AssessOpened, a, Input.Go);
    more, v := Work(c, w0, more, v, p, n, Assessing, a, Assessed(RISK));
    var b := a.(risk := Some(RISK));
    u := b.(decision := None, status := AwaitingApproval);
    assert Step(c, Gate, b, Input.Go) == Emitted(Paused, u, ApprovalRequired) by {
      GatePauses(c, b);
    }
    more, v := Work(c, w0, more, v, p, n, Gate, b, Input.Go);
  }

  lemma GatePauses(c: Config, t: TaskRow)
    requires c.celery && t.risk == Some(RISK) && !t.autoApprove && t.decision.None?
    ensures Step(c, Gate, t, Input.Go) ==
            Emitted(Paused, t.(decision := None, status := AwaitingApproval), ApprovalRequired)
  {
  }

  /** Process 1 has planned and assessed the task and paused; it has not released the lock yet. */
  lemma PausedAtOne(c: Config) returns (w0: World, ls: seq<Label>, w: World, n: nat)
    requires c.celery
    ensures Reaches(c, w0, ls, w) && Reviewable(w.row)
    ensures w.procs ==
            [Proc(Some(Sample()), Idle), Proc(Some(w.row), Working(n, Paused)), Proc(None, Idle), Proc(None, Idle)]
    ensures w.messages == 1 && w.lock == Some(1) && w.expiries == 0 && n < |w.trips|
    ensures |w.log| > 0 && w.log[|w.log| - 1] == Commit(ApprovalRequired, w.row)
  {
    w0, ls, w := Sent(c);
    hide Reaches, Step;
    ls, w := Take(c, w0, ls, w, Label.Go(0));
    ls, w, n := Starts(c, w0, ls, w, 1);
    var t, u;
    ls, w, t := Plans(c, w0, ls, w, 1, n);
    ls, w, u := Pauses(c, w0, ls, w, 1, n, t);
  }

  /** A paused worker gives back the lock and acknowledges its message. */
  lemma Leaves(c: Config, w0: World, ls: seq<Label>, w: World, p: nat) returns (more: seq<Label>, v: World)
    requires Reaches(c, w0, ls, w) && p < |w.procs| && w.procs[p].act.Working? && w.procs[p].act.ctl.Paused?
    requires w.lock == Some(p) && w.messages > 0
    ensures Reaches(c, w0, more, v)
    ensures v == w.(procs := w.procs[p := w.procs[p].(act := Idle)], lock := None, messages := w.messages - 1)
  {
    hide Reaches, RunStep;
    more, v := Take(c, w0, ls, w, Label.Go(p));
    more, v := Take(c, w0, more, v, Label.Go(p));
  }

  /** As before, with the lock released and the message acknowledged. */
  lemma Released(c: Config, again: bool) returns (w0: World, ls: seq<Label>, w: World)
    requires c.celery
    ensures Reaches(c, w0, ls, w) && Reviewable(w.row)
    ensures w.procs == [Proc(Some(Sample()), Idle), Proc(Some(w.row), Idle), Proc(None, Idle), Proc(None, Idle)]
    ensures w.messages == (if again then 1 else 0) && w.lock.None? && w.expiries == 0
    ensures |w.log| > 0 && w.log[|w.log| - 1] == Commit(ApprovalRequired, w.row)
  {
    var n;
    w0, ls, w, n := PausedAtOne(c);
    hide Reaches, Step;
    if again {
      ls, w := Take(c, w0, ls, w, Duplicate);
    }
    ls, w := Leaves(c, w0, ls, w, 1);
  }

  // ---------------------------------------------------------------- the runs

  /** The process that created the task resolves the approval from its own copy, which is older than the plan.
      The reviewed plan and its risk are erased, and the decision that approved them stays. */
  lemma StaleCopyErasesPlan(c: Config) returns (w0: World, ls: seq<Label>, w: World, j: nat)
    requires c.celery
    ensures Reaches(c, w0, ls, w)
    ensures j < |w.log| && Reviewable(w.log[j].row)
    ensures w.row == Sample().(decision := Some(true)) && w.row.steps == [] && w.row.risk.None?
  {
    w0, ls, w := Released(c, false);
    hide Reaches, Step;
    j := |w.log| - 1;
    ls, w := Take(c, w0, ls, w, Decide(0, true));
    ls, w := Take(c, w0, ls, w, Label.Go(0));
  }

  /** So the worker plans again, and whatever it plans passes the gate. */
  lemma DecisionOutlivesPlan(c: Config, t: TaskRow)
    requires t.decision == Some(true)
    ensures Step(c, Gate, t, Input.Go) == Silent(Cleared, t)
    ensures t.risk.Some? ==> Invariants.Permitted(t)
  {
  }

  /** `task.queued` is written after the message was sent; a fast worker's progress is overwritten. */
  lemma QueuedOverwritesProgress(c: Config) returns (w0: World, ls: seq<Label>, w: World, j: nat)
    requires c.celery
    ensures Reaches(c, w0, ls, w)
    ensures j < |w.log| && w.log[j].row.status.Planning? && w.row.status.Queued?
    ensures |w.procs| == 4 && w.procs[1].act.Working?
  {
    w0, ls, w := Sent(c);
    var n;
    hide Reaches;
    ls, w, n := Starts(c, w0, ls, w, 1);
    ls, w := Work(c, w0, ls, w, 1, n, Start, Sample(), Input.Go);
    j := |w.log| - 1;
    hide Step;
    ls, w := Take(c, w0, ls, w, Label.Go(0));
  }

  /** Process 2 runs the task from a second delivery; it has not asked for approval yet. */
  lemma SecondDelivery(c: Config) returns (w0: World, ls: seq<Label>, w: World, n: nat, u: TaskRow)
    requires c.celery
    ensures Reaches(c, w0, ls, w) && w.expiries == 0 && |w.procs| == 4 && Runs(w, 2, n, Gate, u)
    ensures w.procs[3] == Proc(None, Idle) && Reviewable(w.row) && Reviewable(u)
  {
    w0, ls, w := Released(c, true);
    ls, w, n := Starts(c, w0, ls, w, 2);
    var t := w.row;
    u := t.(steps := ResumeSteps(t.steps));
    assert Step(c, Start, t, Input.Go) == Silent(Gate, u);
    hide Reaches, ResumeSteps;
    ls, w := Slip(c, w0, ls, w, 2, n, Start, t);
  }

  /** A duplicate delivery that loaded the row before a decision erases the decision, with the lock held all along. */
  lemma DuplicateErasesDecision(c: Config) returns (w0: World, ls: seq<Label>, w: World, j: nat)
    requires c.celery
    ensures Reaches(c, w0, ls, w) && w.expiries == 0
    ensures j < |w.log| && w.log[j].event == ApprovalResolved(true) && w.log[j].row.decision == Some(true)
    ensures w.row.decision.None? && w.row.status.AwaitingApproval?
  {
    var n, u;
    w0, ls, w, n, u := SecondDelivery(c);
    GatePauses(c, u);
    hide Reaches, Step;
    ls, w := Take(c, w0, ls, w, Decide(3, true));
    ls, w := Take(c, w0, ls, w, Label.Go(3));
    j := |w.log| - 1;
    ls, w := Work(c, w0, ls, w, 2, n, Gate, u, Input.Go);
  }

  /** Nobody works on the task, and nothing is left that would wake anybody. */
  ghost predicate Asleep(w: World) {
    && w.messages == 0
    && (forall p :: 0 <= p < |w.procs| ==> w.procs[p].act.Idle?)
    && w.row.status.AwaitingApproval? && w.row.decision == Some(true)
  }

  /** A reviewer's approval through process 2 is stored and announced. */
  lemma ApprovalIsTold(c: Config) returns (w0: World, ls: seq<Label>, w: World, n: nat)
    requires c.celery
    ensures Reaches(c, w0, ls, w) && w.row.status.AwaitingApproval? && w.row.decision == Some(true)
    ensures |w.procs| == 4 && w.procs[0].act.Idle? && w.procs[1].act == Working(n, Paused)
    ensures w.procs[2] == Proc(Some(w.row), Sending) && w.procs[3].act.Idle?
    ensures w.messages == 1 && w.lock == Some(1)
  {
    w0, ls, w, n := PausedAtOne(c);
    hide Reaches, Step;
    ls, w := Take(c, w0, ls, w, Decide(2, true));
    ls, w := Take(c, w0, ls, w, Label.Go(2));
  }

  /** The message that should wake a worker is sent. */
  lemma ApprovalIsSent(c: Config) returns (w0: World, ls: seq<Label>, w: World, n: nat)
    requires c.celery
    ensures Reaches(c, w0, ls, w) && w.row.status.AwaitingApproval? && w.row.decision == Some(true)
    ensures |w.procs| == 4 && w.procs[0].act.Idle? && w.procs[1].act == Working(n, Paused)
    ensures w.procs[2] == Proc(Some(w.row), Queueing) && w.procs[3].act.Idle?
    ensures w.messages == 2 && w.lock == Some(1)
  {
    w0, ls, w, n := ApprovalIsTold(c);
    hide Reaches, Step;
    ls, w := Take(c, w0, ls, w, Label.Go(2));
  }

  /** A worker takes the message, finds the lock held and forgets it. */
  lemma MessageIsDropped(c: Config) returns (w0: World, ls: seq<Label>, w: World, n: nat)
    requires c.celery
    ensures Reaches(c, w0, ls, w) && w.row.status.AwaitingApproval? && w.row.decision == Some(true)
    ensures |w.procs| == 4 && w.procs[0].act.Idle? && w.procs[1].act == Working(n, Paused)
    ensures w.procs[2] == Proc(Some(w.row), Queueing) && w.procs[3].act.Idle?
    ensures w.messages == 1 && w.lock == Some(1)
  {
    w0, ls, w, n := ApprovalIsSent(c);
    hide Reaches, Step;
    ls, w := Take(c, w0, ls, w, Drop(3));
  }

  /** The wake-up after an approval reaches a worker before the pausing one has released the lock, and is dropped. */
  lemma WakeUpIsDropped(c: Config) returns (w0: World, ls: seq<Label>, w: World)
    requires c.celery
    ensures Reaches(c, w0, ls, w) && Asleep(w)
  {
    var n;
    w0, ls, w, n := MessageIsDropped(c);
    hide Reaches, Step, RunStep;
    ls, w := Take(c, w0, ls, w, Label.Go(2));
    hide Apply;
    ls, w := Leaves(c, w0, ls, w, 1);
  }

  /** With the pausing worker gone, an approval through process 2 is stored and announced, but not yet sent. */
  lemma ApprovalIsUnsent(c: Config) returns (w0: World, ls: seq<Label>, w: World)
    requires c.celery
    ensures Reaches(c, w0, ls, w) && w.row.status.AwaitingApproval? && w.row.decision == Some(true)
    ensures w.messages == 0 && w.expiries == 0 && |w.procs| == 4
    ensures forall p :: 0 <= p < 4 && p != 2 ==> w.procs[p].act.Idle?
    ensures |w.log| > 0 && w.log[|w.log| - 1].event == ApprovalResolved(true)
  {
    w0, ls, w := Released(c, false);
    hide Reaches, Step;
    ls, w := Take(c, w0, ls, w, Decide(2, true));
    ls, w := Take(c, w0, ls, w, Label.Go(2));
  }

  /** A process that dies between storing an approval and sending the message leaves the task asleep, too. */
  lemma CrashBeforeSending(c: Config) returns (w0: World, ls: seq<Label>, w: World)
    requires c.celery
    ensures Reaches(c, w0, ls, w) && Asleep(w) && w.expiries == 0
    ensures |w.log| > 0 && w.log[|w.log| - 1].event == ApprovalResolved(true)
  {
    w0, ls, w := ApprovalIsUnsent(c);
    hide Reaches, Step;
    ls, w := Take(c, w0, ls, w, Crash(2));
  }

  /** An approved task that sleeps never wakes up. */
  lemma {:induction false} AsleepForever(c: Config, w: World, ls: seq<Label>, v: World)
    requires Asleep(w) && Exec(c, w, ls) == Some(v)
    ensures Asleep(v) && v.row == w.row && v.log == w.log
    decreases |ls|
  {
    hide Step;
    if ls != [] {
      AsleepForever(c, w, ls[..|ls| - 1], Exec(c, w, ls[..|ls| - 1]).value);
    }
  }

  /** When a lease ends before its run, two processes run the task at once. */
  lemma LostLeaseOverlaps(c: Config) returns (w0: World, ls: seq<Label>, w: World)
    requires c.celery
    ensures Reaches(c, w0, ls, w) && |w.procs| == 4 && w.procs[1].act.Working? && w.procs[2].act.Working?
  {
    w0, ls, w := Sent(c);
    var n;
    hide Reaches, Step;
    ls, w, n := Starts(c, w0, ls, w, 1);
    ls, w := Take(c, w0, ls, w, LeaseEnds);
    ls, w, n := Starts(c, w0, ls, w, 2);
  }

  /** Process 1 dies after its first commit; its lock stays behind. */
  lemma CutShort(c: Config) returns (w0: World, ls: seq<Label>, w: World)
    requires c.celery
    ensures Reaches(c, w0, ls, w) && w.expiries == 0 && w.lock == Some(1) && w.messages > 0
    ensures |w.procs| == 4 && w.procs[1] == Proc(None, Idle) && w.procs[2] == Proc(None, Idle)
    ensures |w.log| > 0 && w.log[|w.log| - 1] == Commit(StatusChanged(TaskStatus.Planning), w.row)
    ensures w.row.status.Planning?
  {
    w0, ls, w := Sent(c);
    var n;
    hide Reaches;
    ls, w, n := Starts(c, w0, ls, w, 1);
    ls, w := Work(c, w0, ls, w, 1, n, Start, Sample(), Input.Go);
    hide Step;
    ls, w := Take(c, w0, ls, w, Crash(1));
  }

  /** A crash is not the end: when the dead worker's lock has timed out, another process takes the message again and
      starts from the row the cut run left. No lease has ended early. */
  lemma CrashIsResumed(c: Config) returns (w0: World, ls: seq<Label>, w: World, n: nat)
    requires c.celery
    ensures Reaches(c, w0, ls, w) && w.expiries == 0 && Runs(w, 2, n, Start, w.row)
    ensures |w.log| > 0 && w.log[|w.log| - 1] == Commit(StatusChanged(TaskStatus.Planning), w.row)
  {
    w0, ls, w := CutShort(c);
    hide Reaches, Step;
    ls, w := Take(c, w0, ls, w, LeaseEnds);
    ls, w, n := Starts(c, w0, ls, w, 2);
  }
}
