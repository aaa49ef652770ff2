/** The durable events alone explain the row. */
module LogView {
  import opened Models
  import opened Controller
  import opened Invariants
  import opened InProcess
  import opened SystemInvariant

  /** What a reader of the event log can reconstruct. */
  datatype View = View(status: TaskStatus, rework: nat, done: set<string>, resetPending: bool)

  /** The status after an event, given the status before it. */
  function Announced(s: TaskStatus, e: Event): TaskStatus {
    if e.StatusChanged? || e.TaskRecovered? then e.status
    else if e.ApprovalRequired? then AwaitingApproval
    else s
  }

  /** What an event adds to the view. A recovery cancels a reset that the crash prevented. */
  function After(v: View, e: Event): View {
    var u := v.(status := Announced(v.status, e));
    match e
    case StatusChanged(_) => u.(done := if v.resetPending then {} else v.done, resetPending := false)
    case StepCompleted(id, _, _, _) => u.(done := v.done + {id})
    case ReworkStarted(n) => u.(rework := n, resetPending := true)
    case TaskRecovered(_) => u.(resetPending := false)
    case _ => u
  }

  function Replay(log: seq<Commit>): View
    decreases |log|
  {
    if log == [] then View(Queued, 0, {}, false)
    else After(Replay(log[..|log| - 1]), log[|log| - 1].event)
  }

  lemma ReplaySnoc(log: seq<Commit>, m: Commit)
    ensures Replay(log + [m]) == After(Replay(log), m.event)
  {
    assert (log + [m])[..|log|] == log;
  }

  ghost function DoneIds(steps: seq<StepRow>): set<string> {
    set i | 0 <= i < |steps| && steps[i].status.Completed? :: steps[i].id
  }

  ghost function ViewOf(k: Ctl, t: TaskRow): View {
    View(t.status, t.rework, DoneIds(t.steps), k.Rework?)
  }

  // ------------------------------------------------------------- done steps

  lemma SameDone(a: seq<StepRow>, b: seq<StepRow>)
    requires |a| == |b|
    requires forall i :: 0 <= i < |a| ==> a[i].id == b[i].id && (a[i].status.Completed? <==> b[i].status.Completed?)
    ensures DoneIds(a) == DoneIds(b)
  {
    forall id | id in DoneIds(a) ensures id in DoneIds(b) {
      var i :| 0 <= i < |a| && a[i].status.Completed? && a[i].id == id;
      assert b[i].id == id;
    }
    forall id | id in DoneIds(b) ensures id in DoneIds(a) {
      var i :| 0 <= i < |b| && b[i].status.Completed? && b[i].id == id;
      assert a[i].id == id;
    }
  }

  lemma OneMoreDone(a: seq<StepRow>, i: nat, s: StepRow)
    requires i < |a| && s.id == a[i].id && s.status.Completed?
    ensures DoneIds(a[i := s]) == DoneIds(a) + {s.id}
  {
    var b := a[i := s];
    assert b[i] == s;
    forall id | id in DoneIds(a) ensures id in DoneIds(b) {
      var j :| 0 <= j < |a| && a[j].status.Completed? && a[j].id == id;
      assert b[j].id == id;
    }
    forall id | id in DoneIds(b) ensures id in DoneIds(a) + {s.id} {
      var j :| 0 <= j < |b| && b[j].status.Completed? && b[j].id == id;
      if j != i {
        assert a[j].id == id;
      }
    }
  }

  lemma NoneDone(a: seq<StepRow>)
    requires forall i :: 0 <= i < |a| ==> !a[i].status.Completed?
    ensures DoneIds(a) == {}
  {
  }

  lemma ResumeSameDone(a: seq<StepRow>)
    ensures DoneIds(ResumeSteps(a)) == DoneIds(a)
  {
    SameDone(ResumeSteps(a), a);
  }

  // ----------------------------------------------------------- preservation

  predicate Announces(t: TaskRow, m: Option<Move>) {
    m.Some? ==>
      m.value.task.status == if m.value.event.Some? then Announced(t.status, m.value.event.value) else t.status
  }

  lemma WorkStatus(c: Config, k: Ctl, t: TaskRow, x: Input)
    requires Working(k)
    ensures Announces(t, Step(c, k, t, x))
  {
  }

  lemma GateStatus(c: Config, t: TaskRow)
    ensures Announces(t, GateMove(c, t))
  {
  }

  lemma LoopStatus(t: TaskRow, r: nat, i: nat)
    ensures Announces(t, LoopMove(t, r, i))
  {
  }

  lemma AutoStatus(c: Config, k: Ctl, t: TaskRow)
    requires !Working(k)
    ensures Announces(t, AutoMove(c, k, t))
  {
    GateStatus(c, t);
    if k.Loop? {
      LoopStatus(t, k.round, k.i);
    }
    hide ResumeSteps, ResetSteps, FailureText, ReadyMove, AttemptMove, GateMove, LoopMove;
  }

  /** The status after a commit is the one its event announces; silent steps leave it. */
  lemma StatusMoves(c: Config, k: Ctl, t: TaskRow, x: Input)
    ensures Announces(t, Step(c, k, t, x))
  {
    if Working(k) {
      WorkStatus(c, k, t, x);
      hide Step, Announces;
    } else {
      AutoStatus(c, k, t);
      hide AutoMove, PlanOf, ValidProposal, CallMove;
    }
  }

  lemma RestEvents(c: Config, k: Ctl, t: TaskRow, x: Input)
    requires Step(c, k, t, x).Some? && Step(c, k, t, x).value.event.Some?
    ensures var e := Step(c, k, t, x).value.event.value;
            !e.TaskRecovered? && (k.Rework? ==> e.StatusChanged?)
  {
    hide ResumeSteps, ResetSteps, PlanOf, FailureText, ValidProposal;
  }

  lemma DoneMoves(c: Config, k: Ctl, t: TaskRow, x: Input)
    requires Local(c, k, t) && Step(c, k, t, x).Some?
    ensures var m := Step(c, k, t, x).value;
            DoneIds(m.task.steps) ==
              if k.Rework? then {}
              else if m.event.Some? && m.event.value.StepCompleted? then DoneIds(t.steps) + {m.event.value.step}
              else DoneIds(t.steps)
  {
    var m := Step(c, k, t, x).value;
    if m.event.Some? {
      WorkEvents(c, k, t, x);
    }
    BulkFrame(c, k, t, x);
    hide Step, DoneIds, Sound, ResumeSteps, ResetSteps, PlanOf, ValidProposal;
    if Working(k) {
      WorkFrame(c, k, t, x);
      WorkIsOpen(c, k, t);
      if m.task.steps[k.i].status.Completed? {
        OneMoreDone(t.steps, k.i, m.task.steps[k.i]);
      } else {
        SameDone(m.task.steps, t.steps);
      }
    } else if k.Planning? {
      if x.Proposed? {
        PlanningDone(c, t, x);
      }
    } else if k.Start? {
      ResumeSameDone(t.steps);
    } else if k.Rework? {
      ResetNoneDone(t.steps);
    } else {
      StepsFrame(c, k, t, x);
    }
  }

  lemma WorkIsOpen(c: Config, k: Ctl, t: TaskRow)
    requires Local(c, k, t) && Working(k)
    ensures k.i < |t.steps| && !t.steps[k.i].status.Completed?
  {
    hide Sound, Front;
  }

  lemma PlanningDone(c: Config, t: TaskRow, x: Input)
    requires Local(c, Ctl.Planning, t) && x.Proposed? && ValidProposal(x.items, x.ids)
    ensures DoneIds(PlanOf(x.items, x.ids)) == DoneIds(t.steps) == {}
  {
    PlansAreShaped(x.items, x.ids);
    NoneDone(PlanOf(x.items, x.ids));
    NoneDone(t.steps);
  }

  lemma ResetNoneDone(steps: seq<StepRow>)
    ensures DoneIds(ResetSteps(steps)) == {}
  {
    NoneDone(ResetSteps(steps));
  }

  lemma RunExplained(c: Config, w: World, x: Input)
    requires Inv(c, w) && Replay(w.log) == ViewOf(w.ctl, w.live) && Apply(c, w, Run(x)).Some?
    ensures var v := Apply(c, w, Run(x)).value; Replay(v.log) == ViewOf(v.ctl, v.live)
  {
    var v := Apply(c, w, Run(x)).value;
    assert Local(c, w.ctl, w.live);
    hide Apply, Step, Inv, Local, Replay, DoneIds;
    RunEffect(c, w, x);
    StatusMoves(c, w.ctl, w.live, x);
    DoneMoves(c, w.ctl, w.live, x);
    ReworkFrame(c, w.ctl, w.live, x);
    ReworkEvent(c, w.ctl, w.live, x);
    if v.log != w.log {
      RestEvents(c, w.ctl, w.live, x);
      ReplaySnoc(w.log, v.log[|w.log|]);
    } else if w.ctl.Rework? {
      ReworkCommits(c, w.ctl, w.live, x);
    }
  }

  lemma ReworkCommits(c: Config, k: Ctl, t: TaskRow, x: Input)
    requires k.Rework? && Step(c, k, t, x).Some?
    ensures Step(c, k, t, x).value.event.Some?
  {
  }

  lemma OutsiderStatus(c: Config, w: World, l: Label)
    requires Inv(c, w) && !l.Run? && Apply(c, w, l).Some?
    ensures var v := Apply(c, w, l).value;
            && (v.log != w.log ==>
                  && v.live.status == Announced(w.live.status, v.log[|w.log|].event)
                  && (v.log[|w.log|].event.StatusChanged? ==> !w.ctl.Rework?)
                  && (v.log[|w.log|].event.TaskRecovered? <==> l.Restart?))
            && (l.Restart? || v.ctl == w.ctl)
            && v.live.rework == w.live.rework
            && (v.live.steps == w.live.steps || w.live.steps == ResumeSteps(v.live.steps))
  {
    hide Local, Sound, ResumeSteps, ApprovalState;
  }

  lemma OutsiderExplained(c: Config, w: World, l: Label)
    requires Inv(c, w) && Replay(w.log) == ViewOf(w.ctl, w.live) && !l.Run? && Apply(c, w, l).Some?
    ensures var v := Apply(c, w, l).value; Replay(v.log) == ViewOf(v.ctl, v.live)
  {
    var v := Apply(c, w, l).value;
    OutsiderStatus(c, w, l);
    OutsiderEffect(c, w, l);
    ResumeSameDone(v.live.steps);
    if v.log != w.log {
      ReplaySnoc(w.log, v.log[|w.log|]);
    }
    hide Apply, Inv, Replay, DoneIds, ResumeSteps;
  }

  /** Replaying the events gives exactly the row's status, rework counter and set of completed steps,
      after any run with any number of crashes. */
  lemma LogExplainsRow(c: Config, w0: World, ls: seq<Label>, w: World)
    requires Reaches(c, w0, ls, w)
    ensures var v := Replay(w.log);
            v.status == w.row.status && v.rework == w.row.rework && v.done == DoneIds(w.row.steps)
  {
    var G := (l: Label) => true;
    var P := (v: World) => Replay(v.log) == ViewOf(v.ctl, v.live);
    forall v, l | Inv(c, v) && P(v) && G(l) && Apply(c, v, l).Some? ensures P(Apply(c, v, l).value) {
      if l.Run? { RunExplained(c, v, l.x); } else { OutsiderExplained(c, v, l); }
    }
    ReplaySnoc([], w0.log[0]);
    assert w0.log == [] + [w0.log[0]];
    NoneDone(w0.live.steps);
    Induct(c, G, P, w0, ls, w);
    ReachableInv(c, w0, ls, w);
    ResumeSameDone(w.row.steps);
    hide Apply, Local, Sound, Replay, DoneIds, ResumeSteps, ApprovalState, ReviewerState, JanitorState;
  }
}
