/** Worker mode: when an approved task cannot fall asleep. */
module CeleryWake {
  import opened Models
  import opened Controller
  import opened Invariants
  import opened Celery
  import InProcess
  import Terminal
  import CelerySafety
  import opened CeleryRuns
  import opened CeleryOrder
  import opened CeleryTurns
  import opened CeleryLimits

  /** Runs and outside writes take turns, no message meets a held lock, and no process dies between storing an
      approval and sending the message that acts on it. */
  predicate Attentive(w: World, l: Label) {
    && TakesTurns(w, l)
    && !l.Drop?
    && (l.Crash? && l.p < |w.procs| ==> !Notifying(w.procs[l.p].act))
  }

  predicate Notifying(a: Act) {
    a.Sending? || a == Telling(ApprovalResolved(true))
  }

  /** Somebody who will act on the approval. */
  predicate Minds(a: Act) {
    Notifying(a) || a.Loading? || Active(a)
  }

  predicate SomebodyEngaged(w: World) {
    exists p :: 0 <= p < |w.procs| && Engaged(w.procs[p].act)
  }

  predicate Approved(row: TaskRow) {
    row.status.AwaitingApproval? && row.decision == Some(true)
  }

  /** An approval is told as one, a process about to send or that has just sent has the row, a run has the row's status,
      and nobody closes a task that awaits approval. */
  ghost predicate Informed(row: TaskRow, q: Proc) {
    && (q.act.Telling? && q.copy.Some? && q.copy.value.decision == Some(true) ==>
          q.act == Telling(ApprovalResolved(true)))
    && (q.act.Sending? || q.act.Queueing? ==> q.copy == Some(row))
    && (Active(q.act) ==> q.copy.Some? && q.copy.value.status == row.status)
    && (q.act.Losing? || q.act.Ending? ==> q.copy.Some? && !q.copy.value.status.AwaitingApproval?)
  }

  ghost predicate Awake(w: World) {
    && (forall p :: 0 <= p < |w.procs| ==> Informed(w.row, w.procs[p]))
    && (SomebodyEngaged(w) ==> w.messages >= 1)
    && (Approved(w.row) ==>
          || (exists p :: 0 <= p < |w.procs| && Minds(w.procs[p].act))
          || w.messages >= 1 + if SomebodyEngaged(w) then 1 else 0)
  }

  // ----------------------------------------------------------- preservation

  /** v is awake after a transition of p. */
  lemma StaysAwake(w: World, v: World, p: nat)
    requires Awake(w) && OneWriter(w) && Only(w, v, p) && Informed(v.row, v.procs[p])
    requires v.row == w.row || Writes(w.procs[p].act) || forall q :: 0 <= q < |w.procs| ==> !Writes(w.procs[q].act)
    requires SomebodyEngaged(v) ==> v.messages >= 1
    requires Approved(v.row) ==>
               || Minds(v.procs[p].act)
               || v.messages >= 1 + (if SomebodyEngaged(v) then 1 else 0)
               || (Approved(w.row) && !Minds(w.procs[p].act) &&
                   ((v.messages >= w.messages && (Engaged(v.procs[p].act) ==> Engaged(w.procs[p].act))) ||
                    (v.messages + 1 >= w.messages && SomebodyEngaged(w) && !SomebodyEngaged(v))))
    ensures Awake(v)
  {
    hide WriterOk;
    forall q | 0 <= q < |v.procs| ensures Informed(v.row, v.procs[q]) {
      assert Informed(w.row, w.procs[q]);
    }
    if Approved(v.row) && exists q :: 0 <= q < |w.procs| && q != p && Minds(w.procs[q].act) {
      var q :| 0 <= q < |w.procs| && q != p && Minds(w.procs[q].act);
      assert Minds(v.procs[q].act);
    } else if Approved(v.row) && Minds(v.procs[p].act) {
    } else if Approved(v.row) && (Engaged(v.procs[p].act) ==> Engaged(w.procs[p].act)) {
      EngagedElsewhere(w, v, p);
    }
  }

  lemma EngagedElsewhere(w: World, v: World, p: nat)
    requires Only(w, v, p) && (Engaged(v.procs[p].act) ==> Engaged(w.procs[p].act))
    ensures SomebodyEngaged(v) ==> SomebodyEngaged(w)
  {
    if SomebodyEngaged(v) {
      var q :| 0 <= q < |v.procs| && Engaged(v.procs[q].act);
      assert Engaged(w.procs[q].act);
    }
  }

  /** Only the holder of the lock is engaged. */
  lemma EngagedAlone(w: World, v: World, p: nat)
    requires LockHeld(w) && w.expiries == 0 && Only(w, v, p) && Engaged(w.procs[p].act) && !Engaged(v.procs[p].act)
    ensures !SomebodyEngaged(v) && SomebodyEngaged(w)
  {
  }

  lemma PausedAsks(c: Config, k: Ctl, t: TaskRow, x: Input)
    requires Step(c, k, t, x).Some? && Step(c, k, t, x).value.ctl.Paused?
    ensures Step(c, k, t, x).value.event.Some? && Step(c, k, t, x).value.task.decision.None?
  {
    hide ResumeSteps, ResetSteps, PlanOf, FailureText, ValidProposal;
  }

  lemma RunStaysAwake(c: Config, w: World, p: nat, x: Input)
    requires CelerySafety.Inv(c, w) && OneWriter(w) && Awake(w) && c.celery
    requires p < |w.procs| && RunStep(c, w, p, x).Some?
    ensures Awake(RunStep(c, w, p, x).value)
  {
    var v := RunStep(c, w, p, x).value;
    var k, t := w.procs[p].act.ctl, w.procs[p].copy.value;
    RunKeepsWriter(c, w, p, x);
    assert CelerySafety.ProcOk(c, w.procs[p]) && Informed(w.row, w.procs[p]);
    var m := Step(c, k, t, x).value;
    hide Step, Local, Sound, CelerySafety.Inv, OneWriter;
    Terminal.OverIsTerminal(c, k, t, x);
    if m.ctl.Paused? {
      PausedAsks(c, k, t, x);
    }
    if m.event.None? {
      Terminal.SilentStatus(c, k, t, x);
    }
    assert SomebodyEngaged(w);
    hide Awake;
    assert w.messages >= 1 by {
      EngagedHasMessage(w);
    }
    StaysAwake(w, v, p);
  }

  lemma EngagedHasMessage(w: World)
    requires Awake(w) && SomebodyEngaged(w)
    ensures w.messages >= 1
  {
  }

  lemma LeaveStaysAwake(w: World, p: nat)
    requires LockHeld(w) && OneWriter(w) && Awake(w) && w.expiries == 0
    requires p < |w.procs| && w.procs[p].act.Leaving? && Proceed(w, p).Some?
    ensures Awake(Proceed(w, p).value)
  {
    hide Awake, OneWriter;
    EngagedAlone(w, Proceed(w, p).value, p);
    hide LockHeld;
    assert Informed(Proceed(w, p).value.row, Proceed(w, p).value.procs[p]);
    StaysAwake(w, Proceed(w, p).value, p);
  }

  lemma ProceedStaysAwake(c: Config, w: World, p: nat)
    requires CelerySafety.Inv(c, w) && OneWriter(w) && Awake(w)
    requires p < |w.procs| && !w.procs[p].act.Leaving? && Proceed(w, p).Some?
    ensures Awake(Proceed(w, p).value)
  {
    var v := Proceed(w, p).value;
    assert WriterOk(w.row, w.procs[p]) && Informed(w.row, w.procs[p]) && CelerySafety.ProcOk(c, w.procs[p]);
    assert SomebodyEngaged(w) ==> w.messages >= 1;
    hide Awake, OneWriter, CelerySafety.Inv, Sound, Local;
    if Engaged(v.procs[p].act) {
      assert Engaged(w.procs[p].act);
    } else {
      EngagedElsewhere(w, v, p);
    }
    StaysAwake(w, v, p);
  }

  lemma ClaimStaysAwake(w: World, p: nat, approved: bool, e: Event)
    requires OneWriter(w) && Awake(w) && p < |w.procs| && Claim(w, p, approved, e).Some?
    requires forall q :: 0 <= q < |w.procs| ==> !Active(w.procs[q].act)
    requires approved ==> e == ApprovalResolved(true)
    ensures Awake(Claim(w, p, approved, e).value)
  {
    var v := Claim(w, p, approved, e).value;
    assert SomebodyEngaged(w) ==> w.messages >= 1;
    forall q | 0 <= q < |w.procs| ensures !Writes(w.procs[q].act) {
      assert WriterOk(w.row, w.procs[q]);
    }
    hide Awake, OneWriter;
    EngagedElsewhere(w, v, p);
    StaysAwake(w, v, p);
  }

  /** Deliveries, crashes, a failed send and a lost memory. */
  lemma TurnStaysAwake(c: Config, w: World, l: Label)
    requires LockHeld(w) && OneWriter(w) && Awake(w) && w.expiries == 0 && Attentive(w, l)
    requires l.Deliver? || l.Crash? || l.SendFails? || l.MemoryLost?
    requires Apply(c, w, l).Some?
    ensures Awake(Apply(c, w, l).value)
  {
    var v, p := Apply(c, w, l).value, l.p;
    assert WriterOk(w.row, w.procs[p]) && Informed(w.row, w.procs[p]);
    assert SomebodyEngaged(w) ==> w.messages >= 1;
    hide Awake, OneWriter;
    if Engaged(w.procs[p].act) && !Engaged(v.procs[p].act) {
      EngagedAlone(w, v, p);
    } else if Engaged(v.procs[p].act) {
      assert v.messages >= 1;
    } else {
      EngagedElsewhere(w, v, p);
    }
    hide LockHeld;
    StaysAwake(w, v, p);
  }

  lemma AwakeStays(c: Config, w: World, l: Label)
    requires CelerySafety.Inv(c, w) && LockHeld(w) && OneWriter(w) && Awake(w) && c.celery && w.expiries == 0
    requires Attentive(w, l) && Apply(c, w, l).Some?
    ensures Awake(Apply(c, w, l).value)
  {
    hide RunStep, Proceed, Claim, Unsent, OneWriter, LockHeld, CelerySafety.Inv;
    if l.Duplicate? || l.LeaseEnds? {
      StillAwake(w, Apply(c, w, l).value);
    } else {
      var p := l.p;
      hide Awake;
      match l {
        case Run(_, x) => RunStaysAwake(c, w, p, x);
        case Go(_) => if w.procs[p].act.Leaving? { LeaveStaysAwake(w, p); } else { ProceedStaysAwake(c, w, p); }
        case Decide(_, approved) => ClaimStaysAwake(w, p, approved, ApprovalResolved(approved));
        case Expire(_) => ClaimStaysAwake(w, p, false, ApprovalTimeout);
        case _ => TurnStaysAwake(c, w, l);
      }
    }
  }

  lemma StillAwake(w: World, v: World)
    requires Awake(w) && v.row == w.row && v.procs == w.procs && v.messages >= w.messages
    ensures Awake(v)
  {
    hide Informed;
  }

  lemma CreatedAwake(c: Config, w0: World)
    requires Reaches(c, w0, [], w0)
    ensures Awake(w0)
  {
  }

  lemma {:induction false} AttentiveTakesTurns(c: Config, w0: World, ls: seq<Label>)
    requires Along(c, w0, ls, Attentive)
    ensures Along(c, w0, ls, TakesTurns)
    decreases |ls|
  {
    hide Exec;
    if ls != [] {
      AttentiveTakesTurns(c, w0, ls[..|ls| - 1]);
    }
  }

  lemma {:induction false} RunsStayAwake(c: Config, w0: World, ls: seq<Label>, w: World)
    requires Reaches(c, w0, ls, w) && Along(c, w0, ls, Attentive) && w.expiries == 0
    ensures Awake(w)
    decreases |ls|
  {
    hide Apply, Awake, OneWriter, LockHeld, Attentive, CelerySafety.Inv, CeleryRuns.Runs, Serial;
    if ls == [] {
      CreatedAwake(c, w0);
    } else {
      var front, l := ls[..|ls| - 1], ls[|ls| - 1];
      var v := Exec(c, w0, front).value;
      CountersGrow(c, v, l);
      RunsStayAwake(c, w0, front, v);
      AttentiveTakesTurns(c, w0, front);
      RunsTakeTurns(c, w0, front, v);
      CelerySafety.ReachableInv(c, w0, front, v);
      ReachableRuns(c, w0, front, v);
      AwakeStays(c, v, l);
    }
  }

  /** While an approved task awaits execution, somebody is about to act on the approval or a message is waiting. */
  lemma ApprovalIsMinded(c: Config, w0: World, ls: seq<Label>, w: World)
    requires Reaches(c, w0, ls, w) && Along(c, w0, ls, Attentive) && w.expiries == 0 && Approved(w.row)
    ensures w.messages >= 1 || exists p :: 0 <= p < |w.procs| && Minds(w.procs[p].act)
  {
    hide Reaches, Along, Informed;
    RunsStayAwake(c, w0, ls, w);
  }

  /** So an approved task does not fall asleep. */
  lemma ApprovedTasksStayAwake(c: Config, w0: World, ls: seq<Label>, w: World)
    requires Reaches(c, w0, ls, w) && Along(c, w0, ls, Attentive) && w.expiries == 0
    ensures !Asleep(w)
  {
    hide Reaches, Along;
    if Approved(w.row) {
      ApprovalIsMinded(c, w0, ls, w);
    }
  }
}
