/** What holds in worker mode under every interleaving: stale copies, expired leases, duplicate
    deliveries, crashes, any number of processes and reviewers. */
module CelerySafety {
  import opened Models
  import opened Controller
  import opened Invariants
  import opened Safety
  import opened Celery
  import Verdict

  /** A process holds a sound copy; a run stands where the controller's own invariant has it. */
  ghost predicate ProcOk(c: Config, q: Proc) {
    && (q.copy.Some? ==> Sound(q.copy.value))
    && (q.act.Working? ==> q.copy.Some? && Local(c, q.act.ctl, q.copy.value))
    && (q.act.Telling? ==> q.act.event.ApprovalResolved? || q.act.event.ApprovalTimeout?)
  }

  ghost predicate Inv(c: Config, w: World) {
    && Sound(w.row)
    && |w.authors| == |w.log|
    && (forall p :: 0 <= p < |w.procs| ==> ProcOk(c, w.procs[p]))
    && (forall j :: 0 <= j < |w.log| ==> Sound(w.log[j].row))
    && AttemptsPermitted(w.log)
    && ReportsJudged(w.log)
  }

  /** A report is committed only with a positive verdict. */
  ghost predicate ReportsJudged(log: seq<Commit>) {
    forall j :: 0 <= j < |log| && log[j].event.TaskCompleted? ==> log[j].row.verified == Some(true)
  }

  /** Editing decision, result, error or a status other than COMPLETED keeps a snapshot sound. */
  lemma EditsKeepSound(t: TaskRow, u: TaskRow)
    requires Sound(t) && u == t.(decision := u.decision, result := u.result, error := u.error, status := u.status)
    requires u.status == t.status || !u.status.Completed?
    ensures Sound(u)
  {
    hide Ordered, AllDone, AllFresh, PlanShape;
  }

  /** The processes other than p, and all of them but their copies. */
  ghost predicate Others(w: World, v: World, p: nat) {
    |v.procs| == |w.procs| && forall q :: 0 <= q < |w.procs| && q != p ==> v.procs[q] == w.procs[q]
  }

  /** v has one more commit than w, of the row of v, or the same commits. */
  ghost predicate Appended(w: World, v: World) {
    || (v.log == w.log && v.authors == w.authors)
    || (|v.log| == |w.log| + 1 && v.log == w.log + [v.log[|w.log|]] && v.log[|w.log|].row == v.row
        && |v.authors| == |w.authors| + 1 && v.authors == w.authors + [v.authors[|w.authors|]])
  }

  ghost predicate EventOk(w: World, v: World) {
    |v.log| > |w.log| ==>
      && (v.log[|w.log|].event.StepAttempted? ==> Permitted(v.row))
      && (v.log[|w.log|].event.TaskCompleted? ==> v.row.verified == Some(true))
  }

  /** What one transition of process p has to establish for the invariant to be kept. */
  ghost predicate Keeps(c: Config, w: World, v: World, p: nat) {
    && Others(w, v, p) && Appended(w, v) && Sound(v.row) && EventOk(w, v)
    && (p < |v.procs| ==> ProcOk(c, v.procs[p]))
  }

  lemma KeepsInv(c: Config, w: World, v: World, p: nat)
    requires Inv(c, w) && Keeps(c, w, v, p)
    ensures Inv(c, v)
  {
    hide Sound, ProcOk, Permitted;
    forall q | 0 <= q < |v.procs| ensures ProcOk(c, v.procs[q]) {
      assert q != p ==> v.procs[q] == w.procs[q];
    }
  }

  lemma ProceedKeeps(c: Config, w: World, p: nat)
    requires Inv(c, w) && p < |w.procs| && Proceed(w, p).Some?
    ensures Keeps(c, w, Proceed(w, p).value, p)
  {
    var v := Proceed(w, p).value;
    assert ProcOk(c, w.procs[p]);
    if w.procs[p].act.Denying? {
      EditsKeepSound(w.procs[p].copy.value, v.row);
    }
    if w.procs[p].act.Loading? {
      SoundRowsRestart(c, w.row);
    }
    hide Sound, Local;
  }

  lemma RunKeeps(c: Config, w: World, p: nat, x: Input)
    requires Inv(c, w) && p < |w.procs| && RunStep(c, w, p, x).Some?
    ensures Keeps(c, w, RunStep(c, w, p, x).value, p)
  {
    var k, t := w.procs[p].act.ctl, w.procs[p].copy.value;
    assert ProcOk(c, w.procs[p]);
    StepKeepsLocal(c, k, t, x);
    var m := Step(c, k, t, x).value;
    if m.event.Some? && m.event.value.StepAttempted? {
      AttemptMoves(c, k, t, x);
    }
    if m.event.Some? && m.event.value.TaskCompleted? {
      Verdict.ReportMoves(c, k, t, x);
      assert t.verified == Some(true) by {
        hide Sound, Step;
      }
    }
    assert Sound(m.task);
    hide Step, Local, Sound, Permitted;
  }

  lemma ClaimKeeps(c: Config, w: World, p: nat, approved: bool, e: Event)
    requires Inv(c, w) && p < |w.procs| && Claim(w, p, approved, e).Some?
    requires e.ApprovalResolved? || e.ApprovalTimeout?
    ensures Keeps(c, w, Claim(w, p, approved, e).value, p)
  {
    var v := Claim(w, p, approved, e).value;
    assert ProcOk(c, w.procs[p]);
    EditsKeepSound(w.row, v.row);
    if w.procs[p].copy.Some? {
      EditsKeepSound(w.procs[p].copy.value, v.procs[p].copy.value);
    }
    hide Sound, Local;
  }

  lemma UnsentKeeps(c: Config, w: World, p: nat, message: string)
    requires Inv(c, w) && p < |w.procs| && Unsent(w, p, message).Some?
    ensures Keeps(c, w, Unsent(w, p, message).value, p)
  {
    assert ProcOk(c, w.procs[p]);
    EditsKeepSound(w.procs[p].copy.value, Unsent(w, p, message).value.row);
    hide Sound, Local;
  }

  lemma ApplyKeepsInv(c: Config, w: World, l: Label)
    requires Inv(c, w) && Apply(c, w, l).Some?
    ensures Inv(c, Apply(c, w, l).value)
  {
    hide Sound, Local, Proceed, RunStep, Claim, Unsent, Keeps;
    var v := Apply(c, w, l).value;
    if l.Duplicate? || l.LeaseEnds? {
      hide AttemptsPermitted, ReportsJudged;
    } else {
      assert ProcOk(c, w.procs[l.p]);
      match l {
        case Go(p) => ProceedKeeps(c, w, p);
        case Run(p, x) => RunKeeps(c, w, p, x);
        case SendFails(p, message) => UnsentKeeps(c, w, p, message);
        case Decide(p, approved) => ClaimKeeps(c, w, p, approved, ApprovalResolved(approved));
        case Expire(p) => ClaimKeeps(c, w, p, false, ApprovalTimeout);
        case _ => TurnKeeps(c, w, l);
      }
      hide Inv;
      KeepsInv(c, w, v, l.p);
    }
  }

  lemma TurnKeeps(c: Config, w: World, l: Label)
    requires Inv(c, w) && Apply(c, w, l).Some? && (l.MemoryLost? || l.Deliver? || l.Drop? || l.Crash?)
    ensures Keeps(c, w, Apply(c, w, l).value, l.p)
  {
    assert ProcOk(c, w.procs[l.p]);
    hide Sound, Local;
  }

  lemma CreatedInv(c: Config, w0: World)
    requires Reaches(c, w0, [], w0)
    ensures Inv(c, w0)
  {
  }

  lemma {:induction false} ReachableInv(c: Config, w0: World, ls: seq<Label>, w: World)
    requires Reaches(c, w0, ls, w)
    ensures Inv(c, w)
    decreases |ls|
  {
    hide Inv, Apply;
    if ls == [] {
      CreatedInv(c, w0);
    } else {
      var v := Exec(c, w0, ls[..|ls| - 1]).value;
      ReachableInv(c, w0, ls[..|ls| - 1], v);
      ApplyKeepsInv(c, v, ls[|ls| - 1]);
    }
  }

  /** Gate safety in worker mode: whatever the processes overwrite, no attempt is committed on a snapshot the gate
      would not let through. */
  lemma WorkersRespectGate(c: Config, w0: World, ls: seq<Label>, w: World)
    requires Reaches(c, w0, ls, w)
    ensures AttemptsPermitted(w.log)
  {
    ReachableInv(c, w0, ls, w);
  }

  /** Every snapshot any process commits has the shape of a plan at work, and one that says COMPLETED is verified
      with every step done. */
  lemma WorkersCommitSound(c: Config, w0: World, ls: seq<Label>, w: World, j: nat)
    requires Reaches(c, w0, ls, w) && j < |w.log|
    ensures var t := w.log[j].row;
            && Ordered(t.steps) && (t.steps != [] ==> PlanShape(t.steps)) && t.rework < MAX_ROUNDS
            && (t.status.Completed? ==> t.verified == Some(true) && AllDone(t.steps))
  {
    ReachableInv(c, w0, ls, w);
    hide Ordered, PlanShape, AllDone;
  }
}
