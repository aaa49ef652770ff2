/** Worker mode when runs and writes outside runs take turns: an ended task stays as it is, and a decision stands.
    The condition speaks of scheduling alone; copies may be as stale as they like. */
module CeleryTurns {
  import opened Models
  import opened Controller
  import opened Invariants
  import opened Celery
  import InProcess
  import Safety
  import Terminal
  import Decisions
  import CelerySafety
  import opened CeleryRuns
  import opened CeleryOrder

  /** A run that may still commit. */
  predicate Active(a: Act) {
    a.Working? && !Ended(a.ctl)
  }

  /** A row is loaded only while nobody owes a write, and a decision is made only while no run may still commit. */
  predicate TakesTurns(w: World, l: Label) {
    && (Loads(w, l) ==> NobodyOwes(w))
    && (Claims(l) ==> forall p :: 0 <= p < |w.procs| ==> !Active(w.procs[p].act))
  }

  predicate Writes(a: Act) {
    Owes(a) || Active(a)
  }

  // ------------------------------------------------------------- one writer

  /** A process that is about to write has the row's decision, and owes a write only on a row that is not open to
      a decision. */
  ghost predicate WriterOk(row: TaskRow, q: Proc) {
    && (Writes(q.act) ==> q.copy.Some? && q.copy.value.decision == row.decision)
    && (Owes(q.act) ==> !InProcess.Undecided(row) && !InProcess.Undecided(q.copy.value))
    && (Active(q.act) ==> !q.act.ctl.Waiting?)
    && (q.act.Telling? ==> q.copy.value.decision.Some?)
  }

  ghost predicate OneWriter(w: World) {
    && (forall p :: 0 <= p < |w.procs| ==> WriterOk(w.row, w.procs[p]))
    && (forall p, q :: 0 <= p < q < |w.procs| && Writes(w.procs[p].act) ==> !Writes(w.procs[q].act))
  }

  /** v is w after a transition of p. */
  ghost predicate Only(w: World, v: World, p: nat) {
    p < |w.procs| == |v.procs| && forall q :: 0 <= q < |w.procs| && q != p ==> v.procs[q] == w.procs[q]
  }

  /** p, if it writes or changes the row, is the only writer. */
  lemma WriterMoves(w: World, v: World, p: nat)
    requires OneWriter(w) && Only(w, v, p) && WriterOk(v.row, v.procs[p])
    requires Writes(w.procs[p].act) || (v.row == w.row && !Writes(v.procs[p].act)) ||
             forall q :: 0 <= q < |w.procs| ==> !Writes(w.procs[q].act)
    ensures OneWriter(v)
  {
    forall q | 0 <= q < |v.procs| ensures WriterOk(v.row, v.procs[q]) {
      assert WriterOk(w.row, w.procs[q]);
    }
  }

  /** In worker mode a run never polls, and its decision is the one it loaded. */
  lemma RunKeepsDecision(c: Config, k: Ctl, t: TaskRow, x: Input)
    requires Local(c, k, t) && c.celery && !k.Waiting? && Step(c, k, t, x).Some?
    ensures Step(c, k, t, x).value.task.decision == t.decision && !Step(c, k, t, x).value.ctl.Waiting?
  {
    if k.Gate? {
      assert t.risk.Some? by {
        hide Sound, Settled;
      }
      Safety.GateDenials(c, t);
      GateNeverWaits(c, t);
      hide GateMove, Local;
    } else {
      Safety.DecisionFrame(c, k, t, x);
      Safety.RefusalFrame(c, k, t, x);
      hide Step, Local;
    }
  }

  lemma GateNeverWaits(c: Config, t: TaskRow)
    requires c.celery && GateMove(c, t).Some?
    ensures !GateMove(c, t).value.ctl.Waiting?
  {
  }

  lemma EndedNeverMoves(c: Config, k: Ctl, t: TaskRow, x: Input)
    requires Ended(k)
    ensures Step(c, k, t, x).None?
  {
  }

  lemma RunKeepsWriter(c: Config, w: World, p: nat, x: Input)
    requires CelerySafety.Inv(c, w) && OneWriter(w) && c.celery
    requires p < |w.procs| && RunStep(c, w, p, x).Some?
    ensures OneWriter(RunStep(c, w, p, x).value) && Active(w.procs[p].act)
    ensures RunStep(c, w, p, x).value.row.decision == w.row.decision
  {
    var v := RunStep(c, w, p, x).value;
    var k, t := w.procs[p].act.ctl, w.procs[p].copy.value;
    assert CelerySafety.ProcOk(c, w.procs[p]) && WriterOk(w.row, w.procs[p]);
    hide Step, Local, CelerySafety.Inv, OneWriter, Sound;
    if Ended(k) {
      EndedNeverMoves(c, k, t, x);
    }
    RunKeepsDecision(c, k, t, x);
    WriterMoves(w, v, p);
  }

  lemma LoadKeepsWriter(w: World, p: nat)
    requires LockHeld(w) && OneWriter(w) && w.expiries == 0 && NobodyOwes(w)
    requires p < |w.procs| && w.procs[p].act.Loading? && Proceed(w, p).Some?
    ensures OneWriter(Proceed(w, p).value)
  {
    assert WriterOk(w.row, w.procs[p]);
    assert forall q :: 0 <= q < |w.procs| ==> !w.procs[q].act.Working?;
    hide OneWriter;
    WriterMoves(w, Proceed(w, p).value, p);
  }

  lemma ProceedKeepsWriter(c: Config, w: World, p: nat)
    requires CelerySafety.Inv(c, w) && LockHeld(w) && OneWriter(w) && w.expiries == 0 && TakesTurns(w, Label.Go(p))
    requires p < |w.procs| && Proceed(w, p).Some?
    ensures OneWriter(Proceed(w, p).value)
    ensures Proceed(w, p).value.row.decision == w.row.decision
  {
    var v := Proceed(w, p).value;
    assert WriterOk(w.row, w.procs[p]);
    if Loads(w, Label.Go(p)) {
      hide OneWriter;
      LoadKeepsWriter(w, p);
    } else {
      hide OneWriter, CelerySafety.Inv, LockHeld;
      WriterMoves(w, v, p);
    }
  }

  lemma ClaimKeepsWriter(w: World, p: nat, approved: bool, e: Event)
    requires OneWriter(w) && p < |w.procs| && Claim(w, p, approved, e).Some?
    requires forall q :: 0 <= q < |w.procs| ==> !Active(w.procs[q].act)
    ensures OneWriter(Claim(w, p, approved, e).value)
    ensures w.row.decision.None?
  {
    forall q | 0 <= q < |w.procs| ensures !Writes(w.procs[q].act) {
      assert WriterOk(w.row, w.procs[q]);
    }
    hide OneWriter;
    WriterMoves(w, Claim(w, p, approved, e).value, p);
  }

  lemma WriterStays(c: Config, w: World, l: Label)
    requires CelerySafety.Inv(c, w) && LockHeld(w) && OneWriter(w) && TakesTurns(w, l) && c.celery
    requires Apply(c, w, l).Some? && w.expiries == 0
    ensures var v := Apply(c, w, l).value;
            OneWriter(v) && (w.row.decision.Some? ==> v.row.decision == w.row.decision)
  {
    var v := Apply(c, w, l).value;
    hide RunStep, Proceed, Claim, CelerySafety.Inv, LockHeld;
    if l.Duplicate? || l.LeaseEnds? {
    } else {
      var p := l.p;
      assert WriterOk(w.row, w.procs[p]);
      hide OneWriter;
      match l {
        case Run(_, x) => RunKeepsWriter(c, w, p, x);
        case Go(_) => ProceedKeepsWriter(c, w, p);
        case Decide(_, approved) => ClaimKeepsWriter(w, p, approved, ApprovalResolved(approved));
        case Expire(_) => ClaimKeepsWriter(w, p, false, ApprovalTimeout);
        case _ => WriterMoves(w, v, p);
      }
    }
  }

  lemma CreatedWriter(c: Config, w0: World)
    requires Reaches(c, w0, [], w0)
    ensures OneWriter(w0)
  {
  }

  lemma {:induction false} RunsTakeTurns(c: Config, w0: World, ls: seq<Label>, w: World)
    requires Reaches(c, w0, ls, w) && Along(c, w0, ls, TakesTurns) && w.expiries == 0
    ensures OneWriter(w)
    decreases |ls|
  {
    hide Apply, OneWriter, LockHeld, TakesTurns, CelerySafety.Inv, Runs, Serial;
    if ls == [] {
      CreatedWriter(c, w0);
    } else {
      var v, l := Exec(c, w0, ls[..|ls| - 1]).value, ls[|ls| - 1];
      CountersGrow(c, v, l);
      RunsTakeTurns(c, w0, ls[..|ls| - 1], v);
      CelerySafety.ReachableInv(c, w0, ls[..|ls| - 1], v);
      ReachableRuns(c, w0, ls[..|ls| - 1], v);
      WriterStays(c, v, l);
    }
  }

  // -------------------------------------------------------------- decisions

  lemma {:induction false} DecisionsLast(c: Config, w0: World, ls: seq<Label>, w: World)
    requires Reaches(c, w0, ls, w) && Along(c, w0, ls, TakesTurns) && w.expiries == 0
    ensures Decisions.Standing(w.log, w.row.decision)
    decreases |ls|
  {
    hide Apply, OneWriter, LockHeld, TakesTurns, CelerySafety.Inv, Runs, Serial, Decisions.Standing;
    if ls == [] {
      CreatedStands(c, w0);
    } else {
      var v, l := Exec(c, w0, ls[..|ls| - 1]).value, ls[|ls| - 1];
      CountersGrow(c, v, l);
      DecisionsLast(c, w0, ls[..|ls| - 1], v);
      RunsTakeTurns(c, w0, ls[..|ls| - 1], v);
      CelerySafety.ReachableInv(c, w0, ls[..|ls| - 1], v);
      ReachableRuns(c, w0, ls[..|ls| - 1], v);
      WriterStays(c, v, l);
      LogGrows(c, v, l);
      Decisions.StandingGrows(v.log, v.row.decision, w.log, w.row);
    }
  }

  lemma CreatedStands(c: Config, w0: World)
    requires Reaches(c, w0, [], w0)
    ensures Decisions.Standing(w0.log, w0.row.decision)
  {
  }

  lemma LogGrows(c: Config, w: World, l: Label)
    requires Apply(c, w, l).Some?
    ensures var v := Apply(c, w, l).value;
            v.log == w.log || (|v.log| == |w.log| + 1 && v.log[..|w.log|] == w.log && v.log[|w.log|].row == v.row)
  {
    hide Step;
  }

  /** In worker mode a decision that was committed is in every later commit and in the row, if no lease ends early and
      runs and outside writes take turns. */
  lemma DecisionStands(c: Config, w0: World, ls: seq<Label>, w: World, i: nat, j: nat)
    requires Reaches(c, w0, ls, w) && Along(c, w0, ls, TakesTurns) && w.expiries == 0
    requires i <= j < |w.log| && w.log[i].row.decision.Some?
    ensures w.log[j].row.decision == w.log[i].row.decision == w.row.decision
  {
    DecisionsLast(c, w0, ls, w);
  }

  // ------------------------------------------------------------- ended tasks

  /** Between the commit of a terminal status and `stream.end`. */
  predicate Closing(a: Act) {
    a.Losing? || a.Ending? || (a.Working? && a.ctl.Finishing?)
  }

  /** Before any write that ends the task. */
  predicate Opening(a: Act) {
    a.Sending? || a.Queueing? || a.Telling? || a.Denying?
  }

  ghost predicate InStep(row: TaskRow, q: Proc) {
    && (q.copy.Some? && q.copy.value.status.Terminal() ==> row.status.Terminal())
    && (Opening(q.act) ==> q.copy.Some? && !q.copy.value.status.Terminal() && !row.status.Terminal())
    && (Active(q.act) ==> q.copy.Some? && q.copy.value.status == row.status
                          && (row.status.Terminal() ==> Terminal.Over(q.act.ctl)))
    && (q.act.Losing? || q.act.Ending? ==> q.copy.Some? && q.copy.value.status == row.status && row.status.Terminal())
  }

  /** A committed `stream.end` is the last commit, of an ended task that nobody is closing. */
  ghost predicate EndsLast(w: World) {
    forall j :: 0 <= j < |w.log| && w.log[j].event.StreamEnd? ==>
      j == |w.log| - 1 && w.row.status.Terminal() && forall p :: 0 <= p < |w.procs| ==> !Closing(w.procs[p].act)
  }

  ghost predicate Orderly(w: World) {
    && Terminal.StatusesKept(w.log, w.row.status)
    && EndsLast(w)
    && (forall p :: 0 <= p < |w.procs| ==> InStep(w.row, w.procs[p]))
  }

  lemma CommitKeepsOrder(w: World, v: World, p: nat, e: Event)
    requires Orderly(w) && OneWriter(w) && Only(w, v, p) && Writes(w.procs[p].act)
    requires v.log == w.log + [Commit(e, v.row)] && InStep(v.row, v.procs[p])
    requires w.row.status.Terminal() ==> v.row.status == w.row.status && Closing(w.procs[p].act)
    requires e.StreamEnd? ==> v.row.status.Terminal() && !Closing(v.procs[p].act)
    ensures Orderly(v)
  {
    assert InStep(w.row, w.procs[p]);
    assert Terminal.StatusesKept(v.log, v.row.status) by {
      Terminal.KeptEnds(w.log, w.row.status);
      Terminal.KeptGrows(w.log, w.row.status, Commit(e, v.row));
    }
    hide Terminal.StatusesKept, WriterOk;
    forall q | 0 <= q < |w.procs| && q != p ensures InStep(v.row, v.procs[q]) && !Closing(v.procs[q].act) {
      assert InStep(w.row, w.procs[q]);
      assert !Writes(w.procs[q].act);
    }
    assert forall j :: 0 <= j < |w.log| ==> v.log[j] == w.log[j];
  }

  /** A transition of p without a commit. */
  lemma QuietKeepsOrder(w: World, v: World, p: nat)
    requires Orderly(w) && Only(w, v, p) && v.log == w.log && v.row.status == w.row.status
    requires InStep(w.row, w.procs[p]) ==> InStep(v.row, v.procs[p])
    requires Closing(v.procs[p].act) ==> Closing(w.procs[p].act)
    ensures Orderly(v)
  {
    forall q | 0 <= q < |v.procs| ensures InStep(v.row, v.procs[q]) {
      assert InStep(w.row, w.procs[q]);
    }
    hide Terminal.StatusesKept;
  }

  lemma ProceedInOrder(c: Config, w: World, p: nat)
    requires CelerySafety.Inv(c, w) && OneWriter(w) && Orderly(w)
    requires p < |w.procs| && Proceed(w, p).Some?
    ensures Orderly(Proceed(w, p).value)
  {
    var v := Proceed(w, p).value;
    assert InStep(w.row, w.procs[p]) && CelerySafety.ProcOk(c, w.procs[p]);
    hide Orderly, OneWriter, CelerySafety.Inv, Sound, Local;
    if v.log != w.log {
      CommitKeepsOrder(w, v, p, v.log[|w.log|].event);
    } else {
      QuietKeepsOrder(w, v, p);
    }
  }

  lemma UnsentInOrder(w: World, p: nat, message: string)
    requires OneWriter(w) && Orderly(w) && p < |w.procs| && Unsent(w, p, message).Some?
    ensures Orderly(Unsent(w, p, message).value)
  {
    var v := Unsent(w, p, message).value;
    assert InStep(w.row, w.procs[p]);
    hide Orderly, OneWriter;
    CommitKeepsOrder(w, v, p, v.log[|w.log|].event);
  }

  lemma ClaimInOrder(w: World, p: nat, approved: bool, e: Event)
    requires Orderly(w) && p < |w.procs| && Claim(w, p, approved, e).Some?
    ensures Orderly(Claim(w, p, approved, e).value)
  {
    assert InStep(w.row, w.procs[p]);
    hide Orderly;
    QuietKeepsOrder(w, Claim(w, p, approved, e).value, p);
  }

  lemma RunInOrder(c: Config, w: World, p: nat, x: Input)
    requires CelerySafety.Inv(c, w) && OneWriter(w) && Orderly(w)
    requires p < |w.procs| && RunStep(c, w, p, x).Some? && RunStep(c, w, p, x).value.faults == 0
    ensures Orderly(RunStep(c, w, p, x).value)
  {
    var v := RunStep(c, w, p, x).value;
    var k, t := w.procs[p].act.ctl, w.procs[p].copy.value;
    assert InStep(w.row, w.procs[p]) && CelerySafety.ProcOk(c, w.procs[p]);
    var m := Step(c, k, t, x).value;
    hide Step, Local, Orderly, OneWriter, CelerySafety.Inv, CelerySafety.ProcOk, Sound;
    if Ended(k) {
      EndedNeverMoves(c, k, t, x);
    }
    Terminal.RunEnding(c, k, t, x);
    if m.event.Some? {
      CommitKeepsOrder(w, v, p, m.event.value);
    } else {
      QuietKeepsOrder(w, v, p);
    }
  }

  lemma OrderStays(c: Config, w: World, l: Label)
    requires CelerySafety.Inv(c, w) && OneWriter(w) && Orderly(w) && Apply(c, w, l).Some?
    requires Apply(c, w, l).value.faults == 0
    ensures Orderly(Apply(c, w, l).value)
  {
    var v := Apply(c, w, l).value;
    hide RunStep, Proceed, Unsent, Claim, CelerySafety.Inv, OneWriter;
    if l.Duplicate? || l.LeaseEnds? {
    } else {
      var p := l.p;
      assert InStep(w.row, w.procs[p]);
      hide Orderly;
      match l {
        case Run(_, x) => RunInOrder(c, w, p, x);
        case Go(_) => ProceedInOrder(c, w, p);
        case SendFails(_, message) => UnsentInOrder(w, p, message);
        case Decide(_, approved) => ClaimInOrder(w, p, approved, ApprovalResolved(approved));
        case Expire(_) => ClaimInOrder(w, p, false, ApprovalTimeout);
        case _ => QuietKeepsOrder(w, v, p);
      }
    }
  }

  lemma CreatedOrderly(c: Config, w0: World)
    requires Reaches(c, w0, [], w0)
    ensures Orderly(w0)
  {
  }

  lemma {:induction false} RunsAreOrderly(c: Config, w0: World, ls: seq<Label>, w: World)
    requires Reaches(c, w0, ls, w) && Along(c, w0, ls, TakesTurns) && w.expiries == 0 && w.faults == 0
    ensures Orderly(w)
    decreases |ls|
  {
    hide Apply, Orderly, OneWriter, TakesTurns, CelerySafety.Inv;
    if ls == [] {
      CreatedOrderly(c, w0);
    } else {
      var v, l := Exec(c, w0, ls[..|ls| - 1]).value, ls[|ls| - 1];
      CountersGrow(c, v, l);
      RunsAreOrderly(c, w0, ls[..|ls| - 1], v);
      RunsTakeTurns(c, w0, ls[..|ls| - 1], v);
      CelerySafety.ReachableInv(c, w0, ls[..|ls| - 1], v);
      OrderStays(c, v, l);
    }
  }

  /** If no lease ends early, no memory write of an ended task raises, and runs and outside writes take turns, then
      no commit leaves a terminal status, and `stream.end` is committed at most once, last. */
  lemma EndedTasksStayEnded(c: Config, w0: World, ls: seq<Label>, w: World)
    requires Reaches(c, w0, ls, w) && Along(c, w0, ls, TakesTurns) && w.expiries == 0 && w.faults == 0
    ensures forall i, j :: 0 <= i <= j < |w.log| && w.log[i].row.status.Terminal() ==>
              w.log[j].row.status == w.log[i].row.status
    ensures forall j :: 0 <= j < |w.log| && w.log[j].event.StreamEnd? ==> j == |w.log| - 1
  {
    RunsAreOrderly(c, w0, ls, w);
  }
}
