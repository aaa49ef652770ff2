/** Worker mode: what a process does once it has stored a decision or put a task on the queue, and that a denied
    task is not left waiting. */
module CeleryDenial {
  import opened Models
  import opened Controller
  import opened Invariants
  import opened Celery
  import Safety
  import Terminal
  import CelerySafety
  import opened CeleryRuns
  import opened CeleryOrder
  import opened CeleryTurns
  import opened CeleryWake

  // ------------------------------------------------------------------ scripts

  /** The end of a denied task: result and status, then the end of the stream. */
  function Denial(t: TaskRow): seq<Commit> {
    var u := t.(result := DENIED_RESULT, status := Denied);
    [Commit(StatusChanged(Denied), u), Commit(StreamEnd(Denied), u)]
  }

  /** What a process with the copy t still has to commit. */
  function Script(a: Act, t: TaskRow): seq<Commit> {
    match a
    case Sending => [Commit(TaskQueued, t)]
    case Queueing => [Commit(TaskQueued, t)]
    case Losing => [Commit(TaskFailed(t.error), t), Commit(StreamEnd(t.status), t)]
    case Telling(e) =>
      [Commit(e, t)] + if e == ApprovalResolved(true) then [Commit(TaskQueued, t)] else Denial(t)
    case Denying => Denial(t)
    case Ending => [Commit(StreamEnd(t.status), t)]
    case _ => []
  }

  /** The commits p makes outside runs, in order. */
  function Made(c: Config, w: World, ls: seq<Label>, p: nat): seq<Commit>
    decreases |ls|
  {
    if ls == [] then []
    else
      var front, v, u := ls[..|ls| - 1], Exec(c, w, ls[..|ls| - 1]), Exec(c, w, ls);
      Made(c, w, front, p) +
      if ls[|ls| - 1] == Label.Go(p) && v.Some? && u.Some? && |u.value.log| > |v.value.log|
      then [u.value.log[|u.value.log| - 1]] else []
  }

  /** p neither dies, nor finds the queue unreachable, nor has a memory write raise. */
  predicate Undisturbed(ls: seq<Label>, p: nat) {
    forall n :: 0 <= n < |ls| ==> ls[n] != Crash(p) && ls[n] != MemoryLost(p) && !(ls[n].SendFails? && ls[n].p == p)
  }

  /** p is still at its script, or has been through it. */
  ghost predicate Following(script: seq<Commit>, made: seq<Commit>, q: Proc) {
    (Owes(q.act) && q.copy.Some? && script == made + Script(q.act, q.copy.value)) || script <= made
  }

  /** The next step of p is the next line of its script. */
  lemma NextLine(w: World, p: nat)
    requires p < |w.procs| && Owes(w.procs[p].act) && w.procs[p].copy.Some? && Proceed(w, p).Some?
    ensures var v := Proceed(w, p).value;
            var script := Script(w.procs[p].act, w.procs[p].copy.value);
            && |v.procs| == |w.procs| && v.procs[p].copy.Some?
            && (if v.log == w.log then Owes(v.procs[p].act) && Script(v.procs[p].act, v.procs[p].copy.value) == script
                else
                  && |v.log| == |w.log| + 1
                  && script == [v.log[|w.log|]] + Script(v.procs[p].act, v.procs[p].copy.value)
                  && (!Owes(v.procs[p].act) ==> Script(v.procs[p].act, v.procs[p].copy.value) == []))
  {
  }

  /** Whatever else happens, only its own next step moves a process that owes a write. */
  lemma OnlyItself(c: Config, w: World, l: Label, p: nat)
    requires p < |w.procs| && Owes(w.procs[p].act) && Apply(c, w, l).Some?
    requires l != Label.Go(p) && l != Crash(p) && l != MemoryLost(p) && !(l.SendFails? && l.p == p)
    ensures p < |Apply(c, w, l).value.procs| && Apply(c, w, l).value.procs[p] == w.procs[p]
  {
    hide Step;
  }

  lemma ProcsStay(c: Config, w: World, l: Label)
    requires Apply(c, w, l).Some?
    ensures |Apply(c, w, l).value.procs| == |w.procs|
  {
    hide Step;
  }

  /** What p adds to its commits with one label. */
  function Added(w: World, l: Label, v: World, p: nat): seq<Commit> {
    if l == Label.Go(p) && |v.log| > |w.log| then [v.log[|v.log| - 1]] else []
  }

  lemma KeepsFollowing(c: Config, w: World, l: Label, v: World, p: nat, script: seq<Commit>, made: seq<Commit>)
    requires p < |w.procs| && Following(script, made, w.procs[p]) && Apply(c, w, l) == Some(v)
    requires l != Crash(p) && l != MemoryLost(p) && !(l.SendFails? && l.p == p)
    ensures p < |v.procs| && Following(script, made + Added(w, l, v, p), v.procs[p])
  {
    ProcsStay(c, w, l);
    if script <= made {
      hide Apply, Script;
    } else if l == Label.Go(p) {
      GoProceeds(c, w, p);
      hide Apply, Script;
      NextLine(w, p);
      var rest := Script(v.procs[p].act, if v.procs[p].copy.Some? then v.procs[p].copy.value else v.row);
      assert script == made + Added(w, l, v, p) + rest;
    } else {
      OnlyItself(c, w, l, p);
      hide Apply, Script;
      assert made + Added(w, l, v, p) == made;
    }
  }

  lemma MadeSnoc(c: Config, w: World, ls: seq<Label>, p: nat, u: World, v: World)
    requires ls != [] && Exec(c, w, ls[..|ls| - 1]) == Some(u) && Exec(c, w, ls) == Some(v)
    ensures Made(c, w, ls, p) == Made(c, w, ls[..|ls| - 1], p) + Added(u, ls[|ls| - 1], v, p)
  {
    hide Exec, Apply;
  }

  /** A process that owes writes makes them, in order, unless it is disturbed; and it is done with them only when all
      are made. */
  lemma {:induction false} ScriptsAreFollowed(c: Config, w: World, ls: seq<Label>, v: World, p: nat)
    requires p < |w.procs| && Owes(w.procs[p].act) && w.procs[p].copy.Some?
    requires Exec(c, w, ls) == Some(v) && Undisturbed(ls, p)
    ensures p < |v.procs|
    ensures Following(Script(w.procs[p].act, w.procs[p].copy.value), Made(c, w, ls, p), v.procs[p])
    decreases |ls|
  {
    hide Apply, Script;
    var script := Script(w.procs[p].act, w.procs[p].copy.value);
    if ls == [] {
      assert script == [] + script;
    } else {
      var front, l := ls[..|ls| - 1], ls[|ls| - 1];
      var u := Exec(c, w, front).value;
      ScriptsAreFollowed(c, w, front, u, p);
      hide Following, Made;
      KeepsFollowing(c, u, l, v, p, script, Made(c, w, front, p));
      MadeSnoc(c, w, ls, p, u, v);
    }
  }

  lemma FollowingMeans(script: seq<Commit>, made: seq<Commit>, q: Proc)
    requires Following(script, made, q)
    ensures script <= made || (made <= script && Owes(q.act))
  {
    hide Script;
  }

  lemma GoProceeds(c: Config, w: World, p: nat)
    requires p < |w.procs|
    ensures Apply(c, w, Label.Go(p)) == Proceed(w, p)
  {
    hide Proceed;
  }

  /** What a claim leaves its process to do. */
  lemma ClaimsAreTold(c: Config, w: World, l: Label, v: World)
    requires (l.Decide? || l.Expire?) && Apply(c, w, l) == Some(v)
    ensures var approved := l.Decide? && l.approved;
            && l.p < |v.procs| && v.row.decision == Some(approved) && v.log == w.log
            && v.procs[l.p].act == Telling(if l.Decide? then ApprovalResolved(approved) else ApprovalTimeout)
            && v.procs[l.p].copy.Some? && v.procs[l.p].copy.value.decision == Some(approved)
  {
  }

  /** Whoever claims a denial commits, in this order, the decision's event, DENIED with the denial's result, and
      `stream.end`, unless it dies or its memory write raises; and it is free again only after all three. */
  lemma DenialIsCarriedOut(c: Config, w: World, l: Label, v: World, ls: seq<Label>, u: World)
    requires (l.Decide? && !l.approved) || l.Expire?
    requires Apply(c, w, l) == Some(v) && Exec(c, v, ls) == Some(u) && Undisturbed(ls, l.p)
    ensures l.p < |v.procs| == |u.procs| && v.procs[l.p].copy.Some?
    ensures var t := v.procs[l.p].copy.value;
            var e := if l.Expire? then ApprovalTimeout else ApprovalResolved(false);
            var d := t.(result := DENIED_RESULT, status := Denied);
            var all := [Commit(e, t), Commit(StatusChanged(Denied), d), Commit(StreamEnd(Denied), d)];
            && t.decision == Some(false)
            && (all <= Made(c, v, ls, l.p) || (Made(c, v, ls, l.p) <= all && Owes(u.procs[l.p].act)))
  {
    ClaimsAreTold(c, w, l, v);
    ScriptsAreFollowed(c, v, ls, u, l.p);
    RunsKeepProcs(c, v, ls, u);
    var t := v.procs[l.p].copy.value;
    hide Apply, Exec, Made, Following;
    FollowingMeans(Script(v.procs[l.p].act, t), Made(c, v, ls, l.p), u.procs[l.p]);
    assert Script(v.procs[l.p].act, t) == [Commit(v.procs[l.p].act.event, t)] + Denial(t);
  }

  /** Whoever claims an approval commits its event and then, with the message sent, `task.queued`. */
  lemma ApprovalIsCarriedOut(c: Config, w: World, l: Label, v: World, ls: seq<Label>, u: World)
    requires l.Decide? && l.approved
    requires Apply(c, w, l) == Some(v) && Exec(c, v, ls) == Some(u) && Undisturbed(ls, l.p)
    ensures l.p < |v.procs| == |u.procs| && v.procs[l.p].copy.Some?
    ensures var t := v.procs[l.p].copy.value;
            var all := [Commit(ApprovalResolved(true), t), Commit(TaskQueued, t)];
            && t.decision == Some(true)
            && (all <= Made(c, v, ls, l.p) || (Made(c, v, ls, l.p) <= all && Owes(u.procs[l.p].act)))
  {
    ClaimsAreTold(c, w, l, v);
    ScriptsAreFollowed(c, v, ls, u, l.p);
    RunsKeepProcs(c, v, ls, u);
    hide Apply, Exec, Made, Following;
    FollowingMeans(Script(v.procs[l.p].act, v.procs[l.p].copy.value), Made(c, v, ls, l.p), u.procs[l.p]);
  }

  /** A task that cannot be sent is stored as FAILED with the message, then announced as failed; then its stream
      ends. */
  lemma UnsentTasksFail(c: Config, w: World, p: nat, message: string, v: World, ls: seq<Label>, u: World)
    requires Apply(c, w, SendFails(p, message)) == Some(v) && Exec(c, v, ls) == Some(u) && Undisturbed(ls, p)
    ensures p < |w.procs| == |v.procs| == |u.procs| && w.procs[p].copy.Some?
    ensures var t := w.procs[p].copy.value.(error := message, status := TaskStatus.Failed);
            var all := [Commit(TaskFailed(message), t), Commit(StreamEnd(TaskStatus.Failed), t)];
            && v.row == t && v.log == w.log + [Commit(StatusChanged(TaskStatus.Failed), t)]
            && (all <= Made(c, v, ls, p) || (Made(c, v, ls, p) <= all && Owes(u.procs[p].act)))
  {
    ScriptsAreFollowed(c, v, ls, u, p);
    RunsKeepProcs(c, v, ls, u);
    hide Apply, Exec, Made, Following;
    FollowingMeans(Script(v.procs[p].act, v.procs[p].copy.value), Made(c, v, ls, p), u.procs[p]);
  }

  lemma {:induction false} RunsKeepProcs(c: Config, w: World, ls: seq<Label>, v: World)
    requires Exec(c, w, ls) == Some(v)
    ensures |v.procs| == |w.procs|
    decreases |ls|
  {
    hide Apply;
    if ls != [] {
      var u := Exec(c, w, ls[..|ls| - 1]).value;
      RunsKeepProcs(c, w, ls[..|ls| - 1], u);
      ProcsStay(c, u, ls[|ls| - 1]);
    }
  }

  // ------------------------------------------------------------ denials in force

  /** A process that is carrying out a denial. */
  predicate Denies(a: Act) {
    a.Denying? || (a.Telling? && a.event != ApprovalResolved(true))
  }

  /** Runs and outside writes take turns, and no process dies between storing a denial and committing it. */
  predicate Steadfast(w: World, l: Label) {
    TakesTurns(w, l) && (l.Crash? && l.p < |w.procs| ==> !Denies(w.procs[l.p].act))
  }

  predicate Refused(row: TaskRow) {
    row.status.AwaitingApproval? && row.decision == Some(false)
  }

  ghost predicate Upright(row: TaskRow, q: Proc) {
    Informed(row, q) &&
    (q.act == Telling(ApprovalResolved(true)) ==> q.copy.Some? && q.copy.value.decision == Some(true))
  }

  ghost predicate RefusalMinded(w: World) {
    && (forall p :: 0 <= p < |w.procs| ==> Upright(w.row, w.procs[p]))
    && (Refused(w.row) ==> exists p :: 0 <= p < |w.procs| && Denies(w.procs[p].act))
  }

  lemma StaysMinded(w: World, v: World, p: nat)
    requires RefusalMinded(w) && OneWriter(w) && Only(w, v, p) && Upright(v.row, v.procs[p])
    requires v.row == w.row || Writes(w.procs[p].act) || forall q :: 0 <= q < |w.procs| ==> !Writes(w.procs[q].act)
    requires Refused(v.row) ==> Denies(v.procs[p].act) || (Refused(w.row) && !Denies(w.procs[p].act))
    ensures RefusalMinded(v)
  {
    hide WriterOk;
    forall q | 0 <= q < |v.procs| ensures Upright(v.row, v.procs[q]) {
      assert Upright(w.row, w.procs[q]);
    }
    if Refused(v.row) && !Denies(v.procs[p].act) {
      var q :| 0 <= q < |w.procs| && Denies(w.procs[q].act);
      assert Denies(v.procs[q].act);
    }
  }

  /** No run is active while a denial is in force. */
  lemma NoRunBesideDenial(w: World, p: nat)
    requires RefusalMinded(w) && OneWriter(w) && p < |w.procs| && Active(w.procs[p].act)
    ensures !Refused(w.row)
  {
    hide WriterOk, Upright;
    forall q | 0 <= q < |w.procs| ensures !Denies(w.procs[q].act) {
      if q != p {
        assert !Writes(w.procs[q].act);
      }
    }
  }

  lemma GateOpensNoRefusal(c: Config, t: TaskRow)
    requires GateMove(c, t).Some?
    ensures Refused(GateMove(c, t).value.task) ==> t.status.AwaitingApproval?
  {
  }

  lemma AwaitingStaysFrom(c: Config, k: Ctl, t: TaskRow, x: Input)
    requires Step(c, k, t, x).Some?
    ensures Refused(Step(c, k, t, x).value.task) ==> t.status.AwaitingApproval?
  {
    if k.Gate? {
      GateOpensNoRefusal(c, t);
      hide GateMove;
    } else {
      AwaitingOnlyFromGate(c, k, t, x);
      hide Step;
    }
  }

  lemma RunStaysMinded(c: Config, w: World, p: nat, x: Input)
    requires CelerySafety.Inv(c, w) && OneWriter(w) && RefusalMinded(w) && c.celery
    requires p < |w.procs| && RunStep(c, w, p, x).Some?
    ensures RefusalMinded(RunStep(c, w, p, x).value)
  {
    var v := RunStep(c, w, p, x).value;
    var k, t := w.procs[p].act.ctl, w.procs[p].copy.value;
    RunKeepsWriter(c, w, p, x);
    assert CelerySafety.ProcOk(c, w.procs[p]) && Upright(w.row, w.procs[p]) && WriterOk(w.row, w.procs[p]);
    var m := Step(c, k, t, x).value;
    hide Step, Local, Sound, CelerySafety.Inv, OneWriter, RefusalMinded;
    NoRunBesideDenial(w, p);
    AwaitingStaysFrom(c, k, t, x);
    RunKeepsDecision(c, k, t, x);
    if m.event.None? {
      Terminal.SilentStatus(c, k, t, x);
    }
    StaysMinded(w, v, p);
  }

  lemma ProceedStaysMinded(c: Config, w: World, p: nat)
    requires CelerySafety.Inv(c, w) && OneWriter(w) && RefusalMinded(w)
    requires p < |w.procs| && Proceed(w, p).Some?
    ensures RefusalMinded(Proceed(w, p).value)
  {
    assert WriterOk(w.row, w.procs[p]) && Upright(w.row, w.procs[p]) && CelerySafety.ProcOk(c, w.procs[p]);
    hide RefusalMinded, OneWriter, CelerySafety.Inv, Sound, Local;
    StaysMinded(w, Proceed(w, p).value, p);
  }

  lemma ClaimStaysMinded(w: World, p: nat, approved: bool, e: Event)
    requires OneWriter(w) && RefusalMinded(w) && p < |w.procs| && Claim(w, p, approved, e).Some?
    requires forall q :: 0 <= q < |w.procs| ==> !Active(w.procs[q].act)
    requires e == ApprovalResolved(approved) || (!approved && e == ApprovalTimeout)
    ensures RefusalMinded(Claim(w, p, approved, e).value)
  {
    forall q | 0 <= q < |w.procs| ensures !Writes(w.procs[q].act) {
      assert WriterOk(w.row, w.procs[q]);
    }
    hide RefusalMinded, OneWriter;
    StaysMinded(w, Claim(w, p, approved, e).value, p);
  }

  lemma TurnStaysMinded(c: Config, w: World, l: Label)
    requires OneWriter(w) && RefusalMinded(w) && Steadfast(w, l) && Apply(c, w, l).Some?
    requires l.Deliver? || l.Drop? || l.Crash? || l.SendFails? || l.MemoryLost?
    ensures RefusalMinded(Apply(c, w, l).value)
  {
    var p := l.p;
    assert WriterOk(w.row, w.procs[p]) && Upright(w.row, w.procs[p]);
    hide RefusalMinded, OneWriter, TakesTurns;
    StaysMinded(w, Apply(c, w, l).value, p);
  }

  lemma MindedStays(c: Config, w: World, l: Label)
    requires CelerySafety.Inv(c, w) && OneWriter(w) && RefusalMinded(w) && c.celery
    requires Steadfast(w, l) && Apply(c, w, l).Some?
    ensures RefusalMinded(Apply(c, w, l).value)
  {
    hide RunStep, Proceed, Claim, Unsent, OneWriter, CelerySafety.Inv;
    if l.Duplicate? || l.LeaseEnds? {
      StillMinded(w, Apply(c, w, l).value);
    } else {
      var p := l.p;
      hide RefusalMinded;
      match l {
        case Run(_, x) => RunStaysMinded(c, w, p, x);
        case Go(_) => ProceedStaysMinded(c, w, p);
        case Decide(_, approved) => ClaimStaysMinded(w, p, approved, ApprovalResolved(approved));
        case Expire(_) => ClaimStaysMinded(w, p, false, ApprovalTimeout);
        case _ => TurnStaysMinded(c, w, l);
      }
    }
  }

  lemma StillMinded(w: World, v: World)
    requires RefusalMinded(w) && v.row == w.row && v.procs == w.procs
    ensures RefusalMinded(v)
  {
    hide Upright;
  }

  lemma CreatedMinded(c: Config, w0: World)
    requires Reaches(c, w0, [], w0)
    ensures RefusalMinded(w0)
  {
  }

  lemma {:induction false} SteadfastTakesTurns(c: Config, w0: World, ls: seq<Label>)
    requires Along(c, w0, ls, Steadfast)
    ensures Along(c, w0, ls, TakesTurns)
    decreases |ls|
  {
    hide Exec;
    if ls != [] {
      SteadfastTakesTurns(c, w0, ls[..|ls| - 1]);
    }
  }

  lemma {:induction false} RunsStayMinded(c: Config, w0: World, ls: seq<Label>, w: World)
    requires Reaches(c, w0, ls, w) && Along(c, w0, ls, Steadfast) && w.expiries == 0
    ensures RefusalMinded(w)
    decreases |ls|
  {
    hide Apply, RefusalMinded, OneWriter, LockHeld, Steadfast, CelerySafety.Inv, CeleryRuns.Runs, Serial;
    if ls == [] {
      CreatedMinded(c, w0);
    } else {
      var front, l := ls[..|ls| - 1], ls[|ls| - 1];
      var v := Exec(c, w0, front).value;
      CountersGrow(c, v, l);
      RunsStayMinded(c, w0, front, v);
      SteadfastTakesTurns(c, w0, front);
      RunsTakeTurns(c, w0, front, v);
      CelerySafety.ReachableInv(c, w0, front, v);
      MindedStays(c, v, l);
    }
  }

  /** A denied task is not left waiting: while the row still awaits approval with the decision no, some process is
      telling the decision or committing the denial. */
  lemma DenialIsMinded(c: Config, w0: World, ls: seq<Label>, w: World)
    requires Reaches(c, w0, ls, w) && Along(c, w0, ls, Steadfast) && w.expiries == 0 && Refused(w.row)
    ensures exists p :: 0 <= p < |w.procs| && Denies(w.procs[p].act)
  {
    hide Reaches, Along, Upright;
    RunsStayMinded(c, w0, ls, w);
  }
}
