/** What becomes of an ended task, in every run: exactly when its status stays, and how often the stream ends. */
module Endings {
  import opened Models
  import opened Controller
  import opened Invariants
  import opened InProcess
  import opened SystemInvariant
  import opened Terminal
  import Safety
  import Limits

  /** An ended task whose runner has not noticed yet was denied by the janitor. */
  ghost predicate Settling(w: World) {
    && (w.row.status.Terminal() ==> Over(w.ctl) || (w.row.status.Denied? && (Early(w.ctl) || w.ctl.Refused?)))
    && (Over(w.ctl) ==> w.row.status.Terminal())
    && (!w.janitor.Idle? ==> Early(w.ctl) || w.ctl.Refused? || (Over(w.ctl) && w.row.status.Denied?))
    && StatusesKept(w.log, w.row.status)
  }

  /** The runner of a task the janitor has denied can only deny it again. */
  lemma DeniedMoves(c: Config, k: Ctl, t: TaskRow, x: Input)
    requires (Early(k) || k.Refused?) && t.status.Denied? && Safety.DenialJustified(t) && t.steps != []
    requires Step(c, k, t, x).Some? && x != Polled(true)
    ensures var m := Step(c, k, t, x).value;
            m.task.status.Denied? && (Early(m.ctl) || m.ctl.Refused? || m.ctl.Finishing?)
  {
    hide ResumeSteps;
  }

  lemma EarlyMoves(c: Config, k: Ctl, t: TaskRow, x: Input)
    requires Early(k) && Step(c, k, t, x).Some?
    ensures !Over(Step(c, k, t, x).value.ctl) && !Step(c, k, t, x).value.ctl.Doomed?
  {
    hide ResumeSteps;
  }

  lemma RefusedMoves(c: Config, k: Ctl, t: TaskRow, x: Input)
    requires k.Refused? && Step(c, k, t, x).Some?
    ensures Step(c, k, t, x).value.ctl.Finishing? && Step(c, k, t, x).value.task.status.Denied?
  {
  }

  /** What the runner's own move means for the end of the task. */
  lemma RunSettlesMove(c: Config, w: World, x: Input)
    requires Inv(c, w) && Safety.DenialState(w) && Settling(w) && Apply(c, w, Run(x)).Some?
    requires !MemoryFault(w.ctl, x)
    ensures var v := Apply(c, w, Run(x)).value;
            && (v.row.status.Terminal() ==> Over(v.ctl) || (v.row.status.Denied? && (Early(v.ctl) || v.ctl.Refused?)))
            && (Over(v.ctl) ==> v.row.status.Terminal())
            && (w.row.status.Terminal() ==> v.row.status == w.row.status)
  {
    var v := Apply(c, w, Run(x)).value;
    assert Local(c, w.ctl, w.live) && w.live.status == w.row.status;
    assert w.live.risk.Some? ==> w.live.steps != [];
    assert x.Polled? ==> w.row.decision == Some(x.approved);
    RunEffect(c, w, x);
    hide Apply, Inv, Local, Sound, StatusesKept, Step;
    if w.row.status.Denied? && (Early(w.ctl) || w.ctl.Refused?) {
      DeniedMoves(c, w.ctl, w.live, x);
      if v.log == w.log {
        SilentStatus(c, w.ctl, w.live, x);
      }
    } else {
      RunEnding(c, w.ctl, w.live, x);
      NoMoveAfterDone(c, w.ctl, w.live, x);
    }
  }

  lemma RunSettles(c: Config, w: World, x: Input)
    requires Inv(c, w) && Safety.DenialState(w) && Settling(w) && Apply(c, w, Run(x)).Some?
    requires !MemoryFault(w.ctl, x)
    ensures Settling(Apply(c, w, Run(x)).value)
  {
    var v := Apply(c, w, Run(x)).value;
    ApplyKeepsInv(c, w, Run(x));
    assert JanitorState(v) && v.janitor == w.janitor && v.row.status == v.live.status;
    RunEffect(c, w, x);
    RunSettlesMove(c, w, x);
    hide Apply, Inv, Step, StatusesKept, Safety.DenialState;
    if Early(w.ctl) {
      EarlyMoves(c, w.ctl, w.live, x);
    } else if w.ctl.Refused? {
      RefusedMoves(c, w.ctl, w.live, x);
    } else if Over(w.ctl) {
      OverMoves(c, w.ctl, w.live, x);
    }
    KeptEnds(w.log, w.row.status);
    if v.log != w.log {
      KeptGrows(w.log, w.row.status, v.log[|w.log|]);
    }
  }

  lemma OutsiderSettles(c: Config, w: World, l: Label)
    requires Inv(c, w) && Settling(w) && !l.Run? && Apply(c, w, l).Some?
    ensures Settling(Apply(c, w, l).value)
  {
    var v := Apply(c, w, l).value;
    OutsiderEffect(c, w, l);
    KeptEnds(w.log, w.row.status);
    assert w.live.status == w.row.status;
    hide Local, Sound, ResumeSteps, StatusesKept;
    if v.log != w.log {
      KeptGrows(w.log, w.row.status, v.log[|w.log|]);
    }
  }

  lemma FaultsGrow(c: Config, w: World, l: Label)
    requires Apply(c, w, l).Some?
    ensures Apply(c, w, l).value.faults >= w.faults
    ensures Apply(c, w, l).value.faults == 0 && l.Run? ==> !MemoryFault(w.ctl, l.x)
  {
    hide Step;
  }

  // ------------------------------------------------------- after a memory fault

  /** No commit leaves a terminal status. */
  ghost predicate TerminalKept(log: seq<Commit>) {
    forall i, j :: 0 <= i <= j < |log| && log[i].row.status.Terminal() ==> log[j].row.status == log[i].row.status
  }

  /** After a memory fault the task is FAILED, or about to be. */
  ghost predicate Revoked(w: World) {
    && w.row.status.Terminal()
    && (if w.ctl.Doomed? then !w.row.status.Failed? && StatusesKept(w.log, w.row.status)
        else Over(w.ctl) && w.ctl != Finishing(false) && !TerminalKept(w.log))
    && (w.ctl.Doomed? && !w.janitor.Idle? ==> w.row.status.Denied?)
  }

  ghost predicate Fate(w: World) {
    && Safety.DenialState(w)
    && |w.log| > 0 && w.log[|w.log| - 1].row.status == w.row.status
    && (w.ctl == Finishing(false) ==> !w.row.status.Failed?)
    && (w.janitor.Stopped? ==> w.row.status.Terminal())
    && (if w.faults == 0 then Settling(w) else Revoked(w))
  }

  lemma FallenStaysFallen(log: seq<Commit>, log': seq<Commit>)
    requires !TerminalKept(log) && |log| <= |log'| && log'[..|log|] == log
    ensures !TerminalKept(log')
  {
    var i, j :| 0 <= i <= j < |log| && log[i].row.status.Terminal() && log[j].row.status != log[i].row.status;
    assert log'[i] == log[i] && log'[j] == log[j];
  }

  lemma Falls(log: seq<Commit>, m: Commit)
    requires |log| > 0 && log[|log| - 1].row.status.Terminal() && m.row.status != log[|log| - 1].row.status
    ensures !TerminalKept(log + [m])
  {
    var all := log + [m];
    assert all[|log| - 1] == log[|log| - 1] && all[|log|] == m;
  }

  /** The runner enters `Finishing(false)` only with the status it has just committed. */
  lemma FinishMoves(c: Config, k: Ctl, t: TaskRow, x: Input)
    requires Step(c, k, t, x).Some? && Step(c, k, t, x).value.ctl == Finishing(false)
    ensures !Step(c, k, t, x).value.task.status.Failed?
  {
    hide ResumeSteps, ResetSteps, PlanOf, FailureText, ValidProposal;
  }

  /** A memory fault leads to the handler with the status unchanged. */
  lemma FaultDooms(c: Config, w: World, x: Input)
    requires Inv(c, w) && Fate(w) && w.faults == 0 && MemoryFault(w.ctl, x) && Apply(c, w, Run(x)).Some?
    ensures Revoked(Apply(c, w, Run(x)).value)
  {
    var v := Apply(c, w, Run(x)).value;
    assert w.live.status == w.row.status && v.janitor == w.janitor;
    RunEffect(c, w, x);
    FaultCommits(c, w.live, x);
    hide Apply, Inv, Step, StatusesKept, Safety.DenialState;
    KeptEnds(w.log, w.row.status);
    KeptGrows(w.log, w.row.status, v.log[|w.log|]);
  }

  lemma FaultCommits(c: Config, t: TaskRow, x: Input)
    requires x.Raised? && Step(c, Finishing(false), t, x).Some?
    ensures var m := Step(c, Finishing(false), t, x).value;
            m.ctl.Doomed? && m.task.status == t.status && m.event.Some?
  {
  }

  lemma DoomedCommits(c: Config, t: TaskRow, x: Input)
    requires Step(c, Doomed, t, x).Some?
    ensures var m := Step(c, Doomed, t, x).value;
            m.ctl == Finishing(true) && m.task.status == TaskStatus.Failed && m.event.Some?
  {
  }

  lemma RunStaysRevoked(c: Config, w: World, x: Input)
    requires Inv(c, w) && Fate(w) && w.faults > 0 && Apply(c, w, Run(x)).Some?
    ensures Revoked(Apply(c, w, Run(x)).value)
  {
    var v := Apply(c, w, Run(x)).value;
    assert Linked(w.row, w.live);
    assert w.live.status == w.row.status && v.janitor == w.janitor;
    RunEffect(c, w, x);
    LinkedAfter(c, w, x);
    hide Apply, Inv, Step, StatusesKept, TerminalKept, Safety.DenialState, Linked;
    if w.ctl.Doomed? {
      DoomedCommits(c, w.live, x);
      Falls(w.log, v.log[|w.log|]);
    } else {
      OverMoves(c, w.ctl, w.live, x);
      NoMoveAfterDone(c, w.ctl, w.live, x);
      FallenStaysFallen(w.log, v.log);
    }
  }

  lemma LinkedAfter(c: Config, w: World, x: Input)
    requires Inv(c, w) && Apply(c, w, Run(x)).Some?
    ensures Apply(c, w, Run(x)).value.row.status == Apply(c, w, Run(x)).value.live.status
  {
    hide Apply, Local, Sound, ApprovalState, ReviewerState, JanitorState;
    ApplyKeepsInv(c, w, Run(x));
  }

  lemma OutsiderStaysRevoked(c: Config, w: World, l: Label)
    requires Inv(c, w) && Fate(w) && w.faults > 0 && !l.Run? && Apply(c, w, l).Some?
    ensures Revoked(Apply(c, w, l).value)
  {
    var v := Apply(c, w, l).value;
    OutsiderEffect(c, w, l);
    KeptEnds(w.log, w.row.status);
    assert w.live.status == w.row.status;
    hide Local, Sound, ResumeSteps, StatusesKept, TerminalKept, Safety.DenialState;
    if v.log != w.log {
      if w.ctl.Doomed? {
        KeptGrows(w.log, w.row.status, v.log[|w.log|]);
      } else {
        FallenStaysFallen(w.log, v.log);
      }
    }
  }

  lemma RunKeepsFate(c: Config, w: World, x: Input)
    requires Inv(c, w) && Fate(w) && Apply(c, w, Run(x)).Some?
    ensures Fate(Apply(c, w, Run(x)).value)
    ensures w.row.status.Terminal() ==> Apply(c, w, Run(x)).value.row.status.Terminal()
  {
    var v := Apply(c, w, Run(x)).value;
    assert v.janitor == w.janitor && v.faults == w.faults + if MemoryFault(w.ctl, x) then 1 else 0;
    Safety.RunKeepsDenial(c, w, x);
    RunEffect(c, w, x);
    LinkedAfter(c, w, x);
    assert w.live.status == w.row.status;
    hide Apply, Inv, Step, Safety.DenialState, Settling, Revoked;
    if v.ctl == Finishing(false) {
      FinishMoves(c, w.ctl, w.live, x);
    }
    if w.faults > 0 {
      RunStaysRevoked(c, w, x);
      RevokedIsTerminal(v);
    } else if MemoryFault(w.ctl, x) {
      FaultDooms(c, w, x);
      RevokedIsTerminal(v);
    } else {
      RunSettles(c, w, x);
      RunSettlesMove(c, w, x);
    }
  }

  lemma RevokedIsTerminal(w: World)
    requires Revoked(w)
    ensures w.row.status.Terminal()
  {
  }

  lemma OutsiderKeepsFate(c: Config, w: World, l: Label)
    requires Inv(c, w) && Fate(w) && !l.Run? && Apply(c, w, l).Some?
    ensures Fate(Apply(c, w, l).value)
    ensures w.row.status.Terminal() ==> Apply(c, w, l).value.row.status.Terminal()
  {
    var v := Apply(c, w, l).value;
    assert v.faults == w.faults && w.live.status == w.row.status;
    Safety.OutsiderKeepsDenial(c, w, l);
    OutsiderEffect(c, w, l);
    if w.faults > 0 {
      OutsiderStaysRevoked(c, w, l);
    } else {
      OutsiderSettles(c, w, l);
    }
    hide Local, Sound, Safety.DenialState, ResumeSteps, Settling, Revoked, ApprovalState;
  }

  lemma CreatedFate(c: Config, w0: World)
    requires Reaches(c, w0, [], w0)
    ensures Fate(w0)
  {
  }

  lemma ReachableFate(c: Config, w0: World, ls: seq<Label>, w: World)
    requires Reaches(c, w0, ls, w)
    ensures Fate(w)
  {
    hide Apply, Inv, Fate;
    var G := (l: Label) => true;
    var P := (v: World) => Fate(v);
    forall v, l | Inv(c, v) && P(v) && G(l) && Apply(c, v, l).Some? ensures P(Apply(c, v, l).value) {
      if l.Run? { RunKeepsFate(c, v, l.x); } else { OutsiderKeepsFate(c, v, l); }
    }
    CreatedFate(c, w0);
    Induct(c, G, P, w0, ls, w);
  }

  /** In every run, whoever denies: no commit leaves a terminal status exactly if no memory write has raised into the
      handler, or the handler has not yet stored its own status. */
  lemma TerminalAbsorbs(c: Config, w0: World, ls: seq<Label>, w: World)
    requires Reaches(c, w0, ls, w)
    ensures TerminalKept(w.log) <==> w.faults == 0 || w.ctl.Doomed?
  {
    ReachableFate(c, w0, ls, w);
    hide Reaches, Safety.DenialState;
  }

  lemma Raises(c: Config, w: World, message: string)
    requires w.ctl == Finishing(false) && w.announcing.None?
    ensures Apply(c, w, Run(Raised(false, message))).Some?
    ensures var v := Apply(c, w, Run(Raised(false, message))).value;
            v.ctl == Doomed && v.live.error == message && v.announcing.None?
  {
  }

  lemma Stores(c: Config, w: World)
    requires w.ctl == Doomed && w.announcing.None?
    ensures Apply(c, w, Run(Go)).Some?
    ensures var v := Apply(c, w, Run(Go)).value; v.row.status == TaskStatus.Failed && v.row.error == w.live.error
  {
  }

  /** From every world about to close a COMPLETED or DENIED task, a memory write that raises turns it FAILED. */
  lemma FaultRevokes(c: Config, w0: World, ls: seq<Label>, w: World, message: string)
    requires Reaches(c, w0, ls, w) && w.ctl == Finishing(false) && w.announcing.None?
    ensures var more := [Run(Raised(false, message)), Run(Go)];
            && Exec(c, w0, ls + more).Some?
            && Exec(c, w0, ls + more).value.row.status == TaskStatus.Failed
            && Exec(c, w0, ls + more).value.row.error == message
  {
    hide Exec, Apply;
    var one := ls + [Run(Raised(false, message))];
    ExecSnoc(c, w0, ls, Run(Raised(false, message)));
    Raises(c, w, message);
    ExecSnoc(c, w0, one, Run(Go));
    Stores(c, Exec(c, w0, one).value);
    assert one + [Run(Go)] == ls + [Run(Raised(false, message)), Run(Go)];
  }

  /** So a COMPLETED task can become FAILED. */
  lemma CompletedIsRevoked(c: Config) returns (w0: World, ls: seq<Label>, w: World, j: nat)
    ensures Reaches(c, w0, ls, w) && w.row.status == TaskStatus.Failed
    ensures j < |w.log| && w.log[j].row.status == TaskStatus.Completed
  {
    hide Exec, Apply;
    var v;
    w0, ls, v := Limits.CompletedIsReachable(c);
    Raises(c, v, "m");
    ls, v, j := Revoking(c, w0, ls, v);
    Stores(c, v);
    Limits.Reaching(c, w0, ls, v, Run(Go));
    w := Apply(c, v, Run(Go)).value;
    ReachableInv(c, w0, ls, v);
    LogGrows(c, v, Run(Go));
    ls := ls + [Run(Go)];
  }

  lemma LogGrows(c: Config, w: World, l: Label)
    requires Inv(c, w) && Apply(c, w, l).Some?
    ensures |w.log| <= |Apply(c, w, l).value.log| && Apply(c, w, l).value.log[..|w.log|] == w.log
  {
    hide Apply, Inv;
    if l.Run? {
      RunEffect(c, w, l.x);
    } else {
      OutsiderEffect(c, w, l);
    }
    hide Step;
  }

  lemma Revoking(c: Config, w0: World, ls: seq<Label>, w: World) returns (more: seq<Label>, v: World, j: nat)
    requires Reaches(c, w0, ls, w) && w.ctl == Finishing(false) && w.announcing.None?
    ensures Reaches(c, w0, more, v) && v.ctl.Doomed? && v.announcing.None?
    ensures j < |v.log| && v.log[j].row.status == w.row.status
  {
    hide Exec, Apply, Reaches;
    var l := Run(Raised(false, "m"));
    Raises(c, w, "m");
    Limits.Reaching(c, w0, ls, w, l);
    more, v := ls + [l], Apply(c, w, l).value;
    ReachableFate(c, w0, ls, w);
    ReachableInv(c, w0, ls, w);
    LogGrows(c, w, l);
    j := |w.log| - 1;
    assert v.log[j] == v.log[..|w.log|][j];
    hide Settling, Revoked, Safety.DenialState, Inv;
  }

  // -------------------------------------------------------------- stream ends

  /** How often the log ends the stream. */
  function Ends(log: seq<Commit>): nat
    decreases |log|
  {
    if log == [] then 0
    else Ends(log[..|log| - 1]) + if log[|log| - 1].event.StreamEnd? then 1 else 0
  }

  lemma EndsSnoc(log: seq<Commit>, m: Commit)
    ensures Ends(log + [m]) == Ends(log) + if m.event.StreamEnd? then 1 else 0
  {
    assert (log + [m])[..|log|] == log;
  }

  /** One end by the runner when it is done, one by the janitor when it has left an ended task. */
  function Parties(w: World): nat {
    (if w.ctl.Done? then 1 else 0) + if w.janitor.Idle? && w.row.status.Terminal() then 1 else 0
  }

  ghost predicate EndsBounded(w: World) {
    Fate(w) && Ends(w.log) <= Parties(w)
  }

  lemma StreamEndMoves(c: Config, k: Ctl, t: TaskRow, x: Input)
    requires Step(c, k, t, x).Some?
    ensures Step(c, k, t, x).value.event.Some? && Step(c, k, t, x).value.event.value.StreamEnd? ==>
              Step(c, k, t, x).value.ctl.Done?
  {
    hide ResumeSteps, ResetSteps, PlanOf, FailureText, ValidProposal;
  }

  lemma RunKeepsEnds(c: Config, w: World, x: Input)
    requires Inv(c, w) && EndsBounded(w) && Apply(c, w, Run(x)).Some?
    ensures EndsBounded(Apply(c, w, Run(x)).value)
  {
    var v := Apply(c, w, Run(x)).value;
    assert v.janitor == w.janitor;
    RunKeepsFate(c, w, x);
    RunEffect(c, w, x);
    NoMoveAfterDone(c, w.ctl, w.live, x);
    StreamEndMoves(c, w.ctl, w.live, x);
    hide Apply, Inv, Step, Fate, Ends;
    if v.log != w.log {
      EndsSnoc(w.log, v.log[|w.log|]);
    }
  }

  lemma DoneIsTerminal(w: World)
    requires Fate(w) && w.ctl.Done?
    ensures w.row.status.Terminal()
  {
  }

  /** Who but the runner may end the stream, and when the janitor starts. */
  lemma OutsiderEnds(c: Config, w: World, l: Label)
    requires !l.Run? && Apply(c, w, l).Some?
    ensures var v := Apply(c, w, l).value;
            && (l.EndStream? ==> w.janitor.Stopped? && v.janitor.Idle?)
            && (v.log != w.log && v.log[|w.log|].event.StreamEnd? ==> l.EndStream?)
            && (w.janitor.Idle? && !v.janitor.Idle? ==> w.row.status.AwaitingApproval?)
            && (l.Restart? ==> !w.row.status.Terminal())
  {
    hide Step;
  }

  lemma OutsiderKeepsEnds(c: Config, w: World, l: Label)
    requires Inv(c, w) && EndsBounded(w) && !l.Run? && Apply(c, w, l).Some?
    ensures EndsBounded(Apply(c, w, l).value)
  {
    var v := Apply(c, w, l).value;
    assert w.janitor.Stopped? ==> w.row.status.Terminal();
    hide Inv, Fate, Ends, Apply;
    OutsiderEnds(c, w, l);
    OutsiderKeepsFate(c, w, l);
    OutsiderEffect(c, w, l);
    if w.ctl.Done? {
      DoneIsTerminal(w);
    }
    if v.log != w.log {
      EndsSnoc(w.log, v.log[|w.log|]);
    }
  }

  /** In any run the stream ends at most twice, once for each party that gets to its end. */
  lemma StreamEndsAtMostTwice(c: Config, w0: World, ls: seq<Label>, w: World)
    requires Reaches(c, w0, ls, w)
    ensures Ends(w.log) <= 2 && (!w.row.status.Terminal() ==> Ends(w.log) == 0)
    ensures !w.ctl.Done? || !w.janitor.Idle? ==> Ends(w.log) <= 1
  {
    hide Apply, Inv, Fate;
    var G := (l: Label) => true;
    var P := (v: World) => EndsBounded(v);
    forall v, l | Inv(c, v) && P(v) && G(l) && Apply(c, v, l).Some? ensures P(Apply(c, v, l).value) {
      if l.Run? { RunKeepsEnds(c, v, l.x); } else { OutsiderKeepsEnds(c, v, l); }
    }
    CreatedFate(c, w0);
    EndsSnoc([], w0.log[0]);
    assert w0.log == [] + [w0.log[0]];
    Induct(c, G, P, w0, ls, w);
    if w.ctl.Done? {
      DoneIsTerminal(w);
    }
  }
}
