/** How a run ends, the stream's one end without a janitor, and providers that failed are not called again. */
module Terminal {
  import opened Models
  import opened Controller
  import opened Invariants
  import opened InProcess
  import opened SystemInvariant

  predicate Over(k: Ctl) {
    k.Finishing? || k.Done? || k.Aborted?
  }

  /** A run ends in the order: terminal status, `stream.end`; only a memory fault leads back to the handler. */
  lemma OverMoves(c: Config, k: Ctl, t: TaskRow, x: Input)
    requires (Over(k) || k.Doomed?) && Step(c, k, t, x).Some?
    ensures var m := Step(c, k, t, x).value;
            && (if k.Doomed? then m.ctl.Finishing? && m.task.status == TaskStatus.Failed
                else if MemoryFault(k, x) then m.ctl.Doomed?
                else m.ctl.Done? || (k == Finishing(true) && m.ctl.Aborted?))
            && (Over(k) ==> m.task.status == t.status)
            && (m.event.Some? && m.event.value.StreamEnd? <==> m.ctl.Done?)
            && (m.ctl.Done? ==> m.event == Some(StreamEnd(m.task.status)))
  {
  }

  predicate Earlier(m: Option<Move>) {
    m.Some? ==>
      && (m.value.task.status.Terminal() ==> m.value.ctl.Finishing?)
      && !m.value.ctl.Done? && !m.value.ctl.Aborted?
      && (m.value.event.Some? ==> !m.value.event.value.StreamEnd?)
  }

  lemma EarlierGate(c: Config, t: TaskRow)
    requires !t.status.Terminal()
    ensures Earlier(GateMove(c, t))
  {
  }

  lemma EarlierLoop(t: TaskRow, r: nat, i: nat)
    requires !t.status.Terminal()
    ensures Earlier(LoopMove(t, r, i))
  {
  }

  lemma EarlierAuto(c: Config, k: Ctl, t: TaskRow)
    requires !Working(k) && !k.Doomed? && !t.status.Terminal()
    ensures Earlier(AutoMove(c, k, t))
  {
    EarlierGate(c, t);
    if k.Loop? {
      EarlierLoop(t, k.round, k.i);
    }
    hide ResumeSteps, ResetSteps, FailureText, ReadyMove, AttemptMove, GateMove, LoopMove;
  }

  lemma EarlierWork(c: Config, k: Ctl, t: TaskRow, x: Input)
    requires Working(k) && !t.status.Terminal()
    ensures Earlier(Step(c, k, t, x))
  {
  }

  /** Before the end a terminal status is only ever set by the commit that starts the end. */
  lemma EarlierMoves(c: Config, k: Ctl, t: TaskRow, x: Input)
    requires !Over(k) && !k.Doomed? && !t.status.Terminal()
    ensures Earlier(Step(c, k, t, x))
  {
    if Working(k) {
      EarlierWork(c, k, t, x);
      hide Step, Earlier;
    } else {
      EarlierAuto(c, k, t);
      hide AutoMove, PlanOf, ValidProposal, CallMove;
    }
  }

  ghost predicate EndsOnce(w: World) {
    && |w.log| > 0
    && (forall j :: 0 <= j < |w.log| && w.log[j].event.StreamEnd? ==> j == |w.log| - 1 && w.ctl.Done?)
    && (w.ctl.Done? ==> w.log[|w.log| - 1].event == StreamEnd(w.row.status))
  }

  ghost predicate StatusesKept(log: seq<Commit>, s: TaskStatus) {
    && (forall i :: 0 <= i < |log| && log[i].row.status.Terminal() ==> log[i].row.status == s)
    && (forall i, j :: 0 <= i <= j < |log| && log[i].row.status.Terminal() ==> log[j].row.status == log[i].row.status)
  }

  ghost predicate Absorbs(w: World) {
    && w.janitor.Idle?
    && (w.row.status.Terminal() ==> Over(w.ctl) || (w.ctl.Doomed? && w.faults > 0))
    && (Over(w.ctl) ==> w.row.status.Terminal())
  }

  lemma KeptGrows(log: seq<Commit>, s: TaskStatus, m: Commit)
    requires StatusesKept(log, s) && (s.Terminal() ==> m.row.status == s)
    requires forall i :: 0 <= i < |log| && log[i].row.status.Terminal() ==> s.Terminal()
    ensures StatusesKept(log + [m], m.row.status)
  {
  }

  /** The part of a runner's transition that matters for the end of a run. */
  ghost predicate Ending(k: Ctl, s: TaskStatus, x: Input, k': Ctl, s': TaskStatus, e: Option<Event>) {
    && (if k.Doomed? then k'.Finishing? && s' == TaskStatus.Failed
        else if MemoryFault(k, x) then k'.Doomed? && s' == s
        else if Over(k) then (k'.Done? || (k == Finishing(true) && k'.Aborted?)) && s' == s
        else if s.Terminal() then true
        else (s'.Terminal() ==> k'.Finishing?) && !k'.Done? && !k'.Aborted?)
    && (e.Some? && e.value.StreamEnd? ==> k'.Done? || s.Terminal())
    && (k'.Done? ==> e == Some(StreamEnd(s')))
    && (e.None? ==> s' == s)
    && (Over(k') ==> s'.Terminal())
  }

  lemma RunEnding(c: Config, k: Ctl, t: TaskRow, x: Input)
    requires Local(c, k, t) && Step(c, k, t, x).Some? && (t.status.Terminal() ==> Over(k) || k.Doomed?)
    ensures var m := Step(c, k, t, x).value; Ending(k, t.status, x, m.ctl, m.task.status, m.event)
  {
    var m := Step(c, k, t, x).value;
    hide Step, Local;
    OverIsTerminal(c, k, t, x);
    if m.event.None? {
      SilentStatus(c, k, t, x);
    }
    if Over(k) || k.Doomed? {
      OverMoves(c, k, t, x);
    } else {
      EarlierMoves(c, k, t, x);
    }
  }

  lemma OverIsTerminal(c: Config, k: Ctl, t: TaskRow, x: Input)
    requires Local(c, k, t) && Step(c, k, t, x).Some?
    ensures var m := Step(c, k, t, x).value; Over(m.ctl) ==> m.task.status.Terminal()
  {
    hide Step, Sound;
    StepKeepsLocal(c, k, t, x);
  }

  lemma RunEnds(c: Config, w: World, x: Input)
    requires Inv(c, w) && Absorbs(w) && EndsOnce(w) && Apply(c, w, Run(x)).Some?
    ensures EndsOnce(Apply(c, w, Run(x)).value)
  {
    var v := Apply(c, w, Run(x)).value;
    assert Local(c, w.ctl, w.live) && w.live.status == w.row.status;
    RunEffect(c, w, x);
    RunEnding(c, w.ctl, w.live, x);
    NoMoveAfterDone(c, w.ctl, w.live, x);
    hide Apply, Step, Inv, Local;
  }

  lemma NoMoveAfterDone(c: Config, k: Ctl, t: TaskRow, x: Input)
    ensures k.Done? || k.Aborted? ==> Step(c, k, t, x).None?
  {
  }

  lemma RunAbsorbs(c: Config, w: World, x: Input)
    requires Inv(c, w) && Absorbs(w) && Apply(c, w, Run(x)).Some?
    ensures Absorbs(Apply(c, w, Run(x)).value)
  {
    var v := Apply(c, w, Run(x)).value;
    assert Local(c, w.ctl, w.live) && w.live.status == w.row.status;
    assert v.janitor == w.janitor && v.faults == w.faults + if MemoryFault(w.ctl, x) then 1 else 0;
    RunEffect(c, w, x);
    hide Apply, Inv, Local;
    RunEnding(c, w.ctl, w.live, x);
    NoMoveAfterDone(c, w.ctl, w.live, x);
    hide Step;
  }

  lemma KeptEnds(log: seq<Commit>, s: TaskStatus)
    ensures StatusesKept(log, s) ==>
              forall i :: 0 <= i < |log| && log[i].row.status.Terminal() ==> s.Terminal()
  {
  }

  lemma SilentStatus(c: Config, k: Ctl, t: TaskRow, x: Input)
    requires Step(c, k, t, x).Some? && Step(c, k, t, x).value.event.None?
    ensures Step(c, k, t, x).value.task.status == t.status
  {
    SilentMoves(c, k, t, x);
    hide Step;
  }

  lemma OutsiderAbsorbs(c: Config, w: World, l: Label)
    requires Inv(c, w) && Absorbs(w) && EndsOnce(w) && !l.Run? && !l.Claim? && Apply(c, w, l).Some?
    ensures var v := Apply(c, w, l).value; Absorbs(v) && EndsOnce(v)
  {
    assert w.live.status == w.row.status;
    hide Local, Sound, JanitorState, ResumeSteps, ApprovalState;
  }

  /** With the waiter as the only party that denies, `stream.end` is committed at most once and nothing follows it,
      whether or not the memory write of a finished task raises. */
  lemma StreamEndsOnce(c: Config, w0: World, ls: seq<Label>, w: World)
    requires Reaches(c, w0, ls, w) && Claim !in ls
    ensures forall j :: 0 <= j < |w.log| && w.log[j].event.StreamEnd? ==> j == |w.log| - 1
    ensures |w.log| > 0 && (w.ctl.Done? ==> w.log[|w.log| - 1].event == StreamEnd(w.row.status))
  {
    var G := (l: Label) => !l.Claim?;
    var P := (v: World) => Absorbs(v) && EndsOnce(v);
    forall v, l | Inv(c, v) && P(v) && G(l) && Apply(c, v, l).Some? ensures P(Apply(c, v, l).value) {
      if l.Run? { RunAbsorbs(c, v, l.x); RunEnds(c, v, l.x); } else { OutsiderAbsorbs(c, v, l); }
    }
    Induct(c, G, P, w0, ls, w);
    hide Apply, Inv;
  }

  // -------------------------------------------------------- provider failures

  /** The last provider failure is more recent than the last recovery. */
  function ProviderDown(log: seq<Commit>): bool
    decreases |log|
  {
    if log == [] then false
    else if log[|log| - 1].event.ProviderError? then true
    else if log[|log| - 1].event.TaskRecovered? then false
    else ProviderDown(log[..|log| - 1])
  }

  lemma ProviderSnoc(log: seq<Commit>, m: Commit)
    ensures ProviderDown(log + [m]) == (m.event.ProviderError? || (!m.event.TaskRecovered? && ProviderDown(log)))
  {
    assert (log + [m])[..|log|] == log;
  }

  predicate GivenUp(k: Ctl) {
    k.Unavailable? || k.Broken? || k.Failing? || k.Doomed? || Over(k)
  }

  ghost predicate QuietAfterFailure(log: seq<Commit>) {
    forall j :: 0 <= j < |log| && log[j].event.StepAttempted? ==> !ProviderDown(log[..j])
  }

  lemma GivenUpMoves(c: Config, k: Ctl, t: TaskRow, x: Input)
    requires GivenUp(k) && Step(c, k, t, x).Some?
    ensures var m := Step(c, k, t, x).value; GivenUp(m.ctl) && !(m.event.Some? && m.event.value.StepAttempted?)
  {
    hide FailureText;
  }

  lemma FailureMoves(c: Config, k: Ctl, t: TaskRow, x: Input)
    requires Step(c, k, t, x).Some? && Step(c, k, t, x).value.event.Some?
    ensures var m := Step(c, k, t, x).value;
            && (m.event.value.ProviderError? ==> GivenUp(m.ctl))
            && !m.event.value.TaskRecovered?
  {
    hide ResumeSteps, ResetSteps, PlanOf, FailureText, ValidProposal;
  }

  lemma QuietGrows(log: seq<Commit>, m: Commit)
    requires QuietAfterFailure(log) && (m.event.StepAttempted? ==> !ProviderDown(log))
    ensures QuietAfterFailure(log + [m])
  {
    hide ProviderDown;
    assert (log + [m])[..|log|] == log;
    assert forall j :: 0 <= j < |log| ==> (log + [m])[..j] == log[..j];
  }

  lemma FailureStays(c: Config, w: World, l: Label)
    requires Inv(c, w) && QuietAfterFailure(w.log) && (ProviderDown(w.log) ==> GivenUp(w.ctl)) && Apply(c, w, l).Some?
    ensures var v := Apply(c, w, l).value; QuietAfterFailure(v.log) && (ProviderDown(v.log) ==> GivenUp(v.ctl))
  {
    var v := Apply(c, w, l).value;
    hide Apply, Step, Inv, ProviderDown;
    if l.Run? {
      RunEffect(c, w, l.x);
      if v.log != w.log {
        FailureMoves(c, w.ctl, w.live, l.x);
      }
      if GivenUp(w.ctl) {
        GivenUpMoves(c, w.ctl, w.live, l.x);
      }
    } else {
      OutsiderEffect(c, w, l);
    }
    hide QuietAfterFailure;
    if v.log != w.log {
      ProviderSnoc(w.log, v.log[|w.log|]);
      QuietGrows(w.log, v.log[|w.log|]);
    }
  }

  /** After a provider error nothing is attempted until a restart recovers the task. */
  lemma ProviderErrorStops(c: Config, w0: World, ls: seq<Label>, w: World)
    requires Reaches(c, w0, ls, w)
    ensures QuietAfterFailure(w.log)
  {
    var G := (l: Label) => true;
    var P := (v: World) => QuietAfterFailure(v.log) && (ProviderDown(v.log) ==> GivenUp(v.ctl));
    forall v, l | Inv(c, v) && P(v) && G(l) && Apply(c, v, l).Some? ensures P(Apply(c, v, l).value) {
      FailureStays(c, v, l);
    }
    ProviderSnoc([], w0.log[0]);
    assert w0.log == [] + [w0.log[0]] && w0.log[..0] == [];
    Induct(c, G, P, w0, ls, w);
  }
}
