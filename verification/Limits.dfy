/** What the controller does not promise: runs on which a stronger reading of it fails. */
module Limits {
  import opened Models
  import opened Controller
  import opened Invariants
  import opened InProcess
  import opened SystemInvariant

  // -------------------------------------------------------------- composing

  lemma {:induction false} ExecConcat(c: Config, w: World, a: seq<Label>, b: seq<Label>)
    requires Exec(c, w, a).Some?
    ensures Exec(c, w, a + b) == Exec(c, Exec(c, w, a).value, b)
    decreases |b|
  {
    hide Apply;
    if b == [] {
      assert a + b == a;
    } else {
      var front := b[..|b| - 1];
      ExecConcat(c, w, a, front);
      assert (a + b)[..|a + b| - 1] == a + front;
    }
  }

  lemma ExecOne(c: Config, w: World, l: Label)
    ensures Exec(c, w, [l]) == Apply(c, w, l)
  {
    hide Apply;
    assert [l][..0] == [];
  }

  /** Extends a run by one label. */
  lemma Extend(c: Config, w0: World, ls: seq<Label>, w: World, l: Label)
    requires Exec(c, w0, ls) == Some(w)
    ensures Exec(c, w0, ls + [l]) == Apply(c, w, l)
  {
    ExecSnoc(c, w0, ls, l);
  }

  /** n steps of the runner that wait for nothing. */
  function Steps(n: nat): (ls: seq<Label>)
    ensures |ls| == n
  {
    if n == 0 then [] else Steps(n - 1) + [Run(Go)]
  }

  lemma StepsSnoc(c: Config, w: World, n: nat)
    requires Exec(c, w, Steps(n)).Some?
    ensures Exec(c, w, Steps(n + 1)) == Apply(c, Exec(c, w, Steps(n)).value, Run(Go))
  {
    ExecSnoc(c, w, Steps(n), Run(Go));
  }

  lemma PassOne(c: Config, w: World, r: nat, i: nat)
    requires w.ctl == Loop(r, i) && w.announcing.None? && i < |w.live.steps| && w.live.steps[i].status.Completed?
    ensures Apply(c, w, Run(Go)) == Some(w.(ctl := Loop(r, i + 1)))
  {
  }

  lemma NoSteps(c: Config, w: World)
    ensures Exec(c, w, Steps(0)) == Some(w)
  {
    assert Steps(0) == [];
  }

  /** A round passes over completed steps without a commit. */
  lemma {:induction false} Passes(c: Config, w: World, r: nat, i: nat, n: nat)
    requires w.ctl == Loop(r, i) && w.announcing.None? && i + n <= |w.live.steps|
    requires forall j :: i <= j < i + n ==> w.live.steps[j].status.Completed?
    ensures Exec(c, w, Steps(n)) == Some(w.(ctl := Loop(r, i + n)))
    decreases n
  {
    hide Apply, Exec, Steps, Step;
    if n > 0 {
      Passes(c, w, r, i, n - 1);
      PassOne(c, w.(ctl := Loop(r, i + n - 1)), r, i + n - 1);
      StepsSnoc(c, w, n - 1);
    } else {
      NoSteps(c, w);
    }
  }

  /** The events of this commit concern no step. */
  predicate Idle(log: seq<Commit>, from: nat) {
    from <= |log| && forall n :: from <= n < |log| ==> !log[n].event.StepAttempted? && !log[n].event.StepCompleted?
  }

  lemma Restarts(c: Config, w: World)
    requires !c.celery && !w.row.status.Terminal()
    ensures Apply(c, w, Restart).Some?
    ensures var v := Apply(c, w, Restart).value;
            && v.ctl == Start && v.live == w.row && v.row == w.row && v.announcing.None?
            && v.restarts == w.restarts + 1
            && v.log == w.log + [Commit(TaskRecovered(w.row.status), w.row)]
  {
  }

  lemma Enters(c: Config, w: World)
    requires w.ctl == Start && w.announcing.None? && w.live.risk.Some? && w.live.steps != []
    ensures Apply(c, w, Run(Go)) == Some(w.(ctl := Gate, live := w.live.(steps := ResumeSteps(w.live.steps))))
  {
    hide ResumeSteps;
  }

  lemma Opens(c: Config, w: World)
    requires w.ctl == Gate && w.announcing.None? && Permitted(w.live)
    ensures Apply(c, w, Run(Go)).Some?
    ensures var v := Apply(c, w, Run(Go)).value;
            && v.ctl == Cleared && v.live == w.live && v.announcing.None? && v.restarts == w.restarts
            && (v.log == w.log || v.log == w.log + [Commit(ApprovalAuto, w.live)])
  {
  }

  lemma Launches(c: Config, w: World)
    requires w.ctl == Cleared && w.announcing.None? && w.live.rework < MAX_ROUNDS
    ensures Apply(c, w, Run(Go)).Some?
    ensures var v := Apply(c, w, Run(Go)).value;
            && v.ctl == Loop(w.live.rework + 1, 0)
            && v.live == w.live.(status := TaskStatus.Running) && v.row == v.live
            && v.announcing.None? && v.restarts == w.restarts
            && v.log == w.log + [Commit(StatusChanged(TaskStatus.Running), v.live)]
  {
  }

  lemma ThreeSteps(c: Config, a: World, b: World, d: World, e: World)
    requires Apply(c, a, Run(Go)) == Some(b) && Apply(c, b, Run(Go)) == Some(d) && Apply(c, d, Run(Go)) == Some(e)
    ensures Exec(c, a, Steps(3)) == Some(e)
  {
    hide Apply, Exec, Steps;
    NoSteps(c, a);
    StepsSnoc(c, a, 0);
    StepsSnoc(c, a, 1);
    StepsSnoc(c, a, 2);
  }

  /** What a resumed run has done when it reaches the first step of its round. */
  ghost predicate Resumed(row: TaskRow, log: seq<Commit>, v: World) {
    && v.ctl == Loop(row.rework + 1, 0)
    && v.live == row.(steps := ResumeSteps(row.steps), status := TaskStatus.Running)
    && v.row == v.live
    && v.announcing.None?
    && |log| <= |v.log| && v.log[..|log|] == log && Idle(v.log, |log|)
  }

  lemma Reopens(c: Config, a: World)
    requires a.ctl == Start && a.announcing.None? && Permitted(a.live)
    requires a.live.steps != [] && a.live.rework < MAX_ROUNDS
    ensures Exec(c, a, Steps(3)).Some?
    ensures var v := Exec(c, a, Steps(3)).value; Resumed(a.live, a.log, v) && v.restarts == a.restarts
  {
    hide Apply, Exec, ResumeSteps, Step, Steps;
    Enters(c, a);
    var b := Apply(c, a, Run(Go)).value;
    Opens(c, b);
    var d := Apply(c, b, Run(Go)).value;
    Launches(c, d);
    ThreeSteps(c, a, b, d, Apply(c, d, Run(Go)).value);
  }

  lemma RecoveryIsIdle(row: TaskRow, log: seq<Commit>, m: Commit, v: World)
    requires Resumed(row, log + [m], v) && m.event.TaskRecovered?
    ensures Resumed(row, log, v)
  {
    hide ResumeSteps;
    assert v.log[|log|] == v.log[..|log| + 1][|log|] == m;
    assert v.log[..|log|] == v.log[..|log| + 1][..|log|] == log;
  }

  /** A permitted task that crashes resumes, in three steps, at the first step of its round. */
  lemma Resumes(c: Config, w: World)
    requires !c.celery && !w.row.status.Terminal() && Sound(w.row) && Permitted(w.row)
    ensures Exec(c, w, [Restart] + Steps(3)).Some?
    ensures var v := Exec(c, w, [Restart] + Steps(3)).value;
            Resumed(w.row, w.log, v) && v.restarts == w.restarts + 1
  {
    assert w.row.steps != [] && w.row.rework < MAX_ROUNDS;
    hide Apply, Exec, Sound, ResumeSteps, Step, Steps, Permitted;
    ExecOne(c, w, Restart);
    Restarts(c, w);
    var a := Apply(c, w, Restart).value;
    Reopens(c, a);
    ExecConcat(c, w, [Restart], Steps(3));
    hide Resumed;
    RecoveryIsIdle(w.row, w.log, Commit(TaskRecovered(w.row.status), w.row), Exec(c, a, Steps(3)).value);
  }

  // ------------------------------------------------------------- rework gap

  lemma DoneIsResumed(steps: seq<StepRow>)
    ensures AllDone(steps) ==> ResumeSteps(steps) == steps
    ensures AllDone(ResumeSteps(steps)) ==> ResumeSteps(steps) == steps
  {
    var u := ResumeSteps(steps);
    assert AllDone(steps) ==> forall i :: 0 <= i < |u| ==> u[i] == steps[i];
    assert forall i :: 0 <= i < |u| ==> (u[i].status.Completed? <==> steps[i].status.Completed?);
    assert AllDone(u) ==> forall i :: 0 <= i < |u| ==> u[i] == steps[i];
  }

  lemma VerdictFails(c: Config, w: World)
    requires w.ctl == Loop(2, |w.live.steps|) && w.announcing.None? && w.live.verified == Some(false)
    ensures Apply(c, w, Run(Go)).Some?
    ensures var v := Apply(c, w, Run(Go)).value;
            && v.ctl == Doomed
            && v.live.error == "RuntimeError: Verification failed after rework: " + w.live.verification
            && v.log == w.log + [Commit(TaskFailed(v.live.error), v.live)]
  {
    var m := LoopMove(w.live, 2, |w.live.steps|);
    assert Step(c, w.ctl, w.live, Go) == m;
    hide Step;
  }

  /** The steps of a run that resumes a task whose last round is already used up. */
  function GapRun(n: nat): seq<Label> {
    [Restart] + Steps(3) + Steps(n) + [Run(Go)]
  }

  lemma GapFails(c: Config, w: World)
    requires !c.celery && !w.row.status.Terminal() && Sound(w.row) && Permitted(w.row)
    requires w.row.rework == 1 && w.row.verified == Some(false) && AllDone(w.row.steps)
    ensures Exec(c, w, GapRun(|w.row.steps|)).Some?
    ensures var v := Exec(c, w, GapRun(|w.row.steps|)).value;
            && v.ctl == Doomed
            && v.live.error == "RuntimeError: Verification failed after rework: " + w.row.verification
            && |w.log| <= |v.log| && v.log[..|w.log|] == w.log && Idle(v.log, |w.log|)
  {
    DoneIsResumed(w.row.steps);
    hide Apply, Exec, Sound, ResumeSteps;
    var n := |w.row.steps|;
    Resumes(c, w);
    var a := Exec(c, w, [Restart] + Steps(3)).value;
    Passes(c, a, 2, 0, n);
    var b := a.(ctl := Loop(2, n));
    VerdictFails(c, b);
    ExecConcat(c, w, [Restart] + Steps(3), Steps(n));
    Extend(c, w, [Restart] + Steps(3) + Steps(n), b, Run(Go));
  }

  /** A crash between `rework.started` and the reset loses the rework: the resumed run fails verification
      at once, without attempting or completing a single step. */
  lemma CrashLosesRework(c: Config, w0: World, ls: seq<Label>, w: World)
    requires Reaches(c, w0, ls, w) && !c.celery && w.ctl.Rework?
    ensures Exec(c, w0, ls + GapRun(|w.row.steps|)).Some?
    ensures var v := Exec(c, w0, ls + GapRun(|w.row.steps|)).value;
            && v.ctl == Doomed
            && v.live.error == "RuntimeError: Verification failed after rework: " + w.row.verification
            && |w.log| <= |v.log| && v.log[..|w.log|] == w.log && Idle(v.log, |w.log|)
  {
    ReachableInv(c, w0, ls, w);
    assert Local(c, w.ctl, w.live) && Linked(w.row, w.live) && ApprovalState(w);
    DoneIsResumed(w.row.steps);
    hide Apply, Inv, ReviewerState, JanitorState, ResumeSteps, Exec;
    assert w.row == w.live;
    GapFails(c, w);
    ExecConcat(c, w0, ls, GapRun(|w.row.steps|));
  }

  /** Without the crash the reset makes every step pending again. */
  lemma ReworkRedoesAll(c: Config, w0: World, ls: seq<Label>, w: World)
    requires Reaches(c, w0, ls, w) && w.ctl.Rework?
    ensures Apply(c, w, Run(Go)).Some?
    ensures var v := Apply(c, w, Run(Go)).value;
            v.ctl == Loop(2, 0) && forall i :: 0 <= i < |v.live.steps| ==> v.live.steps[i].status.Pending?
  {
    ReachableInv(c, w0, ls, w);
  }

  // ------------------------------------------------------------ retry budget

  lemma Takes(c: Config, w: World, r: nat, i: nat)
    requires w.ctl == Loop(r, i) && w.announcing.None? && i < |w.live.steps| && w.live.steps[i].status.Pending?
    requires w.live.status.Running?
    ensures Apply(c, w, Run(Go)).Some?
    ensures var v := Apply(c, w, Run(Go)).value;
            v.ctl == Ready(r, i) && v.live.steps == w.live.steps && v.announcing.None? && v.restarts == w.restarts
  {
  }

  lemma Begins(c: Config, w: World, r: nat, i: nat)
    requires w.ctl == Ready(r, i) && w.announcing.None? && i < |w.live.steps| && w.live.steps[i].agent in COMMITTEE
    ensures Apply(c, w, Run(Go)).Some?
    ensures var v := Apply(c, w, Run(Go)).value;
            && v.ctl == Attempt(r, i, 1) && v.announcing.None? && v.restarts == w.restarts
            && v.live.steps == w.live.steps[i := w.live.steps[i].(status := StepStatus.Running)]
  {
  }

  lemma Tries(c: Config, w: World, r: nat, i: nat, a: nat)
    requires w.ctl == Attempt(r, i, a) && w.announcing.None? && i < |w.live.steps|
    ensures Apply(c, w, Run(Go)).Some?
    ensures var v := Apply(c, w, Run(Go)).value;
            && v.ctl == Calling(r, i, a) && v.restarts == w.restarts && i < |v.live.steps| && v.row == v.live
            && v.live.steps[i].attempts == w.live.steps[i].attempts + 1
  {
  }

  lemma ResumedStep(steps: seq<StepRow>, i: nat)
    requires i < |steps| && Front(steps, i) && steps[i].status.Running?
    ensures ResumeSteps(steps)[i] == steps[i].(status := Pending, error := "")
    ensures forall n :: 0 <= n < i ==> ResumeSteps(steps)[n].status.Completed?
  {
  }

  lemma CallsAgain(c: Config, b: World, r: nat, i: nat)
    requires b.ctl == Loop(r, i) && b.announcing.None? && i < |b.live.steps| && b.live.steps[i].status.Pending?
    requires b.live.status.Running? && b.live.steps[i].agent in COMMITTEE
    ensures Exec(c, b, Steps(3)).Some?
    ensures var v := Exec(c, b, Steps(3)).value;
            && v.ctl == Calling(r, i, 1) && v.restarts == b.restarts
            && i < |v.row.steps| && v.row.steps[i].attempts == b.live.steps[i].attempts + 1
  {
    hide Apply, Exec, Step, Steps;
    Takes(c, b, r, i);
    var d := Apply(c, b, Run(Go)).value;
    Begins(c, d, r, i);
    var e := Apply(c, d, Run(Go)).value;
    Tries(c, e, r, i, 1);
    ThreeSteps(c, b, d, e, Apply(c, e, Run(Go)).value);
  }

  lemma PassesAndCalls(c: Config, a: World, r: nat, i: nat)
    requires a.ctl == Loop(r, 0) && a.announcing.None? && i < |a.live.steps| && a.live.steps[i].status.Pending?
    requires a.live.status.Running? && a.live.steps[i].agent in COMMITTEE
    requires forall n :: 0 <= n < i ==> a.live.steps[n].status.Completed?
    ensures Exec(c, a, Steps(i) + Steps(3)).Some?
    ensures var v := Exec(c, a, Steps(i) + Steps(3)).value;
            && v.ctl == Calling(r, i, 1) && v.restarts == a.restarts
            && i < |v.row.steps| && v.row.steps[i].attempts == a.live.steps[i].attempts + 1
  {
    hide Apply, Exec, Step, Steps;
    Passes(c, a, r, 0, i);
    CallsAgain(c, a.(ctl := Loop(r, i)), r, i);
    ExecConcat(c, a, Steps(i), Steps(3));
  }

  function RetryRun(i: nat): seq<Label> {
    ([Restart] + Steps(3)) + (Steps(i) + Steps(3))
  }

  lemma RetryRefills(c: Config, w: World, i: nat)
    requires !c.celery && !w.row.status.Terminal() && Sound(w.row) && Permitted(w.row)
    requires i < |w.row.steps| && Front(w.row.steps, i) && w.row.steps[i].status.Running?
    requires w.row.steps[i].agent in COMMITTEE
    ensures Exec(c, w, RetryRun(i)).Some?
    ensures var v := Exec(c, w, RetryRun(i)).value;
            && v.ctl == Calling(w.row.rework + 1, i, 1) && v.restarts == w.restarts + 1
            && i < |v.row.steps| && v.row.steps[i].attempts == w.row.steps[i].attempts + 1
  {
    hide Apply, Exec, Sound, Step, Steps, Permitted, Idle;
    Resumes(c, w);
    ResumedStep(w.row.steps, i);
    hide Front, ResumeSteps;
    var a := Exec(c, w, [Restart] + Steps(3)).value;
    PassesAndCalls(c, a, w.row.rework + 1, i);
    ExecConcat(c, w, [Restart] + Steps(3), Steps(i) + Steps(3));
  }

  /** A crash during an agent call, however many of the retries were used up, hands the step a fresh
      budget: the resumed run reaches the same call as attempt 1 with the counter one higher. */
  lemma CrashRefillsRetries(c: Config, w0: World, ls: seq<Label>, w: World)
    requires Reaches(c, w0, ls, w) && !c.celery && w.ctl.Calling?
    ensures var i := w.ctl.i;
            && i < |w.row.steps|
            && Exec(c, w0, ls + RetryRun(i)).Some?
            && var v := Exec(c, w0, ls + RetryRun(i)).value;
            && v.ctl == Calling(w.ctl.round, i, 1) && v.restarts == w.restarts + 1
            && i < |v.row.steps| && v.row.steps[i].attempts == w.row.steps[i].attempts + 1
  {
    ReachableInv(c, w0, ls, w);
    assert Local(c, w.ctl, w.live) && Linked(w.row, w.live) && ApprovalState(w);
    hide Apply, Inv, ReviewerState, JanitorState, Exec;
    var i := w.ctl.i;
    assert !ResumeSteps(w.row.steps)[i].status.Running?;
    assert w.row == w.live;
    RetryRefills(c, w, i);
    ExecConcat(c, w0, ls, RetryRun(i));
  }

  // --------------------------------------------------------- approval races

  /** A stored decision is honoured by the next poll, and overridden if the deadline passes first: the
      timeout neither polls again nor compares. */
  lemma DeadlineOverrides(c: Config, w0: World, ls: seq<Label>, w: World, approved: bool)
    requires Reaches(c, w0, ls, w) && w.ctl.Waiting? && w.announcing.None? && w.row.decision == Some(approved)
    ensures Apply(c, w, Run(Polled(approved))).Some?
    ensures Apply(c, w, Run(Polled(approved))).value.live.decision == Some(approved)
    ensures Apply(c, w, Run(DeadlinePassed)).Some?
    ensures var v := Apply(c, w, Run(DeadlinePassed)).value;
            && v.row.decision == Some(false)
            && Apply(c, v, Run(Go)).Some? && Apply(c, v, Run(Go)).value.row.status.Denied?
  {
  }

  /** One more step of the runner on an undisturbed run. */
  lemma Onward(c: Config, w0: World, ls: seq<Label>, w: World, x: Input) returns (more: seq<Label>, v: World)
    requires Reaches(c, w0, ls, w) && w.announcing.None? && w.janitor.Idle? && !x.Polled?
    requires Step(c, w.ctl, w.live, x).Some? && Step(c, w.ctl, w.live, x).value.event.Some?
    ensures Reaches(c, w0, more, v) && v.announcing.None? && v.janitor.Idle? && v.restarts == w.restarts
    ensures v.ctl == Step(c, w.ctl, w.live, x).value.ctl && v.live == Step(c, w.ctl, w.live, x).value.task
    ensures v.row == v.live
  {
    hide Step, Exec;
    Extend(c, w0, ls, w, Run(x));
    more, v := ls + [Run(x)], Apply(c, w, Run(x)).value;
  }

  lemma PlannedIsReachable(c: Config) returns (w0: World, ls: seq<Label>, w: World)
    ensures Reaches(c, w0, ls, w) && w.ctl.Planned? && w.announcing.None? && w.janitor.Idle?
    ensures !w.live.status.AwaitingApproval? && !w.live.autoApprove && w.live.decision.None?
    ensures w.restarts == 0 && w.live.rework == 0
    ensures w.live.steps == [NewStep("1", PlannedStep("a", "planner", "")), NewStep("2", VERIFIER_STEP)]
  {
    w0 := Created("t", "g", "d", false);
    assert Reaches(c, w0, [], w0);
    var items := [PlannedStep("a", "planner", "")];
    var ids := ["1", "2"];
    assert ids[0] != ids[1];
    assert PlanOf(items, ids) == [NewStep("1", items[0]), NewStep("2", VERIFIER_STEP)];
    hide Reaches, Apply, Exec, PlanOf;
    ls, w := Onward(c, w0, [], w0, Go);
    ls, w := Onward(c, w0, ls, w, Go);
    ls, w := Onward(c, w0, ls, w, Proposed(items, ids));
  }

  /** A reachable world in which the runner waits and nobody has decided. */
  lemma WaitingIsReachable(c: Config) returns (w0: World, ls: seq<Label>, w: World)
    requires !c.celery
    ensures Reaches(c, w0, ls, w) && w.ctl.Waiting? && w.announcing.None? && w.janitor.Idle?
    ensures Undecided(w.row) && w.row == w.live
  {
    w0, ls, w := PlannedIsReachable(c);
    hide Reaches, Apply, Exec, PlanOf;
    ls, w := Onward(c, w0, ls, w, Go);
    ls, w := Onward(c, w0, ls, w, Go);
    ls, w := Onward(c, w0, ls, w, Assessed(Risk(80, High, [], true, 80, 0)));
    ls, w := Onward(c, w0, ls, w, Go);
  }

  lemma Reaching(c: Config, w0: World, ls: seq<Label>, w: World, l: Label)
    requires Reaches(c, w0, ls, w) && Apply(c, w, l).Some?
    ensures Reaches(c, w0, ls + [l], Apply(c, w, l).value)
  {
    hide Apply;
    Extend(c, w0, ls, w, l);
  }

  /** A reachable world in which the runner waits although an approval is stored and announced. */
  lemma ApprovedIsReachable(c: Config) returns (w0: World, ls: seq<Label>, w: World)
    requires !c.celery
    ensures Reaches(c, w0, ls, w) && w.ctl.Waiting? && w.announcing.None? && Decide(true) in ls
    ensures w.row.decision == Some(true)
    ensures |w.log| > 0 && w.log[|w.log| - 1].event == ApprovalResolved(true)
  {
    w0, ls, w := WaitingIsReachable(c);
    hide Reaches;
    var a := Apply(c, w, Decide(true)).value;
    Reaching(c, w0, ls, w, Decide(true));
    Reaching(c, w0, ls + [Decide(true)], a, Announce);
    ls, w := ls + [Decide(true)] + [Announce], Apply(c, a, Announce).value;
  }

  /** An approval that was stored and announced is lost to the deadline. */
  lemma ApprovalLostToDeadline(c: Config) returns (w0: World, ls: seq<Label>, w: World, at: nat)
    requires !c.celery
    ensures Reaches(c, w0, ls, w) && Decide(true) in ls && w.row.decision == Some(false)
    ensures at < |w.log| && w.log[at].event == ApprovalResolved(true)
  {
    w0, ls, w := ApprovedIsReachable(c);
    hide Reaches;
    at := |w.log| - 1;
    Reaching(c, w0, ls, w, Run(DeadlinePassed));
    ls, w := ls + [Run(DeadlinePassed)], Apply(c, w, Run(DeadlinePassed)).value;
  }

  /** The janitor denies and ends the stream while the runner still waits. */
  lemma JanitorDenies(c: Config) returns (w0: World, ls: seq<Label>, w: World)
    requires !c.celery
    ensures Reaches(c, w0, ls, w) && w.ctl.Waiting? && w.announcing.None? && w.row.decision == Some(false)
    ensures |w.log| > 0 && w.log[|w.log| - 1].event.StreamEnd?
  {
    w0, ls, w := WaitingIsReachable(c);
    hide Reaches;
    Reaching(c, w0, ls, w, Claim);
    var a := Apply(c, w, Claim).value;
    Reaching(c, w0, ls + [Claim], a, Expire);
    var b := Apply(c, a, Expire).value;
    Reaching(c, w0, ls + [Claim] + [Expire], b, Stop);
    var d := Apply(c, b, Stop).value;
    Reaching(c, w0, ls + [Claim] + [Expire] + [Stop], d, EndStream);
    ls, w := ls + [Claim] + [Expire] + [Stop] + [EndStream], Apply(c, d, EndStream).value;
  }

  lemma WaiterRefuses(c: Config, w: World)
    requires w.ctl.Waiting? && w.announcing.None? && w.row.decision == Some(false)
    ensures Apply(c, w, Run(Polled(false))).Some?
    ensures var v := Apply(c, w, Run(Polled(false))).value; v.ctl.Refused? && v.announcing.None? && v.log == w.log
  {
  }

  lemma WaiterDenies(c: Config, w: World)
    requires w.ctl.Refused? && w.announcing.None?
    ensures Apply(c, w, Run(Go)).Some?
    ensures var v := Apply(c, w, Run(Go)).value;
            v.ctl.Finishing? && v.announcing.None? && |v.log| == |w.log| + 1 && w.log == v.log[..|w.log|]
  {
  }

  lemma WaiterEnds(c: Config, w: World)
    requires w.ctl.Finishing? && w.announcing.None?
    ensures Apply(c, w, Run(Go)).Some?
    ensures var v := Apply(c, w, Run(Go)).value;
            |v.log| == |w.log| + 1 && w.log == v.log[..|w.log|] && v.log[|w.log|].event.StreamEnd?
  {
  }

  /** With the janitor as a second denying party, `stream.end` is committed twice. */
  lemma TwoDenials(c: Config) returns (w0: World, ls: seq<Label>, w: World, i: nat, j: nat)
    requires !c.celery
    ensures Reaches(c, w0, ls, w) && i < j < |w.log| && w.log[i].event.StreamEnd? && w.log[j].event.StreamEnd?
  {
    w0, ls, w := JanitorDenies(c);
    hide Reaches, Apply;
    i := |w.log| - 1;
    WaiterRefuses(c, w);
    Reaching(c, w0, ls, w, Run(Polled(false)));
    ls, w := ls + [Run(Polled(false))], Apply(c, w, Run(Polled(false))).value;
    WaiterDenies(c, w);
    Reaching(c, w0, ls, w, Run(Go));
    ls, w := ls + [Run(Go)], Apply(c, w, Run(Go)).value;
    WaiterEnds(c, w);
    Reaching(c, w0, ls, w, Run(Go));
    ls, w := ls + [Run(Go)], Apply(c, w, Run(Go)).value;
    j := |w.log| - 1;
  }

  // ------------------------------------------------------ unbounded attempts

  /** A reachable world in which the runner is about to look at the first step of an unrestricted plan. */
  lemma LoopIsReachable(c: Config) returns (w0: World, ls: seq<Label>, w: World)
    ensures Reaches(c, w0, ls, w) && w.ctl == Loop(1, 0) && w.announcing.None? && w.janitor.Idle? && w.restarts == 0
    ensures w.live.steps == [NewStep("1", PlannedStep("a", "planner", "")), NewStep("2", VERIFIER_STEP)]
    ensures w.live.status.Running? && w.live.rework == 0 && w.row == w.live
  {
    w0, ls, w := PlannedIsReachable(c);
    hide Reaches, Exec, PlanOf;
    ls, w := Onward(c, w0, ls, w, Go);
    ls, w := Onward(c, w0, ls, w, Go);
    ls, w := Onward(c, w0, ls, w, Assessed(Risk(0, Low, [], false, 0, 0)));
    GatePasses(c, w);
    Reaching(c, w0, ls, w, Run(Go));
    ls, w := ls + [Run(Go)], w.(ctl := Cleared);
    hide Apply;
    ls, w := Onward(c, w0, ls, w, Go);
  }

  lemma GatePasses(c: Config, w: World)
    requires w.ctl.Gate? && w.announcing.None? && Unrestricted(w.live)
    ensures Apply(c, w, Run(Go)) == Some(w.(ctl := Cleared))
  {
  }

  lemma CallIsReachable(c: Config) returns (w0: World, ls: seq<Label>, w: World)
    ensures Reaches(c, w0, ls, w) && w.ctl.Calling? && w.restarts == 0
    ensures w.ctl.i < |w.row.steps| && w.row.steps[w.ctl.i].attempts >= 1
  {
    w0, ls, w := LoopIsReachable(c);
    hide Reaches, Apply, Exec, Step, Steps;
    CallsAgain(c, w, 1, 0);
    var v := Exec(c, w, Steps(3)).value;
    ReachesOn(c, w0, ls, w, Steps(3));
    ls, w := ls + Steps(3), v;
  }

  lemma ReachesOn(c: Config, w0: World, ls: seq<Label>, w: World, more: seq<Label>)
    requires Reaches(c, w0, ls, w) && Exec(c, w, more).Some?
    ensures Reaches(c, w0, ls + more, Exec(c, w, more).value)
  {
    ExecConcat(c, w0, ls, more);
    hide Exec;
  }

  /** No bound on `attempts` holds that does not count the restarts: for every n a run with n restarts attempts one
      step more than n times. */
  lemma {:induction false} AttemptsAreUnbounded(c: Config, n: nat) returns (w0: World, ls: seq<Label>, w: World)
    requires !c.celery
    ensures Reaches(c, w0, ls, w) && w.restarts == n && w.ctl.Calling?
    ensures w.ctl.i < |w.row.steps| && w.row.steps[w.ctl.i].attempts > n
  {
    if n == 0 {
      w0, ls, w := CallIsReachable(c);
    } else {
      w0, ls, w := AttemptsAreUnbounded(c, n - 1);
      var i := w.ctl.i;
      CrashRefillsRetries(c, w0, ls, w);
      ls, w := ls + RetryRun(i), Exec(c, w0, ls + RetryRun(i)).value;
    }
    hide Exec;
  }

  // ------------------------------------------------------- work to the end

  /** One more silent step of the runner on an undisturbed run. */
  lemma Silently(c: Config, w0: World, ls: seq<Label>, w: World) returns (more: seq<Label>, v: World)
    requires Reaches(c, w0, ls, w) && w.announcing.None? && w.janitor.Idle?
    requires Step(c, w.ctl, w.live, Go).Some? && Step(c, w.ctl, w.live, Go).value.event.None?
    ensures Reaches(c, w0, more, v) && v.announcing.None? && v.janitor.Idle? && v.restarts == w.restarts
    ensures v.ctl == Step(c, w.ctl, w.live, Go).value.ctl && v.live == Step(c, w.ctl, w.live, Go).value.task
    ensures v.row == w.row && v.log == w.log
  {
    hide Step, Exec;
    Extend(c, w0, ls, w, Run(Go));
    more, v := ls + [Run(Go)], Apply(c, w, Run(Go)).value;
  }

  /** The agent of the working step is being asked. */
  lemma WorkIsAsked(c: Config) returns (w0: World, ls: seq<Label>, w: World)
    ensures Reaches(c, w0, ls, w) && w.ctl == Calling(1, 0, 1) && w.announcing.None? && w.janitor.Idle?
    ensures |w.live.steps| == 2 && w.live.steps[0].agent == "planner" && w.live.steps[1] == NewStep("2", VERIFIER_STEP)
    ensures w.live.rework == 0
  {
    w0, ls, w := LoopIsReachable(c);
    hide Reaches, Exec, Apply;
    ls, w := Silently(c, w0, ls, w);
    ls, w := Onward(c, w0, ls, w, Go);
    ls, w := Onward(c, w0, ls, w, Go);
  }

  /** The working step of the plan is done. */
  lemma WorkIsReachable(c: Config) returns (w0: World, ls: seq<Label>, w: World)
    ensures Reaches(c, w0, ls, w) && w.ctl == Loop(1, 1) && w.announcing.None? && w.janitor.Idle?
    ensures |w.live.steps| == 2 && w.live.steps[0].status.Completed? && w.live.steps[1] == NewStep("2", VERIFIER_STEP)
    ensures w.live.rework == 0
  {
    w0, ls, w := WorkIsAsked(c);
    hide Reaches, Exec, Apply;
    ls, w := Onward(c, w0, ls, w, Answered("o"));
  }

  /** The verifier is being asked. */
  lemma VerifierIsAsked(c: Config) returns (w0: World, ls: seq<Label>, w: World)
    ensures Reaches(c, w0, ls, w) && w.ctl == Calling(1, 1, 1) && w.announcing.None? && w.janitor.Idle?
    ensures |w.live.steps| == 2 && w.live.steps[1].agent == VERIFIER && w.live.rework == 0
  {
    w0, ls, w := WorkIsReachable(c);
    hide Reaches, Exec, Apply;
    ls, w := Onward(c, w0, ls, w, Go);
    ls, w := Onward(c, w0, ls, w, Go);
    ls, w := Onward(c, w0, ls, w, Go);
  }

  /** The verifier has judged the work, either way. */
  lemma VerdictIsReachable(c: Config, passed: bool) returns (w0: World, ls: seq<Label>, w: World)
    ensures Reaches(c, w0, ls, w) && w.ctl == Loop(1, 2) && w.announcing.None? && w.janitor.Idle?
    ensures |w.live.steps| == 2 && w.live.verified == Some(passed) && w.live.rework == 0 && w.row == w.live
  {
    w0, ls, w := VerifierIsAsked(c);
    hide Reaches, Exec, Apply;
    ls, w := Onward(c, w0, ls, w, Judged(passed, "n"));
  }

  /** The gap in which a crash loses the rework is reached. */
  lemma ReworkIsReachable(c: Config) returns (w0: World, ls: seq<Label>, w: World)
    ensures Reaches(c, w0, ls, w) && w.ctl.Rework? && w.row.rework == 1 && w.announcing.None?
  {
    w0, ls, w := VerdictIsReachable(c, false);
    hide Reaches, Exec, Apply;
    ls, w := Onward(c, w0, ls, w, Go);
  }

  /** So is a COMPLETED task whose memory is about to be written. */
  lemma CompletedIsReachable(c: Config) returns (w0: World, ls: seq<Label>, w: World)
    ensures Reaches(c, w0, ls, w) && w.ctl == Finishing(false) && w.row.status.Completed? && w.announcing.None?
  {
    w0, ls, w := VerdictIsReachable(c, true);
    hide Reaches, Exec, Apply;
    ls, w := Silently(c, w0, ls, w);
    ls, w := Onward(c, w0, ls, w, Synthesized("r"));
    ls, w := Onward(c, w0, ls, w, Go);
  }

  /** A run that loses its rework to a crash: the resumed run fails verification for good. */
  lemma ReworkIsLost(c: Config) returns (w0: World, ls: seq<Label>, w: World, message: string)
    requires !c.celery
    ensures Reaches(c, w0, ls, w) && w.ctl.Doomed?
    ensures w.live.error == "RuntimeError: Verification failed after rework: " + message
  {
    hide Exec, Apply, Step, GapRun, Idle;
    var u;
    w0, ls, u := ReworkIsReachable(c);
    CrashLosesRework(c, w0, ls, u);
    message := u.row.verification;
    ls := ls + GapRun(|u.row.steps|);
    w := Exec(c, w0, ls).value;
  }
}
