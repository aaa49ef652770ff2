/** Counting over runs: completions per round, and attempts per round and restart. */
module Rounds {
  import opened Models
  import opened Controller
  import opened Invariants
  import opened InProcess
  import opened SystemInvariant

  // ----------------------------------------------- exactly once per round

  predicate Completes(e: Event, id: string) {
    e.StepCompleted? && e.step == id
  }

  /** How many times the log completes the step. */
  function Completions(log: seq<Commit>, id: string): nat
    decreases |log|
  {
    if log == [] then 0
    else Completions(log[..|log| - 1], id) + if Completes(log[|log| - 1].event, id) then 1 else 0
  }

  lemma CompletionsSnoc(log: seq<Commit>, m: Commit, id: string)
    ensures Completions(log + [m], id) == Completions(log, id) + if Completes(m.event, id) then 1 else 0
  {
    assert (log + [m])[..|log|] == log;
  }

  ghost predicate StepIsDone(steps: seq<StepRow>, id: string) {
    exists i :: 0 <= i < |steps| && steps[i].id == id && steps[i].status.Completed?
  }

  ghost function Credit(steps: seq<StepRow>, id: string): nat {
    if StepIsDone(steps, id) then 1 else 0
  }

  ghost predicate OncePerRound(w: World, id: string) {
    && Completions(w.log, id) <= w.live.rework + Credit(w.live.steps, id)
    && (w.live.risk.None? ==> Completions(w.log, id) == 0)
    && (w.ctl.Rework? ==> Completions(w.log, id) <= w.live.rework)
  }

  lemma ResumeKeepsCredit(steps: seq<StepRow>, id: string)
    ensures Credit(ResumeSteps(steps), id) == Credit(steps, id)
  {
    var u := ResumeSteps(steps);
    assert forall i :: 0 <= i < |u| ==>
        u[i].id == steps[i].id && (u[i].status.Completed? <==> steps[i].status.Completed?);
    if StepIsDone(steps, id) {
      var i :| 0 <= i < |steps| && steps[i].id == id && steps[i].status.Completed?;
      assert u[i].id == id;
    }
  }

  lemma EditKeepsCredit(steps: seq<StepRow>, i: nat, s: StepRow, id: string)
    requires i < |steps| && s.id == steps[i].id && !s.status.Completed? && !steps[i].status.Completed?
    ensures Credit(steps[i := s], id) == Credit(steps, id)
  {
    var u := steps[i := s];
    if StepIsDone(steps, id) {
      var j :| 0 <= j < |steps| && steps[j].id == id && steps[j].status.Completed?;
      assert u[j].id == id && u[j].status.Completed?;
    }
  }

  lemma CompletionEarnsCredit(steps: seq<StepRow>, i: nat, s: StepRow, id: string)
    requires PlanShape(steps) && i < |steps| && s.id == steps[i].id
    requires s.status.Completed? && !steps[i].status.Completed?
    ensures s.id == id ==> Credit(steps, id) == 0 && Credit(steps[i := s], id) == 1
    ensures s.id != id ==> Credit(steps[i := s], id) == Credit(steps, id)
  {
    var u := steps[i := s];
    assert u[i] == s;
    if s.id != id && StepIsDone(steps, id) {
      var j :| 0 <= j < |steps| && steps[j].id == id && steps[j].status.Completed?;
      assert u[j].id == id && u[j].status.Completed?;
    }
  }

  /** How one move of the runner changes the credit of a step, next to the event it commits. */
  ghost predicate Credits(k: Ctl, t: TaskRow, m: Move, id: string) {
    var done := m.event.Some? && Completes(m.event.value, id);
    && (done ==> Credit(t.steps, id) == 0 && Credit(m.task.steps, id) == 1)
    && (done ==> t.risk.Some? && !k.Rework? && m.task.rework == t.rework && !m.ctl.Rework?)
    && (t.risk.Some? && !k.Rework? && !done ==> Credit(m.task.steps, id) == Credit(t.steps, id))
    && (m.ctl.Rework? ==> k.Loop? && m.task.rework == t.rework + 1)
    && (!m.ctl.Rework? ==> m.task.rework == t.rework)
    && (t.risk.Some? ==> m.task.risk.Some?)
  }

  lemma NotYetDone(c: Config, k: Ctl, t: TaskRow)
    requires Local(c, k, t) && Working(k)
    ensures t.risk.Some? && k.i < |t.steps| && !t.steps[k.i].status.Completed? && PlanShape(t.steps)
  {
    hide Ordered, AllDone, AllFresh, PlanShape, Front;
  }

  lemma RunCredits(c: Config, k: Ctl, t: TaskRow, x: Input, id: string)
    requires Local(c, k, t) && Step(c, k, t, x).Some?
    ensures Credits(k, t, Step(c, k, t, x).value, id)
  {
    hide Step, Credit, Ordered, AllDone, AllFresh, PlanShape, Settled, Front;
    var m := Step(c, k, t, x).value;
    if !k.Assessing? {
      RiskFrame(c, k, t, x);
    }
    ReworkFrame(c, k, t, x);
    ReworkEvent(c, k, t, x);
    BulkFrame(c, k, t, x);
    if m.event.Some? {
      WorkEvents(c, k, t, x);
    }
    ResumeKeepsCredit(t.steps, id);
    if Working(k) {
      WorkFrame(c, k, t, x);
      var s := m.task.steps[k.i];
      NotYetDone(c, k, t);
      if s.status.Completed? {
        CompletionEarnsCredit(t.steps, k.i, s, id);
      } else {
        EditKeepsCredit(t.steps, k.i, s, id);
      }
    } else if !k.Start? && !k.Planning? && !k.Rework? {
      StepsFrame(c, k, t, x);
    }
  }

  lemma RunKeepsOnce(c: Config, w: World, x: Input, id: string)
    requires Inv(c, w) && OncePerRound(w, id) && Apply(c, w, Run(x)).Some?
    ensures OncePerRound(Apply(c, w, Run(x)).value, id)
  {
    RunCredits(c, w.ctl, w.live, x, id);
    var m := Step(c, w.ctl, w.live, x).value;
    if m.event.Some? {
      CompletionsSnoc(w.log, Commit(m.event.value, m.task), id);
    }
    hide Step, Local, Credit, Completions;
  }

  lemma OutsiderKeepsOnce(c: Config, w: World, l: Label, id: string)
    requires Inv(c, w) && OncePerRound(w, id) && !l.Run? && Apply(c, w, l).Some?
    ensures OncePerRound(Apply(c, w, l).value, id)
  {
    var v := Apply(c, w, l).value;
    OutsiderEffect(c, w, l);
    ResumeKeepsCredit(w.row.steps, id);
    if v.log != w.log {
      CompletionsSnoc(w.log, v.log[|w.log|], id);
    }
    hide Apply, Sound, Local, Credit, Completions, ApprovalState;
  }

  /** The log completes a step at most once per round: once for every rework plus once if the row has it
      completed, and so never more than MAX_ROUNDS times, however many crashes the run contains. */
  lemma CompletedOncePerRound(c: Config, w0: World, ls: seq<Label>, w: World, id: string)
    requires Reaches(c, w0, ls, w)
    ensures Completions(w.log, id) <= w.row.rework + (if StepIsDone(w.row.steps, id) then 1 else 0)
    ensures Completions(w.log, id) <= MAX_ROUNDS
  {
    var G := (l: Label) => true;
    var P := (v: World) => OncePerRound(v, id);
    forall v, l | Inv(c, v) && P(v) && G(l) && Apply(c, v, l).Some? ensures P(Apply(c, v, l).value) {
      if l.Run? { RunKeepsOnce(c, v, l.x, id); } else { OutsiderKeepsOnce(c, v, l, id); }
    }
    CompletionsSnoc([], w0.log[0], id);
    assert w0.log == [] + [w0.log[0]];
    Induct(c, G, P, w0, ls, w);
    ReachableInv(c, w0, ls, w);
    ResumeKeepsCredit(w.row.steps, id);
    hide Apply, Local, Completions, ApprovalState;
  }

  // ----------------------------------------------------------- attempt bound

  /** What the current activation of step i may have added to its attempts. */
  function Spent(c: Config, k: Ctl, s: StepRow, i: nat): nat {
    if k.Rework? || s.status.Pending? || (k.Start? && !s.status.Completed?) then 0
    else if k.Attempt? && k.i == i && k.a >= 1 then k.a - 1
    else if k.Calling? && k.i == i then k.a
    else c.maxStepRetries + 1
  }

  /** The attempts of step i are covered by base plus the current activation. */
  ghost predicate Within(c: Config, k: Ctl, t: TaskRow, i: nat, base: nat) {
    i < |t.steps| ==> t.steps[i].attempts <= base + Spent(c, k, t.steps[i], i)
  }

  lemma WorkKeepsBudget(c: Config, k: Ctl, t: TaskRow, x: Input, i: nat, base: nat)
    requires Local(c, k, t) && Working(k) && Step(c, k, t, x).Some? && Within(c, k, t, i, base)
    ensures var m := Step(c, k, t, x).value; Within(c, m.ctl, m.task, i, base)
  {
    var m := Step(c, k, t, x).value;
    StepKeepsLocal(c, k, t, x);
    WorkCtl(c, k, t, x);
    WorkFrame(c, k, t, x);
    WorkEvents(c, k, t, x);
    hide Step, Sound, Front, Settled;
  }

  lemma RunKeepsBudget(c: Config, k: Ctl, t: TaskRow, x: Input, i: nat, base: nat)
    requires Local(c, k, t) && Step(c, k, t, x).Some? && Within(c, k, t, i, base)
    ensures var m := Step(c, k, t, x).value;
            Within(c, m.ctl, m.task, i, base + if m.ctl.Rework? then c.maxStepRetries + 1 else 0)
  {
    var m := Step(c, k, t, x).value;
    WorkCtl(c, k, t, x);
    ReworkEvent(c, k, t, x);
    if Working(k) {
      WorkKeepsBudget(c, k, t, x, i, base);
      hide Step, Within;
    } else if k.Planning? {
      if x.Proposed? {
        PlansAreShaped(x.items, x.ids);
      }
      hide Sound;
    } else if k.Start? {
      assert m.task.steps == t.steps || m.task.steps == ResumeSteps(t.steps);
      hide Step, Sound;
    } else if k.Rework? {
      assert m.task.steps == ResetSteps(t.steps);
      hide Step, Sound;
    } else {
      StepsFrame(c, k, t, x);
      hide Step, Sound;
    }
  }

  lemma NextBudget(b: nat, n: nat)
    ensures b * (n + 1) == b * n + b
  {
  }

  /** A restart finds step i at work: RUNNING or FAILED in the row. */
  predicate Hit(w: World, l: Label, i: nat) {
    l.Restart? && i < |w.row.steps| && (w.row.steps[i].status.Running? || w.row.steps[i].status.Failed?)
  }

  /** How many restarts of a run find step i at work. */
  function Hits(c: Config, w0: World, ls: seq<Label>, i: nat): nat
    decreases |ls|
  {
    if ls == [] then 0
    else
      var front := ls[..|ls| - 1];
      Hits(c, w0, front, i)
      + if Exec(c, w0, front).Some? && Hit(Exec(c, w0, front).value, ls[|ls| - 1], i) then 1 else 0
  }

  /** A budget for every rework and every hit. */
  function Base(c: Config, t: TaskRow, hits: nat): nat {
    (c.maxStepRetries + 1) * (t.rework + hits)
  }

  lemma BaseGrows(c: Config, t: TaskRow, hits: nat, u: TaskRow, hits': nat)
    ensures u.rework + hits' == t.rework + hits ==> Base(c, u, hits') == Base(c, t, hits)
    ensures u.rework + hits' == t.rework + hits + 1 ==> Base(c, u, hits') == Base(c, t, hits) + c.maxStepRetries + 1
  {
    NextBudget(c.maxStepRetries + 1, t.rework + hits);
  }

  lemma RunBudget(c: Config, w: World, x: Input, i: nat, hits: nat)
    requires Inv(c, w) && Within(c, w.ctl, w.live, i, Base(c, w.live, hits)) && Apply(c, w, Run(x)).Some?
    ensures var v := Apply(c, w, Run(x)).value; Within(c, v.ctl, v.live, i, Base(c, v.live, hits))
  {
    var v := Apply(c, w, Run(x)).value;
    assert Local(c, w.ctl, w.live);
    RunEffect(c, w, x);
    hide Apply, Step, Inv, Within, Local, Base;
    ReworkFrame(c, w.ctl, w.live, x);
    RunKeepsBudget(c, w.ctl, w.live, x, i, Base(c, w.live, hits));
    BaseGrows(c, w.live, hits, v.live, hits);
  }

  /** A restart charges a fresh budget exactly to the step it finds at work. */
  lemma RestartBudget(c: Config, w: World, i: nat, base: nat)
    requires Linked(w.row, w.live) && Within(c, w.ctl, w.live, i, base) && At(c, w.ctl, w.live)
    ensures Within(c, Start, w.row, i, base + if Hit(w, Restart, i) then c.maxStepRetries + 1 else 0)
  {
    if i < |w.row.steps| {
      var s, u := w.live.steps[i], w.row.steps[i];
      assert s == u || s == ResumeStep(u);
      assert Spent(c, w.ctl, s, i) <= c.maxStepRetries + 1 by {
        hide Front;
      }
    }
    hide At;
  }

  lemma OutsiderBudget(c: Config, w: World, l: Label, i: nat, hits: nat)
    requires Inv(c, w) && Within(c, w.ctl, w.live, i, Base(c, w.live, hits)) && !l.Run? && Apply(c, w, l).Some?
    ensures var v := Apply(c, w, l).value;
            Within(c, v.ctl, v.live, i, Base(c, v.live, hits + if Hit(w, l, i) then 1 else 0))
  {
    var v := Apply(c, w, l).value;
    OutsiderEffect(c, w, l);
    BaseGrows(c, w.live, hits, v.live, hits + if Hit(w, l, i) then 1 else 0);
    assert Linked(w.row, w.live) && At(c, w.ctl, w.live) by {
      hide At, Linked;
    }
    hide Apply, Inv, Base, At;
    if l.Restart? {
      RestartRow(c, w, l);
      RestartBudget(c, w, i, Base(c, w.live, hits));
    }
  }

  lemma RestartRow(c: Config, w: World, l: Label)
    requires l.Restart? && Apply(c, w, l).Some?
    ensures Apply(c, w, l).value.live == w.row
  {
  }

  lemma FullBudget(c: Config, w: World, i: nat, hits: nat)
    requires Local(c, w.ctl, w.live) && i < |w.live.steps| && Within(c, w.ctl, w.live, i, Base(c, w.live, hits))
    ensures w.live.steps[i].attempts <= (c.maxStepRetries + 1) * (w.live.rework + 1 + hits)
  {
    NextBudget(c.maxStepRetries + 1, w.live.rework + hits);
    assert Spent(c, w.ctl, w.live.steps[i], i) <= c.maxStepRetries + 1;
    hide Sound, Front;
  }

  lemma {:induction false} RunsStayWithin(c: Config, w0: World, ls: seq<Label>, w: World, i: nat)
    requires Reaches(c, w0, ls, w)
    ensures Within(c, w.ctl, w.live, i, Base(c, w.live, Hits(c, w0, ls, i)))
    decreases |ls|
  {
    hide Apply, Inv, Base;
    if ls != [] {
      var front, l := ls[..|ls| - 1], ls[|ls| - 1];
      var v := Exec(c, w0, front).value;
      RunsStayWithin(c, w0, front, v, i);
      ReachableInv(c, w0, front, v);
      hide Within;
      if l.Run? {
        RunBudget(c, v, l.x, i, Hits(c, w0, front, i));
      } else {
        OutsiderBudget(c, v, l, i, Hits(c, w0, front, i));
      }
    }
  }

  /** The retry budget holds per round, and is granted again exactly to a step that a restart finds at work. */
  lemma BudgetPerRoundAndHit(c: Config, w0: World, ls: seq<Label>, w: World, i: nat)
    requires Reaches(c, w0, ls, w) && i < |w.row.steps|
    ensures w.row.steps[i].attempts <= (c.maxStepRetries + 1) * (w.row.rework + 1 + Hits(c, w0, ls, i))
  {
    hide Reaches, Inv, Within, Base, Hits;
    RunsStayWithin(c, w0, ls, w, i);
    ReachableInv(c, w0, ls, w);
    LiveAttempts(c, w, i);
    FullBudget(c, w, i, Hits(c, w0, ls, i));
  }

  /** Between commits the live object agrees with the row on the counters. */
  lemma LiveAttempts(c: Config, w: World, i: nat)
    requires Inv(c, w) && i < |w.row.steps|
    ensures Local(c, w.ctl, w.live) && w.live.rework == w.row.rework < MAX_ROUNDS
    ensures i < |w.live.steps| && w.live.steps[i].attempts == w.row.steps[i].attempts
  {
    hide At, ApprovalState, ReviewerState, JanitorState;
  }

  lemma {:induction false} HitsAreRestarts(c: Config, w0: World, ls: seq<Label>, w: World, i: nat)
    requires Reaches(c, w0, ls, w)
    ensures Hits(c, w0, ls, i) <= w.restarts
    decreases |ls|
  {
    hide Apply;
    if ls != [] {
      var front := ls[..|ls| - 1];
      var v := Exec(c, w0, front).value;
      HitsAreRestarts(c, w0, front, v, i);
      RestartsGrow(c, v, ls[|ls| - 1]);
    }
  }

  lemma RestartsGrow(c: Config, w: World, l: Label)
    requires Apply(c, w, l).Some?
    ensures Apply(c, w, l).value.restarts == w.restarts + if l.Restart? then 1 else 0
  {
    hide Step;
  }

  lemma Scale(a: nat, b: nat, n: nat)
    requires a <= b
    ensures n * a <= n * b
  {
  }

  /** So with k restarts no step is attempted more than (retries + 1) * (MAX_ROUNDS + k) times. */
  lemma AttemptBound(c: Config, w0: World, ls: seq<Label>, w: World, i: nat)
    requires Reaches(c, w0, ls, w) && i < |w.row.steps|
    ensures w.row.steps[i].attempts <= (c.maxStepRetries + 1) * (MAX_ROUNDS + w.restarts)
  {
    hide Reaches, Inv, Local, Hits;
    BudgetPerRoundAndHit(c, w0, ls, w, i);
    HitsAreRestarts(c, w0, ls, w, i);
    ReachableInv(c, w0, ls, w);
    LiveAttempts(c, w, i);
    Scale(w.row.rework + 1 + Hits(c, w0, ls, i), MAX_ROUNDS + w.restarts, c.maxStepRetries + 1);
  }

  // ------------------------------------------------------------ exact counter

  predicate Tries(e: Event, id: string) {
    e.StepAttempted? && e.step == id
  }

  /** How many attempts of the step the log records. */
  function Tried(log: seq<Commit>, id: string): nat
    decreases |log|
  {
    if log == [] then 0
    else Tried(log[..|log| - 1], id) + if Tries(log[|log| - 1].event, id) then 1 else 0
  }

  lemma TriedSnoc(log: seq<Commit>, m: Commit, id: string)
    ensures Tried(log + [m], id) == Tried(log, id) + if Tries(m.event, id) then 1 else 0
  {
    assert (log + [m])[..|log|] == log;
  }

  ghost predicate CounterExact(w: World, id: string) {
    && (w.live.risk.None? ==> Tried(w.log, id) == 0)
    && (forall i :: 0 <= i < |w.live.steps| && w.live.steps[i].id == id ==>
          w.live.steps[i].attempts == Tried(w.log, id))
  }

  lemma RunCounts(c: Config, w: World, x: Input, id: string)
    requires Inv(c, w) && CounterExact(w, id) && Apply(c, w, Run(x)).Some?
    ensures CounterExact(Apply(c, w, Run(x)).value, id)
  {
    hide Apply, Step, Tried, ApprovalState, ReviewerState, JanitorState, Ordered, AllDone, Settled, Front;
    var v := Apply(c, w, Run(x)).value;
    RunEffect(c, w, x);
    WorkCtl(c, w.ctl, w.live, x);
    BulkFrame(c, w.ctl, w.live, x);
    if v.log != w.log {
      TriedSnoc(w.log, v.log[|w.log|], id);
      WorkEvents(c, w.ctl, w.live, x);
    }
    if !w.ctl.Assessing? {
      RiskFrame(c, w.ctl, w.live, x);
    }
    if Working(w.ctl) {
      WorkFrame(c, w.ctl, w.live, x);
      assert PlanShape(w.live.steps);
    } else if w.ctl.Planning? {
      if x.Proposed? {
        PlansAreShaped(x.items, x.ids);
      }
    } else if !w.ctl.Start? && !w.ctl.Rework? {
      StepsFrame(c, w.ctl, w.live, x);
    }
  }

  lemma OutsiderCounts(c: Config, w: World, l: Label, id: string)
    requires Inv(c, w) && CounterExact(w, id) && !l.Run? && Apply(c, w, l).Some?
    ensures CounterExact(Apply(c, w, l).value, id)
  {
    var v := Apply(c, w, l).value;
    OutsiderEffect(c, w, l);
    assert |w.row.steps| == |w.live.steps|;
    assert forall i :: 0 <= i < |w.row.steps| ==>
        w.live.steps[i].id == w.row.steps[i].id && w.live.steps[i].attempts == w.row.steps[i].attempts;
    if v.log != w.log {
      TriedSnoc(w.log, v.log[|w.log|], id);
    }
    hide Apply, Tried, Sound, Local, ApprovalState, ReviewerState, JanitorState;
  }

  /** The persisted attempt counter of a step is the number of attempts in the log, across any crashes. */
  lemma AttemptsAreExact(c: Config, w0: World, ls: seq<Label>, w: World, i: nat)
    requires Reaches(c, w0, ls, w) && i < |w.row.steps|
    ensures w.row.steps[i].attempts == Tried(w.log, w.row.steps[i].id)
  {
    var id := w.row.steps[i].id;
    var G := (l: Label) => true;
    var P := (v: World) => CounterExact(v, id);
    forall v, l | Inv(c, v) && P(v) && G(l) && Apply(c, v, l).Some? ensures P(Apply(c, v, l).value) {
      if l.Run? { RunCounts(c, v, l.x, id); } else { OutsiderCounts(c, v, l, id); }
    }
    TriedSnoc([], w0.log[0], id);
    assert w0.log == [] + [w0.log[0]];
    Induct(c, G, P, w0, ls, w);
    ReachableInv(c, w0, ls, w);
    assert w.live.steps[i].id == id && w.live.steps[i].attempts == w.row.steps[i].attempts;
    hide Apply, ApprovalState, Tried;
  }
}
