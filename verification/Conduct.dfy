/** What the orchestrator's operations promise: which events a reply leads to, how an activation of a step and a wait
    for approval go, and what each case of the gate does. Stated without the controller's machine. */
module Conduct {
  import opened Models
  import opened Controller
  import opened InProcess
  import opened Outside

  function Pow2(n: nat): nat {
    if n == 0 then 1 else 2 * Pow2(n - 1)
  }

  /** The pause after failed attempt a. */
  function Pause(a: nat): nat
    requires a >= 1
  {
    if Pow2(a - 1) <= 4 then Pow2(a - 1) else 4
  }

  lemma {:induction false} PauseIsCapped(a: nat)
    requires a >= 3
    ensures Pow2(a - 1) >= 4 && Pause(a) == 4
  {
    if a > 3 {
      PauseIsCapped(a - 1);
    } else {
      assert Pow2(2) == 2 * Pow2(1) == 4 * Pow2(0);
    }
  }

  /** All pauses of a step activation after n failed attempts, in seconds. */
  function AllPauses(n: nat): nat {
    if n == 0 then 0 else if n == 1 then 1 else 4 * n - 5
  }

  lemma PausesAdd(n: nat)
    requires n >= 1
    ensures AllPauses(n) == AllPauses(n - 1) + Pause(n)
  {
    if n >= 3 {
      PauseIsCapped(n);
    } else {
      assert Pow2(1) == 2 * Pow2(0);
    }
  }

  /** The agent calls one round may spend on the steps of a task. */
  function RoundBound(steps: nat, retries: nat): nat {
    steps * (retries + 1)
  }

  /** The agent calls one process may spend on the steps of a task. */
  function CallBound(steps: nat, retries: nat): nat {
    RoundBound(steps, retries) * MAX_ROUNDS
  }

  lemma OneMoreStep(i: nat, n: nat, retries: nat)
    requires i < n
    ensures RoundBound(i + 1, retries) == RoundBound(i, retries) + retries + 1
    ensures RoundBound(i + 1, retries) <= RoundBound(n, retries)
    ensures RoundBound(0, retries) == 0
  {
    OneMore(i, retries + 1, n);
  }

  lemma OneMore(i: nat, b: nat, n: nat)
    ensures (i + 1) * b == i * b + b
    ensures i + 1 <= n ==> (i + 1) * b <= n * b
  {
  }

  lemma TwoRounds(n: nat, retries: nat)
    ensures CallBound(n, retries) == RoundBound(n, retries) + RoundBound(n, retries)
  {
  }

  /** What planning commits, and what assessing the plan commits. */
  function PlanEvents(size: nat): seq<Event> {
    [StatusChanged(TaskStatus.Planning), AgentStarted("planner"), PlanCreated(size)]
  }

  function AssessEvents(risk: Risk): seq<Event> {
    [StatusChanged(AssessingRisk), AgentStarted("safety"), RiskAssessed(risk)]
  }

  function CompletionEvents(): seq<Event> {
    [StatusChanged(TaskStatus.Completed), StreamEnd(TaskStatus.Completed)]
  }

  /** What a finished task commits, in this order: the report, the status, the end of the stream. */
  function ReportEvents(report: string): seq<Event> {
    [TaskCompleted(report)] + CompletionEvents()
  }

  /** What a refused task commits, and what a failing one does; `stream.end` is missing if saving the memory raised. */
  function RefusalEvents(): seq<Event> {
    [StatusChanged(Denied), StreamEnd(Denied)]
  }

  function FailureEvents(provider: bool, message: string, closed: bool): seq<Event> {
    (if provider then [ProviderError(None, message)] else [])
    + [TaskFailed(message), StatusChanged(TaskStatus.Failed)]
    + (if closed then [StreamEnd(TaskStatus.Failed)] else [])
  }

  // ------------------------------------------------------- what a reply does

  /** How attempt a of a step ends when its agent said x. */
  function TrialOf(x: Input, a: nat, retries: nat): Trial {
    if x.Answered? || x.Judged? then Succeeded
    else if x.Raised? && !x.provider && a <= retries then Again
    else Exhausted
  }

  function Counted(s: StepRow): StepRow {
    s.(attempts := s.attempts + 1)
  }

  /** The step when its agent has said x in attempt a. */
  function Outcome(s: StepRow, x: Input, a: nat, retries: nat): StepRow {
    match x
    case Answered(output) => s.(output := output, error := "", status := StepStatus.Completed)
    case Judged(_, notes) => s.(output := notes, error := "", status := StepStatus.Completed)
    case Raised(provider, message) =>
      s.(error := message, status := if !provider && a <= retries then s.status else StepStatus.Failed)
    case _ => s
  }

  function OutcomeEvents(s: StepRow, x: Input, a: nat, retries: nat): seq<Event> {
    match x
    case Answered(output) => [StepCompleted(s.id, s.agent, output, s.attempts)]
    case Judged(_, notes) => [StepCompleted(s.id, s.agent, notes, s.attempts)]
    case Raised(true, message) => [ProviderError(Some(s.id), message), StepFailed(s.id, message)]
    case Raised(false, message) => [if a <= retries then StepRetry(s.id, message, a + 1) else StepFailed(s.id, message)]
    case _ => []
  }

  /** What attempt a commits. */
  function TryEvents(s: StepRow, x: Input, a: nat, retries: nat): seq<Event> {
    [StepAttempted(s.id, s.agent, s.attempts + 1)] + OutcomeEvents(Counted(s), x, a, retries)
  }

  /** What the attempts of one activation commit, one for each reply. */
  function StepEvents(s: StepRow, rs: seq<Reply>, retries: nat): seq<Event>
    decreases |rs|
  {
    if rs == [] then []
    else
      var n := |rs| - 1;
      StepEvents(s, rs[..n], retries)
      + TryEvents(s.(attempts := s.attempts + n), UnderstoodWork(s.agent, rs[n]), n + 1, retries)
  }

  lemma StepEventsSnoc(s: StepRow, rs: seq<Reply>, r: Reply, retries: nat)
    ensures StepEvents(s, rs + [r], retries) ==
            StepEvents(s, rs, retries)
            + TryEvents(s.(attempts := s.attempts + |rs|), UnderstoodWork(s.agent, r), |rs| + 1, retries)
  {
    assert (rs + [r])[..|rs|] == rs;
  }

  /** Every reply so far was an exception that is worth another attempt. */
  predicate AllRetried(agent: string, rs: seq<Reply>) {
    forall n :: 0 <= n < |rs| ==> UnderstoodWork(agent, rs[n]).Raised? && !UnderstoodWork(agent, rs[n]).provider
  }

  /** How an activation of a known agent's step ends: with an answer, a provider error, or the retries used up. */
  predicate Concluded(agent: string, rs: seq<Reply>, retries: nat, ok: bool) {
    && 1 <= |rs| <= retries + 1
    && AllRetried(agent, rs[..|rs| - 1])
    && var x := UnderstoodWork(agent, rs[|rs| - 1]);
    if ok then x.Answered? || x.Judged? else x.Raised? && (x.provider || |rs| == retries + 1)
  }

  /** The text an answer leaves in its step. */
  function AnswerOf(x: Input): string {
    match x
    case Answered(output) => output
    case Judged(_, notes) => notes
    case _ => ""
  }

  lemma ReplyTypes(agent: string, r: Reply)
    ensures var x := UnderstoodWork(agent, r); x.Answered? || x.Judged? || x.Raised?
  {
  }

  /** The events of an attempt depend on identifier, agent and counter only. */
  lemma SameEvents(s: StepRow, u: StepRow, x: Input, a: nat, retries: nat)
    requires s.id == u.id && s.agent == u.agent && s.attempts == u.attempts
    ensures TryEvents(s, x, a, retries) == TryEvents(u, x, a, retries)
  {
  }

  /** The step that broke a round: FAILED, with none before it. */
  predicate FirstFailed(steps: seq<StepRow>, i: nat) {
    i < |steps| && steps[i].status.Failed? && forall j :: 0 <= j < i ==> !steps[j].status.Failed?
  }

  /** The text of a broken round is the error of its first failed step, or the default if there is none. */
  lemma {:induction false} FailureTextIsFirst(steps: seq<StepRow>)
    ensures forall i: nat :: FirstFailed(steps, i) ==> FailureText(steps) == steps[i].error
    ensures (forall i :: 0 <= i < |steps| ==> !steps[i].status.Failed?) ==>
              FailureText(steps) == "Step execution failed"
    decreases |steps|
  {
    if steps != [] && !steps[0].status.Failed? {
      FailureTextIsFirst(steps[1..]);
      forall i: nat | FirstFailed(steps, i) ensures FailureText(steps) == steps[i].error {
        assert i > 0 && FirstFailed(steps[1..], i - 1);
      }
    }
  }

  // ------------------------------------------------------------------ waiting

  /** Polls that found nothing, from the start of a wait on. */
  ghost predicate StillWaiting(ps: seq<Poll>, start: nat, now: nat, ticks: nat) {
    && (forall n :: 0 <= n < |ps| ==> start <= ps[n].at < start + ticks && ps[n].found.None?)
    && (now > start ==> |ps| > 0)
    && (|ps| > 0 ==> ps[0].at == start)
  }

  /** A wait from `start` to `end`: it polls at once, goes on while polls find nothing, and ends with what a poll found,
      at that moment, or when the time is up. */
  ghost predicate Waited(ps: seq<Poll>, start: nat, end: nat, ticks: nat, approved: bool) {
    && (forall n :: 0 <= n < |ps| ==> start <= ps[n].at < start + ticks)
    && (forall n :: 0 <= n < |ps| - 1 ==> ps[n].found.None?)
    && (ticks > 0 ==> |ps| > 0 && ps[0].at == start)
    && (if |ps| > 0 && ps[|ps| - 1].found.Some?
        then ps[|ps| - 1] == Poll.Poll(end, Some(approved))
        else !approved && end >= start + ticks)
  }

  lemma NothingYet(start: nat, ticks: nat)
    ensures StillWaiting([], start, start, ticks)
  {
  }

  lemma WaitsOn(ps: seq<Poll>, start: nat, now: nat, later: nat, ticks: nat)
    requires StillWaiting(ps, start, now, ticks) && start <= now < start + ticks && now < later
    ensures StillWaiting(ps + [Poll.Poll(now, None)], start, later, ticks)
  {
  }

  lemma WaitEnds(ps: seq<Poll>, start: nat, now: nat, ticks: nat)
    requires StillWaiting(ps, start, now, ticks) && start <= now
    ensures now < start + ticks ==>
              forall approved :: Waited(ps + [Poll.Poll(now, Some(approved))], start, now, ticks, approved)
    ensures now >= start + ticks ==> Waited(ps, start, now, ticks, false)
  {
  }

  /** The runner made one step, the last: it took the decision of a poll, or timed out. */
  ghost predicate OneStep(before: seq<Label>, after: seq<Label>, approved: bool) {
    && |before| < |after| && before <= after
    && (after[|after| - 1] == Run(Polled(approved)) || (!approved && after[|after| - 1] == Run(DeadlinePassed)))
    && forall n :: |before| <= n < |after| - 1 ==> !after[n].Run?
  }

  /** No deadline passed in between, unless it has been reached. */
  ghost predicate Timely(before: seq<Label>, after: seq<Label>, reached: bool) {
    before <= after && (reached || forall n :: |before| <= n < |after| ==> after[n] != Run(DeadlinePassed))
  }

  lemma TimelyOn(before: seq<Label>, mid: seq<Label>, after: seq<Label>, reached: bool)
    requires Timely(before, mid, reached) && Timely(mid, after, false)
    ensures Timely(before, after, reached)
  {
  }

  // --------------------------------------------------------------------- gate

  /** The gate's five cases. */
  predicate GateOpen(t: TaskRow) {
    t.risk.None? || !t.risk.value.requiresApproval || t.decision == Some(true)
  }

  predicate GateAuto(t: TaskRow) {
    !GateOpen(t) && t.autoApprove
  }

  predicate GateShut(t: TaskRow) {
    !GateOpen(t) && !t.autoApprove && t.decision == Some(false)
  }

  predicate GateAsks(t: TaskRow) {
    !GateOpen(t) && !t.autoApprove && t.decision.None?
  }

  lemma OnlyTwoDecisions(d: Option<bool>)
    ensures d.None? || d == Some(true) || d == Some(false)
  {
    if d.Some? {
      var b := d.value;
      assert d == Some(b);
    }
  }

  /** The plan and the risk a task gets are what planner and safety agent said. */
  ghost predicate Prepared(f: Flow, before: seq<Reply>, after: seq<Reply>, steps: seq<StepRow>, risk: Option<Risk>) {
    && |before| < |after| && before == after[..|before|]
    && var x := UnderstoodPlan(after[|before|]);
    if x.Raised? then f == Throw(x.provider, x.message) && |after| == |before| + 1
    else
      && |after| == |before| + 2 && x.Proposed? && ValidProposal(x.items, x.ids) && steps == PlanOf(x.items, x.ids)
      && var y := UnderstoodRisk(after[|before| + 1]);
      if y.Raised? then f == Throw(y.provider, y.message) else f.Proceed? && y.Assessed? && risk == Some(y.risk)
  }

  datatype Flow = Proceed | Halt | Throw(provider: bool, message: string)

  datatype Trial = Succeeded | Again | Exhausted
}
