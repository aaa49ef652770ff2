/** A run of the runner ends, and how much it may cost. */
module Cost {
  import opened Models
  import opened Controller
  import opened Invariants
  import opened InProcess
  import opened Rounds

  datatype Rank = Rank(phase: nat, rounds: nat, open: nat, fine: nat)

  predicate Below(a: Rank, b: Rank) {
    || a.phase < b.phase
    || (a.phase == b.phase && a.rounds < b.rounds)
    || (a.phase == b.phase && a.rounds == b.rounds && a.open < b.open)
    || (a.phase == b.phase && a.rounds == b.rounds && a.open == b.open && a.fine < b.fine)
  }

  function Minus(a: nat, b: nat): nat {
    if a <= b then 0 else a - b
  }

  /** While steps are worked on: rounds left, steps not yet passed, attempts left. */
  function Work(t: TaskRow, round: nat, i: nat, fine: nat): Rank {
    Rank(10, Minus(MAX_ROUNDS, round), 1 + Minus(|t.steps|, i), fine)
  }

  function RankOf(c: Config, k: Ctl, t: TaskRow): Rank {
    match k
    case Start => Rank(20, 0, 0, 0)
    case PlanOpened => Rank(19, 0, 0, 0)
    case Planning => Rank(18, 0, 0, 0)
    case Planned => Rank(17, 0, 0, 0)
    case AssessOpened => Rank(16, 0, 0, 0)
    case Assessing => Rank(15, 0, 0, 0)
    case Gate => Rank(14, 0, 0, 0)
    case Waiting => Rank(13, 0, 0, 0)
    case Cleared => Rank(12, 0, 0, 0)
    case Loop(r, i) => Work(t, r, i, 2 * c.maxStepRetries + 5)
    case Ready(r, i) => Work(t, r, i, 2 * c.maxStepRetries + 4)
    case Attempt(r, i, a) => Work(t, r, i, 2 * Minus(c.maxStepRetries + 1, a) + 2)
    case Calling(r, i, a) => Work(t, r, i, 2 * Minus(c.maxStepRetries + 1, a) + 1)
    case Rework(r) => Rank(10, Minus(MAX_ROUNDS, r), 0, 0)
    case Refused => Rank(9, 0, 0, 0)
    case Synthesizing => Rank(9, 0, 0, 0)
    case Unavailable(_) => Rank(9, 0, 0, 0)
    case Reported => Rank(8, 0, 0, 0)
    case Broken => Rank(8, 0, 0, 0)
    case Finishing(inHandler) => if inHandler then Rank(4, 0, 0, 0) else Rank(7, 0, 0, 0)
    case Failing => Rank(6, 0, 0, 0)
    case Doomed => Rank(5, 0, 0, 0)
    case Paused => Rank(0, 0, 0, 0)
    case Done => Rank(0, 0, 0, 0)
    case Aborted => Rank(0, 0, 0, 0)
  }

  predicate Descends(c: Config, k: Ctl, t: TaskRow, m: Option<Move>) {
    m.Some? ==> Below(RankOf(c, m.value.ctl, m.value.task), RankOf(c, k, t))
  }

  lemma PassDescends(c: Config, t: TaskRow, r: nat, i: nat)
    requires r <= MAX_ROUNDS && i < |t.steps|
    ensures Descends(c, Loop(r, i), t, LoopMove(t, r, i))
  {
    hide FailureText;
  }

  lemma RoundDescends(c: Config, t: TaskRow, r: nat, i: nat)
    requires r <= MAX_ROUNDS && i == |t.steps|
    ensures Descends(c, Loop(r, i), t, LoopMove(t, r, i))
  {
    AfterLoop(t, r);
    assert RankOf(c, Loop(r, i), t).phase == 10;
    hide LoopMove;
  }

  /** Where a finished round leads. */
  lemma AfterLoop(t: TaskRow, r: nat)
    ensures LoopMove(t, r, |t.steps|).Some?
    ensures var k := LoopMove(t, r, |t.steps|).value.ctl; k.Synthesizing? || k.Doomed? || k == Rework(r)
  {
    hide FailureText;
  }

  lemma LoopBounds(c: Config, r: nat, i: nat, t: TaskRow)
    requires Local(c, Loop(r, i), t)
    ensures r <= MAX_ROUNDS && i <= |t.steps|
  {
  }

  lemma WorkDescends(c: Config, k: Ctl, t: TaskRow, x: Input)
    requires Local(c, k, t) && Working(k)
    ensures Descends(c, k, t, Step(c, k, t, x))
  {
    hide Sound, Front;
  }

  lemma QuietDescends(c: Config, k: Ctl, t: TaskRow, x: Input)
    requires Local(c, k, t) && !Working(k) && !k.Loop?
    ensures Descends(c, k, t, Step(c, k, t, x))
  {
    hide Front, Settled, PlanOf, ValidProposal, FailureText, ResumeSteps, ResetSteps;
    hide Ordered, AllDone, AllFresh, PlanShape;
  }

  /** Every step of the runner, whatever the oracle answers, lowers a lexicographic rank: phase, rounds left,
      steps left, attempts left. So a run of one process ends. */
  lemma StepsDescend(c: Config, k: Ctl, t: TaskRow, x: Input)
    requires Local(c, k, t)
    ensures Descends(c, k, t, Step(c, k, t, x))
  {
    hide Local, RankOf;
    if k.Loop? {
      assert k.round <= MAX_ROUNDS && k.i <= |t.steps| by {
        LoopBounds(c, k.round, k.i, t);
      }
      if k.i < |t.steps| {
        PassDescends(c, t, k.round, k.i);
      } else {
        RoundDescends(c, t, k.round, k.i);
      }
    } else if Working(k) {
      WorkDescends(c, k, t, x);
    } else {
      QuietDescends(c, k, t, x);
    }
  }

  /** An input the runner can always be given. */
  function Fallback(k: Ctl): Input {
    match k
    case Planning => Raised(false, "")
    case Assessing => Raised(false, "")
    case Calling(_, _, _) => Raised(false, "")
    case Synthesizing => Raised(false, "")
    case Waiting => DeadlinePassed
    case _ => Go
  }

  /** The runner never gets stuck: short of its end there is an input it can go on with. */
  lemma NeverStuck(c: Config, k: Ctl, t: TaskRow)
    requires Local(c, k, t)
    ensures Step(c, k, t, Fallback(k)).Some? <==> !k.Done? && !k.Aborted? && !k.Paused?
  {
    hide Front, Settled, PlanOf, ValidProposal, FailureText, ResumeSteps, ResetSteps;
    hide Ordered, AllDone, AllFresh, PlanShape;
  }
}
