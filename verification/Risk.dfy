/** The deterministic risk score, its merge with the safety agent's answer, and what both
    guarantee at the gate. Which patterns match a text is a parameter. */
module RiskScore {
  import opened Models
  import opened Controller
  import opened Invariants
  import opened InProcess
  import opened SystemInvariant
  import opened Safety
  import opened Frozen

  datatype Signal = Signal(weight: int, factor: string)

  const HEURISTICS := [
    Signal(95, "destructive system or data operation"),
    Signal(62, "data deletion or removal"),
    Signal(72, "sensitive credentials"),
    Signal(76, "financial transaction"),
    Signal(38, "production system impact"),
    Signal(32, "external communication"),
    Signal(65, "high-stakes advice")]

  const NO_SIGNALS := "No elevated-risk signals; read-only workload"

  function Min(a: int, b: int): int {
    if a <= b then a else b
  }

  function Max(a: int, b: int): int {
    if a <= b then b else a
  }

  /** The score after one more matched weight: the larger of the two, plus 8 unless it is the first. */
  function Raise(score: int, weight: int): int {
    Min(100, Max(score, weight) + if score != 0 then 8 else 0)
  }

  /** The score of matched weights, on top of a score already reached. */
  function ScoreOn(score: int, weights: seq<int>): int
    decreases |weights|
  {
    if weights == [] then score else Raise(ScoreOn(score, weights[..|weights| - 1]), weights[|weights| - 1])
  }

  function Score(weights: seq<int>): int {
    ScoreOn(0, weights)
  }

  /** The signals whose pattern matches, in table order. */
  function Matched(table: seq<Signal>, found: seq<bool>): seq<Signal>
    requires |found| == |table|
  {
    if table == [] then []
    else
      var n := |table| - 1;
      Matched(table[..n], found[..n]) + if found[n] then [table[n]] else []
  }

  function Weights(signals: seq<Signal>): seq<int> {
    seq(|signals|, i requires 0 <= i < |signals| => signals[i].weight)
  }

  function Factors(signals: seq<Signal>): seq<string> {
    seq(|signals|, i requires 0 <= i < |signals| => signals[i].factor)
  }

  /** Drops repetitions, keeping first occurrences in order. */
  function Unique(items: seq<string>): seq<string>
    decreases |items|
  {
    if items == [] then []
    else
      var front := Unique(items[..|items| - 1]);
      if items[|items| - 1] in front then front else front + [items[|items| - 1]]
  }

  lemma {:induction false} UniqueIsDistinct(items: seq<string>)
    ensures forall s :: s in Unique(items) <==> s in items
    ensures forall i, j :: 0 <= i < j < |Unique(items)| ==> Unique(items)[i] != Unique(items)[j]
    decreases |items|
  {
    if items != [] {
      var front := items[..|items| - 1];
      UniqueIsDistinct(front);
      assert items == front + [items[|items| - 1]];
    }
  }

  function FactorsOf(signals: seq<Signal>): seq<string> {
    Unique(if signals == [] then [NO_SIGNALS] else Factors(signals))
  }

  lemma MatchedSnoc(table: seq<Signal>, found: seq<bool>, n: nat)
    requires |found| == |table| && n < |table|
    ensures Matched(table[..n + 1], found[..n + 1]) ==
            Matched(table[..n], found[..n]) + if found[n] then [table[n]] else []
  {
    assert table[..n + 1][..n] == table[..n] && found[..n + 1][..n] == found[..n];
  }

  lemma ScoreSnoc(s: int, weights: seq<int>, w: int)
    ensures ScoreOn(s, weights + [w]) == Raise(ScoreOn(s, weights), w)
  {
    assert (weights + [w])[..|weights|] == weights;
  }

  /** The scoring loop over the pattern table. */
  method HeuristicScore(table: seq<Signal>, found: seq<bool>) returns (score: int, factors: seq<string>)
    requires |found| == |table|
    ensures score == Score(Weights(Matched(table, found)))
    ensures factors == FactorsOf(Matched(table, found))
    ensures 0 <= score <= 100
  {
    score, factors := 0, [];
    for n := 0 to |table|
      invariant 0 <= score <= 100
      invariant score == Score(Weights(Matched(table[..n], found[..n])))
      invariant factors == Factors(Matched(table[..n], found[..n]))
    {
      MatchedSnoc(table, found, n);
      ghost var before := Matched(table[..n], found[..n]);
      if found[n] {
        ScoreSnoc(0, Weights(before), table[n].weight);
        assert Weights(before + [table[n]]) == Weights(before) + [table[n].weight];
        assert Factors(before + [table[n]]) == Factors(before) + [table[n].factor];
        score := Min(100, Max(score, table[n].weight) + if score != 0 then 8 else 0);
        factors := factors + [table[n].factor];
      } else {
        assert before + [] == before;
      }
    }
    assert table[..|table|] == table && found[..|table|] == found;
    if factors == [] {
      factors := factors + [NO_SIGNALS];
    }
    score, factors := Min(score, 100), Unique(factors);
  }

  lemma {:induction false} MatchedAreFound(table: seq<Signal>, found: seq<bool>)
    requires |found| == |table|
    ensures forall s :: s in Matched(table, found) <==> exists i :: 0 <= i < |table| && found[i] && table[i] == s
    decreases |table|
  {
    if table != [] {
      var n := |table| - 1;
      MatchedAreFound(table[..n], found[..n]);
      forall s | s in Matched(table, found) ensures exists i :: 0 <= i < |table| && found[i] && table[i] == s {
        if s in Matched(table[..n], found[..n]) {
          var i :| 0 <= i < n && found[..n][i] && table[..n][i] == s;
          assert found[i] && table[i] == s;
        } else {
          assert found[n] && table[n] == s;
        }
      }
      forall s | exists i :: 0 <= i < |table| && found[i] && table[i] == s ensures s in Matched(table, found) {
        var i :| 0 <= i < |table| && found[i] && table[i] == s;
        if i < n {
          assert found[..n][i] && table[..n][i] == s;
        }
      }
    }
  }

  /** The factors are those of the matching signals, each once, or the note that there are none. */
  lemma FactorsAreMatched(table: seq<Signal>, found: seq<bool>, f: string)
    requires |found| == |table|
    ensures f in FactorsOf(Matched(table, found)) <==>
              if exists i :: 0 <= i < |table| && found[i]
              then exists i :: 0 <= i < |table| && found[i] && table[i].factor == f
              else f == NO_SIGNALS
  {
    var signals := Matched(table, found);
    MatchedAreFound(table, found);
    UniqueIsDistinct(if signals == [] then [NO_SIGNALS] else Factors(signals));
    if signals == [] {
      assert forall i :: 0 <= i < |table| && found[i] ==> table[i] in signals;
    } else {
      assert signals[0] in signals;
      assert f in Factors(signals) <==> exists n :: 0 <= n < |signals| && signals[n].factor == f by {
        if f in Factors(signals) {
          var n :| 0 <= n < |signals| && Factors(signals)[n] == f;
        }
        if exists n :: 0 <= n < |signals| && signals[n].factor == f {
          var n :| 0 <= n < |signals| && signals[n].factor == f;
          assert Factors(signals)[n] == f;
        }
      }
      if exists n :: 0 <= n < |signals| && signals[n].factor == f {
        var n :| 0 <= n < |signals| && signals[n].factor == f;
        assert signals[n] in signals;
      }
      if exists i :: 0 <= i < |table| && found[i] && table[i].factor == f {
        var i :| 0 <= i < |table| && found[i] && table[i].factor == f;
        assert table[i] in signals;
        var n :| 0 <= n < |signals| && signals[n] == table[i];
      }
    }
  }

  // ------------------------------------------------------------ closed form

  /** What weight i contributes in the end: itself, and 8 for every match from its own on but the first. */
  function Contribution(weights: seq<int>, i: nat): int
    requires i < |weights|
  {
    weights[i] + 8 * if i == 0 then |weights| - 1 else |weights| - i
  }

  /** The loop's result is the largest contribution, capped at 100. */
  lemma {:induction false} ScoreIsLargestContribution(weights: seq<int>)
    requires weights != [] && forall i :: 0 <= i < |weights| ==> 0 < weights[i] <= 100
    ensures forall i :: 0 <= i < |weights| ==> Min(100, Contribution(weights, i)) <= Score(weights)
    ensures exists i :: 0 <= i < |weights| && Score(weights) == Min(100, Contribution(weights, i))
    decreases |weights|
  {
    var n := |weights| - 1;
    if n == 0 {
      assert ScoreOn(0, weights[..0]) == 0;
      assert Score(weights) == Min(100, Contribution(weights, 0));
    } else {
      var front := weights[..n];
      ScoreIsLargestContribution(front);
      var best :| 0 <= best < n && Score(front) == Min(100, Contribution(front, best));
      assert forall i :: 0 <= i < n ==> Contribution(weights, i) == Contribution(front, i) + 8;
      assert Contribution(weights, n) == weights[n] + 8;
      assert Score(weights) == Min(100, Contribution(weights, best)) ||
             Score(weights) == Min(100, Contribution(weights, n));
    }
  }

  // ----------------------------------------------------------- monotonicity

  lemma {:induction false} ScoreWithin(weights: seq<int>)
    ensures 0 <= Score(weights) <= 100
    decreases |weights|
  {
    if weights != [] {
      ScoreWithin(weights[..|weights| - 1]);
    }
  }

  function ScoreOf(table: seq<Signal>, found: seq<bool>): int
    requires |found| == |table|
  {
    Score(Weights(Matched(table, found)))
  }

  lemma ScoreOfSnoc(table: seq<Signal>, found: seq<bool>)
    requires |found| == |table| > 0
    ensures var n := |table| - 1;
            ScoreOf(table, found) ==
              if found[n] then Raise(ScoreOf(table[..n], found[..n]), table[n].weight)
              else ScoreOf(table[..n], found[..n])
  {
    var n := |table| - 1;
    var before := Matched(table[..n], found[..n]);
    if found[n] {
      ScoreSnoc(0, Weights(before), table[n].weight);
      assert Weights(before + [table[n]]) == Weights(before) + [table[n].weight];
    } else {
      assert Matched(table, found) == before;
    }
  }

  /** More matches never lower the score, for any weight table. */
  lemma {:induction false} MoreMatchesScoreHigher(table: seq<Signal>, less: seq<bool>, more: seq<bool>)
    requires |less| == |more| == |table|
    requires forall i :: 0 <= i < |table| && less[i] ==> more[i]
    ensures ScoreOf(table, less) <= ScoreOf(table, more)
    decreases |table|
  {
    if table != [] {
      var n := |table| - 1;
      MoreMatchesScoreHigher(table[..n], less[..n], more[..n]);
      ScoreOfSnoc(table, less);
      ScoreOfSnoc(table, more);
      ScoreWithin(Weights(Matched(table[..n], less[..n])));
      ScoreWithin(Weights(Matched(table[..n], more[..n])));
    }
  }

  /** Every matched weight is a floor. */
  lemma {:induction false} MatchIsFloor(table: seq<Signal>, found: seq<bool>, i: nat)
    requires |found| == |table| && i < |table| && found[i]
    ensures ScoreOf(table, found) >= Min(100, table[i].weight)
    decreases |table|
  {
    var n := |table| - 1;
    ScoreOfSnoc(table, found);
    ScoreWithin(Weights(Matched(table[..n], found[..n])));
    if i < n {
      MatchIsFloor(table[..n], found[..n], i);
    }
  }

  // ------------------------------------------------------------------ merge

  function NonBlank(items: seq<string>): seq<string> {
    if items == [] then []
    else NonBlank(items[..|items| - 1]) + if items[|items| - 1] != "" then [items[|items| - 1]] else []
  }

  function Level(score: int, threshold: int): RiskLevel {
    if score >= 85 then Critical
    else if score >= threshold then High
    else if score >= 30 then Medium
    else Low
  }

  /** The agent can raise the deterministic score, never lower it. */
  function Merge(local: int, localFactors: seq<string>, agent: int, agentFactors: seq<string>, threshold: int): Risk {
    var safe := Max(0, Min(100, agent));
    var score := Max(local, safe);
    Risk(score, Level(score, threshold), Unique(localFactors + NonBlank(agentFactors)), score >= threshold, local, safe)
  }

  /** The assessment is the higher of the deterministic and the clamped agent score, decides approval by it, and
      names every factor of either side once. */
  lemma MergeTakesTheHigher(local: int, lf: seq<string>, agent: int, af: seq<string>, threshold: int)
    requires 0 <= local <= 100
    ensures var r := Merge(local, lf, agent, af, threshold);
            && local <= r.score <= 100 && (r.score == local || r.score == r.agentScore)
            && 0 <= r.agentScore <= r.score && (0 <= agent <= 100 ==> r.agentScore == agent)
            && r.heuristicScore == local
            && (r.requiresApproval <==> local >= threshold || r.agentScore >= threshold)
            && (forall f :: f in r.factors <==> f in lf || (f in af && f != ""))
            && (forall i, j :: 0 <= i < j < |r.factors| ==> r.factors[i] != r.factors[j])
  {
    UniqueIsDistinct(lf + NonBlank(af));
    NonBlankMembers(af);
  }

  lemma {:induction false} NonBlankMembers(items: seq<string>)
    ensures forall f :: f in NonBlank(items) <==> f in items && f != ""
    decreases |items|
  {
    if items != [] {
      NonBlankMembers(items[..|items| - 1]);
      assert items == items[..|items| - 1] + [items[|items| - 1]];
    }
  }

  /** The four bands of the score. */
  lemma LevelBands(score: int, threshold: int)
    ensures Level(score, threshold).Critical? <==> score >= 85
    ensures Level(score, threshold).High? <==> threshold <= score < 85
    ensures Level(score, threshold).Medium? <==> 30 <= score < 85 && score < threshold
    ensures Level(score, threshold).Low? <==> score < 30 && score < threshold
  {
  }

  predicate Elevated(level: RiskLevel) {
    level.High? || level.Critical?
  }

  /** Level and gate agree exactly outside one window, which is empty for thresholds up to 85: a score
      from 85 up to a higher threshold is CRITICAL and needs no approval. */
  lemma LevelAgreesWithGate(local: int, lf: seq<string>, agent: int, af: seq<string>, threshold: int)
    ensures var r := Merge(local, lf, agent, af, threshold);
            (Elevated(r.level) <==> r.requiresApproval) <==> !(85 <= r.score < threshold)
    ensures threshold <= 85 ==>
              var r := Merge(local, lf, agent, af, threshold); Elevated(r.level) <==> r.requiresApproval
  {
  }

  /** The window is not empty for any higher threshold. */
  lemma LevelDisagrees(threshold: int)
    requires threshold > 85
    ensures exists agent ::
              var r := Merge(0, [NO_SIGNALS], agent, [], threshold); r.level.Critical? && !r.requiresApproval
  {
    var r := Merge(0, [NO_SIGNALS], 85, [], threshold);
    assert r.level.Critical? && !r.requiresApproval;
  }

  // ------------------------------------------------------------- end to end

  function Described(steps: seq<StepRow>): string {
    if steps == [] then ""
    else Described(steps[..|steps| - 1]) + (" " + steps[|steps| - 1].title + " " + steps[|steps| - 1].detail)
  }

  /** The text the patterns are matched against. */
  function Text(t: TaskRow): string {
    t.goal + Described(t.steps)
  }

  predicate OccursAt(part: string, whole: string, k: nat) {
    k + |part| <= |whole| && whole[k..k + |part|] == part
  }

  ghost predicate Occurs(part: string, whole: string) {
    exists k: nat :: OccursAt(part, whole, k)
  }

  lemma OccursLonger(part: string, whole: string, before: string, after: string)
    requires Occurs(part, whole)
    ensures Occurs(part, before + whole + after)
  {
    var k: nat :| OccursAt(part, whole, k);
    var n := |before| + k;
    assert (before + whole + after)[n..n + |part|] == whole[k..k + |part|];
    assert OccursAt(part, before + whole + after, n);
  }

  /** Title and detail of a step, as the patterns see them. */
  function Description(s: StepRow): string {
    " " + s.title + " " + s.detail
  }

  lemma {:induction false} StepsAreDescribed(steps: seq<StepRow>, i: nat)
    requires i < |steps|
    ensures Occurs(Description(steps[i]), Described(steps))
    decreases |steps|
  {
    var n := |steps| - 1;
    var front, last := Described(steps[..n]), Description(steps[n]);
    assert Described(steps) == front + last;
    if i == n {
      assert OccursAt(last, last, 0);
      OccursLonger(last, last, front, "");
      assert front + last + "" == front + last;
    } else {
      StepsAreDescribed(steps[..n], i);
      OccursLonger(Description(steps[i]), front, "", last);
      assert "" + front + last == front + last;
    }
  }

  /** The patterns see the goal, and every step's title and detail. */
  lemma TextNamesEverything(t: TaskRow, i: nat)
    ensures t.goal <= Text(t)
    ensures i < |t.steps| ==> Occurs(Description(t.steps[i]), Text(t))
  {
    if i < |t.steps| {
      StepsAreDescribed(t.steps, i);
      OccursLonger(Description(t.steps[i]), Described(t.steps), t.goal, "");
      assert t.goal + Described(t.steps) + "" == Text(t);
    }
  }

  /** A table of signals, which text each of its patterns matches, and the approval threshold. */
  datatype Policy = Policy(table: seq<Signal>, matches: (int, string) -> bool, threshold: int)
  {
    function Signals(text: string): seq<Signal> {
      Matched(table, seq(|table|, i => matches(i, text)))
    }
  }

  /** The risk of t is what the safety agent's assessment of t yields, for some answer of its model. */
  ghost predicate AssessedAs(p: Policy, t: TaskRow, r: Risk) {
    exists agent, af ::
      var signals := p.Signals(Text(t));
      r == Merge(Score(Weights(signals)), FactorsOf(signals), agent, af, p.threshold)
  }

  ghost predicate Scored(p: Policy, t: TaskRow) {
    t.risk.Some? ==> AssessedAs(p, t, t.risk.value)
  }

  /** Every assessment in the run is one the safety agent makes of the plan in front of it. */
  ghost predicate Assesses(c: Config, w0: World, ls: seq<Label>, p: Policy) {
    forall n :: 0 <= n < |ls| && ls[n].Run? && ls[n].x.Assessed? && Exec(c, w0, ls[..n]).Some? ==>
      AssessedAs(p, Exec(c, w0, ls[..n]).value.live, ls[n].x.risk)
  }

  ghost predicate AllScored(p: Policy, w: World) {
    && Scored(p, w.live)
    && forall j :: 0 <= j < |w.log| ==> Scored(p, w.log[j].row)
  }

  lemma {:induction false} SameText(a: seq<StepRow>, b: seq<StepRow>)
    requires |a| == |b| && forall i :: 0 <= i < |a| ==> SameWorkOrder(a[i], b[i])
    ensures Described(a) == Described(b)
    decreases |a|
  {
    if a != [] {
      var n := |a| - 1;
      assert SameWorkOrder(a[n], b[n]);
      SameText(a[..n], b[..n]);
    }
  }

  lemma GoalFrame(c: Config, k: Ctl, t: TaskRow, x: Input)
    requires Step(c, k, t, x).Some?
    ensures Step(c, k, t, x).value.task.goal == t.goal
  {
    hide ResumeSteps, ResetSteps, PlanOf, FailureText, ValidProposal;
  }

  /** The risk appears only as the safety agent's answer, on an unchanged plan. */
  lemma RiskAppears(c: Config, k: Ctl, t: TaskRow, x: Input)
    requires Step(c, k, t, x).Some? && t.risk.None? && Step(c, k, t, x).value.task.risk.Some?
    ensures x.Assessed? && Step(c, k, t, x).value.task == t.(risk := Some(x.risk))
  {
    if !k.Assessing? {
      RiskFrame(c, k, t, x);
    }
    hide ResumeSteps, ResetSteps, PlanOf, FailureText, ValidProposal;
  }

  lemma ScoredStays(p: Policy, a: TaskRow, b: TaskRow)
    requires Scored(p, a) && a.risk.Some? && SamePlan(a, b) && a.goal == b.goal
    ensures Scored(p, b)
  {
    SameText(a.steps, b.steps);
    assert Text(a) == Text(b);
    hide Text, Merge;
  }

  lemma LiveStaysScored(c: Config, w: World, l: Label, p: Policy)
    requires Inv(c, w) && Scored(p, w.live) && Apply(c, w, l).Some?
    requires l.Run? && l.x.Assessed? ==> AssessedAs(p, w.live, l.x.risk)
    ensures Scored(p, Apply(c, w, l).value.live)
  {
    var v := Apply(c, w, l).value;
    hide Apply, Step, Inv, AssessedAs;
    if l.Run? {
      RunEffect(c, w, l.x);
      GoalFrame(c, w.ctl, w.live, l.x);
    } else {
      OutsiderEffect(c, w, l);
    }
    if w.live.risk.Some? {
      ApplyKeepsPlan(c, w, l);
      ScoredStays(p, w.live, v.live);
    } else if v.live.risk.Some? {
      RiskAppears(c, w.ctl, w.live, l.x);
      assert Text(v.live) == Text(w.live);
      SameAssessment(p, w.live, v.live, l.x.risk);
    }
  }

  lemma SameAssessment(p: Policy, a: TaskRow, b: TaskRow, r: Risk)
    requires AssessedAs(p, a, r) && Text(a) == Text(b)
    ensures AssessedAs(p, b, r)
  {
    hide Merge, Text;
  }

  lemma ScoredGrows(c: Config, w: World, l: Label, p: Policy)
    requires Inv(c, w) && AllScored(p, w) && Apply(c, w, l).Some?
    requires l.Run? && l.x.Assessed? ==> AssessedAs(p, w.live, l.x.risk)
    ensures AllScored(p, Apply(c, w, l).value)
  {
    var v := Apply(c, w, l).value;
    hide Apply, Step, Inv, Scored, AssessedAs;
    LiveStaysScored(c, w, l, p);
    if l.Run? {
      RunEffect(c, w, l.x);
    } else {
      OutsiderEffect(c, w, l);
    }
  }

  lemma {:induction false} RunsAreScored(c: Config, w0: World, ls: seq<Label>, w: World, p: Policy)
    requires Reaches(c, w0, ls, w) && Assesses(c, w0, ls, p)
    ensures AllScored(p, w)
    decreases |ls|
  {
    hide Apply, Inv, AssessedAs;
    if ls != [] {
      var n := |ls| - 1;
      var v := Exec(c, w0, ls[..n]).value;
      assert forall i :: 0 <= i < n ==> ls[..n][..i] == ls[..i];
      RunsAreScored(c, w0, ls[..n], v, p);
      ReachableInv(c, w0, ls[..n], v);
      ScoredGrows(c, v, ls[n], p);
    }
  }

  /** The plan's text matches a pattern whose weight, as far as a score can express it, reaches the threshold. */
  predicate Flagged(p: Policy, t: TaskRow) {
    exists i :: 0 <= i < |p.table| && p.matches(i, Text(t)) && Min(100, p.table[i].weight) >= p.threshold
  }

  lemma FloorNeedsApproval(p: Policy, t: TaskRow)
    requires t.risk.Some? && Scored(p, t) && Flagged(p, t)
    ensures t.risk.value.requiresApproval
  {
    var i :| 0 <= i < |p.table| && p.matches(i, Text(t)) && Min(100, p.table[i].weight) >= p.threshold;
    MatchIsFloor(p.table, seq(|p.table|, n => p.matches(n, Text(t))), i);
    hide Score, Weights, Matched, FactorsOf, Text;
  }

  /** The model-proof floor, end to end: if the plan's text matches a pattern whose weight reaches the
      threshold, then, whatever the safety model answers, no step is ever attempted without an approval
      or the request's own `auto_approve`. */
  lemma FloorIsEnforced(c: Config, w0: World, ls: seq<Label>, w: World, p: Policy, j: nat)
    requires Reaches(c, w0, ls, w) && Assesses(c, w0, ls, p)
    requires j < |w.log| && w.log[j].event.StepAttempted? && Flagged(p, w.log[j].row)
    ensures w.log[j].row.decision == Some(true) || w.log[j].row.autoApprove
  {
    hide Exec, Reaches, Assesses, Scored, Flagged;
    GateSafety(c, w0, ls, w);
    RunsAreScored(c, w0, ls, w, p);
    assert Permitted(w.log[j].row);
    FloorNeedsApproval(p, w.log[j].row);
  }

  /** The floor for the table in force, whose weights are all possible scores: whichever of its patterns matches the
      plan's text, if its weight is at or above the threshold, no step is attempted without an approval or
      `auto_approve`. */
  lemma HeuristicsAreEnforced(c: Config, w0: World, ls: seq<Label>, w: World,
                              matches: (int, string) -> bool, threshold: int, j: nat, i: nat)
    requires Reaches(c, w0, ls, w) && Assesses(c, w0, ls, Policy(HEURISTICS, matches, threshold))
    requires j < |w.log| && w.log[j].event.StepAttempted?
    requires i < |HEURISTICS| && matches(i, Text(w.log[j].row)) && HEURISTICS[i].weight >= threshold
    ensures w.log[j].row.decision == Some(true) || w.log[j].row.autoApprove
  {
    hide Reaches, Assesses, Text;
    var p := Policy(HEURISTICS, matches, threshold);
    assert p.matches(i, Text(w.log[j].row)) && Min(100, p.table[i].weight) >= p.threshold;
    FloorIsEnforced(c, w0, ls, w, p, j);
  }
}
