/** The worker entry point: one delivery of a task message, under the per-task lock, while every
    other process does what it likes. */
module TaskQueue {
  import opened Models
  import opened Controller
  import opened Celery
  import opened CeleryRuns
  import Invariants
  import CelerySafety
  import Cost
  import opened Outside

  /** What process p is in the middle of, with the run that belongs to it. */
  ghost predicate Same(w: World, v: World, p: nat) {
    && p < |w.procs| == |v.procs| && v.procs[p] == w.procs[p]
    && (w.procs[p].act.Working? && w.procs[p].act.run < |w.trips| ==>
          w.procs[p].act.run < |v.trips| && v.trips[w.procs[p].act.run] == w.trips[w.procs[p].act.run])
  }

  ghost predicate Busy(w: World, n: nat) {
    exists p :: 0 <= p < |w.procs| && w.procs[p].act.Working? && w.procs[p].act.run == n
  }

  /** Runs that are over stay as they are. */
  ghost predicate Archived(w: World, v: World) {
    && |w.procs| == |v.procs|
    && forall n :: 0 <= n < |w.trips| && !Busy(w, n) ==> n < |v.trips| && v.trips[n] == w.trips[n] && !Busy(v, n)
  }

  lemma ApplyArchives(c: Config, w: World, l: Label)
    requires Runs(c, w) && Apply(c, w, l).Some?
    ensures Archived(w, Apply(c, w, l).value)
  {
    hide Step, TripOk, AtWork;
  }

  /** A run that has ended, about to be left. */
  lemma LeavingArchives(c: Config, w: World, p: nat)
    requires Runs(c, w) && p < |w.procs| && w.procs[p].act.Working? && Ended(w.procs[p].act.ctl)
    ensures var n := w.procs[p].act.run;
            && n < |w.trips| && !Busy(Turn(w, p, Leaving), n)
            && Trace(c, w.trips[n].from, w.trips[n].inputs).Some?
            && Ended(Trace(c, w.trips[n].from, w.trips[n].inputs).value.ctl)
  {
    hide TripOk, Trace;
    assert AtWork(c, w.procs[p], w.trips);
  }

  /** Since the labels were `before`, p has not died. */
  ghost predicate Spared(before: seq<Label>, after: seq<Label>, p: nat) {
    before <= after && forall n :: |before| <= n < |after| ==> after[n] != Crash(p)
  }

  /** Some label after `before` lets p load a row that has ended. */
  ghost predicate FoundEnded(c: Config, w0: World, before: seq<Label>, after: seq<Label>, p: nat) {
    exists n :: |before| <= n < |after| && after[n] == Label.Go(p) && LoadsEnded(Exec(c, w0, after[..n]), p)
  }

  predicate LoadsEnded(w: Option<World>, p: nat) {
    w.Some? && p < |w.value.procs| && w.value.procs[p].act.Loading? && w.value.row.status.Terminal()
  }

  lemma FoundEarlier(c: Config, w0: World, before: seq<Label>, mid: seq<Label>, after: seq<Label>, p: nat)
    requires FoundEnded(c, w0, before, mid, p) && mid <= after
    ensures FoundEnded(c, w0, before, after, p)
  {
    hide Exec, LoadsEnded;
    var n :| |before| <= n < |mid| && mid[n] == Label.Go(p) && LoadsEnded(Exec(c, w0, mid[..n]), p);
    assert after[..n] == mid[..n];
  }

  predicate Foreign(l: Label, p: nat) {
    l.Duplicate? || l.LeaseEnds? || l.p != p
  }

  lemma ForeignKeepsRun(c: Config, w: World, l: Label, p: nat)
    requires Runs(c, w) && Apply(c, w, l).Some? && Foreign(l, p) && p < |w.procs|
    ensures Same(w, Apply(c, w, l).value, p)
  {
    hide Step, TripOk, AtWork;
  }

  /** The inputs of a run are what the replies that arrived during it mean, in order. */
  predicate Heeds(c: Config, from: TaskRow, inputs: seq<Input>, rs: seq<Reply>)
    decreases |inputs|
  {
    if inputs == [] then rs == []
    else
      var n, m := |inputs| - 1, |rs| - 1;
      var q := Trace(c, from, inputs[..n]);
      && q.Some?
      && if Asks(q.value.ctl)
         then && rs != [] && inputs[n] == Understood(q.value.ctl, q.value.task, rs[m])
              && Heeds(c, from, inputs[..n], rs[..m])
         else Heeds(c, from, inputs[..n], rs)
  }

  lemma HeedsSnoc(c: Config, from: TaskRow, inputs: seq<Input>, rs: seq<Reply>, x: Input, r: Reply)
    requires Heeds(c, from, inputs, rs) && Trace(c, from, inputs).Some?
    ensures var q := Trace(c, from, inputs).value;
            if Asks(q.ctl) then x == Understood(q.ctl, q.task, r) ==> Heeds(c, from, inputs + [x], rs + [r])
            else Heeds(c, from, inputs + [x], rs)
  {
    assert (inputs + [x])[..|inputs|] == inputs && (rs + [r])[..|rs|] == rs;
    hide Trace;
  }

  /** Whatever the reply, the run can go on with what it means. */
  lemma RepliesFit(c: Config, k: Ctl, t: TaskRow, r: Reply)
    requires Invariants.Local(c, k, t) && Asks(k)
    ensures Step(c, k, t, Understood(k, t, r)).Some?
  {
    assert k.Calling? ==> k.i < |t.steps| by {
      hide Invariants.Sound, Invariants.Front;
    }
    hide PlanOf, ValidProposal, Invariants.Local;
  }

  /** The shared state of broker, database and processes. */
  class Cluster {
    const cfg: Config
    const outside: Surroundings
    var world: World
    ghost var origin: World
    ghost var labels: seq<Label>

    ghost predicate Valid()
      reads this
    {
      Reaches(cfg, origin, labels, world)
    }

    /** A task stored by process p, one of n. */
    constructor (cfg: Config, id: string, goal: string, tenant: string, autoApprove: bool, n: nat, p: nat)
      requires cfg.celery
      ensures Valid() && labels == [] && world == Created(NewTask(id, goal, tenant, autoApprove), n, p)
      ensures fresh(outside)
    {
      var t := NewTask(id, goal, tenant, autoApprove);
      this.cfg := cfg;
      outside := new Surroundings();
      world := Created(t, n, p);
      origin := Created(t, n, p);
      labels := [];
    }

    method Take(l: Label)
      requires Valid() && Apply(cfg, world, l).Some?
      modifies this
      ensures Valid() && origin == old(origin) && labels == old(labels) + [l]
      ensures world == Apply(cfg, old(world), l).value
    {
      hide Apply;
      ExecSnoc(cfg, origin, labels, l);
      labels := labels + [l];
      world := Apply(cfg, world, l).value;
    }

    /** Anything that p has no part in, any number of times. */
    method Others(p: nat)
      requires Valid() && p < |world.procs|
      modifies this
      ensures Valid() && origin == old(origin) && Same(old(world), world, p) && Archived(old(world), world)
      ensures Spared(old(labels), labels, p)
    {
      var times: nat :| true;
      for i := 0 to times
        invariant Valid() && origin == old(origin) && Same(old(world), world, p) && Archived(old(world), world)
        invariant Spared(old(labels), labels, p)
      {
        OneOther(p);
      }
    }

    method OneOther(p: nat)
      requires Valid() && p < |world.procs|
      modifies this
      ensures Valid() && origin == old(origin) && Same(old(world), world, p) && Archived(old(world), world)
      ensures Spared(old(labels), labels, p)
    {
      hide Apply, Runs;
      var l: Label := *;
      if Foreign(l, p) && Apply(cfg, world, l).Some? {
        ReachableRuns(cfg, origin, labels, world);
        ForeignKeepsRun(cfg, world, l, p);
        ApplyArchives(cfg, world, l);
        Take(l);
      }
    }

    /** The run's next input: where it asks, what the reply means. */
    method Ask(k: Ctl, t: TaskRow) returns (x: Input)
      requires Invariants.Local(cfg, k, t) && !Ended(k)
      modifies outside`replies
      ensures Step(cfg, k, t, x).Some?
      ensures if Asks(k) then
                && |outside.replies| == |old(outside.replies)| + 1
                && outside.replies == old(outside.replies) + [outside.replies[|old(outside.replies)|]]
                && x == Understood(k, t, outside.replies[|old(outside.replies)|])
              else outside.replies == old(outside.replies)
    {
      hide Step, Invariants.Local, Understood;
      if Asks(k) {
        var r := outside.Consult();
        RepliesFit(cfg, k, t, r);
        return Understood(k, t, r);
      }
      Cost.NeverStuck(cfg, k, t);
      return Cost.Fallback(k);
    }

    /** The run in p has heeded the replies since the first `heard`. */
    ghost predicate Heeding(p: nat, heard: nat)
      reads this, outside`replies
    {
      && p < |world.procs| && world.procs[p].act.Working? && world.procs[p].act.run < |world.trips|
      && heard <= |outside.replies|
      && var trip := world.trips[world.procs[p].act.run];
      Heeds(cfg, trip.from, trip.inputs, outside.replies[heard..])
    }

    /** One step of the run in p. */
    method Advance(p: nat, ghost heard: nat)
      requires Valid() && p < |world.procs| && world.procs[p].act.Working? && !Ended(world.procs[p].act.ctl)
      requires Heeding(p, heard)
      modifies this, outside`replies
      ensures Valid() && origin == old(origin) && |world.procs| == |old(world).procs|
      ensures world.procs[p].act.Working? && world.procs[p].act.run == old(world).procs[p].act.run
      ensures world.procs[p].copy.Some? && old(world).procs[p].copy.Some?
      ensures Cost.Below(Cost.RankOf(cfg, world.procs[p].act.ctl, world.procs[p].copy.value),
                         Cost.RankOf(cfg, old(world).procs[p].act.ctl, old(world).procs[p].copy.value))
      ensures Spared(old(labels), labels, p) && Heeding(p, heard)
    {
      hide Step, CelerySafety.Inv, Cost.RankOf, Reaches, Invariants.Local, Runs, AtWork, Heeds, Understood;
      CelerySafety.ReachableInv(cfg, origin, labels, world);
      ReachableRuns(cfg, origin, labels, world);
      WorkerIsLocal(cfg, world, p);
      WorkerIsTraced(cfg, world, p);
      var k, t := world.procs[p].act.ctl, world.procs[p].copy.value;
      ghost var trip, rs := world.trips[world.procs[p].act.run], outside.replies[heard..];
      var x := Ask(k, t);
      Cost.StepsDescend(cfg, k, t, x);
      HeedsSnoc(cfg, trip.from, trip.inputs, rs, x, LastReply());
      hide Trace;
      Take(Run(p, x));
      assert Asks(k) ==> outside.replies[heard..] == rs + [LastReply()];
    }

    ghost function LastReply(): Reply
      reads outside`replies
    {
      if outside.replies == [] then Reply.Reply(Input.Go, "") else outside.replies[|outside.replies| - 1]
    }

    /** The run from where it is to its end. */
    method Finish(p: nat, ghost heard: nat)
      requires Valid() && p < |world.procs| && world.procs[p].act.Working? && world.procs[p].copy.Some?
      requires Heeding(p, heard)
      modifies this, outside`replies
      ensures Valid() && origin == old(origin) && |world.procs| == |old(world).procs|
      ensures world.procs[p].act.Working? && world.procs[p].act.run == old(world).procs[p].act.run
      ensures Ended(world.procs[p].act.ctl)
      ensures Spared(old(labels), labels, p) && Heeding(p, heard)
    {
      hide Apply, Reaches, Cost.RankOf, Heeds;
      while !Ended(world.procs[p].act.ctl)
        invariant Valid() && origin == old(origin) && |world.procs| == |old(world).procs|
        invariant world.procs[p].act.Working? && world.procs[p].act.run == old(world).procs[p].act.run
        invariant world.procs[p].copy.Some? && Spared(old(labels), labels, p) && Heeding(p, heard)
        decreases Cost.RankOf(cfg, world.procs[p].act.ctl, world.procs[p].copy.value).phase,
                  Cost.RankOf(cfg, world.procs[p].act.ctl, world.procs[p].copy.value).rounds,
                  Cost.RankOf(cfg, world.procs[p].act.ctl, world.procs[p].copy.value).open,
                  Cost.RankOf(cfg, world.procs[p].act.ctl, world.procs[p].copy.value).fine
      {
        Others(p);
        Advance(p, heard);
      }
    }

    /** One delivery. If the lock is held the message is dropped and nothing is committed. Otherwise the row is
        loaded; if it has ended nothing is committed for it; else the run goes to its end, its commits
        are exactly those of the controller from the loaded row on what the replies mean, and worker and lock are
        free again. */
    method ExecuteTask(p: nat) returns (run: Option<nat>)
      requires Valid() && p < |world.procs| && world.procs[p].act.Idle? && world.messages > 0
      modifies this, outside`replies
      ensures Valid() && origin == old(origin) && |world.procs| == |old(world).procs|
      ensures world.procs[p].act.Idle?
      ensures old(world).lock.Some? ==> run.None? && world == old(world).(messages := old(world).messages - 1)
      ensures run.Some? ==>
                && run.value < |world.trips| && |world.authors| == |world.log|
                && var trip := world.trips[run.value];
                && !trip.from.status.Terminal()
                && Trace(cfg, trip.from, trip.inputs).Some?
                && Ended(Trace(cfg, trip.from, trip.inputs).value.ctl)
                && Trace(cfg, trip.from, trip.inputs).value.commits == CommitsOf(world.log, world.authors, run.value)
      ensures run.Some? ==>
                && |old(outside.replies)| <= |outside.replies|
                && var trip := world.trips[run.value];
                Heeds(cfg, trip.from, trip.inputs, outside.replies[|old(outside.replies)|..])
      ensures Spared(old(labels), labels, p)
      ensures old(world).lock.None? ==> world.lock != Some(p)
      ensures old(world).lock.None? && run.None? ==> FoundEnded(cfg, origin, old(labels), labels, p)
    {
      hide Reaches, RunStep, Trace, CommitsOf, Busy;
      if world.lock.Some? {
        Take(Drop(p));
        return None;
      }
      Load(p);
      if world.procs[p].act.Leaving? {
        run := None;
      } else {
        run := Some(world.procs[p].act.run);
        assert outside.replies[|outside.replies|..] == [];
        Finish(p, |outside.replies|);
        Leave(p);
      }
      ghost var mid := labels;
      ReleaseLock(p, run);
      if run.None? {
        FoundEarlier(cfg, origin, old(labels), mid, labels, p);
      }
    }

    /** The message is taken and, after whatever happens meanwhile, the row is loaded. */
    method Load(p: nat)
      requires Valid() && p < |world.procs| && world.procs[p].act.Idle? && world.messages > 0 && world.lock.None?
      modifies this
      ensures Valid() && origin == old(origin) && |world.procs| == |old(world).procs|
      ensures Spared(old(labels), labels, p)
      ensures world.procs[p].act.Leaving? || world.procs[p].act.Working?
      ensures world.procs[p].act.Leaving? ==> FoundEnded(cfg, origin, old(labels), labels, p)
      ensures world.procs[p].act.Working? ==>
                && world.procs[p].copy.Some? && world.procs[p].act.run < |world.trips|
                && world.trips[world.procs[p].act.run].inputs == []
                && Heeds(cfg, world.trips[world.procs[p].act.run].from, [], [])
    {
      hide Reaches, RunStep, Trace, CommitsOf, Busy;
      Take(Deliver(p));
      Others(p);
      ghost var loading := labels;
      ReachesHere();
      Take(Label.Go(p));
      assert labels[..|loading|] == loading && labels[|loading|] == Label.Go(p);
      if world.procs[p].act.Leaving? {
        assert LoadsEnded(Exec(cfg, origin, labels[..|loading|]), p);
      }
    }

    lemma ReachesHere()
      requires Valid()
      ensures Exec(cfg, origin, labels) == Some(world)
    {
    }

    method Leave(p: nat)
      requires Valid() && p < |world.procs| && world.procs[p].act.Working? && Ended(world.procs[p].act.ctl)
      modifies this
      ensures Valid() && origin == old(origin) && world == Turn(old(world), p, Leaving)
      ensures Over(old(world).procs[p].act.run)
      ensures Spared(old(labels), labels, p)
    {
      hide Reaches, RunStep, Runs, Busy;
      ReachableRuns(cfg, origin, labels, world);
      LeavingArchives(cfg, world, p);
      Take(Label.Go(p));
    }

    /** Run n has gone to its end. */
    ghost predicate Over(n: nat)
      reads this
    {
      && n < |world.trips| && !Busy(world, n)
      && Trace(cfg, world.trips[n].from, world.trips[n].inputs).Some?
      && Ended(Trace(cfg, world.trips[n].from, world.trips[n].inputs).value.ctl)
    }

    method ReleaseLock(p: nat, ghost run: Option<nat>)
      requires Valid() && p < |world.procs| && world.procs[p].act.Leaving? && (run.Some? ==> Over(run.value))
      modifies this
      ensures Valid() && origin == old(origin) && |world.procs| == |old(world).procs|
      ensures world.procs[p].act.Idle?
      ensures run.Some? ==>
                && run.value < |world.trips| && |world.authors| == |world.log|
                && var trip := world.trips[run.value];
                && !trip.from.status.Terminal()
                && Trace(cfg, trip.from, trip.inputs).Some?
                && Ended(Trace(cfg, trip.from, trip.inputs).value.ctl)
                && Trace(cfg, trip.from, trip.inputs).value.commits == CommitsOf(world.log, world.authors, run.value)
      ensures Spared(old(labels), labels, p)
      ensures world.lock != Some(p)
      ensures run.Some? ==> world.trips[run.value] == old(world).trips[run.value]
    {
      hide Reaches, RunStep, Trace, CommitsOf, Busy;
      Others(p);
      Take(Label.Go(p));
      if run.Some? {
        RunsStartFromTheRow(cfg, origin, labels, world, run.value);
      }
    }
  }

  /** A run in progress satisfies the controller's own invariant. */
  lemma WorkerIsLocal(c: Config, w: World, p: nat)
    requires CelerySafety.Inv(c, w) && Runs(c, w) && p < |w.procs| && w.procs[p].act.Working?
    ensures w.procs[p].copy.Some? && Invariants.Local(c, w.procs[p].act.ctl, w.procs[p].copy.value)
    ensures w.procs[p].act.run < |w.trips|
  {
    assert CelerySafety.ProcOk(c, w.procs[p]);
    assert AtWork(c, w.procs[p], w.trips);
    hide Invariants.Local, CelerySafety.Inv, Runs;
  }

  /** A run in progress is where its inputs have led. */
  lemma WorkerIsTraced(c: Config, w: World, p: nat)
    requires Runs(c, w) && p < |w.procs| && w.procs[p].act.Working?
    ensures w.procs[p].copy.Some? && w.procs[p].act.run < |w.trips|
    ensures var trip := w.trips[w.procs[p].act.run];
            var q := Trace(c, trip.from, trip.inputs);
            q.Some? && q.value.ctl == w.procs[p].act.ctl && q.value.task == w.procs[p].copy.value
  {
    assert AtWork(c, w.procs[p], w.trips);
    hide Runs, Trace;
  }
}
