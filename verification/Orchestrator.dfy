/** The orchestrator of one task, updating the live task in place and committing every snapshot.

    Each commit must be one the system can make at its control point, so the history a store
    holds is a run of the system, and every theorem about runs holds of it. A crash needs no
    code: it leaves a store that is still valid, from which `Recover` starts. */
module Orchestration {
  import opened Models
  import opened Controller
  import opened Invariants
  import opened InProcess
  import opened SystemInvariant
  import opened Entities
  import opened Safety
  import opened Outside
  import opened Conduct

  // What the machine does at the control points where the methods below commit. Naming one control
  // point at a time keeps the methods from unfolding the whole machine.

  lemma AtStart(c: Config, t: TaskRow)
    ensures Step(c, Start, t, Go) ==
            if t.steps == [] || t.risk.None? then Controller.SetStatus(PlanOpened, t, TaskStatus.Planning)
            else Silent(Gate, t.(steps := ResumeSteps(t.steps)))
  {
  }

  lemma AtPlanOpened(c: Config, t: TaskRow)
    ensures Step(c, PlanOpened, t, Go) == Emitted(Ctl.Planning, t, AgentStarted("planner"))
  {
  }

  lemma AtPlanning(c: Config, t: TaskRow, x: Input)
    ensures Step(c, Ctl.Planning, t, x) == PlanMove(t, x)
  {
  }

  lemma AtPlanned(c: Config, t: TaskRow)
    ensures Step(c, Planned, t, Go) == Controller.SetStatus(AssessOpened, t, AssessingRisk)
    ensures Step(c, AssessOpened, t.(status := AssessingRisk), Go) ==
            Emitted(Assessing, t.(status := AssessingRisk), AgentStarted("safety"))
  {
  }

  lemma AtAssessing(c: Config, t: TaskRow, x: Input)
    ensures Step(c, Assessing, t, x) == AssessMove(t, x)
  {
  }

  lemma AtGate(c: Config, t: TaskRow)
    ensures Step(c, Gate, t, Go) == GateMove(c, t)
  {
  }

  lemma AtWaiting(c: Config, t: TaskRow, x: Input)
    ensures Step(c, Waiting, t, x) == WaitMove(t, x)
  {
  }

  lemma AtRefused(c: Config, t: TaskRow)
    ensures Step(c, Refused, t, Go) == Controller.Deny(t)
  {
  }

  lemma AtCleared(c: Config, t: TaskRow)
    ensures Step(c, Cleared, t, Go) == Launch(t)
  {
  }

  lemma AtLoop(c: Config, t: TaskRow, r: nat, i: nat)
    ensures Step(c, Loop(r, i), t, Go) == LoopMove(t, r, i)
  {
  }

  lemma AtReady(c: Config, t: TaskRow, r: nat, i: nat)
    requires i < |t.steps|
    ensures Step(c, Ready(r, i), t, Go) == ReadyMove(t, r, i)
  {
  }

  lemma AtAttempt(c: Config, t: TaskRow, r: nat, i: nat, a: nat)
    requires i < |t.steps|
    ensures Step(c, Attempt(r, i, a), t, Go) == AttemptMove(t, r, i, a)
  {
  }

  lemma AtDoomed(c: Config, t: TaskRow)
    ensures Step(c, Doomed, t, Go) == Controller.SetStatus(Finishing(true), t, TaskStatus.Failed)
    ensures Step(c, Failing, t, Go) == Emitted(Doomed, t, TaskFailed(t.error))
  {
  }

  lemma AtCalling(c: Config, t: TaskRow, r: nat, i: nat, a: nat, x: Input)
    requires i < |t.steps|
    ensures Step(c, Calling(r, i, a), t, x) == CallMove(c, t, r, i, a, x)
  {
  }

  lemma AtBroken(c: Config, t: TaskRow)
    ensures Step(c, Broken, t, Go) == Controller.Handle(t, false, "RuntimeError: " + FailureText(t.steps))
  {
  }

  lemma AtRework(c: Config, t: TaskRow, r: nat)
    ensures Step(c, Ctl.Rework(r), t, Go) == Controller.SetStatus(Loop(r + 1, 0), Reset(t), TaskStatus.Running)
  {
  }

  lemma AtSynthesizing(c: Config, t: TaskRow, x: Input)
    ensures Step(c, Synthesizing, t, x) == ReportMove(t, x)
  {
  }

  lemma AtReported(c: Config, t: TaskRow)
    ensures Step(c, Reported, t, Go) == Controller.SetStatus(Finishing(false), t, TaskStatus.Completed)
  {
  }

  lemma AtFinishing(c: Config, t: TaskRow, h: bool, x: Input)
    ensures Step(c, Finishing(h), t, x) == FinishMove(t, h, x)
  {
  }

  function Faults(w: World, x: Input): nat {
    w.faults + if MemoryFault(w.ctl, x) then 1 else 0
  }

  lemma RunSaves(c: Config, w: World, x: Input, k: Ctl, t: TaskRow, e: Event)
    requires Step(c, w.ctl, w.live, x) == Emitted(k, t, e) && w.announcing.None? && !x.Polled?
    ensures Apply(c, w, Run(x)) == Some(Save(w.(ctl := k, faults := Faults(w, x)), t, e))
  {
    hide Step;
  }

  lemma RunPasses(c: Config, w: World, x: Input, k: Ctl, t: TaskRow)
    requires Step(c, w.ctl, w.live, x) == Silent(k, t) && w.announcing.None?
    requires x.Polled? ==> w.row.decision == Some(x.approved)
    ensures Apply(c, w, Run(x)) == Some(w.(ctl := k, live := t, faults := Faults(w, x)))
  {
    hide Step;
  }

  // What reviewers and the janitor do.

  lemma Claims(c: Config, w: World, approved: bool)
    requires !c.celery && w.announcing.None? && w.janitor.Idle? && Undecided(w.row)
    ensures Apply(c, w, InProcess.Decide(approved)) ==
            Some(w.(row := w.row.(decision := Some(approved)), announcing := Some(approved)))
    ensures Apply(c, w, Claim) == Some(w.(row := w.row.(decision := Some(false)), janitor := Claimed))
  {
  }

  lemma Announces(c: Config, w: World)
    requires w.announcing.Some?
    ensures Apply(c, w, Announce) == Some(Save(w.(announcing := None), w.live.(decision := w.announcing),
                                               ApprovalResolved(w.announcing.value)))
  {
  }

  lemma Expires(c: Config, w: World)
    requires w.janitor.Claimed?
    ensures Apply(c, w, Expire) ==
            Some(Save(w.(janitor := Expired), w.live.(decision := Some(false)), ApprovalTimeout))
  {
  }

  lemma Stops(c: Config, w: World)
    requires w.janitor.Expired?
    ensures Apply(c, w, Stop) ==
            Some(Save(w.(janitor := Stopped), w.live.(result := DENIED_RESULT, status := Denied),
                      StatusChanged(Denied)))
  {
  }

  lemma Closes(c: Config, w: World)
    requires w.janitor.Stopped?
    ensures Apply(c, w, Label.EndStream) == Some(Save(w.(janitor := Idle), w.live, StreamEnd(w.live.status)))
    ensures Apply(c, w, MemoryLost) == Some(w.(janitor := Idle))
  {
  }

  class Orchestrator {
    const store: Store
    const task: Task
    const outside: Surroundings
    /** How long the runner waits for a decision, in quarter seconds of sleep. */
    const ticks: nat

    /** Accepts a new task: the row and `task.created` are stored before anything runs. */
    constructor Create(cfg: Config, id: string, goal: string, tenant: string, autoApprove: bool, ticks: nat)
      ensures At(Start) && store.cfg == cfg && store.labels == [] && fresh(outside) && this.ticks == ticks
      ensures task.Row() == store.row == NewTask(id, goal, tenant, autoApprove)
    {
      var t := NewTask(id, goal, tenant, autoApprove);
      store := new Store(cfg, t);
      task := new Task(t);
      outside := new Surroundings();
      this.ticks := ticks;
    }

    /** Picks an unfinished task up again after a restart, wherever the previous process stopped. */
    constructor Recover(store: Store, ticks: nat)
      requires store.Valid() && !store.cfg.celery && !store.row.status.Terminal()
      modifies store
      ensures this.store == store && At(Start) && fresh(outside) && this.ticks == ticks
      ensures store.row == old(store.row) && task.Row() == store.row
      ensures store.events == old(store.events) + [TaskRecovered(store.row.status)]
      ensures store.labels == old(store.labels) + [Restart] && store.origin == old(store.origin)
    {
      this.store := store;
      task := new Task(store.row);
      outside := new Surroundings();
      this.ticks := ticks;
      new;
      Emit(TaskRecovered(task.status), Restart);
    }

    /** The store holds a run of the system, and the live task is where that run has it. */
    ghost predicate Valid()
      reads store, task, task.steps
    {
      && store.Valid()
      && task.Valid()
      && store.world.live == task.Row()
    }

    /** No reviewer and no janitor is in the middle of a call. */
    ghost predicate Calm()
      reads store
    {
      store.world.announcing.None? && store.world.janitor.Idle?
    }

    ghost predicate At(k: Ctl)
      reads store, task, task.steps
    {
      Valid() && Calm() && store.world.ctl == k
    }

    /** Where the runner waits for something from outside, x is what the last reply means. */
    ghost predicate Heard(x: Input)
      reads store, outside`replies
    {
      Asks(store.world.ctl) ==>
        |outside.replies| > 0 &&
        x == Understood(store.world.ctl, store.world.live, outside.replies[|outside.replies| - 1])
    }

    /** Exactly one reply has arrived since there were n. */
    ghost predicate OneReply(before: seq<Reply>)
      reads outside`replies
    {
      |outside.replies| == |before| + 1 && outside.replies[..|before|] == before
    }

    ghost function LastReply(): Reply
      requires |outside.replies| > 0
      reads outside`replies
    {
      outside.replies[|outside.replies| - 1]
    }

    /** An exception is on its way to the handler of the run. */
    ghost predicate Raising(f: Flow, x: Input)
      reads store, task, task.steps, outside`replies
    {
      && f.Throw?
      && Valid() && Calm() && Heard(x)
      && !x.Polled? && !x.DeadlinePassed?
      && Step(store.cfg, store.world.ctl, store.world.live, x) ==
         Controller.Handle(store.world.live, f.provider, f.message)
      && (store.world.ctl.Finishing? ==> store.world.ctl == Finishing(false))
    }

    /** Saves the live task with an event. */
    method Emit(e: Event, ghost l: Label)
      requires store.Valid() && task.Valid() && Apply(store.cfg, store.world, l).Some?
      requires var v := Apply(store.cfg, store.world, l).value;
               && v.live == task.Row() && v.row == task.Row()
               && v.log == store.world.log + [Models.Commit.Commit(e, task.Row())]
      modifies store
      ensures Valid() && store.origin == old(store.origin)
      ensures store.row == task.Row() && store.events == old(store.events) + [e]
      ensures store.labels == old(store.labels) + [l]
      ensures store.world == Apply(store.cfg, old(store.world), l).value
    {
      store.SaveTaskAndEvent(task.Row(), e, l);
    }

    /** A step that commits nothing. */
    ghost method Pass(l: Label)
      requires store.Valid() && task.Valid() && Apply(store.cfg, store.world, l).Some?
      requires var v := Apply(store.cfg, store.world, l).value;
               v.live == task.Row() && v.row == store.world.row && v.log == store.world.log
      modifies store`labels, store`world
      ensures Valid() && store.origin == old(store.origin)
      ensures store.labels == old(store.labels) + [l]
      ensures store.world == Apply(store.cfg, old(store.world), l).value
    {
      store.Advance(l);
    }

    /** A commit of the runner itself: snapshot and event as its control point has them. */
    method Commit(e: Event, ghost x: Input, ghost k: Ctl)
      requires store.Valid() && task.Valid() && Calm() && !x.Polled? && Heard(x)
      requires x.DeadlinePassed? ==> outside.clock >= outside.since + ticks
      requires Step(store.cfg, store.world.ctl, store.world.live, x) == Emitted(k, task.Row(), e)
      modifies store
      ensures At(k) && store.origin == old(store.origin)
      ensures store.row == task.Row() && store.events == old(store.events) + [e]
      ensures store.labels == old(store.labels) + [Run(x)]
    {
      RunSaves(store.cfg, store.world, x, k, task.Row(), e);
      hide Step, Apply, Exec, Store.Valid, Rows, Distinct, FailureText;
      Emit(e, Run(x));
    }

    /** A silent step of the runner. */
    ghost method Move(x: Input, k: Ctl)
      requires store.Valid() && task.Valid() && Calm() && Heard(x)
      requires x.Polled? ==> store.row.decision == Some(x.approved)
      requires Step(store.cfg, store.world.ctl, store.world.live, x) == Silent(k, task.Row())
      modifies store`labels, store`world
      ensures At(k) && store.origin == old(store.origin)
      ensures store.labels == old(store.labels) + [Run(x)]
    {
      RunPasses(store.cfg, store.world, x, k, task.Row());
      hide Step, Apply, Exec, Store.Valid, Rows, Distinct, FailureText;
      Pass(Run(x));
    }

    method SetStatus(s: TaskStatus, ghost k: Ctl)
      requires store.Valid() && task.Valid() && Calm() && !Asks(store.world.ctl)
      requires Step(store.cfg, store.world.ctl, store.world.live, Go) == Controller.SetStatus(k, task.Row(), s)
      modifies store, task`status
      ensures At(k) && store.origin == old(store.origin)
      ensures task.Row() == store.row == old(task.Row()).(status := s)
      ensures store.events == old(store.events) + [StatusChanged(s)]
      ensures store.labels == old(store.labels) + [Run(Go)]
    {
      hide Step, Apply, Exec, Store.Valid, Rows, Distinct, FailureText;
      task.status := s;
      Commit(StatusChanged(s), Go, k);
    }

    /** Episodic memory, then `stream.end`. The memory write may raise; the caller sees its message. */
    method CloseStream(ghost inHandler: bool) returns (fault: Option<string>)
      requires At(Finishing(inHandler)) && store.row == task.Row()
      modifies store, outside`replies
      ensures OneReply(old(outside.replies))
      ensures fault == if LastReply().answer.Raised? then Some(LastReply().answer.message) else None
      ensures store.labels == old(store.labels) + if fault.None? then [Run(Go)] else []
      ensures if fault.None? then At(Done) && store.events == old(store.events) + [StreamEnd(task.status)]
              else At(Finishing(inHandler)) && store.events == old(store.events) && Heard(Raised(false, fault.value))
      ensures store.row == task.Row() && store.origin == old(store.origin)
    {
      hide Step, Apply, Exec, Store.Valid, Rows, Distinct, FailureText;
      var r := outside.Consult();
      if r.answer.Raised? {
        return Some(r.answer.message);
      }
      AtFinishing(store.cfg, task.Row(), inHandler, Go);
      Commit(StreamEnd(task.status), Go, Done);
      return None;
    }

    // -------------------------------------------------------------- approval

    /** A reviewer's answer: claims the row, then updates and announces through the live task. */
    method ResolveApproval(approved: bool) returns (ok: bool)
      requires Valid() && Calm() && !store.cfg.celery
      modifies store, task`decision
      ensures Valid() && Calm()
      ensures store.world.ctl == old(store.world.ctl) && store.origin == old(store.origin)
      ensures ok <==> Undecided(old(store.row))
      ensures ok ==> task.Row() == old(task.Row()).(decision := Some(approved)) && store.row == task.Row()
                     && store.events == old(store.events) + [ApprovalResolved(approved)]
      ensures !ok ==> task.Row() == old(task.Row()) && store.row == old(store.row) && store.events == old(store.events)
      ensures Undisturbed(old(store.labels))
    {
      hide Step, Apply, Exec, Store.Valid, Rows, Distinct, FailureText;
      ok := TryClaim(approved, InProcess.Decide(approved));
      if ok {
        Announces(store.cfg, store.world);
        task.decision := Some(approved);
        Emit(ApprovalResolved(approved), Announce);
      }
    }

    /** The compare-and-update, by a reviewer or by the janitor. */
    method TryClaim(approved: bool, ghost l: Label) returns (ok: bool)
      requires Valid() && Calm() && !store.cfg.celery && (l == InProcess.Decide(approved) || (!approved && l == Claim))
      modifies store
      ensures Valid() && store.origin == old(store.origin) && store.events == old(store.events)
      ensures ok <==> Undecided(old(store.row))
      ensures ok ==> store.world == if l.Claim? then
                       old(store.world).(row := store.row, janitor := Claimed)
                     else old(store.world).(row := store.row, announcing := Some(approved))
      ensures ok ==> store.labels == old(store.labels) + [l]
      ensures !ok ==>
                store.world == old(store.world) && store.labels == old(store.labels) && store.row == old(store.row)
    {
      if Undecided(store.row) {
        Claims(store.cfg, store.world, approved);
      }
      hide Step, Apply, Exec;
      ok := store.Decide(approved, l);
    }

    /** The janitor's pass over this task; `stale` says whether its window has closed. */
    method ExpireApproval(stale: bool) returns (ok: bool)
      requires Valid() && Calm() && !store.cfg.celery
      modifies store, task`decision, task`result, task`status
      ensures Valid() && Calm()
      ensures store.world.ctl == old(store.world.ctl) && store.origin == old(store.origin)
      ensures ok <==> stale && Undecided(old(store.row))
      ensures ok ==> task.Row() == old(task.Row()).(decision := Some(false), result := DENIED_RESULT, status := Denied)
                     && store.row == task.Row()
      ensures ok ==> store.events == old(store.events) + [ApprovalTimeout, StatusChanged(Denied)]
                     || store.events == old(store.events) + [ApprovalTimeout] + RefusalEvents()
      ensures !ok ==> task.Row() == old(task.Row()) && store.row == old(store.row) && store.events == old(store.events)
      ensures Undisturbed(old(store.labels))
    {
      hide Step, Apply, Exec, Store.Valid, Rows, Distinct, FailureText, RefusalEvents;
      if !stale {
        return false;
      }
      ok := TryClaim(false, Claim);
      if ok {
        Expires(store.cfg, store.world);
        task.decision := Some(false);
        Emit(ApprovalTimeout, Expire);
        DenyExpired();
      }
    }

    method DenyExpired()
      requires Valid() && store.world.janitor.Expired? && store.world.announcing.None?
      modifies store, task`result, task`status
      ensures Valid() && Calm()
      ensures store.world.ctl == old(store.world.ctl) && store.origin == old(store.origin)
      ensures task.Row() == store.row == old(task.Row()).(result := DENIED_RESULT, status := Denied)
      ensures store.events == old(store.events) + [StatusChanged(Denied)]
              || store.events == old(store.events) + RefusalEvents()
      ensures Undisturbed(old(store.labels))
    {
      hide Step, Apply, Exec, Store.Valid, Rows, Distinct, FailureText;
      Stops(store.cfg, store.world);
      task.result := DENIED_RESULT;
      task.status := Denied;
      Emit(StatusChanged(Denied), Stop);
      Closes(store.cfg, store.world);
      var broken: bool := *;
      if broken {
        Pass(MemoryLost);
      } else {
        Emit(StreamEnd(task.status), Label.EndStream);
      }
    }

    /** While the runner sleeps, reviewers and the janitor may act any number of times. It sleeps only when it has just
        looked and found no decision. */
    method Sleep()
      requires At(Waiting) && !store.cfg.celery
      requires |outside.polls| > 0 && outside.polls[|outside.polls| - 1] == Poll.Poll(outside.clock, None)
      modifies store, task`decision, task`result, task`status, outside`clock
      ensures At(Waiting) && store.origin == old(store.origin)
      ensures Rows(task.steps) == old(Rows(task.steps)) && task.risk == old(task.risk)
      ensures outside.clock > old(outside.clock) && Undisturbed(old(store.labels)) && old(store.events) <= store.events
    {
      hide Step, Apply, Exec, Store.Valid, Rows, Distinct, FailureText;
      var times: nat :| true;
      var i: nat := 0;
      while i < times
        invariant At(Waiting) && store.origin == old(store.origin)
        invariant Rows(task.steps) == old(Rows(task.steps)) && task.risk == old(task.risk)
        invariant Undisturbed(old(store.labels)) && old(store.events) <= store.events
        invariant outside.clock == old(outside.clock)
      {
        Interfere();
        i := i + 1;
      }
      var late: nat :| true;
      outside.Rest(1 + late);
    }

    method Interfere()
      requires At(Waiting) && !store.cfg.celery
      modifies store, task`decision, task`result, task`status
      ensures At(Waiting) && store.origin == old(store.origin)
      ensures Rows(task.steps) == old(Rows(task.steps)) && task.risk == old(task.risk)
      ensures Undisturbed(old(store.labels)) && old(store.events) <= store.events
    {
      hide Step, Apply, Exec, Store.Valid, Rows, Distinct, FailureText;
      var human: bool := *;
      if human {
        var approved: bool := *;
        var _ := ResolveApproval(approved);
      } else {
        var stale: bool := *;
        var _ := ExpireApproval(stale);
      }
    }

    /** The runner has made no step since the labels were `before`. */
    ghost predicate Undisturbed(before: seq<Label>)
      reads store
    {
      && before <= store.labels
      && forall n :: |before| <= n < |store.labels| ==> !store.labels[n].Run?
    }

    method RequestApproval(ghost k: Ctl)
      requires At(Gate)
      requires GateMove(store.cfg, task.Row()) ==
               Emitted(k, task.Row().(decision := None, status := AwaitingApproval), ApprovalRequired)
      modifies store, task`decision, task`status
      ensures At(k) && store.origin == old(store.origin)
      ensures task.Row() == store.row == old(task.Row()).(decision := None, status := AwaitingApproval)
      ensures store.events == old(store.events) + [ApprovalRequired] && store.labels == old(store.labels) + [Run(Go)]
    {
      hide Step, Apply, Exec, Store.Valid, Rows, Distinct, FailureText, GateMove;
      AtGate(store.cfg, task.Row());
      task.decision := None;
      task.status := AwaitingApproval;
      Commit(ApprovalRequired, Go, k);
    }

    method AcceptDecision(approved: bool)
      requires At(Waiting) && store.row.decision == Some(approved)
      modifies store`labels, store`world, task`decision
      ensures At(if approved then Cleared else Refused) && store.origin == old(store.origin)
      ensures task.Row() == old(task.Row()).(decision := Some(approved))
      ensures store.labels == old(store.labels) + [Run(Polled(approved))]
    {
      hide Step, Apply, Exec, Store.Valid, Rows, Distinct, FailureText;
      AtWaiting(store.cfg, task.Row(), Polled(approved));
      task.decision := Some(approved);
      Move(Polled(approved), if approved then Cleared else Refused);
    }

    /** The deadline has been reached. */
    method TimeOut()
      requires At(Waiting) && outside.clock >= outside.since + ticks
      modifies store, task`decision
      ensures At(Refused) && store.origin == old(store.origin)
      ensures task.Row() == store.row == old(task.Row()).(decision := Some(false))
      ensures store.events == old(store.events) + [ApprovalTimeout]
      ensures store.labels == old(store.labels) + [Run(DeadlinePassed)]
    {
      hide Step, Apply, Exec, Store.Valid, Rows, Distinct, FailureText;
      AtWaiting(store.cfg, task.Row(), DeadlinePassed);
      task.decision := Some(false);
      Commit(ApprovalTimeout, DeadlinePassed, Refused);
    }

    /** Reads the stored decision. */
    method Look() returns (found: Option<bool>)
      modifies outside`polls
      ensures found == store.row.decision
      ensures outside.polls == old(outside.polls) + [Poll.Poll(outside.clock, found)]
    {
      found := store.row.decision;
      outside.polls := outside.polls + [Poll.Poll(outside.clock, found)];
    }

    /** Polls the stored row until it carries a decision or the deadline passes. The first poll comes before any sleep,
        every sleep follows a poll that found nothing, what a poll finds is returned at once with nothing committed, and
        the timeout comes only after the whole time was slept. */
    method WaitForApproval() returns (approved: bool)
      requires At(Waiting) && !store.cfg.celery
      modifies store, task`decision, task`result, task`status, outside`clock, outside`polls, outside`since
      ensures At(if approved then Cleared else Refused) && store.origin == old(store.origin)
      ensures task.decision == Some(approved) == store.row.decision
      ensures Rows(task.steps) == old(Rows(task.steps)) && task.risk == old(task.risk)
      ensures old(store.events) <= store.events
      ensures ticks > 0 && old(store.row.decision).Some? ==>
                && approved == old(store.row.decision).value
                && store.events == old(store.events) && outside.clock == old(outside.clock)
      ensures old(outside.polls) <= outside.polls
      ensures Waited(outside.polls[|old(outside.polls)|..], old(outside.clock), outside.clock, ticks, approved)
      ensures OneStep(old(store.labels), store.labels, approved)
      ensures Timely(old(store.labels), store.labels, outside.clock >= old(outside.clock) + ticks)
    {
      hide Step, Apply, Exec, Store.Valid, Rows, Distinct, FailureText, Orchestrator.At;
      hide StillWaiting, Waited;
      outside.StartWait();
      ghost var first, start := |outside.polls|, outside.clock;
      NothingYet(start, ticks);
      assert outside.polls[first..] == [];
      var deadline := outside.clock + ticks;
      while outside.clock < deadline
        invariant At(Waiting) && store.origin == old(store.origin)
        invariant Rows(task.steps) == old(Rows(task.steps)) && task.risk == old(task.risk)
        invariant outside.since == start && deadline == start + ticks && start <= outside.clock
        invariant Undisturbed(old(store.labels)) && old(store.events) <= store.events
        invariant first <= |outside.polls| && outside.polls[..first] == old(outside.polls)
        invariant StillWaiting(outside.polls[first..], start, outside.clock, ticks)
        invariant outside.clock == start ==> store.row == old(store.row) && store.events == old(store.events)
        invariant outside.clock > start && ticks > 0 ==> old(store.row.decision).None?
        decreases deadline - outside.clock
      {
        ghost var ps := outside.polls[first..];
        var found := Look();
        ghost var now := outside.clock;
        assert outside.polls[first..] == ps + [Poll.Poll(now, found)];
        WaitEnds(ps, start, now, ticks);
        if found.Some? {
          approved := found.value;
          AcceptDecision(approved);
          return;
        }
        Sleep();
        WaitsOn(ps, start, now, outside.clock, ticks);
      }
      WaitEnds(outside.polls[first..], start, outside.clock, ticks);
      TimeOut();
      return false;
    }

    method Deny()
      requires At(Refused)
      modifies store, task`result, task`status
      ensures At(Finishing(false)) && store.origin == old(store.origin)
      ensures task.Row() == store.row == old(task.Row()).(result := DENIED_RESULT, status := Denied)
      ensures store.events == old(store.events) + [StatusChanged(Denied)]
      ensures store.labels == old(store.labels) + [Run(Go)]
    {
      hide Step, Apply, Exec, Store.Valid, Rows, Distinct, FailureText;
      AtRefused(store.cfg, task.Row());
      task.result := DENIED_RESULT;
      task.status := Denied;
      Commit(StatusChanged(Denied), Go, Finishing(false));
    }

    /** Closes a run that has its terminal status; a failing memory write goes to the handler. */
    method Finish() returns (f: Flow)
      requires At(Finishing(false)) && store.row == task.Row()
      modifies store, outside`replies
      ensures OneReply(old(outside.replies))
      ensures f == if LastReply().answer.Raised? then Throw(false, LastReply().answer.message) else Halt
      ensures f.Halt? ==> At(Done)
      ensures f.Throw? ==> Raising(f, Raised(f.provider, f.message))
      ensures store.row == task.Row() && store.origin == old(store.origin)
      ensures store.events == old(store.events) + if f.Halt? then [StreamEnd(task.status)] else []
      ensures store.labels == old(store.labels) + if f.Halt? then [Run(Go)] else []
    {
      hide Step, Apply, Exec, Store.Valid, Rows, Distinct, FailureText;
      var fault := CloseStream(false);
      if fault.Some? {
        AtFinishing(store.cfg, task.Row(), false, Raised(false, fault.value));
        return Throw(false, fault.value);
      }
      return Halt;
    }

    /** A refusal ends the run, unless saving its memory raises. */
    method Refuse() returns (f: Flow)
      requires At(Refused)
      modifies store, task`result, task`status, outside`replies
      ensures OneReply(old(outside.replies))
      ensures f == if LastReply().answer.Raised? then Throw(false, LastReply().answer.message) else Halt
      ensures f.Halt? ==> At(Done)
      ensures f.Throw? ==> Raising(f, Raised(f.provider, f.message))
      ensures task.Row() == store.row == old(task.Row()).(result := DENIED_RESULT, status := Denied)
      ensures store.events == old(store.events) + if f.Halt? then RefusalEvents() else [StatusChanged(Denied)]
      ensures store.origin == old(store.origin)
      ensures Timely(old(store.labels), store.labels, false)
    {
      hide Step, Apply, Exec, Store.Valid, Rows, Distinct, FailureText, Orchestrator.At, Orchestrator.Raising;
      Deny();
      f := Finish();
    }

    /** Proceed when execution may start, Halt when the task was stopped or paused. */
    method PassGate() returns (f: Flow)
      requires At(Gate)
      modifies store, task`decision, task`result, task`status, outside
      ensures f.Proceed? ==> At(Cleared)
      ensures f.Halt? ==> (At(Done) && task.status.Denied?) || (At(Paused) && task.status.AwaitingApproval?)
      ensures f.Throw? ==> Raising(f, Raised(f.provider, f.message))
      ensures store.origin == old(store.origin)
      ensures GateOpen(old(task.Row())) ==>
                f.Proceed? && store.events == old(store.events) && task.Row() == old(task.Row())
      ensures GateAuto(old(task.Row())) ==>
                f.Proceed? && store.events == old(store.events) + [ApprovalAuto] && task.Row() == old(task.Row())
      ensures GateShut(old(task.Row())) ==>
                !f.Proceed? && (f.Halt? ==> At(Done) && store.events == old(store.events) + RefusalEvents())
      ensures GateAsks(old(task.Row())) && store.cfg.celery ==>
                && f.Halt? && At(Paused) && store.events == old(store.events) + [ApprovalRequired]
                && task.Row() == store.row == old(task.Row()).(status := AwaitingApproval)
      ensures GateAsks(old(task.Row())) && !store.cfg.celery ==>
                && (f.Proceed? ==> task.decision == Some(true))
                && (f.Halt? ==> At(Done))
                && (!old(task.status).AwaitingApproval? ==> old(store.events) + [ApprovalRequired] <= store.events)
      ensures GateAsks(old(task.Row())) && !store.cfg.celery && old(task.status).AwaitingApproval? && ticks > 0 &&
              old(store.row.decision).Some? ==>
                && (f.Proceed? <==> old(store.row.decision) == Some(true))
                && (f.Proceed? ==> store.events == old(store.events))
      ensures Timely(old(store.labels), store.labels, outside.clock >= old(outside.clock) + ticks)
    {
      hide Step, Apply, Exec, Store.Valid, Rows, Distinct, FailureText, RefusalEvents;
      hide Orchestrator.At, Orchestrator.Raising;
      if task.risk.None? || !task.risk.value.requiresApproval || task.decision == Some(true) {
        LeaveGate(true);
        return Proceed;
      }
      if task.autoApprove {
        AutoApprove();
        return Proceed;
      }
      if task.decision == Some(false) {
        LeaveGate(false);
        ghost var shut := store.labels;
        f := Refuse();
        return;
      }
      OnlyTwoDecisions(task.decision);
      if store.cfg.celery {
        PauseRun();
        return Halt;
      }
      f := AwaitDecision();
    }

    /** The gate is settled without a commit. */
    ghost method LeaveGate(open: bool)
      requires At(Gate) && if open then GateOpen(task.Row()) else GateShut(task.Row())
      modifies store`labels, store`world
      ensures At(if open then Cleared else Refused) && store.origin == old(store.origin)
      ensures store.labels == old(store.labels) + [Run(Go)]
    {
      hide Step, Apply, Exec, Store.Valid, Rows, Distinct, FailureText;
      AtGate(store.cfg, task.Row());
      Move(Go, if open then Cleared else Refused);
    }

    method AutoApprove()
      requires At(Gate) && GateAuto(task.Row())
      modifies store
      ensures At(Cleared) && store.origin == old(store.origin)
      ensures store.events == old(store.events) + [ApprovalAuto] && store.labels == old(store.labels) + [Run(Go)]
    {
      hide Step, Apply, Exec, Store.Valid, Rows, Distinct, FailureText;
      AtGate(store.cfg, task.Row());
      Commit(ApprovalAuto, Go, Cleared);
    }

    /** Worker mode: the task pauses and its worker is released. */
    method PauseRun()
      requires At(Gate) && store.cfg.celery && GateAsks(task.Row())
      modifies store, task`decision, task`status
      ensures At(Paused) && store.origin == old(store.origin)
      ensures task.Row() == store.row == old(task.Row()).(status := AwaitingApproval)
      ensures store.events == old(store.events) + [ApprovalRequired] && store.labels == old(store.labels) + [Run(Go)]
    {
      hide Step, Apply, Exec, Store.Valid, Rows, Distinct, FailureText;
      RequestApproval(Paused);
    }

    /** In a single process: asks, unless the question is already open, and waits. */
    method AwaitDecision() returns (f: Flow)
      requires At(Gate) && !store.cfg.celery && GateAsks(task.Row())
      modifies store, task`decision, task`result, task`status, outside
      ensures f.Proceed? ==> At(Cleared) && task.decision == Some(true)
      ensures f.Halt? ==> At(Done) && task.status.Denied?
      ensures f.Throw? ==> Raising(f, Raised(f.provider, f.message))
      ensures store.origin == old(store.origin)
      ensures !old(task.status).AwaitingApproval? ==> old(store.events) + [ApprovalRequired] <= store.events
      ensures old(task.status).AwaitingApproval? && ticks > 0 && old(store.row.decision).Some? ==>
                && (f.Proceed? <==> old(store.row.decision) == Some(true))
                && (f.Proceed? ==> store.events == old(store.events))
      ensures Timely(old(store.labels), store.labels, outside.clock >= old(outside.clock) + ticks)
    {
      hide Step, Apply, Exec, Store.Valid, Rows, Distinct, FailureText, Waited, OneStep;
      hide Orchestrator.At, Orchestrator.Raising;
      OpenQuestion();
      ghost var asked := store.labels;
      var approved := WaitForApproval();
      ghost var waited := store.labels;
      if approved {
        return Proceed;
      }
      f := Refuse();
      TimelyOn(asked, waited, store.labels, outside.clock >= old(outside.clock) + ticks);
    }

    method OpenQuestion()
      requires At(Gate) && !store.cfg.celery && GateAsks(task.Row())
      modifies store, task`decision, task`status
      ensures At(Waiting) && store.origin == old(store.origin)
      ensures store.labels == old(store.labels) + [Run(Go)]
      ensures old(task.status).AwaitingApproval? ==>
                store.row == old(store.row) && store.events == old(store.events)
      ensures !old(task.status).AwaitingApproval? ==> store.events == old(store.events) + [ApprovalRequired]
    {
      hide Step, Apply, Exec, Store.Valid, Rows, Distinct, FailureText;
      AtGate(store.cfg, task.Row());
      if !task.status.AwaitingApproval? {
        RequestApproval(Waiting);
      } else {
        Move(Go, Waiting);
      }
    }

    // ------------------------------------------------------------- execution

    /** The live task after one of its step objects was updated in place. */
    twostate lemma StepUpdated(i: nat)
      requires task.steps == old(task.steps) && i < |task.steps| && Distinct(task.steps)
      requires forall s :: s in task.steps && s != task.steps[i] ==> s.Row() == old(s.Row())
      ensures Rows(task.steps) == old(Rows(task.steps))[i := task.steps[i].Row()]
    {
      forall j | 0 <= j < |task.steps| && j != i ensures task.steps[j].Row() == old(task.steps[j].Row()) {
        assert task.steps[j] in task.steps;
      }
    }

    /** An agent that is not in the committee fails its step without a call. */
    method FailUnknown(ghost r: nat, i: nat)
      requires At(Ready(r, i)) && i < |task.steps| && task.steps[i].agent !in COMMITTEE
      modifies store, task.steps[i]
      ensures At(Broken) && store.origin == old(store.origin)
      ensures task.steps[i].status == StepStatus.Failed
      ensures task.steps[i].error == "Unknown agent: " + task.steps[i].agent
      ensures store.events == old(store.events) + [StepFailed(task.steps[i].id, task.steps[i].error)]
    {
      hide Step, Apply, Exec, Store.Valid, Rows, Distinct, FailureText;
      AtReady(store.cfg, store.world.live, r, i);
      var step := task.steps[i];
      step.status := StepStatus.Failed;
      step.error := "Unknown agent: " + step.agent;
      StepUpdated(i);
      Commit(StepFailed(step.id, step.error), Go, Broken);
    }

    method StartStep(ghost r: nat, i: nat)
      requires At(Ready(r, i)) && i < |task.steps| && task.steps[i].agent in COMMITTEE
      modifies store, task.steps[i]
      ensures At(Attempt(r, i, 1)) && store.origin == old(store.origin)
      ensures task.steps[i].status == StepStatus.Running
      ensures store.events == old(store.events) + [StepStarted(task.steps[i].id)]
      ensures task.steps[i].Row() == old(task.steps[i].Row()).(status := StepStatus.Running)
    {
      hide Step, Apply, Exec, Store.Valid, Rows, Distinct, FailureText;
      AtReady(store.cfg, store.world.live, r, i);
      var step := task.steps[i];
      step.status := StepStatus.Running;
      StepUpdated(i);
      Commit(StepStarted(step.id), Go, Attempt(r, i, 1));
    }

    /** The attempt is stored before the agent is called. */
    method CountAttempt(ghost r: nat, i: nat, ghost a: nat)
      requires At(Attempt(r, i, a)) && i < |task.steps|
      modifies store, task.steps[i]
      ensures At(Calling(r, i, a)) && store.origin == old(store.origin)
      ensures task.steps[i].attempts == old(task.steps[i].attempts) + 1
      ensures store.row == task.Row() && store.events ==
              old(store.events) + [StepAttempted(task.steps[i].id, task.steps[i].agent, task.steps[i].attempts)]
      ensures task.steps[i].Row() == old(task.steps[i].Row()).(attempts := task.steps[i].attempts)
    {
      hide Step, Apply, Exec, Store.Valid, Rows, Distinct, FailureText;
      AtAttempt(store.cfg, store.world.live, r, i, a);
      var step := task.steps[i];
      step.attempts := step.attempts + 1;
      StepUpdated(i);
      Commit(StepAttempted(step.id, step.agent, step.attempts), Go, Calling(r, i, a));
    }

    /** The verifier's own run: a schema-checked decision, written to the task before the step completes. */
    method RunVerifier() returns (x: Input)
      modifies task`verified, task`verification, outside`replies
      ensures OneReply(old(outside.replies)) && x == UnderstoodWork(VERIFIER, LastReply())
      ensures x.Judged? ==> task.verified == Some(x.passed) && task.verification == x.notes
      ensures !x.Judged? ==> task.verified == old(task.verified) && task.verification == old(task.verification)
    {
      var r := outside.Consult();
      x := UnderstoodWork(VERIFIER, r);
      if x.Judged? {
        task.verified := Some(x.passed);
        task.verification := x.notes;
      }
    }

    /** One agent call: the agent's answer, or an exception. Only the verifier touches the task. */
    method CallAgent(agent: string) returns (x: Input)
      modifies task`verified, task`verification, outside`replies
      ensures OneReply(old(outside.replies)) && x == UnderstoodWork(agent, LastReply())
      ensures x.Judged? ==> task.verified == Some(x.passed) && task.verification == x.notes
      ensures !x.Judged? ==> task.verified == old(task.verified) && task.verification == old(task.verification)
    {
      if agent == VERIFIER {
        x := RunVerifier();
        return;
      }
      var r := outside.Consult();
      return UnderstoodWork(agent, r);
    }

    method CompleteStep(ghost r: nat, i: nat, ghost a: nat, output: string)
      requires At(Calling(r, i, a)) && i < |task.steps| && task.steps[i].agent != VERIFIER && Heard(Answered(output))
      modifies store, task.steps[i]
      ensures At(Loop(r, i + 1)) && store.origin == old(store.origin)
      ensures task.steps[i].output == output && task.steps[i].error == ""
      ensures task.steps[i].status == StepStatus.Completed
      ensures store.row == task.Row() && store.events ==
              old(store.events)
              + [StepCompleted(task.steps[i].id, task.steps[i].agent, output, task.steps[i].attempts)]
      ensures task.steps[i].Row() ==
              old(task.steps[i].Row()).(output := output, error := "", status := StepStatus.Completed)
    {
      hide Step, Apply, Exec, Store.Valid, Rows, Distinct, FailureText;
      AtCalling(store.cfg, store.world.live, r, i, a, Answered(output));
      var step := task.steps[i];
      step.output := output;
      step.error := "";
      step.status := StepStatus.Completed;
      StepUpdated(i);
      Commit(StepCompleted(step.id, step.agent, step.output, step.attempts), Answered(output), Loop(r, i + 1));
    }

    /** As CompleteStep, after the verifier has written its decision to the task. */
    method CompleteVerifier(ghost r: nat, i: nat, ghost a: nat, ghost passed: bool, notes: string)
      requires store.Valid() && task.Valid() && Calm() && store.world.ctl == Calling(r, i, a)
      requires i < |task.steps| && task.steps[i].agent == VERIFIER
      requires task.Row() == store.world.live.(verified := Some(passed), verification := notes)
      requires Heard(Judged(passed, notes))
      modifies store, task.steps[i]
      ensures At(Loop(r, i + 1)) && store.origin == old(store.origin)
      ensures task.steps[i].output == notes && task.steps[i].error == "" && task.steps[i].status == StepStatus.Completed
      ensures store.row == task.Row() && store.events ==
              old(store.events)
              + [StepCompleted(task.steps[i].id, task.steps[i].agent, notes, task.steps[i].attempts)]
      ensures task.steps[i].Row() ==
              old(task.steps[i].Row()).(output := notes, error := "", status := StepStatus.Completed)
    {
      hide Step, Apply, Exec, Store.Valid, Rows, Distinct, FailureText;
      AtCalling(store.cfg, store.world.live, r, i, a, Judged(passed, notes));
      var step := task.steps[i];
      step.output := notes;
      step.error := "";
      step.status := StepStatus.Completed;
      StepUpdated(i);
      Commit(StepCompleted(step.id, step.agent, step.output, step.attempts), Judged(passed, notes), Loop(r, i + 1));
    }

    method ProviderFails(ghost r: nat, i: nat, ghost a: nat, message: string)
      requires At(Calling(r, i, a)) && i < |task.steps| && Heard(Raised(true, message))
      modifies store, task.steps[i]
      ensures At(Broken) && store.origin == old(store.origin)
      ensures task.steps[i].status == StepStatus.Failed && task.steps[i].error == message
      ensures store.row == task.Row() && store.events ==
              old(store.events)
              + [ProviderError(Some(task.steps[i].id), message), StepFailed(task.steps[i].id, message)]
      ensures task.steps[i].Row() == old(task.steps[i].Row()).(error := message, status := StepStatus.Failed)
    {
      hide Step, Apply, Exec, Store.Valid, Rows, Distinct, FailureText;
      AtCalling(store.cfg, store.world.live, r, i, a, Raised(true, message));
      var step := task.steps[i];
      step.error := message;
      step.status := StepStatus.Failed;
      StepUpdated(i);
      Commit(ProviderError(Some(step.id), message), Raised(true, message), Unavailable(i));
      ReportUnavailable(i);
    }

    method ReportUnavailable(i: nat)
      requires At(Unavailable(i)) && i < |task.steps|
      modifies store
      ensures At(Broken) && store.origin == old(store.origin)
      ensures store.row == task.Row()
      ensures store.events == old(store.events) + [StepFailed(task.steps[i].id, task.steps[i].error)]
    {
      Commit(StepFailed(task.steps[i].id, task.steps[i].error), Go, Broken);
    }

    method RetryLater(ghost r: nat, i: nat, a: nat, message: string)
      requires At(Calling(r, i, a)) && i < |task.steps| && a < store.cfg.maxStepRetries + 1
      requires Heard(Raised(false, message))
      modifies store, task.steps[i]
      ensures At(Attempt(r, i, a + 1)) && store.origin == old(store.origin)
      ensures task.steps[i].error == message
      ensures store.events == old(store.events) + [StepRetry(task.steps[i].id, message, a + 1)]
      ensures task.steps[i].Row() == old(task.steps[i].Row()).(error := message)
      ensures store.row == task.Row()
    {
      hide Step, Apply, Exec, Store.Valid, Rows, Distinct, FailureText;
      AtCalling(store.cfg, store.world.live, r, i, a, Raised(false, message));
      var step := task.steps[i];
      step.error := message;
      StepUpdated(i);
      Commit(StepRetry(step.id, step.error, a + 1), Raised(false, message), Attempt(r, i, a + 1));
    }

    method GiveUp(ghost r: nat, i: nat, a: nat, message: string)
      requires At(Calling(r, i, a)) && i < |task.steps| && a >= store.cfg.maxStepRetries + 1
      requires Heard(Raised(false, message))
      modifies store, task.steps[i]
      ensures At(Broken) && store.origin == old(store.origin)
      ensures task.steps[i].status == StepStatus.Failed && task.steps[i].error == message
      ensures store.events == old(store.events) + [StepFailed(task.steps[i].id, message)]
      ensures task.steps[i].Row() == old(task.steps[i].Row()).(error := message, status := StepStatus.Failed)
      ensures store.row == task.Row()
    {
      hide Step, Apply, Exec, Store.Valid, Rows, Distinct, FailureText;
      AtCalling(store.cfg, store.world.live, r, i, a, Raised(false, message));
      var step := task.steps[i];
      step.error := message;
      step.status := StepStatus.Failed;
      StepUpdated(i);
      Commit(StepFailed(step.id, step.error), Raised(false, message), Broken);
    }

    /** Stores exactly what a reply means for the step. */
    method Settle(ghost r: nat, i: nat, a: nat, x: Input) returns (t: Trial)
      requires store.Valid() && task.Valid() && Calm() && store.world.ctl == Calling(r, i, a)
      requires i < |task.steps| && 1 <= a <= store.cfg.maxStepRetries + 1
      requires Heard(x) && (x.Raised? || if task.steps[i].agent == VERIFIER then x.Judged? else x.Answered?)
      requires task.Row() == if x.Judged? then store.world.live.(verified := Some(x.passed), verification := x.notes)
                             else store.world.live
      modifies store, task.steps[i]
      ensures At(if t.Succeeded? then Loop(r, i + 1) else if t.Again? then Attempt(r, i, a + 1) else Broken)
      ensures store.origin == old(store.origin)
      ensures t == TrialOf(x, a, store.cfg.maxStepRetries)
      ensures task.steps[i].Row() == Outcome(old(task.steps[i].Row()), x, a, store.cfg.maxStepRetries)
      ensures store.events ==
              old(store.events) + OutcomeEvents(old(task.steps[i].Row()), x, a, store.cfg.maxStepRetries)
    {
      hide Step, Apply, Exec, Store.Valid, Rows, Distinct, FailureText;
      if x.Raised? {
        t := SettleFailure(r, i, a, x.provider, x.message);
      } else {
        SettleAnswer(r, i, a, x);
        t := Succeeded;
      }
    }

    method SettleAnswer(ghost r: nat, i: nat, ghost a: nat, x: Input)
      requires store.Valid() && task.Valid() && Calm() && store.world.ctl == Calling(r, i, a)
      requires i < |task.steps| && Heard(x)
      requires if task.steps[i].agent == VERIFIER then x.Judged? else x.Answered?
      requires task.Row() == if x.Judged? then store.world.live.(verified := Some(x.passed), verification := x.notes)
                             else store.world.live
      modifies store, task.steps[i]
      ensures At(Loop(r, i + 1)) && store.origin == old(store.origin)
      ensures task.steps[i].Row() == Outcome(old(task.steps[i].Row()), x, a, store.cfg.maxStepRetries)
      ensures store.events ==
              old(store.events) + OutcomeEvents(old(task.steps[i].Row()), x, a, store.cfg.maxStepRetries)
    {
      hide Step, Apply, Exec, Store.Valid, Rows, Distinct, FailureText;
      if x.Judged? {
        CompleteVerifier(r, i, a, x.passed, x.notes);
      } else {
        CompleteStep(r, i, a, x.output);
      }
    }

    method SettleFailure(ghost r: nat, i: nat, a: nat, provider: bool, message: string) returns (t: Trial)
      requires At(Calling(r, i, a)) && i < |task.steps| && 1 <= a <= store.cfg.maxStepRetries + 1
      requires Heard(Raised(provider, message))
      modifies store, task.steps[i]
      ensures At(if t.Again? then Attempt(r, i, a + 1) else Broken) && store.origin == old(store.origin)
      ensures t == TrialOf(Raised(provider, message), a, store.cfg.maxStepRetries)
      ensures task.steps[i].Row() ==
              Outcome(old(task.steps[i].Row()), Raised(provider, message), a, store.cfg.maxStepRetries)
      ensures store.events == old(store.events) + OutcomeEvents(
                old(task.steps[i].Row()), Raised(provider, message), a, store.cfg.maxStepRetries)
    {
      hide Step, Apply, Exec, Store.Valid, Rows, Distinct, FailureText;
      if provider {
        ProviderFails(r, i, a, message);
        t := Exhausted;
      } else if a < store.cfg.maxStepRetries + 1 {
        RetryLater(r, i, a, message);
        t := Again;
      } else {
        GiveUp(r, i, a, message);
        t := Exhausted;
      }
    }

    /** Calls the agent once and stores exactly what its reply means. */
    method Call(ghost r: nat, i: nat, a: nat) returns (t: Trial)
      requires At(Calling(r, i, a)) && i < |task.steps| && 1 <= a <= store.cfg.maxStepRetries + 1
      modifies store, task`verified, task`verification, task.steps[i], outside`replies
      ensures At(if t.Succeeded? then Loop(r, i + 1) else if t.Again? then Attempt(r, i, a + 1) else Broken)
      ensures store.origin == old(store.origin) && OneReply(old(outside.replies))
      ensures var x := UnderstoodWork(task.steps[i].agent, LastReply());
              && t == TrialOf(x, a, store.cfg.maxStepRetries)
              && task.steps[i].Row() == Outcome(old(task.steps[i].Row()), x, a, store.cfg.maxStepRetries)
              && store.events ==
                 old(store.events) + OutcomeEvents(old(task.steps[i].Row()), x, a, store.cfg.maxStepRetries)
              && (if x.Judged? then task.verified == Some(x.passed) && task.verification == x.notes
                  else task.verified == old(task.verified) && task.verification == old(task.verification))
    {
      hide Step, Apply, Exec, Store.Valid, Rows, Distinct, FailureText, Outcome, OutcomeEvents, TrialOf;
      var x := CallAgent(task.steps[i].agent);
      t := Settle(r, i, a, x);
    }

    /** Counts attempt a, calls the agent once and stores exactly what its reply means. */
    method TryStep(ghost r: nat, i: nat, a: nat) returns (t: Trial)
      requires At(Attempt(r, i, a)) && i < |task.steps| && 1 <= a <= store.cfg.maxStepRetries + 1
      modifies store, task`verified, task`verification, task.steps[i], outside`replies
      ensures At(if t.Succeeded? then Loop(r, i + 1) else if t.Again? then Attempt(r, i, a + 1) else Broken)
      ensures store.origin == old(store.origin) && OneReply(old(outside.replies))
      ensures var x := UnderstoodWork(task.steps[i].agent, LastReply());
              && t == TrialOf(x, a, store.cfg.maxStepRetries)
              && task.steps[i].Row() == Outcome(Counted(old(task.steps[i].Row())), x, a, store.cfg.maxStepRetries)
              && store.events ==
                 old(store.events) + TryEvents(old(task.steps[i].Row()), x, a, store.cfg.maxStepRetries)
              && (if x.Judged? then task.verified == Some(x.passed) && task.verification == x.notes
                  else task.verified == old(task.verified) && task.verification == old(task.verification))
    {
      hide Step, Apply, Exec, Store.Valid, Rows, Distinct, FailureText, Outcome, OutcomeEvents, TrialOf;
      hide UnderstoodWork, Orchestrator.At;
      CountAttempt(r, i, a);
      assert task.steps[i].Row() == Counted(old(task.steps[i].Row()));
      t := Call(r, i, a);
    }

    /** Where an activation of step i stands that began with the row `began`, the events `before` and the replies
        `heard`, and has seen `calls` replies, all worth another attempt. */
    ghost predicate Trying(i: nat, began: StepRow, before: seq<Event>, heard: seq<Reply>, calls: nat)
      reads store`events, task, task.steps, outside`replies
    {
      && i < |task.steps| && NewReplies(heard, calls)
      && AllRetried(began.agent, outside.replies[|heard|..])
      && task.steps[i].id == began.id && task.steps[i].agent == began.agent
      && task.steps[i].attempts == began.attempts + calls
      && store.events ==
         before + StepEvents(began, outside.replies[|heard|..], store.cfg.maxStepRetries)
    }

    /** One attempt more. */
    method TryOnce(ghost r: nat, i: nat, a: nat,
                   ghost began: StepRow, ghost before: seq<Event>, ghost heard: seq<Reply>)
      returns (t: Trial)
      requires At(Attempt(r, i, a)) && i < |task.steps| && 1 <= a <= store.cfg.maxStepRetries + 1
      requires Trying(i, began, before, heard, a - 1)
      modifies store, task`verified, task`verification, task.steps[i], outside`replies
      ensures At(if t.Succeeded? then Loop(r, i + 1) else if t.Again? then Attempt(r, i, a + 1) else Broken)
      ensures store.origin == old(store.origin)
      ensures NewReplies(heard, a)
      ensures t.Again? ==> a <= store.cfg.maxStepRetries && Trying(i, began, before, heard, a)
      ensures !t.Again? ==> Concluded(began.agent, outside.replies[|heard|..], store.cfg.maxStepRetries, t.Succeeded?)
      ensures store.events == before + StepEvents(began, outside.replies[|heard|..], store.cfg.maxStepRetries)
      ensures t.Succeeded? ==> task.steps[i].output == AnswerOf(UnderstoodWork(began.agent, LastReply()))
    {
      hide Step, Apply, Exec, Store.Valid, Rows, Distinct, FailureText, Orchestrator.At;
      hide TryEvents, StepEvents, UnderstoodWork, OutcomeEvents;
      ghost var rs, s := outside.replies[|heard|..], task.steps[i].Row();
      t := TryStep(r, i, a);
      ReplyTypes(began.agent, LastReply());
      assert outside.replies[|heard|..] == rs + [LastReply()];
      StepEventsSnoc(began, rs, LastReply(), store.cfg.maxStepRetries);
      SameEvents(s, began.(attempts := s.attempts), UnderstoodWork(began.agent, LastReply()), a,
                 store.cfg.maxStepRetries);
    }

    /** Runs one step. An unknown agent fails it without a call. Otherwise it makes at most maxStepRetries + 1 calls,
        with capped exponential pauses between them, goes on only after exceptions worth another attempt, and ends with
        an answer, a provider error, or the retries used up; it commits what each reply means, in order. */
    method RunStep(ghost r: nat, i: nat) returns (ok: bool, calls: nat)
      requires At(Ready(r, i)) && i < |task.steps|
      modifies store, task`verified, task`verification, task.steps[i], outside`replies, outside`clock
      ensures At(if ok then Loop(r, i + 1) else Broken)
      ensures calls <= store.cfg.maxStepRetries + 1 && NewReplies(old(outside.replies), calls)
      ensures outside.clock == old(outside.clock) + 4 * if calls == 0 then 0 else AllPauses(calls - 1)
      ensures outside.clock <= old(outside.clock) + 4 * AllPauses(store.cfg.maxStepRetries)
      ensures task.steps[i].agent !in COMMITTEE ==>
                && !ok && calls == 0
                && store.events == old(store.events) + [StepFailed(task.steps[i].id, task.steps[i].error)]
      ensures task.steps[i].agent in COMMITTEE ==>
                var rs := outside.replies[|old(outside.replies)|..];
                && Concluded(task.steps[i].agent, rs, store.cfg.maxStepRetries, ok)
                && store.events == old(store.events) + [StepStarted(task.steps[i].id)]
                                   + StepEvents(old(task.steps[i].Row()), rs, store.cfg.maxStepRetries)
                && (ok ==> task.steps[i].output == AnswerOf(UnderstoodWork(task.steps[i].agent, LastReply())))
      ensures store.origin == old(store.origin)
    {
      hide Step, Apply, Exec, Store.Valid, Rows, Distinct, FailureText, Orchestrator.At, Concluded, UnderstoodWork;
      if task.steps[i].agent !in COMMITTEE {
        FailUnknown(r, i);
        return false, 0;
      }
      ghost var heard, began := outside.replies, task.steps[i].Row();
      StartStep(r, i);
      ghost var before := store.events;
      calls := 0;
      assert Trying(i, began, before, heard, 0);
      hide StepEvents, Orchestrator.Trying;
      while true
        invariant store.origin == old(store.origin)
        invariant calls < store.cfg.maxStepRetries + 1 && At(Attempt(r, i, calls + 1))
        invariant outside.clock == old(outside.clock) + 4 * AllPauses(calls)
        invariant Trying(i, began, before, heard, calls)
        decreases store.cfg.maxStepRetries + 1 - calls
      {
        calls := calls + 1;
        var t := TryOnce(r, i, calls, began, before, heard);
        if !t.Again? {
          return t.Succeeded?, calls;
        }
        PausesAdd(calls);
        outside.Rest(4 * Pause(calls));
      }
    }

    /** n replies have arrived since `before`. */
    ghost predicate NewReplies(before: seq<Reply>, n: nat)
      reads outside`replies
    {
      |outside.replies| == |before| + n && outside.replies[..|before|] == before
    }

    /** Where step i is in the round: skipped when completed, otherwise VERIFYING for the verifier and RUNNING for
        every other agent. */
    method Approach(ghost r: nat, i: nat) returns (skip: bool)
      requires At(Loop(r, i)) && i < |task.steps|
      modifies store, task`status
      ensures At(if skip then Loop(r, i + 1) else Ready(r, i))
      ensures skip <==> task.steps[i].status.Completed?
      ensures skip ==> store.events == old(store.events) && task.status == old(task.status)
      ensures !skip ==> task.status == if task.steps[i].agent == VERIFIER then Verifying else TaskStatus.Running
      ensures store.origin == old(store.origin)
    {
      hide Step, Apply, Exec, Store.Valid, Rows, Distinct, FailureText;
      AtLoop(store.cfg, task.Row(), r, i);
      skip := task.steps[i].status.Completed?;
      if skip {
        Move(Go, Loop(r, i + 1));
      } else if task.steps[i].agent == VERIFIER {
        SetStatus(Verifying, Ready(r, i));
      } else if !task.status.Running? {
        SetStatus(TaskStatus.Running, Ready(r, i));
      } else {
        Move(Go, Ready(r, i));
      }
    }

    /** Runs the steps that are not completed, in order, up to the first that fails. */
    method ExecuteRound(ghost r: nat) returns (ok: bool, calls: nat)
      requires At(Loop(r, 0))
      modifies store, task`status, task`verified, task`verification, task.steps, outside`replies, outside`clock
      ensures At(if ok then Loop(r, |task.steps|) else Broken)
      ensures calls <= RoundBound(|task.steps|, store.cfg.maxStepRetries) && NewReplies(old(outside.replies), calls)
      ensures store.origin == old(store.origin)
    {
      hide Step, Apply, Exec, Store.Valid, Rows, Distinct, FailureText, RoundBound, Orchestrator.At;
      hide StepEvents, Concluded;
      calls := 0;
      var i: nat := 0;
      while i < |task.steps|
        invariant i <= |task.steps| && At(Loop(r, i)) && store.origin == old(store.origin)
        invariant calls <= RoundBound(i, store.cfg.maxStepRetries) && NewReplies(old(outside.replies), calls)
      {
        OneMoreStep(i, |task.steps|, store.cfg.maxStepRetries);
        var skip := Approach(r, i);
        if !skip {
          var done, made := RunStep(r, i);
          ok, calls := done, calls + made;
          if !ok {
            return;
          }
        }
        i := i + 1;
      }
      ok := true;
    }

    /** Makes interrupted steps pending again, in place. */
    method ResumeInterrupted()
      requires task.Valid()
      modifies task.steps
      ensures Rows(task.steps) == ResumeSteps(old(Rows(task.steps)))
    {
      ghost var before := Rows(task.steps);
      for i := 0 to |task.steps|
        invariant forall j :: 0 <= j < |task.steps| ==>
          task.steps[j].Row() == if j < i then ResumeStep(before[j]) else before[j]
      {
        var step := task.steps[i];
        if step.status.Running? || step.status.Failed? {
          step.status := Pending;
          step.error := "";
        }
      }
    }

    /** Makes every step pending and discards outputs and verdict, in place. */
    method ResetForRework()
      requires task.Valid()
      modifies task`verified, task.steps
      ensures task.Row() == Reset(old(task.Row()))
    {
      ghost var before := Rows(task.steps);
      for i := 0 to |task.steps|
        invariant forall j :: 0 <= j < |task.steps| ==>
          task.steps[j].Row() == if j < i then ResetStep(before[j]) else before[j]
      {
        var step := task.steps[i];
        step.status := Pending;
        step.output := "";
        step.error := "";
      }
      task.verified := None;
      assert Rows(task.steps) == ResetSteps(before);
    }

    /** The error of the first failed step. */
    method FirstFailure() returns (message: string)
      ensures message == FailureText(Rows(task.steps))
      ensures forall i: nat :: FirstFailed(Rows(task.steps), i) ==> message == task.steps[i].error
      ensures (forall s :: s in task.steps ==> !s.status.Failed?) ==> message == "Step execution failed"
    {
      FailureTextIsFirst(Rows(task.steps));
      var i: nat := 0;
      while i < |task.steps|
        invariant i <= |task.steps| && FailureText(Rows(task.steps)) == FailureText(Rows(task.steps)[i..])
        invariant forall j :: 0 <= j < i ==> !task.steps[j].status.Failed?
      {
        if task.steps[i].status.Failed? {
          assert FirstFailed(Rows(task.steps), i);
          return task.steps[i].error;
        }
        i := i + 1;
      }
      return "Step execution failed";
    }

    // -------------------------------------------------------------- whole run

    method OpenPlan()
      requires At(Start) && (task.steps == [] || task.risk.None?)
      modifies store, task`status
      ensures At(Ctl.Planning) && store.origin == old(store.origin)
      ensures store.events == old(store.events) + [StatusChanged(TaskStatus.Planning), AgentStarted("planner")]
    {
      hide Step, Apply, Exec, Store.Valid, Rows, Distinct, FailureText;
      AtStart(store.cfg, task.Row());
      SetStatus(TaskStatus.Planning, PlanOpened);
      AtPlanOpened(store.cfg, task.Row());
      Commit(AgentStarted("planner"), Go, Ctl.Planning);
    }

    method StorePlan(x: Input)
      requires At(Ctl.Planning) && x.Proposed? && ValidProposal(x.items, x.ids) && Heard(x)
      modifies store, task`steps
      ensures At(Planned) && fresh(task.steps) && store.origin == old(store.origin)
      ensures task.steps != [] && store.events == old(store.events) + [PlanCreated(|task.steps|)]
      ensures Rows(task.steps) == PlanOf(x.items, x.ids)
    {
      hide Step, Apply, Exec, Store.Valid, Rows, Distinct, FailureText;
      AtPlanning(store.cfg, task.Row(), x);
      var steps := Materialize(PlanOf(x.items, x.ids));
      task.steps := steps;
      Commit(PlanCreated(|steps|), x, Planned);
    }

    /** Asks the planner once. A proposal that fits is stored as it is; anything else is an exception. */
    method Plan() returns (f: Flow)
      requires At(Start) && (task.steps == [] || task.risk.None?)
      modifies store, task`status, task`steps, outside`replies
      ensures task.steps == old(task.steps) || fresh(task.steps)
      ensures f.Proceed? ==> At(Planned)
      ensures !f.Halt? && (f.Throw? ==> Raising(f, Raised(f.provider, f.message)))
      ensures store.origin == old(store.origin) && OneReply(old(outside.replies))
      ensures var x := UnderstoodPlan(LastReply());
              && (x.Raised? ==> f == Throw(x.provider, x.message))
              && (x.Proposed? ==>
                    && f.Proceed? && fresh(task.steps) && task.steps != []
                    && Rows(task.steps) == PlanOf(x.items, x.ids)
                    && store.events == old(store.events) + PlanEvents(|task.steps|))
    {
      hide Step, Apply, Exec, Store.Valid, Rows, Distinct, FailureText, UnderstoodPlan, PlanOf, ValidProposal;
      hide Orchestrator.At, Orchestrator.Raising, Orchestrator.Heard;
      OpenPlan();
      var r := outside.Consult();
      var x := UnderstoodPlan(r);
      PlannerHeard(x);
      if x.Raised? {
        return Throw(x.provider, x.message);
      }
      StorePlan(x);
      return Proceed;
    }

    lemma PlannerHeard(x: Input)
      requires At(Ctl.Planning) && |outside.replies| > 0 && x == UnderstoodPlan(LastReply())
      ensures Heard(x) && (x.Raised? || (x.Proposed? && ValidProposal(x.items, x.ids)))
      ensures x.Raised? ==> Raising(Throw(x.provider, x.message), x)
    {
      hide Step, Apply, Exec, Store.Valid, Rows, Distinct, FailureText;
      AtPlanning(store.cfg, task.Row(), x);
    }

    lemma SafetyHeard(x: Input)
      requires At(Assessing) && |outside.replies| > 0 && x == UnderstoodRisk(LastReply())
      ensures Heard(x) && (x.Raised? || x.Assessed?)
      ensures x.Raised? ==> Raising(Throw(x.provider, x.message), x)
    {
      hide Step, Apply, Exec, Store.Valid, Rows, Distinct, FailureText;
      AtAssessing(store.cfg, task.Row(), x);
    }

    method StoreRisk(x: Input)
      requires At(Assessing) && x.Assessed? && Heard(x)
      modifies store, task`risk
      ensures At(Gate) && store.origin == old(store.origin) && task.risk == Some(x.risk)
      ensures store.events == old(store.events) + [RiskAssessed(x.risk)]
    {
      hide Step, Apply, Exec, Store.Valid, Rows, Distinct, FailureText;
      AtAssessing(store.cfg, task.Row(), x);
      task.risk := Some(x.risk);
      Commit(RiskAssessed(x.risk), x, Gate);
    }

    /** Asks the safety agent once. Its assessment is stored as it is. */
    method Assess() returns (f: Flow)
      requires At(Planned)
      modifies store, task`status, task`risk, outside`replies
      ensures f.Proceed? ==> At(Gate) && task.risk.Some?
      ensures !f.Halt? && (f.Throw? ==> Raising(f, Raised(f.provider, f.message)))
      ensures store.origin == old(store.origin) && OneReply(old(outside.replies))
      ensures var x := UnderstoodRisk(LastReply());
              && (x.Raised? ==> f == Throw(x.provider, x.message))
              && (x.Assessed? ==>
                    && f.Proceed? && task.risk == Some(x.risk)
                    && store.events == old(store.events) + AssessEvents(x.risk))
    {
      hide Step, Apply, Exec, Store.Valid, Rows, Distinct, FailureText, UnderstoodRisk;
      hide Orchestrator.At, Orchestrator.Raising, Orchestrator.Heard;
      OpenAssessment();
      var r := outside.Consult();
      var x := UnderstoodRisk(r);
      SafetyHeard(x);
      if x.Raised? {
        return Throw(x.provider, x.message);
      }
      StoreRisk(x);
      return Proceed;
    }

    method OpenAssessment()
      requires At(Planned)
      modifies store, task`status
      ensures At(Assessing) && store.origin == old(store.origin)
      ensures store.events == old(store.events) + [StatusChanged(AssessingRisk), AgentStarted("safety")]
    {
      hide Step, Apply, Exec, Store.Valid, Rows, Distinct, FailureText;
      AtPlanned(store.cfg, task.Row());
      SetStatus(AssessingRisk, AssessOpened);
      Commit(AgentStarted("safety"), Go, Assessing);
    }

    /** A task without a plan or an assessment is planned; any other is taken up where it stopped. */
    method Prepare() returns (f: Flow)
      requires At(Start)
      modifies store, task`status, task`steps, task`risk, task.steps, outside`replies
      ensures task.steps == old(task.steps) || fresh(task.steps)
      ensures f.Proceed? ==> At(Gate) && task.steps != [] && task.risk.Some?
      ensures old(task.steps == [] || task.risk.None?) ==>
                Prepared(f, old(outside.replies), outside.replies, Rows(task.steps), task.risk)
      ensures old(task.steps == [] || task.risk.None?) && f.Proceed? ==>
                && fresh(task.steps)
                && store.events == old(store.events) + PlanEvents(|task.steps|) + AssessEvents(task.risk.value)
      ensures old(task.steps != [] && task.risk.Some?) ==>
                && f.Proceed?
                && task.Row() == old(task.Row()).(steps := ResumeSteps(old(Rows(task.steps))))
                && store.row == old(store.row) && store.events == old(store.events)
                && outside.replies == old(outside.replies)
      ensures !f.Halt? && (f.Throw? ==> Raising(f, Raised(f.provider, f.message)))
      ensures store.origin == old(store.origin)
    {
      hide Step, Apply, Exec, Store.Valid, Rows, Distinct, FailureText;
      hide PlanEvents, AssessEvents, Prepared, Orchestrator.At, Orchestrator.Raising;
      if task.steps == [] || task.risk.None? {
        f := PlanAndAssess();
      } else {
        ResumePlan();
        f := Proceed;
      }
    }

    method PlanAndAssess() returns (f: Flow)
      requires At(Start) && (task.steps == [] || task.risk.None?)
      modifies store, task`status, task`steps, task`risk, outside`replies
      ensures task.steps == old(task.steps) || fresh(task.steps)
      ensures Prepared(f, old(outside.replies), outside.replies, Rows(task.steps), task.risk)
      ensures f.Proceed? ==>
                && At(Gate) && fresh(task.steps) && task.steps != [] && task.risk.Some?
                && store.events == old(store.events) + PlanEvents(|task.steps|) + AssessEvents(task.risk.value)
      ensures !f.Halt? && (f.Throw? ==> Raising(f, Raised(f.provider, f.message)))
      ensures store.origin == old(store.origin)
    {
      hide Step, Apply, Exec, Store.Valid, Rows, Distinct, FailureText, PlanEvents, AssessEvents;
      hide PlanOf, ValidProposal, Orchestrator.At, Orchestrator.Raising;
      f := Plan();
      if f.Proceed? {
        f := Assess();
      }
    }

    method ResumePlan()
      requires At(Start) && task.steps != [] && task.risk.Some?
      modifies store`labels, store`world, task.steps
      ensures At(Gate) && store.origin == old(store.origin)
      ensures task.Row() == old(task.Row()).(steps := ResumeSteps(old(Rows(task.steps))))
    {
      hide Step, Apply, Exec, Store.Valid, Rows, Distinct, FailureText;
      AtStart(store.cfg, task.Row());
      ResumeInterrupted();
      Move(Go, Gate);
    }

    method StartRework(r: nat)
      requires At(Loop(r, |task.steps|)) && task.verified != Some(true) && r < MAX_ROUNDS
      modifies store, task, task.steps
      ensures task.steps == old(task.steps)
      ensures At(Loop(r + 1, 0)) && task.rework == old(task.rework) + 1
      ensures task.verified.None? && forall s :: s in task.steps ==> s.status == Pending && s.output == ""
      ensures store.events == old(store.events) + [ReworkStarted(task.rework), StatusChanged(TaskStatus.Running)]
      ensures store.origin == old(store.origin)
    {
      hide Step, Apply, Exec, Store.Valid, Rows, Distinct, FailureText;
      AtLoop(store.cfg, task.Row(), r, |task.steps|);
      task.rework := task.rework + 1;
      Commit(ReworkStarted(task.rework), Go, Rework(r));
      RestartRound(r);
    }

    method RestartRound(ghost r: nat)
      requires At(Rework(r))
      modifies store, task`verified, task`status, task.steps
      ensures At(Loop(r + 1, 0)) && store.origin == old(store.origin)
      ensures task.verified.None? && forall s :: s in task.steps ==> s.status == Pending && s.output == ""
      ensures store.events == old(store.events) + [StatusChanged(TaskStatus.Running)]
    {
      hide Step, Apply, Exec, Store.Valid, Rows, Distinct, FailureText;
      AtRework(store.cfg, task.Row(), r);
      ResetForRework();
      task.status := TaskStatus.Running;
      Commit(StatusChanged(TaskStatus.Running), Go, Loop(r + 1, 0));
    }

    /** What follows a round: the report, a rework, or failure. */
    method AfterRound(r: nat) returns (f: Flow)
      requires At(Loop(r, |task.steps|)) && 1 <= r <= MAX_ROUNDS
      modifies store, task, task.steps
      ensures task.steps == old(task.steps) && store.origin == old(store.origin)
      ensures f.Halt? <==> old(task.verified) == Some(true)
      ensures f.Proceed? <==> old(task.verified) != Some(true) && r < MAX_ROUNDS
      ensures f.Halt? ==> At(Synthesizing)
      ensures f.Proceed? ==> At(Loop(r + 1, 0))
      ensures f.Throw? ==>
                && Raising(f, Go)
                && f == Throw(false, "RuntimeError: Verification failed after rework: " + old(task.verification))
    {
      hide Step, Apply, Exec, Store.Valid, Rows, Distinct, FailureText;
      AtLoop(store.cfg, task.Row(), r, |task.steps|);
      if task.verified == Some(true) {
        Move(Go, Synthesizing);
        return Halt;
      }
      if r == MAX_ROUNDS {
        return Throw(false, "RuntimeError: Verification failed after rework: " + task.verification);
      }
      StartRework(r);
      return Proceed;
    }

    method OpenRounds() returns (round: nat)
      requires At(Cleared)
      modifies store, task`status
      ensures round == task.rework + 1 && store.origin == old(store.origin)
      ensures At(if round <= MAX_ROUNDS then Loop(round, 0) else Synthesizing)
      ensures store.events == old(store.events) + [StatusChanged(TaskStatus.Running)]
    {
      hide Step, Apply, Exec, Store.Valid, Rows, Distinct, FailureText;
      AtCleared(store.cfg, task.Row());
      round := task.rework + 1;
      SetStatus(TaskStatus.Running, if round <= MAX_ROUNDS then Loop(round, 0) else Synthesizing);
    }

    /** One round and what follows it. */
    method OneRound(round: nat) returns (f: Flow, calls: nat)
      requires At(Loop(round, 0)) && 1 <= round <= MAX_ROUNDS
      modifies store, task, task.steps, outside`replies, outside`clock
      ensures task.steps == old(task.steps) && store.origin == old(store.origin)
      ensures f.Halt? ==> At(Synthesizing)
      ensures f.Proceed? ==> round < MAX_ROUNDS && At(Loop(round + 1, 0))
      ensures f.Throw? ==> Raising(f, Go)
      ensures calls <= RoundBound(|task.steps|, store.cfg.maxStepRetries) && NewReplies(old(outside.replies), calls)
    {
      hide Step, Apply, Exec, Store.Valid, Rows, Distinct, FailureText;
      hide RoundBound, Orchestrator.At, Orchestrator.Raising;
      var ok;
      ok, calls := ExecuteRound(round);
      if ok {
        f := AfterRound(round);
      } else {
        f := GiveUpRound();
      }
    }

    /** A broken round fails the run with the error of its first failed step. */
    method GiveUpRound() returns (f: Flow)
      requires At(Broken)
      ensures Raising(f, Go) && f == Throw(false, "RuntimeError: " + FailureText(Rows(task.steps)))
    {
      hide Step, Apply, Exec, Store.Valid, Rows, Distinct, FailureText;
      var message := FirstFailure();
      AtBroken(store.cfg, task.Row());
      return Throw(false, "RuntimeError: " + message);
    }

    /** The original round and at most one rework round. */
    method RunRounds() returns (f: Flow, calls: nat)
      requires At(Cleared)
      modifies store, task, task.steps, outside`replies, outside`clock
      ensures task.steps == old(task.steps) && store.origin == old(store.origin)
      ensures f.Proceed? ==> At(Synthesizing)
      ensures !f.Halt? && (f.Throw? ==> Raising(f, Go))
      ensures calls <= CallBound(|task.steps|, store.cfg.maxStepRetries) && NewReplies(old(outside.replies), calls)
    {
      hide Step, Apply, Exec, Store.Valid, Rows, Distinct, FailureText;
      hide RoundBound, CallBound, Orchestrator.At, Orchestrator.Raising;
      var round := OpenRounds();
      calls := 0;
      ghost var perRound := RoundBound(|task.steps|, store.cfg.maxStepRetries);
      TwoRounds(|task.steps|, store.cfg.maxStepRetries);
      while round <= MAX_ROUNDS
        invariant task.steps == old(task.steps) && store.origin == old(store.origin)
        invariant 1 <= round
        invariant At(if round <= MAX_ROUNDS then Loop(round, 0) else Synthesizing)
        invariant calls <= (if round == 1 then 0 else perRound) && NewReplies(old(outside.replies), calls)
        decreases MAX_ROUNDS + 1 - round
      {
        var made;
        f, made := OneRound(round);
        calls := calls + made;
        if !f.Proceed? {
          f := if f.Halt? then Proceed else f;
          return;
        }
        round := round + 1;
      }
      return Proceed, calls;
    }

    /** Asks for the report once and stores it as it is. */
    method Report() returns (f: Flow)
      requires At(Synthesizing)
      modifies store, task`result, task`status, outside`replies
      ensures f.Halt? ==> At(Done) && task.status.Completed?
      ensures !f.Proceed? && (f.Throw? ==> Raising(f, Raised(f.provider, f.message)))
      ensures store.origin == old(store.origin)
      ensures |outside.replies| > |old(outside.replies)|
      ensures outside.replies[..|old(outside.replies)|] == old(outside.replies)
      ensures var x := UnderstoodReport(outside.replies[|old(outside.replies)|]);
              && (x.Raised? ==> f == Throw(x.provider, x.message) && store.events == old(store.events))
              && (x.Synthesized? ==>
                    && task.result == x.report
                    && (f.Halt? ==> store.events == old(store.events) + ReportEvents(x.report)))
    {
      hide Step, Apply, Exec, Store.Valid, Rows, Distinct, FailureText, UnderstoodReport;
      hide Orchestrator.At, Orchestrator.Raising;
      var x := WriteReport();
      if x.Raised? {
        return Throw(x.provider, x.message);
      }
      f := Conclude();
    }

    method WriteReport() returns (x: Input)
      requires At(Synthesizing)
      modifies store, task`result, outside`replies
      ensures OneReply(old(outside.replies)) && x == UnderstoodReport(LastReply())
      ensures x.Raised? || x.Synthesized?
      ensures x.Raised? ==> Raising(Throw(x.provider, x.message), x) && store.events == old(store.events)
      ensures x.Synthesized? ==>
                && At(Reported) && task.result == x.report
                && store.events == old(store.events) + [TaskCompleted(x.report)]
      ensures store.origin == old(store.origin)
    {
      hide Step, Apply, Exec, Store.Valid, Rows, Distinct, FailureText;
      var r := outside.Consult();
      x := UnderstoodReport(r);
      AtSynthesizing(store.cfg, task.Row(), x);
      if x.Synthesized? {
        task.result := x.report;
        Commit(TaskCompleted(x.report), x, Reported);
      }
    }

    method Conclude() returns (f: Flow)
      requires At(Reported)
      modifies store, task`status, outside`replies
      ensures OneReply(old(outside.replies))
      ensures f == if LastReply().answer.Raised? then Throw(false, LastReply().answer.message) else Halt
      ensures task.status.Completed? && (f.Halt? ==> At(Done))
      ensures f.Throw? ==> Raising(f, Raised(f.provider, f.message))
      ensures store.origin == old(store.origin)
      ensures f.Halt? ==> store.events == old(store.events) + CompletionEvents()
    {
      hide Step, Apply, Exec, Store.Valid, Rows, Distinct, FailureText;
      AtReported(store.cfg, store.world.live);
      SetStatus(TaskStatus.Completed, Finishing(false));
      hide Orchestrator.Raising;
      f := Finish();
    }

    /** The handler around a run: the task fails; an exception while it is being closed leaves the handler. */
    method Fail(provider: bool, message: string, ghost x: Input)
      requires Raising(Throw(provider, message), x)
      modifies store, task`error, task`status, outside`replies
      ensures At(Done) || At(Aborted)
      ensures task.status == TaskStatus.Failed && task.error == message
      ensures store.origin == old(store.origin)
      ensures OneReply(old(outside.replies))
      ensures store.events == old(store.events) + FailureEvents(provider, message, !LastReply().answer.Raised?)
    {
      hide Step, Apply, Exec, Store.Valid, Rows, Distinct, FailureText;
      Condemn(provider, message, x);
      CloseFailed();
    }

    method Condemn(provider: bool, message: string, ghost x: Input)
      requires Raising(Throw(provider, message), x)
      modifies store, task`error
      ensures At(Doomed) && task.error == message && store.origin == old(store.origin)
      ensures store.events == old(store.events) + (if provider then [ProviderError(None, message)] else [])
                              + [TaskFailed(message)]
    {
      hide Step, Apply, Exec, Store.Valid, Rows, Distinct, FailureText;
      task.error := message;
      if provider {
        Commit(ProviderError(None, message), x, Failing);
        AtDoomed(store.cfg, store.world.live);
        Commit(TaskFailed(task.error), Go, Doomed);
      } else {
        Commit(TaskFailed(task.error), x, Doomed);
      }
    }

    method CloseFailed()
      requires At(Doomed)
      modifies store, task`status, outside`replies
      ensures OneReply(old(outside.replies))
      ensures At(if LastReply().answer.Raised? then Aborted else Done)
      ensures task.status == TaskStatus.Failed
      ensures store.origin == old(store.origin)
      ensures store.events == old(store.events) + [StatusChanged(TaskStatus.Failed)]
                              + if LastReply().answer.Raised? then [] else [StreamEnd(TaskStatus.Failed)]
    {
      hide *;
      MarkFailed();
      var fault := CloseStream(true);
      if fault.Some? {
        LeaveHandler(fault.value);
      }
    }

    method MarkFailed()
      requires At(Doomed)
      modifies store, task`status
      ensures At(Finishing(true)) && store.origin == old(store.origin) && task.status == TaskStatus.Failed
      ensures task.Row() == store.row == old(task.Row()).(status := TaskStatus.Failed)
      ensures store.events == old(store.events) + [StatusChanged(TaskStatus.Failed)]
    {
      hide Step, Apply, Exec, Store.Valid, Rows, Distinct, FailureText;
      AtDoomed(store.cfg, store.world.live);
      SetStatus(TaskStatus.Failed, Finishing(true));
    }

    /** An exception inside the handler is caught by nobody. */
    ghost method LeaveHandler(message: string)
      requires At(Finishing(true)) && Heard(Raised(false, message))
      modifies store`labels, store`world
      ensures At(Aborted) && store.origin == old(store.origin)
    {
      hide Step, Apply, Exec, Store.Valid, Rows, Distinct, FailureText;
      AtFinishing(store.cfg, store.world.live, true, Raised(false, message));
      Move(Raised(false, message), Aborted);
    }

    /** Plan, gate, rounds, report. */
    method Body() returns (f: Flow, ghost x: Input, calls: nat)
      requires At(Start)
      modifies store, task, task.steps, outside
      ensures task.steps == old(task.steps) || fresh(task.steps)
      ensures f.Halt? ==> (At(Done) && task.status.Terminal()) || At(Paused)
      ensures !f.Proceed? && (f.Throw? ==> Raising(f, x))
      ensures calls <= CallBound(|task.steps|, store.cfg.maxStepRetries)
      ensures store.origin == old(store.origin)
    {
      hide Step, Apply, Exec, Store.Valid, CallBound;
      hide PlanEvents, AssessEvents, ReportEvents, Prepared, Timely, Orchestrator.At, Orchestrator.Raising;
      calls := 0;
      f := Prepare();
      x := if f.Throw? then Raised(f.provider, f.message) else Go;
      if !f.Proceed? {
        return;
      }
      f := PassGate();
      x := if f.Throw? then Raised(f.provider, f.message) else Go;
      if !f.Proceed? {
        return;
      }
      x := Go;
      f, calls := RunRounds();
      if !f.Proceed? {
        return;
      }
      f := Report();
      x := if f.Throw? then Raised(f.provider, f.message) else Go;
    }

    /** What every run of the system guarantees about this store. */
    lemma StoreIsSafe()
      requires Valid()
      ensures AttemptsPermitted(store.world.log)
      ensures task.status.Completed? ==>
                task.verified == Some(true) && forall s :: s in task.steps ==> s.status.Completed?
    {
      GateSafety(store.cfg, store.origin, store.labels, store.world);
      ReachableInv(store.cfg, store.origin, store.labels, store.world);
      hide Step, Apply, Exec, At, ResumeSteps;
      forall s | s in task.steps && task.status.Completed? ensures s.status.Completed? {
        var i :| 0 <= i < |task.steps| && task.steps[i] == s;
        assert Rows(task.steps)[i] == s.Row();
      }
    }

    /** Runs the task from creation or recovery until it ends or pauses. The agent calls it makes are bounded
        by steps, retries and rounds; a completed task is verified and done; the store holds what the live
        task says. */
    method Execute() returns (calls: nat)
      requires At(Start)
      modifies store, task, task.steps, outside
      ensures At(Done) || At(Aborted) || At(Paused)
      ensures !At(Paused) ==> task.status.Terminal()
      ensures task.status.Completed? ==>
                task.verified == Some(true) && forall s :: s in task.steps ==> s.status.Completed?
      ensures AttemptsPermitted(store.world.log)
      ensures calls <= CallBound(|task.steps|, store.cfg.maxStepRetries)
      ensures store.origin == old(store.origin)
    {
      hide Step, Apply, Exec, Store.Valid, Rows, Distinct, FailureText, FailureEvents;
      var f: Flow;
      ghost var x: Input;
      f, x, calls := Body();
      if f.Throw? {
        Fail(f.provider, f.message, x);
      }
      StoreIsSafe();
    }
  }
}
