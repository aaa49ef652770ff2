/** Serialised runs in worker mode: what a run commits is a prefix of what the controller does from the
    row that was loaded, and while no lease ends early the runs follow one another in the log. */
module CeleryRuns {
  import opened Models
  import opened Controller
  import opened Celery

  // ------------------------------------------------------------ a single run

  datatype Progress = Progress(ctl: Ctl, task: TaskRow, commits: seq<Commit>)

  function Further(p: Progress, m: Move): Progress {
    Progress(m.ctl, m.task, p.commits + if m.event.Some? then [Commit(m.event.value, m.task)] else [])
  }

  /** The controller alone, from a loaded row, on a list of inputs. */
  function Trace(c: Config, from: TaskRow, inputs: seq<Input>): Option<Progress>
    decreases |inputs|
  {
    if inputs == [] then Some(Progress(Start, from, []))
    else
      var p := Trace(c, from, inputs[..|inputs| - 1]);
      if p.None? then None
      else
        var m := Step(c, p.value.ctl, p.value.task, inputs[|inputs| - 1]);
        if m.None? then None else Some(Further(p.value, m.value))
  }

  lemma TraceSnoc(c: Config, from: TaskRow, inputs: seq<Input>, x: Input)
    requires Trace(c, from, inputs).Some?
    requires var p := Trace(c, from, inputs).value; Step(c, p.ctl, p.task, x).Some?
    ensures var p := Trace(c, from, inputs).value;
            Trace(c, from, inputs + [x]) == Some(Further(p, Step(c, p.ctl, p.task, x).value))
  {
    assert (inputs + [x])[..|inputs|] == inputs;
    hide Step;
  }

  /** The commits of one run, in log order. */
  function CommitsOf(log: seq<Commit>, authors: seq<Option<nat>>, n: nat): seq<Commit>
    requires |authors| == |log|
    decreases |log|
  {
    if log == [] then []
    else
      var i := |log| - 1;
      CommitsOf(log[..i], authors[..i], n) + if authors[i] == Some(n) then [log[i]] else []
  }

  lemma CommitsSnoc(log: seq<Commit>, authors: seq<Option<nat>>, n: nat, m: Commit, a: Option<nat>)
    requires |authors| == |log|
    ensures CommitsOf(log + [m], authors + [a], n) == CommitsOf(log, authors, n) + if a == Some(n) then [m] else []
  {
    assert (log + [m])[..|log|] == log && (authors + [a])[..|log|] == authors;
  }

  lemma {:induction false} NoCommitsYet(log: seq<Commit>, authors: seq<Option<nat>>, n: nat)
    requires |authors| == |log| && forall i :: 0 <= i < |authors| ==> authors[i] != Some(n)
    ensures CommitsOf(log, authors, n) == []
    decreases |log|
  {
    if log != [] {
      NoCommitsYet(log[..|log| - 1], authors[..|log| - 1], n);
    }
  }

  /** Run n loaded a row that had not ended, the one the log left but for a decision, and its commits,
      all of them later, are those of the controller alone. */
  ghost predicate TripOk(c: Config, log: seq<Commit>, authors: seq<Option<nat>>, n: nat, trip: Trip)
    requires |authors| == |log|
  {
    && !trip.from.status.Terminal()
    && 1 <= trip.pos <= |log|
    && trip.from == log[trip.pos - 1].row.(decision := trip.from.decision)
    && (forall i :: 0 <= i < trip.pos ==> authors[i] != Some(n))
    && Trace(c, trip.from, trip.inputs).Some?
    && Trace(c, trip.from, trip.inputs).value.commits == CommitsOf(log, authors, n)
  }

  lemma TripGrows(c: Config, log: seq<Commit>, authors: seq<Option<nat>>, n: nat, trip: Trip, m: Commit, a: Option<nat>)
    requires |authors| == |log| && TripOk(c, log, authors, n, trip) && a != Some(n)
    ensures TripOk(c, log + [m], authors + [a], n, trip)
  {
    CommitsSnoc(log, authors, n, m, a);
    hide Trace, CommitsOf;
  }

  lemma TripAdvances(c: Config, log: seq<Commit>, authors: seq<Option<nat>>, n: nat, trip: Trip, x: Input)
    requires |authors| == |log| && TripOk(c, log, authors, n, trip)
    requires var p := Trace(c, trip.from, trip.inputs).value; Step(c, p.ctl, p.task, x).Some?
    ensures var p := Trace(c, trip.from, trip.inputs).value;
            var m := Step(c, p.ctl, p.task, x).value;
            var u := trip.(inputs := trip.inputs + [x]);
            && Trace(c, u.from, u.inputs).Some?
            && Trace(c, u.from, u.inputs).value.ctl == m.ctl && Trace(c, u.from, u.inputs).value.task == m.task
            && (m.event.None? ==> TripOk(c, log, authors, n, u))
            && (m.event.Some? ==> TripOk(c, log + [Commit(m.event.value, m.task)], authors + [Some(n)], n, u))
  {
    hide Trace, CommitsOf, Step;
    TraceSnoc(c, trip.from, trip.inputs, x);
    var p := Trace(c, trip.from, trip.inputs).value;
    var m := Step(c, p.ctl, p.task, x).value;
    if m.event.Some? {
      CommitsSnoc(log, authors, n, Commit(m.event.value, m.task), Some(n));
    }
  }

  // ----------------------------------------------------------------- the lock

  /** While no lease has ended early, only the holder of the lock is engaged in a run. */
  ghost predicate LockHeld(w: World) {
    w.expiries == 0 ==> forall p :: 0 <= p < |w.procs| && Engaged(w.procs[p].act) ==> w.lock == Some(p)
  }

  lemma LockStays(c: Config, w: World, l: Label)
    requires LockHeld(w) && Apply(c, w, l).Some?
    ensures LockHeld(Apply(c, w, l).value)
  {
    hide Step;
  }

  // -------------------------------------------------------------- the runs

  /** A run in progress is where its inputs take the controller. */
  ghost predicate AtWork(c: Config, q: Proc, trips: seq<Trip>) {
    q.act.Working? ==>
      && q.copy.Some? && q.act.run < |trips|
      && var t := Trace(c, trips[q.act.run].from, trips[q.act.run].inputs);
      t.Some? && t.value.ctl == q.act.ctl && t.value.task == q.copy.value
  }

  ghost predicate Serial(w: World) {
    w.expiries == 0 ==>
      && (forall i, j :: 0 <= i < j < |w.authors| && w.authors[i].Some? && w.authors[j].Some? ==>
            w.authors[i].value <= w.authors[j].value)
      && (forall p :: 0 <= p < |w.procs| && w.procs[p].act.Working? ==> w.procs[p].act.run + 1 == |w.trips|)
  }

  ghost predicate Runs(c: Config, w: World) {
    && |w.authors| == |w.log| > 0
    && w.row == w.log[|w.log| - 1].row.(decision := w.row.decision)
    && (forall i :: 0 <= i < |w.authors| && w.authors[i].Some? ==> w.authors[i].value < |w.trips|)
    && (forall n :: 0 <= n < |w.trips| ==> TripOk(c, w.log, w.authors, n, w.trips[n]))
    && (forall p :: 0 <= p < |w.procs| ==> AtWork(c, w.procs[p], w.trips))
    && (forall p, q :: 0 <= p < q < |w.procs| && w.procs[p].act.Working? && w.procs[q].act.Working? ==>
          w.procs[p].act.run != w.procs[q].act.run)
  }

  lemma RunKeepsTrips(c: Config, w: World, p: nat, x: Input)
    requires Runs(c, w) && p < |w.procs| && RunStep(c, w, p, x).Some?
    ensures var v := RunStep(c, w, p, x).value;
            && |v.authors| == |v.log|
            && (forall m :: 0 <= m < |v.trips| ==> TripOk(c, v.log, v.authors, m, v.trips[m]))
            && AtWork(c, v.procs[p], v.trips)
  {
    var v := RunStep(c, w, p, x).value;
    var n := w.procs[p].act.run;
    assert AtWork(c, w.procs[p], w.trips);
    TripAdvances(c, w.log, w.authors, n, w.trips[n], x);
    hide Trace, Step, CommitsOf;
    assert TripOk(c, v.log, v.authors, n, v.trips[n]);
    hide Runs;
    forall m | 0 <= m < |v.trips| ensures TripOk(c, v.log, v.authors, m, v.trips[m]) {
      if m != n {
        assert TripOk(c, w.log, w.authors, m, w.trips[m]) by {
          TripOfRuns(c, w, m);
        }
        if v.log != w.log {
          TripGrows(c, w.log, w.authors, m, w.trips[m], v.log[|w.log|], Some(n));
        }
      }
    }
  }

  lemma TripOfRuns(c: Config, w: World, m: nat)
    requires Runs(c, w) && m < |w.trips|
    ensures |w.authors| == |w.log| && TripOk(c, w.log, w.authors, m, w.trips[m])
  {
    hide TripOk;
  }

  lemma RunKeepsRuns(c: Config, w: World, p: nat, x: Input)
    requires Runs(c, w) && p < |w.procs| && RunStep(c, w, p, x).Some?
    ensures Runs(c, RunStep(c, w, p, x).value)
  {
    hide Trace, Step, TripOk;
    RunKeepsTrips(c, w, p, x);
    var v := RunStep(c, w, p, x).value;
    var n := w.procs[p].act.run;
    forall q | 0 <= q < |v.procs| ensures AtWork(c, v.procs[q], v.trips) {
      assert AtWork(c, w.procs[q], w.trips);
      assert q != p && w.procs[q].act.Working? ==> w.procs[q].act.run != n;
    }
  }

  /** A commit outside a run. */
  lemma OutsideCommit(c: Config, w: World, v: World, m: Commit)
    requires Runs(c, w) && v.trips == w.trips && |v.procs| == |w.procs| && v.row == m.row
    requires v.log == w.log + [m] && v.authors == w.authors + [None]
    requires forall p :: 0 <= p < |w.procs| && v.procs[p].act.Working? ==> v.procs[p] == w.procs[p]
    ensures Runs(c, v)
  {
    forall n | 0 <= n < |v.trips| ensures TripOk(c, v.log, v.authors, n, v.trips[n]) {
      TripGrows(c, w.log, w.authors, n, w.trips[n], m, None);
    }
    hide TripOk, Trace;
  }

  /** A transition that commits nothing and starts no run. */
  lemma NoCommit(c: Config, w: World, v: World)
    requires Runs(c, w) && v.trips == w.trips && |v.procs| == |w.procs|
    requires v.log == w.log && v.authors == w.authors && v.row == w.row.(decision := v.row.decision)
    requires forall p :: 0 <= p < |w.procs| && v.procs[p].act.Working? ==> v.procs[p] == w.procs[p]
    ensures Runs(c, v)
  {
    hide TripOk, Trace;
  }

  lemma LoadKeepsRuns(c: Config, w: World, p: nat)
    requires Runs(c, w) && p < |w.procs| && w.procs[p].act.Loading? && !w.row.status.Terminal()
    ensures Runs(c, Proceed(w, p).value)
  {
    var v := Proceed(w, p).value;
    var n := |w.trips|;
    NoCommitsYet(w.log, w.authors, n);
    assert TripOk(c, v.log, v.authors, n, v.trips[n]);
    assert AtWork(c, v.procs[p], v.trips);
    hide TripOk, Trace, CommitsOf;
    assert forall m :: 0 <= m < n ==> v.trips[m] == w.trips[m];
  }

  lemma ProceedKeepsRuns(c: Config, w: World, p: nat)
    requires Runs(c, w) && p < |w.procs| && Proceed(w, p).Some?
    ensures Runs(c, Proceed(w, p).value)
  {
    var v := Proceed(w, p).value;
    if w.procs[p].act.Loading? && !w.row.status.Terminal() {
      LoadKeepsRuns(c, w, p);
    } else if v.log == w.log {
      hide Runs;
      NoCommit(c, w, v);
    } else {
      hide Runs;
      OutsideCommit(c, w, v, v.log[|w.log|]);
    }
  }

  lemma ApplyKeepsRuns(c: Config, w: World, l: Label)
    requires Runs(c, w) && Apply(c, w, l).Some?
    ensures Runs(c, Apply(c, w, l).value)
  {
    var v := Apply(c, w, l).value;
    hide Runs, Proceed, RunStep;
    if l.Go? {
      ProceedKeepsRuns(c, w, l.p);
    } else if l.Run? {
      RunKeepsRuns(c, w, l.p, l.x);
    } else if l.SendFails? {
      OutsideCommit(c, w, v, v.log[|w.log|]);
    } else {
      NoCommit(c, w, v);
    }
  }

  lemma RunKeepsSerial(c: Config, w: World, p: nat, x: Input)
    requires Runs(c, w) && LockHeld(w) && Serial(w) && p < |w.procs| && RunStep(c, w, p, x).Some?
    ensures Serial(RunStep(c, w, p, x).value)
  {
    hide Step, TripOk, Trace, AtWork;
  }

  lemma ProceedKeepsSerial(c: Config, w: World, p: nat)
    requires Runs(c, w) && LockHeld(w) && Serial(w) && p < |w.procs| && Proceed(w, p).Some?
    ensures Serial(Proceed(w, p).value)
  {
    hide TripOk, Trace, AtWork;
  }

  lemma SerialStays(c: Config, w: World, l: Label)
    requires Runs(c, w) && LockHeld(w) && Serial(w) && Apply(c, w, l).Some?
    ensures Serial(Apply(c, w, l).value)
  {
    hide Step, Proceed, RunStep, TripOk, Trace, AtWork;
    if l.Run? {
      RunKeepsSerial(c, w, l.p, l.x);
    } else if l.Go? {
      ProceedKeepsSerial(c, w, l.p);
    }
  }

  lemma CreatedRuns(c: Config, w0: World)
    requires Reaches(c, w0, [], w0)
    ensures Runs(c, w0) && LockHeld(w0) && Serial(w0)
  {
  }

  lemma {:induction false} ReachableRuns(c: Config, w0: World, ls: seq<Label>, w: World)
    requires Reaches(c, w0, ls, w)
    ensures Runs(c, w) && LockHeld(w) && Serial(w)
    decreases |ls|
  {
    hide Runs, LockHeld, Serial, Apply;
    if ls == [] {
      CreatedRuns(c, w0);
    } else {
      var v, l := Exec(c, w0, ls[..|ls| - 1]).value, ls[|ls| - 1];
      ReachableRuns(c, w0, ls[..|ls| - 1], v);
      ApplyKeepsRuns(c, v, l);
      LockStays(c, v, l);
      SerialStays(c, v, l);
    }
  }

  /** Whatever else happens, every run loaded a row that had not ended, and its commits are those the
      controller alone makes from that row on some inputs: a whole run or one cut short. So resuming an
      ended task commits nothing. */
  lemma RunsStartFromTheRow(c: Config, w0: World, ls: seq<Label>, w: World, n: nat)
    requires Reaches(c, w0, ls, w) && n < |w.trips|
    ensures var trip := w.trips[n];
            && |w.authors| == |w.log|
            && !trip.from.status.Terminal()
            && 1 <= trip.pos <= |w.log| && trip.from == w.log[trip.pos - 1].row.(decision := trip.from.decision)
            && (forall i :: 0 <= i < |w.log| && w.authors[i] == Some(n) ==> i >= trip.pos)
            && Trace(c, trip.from, trip.inputs).Some?
            && Trace(c, trip.from, trip.inputs).value.commits == CommitsOf(w.log, w.authors, n)
  {
    ReachableRuns(c, w0, ls, w);
    hide Trace, CommitsOf, Serial, LockHeld, AtWork;
  }

  /** While no lease ends early, at most one process runs the task, and the commits of the runs follow one
      another in the log without mixing. */
  lemma RunsAreSerial(c: Config, w0: World, ls: seq<Label>, w: World)
    requires Reaches(c, w0, ls, w) && w.expiries == 0
    ensures forall p, q :: 0 <= p < q < |w.procs| ==> !(w.procs[p].act.Working? && w.procs[q].act.Working?)
    ensures forall i, j :: 0 <= i < j < |w.authors| && w.authors[i].Some? && w.authors[j].Some? ==>
              w.authors[i].value <= w.authors[j].value
  {
    ReachableRuns(c, w0, ls, w);
    hide Runs;
  }
}
