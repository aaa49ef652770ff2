/** Who decides an approval: any number of callers, each an unlocked read followed by an update
    that applies only if the row still waits and still has the timestamp that was read.
    Reads and updates of different callers interleave arbitrarily. */
module Approval {
  import opened Models
  import InProcess

  datatype Record = Record(task: TaskRow, updatedAt: real)

  /** One call of `decide_approval` or, with a cutoff, of `expire_approval`. */
  datatype Call =
    // read, not yet written
    | Holding(tenant: string, approved: bool, cutoff: Option<real>, seen: Record)
    // its update hit the row
    | Claimed(tenant: string, approved: bool, cutoff: Option<real>, wrote: Record)
    // its update hit no row
    | Beaten
    // the read already said no
    | Refused

  datatype World = World(row: Record, calls: seq<Call>)

  datatype Label =
    | Read(tenant: string, approved: bool, cutoff: Option<real>)
    | Write(call: nat, now: real)

  function Opened(row: Record): World {
    World(row, [])
  }

  predicate Open(row: Record, tenant: string, cutoff: Option<real>) {
    row.task.tenant == tenant && InProcess.Undecided(row.task) && (cutoff.Some? ==> row.updatedAt < cutoff.value)
  }

  /** The condition of the update. */
  predicate Matches(row: Record, seen: Record) {
    row.task.tenant == seen.task.tenant && row.task.status.AwaitingApproval? && row.updatedAt == seen.updatedAt
  }

  function Decided(seen: Record, approved: bool, now: real): Record {
    Record(seen.task.(decision := Some(approved)), now)
  }

  function Apply(w: World, l: Label): Option<World> {
    match l
    case Read(tenant, approved, cutoff) =>
      var call := if Open(w.row, tenant, cutoff) then Holding(tenant, approved, cutoff, w.row) else Refused;
      Some(w.(calls := w.calls + [call]))
    case Write(i, now) =>
      if i >= |w.calls| || !w.calls[i].Holding? then None
      else
        var h := w.calls[i];
        if Matches(w.row, h.seen) then
          var wrote := Decided(h.seen, h.approved, now);
          Some(World(wrote, w.calls[i := Claimed(h.tenant, h.approved, h.cutoff, wrote)]))
        else Some(w.(calls := w.calls[i := Beaten]))
  }

  function Exec(w: World, ls: seq<Label>): Option<World>
    decreases |ls|
  {
    if ls == [] then Some(w)
    else
      var v := Exec(w, ls[..|ls| - 1]);
      if v.None? then None else Apply(v.value, ls[|ls| - 1])
  }

  /** The update does not reuse the timestamp its call has read. */
  predicate Moves(w: World, l: Label) {
    l.Write? && l.call < |w.calls| && w.calls[l.call].Holding? ==> l.now != w.calls[l.call].seen.updatedAt
  }

  predicate Ticking(w: World, ls: seq<Label>)
    decreases |ls|
  {
    ls == [] ||
    (var front := ls[..|ls| - 1];
     Ticking(w, front) && (Exec(w, front).Some? ==> Moves(Exec(w, front).value, ls[|ls| - 1])))
  }

  // -------------------------------------------------------------- invariant

  ghost predicate CallState(first: Record, w: World, i: nat)
    requires i < |w.calls|
  {
    var k := w.calls[i];
    && (k.Holding? ==>
          && k.seen == first && InProcess.Undecided(first.task)
          && (k.cutoff.Some? ==> first.updatedAt < k.cutoff.value))
    && (k.Claimed? ==>
          && k.wrote == w.row && InProcess.Undecided(first.task)
          && w.row.task == first.task.(decision := Some(k.approved))
          && w.row.updatedAt != first.updatedAt
          && (k.cutoff.Some? ==> first.updatedAt < k.cutoff.value))
  }

  ghost predicate Won(w: World) {
    exists i :: 0 <= i < |w.calls| && w.calls[i].Claimed?
  }

  ghost predicate Inv(first: Record, w: World) {
    && (forall i :: 0 <= i < |w.calls| ==> CallState(first, w, i))
    && (forall i, j :: 0 <= i < j < |w.calls| && w.calls[i].Claimed? ==> !w.calls[j].Claimed?)
    && (forall i :: 0 <= i < |w.calls| && w.calls[i].Beaten? ==> Won(w))
    && (w.row == first || Won(w))
  }

  lemma ReadKeeps(first: Record, w: World, l: Label)
    requires Inv(first, w) && l.Read?
    ensures Inv(first, Apply(w, l).value)
  {
    var v := Apply(w, l).value;
    assert forall i :: 0 <= i < |w.calls| ==> v.calls[i] == w.calls[i];
    if Won(w) {
      var i :| 0 <= i < |w.calls| && w.calls[i].Claimed?;
      assert CallState(first, w, i);
      assert v.calls[i].Claimed?;
      assert !InProcess.Undecided(w.row.task);
    }
    forall i | 0 <= i < |v.calls| ensures CallState(first, v, i) {
      if i < |w.calls| {
        assert CallState(first, w, i);
      }
    }
  }

  lemma WriteKeeps(first: Record, w: World, l: Label)
    requires Inv(first, w) && l.Write? && Apply(w, l).Some? && Moves(w, l)
    ensures Inv(first, Apply(w, l).value)
  {
    var v := Apply(w, l).value;
    assert CallState(first, w, l.call);
    if Won(w) {
      var n :| 0 <= n < |w.calls| && w.calls[n].Claimed?;
      assert CallState(first, w, n);
      assert v.calls[n].Claimed?;
      assert v.row == w.row;
    } else {
      assert w.row == first;
      assert v.calls[l.call].Claimed?;
    }
    forall i | 0 <= i < |v.calls| ensures CallState(first, v, i) {
      assert CallState(first, w, i);
    }
  }

  lemma {:induction false} RunKeepsInv(first: Record, ls: seq<Label>, w: World)
    requires Exec(Opened(first), ls) == Some(w) && Ticking(Opened(first), ls)
    ensures Inv(first, w)
    decreases |ls|
  {
    hide Inv, Apply;
    if ls == [] {
      OpenedInv(first);
    } else {
      var front, l := ls[..|ls| - 1], ls[|ls| - 1];
      var v := Exec(Opened(first), front).value;
      RunKeepsInv(first, front, v);
      if l.Read? {
        ReadKeeps(first, v, l);
      } else {
        WriteKeeps(first, v, l);
      }
    }
  }

  lemma OpenedInv(first: Record)
    ensures Inv(first, Opened(first))
  {
  }

  // ----------------------------------------------------------------- tenants

  /** The row stays with its tenant, and only calls of that tenant got past their read. */
  ghost predicate OneTenant(tenant: string, w: World) {
    && w.row.task.tenant == tenant
    && forall i :: 0 <= i < |w.calls| && (w.calls[i].Holding? || w.calls[i].Claimed?) ==>
         w.calls[i].tenant == tenant && (w.calls[i].Holding? ==> w.calls[i].seen.task.tenant == tenant)
  }

  lemma {:induction false} RunsHaveOneTenant(first: Record, ls: seq<Label>, w: World)
    requires Exec(Opened(first), ls) == Some(w)
    ensures OneTenant(first.task.tenant, w)
    decreases |ls|
  {
    if ls != [] {
      var v := Exec(Opened(first), ls[..|ls| - 1]).value;
      RunsHaveOneTenant(first, ls[..|ls| - 1], v);
    }
  }

  /** A call of another tenant never gets past its read and never changes the row, whatever the clock does. */
  lemma ForeignCallsChangeNothing(first: Record, ls: seq<Label>, w: World, l: Label, v: World)
    requires Exec(Opened(first), ls) == Some(w) && Apply(w, l) == Some(v)
    ensures l.Read? && l.tenant != first.task.tenant ==> v.row == w.row && v.calls == w.calls + [Refused]
    ensures v.row != w.row ==>
              && l.Write? && l.call < |v.calls| && v.calls[l.call].Claimed?
              && v.calls[l.call].tenant == first.task.tenant
  {
    RunsHaveOneTenant(first, ls, w);
  }

  // ---------------------------------------------------------------- theorems

  /** At most one caller gets the task. The row then holds exactly that caller's decision and is otherwise as it
      was; an expiry wins only over a row older than its cutoff; and nobody loses an update unless there is
      a winner. */
  lemma SingleWinner(first: Record, ls: seq<Label>, w: World, i: nat, j: nat)
    requires Exec(Opened(first), ls) == Some(w) && Ticking(Opened(first), ls)
    requires i < |w.calls| && j < |w.calls|
    ensures w.calls[i].Claimed? && w.calls[j].Claimed? ==> i == j
    ensures w.calls[i].Claimed? ==>
              && w.row == w.calls[i].wrote
              && InProcess.Undecided(first.task) && w.row.task == first.task.(decision := Some(w.calls[i].approved))
              && (w.calls[i].cutoff.Some? ==> first.updatedAt < w.calls[i].cutoff.value)
              && w.calls[i].tenant == first.task.tenant
    ensures w.calls[i].Beaten? ==> Won(w)
    ensures w.row == first || Won(w)
  {
    RunKeepsInv(first, ls, w);
    RunsHaveOneTenant(first, ls, w);
    assert CallState(first, w, i);
  }

  lemma {:induction false} ClaimsStay(first: Record, ls: seq<Label>, more: seq<Label>, w: World, v: World, i: nat)
    requires Exec(Opened(first), ls) == Some(w) && Exec(Opened(first), ls + more) == Some(v)
    requires i < |w.calls| && w.calls[i].Claimed?
    ensures i < |v.calls| && v.calls[i] == w.calls[i]
    decreases |more|
  {
    if more == [] {
      assert ls + more == ls;
    } else {
      var front := more[..|more| - 1];
      assert (ls + more)[..|ls + more| - 1] == ls + front;
      ClaimsStay(first, ls, front, w, Exec(Opened(first), ls + front).value, i);
    }
  }

  lemma {:induction false} TickingPrefix(w: World, ls: seq<Label>, more: seq<Label>)
    requires Ticking(w, ls + more)
    ensures Ticking(w, ls)
    decreases |more|
  {
    if more == [] {
      assert ls + more == ls;
    } else {
      assert (ls + more)[..|ls + more| - 1] == ls + more[..|more| - 1];
      TickingPrefix(w, ls, more[..|more| - 1]);
    }
  }

  /** The winner's decision stands ever after. */
  lemma DecisionStands(first: Record, ls: seq<Label>, more: seq<Label>, w: World, v: World)
    requires Exec(Opened(first), ls) == Some(w) && Exec(Opened(first), ls + more) == Some(v)
    requires Ticking(Opened(first), ls + more) && Won(w)
    ensures v.row == w.row && Won(v)
  {
    TickingPrefix(Opened(first), ls, more);
    var i :| 0 <= i < |w.calls| && w.calls[i].Claimed?;
    ClaimsStay(first, ls, more, w, v, i);
    SingleWinner(first, ls, w, i, i);
    SingleWinner(first, ls + more, v, i, i);
  }

  /** The condition is needed: if the first update does not move the timestamp, a rejection can follow an
      approval that was already handed out. */
  lemma FrozenClockTwoWinners(first: Record)
    requires InProcess.Undecided(first.task)
    ensures var t := first.task.tenant;
            var ls := [Read(t, true, None), Read(t, false, None), Write(0, first.updatedAt), Write(1, first.updatedAt)];
            && Exec(Opened(first), ls).Some?
            && var w := Exec(Opened(first), ls).value;
            w.calls[0].Claimed? && w.calls[1].Claimed? && w.calls[0].approved && w.row.task.decision == Some(false)
  {
    var t := first.task.tenant;
    var a, b := Read(t, true, None), Read(t, false, None);
    var p, q := Write(0, first.updatedAt), Write(1, first.updatedAt);
    assert [] + [a] == [a] && [a] + [b] == [a, b] && [a, b] + [p] == [a, b, p] && [a, b, p] + [q] == [a, b, p, q];
    ExecSnoc(Opened(first), [], a);
    ExecSnoc(Opened(first), [a], b);
    ExecSnoc(Opened(first), [a, b], p);
    ExecSnoc(Opened(first), [a, b, p], q);
  }

  // --------------------------------------------------------------- the store

  /** The row, and the calls in flight with what each of them has read. */
  class ApprovalStore {
    var record: Record
    var calls: seq<Call>
    ghost const first: Record
    ghost var labels: seq<Label>

    /** The store is where a run of the protocol has it. */
    ghost predicate Valid()
      reads this
    {
      Exec(Opened(first), labels) == Some(World(record, calls))
    }

    /** No update so far reused the timestamp its call had read. */
    ghost predicate Moving()
      reads this
    {
      Ticking(Opened(first), labels)
    }

    constructor (record: Record)
      ensures Valid() && Moving() && this.record == record && first == record
    {
      this.record := record;
      calls := [];
      first := record;
      labels := [];
    }

    /** The unlocked read of a call, and its checks. */
    method Select(tenant: string, approved: bool, cutoff: Option<real>) returns (call: nat)
      requires Valid()
      modifies this
      ensures Valid() && record == old(record)
      ensures call == |old(calls)|
      ensures call < |calls| && calls == old(calls) + [calls[call]]
      ensures if record.task.tenant == tenant && InProcess.Undecided(record.task) &&
                 (cutoff.None? || record.updatedAt < cutoff.value)
              then calls[call] == Holding(tenant, approved, cutoff, record) else calls[call].Refused?
    {
      call := |calls|;
      ExecSnoc(Opened(first), labels, Read(tenant, approved, cutoff));
      labels := labels + [Read(tenant, approved, cutoff)];
      calls := calls + [if Open(record, tenant, cutoff) then Holding(tenant, approved, cutoff, record) else Refused];
    }

    /** The conditional update of a call; returns the number of rows it changed. */
    method UpdateWhere(call: nat, now: real) returns (rows: nat)
      requires Valid() && call < |calls| && calls[call].Holding?
      modifies this
      ensures Valid()
      ensures rows == if Matches(old(record), old(calls)[call].seen) then 1 else 0
      ensures var h := old(calls)[call];
              if rows == 1 then record == Decided(h.seen, h.approved, now)
                                && calls == old(calls)[call := Claimed(h.tenant, h.approved, h.cutoff, record)]
              else record == old(record) && calls == old(calls)[call := Beaten]
    {
      ExecSnoc(Opened(first), labels, Write(call, now));
      labels := labels + [Write(call, now)];
      var h := calls[call];
      if Matches(record, h.seen) {
        record := Decided(h.seen, h.approved, now);
        calls := calls[call := Claimed(h.tenant, h.approved, h.cutoff, record)];
        return 1;
      }
      calls := calls[call := Beaten];
      return 0;
    }

    /** Other callers read and write any number of times. */
    method Interleave(call: nat)
      requires Valid() && call < |calls|
      modifies this
      ensures Valid() && call < |calls| && calls[call] == old(calls[call])
    {
      var times: nat :| true;
      for n := 0 to times
        invariant Valid() && call < |calls| && calls[call] == old(calls[call])
      {
        var other: nat :| true;
        if other < |calls| && calls[other].Holding? && other != call {
          var now: real := *;
          var _ := UpdateWhere(other, now);
        } else {
          var tenant: string, approved: bool, cutoff: Option<real> := *, *, *;
          var _ := Select(tenant, approved, cutoff);
        }
      }
    }

    /** A reviewer's claim. If no update reuses the timestamp it has read, it returns the task exactly if its decision
        is the one the row has kept; without a task, somebody else has decided, the row was not waiting, or it belongs
        to another tenant. */
    method DecideApproval(tenant: string, approved: bool) returns (claimed: Option<TaskRow>)
      requires Valid()
      modifies this
      ensures Valid() && |old(calls)| < |calls|
      ensures claimed.Some? <==> calls[|old(calls)|].Claimed?
      ensures claimed.Some? ==> tenant == first.task.tenant && claimed.value == calls[|old(calls)|].wrote.task
      ensures Moving() && claimed.Some? ==>
                && InProcess.Undecided(first.task)
                && claimed.value == record.task == first.task.(decision := Some(approved))
      ensures Moving() && claimed.None? ==> record.task.tenant != tenant || !InProcess.Undecided(record.task)
    {
      claimed := Claim(tenant, approved, None);
    }

    /** The janitor's claim: a rejection, and only of a row older than the cutoff. */
    method ExpireApproval(tenant: string, cutoff: real) returns (claimed: Option<TaskRow>)
      requires Valid()
      modifies this
      ensures Valid() && |old(calls)| < |calls|
      ensures claimed.Some? <==> calls[|old(calls)|].Claimed?
      ensures claimed.Some? ==> tenant == first.task.tenant && claimed.value == calls[|old(calls)|].wrote.task
      ensures Moving() && claimed.Some? ==>
                && first.updatedAt < cutoff
                && InProcess.Undecided(first.task)
                && claimed.value == record.task == first.task.(decision := Some(false))
      ensures Moving() && claimed.None? ==>
                record.task.tenant != tenant || !InProcess.Undecided(record.task) || record.updatedAt >= cutoff
    {
      claimed := Claim(tenant, false, Some(cutoff));
    }

    method Claim(tenant: string, approved: bool, cutoff: Option<real>) returns (claimed: Option<TaskRow>)
      requires Valid()
      modifies this
      ensures Valid() && |old(calls)| < |calls|
      ensures claimed.Some? <==> calls[|old(calls)|].Claimed?
      ensures claimed.Some? ==> tenant == first.task.tenant && claimed.value == calls[|old(calls)|].wrote.task
      ensures Moving() && claimed.Some? ==>
                && (cutoff.Some? ==> first.updatedAt < cutoff.value)
                && InProcess.Undecided(first.task)
                && claimed.value == record.task == first.task.(decision := Some(approved))
      ensures Moving() && claimed.None? ==>
                || record.task.tenant != tenant || !InProcess.Undecided(record.task)
                || (cutoff.Some? && record.updatedAt >= cutoff.value)
    {
      var call := Select(tenant, approved, cutoff);
      if calls[call].Refused? {
        return None;
      }
      Interleave(call);
      var now: real := *;
      var rows := UpdateWhere(call, now);
      RunsHaveOneTenant(first, labels, World(record, calls));
      if Moving() {
        WriteSettles(first, labels, World(record, calls), call);
      }
      return if rows == 1 then Some(record.task) else None;
    }
  }

  lemma ExecSnoc(w: World, ls: seq<Label>, l: Label)
    requires Exec(w, ls).Some?
    ensures Exec(w, ls + [l]) == Apply(Exec(w, ls).value, l)
  {
    assert (ls + [l])[..|ls|] == ls;
  }

  /** A call that has written either left its decision in the row or found the row decided. */
  lemma WriteSettles(first: Record, ls: seq<Label>, w: World, call: nat)
    requires Exec(Opened(first), ls) == Some(w) && Ticking(Opened(first), ls) && call < |w.calls|
    ensures var k := w.calls[call];
            && (k.Claimed? ==>
                  && w.row == k.wrote && InProcess.Undecided(first.task)
                  && w.row.task == first.task.(decision := Some(k.approved))
                  && (k.cutoff.Some? ==> first.updatedAt < k.cutoff.value))
            && (k.Beaten? ==> !InProcess.Undecided(w.row.task))
  {
    SingleWinner(first, ls, w, call, call);
    if Won(w) {
      var i :| 0 <= i < |w.calls| && w.calls[i].Claimed?;
      SingleWinner(first, ls, w, i, i);
    }
  }
}
