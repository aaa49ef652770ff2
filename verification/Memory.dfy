/** Episodic memory: one table for all tenants that keeps the newest hundred rows of each.
    What a tenant recalls is what it would recall from a log that is never pruned. */
module Memory {

  datatype Row = Row(id: string, tenant: string, ts: real, goal: string, outcome: string, summary: string)

  /** What `recall_memory` hands out of a row. */
  datatype Episode = Episode(ts: real, goal: string, outcome: string, summary: string)

  const KEPT: nat := 100

  function Of(rows: seq<Row>, tenant: string): (r: seq<Row>)
    ensures forall x :: x in r ==> x in rows && x.tenant == tenant
    decreases |rows|
  {
    if rows == [] then []
    else
      var last := rows[|rows| - 1];
      Of(rows[..|rows| - 1], tenant) + if last.tenant == tenant then [last] else []
  }

  function Without(rows: seq<Row>, ids: set<string>): seq<Row>
    decreases |rows|
  {
    if rows == [] then []
    else
      var last := rows[|rows| - 1];
      Without(rows[..|rows| - 1], ids) + if last.id in ids then [] else [last]
  }

  function Episodes(rows: seq<Row>): seq<Episode> {
    seq(|rows|, i requires 0 <= i < |rows| => Episode(rows[i].ts, rows[i].goal, rows[i].outcome, rows[i].summary))
  }

  /** The episode is what a caller may see of the row. */
  predicate IsOf(e: Episode, x: Row) {
    e.ts == x.ts && e.goal == x.goal && e.outcome == x.outcome && e.summary == x.summary
  }

  lemma EpisodesAreRows(rows: seq<Row>)
    ensures |Episodes(rows)| == |rows| && forall i :: 0 <= i < |rows| ==> IsOf(Episodes(rows)[i], rows[i])
  {
  }

  function Min(a: nat, b: nat): nat {
    if a <= b then a else b
  }

  function Last<T>(s: seq<T>, n: nat): seq<T> {
    s[|s| - Min(n, |s|)..]
  }

  function Reversed(rows: seq<Row>): seq<Row>
    decreases |rows|
  {
    if rows == [] then [] else [rows[|rows| - 1]] + Reversed(rows[..|rows| - 1])
  }

  // -------------------------------------------------------------- the query

  function Insert(x: Row, newest: seq<Row>): seq<Row> {
    if newest == [] || x.ts >= newest[0].ts then [x] + newest else [newest[0]] + Insert(x, newest[1..])
  }

  /** The rows in the order of a query by descending timestamp. */
  function Newest(rows: seq<Row>): seq<Row>
    decreases |rows|
  {
    if rows == [] then [] else Insert(rows[|rows| - 1], Newest(rows[..|rows| - 1]))
  }

  ghost predicate Descending(rows: seq<Row>) {
    forall i, j :: 0 <= i < j < |rows| ==> rows[i].ts >= rows[j].ts
  }

  lemma {:induction false} InsertAdds(x: Row, newest: seq<Row>)
    ensures multiset(Insert(x, newest)) == multiset(newest) + multiset{x}
  {
    if newest != [] && x.ts < newest[0].ts {
      InsertAdds(x, newest[1..]);
      assert newest == [newest[0]] + newest[1..];
    }
  }

  lemma {:induction false} InsertIsOrdered(x: Row, newest: seq<Row>)
    requires Descending(newest)
    ensures Descending(Insert(x, newest))
  {
    if newest != [] && x.ts < newest[0].ts {
      var rest := Insert(x, newest[1..]);
      InsertIsOrdered(x, newest[1..]);
      InsertAdds(x, newest[1..]);
      forall j | 0 <= j < |rest| ensures newest[0].ts >= rest[j].ts {
        assert rest[j] in multiset(rest);
        assert rest[j] == x || rest[j] in newest[1..];
      }
    }
  }

  lemma {:induction false} NewestIsOrdered(rows: seq<Row>)
    ensures Descending(Newest(rows)) && multiset(Newest(rows)) == multiset(rows)
    decreases |rows|
  {
    if rows != [] {
      var front := rows[..|rows| - 1];
      NewestIsOrdered(front);
      InsertIsOrdered(rows[|rows| - 1], Newest(front));
      InsertAdds(rows[|rows| - 1], Newest(front));
      assert rows == front + [rows[|rows| - 1]];
    }
  }

  ghost predicate Increasing(rows: seq<Row>) {
    forall i, j :: 0 <= i < j < |rows| ==> rows[i].ts < rows[j].ts
  }

  lemma {:induction false} ReversedAt(rows: seq<Row>)
    ensures |Reversed(rows)| == |rows|
    ensures forall i :: 0 <= i < |rows| ==> Reversed(rows)[i] == rows[|rows| - 1 - i]
    decreases |rows|
  {
    if rows != [] {
      ReversedAt(rows[..|rows| - 1]);
    }
  }

  /** With increasing timestamps the query reverses the order of insertion. */
  lemma {:induction false} NewestReverses(rows: seq<Row>)
    requires Increasing(rows)
    ensures Newest(rows) == Reversed(rows)
    decreases |rows|
  {
    if rows != [] {
      NewestReverses(rows[..|rows| - 1]);
      ReversedAt(rows[..|rows| - 1]);
    }
  }

  lemma NewestLength(rows: seq<Row>)
    ensures |Newest(rows)| == |rows|
  {
    NewestIsOrdered(rows);
    assert |multiset(Newest(rows))| == |multiset(rows)|;
  }

  // ---------------------------------------------------------------- pruning

  ghost predicate DistinctIds(rows: seq<Row>) {
    forall i, j :: 0 <= i < j < |rows| ==> rows[i].id != rows[j].id
  }

  function Ids(rows: seq<Row>): set<string> {
    set r | r in rows :: r.id
  }

  /** The identifiers of the rows of a tenant beyond its newest hundred. */
  function Stale(rows: seq<Row>, tenant: string): set<string> {
    BeyondKept(Newest(Of(rows, tenant)))
  }

  function BeyondKept(newest: seq<Row>): set<string> {
    if |newest| > KEPT then Ids(newest[KEPT..]) else {}
  }

  /** The table after `store_memory`. */
  function Stored(rows: seq<Row>, x: Row): seq<Row> {
    Without(rows + [x], Stale(rows + [x], x.tenant))
  }

  lemma {:induction false} OfWithout(rows: seq<Row>, ids: set<string>, tenant: string)
    ensures Of(Without(rows, ids), tenant) == Without(Of(rows, tenant), ids)
    decreases |rows|
  {
    if rows != [] {
      var front, last := rows[..|rows| - 1], rows[|rows| - 1];
      OfWithout(front, ids, tenant);
      OfSnoc(Without(front, ids), last, tenant);
      WithoutSnoc(Of(front, tenant), last, ids);
      assert Without(front, ids) + [] == Without(front, ids) && Of(front, tenant) + [] == Of(front, tenant);
    }
  }

  lemma OfSnoc(rows: seq<Row>, x: Row, tenant: string)
    ensures Of(rows + [x], tenant) == Of(rows, tenant) + if x.tenant == tenant then [x] else []
  {
    assert (rows + [x])[..|rows|] == rows;
  }

  lemma WithoutSnoc(rows: seq<Row>, x: Row, ids: set<string>)
    ensures Without(rows + [x], ids) == Without(rows, ids) + if x.id in ids then [] else [x]
  {
    assert (rows + [x])[..|rows|] == rows;
  }

  lemma {:induction false} WithoutNone(rows: seq<Row>, ids: set<string>)
    requires forall x :: x in rows ==> x.id !in ids
    ensures Without(rows, ids) == rows
    decreases |rows|
  {
    if rows != [] {
      WithoutNone(rows[..|rows| - 1], ids);
      assert rows[|rows| - 1] in rows;
    }
  }

  /** Dropping the identifiers of a prefix drops the prefix. */
  lemma {:induction false} WithoutPrefix(rows: seq<Row>, n: nat)
    requires DistinctIds(rows) && n <= |rows|
    ensures Without(rows, Ids(rows[..n])) == rows[n..]
    decreases |rows|
  {
    if n < |rows| {
      var front := rows[..|rows| - 1];
      WithoutPrefix(front, n);
      assert front[..n] == rows[..n];
      assert rows[n..] == front[n..] + [rows[|rows| - 1]];
    } else {
      assert rows[..n] == rows && rows[n..] == [];
      AllGone(rows, Ids(rows));
    }
  }

  lemma {:induction false} AllGone(rows: seq<Row>, ids: set<string>)
    requires forall x :: x in rows ==> x.id in ids
    ensures Without(rows, ids) == []
    decreases |rows|
  {
    if rows != [] {
      AllGone(rows[..|rows| - 1], ids);
    }
  }

  lemma {:induction false} OfIsDistinct(rows: seq<Row>, tenant: string)
    requires DistinctIds(rows)
    ensures DistinctIds(Of(rows, tenant))
    decreases |rows|
  {
    if rows != [] {
      var front := rows[..|rows| - 1];
      OfIsDistinct(front, tenant);
      assert forall x :: x in Of(front, tenant) ==> x in front;
    }
  }

  lemma {:induction false} WithoutIsDistinct(rows: seq<Row>, ids: set<string>)
    requires DistinctIds(rows)
    ensures DistinctIds(Without(rows, ids)) && forall x :: x in Without(rows, ids) ==> x in rows
    decreases |rows|
  {
    if rows != [] {
      var front, last := rows[..|rows| - 1], rows[|rows| - 1];
      WithoutIsDistinct(front, ids);
      forall y | y in Without(front, ids) ensures y.id != last.id {
        assert y in front;
      }
    }
  }

  lemma StaleIsOwn(rows: seq<Row>, x: Row, tenant: string)
    requires DistinctIds(rows) && x in rows && x.tenant != tenant
    ensures x.id !in Stale(rows, tenant)
  {
    var newest := Newest(Of(rows, tenant));
    NewestIsOrdered(Of(rows, tenant));
    forall y | y in newest ensures y.id != x.id {
      assert y in multiset(newest);
      assert y in Of(rows, tenant);
    }
  }

  /** Storing for one tenant leaves every other tenant's rows alone. */
  lemma OthersUntouched(rows: seq<Row>, x: Row, tenant: string)
    requires DistinctIds(rows + [x]) && tenant != x.tenant
    ensures Of(Stored(rows, x), tenant) == Of(rows, tenant)
  {
    var all := rows + [x];
    var ids := Stale(all, x.tenant);
    OfWithout(all, ids, tenant);
    OfSnoc(rows, x, tenant);
    forall y | y in Of(all, tenant) ensures y.id !in ids {
      StaleIsOwn(all, y, x.tenant);
    }
    WithoutNone(Of(all, tenant), ids);
  }

  /** With increasing timestamps the stale rows are the oldest ones. */
  lemma StaleIsOldest(own: seq<Row>)
    requires Increasing(own) && |own| > KEPT
    ensures |Newest(own)| == |own| && Ids(Newest(own)[KEPT..]) == Ids(own[..|own| - KEPT])
  {
    NewestReverses(own);
    ReversedAt(own);
    hide Newest, Reversed, Increasing, Ids;
    SameIds(Newest(own)[KEPT..], own[..|own| - KEPT]);
  }

  lemma PrunesOldest(own: seq<Row>)
    requires DistinctIds(own) && Increasing(own)
    ensures Without(own, BeyondKept(Newest(own))) == Last(own, KEPT)
  {
    NewestLength(own);
    if |own| > KEPT {
      StaleIsOldest(own);
      WithoutPrefix(own, |own| - KEPT);
    } else {
      WithoutNone(own, {});
    }
  }

  /** With increasing timestamps, storing appends and keeps the newest hundred. */
  lemma OwnRowsAppended(rows: seq<Row>, x: Row)
    requires DistinctIds(rows + [x]) && Increasing(Of(rows, x.tenant) + [x])
    ensures Of(Stored(rows, x), x.tenant) == Last(Of(rows, x.tenant) + [x], KEPT)
  {
    hide Of, Without, Increasing, DistinctIds, BeyondKept, Last;
    OfSnoc(rows, x, x.tenant);
    OfIsDistinct(rows + [x], x.tenant);
    OfWithout(rows + [x], Stale(rows + [x], x.tenant), x.tenant);
    PrunesOldest(Of(rows, x.tenant) + [x]);
  }

  lemma SameIds(a: seq<Row>, b: seq<Row>)
    requires |a| == |b| && forall i :: 0 <= i < |a| ==> a[i] == b[|b| - 1 - i]
    ensures Ids(a) == Ids(b)
  {
    forall x | x in b ensures x in a {
      var i :| 0 <= i < |b| && b[i] == x;
      assert a[|b| - 1 - i] == x;
    }
  }

  /** What the query leaves, counted: pruning by identifier commutes with ordering. */
  lemma {:induction false} InsertWithout(x: Row, newest: seq<Row>, ids: set<string>)
    ensures |Without(Insert(x, newest), ids)| == |Without(newest, ids)| + if x.id in ids then 0 else 1
    decreases |newest|
  {
    WithoutCons(x, newest, ids);
    if newest != [] && x.ts < newest[0].ts {
      InsertWithout(x, newest[1..], ids);
      WithoutCons(newest[0], Insert(x, newest[1..]), ids);
      WithoutCons(newest[0], newest[1..], ids);
      assert newest == [newest[0]] + newest[1..];
    }
  }

  lemma {:induction false} WithoutCons(x: Row, rows: seq<Row>, ids: set<string>)
    ensures Without([x] + rows, ids) == (if x.id in ids then [] else [x]) + Without(rows, ids)
    decreases |rows|
  {
    if rows == [] {
      assert [x] + rows == [] + [x];
      WithoutSnoc([], x, ids);
    } else {
      var front, last := rows[..|rows| - 1], rows[|rows| - 1];
      WithoutCons(x, front, ids);
      assert [x] + rows == ([x] + front) + [last];
      WithoutSnoc([x] + front, last, ids);
    }
  }

  lemma {:induction false} NewestWithout(rows: seq<Row>, ids: set<string>)
    ensures |Without(Newest(rows), ids)| == |Without(rows, ids)|
    decreases |rows|
  {
    if rows != [] {
      var front, last := rows[..|rows| - 1], rows[|rows| - 1];
      NewestWithout(front, ids);
      InsertWithout(last, Newest(front), ids);
    }
  }

  lemma {:induction false} WithoutSplit(a: seq<Row>, b: seq<Row>, ids: set<string>)
    ensures Without(a + b, ids) == Without(a, ids) + Without(b, ids)
    decreases |b|
  {
    if b == [] {
      assert a + b == a;
    } else {
      var front, last := b[..|b| - 1], b[|b| - 1];
      WithoutSplit(a, front, ids);
      assert a + b == (a + front) + [last];
      WithoutSnoc(a + front, last, ids);
    }
  }

  lemma {:induction false} WithoutShrinks(rows: seq<Row>, ids: set<string>)
    ensures |Without(rows, ids)| <= |rows|
    decreases |rows|
  {
    if rows != [] {
      WithoutShrinks(rows[..|rows| - 1], ids);
    }
  }

  /** Whatever the timestamps, a tenant never keeps more than a hundred rows. */
  lemma OwnRowsBounded(rows: seq<Row>, x: Row)
    ensures |Of(Stored(rows, x), x.tenant)| <= KEPT
  {
    var all := rows + [x];
    var ids, newest := Stale(all, x.tenant), Newest(Of(all, x.tenant));
    OfWithout(all, ids, x.tenant);
    NewestWithout(Of(all, x.tenant), ids);
    if |newest| > KEPT {
      assert newest == newest[..KEPT] + newest[KEPT..];
      WithoutSplit(newest[..KEPT], newest[KEPT..], ids);
      AllGone(newest[KEPT..], ids);
      WithoutShrinks(newest[..KEPT], ids);
    } else {
      WithoutShrinks(newest, ids);
    }
  }

  // -------------------------------------------------------------- the store

  /** The table against everything ever stored. */
  ghost predicate Sound(rows: seq<Row>, log: seq<Row>) {
    && DistinctIds(rows)
    && (forall t :: |Of(rows, t)| <= KEPT)
    && (forall t :: Increasing(Of(log, t)) ==> Of(rows, t) == Last(Of(log, t), KEPT))
  }

  lemma LastIncreasing(rows: seq<Row>, x: Row, n: nat)
    requires Increasing(rows + [x])
    ensures Increasing(rows) && Increasing(Last(rows, n) + [x])
  {
    var all := rows + [x];
    assert forall i :: 0 <= i < |rows| ==> rows[i] == all[i];
    assert all[|rows|] == x;
  }

  lemma LastAppended(rows: seq<Row>, x: Row, n: nat)
    ensures Last(Last(rows, n) + [x], n) == Last(rows + [x], n)
  {
  }

  lemma StoredIsSound(rows: seq<Row>, log: seq<Row>, x: Row)
    requires Sound(rows, log) && DistinctIds(rows + [x])
    ensures Sound(Stored(rows, x), log + [x])
  {
    hide Increasing, Last, Stored;
    WithoutStored(rows, x);
    forall t ensures |Of(Stored(rows, x), t)| <= KEPT {
      if t == x.tenant {
        OwnRowsBounded(rows, x);
      } else {
        OthersUntouched(rows, x, t);
      }
    }
    forall t | Increasing(Of(log + [x], t)) ensures Of(Stored(rows, x), t) == Last(Of(log + [x], t), KEPT) {
      OfSnoc(log, x, t);
      if t == x.tenant {
        LastIncreasing(Of(log, t), x, KEPT);
        OwnRowsAppended(rows, x);
        LastAppended(Of(log, t), x, KEPT);
      } else {
        assert Of(log, t) + [] == Of(log, t);
        OthersUntouched(rows, x, t);
      }
    }
  }

  lemma WithoutStored(rows: seq<Row>, x: Row)
    requires DistinctIds(rows + [x])
    ensures DistinctIds(Stored(rows, x))
  {
    WithoutIsDistinct(rows + [x], Stale(rows + [x], x.tenant));
  }

  class EpisodicStore {
    var rows: seq<Row>
    ghost var log: seq<Row>

    ghost predicate Valid()
      reads this
    {
      Sound(rows, log)
    }

    constructor ()
      ensures Valid() && log == []
    {
      rows, log := [], [];
    }

    /** Adds a row and prunes its tenant; a clash of identifiers rolls the transaction back. */
    method StoreMemory(x: Row) returns (ok: bool)
      requires Valid()
      modifies this
      ensures Valid()
      ensures ok <==> x.id !in Ids(old(rows))
      ensures rows == if ok then Stored(old(rows), x) else old(rows)
      ensures log == if ok then old(log) + [x] else old(log)
      ensures forall t :: t != x.tenant ==> Of(rows, t) == Of(old(rows), t)
    {
      if x.id in Ids(rows) {
        return false;
      }
      hide Sound, Stale, Of, Without, Ids;
      StoringKeeps(rows, log, x);
      rows, log := rows + [x], log + [x];
      var stale := Stale(rows, x.tenant);
      if stale == {} {
        WithoutNone(rows, stale);
      } else {
        rows := Without(rows, stale);
      }
      return true;
    }

    /** The newest rows of a tenant in chronological order. */
    method RecallMemory(tenant: string, limit: nat) returns (r: seq<Episode>)
      requires Valid()
      ensures |r| == Min(limit, |Of(rows, tenant)|)
      ensures Increasing(Of(log, tenant)) ==> r == Episodes(Last(Of(log, tenant), Min(limit, KEPT)))
      ensures forall i :: 0 <= i < |r| ==> exists x :: x in rows && x.tenant == tenant && IsOf(r[i], x)
    {
      assert Increasing(Of(log, tenant)) ==> Of(rows, tenant) == Last(Of(log, tenant), KEPT);
      hide Sound, Of, Newest, Reversed, Increasing, Last, IsOf;
      var newest := Newest(Of(rows, tenant));
      NewestLength(Of(rows, tenant));
      var chosen := Reversed(newest[..Min(limit, |newest|)]);
      ReversedAt(newest[..Min(limit, |newest|)]);
      r := Episodes(chosen);
      RecalledAreOwn(rows, tenant, limit);
      if Increasing(Of(log, tenant)) {
        RecallsTail(Of(rows, tenant), Of(log, tenant), limit);
      }
    }
  }

  lemma StoringKeeps(rows: seq<Row>, log: seq<Row>, x: Row)
    requires Sound(rows, log) && x.id !in Ids(rows)
    ensures Sound(Stored(rows, x), log + [x])
    ensures forall t :: t != x.tenant ==> Of(Stored(rows, x), t) == Of(rows, t)
  {
    FreshIsDistinct(rows, log, x);
    StoredIsSound(rows, log, x);
    hide Sound, Of, Stored;
    forall t | t != x.tenant ensures Of(Stored(rows, x), t) == Of(rows, t) {
      OthersUntouched(rows, x, t);
    }
  }

  lemma FreshIsDistinct(rows: seq<Row>, log: seq<Row>, x: Row)
    requires Sound(rows, log) && x.id !in Ids(rows)
    ensures DistinctIds(rows + [x])
  {
    var all := rows + [x];
    forall i, j | 0 <= i < j < |all| ensures all[i].id != all[j].id {
      assert all[i] in rows;
    }
  }

  lemma ReversedTail(rows: seq<Row>, m: nat)
    requires m <= |rows|
    ensures |Reversed(rows)| == |rows| && Reversed(Reversed(rows)[..m]) == rows[|rows| - m..]
  {
    ReversedAt(rows);
    var head := Reversed(rows)[..m];
    ReversedAt(head);
    hide Reversed;
    forall i | 0 <= i < m ensures Reversed(head)[i] == rows[|rows| - m..][i] {
      assert Reversed(head)[i] == head[m - 1 - i] == Reversed(rows)[m - 1 - i] == rows[|rows| - m + i];
    }
  }

  lemma LastOfLast(rows: seq<Row>, n: nat, m: nat)
    ensures Last(Last(rows, n), m) == Last(rows, Min(m, n))
  {
  }

  /** The newest `limit` rows of the kept tail, put back in order, are a tail of the whole log. */
  lemma RecallsTail(kept: seq<Row>, all: seq<Row>, limit: nat)
    requires Increasing(all) && kept == Last(all, KEPT)
    ensures var newest := Newest(kept);
            |newest| == |kept| && Reversed(newest[..Min(limit, |newest|)]) == Last(all, Min(limit, KEPT))
  {
    NewestReverses(kept);
    hide Increasing, Newest, Reversed;
    ReversedTail(kept, Min(limit, |kept|));
    LastOfLast(all, KEPT, limit);
  }

  lemma {:induction false} ReversedMembers(rows: seq<Row>)
    ensures forall x :: x in Reversed(rows) ==> x in rows
    decreases |rows|
  {
    if rows != [] {
      ReversedMembers(rows[..|rows| - 1]);
    }
  }

  lemma NewestMembers(rows: seq<Row>)
    ensures forall x :: x in Newest(rows) ==> x in rows
  {
    NewestIsOrdered(rows);
    forall x | x in Newest(rows) ensures x in rows {
      assert x in multiset(Newest(rows));
    }
  }

  /** Every recalled episode is one of the tenant's rows. */
  lemma RecalledAreOwn(rows: seq<Row>, tenant: string, limit: nat)
    ensures var newest := Newest(Of(rows, tenant));
            var r := Episodes(Reversed(newest[..Min(limit, |newest|)]));
            forall i :: 0 <= i < |r| ==> exists x :: x in rows && x.tenant == tenant && IsOf(r[i], x)
  {
    var newest := Newest(Of(rows, tenant));
    var chosen := Reversed(newest[..Min(limit, |newest|)]);
    ReversedMembers(newest[..Min(limit, |newest|)]);
    NewestMembers(Of(rows, tenant));
    EpisodesAreRows(chosen);
    hide Newest, Reversed;
    forall i | 0 <= i < |Episodes(chosen)|
      ensures exists x :: x in rows && x.tenant == tenant && IsOf(Episodes(chosen)[i], x)
    {
      assert chosen[i] in chosen;
      assert chosen[i] in newest[..Min(limit, |newest|)];
      assert chosen[i] in newest && IsOf(Episodes(chosen)[i], chosen[i]);
    }
  }
}
