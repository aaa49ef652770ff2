/** Live updates of one task: the event bus with its bounded queues, and the stream that merges the
    subscriber's queue with replays from the stored log. */
module Sse {
  import opened Models

  datatype Item = Item(id: string, task: string, ts: real, kind: string)

  const STREAM_END := "stream.end"
  const QUEUE_SIZE: nat := 1000
  const REPLAY_LIMIT: nat := 100

  // --------------------------------------------------------------- event bus

  class Queue {
    var items: seq<Item>

    constructor ()
      ensures items == []
    {
      items := [];
    }
  }

  ghost predicate DistinctQueues(qs: seq<Queue>) {
    forall i, j :: 0 <= i < j < |qs| ==> qs[i] != qs[j]
  }

  /** A queue after an event was put without waiting: a full queue loses it. */
  function Put(items: seq<Item>, e: Item): seq<Item> {
    if |items| < QUEUE_SIZE then items + [e] else items
  }

  class EventBus {
    var subscribers: map<string, seq<Queue>>

    ghost predicate Valid()
      reads this
    {
      && (forall t :: t in subscribers ==> subscribers[t] != [] && DistinctQueues(subscribers[t]))
      && (forall t, u, q ::
            t in subscribers && u in subscribers && q in subscribers[t] && q in subscribers[u] ==> t == u)
    }

    function Queues(task: string): seq<Queue>
      reads this
    {
      if task in subscribers then subscribers[task] else []
    }

    constructor ()
      ensures Valid() && subscribers == map[]
    {
      subscribers := map[];
    }

    /** Puts the event into every queue of its task; a full queue is passed over. */
    method Publish(e: Item)
      requires Valid()
      modifies Queues(e.task)
      ensures forall q :: q in Queues(e.task) ==> q.items == Put(old(q.items), e)
    {
      var qs := Queues(e.task);
      for n := 0 to |qs|
        invariant forall m :: 0 <= m < |qs| ==>
          qs[m].items == if m < n then Put(old(qs[m].items), e) else old(qs[m].items)
      {
        assert qs == [] || DistinctQueues(qs);
        if |qs[n].items| < QUEUE_SIZE {
          qs[n].items := qs[n].items + [e];
        }
      }
    }

    method Subscribe(task: string) returns (queue: Queue)
      requires Valid()
      requires forall t, q :: t in subscribers && q in subscribers[t] ==> allocated(q)
      modifies this
      ensures Valid() && fresh(queue) && queue.items == []
      ensures subscribers == old(subscribers)[task := old(Queues(task)) + [queue]]
    {
      queue := new Queue();
      subscribers := subscribers[task := Queues(task) + [queue]];
    }

    /** Removes the queue; a task without queues loses its entry. */
    method Unsubscribe(task: string, queue: Queue)
      requires Valid()
      modifies this
      ensures Valid()
      ensures queue !in Queues(task)
      ensures forall q :: q != queue ==> (q in Queues(task) <==> q in old(Queues(task)))
      ensures forall t :: t != task ==> Queues(t) == old(Queues(t))
    {
      var qs := Queues(task);
      if queue in qs {
        var n: nat :| n < |qs| && qs[n] == queue;
        var left := qs[..n] + qs[n + 1..];
        assert forall q :: q != queue && q in qs ==> q in left by {
          forall q | q != queue && q in qs ensures q in left {
            var m :| 0 <= m < |qs| && qs[m] == q;
            assert left[if m < n then m else m - 1] == q;
          }
        }
        subscribers := if left == [] then subscribers - {task} else subscribers[task := left];
      }
    }
  }

  // -------------------------------------------------------------- the stream

  /** Everything the merge depends on. `log` holds the stored events in order; the first `published` of them
      have been published, those from `since` on to this subscriber, who has taken the ones before `got`.
      Output n is the stored event number `at[n]`. When the stream cursor, `start` events were published and
      its replay cursor stood at `cursor`. */
  datatype State = State(
    log: seq<Item>, published: nat,
    since: nat, start: nat, cursor: real,
    queue: seq<Item>, got: nat,
    out: seq<Item>, at: seq<nat>, seen: set<string>, lastTs: real)

  ghost predicate Ascending(log: seq<Item>) {
    forall i, j :: 0 <= i < j < |log| ==> log[i].ts < log[j].ts
  }

  ghost predicate DistinctIds(log: seq<Item>) {
    forall i, j :: 0 <= i < j < |log| ==> log[i].id != log[j].id
  }

  /** One more than the last stored event that was delivered. */
  function Reach(at: seq<nat>): nat {
    if at == [] then 0 else at[|at| - 1] + 1
  }

  function Max(a: nat, b: nat): nat {
    if a <= b then b else a
  }

  /** The stored log and the subscriber's queue. */
  ghost predicate Feed(s: State) {
    && s.since <= s.got <= s.published <= |s.log|
    && s.since <= s.start <= s.published
    && Ascending(s.log) && DistinctIds(s.log)
    && (forall j :: s.start <= j < |s.log| ==> s.cursor < s.log[j].ts)
    && s.queue == s.log[s.got..s.published]
  }

  /** What was delivered is stored, in stored order. */
  ghost predicate InOrder(s: State) {
    && |s.at| == |s.out|
    && (forall n :: 0 <= n < |s.at| ==> s.at[n] < |s.log| && s.out[n] == s.log[s.at[n]])
    && (forall m, n :: 0 <= m < n < |s.at| ==> s.at[m] < s.at[n])
  }

  /** Every event since the subscription that was taken from the queue or lies before the last delivery
      was delivered. */
  ghost predicate Complete(s: State) {
    forall j :: s.since <= j < Max(s.got, Reach(s.at)) ==> j in s.at
  }

  /** The replay cursor is past all deliveries and before everything else that is new. */
  ghost predicate CursorFits(s: State) {
    && (forall n :: 0 <= n < |s.out| ==> s.out[n].ts <= s.lastTs)
    && (forall j :: Max(Max(s.got, Reach(s.at)), s.start) <= j < |s.log| ==> s.lastTs < s.log[j].ts)
  }

  /** The cursor is where it was at the opening, or at a stored event. */
  ghost predicate CursorKnown(s: State) {
    s.lastTs == s.cursor || exists j :: 0 <= j < |s.log| && s.log[j].ts == s.lastTs
  }

  ghost predicate Remembers(seen: set<string>, out: seq<Item>) {
    && (forall n :: 0 <= n < |out| ==> out[n].id in seen)
    && (forall i :: i in seen ==> exists n :: 0 <= n < |out| && out[n].id == i)
  }

  ghost predicate Tracks(s: State) {
    Feed(s) && InOrder(s) && Complete(s) && CursorFits(s) && CursorKnown(s) && Remembers(s.seen, s.out)
  }

  function Delivered(s: State, n: nat): State
    requires n < |s.log|
  {
    s.(out := s.out + [s.log[n]], at := s.at + [n], seen := s.seen + {s.log[n].id})
  }

  lemma RemembersMore(seen: set<string>, out: seq<Item>, e: Item)
    requires Remembers(seen, out)
    ensures Remembers(seen + {e.id}, out + [e])
  {
    var all := out + [e];
    forall i | i in seen + {e.id} ensures exists n :: 0 <= n < |all| && all[n].id == i {
      if i in seen {
        var n :| 0 <= n < |out| && out[n].id == i;
        assert all[n].id == i;
      } else {
        assert all[|out|].id == i;
      }
    }
  }

  lemma DistinctMore(seen: set<string>, out: seq<Item>, e: Item)
    requires Remembers(seen, out) && DistinctIds(out) && e.id !in seen
    ensures DistinctIds(out + [e])
  {
  }

  /** Saving an event, or publishing the next saved one to a queue with room, keeps the stream on track. */
  lemma SavedTracks(s: State, e: Item)
    requires Tracks(s)
    requires forall j :: 0 <= j < |s.log| ==> s.log[j].ts < e.ts && s.log[j].id != e.id
    requires s.cursor < e.ts
    ensures Tracks(s.(log := s.log + [e]))
  {
    var v := s.(log := s.log + [e]);
    assert forall j :: 0 <= j < |s.log| ==> v.log[j] == s.log[j];
    assert s.lastTs < e.ts;
    assert CursorFits(v) && CursorKnown(v) && InOrder(v);
    hide CursorFits, CursorKnown, InOrder;
  }

  lemma PublishedTracks(s: State)
    requires Tracks(s) && s.published < |s.log|
    ensures Tracks(s.(published := s.published + 1, queue := s.queue + [s.log[s.published]]))
  {
  }

  /** Whether an event was seen can be told by its place in the log. */
  lemma SeenByPlace(s: State, n: nat)
    requires Tracks(s) && n < |s.log|
    ensures s.log[n].id in s.seen <==> n in s.at
  {
    if s.log[n].id in s.seen {
      var m :| 0 <= m < |s.out| && s.out[m].id == s.log[n].id;
      assert s.at[m] == n;
    }
    if n in s.at {
      var m :| 0 <= m < |s.at| && s.at[m] == n;
      assert s.out[m].id in s.seen;
    }
  }

  /** Before anything is taken or delivered, the stream may open with any cursor that precedes all events
      not yet published. */
  lemma OpenedTracks(s: State, ts: real)
    requires Tracks(s) && s.out == [] && s.since == s.got
    requires forall j :: s.published <= j < |s.log| ==> ts < s.log[j].ts
    ensures Tracks(s.(start := s.published, cursor := ts, lastTs := ts))
  {
  }

  function Later(a: real, b: real): real {
    if a <= b then b else a
  }

  /** Taking one event from the queue. */
  function Taken(s: State): State
    requires |s.queue| > 0 && s.got < |s.log|
  {
    var u := s.(queue := s.queue[1..], got := s.got + 1, lastTs := Later(s.lastTs, s.queue[0].ts));
    if s.queue[0].id in s.seen then u else Delivered(u, s.got)
  }

  /** Delivering an event beyond all deliveries keeps the outputs in stored order. */
  lemma DeliveredInOrder(s: State, n: nat)
    requires InOrder(s) && Reach(s.at) <= n < |s.log|
    ensures InOrder(Delivered(s, n)) && Reach(Delivered(s, n).at) == n + 1
  {
    if s.at != [] {
      assert forall m :: 0 <= m < |s.at| ==> s.at[m] <= s.at[|s.at| - 1];
    }
  }

  lemma TakenFeed(s: State)
    requires Feed(s) && |s.queue| > 0
    ensures s.got < |s.log| && s.queue[0] == s.log[s.got]
    ensures Feed(s.(queue := s.queue[1..], got := s.got + 1))
    ensures forall j :: s.got < j < |s.log| ==> s.queue[0].ts < s.log[j].ts
  {
  }

  /** An event that a replay delivered before is skipped. */
  lemma SkippedTracks(s: State)
    requires Tracks(s) && |s.queue| > 0 && s.got < |s.log| && s.got in s.at
    ensures Tracks(s.(queue := s.queue[1..], got := s.got + 1, lastTs := Later(s.lastTs, s.queue[0].ts)))
  {
    TakenFeed(s);
    var m :| 0 <= m < |s.at| && s.at[m] == s.got;
    assert s.got < Reach(s.at);
    assert s.out[m] == s.queue[0];
    hide Feed;
  }

  /** Delivering n, with everything since the subscription before it delivered. */
  lemma DeliveredTracks(s: State, n: nat)
    requires Feed(s) && InOrder(s) && Remembers(s.seen, s.out)
    requires Reach(s.at) <= n < |s.log|
    requires forall j :: s.since <= j < Max(n, s.got) && j != n ==> j in s.at
    requires CursorKnown(s)
    requires s.lastTs >= s.log[n].ts && forall m :: 0 <= m < |s.out| ==> s.out[m].ts <= s.lastTs
    requires forall j :: Max(Max(s.got, n + 1), s.start) <= j < |s.log| ==> s.lastTs < s.log[j].ts
    ensures Tracks(Delivered(s, n))
  {
    var v := Delivered(s, n);
    RemembersMore(s.seen, s.out, s.log[n]);
    DeliveredInOrder(s, n);
    hide InOrder, Remembers, Reach;
    assert Complete(v) by {
      forall j | s.since <= j < Max(n + 1, s.got) ensures j in v.at {
        assert j == n ==> v.at[|s.at|] == j;
      }
    }
    hide Complete;
  }

  lemma NewTracks(s: State)
    requires Tracks(s) && |s.queue| > 0 && s.got < |s.log| && s.got !in s.at
    ensures var u := s.(queue := s.queue[1..], got := s.got + 1, lastTs := Later(s.lastTs, s.queue[0].ts));
            Tracks(Delivered(u, s.got))
  {
    TakenFeed(s);
    assert s.since <= s.got && Reach(s.at) <= s.got;
    hide Feed, InOrder, Remembers, Reach;
    DeliveredTracks(s.(queue := s.queue[1..], got := s.got + 1, lastTs := Later(s.lastTs, s.queue[0].ts)), s.got);
  }

  lemma TakenTracks(s: State)
    requires Tracks(s) && |s.queue| > 0
    ensures s.got < |s.log| && s.queue[0] == s.log[s.got] && Tracks(Taken(s))
  {
    TakenFeed(s);
    SeenByPlace(s, s.got);
    if s.got in s.at {
      SkippedTracks(s);
    } else {
      NewTracks(s);
    }
    hide Tracks, Feed;
  }

  // ----------------------------------------------------------------- replay

  /** The stored events after a timestamp, at most `limit` of them. */
  function EventsAfter(log: seq<Item>, ts: real, limit: nat): seq<Item>
    decreases |log|
  {
    if log == [] then []
    else
      var found := EventsAfter(log[..|log| - 1], ts, limit);
      if log[|log| - 1].ts > ts && |found| < limit then found + [log[|log| - 1]] else found
  }

  /** In an ascending log the query returns one run of consecutive events. */
  lemma {:induction false} ReplayIsSlice(log: seq<Item>, ts: real, limit: nat) returns (k: nat)
    requires Ascending(log)
    ensures var r := EventsAfter(log, ts, limit); k + |r| <= |log| && r == log[k..k + |r|] && |r| <= limit
    ensures forall j :: 0 <= j < |log| ==> (log[j].ts <= ts <==> j < k)
    ensures var r := EventsAfter(log, ts, limit); |r| < limit ==> k + |r| == |log|
    decreases |log|
  {
    if log == [] {
      return 0;
    }
    var front, last := log[..|log| - 1], log[|log| - 1];
    k := ReplayIsSlice(front, ts, limit);
    var found := EventsAfter(front, ts, limit);
    if last.ts <= ts {
      k := |log|;
      assert found == [];
    } else if |found| < limit {
      assert log[k..|log|] == front[k..|front|] + [last];
    } else {
      assert log[k..k + |found|] == front[k..k + |found|];
    }
  }

  /** Once the queue has caught up with the opening of the stream, the first event after the cursor is new and
      everything before it was delivered. */
  lemma PassedIsDelivered(s: State, n: nat)
    requires Tracks(s) && s.got >= s.start && n < |s.log|
    requires forall j :: 0 <= j < n ==> s.log[j].ts <= s.lastTs
    requires s.log[n].ts > s.lastTs
    ensures Reach(s.at) <= n
    ensures forall j :: s.since <= j < Max(n, s.got) && j != n ==> j in s.at
  {
    if s.at != [] {
      assert s.out[|s.at| - 1] == s.log[s.at[|s.at| - 1]];
      assert s.out[|s.at| - 1].ts <= s.lastTs;
    }
    forall j | s.since <= j < Max(n, s.got) && j != n ensures j in s.at {
      if j < n {
        assert s.log[j].ts <= s.lastTs;
      }
    }
    hide Remembers;
  }

  /** A replay delivers the first event after the cursor. */
  lemma ReplayedTracks(s: State, n: nat)
    requires Tracks(s) && s.got >= s.start && n < |s.log|
    requires forall j :: 0 <= j < n ==> s.log[j].ts <= s.lastTs
    requires s.log[n].ts > s.lastTs
    ensures s.log[n].id !in s.seen && Tracks(Delivered(s.(lastTs := s.log[n].ts), n))
    ensures forall j :: 0 <= j < n + 1 ==> s.log[j].ts <= s.log[n].ts
  {
    PassedIsDelivered(s, n);
    SeenByPlace(s, n);
    hide Remembers, InOrder;
    assert n !in s.at by {
      ReachBounds(s, n);
    }
    DeliveredTracks(s.(lastTs := s.log[n].ts), n);
  }

  lemma ReachBounds(s: State, n: nat)
    requires InOrder(s) && Reach(s.at) <= n
    ensures n !in s.at
  {
    if s.at != [] {
      assert forall m :: 0 <= m < |s.at| ==> s.at[m] <= s.at[|s.at| - 1];
    }
  }

  // ------------------------------------------------------------- the merge

  /** A replay's question: which stored events are past the cursor. */
  datatype Query = Asked(log: seq<Item>, ts: real)

  /** Everything a replay found was sent, and the cursor has reached it. */
  ghost predicate Caught(q: Query, seen: set<string>, lastTs: real) {
    forall e :: e in EventsAfter(q.log, q.ts, REPLAY_LIMIT) ==> e.id in seen && e.ts <= lastTs
  }

  lemma CaughtLonger(qs: seq<Query>, known: set<string>, ts: real, seen: set<string>, lastTs: real)
    requires known <= seen && ts <= lastTs
    ensures forall q :: q in qs && Caught(q, known, ts) ==> Caught(q, seen, lastTs)
  {
  }

  /** The first n events of a queue were sent, and the rest of it is the front of what is queued now. */
  ghost predicate Served(first: seq<Item>, n: nat, queue: seq<Item>, seen: set<string>) {
    && (forall m :: 0 <= m < n && m < |first| ==> first[m].id in seen)
    && (n <= |first| ==> first[n..] <= queue)
  }

  lemma ServedOneMore(first: seq<Item>, n: nat, before: seq<Item>, known: set<string>,
                      queue: seq<Item>, seen: set<string>)
    requires Served(first, n, before, known) && known <= seen
    requires before != [] ==> before[0].id in seen && before[1..] <= queue
    ensures Served(first, n + 1, queue, seen)
  {
    if n < |first| {
      assert first[n..][0] == before[0] == first[n];
      assert first[n + 1..] == first[n..][1..];
      assert before[1..][..|first| - n - 1] == first[n + 1..];
    }
  }

  /** One client's stream of one task. */
  class Stream {
    const task: string
    const bus: EventBus
    const queue: Queue
    var log: seq<Item>
    var published: nat
    var lastTs: real
    var seen: set<string>
    var out: seq<Item>
    ghost var since: nat
    ghost var start: nat
    ghost var cursor: real
    ghost var got: nat
    ghost var at: seq<nat>
    /** So far timestamps strictly increased, identifiers were new, the queue was never full, and the
        snapshot's timestamp preceded every event not yet published. */
    ghost var regular: bool

    ghost function View(): State
      reads this, queue
    {
      State(log, published, since, start, cursor, queue.items, got, out, at, seen, lastTs)
    }

    ghost predicate Valid()
      reads this, bus, queue
    {
      && bus.Valid() && queue in bus.Queues(task)
      && published <= |log|
      && Remembers(seen, out) && DistinctIds(out)
      && (regular ==> Tracks(View()))
    }

    /** Subscribes to a task some of whose stored events have been published. */
    constructor (bus: EventBus, task: string, log: seq<Item>, published: nat)
      requires bus.Valid() && published <= |log|
      requires forall t, q :: t in bus.subscribers && q in bus.subscribers[t] ==> allocated(q)
      modifies bus
      ensures Valid() && fresh(queue) && this.bus == bus && this.task == task
      ensures out == [] && since == got == published == this.published && this.log == log
      ensures regular <==> Ascending(log) && DistinctIds(log)
      ensures bus.subscribers == old(bus.subscribers)[task := old(bus.Queues(task)) + [queue]]
    {
      var q := bus.Subscribe(task);
      this.task, this.bus, queue := task, bus, q;
      this.log, this.published, out, seen, at := log, published, [], {}, [];
      var ts: real := if published < |log| then log[published].ts - 1.0 else 0.0;
      since, start, got, cursor, lastTs := published, published, published, ts, ts;
      regular := Ascending(log) && DistinctIds(log);
    }

    /** Another part of the service stores an event of the task. */
    method Save(e: Item)
      requires Valid()
      modifies this`log, this`regular
      ensures Valid() && log == old(log) + [e]
      ensures regular <==> old(regular) && cursor < e.ts
                           && forall j :: 0 <= j < |old(log)| ==> old(log)[j].ts < e.ts && old(log)[j].id != e.id
    {
      hide Tracks, Remembers, DistinctIds;
      regular := regular && cursor < e.ts && forall j :: 0 <= j < |log| ==> log[j].ts < e.ts && log[j].id != e.id;
      if regular {
        SavedTracks(View(), e);
      }
      log := log + [e];
    }

    /** The next stored event is published to all subscribers of the task. */
    method Publish()
      requires Valid() && published < |log| && log[published].task == task
      modifies this`published, this`regular, bus.Queues(task)
      ensures Valid() && published == old(published) + 1
      ensures regular <==> old(regular) && |old(queue.items)| < QUEUE_SIZE
      ensures old(queue.items) <= queue.items
    {
      hide Tracks, Remembers, DistinctIds;
      regular := regular && |queue.items| < QUEUE_SIZE;
      if regular {
        PublishedTracks(View());
      }
      bus.Publish(log[published]);
      published := published + 1;
    }

    /** What the rest of the service does while the stream awaits something. */
    method Await()
      requires Valid()
      modifies this`log, this`published, this`regular, bus.Queues(task)
      ensures Valid() && old(log) <= log && (regular ==> old(regular))
      ensures old(queue.items) <= queue.items
    {
      var times: nat :| true;
      for n := 0 to times
        invariant Valid() && old(log) <= log && (regular ==> old(regular)) && old(queue.items) <= queue.items
      {
        var publish: bool := *;
        if publish && published < |log| && log[published].task == task {
          Publish();
        } else {
          var id: string, ts: real, kind: string := *, *, *;
          Save(Item(id, task, ts, kind));
        }
      }
    }

    /** Sends an event unless it was sent before; tells whether it ended the stream. */
    method Yield(e: Item, ghost n: nat) returns (ended: bool)
      requires bus.Valid() && queue in bus.Queues(task) && published <= |log|
      requires Remembers(seen, out) && DistinctIds(out)
      requires regular ==> n < |log| && e == log[n] && Tracks(if e.id in seen then View() else Delivered(View(), n))
      requires NoEnd(out)
      modifies this`seen, this`out, this`at
      ensures Valid() && (ended ==> Ended(out)) && (!ended ==> NoEnd(out))
      ensures regular ==> View() == if e.id in old(seen) then old(View()) else Delivered(old(View()), n)
      ensures seen == old(seen) + {e.id}
    {
      hide Tracks, Remembers;
      if e.id in seen {
        assert seen + {e.id} == seen;
        return false;
      }
      RemembersMore(seen, out, e);
      DistinctMore(seen, out, e);
      hide DistinctIds;
      seen, out, at := seen + {e.id}, out + [e], at + [n];
      return e.kind == STREAM_END;
    }

    /** One event from the queue. */
    method Take() returns (ended: bool)
      requires Valid() && |queue.items| > 0 && NoEnd(out)
      modifies queue, this`got, this`lastTs, this`seen, this`out, this`at
      ensures Valid() && (ended ==> Ended(out)) && (!ended ==> NoEnd(out))
      ensures queue.items == old(queue.items)[1..] && got == old(got) + 1
      ensures seen == old(seen) + {old(queue.items)[0].id} && lastTs == Later(old(lastTs), old(queue.items)[0].ts)
      ensures regular ==> old(got) < |log| && log[old(got)].id in seen
    {
      hide Tracks, Remembers, DistinctIds, NoEnd, Ended;
      if regular {
        TakenTracks(View());
      }
      var e := queue.items[0];
      ghost var n := got;
      queue.items, got, lastTs := queue.items[1..], got + 1, Later(lastTs, e.ts);
      ended := Yield(e, n);
    }

    /** After a quiet period: the stored events past the cursor, at most a hundred. */
    method Replay() returns (ended: bool)
      requires Valid() && NoEnd(out) && (regular ==> got >= start)
      modifies this`lastTs, this`seen, this`out, this`at, this`log, this`published, this`regular, bus.Queues(task)
      ensures Valid() && (ended ==> Ended(out)) && (!ended ==> NoEnd(out))
      ensures old(log) <= log && old(seen) <= seen && old(lastTs) <= lastTs && old(queue.items) <= queue.items
      ensures !ended ==> Caught(Asked(old(log), old(lastTs)), seen, lastTs)
    {
      hide Tracks, Remembers, DistinctIds, NoEnd, Ended, EventsAfter, Replaying;
      var recovered := EventsAfter(log, lastTs, REPLAY_LIMIT);
      ghost var k: nat := 0;
      if regular {
        AscendingLog();
        k := ReplayStarts(log, lastTs);
      }
      hide Stream.Valid;
      for i := 0 to |recovered|
        invariant Valid() && NoEnd(out)
        invariant regular ==> got >= start && Replaying(log, recovered, k, i, lastTs)
        invariant old(log) <= log && old(seen) <= seen && old(lastTs) <= lastTs && old(queue.items) <= queue.items
        invariant forall n :: 0 <= n < i ==> recovered[n].id in seen && recovered[n].ts <= lastTs
      {
        ended := Forward(recovered, k, i);
        if ended {
          return;
        }
      }
      ended := false;
    }

    method Forward(recovered: seq<Item>, ghost k: nat, i: nat) returns (ended: bool)
      requires Valid() && NoEnd(out) && i < |recovered|
      requires regular ==> got >= start && Replaying(log, recovered, k, i, lastTs)
      modifies this`lastTs, this`seen, this`out, this`at, this`log, this`published, this`regular, bus.Queues(task)
      ensures Valid() && (ended ==> Ended(out)) && (!ended ==> NoEnd(out))
      ensures !ended && regular ==> got >= start && Replaying(log, recovered, k, i + 1, lastTs)
      ensures seen == old(seen) + {recovered[i].id} && lastTs == Later(old(lastTs), recovered[i].ts)
      ensures old(log) <= log && old(queue.items) <= queue.items
    {
      hide Stream.Valid, Tracks, Remembers, DistinctIds, NoEnd, Ended, Replaying, Before;
      if regular {
        ReplayAdvances(log, recovered, k, i, lastTs);
      }
      ghost var stored := log;
      ended := ReplayOne(recovered[i], k + i);
      if !ended {
        Await();
        if regular {
          ReplayStands(stored, log, recovered, k, i + 1, lastTs);
        }
      }
    }

    method ReplayOne(e: Item, ghost n: nat) returns (ended: bool)
      requires Valid() && NoEnd(out)
      requires regular ==> got >= start && n < |log| && e == log[n] && Before(log, n, lastTs) && e.ts > lastTs
      modifies this`lastTs, this`seen, this`out, this`at
      ensures Valid() && (ended ==> Ended(out)) && (!ended ==> NoEnd(out))
      ensures regular ==> lastTs == e.ts && Before(log, n + 1, lastTs)
      ensures seen == old(seen) + {e.id} && lastTs == Later(old(lastTs), e.ts)
    {
      hide Tracks, Remembers, DistinctIds, NoEnd, Ended;
      if regular {
        ReplayedTracks(View(), n);
      }
      lastTs := Later(lastTs, e.ts);
      ended := Yield(e, n);
    }

    /** The stream of a client that stays connected for some number of rounds. A task that has already ended gets
        only its snapshot and a closing event that is not in the log. Unless the stream has ended, each round took one
        event from the queue or sent everything a replay found, and what was in the queue came first. */
    method Gen(terminal: bool, updatedAt: real, rounds: nat)
      returns (ended: bool, ghost taken: nat, ghost replays: seq<Query>)
      requires Valid() && out == [] && since == got
      modifies this, queue, bus, bus.Queues(task)
      ensures DistinctIds(out) && Remembers(seen, out) && (terminal ==> out == [])
      ensures ended ==> Ended(out)
      ensures regular && !terminal ==> Tracks(View())
      ensures !ended && !terminal ==>
                && taken + |replays| == rounds && got == old(got) + taken
                && (forall q :: q in replays ==> q.log <= log && updatedAt <= q.ts && Caught(q, seen, lastTs))
                && (forall m :: 0 <= m < rounds && m < |old(queue.items)| ==> old(queue.items)[m].id in seen)
      ensures queue !in bus.Queues(task)
    {
      hide Tracks, Remembers, DistinctIds, Ended, Caught;
      ended, taken, replays := false, 0, [];
      if !terminal {
        Open(updatedAt);
        ended, taken, replays := Merge(rounds);
      } else {
        assert DistinctIds(out);
      }
      bus.Unsubscribe(task, queue);
    }

    method Merge(rounds: nat) returns (ended: bool, ghost taken: nat, ghost replays: seq<Query>)
      requires Valid() && NoEnd(out)
      modifies this`lastTs, this`seen, this`out, this`at, this`got, queue
      modifies this`log, this`published, this`regular, bus.Queues(task)
      ensures Valid() && (ended ==> Ended(out))
      ensures !ended ==>
                && taken + |replays| == rounds && got == old(got) + taken
                && (forall q :: q in replays ==> q.log <= log && old(lastTs) <= q.ts && Caught(q, seen, lastTs))
                && (forall m :: 0 <= m < rounds && m < |old(queue.items)| ==> old(queue.items)[m].id in seen)
    {
      hide Stream.Valid, Tracks, Remembers, DistinctIds, Ended, NoEnd, Caught;
      ended, taken, replays := false, 0, [];
      var n := 0;
      while n < rounds && !ended
        invariant n <= rounds && Valid() && (ended ==> Ended(out)) && (!ended ==> NoEnd(out))
        invariant !ended ==> taken + |replays| == n && got == old(got) + taken
        invariant old(lastTs) <= lastTs
        invariant !ended ==>
          forall q :: q in replays ==> q.log <= log && old(lastTs) <= q.ts && Caught(q, seen, lastTs)
        invariant !ended ==> Served(old(queue.items), n, queue.items, seen)
      {
        ghost var before, known, ts := queue.items, seen, lastTs;
        ghost var query;
        ended, query := Round();
        if !ended {
          CaughtLonger(replays, known, ts, seen, lastTs);
          ServedOneMore(old(queue.items), n, before, known, queue.items, seen);
          taken := taken + if query.None? then 1 else 0;
          replays := replays + if query.None? then [] else [query.value];
        }
        n := n + 1;
      }
    }

    /** The queue is read; after a quiet period the log is. Tells which of the two, and what the log was asked. */
    method Round() returns (ended: bool, ghost query: Option<Query>)
      requires Valid() && NoEnd(out)
      modifies this`lastTs, this`seen, this`out, this`at, this`got, queue
      modifies this`log, this`published, this`regular, bus.Queues(task)
      ensures Valid() && (ended ==> Ended(out)) && (!ended ==> NoEnd(out))
      ensures old(log) <= log && old(seen) <= seen && old(lastTs) <= lastTs
      ensures old(queue.items) != [] ==>
                && query.None?
                && old(queue.items)[0].id in seen
                && old(queue.items)[1..] <= queue.items
      ensures query.None? ==> got == old(got) + 1 && (regular ==> old(got) < |log| && log[old(got)].id in seen)
      ensures query.Some? ==>
                && got == old(got)
                && old(log) <= query.value.log <= log && query.value.ts == old(lastTs)
                && (!ended ==> Caught(query.value, seen, lastTs))
    {
      hide Stream.Valid, Tracks, Remembers, DistinctIds, Ended, NoEnd, Caught;
      Await();
      if |queue.items| > 0 {
        ended := Take();
        query := None;
      } else {
        CaughtUp();
        Await();
        query := Some(Asked(log, lastTs));
        ended := Replay();
      }
    }

    method Open(updatedAt: real)
      requires Valid() && out == [] && since == got
      modifies this`start, this`cursor, this`lastTs, this`regular
      ensures Valid() && lastTs == updatedAt
    {
      hide Tracks, Remembers, DistinctIds;
      regular := regular && forall j :: published <= j < |log| ==> updatedAt < log[j].ts;
      if regular {
        OpenedTracks(View(), updatedAt);
      }
      start, cursor, lastTs := published, updatedAt, updatedAt;
    }

    lemma AscendingLog()
      requires Valid() && regular
      ensures Ascending(log)
    {
    }

    lemma CaughtUp()
      requires Valid() && queue.items == []
      ensures regular ==> got >= start
    {
    }
  }

  /** The cursor has passed the first n events. */
  ghost predicate Before(log: seq<Item>, n: nat, ts: real) {
    n <= |log| && forall j :: 0 <= j < n ==> log[j].ts <= ts
  }

  /** A replay has forwarded i of its events, which lie in the log from k on. */
  ghost predicate Replaying(log: seq<Item>, recovered: seq<Item>, k: nat, i: nat, ts: real) {
    && i <= |recovered|
    && k + |recovered| <= |log| && recovered == log[k..k + |recovered|]
    && Ascending(recovered)
    && Before(log, k + i, ts)
    && (i < |recovered| ==> recovered[i].ts > ts)
  }

  lemma ReplayStarts(log: seq<Item>, ts: real) returns (k: nat)
    requires Ascending(log)
    ensures Replaying(log, EventsAfter(log, ts, REPLAY_LIMIT), k, 0, ts)
  {
    k := ReplayIsSlice(log, ts, REPLAY_LIMIT);
  }

  lemma ReplayAdvances(log: seq<Item>, recovered: seq<Item>, k: nat, i: nat, ts: real)
    requires Replaying(log, recovered, k, i, ts) && i < |recovered|
    ensures k + i < |log| && recovered[i] == log[k + i] && recovered[i].ts > ts && Before(log, k + i, ts)
    ensures Before(log, k + i + 1, recovered[i].ts) ==> Replaying(log, recovered, k, i + 1, recovered[i].ts)
  {
  }

  lemma ReplayStands(log: seq<Item>, longer: seq<Item>, recovered: seq<Item>, k: nat, i: nat, ts: real)
    requires Replaying(log, recovered, k, i, ts) && log <= longer
    ensures Replaying(longer, recovered, k, i, ts)
  {
    assert forall j :: 0 <= j < |log| ==> longer[j] == log[j];
  }

  predicate NoEnd(out: seq<Item>) {
    forall n :: 0 <= n < |out| ==> out[n].kind != STREAM_END
  }

  /** The last event, and no other, is `stream.end`. */
  predicate Ended(out: seq<Item>) {
    |out| > 0 && out[|out| - 1].kind == STREAM_END && NoEnd(out[..|out| - 1])
  }

  lemma OutputIsOrdered(s: State)
    requires Feed(s) && InOrder(s)
    ensures DistinctIds(s.out) && forall m, n :: 0 <= m < n < |s.out| ==> s.out[m].ts < s.out[n].ts
  {
  }

  lemma PlacedIsSent(s: State, j: nat)
    requires InOrder(s) && j in s.at
    ensures j < |s.log| && s.log[j] in s.out
    ensures Ended(s.out) && j < s.at[|s.at| - 1] ==> s.log[j].kind != STREAM_END
  {
    var n :| 0 <= n < |s.at| && s.at[n] == j;
    assert s.out[n] == s.log[j];
    if Ended(s.out) && n < |s.out| - 1 {
      assert s.out[..|s.out| - 1][n] == s.log[j];
    }
  }

  /** What a client gets: nothing twice, in stored order; each event published since the subscription is sent or still
      in the queue; and when the stream has ended, it ended with the first `stream.end` since the subscription
      and left out nothing before it. */
  lemma ClientSeesEverything(s: State, j: nat)
    requires Tracks(s) && s.since <= j < |s.log|
    ensures DistinctIds(s.out)
    ensures forall m, n :: 0 <= m < n < |s.out| ==> s.out[m].ts < s.out[n].ts
    ensures j < s.published ==> s.log[j] in s.out || s.log[j] in s.queue
    ensures |s.at| == |s.out|
    ensures Ended(s.out) && j < s.at[|s.at| - 1] ==> s.log[j] in s.out && s.log[j].kind != STREAM_END
    ensures Ended(s.out) ==> s.out[|s.out| - 1] == s.log[s.at[|s.at| - 1]]
  {
    OutputIsOrdered(s);
    hide Remembers, CursorFits, CursorKnown, DistinctIds, Ascending, NoEnd;
    if j in s.at {
      PlacedIsSent(s, j);
    } else if s.got <= j < s.published {
      assert s.queue[j - s.got] == s.log[j];
    }
  }
}
