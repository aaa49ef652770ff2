/** The local fixed-window rate limiter: one counter per identity and minute, in a table that
    prunes itself. It decides as counters that are never pruned would, as long as no request's
    minute lags the largest one seen by more than one. */
module RateLimit {

  /** A caller and the minute of its request. */
  datatype Key = Key(identity: string, bucket: int)

  type Table = map<Key, nat>

  const CAPACITY: nat := 10_000

  function Bucket(now: real): int {
    (now / 60.0).Floor
  }

  /** a lies in minute n of the clock. */
  predicate InMinute(n: int, a: real) {
    60.0 * (n as real) <= a < 60.0 * (n as real) + 60.0
  }

  lemma BucketIsMinute(a: real, n: int)
    ensures InMinute(n, a) <==> n == Bucket(a)
  {
    Floored(a / 60.0);
  }

  /** Two moments share a bucket exactly if they lie in the same minute of the clock. */
  lemma BucketsAreMinutes(a: real, b: real)
    ensures Bucket(a) == Bucket(b) <==> exists n :: InMinute(n, a) && InMinute(n, b)
  {
    BucketIsMinute(a, Bucket(a));
    BucketIsMinute(b, Bucket(a));
    if exists n :: InMinute(n, a) && InMinute(n, b) {
      var n :| InMinute(n, a) && InMinute(n, b);
      BucketIsMinute(a, n);
      BucketIsMinute(b, n);
    }
  }

  lemma Floored(x: real)
    ensures x.Floor as real <= x < x.Floor as real + 1.0
  {
  }

  function Lookup(table: Table, k: Key): nat {
    if k in table then table[k] else 0
  }

  function Pruned(table: Table, bucket: int): Table {
    map k | k in table && k.bucket >= bucket - 1 :: table[k]
  }

  /** The table after a request. */
  function Next(table: Table, k: Key): Table {
    var counted := table[k := Lookup(table, k) + 1];
    if |counted| > CAPACITY then Pruned(counted, k.bucket) else counted
  }

  // ---------------------------------------------- the counter that never forgets

  /** How many requests carry the key. */
  function Count(requests: seq<Key>, k: Key): nat
    decreases |requests|
  {
    if requests == [] then 0
    else Count(requests[..|requests| - 1], k) + if requests[|requests| - 1] == k then 1 else 0
  }

  lemma CountSnoc(requests: seq<Key>, k: Key, q: Key)
    ensures Count(requests + [k], q) == Count(requests, q) + if k == q then 1 else 0
  {
    assert (requests + [k])[..|requests|] == requests;
  }

  /** No request's minute lags an earlier one by more than one. */
  ghost predicate InStep(requests: seq<Key>) {
    forall i, j :: 0 <= i < j < |requests| ==> requests[j].bucket >= requests[i].bucket - 1
  }

  /** Counts are never too high; those of minutes a request in step can still hit are exact. */
  ghost predicate Tracks(table: Table, requests: seq<Key>) {
    && (forall k :: Lookup(table, k) <= Count(requests, k))
    && (InStep(requests) ==>
          forall k: Key :: (forall i :: 0 <= i < |requests| ==> k.bucket >= requests[i].bucket - 1) ==>
            Lookup(table, k) == Count(requests, k))
  }

  lemma InStepPrefix(requests: seq<Key>, k: Key)
    requires InStep(requests + [k])
    ensures InStep(requests)
    ensures forall i :: 0 <= i < |requests| ==> k.bucket >= requests[i].bucket - 1
  {
    var all := requests + [k];
    forall i, j | 0 <= i < j < |requests| ensures requests[j].bucket >= requests[i].bucket - 1 {
      assert all[i] == requests[i] && all[j] == requests[j];
    }
    forall i | 0 <= i < |requests| ensures k.bucket >= requests[i].bucket - 1 {
      assert all[i] == requests[i] && all[|requests|] == k;
    }
  }

  lemma NextTracks(table: Table, requests: seq<Key>, k: Key)
    requires Tracks(table, requests)
    ensures Tracks(Next(table, k), requests + [k])
  {
    var table', all := Next(table, k), requests + [k];
    forall q ensures Lookup(table', q) <= Count(all, q) {
      CountSnoc(requests, k, q);
    }
    hide Count;
    if InStep(all) {
      InStepPrefix(requests, k);
      forall q: Key | forall i :: 0 <= i < |all| ==> q.bucket >= all[i].bucket - 1
        ensures Lookup(table', q) == Count(all, q)
      {
        CountSnoc(requests, k, q);
        assert all[|requests|] == k;
        assert forall i :: 0 <= i < |requests| ==> all[i] == requests[i];
      }
    }
  }

  // -------------------------------------------------------------- the limiter

  /** A request and how it was answered. */
  datatype Entry = Entry(identity: string, now: real, allowed: bool)

  function KeyOf(e: Entry): Key {
    Key(e.identity, Bucket(e.now))
  }

  function Keys(log: seq<Entry>): seq<Key> {
    seq(|log|, i requires 0 <= i < |log| => KeyOf(log[i]))
  }

  /** How many requests share the key of the last one, itself included. */
  function Rank(log: seq<Entry>): nat
    requires log != []
  {
    Count(Keys(log), KeyOf(log[|log| - 1]))
  }

  /** Every answer is the one exact counters would give. */
  ghost predicate AnsweredExactly(log: seq<Entry>, limit: int)
    decreases |log|
  {
    log == [] || ((log[|log| - 1].allowed <==> Rank(log) <= limit) && AnsweredExactly(log[..|log| - 1], limit))
  }

  /** No answer refuses a request that exact counters would admit. */
  ghost predicate NeverTooStrict(log: seq<Entry>, limit: int)
    decreases |log|
  {
    log == [] || ((Rank(log) <= limit ==> log[|log| - 1].allowed) && NeverTooStrict(log[..|log| - 1], limit))
  }

  lemma AnswersGrow(log: seq<Entry>, e: Entry, limit: int)
    ensures Rank(log + [e]) == Count(Keys(log), KeyOf(e)) + 1
    ensures AnsweredExactly(log + [e], limit) <==>
              AnsweredExactly(log, limit) && (e.allowed <==> Rank(log + [e]) <= limit)
    ensures NeverTooStrict(log + [e], limit) <==> NeverTooStrict(log, limit) && (Rank(log + [e]) <= limit ==> e.allowed)
  {
    assert (log + [e])[..|log|] == log;
    assert Keys(log + [e]) == Keys(log) + [KeyOf(e)];
    CountSnoc(Keys(log), KeyOf(e), KeyOf(e));
  }

  /** The table knows enough of the past, and the answers so far were right. */
  ghost predicate Sound(table: Table, log: seq<Entry>, limit: int) {
    && Tracks(table, Keys(log))
    && NeverTooStrict(log, limit)
    && (InStep(Keys(log)) ==> AnsweredExactly(log, limit))
  }

  lemma AnswerIsSound(table: Table, log: seq<Entry>, e: Entry, limit: int)
    requires Sound(table, log, limit) && (e.allowed <==> Lookup(table, KeyOf(e)) + 1 <= limit)
    ensures Sound(Next(table, KeyOf(e)), log + [e], limit)
    ensures Lookup(table, KeyOf(e)) + 1 <= Rank(log + [e])
    ensures InStep(Keys(log + [e])) ==> Lookup(table, KeyOf(e)) + 1 == Rank(log + [e])
  {
    AnswersGrow(log, e, limit);
    hide AnsweredExactly, NeverTooStrict, Count, Next;
    assert Keys(log + [e]) == Keys(log) + [KeyOf(e)];
    NextTracks(table, Keys(log), KeyOf(e));
    if InStep(Keys(log) + [KeyOf(e)]) {
      InStepPrefix(Keys(log), KeyOf(e));
    }
  }

  class RateLimiter {
    const limit: int
    var local: Table
    ghost var log: seq<Entry>

    ghost predicate Valid()
      reads this
    {
      Sound(local, log, limit)
    }

    constructor (limit: int)
      ensures Valid() && log == [] && this.limit == limit
    {
      this.limit := limit;
      local := map[];
      log := [];
    }

    /** Counts the request, prunes an overfull table, and answers. */
    method Check(identity: string, now: real) returns (allowed: bool, remaining: int)
      requires Valid()
      modifies this
      ensures Valid()
      ensures log == old(log) + [Entry(identity, now, allowed)]
      ensures local == Next(old(local), Key(identity, Bucket(now)))
      ensures allowed <==> remaining >= 0
      ensures Rank(log) <= limit ==> allowed
      ensures InStep(Keys(log)) ==> remaining == limit - Rank(log)
    {
      hide Sound, Rank, InStep, Keys, Bucket;
      var key := Key(identity, Bucket(now));
      ghost var table := local;
      local := local[key := Lookup(local, key) + 1];
      var count := local[key];
      if |local| > CAPACITY {
        local := Pruned(local, key.bucket);
      }
      allowed, remaining := count <= limit, limit - count;
      AnswerIsSound(table, log, Entry(identity, now, allowed), limit);
      log := log + [Entry(identity, now, allowed)];
    }
  }

  // ------------------------------------------------------------ rate guarantee

  function Max(a: int, b: int): int {
    if a <= b then b else a
  }

  function Min(a: int, b: int): int {
    if a <= b then a else b
  }

  /** Requests of the identity admitted in one minute. */
  function AdmittedIn(log: seq<Entry>, k: Key): nat
    decreases |log|
  {
    if log == [] then 0
    else
      var e := log[|log| - 1];
      AdmittedIn(log[..|log| - 1], k) + if KeyOf(e) == k && e.allowed then 1 else 0
  }

  /** Requests of the identity admitted from `from` to sixty seconds later, both ends included. */
  function AdmittedSince(log: seq<Entry>, identity: string, from: real): nat
    decreases |log|
  {
    if log == [] then 0
    else
      var e := log[|log| - 1];
      AdmittedSince(log[..|log| - 1], identity, from)
      + if e.identity == identity && e.allowed && from <= e.now <= from + 60.0 then 1 else 0
  }

  lemma KeysSnoc(log: seq<Entry>)
    requires log != []
    ensures Keys(log) == Keys(log[..|log| - 1]) + [KeyOf(log[|log| - 1])]
  {
  }

  /** A minute admits exactly the first `limit` requests. */
  lemma {:induction false} MinuteAdmits(log: seq<Entry>, k: Key, limit: int)
    requires AnsweredExactly(log, limit)
    ensures AdmittedIn(log, k) == Min(Count(Keys(log), k), Max(0, limit))
    decreases |log|
  {
    if log != [] {
      var front := log[..|log| - 1];
      MinuteAdmits(front, k, limit);
      KeysSnoc(log);
      CountSnoc(Keys(front), KeyOf(log[|log| - 1]), k);
    }
  }

  lemma TwoBuckets(from: real, now: real)
    requires from <= now <= from + 60.0
    ensures Bucket(from) <= Bucket(now) <= Bucket(from) + 1
  {
    assert (from + 60.0) / 60.0 == from / 60.0 + 1.0;
  }

  lemma {:induction false} WindowMeetsTwoMinutes(log: seq<Entry>, identity: string, from: real)
    ensures AdmittedSince(log, identity, from) <=
            AdmittedIn(log, Key(identity, Bucket(from))) + AdmittedIn(log, Key(identity, Bucket(from) + 1))
    decreases |log|
  {
    if log != [] {
      var e := log[|log| - 1];
      WindowMeetsTwoMinutes(log[..|log| - 1], identity, from);
      if from <= e.now <= from + 60.0 {
        TwoBuckets(from, e.now);
      }
    }
  }

  ghost predicate ClockAdvances(log: seq<Entry>) {
    forall i, j :: 0 <= i < j < |log| ==> log[i].now <= log[j].now
  }

  lemma AdvancingIsInStep(log: seq<Entry>)
    requires ClockAdvances(log)
    ensures InStep(Keys(log))
  {
    forall i, j | 0 <= i < j < |log| ensures KeyOf(log[i]).bucket <= KeyOf(log[j]).bucket {
      assert log[i].now / 60.0 <= log[j].now / 60.0;
    }
  }

  /** With a clock that does not run backwards, no sixty seconds admit more than twice the limit of one
      identity, however often the table was pruned. */
  lemma TwiceTheLimit(limiter: RateLimiter, identity: string, from: real)
    requires limiter.Valid() && ClockAdvances(limiter.log)
    ensures AdmittedSince(limiter.log, identity, from) <= 2 * Max(0, limiter.limit)
  {
    AdvancingIsInStep(limiter.log);
    WindowMeetsTwoMinutes(limiter.log, identity, from);
    MinuteAdmits(limiter.log, Key(identity, Bucket(from)), limiter.limit);
    MinuteAdmits(limiter.log, Key(identity, Bucket(from) + 1), limiter.limit);
  }

  // ---------------------------------------------------- the condition is tight

  /** The table after a list of requests. */
  function Play(requests: seq<Key>): Table
    decreases |requests|
  {
    if requests == [] then map[] else Next(Play(requests[..|requests| - 1]), requests[|requests| - 1])
  }

  /** A caller whose identity is n letters long. */
  function Caller(n: nat): Key {
    Key(seq(n, i => 'a'), 0)
  }

  function Crowd(n: nat): seq<Key> {
    seq(n, i requires 0 <= i < n => Caller(i))
  }

  lemma {:induction false} CrowdFills(n: nat)
    requires n <= CAPACITY
    ensures var t := Play(Crowd(n)); |t| == n && forall k :: k in t ==> k.bucket == 0 && |k.identity| < n
  {
    if n > 0 {
      CrowdFills(n - 1);
      assert Crowd(n)[..n - 1] == Crowd(n - 1);
      assert |Caller(n - 1).identity| == n - 1;
    }
  }

  /** One request two minutes behind is enough to be miscounted: a table pruned meanwhile has forgotten it. */
  lemma LaggingIsMiscounted() returns (requests: seq<Key>, k: Key)
    ensures k.bucket == 0 && forall i :: 0 <= i < |requests| ==> 0 <= requests[i].bucket <= 2
    ensures requests != [] && InStep(requests)
    ensures Lookup(Play(requests), k) == 0 && Count(requests, k) >= 1
  {
    var crowd, late := Crowd(CAPACITY), Key("", 2);
    CrowdFills(CAPACITY);
    requests, k := crowd + [late], Caller(0);
    assert requests[..|requests| - 1] == crowd;
    var full := Play(crowd)[late := 1];
    assert |full| == CAPACITY + 1;
    CountSnoc(crowd, late, k);
    CountOne(crowd, 0);
  }

  lemma {:induction false} CountOne(requests: seq<Key>, i: nat)
    requires i < |requests|
    ensures Count(requests, requests[i]) >= 1
    decreases |requests|
  {
    if i < |requests| - 1 {
      CountOne(requests[..|requests| - 1], i);
    }
  }
}
