/**
 * The in-process login limiter of `backend/app/api/auth.py` (`_local_rl_check` and
 * `_LOCAL_RL_BUCKETS`): a fixed 60-second window per key, and an eviction sweep once the
 * table holds more than 1000 keys.  Times are reals and never run backwards.
 *
 * A run is the sequence of calls made so far.  `Table` and `Trace` give the table a run
 * leaves and what each call did; with `evicts` false they describe a limiter that never
 * forgets a key, which is the reference the real one is compared with.
 */
module RateLimiter {
  datatype Bucket = Bucket(count: nat, start: real)
  datatype Call = Call(key: string, limit: int, now: real)
  datatype Event = Event(key: string, now: real, start: real, allowed: bool)

  type Buckets = map<string, Bucket>

  const WINDOW := 60.0
  const RETENTION := 120.0
  const CAPACITY := 1000

  /** The bucket of `key` after a call at `now` has been counted. */
  function Counted(t: Buckets, key: string, now: real): Bucket {
    var b := if key in t then t[key] else Bucket(0, now);
    if now - b.start >= WINDOW then Bucket(1, now) else Bucket(b.count + 1, b.start)
  }

  /** Drops the buckets older than the retention time. */
  function Swept(t: Buckets, now: real): Buckets {
    map k | k in t && t[k].start >= now - RETENTION :: t[k]
  }

  function Next(t: Buckets, c: Call, evicts: bool): Buckets {
    var u := t[c.key := Counted(t, c.key, c.now)];
    if evicts && |u| > CAPACITY then Swept(u, c.now) else u
  }

  function Table(calls: seq<Call>, evicts: bool): Buckets {
    if calls == [] then map[]
    else Next(Table(calls[..|calls| - 1], evicts), calls[|calls| - 1], evicts)
  }

  function EventOf(t: Buckets, c: Call): Event {
    var b := Counted(t, c.key, c.now);
    Event(c.key, c.now, b.start, b.count <= c.limit)
  }

  function Trace(calls: seq<Call>, evicts: bool): (tr: seq<Event>)
    ensures |tr| == |calls|
  {
    if calls == [] then []
    else
      var before := calls[..|calls| - 1];
      Trace(before, evicts) + [EventOf(Table(before, evicts), calls[|calls| - 1])]
  }

  /** The clock never runs backwards. */
  ghost predicate Ordered(calls: seq<Call>) {
    forall i, j :: 0 <= i < j < |calls| ==> calls[i].now <= calls[j].now
  }

  lemma OrderGrows(calls: seq<Call>, c: Call)
    requires Ordered(calls) && (calls != [] ==> calls[|calls| - 1].now <= c.now)
    ensures Ordered(calls + [c])
  {
  }

  lemma {:induction false} RunGrows(calls: seq<Call>, c: Call)
    ensures Table(calls + [c], true) == Next(Table(calls, true), c, true)
    ensures Trace(calls + [c], true)[|calls|] == EventOf(Table(calls, true), c)
  {
    assert (calls + [c])[..|calls|] == calls;
  }

  class Limiter {
    var buckets: Buckets
    ghost var history: seq<Call>

    ghost predicate Valid()
      reads this
    {
      Ordered(history) && buckets == Table(history, true)
    }

    constructor ()
      ensures Valid() && history == []
    {
      buckets, history := map[], [];
    }

    /** The clean-up inside a call: visits every key and drops the ones past retention. */
    method Sweep(now: real)
      modifies this`buckets
      ensures buckets == Swept(old(buckets), now)
    {
      var cutoff := now - RETENTION;
      var pending := buckets.Keys;
      while pending != {}
        invariant pending <= buckets.Keys <= old(buckets).Keys
        invariant forall k :: k in buckets ==> buckets[k] == old(buckets)[k]
        invariant forall k :: k in old(buckets) ==>
          (k in buckets <==> k in pending || old(buckets)[k].start >= cutoff)
        decreases |pending|
      {
        var k :| k in pending;
        pending := pending - {k};
        if buckets[k].start < cutoff {
          buckets := buckets - {k};
        }
      }
    }

    /** `_local_rl_check` on the table alone. */
    method Admit(key: string, limit: int, now: real) returns (allowed: bool)
      modifies this`buckets
      ensures buckets == Next(old(buckets), Call(key, limit, now), true)
      ensures allowed == EventOf(old(buckets), Call(key, limit, now)).allowed
    {
      var count, start := 0, now;
      if key in buckets {
        count, start := buckets[key].count, buckets[key].start;
      }
      if now - start >= WINDOW {
        count, start := 0, now;
      }
      count := count + 1;
      buckets := buckets[key := Bucket(count, start)];
      // Old buckets go once the table is over capacity, so that it cannot grow for ever.
      if |buckets| > CAPACITY {
        Sweep(now);
      }
      allowed := count <= limit;
    }

    /** The call as one more step of the run. */
    method Check(key: string, limit: int, now: real) returns (allowed: bool)
      requires Valid()
      requires history != [] ==> history[|history| - 1].now <= now
      modifies this
      ensures Valid()
      ensures history == old(history) + [Call(key, limit, now)]
      ensures allowed == Trace(history, true)[|history| - 1].allowed
      ensures |buckets| <= 1000 || forall k :: k in buckets ==> buckets[k].start >= now - 120.0
    {
      OrderGrows(history, Call(key, limit, now));
      RunGrows(history, Call(key, limit, now));
      allowed := Admit(key, limit, now);
      history := history + [Call(key, limit, now)];
    }
  }

  // ---- Eviction ----

  /** What an evicting table may lack: only buckets whose window is long over. */
  ghost predicate Forgets(some: Buckets, all: Buckets, now: real) {
    && (forall k :: k in some ==> k in all && some[k] == all[k])
    && (forall k :: k in all && k !in some ==> all[k].start < now - RETENTION)
  }

  lemma ForgottenIsExpired(some: Buckets, all: Buckets, before: real, c: Call)
    requires Forgets(some, all, before) && before <= c.now
    ensures Counted(some, c.key, c.now) == Counted(all, c.key, c.now)
    ensures Forgets(Next(some, c, true), Next(all, c, false), c.now)
  {
  }

  ghost function LastTime(calls: seq<Call>): real {
    if calls == [] then 0.0 else calls[|calls| - 1].now
  }

  /** Over every run, the limiter that evicts does with each call what one that never evicts does. */
  lemma {:induction false} EvictionUnobservable(calls: seq<Call>)
    requires Ordered(calls)
    ensures Forgets(Table(calls, true), Table(calls, false), LastTime(calls))
    ensures Trace(calls, true) == Trace(calls, false)
  {
    if calls != [] {
      var before, c := calls[..|calls| - 1], calls[|calls| - 1];
      EvictionUnobservable(before);
      var some, all := Table(before, true), Table(before, false);
      if before == [] {
        ForgottenIsExpired(some, all, c.now, c);
      } else {
        ForgottenIsExpired(some, all, LastTime(before), c);
      }
    }
  }

  // ---- Windows ----

  /** How many calls of a trace fell in the window of `key` that opened at `start`. */
  function Calls(tr: seq<Event>, key: string, start: real): nat {
    if tr == [] then 0
    else
      var e := tr[|tr| - 1];
      Calls(tr[..|tr| - 1], key, start) + if e.key == key && e.start == start then 1 else 0
  }

  function Admitted(tr: seq<Event>, key: string, start: real): nat {
    if tr == [] then 0
    else
      var e := tr[|tr| - 1];
      Admitted(tr[..|tr| - 1], key, start) + if e.key == key && e.start == start && e.allowed then 1 else 0
  }

  /** How many calls of `key` were let through in the minute from `from`. */
  function AdmittedDuring(tr: seq<Event>, key: string, from: real): nat {
    if tr == [] then 0
    else
      var e := tr[|tr| - 1];
      AdmittedDuring(tr[..|tr| - 1], key, from)
      + if e.key == key && from <= e.now < from + 60.0 && e.allowed then 1 else 0
  }

  lemma {:induction false} NoCalls(tr: seq<Event>, key: string, start: real)
    requires forall e :: e in tr && e.key == key ==> e.start != start
    ensures Calls(tr, key, start) == 0
  {
    if tr != [] {
      assert tr[|tr| - 1] in tr;
      NoCalls(tr[..|tr| - 1], key, start);
    }
  }

  /** The bucket of a key is its latest window, with that window's calls counted exactly. */
  ghost predicate Tracks(t: Buckets, tr: seq<Event>, now: real) {
    && (forall k :: k in t ==> 1 <= t[k].count == Calls(tr, k, t[k].start) && t[k].start <= now)
    && (forall e :: e in tr ==> e.key in t && Before(e.start, t[e.key].start))
  }

  /** Two windows of one key are the same or at least a window apart. */
  ghost predicate Before(s: real, t: real) {
    s == t || s + 60.0 <= t
  }

  /**
   * What the limiter promises of call `i`: it falls inside its window, the first call of a
   * window opens it, earlier windows of its key are over, and it is let through exactly when
   * no more than `limit` calls have been made in the window, itself included.
   */
  ghost predicate Fair(calls: seq<Call>, tr: seq<Event>, i: nat)
    requires |tr| == |calls| && i < |calls|
  {
    var e := tr[i];
    && e.key == calls[i].key && e.now == calls[i].now
    && e.start <= e.now < e.start + 60.0
    && (Calls(tr[..i], e.key, e.start) == 0 ==> e.start == e.now)
    && (forall j :: 0 <= j < i && tr[j].key == e.key ==> Before(tr[j].start, e.start))
    && (e.allowed <==> Calls(tr[..i], e.key, e.start) + 1 <= calls[i].limit)
  }

  /** One more call leaves every other window's count alone. */
  lemma {:induction false} CallsGrow(tr: seq<Event>, e: Event, key: string, start: real)
    ensures Calls(tr + [e], key, start)
         == Calls(tr, key, start) + if e.key == key && e.start == start then 1 else 0
  {
    var longer := tr + [e];
    assert longer[..|longer| - 1] == tr;
  }

  lemma {:induction false} CountedIsFair(t: Buckets, tr: seq<Event>, before: real, c: Call)
    requires Tracks(t, tr, before) && before <= c.now
    ensures var b := Counted(t, c.key, c.now);
      && b.start <= c.now < b.start + WINDOW
      && b.count == Calls(tr, c.key, b.start) + 1
      && (Calls(tr, c.key, b.start) == 0 ==> b.start == c.now)
      && (forall d :: d in tr && d.key == c.key ==> Before(d.start, b.start))
  {
    if c.key !in t || c.now - t[c.key].start >= WINDOW {
      NoCalls(tr, c.key, c.now);
    }
  }

  lemma {:induction false} StepTracks(t: Buckets, tr: seq<Event>, before: real, c: Call)
    requires Tracks(t, tr, before) && before <= c.now
    ensures Tracks(Next(t, c, false), tr + [EventOf(t, c)], c.now)
  {
    CountedIsFair(t, tr, before, c);
    var u, e := Next(t, c, false), EventOf(t, c);
    forall k | k in u
      ensures u[k].count == Calls(tr + [e], k, u[k].start)
    {
      CallsGrow(tr, e, k, u[k].start);
    }
  }

  lemma {:induction false} TraceTracks(calls: seq<Call>)
    requires Ordered(calls)
    ensures calls == [] || Tracks(Table(calls, false), Trace(calls, false), LastTime(calls))
    ensures forall i :: 0 <= i < |calls| ==> Fair(calls, Trace(calls, false), i)
  {
    if calls != [] {
      var before, c := calls[..|calls| - 1], calls[|calls| - 1];
      TraceTracks(before);
      var t, tr := Table(before, false), Trace(before, false);
      var last := if before == [] then c.now else LastTime(before);
      CountedIsFair(t, tr, last, c);
      StepTracks(t, tr, last, c);
      var all := Trace(calls, false);
      assert all[..|tr|] == tr;
      forall i | 0 <= i < |calls|
        ensures Fair(calls, all, i)
      {
        if i < |before| {
          assert Fair(before, tr, i);
          assert all[..i] == tr[..i];
        } else {
          forall j | 0 <= j < i && all[j].key == c.key
            ensures Before(all[j].start, all[i].start)
          {
            assert tr[j] in tr;
          }
        }
      }
    }
  }

  /** Every call of every run of the real limiter is treated as a fixed window promises. */
  lemma {:induction false} CallsAreFair(calls: seq<Call>)
    requires Ordered(calls)
    ensures forall i :: 0 <= i < |calls| ==> Fair(calls, Trace(calls, true), i)
  {
    EvictionUnobservable(calls);
    TraceTracks(calls);
  }

  /** The limit of `key` stays the same over the run. */
  ghost predicate FixedLimit(calls: seq<Call>, key: string, limit: nat) {
    forall c :: c in calls && c.key == key ==> c.limit == limit
  }

  function Min(a: nat, b: nat): nat {
    if a < b then a else b
  }

  /** Each window lets through its first `limit` calls and no other. */
  lemma {:induction false} WindowAdmits(calls: seq<Call>, key: string, start: real, limit: nat)
    requires Ordered(calls) && FixedLimit(calls, key, limit)
    ensures var tr := Trace(calls, true);
      Admitted(tr, key, start) == Min(Calls(tr, key, start), limit)
  {
    if calls != [] {
      var n := |calls| - 1;
      WindowAdmits(calls[..n], key, start, limit);
      CallsAreFair(calls);
      var tr := Trace(calls, true);
      assert tr[..n] == Trace(calls[..n], true);
      assert Fair(calls, tr, n);
      assert calls[n] in calls;
    }
  }

  /** The calls of `key` in the minute from `from` belong to the windows opened at `s` and `t`. */
  ghost predicate Cover(tr: seq<Event>, key: string, from: real, s: real, t: real) {
    forall e :: e in tr && e.key == key && from <= e.now < from + WINDOW ==> e.start == s || e.start == t
  }

  lemma {:induction false} CoveredCount(tr: seq<Event>, key: string, from: real, s: real, t: real)
    requires Cover(tr, key, from, s, t)
    ensures AdmittedDuring(tr, key, from) <= Admitted(tr, key, s) + Admitted(tr, key, t)
  {
    if tr != [] {
      var n := |tr| - 1;
      assert tr[n] in tr;
      CoveredCount(tr[..n], key, from, s, t);
    }
  }

  ghost predicate During(e: Event, key: string, from: real) {
    e.key == key && from <= e.now < from + 60.0
  }

  /** Three windows of one key do not meet in one minute. */
  lemma {:induction false} TwoWindowsCover(calls: seq<Call>, key: string, from: real) returns (s: real, t: real)
    requires Ordered(calls)
    ensures Cover(Trace(calls, true), key, from, s, t)
  {
    CallsAreFair(calls);
    var tr := Trace(calls, true);
    if i :| 0 <= i < |tr| && During(tr[i], key, from) {
      s, t := tr[i].start, tr[i].start;
      if j :| 0 <= j < |tr| && During(tr[j], key, from) && tr[j].start != s {
        t := tr[j].start;
        forall k | 0 <= k < |tr| && During(tr[k], key, from)
          ensures tr[k].start == s || tr[k].start == t
        {
          NoThird(calls, i, j, k);
        }
      }
    } else {
      s, t := 0.0, 0.0;
      assert forall e :: e in tr ==> !During(e, key, from);
    }
    forall e | e in tr && e.key == key && from <= e.now < from + WINDOW
      ensures e.start == s || e.start == t
    {
      assert During(e, key, from);
    }
  }

  lemma {:induction false} NoThird(calls: seq<Call>, i: nat, j: nat, k: nat)
    requires Ordered(calls)
    requires i < |calls| && j < |calls| && k < |calls|
    requires var tr := Trace(calls, true);
      && tr[i].key == tr[j].key == tr[k].key
      && tr[i].start != tr[j].start
      && (exists from :: During(tr[i], tr[i].key, from) && During(tr[j], tr[i].key, from)
                      && During(tr[k], tr[i].key, from))
    ensures Trace(calls, true)[k].start in {Trace(calls, true)[i].start, Trace(calls, true)[j].start}
  {
    CallsAreFair(calls);
    var tr := Trace(calls, true);
    assert Fair(calls, tr, i) && Fair(calls, tr, j) && Fair(calls, tr, k);
    assert i < j ==> Before(tr[i].start, tr[j].start);
  }

  /** In no minute of any run does a key get more than twice its limit. */
  lemma {:induction false} TwiceTheLimit(calls: seq<Call>, key: string, limit: nat, from: real)
    requires Ordered(calls) && FixedLimit(calls, key, limit)
    ensures AdmittedDuring(Trace(calls, true), key, from) <= 2 * limit
  {
    var s, t := TwoWindowsCover(calls, key, from);
    CoveredCount(Trace(calls, true), key, from, s, t);
    WindowAdmits(calls, key, s, limit);
    WindowAdmits(calls, key, t, limit);
  }
}
