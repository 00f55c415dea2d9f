/**
 * The fixed-window limiter of core/redis_state.py: one counter per user and time bucket, in process
 * memory or on the Redis server, where INCR and EXPIRE are two commands, a command that times out is
 * sent again, and one may arrive late. `Seen` counts what was executed.
 */
module RateLimiter {
  import opened Wrappers
  import opened RealMath

  /**
   * One execution of the counting for a call made at `at`. It is unanswered when its reply never came in
   * time: then the call has failed, or the client sent the command again and the answer is another's.
   */
  datatype Call = Call(user: int, at: real, answered: bool)

  function WindowSeconds(requested: int): int { MaxInt(1, requested) }

  /** Fixed windows follow each other from time zero; this is the number of the one `at` falls in. */
  function Bucket(at: real, window: int): int
    requires window >= 1
  {
    (at / window as real).Floor
  }

  lemma QuotientBounds(at: real, w: real, low: real, high: real)
    requires w > 0.0
    ensures at / w >= low <==> at >= low * w
    ensures at / w < high <==> at < high * w
  {}

  /** Bucket b is the time from b windows to b + 1 windows. */
  lemma BucketSpan(at: real, window: int, b: int)
    requires window >= 1
    ensures Bucket(at, window) == b <==> b as real * window as real <= at < (b + 1) as real * window as real
  {
    QuotientBounds(at, window as real, b as real, (b + 1) as real);
  }

  lemma BucketOrder(early: real, late: real, window: int)
    requires window >= 1 && early <= late
    ensures Bucket(early, window) <= Bucket(late, window)
  {
    var w := window as real;
    QuotientOrder(early, late, w);
  }

  /** An interval one window long meets two buckets at most. */
  lemma WindowMeetsTwoBuckets(start: real, at: real, window: int)
    requires window >= 1 && start <= at < start + window as real
    ensures Bucket(at, window) == Bucket(start, window) || Bucket(at, window) == Bucket(start, window) + 1
  {
    var b := Bucket(start, window);
    BucketOrder(start, at, window);
    BucketSpan(start, window, b);
    QuotientBounds(at, window as real, b as real, (b + 2) as real);
    assert (b + 2) as real * window as real == (b + 1) as real * window as real + window as real;
  }

  // ---- What the limiter should do ----

  predicate Falls(c: Call, user: int, b: int, window: int)
    requires window >= 1
  {
    c.user == user && Bucket(c.at, window) == b
  }

  /** How often the user was counted in bucket b. */
  function Seen(calls: seq<Call>, user: int, b: int, window: int): nat
    requires window >= 1
  {
    if calls == [] then 0
    else Seen(calls[..|calls| - 1], user, b, window) + (if Falls(calls[|calls| - 1], user, b, window) then 1 else 0)
  }

  lemma SeenAppend(calls: seq<Call>, c: Call, user: int, b: int, window: int)
    requires window >= 1
    ensures Seen(calls + [c], user, b, window) == Seen(calls, user, b, window) + (if Falls(c, user, b, window) then 1 else 0)
  {}

  /** The last execution is within the limit of its bucket, itself included. */
  predicate LastWithin(calls: seq<Call>, limit: int, window: int)
    requires window >= 1 && calls != []
  {
    var c := calls[|calls| - 1];
    Seen(calls, c.user, Bucket(c.at, window), window) <= limit
  }

  /** The last call got an answer, and the answer lets it through. */
  predicate LastAdmitted(calls: seq<Call>, limit: int, window: int)
    requires window >= 1 && calls != []
  {
    calls[|calls| - 1].answered && LastWithin(calls, limit, window)
  }

  /** How many of the user's calls in bucket b were answered. */
  function AnsweredIn(calls: seq<Call>, user: int, b: int, window: int): nat
    requires window >= 1
  {
    if calls == [] then 0
    else AnsweredIn(calls[..|calls| - 1], user, b, window)
         + (if Falls(calls[|calls| - 1], user, b, window) && calls[|calls| - 1].answered then 1 else 0)
  }

  /** How many of them were let through. */
  function AdmittedIn(calls: seq<Call>, user: int, b: int, window: int, limit: int): nat
    requires window >= 1
  {
    if calls == [] then 0
    else AdmittedIn(calls[..|calls| - 1], user, b, window, limit)
         + (if Falls(calls[|calls| - 1], user, b, window) && LastAdmitted(calls, limit, window) then 1 else 0)
  }

  /** How many unanswered executions used up a place within the limit. */
  function WastedIn(calls: seq<Call>, user: int, b: int, window: int, limit: int): nat
    requires window >= 1
  {
    if calls == [] then 0
    else
      var c := calls[|calls| - 1];
      WastedIn(calls[..|calls| - 1], user, b, window, limit)
      + (if Falls(c, user, b, window) && !c.answered && LastWithin(calls, limit, window) then 1 else 0)
  }

  /** How many of the user's calls from `start` on, for less than `span` seconds, were let through. */
  function AdmittedWithin(calls: seq<Call>, user: int, start: real, span: real, window: int, limit: int): nat
    requires window >= 1
  {
    if calls == [] then 0
    else
      var c := calls[|calls| - 1];
      AdmittedWithin(calls[..|calls| - 1], user, start, span, window, limit)
      + (if c.user == user && start <= c.at < start + span && LastAdmitted(calls, limit, window) then 1 else 0)
  }

  /** The places of a bucket go to the calls let through and to unanswered executions, as they come, up to the limit. */
  lemma {:induction false} PlacesAreShared(calls: seq<Call>, user: int, b: int, window: int, limit: int)
    requires window >= 1
    ensures AdmittedIn(calls, user, b, window, limit) + WastedIn(calls, user, b, window, limit)
         == MinInt(Seen(calls, user, b, window), MaxInt(limit, 0))
  {
    if calls != [] {
      PlacesAreShared(calls[..|calls| - 1], user, b, window, limit);
    }
  }

  lemma {:induction false} AnsweredAtLeastAdmitted(calls: seq<Call>, user: int, b: int, window: int, limit: int)
    requires window >= 1
    ensures AdmittedIn(calls, user, b, window, limit) <= AnsweredIn(calls, user, b, window)
    ensures AnsweredIn(calls, user, b, window) + WastedIn(calls, user, b, window, limit) <= Seen(calls, user, b, window)
    ensures Seen(calls, user, b, window) <= MaxInt(limit, 0) ==>
              AdmittedIn(calls, user, b, window, limit) == AnsweredIn(calls, user, b, window)
  {
    if calls != [] {
      AnsweredAtLeastAdmitted(calls[..|calls| - 1], user, b, window, limit);
    }
  }

  /**
   * A bucket lets through exactly as many calls as were answered, up to the limit, if and only if no answer
   * refused or no unanswered execution took a place within the limit.
   */
  lemma BucketAdmitsExactly(calls: seq<Call>, user: int, b: int, window: int, limit: int)
    requires window >= 1
    ensures AdmittedIn(calls, user, b, window, limit) == MinInt(AnsweredIn(calls, user, b, window), MaxInt(limit, 0))
            <==> AdmittedIn(calls, user, b, window, limit) == AnsweredIn(calls, user, b, window)
                 || WastedIn(calls, user, b, window, limit) == 0
  {
    PlacesAreShared(calls, user, b, window, limit);
    AnsweredAtLeastAdmitted(calls, user, b, window, limit);
  }

  lemma {:induction false} AllAnswered(calls: seq<Call>, user: int, b: int, window: int, limit: int)
    requires window >= 1 && forall i :: 0 <= i < |calls| ==> calls[i].answered
    ensures WastedIn(calls, user, b, window, limit) == 0 && AnsweredIn(calls, user, b, window) == Seen(calls, user, b, window)
  {
    if calls != [] {
      AllAnswered(calls[..|calls| - 1], user, b, window, limit);
    }
  }

  /** When every command is executed once and answered, that is the smaller of calls and limit in every bucket. */
  lemma AnsweredBucketAdmitsExactly(calls: seq<Call>, user: int, b: int, window: int, limit: int)
    requires window >= 1 && forall i :: 0 <= i < |calls| ==> calls[i].answered
    ensures AdmittedIn(calls, user, b, window, limit) == MinInt(Seen(calls, user, b, window), MaxInt(limit, 0))
  {
    PlacesAreShared(calls, user, b, window, limit);
    AllAnswered(calls, user, b, window, limit);
  }

  /** An INCR sent twice refuses the very first call of a bucket when the limit is one. */
  lemma ResentIncrRefusesTheFirst(user: int, at: real, window: int)
    requires window >= 1
    ensures var calls, b := [Call(user, at, false), Call(user, at, true)], Bucket(at, window);
            && AnsweredIn(calls, user, b, window) == 1 && AdmittedIn(calls, user, b, window, 1) == 0
            && WastedIn(calls, user, b, window, 1) == 1
  {
    var first, second, b := Call(user, at, false), Call(user, at, true), Bucket(at, window);
    OneMore([], first, b, window, 1);
    OneMore([first], second, b, window, 1);
    assert [] + [first] == [first] && [first] + [second] == [first, second];
    hide Bucket, Seen, AnsweredIn, AdmittedIn, WastedIn;
  }

  /** How one execution more counts in its own bucket. */
  lemma OneMore(calls: seq<Call>, c: Call, b: int, window: int, limit: int)
    requires window >= 1 && Bucket(c.at, window) == b
    ensures var all, fits := calls + [c], Seen(calls, c.user, b, window) + 1 <= limit;
            && Seen(all, c.user, b, window) == Seen(calls, c.user, b, window) + 1
            && AnsweredIn(all, c.user, b, window) == AnsweredIn(calls, c.user, b, window) + (if c.answered then 1 else 0)
            && AdmittedIn(all, c.user, b, window, limit) == AdmittedIn(calls, c.user, b, window, limit) + (if c.answered && fits then 1 else 0)
            && WastedIn(all, c.user, b, window, limit) == WastedIn(calls, c.user, b, window, limit) + (if !c.answered && fits then 1 else 0)
  {
    hide Bucket, Seen;
    SeenAppend(calls, c, c.user, b, window);
    assert (calls + [c])[..|calls|] == calls;
  }

  lemma {:induction false} TwoBucketsCover(calls: seq<Call>, user: int, start: real, window: int, limit: int)
    requires window >= 1
    ensures AdmittedWithin(calls, user, start, window as real, window, limit)
            <= AdmittedIn(calls, user, Bucket(start, window), window, limit)
               + AdmittedIn(calls, user, Bucket(start, window) + 1, window, limit)
  {
    if calls != [] {
      hide Bucket, Seen, LastAdmitted;
      var c := calls[|calls| - 1];
      TwoBucketsCover(calls[..|calls| - 1], user, start, window, limit);
      if start <= c.at < start + window as real { WindowMeetsTwoBuckets(start, c.at, window); }
    }
  }

  /** Any interval one window long lets through twice the limit at most, wherever it starts. */
  lemma IntervalAdmitsAtMostTwice(calls: seq<Call>, user: int, start: real, window: int, limit: int)
    requires window >= 1
    ensures AdmittedWithin(calls, user, start, window as real, window, limit) <= 2 * MaxInt(limit, 0)
  {
    TwoBucketsCover(calls, user, start, window, limit);
    PlacesAreShared(calls, user, Bucket(start, window), window, limit);
    PlacesAreShared(calls, user, Bucket(start, window) + 1, window, limit);
  }

  // ---- The bound is met ----

  /** `late` calls just before the end of the first window and `early` calls as the next one opens. */
  function Burst(user: int, window: int, late: nat, early: nat): seq<Call> {
    if early > 0 then Burst(user, window, late, early - 1) + [Call(user, window as real, true)]
    else if late > 0 then Burst(user, window, late - 1, 0) + [Call(user, window as real - 0.5, true)]
    else []
  }

  /** How a next call counts, for one that stands in bucket b. */
  lemma NextCall(calls: seq<Call>, c: Call, b: int, window: int, start: real, span: real, limit: int)
    requires window >= 1 && Bucket(c.at, window) == b && start <= c.at < start + span && c.answered
    ensures forall x :: Seen(calls + [c], c.user, x, window) == Seen(calls, c.user, x, window) + (if x == b then 1 else 0)
    ensures Seen(calls, c.user, b, window) < limit ==>
              AdmittedWithin(calls + [c], c.user, start, span, window, limit)
              == AdmittedWithin(calls, c.user, start, span, window, limit) + 1
  {}

  lemma {:induction false} BurstIsAdmitted(user: int, window: int, late: nat, early: nat, limit: int)
    requires window >= 1 && late <= limit && early <= limit
    ensures Seen(Burst(user, window, late, early), user, 0, window) == late
    ensures Seen(Burst(user, window, late, early), user, 1, window) == early
    ensures AdmittedWithin(Burst(user, window, late, early), user, window as real - 0.5, 1.0, window, limit) == late + early
  {
    if early > 0 {
      hide Bucket, Seen, AdmittedWithin;
      BurstIsAdmitted(user, window, late, early - 1, limit);
      BucketSpan(window as real, window, 1);
      NextCall(Burst(user, window, late, early - 1), Call(user, window as real, true), 1, window, window as real - 0.5, 1.0, limit);
    } else if late > 0 {
      hide Bucket, Seen, AdmittedWithin;
      BurstIsAdmitted(user, window, late - 1, 0, limit);
      BucketSpan(window as real - 0.5, window, 0);
      NextCall(Burst(user, window, late - 1, 0), Call(user, window as real - 0.5, true), 0, window, window as real - 0.5, 1.0, limit);
    }
  }

  /** Twice the limit does get through within one second, across the edge of two buckets. */
  lemma TwiceTheLimitIsReached(user: int, window: int, limit: nat)
    requires window >= 1
    ensures AdmittedWithin(Burst(user, window, limit, limit), user, window as real - 0.5, 1.0, window, limit) == 2 * limit
  {
    BurstIsAdmitted(user, window, limit, limit, limit);
  }

  // ---- The counters ----

  datatype Key = Key(user: int, bucket: int)

  /** Without Redis: counters in the process, which nothing removes. */
  class MemoryLimiter {
    const window: int
    var counters: map<Key, int>
    ghost var calls: seq<Call>

    ghost predicate Valid()
      reads this
    {
      window >= 1
      && forall user, b :: Seen(calls, user, b, window) == if Key(user, b) in counters then counters[Key(user, b)] else 0
    }

    constructor (windowSeconds: int)
      ensures Valid() && calls == [] && window == if windowSeconds >= 1 then windowSeconds else 1
    {
      window := WindowSeconds(windowSeconds);
      counters, calls := map[], [];
    }

    /** Refuses exactly the calls beyond the limit in their bucket. */
    method Limited(user: int, limit: int, now: real) returns (limited: bool)
      requires Valid()
      modifies this
      ensures Valid() && calls == old(calls) + [Call(user, now, true)]
      ensures limited <==> !LastAdmitted(calls, limit, window)
    {
      hide Bucket, Seen;
      var key := Key(user, Bucket(now, window));
      var count := (if key in counters then counters[key] else 0) + 1;
      counters := counters[key := count];
      forall u, b ensures Seen(calls + [Call(user, now, true)], u, b, window)
                       == Seen(calls, u, b, window) + (if Falls(Call(user, now, true), u, b, window) then 1 else 0)
      {
        SeenAppend(calls, Call(user, now, true), u, b, window);
      }
      calls := calls + [Call(user, now, true)];
      limited := count > limit;
    }
  }

  /** A counter on the server; without EXPIRE it has no end. */
  datatype Counter = Counter(count: int, expiresAt: Option<real>)

  function CountAt(counters: map<Key, Counter>, key: Key): int { if key in counters then counters[key].count else 0 }

  /** From this bucket on every counter holds what was executed. */
  ghost predicate Counted(calls: seq<Call>, counters: map<Key, Counter>, first: int, window: int)
    requires window >= 1
  {
    forall k: Key :: k.bucket >= first ==> CountAt(counters, k) == Seen(calls, k.user, k.bucket, window)
  }

  predicate Outlives(counters: map<Key, Counter>, key: Key, window: int) {
    key in counters && counters[key].expiresAt.Some? ==>
      (key.bucket + 1) as real * window as real <= counters[key].expiresAt.value
  }

  /** From this bucket on every counter outlives its bucket. */
  ghost predicate Lasting(counters: map<Key, Counter>, first: int, window: int) {
    forall k: Key :: k.bucket >= first ==> Outlives(counters, k, window)
  }

  /** One execution more, for a call of an earlier bucket or of the first one that still counts. */
  lemma CountsOneMore(calls: seq<Call>, c: Call, before: map<Key, Counter>, after: Counter, first: int, window: int)
    requires window >= 1 && Bucket(c.at, window) <= first && Counted(calls, before, first, window)
    requires var key := Key(c.user, Bucket(c.at, window)); key.bucket == first ==> after.count == CountAt(before, key) + 1
    ensures Counted(calls + [c], before[Key(c.user, Bucket(c.at, window)) := after], first, window)
  {
    hide Bucket, Seen;
    var key := Key(c.user, Bucket(c.at, window));
    forall k: Key | k.bucket >= first ensures CountAt(before[key := after], k) == Seen(calls + [c], k.user, k.bucket, window) {
      SeenAppend(calls, c, k.user, k.bucket, window);
      assert CountAt(before, k) == Seen(calls, k.user, k.bucket, window);
    }
  }

  lemma LaterFirst(calls: seq<Call>, counters: map<Key, Counter>, first: int, later: int, window: int)
    requires window >= 1 && first <= later && Counted(calls, counters, first, window) && Lasting(counters, first, window)
    ensures Counted(calls, counters, later, window) && Lasting(counters, later, window)
  {}

  /**
   * With Redis: INCR, and EXPIRE only when INCR made the counter. Clock readings of the caller and the
   * server come from one clock that does not run backwards.
   */
  class RedisLimiter {
    const window: int
    var counters: map<Key, Counter>
    ghost var calls: seq<Call>
    ghost var clock: real

    predicate Alive(key: Key, now: real)
      reads this
    {
      key in counters && (counters[key].expiresAt.Some? ==> now < counters[key].expiresAt.value)
    }

    ghost predicate Valid()
      reads this
    {
      && window >= 1
      && Counted(calls, counters, Bucket(clock, window), window)
      && Lasting(counters, Bucket(clock, window), window)
    }

    constructor (windowSeconds: int, now: real)
      ensures Valid() && calls == [] && clock == now && window == if windowSeconds >= 1 then windowSeconds else 1
    {
      window := WindowSeconds(windowSeconds);
      counters, calls, clock := map[], [], now;
    }

    method Incr(key: Key, now: real) returns (count: int)
      modifies this`counters
      ensures count == (if old(Alive(key, now)) then old(counters)[key].count else 0) + 1
      ensures counters == old(counters)[key := Counter(count, if old(Alive(key, now)) then old(counters)[key].expiresAt else None)]
      ensures key !in old(counters) ==> count == 1
      ensures key in old(counters) && old(counters)[key].expiresAt.Some? && old(counters)[key].expiresAt.value <= now ==> count == 1
      ensures key in old(counters) && (old(counters)[key].expiresAt.None? || now < old(counters)[key].expiresAt.value) ==>
                count == old(counters)[key].count + 1
    {
      if Alive(key, now) {
        count := counters[key].count + 1;
        counters := counters[key := counters[key].(count := count)];
      } else {
        count := 1;
        counters := counters[key := Counter(1, None)];
      }
    }

    /** A counter of the bucket that is running is alive: the server never forgets it early. */
    lemma RunningIsAlive(key: Key, now: real)
      requires Valid() && clock <= now && key.bucket == Bucket(now, window)
      ensures key in counters ==> Alive(key, now)
    {
      BucketOrder(clock, now, window);
      BucketSpan(now, window, key.bucket);
      assert Outlives(counters, key, window);
      hide Bucket, Counted;
    }

    /** An INCR for a call made at `asked` that is executed at `now` and whose reply never comes in time. */
    method IncrUnanswered(user: int, asked: real, now: real)
      requires Valid() && asked <= now && clock <= now
      modifies this
      ensures Valid() && calls == old(calls) + [Call(user, asked, false)] && clock == now
    {
      hide Bucket, Seen, Counted, Lasting, Alive;
      var c, key := Call(user, asked, false), Key(user, Bucket(asked, window));
      BucketOrder(clock, now, window);
      BucketOrder(asked, now, window);
      LaterFirst(calls, counters, Bucket(clock, window), Bucket(now, window), window);
      if key.bucket == Bucket(now, window) { RunningIsAlive(key, now); }
      NotAliveIsAbsent(key, now);
      ghost var before := counters;
      var count := Incr(key, now);
      CountsOneMore(calls, c, before, counters[key], Bucket(now, window), window);
      StillLasting(before, key, counters[key], Bucket(now, window), window);
      calls, clock := calls + [c], now;
    }

    lemma NotAliveIsAbsent(key: Key, now: real)
      ensures Alive(key, now) ==> key in counters
      ensures key in counters && !Alive(key, now) ==> counters[key].expiresAt.Some?
    {}

    /**
     * EXPIRE may be lost after INCR went through; then the caller gets no answer and the counter stays
     * right. An answer that comes while the call's bucket is still running refuses exactly when more than
     * the limit has been executed in it; after that the server may have forgotten the counter.
     */
    method Limited(user: int, limit: int, asked: real, now: real, expireArrives: bool) returns (limited: Option<bool>)
      requires Valid() && asked <= now && clock <= now
      modifies this
      ensures Valid() && calls == old(calls) + [Call(user, asked, limited.Some?)] && clock == now
      ensures limited.None? ==> !expireArrives
      ensures Bucket(asked, window) == Bucket(now, window) && limited.Some? ==>
                (limited.value <==> !LastAdmitted(calls, limit, window))
    {
      hide Bucket, Seen, Counted, Lasting, Alive;
      var key := Key(user, Bucket(asked, window));
      BucketOrder(clock, now, window);
      BucketOrder(asked, now, window);
      LaterFirst(calls, counters, Bucket(clock, window), Bucket(now, window), window);
      if key.bucket == Bucket(now, window) { RunningIsAlive(key, now); }
      NotAliveIsAbsent(key, now);
      ghost var before := counters;
      var count := Incr(key, now);
      if count == 1 && expireArrives {
        counters := counters[key := counters[key].(expiresAt := Some(now + window as real))];
        BucketSpan(now, window, Bucket(now, window));
      }
      assert counters == before[key := counters[key]];
      ghost var c := Call(user, asked, count != 1 || expireArrives);
      CountsOneMore(calls, c, before, counters[key], Bucket(now, window), window);
      StillLasting(before, key, counters[key], Bucket(now, window), window);
      CountOfLast(calls, c, counters, Bucket(now, window), window);
      calls, clock := calls + [c], now;
      if count == 1 && !expireArrives { return None; }
      limited := Some(count > limit);
    }
  }

  lemma StillLasting(before: map<Key, Counter>, key: Key, after: Counter, first: int, window: int)
    requires Lasting(before, first, window)
    requires key.bucket >= first && after.expiresAt.Some? ==>
               (key in before && before[key].expiresAt == after.expiresAt)
               || (key.bucket + 1) as real * window as real <= after.expiresAt.value
    ensures Lasting(before[key := after], first, window)
  {
    if key.bucket >= first { assert Outlives(before, key, window); }
    forall k: Key | k.bucket >= first ensures Outlives(before[key := after], k, window) { assert Outlives(before, k, window); }
  }

  lemma CountOfLast(calls: seq<Call>, c: Call, counters: map<Key, Counter>, first: int, window: int)
    requires window >= 1 && Counted(calls + [c], counters, first, window)
    ensures Bucket(c.at, window) == first ==>
              CountAt(counters, Key(c.user, first)) == Seen(calls + [c], c.user, first, window)
  {
    hide Seen;
  }
}
