/** The provider circuit breaker (core/circuit_breaker.py) against its full failure history. */
module CircuitBreaker {
  import opened Wrappers

  datatype Config = Config(threshold: int, window: real, openSeconds: real)

  predicate Forward(times: seq<real>) { forall i, j :: 0 <= i < j < |times| ==> times[i] <= times[j] }

  /** The times not before `start`. */
  function Recent(times: seq<real>, start: real): seq<real> {
    if times == [] then []
    else
      var rest := Recent(times[..|times| - 1], start);
      if times[|times| - 1] < start then rest else rest + [times[|times| - 1]]
  }

  lemma RecentAppend(times: seq<real>, t: real, start: real)
    ensures Recent(times + [t], start) == Recent(times, start) + (if t < start then [] else [t])
  {}

  /** Forgetting early times first does not change what is recent. */
  lemma {:induction false} RecentOfRecent(times: seq<real>, early: real, late: real)
    requires early <= late
    ensures Recent(Recent(times, early), late) == Recent(times, late)
  {
    if times != [] {
      var before, last := times[..|times| - 1], times[|times| - 1];
      RecentOfRecent(before, early, late);
      if last >= early { RecentAppend(Recent(before, early), last, late); }
    }
  }

  lemma {:induction false} RecentKeepsOrder(times: seq<real>, start: real)
    requires Forward(times)
    ensures Forward(Recent(times, start))
    ensures times != [] && Recent(times, start) != [] ==>
              Recent(times, start)[|Recent(times, start)| - 1] <= times[|times| - 1]
  {
    if times != [] {
      var before := times[..|times| - 1];
      RecentKeepsOrder(before, start);
      if before != [] { assert before[|before| - 1] <= times[|times| - 1]; }
    }
  }

  lemma {:induction false} AllRecent(times: seq<real>, start: real)
    requires forall i :: 0 <= i < |times| ==> times[i] >= start
    ensures Recent(times, start) == times
  {
    if times != [] {
      AllRecent(times[..|times| - 1], start);
      assert times == times[..|times| - 1] + [times[|times| - 1]];
    }
  }

  /** Dropping old times from the front of an ordered queue is filtering it. */
  lemma {:induction false} FrontIsNotRecent(times: seq<real>, start: real)
    requires times != [] && times[0] < start
    ensures Recent(times, start) == Recent(times[1..], start)
  {
    if |times| > 1 {
      FrontIsNotRecent(times[..|times| - 1], start);
      assert times[..|times| - 1][1..] == times[1..][..|times| - 2];
    } else {
      assert times[..0] == [] && times[1..] == [];
    }
  }

  /** A queue that forgot only what is too old now behaves like the full history, also with one more failure. */
  lemma RecentAfterFailure(history: seq<real>, horizon: real, start: real, now: real)
    requires horizon <= start && Forward(history) && forall i :: 0 <= i < |history| ==> history[i] <= now
    ensures Forward(history + [now]) && Forward(Recent(history, horizon) + [now])
    ensures Recent(Recent(history, horizon) + [now], start) == Recent(history + [now], start)
  {
    RecentOfRecent(history, horizon, start);
    RecentKeepsOrder(history, horizon);
    RecentAppend(Recent(history, horizon), now, start);
    RecentAppend(history, now, start);
    hide Recent;
  }

  /** Failures since the last success, oldest first, and the last time they tripped the breaker. */
  class Breaker {
    const config: Config
    var failures: seq<real>
    var openUntil: real
    ghost var history: seq<real>
    ghost var lastTrip: Option<real>
    ghost var clock: real
    /** Nothing at or after this time has been forgotten. */
    ghost var horizon: real

    ghost predicate Valid()
      reads this
    {
      && clock >= 0.0
      && Forward(history)
      && (forall i :: 0 <= i < |history| ==> history[i] <= clock)
      && horizon <= clock - config.window
      && failures == Recent(history, horizon)
      && openUntil == (if lastTrip.Some? then lastTrip.value + config.openSeconds else 0.0)
    }

    constructor (config: Config, now: real)
      requires now >= 0.0
      ensures Valid() && history == [] && lastTrip == None && clock == now && this.config == config
    {
      this.config := config;
      failures, openUntil := [], 0.0;
      history, lastTrip, clock, horizon := [], None, now, now - config.window;
    }

    method Prune(now: real)
      requires Forward(failures) && Recent(failures, now - config.window) == Recent(history, now - config.window)
      modifies this`failures, this`horizon
      ensures horizon == now - config.window
      ensures failures == Recent(history, now - config.window)
    {
      var start := now - config.window;
      ghost var wanted := Recent(history, start);
      while failures != [] && failures[0] < start
        invariant Forward(failures) && Recent(failures, start) == wanted
        decreases |failures|
      {
        FrontIsNotRecent(failures, start);
        failures := failures[1..];
      }
      forall i | 0 <= i < |failures| ensures failures[i] >= start { assert failures[0] <= failures[i]; }
      AllRecent(failures, start);
      horizon := start;
    }

    /** Closed exactly when the latest trip since the last success is further back than the open time. */
    method Allow(now: real) returns (allowed: bool)
      requires Valid() && now >= clock
      modifies this
      ensures Valid() && history == old(history) && lastTrip == old(lastTrip) && clock == now
      ensures allowed <==> (lastTrip.Some? ==> now >= lastTrip.value + config.openSeconds)
      ensures allowed ==> failures == Recent(history, now - config.window)
    {
      clock := now;
      if now < openUntil { return false; }
      RecentOfRecent(history, horizon, now - config.window);
      RecentKeepsOrder(history, horizon);
      Prune(now);
      allowed := true;
    }

    method RecordSuccess(now: real)
      requires Valid() && now >= clock
      modifies this
      ensures Valid() && history == [] && lastTrip == None && failures == [] && clock == now
    {
      failures, openUntil := [], 0.0;
      history, lastTrip, clock := [], None, now;
      horizon := now - config.window;
    }

    /** Trips exactly when the window, this failure included, holds at least the threshold. */
    method RecordFailure(now: real) returns (tripped: bool)
      requires Valid() && now >= clock
      modifies this
      ensures Valid() && history == old(history) + [now] && clock == now
      ensures failures == Recent(history, now - config.window)
      ensures tripped <==> |Recent(history, now - config.window)| >= config.threshold
      ensures lastTrip == if tripped then Some(now) else old(lastTrip)
    {
      hide Recent, Forward;
      RecentAfterFailure(history, horizon, now - config.window, now);
      failures, history, clock := failures + [now], history + [now], now;
      Prune(now);
      if |failures| >= config.threshold {
        openUntil, lastTrip := now + config.openSeconds, Some(now);
        return true;
      }
      tripped := false;
    }
  }
}
