/** How full the stream does get, and exactly when trimming can take a row away. */
module StreamExtremes {
  import opened RedisStream
  import opened StreamProtocol
  import opened StreamAdmission

  /** Some run from the start leads to s. */
  ghost predicate Reachable(maxLength: nat, maxAttempts: nat, producers: nat, consumers: nat, s: System) {
    exists actions: seq<Action> :: From(maxLength, maxAttempts, producers, consumers, actions) == s
  }

  lemma ReachableStep(maxLength: nat, maxAttempts: nat, producers: nat, consumers: nat, s: System, a: Action)
    requires Reachable(maxLength, maxAttempts, producers, consumers, s)
    ensures Inv(s) && Reachable(maxLength, maxAttempts, producers, consumers, Step(s, a))
  {
    hide Step, Start;
    var actions: seq<Action> :| From(maxLength, maxAttempts, producers, consumers, actions) == s;
    assert (actions + [a])[..|actions|] == actions;
    StartIsSafe(maxLength, maxAttempts, producers, consumers);
    assert From(maxLength, maxAttempts, producers, consumers, actions + [a]) == Step(s, a);
  }

  // ---- Filling the stream ----

  /** Reached without sending anything twice: so many rows, nobody reading, nothing trimmed, and the first few producers admitted. */
  ghost predicate Stage(maxLength: nat, maxAttempts: nat, producers: nat, consumers: nat, s: System, rows: nat, admitted: nat) {
    && Reachable(maxLength, maxAttempts, producers, consumers, s)
    && s.maxLength == maxLength && |s.producers| == producers && s.resent == 0
    && |s.store.added| == rows && s.store.trimmed == 0 && s.store.cursor == 0
    && s.store.pending == map[] && s.store.attempts == map[] && (forall i :: 0 <= i < rows ==> s.store.added[i].wellFormed)
    && |s.consumers| == consumers && (forall j :: 0 <= j < consumers ==> s.consumers[j] == Idle)
    && admitted <= producers
    && (forall i :: 0 <= i < admitted ==> s.producers[i].Admitted? && !s.producers[i].resent && s.producers[i].e.wellFormed)
    && (forall i :: admitted <= i < producers ==> s.producers[i] == Free)
    && (forall key :: key in s.store.reserved ==> |key| <= rows + admitted)
  }

  function KeyOf(n: nat): (key: string)
    ensures |key| == n
  {
    seq(n, _ => 'k')
  }

  lemma StageStart(maxLength: nat, maxAttempts: nat, producers: nat, consumers: nat)
    ensures Stage(maxLength, maxAttempts, producers, consumers, Start(maxLength, maxAttempts, producers, consumers), 0, 0)
  {
    assert From(maxLength, maxAttempts, producers, consumers, []) == Start(maxLength, maxAttempts, producers, consumers);
  }

  /** The next producer reserves a new key and passes the depth check. */
  lemma Admit(maxLength: nat, maxAttempts: nat, producers: nat, consumers: nat, s: System, rows: nat, admitted: nat) returns (t: System)
    requires Stage(maxLength, maxAttempts, producers, consumers, s, rows, admitted) && admitted < producers && rows < maxLength
    ensures Stage(maxLength, maxAttempts, producers, consumers, t, rows, admitted + 1)
  {
    hide Reachable;
    var e := Entry("", KeyOf(rows + admitted + 1), true);
    ReachableStep(maxLength, maxAttempts, producers, consumers, s, Produce(admitted, Reserve(e)));
    var u := Step(s, Produce(admitted, Reserve(e)));
    assert u.producers == s.producers[admitted := Holding(e)];
    ReachableStep(maxLength, maxAttempts, producers, consumers, u, Produce(admitted, Depth));
    t := Step(u, Produce(admitted, Depth));
    assert t.producers == s.producers[admitted := Admitted(e, false)];
  }

  /** The last admitted producer adds its row; nothing is evicted. */
  lemma AddLast(maxLength: nat, maxAttempts: nat, producers: nat, consumers: nat, s: System, rows: nat, admitted: nat) returns (t: System)
    requires Stage(maxLength, maxAttempts, producers, consumers, s, rows, admitted) && admitted >= 1
    ensures Stage(maxLength, maxAttempts, producers, consumers, t, rows + 1, admitted - 1)
  {
    hide Reachable;
    ReachableStep(maxLength, maxAttempts, producers, consumers, s, Produce(admitted - 1, Add(0)));
    t := Step(s, Produce(admitted - 1, Add(0)));
    assert t.producers == s.producers[admitted - 1 := Free];
  }

  lemma {:induction false} Fill(maxLength: nat, maxAttempts: nat, producers: nat, consumers: nat, rows: nat) returns (s: System)
    requires producers >= 1 && rows <= maxLength
    ensures Stage(maxLength, maxAttempts, producers, consumers, s, rows, 0)
  {
    hide Stage;
    if rows == 0 {
      StageStart(maxLength, maxAttempts, producers, consumers);
      s := Start(maxLength, maxAttempts, producers, consumers);
    } else {
      s := Fill(maxLength, maxAttempts, producers, consumers, rows - 1);
      s := Admit(maxLength, maxAttempts, producers, consumers, s, rows - 1, 0);
      s := AddLast(maxLength, maxAttempts, producers, consumers, s, rows - 1, 1);
    }
  }

  /** One row below the limit, so many producers pass the check together. */
  lemma {:induction false} AdmitTogether(maxLength: nat, maxAttempts: nat, producers: nat, consumers: nat, admitted: nat) returns (s: System)
    requires producers >= 1 && maxLength >= 1 && admitted <= producers
    ensures Stage(maxLength, maxAttempts, producers, consumers, s, maxLength - 1, admitted)
  {
    hide Stage;
    if admitted == 0 {
      s := Fill(maxLength, maxAttempts, producers, consumers, maxLength - 1);
    } else {
      s := AdmitTogether(maxLength, maxAttempts, producers, consumers, admitted - 1);
      s := Admit(maxLength, maxAttempts, producers, consumers, s, maxLength - 1, admitted - 1);
    }
  }

  lemma {:induction false} AddAll(maxLength: nat, maxAttempts: nat, producers: nat, consumers: nat, s: System, rows: nat, admitted: nat)
    returns (t: System)
    requires Stage(maxLength, maxAttempts, producers, consumers, s, rows, admitted)
    ensures Stage(maxLength, maxAttempts, producers, consumers, t, rows + admitted, 0)
    decreases admitted
  {
    hide Stage;
    t := s;
    if admitted > 0 {
      t := AddLast(maxLength, maxAttempts, producers, consumers, s, rows, admitted);
      t := AddAll(maxLength, maxAttempts, producers, consumers, t, rows + 1, admitted - 1);
    }
  }

  // ---- A stream nobody gets into ----

  predicate Quiet(s: System) {
    && (s.maxLength == 0 || s.producers == []) && s.store.added == [] && s.store.trimmed == 0
    && forall i :: 0 <= i < |s.producers| ==> !s.producers[i].Admitted?
  }

  lemma QuietStep(s: System, a: Action)
    requires StoreOk(s.store) && Quiet(s)
    ensures Quiet(Step(s, a))
  {
    if a.Consume? && a.j < |s.consumers| { ConsumersDoNotAdmit(s, a.j, a.c); }
  }

  lemma {:induction false} QuietRun(s: System, actions: seq<Action>)
    requires Inv(s) && Quiet(s)
    ensures Quiet(Run(s, actions))
  {
    hide Quiet, Step;
    if actions != [] {
      QuietRun(s, actions[..|actions| - 1]);
      QuietStep(Run(s, actions[..|actions| - 1]), actions[|actions| - 1]);
    }
  }

  lemma StaysQuiet(maxLength: nat, maxAttempts: nat, producers: nat, consumers: nat, s: System)
    requires Reachable(maxLength, maxAttempts, producers, consumers, s) && (maxLength == 0 || producers == 0)
    ensures s.store.added == [] && XLen(s.store) == 0 && s.store.lost == {}
  {
    var actions: seq<Action> :| From(maxLength, maxAttempts, producers, consumers, actions) == s;
    StartIsSafe(maxLength, maxAttempts, producers, consumers);
    QuietRun(Start(maxLength, maxAttempts, producers, consumers), actions);
    assert forall id :: id in s.store.lost ==> id < 0;
  }

  // ---- The main results ----

  /** The bound maxLength + producers - 1 is reached, with nothing sent twice, as soon as anybody gets in at all. */
  lemma BoundIsReached(maxLength: nat, maxAttempts: nat, producers: nat, consumers: nat)
    requires producers >= 1
    ensures (exists s :: Reachable(maxLength, maxAttempts, producers, consumers, s) && s.resent == 0
                         && XLen(s.store) == maxLength + producers - 1)
            <==> maxLength >= 1 || producers == 1
  {
    if maxLength >= 1 {
      var s := AdmitTogether(maxLength, maxAttempts, producers, consumers, producers);
      s := AddAll(maxLength, maxAttempts, producers, consumers, s, maxLength - 1, producers);
      assert XLen(s.store) == maxLength + producers - 1;
    } else {
      StageStart(maxLength, maxAttempts, producers, consumers);
      assert XLen(Start(maxLength, maxAttempts, producers, consumers).store) == 0;
      forall s | Reachable(maxLength, maxAttempts, producers, consumers, s) ensures XLen(s.store) == 0 {
        StaysQuiet(maxLength, maxAttempts, producers, consumers, s);
      }
    }
  }

  /** Reached: so many rows, and the first few producers admitted and free to send their XADD twice. */
  ghost predicate Draining(maxLength: nat, maxAttempts: nat, producers: nat, consumers: nat, s: System, rows: int, admitted: nat) {
    && Reachable(maxLength, maxAttempts, producers, consumers, s)
    && |s.producers| == producers && admitted <= producers && XLen(s.store) == rows
    && (forall i :: 0 <= i < admitted ==> s.producers[i].Admitted? && !s.producers[i].resent)
  }

  lemma AddTwice(maxLength: nat, maxAttempts: nat, producers: nat, consumers: nat, s: System, rows: int, admitted: nat) returns (t: System)
    requires Draining(maxLength, maxAttempts, producers, consumers, s, rows, admitted) && admitted >= 1
    ensures Draining(maxLength, maxAttempts, producers, consumers, t, rows + 2, admitted - 1)
  {
    hide Reachable;
    ReachableStep(maxLength, maxAttempts, producers, consumers, s, Produce(admitted - 1, AddTimesOut(0)));
    var u := Step(s, Produce(admitted - 1, AddTimesOut(0)));
    assert u.producers == s.producers[admitted - 1 := Admitted(s.producers[admitted - 1].e, true)];
    ReachableStep(maxLength, maxAttempts, producers, consumers, u, Produce(admitted - 1, Add(0)));
    t := Step(u, Produce(admitted - 1, Add(0)));
    assert t.producers == u.producers[admitted - 1 := Free];
  }

  lemma {:induction false} AddAllTwice(maxLength: nat, maxAttempts: nat, producers: nat, consumers: nat, s: System, rows: int, admitted: nat)
    returns (t: System)
    requires Draining(maxLength, maxAttempts, producers, consumers, s, rows, admitted)
    ensures Draining(maxLength, maxAttempts, producers, consumers, t, rows + 2 * admitted, 0)
    decreases admitted
  {
    hide Draining;
    t := s;
    if admitted > 0 {
      t := AddTwice(maxLength, maxAttempts, producers, consumers, s, rows, admitted);
      t := AddAllTwice(maxLength, maxAttempts, producers, consumers, t, rows + 2, admitted - 1);
    }
  }

  /** With XADDs sent twice the bound maxLength + 2 * producers - 1 is reached. */
  lemma DoubleBoundIsReached(maxLength: nat, maxAttempts: nat, producers: nat, consumers: nat)
    requires producers >= 1
    ensures (exists s :: Reachable(maxLength, maxAttempts, producers, consumers, s) && XLen(s.store) == maxLength + 2 * producers - 1)
            <==> maxLength >= 1
  {
    if maxLength >= 1 {
      var s := AdmitTogether(maxLength, maxAttempts, producers, consumers, producers);
      assert Draining(maxLength, maxAttempts, producers, consumers, s, maxLength - 1, producers);
      s := AddAllTwice(maxLength, maxAttempts, producers, consumers, s, maxLength - 1, producers);
      assert XLen(s.store) == maxLength + 2 * producers - 1;
    } else {
      forall s | Reachable(maxLength, maxAttempts, producers, consumers, s) ensures XLen(s.store) == 0 {
        StaysQuiet(maxLength, maxAttempts, producers, consumers, s);
      }
    }
  }

  /** The row is in a full stream and another producer was admitted before that: XADD evicts the first, unread row. */
  lemma EvictsFirst(s: System, i: nat)
    requires StoreOk(s.store) && i < |s.producers| && s.producers[i].Admitted?
    requires XLen(s.store) == s.maxLength >= 1 && s.store.trimmed == 0 && s.store.cursor == 0
    ensures 0 in Step(s, Produce(i, Add(1))).store.lost
  {}

  lemma TwoProducersLose(maxLength: nat, maxAttempts: nat, producers: nat, consumers: nat) returns (t: System)
    requires producers >= 2 && maxLength >= 1
    ensures Reachable(maxLength, maxAttempts, producers, consumers, t) && t.resent == 0 && 0 in t.store.lost
  {
    hide Reachable, From;
    var s := AdmitTogether(maxLength, maxAttempts, producers, consumers, 2);
    s := AddLast(maxLength, maxAttempts, producers, consumers, s, maxLength - 1, 2);
    ReachableStep(maxLength, maxAttempts, producers, consumers, s, Produce(0, Add(1)));
    t := Step(s, Produce(0, Add(1)));
    EvictsFirst(s, 0);
  }

  lemma OneProducerLosesByResending(maxLength: nat, maxAttempts: nat, producers: nat, consumers: nat) returns (t: System)
    requires producers >= 1 && maxLength >= 1
    ensures Reachable(maxLength, maxAttempts, producers, consumers, t) && 0 in t.store.lost
  {
    hide Reachable, From;
    var s := AdmitTogether(maxLength, maxAttempts, producers, consumers, 1);
    ReachableStep(maxLength, maxAttempts, producers, consumers, s, Produce(0, AddTimesOut(0)));
    var u := Step(s, Produce(0, AddTimesOut(0)));
    ReachableStep(maxLength, maxAttempts, producers, consumers, u, Produce(0, Add(1)));
    t := Step(u, Produce(0, Add(1)));
    EvictsFirst(u, 0);
  }

  /**
   * Exactly when trimming can take a row away: with an XADD sent twice as soon as anybody gets in, and
   * otherwise only from two producers on.
   */
  lemma RowsAreLostExactly(maxLength: nat, maxAttempts: nat, producers: nat, consumers: nat)
    ensures (exists s :: Reachable(maxLength, maxAttempts, producers, consumers, s) && s.store.lost != {})
            <==> producers >= 1 && maxLength >= 1
    ensures (exists s :: Reachable(maxLength, maxAttempts, producers, consumers, s) && s.resent == 0 && s.store.lost != {})
            <==> producers >= 2 && maxLength >= 1
  {
    hide Reachable;
    if producers >= 1 && maxLength >= 1 {
      var s := OneProducerLosesByResending(maxLength, maxAttempts, producers, consumers);
      if producers >= 2 {
        var t := TwoProducersLose(maxLength, maxAttempts, producers, consumers);
      } else {
        forall s | Reachable(maxLength, maxAttempts, producers, consumers, s) && s.resent == 0 ensures s.store.lost == {} {
          AloneLosesNothing(maxLength, maxAttempts, consumers, s);
        }
      }
    } else {
      forall s | Reachable(maxLength, maxAttempts, producers, consumers, s) ensures s.store.lost == {} {
        StaysQuiet(maxLength, maxAttempts, producers, consumers, s);
      }
    }
  }

  lemma AloneLosesNothing(maxLength: nat, maxAttempts: nat, consumers: nat, s: System)
    requires Reachable(maxLength, maxAttempts, 1, consumers, s) && s.resent == 0
    ensures s.store.lost == {}
  {
    var actions: seq<Action> :| From(maxLength, maxAttempts, 1, consumers, actions) == s;
    if |s.store.added| > 0 {
      SingleProducerLosesNothing(maxLength, maxAttempts, consumers, actions, 0);
    }
  }
}
