/** Exactly when two rows of the stream can carry one idempotency key. */
module StreamDuplicates {
  import opened RedisStream
  import opened StreamProtocol
  import opened StreamAdmission
  import opened StreamExtremes

  predicate SharesKey(s: System) {
    exists i, j :: 0 <= i < j < |s.store.added| && s.store.added[i].key == s.store.added[j].key
  }

  lemma LastTwoShare(s: System, before: seq<Entry>, e: Entry)
    requires s.store.added == before + [e, e]
    ensures SharesKey(s)
  {
    var i := |before|;
    assert s.store.added[i] == e && s.store.added[i + 1] == e;
  }

  /** A state reached without sending anything twice, before anything was trimmed. */
  ghost predicate Calm(maxLength: nat, maxAttempts: nat, producers: nat, consumers: nat, s: System) {
    && Reachable(maxLength, maxAttempts, producers, consumers, s)
    && s.maxLength == maxLength && |s.producers| == producers && s.resent == 0 && s.store.trimmed == 0
  }

  lemma CalmStep(maxLength: nat, maxAttempts: nat, producers: nat, consumers: nat, s: System, a: Action) returns (t: System)
    requires Calm(maxLength, maxAttempts, producers, consumers, s)
    requires a.KeyExpires? || (a.Produce? && (a.p.Reserve? || a.p.Depth? || a.p == Add(0)))
    ensures StoreOk(s.store) && t == Step(s, a) && Calm(maxLength, maxAttempts, producers, consumers, t)
  {
    hide Reachable;
    ReachableStep(maxLength, maxAttempts, producers, consumers, s, a);
    t := Step(s, a);
    hide StoreOk;
  }

  // ---- One producer, one key twice ----

  /** Producer i takes a free key all the way into the stream. */
  lemma EnterOnce(maxLength: nat, maxAttempts: nat, producers: nat, consumers: nat, s: System, i: nat, e: Entry) returns (t: System)
    requires Calm(maxLength, maxAttempts, producers, consumers, s) && i < producers && s.producers[i] == Free
    requires e.key != "" && e.key !in s.store.reserved && |s.store.added| < maxLength
    ensures Calm(maxLength, maxAttempts, producers, consumers, t) && t.producers == s.producers
    ensures t.store.added == s.store.added + [e] && t.store.reserved == s.store.reserved + {e.key}
  {
    hide Calm, StoreOk;
    assert s.maxLength == maxLength && |s.producers| == producers && s.store.trimmed == 0 by { CalmIs(maxLength, maxAttempts, producers, consumers, s); }
    t := CalmStep(maxLength, maxAttempts, producers, consumers, s, Produce(i, Reserve(e)));
    t := CalmStep(maxLength, maxAttempts, producers, consumers, t, Produce(i, Depth));
    assert t.producers == s.producers[i := Admitted(e, false)];
    t := CalmStep(maxLength, maxAttempts, producers, consumers, t, Produce(i, Add(0)));
    assert t.producers == s.producers;
  }

  lemma CalmIs(maxLength: nat, maxAttempts: nat, producers: nat, consumers: nat, s: System)
    requires Calm(maxLength, maxAttempts, producers, consumers, s)
    ensures s.maxLength == maxLength && |s.producers| == producers && s.store.trimmed == 0 && s.resent == 0
    ensures Reachable(maxLength, maxAttempts, producers, consumers, s)
  {}

  lemma StageIsCalm(maxLength: nat, maxAttempts: nat, producers: nat, consumers: nat, s: System, rows: nat)
    requires Stage(maxLength, maxAttempts, producers, consumers, s, rows, 0)
    ensures Calm(maxLength, maxAttempts, producers, consumers, s) && |s.store.added| == rows
    ensures forall i :: 0 <= i < producers ==> s.producers[i] == Free
    ensures KeyOf(rows + 1) !in s.store.reserved && KeyOf(rows + 1) != ""
  {
    hide Reachable;
  }

  /** Room for two rows: the key expires in between. */
  lemma OneProducerDuplicates(maxLength: nat, maxAttempts: nat, producers: nat, consumers: nat) returns (t: System)
    requires producers >= 1 && maxLength >= 2
    ensures Calm(maxLength, maxAttempts, producers, consumers, t) && SharesKey(t)
  {
    hide Calm, Stage, StoreOk;
    var s := Fill(maxLength, maxAttempts, producers, consumers, maxLength - 2);
    StageIsCalm(maxLength, maxAttempts, producers, consumers, s, maxLength - 2);
    CalmIs(maxLength, maxAttempts, producers, consumers, s);
    var e := Entry("", KeyOf(maxLength - 1), true);
    var u := EnterOnce(maxLength, maxAttempts, producers, consumers, s, 0, e);
    t := CalmStep(maxLength, maxAttempts, producers, consumers, u, KeyExpires(e.key));
    t := EnterOnce(maxLength, maxAttempts, producers, consumers, t, 0, e);
    assert s.store.added + [e] + [e] == s.store.added + [e, e];
    LastTwoShare(t, s.store.added, e);
  }

  // ---- Two producers at once ----

  /** The key expires while producer i still works on it, and producer j takes it too. */
  lemma BothReserve(maxLength: nat, maxAttempts: nat, producers: nat, consumers: nat, s: System, e: Entry) returns (t: System)
    requires Calm(maxLength, maxAttempts, producers, consumers, s) && producers >= 2 && s.producers[0] == s.producers[1] == Free
    requires e.key != "" && e.key !in s.store.reserved
    ensures Calm(maxLength, maxAttempts, producers, consumers, t) && t.store.added == s.store.added
    ensures t.producers == s.producers[0 := Holding(e)][1 := Holding(e)]
  {
    hide Calm, StoreOk;
    CalmIs(maxLength, maxAttempts, producers, consumers, s);
    t := CalmStep(maxLength, maxAttempts, producers, consumers, s, Produce(0, Reserve(e)));
    t := CalmStep(maxLength, maxAttempts, producers, consumers, t, KeyExpires(e.key));
    t := CalmStep(maxLength, maxAttempts, producers, consumers, t, Produce(1, Reserve(e)));
  }

  lemma BothEnter(maxLength: nat, maxAttempts: nat, producers: nat, consumers: nat, s: System, e: Entry) returns (t: System)
    requires Calm(maxLength, maxAttempts, producers, consumers, s) && producers >= 2 && |s.store.added| < maxLength
    requires s.producers[0] == s.producers[1] == Holding(e)
    ensures Calm(maxLength, maxAttempts, producers, consumers, t) && t.store.added == s.store.added + [e, e]
  {
    hide Calm, StoreOk;
    CalmIs(maxLength, maxAttempts, producers, consumers, s);
    t := CalmStep(maxLength, maxAttempts, producers, consumers, s, Produce(0, Depth));
    t := CalmStep(maxLength, maxAttempts, producers, consumers, t, Produce(1, Depth));
    assert t.producers == s.producers[0 := Admitted(e, false)][1 := Admitted(e, false)];
    t := CalmStep(maxLength, maxAttempts, producers, consumers, t, Produce(0, Add(0)));
    t := CalmStep(maxLength, maxAttempts, producers, consumers, t, Produce(1, Add(0)));
    assert s.store.added + [e] + [e] == s.store.added + [e, e];
  }

  lemma TwoProducersDuplicate(maxLength: nat, maxAttempts: nat, producers: nat, consumers: nat) returns (t: System)
    requires producers >= 2 && maxLength >= 1
    ensures Calm(maxLength, maxAttempts, producers, consumers, t) && SharesKey(t)
  {
    hide Calm, Stage;
    var s := Fill(maxLength, maxAttempts, producers, consumers, maxLength - 1);
    StageIsCalm(maxLength, maxAttempts, producers, consumers, s, maxLength - 1);
    CalmIs(maxLength, maxAttempts, producers, consumers, s);
    var e := Entry("", KeyOf(maxLength), true);
    t := BothReserve(maxLength, maxAttempts, producers, consumers, s, e);
    t := BothEnter(maxLength, maxAttempts, producers, consumers, t, e);
    LastTwoShare(t, s.store.added, e);
  }

  // ---- An XADD sent twice ----

  lemma ResendingDuplicates(maxLength: nat, maxAttempts: nat, producers: nat, consumers: nat) returns (t: System)
    requires producers >= 1 && maxLength >= 1
    ensures Reachable(maxLength, maxAttempts, producers, consumers, t) && SharesKey(t)
  {
    hide Reachable;
    var s := AdmitTogether(maxLength, maxAttempts, producers, consumers, 1);
    var e := s.producers[0].e;
    ReachableStep(maxLength, maxAttempts, producers, consumers, s, Produce(0, AddTimesOut(0)));
    var u := Step(s, Produce(0, AddTimesOut(0)));
    ReachableStep(maxLength, maxAttempts, producers, consumers, u, Produce(0, Add(0)));
    t := Step(u, Produce(0, Add(0)));
    assert s.store.added + [e] + [e] == s.store.added + [e, e];
    LastTwoShare(t, s.store.added, e);
  }

  // ---- The main result ----

  /** One producer, room for one row, nothing sent twice: only one row ever gets in. */
  lemma SingleRow(maxLength: nat, maxAttempts: nat, consumers: nat, s: System)
    requires maxLength <= 1 && Reachable(maxLength, maxAttempts, 1, consumers, s) && s.resent == 0
    ensures |s.store.added| <= 1
  {
    var actions: seq<Action> :| From(maxLength, maxAttempts, 1, consumers, actions) == s;
    AdmissionBound(maxLength, maxAttempts, 1, consumers, actions);
    if |s.store.added| > 0 {
      SingleProducerLosesNothing(maxLength, maxAttempts, consumers, actions, 0);
    }
  }

  /**
   * Two rows with one key: possible as soon as anybody gets in, and without an XADD sent twice exactly when
   * there are also two producers or room for two rows.
   */
  lemma KeysAreSharedExactly(maxLength: nat, maxAttempts: nat, producers: nat, consumers: nat)
    ensures (exists s :: Reachable(maxLength, maxAttempts, producers, consumers, s) && SharesKey(s))
            <==> producers >= 1 && maxLength >= 1
    ensures (exists s :: Reachable(maxLength, maxAttempts, producers, consumers, s) && s.resent == 0 && SharesKey(s))
            <==> producers >= 1 && maxLength >= 1 && (producers >= 2 || maxLength >= 2)
  {
    hide Reachable, Calm;
    if producers >= 1 && maxLength >= 1 {
      var s := ResendingDuplicates(maxLength, maxAttempts, producers, consumers);
      if producers >= 2 {
        var t := TwoProducersDuplicate(maxLength, maxAttempts, producers, consumers);
        CalmIs(maxLength, maxAttempts, producers, consumers, t);
      } else if maxLength >= 2 {
        var t := OneProducerDuplicates(maxLength, maxAttempts, producers, consumers);
        CalmIs(maxLength, maxAttempts, producers, consumers, t);
      } else {
        forall s | Reachable(maxLength, maxAttempts, producers, consumers, s) && s.resent == 0 ensures !SharesKey(s) {
          SingleRow(maxLength, maxAttempts, consumers, s);
        }
      }
    } else {
      forall s | Reachable(maxLength, maxAttempts, producers, consumers, s) ensures !SharesKey(s) {
        StaysQuiet(maxLength, maxAttempts, producers, consumers, s);
      }
    }
  }
}
