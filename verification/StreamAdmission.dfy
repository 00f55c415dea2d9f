/** How full the stream can get, and how often one key can enter it, with producers interleaved. */
module StreamAdmission {
  import opened Wrappers
  import opened RealMath
  import opened RedisStream
  import opened StreamProtocol

  /** Producers that passed the depth check and have not added their row yet. */
  function AdmittedCount(ps: seq<Producer>): nat {
    if ps == [] then 0 else (if ps[0].Admitted? then 1 else 0) + AdmittedCount(ps[1..])
  }

  lemma {:induction false} AdmittedUpdate(ps: seq<Producer>, i: nat, p: Producer)
    requires i < |ps|
    ensures AdmittedCount(ps[i := p]) ==
            AdmittedCount(ps) - (if ps[i].Admitted? then 1 else 0) + (if p.Admitted? then 1 else 0)
    ensures !ps[i].Admitted? ==> AdmittedCount(ps) <= |ps| - 1
  {
    AdmittedAtMostAll(ps[1..]);
    if i == 0 {
      assert ps[0 := p][1..] == ps[1..];
    } else {
      assert ps[i := p][1..] == ps[1..][i - 1 := p];
      AdmittedUpdate(ps[1..], i - 1, p);
    }
  }

  lemma {:induction false} AdmittedAtMostAll(ps: seq<Producer>)
    ensures AdmittedCount(ps) <= |ps|
  {
    if ps != [] { AdmittedAtMostAll(ps[1..]); }
  }

  /** Rows in the stream and rows on their way stay below the limit plus the producers plus what was sent twice. */
  predicate Bounded(s: System) {
    XLen(s.store) + AdmittedCount(s.producers) <= s.maxLength + |s.producers| - 1 + s.resent
  }

  /** A reservation that neither expired nor lost its reply belongs to one producer or to one row, never to both. */
  predicate KeysOk(s: System) {
    && (forall i :: 0 <= i < |s.store.added| && s.store.added[i].key !in s.tainted ==> s.store.added[i].key in s.store.reserved)
    && (forall i, j :: 0 <= i < j < |s.store.added| && s.store.added[i].key == s.store.added[j].key ==>
          s.store.added[i].key in s.tainted)
    && (forall i, p :: 0 <= i < |s.store.added| && 0 <= p < |s.producers| && HeldKey(s.producers[p]) == Some(s.store.added[i].key) ==>
          s.store.added[i].key in s.tainted)
    && (forall p, q :: 0 <= p < q < |s.producers| && HeldKey(s.producers[p]) == HeldKey(s.producers[q]) ==>
          HeldKey(s.producers[p]) == None || HeldKey(s.producers[p]).value in s.tainted)
    && (forall p :: 0 <= p < |s.producers| && HeldKey(s.producers[p]).Some? ==>
          HeldKey(s.producers[p]).value in s.store.reserved || HeldKey(s.producers[p]).value in s.tainted)
  }

  lemma ConsumersDoNotAdmit(s: System, j: nat, a: ConsumerAction)
    requires StoreOk(s.store) && j < |s.consumers|
    ensures var t := ConsumerStep(s, j, a);
            && t.store.added == s.store.added && t.store.trimmed == s.store.trimmed
            && t.store.reserved == s.store.reserved
            && t.producers == s.producers && t.tainted == s.tainted && t.maxLength == s.maxLength && t.resent == s.resent
  {}

  lemma ProducerStepBounded(s: System, i: nat, a: ProducerAction)
    requires StoreOk(s.store) && i < |s.producers| && Bounded(s)
    ensures Bounded(ProducerStep(s, i, a))
    ensures |ProducerStep(s, i, a).producers| == |s.producers| && ProducerStep(s, i, a).maxLength == s.maxLength
  {
    var t := ProducerStep(s, i, a);
    AdmittedUpdate(s.producers, i, t.producers[i]);
    assert t.producers == s.producers[i := t.producers[i]];
    hide AdmittedCount;
  }

  predicate Adds(a: ProducerAction) { a.Add? || a.AddTimesOut? || a.AddReplyLost? }

  lemma AddingKeys(s: System, i: nat, a: ProducerAction)
    requires s.store.trimmed <= |s.store.added| && i < |s.producers| && KeysOk(s) && Adds(a)
    ensures KeysOk(ProducerStep(s, i, a))
  {
    hide MayEvict;
  }

  lemma ReservingKeys(s: System, i: nat, a: ProducerAction)
    requires s.store.trimmed <= |s.store.added| && i < |s.producers| && KeysOk(s) && a.Reserve?
    ensures KeysOk(ProducerStep(s, i, a))
  {}

  lemma HoldingKeys(s: System, i: nat, a: ProducerAction)
    requires s.store.trimmed <= |s.store.added| && i < |s.producers| && KeysOk(s) && !Adds(a) && !a.Reserve?
    ensures KeysOk(ProducerStep(s, i, a))
  {}

  lemma ProducerStepKeys(s: System, i: nat, a: ProducerAction)
    requires StoreOk(s.store) && i < |s.producers| && KeysOk(s)
    ensures KeysOk(ProducerStep(s, i, a))
  {
    hide KeysOk, ProducerStep;
    if Adds(a) { AddingKeys(s, i, a); } else if a.Reserve? { ReservingKeys(s, i, a); } else { HoldingKeys(s, i, a); }
  }

  lemma StepAdmits(s: System, a: Action)
    requires StoreOk(s.store) && Bounded(s) && KeysOk(s)
    ensures Bounded(Step(s, a)) && KeysOk(Step(s, a))
    ensures |Step(s, a).producers| == |s.producers| && Step(s, a).maxLength == s.maxLength
  {
    match a
    case Produce(i, p) =>
      if i < |s.producers| {
        ProducerStepBounded(s, i, p);
        ProducerStepKeys(s, i, p);
      }
    case Consume(j, c) => if j < |s.consumers| { ConsumersDoNotAdmit(s, j, c); }
    case _ =>
  }

  lemma {:induction false} NobodyAdmitted(ps: seq<Producer>)
    requires forall i :: 0 <= i < |ps| ==> ps[i] == Free
    ensures AdmittedCount(ps) == 0
  {
    if ps != [] { NobodyAdmitted(ps[1..]); }
  }

  lemma {:induction false} RunAdmits(s: System, actions: seq<Action>)
    requires Inv(s) && Bounded(s) && KeysOk(s)
    ensures Bounded(Run(s, actions)) && KeysOk(Run(s, actions))
    ensures |Run(s, actions).producers| == |s.producers| && Run(s, actions).maxLength == s.maxLength
  {
    hide Bounded, KeysOk, Step;
    if actions != [] {
      RunAdmits(s, actions[..|actions| - 1]);
      StepAdmits(Run(s, actions[..|actions| - 1]), actions[|actions| - 1]);
    }
  }

  /**
   * With k producers the stream never holds more than maxLength + k - 1 rows and one for each XADD that
   * was sent twice; two rows share a key only if its reservation expired or a reply about it got lost.
   */
  lemma AdmissionBound(maxLength: nat, maxAttempts: nat, producers: nat, consumers: nat, actions: seq<Action>)
    requires maxLength + producers >= 1
    ensures var s := From(maxLength, maxAttempts, producers, consumers, actions);
            && XLen(s.store) <= maxLength + producers - 1 + s.resent
            && (forall i, j :: 0 <= i < j < |s.store.added| && s.store.added[i].key == s.store.added[j].key ==>
                  s.store.added[i].key in s.tainted)
  {
    var s := Start(maxLength, maxAttempts, producers, consumers);
    StartIsSafe(maxLength, maxAttempts, producers, consumers);
    NobodyAdmitted(s.producers);
    RunAdmits(s, actions);
  }

  // ---- A bound without the past ----

  /** Rows the admitted producers can still add: two for one that may send its XADD again, one for one that has. */
  function StillToCome(ps: seq<Producer>): nat {
    if ps == [] then 0 else Share(ps[0]) + StillToCome(ps[1..])
  }

  function Share(p: Producer): nat { if !p.Admitted? then 0 else if p.resent then 1 else 2 }

  lemma {:induction false} StillToComeUpdate(ps: seq<Producer>, i: nat, p: Producer)
    requires i < |ps|
    ensures StillToCome(ps[i := p]) == StillToCome(ps) - Share(ps[i]) + Share(p)
    ensures StillToCome(ps) <= 2 * (|ps| - 1) + Share(ps[i])
  {
    if i == 0 {
      assert ps[0 := p][1..] == ps[1..];
      AtMostTwoEach(ps[1..]);
    } else {
      assert ps[i := p][1..] == ps[1..][i - 1 := p];
      StillToComeUpdate(ps[1..], i - 1, p);
    }
  }

  lemma {:induction false} AtMostTwoEach(ps: seq<Producer>)
    ensures StillToCome(ps) <= 2 * |ps|
  {
    if ps != [] { AtMostTwoEach(ps[1..]); }
  }

  lemma {:induction false} NothingToCome(ps: seq<Producer>)
    requires forall i :: 0 <= i < |ps| ==> ps[i] == Free
    ensures StillToCome(ps) == 0
  {
    if ps != [] { NothingToCome(ps[1..]); }
  }

  predicate Roomy(s: System) {
    XLen(s.store) + StillToCome(s.producers) <= MaxInt(s.maxLength + 2 * |s.producers| - 1, 0)
  }

  lemma ProducerStepRoomy(s: System, i: nat, a: ProducerAction)
    requires StoreOk(s.store) && i < |s.producers| && Roomy(s)
    ensures Roomy(ProducerStep(s, i, a))
    ensures |ProducerStep(s, i, a).producers| == |s.producers| && ProducerStep(s, i, a).maxLength == s.maxLength
  {
    hide StillToCome;
    var t := ProducerStep(s, i, a);
    StillToComeUpdate(s.producers, i, t.producers[i]);
    assert t.producers == s.producers[i := t.producers[i]];
  }

  lemma StepRoomy(s: System, a: Action)
    requires StoreOk(s.store) && Roomy(s)
    ensures Roomy(Step(s, a)) && |Step(s, a).producers| == |s.producers| && Step(s, a).maxLength == s.maxLength
  {
    match a
    case Produce(i, p) => if i < |s.producers| { ProducerStepRoomy(s, i, p); }
    case Consume(j, c) => if j < |s.consumers| { ConsumersDoNotAdmit(s, j, c); }
    case _ =>
  }

  lemma {:induction false} RunRoomy(s: System, actions: seq<Action>)
    requires Inv(s) && Roomy(s)
    ensures Roomy(Run(s, actions)) && |Run(s, actions).producers| == |s.producers| && Run(s, actions).maxLength == s.maxLength
  {
    hide Roomy, Step;
    if actions != [] {
      RunRoomy(s, actions[..|actions| - 1]);
      StepRoomy(Run(s, actions[..|actions| - 1]), actions[|actions| - 1]);
    }
  }

  /** However long the run and however much was sent twice: never more than maxLength + 2k - 1 rows. */
  lemma LengthBound(maxLength: nat, maxAttempts: nat, producers: nat, consumers: nat, actions: seq<Action>)
    ensures XLen(From(maxLength, maxAttempts, producers, consumers, actions).store) <= MaxInt(maxLength + 2 * producers - 1, 0)
  {
    var s := Start(maxLength, maxAttempts, producers, consumers);
    StartIsSafe(maxLength, maxAttempts, producers, consumers);
    NothingToCome(s.producers);
    RunRoomy(s, actions);
  }

  // ---- One producer ----

  /** One producer that never sent an XADD twice has not trimmed anything. */
  predicate NothingTrimmed(s: System) { |s.producers| == 1 && Bounded(s) && (s.resent == 0 ==> s.store.trimmed == 0) }

  lemma SingleProducerStep(s: System, a: Action)
    requires StoreOk(s.store) && NothingTrimmed(s)
    ensures NothingTrimmed(Step(s, a))
  {
    match a
    case Produce(i, p) =>
      if i < |s.producers| {
        ProducerStepBounded(s, i, p);
        assert s.producers == [s.producers[0]] && AdmittedCount(s.producers) == (if s.producers[0].Admitted? then 1 else 0);
      }
    case Consume(j, c) => if j < |s.consumers| { ConsumersDoNotAdmit(s, j, c); }
    case _ =>
  }

  lemma {:induction false} SingleProducerRun(s: System, actions: seq<Action>)
    requires Inv(s) && NothingTrimmed(s)
    ensures NothingTrimmed(Run(s, actions))
  {
    hide NothingTrimmed, Step;
    if actions != [] {
      SingleProducerRun(s, actions[..|actions| - 1]);
      SingleProducerStep(Run(s, actions[..|actions| - 1]), actions[|actions| - 1]);
    }
  }

  /** With a single producer and no XADD sent twice, no row is ever lost: it waits, is pending, or is acknowledged. */
  lemma SingleProducerLosesNothing(maxLength: nat, maxAttempts: nat, consumers: nat, actions: seq<Action>, id: nat)
    requires var s := From(maxLength, maxAttempts, 1, consumers, actions); s.resent == 0 && id < |s.store.added|
    ensures var s := From(maxLength, maxAttempts, 1, consumers, actions).store;
            s.trimmed == 0 && s.lost == {} && (Undelivered(s, id) || id in s.pending || id in s.acked)
  {
    StartIsSafe(maxLength, maxAttempts, 1, consumers);
    assert Start(maxLength, maxAttempts, 1, consumers).producers == [Free];
    NobodyAdmitted([Free]);
    SingleProducerRun(Start(maxLength, maxAttempts, 1, consumers), actions);
    assert id in From(maxLength, maxAttempts, 1, consumers, actions).store.lost ==> id < 0;
  }

  // ---- A lost reply ----

  predicate AloneAndFree(s: System, e: Entry) {
    && StoreOk(s.store) && s.producers == [Free]
    && e.key != "" && e.key !in s.store.reserved && XLen(s.store) < s.maxLength
  }

  /** The only producer, up to the point where it is about to add its row. */
  function BeforeAdd(s: System, e: Entry): System
    requires StoreOk(s.store)
  {
    Step(Step(s, Produce(0, Reserve(e))), Produce(0, Depth))
  }

  lemma ReachesAdd(s: System, e: Entry)
    requires AloneAndFree(s, e)
    ensures BeforeAdd(s, e) == s.(store := s.store.(reserved := s.store.reserved + {e.key}), producers := [Admitted(e, false)])
  {}

  /** The row is added, the reply is lost, and the client gives the reservation back. */
  function LostReply(s: System, e: Entry): System
    requires AloneAndFree(s, e)
  {
    ReachesAdd(s, e);
    XAddKeeps(BeforeAdd(s, e).store, e, 0);
    Step(Step(BeforeAdd(s, e), Produce(0, AddReplyLost(0))), Produce(0, Release))
  }

  lemma AfterLostReply(s: System, e: Entry)
    requires AloneAndFree(s, e)
    ensures var t := LostReply(s, e);
            && StoreOk(t.store) && t.producers == [Free] && t.store.added == s.store.added + [e]
            && e.key !in t.store.reserved && t.maxLength == s.maxLength && t.store.trimmed == s.store.trimmed
  {
    ReachesAdd(s, e);
    var b := BeforeAdd(s, e);
    XAddKeeps(b.store, e, 0);
    hide StoreOk, BeforeAdd, MostEvicted;
    assert Step(b, Produce(0, AddReplyLost(0))).producers == [GivingBack(e.key)];
  }

  /** Trying the same event again after a lost reply puts a second row with the same key into the stream. */
  lemma LostReplyDuplicates(s: System, e: Entry)
    requires AloneAndFree(s, e) && XLen(s.store) + 1 < s.maxLength
    ensures var t := LostReply(s, e);
            AloneAndFree(t, e) && Step(BeforeAdd(t, e), Produce(0, Add(0))).store.added == s.store.added + [e, e]
  {
    AfterLostReply(s, e);
    var t := LostReply(s, e);
    hide LostReply;
    ReachesAdd(t, e);
    assert s.store.added + [e] + [e] == s.store.added + [e, e];
  }
}
