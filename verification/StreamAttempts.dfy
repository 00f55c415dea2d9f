/**
 * The interleaved protocol with fail uninterrupted: whatever else crashes, is claimed, expires or is sent
 * twice, no pending row ever has its attempts used up.
 */
module StreamAttempts {
  import opened RedisStream
  import opened StreamProtocol
  import opened StreamExtremes

  /** The first command of fail brings the rest of it along; everything else interleaves as before. */
  function AtomicStep(s: System, a: Action): System
    requires StoreOk(s.store)
  {
    match a
    case Consume(j, CountFailure) => AtomicFail(s, j)
    case Consume(j, CountTimesOut) => AtomicFail(TimedOut(s, j), j)
    case _ => Step(s, a)
  }

  predicate Failing(s: System, j: nat) {
    j < |s.consumers| && s.consumers[j].Failed? && s.consumers[j].ready != [] && s.consumers[j].ready[0] < |s.store.added|
  }

  /** fail by consumer j from its HINCRBY on. */
  function AtomicFail(s: System, j: nat): System {
    if !Failing(s, j) then s
    else
      var ready := s.consumers[j].ready;
      s.(store := FailOnce(s.store, ready[0], s.maxAttempts), consumers := s.consumers[j := Resume(ready[1..])])
  }

  /** An HINCRBY that was executed although its reply came too late. */
  function TimedOut(s: System, j: nat): System {
    if Failing(s, j) then s.(store := HIncr(s.store, s.consumers[j].ready[0])) else s
  }

  // ---- The atomic step is its commands one after the other ----

  lemma CountStep(s: System, j: nat)
    requires Inv(s) && Failing(s, j)
    ensures var ready := s.consumers[j].ready;
            var attempts := Attempts(s.store, ready[0]) + 1;
            var t := Step(s, Consume(j, CountFailure));
            && Inv(t)
            && t == s.(store := HIncr(s.store, ready[0]),
                       consumers := s.consumers[j := if attempts < s.maxAttempts then Resume(ready[1..]) else Exhausted(ready, attempts)])
  {
    StepKeepsInv(s, Consume(j, CountFailure));
    hide StoreOk, Justified, ConsumerOk;
  }

  lemma LetterStep(s: System, j: nat)
    requires Inv(s) && j < |s.consumers| && s.consumers[j].Exhausted?
    requires s.consumers[j].ready != [] && s.consumers[j].ready[0] < |s.store.added|
    ensures var c := s.consumers[j];
            var t := Step(s, Consume(j, WriteLetter));
            && Inv(t)
            && t == s.(store := DeadLetterAdd(s.store, LetterFor(s.store, c.ready[0], c.attempts)),
                       consumers := s.consumers[j := LetterWritten(c.ready)])
  {
    StepKeepsInv(s, Consume(j, WriteLetter));
    hide StoreOk, Justified, ConsumerOk;
  }

  lemma AckStep(s: System, j: nat)
    requires Inv(s) && j < |s.consumers| && s.consumers[j].LetterWritten? && s.consumers[j].ready != []
    ensures var ready := s.consumers[j].ready;
            var t := Step(s, Consume(j, AckLetter));
            && Inv(t)
            && t == s.(store := XAck(s.store, ready[0]), consumers := s.consumers[j := LetterAcked(ready)])
  {
    StepKeepsInv(s, Consume(j, AckLetter));
    hide StoreOk, Justified, ConsumerOk;
  }

  lemma CleanStep(s: System, j: nat)
    requires Inv(s) && j < |s.consumers| && s.consumers[j].LetterAcked? && s.consumers[j].ready != []
    ensures var ready := s.consumers[j].ready;
            var t := Step(s, Consume(j, CleanUpLetter));
            && Inv(t)
            && t == s.(store := HDel(s.store, ready[0]), consumers := s.consumers[j := Resume(ready[1..])])
  {
    StepKeepsInv(s, Consume(j, CleanUpLetter));
    hide StoreOk, Justified, ConsumerOk;
  }

  /** Uninterrupted, the commands of fail lead where the atomic step leads. */
  lemma ReachableFail(maxLength: nat, maxAttempts: nat, producers: nat, consumers: nat, s: System, j: nat)
    requires Reachable(maxLength, maxAttempts, producers, consumers, s)
    ensures Reachable(maxLength, maxAttempts, producers, consumers, AtomicFail(s, j))
  {
    hide Reachable, Step, Inv, Attempts, HIncr, HDel, XAck, DeadLetterAdd, LetterFor;
    if Failing(s, j) {
      ReachableStep(maxLength, maxAttempts, producers, consumers, s, Consume(j, CountFailure));
      CountStep(s, j);
      var ready := s.consumers[j].ready;
      var one := s.(store := HIncr(s.store, ready[0]), consumers := s.consumers[j := Exhausted(ready, Attempts(s.store, ready[0]) + 1)]);
      CountedOnce(s.store, ready[0]);
      if Attempts(s.store, ready[0]) + 1 >= s.maxAttempts {
        ReachableStep(maxLength, maxAttempts, producers, consumers, one, Consume(j, WriteLetter));
        LetterStep(one, j);
        var two := one.(store := DeadLetterAdd(one.store, LetterFor(one.store, ready[0], Attempts(s.store, ready[0]) + 1)),
                        consumers := one.consumers[j := LetterWritten(ready)]);
        ReachableStep(maxLength, maxAttempts, producers, consumers, two, Consume(j, AckLetter));
        AckStep(two, j);
        var three := two.(store := XAck(two.store, ready[0]), consumers := two.consumers[j := LetterAcked(ready)]);
        ReachableStep(maxLength, maxAttempts, producers, consumers, three, Consume(j, CleanUpLetter));
        CleanStep(three, j);
        assert three.consumers[j := Resume(ready[1..])] == AtomicFail(s, j).consumers;
      }
    } else {
      NothingToFail(s, j);
    }
  }

  lemma CountedOnce(s: Store, id: nat)
    ensures Attempts(HIncr(s, id), id) == Attempts(s, id) + 1 && HIncr(s, id).added == s.added
  {}

  lemma NothingToFail(s: System, j: nat)
    requires !Failing(s, j)
    ensures AtomicFail(s, j) == s && TimedOut(s, j) == s
  {}

  // ---- The invariant ----

  predicate AllDelivered(s: Store, ids: seq<nat>) { forall i :: 0 <= i < |ids| ==> ids[i] < s.cursor }

  /** What a consumer works on was delivered, and it is not in the middle of fail. */
  predicate OutsideFail(s: Store, c: Consumer) {
    match c
    case Idle => true
    case Decoding(todo, ready) => AllDelivered(s, todo) && AllDelivered(s, ready)
    case InvalidNoted(todo, ready) => AllDelivered(s, todo) && AllDelivered(s, ready)
    case Exhausted(_, _) => false
    case LetterWritten(_) => false
    case LetterAcked(_) => false
    case _ => AllDelivered(s, c.ready)
  }

  predicate AttemptsInv(s: System) {
    s.maxAttempts >= 1 && StoreOk(s.store) && AttemptsLeft(s.store, s.maxAttempts) && AllOutside(s.store, s.consumers)
  }

  predicate AllOutside(s: Store, cs: seq<Consumer>) { forall j :: 0 <= j < |cs| ==> OutsideFail(s, cs[j]) }

  lemma OutsideFailStays(s: Store, t: Store, c: Consumer)
    requires OutsideFail(s, c) && s.cursor <= t.cursor
    ensures OutsideFail(t, c)
  {}

  lemma AllOutsideStays(s: Store, t: Store, cs: seq<Consumer>)
    requires AllOutside(s, cs) && s.cursor <= t.cursor
    ensures AllOutside(t, cs)
  {
    hide OutsideFail;
    forall j | 0 <= j < |cs| ensures OutsideFail(t, cs[j]) { OutsideFailStays(s, t, cs[j]); }
  }

  lemma AllOutsideUpdate(s: Store, cs: seq<Consumer>, j: nat, c: Consumer)
    requires AllOutside(s, cs) && j < |cs| && OutsideFail(s, c)
    ensures AllOutside(s, cs[j := c])
  {
    hide OutsideFail;
  }

  lemma CommandsKeepAttempts(s: Store, max: nat, id: nat, d: DeadLetter)
    requires max >= 1 && AttemptsLeft(s, max)
    ensures AttemptsLeft(XAck(s, id), max) && XAck(s, id).cursor == s.cursor
    ensures AttemptsLeft(HDel(s, id), max) && HDel(s, id).cursor == s.cursor
    ensures AttemptsLeft(DeadLetterAdd(s, d), max) && DeadLetterAdd(s, d).cursor == s.cursor
  {}

  lemma ReadingKeepsAttempts(s: Store, handled: set<nat>, max: nat, name: nat, c: Consumer, a: ConsumerAction)
    requires max >= 1 && StoreOk(s) && AttemptsLeft(s, max) && OutsideFail(s, c) && (a.Claim? || a.ReadNew?)
    ensures MoveKeeps(s, max, Move(s, handled, max, name, c, a))
  {
    hide Grows;
    match a {
      case Claim(ids, deleted) =>
        if c == Idle && Claimable(s, SetOf(ids), deleted) {
          XAutoClaimKeeps(s, name, SetOf(ids), deleted);
          forall i | 0 <= i < |ids| ensures ids[i] < s.cursor { assert ids[i] in SetOf(ids); }
        }
      case ReadNew(count) => XReadGroupKeeps(s, name, count);
    }
  }

  predicate MoveKeeps(s: Store, max: nat, m: Moved) {
    StoreOk(m.store) && AttemptsLeft(m.store, max) && OutsideFail(m.store, m.consumer) && s.cursor <= m.store.cursor
  }

  lemma DecodingKeepsAttempts(s: Store, handled: set<nat>, max: nat, name: nat, c: Consumer, a: ConsumerAction)
    requires max >= 1 && StoreOk(s) && AttemptsLeft(s, max) && OutsideFail(s, c)
    requires c.Decoding? || c.InvalidNoted?
    requires !a.Claim? && !a.ReadNew?
    ensures MoveKeeps(s, max, Move(s, handled, max, name, c, a))
  {
    hide StoreOk, AttemptsLeft, Grows, Dead, XAck, DeadLetterAdd, LetterFor;
    if c.todo != [] {
      var id := c.todo[0];
      if id < |s.added| {
        HashAndLettersKeep(s, id, LetterFor(s, id, 0));
        CommandsKeepAttempts(s, max, id, LetterFor(s, id, 0));
      }
      CommandsKeepAttempts(s, max, id, DeadLetter(0, "", "", 0));
      XAckKeeps(s, id);
    }
  }

  lemma HandlingKeepsAttempts(s: Store, handled: set<nat>, max: nat, name: nat, c: Consumer, a: ConsumerAction)
    requires max >= 1 && StoreOk(s) && AttemptsLeft(s, max) && OutsideFail(s, c)
    requires !c.Decoding? && !c.InvalidNoted?
    requires !a.Claim? && !a.ReadNew? && !a.CountFailure? && !a.CountTimesOut?
    ensures MoveKeeps(s, max, Move(s, handled, max, name, c, a))
  {
    hide StoreOk, AttemptsLeft, Grows, Dead, XAck, HDel, LetterFor;
    if (c.Succeeded? || c.Acked?) && c.ready != [] {
      var id := c.ready[0];
      HashAndLettersKeep(s, id, DeadLetter(0, "", "", 0));
      CommandsKeepAttempts(s, max, id, DeadLetter(0, "", "", 0));
      XAckKeeps(s, id);
    }
  }

  /** fail settles the row it is about, even when the row's attempts were already used up. */
  lemma FailOnceKeepsAttempts(s: Store, id: nat, max: nat)
    requires max >= 1 && StoreOk(s) && id < s.cursor
    requires forall p :: p in s.pending && p != id ==> Attempts(s, p) < max
    requires forall p :: p in s.attempts ==> p < s.cursor
    ensures AttemptsLeft(FailOnce(s, id, max), max) && FailOnce(s, id, max).cursor == s.cursor
  {
    hide StoreOk, LetterFor;
    assert id < |s.added| by { CursorWithin(s); }
    var t := FailOnce(s, id, max);
    assert forall p :: p != id ==> Attempts(t, p) == Attempts(s, p) && (p in t.pending <==> p in s.pending);
  }

  lemma CursorWithin(s: Store)
    requires StoreOk(s)
    ensures s.cursor <= |s.added|
  {}

  lemma OneFails(s: System, j: nat)
    requires s.maxAttempts >= 1 && StoreOk(s.store) && Failing(s, j) && AllOutside(s.store, s.consumers)
    requires forall p :: p in s.store.pending && p != s.consumers[j].ready[0] ==> Attempts(s.store, p) < s.maxAttempts
    requires forall p :: p in s.store.attempts ==> p < s.store.cursor
    ensures AttemptsInv(AtomicFail(s, j))
  {
    var id := s.consumers[j].ready[0];
    assert OutsideFail(s.store, s.consumers[j]) && id < s.store.cursor;
    FailOnceKeeps(s.store, id, s.maxAttempts);
    FailOnceKeepsAttempts(s.store, id, s.maxAttempts);
    var t := AtomicFail(s, j);
    hide StoreOk, FailOnce, Grows, Dead, Attempts, AttemptsLeft, AllOutside;
    AllOutsideStays(s.store, t.store, s.consumers);
    AllOutsideUpdate(t.store, s.consumers, j, Resume(s.consumers[j].ready[1..]));
  }

  lemma TimingOutKeeps(s: System, j: nat)
    requires AttemptsInv(s) && Failing(s, j)
    ensures var t := TimedOut(s, j);
            && StoreOk(t.store) && Failing(t, j) && t.maxAttempts == s.maxAttempts && t.consumers == s.consumers
            && AllOutside(t.store, t.consumers)
            && (forall p :: p in t.store.pending && p != s.consumers[j].ready[0] ==> Attempts(t.store, p) < t.maxAttempts)
            && (forall p :: p in t.store.attempts ==> p < t.store.cursor)
  {
    var id := s.consumers[j].ready[0];
    assert OutsideFail(s.store, s.consumers[j]) && id < s.store.cursor;
    HashAndLettersKeep(s.store, id, LetterFor(s.store, id, 0));
    AllOutsideStays(s.store, TimedOut(s, j).store, s.consumers);
    hide StoreOk, Grows, OutsideFail, AllOutside;
  }

  lemma FailKeepsAttempts(s: System, j: nat)
    requires AttemptsInv(s)
    ensures AttemptsInv(AtomicFail(s, j)) && AttemptsInv(AtomicFail(TimedOut(s, j), j))
  {
    hide AtomicFail, TimedOut, Failing, StoreOk, Attempts, AllOutside;
    if Failing(s, j) {
      OneFails(s, j);
      TimingOutKeeps(s, j);
      OneFails(TimedOut(s, j), j);
    } else {
      NothingToFail(s, j);
    }
  }

  lemma ProducerKeepsAttempts(s: System, i: nat, a: ProducerAction)
    requires AttemptsInv(s) && i < |s.producers|
    ensures AttemptsInv(ProducerStep(s, i, a))
  {
    hide StoreOk, AllOutside, MostEvicted, Grows;
    assert s.store.trimmed <= |s.store.added| by { TrimmedWithin(s.store); }
    var p, t := s.producers[i], ProducerStep(s, i, a);
    if p.Admitted? && (a.Add? || a.AddTimesOut? || a.AddReplyLost?) && MayEvict(s, a.evicted) {
      XAddKeeps(s.store, p.e, a.evicted);
    }
    ReservationsDoNotMatter(s.store, t.store.reserved);
    AllOutsideStays(s.store, t.store, s.consumers);
  }

  lemma TrimmedWithin(s: Store)
    requires StoreOk(s)
    ensures s.trimmed <= |s.added|
  {}

  lemma ReservationsDoNotMatter(s: Store, reserved: set<string>)
    requires StoreOk(s)
    ensures StoreOk(s.(reserved := reserved)) && StoreOk(s.(attempts := map[]))
  {}

  lemma ConsumerKeepsAttempts(s: System, j: nat, a: ConsumerAction)
    requires AttemptsInv(s) && j < |s.consumers| && !a.CountFailure? && !a.CountTimesOut?
    ensures AttemptsInv(ConsumerStep(s, j, a))
  {
    hide Move, StoreOk, AttemptsLeft, OutsideFail;
    var c := s.consumers[j];
    if a.Claim? || a.ReadNew? {
      ReadingKeepsAttempts(s.store, s.handled, s.maxAttempts, j, c, a);
    } else if c.Decoding? || c.InvalidNoted? {
      DecodingKeepsAttempts(s.store, s.handled, s.maxAttempts, j, c, a);
    } else {
      HandlingKeepsAttempts(s.store, s.handled, s.maxAttempts, j, c, a);
    }
    var m := Move(s.store, s.handled, s.maxAttempts, j, c, a);
    hide AllOutside;
    AllOutsideStays(s.store, m.store, s.consumers);
    AllOutsideUpdate(m.store, s.consumers, j, m.consumer);
  }

  lemma AtomicStepKeepsAttempts(s: System, a: Action)
    requires AttemptsInv(s)
    ensures AttemptsInv(AtomicStep(s, a))
  {
    hide AtomicFail, TimedOut, ProducerStep, ConsumerStep, StoreOk, AllOutside;
    match a
    case Produce(i, p) => if i < |s.producers| { ProducerKeepsAttempts(s, i, p); }
    case Consume(j, c) =>
      FailKeepsAttempts(s, j);
      if j < |s.consumers| && !c.CountFailure? && !c.CountTimesOut? { ConsumerKeepsAttempts(s, j, c); }
    case _ =>
      var t := Step(s, a);
      ReservationsDoNotMatter(s.store, t.store.reserved);
      AllOutsideStays(s.store, t.store, s.consumers);
  }

  // ---- Over all runs ----

  ghost function AtomicRun(s: System, actions: seq<Action>): (t: System)
    requires AttemptsInv(s)
    ensures AttemptsInv(t)
  {
    if actions == [] then s
    else
      var before := AtomicRun(s, actions[..|actions| - 1]);
      AtomicStepKeepsAttempts(before, actions[|actions| - 1]);
      AtomicStep(before, actions[|actions| - 1])
  }

  lemma StartHasAttempts(maxLength: nat, maxAttempts: nat, producers: nat, consumers: nat)
    requires maxAttempts >= 1
    ensures AttemptsInv(Start(maxLength, maxAttempts, producers, consumers))
  {}

  ghost function AtomicFrom(maxLength: nat, maxAttempts: nat, producers: nat, consumers: nat, actions: seq<Action>): (t: System)
    requires maxAttempts >= 1
    ensures AttemptsInv(t)
  {
    StartHasAttempts(maxLength, maxAttempts, producers, consumers);
    AtomicRun(Start(maxLength, maxAttempts, producers, consumers), actions)
  }

  lemma TimedOutIsAStep(s: System, j: nat)
    requires StoreOk(s.store) && Failing(s, j)
    ensures TimedOut(s, j) == Step(s, Consume(j, CountTimesOut))
  {
    assert s.consumers[j := s.consumers[j]] == s.consumers;
  }

  /** A run with fail uninterrupted is a run of the whole protocol, so nothing is lost in it either. */
  lemma {:induction false} AtomicRunsAreRuns(maxLength: nat, maxAttempts: nat, producers: nat, consumers: nat, actions: seq<Action>)
    requires maxAttempts >= 1
    ensures Reachable(maxLength, maxAttempts, producers, consumers, AtomicFrom(maxLength, maxAttempts, producers, consumers, actions))
  {
    hide Reachable, Step, AtomicFail, TimedOut, Failing, Start, StoreOk, AttemptsLeft, OutsideFail;
    if actions == [] {
      StageStart(maxLength, maxAttempts, producers, consumers);
    } else {
      AtomicRunsAreRuns(maxLength, maxAttempts, producers, consumers, actions[..|actions| - 1]);
      var before := AtomicFrom(maxLength, maxAttempts, producers, consumers, actions[..|actions| - 1]);
      AtomicStepIsReachable(maxLength, maxAttempts, producers, consumers, before, actions[|actions| - 1]);
    }
  }

  lemma AtomicStepIsReachable(maxLength: nat, maxAttempts: nat, producers: nat, consumers: nat, s: System, a: Action)
    requires Reachable(maxLength, maxAttempts, producers, consumers, s) && StoreOk(s.store)
    ensures Reachable(maxLength, maxAttempts, producers, consumers, AtomicStep(s, a))
  {
    hide Reachable, Step, AtomicFail, TimedOut, StoreOk, Inv;
    ReachableStep(maxLength, maxAttempts, producers, consumers, s, a);
    if a.Consume? {
      ReachableFail(maxLength, maxAttempts, producers, consumers, s, a.j);
      if a.c.CountTimesOut? {
        if Failing(s, a.j) { TimedOutIsAStep(s, a.j); } else { NothingToFail(s, a.j); }
        ReachableFail(maxLength, maxAttempts, producers, consumers, TimedOut(s, a.j), a.j);
      }
    }
  }

  /**
   * With fail uninterrupted, in every reachable state every pending row has attempts left: the call that
   * uses up the last one is the call that writes the dead letter and acknowledges.
   */
  lemma PendingRowsHaveAttemptsLeft(maxLength: nat, maxAttempts: nat, producers: nat, consumers: nat, actions: seq<Action>, id: nat)
    requires maxAttempts >= 1
    requires id in AtomicFrom(maxLength, maxAttempts, producers, consumers, actions).store.pending
    ensures Attempts(AtomicFrom(maxLength, maxAttempts, producers, consumers, actions).store, id) < maxAttempts
    ensures Reachable(maxLength, maxAttempts, producers, consumers, AtomicFrom(maxLength, maxAttempts, producers, consumers, actions))
  {
    hide Reachable;
    SameMaximum(maxLength, maxAttempts, producers, consumers, actions);
    AtomicRunsAreRuns(maxLength, maxAttempts, producers, consumers, actions);
  }

  lemma AtomicStepSameMaximum(s: System, a: Action)
    requires StoreOk(s.store)
    ensures AtomicStep(s, a).maxAttempts == s.maxAttempts
  {
    hide Move, FailOnce, HIncr;
  }

  lemma {:induction false} SameMaximum(maxLength: nat, maxAttempts: nat, producers: nat, consumers: nat, actions: seq<Action>)
    requires maxAttempts >= 1
    ensures AtomicFrom(maxLength, maxAttempts, producers, consumers, actions).maxAttempts == maxAttempts
  {
    hide AtomicStep;
    if actions != [] {
      SameMaximum(maxLength, maxAttempts, producers, consumers, actions[..|actions| - 1]);
      AtomicStepSameMaximum(AtomicFrom(maxLength, maxAttempts, producers, consumers, actions[..|actions| - 1]), actions[|actions| - 1]);
    }
  }

  // ---- With fail interrupted ----

  /** Reached: row 0 is pending after n counted failures and consumer 0 is at the given place. */
  ghost predicate Tried(maxLength: nat, maxAttempts: nat, producers: nat, consumers: nat, s: System, n: nat, c: Consumer) {
    && Reachable(maxLength, maxAttempts, producers, consumers, s)
    && s.consumers != [] && s.consumers[0] == c
    && s.store.trimmed == 0 && s.store.added != [] && s.store.added[0].wellFormed
    && 0 in s.store.pending && Attempts(s.store, 0) == n
  }

  lemma TriedStep(maxLength: nat, maxAttempts: nat, producers: nat, consumers: nat, s: System, n: nat, c: Consumer,
                  a: ConsumerAction, d: Consumer) returns (t: System)
    requires Tried(maxLength, maxAttempts, producers, consumers, s, n, c) && StoreOk(s.store)
    requires var m := Move(s.store, s.handled, s.maxAttempts, 0, c, a);
             && m.consumer == d && m.store.added == s.store.added && m.store.trimmed == 0 && 0 in m.store.pending
    ensures t == Step(s, Consume(0, a))
    ensures Tried(maxLength, maxAttempts, producers, consumers, t, Attempts(t.store, 0), d) && StoreOk(t.store)
    ensures t.store == Move(s.store, s.handled, s.maxAttempts, 0, c, a).store
  {
    hide Reachable, Move, StoreOk;
    ReachableStep(maxLength, maxAttempts, producers, consumers, s, Consume(0, a));
    t := Step(s, Consume(0, a));
    ReachableStep(maxLength, maxAttempts, producers, consumers, t, AttemptsExpire);
    InvHasStore(t);
  }

  lemma InvHasStore(s: System)
    requires Inv(s)
    ensures StoreOk(s.store)
  {}

  lemma RaisesAgain(maxLength: nat, maxAttempts: nat, producers: nat, consumers: nat, s: System, n: nat) returns (t: System)
    requires Tried(maxLength, maxAttempts, producers, consumers, s, n, Idle) && StoreOk(s.store)
    ensures Tried(maxLength, maxAttempts, producers, consumers, t, n, Failed([0])) && StoreOk(t.store)
  {
    hide Reachable, StoreOk;
    assert SetOf([0]) == {0};
    t := TriedStep(maxLength, maxAttempts, producers, consumers, s, n, Idle, Claim([0], {}), Decoding([0], []));
    t := TriedStep(maxLength, maxAttempts, producers, consumers, t, n, Decoding([0], []), DecodeNext, Decoding([], [0]));
    t := TriedStep(maxLength, maxAttempts, producers, consumers, t, n, Decoding([], [0]), DecodeNext, Handling([0]));
    t := TriedStep(maxLength, maxAttempts, producers, consumers, t, n, Handling([0]), HandlerRaises, Failed([0]));
  }

  /** Claimed, decoded, raised, counted, and then the crash. */
  lemma OnceMore(maxLength: nat, maxAttempts: nat, producers: nat, consumers: nat, s: System, n: nat) returns (t: System)
    requires Tried(maxLength, maxAttempts, producers, consumers, s, n, Idle) && StoreOk(s.store)
    ensures Tried(maxLength, maxAttempts, producers, consumers, t, n + 1, Idle) && StoreOk(t.store)
  {
    hide Reachable, StoreOk;
    t := RaisesAgain(maxLength, maxAttempts, producers, consumers, s, n);
    var counted := if n + 1 < t.maxAttempts then Idle else Exhausted([0], n + 1);
    t := TriedStep(maxLength, maxAttempts, producers, consumers, t, n, Failed([0]), CountFailure, counted);
    t := TriedStep(maxLength, maxAttempts, producers, consumers, t, n + 1, counted, ConsumerCrash, Idle);
  }

  lemma FirstDelivery(maxLength: nat, maxAttempts: nat, producers: nat, consumers: nat) returns (t: System)
    requires maxLength >= 1 && producers >= 1 && consumers >= 1
    ensures Tried(maxLength, maxAttempts, producers, consumers, t, 0, Idle) && StoreOk(t.store)
  {
    hide Reachable;
    var s := Fill(maxLength, maxAttempts, producers, consumers, 1);
    ReachableStep(maxLength, maxAttempts, producers, consumers, s, Consume(0, ReadNew(1)));
    var read := Step(s, Consume(0, ReadNew(1)));
    assert Fresh(s.store, 1) == [0];
    assert 0 in Between(0, 1) && 0 in read.store.pending;
    ReachableStep(maxLength, maxAttempts, producers, consumers, read, Consume(0, ConsumerCrash));
    t := Step(read, Consume(0, ConsumerCrash));
  }

  lemma {:induction false} AnyNumberOfAttempts(maxLength: nat, maxAttempts: nat, producers: nat, consumers: nat, n: nat) returns (t: System)
    requires maxLength >= 1 && producers >= 1 && consumers >= 1
    ensures Tried(maxLength, maxAttempts, producers, consumers, t, n, Idle) && StoreOk(t.store)
  {
    hide Tried, StoreOk;
    if n == 0 {
      t := FirstDelivery(maxLength, maxAttempts, producers, consumers);
    } else {
      t := AnyNumberOfAttempts(maxLength, maxAttempts, producers, consumers, n - 1);
      t := OnceMore(maxLength, maxAttempts, producers, consumers, t, n - 1);
    }
  }

  predicate NobodyReads(s: System) { s.consumers == [] && s.store.pending == map[] }

  lemma NobodyReadsStep(s: System, a: Action)
    requires StoreOk(s.store) && NobodyReads(s)
    ensures NobodyReads(Step(s, a))
  {
    hide StoreOk, MayEvict, Move;
  }

  lemma {:induction false} NobodyReadsRun(s: System, actions: seq<Action>)
    requires Inv(s) && NobodyReads(s)
    ensures NobodyReads(Run(s, actions))
  {
    hide Step, NobodyReads;
    if actions != [] {
      NobodyReadsRun(s, actions[..|actions| - 1]);
      NobodyReadsStep(Run(s, actions[..|actions| - 1]), actions[|actions| - 1]);
    }
  }

  lemma NothingPending(maxLength: nat, maxAttempts: nat, producers: nat, consumers: nat, s: System)
    requires Reachable(maxLength, maxAttempts, producers, consumers, s) && (maxLength == 0 || producers == 0 || consumers == 0)
    ensures s.store.pending == map[]
  {
    var actions: seq<Action> :| From(maxLength, maxAttempts, producers, consumers, actions) == s;
    StartIsSafe(maxLength, maxAttempts, producers, consumers);
    if consumers == 0 {
      NobodyReadsRun(Start(maxLength, maxAttempts, producers, consumers), actions);
    } else {
      QuietRun(Start(maxLength, maxAttempts, producers, consumers), actions);
      assert forall id :: id in s.store.pending ==> id < 0;
    }
  }

  /**
   * Crashes inside fail are what the promise excludes: with them a pending row reaches any number of
   * attempts, the limit and beyond, as soon as a row can be delivered at all.
   */
  lemma InterruptedFailsUseThemUp(maxLength: nat, maxAttempts: nat, producers: nat, consumers: nat, n: nat)
    ensures (exists s, id :: Reachable(maxLength, maxAttempts, producers, consumers, s) && id in s.store.pending && Attempts(s.store, id) == n)
            <==> maxLength >= 1 && producers >= 1 && consumers >= 1
  {
    hide Reachable, Attempts;
    if maxLength >= 1 && producers >= 1 && consumers >= 1 {
      var s := AnyNumberOfAttempts(maxLength, maxAttempts, producers, consumers, n);
      assert 0 in s.store.pending && Attempts(s.store, 0) == n;
    } else {
      forall s | Reachable(maxLength, maxAttempts, producers, consumers, s) ensures s.store.pending == map[] {
        NothingPending(maxLength, maxAttempts, producers, consumers, s);
      }
    }
  }
}
