/**
 * Producers and consumers of core/redis_streams.py interleaved command by command. Any of them can
 * crash between two commands, claims can take a message from a live consumer, reservations can
 * expire, and a reply can get lost. Nothing acknowledged was neither handled nor dead-lettered.
 */
module StreamProtocol {
  import opened Wrappers
  import opened RedisStream

  /** Where a call of enqueue stands. */
  datatype Producer =
    | Free
    | Holding(e: Entry)      // SET NX won; XLEN comes next
    | Admitted(e: Entry, resent: bool) // depth was below the limit; XADD comes next, or has timed out once
    | GivingBack(key: string) // backpressure or an exception; DEL comes next

  /** Where a worker stands: reading, decoding what it read, and one command at a time with ready[0]. */
  datatype Consumer =
    | Idle
    | Decoding(todo: seq<nat>, ready: seq<nat>)
    | InvalidNoted(todo: seq<nat>, ready: seq<nat>)
    | Handling(ready: seq<nat>)
    | Succeeded(ready: seq<nat>)
    | Acked(ready: seq<nat>)
    | Failed(ready: seq<nat>)
    | Exhausted(ready: seq<nat>, attempts: nat)
    | LetterWritten(ready: seq<nat>)
    | LetterAcked(ready: seq<nat>)

  /**
   * handled, tainted and resent are histories: whose handler completed, which keys had a reservation
   * expire or a reply get lost, and how many XADDs were executed but timed out and so were sent again.
   */
  datatype System = System(
    store: Store, maxLength: nat, maxAttempts: nat,
    producers: seq<Producer>, consumers: seq<Consumer>, handled: set<nat>, tainted: set<string>, resent: nat)

  /**
   * The client sends a command that times out a second time. XADD, DEL and HINCRBY do not mean the same
   * twice, so a first execution whose reply came too late is a step of its own. A SET NX, a read or a claim
   * sent twice looks like a crash after the first; XLEN, XACK and HDEL sent twice are as good as once.
   */
  datatype ProducerAction =
    | Reserve(e: Entry) | Depth | Add(evicted: nat) | AddTimesOut(evicted: nat) | CommandFails | AddReplyLost(evicted: nat)
    | Release | ReleaseTimesOut | ProducerCrash

  datatype ConsumerAction =
    | Claim(ids: seq<nat>, deleted: set<nat>) | ReadNew(count: nat) | DecodeNext | DecodeTimesOut | AckInvalid
    | HandlerCompletes | HandlerRaises | LeavePending | Acknowledge | CleanUp
    | CountFailure | CountTimesOut | WriteLetter | LetterTimesOut | AckLetter | CleanUpLetter | CallRaises | ConsumerCrash

  datatype Action =
    | Produce(i: nat, p: ProducerAction)
    | Consume(j: nat, c: ConsumerAction)
    | KeyExpires(key: string)
    | AttemptsExpire

  // ---- Producers ----

  function HeldKey(p: Producer): Option<string> {
    match p
    case Free => None
    case Holding(e) => Some(e.key)
    case Admitted(e, _) => Some(e.key)
    case GivingBack(key) => Some(key)
  }

  predicate MayEvict(s: System, n: nat) { n <= MostEvicted(s.store, s.maxLength) && n <= |s.store.added| - s.store.trimmed }

  /** One command of enqueue. An action that does not fit where the producer stands changes nothing. */
  function ProducerStep(s: System, i: nat, a: ProducerAction): System
    requires i < |s.producers| && s.store.trimmed <= |s.store.added|
  {
    var p := s.producers[i];
    match a
    case Reserve(e) =>
      if p != Free || e.key == "" || e.key in s.store.reserved then s
      else s.(store := s.store.(reserved := s.store.reserved + {e.key}), producers := s.producers[i := Holding(e)])
    case Depth =>
      if !p.Holding? then s
      else s.(producers := s.producers[i := if XLen(s.store) >= s.maxLength then GivingBack(p.e.key) else Admitted(p.e, false)])
    case Add(evicted) =>
      if !p.Admitted? || !MayEvict(s, evicted) then s
      else s.(store := XAdd(s.store, p.e, evicted), producers := s.producers[i := Free])
    case AddTimesOut(evicted) =>
      if !p.Admitted? || p.resent || !MayEvict(s, evicted) then s
      else s.(store := XAdd(s.store, p.e, evicted), producers := s.producers[i := Admitted(p.e, true)],
              tainted := s.tainted + {p.e.key}, resent := s.resent + 1)
    case CommandFails =>
      if p.Holding? || p.Admitted? then s.(producers := s.producers[i := GivingBack(p.e.key)]) else s
    case AddReplyLost(evicted) =>
      if !p.Admitted? || !MayEvict(s, evicted) then s
      else s.(store := XAdd(s.store, p.e, evicted), producers := s.producers[i := GivingBack(p.e.key)],
              tainted := s.tainted + {p.e.key})
    case Release =>
      if !p.GivingBack? then s
      else s.(store := s.store.(reserved := s.store.reserved - {p.key}), producers := s.producers[i := Free])
    case ReleaseTimesOut =>
      if !p.GivingBack? then s
      else s.(store := s.store.(reserved := s.store.reserved - {p.key}), tainted := s.tainted + {p.key})
    case ProducerCrash => s.(producers := s.producers[i := Free])
  }

  // ---- Consumers ----

  function Resume(ready: seq<nat>): Consumer {
    if ready == [] then Idle else Handling(ready)
  }

  /** An exception in ack counts as a failure of the message; one in fail leaves the message as it is. */
  function AfterException(c: Consumer): Consumer {
    if c.Succeeded? || c.Acked? then Failed(c.ready)
    else if (c.Failed? || c.Exhausted? || c.LetterWritten? || c.LetterAcked?) && c.ready != [] then Resume(c.ready[1..])
    else Idle
  }

  function Taken(ids: seq<nat>): Consumer { if ids == [] then Idle else Decoding(ids, []) }

  function SetOf(ids: seq<nat>): set<nat> { set i | i in ids }

  datatype Moved = Moved(store: Store, handled: set<nat>, consumer: Consumer)

  /** One command of read, ack or fail, or the end of a handler. */
  function Move(s: Store, handled: set<nat>, maxAttempts: nat, name: nat, c: Consumer, a: ConsumerAction): Moved
    requires StoreOk(s)
  {
    var stay := Moved(s, handled, c);
    match a
    case Claim(ids, deleted) =>
      if c != Idle || !Claimable(s, SetOf(ids), deleted) then stay
      else Moved(XAutoClaim(s, name, SetOf(ids), deleted), handled, Taken(ids))
    case ReadNew(count) =>
      if c != Idle then stay else Moved(XReadGroup(s, name, count), handled, Taken(Fresh(s, count)))
    case DecodeNext =>
      if !c.Decoding? then stay
      else if c.todo == [] then Moved(s, handled, Resume(c.ready))
      else if c.todo[0] >= |s.added| then stay
      else if s.added[c.todo[0]].wellFormed then Moved(s, handled, Decoding(c.todo[1..], c.ready + [c.todo[0]]))
      else Moved(DeadLetterAdd(s, LetterFor(s, c.todo[0], 0)), handled, InvalidNoted(c.todo, c.ready))
    case DecodeTimesOut =>
      if !c.Decoding? || c.todo == [] || c.todo[0] >= |s.added| || s.added[c.todo[0]].wellFormed then stay
      else Moved(DeadLetterAdd(s, LetterFor(s, c.todo[0], 0)), handled, c)
    case AckInvalid =>
      if !c.InvalidNoted? || c.todo == [] then stay
      else Moved(XAck(s, c.todo[0]), handled, Decoding(c.todo[1..], c.ready))
    case HandlerCompletes =>
      if !c.Handling? || c.ready == [] then stay else Moved(s, handled + {c.ready[0]}, Succeeded(c.ready))
    case HandlerRaises =>
      if !c.Handling? || c.ready == [] then stay else Moved(s, handled, Failed(c.ready))
    case LeavePending =>
      if !c.Handling? || c.ready == [] then stay else Moved(s, handled, Resume(c.ready[1..]))
    case Acknowledge =>
      if !c.Succeeded? || c.ready == [] then stay else Moved(XAck(s, c.ready[0]), handled, Acked(c.ready))
    case CleanUp =>
      if !c.Acked? || c.ready == [] then stay else Moved(HDel(s, c.ready[0]), handled, Resume(c.ready[1..]))
    case CountFailure =>
      if !c.Failed? || c.ready == [] then stay
      else
        var attempts := Attempts(s, c.ready[0]) + 1;
        Moved(HIncr(s, c.ready[0]), handled,
              if attempts < maxAttempts then Resume(c.ready[1..]) else Exhausted(c.ready, attempts))
    case CountTimesOut =>
      if !c.Failed? || c.ready == [] then stay else Moved(HIncr(s, c.ready[0]), handled, c)
    case WriteLetter =>
      if !c.Exhausted? || c.ready == [] || c.ready[0] >= |s.added| then stay
      else Moved(DeadLetterAdd(s, LetterFor(s, c.ready[0], c.attempts)), handled, LetterWritten(c.ready))
    case LetterTimesOut =>
      if !c.Exhausted? || c.ready == [] || c.ready[0] >= |s.added| then stay
      else Moved(DeadLetterAdd(s, LetterFor(s, c.ready[0], c.attempts)), handled, c)
    case AckLetter =>
      if !c.LetterWritten? || c.ready == [] then stay else Moved(XAck(s, c.ready[0]), handled, LetterAcked(c.ready))
    case CleanUpLetter =>
      if !c.LetterAcked? || c.ready == [] then stay else Moved(HDel(s, c.ready[0]), handled, Resume(c.ready[1..]))
    case CallRaises => Moved(s, handled, AfterException(c))
    case ConsumerCrash => Moved(s, handled, Idle)
  }

  function ConsumerStep(s: System, j: nat, a: ConsumerAction): System
    requires j < |s.consumers| && StoreOk(s.store)
  {
    var m := Move(s.store, s.handled, s.maxAttempts, j, s.consumers[j], a);
    s.(store := m.store, handled := m.handled, consumers := s.consumers[j := m.consumer])
  }

  // ---- Runs ----

  function Step(s: System, a: Action): System
    requires StoreOk(s.store)
  {
    match a
    case Produce(i, p) => if i < |s.producers| then ProducerStep(s, i, p) else s
    case Consume(j, c) => if j < |s.consumers| then ConsumerStep(s, j, c) else s
    case KeyExpires(key) =>
      if key in s.store.reserved
      then s.(store := s.store.(reserved := s.store.reserved - {key}), tainted := s.tainted + {key})
      else s
    case AttemptsExpire => s.(store := s.store.(attempts := map[]))
  }

  function Start(maxLength: nat, maxAttempts: nat, producers: nat, consumers: nat): System {
    System(EmptyStore, maxLength, maxAttempts, seq(producers, _ => Free), seq(consumers, _ => Idle), {}, {}, 0)
  }

  // ---- No loss ----

  predicate Known(s: Store, ids: seq<nat>) { forall i :: 0 <= i < |ids| ==> ids[i] < |s.added| }

  predicate ConsumerOk(s: Store, handled: set<nat>, c: Consumer) {
    match c
    case Idle => true
    case Decoding(todo, ready) => Known(s, todo) && Known(s, ready)
    case InvalidNoted(todo, ready) => todo != [] && Known(s, todo) && Known(s, ready) && Dead(s, todo[0])
    case Handling(ready) => Known(s, ready)
    case Succeeded(ready) => ready != [] && Known(s, ready) && ready[0] in handled
    case Acked(ready) => Known(s, ready)
    case Failed(ready) => Known(s, ready)
    case Exhausted(ready, _) => Known(s, ready)
    case LetterWritten(ready) => ready != [] && Known(s, ready) && Dead(s, ready[0])
    case LetterAcked(ready) => Known(s, ready)
  }

  /** An acknowledged row was handled to the end, or a dead letter carries its payload. */
  predicate Justified(s: Store, handled: set<nat>) {
    forall id :: id in s.acked ==> id in handled || Dead(s, id)
  }

  predicate Inv(s: System) {
    && StoreOk(s.store)
    && Justified(s.store, s.handled)
    && (forall j :: 0 <= j < |s.consumers| ==> ConsumerOk(s.store, s.handled, s.consumers[j]))
  }

  lemma ConsumerOkStays(s: Store, handled: set<nat>, t: Store, handled': set<nat>, c: Consumer)
    requires ConsumerOk(s, handled, c) && Grows(s, t) && handled <= handled'
    ensures ConsumerOk(t, handled', c)
  {}

  lemma JustifiedStays(s: Store, handled: set<nat>, t: Store, handled': set<nat>)
    requires Justified(s, handled) && Grows(s, t) && handled <= handled'
    requires forall id :: id in t.acked ==> id in s.acked || id in handled' || Dead(t, id)
    ensures Justified(t, handled')
  {}

  /** What one move of a consumer guarantees about the server and about itself. */
  predicate MoveOk(s: Store, handled: set<nat>, m: Moved) {
    && StoreOk(m.store) && Grows(s, m.store) && handled <= m.handled
    && Justified(m.store, m.handled) && ConsumerOk(m.store, m.handled, m.consumer)
  }

  lemma ReadingMoves(s: Store, handled: set<nat>, max: nat, name: nat, c: Consumer, a: ConsumerAction)
    requires StoreOk(s) && Justified(s, handled) && ConsumerOk(s, handled, c)
    requires a.Claim? || a.ReadNew?
    ensures MoveOk(s, handled, Move(s, handled, max, name, c, a))
  {
    hide Dead;
    var m := Move(s, handled, max, name, c, a);
    match a
    case Claim(ids, deleted) =>
      if c == Idle && Claimable(s, SetOf(ids), deleted) {
        XAutoClaimKeeps(s, name, SetOf(ids), deleted);
        forall i | 0 <= i < |ids| ensures ids[i] < |s.added| { assert ids[i] in SetOf(ids); }
      }
      JustifiedStays(s, handled, m.store, m.handled);
    case ReadNew(count) =>
      XReadGroupKeeps(s, name, count);
      JustifiedStays(s, handled, m.store, m.handled);
  }

  lemma DecodingMoves(s: Store, handled: set<nat>, max: nat, name: nat, c: Consumer, a: ConsumerAction)
    requires StoreOk(s) && Justified(s, handled) && ConsumerOk(s, handled, c)
    requires a.DecodeNext? || a.DecodeTimesOut? || a.AckInvalid?
    ensures MoveOk(s, handled, Move(s, handled, max, name, c, a))
  {
    hide Dead, StoreOk, LetterFor;
    var m := Move(s, handled, max, name, c, a);
    if c.Decoding? && c.todo != [] {
      HashAndLettersKeep(s, c.todo[0], LetterFor(s, c.todo[0], 0));
      LetterMakesDead(s, c.todo[0], 0);
    }
    if c.InvalidNoted? {
      XAckKeeps(s, c.todo[0]);
      DeadStays(s, XAck(s, c.todo[0]), c.todo[0]);
    }
    JustifiedStays(s, handled, m.store, m.handled);
  }

  lemma HandlingMoves(s: Store, handled: set<nat>, max: nat, name: nat, c: Consumer, a: ConsumerAction)
    requires StoreOk(s) && Justified(s, handled) && ConsumerOk(s, handled, c)
    requires a.HandlerCompletes? || a.HandlerRaises? || a.LeavePending? || a.Acknowledge? || a.CleanUp? || a.ConsumerCrash?
    ensures MoveOk(s, handled, Move(s, handled, max, name, c, a))
  {
    hide Dead, StoreOk, LetterFor;
    var m := Move(s, handled, max, name, c, a);
    if c.Succeeded? { XAckKeeps(s, c.ready[0]); }
    if c.Acked? && c.ready != [] { HashAndLettersKeep(s, c.ready[0], LetterFor(s, c.ready[0], 0)); }
    JustifiedStays(s, handled, m.store, m.handled);
  }

  lemma RaisingMoves(s: Store, handled: set<nat>, max: nat, name: nat, c: Consumer)
    requires StoreOk(s) && Justified(s, handled) && ConsumerOk(s, handled, c)
    ensures MoveOk(s, handled, Move(s, handled, max, name, c, CallRaises))
  {
    hide Dead, Justified, StoreOk;
  }

  lemma CountingMoves(s: Store, handled: set<nat>, max: nat, name: nat, c: Consumer, a: ConsumerAction)
    requires StoreOk(s) && Justified(s, handled) && ConsumerOk(s, handled, c)
    requires a.CountFailure? || a.CountTimesOut? || a.CleanUpLetter?
    ensures MoveOk(s, handled, Move(s, handled, max, name, c, a))
  {
    hide Dead, StoreOk, LetterFor;
    var m := Move(s, handled, max, name, c, a);
    if (c.Failed? || c.LetterAcked?) && c.ready != [] {
      HashAndLettersKeep(s, c.ready[0], LetterFor(s, c.ready[0], 0));
    }
    JustifiedStays(s, handled, m.store, m.handled);
  }

  lemma LetterMoves(s: Store, handled: set<nat>, max: nat, name: nat, c: Consumer, a: ConsumerAction)
    requires StoreOk(s) && Justified(s, handled) && ConsumerOk(s, handled, c)
    requires a.WriteLetter? || a.LetterTimesOut? || a.AckLetter?
    ensures MoveOk(s, handled, Move(s, handled, max, name, c, a))
  {
    hide Dead, StoreOk, LetterFor;
    var m := Move(s, handled, max, name, c, a);
    if c.Exhausted? && c.ready != [] {
      HashAndLettersKeep(s, c.ready[0], LetterFor(s, c.ready[0], c.attempts));
      LetterMakesDead(s, c.ready[0], c.attempts);
    }
    if c.LetterWritten? {
      XAckKeeps(s, c.ready[0]);
      DeadStays(s, XAck(s, c.ready[0]), c.ready[0]);
    }
    JustifiedStays(s, handled, m.store, m.handled);
  }

  lemma ConsumerStepKeepsInv(s: System, j: nat, a: ConsumerAction)
    requires Inv(s) && j < |s.consumers|
    ensures Inv(ConsumerStep(s, j, a))
  {
    hide StoreOk, Justified, ConsumerOk, Move, Grows;
    var c := s.consumers[j];
    match a {
      case Claim(_, _) => ReadingMoves(s.store, s.handled, s.maxAttempts, j, c, a);
      case ReadNew(_) => ReadingMoves(s.store, s.handled, s.maxAttempts, j, c, a);
      case DecodeNext => DecodingMoves(s.store, s.handled, s.maxAttempts, j, c, a);
      case DecodeTimesOut => DecodingMoves(s.store, s.handled, s.maxAttempts, j, c, a);
      case AckInvalid => DecodingMoves(s.store, s.handled, s.maxAttempts, j, c, a);
      case CountFailure => CountingMoves(s.store, s.handled, s.maxAttempts, j, c, a);
      case CountTimesOut => CountingMoves(s.store, s.handled, s.maxAttempts, j, c, a);
      case WriteLetter => LetterMoves(s.store, s.handled, s.maxAttempts, j, c, a);
      case LetterTimesOut => LetterMoves(s.store, s.handled, s.maxAttempts, j, c, a);
      case AckLetter => LetterMoves(s.store, s.handled, s.maxAttempts, j, c, a);
      case CleanUpLetter => CountingMoves(s.store, s.handled, s.maxAttempts, j, c, a);
      case CallRaises => RaisingMoves(s.store, s.handled, s.maxAttempts, j, c);
      case _ => HandlingMoves(s.store, s.handled, s.maxAttempts, j, c, a);
    }
    var m := Move(s.store, s.handled, s.maxAttempts, j, c, a);
    forall k | 0 <= k < |s.consumers| && k != j ensures ConsumerOk(m.store, m.handled, s.consumers[k]) {
      ConsumerOkStays(s.store, s.handled, m.store, m.handled, s.consumers[k]);
    }
  }

  lemma StoreChangeKeepsInv(s: System, t: System)
    requires Inv(s) && StoreOk(t.store) && Grows(s.store, t.store)
    requires t.store.acked == s.store.acked && t.handled == s.handled && t.consumers == s.consumers
    ensures Inv(t)
  {
    hide StoreOk, Dead, ConsumerOk;
    JustifiedStays(s.store, s.handled, t.store, t.handled);
    forall k | 0 <= k < |t.consumers| ensures ConsumerOk(t.store, t.handled, t.consumers[k]) {
      ConsumerOkStays(s.store, s.handled, t.store, t.handled, s.consumers[k]);
    }
  }

  lemma ProducerStepKeepsInv(s: System, i: nat, a: ProducerAction)
    requires Inv(s) && i < |s.producers|
    ensures Inv(ProducerStep(s, i, a))
  {
    var p := s.producers[i];
    hide Justified, ConsumerOk, MostEvicted;
    if p.Admitted? {
      match a
      case Add(evicted) => if MayEvict(s, evicted) { XAddKeeps(s.store, p.e, evicted); }
      case AddTimesOut(evicted) => if MayEvict(s, evicted) { XAddKeeps(s.store, p.e, evicted); }
      case AddReplyLost(evicted) => if MayEvict(s, evicted) { XAddKeeps(s.store, p.e, evicted); }
      case _ =>
    }
    StoreChangeKeepsInv(s, ProducerStep(s, i, a));
  }

  lemma StepKeepsInv(s: System, a: Action)
    requires Inv(s)
    ensures Inv(Step(s, a))
  {
    hide Justified, ConsumerOk, ProducerStep, ConsumerStep;
    match a
    case Produce(i, p) => if i < |s.producers| { ProducerStepKeepsInv(s, i, p); }
    case Consume(j, c) => if j < |s.consumers| { ConsumerStepKeepsInv(s, j, c); }
    case _ => StoreChangeKeepsInv(s, Step(s, a));
  }

  lemma StartIsSafe(maxLength: nat, maxAttempts: nat, producers: nat, consumers: nat)
    ensures Inv(Start(maxLength, maxAttempts, producers, consumers))
  {}

  /** The state after any sequence of actions; it is safe because every step keeps the invariant. */
  ghost function Run(s: System, actions: seq<Action>): (t: System)
    requires Inv(s)
    ensures Inv(t)
  {
    if actions == [] then s
    else
      var before := Run(s, actions[..|actions| - 1]);
      StepKeepsInv(before, actions[|actions| - 1]);
      Step(before, actions[|actions| - 1])
  }

  ghost function From(maxLength: nat, maxAttempts: nat, producers: nat, consumers: nat, actions: seq<Action>): (t: System)
    ensures Inv(t)
  {
    StartIsSafe(maxLength, maxAttempts, producers, consumers);
    Run(Start(maxLength, maxAttempts, producers, consumers), actions)
  }

  /**
   * No loss: after any interleaving each row ever added is in exactly one place, and an acknowledged
   * row was handled to the end or has a dead letter with its payload. Only trimming loses a row.
   */
  lemma NoLoss(maxLength: nat, maxAttempts: nat, producers: nat, consumers: nat, actions: seq<Action>, id: nat)
    requires id < |From(maxLength, maxAttempts, producers, consumers, actions).store.added|
    ensures var s := From(maxLength, maxAttempts, producers, consumers, actions);
            && Places(s.store, id) == 1
            && (id in s.store.acked ==> id in s.handled || Dead(s.store, id))
            && (id in s.store.lost ==> id < s.store.trimmed)
  {}
}
