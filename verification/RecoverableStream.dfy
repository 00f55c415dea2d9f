/**
 * The client object of core/redis_streams.py with its calls run to the end one at a time. Between two
 * calls no pending message has used up its attempts: the call that would use up the last one is the
 * call that writes the dead letter and acknowledges.
 */
module RecoverableStream {
  import opened Wrappers
  import opened RealMath
  import opened RedisStream
  import opened StreamProtocol

  datatype EnqueueResult = Accepted(id: nat) | Duplicate | Backpressure | KeyRequired | Raised | Cancelled

  /** What can go wrong in enqueue once the key is reserved. A cancellation is not an exception it catches. */
  datatype Mishap = XLenFails | XAddFails | XAddReplyLost | CancelledBeforeXAdd

  datatype Message = Message(id: nat, payload: string, attempts: nat)

  function FailTimes(s: Store, id: nat, maxAttempts: nat, n: nat): (t: Store)
    requires StoreOk(s) && id < |s.added|
    ensures StoreOk(t) && id < |t.added| && Grows(s, t)
  {
    if n == 0 then s
    else
      FailOnceKeeps(FailTimes(s, id, maxAttempts, n - 1), id, maxAttempts);
      FailOnce(FailTimes(s, id, maxAttempts, n - 1), id, maxAttempts)
  }

  /**
   * A message whose handler always raises stays pending through maxAttempts - 1 failures and is
   * acknowledged by failure number maxAttempts, with exactly one dead letter that counts them all.
   */
  lemma {:induction false} PoisonMessageIsDeadLettered(s: Store, id: nat, maxAttempts: nat, n: nat)
    requires StoreOk(s) && id in s.pending && Attempts(s, id) == 0 && 1 <= n <= maxAttempts
    ensures var t := FailTimes(s, id, maxAttempts, n);
            if n < maxAttempts then id in t.pending && t.dlq == s.dlq && Attempts(t, id) == n
            else id in t.acked && id !in t.attempts && t.dlq == s.dlq + [LetterFor(s, id, maxAttempts)]
  {
    hide StoreOk, Grows;
    PendingIsARow(s, id);
    var before := FailTimes(s, id, maxAttempts, n - 1);
    if n > 1 { PoisonMessageIsDeadLettered(s, id, maxAttempts, n - 1); }
    SameLetter(s, id, maxAttempts, n - 1);
    assert Attempts(HIncr(before, id), id) == n;
  }

  lemma PendingIsARow(s: Store, id: nat)
    requires StoreOk(s) && id in s.pending
    ensures id < |s.added|
  {}

  /** Failing does not touch the rows, so the letter is the one of the original row. */
  lemma {:induction false} SameLetter(s: Store, id: nat, maxAttempts: nat, n: nat)
    requires StoreOk(s) && id < |s.added|
    ensures FailTimes(s, id, maxAttempts, n).added == s.added && FailTimes(s, id, maxAttempts, n).trimmed == s.trimmed
  {
    hide StoreOk, Grows;
    if n > 0 { SameLetter(s, id, maxAttempts, n - 1); }
  }

  function MessageOf(s: Store, id: nat): Message
    requires id < |s.added|
  {
    Message(id, s.added[id].payload, Attempts(s, id))
  }

  /** m is the row of its id: the payload as it was added, and as many attempts as the hash counts. */
  predicate IsRow(s: Store, m: Message) {
    m.id < |s.added| && m.payload == s.added[m.id].payload && m.attempts == if m.id in s.attempts then s.attempts[m.id] else 0
  }

  /** The messages of those rows that can be decoded, in order. */
  function Decoded(s: Store, ids: seq<nat>): (ms: seq<Message>)
    requires Known(s, ids)
    ensures forall i :: 0 <= i < |ms| ==> ms[i].id in ids && ms[i] == MessageOf(s, ms[i].id) && s.added[ms[i].id].wellFormed
  {
    if ids == [] then []
    else
      var last := ids[|ids| - 1];
      Decoded(s, ids[..|ids| - 1]) + (if s.added[last].wellFormed then [MessageOf(s, last)] else [])
  }

  /**
   * Decoding loses and invents nothing: the messages are the decodable rows, each with its own payload and
   * attempts, and in the order of the rows.
   */
  lemma {:induction false} DecodedExactly(s: Store, ids: seq<nat>)
    requires Known(s, ids)
    ensures forall m :: m in Decoded(s, ids) ==> IsRow(s, m) && s.added[m.id].wellFormed
    ensures IdsOf(Decoded(s, ids)) == DecodableOf(s, ids)
  {
    if ids != [] {
      var before, last := ids[..|ids| - 1], ids[|ids| - 1];
      DecodedExactly(s, before);
      if s.added[last].wellFormed {
        assert IdsOf(Decoded(s, before) + [MessageOf(s, last)]) == IdsOf(Decoded(s, before)) + [last];
      } else {
        assert Decoded(s, before) + [] == Decoded(s, before);
      }
    }
  }

  function IdsOf(ms: seq<Message>): (ids: seq<nat>)
    ensures |ids| == |ms| && forall i :: 0 <= i < |ids| ==> ids[i] == ms[i].id
  {
    seq(|ms|, i requires 0 <= i < |ms| => ms[i].id)
  }

  /** The ids among these whose rows can be decoded, in order. */
  function DecodableOf(s: Store, ids: seq<nat>): seq<nat>
    requires Known(s, ids)
  {
    if ids == [] then []
    else
      var last := ids[|ids| - 1];
      DecodableOf(s, ids[..|ids| - 1]) + (if s.added[last].wellFormed then [last] else [])
  }

  /**
   * The round trip: a payload that was added under an id is what is decoded for that id from any later
   * store, and the row is decoded whenever it is among those read.
   */
  lemma WhatWasAddedIsRead(s: Store, id: nat, payload: string, key: string, t: Store, ids: seq<nat>)
    requires id < |s.added| && s.added[id] == Entry(payload, key, true) && Grows(s, t) && Known(t, ids)
    ensures forall m :: m in Decoded(t, ids) && m.id == id ==> m.payload == payload
    ensures id in ids ==> exists m :: m in Decoded(t, ids) && m.id == id
  {
    DecodedExactly(t, ids);
    if id in ids {
      DecodableHas(t, ids, id);
      var i :| 0 <= i < |IdsOf(Decoded(t, ids))| && IdsOf(Decoded(t, ids))[i] == id;
      assert Decoded(t, ids)[i] in Decoded(t, ids);
    }
  }

  lemma {:induction false} DecodableHas(s: Store, ids: seq<nat>, id: nat)
    requires Known(s, ids) && id in ids && s.added[id].wellFormed
    ensures id in DecodableOf(s, ids)
  {
    var before := ids[..|ids| - 1];
    if id != ids[|ids| - 1] {
      assert ids == before + [ids[|ids| - 1]];
      DecodableHas(s, before, id);
    }
  }

  /** Decoding one row more. */
  lemma DecodedNext(s: Store, ids: seq<nat>, k: nat)
    requires Known(s, ids) && k < |ids|
    ensures Decoded(s, ids[..k + 1]) ==
            Decoded(s, ids[..k]) + (if s.added[ids[k]].wellFormed then [MessageOf(s, ids[k])] else [])
  {
    assert ids[..k + 1][..k] == ids[..k];
  }

  lemma {:induction false} SameDecoded(s: Store, t: Store, ids: seq<nat>)
    requires t.added == s.added && t.attempts == s.attempts && Known(s, ids)
    ensures Known(t, ids) && Decoded(t, ids) == Decoded(s, ids)
  {
    if ids != [] { SameDecoded(s, t, ids[..|ids| - 1]); }
  }

  lemma SameMessage(s: Store, t: Store, id: nat)
    requires id < |s.added| && t.added == s.added && t.attempts == s.attempts
    ensures MessageOf(t, id) == MessageOf(s, id)
  {}

  /** What the client keeps about the server. */
  predicate Kept(s: Store, handled: set<nat>, maxAttempts: nat) {
    StoreOk(s) && Justified(s, handled) && AttemptsLeft(s, maxAttempts)
  }

  predicate HeldBy(s: Store, ids: seq<nat>, consumer: nat) {
    forall i :: 0 <= i < |ids| ==> ids[i] in s.pending && s.pending[ids[i]] == consumer
  }

  lemma ClaimFacts(s: Store, handled: set<nat>, max: nat, consumer: nat, stale: seq<nat>, deleted: set<nat>, count: nat)
    requires Kept(s, handled, max) && Claimable(s, SetOf(stale), deleted)
    ensures var t := XAutoClaim(s, consumer, SetOf(stale), deleted);
            && Kept(t, handled, max) && Grows(s, t) && HeldBy(t, stale, consumer)
            && t.added == s.added && t.attempts == s.attempts && t.acked == s.acked && Fresh(t, count) == Fresh(s, count)
            && t.pending.Keys == s.pending.Keys - deleted == s.pending.Keys - deleted + SetOf(stale) && t.lost == s.lost + deleted
  {
    hide Dead;
    var t := XAutoClaim(s, consumer, SetOf(stale), deleted);
    XAutoClaimKeeps(s, consumer, SetOf(stale), deleted);
    JustifiedStays(s, handled, t, handled);
    forall i | 0 <= i < |stale| ensures stale[i] in t.pending && t.pending[stale[i]] == consumer { assert stale[i] in SetOf(stale); }
  }

  lemma FreshAreBetween(s: Store, count: nat)
    requires s.trimmed <= |s.added| && s.cursor <= |s.added|
    ensures var start := MaxInt(s.cursor, s.trimmed); SetOf(Fresh(s, count)) == Between(start, start + |Fresh(s, count)|)
    ensures forall i, j :: 0 <= i < j < |Fresh(s, count)| ==> Fresh(s, count)[i] != Fresh(s, count)[j]
  {
    var start := MaxInt(s.cursor, s.trimmed);
    var ids := Fresh(s, count);
    forall id: nat | start <= id < start + |ids| ensures id in SetOf(ids) { assert ids[id - start] == id; }
  }

  lemma ReadHandsOut(s: Store, consumer: nat, count: nat)
    requires s.trimmed <= |s.added| && s.cursor <= |s.added|
    ensures var t, ids := XReadGroup(s, consumer, count), Fresh(s, count);
            && HeldBy(t, ids, consumer) && t.pending.Keys == s.pending.Keys + SetOf(ids)
  {
    FreshAreBetween(s, count);
  }

  lemma ReadLeaves(s: Store, consumer: nat, count: nat)
    requires s.trimmed <= |s.added| && s.cursor <= |s.added|
    ensures var t := XReadGroup(s, consumer, count);
            t.added == s.added && t.attempts == s.attempts && t.acked == s.acked && t.lost == s.lost
  {}

  lemma ReadKeeps(s: Store, handled: set<nat>, max: nat, consumer: nat, count: nat)
    requires Kept(s, handled, max) && max >= 1
    ensures Kept(XReadGroup(s, consumer, count), handled, max) && Grows(s, XReadGroup(s, consumer, count))
  {
    hide Dead, Grows, Fresh;
    XReadGroupKeeps(s, consumer, count);
    JustifiedStays(s, handled, XReadGroup(s, consumer, count), handled);
    hide StoreOk, Justified;
  }

  lemma CursorsWithin(s: Store, handled: set<nat>, max: nat)
    requires Kept(s, handled, max)
    ensures s.trimmed <= |s.added| && s.cursor <= |s.added|
  {}

  lemma GrowsItself(s: Store)
    ensures Grows(s, s)
  {}

  lemma GrowsTwice(s: Store, t: Store, u: Store)
    requires Grows(s, t) && Grows(t, u)
    ensures Grows(s, u)
  {}

  lemma AddWithoutTrim(s: Store, e: Entry, handled: set<nat>, max: nat)
    requires Kept(s, handled, max)
    ensures XAdd(s, e, 0) == s.(added := s.added + [e])
    ensures Kept(XAdd(s, e, 0), handled, max)
  {
    XAddKeeps(s, e, 0);
    JustifiedStays(s, handled, XAdd(s, e, 0), handled);
    hide Dead;
  }

  /** Reservations are nothing the rest depends on. */
  lemma ReservingKeeps(s: Store, handled: set<nat>, max: nat, reserved: set<string>)
    requires Kept(s, handled, max)
    ensures Kept(s.(reserved := reserved), handled, max)
  {
    JustifiedStays(s, handled, s.(reserved := reserved), handled);
    hide Dead;
  }

  /** Dead-lettering and acknowledging a row that cannot be decoded. */
  lemma UndecodableFacts(s: Store, handled: set<nat>, max: nat, id: nat)
    requires Kept(s, handled, max) && id in s.pending
    ensures id < |s.added|
    ensures var t := XAck(DeadLetterAdd(s, LetterFor(s, id, 0)), id);
            && Kept(t, handled, max) && Grows(s, t) && Dead(t, id) && t.added == s.added && t.attempts == s.attempts
            && t.pending == s.pending - {id} && t.acked == s.acked + {id}
  {
    hide Dead, LetterFor;
    var noted := DeadLetterAdd(s, LetterFor(s, id, 0));
    HashAndLettersKeep(s, id, LetterFor(s, id, 0));
    LetterMakesDead(s, id, 0);
    XAckKeeps(noted, id);
    DeadStays(noted, XAck(noted, id), id);
    JustifiedStays(s, handled, XAck(noted, id), handled);
    hide StoreOk, Justified;
  }

  lemma AckJustified(s: Store, handled: set<nat>, id: nat)
    requires StoreOk(s) && Justified(s, handled)
    ensures Justified(HDel(XAck(s, id), id), handled) <==> id !in s.pending || id in handled || Dead(s, id)
  {
    var t := HDel(XAck(s, id), id);
    XAckKeeps(s, id);
    forall x ensures Dead(t, x) <==> Dead(s, x) {}
    hide Dead;
    if id in s.pending { assert id in t.acked; }
  }

  /** Where a row just read ends up: with its reader, or with the dead letters. */
  predicate Placed(s: Store, id: nat, consumer: nat) {
    && id < |s.added|
    && if s.added[id].wellFormed then id in s.pending && s.pending[id] == consumer else id in s.acked && Dead(s, id)
  }

  /** Decoding row k places it and leaves the rows before it where they are. */
  lemma PlacedSoFar(s: Store, t: Store, ids: seq<nat>, k: nat, consumer: nat)
    requires k < |ids| && (forall i, j :: 0 <= i < j < |ids| ==> ids[i] != ids[j])
    requires ids[k] in s.pending && s.pending[ids[k]] == consumer && ids[k] < |t.added|
    requires t.added == s.added && Grows(s, t)
    requires if t.added[ids[k]].wellFormed then t == s
             else Dead(t, ids[k]) && t.pending == s.pending - {ids[k]} && t.acked == s.acked + {ids[k]}
    requires forall i :: 0 <= i < k ==> Placed(s, ids[i], consumer)
    ensures forall i :: 0 <= i < k + 1 ==> Placed(t, ids[i], consumer)
  {
    hide Dead, Grows;
    forall i | 0 <= i < k ensures Placed(t, ids[i], consumer) {
      if !s.added[ids[i]].wellFormed { DeadStays(s, t, ids[i]); }
    }
  }

  class Client {
    const maxLength: nat
    const maxAttempts: nat
    var store: Store
    /** Ids whose handler has completed. */
    ghost var handled: set<nat>

    ghost predicate Valid()
      reads this
    {
      && maxLength >= 1 && maxAttempts >= 1
      && Kept(store, handled, maxAttempts)
    }

    constructor (maxLength: nat, maxAttempts: nat)
      requires maxLength >= 1 && maxAttempts >= 1
      ensures Valid() && store == EmptyStore && handled == {}
      ensures this.maxLength == maxLength && this.maxAttempts == maxAttempts
    {
      this.maxLength, this.maxAttempts := maxLength, maxAttempts;
      store, handled := EmptyStore, {};
    }

    /**
     * A refused or failed call leaves the store as it was, except that a lost reply leaves the row behind
     * and a cancellation the reservation.
     */
    method Enqueue(payload: string, key: string, mishap: Option<Mishap>) returns (r: EnqueueResult)
      requires Valid()
      modifies this`store
      ensures Valid()
      ensures r == KeyRequired <==> key == ""
      ensures r == Duplicate <==> key != "" && key in old(store.reserved)
      ensures r == Backpressure <==>
                key != "" && key !in old(store.reserved) && XLen(old(store)) >= maxLength
                && mishap != Some(XLenFails) && mishap != Some(CancelledBeforeXAdd)
      ensures r == Cancelled <==> key != "" && key !in old(store.reserved) && mishap == Some(CancelledBeforeXAdd)
      ensures r.Accepted? <==> key != "" && key !in old(store.reserved) && XLen(old(store)) < maxLength && mishap == None
      ensures r.Accepted? ==> r.id == |old(store.added)| < |store.added| && store.added[r.id] == Entry(payload, key, true)
      ensures Grows(old(store), store)
      ensures var rowAdded := r.Accepted? || (r == Raised && mishap == Some(XAddReplyLost));
              var keyKept := r.Accepted? || r == Cancelled;
              store == old(store).(added := if rowAdded then old(store.added) + [Entry(payload, key, true)] else old(store.added),
                                   reserved := if keyKept then old(store.reserved) + {key} else old(store.reserved))
    {
      hide Kept, XAdd;
      assert store.trimmed <= |store.added| by { CursorsWithin(store, handled, maxAttempts); }
      if key == "" { return KeyRequired; }
      if key in store.reserved { return Duplicate; }
      ghost var free := store.reserved;
      assert free + {key} - {key} == free;
      ReservingKeeps(store, handled, maxAttempts, free + {key});
      store := store.(reserved := store.reserved + {key});
      if mishap == Some(CancelledBeforeXAdd) { return Cancelled; }
      ReservingKeeps(store, handled, maxAttempts, free);
      if mishap == Some(XLenFails) {
        store := store.(reserved := store.reserved - {key});
        return Raised;
      }
      var depth := XLen(store);
      if depth >= maxLength {
        store := store.(reserved := store.reserved - {key});
        return Backpressure;
      }
      if mishap != Some(XAddFails) {
        // Below the limit XADD MAXLEN has nothing to evict.
        assert MostEvicted(store, maxLength) == 0;
        AddWithoutTrim(store, Entry(payload, key, true), handled, maxAttempts);
        store := XAdd(store, Entry(payload, key, true), 0);
      }
      if mishap.Some? {
        assert store.reserved - {key} == free;
        ReservingKeeps(store, handled, maxAttempts, free);
        store := store.(reserved := store.reserved - {key});
        assert store.reserved == old(store).reserved;
        assert mishap.value == XAddFails ==> store == old(store);
        assert mishap.value == XAddReplyLost ==> store == old(store).(added := old(store.added) + [Entry(payload, key, true)]);
        return Raised;
      }
      r := Accepted(|store.added| - 1);
    }

    /** Decodes one row just read. A row that cannot be decoded is dead-lettered and acknowledged at once. */
    method Decode(id: nat) returns (m: Option<Message>)
      requires Valid() && id in store.pending
      modifies this`store
      ensures Valid() && Grows(old(store), store)
      ensures store.added == old(store.added) && store.attempts == old(store.attempts)
      ensures id < |store.added|
      ensures store.added[id].wellFormed ==> m == Some(MessageOf(store, id)) && store == old(store)
      ensures store.added[id].wellFormed ==>
                && m.value.id == id && m.value.payload == store.added[id].payload
                && m.value.attempts == if id in store.attempts then store.attempts[id] else 0
      ensures !store.added[id].wellFormed ==>
                && m == None && Dead(store, id)
                && store.dlq == old(store.dlq) + [DeadLetter(id, store.added[id].payload, if id >= store.trimmed then store.added[id].key else "", 0)]
                && store.pending == old(store.pending) - {id} && store.acked == old(store.acked) + {id}
    {
      if store.added[id].wellFormed {
        return Some(Message(id, store.added[id].payload, Attempts(store, id)));
      }
      UndecodableFacts(store, handled, maxAttempts, id);
      hide Dead, Kept, Grows, XAck, DeadLetterAdd;
      store := DeadLetterAdd(store, LetterFor(store, id, 0));
      store := XAck(store, id);
      m := None;
    }

    /**
     * Claims stale messages, or takes new ones when there are none to claim; all are then this consumer's.
     * The claim also drops pending messages whose rows were trimmed.
     */
    method Fetch(consumer: nat, count: nat, stale: seq<nat>, deleted: set<nat>) returns (ids: seq<nat>)
      requires Valid() && Claimable(store, SetOf(stale), deleted)
      modifies this`store
      ensures Valid() && Grows(old(store), store)
      ensures store.added == old(store.added) && store.attempts == old(store.attempts) && store.acked == old(store.acked)
      ensures ids == if stale != [] then stale else Fresh(old(store), count)
      ensures HeldBy(store, ids, consumer)
      ensures forall i, j :: 0 <= i < j < |ids| && stale == [] ==> ids[i] != ids[j]
      ensures store.pending.Keys == old(store.pending).Keys - deleted + SetOf(ids) && store.lost == old(store.lost) + deleted
    {
      hide Kept, Claimable, Grows, XReadGroup, XAutoClaim, SetOf, HeldBy;
      assert store.trimmed <= |store.added| && store.cursor <= |store.added| by { CursorsWithin(store, handled, maxAttempts); }
      hide Fresh;
      ClaimFacts(store, handled, maxAttempts, consumer, stale, deleted, count);
      FreshAreBetween(store, count);
      store := XAutoClaim(store, consumer, SetOf(stale), deleted);
      ids := stale;
      if stale == [] {
        CursorsWithin(store, handled, maxAttempts);
        ReadHandsOut(store, consumer, count);
        ReadKeeps(store, handled, maxAttempts, consumer, count);
        ReadLeaves(store, consumer, count);
        GrowsTwice(old(store), store, XReadGroup(store, consumer, count));
        ids := Fresh(store, count);
        store := XReadGroup(store, consumer, count);
      }
    }

    /** The decoding loop of read, over rows this consumer has just been given. */
    method DecodeAll(consumer: nat, ids: seq<nat>) returns (messages: seq<Message>)
      requires Valid()
      requires HeldBy(store, ids, consumer)
      requires forall i, j :: 0 <= i < j < |ids| ==> ids[i] != ids[j]
      modifies this`store
      ensures Valid() && store.added == old(store.added) && Grows(old(store), store)
      ensures Known(old(store), ids) && messages == Decoded(old(store), ids)
      ensures (forall m :: m in messages ==> IsRow(old(store), m)) && IdsOf(messages) == DecodableOf(old(store), ids)
      ensures forall i :: 0 <= i < |ids| ==> Placed(store, ids[i], consumer)
    {
      messages := [];
      ghost var start := store;
      assert Known(start, ids);
      GrowsItself(start);
      DecodedExactly(start, ids);
      hide Dead, Grows, Justified, AttemptsLeft, StoreOk, MessageOf, IsRow, IdsOf, DecodableOf, Placed;
      for k := 0 to |ids|
        invariant Valid() && store.added == start.added && store.attempts == start.attempts && Grows(start, store)
        invariant messages == Decoded(start, ids[..k])
        invariant forall i :: k <= i < |ids| ==> ids[i] in store.pending && store.pending[ids[i]] == consumer
        invariant forall i :: 0 <= i < k ==> Placed(store, ids[i], consumer)
      {
        DecodedNext(start, ids, k);
        ghost var met := store;
        var m := Decode(ids[k]);
        GrowsTwice(start, met, store);
        SameMessage(start, store, ids[k]);
        if m.Some? { messages := messages + [m.value]; }
        PlacedSoFar(met, store, ids, k, consumer);
      }
      assert ids[..|ids|] == ids;
    }

    /**
     * Claims stale messages, or takes new ones, and decodes them. Returned are the decodable rows in
     * order, still pending with this consumer; all others are dead-lettered and acknowledged.
     */
    method Read(consumer: nat, count: nat, stale: seq<nat>, deleted: set<nat>) returns (messages: seq<Message>)
      requires Valid()
      requires Claimable(store, SetOf(stale), deleted) && (forall i, j :: 0 <= i < j < |stale| ==> stale[i] != stale[j])
      modifies this`store
      ensures Valid() && store.added == old(store.added) && Grows(old(store), store)
      ensures forall m :: m in messages ==> IsRow(old(store), m)
      ensures var ids: seq<nat> := if stale != [] then stale else Fresh(old(store), count);
              && Known(old(store), ids) && messages == Decoded(old(store), ids)
              && IdsOf(messages) == DecodableOf(old(store), ids)
              && (forall i :: 0 <= i < |ids| ==> Placed(store, ids[i], consumer))
    {
      hide Dead, Grows, Justified, StoreOk;
      var ids := Fetch(consumer, count, stale, deleted);
      ghost var fetched := store;
      messages := DecodeAll(consumer, ids);
      SameDecoded(old(store), fetched, ids);
      DecodedExactly(old(store), ids);
      GrowsTwice(old(store), fetched, store);
    }

    /** The worker's handler for this message returned without raising. */
    ghost method Complete(id: nat)
      requires Valid() && id < |store.added|
      modifies this`handled
      ensures Valid() && handled == old(handled) + {id}
    {
      handled := handled + {id};
    }

    /**
     * Acknowledges a message, whichever it is. Nothing unjustified is acknowledged when the message's
     * handler has completed, as the worker sees to, or its dead letter was written.
     */
    method Ack(id: nat) returns (acknowledged: bool)
      requires Valid()
      modifies this`store
      ensures store == HDel(XAck(old(store), id), id)
      ensures acknowledged <==> id in old(store.pending)
      ensures acknowledged ==> id in store.acked && id !in store.pending
      ensures StoreOk(store) && AttemptsLeft(store, maxAttempts) && Grows(old(store), store)
      ensures Valid() <==> id !in old(store.pending) || id in handled || Dead(old(store), id)
    {
      ghost var before := store;
      XAckKeeps(store, id);
      HashAndLettersKeep(XAck(store, id), id, DeadLetter(id, "", "", 0));
      AckJustified(store, handled, id);
      acknowledged := id in store.pending;
      store := XAck(store, id);
      store := HDel(store, id);
      hide StoreOk, Justified, Dead, Grows;
    }

    /** Records a failure of a message that was read; at the limit the message is dead-lettered and acknowledged. */
    method Fail(id: nat) returns (attempts: nat)
      requires Valid() && id < store.cursor
      modifies this`store
      ensures Valid()
      ensures store == FailOnce(old(store), id, maxAttempts)
      ensures attempts == Attempts(old(store), id) + 1
      ensures id in store.pending <==> id in old(store.pending) && attempts < maxAttempts
      ensures attempts >= maxAttempts ==> Dead(store, id) && id !in store.attempts
      ensures attempts < maxAttempts ==> store == old(store).(attempts := old(store.attempts)[id := attempts])
      ensures Grows(old(store), store)
      ensures id < |store.added|
      ensures attempts >= maxAttempts ==>
                var key := if id >= store.trimmed then store.added[id].key else "";
                store.dlq == old(store.dlq) + [DeadLetter(id, store.added[id].payload, key, attempts)]
    {
      FailOnceKeeps(store, id, maxAttempts);
      JustifiedStays(store, handled, FailOnce(store, id, maxAttempts), handled);
      store := HIncr(store, id);
      attempts := Attempts(store, id);
      if attempts < maxAttempts { return; }
      var letter := LetterFor(store, id, attempts);
      LetterMakesDead(store, id, attempts);
      DeadStays(DeadLetterAdd(store, letter), FailOnce(old(store), id, maxAttempts), id);
      store := DeadLetterAdd(store, letter);
      store := XAck(store, id);
      store := HDel(store, id);
    }
  }
}
