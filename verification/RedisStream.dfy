/**
 * The part of a Redis server that core/redis_streams.py talks to: one stream with one consumer
 * group, the attempts hash, the reservation keys and the dead-letter stream. Every function is
 * one command, atomic on the server.
 */
module RedisStream {
  import opened RealMath

  /** A stream row. wellFormed says whether the reader can decode it. */
  datatype Entry = Entry(payload: string, key: string, wellFormed: bool)

  datatype DeadLetter = DeadLetter(source: nat, payload: string, key: string, attempts: nat)

  /**
   * added is every row ever added, and a row's id is its place there; the stream holds the rows from
   * `trimmed` on. Rows from `cursor` on were not delivered yet. acked, lost and dlq are histories: what
   * was acknowledged, what trimming took away unacknowledged, and every dead letter ever written.
   */
  datatype Store = Store(
    added: seq<Entry>, trimmed: nat, cursor: nat, pending: map<nat, nat>, acked: set<nat>, lost: set<nat>,
    attempts: map<nat, nat>, dlq: seq<DeadLetter>, reserved: set<string>)

  const EmptyStore := Store([], 0, 0, map[], {}, {}, map[], [], {})

  /** The ids from low up to, not including, high. */
  function Between(low: nat, high: nat): (ids: set<nat>)
    ensures forall id: nat :: id in ids <==> low <= id < high
  {
    if low >= high then {} else Between(low, high - 1) + {high - 1}
  }

  function XLen(s: Store): int { |s.added| - s.trimmed }

  /** How many rows XADD MAXLEN ~ n may evict: never so many that fewer than n stay. */
  function MostEvicted(s: Store, maxLength: nat): nat {
    if XLen(s) + 1 > maxLength then XLen(s) + 1 - maxLength else 0
  }

  /** XADD with approximate trimming; an evicted row that was never delivered is lost. */
  function XAdd(s: Store, e: Entry, evicted: nat): Store
    requires evicted <= |s.added| - s.trimmed
  {
    s.(added := s.added + [e], trimmed := s.trimmed + evicted,
       lost := s.lost + Between(MaxInt(s.cursor, s.trimmed), s.trimmed + evicted))
  }

  /** Ids XREADGROUP would hand out. */
  function Fresh(s: Store, count: nat): (ids: seq<nat>)
    requires s.trimmed <= |s.added| && s.cursor <= |s.added|
  {
    var start := MaxInt(s.cursor, s.trimmed);
    seq(MinInt(count, |s.added| - start), i requires 0 <= i => start + i)
  }

  function GivenTo(ids: set<nat>, consumer: nat): map<nat, nat> { map id | id in ids :: consumer }

  function XReadGroup(s: Store, consumer: nat, count: nat): Store
    requires s.trimmed <= |s.added| && s.cursor <= |s.added|
  {
    var start := MaxInt(s.cursor, s.trimmed);
    var n := MinInt(count, |s.added| - start);
    if n == 0 then s
    else s.(cursor := start + n,
            pending := s.pending + GivenTo(Between(start, start + n), consumer))
  }

  /** XAUTOCLAIM: `claimed` change their consumer, `deleted` were trimmed away and leave the pending list. */
  function XAutoClaim(s: Store, consumer: nat, claimed: set<nat>, deleted: set<nat>): Store {
    s.(pending := (map id | id in s.pending && id !in deleted :: if id in claimed then consumer else s.pending[id]),
       lost := s.lost + deleted)
  }

  predicate Claimable(s: Store, claimed: set<nat>, deleted: set<nat>) {
    && claimed <= s.pending.Keys && deleted <= s.pending.Keys
    && (forall id :: id in claimed ==> id >= s.trimmed)
    && (forall id :: id in deleted ==> id < s.trimmed)
  }

  function XAck(s: Store, id: nat): Store {
    if id in s.pending then s.(pending := s.pending - {id}, acked := s.acked + {id}) else s
  }

  function Attempts(s: Store, id: nat): nat { if id in s.attempts then s.attempts[id] else 0 }

  function HIncr(s: Store, id: nat): Store { s.(attempts := s.attempts[id := Attempts(s, id) + 1]) }

  function HDel(s: Store, id: nat): Store { s.(attempts := s.attempts - {id}) }

  function DeadLetterAdd(s: Store, d: DeadLetter): Store { s.(dlq := s.dlq + [d]) }

  /** The dead letter of a row: from the stream while it is there, from the decoded message afterwards. */
  function LetterFor(s: Store, id: nat, attempts: nat): DeadLetter
    requires id < |s.added|
  {
    DeadLetter(id, s.added[id].payload, if id >= s.trimmed then s.added[id].key else "", attempts)
  }

  // ---- Where a row is ----

  predicate Undelivered(s: Store, id: nat) { MaxInt(s.cursor, s.trimmed) <= id < |s.added| }

  /** Every row ever added is in exactly one place. */
  predicate StoreOk(s: Store) {
    && s.trimmed <= |s.added| && s.cursor <= |s.added|
    && (forall id :: id in s.pending ==> id < s.cursor && id !in s.acked && id !in s.lost)
    && (forall id :: id in s.acked ==> id < s.cursor && id !in s.lost)
    && (forall id :: id in s.lost ==> id < s.trimmed)
    && (forall id: nat :: id < |s.added| ==> Undelivered(s, id) || id in s.pending || id in s.acked || id in s.lost)
  }

  function Places(s: Store, id: nat): nat {
    (if Undelivered(s, id) then 1 else 0) + (if id in s.pending then 1 else 0)
    + (if id in s.acked then 1 else 0) + (if id in s.lost then 1 else 0)
  }

  lemma ExactlyOnePlace(s: Store, id: nat)
    requires StoreOk(s)
    ensures Places(s, id) == if id < |s.added| then 1 else 0
  {}

  /** A dead letter with the row's payload was written. */
  predicate Dead(s: Store, id: nat) {
    id < |s.added| && exists i :: 0 <= i < |s.dlq| && s.dlq[i].source == id && s.dlq[i].payload == s.added[id].payload
  }

  lemma LetterMakesDead(s: Store, id: nat, attempts: nat)
    requires id < |s.added|
    ensures Dead(DeadLetterAdd(s, LetterFor(s, id, attempts)), id)
  {
    assert DeadLetterAdd(s, LetterFor(s, id, attempts)).dlq[|s.dlq|] == LetterFor(s, id, attempts);
  }

  /** Nothing that was said of rows and dead letters is taken back. */
  predicate Grows(s: Store, t: Store) {
    && |s.added| <= |t.added| && (forall i :: 0 <= i < |s.added| ==> t.added[i] == s.added[i])
    && |s.dlq| <= |t.dlq| && (forall i :: 0 <= i < |s.dlq| ==> t.dlq[i] == s.dlq[i])
  }

  lemma DeadStays(s: Store, t: Store, id: nat)
    requires Grows(s, t) && Dead(s, id)
    ensures Dead(t, id)
  {}

  // ---- What the server is free to do ----

  /** Trimming with XADD MAXLEN ~ n evicts nothing, or leaves n rows at least. */
  lemma TrimmingStopsAtTheLimit(s: Store, e: Entry, evicted: nat, maxLength: nat)
    requires evicted <= |s.added| - s.trimmed
    ensures evicted <= MostEvicted(s, maxLength) <==> evicted == 0 || XLen(XAdd(s, e, evicted)) >= maxLength
  {}

  /** A claim takes any pending rows that are still there and drops any pending rows that are not. */
  lemma ClaimableExactly(s: Store, claimed: set<nat>, deleted: set<nat>)
    ensures Claimable(s, claimed, deleted) <==>
              && (forall id :: id in claimed ==> id in s.pending && s.trimmed <= id)
              && (forall id :: id in deleted ==> id in s.pending && id < s.trimmed)
  {}

  // ---- What the commands keep ----

  lemma XAddKeeps(s: Store, e: Entry, evicted: nat)
    requires StoreOk(s) && evicted <= |s.added| - s.trimmed
    ensures StoreOk(XAdd(s, e, evicted)) && Grows(s, XAdd(s, e, evicted))
  {}

  lemma XReadGroupKeeps(s: Store, consumer: nat, count: nat)
    requires StoreOk(s)
    ensures StoreOk(XReadGroup(s, consumer, count)) && Grows(s, XReadGroup(s, consumer, count))
    ensures forall i :: 0 <= i < |Fresh(s, count)| ==> Fresh(s, count)[i] < |s.added|
    ensures forall i :: 0 <= i < |Fresh(s, count)| ==> Fresh(s, count)[i] in XReadGroup(s, consumer, count).pending
  {}

  lemma XAutoClaimKeeps(s: Store, consumer: nat, claimed: set<nat>, deleted: set<nat>)
    requires StoreOk(s) && Claimable(s, claimed, deleted)
    ensures StoreOk(XAutoClaim(s, consumer, claimed, deleted)) && Grows(s, XAutoClaim(s, consumer, claimed, deleted))
  {}

  lemma XAckKeeps(s: Store, id: nat)
    requires StoreOk(s)
    ensures StoreOk(XAck(s, id)) && Grows(s, XAck(s, id))
    ensures XAck(s, id).acked <= s.acked + {id}
  {}

  lemma HashAndLettersKeep(s: Store, id: nat, d: DeadLetter)
    requires StoreOk(s)
    ensures StoreOk(HIncr(s, id)) && Grows(s, HIncr(s, id))
    ensures StoreOk(HDel(s, id)) && Grows(s, HDel(s, id))
    ensures StoreOk(DeadLetterAdd(s, d)) && Grows(s, DeadLetterAdd(s, d))
  {}

  // ---- fail() as one step ----

  /** Pending messages have attempts left, and only delivered rows have attempts. */
  predicate AttemptsLeft(s: Store, maxAttempts: nat) {
    && (forall id :: id in s.pending ==> Attempts(s, id) < maxAttempts)
    && (forall id :: id in s.attempts ==> id < s.cursor)
  }

  /** The four commands of fail, uninterrupted. */
  function FailOnce(s: Store, id: nat, maxAttempts: nat): Store
    requires id < |s.added|
  {
    var t := HIncr(s, id);
    if Attempts(t, id) < maxAttempts then t
    else HDel(XAck(DeadLetterAdd(t, LetterFor(t, id, Attempts(t, id))), id), id)
  }

  lemma FailOnceKeeps(s: Store, id: nat, maxAttempts: nat)
    requires StoreOk(s) && id < |s.added|
    ensures StoreOk(FailOnce(s, id, maxAttempts)) && Grows(s, FailOnce(s, id, maxAttempts))
    ensures FailOnce(s, id, maxAttempts).acked != s.acked ==> Dead(FailOnce(s, id, maxAttempts), id)
  {
    var t := HIncr(s, id);
    var d := LetterFor(t, id, Attempts(t, id));
    HashAndLettersKeep(s, id, d);
    HashAndLettersKeep(t, id, d);
    LetterMakesDead(t, id, Attempts(t, id));
    XAckKeeps(DeadLetterAdd(t, d), id);
    HashAndLettersKeep(XAck(DeadLetterAdd(t, d), id), id, d);
    if Attempts(t, id) >= maxAttempts {
      DeadStays(DeadLetterAdd(t, d), FailOnce(s, id, maxAttempts), id);
    }
  }
}
