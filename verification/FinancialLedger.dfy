/** The ledger object of core/financial_ledger.py: posting in place, snapshots and replay. */
module FinancialLedger {
  import opened Wrappers
  import opened LedgerBooks

  // ---- Snapshots ----

  const SECONDS_PER_DAY := 86400

  function Day(t: nat): nat { t / SECONDS_PER_DAY }

  /** Day n is the 86400 seconds from its start on. */
  lemma DayIs(t: nat, n: nat)
    ensures Day(t) == n <==> 86400 * n <= t < 86400 * (n + 1)
  {}

  /** The balance_after of each account's last entry dated on or before the day. */
  function SnapshotOf(entries: seq<LedgerEntry>, day: nat): map<string, real> {
    if entries == [] then map[]
    else
      var last := entries[|entries| - 1];
      var before := SnapshotOf(entries[..|entries| - 1], day);
      if Day(last.createdAt) <= day then before[last.account := last.balanceAfter] else before
  }

  /** The entries dated on or before the day. */
  function UpToDay(entries: seq<LedgerEntry>, day: nat): seq<LedgerEntry> {
    if entries == [] then []
    else
      var last := entries[|entries| - 1];
      UpToDay(entries[..|entries| - 1], day) + (if Day(last.createdAt) <= day then [last] else [])
  }

  /** The clock never ran backwards. */
  predicate ClockForward(entries: seq<LedgerEntry>) {
    forall i, j :: 0 <= i < j < |entries| ==> entries[i].createdAt <= entries[j].createdAt
  }

  lemma PrefixOfPrefixSums(entries: seq<LedgerEntry>)
    requires PrefixSumsOk(entries) && entries != []
    ensures PrefixSumsOk(entries[..|entries| - 1])
    ensures entries[|entries| - 1].balanceAfter == Booked(entries, entries[|entries| - 1].account)
  {
    var before := entries[..|entries| - 1];
    assert entries[..|entries|] == entries;
    forall i {:trigger before[i]} | 0 <= i < |before|
      ensures before[i].balanceAfter == Booked(before[..i + 1], before[i].account)
    {
      assert before[..i + 1] == entries[..i + 1] && before[i] == entries[i];
    }
  }

  /** What is booked on the account and dated after the day. */
  function Later(entries: seq<LedgerEntry>, day: nat, account: string): real {
    if entries == [] then 0.0
    else
      var last := entries[|entries| - 1];
      Later(entries[..|entries| - 1], day, account)
      + (if last.account == account && Day(last.createdAt) > day then last.amount else 0.0)
  }

  /** What of that stands before the account's last entry dated on or before the day. */
  function Ahead(entries: seq<LedgerEntry>, day: nat, account: string): real {
    if entries == [] then 0.0
    else
      var last := entries[|entries| - 1];
      var before := entries[..|entries| - 1];
      if last.account == account && Day(last.createdAt) <= day then Later(before, day, account)
      else Ahead(before, day, account)
  }

  lemma {:induction false} BookedIsEarlyPlusLater(entries: seq<LedgerEntry>, day: nat, account: string)
    ensures Booked(entries, account) == Booked(UpToDay(entries, day), account) + Later(entries, day, account)
  {
    hide Day;
    if entries != [] {
      var before := entries[..|entries| - 1];
      BookedIsEarlyPlusLater(before, day, account);
      BookedAppend(UpToDay(before, day), entries[|entries| - 1], account);
      assert UpToDay(before, day) + [] == UpToDay(before, day);
    }
  }

  /**
   * Whatever the clock did, the snapshot of an account is the sum of its entries up to the day plus what
   * stands ahead, so it is right exactly when nothing dated later, taken together, stands ahead.
   */
  lemma {:induction false} SnapshotIsOffByWhatStandsAhead(entries: seq<LedgerEntry>, day: nat, account: string)
    requires PrefixSumsOk(entries)
    ensures account in SnapshotOf(entries, day) <==> Mentions(UpToDay(entries, day), account)
    ensures account in SnapshotOf(entries, day) ==>
              SnapshotOf(entries, day)[account] == Booked(UpToDay(entries, day), account) + Ahead(entries, day, account)
  {
    hide Booked, PrefixSumsOk, Mentions, Day, Later;
    if entries == [] {
      NothingMentioned(account);
    } else {
      var before := entries[..|entries| - 1];
      var last := entries[|entries| - 1];
      PrefixOfPrefixSums(entries);
      SnapshotIsOffByWhatStandsAhead(before, day, account);
      assert UpToDay(before, day) + [] == UpToDay(before, day);
      if Day(last.createdAt) <= day {
        MentionsAppend(UpToDay(before, day), last, account);
        BookedAppend(UpToDay(before, day), last, account);
        if last.account == account {
          BookedIsEarlyPlusLater(before, day, account);
          BookedAppend(before, last, account);
          assert entries == before + [last];
        }
      }
    }
  }

  lemma {:induction false} EarlyHasNothingLater(entries: seq<LedgerEntry>, day: nat, account: string)
    requires forall i :: 0 <= i < |entries| ==> Day(entries[i].createdAt) <= day
    ensures Later(entries, day, account) == 0.0
  {
    if entries != [] { EarlyHasNothingLater(entries[..|entries| - 1], day, account); }
  }

  lemma DayOrder(early: nat, late: nat)
    requires early <= late
    ensures Day(early) <= Day(late)
  {}

  lemma {:induction false} ForwardClockPutsNothingAhead(entries: seq<LedgerEntry>, day: nat, account: string)
    requires ClockForward(entries)
    ensures Ahead(entries, day, account) == 0.0
  {
    if entries != [] {
      var before := entries[..|entries| - 1];
      var last := entries[|entries| - 1];
      ForwardClockPutsNothingAhead(before, day, account);
      if Day(last.createdAt) <= day {
        forall i | 0 <= i < |before| ensures Day(before[i].createdAt) <= day { DayOrder(before[i].createdAt, last.createdAt); }
        EarlyHasNothingLater(before, day, account);
      }
    }
  }

  /** Under a forward clock the end-of-day snapshot is the sum of each account's entries up to that day. */
  lemma SnapshotIsSumUpToDay(entries: seq<LedgerEntry>, day: nat, account: string)
    requires PrefixSumsOk(entries) && ClockForward(entries)
    ensures account in SnapshotOf(entries, day) <==> Mentions(UpToDay(entries, day), account)
    ensures account in SnapshotOf(entries, day) ==>
              SnapshotOf(entries, day)[account] == Booked(UpToDay(entries, day), account)
  {
    SnapshotIsOffByWhatStandsAhead(entries, day, account);
    ForwardClockPutsNothingAhead(entries, day, account);
  }

  lemma NothingMentioned(account: string)
    ensures !Mentions([], account)
  {}

  lemma TwoEntryBooks(a: LedgerEntry, b: LedgerEntry)
    requires a.account == b.account
    ensures Booked([b], b.account) == b.amount
    ensures PrefixSumsOk([a, b]) <==> a.balanceAfter == a.amount && b.balanceAfter == a.amount + b.amount
  {
    var all := [a, b];
    assert all[..1] == [a] && all[..2] == all && [a][..0] == [] && [b][..0] == [];
    assert Booked([a], a.account) == a.amount && Booked(all, a.account) == a.amount + b.amount;
    assert all[0] == a && all[1] == b;
  }

  /**
   * With a clock that ran backwards the snapshot counts later money: if the first of two entries is
   * dated after the day and the second is not, the snapshot is right exactly when the first moved nothing.
   */
  lemma BackwardClockMisreports(a: LedgerEntry, b: LedgerEntry, day: nat)
    requires a.account == b.account && PrefixSumsOk([a, b]) && Day(b.createdAt) <= day < Day(a.createdAt)
    ensures UpToDay([a, b], day) == [b] && b.account in SnapshotOf([a, b], day)
    ensures SnapshotOf([a, b], day)[b.account] == Booked([b], b.account) + a.amount
  {
    TwoEntryBooks(a, b);
    hide PrefixSumsOk, Booked, Day;
    assert [a, b][..1] == [a] && [a][..0] == [];
    assert UpToDay([a], day) == [];
  }

  // ---- Replay ----

  /** A source event as it is replayed. */
  datatype SourceEvent = SourceEvent(
    source: string, account: string, entryType: string, amount: Option<real>, currency: string,
    correlation: string, note: string)

  function DraftOf(e: SourceEvent, id: string): Draft {
    Draft(id, e.account, e.entryType, e.currency, e.amount, e.source, e.correlation, e.note)
  }

  /** Random ids for the entries a replay makes: enough of them, all different. */
  predicate Ids(ids: seq<string>, n: nat) {
    |ids| >= n && forall i, j :: 0 <= i < j < |ids| ==> ids[i] != ids[j]
  }

  /** Posts the first n events into fresh books, passing over a source event that was already applied. */
  function Replayed(events: seq<SourceEvent>, ids: seq<string>, now: nat, n: nat): Books
    requires n <= |events| <= |ids|
  {
    if n == 0 then EmptyBooks
    else PostStep(Replayed(events, ids, now, n - 1), DraftOf(events[n - 1], ids[n - 1]), now)
  }

  lemma {:induction false} ReplayedBooks(events: seq<SourceEvent>, ids: seq<string>, now: nat, n: nat)
    requires n <= |events| && Ids(ids, |events|)
    ensures BooksOk(Replayed(events, ids, now, n))
    ensures forall i :: 0 <= i < |Replayed(events, ids, now, n).entries| ==>
              exists k :: 0 <= k < n && Replayed(events, ids, now, n).entries[i].entryId == ids[k]
    ensures n < |events| ==> !HasEntry(Replayed(events, ids, now, n), ids[n])
  {
    hide BooksOk, Booked;
    if n > 0 {
      var before := Replayed(events, ids, now, n - 1);
      ReplayedBooks(events, ids, now, n - 1);
      PostKeepsBooks(before, DraftOf(events[n - 1], ids[n - 1]), now);
      var after := Replayed(events, ids, now, n);
      forall i | 0 <= i < |after.entries|
        ensures exists k :: 0 <= k < n && after.entries[i].entryId == ids[k]
      {
        if i < |before.entries| {
          var k :| 0 <= k < n - 1 && before.entries[i].entryId == ids[k];
          assert after.entries[i].entryId == ids[k];
        } else {
          assert after.entries[i].entryId == ids[n - 1];
        }
      }
    } else {
      EmptyBooksOk();
    }
  }

  lemma EmptyBooksOk()
    ensures BooksOk(EmptyBooks)
  {}

  /** Replayed as an event, an entry keeps everything but its id, its time and its balance. */
  function EventOfEntry(e: LedgerEntry): SourceEvent {
    SourceEvent(e.source, e.account, e.entryType, Some(e.amount), e.currency, e.correlation, e.note)
  }

  function EventsOf(entries: seq<LedgerEntry>): (es: seq<SourceEvent>)
    ensures |es| == |entries| && forall i :: 0 <= i < |es| ==> es[i] == EventOfEntry(entries[i])
  {
    seq(|entries|, i requires 0 <= i < |entries| => EventOfEntry(entries[i]))
  }

  /** The same booking, whatever its id and its time. */
  predicate SameBooking(e: LedgerEntry, f: LedgerEntry) {
    && e.account == f.account && e.amount == f.amount && e.source == f.source && e.balanceAfter == f.balanceAfter
    && e.entryType == f.entryType && e.currency == f.currency && e.correlation == f.correlation
    && (|f.note| <= 512 ==> e.note == f.note)
  }

  /** Books made from the first n entries agree with them on everything but ids and times. */
  predicate Retells(b: Books, entries: seq<LedgerEntry>, n: nat)
    requires n <= |entries|
  {
    |b.entries| == n && forall i :: 0 <= i < n ==> SameBooking(b.entries[i], entries[i])
  }

  lemma {:induction false} SameAmountsSameSums(a: seq<LedgerEntry>, b: seq<LedgerEntry>, account: string)
    requires |a| == |b| && forall i :: 0 <= i < |a| ==> a[i].account == b[i].account && a[i].amount == b[i].amount
    ensures Booked(a, account) == Booked(b, account)
  {
    if a != [] { SameAmountsSameSums(a[..|a| - 1], b[..|b| - 1], account); }
  }

  lemma RetellsNext(before: Books, after: Books, entries: seq<LedgerEntry>, n: nat)
    requires 0 < n <= |entries| && Retells(before, entries, n - 1)
    requires |after.entries| == n && after.entries[..n - 1] == before.entries
    requires SameBooking(after.entries[n - 1], entries[n - 1])
    ensures Retells(after, entries, n)
  {}

  lemma RetoldSums(b: Books, entries: seq<LedgerEntry>, n: nat, account: string)
    requires n <= |entries| && Retells(b, entries, n)
    ensures |b.entries| == n && Booked(b.entries, account) == Booked(entries[..n], account)
  {
    SameAmountsSameSums(b.entries, entries[..n], account);
  }

  lemma PrefixSumAt(entries: seq<LedgerEntry>, n: nat)
    requires 0 < n <= |entries| && PrefixSumsOk(entries)
    ensures entries[n - 1].balanceAfter == Booked(entries[..n], entries[n - 1].account)
  {}

  lemma NextBalance(before: Books, entries: seq<LedgerEntry>, n: nat)
    requires 0 < n <= |entries| && Retells(before, entries, n - 1) && BooksOk(before) && PrefixSumsOk(entries)
    ensures BalanceOf(before, entries[n - 1].account) + entries[n - 1].amount == entries[n - 1].balanceAfter
  {
    hide BooksOk, BalanceOf, Booked, PrefixSumsOk, Retells;
    var last := entries[n - 1];
    BalanceIsBooked(before, last.account);
    RetoldSums(before, entries, n - 1, last.account);
    BookedAppend(entries[..n - 1], last, last.account);
    assert entries[..n] == entries[..n - 1] + [last];
    PrefixSumAt(entries, n);
  }

  lemma BooksHaveIndex(b: Books)
    requires BooksOk(b)
    ensures IndexOk(b) && BalancesOk(b)
  {}

  lemma {:induction false} OwnEntriesRetold(entries: seq<LedgerEntry>, ids: seq<string>, now: nat, n: nat)
    requires n <= |entries| && PrefixSumsOk(entries) && IdsOk(entries) && Ids(ids, |entries|)
    ensures Retells(Replayed(EventsOf(entries), ids, now, n), entries, n)
  {
    hide PostStep, DraftOf, EventOfEntry, EventsOf, BooksOk, PrefixSumsOk, IdsOk, HasEntry, Ids, Replayed, BalancesOk, IndexOk, Retells;
    var events := EventsOf(entries);
    EnoughIds(ids, |entries|);
    if n == 0 {
      NothingRetold(entries, ids, now);
    } else {
      OwnEntriesRetold(entries, ids, now, n - 1);
      ReplayedBooks(events, ids, now, n - 1);
      ReplayNext(events, ids, now, n - 1);
      assert events[n - 1] == EventOfEntry(entries[n - 1]);
      OneMoreRetold(Replayed(events, ids, now, n - 1), entries, ids[n - 1], now, n);
    }
  }

  lemma OneMoreRetold(before: Books, entries: seq<LedgerEntry>, id: string, now: nat, n: nat)
    requires 0 < n <= |entries| && PrefixSumsOk(entries) && IdsOk(entries)
    requires BooksOk(before) && Retells(before, entries, n - 1) && !HasEntry(before, id)
    ensures Retells(PostStep(before, DraftOf(EventOfEntry(entries[n - 1]), id), now), entries, n)
  {
    hide BooksOk, PrefixSumsOk, IdsOk, HasEntry, BalancesOk, IndexOk, Retells, Booked, BalanceOf;
    BooksHaveIndex(before);
    NotYetApplied(before, entries, n);
    NextBalance(before, entries, n);
    RetoldSums(before, entries, n - 1, "");
    var after := PostStep(before, DraftOf(EventOfEntry(entries[n - 1]), id), now);
    assert after.entries[..n - 1] == before.entries;
    RetellsNext(before, after, entries, n);
  }

  lemma EnoughIds(ids: seq<string>, n: nat)
    requires Ids(ids, n)
    ensures |ids| >= n
  {}

  lemma NothingRetold(entries: seq<LedgerEntry>, ids: seq<string>, now: nat)
    requires |entries| <= |ids|
    ensures Retells(Replayed(EventsOf(entries), ids, now, 0), entries, 0)
  {}

  lemma NotYetApplied(before: Books, entries: seq<LedgerEntry>, n: nat)
    requires 0 < n <= |entries| && IdsOk(entries) && IndexOk(before) && Retells(before, entries, n - 1)
    ensures entries[n - 1].source != "" ==> entries[n - 1].source !in before.bySource
  {}

  lemma SameAccounts(x: Books, y: Books, a: string)
    requires BalancesOk(x) && BalancesOk(y) && |x.entries| == |y.entries|
    requires forall i :: 0 <= i < |x.entries| ==> x.entries[i].account == y.entries[i].account
    ensures a in x.balances ==> a in y.balances
  {}

  lemma SameSources(x: Books, y: Books, s: string)
    requires IndexOk(x) && IndexOk(y) && |x.entries| == |y.entries|
    requires forall i :: 0 <= i < |x.entries| ==> x.entries[i].source == y.entries[i].source
    ensures s in x.bySource ==> s in y.bySource
  {}

  lemma SameBalances(x: Books, y: Books)
    requires BalancesOk(x) && BalancesOk(y) && |x.entries| == |y.entries|
    requires forall i :: 0 <= i < |x.entries| ==>
               x.entries[i].account == y.entries[i].account && x.entries[i].amount == y.entries[i].amount
    ensures x.balances == y.balances
  {
    hide Booked;
    forall a: string {:trigger a in x.balances} ensures a in x.balances <==> a in y.balances {
      SameAccounts(x, y, a);
      SameAccounts(y, x, a);
    }
    forall a: string | a in x.balances ensures x.balances[a] == y.balances[a] {
      SameAmountsSameSums(x.entries, y.entries, a);
    }
  }

  lemma RetoldInFull(r: Books, b: Books)
    requires Retells(r, b.entries, |b.entries|) && BooksOk(r) && BooksOk(b)
    ensures |r.entries| == |b.entries| && r.balances == b.balances && r.bySource.Keys == b.bySource.Keys
    ensures forall i :: 0 <= i < |b.entries| ==> SameBooking(r.entries[i], b.entries[i])
  {
    hide PrefixSumsOk, IdsOk, BalancesOk, IndexOk, Retells, SameBooking;
    RetoldFields(r, b.entries);
    SameBalances(r, b);
    forall s: string {:trigger s in r.bySource} ensures s in r.bySource <==> s in b.bySource {
      SameSources(r, b, s);
      SameSources(b, r, s);
    }
  }

  lemma RetoldFields(r: Books, entries: seq<LedgerEntry>)
    requires Retells(r, entries, |entries|)
    ensures |r.entries| == |entries| && forall i :: 0 <= i < |entries| ==> SameBooking(r.entries[i], entries[i])
    ensures forall i :: 0 <= i < |entries| ==>
              r.entries[i].account == entries[i].account && r.entries[i].amount == entries[i].amount
              && r.entries[i].source == entries[i].source
  {}

  /** Replaying a ledger's own entries posts every one of them again and ends with the same balances. */
  lemma OwnEntriesReplayInFull(b: Books, ids: seq<string>, now: nat)
    requires BooksOk(b) && Ids(ids, |b.entries|)
    ensures var r := Replayed(EventsOf(b.entries), ids, now, |b.entries|);
            && |r.entries| == |b.entries| && r.balances == b.balances && r.bySource.Keys == b.bySource.Keys
            && forall i :: 0 <= i < |b.entries| ==> SameBooking(r.entries[i], b.entries[i])
  {
    assert |b.entries| <= |ids|;
    hide Replayed, PrefixSumsOk, IdsOk, BalancesOk, IndexOk, Ids, Retells;
    OwnEntriesRetold(b.entries, ids, now, |b.entries|);
    ReplayedBooks(EventsOf(b.entries), ids, now, |b.entries|);
    RetoldInFull(Replayed(EventsOf(b.entries), ids, now, |b.entries|), b);
  }

  // ---- The object ----

  function Lookup(entries: seq<LedgerEntry>, id: string): (r: Option<LedgerEntry>)
    ensures r.Some? ==> r.value in entries && r.value.entryId == id
    ensures r.None? ==> forall i :: 0 <= i < |entries| ==> entries[i].entryId != id
  {
    if entries == [] then None else if entries[0].entryId == id then Some(entries[0]) else Lookup(entries[1..], id)
  }

  function CorrectionOf(original: LedgerEntry, d: Draft): Draft {
    d.(account := original.account, entryType := "correction",
       correlation := if d.correlation != "" then d.correlation else original.correlation)
  }

  /** In-place postings. Ids and times come from outside, as from uuid4 and the clock. */
  class Ledger {
    var entries: seq<LedgerEntry>
    var balances: map<string, real>
    var bySource: map<string, string>
    var correctionCount: nat

    function State(): Books
      reads this
    {
      Books(entries, balances, bySource)
    }

    constructor ()
      ensures State() == EmptyBooks && correctionCount == 0 && BooksOk(State())
    {
      entries, balances, bySource, correctionCount := [], map[], map[], 0;
    }

    method Balance(account: string) returns (balance: real)
      requires BooksOk(State())
      ensures balance == Booked(entries, account)
    {
      BalanceIsBooked(State(), account);
      balance := if account in balances then balances[account] else 0.0;
    }

    method Post(d: Draft, now: nat) returns (r: Result<LedgerEntry, Refusal>)
      requires BooksOk(State())
      modifies this`entries, this`balances, this`bySource
      ensures BooksOk(State()) && State() == PostStep(old(State()), d, now)
      ensures r.Failure? ==> State() == old(State()) && Some(r.error) == PostError(old(State()), d)
      ensures r.Success? ==> PostError(old(State()), d) == None && entries == old(entries) + [r.value]
      ensures r.Success? ==> EntryOf(r.value, d, d.amount.value, now) && r.value.balanceAfter == Booked(entries, d.account)
    {
      hide Booked, BooksOk, EntryOf, BalanceOf;
      PostKeepsBooks(State(), d, now);
      if d.amount.None? { return Failure(NonFiniteAmount); }
      if d.source != "" && d.source in bySource { return Failure(SourceAlreadyApplied); }
      var e := LedgerEntry(d.entryId, d.account, d.entryType, d.currency, d.amount.value,
                           (if d.account in balances then balances[d.account] else 0.0) + d.amount.value,
                           d.source, d.correlation, now, if |d.note| <= 512 then d.note else d.note[..512]);
      if exists i :: 0 <= i < |entries| && entries[i].entryId == d.entryId { return Failure(DuplicateEntryId); }
      BalanceIsBooked(State(), d.account);
      EntryMade(State(), d, now, e);
      BookedAppend(entries, e, d.account);
      entries := entries + [e];
      balances := balances[d.account := e.balanceAfter];
      if d.source != "" { bySource := bySource[d.source := d.entryId]; }
      r := Success(e);
    }

    /** A compensating entry on the account of an earlier one; the earlier one stays as it is. */
    method Correct(originalId: string, d: Draft, now: nat) returns (r: Result<LedgerEntry, Refusal>)
      requires BooksOk(State())
      modifies this
      ensures BooksOk(State()) && old(entries) <= entries
      ensures match Lookup(old(entries), originalId)
              case None => r == Failure(UnknownEntry) && State() == old(State())
              case Some(original) =>
                && State() == PostStep(old(State()), CorrectionOf(original, d), now)
                && (r.Failure? <==> PostError(old(State()), CorrectionOf(original, d)).Some?)
                && (r.Success? ==>
                      && entries == old(entries) + [r.value] && d.amount.Some? && r.value.amount == d.amount.value
                      && original.entryId == originalId && r.value.account == original.account
                      && r.value.entryType == "correction"
                      && r.value.correlation == (if d.correlation != "" then d.correlation else original.correlation)
                      && Booked(entries, original.account) == Booked(old(entries), original.account) + d.amount.value)
      ensures correctionCount == old(correctionCount) + (if r.Success? then 1 else 0)
    {
      hide BooksOk;
      var original := Lookup(entries, originalId);
      if original.None? { return Failure(UnknownEntry); }
      r := Post(CorrectionOf(original.value, d), now);
      if r.Success? { BookedAppend(old(entries), r.value, original.value.account); }
      if r.Success? { correctionCount := correctionCount + 1; }
    }

    /**
     * Debit, then credit. Refused before the debit it leaves no trace; refused at the credit it leaves
     * the debit behind. When sources pair up the second case cannot occur.
     */
    method PostDoubleEntry(t: Transfer, now: nat) returns (r: Result<(LedgerEntry, LedgerEntry), Refusal>)
      requires BooksOk(State())
      modifies this`entries, this`balances, this`bySource
      ensures BooksOk(State()) && State() == TransferStep(old(State()), t, now)
      ensures r.Failure? <==> TransferError(old(State()), t, now).Some?
      ensures r.Failure? ==> Some(r.error) == TransferError(old(State()), t, now)
      ensures r.Success? ==> entries == old(entries) + [r.value.0, r.value.1]
      ensures r.Success? ==> t.amount.Some? && r.value.0.account == t.debit && r.value.1.account == t.credit
      ensures r.Success? ==> r.value.0.amount == t.amount.value == -r.value.1.amount
      ensures r.Success? && t.debit != t.credit ==>
                && Booked(entries, t.debit) == Booked(old(entries), t.debit) + t.amount.value
                && Booked(entries, t.credit) == Booked(old(entries), t.credit) - t.amount.value
      ensures forall a: string {:trigger Booked(entries, a)} ::
                r.Success? && (t.debit == t.credit || (a != t.debit && a != t.credit)) ==> Booked(entries, a) == Booked(old(entries), a)
      ensures old(Paired(State())) && FreshIds(old(State()), t) ==>
                && Paired(State()) && Imbalance(entries) == Imbalance(old(entries))
                && (r.Failure? ==> State() == old(State()))
    {
      hide BooksOk, Booked, Imbalance, FreshIds, Paired;
      if Paired(State()) && FreshIds(State(), t) { TransferKeepsPairs(State(), t, now); }
      forall a: string { TransferMovesTheAmount(State(), t, now, a); }
      if t.amount.None? { return Failure(NonFiniteAmount); }
      if t.amount.value < 0.0 { return Failure(NegativeAmount); }
      var debit := Post(DebitDraft(t), now);
      if debit.Failure? { return Failure(debit.error); }
      var credit := Post(CreditDraft(t), now);
      if credit.Failure? { return Failure(credit.error); }
      r := Success((debit.value, credit.value));
    }

    method DailySnapshot(day: nat) returns (snapshot: map<string, real>)
      ensures snapshot == SnapshotOf(entries, day)
    {
      snapshot := map[];
      for k := 0 to |entries|
        invariant snapshot == SnapshotOf(entries[..k], day)
      {
        assert entries[..k + 1][..k] == entries[..k];
        if Day(entries[k].createdAt) <= day {
          snapshot := snapshot[entries[k].account := entries[k].balanceAfter];
        }
      }
      assert entries[..|entries|] == entries;
    }

    /** Replays events into a new ledger and reports how many entries it made. This ledger is not touched. */
    method RebuildFrom(events: seq<SourceEvent>, ids: seq<string>, now: nat) returns (r: Result<nat, Refusal>)
      requires Ids(ids, |events|)
      ensures r.Failure? <==> exists i :: 0 <= i < |events| && Refuses(events, ids, now, i)
      ensures r.Success? ==> r.value == |Replayed(events, ids, now, |events|).entries|
    {
      var rebuilt := new Ledger();
      hide Booked, BooksOk, Replayed;
      assert rebuilt.State() == Replayed(events, ids, now, 0) by { ReplayStarts(events, ids, now); }
      for k := 0 to |events|
        invariant fresh(rebuilt) && BooksOk(rebuilt.State())
        invariant rebuilt.State() == Replayed(events, ids, now, k)
        invariant forall i :: 0 <= i < k ==> !Refuses(events, ids, now, i)
      {
        var e := events[k];
        ReplayNext(events, ids, now, k);
        if e.source != "" && e.source in rebuilt.bySource {
          ReplaySkips(events, ids, now, k);
          continue;
        }
        var posted := rebuilt.Post(DraftOf(e, ids[k]), now);
        if posted.Failure? {
          assert Refuses(events, ids, now, k);
          return Failure(posted.error);
        }
      }
      r := Success(|rebuilt.entries|);
    }
  }

  lemma EntryMade(b: Books, d: Draft, now: nat, e: LedgerEntry)
    requires d.amount.Some?
    requires e == LedgerEntry(d.entryId, d.account, d.entryType, d.currency, d.amount.value,
                              (if d.account in b.balances then b.balances[d.account] else 0.0) + d.amount.value,
                              d.source, d.correlation, now, if |d.note| <= 512 then d.note else d.note[..512])
    ensures e == EntryFor(b, d, now) && EntryOf(e, d, d.amount.value, now) && e.balanceAfter == BalanceOf(b, d.account) + d.amount.value
  {}

  /** Event number i stops the replay: it is new, but it cannot be posted. */
  predicate Refuses(events: seq<SourceEvent>, ids: seq<string>, now: nat, i: nat)
    requires i < |events| <= |ids|
  {
    var b := Replayed(events, ids, now, i);
    !(events[i].source != "" && events[i].source in b.bySource) && PostError(b, DraftOf(events[i], ids[i])).Some?
  }

  lemma ReplayStarts(events: seq<SourceEvent>, ids: seq<string>, now: nat)
    requires |events| <= |ids|
    ensures Replayed(events, ids, now, 0) == EmptyBooks
  {}

  lemma ReplayNext(events: seq<SourceEvent>, ids: seq<string>, now: nat, k: nat)
    requires k < |events| <= |ids|
    ensures Replayed(events, ids, now, k + 1) ==
            PostStep(Replayed(events, ids, now, k), DraftOf(events[k], ids[k]), now)
  {}

  lemma ReplaySkips(events: seq<SourceEvent>, ids: seq<string>, now: nat, k: nat)
    requires k < |events| <= |ids|
    requires events[k].source != "" && events[k].source in Replayed(events, ids, now, k).bySource
    ensures Replayed(events, ids, now, k + 1) == Replayed(events, ids, now, k)
  {}
}
