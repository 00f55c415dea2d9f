/**
 * The append-only ledger of core/financial_ledger.py as a value: its entries in order, the running
 * balances and the index of source events, with the steps that extend it.
 */
module LedgerBooks {
  import opened Wrappers

  datatype LedgerEntry = LedgerEntry(
    entryId: string, account: string, entryType: string, currency: string, amount: real, balanceAfter: real,
    source: string, correlation: string, createdAt: nat, note: string)

  /** What is about to be posted. amount is None when it was not a finite number. */
  datatype Draft = Draft(
    entryId: string, account: string, entryType: string, currency: string, amount: Option<real>,
    source: string, correlation: string, note: string)

  datatype Refusal = NonFiniteAmount | NegativeAmount | SourceAlreadyApplied | DuplicateEntryId | UnknownEntry

  datatype Books = Books(entries: seq<LedgerEntry>, balances: map<string, real>, bySource: map<string, string>)

  const EmptyBooks := Books([], map[], map[])

  function BalanceOf(b: Books, account: string): real { if account in b.balances then b.balances[account] else 0.0 }

  predicate HasEntry(b: Books, id: string) { exists i :: 0 <= i < |b.entries| && b.entries[i].entryId == id }

  function PostError(b: Books, d: Draft): Option<Refusal> {
    if d.amount.None? then Some(NonFiniteAmount)
    else if d.source != "" && d.source in b.bySource then Some(SourceAlreadyApplied)
    else if HasEntry(b, d.entryId) then Some(DuplicateEntryId)
    else None
  }

  function EntryFor(b: Books, d: Draft, now: nat): LedgerEntry
    requires d.amount.Some?
  {
    LedgerEntry(d.entryId, d.account, d.entryType, d.currency, d.amount.value,
                BalanceOf(b, d.account) + d.amount.value, d.source, d.correlation, now,
                if |d.note| > 512 then d.note[..512] else d.note)
  }

  /** Appends one entry, or changes nothing. */
  function PostStep(b: Books, d: Draft, now: nat): Books {
    if PostError(b, d).Some? then b
    else
      var e := EntryFor(b, d, now);
      Books(b.entries + [e], b.balances[d.account := e.balanceAfter],
            if d.source != "" then b.bySource[d.source := d.entryId] else b.bySource)
  }

  // ---- What the entries say ----

  /** Sum of the amounts booked on one account. */
  function Booked(entries: seq<LedgerEntry>, account: string): real {
    if entries == [] then 0.0
    else
      var last := entries[|entries| - 1];
      Booked(entries[..|entries| - 1], account) + (if last.account == account then last.amount else 0.0)
  }

  /** Sum of all amounts; zero for balanced double entry. */
  function Imbalance(entries: seq<LedgerEntry>): real {
    if entries == [] then 0.0 else Imbalance(entries[..|entries| - 1]) + entries[|entries| - 1].amount
  }

  predicate Mentions(entries: seq<LedgerEntry>, account: string) {
    exists i :: 0 <= i < |entries| && entries[i].account == account
  }

  /** Balances are the sums of what was booked, for exactly the accounts that occur. */
  predicate BalancesOk(b: Books) {
    && (forall a: string {:trigger a in b.balances} :: a in b.balances ==> Mentions(b.entries, a) && b.balances[a] == Booked(b.entries, a))
    && (forall i {:trigger b.entries[i]} :: 0 <= i < |b.entries| ==> b.entries[i].account in b.balances)
  }

  /** Each balance_after is the sum of its account up to and including its entry. */
  predicate PrefixSumsOk(entries: seq<LedgerEntry>) {
    forall i {:trigger entries[i]} :: 0 <= i < |entries| ==>
      entries[i].balanceAfter == Booked(entries[..i + 1], entries[i].account)
  }

  predicate IdsOk(entries: seq<LedgerEntry>) {
    && (forall i, j :: 0 <= i < j < |entries| ==> entries[i].entryId != entries[j].entryId)
    && (forall i, j :: 0 <= i < j < |entries| && entries[i].source == entries[j].source ==> entries[i].source == "")
  }

  /** The index lists exactly the source events of the entries. */
  predicate IndexOk(b: Books) {
    && "" !in b.bySource
    && (forall i {:trigger b.entries[i]} :: 0 <= i < |b.entries| && b.entries[i].source != "" ==> b.entries[i].source in b.bySource)
    && (forall s: string {:trigger s in b.bySource} :: s in b.bySource ==>
          exists i :: 0 <= i < |b.entries| && b.entries[i].source == s && b.entries[i].entryId == b.bySource[s])
  }

  predicate BooksOk(b: Books) { BalancesOk(b) && PrefixSumsOk(b.entries) && IdsOk(b.entries) && IndexOk(b) }

  lemma {:induction false} NotBooked(entries: seq<LedgerEntry>, account: string)
    requires !Mentions(entries, account)
    ensures Booked(entries, account) == 0.0
  {
    if entries != [] {
      assert forall i :: 0 <= i < |entries| - 1 ==> entries[..|entries| - 1][i] == entries[i];
      NotBooked(entries[..|entries| - 1], account);
    }
  }

  lemma BookedAppend(entries: seq<LedgerEntry>, e: LedgerEntry, account: string)
    ensures Booked(entries + [e], account) == Booked(entries, account) + (if e.account == account then e.amount else 0.0)
    ensures Imbalance(entries + [e]) == Imbalance(entries) + e.amount
  {}

  lemma BalanceIsBooked(b: Books, account: string)
    requires BooksOk(b)
    ensures BalanceOf(b, account) == Booked(b.entries, account)
  {
    if account !in b.balances { NotBooked(b.entries, account); }
  }

  lemma PrefixSumsAppend(entries: seq<LedgerEntry>, e: LedgerEntry)
    requires PrefixSumsOk(entries) && e.balanceAfter == Booked(entries + [e], e.account)
    ensures PrefixSumsOk(entries + [e])
  {
    var all := entries + [e];
    forall i {:trigger all[i]} | 0 <= i < |all| ensures all[i].balanceAfter == Booked(all[..i + 1], all[i].account) {
      if i < |entries| {
        assert all[..i + 1] == entries[..i + 1] && all[i] == entries[i];
      } else {
        assert all[..i + 1] == all;
      }
    }
  }

  /** What a posting leaves in the balances. */
  lemma BalancesAfter(b: Books, d: Draft, now: nat)
    requires PostError(b, d) == None
    ensures var e, t := EntryFor(b, d, now), PostStep(b, d, now);
            && t.entries == b.entries + [e] && t.balances == b.balances[d.account := e.balanceAfter]
            && e.account == d.account && e.amount == d.amount.value && e.balanceAfter == BalanceOf(b, d.account) + e.amount
  {
    hide HasEntry, BalanceOf;
  }

  lemma MentionsAppend(entries: seq<LedgerEntry>, e: LedgerEntry, account: string)
    ensures Mentions(entries + [e], account) <==> Mentions(entries, account) || e.account == account
  {
    assert (entries + [e])[|entries|] == e;
    if Mentions(entries, account) {
      var i :| 0 <= i < |entries| && entries[i].account == account;
      assert (entries + [e])[i].account == account;
    }
  }

  lemma BalancesAppend(b: Books, d: Draft, now: nat)
    requires BalancesOk(b) && PostError(b, d) == None
    requires BalanceOf(b, d.account) == Booked(b.entries, d.account)
    ensures BalancesOk(PostStep(b, d, now))
  {
    assert d.amount.Some?;
    hide Booked, PostError, PostStep, EntryFor, BalanceOf, Mentions;
    var e, t := EntryFor(b, d, now), PostStep(b, d, now);
    BalancesAfter(b, d, now);
    forall a: string {:trigger a in t.balances} | a in t.balances
      ensures Mentions(t.entries, a) && t.balances[a] == Booked(t.entries, a)
    {
      BookedAppend(b.entries, e, a);
      MentionsAppend(b.entries, e, a);
    }
    forall i {:trigger t.entries[i]} | 0 <= i < |t.entries| ensures t.entries[i].account in t.balances {
      if i < |b.entries| { assert b.entries[i].account in b.balances; }
    }
  }

  lemma IndexAppend(b: Books, d: Draft, now: nat)
    requires IdsOk(b.entries) && IndexOk(b) && PostError(b, d) == None
    ensures IdsOk(PostStep(b, d, now).entries) && IndexOk(PostStep(b, d, now))
  {
    hide Booked;
    var t := PostStep(b, d, now);
    var n := |b.entries|;
    assert t.entries[n] == EntryFor(b, d, now);
    forall s: string {:trigger s in t.bySource} | s in t.bySource
      ensures exists i :: 0 <= i < |t.entries| && t.entries[i].source == s && t.entries[i].entryId == t.bySource[s]
    {
      if s == d.source && d.source != "" {
        assert t.entries[n].source == s;
      } else {
        assert s in b.bySource;
        var i :| 0 <= i < n && b.entries[i].source == s && b.entries[i].entryId == b.bySource[s];
        assert t.entries[i].source == s;
      }
    }
  }

  /** Posting appends exactly one entry that continues its account's sum, or changes nothing at all. */
  lemma PostKeepsBooks(b: Books, d: Draft, now: nat)
    requires BooksOk(b)
    ensures BooksOk(PostStep(b, d, now))
  {
    if PostError(b, d) == None {
      BalanceIsBooked(b, d.account);
      BookedAppend(b.entries, EntryFor(b, d, now), d.account);
      hide Booked, BalancesOk, PrefixSumsOk, IdsOk, IndexOk;
      BalancesAppend(b, d, now);
      PrefixSumsAppend(b.entries, EntryFor(b, d, now));
      IndexAppend(b, d, now);
    }
  }

  /** An entry id belongs to one entry, and so does a source event. */
  lemma EachEventOnce(b: Books, i: nat, j: nat)
    requires BooksOk(b) && i < |b.entries| && j < |b.entries|
    requires b.entries[i].entryId == b.entries[j].entryId || b.entries[i].source == b.entries[j].source != ""
    ensures i == j
  {}

  /** When a posting is refused and why, said through the entries themselves. */
  lemma RefusedExactly(b: Books, d: Draft)
    requires BooksOk(b)
    ensures var applied := d.source != "" && exists i :: 0 <= i < |b.entries| && b.entries[i].source == d.source;
            var known := exists i :: 0 <= i < |b.entries| && b.entries[i].entryId == d.entryId;
            && (PostError(b, d) == Some(NonFiniteAmount) <==> d.amount.None?)
            && (PostError(b, d) == Some(SourceAlreadyApplied) <==> d.amount.Some? && applied)
            && (PostError(b, d) == Some(DuplicateEntryId) <==> d.amount.Some? && !applied && known)
            && (PostError(b, d) == None <==> d.amount.Some? && !applied && !known)
  {
    hide BalancesOk, PrefixSumsOk, IdsOk;
  }

  /** What an accepted posting appends: the draft as it is, its text cut to 512 characters. */
  lemma PostedExactly(b: Books, d: Draft, now: nat)
    requires BooksOk(b) && PostError(b, d) == None
    ensures var after, n := PostStep(b, d, now), |b.entries|;
            && |after.entries| == n + 1 && after.entries[..n] == b.entries
            && EntryOf(after.entries[n], d, d.amount.value, now)
            && after.entries[n].balanceAfter == Booked(b.entries, d.account) + d.amount.value
            && (forall s: string :: s in after.bySource <==> s in b.bySource || (s == d.source && s != ""))
  {
    BalanceIsBooked(b, d.account);
    hide Booked, HasEntry, BooksOk, BalanceOf;
  }

  /** e is the entry of a draft with this amount. */
  predicate EntryOf(e: LedgerEntry, d: Draft, amount: real, now: nat) {
    && e.entryId == d.entryId && e.account == d.account && e.entryType == d.entryType && e.currency == d.currency
    && e.amount == amount && e.source == d.source && e.correlation == d.correlation && e.createdAt == now
    && e.note <= d.note && |e.note| == (if |d.note| <= 512 then |d.note| else 512)
  }

  // ---- Double entry ----

  datatype Transfer = Transfer(
    debit: string, credit: string, entryType: string, amount: Option<real>, currency: string,
    source: string, correlation: string, note: string, debitId: string, creditId: string)

  /** The event a transfer is known by: its source, or its correlation when it has none. */
  function EventOf(t: Transfer): string { if t.source != "" then t.source else t.correlation }

  function DebitSource(t: Transfer): string { EventOf(t) + ":debit" }

  function CreditSource(t: Transfer): string { EventOf(t) + ":credit" }

  function DebitDraft(t: Transfer): Draft {
    Draft(t.debitId, t.debit, t.entryType, t.currency, t.amount, DebitSource(t), t.correlation, t.note)
  }

  function CreditDraft(t: Transfer): Draft {
    Draft(t.creditId, t.credit, t.entryType, t.currency, if t.amount.Some? then Some(-t.amount.value) else None,
          CreditSource(t), t.correlation, t.note)
  }

  function TransferError(b: Books, t: Transfer, now: nat): Option<Refusal> {
    if t.amount.None? then Some(NonFiniteAmount)
    else if t.amount.value < 0.0 then Some(NegativeAmount)
    else if PostError(b, DebitDraft(t)).Some? then PostError(b, DebitDraft(t))
    else PostError(PostStep(b, DebitDraft(t), now), CreditDraft(t))
  }

  /** Debit first, then credit. When the credit is refused the debit stays: nothing rolls it back. */
  function TransferStep(b: Books, t: Transfer, now: nat): Books {
    if t.amount.None? || t.amount.value < 0.0 || PostError(b, DebitDraft(t)).Some? then b
    else PostStep(PostStep(b, DebitDraft(t), now), CreditDraft(t), now)
  }

  /** Both ids are new and different, as random ids are. */
  predicate FreshIds(b: Books, t: Transfer) {
    t.debitId != t.creditId && !HasEntry(b, t.debitId) && !HasEntry(b, t.creditId)
  }

  lemma SuffixesDiffer(x: string, y: string)
    ensures x + ":debit" != y + ":credit"
  {
    var s, t := x + ":debit", y + ":credit";
    assert s[|s| - 5] == 'd';
    assert t[|t| - 5] == 'r';
  }

  lemma PrefixesAgree(x: string, y: string, suffix: string)
    requires x + suffix == y + suffix
    ensures x == y
  {
    assert x == (x + suffix)[..|x|] && y == (y + suffix)[..|y|];
  }

  /**
   * Exactly when a transfer goes through, when it changes nothing, and when it is left half done: the
   * debit leg was new but the credit leg's source had been used.
   */
  lemma TransferOutcome(b: Books, t: Transfer, now: nat)
    requires FreshIds(b, t) && t.amount.Some? && t.amount.value >= 0.0
    ensures TransferError(b, t, now) == None <==> DebitSource(t) !in b.bySource && CreditSource(t) !in b.bySource
    ensures TransferStep(b, t, now) == b <==> DebitSource(t) in b.bySource
    ensures |TransferStep(b, t, now).entries| == |b.entries| + 1
            <==> DebitSource(t) !in b.bySource && CreditSource(t) in b.bySource
    ensures TransferError(b, t, now) == None ==>
              && |TransferStep(b, t, now).entries| == |b.entries| + 2
              && Imbalance(TransferStep(b, t, now).entries) == Imbalance(b.entries)
  {
    SuffixesDiffer(EventOf(t), EventOf(t));
    var half := PostStep(b, DebitDraft(t), now);
    if PostError(b, DebitDraft(t)) == None {
      var e := EntryFor(b, DebitDraft(t), now);
      BookedAppend(b.entries, e, t.debit);
      assert HasEntry(half, t.creditId) ==> HasEntry(b, t.creditId) || e.entryId == t.creditId;
      if PostError(half, CreditDraft(t)) == None {
        BookedAppend(half.entries, EntryFor(half, CreditDraft(t), now), t.credit);
      }
    }
  }

  /** Debit and credit sources come in pairs. */
  ghost predicate Paired(b: Books) {
    forall x: string {:trigger x + ":debit"} {:trigger x + ":credit"} ::
      (x + ":debit" in b.bySource) == (x + ":credit" in b.bySource)
  }

  lemma TransferKeepsPairs(b: Books, t: Transfer, now: nat)
    requires BooksOk(b) && Paired(b) && FreshIds(b, t)
    ensures BooksOk(TransferStep(b, t, now)) && Paired(TransferStep(b, t, now))
    ensures Imbalance(TransferStep(b, t, now).entries) == Imbalance(b.entries)
    ensures TransferError(b, t, now).Some? ==> TransferStep(b, t, now) == b
  {
    hide BooksOk, Imbalance, PostError, PostStep;
    if t.amount.Some? && t.amount.value >= 0.0 {
      TransferOutcome(b, t, now);
      assert (EventOf(t) + ":debit" in b.bySource) == (EventOf(t) + ":credit" in b.bySource);
      PostKeepsBooks(b, DebitDraft(t), now);
      PostKeepsBooks(PostStep(b, DebitDraft(t), now), CreditDraft(t), now);
      if TransferError(b, t, now) == None { PairsAfterTransfer(b, t, now); }
    }
  }

  lemma PairsAfterTransfer(b: Books, t: Transfer, now: nat)
    requires Paired(b) && FreshIds(b, t) && TransferError(b, t, now) == None
    ensures Paired(TransferStep(b, t, now))
  {
    var after := TransferStep(b, t, now).bySource;
    assert after == b.bySource[DebitSource(t) := t.debitId][CreditSource(t) := t.creditId];
    forall x: string ensures (x + ":debit" in after) == (x + ":credit" in after) {
      SuffixesDiffer(x, EventOf(t));
      SuffixesDiffer(EventOf(t), x);
      if x + ":debit" == DebitSource(t) { PrefixesAgree(x, EventOf(t), ":debit"); }
      if x + ":credit" == CreditSource(t) { PrefixesAgree(x, EventOf(t), ":credit"); }
      assert (x + ":debit" in b.bySource) == (x + ":credit" in b.bySource);
    }
  }

  /** What a transfer moves on an account: to the debit account, from the credit account. */
  function MovedOn(account: string, t: Transfer): real
    requires t.amount.Some?
  {
    (if account == t.debit then t.amount.value else 0.0) - (if account == t.credit then t.amount.value else 0.0)
  }

  /**
   * A transfer that goes through raises the debit account by the amount, lowers the credit account by it
   * and touches no other; between an account and itself it moves nothing. Refused before the debit it
   * moves nothing, and refused at the credit it has raised the debit account only.
   */
  lemma TransferMovesTheAmount(b: Books, t: Transfer, now: nat, account: string)
    ensures var after, r, before := Booked(TransferStep(b, t, now).entries, account), TransferError(b, t, now), Booked(b.entries, account);
            && (r == None ==> t.amount.Some?)
            && (r == None && t.debit != t.credit && account == t.debit ==> after == before + t.amount.value)
            && (r == None && t.debit != t.credit && account == t.credit ==> after == before - t.amount.value)
            && (r == None && (t.debit == t.credit || account !in {t.debit, t.credit}) ==> after == before)
            && (r.Some? && |TransferStep(b, t, now).entries| == |b.entries| ==> after == before)
            && (r.Some? && |TransferStep(b, t, now).entries| != |b.entries| ==>
                  t.amount.Some? && after == before + if account == t.debit then t.amount.value else 0.0)
  {
    hide Booked, HasEntry;
    var half := PostStep(b, DebitDraft(t), now);
    if t.amount.Some? && t.amount.value >= 0.0 && PostError(b, DebitDraft(t)) == None {
      BookedAppend(b.entries, EntryFor(b, DebitDraft(t), now), account);
      if PostError(half, CreditDraft(t)) == None { BookedAppend(half.entries, EntryFor(half, CreditDraft(t), now), account); }
    }
  }

  /** The two entries of a transfer that goes through: one event, one correlation, opposite amounts. */
  lemma TransferEntries(b: Books, t: Transfer, now: nat)
    requires TransferError(b, t, now) == None
    ensures var after, n := TransferStep(b, t, now).entries, |b.entries|;
            var event := if |t.source| > 0 then t.source else t.correlation;
            && |after| == n + 2 && after[..n] == b.entries && t.amount.Some? && t.amount.value >= 0.0
            && EntryOf(after[n], Draft(t.debitId, t.debit, t.entryType, t.currency, t.amount, event + ":debit", t.correlation, t.note),
                       t.amount.value, now)
            && EntryOf(after[n + 1], Draft(t.creditId, t.credit, t.entryType, t.currency, t.amount, event + ":credit", t.correlation, t.note),
                       -t.amount.value, now)
  {
    hide HasEntry, BalanceOf;
  }

  // ---- Runs of transfers ----

  datatype Timed = Timed(t: Transfer, now: nat)

  function Transfers(ts: seq<Timed>): Books {
    if ts == [] then EmptyBooks
    else TransferStep(Transfers(ts[..|ts| - 1]), ts[|ts| - 1].t, ts[|ts| - 1].now)
  }

  /** Every transfer brought new ids. */
  predicate AllFresh(ts: seq<Timed>) {
    forall i {:trigger ts[i]} :: 0 <= i < |ts| ==> FreshIds(Transfers(ts[..i]), ts[i].t)
  }

  /** With transfers only: the books are in order, debits and credits pair up and the imbalance is zero, always. */
  lemma {:induction false} TransfersStayBalanced(ts: seq<Timed>)
    requires AllFresh(ts)
    ensures BooksOk(Transfers(ts)) && Paired(Transfers(ts)) && Imbalance(Transfers(ts).entries) == 0.0
  {
    if ts != [] {
      var before := ts[..|ts| - 1];
      FreshBefore(ts);
      TransfersStayBalanced(before);
      TransferKeepsPairs(Transfers(before), ts[|ts| - 1].t, ts[|ts| - 1].now);
    }
  }

  /** What the transfers of a run that went through moved on an account, taken together. */
  function Moved(ts: seq<Timed>, account: string): real {
    if ts == [] then 0.0
    else
      var before, last := ts[..|ts| - 1], ts[|ts| - 1];
      Moved(before, account)
      + (if TransferError(Transfers(before), last.t, last.now) == None then MovedOn(account, last.t) else 0.0)
  }

  /** Over any run an account has been booked what the transfers moved to it less what they moved away. */
  lemma {:induction false} BookedIsWhatWasMoved(ts: seq<Timed>, account: string)
    requires AllFresh(ts)
    ensures Booked(Transfers(ts).entries, account) == Moved(ts, account)
  {
    hide TransferStep, TransferError, FreshIds, BooksOk, Paired, AllFresh, Booked;
    if ts == [] {
      NothingBooked(account);
    } else {
      var before, last := ts[..|ts| - 1], ts[|ts| - 1];
      FreshBefore(ts);
      BookedIsWhatWasMoved(before, account);
      TransfersStayBalanced(before);
      TransferMovesTheAmount(Transfers(before), last.t, last.now, account);
      TransferKeepsPairs(Transfers(before), last.t, last.now);
    }
  }

  lemma NothingBooked(account: string)
    ensures Booked(EmptyBooks.entries, account) == 0.0
  {}

  /** And that is its balance. */
  lemma AccountsHoldWhatWasMoved(ts: seq<Timed>, account: string)
    requires AllFresh(ts)
    ensures BalanceOf(Transfers(ts), account) == Moved(ts, account)
  {
    hide *;
    TransfersStayBalanced(ts);
    BalanceIsBooked(Transfers(ts), account);
    BookedIsWhatWasMoved(ts, account);
  }

  lemma FreshBefore(ts: seq<Timed>)
    requires AllFresh(ts) && ts != []
    ensures AllFresh(ts[..|ts| - 1]) && FreshIds(Transfers(ts[..|ts| - 1]), ts[|ts| - 1].t)
  {
    var before := ts[..|ts| - 1];
    forall i {:trigger before[i]} | 0 <= i < |before| ensures FreshIds(Transfers(before[..i]), before[i].t) {
      assert before[..i] == ts[..i] && before[i] == ts[i];
    }
  }

  /** And the credit leg never fails after the debit leg was posted; a repeated event is refused without a trace. */
  lemma TransfersAreAtomic(ts: seq<Timed>, t: Transfer, now: nat)
    requires AllFresh(ts) && FreshIds(Transfers(ts), t) && t.amount.Some? && t.amount.value >= 0.0
    ensures var b := Transfers(ts);
            if DebitSource(t) in b.bySource
            then TransferError(b, t, now) == Some(SourceAlreadyApplied) && TransferStep(b, t, now) == b
            else TransferError(b, t, now) == None && |TransferStep(b, t, now).entries| == |b.entries| + 2
  {
    TransfersStayBalanced(ts);
    TransferOutcome(Transfers(ts), t, now);
    assert (EventOf(t) + ":debit" in Transfers(ts).bySource) == (EventOf(t) + ":credit" in Transfers(ts).bySource);
  }

  /** Mixed with single postings it is not atomic: a single posting can use up the credit leg's source first. */
  lemma HalfTransferIsPossible(d: Draft, t: Transfer)
    requires d == Draft("one", "fees", "fee", "USD", Some(1.0), "x:credit", "k", "")
    requires t == Transfer("cash", "fees", "deposit", Some(5.0), "USD", "x", "c", "", "two", "three")
    ensures var b := PostStep(EmptyBooks, d, 0);
            && FreshIds(b, t)
            && TransferError(b, t, 0) == Some(SourceAlreadyApplied)
            && |TransferStep(b, t, 0).entries| == |b.entries| + 1
  {
    var b := PostStep(EmptyBooks, d, 0);
    assert b.entries == [EntryFor(EmptyBooks, d, 0)];
    SuffixesDiffer("x", "x");
    assert CreditSource(t) == "x:credit" && CreditSource(t) in b.bySource && DebitSource(t) !in b.bySource;
    TransferOutcome(b, t, 0);
  }
}
