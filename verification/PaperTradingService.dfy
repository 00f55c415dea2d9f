/** The service methods that change one paper account row, its positions and its ledger in place. */
module PaperTradingService {
  import opened Wrappers
  import opened RealMath
  import PaperSizing
  import opened PaperAccount
  import opened PaperInvariants
  import PaperReadings

  datatype Status = WasOpened | WasSkipped | WasDeferred | RolledBack

  class PaperTradingAccount {
    var active: bool
    var starting: real
    var cash: real
    var realized: real
    var settings: Settings
    var positions: seq<Position>
    var ledger: seq<Row>

    function State(): Account
      reads this
    {
      Account(active, starting, cash, realized, settings, positions, ledger)
    }

    constructor (balance: real, initial: Settings)
      ensures State() == Create(balance, initial)
      ensures active && starting == cash == balance && realized == 0.0 && settings == initial && positions == []
      ensures ledger == [Row(AccountCreated, 0.0, balance)]
    {
      active, starting, cash, realized, settings := true, balance, balance, 0.0, initial;
      positions := [];
      ledger := [Row(AccountCreated, 0.0, balance)];
    }

    method RecordAttempt(outcome: Outcome)
      modifies this`ledger
      ensures State() == Record(old(State()), outcome)
      ensures ledger == old(ledger) + [Row(Attempt(outcome), 0.0, cash)]
    {
      ledger := ledger + [Row(Attempt(outcome), 0.0, cash)];
    }

    /** The first objection of those that need no quote, and none exactly when none holds. */
    method FindSkipReason(c: Candidate, x: Context) returns (reason: Option<Reason>)
      ensures reason == SkipReason(State(), c, x) && IsFirst(Objections(State(), c, x), reason)
    {
      hide IsFirst, Objections, Unless, EffectiveMaxPositions, TooManyToday, DailyLossLimitOf, DirectionAllowed, HasOpenAsset,
           Incomplete, CountOpen, CountClass, RealizedSince;
      reason := None;
      if x.profile.None? {
        if x.caps.requireProfile { reason := Some(ProfileUnavailable); }
      } else if !x.profile.value.allowsPaper {
        reason := Some(ProfileExcludesPaper);
      } else if !x.profile.value.matches {
        reason := Some(PreferenceMismatch);
      }
      if x.staleReason.Some? { reason := Some(Stale(x.staleReason.value)); }
      reason := Unless(reason, CountOpen(positions) >= EffectiveMaxPositions(settings, x), MaxOpenPositions);
      reason := Unless(reason, TooManyToday(State(), x), ProfileDailyTradeLimit);
      var lost := RealizedSince(positions, x.dayStart);
      reason := Unless(reason, lost <= -DailyLossLimitOf(State(), x), DailyLossLimit);
      reason := Unless(reason, c.score < settings.minScore, ScoreBelowMinimum);
      reason := Unless(reason, !DirectionAllowed(settings, c.side), DirectionNotAllowed);
      reason := Unless(reason, HasOpenAsset(positions, c.asset), DuplicateOpenAsset);
      reason := Unless(reason, CountClass(positions, c.assetClass) >= x.caps.perClass, MaxOpenPositionsAssetClass);
      reason := Unless(reason, settings.classes != {} && c.assetClass !in settings.classes, AssetClassNotAllowed);
      reason := Unless(reason, Incomplete(c), IncompleteSignalLevels);
      SkipReasonIsFirst(State(), c, x);
    }

    /** Quote, geometry, size and exposure: a reason to skip, a reason to wait, or an order. */
    method PriceCandidate(c: Candidate, x: Context) returns (decision: Decision)
      requires !Incomplete(c)
      ensures decision == PricedDecision(State(), c, x)
      ensures decision.Buy? ==> PaperReadings.CostsAgainst(settings, c.side, x.price, decision.order.fill)
    {
      hide FillPrice, TargetOf, Geometry, OpenNotional, OpenRisk, StopRisk, SizingInputs, PaperReadings.CostsAgainst;
      if c.awaitingEntry { return Defer(WatchingForEntry); }
      if x.price <= 0.0 { return Defer(LivePriceUnavailable); }
      var deviation := Abs(x.price - c.entry) / Max(c.entry, 0.000000000001) * 10000.0;
      if deviation > x.caps.entryDeviationBps { return Skip(EntryDeviationTooLarge); }
      var fill := FillPrice(settings, c.side, x.price);
      PaperReadings.FillCostsAgainst(settings, c.side, x.price);
      var riskPerUnit := Abs(fill - c.stop);
      var target := TargetOf(settings.targetMode, c.targets);
      if riskPerUnit <= 0.0 { return Skip(InvalidRiskDistance); }
      if !Geometry(c.side, c.stop, fill, target) { return Skip(EntryNoLongerValid); }
      var sizing := PaperSizing.Size(SizingInputs(State(), c, x, fill));
      if sizing.Failure? { return Skip(SizingRefused(sizing.error)); }
      var quantity := sizing.value.quantity;
      var reason: Option<Reason> := None;
      if PctOfStart(State(), OpenNotional(State()) + sizing.value.notional) > x.caps.exposurePct {
        reason, quantity := Some(MaxTotalExposure), 0.0;
      }
      PaperSizing.SizeIsSafe(SizingInputs(State(), c, x, fill));
      var projectedRisk := PctOfStart(State(), OpenRisk(State()) + StopRisk(fill, c.stop, quantity));
      if quantity > 0.0 && projectedRisk > x.caps.openRiskPct {
        reason, quantity := Some(MaxOpenRisk), 0.0;
      }
      if quantity > 0.0 {
        decision := Buy(Order(fill, target, sizing.value));
      } else {
        decision := Skip(reason.value);
      }
    }

    /** One candidate signal, in one transaction. */
    method OpenCandidate(c: Candidate, x: Context) returns (status: Status)
      modifies this
      ensures State() == OpenStep(old(State()), c, x)
      ensures status == WasOpened <==> Decide(old(State()), c, x).Buy? && !Aborted(old(State()), x)
      ensures status == WasOpened ==> cash >= 0.0 && |positions| == |old(positions)| + 1 && settings == old(settings)
      ensures status == WasOpened ==>
                var p := positions[|old(positions)|];
                && positions == old(positions) + [p]
                && p.signal == c.signal && p.side == c.side && p.isOpen && p.price == x.price
                && PaperReadings.CostsAgainst(settings, c.side, x.price, p.fill)
      ensures status == RolledBack ==> State() == old(State())
    {
      hide SkipReason, PricedDecision, PaperReadings.CostsAgainst;
      if !x.admitted { return WasSkipped; }
      if !active || !settings.autoTrade {
        RecordAttempt(Skipped);
        return WasSkipped;
      }
      if HasSignal(positions, c.signal) || !x.accessProven { return WasSkipped; }
      var reason := FindSkipReason(c, x);
      if reason.Some? {
        RecordAttempt(Skipped);
        return WasSkipped;
      }
      assert !Incomplete(c) by { CompleteWithoutReason(State(), c, x); }
      var decision := PriceCandidate(c, x);
      assert decision == Decide(State(), c, x);
      match decision {
        case Skip(_) =>
          RecordAttempt(Skipped);
          status := WasSkipped;
        case Defer(_) =>
          RecordAttempt(if x.retryDeadlinePassed then Skipped else Deferred);
          status := WasDeferred;
        case Ignore =>
          status := WasSkipped;
        case Buy(order) =>
          OpeningNeverOverdraws(State(), c, x);
          if Aborted(State(), x) { return RolledBack; }
          cash := cash - order.size.totalRequired;
          positions := positions + [NewPosition(c, x, order)];
          ledger := ledger + [Row(PositionOpened(x.newId), -order.size.totalRequired, cash)];
          RecordAttempt(Opened);
          status := WasOpened;
      }
    }

    lemma CompleteWithoutReason(a: Account, c: Candidate, x: Context)
      requires SkipReason(a, c, x) == None
      ensures !Incomplete(c)
    {}

    /** One position at one quote, in one transaction. */
    method MarkOne(id: string, price: real, force: Option<string>, now: int) returns (closed: bool)
      requires price > 0.0
      modifies this
      ensures State() == MarkStep(old(State()), id, price, force, now)
      ensures closed <==> CountOpen(positions) < CountOpen(old(positions))
      ensures closed ==> CountOpen(positions) == CountOpen(old(positions)) - 1
      ensures !closed ==> CountOpen(positions) == CountOpen(old(positions))
    {
      hide Gross, ExitFee, RiskOf, CountOpen;
      var i := IndexOf(positions, id);
      if i == |positions| || !positions[i].isOpen { return false; }
      var position := positions[i];
      var gross := Gross(position, price);
      position := position.(price := price, unrealized := gross);
      var exit: Option<ExitReason> := if force.Some? then Some(Forced(force.value)) else None;
      if exit.None? {
        if TargetReached(position, price) {
          exit := Some(TargetHit);
        } else if StopReached(position, price) {
          exit := Some(StopHit);
        }
      }
      assert exit == ExitAt(positions[i], price, force);
      if exit.None? {
        CountOpenUpdate(positions, i, position);
        positions := positions[i := position];
        return false;
      }
      var exitFee := position.quantity * price * (settings.feeBps / 10000.0);
      assert exitFee == ExitFee(positions[i], price, settings.feeBps) by { FeeIs(positions[i], price, settings.feeBps); }
      var netPnl := gross - position.entryFee - exitFee;
      var riskAmount := RiskOf(position);
      assert riskAmount == RiskOf(positions[i]) by { SameRisk(positions[i], position); }
      cash := cash + (position.reserved + gross - exitFee);
      realized := realized + netPnl;
      position := position.(isOpen := false, exitFee := exitFee, realized := netPnl, unrealized := 0.0,
                            rMultiple := if riskAmount > 0.0 then netPnl / riskAmount else 0.0,
                            closedAt := now, exit := exit);
      CountOpenUpdate(positions, i, position);
      positions := positions[i := position];
      ledger := ledger + [Row(PositionClosed(id), position.reserved + gross - exitFee, cash)];
      closed := true;
    }

    lemma FeeIs(p: Position, price: real, feeBps: real)
      ensures ExitFee(p, price, feeBps) == p.quantity * price * (feeBps / 10000.0)
    {}

    lemma SameRisk(p: Position, q: Position)
      requires p.fill == q.fill && p.stop == q.stop && p.quantity == q.quantity
      ensures RiskOf(p) == RiskOf(q)
    {}

    method ResetAccount(requested: real) returns (accepted: bool)
      modifies this
      ensures State() == ResetStep(old(State()), requested)
      ensures accepted <==> CountOpen(old(positions)) == 0
    {
      if CountOpen(positions) > 0 { return false; }
      var balance := Clamp(requested, MIN_BALANCE, MAX_BALANCE);
      positions := [];
      starting, cash, realized := balance, balance, 0.0;
      ledger := ledger + [Row(AccountReset, 0.0, balance)];
      accepted := true;
    }

    method UpdateSettings(c: Changes) returns (accepted: bool)
      modifies this`settings, this`ledger
      ensures State() == UpdateStep(old(State()), c)
      ensures accepted <==> !Refused(c)
    {
      if Refused(c) { return false; }
      settings := Merge(settings, c);
      ledger := ledger + [Row(SettingsUpdated, 0.0, cash)];
      accepted := true;
    }

    /** Whatever one other worker does. */
    method Act(e: Event)
      modifies this
      ensures State() == Step(old(State()), e)
    {
      hide OpenStep, MarkStep, ResetStep, UpdateStep;
      match e {
        case OpenEvent(c, x) => var status := OpenCandidate(c, x);
        case MarkEvent(id, price, force, now) =>
          if price > 0.0 {
            var done := MarkOne(id, price, force, now);
          } else {
            NoQuoteNoMark(State(), id, price, force, now);
          }
        case ResetEvent(balance) => var accepted := ResetAccount(balance);
        case UpdateEvent(c) => var accepted := UpdateSettings(c);
      }
    }

    method ActAll(es: seq<Event>)
      modifies this
      ensures State() == Run(old(State()), es)
    {
      hide Step;
      for k := 0 to |es|
        invariant State() == Run(old(State()), es[..k])
      {
        assert es[..k + 1][..k] == es[..k];
        Act(es[k]);
      }
      assert es[..|es|] == es;
    }

    /** Closes the position at index k at this price unless it is closed already. */
    method CloseAt(k: nat, id: string, price: real, why: string, now: int) returns (done: bool)
      requires Inv(State()) && k < |positions| && positions[k].id == id && price > 0.0
      modifies this
      ensures Inv(State()) && |positions| == |old(positions)| && !positions[k].isOpen
      ensures positions == old(positions)[k := positions[k]] && positions[k].id == id
      ensures done <==> old(positions)[k].isOpen
      ensures done ==> positions[k].price == price && positions[k].exit == Some(Forced(why))
      ensures done ==> CountOpen(positions) == CountOpen(old(positions)) - 1
      ensures !done ==> State() == old(State())
    {
      hide Inv, MarkStep, CountOpen;
      ghost var a := State();
      IdIsAt(a, k);
      if a.positions[k].isOpen { ForcedCloseHappens(a, k, price, why, now); } else { ClosedStays(a, k, price, why, now); }
      done := MarkOne(id, price, Some(why), now);
    }

    /** Prices one listed position and closes it, unless it has no price or is closed already. */
    method CloseListed(k: nat, row: Position, prices: map<string, real>, recent: set<string>, fallback: bool, why: string, now: int)
      returns (done: bool, marked: bool)
      requires Inv(State()) && k < |positions| && positions[k].id == row.id
      modifies this
      ensures Inv(State()) && |positions| == |old(positions)| && positions == old(positions)[k := positions[k]] && positions[k].id == row.id
      ensures marked <==> ByLastMark(row, prices, recent, fallback)
      ensures done <==> ClosePrice(row, prices, recent, fallback) > 0.0 && old(positions)[k].isOpen
      ensures ClosePrice(row, prices, recent, fallback) > 0.0 ==> !positions[k].isOpen
      ensures done ==> positions[k].price == ClosePrice(row, prices, recent, fallback) && positions[k].exit == Some(Forced(why))
      ensures done ==> CountOpen(positions) == CountOpen(old(positions)) - 1
      ensures !done ==> State() == old(State())
    {
      hide Inv, CountOpen, ClosePrice, ByLastMark;
      var price := if row.asset in prices then prices[row.asset] else 0.0;
      marked := price <= 0.0 && fallback && row.price > 0.0 && row.id in recent;
      if marked { price := row.price; }
      PricedLikeThis(row, prices, recent, fallback, price, marked);
      if price <= 0.0 { return false, marked; }
      done := CloseAt(k, row.id, price, why, now);
    }

    /** Other workers act; positions keep their places, and closed ones stay as they are. */
    method OthersAct(es: seq<Event>)
      requires Inv(State()) && forall i :: 0 <= i < |es| ==> !es[i].ResetEvent?
      modifies this
      ensures Inv(State()) && Extends(old(positions), positions)
      ensures es == [] ==> State() == old(State())
    {
      hide Inv;
      ghost var before := State();
      ActAll(es);
      RunKeepsInv(before, es);
      EachPositionSettlesAtMostOnce(before, es);
    }

    /**
     * Closes every open position that can be priced: by a live quote or, when allowed, by a recent last
     * mark. Before each of its transactions other workers may act. What could be priced is closed in the
     * end, whoever closed it. When nobody else acts, what stays open is exactly what had no price.
     */
    method CloseAllPositions(prices: map<string, real>, recent: set<string>, fallback: bool, why: string, now: int, others: seq<seq<Event>>)
      returns (closed: nat, failed: nat, byLastMark: nat)
      requires Inv(State()) && |others| == |positions|
      requires forall k, i :: 0 <= k < |others| && 0 <= i < |others[k]| ==> !others[k][i].ResetEvent?
      modifies this
      ensures Inv(State()) && Extends(old(positions), positions)
      ensures closed + failed == CountOpen(old(positions))
      ensures closed <= Count(old(positions), p => ClosePrice(p, prices, recent, fallback) > 0.0)
      ensures byLastMark == Count(old(positions), p => ByLastMark(p, prices, recent, fallback))
      ensures forall i :: 0 <= i < |old(positions)| && ClosePrice(old(positions)[i], prices, recent, fallback) > 0.0 ==> !positions[i].isOpen
      ensures (forall k :: 0 <= k < |others| ==> others[k] == []) ==>
                && closed == Count(old(positions), p => ClosePrice(p, prices, recent, fallback) > 0.0)
                && CountOpen(positions) == failed && |positions| == |old(positions)|
                && forall i :: 0 <= i < |positions| ==> ClosedAsPriced(old(positions)[i], positions[i], prices, recent, fallback, why)
    {
      hide Inv, CountOpen, ClosePrice, ByLastMark, Count, Reached, Alone, Extends;
      closed, failed, byLastMark := 0, 0, 0;
      var rows := positions;
      ghost var alone := forall k :: 0 <= k < |others| ==> others[k] == [];
      ghost var priced := (p: Position) => ClosePrice(p, prices, recent, fallback) > 0.0;
      ghost var marks := (p: Position) => ByLastMark(p, prices, recent, fallback);
      NothingClosedYet(rows, prices, recent, fallback, why, priced, marks);
      for k := 0 to |rows|
        invariant Inv(State()) && Reached(rows, k, positions, prices, recent, fallback)
        invariant closed + failed == CountOpen(rows[..k])
        invariant closed <= Count(rows[..k], priced) && byLastMark == Count(rows[..k], marks)
        invariant alone ==> closed == Count(rows[..k], priced) && Alone(rows, k, positions, closed, prices, recent, fallback, why)
      {
        var row := rows[k];
        CountOpenNext(rows, k);
        CountNext(rows, k, priced);
        CountNext(rows, k, marks);
        ghost var before := positions;
        OthersAct(others[k]);
        ReachedStays(rows, k, before, positions, prices, recent, fallback);
        ghost var met := positions;
        if row.isOpen {
          var done, marked := CloseListed(k, row, prices, recent, fallback, why, now);
          ReachedNext(rows, k, met, positions, prices, recent, fallback);
          if alone { AloneCloses(rows, k, met, positions, closed, done, prices, recent, fallback, why); }
          if marked { byLastMark := byLastMark + 1; }
          if done { closed := closed + 1; } else { failed := failed + 1; }
        } else {
          ReachedNext(rows, k, met, positions, prices, recent, fallback);
          if alone { AlonePasses(rows, k, met, closed, prices, recent, fallback, why); }
        }
      }
      assert rows[..|rows|] == rows;
      AllReached(rows, positions, prices, recent, fallback);
      if alone { AloneInTheEnd(rows, positions, closed, prices, recent, fallback, why); }
    }
  }

  // ---- How far closing all has come ----

  /** The first k positions of the list that had a price are closed. */
  predicate Reached(rows: seq<Position>, k: nat, ps: seq<Position>, prices: map<string, real>, recent: set<string>, fallback: bool) {
    && k <= |rows| && Extends(rows, ps)
    && forall i :: 0 <= i < k && ClosePrice(rows[i], prices, recent, fallback) > 0.0 ==> !ps[i].isOpen
  }

  /** With nobody else acting: the first k are dealt with as priced, the others untouched. */
  predicate Alone(rows: seq<Position>, k: nat, ps: seq<Position>, closed: nat, prices: map<string, real>, recent: set<string>,
                  fallback: bool, why: string) {
    && k <= |rows| == |ps| && CountOpen(ps) + closed == CountOpen(rows)
    && (forall i :: 0 <= i < k ==> ClosedAsPriced(rows[i], ps[i], prices, recent, fallback, why))
    && (forall i :: k <= i < |rows| ==> ps[i] == rows[i])
  }

  lemma NothingClosedYet(rows: seq<Position>, prices: map<string, real>, recent: set<string>, fallback: bool, why: string,
                         f: Position -> bool, g: Position -> bool)
    ensures Reached(rows, 0, rows, prices, recent, fallback) && Alone(rows, 0, rows, 0, prices, recent, fallback, why)
    ensures CountOpen(rows[..0]) == 0 && Count(rows[..0], f) == 0 && Count(rows[..0], g) == 0
  {
    hide ClosePrice;
  }

  lemma ReachedStays(rows: seq<Position>, k: nat, ps: seq<Position>, qs: seq<Position>, prices: map<string, real>,
                     recent: set<string>, fallback: bool)
    requires Reached(rows, k, ps, prices, recent, fallback) && Extends(ps, qs)
    ensures Reached(rows, k, qs, prices, recent, fallback) && |rows| <= |qs| && (k < |rows| ==> qs[k].id == rows[k].id)
  {
    hide ClosePrice;
  }

  lemma ReachedNext(rows: seq<Position>, k: nat, ps: seq<Position>, qs: seq<Position>, prices: map<string, real>,
                    recent: set<string>, fallback: bool)
    requires k < |rows| && Reached(rows, k, ps, prices, recent, fallback) && |rows| <= |ps| == |qs|
    requires qs == ps[k := qs[k]] && qs[k].id == ps[k].id && (!ps[k].isOpen ==> qs[k] == ps[k])
    requires rows[k].isOpen && ClosePrice(rows[k], prices, recent, fallback) > 0.0 ==> !qs[k].isOpen
    ensures Reached(rows, k + 1, qs, prices, recent, fallback)
  {
    hide ClosePrice;
    assert rows[k].id == ps[k].id;
  }

  lemma AllReached(rows: seq<Position>, ps: seq<Position>, prices: map<string, real>, recent: set<string>, fallback: bool)
    requires Reached(rows, |rows|, ps, prices, recent, fallback)
    ensures Extends(rows, ps)
    ensures forall i :: 0 <= i < |rows| && ClosePrice(rows[i], prices, recent, fallback) > 0.0 ==> !ps[i].isOpen
  {
    hide ClosePrice;
  }

  lemma AloneCloses(rows: seq<Position>, k: nat, ps: seq<Position>, qs: seq<Position>, closed: nat, done: bool, prices: map<string, real>,
                    recent: set<string>, fallback: bool, why: string)
    requires k < |rows| && Alone(rows, k, ps, closed, prices, recent, fallback, why) && |ps| == |qs| && qs == ps[k := qs[k]]
    requires rows[k].isOpen && (done <==> ClosePrice(rows[k], prices, recent, fallback) > 0.0 && ps[k].isOpen)
    requires ClosePrice(rows[k], prices, recent, fallback) > 0.0 ==> !qs[k].isOpen
    requires done ==> qs[k].price == ClosePrice(rows[k], prices, recent, fallback) && qs[k].exit == Some(Forced(why))
    requires CountOpen(qs) == CountOpen(ps) - (if done then 1 else 0) && (!done ==> qs == ps)
    ensures done <==> ClosePrice(rows[k], prices, recent, fallback) > 0.0
    ensures Alone(rows, k + 1, qs, closed + (if done then 1 else 0), prices, recent, fallback, why)
  {
    hide ClosePrice, CountOpen;
  }

  lemma AlonePasses(rows: seq<Position>, k: nat, ps: seq<Position>, closed: nat, prices: map<string, real>,
                    recent: set<string>, fallback: bool, why: string)
    requires k < |rows| && Alone(rows, k, ps, closed, prices, recent, fallback, why) && !rows[k].isOpen
    ensures Alone(rows, k + 1, ps, closed, prices, recent, fallback, why)
  {
    hide ClosePrice, CountOpen;
  }

  lemma AloneInTheEnd(rows: seq<Position>, ps: seq<Position>, closed: nat, prices: map<string, real>,
                      recent: set<string>, fallback: bool, why: string)
    requires Alone(rows, |rows|, ps, closed, prices, recent, fallback, why)
    ensures |ps| == |rows| && CountOpen(ps) + closed == CountOpen(rows)
    ensures forall i :: 0 <= i < |rows| ==> ClosedAsPriced(rows[i], ps[i], prices, recent, fallback, why)
  {
    hide ClosePrice, CountOpen;
  }

  lemma NoQuoteNoMark(a: Account, id: string, price: real, force: Option<string>, now: int)
    requires price <= 0.0
    ensures MarkStep(a, id, price, force, now) == a
  {}

  /** How many open positions have a property. */
  function Count(ps: seq<Position>, f: Position -> bool): nat {
    if ps == [] then 0 else Count(ps[..|ps| - 1], f) + (if ps[|ps| - 1].isOpen && f(ps[|ps| - 1]) then 1 else 0)
  }

  lemma CountNext(ps: seq<Position>, k: nat, f: Position -> bool)
    requires k < |ps|
    ensures Count(ps[..k + 1], f) == Count(ps[..k], f) + (if ps[k].isOpen && f(ps[k]) then 1 else 0)
  {
    assert ps[..k + 1][..k] == ps[..k];
  }

  /** No live quote, but a recent last mark that may stand in for it. */
  predicate ByLastMark(p: Position, prices: map<string, real>, recent: set<string>, fallback: bool) {
    !(p.asset in prices && prices[p.asset] > 0.0) && fallback && p.price > 0.0 && p.id in recent
  }

  lemma ClosedStays(a: Account, k: nat, price: real, why: string, now: int)
    requires k < |a.positions| && !a.positions[k].isOpen && IndexOf(a.positions, a.positions[k].id) == k
    ensures MarkStep(a, a.positions[k].id, price, Some(why), now) == a
  {}

  /** The price a position is closed at, zero when there is none. */
  function ClosePrice(p: Position, prices: map<string, real>, recent: set<string>, fallback: bool): real {
    if p.asset in prices && prices[p.asset] > 0.0 then prices[p.asset]
    else if fallback && p.price > 0.0 && p.id in recent then p.price
    else 0.0
  }

  lemma PricedLikeThis(p: Position, prices: map<string, real>, recent: set<string>, fallback: bool, price: real, marked: bool)
    requires var quote := if p.asset in prices then prices[p.asset] else 0.0;
             && (marked <==> quote <= 0.0 && fallback && p.price > 0.0 && p.id in recent)
             && price == (if marked then p.price else quote)
    ensures marked <==> ByLastMark(p, prices, recent, fallback)
    ensures price > 0.0 <==> ClosePrice(p, prices, recent, fallback) > 0.0
    ensures price > 0.0 ==> price == ClosePrice(p, prices, recent, fallback)
  {}

  /** What becomes of a position when all are closed. */
  predicate ClosedAsPriced(before: Position, after: Position, prices: map<string, real>, recent: set<string>, fallback: bool, why: string) {
    && (after.isOpen <==> before.isOpen && ClosePrice(before, prices, recent, fallback) <= 0.0)
    && (before.isOpen && !after.isOpen ==>
          after.price == ClosePrice(before, prices, recent, fallback) && after.exit == Some(Forced(why)))
  }

  lemma {:induction false} CountOpenNext(ps: seq<Position>, k: nat)
    requires k < |ps|
    ensures CountOpen(ps[..k + 1]) == CountOpen(ps[..k]) + (if ps[k].isOpen then 1 else 0)
  {
    if k == 0 {
      assert ps[..1] == [ps[0]] && ps[..0] == [];
    } else {
      assert ps[..k + 1][1..] == ps[1..][..k] && ps[..k][1..] == ps[1..][..k - 1];
      CountOpenNext(ps[1..], k - 1);
    }
  }

  lemma IdIsAt(a: Account, k: nat)
    requires Inv(a) && k < |a.positions|
    ensures IndexOf(a.positions, a.positions[k].id) == k
  {}

  lemma ForcedCloseHappens(a: Account, k: nat, price: real, why: string, now: int)
    requires Inv(a) && k < |a.positions| && a.positions[k].isOpen && price > 0.0
    requires IndexOf(a.positions, a.positions[k].id) == k
    ensures var after := MarkStep(a, a.positions[k].id, price, Some(why), now);
            && Inv(after)
            && |after.positions| == |a.positions| && !after.positions[k].isOpen
            && after.positions == a.positions[k := after.positions[k]]
            && after.positions[k].id == a.positions[k].id
            && after.positions[k].price == price && after.positions[k].exit == Some(Forced(why))
            && CountOpen(after.positions) == CountOpen(a.positions) - 1
  {
    hide Gross, ExitFee, RiskOf, Inv, CountOpen;
    MarkKeepsInv(a, k, price, Some(why), now);
    CountOpenUpdate(a.positions, k, MarkAt(a, k, price, Some(why), now).positions[k]);
  }
}
