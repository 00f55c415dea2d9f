/**
 * What the steps of the paper account do to prices and amounts, said in the fields of orders, positions
 * and settings themselves and not through the functions PaperAccount computes them with.
 */
module PaperReadings {
  import opened Wrappers
  import opened RealMath
  import PaperSizing
  import opened PaperAccount

  // ---- The order ----

  /** The decision on a candidate that is bought is the priced one. */
  lemma BoughtAsPriced(a: Account, c: Candidate, x: Context)
    requires Decide(a, c, x).Buy?
    ensures !Incomplete(c) && PricedDecision(a, c, x) == Decide(a, c, x)
  {
    hide PricedDecision, ProfileReason, EffectiveMaxPositions, TooManyToday, DailyLossLimitOf, RealizedSince, CountOpen, CountClass,
         HasSignal, HasOpenAsset, DirectionAllowed;
  }

  lemma ShareOfPrice(price: real, bps: real)
    ensures price * (1.0 + bps / 10000.0) == price + price * bps / 10000.0
    ensures price * (1.0 - bps / 10000.0) == price - price * bps / 10000.0
  {}

  /**
   * Spread and slippage always count against the trader: a long is filled above the quote and a short
   * below it, by their sum in basis points. Settings are never negative (PaperInvariants.SettingsOk).
   */
  lemma FilledAgainstTheTrader(a: Account, c: Candidate, x: Context)
    requires Decide(a, c, x).Buy?
    ensures var o, s := Decide(a, c, x).order, a.settings;
            var costs := x.price * (s.spreadBps + s.slippageBps) / 10000.0;
            && x.price > 0.0
            && (c.side == Long ==> o.fill == x.price + costs) && (c.side == Short ==> o.fill == x.price - costs)
            && (s.spreadBps >= 0.0 && s.slippageBps >= 0.0 ==> if c.side == Long then o.fill >= x.price else o.fill <= x.price)
  {
    hide Decide, Incomplete, PricedDecision;
    BoughtAsPriced(a, c, x);
    PricedFill(a, c, x);
  }

  lemma PricedFill(a: Account, c: Candidate, x: Context)
    requires !Incomplete(c) && PricedDecision(a, c, x).Buy?
    ensures var o, s := PricedDecision(a, c, x).order, a.settings;
            var costs := x.price * (s.spreadBps + s.slippageBps) / 10000.0;
            && x.price > 0.0
            && (c.side == Long ==> o.fill == x.price + costs) && (c.side == Short ==> o.fill == x.price - costs)
            && (s.spreadBps >= 0.0 && s.slippageBps >= 0.0 ==> if c.side == Long then o.fill >= x.price else o.fill <= x.price)
  {
    hide Incomplete, PaperSizing.Size, TargetOf, Geometry, SizingInputs, PctOfStart, OpenNotional, OpenRisk, StopRisk, FillPrice;
    FillIs(a.settings, c.side, x.price);
  }

  /** Spread and slippage are added to the price of a long and taken off the price of a short. */
  predicate CostsAgainst(s: Settings, side: Side, price: real, fill: real) {
    fill - price == (if side == Long then 1.0 else -1.0) * price * (s.spreadBps + s.slippageBps) / 10000.0
  }

  lemma FillCostsAgainst(s: Settings, side: Side, price: real)
    ensures CostsAgainst(s, side, price, FillPrice(s, side, price))
  {
    ShareOfPrice(price, s.spreadBps + s.slippageBps);
  }

  lemma FillIs(s: Settings, side: Side, price: real)
    ensures var costs := price * (s.spreadBps + s.slippageBps) / 10000.0;
            && FillPrice(s, side, price) == (if side == Long then price + costs else price - costs)
            && (price > 0.0 && s.spreadBps >= 0.0 && s.slippageBps >= 0.0 ==> costs >= 0.0)
  {
    var bps := s.spreadBps + s.slippageBps;
    ShareOfPrice(price, bps);
    if price > 0.0 && s.spreadBps >= 0.0 && s.slippageBps >= 0.0 { ProductOrder(0.0, bps, price); }
  }

  /** The target is the one the settings ask for, or the last one when there are not so many. */
  lemma AimsAtTheChosenTarget(a: Account, c: Candidate, x: Context)
    requires Decide(a, c, x).Buy?
    ensures var target, mode, n := Decide(a, c, x).order.target, a.settings.targetMode, |c.targets|;
            && n > 0
            && (mode == TP1 || n == 1 ==> target == c.targets[0])
            && (mode == TP2 && n >= 2 ==> target == c.targets[1])
            && (mode == TP3 && n == 2 ==> target == c.targets[1])
            && (mode == TP3 && n >= 3 ==> target == c.targets[2])
  {
    hide Decide, PaperSizing.Size, FillPrice, Geometry, SizingInputs, PctOfStart, OpenNotional, OpenRisk, StopRisk;
    BoughtAsPriced(a, c, x);
  }

  /** The size is the one for the cash, the distance of the stop and the smaller of the two risk percentages. */
  lemma SizedForTheStop(a: Account, c: Candidate, x: Context)
    requires Decide(a, c, x).Buy?
    ensures var o, s := Decide(a, c, x).order, a.settings;
            var wanted := if x.profile.None? then s.riskPct else if x.profile.value.riskPct >= 0.01 then x.profile.value.riskPct else 0.01;
            var inputs := PaperSizing.Inputs(
                            a.cash, if wanted <= s.riskPct then wanted else s.riskPct,
                            if o.fill >= c.stop then o.fill - c.stop else c.stop - o.fill,
                            o.fill, x.caps.notionalPct, s.feeBps, x.caps.tolerance);
            PaperSizing.Size(inputs) == Success(o.size)
  {
    hide Decide, Incomplete, PaperSizing.Size, FillPrice, TargetOf, Geometry, PctOfStart, OpenNotional, OpenRisk, StopRisk;
    BoughtAsPriced(a, c, x);
  }

  lemma OverUnit(part: real, unit: real, scale: real, bound: real)
    requires unit > 0.0
    ensures part / unit * scale > bound <==> part * scale > bound * unit
  {
    var share := part / unit;
    ShareTimes(part, unit);
    if share * scale > bound { StrictProduct(bound, share * scale, unit); } else { ProductOrder(share * scale, bound, unit); }
    assert share * scale * unit == part * scale;
  }

  /** What a candidate's quote, geometry, size and exposure lead to, in the order in which they are looked at. */
  lemma PricedExactly(a: Account, c: Candidate, x: Context)
    requires !Incomplete(c)
    ensures var d, fill, target := PricedDecision(a, c, x), FillPrice(a.settings, c.side, x.price), TargetOf(a.settings.targetMode, c.targets);
            var base, unit := if a.starting >= 0.000000001 then a.starting else 0.000000001,
                              if c.entry >= 0.000000000001 then c.entry else 0.000000000001;
            var far := (if x.price >= c.entry then x.price - c.entry else c.entry - x.price) * 10000.0 > x.caps.entryDeviationBps * unit;
            var right := if c.side == Long then c.stop < fill < target else target < fill < c.stop;
            var size := PaperSizing.Size(SizingInputs(a, c, x, fill));
            var priced := !c.awaitingEntry && x.price > 0.0;
            var sized := priced && !far && right && size.Success?;
            && (d == Defer(WatchingForEntry) <==> c.awaitingEntry)
            && (d == Defer(LivePriceUnavailable) <==> !c.awaitingEntry && x.price <= 0.0)
            && (d == Skip(EntryDeviationTooLarge) <==> priced && far)
            && (d == Skip(InvalidRiskDistance) <==> priced && !far && fill == c.stop)
            && (d == Skip(EntryNoLongerValid) <==> priced && !far && fill != c.stop && !right)
            && (d.Skip? && d.reason.SizingRefused? <==> priced && !far && right && size.Failure?)
            && (d.Skip? && d.reason.SizingRefused? ==> size == Failure(d.reason.refusal))
            && (sized ==>
                  var crowded := (OpenNotional(a) + size.value.notional) * 100.0 > x.caps.exposurePct * base;
                  var risk := StopRisk(fill, c.stop, size.value.quantity);
                  var risky := (OpenRisk(a) + risk) * 100.0 > x.caps.openRiskPct * base;
                  && (d == Skip(MaxTotalExposure) <==> crowded)
                  && (d == Skip(MaxOpenRisk) <==> !crowded && risky)
                  && (d.Buy? <==> !crowded && !risky)
                  && (d.Buy? ==> d.order == Order(fill, target, size.value)))
            && (d.Buy? ==> sized)
  {
    hide Incomplete, PaperSizing.Size, FillPrice, TargetOf, SizingInputs, OpenNotional, OpenRisk, StopRisk;
    var fill := FillPrice(a.settings, c.side, x.price);
    OverUnit(Abs(x.price - c.entry), Max(c.entry, 0.000000000001), 10000.0, x.caps.entryDeviationBps);
    if PaperSizing.Size(SizingInputs(a, c, x, fill)).Success? {
      var size := PaperSizing.Size(SizingInputs(a, c, x, fill)).value;
      OverUnit(OpenNotional(a) + size.notional, Max(a.starting, 0.000000001), 100.0, x.caps.exposurePct);
      OverUnit(OpenRisk(a) + StopRisk(fill, c.stop, size.quantity), Max(a.starting, 0.000000001), 100.0, x.caps.openRiskPct);
    }
  }

  // ---- Before the price ----

  /** Who is not even looked at, and whose account does not trade. */
  lemma IgnoredExactly(a: Account, c: Candidate, x: Context)
    ensures var trades := a.active && a.settings.autoTrade;
            var known := exists i :: 0 <= i < |a.positions| && a.positions[i].signal == c.signal;
            && (Decide(a, c, x) == Ignore <==> !x.admitted || (trades && (known || !x.accessProven)))
            && (x.admitted && !trades ==> Decide(a, c, x) == Skip(AutoTradeDisabled))
  {
    hide SkipReason, PricedDecision;
    var known := exists i :: 0 <= i < |a.positions| && a.positions[i].signal == c.signal;
    assert HasSignal(a.positions, c.signal) == known;
    if x.admitted && a.active && a.settings.autoTrade && !known && x.accessProven { LooksForAnObjection(a, c, x); }
  }

  /** A reason without a price is reported as it is; without one the price decides. */
  lemma LooksForAnObjection(a: Account, c: Candidate, x: Context)
    requires x.admitted && a.active && a.settings.autoTrade && !HasSignal(a.positions, c.signal) && x.accessProven
    ensures SkipReason(a, c, x).Some? ==> Decide(a, c, x) == Skip(SkipReason(a, c, x).value)
    ensures SkipReason(a, c, x).None? ==> !Incomplete(c) && Decide(a, c, x) == PricedDecision(a, c, x) && Decide(a, c, x) != Ignore
  {
    hide PaperSizing.Size, ProfileReason, EffectiveMaxPositions, TooManyToday, DailyLossLimitOf, RealizedSince, CountOpen, CountClass,
         HasOpenAsset, DirectionAllowed, FillPrice, TargetOf, Geometry, SizingInputs, PctOfStart;
  }

  /** The conditions behind the nine objections that are not about the profile. */
  lemma ObjectionsAre(a: Account, c: Candidate, x: Context)
    ensures var all, s, open := Objections(a, c, x), a.settings, CountOpen(a.positions);
            var own := if x.profile.None? then x.caps.dailyLossPct
                       else if x.profile.value.maxDailyLossPct >= 0.1 then x.profile.value.maxDailyLossPct else 0.1;
            var lossPct := if own <= x.caps.dailyLossPct then own else x.caps.dailyLossPct;
            && |all| == 13
            && (all[4].0 <==> open >= s.maxOpenPositions
                              || (x.profile.Some? && x.profile.value.maxConcurrent != 0
                                  && open >= 1 && open >= x.profile.value.maxConcurrent))
            && (all[5].0 <==> x.profile.Some? && 0 < x.profile.value.maxDailyTrades <= OpenedSince(a.positions, x.dayStart))
            && (all[6].0 <==> 100.0 * RealizedSince(a.positions, x.dayStart) + a.starting * lossPct <= 0.0)
            && (all[7].0 <==> c.score < s.minScore)
            && (all[8].0 <==> (s.directions == LongOnly && c.side == Short) || (s.directions == ShortOnly && c.side == Long))
            && (all[9].0 <==> exists i :: 0 <= i < |a.positions| && a.positions[i].isOpen && a.positions[i].asset == c.asset)
            && (all[10].0 <==> CountClass(a.positions, c.assetClass) >= x.caps.perClass)
            && (all[11].0 <==> s.classes != {} && c.assetClass !in s.classes)
            && (all[12].0 <==> c.entry <= 0.0 || c.stop <= 0.0 || |c.targets| == 0)
  {
    ObjectionAt(a, c, x);
    hide Objections, CountOpen, CountClass, OpenedSince, RealizedSince;
  }

  /** What a position adds to the three tallies of the day. */
  lemma {:induction false} TalliesOfOneMore(ps: seq<Position>, p: Position, t: int)
    ensures CountOpen([]) == OpenedSince([], t) == CountClass([], p.assetClass) == 0 && RealizedSince([], t) == 0.0
    ensures CountOpen(ps + [p]) == CountOpen(ps) + (if p.isOpen then 1 else 0)
    ensures OpenedSince(ps + [p], t) == OpenedSince(ps, t) + (if p.openedAt >= t then 1 else 0)
    ensures RealizedSince(ps + [p], t) == RealizedSince(ps, t) + (if !p.isOpen && p.closedAt >= t then p.realized else 0.0)
  {
    if ps == [] {
      assert ps + [p] == [p];
    } else {
      assert (ps + [p])[1..] == ps[1..] + [p];
      TalliesOfOneMore(ps[1..], p, t);
    }
  }

  // ---- Opening ----

  /** Everything an opening writes. */
  lemma OpenedExactly(a: Account, c: Candidate, x: Context)
    requires Decide(a, c, x).Buy? && !Aborted(a, x) && a.cash >= Decide(a, c, x).order.size.totalRequired
    ensures var o, after, n := Decide(a, c, x).order, OpenStep(a, c, x), |a.positions|;
            && |after.positions| == n + 1 && after.positions[..n] == a.positions
            && (var p := after.positions[n];
                && p.id == x.newId && p.signal == c.signal && p.asset == c.asset && p.assetClass == c.assetClass && p.side == c.side
                && p.isOpen && p.exit == None && p.openedAt == x.now
                && p.fill == o.fill && p.price == x.price && p.stop == c.stop && p.target == o.target
                && p.quantity == o.size.quantity && p.notional == p.reserved == o.size.notional && p.entryFee == o.size.entryFee
                && p.exitFee == p.unrealized == p.realized == p.rMultiple == 0.0)
            && after.cash == a.cash - o.size.totalRequired
            && after.ledger == a.ledger + [Row(PositionOpened(x.newId), -o.size.totalRequired, after.cash),
                                           Row(Attempt(Opened), 0.0, after.cash)]
            && (after.active, after.starting, after.realized, after.settings) == (a.active, a.starting, a.realized, a.settings)
  {
    hide Decide, Aborted;
  }

  /** A candidate that is not bought leaves at most one row without money; a rejected transaction leaves nothing. */
  lemma OtherwiseOnlyAnAttempt(a: Account, c: Candidate, x: Context)
    ensures var d, after := Decide(a, c, x), OpenStep(a, c, x);
            && (d.Ignore? ==> after == a)
            && (d.Skip? ==> after == a.(ledger := a.ledger + [Row(Attempt(Skipped), 0.0, a.cash)]))
            && (d.Defer? ==>
                  after == a.(ledger := a.ledger + [Row(Attempt(if x.retryDeadlinePassed then Skipped else Deferred), 0.0, a.cash)]))
            && (d.Buy? && !x.exactlyOneEvidence ==> after == a)
            && (d.Buy? && (exists i :: 0 <= i < |a.positions| && a.positions[i].id == x.newId) ==> after == a)
  {
    hide Decide;
  }

  // ---- Marking ----

  lemma FoundAt(ps: seq<Position>, i: nat, id: string)
    requires i < |ps| && ps[i].id == id && forall j :: 0 <= j < i ==> ps[j].id != id
    ensures IndexOf(ps, id) == i
  {}

  /** The position as it is after a quote that closes nothing, or after the close. */
  function Profit(p: Position, price: real): real {
    p.quantity * (if p.side == Long then price - p.fill else p.fill - price)
  }

  /** A quote at or beyond the target or the stop closes the position; the target is looked at first. */
  function Why(p: Position, price: real, force: Option<string>): Option<ExitReason> {
    if force.Some? then Some(Forced(force.value))
    else if p.target > 0.0 && (price == p.target || (price > p.target <==> p.side == Long)) then Some(TargetHit)
    else if p.stop > 0.0 && (price == p.stop || (price < p.stop <==> p.side == Long)) then Some(StopHit)
    else None
  }

  lemma WhyItCloses(p: Position, price: real, force: Option<string>)
    ensures ExitAt(p, price, force) == Why(p, price, force)
  {}

  lemma ProfitIs(p: Position, price: real)
    ensures Gross(p, price) == Profit(p, price)
  {}

  lemma FeeOf(p: Position, price: real, feeBps: real)
    ensures ExitFee(p, price, feeBps) == p.quantity * price * feeBps / 10000.0
  {}

  lemma PerRisk(p: Position, net: real)
    requires RiskOf(p) > 0.0
    ensures net / RiskOf(p) * ((if p.fill >= p.stop then p.fill - p.stop else p.stop - p.fill) * p.quantity) == net
  {}

  lemma RiskIs(p: Position)
    ensures RiskOf(p) == (if p.fill >= p.stop then p.fill - p.stop else p.stop - p.fill) * p.quantity
  {}

  /**
   * Marking the position with this id: what a quote changes while the position stays open, and what is
   * booked on the position, the account and the ledger when it closes.
   */
  lemma MarkedExactly(a: Account, i: nat, id: string, price: real, force: Option<string>, now: int)
    requires i < |a.positions| && a.positions[i].id == id && forall j :: 0 <= j < i ==> a.positions[j].id != id
    requires price > 0.0
    ensures var p, after := a.positions[i], MarkStep(a, id, price, force, now);
            var why, profit, fee := Why(p, price, force), Profit(p, price), p.quantity * price * a.settings.feeBps / 10000.0;
            var net, risk := profit - p.entryFee - fee, (if p.fill >= p.stop then p.fill - p.stop else p.stop - p.fill) * p.quantity;
            if !p.isOpen then after == a
            else if why.None? then
              after == a.(positions := a.positions[i := p.(price := price, unrealized := profit)])
            else
              && |after.positions| == |a.positions|
              && (var q := after.positions[i];
                  && (risk > 0.0 ==> q.rMultiple * risk == net) && (risk <= 0.0 ==> q.rMultiple == 0.0)
                  && q == p.(isOpen := false, price := price, exitFee := fee, realized := net, unrealized := 0.0,
                             rMultiple := q.rMultiple, closedAt := now, exit := why)
                  && after == a.(cash := a.cash + p.reserved + profit - fee, realized := a.realized + net,
                                 positions := a.positions[i := q],
                                 ledger := a.ledger + [Row(PositionClosed(id), p.reserved + profit - fee, after.cash)]))
  {
    hide Gross, ExitFee, RiskOf, ExitAt, Why, Profit, IndexOf;
    FoundAt(a.positions, i, id);
    var p := a.positions[i];
    WhyItCloses(p, price, force);
    ProfitIs(p, price);
    FeeOf(p, price, a.settings.feeBps);
    RiskIs(p);
    if RiskOf(p) > 0.0 { PerRisk(p, Gross(p, price) - p.entryFee - ExitFee(p, price, a.settings.feeBps)); }
  }

  // ---- Settings and resets ----

  /** after is what an update makes of a number: kept, read and cut to its range, or the default. */
  predicate Taken(g: Given<real>, before: real, after: real, default: real, low: real, high: real) {
    && (g.Absent? ==> after == before)
    && (g.Unreadable? ==> after == default)
    && (g.Value? && g.value < low ==> after == low) && (g.Value? && g.value > high ==> after == high)
    && (g.Value? && low <= g.value <= high ==> after == g.value)
  }

  predicate TakenInt(g: Given<int>, before: int, after: int, low: int, high: int) {
    && (g.Absent? ==> after == before)
    && (g.Value? && g.value < low ==> after == low) && (g.Value? && g.value > high ==> after == high)
    && (g.Value? && low <= g.value <= high ==> after == g.value)
  }

  predicate Chosen<T(==)>(g: Given<T>, before: T, after: T) {
    (g.Absent? ==> after == before) && (g.Value? ==> after == g.value)
  }

  /** A refused update changes nothing; an accepted one takes over every field, each within its own range. */
  lemma UpdatedExactly(a: Account, c: Changes)
    ensures var refused := c.targetMode.Unreadable? || c.directions.Unreadable? || c.maxOpenPositions.Unreadable? || c.classes.Unreadable?;
            var after, s, t := UpdateStep(a, c), a.settings, UpdateStep(a, c).settings;
            if refused then after == a
            else
              && after == a.(settings := t, ledger := a.ledger + [Row(SettingsUpdated, 0.0, a.cash)])
              && Taken(c.riskPct, s.riskPct, t.riskPct, 1.0, 0.1, 10.0) && Taken(c.minScore, s.minScore, t.minScore, 0.0, 0.0, 100.0)
              && Taken(c.spreadBps, s.spreadBps, t.spreadBps, 0.0, 0.0, 500.0)
              && Taken(c.slippageBps, s.slippageBps, t.slippageBps, 0.0, 0.0, 500.0)
              && Taken(c.feeBps, s.feeBps, t.feeBps, 0.0, 0.0, 500.0)
              && TakenInt(c.maxOpenPositions, s.maxOpenPositions, t.maxOpenPositions, 1, 100)
              && (c.autoTrade.Unreadable? || Chosen(c.autoTrade, s.autoTrade, t.autoTrade))
              && Chosen(c.targetMode, s.targetMode, t.targetMode)
              && Chosen(c.directions, s.directions, t.directions) && Chosen(c.classes, s.classes, t.classes)
  {
    hide Taken, TakenInt, Number, ClampInt;
    var s := a.settings;
    NumberTaken(c.riskPct, s.riskPct, 1.0, 0.1, 10.0);
    NumberTaken(c.minScore, s.minScore, 0.0, 0.0, 100.0);
    NumberTaken(c.spreadBps, s.spreadBps, 0.0, 0.0, 500.0);
    NumberTaken(c.slippageBps, s.slippageBps, 0.0, 0.0, 500.0);
    NumberTaken(c.feeBps, s.feeBps, 0.0, 0.0, 500.0);
    CountTaken(c.maxOpenPositions, s.maxOpenPositions, 1, 100);
  }

  lemma NumberTaken(g: Given<real>, current: real, default: real, low: real, high: real)
    requires low <= default <= high
    ensures Taken(g, current, Number(g, current, default, low, high), default, low, high)
  {}

  lemma CountTaken(g: Given<int>, current: int, low: int, high: int)
    requires low <= high
    ensures TakenInt(g, current, if g.Value? then ClampInt(g.value, low, high) else current, low, high)
  {}

  /** A reset starts over with the balance asked for, at least 50 and at most 100 million, unless a position is open. */
  lemma ResetExactly(a: Account, requested: real)
    ensures var after := ResetStep(a, requested);
            var balance := if requested < 50.0 then 50.0 else if requested > 100000000.0 then 100000000.0 else requested;
            if exists i :: 0 <= i < |a.positions| && a.positions[i].isOpen then after == a
            else after == a.(starting := balance, cash := balance, realized := 0.0, positions := [],
                             ledger := a.ledger + [Row(AccountReset, 0.0, balance)])
  {
    SomeOpen(a.positions);
  }

  lemma {:induction false} SomeOpen(ps: seq<Position>)
    ensures CountOpen(ps) > 0 <==> exists i :: 0 <= i < |ps| && ps[i].isOpen
  {
    if ps != [] {
      SomeOpen(ps[1..]);
      if CountOpen(ps[1..]) > 0 {
        var i :| 0 <= i < |ps[1..]| && ps[1..][i].isOpen;
        assert ps[i + 1].isOpen;
      }
      if exists i :: 0 <= i < |ps| && ps[i].isOpen {
        var i :| 0 <= i < |ps| && ps[i].isOpen;
        assert i > 0 ==> ps[1..][i - 1].isOpen;
      }
    }
  }
}
