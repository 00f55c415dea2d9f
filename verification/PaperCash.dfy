/**
 * Cash of the paper account after closing: longs never take it below zero by more than rounding, shorts
 * can, and a short run from a fresh account does.
 */
module PaperCash {
  import opened Wrappers
  import opened RealMath
  import PaperSizing
  import opened PaperAccount
  import opened PaperInvariants

  // ---- Shorts ----

  /** What buying the quantity back costs, exit fee included. */
  function BuyBack(p: Position, price: real, feeBps: real): real { p.quantity * price * (1.0 + feeBps / 10000.0) }

  /**
   * Opening keeps cash at or above zero; closing a short need not. It leaves cash negative exactly
   * when buying the quantity back costs more than the cash, the reserve and the proceeds of the
   * sale together.
   */
  lemma ShortCloseOverdrawsExactly(a: Account, i: nat, price: real, force: Option<string>, now: int)
    requires i < |a.positions| && a.positions[i].isOpen && a.positions[i].side == Short
    requires ExitAt(a.positions[i], price, force).Some?
    ensures var p := a.positions[i];
            MarkAt(a, i, price, force, now).cash < 0.0
            <==> BuyBack(p, price, a.settings.feeBps) > a.cash + p.reserved + FillValue(p.fill, p.quantity)
  {}

  // ---- Longs ----

  lemma LongProceeds(p: Position, price: real, feeBps: real)
    requires PositionOk(p) && p.side == Long && price > 0.0 && 0.0 <= feeBps <= 500.0
    ensures p.reserved + Gross(p, price) - ExitFee(p, price, feeBps) > -PaperSizing.MONEY_QUANTUM
  {
    var worth, rate := p.quantity * price, feeBps / 10000.0;
    assert Gross(p, price) == worth - FillValue(p.fill, p.quantity);
    ProductOrder(0.0, p.quantity, price);
    ProductOrder(rate, 1.0, worth);
    assert rate * worth == ExitFee(p, price, feeBps);
  }

  /** Marking a long lowers cash by less than one unit of the last decimal of the books, whatever the price. */
  lemma LongMarkKeepsCash(a: Account, i: nat, price: real, force: Option<string>, now: int)
    requires Inv(a) && i < |a.positions| && a.positions[i].side == Long && price > 0.0
    ensures MarkAt(a, i, price, force, now).cash > a.cash - PaperSizing.MONEY_QUANTUM
  {
    hide Gross, ExitFee, ExitAt, RiskOf, Conserved, Books, DistinctPositions, PositionOk;
    OkAt(a.positions, i);
    LongProceeds(a.positions[i], price, a.settings.feeBps);
  }

  predicate AllLong(ps: seq<Position>) { forall i :: 0 <= i < |ps| ==> ps[i].side == Long }

  const MOST_POSITIONS := 100

  /** Cash is short by less than one such unit for each position that could be open and is not. */
  predicate Solvent(a: Account) {
    && AllLong(a.positions) && CountOpen(a.positions) <= MOST_POSITIONS
    && a.cash >= -((MOST_POSITIONS - CountOpen(a.positions)) as real * PaperSizing.MONEY_QUANTUM)
  }

  lemma {:induction false} CountOpenAppend(ps: seq<Position>, p: Position)
    ensures CountOpen(ps + [p]) == CountOpen(ps) + (if p.isOpen then 1 else 0)
  {
    if ps == [] {
      assert ps + [p] == [p];
    } else {
      assert (ps + [p])[1..] == ps[1..] + [p];
      CountOpenAppend(ps[1..], p);
    }
  }

  /** There was a place for a position that is bought. */
  lemma BuyingHasAPlace(a: Account, c: Candidate, x: Context)
    requires Decide(a, c, x).Buy? && SettingsOk(a.settings)
    ensures CountOpen(a.positions) < MOST_POSITIONS
  {
    SkipReasonIsFirst(a, c, x);
    ObjectionAt(a, c, x);
    hide Objections, CountOpen, PricedDecision, SkipReason;
    assert !Objections(a, c, x)[4].0;
  }

  lemma BuyingStaysSolvent(a: Account, c: Candidate, x: Context)
    requires Inv(a) && Solvent(a) && c.side == Long && Decide(a, c, x).Buy?
    ensures Solvent(Bought(a, c, x, Decide(a, c, x).order))
  {
    hide Decide, CountOpen;
    BuyingHasAPlace(a, c, x);
    OpeningNeverOverdraws(a, c, x);
    CountOpenAppend(a.positions, NewPosition(c, x, Decide(a, c, x).order));
  }

  lemma MarkingStaysSolvent(a: Account, i: nat, price: real, force: Option<string>, now: int)
    requires Inv(a) && Solvent(a) && i < |a.positions| && price > 0.0
    ensures Solvent(MarkAt(a, i, price, force, now))
  {
    hide Gross, ExitFee, ExitAt, RiskOf, Inv, CountOpen;
    LongMarkKeepsCash(a, i, price, force, now);
    if a.positions[i].isOpen { CountOpenUpdate(a.positions, i, MarkAt(a, i, price, force, now).positions[i]); }
  }

  lemma FreshIsSolvent(a: Account)
    requires a.positions == [] && a.cash >= MIN_BALANCE
    ensures Solvent(a)
  {}

  lemma OnlyPositionsAndCash(a: Account, b: Account)
    requires Solvent(a) && b.positions == a.positions && b.cash == a.cash
    ensures Solvent(b)
  {}

  lemma StepStaysSolvent(a: Account, e: Event)
    requires Inv(a) && Solvent(a) && (e.OpenEvent? ==> e.c.side == Long)
    ensures Solvent(Step(a, e))
  {
    hide Inv, Solvent, Decide, Bought, MarkAt, Refused, Merge;
    match e
    case OpenEvent(c, x) =>
      if Decide(a, c, x).Buy? { BuyingStaysSolvent(a, c, x); }
      OnlyPositionsAndCash(a, Record(a, Skipped));
      OnlyPositionsAndCash(a, Record(a, Deferred));
    case MarkEvent(id, price, force, now) =>
      if price > 0.0 && IndexOf(a.positions, id) < |a.positions| { MarkingStaysSolvent(a, IndexOf(a.positions, id), price, force, now); }
    case ResetEvent(balance) =>
      if CountOpen(a.positions) == 0 { FreshIsSolvent(ResetStep(a, balance)); }
    case UpdateEvent(c) => OnlyPositionsAndCash(a, UpdateStep(a, c));
  }

  /** Over every run that opens longs only, however long, cash never falls below minus a millionth. */
  lemma {:induction false} LongRunsStaySolvent(balance: real, settings: Settings, es: seq<Event>)
    requires MIN_BALANCE <= balance <= MAX_BALANCE && SettingsOk(settings)
    requires forall i :: 0 <= i < |es| && es[i].OpenEvent? ==> es[i].c.side == Long
    ensures Solvent(Run(Create(balance, settings), es))
    ensures Run(Create(balance, settings), es).cash >= -0.000001
  {
    hide Inv, Step, SettingsOk, CountOpen;
    if es == [] {
      FreshIsSolvent(Create(balance, settings));
    } else {
      var before := es[..|es| - 1];
      LongRunsStaySolvent(balance, settings, before);
      EveryReachableStateIsConserved(balance, settings, before);
      StepStaysSolvent(Run(Create(balance, settings), before), es[|es| - 1]);
    }
  }

  // ---- Runs from a fresh account ----

  function ThousandAccount(): Account {
    Create(1000.0, Settings(true, 1.0, 5, 0.0, 0.0, 0.0, 0.0, TP1, Both, {}))
  }

  /** A signal at 100 whose stop is 10 and whose target is 20 away. */
  function PlainCandidate(side: Side): Candidate {
    if side == Long then Candidate("s", "BTC", "crypto", Long, 50.0, 100.0, 90.0, [120.0], false)
    else Candidate("s", "BTC", "crypto", Short, 50.0, 100.0, 110.0, [80.0], false)
  }

  function QuietContext(): Context {
    Context(true, true, None, None, 100.0, 0, 0, false, "p", true, Caps(2, 50.0, 50.0, 80.0, 3.0, 5.0, 0.0, false))
  }

  function OneUnit(): PaperSizing.Inputs { PaperSizing.Inputs(1000.0, 1.0, 10.0, 100.0, 50.0, 0.0, 0.0) }

  lemma WholeNumbersStay(n: nat, scale: real)
    requires scale == PaperSizing.QUANTITY_SCALE || scale == PaperSizing.MONEY_SCALE
    requires n == 0 || n == 1 || n == 100
    ensures PaperSizing.RoundDown(n as real, scale) == n as real
  {}

  lemma OneUnitAccepted(i: PaperSizing.Inputs)
    requires i == OneUnit()
    ensures PaperSizing.Accepted(i) && PaperSizing.FeeRate(i) == 0.0
  {}

  lemma OneUnitByRisk(i: PaperSizing.Inputs)
    requires i == OneUnit() && PaperSizing.Accepted(i)
    ensures PaperSizing.RiskQuantity(i) == 1.0
  {
    hide PaperSizing.InputError;
    assert PaperSizing.RiskAmount(i) == 10.0;
    hide PaperSizing.RiskAmount;
  }

  lemma OneUnitAffordable(i: PaperSizing.Inputs)
    requires i == OneUnit() && PaperSizing.Accepted(i)
    ensures PaperSizing.Affordable(i) == 500.0
  {
    hide PaperSizing.InputError, PaperSizing.FeeRate;
    OneUnitAccepted(i);
    assert PaperSizing.ConfiguredCap(i) == 500.0;
    assert PaperSizing.FeeAdjustedCap(i) == 1000.0;
    hide PaperSizing.ConfiguredCap, PaperSizing.FeeAdjustedCap;
  }

  lemma OneUnitByCash(i: PaperSizing.Inputs)
    requires i == OneUnit() && PaperSizing.Accepted(i)
    ensures PaperSizing.CashQuantity(i) == 5.0
  {
    hide PaperSizing.InputError, PaperSizing.Affordable;
    OneUnitAffordable(i);
  }

  lemma OneUnitCost(i: PaperSizing.Inputs)
    requires i == OneUnit() && PaperSizing.Accepted(i)
    ensures PaperSizing.Quantity(i) == 1.0 && PaperSizing.Notional(i) == 100.0 && PaperSizing.EntryFee(i) == 0.0
  {
    hide PaperSizing.RoundDown, PaperSizing.RiskQuantity, PaperSizing.CashQuantity, PaperSizing.InputError, PaperSizing.FeeRate;
    OneUnitAccepted(i);
    OneUnitByRisk(i);
    OneUnitByCash(i);
    WholeNumbersStay(1, PaperSizing.QUANTITY_SCALE);
    WholeNumbersStay(100, PaperSizing.MONEY_SCALE);
    WholeNumbersStay(0, PaperSizing.MONEY_SCALE);
    assert 1.0 * 100.0 == 100.0 && 100.0 * 0.0 == 0.0;
  }

  lemma OneUnitIsBought(i: PaperSizing.Inputs)
    requires i == OneUnit()
    ensures PaperSizing.Size(i).Success?
    ensures var s := PaperSizing.Size(i).value; s.quantity == 1.0 && s.notional == 100.0 && s.entryFee == 0.0 && s.totalRequired == 100.0
  {
    hide PaperSizing.Quantity, PaperSizing.Notional, PaperSizing.EntryFee, PaperSizing.ActualRisk, PaperSizing.RoundDown,
         PaperSizing.RiskQuantity, PaperSizing.RiskAmount, PaperSizing.Affordable, PaperSizing.ConfiguredCap, PaperSizing.FeeRate;
    OneUnitAccepted(i);
    OneUnitByRisk(i);
    OneUnitByCash(i);
    OneUnitCost(i);
  }

  lemma NothingObjects(a: Account, c: Candidate, x: Context, side: Side)
    requires a == ThousandAccount() && c == PlainCandidate(side) && x == QuietContext()
    ensures SkipReason(a, c, x) == None && !HasSignal(a.positions, c.signal)
    ensures OpenNotional(a) == 0.0 && OpenRisk(a) == 0.0 && TargetOf(a.settings.targetMode, c.targets) == c.targets[0]
  {}

  lemma PlainFill(a: Account, c: Candidate, x: Context, side: Side)
    requires a == ThousandAccount() && c == PlainCandidate(side) && x == QuietContext()
    ensures FillPrice(a.settings, c.side, x.price) == 100.0
  {}

  lemma PlainShares(a: Account, stop: real)
    requires a.starting == 1000.0 && Abs(100.0 - stop) == 10.0
    ensures PctOfStart(a, 100.0) <= 80.0 && PctOfStart(a, StopRisk(100.0, stop, 1.0)) <= 3.0
  {}

  /** The limits are not so strict that nothing is ever opened: one percent of a thousand buys one unit, long or short. */
  lemma PlainCandidateIsBought(a: Account, c: Candidate, x: Context, side: Side)
    requires a == ThousandAccount() && c == PlainCandidate(side) && x == QuietContext()
    ensures Decide(a, c, x).Buy?
    ensures var o := Decide(a, c, x).order;
            o.fill == 100.0 && o.target == c.targets[0] && o.size.quantity == 1.0 && o.size.notional == 100.0
            && o.size.entryFee == 0.0 && o.size.totalRequired == 100.0
  {
    hide PaperSizing.Size, SkipReason, OpenNotional, OpenRisk, FillPrice, TargetOf, StopRisk, HasSignal, PctOfStart;
    NothingObjects(a, c, x, side);
    PlainFill(a, c, x, side);
    var i := SizingInputs(a, c, x, 100.0);
    assert i == OneUnit();
    OneUnitIsBought(i);
    PlainShares(a, c.stop);
  }

  /** A fresh account that sells one unit short at 100 and is stopped out at 2000 is left with 900 below zero. */
  lemma ShortRunOverdraws(es: seq<Event>)
    requires es == [OpenEvent(PlainCandidate(Short), QuietContext()), MarkEvent("p", 2000.0, None, 1)]
    ensures Run(ThousandAccount(), es).cash == -900.0
    ensures MIN_BALANCE <= 1000.0 <= MAX_BALANCE && SettingsOk(ThousandAccount().settings)
  {
    var a, c, x := ThousandAccount(), PlainCandidate(Short), QuietContext();
    hide Step, Decide;
    RunOfTwo(a, es);
    PlainCandidateIsBought(a, c, x, Short);
    AfterTheSale(a, c, x);
    StoppedFarOut(Step(a, es[0]));
  }

  lemma RunOfTwo(a: Account, es: seq<Event>)
    requires |es| == 2
    ensures Run(a, es) == Step(Step(a, es[0]), es[1])
  {
    hide Step;
    var first := es[..1];
    assert es[..|es| - 1] == first && first[..0] == [];
    assert Run(a, first) == Step(Run(a, first[..0]), first[0]);
  }

  lemma AfterTheSale(a: Account, c: Candidate, x: Context)
    requires a == ThousandAccount() && c == PlainCandidate(Short) && x == QuietContext() && Decide(a, c, x).Buy?
    requires Decide(a, c, x).order.size.quantity == 1.0 && Decide(a, c, x).order.size.notional == 100.0
    requires Decide(a, c, x).order.size.entryFee == 0.0 && Decide(a, c, x).order.size.totalRequired == 100.0
    requires Decide(a, c, x).order.fill == 100.0 && Decide(a, c, x).order.target == 80.0
    ensures var b := Step(a, OpenEvent(c, x));
            && b.cash == 900.0 && b.settings.feeBps == 0.0
            && b.positions == [NewPosition(c, x, Decide(a, c, x).order)]
  {
    hide Decide;
  }

  /** The one short position, at 2000. */
  lemma StoppedFarOut(b: Account)
    requires b.cash == 900.0 && b.settings.feeBps == 0.0 && |b.positions| == 1
    requires var p := b.positions[0];
             p.id == "p" && p.isOpen && p.side == Short && p.stop == 110.0 && p.target == 80.0 && p.fill == 100.0
             && p.quantity == 1.0 && p.reserved == 100.0
    ensures Step(b, MarkEvent("p", 2000.0, None, 1)).cash == -900.0
  {
    var p := b.positions[0];
    assert IndexOf(b.positions, "p") == 0;
    assert ExitAt(p, 2000.0, None) == Some(StopHit) && Gross(p, 2000.0) == -1900.0 && ExitFee(p, 2000.0, 0.0) == 0.0;
    hide Gross, ExitFee, ExitAt, RiskOf;
  }
}
