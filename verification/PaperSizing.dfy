/**
 * Fee-aware position size of the paper account (core/paper_sizing.py). Amounts are exact
 * reals where the program has decimals; ROUND_DOWN is written out.
 */
module PaperSizing {
  import opened Wrappers
  import opened RealMath

  const QUANTITY_SCALE := 1000000000000.0
  const QUANTUM := 0.000000000001
  const MONEY_QUANTUM := 0.00000001
  const MONEY_SCALE := 100000000.0

  /** quantize(1/scale, ROUND_DOWN): towards zero on both sides. */
  function RoundDown(x: real, scale: real): real
    requires scale > 0.0
  {
    if x >= 0.0 then (x * scale).Floor as real / scale else -((-x * scale).Floor as real / scale)
  }

  datatype Inputs = Inputs(
    cash: real, riskPct: real, riskPerUnit: real, fill: real, maxNotionalPct: real, feeBps: real, tolerance: real)

  datatype Refusal =
    | CashMustBePositive | RiskPctMustBePositive | InvalidRiskDistance | FillMustBePositive
    | MaxNotionalPctOutOfRange | FeeRateMustNotBeNegative | InsufficientVirtualCash

  datatype CapReason = NoCap | ConfiguredNotionalCap | AvailableVirtualCash

  datatype PositionSize = PositionSize(
    quantity: real, notional: real, entryFee: real, totalRequired: real, riskAmount: real,
    uncappedQuantity: real, actualRiskAmount: real, actualRiskPct: real,
    capApplied: bool, capReason: CapReason, cashBefore: real, cashAfter: real)
  {
    function Leverage(): real {
      if cashBefore <= 0.0 then 0.0 else RoundDown(notional / cashBefore, MONEY_SCALE)
    }
  }

  function FeeRate(i: Inputs): real { i.feeBps / 10000.0 }

  function Tolerance(i: Inputs): real { Abs(i.tolerance) }

  /** The first input check that fails, in the program's order. */
  function InputError(i: Inputs): Option<Refusal> {
    if i.cash <= 0.0 then Some(CashMustBePositive)
    else if i.riskPct <= 0.0 then Some(RiskPctMustBePositive)
    else if i.riskPerUnit <= Tolerance(i) then Some(InvalidRiskDistance)
    else if i.fill <= 0.0 then Some(FillMustBePositive)
    else if !(0.0 < i.maxNotionalPct <= 100.0) then Some(MaxNotionalPctOutOfRange)
    else if FeeRate(i) < 0.0 then Some(FeeRateMustNotBeNegative)
    else None
  }

  predicate Accepted(i: Inputs) { InputError(i) == None }

  function ConfiguredCap(i: Inputs): real { i.cash * i.maxNotionalPct / 100.0 }

  function FeeAdjustedCap(i: Inputs): real
    requires Accepted(i)
  {
    i.cash / (1.0 + FeeRate(i))
  }

  function RiskAmount(i: Inputs): real { i.cash * i.riskPct / 100.0 }

  /** The quantity the risk budget alone would buy. */
  function RiskQuantity(i: Inputs): real
    requires Accepted(i)
  {
    RiskAmount(i) / i.riskPerUnit
  }

  function Affordable(i: Inputs): real
    requires Accepted(i)
  {
    Min(ConfiguredCap(i), FeeAdjustedCap(i))
  }

  /** The quantity the cash and the notional cap alone would buy. */
  function CashQuantity(i: Inputs): real
    requires Accepted(i)
  {
    Affordable(i) / i.fill
  }

  function Quantity(i: Inputs): real
    requires Accepted(i)
  {
    RoundDown(Min(RiskQuantity(i), CashQuantity(i)), QUANTITY_SCALE)
  }

  /** What a quantity costs, in the decimals of the books. */
  function Cost(quantity: real, price: real): real { RoundDown(quantity * price, MONEY_SCALE) }

  function Notional(i: Inputs): real
    requires Accepted(i)
  {
    Cost(Quantity(i), i.fill)
  }

  function EntryFee(i: Inputs): real
    requires Accepted(i)
  {
    RoundDown(Notional(i) * FeeRate(i), MONEY_SCALE)
  }

  function ActualRisk(i: Inputs): real
    requires Accepted(i)
  {
    RoundDown(i.riskPerUnit * Quantity(i), MONEY_SCALE)
  }

  function Size(i: Inputs): Result<PositionSize, Refusal> {
    match InputError(i)
    case Some(e) => Failure(e)
    case None =>
      var quantity := Quantity(i);
      var required := Notional(i) + EntryFee(i);
      if quantity <= 0.0 || required > i.cash + Tolerance(i) then Failure(InsufficientVirtualCash)
      else
        var capped := quantity < RiskQuantity(i) - Tolerance(i);
        var reason :=
          if !capped then NoCap
          else if Affordable(i) == ConfiguredCap(i) then ConfiguredNotionalCap
          else AvailableVirtualCash;
        Success(PositionSize(
          quantity, Notional(i), EntryFee(i), required, RiskAmount(i), RiskQuantity(i),
          ActualRisk(i), RoundDown(ActualRisk(i) / i.cash * 100.0, MONEY_SCALE),
          capped, reason, i.cash, RoundDown(i.cash - required, MONEY_SCALE)))
  }

  // ---- Rounding and sharing ----

  lemma RoundDownBounds(x: real, scale: real)
    requires scale > 0.0 && x >= 0.0
    ensures 0.0 <= RoundDown(x, scale) <= x
    ensures x < RoundDown(x, scale) + 1.0 / scale
  {
    ProductOrder(0.0, x, scale);
    FloorShare(x * scale, scale);
    TimesQuotient(x, scale);
  }

  lemma FloorShare(y: real, scale: real)
    requires scale > 0.0 && y >= 0.0
    ensures 0.0 <= y.Floor as real / scale <= y / scale < y.Floor as real / scale + 1.0 / scale
  {}

  lemma RoundDownMonotone(x: real, y: real, scale: real)
    requires scale > 0.0 && 0.0 <= x <= y
    ensures RoundDown(x, scale) <= RoundDown(y, scale)
  {
    ProductOrder(x, y, scale);
    FloorOrder(x * scale, y * scale);
    QuotientOrder((x * scale).Floor as real, (y * scale).Floor as real, scale);
  }

  lemma FloorOrder(x: real, y: real)
    requires x <= y
    ensures x.Floor <= y.Floor
  {}

  lemma TimesQuotient(a: real, s: real)
    requires s > 0.0
    ensures a * s / s == a
  {}

  // ---- What the size guarantees ----

  lemma BasePositive(i: Inputs)
    requires Accepted(i)
    ensures RiskQuantity(i) > 0.0 && CashQuantity(i) > 0.0 && FeeAdjustedCap(i) > 0.0 && ConfiguredCap(i) > 0.0
  {}

  /** The quantity is the smaller of the two, cut to twelve decimals. */
  lemma QuantityWithinOneQuantum(i: Inputs)
    requires Accepted(i)
    ensures 0.0 <= Quantity(i) <= Min(RiskQuantity(i), CashQuantity(i)) < Quantity(i) + QUANTUM
  {
    BasePositive(i);
    RoundDownBounds(Min(RiskQuantity(i), CashQuantity(i)), QUANTITY_SCALE);
  }

  /** A notional worth at most cash / (1 + rate) leaves room for its fee. */
  lemma FeeFits(cash: real, rate: real, notional: real)
    requires rate >= 0.0 && notional >= 0.0 && notional <= cash / (1.0 + rate)
    ensures 0.0 <= notional * rate && notional + notional * rate <= cash
  {}

  /** What a quantity within the cash quantity costs, rounded, is within the affordable amount. */
  lemma CostWithin(quantity: real, affordable: real, fill: real)
    requires fill > 0.0 && 0.0 <= quantity <= affordable / fill
    ensures 0.0 <= Cost(quantity, fill) <= affordable
  {}

  /** The notional stays within both caps. */
  lemma NotionalWithinCaps(i: Inputs)
    requires Accepted(i)
    ensures 0.0 <= Notional(i) <= ConfiguredCap(i) && Notional(i) <= FeeAdjustedCap(i)
  {
    hide ConfiguredCap, FeeAdjustedCap, Affordable, Quantity, RiskQuantity, Cost, InputError;
    QuantityWithinOneQuantum(i);
    AcceptedInputs(i);
    CostWithin(Quantity(i), Affordable(i), i.fill);
    AffordableWithinCaps(i);
  }

  lemma AffordableWithinCaps(i: Inputs)
    requires Accepted(i)
    ensures Affordable(i) <= ConfiguredCap(i) && Affordable(i) <= FeeAdjustedCap(i)
  {}

  lemma AcceptedInputs(i: Inputs)
    requires Accepted(i)
    ensures i.cash > 0.0 && i.fill > 0.0 && i.riskPerUnit > 0.0 && 0.0 < i.maxNotionalPct <= 100.0 && FeeRate(i) >= 0.0
  {}

  /** Notional and fee together never exceed the cash. */
  lemma NeverOverdraws(i: Inputs)
    requires Accepted(i)
    ensures 0.0 <= Notional(i) <= ConfiguredCap(i) && 0.0 <= EntryFee(i)
    ensures Notional(i) + EntryFee(i) <= i.cash
  {
    hide ConfiguredCap, Quantity, RiskQuantity, Notional, FeeRate;
    NotionalWithinCaps(i);
    AcceptedInputs(i);
    FeeFits(i.cash, FeeRate(i), Notional(i));
    RoundDownBounds(Notional(i) * FeeRate(i), MONEY_SCALE);
  }

  lemma PercentOf(part: real, whole: real, pct: real)
    requires whole > 0.0 && 0.0 <= part <= whole * pct / 100.0
    ensures 0.0 <= part / whole * 100.0 <= pct
  {}

  lemma RiskWithin(quantity: real, amount: real, perUnit: real)
    requires perUnit > 0.0 && 0.0 <= quantity <= amount / perUnit
    ensures 0.0 <= perUnit * quantity <= amount
    ensures 0.0 <= RoundDown(perUnit * quantity, MONEY_SCALE) <= amount
  {}

  lemma ActualRiskWithin(i: Inputs)
    requires Accepted(i)
    ensures 0.0 <= i.riskPerUnit * Quantity(i) <= RiskAmount(i)
    ensures 0.0 <= ActualRisk(i) <= RiskAmount(i)
  {
    hide Quantity, CashQuantity, RiskAmount;
    QuantityWithinOneQuantum(i);
    RiskWithin(Quantity(i), RiskAmount(i), i.riskPerUnit);
  }

  /** What the stop can lose is never more than what was asked for, as an amount and as a percentage. */
  lemma RiskWithinRequest(i: Inputs)
    requires Size(i).Success?
    ensures var s := Size(i).value;
            && 0.0 <= s.actualRiskAmount <= s.riskAmount
            && i.riskPerUnit * s.quantity <= s.riskAmount
            && 0.0 <= s.actualRiskPct <= i.riskPct
  {
    hide Quantity, RiskQuantity, CashQuantity, Notional, EntryFee, ConfiguredCap, FeeAdjustedCap, ActualRisk;
    ActualRiskWithin(i);
    PercentOf(ActualRisk(i), i.cash, i.riskPct);
    RoundDownBounds(ActualRisk(i) / i.cash * 100.0, MONEY_SCALE);
  }

  /** After the input checks the only refusal left is a quantity that rounds to nothing. */
  lemma RefusedOnlyWhenNothingToBuy(i: Inputs)
    requires Accepted(i)
    ensures Size(i).Failure? <==> Quantity(i) == 0.0
    ensures Quantity(i) == 0.0 <==> Min(RiskQuantity(i), CashQuantity(i)) < QUANTUM
  {
    NeverOverdraws(i);
    QuantityWithinOneQuantum(i);
    var raw := Min(RiskQuantity(i), CashQuantity(i));
    BasePositive(i);
    if raw >= QUANTUM {
      assert raw * QUANTITY_SCALE >= 1.0;
      QuotientOrder(1.0, (raw * QUANTITY_SCALE).Floor as real, QUANTITY_SCALE);
    } else {
      assert 0.0 <= raw * QUANTITY_SCALE < 1.0;
    }
  }

  lemma ShareOfWhole(part: real, whole: real)
    requires whole > 0.0 && 0.0 <= part <= whole
    ensures 0.0 <= part / whole <= 1.0
  {}

  /** Everything an opened position relies on. */
  lemma SizeIsSafe(i: Inputs)
    requires Size(i).Success?
    ensures var s := Size(i).value;
            && s.quantity > 0.0 && s.notional >= 0.0 && s.entryFee >= 0.0
            && s.totalRequired == s.notional + s.entryFee <= i.cash
            && s.notional <= i.cash * i.maxNotionalPct / 100.0
            && 0.0 <= s.cashAfter <= i.cash - s.totalRequired
            && 0.0 <= s.Leverage() <= 1.0
  {
    hide Quantity, RiskQuantity, Notional, EntryFee, FeeAdjustedCap, ActualRisk;
    NeverOverdraws(i);
    var s := Size(i).value;
    RoundDownBounds(i.cash - s.totalRequired, MONEY_SCALE);
    ShareOfWhole(s.notional, i.cash);
    RoundDownBounds(s.notional / i.cash, MONEY_SCALE);
  }

  /** The notional is what the quantity costs at the fill, cut to eight decimals. */
  lemma NotionalIsCost(i: Inputs)
    requires Accepted(i)
    ensures Quantity(i) * i.fill - MONEY_QUANTUM < Notional(i) <= Quantity(i) * i.fill
  {
    hide Quantity, RiskQuantity, CashQuantity, InputError, Cost;
    QuantityWithinOneQuantum(i);
    AcceptedInputs(i);
    CostIsNear(Quantity(i), i.fill);
  }

  lemma CostIsNear(quantity: real, fill: real)
    requires quantity >= 0.0 && fill > 0.0
    ensures quantity * fill - MONEY_QUANTUM < Cost(quantity, fill) <= quantity * fill
  {
    ProductOrder(0.0, quantity, fill);
    RoundDownBounds(quantity * fill, MONEY_SCALE);
    hide RoundDown;
  }

  lemma SizedAtCost(i: Inputs)
    requires Size(i).Success?
    ensures var s := Size(i).value;
            s.quantity * i.fill - MONEY_QUANTUM < s.notional <= s.quantity * i.fill
  {
    hide Quantity, RiskQuantity, Notional, EntryFee, ActualRisk, RoundDown;
    NotionalIsCost(i);
  }

  lemma PercentGrows(a: real, b: real, pct: real)
    requires a <= b && pct >= 0.0
    ensures a * pct / 100.0 <= b * pct / 100.0
  {}

  lemma RiskQuantityGrowsWithCash(i: Inputs, more: real)
    requires Accepted(i) && more >= i.cash
    ensures Accepted(i.(cash := more))
    ensures RiskQuantity(i) <= RiskQuantity(i.(cash := more))
  {}

  lemma AffordableGrowsWithCash(i: Inputs, more: real)
    requires Accepted(i) && more >= i.cash && Accepted(i.(cash := more))
    ensures Affordable(i) <= Affordable(i.(cash := more))
  {
    hide FeeRate, InputError;
    SameFeeRate(i, more);
    AcceptedInputs(i);
    PercentGrows(i.cash, more, i.maxNotionalPct);
    QuotientOrder(i.cash, more, 1.0 + FeeRate(i));
  }

  lemma SameFeeRate(i: Inputs, more: real)
    ensures FeeRate(i.(cash := more)) == FeeRate(i)
  {}

  lemma CashQuantityGrowsWithCash(i: Inputs, more: real)
    requires Accepted(i) && more >= i.cash && Accepted(i.(cash := more))
    ensures CashQuantity(i) <= CashQuantity(i.(cash := more))
  {
    hide Affordable, InputError;
    AcceptedInputs(i);
    AffordableGrowsWithCash(i, more);
    QuotientOrder(Affordable(i), Affordable(i.(cash := more)), i.fill);
  }

  /** More cash never buys less. */
  lemma MonotoneInCash(i: Inputs, more: real)
    requires Accepted(i) && more >= i.cash
    ensures Accepted(i.(cash := more))
    ensures Quantity(i) <= Quantity(i.(cash := more))
    ensures Size(i).Success? ==> Size(i.(cash := more)).Success?
  {
    hide RiskQuantity, CashQuantity, Size, InputError;
    var j := i.(cash := more);
    RiskQuantityGrowsWithCash(i, more);
    CashQuantityGrowsWithCash(i, more);
    QuantityWithinOneQuantum(i);
    BasePositive(i);
    RoundDownMonotone(Min(RiskQuantity(i), CashQuantity(i)), Min(RiskQuantity(j), CashQuantity(j)), QUANTITY_SCALE);
    RefusedOnlyWhenNothingToBuy(i);
    RefusedOnlyWhenNothingToBuy(j);
  }

  /**
   * The reported cap. A cash quantity more than the tolerance below the risk quantity is always
   * reported, and with a tolerance of at least one quantum nothing else is. The reason names the
   * smaller of the two caps.
   */
  lemma CapReportIsHonest(i: Inputs)
    requires Size(i).Success?
    ensures CashQuantity(i) < RiskQuantity(i) - Tolerance(i) ==> Size(i).value.capApplied
    ensures Size(i).value.capApplied && Tolerance(i) >= QUANTUM ==> CashQuantity(i) < RiskQuantity(i)
    ensures Size(i).value.capReason == ConfiguredNotionalCap
            <==> Size(i).value.capApplied && ConfiguredCap(i) <= FeeAdjustedCap(i)
    ensures Size(i).value.capReason == NoCap <==> !Size(i).value.capApplied
  {
    QuantityWithinOneQuantum(i);
  }

  /** Below one quantum the tolerance no longer hides the rounding: a cap is reported that nothing imposed. */
  lemma TinyToleranceReportsAFalseCap(i: Inputs)
    requires i == Inputs(100.0, 1.0, 16384.0, 1.0, 100.0, 0.0, 0.0)
    ensures Size(i).Success? && Size(i).value.capApplied && RiskQuantity(i) < CashQuantity(i)
  {
    hide Size, Quantity, RiskQuantity, CashQuantity;
    FalseCapQuantities(i);
    CutByMoreThanTolerance(i);
  }

  /** With this tolerance a reported cap always means that cash or the notional limit was binding. */
  ghost predicate ReportsOnlyRealCaps(tolerance: real) {
    forall i: Inputs {:trigger Size(i)} ::
      i.tolerance == tolerance && Size(i).Success? && Size(i).value.capApplied ==> CashQuantity(i) < RiskQuantity(i)
  }

  /** The cap report can be trusted for exactly the tolerances of at least one quantum. */
  lemma TrustedFromOneQuantumOn(tolerance: real)
    ensures ReportsOnlyRealCaps(tolerance) <==> Abs(tolerance) >= QUANTUM
  {
    if Abs(tolerance) >= QUANTUM {
      forall i: Inputs {:trigger Size(i)} | i.tolerance == tolerance && Size(i).Success? && Size(i).value.capApplied
        ensures CashQuantity(i) < RiskQuantity(i)
      {
        hide Quantity, RiskQuantity, CashQuantity, Notional, EntryFee, ActualRisk;
        CapReportIsHonest(i);
      }
    } else {
      hide Size, Quantity, RiskQuantity, CashQuantity;
      var wanted := 2.0 * QUANTUM - (QUANTUM - Abs(tolerance)) / 2.0;
      var i := Inputs(100.0, wanted, 1.0, 1.0, 100.0, 0.0, tolerance);
      JustUnderTwoQuanta(i, wanted);
      assert Size(i).Success? && Size(i).value.capApplied && !(CashQuantity(i) < RiskQuantity(i));
    }
  }

  /** A risk quantity between one quantum and two is cut to one, and by more than the tolerance. */
  lemma JustUnderTwoQuanta(i: Inputs, wanted: real)
    requires i == Inputs(100.0, wanted, 1.0, 1.0, 100.0, 0.0, i.tolerance) && Abs(i.tolerance) < QUANTUM
    requires wanted == 2.0 * QUANTUM - (QUANTUM - Abs(i.tolerance)) / 2.0
    ensures Size(i).Success? && Size(i).value.capApplied && RiskQuantity(i) == wanted && CashQuantity(i) == 100.0
  {
    assert Accepted(i);
    OneQuantum(wanted);
    assert RiskQuantity(i) == wanted && CashQuantity(i) == 100.0;
    assert Quantity(i) == QUANTUM;
    CutByMoreThanTolerance(i);
  }

  lemma OneQuantum(x: real)
    requires QUANTUM <= x < 2.0 * QUANTUM
    ensures RoundDown(x, QUANTITY_SCALE) == QUANTUM
  {}

  lemma CutByMoreThanTolerance(i: Inputs)
    requires Accepted(i) && 0.0 < Quantity(i) < RiskQuantity(i) - Tolerance(i)
    ensures Size(i).Success? && Size(i).value.capApplied
  {
    hide Notional, EntryFee, Quantity, ActualRisk, RiskQuantity, CashQuantity, RiskAmount, RoundDown, Tolerance;
    RefusedOnlyWhenNothingToBuy(i);
  }

  lemma FalseCapQuantities(i: Inputs)
    requires i == Inputs(100.0, 1.0, 16384.0, 1.0, 100.0, 0.0, 0.0)
    ensures Accepted(i) && 0.0 < Quantity(i) < RiskQuantity(i) < CashQuantity(i)
  {
    assert RiskQuantity(i) == 0.00006103515625;
    assert CashQuantity(i) == 100.0;
    RoundedSixteenthOfAThousandth();
  }

  lemma RoundedSixteenthOfAThousandth()
    ensures 0.0 < RoundDown(0.00006103515625, QUANTITY_SCALE) < 0.00006103515625
  {}

  // ---- The figures themselves ----

  /** Each input check with what it refuses, in order. */
  lemma RefusedExactly(i: Inputs)
    ensures var r, least := Size(i), if i.tolerance >= 0.0 then i.tolerance else -i.tolerance;
            && (r == Failure(CashMustBePositive) <==> i.cash <= 0.0)
            && (r == Failure(RiskPctMustBePositive) <==> i.cash > 0.0 && i.riskPct <= 0.0)
            && (r == Failure(InvalidRiskDistance) <==> i.cash > 0.0 && i.riskPct > 0.0 && i.riskPerUnit <= least)
            && (r == Failure(FillMustBePositive) <==>
                  i.cash > 0.0 && i.riskPct > 0.0 && i.riskPerUnit > least && i.fill <= 0.0)
            && (r == Failure(MaxNotionalPctOutOfRange) <==>
                  && i.cash > 0.0 && i.riskPct > 0.0 && i.riskPerUnit > least && i.fill > 0.0
                  && (i.maxNotionalPct <= 0.0 || i.maxNotionalPct > 100.0))
            && (r == Failure(FeeRateMustNotBeNegative) <==>
                  && i.cash > 0.0 && i.riskPct > 0.0 && i.riskPerUnit > least && i.fill > 0.0
                  && 0.0 < i.maxNotionalPct <= 100.0 && i.feeBps < 0.0)
  {
    hide Quantity, RiskQuantity, Notional, EntryFee, ActualRisk, Affordable, ConfiguredCap, RiskAmount, RoundDown;
  }

  function Units(n: int, scale: real): real
    requires scale > 0.0
  {
    n as real / scale
  }

  /** x is a whole number of units, scale of them to one. */
  ghost predicate InUnits(x: real, scale: real) { scale > 0.0 && exists n: int :: x == Units(n, scale) }

  lemma RoundingCuts(y: real)
    requires y >= 0.0
    ensures RoundDown(y, MONEY_SCALE) <= y < RoundDown(y, MONEY_SCALE) + 0.00000001
  {
    RoundDownBounds(y, MONEY_SCALE);
  }

  lemma RoundedIsInUnits(y: real, scale: real)
    requires scale > 0.0
    ensures InUnits(RoundDown(y, scale), scale)
  {
    var n := if y >= 0.0 then (y * scale).Floor else -(-y * scale).Floor;
    OppositeShare(n as real, scale);
    assert RoundDown(y, scale) == Units(n, scale);
  }

  lemma OppositeShare(x: real, scale: real)
    requires scale > 0.0
    ensures -x / scale == -(x / scale)
  {}

  /** A negative amount is cut like its opposite, towards zero. */
  lemma RoundingIsOdd(y: real, scale: real)
    requires scale > 0.0
    ensures RoundDown(-y, scale) == -RoundDown(y, scale)
  {
    if y == 0.0 { assert RoundDown(0.0, scale) == 0.0; }
  }

  /** A quantity within the risk budget, within the notional limit and, with its fee, within the cash. */
  predicate WithinAllThree(q: real, i: Inputs) {
    && q * i.riskPerUnit <= i.cash * i.riskPct / 100.0
    && q * i.fill <= i.cash * i.maxNotionalPct / 100.0
    && q * i.fill * (1.0 + i.feeBps / 10000.0) <= i.cash
  }

  /** The quantity keeps all three limits, and one quantum more would break one. */
  lemma LargestAffordableQuantity(i: Inputs)
    requires Size(i).Success?
    ensures var q := Size(i).value.quantity;
            WithinAllThree(q, i) && !WithinAllThree(q + 0.000000000001, i)
  {
    hide *;
    SucceededInputs(i);
    QuantityWithinOneQuantum(i);
    WithinExactly(Quantity(i), i);
    WithinExactly(Quantity(i) + QUANTUM, i);
  }

  lemma WithinExactly(q: real, i: Inputs)
    requires Accepted(i)
    ensures WithinAllThree(q, i) <==> q <= Min(RiskQuantity(i), CashQuantity(i))
  {
    hide InputError, ConfiguredCap, FeeAdjustedCap, RiskAmount, FeeRate, RiskQuantity, CashQuantity, Affordable, Min;
    AcceptedInputs(i);
    LimitsAre(i);
    FeeRateIs(i);
    WithinShares(q, RiskAmount(i), i.riskPerUnit, ConfiguredCap(i), i.cash, 1.0 + FeeRate(i), i.fill);
  }

  lemma FeeRateIs(i: Inputs)
    ensures FeeRate(i) == i.feeBps / 10000.0
  {}

  lemma WithinShares(q: real, risk: real, perUnit: real, limit: real, cash: real, withFee: real, fill: real)
    requires perUnit > 0.0 && fill > 0.0 && withFee > 0.0
    ensures q <= Min(risk / perUnit, Min(limit / fill, cash / withFee / fill))
            <==> q * perUnit <= risk && q * fill <= limit && q * fill * withFee <= cash
  {
    BelowShare(q, risk, perUnit);
    BelowShare(q, limit, fill);
    BelowShare(q, cash / withFee, fill);
    BelowShare(q * fill, cash, withFee);
  }

  lemma SucceededInputs(i: Inputs)
    requires Size(i).Success?
    ensures Accepted(i) && Size(i).value.quantity == Quantity(i) && QUANTUM == 0.000000000001
  {
    hide Quantity, RiskQuantity, Notional, EntryFee, ActualRisk, Affordable, ConfiguredCap, RiskAmount, RoundDown;
  }

  lemma LimitsAre(i: Inputs)
    requires Accepted(i)
    ensures RiskQuantity(i) == RiskAmount(i) / i.riskPerUnit && RiskAmount(i) == i.cash * i.riskPct / 100.0
    ensures CashQuantity(i) == Min(ConfiguredCap(i) / i.fill, FeeAdjustedCap(i) / i.fill)
    ensures ConfiguredCap(i) == i.cash * i.maxNotionalPct / 100.0
    ensures FeeAdjustedCap(i) == i.cash / (1.0 + FeeRate(i))
  {
    hide FeeRate;
    AcceptedInputs(i);
    if ConfiguredCap(i) <= FeeAdjustedCap(i) {
      QuotientOrder(ConfiguredCap(i), FeeAdjustedCap(i), i.fill);
    } else {
      QuotientOrder(FeeAdjustedCap(i), ConfiguredCap(i), i.fill);
    }
  }

  lemma BelowShare(x: real, whole: real, part: real)
    requires part > 0.0
    ensures x <= whole / part <==> x * part <= whole
  {
    var share := whole / part;
    assert share * part == whole;
    if x <= share { ProductOrder(x, share, part); } else { StrictProduct(share, x, part); }
  }

  /** Every other figure of a size: what it is cut from, to eight decimals where the books need it. */
  lemma FiguresExactly(i: Inputs)
    requires Size(i).Success?
    ensures var s := Size(i).value;
            && s.riskAmount == i.cash * i.riskPct / 100.0 && s.uncappedQuantity * i.riskPerUnit == s.riskAmount
            && s.notional <= s.quantity * i.fill < s.notional + 0.00000001
            && s.entryFee <= s.notional * (i.feeBps / 10000.0) < s.entryFee + 0.00000001
            && s.totalRequired == s.notional + s.entryFee
            && s.actualRiskAmount <= i.riskPerUnit * s.quantity < s.actualRiskAmount + 0.00000001
            && s.actualRiskPct <= s.actualRiskAmount / i.cash * 100.0 < s.actualRiskPct + 0.00000001
            && s.cashBefore == i.cash && s.cashAfter <= i.cash - s.totalRequired < s.cashAfter + 0.00000001
            && s.Leverage() <= s.notional / i.cash < s.Leverage() + 0.00000001
  {
    hide Quantity, RiskQuantity, CashQuantity, ConfiguredCap, FeeAdjustedCap, Affordable, RoundDown, RiskAmount, FeeRate,
         Notional, EntryFee, ActualRisk;
    RiskFigures(i);
    MoneyFigures(i);
    NeverOverdraws(i);
    RoundingCuts(i.cash - (Notional(i) + EntryFee(i)));
    ShareOfWhole(Notional(i), i.cash);
    RoundingCuts(Notional(i) / i.cash);
    RoundingCuts(ActualRisk(i) / i.cash * 100.0);
  }

  lemma RiskFigures(i: Inputs)
    requires Accepted(i)
    ensures RiskAmount(i) == i.cash * i.riskPct / 100.0 && RiskQuantity(i) * i.riskPerUnit == RiskAmount(i)
    ensures ActualRisk(i) <= i.riskPerUnit * Quantity(i) < ActualRisk(i) + 0.00000001
    ensures 0.0 <= ActualRisk(i) / i.cash * 100.0
  {
    hide Quantity, CashQuantity, Affordable, InputError, RiskAmount, RiskQuantity;
    LimitsAre(i);
    AcceptedInputs(i);
    ActualRiskWithin(i);
    RiskCuts(Quantity(i), i.riskPerUnit);
    PercentOf(ActualRisk(i), i.cash, i.riskPct);
    ShareTimes(RiskAmount(i), i.riskPerUnit);
  }

  lemma RiskCuts(quantity: real, perUnit: real)
    requires 0.0 <= perUnit * quantity
    ensures RoundDown(perUnit * quantity, MONEY_SCALE) <= perUnit * quantity < RoundDown(perUnit * quantity, MONEY_SCALE) + 0.00000001
  {
    hide RoundDown;
    RoundingCuts(perUnit * quantity);
  }

  lemma MoneyFigures(i: Inputs)
    requires Accepted(i)
    ensures Notional(i) <= Quantity(i) * i.fill < Notional(i) + 0.00000001
    ensures EntryFee(i) <= Notional(i) * (i.feeBps / 10000.0) < EntryFee(i) + 0.00000001
  {
    QuantityWithinOneQuantum(i);
    NeverOverdraws(i);
    AcceptedInputs(i);
    FeeRateIs(i);
    NotionalCuts(i);
    FeeCuts(i);
  }

  lemma NotionalCuts(i: Inputs)
    requires Accepted(i) && Quantity(i) >= 0.0
    ensures Notional(i) <= Quantity(i) * i.fill < Notional(i) + 0.00000001
  {
    hide Quantity, RiskQuantity, CashQuantity, InputError, Cost;
    AcceptedInputs(i);
    CostCuts(Quantity(i), i.fill);
  }

  lemma CostCuts(quantity: real, fill: real)
    requires quantity >= 0.0 && fill > 0.0
    ensures Cost(quantity, fill) <= quantity * fill < Cost(quantity, fill) + 0.00000001
  {
    ProductOrder(0.0, quantity, fill);
    RoundingCuts(quantity * fill);
    hide RoundDown;
  }

  lemma FeeCuts(i: Inputs)
    requires Accepted(i) && Notional(i) >= 0.0 && FeeRate(i) >= 0.0
    ensures EntryFee(i) <= Notional(i) * FeeRate(i) < EntryFee(i) + 0.00000001
  {
    hide Quantity, RiskQuantity, Notional, FeeRate, InputError;
    ProductOrder(0.0, Notional(i), FeeRate(i));
    RoundingCuts(Notional(i) * FeeRate(i));
  }

  /** The cap report: when there is one, and the smaller of the two limits as its reason. */
  lemma CapReportExactly(i: Inputs)
    requires Size(i).Success?
    ensures var s, least := Size(i).value, if i.tolerance >= 0.0 then i.tolerance else -i.tolerance;
            && (s.capApplied <==> s.quantity < s.uncappedQuantity - least)
            && (s.capReason == NoCap <==> !s.capApplied)
            && (s.capReason == ConfiguredNotionalCap <==>
                  s.capApplied && i.cash * i.maxNotionalPct / 100.0 <= i.cash / (1.0 + i.feeBps / 10000.0))
  {
    hide Quantity, RiskQuantity, Notional, EntryFee, ActualRisk, RiskAmount, RoundDown;
  }

  /** Without cash there is no leverage to speak of. */
  lemma NoCashNoLeverage(s: PositionSize)
    requires s.cashBefore <= 0.0
    ensures s.Leverage() == 0.0
  {}

  /** All amounts of a size have eight decimals, and the quantity has twelve. */
  lemma DecimalsExactly(i: Inputs)
    requires Size(i).Success?
    ensures var s, unit := Size(i).value, 100000000.0;
            && InUnits(s.notional, unit) && InUnits(s.entryFee, unit) && InUnits(s.actualRiskAmount, unit)
            && InUnits(s.actualRiskPct, unit) && InUnits(s.cashAfter, unit) && InUnits(s.Leverage(), unit)
            && InUnits(s.quantity, 1000000000000.0)
  {
    hide RoundDown, InUnits, RiskQuantity, CashQuantity, RiskAmount, Affordable, ConfiguredCap;
    forall y, scale {:trigger RoundDown(y, scale)} | scale > 0.0 ensures InUnits(RoundDown(y, scale), scale) { RoundedIsInUnits(y, scale); }
    UnitZero();
  }

  lemma UnitZero()
    ensures InUnits(0.0, MONEY_SCALE)
  {
    assert 0.0 == Units(0, MONEY_SCALE);
  }
}
