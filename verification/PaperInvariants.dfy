/**
 * What holds in every reachable state of the paper account: the money adds up, the ledger
 * tells the same story, and every closed position was settled on the right side.
 */
module PaperInvariants {
  import opened Wrappers
  import opened RealMath
  import PaperSizing
  import opened PaperAccount

  // ---- Sums ----

  lemma {:induction false} SumOpenAppend(ps: seq<Position>, p: Position, f: Position -> real)
    ensures SumOpen(ps + [p], f) == SumOpen(ps, f) + OpenPart(p, f)
  {
    if ps == [] {
      assert ps + [p] == [p];
    } else {
      assert (ps + [p])[1..] == ps[1..] + [p];
      SumOpenAppend(ps[1..], p, f);
    }
  }

  lemma {:induction false} SumClosedAppend(ps: seq<Position>, p: Position, f: Position -> real)
    ensures SumClosed(ps + [p], f) == SumClosed(ps, f) + ClosedPart(p, f)
  {
    if ps == [] {
      assert ps + [p] == [p];
    } else {
      assert (ps + [p])[1..] == ps[1..] + [p];
      SumClosedAppend(ps[1..], p, f);
    }
  }

  lemma {:induction false} SumOpenUpdate(ps: seq<Position>, i: nat, p: Position, f: Position -> real)
    requires i < |ps|
    ensures SumOpen(ps[i := p], f) == SumOpen(ps, f) - OpenPart(ps[i], f) + OpenPart(p, f)
  {
    if i == 0 {
      assert ps[0 := p][1..] == ps[1..];
    } else {
      assert ps[i := p][1..] == ps[1..][i - 1 := p];
      SumOpenUpdate(ps[1..], i - 1, p, f);
    }
  }

  lemma {:induction false} SumClosedUpdate(ps: seq<Position>, i: nat, p: Position, f: Position -> real)
    requires i < |ps|
    ensures SumClosed(ps[i := p], f) == SumClosed(ps, f) - ClosedPart(ps[i], f) + ClosedPart(p, f)
  {
    if i == 0 {
      assert ps[0 := p][1..] == ps[1..];
    } else {
      assert ps[i := p][1..] == ps[1..][i - 1 := p];
      SumClosedUpdate(ps[1..], i - 1, p, f);
    }
  }

  lemma {:induction false} CountOpenUpdate(ps: seq<Position>, i: nat, p: Position)
    requires i < |ps| && ps[i].isOpen
    ensures CountOpen(ps[i := p]) == CountOpen(ps) - (if p.isOpen then 0 else 1)
  {
    if i == 0 {
      assert ps[0 := p][1..] == ps[1..];
    } else {
      assert ps[i := p][1..] == ps[1..][i - 1 := p];
      CountOpenUpdate(ps[1..], i - 1, p);
    }
  }

  lemma {:induction false} HeldIsReservedPlusFees(ps: seq<Position>)
    ensures SumOpen(ps, Held) == SumOpen(ps, ReservedOf) + SumOpen(ps, EntryFeeOf)
  {
    if ps != [] { HeldIsReservedPlusFees(ps[1..]); }
  }

  // ---- The ledger ----

  predicate Origin(k: RowKind) { k == AccountCreated || k == AccountReset }

  /** Ledger amounts since the account was created or last reset. */
  function SinceOrigin(rows: seq<Row>): real {
    if rows == [] || Origin(rows[|rows| - 1].kind) then 0.0
    else SinceOrigin(rows[..|rows| - 1]) + rows[|rows| - 1].amount
  }

  /** Every row's balance is the one before it plus its amount; only an origin sets it anew. */
  predicate Chained(rows: seq<Row>) {
    && rows != [] && rows[0].kind == AccountCreated
    && (forall i {:trigger rows[i]} :: 0 < i < |rows| && !Origin(rows[i].kind) ==>
          rows[i].balanceAfter == rows[i - 1].balanceAfter + rows[i].amount)
  }

  predicate Books(rows: seq<Row>, starting: real, cash: real) {
    Chained(rows) && rows[|rows| - 1].balanceAfter == cash && SinceOrigin(rows) == cash - starting
  }

  lemma RowKeepsBooks(rows: seq<Row>, starting: real, cash: real, kind: RowKind, amount: real)
    requires Books(rows, starting, cash) && !Origin(kind)
    ensures Books(rows + [Row(kind, amount, cash + amount)], starting, cash + amount)
  {}

  lemma ResetStartsBooks(rows: seq<Row>, balance: real)
    requires Chained(rows)
    ensures Books(rows + [Row(AccountReset, 0.0, balance)], balance, balance)
  {}

  // ---- Positions ----

  /** How a position looks: open with its stop and target on opposite sides of its fill, or settled. */
  predicate PositionOk(p: Position) {
    && p.quantity > 0.0 && p.notional >= 0.0 && p.entryFee >= 0.0 && p.reserved == p.notional
    && FillValue(p.fill, p.quantity) - PaperSizing.MONEY_QUANTUM < p.reserved <= FillValue(p.fill, p.quantity)
    && p.stop > 0.0 && Geometry(p.side, p.stop, p.fill, p.target)
    && (p.isOpen <==> p.exit == None)
    && (!p.isOpen ==> p.unrealized == 0.0 && p.exitFee >= 0.0)
    && (p.exit == Some(StopHit) ==> p.rMultiple <= -1.0)
    && (p.exit == Some(TargetHit) ==> p.realized + p.entryFee + p.exitFee > 0.0)
  }

  lemma RiskIsPositive(p: Position)
    requires PositionOk(p)
    ensures RiskOf(p) > 0.0
  {}

  /** No price triggers both the target and the stop of a position. */
  lemma TargetAndStopExclude(p: Position, price: real)
    requires PositionOk(p)
    ensures !(TargetReached(p, price) && StopReached(p, price))
  {}

  lemma StoppedGross(p: Position, price: real)
    requires PositionOk(p) && StopReached(p, price)
    ensures Gross(p, price) <= -RiskOf(p)
  {}

  lemma TargetGross(p: Position, price: real)
    requires PositionOk(p) && TargetReached(p, price)
    ensures Gross(p, price) > 0.0
  {}

  lemma AtMostMinusOne(net: real, risk: real)
    requires risk > 0.0 && net <= -risk
    ensures net / risk <= -1.0
  {}

  lemma ExitFeeNonNegative(p: Position, price: real, feeBps: real)
    requires p.quantity > 0.0 && price > 0.0 && feeBps >= 0.0
    ensures ExitFee(p, price, feeBps) >= 0.0
  {}

  /** Settling: an unforced stop costs at least the planned risk, an unforced target earns before fees. */
  lemma SettlementSign(p: Position, price: real, feeBps: real, force: Option<string>, now: int)
    requires PositionOk(p) && p.isOpen && price > 0.0 && feeBps >= 0.0 && ExitAt(p, price, force).Some?
    ensures PositionOk(Settled(p, price, feeBps, now, ExitAt(p, price, force).value))
  {
    var why := ExitAt(p, price, force).value;
    var s := Settled(p, price, feeBps, now, why);
    ExitFeeNonNegative(p, price, feeBps);
    RiskIsPositive(p);
    hide ExitFee, Gross, RiskOf;
    if why == StopHit {
      StoppedGross(p, price);
      AtMostMinusOne(s.realized, RiskOf(p));
    } else if why == TargetHit {
      TargetGross(p, price);
    }
  }

  // ---- The invariant ----

  predicate SettingsOk(s: Settings) {
    && 0.1 <= s.riskPct <= 10.0 && 1 <= s.maxOpenPositions <= 100 && 0.0 <= s.minScore <= 100.0
    && 0.0 <= s.spreadBps <= 500.0 && 0.0 <= s.slippageBps <= 500.0 && 0.0 <= s.feeBps <= 500.0
  }

  /** Money: cash is the starting balance plus what was realised, less what open positions hold. */
  predicate Conserved(a: Account) {
    && a.cash == a.starting + a.realized - SumOpen(a.positions, Held)
    && a.realized == SumClosed(a.positions, RealizedOf)
  }

  predicate DistinctPositions(ps: seq<Position>) {
    forall i, j :: 0 <= i < j < |ps| ==> ps[i].signal != ps[j].signal && ps[i].id != ps[j].id
  }

  predicate AllOk(ps: seq<Position>) { forall i :: 0 <= i < |ps| ==> PositionOk(ps[i]) }

  predicate Inv(a: Account) {
    && MIN_BALANCE <= a.starting <= MAX_BALANCE
    && SettingsOk(a.settings)
    && Conserved(a)
    && Books(a.ledger, a.starting, a.cash)
    && AllOk(a.positions)
    && DistinctPositions(a.positions)
  }

  lemma CreateEstablishesInv(balance: real, settings: Settings)
    requires MIN_BALANCE <= balance <= MAX_BALANCE && SettingsOk(settings)
    ensures Inv(Create(balance, settings))
  {}

  /** New settings and a ledger row without money leave everything else as it was. */
  lemma BookkeepingKeepsInv(a: Account, settings: Settings, kind: RowKind)
    requires Inv(a) && SettingsOk(settings) && !Origin(kind)
    ensures Inv(a.(settings := settings, ledger := a.ledger + [Row(kind, 0.0, a.cash)]))
  {
    hide Books, SettingsOk, AllOk, DistinctPositions;
    RowKeepsBooks(a.ledger, a.starting, a.cash, kind, 0.0);
  }

  lemma InvHasSettings(a: Account)
    requires Inv(a)
    ensures SettingsOk(a.settings)
  {}

  lemma RecordKeepsInv(a: Account, outcome: Outcome)
    requires Inv(a)
    ensures Inv(Record(a, outcome))
  {
    hide Inv, SettingsOk;
    InvHasSettings(a);
    BookkeepingKeepsInv(a, a.settings, Attempt(outcome));
    assert a.(settings := a.settings) == a;
  }

  lemma MergeKeepsSettings(s: Settings, c: Changes)
    requires SettingsOk(s)
    ensures SettingsOk(Merge(s, c))
  {}

  lemma UpdateKeepsInv(a: Account, c: Changes)
    requires Inv(a)
    ensures Inv(UpdateStep(a, c))
  {
    hide Inv, SettingsOk, Merge, Refused;
    InvHasSettings(a);
    MergeKeepsSettings(a.settings, c);
    BookkeepingKeepsInv(a, Merge(a.settings, c), SettingsUpdated);
  }

  lemma ResetKeepsInv(a: Account, requested: real)
    requires Inv(a)
    ensures Inv(ResetStep(a, requested))
  {
    ResetStartsBooks(a.ledger, Clamp(requested, MIN_BALANCE, MAX_BALANCE));
  }

  /** What a decision to buy has established. */
  lemma BuyFacts(a: Account, c: Candidate, x: Context)
    requires Decide(a, c, x).Buy?
    ensures var o := Decide(a, c, x).order;
            && !HasSignal(a.positions, c.signal)
            && !HasOpenAsset(a.positions, c.asset)
            && CountClass(a.positions, c.assetClass) < x.caps.perClass
            && c.stop > 0.0
            && Geometry(c.side, c.stop, o.fill, o.target)
            && PaperSizing.Size(SizingInputs(a, c, x, o.fill)) == Success(o.size)
            && PctOfStart(a, OpenNotional(a) + o.size.notional) <= x.caps.exposurePct
            && PctOfStart(a, OpenRisk(a) + StopRisk(o.fill, c.stop, o.size.quantity)) <= x.caps.openRiskPct
  {
    hide PaperSizing.Size, FillPrice, TargetOf, OpenNotional, OpenRisk, ProfileReason, EffectiveMaxPositions,
         TooManyToday, DailyLossLimitOf, RealizedSince, CountOpen;
  }

  /** Opening never overdraws the cash, so the program's guard against negative cash never fires. */
  lemma OpeningNeverOverdraws(a: Account, c: Candidate, x: Context)
    requires Decide(a, c, x).Buy?
    ensures var o := Decide(a, c, x).order;
            && o.size.totalRequired == o.size.notional + o.size.entryFee
            && a.cash - o.size.totalRequired >= 0.0
            && o.size.quantity > 0.0 && o.size.notional >= 0.0 && o.size.entryFee >= 0.0
  {
    hide Decide, PaperSizing.Size, HasSignal, HasOpenAsset, CountClass, PctOfStart;
    BuyFacts(a, c, x);
    PaperSizing.SizeIsSafe(SizingInputs(a, c, x, Decide(a, c, x).order.fill));
  }

  lemma ReservedIsFillValue(a: Account, c: Candidate, x: Context)
    requires Decide(a, c, x).Buy?
    ensures var o := Decide(a, c, x).order;
            FillValue(o.fill, o.size.quantity) - PaperSizing.MONEY_QUANTUM < o.size.notional <= FillValue(o.fill, o.size.quantity)
  {
    hide Decide, PaperSizing.Size, HasSignal, HasOpenAsset, CountClass, PctOfStart;
    BuyFacts(a, c, x);
    PaperSizing.SizedAtCost(SizingInputs(a, c, x, Decide(a, c, x).order.fill));
  }

  lemma BoughtKeepsInv(a: Account, c: Candidate, x: Context)
    requires Inv(a) && Decide(a, c, x).Buy? && !HasId(a.positions, x.newId)
    ensures Inv(Bought(a, c, x, Decide(a, c, x).order))
  {
    hide Decide, PaperSizing.Size, HasOpenAsset, CountClass, PctOfStart, SettingsOk, SinceOrigin, Chained, FillValue;
    ReservedIsFillValue(a, c, x);
    var o := Decide(a, c, x).order;
    BuyFacts(a, c, x);
    OpeningNeverOverdraws(a, c, x);
    var p := NewPosition(c, x, o);
    SumOpenAppend(a.positions, p, Held);
    SumClosedAppend(a.positions, p, RealizedOf);
    var rows := a.ledger + [Row(PositionOpened(x.newId), -o.size.totalRequired, a.cash - o.size.totalRequired)];
    RowKeepsBooks(a.ledger, a.starting, a.cash, PositionOpened(x.newId), -o.size.totalRequired);
    RowKeepsBooks(rows, a.starting, a.cash - o.size.totalRequired, Attempt(Opened), 0.0);
  }

  lemma OpenKeepsInv(a: Account, c: Candidate, x: Context)
    requires Inv(a)
    ensures Inv(OpenStep(a, c, x))
  {
    hide Decide, Inv, Bought, Record;
    RecordKeepsInv(a, Skipped);
    RecordKeepsInv(a, Deferred);
    if Decide(a, c, x).Buy? && !HasId(a.positions, x.newId) { BoughtKeepsInv(a, c, x); }
  }

  lemma ReplacingKeepsOk(ps: seq<Position>, i: nat, q: Position)
    requires i < |ps| && AllOk(ps) && DistinctPositions(ps)
    requires PositionOk(q) && q.id == ps[i].id && q.signal == ps[i].signal
    ensures AllOk(ps[i := q]) && DistinctPositions(ps[i := q])
  {}

  lemma MarkedKeepsInv(a: Account, i: nat, price: real, force: Option<string>, now: int)
    requires Inv(a) && i < |a.positions| && a.positions[i].isOpen && ExitAt(a.positions[i], price, force) == None
    ensures Inv(MarkAt(a, i, price, force, now))
  {
    var p := a.positions[i];
    var q := Marked(p, price);
    assert PositionOk(q) by { hide Gross; }
    ReplacingKeepsOk(a.positions, i, q);
    hide Gross, ExitAt, Books, PositionOk, AllOk, DistinctPositions, SettingsOk;
    SumOpenUpdate(a.positions, i, q, Held);
    SumClosedUpdate(a.positions, i, q, RealizedOf);
  }

  lemma SettledKeepsInv(a: Account, i: nat, price: real, force: Option<string>, now: int)
    requires Inv(a) && i < |a.positions| && price > 0.0
    requires a.positions[i].isOpen && ExitAt(a.positions[i], price, force).Some?
    ensures Inv(MarkAt(a, i, price, force, now))
  {
    hide Gross, ExitFee, ExitAt, RiskOf, Books, PositionOk, AllOk, DistinctPositions;
    var p := a.positions[i];
    var s := Settled(p, price, a.settings.feeBps, now, ExitAt(p, price, force).value);
    var proceeds := p.reserved + Gross(p, price) - s.exitFee;
    assert PositionOk(p) by { OkAt(a.positions, i); }
    SettlementSign(p, price, a.settings.feeBps, force, now);
    ReplacingKeepsOk(a.positions, i, s);
    SumOpenUpdate(a.positions, i, s, Held);
    SumClosedUpdate(a.positions, i, s, RealizedOf);
    RowKeepsBooks(a.ledger, a.starting, a.cash, PositionClosed(p.id), proceeds);
  }

  lemma OkAt(ps: seq<Position>, i: nat)
    requires AllOk(ps) && i < |ps|
    ensures PositionOk(ps[i])
  {}

  lemma MarkKeepsInv(a: Account, i: nat, price: real, force: Option<string>, now: int)
    requires Inv(a) && i < |a.positions| && price > 0.0
    ensures Inv(MarkAt(a, i, price, force, now))
  {
    hide Inv, ExitAt, Gross, ExitFee, RiskOf;
    if a.positions[i].isOpen {
      if ExitAt(a.positions[i], price, force) == None {
        MarkedKeepsInv(a, i, price, force, now);
      } else {
        SettledKeepsInv(a, i, price, force, now);
      }
    }
  }

  lemma StepKeepsInv(a: Account, e: Event)
    requires Inv(a)
    ensures Inv(Step(a, e))
  {
    hide Inv, OpenStep, MarkAt, ResetStep, UpdateStep;
    match e
    case OpenEvent(c, x) => OpenKeepsInv(a, c, x);
    case MarkEvent(id, price, force, now) =>
      if price > 0.0 && IndexOf(a.positions, id) < |a.positions| {
        MarkKeepsInv(a, IndexOf(a.positions, id), price, force, now);
      }
    case ResetEvent(balance) => ResetKeepsInv(a, balance);
    case UpdateEvent(changes) => UpdateKeepsInv(a, changes);
  }

  lemma {:induction false} RunKeepsInv(a: Account, es: seq<Event>)
    requires Inv(a)
    ensures Inv(Run(a, es))
  {
    hide Inv, Step;
    if es != [] {
      RunKeepsInv(a, es[..|es| - 1]);
      StepKeepsInv(Run(a, es[..|es| - 1]), es[|es| - 1]);
    }
  }

  /** Every state an account can reach satisfies the invariant, whatever the candidates, quotes and settings were. */
  lemma EveryReachableStateIsConserved(balance: real, settings: Settings, es: seq<Event>)
    requires MIN_BALANCE <= balance <= MAX_BALANCE && SettingsOk(settings)
    ensures Inv(Run(Create(balance, settings), es))
  {
    CreateEstablishesInv(balance, settings);
    RunKeepsInv(Create(balance, settings), es);
  }

  /** The snapshot's equity: starting balance, plus realised and unrealised results, less the entry fees still open. */
  lemma EquityIdentity(a: Account)
    requires Inv(a)
    ensures Equity(a) == a.starting + a.realized + SumOpen(a.positions, UnrealizedOf) - SumOpen(a.positions, EntryFeeOf)
  {
    HeldIsReservedPlusFees(a.positions);
  }

  /** Equity moves only with the price of the marked position and the exit fee. */
  lemma MarkingMovesEquity(a: Account, i: nat, price: real, force: Option<string>, now: int)
    requires i < |a.positions| && a.positions[i].isOpen
    ensures var p := a.positions[i];
            var fee := if ExitAt(p, price, force).Some? then ExitFee(p, price, a.settings.feeBps) else 0.0;
            Equity(MarkAt(a, i, price, force, now)) == Equity(a) + Gross(p, price) - p.unrealized - fee
  {
    hide Gross, ExitFee, ExitAt, RiskOf;
    var p := a.positions[i];
    var after := MarkAt(a, i, price, force, now).positions[i];
    SumOpenUpdate(a.positions, i, after, ReservedOf);
    SumOpenUpdate(a.positions, i, after, UnrealizedOf);
  }

  /** Opening costs exactly the entry fee. */
  lemma OpeningCostsTheFee(a: Account, c: Candidate, x: Context)
    requires Decide(a, c, x).Buy?
    ensures Equity(Bought(a, c, x, Decide(a, c, x).order)) == Equity(a) - Decide(a, c, x).order.size.entryFee
  {
    hide Decide;
    var o := Decide(a, c, x).order;
    OpeningNeverOverdraws(a, c, x);
    SumOpenAppend(a.positions, NewPosition(c, x, o), ReservedOf);
    SumOpenAppend(a.positions, NewPosition(c, x, o), UnrealizedOf);
  }

  // ---- Settled once ----

  /** Without a reset in between, positions are only added, and a closed one is never touched again. */
  predicate Extends(before: seq<Position>, after: seq<Position>) {
    && |before| <= |after|
    && forall i :: 0 <= i < |before| ==>
         before[i].id == after[i].id && (!before[i].isOpen ==> after[i] == before[i])
  }

  lemma StepSettlesOnce(a: Account, e: Event)
    requires !e.ResetEvent?
    ensures Extends(a.positions, Step(a, e).positions)
  {
    hide Decide, Gross, ExitFee, ExitAt, RiskOf, Refused, Merge;
  }

  lemma {:induction false} EachPositionSettlesAtMostOnce(a: Account, es: seq<Event>)
    requires forall i :: 0 <= i < |es| ==> !es[i].ResetEvent?
    ensures Extends(a.positions, Run(a, es).positions)
  {
    hide Step;
    if es != [] {
      EachPositionSettlesAtMostOnce(a, es[..|es| - 1]);
      StepSettlesOnce(Run(a, es[..|es| - 1]), es[|es| - 1]);
    }
  }
}
