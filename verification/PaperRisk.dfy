/** Limits that hold over every run of the paper account while the environment limits stay fixed. */
module PaperRisk {
  import opened Wrappers
  import PaperSizing
  import opened PaperAccount
  import opened PaperInvariants

  /** The ranges the environment limits are clamped to when they are read. */
  predicate CapsOk(k: Caps) {
    1 <= k.perClass <= 20 && 5.0 <= k.exposurePct <= 100.0 && 0.1 <= k.openRiskPct <= 25.0
  }

  predicate DistinctOpenAssets(ps: seq<Position>) {
    forall i, j :: 0 <= i < j < |ps| && ps[i].isOpen && ps[j].isOpen ==> ps[i].asset != ps[j].asset
  }

  ghost predicate WithinLimits(a: Account, k: Caps) {
    && OpenNotional(a) <= k.exposurePct / 100.0 * a.starting
    && OpenRisk(a) <= k.openRiskPct / 100.0 * a.starting
    && DistinctOpenAssets(a.positions)
    && (forall assetClass: string :: CountClass(a.positions, assetClass) <= k.perClass)
  }

  lemma {:induction false} CountClassAppend(ps: seq<Position>, p: Position, assetClass: string)
    ensures CountClass(ps + [p], assetClass) ==
            CountClass(ps, assetClass) + (if p.isOpen && p.assetClass == assetClass then 1 else 0)
  {
    if ps == [] {
      assert ps + [p] == [p];
    } else {
      assert (ps + [p])[1..] == ps[1..] + [p];
      CountClassAppend(ps[1..], p, assetClass);
    }
  }

  lemma {:induction false} CountClassUpdate(ps: seq<Position>, i: nat, p: Position, assetClass: string)
    requires i < |ps| && p.assetClass == ps[i].assetClass && (p.isOpen ==> ps[i].isOpen)
    ensures CountClass(ps[i := p], assetClass) <= CountClass(ps, assetClass)
  {
    if i == 0 {
      assert ps[0 := p][1..] == ps[1..];
    } else {
      assert ps[i := p][1..] == ps[1..][i - 1 := p];
      CountClassUpdate(ps[1..], i - 1, p, assetClass);
    }
  }

  lemma PctWithin(a: Account, amount: real, pct: real)
    requires a.starting >= MIN_BALANCE && PctOfStart(a, amount) <= pct
    ensures amount <= pct / 100.0 * a.starting
  {}

  lemma BuyingStaysWithin(a: Account, c: Candidate, x: Context)
    requires Inv(a) && WithinLimits(a, x.caps) && Decide(a, c, x).Buy?
    ensures WithinLimits(Bought(a, c, x, Decide(a, c, x).order), x.caps)
  {
    hide Decide, PaperSizing.Size, PctOfStart, Conserved, Books, AllOk, DistinctPositions, StopRisk;
    var o := Decide(a, c, x).order;
    var p := NewPosition(c, x, o);
    BuyFacts(a, c, x);
    SumOpenAppend(a.positions, p, NotionalOf);
    SumOpenAppend(a.positions, p, RiskOf);
    PctWithin(a, OpenNotional(a) + o.size.notional, x.caps.exposurePct);
    PctWithin(a, OpenRisk(a) + StopRisk(o.fill, c.stop, o.size.quantity), x.caps.openRiskPct);
    forall assetClass: string
      ensures CountClass(a.positions + [p], assetClass) <= x.caps.perClass
    {
      CountClassAppend(a.positions, p, assetClass);
    }
  }

  /** Marking changes neither size nor identity, and never reopens. */
  lemma MarkingKeepsTheDeal(a: Account, i: nat, price: real, force: Option<string>, now: int)
    requires i < |a.positions|
    ensures var after := MarkAt(a, i, price, force, now);
            && after.starting == a.starting && |after.positions| == |a.positions|
            && after.positions == a.positions[i := after.positions[i]]
            && (var p, q := a.positions[i], after.positions[i];
                && q.asset == p.asset && q.assetClass == p.assetClass && q.notional == p.notional
                && q.fill == p.fill && q.stop == p.stop && q.quantity == p.quantity && (q.isOpen ==> p.isOpen))
  {}

  lemma ReplacingStaysWithin(ps: seq<Position>, i: nat, q: Position)
    requires i < |ps| && AllOk(ps) && DistinctOpenAssets(ps)
    requires q.asset == ps[i].asset && q.assetClass == ps[i].assetClass && q.notional == ps[i].notional
    requires q.fill == ps[i].fill && q.stop == ps[i].stop && q.quantity == ps[i].quantity && (q.isOpen ==> ps[i].isOpen)
    ensures DistinctOpenAssets(ps[i := q])
    ensures SumOpen(ps[i := q], NotionalOf) <= SumOpen(ps, NotionalOf)
    ensures SumOpen(ps[i := q], RiskOf) <= SumOpen(ps, RiskOf)
  {
    RiskIsPositive(ps[i]);
    assert NotionalOf(q) == NotionalOf(ps[i]) && RiskOf(q) == RiskOf(ps[i]);
    hide StopRisk, SumOpen;
    SumOpenUpdate(ps, i, q, NotionalOf);
    SumOpenUpdate(ps, i, q, RiskOf);
  }

  lemma MarkingStaysWithin(a: Account, k: Caps, i: nat, price: real, force: Option<string>, now: int)
    requires Inv(a) && WithinLimits(a, k) && i < |a.positions|
    ensures WithinLimits(MarkAt(a, i, price, force, now), k)
  {
    hide MarkAt, Conserved, Books, DistinctPositions, SettingsOk, AllOk, DistinctOpenAssets, SumOpen, CountClass;
    var after := MarkAt(a, i, price, force, now);
    MarkingKeepsTheDeal(a, i, price, force, now);
    ReplacingStaysWithin(a.positions, i, after.positions[i]);
    forall assetClass: string
      ensures CountClass(after.positions, assetClass) <= k.perClass
    {
      CountClassUpdate(a.positions, i, after.positions[i], assetClass);
    }
  }

  lemma ResettingStaysWithin(a: Account, balance: real, k: Caps)
    requires WithinLimits(a, k) && CapsOk(k)
    ensures WithinLimits(ResetStep(a, balance), k)
  {}

  lemma BookkeepingStaysWithin(a: Account, b: Account, k: Caps)
    requires WithinLimits(a, k) && b.positions == a.positions && b.starting == a.starting
    ensures WithinLimits(b, k)
  {}

  lemma StepStaysWithin(a: Account, e: Event, k: Caps)
    requires Inv(a) && WithinLimits(a, k) && CapsOk(k)
    requires e.OpenEvent? ==> e.x.caps == k
    ensures WithinLimits(Step(a, e), k)
  {
    hide Decide, MarkAt, Bought, Inv, WithinLimits, CapsOk, ResetStep, Refused, Merge;
    match e
    case OpenEvent(c, x) =>
      if Decide(a, c, x).Buy? { BuyingStaysWithin(a, c, x); }
      BookkeepingStaysWithin(a, Record(a, Skipped), k);
      BookkeepingStaysWithin(a, Record(a, Deferred), k);
    case MarkEvent(id, price, force, now) =>
      if price > 0.0 && IndexOf(a.positions, id) < |a.positions| {
        MarkingStaysWithin(a, k, IndexOf(a.positions, id), price, force, now);
      }
    case ResetEvent(balance) => ResettingStaysWithin(a, balance, k);
    case UpdateEvent(changes) => BookkeepingStaysWithin(a, UpdateStep(a, changes), k);
  }

  /**
   * Over every run under fixed limits: open notional and open stop risk stay within their share of
   * the starting balance, no asset is open twice and no asset class exceeds its number.
   */
  lemma {:induction false} EveryReachableStateIsWithinLimits(balance: real, settings: Settings, es: seq<Event>, k: Caps)
    requires MIN_BALANCE <= balance <= MAX_BALANCE && SettingsOk(settings) && CapsOk(k)
    requires forall i :: 0 <= i < |es| && es[i].OpenEvent? ==> es[i].x.caps == k
    ensures WithinLimits(Run(Create(balance, settings), es), k)
  {
    hide Inv, Step, WithinLimits, CapsOk, SettingsOk;
    if es == [] {
      CreatedIsWithin(balance, settings, k);
    } else {
      var before := es[..|es| - 1];
      EveryReachableStateIsWithinLimits(balance, settings, before, k);
      EveryReachableStateIsConserved(balance, settings, before);
      StepStaysWithin(Run(Create(balance, settings), before), es[|es| - 1], k);
    }
  }

  lemma CreatedIsWithin(balance: real, settings: Settings, k: Caps)
    requires MIN_BALANCE <= balance && CapsOk(k)
    ensures WithinLimits(Create(balance, settings), k)
  {}

  /** One signal never has two positions between two resets, open or closed. */
  lemma OnePositionPerSignal(balance: real, settings: Settings, es: seq<Event>, i: nat, j: nat)
    requires MIN_BALANCE <= balance <= MAX_BALANCE && SettingsOk(settings)
    requires var ps := Run(Create(balance, settings), es).positions; i < |ps| && j < |ps| && ps[i].signal == ps[j].signal
    ensures i == j
  {
    EveryReachableStateIsConserved(balance, settings, es);
  }
}
