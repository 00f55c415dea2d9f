/**
 * The paper-trading account (core/paper_trading_service.py) as a value and its steps:
 * opening a position for a candidate signal, marking a position at a price, resetting the
 * account and changing its settings. One step is one database transaction.
 */
module PaperAccount {
  import opened Wrappers
  import opened RealMath
  import PaperSizing

  datatype Side = Long | Short
  datatype TargetMode = TP1 | TP2 | TP3
  datatype AllowedDirections = Both | LongOnly | ShortOnly

  datatype Settings = Settings(
    autoTrade: bool, riskPct: real, maxOpenPositions: int, minScore: real,
    spreadBps: real, slippageBps: real, feeBps: real,
    targetMode: TargetMode, directions: AllowedDirections, classes: set<string>)

  datatype ExitReason = TargetHit | StopHit | Forced(why: string)

  datatype Position = Position(
    id: string, signal: string, asset: string, assetClass: string, side: Side, isOpen: bool,
    fill: real, price: real, stop: real, target: real, quantity: real, notional: real, reserved: real,
    entryFee: real, exitFee: real, unrealized: real, realized: real, rMultiple: real,
    openedAt: int, closedAt: int, exit: Option<ExitReason>)

  datatype Outcome = Skipped | Deferred | Opened
  datatype RowKind =
    | AccountCreated | AccountReset | SettingsUpdated
    | PositionOpened(id: string) | PositionClosed(id: string) | Attempt(outcome: Outcome)
  datatype Row = Row(kind: RowKind, amount: real, balanceAfter: real)

  datatype Account = Account(
    active: bool, starting: real, cash: real, realized: real,
    settings: Settings, positions: seq<Position>, ledger: seq<Row>)

  // ---- Sums over positions ----

  function OpenPart(p: Position, f: Position -> real): real { if p.isOpen then f(p) else 0.0 }

  function ClosedPart(p: Position, f: Position -> real): real { if p.isOpen then 0.0 else f(p) }

  function SumOpen(ps: seq<Position>, f: Position -> real): real {
    if ps == [] then 0.0 else OpenPart(ps[0], f) + SumOpen(ps[1..], f)
  }

  function SumClosed(ps: seq<Position>, f: Position -> real): real {
    if ps == [] then 0.0 else ClosedPart(ps[0], f) + SumClosed(ps[1..], f)
  }

  /** How many open positions belong to an asset class. */
  function CountClass(ps: seq<Position>, assetClass: string): nat {
    if ps == [] then 0
    else (if ps[0].isOpen && ps[0].assetClass == assetClass then 1 else 0) + CountClass(ps[1..], assetClass)
  }

  function CountOpen(ps: seq<Position>): nat {
    if ps == [] then 0 else (if ps[0].isOpen then 1 else 0) + CountOpen(ps[1..])
  }

  function OpenedSince(ps: seq<Position>, t: int): nat {
    if ps == [] then 0 else (if ps[0].openedAt >= t then 1 else 0) + OpenedSince(ps[1..], t)
  }

  function RealizedSince(ps: seq<Position>, t: int): real {
    if ps == [] then 0.0
    else (if !ps[0].isOpen && ps[0].closedAt >= t then ps[0].realized else 0.0) + RealizedSince(ps[1..], t)
  }

  /** Cash tied up in a position: what closing it at its fill without fees would not give back is the fee. */
  function Held(p: Position): real { p.reserved + p.entryFee }
  /** What the quantity is worth at the fill. */
  function FillValue(fill: real, quantity: real): real { quantity * fill }
  function NotionalOf(p: Position): real { p.notional }
  function ReservedOf(p: Position): real { p.reserved }
  function EntryFeeOf(p: Position): real { p.entryFee }
  function UnrealizedOf(p: Position): real { p.unrealized }
  function RealizedOf(p: Position): real { p.realized }
  /** What a quantity loses between its fill and its stop. */
  function StopRisk(fill: real, stop: real, quantity: real): real { Abs(fill - stop) * quantity }
  function RiskOf(p: Position): real { StopRisk(p.fill, p.stop, p.quantity) }

  function OpenNotional(a: Account): real { SumOpen(a.positions, NotionalOf) }
  function OpenRisk(a: Account): real { SumOpen(a.positions, RiskOf) }

  // ---- Creating, settings, resetting ----

  const MIN_BALANCE := 50.0
  const MAX_BALANCE := 100000000.0

  function ClampInt(x: int, low: int, high: int): int { if x < low then low else if x > high then high else x }

  function Create(balance: real, settings: Settings): Account {
    Account(true, balance, balance, 0.0, settings, [], [Row(AccountCreated, 0.0, balance)])
  }

  datatype Given<T> = Absent | Unreadable | Value(value: T)

  datatype Changes = Changes(
    autoTrade: Given<bool>, riskPct: Given<real>, maxOpenPositions: Given<int>, minScore: Given<real>,
    spreadBps: Given<real>, slippageBps: Given<real>, feeBps: Given<real>,
    targetMode: Given<TargetMode>, directions: Given<AllowedDirections>, classes: Given<set<string>>)

  /** A number that cannot be read becomes the default, and every number is clamped to its range. */
  function Number(g: Given<real>, current: real, default: real, low: real, high: real): real {
    match g
    case Absent => current
    case Unreadable => Clamp(default, low, high)
    case Value(x) => Clamp(x, low, high)
  }

  /** A text outside its list, a position count that is not a number, or classes that are not a list refuse the whole update. */
  predicate Refused(c: Changes) {
    c.targetMode.Unreadable? || c.directions.Unreadable? || c.maxOpenPositions.Unreadable? || c.classes.Unreadable?
  }

  function Merge(s: Settings, c: Changes): Settings {
    Settings(
      if c.autoTrade.Value? then c.autoTrade.value else s.autoTrade,
      Number(c.riskPct, s.riskPct, 1.0, 0.1, 10.0),
      if c.maxOpenPositions.Value? then ClampInt(c.maxOpenPositions.value, 1, 100) else s.maxOpenPositions,
      Number(c.minScore, s.minScore, 0.0, 0.0, 100.0),
      Number(c.spreadBps, s.spreadBps, 0.0, 0.0, 500.0),
      Number(c.slippageBps, s.slippageBps, 0.0, 0.0, 500.0),
      Number(c.feeBps, s.feeBps, 0.0, 0.0, 500.0),
      if c.targetMode.Value? then c.targetMode.value else s.targetMode,
      if c.directions.Value? then c.directions.value else s.directions,
      if c.classes.Value? then c.classes.value else s.classes)
  }

  function UpdateStep(a: Account, c: Changes): Account {
    if Refused(c) then a
    else a.(settings := Merge(a.settings, c), ledger := a.ledger + [Row(SettingsUpdated, 0.0, a.cash)])
  }

  function ResetStep(a: Account, requested: real): Account {
    if CountOpen(a.positions) > 0 then a
    else
      var balance := Clamp(requested, MIN_BALANCE, MAX_BALANCE);
      a.(starting := balance, cash := balance, realized := 0.0, positions := [],
         ledger := a.ledger + [Row(AccountReset, 0.0, balance)])
  }

  // ---- Opening ----

  datatype Candidate = Candidate(
    signal: string, asset: string, assetClass: string, side: Side, score: real,
    entry: real, stop: real, targets: seq<real>, awaitingEntry: bool)

  datatype Profile = Profile(
    allowsPaper: bool, matches: bool, maxConcurrent: int, maxDailyTrades: int, maxDailyLossPct: real, riskPct: real)

  /** Limits read from the environment. */
  datatype Caps = Caps(
    perClass: int, entryDeviationBps: real, notionalPct: real, exposurePct: real, openRiskPct: real,
    dailyLossPct: real, tolerance: real, requireProfile: bool)

  /** What the step learns from outside: user and tier checks, evidence, profile, quote and clock. */
  datatype Context = Context(
    admitted: bool, accessProven: bool, profile: Option<Profile>, staleReason: Option<string>,
    price: real, now: int, dayStart: int, retryDeadlinePassed: bool, newId: string, exactlyOneEvidence: bool, caps: Caps)

  datatype Reason =
    | AutoTradeDisabled | ProfileUnavailable | ProfileExcludesPaper | PreferenceMismatch | Stale(why: string)
    | MaxOpenPositions | ProfileDailyTradeLimit | DailyLossLimit | ScoreBelowMinimum | DirectionNotAllowed
    | DuplicateOpenAsset | MaxOpenPositionsAssetClass | AssetClassNotAllowed | IncompleteSignalLevels
    | EntryDeviationTooLarge | InvalidRiskDistance | EntryNoLongerValid | SizingRefused(refusal: PaperSizing.Refusal)
    | MaxTotalExposure | MaxOpenRisk | WatchingForEntry | LivePriceUnavailable

  datatype Order = Order(fill: real, target: real, size: PaperSizing.PositionSize)

  datatype Decision = Ignore | Skip(reason: Reason) | Defer(reason: Reason) | Buy(order: Order)

  predicate HasSignal(ps: seq<Position>, signal: string) { exists i :: 0 <= i < |ps| && ps[i].signal == signal }

  predicate HasOpenAsset(ps: seq<Position>, asset: string) {
    exists i :: 0 <= i < |ps| && ps[i].isOpen && ps[i].asset == asset
  }

  predicate HasId(ps: seq<Position>, id: string) { exists i :: 0 <= i < |ps| && ps[i].id == id }

  function Unless(earlier: Option<Reason>, bad: bool, reason: Reason): Option<Reason> {
    if earlier.Some? then earlier else if bad then Some(reason) else None
  }

  function ProfileReason(x: Context): Option<Reason> {
    match x.profile
    case None => if x.caps.requireProfile then Some(ProfileUnavailable) else None
    case Some(p) =>
      if !p.allowsPaper then Some(ProfileExcludesPaper) else if !p.matches then Some(PreferenceMismatch) else None
  }

  function EffectiveMaxPositions(s: Settings, x: Context): int {
    match x.profile
    case None => s.maxOpenPositions
    case Some(p) =>
      var wanted := MaxInt(1, if p.maxConcurrent == 0 then s.maxOpenPositions else p.maxConcurrent);
      if s.maxOpenPositions <= wanted then s.maxOpenPositions else wanted
  }

  predicate TooManyToday(a: Account, x: Context) {
    x.profile.Some? && x.profile.value.maxDailyTrades > 0
    && OpenedSince(a.positions, x.dayStart) >= x.profile.value.maxDailyTrades
  }

  function DailyLossLimitOf(a: Account, x: Context): real {
    var pct := if x.profile.Some? then Min(x.caps.dailyLossPct, Max(0.1, x.profile.value.maxDailyLossPct)) else x.caps.dailyLossPct;
    a.starting * pct / 100.0
  }

  predicate DirectionAllowed(s: Settings, side: Side) {
    s.directions == Both || (s.directions == LongOnly && side == Long) || (s.directions == ShortOnly && side == Short)
  }

  predicate Incomplete(c: Candidate) { c.entry <= 0.0 || c.stop <= 0.0 || c.targets == [] }

  /** The reason recorded by the checks that need no price: staleness overrides, otherwise the first one counts. */
  function SkipReason(a: Account, c: Candidate, x: Context): Option<Reason> {
    var r0 := if x.staleReason.Some? then Some(Stale(x.staleReason.value)) else ProfileReason(x);
    var r1 := Unless(r0, CountOpen(a.positions) >= EffectiveMaxPositions(a.settings, x), MaxOpenPositions);
    var r2 := Unless(r1, TooManyToday(a, x), ProfileDailyTradeLimit);
    var r3 := Unless(r2, RealizedSince(a.positions, x.dayStart) <= -DailyLossLimitOf(a, x), DailyLossLimit);
    var r4 := Unless(r3, c.score < a.settings.minScore, ScoreBelowMinimum);
    var r5 := Unless(r4, !DirectionAllowed(a.settings, c.side), DirectionNotAllowed);
    var r6 := Unless(r5, HasOpenAsset(a.positions, c.asset), DuplicateOpenAsset);
    var r7 := Unless(r6, CountClass(a.positions, c.assetClass) >= x.caps.perClass, MaxOpenPositionsAssetClass);
    var r8 := Unless(r7, a.settings.classes != {} && c.assetClass !in a.settings.classes, AssetClassNotAllowed);
    Unless(r8, Incomplete(c), IncompleteSignalLevels)
  }

  /** The objections that need no price, in the order in which they count. */
  function Objections(a: Account, c: Candidate, x: Context): seq<(bool, Reason)> {
    [(x.staleReason.Some?, Stale(if x.staleReason.Some? then x.staleReason.value else "")),
     (x.profile.None? && x.caps.requireProfile, ProfileUnavailable),
     (x.profile.Some? && !x.profile.value.allowsPaper, ProfileExcludesPaper),
     (x.profile.Some? && !x.profile.value.matches, PreferenceMismatch),
     (CountOpen(a.positions) >= EffectiveMaxPositions(a.settings, x), MaxOpenPositions),
     (TooManyToday(a, x), ProfileDailyTradeLimit),
     (RealizedSince(a.positions, x.dayStart) <= -DailyLossLimitOf(a, x), DailyLossLimit),
     (c.score < a.settings.minScore, ScoreBelowMinimum),
     (!DirectionAllowed(a.settings, c.side), DirectionNotAllowed),
     (HasOpenAsset(a.positions, c.asset), DuplicateOpenAsset),
     (CountClass(a.positions, c.assetClass) >= x.caps.perClass, MaxOpenPositionsAssetClass),
     (a.settings.classes != {} && c.assetClass !in a.settings.classes, AssetClassNotAllowed),
     (Incomplete(c), IncompleteSignalLevels)]
  }

  /** No objection holds, or this is the first that does. */
  predicate IsFirst(objections: seq<(bool, Reason)>, found: Option<Reason>) {
    match found
    case None => forall i :: 0 <= i < |objections| ==> !objections[i].0
    case Some(r) =>
      exists i :: 0 <= i < |objections| && objections[i] == (true, r) && forall j :: 0 <= j < i ==> !objections[j].0
  }

  lemma IsFirstNext(objections: seq<(bool, Reason)>, k: nat, found: Option<Reason>)
    requires k < |objections| && IsFirst(objections[..k], found)
    ensures IsFirst(objections[..k + 1], Unless(found, objections[k].0, objections[k].1))
  {
    var shorter, longer := objections[..k], objections[..k + 1];
    assert forall j :: 0 <= j < k ==> longer[j] == shorter[j];
    if found.Some? {
      var i :| 0 <= i < k && shorter[i] == (true, found.value) && forall j :: 0 <= j < i ==> !shorter[j].0;
      assert longer[i] == (true, found.value) && forall j :: 0 <= j < i ==> !longer[j].0;
    } else {
      assert longer[k] == objections[k];
    }
  }

  lemma ProfileIsFirst(a: Account, c: Candidate, x: Context)
    ensures IsFirst(Objections(a, c, x)[..4], if x.staleReason.Some? then Some(Stale(x.staleReason.value)) else ProfileReason(x))
  {
    hide EffectiveMaxPositions, TooManyToday, DailyLossLimitOf, DirectionAllowed, HasOpenAsset, Incomplete, CountOpen, CountClass, RealizedSince;
    var four := Objections(a, c, x)[..4];
    assert four[0] == (x.staleReason.Some?, Stale(if x.staleReason.Some? then x.staleReason.value else ""));
    assert four[1] == (x.profile.None? && x.caps.requireProfile, ProfileUnavailable);
    assert four[2] == (x.profile.Some? && !x.profile.value.allowsPaper, ProfileExcludesPaper);
    assert four[3] == (x.profile.Some? && !x.profile.value.matches, PreferenceMismatch);
  }

  lemma ObjectionAt(a: Account, c: Candidate, x: Context)
    ensures var all := Objections(a, c, x);
            && |all| == 13
            && all[4] == (CountOpen(a.positions) >= EffectiveMaxPositions(a.settings, x), MaxOpenPositions)
            && all[5] == (TooManyToday(a, x), ProfileDailyTradeLimit)
            && all[6] == (RealizedSince(a.positions, x.dayStart) <= -DailyLossLimitOf(a, x), DailyLossLimit)
            && all[7] == (c.score < a.settings.minScore, ScoreBelowMinimum)
            && all[8] == (!DirectionAllowed(a.settings, c.side), DirectionNotAllowed)
            && all[9] == (HasOpenAsset(a.positions, c.asset), DuplicateOpenAsset)
            && all[10] == (CountClass(a.positions, c.assetClass) >= x.caps.perClass, MaxOpenPositionsAssetClass)
            && all[11] == (a.settings.classes != {} && c.assetClass !in a.settings.classes, AssetClassNotAllowed)
            && all[12] == (Incomplete(c), IncompleteSignalLevels)
  {
    hide EffectiveMaxPositions, TooManyToday, DailyLossLimitOf, DirectionAllowed, HasOpenAsset, Incomplete, CountOpen, CountClass,
         RealizedSince;
  }

  lemma ChainIsFirst(all: seq<(bool, Reason)>, r0: Option<Reason>)
    requires |all| == 13 && IsFirst(all[..4], r0)
    ensures var r4 := Unless(Unless(Unless(Unless(r0, all[4].0, all[4].1), all[5].0, all[5].1), all[6].0, all[6].1), all[7].0, all[7].1);
            var r8 := Unless(Unless(Unless(Unless(r4, all[8].0, all[8].1), all[9].0, all[9].1), all[10].0, all[10].1), all[11].0, all[11].1);
            IsFirst(all, Unless(r8, all[12].0, all[12].1))
  {
    hide IsFirst, Unless;
    var r := r0;
    IsFirstNext(all, 4, r);
    r := Unless(r, all[4].0, all[4].1);
    IsFirstNext(all, 5, r);
    r := Unless(r, all[5].0, all[5].1);
    IsFirstNext(all, 6, r);
    r := Unless(r, all[6].0, all[6].1);
    IsFirstNext(all, 7, r);
    r := Unless(r, all[7].0, all[7].1);
    IsFirstNext(all, 8, r);
    r := Unless(r, all[8].0, all[8].1);
    IsFirstNext(all, 9, r);
    r := Unless(r, all[9].0, all[9].1);
    IsFirstNext(all, 10, r);
    r := Unless(r, all[10].0, all[10].1);
    IsFirstNext(all, 11, r);
    r := Unless(r, all[11].0, all[11].1);
    IsFirstNext(all, 12, r);
    assert all[..13] == all;
  }

  /** The chain of checks reports the first objection that holds, and nothing exactly when none does. */
  lemma SkipReasonIsFirst(a: Account, c: Candidate, x: Context)
    ensures IsFirst(Objections(a, c, x), SkipReason(a, c, x))
  {
    hide Objections, IsFirst, Unless, EffectiveMaxPositions, TooManyToday, DailyLossLimitOf, DirectionAllowed, HasOpenAsset, Incomplete,
         CountOpen, CountClass, RealizedSince, ProfileReason;
    ObjectionAt(a, c, x);
    ProfileIsFirst(a, c, x);
    ChainIsFirst(Objections(a, c, x), if x.staleReason.Some? then Some(Stale(x.staleReason.value)) else ProfileReason(x));
  }

  function FillPrice(s: Settings, side: Side, price: real): real {
    var bps := (s.spreadBps + s.slippageBps) / 10000.0;
    price * (if side == Long then 1.0 + bps else 1.0 - bps)
  }

  function TargetOf(mode: TargetMode, targets: seq<real>): real
    requires targets != []
  {
    var wanted := match mode case TP1 => 0 case TP2 => 1 case TP3 => 2;
    targets[if wanted < |targets| then wanted else |targets| - 1]
  }

  predicate Geometry(side: Side, stop: real, fill: real, target: real) {
    if side == Long then stop < fill < target else target < fill < stop
  }

  function EffectiveRiskPct(s: Settings, x: Context): real {
    if x.profile.Some? then Min(s.riskPct, Max(0.01, x.profile.value.riskPct)) else s.riskPct
  }

  function SizingInputs(a: Account, c: Candidate, x: Context, fill: real): PaperSizing.Inputs {
    PaperSizing.Inputs(a.cash, EffectiveRiskPct(a.settings, x), Abs(fill - c.stop), fill, x.caps.notionalPct,
                       a.settings.feeBps, x.caps.tolerance)
  }

  /** Part of the starting balance in percent; the balance is guarded against zero as in the program. */
  function PctOfStart(a: Account, amount: real): real { amount / Max(a.starting, 0.000000001) * 100.0 }

  /** The decision once no price-free check objects. */
  function PricedDecision(a: Account, c: Candidate, x: Context): Decision
    requires !Incomplete(c)
  {
    if c.awaitingEntry then Defer(WatchingForEntry)
    else if x.price <= 0.0 then Defer(LivePriceUnavailable)
    else if Abs(x.price - c.entry) / Max(c.entry, 0.000000000001) * 10000.0 > x.caps.entryDeviationBps then Skip(EntryDeviationTooLarge)
    else
      var fill := FillPrice(a.settings, c.side, x.price);
      var target := TargetOf(a.settings.targetMode, c.targets);
      if Abs(fill - c.stop) <= 0.0 then Skip(InvalidRiskDistance)
      else if !Geometry(c.side, c.stop, fill, target) then Skip(EntryNoLongerValid)
      else
        match PaperSizing.Size(SizingInputs(a, c, x, fill))
        case Failure(refusal) => Skip(SizingRefused(refusal))
        case Success(size) =>
          if PctOfStart(a, OpenNotional(a) + size.notional) > x.caps.exposurePct then Skip(MaxTotalExposure)
          else if PctOfStart(a, OpenRisk(a) + StopRisk(fill, c.stop, size.quantity)) > x.caps.openRiskPct then Skip(MaxOpenRisk)
          else Buy(Order(fill, target, size))
  }

  function Decide(a: Account, c: Candidate, x: Context): Decision {
    if !x.admitted then Ignore
    else if !a.active || !a.settings.autoTrade then Skip(AutoTradeDisabled)
    else if HasSignal(a.positions, c.signal) || !x.accessProven then Ignore
    else if SkipReason(a, c, x).Some? then Skip(SkipReason(a, c, x).value)
    else PricedDecision(a, c, x)
  }

  function NewPosition(c: Candidate, x: Context, o: Order): Position {
    Position(x.newId, c.signal, c.asset, c.assetClass, c.side, true,
             o.fill, x.price, c.stop, o.target, o.size.quantity, o.size.notional, o.size.notional,
             o.size.entryFee, 0.0, 0.0, 0.0, 0.0, x.now, x.now, None)
  }

  function Record(a: Account, outcome: Outcome): Account {
    a.(ledger := a.ledger + [Row(Attempt(outcome), 0.0, a.cash)])
  }

  /** A transaction that the database or the evidence check rejects leaves no trace. */
  predicate Aborted(a: Account, x: Context) { HasId(a.positions, x.newId) || !x.exactlyOneEvidence }

  function Bought(a: Account, c: Candidate, x: Context, o: Order): Account {
    var cash := a.cash - o.size.totalRequired;
    Record(a.(cash := cash, positions := a.positions + [NewPosition(c, x, o)],
              ledger := a.ledger + [Row(PositionOpened(x.newId), -o.size.totalRequired, cash)]),
           Opened)
  }

  function OpenStep(a: Account, c: Candidate, x: Context): Account {
    match Decide(a, c, x)
    case Ignore => a
    case Skip(_) => Record(a, Skipped)
    case Defer(_) => Record(a, if x.retryDeadlinePassed then Skipped else Deferred)
    case Buy(o) =>
      if a.cash - o.size.totalRequired < -Abs(x.caps.tolerance) || Aborted(a, x) then a
      else Bought(a, c, x, o)
  }

  // ---- Marking ----

  function Gross(p: Position, price: real): real {
    if p.side == Long then (price - p.fill) * p.quantity else (p.fill - price) * p.quantity
  }

  predicate TargetReached(p: Position, price: real) {
    p.target > 0.0 && (if p.side == Long then price >= p.target else price <= p.target)
  }

  predicate StopReached(p: Position, price: real) {
    p.stop > 0.0 && (if p.side == Long then price <= p.stop else price >= p.stop)
  }

  /** Why the position closes at this price, if it does; the target is looked at first. */
  function ExitAt(p: Position, price: real, force: Option<string>): Option<ExitReason> {
    if force.Some? then Some(Forced(force.value))
    else if TargetReached(p, price) then Some(TargetHit)
    else if StopReached(p, price) then Some(StopHit)
    else None
  }

  function ExitFee(p: Position, price: real, feeBps: real): real { p.quantity * price * (feeBps / 10000.0) }

  function Marked(p: Position, price: real): Position { p.(price := price, unrealized := Gross(p, price)) }

  function Settled(p: Position, price: real, feeBps: real, now: int, why: ExitReason): Position {
    var fee := ExitFee(p, price, feeBps);
    var net := Gross(p, price) - p.entryFee - fee;
    p.(isOpen := false, price := price, exitFee := fee, realized := net, unrealized := 0.0,
       rMultiple := if RiskOf(p) > 0.0 then net / RiskOf(p) else 0.0, closedAt := now, exit := Some(why))
  }

  /** Index of the position with this id, or |ps| when there is none. */
  function IndexOf(ps: seq<Position>, id: string): (i: nat)
    ensures i <= |ps|
    ensures i < |ps| ==> ps[i].id == id
    ensures forall j :: 0 <= j < i ==> ps[j].id != id
  {
    if ps == [] then 0 else if ps[0].id == id then 0 else 1 + IndexOf(ps[1..], id)
  }

  function MarkAt(a: Account, i: nat, price: real, force: Option<string>, now: int): Account
    requires i < |a.positions|
  {
    var p := a.positions[i];
    if !p.isOpen then a
    else
      match ExitAt(p, price, force)
      case None => a.(positions := a.positions[i := Marked(p, price)])
      case Some(why) =>
        var settled := Settled(p, price, a.settings.feeBps, now, why);
        var proceeds := p.reserved + Gross(p, price) - settled.exitFee;
        a.(cash := a.cash + proceeds, realized := a.realized + settled.realized,
           positions := a.positions[i := settled],
           ledger := a.ledger + [Row(PositionClosed(p.id), proceeds, a.cash + proceeds)])
  }

  /** Callers pass only quotes above zero; a quote that is not is skipped. */
  function MarkStep(a: Account, id: string, price: real, force: Option<string>, now: int): Account {
    var i := IndexOf(a.positions, id);
    if price <= 0.0 || i == |a.positions| then a else MarkAt(a, i, price, force, now)
  }

  // ---- Whole runs ----

  datatype Event =
    | OpenEvent(c: Candidate, x: Context)
    | MarkEvent(id: string, price: real, force: Option<string>, now: int)
    | ResetEvent(balance: real)
    | UpdateEvent(changes: Changes)

  function Step(a: Account, e: Event): Account {
    match e
    case OpenEvent(c, x) => OpenStep(a, c, x)
    case MarkEvent(id, price, force, now) => MarkStep(a, id, price, force, now)
    case ResetEvent(balance) => ResetStep(a, balance)
    case UpdateEvent(changes) => UpdateStep(a, changes)
  }

  function Run(a: Account, es: seq<Event>): Account {
    if es == [] then a else Step(Run(a, es[..|es| - 1]), es[|es| - 1])
  }

  // ---- Snapshot ----

  function Equity(a: Account): real {
    a.cash + SumOpen(a.positions, ReservedOf) + SumOpen(a.positions, UnrealizedOf)
  }
}
