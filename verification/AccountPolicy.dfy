/**
 * The per-account admission policy (core/account_policy.py). `Blocks` says when each reason code
 * applies; the methods collect the codes the way the program does.
 */
module AccountPolicy {
  import opened Wrappers
  import opened RealMath

  datatype Mode = Paper | Demo | LivePersonal | Prop
  datatype Permission = ReadOnly | SignalsOnly | PaperOnly | Manual | AssistedExecution | AutoExecution
  datatype ExecutionMode = ManualConfirmed | Auto | Live | CopyTrade | OtherMode

  datatype HardRule =
    | TrailingDrawdown(id: string, value: real)
    | MaxOrderSize(id: string, value: real, unit: string)
    | MaxNotional(id: string, value: real)
    | ForbidModes(id: string, modes: set<ExecutionMode>)
    | RestrictedInstruments(id: string, values: set<string>)
    | RestrictedClasses(id: string, values: set<string>)
    | MaxPositions(id: string, count: int)

  /** A weekly trading window in the account's time zone; a part is None when it could not be read. */
  datatype Window = Window(days: Option<set<int>>, start: Option<int>, end: Option<int>)

  /** hardRules is None when the rule configuration does not validate. */
  datatype Policy = Policy(
    mode: Mode, permission: Permission, active: bool, frozen: bool,
    maxRiskPct: real, maxDailyLoss: real, maxWeeklyLoss: real, maxDrawdown: real, maxPositions: int,
    maxLeverage: real, maxSpread: real, maxSlippage: real, minConfidence: real, minExpectedRr: real,
    buffer: real, externalDaily: Option<real>, externalWeekly: Option<real>, externalDrawdown: Option<real>,
    instruments: set<string>, classes: set<string>, strategies: set<string>, windows: seq<Window>,
    newsAllowed: bool, weekendAllowed: bool,
    certified: bool, hasFirm: bool, hasRulesVersion: bool, hardRules: Option<seq<HardRule>>)

  /** Texts are upper case and stripped; weekday and second are local to the account's time zone. */
  datatype Snapshot = Snapshot(
    equity: real, dayStart: real, peak: real, dailyPnl: real, weekStart: real, weeklyPnl: real,
    openPositions: int, riskPct: real, leverage: real, spread: real, slippage: real,
    confidence: real, expectedRr: real, orderSize: real, sizeUnit: string,
    symbol: string, assetClass: string, strategy: string, newsWindow: bool, weekendHold: bool,
    isDemo: Option<bool>, reconciled: bool, baselinesVerified: bool, weeklyVerified: bool,
    weekday: int, second: int)

  datatype RuleFinding =
    | BaselineUnavailable | DrawdownReached | SizeUnavailable | UnitUnverifiable | OrderTooLarge
    | NotionalUnavailable | NotionalTooLarge | ModeForbidden | InstrumentForbidden | ClassForbidden | TooManyPositions

  datatype Reason =
    | PolicyInactive | PolicyFrozen | ReconciliationUnready | PermissionBlocked
    | PaperForbidden | DemoMismatch | LiveMismatch | LossBaselineUnavailable | WeeklyBaselineUnavailable
    | NotCertified | FirmRequired | RulesVersionRequired | ExternalDailyRequired | ExternalDrawdownRequired
    | InvalidDailyBuffer | InvalidWeeklyBuffer | InvalidDrawdownBuffer
    | EquityUnavailable | DailyLossReached | WeeklyLossReached | DrawdownLimitReached
    | RiskPerTrade | Leverage | Spread | Slippage | Confidence | RewardRisk | OpenPositionsReached
    | InstrumentNotAllowed | ClassNotAllowed | StrategyNotAllowed | OutsideWindow | NewsBlocked | WeekendBlocked
    | RuleConfigInvalid | RuleHit(id: string, finding: RuleFinding)

  // ---- Pieces ----

  function PermissionRank(p: Permission): nat {
    match p case AutoExecution => 3 case AssistedExecution => 2 case Manual => 1 case _ => 0
  }

  predicate Permits(p: Permission, m: ExecutionMode, mode: Mode) {
    && mode != Paper
    && m != OtherMode
    && (if m == ManualConfirmed then p in {Manual, AssistedExecution, AutoExecution} else p == AutoExecution)
  }

  /** The internal limit, or the buffered external one when that is lower; None when the buffer leaves nothing. */
  function EffectiveLimit(internal: real, external: Option<real>, buffer: real): Option<real> {
    if external.None? then Some(internal)
    else if external.value - buffer <= 0.0 then None
    else Some(Min(internal, external.value - buffer))
  }

  function DailyLimit(p: Policy): Option<real> {
    EffectiveLimit(p.maxDailyLoss, if p.mode == Prop then p.externalDaily else None, p.buffer)
  }

  function WeeklyLimit(p: Policy): Option<real> {
    EffectiveLimit(p.maxWeeklyLoss, if p.mode == Prop then p.externalWeekly else None, p.buffer)
  }

  function DrawdownLimit(p: Policy): Option<real> {
    EffectiveLimit(p.maxDrawdown, if p.mode == Prop then p.externalDrawdown else None, p.buffer)
  }

  predicate EquityKnown(s: Snapshot) { s.equity > 0.0 && s.dayStart > 0.0 && s.peak > 0.0 }

  /** Share of `start` that is gone. */
  function Fall(start: real, now: real): real
    requires start > 0.0
  {
    Max(0.0, (start - now) / start)
  }

  function LossShare(start: real, now: real, pnl: real): real
    requires start > 0.0
  {
    Max(Fall(start, now), Max(0.0, -pnl / start))
  }

  predicate InWindow(w: Window, s: Snapshot) {
    && w.days.Some? && s.weekday in w.days.value
    && w.start.Some? && w.end.Some?
    && Covers(w.start.value, w.end.value, s.second)
  }

  /** A window from start to end, around midnight when end comes first, all day when they agree. */
  predicate Covers(start: int, end: int, second: int) {
    start == end || (start < end && start <= second < end) || (start > end && (second >= start || second < end))
  }

  predicate WindowsAllow(ws: seq<Window>, s: Snapshot) {
    ws == [] || exists i :: 0 <= i < |ws| && InWindow(ws[i], s)
  }

  predicate Outside(allowed: set<string>, text: string) { allowed != {} && (text == "" || text !in allowed) }

  /** What one hard rule finds, if anything. */
  function RuleFinds(r: HardRule, s: Snapshot, m: ExecutionMode): Option<RuleFinding> {
    match r
    case TrailingDrawdown(_, value) =>
      if s.peak <= 0.0 || s.equity <= 0.0 then Some(BaselineUnavailable)
      else if Fall(s.peak, s.equity) >= value then Some(DrawdownReached) else None
    case MaxOrderSize(_, value, unit) =>
      if s.orderSize <= 0.0 then Some(SizeUnavailable)
      else if s.sizeUnit != unit then Some(UnitUnverifiable)
      else if s.orderSize > value then Some(OrderTooLarge) else None
    case MaxNotional(_, value) =>
      if s.leverage < 0.0 then Some(NotionalUnavailable)
      else if s.leverage > value then Some(NotionalTooLarge) else None
    case ForbidModes(_, modes) => if m in modes then Some(ModeForbidden) else None
    case RestrictedInstruments(_, values) => if s.symbol != "" && s.symbol in values then Some(InstrumentForbidden) else None
    case RestrictedClasses(_, values) => if s.assetClass != "" && s.assetClass in values then Some(ClassForbidden) else None
    case MaxPositions(_, count) => if s.openPositions >= count then Some(TooManyPositions) else None
  }

  // ---- Which reasons apply ----

  predicate StatusBlocks(r: Reason, p: Policy, s: Snapshot, m: ExecutionMode) {
    match r
    case PolicyInactive => !p.active
    case PolicyFrozen => p.frozen
    case ReconciliationUnready => !s.reconciled
    case PermissionBlocked => !Permits(p.permission, m, p.mode)
    case _ => false
  }

  predicate ModeBlocks(r: Reason, p: Policy, s: Snapshot) {
    match r
    case PaperForbidden => p.mode == Paper
    case DemoMismatch => p.mode == Demo && s.isDemo != Some(true)
    case LiveMismatch => (p.mode == LivePersonal || p.mode == Prop) && s.isDemo != Some(false)
    case LossBaselineUnavailable => (p.mode == LivePersonal || p.mode == Prop) && !s.baselinesVerified
    case WeeklyBaselineUnavailable => (p.mode == LivePersonal || p.mode == Prop) && p.maxWeeklyLoss > 0.0 && !s.weeklyVerified
    case _ => false
  }

  predicate PropBlocks(r: Reason, p: Policy) {
    match r
    case NotCertified => p.mode == Prop && !p.certified
    case FirmRequired => p.mode == Prop && !p.hasFirm
    case RulesVersionRequired => p.mode == Prop && !p.hasRulesVersion
    case ExternalDailyRequired => p.mode == Prop && p.externalDaily == None
    case ExternalDrawdownRequired => p.mode == Prop && p.externalDrawdown == None
    case _ => false
  }

  predicate LossBlocks(r: Reason, p: Policy, s: Snapshot) {
    match r
    case InvalidDailyBuffer => DailyLimit(p) == None
    case InvalidWeeklyBuffer => WeeklyLimit(p) == None
    case InvalidDrawdownBuffer => DrawdownLimit(p) == None
    case EquityUnavailable => !EquityKnown(s)
    case DailyLossReached =>
      EquityKnown(s) && DailyLimit(p).Some? && LossShare(s.dayStart, s.equity, s.dailyPnl) >= DailyLimit(p).value
    case WeeklyLossReached =>
      EquityKnown(s) && p.maxWeeklyLoss > 0.0 && s.weekStart > 0.0 && s.weeklyVerified
      && WeeklyLimit(p).Some? && LossShare(s.weekStart, s.equity, s.weeklyPnl) >= WeeklyLimit(p).value
    case DrawdownLimitReached =>
      EquityKnown(s) && DrawdownLimit(p).Some? && Fall(s.peak, s.equity) >= DrawdownLimit(p).value
    case _ => false
  }

  predicate MarketBlocks(r: Reason, p: Policy, s: Snapshot) {
    match r
    case RiskPerTrade => s.riskPct < 0.0 || s.riskPct > p.maxRiskPct
    case Leverage => s.leverage < 0.0 || s.leverage > p.maxLeverage
    case Spread => s.spread < 0.0 || s.spread > p.maxSpread
    case Slippage => s.slippage < 0.0 || s.slippage > p.maxSlippage
    case _ => false
  }

  predicate QualityBlocks(r: Reason, p: Policy, s: Snapshot) {
    match r
    case Confidence => s.confidence < p.minConfidence
    case RewardRisk => s.expectedRr < p.minExpectedRr
    case OpenPositionsReached => s.openPositions >= p.maxPositions
    case _ => false
  }

  predicate ScopeBlocks(r: Reason, p: Policy, s: Snapshot) {
    match r
    case InstrumentNotAllowed => Outside(p.instruments, s.symbol)
    case ClassNotAllowed => Outside(p.classes, s.assetClass)
    case StrategyNotAllowed => Outside(p.strategies, s.strategy)
    case OutsideWindow => !WindowsAllow(p.windows, s)
    case NewsBlocked => s.newsWindow && !p.newsAllowed
    case WeekendBlocked => s.weekendHold && !p.weekendAllowed
    case _ => false
  }

  predicate RuleBlocks(r: Reason, p: Policy, s: Snapshot, m: ExecutionMode) {
    match r
    case RuleConfigInvalid => p.mode == Prop && p.hardRules == None
    case RuleHit(id, finding) =>
      p.mode == Prop && p.hardRules.Some?
      && exists i :: 0 <= i < |p.hardRules.value| && p.hardRules.value[i].id == id
           && RuleFinds(p.hardRules.value[i], s, m) == Some(finding)
    case _ => false
  }

  predicate Blocks(r: Reason, p: Policy, s: Snapshot, m: ExecutionMode) {
    StatusBlocks(r, p, s, m) || ModeBlocks(r, p, s) || PropBlocks(r, p) || LossBlocks(r, p, s)
    || MarketBlocks(r, p, s) || QualityBlocks(r, p, s) || ScopeBlocks(r, p, s) || RuleBlocks(r, p, s, m)
  }

  ghost predicate Allowed(p: Policy, s: Snapshot, m: ExecutionMode) {
    forall r: Reason :: !Blocks(r, p, s, m)
  }

  // ---- Collecting the reasons ----

  function Noted(reasons: seq<Reason>, applies: bool, r: Reason): (out: seq<Reason>)
    ensures forall x :: x in out <==> x in reasons || (applies && x == r)
  {
    if applies then reasons + [r] else reasons
  }

  /** First occurrences only. */
  function Dedupe(s: seq<Reason>): (out: seq<Reason>)
    ensures forall x :: x in out <==> x in s
    ensures forall i, j :: 0 <= i < j < |out| ==> out[i] != out[j]
  {
    if s == [] then []
    else
      var before := Dedupe(s[..|s| - 1]);
      if s[|s| - 1] in before then before else before + [s[|s| - 1]]
  }

  datatype Decision = Decision(
    allowed: bool, reasons: seq<Reason>, daily: Option<real>, weekly: Option<real>, drawdown: Option<real>)

  /** Broker execution is kept from paper accounts, from unknown modes, and from permissions below the mode's. */
  predicate Forbidden(permission: Permission, m: ExecutionMode, mode: Mode) {
    || mode == Paper
    || m == OtherMode
    || (m == ManualConfirmed && (permission == ReadOnly || permission == SignalsOnly || permission == PaperOnly))
    || ((m == Auto || m == Live || m == CopyTrade) && permission != AutoExecution)
  }

  method StatusReasons(p: Policy, s: Snapshot, m: ExecutionMode) returns (reasons: seq<Reason>)
    ensures forall r :: r in reasons <==> StatusBlocks(r, p, s, m)
    ensures PermissionBlocked in reasons <==> Forbidden(p.permission, m, p.mode)
  {
    hide Noted;
    reasons := Noted([], !p.active, PolicyInactive);
    reasons := Noted(reasons, p.frozen, PolicyFrozen);
    reasons := Noted(reasons, !s.reconciled, ReconciliationUnready);
    var permitted := false;
    if p.mode != Paper && m != OtherMode {
      permitted := if m == ManualConfirmed then p.permission in {Manual, AssistedExecution, AutoExecution}
                   else p.permission == AutoExecution;
    }
    reasons := Noted(reasons, !permitted, PermissionBlocked);
  }

  method ModeReasons(p: Policy, s: Snapshot) returns (reasons: seq<Reason>)
    ensures forall r :: r in reasons <==> ModeBlocks(r, p, s)
  {
    hide Noted;
    reasons := [];
    if p.mode == Paper {
      reasons := Noted(reasons, true, PaperForbidden);
    } else if p.mode == Demo {
      reasons := Noted(reasons, s.isDemo != Some(true), DemoMismatch);
    } else {
      reasons := Noted(reasons, s.isDemo != Some(false), LiveMismatch);
      reasons := Noted(reasons, !s.baselinesVerified, LossBaselineUnavailable);
      reasons := Noted(reasons, p.maxWeeklyLoss > 0.0 && !s.weeklyVerified, WeeklyBaselineUnavailable);
    }
  }

  method PropReasons(p: Policy) returns (reasons: seq<Reason>)
    ensures forall r :: r in reasons <==> PropBlocks(r, p)
  {
    hide Noted;
    reasons := [];
    if p.mode == Prop {
      reasons := Noted(reasons, !p.certified, NotCertified);
      reasons := Noted(reasons, !p.hasFirm, FirmRequired);
      reasons := Noted(reasons, !p.hasRulesVersion, RulesVersionRequired);
      reasons := Noted(reasons, p.externalDaily == None, ExternalDailyRequired);
      reasons := Noted(reasons, p.externalDrawdown == None, ExternalDrawdownRequired);
    }
  }

  /** The checks of realised and open losses, once the account's equity is known. */
  method LimitReasons(p: Policy, s: Snapshot, earlier: seq<Reason>) returns (reasons: seq<Reason>)
    requires EquityKnown(s)
    ensures forall r :: r in reasons <==> r in earlier || (r in {DailyLossReached, WeeklyLossReached, DrawdownLimitReached} && LossBlocks(r, p, s))
  {
    hide LossShare, Fall, Noted, DailyLimit, WeeklyLimit, DrawdownLimit;
    var daily, weekly, drawdown := DailyLimit(p), WeeklyLimit(p), DrawdownLimit(p);
    var dailyLoss := LossShare(s.dayStart, s.equity, s.dailyPnl);
    reasons := Noted(earlier, daily.Some? && dailyLoss >= daily.value, DailyLossReached);
    if p.maxWeeklyLoss > 0.0 && s.weekStart > 0.0 && s.weeklyVerified {
      var weeklyLoss := LossShare(s.weekStart, s.equity, s.weeklyPnl);
      reasons := Noted(reasons, weekly.Some? && weeklyLoss >= weekly.value, WeeklyLossReached);
    }
    reasons := Noted(reasons, drawdown.Some? && Fall(s.peak, s.equity) >= drawdown.value, DrawdownLimitReached);
  }

  method LossReasons(p: Policy, s: Snapshot) returns (reasons: seq<Reason>)
    ensures forall r :: r in reasons <==> LossBlocks(r, p, s)
  {
    hide LossShare, Fall, Noted, DailyLimit, WeeklyLimit, DrawdownLimit;
    reasons := Noted([], DailyLimit(p) == None, InvalidDailyBuffer);
    reasons := Noted(reasons, WeeklyLimit(p) == None, InvalidWeeklyBuffer);
    reasons := Noted(reasons, DrawdownLimit(p) == None, InvalidDrawdownBuffer);
    if s.equity <= 0.0 || s.dayStart <= 0.0 || s.peak <= 0.0 {
      reasons := Noted(reasons, true, EquityUnavailable);
    } else {
      reasons := LimitReasons(p, s, reasons);
    }
  }

  method MarketReasons(p: Policy, s: Snapshot) returns (reasons: seq<Reason>)
    ensures forall r :: r in reasons <==> MarketBlocks(r, p, s)
  {
    hide Noted;
    reasons := Noted([], s.riskPct < 0.0 || s.riskPct > p.maxRiskPct, RiskPerTrade);
    reasons := Noted(reasons, s.leverage < 0.0 || s.leverage > p.maxLeverage, Leverage);
    reasons := Noted(reasons, s.spread < 0.0 || s.spread > p.maxSpread, Spread);
    reasons := Noted(reasons, s.slippage < 0.0 || s.slippage > p.maxSlippage, Slippage);
  }

  method QualityReasons(p: Policy, s: Snapshot) returns (reasons: seq<Reason>)
    ensures forall r :: r in reasons <==> QualityBlocks(r, p, s)
  {
    hide Noted;
    reasons := Noted([], s.confidence < p.minConfidence, Confidence);
    reasons := Noted(reasons, s.expectedRr < p.minExpectedRr, RewardRisk);
    reasons := Noted(reasons, s.openPositions >= p.maxPositions, OpenPositionsReached);
  }

  method ScopeReasons(p: Policy, s: Snapshot) returns (reasons: seq<Reason>)
    ensures forall r :: r in reasons <==> ScopeBlocks(r, p, s)
  {
    hide Outside, WindowsAllow, Noted;
    reasons := Noted([], Outside(p.instruments, s.symbol), InstrumentNotAllowed);
    reasons := Noted(reasons, Outside(p.classes, s.assetClass), ClassNotAllowed);
    reasons := Noted(reasons, Outside(p.strategies, s.strategy), StrategyNotAllowed);
    var open := TradingWindowAllows(p.windows, s);
    reasons := Noted(reasons, !open, OutsideWindow);
    reasons := Noted(reasons, s.newsWindow && !p.newsAllowed, NewsBlocked);
    reasons := Noted(reasons, s.weekendHold && !p.weekendAllowed, WeekendBlocked);
  }

  method TradingWindowAllows(windows: seq<Window>, s: Snapshot) returns (open: bool)
    ensures open <==> WindowsAllow(windows, s)
  {
    if windows == [] { return true; }
    for i := 0 to |windows|
      invariant forall j :: 0 <= j < i ==> !InWindow(windows[j], s)
    {
      var w := windows[i];
      if w.days.None? || s.weekday !in w.days.value { continue; }
      if w.start.None? || w.end.None? { continue; }
      var start, end := w.start.value, w.end.value;
      if start == end { return true; }
      if start < end && start <= s.second < end { return true; }
      if start > end && (s.second >= start || s.second < end) { return true; }
    }
    open := false;
  }

  method HardRuleReasons(p: Policy, s: Snapshot, m: ExecutionMode) returns (reasons: seq<Reason>)
    requires p.mode == Prop
    ensures forall r :: r in reasons <==> RuleBlocks(r, p, s, m)
  {
    reasons := [];
    if p.hardRules.None? { return [RuleConfigInvalid]; }
    var rules := p.hardRules.value;
    hide RuleFinds;
    for i := 0 to |rules|
      invariant forall r :: r in reasons <==>
                  r.RuleHit? && exists j :: 0 <= j < i && rules[j].id == r.id && RuleFinds(rules[j], s, m) == Some(r.finding)
    {
      var finding := RuleFinds(rules[i], s, m);
      if finding.Some? {
        reasons := Noted(reasons, true, RuleHit(rules[i].id, finding.value));
      }
    }
  }

  /** The decision lists exactly the reasons that apply, each once, and allows exactly when there is none. */
  method EvaluateAccountPolicy(p: Policy, s: Snapshot, m: ExecutionMode) returns (d: Decision)
    ensures d.allowed <==> Allowed(p, s, m)
    ensures d.allowed <==> d.reasons == []
    ensures forall r :: r in d.reasons <==> Blocks(r, p, s, m)
    ensures forall i, j :: 0 <= i < j < |d.reasons| ==> d.reasons[i] != d.reasons[j]
    ensures d.daily == DailyLimit(p) && d.weekly == WeeklyLimit(p) && d.drawdown == DrawdownLimit(p)
    ensures forall r :: r in d.reasons <==> Applies(r, p, s, m)
    ensures PermissionBlocked in d.reasons <==> Forbidden(p.permission, m, p.mode)
    ensures d.allowed && (m == Auto || m == Live || m == CopyTrade) ==> p.permission == AutoExecution && p.mode != Paper
    ensures IsLimit(d.daily, p.maxDailyLoss, p.mode == Prop, p.externalDaily, p.buffer)
    ensures IsLimit(d.weekly, p.maxWeeklyLoss, p.mode == Prop, p.externalWeekly, p.buffer)
    ensures IsLimit(d.drawdown, p.maxDrawdown, p.mode == Prop, p.externalDrawdown, p.buffer)
  {
    LimitsAre(p);
    hide IsLimit, Forbidden, Permits, Applies;
    PermissionBlockedExactly(p, s, m);
    forall r: Reason ensures Blocks(r, p, s, m) <==> Applies(r, p, s, m) { BlocksAsTabled(r, p, s, m); }
    ForbiddenWithoutAutoExecution(p.permission, m, p.mode);
    hide StatusBlocks, ModeBlocks, PropBlocks, LossBlocks, MarketBlocks, QualityBlocks, ScopeBlocks, RuleBlocks, DailyLimit, WeeklyLimit,
         DrawdownLimit, Dedupe;
    var status := StatusReasons(p, s, m);
    var mode := ModeReasons(p, s);
    var prop := PropReasons(p);
    var loss := LossReasons(p, s);
    var market := MarketReasons(p, s);
    var quality := QualityReasons(p, s);
    var scope := ScopeReasons(p, s);
    var rules := [];
    if p.mode == Prop { rules := HardRuleReasons(p, s, m); }
    forall r ensures r in rules <==> RuleBlocks(r, p, s, m) { NoRulesOutsideProp(r, p, s, m); }
    var all := status + mode + prop + loss + market + quality + scope + rules;
    assert forall r :: r in all <==> Blocks(r, p, s, m);
    hide Blocks;
    var reasons := Dedupe(all);
    d := Decision(reasons == [], reasons, DailyLimit(p), WeeklyLimit(p), DrawdownLimit(p));
    if reasons != [] { assert reasons[0] in reasons && Blocks(reasons[0], p, s, m); }
  }

  lemma NoRulesOutsideProp(r: Reason, p: Policy, s: Snapshot, m: ExecutionMode)
    ensures RuleBlocks(r, p, s, m) ==> p.mode == Prop
  {}

  // ---- What the reasons say ----

  lemma PermissionBlockedExactly(p: Policy, s: Snapshot, m: ExecutionMode)
    ensures Blocks(PermissionBlocked, p, s, m) <==> Forbidden(p.permission, m, p.mode)
  {}

  lemma ForbiddenWithoutAutoExecution(permission: Permission, m: ExecutionMode, mode: Mode)
    ensures (m == Auto || m == Live || m == CopyTrade) && (permission != AutoExecution || mode == Paper) ==> Forbidden(permission, m, mode)
  {}

  /** Nothing trades automatically without AUTO_EXECUTION, by hand without an execution permission, or on paper. */
  lemma AllowedNeedsPermission(p: Policy, s: Snapshot, m: ExecutionMode)
    requires Allowed(p, s, m)
    ensures p.mode != Paper && m != OtherMode
    ensures m == Auto || m == Live || m == CopyTrade ==> p.permission == AutoExecution
    ensures m == ManualConfirmed ==> p.permission == Manual || p.permission == AssistedExecution || p.permission == AutoExecution
  {
    assert !Blocks(PermissionBlocked, p, s, m);
  }

  /** The lower of the account's own limit and, for a PROP account, the firm's less the buffer. */
  predicate IsLimit(limit: Option<real>, internal: real, prop: bool, external: Option<real>, buffer: real) {
    if !prop || external.None? then limit == Some(internal)
    else if external.value <= buffer then limit == None
    else
      && limit.Some? && limit.value <= internal && limit.value <= external.value - buffer
      && (limit.value == internal || limit.value == external.value - buffer)
  }

  lemma LimitsAre(p: Policy)
    ensures IsLimit(DailyLimit(p), p.maxDailyLoss, p.mode == Prop, p.externalDaily, p.buffer)
    ensures IsLimit(WeeklyLimit(p), p.maxWeeklyLoss, p.mode == Prop, p.externalWeekly, p.buffer)
    ensures IsLimit(DrawdownLimit(p), p.maxDrawdown, p.mode == Prop, p.externalDrawdown, p.buffer)
  {}

  /** From start to now, or by results booked, at least this share of start was lost. */
  predicate Lost(start: real, now: real, pnl: real, share: real) {
    share <= 0.0 || start - now >= share * start || -pnl >= share * start
  }

  lemma AtLeastShare(part: real, whole: real, share: real)
    requires whole > 0.0
    ensures part / whole >= share <==> part >= share * whole
  {
    ShareTimes(part, whole);
    SameOrder(part / whole, share, whole);
  }

  lemma SameOrder(a: real, b: real, s: real)
    requires s > 0.0
    ensures a >= b <==> a * s >= b * s
  {}

  lemma LossShareReaches(start: real, now: real, pnl: real, share: real)
    requires start > 0.0
    ensures LossShare(start, now, pnl) >= share <==> Lost(start, now, pnl, share)
    ensures Fall(start, now) >= share <==> share <= 0.0 || start - now >= share * start
  {
    AtLeastShare(start - now, start, share);
    AtLeastShare(-pnl, start, share);
  }

  /** A PROP account whose firm's limit the buffer uses up. */
  predicate NothingLeft(p: Policy, external: Option<real>) { p.mode == Prop && external.Some? && external.value <= p.buffer }

  /** Lost as much as the account's own limit, or as the firm's less the buffer on a PROP account. */
  predicate LostTooMuch(p: Policy, internal: real, external: Option<real>, start: real, now: real, pnl: real) {
    Lost(start, now, pnl, internal) || (p.mode == Prop && external.Some? && Lost(start, now, pnl, external.value - p.buffer))
  }

  lemma NoPnlNoShare(start: real, now: real)
    requires start > 0.0
    ensures LossShare(start, now, 0.0) == Fall(start, now)
  {}

  lemma LimitReached(p: Policy, limit: Option<real>, internal: real, external: Option<real>, start: real, now: real, pnl: real)
    requires start > 0.0 && IsLimit(limit, internal, p.mode == Prop, external, p.buffer)
    ensures limit.Some? && LossShare(start, now, pnl) >= limit.value
            <==> !NothingLeft(p, external) && LostTooMuch(p, internal, external, start, now, pnl)
  {
    hide LossShare, Lost, Fall;
    LossShareReaches(start, now, pnl, internal);
    if external.Some? { LossShareReaches(start, now, pnl, external.value - p.buffer); }
  }

  /** The lists: an empty one allows everything, any other only what it names. */
  predicate NotNamed(allowed: set<string>, text: string) { |allowed| > 0 && (|text| == 0 || text !in allowed) }

  /** The window does not cover the moment, or a part of it cannot be read. */
  predicate Misses(w: Window, s: Snapshot) {
    || w.days.None? || w.start.None? || w.end.None? || s.weekday !in w.days.value
    || (w.start.value < w.end.value && !(w.start.value <= s.second < w.end.value))
    || (w.start.value > w.end.value && w.end.value <= s.second < w.start.value)
  }

  /** What each finding says about the rule that makes it. */
  predicate Found(r: HardRule, finding: RuleFinding, s: Snapshot, m: ExecutionMode) {
    match finding
    case BaselineUnavailable => r.TrailingDrawdown? && (s.peak <= 0.0 || s.equity <= 0.0)
    case DrawdownReached => r.TrailingDrawdown? && s.peak > 0.0 && s.equity > 0.0 && Lost(s.peak, s.equity, 0.0, r.value)
    case SizeUnavailable => r.MaxOrderSize? && s.orderSize <= 0.0
    case UnitUnverifiable => r.MaxOrderSize? && s.orderSize > 0.0 && s.sizeUnit != r.unit
    case OrderTooLarge => r.MaxOrderSize? && s.orderSize > 0.0 && s.sizeUnit == r.unit && s.orderSize > r.value
    case NotionalUnavailable => r.MaxNotional? && s.leverage < 0.0
    case NotionalTooLarge => r.MaxNotional? && s.leverage >= 0.0 && s.leverage > r.value
    case ModeForbidden => r.ForbidModes? && m in r.modes
    case InstrumentForbidden => r.RestrictedInstruments? && |s.symbol| > 0 && s.symbol in r.values
    case ClassForbidden => r.RestrictedClasses? && |s.assetClass| > 0 && s.assetClass in r.values
    case TooManyPositions => r.MaxPositions? && s.openPositions >= r.count
  }

  lemma RuleFindsExactly(r: HardRule, finding: RuleFinding, s: Snapshot, m: ExecutionMode)
    ensures RuleFinds(r, s, m) == Some(finding) <==> Found(r, finding, s, m)
  {
    if r.TrailingDrawdown? && s.peak > 0.0 {
      LossShareReaches(s.peak, s.equity, 0.0, r.value);
      NoPnlNoShare(s.peak, s.equity);
    }
    hide Fall, Lost, LossShare;
  }

  /** One flat table: the fields behind every reason. */
  predicate Applies(r: Reason, p: Policy, s: Snapshot, m: ExecutionMode) {
    var live, prop, known := p.mode == LivePersonal || p.mode == Prop, p.mode == Prop, s.equity > 0.0 && s.dayStart > 0.0 && s.peak > 0.0;
    match r
    case PolicyInactive => !p.active
    case PolicyFrozen => p.frozen
    case ReconciliationUnready => !s.reconciled
    case PermissionBlocked => Forbidden(p.permission, m, p.mode)
    case PaperForbidden => p.mode == Paper
    case DemoMismatch => p.mode == Demo && (s.isDemo.None? || !s.isDemo.value)
    case LiveMismatch => live && (s.isDemo.None? || s.isDemo.value)
    case LossBaselineUnavailable => live && !s.baselinesVerified
    case WeeklyBaselineUnavailable => live && p.maxWeeklyLoss > 0.0 && !s.weeklyVerified
    case NotCertified => prop && !p.certified
    case FirmRequired => prop && !p.hasFirm
    case RulesVersionRequired => prop && !p.hasRulesVersion
    case ExternalDailyRequired => prop && p.externalDaily.None?
    case ExternalDrawdownRequired => prop && p.externalDrawdown.None?
    case InvalidDailyBuffer => NothingLeft(p, p.externalDaily)
    case InvalidWeeklyBuffer => NothingLeft(p, p.externalWeekly)
    case InvalidDrawdownBuffer => NothingLeft(p, p.externalDrawdown)
    case EquityUnavailable => !known
    case DailyLossReached =>
      known && !NothingLeft(p, p.externalDaily) && LostTooMuch(p, p.maxDailyLoss, p.externalDaily, s.dayStart, s.equity, s.dailyPnl)
    case WeeklyLossReached =>
      known && p.maxWeeklyLoss > 0.0 && s.weekStart > 0.0 && s.weeklyVerified
      && !NothingLeft(p, p.externalWeekly) && LostTooMuch(p, p.maxWeeklyLoss, p.externalWeekly, s.weekStart, s.equity, s.weeklyPnl)
    case DrawdownLimitReached =>
      known && !NothingLeft(p, p.externalDrawdown) && LostTooMuch(p, p.maxDrawdown, p.externalDrawdown, s.peak, s.equity, 0.0)
    case RiskPerTrade => !(0.0 <= s.riskPct <= p.maxRiskPct)
    case Leverage => !(0.0 <= s.leverage <= p.maxLeverage)
    case Spread => !(0.0 <= s.spread <= p.maxSpread)
    case Slippage => !(0.0 <= s.slippage <= p.maxSlippage)
    case Confidence => s.confidence < p.minConfidence
    case RewardRisk => s.expectedRr < p.minExpectedRr
    case OpenPositionsReached => p.maxPositions <= s.openPositions
    case InstrumentNotAllowed => NotNamed(p.instruments, s.symbol)
    case ClassNotAllowed => NotNamed(p.classes, s.assetClass)
    case StrategyNotAllowed => NotNamed(p.strategies, s.strategy)
    case OutsideWindow => |p.windows| > 0 && forall i :: 0 <= i < |p.windows| ==> Misses(p.windows[i], s)
    case NewsBlocked => s.newsWindow && !p.newsAllowed
    case WeekendBlocked => s.weekendHold && !p.weekendAllowed
    case RuleConfigInvalid => prop && p.hardRules.None?
    case RuleHit(id, finding) =>
      prop && p.hardRules.Some?
      && exists i :: 0 <= i < |p.hardRules.value| && p.hardRules.value[i].id == id && Found(p.hardRules.value[i], finding, s, m)
  }

  predicate StatusReason(r: Reason) { r.PolicyInactive? || r.PolicyFrozen? || r.ReconciliationUnready? || r.PermissionBlocked? }

  predicate AccountReason(r: Reason) {
    || r.PaperForbidden? || r.DemoMismatch? || r.LiveMismatch? || r.LossBaselineUnavailable? || r.WeeklyBaselineUnavailable?
    || r.NotCertified? || r.FirmRequired? || r.RulesVersionRequired? || r.ExternalDailyRequired? || r.ExternalDrawdownRequired?
  }

  predicate LossReason(r: Reason) {
    || r.InvalidDailyBuffer? || r.InvalidWeeklyBuffer? || r.InvalidDrawdownBuffer? || r.EquityUnavailable?
    || r.DailyLossReached? || r.WeeklyLossReached? || r.DrawdownLimitReached?
  }

  predicate OrderReason(r: Reason) {
    || r.RiskPerTrade? || r.Leverage? || r.Spread? || r.Slippage? || r.Confidence? || r.RewardRisk? || r.OpenPositionsReached?
  }

  lemma StatusAsTabled(r: Reason, p: Policy, s: Snapshot, m: ExecutionMode)
    requires StatusReason(r)
    ensures Blocks(r, p, s, m) <==> Applies(r, p, s, m)
  {}

  lemma AccountAsTabled(r: Reason, p: Policy, s: Snapshot, m: ExecutionMode)
    requires AccountReason(r)
    ensures Blocks(r, p, s, m) <==> Applies(r, p, s, m)
  {
    hide StatusBlocks, LossBlocks, MarketBlocks, QualityBlocks, ScopeBlocks, RuleBlocks;
    OnlyTheAccount(r, p, s, m);
  }

  lemma OnlyTheAccount(r: Reason, p: Policy, s: Snapshot, m: ExecutionMode)
    requires AccountReason(r)
    ensures !StatusBlocks(r, p, s, m) && !LossBlocks(r, p, s) && !MarketBlocks(r, p, s) && !QualityBlocks(r, p, s)
    ensures !ScopeBlocks(r, p, s) && !RuleBlocks(r, p, s, m)
  {}

  lemma OnlyTheOrder(r: Reason, p: Policy, s: Snapshot, m: ExecutionMode)
    requires OrderReason(r)
    ensures !StatusBlocks(r, p, s, m) && !LossBlocks(r, p, s) && !ModeBlocks(r, p, s) && !PropBlocks(r, p)
    ensures !ScopeBlocks(r, p, s) && !RuleBlocks(r, p, s, m)
  {}

  lemma OrderAsTabled(r: Reason, p: Policy, s: Snapshot, m: ExecutionMode)
    requires OrderReason(r)
    ensures Blocks(r, p, s, m) <==> Applies(r, p, s, m)
  {
    hide StatusBlocks, LossBlocks, ModeBlocks, PropBlocks, ScopeBlocks, RuleBlocks;
    OnlyTheOrder(r, p, s, m);
  }

  /** A loss blocks from either limit on, once the equity is known. */
  lemma LossesAsTabled(r: Reason, p: Policy, s: Snapshot, m: ExecutionMode)
    requires LossReason(r)
    ensures Blocks(r, p, s, m) <==> Applies(r, p, s, m)
  {
    hide Blocks, LossShare, Fall, Lost, DailyLimit, WeeklyLimit, DrawdownLimit, IsLimit, LostTooMuch, NothingLeft;
    OnlyALoss(r, p, s, m);
    NothingLeftIs(p);
    LimitsFacts(p, s);
  }

  /** What reaching each of the three limits means. */
  lemma LimitsFacts(p: Policy, s: Snapshot)
    ensures s.dayStart > 0.0 ==>
              (DailyLimit(p).Some? && LossShare(s.dayStart, s.equity, s.dailyPnl) >= DailyLimit(p).value
               <==> !NothingLeft(p, p.externalDaily) && LostTooMuch(p, p.maxDailyLoss, p.externalDaily, s.dayStart, s.equity, s.dailyPnl))
    ensures s.weekStart > 0.0 ==>
              (WeeklyLimit(p).Some? && LossShare(s.weekStart, s.equity, s.weeklyPnl) >= WeeklyLimit(p).value
               <==> !NothingLeft(p, p.externalWeekly) && LostTooMuch(p, p.maxWeeklyLoss, p.externalWeekly, s.weekStart, s.equity, s.weeklyPnl))
    ensures s.peak > 0.0 ==>
              (DrawdownLimit(p).Some? && Fall(s.peak, s.equity) >= DrawdownLimit(p).value
               <==> !NothingLeft(p, p.externalDrawdown) && LostTooMuch(p, p.maxDrawdown, p.externalDrawdown, s.peak, s.equity, 0.0))
  {
    hide LossShare, Fall, Lost, DailyLimit, WeeklyLimit, DrawdownLimit, IsLimit, LostTooMuch, NothingLeft;
    LimitsAre(p);
    if s.dayStart > 0.0 { LimitReached(p, DailyLimit(p), p.maxDailyLoss, p.externalDaily, s.dayStart, s.equity, s.dailyPnl); }
    if s.weekStart > 0.0 { LimitReached(p, WeeklyLimit(p), p.maxWeeklyLoss, p.externalWeekly, s.weekStart, s.equity, s.weeklyPnl); }
    if s.peak > 0.0 {
      LimitReached(p, DrawdownLimit(p), p.maxDrawdown, p.externalDrawdown, s.peak, s.equity, 0.0);
      NoPnlNoShare(s.peak, s.equity);
    }
  }

  lemma OnlyALoss(r: Reason, p: Policy, s: Snapshot, m: ExecutionMode)
    requires LossReason(r)
    ensures Blocks(r, p, s, m) <==> LossBlocks(r, p, s)
  {
    hide LossBlocks, Permits, Outside, WindowsAllow, RuleFinds;
  }

  lemma NothingLeftIs(p: Policy)
    ensures DailyLimit(p) == None <==> NothingLeft(p, p.externalDaily)
    ensures WeeklyLimit(p) == None <==> NothingLeft(p, p.externalWeekly)
    ensures DrawdownLimit(p) == None <==> NothingLeft(p, p.externalDrawdown)
  {}

  lemma ScopeAsTabled(r: Reason, p: Policy, s: Snapshot, m: ExecutionMode)
    requires !StatusReason(r) && !AccountReason(r) && !LossReason(r) && !OrderReason(r)
    ensures Blocks(r, p, s, m) <==> Applies(r, p, s, m)
  {
    hide Permits, DailyLimit, WeeklyLimit, DrawdownLimit, LossShare, Fall, RuleFinds, Found, InWindow, Misses;
    forall w: Window ensures InWindow(w, s) <==> !Misses(w, s) { CoversOrMisses(w, s); }
    forall rule: HardRule, f: RuleFinding ensures RuleFinds(rule, s, m) == Some(f) <==> Found(rule, f, s, m) { RuleFindsExactly(rule, f, s, m); }
  }

  lemma CoversOrMisses(w: Window, s: Snapshot)
    ensures InWindow(w, s) <==> !Misses(w, s)
  {}

  /** Every reason blocks exactly under the condition the table gives it. */
  lemma BlocksAsTabled(r: Reason, p: Policy, s: Snapshot, m: ExecutionMode)
    ensures Blocks(r, p, s, m) <==> Applies(r, p, s, m)
  {
    hide Blocks, Applies;
    if StatusReason(r) {
      StatusAsTabled(r, p, s, m);
    } else if AccountReason(r) {
      AccountAsTabled(r, p, s, m);
    } else if LossReason(r) {
      LossesAsTabled(r, p, s, m);
    } else if OrderReason(r) {
      OrderAsTabled(r, p, s, m);
    } else {
      ScopeAsTabled(r, p, s, m);
    }
  }
}
