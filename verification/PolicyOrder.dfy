/** Making a policy stricter, or the account's situation worse, never turns a refusal into an admission. */
module PolicyOrder {
  import opened Wrappers
  import opened RealMath
  import opened AccountPolicy

  // ---- What "at least as strict" means ----

  /** A firm's limit that b must respect binds a at least as much; a may have one where b has none. */
  predicate ExternalStricter(a: Option<real>, b: Option<real>) {
    b.Some? ==> a.Some? && a.value <= b.value
  }

  /** The same where a missing limit is itself a block: then a may lack what b has. */
  predicate RequiredStricter(a: Option<real>, b: Option<real>) {
    a.Some? ==> b.Some? && a.value <= b.value
  }

  /** A weekly limit of zero switches the weekly check off; otherwise lower is stricter. */
  predicate WeeklyStricter(a: real, b: real) { b <= 0.0 || 0.0 < a <= b }

  /** An empty list allows everything. */
  predicate Narrower(a: set<string>, b: set<string>) { b == {} || (a != {} && a <= b) }

  /** Window a lies inside window b; a window that cannot be read is never open. */
  ghost predicate Inside(a: Window, b: Window) {
    a.days.Some? && a.start.Some? && a.end.Some? ==>
      && b.days.Some? && b.start.Some? && b.end.Some? && a.days.value <= b.days.value
      && forall second: int :: Covers(a.start.value, a.end.value, second) ==> Covers(b.start.value, b.end.value, second)
  }

  ghost predicate InsideOne(w: Window, ws: seq<Window>) { exists j :: 0 <= j < |ws| && Inside(w, ws[j]) }

  ghost predicate WindowsNarrower(a: seq<Window>, b: seq<Window>) {
    b == [] || (a != [] && forall i :: 0 <= i < |a| ==> InsideOne(a[i], b))
  }

  /** Of two rules of one kind, the one that leaves less room. */
  predicate RuleStricter(a: HardRule, b: HardRule) {
    match (a, b)
    case (TrailingDrawdown(_, x), TrailingDrawdown(_, y)) => x <= y
    case (MaxOrderSize(_, x, u), MaxOrderSize(_, y, v)) => x <= y && u == v
    case (MaxNotional(_, x), MaxNotional(_, y)) => x <= y
    case (ForbidModes(_, x), ForbidModes(_, y)) => y <= x
    case (RestrictedInstruments(_, x), RestrictedInstruments(_, y)) => y <= x
    case (RestrictedClasses(_, x), RestrictedClasses(_, y)) => y <= x
    case (MaxPositions(_, x), MaxPositions(_, y)) => x <= y
    case _ => false
  }

  predicate Matched(rules: seq<HardRule>, r: HardRule) { exists i :: 0 <= i < |rules| && RuleStricter(rules[i], r) }

  /** Every rule of b has a rule in a that is at least as strict. */
  predicate RulesStricter(a: Option<seq<HardRule>>, b: Option<seq<HardRule>>) {
    a.Some? ==> b.Some? && forall j :: 0 <= j < |b.value| ==> Matched(a.value, b.value[j])
  }

  predicate SwitchesStricter(a: Policy, b: Policy) {
    && a.mode == b.mode && PermissionRank(a.permission) <= PermissionRank(b.permission)
    && (a.active ==> b.active) && (b.frozen ==> a.frozen)
    && (a.newsAllowed ==> b.newsAllowed) && (a.weekendAllowed ==> b.weekendAllowed)
  }

  predicate LimitsStricter(a: Policy, b: Policy) {
    && a.maxRiskPct <= b.maxRiskPct && a.maxLeverage <= b.maxLeverage
    && a.maxSpread <= b.maxSpread && a.maxSlippage <= b.maxSlippage
    && a.minConfidence >= b.minConfidence && a.minExpectedRr >= b.minExpectedRr && a.maxPositions <= b.maxPositions
  }

  /** What the firm asks for; it only matters for PROP accounts. */
  predicate FirmStricter(a: Policy, b: Policy) {
    && (a.certified ==> b.certified) && (a.hasFirm ==> b.hasFirm) && (a.hasRulesVersion ==> b.hasRulesVersion)
    && a.buffer >= b.buffer
    && RequiredStricter(a.externalDaily, b.externalDaily)
    && ExternalStricter(a.externalWeekly, b.externalWeekly)
    && RequiredStricter(a.externalDrawdown, b.externalDrawdown)
  }

  predicate LossLimitsStricter(a: Policy, b: Policy) {
    && a.maxDailyLoss <= b.maxDailyLoss && WeeklyStricter(a.maxWeeklyLoss, b.maxWeeklyLoss) && a.maxDrawdown <= b.maxDrawdown
    && (a.mode == Prop ==> FirmStricter(a, b))
  }

  ghost predicate ScopeStricter(a: Policy, b: Policy) {
    && Narrower(a.instruments, b.instruments) && Narrower(a.classes, b.classes) && Narrower(a.strategies, b.strategies)
    && WindowsNarrower(a.windows, b.windows)
  }

  ghost predicate AtLeastAsStrict(a: Policy, b: Policy) {
    SwitchesStricter(a, b) && LimitsStricter(a, b) && LossLimitsStricter(a, b) && ScopeStricter(a, b)
    && (a.mode == Prop ==> RulesStricter(a.hardRules, b.hardRules))
  }

  // ---- Stricter policies block at least as much ----

  lemma SwitchesBlock(a: Policy, b: Policy, s: Snapshot, m: ExecutionMode, r: Reason)
    requires SwitchesStricter(a, b)
    ensures StatusBlocks(r, b, s, m) ==> StatusBlocks(r, a, s, m)
  {}

  lemma ModesBlock(a: Policy, b: Policy, s: Snapshot, r: Reason)
    requires SwitchesStricter(a, b) && LossLimitsStricter(a, b)
    ensures ModeBlocks(r, b, s) ==> ModeBlocks(r, a, s)
    ensures PropBlocks(r, b) ==> PropBlocks(r, a)
  {}

  lemma LimitsBlock(a: Policy, b: Policy, s: Snapshot, r: Reason)
    requires LimitsStricter(a, b)
    ensures MarketBlocks(r, b, s) ==> MarketBlocks(r, a, s)
    ensures QualityBlocks(r, b, s) ==> QualityBlocks(r, a, s)
  {}

  lemma EffectiveLimitStricter(internal: real, external: Option<real>, buffer: real,
                               internal': real, external': Option<real>, buffer': real)
    requires internal <= internal' && ExternalStricter(external, external') && buffer >= buffer'
    ensures var x, y := EffectiveLimit(internal, external, buffer), EffectiveLimit(internal', external', buffer');
            (y == None ==> x == None) && (x.Some? ==> x.value <= y.value)
  {}

  /** What the two policies' loss checks compare with. */
  lemma LossLimitsInOrder(a: Policy, b: Policy)
    requires a.mode == b.mode && LossLimitsStricter(a, b)
    requires a.mode == Prop ==> a.externalDaily.Some? && a.externalDrawdown.Some?
    ensures (DailyLimit(b) == None ==> DailyLimit(a) == None) && (DailyLimit(a).Some? ==> DailyLimit(a).value <= DailyLimit(b).value)
    ensures (WeeklyLimit(b) == None ==> WeeklyLimit(a) == None)
            && (WeeklyLimit(a).Some? && b.maxWeeklyLoss > 0.0 ==> WeeklyLimit(a).value <= WeeklyLimit(b).value)
    ensures (DrawdownLimit(b) == None ==> DrawdownLimit(a) == None)
            && (DrawdownLimit(a).Some? ==> DrawdownLimit(a).value <= DrawdownLimit(b).value)
  {}

  /** The program's answer to a limit the stricter policy cannot form is a reason of its own. */
  lemma LossesBlock(a: Policy, b: Policy, s: Snapshot, r: Reason)
    requires a.mode == b.mode && LossLimitsStricter(a, b) && LossBlocks(r, b, s)
    requires a.mode == Prop ==> a.externalDaily.Some? && a.externalDrawdown.Some?
    ensures LossBlocks(r, a, s) || LossBlocks(InvalidDailyBuffer, a, s) || LossBlocks(InvalidWeeklyBuffer, a, s)
            || LossBlocks(InvalidDrawdownBuffer, a, s)
  {
    hide LossShare, Fall, DailyLimit, WeeklyLimit, DrawdownLimit;
    LossLimitsInOrder(a, b);
  }

  lemma WindowsBlock(a: seq<Window>, b: seq<Window>, s: Snapshot)
    requires WindowsNarrower(a, b)
    ensures WindowsAllow(a, s) ==> WindowsAllow(b, s)
  {}

  lemma ScopeBlock(a: Policy, b: Policy, s: Snapshot, r: Reason)
    requires SwitchesStricter(a, b) && ScopeStricter(a, b)
    ensures ScopeBlocks(r, b, s) ==> ScopeBlocks(r, a, s)
  {}

  lemma StricterRuleFinds(a: HardRule, b: HardRule, s: Snapshot, m: ExecutionMode)
    requires RuleStricter(a, b) && RuleFinds(b, s, m).Some?
    ensures RuleFinds(a, s, m) == RuleFinds(b, s, m)
  {}

  lemma RulesBlock(a: Policy, b: Policy, s: Snapshot, m: ExecutionMode, r: Reason)
    requires a.mode == b.mode && (a.mode == Prop ==> RulesStricter(a.hardRules, b.hardRules)) && RuleBlocks(r, b, s, m)
    ensures exists x :: RuleBlocks(x, a, s, m)
  {
    hide RuleFinds, RuleStricter;
    if a.hardRules == None {
      assert RuleBlocks(RuleConfigInvalid, a, s, m);
    } else {
      var j :| 0 <= j < |b.hardRules.value| && RuleFinds(b.hardRules.value[j], s, m) == Some(r.finding);
      var i :| 0 <= i < |a.hardRules.value| && RuleStricter(a.hardRules.value[i], b.hardRules.value[j]);
      StricterRuleFinds(a.hardRules.value[i], b.hardRules.value[j], s, m);
      assert RuleBlocks(RuleHit(a.hardRules.value[i].id, r.finding), a, s, m);
    }
  }

  /** Tightening is monotone: what the stricter policy allows, the laxer one allows too. */
  lemma TighteningNeverAdmitsMore(a: Policy, b: Policy, s: Snapshot, m: ExecutionMode)
    requires AtLeastAsStrict(a, b) && Allowed(a, s, m)
    ensures Allowed(b, s, m)
  {
    AllowedMeansNoRuleHit(a, s, m);
    forall r ensures !Blocks(r, b, s, m) {
      hide StatusBlocks, ModeBlocks, PropBlocks, LossBlocks, MarketBlocks, QualityBlocks, ScopeBlocks, RuleBlocks,
           SwitchesStricter, LimitsStricter, LossLimitsStricter, ScopeStricter, RulesStricter;
      SameMode(a, b);
      SwitchesBlock(a, b, s, m, r);
      ModesBlock(a, b, s, r);
      LimitsBlock(a, b, s, r);
      ScopeBlock(a, b, s, r);
      assert !Blocks(r, a, s, m) && !Blocks(InvalidDailyBuffer, a, s, m);
      assert !Blocks(InvalidWeeklyBuffer, a, s, m) && !Blocks(InvalidDrawdownBuffer, a, s, m);
      assert !Blocks(ExternalDailyRequired, a, s, m) && !Blocks(ExternalDrawdownRequired, a, s, m);
      if LossBlocks(r, b, s) {
        FirmLimitsGiven(a);
        LossesBlock(a, b, s, r);
      }
      if RuleBlocks(r, b, s, m) {
        RulesBlock(a, b, s, m, r);
      }
    }
  }

  lemma AllowedMeansNoRuleHit(p: Policy, s: Snapshot, m: ExecutionMode)
    requires Allowed(p, s, m)
    ensures forall x :: !RuleBlocks(x, p, s, m)
  {
    hide StatusBlocks, ModeBlocks, PropBlocks, LossBlocks, MarketBlocks, QualityBlocks, ScopeBlocks, RuleBlocks;
    forall x ensures !RuleBlocks(x, p, s, m) { assert !Blocks(x, p, s, m); }
  }

  lemma FirmLimitsGiven(p: Policy)
    requires !PropBlocks(ExternalDailyRequired, p) && !PropBlocks(ExternalDrawdownRequired, p)
    ensures p.mode == Prop ==> p.externalDaily.Some? && p.externalDrawdown.Some?
  {}

  lemma SameMode(a: Policy, b: Policy)
    requires SwitchesStricter(a, b)
    ensures a.mode == b.mode
  {}

  // ---- A worse situation ----

  /** t is s with less equity, more open positions, worse realised results, less confidence or reward. */
  predicate Worse(s: Snapshot, t: Snapshot) {
    && t == s.(equity := t.equity, openPositions := t.openPositions, dailyPnl := t.dailyPnl, weeklyPnl := t.weeklyPnl,
               confidence := t.confidence, expectedRr := t.expectedRr)
    && t.equity <= s.equity && t.openPositions >= s.openPositions
    && t.dailyPnl <= s.dailyPnl && t.weeklyPnl <= s.weeklyPnl
    && t.confidence <= s.confidence && t.expectedRr <= s.expectedRr
  }

  lemma FallGrows(start: real, now: real, now': real)
    requires start > 0.0 && now' <= now
    ensures Fall(start, now') >= Fall(start, now)
  {}

  lemma LossShareGrows(start: real, now: real, pnl: real, now': real, pnl': real)
    requires start > 0.0 && now' <= now && pnl' <= pnl
    ensures LossShare(start, now', pnl') >= LossShare(start, now, pnl)
  {
    FallGrows(start, now, now');
    QuotientOrder(-pnl, -pnl', start);
  }

  lemma WorseLossesBlock(p: Policy, s: Snapshot, t: Snapshot, r: Reason)
    requires Worse(s, t) && LossBlocks(r, p, s)
    ensures LossBlocks(r, p, t) || LossBlocks(EquityUnavailable, p, t)
  {
    if EquityKnown(t) {
      LossShareGrows(s.dayStart, s.equity, s.dailyPnl, t.equity, t.dailyPnl);
      if s.weekStart > 0.0 { LossShareGrows(s.weekStart, s.equity, s.weeklyPnl, t.equity, t.weeklyPnl); }
      FallGrows(s.peak, s.equity, t.equity);
    }
    hide LossShare, Fall, EffectiveLimit, DailyLimit, WeeklyLimit, DrawdownLimit;
  }

  lemma WorseRuleFinds(rule: HardRule, s: Snapshot, t: Snapshot, m: ExecutionMode)
    requires Worse(s, t) && RuleFinds(rule, s, m).Some?
    ensures RuleFinds(rule, t, m).Some?
  {
    if rule.TrailingDrawdown? && s.peak > 0.0 { FallGrows(s.peak, s.equity, t.equity); }
  }

  lemma WorseRulesBlock(p: Policy, s: Snapshot, t: Snapshot, m: ExecutionMode, r: Reason)
    requires Worse(s, t) && RuleBlocks(r, p, s, m)
    ensures exists x :: RuleBlocks(x, p, t, m)
  {
    hide RuleFinds, Worse;
    if p.hardRules == None {
      assert RuleBlocks(RuleConfigInvalid, p, t, m);
    } else {
      var i :| 0 <= i < |p.hardRules.value| && p.hardRules.value[i].id == r.id && RuleFinds(p.hardRules.value[i], s, m) == Some(r.finding);
      WorseRuleFinds(p.hardRules.value[i], s, t, m);
      assert RuleBlocks(RuleHit(p.hardRules.value[i].id, RuleFinds(p.hardRules.value[i], t, m).value), p, t, m);
    }
  }

  lemma AccessReasonsStay(p: Policy, s: Snapshot, t: Snapshot, m: ExecutionMode, r: Reason)
    requires Worse(s, t)
    ensures StatusBlocks(r, p, s, m) ==> StatusBlocks(r, p, t, m)
    ensures ModeBlocks(r, p, s) ==> ModeBlocks(r, p, t)
  {}

  lemma TradeReasonsStay(p: Policy, s: Snapshot, t: Snapshot, r: Reason)
    requires Worse(s, t)
    ensures MarketBlocks(r, p, s) ==> MarketBlocks(r, p, t)
    ensures QualityBlocks(r, p, s) ==> QualityBlocks(r, p, t)
  {}

  lemma ScopeReasonsStay(p: Policy, s: Snapshot, t: Snapshot, r: Reason)
    requires Worse(s, t)
    ensures ScopeBlocks(r, p, s) ==> ScopeBlocks(r, p, t)
  {}

  /** Losing equity, results or quality, or holding more positions, never turns a refusal into an admission. */
  lemma WorseIsNeverAdmitted(p: Policy, s: Snapshot, t: Snapshot, m: ExecutionMode)
    requires Worse(s, t) && Allowed(p, t, m)
    ensures Allowed(p, s, m)
  {
    AllowedMeansNoRuleHit(p, t, m);
    forall r ensures !Blocks(r, p, s, m) {
      hide StatusBlocks, ModeBlocks, PropBlocks, LossBlocks, MarketBlocks, QualityBlocks, ScopeBlocks, RuleBlocks, Worse;
      AccessReasonsStay(p, s, t, m, r);
      TradeReasonsStay(p, s, t, r);
      ScopeReasonsStay(p, s, t, r);
      assert !Blocks(r, p, t, m) && !Blocks(EquityUnavailable, p, t, m);
      if LossBlocks(r, p, s) { WorseLossesBlock(p, s, t, r); }
      if RuleBlocks(r, p, s, m) {
        WorseRulesBlock(p, s, t, m, r);
      }
    }
  }

  // ---- Exactly when a change of the weekly limit is a tightening ----

  /** What the policy's constructor checks of its numbers and rules. */
  predicate PolicyOk(p: Policy) {
    && 0.0 <= p.maxRiskPct <= 1.0 && 0.0 <= p.maxDailyLoss <= 1.0 && 0.0 <= p.maxWeeklyLoss <= 1.0 && 0.0 <= p.maxDrawdown <= 1.0
    && 0.0 <= p.buffer <= 1.0 && 0.0 <= p.minConfidence <= 1.0 && p.maxPositions >= 0
    && p.maxLeverage >= 0.0 && p.maxSpread >= 0.0 && p.maxSlippage >= 0.0 && p.minExpectedRr >= 0.0
    && ExternalOk(p.externalDaily) && ExternalOk(p.externalWeekly) && ExternalOk(p.externalDrawdown)
    && (p.mode == Prop ==> p.hardRules.Some?)
  }

  predicate ExternalOk(limit: Option<real>) { limit.Some? ==> 0.0 < limit.value <= 1.0 }

  function WithWeekly(p: Policy, limit: real): Policy { p.(maxWeeklyLoss := limit) }

  /** Putting the weekly limit `lo` in place of `hi` never admits what `hi` refuses. */
  ghost predicate WeeklyTightens(lo: real, hi: real) {
    forall p: Policy, s: Snapshot, m: ExecutionMode {:trigger Allowed(WithWeekly(p, lo), s, m)} ::
      PolicyOk(p) && Allowed(WithWeekly(p, lo), s, m) ==> Allowed(WithWeekly(p, hi), s, m)
  }

  lemma SameScope(p: Policy, lo: real, hi: real)
    ensures ScopeStricter(WithWeekly(p, lo), WithWeekly(p, hi))
  {
    forall i | 0 <= i < |p.windows| ensures InsideOne(p.windows[i], p.windows) {
      assert Inside(p.windows[i], p.windows[i]);
    }
  }

  lemma SameRules(rules: Option<seq<HardRule>>)
    ensures RulesStricter(rules, rules)
  {
    if rules.Some? {
      forall j | 0 <= j < |rules.value| ensures Matched(rules.value, rules.value[j]) {
        assert RuleStricter(rules.value[j], rules.value[j]);
      }
    }
  }

  lemma SameButWeekly(p: Policy, lo: real, hi: real)
    requires WeeklyStricter(lo, hi)
    ensures AtLeastAsStrict(WithWeekly(p, lo), WithWeekly(p, hi))
  {
    hide ScopeStricter, RulesStricter;
    SameScope(p, lo, hi);
    SameRules(p.hardRules);
  }

  function PlainPolicy(weekly: real): Policy {
    Policy(LivePersonal, AutoExecution, true, false, 1.0, 1.0, weekly, 1.0, 1, 1.0, 1.0, 1.0, 0.0, 0.0,
           0.0, None, None, None, {}, {}, {}, [], true, true, false, false, false, Some([]))
  }

  /** An account at its peak that has realised a weekly loss of this share. */
  function AfterWeeklyLoss(loss: real): Snapshot {
    Snapshot(1.0, 1.0, 1.0, 0.0, 1.0, -loss, 0, 0.0, 0.0, 0.0, 0.0, 0.0, 0.0, 0.0, "", "", "", "",
             false, false, Some(false), true, true, true, 0, 0)
  }

  lemma PlainLossShares(loss: real)
    requires loss >= 0.0
    ensures LossShare(1.0, 1.0, -loss) == loss && LossShare(1.0, 1.0, 0.0) == 0.0 && Fall(1.0, 1.0) == 0.0
  {
    assert loss / 1.0 == loss;
  }

  /** On the plain policy only the weekly loss can block. */
  lemma PlainBlocks(weekly: real, loss: real, r: Reason)
    requires loss >= 0.0
    ensures Blocks(r, PlainPolicy(weekly), AfterWeeklyLoss(loss), Auto) <==> r == WeeklyLossReached && weekly > 0.0 && loss >= weekly
  {
    hide LossShare, Fall;
    var p, s := PlainPolicy(weekly), AfterWeeklyLoss(loss);
    PlainLossShares(loss);
    assert !StatusBlocks(r, p, s, Auto) && !ModeBlocks(r, p, s) && !PropBlocks(r, p);
    assert !MarketBlocks(r, p, s) && !QualityBlocks(r, p, s) && !ScopeBlocks(r, p, s) && !RuleBlocks(r, p, s, Auto);
  }

  lemma PlainAllowed(weekly: real, loss: real)
    requires loss >= 0.0
    ensures Allowed(PlainPolicy(weekly), AfterWeeklyLoss(loss), Auto) <==> !(weekly > 0.0 && loss >= weekly)
  {
    hide Blocks;
    forall r { PlainBlocks(weekly, loss, r); }
    PlainBlocks(weekly, loss, WeeklyLossReached);
  }

  /**
   * Exactly when one weekly limit is at least as strict as another: for every acceptable policy and every
   * situation, if and only if the laxer one is off or both are on and the stricter one is no higher.
   */
  lemma WeeklyTightensExactly(lo: real, hi: real)
    ensures WeeklyTightens(lo, hi) <==> WeeklyStricter(lo, hi)
  {
    hide Allowed, AtLeastAsStrict, PolicyOk;
    if WeeklyStricter(lo, hi) {
      forall p: Policy, s: Snapshot, m: ExecutionMode {:trigger Allowed(WithWeekly(p, lo), s, m)}
        | PolicyOk(p) && Allowed(WithWeekly(p, lo), s, m)
        ensures Allowed(WithWeekly(p, hi), s, m)
      {
        SameButWeekly(p, lo, hi);
        TighteningNeverAdmitsMore(WithWeekly(p, lo), WithWeekly(p, hi), s, m);
      }
    } else {
      var p := PlainPolicy(0.0);
      PlainIsOk();
      PlainAllowed(lo, hi);
      PlainAllowed(hi, hi);
      assert WithWeekly(p, lo) == PlainPolicy(lo) && WithWeekly(p, hi) == PlainPolicy(hi);
      assert Allowed(WithWeekly(p, lo), AfterWeeklyLoss(hi), Auto);
    }
  }

  lemma PlainIsOk()
    ensures PolicyOk(PlainPolicy(0.0))
  {}
}
