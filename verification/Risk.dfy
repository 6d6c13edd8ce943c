/** The deterministic risk rules and the engine that runs them. */
module Risk {
  import opened Common
  import opened Market
  import opened Planner

  /** UTC session window [startHour, endHour); it may span midnight. */
  datatype Session = Session(startHour: int, endHour: int) {
    predicate Contains(hour: int) {
      if startHour < endHour then startHour <= hour < endHour else hour >= startHour || hour < endHour
    }
  }

  datatype RiskFields = RiskConfig(
    maxRiskPct: real, maxDailyLossPct: real, maxOpenPositions: int, maxExposureVolume: real,
    allowedSymbols: Option<set<string>>, allowedSessions: set<Session>, maxSpreadPoints: Option<real>,
    requireStopLoss: bool, requireTakeProfit: bool, minStopPoints: real,
    duplicateWindow: real, cooldown: real, minMarginLevelPct: real)
  {
    predicate Valid() {
      && 0.0 < maxRiskPct <= 100.0 && 0.0 < maxDailyLossPct <= 100.0
      && maxOpenPositions >= 1 && maxExposureVolume > 0.0
      && allowedSessions != {} && (maxSpreadPoints.Some? ==> maxSpreadPoints.value > 0.0)
      && minStopPoints >= 0.0 && duplicateWindow >= 0.0 && cooldown >= 0.0 && minMarginLevelPct > 0.0
    }
  }

  type RiskConfig = c: RiskFields | c.Valid()
    witness RiskConfig(1.0, 3.0, 3, 1.0, None, {Session(0, 24)}, None, true, true, 0.0, 600.0, 60.0, 100.0)

  /** A past verdict of the supervisor. Times are seconds since some UTC midnight. */
  datatype DecisionRecord = DecisionRecord(symbol: string, action: TradeAction, approved: bool, at: real)

  datatype RiskContext = RiskContext(
    account: AccountState, positions: seq<Position>,
    spreadPoints: map<string, real>, symbolPoints: map<string, real>,
    serverTime: real, dayPnl: Option<real>, recentDecisions: seq<DecisionRecord>)

  datatype ViolationCode =
    | AccountUnsafe | SymbolNotAllowed | SessionClosed | MaxRiskExceeded | MaxDailyLossExceeded
    | MaxPositionsExceeded | MaxExposureExceeded | SpreadTooHigh | StopLossRequired | TakeProfitRequired
    | StopTooClose | DuplicateTrade | CooldownActive

  /** Every rule has one code and no state, so a rule is named by its code. */
  const DEFAULT_RULES: seq<ViolationCode> := [
    AccountUnsafe, SymbolNotAllowed, SessionClosed, MaxRiskExceeded, MaxDailyLossExceeded,
    MaxPositionsExceeded, MaxExposureExceeded, SpreadTooHigh, StopLossRequired, TakeProfitRequired,
    StopTooClose, DuplicateTrade, CooldownActive]

  function HourOf(t: real): int {
    (t / 3600.0).Floor % 24
  }

  /** The hour of the day: some whole number of days ends between this hour and the next one. */
  lemma HourOfDay(t: real)
    ensures 0 <= HourOf(t) < 24
    ensures exists day: int ::
      (24 * day + HourOf(t)) as real * 3600.0 <= t < (24 * day + HourOf(t) + 1) as real * 3600.0
  {
    var hours := (t / 3600.0).Floor;
    var day := hours / 24;
    assert hours == 24 * day + HourOf(t);
    assert hours as real <= t / 3600.0 < (hours + 1) as real;
    assert (24 * day + HourOf(t)) as real * 3600.0 <= t < (24 * day + HourOf(t) + 1) as real * 3600.0;
  }

  /** A session holds as many hours as its bounds are apart around the clock, counted from its start. */
  lemma SessionHours(s: Session, hour: int)
    requires 0 <= s.startHour <= 24 && 0 <= s.endHour <= 24 && s.startHour != s.endHour && 0 <= hour < 24
    ensures var length := s.endHour - s.startHour + (if s.endHour < s.startHour then 24 else 0);
      s.Contains(hour) <==> (hour - s.startHour) % 24 < length
  {
  }

  /** Bounds that differ do not make a session: from 24 to 0 no hour is in it, and that is the only such session. */
  lemma EmptySessionIff(s: Session)
    requires 0 <= s.startHour <= 24 && 0 <= s.endHour <= 24 && s.startHour != s.endHour
    ensures (forall hour | 0 <= hour < 24 :: !s.Contains(hour)) <==> s.startHour == 24 && s.endHour == 0
  {
    if s.startHour < 24 {
      assert s.Contains(s.startHour);
    } else if s.endHour > 0 {
      assert s.Contains(0);
    }
  }

  /** `value or default`: an explicit zero counts as missing. */
  function OrElse(x: Option<real>, default: real): real {
    if x.Some? && x.value != 0.0 then x.value else default
  }

  function SideOf(action: TradeAction): Option<Side> {
    match action case BUY => Some(Buy) case SELL => Some(Sell) case HOLD => None
  }

  /** Is an earlier approval of this very trade at most a window old? Records from the future do not count. */
  predicate RecentlyApproved(p: TradeProposal, r: DecisionRecord, now: real, window: real) {
    r.approved && r.action != HOLD && r.symbol == p.symbol && r.action == p.action && 0.0 <= now - r.at <= window
  }

  predicate IsDuplicate(p: TradeProposal, ctx: RiskContext, cfg: RiskConfig) {
    && p.action != HOLD
    && ( || (exists i | 0 <= i < |ctx.positions| ::
               ctx.positions[i].symbol == p.symbol && Some(ctx.positions[i].side) == SideOf(p.action))
         || (cfg.duplicateWindow > 0.0
             && exists i | 0 <= i < |ctx.recentDecisions| ::
               RecentlyApproved(p, ctx.recentDecisions[i], ctx.serverTime, cfg.duplicateWindow)))
  }

  predicate InCooldown(p: TradeProposal, r: DecisionRecord, now: real, cooldown: real) {
    r.symbol == p.symbol && 0.0 <= now - r.at < cooldown
  }

  predicate IsCooling(p: TradeProposal, ctx: RiskContext, cfg: RiskConfig) {
    exists i | 0 <= i < |ctx.recentDecisions| ::
      InCooldown(p, ctx.recentDecisions[i], ctx.serverTime, cfg.cooldown)
  }

  predicate IsAccountUnsafe(ctx: RiskContext, cfg: RiskConfig) {
    || !ctx.account.tradeAllowed
    || ctx.account.equity <= 0.0
    || (ctx.account.MarginLevel().Some? && ctx.account.MarginLevel().value < cfg.minMarginLevelPct)
  }

  predicate IsDailyLoss(ctx: RiskContext, cfg: RiskConfig) {
    ctx.dayPnl.None? || ctx.dayPnl.value <= -(ctx.account.balance * cfg.maxDailyLossPct / 100.0)
  }

  predicate IsSpreadTooHigh(p: TradeProposal, ctx: RiskContext, cfg: RiskConfig) {
    cfg.maxSpreadPoints.Some?
    && (p.symbol !in ctx.spreadPoints || ctx.spreadPoints[p.symbol] > cfg.maxSpreadPoints.value)
  }

  function Abs(x: real): real { if x < 0.0 then -x else x }

  predicate IsStopTooClose(p: TradeProposal, ctx: RiskContext, cfg: RiskConfig) {
    && cfg.minStopPoints > 0.0 && p.entry.Some? && p.stopLoss.Some?
    && ( || p.symbol !in ctx.symbolPoints || ctx.symbolPoints[p.symbol] <= 0.0
         || Abs(p.entry.value - p.stopLoss.value) / ctx.symbolPoints[p.symbol] < cfg.minStopPoints)
  }

  /** What each rule rejects. */
  predicate Breaches(rule: ViolationCode, p: TradeProposal, ctx: RiskContext, cfg: RiskConfig) {
    match rule
    case AccountUnsafe => IsAccountUnsafe(ctx, cfg)
    case SymbolNotAllowed => cfg.allowedSymbols.Some? && p.symbol !in cfg.allowedSymbols.value
    case SessionClosed => forall s | s in cfg.allowedSessions :: !s.Contains(HourOf(ctx.serverTime))
    case MaxRiskExceeded => p.riskPct > cfg.maxRiskPct
    case MaxDailyLossExceeded => IsDailyLoss(ctx, cfg)
    case MaxPositionsExceeded => |ctx.positions| >= cfg.maxOpenPositions
    case MaxExposureExceeded => Gross(ctx.positions) + OrElse(p.volume, 0.0) > cfg.maxExposureVolume
    case SpreadTooHigh => IsSpreadTooHigh(p, ctx, cfg)
    case StopLossRequired => cfg.requireStopLoss && p.stopLoss.None?
    case TakeProfitRequired => cfg.requireTakeProfit && p.takeProfit.None?
    case StopTooClose => IsStopTooClose(p, ctx, cfg)
    case DuplicateTrade => IsDuplicate(p, ctx, cfg)
    case CooldownActive => IsCooling(p, ctx, cfg)
  }

  // ---- The rules and the engine as they run ------------------------------------------------------

  method CheckDuplicate(p: TradeProposal, ctx: RiskContext, cfg: RiskConfig) returns (breached: bool)
    ensures breached == IsDuplicate(p, ctx, cfg)
  {
    if SideOf(p.action).None? { return false; }
    for i := 0 to |ctx.positions|
      invariant forall k | 0 <= k < i ::
        !(ctx.positions[k].symbol == p.symbol && Some(ctx.positions[k].side) == SideOf(p.action))
    {
      if ctx.positions[i].symbol == p.symbol && Some(ctx.positions[i].side) == SideOf(p.action) { return true; }
    }
    if cfg.duplicateWindow <= 0.0 { return false; }
    for i := 0 to |ctx.recentDecisions|
      invariant forall k | 0 <= k < i ::
        !RecentlyApproved(p, ctx.recentDecisions[k], ctx.serverTime, cfg.duplicateWindow)
    {
      var r := ctx.recentDecisions[i];
      if !r.approved || r.action == HOLD { continue; }
      if r.symbol != p.symbol || r.action != p.action { continue; }
      var age := ctx.serverTime - r.at;
      if 0.0 <= age <= cfg.duplicateWindow { return true; }
    }
    return false;
  }

  /** Compares the age of the latest decision on the symbol with the cooldown. */
  method CheckCooldown(p: TradeProposal, ctx: RiskContext, cfg: RiskConfig) returns (breached: bool)
    ensures breached == IsCooling(p, ctx, cfg)
  {
    if cfg.cooldown <= 0.0 || |ctx.recentDecisions| == 0 { return false; }
    var latest: Option<real> := None;
    for i := 0 to |ctx.recentDecisions|
      invariant latest.Some? ==> latest.value >= 0.0
      invariant latest.Some? ==> exists k | 0 <= k < i ::
        ctx.recentDecisions[k].symbol == p.symbol && ctx.serverTime - ctx.recentDecisions[k].at == latest.value
      invariant forall k | 0 <= k < i && ctx.recentDecisions[k].symbol == p.symbol ::
        ctx.serverTime - ctx.recentDecisions[k].at >= 0.0 ==>
          latest.Some? && latest.value <= ctx.serverTime - ctx.recentDecisions[k].at
    {
      var r := ctx.recentDecisions[i];
      if r.symbol != p.symbol { continue; }
      var age := ctx.serverTime - r.at;
      if age >= 0.0 && (latest.None? || age < latest.value) {
        latest := Some(age);
      }
    }
    breached := latest.Some? && latest.value < cfg.cooldown;
    if breached {
      var k :| 0 <= k < |ctx.recentDecisions| && ctx.recentDecisions[k].symbol == p.symbol
               && ctx.serverTime - ctx.recentDecisions[k].at == latest.value;
      assert InCooldown(p, ctx.recentDecisions[k], ctx.serverTime, cfg.cooldown);
    }
  }

  method CheckRule(rule: ViolationCode, p: TradeProposal, ctx: RiskContext, cfg: RiskConfig)
    returns (breached: bool)
    ensures breached == Breaches(rule, p, ctx, cfg)
  {
    match rule
    case DuplicateTrade => breached := CheckDuplicate(p, ctx, cfg);
    case CooldownActive => breached := CheckCooldown(p, ctx, cfg);
    case _ => breached := Breaches(rule, p, ctx, cfg);
  }

  /** Approved results carry no violation, rejections at least one. */
  datatype ValidationResult = ValidationResult(approved: bool, violations: seq<ViolationCode>, checkedAt: real)

  /** The codes of the breached rules, in rule order. */
  function Violations(rules: seq<ViolationCode>, p: TradeProposal, ctx: RiskContext, cfg: RiskConfig)
    : seq<ViolationCode>
  {
    if rules == [] then []
    else (if Breaches(rules[0], p, ctx, cfg) then [rules[0]] else []) + Violations(rules[1..], p, ctx, cfg)
  }

  function Verdict(p: TradeProposal, ctx: RiskContext, cfg: RiskConfig, at: real): ValidationResult {
    var codes := if p.action == HOLD then [] else Violations(DEFAULT_RULES, p, ctx, cfg);
    ValidationResult(codes == [], codes, at)
  }

  /** The risk engine: evaluates every rule and never stops at the first breach. */
  method RunRules(rules: seq<ViolationCode>, p: TradeProposal, ctx: RiskContext, cfg: RiskConfig)
    returns (violations: seq<ViolationCode>)
    ensures violations == Violations(rules, p, ctx, cfg)
  {
    violations := [];
    for i := 0 to |rules|
      invariant violations + Violations(rules[i..], p, ctx, cfg) == Violations(rules, p, ctx, cfg)
    {
      var breached := CheckRule(rules[i], p, ctx, cfg);
      assert rules[i..][1..] == rules[i + 1..];
      if breached {
        violations := violations + [rules[i]];
      }
    }
  }

  method Validate(p: TradeProposal, ctx: RiskContext, cfg: RiskConfig, at: real)
    returns (result: ValidationResult)
    ensures result == Verdict(p, ctx, cfg, at)
  {
    if p.action == HOLD { return ValidationResult(true, [], at); }
    var violations := RunRules(DEFAULT_RULES, p, ctx, cfg);
    if violations != [] { return ValidationResult(false, violations, at); }
    result := ValidationResult(true, [], at);
  }

  // ---- What an approval means --------------------------------------------------------------------

  lemma {:induction false} ViolationsAreBreaches(
    rules: seq<ViolationCode>, p: TradeProposal, ctx: RiskContext, cfg: RiskConfig, rule: ViolationCode)
    ensures rule in Violations(rules, p, ctx, cfg) <==> rule in rules && Breaches(rule, p, ctx, cfg)
  {
    if rules != [] {
      ViolationsAreBreaches(rules[1..], p, ctx, cfg, rule);
      assert rule in rules <==> rule == rules[0] || rule in rules[1..];
    }
  }

  /** The position of a rule in the engine's list. */
  function RuleIndex(rule: ViolationCode): nat {
    match rule
    case AccountUnsafe => 0 case SymbolNotAllowed => 1 case SessionClosed => 2 case MaxRiskExceeded => 3
    case MaxDailyLossExceeded => 4 case MaxPositionsExceeded => 5 case MaxExposureExceeded => 6
    case SpreadTooHigh => 7 case StopLossRequired => 8 case TakeProfitRequired => 9 case StopTooClose => 10
    case DuplicateTrade => 11 case CooldownActive => 12
  }

  predicate InRuleOrder(codes: seq<ViolationCode>) {
    forall i, j | 0 <= i < j < |codes| :: RuleIndex(codes[i]) < RuleIndex(codes[j])
  }

  lemma {:induction false} ViolationsKeepOrder(
    rules: seq<ViolationCode>, p: TradeProposal, ctx: RiskContext, cfg: RiskConfig)
    requires InRuleOrder(rules)
    ensures InRuleOrder(Violations(rules, p, ctx, cfg))
  {
    if rules != [] {
      ViolationsKeepOrder(rules[1..], p, ctx, cfg);
      var later := Violations(rules[1..], p, ctx, cfg);
      forall i | 0 <= i < |later|
        ensures RuleIndex(rules[0]) < RuleIndex(later[i])
      {
        ViolationsAreBreaches(rules[1..], p, ctx, cfg, later[i]);
        assert later[i] in rules[1..];
      }
    }
  }

  /** A verdict is timed by its caller's clock, lists each breach once, in the engine's order, and HOLD has none. */
  lemma VerdictIsOrdered(p: TradeProposal, ctx: RiskContext, cfg: RiskConfig, at: real)
    ensures var v := Verdict(p, ctx, cfg, at);
      v.checkedAt == at && InRuleOrder(v.violations) && (v.approved <==> v.violations == [])
      && (p.action == HOLD ==> v.violations == [])
  {
    DefaultRulesOrdered(DEFAULT_RULES);
    ViolationsKeepOrder(DEFAULT_RULES, p, ctx, cfg);
  }

  lemma DefaultRulesOrdered(rules: seq<ViolationCode>)
    requires rules == DEFAULT_RULES
    ensures InRuleOrder(rules)
  {
    assert |rules| == 13 && forall i | 0 <= i < 13 :: RuleIndex(rules[i]) == i;
  }

  lemma DefaultRulesAreAll(rule: ViolationCode)
    ensures rule in DEFAULT_RULES
  {
  }

  /** Approval means HOLD, or that none of the thirteen rules is breached; the codes say exactly which are. */
  lemma ApprovedIff(p: TradeProposal, ctx: RiskContext, cfg: RiskConfig, at: real)
    ensures var v := Verdict(p, ctx, cfg, at);
      && (v.approved <==> p.action == HOLD || forall rule :: !Breaches(rule, p, ctx, cfg))
      && (p.action != HOLD ==> forall rule :: rule in v.violations <==> Breaches(rule, p, ctx, cfg))
  {
    forall rule: ViolationCode
      ensures rule in Violations(DEFAULT_RULES, p, ctx, cfg) <==> Breaches(rule, p, ctx, cfg)
    {
      ViolationsAreBreaches(DEFAULT_RULES, p, ctx, cfg, rule);
      DefaultRulesAreAll(rule);
    }
    var codes := Violations(DEFAULT_RULES, p, ctx, cfg);
    if codes != [] {
      assert codes[0] in codes;
    }
  }

  /** The gates of the risk guide, each as the condition under which a trade may pass. */
  predicate GatesPassed(p: TradeProposal, ctx: RiskContext, cfg: RiskConfig) {
    && ctx.account.tradeAllowed && ctx.account.equity > 0.0
    && (ctx.account.margin > 0.0 ==> ctx.account.equity / ctx.account.margin * 100.0 >= cfg.minMarginLevelPct)
    && (cfg.allowedSymbols.None? || p.symbol in cfg.allowedSymbols.value)
    && (exists s | s in cfg.allowedSessions :: s.Contains(HourOf(ctx.serverTime)))
    && p.riskPct <= cfg.maxRiskPct
    && ctx.dayPnl.Some? && ctx.dayPnl.value > -(ctx.account.balance * cfg.maxDailyLossPct / 100.0)
    && |ctx.positions| < cfg.maxOpenPositions
    && Gross(ctx.positions) + (if p.volume.Some? then p.volume.value else 0.0) <= cfg.maxExposureVolume
    && (cfg.maxSpreadPoints.Some? ==>
          p.symbol in ctx.spreadPoints && ctx.spreadPoints[p.symbol] <= cfg.maxSpreadPoints.value)
    && (cfg.requireStopLoss ==> p.stopLoss.Some?) && (cfg.requireTakeProfit ==> p.takeProfit.Some?)
    && StopFarEnough(p, ctx, cfg)
    && (forall i | 0 <= i < |ctx.positions| && ctx.positions[i].symbol == p.symbol ::
          ctx.positions[i].side != (if p.action == BUY then Buy else Sell))
    && (forall i | 0 <= i < |ctx.recentDecisions| :: Undisturbed(p, ctx.recentDecisions[i], ctx.serverTime, cfg))
  }

  predicate StopFarEnough(p: TradeProposal, ctx: RiskContext, cfg: RiskConfig) {
    cfg.minStopPoints > 0.0 && p.entry.Some? && p.stopLoss.Some? ==>
      && p.symbol in ctx.symbolPoints && ctx.symbolPoints[p.symbol] > 0.0
      && (if p.entry.value < p.stopLoss.value then p.stopLoss.value - p.entry.value
          else p.entry.value - p.stopLoss.value) / ctx.symbolPoints[p.symbol] >= cfg.minStopPoints
  }

  /** The record `r` lies in the future, on another symbol, or far enough back for this trade. */
  predicate Undisturbed(p: TradeProposal, r: DecisionRecord, now: real, cfg: RiskConfig) {
    r.at <= now && r.symbol == p.symbol ==>
      && now - r.at >= cfg.cooldown
      && (r.approved && r.action == p.action && cfg.duplicateWindow > 0.0 ==> now - r.at > cfg.duplicateWindow)
  }

  lemma HistoryGates(p: TradeProposal, ctx: RiskContext, cfg: RiskConfig)
    requires p.action != HOLD
    ensures !IsDuplicate(p, ctx, cfg) && !IsCooling(p, ctx, cfg) <==>
      && (forall i | 0 <= i < |ctx.positions| && ctx.positions[i].symbol == p.symbol ::
            ctx.positions[i].side != (if p.action == BUY then Buy else Sell))
      && (forall i | 0 <= i < |ctx.recentDecisions| :: Undisturbed(p, ctx.recentDecisions[i], ctx.serverTime, cfg))
  {
  }

  /** Approval of a BUY or SELL is exactly the conjunction of the guide's gates. */
  lemma ApprovedIffGatesPassed(p: TradeProposal, ctx: RiskContext, cfg: RiskConfig, at: real)
    requires p.action != HOLD
    ensures Verdict(p, ctx, cfg, at).approved <==> GatesPassed(p, ctx, cfg)
  {
    ApprovedIff(p, ctx, cfg, at);
    HistoryGates(p, ctx, cfg);
    if GatesPassed(p, ctx, cfg) {
      forall rule
        ensures !Breaches(rule, p, ctx, cfg)
      {
        match rule case _ =>
      }
    } else if forall rule :: !Breaches(rule, p, ctx, cfg) {
      GatesOfNoBreach(p, ctx, cfg);
    }
  }

  lemma GatesOfNoBreach(p: TradeProposal, ctx: RiskContext, cfg: RiskConfig)
    requires p.action != HOLD && forall rule :: !Breaches(rule, p, ctx, cfg)
    ensures GatesPassed(p, ctx, cfg)
  {
    HistoryGates(p, ctx, cfg);
    assert !Breaches(DuplicateTrade, p, ctx, cfg) && !Breaches(CooldownActive, p, ctx, cfg);
    AccountGates(p, ctx, cfg);
    LimitGates(p, ctx, cfg);
  }

  lemma AccountGates(p: TradeProposal, ctx: RiskContext, cfg: RiskConfig)
    requires !Breaches(AccountUnsafe, p, ctx, cfg) && !Breaches(SymbolNotAllowed, p, ctx, cfg)
    requires !Breaches(SessionClosed, p, ctx, cfg) && !Breaches(MaxRiskExceeded, p, ctx, cfg)
    requires !Breaches(MaxDailyLossExceeded, p, ctx, cfg) && !Breaches(MaxPositionsExceeded, p, ctx, cfg)
    ensures ctx.account.tradeAllowed && ctx.account.equity > 0.0
    ensures ctx.account.margin > 0.0 ==> ctx.account.equity / ctx.account.margin * 100.0 >= cfg.minMarginLevelPct
    ensures cfg.allowedSymbols.None? || p.symbol in cfg.allowedSymbols.value
    ensures exists s | s in cfg.allowedSessions :: s.Contains(HourOf(ctx.serverTime))
    ensures p.riskPct <= cfg.maxRiskPct
    ensures ctx.dayPnl.Some? && ctx.dayPnl.value > -(ctx.account.balance * cfg.maxDailyLossPct / 100.0)
    ensures |ctx.positions| < cfg.maxOpenPositions
  {
  }

  lemma LimitGates(p: TradeProposal, ctx: RiskContext, cfg: RiskConfig)
    requires !Breaches(MaxExposureExceeded, p, ctx, cfg) && !Breaches(SpreadTooHigh, p, ctx, cfg)
    requires !Breaches(StopLossRequired, p, ctx, cfg) && !Breaches(TakeProfitRequired, p, ctx, cfg)
    requires !Breaches(StopTooClose, p, ctx, cfg)
    ensures Gross(ctx.positions) + (if p.volume.Some? then p.volume.value else 0.0) <= cfg.maxExposureVolume
    ensures cfg.maxSpreadPoints.Some? ==>
      p.symbol in ctx.spreadPoints && ctx.spreadPoints[p.symbol] <= cfg.maxSpreadPoints.value
    ensures (cfg.requireStopLoss ==> p.stopLoss.Some?) && (cfg.requireTakeProfit ==> p.takeProfit.Some?)
    ensures StopFarEnough(p, ctx, cfg)
  {
  }

  // ---- Unknown readings --------------------------------------------------------------------------

  /** Unknown daily P&L never abstains: it rejects every trade, also one that any known small loss would pass. */
  lemma UnknownPnlRejects(p: TradeProposal, ctx: RiskContext, cfg: RiskConfig, at: real)
    requires p.action != HOLD && ctx.dayPnl.None?
    ensures !Verdict(p, ctx, cfg, at).approved && MaxDailyLossExceeded in Verdict(p, ctx, cfg, at).violations
  {
    ApprovedIff(p, ctx, cfg, at);
    assert Breaches(MaxDailyLossExceeded, p, ctx, cfg);
  }

  /**
    * Unknown spread breaches its rule iff the limit is on. So it abstains, that is, decides as if the limit were
    * off, iff the limit is off or some other gate is closed.
    */
  lemma UnknownSpreadAbstainsIff(p: TradeProposal, ctx: RiskContext, cfg: RiskConfig, at: real)
    requires p.action != HOLD && p.symbol !in ctx.spreadPoints
    ensures SpreadTooHigh in Verdict(p, ctx, cfg, at).violations <==> cfg.maxSpreadPoints.Some?
    ensures var off := cfg.(maxSpreadPoints := None);
      Verdict(p, ctx, cfg, at).approved == Verdict(p, ctx, off, at).approved <==>
        cfg.maxSpreadPoints.None? || !GatesPassed(p, ctx, off)
  {
    ApprovedIff(p, ctx, cfg, at);
    ApprovedIffGatesPassed(p, ctx, cfg, at);
    ApprovedIffGatesPassed(p, ctx, cfg.(maxSpreadPoints := None), at);
  }

  /** A trade that passes every rule with known readings and is rejected once either reading is unknown. */
  lemma UnknownReadingsReject()
    ensures exists p: TradeProposal, ctx: RiskContext, cfg: RiskConfig ::
      && Verdict(p, ctx, cfg, 0.0).approved
      && !Verdict(p, ctx.(dayPnl := None), cfg, 0.0).approved
      && !Verdict(p, ctx.(spreadPoints := map[]), cfg, 0.0).approved
  {
    var p: TradeProposal := Proposal(BUY, "X", 0.5, "r", "s", Some(2.0), Some(1.0), Some(3.0), 1.0, Some(0.1));
    var account := AccountState(true, 100.0, 100.0, 0.0, Some(0.0));
    var ctx := RiskContext(account, [], map["X" := 1.0], map["X" := 1.0], 0.0, Some(0.0), []);
    var session := Session(0, 24);
    var cfg: RiskConfig :=
      RiskConfig(1.0, 3.0, 3, 1.0, None, {session}, Some(2.0), true, true, 0.0, 600.0, 60.0, 100.0);
    assert session in cfg.allowedSessions && session.Contains(HourOf(0.0));
    assert GatesPassed(p, ctx, cfg);
    ApprovedIffGatesPassed(p, ctx, cfg, 0.0);
    UnknownPnlRejects(p, ctx.(dayPnl := None), cfg, 0.0);
    ApprovedIffGatesPassed(p, ctx.(spreadPoints := map[]), cfg, 0.0);
  }

  // ---- Monotonicity ------------------------------------------------------------------------------

  /** Every limit of `b` is at least as loose as that of `a`. */
  predicate Looser(a: RiskConfig, b: RiskConfig) {
    && a.maxRiskPct <= b.maxRiskPct && a.maxDailyLossPct <= b.maxDailyLossPct
    && a.maxOpenPositions <= b.maxOpenPositions && a.maxExposureVolume <= b.maxExposureVolume
    && (b.allowedSymbols.None? || (a.allowedSymbols.Some? && a.allowedSymbols.value <= b.allowedSymbols.value))
    && a.allowedSessions <= b.allowedSessions
    && (b.maxSpreadPoints.None?
        || (a.maxSpreadPoints.Some? && a.maxSpreadPoints.value <= b.maxSpreadPoints.value))
    && (b.requireStopLoss ==> a.requireStopLoss) && (b.requireTakeProfit ==> a.requireTakeProfit)
    && b.minStopPoints <= a.minStopPoints && b.duplicateWindow <= a.duplicateWindow
    && b.cooldown <= a.cooldown && b.minMarginLevelPct <= a.minMarginLevelPct
  }

  /** `b` is `a` with some positions and some decision records taken away, in any order. */
  predicate Lighter(a: RiskContext, b: RiskContext) {
    && multiset(b.positions) <= multiset(a.positions)
    && multiset(b.recentDecisions) <= multiset(a.recentDecisions)
    && b == a.(positions := b.positions, recentDecisions := b.recentDecisions)
  }

  /** The daily-loss limit is a share of the balance: a larger share is looser only if the balance is not negative. */
  predicate LossLimitComparable(ctx: RiskContext, tight: RiskConfig, loose: RiskConfig) {
    ctx.account.balance >= 0.0 || tight.maxDailyLossPct == loose.maxDailyLossPct
  }

  lemma ScaledLimit(balance: real, pct: real, looser: real)
    requires balance >= 0.0 && pct <= looser
    ensures balance * pct / 100.0 <= balance * looser / 100.0
  {
  }

  lemma MemberOfLarger<T>(fewer: seq<T>, all: seq<T>, i: nat) returns (k: nat)
    requires multiset(fewer) <= multiset(all) && i < |fewer|
    ensures k < |all| && all[k] == fewer[i]
  {
    assert fewer[i] in multiset(fewer);
    assert fewer[i] in all;
    k :| 0 <= k < |all| && all[k] == fewer[i];
  }

  lemma DuplicateMonotone(p: TradeProposal, a: RiskContext, b: RiskContext, tight: RiskConfig, loose: RiskConfig)
    requires Looser(tight, loose) && Lighter(a, b) && IsDuplicate(p, b, loose)
    ensures IsDuplicate(p, a, tight)
  {
    if i :| 0 <= i < |b.positions| && b.positions[i].symbol == p.symbol
            && Some(b.positions[i].side) == SideOf(p.action) {
      var k := MemberOfLarger(b.positions, a.positions, i);
    } else {
      var i :| 0 <= i < |b.recentDecisions|
               && RecentlyApproved(p, b.recentDecisions[i], b.serverTime, loose.duplicateWindow);
      var k := MemberOfLarger(b.recentDecisions, a.recentDecisions, i);
      assert RecentlyApproved(p, a.recentDecisions[k], a.serverTime, tight.duplicateWindow);
    }
  }

  lemma CooldownMonotone(p: TradeProposal, a: RiskContext, b: RiskContext, tight: RiskConfig, loose: RiskConfig)
    requires Looser(tight, loose) && Lighter(a, b) && IsCooling(p, b, loose)
    ensures IsCooling(p, a, tight)
  {
    var i :| 0 <= i < |b.recentDecisions| && InCooldown(p, b.recentDecisions[i], b.serverTime, loose.cooldown);
    var k := MemberOfLarger(b.recentDecisions, a.recentDecisions, i);
    assert InCooldown(p, a.recentDecisions[k], a.serverTime, tight.cooldown);
  }

  lemma BreachMonotone(
    rule: ViolationCode, p: TradeProposal, a: RiskContext, b: RiskContext, tight: RiskConfig, loose: RiskConfig)
    requires Looser(tight, loose) && Lighter(a, b) && LossLimitComparable(a, tight, loose)
    requires Breaches(rule, p, b, loose)
    ensures Breaches(rule, p, a, tight)
  {
    match rule
    case DuplicateTrade => DuplicateMonotone(p, a, b, tight, loose);
    case CooldownActive => CooldownMonotone(p, a, b, tight, loose);
    case MaxPositionsExceeded => FewerPositions(b.positions, a.positions);
    case MaxExposureExceeded => FewerPositions(b.positions, a.positions);
    case MaxDailyLossExceeded =>
      if a.account.balance >= 0.0 {
        ScaledLimit(a.account.balance, tight.maxDailyLossPct, loose.maxDailyLossPct);
      }
    case _ =>
  }

  /** An approval survives loosening limits, closing positions and forgetting decisions. */
  lemma ApprovalMonotone(
    p: TradeProposal, a: RiskContext, b: RiskContext, tight: RiskConfig, loose: RiskConfig, at: real)
    requires Looser(tight, loose) && Lighter(a, b) && LossLimitComparable(a, tight, loose)
    requires Verdict(p, a, tight, at).approved
    ensures Verdict(p, b, loose, at).approved
  {
    ApprovedIff(p, a, tight, at);
    ApprovedIff(p, b, loose, at);
    forall rule | Breaches(rule, p, b, loose)
      ensures Breaches(rule, p, a, tight)
    {
      BreachMonotone(rule, p, a, b, tight, loose);
    }
  }

  /** The balance must not be negative: raising the daily-loss limit keeps every approval exactly then. */
  lemma LooserDailyLossIff(ctx: RiskContext, tight: RiskConfig, loose: RiskConfig)
    requires tight.maxDailyLossPct <= loose.maxDailyLossPct
    ensures (forall pnl: real :: IsDailyLoss(ctx.(dayPnl := Some(pnl)), loose) ==>
                                 IsDailyLoss(ctx.(dayPnl := Some(pnl)), tight))
        <==> LossLimitComparable(ctx, tight, loose)
  {
    var balance, t, l := ctx.account.balance, tight.maxDailyLossPct, loose.maxDailyLossPct;
    if balance >= 0.0 {
      ScaledLimit(balance, t, l);
    } else if t < l {
      assert balance * l < balance * t;
      var pnl := -(balance * l / 100.0);
      assert IsDailyLoss(ctx.(dayPnl := Some(pnl)), loose) && !IsDailyLoss(ctx.(dayPnl := Some(pnl)), tight);
    }
  }
}
