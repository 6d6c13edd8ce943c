/** What one cycle can and cannot do, whatever its collaborators answer. */
module CycleLaws {
  import opened Common
  import opened Market
  import opened Signals
  import opened Planner
  import opened Risk
  import opened SupervisorBoundary
  import opened Executor
  import opened Agent

  // ---- What reaches the supervisor and the executor ----------------------------------------------

  /** The proposal that goes to the supervisor, with the default volume filled in. */
  function FinalProposal(cfg: AgentConfig, o: Observation, reply: Answer<Reply>): Answer<TradeProposal> {
    WithVolume(cfg, ProposalFor(cfg, o, reply))
  }

  /** OBSERVE and PLAN succeeded, and nothing before them ended the cycle. */
  predicate Planned(cfg: AgentConfig, w: World, s: CycleScript) {
    && !Halted(cfg, w, s.startedAt)
    && s.observe.Returned? && s.contextFault.None?
    && (s.strategyFault.Some? ==> !Blank(s.strategyFault.value.message))
    && s.planInputFault.None? && (cfg.hasPlanner ==> s.planFault.None?)
  }

  predicate Reviewed(cfg: AgentConfig, w: World, s: CycleScript) {
    Planned(cfg, w, s) && FinalProposal(cfg, s.observe.value, s.reply).Returned? && !s.reviewFault.Before?
  }

  function DecisionOf(cfg: AgentConfig, w: World, s: CycleScript): SupervisorDecision
    requires s.observe.Returned? && FinalProposal(cfg, s.observe.value, s.reply).Returned?
  {
    Decide(cfg.risk, w.verdicts, FinalProposal(cfg, s.observe.value, s.reply).value,
           RiskContextFor(s.observe.value, s.serverTime), s.decidedAt)
  }

  predicate Executed(cfg: AgentConfig, w: World, s: CycleScript) {
    && Reviewed(cfg, w, s) && s.reviewFault.NoFault?
    && DecisionOf(cfg, w, s).approved && DecisionOf(cfg, w, s).proposal.action != HOLD
    && !s.executeFault.Before?
  }

  /** The decision of the cycle, once it was reviewed and the review returned. */
  predicate Decided(cfg: AgentConfig, w: World, s: CycleScript) {
    Reviewed(cfg, w, s) && s.reviewFault.NoFault?
  }

  /** The executor returned a record to the agent. */
  predicate RecordReturned(cfg: AgentConfig, w: World, s: CycleScript) {
    Executed(cfg, w, s) && s.executeFault.NoFault?
  }

  /** What the executor's ledger and trace become if the cycle gets that far. */
  function ExecAfter(cfg: AgentConfig, exec: ExecState, d: SupervisorDecision, s: CycleScript): ExecState {
    Execute(cfg.exec, exec, d, KeyOf(Some(s.cycleId), s.freshId), s.terminal).0
  }

  lemma ExecuteEffects(cfg: AgentConfig, s: CycleScript, f: Frame)
    ensures var after := FromExecute(cfg, s, f).frame.world;
      && after.verdicts == f.world.verdicts
      && after.exec ==
           if f.decision.Some? && f.decision.value.approved && f.decision.value.proposal.action != HOLD
              && !s.executeFault.Before?
           then ExecAfter(cfg, f.world.exec, f.decision.value, s) else f.world.exec
  {
    TailKeepsWorld(cfg, s, ExecuteStage(cfg, s, f).frame);
  }

  lemma TailKeepsWorld(cfg: AgentConfig, s: CycleScript, f: Frame)
    ensures FromVerify(cfg, s, f).frame.world == f.world
  {
    assert VerifyStage(s, f).frame.world == f.world;
  }

  lemma SuperviseEffects(cfg: AgentConfig, s: CycleScript, f: Frame)
    requires f.observation.Some? && f.proposal.Some? && f.decision.None?
    ensures var r := SuperviseStage(cfg, s, f);
      var final := WithVolume(cfg, f.proposal.value);
      if final.Raised? || s.reviewFault.Before? then r.frame.world == f.world && r.frame.decision.None?
      else
        var d := Decide(cfg.risk, f.world.verdicts, final.value,
                        RiskContextFor(f.observation.value, s.serverTime), s.decidedAt);
        && r.frame.world == f.world.(verdicts := Recorded(f.world.verdicts, d))
        && (if s.reviewFault.After? then r.frame.decision.None? else r.Next? && r.frame.decision == Some(d))
  {
  }

  lemma PlanEffects(cfg: AgentConfig, s: CycleScript, f: Frame)
    requires f.observation.Some? && f.proposal.None? && f.decision.None?
    ensures var r := PlanStage(cfg, s, f);
      && r.frame.world == f.world && r.frame.observation == f.observation && r.frame.decision.None?
      && (if s.planInputFault.None? && (cfg.hasPlanner ==> s.planFault.None?)
          then r.Next? && r.frame.proposal == Some(ProposalFor(cfg, f.observation.value, s.reply))
          else r.frame.proposal.None?)
  {
  }

  lemma UnplannedEffects(cfg: AgentConfig, s: CycleScript, f: Frame)
    requires f.proposal.None? && f.decision.None?
    ensures FromSupervise(cfg, s, f).frame.world == f.world
  {
    var r := SuperviseStage(cfg, s, f);
    assert r.frame == f.(outcomes := r.frame.outcomes);
    UndecidedEffects(cfg, s, r.frame);
  }

  lemma UndecidedEffects(cfg: AgentConfig, s: CycleScript, f: Frame)
    requires f.decision.None?
    ensures FromExecute(cfg, s, f).frame.world == f.world
  {
    TailKeepsWorld(cfg, s, f.Note(EXECUTE, SKIPPED, "skipped"));
  }

  /** Exactly what a cycle does to the verdict ledger and to the executor: at most one review, one execution. */
  lemma CycleEffects(cfg: AgentConfig, w: World, symbol: string, s: CycleScript)
    ensures var after := Cycle(cfg, w, symbol, s).0;
      && after.verdicts == (if Reviewed(cfg, w, s) then Recorded(w.verdicts, DecisionOf(cfg, w, s)) else w.verdicts)
      && after.exec == (if Executed(cfg, w, s) then ExecAfter(cfg, w.exec, DecisionOf(cfg, w, s), s) else w.exec)
  {
    if !Halted(cfg, w, s.startedAt) {
      var r1 := ObserveStage(s, StartFrame(w));
      ObserveEffects(w, s);
      var flow := Stages(cfg, s, StartFrame(w));
      if s.observe.Returned? && s.contextFault.None? {
        LateEffects(cfg, w, s, r1.frame);
        assert flow == FromStrategy(cfg, s, r1.frame);
      } else {
        assert flow.frame == r1.frame;
      }
      FinishKeepsLedgers(cfg, flow.frame.world, CycleOf(symbol, s, flow), s.finishedAt);
    }
  }

  lemma FinishKeepsLedgers(cfg: AgentConfig, w: World, cycle: AgentCycle, now: real)
    ensures var after := Finish(cfg, w, cycle, now); after.verdicts == w.verdicts && after.exec == w.exec
  {
  }

  lemma ObserveEffects(w: World, s: CycleScript)
    ensures var r := ObserveStage(s, StartFrame(w));
      && r.frame.world.verdicts == w.verdicts && r.frame.world.exec == w.exec
      && r.frame.proposal.None? && r.frame.decision.None? && r.frame.record.None?
      && (if s.observe.Returned? && s.contextFault.None?
          then r.Next? && !AnyFailed(r.frame.outcomes) && r.frame.observation == Some(s.observe.value)
          else r.Next? ==> AnyFailed(r.frame.outcomes))
  {
    var r := ObserveStage(s, StartFrame(w));
    if r.Next? && !(s.observe.Returned? && s.contextFault.None?) {
      assert r.frame.outcomes[|r.frame.outcomes| - 1].status == FAILED;
    }
  }

  lemma LateEffects(cfg: AgentConfig, w: World, s: CycleScript, f: Frame)
    requires !Halted(cfg, w, s.startedAt) && s.observe.Returned? && s.contextFault.None?
    requires f.observation == Some(s.observe.value) && f.world.verdicts == w.verdicts && f.world.exec == w.exec
    requires f.proposal.None? && f.decision.None?
    ensures var after := FromStrategy(cfg, s, f).frame.world;
      && after.verdicts == (if Reviewed(cfg, w, s) then Recorded(w.verdicts, DecisionOf(cfg, w, s)) else w.verdicts)
      && after.exec == (if Executed(cfg, w, s) then ExecAfter(cfg, w.exec, DecisionOf(cfg, w, s), s) else w.exec)
  {
    var r2 := StrategyStage(cfg, s, f);
    assert r2.frame == f.(outcomes := r2.frame.outcomes, signal := r2.frame.signal, writes := r2.frame.writes);
    var r3 := PlanStage(cfg, s, r2.frame);
    PlanEffects(cfg, s, r2.frame);
    if r3.frame.proposal.None? {
      UnplannedEffects(cfg, s, r3.frame);
    } else {
      SuperviseEffects(cfg, s, r3.frame);
      ExecuteEffects(cfg, s, SuperviseStage(cfg, s, r3.frame).frame);
    }
  }

  /** The executor is asked at most once per cycle, with the approved non-HOLD decision of this very cycle. */
  lemma AtMostOneExecution(cfg: AgentConfig, w: World, symbol: string, s: CycleScript)
    ensures var exec := Cycle(cfg, w, symbol, s).0.exec;
      || exec == w.exec
      || (&& |exec.attempts| == |w.exec.attempts| + 1 && w.exec.attempts <= exec.attempts
          && Executed(cfg, w, s)
          && exec.attempts[|w.exec.attempts|].decision == DecisionOf(cfg, w, s)
          && exec.attempts[|w.exec.attempts|].decision.approved
          && exec.attempts[|w.exec.attempts|].decision.proposal.action != HOLD)
  {
    CycleEffects(cfg, w, symbol, s);
    if Executed(cfg, w, s) {
      ExecuteGrows(cfg, w.exec, DecisionOf(cfg, w, s), s);
    }
  }

  lemma ExecuteGrows(cfg: AgentConfig, exec: ExecState, d: SupervisorDecision, s: CycleScript)
    ensures var after := ExecAfter(cfg, exec, d, s);
      || after == exec
      || (&& |after.attempts| == |exec.attempts| + 1 && exec.attempts <= after.attempts
          && after.attempts[|exec.attempts|].decision == d)
  {
  }

  /**
    * An executed decision is attempted under the cycle's own id, or under the generated one if the cycle has none,
    * on the cycle's terminal; an id that was used before is not attempted again.
    */
  lemma ExecutionIsKeyed(cfg: AgentConfig, w: World, symbol: string, s: CycleScript)
    requires Executed(cfg, w, s)
    ensures var exec, key := Cycle(cfg, w, symbol, s).0.exec, if |s.cycleId| > 0 then s.cycleId else s.freshId;
      var a := Run(cfg.exec, w.exec.loaded, DecisionOf(cfg, w, s), key, s.terminal);
      if key in w.exec.ledger then exec == w.exec
      else exec.attempts == w.exec.attempts + [a] && exec.ledger == w.exec.ledger[key := a.record]
           && a.key == key && a.decision == DecisionOf(cfg, w, s)
  {
    CycleEffects(cfg, w, symbol, s);
    ExecuteIsKeyed(cfg, w.exec, DecisionOf(cfg, w, s), s);
  }

  lemma ExecuteIsKeyed(cfg: AgentConfig, exec: ExecState, d: SupervisorDecision, s: CycleScript)
    ensures var after, key := ExecAfter(cfg, exec, d, s), if |s.cycleId| > 0 then s.cycleId else s.freshId;
      var a := Run(cfg.exec, exec.loaded, d, key, s.terminal);
      if key in exec.ledger then after == exec
      else after.attempts == exec.attempts + [a] && after.ledger == exec.ledger[key := a.record]
           && a.key == key && a.decision == d
  {
  }

  // ---- No order without a breakout ---------------------------------------------------------------

  /** Some registered Donchian reader saw the observed candles break out in the direction of `action`. */
  predicate BreakoutSeen(cfg: AgentConfig, o: Observation, action: TradeAction) {
    exists strategy | strategy in cfg.strategies ::
      && strategy.DonchianBreakout?
      && (if action == BUY then BreaksUp(strategy.params, o.candles) else BreaksDown(strategy.params, o.candles))
  }

  /**
    * Whatever the LLM returns or raises: an order decision needs a structure break that the candles show,
    * an ordered bracket made of the LLM's own prices, and a pass of every risk rule on that very proposal,
    * whose volume is the LLM's or, if it named none, the agent's default.
    */
  lemma NoOrderWithoutBreakout(cfg: AgentConfig, w: World, s: CycleScript)
    requires Executed(cfg, w, s)
    ensures var o, p := s.observe.value, DecisionOf(cfg, w, s).proposal;
      && cfg.hasPlanner && p.action != HOLD && p.symbol == o.symbol
      && BreakoutSeen(cfg, o, p.action)
      && p.entry.Some? && p.stopLoss.Some? && p.takeProfit.Some?
      && Bracketed(p.action, p.entry.value, p.stopLoss.value, p.takeProfit.value)
      && s.reply.Returned? && s.reply.value.structured.Some?
      && (var data := s.reply.value.structured.value;
          && data.entry == Number(p.entry.value) && data.stopLoss == Number(p.stopLoss.value)
          && data.takeProfit == Number(p.takeProfit.value)
          && p.volume == Some(if data.volume.Number? then data.volume.value else cfg.defaultVolume))
      && (forall rule :: !Breaches(rule, p, WithHistory(RiskContextFor(o, s.serverTime), w.verdicts), cfg.risk))
  {
    var o := s.observe.value;
    var p := DecisionOf(cfg, w, s).proposal;
    var input := InputFor(cfg, o);
    ApprovedIff(p, WithHistory(RiskContextFor(o, s.serverTime), w.verdicts), cfg.risk, s.decidedAt);
    assert ProposalFor(cfg, o, s.reply).action == p.action;
    PlannedTrade(input, s.reply);
    PrimaryNeedsBreak(cfg.strategies, o.symbol, o.candles);
  }

  // ---- Exactly when an order goes to the executor ------------------------------------------------

  /**
    * The gates of the risk guide in terms of what the cycle observed, of the clock and of the verdicts so far:
    * the account, the symbol, the session, the trade's risk, loss, count, volume, spread, bracket and stop
    * distance, no position on the same side, and no record that is too recent.
    */
  predicate ObservedGates(
    cfg: RiskConfig, o: Observation, now: real, verdicts: seq<DecisionRecord>, p: ProposalFields)
  {
    && o.account.tradeAllowed && o.account.equity > 0.0
    && (o.account.margin > 0.0 ==> o.account.equity / o.account.margin * 100.0 >= cfg.minMarginLevelPct)
    && (cfg.allowedSymbols.None? || o.symbol in cfg.allowedSymbols.value)
    && (exists session | session in cfg.allowedSessions :: session.Contains(HourOf(now)))
    && p.riskPct <= cfg.maxRiskPct
    && o.account.dayRealizedPnl.Some?
    && o.account.dayRealizedPnl.value > -(o.account.balance * cfg.maxDailyLossPct / 100.0)
    && |o.positions| < cfg.maxOpenPositions
    && Gross(o.positions) + (if p.volume.Some? then p.volume.value else 0.0) <= cfg.maxExposureVolume
    && (cfg.maxSpreadPoints.Some? ==>
          PointKnown(o) && (o.tick.value.ask - o.tick.value.bid) / o.point.value <= cfg.maxSpreadPoints.value)
    && (cfg.requireStopLoss ==> p.stopLoss.Some?) && (cfg.requireTakeProfit ==> p.takeProfit.Some?)
    && (cfg.minStopPoints > 0.0 && p.entry.Some? && p.stopLoss.Some? ==>
          && PointKnown(o)
          && (if p.entry.value < p.stopLoss.value then p.stopLoss.value - p.entry.value
              else p.entry.value - p.stopLoss.value) / o.point.value >= cfg.minStopPoints)
    && (forall i | 0 <= i < |o.positions| && o.positions[i].symbol == o.symbol ::
          o.positions[i].side != (if p.action == BUY then Buy else Sell))
    && (forall i | 0 <= i < |verdicts| && verdicts[i].symbol == o.symbol && verdicts[i].at <= now ::
          && now - verdicts[i].at >= cfg.cooldown
          && (verdicts[i].approved && verdicts[i].action == p.action && cfg.duplicateWindow > 0.0 ==>
                now - verdicts[i].at > cfg.duplicateWindow))
  }

  lemma ObservedReview(
    cfg: RiskConfig, o: Observation, now: real, verdicts: seq<DecisionRecord>, p: TradeProposal, at: real)
    requires p.symbol == o.symbol && p.action != HOLD
    ensures Decide(cfg, verdicts, p, RiskContextFor(o, now), at).approved
        <==> ObservedGates(cfg, o, now, verdicts, p)
  {
    ReviewApprovesIff(cfg, verdicts, p, RiskContextFor(o, now), at);
  }

  /** The verdict of a cycle: a HOLD, or a trade that passes every gate on what this cycle observed. */
  lemma DecisionApprovedIff(cfg: AgentConfig, w: World, s: CycleScript)
    requires s.observe.Returned? && FinalProposal(cfg, s.observe.value, s.reply).Returned?
    ensures var d, p := DecisionOf(cfg, w, s), FinalProposal(cfg, s.observe.value, s.reply).value;
      && d.proposal == p && p.symbol == s.observe.value.symbol && d.decidedAt == s.decidedAt
      && (d.approved <==>
            p.action == HOLD || ObservedGates(cfg.risk, s.observe.value, s.serverTime, w.verdicts, p))
  {
    var o, p := s.observe.value, FinalProposal(cfg, s.observe.value, s.reply).value;
    assert InputFor(cfg, o).symbol == o.symbol;
    assert ProposalFor(cfg, o, s.reply).symbol == o.symbol;
    ReviewApprovesIff(cfg.risk, w.verdicts, p, RiskContextFor(o, s.serverTime), s.decidedAt);
    if p.action != HOLD {
      ObservedReview(cfg.risk, o, s.serverTime, w.verdicts, p, s.decidedAt);
    }
  }

  /** The first strategy that sees a break sees it in the direction of `action`. */
  predicate FirstBreakIs(strategies: seq<Strategy>, candles: seq<Candle>, action: TradeAction) {
    exists i | 0 <= i < |strategies| ::
      FirstBreak(strategies, candles, i)
      && (if action == BUY then BreaksUp(strategies[i].params, candles) else BreaksDown(strategies[i].params, candles))
  }

  /** The trade that the LLM's numbers make, with the agent's default for a missing volume. */
  function OrderedTrade(cfg: AgentConfig, o: Observation, data: RawProposal, action: TradeAction): ProposalFields
    requires WellFormedOrder(data, action)
  {
    Proposal(action, o.symbol, if data.confidence.Number? then data.confidence.value else 0.0, data.rationale,
             "donchian_breakout", Some(data.entry.value), Some(data.stopLoss.value), Some(data.takeProfit.value),
             if data.riskPct.Number? then data.riskPct.value else 0.0,
             Some(if data.volume.Number? then data.volume.value else cfg.defaultVolume))
  }

  /** This very trade was asked for, its break was seen first, and it passes every gate. */
  predicate OrderWanted(cfg: AgentConfig, w: World, s: CycleScript, action: TradeAction)
    requires s.observe.Returned?
  {
    && cfg.hasPlanner && action != HOLD && s.reply.Returned? && s.reply.value.structured.Some?
    && WellFormedOrder(s.reply.value.structured.value, action)
    && FirstBreakIs(cfg.strategies, s.observe.value.candles, action)
    && (s.reply.value.structured.value.volume.Number? || cfg.defaultVolume > 0.0)
    && ObservedGates(cfg.risk, s.observe.value, s.serverTime, w.verdicts,
                     OrderedTrade(cfg, s.observe.value, s.reply.value.structured.value, action))
  }

  lemma PrimaryDirection(cfg: AgentConfig, o: Observation)
    ensures var primary := PrimarySignal(cfg, o);
      && (primary.direction == Long <==> FirstBreakIs(cfg.strategies, o.candles, BUY))
      && (primary.direction == Short <==> FirstBreakIs(cfg.strategies, o.candles, SELL))
      && (primary.direction != Flat ==> primary.strategy == "donchian_breakout")
    ensures forall i | 0 <= i < |cfg.strategies| && FirstBreak(cfg.strategies, o.candles, i) ::
      Reports(PrimarySignal(cfg, o), cfg.strategies[i], o.symbol, o.candles)
    ensures (forall i | 0 <= i < |cfg.strategies| :: !Breaks(cfg.strategies[i], o.candles)) ==>
      Reports(PrimarySignal(cfg, o), cfg.strategies[0], o.symbol, o.candles)
  {
    PrimaryIsFirstBreak(cfg.strategies, o.symbol, o.candles);
    if forall i | 0 <= i < |cfg.strategies| :: !Breaks(cfg.strategies[i], o.candles) {
    } else {
      var i := FirstOfBreaks(cfg.strategies, o.candles);
      forall j | 0 <= j < |cfg.strategies| && FirstBreak(cfg.strategies, o.candles, j)
        ensures j == i
      {
      }
    }
  }

  lemma FirstOfBreaks(strategies: seq<Strategy>, candles: seq<Candle>) returns (i: nat)
    requires exists k | 0 <= k < |strategies| :: Breaks(strategies[k], candles)
    ensures i < |strategies| && FirstBreak(strategies, candles, i)
  {
    i := 0;
    while !Breaks(strategies[i], candles)
      invariant i < |strategies| && forall j | 0 <= j < i :: !Breaks(strategies[j], candles)
      invariant exists k | i <= k < |strategies| :: Breaks(strategies[k], candles)
      decreases |strategies| - i
    {
      i := i + 1;
    }
  }

  /** The reviewed proposal is a trade exactly if the LLM asked for it in the direction of the first break. */
  lemma FinalTradeIff(cfg: AgentConfig, o: Observation, reply: Answer<Reply>, action: TradeAction)
    requires action != HOLD
    ensures var final := FinalProposal(cfg, o, reply);
      final.Returned? && final.value.action == action <==>
        && cfg.hasPlanner && reply.Returned? && reply.value.structured.Some?
        && WellFormedOrder(reply.value.structured.value, action)
        && FirstBreakIs(cfg.strategies, o.candles, action)
        && (reply.value.structured.value.volume.Number? || cfg.defaultVolume > 0.0)
    ensures var final := FinalProposal(cfg, o, reply);
      final.Returned? && final.value.action == action ==>
        final.value == OrderedTrade(cfg, o, reply.value.structured.value, action)
  {
    var input := InputFor(cfg, o);
    PrimaryDirection(cfg, o);
    ActionableIff(input, reply, action);
    if ProposalFor(cfg, o, reply).action == action && cfg.hasPlanner {
      PlannedTrade(input, reply);
    }
  }

  /** Without an LLM every proposal is an empty HOLD of the primary signal's strategy. */
  lemma NoPlannerHolds(cfg: AgentConfig, o: Observation, reply: Answer<Reply>)
    requires !cfg.hasPlanner
    ensures var p := ProposalFor(cfg, o, reply);
      && p.action == HOLD && p.symbol == o.symbol && p.strategy == PrimarySignal(cfg, o).strategy
      && p.confidence == 0.0 && p.riskPct == 0.0
      && p.entry.None? && p.stopLoss.None? && p.takeProfit.None? && p.volume.None?
      && FinalProposal(cfg, o, reply) == Returned(p)
  {
  }

  /**
    * Exactly when a cycle's order goes to the executor: nothing it met failed on the way, the LLM asked for a
    * well-formed trade, the first structure break goes its way, and the observed market and the verdicts so far
    * pass every gate. The order is then that very trade.
    */
  lemma OrderIff(cfg: AgentConfig, w: World, s: CycleScript)
    ensures Executed(cfg, w, s) <==>
      && Planned(cfg, w, s) && s.reviewFault.NoFault? && !s.executeFault.Before?
      && (OrderWanted(cfg, w, s, BUY) || OrderWanted(cfg, w, s, SELL))
    ensures Executed(cfg, w, s) ==>
      var p := DecisionOf(cfg, w, s).proposal;
      OrderWanted(cfg, w, s, p.action)
      && p == OrderedTrade(cfg, s.observe.value, s.reply.value.structured.value, p.action)
  {
    if s.observe.Returned? {
      FinalTradeIff(cfg, s.observe.value, s.reply, BUY);
      FinalTradeIff(cfg, s.observe.value, s.reply, SELL);
      if FinalProposal(cfg, s.observe.value, s.reply).Returned? {
        DecisionApprovedIff(cfg, w, s);
      }
    }
  }

  /** With the strategies the agent is started with, the baseline and one Donchian reader, the break is the latter's. */
  lemma OrderNeedsThatBreak(cfg: AgentConfig, w: World, s: CycleScript, params: Params)
    requires Executed(cfg, w, s) && cfg.strategies == [NullStrategy, DonchianBreakout(params)]
    ensures var candles := s.observe.value.candles;
      if DecisionOf(cfg, w, s).proposal.action == BUY then BreaksUp(params, candles) else BreaksDown(params, candles)
  {
    NoOrderWithoutBreakout(cfg, w, s);
  }

  /**
    * Spread and stop distance, in points of the observed symbol, within their limits; a known, tolerable
    * realized loss; no open position on the same side.
    */
  predicate FitsMarket(cfg: RiskConfig, o: Observation, p: TradeProposal) {
    && p.entry.Some? && p.stopLoss.Some?
    && (cfg.maxSpreadPoints.Some? ==>
          PointKnown(o) && (o.tick.value.ask - o.tick.value.bid) / o.point.value <= cfg.maxSpreadPoints.value)
    && (cfg.minStopPoints > 0.0 ==>
          PointKnown(o) && Abs(p.entry.value - p.stopLoss.value) / o.point.value >= cfg.minStopPoints)
    && o.account.dayRealizedPnl.Some?
    && o.account.dayRealizedPnl.value > -(o.account.balance * cfg.maxDailyLossPct / 100.0)
    && (forall i | 0 <= i < |o.positions| && o.positions[i].symbol == o.symbol ::
          o.positions[i].side != (if p.action == BUY then Buy else Sell))
  }

  predicate PointKnown(o: Observation) {
    o.tick.Some? && o.point.Some? && o.point.value > 0.0
  }

  lemma ApprovalFitsMarket(
    cfg: RiskConfig, ledger: seq<DecisionRecord>, o: Observation, p: TradeProposal, now: real, at: real)
    requires p.action != HOLD && p.symbol == o.symbol && p.entry.Some? && p.stopLoss.Some?
    requires Decide(cfg, ledger, p, RiskContextFor(o, now), at).approved
    ensures FitsMarket(cfg, o, p)
  {
    ApprovedIffGatesPassed(p, WithHistory(RiskContextFor(o, now), ledger), cfg, at);
  }

  /** Every order respects the market its own cycle observed. */
  lemma OrderFitsMarket(cfg: AgentConfig, w: World, s: CycleScript)
    requires Executed(cfg, w, s)
    ensures FitsMarket(cfg.risk, s.observe.value, DecisionOf(cfg, w, s).proposal)
  {
    NoOrderWithoutBreakout(cfg, w, s);
    ApprovalFitsMarket(cfg.risk, w.verdicts, s.observe.value, DecisionOf(cfg, w, s).proposal, s.serverTime,
                       s.decidedAt);
  }
}
