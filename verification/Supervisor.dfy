/** The supervisor: every verdict it records feeds back into its later verdicts. */
module SupervisorBoundary {
  import opened Planner
  import opened Risk

  datatype SupervisorDecision = SupervisorDecision(
    approved: bool, proposal: TradeProposal, result: ValidationResult, decidedAt: real)

  /** The context the rules see: the caller's own history followed by the ledger. */
  function WithHistory(ctx: RiskContext, ledger: seq<DecisionRecord>): RiskContext {
    ctx.(recentDecisions := ctx.recentDecisions + ledger)
  }

  function Decide(cfg: RiskConfig, ledger: seq<DecisionRecord>, p: TradeProposal, ctx: RiskContext, at: real)
    : SupervisorDecision
  {
    var result := Verdict(p, WithHistory(ctx, ledger), cfg, at);
    SupervisorDecision(result.approved, p, result, at)
  }

  function RecordOf(d: SupervisorDecision): DecisionRecord {
    DecisionRecord(d.proposal.symbol, d.proposal.action, d.approved, d.decidedAt)
  }

  /** HOLD verdicts are not recorded. */
  function Recorded(ledger: seq<DecisionRecord>, d: SupervisorDecision): seq<DecisionRecord> {
    if d.proposal.action == HOLD then ledger else ledger + [RecordOf(d)]
  }

  class Supervisor {
    const config: RiskConfig
    var ledger: seq<DecisionRecord>

    constructor (config: RiskConfig)
      ensures this.config == config && ledger == []
    {
      this.config := config;
      ledger := [];
    }

    /** Validation alone leaves the ledger as it is. */
    method Check(p: TradeProposal, ctx: RiskContext, now: real) returns (result: ValidationResult)
      ensures result == Decide(config, ledger, p, ctx, now).result
    {
      result := Validate(p, WithHistory(ctx, ledger), config, now);
    }

    method Review(p: TradeProposal, ctx: RiskContext, now: real) returns (decision: SupervisorDecision)
      modifies this
      ensures decision == Decide(config, old(ledger), p, ctx, now)
      ensures ledger == Recorded(old(ledger), decision)
      ensures decision.proposal == p && decision.decidedAt == now && decision.approved == decision.result.approved
      ensures p.action == HOLD ==> ledger == old(ledger)
      ensures p.action != HOLD ==>
        ledger == old(ledger) + [DecisionRecord(p.symbol, p.action, decision.approved, now)]
    {
      var result := Validate(p, WithHistory(ctx, ledger), config, now);
      if p.action != HOLD {
        ledger := ledger + [DecisionRecord(p.symbol, p.action, result.approved, now)];
      }
      decision := SupervisorDecision(result.approved, p, result, now);
    }
  }

  // ---- What one review means ---------------------------------------------------------------------

  /** A review approves a trade exactly if the context passes every gate and neither history disturbs the trade. */
  lemma ReviewApprovesIff(
    cfg: RiskConfig, ledger: seq<DecisionRecord>, p: TradeProposal, ctx: RiskContext, at: real)
    ensures var d := Decide(cfg, ledger, p, ctx, at);
      && d.proposal == p && d.decidedAt == at && d.result.checkedAt == at && d.result.approved == d.approved
      && (d.approved <==>
            || p.action == HOLD
            || (GatesPassed(p, ctx, cfg)
                && forall i | 0 <= i < |ledger| :: Undisturbed(p, ledger[i], ctx.serverTime, cfg)))
  {
    if p.action != HOLD {
      ApprovedIffGatesPassed(p, WithHistory(ctx, ledger), cfg, at);
      GatesSeen(cfg, ledger, p, ctx);
    }
  }

  lemma GatesSeen(cfg: RiskConfig, ledger: seq<DecisionRecord>, p: TradeProposal, ctx: RiskContext)
    ensures GatesPassed(p, WithHistory(ctx, ledger), cfg) <==>
      && GatesPassed(p, ctx, cfg)
      && forall i | 0 <= i < |ledger| :: Undisturbed(p, ledger[i], ctx.serverTime, cfg)
  {
    var seen := WithHistory(ctx, ledger);
    UndisturbedByBoth(cfg, p, ctx.serverTime, ctx.recentDecisions, ledger, seen.recentDecisions);
    assert seen == ctx.(recentDecisions := seen.recentDecisions);
  }

  lemma UndisturbedByBoth(
    cfg: RiskConfig, p: TradeProposal, now: real, own: seq<DecisionRecord>, ledger: seq<DecisionRecord>,
    all: seq<DecisionRecord>)
    requires all == own + ledger
    ensures (forall i | 0 <= i < |all| :: Undisturbed(p, all[i], now, cfg)) <==>
      && (forall i | 0 <= i < |own| :: Undisturbed(p, own[i], now, cfg))
      && (forall i | 0 <= i < |ledger| :: Undisturbed(p, ledger[i], now, cfg))
  {
    assert forall i | 0 <= i < |own| :: all[i] == own[i];
    assert forall i | 0 <= i < |ledger| :: all[|own| + i] == ledger[i];
  }

  // ---- What one review rules out -----------------------------------------------------------------

  /** `later`, approved, keeps its distance from the earlier record `r`. */
  predicate KeepsDistance(cfg: RiskConfig, r: DecisionRecord, later: DecisionRecord) {
    && (cfg.duplicateWindow > 0.0 && r.approved && r.symbol == later.symbol && r.action == later.action
        ==> later.at - r.at > cfg.duplicateWindow)
    && (cfg.cooldown > 0.0 && r.symbol == later.symbol ==> later.at - r.at >= cfg.cooldown)
  }

  /** An approved trade keeps its distance from everything already in the ledger. */
  lemma ApprovalKeepsDistance(
    cfg: RiskConfig, ledger: seq<DecisionRecord>, p: TradeProposal, ctx: RiskContext, at: real, r: DecisionRecord)
    requires p.action != HOLD && Decide(cfg, ledger, p, ctx, at).approved
    requires r in ledger && r.at <= ctx.serverTime <= at
    ensures KeepsDistance(cfg, r, RecordOf(Decide(cfg, ledger, p, ctx, at)))
  {
    var seen := WithHistory(ctx, ledger);
    ApprovedIff(p, seen, cfg, at);
    assert !Breaches(DuplicateTrade, p, seen, cfg) && !Breaches(CooldownActive, p, seen, cfg);
    var k :| 0 <= k < |ledger| && ledger[k] == r;
    assert seen.recentDecisions[|ctx.recentDecisions| + k] == r;
    assert !InCooldown(p, r, ctx.serverTime, cfg.cooldown);
    assert cfg.duplicateWindow > 0.0 ==> !RecentlyApproved(p, r, ctx.serverTime, cfg.duplicateWindow);
  }

  /** A record on the same symbol younger than the cooldown is enough to reject, whatever its verdict was. */
  lemma RecentRecordRejects(
    cfg: RiskConfig, ledger: seq<DecisionRecord>, p: TradeProposal, ctx: RiskContext, at: real, r: DecisionRecord)
    requires p.action != HOLD && r in ledger && InCooldown(p, r, ctx.serverTime, cfg.cooldown)
    ensures !Decide(cfg, ledger, p, ctx, at).approved
  {
    var seen := WithHistory(ctx, ledger);
    ApprovedIff(p, seen, cfg, at);
    var k :| 0 <= k < |ledger| && ledger[k] == r;
    assert seen.recentDecisions[|ctx.recentDecisions| + k] == r;
    assert Breaches(CooldownActive, p, seen, cfg);
  }

  /** The growing ledger can only turn approvals into rejections. */
  lemma LongerLedgerOnlyRejects(
    cfg: RiskConfig, older: seq<DecisionRecord>, ledger: seq<DecisionRecord>,
    p: TradeProposal, ctx: RiskContext, at: real)
    requires multiset(older) <= multiset(ledger)
    requires Decide(cfg, ledger, p, ctx, at).approved
    ensures Decide(cfg, older, p, ctx, at).approved
  {
    assert multiset(ctx.recentDecisions + older) <= multiset(ctx.recentDecisions + ledger);
    ApprovalMonotone(p, WithHistory(ctx, ledger), WithHistory(ctx, older), cfg, cfg, at);
  }

  // ---- Runs of reviews ---------------------------------------------------------------------------

  datatype ReviewCall = ReviewCall(proposal: TradeProposal, ctx: RiskContext, now: real)

  /** The ledger after a run of reviews by a fresh supervisor. */
  function LedgerAfter(cfg: RiskConfig, calls: seq<ReviewCall>): seq<DecisionRecord>
    decreases |calls|, 0
  {
    if calls == [] then [] else
      var n := |calls| - 1;
      Recorded(LedgerAfter(cfg, calls[..n]), DecisionAt(cfg, calls, n))
  }

  /** The verdict on the `k`-th call of the run. */
  function DecisionAt(cfg: RiskConfig, calls: seq<ReviewCall>, k: nat): SupervisorDecision
    requires k < |calls|
    decreases k, 1
  {
    Decide(cfg, LedgerAfter(cfg, calls[..k]), calls[k].proposal, calls[k].ctx, calls[k].now)
  }

  /** One clock: a context is read before its verdict is timed, and after the previous one was. */
  predicate Clocked(calls: seq<ReviewCall>) {
    && (forall k | 0 <= k < |calls| :: calls[k].ctx.serverTime <= calls[k].now)
    && (forall j, k | 0 <= j < k < |calls| :: calls[j].now <= calls[k].ctx.serverTime)
  }

  /** Every approved record keeps its distance from every earlier one. */
  predicate Spaced(cfg: RiskConfig, ledger: seq<DecisionRecord>) {
    forall i, j | 0 <= i < j < |ledger| && ledger[j].approved :: KeepsDistance(cfg, ledger[i], ledger[j])
  }

  lemma ReviewKeepsSpacing(
    cfg: RiskConfig, ledger: seq<DecisionRecord>, p: TradeProposal, ctx: RiskContext, at: real)
    requires Spaced(cfg, ledger)
    requires (forall r | r in ledger :: r.at <= ctx.serverTime) && ctx.serverTime <= at
    ensures var after := Recorded(ledger, Decide(cfg, ledger, p, ctx, at));
      Spaced(cfg, after) && forall r | r in after :: r.at <= at
  {
    var d := Decide(cfg, ledger, p, ctx, at);
    if p.action != HOLD && d.approved {
      forall r | r in ledger
        ensures KeepsDistance(cfg, r, RecordOf(d))
      {
        ApprovalKeepsDistance(cfg, ledger, p, ctx, at, r);
      }
    }
  }

  /** Verdict spacing over every clocked run. */
  lemma {:induction false} RunIsSpaced(cfg: RiskConfig, calls: seq<ReviewCall>)
    requires Clocked(calls)
    ensures Spaced(cfg, LedgerAfter(cfg, calls))
    ensures forall r | r in LedgerAfter(cfg, calls) :: |calls| > 0 && r.at <= calls[|calls| - 1].now
  {
    if calls != [] {
      var n := |calls| - 1;
      RunIsSpaced(cfg, calls[..n]);
      var ledger := LedgerAfter(cfg, calls[..n]);
      forall r | r in ledger
        ensures r.at <= calls[n].ctx.serverTime
      {
        assert n > 0 && calls[..n][n - 1] == calls[n - 1];
      }
      ReviewKeepsSpacing(cfg, ledger, calls[n].proposal, calls[n].ctx, calls[n].now);
    }
  }

  /** Every non-HOLD call of the run is in the ledger, with its own verdict. */
  lemma {:induction false} CallIsRecorded(cfg: RiskConfig, calls: seq<ReviewCall>, k: nat)
    requires k < |calls| && calls[k].proposal.action != HOLD
    ensures RecordOf(DecisionAt(cfg, calls, k)) in LedgerAfter(cfg, calls)
  {
    var n := |calls| - 1;
    if k < n {
      CallIsRecorded(cfg, calls[..n], k);
      assert calls[..n][..k] == calls[..k];
    }
  }

  /** A proposal on `symbol` comes less than a cooldown after an earlier one on it. */
  predicate TooSoon(cfg: RiskConfig, calls: seq<ReviewCall>, symbol: string, k: nat)
    requires k < |calls|
  {
    exists j | 0 <= j < k ::
      && calls[j].proposal.action != HOLD && calls[j].proposal.symbol == symbol
      && calls[k].ctx.serverTime - calls[j].now < cfg.cooldown
  }

  /**
    * Starvation: rejections are recorded too, so a symbol on which every proposal but the first comes
    * too soon after another is never approved again.
    */
  lemma CooldownStarves(cfg: RiskConfig, calls: seq<ReviewCall>, symbol: string, k: nat)
    requires Clocked(calls) && k < |calls|
    requires calls[k].proposal.action != HOLD && calls[k].proposal.symbol == symbol
    requires TooSoon(cfg, calls, symbol, k)
    ensures !DecisionAt(cfg, calls, k).approved
  {
    var j :| 0 <= j < k && calls[j].proposal.action != HOLD && calls[j].proposal.symbol == symbol
             && calls[k].ctx.serverTime - calls[j].now < cfg.cooldown;
    CallIsRecorded(cfg, calls[..k], j);
    assert calls[..k][..j] == calls[..j];
    RecentRecordRejects(cfg, LedgerAfter(cfg, calls[..k]), calls[k].proposal, calls[k].ctx, calls[k].now,
                        RecordOf(DecisionAt(cfg, calls, j)));
  }

  /** In a run that is always too soon, at most the first proposal on the symbol is approved. */
  lemma AtMostFirstApproved(cfg: RiskConfig, calls: seq<ReviewCall>, symbol: string, i: nat, k: nat)
    requires Clocked(calls) && i < k < |calls|
    requires calls[i].proposal.action != HOLD && calls[i].proposal.symbol == symbol
    requires calls[k].proposal.action != HOLD && calls[k].proposal.symbol == symbol
    requires forall m | 0 < m < |calls| && calls[m].proposal.action != HOLD && calls[m].proposal.symbol == symbol ::
      (exists j | 0 <= j < m :: calls[j].proposal.action != HOLD && calls[j].proposal.symbol == symbol)
      ==> TooSoon(cfg, calls, symbol, m)
    ensures !DecisionAt(cfg, calls, k).approved
  {
    CooldownStarves(cfg, calls, symbol, k);
  }

  function NonHolds(calls: seq<ReviewCall>): (r: seq<ReviewCall>)
    ensures forall c | c in r :: c in calls && c.proposal.action != HOLD
  {
    if calls == [] then [] else
      var n := |calls| - 1;
      NonHolds(calls[..n]) + (if calls[n].proposal.action == HOLD then [] else [calls[n]])
  }

  /** Interleaved HOLDs change nothing. */
  lemma {:induction false} HoldsChangeNothing(cfg: RiskConfig, calls: seq<ReviewCall>)
    ensures LedgerAfter(cfg, calls) == LedgerAfter(cfg, NonHolds(calls))
  {
    if calls != [] {
      var n := |calls| - 1;
      HoldsChangeNothing(cfg, calls[..n]);
      var kept := NonHolds(calls[..n]);
      if calls[n].proposal.action != HOLD {
        assert NonHolds(calls) == kept + [calls[n]] && NonHolds(calls)[..|kept|] == kept;
        assert DecisionAt(cfg, calls, n) == DecisionAt(cfg, NonHolds(calls), |kept|);
      } else {
        assert NonHolds(calls) == kept;
      }
    }
  }
}
