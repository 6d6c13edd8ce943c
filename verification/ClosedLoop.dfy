/** The agent in a loop with its account: exposure safety and the order rate, over every run of cycles. */
module ClosedLoop {
  import opened Common
  import opened Market
  import opened Planner
  import opened Risk
  import opened SupervisorBoundary
  import opened Executor
  import opened ExecutorLaws
  import opened Agent
  import opened CycleLaws

  // ---- The account -------------------------------------------------------------------------------

  /** What the market, the broker or the operator may do to open positions; ill-formed steps do nothing. */
  datatype AccountStep = Close(index: nat) | Reduce(index: nat, volume: real)

  function ApplyStep(positions: seq<Position>, step: AccountStep): seq<Position> {
    if step.index >= |positions| then positions else
    match step
    case Close(i) => Without(positions, i)
    case Reduce(i, volume) =>
      if 0.0 < volume <= positions[i].volume then positions[i := positions[i].(volume := volume)] else positions
  }

  function ApplyAll(positions: seq<Position>, steps: seq<AccountStep>): seq<Position>
    decreases |steps|
  {
    if steps == [] then positions else ApplyAll(ApplyStep(positions, steps[0]), steps[1..])
  }

  lemma {:induction false} StepsOnlyShrink(positions: seq<Position>, steps: seq<AccountStep>)
    ensures var after := ApplyAll(positions, steps);
      |after| <= |positions| && Gross(after) <= Gross(positions)
    decreases |steps|
  {
    if steps != [] {
      var step, next := steps[0], ApplyStep(positions, steps[0]);
      if next != positions {
        GrossWithout(positions, step.index);
        if step.Reduce? {
          GrossWithout(next, step.index);
          assert Without(next, step.index) == Without(positions, step.index);
        }
      }
      StepsOnlyShrink(next, steps[1..]);
    }
  }

  predicate WithinLimits(cfg: RiskConfig, positions: seq<Position>) {
    |positions| <= cfg.maxOpenPositions && Gross(positions) <= cfg.maxExposureVolume
  }

  // ---- Runs of cycles ----------------------------------------------------------------------------

  /**
    * One cycle and the account around it: `before` happens between the observation and the fill, `after`
    * between the fill and the next observation.
    */
  datatype Turn = Turn(
    symbol: string, script: CycleScript, before: seq<AccountStep>, fill: Option<Position>, after: seq<AccountStep>)

  function WorldAfter(cfg: AgentConfig, w: World, turns: seq<Turn>): World {
    if turns == [] then w else
      var n := |turns| - 1;
      Cycle(cfg, WorldAfter(cfg, w, turns[..n]), turns[n].symbol, turns[n].script).0
  }

  /** The orders that went out between two states of the executor. */
  function SentBetween(earlier: ExecState, later: ExecState): seq<Payload> {
    if |later.attempts| > |earlier.attempts| then Sends(later.attempts[|earlier.attempts|].calls) else []
  }

  function AtFill(positions: seq<Position>, turn: Turn): seq<Position> {
    ApplyAll(positions, turn.before) + (if turn.fill.Some? then [turn.fill.value] else [])
  }

  function PositionsAfter(positions: seq<Position>, turns: seq<Turn>): seq<Position> {
    if turns == [] then positions else
      var n := |turns| - 1;
      ApplyAll(AtFill(PositionsAfter(positions, turns[..n]), turns[n]), turns[n].after)
  }

  /**
    * The account plays by the rules in this turn: the observation, if there is one, shows its positions in
    * some order, and a position appears only for an order sent in this very cycle, at most as large.
    */
  predicate Honest(cfg: AgentConfig, w: World, positions: seq<Position>, turn: Turn) {
    && (turn.script.observe.Returned? ==> multiset(turn.script.observe.value.positions) == multiset(positions))
    && Backed(turn, SentBetween(w.exec, Cycle(cfg, w, turn.symbol, turn.script).0.exec))
  }

  /** A fill belongs to an order that was sent, and is at most as large. */
  predicate Backed(turn: Turn, sent: seq<Payload>) {
    turn.fill.Some? ==> exists i | 0 <= i < |sent| :: turn.fill.value.volume <= sent[i].volume
  }

  predicate HonestRun(cfg: AgentConfig, w: World, positions: seq<Position>, turns: seq<Turn>) {
    forall k | 0 <= k < |turns| ::
      Honest(cfg, WorldAfter(cfg, w, turns[..k]), PositionsAfter(positions, turns[..k]), turns[k])
  }

  /** A cycle sends at most one order, and only one that fits beside the observed positions. */
  lemma SentOrderFits(cfg: AgentConfig, w: World, symbol: string, s: CycleScript)
    ensures var sent := SentBetween(w.exec, Cycle(cfg, w, symbol, s).0.exec);
      && |sent| <= 1
      && (sent != [] ==>
            && Executed(cfg, w, s)
            && sent[0].volume == OrElse(DecisionOf(cfg, w, s).proposal.volume, 0.0)
            && |s.observe.value.positions| < cfg.risk.maxOpenPositions
            && Gross(s.observe.value.positions) + sent[0].volume <= cfg.risk.maxExposureVolume)
  {
    CycleEffects(cfg, w, symbol, s);
    if Executed(cfg, w, s) {
      ExecuteSends(cfg.exec, w.exec, DecisionOf(cfg, w, s), KeyOf(Some(s.cycleId), s.freshId), s.terminal);
      DecisionFits(cfg, w, s);
    }
  }

  /** The decision that is executed names its volume, and fits beside the observed positions. */
  lemma DecisionFits(cfg: AgentConfig, w: World, s: CycleScript)
    requires Executed(cfg, w, s)
    ensures var volume := DecisionOf(cfg, w, s).proposal.volume;
      && volume.Some?
      && |s.observe.value.positions| < cfg.risk.maxOpenPositions
      && Gross(s.observe.value.positions) + OrElse(volume, 0.0) <= cfg.risk.maxExposureVolume
  {
    NoOrderWithoutBreakout(cfg, w, s);
    var o := s.observe.value;
    ApprovalFits(cfg.risk, w.verdicts, DecisionOf(cfg, w, s).proposal, RiskContextFor(o, s.serverTime), s.decidedAt);
  }

  lemma ApprovalFits(
    cfg: RiskConfig, ledger: seq<DecisionRecord>, p: TradeProposal, ctx: RiskContext, at: real)
    requires p.action != HOLD && Decide(cfg, ledger, p, ctx, at).approved
    ensures |ctx.positions| < cfg.maxOpenPositions
    ensures Gross(ctx.positions) + OrElse(p.volume, 0.0) <= cfg.maxExposureVolume
  {
    var seen := WithHistory(ctx, ledger);
    ApprovedIff(p, seen, cfg, at);
    assert !Breaches(MaxPositionsExceeded, p, seen, cfg);
    assert !Breaches(MaxExposureExceeded, p, seen, cfg);
  }

  /** One execution sends nothing, or exactly the reviewed order. */
  lemma ExecuteSends(cfg: ExecConfig, st: ExecState, d: SupervisorDecision, key: string, t: TerminalScript)
    ensures var sent := SentBetween(st, Execute(cfg, st, d, key, t).0);
      sent == [] || (&& GatesOpen(cfg, st.loaded, d, key, t)
                     && sent == [OrderFor(cfg, d, key, t)]
                     && sent[0].volume == OrElse(d.proposal.volume, cfg.defaultVolume))
  {
    SendsIffGatesOpen(cfg, st.loaded, d, key, t);
  }

  /** One turn keeps the account within its limits, at the moment of the fill and afterwards. */
  lemma TurnStaysWithin(cfg: AgentConfig, w: World, positions: seq<Position>, turn: Turn)
    requires WithinLimits(cfg.risk, positions) && Honest(cfg, w, positions, turn)
    ensures WithinLimits(cfg.risk, AtFill(positions, turn))
    ensures WithinLimits(cfg.risk, ApplyAll(AtFill(positions, turn), turn.after))
  {
    SentOrderFits(cfg, w, turn.symbol, turn.script);
    TurnWithin(cfg.risk, positions, turn, SentBetween(w.exec, Cycle(cfg, w, turn.symbol, turn.script).0.exec));
  }

  lemma TurnWithin(cfg: RiskConfig, positions: seq<Position>, turn: Turn, sent: seq<Payload>)
    requires WithinLimits(cfg, positions) && Backed(turn, sent) && |sent| <= 1
    requires turn.script.observe.Returned? ==> multiset(turn.script.observe.value.positions) == multiset(positions)
    requires sent != [] ==>
      && turn.script.observe.Returned?
      && |turn.script.observe.value.positions| < cfg.maxOpenPositions
      && Gross(turn.script.observe.value.positions) + sent[0].volume <= cfg.maxExposureVolume
    ensures WithinLimits(cfg, AtFill(positions, turn))
    ensures WithinLimits(cfg, ApplyAll(AtFill(positions, turn), turn.after))
  {
    StepsOnlyShrink(positions, turn.before);
    if turn.fill.Some? {
      FillFits(cfg, positions, turn, sent[0].volume);
    } else {
      assert AtFill(positions, turn) == ApplyAll(positions, turn.before);
    }
    StepsOnlyShrink(AtFill(positions, turn), turn.after);
  }

  /** A fill no larger than an order that fits beside the observed positions fits beside what is left of them. */
  lemma FillFits(cfg: RiskConfig, positions: seq<Position>, turn: Turn, volume: real)
    requires turn.fill.Some? && turn.fill.value.volume <= volume && turn.script.observe.Returned?
    requires multiset(turn.script.observe.value.positions) == multiset(positions)
    requires |turn.script.observe.value.positions| < cfg.maxOpenPositions
    requires Gross(turn.script.observe.value.positions) + volume <= cfg.maxExposureVolume
    ensures WithinLimits(cfg, AtFill(positions, turn))
  {
    StepsOnlyShrink(positions, turn.before);
    FewerPositions(positions, turn.script.observe.value.positions);
    GrossConcat(ApplyAll(positions, turn.before), [turn.fill.value]);
  }

  /** Honesty of a run is honesty of its beginnings. */
  lemma HonestPrefix(cfg: AgentConfig, w: World, positions: seq<Position>, turns: seq<Turn>, n: nat)
    requires n <= |turns| && HonestRun(cfg, w, positions, turns)
    ensures HonestRun(cfg, w, positions, turns[..n])
  {
    forall k | 0 <= k < n
      ensures Honest(cfg, WorldAfter(cfg, w, turns[..n][..k]), PositionsAfter(positions, turns[..n][..k]),
                     turns[..n][k])
    {
      assert turns[..n][..k] == turns[..k];
    }
  }

  /** The account is within its limits before, between and after the turns, and at the moment of every fill. */
  predicate AlwaysWithin(cfg: RiskConfig, positions: seq<Position>, turns: seq<Turn>) {
    && (forall k | 0 <= k <= |turns| :: WithinLimits(cfg, PositionsAfter(positions, turns[..k])))
    && (forall k | 0 <= k < |turns| :: WithinLimits(cfg, AtFill(PositionsAfter(positions, turns[..k]), turns[k])))
  }

  /** Exposure safety: no run of cycles, on any symbols, ever takes an account out of its limits. */
  lemma ExposureSafety(cfg: AgentConfig, w: World, positions: seq<Position>, turns: seq<Turn>)
    requires WithinLimits(cfg.risk, positions) && HonestRun(cfg, w, positions, turns)
    ensures AlwaysWithin(cfg.risk, positions, turns)
  {
    forall k | 0 <= k <= |turns|
      ensures WithinLimits(cfg.risk, PositionsAfter(positions, turns[..k]))
      ensures k < |turns| ==> WithinLimits(cfg.risk, AtFill(PositionsAfter(positions, turns[..k]), turns[k]))
    {
      HonestPrefix(cfg, w, positions, turns, k);
      EndsWithin(cfg, w, positions, turns[..k]);
      if k < |turns| {
        TurnStaysWithin(cfg, WorldAfter(cfg, w, turns[..k]), PositionsAfter(positions, turns[..k]), turns[k]);
      }
    }
  }

  lemma {:induction false} EndsWithin(cfg: AgentConfig, w: World, positions: seq<Position>, turns: seq<Turn>)
    requires WithinLimits(cfg.risk, positions) && HonestRun(cfg, w, positions, turns)
    ensures WithinLimits(cfg.risk, PositionsAfter(positions, turns))
  {
    if turns != [] {
      var n := |turns| - 1;
      HonestPrefix(cfg, w, positions, turns, n);
      EndsWithin(cfg, w, positions, turns[..n]);
      TurnStaysWithin(cfg, WorldAfter(cfg, w, turns[..n]), PositionsAfter(positions, turns[..n]), turns[n]);
    }
  }

  // ---- Every order has its cycle -----------------------------------------------------------------

  /**
    * The decision is the approved one of this cycle: a trade with an ordered bracket, for which the observed
    * candles show a structure break and which fits the observed market.
    */
  predicate Justified(cfg: AgentConfig, w: World, s: CycleScript, d: SupervisorDecision) {
    && Executed(cfg, w, s) && d == DecisionOf(cfg, w, s)
    && d.proposal.symbol == s.observe.value.symbol && BreakoutSeen(cfg, s.observe.value, d.proposal.action)
    && FitsMarket(cfg.risk, s.observe.value, d.proposal) && HasBracket(d.proposal)
  }

  predicate HasBracket(p: TradeProposal) {
    && p.entry.Some? && p.stopLoss.Some? && p.takeProfit.Some?
    && Bracketed(p.action, p.entry.value, p.stopLoss.value, p.takeProfit.value)
  }

  lemma ExecutedIsJustified(cfg: AgentConfig, w: World, s: CycleScript, d: SupervisorDecision)
    requires Executed(cfg, w, s) && d == DecisionOf(cfg, w, s)
    ensures Justified(cfg, w, s, d)
  {
    NoOrderWithoutBreakout(cfg, w, s);
    OrderFitsMarket(cfg, w, s);
  }

  /** A cycle keeps the attempts, and one that it adds is justified by it. */
  lemma CycleAddsAttempt(
    cfg: AgentConfig, w: World, symbol: string, s: CycleScript, attempts: seq<Attempt>, i: nat, d: SupervisorDecision)
    requires attempts == Cycle(cfg, w, symbol, s).0.exec.attempts
    requires i < |attempts| && d == attempts[i].decision
    ensures w.exec.attempts <= attempts
    ensures i >= |w.exec.attempts| ==> Justified(cfg, w, s, d)
  {
    AtMostOneExecution(cfg, w, symbol, s);
    if i >= |w.exec.attempts| {
      assert i == |w.exec.attempts|;
      ExecutedIsJustified(cfg, w, s, d);
    }
  }

  /** The last turn of a run, in the state that the others lead to. */
  lemma LastTurn(
    cfg: AgentConfig, w: World, turns: seq<Turn>, attempts: seq<Attempt>, i: nat, d: SupervisorDecision)
    returns (others: seq<Turn>, last: Turn, here: World)
    requires attempts == WorldAfter(cfg, w, turns).exec.attempts
    requires |w.exec.attempts| <= i < |attempts| && d == attempts[i].decision
    ensures turns == others + [last] && here == WorldAfter(cfg, w, others)
    ensures if i < |here.exec.attempts| then here.exec.attempts[i].decision == d
            else Justified(cfg, here, last.script, d)
  {
    var n := |turns| - 1;
    others, last := turns[..n], turns[n];
    here := WorldAfter(cfg, w, others);
    CycleAddsAttempt(cfg, here, last.symbol, last.script, attempts, i, d);
  }

  /**
    * No order without a breakout, over every run: the decision `d` of an attempt made in it is justified by some
    * cycle `turn`, in the state `there` that the `earlier` turns lead to.
    */
  lemma {:induction false} EveryAttemptIsJustified(
    cfg: AgentConfig, w: World, turns: seq<Turn>, attempts: seq<Attempt>, i: nat, d: SupervisorDecision)
    returns (earlier: seq<Turn>, turn: Turn, there: World)
    requires attempts == WorldAfter(cfg, w, turns).exec.attempts
    requires |w.exec.attempts| <= i < |attempts| && d == attempts[i].decision
    ensures earlier + [turn] <= turns && there == WorldAfter(cfg, w, earlier)
    ensures Justified(cfg, there, turn.script, d)
    decreases |turns|
  {
    var here;
    earlier, turn, here := LastTurn(cfg, w, turns, attempts, i, d);
    there := here;
    if i < |here.exec.attempts| {
      var before := earlier;
      earlier, turn, there := EveryAttemptIsJustified(cfg, w, before, here.exec.attempts, i, d);
      assert before <= turns;
    }
  }

  // ---- Order rate --------------------------------------------------------------------------------

  /** One clock: the context of a cycle is read before its verdict, and after the verdict of the cycle before. */
  predicate ClockedTurns(turns: seq<Turn>) {
    && (forall k | 0 <= k < |turns| :: turns[k].script.serverTime <= turns[k].script.decidedAt)
    && (forall j, k | 0 <= j < k < |turns| :: turns[j].script.decidedAt <= turns[k].script.serverTime)
  }

  function VerdictOf(a: Attempt): DecisionRecord {
    RecordOf(a.decision)
  }

  /** Every attempt was approved by a recorded verdict. */
  predicate AllRecorded(attempts: seq<Attempt>, verdicts: seq<DecisionRecord>) {
    forall i | 0 <= i < |attempts| :: VerdictOf(attempts[i]).approved && VerdictOf(attempts[i]) in verdicts
  }

  /** The verdicts of attempts keep their distance. */
  predicate AllSpaced(cfg: RiskConfig, attempts: seq<Attempt>) {
    forall i, j | 0 <= i < j < |attempts| :: KeepsDistance(cfg, VerdictOf(attempts[i]), VerdictOf(attempts[j]))
  }

  predicate Tracked(cfg: AgentConfig, w: World) {
    AllRecorded(w.exec.attempts, w.verdicts) && AllSpaced(cfg.risk, w.exec.attempts)
  }

  predicate NoneAfter(verdicts: seq<DecisionRecord>, t: real) {
    forall i | 0 <= i < |verdicts| :: verdicts[i].at <= t
  }

  lemma CycleKeepsTracked(cfg: AgentConfig, w: World, symbol: string, s: CycleScript)
    requires Tracked(cfg, w) && NoneAfter(w.verdicts, s.serverTime) && s.serverTime <= s.decidedAt
    ensures var after := Cycle(cfg, w, symbol, s).0; Tracked(cfg, after) && NoneAfter(after.verdicts, s.decidedAt)
  {
    CycleEffects(cfg, w, symbol, s);
    if Reviewed(cfg, w, s) {
      var d := DecisionOf(cfg, w, s);
      RecordedStays(w.exec.attempts, w.verdicts, d);
      if Executed(cfg, w, s) {
        var ctx := RiskContextFor(s.observe.value, s.serverTime);
        ExecutionStaysTracked(cfg, w, d, ctx, KeyOf(Some(s.cycleId), s.freshId), s.terminal);
      }
    }
  }

  lemma ExecutionStaysTracked(
    cfg: AgentConfig, w: World, d: SupervisorDecision, ctx: RiskContext, key: string, t: TerminalScript)
    requires Tracked(cfg, w) && NoneAfter(w.verdicts, ctx.serverTime)
    requires d == Decide(cfg.risk, w.verdicts, d.proposal, ctx, d.decidedAt) && d.approved && d.proposal.action != HOLD
    requires ctx.serverTime <= d.decidedAt
    ensures var attempts := Execute(cfg.exec, w.exec, d, key, t).0.attempts;
      AllRecorded(attempts, Recorded(w.verdicts, d)) && AllSpaced(cfg.risk, attempts)
  {
    var a := OneAttempt(cfg.exec, w.exec, d, key, t);
    AttemptIsSpaced(cfg.risk, w.verdicts, w.exec.attempts, a, ctx);
    AttemptIsRecorded(w.exec.attempts, w.verdicts, a);
    RecordedStays(w.exec.attempts, w.verdicts, d);
  }

  /** An execution adds one attempt at the given decision, or none. */
  lemma OneAttempt(cfg: ExecConfig, st: ExecState, d: SupervisorDecision, key: string, t: TerminalScript)
    returns (a: Attempt)
    ensures a.decision == d
    ensures var after := Execute(cfg, st, d, key, t).0.attempts; after == st.attempts || after == st.attempts + [a]
  {
    a := Run(cfg, st.loaded, d, key, t);
  }

  lemma RecordedStays(attempts: seq<Attempt>, verdicts: seq<DecisionRecord>, d: SupervisorDecision)
    requires AllRecorded(attempts, verdicts)
    ensures AllRecorded(attempts, Recorded(verdicts, d))
  {
  }

  lemma AttemptIsRecorded(attempts: seq<Attempt>, verdicts: seq<DecisionRecord>, a: Attempt)
    requires AllRecorded(attempts, verdicts) && a.decision.approved && a.decision.proposal.action != HOLD
    ensures AllRecorded(attempts + [a], Recorded(verdicts, a.decision))
  {
  }

  lemma AttemptIsSpaced(
    cfg: RiskConfig, verdicts: seq<DecisionRecord>, attempts: seq<Attempt>, a: Attempt, ctx: RiskContext)
    requires AllRecorded(attempts, verdicts) && AllSpaced(cfg, attempts) && NoneAfter(verdicts, ctx.serverTime)
    requires var d := a.decision;
      d == Decide(cfg, verdicts, d.proposal, ctx, d.decidedAt) && d.approved && d.proposal.action != HOLD
      && ctx.serverTime <= d.decidedAt
    ensures AllSpaced(cfg, attempts + [a])
  {
    forall i | 0 <= i < |attempts|
      ensures KeepsDistance(cfg, VerdictOf(attempts[i]), VerdictOf(a))
    {
      ApprovalKeepsDistance(cfg, verdicts, a.decision.proposal, ctx, a.decision.decidedAt, VerdictOf(attempts[i]));
    }
  }

  lemma {:induction false} RunIsTracked(cfg: AgentConfig, w: World, turns: seq<Turn>)
    requires ClockedTurns(turns) && w.verdicts == [] && w.exec.attempts == []
    ensures Tracked(cfg, WorldAfter(cfg, w, turns))
    ensures if turns == [] then WorldAfter(cfg, w, turns).verdicts == []
            else NoneAfter(WorldAfter(cfg, w, turns).verdicts, turns[|turns| - 1].script.decidedAt)
  {
    if turns != [] {
      var n := |turns| - 1;
      RunIsTracked(cfg, w, turns[..n]);
      assert n > 0 ==> turns[..n][n - 1] == turns[n - 1];
      CycleKeepsTracked(cfg, WorldAfter(cfg, w, turns[..n]), turns[n].symbol, turns[n].script);
    }
  }

  /** An attempt that sent an order for this symbol (and side, if one is given) on a verdict timed in lo..hi. */
  predicate Counts(a: Attempt, symbol: string, action: Option<TradeAction>, lo: real, hi: real) {
    && Sends(a.calls) != [] && VerdictOf(a).symbol == symbol
    && (action.Some? ==> VerdictOf(a).action == action.value) && lo <= VerdictOf(a).at <= hi
  }

  /** The verdict times of those attempts, in order: one entry per order sent. */
  function SendTimes(attempts: seq<Attempt>, symbol: string, action: Option<TradeAction>, lo: real, hi: real)
    : seq<real>
  {
    if attempts == [] then [] else
      var n := |attempts| - 1;
      SendTimes(attempts[..n], symbol, action, lo, hi)
      + (if Counts(attempts[n], symbol, action, lo, hi) then [VerdictOf(attempts[n]).at] else [])
  }

  predicate Gapped(times: seq<real>, gap: real) {
    forall i, j | 0 <= i < j < |times| :: times[j] - times[i] >= gap
  }

  lemma {:induction false} SendTimesGapped(
    cfg: RiskConfig, attempts: seq<Attempt>, symbol: string, action: Option<TradeAction>, lo: real, hi: real, gap: real)
    requires forall i | 0 <= i < |attempts| :: VerdictOf(attempts[i]).approved
    requires forall i, j | 0 <= i < j < |attempts| ::
      KeepsDistance(cfg, VerdictOf(attempts[i]), VerdictOf(attempts[j]))
    requires (action.Some? && gap == cfg.duplicateWindow > 0.0) || (action.None? && gap == cfg.cooldown > 0.0)
    ensures var times := SendTimes(attempts, symbol, action, lo, hi);
      && Gapped(times, gap)
      && (forall t | t in times :: lo <= t <= hi
            && exists i | 0 <= i < |attempts| ::
                 Counts(attempts[i], symbol, action, lo, hi) && VerdictOf(attempts[i]).at == t)
  {
    if attempts != [] {
      var n := |attempts| - 1;
      SendTimesGapped(cfg, attempts[..n], symbol, action, lo, hi, gap);
      var earlier := SendTimes(attempts[..n], symbol, action, lo, hi);
      forall t | t in earlier
        ensures exists i | 0 <= i < n :: Counts(attempts[i], symbol, action, lo, hi) && VerdictOf(attempts[i]).at == t
      {
        var i :| 0 <= i < |attempts[..n]| && Counts(attempts[..n][i], symbol, action, lo, hi)
                 && VerdictOf(attempts[..n][i]).at == t;
        assert attempts[..n][i] == attempts[i];
      }
      if Counts(attempts[n], symbol, action, lo, hi) {
        var now := VerdictOf(attempts[n]).at;
        forall k | 0 <= k < |earlier|
          ensures now - earlier[k] >= gap
        {
          assert earlier[k] in earlier;
          var i :| 0 <= i < n && Counts(attempts[i], symbol, action, lo, hi) && VerdictOf(attempts[i]).at == earlier[k];
          assert KeepsDistance(cfg, VerdictOf(attempts[i]), VerdictOf(attempts[n]));
        }
      }
    }
  }

  lemma {:induction false} GappedSpan(times: seq<real>, gap: real)
    requires Gapped(times, gap) && times != []
    ensures (|times| - 1) as real * gap <= times[|times| - 1] - times[0]
  {
    var n := |times| - 1;
    if n > 0 {
      GappedSpan(times[..n], gap);
      assert (n as real) * gap == ((n - 1) as real) * gap + gap;
    }
  }

  /** `n` events at least `gap` apart fit into `span`. */
  predicate Fits(n: nat, gap: real, span: real) {
    (n - 1) as real * gap <= span
  }

  lemma GappedFits(times: seq<real>, gap: real, lo: real, hi: real)
    requires Gapped(times, gap) && gap > 0.0 && lo <= hi && forall t | t in times :: lo <= t <= hi
    ensures Fits(|times|, gap, hi - lo)
  {
    if times != [] {
      GappedSpan(times, gap);
      assert times[0] in times && times[|times| - 1] in times;
    }
  }

  /**
    * Order rate: over any run from a fresh start, n orders for one symbol and side within T seconds satisfy
    * (n-1) * duplicate window <= T, and n orders for one symbol on either side (n-1) * cooldown <= T.
    */
  lemma OrderRate(
    cfg: AgentConfig, w: World, turns: seq<Turn>, attempts: seq<Attempt>,
    symbol: string, action: TradeAction, lo: real, hi: real)
    requires ClockedTurns(turns) && w.verdicts == [] && w.exec.attempts == [] && lo <= hi
    requires attempts == WorldAfter(cfg, w, turns).exec.attempts
    ensures cfg.risk.duplicateWindow > 0.0 ==>
      Fits(|SendTimes(attempts, symbol, Some(action), lo, hi)|, cfg.risk.duplicateWindow, hi - lo)
    ensures cfg.risk.cooldown > 0.0 ==>
      Fits(|SendTimes(attempts, symbol, None, lo, hi)|, cfg.risk.cooldown, hi - lo)
  {
    RunIsTracked(cfg, w, turns);
    if cfg.risk.duplicateWindow > 0.0 {
      SendTimesGapped(cfg.risk, attempts, symbol, Some(action), lo, hi, cfg.risk.duplicateWindow);
      GappedFits(SendTimes(attempts, symbol, Some(action), lo, hi), cfg.risk.duplicateWindow, lo, hi);
    }
    if cfg.risk.cooldown > 0.0 {
      SendTimesGapped(cfg.risk, attempts, symbol, None, lo, hi, cfg.risk.cooldown);
      GappedFits(SendTimes(attempts, symbol, None, lo, hi), cfg.risk.cooldown, lo, hi);
    }
  }
}
