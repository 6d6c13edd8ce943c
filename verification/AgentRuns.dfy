/** The agent's own loop as a run of turns: exposure safety, position sides and order rate for `TradingAgent.Run`. */
module AgentRuns {
  import opened Common
  import opened Market
  import opened Planner
  import opened SupervisorBoundary
  import opened Executor
  import opened Agent
  import opened ClosedLoop
  import opened PositionSides

  /** The turns feed the loop: the same scripts, and the symbols in turn. */
  predicate Feeds(turns: seq<Turn>, symbols: seq<string>, scripts: seq<CycleScript>) {
    && symbols != [] && |turns| == |scripts|
    && forall i | 0 <= i < |turns| :: turns[i].script == scripts[i] && turns[i].symbol == symbols[Slot(i, |symbols|)]
  }

  lemma NextWorld(cfg: AgentConfig, w: World, turns: seq<Turn>, done: nat) returns (next: World)
    requires done < |turns|
    ensures next == WorldAfter(cfg, w, turns[..done + 1])
    ensures next == Cycle(cfg, WorldAfter(cfg, w, turns[..done]), turns[done].symbol, turns[done].script).0
  {
    next := WorldAfter(cfg, w, turns[..done + 1]);
    assert turns[..done + 1][..done] == turns[..done];
  }

  /** One iteration of the loop is one turn. */
  lemma LoopTurn(
    cfg: AgentConfig, w: World, here: World, symbols: seq<string>, maxCycles: Option<int>, scripts: seq<CycleScript>,
    turns: seq<Turn>, done: nat, left: seq<CycleScript>) returns (next: World)
    requires Feeds(turns, symbols, scripts) && done <= |turns| && here == WorldAfter(cfg, w, turns[..done])
    requires left == scripts[done..] && !Stopped(cfg, here, maxCycles, done, left)
    ensures done < |turns| && left[1..] == scripts[done + 1..] && next == WorldAfter(cfg, w, turns[..done + 1])
    ensures var whole := RunFrom(cfg, here, symbols, maxCycles, done, left);
      var rest := RunFrom(cfg, next, symbols, maxCycles, done + 1, left[1..]);
      whole.0 == rest.0 && |whole.1| == 1 + |rest.1|
  {
    next := NextWorld(cfg, w, turns, done);
    assert turns[done].script == left[0] && turns[done].symbol == symbols[Slot(done, |symbols|)];
  }

  /** From any point on, the loop's state is that after as many more turns as it ran cycles. */
  lemma {:induction false} LoopFollowsTurns(
    cfg: AgentConfig, w: World, here: World, symbols: seq<string>, maxCycles: Option<int>, scripts: seq<CycleScript>,
    turns: seq<Turn>, done: nat, left: seq<CycleScript>) returns (n: nat)
    requires Feeds(turns, symbols, scripts) && done <= |turns| && here == WorldAfter(cfg, w, turns[..done])
    requires left == scripts[done..]
    ensures done <= n <= |turns| && n == done + |RunFrom(cfg, here, symbols, maxCycles, done, left).1|
    ensures RunFrom(cfg, here, symbols, maxCycles, done, left).0 == WorldAfter(cfg, w, turns[..n])
    decreases |left|
  {
    if Stopped(cfg, here, maxCycles, done, left) {
      n := done;
    } else {
      var next := LoopTurn(cfg, w, here, symbols, maxCycles, scripts, turns, done, left);
      n := LoopFollowsTurns(cfg, w, next, symbols, maxCycles, scripts, turns, done + 1, left[1..]);
    }
  }

  /** The run that the agent's loop makes is the run of its first turns, one for each cycle. */
  lemma LoopIsTurns(
    cfg: AgentConfig, w: World, symbols: seq<string>, maxCycles: Option<int>, scripts: seq<CycleScript>,
    turns: seq<Turn>) returns (n: nat)
    requires Feeds(turns, symbols, scripts)
    ensures n == |RunFrom(cfg, w, symbols, maxCycles, 0, scripts).1| && n <= |turns|
    ensures RunFrom(cfg, w, symbols, maxCycles, 0, scripts).0 == WorldAfter(cfg, w, turns[..n])
  {
    assert turns[..0] == [] && scripts[0..] == scripts;
    n := LoopFollowsTurns(cfg, w, w, symbols, maxCycles, scripts, turns, 0, scripts);
  }

  /** After `k` turns there is another script, `maxCycles` is not reached, and the watchdog lets a cycle start. */
  predicate Goes(cfg: AgentConfig, w: World, maxCycles: Option<int>, turns: seq<Turn>, k: nat) {
    && k < |turns| && (maxCycles.Some? ==> k < maxCycles.value)
    && !Halted(cfg, WorldAfter(cfg, w, turns[..k]), turns[k].script.startedAt)
  }

  /** The loop goes on from `done` up to `n`, and no further. */
  predicate GoesFromTo(cfg: AgentConfig, w: World, maxCycles: Option<int>, turns: seq<Turn>, done: nat, n: nat) {
    && done <= n && !Goes(cfg, w, maxCycles, turns, n)
    && forall k | done <= k < n :: Goes(cfg, w, maxCycles, turns, k)
  }

  lemma GoesIff(
    cfg: AgentConfig, w: World, here: World, symbols: seq<string>, maxCycles: Option<int>, scripts: seq<CycleScript>,
    turns: seq<Turn>, k: nat, left: seq<CycleScript>)
    requires Feeds(turns, symbols, scripts) && k <= |turns| && here == WorldAfter(cfg, w, turns[..k])
    requires left == scripts[k..]
    ensures Goes(cfg, w, maxCycles, turns, k) <==> !Stopped(cfg, here, maxCycles, k, left)
  {
  }

  lemma {:induction false} LoopGoes(
    cfg: AgentConfig, w: World, here: World, symbols: seq<string>, maxCycles: Option<int>, scripts: seq<CycleScript>,
    turns: seq<Turn>, done: nat, left: seq<CycleScript>, n: nat)
    requires Feeds(turns, symbols, scripts) && done <= |turns| && here == WorldAfter(cfg, w, turns[..done])
    requires left == scripts[done..] && n == done + |RunFrom(cfg, here, symbols, maxCycles, done, left).1|
    ensures GoesFromTo(cfg, w, maxCycles, turns, done, n)
    decreases |left|
  {
    GoesIff(cfg, w, here, symbols, maxCycles, scripts, turns, done, left);
    if Stopped(cfg, here, maxCycles, done, left) {
      GoesNot(cfg, w, maxCycles, turns, done);
    } else {
      var next := LoopTurn(cfg, w, here, symbols, maxCycles, scripts, turns, done, left);
      LoopGoes(cfg, w, next, symbols, maxCycles, scripts, turns, done + 1, left[1..], n);
      GoesOn(cfg, w, maxCycles, turns, done, n);
    }
  }

  lemma GoesNot(cfg: AgentConfig, w: World, maxCycles: Option<int>, turns: seq<Turn>, done: nat)
    requires !Goes(cfg, w, maxCycles, turns, done)
    ensures GoesFromTo(cfg, w, maxCycles, turns, done, done)
  {
  }

  lemma GoesOn(cfg: AgentConfig, w: World, maxCycles: Option<int>, turns: seq<Turn>, done: nat, n: nat)
    requires Goes(cfg, w, maxCycles, turns, done) && GoesFromTo(cfg, w, maxCycles, turns, done + 1, n)
    ensures GoesFromTo(cfg, w, maxCycles, turns, done, n)
  {
  }

  /** The loop runs a cycle as long as it may, and not one longer. */
  lemma LoopStopsWhen(
    cfg: AgentConfig, w: World, symbols: seq<string>, maxCycles: Option<int>, scripts: seq<CycleScript>,
    turns: seq<Turn>, n: nat)
    requires Feeds(turns, symbols, scripts) && n == |RunFrom(cfg, w, symbols, maxCycles, 0, scripts).1|
    ensures GoesFromTo(cfg, w, maxCycles, turns, 0, n)
  {
    assert turns[..0] == [];
    LoopGoes(cfg, w, w, symbols, maxCycles, scripts, turns, 0, scripts, n);
  }

  /** The first turns, as many as the loop ran cycles. */
  function TurnsOf(cycles: seq<AgentCycle>, turns: seq<Turn>): seq<Turn> {
    if |cycles| <= |turns| then turns[..|cycles|] else turns
  }

  /** Whatever the loop does, its account stays within its limits, with one position per symbol and side. */
  lemma LoopExposure(
    cfg: AgentConfig, w: World, symbols: seq<string>, maxCycles: Option<int>, scripts: seq<CycleScript>,
    turns: seq<Turn>, made: seq<Turn>, positions: seq<Position>)
    requires Feeds(turns, symbols, scripts) && WithinLimits(cfg.risk, positions)
    requires made == TurnsOf(RunFrom(cfg, w, symbols, maxCycles, 0, scripts).1, turns)
    requires HonestRun(cfg, w, positions, made)
    ensures |made| == |RunFrom(cfg, w, symbols, maxCycles, 0, scripts).1|
    ensures AlwaysWithin(cfg.risk, positions, made)
    ensures OnePerSide(positions) && MatchedRun(cfg, w, made) ==> AlwaysOnePerSide(positions, made)
  {
    var n := LoopIsTurns(cfg, w, symbols, maxCycles, scripts, turns);
    ExposureSafety(cfg, w, positions, made);
    if OnePerSide(positions) && MatchedRun(cfg, w, made) {
      OnePositionPerSide(cfg, w, positions, made);
    }
  }

  /** Every attempt that the loop makes is justified by one of its cycles. */
  lemma LoopAttemptIsJustified(
    cfg: AgentConfig, w: World, symbols: seq<string>, maxCycles: Option<int>, scripts: seq<CycleScript>,
    turns: seq<Turn>, made: seq<Turn>, attempts: seq<Attempt>, i: nat, d: SupervisorDecision)
    returns (earlier: seq<Turn>, turn: Turn, there: World)
    requires Feeds(turns, symbols, scripts)
    requires made == TurnsOf(RunFrom(cfg, w, symbols, maxCycles, 0, scripts).1, turns)
    requires attempts == RunFrom(cfg, w, symbols, maxCycles, 0, scripts).0.exec.attempts
    requires |w.exec.attempts| <= i < |attempts| && d == attempts[i].decision
    ensures earlier + [turn] <= made && there == WorldAfter(cfg, w, earlier)
    ensures Justified(cfg, there, turn.script, d)
  {
    var n := LoopIsTurns(cfg, w, symbols, maxCycles, scripts, turns);
    earlier, turn, there := EveryAttemptIsJustified(cfg, w, made, attempts, i, d);
  }

  /** The order rate bounds hold for the attempts that the loop leaves behind. */
  lemma LoopOrderRate(
    cfg: AgentConfig, w: World, symbols: seq<string>, maxCycles: Option<int>, scripts: seq<CycleScript>,
    turns: seq<Turn>, attempts: seq<Attempt>, symbol: string, action: TradeAction, lo: real, hi: real)
    requires Feeds(turns, symbols, scripts) && lo <= hi && w.verdicts == [] && w.exec.attempts == []
    requires ClockedTurns(TurnsOf(RunFrom(cfg, w, symbols, maxCycles, 0, scripts).1, turns))
    requires attempts == RunFrom(cfg, w, symbols, maxCycles, 0, scripts).0.exec.attempts
    ensures cfg.risk.duplicateWindow > 0.0 ==>
      Fits(|SendTimes(attempts, symbol, Some(action), lo, hi)|, cfg.risk.duplicateWindow, hi - lo)
    ensures cfg.risk.cooldown > 0.0 ==>
      Fits(|SendTimes(attempts, symbol, None, lo, hi)|, cfg.risk.cooldown, hi - lo)
  {
    var n := LoopIsTurns(cfg, w, symbols, maxCycles, scripts, turns);
    OrderRate(cfg, w, turns[..n], attempts, symbol, action, lo, hi);
  }
}
