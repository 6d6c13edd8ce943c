/** The duplicate rule in the closed loop: never two open positions on the same symbol and side. */
module PositionSides {
  import opened Common
  import opened Market
  import opened Risk
  import opened Executor
  import opened Agent
  import opened CycleLaws
  import opened ClosedLoop

  predicate NoneOn(positions: seq<Position>, symbol: string, side: Side) {
    forall i | 0 <= i < |positions| :: !(positions[i].symbol == symbol && positions[i].side == side)
  }

  predicate OnePerSide(positions: seq<Position>) {
    forall i, j | 0 <= i < j < |positions| ::
      !(positions[i].symbol == positions[j].symbol && positions[i].side == positions[j].side)
  }

  /** A fill also carries the symbol and side of the order it belongs to. */
  predicate FillOfOrder(turn: Turn, sent: seq<Payload>) {
    turn.fill.Some? ==> exists i | 0 <= i < |sent| ::
      sent[i].symbol == turn.fill.value.symbol && SideOf(sent[i].action) == Some(turn.fill.value.side)
  }

  lemma StepKeepsSides(positions: seq<Position>, step: AccountStep, symbol: string, side: Side)
    ensures OnePerSide(positions) ==> OnePerSide(ApplyStep(positions, step))
    ensures NoneOn(positions, symbol, side) ==> NoneOn(ApplyStep(positions, step), symbol, side)
  {
    var next := ApplyStep(positions, step);
    if step.index < |positions| && step.Close? {
      assert forall k | 0 <= k < |next| :: next[k] == positions[if k < step.index then k else k + 1];
    } else {
      assert |next| == |positions| && forall k | 0 <= k < |next| ::
          next[k].symbol == positions[k].symbol && next[k].side == positions[k].side;
    }
  }

  lemma {:induction false} StepsKeepSides(positions: seq<Position>, steps: seq<AccountStep>, symbol: string, side: Side)
    ensures OnePerSide(positions) ==> OnePerSide(ApplyAll(positions, steps))
    ensures NoneOn(positions, symbol, side) ==> NoneOn(ApplyAll(positions, steps), symbol, side)
    decreases |steps|
  {
    if steps != [] {
      StepKeepsSides(positions, steps[0], symbol, side);
      StepsKeepSides(ApplyStep(positions, steps[0]), steps[1..], symbol, side);
    }
  }

  lemma SamePositions(a: seq<Position>, b: seq<Position>, symbol: string, side: Side)
    requires multiset(a) == multiset(b) && NoneOn(a, symbol, side)
    ensures NoneOn(b, symbol, side)
  {
    forall i | 0 <= i < |b|
      ensures !(b[i].symbol == symbol && b[i].side == side)
    {
      assert b[i] in multiset(b) && b[i] in multiset(a) && b[i] in a;
    }
  }

  /** An order goes out only if no position is open on its symbol and side. */
  lemma SentOrderIsFirstOnSide(cfg: AgentConfig, w: World, symbol: string, s: CycleScript)
    requires SentBetween(w.exec, Cycle(cfg, w, symbol, s).0.exec) != []
    ensures var order := SentBetween(w.exec, Cycle(cfg, w, symbol, s).0.exec)[0];
      s.observe.Returned? && SideOf(order.action).Some?
      && NoneOn(s.observe.value.positions, order.symbol, SideOf(order.action).value)
  {
    CycleEffects(cfg, w, symbol, s);
    var d := DecisionOf(cfg, w, s);
    ExecuteSends(cfg.exec, w.exec, d, KeyOf(Some(s.cycleId), s.freshId), s.terminal);
    NoOrderWithoutBreakout(cfg, w, s);
    OrderFitsMarket(cfg, w, s);
  }

  lemma SidesAtFill(positions: seq<Position>, turn: Turn, symbol: string, side: Side)
    requires OnePerSide(positions)
    requires turn.fill.Some? ==>
      turn.fill.value.symbol == symbol && turn.fill.value.side == side && NoneOn(positions, symbol, side)
    ensures OnePerSide(AtFill(positions, turn)) && OnePerSide(ApplyAll(AtFill(positions, turn), turn.after))
  {
    StepsKeepSides(positions, turn.before, symbol, side);
    StepsKeepSides(AtFill(positions, turn), turn.after, symbol, side);
  }

  /** A fill of an order that is first on its side keeps the sides apart. */
  lemma SidesOfTurn(positions: seq<Position>, turn: Turn, sent: seq<Payload>)
    requires OnePerSide(positions) && FillOfOrder(turn, sent) && |sent| <= 1
    requires turn.script.observe.Returned? ==> multiset(turn.script.observe.value.positions) == multiset(positions)
    requires sent != [] ==>
      turn.script.observe.Returned? && SideOf(sent[0].action).Some?
      && NoneOn(turn.script.observe.value.positions, sent[0].symbol, SideOf(sent[0].action).value)
    ensures OnePerSide(AtFill(positions, turn)) && OnePerSide(ApplyAll(AtFill(positions, turn), turn.after))
  {
    if turn.fill.Some? {
      var symbol, side := turn.fill.value.symbol, turn.fill.value.side;
      SamePositions(turn.script.observe.value.positions, positions, symbol, side);
      SidesAtFill(positions, turn, symbol, side);
    } else {
      SidesAtFill(positions, turn, "", Buy);
    }
  }

  /** In this turn a fill, if any, is of an order sent in it. */
  predicate Matched(cfg: AgentConfig, w: World, turn: Turn) {
    FillOfOrder(turn, SentBetween(w.exec, Cycle(cfg, w, turn.symbol, turn.script).0.exec))
  }

  predicate MatchedRun(cfg: AgentConfig, w: World, turns: seq<Turn>) {
    forall k | 0 <= k < |turns| :: Matched(cfg, WorldAfter(cfg, w, turns[..k]), turns[k])
  }

  lemma TurnKeepsSides(cfg: AgentConfig, w: World, positions: seq<Position>, turn: Turn)
    requires OnePerSide(positions) && Honest(cfg, w, positions, turn) && Matched(cfg, w, turn)
    ensures OnePerSide(AtFill(positions, turn)) && OnePerSide(ApplyAll(AtFill(positions, turn), turn.after))
  {
    SentOrderFits(cfg, w, turn.symbol, turn.script);
    var sent := SentBetween(w.exec, Cycle(cfg, w, turn.symbol, turn.script).0.exec);
    if sent != [] {
      SentOrderIsFirstOnSide(cfg, w, turn.symbol, turn.script);
    }
    SidesOfTurn(positions, turn, sent);
  }

  lemma MatchedPrefix(cfg: AgentConfig, w: World, turns: seq<Turn>, n: nat)
    requires n <= |turns| && MatchedRun(cfg, w, turns)
    ensures MatchedRun(cfg, w, turns[..n])
  {
    forall k | 0 <= k < n
      ensures Matched(cfg, WorldAfter(cfg, w, turns[..n][..k]), turns[..n][k])
    {
      assert turns[..n][..k] == turns[..k];
    }
  }

  /** One position per symbol and side before, between and after the turns, and at the moment of every fill. */
  predicate AlwaysOnePerSide(positions: seq<Position>, turns: seq<Turn>) {
    && (forall k | 0 <= k <= |turns| :: OnePerSide(PositionsAfter(positions, turns[..k])))
    && (forall k | 0 <= k < |turns| :: OnePerSide(AtFill(PositionsAfter(positions, turns[..k]), turns[k])))
  }

  /** Over every honest run an account never holds two positions on the same symbol and side. */
  lemma OnePositionPerSide(cfg: AgentConfig, w: World, positions: seq<Position>, turns: seq<Turn>)
    requires OnePerSide(positions) && HonestRun(cfg, w, positions, turns) && MatchedRun(cfg, w, turns)
    ensures AlwaysOnePerSide(positions, turns)
  {
    forall k | 0 <= k <= |turns|
      ensures OnePerSide(PositionsAfter(positions, turns[..k]))
      ensures k < |turns| ==> OnePerSide(AtFill(PositionsAfter(positions, turns[..k]), turns[k]))
    {
      HonestPrefix(cfg, w, positions, turns, k);
      MatchedPrefix(cfg, w, turns, k);
      EndsOnePerSide(cfg, w, positions, turns[..k]);
      if k < |turns| {
        TurnKeepsSides(cfg, WorldAfter(cfg, w, turns[..k]), PositionsAfter(positions, turns[..k]), turns[k]);
      }
    }
  }

  lemma {:induction false} EndsOnePerSide(cfg: AgentConfig, w: World, positions: seq<Position>, turns: seq<Turn>)
    requires OnePerSide(positions) && HonestRun(cfg, w, positions, turns) && MatchedRun(cfg, w, turns)
    ensures OnePerSide(PositionsAfter(positions, turns))
  {
    if turns != [] {
      var n := |turns| - 1;
      HonestPrefix(cfg, w, positions, turns, n);
      MatchedPrefix(cfg, w, turns, n);
      EndsOnePerSide(cfg, w, positions, turns[..n]);
      TurnKeepsSides(cfg, WorldAfter(cfg, w, turns[..n]), PositionsAfter(positions, turns[..n]), turns[n]);
    }
  }
}
