/** Deterministic strategies: the Donchian structure break, failure containment, signal selection. */
module Signals {
  import opened Common
  import opened Market

  datatype Direction = Long | Short | Flat

  datatype Signal = Signal(strategy: string, symbol: string, direction: Direction, confidence: real)

  datatype ParamFields = ParamFields(lookback: int, minCandles: int, breakoutConfidence: real) {
    predicate Valid() {
      lookback >= 2 && minCandles >= 1 && 0.0 <= breakoutConfidence <= 1.0
    }
  }

  type Params = p: ParamFields | p.Valid() witness ParamFields(20, 5, 0.6)

  datatype Strategy = NullStrategy | DonchianBreakout(params: Params) {
    function Name(): string {
      if NullStrategy? then "null" else "donchian_breakout"
    }
  }

  /** Highest high of a non-empty run of candles. */
  function MaxHigh(candles: seq<Candle>): (hi: real)
    requires candles != []
    ensures forall i | 0 <= i < |candles| :: candles[i].high <= hi
    ensures exists i | 0 <= i < |candles| :: candles[i].high == hi
  {
    if |candles| == 1 then candles[0].high else
      var rest := MaxHigh(candles[1..]);
      assert forall i | 1 <= i < |candles| :: candles[i] == candles[1..][i - 1];
      if candles[0].high >= rest then candles[0].high else
        var k :| 0 <= k < |candles[1..]| && candles[1..][k].high == rest;
        assert candles[k + 1].high == rest;
        rest
  }

  /** Lowest low of a non-empty run of candles. */
  function MinLow(candles: seq<Candle>): (lo: real)
    requires candles != []
    ensures forall i | 0 <= i < |candles| :: lo <= candles[i].low
    ensures exists i | 0 <= i < |candles| :: candles[i].low == lo
  {
    if |candles| == 1 then candles[0].low else
      var rest := MinLow(candles[1..]);
      assert forall i | 1 <= i < |candles| :: candles[i] == candles[1..][i - 1];
      if candles[0].low <= rest then candles[0].low else
        var k :| 0 <= k < |candles[1..]| && candles[1..][k].low == rest;
        assert candles[k + 1].low == rest;
        rest
  }

  /** The measured-move pipeline with its default hooks: which way did the last close break out? */
  function Read(p: Params, candles: seq<Candle>): Answer<Direction> {
    if |candles| < p.minCandles then Returned(Flat)
    else ReadWindow(if |candles| >= 2 then Last(candles, p.lookback) else candles)
  }

  function ReadWindow(window: seq<Candle>): Answer<Direction>
    requires window != []
  {
    var prior := window[..|window| - 1];
    var latest := window[|window| - 1];
    // max() over an empty sequence raises
    var _ :- Check(prior != []);
    Returned(
      if latest.close > MaxHigh(prior) then Long
      else if latest.close < MinLow(prior) then Short
      else Flat)
  }

  function Analyze(strategy: Strategy, symbol: string, candles: seq<Candle>): Answer<Signal> {
    match strategy
    case NullStrategy => Returned(Signal(strategy.Name(), symbol, Flat, 0.0))
    case DonchianBreakout(p) =>
      var direction :- Read(p, candles);
      Returned(Signal(strategy.Name(), symbol, direction,
                      if direction == Flat then 0.0 else p.breakoutConfidence))
  }

  /** A strategy that raises is replaced by a FLAT error signal. */
  function Contained(strategy: Strategy, symbol: string, candles: seq<Candle>): Signal {
    match Analyze(strategy, symbol, candles)
    case Returned(signal) => signal
    case Raised(_) => Signal(strategy.Name(), symbol, Flat, 0.0)
  }

  function AllSignals(strategies: seq<Strategy>, symbol: string, candles: seq<Candle>): seq<Signal> {
    seq(|strategies|, i requires 0 <= i < |strategies| => Contained(strategies[i], symbol, candles))
  }

  /** Runs every strategy, in registration order. */
  method AnalyzeAll(strategies: seq<Strategy>, symbol: string, candles: seq<Candle>)
    returns (signals: seq<Signal>)
    ensures signals == AllSignals(strategies, symbol, candles)
  {
    signals := [];
    for i := 0 to |strategies|
      invariant |signals| == i
      invariant forall k | 0 <= k < i :: signals[k] == Contained(strategies[k], symbol, candles)
    {
      match Analyze(strategies[i], symbol, candles)
      case Returned(signal) =>
        signals := signals + [signal];
      case Raised(_) =>
        signals := signals + [Signal(strategies[i].Name(), symbol, Flat, 0.0)];
    }
  }

  /** The first directional signal, else the first one. */
  function SelectPrimary(signals: seq<Signal>): Answer<Signal> {
    var _ :- Check(signals != []);
    Returned(FirstDirectional(signals, signals[0]))
  }

  /** The signal at `i` is directional and every earlier one is flat. */
  predicate FirstAt(signals: seq<Signal>, i: int)
    requires 0 <= i < |signals|
  {
    signals[i].direction != Flat && forall j | 0 <= j < i :: signals[j].direction == Flat
  }

  function FirstDirectional(signals: seq<Signal>, fallback: Signal): (s: Signal)
    ensures forall i | 0 <= i < |signals| && FirstAt(signals, i) :: s == signals[i]
    ensures (forall i | 0 <= i < |signals| :: signals[i].direction == Flat) ==> s == fallback
    ensures s == fallback || exists i | 0 <= i < |signals| :: FirstAt(signals, i) && s == signals[i]
  {
    if signals == [] then fallback
    else if signals[0].direction != Flat then
      assert FirstAt(signals, 0);
      signals[0]
    else
      var s := FirstDirectional(signals[1..], fallback);
      FirstAfterFlat(signals);
      assert s != fallback ==>
          exists i | 0 <= i < |signals[1..]| :: FirstAt(signals[1..], i) && FirstAt(signals, i + 1);
      s
  }

  lemma FirstAfterFlat(signals: seq<Signal>)
    requires signals != [] && signals[0].direction == Flat
    ensures forall i | 0 <= i < |signals| :: FirstAt(signals, i) <==> i > 0 && FirstAt(signals[1..], i - 1)
  {
    var rest := signals[1..];
    assert forall i | 0 < i < |signals| :: signals[i] == rest[i - 1];
    forall i | 0 < i < |signals| ensures FirstAt(signals, i) <==> FirstAt(rest, i - 1) {
      assert forall j | 0 <= j < i - 1 :: rest[j] == signals[j + 1];
    }
  }

  // ---- What a breakout is, and the laws of the Donchian reader ----------------------------------

  /** First index of the lookback window. */
  function WindowStart(p: Params, candles: seq<Candle>): int {
    if |candles| > p.lookback then |candles| - p.lookback else 0
  }

  /** The latest close is above every earlier high of the lookback window. */
  predicate BreaksUp(p: Params, candles: seq<Candle>) {
    && |candles| >= 2 && |candles| >= p.minCandles
    && forall i | WindowStart(p, candles) <= i < |candles| - 1 ::
         candles[i].high < candles[|candles| - 1].close
  }

  /** The latest close is below every earlier low of the lookback window. */
  predicate BreaksDown(p: Params, candles: seq<Candle>) {
    && |candles| >= 2 && |candles| >= p.minCandles
    && forall i | WindowStart(p, candles) <= i < |candles| - 1 ::
         candles[|candles| - 1].close < candles[i].low
  }

  lemma LongIffBreaksUp(p: Params, candles: seq<Candle>)
    ensures Read(p, candles) == Returned(Long) <==> BreaksUp(p, candles)
  {
  }

  /** SHORT is tested second, yet LONG never hides it: the two breaks exclude one another. */
  lemma ShortIffBreaksDown(p: Params, candles: seq<Candle>)
    ensures Read(p, candles) == Returned(Short) <==> BreaksDown(p, candles)
    ensures !(BreaksUp(p, candles) && BreaksDown(p, candles))
  {
    if |candles| >= p.minCandles && |candles| >= 2 {
      PriorIsWindow(p, candles);
      assert candles[|candles| - 2].low <= candles[|candles| - 2].high;
    }
  }

  lemma PriorIsWindow(p: Params, candles: seq<Candle>)
    requires |candles| >= 2
    ensures var w := Last(candles, p.lookback);
            var start := WindowStart(p, candles);
            && |w| >= 2 && w[|w| - 1] == candles[|candles| - 1]
            && |w| == |candles| - start
            && (forall i | start <= i < |candles| - 1 :: candles[i] == w[..|w| - 1][i - start])
  {
  }

  /** Exactly one input makes the reader raise: a single candle that passes the length gate. */
  lemma RaisesIffSingleCandle(p: Params, candles: seq<Candle>)
    ensures Read(p, candles).Raised? <==> |candles| == 1 && p.minCandles == 1
  {
  }

  lemma LastOfConcat(older: seq<Candle>, recent: seq<Candle>, n: nat)
    requires n <= |recent|
    ensures Last(older + recent, n) == Last(recent, n)
  {
    var whole, k := older + recent, |recent| - n;
    assert whole[|older| + k..] == recent[k..];
    assert older == [] ==> whole == recent;
  }

  /** Candles older than the window are irrelevant once the length gate is passed. */
  lemma OldCandlesIrrelevant(p: Params, older: seq<Candle>, other: seq<Candle>, recent: seq<Candle>)
    requires |recent| >= p.lookback
    requires |older + recent| >= p.minCandles && |other + recent| >= p.minCandles
    ensures Read(p, older + recent) == Read(p, other + recent)
  {
    LastOfConcat(older, recent, p.lookback);
    LastOfConcat(other, recent, p.lookback);
  }

  /** A shorter lookback never loses a break. */
  lemma ShorterLookbackKeepsBreak(p: Params, q: Params, candles: seq<Candle>)
    requires q.lookback <= p.lookback && q.minCandles == p.minCandles
    requires Read(p, candles) == Returned(Long) || Read(p, candles) == Returned(Short)
    ensures Read(q, candles) == Read(p, candles)
  {
    LongIffBreaksUp(p, candles);
    ShortIffBreaksDown(p, candles);
    LongIffBreaksUp(q, candles);
    ShortIffBreaksDown(q, candles);
  }

  function Mirror(axis: real, c: Candle): Bar {
    Bar(axis - c.open, axis - c.low, axis - c.high, axis - c.close)
  }

  function Opposite(d: Direction): Direction {
    match d case Long => Short case Short => Long case Flat => Flat
  }

  /** Reflecting every price about a constant turns LONG into SHORT and back. */
  lemma MirrorSwapsDirections(p: Params, axis: real, candles: seq<Candle>, mirrored: seq<Candle>)
    requires |mirrored| == |candles|
    requires forall i | 0 <= i < |candles| :: mirrored[i] == Mirror(axis, candles[i])
    ensures Read(p, candles).Raised? <==> Read(p, mirrored).Raised?
    ensures Read(p, candles).Returned? ==>
              Read(p, mirrored) == Returned(Opposite(Read(p, candles).value))
  {
    RaisesIffSingleCandle(p, candles);
    RaisesIffSingleCandle(p, mirrored);
    LongIffBreaksUp(p, candles);
    ShortIffBreaksDown(p, candles);
    LongIffBreaksUp(p, mirrored);
    ShortIffBreaksDown(p, mirrored);
    assert BreaksUp(p, candles) <==> BreaksDown(p, mirrored) by { MirrorBreak(p, axis, candles, mirrored); }
    assert BreaksDown(p, candles) <==> BreaksUp(p, mirrored) by { MirrorBreak(p, axis, candles, mirrored); }
  }

  lemma MirrorBreak(p: Params, axis: real, candles: seq<Candle>, mirrored: seq<Candle>)
    requires |mirrored| == |candles|
    requires forall i | 0 <= i < |candles| :: mirrored[i] == Mirror(axis, candles[i])
    ensures BreaksUp(p, candles) <==> BreaksDown(p, mirrored)
    ensures BreaksDown(p, candles) <==> BreaksUp(p, mirrored)
  {
  }

  // ---- What the signals say about the candles ----------------------------------------------------

  /** The candles show a structure break to this strategy. */
  predicate Breaks(strategy: Strategy, candles: seq<Candle>) {
    strategy.DonchianBreakout? && (BreaksUp(strategy.params, candles) || BreaksDown(strategy.params, candles))
  }

  /** The signal is about `symbol`, carries the strategy's name, and says what the strategy sees in the candles. */
  predicate Reports(signal: Signal, strategy: Strategy, symbol: string, candles: seq<Candle>) {
    && signal.symbol == symbol
    && signal.strategy == (if strategy.NullStrategy? then "null" else "donchian_breakout")
    && (signal.direction == Long <==> strategy.DonchianBreakout? && BreaksUp(strategy.params, candles))
    && (signal.direction == Short <==> strategy.DonchianBreakout? && BreaksDown(strategy.params, candles))
    && signal.confidence == (if Breaks(strategy, candles) then strategy.params.breakoutConfidence else 0.0)
  }

  /** Every strategy's signal says what its candles show; one that raises has no break to show. */
  lemma SignalReports(strategy: Strategy, symbol: string, candles: seq<Candle>)
    ensures Reports(Contained(strategy, symbol, candles), strategy, symbol, candles)
  {
    if strategy.DonchianBreakout? {
      LongIffBreaksUp(strategy.params, candles);
      ShortIffBreaksDown(strategy.params, candles);
      RaisesIffSingleCandle(strategy.params, candles);
    }
  }

  /** All signals, in registration order. */
  lemma SignalsReport(strategies: seq<Strategy>, symbol: string, candles: seq<Candle>)
    ensures var signals := AllSignals(strategies, symbol, candles);
      |signals| == |strategies|
      && forall i | 0 <= i < |strategies| :: Reports(signals[i], strategies[i], symbol, candles)
  {
    forall i | 0 <= i < |strategies|
      ensures Reports(AllSignals(strategies, symbol, candles)[i], strategies[i], symbol, candles)
    {
      SignalReports(strategies[i], symbol, candles);
    }
  }

  /** Strategy `i` is the first one that sees a break. */
  predicate FirstBreak(strategies: seq<Strategy>, candles: seq<Candle>, i: int)
    requires 0 <= i < |strategies|
  {
    Breaks(strategies[i], candles) && forall j | 0 <= j < i :: !Breaks(strategies[j], candles)
  }

  /** The primary signal is that of the first strategy that sees a break, and if none does that of the first one. */
  lemma PrimaryIsFirstBreak(strategies: seq<Strategy>, symbol: string, candles: seq<Candle>)
    ensures var primary := SelectPrimary(AllSignals(strategies, symbol, candles));
      && (primary.Raised? <==> strategies == [])
      && (forall i | 0 <= i < |strategies| && FirstBreak(strategies, candles, i) ::
            Reports(primary.value, strategies[i], symbol, candles))
      && (strategies != [] && (forall i | 0 <= i < |strategies| :: !Breaks(strategies[i], candles)) ==>
            Reports(primary.value, strategies[0], symbol, candles))
  {
    var signals := AllSignals(strategies, symbol, candles);
    SignalsReport(strategies, symbol, candles);
    assert forall i | 0 <= i < |strategies| :: signals[i].direction != Flat <==> Breaks(strategies[i], candles);
    forall i | 0 <= i < |strategies| && FirstBreak(strategies, candles, i)
      ensures FirstAt(signals, i)
    {
    }
  }

  /** With the baseline and one Donchian reader, the primary signal goes exactly the way the candles break. */
  lemma DefaultPrimary(params: Params, symbol: string, candles: seq<Candle>)
    ensures var primary := SelectPrimary(AllSignals([NullStrategy, DonchianBreakout(params)], symbol, candles));
      && primary.Returned?
      && (primary.value.direction == Long <==> BreaksUp(params, candles))
      && (primary.value.direction == Short <==> BreaksDown(params, candles))
  {
    var strategies := [NullStrategy, DonchianBreakout(params)];
    PrimaryIsFirstBreak(strategies, symbol, candles);
    ShortIffBreaksDown(params, candles);
    if Breaks(strategies[1], candles) {
      assert FirstBreak(strategies, candles, 1);
    } else {
      assert forall i | 0 <= i < |strategies| :: !Breaks(strategies[i], candles);
    }
  }

  /** The primary signal is directional only because some registered Donchian reader saw the break. */
  lemma PrimaryNeedsBreak(strategies: seq<Strategy>, symbol: string, candles: seq<Candle>)
    requires strategies != []
    ensures var primary := SelectPrimary(AllSignals(strategies, symbol, candles));
            && primary.Returned?
            && primary.value.symbol == symbol
            && (primary.value.direction == Long ==>
                  exists s | s in strategies :: s.DonchianBreakout? && BreaksUp(s.params, candles))
            && (primary.value.direction == Short ==>
                  exists s | s in strategies :: s.DonchianBreakout? && BreaksDown(s.params, candles))
  {
    var signals := AllSignals(strategies, symbol, candles);
    var primary := SelectPrimary(signals).value;
    var i :| 0 <= i < |signals| && primary == signals[i];
    assert strategies[i] in strategies;
    if strategies[i].DonchianBreakout? {
      LongIffBreaksUp(strategies[i].params, candles);
      ShortIffBreaksDown(strategies[i].params, candles);
    }
  }
}
