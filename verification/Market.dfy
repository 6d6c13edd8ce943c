/** Market and account state, as read by the observer. Validity is what the constructors check. */
module Market {
  import opened Common

  datatype Bar = Bar(open: real, high: real, low: real, close: real) {
    predicate Valid() {
      && open > 0.0 && high > 0.0 && low > 0.0 && close > 0.0
      && low <= open <= high && low <= close <= high
    }
  }

  type Candle = b: Bar | b.Valid() witness Bar(1.0, 1.0, 1.0, 1.0)

  datatype Tick = Tick(bid: real, ask: real) {
    function Spread(): real { ask - bid }
  }

  datatype Side = Buy | Sell

  datatype PositionFields = PositionFields(symbol: string, side: Side, volume: real) {
    predicate Valid() {
      !Blank(symbol) && volume > 0.0
    }
  }

  type Position = p: PositionFields | p.Valid() witness PositionFields("X", Buy, 1.0)

  datatype AccountState = AccountState(
    tradeAllowed: bool, balance: real, equity: real, margin: real, dayRealizedPnl: Option<real>)
  {
    function MarginLevel(): Option<real> {
      if margin > 0.0 then Some(equity / margin * 100.0) else None
    }
  }

  /** One OBSERVE result. `point` is the symbol's point size when its metadata was available. */
  datatype ObservationFields = Observation(
    symbol: string, candles: seq<Candle>, tick: Option<Tick>, point: Option<real>,
    account: AccountState, positions: seq<Position>, observedAt: real)
  {
    predicate Valid() {
      !Blank(symbol)
    }
  }

  type Observation = o: ObservationFields | o.Valid()
    witness Observation("X", [], None, None, AccountState(false, 0.0, 0.0, 0.0, None), [], 0.0)

  /** Gross open volume. */
  function Gross(positions: seq<Position>): (total: real)
    ensures total >= 0.0
  {
    if positions == [] then 0.0 else positions[0].volume + Gross(positions[1..])
  }

  lemma {:induction false} GrossConcat(a: seq<Position>, b: seq<Position>)
    ensures Gross(a + b) == Gross(a) + Gross(b)
  {
    if a == [] {
      assert a + b == b;
    } else {
      GrossConcat(a[1..], b);
      assert (a + b)[1..] == a[1..] + b;
    }
  }

  /** Leaving out the position at `i` takes exactly its volume away. */
  lemma {:induction false} GrossWithout(positions: seq<Position>, i: nat)
    requires i < |positions|
    ensures Gross(positions) == Gross(Without(positions, i)) + positions[i].volume
  {
    if i == 0 {
      assert Without(positions, 0) == positions[1..];
    } else {
      GrossWithout(positions[1..], i - 1);
      assert Without(positions, i) == [positions[0]] + Without(positions[1..], i - 1);
    }
  }

  /** Fewer positions (as a bag, in any order) are never more in number or in gross volume. */
  lemma {:induction false} FewerPositions(fewer: seq<Position>, all: seq<Position>)
    requires multiset(fewer) <= multiset(all)
    ensures |fewer| <= |all| && Gross(fewer) <= Gross(all)
  {
    if fewer != [] {
      var p := fewer[0];
      assert p in multiset(fewer);
      var i :| 0 <= i < |all| && all[i] == p;
      SubBagStep(fewer, all, i);
      FewerPositions(fewer[1..], Without(all, i));
      GrossWithout(all, i);
    }
  }
}
