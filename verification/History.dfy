/** Closed-trade summaries: deals grouped by position. */
module History {
  import opened Common

  datatype Deal = Deal(
    positionId: int, symbol: string, volume: real, profit: real, commission: real, swap: real, fee: real)

  datatype TradeResult = TradeResult(
    positionId: int, symbol: string, volume: real, profit: real, commission: real, swap: real, fee: real, deals: nat)

  /** The numeric columns; `Net` is profit + commission + swap + fee, `Count` counts deals. */
  datatype Column = Volume | Profit | Commission | Swap | Fee | Net | Count

  function OfDeal(c: Column, d: Deal): real {
    match c
    case Volume => d.volume case Profit => d.profit case Commission => d.commission case Swap => d.swap
    case Fee => d.fee case Net => d.profit + d.commission + d.swap + d.fee case Count => 1.0
  }

  function OfResult(c: Column, r: TradeResult): real {
    match c
    case Volume => r.volume case Profit => r.profit case Commission => r.commission case Swap => r.swap
    case Fee => r.fee case Net => r.profit + r.commission + r.swap + r.fee case Count => r.deals as real
  }

  function Total(c: Column, deals: seq<Deal>): real {
    if deals == [] then 0.0 else OfDeal(c, deals[0]) + Total(c, deals[1..])
  }

  function TotalOfResults(c: Column, results: seq<TradeResult>): real {
    if results == [] then 0.0 else OfResult(c, results[0]) + TotalOfResults(c, results[1..])
  }

  /** Net realized P&L of an explicit list of deals. */
  function RealizedProfit(deals: seq<Deal>): real {
    Total(Net, deals)
  }

  /** The deals of one position, in order. */
  function Of(deals: seq<Deal>, id: int): seq<Deal> {
    if deals == [] then [] else
      var n := |deals| - 1;
      Of(deals[..n], id) + (if deals[n].positionId == id then [deals[n]] else [])
  }

  function PositionIds(deals: seq<Deal>): set<int> {
    set d | d in deals :: d.positionId
  }

  lemma {:induction false} OfIsEmptyIff(deals: seq<Deal>, id: int)
    ensures Of(deals, id) == [] <==> id !in PositionIds(deals)
    ensures forall d | d in Of(deals, id) :: d.positionId == id && d in deals
  {
    if deals != [] {
      var n := |deals| - 1;
      OfIsEmptyIff(deals[..n], id);
      assert deals == deals[..n] + [deals[n]];
    }
  }

  lemma HasMinimum(s: set<int>)
    requires s != {}
    ensures exists m :: m in s && forall x | x in s :: m <= x
  {
    if forall y :: y !in s {
      assert false;
    }
    var x :| x in s;
    if s == {x} {
      assert x in s;
    } else {
      var rest := s - {x};
      assert s == rest + {x} && rest != {};
      HasMinimum(rest);
      var m :| m in rest && forall y | y in rest :: m <= y;
      var least := if m <= x then m else x;
      assert least in s && forall y | y in s :: least <= y;
    }
  }

  function Least(keys: set<int>): (m: int)
    requires keys != {}
    ensures m in keys && forall x | x in keys :: m <= x
  {
    HasMinimum(keys);
    var m :| m in keys && forall x | x in keys :: m <= x;
    m
  }

  /** The keys in ascending order. */
  function Sorted(keys: set<int>): seq<int> {
    if keys == {} then [] else [Least(keys)] + Sorted(keys - {Least(keys)})
  }

  predicate Ascending(ids: seq<int>) {
    forall i, j | 0 <= i < j < |ids| :: ids[i] < ids[j]
  }

  lemma {:induction false} SortedHasAll(keys: set<int>, key: int)
    ensures key in Sorted(keys) <==> key in keys
  {
    if keys != {} {
      SortedHasAll(keys - {Least(keys)}, key);
    }
  }

  lemma {:induction false} SortedAscends(keys: set<int>)
    ensures Ascending(Sorted(keys))
  {
    if keys != {} {
      var least := Least(keys);
      var rest := Sorted(keys - {least});
      SortedAscends(keys - {least});
      forall i | 0 <= i < |rest|
        ensures least < rest[i]
      {
        assert rest[i] in rest;
        SortedHasAll(keys - {least}, rest[i]);
      }
      PrependAscends(least, rest);
    }
  }

  lemma PrependAscends(least: int, rest: seq<int>)
    requires Ascending(rest) && forall i | 0 <= i < |rest| :: least < rest[i]
    ensures Ascending([least] + rest)
  {
  }

  /** The sorted keys are the keys. */
  lemma SortedIsKeySet(keys: set<int>)
    ensures KeySet(Sorted(keys)) == keys
  {
    forall key
      ensures key in KeySet(Sorted(keys)) <==> key in keys
    {
      SortedHasAll(keys, key);
    }
  }

  function KeySet(ids: seq<int>): set<int> {
    set id | id in ids
  }

  function Summary(id: int, items: seq<Deal>): TradeResult
    requires items != []
  {
    TradeResult(id, items[0].symbol, Total(Volume, items), Total(Profit, items), Total(Commission, items),
                Total(Swap, items), Total(Fee, items), |items|)
  }

  function Summaries(ids: seq<int>, buckets: map<int, seq<Deal>>): (r: seq<TradeResult>)
    requires forall id | id in ids :: id in buckets && buckets[id] != []
    ensures |r| == |ids|
  {
    seq(|ids|, i requires 0 <= i < |ids| => assert ids[i] in ids; Summary(ids[i], buckets[ids[i]]))
  }

  /** One non-empty bucket per position, holding its deals in order. */
  predicate Grouped(buckets: map<int, seq<Deal>>, deals: seq<Deal>) {
    && buckets.Keys == PositionIds(deals)
    && forall id | id in buckets :: buckets[id] == Of(deals, id) && buckets[id] != []
  }

  lemma GroupStep(buckets: map<int, seq<Deal>>, deals: seq<Deal>, n: nat)
    requires n < |deals| && Grouped(buckets, deals[..n])
    ensures var d := deals[n];
      var bucket := if d.positionId in buckets then buckets[d.positionId] else [];
      Grouped(buckets[d.positionId := bucket + [d]], deals[..n + 1])
  {
    var earlier, d := deals[..n], deals[n];
    assert deals[..n + 1] == earlier + [d];
    NextIds(earlier, d);
    OfIsEmptyIff(earlier, d.positionId);
    var bucket := if d.positionId in buckets then buckets[d.positionId] else [];
    var after := buckets[d.positionId := bucket + [d]];
    forall id | id in after
      ensures after[id] == Of(deals[..n + 1], id) && after[id] != []
    {
      NextOf(earlier, d, id);
    }
  }

  method Group(deals: seq<Deal>) returns (buckets: map<int, seq<Deal>>)
    ensures Grouped(buckets, deals)
  {
    buckets := map[];
    for n := 0 to |deals|
      invariant Grouped(buckets, deals[..n])
    {
      GroupStep(buckets, deals, n);
      var id := deals[n].positionId;
      var bucket := if id in buckets then buckets[id] else [];
      buckets := buckets[id := bucket + [deals[n]]];
    }
    assert deals[..|deals|] == deals;
  }

  lemma NextOf(deals: seq<Deal>, d: Deal, id: int)
    ensures Of(deals + [d], id) == if id == d.positionId then Of(deals, id) + [d] else Of(deals, id)
  {
  }

  lemma NextIds(deals: seq<Deal>, d: Deal)
    ensures PositionIds(deals + [d]) == PositionIds(deals) + {d.positionId}
  {
  }

  /** Groups the deals by position, then summarises every group but that of position 0, sorted by position. */
  method ClosedResults(deals: seq<Deal>) returns (results: seq<TradeResult>)
    ensures results == Results(deals)
  {
    var buckets := Group(deals);
    var ids := Sorted(buckets.Keys - {0});
    TradedIn(deals, ids);
    results := Summaries(ids, buckets);
    ResultsAre(deals, ids, results);
  }

  function Results(deals: seq<Deal>): (r: seq<TradeResult>)
  {
    var ids := Sorted(PositionIds(deals) - {0});
    TradedIn(deals, ids);
    ResultsFor(deals, ids)
  }

  /** The sorted ids are exactly the nonzero positions, each once. */
  lemma TradedIn(deals: seq<Deal>, ids: seq<int>)
    requires ids == Sorted(PositionIds(deals) - {0})
    ensures KeySet(ids) == PositionIds(deals) - {0} && Ascending(ids)
    ensures forall id | id in ids :: id in PositionIds(deals)
  {
    SortedIsKeySet(PositionIds(deals) - {0});
    SortedAscends(PositionIds(deals) - {0});
    assert forall id | id in ids :: id in KeySet(ids);
  }

  function ResultsFor(deals: seq<Deal>, ids: seq<int>): (r: seq<TradeResult>)
    requires forall id | id in ids :: id in PositionIds(deals)
    ensures |r| == |ids|
  {
    if ids == [] then [] else
      OfIsEmptyIff(deals, ids[0]);
      [Summary(ids[0], Of(deals, ids[0]))] + ResultsFor(deals, ids[1..])
  }

  lemma {:induction false} ResultsForAt(deals: seq<Deal>, ids: seq<int>, i: nat)
    requires i < |ids| && forall id | id in ids :: id in PositionIds(deals)
    ensures Of(deals, ids[i]) != [] && ResultsFor(deals, ids)[i] == Summary(ids[i], Of(deals, ids[i]))
  {
    OfIsEmptyIff(deals, ids[i]);
    if i > 0 {
      ResultsForAt(deals, ids[1..], i - 1);
    }
  }

  lemma ResultsAre(deals: seq<Deal>, ids: seq<int>, results: seq<TradeResult>)
    requires |results| == |ids| && forall id | id in ids :: id in PositionIds(deals)
    requires forall i | 0 <= i < |ids| :: Of(deals, ids[i]) != [] && results[i] == Summary(ids[i], Of(deals, ids[i]))
    ensures results == ResultsFor(deals, ids)
  {
    forall i | 0 <= i < |ids|
      ensures results[i] == ResultsFor(deals, ids)[i]
    {
      ResultsForAt(deals, ids, i);
    }
  }

  // ---- Conservation ------------------------------------------------------------------------------

  lemma {:induction false} TotalConcat(c: Column, a: seq<Deal>, b: seq<Deal>)
    ensures Total(c, a + b) == Total(c, a) + Total(c, b)
  {
    if a == [] {
      assert a + b == b;
    } else {
      TotalConcat(c, a[1..], b);
      assert (a + b)[1..] == a[1..] + b;
    }
  }

  lemma {:induction false} NetAndCount(items: seq<Deal>)
    ensures Total(Net, items)
         == Total(Profit, items) + Total(Commission, items) + Total(Swap, items) + Total(Fee, items)
    ensures Total(Count, items) == |items| as real
  {
    if items != [] {
      NetAndCount(items[1..]);
    }
  }

  /** A summary's every column is the total of that column over its deals. */
  lemma SummaryTotals(c: Column, id: int, items: seq<Deal>)
    requires items != []
    ensures OfResult(c, Summary(id, items)) == Total(c, items)
  {
    NetAndCount(items);
  }

  /** The deals whose position is one of `ids`, in order. */
  function Among(deals: seq<Deal>, ids: set<int>): seq<Deal> {
    if deals == [] then [] else
      var n := |deals| - 1;
      Among(deals[..n], ids) + (if deals[n].positionId in ids then [deals[n]] else [])
  }

  function TotalOver(c: Column, deals: seq<Deal>, ids: seq<int>): real {
    if ids == [] then 0.0 else Total(c, Of(deals, ids[0])) + TotalOver(c, deals, ids[1..])
  }

  lemma {:induction false} LastDeal(c: Column, deals: seq<Deal>, ids: seq<int>)
    requires deals != [] && Distinct(ids)
    ensures var n := |deals| - 1;
      TotalOver(c, deals, ids)
        == TotalOver(c, deals[..n], ids) + (if deals[n].positionId in ids then OfDeal(c, deals[n]) else 0.0)
  {
    if ids != [] {
      var n := |deals| - 1;
      LastDeal(c, deals, ids[1..]);
      TotalConcat(c, Of(deals[..n], ids[0]), [deals[n]]);
      assert Of(deals[..n], ids[0]) + [] == Of(deals[..n], ids[0]);
    }
  }

  /** Grouping by position neither loses nor repeats anything. */
  lemma {:induction false} GroupsPartition(c: Column, deals: seq<Deal>, ids: seq<int>, keys: set<int>)
    requires Distinct(ids)
    requires keys == KeySet(ids)
    ensures TotalOver(c, deals, ids) == Total(c, Among(deals, keys))
  {
    if deals == [] {
      NothingToTotal(c, ids);
      assert Among(deals, keys) == [];
    } else {
      GroupsPartition(c, deals[..|deals| - 1], ids, keys);
      GroupsStep(c, deals, ids, keys);
    }
  }

  lemma GroupsStep(c: Column, deals: seq<Deal>, ids: seq<int>, keys: set<int>)
    requires deals != [] && Distinct(ids) && keys == KeySet(ids)
    requires TotalOver(c, deals[..|deals| - 1], ids) == Total(c, Among(deals[..|deals| - 1], keys))
    ensures TotalOver(c, deals, ids) == Total(c, Among(deals, keys))
  {
    LastDeal(c, deals, ids);
    LastAmong(c, deals, keys);
  }

  lemma LastAmong(c: Column, deals: seq<Deal>, keys: set<int>)
    requires deals != []
    ensures var n := |deals| - 1;
      Total(c, Among(deals, keys))
        == Total(c, Among(deals[..n], keys)) + (if deals[n].positionId in keys then OfDeal(c, deals[n]) else 0.0)
  {
    var n := |deals| - 1;
    TotalConcat(c, Among(deals[..n], keys), [deals[n]]);
    assert Among(deals[..n], keys) + [] == Among(deals[..n], keys);
  }

  lemma {:induction false} NothingToTotal(c: Column, ids: seq<int>)
    ensures TotalOver(c, [], ids) == 0.0
  {
    if ids != [] {
      NothingToTotal(c, ids[1..]);
    }
  }

  lemma {:induction false} ResultsTotal(c: Column, deals: seq<Deal>, ids: seq<int>)
    requires forall id | id in ids :: id in PositionIds(deals)
    ensures TotalOfResults(c, ResultsFor(deals, ids)) == TotalOver(c, deals, ids)
  {
    if ids != [] {
      ResultsTotal(c, deals, ids[1..]);
      OfIsEmptyIff(deals, ids[0]);
      SummaryTotals(c, ids[0], Of(deals, ids[0]));
    }
  }

  /** One result per position, and every column's total is that of the deals behind them. */
  lemma ResultsConserve(c: Column, deals: seq<Deal>)
    ensures TotalOfResults(c, Results(deals)) == Total(c, Among(deals, PositionIds(deals) - {0}))
  {
    var keys := PositionIds(deals) - {0};
    TradedIn(deals, Sorted(keys));
    ResultsTotal(c, deals, Sorted(keys));
    GroupsPartition(c, deals, Sorted(keys), keys);
  }

  /** A deal by itself makes a result that repeats it, and is worth its profit and all its charges. */
  lemma SingleDeal(d: Deal)
    ensures RealizedProfit([d]) == d.profit + d.commission + d.swap + d.fee
    ensures d.positionId != 0 ==>
      Results([d]) == [TradeResult(d.positionId, d.symbol, d.volume, d.profit, d.commission, d.swap, d.fee, 1)]
    ensures d.positionId == 0 ==> Results([d]) == []
  {
    SingleTotals(d);
    if d.positionId == 0 {
      assert PositionIds([d]) - {0} == {};
    } else {
      SingleResult(d);
    }
  }

  lemma SingleTotals(d: Deal)
    ensures forall c: Column :: Total(c, [d]) == OfDeal(c, d)
  {
    forall c: Column
      ensures Total(c, [d]) == OfDeal(c, d)
    {
      assert [d][1..] == [];
    }
  }

  lemma SingleResult(d: Deal)
    requires d.positionId != 0
    ensures Results([d]) ==
      [TradeResult(d.positionId, d.symbol, d.volume, d.profit, d.commission, d.swap, d.fee, 1)]
  {
    assert PositionIds([d]) - {0} == {d.positionId};
    SortedSingle(d.positionId);
    TradedIn([d], [d.positionId]);
    ResultsForAt([d], [d.positionId], 0);
    assert [d][..0] == [] && Of([d], d.positionId) == [d];
    SingleTotals(d);
  }

  lemma SortedSingle(id: int)
    ensures Sorted({id}) == [id]
  {
    assert Least({id}) == id;
    assert {id} - {id} == {};
  }

  /** Every column of every result adds up over the deals of its position, whose symbol is that of the first one. */
  lemma ResultAddsUp(deals: seq<Deal>, i: nat)
    requires i < |Results(deals)|
    ensures var r, items := Results(deals)[i], Of(deals, Results(deals)[i].positionId);
      && items != [] && r.symbol == items[0].symbol && r.deals == |items|
      && forall c: Column :: OfResult(c, r) == Total(c, items)
  {
    var ids := Sorted(PositionIds(deals) - {0});
    TradedIn(deals, ids);
    ResultsForAt(deals, ids, i);
    forall c: Column
      ensures OfResult(c, Results(deals)[i]) == Total(c, Of(deals, ids[i]))
    {
      SummaryTotals(c, ids[i], Of(deals, ids[i]));
    }
  }

  /** Realized profit adds up over any two lists of deals. */
  lemma ProfitAddsUp(a: seq<Deal>, b: seq<Deal>)
    ensures RealizedProfit(a + b) == RealizedProfit(a) + RealizedProfit(b)
  {
    TotalConcat(Net, a, b);
  }

  /** There is one result per nonzero position, in strictly ascending order. */
  lemma OneResultPerPosition(deals: seq<Deal>)
    ensures var results, keys := Results(deals), PositionIds(deals) - {0};
      && (forall i, j | 0 <= i < j < |results| :: results[i].positionId < results[j].positionId)
      && (forall i | 0 <= i < |results| :: results[i].positionId in keys)
      && (forall id | id in keys :: exists i | 0 <= i < |results| :: results[i].positionId == id)
  {
    var keys := PositionIds(deals) - {0};
    var ids, results := Sorted(keys), Results(deals);
    TradedIn(deals, ids);
    forall i | 0 <= i < |ids|
      ensures results[i].positionId == ids[i] && ids[i] in keys
    {
      ResultsForAt(deals, ids, i);
      assert ids[i] in ids && ids[i] in KeySet(ids);
    }
    forall id | id in keys
      ensures exists i | 0 <= i < |results| :: results[i].positionId == id
    {
      assert id in KeySet(ids);
      var i :| 0 <= i < |ids| && ids[i] == id;
      assert results[i].positionId == id;
    }
  }

  lemma {:induction false} SplitOffZero(c: Column, deals: seq<Deal>, keys: set<int>)
    requires PositionIds(deals) <= keys
    ensures Total(c, deals) == Total(c, Among(deals, keys - {0})) + Total(c, Of(deals, 0))
  {
    if deals != [] {
      var n := |deals| - 1;
      assert deals == deals[..n] + [deals[n]];
      assert deals[n].positionId in PositionIds(deals);
      assert PositionIds(deals[..n]) <= PositionIds(deals);
      SplitOffZero(c, deals[..n], keys);
      TotalConcat(c, deals[..n], [deals[n]]);
      TotalConcat(c, Among(deals[..n], keys - {0}), [deals[n]]);
      TotalConcat(c, Of(deals[..n], 0), [deals[n]]);
      assert Among(deals[..n], keys - {0}) + [] == Among(deals[..n], keys - {0});
      assert Of(deals[..n], 0) + [] == Of(deals[..n], 0);
    }
  }

  /** Realized profit is the net of the closed results plus the net of the deals without a position. */
  lemma ProfitIsConserved(deals: seq<Deal>)
    ensures RealizedProfit(deals) == TotalOfResults(Net, Results(deals)) + Total(Net, Of(deals, 0))
  {
    ResultsConserve(Net, deals);
    SplitOffZero(Net, deals, PositionIds(deals));
  }

  // ---- Order does not matter ---------------------------------------------------------------------

  lemma {:induction false} OfConcat(a: seq<Deal>, b: seq<Deal>, id: int)
    ensures Of(a + b, id) == Of(a, id) + Of(b, id)
  {
    if b == [] {
      assert a + b == a;
    } else {
      var n := |b| - 1;
      OfConcat(a, b[..n], id);
      assert (a + b)[..|a + b| - 1] == a + b[..n];
    }
  }

  lemma TotalWithout(c: Column, deals: seq<Deal>, i: nat, id: int)
    requires i < |deals|
    ensures Total(c, Of(deals, id))
         == Total(c, Of(Without(deals, i), id)) + (if deals[i].positionId == id then OfDeal(c, deals[i]) else 0.0)
  {
    var a, d, b := deals[..i], [deals[i]], deals[i + 1..];
    assert deals == a + (d + b);
    OfConcat(a, d + b, id);
    OfConcat(d, b, id);
    OfConcat(a, b, id);
    TotalConcat(c, Of(a, id), Of(d + b, id));
    TotalConcat(c, Of(d, id), Of(b, id));
    TotalConcat(c, Of(a, id), Of(b, id));
    assert d[..0] == [] && Of(d, id) == if deals[i].positionId == id then d else [];
  }

  lemma {:induction false} TotalPermuted(c: Column, deals: seq<Deal>, other: seq<Deal>, id: int)
    requires multiset(deals) == multiset(other)
    ensures Total(c, Of(deals, id)) == Total(c, Of(other, id))
  {
    if deals == [] {
      assert |multiset(other)| == 0;
      assert other == [];
    } else {
      var i := IndexIn(deals, other);
      SubBagStep(deals, other, i);
      TotalPermuted(c, deals[1..], Without(other, i), id);
      PermutedStep(c, deals, other, i, id);
    }
  }

  lemma PermutedStep(c: Column, deals: seq<Deal>, other: seq<Deal>, i: nat, id: int)
    requires deals != [] && i < |other| && other[i] == deals[0]
    requires Total(c, Of(deals[1..], id)) == Total(c, Of(Without(other, i), id))
    ensures Total(c, Of(deals, id)) == Total(c, Of(other, id))
  {
    TotalWithout(c, deals, 0, id);
    TotalWithout(c, other, i, id);
    assert Without(deals, 0) == deals[1..];
  }

  lemma IndexIn(deals: seq<Deal>, other: seq<Deal>) returns (i: nat)
    requires deals != [] && multiset(deals) == multiset(other)
    ensures i < |other| && other[i] == deals[0]
  {
    assert deals[0] in multiset(deals);
    assert deals[0] in other;
    i :| 0 <= i < |other| && other[i] == deals[0];
  }

  /** Reordering the deals changes no position and no numeric column of the results. */
  lemma OrderIrrelevant(deals: seq<Deal>, other: seq<Deal>)
    requires multiset(deals) == multiset(other)
    ensures var a, b := Results(deals), Results(other);
      |a| == |b| && forall i | 0 <= i < |a| ::
        a[i].positionId == b[i].positionId && forall c: Column :: OfResult(c, a[i]) == OfResult(c, b[i])
  {
    assert forall d :: d in deals <==> d in multiset(deals);
    assert forall d :: d in other <==> d in multiset(other);
    assert PositionIds(deals) == PositionIds(other);
    var ids := Sorted(PositionIds(deals) - {0});
    TradedIn(deals, ids);
    forall i | 0 <= i < |ids|
      ensures var a, b := Results(deals)[i], Results(other)[i];
        a.positionId == b.positionId && forall c: Column :: OfResult(c, a) == OfResult(c, b)
    {
      ResultsForAt(deals, ids, i);
      ResultsForAt(other, ids, i);
      forall c: Column
        ensures OfResult(c, Results(deals)[i]) == OfResult(c, Results(other)[i])
      {
        TotalPermuted(c, deals, other, ids[i]);
        SummaryTotals(c, ids[i], Of(deals, ids[i]));
        SummaryTotals(c, ids[i], Of(other, ids[i]));
      }
    }
  }
}
