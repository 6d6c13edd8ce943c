/** The memory table and its scoped facades: append, then prune to a rolling window. */
module Memory {
  import opened Common
  import opened Clip

  datatype Scope = ShortTerm | Trade | World | Strategy

  datatype Kind =
    | MarketObservation | StrategySignal | TradeProposal | SupervisorDecision
    | Execution | Outcome | StrategyNote | WorldNote

  const MAX_SUMMARY_LEN := 280

  datatype MemoryRecord = MemoryRecord(scope: Scope, kind: Kind, summary: string, symbol: string, createdAt: real)

  /** The record's constructor: the summary must not be blank nor too long. */
  function NewRecord(scope: Scope, kind: Kind, summary: string, symbol: string, createdAt: real)
    : Answer<MemoryRecord>
  {
    var _ :- Check(!Blank(summary));
    var _ :- Check(|summary| <= MAX_SUMMARY_LEN);
    Returned(MemoryRecord(scope, kind, summary, symbol, createdAt))
  }

  datatype Row = Row(id: nat, record: MemoryRecord)

  /** The table, in insertion order, and the next automatic id. */
  datatype Table = Table(rows: seq<Row>, nextId: nat)

  /** Ids grow with insertion and are never reused. */
  predicate Increasing(rows: seq<Row>) {
    forall i, j | 0 <= i < j < |rows| :: rows[i].id < rows[j].id
  }

  predicate ValidTable(t: Table) {
    Increasing(t.rows) && forall r | r in t.rows :: r.id < t.nextId
  }

  // ---- The statements ----------------------------------------------------------------------------

  function Insert(t: Table, record: MemoryRecord): Table {
    Table(t.rows + [Row(t.nextId, record)], t.nextId + 1)
  }

  /** The optional conditions of a query. */
  datatype Filter = Filter(symbol: Option<string>, kind: Option<Kind>, since: Option<real>)

  const ANY := Filter(None, None, None)

  /** WHERE scope = ? AND symbol = ? AND kind = ? AND created_at >= ?; an empty symbol does not filter. */
  predicate Matches(r: MemoryRecord, scope: Scope, filter: Filter) {
    && r.scope == scope
    && (filter.symbol.Some? && filter.symbol.value != "" ==> r.symbol == filter.symbol.value)
    && (filter.kind.Some? ==> r.kind == filter.kind.value)
    && (filter.since.Some? ==> r.createdAt >= filter.since.value)
  }

  /** Each condition of a query by itself, and all of them together. */
  lemma MatchesIff(r: MemoryRecord, scope: Scope, symbol: string, kind: Kind, since: real, filter: Filter)
    ensures Matches(r, scope, ANY) <==> r.scope == scope
    ensures Matches(r, scope, ANY.(symbol := Some(symbol)))
        <==> r.scope == scope && (symbol == "" || r.symbol == symbol)
    ensures Matches(r, scope, ANY.(kind := Some(kind))) <==> r.scope == scope && r.kind == kind
    ensures Matches(r, scope, ANY.(since := Some(since))) <==> r.scope == scope && since <= r.createdAt
    ensures Matches(r, scope, filter) <==>
      && Matches(r, scope, ANY.(symbol := filter.symbol)) && Matches(r, scope, ANY.(kind := filter.kind))
      && Matches(r, scope, ANY.(since := filter.since))
  {
  }

  function Where(rows: seq<Row>, scope: Scope, filter: Filter): (r: seq<Row>)
    ensures forall row | row in r :: row in rows && Matches(row.record, scope, filter)
  {
    if rows == [] then [] else
      (if Matches(rows[0].record, scope, filter) then [rows[0]] else [])
      + Where(rows[1..], scope, filter)
  }

  function OfScope(rows: seq<Row>, scope: Scope): seq<Row> {
    Where(rows, scope, ANY)
  }

  /** ORDER BY id DESC, for rows kept in id order. */
  function NewestFirst<T>(rows: seq<T>): (r: seq<T>)
    ensures |r| == |rows|
  {
    seq(|rows|, i requires 0 <= i < |rows| => rows[|rows| - 1 - i])
  }

  /** LIMIT ? */
  function Take<T>(s: seq<T>, n: nat): (r: seq<T>)
    ensures |r| == if n < |s| then n else |s|
  {
    if n < |s| then s[..n] else s
  }

  function Ids(rows: seq<Row>): set<nat> {
    set r | r in rows :: r.id
  }

  /** DELETE ... WHERE scope = ? AND id NOT IN ids */
  function DeleteOthers(rows: seq<Row>, scope: Scope, ids: set<nat>): (r: seq<Row>)
    ensures forall row | row in r :: row in rows
  {
    if rows == [] then [] else
      (if rows[0].record.scope == scope && rows[0].id !in ids then [] else [rows[0]])
      + DeleteOthers(rows[1..], scope, ids)
  }

  function PruneTable(t: Table, scope: Scope, keepLast: nat): Table {
    t.(rows := DeleteOthers(t.rows, scope, Ids(Take(NewestFirst(OfScope(t.rows, scope)), keepLast))))
  }

  function Query(t: Table, scope: Scope, limit: nat, filter: Filter): seq<Row> {
    Take(NewestFirst(Where(t.rows, scope, filter)), limit)
  }

  // ---- The store and its facades -----------------------------------------------------------------

  /**
    * `found` answers a query: matching rows of the table, newest first, at most `limit`; a matching row is
    * missing only if the limit was used up by newer ones.
    */
  predicate NewestMatching(
    found: seq<Row>, rows: seq<Row>, scope: Scope, limit: nat, filter: Filter)
  {
    && |found| <= limit
    && (forall i | 0 <= i < |found| :: found[i] in rows && Matches(found[i].record, scope, filter))
    && (forall i, j | 0 <= i < j < |found| :: found[i].id > found[j].id)
    && (forall row | row in rows && Matches(row.record, scope, filter) && row !in found ::
          |found| == limit && forall i | 0 <= i < |found| :: found[i].id > row.id)
  }

  function RowsOf(rows: seq<Row>, scope: Scope): set<Row> {
    set row | row in rows && row.record.scope == scope
  }

  class SQLiteMemoryStore {
    var table: Table

    predicate Valid()
      reads this
    {
      ValidTable(table)
    }

    constructor ()
      ensures Valid() && table == Table([], 1)
    {
      table := Table([], 1);
    }

    method Append(record: MemoryRecord) returns (id: nat)
      requires Valid()
      modifies this
      ensures Valid() && table == Insert(old(table), record) && id == old(table).nextId
      ensures table.rows == old(table.rows) + [Row(id, record)] && table.nextId > id
    {
      id := table.nextId;
      table := Table(table.rows + [Row(id, record)], id + 1);
    }

    /** Keeps the newest rows of the scope, leaves other scopes alone, and returns how many rows were deleted. */
    method Prune(scope: Scope, keepLast: int) returns (r: Answer<int>)
      requires Valid()
      modifies this
      ensures Valid() && table.nextId == old(table).nextId
      ensures keepLast < 0 ==> r.Raised? && table == old(table)
      ensures keepLast >= 0 ==>
        && r == Returned(|old(table).rows| - |table.rows|)
        && OfScope(table.rows, scope) == Last(OfScope(old(table).rows, scope), keepLast)
        && (forall other | other != scope :: OfScope(table.rows, other) == OfScope(old(table).rows, other))
        && table == PruneTable(old(table), scope, keepLast)
    {
      if keepLast < 0 { return Raised(Exception(ValueError, "keep_last")); }
      forall other: Scope
        ensures var after := PruneTable(table, scope, keepLast);
          OfScope(after.rows, other) ==
            if other == scope then Last(OfScope(table.rows, scope), keepLast) else OfScope(table.rows, other)
      {
        PruneKeepsNewest(table, scope, keepLast, other);
      }
      PruneKeepsNewest(table, scope, keepLast, scope);
      var before := |table.rows|;
      table := PruneTable(table, scope, keepLast);
      r := Returned(before - |table.rows|);
    }

    method Recent(scope: Scope, limit: int, filter: Filter)
      returns (r: Answer<seq<Row>>)
      requires Valid()
      ensures r.Raised? <==> limit < 1
      ensures r.Returned? ==> NewestMatching(r.value, table.rows, scope, limit, filter)
    {
      if limit < 1 { return Raised(Exception(ValueError, "limit")); }
      r := Returned(Query(table, scope, limit, filter));
      QueryIsNewest(table, scope, limit, filter);
    }

    method Count(scope: Scope) returns (n: nat)
      requires Valid()
      ensures n == |RowsOf(table.rows, scope)|
    {
      n := |OfScope(table.rows, scope)|;
      ScopeSize(table.rows, scope);
    }
  }

  /** A facade's write: clip, append, prune its own scope. */
  function WriteTo(
    t: Table, scope: Scope, keepLast: nat, kind: Kind, summary: string, symbol: string, createdAt: real): Table
  {
    var record := NewRecord(scope, kind, ClipTo(summary, MAX_SUMMARY_LEN), symbol, createdAt);
    if record.Raised? then t else PruneTable(Insert(t, record.value), scope, keepLast)
  }

  class ScopedMemory {
    const store: SQLiteMemoryStore
    const scope: Scope
    const keepLast: nat

    constructor (store: SQLiteMemoryStore, scope: Scope, keepLast: nat)
      requires keepLast >= 1
      ensures this.store == store && this.scope == scope && this.keepLast == keepLast
    {
      this.store, this.scope, this.keepLast := store, scope, keepLast;
    }

    method Write(kind: Kind, summary: string, symbol: string, createdAt: real) returns (r: Answer<nat>)
      requires store.Valid()
      modifies store
      ensures store.Valid()
      ensures store.table == WriteTo(old(store.table), scope, keepLast, kind, summary, symbol, createdAt)
      ensures r.Raised? <==> Blank(summary)
      ensures r.Returned? ==> r.value == old(store.table).nextId
    {
      ClipKeepsBlankness(summary, MAX_SUMMARY_LEN);
      ClipNormalForm(summary, MAX_SUMMARY_LEN);
      var record :- NewRecord(scope, kind, ClipTo(summary, MAX_SUMMARY_LEN), symbol, createdAt);
      var id := store.Append(record);
      var _ := store.Prune(scope, keepLast);
      r := Returned(id);
    }
  }

  // ---- Pruning keeps the newest rows of one scope ------------------------------------------------

  function WithIds(rows: seq<Row>, ids: set<nat>): seq<Row> {
    if rows == [] then [] else (if rows[0].id in ids then [rows[0]] else []) + WithIds(rows[1..], ids)
  }

  lemma {:induction false} ScopeExtend(rows: seq<Row>, row: Row, longer: seq<Row>, scope: Scope)
    requires longer == rows + [row]
    ensures OfScope(longer, scope) == OfScope(rows, scope) + (if row.record.scope == scope then [row] else [])
  {
    if rows == [] {
      ScopeCons(row, [], longer, scope);
    } else {
      ScopeExtend(rows[1..], row, longer[1..], scope);
      ScopeCons(rows[0], rows[1..], rows, scope);
      ScopeCons(rows[0], longer[1..], longer, scope);
      RowsRegroup(rows[0], OfScope(rows[1..], scope), if row.record.scope == scope then [row] else []);
    }
  }

  lemma RowsRegroup(first: Row, rows: seq<Row>, more: seq<Row>)
    ensures [first] + (rows + more) == ([first] + rows) + more
  {
  }

  lemma ScopeCons(row: Row, rest: seq<Row>, rows: seq<Row>, scope: Scope)
    requires rows == [row] + rest
    ensures OfScope(rows, scope) ==
      if row.record.scope == scope then [row] + OfScope(rest, scope) else OfScope(rest, scope)
  {
    WhereCons(row, rest, scope, ANY);
  }

  lemma {:induction false} WhereIncreasing(rows: seq<Row>, scope: Scope, filter: Filter)
    requires Increasing(rows)
    ensures Increasing(Where(rows, scope, filter))
  {
    if rows != [] {
      WhereIncreasing(rows[1..], scope, filter);
      forall row | row in Where(rows[1..], scope, filter)
        ensures rows[0].id < row.id
      {
        assert row in rows[1..];
      }
    }
  }

  lemma {:induction false} DeleteIncreasing(rows: seq<Row>, scope: Scope, ids: set<nat>)
    requires Increasing(rows)
    ensures Increasing(DeleteOthers(rows, scope, ids))
  {
    if rows != [] {
      DeleteIncreasing(rows[1..], scope, ids);
      forall row | row in DeleteOthers(rows[1..], scope, ids)
        ensures rows[0].id < row.id
      {
        assert row in rows[1..];
      }
    }
  }

  lemma {:induction false} DeleteByScope(rows: seq<Row>, scope: Scope, ids: set<nat>, other: Scope)
    ensures OfScope(DeleteOthers(rows, scope, ids), other)
         == if other == scope then WithIds(OfScope(rows, scope), ids) else OfScope(rows, other)
  {
    if rows != [] {
      DeleteByScope(rows[1..], scope, ids, other);
      DeleteStep(rows[0], rows[1..], rows, DeleteOthers(rows[1..], scope, ids), DeleteOthers(rows, scope, ids),
                 scope, ids, other);
    }
  }

  /** One row in front of `rest`, of which a delete leaves `left`. */
  lemma DeleteStep(
    row: Row, rest: seq<Row>, rows: seq<Row>, left: seq<Row>, kept: seq<Row>, scope: Scope, ids: set<nat>,
    other: Scope)
    requires rows == [row] + rest
    requires kept == if row.record.scope == scope && row.id !in ids then left else [row] + left
    requires OfScope(left, other)
          == if other == scope then WithIds(OfScope(rest, scope), ids) else OfScope(rest, other)
    ensures OfScope(kept, other)
         == if other == scope then WithIds(OfScope(rows, scope), ids) else OfScope(rows, other)
  {
    ScopeCons(row, rest, rows, other);
    if kept != left {
      ScopeCons(row, left, kept, other);
    }
    WithIdsCons(row, OfScope(rest, other), ids);
  }

  lemma WhereCons(row: Row, rest: seq<Row>, scope: Scope, filter: Filter)
    ensures Where([row] + rest, scope, filter) ==
      if Matches(row.record, scope, filter) then [row] + Where(rest, scope, filter)
      else Where(rest, scope, filter)
  {
  }

  lemma WithIdsCons(row: Row, rest: seq<Row>, ids: set<nat>)
    ensures WithIds([row] + rest, ids) == if row.id in ids then [row] + WithIds(rest, ids) else WithIds(rest, ids)
  {
  }

  lemma {:induction false} WithAllIds(rows: seq<Row>, ids: set<nat>)
    requires forall r | r in rows :: r.id in ids
    ensures WithIds(rows, ids) == rows
  {
    if rows != [] {
      assert rows[0] in rows && forall r | r in rows[1..] :: r in rows;
      WithAllIds(rows[1..], ids);
    }
  }

  lemma {:induction false} WithNewestIds(rows: seq<Row>, n: nat, newest: seq<Row>, ids: set<nat>)
    requires Increasing(rows) && newest == Last(rows, n) && ids == Ids(newest)
    ensures WithIds(rows, ids) == newest
  {
    if |rows| <= n {
      WithAllIds(rows, ids);
    } else {
      LastOfTail(rows, n);
      WithNewestIds(rows[1..], n, newest, ids);
      OldestIsDropped(rows, n);
    }
  }

  lemma LastOfTail(rows: seq<Row>, n: nat)
    requires |rows| > n
    ensures Last(rows[1..], n) == Last(rows, n)
  {
  }

  lemma OldestIsDropped(rows: seq<Row>, n: nat)
    requires Increasing(rows) && |rows| > n
    ensures rows[0].id !in Ids(Last(rows, n))
  {
    forall r | r in Last(rows, n)
      ensures r.id != rows[0].id
    {
      var i :| 0 <= i < n && Last(rows, n)[i] == r;
      assert r == rows[|rows| - n + i];
    }
  }

  lemma NewestIds(rows: seq<Row>, n: nat)
    ensures Ids(Take(NewestFirst(rows), n)) == Ids(Last(rows, n))
  {
    var a, b := Take(NewestFirst(rows), n), Last(rows, n);
    assert |a| == |b|;
    assert forall i | 0 <= i < |a| :: a[i] == b[|b| - 1 - i];
    assert forall i | 0 <= i < |b| :: b[i] == a[|b| - 1 - i];
    assert forall r | r in a :: r in b;
    assert forall r | r in b :: r in a;
  }

  /** A prune leaves exactly the newest rows of its scope, and every other scope as it was. */
  lemma PruneKeepsNewest(t: Table, scope: Scope, keepLast: nat, other: Scope)
    requires ValidTable(t)
    ensures var after := PruneTable(t, scope, keepLast);
      && ValidTable(after) && after.nextId == t.nextId
      && OfScope(after.rows, other)
           == if other == scope then Last(OfScope(t.rows, scope), keepLast) else OfScope(t.rows, other)
  {
    var mine := OfScope(t.rows, scope);
    var ids := Ids(Take(NewestFirst(mine), keepLast));
    WhereIncreasing(t.rows, scope, ANY);
    NewestIds(mine, keepLast);
    WithNewestIds(mine, keepLast, Last(mine, keepLast), ids);
    DeleteByScope(t.rows, scope, ids, other);
    DeleteIncreasing(t.rows, scope, ids);
  }

  // ---- Queries -----------------------------------------------------------------------------------

  lemma {:induction false} WhereHasAll(rows: seq<Row>, scope: Scope, filter: Filter, row: Row)
    ensures row in Where(rows, scope, filter) <==> row in rows && Matches(row.record, scope, filter)
  {
    if rows != [] {
      WhereHasAll(rows[1..], scope, filter, row);
      WhereCons(rows[0], rows[1..], scope, filter);
      assert rows == [rows[0]] + rows[1..];
    }
  }

  /** The newest-first prefix of increasing rows leaves out only older ones. */
  lemma NewestPrefix(rows: seq<Row>, limit: nat)
    requires Increasing(rows)
    ensures var found := Take(NewestFirst(rows), limit);
      && (forall i | 0 <= i < |found| :: found[i] in rows)
      && (forall i, j | 0 <= i < j < |found| :: found[i].id > found[j].id)
      && (forall row | row in rows && row !in found ::
            |found| == limit && forall i | 0 <= i < |found| :: found[i].id > row.id)
  {
    var found := Take(NewestFirst(rows), limit);
    forall row | row in rows && row !in found
      ensures |found| == limit && forall i | 0 <= i < |found| :: found[i].id > row.id
    {
      var k :| 0 <= k < |rows| && rows[k] == row;
      var at := |rows| - 1 - k;
      assert NewestFirst(rows)[at] == row;
      assert found == NewestFirst(rows)[..|found|];
      assert at >= |found|;
    }
  }

  lemma QueryIsNewest(t: Table, scope: Scope, limit: nat, filter: Filter)
    requires ValidTable(t)
    ensures NewestMatching(Query(t, scope, limit, filter), t.rows, scope, limit, filter)
  {
    var matching := Where(t.rows, scope, filter);
    WhereIncreasing(t.rows, scope, filter);
    NewestPrefix(matching, limit);
    forall row | row in t.rows && Matches(row.record, scope, filter)
      ensures row in matching
    {
      WhereHasAll(t.rows, scope, filter, row);
    }
  }

  /** Ids are distinct, so counting the selected rows counts the rows of the scope. */
  lemma {:induction false} ScopeSize(rows: seq<Row>, scope: Scope)
    requires Increasing(rows)
    ensures |OfScope(rows, scope)| == |RowsOf(rows, scope)|
  {
    if rows != [] {
      ScopeSize(rows[1..], scope);
      FirstSelected(rows, scope);
      FirstRow(rows, scope);
    }
  }

  lemma FirstSelected(rows: seq<Row>, scope: Scope)
    requires rows != []
    ensures |OfScope(rows, scope)| == |OfScope(rows[1..], scope)| + (if rows[0].record.scope == scope then 1 else 0)
  {
    WhereCons(rows[0], rows[1..], scope, ANY);
    assert rows == [rows[0]] + rows[1..];
  }

  lemma FirstRow(rows: seq<Row>, scope: Scope)
    requires rows != [] && Increasing(rows)
    ensures |RowsOf(rows, scope)| == |RowsOf(rows[1..], scope)| + (if rows[0].record.scope == scope then 1 else 0)
  {
    var here, rest := RowsOf(rows, scope), RowsOf(rows[1..], scope);
    assert rows[0] !in rows[1..];
    assert forall row :: row in rows <==> row == rows[0] || row in rows[1..];
    if rows[0].record.scope == scope {
      assert here == rest + {rows[0]};
    } else {
      assert here == rest;
    }
  }

  // ---- Runs of writes through the four facades ---------------------------------------------------

  datatype WriteCall = WriteCall(scope: Scope, kind: Kind, summary: string, symbol: string, createdAt: real)

  /** The record that a write leaves, unless its text is blank: its own fields, and the text clipped to 280. */
  function KeptRecord(c: WriteCall): Option<MemoryRecord> {
    if forall i | 0 <= i < |c.summary| :: IsSpace(c.summary[i]) then None
    else Some(MemoryRecord(c.scope, c.kind, ClipTo(c.summary, 280), c.symbol, c.createdAt))
  }

  lemma NewRecordIsKept(c: WriteCall)
    ensures var record := NewRecord(c.scope, c.kind, ClipTo(c.summary, MAX_SUMMARY_LEN), c.symbol, c.createdAt);
      if KeptRecord(c).Some? then record == Returned(KeptRecord(c).value) else record.Raised?
  {
    BlankIff(c.summary);
    ClipKeepsBlankness(c.summary, MAX_SUMMARY_LEN);
    ClipNormalForm(c.summary, MAX_SUMMARY_LEN);
  }

  function TableAfter(keep: Scope -> nat, writes: seq<WriteCall>): Table {
    if writes == [] then Table([], 1) else
      var c := writes[|writes| - 1];
      WriteTo(TableAfter(keep, writes[..|writes| - 1]), c.scope, keep(c.scope),
              c.kind, c.summary, c.symbol, c.createdAt)
  }

  /** Everything ever appended to a scope, oldest first. */
  function Appended(writes: seq<WriteCall>, scope: Scope): seq<MemoryRecord> {
    if writes == [] then [] else
      var c := writes[|writes| - 1];
      Appended(writes[..|writes| - 1], scope)
      + (if c.scope == scope && KeptRecord(c).Some? then [KeptRecord(c).value] else [])
  }

  function Records(rows: seq<Row>): (r: seq<MemoryRecord>)
    ensures |r| == |rows|
  {
    seq(|rows|, i requires 0 <= i < |rows| => rows[i].record)
  }

  lemma LastOfLast<T>(xs: seq<T>, x: T, n: nat)
    requires n >= 1
    ensures Last(Last(xs, n) + [x], n) == Last(xs + [x], n)
  {
  }

  lemma RecordsOfLast(rows: seq<Row>, n: nat)
    ensures Records(Last(rows, n)) == Last(Records(rows), n)
  {
  }

  lemma InsertByScope(t: Table, record: MemoryRecord, scope: Scope)
    requires ValidTable(t)
    ensures ValidTable(Insert(t, record))
    ensures Records(OfScope(Insert(t, record).rows, scope))
         == Records(OfScope(t.rows, scope)) + (if record.scope == scope then [record] else [])
  {
    var row := Row(t.nextId, record);
    ScopeExtend(t.rows, row, Insert(t, record).rows, scope);
    if record.scope == scope {
      RecordsExtend(OfScope(t.rows, scope), row);
    }
  }

  lemma RecordsExtend(rows: seq<Row>, row: Row)
    ensures Records(rows + [row]) == Records(rows) + [row.record]
  {
  }

  lemma WindowStep(t: Table, record: MemoryRecord, keep: nat, scope: Scope, past: seq<MemoryRecord>, window: nat)
    requires ValidTable(t) && Records(OfScope(t.rows, scope)) == Last(past, window)
    requires record.scope == scope ==> keep == window >= 1
    ensures var after := PruneTable(Insert(t, record), record.scope, keep);
      && ValidTable(after) && after.nextId == t.nextId + 1
      && Records(OfScope(after.rows, scope)) == Last(past + (if record.scope == scope then [record] else []), window)
  {
    InsertByScope(t, record, scope);
    PruneKeepsNewest(Insert(t, record), record.scope, keep, scope);
    if record.scope == scope {
      RecordsOfLast(OfScope(Insert(t, record).rows, scope), window);
      LastOfLast(past, record, window);
    } else {
      assert past + [] == past;
    }
  }

  /** After any interleaving of writes, each scope holds exactly the last records appended to it. */
  lemma {:induction false} RollingWindow(keep: Scope -> nat, writes: seq<WriteCall>, scope: Scope)
    requires forall s :: keep(s) >= 1
    ensures var t := TableAfter(keep, writes);
      && ValidTable(t)
      && Records(OfScope(t.rows, scope)) == Last(Appended(writes, scope), keep(scope))
  {
    if writes != [] {
      var n := |writes| - 1;
      RollingWindow(keep, writes[..n], scope);
      var c, before, past := writes[n], TableAfter(keep, writes[..n]), Appended(writes[..n], scope);
      var kept := KeptRecord(c);
      NewRecordIsKept(c);
      if kept.Some? {
        WindowStep(before, kept.value, keep(c.scope), scope, past, keep(scope));
      } else {
        assert Appended(writes, scope) == past;
      }
    }
  }

  function FilterRecords(records: seq<MemoryRecord>, scope: Scope, filter: Filter)
    : seq<MemoryRecord>
  {
    if records == [] then [] else
      (if Matches(records[0], scope, filter) then [records[0]] else [])
      + FilterRecords(records[1..], scope, filter)
  }

  lemma {:induction false} FilterInScope(rows: seq<Row>, scope: Scope, filter: Filter)
    ensures Records(Where(rows, scope, filter)) == FilterRecords(Records(OfScope(rows, scope)), scope, filter)
  {
    if rows != [] {
      var row, rest := rows[0], rows[1..];
      FilterInScope(rest, scope, filter);
      assert rows == [row] + rest;
      WhereCons(row, rest, scope, filter);
      WhereCons(row, rest, scope, ANY);
      RecordsCons(row, Where(rest, scope, filter));
      RecordsCons(row, OfScope(rest, scope));
      FilterCons(row.record, Records(OfScope(rest, scope)), scope, filter);
    }
  }

  lemma RecordsCons(row: Row, rest: seq<Row>)
    ensures Records([row] + rest) == [row.record] + Records(rest)
  {
  }

  lemma FilterCons(r: MemoryRecord, rest: seq<MemoryRecord>, scope: Scope, filter: Filter)
    ensures FilterRecords([r] + rest, scope, filter) ==
      if Matches(r, scope, filter) then [r] + FilterRecords(rest, scope, filter)
      else FilterRecords(rest, scope, filter)
  {
  }

  lemma RecordsOfNewest(rows: seq<Row>, limit: nat)
    ensures Records(Take(NewestFirst(rows), limit)) == Take(NewestFirst(Records(rows)), limit)
  {
  }

  /** `recent` is the newest-first, filtered prefix of the scope's window. */
  lemma RecentIsNewestPrefix(
    keep: Scope -> nat, writes: seq<WriteCall>, scope: Scope, limit: nat, filter: Filter)
    requires forall s :: keep(s) >= 1
    ensures Records(Query(TableAfter(keep, writes), scope, limit, filter))
         == Take(NewestFirst(FilterRecords(Last(Appended(writes, scope), keep(scope)), scope, filter)), limit)
  {
    var t := TableAfter(keep, writes);
    RollingWindow(keep, writes, scope);
    FilterInScope(t.rows, scope, filter);
    RecordsOfNewest(Where(t.rows, scope, filter), limit);
  }
}
