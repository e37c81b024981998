/** Merging reward rows into one row per miner (forecast_engine.merge_reward_component_rows), on the
    integer columns. */
module RowMerge {
  import opened Options
  import opened Ordering
  import opened Allocation

  /** A reward row: each column may be missing (a column present but None reads as zero, like Some(0)).
      `reliability` says that some averaged column is present; their values are not modelled. */
  datatype Row = Row(miner: string, submissions: Option<int>, fast: Option<int>, slow: Option<int>,
                     base: Option<int>, final: Option<int>, released: Option<int>, held: Option<int>,
                     gross: Option<int>, reliability: bool)

  /** The sums collected for one miner. */
  datatype Columns = Columns(submissions: int, fast: int, slow: int, base: int, final: int, released: int,
                             held: int, gross: int, components: bool)

  const NOTHING := Columns(0, 0, 0, 0, 0, 0, 0, 0, false)

  function Plus(a: Columns, b: Columns): Columns {
    Columns(a.submissions + b.submissions, a.fast + b.fast, a.slow + b.slow, a.base + b.base, a.final + b.final,
            a.released + b.released, a.held + b.held, a.gross + b.gross, a.components || b.components)
  }

  function Read(column: Option<int>, default: int): int {
    if column.Some? then column.value else default
  }

  predicate HasComponents(row: Row) {
    row.fast.Some? || row.slow.Some? || row.base.Some? || row.final.Some? || row.released.Some? || row.held.Some?
    || row.reliability
  }

  /** What one row adds: its final score defaults to its gross amount and the other way round. */
  function Value(row: Row): Columns {
    Columns(Read(row.submissions, 0), Read(row.fast, 0), Read(row.slow, 0), Read(row.base, 0),
            Read(row.final, Read(row.gross, 0)), Read(row.released, 0), Read(row.held, 0),
            Read(row.gross, Read(row.final, 0)), HasComponents(row))
  }

  /** The merged row: without component columns when none of its parts had any. */
  function Emit(miner: string, c: Columns): Row {
    if c.components then
      Row(miner, Some(c.submissions), Some(c.fast), Some(c.slow), Some(c.base), Some(c.final), Some(c.released),
          Some(c.held), Some(c.gross), true)
    else
      Row(miner, Some(c.submissions), None, None, None, None, None, None, Some(c.gross), false)
  }

  /** What the rows of one miner add up to. */
  function Total(rows: seq<Row>, miner: string): Columns {
    if rows == [] then NOTHING
    else
      var n := |rows| - 1;
      if rows[n].miner == miner then Plus(Total(rows[..n], miner), Value(rows[n])) else Total(rows[..n], miner)
  }

  /** What the rows of the given miners add up to. */
  function TotalAmong(rows: seq<Row>, miners: set<string>): Columns {
    if rows == [] then NOTHING
    else
      var n := |rows| - 1;
      var before := TotalAmong(rows[..n], miners);
      if rows[n].miner in miners then Plus(before, Value(rows[n])) else before
  }

  ghost function Miners(rows: seq<Row>): set<string> {
    set k | 0 <= k < |rows| && rows[k].miner != "" :: rows[k].miner
  }

  function EmitAll(miners: seq<string>, rows: seq<Row>): (out: seq<Row>)
    ensures |out| == |miners|
  {
    seq(|miners|, k requires 0 <= k < |miners| => Emit(miners[k], Total(rows, miners[k])))
  }

  /** One row per miner, in address order. */
  ghost function MergedOf(rows: seq<Row>): seq<Row> {
    EmitAll(SortedSeq(Miners(rows)), rows)
  }

  // ---- The loops ---------------------------------------------------------------------------------------

  ghost predicate GroupedBy(rows: seq<Row>, keys: seq<string>, grouped: map<string, Columns>) {
    && ListsSet(keys, Miners(rows)) && grouped.Keys == Miners(rows)
    && forall m :: m in grouped ==> grouped[m] == Total(rows, m)
  }

  method GroupRows(rows: seq<Row>) returns (keys: seq<string>, grouped: map<string, Columns>)
    ensures GroupedBy(rows, keys, grouped)
  {
    grouped, keys := map[], [];
    for k := 0 to |rows|
      invariant GroupedBy(rows[..k], keys, grouped)
    {
      GroupNext(rows[..k], rows[k], keys, grouped);
      assert rows[..k + 1] == rows[..k] + [rows[k]];
      hide GroupedBy, Value, Plus;
      var m := rows[k].miner;
      if m != "" {
        if m !in grouped {
          keys := keys + [m];
        }
        grouped := GroupIn(grouped, rows[k]);
      }
    }
    assert rows[..|rows|] == rows;
  }

  method MergeRows(rows: seq<Row>) returns (merged: seq<Row>)
    ensures merged == MergedOf(rows)
  {
    var keys, grouped := GroupRows(rows);
    merged := EmitGrouped(rows, keys, grouped);
  }

  /** One row per group, in address order. */
  method EmitGrouped(ghost rows: seq<Row>, keys: seq<string>, grouped: map<string, Columns>)
    returns (merged: seq<Row>)
    requires GroupedBy(rows, keys, grouped)
    ensures merged == MergedOf(rows)
  {
    hide Total, SortStrings, Emit, ListsSet;
    var sorted := SortStrings(keys);
    SortListing(keys, Miners(rows));
    InOrderUnique(sorted, SortedSeq(Miners(rows)), Miners(rows));
    SortedHeld(sorted, Miners(rows));
    hide Miners, SortedSeq;
    merged := [];
    for k := 0 to |sorted|
      invariant |merged| == k && forall i :: 0 <= i < k ==> merged[i] == Emit(sorted[i], Total(rows, sorted[i]))
    {
      merged := merged + [Emit(sorted[k], grouped[sorted[k]])];
    }
  }

  lemma SortedHeld(sorted: seq<string>, s: set<string>)
    requires InOrder(sorted, s)
    ensures forall k :: 0 <= k < |sorted| ==> sorted[k] in s
  {
  }

  /** grouped[m] += the row's columns, starting from nothing for a new miner. */
  function GroupIn(grouped: map<string, Columns>, row: Row): map<string, Columns> {
    grouped[row.miner := Plus(if row.miner in grouped then grouped[row.miner] else NOTHING, Value(row))]
  }

  lemma TotalNext(rows: seq<Row>, row: Row, m: string)
    ensures Total(rows + [row], m) == if row.miner == m then Plus(Total(rows, m), Value(row)) else Total(rows, m)
  {
    assert (rows + [row])[..|rows|] == rows;
  }

  lemma MinersNext(rows: seq<Row>, row: Row)
    ensures Miners(rows + [row]) == Miners(rows) + if row.miner == "" then {} else {row.miner}
  {
    var next := rows + [row];
    forall m ensures m in Miners(next) <==> m in Miners(rows) || (m == row.miner && m != "") {
      if m in Miners(rows) {
        var k :| 0 <= k < |rows| && rows[k].miner == m && m != "";
        assert next[k].miner == m;
      }
      if m == row.miner && m != "" {
        assert next[|rows|].miner == m;
      }
      if m in Miners(next) {
        var k :| 0 <= k < |next| && next[k].miner == m && m != "";
        assert k < |rows| ==> next[k] == rows[k];
      }
    }
  }

  lemma GroupNext(rows: seq<Row>, row: Row, keys: seq<string>, grouped: map<string, Columns>)
    requires GroupedBy(rows, keys, grouped)
    ensures row.miner == "" ==> GroupedBy(rows + [row], keys, grouped)
    ensures row.miner != "" ==>
              GroupedBy(rows + [row], if row.miner in grouped then keys else keys + [row.miner], GroupIn(grouped, row))
  {
    hide Value, Plus, Total, Miners;
    MinersNext(rows, row);
    forall m
      ensures Total(rows + [row], m) == if row.miner == m then Plus(Total(rows, m), Value(row)) else Total(rows, m)
    {
      TotalNext(rows, row, m);
    }
    if row.miner != "" {
      TotalNobody(rows, row.miner);
    }
    if row.miner == "" {
      NoEmptyMiner(rows);
    }
  }

  lemma NothingGrouped()
    ensures GroupedBy([], [], map[])
  {
  }

  lemma NoEmptyMiner(rows: seq<Row>)
    ensures "" !in Miners(rows)
  {
  }

  lemma {:induction false} TotalNobody(rows: seq<Row>, m: string)
    requires m != ""
    ensures m in Miners(rows) || Total(rows, m) == NOTHING
  {
    if rows != [] && m !in Miners(rows) {
      var n := |rows| - 1;
      assert rows[n].miner != m;
      assert m !in Miners(rows[..n]);
      TotalNobody(rows[..n], m);
    }
  }

  // ---- What merging keeps ------------------------------------------------------------------------------

  /** Without component columns the final score is the gross amount and the rest is zero. */
  predicate Consistent(c: Columns) {
    c.components || (c.fast == c.slow == c.base == c.released == c.held == 0 && c.final == c.gross)
  }

  lemma {:induction false} TotalConsistent(rows: seq<Row>, m: string)
    ensures Consistent(Total(rows, m))
  {
    if rows != [] {
      TotalConsistent(rows[..|rows| - 1], m);
    }
  }

  lemma EmitReadsBack(m: string, c: Columns)
    requires Consistent(c)
    ensures Value(Emit(m, c)) == c
  {
  }

  lemma {:induction false} TotalJoins(xs: seq<Row>, ys: seq<Row>, m: string)
    ensures Total(xs + ys, m) == Plus(Total(xs, m), Total(ys, m))
  {
    if ys == [] {
      assert xs + ys == xs;
    } else {
      var n := |ys| - 1;
      assert xs + ys == (xs + ys[..n]) + [ys[n]] && ys == ys[..n] + [ys[n]];
      TotalNext(xs + ys[..n], ys[n], m);
      TotalNext(ys[..n], ys[n], m);
      hide Value, Total;
      TotalJoins(xs, ys[..n], m);
    }
  }

  lemma {:induction false} TotalEmitted(keys: seq<string>, rows: seq<Row>, m: string)
    requires Distinct(keys)
    ensures Total(EmitAll(keys, rows), m) == if m in keys then Total(rows, m) else NOTHING
  {
    if keys != [] {
      var n := |keys| - 1;
      var last := Emit(keys[n], Total(rows, keys[n]));
      assert EmitAll(keys, rows) == EmitAll(keys[..n], rows) + [last];
      TotalEmitted(keys[..n], rows, m);
      TotalNext(EmitAll(keys[..n], rows), last, m);
      TotalConsistent(rows, keys[n]);
      EmitReadsBack(keys[n], Total(rows, keys[n]));
      hide Value, Total, EmitAll;
      assert keys == keys[..n] + [keys[n]];
      assert keys[n] !in keys[..n];
    }
  }

  lemma SortedMiners(rows: seq<Row>)
    ensures Distinct(SortedSeq(Miners(rows)))
    ensures forall m :: m in SortedSeq(Miners(rows)) <==> m in Miners(rows)
  {
  }

  /** Each miner's columns come through merging unchanged. */
  lemma MergeKeepsTotals(rows: seq<Row>, m: string)
    requires m != ""
    ensures Total(MergedOf(rows), m) == Total(rows, m)
  {
    SortedMiners(rows);
    TotalEmitted(SortedSeq(Miners(rows)), rows, m);
    TotalNobody(rows, m);
  }

  lemma MergedMiners(rows: seq<Row>)
    ensures Miners(MergedOf(rows)) == Miners(rows)
  {
    hide Total, SortedSeq;
    SortedMiners(rows);
    NoEmptyMiner(rows);
    var keys, merged := SortedSeq(Miners(rows)), MergedOf(rows);
    forall m ensures m in Miners(merged) <==> m in Miners(rows) {
      if m in Miners(rows) {
        var k :| 0 <= k < |keys| && keys[k] == m;
        assert merged[k].miner == m;
      }
      if m in Miners(merged) {
        var k :| 0 <= k < |merged| && merged[k].miner == m;
        assert keys[k] in Miners(rows);
      }
    }
  }

  lemma {:induction false} AmongGrows(rows: seq<Row>, s: set<string>, m: string)
    requires m !in s
    ensures TotalAmong(rows, s + {m}) == Plus(TotalAmong(rows, s), Total(rows, m))
  {
    if rows != [] {
      AmongGrows(rows[..|rows| - 1], s, m);
      hide Value;
    }
  }

  lemma {:induction false} AmongNobody(rows: seq<Row>)
    ensures TotalAmong(rows, {}) == NOTHING
  {
    if rows != [] {
      AmongNobody(rows[..|rows| - 1]);
    }
  }

  lemma {:induction false} AmongByEach(xs: seq<Row>, ys: seq<Row>, s: set<string>)
    requires forall m :: m in s ==> Total(xs, m) == Total(ys, m)
    ensures TotalAmong(xs, s) == TotalAmong(ys, s)
  {
    hide Total, TotalAmong;
    if s == {} {
      AmongNobody(xs);
      AmongNobody(ys);
    } else {
      var m :| m in s;
      AmongByEach(xs, ys, s - {m});
      AmongGrows(xs, s - {m}, m);
      AmongGrows(ys, s - {m}, m);
      assert s == (s - {m}) + {m};
    }
  }

  /** The sum of every integer column over the rows that name a miner. */
  ghost function ColumnSums(rows: seq<Row>): Columns {
    TotalAmong(rows, Miners(rows))
  }

  /** Merging keeps the sum of every integer column. */
  lemma MergeKeepsSums(rows: seq<Row>)
    ensures ColumnSums(MergedOf(rows)) == ColumnSums(rows)
  {
    hide Total, TotalAmong, MergedOf;
    MergedMiners(rows);
    NoEmptyMiner(rows);
    forall m | m in Miners(rows) ensures Total(MergedOf(rows), m) == Total(rows, m) {
      MergeKeepsTotals(rows, m);
    }
    AmongByEach(MergedOf(rows), rows, Miners(rows));
  }

  /** The merged rows name each miner once, in address order. */
  lemma MergedSorted(rows: seq<Row>, i: nat, j: nat)
    requires i < j < |MergedOf(rows)|
    ensures StringLeq(MergedOf(rows)[i].miner, MergedOf(rows)[j].miner)
    ensures MergedOf(rows)[i].miner != MergedOf(rows)[j].miner
  {
    hide StringLeq, Total;
    assert InOrder(SortedSeq(Miners(rows)), Miners(rows));
  }

  lemma MinersJoin(xs: seq<Row>, ys: seq<Row>)
    ensures Miners(xs + ys) == Miners(xs) + Miners(ys)
  {
    forall m ensures m in Miners(xs + ys) <==> m in Miners(xs) || m in Miners(ys) {
      if m in Miners(xs) {
        var k :| 0 <= k < |xs| && xs[k].miner == m && m != "";
        assert (xs + ys)[k].miner == m;
      }
      if m in Miners(ys) {
        var k :| 0 <= k < |ys| && ys[k].miner == m && m != "";
        assert (xs + ys)[|xs| + k].miner == m;
      }
    }
  }

  lemma MergedByTotals(xs: seq<Row>, ys: seq<Row>)
    requires Miners(xs) == Miners(ys) && forall m :: m in Miners(xs) ==> Total(xs, m) == Total(ys, m)
    ensures MergedOf(xs) == MergedOf(ys)
  {
    hide Total;
    SortedMiners(xs);
  }

  /** Merging merged parts is merging everything. */
  lemma MergeOfMerged(xs: seq<Row>, ys: seq<Row>)
    ensures MergedOf(MergedOf(xs) + MergedOf(ys)) == MergedOf(xs + ys)
  {
    hide Total, MergedOf, Miners;
    MergedMiners(xs);
    MergedMiners(ys);
    MinersJoin(MergedOf(xs), MergedOf(ys));
    MinersJoin(xs, ys);
    NoEmptyMiner(xs + ys);
    forall m | m in Miners(xs + ys) ensures Total(MergedOf(xs) + MergedOf(ys), m) == Total(xs + ys, m) {
      TotalJoins(MergedOf(xs), MergedOf(ys), m);
      TotalJoins(xs, ys, m);
      MergeKeepsTotals(xs, m);
      MergeKeepsTotals(ys, m);
    }
    MergedByTotals(MergedOf(xs) + MergedOf(ys), xs + ys);
  }

  /** Merging twice changes nothing more. */
  lemma MergeTwice(rows: seq<Row>)
    ensures MergedOf(MergedOf(rows)) == MergedOf(rows)
  {
    MergeOfMerged(rows, []);
    InOrderUnique([], SortedSeq(Miners([])), Miners([]));
    assert MergedOf(rows) + [] == MergedOf(rows) && rows + [] == rows;
  }

  // ---- From the pool to the anchored rows --------------------------------------------------------------

  /** A poker window's rows: the allocated amount of each economic unit, under its representative. */
  function WindowRows(items: seq<Item>, representative: map<string, string>, counts: map<string, int>,
                      allocations: map<string, int>): (rows: seq<Row>)
    requires forall k :: 0 <= k < |items| ==> items[k].id in representative
    ensures |rows| == |items|
  {
    seq(|items|, k requires 0 <= k < |items| =>
      Row(representative[items[k].id], Some(if items[k].id in counts then counts[items[k].id] else 0),
          None, None, None, None, None, None,
          Some(if items[k].id in allocations then allocations[items[k].id] else 0), false))
  }

  lemma {:induction false} WindowGross(items: seq<Item>, representative: map<string, string>, counts: map<string, int>,
                                      allocations: map<string, int>, s: set<string>)
    requires forall k :: 0 <= k < |items| ==> items[k].id in representative && representative[items[k].id] in s
    ensures TotalAmong(WindowRows(items, representative, counts, allocations), s).gross
              == AllocatedFromBack(items, allocations)
  {
    if items != [] {
      var n := |items| - 1;
      var rows := WindowRows(items, representative, counts, allocations);
      assert rows[..n] == WindowRows(items[..n], representative, counts, allocations);
      WindowGross(items[..n], representative, counts, allocations, s);
    }
  }

  function AllocatedFromBack(items: seq<Item>, allocations: map<string, int>): int {
    if items == [] then 0
    else
      var n := |items| - 1;
      AllocatedFromBack(items[..n], allocations) + if items[n].id in allocations then allocations[items[n].id] else 0
  }

  lemma {:induction false} AllocatedSnoc(items: seq<Item>, item: Item, allocations: map<string, int>)
    ensures AllocatedTo(items + [item], allocations)
              == AllocatedTo(items, allocations) + if item.id in allocations then allocations[item.id] else 0
  {
    if items != [] {
      assert (items + [item])[1..] == items[1..] + [item];
      AllocatedSnoc(items[1..], item, allocations);
    }
  }

  lemma {:induction false} AllocatedBothWays(items: seq<Item>, allocations: map<string, int>)
    ensures AllocatedFromBack(items, allocations) == AllocatedTo(items, allocations)
  {
    if items != [] {
      var n := |items| - 1;
      AllocatedBothWays(items[..n], allocations);
      AllocatedSnoc(items[..n], items[n], allocations);
      assert items == items[..n] + [items[n]];
    }
  }

  /** The rows of a poker window, merged or not, add up to the pool that was allocated. */
  lemma WindowRowsSumToPool(items: seq<Item>, representative: map<string, string>, counts: map<string, int>,
                            pool: int, allocations: map<string, int>)
    requires items != [] && DistinctIds(items) && Allotment(items, pool, allocations)
    requires forall k :: 0 <= k < |items| ==> items[k].id in representative && representative[items[k].id] != ""
    ensures ColumnSums(WindowRows(items, representative, counts, allocations)).gross == pool
    ensures ColumnSums(MergedOf(WindowRows(items, representative, counts, allocations))).gross == pool
  {
    hide Allotment, TotalAmong, MergedOf;
    var rows := WindowRows(items, representative, counts, allocations);
    MergeKeepsSums(rows);
    forall k | 0 <= k < |items| ensures representative[items[k].id] in Miners(rows) {
      assert rows[k].miner == representative[items[k].id];
    }
    WindowGross(items, representative, counts, allocations, Miners(rows));
    AllocatedBothWays(items, allocations);
    PoolIsSpent(items, pool, allocations);
  }
}
