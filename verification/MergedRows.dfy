/** What merged reward rows are, row by row and column by column, without the grouping that makes them
    (forecast_engine.merge_reward_component_rows). */
module MergedRows {
  import opened Options
  import opened Ordering
  import opened Allocation
  import opened RowMerge

  datatype Column = Submissions | Fast | Slow | Base | Final | Released | Held | Gross

  /** What a row holds in a column: nothing if it is missing, but the gross amount stands in for a missing final
      score and the other way round. */
  function Cell(row: Row, column: Column): int {
    match column
    case Submissions => if row.submissions.Some? then row.submissions.value else 0
    case Fast => if row.fast.Some? then row.fast.value else 0
    case Slow => if row.slow.Some? then row.slow.value else 0
    case Base => if row.base.Some? then row.base.value else 0
    case Final =>
      if row.final.Some? then row.final.value else if row.gross.Some? then row.gross.value else 0
    case Released => if row.released.Some? then row.released.value else 0
    case Held => if row.held.Some? then row.held.value else 0
    case Gross =>
      if row.gross.Some? then row.gross.value else if row.final.Some? then row.final.value else 0
  }

  /** A miner's cells of one column, added up. */
  function Summed(rows: seq<Row>, miner: string, column: Column): int {
    if rows == [] then 0
    else
      var n := |rows| - 1;
      Summed(rows[..n], miner, column) + if rows[n].miner == miner then Cell(rows[n], column) else 0
  }

  /** A row with nothing but submissions and a gross amount. */
  predicate Plain(row: Row) {
    && row.fast.None? && row.slow.None? && row.base.None? && row.final.None? && row.released.None?
    && row.held.None? && !row.reliability
  }

  /** A row with every column. */
  predicate Full(row: Row) {
    && row.fast.Some? && row.slow.Some? && row.base.Some? && row.final.Some? && row.released.Some?
    && row.held.Some? && row.reliability
  }

  ghost predicate Names(rows: seq<Row>, miner: string) {
    exists k :: 0 <= k < |rows| && rows[k].miner == miner
  }

  ghost predicate AllPlain(rows: seq<Row>, miner: string) {
    forall k :: 0 <= k < |rows| && rows[k].miner == miner ==> Plain(rows[k])
  }

  /** A row holds its miner's sums, and shows all columns unless none of the miner's rows showed any. */
  ghost predicate RowSums(rows: seq<Row>, row: Row) {
    && row.submissions.Some? && row.gross.Some?
    && (forall column :: Cell(row, column) == Summed(rows, row.miner, column))
    && if AllPlain(rows, row.miner) then Plain(row) else Full(row)
  }

  /** The rows merged: one row for each miner named, in address order, holding the miner's sums. */
  ghost predicate MergesTo(rows: seq<Row>, merged: seq<Row>) {
    && (forall i, j :: 0 <= i < j < |merged| ==>
         merged[i].miner != merged[j].miner && StringLeq(merged[i].miner, merged[j].miner))
    && (forall miner :: Names(merged, miner) == (miner != "" && Names(rows, miner)))
    && (forall k :: 0 <= k < |merged| ==> RowSums(rows, merged[k]))
  }

  function At(c: Columns, column: Column): int {
    match column
    case Submissions => c.submissions
    case Fast => c.fast
    case Slow => c.slow
    case Base => c.base
    case Final => c.final
    case Released => c.released
    case Held => c.held
    case Gross => c.gross
  }

  lemma CellValue(row: Row, column: Column)
    ensures At(Value(row), column) == Cell(row, column)
  {
  }

  lemma {:induction false} TotalSummed(rows: seq<Row>, miner: string, column: Column)
    ensures At(Total(rows, miner), column) == Summed(rows, miner, column)
  {
    if rows != [] {
      var n := |rows| - 1;
      TotalSummed(rows[..n], miner, column);
      CellValue(rows[n], column);
      hide Value, Cell;
    }
  }

  lemma PlainIff(row: Row)
    ensures Plain(row) == !Value(row).components
  {
  }

  lemma {:induction false} TotalPlain(rows: seq<Row>, miner: string)
    ensures Total(rows, miner).components == !AllPlain(rows, miner)
  {
    if rows != [] {
      var n := |rows| - 1;
      TotalPlain(rows[..n], miner);
      PlainIff(rows[n]);
      hide Value, Plain;
      assert rows == rows[..n] + [rows[n]];
    }
  }

  lemma EmittedSums(rows: seq<Row>, miner: string)
    ensures RowSums(rows, Emit(miner, Total(rows, miner)))
  {
    var row := Emit(miner, Total(rows, miner));
    TotalConsistent(rows, miner);
    EmitReadsBack(miner, Total(rows, miner));
    TotalPlain(rows, miner);
    hide Total, Summed, AllPlain, Value;
    forall column ensures Cell(row, column) == Summed(rows, row.miner, column) {
      CellValue(row, column);
      TotalSummed(rows, miner, column);
      hide Cell, At;
    }
  }

  lemma NamesIff(rows: seq<Row>, miner: string)
    ensures (miner in Miners(rows)) == (miner != "" && Names(rows, miner))
  {
  }

  /** Grouping the rows makes their merged rows. */
  lemma MergedOfMerges(rows: seq<Row>)
    ensures MergesTo(rows, MergedOf(rows))
  {
    hide RowSums, StringLeq, Total;
    var merged := MergedOf(rows);
    forall i, j | 0 <= i < j < |merged|
      ensures merged[i].miner != merged[j].miner && StringLeq(merged[i].miner, merged[j].miner)
    {
      MergedSorted(rows, i, j);
    }
    forall k | 0 <= k < |merged| ensures RowSums(rows, merged[k]) {
      EmittedSums(rows, SortedSeq(Miners(rows))[k]);
    }
    forall miner ensures Names(merged, miner) == (miner != "" && Names(rows, miner)) {
      MergedMiners(rows);
      NamesIff(rows, miner);
      NamesIff(merged, miner);
      EmptyUnnamed(rows);
    }
  }

  lemma EmptyUnnamed(rows: seq<Row>)
    ensures !Names(MergedOf(rows), "")
  {
    hide Total;
    NoEmptyMiner(rows);
    SortedHeld(SortedSeq(Miners(rows)), Miners(rows));
  }

  /** A poker window has one plain row for each economic unit: its representative, its submissions and its
      allocation, none and nothing where they are missing. */
  lemma PoolRows(items: seq<Item>, representative: map<string, string>, counts: map<string, int>,
                 allocations: map<string, int>, k: nat)
    requires forall i :: 0 <= i < |items| ==> items[i].id in representative
    requires k < |items|
    ensures
      var rows, id := WindowRows(items, representative, counts, allocations), items[k].id;
      && |rows| == |items| && rows[k].miner == representative[id] && Plain(rows[k])
      && rows[k].submissions == Some(if id in counts then counts[id] else 0)
      && rows[k].gross == Some(if id in allocations then allocations[id] else 0)
  {
  }

  lemma SameSums(rows: seq<Row>, a: Row, b: Row)
    requires RowSums(rows, a) && RowSums(rows, b) && a.miner == b.miner
    ensures a == b
  {
    forall column ensures Cell(a, column) == Cell(b, column) {
    }
    assert Cell(a, Submissions) == Cell(b, Submissions) && Cell(a, Fast) == Cell(b, Fast);
    assert Cell(a, Slow) == Cell(b, Slow) && Cell(a, Base) == Cell(b, Base) && Cell(a, Final) == Cell(b, Final);
    assert Cell(a, Released) == Cell(b, Released) && Cell(a, Held) == Cell(b, Held);
    assert Cell(a, Gross) == Cell(b, Gross);
  }

  /** There is one way to merge rows. */
  lemma MergedOnce(rows: seq<Row>, a: seq<Row>, b: seq<Row>)
    requires MergesTo(rows, a) && MergesTo(rows, b)
    ensures a == b
  {
    hide RowSums, StringLeq;
    var xs, ys := seq(|a|, k requires 0 <= k < |a| => a[k].miner), seq(|b|, k requires 0 <= k < |b| => b[k].miner);
    MinersInOrder(rows, a, xs);
    MinersInOrder(rows, b, ys);
    InOrderUnique(xs, ys, Miners(rows));
    forall k | 0 <= k < |a| ensures a[k] == b[k] {
      assert xs[k] == ys[k];
      SameSums(rows, a[k], b[k]);
    }
  }

  lemma MinersInOrder(rows: seq<Row>, merged: seq<Row>, miners: seq<string>)
    requires MergesTo(rows, merged)
    requires |miners| == |merged| && forall k :: 0 <= k < |miners| ==> miners[k] == merged[k].miner
    ensures InOrder(miners, Miners(rows))
  {
    hide RowSums, StringLeq;
    forall m ensures m in miners <==> m in Miners(rows) {
      NamesIff(rows, m);
      assert Names(merged, m) <==> m in miners;
    }
  }
}
