/** The reward rows of a forecast window (forecast_engine.build_forecast_reward_component_rows), and that
    they add up to the total the window is stored with. */
module ForecastRows {
  import opened Options
  import opened MapSums
  import opened Ordering
  import opened Rewards
  import opened RewardService
  import RowMerge
  import Settlement
  import SettlementService

  type Row = RowMerge.Row

  /** The submission counts for a row: it names a miner and was revealed. */
  predicate Shows(s: Submission) {
    s.miner != "" && s.pYes.Some?
  }

  /** What one submission adds to its miner's row; `direct` is its score before multipliers. */
  function RowFor(s: Submission, direct: int): Row {
    RowMerge.Row(s.miner, Some(1), Some(direct), Some(0), Some(direct), Some(s.reward), Some(s.released), Some(s.held),
                 Some(s.reward), true)
  }

  function RowsFor(listed: seq<Submission>, direct: Submission -> int): seq<Row> {
    if listed == [] then []
    else
      var n := |listed| - 1;
      var before := RowsFor(listed[..n], direct);
      if Shows(listed[n]) then before + [RowFor(listed[n], direct(listed[n]))] else before
  }

  /** Group the revealed submissions by miner and emit the groups in address order. */
  method BuildRows(listed: seq<Submission>, direct: Submission -> int) returns (rows: seq<Row>)
    ensures rows == RowMerge.MergedOf(RowsFor(listed, direct))
  {
    var keys: seq<string>, grouped: map<string, RowMerge.Columns> := [], map[];
    RowMerge.NothingGrouped();
    hide RowMerge.GroupedBy, RowMerge.MergedOf;
    for k := 0 to |listed|
      invariant RowMerge.GroupedBy(RowsFor(listed[..k], direct), keys, grouped)
    {
      assert listed[..k + 1][..k] == listed[..k];
      if listed[k].miner != "" && listed[k].pYes.Some? {
        var s, score := listed[k], direct(listed[k]);
        var row := RowMerge.Row(s.miner, Some(1), Some(score), Some(0), Some(score), Some(s.reward), Some(s.released),
                                Some(s.held), Some(s.reward), true);
        assert row == RowFor(s, score);
        NamesMiner(listed[k], direct(listed[k]));
        RowMerge.GroupNext(RowsFor(listed[..k], direct), row, keys, grouped);
        if listed[k].miner !in grouped {
          keys := keys + [listed[k].miner];
        }
        grouped := RowMerge.GroupIn(grouped, row);
      }
    }
    assert listed[..|listed|] == listed;
    rows := RowMerge.EmitGrouped(RowsFor(listed, direct), keys, grouped);
  }

  lemma NamesMiner(s: Submission, direct: int)
    ensures RowFor(s, direct).miner == s.miner && RowMerge.Value(RowFor(s, direct)).gross == s.reward
  {
  }

  // ---- What the rows add up to -----------------------------------------------------------------------------

  function RewardsShown(listed: seq<Submission>): int {
    if listed == [] then 0
    else
      var n := |listed| - 1;
      RewardsShown(listed[..n]) + if Shows(listed[n]) then listed[n].reward else 0
  }

  lemma {:induction false} RowsGross(listed: seq<Submission>, direct: Submission -> int, named: set<string>)
    requires forall k :: 0 <= k < |listed| && Shows(listed[k]) ==> listed[k].miner in named
    ensures RowMerge.TotalAmong(RowsFor(listed, direct), named).gross == RewardsShown(listed)
  {
    if listed != [] {
      var n := |listed| - 1;
      RowsGross(listed[..n], direct, named);
      if Shows(listed[n]) {
        var before, row := RowsFor(listed[..n], direct), RowFor(listed[n], direct(listed[n]));
        assert (before + [row])[..|before|] == before;
        NamesMiner(listed[n], direct(listed[n]));
      }
    }
  }

  lemma {:induction false} RowsName(listed: seq<Submission>, direct: Submission -> int, k: nat)
    requires k < |listed| && Shows(listed[k])
    ensures listed[k].miner in RowMerge.Miners(RowsFor(listed, direct))
  {
    var n := |listed| - 1;
    var rows, before := RowsFor(listed, direct), RowsFor(listed[..n], direct);
    if k == n {
      assert rows[|before|].miner == listed[k].miner;
    } else {
      RowsName(listed[..n], direct, k);
      var i :| 0 <= i < |before| && before[i].miner == listed[k].miner;
      assert rows[i] == before[i];
    }
  }

  /** The rows built from a list of submissions add up to the rewards of those that count. */
  lemma BuiltGross(listed: seq<Submission>, direct: Submission -> int)
    ensures RowMerge.ColumnSums(RowMerge.MergedOf(RowsFor(listed, direct))).gross == RewardsShown(listed)
  {
    hide RowMerge.MergedOf, RowMerge.TotalAmong, RowsFor;
    var rows := RowsFor(listed, direct);
    RowMerge.MergeKeepsSums(rows);
    forall k | 0 <= k < |listed| && Shows(listed[k]) ensures listed[k].miner in RowMerge.Miners(rows) {
      RowsName(listed, direct, k);
    }
    RowsGross(listed, direct, RowMerge.Miners(rows));
  }

  // ---- From the stored submissions -------------------------------------------------------------------------

  /** The keys of all submissions for the tasks, each once. */
  ghost predicate Lists(keys: seq<Key>, subs: Submissions, ids: set<string>) {
    Distinct(keys) && forall k :: k in keys <==> k in subs && k.0 in ids
  }

  ghost function At(subs: Submissions, keys: seq<Key>): (listed: seq<Submission>)
    requires forall k :: k in keys ==> k in subs
    ensures |listed| == |keys|
  {
    seq(|keys|, i requires 0 <= i < |keys| => subs[keys[i]])
  }

  /** Over all submissions of the tasks the rewards shown are the sum of their rewards. */
  lemma {:induction false} ListedRewards(subs: Submissions, ids: set<string>, keys: seq<Key>)
    requires Lists(keys, subs, ids)
    requires forall k :: k in subs ==> subs[k].task == k.0 && (Shows(subs[k]) || subs[k].reward == 0)
    ensures RewardsShown(At(subs, keys)) == Sum(subs, RewardIn(ids))
    decreases |keys|
  {
    hide Sum;
    if keys == [] {
      forall k | k in subs ensures RewardIn(ids)(subs[k]) == 0 {
        assert k !in keys;
      }
      SumZero(subs, RewardIn(ids));
    } else {
      var n := |keys| - 1;
      var last, rest := keys[n], subs - {keys[n]};
      assert keys == keys[..n] + [last];
      assert last in keys;
      SumTake(subs, RewardIn(ids), last);
      LastTaken(keys, subs, ids);
      ListedRewards(rest, ids, keys[..n]);
      assert At(subs, keys)[..n] == At(rest, keys[..n]);
    }
  }

  lemma LastTaken(keys: seq<Key>, subs: Submissions, ids: set<string>)
    requires Lists(keys, subs, ids) && keys != []
    ensures Lists(keys[..|keys| - 1], subs - {keys[|keys| - 1]}, ids)
  {
    var n := |keys| - 1;
    forall k ensures k in keys[..n] <==> k in subs - {keys[n]} && k.0 in ids {
      if k in keys && k != keys[n] {
        var i :| 0 <= i < |keys| && keys[i] == k;
        assert keys[..n][i] == k;
      }
      if k in keys[..n] {
        var i :| 0 <= i < n && keys[i] == k;
        assert k in keys;
      }
    }
  }

  /** The submissions of the tasks, in some order. */
  method ListSubmissions(subs: Submissions, ids: set<string>) returns (listed: seq<Submission>, ghost keys: seq<Key>)
    ensures Lists(keys, subs, ids) && listed == At(subs, keys)
  {
    listed, keys := [], [];
    var rest := set k | k in subs && k.0 in ids;
    while rest != {}
      invariant rest <= subs.Keys && forall k :: k in rest ==> k.0 in ids
      invariant Distinct(keys) && forall k :: k in keys <==> k in subs && k.0 in ids && k !in rest
      invariant listed == At(subs, keys)
      decreases |rest|
    {
      var k :| k in rest;
      rest := rest - {k};
      listed, keys := listed + [subs[k]], keys + [k];
    }
  }

  lemma ShownOrNothing(book: RewardBook)
    requires book.Valid({})
    ensures forall k :: k in book.subs ==>
              book.subs[k].task == k.0 && (Shows(book.subs[k]) || book.subs[k].reward == 0)
  {
    hide MinersSound, HoldsSound, TasksSound, WindowsSound, RequestsSound;
    forall k | k in book.subs
      ensures book.subs[k].task == k.0 && (Shows(book.subs[k]) || book.subs[k].reward == 0)
    {
      assert SubSound(k, book.subs[k], book.miners, book.tasks, {});
    }
  }

  /** The rows of a stored window's submissions add up to the total it is stored with, so a batch window
      that carries them has rows adding up to its total. */
  method WindowRows(book: RewardBook, w: string, direct: Submission -> int) returns (rows: seq<Row>)
    requires book.Valid({}) && w in book.windows
    ensures RowMerge.ColumnSums(rows).gross == book.windows[w].total
    ensures forall window: Settlement.Window :: window.rows == Some(rows) && window.total == book.windows[w].total ==>
              SettlementService.Totalled(window)
  {
    hide MinersSound, SubsSound, HoldsSound, TasksSound, RequestsSound, Sum, RowMerge.ColumnSums, RowMerge.MergedOf;
    ShownOrNothing(book);
    assert WindowSound(w, book.windows[w], book.tasks, book.subs);
    var listed, keys := ListSubmissions(book.subs, book.windows[w].tasks);
    rows := BuildRows(listed, direct);
    BuiltGross(listed, direct);
    ListedRewards(book.subs, book.windows[w].tasks, keys);
  }
}
