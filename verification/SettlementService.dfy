/** The settlement and anchoring steps of the service over the in-memory repository. Each public
    operation is one step; a step's `reconcile` call is a step of its own before it. */
module SettlementService {
  import opened Options
  import opened Ordering
  import opened Allocation
  import opened RowMerge
  import opened MergedRows
  import opened Settlement

  datatype SettlementError =
    | BatchNotFound | NotAnchorable | PokerAnchoringDisabled | ProjectionNotFound | PageSizeNotPositive
    | RootConflict | NotAnchorReady | JobNotFound | TxHashMissing | NotRetryable | BroadcastFailed(reason: string)
    | ManualMarkDisabled

  // ---- Batches from windows ----------------------------------------------------------------------------

  function WithoutPrefix(s: string, prefix: string): string {
    if prefix <= s then s[|prefix|..] else s
  }

  function BatchIdFor(windowId: string, w: Window): (id: string)
    ensures id != ""
  {
    if w.batchId.Some? && w.batchId.value != "" then w.batchId.value else "sb_" + WithoutPrefix(windowId, "rw_")
  }

  /** An open batch as its window has it. */
  function OpenBatch(batchId: string, windowId: string, w: Window): Batch {
    Batch(batchId, w.lane, Open, w.startAt, w.endAt, [windowId], OrElse(w.policy, POLICY_BUNDLE_VERSION), w.taskCount,
          w.minerCount, w.total, None, None)
  }

  /** The batch has its window's lane, times, policy, counts and total, lists just that window, and has neither
      payload nor job. */
  predicate AsWindow(b: Batch, id: string, windowId: string, w: Window) {
    && b.id == id && b.windowIds == [windowId]
    && b.lane == w.lane && b.startAt == w.startAt && b.endAt == w.endAt
    && b.policy == (if w.policy != "" then w.policy else "pb_2026_04_09_a")
    && b.taskCount == w.taskCount && b.minerCount == w.minerCount && b.total == w.total
    && b.canon.None? && b.jobId.None?
  }

  /** A weighted window keeps the batch it names and otherwise gets one of its own name; that batch exists, and
      is as the window has it as long as it is open. */
  predicate SyncedWith(batches: Batches, windowId: string, w: Window, link: Option<string>) {
    && link.Some? && link.value in batches
    && link.value == (if w.batchId.Some? && w.batchId.value != "" then w.batchId.value
                      else if "rw_" <= windowId then "sb_" + windowId[3..] else "sb_" + windowId)
    && (batches[link.value].state == Open ==> AsWindow(batches[link.value], link.value, windowId, w))
  }

  lemma OpenAsWindow(batches: Batches, windowId: string, w: Window)
    requires
      var id := BatchIdFor(windowId, w);
      id in batches && (batches[id].state == Open ==> batches[id] == OpenBatch(id, windowId, w))
    ensures SyncedWith(batches, windowId, w, Some(BatchIdFor(windowId, w)))
  {
  }

  // ---- What a batch's root is taken over ---------------------------------------------------------------

  predicate IsPoker(lane: string) {
    "poker_mtt_" <= lane
  }

  /** The task ids and reward rows of the batch's windows, in the batch's order; a poker window without
      its projection is an error. */
  function Gathered(windows: Windows, ids: seq<string>, poker: bool): Result<(seq<string>, seq<Row>), SettlementError> {
    if ids == [] then Ok(([], []))
    else
      var n := |ids| - 1;
      var before := Gathered(windows, ids[..n], poker);
      if before.Err? || ids[n] !in windows then before
      else
        var w := windows[ids[n]];
        if w.rows.None? then
          if poker then Err(ProjectionNotFound) else Ok((before.value.0 + w.taskIds, before.value.1))
        else Ok((before.value.0 + w.taskIds, before.value.1 + w.rows.value))
  }

  ghost function InputOf(b: Batch, taskIds: seq<string>, rows: seq<Row>): RootInput {
    RootInput(OrElse(b.policy, POLICY_BUNDLE_VERSION), b.id, b.lane, b.startAt, b.endAt, SortStrings(b.windowIds),
              SortedSeq(set t | t in taskIds), MergedOf(rows), b.taskCount, b.minerCount, b.total)
  }

  /** The root, payload and hash the windows give a batch now. */
  ghost function CanonOf(digests: Digests, pageSize: int, windows: Windows, b: Batch): Result<Canon, SettlementError> {
    var gathered := Gathered(windows, b.windowIds, IsPoker(b.lane));
    if gathered.Err? then Err(gathered.error)
    else if pageSize <= 0 then Err(PageSizeNotPositive)
    else
      var input := InputOf(b, gathered.value.0, gathered.value.1);
      var payload := Payload(input, digests.root(input), pageSize);
      Ok(Canon(ANCHOR_PAYLOAD_SCHEMA_VERSION, digests.root(input), payload, digests.payload(payload)))
  }

  method Gather(windows: Windows, ids: seq<string>, poker: bool)
    returns (r: Result<(seq<string>, seq<Row>), SettlementError>)
    ensures r == Gathered(windows, ids, poker)
  {
    var taskIds: seq<string>, rows: seq<Row> := [], [];
    for k := 0 to |ids|
      invariant Gathered(windows, ids[..k], poker) == Ok((taskIds, rows))
    {
      GatheredFails(windows, ids, poker, k);
      assert ids[..k + 1][..k] == ids[..k];
      if ids[k] in windows {
        var w := windows[ids[k]];
        taskIds := taskIds + w.taskIds;
        if w.rows.Some? {
          rows := rows + w.rows.value;
        } else if poker {
          return Err(ProjectionNotFound);
        }
      }
    }
    assert ids[..|ids|] == ids;
    r := Ok((taskIds, rows));
  }

  lemma {:induction false} GatheredFails(windows: Windows, ids: seq<string>, poker: bool, k: nat)
    requires k < |ids| && Gathered(windows, ids[..k], poker).Ok?
    ensures ids[k] in windows && windows[ids[k]].rows.None? && poker ==>
              Gathered(windows, ids, poker) == Err(ProjectionNotFound)
    decreases |ids|
  {
    var n := |ids| - 1;
    if k < n {
      assert ids[..n][..k] == ids[..k];
      GatheredFails(windows, ids[..n], poker, k);
    }
  }

  /** sorted(set(ids)) */
  method SortedDistinct(ids: seq<string>) returns (sorted: seq<string>)
    ensures sorted == SortedSeq(set t | t in ids)
  {
    var unique: seq<string> := [];
    for k := 0 to |ids|
      invariant ListsSet(unique, set t | t in ids[..k])
    {
      assert ids[..k + 1] == ids[..k] + [ids[k]];
      if ids[k] !in unique {
        unique := unique + [ids[k]];
      }
    }
    assert ids[..|ids|] == ids;
    hide SortStrings, ListsSet;
    sorted := SortStrings(unique);
    SortListing(unique, set t | t in ids);
    InOrderUnique(sorted, SortedSeq(set t | t in ids), set t | t in ids);
  }

  /** The canonical payload of a batch, computed from the windows as they are now. */
  method ComputeCanon(digests: Digests, pageSize: int, windows: Windows, b: Batch)
    returns (r: Result<Canon, SettlementError>)
    ensures r == CanonOf(digests, pageSize, windows, b)
  {
    hide Gathered, MergedOf, SortStrings, SortedSeq;
    var gathered := Gather(windows, b.windowIds, IsPoker(b.lane));
    if gathered.Err? {
      return Err(gathered.error);
    }
    var taskIds := SortedDistinct(gathered.value.0);
    var rows := MergeRows(gathered.value.1);
    if pageSize <= 0 {
      return Err(PageSizeNotPositive);
    }
    var input := RootInput(OrElse(b.policy, POLICY_BUNDLE_VERSION), b.id, b.lane, b.startAt, b.endAt,
                           SortStrings(b.windowIds), taskIds, rows, b.taskCount, b.minerCount, b.total);
    var payload := Payload(input, digests.root(input), pageSize);
    r := Ok(Canon(ANCHOR_PAYLOAD_SCHEMA_VERSION, digests.root(input), payload, digests.payload(payload)));
  }

  /** A batch can be made anchorable: it is not cancelled, has something to pay, its lane may be anchored,
      its payload can be computed, and a root already set is the one computed now. */
  ghost predicate Anchorable(digests: Digests, pokerAnchoring: bool, pageSize: int, windows: Windows, b: Batch) {
    var computed := CanonOf(digests, pageSize, windows, b);
    && b.state != Cancelled && b.total > 0 && (IsPoker(b.lane) ==> pokerAnchoring) && computed.Ok?
    && (b.canon.Some? ==> b.canon.value.root == computed.value.root && b.canon.value.hash == computed.value.hash)
  }

  /** The batch after a successful retry: an open or failed one is ready with the computed payload. */
  ghost function Readied(digests: Digests, pageSize: int, windows: Windows, b: Batch): Batch
    requires CanonOf(digests, pageSize, windows, b).Ok?
  {
    if b.state == Open || b.state == AnchorFailed
    then b.(state := AnchorReady, jobId := None, canon := Some(CanonOf(digests, pageSize, windows, b).value))
    else b
  }

  // ---- What a payload says -----------------------------------------------------------------------------

  /** Some stored window of the batch lists the task run. */
  ghost predicate Listed(windows: Windows, ids: seq<string>, task: string) {
    exists k :: 0 <= k < |ids| && ids[k] in windows && task in windows[ids[k]].taskIds
  }

  /** Some stored window of the batch has no rows. */
  ghost predicate LacksRows(windows: Windows, ids: seq<string>) {
    exists k :: 0 <= k < |ids| && ids[k] in windows && windows[ids[k]].rows.None?
  }

  /** The rows of the batch's stored windows, one window after the other. */
  function RowsIn(windows: Windows, ids: seq<string>): seq<Row> {
    if ids == [] then []
    else
      var n := |ids| - 1;
      RowsIn(windows, ids[..n])
      + if ids[n] in windows && windows[ids[n]].rows.Some? then windows[ids[n]].rows.value else []
  }

  /** A payload says what a batch settles: its identity, times, policy and counts, its windows in order, the
      task runs they list in order and once, and one row for each miner their rows name, holding the miner's
      sums; with its root, and hashed as a whole. */
  ghost predicate Says(digests: Digests, pageSize: int, windows: Windows, b: Batch, canon: Canon) {
    var payload := canon.payload;
    var input := payload.input;
    && canon.schema == "clawchain.anchor_payload.v1" && canon.hash == digests.payload(payload)
    && canon.root == digests.root(input) && payload.root == digests.root(input) && payload.pageSize == pageSize
    && input.policy == (if b.policy != "" then b.policy else "pb_2026_04_09_a")
    && input.batchId == b.id && input.lane == b.lane && input.startAt == b.startAt && input.endAt == b.endAt
    && input.taskCount == b.taskCount && input.minerCount == b.minerCount && input.total == b.total
    && Sorted(input.windowIds, StringLeq) && multiset(input.windowIds) == multiset(b.windowIds)
    && Sorted(input.taskIds, StringLeq) && Distinct(input.taskIds)
    && (forall task :: task in input.taskIds <==> Listed(windows, b.windowIds, task))
    && MergesTo(RowsIn(windows, b.windowIds), input.rows)
  }

  /** Why a batch cannot be made anchorable, if it cannot: the first of these that applies. */
  ghost function BatchFault(digests: Digests, pokerAnchoring: bool, pageSize: int, windows: Windows, b: Batch)
    : Option<SettlementError>
  {
    var poker := "poker_mtt_" <= b.lane;
    if b.state == Cancelled || b.total <= 0 then Some(NotAnchorable)
    else if poker && !pokerAnchoring then Some(PokerAnchoringDisabled)
    else if poker && LacksRows(windows, b.windowIds) then Some(ProjectionNotFound)
    else if pageSize <= 0 then Some(PageSizeNotPositive)
    else if b.canon.Some? && !Says(digests, pageSize, windows, b, b.canon.value) then Some(RootConflict)
    else None
  }

  /** What a retry of the batch returns. */
  ghost predicate RetryReturns(digests: Digests, pokerAnchoring: bool, pageSize: int, windows: Windows,
                               batches: Batches, id: string, r: Result<Batch, SettlementError>) {
    if id !in batches then r == Err(BatchNotFound)
    else
      var b := batches[id];
      var fault := BatchFault(digests, pokerAnchoring, pageSize, windows, b);
      if fault.Some? then r == Err(fault.value)
      else
        && r.Ok? && r.value.canon.Some? && Says(digests, pageSize, windows, b, r.value.canon.value)
        && r.value == if b.state == Open || b.state == AnchorFailed
                      then b.(state := AnchorReady, jobId := None, canon := r.value.canon) else b
  }

  lemma {:induction false} GatheredLists(windows: Windows, ids: seq<string>, poker: bool, task: string)
    requires Gathered(windows, ids, poker).Ok?
    ensures (task in Gathered(windows, ids, poker).value.0) == Listed(windows, ids, task)
  {
    if ids != [] {
      var n := |ids| - 1;
      GatheredLists(windows, ids[..n], poker, task);
      assert ids == ids[..n] + [ids[n]];
    }
  }

  lemma {:induction false} GatheredRows(windows: Windows, ids: seq<string>, poker: bool)
    requires Gathered(windows, ids, poker).Ok?
    ensures Gathered(windows, ids, poker).value.1 == RowsIn(windows, ids)
  {
    if ids != [] {
      GatheredRows(windows, ids[..|ids| - 1], poker);
    }
  }

  lemma {:induction false} GatheredFault(windows: Windows, ids: seq<string>, poker: bool)
    ensures Gathered(windows, ids, poker).Err? == (poker && LacksRows(windows, ids))
    ensures Gathered(windows, ids, poker).Err? ==> Gathered(windows, ids, poker).error == ProjectionNotFound
  {
    if ids != [] {
      var n := |ids| - 1;
      GatheredFault(windows, ids[..n], poker);
      assert ids == ids[..n] + [ids[n]];
    }
  }

  /** The computed payload says what the batch settles. */
  lemma CanonSays(digests: Digests, pageSize: int, windows: Windows, b: Batch)
    requires CanonOf(digests, pageSize, windows, b).Ok?
    ensures Says(digests, pageSize, windows, b, CanonOf(digests, pageSize, windows, b).value)
  {
    hide Gathered, MergedOf, MergesTo, RowsIn, StringLeq, Sort, SortedSeq, Listed;
    var poker := IsPoker(b.lane);
    var gathered := Gathered(windows, b.windowIds, poker).value;
    StringsOrdered();
    SortSorts(b.windowIds, StringLeq);
    SortKeeps(b.windowIds, StringLeq);
    var tasks := set t | t in gathered.0;
    assert InOrder(SortedSeq(tasks), tasks);
    forall task ensures task in SortedSeq(tasks) <==> Listed(windows, b.windowIds, task) {
      GatheredLists(windows, b.windowIds, poker, task);
    }
    GatheredRows(windows, b.windowIds, poker);
    MergedOfMerges(gathered.1);
  }

  /** Only one payload says so. */
  lemma SaysOnce(digests: Digests, pageSize: int, windows: Windows, b: Batch, canon: Canon, other: Canon)
    requires Says(digests, pageSize, windows, b, canon) && Says(digests, pageSize, windows, b, other)
    ensures canon == other
  {
    hide MergesTo, RowsIn, StringLeq, Listed;
    var input, input' := canon.payload.input, other.payload.input;
    StringsOrdered();
    SortedUnique(input.windowIds, input'.windowIds, StringLeq);
    InOrderUnique(input.taskIds, input'.taskIds, set t | t in input.taskIds);
    MergedOnce(RowsIn(windows, b.windowIds), input.rows, input'.rows);
  }

  /** The fault in terms of the computed payload. */
  lemma RetryFaultIs(digests: Digests, pokerAnchoring: bool, pageSize: int, windows: Windows, b: Batch)
    requires CollisionFree(digests) && (b.canon.Some? ==> CanonFor(digests, b.canon.value))
    requires b.state != Cancelled && b.total > 0 && (IsPoker(b.lane) ==> pokerAnchoring)
    ensures
      var computed := CanonOf(digests, pageSize, windows, b);
      && BatchFault(digests, pokerAnchoring, pageSize, windows, b)
         == (if computed.Err? then Some(computed.error)
             else if b.canon.Some? && (b.canon.value.root != computed.value.root
                                       || b.canon.value.hash != computed.value.hash) then Some(RootConflict)
             else None)
      && (computed.Ok? ==> Says(digests, pageSize, windows, b, computed.value))
      && (computed.Ok? && b.canon.Some? && BatchFault(digests, pokerAnchoring, pageSize, windows, b).None? ==>
            b.canon.value == computed.value)
  {
    hide Gathered, Says, CanonFor, InputOf, LacksRows;
    GatheredFault(windows, b.windowIds, IsPoker(b.lane));
    var computed := CanonOf(digests, pageSize, windows, b);
    if computed.Ok? {
      CanonSays(digests, pageSize, windows, b);
      CanonSound(digests, pageSize, windows, b, computed.value);
      if b.canon.Some? {
        if Says(digests, pageSize, windows, b, b.canon.value) {
          SaysOnce(digests, pageSize, windows, b, b.canon.value, computed.value);
        } else if b.canon.value.root == computed.value.root && b.canon.value.hash == computed.value.hash {
          SameCanon(digests, b.canon.value, computed.value);
        }
      }
    }
  }

  // ---- Rows and totals ---------------------------------------------------------------------------------

  ghost function GrossOf(w: Window): int {
    if w.rows.Some? then ColumnSums(w.rows.value).gross else 0
  }

  /** A window's total is what its rows come to; a poker window without its projection has no rows yet. */
  ghost predicate Totalled(w: Window) {
    (w.rows.None? && IsPoker(w.lane)) || GrossOf(w) == w.total
  }

  /** The anchored rows of a batch add up to its total. */
  ghost predicate RowsMakeTotal(b: Batch) {
    b.canon.Some? ==>
      && ColumnSums(b.canon.value.payload.input.rows).gross == b.total
      && b.canon.value.payload.input.total == b.total
  }

  /** The batch's one window is linked to it. */
  predicate WindowLinked(id: string, b: Batch, windows: Windows) {
    && id != "" && |b.windowIds| == 1 && b.windowIds[0] in windows
    && windows[b.windowIds[0]].weighted && windows[b.windowIds[0]].batchId == Some(id)
  }

  /** The batch is open and as its window has it. */
  predicate UpToDate(id: string, b: Batch, windows: Windows) {
    WindowLinked(id, b, windows) && b == OpenBatch(id, b.windowIds[0], windows[b.windowIds[0]])
  }

  ghost predicate AllLinked(windows: Windows, batches: Batches) {
    forall id :: id in batches && batches[id].state == Open ==> WindowLinked(id, batches[id], windows)
  }

  ghost predicate AllUpToDate(windows: Windows, batches: Batches) {
    forall id :: id in batches && batches[id].state == Open ==> UpToDate(id, batches[id], windows)
  }

  ghost predicate AllTotalled(windows: Windows) {
    forall x :: x in windows ==> Totalled(windows[x])
  }

  lemma EmptyMakesNothing()
    ensures ColumnSums([]).gross == 0
  {
  }

  /** The payload computed for an open batch that is up to date with a consistent window adds up to its
      total. */
  lemma CanonMakesTotal(digests: Digests, pageSize: int, windows: Windows, id: string, b: Batch)
    requires UpToDate(id, b, windows) && Totalled(windows[b.windowIds[0]])
    requires CanonOf(digests, pageSize, windows, b).Ok?
    ensures RowsMakeTotal(b.(canon := Some(CanonOf(digests, pageSize, windows, b).value)))
  {
    hide ColumnSums, MergedOf, SortedSeq, OrElse, SortStrings;
    var ids := b.windowIds;
    var w := windows[ids[0]];
    assert ids[..0] == [];
    assert Gathered(windows, [], IsPoker(b.lane)) == Ok(([], []));
    var rows := if w.rows.Some? then w.rows.value else [];
    assert [] + rows == rows;
    assert Gathered(windows, ids, IsPoker(b.lane)).value.1 == rows;
    MergeKeepsSums(rows);
    EmptyMakesNothing();
  }

  /** A poker window that pays out an allocated pool is consistent with that pool as its total. */
  lemma PoolWindowTotalled(w: Window, items: seq<Item>, representative: map<string, string>, counts: map<string, int>,
                             allocations: map<string, int>)
    requires items != [] && DistinctIds(items) && Allotment(items, w.total, allocations)
    requires forall k :: 0 <= k < |items| ==> items[k].id in representative && representative[items[k].id] != ""
    requires w.rows == Some(WindowRows(items, representative, counts, allocations))
    ensures Totalled(w)
  {
    hide Allotment, ColumnSums;
    WindowRowsSumToPool(items, representative, counts, w.total, allocations);
  }

  function LinkedWindow(windowId: string, w: Window): Window {
    if w.weighted then w.(batchId := Some(BatchIdFor(windowId, w))) else w
  }

  /** Batches have been built for all windows but the rest: each weighted one is linked to a batch, and a
      batch is either as before or open and up to date; none that was open is left as it was if it is the
      batch of a window done. */
  ghost predicate Synced(windows: Windows, batches: Batches, windows': Windows, batches': Batches, rest: set<string>) {
    && windows'.Keys == windows.Keys && batches.Keys <= batches'.Keys
    && (forall x :: x in windows ==> windows'[x] == if x in rest then windows[x] else LinkedWindow(x, windows[x]))
    && (forall x :: x in windows && x !in rest && windows[x].weighted ==> BatchIdFor(x, windows[x]) in batches')
    && (forall id :: id in batches' ==> Placed(id, windows, batches, windows', batches'[id], rest))
  }

  ghost predicate Placed(id: string, windows: Windows, batches: Batches, windows': Windows, b: Batch,
                         rest: set<string>) {
    || (id in batches && b == batches[id] && (b.state == Open ==> Untouched(id, windows, rest)))
    || (UpToDate(id, b, windows') && b.windowIds[0] !in rest && (id in batches ==> batches[id].state == Open))
  }

  /** No window done so far has this batch. */
  ghost predicate Untouched(id: string, windows: Windows, rest: set<string>) {
    forall x :: x in windows && x !in rest && windows[x].weighted ==> BatchIdFor(x, windows[x]) != id
  }

  lemma SyncedNone(windows: Windows, batches: Batches)
    ensures Synced(windows, batches, windows, batches, windows.Keys)
  {
  }

  lemma SyncedKeys(windows: Windows, batches: Batches, windows': Windows, batches': Batches, rest: set<string>,
                   x: string)
    requires Synced(windows, batches, windows', batches', rest) && x in rest && rest <= windows.Keys
    ensures x in windows' && windows'[x] == windows[x]
  {
  }

  lemma SyncedNext(windows: Windows, batches: Batches, linked: Windows, before: Batches, windows': Windows,
                   batches': Batches, rest: set<string>, x: string)
    requires Synced(windows, batches, linked, before, rest) && x in rest && rest <= windows.Keys
    requires
      var w := linked[x];
      var id := BatchIdFor(x, w);
      if !w.weighted then batches' == before && windows' == linked
      else
        && windows' == linked[x := w.(batchId := Some(id))]
        && batches' == if id in before && before[id].state != Open then before else before[id := OpenBatch(id, x, w)]
    ensures Synced(windows, batches, windows', batches', rest - {x})
  {
    hide BatchIdFor, OpenBatch, Placed;
    var w := linked[x];
    var id := BatchIdFor(x, w);
    forall i | i in batches' ensures Placed(i, windows, batches, windows', batches'[i], rest - {x}) {
      if w.weighted && i == id && (id in before ==> before[id].state == Open) {
        if id in before {
          PlacedOpen(id, windows, batches, linked, before[id], rest);
        }
        PlacedNew(windows, batches, windows', rest, x, w, id);
      } else {
        PlacedStill(i, windows, batches, linked, windows', batches'[i], rest, x);
      }
    }
  }

  lemma PlacedStill(id: string, windows: Windows, batches: Batches, linked: Windows, windows': Windows, b: Batch,
                    rest: set<string>, x: string)
    requires Placed(id, windows, batches, linked, b, rest) && x in rest && x in windows && x in linked
    requires exists link :: windows' == linked[x := linked[x].(batchId := link)]
    requires b.state == Open && windows[x].weighted ==> BatchIdFor(x, windows[x]) != id
    ensures Placed(id, windows, batches, windows', b, rest - {x})
  {
    hide BatchIdFor, OpenBatch;
  }

  lemma PlacedOpen(id: string, windows: Windows, batches: Batches, linked: Windows, b: Batch, rest: set<string>)
    requires Placed(id, windows, batches, linked, b, rest) && b.state == Open
    ensures id in batches ==> batches[id].state == Open
  {
    hide Untouched, UpToDate;
  }

  lemma PlacedNew(windows: Windows, batches: Batches, windows': Windows, rest: set<string>, x: string, w: Window,
                  id: string)
    requires id != "" && x in windows' && w.weighted && windows'[x] == w.(batchId := Some(id))
    requires id in batches ==> batches[id].state == Open
    ensures Placed(id, windows, batches, windows', OpenBatch(id, x, w), rest - {x})
  {
    hide Untouched;
  }

  /** Once batches are built for windows whose open batches were linked, every open batch is up to date. */
  lemma SyncedUpToDate(windows: Windows, batches: Batches, windows': Windows, batches': Batches)
    requires Synced(windows, batches, windows', batches', {}) && AllLinked(windows, batches)
    ensures AllUpToDate(windows', batches')
  {
    hide OpenBatch;
    forall id | id in batches' && batches'[id].state == Open ensures UpToDate(id, batches'[id], windows') {
      if id in batches && batches[id].state == Open {
        var x := batches[id].windowIds[0];
        assert BatchIdFor(x, windows[x]) == id;
        assert !Untouched(id, windows, {});
      }
    }
  }

  // ---- Job ids -----------------------------------------------------------------------------------------

  function Decimal(n: nat): string {
    if n < 10 then ["0123456789"[n]] else Decimal(n / 10) + ["0123456789"[n % 10]]
  }

  lemma {:induction false} DecimalInjective(m: nat, n: nat)
    requires Decimal(m) == Decimal(n)
    ensures m == n
  {
    assert Decimal(m)[|Decimal(m)| - 1] == "0123456789"[m % 10];
    assert Decimal(n)[|Decimal(n)| - 1] == "0123456789"[n % 10];
    DigitInjective(m % 10, n % 10);
    if m < 10 && n < 10 {
    } else if m >= 10 && n >= 10 {
      assert Decimal(m)[..|Decimal(m)| - 1] == Decimal(m / 10) && Decimal(n)[..|Decimal(n)| - 1] == Decimal(n / 10);
      DecimalInjective(m / 10, n / 10);
    } else {
      if m < 10 {
        DecimalLong(n);
      } else {
        DecimalLong(m);
      }
    }
  }

  lemma DigitInjective(a: nat, b: nat)
    requires a < 10 && b < 10 && "0123456789"[a] == "0123456789"[b]
    ensures a == b
  {
  }

  lemma DecimalLong(n: nat)
    requires n >= 10
    ensures |Decimal(n)| > 1
  {
    assert |Decimal(n / 10)| >= 1 by {
      DecimalNonempty(n / 10);
    }
  }

  lemma {:induction false} DecimalNonempty(n: nat)
    ensures |Decimal(n)| >= 1
  {
  }

  function Candidate(base: string, suffix: nat): string {
    if suffix == 0 then base else base + "_" + Decimal(suffix)
  }

  lemma CandidatesDistinct(base: string, i: nat, j: nat)
    requires i != j
    ensures Candidate(base, i) != Candidate(base, j)
  {
    hide Decimal;
    if i != 0 && j != 0 && Candidate(base, i) == Candidate(base, j) {
      assert Candidate(base, i)[|base| + 1..] == Decimal(i) && Candidate(base, j)[|base| + 1..] == Decimal(j);
      DecimalInjective(i, j);
    } else if i != 0 {
      assert |Candidate(base, i)| > |base|;
    } else {
      assert |Candidate(base, j)| > |base|;
    }
  }

  lemma {:induction false} DistinctFits(xs: seq<string>, s: set<string>)
    requires Distinct(xs) && forall x :: x in xs ==> x in s
    ensures |xs| <= |s|
  {
    if xs != [] {
      forall x | x in xs[1..] ensures x in s - {xs[0]} {
      }
      DistinctFits(xs[1..], s - {xs[0]});
    }
  }

  /** The first of base, base_1, base_2, ... that no job has; there is one, since jobs are finite. */
  method FreshJobId(jobs: Jobs, base: string) returns (id: string, ghost suffix: nat)
    ensures id !in jobs && id == Candidate(base, suffix) && forall k :: 0 <= k < suffix ==> Candidate(base, k) in jobs
  {
    hide Candidate, Decimal;
    var n := 0;
    ghost var tried: seq<string> := [];
    id := Candidate(base, 0);
    while id in jobs
      invariant id == Candidate(base, n) && |tried| == n
      invariant forall k :: 0 <= k < n ==> tried[k] == Candidate(base, k) && tried[k] in jobs
      decreases |jobs.Keys| - n
    {
      tried := tried + [id];
      forall i, j | 0 <= i < j < |tried| ensures tried[i] != tried[j] {
        CandidatesDistinct(base, i, j);
      }
      DistinctFits(tried, jobs.Keys);
      n := n + 1;
      id := Candidate(base, n);
    }
    suffix := n;
  }

  // ---- The service -------------------------------------------------------------------------------------

  function ResolveJob(batches: Batches, jobs: Jobs, ref: string): Option<string> {
    if ref in jobs then Some(ref)
    else if ref in batches && batches[ref].jobId.Some? && batches[ref].jobId.value in jobs then batches[ref].jobId
    else None
  }

  class Service {
    const digests: Digests
    const pokerAnchoring: bool
    const pageSize: int
    var windows: Windows
    var batches: Batches
    var jobs: Jobs
    /** What the chain answered when each job was last confirmed, and the jobs a confirmer vouched for. */
    ghost var readBack: map<string, Fields>
    ghost var vouched: set<string>

    constructor (digests: Digests, pokerAnchoring: bool, pageSize: int)
      requires CollisionFree(digests)
      ensures Valid() && windows == map[] && batches == map[] && jobs == map[] && readBack == map[] && vouched == {}
      ensures this.digests == digests && this.pokerAnchoring == pokerAnchoring && this.pageSize == pageSize
    {
      this.digests, this.pokerAnchoring, this.pageSize := digests, pokerAnchoring, pageSize;
      windows, batches, jobs, readBack, vouched := map[], map[], map[], map[], {};
    }

    ghost predicate Valid()
      reads this
    {
      CollisionFree(digests) && Sound(digests, batches, jobs, readBack, vouched)
    }

    /** _resolve_anchor_job: a job id, or the id of a batch that points at a job. */
    method Resolve(ref: string) returns (r: Option<string>)
      ensures r == ResolveJob(batches, jobs, ref)
    {
      if ref in jobs {
        return Some(ref);
      }
      if ref in batches {
        var jobId := batches[ref].jobId;
        if jobId.Some? && jobId.value in jobs {
          return jobId;
        }
      }
      r := None;
    }

    /** save_settlement_batch */
    method SaveBatch(id: string, b: Batch)
      requires Valid() && BatchSound(digests, id, b, jobs) && AnchorSound(digests, b, readBack, vouched)
      requires id in batches ==> KeptOne(batches[id], b)
      modifies this`batches
      ensures Valid() && batches == old(batches)[id := b] && Kept(old(batches), batches)
    {
      hide Sound, Kept;
      BatchReplaced(digests, batches, jobs, readBack, vouched, id, b);
      batches := batches[id := b];
    }

    /** save_anchor_job */
    method SaveJob(id: string, j: Job)
      requires Valid() && JobSound(id, j, batches) && (id in jobs ==> jobs[id].batchId == j.batchId)
      modifies this`jobs
      ensures Valid() && jobs == old(jobs)[id := j]
    {
      hide Sound;
      JobReplaced(digests, batches, jobs, readBack, vouched, id, j);
      jobs := jobs[id := j];
    }

    /** Create or refresh one window's batch, as long as it is open, and link the window to it. */
    method SyncWindow(windowId: string)
      requires Valid() && windowId in windows
      modifies this`batches, this`windows
      ensures Valid() && Kept(old(batches), batches)
      ensures
        var w := old(windows)[windowId];
        var id := BatchIdFor(windowId, w);
        if !w.weighted then batches == old(batches) && windows == old(windows)
        else
          && windows == old(windows)[windowId := w.(batchId := Some(id))]
          && SyncedWith(batches, windowId, w, windows[windowId].batchId)
          && batches == if id in old(batches) && old(batches)[id].state != Open then old(batches)
                        else old(batches)[id := OpenBatch(id, windowId, w)]
    {
      hide Kept, AnchorSound, OrElse, SyncedWith;
      KeptSelf(batches);
      var w := windows[windowId];
      if !w.weighted {
        return;
      }
      var id := "sb_" + WithoutPrefix(windowId, "rw_");
      if w.batchId.Some? && w.batchId.value != "" {
        id := w.batchId.value;
      }
      assert id == BatchIdFor(windowId, w);
      hide BatchIdFor;
      var made := Batch(id, w.lane, Open, w.startAt, w.endAt, [windowId], OrElse(w.policy, POLICY_BUNDLE_VERSION),
                        w.taskCount, w.minerCount, w.total, None, None);
      assert made == OpenBatch(id, windowId, w);
      hide OpenBatch;
      OpenSound(digests, jobs, readBack, vouched, id, windowId, w);
      if id in batches {
        assert BatchSound(digests, id, batches[id], jobs);
        if batches[id].state == Open {
          SaveBatch(id, made);
        }
      } else {
        SaveBatch(id, made);
      }
      OpenAsWindow(batches, windowId, w);
      windows := windows[windowId := w.(batchId := Some(id))];
    }

    /** _build_settlement_batches over all windows, in any order. */
    method BuildBatches()
      requires Valid()
      modifies this`batches, this`windows
      ensures Valid() && Kept(old(batches), batches) && Synced(old(windows), old(batches), windows, batches, {})
    {
      hide Sound, Kept, BatchIdFor, Synced;
      KeptSelf(batches);
      SyncedNone(windows, batches);
      var rest := windows.Keys;
      while rest != {}
        invariant Valid() && Kept(old(batches), batches) && rest <= old(windows).Keys
        invariant Synced(old(windows), old(batches), windows, batches, rest)
      {
        var x :| x in rest;
        SyncedKeys(old(windows), old(batches), windows, batches, rest, x);
        ghost var before, linked := batches, windows;
        SyncWindow(x);
        KeptOn(old(batches), before, batches);
        SyncedNext(old(windows), old(batches), linked, before, windows, batches, rest, x);
        rest := rest - {x};
      }
    }

    /** A window rebuilt without positive weights cancels its open batch. */
    method CancelOpen(windowId: string)
      requires Valid() && windowId in windows
      modifies this`batches
      ensures Valid() && Kept(old(batches), batches)
      ensures
        var ref := windows[windowId].batchId;
        batches == if ref.Some? && ref.value in old(batches) && old(batches)[ref.value].state == Open
                   then old(batches)[ref.value := old(batches)[ref.value].(state := Cancelled, total := 0)]
                   else old(batches)
    {
      hide Kept, AnchorSound;
      KeptSelf(batches);
      var ref := windows[windowId].batchId;
      if ref.Some? && ref.value in batches && batches[ref.value].state == Open {
        var b := batches[ref.value];
        assert BatchSound(digests, ref.value, b, jobs);
        CancelledSound(digests, b, readBack, vouched);
        SaveBatch(ref.value, b.(state := Cancelled, total := 0));
      }
    }

    /** A reward window is stored or replaced: with positive weights it keeps its link; without them its
        open batch is cancelled and the link dropped. */
    method StoreWindow(windowId: string, w: Window)
      requires Valid()
      modifies this`batches, this`windows
      ensures Valid() && Kept(old(batches), batches)
      ensures
        var link := if windowId in old(windows) then old(windows)[windowId].batchId else None;
        && windows == old(windows)[windowId := w.(batchId := if w.weighted then link else None)]
        && batches == if !w.weighted && link.Some? && IsOpen(old(batches), link.value)
                      then old(batches)[link.value := old(batches)[link.value].(state := Cancelled, total := 0)]
                      else old(batches)
    {
      hide Kept, Sound;
      KeptSelf(batches);
      var link := if windowId in windows then windows[windowId].batchId else None;
      if !w.weighted && windowId in windows {
        CancelOpen(windowId);
      }
      windows := windows[windowId := w.(batchId := if w.weighted then link else None)];
    }

    /** retry_anchor_settlement_batch: make a batch anchorable. A batch whose root is set is only let
        through with the very same root and payload hash. */
    method RetryAnchor(batchId: string) returns (r: Result<Batch, SettlementError>)
      requires Valid()
      modifies this`batches
      ensures Valid() && Kept(old(batches), batches)
      ensures r.Ok? <==> batchId in old(batches)
                         && Anchorable(digests, pokerAnchoring, pageSize, windows, old(batches)[batchId])
      ensures batches == if r.Ok?
                         then old(batches)[batchId := Readied(digests, pageSize, windows, old(batches)[batchId])]
                         else old(batches)
      ensures r.Ok? ==> batchId in batches && r.value == batches[batchId] && r.value.canon.Some?
      ensures RetryReturns(digests, pokerAnchoring, pageSize, windows, old(batches), batchId, r)
    {
      hide Kept, AnchorSound, CanonOf, CollisionFree, Says, LacksRows;
      KeptSelf(batches);
      if batchId !in batches {
        return Err(BatchNotFound);
      }
      var b := batches[batchId];
      if b.state == Cancelled || b.total <= 0 {
        return Err(NotAnchorable);
      }
      if IsPoker(b.lane) && !pokerAnchoring {
        return Err(PokerAnchoringDisabled);
      }
      assert BatchSound(digests, batchId, b, jobs);
      RetryFaultIs(digests, pokerAnchoring, pageSize, windows, b);
      hide BatchFault;
      var computed := ComputeCanon(digests, pageSize, windows, b);
      if computed.Err? {
        return Err(computed.error);
      }
      var canon := computed.value;
      CanonSound(digests, pageSize, windows, b, canon);
      if b.canon.Some? {
        if b.canon.value.root != canon.root || b.canon.value.hash != canon.hash {
          return Err(RootConflict);
        }
        if b.state == AnchorReady || b.state == AnchorSubmitted || b.state == Anchored {
          assert batches == batches[batchId := b];
          return Ok(b);
        }
        SameCanon(digests, b.canon.value, canon);
      }
      ReadySound(digests, b, canon, readBack, vouched);
      SaveBatch(batchId, b.(state := AnchorReady, jobId := None, canon := Some(canon)));
      r := Ok(batches[batchId]);
    }

    /** submit_anchor_job: a fresh job for a batch that is ready, and the batch points at it. */
    method SubmitJob(batchId: string, stamp: string) returns (r: Result<Batch, SettlementError>)
      requires Valid()
      modifies this`batches, this`jobs
      ensures Valid() && Kept(old(batches), batches)
      ensures r.Ok? <==> batchId in old(batches) && old(batches)[batchId].state == AnchorReady
      ensures r.Err? ==> batches == old(batches) && jobs == old(jobs)
      ensures r.Ok? ==>
                && batchId in batches && r.value == batches[batchId] && r.value.jobId.Some?
                && r.value.jobId.value !in old(jobs)
                && batches == old(batches)[batchId := SubmittedAs(old(batches)[batchId], r.value.jobId.value)]
                && jobs == old(jobs)[r.value.jobId.value := NewJob(old(batches)[batchId], r.value.jobId.value)]
    {
      hide Kept, AnchorSound, CollisionFree, CanonFor;
      KeptSelf(batches);
      if batchId !in batches {
        return Err(BatchNotFound);
      }
      var b := batches[batchId];
      if b.state != AnchorReady {
        return Err(NotAnchorReady);
      }
      assert BatchSound(digests, batchId, b, jobs);
      var jobId, _ := FreshJobId(jobs, "aj_" + batchId + "_" + stamp);
      SaveJob(jobId, Job(jobId, b.id, b.lane, JobSubmitted, b.canon.value.hash, "", "", ""));
      SubmittedSound(digests, b, jobId, readBack, vouched);
      SaveBatch(batchId, b.(state := AnchorSubmitted, jobId := Some(jobId)));
      r := Ok(batches[batchId]);
    }

    /** The failing half of a broadcast, and the operator's own verdict: the job fails, and so does the
        batch if it still points at the job. The job's current state is not looked at. */
    method MarkFailed(ref: string, reason: string) returns (r: Result<Job, SettlementError>)
      requires Valid()
      modifies this`batches, this`jobs
      ensures Valid() && Kept(old(batches), batches)
      ensures
        var resolved := ResolveJob(old(batches), old(jobs), ref);
        && (r.Ok? <==> resolved.Some?)
        && (r.Err? ==> batches == old(batches) && jobs == old(jobs))
        && (r.Ok? ==>
             jobs == old(jobs)[resolved.value := old(jobs)[resolved.value].(state := JobFailed, failure := reason)]
                      && r.value == jobs[resolved.value]
                      && batches == Marked(old(batches), old(jobs), resolved.value, AnchorFailed))
    {
      hide Kept, AnchorSound, CollisionFree, CanonFor;
      KeptSelf(batches);
      var resolved := Resolve(ref);
      if resolved.None? {
        return Err(JobNotFound);
      }
      var jobId := resolved.value;
      var j := jobs[jobId];
      hide ResolveJob;
      assert JobSound(jobId, j, batches);
      SaveJob(jobId, j.(state := JobFailed, failure := reason));
      if batches[j.batchId].jobId == Some(jobId) {
        var b := batches[j.batchId];
        assert BatchSound(digests, j.batchId, b, old(jobs));
        FailedSound(digests, b, readBack, vouched);
        SaveBatch(j.batchId, b.(state := AnchorFailed));
      }
      r := Ok(jobs[jobId]);
    }

    /** mark_anchor_job_anchored: refused to callers; for a verified confirmation the job is anchored, and
        so is the batch if it still points at the job. */
    method MarkAnchored(ref: string, verified: bool) returns (r: Result<Job, SettlementError>)
      requires Valid()
      requires verified && ResolveJob(batches, jobs, ref).Some? ==>
                 Confirmable(digests, batches, jobs, readBack, vouched, ResolveJob(batches, jobs, ref).value)
      modifies this`batches, this`jobs
      ensures Valid() && Kept(old(batches), batches)
      ensures
        var resolved := ResolveJob(old(batches), old(jobs), ref);
        && (r.Ok? <==> verified && resolved.Some?)
        && (r.Err? ==> r.error == (if verified then JobNotFound else ManualMarkDisabled)
                       && batches == old(batches) && jobs == old(jobs))
        && (r.Ok? ==> jobs == old(jobs)[resolved.value := Verified(old(jobs)[resolved.value])]
                      && r.value == jobs[resolved.value]
                      && batches == Marked(old(batches), old(jobs), resolved.value, Anchored))
    {
      hide Kept, AnchorSound, CollisionFree, CanonFor, Shows;
      KeptSelf(batches);
      if !verified {
        return Err(ManualMarkDisabled);
      }
      var resolved := Resolve(ref);
      if resolved.None? {
        return Err(JobNotFound);
      }
      var jobId := resolved.value;
      hide ResolveJob;
      var j := jobs[jobId];
      AnchoredSound(digests, batches[j.batchId], jobId, readBack, vouched);
      assert JobSound(jobId, j, batches);
      SaveJob(jobId, j.(state := JobAnchored, confirmation := "confirmed", failure := ""));
      if batches[j.batchId].jobId == Some(jobId) {
        var b := batches[j.batchId];
        assert BatchSound(digests, j.batchId, b, old(jobs));
        SaveBatch(j.batchId, b.(state := Anchored));
      }
      r := Ok(jobs[jobId]);
    }

    /** broadcast_chain_tx_typed and broadcast_chain_tx_fallback, with what the broadcaster returned: a
        transaction hash or a refusal. Every job has a batch with a payload, so the plan exists. */
    method Broadcast(jobId: string, outcome: Result<string, string>) returns (r: Result<Job, SettlementError>)
      requires Valid()
      modifies this`batches, this`jobs
      ensures Valid() && Kept(old(batches), batches)
      ensures jobId !in old(jobs) ==> r == Err(JobNotFound) && batches == old(batches) && jobs == old(jobs)
      ensures jobId in old(jobs) && outcome.Ok? ==>
                && batches == old(batches)
                && jobs == old(jobs)[jobId := old(jobs)[jobId].(state := JobSubmitted, txHash := outcome.value)]
                && r == Ok(jobs[jobId])
      ensures jobId in old(jobs) && outcome.Err? ==>
                && r == Err(BroadcastFailed(outcome.error))
                && jobs == old(jobs)[jobId := old(jobs)[jobId].(state := JobFailed, failure := outcome.error)]
                && batches == Marked(old(batches), old(jobs), jobId, AnchorFailed)
    {
      hide Kept, AnchorSound, CollisionFree, CanonFor;
      KeptSelf(batches);
      if jobId !in jobs {
        return Err(JobNotFound);
      }
      match outcome
      case Err(reason) =>
        var _ := MarkFailed(jobId, reason);
        r := Err(BroadcastFailed(reason));
      case Ok(txHash) =>
        assert JobSound(jobId, jobs[jobId], batches);
        SaveJob(jobId, jobs[jobId].(state := JobSubmitted, txHash := txHash));
        r := Ok(jobs[jobId]);
    }

    /** _retry_failed_anchor_job_broadcast: make the failed job's batch anchorable again, submit a new
        job and broadcast that. */
    method RetryFailedBroadcast(ref: string, stamp: string, outcome: Result<string, string>)
      returns (r: Result<Job, SettlementError>)
      requires Valid()
      modifies this`batches, this`jobs
      ensures Valid() && Kept(old(batches), batches)
      ensures
        var resolved := ResolveJob(old(batches), old(jobs), ref);
        && (resolved.None? ==> r == Err(JobNotFound))
        && (resolved.Some? && old(jobs)[resolved.value].state != JobFailed ==> r == Err(NotRetryable))
      ensures
        var revived := Revives(digests, pokerAnchoring, pageSize, windows, old(batches), old(jobs), ref);
        && (r.Ok? <==> revived && outcome.Ok?)
        && (!revived ==> batches == old(batches) && jobs == old(jobs))
        && (revived ==>
              var id := old(jobs)[ResolveJob(old(batches), old(jobs), ref).value].batchId;
              MovedToNewJob(digests, pageSize, windows, old(batches), old(jobs), batches, jobs, id, outcome.Ok?))
      ensures r.Ok? ==> r.value.batchId in batches && batches[r.value.batchId].jobId == Some(r.value.id)
    {
      hide Kept, CanonOf, Sound, CollisionFree, Marked, ResolveJob, MovedToNewJob, Readied, RetryReturns;
      KeptSelf(batches);
      ResolvesToJob(batches, jobs, ref);
      var resolved := Resolve(ref);
      if resolved.None? {
        return Err(JobNotFound);
      }
      if jobs[resolved.value].state != JobFailed {
        return Err(NotRetryable);
      }
      var batchId := jobs[resolved.value].batchId;
      JobsBatch(digests, batches, jobs, readBack, vouched, resolved.value);
      var retried := RetryAnchor(batchId);
      if retried.Err? {
        return Err(retried.error);
      }
      ReadiedState(digests, pageSize, windows, old(batches)[batchId]);
      ghost var ready := batches;
      var submitted := SubmitJob(batchId, stamp);
      KeptOn(old(batches), ready, batches);
      if submitted.Err? {
        assert batches == old(batches);
        return Err(submitted.error);
      }
      ghost var sent, sentJobs := batches, jobs;
      r := Broadcast(submitted.value.jobId.value, outcome);
      KeptOn(old(batches), sent, batches);
      Moved(digests, pageSize, windows, old(batches), old(jobs), ready, sent, sentJobs, batches, jobs, batchId,
            outcome);
    }

    /** confirm_anchor_job_on_chain, with what the confirmer returned and, if the stored rows no longer
        resolve, why. */
    method Confirm(ref: string, receipt: Receipt, resolveError: string) returns (r: Result<Job, SettlementError>)
      requires Valid()
      modifies this
      ensures Valid() && Kept(old(batches), batches) && windows == old(windows)
      ensures
        var resolved := ResolveJob(old(batches), old(jobs), ref);
        && (r.Ok? <==> resolved.Some? && old(jobs)[resolved.value].txHash != "")
        && (r.Err? ==> batches == old(batches) && jobs == old(jobs))
        && (r.Ok? ==>
             ConfirmedAs(digests, old(batches), old(jobs), batches, jobs, resolved.value, receipt, resolveError))
      ensures
        var resolved := ResolveJob(old(batches), old(jobs), ref);
        r.Ok? && old(jobs)[resolved.value].state != JobAnchored ==>
          && ConfirmOutcome(digests, old(batches), old(jobs), jobs, resolved.value, receipt, resolveError)
          && ConfirmRecords(digests, old(batches), old(jobs), jobs, resolved.value, receipt, resolveError)
      ensures vouched <= old(vouched) + (if Vouched(receipt) then set j | j in jobs else {})
    {
      hide Kept, AnchorSound, CollisionFree, CanonFor, RawStatus, Normalized, Terminal;
      KeptSelf(batches);
      var resolved := Resolve(ref);
      if resolved.None? {
        return Err(JobNotFound);
      }
      var jobId := resolved.value;
      hide ResolveJob;
      if jobs[jobId].txHash == "" {
        return Err(TxHashMissing);
      }
      if jobs[jobId].state == JobAnchored {
        return Ok(jobs[jobId]);
      }
      var j := Apply(jobId, receipt, resolveError);
      ConfirmEnds(digests, old(batches), old(jobs), batches, jobs, jobId, receipt, resolveError);
      ConfirmNotes(digests, old(batches), old(jobs), batches, jobs, jobId, receipt, resolveError);
      r := Ok(j);
    }

    /** Log what the chain said, then anchor. */
    method Anchor(jobId: string, receipt: Receipt, ghost resolves: bool) returns (j: Job)
      requires Valid() && jobId in jobs && jobs[jobId].batchId in batches && batches[jobs[jobId].batchId].canon.Some?
      requires ReadBack(digests, receipt, resolves, jobId, batches[jobs[jobId].batchId]) || Vouched(receipt)
      modifies this
      ensures Valid() && Kept(old(batches), batches) && windows == old(windows)
      ensures jobs == old(jobs)[jobId := Verified(old(jobs)[jobId])]
      ensures j == jobs[jobId] && batches == Marked(old(batches), old(jobs), jobId, Anchored)
      ensures vouched <= old(vouched) + (if Vouched(receipt) then {jobId} else {})
    {
      hide Kept, CollisionFree, Sound, Marked, Shows;
      Logged(digests, batches, jobs, readBack, vouched, jobId, receipt, resolves);
      if receipt.query.Some? {
        readBack := readBack[jobId := AnchorOf(receipt.query.value)];
      } else {
        vouched := vouched + {jobId};
      }
      var marked := MarkAnchored(jobId, true);
      j := marked.value;
    }

    /** Record the confirmation and act on it. */
    method Apply(jobId: string, receipt: Receipt, resolveError: string) returns (j: Job)
      requires Valid() && jobId in jobs && jobs[jobId].state != JobAnchored
      modifies this
      ensures Valid() && Kept(old(batches), batches) && windows == old(windows)
      ensures ConfirmedAs(digests, old(batches), old(jobs), batches, jobs, jobId, receipt, resolveError)
      ensures vouched <= old(vouched) + (if Vouched(receipt) then {jobId} else {})
    {
      hide Kept, AnchorSound, CollisionFree, CanonFor, RawStatus, Normalized, Terminal, ReadBack, Shows;
      KeptSelf(batches);
      assert JobSound(jobId, jobs[jobId], batches);
      var b := batches[jobs[jobId].batchId];
      hide Sound, FailureReason, Vouched, Marked, ConfirmedAs, Verified;
      var raw := RawStatus(digests, receipt, resolveError == "", jobId, b);
      var status := Normalized(raw);
      SaveJob(jobId, jobs[jobId].(confirmation := status));
      if status == "confirmed" {
        ConfirmedIff(digests, receipt, resolveError == "", jobId, b);
        MarkedAlike(batches, old(jobs), jobs, jobId, Anchored);
        VerifiedAgain(old(jobs), jobId, jobs[jobId]);
        j := Anchor(jobId, receipt, resolveError == "");
      } else if Terminal(status) {
        MarkedAlike(batches, old(jobs), jobs, jobId, AnchorFailed);
        var reason := Reason(receipt, resolveError, raw);
        var marked := MarkFailed(jobId, reason);
        j := marked.value;
      } else {
        j := jobs[jobId];
      }
      ActsAs(digests, old(batches), old(jobs), batches, jobs, jobId, receipt, resolveError, raw, status);
    }
  }

  /** The reason a confirmation fails a job with. */
  method Reason(receipt: Receipt, resolveError: string, raw: string) returns (s: string)
    ensures s == FailureReason(receipt, resolveError, raw)
  {
    s := receipt.rawLog;
    if receipt.status == "confirmed" && receipt.query.Some? && resolveError != "" {
      s := resolveError;
    }
    if s == "" {
      s := "chain anchor confirmation " + raw;
    }
  }

  function FailureReason(receipt: Receipt, resolveError: string, raw: string): string {
    var log := if receipt.status == "confirmed" && receipt.query.Some?
      && resolveError != "" then resolveError else receipt.rawLog;
    if log != "" then log else "chain anchor confirmation " + raw
  }

  /** What a confirmation does: nothing for an anchored job; otherwise the job takes the normalized
      status, and is anchored, failed or left pending by it, and its batch with it if it points at the job. */
  ghost predicate ConfirmedAs(digests: Digests, batches: Batches, jobs: Jobs, batches': Batches, jobs': Jobs,
                              jobId: string, receipt: Receipt, resolveError: string) {
    && jobId in jobs && jobs[jobId].batchId in batches && batches[jobs[jobId].batchId].canon.Some?
    && var j := jobs[jobId];
       var raw := RawStatus(digests, receipt, resolveError == "", jobId, batches[j.batchId]);
       var status := Normalized(raw);
       if j.state == JobAnchored then batches' == batches && jobs' == jobs
       else if status == "confirmed" then
         && batches' == Marked(batches, jobs, jobId, Anchored)
         && jobs' == jobs[jobId := Verified(j)]
       else if Terminal(status) then
         && batches' == Marked(batches, jobs, jobId, AnchorFailed)
         && jobs' == jobs[jobId := j.(state := JobFailed, confirmation := status,
                                      failure := FailureReason(receipt, resolveError, raw))]
       else batches' == batches && jobs' == jobs[jobId := j.(confirmation := status)]
  }

  /** A confirmed job is anchored exactly if the confirmer vouched, or the chain was asked, the rows resolve and
      the answer shows the batch; and it fails exactly if the receipt refutes the anchor, or it had failed and is
      left pending. */
  ghost predicate ConfirmOutcome(digests: Digests, batches: Batches, jobs: Jobs, jobs': Jobs, jobId: string,
                                 receipt: Receipt, resolveError: string) {
    && jobId in jobs && jobId in jobs' && jobs[jobId].batchId in batches && batches[jobs[jobId].batchId].canon.Some?
    && var b, j, j' := batches[jobs[jobId].batchId], jobs[jobId], jobs'[jobId];
       && (j'.state == JobAnchored <==>
             || Vouched(receipt)
             || (receipt.status == "confirmed" && receipt.query.Some? && resolveError == ""
                 && Shows(digests, AnchorOf(receipt.query.value), jobId, b)))
       && (j'.state == JobFailed <==>
             || Refuted(digests, receipt, resolveError == "", jobId, b)
             || (j.state == JobFailed && j'.state != JobAnchored))
  }

  /** The job records what the receipt amounts to, and why it failed. */
  ghost predicate ConfirmRecords(digests: Digests, batches: Batches, jobs: Jobs, jobs': Jobs, jobId: string,
                                 receipt: Receipt, resolveError: string) {
    && jobId in jobs && jobId in jobs' && jobs[jobId].batchId in batches && batches[jobs[jobId].batchId].canon.Some?
    && var b, j' := batches[jobs[jobId].batchId], jobs'[jobId];
       var amounts := AmountsTo(digests, receipt, resolveError == "", jobId, b);
       && j'.confirmation == ReportedAs(amounts)
       && (j'.state == JobAnchored ==> j'.confirmation == "confirmed" && j'.failure == "")
       && (Refuted(digests, receipt, resolveError == "", jobId, b) ==>
             j'.failure == if receipt.status == "confirmed" && receipt.query.Some? && resolveError != ""
                           then resolveError
                           else if receipt.rawLog != "" then receipt.rawLog
                           else "chain anchor confirmation " + amounts)
  }

  lemma ConfirmEnds(digests: Digests, batches: Batches, jobs: Jobs, batches': Batches, jobs': Jobs, jobId: string,
                    receipt: Receipt, resolveError: string)
    requires ConfirmedAs(digests, batches, jobs, batches', jobs', jobId, receipt, resolveError)
    requires jobs[jobId].state != JobAnchored
    ensures ConfirmOutcome(digests, batches, jobs, jobs', jobId, receipt, resolveError)
  {
    var b := batches[jobs[jobId].batchId];
    ConfirmedState(digests, batches, jobs, batches', jobs', jobId, receipt, resolveError);
    ConfirmedIff(digests, receipt, resolveError == "", jobId, b);
    RefutedIff(digests, receipt, resolveError == "", jobId, b);
    hide RawStatus, Normalized, Terminal, Shows, ConfirmedAs, Vouched, Refuted;
  }

  lemma ConfirmedState(digests: Digests, batches: Batches, jobs: Jobs, batches': Batches, jobs': Jobs, jobId: string,
                       receipt: Receipt, resolveError: string)
    requires ConfirmedAs(digests, batches, jobs, batches', jobs', jobId, receipt, resolveError)
    requires jobs[jobId].state != JobAnchored
    ensures jobId in jobs' && jobs[jobId].batchId in batches && batches[jobs[jobId].batchId].canon.Some?
    ensures
      var status :=
        Normalized(RawStatus(digests, receipt, resolveError == "", jobId, batches[jobs[jobId].batchId]));
      && (jobs'[jobId].state == JobAnchored <==> status == "confirmed")
      && (jobs'[jobId].state == JobFailed <==>
            || Terminal(status)
            || (jobs[jobId].state == JobFailed && jobs'[jobId].state != JobAnchored))
  {
    hide RawStatus, Normalized, Terminal, Marked, FailureReason;
    ConfirmedNotTerminal();
  }

  lemma ConfirmNotes(digests: Digests, batches: Batches, jobs: Jobs, batches': Batches, jobs': Jobs, jobId: string,
                     receipt: Receipt, resolveError: string)
    requires ConfirmedAs(digests, batches, jobs, batches', jobs', jobId, receipt, resolveError)
    requires jobs[jobId].state != JobAnchored
    ensures ConfirmRecords(digests, batches, jobs, jobs', jobId, receipt, resolveError)
  {
    var b := batches[jobs[jobId].batchId];
    RefutedIff(digests, receipt, resolveError == "", jobId, b);
    RecordedIs(digests, receipt, resolveError == "", jobId, b);
    hide RawStatus, Normalized, Terminal, Marked, Refuted, AmountsTo, ReportedAs;
    ConfirmedNotTerminal();
  }

  lemma ConfirmedNotTerminal()
    ensures !Terminal("confirmed")
  {
  }

  lemma ActsAs(digests: Digests, batches: Batches, jobs: Jobs, batches': Batches, jobs': Jobs, jobId: string,
               receipt: Receipt, resolveError: string, raw: string, status: string)
    requires jobId in jobs && jobs[jobId].state != JobAnchored
    requires jobs[jobId].batchId in batches && batches[jobs[jobId].batchId].canon.Some?
    requires raw == RawStatus(digests, receipt, resolveError == "", jobId, batches[jobs[jobId].batchId])
    requires status == Normalized(raw)
    requires
      var j := jobs[jobId];
      if status == "confirmed" then
        batches' == Marked(batches, jobs, jobId, Anchored) && jobs' == jobs[jobId := Verified(j)]
      else if Terminal(status) then
        && batches' == Marked(batches, jobs, jobId, AnchorFailed)
        && jobs' == jobs[jobId := j.(state := JobFailed, confirmation := status,
                                     failure := FailureReason(receipt, resolveError, raw))]
      else batches' == batches && jobs' == jobs[jobId := j.(confirmation := status)]
    ensures ConfirmedAs(digests, batches, jobs, batches', jobs', jobId, receipt, resolveError)
  {
    hide RawStatus, Normalized, Terminal, Marked, Verified, FailureReason;
  }

  lemma VerifiedAgain(jobs: Jobs, jobId: string, j: Job)
    requires jobId in jobs && j == jobs[jobId].(confirmation := j.confirmation)
    ensures jobs[jobId := j][jobId := Verified(j)] == jobs[jobId := Verified(jobs[jobId])]
  {
  }

  lemma MarkedAlike(batches: Batches, jobs: Jobs, jobs': Jobs, jobId: string, state: BatchState)
    requires jobId in jobs && jobId in jobs' && jobs'[jobId].batchId == jobs[jobId].batchId
    ensures Marked(batches, jobs', jobId, state) == Marked(batches, jobs, jobId, state)
  {
  }

  lemma Logged(digests: Digests, batches: Batches, jobs: Jobs, readBack: map<string, Fields>, vouched: set<string>,
               jobId: string, receipt: Receipt, resolves: bool)
    requires Sound(digests, batches, jobs, readBack, vouched) && jobId in jobs && jobs[jobId].batchId in batches
    requires batches[jobs[jobId].batchId].canon.Some?
    requires ReadBack(digests, receipt, resolves, jobId, batches[jobs[jobId].batchId]) || Vouched(receipt)
    ensures receipt.query.Some? ==>
              && Shows(digests, AnchorOf(receipt.query.value), jobId, batches[jobs[jobId].batchId])
              && Sound(digests, batches, jobs, readBack[jobId := AnchorOf(receipt.query.value)], vouched)
    ensures receipt.query.None? ==> Vouched(receipt) && Sound(digests, batches, jobs, readBack, vouched + {jobId})
  {
    hide Shows, AnchorOf, CanonFor;
    forall id | id in batches && batches[id].jobId == Some(jobId) ensures id == jobs[jobId].batchId {
      assert BatchSound(digests, id, batches[id], jobs);
    }
    if receipt.query.Some? {
      var readBack' := readBack[jobId := AnchorOf(receipt.query.value)];
      LogExtended(digests, batches, jobs, readBack, vouched, readBack', vouched, jobId);
    } else {
      LogExtended(digests, batches, jobs, readBack, vouched, readBack, vouched + {jobId}, jobId);
    }
  }

  /** A failed job is retried and its batch can be submitted again. Whether the batch points at the job is
      not looked at. */
  ghost predicate Revives(digests: Digests, pokerAnchoring: bool, pageSize: int, windows: Windows, batches: Batches,
                          jobs: Jobs, ref: string) {
    var resolved := ResolveJob(batches, jobs, ref);
    && resolved.Some? && jobs[resolved.value].state == JobFailed && jobs[resolved.value].batchId in batches
    && var b := batches[jobs[resolved.value].batchId];
       (b.state == AnchorReady || b.state == AnchorFailed) && Anchorable(digests, pokerAnchoring, pageSize, windows, b)
  }

  /** The batch was submitted under a job that is new, and that job's broadcast went out or was refused;
      nothing else changed. */
  ghost predicate MovedToNewJob(digests: Digests, pageSize: int, windows: Windows, batches: Batches, jobs: Jobs,
                                batches': Batches, jobs': Jobs, id: string, sent: bool) {
    && id in batches && id in batches' && CanonOf(digests, pageSize, windows, batches[id]).Ok?
    && var jobId := batches'[id].jobId;
       && jobId.Some? && jobId.value !in jobs && jobs'.Keys == jobs.Keys + {jobId.value}
       && (forall j :: j in jobs ==> jobs'[j] == jobs[j])
       && jobs'[jobId.value].batchId == id && jobs'[jobId.value].state == (if sent then JobSubmitted else JobFailed)
       && batches' == batches[id := Readied(digests, pageSize, windows, batches[id]).(
                                      state := if sent then AnchorSubmitted else AnchorFailed, jobId := jobId)]
  }

  lemma ResolvesToJob(batches: Batches, jobs: Jobs, ref: string)
    ensures ResolveJob(batches, jobs, ref).Some? ==> ResolveJob(batches, jobs, ref).value in jobs
  {
  }

  /** A job's batch has a root, so it is neither open nor cancelled. */
  lemma JobsBatch(digests: Digests, batches: Batches, jobs: Jobs, readBack: map<string, Fields>, vouched: set<string>,
                  jobId: string)
    requires Sound(digests, batches, jobs, readBack, vouched) && jobId in jobs
    ensures jobs[jobId].batchId in batches
    ensures
      var b := batches[jobs[jobId].batchId];
      b.id == jobs[jobId].batchId && b.canon.Some? && b.state != Open && b.state != Cancelled
  {
    hide AnchorSound, CanonFor;
    assert JobSound(jobId, jobs[jobId], batches);
    assert BatchSound(digests, jobs[jobId].batchId, batches[jobs[jobId].batchId], jobs);
  }

  lemma ReadiedState(digests: Digests, pageSize: int, windows: Windows, b: Batch)
    requires CanonOf(digests, pageSize, windows, b).Ok? && b.state != Open
    ensures b.state != AnchorFailed ==> Readied(digests, pageSize, windows, b) == b
    ensures b.state == AnchorFailed ==> Readied(digests, pageSize, windows, b).state == AnchorReady
    ensures Readied(digests, pageSize, windows, b).id == b.id
  {
    hide CanonOf;
  }

  lemma Moved(digests: Digests, pageSize: int, windows: Windows, batches: Batches, jobs: Jobs, ready: Batches,
              sent: Batches, sentJobs: Jobs, batches': Batches, jobs': Jobs, id: string,
              outcome: Result<string, string>)
    requires id in batches && CanonOf(digests, pageSize, windows, batches[id]).Ok?
    requires ready == batches[id := Readied(digests, pageSize, windows, batches[id])] && ready[id].id == id
    requires id in sent && sent[id].jobId.Some? && sent[id].jobId.value !in jobs
    requires sent == ready[id := ready[id].(state := AnchorSubmitted, jobId := sent[id].jobId)]
    requires sentJobs == jobs[sent[id].jobId.value := NewJob(ready[id], sent[id].jobId.value)]
    requires
      var jobId := sent[id].jobId.value;
      && jobId in sentJobs
      && (outcome.Ok? ==>
           && batches' == sent
           && jobs' == sentJobs[jobId := sentJobs[jobId].(state := JobSubmitted, txHash := outcome.value)])
      && (outcome.Err? ==>
           && batches' == Marked(sent, sentJobs, jobId, AnchorFailed)
           && jobs' == sentJobs[jobId := sentJobs[jobId].(state := JobFailed, failure := outcome.error)])
    ensures MovedToNewJob(digests, pageSize, windows, batches, jobs, batches', jobs', id, outcome.Ok?)
  {
    hide CanonOf, Readied;
  }

  function Verified(j: Job): Job {
    j.(state := JobAnchored, confirmation := "confirmed", failure := "")
  }

  /** What a confirmation leaves behind before its job may be anchored: the chain's matching answer, or a
      confirmer's word. */
  predicate Confirmable(digests: Digests, batches: Batches, jobs: Jobs, readBack: map<string, Fields>,
                        vouched: set<string>, jobId: string) {
    && jobId in jobs && jobs[jobId].batchId in batches && batches[jobs[jobId].batchId].canon.Some?
    && (jobId in vouched
        || (jobId in readBack && Shows(digests, readBack[jobId], jobId, batches[jobs[jobId].batchId])))
  }

  predicate IsOpen(batches: Batches, id: string) {
    id in batches && batches[id].state == Open
  }

  /** The batch, submitted under a job. */
  function SubmittedAs(b: Batch, jobId: string): Batch {
    b.(state := AnchorSubmitted, jobId := Some(jobId))
  }

  function NewJob(b: Batch, jobId: string): Job {
    Job(jobId, b.id, b.lane, JobSubmitted, if b.canon.Some? then b.canon.value.hash else "", "", "", "")
  }

  /** The batches after a job ended: the job's batch takes the state, if it still points at the job. */
  function Marked(batches: Batches, jobs: Jobs, jobId: string, state: BatchState): Batches
    requires jobId in jobs
  {
    var id := jobs[jobId].batchId;
    if id in batches && batches[id].jobId == Some(jobId) then batches[id := batches[id].(state := state)] else batches
  }

  lemma SubmittedSound(digests: Digests, b: Batch, jobId: string, readBack: map<string, Fields>, vouched: set<string>)
    ensures AnchorSound(digests, b.(state := AnchorSubmitted, jobId := Some(jobId)), readBack, vouched)
  {
  }

  lemma FailedSound(digests: Digests, b: Batch, readBack: map<string, Fields>, vouched: set<string>)
    ensures AnchorSound(digests, b.(state := AnchorFailed), readBack, vouched)
  {
  }

  lemma AnchoredSound(digests: Digests, b: Batch, jobId: string, readBack: map<string, Fields>, vouched: set<string>)
    requires b.canon.Some?
    requires jobId in vouched || (jobId in readBack && Shows(digests, readBack[jobId], jobId, b))
    ensures b.jobId == Some(jobId) ==> AnchorSound(digests, b.(state := Anchored), readBack, vouched)
  {
  }

  lemma OpenSound(digests: Digests, jobs: Jobs, readBack: map<string, Fields>, vouched: set<string>, id: string,
                  windowId: string, w: Window)
    ensures BatchSound(digests, id, OpenBatch(id, windowId, w), jobs)
    ensures AnchorSound(digests, OpenBatch(id, windowId, w), readBack, vouched)
  {
  }

  lemma CancelledSound(digests: Digests, b: Batch, readBack: map<string, Fields>, vouched: set<string>)
    ensures AnchorSound(digests, b.(state := Cancelled, total := 0), readBack, vouched)
  {
  }

  lemma ReadySound(digests: Digests, b: Batch, canon: Canon, readBack: map<string, Fields>, vouched: set<string>)
    ensures AnchorSound(digests, b.(state := AnchorReady, jobId := None, canon := Some(canon)), readBack, vouched)
  {
  }

  lemma CanonSound(digests: Digests, pageSize: int, windows: Windows, b: Batch, canon: Canon)
    requires CanonOf(digests, pageSize, windows, b) == Ok(canon)
    ensures CanonFor(digests, canon)
  {
  }

  lemma SameCanon(digests: Digests, stored: Canon, canon: Canon)
    requires CollisionFree(digests) && CanonFor(digests, stored) && CanonFor(digests, canon)
    requires stored.root == canon.root && stored.hash == canon.hash
    ensures stored == canon
  {
  }

  /** The shipped confirmer asks the chain for the anchor whenever the transaction was accepted. */
  predicate Shipped(receipt: Receipt) {
    receipt.status == "confirmed" ==> receipt.query.Some?
  }

  /** With the shipped confirmer a job is confirmed exactly when every expected field was read back. */
  lemma ShippedReadsBack(digests: Digests, receipt: Receipt, resolves: bool, jobId: string, b: Batch)
    requires b.canon.Some? && Shipped(receipt)
    ensures !Vouched(receipt)
    ensures (Normalized(RawStatus(digests, receipt, resolves, jobId, b)) == "confirmed")
              == ReadBack(digests, receipt, resolves, jobId, b)
  {
    ConfirmedIff(digests, receipt, resolves, jobId, b);
    hide RawStatus, Normalized, ReadBack;
  }

  /** A confirmer that answers confirmed on its own word anchors without any anchor being read. */
  lemma VouchingSkipsTheChain(digests: Digests, jobId: string, b: Batch)
    requires b.canon.Some?
    ensures
      var receipt := Receipt("confirmed", true, None, false, "");
      && Normalized(RawStatus(digests, receipt, false, jobId, b)) == "confirmed"
      && !ReadBack(digests, receipt, false, jobId, b)
  {
  }
}
