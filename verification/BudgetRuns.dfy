/** Joint runs of the settlement service and the budget's ledgers: builds of poker windows reserve from the
    budget and store the window, anchoring a batch pays its ledgers. */
module BudgetRuns {
  import opened Options
  import opened Budget
  import opened Settlement
  import opened SettlementService
  import S = SettlementRuns

  datatype Event =
    | Build(windowId: string, w: Window, inputs: string, pool: nat, positive: bool)
    | Forecast(windowId: string, w: Window)
    | Other(e: S.Event)

  /** The ledgers of one source and epoch, and what is known of their windows. */
  datatype Account = Account(source: string, epoch: string, ledgers: map<string, Ledger>, settled: set<string>,
                             built: map<string, Built>)

  ghost function AccountOf(book: BudgetBook): Account
    reads book
  {
    Account(book.source, book.epoch, book.ledgers, book.settled, book.built)
  }

  // ---- What holds between windows, batches and ledgers --------------------------------------------------

  function IdIn(a: Account, windowId: string): string {
    LedgerId(a.source, a.epoch, windowId)
  }

  predicate LinkedOne(id: string, b: Batch, windows: Windows) {
    id != "" && |b.windowIds| == 1 && b.windowIds[0] in windows && windows[b.windowIds[0]].batchId == Some(id)
  }

  /** A batch that is not cancelled has one window, which is linked to it. */
  ghost predicate Linked(windows: Windows, batches: Batches) {
    forall id :: id in batches && batches[id].state != Cancelled ==> LinkedOne(id, batches[id], windows)
  }

  /** The window is linked to a batch that is no longer open. */
  predicate SettledBy(windows: Windows, batches: Batches, x: string) {
    && x in windows && windows[x].batchId.Some? && windows[x].batchId.value != ""
    && windows[x].batchId.value in batches && batches[windows[x].batchId.value].state != Open
  }

  ghost predicate SettledAll(windows: Windows, batches: Batches, a: Account) {
    forall x :: x in a.settled ==> SettledBy(windows, batches, x)
  }

  /** Every ledger is that of a built window. */
  ghost predicate OfBuilt(a: Account) {
    && (forall id :: id in a.ledgers ==> id == IdIn(a, a.ledgers[id].windowId) && a.ledgers[id].windowId in a.built)
    && (forall x :: x in a.built ==> IdIn(a, x) in a.ledgers && a.ledgers[IdIn(a, x)].windowId == x)
  }

  function Approved(a: Account, x: string): int {
    if IdIn(a, x) in a.ledgers then a.ledgers[IdIn(a, x)].approved else 0
  }

  /** A built window pays out what its ledger approved, */
  ghost predicate WindowsAgree(windows: Windows, a: Account) {
    forall x :: x in a.built ==> x in windows && windows[x].total == Approved(a, x)
  }

  predicate BatchAgrees(b: Batch, a: Account) {
    b.state != Cancelled && |b.windowIds| == 1 && b.windowIds[0] in a.built ==> b.total == Approved(a, b.windowIds[0])
  }

  /** and so does its batch, unless cancelled. */
  ghost predicate BatchesAgree(batches: Batches, a: Account) {
    forall id :: id in batches ==> BatchAgrees(batches[id], a)
  }

  /** The ledgers of the windows are paid what was approved. */
  ghost predicate PaidUp(windowIds: seq<string>, a: Account) {
    forall id :: id in a.ledgers && a.ledgers[id].windowId in windowIds ==>
      a.ledgers[id].paid == a.ledgers[id].approved && (a.ledgers[id].approved > 0 ==> a.ledgers[id].state == Paid)
  }

  ghost predicate AnchoredPaid(batches: Batches, a: Account) {
    forall id :: id in batches && batches[id].state == Anchored ==> PaidUp(batches[id].windowIds, a)
  }

  ghost predicate Joint(windows: Windows, batches: Batches, a: Account) {
    && Linked(windows, batches) && SettledAll(windows, batches, a) && OfBuilt(a) && WindowsAgree(windows, a)
    && BatchesAgree(batches, a) && AnchoredPaid(batches, a)
  }

  lemma NothingJoint(windows: Windows, batches: Batches, source: string, epoch: string)
    requires Linked(windows, batches)
    ensures Joint(windows, batches, Account(source, epoch, map[], {}, map[]))
  {
  }

  // ---- What the events keep ------------------------------------------------------------------------------

  lemma CancelKeeps(windows: Windows, batches: Batches, a: Account, id: string)
    requires Joint(windows, batches, a) && id in batches && batches[id].state == Open
    ensures Joint(windows, batches[id := batches[id].(state := Cancelled, total := 0)], a)
  {
    hide OfBuilt, WindowsAgree, PaidUp, Approved;
  }

  lemma ForecastKeeps(windows: Windows, batches: Batches, a: Account, x: string, w: Window)
    requires Joint(windows, batches, a) && x !in a.built
    requires w.batchId == if x in windows then windows[x].batchId else None
    ensures Joint(windows[x := w], batches, a)
  {
    hide OfBuilt, PaidUp, Approved, BatchesAgree, AnchoredPaid;
  }

  /** Building batches links every window for good and takes open batches' totals from their windows. */
  lemma ReconcileKeeps(windows: Windows, batches: Batches, windows': Windows, batches': Batches, a: Account)
    requires Joint(windows, batches, a) && Synced(windows, batches, windows', batches', {}) && Kept(batches, batches')
    ensures Joint(windows', batches', a)
  {
    hide OfBuilt, PaidUp, Approved;
    forall id | id in batches'
      ensures batches'[id].state != Cancelled ==> LinkedOne(id, batches'[id], windows')
      ensures BatchAgrees(batches'[id], a) && (batches'[id].state == Anchored ==> PaidUp(batches'[id].windowIds, a))
    {
      hide SettlementService.Untouched, OrElse;
      assert Placed(id, windows, batches, windows', batches'[id], {});
    }
    hide Placed;
    forall x | x in a.settled ensures SettledBy(windows', batches', x) {
      assert SettledBy(windows, batches, x);
      assert KeptOne(batches[windows[x].batchId.value], batches'[windows[x].batchId.value]);
    }
  }

  /** Only states, job pointers and payloads of batches change; none is cancelled. */
  predicate SameCore(batches: Batches, batches': Batches) {
    && batches'.Keys == batches.Keys
    && forall id :: id in batches ==> SameCoreOne(batches[id], batches'[id])
  }

  predicate SameCoreOne(b: Batch, b': Batch) {
    && b' == b.(state := b'.state, jobId := b'.jobId, canon := b'.canon)
    && (b'.state == Cancelled <==> b.state == Cancelled) && (b'.state == Open ==> b.state == Open)
  }

  /** No batch becomes anchored, except the given one. */
  predicate NoneAnchored(batches: Batches, batches': Batches, except: Option<string>) {
    forall id :: id in batches && id in batches' && batches'[id].state == Anchored ==>
      batches[id].state == Anchored || Some(id) == except
  }

  lemma CoreKeeps(windows: Windows, batches: Batches, batches': Batches, a: Account)
    requires Joint(windows, batches, a) && SameCore(batches, batches') && NoneAnchored(batches, batches', None)
    ensures Joint(windows, batches', a)
  {
    hide OfBuilt, WindowsAgree, PaidUp, Approved;
    forall id | id in batches'
      ensures batches'[id].state != Cancelled ==> LinkedOne(id, batches'[id], windows)
      ensures BatchAgrees(batches'[id], a)
    {
      assert SameCoreOne(batches[id], batches'[id]);
    }
  }

  /** The window is stored and, if it has weights, linked and its open batch follows it. */
  ghost predicate Rebuilt(windows: Windows, batches: Batches, x: string, w: Window, windows': Windows,
                          batches': Batches) {
    var id := BatchIdFor(x, w);
    && w.batchId == (if w.weighted && x in windows then windows[x].batchId else None)
    && if w.weighted then
         && windows' == windows[x := w.(batchId := Some(id))]
         && batches' == if id in batches && batches[id].state != Open then batches
                        else batches[id := OpenBatch(id, x, w)]
       else windows' == windows[x := w] && batches' == batches
  }

  /** No batch is for the window, unless the window has weights and the batch is its open one. */
  ghost predicate Free(batches: Batches, x: string, w: Window) {
    forall id :: id in batches && batches[id].state != Cancelled && x in batches[id].windowIds ==>
      w.weighted && id == BatchIdFor(x, w) && batches[id].state == Open
  }

  lemma WindowFree(windows: Windows, batches: Batches, x: string, w: Window)
    requires Linked(windows, batches)
    requires SettledBy(windows, batches, x) ==> batches[windows[x].batchId.value].state == Cancelled
    requires w.batchId == if w.weighted && x in windows then windows[x].batchId else None
    requires !w.weighted && x in windows && windows[x].batchId.Some? && windows[x].batchId.value in batches ==>
               batches[windows[x].batchId.value].state != Open
    ensures Free(batches, x, w)
  {
    forall id | id in batches && batches[id].state != Cancelled && x in batches[id].windowIds
      ensures w.weighted && id == BatchIdFor(x, w) && batches[id].state == Open
    {
      assert LinkedOne(id, batches[id], windows);
    }
  }

  lemma RebuiltLinked(windows: Windows, batches: Batches, x: string, w: Window, windows': Windows, batches': Batches)
    requires Linked(windows, batches) && Free(batches, x, w) && Rebuilt(windows, batches, x, w, windows', batches')
    ensures Linked(windows', batches')
  {
    hide BatchIdFor, OrElse;
    forall id | id in batches' && batches'[id].state != Cancelled ensures LinkedOne(id, batches'[id], windows') {
      if id in batches && batches'[id] == batches[id] {
        assert LinkedOne(id, batches[id], windows);
        assert x in batches[id].windowIds ==> batches[id].windowIds[0] == x;
      }
    }
  }

  lemma RebuiltSettled(windows: Windows, batches: Batches, x: string, w: Window, windows': Windows, batches': Batches,
                       a: Account)
    requires SettledAll(windows, batches, a) && x !in a.settled
    requires Rebuilt(windows, batches, x, w, windows', batches')
    ensures SettledAll(windows', batches', a)
  {
    hide BatchIdFor, OpenBatch;
    forall y | y in a.settled ensures SettledBy(windows', batches', y) {
      assert SettledBy(windows, batches, y) && y != x;
    }
  }

  /** A window that is not settled is rebuilt: its ledger is new, and the window and its open batch are for
      the amount the ledger approved. */
  lemma RebuildKeeps(windows: Windows, batches: Batches, a: Account, windows': Windows, batches': Batches, a': Account,
                     x: string, w: Window, l: Ledger, b: Built)
    requires Joint(windows, batches, a) && x !in a.settled && Free(batches, x, w)
    requires l.windowId == x && l.approved == w.total
    requires a' == a.(ledgers := a.ledgers[IdIn(a, x) := l], built := a.built[x := b])
    requires Rebuilt(windows, batches, x, w, windows', batches')
    ensures Joint(windows', batches', a')
  {
    hide Linked, SettledAll, OfBuilt, WindowsAgree, BatchesAgree, AnchoredPaid, Free, Rebuilt;
    hide Approved, PaidUp, SettledBy;
    RebuiltLinked(windows, batches, x, w, windows', batches');
    RebuiltSettled(windows, batches, x, w, windows', batches', a);
    SettledSame(windows', batches', a, a');
    OtherLedgers(a, a', x, l, b);
    RebuiltPaid(batches, a, batches', a', windows, windows', x, w);
    RebuiltTotals(batches, a, batches', a', windows, windows', x, w);
  }

  lemma SettledSame(windows: Windows, batches: Batches, a: Account, a': Account)
    requires SettledAll(windows, batches, a) && a'.settled == a.settled
    ensures SettledAll(windows, batches, a')
  {
  }

  lemma RebuiltTotals(batches: Batches, a: Account, batches': Batches, a': Account, windows: Windows,
                      windows': Windows, x: string, w: Window)
    requires WindowsAgree(windows, a) && BatchesAgree(batches, a) && Free(batches, x, w)
    requires Rebuilt(windows, batches, x, w, windows', batches') && a'.built.Keys == a.built.Keys + {x}
    requires Approved(a', x) == w.total && forall y :: y != x ==> Approved(a', y) == Approved(a, y)
    ensures WindowsAgree(windows', a') && BatchesAgree(batches', a')
  {
    hide Approved, BatchIdFor, OrElse;
    forall y | y in a'.built ensures y in windows' && windows'[y].total == Approved(a', y) {
      assert y == x || y in a.built;
    }
    forall id | id in batches' ensures BatchAgrees(batches'[id], a') {
      BatchRebuilt(batches, a, batches', a', windows, windows', x, w, id);
    }
  }

  lemma BatchRebuilt(batches: Batches, a: Account, batches': Batches, a': Account, windows: Windows,
                     windows': Windows, x: string, w: Window, id: string)
    requires BatchesAgree(batches, a) && Free(batches, x, w) && id in batches'
    requires Rebuilt(windows, batches, x, w, windows', batches') && a'.built.Keys == a.built.Keys + {x}
    requires Approved(a', x) == w.total && forall y :: y != x ==> Approved(a', y) == Approved(a, y)
    ensures BatchAgrees(batches'[id], a')
  {
    hide Approved, BatchIdFor, OrElse;
    var b := batches'[id];
    if b.state != Cancelled && |b.windowIds| == 1 {
      var y := b.windowIds[0];
      if y != x {
        assert id in batches && batches[id] == b;
        assert BatchAgrees(batches[id], a);
      } else {
        assert x in b.windowIds;
      }
    }
  }

  lemma RebuiltPaid(batches: Batches, a: Account, batches': Batches, a': Account, windows: Windows, windows': Windows,
                    x: string, w: Window)
    requires AnchoredPaid(batches, a) && Free(batches, x, w) && Rebuilt(windows, batches, x, w, windows', batches')
    requires forall ys :: PaidUp(ys, a) && x !in ys ==> PaidUp(ys, a')
    ensures AnchoredPaid(batches', a')
  {
    hide PaidUp, BatchIdFor, OrElse;
    forall id | id in batches' && batches'[id].state == Anchored ensures PaidUp(batches'[id].windowIds, a') {
      assert id in batches && batches'[id] == batches[id];
    }
  }

  lemma OtherLedgers(a: Account, a': Account, x: string, l: Ledger, b: Built)
    requires OfBuilt(a) && l.windowId == x
    requires a' == a.(ledgers := a.ledgers[IdIn(a, x) := l], built := a.built[x := b])
    ensures OfBuilt(a') && Approved(a', x) == l.approved
    ensures forall y :: y != x ==> Approved(a', y) == Approved(a, y)
    ensures forall ys :: PaidUp(ys, a) && x !in ys ==> PaidUp(ys, a')
  {
    forall y | y != x ensures IdIn(a, y) != IdIn(a, x) {
      if IdIn(a, y) == IdIn(a, x) {
        LedgerIdInjective(a.source, a.epoch, y, x);
      }
    }
    hide LedgerId;
  }

  // ---- Settlement events ---------------------------------------------------------------------------------

  /** The batch that an event anchors: the confirmed job's, if it points at the job. */
  function Anchors(s: S.State, e: S.Event, s': S.State): Option<string> {
    if !e.Ask? then None
    else
      var jobId := ResolveJob(s.batches, s.jobs, e.ref);
      if jobId.Some? && jobId.value in s.jobs && jobId.value in s'.jobs
         && s.jobs[jobId.value].state != JobAnchored && s'.jobs[jobId.value].state == JobAnchored
         && s.jobs[jobId.value].batchId in s.batches && s.batches[s.jobs[jobId.value].batchId].jobId == jobId
      then Some(s.jobs[jobId.value].batchId)
      else None
  }

  predicate Plain(e: S.Event) {
    !e.Store? && !e.Reconcile?
  }

  lemma MarkedCore(c: S.Config, s: S.State, jobId: string, state: BatchState)
    requires S.Healthy(c, s) && jobId in s.jobs && (state == Anchored || state == AnchorFailed)
    ensures SameCore(s.batches, Marked(s.batches, s.jobs, jobId, state))
    ensures state == AnchorFailed ==> NoneAnchored(s.batches, Marked(s.batches, s.jobs, jobId, state), None)
    ensures state == Anchored ==>
              NoneAnchored(s.batches, Marked(s.batches, s.jobs, jobId, state), Some(s.jobs[jobId].batchId))
  {
    hide AnchorSound, CanonFor, CollisionFree;
    if s.jobs[jobId].batchId in s.batches {
      assert BatchSound(c.digests, s.jobs[jobId].batchId, s.batches[s.jobs[jobId].batchId], s.jobs);
    }
  }

  lemma ReadiedCore(c: S.Config, s: S.State, b: Batch)
    requires Anchorable(c.digests, c.pokerAnchoring, c.pageSize, s.windows, b)
    ensures
      var b' := Readied(c.digests, c.pageSize, s.windows, b);
      SameCoreOne(b, b') && (b'.state == Anchored ==> b.state == Anchored) && b'.state != Cancelled
  {
    hide CanonOf;
  }

  /** An event that neither stores a window nor reconciles keeps the core of every batch, and anchors at most
      the one batch. */
  lemma PlainEvent(c: S.Config, s: S.State, e: S.Event, s': S.State)
    requires S.Next(c, s, e, s') && Plain(e)
    ensures s'.windows == s.windows && SameCore(s.batches, s'.batches)
    ensures NoneAnchored(s.batches, s'.batches, Anchors(s, e, s'))
    ensures Anchors(s, e, s').Some? ==>
              var id := Anchors(s, e, s').value;
              id in s'.batches && s'.batches[id].state == Anchored
  {
    hide S.Healthy, Kept, Anchorable, Readied, Marked, ResolveJob, SameCore, NoneAnchored;
    SameCoreSelf(s.batches);
    match e
    case Retry(id) =>
      if id in s.batches && s' != s {
        ReadiedCore(c, s, s.batches[id]);
        OneCore(s.batches, s'.batches, id);
      }
    case Submit(id, _) =>
      if s' != s {
        OneCore(s.batches, s'.batches, id);
      }
    case Send(jobId, outcome) =>
      if jobId in s.jobs {
        MarkedCore(c, s, jobId, AnchorFailed);
      }
    case Resend(ref, _, outcome) =>
      ResolvesToJob(s.batches, s.jobs, ref);
      if S.RevivedBy(c, s, ref) {
        MovedCore(c, s, ref, s', outcome.Ok?);
      }
    case Ask(ref, receipt, resolveError) =>
      ResolvesToJob(s.batches, s.jobs, ref);
      AskCore(c, s, ref, receipt, resolveError, s');
    case Mark(_) =>
    case Fail(ref, reason) =>
      ResolvesToJob(s.batches, s.jobs, ref);
      var jobId := ResolveJob(s.batches, s.jobs, ref);
      if jobId.Some? {
        MarkedCore(c, s, jobId.value, AnchorFailed);
      }
  }

  lemma SameCoreSelf(batches: Batches)
    ensures SameCore(batches, batches) && NoneAnchored(batches, batches, None)
  {
  }

  lemma OneCore(batches: Batches, batches': Batches, id: string)
    requires id in batches && id in batches' && batches' == batches[id := batches'[id]]
    requires SameCoreOne(batches[id], batches'[id])
    requires batches'[id].state == Anchored ==> batches[id].state == Anchored
    ensures SameCore(batches, batches') && NoneAnchored(batches, batches', None)
  {
  }

  lemma MovedCore(c: S.Config, s: S.State, ref: string, s': S.State, sent: bool)
    requires ResolveJob(s.batches, s.jobs, ref).Some? && ResolveJob(s.batches, s.jobs, ref).value in s.jobs
    requires S.RevivedBy(c, s, ref)
    requires MovedToNewJob(c.digests, c.pageSize, s.windows, s.batches, s.jobs, s'.batches, s'.jobs,
                           s.jobs[ResolveJob(s.batches, s.jobs, ref).value].batchId, sent)
    ensures SameCore(s.batches, s'.batches) && NoneAnchored(s.batches, s'.batches, None)
  {
    hide Anchorable, Readied, ResolveJob, CanonOf, SameCore, NoneAnchored;
    var id := s.jobs[ResolveJob(s.batches, s.jobs, ref).value].batchId;
    ReadiedCore(c, s, s.batches[id]);
    OneCore(s.batches, s'.batches, id);
  }

  lemma AskCore(c: S.Config, s: S.State, ref: string, receipt: Receipt, resolveError: string, s': S.State)
    requires S.Healthy(c, s) && S.Asks(c, s, ref, receipt, resolveError, s')
    requires ResolveJob(s.batches, s.jobs, ref).Some? ==> ResolveJob(s.batches, s.jobs, ref).value in s.jobs
    ensures
      var id := Anchors(s, S.Ask(ref, receipt, resolveError), s');
      && SameCore(s.batches, s'.batches) && NoneAnchored(s.batches, s'.batches, id)
      && (id.Some? ==> id.value in s'.batches && s'.batches[id.value].state == Anchored)
  {
    hide S.Healthy, RawStatus, Normalized, Terminal, FailureReason, Vouched, ResolveJob, SameCore, NoneAnchored, Marked;
    SameCoreSelf(s.batches);
    var jobId := ResolveJob(s.batches, s.jobs, ref);
    if jobId.Some? {
      MarkedCore(c, s, jobId.value, Anchored);
      MarkedCore(c, s, jobId.value, AnchorFailed);
      MarkedAnchors(s, jobId.value);
      MorePermitted(s.batches, s'.batches, Some(s.jobs[jobId.value].batchId));
    }
  }

  lemma MarkedAnchors(s: S.State, jobId: string)
    requires jobId in s.jobs
    ensures
      var id, batches := s.jobs[jobId].batchId, Marked(s.batches, s.jobs, jobId, Anchored);
      if id in s.batches && s.batches[id].jobId == Some(jobId) then id in batches && batches[id].state == Anchored
      else batches == s.batches
  {
  }

  lemma MorePermitted(batches: Batches, batches': Batches, except: Option<string>)
    ensures NoneAnchored(batches, batches', None) ==> NoneAnchored(batches, batches', except)
  {
  }

  // ---- Paying --------------------------------------------------------------------------------------------

  /** All that holds jointly, except that the one batch may have been anchored without being paid for. */
  ghost predicate JointBut(windows: Windows, batches: Batches, a: Account, id: string) {
    && Linked(windows, batches) && SettledAll(windows, batches, a) && OfBuilt(a) && WindowsAgree(windows, a)
    && BatchesAgree(batches, a)
    && forall x :: x in batches && x != id && batches[x].state == Anchored ==> PaidUp(batches[x].windowIds, a)
  }

  lemma AnchorKeeps(windows: Windows, batches: Batches, batches': Batches, a: Account, id: string)
    requires Joint(windows, batches, a) && SameCore(batches, batches') && NoneAnchored(batches, batches', Some(id))
    ensures JointBut(windows, batches', a, id)
  {
    hide OfBuilt, WindowsAgree, PaidUp, Approved;
    forall x | x in batches'
      ensures batches'[x].state != Cancelled ==> LinkedOne(x, batches'[x], windows)
      ensures BatchAgrees(batches'[x], a)
    {
      assert SameCoreOne(batches[x], batches'[x]);
    }
  }

  lemma SettleKeeps(windows: Windows, batches: Batches, a: Account, id: string, x: string)
    requires JointBut(windows, batches, a, id) && SettledBy(windows, batches, x)
    ensures JointBut(windows, batches, a.(settled := a.settled + {x}), id)
  {
    hide PaidUp, Linked;
    var a' := a.(settled := a.settled + {x});
    forall ys | PaidUp(ys, a) ensures PaidUp(ys, a') {
      SamePaid(ys, a, a');
    }
    forall y | y in batches ensures BatchAgrees(batches[y], a') {
      assert BatchAgrees(batches[y], a);
    }
  }

  lemma SamePaid(ys: seq<string>, a: Account, a': Account)
    requires PaidUp(ys, a) && a'.ledgers == a.ledgers
    ensures PaidUp(ys, a')
  {
  }

  lemma PayKeeps(windows: Windows, batches: Batches, a: Account, a': Account, id: string)
    requires JointBut(windows, batches, a, id) && id in batches && a' == a.(ledgers := a'.ledgers)
    requires PaidFor(a.ledgers, a'.ledgers, batches[id].windowIds, id)
    ensures Joint(windows, batches, a')
  {
    PaidAmounts(a, a', batches[id].windowIds, id);
    hide PaidFor, PaidUp, OfBuilt, Approved, Linked;
    forall y | y in batches ensures BatchAgrees(batches[y], a') {
      assert BatchAgrees(batches[y], a);
    }
  }

  lemma PaidAmounts(a: Account, a': Account, windowIds: seq<string>, id: string)
    requires OfBuilt(a) && PaidFor(a.ledgers, a'.ledgers, windowIds, id) && a' == a.(ledgers := a'.ledgers)
    ensures OfBuilt(a') && PaidUp(windowIds, a')
    ensures forall x :: Approved(a', x) == Approved(a, x)
    ensures forall ys :: PaidUp(ys, a) ==> PaidUp(ys, a')
  {
    hide LedgerId;
  }

  // ---- What was anchored -----------------------------------------------------------------------------------

  /** At some point of the run the ledger's batch was anchored, for the ledger's window and the amount paid. */
  predicate AnchoredFor(s: S.State, l: Ledger) {
    && l.batchId.Some? && l.batchId.value in s.batches && s.batches[l.batchId.value].state == Anchored
    && s.batches[l.batchId.value].windowIds == [l.windowId] && s.batches[l.batchId.value].total == l.paid
  }

  ghost predicate WasAnchored(states: seq<S.State>, l: Ledger) {
    exists k :: 0 <= k < |states| && AnchoredFor(states[k], l)
  }

  ghost predicate PaidWereAnchored(states: seq<S.State>, ledgers: map<string, Ledger>) {
    forall id :: id in ledgers && ledgers[id].state == Paid ==> WasAnchored(states, ledgers[id])
  }

  /** Every paid ledger is an old one, or its batch is anchored now. */
  ghost predicate PaidOldOrNow(before: map<string, Ledger>, after: map<string, Ledger>, now: S.State) {
    forall id :: id in after && after[id].state == Paid ==>
      (id in before && before[id] == after[id]) || AnchoredFor(now, after[id])
  }

  lemma {:induction false} HistoryGrows(states: seq<S.State>, s: S.State, before: map<string, Ledger>,
                                        after: map<string, Ledger>)
    requires PaidWereAnchored(states, before) && PaidOldOrNow(before, after, s)
    ensures PaidWereAnchored(states + [s], after)
  {
    hide AnchoredFor;
    var states' := states + [s];
    forall id | id in after && after[id].state == Paid ensures WasAnchored(states', after[id]) {
      if id in before && before[id] == after[id] {
        var k :| 0 <= k < |states| && AnchoredFor(states[k], before[id]);
        assert AnchoredFor(states'[k], after[id]);
      } else {
        assert AnchoredFor(states'[|states|], after[id]);
      }
    }
  }

  lemma PaidNow(windows: Windows, batches: Batches, a: Account, a': Account, id: string, now: S.State)
    requires JointBut(windows, batches, a, id) && id in batches && batches[id].state == Anchored
    requires a' == a.(ledgers := a'.ledgers) && PaidFor(a.ledgers, a'.ledgers, batches[id].windowIds, id)
    requires now.batches == batches
    ensures PaidOldOrNow(a.ledgers, a'.ledgers, now)
  {
    var x := batches[id].windowIds[0];
    assert LinkedOne(id, batches[id], windows) && BatchAgrees(batches[id], a);
    hide LedgerId, WindowsAgree, SettledAll, PaidUp;
    forall l | l in a'.ledgers && a'.ledgers[l].state == Paid
      ensures a.ledgers[l] == a'.ledgers[l] || AnchoredFor(now, a'.ledgers[l])
    {
      if a.ledgers[l].windowId in batches[id].windowIds {
        assert a.ledgers[l].windowId == x && Approved(a, x) == a.ledgers[l].approved;
        assert batches[id].windowIds == [x];
      }
    }
  }

  // ---- The joint steps -------------------------------------------------------------------------------------

  ghost predicate Both(service: Service, book: BudgetBook)
    reads service, book
  {
    service.Valid() && book.Valid() && Joint(service.windows, service.batches, AccountOf(book))
  }

  /** The window's batch, if it has one, is cancelled, absent or open. */
  predicate Pending(windows: Windows, batches: Batches, x: string) {
    SettledBy(windows, batches, x) ==> batches[windows[x].batchId.value].state == Cancelled
  }

  /** The window's link leads to no open batch. */
  predicate Unopened(windows: Windows, batches: Batches, x: string) {
    x in windows && windows[x].batchId.Some? && windows[x].batchId.value in batches ==>
      batches[windows[x].batchId.value].state != Open
  }

  lemma NotSettled(windows: Windows, batches: Batches, a: Account, x: string)
    requires Joint(windows, batches, a) && !SettledBy(windows, batches, x)
    ensures x !in a.settled
  {
    hide Linked, OfBuilt, WindowsAgree, BatchesAgree, AnchoredPaid;
  }

  /** A window that lost its weights first cancels its open batch. */
  method CancelFirst(service: Service, book: BudgetBook, x: string)
    requires Both(service, book) && x in service.windows && !SettledBy(service.windows, service.batches, x)
    modifies service`batches
    ensures Both(service, book) && Kept(old(service.batches), service.batches)
    ensures Pending(service.windows, service.batches, x) && Unopened(service.windows, service.batches, x)
  {
    hide Joint, Sound, Kept, CollisionFree, LedgersSound, LedgersBuilt;
    var link := service.windows[x].batchId;
    if link.Some? && link.value in service.batches && service.batches[link.value].state == Open {
      CancelKeeps(service.windows, service.batches, AccountOf(book), link.value);
    }
    service.CancelOpen(x);
  }

  /** Store a window, and sync its batch if it has weights. */
  method StoreAndSync(service: Service, x: string, w: Window)
    requires service.Valid() && (!w.weighted ==> Unopened(service.windows, service.batches, x))
    modifies service`batches, service`windows
    ensures service.Valid() && Kept(old(service.batches), service.batches)
    ensures Rebuilt(old(service.windows), old(service.batches), x, Linking(old(service.windows), x, w),
                    service.windows, service.batches)
  {
    hide Sound, Kept, CollisionFree, BatchIdFor, OpenBatch;
    ghost var batches := service.batches;
    service.StoreWindow(x, w);
    if w.weighted {
      ghost var before := service.batches;
      service.SyncWindow(x);
      KeptOn(batches, before, service.batches);
    }
  }

  /** The window as stored: with weights it keeps its link. */
  function Linking(windows: Windows, x: string, w: Window): Window {
    w.(batchId := if w.weighted && x in windows then windows[x].batchId else None)
  }

  /** Store a built window, sync its batch and link its ledger; `a` is the account before the build. */
  method StoreBuilt(service: Service, book: BudgetBook, x: string, w: Window, ghost a: Account, ghost b: Built)
    requires service.Valid() && book.Valid() && Joint(service.windows, service.batches, a) && x !in a.settled
    requires Pending(service.windows, service.batches, x)
    requires !w.weighted ==> Unopened(service.windows, service.batches, x)
    requires w.total == if w.weighted then b.pool else 0
    requires AccountOf(book) == a.(ledgers := a.ledgers[IdIn(a, x) := NewLedger(x, b.pool, w.weighted)],
                                   built := a.built[x := b])
    modifies service`batches, service`windows, book`ledgers
    ensures Both(service, book) && Kept(old(service.batches), service.batches)
    ensures exists batchId ::
              book.ledgers == a.ledgers[IdIn(a, x) := NewLedger(x, b.pool, w.weighted).(batchId := batchId)]
  {
    hide Joint, Sound, Kept, CollisionFree, LedgersSound, LedgersBuilt, Free, Linked, LedgerId, Rebuilt;
    ghost var windows, batches := service.windows, service.batches;
    ghost var stored, l := Linking(windows, x, w), NewLedger(x, b.pool, w.weighted);
    JointLinked(windows, batches, a);
    WindowFree(windows, batches, x, stored);
    StoreAndSync(service, x, w);
    if w.weighted {
      RebuiltHere(windows, batches, x, stored, service.windows, service.batches);
      var batchId := service.windows[x].batchId.value;
      book.Link(x, batchId);
      l := l.(batchId := Some(batchId));
    }
    assert book.ledgers == a.ledgers[IdIn(a, x) := l];
    hide IdIn, BatchIdFor;
    RebuildKeeps(windows, batches, a, service.windows, service.batches, AccountOf(book), x, stored, l, b);
  }

  lemma RebuiltHere(windows: Windows, batches: Batches, x: string, w: Window, windows': Windows, batches': Batches)
    requires Rebuilt(windows, batches, x, w, windows', batches') && w.weighted
    ensures x in windows' && windows'[x].batchId.Some?
  {
  }

  lemma JointLinked(windows: Windows, batches: Batches, a: Account)
    requires Joint(windows, batches, a)
    ensures Linked(windows, batches)
  {
  }

  /** build_poker_mtt_reward_window: nothing for a window whose batch is past open, or for unchanged inputs;
      otherwise the budget is asked, the window stored with the approved amount and its batch synced. */
  method BuildPoker(service: Service, book: BudgetBook, x: string, w: Window, inputs: string, pool: nat, positive: bool)
    requires Both(service, book)
    modifies service, book
    ensures Both(service, book) && Kept(old(service.batches), service.batches)
    ensures PaidOldOrNow(old(book.ledgers), book.ledgers, S.StateOf(service))
    ensures book.built.Keys <= old(book.built).Keys + {x}
  {
    hide Joint, Sound, Kept, CollisionFree, LedgersSound, LedgersBuilt, AnchoredFor, LedgerId;
    KeptSelf(service.batches);
    if SettledBy(service.windows, service.batches, x) {
      return;
    }
    NotSettled(service.windows, service.batches, AccountOf(book), x);
    var same := x in book.built && book.built[x] == Built(inputs, pool);
    if !same && !positive && x in service.windows {
      CancelFirst(service, book, x);
    }
    ghost var mid, a := service.batches, AccountOf(book);
    var r := book.BuildWindow(x, inputs, pool, positive);
    if r.Err? || r.value.Untouched? {
      return;
    }
    var stored := w.(weighted := positive, total := if positive then pool else 0);
    StoreBuilt(service, book, x, stored, a, Built(inputs, pool));
    KeptOn(old(service.batches), mid, service.batches);
  }

  /** A forecast window, which always has weights, is stored. */
  method StoreForecast(service: Service, book: BudgetBook, x: string, w: Window)
    requires Both(service, book) && x !in book.built
    modifies service
    ensures Both(service, book) && Kept(old(service.batches), service.batches)
  {
    hide Joint, Sound, Kept, CollisionFree, LedgersSound, LedgersBuilt;
    ghost var windows := service.windows;
    service.StoreWindow(x, w.(weighted := true));
    ForecastKeeps(windows, service.batches, AccountOf(book), x, service.windows[x]);
  }

  /** Anchoring pays the ledgers of the batch's windows. */
  method PayBatch(service: Service, book: BudgetBook, id: string)
    requires service.Valid() && book.Valid() && id in service.batches && service.batches[id].state == Anchored
    requires JointBut(service.windows, service.batches, AccountOf(book), id)
    modifies book
    ensures Both(service, book) && book.built == old(book.built)
    ensures PaidOldOrNow(old(book.ledgers), book.ledgers, S.StateOf(service))
    ensures PaidFor(old(book.ledgers), book.ledgers, service.batches[id].windowIds, id)
  {
    hide JointBut, Joint, Sound, CollisionFree, LedgersSound, LedgersBuilt, PaidFor, AnchoredFor;
    var windowIds := service.batches[id].windowIds;
    BatchSettled(service.windows, service.batches, AccountOf(book), id);
    for k := 0 to |windowIds|
      invariant book.Valid() && book.ledgers == old(book.ledgers) && book.built == old(book.built)
      invariant JointBut(service.windows, service.batches, AccountOf(book), id)
      invariant forall i :: 0 <= i < k ==> windowIds[i] in book.settled
    {
      SettleKeeps(service.windows, service.batches, AccountOf(book), id, windowIds[k]);
      book.Settle(windowIds[k]);
    }
    ghost var a := AccountOf(book);
    book.Pay(windowIds, id);
    PayKeeps(service.windows, service.batches, a, AccountOf(book), id);
    PaidNow(service.windows, service.batches, a, AccountOf(book), id, S.StateOf(service));
  }

  lemma BatchSettled(windows: Windows, batches: Batches, a: Account, id: string)
    requires JointBut(windows, batches, a, id) && id in batches && batches[id].state == Anchored
    ensures forall k :: 0 <= k < |batches[id].windowIds| ==> SettledBy(windows, batches, batches[id].windowIds[k])
  {
    assert LinkedOne(id, batches[id], windows);
  }

  /** A settlement event; if it anchors a batch, that is paid for. */
  method SettleStep(service: Service, book: BudgetBook, e: S.Event)
    requires Both(service, book) && !e.Store?
    modifies service, book
    ensures Both(service, book) && book.built == old(book.built)
    ensures S.Next(S.ConfigOf(service), old(S.StateOf(service)), e, S.StateOf(service))
    ensures PaidOldOrNow(old(book.ledgers), book.ledgers, S.StateOf(service))
  {
    hide Joint, JointBut, Sound, CollisionFree, LedgersSound, LedgersBuilt, AnchoredFor, PaidFor, SameCore, ResolveJob;
    hide S.Next, Synced, NoneAnchored;
    ghost var s, a := S.StateOf(service), AccountOf(book);
    var jobId := if e.Ask? then ResolveJob(service.batches, service.jobs, e.ref) else None;
    var waiting := jobId.Some? && jobId.value in service.jobs && service.jobs[jobId.value].state != JobAnchored
      && service.jobs[jobId.value].batchId in service.batches
      && service.batches[service.jobs[jobId.value].batchId].jobId == jobId;
    var id := if waiting then service.jobs[jobId.value].batchId else "";
    S.Step(service, e);
    ghost var s' := S.StateOf(service);
    if e.Reconcile? {
      ReconcileEvent(S.ConfigOf(service), s, e, s', a);
    } else {
      PlainEvent(S.ConfigOf(service), s, e, s');
      if waiting && jobId.value in service.jobs && service.jobs[jobId.value].state == JobAnchored {
        AnchorKeeps(s.windows, s.batches, s'.batches, a, id);
        PayBatch(service, book, id);
      } else {
        CoreKeeps(s.windows, s.batches, s'.batches, a);
      }
    }
  }

  lemma ReconcileEvent(c: S.Config, s: S.State, e: S.Event, s': S.State, a: Account)
    requires S.Next(c, s, e, s') && e.Reconcile? && Joint(s.windows, s.batches, a)
    ensures Joint(s'.windows, s'.batches, a)
  {
    hide Joint, Synced, Kept, S.Healthy;
    ReconcileKeeps(s.windows, s.batches, s'.windows, s'.batches, a);
  }

  method Step(service: Service, book: BudgetBook, e: Event)
    requires Both(service, book) && (e.Other? ==> !e.e.Store?) && (e.Forecast? ==> e.windowId !in book.built)
    modifies service, book
    ensures Both(service, book) && PaidOldOrNow(old(book.ledgers), book.ledgers, S.StateOf(service))
    ensures book.built.Keys <= old(book.built).Keys + if e.Build? then {e.windowId} else {}
  {
    hide LedgersSound, LedgersBuilt, Sound, CollisionFree, AnchoredFor, Joint, S.Next, Kept;
    match e
    case Build(x, w, inputs, pool, positive) => BuildPoker(service, book, x, w, inputs, pool, positive);
    case Forecast(x, w) => StoreForecast(service, book, x, w);
    case Other(event) => SettleStep(service, book, event);
  }

  /** Settlement events store no windows, and no forecast window is stored under the id of a poker window. */
  ghost predicate Separate(events: seq<Event>) {
    && (forall k :: 0 <= k < |events| && events[k].Other? ==> !events[k].e.Store?)
    && (forall i, j :: 0 <= i < |events| && 0 <= j < |events| && events[i].Build? && events[j].Forecast? ==>
         events[i].windowId != events[j].windowId)
  }

  ghost predicate BuiltIn(events: seq<Event>, k: nat, x: string)
    requires k <= |events|
  {
    exists i :: 0 <= i < k && events[i].Build? && events[i].windowId == x
  }

  /** Over every joint run from an empty budget: the ledger of every window is paid only if its batch was
      anchored at some point of the run, for that window and exactly the amount paid; and the ledgers of
      every batch that is anchored are paid what was approved. */
  method RunAll(service: Service, book: BudgetBook, events: seq<Event>) returns (ghost states: seq<S.State>)
    requires service.Valid() && book.Valid() && Linked(service.windows, service.batches) && Separate(events)
    requires book.ledgers == map[] && book.settled == {} && book.built == map[]
    modifies service, book
    ensures Both(service, book) && |states| == |events| + 1
    ensures states[0] == old(S.StateOf(service)) && states[|events|] == S.StateOf(service)
    ensures forall id :: id in book.ledgers && book.ledgers[id].state == Paid ==> WasAnchored(states, book.ledgers[id])
    ensures forall id :: id in service.batches && service.batches[id].state == Anchored ==>
              PaidUp(service.batches[id].windowIds, AccountOf(book))
  {
    hide LedgersSound, LedgersBuilt, Sound, CollisionFree, WasAnchored, Linked, PaidUp, BuiltIn, Joint, PaidOldOrNow;
    NothingJoint(service.windows, service.batches, book.source, book.epoch);
    states := [S.StateOf(service)];
    for k := 0 to |events|
      invariant Both(service, book) && |states| == k + 1
      invariant states[0] == old(S.StateOf(service)) && states[k] == S.StateOf(service)
      invariant PaidWereAnchored(states, book.ledgers)
      invariant forall x :: x in book.built ==> BuiltIn(events, k, x)
    {
      ghost var before, built := book.ledgers, book.built;
      if events[k].Forecast? {
        NotBuilt(events, k, book.built.Keys);
      }
      Step(service, book, events[k]);
      BuiltNext(events, k, built.Keys, book.built.Keys);
      HistoryGrows(states, S.StateOf(service), before, book.ledgers);
      states := states + [S.StateOf(service)];
    }
    JointPaid(service.windows, service.batches, AccountOf(book));
  }

  lemma JointPaid(windows: Windows, batches: Batches, a: Account)
    requires Joint(windows, batches, a)
    ensures AnchoredPaid(batches, a)
  {
  }

  lemma NotBuilt(events: seq<Event>, k: nat, built: set<string>)
    requires k < |events| && events[k].Forecast? && Separate(events) && forall x :: x in built ==> BuiltIn(events, k, x)
    ensures events[k].windowId !in built
  {
  }

  lemma BuiltNext(events: seq<Event>, k: nat, before: set<string>, after: set<string>)
    requires k < |events| && forall x :: x in before ==> BuiltIn(events, k, x)
    requires after <= before + if events[k].Build? then {events[k].windowId} else {}
    ensures forall x :: x in after ==> BuiltIn(events, k + 1, x)
  {
    forall x | x in after ensures BuiltIn(events, k + 1, x) {
      if x in before {
        assert BuiltIn(events, k, x);
      } else {
        assert events[k].Build? && events[k].windowId == x;
      }
    }
  }
}
