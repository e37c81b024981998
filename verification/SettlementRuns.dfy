/** Runs of the settlement service: what every run keeps, what an event on a job its batch no longer
    points at can do, and that anchored rows add up to their batch's total. */
module SettlementRuns {
  import opened Options
  import opened RowMerge
  import opened Settlement
  import opened SettlementService

  datatype Config = Config(digests: Digests, pokerAnchoring: bool, pageSize: int)

  datatype State = State(windows: Windows, batches: Batches, jobs: Jobs, readBack: map<string, Fields>,
                         vouched: set<string>)

  datatype Event =
    | Store(windowId: string, w: Window)
    | Reconcile
    | Retry(batchId: string)
    | Submit(batchId: string, stamp: string)
    | Send(jobId: string, outcome: Result<string, string>)
    | Resend(ref: string, stamp: string, outcome: Result<string, string>)
    | Ask(ref: string, receipt: Receipt, resolveError: string)
    | Mark(ref: string)
    | Fail(ref: string, reason: string)

  ghost function ConfigOf(service: Service): Config
    reads service
  {
    Config(service.digests, service.pokerAnchoring, service.pageSize)
  }

  ghost function StateOf(service: Service): State
    reads service
  {
    State(service.windows, service.batches, service.jobs, service.readBack, service.vouched)
  }

  ghost predicate Healthy(c: Config, s: State) {
    CollisionFree(c.digests) && Sound(c.digests, s.batches, s.jobs, s.readBack, s.vouched)
  }

  // ---- What an event does ------------------------------------------------------------------------------

  /** A window is stored, and the open batch it was linked to cancelled if it lost its weights. */
  ghost predicate Stores(s: State, windowId: string, w: Window, s': State) {
    var link := if windowId in s.windows then s.windows[windowId].batchId else None;
    && s'.windows == s.windows[windowId := w.(batchId := if w.weighted then link else None)]
    && s'.batches == (if !w.weighted && link.Some? && link.value in s.batches && s.batches[link.value].state == Open
                      then s.batches[link.value := s.batches[link.value].(state := Cancelled, total := 0)]
                      else s.batches)
    && s'.jobs == s.jobs
  }

  ghost predicate Retries(c: Config, s: State, batchId: string, s': State) {
    if batchId in s.batches && Anchorable(c.digests, c.pokerAnchoring, c.pageSize, s.windows, s.batches[batchId])
    then s' == s.(batches := s.batches[batchId := Readied(c.digests, c.pageSize, s.windows, s.batches[batchId])])
    else s' == s
  }

  ghost predicate Submits(s: State, batchId: string, s': State) {
    if batchId in s.batches && s.batches[batchId].state == AnchorReady then
      && batchId in s'.batches && s'.batches[batchId].jobId.Some?
      && var jobId := s'.batches[batchId].jobId.value;
         && jobId !in s.jobs
         && s' == s.(batches := s.batches[batchId := SubmittedAs(s.batches[batchId], jobId)],
                     jobs := s.jobs[jobId := NewJob(s.batches[batchId], jobId)])
    else s' == s
  }

  predicate Sends(s: State, jobId: string, outcome: Result<string, string>, s': State) {
    if jobId !in s.jobs then s' == s
    else if outcome.Ok? then
      s' == s.(jobs := s.jobs[jobId := s.jobs[jobId].(state := JobSubmitted, txHash := outcome.value)])
    else
      Fails(s, jobId, outcome.error, s')
  }

  predicate Fails(s: State, jobId: string, reason: string, s': State) {
    && jobId in s.jobs
    && s' == s.(batches := Marked(s.batches, s.jobs, jobId, AnchorFailed),
                jobs := s.jobs[jobId := s.jobs[jobId].(state := JobFailed, failure := reason)])
  }

  ghost predicate RevivedBy(c: Config, s: State, ref: string) {
    Revives(c.digests, c.pokerAnchoring, c.pageSize, s.windows, s.batches, s.jobs, ref)
  }

  ghost predicate Resends(c: Config, s: State, ref: string, outcome: Result<string, string>, s': State) {
    if RevivedBy(c, s, ref) then
      && s' == s.(batches := s'.batches, jobs := s'.jobs)
      && MovedToNewJob(c.digests, c.pageSize, s.windows, s.batches, s.jobs, s'.batches, s'.jobs,
                       s.jobs[ResolveJob(s.batches, s.jobs, ref).value].batchId, outcome.Ok?)
    else s' == s
  }

  ghost predicate Asks(c: Config, s: State, ref: string, receipt: Receipt, resolveError: string, s': State) {
    var resolved := ResolveJob(s.batches, s.jobs, ref);
    && s'.windows == s.windows
    && s'.vouched <= s.vouched + (if Vouched(receipt) then s'.jobs.Keys else {})
    && if resolved.Some? && s.jobs[resolved.value].txHash != "" then
         ConfirmedAs(c.digests, s.batches, s.jobs, s'.batches, s'.jobs, resolved.value, receipt, resolveError)
       else s'.batches == s.batches && s'.jobs == s.jobs
  }

  ghost predicate Does(c: Config, s: State, e: Event, s': State) {
    match e
    case Store(windowId, w) => Stores(s, windowId, w, s')
    case Reconcile => Synced(s.windows, s.batches, s'.windows, s'.batches, {}) && s'.jobs == s.jobs
    case Retry(batchId) => Retries(c, s, batchId, s')
    case Submit(batchId, _) => Submits(s, batchId, s')
    case Send(jobId, outcome) => Sends(s, jobId, outcome, s')
    case Resend(ref, _, outcome) => Resends(c, s, ref, outcome, s')
    case Ask(ref, receipt, resolveError) => Asks(c, s, ref, receipt, resolveError, s')
    case Mark(_) => s' == s
    case Fail(ref, reason) =>
      var resolved := ResolveJob(s.batches, s.jobs, ref);
      if resolved.None? then s' == s else Fails(s, resolved.value, reason, s')
  }

  ghost predicate Next(c: Config, s: State, e: Event, s': State) {
    && Healthy(c, s) && Healthy(c, s') && Kept(s.batches, s'.batches)
    && (!(e.Ask? && Vouched(e.receipt)) ==> s'.vouched <= s.vouched)
    && Does(c, s, e, s')
  }

  method Step(service: Service, e: Event)
    requires service.Valid()
    modifies service
    ensures service.Valid() && Next(ConfigOf(service), old(StateOf(service)), e, StateOf(service))
  {
    hide Kept, Sound, CollisionFree, Marked, CanonOf, ConfirmedAs, ResolveJob, BatchIdFor, Synced, Readied, Anchorable;
    hide MovedToNewJob, Revives, NewJob;
    KeptSelf(service.batches);
    match e
    case Store(windowId, w) => service.StoreWindow(windowId, w);
    case Reconcile => service.BuildBatches();
    case Retry(batchId) => var _ := service.RetryAnchor(batchId);
    case Submit(batchId, stamp) => var _ := service.SubmitJob(batchId, stamp);
    case Send(jobId, outcome) => var _ := service.Broadcast(jobId, outcome);
    case Resend(ref, stamp, outcome) => var _ := service.RetryFailedBroadcast(ref, stamp, outcome);
    case Ask(ref, receipt, resolveError) => var _ := service.Confirm(ref, receipt, resolveError);
    case Mark(ref) => var _ := service.MarkAnchored(ref, false);
    case Fail(ref, reason) =>
      ResolvesToJob(service.batches, service.jobs, ref);
      var _ := service.MarkFailed(ref, reason);
  }

  /** The states a run goes through. */
  ghost predicate Run(c: Config, events: seq<Event>, states: seq<State>) {
    |states| == |events| + 1 && forall k :: 0 <= k < |events| ==> Next(c, states[k], events[k], states[k + 1])
  }

  /** Every list of events is a run of the service from where it stands. */
  method RunAll(service: Service, events: seq<Event>) returns (ghost states: seq<State>)
    requires service.Valid()
    modifies service
    ensures service.Valid() && Run(ConfigOf(service), events, states)
    ensures states[0] == old(StateOf(service)) && states[|events|] == StateOf(service)
  {
    hide Next;
    states := [StateOf(service)];
    for k := 0 to |events|
      invariant service.Valid() && |states| == k + 1
      invariant states[0] == old(StateOf(service)) && states[k] == StateOf(service)
      invariant forall i :: 0 <= i < k ==> Next(ConfigOf(service), states[i], events[i], states[i + 1])
    {
      Step(service, events[k]);
      states := states + [StateOf(service)];
    }
  }

  /** A batch's root, payload and payload hash never change once set, over any stretch of any run. */
  lemma {:induction false} RootsNeverChange(c: Config, events: seq<Event>, states: seq<State>, i: nat, k: nat)
    requires Run(c, events, states) && i <= k < |states|
    ensures Kept(states[i].batches, states[k].batches)
    decreases k
  {
    if i == k {
      KeptSelf(states[i].batches);
    } else {
      RootsNeverChange(c, events, states, i, k - 1);
      assert Next(c, states[k - 1], events[k - 1], states[k]);
      KeptOn(states[i].batches, states[k - 1].batches, states[k].batches);
    }
  }

  /** As long as no confirmer vouches for an anchor itself (the shipped one never does), every anchored
      batch still equals what the chain answered when the job it points at was confirmed. */
  lemma {:induction false} AnchoredFromChain(c: Config, events: seq<Event>, states: seq<State>, k: nat, id: string)
    requires Run(c, events, states) && k < |states| && states[0].vouched == {} && Healthy(c, states[0])
    requires forall i :: 0 <= i < k ==> !(events[i].Ask? && Vouched(events[i].receipt))
    requires id in states[k].batches && states[k].batches[id].state == Anchored
    ensures FromChain(c.digests, id, states[k].batches[id], states[k].jobs, states[k].readBack)
  {
    hide Sound, CollisionFree, Vouched, FromChain, Does, Kept;
    for i := 0 to k
      invariant states[i].vouched == {} && Healthy(c, states[i])
    {
      assert Next(c, states[i], events[i], states[i + 1]);
    }
    AnchoredMatchesChain(c.digests, states[k].batches, states[k].jobs, states[k].readBack, id);
  }

  // ---- Stale jobs --------------------------------------------------------------------------------------

  /** The job an event acts on, if there is one. */
  function JobOf(s: State, e: Event): Option<string> {
    match e
    case Send(jobId, _) => if jobId in s.jobs then Some(jobId) else None
    case Resend(ref, _, _) => ResolveJob(s.batches, s.jobs, ref)
    case Ask(ref, _, _) => ResolveJob(s.batches, s.jobs, ref)
    case Mark(ref) => ResolveJob(s.batches, s.jobs, ref)
    case Fail(ref, _) => ResolveJob(s.batches, s.jobs, ref)
    case _ => None
  }

  /** The event acts on a job that its batch does not point at. */
  predicate Stale(s: State, e: Event) {
    var jobId := JobOf(s, e);
    && jobId.Some? && jobId.value in s.jobs && s.jobs[jobId.value].batchId in s.batches
    && s.batches[s.jobs[jobId.value].batchId].jobId != jobId
  }

  lemma MarkedStale(s: State, jobId: string, state: BatchState)
    requires jobId in s.jobs && s.jobs[jobId].batchId in s.batches
    requires s.batches[s.jobs[jobId].batchId].jobId != Some(jobId)
    ensures Marked(s.batches, s.jobs, jobId, state) == s.batches
  {
  }

  lemma PointsAtKnownJob(c: Config, s: State, id: string)
    requires Healthy(c, s) && id in s.batches && s.batches[id].jobId.Some?
    ensures s.batches[id].jobId.value in s.jobs
  {
    hide AnchorSound, CanonFor;
    assert BatchSound(c.digests, id, s.batches[id], s.jobs);
  }

  /** An event on a job its batch no longer points at leaves every batch as it was, unless it retries a
      failed job whose batch can be submitted again: then that batch moves to a new job, and no other
      batch changes. */
  lemma StaleEvent(c: Config, s: State, e: Event, s': State)
    requires Next(c, s, e, s') && Stale(s, e)
    ensures s'.batches == s.batches <==> !(e.Resend? && RevivedBy(c, s, e.ref))
    ensures e.Resend? && RevivedBy(c, s, e.ref) ==>
              var id := s.jobs[JobOf(s, e).value].batchId;
              && id in s'.batches && s'.batches == s.batches[id := s'.batches[id]]
              && s'.batches[id].jobId.Some? && s'.batches[id].jobId.value !in s.jobs
  {
    hide Sound, CollisionFree, Kept, ResolveJob, Revives, Marked, RawStatus, Normalized, Terminal, Readied, CanonOf;
    hide Vouched, FailureReason;
    var jobId := JobOf(s, e).value;
    MarkedStale(s, jobId, AnchorFailed);
    MarkedStale(s, jobId, Anchored);
    var id := s.jobs[jobId].batchId;
    if s.batches[id].jobId.Some? {
      PointsAtKnownJob(c, s, id);
    }
  }

  /** The same over every run from a healthy service. */
  lemma StaleJobs(c: Config, events: seq<Event>, states: seq<State>)
    requires Run(c, events, states)
    ensures forall k :: 0 <= k < |events| && Stale(states[k], events[k]) ==>
              (states[k + 1].batches == states[k].batches
               <==> !(events[k].Resend? && RevivedBy(c, states[k], events[k].ref)))
  {
    hide Next, Stale, RevivedBy;
    forall k | 0 <= k < |events| && Stale(states[k], events[k])
      ensures states[k + 1].batches == states[k].batches
              <==> !(events[k].Resend? && RevivedBy(c, states[k], events[k].ref))
    {
      StaleEvent(c, states[k], events[k], states[k + 1]);
    }
  }

  /** A window with one row, as stored. */
  const ROW := Row("claw1a", Some(1), None, None, None, None, None, None, Some(5), false)
  const WINDOW := Window("forecast_15m", 0, 3600, [], Some([ROW]), true, None, "", 0, 1, 5)

  lemma {:induction false} JoinRuns(c: Config, es: seq<Event>, ss: seq<State>, fs: seq<Event>, ts: seq<State>)
    requires Run(c, es, ss) && Run(c, fs, ts) && ss[|es|] == ts[0]
    ensures Run(c, es + fs, ss[..|es|] + ts)
  {
    hide Next;
    var events, states := es + fs, ss[..|es|] + ts;
    forall k | 0 <= k < |events| ensures Next(c, states[k], events[k], states[k + 1]) {
      if k < |es| {
        assert Next(c, ss[k], es[k], ss[k + 1]);
      } else {
        assert Next(c, ts[k - |es|], fs[k - |es|], ts[k - |es| + 1]);
      }
    }
  }

  /** The root and payload computed for a batch do not depend on how far it has got. */
  lemma StillAnchorable(c: Config, windows: Windows, b: Batch, b': Batch)
    requires Anchorable(c.digests, c.pokerAnchoring, c.pageSize, windows, b) && b'.state != Cancelled
    requires b' == b.(state := b'.state, jobId := b'.jobId, canon := b'.canon)
    requires b'.canon.Some? ==> b'.canon == Some(CanonOf(c.digests, c.pageSize, windows, b).value)
    ensures Anchorable(c.digests, c.pokerAnchoring, c.pageSize, windows, b')
    ensures CanonOf(c.digests, c.pageSize, windows, b') == CanonOf(c.digests, c.pageSize, windows, b)
  {
    hide Gathered;
    assert InputOf(b', [], []) == InputOf(b, [], []);
  }

  /** The first window's batch, open and as the window has it. */
  ghost predicate Opened(s: State) {
    && s.windows == map["rw_1" := WINDOW.(batchId := Some("sb_1"))]
    && "sb_1" in s.batches && s.batches["sb_1"] == OpenBatch("sb_1", "rw_1", WINDOW)
  }

  /** The first window's batch with its payload, in the given state. */
  ghost predicate Reached(c: Config, s: State, state: BatchState, jobId: Option<string>) {
    && s.windows == map["rw_1" := WINDOW.(batchId := Some("sb_1"))] && "sb_1" in s.batches
    && var b := OpenBatch("sb_1", "rw_1", WINDOW);
       var canon := CanonOf(c.digests, c.pageSize, s.windows, b);
       && Anchorable(c.digests, c.pokerAnchoring, c.pageSize, s.windows, b)
       && s.batches["sb_1"] == b.(state := state, jobId := jobId, canon := Some(canon.value))
  }

  lemma OpensBatch(c: Config, s0: State, s1: State, s2: State)
    requires s0.windows == map[] && s0.batches == map[]
    requires Next(c, s0, Store("rw_1", WINDOW), s1) && Next(c, s1, Reconcile, s2)
    ensures Opened(s2)
  {
    hide Healthy, Kept, Untouched;
    assert WithoutPrefix("rw_1", "rw_") == "1";
    assert BatchIdFor("rw_1", WINDOW) == "sb_1";
    assert s1.windows == map["rw_1" := WINDOW];
    assert Placed("sb_1", s1.windows, s1.batches, s2.windows, s2.batches["sb_1"], {});
  }

  lemma OpenedAnchorable(c: Config, s: State)
    requires Opened(s) && c.pageSize > 0
    ensures Anchorable(c.digests, c.pokerAnchoring, c.pageSize, s.windows, s.batches["sb_1"])
  {
    var ids := ["rw_1"];
    assert ids[..0] == [];
    assert Gathered(s.windows, [], false) == Ok(([], []));
    assert "forecast_15m"[0] != "poker_mtt_"[0];
  }

  lemma MakesReady(c: Config, s: State, s': State, jobId: Option<string>)
    requires c.pageSize > 0 && (Opened(s) || Reached(c, s, AnchorFailed, jobId)) && Next(c, s, Retry("sb_1"), s')
    ensures Reached(c, s', AnchorReady, None)
  {
    hide Healthy, Kept, CanonOf, Anchorable, OpenBatch;
    var b := OpenBatch("sb_1", "rw_1", WINDOW);
    if Opened(s) {
      OpenedAnchorable(c, s);
      OpenState("sb_1", "rw_1", WINDOW);
    } else {
      StillAnchorable(c, s.windows, b, s.batches["sb_1"]);
    }
  }

  lemma OpenState(id: string, windowId: string, w: Window)
    ensures var b := OpenBatch(id, windowId, w); b.state == Open && b.jobId.None? && b.canon.None?
  {
  }

  lemma SubmitsAndFails(c: Config, s0: State, s1: State, s2: State, jobId: string)
    requires Reached(c, s0, AnchorReady, None)
    requires Next(c, s0, Submit("sb_1", "t"), s1) && s1.batches["sb_1"].jobId == Some(jobId)
    requires Next(c, s1, Fail(jobId, "refused"), s2)
    ensures Reached(c, s2, AnchorFailed, Some(jobId))
    ensures jobId in s2.jobs && s2.jobs[jobId].state == JobFailed && s2.jobs[jobId].batchId == "sb_1"
  {
    hide Healthy, Kept, CanonOf, Anchorable;
  }

  lemma StaleRevives(c: Config, s: State, jobId: string)
    requires Reached(c, s, AnchorReady, None) && jobId in s.jobs
    requires s.jobs[jobId].state == JobFailed && s.jobs[jobId].batchId == "sb_1"
    ensures Stale(s, Resend(jobId, "u", Ok("tx"))) && RevivedBy(c, s, jobId)
  {
    hide CanonOf, Anchorable, OpenBatch;
    StillAnchorable(c, s.windows, OpenBatch("sb_1", "rw_1", WINDOW), s.batches["sb_1"]);
  }

  lemma SubmitPoints(c: Config, s: State, s': State)
    requires Reached(c, s, AnchorReady, None) && Next(c, s, Submit("sb_1", "t"), s')
    ensures "sb_1" in s'.batches && s'.batches["sb_1"].jobId.Some?
  {
    hide Healthy, Kept, CanonOf, Anchorable;
  }

  lemma RetryKeepsJobs(c: Config, s: State, s': State)
    requires Next(c, s, Retry("sb_1"), s')
    ensures s'.jobs == s.jobs
  {
    hide Healthy, Kept, CanonOf, Anchorable, Readied;
  }

  const FIRST := [Store("rw_1", WINDOW), Reconcile, Retry("sb_1"), Submit("sb_1", "t")]

  function Second(jobId: string): seq<Event> {
    [Fail(jobId, "refused"), Retry("sb_1"), Resend(jobId, "u", Ok("tx"))]
  }

  lemma FirstHalf(c: Config, states: seq<State>)
    requires Run(c, FIRST, states) && states[0].windows == map[] && states[0].batches == map[] && c.pageSize > 0
    ensures Reached(c, states[3], AnchorReady, None) && Next(c, states[3], Submit("sb_1", "t"), states[4])
    ensures "sb_1" in states[4].batches && states[4].batches["sb_1"].jobId.Some?
  {
    hide Next, Reached;
    assert forall k :: 0 <= k < 4 ==> Next(c, states[k], FIRST[k], states[k + 1]);
    OpensBatch(c, states[0], states[1], states[2]);
    MakesReady(c, states[2], states[3], None);
    SubmitPoints(c, states[3], states[4]);
  }

  lemma SecondHalf(c: Config, ready: State, jobId: string, states: seq<State>)
    requires Run(c, Second(jobId), states) && c.pageSize > 0
    requires Reached(c, ready, AnchorReady, None) && Next(c, ready, Submit("sb_1", "t"), states[0])
    requires states[0].batches["sb_1"].jobId == Some(jobId)
    ensures Stale(states[2], Second(jobId)[2]) && states[3].batches != states[2].batches
  {
    hide Next, Reached, Stale, RevivedBy;
    var events := Second(jobId);
    assert forall k :: 0 <= k < 3 ==> Next(c, states[k], events[k], states[k + 1]);
    SubmitsAndFails(c, ready, states[0], states[1], jobId);
    MakesReady(c, states[1], states[2], Some(jobId));
    RetryKeepsJobs(c, states[1], states[2]);
    StaleRevives(c, states[2], jobId);
    StaleEvent(c, states[2], events[2], states[3]);
  }

  /** The exception is reachable: a job fails, its batch is made anchorable again, and then the failed job
      is retried although the batch no longer points at it. */
  method StaleRetryMovesBatch(digests: Digests)
    returns (service: Service, events: seq<Event>, ghost states: seq<State>)
    requires CollisionFree(digests)
    ensures fresh(service) && |events| == 7 && Run(ConfigOf(service), events, states)
    ensures states[0] == State(map[], map[], map[], map[], {}) && states[7] == StateOf(service)
    ensures Stale(states[6], events[6]) && states[7].batches != states[6].batches
  {
    hide Next, Stale, Reached, CollisionFree, Sound;
    service := new Service(digests, false, 10);
    ghost var c := ConfigOf(service);
    ghost var before := RunAll(service, FIRST);
    FirstHalf(c, before);
    var jobId := service.batches["sb_1"].jobId.value;
    ghost var after := RunAll(service, Second(jobId));
    SecondHalf(c, before[3], jobId, after);
    events := FIRST + Second(jobId);
    states := before[..4] + after;
    JoinRuns(c, FIRST, before, Second(jobId), after);
  }

  // ---- Rows and totals ---------------------------------------------------------------------------------

  ghost predicate AllMakeTotal(batches: Batches) {
    forall id :: id in batches ==> RowsMakeTotal(batches[id])
  }

  /** No batch was opened or given a payload. */
  predicate Quiet(batches: Batches, batches': Batches) {
    forall id :: id in batches' ==> QuietOne(id, batches, batches'[id])
  }

  predicate QuietOne(id: string, batches: Batches, b: Batch) {
    && (b.state == Open ==> id in batches && batches[id] == b)
    && (b.canon.Some? ==> id in batches && batches[id].canon == b.canon && batches[id].total == b.total)
  }

  lemma QuietKeeps(windows: Windows, batches: Batches, batches': Batches)
    requires Quiet(batches, batches')
    ensures AllLinked(windows, batches) ==> AllLinked(windows, batches')
    ensures AllMakeTotal(batches) ==> AllMakeTotal(batches')
  {
    hide WindowLinked;
  }

  lemma MarkedQuiet(batches: Batches, jobs: Jobs, jobId: string, state: BatchState)
    requires jobId in jobs && state != Open
    ensures Quiet(batches, Marked(batches, jobs, jobId, state))
  {
  }

  /** Storing windows that are consistent keeps open batches linked to theirs. */
  lemma StoreKeepsTotals(c: Config, s: State, windowId: string, w: Window, s': State)
    requires Healthy(c, s) && Stores(s, windowId, w, s') && Totalled(w)
    requires AllLinked(s.windows, s.batches) && AllMakeTotal(s.batches) && AllTotalled(s.windows)
    ensures AllLinked(s'.windows, s'.batches) && AllMakeTotal(s'.batches) && AllTotalled(s'.windows)
  {
    hide GrossOf, AnchorSound, CanonFor, CollisionFree;
    assert forall id :: id in s.batches ==> BatchSound(c.digests, id, s.batches[id], s.jobs);
    SameGross(w, s'.windows[windowId]);
    assert Quiet(s.batches, s'.batches);
    QuietKeeps(s.windows, s.batches, s'.batches);
  }

  lemma SameGross(w: Window, w': Window)
    requires w'.rows == w.rows
    ensures GrossOf(w') == GrossOf(w)
  {
  }

  /** Building batches brings every open batch up to date with its window. */
  lemma ReconcileKeepsTotals(s: State, s': State)
    requires Synced(s.windows, s.batches, s'.windows, s'.batches, {})
    requires AllLinked(s.windows, s.batches) && AllMakeTotal(s.batches) && AllTotalled(s.windows)
    ensures AllUpToDate(s'.windows, s'.batches) && AllMakeTotal(s'.batches) && AllTotalled(s'.windows)
  {
    SyncedUpToDate(s.windows, s.batches, s'.windows, s'.batches);
    forall x | x in s'.windows ensures Totalled(s'.windows[x]) {
      SameGross(s.windows[x], s'.windows[x]);
    }
    hide Untouched, ColumnSums;
    forall id | id in s'.batches ensures RowsMakeTotal(s'.batches[id]) {
      assert Placed(id, s.windows, s.batches, s'.windows, s'.batches[id], {});
    }
  }

  /** A batch that is made anchorable has rows adding up to its total, if it was up to date when open. */
  lemma ReadiedMakesTotal(c: Config, s: State, id: string)
    requires Healthy(c, s) && id in s.batches && RowsMakeTotal(s.batches[id]) && AllTotalled(s.windows)
    requires Anchorable(c.digests, c.pokerAnchoring, c.pageSize, s.windows, s.batches[id])
    requires s.batches[id].state == Open ==> UpToDate(id, s.batches[id], s.windows)
    ensures
      var b := Readied(c.digests, c.pageSize, s.windows, s.batches[id]);
      RowsMakeTotal(b) && b.state != Open
  {
    hide CanonOf, CollisionFree, AnchorSound, Totalled;
    var b := s.batches[id];
    assert BatchSound(c.digests, id, b, s.jobs);
    if b.state == Open {
      CanonMakesTotal(c.digests, c.pageSize, s.windows, id, b);
    } else if b.state == AnchorFailed {
      var canon := CanonOf(c.digests, c.pageSize, s.windows, b).value;
      CanonSound(c.digests, c.pageSize, s.windows, b, canon);
      assert c.digests.payload(canon.payload) == c.digests.payload(b.canon.value.payload);
      SamePayload(c.digests, canon, b.canon.value);
    }
  }

  lemma SamePayload(digests: Digests, a: Canon, b: Canon)
    requires CollisionFree(digests) && digests.payload(a.payload) == digests.payload(b.payload)
    ensures a.payload == b.payload
  {
  }

  lemma RetryKeepsTotals(c: Config, s: State, id: string, batches: Batches)
    requires Healthy(c, s) && id in s.batches && id in batches
    requires AllUpToDate(s.windows, s.batches) && AllMakeTotal(s.batches) && AllTotalled(s.windows)
    requires Anchorable(c.digests, c.pokerAnchoring, c.pageSize, s.windows, s.batches[id])
    requires batches == s.batches[id := batches[id]]
    requires
      var b := Readied(c.digests, c.pageSize, s.windows, s.batches[id]);
      batches[id] == b || batches[id] == b.(state := AnchorSubmitted, jobId := batches[id].jobId)
      || batches[id] == b.(state := AnchorFailed, jobId := batches[id].jobId)
    ensures AllLinked(s.windows, batches) && AllMakeTotal(batches)
  {
    hide Anchorable, Readied, CollisionFree, Sound, Totalled, ColumnSums;
    ReadiedMakesTotal(c, s, id);
  }

  ghost predicate Balanced(s: State) {
    AllLinked(s.windows, s.batches) && AllMakeTotal(s.batches) && AllTotalled(s.windows)
  }

  /** What the service stores is consistent, and it reconciles before it makes a batch anchorable. */
  ghost predicate Prepared(events: seq<Event>, k: nat)
    requires k < |events|
  {
    && (events[k].Store? ==> Totalled(events[k].w))
    && (events[k].Retry? || events[k].Resend? ==> k > 0 && events[k - 1].Reconcile?)
  }

  lemma QuietEvent(c: Config, s: State, e: Event, s': State)
    requires Next(c, s, e, s') && (e.Submit? || e.Send? || e.Ask? || e.Mark? || e.Fail?)
    ensures Quiet(s.batches, s'.batches) && s'.windows == s.windows
  {
    hide Marked, Kept, Sound, CollisionFree, ResolveJob, RawStatus, Normalized, Terminal, FailureReason, Vouched;
    if e.Submit? {
    } else {
      forall jobId, state | jobId in s.jobs && state != Open
        ensures Quiet(s.batches, Marked(s.batches, s.jobs, jobId, state))
      {
        MarkedQuiet(s.batches, s.jobs, jobId, state);
      }
    }
  }

  lemma EventKeepsTotals(c: Config, s: State, e: Event, s': State)
    requires Next(c, s, e, s') && Balanced(s)
    requires e.Store? ==> Totalled(e.w)
    requires e.Retry? || e.Resend? ==> AllUpToDate(s.windows, s.batches)
    ensures Balanced(s') && (e.Reconcile? ==> AllUpToDate(s'.windows, s'.batches))
  {
    hide Sound, CollisionFree, Kept, Synced, Readied, AllUpToDate, AllMakeTotal, AllTotalled, Quiet, ResolveJob;
    match e
    case Store(windowId, w) => StoreKeepsTotals(c, s, windowId, w, s');
    case Reconcile =>
      ReconcileKeepsTotals(s, s');
      UpToDateLinked(s'.windows, s'.batches);
    case Retry(batchId) => RetryBalanced(c, s, batchId, s');
    case Resend(ref, _, outcome) => ResendBalanced(c, s, ref, outcome, s');
    case _ =>
      QuietEvent(c, s, e, s');
      QuietKeeps(s.windows, s.batches, s'.batches);
  }

  lemma RetryBalanced(c: Config, s: State, batchId: string, s': State)
    requires Healthy(c, s) && Retries(c, s, batchId, s') && Balanced(s) && AllUpToDate(s.windows, s.batches)
    ensures Balanced(s')
  {
    hide Healthy, Anchorable, Readied, AllUpToDate, AllMakeTotal, AllTotalled, AllLinked;
    if s' != s {
      RetryKeepsTotals(c, s, batchId, s'.batches);
    }
  }

  lemma ResendBalanced(c: Config, s: State, ref: string, outcome: Result<string, string>, s': State)
    requires Healthy(c, s) && Resends(c, s, ref, outcome, s') && Balanced(s) && AllUpToDate(s.windows, s.batches)
    ensures Balanced(s')
  {
    hide Healthy, Anchorable, Readied, AllUpToDate, AllMakeTotal, AllTotalled, AllLinked, ResolveJob, CanonOf;
    ResolvesToJob(s.batches, s.jobs, ref);
    if RevivedBy(c, s, ref) {
      RetryKeepsTotals(c, s, s.jobs[ResolveJob(s.batches, s.jobs, ref).value].batchId, s'.batches);
    }
  }

  lemma UpToDateLinked(windows: Windows, batches: Batches)
    requires AllUpToDate(windows, batches)
    ensures AllLinked(windows, batches)
  {
    hide OpenBatch, WindowLinked;
  }

  /** Over every run in which the stored windows are consistent and a reconcile goes before each retry, the
      anchored rows of every batch that has a root add up to its total. */
  lemma RowsAlwaysMakeTotals(c: Config, events: seq<Event>, states: seq<State>, k: nat)
    requires Run(c, events, states) && k < |states| && Balanced(states[0])
    requires forall i :: 0 <= i < k ==> Prepared(events, i)
    ensures AllMakeTotal(states[k].batches)
  {
    hide Next, AllUpToDate, AllMakeTotal, AllTotalled, AllLinked, Totalled;
    for i := 0 to k
      invariant Balanced(states[i])
      invariant i > 0 && events[i - 1].Reconcile? ==> AllUpToDate(states[i].windows, states[i].batches)
    {
      assert Prepared(events, i);
      EventKeepsTotals(c, states[i], events[i], states[i + 1]);
    }
  }
}
