/** Replay safety of the submit gateway over a durable ledger, and the theorems over whole runs. */
module GatewayReplay {
  import opened Options
  import opened Gateway
  import opened GatewayProtocol

  // ---- What the durable ledger says about one request id ----------------------------------------

  ghost predicate AllReceived(es: seq<Entry>) {
    forall k :: 0 <= k < |es| ==> es[k].status.Received?
  }

  predicate Follows(a: Status, b: Status) {
    a.Received? || b.Applied?
  }

  /** The statuses read received+ committed? applied*, as a walk over neighbouring entries; ReadsAs
      gives the same reading as three blocks. */
  ghost predicate Grammar(es: seq<Entry>) {
    && es != [] && es[0].status.Received?
    && (forall k :: 0 <= k < |es| - 1 ==> Follows(es[k].status, es[k + 1].status))
  }

  /** entries[..r] are received, entries[r..c] hold at most one committed, the rest are applied. */
  ghost predicate Blocks(es: seq<Entry>, r: nat, c: nat) {
    && 1 <= r <= c <= |es| && c <= r + 1
    && (forall k :: 0 <= k < r ==> es[k].status.Received?)
    && (forall k :: r <= k < c ==> es[k].status.Committed?)
    && (forall k :: c <= k < |es| ==> es[k].status.Applied?)
  }

  lemma {:induction false} ReadsAs(es: seq<Entry>) returns (r: nat, c: nat)
    requires Grammar(es)
    ensures Blocks(es, r, c)
  {
    if |es| == 1 {
      r, c := 1, 1;
    } else {
      var n := |es| - 1;
      assert Follows(es[n - 1].status, es[n].status);
      var r', c' := ReadsAs(es[..n]);
      assert forall k :: 0 <= k < n ==> es[k] == es[..n][k];
      match es[n].status
      case Received => r, c := n + 1, n + 1;
      case Committed => r, c := n, n + 1;
      case Applied => r, c := r', c';
    }
  }

  ghost predicate SameHash(es: seq<Entry>) {
    forall k :: 0 <= k < |es| ==> es[k].payloadHash == es[0].payloadHash
  }

  /** The id has entries, all of this payload. */
  predicate Knows(store: Store, req: SubmitRequest) {
    Entries(store, req.requestId) != [] && Entries(store, req.requestId)[0].payloadHash == Hash(req)
  }

  ghost predicate RecordFits(store: Store, id: RequestId) {
    var es := Entries(store, id);
    SameHash(es) && if id in store.actions then Grammar(es) else AllReceived(es)
  }

  /** The response is the one action record of the request. */
  predicate Recorded(store: Store, req: SubmitRequest, response: SubmitResponse) {
    Knows(store, req) && req.requestId in store.actions && store.actions[req.requestId] == response
  }

  /** What an owner knows of the ledger at each point: before Handle there is no action record, after
      it the record is the response in hand. */
  ghost predicate OwnerRecords(store: Store, c: Call) {
    var id := c.req.requestId;
    match c.pc
    case LoadAction => Knows(store, c.req)
    case RecordReceived => id !in store.actions && (Entries(store, id) != [] ==> Knows(store, c.req))
    case HandleCommand => id !in store.actions && Knows(store, c.req)
    case RecordCommitted => Recorded(store, c.req, c.response) && AllReceived(Entries(store, id))
    case Observe | RecordApplied | ReplayObserve | ReplayRecord => Recorded(store, c.req, c.response)
    case Finish =>
      (c.cacheRequest ==> Knows(store, c.req)) && (c.err.None? ==> Recorded(store, c.req, c.response))
    case _ => true
  }

  ghost predicate CacheRecords(m: Memory, store: Store) {
    && (forall id :: id in m.ledger ==> m.ledger[id].requestId == id && Knows(store, m.ledger[id]))
    && (forall id :: id in m.responses ==> id in store.actions && m.responses[id] == store.actions[id])
  }

  ghost predicate ReplayFits(s: State) {
    && (forall id :: RecordFits(s.store, id))
    && (forall t :: t in s.calls ==> OwnerRecords(s.store, s.calls[t]))
    && CacheRecords(s.memory, s.store)
    && (forall id :: id in s.handled ==> s.handled[id] <= 1 && id in s.store.actions)
    && (forall k :: 0 <= k < |s.answers| ==> Recorded(s.store, s.answers[k].req, s.answers[k].response))
  }

  // ---- One step of an owner -----------------------------------------------------------------------

  /** The step wrote only this id's part of the store, kept its entries and its record. */
  ghost predicate Extends(store: Store, store': Store, id: RequestId) {
    && Entries(store, id) <= Entries(store', id)
    && (id in store.actions ==> id in store'.actions && store'.actions[id] == store.actions[id])
    && (forall i :: i != id ==>
          Entries(store', i) == Entries(store, i) && (i in store'.actions <==> i in store.actions)
          && (i in store.actions ==> store'.actions[i] == store.actions[i]))
  }

  ghost predicate StepFits(c: Call, store: Store, r: (Call, Store, bool)) {
    var id := c.req.requestId;
    && Extends(store, r.1, id) && RecordFits(r.1, id) && OwnerRecords(r.1, r.0)
    && (r.2 ==> id !in store.actions && id in r.1.actions)
  }

  lemma LoadEntryRecords(c: Call, store: Store, o: Outcome)
    requires c.pc.ToCommand? || c.pc.LoadEntry?
    requires Flags(c) && RecordFits(store, c.req.requestId) && OwnerRecords(store, c)
    ensures StepFits(c, store, OwnedStep(c, store, true, o))
  {
    hide Blank;
  }

  lemma LoadActionRecords(c: Call, store: Store, o: Outcome)
    requires c.pc.LoadAction?
    requires Flags(c) && RecordFits(store, c.req.requestId) && OwnerRecords(store, c)
    ensures StepFits(c, store, OwnedStep(c, store, true, o))
  {
  }

  lemma ObserveRecords(c: Call, store: Store, o: Outcome)
    requires c.pc.ReplayObserve? || c.pc.Observe?
    requires Flags(c) && RecordFits(store, c.req.requestId) && OwnerRecords(store, c)
    ensures StepFits(c, store, OwnedStep(c, store, true, o))
  {
  }

  lemma AppendRecords(store: Store, req: SubmitRequest, status: Status, o: Outcome)
    requires RecordFits(store, req.requestId)
    requires Entries(store, req.requestId) != [] ==> Knows(store, req)
    requires status.Received? ==> req.requestId !in store.actions
    requires status.Committed? ==> req.requestId in store.actions && AllReceived(Entries(store, req.requestId))
    requires status.Applied? ==> req.requestId in store.actions
    ensures var (store', err) := Append(store, true, req, status, o);
            && Extends(store, store', req.requestId) && RecordFits(store', req.requestId)
            && store'.actions == store.actions
            && (Entries(store', req.requestId) != [] ==> Knows(store', req))
            && (err.None? ==> Entries(store', req.requestId) != [])
  {
  }

  lemma RecordStepRecords(c: Call, store: Store, o: Outcome)
    requires c.pc.ReplayRecord? || c.pc.RecordReceived? || c.pc.RecordCommitted? || c.pc.RecordApplied?
    requires Flags(c) && RecordFits(store, c.req.requestId) && OwnerRecords(store, c)
    ensures StepFits(c, store, OwnedStep(c, store, true, o))
  {
    var status := if c.pc.RecordReceived? then Received else if c.pc.RecordCommitted? then Committed else Applied;
    AppendRecords(store, c.req, status, o);
  }

  lemma HandleStepRecords(c: Call, store: Store, o: Outcome)
    requires c.pc.HandleCommand?
    requires Flags(c) && RecordFits(store, c.req.requestId) && OwnerRecords(store, c)
    ensures StepFits(c, store, OwnedStep(c, store, true, o))
  {
  }

  lemma OwnedStepRecords(c: Call, store: Store, o: Outcome)
    requires Owns(c) && c.pc != Finish
    requires Flags(c) && RecordFits(store, c.req.requestId) && OwnerRecords(store, c)
    ensures StepFits(c, store, OwnedStep(c, store, true, o))
  {
    if c.pc.HandleCommand? {
      HandleStepRecords(c, store, o);
    } else if c.pc.ReplayRecord? || c.pc.RecordReceived? || c.pc.RecordCommitted? || c.pc.RecordApplied? {
      RecordStepRecords(c, store, o);
    } else if c.pc.LoadAction? {
      LoadActionRecords(c, store, o);
    } else if c.pc.ToCommand? || c.pc.LoadEntry? {
      LoadEntryRecords(c, store, o);
    } else {
      ObserveRecords(c, store, o);
    }
  }

  /** A known request and a recorded response outlive any extension of the store. */
  lemma ExtensionKeeps(store: Store, store': Store, id: RequestId, req: SubmitRequest, response: SubmitResponse)
    requires Extends(store, store', id)
    ensures Knows(store, req) ==> Knows(store', req)
    ensures Recorded(store, req, response) ==> Recorded(store', req, response)
  {
    if req.requestId == id && Knows(store, req) {
      assert Entries(store', id)[0] == Entries(store, id)[0];
    }
  }

  // ---- Every event ----------------------------------------------------------------------------------

  lemma AdvanceKeepsReplay(s: State, t: CallId, o: Outcome)
    requires s.durable && TablesFit(s) && ReplayFits(s) && Enabled(s, Advance(t, o))
    ensures ReplayFits(AdvanceNext(s, t, o))
  {
    var s' := AdvanceNext(s, t, o);
    var c := s.calls[t];
    var id := c.req.requestId;
    assert CallFits(s.memory, c) && OwnedBy(s, t, id);
    OwnedStepRecords(c, s.store, o);
    forall i ensures RecordFits(s'.store, i) {
      assert RecordFits(s.store, i);
    }
    forall u | u in s'.calls ensures OwnerRecords(s'.store, s'.calls[u]) {
      if u != t {
        assert Owns(s.calls[u]) ==> OwnedBy(s, u, s.calls[u].req.requestId);
        OtherOwnerRecords(s.store, s'.store, id, s.calls[u]);
      }
    }
    AdvanceKeepsHistory(s, s', t, o);
  }

  lemma OtherOwnerRecords(store: Store, store': Store, id: RequestId, d: Call)
    requires Extends(store, store', id) && OwnerRecords(store, d) && (Owns(d) ==> d.req.requestId != id)
    ensures OwnerRecords(store', d)
  {
  }

  lemma AdvanceKeepsHistory(s: State, s': State, t: CallId, o: Outcome)
    requires ReplayFits(s) && Enabled(s, Advance(t, o)) && s' == AdvanceNext(s, t, o)
    requires StepFits(s.calls[t], s.store, OwnedStep(s.calls[t], s.store, s.durable, o))
    ensures CacheRecords(s'.memory, s'.store)
    ensures forall i :: i in s'.handled ==> s'.handled[i] <= 1 && i in s'.store.actions
    ensures forall k :: 0 <= k < |s'.answers| ==> Recorded(s'.store, s'.answers[k].req, s'.answers[k].response)
  {
    var id := s.calls[t].req.requestId;
    forall i | i in s'.memory.ledger ensures Knows(s'.store, s'.memory.ledger[i]) {
      ExtensionKeeps(s.store, s'.store, id, s.memory.ledger[i], NO_RESPONSE);
    }
    forall k | 0 <= k < |s'.answers| ensures Recorded(s'.store, s'.answers[k].req, s'.answers[k].response) {
      ExtensionKeeps(s.store, s'.store, id, s.answers[k].req, s.answers[k].response);
    }
  }

  /** The opening section leaves the caches alone; a success it returns comes from the cache. */
  lemma BeginAnswers(m: Memory, store: Store, req: SubmitRequest)
    requires CacheFits(m) && CacheRecords(m, store)
    ensures var (m', b) := BeginSubmit(m, req);
            && m'.ledger == m.ledger && m'.responses == m.responses
            && (b.err.None? && b.response.resultEventId != "" ==> Recorded(store, req, b.response))
  {
  }

  lemma BeginKeepsReplay(s: State, t: CallId)
    requires TablesFit(s) && ReplayFits(s) && Enabled(s, BeginCall(t))
    ensures ReplayFits(BeginNext(s, t))
  {
    hide OwnerRecords, RecordFits, ChannelsFit, OwnersFit, ActionsFit, CallFits;
    BeginAnswers(s.memory, s.store, s.calls[t].req);
    BeginKeepsOwnerRecords(s, t);
    hide CacheFits, CacheRecords, Recorded, BeginSubmit;
  }

  lemma BeginKeepsOwnerRecords(s: State, t: CallId)
    requires ReplayFits(s) && Enabled(s, BeginCall(t))
    ensures var s' := BeginNext(s, t);
            s'.store == s.store && forall u :: u in s'.calls ==> OwnerRecords(s'.store, s'.calls[u])
  {
    BegunRecords(s, t);
    hide OwnerRecords, RecordFits, CacheRecords, Recorded, BeginSubmit, AfterBegin;
  }

  /** A call that has begun knows nothing of the ledger yet. */
  lemma BegunRecords(s: State, t: CallId)
    requires Enabled(s, BeginCall(t))
    ensures OwnerRecords(s.store, BeginNext(s, t).calls[t])
  {
    hide BeginSubmit, Knows, Recorded, AllReceived;
  }

  lemma FinishKeepsCache(m: Memory, store: Store, c: Call)
    requires CacheRecords(m, store) && c.pc.Finish? && Flags(c) && OwnerRecords(store, c)
    ensures CacheRecords(FinishSubmit(m, c.req, c.response, c.cacheRequest, c.cacheResponse), store)
  {
  }

  lemma FinishKeepsReplay(s: State, t: CallId)
    requires TablesFit(s) && ReplayFits(s) && Enabled(s, FinishCall(t))
    ensures ReplayFits(FinishNext(s, t))
  {
    hide TablesFit, CallFits, Flags, OwnerRecords, RecordFits, CacheRecords, Recorded, FinishSubmit, FinishNext;
    FinishFlags(s, t);
    FinishShape(s, t);
    FinishKeepsCache(s.memory, s.store, s.calls[t]);
    FinishKeepsOwnerRecords(s, t);
    FinishKeepsAnswers(s, t);
  }

  lemma FinishShape(s: State, t: CallId)
    requires Enabled(s, FinishCall(t))
    ensures
      var s', c := FinishNext(s, t), s.calls[t];
      && s'.store == s.store && s'.handled == s.handled
      && s'.memory == FinishSubmit(s.memory, c.req, c.response, c.cacheRequest, c.cacheResponse)
      && s'.answers == if c.err.None? then s.answers + [Answer(c.req, c.response)] else s.answers
  {
    hide FinishSubmit;
  }

  lemma FinishKeepsAnswers(s: State, t: CallId)
    requires ReplayFits(s) && Enabled(s, FinishCall(t))
    ensures
      var s' := FinishNext(s, t);
      forall k :: 0 <= k < |s'.answers| ==> Recorded(s'.store, s'.answers[k].req, s'.answers[k].response)
  {
    hide FinishNext, Recorded, RecordFits, CacheRecords;
    FinishShape(s, t);
    assert OwnerRecords(s.store, s.calls[t]);
  }

  lemma FinishFlags(s: State, t: CallId)
    requires TablesFit(s) && t in s.calls
    ensures Flags(s.calls[t])
  {
    hide ChannelsFit, CacheFits, OwnersFit, ActionsFit, OwnerFits, WaiterFits, Flags;
    assert CallFits(s.memory, s.calls[t]);
  }

  lemma FinishKeepsOwnerRecords(s: State, t: CallId)
    requires ReplayFits(s) && Enabled(s, FinishCall(t))
    ensures var s' := FinishNext(s, t);
            s'.store == s.store && forall u :: u in s'.calls ==> OwnerRecords(s'.store, s'.calls[u])
  {
    hide RecordFits, CacheRecords, Recorded, Knows, FinishSubmit;
  }

  lemma OtherEventKeepsReplay(s: State, e: Event)
    requires ReplayFits(s) && Enabled(s, e) && !e.Advance? && !e.BeginCall? && !e.FinishCall?
    ensures ReplayFits(Next(s, e))
  {
    if e.Arrive? || e.Wake? || e.Cancel? {
      CallEventKeepsReplay(s, e);
    } else {
      ConfigEventKeepsReplay(s, e);
    }
  }

  lemma CallEventKeepsReplay(s: State, e: Event)
    requires ReplayFits(s) && Enabled(s, e) && (e.Arrive? || e.Wake? || e.Cancel?)
    ensures ReplayFits(Next(s, e))
  {
    hide RecordFits, Recorded, Knows, AllReceived, Hash, Blank, CacheRecords;
  }

  lemma ConfigEventKeepsReplay(s: State, e: Event)
    requires ReplayFits(s) && (e.Restart? || e.Register? || e.Remove? || e.Watch?)
    ensures ReplayFits(Next(s, e))
  {
    hide RecordFits, Recorded, Knows, AllReceived, Hash, OwnerRecords;
  }

  /** The invariant of the whole protocol. */
  ghost predicate Inv(s: State) {
    TablesFit(s) && (s.durable ==> ReplayFits(s))
  }

  lemma StepKeepsInv(s: State, e: Event)
    requires Inv(s) && Enabled(s, e)
    ensures Inv(Next(s, e)) && Next(s, e).durable == s.durable
  {
    StepKeepsTables(s, e);
    if s.durable {
      match e
      case BeginCall(t) => BeginKeepsReplay(s, t);
      case Advance(t, o) => AdvanceKeepsReplay(s, t, o);
      case FinishCall(t) => FinishKeepsReplay(s, t);
      case _ => OtherEventKeepsReplay(s, e);
    }
  }

  lemma {:induction false} RunKeepsInv(s: State, es: seq<Event>)
    requires Inv(s) && Allowed(s, es)
    ensures Inv(Exec(s, es)) && Exec(s, es).durable == s.durable
    decreases |es|
  {
    if es != [] {
      StepKeepsInv(s, es[0]);
      RunKeepsInv(Next(s, es[0]), es[1..]);
    }
  }

  predicate AnswerFor(s: State, k: int, id: RequestId) {
    0 <= k < |s.answers| && s.answers[k].req.requestId == id
  }

  // ---- How often the actor acts ---------------------------------------------------------------------

  /** At this event the table actor accepts the id's command; with `lost`, also if its answer is lost. */
  predicate Acts(s: State, e: Event, id: RequestId, lost: bool)
    requires Enabled(s, e)
  {
    && e.Advance? && s.calls[e.t].pc.HandleCommand? && s.calls[e.t].req.requestId == id
    && (e.o.Accepts? || (lost && e.o.FailsAfterRecording?))
  }

  /** How often that happens in a run. */
  ghost function ActionsIn(s: State, es: seq<Event>, id: RequestId, lost: bool): nat
    requires Allowed(s, es)
    decreases |es|
  {
    if es == [] then 0
    else (if Acts(s, es[0], id, lost) then 1 else 0) + ActionsIn(Next(s, es[0]), es[1..], id, lost)
  }

  lemma ActsOnce(s: State, e: Event, id: RequestId)
    requires Inv(s) && s.durable && Enabled(s, e)
    ensures Next(s, e).durable
    ensures id in Next(s, e).store.actions <==> id in s.store.actions || Acts(s, e, id, true)
    ensures Acts(s, e, id, true) ==> id !in s.store.actions
    ensures HandledCount(Next(s, e), id) == HandledCount(s, id) + if Acts(s, e, id, false) then 1 else 0
  {
    hide TablesFit, CacheRecords, RecordFits, BeginSubmit, FinishSubmit;
    match e
    case Advance(t, o) =>
      assert ReplayFits(s);
      assert OwnerRecords(s.store, s.calls[t]);
      ActsByStep(s.calls[t], s.store, s.durable, o);
      hide ReplayFits, OwnedStep;
    case _ =>
  }

  lemma ActsByStep(c: Call, store: Store, durable: bool, o: Outcome)
    requires Owns(c) && !c.pc.Finish?
    ensures
      var (_, store', handled) := OwnedStep(c, store, durable, o);
      var acts := c.pc.HandleCommand? && (o.Accepts? || o.FailsAfterRecording?);
      && store'.actions.Keys == store.actions.Keys + (if acts then {c.req.requestId} else {})
      && handled == (c.pc.HandleCommand? && o.Accepts?)
  {
    hide Blank, Hash, Entries;
  }

  /** The actor acts as often as there are records more, and the accepted commands are counted. */
  lemma {:induction false} ActionsCounted(s: State, es: seq<Event>, id: RequestId)
    requires Inv(s) && s.durable && Allowed(s, es)
    ensures ActionsIn(s, es, id, true) + (if id in s.store.actions then 1 else 0)
              == if id in Exec(s, es).store.actions then 1 else 0
    ensures HandledCount(Exec(s, es), id) == HandledCount(s, id) + ActionsIn(s, es, id, false)
    decreases |es|
  {
    hide Inv, Next, Acts;
    if es != [] {
      StepKeepsInv(s, es[0]);
      ActsOnce(s, es[0], id);
      ActionsCounted(Next(s, es[0]), es[1..], id);
    }
  }

  // ---- Theorems over whole runs ---------------------------------------------------------------------

  /** With a durable ledger, however submits, failures and restarts interleave: the table actor accepts the
      command of a request id at most once, lost answers included, and exactly once if the id was answered
      with success; all successes returned for an id are the same response to the same payload, and the id's
      ledger entries read received+ committed? applied*. */
  lemma HandleAtMostOnce(actors: set<string>, observer: bool, es: seq<Event>, id: RequestId)
    requires Allowed(Init(true, actors, observer), es)
    ensures var s := Exec(Init(true, actors, observer), es);
            && HandledCount(s, id) <= ActionsIn(Init(true, actors, observer), es, id, true) <= 1
            && ((exists k :: AnswerFor(s, k, id)) ==> ActionsIn(Init(true, actors, observer), es, id, true) == 1)
            && (forall j, k | AnswerFor(s, j, id) && AnswerFor(s, k, id) ::
                  s.answers[j].response == s.answers[k].response
                  && SamePayload(s.answers[j].req, s.answers[k].req))
            && (Entries(s.store, id) != [] ==> exists r, c :: Blocks(Entries(s.store, id), r, c))
  {
    var s := Exec(Init(true, actors, observer), es);
    RunKeepsInv(Init(true, actors, observer), es);
    ActionsCounted(Init(true, actors, observer), es, id);
    assert RecordFits(s.store, id);
    if k :| AnswerFor(s, k, id) {
      assert Recorded(s.store, s.answers[k].req, s.answers[k].response);
    }
    if Entries(s.store, id) != [] {
      assert AllReceived(Entries(s.store, id)) ==> Grammar(Entries(s.store, id));
      var r, c := ReadsAs(Entries(s.store, id));
    }
    forall j, k | AnswerFor(s, j, id) && AnswerFor(s, k, id)
      ensures s.answers[j].response == s.answers[k].response && SamePayload(s.answers[j].req, s.answers[k].req)
    {
      HashTells(s.answers[j].req, s.answers[k].req);
      assert Recorded(s.store, s.answers[j].req, s.answers[j].response);
      assert Recorded(s.store, s.answers[k].req, s.answers[k].response);
    }
  }

  /** The call is alive and closes this channel when it finishes. */
  predicate Holds(s: State, t: CallId, ch: Channel) {
    t in s.calls && Owns(s.calls[t]) && s.calls[t].owned == Some(ch)
  }

  /** A made channel is open exactly while a live owner holds it, and has been closed exactly once
      otherwise. */
  lemma ChannelOpenWhileHeld(s: State, ch: Channel)
    requires TablesFit(s) && ch in s.memory.closes
    ensures if exists t :: Holds(s, t, ch) then CloseCount(s.memory, ch) == 0 else CloseCount(s.memory, ch) == 1
  {
    hide CacheFits, ActionsFit, Flags, WaiterFits;
    if CloseCount(s.memory, ch) == 0 {
      var id :| id in s.memory.inFlight && s.memory.inFlight[id].done == ch;
      var t :| OwnedBy(s, t, id);
      assert CallFits(s.memory, s.calls[t]);
      assert Holds(s, t, ch);
    }
    forall t | Holds(s, t, ch) ensures CloseCount(s.memory, ch) == 0 {
      assert CallFits(s.memory, s.calls[t]);
    }
  }

  /** A waiter's channel is closed, or held by a live owner of its id. */
  lemma WaiterHasOwner(s: State, t: CallId)
    requires TablesFit(s) && t in s.calls && s.calls[t].pc.Waiting?
    ensures CloseCount(s.memory, s.calls[t].pc.done) == 1
         || exists u :: OwnedBy(s, u, s.calls[t].req.requestId) && s.calls[u].owned == Some(s.calls[t].pc.done)
  {
    hide CacheFits, ActionsFit, Flags;
    var id := s.calls[t].req.requestId;
    assert CallFits(s.memory, s.calls[t]);
    if CloseCount(s.memory, s.calls[t].pc.done) != 1 {
      var u :| OwnedBy(s, u, id);
      assert CallFits(s.memory, s.calls[u]);
    }
  }

  /** In every reachable state, with or without a ledger: an id has at most one owner, a made channel is
      open exactly while a live owner holds it and was closed exactly once otherwise, and a waiter's
      channel is closed or held by a live owner of its id. */
  lemma OwnershipIsExclusive(durable: bool, actors: set<string>, observer: bool, es: seq<Event>)
    requires Allowed(Init(durable, actors, observer), es)
    ensures var s := Exec(Init(durable, actors, observer), es);
            && (forall t, u, id :: OwnedBy(s, t, id) && OwnedBy(s, u, id) ==> t == u)
            && (forall ch :: ch in s.memory.closes ==>
                  if exists t :: Holds(s, t, ch) then CloseCount(s.memory, ch) == 0 else CloseCount(s.memory, ch) == 1)
            && (forall t :: t in s.calls && s.calls[t].pc.Waiting? ==>
                  CloseCount(s.memory, s.calls[t].pc.done) == 1
                  || exists u :: OwnedBy(s, u, s.calls[t].req.requestId)
                                 && s.calls[u].owned == Some(s.calls[t].pc.done))
            && (forall id :: id in s.memory.responses ==> id in s.memory.ledger)
  {
    var s := Exec(Init(durable, actors, observer), es);
    RunKeepsInv(Init(durable, actors, observer), es);
    hide CallFits, ChannelsFit, ActionsFit, Owns;
    forall ch | ch in s.memory.closes
      ensures if exists t :: Holds(s, t, ch) then CloseCount(s.memory, ch) == 0 else CloseCount(s.memory, ch) == 1
    {
      ChannelOpenWhileHeld(s, ch);
    }
    forall t | t in s.calls && s.calls[t].pc.Waiting? && CloseCount(s.memory, s.calls[t].pc.done) != 1
      ensures exists u :: OwnedBy(s, u, s.calls[t].req.requestId) && s.calls[u].owned == Some(s.calls[t].pc.done)
    {
      WaiterHasOwner(s, t);
    }
  }

  predicate NoRestart(es: seq<Event>) {
    forall e :: e in es ==> !e.Restart?
  }

  /** m' caches all that m caches, with the same responses and payload hashes. */
  ghost predicate CacheGrew(m: Memory, m': Memory) {
    && (forall id :: id in m.responses ==> id in m'.responses && m'.responses[id] == m.responses[id])
    && (forall id :: id in m.ledger ==> id in m'.ledger && Hash(m'.ledger[id]) == Hash(m.ledger[id]))
  }

  lemma StepGrowsCache(s: State, e: Event)
    requires TablesFit(s) && Enabled(s, e) && !e.Restart?
    ensures CacheGrew(s.memory, Next(s, e).memory)
  {
    hide ChannelsFit, CacheFits, OwnersFit, ActionsFit, Flags, WaiterFits, OwnedStep, AfterArrival, AfterBegin;
    if e.FinishCall? {
      assert CallFits(s.memory, s.calls[e.t]);
      FinishGrowsCache(s.memory, s.calls[e.t]);
    }
    hide FinishSubmit, Hash;
  }

  lemma FinishGrowsCache(m: Memory, c: Call)
    requires OwnerFits(m, c)
    ensures CacheGrew(m, FinishSubmit(m, c.req, c.response, c.cacheRequest, c.cacheResponse))
  {
    hide Hash;
  }

  /** Until a restart, a cached response or payload hash never changes, ledger or no ledger. */
  lemma {:induction false} CacheNeverChanges(s: State, es: seq<Event>)
    requires Inv(s) && Allowed(s, es) && NoRestart(es)
    ensures CacheGrew(s.memory, Exec(s, es).memory)
    decreases |es|
  {
    if es != [] {
      assert es[0] in es;
      StepKeepsInv(s, es[0]);
      StepGrowsCache(s, es[0]);
      CacheNeverChanges(Next(s, es[0]), es[1..]);
    }
  }

  /** An action record never changes once written, restarts included. */
  lemma {:induction false} RecordNeverChanges(s: State, es: seq<Event>, id: RequestId)
    requires s.durable && Inv(s) && Allowed(s, es) && id in s.store.actions
    ensures id in Exec(s, es).store.actions && Exec(s, es).store.actions[id] == s.store.actions[id]
    decreases |es|
  {
    if es != [] {
      StepKeepsInv(s, es[0]);
      if es[0].Advance? {
        assert CallFits(s.memory, s.calls[es[0].t]);
        assert RecordFits(s.store, s.calls[es[0].t].req.requestId);
        OwnedStepRecords(s.calls[es[0].t], s.store, es[0].o);
      }
      RecordNeverChanges(Next(s, es[0]), es[1..], id);
    }
  }

  // ---- What one undisturbed submit writes -------------------------------------------------------------

  predicate NothingFails(script: Pc -> Outcome, action: SubmitResponse) {
    && script(HandleCommand) == Accepts(action)
    && script(LoadEntry).Succeeds? && script(LoadAction).Succeeds? && script(RecordReceived).Succeeds?
    && script(RecordCommitted).Succeeds? && script(Observe).Succeeds? && script(RecordApplied).Succeeds?
    && script(ReplayObserve).Succeeds? && script(ReplayRecord).Succeeds?
  }

  /** The first submit of a request writes received, committed and applied, in that order, leaves the
      actor's record, and caches its request and response. */
  lemma FirstSubmitWrites(c: Call, store: Store, script: Pc -> Outcome, action: SubmitResponse)
    requires c == NewCall(c.req).(pc := ToCommand, owned := c.owned, actor := true, observer := c.observer)
    requires !Blank(c.req.actionType) && NothingFails(script, action)
    requires Entries(store, c.req.requestId) == [] && c.req.requestId !in store.actions
    ensures var (r, store') := RunOwned(c, store, true, script);
            && r.pc == Finish && r.err.None? && r.response == action && r.cacheRequest && r.cacheResponse
            && Entries(store', c.req.requestId)
               == [Entry(Hash(c.req), Received), Entry(Hash(c.req), Committed), Entry(Hash(c.req), Applied)]
            && store'.actions == store.actions[c.req.requestId := action]
  {
    var c2 := c.(pc := RecordReceived);
    FirstSubmitLoads(c, store, script, action);
    var c3 := c2.(pc := HandleCommand, cacheRequest := true);
    var store3 := Append(store, true, c.req, Received, Succeeds).0;
    FirstSubmitReceived(c2, store, script, action);
    var c4 := c3.(pc := RecordCommitted, response := action);
    var store4 := store3.(actions := store3.actions[c.req.requestId := action]);
    FirstSubmitHandled(c3, store3, script, action);
    hide RunOwned, Blank, NothingFails;
    FirstSubmitRecords(c4, store4, script, action);
  }

  lemma FirstSubmitLoads(c: Call, store: Store, script: Pc -> Outcome, action: SubmitResponse)
    requires c.pc == ToCommand && c.actor && !Blank(c.req.actionType) && NothingFails(script, action)
    requires Entries(store, c.req.requestId) == []
    ensures RunOwned(c, store, true, script) == RunOwned(c.(pc := RecordReceived), store, true, script)
  {
    RunFrom(c, store, true, script);
    RunFrom(c.(pc := LoadEntry), store, true, script);
    hide RunOwned, Blank;
  }

  lemma FirstSubmitReceived(c: Call, store: Store, script: Pc -> Outcome, action: SubmitResponse)
    requires c.pc == RecordReceived && NothingFails(script, action) && Entries(store, c.req.requestId) == []
    ensures
      var store' := Append(store, true, c.req, Received, Succeeds).0;
      && Entries(store', c.req.requestId) == [Entry(Hash(c.req), Received)] && store'.actions == store.actions
      && RunOwned(c, store, true, script)
           == RunOwned(c.(pc := HandleCommand, cacheRequest := true), store', true, script)
  {
    RunFrom(c, store, true, script);
    hide RunOwned, Blank;
  }

  lemma FirstSubmitHandled(c: Call, store: Store, script: Pc -> Outcome, action: SubmitResponse)
    requires c.pc == HandleCommand && NothingFails(script, action) && c.req.requestId !in store.actions
    ensures
      var store' := store.(actions := store.actions[c.req.requestId := action]);
      RunOwned(c, store, true, script) == RunOwned(c.(pc := RecordCommitted, response := action), store', true, script)
  {
    RunFrom(c, store, true, script);
    hide RunOwned, Blank;
  }

  lemma FirstSubmitRecords(c: Call, store: Store, script: Pc -> Outcome, action: SubmitResponse)
    requires c.pc == RecordCommitted && c.err.None? && c.cacheRequest && NothingFails(script, action)
    requires Entries(store, c.req.requestId) == [Entry(Hash(c.req), Received)]
    ensures var (r, store') := RunOwned(c, store, true, script);
            && r.pc == Finish && r.err.None? && r.response == c.response && r.cacheRequest && r.cacheResponse
            && Entries(store', c.req.requestId)
               == [Entry(Hash(c.req), Received), Entry(Hash(c.req), Committed), Entry(Hash(c.req), Applied)]
            && store'.actions == store.actions
  {
    RunFrom(c, store, true, script);
    var store1 := Append(store, true, c.req, Committed, Succeeds).0;
    if c.observer {
      RunFrom(c.(pc := Observe), store1, true, script);
    }
    RunFrom(c.(pc := RecordApplied), store1, true, script);
  }

  /** A submit that finds its action record answers with it, whatever else the actor would say, and
      adds one applied entry (none when an observer is set but the table's actor is gone). */
  lemma ReplayAnswersFromRecord(c: Call, store: Store, script: Pc -> Outcome, action: SubmitResponse)
    requires c == NewCall(c.req).(pc := ToCommand, owned := c.owned, actor := c.actor, observer := c.observer)
    requires !Blank(c.req.actionType) && NothingFails(script, action)
    requires RecordFits(store, c.req.requestId) && Knows(store, c.req) && c.req.requestId in store.actions
    ensures var (r, store') := RunOwned(c, store, true, script);
            && r.pc == Finish && r.err.None? && r.response == store.actions[c.req.requestId]
            && r.cacheRequest && r.cacheResponse && store'.actions == store.actions
            && Entries(store', c.req.requestId) == Entries(store, c.req.requestId)
                 + if !c.observer || c.actor then [Entry(Hash(c.req), Applied)] else []
  {
    hide RunOwned, Blank, Hash, Grammar, NothingFails;
    LoadsKnown(c, store, script, action);
    LoadsRecord(c.(pc := LoadAction), store, script, action);
    var c1 := c.(pc := LoadAction, response := store.actions[c.req.requestId],
                 cacheRequest := true, cacheResponse := true);
    ReplayFinishes(c1, store, script, action);
  }

  lemma LoadsKnown(c: Call, store: Store, script: Pc -> Outcome, action: SubmitResponse)
    requires c.pc == ToCommand && !Blank(c.req.actionType) && NothingFails(script, action)
    requires SameHash(Entries(store, c.req.requestId)) && Knows(store, c.req)
    ensures RunOwned(c, store, true, script) == RunOwned(c.(pc := LoadAction), store, true, script)
  {
    hide RunOwned, Blank, Hash;
    RunFrom(c, store, true, script);
    RunFrom(c.(pc := LoadEntry), store, true, script);
  }

  lemma LoadsRecord(c: Call, store: Store, script: Pc -> Outcome, action: SubmitResponse)
    requires c.pc == LoadAction && NothingFails(script, action) && c.req.requestId in store.actions
    ensures
      var c' := c.(response := store.actions[c.req.requestId], cacheRequest := true, cacheResponse := true);
      RunOwned(c, store, true, script)
        == RunOwned(if c.observer && c.actor then c'.(pc := ReplayObserve) else ReplayNext(c'), store, true, script)
  {
    hide RunOwned, Blank, Hash;
    RunFrom(c, store, true, script);
  }

  lemma ReplayFinishes(c: Call, store: Store, script: Pc -> Outcome, action: SubmitResponse)
    requires c.err.None? && NothingFails(script, action) && SameHash(Entries(store, c.req.requestId))
    requires Knows(store, c.req)
    ensures var (r, store') :=
              RunOwned(if c.observer && c.actor then c.(pc := ReplayObserve) else ReplayNext(c), store, true, script);
            && r == c.(pc := Finish) && store'.actions == store.actions
            && Entries(store', c.req.requestId) == Entries(store, c.req.requestId)
                 + if !c.observer || c.actor then [Entry(Hash(c.req), Applied)] else []
  {
    if c.observer && c.actor {
      RunFrom(c.(pc := ReplayObserve), store, true, script);
    }
    if !c.observer || c.actor {
      RunFrom(c.(pc := ReplayRecord), store, true, script);
    }
  }

  /** A request id the ledger knows from a request that asked for something else is refused, and nothing is
      written; one that asked for the same goes on to look for the action record. */
  lemma OtherPayloadIsRefused(c: Call, store: Store, script: Pc -> Outcome, known: SubmitRequest)
    requires c.pc == ToCommand && !c.cacheRequest && !Blank(c.req.actionType) && script(LoadEntry) != Fails
    requires known.requestId == c.req.requestId && RecordFits(store, known.requestId) && Knows(store, known)
    ensures var (r, store') := RunOwned(c, store, true, script);
            if SamePayload(known, c.req) then
              (r, store') == RunOwned(c.(pc := LoadAction), store, true, script)
            else
              && r.pc == Finish && r.err == Some(ErrRequestPayloadConflict) && r.response == NO_RESPONSE
              && !r.cacheRequest && !r.cacheResponse && store' == store
  {
    HashTells(known, c.req);
    hide SamePayload;
    RunFrom(c, store, true, script);
    RunFrom(c.(pc := LoadEntry), store, true, script);
  }
}
