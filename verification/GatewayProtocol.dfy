/** Every interleaving of submits over one durable ledger, with failures and restarts.

    A state holds the gateway's tables, the durable store and every submit call in progress. An
    event is one atomic step: a section under the mutex, or one call out of the gateway. */
module GatewayProtocol {
  import opened Options
  import opened Gateway

  type CallId = nat

  /** A success returned to a caller. */
  datatype Answer = Answer(req: SubmitRequest, response: SubmitResponse)

  /** handled counts the successful Handle calls of a request id, answers the successes returned;
      both only record history and are never read by a step. */
  datatype State = State(
    durable: bool, memory: Memory, store: Store, calls: map<CallId, Call>,
    handled: map<RequestId, nat>, answers: seq<Answer>)

  datatype Event =
    | Arrive(t: CallId, req: SubmitRequest, hasContext: bool)
    | BeginCall(t: CallId)
    | Wake(t: CallId)
    | Cancel(t: CallId)
    | Advance(t: CallId, o: Outcome)
    | FinishCall(t: CallId)
    | Restart(actors: set<string>, observer: bool)
    | Register(tableId: string)
    | Remove(tableId: string)
    | Watch(observer: bool)

  function Init(durable: bool, actors: set<string>, observer: bool): State {
    State(durable, EmptyMemory(actors, observer), Store(map[], map[]), map[], map[], [])
  }

  predicate Enabled(s: State, e: Event) {
    match e
    case Arrive(t, _, _) => t !in s.calls
    case BeginCall(t) => t in s.calls && s.calls[t].pc.Begin?
    case Wake(t) => t in s.calls && s.calls[t].pc.Waiting? && CloseCount(s.memory, s.calls[t].pc.done) > 0
    case Cancel(t) => t in s.calls && s.calls[t].pc.Waiting?
    case Advance(t, o) => t in s.calls && Owns(s.calls[t]) && !s.calls[t].pc.Finish? && Honest(o)
    case FinishCall(t) => t in s.calls && s.calls[t].pc.Finish?
    case _ => true
  }

  function HandledCount(s: State, id: RequestId): nat {
    if id in s.handled then s.handled[id] else 0
  }

  function Return(c: Call, err: Error): Call {
    c.(pc := Returned, err := Some(err))
  }

  function AfterArrival(req: SubmitRequest, hasContext: bool): Call {
    if !hasContext then Return(NewCall(req), ErrBadRequest)
    else if !ValidSignature(req) then Return(NewCall(req), ErrInvalidSignature)
    else NewCall(req)
  }

  /** What Submit does with the result of its opening section. */
  function AfterBegin(c: Call, b: Begun, made: Option<Channel>): Call {
    if b.err.Some? then Return(c, b.err.value)
    else if b.response.resultEventId != "" then c.(pc := Returned, response := b.response, err := None)
    else if b.wait.Some? then c.(pc := Waiting(b.wait.value))
    else c.(pc := ToCommand, owned := made, actor := b.actor, observer := b.observer)
  }

  function BeginNext(s: State, t: CallId): State
    requires t in s.calls
  {
    var c := s.calls[t];
    var (memory, b) := BeginSubmit(s.memory, c.req);
    var made := if memory.nextChannel != s.memory.nextChannel then Some(s.memory.nextChannel) else None;
    var c' := AfterBegin(c, b, made);
    var answered := b.err.None? && b.response.resultEventId != "";
    s.(memory := memory, calls := s.calls[t := c'],
       answers := if answered then s.answers + [Answer(c.req, b.response)] else s.answers)
  }

  function AdvanceNext(s: State, t: CallId, o: Outcome): State
    requires t in s.calls
  {
    var (c', store, handled) := OwnedStep(s.calls[t], s.store, s.durable, o);
    var id := s.calls[t].req.requestId;
    s.(store := store, calls := s.calls[t := c'],
       handled := if handled then s.handled[id := HandledCount(s, id) + 1] else s.handled)
  }

  function FinishNext(s: State, t: CallId): State
    requires t in s.calls
  {
    var c := s.calls[t];
    s.(memory := FinishSubmit(s.memory, c.req, c.response, c.cacheRequest, c.cacheResponse),
       calls := s.calls[t := c.(pc := Returned)],
       answers := if c.err.None? then s.answers + [Answer(c.req, c.response)] else s.answers)
  }

  function Next(s: State, e: Event): State
    requires Enabled(s, e)
  {
    match e
    case Arrive(t, req, hasContext) => s.(calls := s.calls[t := AfterArrival(req, hasContext)])
    case BeginCall(t) => BeginNext(s, t)
    case Wake(t) => s.(calls := s.calls[t := s.calls[t].(pc := Begin)])
    case Cancel(t) => s.(calls := s.calls[t := Return(s.calls[t], ErrCancelled)])
    case Advance(t, o) => AdvanceNext(s, t, o)
    case FinishCall(t) => FinishNext(s, t)
    case Restart(actors, observer) => s.(memory := EmptyMemory(actors, observer), calls := map[])
    case Register(tableId) => s.(memory := s.memory.(actors := s.memory.actors + {tableId}))
    case Remove(tableId) => s.(memory := s.memory.(actors := s.memory.actors - {tableId}))
    case Watch(observer) => s.(memory := s.memory.(observer := observer))
  }

  ghost predicate Allowed(s: State, es: seq<Event>)
    decreases |es|
  {
    es == [] || (Enabled(s, es[0]) && Allowed(Next(s, es[0]), es[1..]))
  }

  ghost function Exec(s: State, es: seq<Event>): State
    requires Allowed(s, es)
    decreases |es|
  {
    if es == [] then s else Exec(Next(s, es[0]), es[1..])
  }

  // ---- The invariant over the gateway's tables --------------------------------------------------

  /** The flags of a call agree with where it stands. */
  predicate Flags(c: Call) {
    match c.pc
    case Begin | Waiting(_) | ToCommand | LoadEntry | LoadAction | RecordReceived =>
      c.err.None? && !c.cacheRequest && !c.cacheResponse
    case HandleCommand => c.err.None? && c.cacheRequest && !c.cacheResponse
    case RecordCommitted | Observe | RecordApplied =>
      c.err.None? && c.cacheRequest && !c.cacheResponse && c.response.resultEventId != ""
    case ReplayObserve | ReplayRecord =>
      c.err.None? && c.cacheRequest && c.cacheResponse && c.response.resultEventId != ""
    case Finish =>
      (c.cacheResponse <==> c.err.None?) && (c.cacheResponse ==> c.cacheRequest && c.response.resultEventId != "")
    case Returned => true
  }

  /** An owner holds the in-flight entry of its id, and nothing cached contradicts it. */
  predicate OwnerFits(m: Memory, c: Call) {
    var id := c.req.requestId;
    && c.owned.Some? && id in m.inFlight
    && m.inFlight[id] == InFlight(Hash(c.req), c.owned.value)
    && id !in m.responses
    && (id in m.ledger ==> Hash(m.ledger[id]) == Hash(c.req))
  }

  /** A waiter's channel is closed, or it is the channel of the request now in flight. */
  predicate WaiterFits(m: Memory, c: Call) {
    var id := c.req.requestId;
    c.pc.Waiting? ==>
      c.pc.done in m.closes && (m.closes[c.pc.done] == 1 || (id in m.inFlight && m.inFlight[id].done == c.pc.done))
  }

  predicate CallFits(m: Memory, c: Call) {
    Flags(c) && (Owns(c) ==> OwnerFits(m, c)) && WaiterFits(m, c)
  }

  predicate Held(m: Memory, ch: Channel) {
    exists id :: id in m.inFlight && m.inFlight[id].done == ch
  }

  /** A made channel is open exactly while one in-flight request holds it, and is closed once. */
  predicate ChannelsFit(m: Memory) {
    && (forall ch :: ch in m.closes ==> ch < m.nextChannel && m.closes[ch] <= 1)
    && (forall id :: id in m.inFlight ==> m.inFlight[id].done in m.closes && m.closes[m.inFlight[id].done] == 0)
    && (forall a, b :: a in m.inFlight && b in m.inFlight && m.inFlight[a].done == m.inFlight[b].done ==> a == b)
    && (forall ch :: ch in m.closes && m.closes[ch] == 0 ==> Held(m, ch))
  }

  predicate CacheFits(m: Memory) {
    forall id :: id in m.responses ==> id in m.ledger && m.responses[id].resultEventId != ""
  }

  predicate OwnedBy(s: State, t: CallId, id: RequestId) {
    t in s.calls && Owns(s.calls[t]) && s.calls[t].req.requestId == id
  }

  /** Each in-flight id has a live owner, and no id has two. */
  ghost predicate OwnersFit(s: State) {
    && (forall id :: id in s.memory.inFlight ==> exists t :: OwnedBy(s, t, id))
    && (forall t, u, id :: OwnedBy(s, t, id) && OwnedBy(s, u, id) ==> t == u)
  }

  /** The contract of the table actor, as the store shows it. */
  predicate ActionsFit(store: Store) {
    forall id :: id in store.actions ==> store.actions[id].resultEventId != ""
  }

  ghost predicate TablesFit(s: State) {
    && ChannelsFit(s.memory) && CacheFits(s.memory) && OwnersFit(s) && ActionsFit(s.store)
    && (forall t :: t in s.calls ==> CallFits(s.memory, s.calls[t]))
  }

  lemma LoadStepFlags(c: Call, store: Store, durable: bool, o: Outcome)
    requires c.pc.ToCommand? || c.pc.LoadEntry? || c.pc.LoadAction? || c.pc.ReplayObserve?
    requires Flags(c) && ActionsFit(store)
    ensures Flags(OwnedStep(c, store, durable, o).0)
  {
  }

  lemma RecordStepFlags(c: Call, store: Store, durable: bool, o: Outcome)
    requires c.pc.ReplayRecord? || c.pc.RecordReceived? || c.pc.RecordCommitted? || c.pc.RecordApplied?
    requires Flags(c)
    ensures Flags(OwnedStep(c, store, durable, o).0)
  {
  }

  lemma HandleStepFlags(c: Call, store: Store, durable: bool, o: Outcome)
    requires c.pc.HandleCommand? || c.pc.Observe?
    requires Flags(c) && Honest(o)
    ensures Flags(OwnedStep(c, store, durable, o).0)
  {
  }

  lemma OwnedStepFlags(c: Call, store: Store, durable: bool, o: Outcome)
    requires Owns(c) && c.pc != Finish && Flags(c) && ActionsFit(store) && Honest(o)
    ensures Flags(OwnedStep(c, store, durable, o).0)
  {
    if c.pc.ToCommand? || c.pc.LoadEntry? || c.pc.LoadAction? || c.pc.ReplayObserve? {
      LoadStepFlags(c, store, durable, o);
    } else if c.pc.HandleCommand? || c.pc.Observe? {
      HandleStepFlags(c, store, durable, o);
    } else {
      RecordStepFlags(c, store, durable, o);
    }
  }

  /** Owners are unchanged when no request enters or leaves flight and call t keeps what it owns. */
  lemma OwnersFrame(s: State, s': State, t: CallId, c: Call, c': Call)
    requires OwnersFit(s) && s'.memory.inFlight.Keys == s.memory.inFlight.Keys
    requires s'.calls == s.calls[t := c'] && (t in s.calls ==> s.calls[t] == c) && (t !in s.calls ==> !Owns(c))
    requires c'.req == c.req && Owns(c') == Owns(c)
    ensures OwnersFit(s')
  {
    forall u, id ensures OwnedBy(s', u, id) <==> OwnedBy(s, u, id) {
    }
    forall id | id in s'.memory.inFlight ensures exists u :: OwnedBy(s', u, id) {
      var u :| OwnedBy(s, u, id);
      assert OwnedBy(s', u, id);
    }
  }

  // Begin

  lemma BeginKeepsChannels(m: Memory, req: SubmitRequest)
    requires ChannelsFit(m)
    ensures ChannelsFit(BeginSubmit(m, req).0)
  {
    var m' := BeginSubmit(m, req).0;
    if m' != m {
      var id := req.requestId;
      forall ch | ch in m'.closes && m'.closes[ch] == 0 ensures Held(m', ch) {
        if ch == m.nextChannel {
          assert m'.inFlight[id].done == ch;
        } else {
          var i :| i in m.inFlight && m.inFlight[i].done == ch;
          assert m'.inFlight[i].done == ch;
        }
      }
    }
  }

  /** A request that enters flight has exactly the call that brought it as its owner. */
  lemma OwnerAdded(s: State, s': State, t: CallId, id: RequestId)
    requires OwnersFit(s) && (forall u :: !OwnedBy(s, u, id)) && t in s.calls && !Owns(s.calls[t])
    requires s'.memory.inFlight.Keys == s.memory.inFlight.Keys + {id}
    requires t in s'.calls && s'.calls == s.calls[t := s'.calls[t]] && OwnedBy(s', t, id)
    ensures OwnersFit(s')
  {
    hide Owns;
    forall u, i ensures OwnedBy(s', u, i) <==> OwnedBy(s, u, i) || (u == t && i == id) {
    }
    forall i | i in s'.memory.inFlight ensures exists u :: OwnedBy(s', u, i) {
      if i != id {
        var u :| OwnedBy(s, u, i);
        assert OwnedBy(s', u, i);
      }
    }
  }

  lemma NobodyOwns(s: State, id: RequestId)
    requires TablesFit(s) && id !in s.memory.inFlight
    ensures forall u :: !OwnedBy(s, u, id)
  {
    hide ChannelsFit, CacheFits, ActionsFit, OwnersFit, Flags, WaiterFits;
    forall u ensures !OwnedBy(s, u, id) {
      assert u in s.calls ==> CallFits(s.memory, s.calls[u]);
    }
  }

  lemma BeginKeepsOwners(s: State, t: CallId)
    requires TablesFit(s) && Enabled(s, BeginCall(t))
    ensures OwnersFit(BeginNext(s, t))
  {
    var s' := BeginNext(s, t);
    var id := s.calls[t].req.requestId;
    if id in s'.memory.inFlight && id !in s.memory.inFlight {
      NobodyOwns(s, id);
      hide TablesFit, OwnersFit, CallFits;
      BeginOwns(s, t);
      OwnerAdded(s, s', t, id);
    } else {
      hide TablesFit, OwnersFit, CallFits;
      BeginOwns(s, t);
      OwnersFrame(s, s', t, s.calls[t], s'.calls[t]);
    }
  }

  /** A begin makes its call an owner exactly when it puts the id in flight. */
  lemma BeginOwns(s: State, t: CallId)
    requires TablesFit(s) && Enabled(s, BeginCall(t))
    ensures
      var id, s' := s.calls[t].req.requestId, BeginNext(s, t);
      && OwnersFit(s) && t in s'.calls && s'.calls[t].req == s.calls[t].req
      && s'.memory.inFlight.Keys == s.memory.inFlight.Keys + (if id in s'.memory.inFlight then {id} else {})
      && (Owns(s'.calls[t]) <==> id in s'.memory.inFlight && id !in s.memory.inFlight)
  {
    hide ChannelsFit, ActionsFit, CallFits, OwnersFit, TablesFit, Hash;
    TablesCache(s);
    BeginPutsInFlight(s.memory, s.calls[t]);
    BeginInFlight(s.memory, s.calls[t].req);
    hide CacheFits, BeginSubmit, AfterBegin;
  }

  lemma TablesCache(s: State)
    requires TablesFit(s)
    ensures CacheFits(s.memory) && OwnersFit(s)
  {
    hide CacheFits, OwnersFit, CallFits, ChannelsFit, ActionsFit;
  }

  lemma BeginPutsInFlight(m: Memory, c: Call)
    requires CacheFits(m) && c.pc.Begin?
    ensures
      var (m', b) := BeginSubmit(m, c.req);
      var c' := AfterBegin(c, b, if m'.nextChannel != m.nextChannel then Some(m.nextChannel) else None);
      var id := c.req.requestId;
      && c'.req == c.req && (Owns(c') <==> id in m'.inFlight && id !in m.inFlight)
  {
    hide Hash;
  }

  lemma BeginInFlight(m: Memory, req: SubmitRequest)
    ensures
      var m' := BeginSubmit(m, req).0;
      m'.inFlight.Keys == m.inFlight.Keys + (if req.requestId in m'.inFlight then {req.requestId} else {})
  {
    hide Hash;
  }

  /** A request that enters flight disturbs no other call. */
  lemma BeginKeepsCall(m: Memory, req: SubmitRequest, c: Call)
    requires ChannelsFit(m) && CallFits(m, c)
    ensures CallFits(BeginSubmit(m, req).0, c)
  {
  }

  lemma BeginFits(m: Memory, c: Call)
    requires ChannelsFit(m) && CacheFits(m) && c.pc.Begin? && Flags(c)
    ensures var (m', b) := BeginSubmit(m, c.req);
            CallFits(m', AfterBegin(c, b, if m'.nextChannel != m.nextChannel then Some(m.nextChannel) else None))
  {
  }

  lemma BeginKeepsTables(s: State, t: CallId)
    requires TablesFit(s) && Enabled(s, BeginCall(t))
    ensures TablesFit(BeginNext(s, t))
  {
    var s' := BeginNext(s, t);
    BeginKeepsChannels(s.memory, s.calls[t].req);
    BeginKeepsOwners(s, t);
    BeginFits(s.memory, s.calls[t]);
    forall u | u in s'.calls ensures CallFits(s'.memory, s'.calls[u]) {
      if u != t {
        BeginKeepsCall(s.memory, s.calls[t].req, s.calls[u]);
      }
    }
  }

  // Finish

  lemma FinishKeepsChannels(m: Memory, c: Call)
    requires ChannelsFit(m) && OwnerFits(m, c)
    ensures ChannelsFit(FinishSubmit(m, c.req, c.response, c.cacheRequest, c.cacheResponse))
  {
    var m' := FinishSubmit(m, c.req, c.response, c.cacheRequest, c.cacheResponse);
    forall ch | ch in m'.closes && m'.closes[ch] == 0 ensures Held(m', ch) {
      var i :| i in m.inFlight && m.inFlight[i].done == ch;
      assert i in m'.inFlight && m'.inFlight[i].done == ch;
    }
  }

  /** The owner that leaves closes its own channel and writes only its own id. */
  lemma FinishKeepsCall(m: Memory, c: Call, d: Call)
    requires ChannelsFit(m) && OwnerFits(m, c) && CallFits(m, d)
    requires Owns(d) ==> d.req.requestId != c.req.requestId
    ensures CallFits(FinishSubmit(m, c.req, c.response, c.cacheRequest, c.cacheResponse), d)
  {
  }

  lemma FinishKeepsOwners(s: State, t: CallId)
    requires TablesFit(s) && Enabled(s, FinishCall(t))
    ensures OwnersFit(FinishNext(s, t))
  {
    var s' := FinishNext(s, t);
    var id := s.calls[t].req.requestId;
    assert CallFits(s.memory, s.calls[t]);
    assert OwnedBy(s, t, id);
    forall u, i ensures OwnedBy(s', u, i) <==> OwnedBy(s, u, i) && i != id {
    }
    forall i | i in s'.memory.inFlight ensures exists u :: OwnedBy(s', u, i) {
      var u :| OwnedBy(s, u, i);
      assert OwnedBy(s', u, i);
    }
  }

  lemma FinishKeepsTables(s: State, t: CallId)
    requires TablesFit(s) && Enabled(s, FinishCall(t))
    ensures TablesFit(FinishNext(s, t))
  {
    var s' := FinishNext(s, t);
    var c := s.calls[t];
    assert CallFits(s.memory, c) && OwnedBy(s, t, c.req.requestId);
    FinishKeepsChannels(s.memory, c);
    FinishKeepsOwners(s, t);
    forall u | u in s'.calls ensures CallFits(s'.memory, s'.calls[u]) {
      if u != t {
        assert Owns(s.calls[u]) ==> OwnedBy(s, u, s.calls[u].req.requestId);
        FinishKeepsCall(s.memory, c, s.calls[u]);
      }
    }
  }

  // The other events

  lemma AdvanceKeepsTables(s: State, t: CallId, o: Outcome)
    requires TablesFit(s) && Enabled(s, Advance(t, o))
    ensures TablesFit(AdvanceNext(s, t, o))
  {
    var s' := AdvanceNext(s, t, o);
    var c := s.calls[t];
    OwnedStepMoves(c, s.store, s.durable, o);
    OwnedStepFlags(c, s.store, s.durable, o);
    AdvanceKeepsActions(c, s.store, s.durable, o);
    OwnersFrame(s, s', t, c, s'.calls[t]);
  }

  lemma AdvanceKeepsActions(c: Call, store: Store, durable: bool, o: Outcome)
    requires Owns(c) && Honest(o) && ActionsFit(store)
    ensures ActionsFit(OwnedStep(c, store, durable, o).1)
  {
  }

  lemma CallEventKeepsTables(s: State, e: Event)
    requires TablesFit(s) && Enabled(s, e) && (e.Arrive? || e.Wake? || e.Cancel?)
    ensures TablesFit(Next(s, e))
  {
    hide ChannelsFit, CacheFits, ActionsFit, OwnersFit, CallFits, Blank, ValidSignature;
    var s' := Next(s, e);
    OwnersFrame(s, s', e.t, if e.Arrive? then NewCall(e.req) else s.calls[e.t], s'.calls[e.t]);
    if e.Arrive? {
      ArrivalFits(s.memory, e.req, e.hasContext);
    } else {
      WaiterLeaves(s.memory, s.calls[e.t]);
    }
  }

  lemma ArrivalFits(m: Memory, req: SubmitRequest, hasContext: bool)
    ensures CallFits(m, AfterArrival(req, hasContext))
  {
  }

  lemma WaiterLeaves(m: Memory, c: Call)
    requires CallFits(m, c) && c.pc.Waiting?
    ensures CallFits(m, c.(pc := Begin)) && CallFits(m, Return(c, ErrCancelled))
  {
  }

  lemma ConfigEventKeepsTables(s: State, e: Event)
    requires TablesFit(s) && (e.Restart? || e.Register? || e.Remove? || e.Watch?)
    ensures TablesFit(Next(s, e))
  {
    var s' := Next(s, e);
    if !e.Restart? {
      forall u, id ensures OwnedBy(s', u, id) <==> OwnedBy(s, u, id) {
      }
      forall id | id in s'.memory.inFlight ensures exists u :: OwnedBy(s', u, id) {
        var u :| OwnedBy(s, u, id);
        assert OwnedBy(s', u, id);
      }
      forall ch | ch in s'.memory.closes && s'.memory.closes[ch] == 0 ensures Held(s'.memory, ch) {
        assert Held(s.memory, ch);
      }
    }
  }

  /** One owner per id, channels closed once, waiters never stranded: kept by every event, with or
      without a durable ledger. */
  lemma StepKeepsTables(s: State, e: Event)
    requires TablesFit(s) && Enabled(s, e)
    ensures TablesFit(Next(s, e))
  {
    match e
    case BeginCall(t) => BeginKeepsTables(s, t);
    case Advance(t, o) => AdvanceKeepsTables(s, t, o);
    case FinishCall(t) => FinishKeepsTables(s, t);
    case Arrive(_, _, _) | Wake(_) | Cancel(_) => CallEventKeepsTables(s, e);
    case _ => ConfigEventKeepsTables(s, e);
  }
}
