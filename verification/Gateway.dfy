/** The submit gateway: its mutex-protected tables, and the code of one owned submit.

    Each section that runs under the gateway's mutex is one method of class Gateway; each call
    that leaves the gateway (durable ledger, table actor, observer) takes its outcome from an
    Outcome value, so a proof over all outcomes covers every failure of the outside world.

    SHA-256 over the JSON encoding of the payload fields is taken to be injective: the digest is
    represented by the fields themselves. */
module Gateway {
  import opened Options

  type RequestId = string
  type Channel = nat

  datatype SubmitRequest = SubmitRequest(
    requestId: RequestId, tournamentId: string, tableId: string, minerId: string, sessionId: string,
    seatNo: int, actionType: string, amount: int, expectedStateSeq: int, signature: string)

  datatype SubmitResponse = SubmitResponse(resultEventId: string, stateSeq: int)

  const NO_RESPONSE := SubmitResponse("", 0)

  datatype Error =
    | ErrBadRequest | ErrInvalidSignature | ErrStateSeqMismatch | ErrUnknownTable
    | ErrRequestPayloadConflict | ErrCancelled | ErrUpstream

  datatype PayloadHash = PayloadHash(
    tournamentId: string, tableId: string, minerId: string, seatNo: int, actionType: string,
    amount: int, expectedStateSeq: int)

  function Hash(req: SubmitRequest): PayloadHash {
    PayloadHash(req.tournamentId, req.tableId, req.minerId, req.seatNo, req.actionType, req.amount,
                req.expectedStateSeq)
  }

  /** The requests ask for the same: session and signature do not count. */
  predicate SamePayload(a: SubmitRequest, b: SubmitRequest) {
    && a.tournamentId == b.tournamentId && a.tableId == b.tableId && a.minerId == b.minerId
    && a.seatNo == b.seatNo && a.actionType == b.actionType && a.amount == b.amount
    && a.expectedStateSeq == b.expectedStateSeq
  }

  /** The payload hash tells apart exactly the requests that ask for different things. */
  lemma HashTells(a: SubmitRequest, b: SubmitRequest)
    ensures Hash(a) == Hash(b) <==> SamePayload(a, b)
  {
  }

  /** Every payload hash is that of some request. */
  lemma Hashed(h: PayloadHash)
    ensures exists r :: Hash(r) == h
  {
    var r := SubmitRequest("", h.tournamentId, h.tableId, h.minerId, "", h.seatNo, h.actionType, h.amount,
                           h.expectedStateSeq, "");
    assert Hash(r) == h;
  }

  predicate ValidSignature(req: SubmitRequest) {
    req.signature == "sig:" + req.minerId
  }

  predicate IsSpace(c: char) {
    || '\t' <= c <= '\r' || c == ' ' || c == '\U{85}' || c == '\U{a0}' || c == '\U{1680}'
    || '\U{2000}' <= c <= '\U{200a}' || c == '\U{2028}' || c == '\U{2029}' || c == '\U{202f}'
    || c == '\U{205f}' || c == '\U{3000}'
  }

  /** strings.TrimSpace leaves nothing. */
  predicate Blank(s: string) {
    forall c :: c in s ==> IsSpace(c)
  }

  // ---- The gateway's tables -------------------------------------------------------------------

  datatype InFlight = InFlight(payloadHash: PayloadHash, done: Channel)

  /** closes[ch] counts how often the made channel ch has been closed. */
  datatype Memory = Memory(
    actors: set<string>, observer: bool, responses: map<RequestId, SubmitResponse>,
    ledger: map<RequestId, SubmitRequest>, inFlight: map<RequestId, InFlight>,
    closes: map<Channel, nat>, nextChannel: Channel)

  function EmptyMemory(actors: set<string>, observer: bool): Memory {
    Memory(actors, observer, map[], map[], map[], map[], 0)
  }

  /** What the section at the start of a submit hands back. */
  datatype Begun = Begun(response: SubmitResponse, wait: Option<Channel>, actor: bool, observer: bool,
                         err: Option<Error>)

  function BeginSubmit(m: Memory, req: SubmitRequest): (Memory, Begun) {
    var id := req.requestId;
    if id in m.ledger && Hash(m.ledger[id]) != Hash(req) then
      (m, Begun(NO_RESPONSE, None, false, false, Some(ErrRequestPayloadConflict)))
    else if id in m.responses then
      (m, Begun(m.responses[id], None, false, false, None))
    else if id in m.inFlight then
      if m.inFlight[id].payloadHash != Hash(req) then
        (m, Begun(NO_RESPONSE, None, false, false, Some(ErrRequestPayloadConflict)))
      else
        (m, Begun(NO_RESPONSE, Some(m.inFlight[id].done), false, false, None))
    else
      var ch := m.nextChannel;
      (m.(inFlight := m.inFlight[id := InFlight(Hash(req), ch)],
          closes := m.closes[ch := 0], nextChannel := ch + 1),
       Begun(NO_RESPONSE, None, req.tableId in m.actors, m.observer, None))
  }

  function CloseCount(m: Memory, ch: Channel): nat {
    if ch in m.closes then m.closes[ch] else 0
  }

  function FinishSubmit(m: Memory, req: SubmitRequest, response: SubmitResponse,
                        cacheRequest: bool, cacheResponse: bool): Memory {
    var id := req.requestId;
    var ledger := if cacheRequest then m.ledger[id := req] else m.ledger;
    var responses := if cacheResponse then m.responses[id := response] else m.responses;
    if id in m.inFlight then
      var ch := m.inFlight[id].done;
      m.(ledger := ledger, responses := responses, inFlight := m.inFlight - {id},
         closes := m.closes[ch := CloseCount(m, ch) + 1])
    else
      m.(ledger := ledger, responses := responses)
  }

  // ---- The durable ledger ---------------------------------------------------------------------

  datatype Status = Received | Committed | Applied

  datatype Entry = Entry(payloadHash: PayloadHash, status: Status)

  /** All entries ever appended for an id, oldest first (a load reads the newest), and the action
      record the table actor left. An action record's event id and state seq are the response. */
  datatype Store = Store(entries: map<RequestId, seq<Entry>>, actions: map<RequestId, SubmitResponse>)

  /** What a call that leaves the gateway came back with. Accepts, Rejects and FailsAfterRecording
      are the outcomes of the table actor's Handle; a durable write may also fail after it was
      stored. */
  datatype Outcome =
    | Succeeds | Fails | FailsAfterWriting
    | Accepts(action: SubmitResponse) | Rejects(stale: bool) | FailsAfterRecording(action: SubmitResponse)

  function Entries(store: Store, id: RequestId): seq<Entry> {
    if id in store.entries then store.entries[id] else []
  }

  /** AppendSubmissionLedgerEntries refuses an entry whose payload hash differs from the stored one. */
  function Append(store: Store, durable: bool, req: SubmitRequest, status: Status, o: Outcome): (Store, Option<Error>) {
    var id := req.requestId;
    var es := Entries(store, id);
    var written := store.(entries := store.entries[id := es + [Entry(Hash(req), status)]]);
    if !durable then (store, None)
    else if es != [] && es[|es| - 1].payloadHash != Hash(req) then (store, Some(ErrRequestPayloadConflict))
    else if o == FailsAfterWriting then (written, Some(ErrUpstream))
    else if o == Fails then (store, Some(ErrUpstream))
    else (written, None)
  }

  // ---- One submit call ------------------------------------------------------------------------

  /** Where a call stands. From ToCommand to Finish it owns its request id. */
  datatype Pc =
    | Begin | Waiting(done: Channel)
    | ToCommand | LoadEntry | LoadAction | ReplayObserve | ReplayRecord
    | RecordReceived | HandleCommand | RecordCommitted | Observe | RecordApplied | Finish
    | Returned

  datatype Call = Call(
    req: SubmitRequest, pc: Pc, owned: Option<Channel>, actor: bool, observer: bool,
    response: SubmitResponse, cacheRequest: bool, cacheResponse: bool, err: Option<Error>)

  function NewCall(req: SubmitRequest): Call {
    Call(req, Begin, None, false, false, NO_RESPONSE, false, false, None)
  }

  predicate OwnedPc(pc: Pc) {
    !pc.Begin? && !pc.Waiting? && !pc.Returned?
  }

  predicate Owns(c: Call) {
    OwnedPc(c.pc)
  }

  /** return SubmitResponse{}, err: the deferred finish still runs. */
  function Abort(c: Call, err: Error): Call {
    c.(pc := Finish, response := NO_RESPONSE, cacheResponse := false, err := Some(err))
  }

  function AfterLoads(c: Call): Call {
    if c.actor then c.(pc := RecordReceived) else Abort(c, ErrUnknownTable)
  }

  function ReplayNext(c: Call): Call {
    c.(pc := if !c.observer || c.actor then ReplayRecord else Finish)
  }

  function LoadEntryStep(c: Call, store: Store, durable: bool, o: Outcome): Call {
    var es := Entries(store, c.req.requestId);
    if !durable then AfterLoads(c)
    else if o == Fails then Abort(c, ErrUpstream)
    else if es == [] then AfterLoads(c)
    else if es[|es| - 1].payloadHash != Hash(c.req) then Abort(c, ErrRequestPayloadConflict)
    else c.(pc := LoadAction)
  }

  function LoadActionStep(c: Call, store: Store, o: Outcome): Call {
    if o == Fails then Abort(c, ErrUpstream)
    else if c.req.requestId !in store.actions then AfterLoads(c)
    else
      var found := c.(response := store.actions[c.req.requestId], cacheRequest := true, cacheResponse := true);
      if c.observer && c.actor then found.(pc := ReplayObserve) else ReplayNext(found)
  }

  function RecordStep(c: Call, store: Store, durable: bool, status: Status, o: Outcome, next: Call): (Call, Store,
                      bool) {
    var (store', err) := Append(store, durable, c.req, status, o);
    (if err.Some? then Abort(c, err.value) else next, store', false)
  }

  function HandleStep(c: Call, store: Store, o: Outcome): (Call, Store, bool) {
    var id := c.req.requestId;
    match o
    case Accepts(a) =>
      (c.(pc := RecordCommitted, response := a), store.(actions := store.actions[id := a]), true)
    case FailsAfterRecording(a) =>
      (Abort(c, ErrUpstream), store.(actions := store.actions[id := a]), false)
    case Rejects(stale) => (Abort(c, if stale then ErrStateSeqMismatch else ErrUpstream), store, false)
    case _ => (Abort(c, ErrUpstream), store, false)
  }

  /** One step of an owned submit: the call, the durable store, and whether Handle succeeded. */
  function OwnedStep(c: Call, store: Store, durable: bool, o: Outcome): (Call, Store, bool) {
    match c.pc
    case ToCommand => (if Blank(c.req.actionType) then Abort(c, ErrBadRequest) else c.(pc := LoadEntry), store, false)
    case LoadEntry => (LoadEntryStep(c, store, durable, o), store, false)
    case LoadAction => (LoadActionStep(c, store, o), store, false)
    case ReplayObserve => (if o == Fails then Abort(c, ErrUpstream) else ReplayNext(c), store, false)
    case ReplayRecord => RecordStep(c, store, durable, Applied, o, c.(pc := Finish))
    case RecordReceived => RecordStep(c, store, durable, Received, o, c.(pc := HandleCommand, cacheRequest := true))
    case HandleCommand => HandleStep(c, store, o)
    case RecordCommitted =>
      RecordStep(c, store, durable, Committed, o, c.(pc := if c.observer then Observe else RecordApplied))
    case Observe => (if o == Fails then Abort(c, ErrUpstream) else c.(pc := RecordApplied), store, false)
    case RecordApplied => RecordStep(c, store, durable, Applied, o, c.(pc := Finish, cacheResponse := true))
    case _ => (c, store, false)
  }

  /** The contract of the actor's Handle: an action record carries a non-empty event id. */
  predicate Honest(o: Outcome) {
    (o.Accepts? || o.FailsAfterRecording? ==> o.action.resultEventId != "")
  }

  /** How far an owned call is from its finish. */
  function Left(pc: Pc): nat {
    match pc
    case ToCommand => 9
    case LoadEntry => 8
    case LoadAction => 7
    case ReplayObserve => 2
    case ReplayRecord => 1
    case RecordReceived => 5
    case HandleCommand => 4
    case RecordCommitted => 3
    case Observe => 2
    case RecordApplied => 1
    case _ => 0
  }

  /** An owned call moved towards its finish; its fixed fields stayed. */
  predicate Moves(c: Call, c': Call) {
    Owns(c') && Left(c'.pc) < Left(c.pc) && c'.req == c.req && c'.owned == c.owned && c'.actor == c.actor
    && c'.observer == c.observer
  }

  lemma LoadStepMoves(c: Call, store: Store, durable: bool, o: Outcome)
    requires c.pc.ToCommand? || c.pc.LoadEntry? || c.pc.LoadAction? || c.pc.ReplayObserve?
    ensures Moves(c, OwnedStep(c, store, durable, o).0)
  {
    hide Hash, Blank, Append, Entries;
  }

  lemma RecordStepMoves(c: Call, store: Store, durable: bool, o: Outcome)
    requires c.pc.ReplayRecord? || c.pc.RecordReceived? || c.pc.RecordCommitted? || c.pc.RecordApplied?
    ensures Moves(c, OwnedStep(c, store, durable, o).0)
  {
  }

  lemma HandleStepMoves(c: Call, store: Store, durable: bool, o: Outcome)
    requires c.pc.HandleCommand? || c.pc.Observe?
    ensures Moves(c, OwnedStep(c, store, durable, o).0)
  {
  }

  lemma OwnedStepMoves(c: Call, store: Store, durable: bool, o: Outcome)
    requires Owns(c) && c.pc != Finish
    ensures Moves(c, OwnedStep(c, store, durable, o).0)
  {
    if c.pc.ToCommand? || c.pc.LoadEntry? || c.pc.LoadAction? || c.pc.ReplayObserve? {
      LoadStepMoves(c, store, durable, o);
    } else if c.pc.HandleCommand? || c.pc.Observe? {
      HandleStepMoves(c, store, durable, o);
    } else {
      RecordStepMoves(c, store, durable, o);
    }
  }

  /** An owned submit run without interruption; script gives the outcome of each outside call. */
  function RunOwned(c: Call, store: Store, durable: bool, script: Pc -> Outcome): (r: (Call, Store))
    ensures Owns(c) ==> r.0.pc == Finish
    decreases Left(c.pc)
  {
    if Left(c.pc) == 0 then (c, store)
    else
      OwnedStepMoves(c, store, durable, script(c.pc));
      var (c', store', handled) := OwnedStep(c, store, durable, script(c.pc));
      RunOwned(c', store', durable, script)
  }

  lemma RunFrom(c: Call, store: Store, durable: bool, script: Pc -> Outcome)
    requires Owns(c) && c.pc != Finish
    ensures var (c', store', handled) := OwnedStep(c, store, durable, script(c.pc));
            && RunOwned(c, store, durable, script) == RunOwned(c', store', durable, script)
            && (c'.pc == Finish ==> RunOwned(c, store, durable, script) == (c', store'))
  {
  }

  lemma RunDone(c: Call, store: Store, durable: bool, script: Pc -> Outcome)
    requires c.pc == Finish
    ensures RunOwned(c, store, durable, script) == (c, store)
  {
  }

  /** The durable ledger as the gateway's code calls it. */
  class LedgerStore {
    var entries: map<RequestId, seq<Entry>>
    var actions: map<RequestId, SubmitResponse>

    ghost function View(): Store
      reads this
    {
      Store(entries, actions)
    }

    method AppendEntry(req: SubmitRequest, status: Status, o: Outcome) returns (err: Option<Error>)
      modifies this
      ensures (View(), err) == Append(old(View()), true, req, status, o)
    {
      var id := req.requestId;
      var es := if id in entries then entries[id] else [];
      if es != [] && es[|es| - 1].payloadHash != Hash(req) {
        return Some(ErrRequestPayloadConflict);
      }
      if o != Fails {
        entries := entries[id := es + [Entry(Hash(req), status)]];
      }
      return if o == Fails || o == FailsAfterWriting then Some(ErrUpstream) else None;
    }

    method Handle(req: SubmitRequest, o: Outcome) returns (response: SubmitResponse, err: Option<Error>)
      modifies this
      ensures View() == old(View()).(actions := if o.Accepts? || o.FailsAfterRecording?
                                               then old(actions)[req.requestId := o.action] else old(actions))
      ensures o.Accepts? ==> response == o.action && err == None
      ensures o.Rejects? ==> err == Some(if o.stale then ErrStateSeqMismatch else ErrUpstream)
      ensures !o.Accepts? && !o.Rejects? ==> err == Some(ErrUpstream)
    {
      if o.Accepts? || o.FailsAfterRecording? {
        actions := actions[req.requestId := o.action];
      }
      if o.Accepts? {
        return o.action, None;
      }
      return NO_RESPONSE, Some(if o.Rejects? && o.stale then ErrStateSeqMismatch else ErrUpstream);
    }
  }

  class Gateway {
    var actors: set<string>
    var observer: bool
    var responses: map<RequestId, SubmitResponse>
    var ledger: map<RequestId, SubmitRequest>
    var inFlight: map<RequestId, InFlight>
    var closes: map<Channel, nat>
    var nextChannel: Channel
    const isDurable: bool
    const store: LedgerStore

    ghost function View(): Memory
      reads this
    {
      Memory(actors, observer, responses, ledger, inFlight, closes, nextChannel)
    }

    constructor (actors: set<string>, observer: bool, isDurable: bool, store: LedgerStore)
      ensures View() == EmptyMemory(actors, observer)
      ensures this.isDurable == isDurable && this.store == store
    {
      this.actors, this.observer, this.isDurable, this.store := actors, observer, isDurable, store;
      responses, ledger, inFlight, closes, nextChannel := map[], map[], map[], map[], 0;
    }

    method RegisterActor(tableId: string)
      modifies this
      ensures View() == old(View()).(actors := old(actors) + {tableId})
    {
      actors := actors + {tableId};
    }

    method RemoveActor(tableId: string)
      modifies this
      ensures View() == old(View()).(actors := old(actors) - {tableId})
    {
      actors := actors - {tableId};
    }

    method SetObserver(observer: bool)
      modifies this
      ensures View() == old(View()).(observer := observer)
    {
      this.observer := observer;
    }

    method Begin(req: SubmitRequest) returns (b: Begun)
      modifies this
      ensures (View(), b) == BeginSubmit(old(View()), req)
      ensures b.err.Some? ==> b.err == Some(ErrRequestPayloadConflict)
      ensures
        var id := req.requestId;
        b.err.Some? <==>
          || (id in old(ledger) && !SamePayload(old(ledger)[id], req))
          || (id !in old(responses) && id in old(inFlight)
              && forall owner | Hash(owner) == old(inFlight)[id].payloadHash :: !SamePayload(owner, req))
    {
      hide SamePayload;
      forall r ensures Hash(r) == Hash(req) <==> SamePayload(r, req) {
        HashTells(r, req);
      }
      if req.requestId in inFlight {
        Hashed(inFlight[req.requestId].payloadHash);
      }
      var id := req.requestId;
      if id in ledger {
        if Hash(ledger[id]) != Hash(req) {
          return Begun(NO_RESPONSE, None, false, false, Some(ErrRequestPayloadConflict));
        }
      }
      if id in responses {
        return Begun(responses[id], None, false, false, None);
      }
      if id in inFlight {
        if inFlight[id].payloadHash != Hash(req) {
          return Begun(NO_RESPONSE, None, false, false, Some(ErrRequestPayloadConflict));
        }
        return Begun(NO_RESPONSE, Some(inFlight[id].done), false, false, None);
      }
      var ch := nextChannel;
      nextChannel := nextChannel + 1;
      closes := closes[ch := 0];
      inFlight := inFlight[id := InFlight(Hash(req), ch)];
      return Begun(NO_RESPONSE, None, req.tableId in actors, observer, None);
    }

    method Finish(req: SubmitRequest, response: SubmitResponse, cacheRequest: bool, cacheResponse: bool)
      modifies this
      ensures View() == FinishSubmit(old(View()), req, response, cacheRequest, cacheResponse)
    {
      var id := req.requestId;
      if cacheRequest {
        ledger := ledger[id := req];
      }
      if cacheResponse {
        responses := responses[id := response];
      }
      if id in inFlight {
        var ch := inFlight[id].done;
        closes := closes[ch := (if ch in closes then closes[ch] else 0) + 1];
        inFlight := inFlight - {id};
      }
    }

    method RecordSubmission(req: SubmitRequest, status: Status, o: Outcome) returns (err: Option<Error>)
      modifies store
      ensures (store.View(), err) == Append(old(store.View()), isDurable, req, status, o)
    {
      if !isDurable {
        return None;
      }
      err := store.AppendEntry(req, status, o);
    }

    /** The body of an owned submit, up to its deferred finish, is exactly the protocol's steps. */
    method OwnedBody(c: Call, script: Pc -> Outcome) returns (r: Call)
      requires c.pc == ToCommand
      modifies store
      ensures (r, store.View()) == RunOwned(c, old(store.View()), isDurable, script)
    {
      hide RunOwned, Append, Hash, Blank;
      var id := c.req.requestId;
      ghost var at := store.View();
      RunFrom(c, at, isDurable, script);
      if Blank(c.req.actionType) {
        return Abort(c, ErrBadRequest);
      }
      r := c.(pc := LoadEntry);
      RunFrom(r, at, isDurable, script);
      if isDurable {
        if script(LoadEntry) == Fails {
          return Abort(r, ErrUpstream);
        }
        var es := if id in store.entries then store.entries[id] else [];
        if es != [] {
          if es[|es| - 1].payloadHash != Hash(c.req) {
            return Abort(r, ErrRequestPayloadConflict);
          }
          r := r.(pc := LoadAction);
          RunFrom(r, at, isDurable, script);
          if script(LoadAction) == Fails {
            return Abort(r, ErrUpstream);
          }
          if id in store.actions {
            r := r.(response := store.actions[id], cacheRequest := true, cacheResponse := true);
            r := FinalizeDurableReplay(r, script);
            return r;
          }
        }
      }
      r := HandleAndRecord(r, script);
    }

    /** The part of the body after the durable loads found no action record. */
    method HandleAndRecord(c: Call, script: Pc -> Outcome) returns (r: Call)
      modifies store
      ensures (r, store.View()) == RunOwned(AfterLoads(c), old(store.View()), isDurable, script)
    {
      hide RunOwned, Append, Hash;
      if !c.actor {
        RunDone(Abort(c, ErrUnknownTable), store.View(), isDurable, script);
        return Abort(c, ErrUnknownTable);
      }
      r := c.(pc := RecordReceived);
      RunFrom(r, store.View(), isDurable, script);
      var err := RecordSubmission(c.req, Received, script(RecordReceived));
      if err.Some? {
        return Abort(r, err.value);
      }
      r := r.(pc := HandleCommand, cacheRequest := true);
      RunFrom(r, store.View(), isDurable, script);
      var response, failed := store.Handle(c.req, script(HandleCommand));
      if failed.Some? {
        return Abort(r, failed.value);
      }
      r := r.(pc := RecordCommitted, response := response);
      r := RecordOutcome(r, script);
    }

    /** The part of the body after Handle succeeded. */
    method RecordOutcome(c: Call, script: Pc -> Outcome) returns (r: Call)
      requires c.pc == RecordCommitted
      modifies store
      ensures (r, store.View()) == RunOwned(c, old(store.View()), isDurable, script)
    {
      hide RunOwned, Append, Hash;
      r := c;
      RunFrom(r, store.View(), isDurable, script);
      var err := RecordSubmission(c.req, Committed, script(RecordCommitted));
      if err.Some? {
        return Abort(r, err.value);
      }
      if c.observer {
        r := r.(pc := Observe);
        RunFrom(r, store.View(), isDurable, script);
        if script(Observe) == Fails {
          return Abort(r, ErrUpstream);
        }
      }
      r := r.(pc := RecordApplied);
      RunFrom(r, store.View(), isDurable, script);
      err := RecordSubmission(c.req, Applied, script(RecordApplied));
      if err.Some? {
        return Abort(r, err.value);
      }
      r := r.(pc := Pc.Finish, cacheResponse := true);
    }

    method FinalizeDurableReplay(c: Call, script: Pc -> Outcome) returns (r: Call)
      modifies store
      ensures (r, store.View()) ==
              RunOwned(if c.observer && c.actor then c.(pc := ReplayObserve) else ReplayNext(c),
                       old(store.View()), isDurable, script)
    {
      r := c;
      if c.observer && c.actor {
        r := c.(pc := ReplayObserve);
        RunFrom(r, store.View(), isDurable, script);
        if script(ReplayObserve) == Fails {
          return Abort(r, ErrUpstream);
        }
      }
      if !c.observer || c.actor {
        r := c.(pc := ReplayRecord);
        RunFrom(r, store.View(), isDurable, script);
        var err := RecordSubmission(c.req, Applied, script(ReplayRecord));
        if err.Some? {
          return Abort(r, err.value);
        }
      }
      r := r.(pc := Pc.Finish);
    }

    /** submitOwned: the body, then the deferred finish whatever the body returned. */
    method SubmitOwned(c: Call, script: Pc -> Outcome) returns (r: Call)
      requires c.pc == ToCommand
      modifies this, store
      ensures (r, store.View()) == RunOwned(c, old(store.View()), isDurable, script)
      ensures View() == FinishSubmit(old(View()), c.req, r.response, r.cacheRequest, r.cacheResponse)
    {
      r := OwnedBody(c, script);
      Finish(c.req, r.response, r.cacheRequest, r.cacheResponse);
    }
  }
}
