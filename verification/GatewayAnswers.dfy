/** What a submit is answered, in the terms of its caller: when its payload conflicts, whose answers are
    given at all, and which failure becomes which error. */
module GatewayAnswers {
  import opened Options
  import opened Gateway
  import opened GatewayProtocol
  import opened GatewayReplay

  // ---- The opening section -------------------------------------------------------------------------------

  /** A request is cached under the id that asked for something else, or its live owner asks for something else. */
  ghost predicate Conflicts(s: State, req: SubmitRequest) {
    || (req.requestId in s.memory.ledger && !SamePayload(s.memory.ledger[req.requestId], req))
    || exists u :: OwnedBy(s, u, req.requestId) && !SamePayload(s.calls[u].req, req)
  }

  /** In every reachable state a call that begins is refused for its payload exactly if a cached request or the
      live owner of its id asked for something else; otherwise it gets the cached answer, waits for the owner,
      or becomes the owner. */
  lemma BeginAnswersIff(durable: bool, actors: set<string>, observer: bool, es: seq<Event>, t: CallId)
    requires Allowed(Init(durable, actors, observer), es)
    requires Enabled(Exec(Init(durable, actors, observer), es), BeginCall(t))
    ensures
      var s := Exec(Init(durable, actors, observer), es);
      var req, c := s.calls[t].req, BeginNext(s, t).calls[t];
      && (Conflicts(s, req) ==> c.pc.Returned? && c.err == Some(ErrRequestPayloadConflict))
      && (!Conflicts(s, req) ==>
            if req.requestId in s.memory.responses then
              c.pc.Returned? && c.err.None? && c.response == s.memory.responses[req.requestId]
            else if exists u :: OwnedBy(s, u, req.requestId) then c.pc.Waiting? && c.err.None?
            else c.pc.ToCommand? && c.owned.Some? && c.err.None?
                 && c.actor == (req.tableId in s.memory.actors) && c.observer == s.memory.observer)
  {
    var s := Exec(Init(durable, actors, observer), es);
    RunKeepsInv(Init(durable, actors, observer), es);
    BeginIn(s, t);
  }

  lemma BeginIn(s: State, t: CallId)
    requires TablesFit(s) && Enabled(s, BeginCall(t))
    ensures
      var req, c := s.calls[t].req, BeginNext(s, t).calls[t];
      && (Conflicts(s, req) ==> c.pc.Returned? && c.err == Some(ErrRequestPayloadConflict))
      && (!Conflicts(s, req) ==>
            if req.requestId in s.memory.responses then
              c.pc.Returned? && c.err.None? && c.response == s.memory.responses[req.requestId]
            else if exists u :: OwnedBy(s, u, req.requestId) then c.pc.Waiting? && c.err.None?
            else c.pc.ToCommand? && c.owned.Some? && c.err.None?
                 && c.actor == (req.tableId in s.memory.actors) && c.observer == s.memory.observer)
  {
    var req := s.calls[t].req;
    OwnerTells(s, req);
    CalmFlags(s, t);
    if req.requestId in s.memory.ledger {
      HashTells(s.memory.ledger[req.requestId], req);
    }
    hide TablesFit, SamePayload, Hash, Owns;
    BeginByHash(s.memory, s.calls[t]);
  }

  lemma CalmFlags(s: State, t: CallId)
    requires TablesFit(s) && t in s.calls && s.calls[t].pc.Begin?
    ensures s.calls[t].err.None? && CacheFits(s.memory)
  {
    assert CallFits(s.memory, s.calls[t]);
  }

  /** What is in flight under an id is what its one live owner asked for. */
  lemma OwnerTells(s: State, req: SubmitRequest)
    requires TablesFit(s)
    ensures
      var id := req.requestId;
      && ((exists u :: OwnedBy(s, u, id)) <==> id in s.memory.inFlight)
      && (id in s.memory.inFlight ==>
            && id !in s.memory.responses
            && ((exists u :: OwnedBy(s, u, id) && !SamePayload(s.calls[u].req, req))
                <==> s.memory.inFlight[id].payloadHash != Hash(req)))
  {
    hide ChannelsFit, CacheFits, ActionsFit, WaiterFits, Flags, SamePayload, Hash;
    var id := req.requestId;
    forall u | OwnedBy(s, u, id)
      ensures id in s.memory.inFlight && id !in s.memory.responses
      ensures SamePayload(s.calls[u].req, req) <==> s.memory.inFlight[id].payloadHash == Hash(req)
    {
      assert CallFits(s.memory, s.calls[u]);
      HashTells(s.calls[u].req, req);
    }
  }

  lemma BeginByHash(m: Memory, c: Call)
    requires CacheFits(m) && c.pc.Begin? && c.err.None?
    ensures
      var (m', b) := BeginSubmit(m, c.req);
      var c' := AfterBegin(c, b, if m'.nextChannel != m.nextChannel then Some(m.nextChannel) else None);
      var id := c.req.requestId;
      if (id in m.ledger && Hash(m.ledger[id]) != Hash(c.req))
         || (id !in m.responses && id in m.inFlight && m.inFlight[id].payloadHash != Hash(c.req)) then
        c'.pc.Returned? && c'.err == Some(ErrRequestPayloadConflict)
      else if id in m.responses then c'.pc.Returned? && c'.err.None? && c'.response == m.responses[id]
      else if id in m.inFlight then c'.pc.Waiting? && c'.err.None?
      else c'.pc.ToCommand? && c'.owned.Some? && c'.err.None? && c'.actor == (c.req.tableId in m.actors)
           && c'.observer == m.observer
  {
    hide Hash;
  }

  /** An arriving call is turned away without a context, or without its miner's signature. */
  lemma ArrivalAnswers(s: State, t: CallId, req: SubmitRequest, hasContext: bool)
    requires Enabled(s, Arrive(t, req, hasContext))
    ensures
      var c := Next(s, Arrive(t, req, hasContext)).calls[t];
      && c.req == req
      && if !hasContext then c.pc.Returned? && c.err == Some(ErrBadRequest)
         else if req.signature != "sig:" + req.minerId then c.pc.Returned? && c.err == Some(ErrInvalidSignature)
         else c.pc.Begin? && c.err.None?
  {
  }

  function TablesThen(tables: set<string>, e: Event): set<string> {
    match e
    case Register(table) => tables + {table}
    case Remove(table) => tables - {table}
    case Restart(registered, _) => registered
    case _ => tables
  }

  function ObserverThen(observer: bool, e: Event): bool {
    match e
    case Watch(watched) => watched
    case Restart(_, watched) => watched
    case _ => observer
  }

  /** The tables registered and not removed since, and whether an observer is set, after a run. */
  function TablesAfter(tables: set<string>, es: seq<Event>): set<string>
    decreases |es|
  {
    if es == [] then tables else TablesAfter(TablesThen(tables, es[0]), es[1..])
  }

  function ObserverAfter(observer: bool, es: seq<Event>): bool
    decreases |es|
  {
    if es == [] then observer else ObserverAfter(ObserverThen(observer, es[0]), es[1..])
  }

  /** A command finds exactly the tables registered and not removed since, and the observer last set. */
  lemma {:induction false} KnownTables(s: State, es: seq<Event>)
    requires Allowed(s, es)
    ensures Exec(s, es).memory.actors == TablesAfter(s.memory.actors, es)
    ensures Exec(s, es).memory.observer == ObserverAfter(s.memory.observer, es)
    decreases |es|
  {
    if es != [] {
      EventTables(s, es[0]);
      KnownTables(Next(s, es[0]), es[1..]);
      hide Next;
    }
  }

  lemma EventTables(s: State, e: Event)
    requires Enabled(s, e)
    ensures Next(s, e).memory.actors == TablesThen(s.memory.actors, e)
    ensures Next(s, e).memory.observer == ObserverThen(s.memory.observer, e)
  {
  }

  // ---- Whose requests are answered -----------------------------------------------------------------------

  /** White space, by code point: tab to carriage return, space, and the spaces beyond ASCII. */
  predicate White(c: char) {
    c as int in {9, 10, 11, 12, 13, 32, 133, 160, 5760, 8232, 8233, 8239, 8287, 12288}
    || 8192 <= c as int <= 8202
  }

  lemma WhiteIs(c: char)
    ensures White(c) == IsSpace(c)
  {
  }

  lemma BlankIsWhite(s: string)
    ensures Blank(s) == forall c :: c in s ==> White(c)
  {
    hide White, IsSpace;
    forall c ensures White(c) == IsSpace(c) {
      WhiteIs(c);
    }
  }

  /** The request carries its miner's signature and asks for something. */
  predicate Proper(req: SubmitRequest) {
    req.signature == "sig:" + req.minerId && !Blank(req.actionType)
  }

  /** Signatures are checked on arrival, the action type before anything leaves the gateway. */
  predicate CallChecked(c: Call) {
    && (!c.pc.Returned? ==> c.req.signature == "sig:" + c.req.minerId)
    && (Owns(c) && !c.pc.ToCommand? && !c.pc.Finish? ==> !Blank(c.req.actionType))
    && (c.cacheRequest ==> !Blank(c.req.actionType))
    && (c.cacheResponse ==> c.cacheRequest) && (c.pc.Finish? && c.err.None? ==> c.cacheResponse)
  }

  ghost predicate Checked(s: State) {
    && (forall t :: t in s.calls ==> CallChecked(s.calls[t]))
    && (forall id :: id in s.memory.ledger ==> !Blank(s.memory.ledger[id].actionType))
    && (forall k :: 0 <= k < |s.answers| ==> Proper(s.answers[k].req))
  }

  lemma StepKeepsChecked(s: State, e: Event)
    requires Checked(s) && TablesFit(s) && Enabled(s, e)
    ensures Checked(Next(s, e))
  {
    hide Blank, OwnersFit, ChannelsFit, ActionsFit, Checked, AdvanceNext, BeginNext, FinishNext;
    match e
    case Advance(t, o) => AdvanceKeepsChecked(s, t, o);
    case BeginCall(t) => BeginChecked(s, t);
    case FinishCall(t) => FinishChecked(s, t);
    case _ => OtherChecked(s, e);
  }

  lemma AdvanceKeepsChecked(s: State, t: CallId, o: Outcome)
    requires Checked(s) && TablesFit(s) && Enabled(s, Advance(t, o))
    ensures Checked(AdvanceNext(s, t, o))
  {
    hide Blank, OwnedStep, OwnersFit, ChannelsFit, ActionsFit, CacheFits, Owns;
    var c := s.calls[t];
    assert CallFits(s.memory, c) && CallChecked(c);
    hide TablesFit, CallChecked;
    AdvanceChecked(c, s.store, s.durable, o);
    hide Flags, CallFits;
  }

  lemma OtherChecked(s: State, e: Event)
    requires Checked(s) && Enabled(s, e) && !e.Advance? && !e.BeginCall? && !e.FinishCall?
    ensures Checked(Next(s, e))
  {
    hide Blank;
  }

  lemma AdvanceChecked(c: Call, store: Store, durable: bool, o: Outcome)
    requires CallChecked(c) && Owns(c) && !c.pc.Finish? && Flags(c)
    ensures CallChecked(OwnedStep(c, store, durable, o).0)
  {
    if c.pc.ToCommand? || c.pc.LoadEntry? || c.pc.LoadAction? || c.pc.ReplayObserve? {
      LoadChecked(c, store, durable, o);
    } else if c.pc.HandleCommand? || c.pc.Observe? {
      HandleChecked(c, store, durable, o);
    } else {
      RecordChecked(c, store, durable, o);
    }
  }

  lemma LoadChecked(c: Call, store: Store, durable: bool, o: Outcome)
    requires CallChecked(c) && Flags(c)
    requires c.pc.ToCommand? || c.pc.LoadEntry? || c.pc.LoadAction? || c.pc.ReplayObserve?
    ensures CallChecked(OwnedStep(c, store, durable, o).0)
  {
    hide Blank, Append, Hash, Entries;
  }

  lemma HandleChecked(c: Call, store: Store, durable: bool, o: Outcome)
    requires CallChecked(c) && Flags(c) && (c.pc.HandleCommand? || c.pc.Observe?)
    ensures CallChecked(OwnedStep(c, store, durable, o).0)
  {
    hide Blank, Append, Hash, Entries;
  }

  lemma RecordChecked(c: Call, store: Store, durable: bool, o: Outcome)
    requires CallChecked(c) && Flags(c)
    requires c.pc.ReplayRecord? || c.pc.RecordReceived? || c.pc.RecordCommitted? || c.pc.RecordApplied?
    ensures CallChecked(OwnedStep(c, store, durable, o).0)
  {
    hide Blank, Append, Hash, Entries;
  }

  lemma BeginChecked(s: State, t: CallId)
    requires Checked(s) && CacheFits(s.memory) && Enabled(s, BeginCall(t)) && Flags(s.calls[t])
    ensures Checked(BeginNext(s, t))
  {
    assert CallChecked(s.calls[t]);
    hide Blank, CacheFits, Hash, Flags, BeginSubmit;
    BegunChecked(s.memory, s.calls[t]);
  }

  lemma BegunChecked(m: Memory, c: Call)
    requires CacheFits(m) && c.pc.Begin? && Flags(c) && CallChecked(c)
    requires forall id :: id in m.ledger ==> !Blank(m.ledger[id].actionType)
    ensures
      var (m', b) := BeginSubmit(m, c.req);
      var made := if m'.nextChannel != m.nextChannel then Some(m.nextChannel) else None;
      && m'.ledger == m.ledger && CallChecked(AfterBegin(c, b, made))
      && (b.err.None? && b.response.resultEventId != "" ==> Proper(c.req))
  {
    if c.req.requestId in m.ledger {
      HashTells(m.ledger[c.req.requestId], c.req);
    }
    hide Blank, Hash;
  }

  lemma FinishChecked(s: State, t: CallId)
    requires Checked(s) && Enabled(s, FinishCall(t))
    ensures Checked(FinishNext(s, t))
  {
    assert CallChecked(s.calls[t]);
    FinishedLedger(s.memory, s.calls[t]);
    hide Blank, FinishSubmit;
  }

  lemma FinishedLedger(m: Memory, c: Call)
    requires CallChecked(c) && forall id :: id in m.ledger ==> !Blank(m.ledger[id].actionType)
    ensures
      var m' := FinishSubmit(m, c.req, c.response, c.cacheRequest, c.cacheResponse);
      forall id :: id in m'.ledger ==> !Blank(m'.ledger[id].actionType)
  {
    hide Blank;
  }

  lemma {:induction false} RunKeepsChecked(s: State, es: seq<Event>)
    requires Checked(s) && Inv(s) && Allowed(s, es)
    ensures Checked(Exec(s, es))
    decreases |es|
  {
    hide TablesFit, ReplayFits, Checked, Next;
    if es != [] {
      StepKeepsInv(s, es[0]);
      StepKeepsChecked(s, es[0]);
      RunKeepsChecked(Next(s, es[0]), es[1..]);
    }
  }

  /** Over every run, with or without a ledger, only requests that carry their miner's signature and a
      nonblank action are answered with success. */
  lemma OnlyProperAnswered(durable: bool, actors: set<string>, observer: bool, es: seq<Event>, k: nat)
    requires Allowed(Init(durable, actors, observer), es)
    requires k < |Exec(Init(durable, actors, observer), es).answers|
    ensures
      var req := Exec(Init(durable, actors, observer), es).answers[k].req;
      req.signature == "sig:" + req.minerId && exists c :: c in req.actionType && !White(c)
  {
    RunKeepsChecked(Init(durable, actors, observer), es);
    var req := Exec(Init(durable, actors, observer), es).answers[k].req;
    hide White, IsSpace, Exec, Allowed;
    BlankIsWhite(req.actionType);
  }

  // ---- Which failure becomes which error -----------------------------------------------------------------

  predicate BadWrite(o: Outcome) {
    o == Fails || o == FailsAfterWriting
  }

  /** What stops a submit whose id the ledger does not know, in the order in which things can go wrong. */
  function Stopped(durable: bool, actor: bool, observer: bool, blank: bool, script: Pc -> Outcome): Option<Error> {
    if blank then Some(ErrBadRequest)
    else if durable && script(LoadEntry) == Fails then Some(ErrUpstream)
    else if !actor then Some(ErrUnknownTable)
    else if durable && BadWrite(script(RecordReceived)) then Some(ErrUpstream)
    else HandledOrStopped(durable, observer, script)
  }

  function HandledOrStopped(durable: bool, observer: bool, script: Pc -> Outcome): Option<Error> {
    if script(HandleCommand) == Rejects(true) then Some(ErrStateSeqMismatch)
    else if !script(HandleCommand).Accepts? then Some(ErrUpstream)
    else if durable && BadWrite(script(RecordCommitted)) then Some(ErrUpstream)
    else if observer && script(Observe) == Fails then Some(ErrUpstream)
    else if durable && BadWrite(script(RecordApplied)) then Some(ErrUpstream)
    else None
  }

  /** The call ended with that error or with the actor's answer; only an answer is cached as one. */
  predicate EndsAs(r: Call, err: Option<Error>, script: Pc -> Outcome) {
    && r.pc.Finish? && r.err == err && r.cacheResponse == err.None?
    && r.response == if err.None? && script(HandleCommand).Accepts? then script(HandleCommand).action
                     else SubmitResponse("", 0)
  }

  /** The entries of the id, if any, are of this request's payload. */
  predicate Own(store: Store, req: SubmitRequest) {
    forall k :: 0 <= k < |Entries(store, req.requestId)| ==> Entries(store, req.requestId)[k].payloadHash == Hash(req)
  }

  lemma WriteKeepsOwn(store: Store, durable: bool, req: SubmitRequest, status: Status, o: Outcome)
    requires durable ==> Own(store, req)
    ensures
      var (store', err) := Append(store, durable, req, status, o);
      && (durable ==> Own(store', req)) && (err.Some? <==> durable && BadWrite(o))
      && (err.Some? ==> err == Some(ErrUpstream))
  {
  }

  lemma CommittedEnds(c: Call, store: Store, durable: bool, script: Pc -> Outcome)
    requires c.pc.RecordCommitted? && c.err.None? && !c.cacheResponse && (durable ==> Own(store, c.req))
    requires script(HandleCommand).Accepts? && c.response == script(HandleCommand).action
    ensures var r := RunOwned(c, store, durable, script).0;
            EndsAs(r, HandledOrStopped(durable, c.observer, script), script) && r.cacheRequest == c.cacheRequest
  {
    hide RunOwned, Append, Own;
    RunFrom(c, store, durable, script);
    WriteKeepsOwn(store, durable, c.req, Committed, script(RecordCommitted));
    var store' := Append(store, durable, c.req, Committed, script(RecordCommitted)).0;
    if c.observer {
      RunFrom(c.(pc := Observe), store', durable, script);
    }
    hide BadWrite;
    AppliedEnds(c.(pc := RecordApplied), store', durable, script);
  }

  lemma AppliedEnds(c: Call, store: Store, durable: bool, script: Pc -> Outcome)
    requires c.pc.RecordApplied? && c.err.None? && !c.cacheResponse && (durable ==> Own(store, c.req))
    ensures
      var r := RunOwned(c, store, durable, script).0;
      && r.pc.Finish? && r.response == (if r.err.None? then c.response else NO_RESPONSE)
      && r.err == (if durable && BadWrite(script(RecordApplied)) then Some(ErrUpstream) else None)
      && r.cacheResponse == r.err.None? && r.cacheRequest == c.cacheRequest
  {
    hide RunOwned, Append, Own;
    RunFrom(c, store, durable, script);
    WriteKeepsOwn(store, durable, c.req, Applied, script(RecordApplied));
  }

  lemma HandleEnds(c: Call, store: Store, durable: bool, script: Pc -> Outcome)
    requires c.pc.HandleCommand? && c.err.None? && !c.cacheResponse && (durable ==> Own(store, c.req))
    ensures var r := RunOwned(c, store, durable, script).0;
            EndsAs(r, HandledOrStopped(durable, c.observer, script), script) && r.cacheRequest == c.cacheRequest
  {
    hide RunOwned, Own, Append, Hash, Blank;
    RunFrom(c, store, durable, script);
    if script(HandleCommand).Accepts? {
      var action := script(HandleCommand).action;
      var store' := store.(actions := store.actions[c.req.requestId := action]);
      SameEntriesOwn(store, store', c.req);
      hide HandledOrStopped, EndsAs;
      CommittedEnds(c.(pc := RecordCommitted, response := action), store', durable, script);
    }
  }

  lemma SameEntriesOwn(store: Store, store': Store, req: SubmitRequest)
    requires store'.entries == store.entries
    ensures Own(store', req) == Own(store, req)
  {
    assert Entries(store', req.requestId) == Entries(store, req.requestId);
  }

  /** Exactly which error a submit of an id unknown to the ledger ends with, for every outcome of every call
      out of the gateway, with or without a ledger. */
  lemma FirstSubmitAnswers(c: Call, store: Store, durable: bool, script: Pc -> Outcome)
    requires c == NewCall(c.req).(pc := ToCommand, owned := c.owned, actor := c.actor, observer := c.observer)
    requires durable ==> Entries(store, c.req.requestId) == []
    ensures var r := RunOwned(c, store, durable, script).0;
            EndsAs(r, Stopped(durable, c.actor, c.observer, forall x :: x in c.req.actionType ==> White(x), script),
                   script)
  {
    BlankIsWhite(c.req.actionType);
    hide Blank, Append, RunOwned, HandledOrStopped;
    RunFrom(c, store, durable, script);
    if !Blank(c.req.actionType) {
      RunFrom(c.(pc := LoadEntry), store, durable, script);
      if !(durable && script(LoadEntry) == Fails) {
        if c.actor {
          ReceivedEnds(c.(pc := RecordReceived), store, durable, script);
        } else {
          RunDone(Abort(c.(pc := LoadEntry), ErrUnknownTable), store, durable, script);
        }
      }
    }
  }

  lemma ReceivedEnds(c: Call, store: Store, durable: bool, script: Pc -> Outcome)
    requires c.pc.RecordReceived? && c.err.None? && !c.cacheResponse && (durable ==> Own(store, c.req))
    ensures var r := RunOwned(c, store, durable, script).0;
            EndsAs(r, if durable && BadWrite(script(RecordReceived)) then Some(ErrUpstream)
                      else HandledOrStopped(durable, c.observer, script), script)
  {
    RunFrom(c, store, durable, script);
    if durable {
      WriteKeepsOwn(store, durable, c.req, Received, script(RecordReceived));
    }
    hide RunOwned, HandledOrStopped, Own;
    var store' := Append(store, durable, c.req, Received, script(RecordReceived)).0;
    if !(durable && BadWrite(script(RecordReceived))) {
      HandleEnds(c.(pc := HandleCommand, cacheRequest := true), store', durable, script);
    }
  }
}
