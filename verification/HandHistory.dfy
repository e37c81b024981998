/** Versioned ingest of completed poker hands: the in-memory hot store of poker_mtt_history and the
    repository's store of the same events. */
module HandHistory {
  import opened Options

  const HAND_COMPLETED_SCHEMA_VERSION := "poker_mtt.hand_completed.v1"
  const HAND_COMPLETED_EVENT_TYPE := "poker_mtt.hand_completed"

  // ---- Data --------------------------------------------------------------------------------------------

  /** The identity of a hand; a field is None when its key is missing. */
  datatype Identity = Identity(tournamentId: Option<string>, tableId: Option<string>, handNo: Option<int>,
                               handId: Option<string>)

  /** An event as it arrives; missing texts are empty. */
  datatype Event = Event(schema: string, eventType: string, checksum: string, identity: Identity, version: Option<int>,
                         eventId: string, payload: string, handId: string, tournamentId: string, tableId: string,
                         conflictReason: string, createdAt: Option<int>)

  /** A row of the repository. */
  datatype Row = Row(handId: string, tournamentId: string, tableId: string, handNo: Option<int>,
                     version: Option<int>, checksum: string, eventId: string, payload: string, conflictReason: string,
                     createdAt: Option<int>)

  type Rows = map<string, Row>

  datatype IngestState = Inserted | Duplicate | Conflict | Stale | Updated

  datatype Verdict<T> = Verdict(state: IngestState, event: T, previous: Option<T>, reason: string)

  datatype HandError =
    | InvalidSchema | InvalidEventType | MissingChecksum | MissingIdentity(field: string) | MissingHandId

  const NO_EXISTING := "missing_version_without_existing_event"
  const NO_VERSION := "missing_version_checksum_mismatch"
  const SAME_VERSION := "same_version_checksum_mismatch"

  /** Why an event is not valid, if it is not. */
  function Invalid(e: Event): Option<HandError> {
    if e.schema != "poker_mtt.hand_completed.v1" then Some(InvalidSchema)
    else if e.eventType != "poker_mtt.hand_completed" then Some(InvalidEventType)
    else if e.checksum == "" then Some(MissingChecksum)
    else if e.identity.tournamentId.None? then Some(MissingIdentity("tournament_id"))
    else if e.identity.tableId.None? then Some(MissingIdentity("table_id"))
    else if e.identity.handNo.None? then Some(MissingIdentity("hand_no"))
    else if e.identity.handId.None? then Some(MissingIdentity("hand_id"))
    else None
  }

  predicate Valid(e: Event) {
    Invalid(e).None?
  }

  /** _validate_hand_completed_event */
  method Validate(e: Event) returns (r: Option<HandError>)
    ensures r == Invalid(e)
  {
    if e.schema != HAND_COMPLETED_SCHEMA_VERSION {
      return Some(InvalidSchema);
    }
    if e.eventType != HAND_COMPLETED_EVENT_TYPE {
      return Some(InvalidEventType);
    }
    if e.checksum == "" {
      return Some(MissingChecksum);
    }
    var present := [("tournament_id", e.identity.tournamentId.Some?), ("table_id", e.identity.tableId.Some?),
                    ("hand_no", e.identity.handNo.Some?), ("hand_id", e.identity.handId.Some?)];
    for k := 0 to |present|
      invariant forall i :: 0 <= i < k ==> present[i].1
    {
      if !present[k].1 {
        assert (0 < k ==> present[0].1) && (1 < k ==> present[1].1) && (2 < k ==> present[2].1);
        assert k == 0 || k == 1 || k == 2 || k == 3;
        return Some(MissingIdentity(present[k].0));
      }
    }
    assert present[0].1 && present[1].1 && present[2].1 && present[3].1;
    r := None;
  }

  function HandOf(e: Event): string {
    if e.identity.handId.Some? then e.identity.handId.value else ""
  }

  /** The hand an event counts for, if it counts: in the in-memory store that of its identity, */
  function HotHand(e: Event): Option<string> {
    if Valid(e) then Some(HandOf(e)) else None
  }

  /** and in the repository the event's own hand id when the identity's is empty. */
  function FiledHand(e: Event): Option<string> {
    if !Valid(e) then None
    else if HandOf(e) != "" then Some(HandOf(e))
    else if e.handId != "" then Some(e.handId)
    else None
  }

  type Filing = Event -> Option<string>

  type Events = map<string, Event>

  // ---- What a store should hold ------------------------------------------------------------------------

  /** An event of the hand that carries a version. */
  predicate Counts(filing: Filing, e: Event, hand: string) {
    filing(e) == Some(hand) && e.version.Some?
  }

  /** Event i is the first to arrive among those of the hand with the highest version. */
  ghost predicate FirstHighest(filing: Filing, es: seq<Event>, hand: string, i: nat) {
    && i < |es| && Counts(filing, es[i], hand)
    && forall j :: 0 <= j < |es| && Counts(filing, es[j], hand) ==>
         es[j].version.value <= es[i].version.value && (j < i ==> es[j].version.value < es[i].version.value)
  }

  lemma FirstHighestUnique(filing: Filing, es: seq<Event>, hand: string, i: nat, j: nat)
    requires FirstHighest(filing, es, hand, i) && FirstHighest(filing, es, hand, j)
    ensures i == j
  {
  }

  /** The store holds of each hand the first event with the highest version, and nothing else. */
  ghost predicate HoldsLatest(filing: Filing, es: seq<Event>, store: Events) {
    && (forall h :: h in store ==> exists i: nat :: FirstHighest(filing, es, h, i) && store[h] == es[i])
    && (forall k :: 0 <= k < |es| && filing(es[k]).Some? && es[k].version.Some? ==> filing(es[k]).value in store)
  }

  /** The event is newer than what is stored of its hand. */
  predicate Replaces(filing: Filing, store: Events, e: Event) {
    && filing(e).Some? && e.version.Some?
    && var hand := filing(e).value;
       hand in store && store[hand].version.Some? ==> store[hand].version.value < e.version.value
  }

  function After(filing: Filing, store: Events, e: Event): Events {
    if Replaces(filing, store, e) then store[filing(e).value := e] else store
  }

  /** One more event leaves the store holding the latest. */
  lemma IngestHoldsLatest(filing: Filing, es: seq<Event>, store: Events, e: Event)
    requires HoldsLatest(filing, es, store)
    ensures HoldsLatest(filing, es + [e], After(filing, store, e))
  {
    var es', store' := es + [e], After(filing, store, e);
    forall h | h in store' ensures exists i: nat :: FirstHighest(filing, es', h, i) && store'[h] == es'[i] {
      LatestOf(filing, es, store, e, h);
    }
    forall k | 0 <= k < |es'| && filing(es'[k]).Some? && es'[k].version.Some?
      ensures filing(es'[k]).value in store'
    {
      if k < |es| {
        assert es'[k] == es[k];
      }
    }
  }

  lemma LatestOf(filing: Filing, es: seq<Event>, store: Events, e: Event, h: string)
    requires HoldsLatest(filing, es, store) && h in After(filing, store, e)
    ensures exists i: nat ::
              FirstHighest(filing, es + [e], h, i) && After(filing, store, e)[h] == (es + [e])[i]
  {
    var es', n := es + [e], |es|;
    if h in store {
      var i: nat :| FirstHighest(filing, es, h, i) && store[h] == es[i];
      forall j | 0 <= j < |es'| && j != n ensures es'[j] == es[j] {
      }
      if Replaces(filing, store, e) && filing(e).value == h {
        assert FirstHighest(filing, es', h, n);
      } else {
        assert FirstHighest(filing, es', h, i);
      }
    } else {
      forall j | 0 <= j < |es| ensures !Counts(filing, es[j], h) {
      }
      assert FirstHighest(filing, es', h, n);
    }
  }

  lemma NothingHeld(filing: Filing)
    ensures HoldsLatest(filing, [], map[])
  {
  }

  // ---- The in-memory store -----------------------------------------------------------------------------

  class HotStore {
    var events: Events

    constructor ()
      ensures events == map[]
    {
      events := map[];
    }

    ghost predicate Versioned()
      reads this
    {
      forall h :: h in events ==> events[h].version.Some?
    }

    method Get(hand: string) returns (e: Option<Event>)
      ensures e == if hand in events then Some(events[hand]) else None
    {
      e := if hand in events then Some(events[hand]) else None;
    }

    /** Only a valid event with a version newer than what is stored changes the store. */
    method Ingest(e: Event) returns (r: Result<Verdict<Event>, HandError>)
      requires Versioned()
      modifies this
      ensures Versioned()
      ensures events == After(HotHand, old(events), e)
      ensures r == if Valid(e) then Ok(Judged(old(events), e)) else Err(Invalid(e).value)
    {
      var invalid := Validate(e);
      if invalid.Some? {
        return Err(invalid.value);
      }
      var hand := e.identity.handId.value;
      if hand !in events {
        if e.version.None? {
          return Ok(Verdict(Conflict, e, None, "missing_version_without_existing_event"));
        }
        events := events[hand := e];
        return Ok(Verdict(Inserted, e, None, ""));
      }
      var existing := events[hand];
      if e.version.None? {
        if e.checksum == existing.checksum {
          return Ok(Verdict(Duplicate, existing, Some(existing), ""));
        }
        return Ok(Verdict(Conflict, e, Some(existing), "missing_version_checksum_mismatch"));
      }
      if existing.version.Some? && e.version.value < existing.version.value {
        return Ok(Verdict(Stale, e, Some(existing), ""));
      }
      if existing.version == e.version {
        if e.checksum == existing.checksum {
          return Ok(Verdict(Duplicate, existing, Some(existing), ""));
        }
        return Ok(Verdict(Conflict, e, Some(existing), "same_version_checksum_mismatch"));
      }
      events := events[hand := e];
      r := Ok(Verdict(Updated, e, Some(existing), ""));
    }
  }

  /** How an event is judged against the stored one, by what they say and not by the order of checks:
      same content, older, newer, or in conflict. */
  function Judged(events: Events, e: Event): Verdict<Event> {
    var hand := HandOf(e);
    if hand !in events then
      if e.version.Some? then Verdict(Inserted, e, None, "")
      else Verdict(Conflict, e, None, NO_EXISTING)
    else
      var x := events[hand];
      if (e.version.None? || e.version == x.version) && e.checksum == x.checksum then Verdict(Duplicate, x, Some(x), "")
      else if e.version.None? then Verdict(Conflict, e, Some(x), NO_VERSION)
      else if e.version == x.version then Verdict(Conflict, e, Some(x), SAME_VERSION)
      else if x.version.Some? && e.version.value < x.version.value then Verdict(Stale, e, Some(x), "")
      else Verdict(Updated, e, Some(x), "")
  }

  /** After any run of ingests the store holds, for each hand, the first arrived among the events with
      the highest version; events without a version never change it. */
  method IngestAll(es: seq<Event>) returns (store: HotStore)
    ensures fresh(store) && store.Versioned() && HoldsLatest(HotHand, es, store.events)
  {
    hide HotHand, Replaces, HoldsLatest;
    store := new HotStore();
    NothingHeld(HotHand);
    for k := 0 to |es|
      invariant fresh(store) && store.Versioned() && HoldsLatest(HotHand, es[..k], store.events)
    {
      IngestHoldsLatest(HotHand, es[..k], store.events, es[k]);
      assert es[..k + 1] == es[..k] + [es[k]];
      var _ := store.Ingest(es[k]);
    }
    assert es[..|es|] == es;
  }

  // ---- The repository's store --------------------------------------------------------------------------

  /** The row an event becomes: a hand id, tournament or table that its identity leaves empty falls back to the
      event's own. */
  function Normalized(e: Event): Result<Row, HandError> {
    var hand := if HandOf(e) != "" then HandOf(e) else e.handId;
    if hand == "" then Err(MissingHandId)
    else Ok(Row(hand, TextOr(e.identity.tournamentId, e.tournamentId), TextOr(e.identity.tableId, e.tableId),
                e.identity.handNo, e.version, e.checksum, e.eventId, e.payload, e.conflictReason, e.createdAt))
  }

  function TextOr(text: Option<string>, other: string): string {
    if text.Some? && text.value != "" then text.value else other
  }

  /** _normalize_poker_mtt_hand_event */
  method Normalize(e: Event) returns (r: Result<Row, HandError>)
    ensures r == Normalized(e)
  {
    var hand, tournament, table := e.handId, e.tournamentId, e.tableId;
    if e.identity.handId.Some? && e.identity.handId.value != "" {
      hand := e.identity.handId.value;
    }
    if hand == "" {
      return Err(MissingHandId);
    }
    if e.identity.tournamentId.Some? && e.identity.tournamentId.value != "" {
      tournament := e.identity.tournamentId.value;
    }
    if e.identity.tableId.Some? && e.identity.tableId.value != "" {
      table := e.identity.tableId.value;
    }
    r := Ok(Row(hand, tournament, table, e.identity.handNo, e.version, e.checksum, e.eventId, e.payload,
                e.conflictReason, e.createdAt));
  }

  class HandRepository {
    var rows: Rows

    constructor ()
      ensures rows == map[]
    {
      rows := map[];
    }

    /** save_poker_mtt_hand_event behind the store's validation; the reason is the row's own unless the
        row is in conflict. */
    method Ingest(e: Event) returns (r: Result<Verdict<Row>, HandError>)
      modifies this
      ensures r == if !Valid(e) then Err(Invalid(e).value)
                   else if Normalized(e).Err? then Err(Normalized(e).error)
                   else Ok(Filed(old(rows), Normalized(e).value))
      ensures rows == AfterFiling(old(rows), e)
    {
      var invalid := Validate(e);
      if invalid.Some? {
        return Err(invalid.value);
      }
      hide Valid, Invalid;
      var normalized := Normalize(e);
      if normalized.Err? {
        return Err(normalized.error);
      }
      var row := normalized.value;
      if row.handId !in rows {
        if row.version.None? {
          return Ok(Verdict(Conflict, row, None, "missing_version_without_existing_event"));
        }
        rows := rows[row.handId := row];
        return Ok(Verdict(Inserted, row, None, row.conflictReason));
      }
      var existing := rows[row.handId];
      if row.version.None? {
        if row.checksum == existing.checksum {
          return Ok(Verdict(Duplicate, existing, None, existing.conflictReason));
        }
        return Ok(Verdict(Conflict, row, Some(existing), "missing_version_checksum_mismatch"));
      }
      if existing.version.Some? && row.version.value < existing.version.value {
        return Ok(Verdict(Stale, row, Some(existing), row.conflictReason));
      }
      if existing.version == row.version {
        if row.checksum == existing.checksum {
          return Ok(Verdict(Duplicate, existing, None, existing.conflictReason));
        }
        return Ok(Verdict(Conflict, row, Some(existing), "same_version_checksum_mismatch"));
      }
      var updated := row;
      if existing.createdAt.Some? {
        updated := row.(createdAt := existing.createdAt);
      }
      rows := rows[row.handId := updated];
      r := Ok(Verdict(Updated, updated, Some(existing), updated.conflictReason));
    }
  }

  /** A row keeps the time its hand was first stored. */
  function FirstCreated(existing: Row, row: Row): Option<int> {
    if existing.createdAt.Some? then existing.createdAt else row.createdAt
  }

  function Filed(rows: Rows, row: Row): Verdict<Row> {
    if row.handId !in rows then
      if row.version.Some? then Verdict(Inserted, row, None, row.conflictReason)
      else Verdict(Conflict, row, None, NO_EXISTING)
    else
      var x := rows[row.handId];
      if (row.version.None? || row.version == x.version) && row.checksum == x.checksum then
        Verdict(Duplicate, x, None, x.conflictReason)
      else if row.version.None? then Verdict(Conflict, row, Some(x), NO_VERSION)
      else if row.version == x.version then Verdict(Conflict, row, Some(x), SAME_VERSION)
      else if x.version.Some? && row.version.value < x.version.value then
        Verdict(Stale, row, Some(x), row.conflictReason)
      else
        var updated := row.(createdAt := FirstCreated(x, row));
        Verdict(Updated, updated, Some(x), updated.conflictReason)
  }

  function AfterFiling(rows: Rows, e: Event): Rows {
    if !Valid(e) || Normalized(e).Err? then rows
    else
      var row := Normalized(e).value;
      var v := Filed(rows, row);
      if v.state == Inserted || v.state == Updated then rows[row.handId := v.event] else rows
  }

  /** The row is the event's, its time of first storage aside. */
  predicate RowOf(row: Row, e: Event) {
    Normalized(e).Ok? && row.(createdAt := None) == Normalized(e).value.(createdAt := None)
  }

  ghost predicate RowsOf(rows: Rows, sources: Events) {
    rows.Keys == sources.Keys && forall h :: h in rows ==> RowOf(rows[h], sources[h])
  }

  /** Filing an event is storing it if it is newer, under the hand it is filed for. */
  lemma FilingFollows(rows: Rows, sources: Events, e: Event)
    requires RowsOf(rows, sources)
    ensures RowsOf(AfterFiling(rows, e), After(FiledHand, sources, e))
  {
    if FiledHand(e).Some? {
      FiledRow(e);
      var row := Normalized(e).value;
      hide Valid, FiledHand, Normalized;
      if row.handId in rows {
        assert RowOf(rows[row.handId], sources[row.handId]);
      }
      hide RowOf;
      FiledIf(rows, sources, e);
      FiledEvent(rows, row, e);
    } else {
      hide Filed;
    }
  }

  lemma FiledRow(e: Event)
    requires FiledHand(e).Some?
    ensures Valid(e) && Normalized(e).Ok? && Normalized(e).value.handId == FiledHand(e).value
    ensures Normalized(e).value.version == e.version && Normalized(e).value.checksum == e.checksum
  {
  }

  lemma FiledEvent(rows: Rows, row: Row, e: Event)
    requires Normalized(e) == Ok(row)
    ensures
      var v := Filed(rows, row);
      v.state == Inserted || v.state == Updated ==> RowOf(v.event, e)
  {
    hide Normalized;
  }

  lemma FiledIf(rows: Rows, sources: Events, e: Event)
    requires FiledHand(e).Some? && Normalized(e).Ok?
    requires Normalized(e).value.handId == FiledHand(e).value && Normalized(e).value.version == e.version
    requires rows.Keys == sources.Keys
    requires FiledHand(e).value in rows ==> rows[FiledHand(e).value].version == sources[FiledHand(e).value].version
    ensures
      var v := Filed(rows, Normalized(e).value);
      v.state == Inserted || v.state == Updated <==> Replaces(FiledHand, sources, e)
  {
    hide Normalized, FiledHand;
  }

  /** The repository holds of each hand the row of the first event filed for it with the highest version. */
  ghost predicate FilesLatest(es: seq<Event>, rows: Rows) {
    && (forall h :: h in rows ==> exists i: nat :: FirstHighest(FiledHand, es, h, i) && RowOf(rows[h], es[i]))
    && (forall k :: 0 <= k < |es| && FiledHand(es[k]).Some? && es[k].version.Some? ==> FiledHand(es[k]).value in rows)
  }

  lemma SourcesFile(es: seq<Event>, rows: Rows, sources: Events)
    requires HoldsLatest(FiledHand, es, sources) && RowsOf(rows, sources)
    ensures FilesLatest(es, rows)
  {
    hide FiledHand, RowOf;
    forall h | h in rows ensures exists i: nat :: FirstHighest(FiledHand, es, h, i) && RowOf(rows[h], es[i]) {
      var i: nat :| FirstHighest(FiledHand, es, h, i) && sources[h] == es[i];
      assert RowOf(rows[h], es[i]);
    }
  }

  // ---- The two stores agree ----------------------------------------------------------------------------

  /** A row says what an event says, its first storage time aside. */
  predicate Mirrors(row: Row, e: Event) {
    && row.handId == HandOf(e) && row.tournamentId == TextOr(e.identity.tournamentId, e.tournamentId)
    && row.tableId == TextOr(e.identity.tableId, e.tableId) && row.handNo == e.identity.handNo
    && row.version == e.version && row.checksum == e.checksum
    && row.eventId == e.eventId && row.payload == e.payload && row.conflictReason == e.conflictReason
  }

  /** The stores hold the same events; the repository has no row under the empty name. */
  ghost predicate StoresAgree(events: Events, rows: Rows) {
    events.Keys == rows.Keys && "" !in rows && forall h :: h in events ==> Mirrors(rows[h], events[h])
  }

  /** No stored row brought a conflict reason of its own. */
  ghost predicate AllOrdinary(rows: Rows) {
    forall h :: h in rows ==> rows[h].conflictReason == ""
  }

  /** Both stores take the event and call it the same. */
  predicate JudgedAlike(events: Events, rows: Rows, e: Event) {
    Normalized(e).Ok? && Judged(events, e).state == Filed(rows, Normalized(e).value).state
  }

  /** The hand is named; or the event has a hand id of its own, and either nothing is filed under that or
      the event has no version and other content than what is. */
  predicate FiledAlike(rows: Rows, e: Event) {
    || HandOf(e) != ""
    || (e.handId != "" && (e.handId !in rows || (e.version.None? && e.checksum != rows[e.handId].checksum)))
  }

  /** Exactly when two agreeing stores judge a valid event alike. */
  lemma StoresJudgeAlike(events: Events, rows: Rows, e: Event)
    requires StoresAgree(events, rows) && Valid(e)
    ensures JudgedAlike(events, rows, e) <==> FiledAlike(rows, e)
  {
    hide Valid;
    if HandOf(e) in events {
      assert Mirrors(rows[HandOf(e)], events[HandOf(e)]);
    }
  }

  /** An event without any hand id: the in-memory store inserts it, the repository refuses it. */
  lemma UnnamedHandsDiffer()
    ensures
      var e := Event(HAND_COMPLETED_SCHEMA_VERSION, HAND_COMPLETED_EVENT_TYPE, "sha256:0",
                     Identity(Some("t"), Some("1"), Some(1), Some("")), Some(1), "", "", "", "", "", "", None);
      && Unnamed(e) && !JudgedAlike(map[], map[], e) && "" in After(HotHand, map[], e)
      && Judged(map[], e).state == Inserted && Normalized(e) == Err(MissingHandId)
  {
  }

  /** For a named hand they also give the same event, and the same reason unless a row brings its own. */
  lemma NamedJudgedAlike(events: Events, rows: Rows, e: Event)
    requires StoresAgree(events, rows) && Valid(e) && HandOf(e) != ""
    ensures Normalized(e).Ok?
    ensures
      var v, w := Judged(events, e), Filed(rows, Normalized(e).value);
      && v.state == w.state && Mirrors(w.event, v.event)
      && (e.conflictReason == "" && AllOrdinary(rows) ==> v.reason == w.reason)
  {
    hide Valid, TextOr;
    if HandOf(e) in events {
      assert Mirrors(rows[HandOf(e)], events[HandOf(e)]);
    }
  }

  /** The event would be stored under the empty name. */
  predicate Unnamed(e: Event) {
    Valid(e) && HandOf(e) == "" && e.version.Some?
  }

  /** Exactly when they still agree after an event: unless it is stored under the empty name. */
  lemma StoresStayAgreed(events: Events, rows: Rows, e: Event)
    requires StoresAgree(events, rows)
    ensures StoresAgree(After(HotHand, events, e), AfterFiling(rows, e)) <==> !Unnamed(e)
  {
    hide Valid;
    if Valid(e) && HandOf(e) != "" {
      NamedJudgedAlike(events, rows, e);
      JudgedReplaces(events, e);
      NamedRow(e);
      hide Filed, Judged, Mirrors, Replaces;
    }
  }

  lemma NamedRow(e: Event)
    requires HandOf(e) != ""
    ensures Normalized(e).Ok? && Normalized(e).value.handId == HandOf(e)
  {
  }

  lemma JudgedReplaces(events: Events, e: Event)
    requires Valid(e)
    ensures Replaces(HotHand, events, e) <==> Judged(events, e).state == Inserted || Judged(events, e).state == Updated
    ensures Replaces(HotHand, events, e) ==> Judged(events, e).event == e
  {
  }

  /** What each store says of an event: how it is judged, if it is accepted at all. */
  function HotSays(events: Events, e: Event): Option<IngestState> {
    if Valid(e) then Some(Judged(events, e).state) else None
  }

  function RepoSays(rows: Rows, e: Event): Option<IngestState> {
    if Valid(e) && Normalized(e).Ok? then Some(Filed(rows, Normalized(e).value).state) else None
  }

  /** An unnamed event leaves the stores apart for good: only the in-memory store keeps anything under the
      empty name. */
  lemma EmptyName(events: Events, rows: Rows, e: Event)
    ensures "" in events || Unnamed(e) ==> "" in After(HotHand, events, e)
    ensures "" !in rows ==> "" !in AfterFiling(rows, e)
  {
    hide Valid, Filed;
  }

  predicate AllNamed(es: seq<Event>) {
    forall k :: 0 <= k < |es| ==> !Unnamed(es[k])
  }

  /** What holds of both stores after the events so far. */
  ghost predicate Fed(es: seq<Event>, events: Events, rows: Rows, sources: Events) {
    && HoldsLatest(HotHand, es, events) && HoldsLatest(FiledHand, es, sources) && RowsOf(rows, sources)
    && "" !in rows && (if AllNamed(es) then StoresAgree(events, rows) else "" in events)
  }

  lemma FedNext(es: seq<Event>, events: Events, rows: Rows, sources: Events, e: Event)
    requires Fed(es, events, rows, sources)
    ensures Fed(es + [e], After(HotHand, events, e), AfterFiling(rows, e), After(FiledHand, sources, e))
    ensures AllNamed(es) ==> (HotSays(events, e) == RepoSays(rows, e) <==> !Valid(e) || FiledAlike(rows, e))
  {
    hide HoldsLatest, RowsOf, After, AfterFiling, Unnamed, Valid, FiledAlike, StoresAgree, AllNamed, HotSays, RepoSays;
    IngestHoldsLatest(HotHand, es, events, e);
    IngestHoldsLatest(FiledHand, es, sources, e);
    FilingFollows(rows, sources, e);
    EmptyName(events, rows, e);
    NamedNext(es, e);
    if AllNamed(es) {
      StoresStayAgreed(events, rows, e);
      SaidAlike(events, rows, e);
    }
  }

  lemma SaidAlike(events: Events, rows: Rows, e: Event)
    requires StoresAgree(events, rows)
    ensures HotSays(events, e) == RepoSays(rows, e) <==> !Valid(e) || FiledAlike(rows, e)
  {
    hide Valid, Filed, Judged, Normalized, FiledAlike, StoresAgree;
    if Valid(e) {
      StoresJudgeAlike(events, rows, e);
    }
  }

  lemma NamedNext(es: seq<Event>, e: Event)
    ensures AllNamed(es + [e]) <==> AllNamed(es) && !Unnamed(e)
  {
    hide Unnamed;
    if AllNamed(es + [e]) {
      forall k | 0 <= k < |es| ensures !Unnamed(es[k]) {
        assert (es + [e])[k] == es[k];
      }
      assert (es + [e])[|es|] == e;
    }
  }

  /** Feeding both stores the same events, each ends with the latest event of every hand, and they agree
      exactly if no event was stored under the empty name; until then an event gets one verdict exactly if
      it is filed alike. `filed` is what the repository held before each event. */
  method IngestBoth(es: seq<Event>)
    returns (hot: HotStore, repo: HandRepository, hotSays: seq<Option<IngestState>>,
             repoSays: seq<Option<IngestState>>, ghost filed: seq<Rows>)
    ensures fresh(hot) && fresh(repo) && HoldsLatest(HotHand, es, hot.events) && FilesLatest(es, repo.rows)
    ensures StoresAgree(hot.events, repo.rows) <==> AllNamed(es)
    ensures |hotSays| == |repoSays| == |filed| == |es|
    ensures forall k :: 0 <= k < |es| && AllNamed(es[..k]) ==>
              (hotSays[k] == repoSays[k] <==> !Valid(es[k]) || FiledAlike(filed[k], es[k]))
  {
    hide HotHand, FiledHand, Fed, After, AfterFiling, AllNamed, FiledAlike, Valid, Filed, Judged, Normalized;
    hot := new HotStore();
    repo := new HandRepository();
    hotSays, repoSays, filed := [], [], [];
    ghost var sources: Events := map[];
    NothingFed();
    for k := 0 to |es|
      invariant fresh(hot) && fresh(repo) && hot.Versioned() && Fed(es[..k], hot.events, repo.rows, sources)
      invariant |hotSays| == |repoSays| == |filed| == k
      invariant forall i :: 0 <= i < k && AllNamed(es[..i]) ==>
                  (hotSays[i] == repoSays[i] <==> !Valid(es[i]) || FiledAlike(filed[i], es[i]))
    {
      FedNext(es[..k], hot.events, repo.rows, sources, es[k]);
      assert es[..k + 1] == es[..k] + [es[k]];
      filed := filed + [repo.rows];
      sources := After(FiledHand, sources, es[k]);
      var v := hot.Ingest(es[k]);
      var w := repo.Ingest(es[k]);
      hotSays := hotSays + [if v.Ok? then Some(v.value.state) else None];
      repoSays := repoSays + [if w.Ok? then Some(w.value.state) else None];
    }
    assert es[..|es|] == es;
    FedEnds(es, hot.events, repo.rows, sources);
  }

  lemma NothingFed()
    ensures Fed([], map[], map[], map[])
  {
    NothingHeld(HotHand);
    NothingHeld(FiledHand);
  }

  lemma FedEnds(es: seq<Event>, events: Events, rows: Rows, sources: Events)
    requires Fed(es, events, rows, sources)
    ensures HoldsLatest(HotHand, es, events) && FilesLatest(es, rows) && (StoresAgree(events, rows) <==> AllNamed(es))
  {
    hide HoldsLatest, FilesLatest, RowsOf, AllNamed;
    SourcesFile(es, rows, sources);
  }
}
