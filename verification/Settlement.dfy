/** Settlement batches and their anchor jobs: what a batch is, what one step may change, and what a
    chain confirmation says (forecast_engine and chain_adapter). */
module Settlement {
  import opened Options
  import opened Ordering
  import opened RowMerge

  // ---- Data --------------------------------------------------------------------------------------------

  const POLICY_BUNDLE_VERSION := "pb_2026_04_09_a"
  const ANCHOR_PAYLOAD_SCHEMA_VERSION := "clawchain.anchor_payload.v1"

  datatype BatchState = Open | AnchorReady | AnchorSubmitted | Anchored | AnchorFailed | Cancelled

  datatype JobState = JobSubmitted | JobAnchored | JobFailed

  /** A reward window as a batch reads it: `rows` is None when a poker projection is missing. */
  datatype Window = Window(lane: string, startAt: int, endAt: int, taskIds: seq<string>, rows: Option<seq<Row>>,
                           weighted: bool, batchId: Option<string>, policy: string, taskCount: int,
                           minerCount: int, total: int)

  /** Everything the canonical root is taken over. */
  datatype RootInput = RootInput(policy: string, batchId: string, lane: string, startAt: int, endAt: int,
                                 windowIds: seq<string>, taskIds: seq<string>, rows: seq<Row>,
                                 taskCount: int, minerCount: int, total: int)

  /** The anchor payload: the root's input, its root, and the rows cut into pages of one size. */
  datatype Payload = Payload(input: RootInput, root: string, pageSize: int)

  /** What a batch gets when it becomes anchorable. */
  datatype Canon = Canon(schema: string, root: string, payload: Payload, hash: string)

  datatype Batch = Batch(id: string, lane: string, state: BatchState, startAt: int, endAt: int,
                         windowIds: seq<string>, policy: string, taskCount: int, minerCount: int, total: int,
                         jobId: Option<string>, canon: Option<Canon>)

  datatype Job = Job(id: string, batchId: string, lane: string, state: JobState, payloadHash: string,
                     txHash: string, confirmation: string, failure: string)

  /** The digests, as given functions. */
  datatype Digests = Digests(ids: seq<string> -> string, rows: seq<Row> -> string, root: RootInput -> string,
                             payload: Payload -> string)

  type Batches = map<string, Batch>
  type Jobs = map<string, Job>
  type Windows = map<string, Window>

  // ---- What the chain says -----------------------------------------------------------------------------

  datatype Value = Null | Str(text: string) | Num(number: int)

  type Fields = map<string, Value>

  /** A chain query's answer: the anchor it found, and the fields of the answer itself. */
  datatype Query = Query(anchor: Fields, own: Fields)

  /** What a confirmer returns for a transaction. */
  datatype Receipt = Receipt(status: string, confirmed: bool, query: Option<Query>, fallbackMemo: bool, rawLog: string)

  function Get(fields: Fields, name: string): Value {
    if name in fields then fields[name] else Null
  }

  function Text(s: Option<string>): Value {
    if s.Some? then Str(s.value) else Null
  }

  function OrElse(s: string, other: string): string {
    if s != "" then s else other
  }

  /** Every field an anchor must show for this job and batch. */
  function Expected(digests: Digests, jobId: string, b: Batch): Fields
    requires b.canon.Some?
  {
    var input := b.canon.value.payload.input;
    map["settlement_batch_id" := Str(b.id),
        "anchor_job_id" := Str(jobId),
        "lane" := Str(b.lane),
        "schema_version" := Str(b.canon.value.schema),
        "policy_bundle_version" := Str(OrElse(input.policy, b.policy)),
        "canonical_root" := Str(b.canon.value.root),
        "anchor_payload_hash" := Str(b.canon.value.hash),
        "reward_window_ids_root" := Str(digests.ids(input.windowIds)),
        "task_run_ids_root" := Str(digests.ids(input.taskIds)),
        "miner_reward_rows_root" := Str(digests.rows(input.rows)),
        "window_end_at" := Num(b.endAt),
        "total_reward_amount" := Num(b.total)]
  }

  /** The anchor shows the batch, its job and its payload, field by field. */
  predicate Shows(digests: Digests, anchor: Fields, jobId: string, b: Batch)
    requires b.canon.Some?
  {
    var canon := b.canon.value;
    var input := canon.payload.input;
    && Get(anchor, "settlement_batch_id") == Str(b.id)
    && Get(anchor, "anchor_job_id") == Str(jobId)
    && Get(anchor, "lane") == Str(b.lane)
    && Get(anchor, "schema_version") == Str(canon.schema)
    && Get(anchor, "policy_bundle_version") == Str(if input.policy != "" then input.policy else b.policy)
    && Get(anchor, "canonical_root") == Str(canon.root)
    && Get(anchor, "anchor_payload_hash") == Str(canon.hash)
    && Get(anchor, "reward_window_ids_root") == Str(digests.ids(input.windowIds))
    && Get(anchor, "task_run_ids_root") == Str(digests.ids(input.taskIds))
    && Get(anchor, "miner_reward_rows_root") == Str(digests.rows(input.rows))
    && Get(anchor, "window_end_at") == Num(b.endAt)
    && Get(anchor, "total_reward_amount") == Num(b.total)
  }

  /** An anchor matches the expected fields exactly if it shows these twelve. */
  lemma MatchesShows(digests: Digests, anchor: Fields, jobId: string, b: Batch)
    requires b.canon.Some?
    ensures Matches(anchor, Expected(digests, jobId, b)) == Shows(digests, anchor, jobId, b)
    ensures Shows(digests, anchor, jobId, b) ==> anchor != map[]
  {
    hide Get, Shows, Matches, Expected;
    if Matches(anchor, Expected(digests, jobId, b)) {
      MatchedShows(digests, anchor, jobId, b);
    }
    if Shows(digests, anchor, jobId, b) {
      ShownMatches(digests, anchor, jobId, b);
    }
    NothingShown(digests, jobId, b);
  }

  lemma ExpectedFields(digests: Digests, jobId: string, b: Batch, e: Fields)
    requires b.canon.Some? && e == Expected(digests, jobId, b)
    ensures e.Keys == {"settlement_batch_id", "anchor_job_id", "lane", "schema_version", "policy_bundle_version",
                       "canonical_root", "anchor_payload_hash", "reward_window_ids_root", "task_run_ids_root",
                       "miner_reward_rows_root", "window_end_at", "total_reward_amount"}
    ensures Shows(digests, e, jobId, b)
  {
  }

  lemma GotIn(fields: Fields, name: string)
    requires name in fields
    ensures Get(fields, name) == fields[name]
  {
  }

  lemma MatchedShows(digests: Digests, anchor: Fields, jobId: string, b: Batch)
    requires b.canon.Some? && Matches(anchor, Expected(digests, jobId, b))
    ensures Shows(digests, anchor, jobId, b)
  {
    hide Expected;
    var e := Expected(digests, jobId, b);
    ExpectedFields(digests, jobId, b, e);
    assert forall name :: name in e ==> Get(anchor, name) == Get(e, name);
    hide Get, Matches;
  }

  lemma ShownMatches(digests: Digests, anchor: Fields, jobId: string, b: Batch)
    requires b.canon.Some? && Shows(digests, anchor, jobId, b)
    ensures Matches(anchor, Expected(digests, jobId, b))
  {
    hide Get, Expected;
    var e := Expected(digests, jobId, b);
    ExpectedFields(digests, jobId, b, e);
    forall name | name in e ensures Get(anchor, name) == e[name] {
      GotIn(e, name);
    }
  }

  lemma NothingShown(digests: Digests, jobId: string, b: Batch)
    requires b.canon.Some?
    ensures !Shows(digests, map[], jobId, b)
  {
  }

  predicate Matches(anchor: Fields, expected: Fields) {
    forall name :: name in expected ==> Get(anchor, name) == expected[name]
  }

  /** The anchor an answer shows: the answer itself if it found none. */
  function AnchorOf(q: Query): Fields {
    if q.anchor == map[] then q.own else q.anchor
  }

  /** confirm_settlement_anchor_response for a transaction the chain accepted. */
  function ConfirmResponse(q: Query, b: Batch, expected: Fields, fallbackMemo: bool): string
    requires b.canon.Some?
  {
    var anchor := if q.anchor != map[] then q.anchor else q.own;
    if anchor == map[] then
      if fallbackMemo then "fallback_memo_tx_accepted_no_typed_state" else "typed_tx_accepted_state_missing"
    else if Get(anchor, "settlement_batch_id") == Str(b.id) && Get(anchor, "canonical_root") == Str(b.canon.value.root)
         && Get(anchor, "anchor_payload_hash") == Str(b.canon.value.hash) then
      if Matches(anchor, expected) then "confirmed" else "anchor_metadata_mismatch"
    else if Get(anchor, "settlement_batch_id") != Str(b.id) then "settlement_batch_mismatch"
    else "root_hash_mismatch"
  }

  /** The confirmation status a receipt leads to; `resolves` says the stored rows still resolve to the
      payload's root. */
  function RawStatus(digests: Digests, receipt: Receipt, resolves: bool, jobId: string, b: Batch): string
    requires b.canon.Some?
  {
    if receipt.status != "confirmed" then OrElse(receipt.status, "pending")
    else if receipt.query.Some? then
      if !resolves then "root_hash_mismatch"
      else ConfirmResponse(receipt.query.value, b, Expected(digests, jobId, b), receipt.fallbackMemo)
    else if !receipt.confirmed then "typed_tx_accepted_state_missing"
    else "confirmed"
  }

  function Normalized(status: string): string {
    if status == "typed_tx_accepted_state_missing" || status == "state_missing" then "typed_state_missing"
    else if status == "fallback_memo_tx_accepted_no_typed_state" then "fallback_memo_only"
    else if status == "root_hash_mismatch" || status == "settlement_batch_mismatch" then "root_mismatch"
    else if status == "anchor_metadata_mismatch" then "metadata_mismatch"
    else OrElse(status, "pending")
  }

  predicate Terminal(status: string) {
    status == "typed_state_missing" || status == "fallback_memo_only" || status == "root_mismatch"
    || status == "metadata_mismatch" || status == "failed"
  }

  /** The chain was asked, the rows resolve, and every expected field was read back. */
  predicate ReadBack(digests: Digests, receipt: Receipt, resolves: bool, jobId: string, b: Batch)
    requires b.canon.Some?
  {
    receipt.status == "confirmed" && receipt.query.Some? && resolves
    && Shows(digests, AnchorOf(receipt.query.value), jobId, b)
  }

  /** A confirmer that vouches for the anchor itself, without an answer from the chain. */
  predicate Vouched(receipt: Receipt) {
    receipt.status == "confirmed" && receipt.query.None? && receipt.confirmed
  }

  /** A job is confirmed exactly when every expected field was read back from the chain, or a confirmer
      vouched for it. */
  lemma ConfirmedIff(digests: Digests, receipt: Receipt, resolves: bool, jobId: string, b: Batch)
    requires b.canon.Some?
    ensures (Normalized(RawStatus(digests, receipt, resolves, jobId, b)) == "confirmed")
              == (ReadBack(digests, receipt, resolves, jobId, b) || Vouched(receipt))
  {
    RecordedIs(digests, receipt, resolves, jobId, b);
    AmountsConfirmed(digests, receipt, resolves, jobId, b);
    hide RawStatus, ReportedAs, AmountsTo, ReadBack, Vouched;
    OnlyConfirmed(RawStatus(digests, receipt, resolves, jobId, b));
    hide Normalized;
  }

  lemma AmountsConfirmed(digests: Digests, receipt: Receipt, resolves: bool, jobId: string, b: Batch)
    requires b.canon.Some?
    ensures (AmountsTo(digests, receipt, resolves, jobId, b) == "confirmed")
              == (ReadBack(digests, receipt, resolves, jobId, b) || Vouched(receipt))
  {
    hide ShownAs, Shows, Ends, AnchorOf;
    if receipt.status == "confirmed" && receipt.query.Some? {
      ShownConfirmed(digests, receipt.query.value, jobId, b, receipt.fallbackMemo);
    }
  }

  lemma OnlyConfirmed(status: string)
    ensures (Normalized(status) == "confirmed") == (status == "confirmed")
  {
  }

  lemma ShownConfirmed(digests: Digests, q: Query, jobId: string, b: Batch, fallbackMemo: bool)
    requires b.canon.Some?
    ensures (ShownAs(digests, q, jobId, b, fallbackMemo) == "confirmed") == Shows(digests, AnchorOf(q), jobId, b)
    ensures !Shows(digests, AnchorOf(q), jobId, b) ==>
              Ends(ShownAs(digests, q, jobId, b, fallbackMemo))
  {
    MatchesShows(digests, AnchorOf(q), jobId, b);
    EndsFor();
    hide Shows, Get, Expected, Matches, Ends;
  }

  lemma EndsFor()
    ensures Ends("fallback_memo_tx_accepted_no_typed_state") && Ends("typed_tx_accepted_state_missing")
    ensures Ends("settlement_batch_mismatch") && Ends("root_hash_mismatch") && Ends("anchor_metadata_mismatch")
    ensures !Ends("confirmed") && !Ends("pending") && !Ends("")
  {
  }

  /** What a query's answer amounts to: by whether there is an anchor, whether it shows everything, and if not
      whether it is of this batch, root and payload. */
  function ShownAs(digests: Digests, q: Query, jobId: string, b: Batch, fallbackMemo: bool): string
    requires b.canon.Some?
  {
    var anchor := AnchorOf(q);
    if anchor == map[] then
      if fallbackMemo then "fallback_memo_tx_accepted_no_typed_state" else "typed_tx_accepted_state_missing"
    else if Shows(digests, anchor, jobId, b) then "confirmed"
    else if Get(anchor, "settlement_batch_id") != Str(b.id) then "settlement_batch_mismatch"
    else if Get(anchor, "canonical_root") != Str(b.canon.value.root)
            || Get(anchor, "anchor_payload_hash") != Str(b.canon.value.hash) then "root_hash_mismatch"
    else "anchor_metadata_mismatch"
  }

  lemma Classified(digests: Digests, q: Query, jobId: string, b: Batch, fallbackMemo: bool)
    requires b.canon.Some?
    ensures ConfirmResponse(q, b, Expected(digests, jobId, b), fallbackMemo)
              == ShownAs(digests, q, jobId, b, fallbackMemo)
  {
    MatchesShows(digests, AnchorOf(q), jobId, b);
    ShowsRoot(digests, AnchorOf(q), jobId, b);
    hide Expected, Matches, Shows, Get;
  }

  lemma ShowsRoot(digests: Digests, anchor: Fields, jobId: string, b: Batch)
    requires b.canon.Some?
    ensures Shows(digests, anchor, jobId, b) ==>
              && Get(anchor, "settlement_batch_id") == Str(b.id)
              && Get(anchor, "canonical_root") == Str(b.canon.value.root)
              && Get(anchor, "anchor_payload_hash") == Str(b.canon.value.hash)
  {
  }

  /** The statuses that end a job. */
  predicate Ends(status: string) {
    || status == "failed" || status == "root_mismatch" || status == "metadata_mismatch"
    || status == "typed_state_missing" || status == "fallback_memo_only"
    || status == "root_hash_mismatch" || status == "settlement_batch_mismatch"
    || status == "anchor_metadata_mismatch" || status == "state_missing"
    || status == "typed_tx_accepted_state_missing" || status == "fallback_memo_tx_accepted_no_typed_state"
  }

  /** A receipt refutes the anchor: the transaction was accepted but the chain does not show the anchor, the
      stored rows do not resolve, or the confirmer itself reports one of the terminal statuses. */
  predicate Refuted(digests: Digests, receipt: Receipt, resolves: bool, jobId: string, b: Batch)
    requires b.canon.Some?
  {
    if receipt.status != "confirmed" then Ends(receipt.status)
    else if receipt.query.Some? then !(resolves && Shows(digests, AnchorOf(receipt.query.value), jobId, b))
    else !receipt.confirmed
  }

  /** A confirmation fails the job exactly when the receipt refutes the anchor. */
  lemma RefutedIff(digests: Digests, receipt: Receipt, resolves: bool, jobId: string, b: Batch)
    requires b.canon.Some?
    ensures Terminal(Normalized(RawStatus(digests, receipt, resolves, jobId, b)))
              == Refuted(digests, receipt, resolves, jobId, b)
  {
    RecordedIs(digests, receipt, resolves, jobId, b);
    TerminalStatuses(RawStatus(digests, receipt, resolves, jobId, b));
    EndsFor();
    hide RawStatus, Normalized, ReportedAs, ShownAs, Shows, Terminal, Ends;
    if receipt.status == "confirmed" && receipt.query.Some? {
      ShownConfirmed(digests, receipt.query.value, jobId, b, receipt.fallbackMemo);
    }
  }

  /** What a status that a confirmer reports is recorded as. */
  function ReportedAs(status: string): string {
    if status in ["typed_tx_accepted_state_missing", "state_missing"] then "typed_state_missing"
    else if status == "fallback_memo_tx_accepted_no_typed_state" then "fallback_memo_only"
    else if status in ["root_hash_mismatch", "settlement_batch_mismatch"] then "root_mismatch"
    else if status == "anchor_metadata_mismatch" then "metadata_mismatch"
    else if status == "" then "pending"
    else status
  }

  lemma ReportedIs(status: string)
    ensures Normalized(status) == ReportedAs(status)
  {
  }

  /** What a receipt amounts to: the status reported, or for an accepted transaction what the chain showed. */
  function AmountsTo(digests: Digests, receipt: Receipt, resolves: bool, jobId: string, b: Batch): string
    requires b.canon.Some?
  {
    if receipt.status == "" then "pending"
    else if receipt.status != "confirmed" then receipt.status
    else if receipt.query.None? then if receipt.confirmed then "confirmed" else "typed_tx_accepted_state_missing"
    else if !resolves then "root_hash_mismatch"
    else ShownAs(digests, receipt.query.value, jobId, b, receipt.fallbackMemo)
  }

  /** Exactly that is the status a receipt leads to, recorded under its settled name. */
  lemma RecordedIs(digests: Digests, receipt: Receipt, resolves: bool, jobId: string, b: Batch)
    requires b.canon.Some?
    ensures RawStatus(digests, receipt, resolves, jobId, b) == AmountsTo(digests, receipt, resolves, jobId, b)
    ensures Normalized(RawStatus(digests, receipt, resolves, jobId, b))
              == ReportedAs(AmountsTo(digests, receipt, resolves, jobId, b))
  {
    ReportedIs(AmountsTo(digests, receipt, resolves, jobId, b));
    hide Expected, ConfirmResponse, ShownAs, Normalized, ReportedAs;
    if receipt.status == "confirmed" && receipt.query.Some? {
      Classified(digests, receipt.query.value, jobId, b, receipt.fallbackMemo);
    }
  }

  /** The statuses a confirmer may report that end a job. */
  lemma TerminalStatuses(status: string)
    ensures Terminal(Normalized(status)) == Ends(status)
  {
  }

  // ---- What holds of the tables ------------------------------------------------------------------------

  /** No two payloads have one hash. */
  ghost predicate CollisionFree(digests: Digests) {
    forall p, q :: digests.payload(p) == digests.payload(q) ==> p == q
  }

  predicate CanonFor(digests: Digests, c: Canon) {
    c.schema == ANCHOR_PAYLOAD_SCHEMA_VERSION && c.payload.root == c.root && c.hash == digests.payload(c.payload)
  }

  /** Open and cancelled batches have no root, payload or job; all others have root and payload; and
      exactly the batches at or past submission point at a job, which points back. */
  predicate BatchSound(digests: Digests, id: string, b: Batch, jobs: Jobs) {
    && b.id == id && b.policy != ""
    && (b.canon.None? <==> b.state == Open || b.state == Cancelled)
    && (b.jobId.Some? <==> b.state == AnchorSubmitted || b.state == Anchored || b.state == AnchorFailed)
    && (b.jobId.Some? ==> b.jobId.value in jobs && jobs[b.jobId.value].batchId == id)
    && (b.canon.Some? ==> CanonFor(digests, b.canon.value))
  }

  /** Every job was made for a batch with a payload and carries that payload's hash. */
  predicate JobSound(id: string, j: Job, batches: Batches) {
    && j.id == id && j.batchId in batches
    && batches[j.batchId].canon.Some? && batches[j.batchId].canon.value.hash == j.payloadHash
  }

  /** An anchored batch was anchored by the job it points at, whose last confirmation either read back
      every expected field from the chain, or was vouched for. */
  predicate AnchorSound(digests: Digests, b: Batch, readBack: map<string, Fields>, vouched: set<string>) {
    b.state == Anchored ==>
      b.jobId.Some? && b.canon.Some?
      && (b.jobId.value in vouched
          || (b.jobId.value in readBack && Shows(digests, readBack[b.jobId.value], b.jobId.value, b)))
  }

  ghost predicate Sound(digests: Digests, batches: Batches, jobs: Jobs, readBack: map<string, Fields>,
                        vouched: set<string>) {
    && (forall id :: id in batches ==>
         BatchSound(digests, id, batches[id], jobs) && AnchorSound(digests, batches[id], readBack, vouched))
    && (forall id :: id in jobs ==> JobSound(id, jobs[id], batches))
  }

  // ---- What a step keeps -------------------------------------------------------------------------------

  /** A batch's root, payload and payload hash never change once set; once it is no longer open neither
      do the amounts and windows they were taken over. */
  predicate KeptOne(b: Batch, b': Batch) {
    && b'.id == b.id
    && (b.canon.Some? ==> b'.canon == b.canon)
    && (b.state != Open ==> b' == b.(state := b'.state, jobId := b'.jobId, canon := b'.canon))
    && (b.state == Cancelled ==> b' == b)
    && (b'.state == Open ==> b.state == Open)
  }

  ghost predicate Kept(batches: Batches, batches': Batches) {
    forall id :: id in batches ==> id in batches' && KeptOne(batches[id], batches'[id])
  }

  lemma KeptSelf(batches: Batches)
    ensures Kept(batches, batches)
  {
  }

  lemma KeptOn(a: Batches, b: Batches, c: Batches)
    requires Kept(a, b) && Kept(b, c)
    ensures Kept(a, c)
  {
    forall id | id in a ensures id in c && KeptOne(a[id], c[id]) {
      assert KeptOne(a[id], b[id]) && KeptOne(b[id], c[id]);
    }
  }

  lemma BatchReplaced(digests: Digests, batches: Batches, jobs: Jobs, readBack: map<string, Fields>,
                      vouched: set<string>, id: string, b: Batch)
    requires Sound(digests, batches, jobs, readBack, vouched)
    requires BatchSound(digests, id, b, jobs) && AnchorSound(digests, b, readBack, vouched)
    requires id in batches ==> KeptOne(batches[id], b)
    ensures Sound(digests, batches[id := b], jobs, readBack, vouched) && Kept(batches, batches[id := b])
  {
    hide Shows, AnchorSound;
    forall x | x in jobs ensures JobSound(x, jobs[x], batches[id := b]) {
      assert JobSound(x, jobs[x], batches);
    }
  }

  lemma JobReplaced(digests: Digests, batches: Batches, jobs: Jobs, readBack: map<string, Fields>, vouched: set<string>,
                    id: string, j: Job)
    requires Sound(digests, batches, jobs, readBack, vouched) && JobSound(id, j, batches)
    requires id in jobs ==> jobs[id].batchId == j.batchId
    ensures Sound(digests, batches, jobs[id := j], readBack, vouched)
  {
    hide Shows, AnchorSound, JobSound;
    forall x | x in batches ensures BatchSound(digests, x, batches[x], jobs[id := j]) {
      assert BatchSound(digests, x, batches[x], jobs);
    }
  }

  lemma LogExtended(digests: Digests, batches: Batches, jobs: Jobs, readBack: map<string, Fields>, vouched: set<string>,
                    readBack': map<string, Fields>, vouched': set<string>, jobId: string)
    requires Sound(digests, batches, jobs, readBack, vouched) && vouched <= vouched'
    requires forall x :: x in readBack && x != jobId ==> x in readBack' && readBack'[x] == readBack[x]
    requires forall id :: id in batches && batches[id].jobId == Some(jobId) ==>
               AnchorSound(digests, batches[id], readBack', vouched')
    ensures Sound(digests, batches, jobs, readBack', vouched')
  {
    hide Shows;
    forall id | id in batches ensures AnchorSound(digests, batches[id], readBack', vouched') {
      assert BatchSound(digests, id, batches[id], jobs) && AnchorSound(digests, batches[id], readBack, vouched);
    }
  }

  /** The batch still equals what the chain answered when its job was confirmed. */
  predicate FromChain(digests: Digests, id: string, b: Batch, jobs: Jobs, readBack: map<string, Fields>) {
    && b.jobId.Some? && b.canon.Some? && b.jobId.value in jobs && b.jobId.value in readBack
    && jobs[b.jobId.value].batchId == id && jobs[b.jobId.value].payloadHash == b.canon.value.hash
    && Shows(digests, readBack[b.jobId.value], b.jobId.value, b)
  }

  /** Over a run in which no confirmer vouched, every anchored batch still equals what was read back. */
  lemma AnchoredMatchesChain(digests: Digests, batches: Batches, jobs: Jobs, readBack: map<string, Fields>, id: string)
    requires Sound(digests, batches, jobs, readBack, {}) && id in batches && batches[id].state == Anchored
    ensures FromChain(digests, id, batches[id], jobs, readBack)
  {
    var b := batches[id];
    assert BatchSound(digests, id, b, jobs) && AnchorSound(digests, b, readBack, {});
    assert JobSound(b.jobId.value, jobs[b.jobId.value], batches);
    hide Shows;
  }
}
