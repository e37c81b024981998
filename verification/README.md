# Verification models for ClawChain's arena gateway and mining service

This project models the parts of ClawChain in which money, identity and settlement depend on getting
many steps right together, and proves what those steps keep. Verify with `dafny verify dfyconfig.toml`.

- **The submit gateway** (`Gateway`, `GatewayProtocol`, `GatewayReplay`, `GatewayProgress`,
  `GatewayAnswers`). Callers race on a request id; one owns it, the others wait on a channel, failures
  hand ownership on, and a durable ledger makes replay safe. `Gateway` is the code under the mutex and
  the body of an owned submit, proved equal to a run of single steps; `GatewayProtocol` interleaves those
  steps with arrivals, wake-ups, cancellations, restarts and every outcome of every outside call;
  `GatewayReplay` proves that the table actor accepts a request at most once, `GatewayProgress` that every
  submit ends, and `GatewayAnswers` what each is answered, in the terms of its caller.
- **Settlement and anchoring** (`Settlement`, `SettlementService`, `SettlementRuns`). Batches and anchor
  jobs over the in-memory repository: over every run a batch's root never changes once set, its anchored
  rows add up to its total, and an anchored batch equals what the chain answered; a job its batch no
  longer points at touches no batch, with one exact exception. Being anchored is not final: an operator's
  verdict can still fail the batch, and the properties hold anyway.
- **Money.** `Rewards`, `RewardOutcomes`, `RewardService` and `RewardRuns` account for commitments,
  predictions and paid and held forecast rewards (`BackwardClock` for a clock set back); `Budget` for the
  emission budget, `BudgetRuns` for its ledgers in joint runs with settlement; `Allocation`,
  `EqualAllocation`, `ForecastRows`, `RowMerge`, `MergedRows` and `Paging` take a pool or the submissions
  to the merged rows that are anchored and back from stored pages. Weights and quotas are exact reals.
- **Economic units** (`UnionFind`, `Clusters`, `UnitSeeds`, `Partition`). Union-find with path halving over shared
  evidence, and the stored partition that registrations and refreshes must keep in step with a
  recomputation.
- **Codecs** (`Bech32Bits`, `Bech32Register`, `Bech32`, `Bech32Residue`, `ProtobufWire`, `ProtobufTx`,
  `ProtobufReadBack`). Addresses after BIP 173 and signed transactions after the Protocol Buffers Encoding
  ("Base 128 Varints" and "Message Structure"), with unique decodability and error detection.
- **Hands and halving** (`HandHistory`, `Halving`). Versioned ingest in two stores that must agree, and
  the halving schedule against the promised supply.

`Options`, `Ordering`, `Powers` and `MapSums` hold shared vocabulary: optional values, sorting and
string order, numbers in a base, sums over maps.

## What the proofs found

- Emission reaches 21 million CLAW at epoch 7,980,000 and goes on at one uclaw an epoch: the minimum
  of one uclaw has no end (`Halving.SupplyBound`). The same minimum gives validators one uclaw an epoch
  from the first halving on although their pool starts at zero (`Halving.ValidatorPool`).
- A retry of a failed anchor job never compares the batch's job pointer with the job, so a job the batch
  no longer points at can move the batch to a new job (`SettlementRuns.StaleRetryMovesBatch`; exactly when,
  `SettlementRuns.StaleEvent`). Every other event on such a job leaves all batches alone.
- A refresh that turns a stored address into nothing recomputes the units without the address but does
  not remove it, so stored units and stored signals can part (`Partition.DropSplitsUnits`; exactly when,
  `Partition.RunAll` and `Partition.DropKeepsUnits`). Passing no address can do this too, when a stored
  address normalizes to nothing the second time.
- Unit ids are digests of addresses joined by a bar, and registration does not refuse a bar in an
  address: two stored units can share an id (`Partition.BarredAddress`; exactly when,
  `Clusters.SeedsAgree` and `UnitSeeds.SharesSeedIff`).
- Holds and held rewards stay equal only under a clock that does not run backwards: set back, it pays a
  hold that stays open, and pays it again later (`BackwardClock.PaidTwice`; exactly when,
  `RewardService.ReleaseExact`). No bound on the reveal window is needed: a reveal after settlement
  never earns anything.
- A confirmer other than the shipped one can have a batch anchored without any anchor being read
  (`SettlementService.VouchingSkipsTheChain`).
- A heavier item can get less when no weight is positive (`EqualAllocation.HeavierCanLose`; exactly when,
  `EqualAllocation.HeavierGetsNoLessIff`). The one caller (forecast_engine.py:4526-4540) allocates only when
  some weight is positive, so it never reaches that branch.
- The two hand stores part for a valid versioned event whose identity carries an empty hand id
  (`HandHistory.UnnamedHandsDiffer`; exactly when, `HandHistory.StoresJudgeAlike` and
  `HandHistory.StoresStayAgreed`).

## Reading the models

SHA-256 digests and the JSON they are taken over are either represented by what is hashed (gateway
payload hashes, unit ids) or given as functions (roots, batch payload hashes, commitments), assumed free
of collisions only where a lemma says so.
The table actor and the durable store behind the gateway's ledger interface appear by contract: a
successful `Handle` durably leaves one action record with the returned, non-empty event id. Clocks,
task outcomes, scores, chain queries, broadcasters and the normalizers of addresses and client strings
are inputs of the steps. Each public operation of the settlement and reward services is one atomic step,
and the reconcile that most of them begin with is a step of its own. A submission and its hold are known
by task and miner, as their composed ids are taken to be unambiguous.

## Model

| member | source | states |
|---|---|---|
| `Gateway.Gateway.Begin` | arena/gateway/submit.go:125-149 | The opening section under the mutex: the request conflicts exactly if the cached request, or the one in flight, under its id differs in tournament, table, miner, seat, action type, amount or expected seq; else the cached answer, joining the request in flight, or becoming its owner with a new open channel; the new tables are exactly those of the protocol step |
| `Gateway.HashTells` | arena/gateway/submit.go:368-384 | Two requests have one payload hash exactly if these seven fields are equal; session, signature and request id do not count |
| `Gateway.Gateway.Finish` | arena/gateway/submit.go:328-342 | The closing section under the mutex: caches what the flags say, closes the channel of the request in flight and removes it |
| `Gateway.Gateway.SubmitOwned` | arena/gateway/submit.go:151-229 | The body of an owned submit followed by its deferred finish is, for every outcome of every outside call, the run of the protocol steps |
| `Gateway.Gateway.OwnedBody` | arena/gateway/submit.go:158-228 | The owned body, straight-line code with early returns, computes exactly the run of the steps from the command check to the finish |
| `Gateway.Gateway.HandleAndRecord` | arena/gateway/submit.go:187-228 | Unknown table, received entry, the actor, and what follows a success or a failure |
| `Gateway.Gateway.RecordOutcome` | arena/gateway/submit.go:206-228 | Committed entry, observer, applied entry; only the last success caches the response |
| `Gateway.Gateway.FinalizeDurableReplay` | arena/gateway/submit.go:277-287 | A replay tells the observer when the table is present and appends an applied entry unless an observer is set and the table is gone |
| `Gateway.Gateway.RecordSubmission` | arena/gateway/submit.go:289-326 | Nothing without a durable ledger; else one entry, refused when the stored payload hash differs |
| `Gateway.LedgerStore.AppendEntry` | arena/store/postgres/repository.go:1098-1190 | An append under another payload hash is refused; a failure may come before or after the write |
| `Gateway.LedgerStore.Handle` | arena/table/actor.go:99-150 | Contract of the actor: an accepted command durably leaves one action record holding the returned event id and state seq |
| `Gateway.RunOwned` | arena/gateway/submit.go:151-229 | An owned submit always reaches its finish, whatever the outside calls return |
| `Gateway.OwnedStepMoves` | arena/gateway/submit.go:151-229 | Every step brings an owned call strictly nearer to its finish and keeps its request, channel, actor and observer |
| `GatewayProtocol.StepKeepsTables` | arena/gateway/submit.go:104-149 | Kept by every event, with or without a durable ledger: one owner per request in flight, each channel open exactly while held and closed at most once, no waiter stranded, every cached response with a cached request |
| `GatewayProtocol.BeginKeepsTables` | arena/gateway/submit.go:125-149 | The opening section keeps that invariant for every call in progress |
| `GatewayProtocol.FinishKeepsTables` | arena/gateway/submit.go:328-342 | The closing section keeps it: the owner closes only its own channel and writes only its own id |
| `GatewayReplay.ReadsAs` | arena/gateway/submit.go:187-226 | A status sequence that grows by the allowed neighbours reads received+ committed? applied* |
| `GatewayReplay.StepKeepsInv` | arena/gateway/submit.go:96-342 | Over a durable ledger every event, restarts included, also keeps: entries of one payload, received+ committed? applied* once an action record exists and only received before, cached values equal to the record, at most one successful Handle per id |
| `GatewayReplay.RunKeepsInv` | arena/gateway/submit.go:96-342 | Those invariants hold after every run |
| `GatewayReplay.HandleAtMostOnce` | arena/gateway/submit.go:96-326 | Over every interleaving of submits, failures and restarts with a durable ledger: the table actor accepts the command of a request id at most once, lost answers included, and exactly once if the id was answered with success; all success answers for the id are equal and were given to requests with the same seven fields, and its entries read received+ committed? applied* |
| `GatewayReplay.ActionsCounted` | arena/gateway/submit.go:187-204 | Over any part of a run the actor accepts exactly as many commands of an id as there are action records of it more |
| `GatewayReplay.OwnershipIsExclusive` | arena/gateway/submit.go:104-149 | In every reachable state: at most one owner per id; a made channel is open exactly while a live owner holds it and has been closed exactly once otherwise; each waiter's channel is closed or held by a live owner of its id; every cached response has its request |
| `GatewayReplay.CacheNeverChanges` | arena/gateway/submit.go:328-337 | Between restarts a cached response and a cached payload hash never change |
| `GatewayReplay.RecordNeverChanges` | arena/gateway/submit.go:263-275 | An action record never changes once written, restarts included |
| `GatewayProgress.StepDescends` | arena/gateway/submit.go:114-122 | Every step of a call in progress - beginning, waking up and trying again, a step of an owned body, finishing, giving up - lowers a natural-number potential, although one finish may wake all waiters |
| `GatewayProgress.RunEnds` | arena/gateway/submit.go:96-123 | So with no new callers a run is no longer than its potential, however the calls interleave and whatever the outside calls return: the loop of waking up and trying again ends for every caller |
| `GatewayProgress.SomeCallCanMove` | arena/gateway/submit.go:114-122 | No deadlock: while a call has not returned, some call can take a step, even if nobody gives up |
| `GatewayProgress.SubmitsEnd` | arena/gateway/submit.go:96-123 | From every reachable state the submits in progress end within a bound quadratic in their number, and when no step is left every one has returned |
| `GatewayReplay.FirstSubmitWrites` | arena/gateway/submit.go:151-229 | An undisturbed first submit writes received, committed, applied in that order, leaves the record and caches request and response |
| `GatewayReplay.ReplayAnswersFromRecord` | arena/gateway/submit.go:170-185 | A submit that finds its record answers with it, without the actor, and adds at most one applied entry |
| `GatewayReplay.OtherPayloadIsRefused` | arena/gateway/submit.go:163-169 | A request whose id the ledger knows for a request that differs in one of the seven fields is refused and nothing is written |
| `GatewayAnswers.BeginAnswersIff` | arena/gateway/submit.go:125-149 | In every reachable state a call that begins is refused for its payload exactly if the cached request of its id, or its live owner, asked for something else; otherwise it gets the cached answer, waits for the owner, or becomes it |
| `GatewayAnswers.OnlyProperAnswered` | arena/gateway/submit.go:96-113 | Over every run only requests that carry their miner's signature and an action that is not blank are answered with success |
| `GatewayAnswers.FirstSubmitAnswers` | arena/gateway/submit.go:151-229 | Exactly which error a submit of an unknown id ends with, for every outcome of every outside call: blank action, ledger, unknown table, the write that failed, a stale state seq, the actor, the observer; else the actor's answer |
| `GatewayAnswers.ArrivalAnswers` | arena/gateway/submit.go:96-113 | An arriving call is turned away without a context or without its miner's signature, in this order |
| `GatewayAnswers.KnownTables` | arena/gateway/submit.go:231-247 | After any run the tables a command can find are those registered and not removed since, and the observer is the one last set |
| `Settlement.ConfirmedIff` | mining-service/forecast_engine.py:3041-3140 | A confirmation comes out as confirmed exactly when the chain was queried, the stored rows resolve and the anchor shows the twelve named fields of batch, job and payload, or the confirmer itself vouched without a query |
| `Settlement.RefutedIff` | mining-service/forecast_engine.py:3041-3140 | It ends the job as failed exactly when an accepted transaction shows no such anchor, its rows do not resolve, or the confirmer reports one of the eleven failing statuses |
| `Settlement.RecordedIs` | mining-service/forecast_engine.py:3041-3140 | The status a receipt leads to is what the confirmer reported, or for an accepted transaction what the chain showed, recorded under its settled name |
| `Settlement.Classified` | mining-service/chain_adapter.py:41-108 | What a query answer amounts to: no anchor, all twelve fields shown, another batch, another root or payload, or other metadata |
| `Settlement.MatchesShows` | mining-service/forecast_engine.py:1590-1605 | The expected fields are exactly twelve: batch id, job id, lane, schema, policy, canonical root, payload hash, the roots of windows, tasks and rows, the end time and the total, each with the value of batch, job or payload |
| `Settlement.BatchReplaced` | mining-service/repository.py:637-641 | Storing a batch that keeps the root and payload hash of the one it replaces keeps every table invariant |
| `Settlement.KeptOn` | mining-service/repository.py:637-767 | Root, payload and payload hash stay set over any number of steps |
| `Settlement.AnchoredMatchesChain` | mining-service/forecast_engine.py:3041-3299 | When no confirmer vouched, every anchored batch points at a job whose last confirmation read back an anchor that shows all twelve fields of the batch |
| `SettlementService.Service.SyncWindow` | mining-service/forecast_engine.py:5307-5345 | A weighted window creates its batch, refreshes it while it is open, leaves any other batch alone, and is linked to it under the id it names or one of its own; an open batch then has the window's lane, times, policy (or the default), counts and total, lists just the window and has no payload or job; an unweighted window does nothing |
| `SettlementService.Service.BuildBatches` | mining-service/forecast_engine.py:5307-5345 | Building batches over all windows, in any order: every weighted window is linked to a batch that exists, and every batch is either as it was, being closed or no window's, or open and exactly as a window linked to it has it |
| `SettlementService.SyncedUpToDate` | mining-service/forecast_engine.py:5307-5345 | Afterwards every open batch is exactly as its window has it, if open batches were linked to their windows before |
| `SettlementService.Service.StoreWindow` | mining-service/forecast_engine.py:4558-4668 | A stored window keeps its link; without weights it loses the link and its batch is cancelled if that is open |
| `SettlementService.Service.CancelOpen` | mining-service/forecast_engine.py:4558-4568 | A window rebuilt without positive weights cancels its batch only if that is open |
| `SettlementService.Service.RetryAnchor` | mining-service/forecast_engine.py:2676-2823 | A retry returns the first of: no such batch, cancelled or nothing to pay, poker not anchored, a poker window without rows, a page size of zero or less, a stored payload that does not say what the batch settles now; otherwise the batch, ready if it was open or failed, with the one payload that does: its own id, lane, times, policy, counts and total, its windows in order, exactly the task runs its stored windows list, in order and once, one row for each miner named there with the miner's sums, and the root and hash of these; nothing else ever changes |
| `SettlementService.ComputeCanon` | mining-service/forecast_engine.py:2692-2791 | The loops over windows compute that payload, or the first error, as one function of windows and batch |
| `SettlementService.CanonSays` | mining-service/forecast_engine.py:2692-2791 | What they compute says what the batch settles, field by field |
| `SettlementService.SaysOnce` | mining-service/forecast_engine.py:2748-2791 | Only one payload says so |
| `MergedRows.MergedOfMerges` | mining-service/forecast_engine.py:811-915 | The grouping makes exactly one row for each miner named, in address order, holding the miner's sum of every integer column, and all columns unless none of its rows had any |
| `MergedRows.MergedOnce` | mining-service/forecast_engine.py:811-915 | There is one way to merge rows so |
| `Ordering.StringOrder` | mining-service/forecast_engine.py:873-874 | The order of sorted texts: a prefix first, otherwise by the first character that differs |
| `SettlementService.Gather` | mining-service/forecast_engine.py:2697-2747 | Task ids and rows of all windows in order, or the first missing projection |
| `SettlementService.CanonMakesTotal` | mining-service/forecast_engine.py:2692-2789 | The merged rows of the payload computed for an open batch add up to its total, if the batch is as its window has it and the window's rows add up to the window's total |
| `SettlementService.PoolWindowTotalled` | mining-service/forecast_engine.py:4526-4585 | A poker window whose rows pay out an allocated pool has rows adding up to its total |
| `ForecastRows.BuildRows` | mining-service/forecast_engine.py:731-810 | The grouping loop over submissions gives the merged rows of the revealed ones that name a miner |
| `ForecastRows.BuiltGross` | mining-service/forecast_engine.py:731-810 | They add up to the rewards of those submissions |
| `ForecastRows.WindowRows` | mining-service/forecast_engine.py:5170-5204 | The rows built from a stored window's submissions add up to the total it is stored with, so a forecast window that carries them has rows adding up to its total |
| `SettlementService.FreshJobId` | mining-service/forecast_engine.py:3221-3227 | The search for a job id ends, with the first of base, base_1, base_2, ... that no job has |
| `SettlementService.CandidatesDistinct` | mining-service/forecast_engine.py:3221-3227 | The ids it tries are all different |
| `SettlementService.Service.SubmitJob` | mining-service/forecast_engine.py:3207-3250 | Only an anchor_ready batch gets a job; the job is new, carries the batch's payload hash, and the batch points at it |
| `SettlementService.Service.Broadcast` | mining-service/forecast_engine.py:2858-2990 | A broadcast sets the job submitted with its hash and leaves batches alone; a refusal fails the job and the batch that points at it |
| `SettlementService.Service.Confirm` | mining-service/forecast_engine.py:3041-3190 | Resolves the job, refuses one without a transaction, leaves an anchored one alone; any other is anchored exactly if the confirmer vouched, or the chain was asked, the rows resolve and the anchor shows the twelve fields, and failed exactly if the receipt refutes the anchor or it had failed and is left pending, with the status and reason the receipt gives; only a vouching confirmer can anchor without a chain answer |
| `SettlementService.Service.Apply` | mining-service/forecast_engine.py:3118-3176 | Records the status and anchors, fails or leaves pending the job, and the batch with it only if it points at the job |
| `SettlementService.Service.MarkAnchored` | mining-service/forecast_engine.py:3252-3299 | Callers cannot mark a job anchored; a verified confirmation anchors the job found and, if that still points at the job, its batch, and the anchor invariant holds afterwards |
| `SettlementService.Service.MarkFailed` | mining-service/forecast_engine.py:3301-3331 | Failing changes the job whatever its state and, if it still points there, the batch |
| `SettlementService.Service.RetryFailedBroadcast` | mining-service/forecast_engine.py:2993-3039 | A retry gets through exactly for a failed job whose batch is ready or failed and anchorable, and succeeds exactly if the broadcast then does; it moves the batch to a new job, leaves every old job as it was and changes no other batch; otherwise nothing changes |
| `SettlementRuns.StaleEvent` | mining-service/forecast_engine.py:2993-3331 | An event on a job its batch does not point at leaves every batch as it was if and only if it is not the retry of a failed job whose batch is ready or failed and anchorable; that retry, which never compares the batch's job pointer, moves this one batch to a new job |
| `SettlementRuns.StaleJobs` | mining-service/forecast_engine.py:2993-3331 | The same for every event of every run |
| `SettlementRuns.StaleRetryMovesBatch` | mining-service/forecast_engine.py:3001-3021 | The exception is reachable from an empty service: store a window, build its batch, retry, submit, fail the job, retry the batch, then retry the failed job |
| `SettlementRuns.Step` | mining-service/repository.py:643-767 | Every operation has exactly its stated effect on windows, batches and jobs, and keeps the table invariants (open and cancelled batches have no root, jobs carry their batch's hash) and all roots |
| `SettlementRuns.RunAll` | mining-service/forecast_engine.py:2664-3331 | Every list of window stores, reconciles, retries, submissions, broadcasts, confirmations, marks and failures is a run of such steps from where the service stands |
| `SettlementRuns.RootsNeverChange` | mining-service/forecast_engine.py:2664-3331 | Between any two points of any run no root, payload or payload hash that was set changes |
| `SettlementRuns.AnchoredFromChain` | mining-service/forecast_engine.py:3041-3299 | At every point of every run without vouching, every anchored batch shows in all twelve fields of what the chain answered when the job it points at was confirmed |
| `SettlementRuns.EventKeepsTotals` | mining-service/forecast_engine.py:2664-3331 | One event keeps rows adding up to totals, if a stored window's rows add up and the batches are up to date when one is made anchorable; a reconcile brings them up to date |
| `SettlementRuns.RowsAlwaysMakeTotals` | mining-service/forecast_engine.py:2664-3331 | At every point of every run in which each retry begins with a reconcile and stored windows' rows add up (as PoolWindowTotalled and ForecastRows.WindowRows show for poker and forecast windows), the anchored rows of every batch with a root add up to its total |
| `SettlementService.ShippedReadsBack` | mining-service/chain_adapter.py:866-880 | The shipped confirmer always queries the chain, so with it a job is confirmed exactly when the rows resolve and the anchor shows all twelve fields |
| `SettlementService.VouchingSkipsTheChain` | mining-service/forecast_engine.py:3092-3138 | Counterexample: a confirmer that answers confirmed on its own word anchors without any anchor being read |
| `Budget.BudgetBook.BuildWindow` | mining-service/forecast_engine.py:4280-4510 | A build leaves everything alone exactly for a window past its open batch or last built from the same inputs and pool; else it reserves or forfeits the pool exactly when the other windows' approved amounts leave room, and changes nothing when it is refused; a built window's ledger always requested the pool it was last built with |
| `Budget.BudgetBook.PriorApproved` | mining-service/forecast_engine.py:4338-4346 | The loop over ledgers sums the approved amounts of all other windows |
| `Budget.BudgetBook.Pay` | mining-service/forecast_engine.py:3286-3298 | Anchoring pays exactly the ledgers of the batch's windows their approved amounts |
| `Budget.BudgetBook.Link` | mining-service/forecast_engine.py:4724-4730 | Linking a ledger to its batch changes nothing else |
| `Budget.LedgerIdInjective` | mining-service/repository.py:1648-1649 | Under one source and epoch, ledger ids tell windows apart |
| `Budget.RunAll` | mining-service/forecast_engine.py:4280-4377 | Over every run of builds, rebuilds, settlements and anchorings: approved amounts stay within the epoch budget, paid <= approved, requested = approved + forfeited, and what is paid stays paid |
| `BudgetRuns.RebuildKeeps` | mining-service/forecast_engine.py:4500-4731 | Rebuilding a window that is not settled keeps windows, batches and ledgers in agreement: the window, its open batch and its ledger are for one amount |
| `BudgetRuns.PlainEvent` | mining-service/forecast_engine.py:2664-3331 | A settlement event other than a reconcile changes no window, keeps every batch's windows and total, and anchors at most the batch of the job it confirms |
| `BudgetRuns.PayBatch` | mining-service/forecast_engine.py:3286-3298 | Anchoring pays exactly the ledgers of the windows of the batch what they approved, and what is paid now is the total of the batch |
| `BudgetRuns.RunAll` | mining-service/forecast_engine.py:2664-4731 | Over every joint run of poker builds, forecast windows and settlement events: a ledger is paid only if its batch was anchored at some point of the run for its window and exactly the amount paid, and the ledgers of every anchored batch are paid what was approved |
| `Rewards.WindowsPayMiners` | mining-service/forecast_engine.py:5140-5221 | When every resolved task is in a window, the windows' totals equal all that miners were paid plus what is held |
| `RewardService.RewardBook.Save` | mining-service/repository.py:502-522 | A submission is stored unless a request id of it was used for another; then nothing changes |
| `RewardService.RewardBook.Commit` | mining-service/forecast_engine.py:1948-2008 | A commitment is accepted exactly for a published task within its window, a registered miner and no earlier commitment, and stores the hash and nothing else |
| `RewardService.RewardBook.Reveal` | mining-service/forecast_engine.py:2010-2096 | A reveal is refused with the first of: unknown task, not published, window closed, not registered, no commitment, already revealed, commitment not opened by the clamped probability and the nonce; otherwise it fixes the clamped prediction and counts for the miner; rewards are untouched, even when it comes after settlement |
| `RewardService.RewardBook.SettleSubmission` | mining-service/forecast_engine.py:4924-5018 | One settlement pays a mature miner all of the reward and another the released share, rounded half to even, opens a hold for the rest that is due at once, and credits the miner with both |
| `RewardService.RewardBook.SettleTask` | mining-service/forecast_engine.py:4931-5029 | Settling a task gives it its outcome and resolves every revealed submission once, with no reward for an ineligible one |
| `RewardService.RewardBook.SettleDue` | mining-service/forecast_engine.py:4899-5029 | Every unresolved task whose time has come is resolved with its outcome and its revealed submissions settled, or awaits it and they wait, by whether an outcome is known; every other task and submission is as it was |
| `RewardService.RewardBook.AwaitTask` | mining-service/forecast_engine.py:4910-4929 | Without an outcome revealed submissions wait and nothing is paid |
| `RewardService.ReleasedWithin` | mining-service/forecast_engine.py:5726-5731 | The part paid at once never exceeds the reward |
| `RewardService.PaidAtOnce` | mining-service/forecast_engine.py:5726-5731 | It is everything for a mature miner, and otherwise the whole number nearest to the released share, the even one of two |
| `RewardService.RewardBook.CloseHolds` | mining-service/forecast_engine.py:5095-5110 | Whatever the clock says, closing a miner's due holds closes exactly these and returns what was open in them |
| `RewardService.ClosedSums` | mining-service/forecast_engine.py:5095-5110 | It takes exactly the due amounts off the miner's open holds and touches no other miner's |
| `RewardService.RewardBook.ReleaseMiner` | mining-service/forecast_engine.py:5090-5138 | Whatever the clock says, a mature miner's due holds are closed and its account moves by their amount, or by all that is held when none is due; and every invariant of the tables is kept |
| `RewardService.ReleaseExact` | mining-service/forecast_engine.py:5090-5127 | Whatever the clock says, releasing makes and loses nothing; an account that equals its miner's open holds still does afterwards if and only if some hold of the miner is due or none is open |
| `BackwardClock.PaidTwice` | mining-service/forecast_engine.py:5090-5127 | Counterexample from an empty book, with the clock set back: a held reward is paid before its hold is due, held and open holds part, and the hold is paid again when due |
| `RewardService.RewardBook.ReleaseMatured` | mining-service/forecast_engine.py:5090-5138 | Every mature miner is paid all that it has held and is marked so, no other account moves, and all accounts together are unchanged |
| `RewardService.RewardBook.TotalRewards` | mining-service/forecast_engine.py:5170-5191 | The loop over submissions sums the rewards of the window's tasks |
| `RewardService.RewardBook.BuildWindow` | mining-service/forecast_engine.py:5156-5213 | A window's total stays the rewards of all tasks in it when resolved tasks join, and exactly the revealed submissions of its tasks learn it |
| `RewardService.RewardBook.BuildWindows` | mining-service/forecast_engine.py:5140-5221 | Exactly the resolved tasks without a window get into the window of their hour, and their revealed submissions learn it; afterwards every resolved task is in exactly one window |
| `RewardService.RewardBook.Reconcile` | mining-service/forecast_engine.py:1795-1825 | A reconcile resolves exactly the unresolved tasks whose time has come and whose outcome is known, settles their revealed submissions, lets those of the other due tasks wait, files what is resolved, and changes no other task or submission; mature miners have nothing held, and the window totals equal all miners' total plus held |
| `RewardRuns.RunAll` | mining-service/forecast_engine.py:4899-5221 | Over every run under a clock that does not run backwards: a task is resolved only by a reconcile at or after its time that had its outcome, a submission has a prediction only by a reveal within the task's window that opened its commitment and a reward only from the reconcile that resolved its task; held rewards are the open holds, total plus held the rewards of the miner's submissions, and after a reconcile the windows add up to both |
| `RewardRuns.ReconcileExplains` | mining-service/forecast_engine.py:1795-1825 | One reconcile keeps every task and submission explained by what happened |
| `Allocation.AllocatePool` | mining-service/forecast_engine.py:918-940 | Each item gets its floored share, and one more if its remainder is among the leading ones; nothing for an empty list or a pool of zero or less |
| `Allocation.PoolIsSpent` | mining-service/forecast_engine.py:918-940 | The allocation sums to the pool |
| `Allocation.SharesAreRounded` | mining-service/forecast_engine.py:931-939 | Each amount is its exact quota rounded down or up |
| `Allocation.WinnersRoundUp` | mining-service/forecast_engine.py:938-939 | Only items with something rounded away get one more |
| `Allocation.ZeroGetsNothing` | mining-service/forecast_engine.py:923-928 | A weight of zero or less gets nothing when some weight is positive |
| `Allocation.HeavierGetsNoLess` | mining-service/forecast_engine.py:931-939 | When some weight is positive, a strictly heavier item never gets less |
| `EqualAllocation.EvenSplit` | mining-service/forecast_engine.py:925-939 | When no weight is positive every item gets the even split, and the smallest ids, as many as it leaves over, one more each |
| `EqualAllocation.HeavierGetsNoLessIff` | mining-service/forecast_engine.py:918-940 | A heavier item gets no less if and only if some weight is positive, or the lighter id is not among the smallest ids that get one more while the heavier is not |
| `EqualAllocation.HeavierCanLose` | mining-service/forecast_engine.py:925-939 | Counterexample: of weights -2 and -1 the lighter item takes the pool by its id |
| `Allocation.OrderIsForgotten` | mining-service/forecast_engine.py:918-940 | Input order does not matter |
| `RowMerge.MergeRows` | mining-service/forecast_engine.py:811-915 | The grouping loop and the sorted output give one merged row per named miner |
| `RowMerge.MergeKeepsSums` | mining-service/forecast_engine.py:849-866 | Merging keeps the sum of every integer column |
| `RowMerge.MergedSorted` | mining-service/forecast_engine.py:873-874 | Merged rows name each miner once, in address order |
| `RowMerge.MergeOfMerged` | mining-service/forecast_engine.py:811-915 | Merging merged parts equals merging everything |
| `RowMerge.MergeTwice` | mining-service/forecast_engine.py:811-915 | Merging twice changes nothing more |
| `RowMerge.WindowRowsSumToPool` | mining-service/forecast_engine.py:4577-4585 | The rows of a poker window, merged or not, add up to the allocated pool |
| `MergedRows.PoolRows` | mining-service/forecast_engine.py:4577-4585 | A poker window has one plain row for each economic unit: its representative, its submissions and its allocation |
| `Paging.BuildPages` | mining-service/forecast_engine.py:955-988 | A size of zero or less is an error; short lists stay inline; others are cut into the specified pages under the root of all rows |
| `Paging.PagesHold` | mining-service/forecast_engine.py:966-984 | The pages are numbered in order, rooted in their rows, and joined they are the rows |
| `Paging.Resolve` | mining-service/forecast_engine.py:991-1033 | Inline rows first, else pages by index in order; the first missing page, root or count mismatch decides, then the root of all rows |
| `Paging.TakenByIndex` | mining-service/forecast_engine.py:1017 | Pages are taken by index, and those of one index in the order their references were given |
| `Paging.RoundTrip` | mining-service/forecast_engine.py:955-1033 | Paging then resolving gives the rows back for every page size and any order or repetition of the stored pages |
| `Paging.PagesResolve` | mining-service/forecast_engine.py:1000-1033 | The same for pages found among arbitrary other artifacts |
| `Paging.ResolvedHasRoot` | mining-service/forecast_engine.py:998-1033 | A successful resolve under a stored root returns rows with that root, except for a payload with neither rows nor pages |
| `Paging.ResolveNeverLies` | mining-service/forecast_engine.py:991-1033 | With a collision-free hash no artifacts make a built payload resolve to other rows |
| `UnionFind.Find` | mining-service/forecast_engine.py:369-373 | The search ends at the root above the start; path halving changes no root |
| `UnionFind.Union` | mining-service/forecast_engine.py:375-379 | Joins exactly the classes of its two arguments |
| `Clusters.AdjacentIff` | mining-service/forecast_engine.py:381-389 | Two miners share evidence exactly if both have addresses that are one but for surrounding blanks and case, or one client digest, or the digest of one reads like the other's address |
| `Clusters.StripTakesBlanks` | mining-service/forecast_engine.py:385 | Stripping takes blanks off both ends and leaves none there |
| `Clusters.LowerLetters` | mining-service/forecast_engine.py:385 | Lower-casing changes the capitals and nothing else |
| `Clusters.SameUnitIffLinked` | mining-service/forecast_engine.py:362-407 | Two miners have one unit id exactly when a chain of shared evidence links them |
| `Clusters.GatherEvidence` | mining-service/forecast_engine.py:381-389 | Each evidence lists exactly the positions of the miners that carry it |
| `Clusters.JoinAll` | mining-service/forecast_engine.py:391-394 | After the unions, miners sharing evidence have one root, and one root means linked |
| `Clusters.RootsAreUnits` | mining-service/forecast_engine.py:391-394 | The roots are exactly the classes of linked miners |
| `Clusters.Components` | mining-service/forecast_engine.py:362-407 | For distinct addresses every miner, and nothing else, is mapped to its unit, a function of the set of miners, so input order does not matter; miners with one network address or one client digest are in one unit |
| `Clusters.SeedsAgree` | mining-service/forecast_engine.py:402-404 | Two units have one seed if and only if cutting their addresses at the separator gives one list |
| `Clusters.SeedReadBack` | mining-service/forecast_engine.py:402-404 | A unit is read back from its seed if and only if none of its addresses contains the separator; otherwise another list has the same seed |
| `Clusters.SeedInjective` | mining-service/forecast_engine.py:402-404 | So different units without the separator have different seeds |
| `UnitSeeds.SharesSeedIff` | mining-service/forecast_engine.py:402-404 | A unit that can be stored (distinct claw1 addresses in order) shares its seed with another such unit if and only if it has two members or more, or its one address can be cut at a separator into two claw1 addresses in order |
| `UnitSeeds.UnitsStorable` | mining-service/forecast_engine.py:362-407 | Every unit of registered miners is such a list |
| `Partition.BarredAddress` | mining-service/forecast_engine.py:1827-1896 | Counterexample registration can produce: two miners behind one address and a third whose address joins theirs with the separator are stored under different units with one seed |
| `Partition.Registry.Register` | mining-service/forecast_engine.py:1827-1896 | Registration refuses exactly a bad prefix, an old version or a known address; else the miner joins and every stored unit equals a recomputation |
| `Partition.Registry.Refresh` | mining-service/forecast_engine.py:5536-5604 | A refresh stores the new signals, except that a missing address is not taken away; if it changes something the units are in step afterwards exactly when no address is dropped or its sharers stay linked, otherwise exactly when they were before |
| `Partition.Registry.UpdateIdentity` | mining-service/repository.py:341-357 | Of one miner each given field is replaced and each absent one, and its address, stays; no other miner changes |
| `Partition.DropKeepsUnits` | mining-service/forecast_engine.py:5563-5590 | Dropping an address leaves every unit unchanged exactly when everyone sharing it stays linked without it |
| `Partition.SharesIpIff` | mining-service/forecast_engine.py:385 | Those are the miners with the same address or a client digest that reads like it |
| `Partition.DropSplitsUnits` | mining-service/repository.py:352-353 | Counterexample: two miners behind one address split when one is next seen from the loopback |
| `Partition.RunAll` | mining-service/forecast_engine.py:1827-1896 | Over every run of registrations and refreshes it is settled exactly after which calls stored units equal a recomputation: after an accepted registration always, after a refresh that changes something exactly if it keeps the units, otherwise exactly if they did before |
| `Partition.InStepThroughout` | mining-service/forecast_engine.py:5536-5604 | Stored units equal a recomputation throughout every run in which no call turns an address stored for its miner into none |
| `Bech32Register.Polymod` | mining-service/crypto_auth.py:247-255 | The checksum loop computes the linear register over its symbols |
| `Bech32Register.StepPlus` | mining-service/crypto_auth.py:251-254 | One step is linear over exclusive or |
| `Bech32Register.StepLossless` | mining-service/crypto_auth.py:251-254 | No nonzero register steps to zero |
| `Bech32Register.BurstDetected` | mining-service/crypto_auth.py:247-255 | Words of one length that differ only inside six neighbouring symbols have different checksums |
| `Bech32Residue.PolymodIsResidue` | mining-service/crypto_auth.py:247-255 | The checksum is the residue of a one followed by the symbols modulo x^6 + 29x^5 + 22x^4 + 20x^3 + 21x^2 + 29x + 18 over the field of 32 elements |
| `Bech32Residue.VerifiedResidue` | mining-service/crypto_auth.py:247-265 | What verifies is, behind a one, a multiple of that generator plus one |
| `Bech32Residue.HrpExpandIs` | mining-service/crypto_auth.py:258-259 | The prefix enters as the high bits of its characters, a zero, and their low five bits |
| `Bech32.CreateChecksum` | mining-service/crypto_auth.py:262-265 | Six symbols of the polymod over the zero-padded word, xor one |
| `Bech32.ChecksumVerifies` | mining-service/crypto_auth.py:262-265 | The appended checksum makes the polymod one, for every prefix and data |
| `Bech32.ChecksumUnique` | mining-service/crypto_auth.py:262-265 | No other six symbols do |
| `Bech32.SubstitutionRejected` | mining-service/crypto_auth.py:247-265 | Two words that differ in exactly one symbol never both verify |
| `Bech32.BurstRejected` | mining-service/crypto_auth.py:247-265 | Nor do two that differ only inside six neighbouring symbols |
| `Bech32.Encode` | mining-service/crypto_auth.py:284-288 | The address spells the regrouped bytes and their checksum after the separator |
| `Bech32.EncodeInjective` | mining-service/crypto_auth.py:284-288 | An address stands for one human-readable part and one byte string |
| `Bech32.TypoRejected` | mining-service/crypto_auth.py:284-288 | Mistyping one character after the separator, as anything but a separator, never gives another address |
| `Bech32Bits.ConvertBits` | mining-service/crypto_auth.py:268-281 | Groups in range, as many as the ceiling (padded) or floor (not) of the bits, spelling the same bits |
| `Bech32Bits.RegroupRoundTrip` | mining-service/crypto_auth.py:268-281 | Regrouping padded and back without padding gives the groups back |
| `Bech32Bits.BytesSurvive` | mining-service/crypto_auth.py:268-281 | Bytes survive 8 to 5 and back; outputs are below 32 and there are the ceiling of 8n/5 |
| `Bech32Bits.RegroupInjective` | mining-service/crypto_auth.py:268-281 | Different bytes never regroup to the same symbols |
| `ProtobufWire.EncodeVarint` | mining-service/chain_adapter.py:307-318 | The loop writes base-128 groups, least significant first; negatives are an error |
| `ProtobufWire.VarintReadBack` | mining-service/chain_adapter.py:307-318 | Every natural number is read back, whatever follows |
| `ProtobufWire.VarintPrefixFree` | mining-service/chain_adapter.py:307-318 | No varint is a prefix of another |
| `ProtobufWire.FieldReadBack` | mining-service/chain_adapter.py:321-343 | Every field is read back, whatever follows |
| `ProtobufWire.FieldsReadBack` | mining-service/chain_adapter.py:321-343 | Parsing recovers every list of fields |
| `ProtobufWire.MessageReads` | mining-service/chain_adapter.py:346-372 | From a message with distinct field numbers every value is recovered, None, empty and 0 being one |
| `ProtobufTx.AnchorReadBack` | mining-service/chain_adapter.py:355-372 | Decoding the anchor message recovers each of its thirteen fields |
| `ProtobufTx.BodyReadBack` | mining-service/chain_adapter.py:410-418 | Parsing a body recovers all messages in order, the memo and the timeout |
| `ProtobufTx.BodyInjective` | mining-service/chain_adapter.py:402-418 | Equal bodies mean equal messages, memo and timeout |
| `ProtobufTx.AuthInjective` | mining-service/chain_adapter.py:421-488 | Equal auth infos mean equal key, sequence, mode, fee and gas |
| `ProtobufTx.CoinWhole` | mining-service/chain_adapter.py:442-446 | A parsed coin's amount and denomination make up the coin |
| `ProtobufReadBack.CoinParts` | mining-service/chain_adapter.py:442-446 | A coin is accepted exactly if, blanks aside, it is digits in front of a letter and further letters, digits or marks, and these are its parts |
| `ProtobufReadBack.AnchorFields` | mining-service/chain_adapter.py:355-372 | The anchor message reads as its thirteen fields under the numbers 1 to 13, in ascending order, missing ones as empty |
| `ProtobufReadBack.TypedReadBack` | mining-service/chain_adapter.py:402-407 | A message reads as the anchor's type under 1 and the anchor under 2 |
| `ProtobufReadBack.BodyReads` | mining-service/chain_adapter.py:410-418 | The body reads as the messages under 1, in order, the memo under 2 and the timeout under 3 |
| `ProtobufReadBack.FeeReadBack` | mining-service/chain_adapter.py:449-465 | The fee reads as the coin under 1, its denomination under 1 and amount under 2, and the gas under 2 |
| `ProtobufReadBack.SignerReadBack` | mining-service/chain_adapter.py:421-478 | The signer reads as the key with its type under 1, the mode under 2 and the sequence under 3 |
| `ProtobufReadBack.AuthReadBack` | mining-service/chain_adapter.py:481-488 | The auth info reads as the signer under 1 and the fee under 2 |
| `ProtobufReadBack.SignDocReadBack` | mining-service/chain_adapter.py:491-499 | The sign document reads as the body under 1, the auth info under 2, the chain id under 3 and the account number under 4 |
| `ProtobufReadBack.SignDocRefused` | mining-service/chain_adapter.py:375-499 | A sign document is refused for the first message of another type or with a negative total, else for the first bad field of the rest, and else not at all |
| `ProtobufReadBack.TxRawReadBack` | mining-service/chain_adapter.py:502-508 | The unsigned transaction reads as the body under 1 and the auth info under 2 |
| `ProtobufTx.SignDocInjective` | mining-service/chain_adapter.py:491-499 | What is signed determines the transaction |
| `ProtobufTx.SameTxSameSignDoc` | mining-service/chain_adapter.py:491-499 | And transactions that mean the same have one sign document |
| `ProtobufTx.TxRawInjective` | mining-service/chain_adapter.py:502-508 | The unsigned transaction determines its two parts |
| `HandHistory.HotStore.Ingest` | mining-service/poker_mtt_history.py:35-82 | Only a valid versioned event newer than what is stored changes the store; every event is judged inserted, duplicate, stale, updated or in conflict by what it says |
| `HandHistory.IngestAll` | mining-service/poker_mtt_history.py:35-82 | After any sequence of ingests the stored event of a hand is the first arrived among those with the highest version, and unversioned events change nothing |
| `HandHistory.IngestHoldsLatest` | mining-service/poker_mtt_history.py:35-82 | One more event keeps that |
| `HandHistory.FirstHighestUnique` | mining-service/poker_mtt_history.py:65-82 | There is only one such event |
| `HandHistory.HandRepository.Ingest` | mining-service/repository.py:975-1018 | The repository judges rows the same way, keeps the first creation time on update and refuses a hand without an id |
| `HandHistory.Validate` | mining-service/poker_mtt_history.py:145-155 | The checks in order: schema, type, checksum, then the first identity field that is missing |
| `HandHistory.Normalize` | mining-service/repository.py:1479-1500 | A hand id, tournament or table that the identity leaves empty falls back to the event's own, and an event without any hand id is refused |
| `HandHistory.FilingFollows` | mining-service/repository.py:975-1018 | What the repository holds follows the same rule, under the hand an event is filed for |
| `HandHistory.StoresJudgeAlike` | mining-service/repository.py:975-1018 | Two agreeing stores judge a valid event alike if and only if its hand is named, or it has a hand id of its own under which either nothing is filed, or other content while the event has no version |
| `HandHistory.NamedJudgedAlike` | mining-service/repository.py:975-1018 | For a named hand they also return the same event, and the same reason unless a row brings its own |
| `HandHistory.StoresStayAgreed` | mining-service/repository.py:975-1018 | Agreeing stores still agree after an event if and only if it is not a valid versioned event without a hand name |
| `HandHistory.IngestBoth` | mining-service/poker_mtt_history.py:95-103 | Fed any events, each store ends with the first arrived among the highest versions of every hand; they agree if and only if no valid versioned event lacked a hand name, and until such an event each event gets one verdict if and only if it is filed alike |
| `HandHistory.UnnamedHandsDiffer` | mining-service/repository.py:1479-1483 | Counterexample: an event without any hand id is inserted by the in-memory store and refused by the repository |
| `Halving.HalvedPool` | mining-service/rewards.py:21-33 | The loop, with its early exit, gives the initial pool floored by 2^k and never below the minimum once halved |
| `Halving.MinerPool` | mining-service/rewards.py:21-33 | max(50,000,000 div 2^k, 1) for k = epoch div 210,000; the initial pool for negative epochs |
| `Halving.ValidatorPool` | mining-service/rewards.py:36-45 | A pool of nothing becomes one uclaw an epoch from the first halving on |
| `Halving.EmittedIntoEra` | mining-service/rewards.py:21-33 | Emission up to any epoch is the closed form of its eras |
| `Halving.SupplyBound` | README.md:76 | The pools of epochs 0..n-1 stay within 21 million CLAW exactly when n <= 7,980,000, and reach it there |

## Left out

- HTTP routes, middleware, admin checks, health snapshots and metrics: plumbing around the services.
- `pg_repository.py` and `models.py`: the in-memory repository is modelled instead.
- Market data, command-line and RPC calls, key handling, temporary files and the broadcast pipeline: their results are inputs.
- SHA-256, RIPEMD-160, secp256k1, JSON and base64.
- Floating-point rounding: allocation weights are reals, the released part of a reward is the exact half-even rounding, and scores and multipliers reach the model as the reward they come to.
- The averaged reliability columns of merged rows, of which only the presence is kept: a value of 0.0 reads as 1.0 there, so bounds on the averages do not hold.
- Non-ASCII whitespace, letters and digits in `strip`, `lower` and coin amounts.
- The poker projection roots inside the anchor payload, and the artifacts each step stores beside its tables; whether a batch's stored rows resolve is an input of a confirmation, and `Paging` is where resolving is proved.
- The defaults, submitter override and field validation applied before a transaction is encoded (`compile_typed_tx_intent`); the encoders are modelled for every input they accept or refuse.
- Address derivation from public keys, signature and nonce checks of `crypto_auth.py`.
- Risk cases, public ranks, participation counters, the daily lane (its rewards are always zero) and the budget without enforcement.
- The choice of results, corrections and multipliers that feed a poker window: the model starts from its weights.
- The refresh of a miner's signals inside a reveal, and which reveals of one unit are duplicates: that a reveal is one is an input of it.
- A hand number that is present but null.
- Go panics and the contents of ledger entries other than payload hash and status.
- `epoch_scheduler.py`, `challenge_engine.py`, `settle_challenge` and the reward multipliers of `rewards.py`: the legacy path.
- Poker HUD, evidence and result projections, the authentication adapter, bots, the simulation harness and front ends.
- Budget.BudgetBook.BuildWindow: does not model the disabled mode, in which no ledger is kept.
