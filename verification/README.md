# Treasury orchestration: a verified model

The service turns completed crypto purchases into aggregate parent orders. A consumer records each transaction once in
the open batch of its pair. A scheduler (or an operator) closes the batch on time, size or demand. An executor then
places one order for it with liquidity routing. A fill is booked in the float table, hedged, and settles the batch.
Every step leaves an outbox entry, which a dispatcher posts to the ledger and emits to the audit log. Beside the
pipeline, a funding manager tops up hot wallets from a rolling demand window.

The stores, components and handlers are classes with the fields and loops of the Go code. Each method is proved equal
to a function on its tables, and the results are proved about those functions at two granularities:

- **One handler at a time** (`Pipeline`, `App`, `Runs`): any sequence of events, ticks, closes, resubmissions, sweeps,
  dispatches, funding entries and lost idempotency keys, with every downstream answer chosen freely. `Conservation`,
  `Crypto`, `AuditTrail`, `Latency` and `Failures` hold over these runs. `Requests`, `Closing`, `Lifetimes`, `Maturity`
  and `Bookkeeping` say field by field what the runs ask of others, when batches close, when float is settled and what
  the ledger is told; `Steps` is the induction principle they share.
- **One store call at a time** (`Threads`, `Interleaving`, `Concurrency`): any number of goroutines inside `handle`,
  `close` and `SubmitBatch`, interleaved freely, over an idempotency store that may forget or forge keys, while the
  float and outbox tables change under them. `Refinement` and `Simulation` prove that every run of the first kind is
  one of these. `Straggler` and `Coverage` prove what orders lose and when they lose nothing, `Wired` and `Fronting`
  bound the requests and the float, `Announcing` completes the audit trail.

`Ledger`/`Delivery` (outbox), `Projection` (demand window), `Resilience` (breaker and retry loop),
`FloatTable`/`FloatTracker`/`PgFloat` (float), `Idempotency` (claims) and `Funding`/`FundingRuns` stand on their own.
`Base`, `Records`, `Configuration`, `Pairs`, `Text` and `Memstore` hold the shared vocabulary and tables.

## How the model reads the code

- Decimals are exact reals, instants are integer nanoseconds, a zero time is `None`. Integers that the code does not
  bound (amounts, counters) are unbounded.
- A UUID is the number of rows its store minted before it. UUIDv7 values are time ordered, so sorting by identifier
  keeps row order. Their text is the numeral; `Base.IdTextInjective` makes the keys built from it unique.
- One handler reads the clock once. Handlers receive the time, and the answers of downstream services, as arguments.
- The callbacks that `Build` passes to the components are direct calls.
- The JSON payload of an outbox entry is the value it encodes.

## Where the code does less than its comments or documents say

- The executor's comment promises that a replay re-applies a missing fill (`internal/aggregate/executor.go:42-44`).
  After a refused liquidity call the claim stays: no run of less than a day asks again (`Failures.RefusedForADay`), and
  a submission after that does (`Failures.SubmissionAsks`). In the wired service nothing would submit it again anyway:
  `OnClose` (`internal/app/app.go:182`) is the only caller of `SubmitBatch`, so the batch stays EXECUTING
  (`Failures.OnlyClosesSubmit`).
- A hedge that fails leaves the order EXECUTING in a SETTLED batch (`Failures.OrderSettlesWhenHedged`), for good
  (`Failures.SettlementIsFinal`).
- A transaction may be recorded in a batch that has just closed, and its amount then never reaches an order
  (`Straggler.LateRecordIsLost`, `Straggler.LostForGood`). An order covers its batch for good exactly if it covers it now
  and no consumer that found the batch open still has an amount to record (`Coverage.CoversForGoodIff`); a close with no
  consumer in between loses nothing (`Coverage.CleanCloseCovers`). When handlers do not overlap nothing is lost
  (`Conservation.EndToEnd`).
- "Closes on the interval" holds within the interval plus one tick period, over ticks at most a period apart, exactly
  when the pair's interval is at least the default one (`Latency.IntervalBoundsIff`). For a shorter override the cadence
  lock, which lives for the default interval, holds the close back: the tick before the lock lapses passes over the
  batch. With ticks on exact quarters the batch waits at least for the fourth one (`Latency.TicksPassOver`). A close by size
  waits for the same lock (`Latency.TickedOneTouches`).
- An idempotency store that cannot answer makes the consumer drop the event (`internal/consumer/consumer.go:101-106`).
- The rebalance loop is described as never holding excess beyond policy. It does not remember its own requests, so every
  check over one window requests the shortfall again; `Funding.RepeatedChecksOverfund` gives the exact condition.
- `ListFloat` names a currency's latest crypto asset, `GetFloat` the latest one from before its first settlement;
  `FloatTable.ViewsAgreeIff` says over which operations they agree, `FloatTable.ViewsDiffer` gives some on which they
  do not.
- The in-memory `SettleFloat` only sets a flag and keeps the amounts, the Postgres one also zeroes them; both are
  modelled as they are.
- An asset that contains '/' is booked under another currency: `Conservation.SlashMisfiles`.
- The half-open breaker lets every caller through, not a single probe; `Resilience.PermitsByHistory` states when a call
  is let through.
- The demand model holds its whole window only while times do not run back past it: `Projection.QueryExactIff`.
- The composition root never feeds the demand model (`Observe` has no caller) and never starts the rebalance loop.

## Model

| member | source | states |
|---|---|---|
| Conservation.EndToEnd | internal/app/app.go:137-184 | After any run, for each fiat side: the sum, over the first occurrence of every accepted transaction, of its notional, or of its amount when the notional is zero, equals the unsettled batches plus the short amount recorded in the float table. |
| Conservation.EndToEndByCurrency | internal/consumer/consumer.go:92-160 | The same balance by the currency the events themselves name, when no accepted asset contains '/'. |
| Conservation.SlashMisfiles | internal/app/app.go:321-328 | The pair of an event names the event's own currency exactly when its asset has no '/'. |
| Conservation.MembershipExactlyOnce | internal/consumer/consumer.go:99-150 | Membership rows are exactly the handled transactions with an identifier and an asset, once each, in a batch of their own pair, even when keys are forgotten. |
| Conservation.FirstEventIsRecorded | internal/consumer/consumer.go:92-150 | After any run the first occurrence of an event has a row with its identifier, amount, asset, currency and user, its notional or, when that is zero, its amount as notional, in a batch of its pair. |
| Conservation.OneFillPerBatch | internal/aggregate/executor.go:52-117 | Under any resubmissions, lost keys and failures a batch has one answered liquidity request if it is settled and none otherwise, and at most one hedge request, never without a fill. |
| AuditTrail.AuditComplete | internal/app/app.go:140-183 | After any run the outbox holds one open entry per batch, one close entry per batch that is not OPEN, one adjust and one execute entry per settled batch, each with the aggregate, identifier, notional, asset and currency that event has for that batch; every other entry is a funding or rebalancing entry under a key of its own kind. |
| Bookkeeping.LedgerKnowsBatch | internal/ledger/emitter.go:94-120 | Over any run of the wired service: from the moment the entry of a batch event is marked emitted, the ledger's book holds under its key that event with the batch's own notional and the sides of its pair (an aggregate.execute has the crypto side as asset and the fiat side as currency), and the batch had got that far. |
| Bookkeeping.BatchEventsAreTold | internal/ledger/emitter.go:105-140 | Every single posting and audit event made under such a key says the same, whatever fails and is repeated. |
| Announcing.TrailComplete | internal/ledger/emitter.go:78-89 | Under any interleaving a batch with a row, a closed batch and a settled batch have their entries, or a thread is about to write them; no entry is written for a batch that was not opened, closed or filled. |
| Announcing.PassesAreKept | internal/ledger/emitter.go:94-142 | A dispatcher pass, whatever fails in it, is among the outside changes allowed there. |
| Announcing.ForeignEntryIsKept | internal/app/app.go:193-204 | So is the entry of a funding request or rebalancing job. |
| Crypto.CryptoHeldIsBought | internal/float/tracker.go:45-64 | After any run, for each fiat side: the long crypto amount of the float table equals what the orders of settled batches bought. |
| Crypto.FillIsRecorded | internal/aggregate/executor.go:86-117 | A submission that liquidity answers asks for the batch's notional under its key, writes price, total and routes of the answer into the batch's order, and settles the batch. |
| Requests.RequestsMatchBatches | internal/aggregate/executor.go:57-92 | After any run every liquidity and hedge request was made for the notional of its closed batch under "agg:" or "hedge:" and its identifier, hedges in the fiat side of its pair, and every order holds its batch's pair and notional. |
| FloatTable.AddRaisesLong | internal/store/memstore/memstore.go:378-428 | An added position raises its own currency's long amount by the crypto bought and no other's. |
| Maturity.FillStaysOutstanding | internal/float/tracker.go:45-64 | From the step that settles a batch on, over every run within the settlement days of its currency, sweeps included, the currency has an unsettled row that falls due no earlier than their end. |
| Latency.BoundedCloseLatency | internal/batch/scheduler.go:85-123 | With ticks at most a period apart, no batch is open as long as the larger of its interval and the lock lifetime, plus that period. |
| Latency.AgedBatchCloses | internal/batch/scheduler.go:96-107 | A tick at or after that age finds the cadence lock of the pair lapsed and closes the batch. |
| Latency.TickedOneTouches | internal/batch/scheduler.go:91-107 | A tick closes a listed batch exactly when its rows sum to at least its pair's positive threshold or it has been open for at least its pair's positive interval, the lock store answers and the lock is free; otherwise nothing changes. |
| Closing.NoEarlyClose | internal/batch/scheduler.go:112-123 | Over every run without manual closes, a batch that left OPEN had rows summing to at least its pair's positive threshold when it did, or had been open for at least its pair's positive interval. |
| Lifetimes.BatchTimes | internal/store/memstore/memstore.go:52-140 | After any run every step gives the batches it opens and the batches it closes its own time and changes no other opening or closing time. |
| Latency.BoundOfLongIntervals | internal/batch/scheduler.go:61 | For an interval of at least the default the bound is the interval itself, and a quarter-interval tick adds at most a quarter of it. |
| Latency.TicksPassOver | internal/app/app.go:126 | For any pair there is a run with ticks at most a quarter of the default interval apart, the last one at any time in the last quarter before the lock lapses, in which every later tick passes over a batch that has been open since the first. |
| Latency.IntervalBoundsIff | internal/batch/scheduler.go:61 | Over all runs with ticks at most a period apart, every batch of the pair closes within its interval and one period if and only if that interval is at least the default one. |
| Failures.SubmissionAsks | internal/aggregate/executor.go:71-92 | A submission of a CLOSED or EXECUTING batch reaches liquidity exactly when its claim is free or the idempotency store cannot be asked. |
| Failures.RetryWaitsADay | internal/aggregate/executor.go:75-96 | Right after a failed liquidity call a retry reaches liquidity exactly when a day has passed or the idempotency store cannot be asked. |
| Failures.RefusedForADay | internal/aggregate/executor.go:75-96 | After a submission refused at a tick, a close or a retry, no run of less than a day, whatever else happens in it, asks liquidity for the batch again while the idempotency store answers and keeps the claim; the batch stays EXECUTING. |
| Failures.OnlyClosesSubmit | internal/app/app.go:177-183 | Over any run in which only closes submit, a batch past OPEN is never submitted again and keeps its state. |
| Failures.OrderSettlesWhenHedged | internal/hedge/hedger.go:38-75 | A fill always settles the batch; its order is settled exactly when the exposure is claimed, positive and placed, and then holds the hedged amount answered. |
| Failures.SettlementIsFinal | internal/app/app.go:157-169 | Over any later run a settled batch and its order stay as they are. |
| Runs.RunKeeps | internal/store/memstore/memstore.go:52-302 | Every reachable state: one OPEN batch per pair, every batch has a member of its pair, notionals are the sums of their rows, one order per batch that left CLOSED with the batch's notional, claims only of known transactions, and the full intake history. |
| Runs.SubmitEffect | internal/aggregate/executor.go:45-118 | A submission is a no-op, an unanswered attempt or exactly one fill with one float increment, two entries, one liquidity and at most one hedge request. |
| Concurrency.LifecycleCoupling | internal/store/store.go:29-39 | Under any interleaving: one OPEN batch per pair, closed once exactly when it is not OPEN, an order implies not OPEN, EXECUTING or later implies an order, one order per batch, a settled order implies EXECUTING or later, SETTLED implies a recorded fill. |
| Records.AllowedMoves | internal/store/store.go:29-39 | A status may move only from OPEN to CLOSED, from CLOSED to EXECUTING and from EXECUTING to SETTLED. |
| Concurrency.NothingMovesBack | internal/store/memstore/memstore.go:117-140 | From every reachable state no continuation moves a status back, changes a membership row or an order's batch and notional, or retracts a close or a fill. |
| Concurrency.NotionalsArePrefixSums | internal/batch/scheduler.go:131-142 | Every batch notional, order notional and sum held by a thread is the batch's sum over some prefix of the membership rows. |
| Concurrency.OrdersNeverExceedAccepted | internal/aggregate/executor.go:46-63 | With non-negative notionals the orders never total more than the accepted transactions, under any interleaving. |
| Concurrency.RowsAreUnique | internal/store/memstore/memstore.go:166-213 | Under any interleaving and any behaviour of the idempotency store, rows are unique by transaction, `byTx` is exactly their set and each row is in a batch of its pair. |
| Concurrency.SubmissionsAreSpaced | internal/aggregate/executor.go:75-92 | With a never-failing in-memory store each downstream request holds its own winning claim of its key, and the claims of two requests under one key are a day apart. |
| Interleaving.RunKeeps | internal/batch/scheduler.go:131-156 | The table, history and thread invariants hold along every interleaving from any state that has them. |
| Refinement.HandleIsAtomic | internal/consumer/consumer.go:92-160 | A consumer thread left alone ends within eight store calls in the state the handler step gives. |
| Refinement.SubmitIsAtomic | internal/aggregate/executor.go:45-118 | A submitting thread left alone, callbacks and hedger included, ends within fourteen calls in the state the executor step gives. |
| Refinement.CloseIsAtomic | internal/batch/scheduler.go:131-156 | A closing thread left alone ends within eighteen calls in the state the scheduler step gives. |
| Simulation.AtomicRunsInterleave | internal/app/app.go:62-260 | The stores reached by any run of whole handlers, ticks included, are reached by some interleaving of store calls. |
| Straggler.LateRecordIsLost | internal/consumer/consumer.go:123-157 | For any two transactions of one pair some interleaving settles their batch with an order for the first alone while both are recorded in it. |
| Straggler.LostForGood | internal/store/memstore/memstore.go:142-152 | From such a state no continuation gives the second transaction an order. |
| Coverage.OrderCoversRowsRead | internal/batch/scheduler.go:139-142 | An order carries exactly the rows that were recorded when the sum behind its notional was read and is short by the rows recorded after that read; with positive amounts it covers its batch exactly when there are none. |
| Coverage.LaterRowsMissed | internal/aggregate/executor.go:57-63 | That read precedes the order, so in every continuation the order is short by all rows of the batch recorded since. |
| Coverage.CoversForGoodIff | internal/consumer/consumer.go:123-150 | An order covers its batch in every continuation exactly if it covers it now and no consumer past its batch lookup still has an unknown transaction of non-zero amount for it. |
| Coverage.CleanCloseCovers | internal/batch/scheduler.go:139-142 | If no consumer is between lookup and notional and no row came after the sum, then from that close on the batch, its rows and its orders agree for ever. |
| Fronting.FloatIsFronted | internal/float/tracker.go:45-58 | Under any interleaving, with sweeps settling row by row in between, the short amount per fiat side is the sum of the order notionals of the fills booked. |
| Fronting.FrontedOnce | internal/aggregate/executor.go:75-92 | With free resubmission: within a day, over an idempotency store that answers, no batch is booked twice. |
| Fronting.FloatWithinDay | internal/app/app.go:157-169 | So within a day the float of a fiat side never exceeds the transactions accepted for it, even if batches are resubmitted freely. |
| Wired.EachBatchOnce | internal/app/app.go:177-183 | In the wired service, where only closes submit: under any interleaving of any length, over an idempotency store that fails, forgets or forges, each batch gets at most one liquidity request, one hedge request and one booking. |
| Wired.FloatNeverExceedsAccepted | internal/app/app.go:157-184 | There the float of a fiat side never exceeds the transactions accepted for it, under any interleaving of any length and any idempotency store. |
| Delivery.DeliveryChain | internal/ledger/emitter.go:94-142 | Over any run of appends and passes with arbitrary ledger, audit and mark failures: emitted keys are audited keys, audited keys are posted keys, posted keys are outbox keys. |
| Delivery.LedgerBooksEmitted | internal/ledger/emitter.go:100-120 | A ledger that ignores repeated keys books every emitted entry once, field by field as the entry says, and nothing else, even when replies are lost. |
| Delivery.RepeatedPostsAgree | internal/ledger/emitter.go:100-140 | Any two attempts to post one key carry the same content. |
| Delivery.RequestsCarryEntries | internal/ledger/emitter.go:105-140 | Over any run every posting and every audit event made under a key has the aggregate, event type, batch, notional, asset and currency, or detail, of the entry with that key. |
| Delivery.PassPostsListed | internal/ledger/emitter.go:94-120 | A pass posts each listed entry once, in order, under its key and with its fields. |
| Delivery.PassMarks | internal/ledger/emitter.go:100-142 | A pass marks an entry, with its own time, exactly when the entry waits, fewer entries than the limit wait before it, and every configured service and the mark accept it; all else stays. |
| Delivery.ListsFirstWaiting | internal/store/memstore/memstore.go:573-587 | The listing is the first waiting entries, as many as the limit and at least one. |
| Delivery.BacklogDrains | internal/store/memstore/memstore.go:573-599 | With B entries that keep failing and a limit above B, an entry with g healthy entries ahead is emitted within floor(g/(limit-B))+1 passes, whatever is appended. |
| Delivery.PassDrains | internal/ledger/emitter.go:94-142 | One pass takes a full window out of the healthy entries ahead of any position, less the failing ones it listed. |
| Ledger.KeyInjective | internal/ledger/emitter.go:165-168 | Two entries share a dedup key only if aggregate, event type and identifier agree. |
| Ledger.OutboxStore.Append | internal/store/memstore/memstore.go:556-571 | A key is stored once; a repeated key changes nothing. |
| Ledger.OutboxStore.ListPending | internal/store/memstore/memstore.go:573-587 | Lists the first pending rows in order, and one of them even for a limit below one. |
| Ledger.Emitter.Append | internal/ledger/emitter.go:78-89 | Fills in aggregate and event type and stores the payload once per key. |
| Ledger.Emitter.Dispatch | internal/ledger/emitter.go:94-142 | One pass marks exactly the listed entries whose posting, emission and mark succeed, makes exactly those requests in order, and returns how many left the pending list. |
| Projection.DemandIsWindowOfHistory | internal/projection/projection.go:48-59 | After any observations and queries, a query at or after all of them keeps exactly the window of everything ever observed. |
| Projection.WindowCompleteIff | internal/projection/projection.go:78-87 | For any operations in any time order: the cache holds every observed sample after a cutoff exactly when no operation made since such a sample was observed had already passed it. |
| Projection.QueryExactIff | internal/projection/projection.go:49-59 | A query keeps exactly the window of everything ever observed if and only if nothing of that window was evicted before. |
| Projection.CacheMatchesHistory | internal/projection/projection.go:78-87 | Beyond every cutoff no earlier operation has passed, the evicted cache and the full history agree. |
| Projection.EarlierQueryLosesSamples | internal/projection/projection.go:34-42 | A concrete run, with times that go back, in which a query misses a sample of its window. |
| Projection.Model.Observe | internal/projection/projection.go:34-42 | The new cache is the one the recorded operations define, for every asset, though slices share backing arrays. |
| Projection.Model.ProjectedDemand | internal/projection/projection.go:49-59 | Returns the cached sum, which is the sum of all notionals observed for the asset within the window whenever no operation on the asset lies later. |
| Projection.WindowSum | internal/projection/projection.go:48-59 | The window of the history sums exactly the notionals observed for the asset after the cutoff. |
| Projection.Model.Compact | internal/projection/projection.go:78-87 | The in-place compaction leaves exactly the samples after the cutoff, in order. |
| Resilience.BreakerMatchesHistory | internal/clients/retry.go:46-86 | After any calls the breaker is open exactly if the failures since the last success reach the threshold (at least one); half-open implies open; `openedAt` is the last failure. |
| Resilience.PermitsByHistory | internal/clients/retry.go:46-58 | A call is let through exactly below the threshold or a reset timeout after the last failure. |
| Resilience.Do | internal/clients/retry.go:98-140 | Refused without a call when the breaker refuses; otherwise one to max(1, MaxAttempts) attempts, ending at the first success, client fault, open circuit or cancellation. It adds to the breaker's history its question, whatever other callers do meanwhile, and at most one outcome. |
| Resilience.AttemptEnds | internal/clients/retry.go:98-140 | What each reply means: a success, a conflict, a bad request or, behind a breaker, an open circuit ends the loop; successes, conflicts and bad requests are recorded, and so is running out of attempts on anything but an open circuit. |
| Resilience.Submit | internal/clients/resilient.go:23-61 | The captured result is set exactly when no error is returned, and is the last attempt's reply; every earlier reply was an unavailable or canceled one. |
| FloatTable.TableShape | internal/store/memstore/memstore.go:378-490 | After any additions and settlements each currency has at most one unsettled row, its last, and settled rows never change again. |
| FloatTable.AddRaisesShort | internal/store/memstore/memstore.go:378-428 | An added position raises its own currency's short amount by its notional and no other's. |
| FloatTable.SweepKeepsShort | internal/float/tracker.go:104-123 | A sweep of the in-memory table changes no recorded amount. |
| FloatTable.SweepSettlesDue | internal/store/memstore/memstore.go:459-490 | A sweep flags a row exactly if it was unsettled, has a due time and that time is at most now, and changes nothing else. |
| FloatTable.FloatStore.GetFloat | internal/store/memstore/memstore.go:407-428 | Sums the currency's rows, takes the latest due date and names the asset of the first row. |
| FloatTable.DueIsLatest | internal/store/memstore/memstore.go:407-428 | The due time of a currency is attained by one of its rows and no row of it falls due later. |
| FloatTable.FloatStore.ListFloat | internal/store/memstore/memstore.go:430-457 | One entry per currency in the table, sorted, each equal to what `GetFloat` returns except that it names the latest asset. |
| FloatTable.ViewsAgreeIff | internal/store/memstore/memstore.go:378-457 | Over any additions and settlements the list names the asset of the currency's latest addition naming one, the single view that of the latest one before the currency's first settlement; they agree in all else, so they agree exactly when these two are the same. |
| FloatTable.ViewsDiffer | internal/store/memstore/memstore.go:407-457 | Operations on which they differ: one asset bought, the row settled, another asset bought. |
| FloatTracker.Tracker.SweepMatured | internal/float/tracker.go:104-123 | Flags exactly the unsettled rows whose due time is at most now, changes nothing else, and returns how many there were. |
| FloatTracker.SweepsOnePerCurrency | internal/float/tracker.go:104-123 | A sweep settles at most one row per currency. |
| FloatTracker.Tracker.OnAggregateFill | internal/float/tracker.go:45-64 | Adds the filled notional, due after the currency's settlement days, and stores one adjust entry. |
| PgFloat.OutstandingFloat | internal/store/postgres/postgres.go:514-624 | Over any additions and settlements a currency's short amount plus what settlements zeroed equals what was fronted. |
| PgFloat.AddFields | internal/store/postgres/postgres.go:514-548 | An addition leaves its currency an unsettled row with its asset and due time, raises that currency's amounts by its own, and changes no other row. |
| PgFloat.SettledForGood | internal/store/postgres/postgres.go:611-613 | After any operations settled rows hold zero amounts and settling one again changes nothing. |
| PgFloat.SettledStays | internal/store/postgres/postgres.go:514-613 | A settled row stays settled, at zero and otherwise unchanged, in every continuation. |
| PgFloat.PgFloatStore.SweepMatured | internal/store/postgres/postgres.go:589-624 | A sweep as one transaction flags and zeroes exactly the unsettled rows whose due time has come or is missing, changes nothing else, and returns how many there were. |
| PgFloat.SweepTakesOnePerCurrency | internal/float/tracker.go:104-123 | Such a sweep takes at most one row per currency. |
| Idempotency.WinsAreSpaced | internal/idempotency/idempotency.go:39-48 | Over any run of calls the wins of a key are at least the first one's lifetime apart, and a call wins exactly when every earlier win of its key has expired. |
| Idempotency.ClaimsStaySpaced | internal/idempotency/idempotency.go:39-48 | One more call, winning or not, keeps winning claims spaced by their lifetimes. |
| Idempotency.MemStore.CheckAndMark | internal/idempotency/idempotency.go:39-48 | Claims a key exactly when it is absent or expired, and then holds it for its lifetime. |
| Idempotency.CadenceLock.Acquire | internal/idempotency/idempotency.go:110-112 | Takes the pair's lock exactly when it is free. |
| Idempotency.KeysApart | internal/aggregate/executor.go:75 | Transaction, cadence, submission and hedge keys never meet, whatever batches, pairs and transactions they are built from. |
| Funding.CheckFundsShortfall | internal/funding/loop.go:38-59 | Against the full demand history: one accepted request of exactly the shortfall, capped by policy, if demand exceeds a positive target, and no request otherwise. |
| Funding.RepeatedChecksOverfund | internal/funding/loop.go:11-18 | Two or more checks over one window request no more than the shortfall exactly if there is none or it is at least that many times the ceiling. |
| Funding.FundingBooksBalance | internal/funding/manager.go:55-166 | Over any requests, jobs, checks and wallet failures: every row is within policy and COMPLETED or REJECTED, every row has one wallet move under its own key, to its wallet or `toRef` out of its source or `fromRef` in its asset and amount, the amounts moved are the amounts completed, and the outbox holds exactly one entry per row, with that row's key, asset and amount. |
| FundingRuns.RequestsCarriedOut | internal/funding/manager.go:55-166 | Over every run the funding rows, the jobs and the moves are the accepted requests, each in order and field by field: amounts above zero and up to the ceiling, checks as requests of the capped shortfall; the move of a job goes to its `toRef` out of its `fromRef`, that of a funding request to its wallet out of its source. |
| Funding.TopUp | internal/funding/loop.go:44-55 | There is an amount exactly if demand exceeds a positive target; it is the shortfall or the ceiling, and within policy. |
| Funding.Manager.CreateFundingRequest | internal/funding/manager.go:55-112 | Refuses amounts outside policy without a trace; otherwise stores one finished row, one outbox entry and one move. |
| Funding.Manager.Rebalance | internal/funding/manager.go:121-166 | The same for rebalancing jobs, where a wallet failure is also returned; which job and which move follows from `FundingRuns.RequestsCarriedOut`. |
| Funding.Manager.CheckAndRebalance | internal/funding/loop.go:38-59 | Changes the books exactly as the check on them says. |
| Pairs.SplitJoin | internal/app/app.go:321-338 | Splitting a joined pair gives the asset and the currency back exactly if the asset has no '/'. |
| Pairs.JoinSplit | internal/app/app.go:321-338 | Joining the two sides of a pair that contains '/' gives the pair back. |
| Pairs.FiatOfPair | internal/app/app.go:321-328 | The scan returns what follows the first '/', or the default currency. |
| Pairs.CryptoOfPair | internal/app/app.go:331-338 | The scan returns what precedes the first '/', or the whole pair. |
| App.Consumer.Handle | internal/consumer/consumer.go:92-160 | Makes exactly the handler step on all stores; an idempotency store that cannot answer leaves everything unchanged. |
| App.Scheduler.Tick | internal/batch/scheduler.go:85-108 | Makes exactly the tick step on all stores. |
| App.Scheduler.ShouldCloseNow | internal/batch/scheduler.go:112-123 | Says size exactly if the batch's rows sum to at least its pair's positive threshold, and time exactly if they do not and it has been open for at least its pair's positive interval. |
| App.Scheduler.CloseBatch | internal/batch/scheduler.go:127-156 | Makes exactly the close step and returns the closed batch with the sum of its rows, or which error. |
| App.Executor.SubmitBatch | internal/aggregate/executor.go:45-118 | Makes exactly the submission step; tells unknown batches, batches not closed and refused requests apart, and otherwise returns the batch's order as the call leaves it. |
| App.Executor.OnFill | internal/app/app.go:157-169 | Makes exactly the fill step: float, hedge, settlement, entry. |
| App.Hedger.OnAggregateFill | internal/hedge/hedger.go:38-75 | Makes exactly the hedge step. |
| App.Server.Build | internal/app/app.go:62-260 | Wires consumer, scheduler, executor, dispatcher and funding manager to the same stores, claims and emitter, with the defaults for a non-positive interval or threshold, both downstream clients set, empty tables and an empty five-minute demand window. |
| Memstore.BatchStore.OpenBatch | internal/store/memstore/memstore.go:52-71 | Returns the pair's OPEN batch, or, if every batch of the pair is past OPEN, adds one opened now with nothing in it. |
| Memstore.BatchStore.UpdateBatchStatus | internal/store/memstore/memstore.go:117-140 | Moves a batch only from the expected status along an allowed step, and reports which check failed. |
| Memstore.BatchStore.SetBatchNotional | internal/store/memstore/memstore.go:142-152 | Overwrites the notional whatever the status. |
| Memstore.BatchStore.ListOpenBatches | internal/store/memstore/memstore.go:103-115 | Returns the OPEN rows, in order. |
| Memstore.MembershipStore.AddMembership | internal/store/memstore/memstore.go:166-181 | Appends a row unless the transaction is known. |
| Memstore.MembershipStore.SumNotional | internal/store/memstore/memstore.go:197-207 | The sum of the batch's rows. |
| Memstore.AggregateOrderStore.CreateOrder | internal/store/memstore/memstore.go:224-247 | Returns the batch's order, or adds an executing one with the batch's pair and notional and no fill. |
| Memstore.AggregateOrderStore.SettleOrder | internal/store/memstore/memstore.go:290-302 | Settles the batch's order and no other. |
| Configuration.SettlementDaysFor | internal/config/config.go:79-84 | A positive setting of the currency in any case of letters, and two days otherwise. |
| Configuration.BatchIntervalFor | internal/config/config.go:88-93 | The pair's positive override, and the default interval otherwise. |
| Configuration.BatchThresholdFor | internal/config/config.go:99-104 | The pair's positive override, and the default threshold otherwise. |
| Configuration.HotWalletTargetFor | internal/config/config.go:108-113 | The target of the asset in any case of letters, and none otherwise. |
| Text.BeforeIff | internal/store/memstore/memstore.go:430-457 | The order of the float listing: one text precedes another exactly if it is a proper prefix or has the smaller character where they first differ. |

## Left out

- `Resilience.Do` and the executor are not composed: in the pipeline a liquidity or FX call is one request with one
  answer, and the attempts inside it are the subject of `Resilience`.
- Ticks in the interleaved model are closes of any batch at any moment, which covers every close a tick can make; what
  the cadence lock adds is modelled where handlers do not overlap.
- Orders in the classes are values; that callers hold pointers to live rows is modelled in `Threads` only.
- Sweeps, dispatcher passes and funding entries in the interleaved model are changes of the float and outbox tables
  between store calls; a sweep settles row by row, a dispatcher pass is taken as a whole.
- Postgres stores other than the float table, and races between its transactions: every transaction is atomic, and the
  aggregate defaults of its queries (current time as due date) are not represented.
- Read methods of the stores that no modelled step uses (`ListBatches`, `ListOrders`, `ListFunding`, `ListJobs`,
  `GetFunding`), `VelocityPerSecond`, `Snapshot`: easy members.
- `enforceBounds` and its alerts: single comparisons.
- Dead letters: `Build` passes no channel for them, so a malformed event is dropped.
- Side, slippage, created and updated times of orders and batches, and the reason a batch closed: recorded or logged,
  never read back by the pipeline.
- Upper-casing of currency and asset codes covers ASCII letters.
- HTTP, Kafka, Redis, environment loading, metrics, logging, tracing, server start and shutdown: plumbing. Events are
  an arbitrary sequence; a Redis store is an idempotency store that may fail or forget.
- Decimal and float64 representation: amounts are exact.
- Liveness after failures: the code does not retry within the life of a claim.
