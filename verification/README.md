# Flashkart, verified

A Dafny model of the parts of Flashkart that must be right under concurrency: the stock
counters, reservations and the order pipeline that share stock, the idempotency lock, the
token-bucket rate limiter and refresh-token rotation.

## How the model is built

Each Redis or Mongo call is atomic; a function is a sequence of such calls, and the calls of
many processes interleave. So a function in flight is a value that says which call comes next,
one event runs one call of one process, and a run is any sequence of events. Calls may throw
without landing, processes may die between any two calls, and the broker may redeliver jobs.

- `Purchase`: one product's counter and any number of racing `purchase` calls.
- `OrderPipeline`, `PipelineProgress`: one order with its three queues, its handler runs and
  its compensations. Handlers touch only their own order, so one order is a closed system.
- `Ledger`: the whole selling system; it runs the calls of `Purchase` against its counters and
  holds one `OrderPipeline` order per document. `Conservation`, `Linearization` and
  `Arbitration` are proved about it.
- `Requests`, `Completion`: what each client of the whole system is told, and that every call ends
  and every order lives a pipeline life. `PipelineWork`: side effects, attempts and failures of one order.
- `Idempotency`, `IdempotencyTiming`: one key, its callers, the purchase the winner runs, and its time limits.
- `TokenBucket`: the Lua script, whole request sequences, eviction and the 429 answer.
- `Sessions`: token families over sequences of login, refresh and logout.
- `IdempotencyKeys`: the strings that name the keys.
- `Inventory`, `Shop`, `OrderWorker`, `IdempotencyStore`, `SessionStore` and
  `TokenBucket.RateKey` are the same code in its own form: classes whose methods update fields
  in place. `Inventory` runs whole functions, with the sweep loop and its timer; the others run
  one atomic call each, or one undisturbed winner, and are proved to be the steps of the state
  machines above. Every method of `Shop.System` keeps conservation and arbitration.
- `Common` and `Reservations`: options, sums over sequences, the reservation document.

Fields marked as history (units lost, refunds executed, statuses passed) record what happened
so that statements about whole runs can be made about the final state; no step reads them.

Main results: nothing is oversold and no unit is unaccounted for (`Conservation.StockIsConserved`);
purchases are linearizable, in the whole system too, and sell out exactly
(`Purchase.Linearizable`, `Linearization.SystemLinearizable`, `Purchase.ExactSellOut`);
every client is told the truth about its own request (`Requests.AnswersAreTrue`,
`Requests.OneClientPerDocument`); a reservation has one winner and one report
(`Arbitration.OneWinner`, `Arbitration.SweepsReport`); an order moves along one path, fails only
after three failed payments and is refunded exactly when it failed (`OrderPipeline.PipelineSafety`,
`PipelineWork.FailsAfterThree`, `OrderPipeline.CompensationExact`);
every pipeline run ends, and where (`PipelineProgress.EveryRunEnds`,
`PipelineProgress.QuiescentDiagnosis`); a key buys once, exactly under
its assumptions, and replays its answer for a day (`Idempotency.IdempotentBuy`,
`Idempotency.PromiseExactly`, `IdempotencyTiming.AnswerKeptForADay`); the
limiter admits exactly what the window budgets allow (`TokenBucket.AdmittedExactly`); refresh
tokens form one chain and last exactly their lifetime (`Sessions.SingleChain`, `Sessions.LoginExactly`).

## Where the code does less than it says

- api/src/idempotency/idempotency.ts:32 promises that `fn` runs at most once for a key. A run
  keeps that promise if and only if each of its events is sound (`Idempotency.PromiseExactly`):
  no claim lands beside a winner slower than its lock, no store of a result throws (the store
  sits inside the try block, so the key of a completed purchase is deleted), no process dies
  between creating the order and storing the answer, and nobody claims the key after the
  answer's day. After the first event that is not, callers that behave perfectly can create a
  second order (`Idempotency.UnsoundBuysTwice`); four short runs show each way.
- worker/src/pipeline/orderPipeline.ts:8-10 calls duplicate deliveries safe. They are, for the
  order's status, jobs and stock. But a call that dies between a compare-and-set and the next
  enqueue strands the order, because the retry finds it past its gate
  (`PipelineProgress.PublishFailureStrands`, `PipelineProgress.FatalForEver`).
- api/src/inventory/inventory.ts:92-94 says a failed write would silently burn inventory without
  a compensation. `doPurchase` has none (`Conservation.FailedCreateBurnsOnlyOrders`), so the
  ledger has a column for lost units.

## Model

| member | source | states |
|---|---|---|
| `Purchase.StepRefines` | api/src/inventory/inventory.ts:21-83 | every store call of a purchase either leaves the live stock alone or is one indivisible purchase with its result; a late primer changes nothing |
| `Purchase.StepKeepsInv` | api/src/inventory/inventory.ts:53-67 | no interleaving makes the counter negative or invalidates what another call relies on |
| `Purchase.Linearizable` | api/src/inventory/inventory.ts:16-83 | all interleavings of purchases and refunds, completion order, are a sequential history of one atomic counter that starts at the catalog stock |
| `Purchase.SellingStep` | api/src/inventory/inventory.ts:69-83 | during a sale of single units, sold units, distinct remaining values and the counter stay in step, and nobody is told sold out early |
| `Purchase.ExactSellOut` | api/src/inventory/inventory.test.ts:19-38 | N callers against stock S end with exactly min(N, S) successes, told each of S - min(N, S) .. S - 1 once, and the rest sold out, for every N, S and schedule |
| `Purchase.CallsEnd` | api/src/inventory/inventory.ts:69-83 | a purchase takes at most four store calls, whatever the others do, and is answered by the fourth |
| `Purchase.CanComplete` | api/src/inventory/inventory.ts:69-83 | from any state all calls in flight can be answered |
| `Purchase.SellOutHappens` | api/src/inventory/inventory.test.ts:19-38 | the sale can be run to its end, primed or not, and then exactly min(N, S) calls succeeded |
| `OrderPipeline.StepKeepsInv` | worker/src/pipeline/orderPipeline.ts:49-195 | every handler call, exception, crash and redelivery keeps the accounts of history, jobs and refunds, and only extends the history |
| `OrderPipeline.RefundStep` | worker/src/pipeline/orderPipeline.ts:105-108 | stock is given back by the compensation's INCRBY alone, and only if it never was before |
| `OrderPipeline.PipelineSafety` | worker/src/pipeline/orderPipeline.ts:49-195 | the history is a prefix of pending, paid, fulfilled, confirmed or is pending, failed; no status twice; at most one job per stage; a fulfill job only after paid |
| `OrderPipeline.CompensationExact` | worker/src/pipeline/orderPipeline.ts:91-126 | at most one refund over the whole run, only for a failed order, never after paid, and exactly one if the compensation did not die |
| `PipelineProgress.StepDecreases` | worker/src/pipeline/orderPipeline.ts:36 | redeliveries, attempts and queued work decrease lexicographically with every step, faults included |
| `PipelineProgress.EveryRunEnds` | worker/src/pipeline/orderPipeline.ts:36 | no endless schedule exists for an order |
| `PipelineProgress.FreshlyMoved` | worker/src/pipeline/orderPipeline.ts:72-85 | right after a winning compare-and-set the next stage has no job yet: the winner still owes it |
| `PipelineProgress.ProgressStep` | worker/src/pipeline/orderPipeline.ts:72-85 | an order whose stage has its job always has somebody who can still move it, or has used up its attempts |
| `PipelineProgress.QuiescentDiagnosis` | worker/src/pipeline/orderPipeline.ts:49-195 | at rest an order is confirmed or failed and refunded, if and only if no critical call died and its stage has attempts left |
| `PipelineProgress.FatalExactly` | worker/src/pipeline/orderPipeline.ts:79-85 | an order becomes unfinishable exactly when the call that must follow a compare-and-set or the creation dies |
| `PipelineProgress.FatalForEver` | worker/src/pipeline/orderPipeline.ts:57-61 | such an order is never repaired by any number of redeliveries |
| `PipelineProgress.PublishFailureStrands` | worker/src/pipeline/orderPipeline.ts:79-85 | a reachable run whose order is paid and stuck because one event could not be published |
| `PipelineProgress.CanFinish` | worker/src/pipeline/orderPipeline.ts:49-195 | from any state the work in hand can be brought to rest without another fault |
| `PipelineProgress.CanSettle` | worker/src/pipeline/orderPipeline.ts:49-195 | an order without a fatal death and with attempts left can always still be confirmed or refunded |
| `PipelineWork.FailuresCount` | worker/src/pipeline/orderPipeline.ts:227-229 | the job's attempts counter is the number of its runs that threw |
| `PipelineWork.FailsAfterThree` | worker/src/pipeline/orderPipeline.ts:227-233 | an order fails, or is owed or given a refund, only after three payment attempts threw; each from the third on, and none before, starts one compensation |
| `PipelineWork.NoStatusWithoutWork` | worker/src/pipeline/orderPipeline.ts:64-77 | a paid order was charged, a fulfilled one went through the warehouse, a confirmed one was mailed, and every charge was recorded first |
| `PipelineWork.LateDeliveriesDoNothing` | worker/src/pipeline/orderPipeline.ts:57-62 | once an order is past a stage, no later delivery of the stage repeats its side effect or touches the recorded attempts |
| `PipelineWork.RecordedAttempts` | worker/src/pipeline/orderPipeline.ts:64-65 | `paymentAttempts` is at most the attempts saved, and exactly that when no two runs overlap |
| `PipelineWork.AnnouncedOnce` | worker/src/pipeline/orderPipeline.ts:79-84 | each status event is published at most once, and exactly once unless its publisher threw, died or is on its way |
| `PipelineWork.RedeliveryMoves` | worker/src/pipeline/orderPipeline.ts:9-11 | one redelivery without a fault moves an order on from the stage it stands at, whatever became of the others |
| `OrderWorker.OrderRow.AdvanceHandler` | worker/src/pipeline/orderPipeline.ts:52-85 | the next call of a process, fulfill or notify run, in place, is the machine's step |
| `OrderWorker.OrderRow.AdvanceOther` | worker/src/pipeline/orderPipeline.ts:91-108 | the enqueue after checkout and the two calls of a compensation, in place, are the machine's steps |
| `OrderWorker.OrderRow.FailHandler` | worker/src/pipeline/orderPipeline.ts:227-233 | a failed attempt is retried below three attempts; exactly from the third on a process job starts a compensation |
| `Conservation.StepWellFormed` | api/src/inventory/inventory.ts:44-215 | counters are never removed or negative and exist only for active products; documents keep product and quantity; every call in flight agrees with them |
| `Conservation.StepBalanced` | api/src/inventory/inventory.ts:95-215 | every step of every process, fault and pipeline event keeps each product's ledger total |
| `Conservation.StockIsConserved` | api/src/inventory/inventory.ts:69-215 | in every reachable state counter, held, confirmed, sold, in transit, owed and lost units add up to the catalog stock; the counter stays in 0 .. catalog and commitments never exceed it |
| `Linearization.StepIsAtomic` | api/src/inventory/inventory.ts:69-83 | every store call of every process is, for each product, no operation, one atomic purchase with the result its caller gets, or one refund |
| `Linearization.SystemLinearizable` | api/src/inventory/inventory.ts:16-83 | with reservations, releases, sweeps, compensations and crashes running, all purchases and refunds of a product that complete, in completion order, are a sequential history of one atomic counter |
| `Requests.AnswersAreTrue` | api/src/inventory/inventory.ts:69-215 | over whole runs, every answer is true of the documents and belongs to the request that came in: product, quantity, reservation id, status, deadline, at most 100 holds a sweep |
| `Requests.ResultsAreLinear` | api/src/inventory/inventory.ts:77-82 | the result a buyer is told, remaining units included, is that of an operation in the atomic counter's history |
| `Requests.OneClientPerDocument` | api/src/routes/products.ts:102-127 | each order and each reservation is told to exactly one client, or its answer was silenced by an exception or death; such answers number exactly the documents |
| `Requests.AnswersNameDocuments` | api/src/routes/products.ts:118-127 | an answer names a document that exists, and no two clients are told of the same one |
| `Requests.LookupExactly` | api/src/inventory/inventory.ts:154-158 | not found if and only if the hold is not there at the lookup, expired or not holdable if and only if it is |
| `Requests.SweepEndsExactly` | api/src/inventory/inventory.ts:203-209 | a sweep ends if and only if it took 100 holds or none is overdue, and otherwise expires one overdue hold |
| `Requests.ErrorsHaveCauses` | api/src/inventory/inventory.ts:121-126 | a call fails only if one of its own store calls threw, and dies only with its own process |
| `Requests.HoldsLast` | api/src/inventory/inventory.ts:103 | a new hold is not swept while all clocks show less than 90 seconds after its making, and not confirmed once all show at least that |
| `Completion.CallsEnd` | api/src/inventory/inventory.ts:69-215 | every call in flight ends: a purchase within 7 of its own steps, a confirm or release within 3, a sweep within 202 |
| `Completion.AllCanEnd` | api/src/inventory/inventory.ts:69-215 | from any state all calls in flight can be answered without a fault |
| `Completion.OrdersLivePipelineLives` | api/src/routes/products.ts:102-112 | every order in the shop is created pending and runs through the pipeline machine by its own events alone |
| `Completion.OrdersAreSafe` | worker/src/pipeline/orderPipeline.ts:49-195 | in the whole system each order keeps to the one path, fails only after three thrown payments and is refunded at most once, only if failed |
| `Conservation.AtRestNothingIsMissing` | worker/src/sweeper.ts:9-12 | once calls and compensations are done, counter and commitments make up the catalog stock but for units of crashed calls |
| `Conservation.LossExactly` | api/src/routes/products.ts:89-109 | a call loses units exactly when it dies holding them, or throws holding them outside `reserve` |
| `Conservation.FailedCreateBurnsOnlyOrders` | api/src/routes/products.ts:99-109 | a document that cannot be created burns the units of a purchase but not those of a reservation |
| `Arbitration.StepArbitrates` | api/src/inventory/inventory.ts:137-215 | each step keeps, for every hold, refunds owed, executed and lost equal to its one refundable transition |
| `Arbitration.StepStable` | api/src/models/Reservation.ts:9-11 | no step moves a hold that has left held |
| `Arbitration.OneWinner` | worker/src/sweeper.ts:7-12 | one transition per hold; callers who say confirmed, with those who threw or died before they could, are exactly one for a confirmed hold, likewise for released; at most one refund, never for a confirmed hold |
| `Arbitration.RunReported` | api/src/inventory/inventory.ts:146-192 | over any run, reports of a confirmed or released hold and reports silenced by an exception or crash add up to its one transition |
| `Arbitration.SweepsReport` | api/src/inventory/inventory.ts:198-215 | the counts reported by all sweeps of both sweepers, and those of sweeps under way or that threw or died, add up to the expired holds that were refunded |
| `Arbitration.DeadlinesHold` | api/src/inventory/inventory.ts:140-144 | with all clock readings in an interval, no hold due after it is swept and none due before it is confirmed |
| `Shop.StepKeepsSound` | api/src/inventory/inventory.ts:95-215 | every event keeps each product's books balanced and each hold settled, the invariant all methods of `System` require and ensure |
| `Shop.System.Spawn` | api/src/routes/products.ts:68-73 | a request or sweep that arrives, in place, is the ledger's step |
| `Shop.System.GetLiveStock` | api/src/inventory/inventory.ts:45-51 | the stock a client is shown is the catalog stock less units committed, in transit and lost, for every known product, primed or not |
| `Shop.System.BuyStep` | api/src/inventory/inventory.ts:69-83 | the script, the catalog read, SET NX and the retry, in place, are the ledger's steps and keep the books balanced |
| `Shop.System.RecordStep` | api/src/inventory/inventory.ts:103-126 | creating the document, an order for a buy and a hold for a reservation, or giving stock back, in place, is the ledger's step |
| `Shop.System.ConfirmStep` | api/src/inventory/inventory.ts:137-159 | confirm up to its answer, in place, is the ledger's steps and keeps every hold settled |
| `Shop.System.ReleaseStep` | api/src/inventory/inventory.ts:168-181 | release up to its answer or refund, in place, is the ledger's steps and keeps every hold settled |
| `Shop.System.SweepStep` | worker/src/sweeper.ts:49-56 | a sweeper's clock read and next flip, in place, are the ledger's steps |
| `Shop.System.RefundStep` | worker/src/sweeper.ts:58 | the INCRBY of a release or a sweep, in place, is the ledger's step |
| `Shop.System.AnswerStep` | api/src/inventory/inventory.ts:146-152 | telling the client, in place, is a step of its own that changes nothing else |
| `Shop.System.Throw` | api/src/inventory/inventory.ts:121-126 | a call that throws, in place, is the ledger's step: only `reserve` goes on to give its stock back |
| `Shop.System.Crash` | worker/src/sweeper.ts:51-58 | the death of a process, in place, is the ledger's step: the books show what it took with it |
| `Shop.System.PipeStep` | worker/src/pipeline/orderPipeline.ts:91-108 | a pipeline step of one order, in place, is the ledger's step and keeps the books balanced |
| `Inventory.Store.BuyStock` | api/src/inventory/inventory.ts:21-27 | the script's new count and reply, other products untouched |
| `Inventory.Store.PrimeFromMongo` | api/src/inventory/inventory.ts:58-67 | priming succeeds for active products only and changes no live stock and no existing counter |
| `Inventory.Store.Purchase` | api/src/inventory/inventory.ts:69-83 | undisturbed, the whole retry logic is the atomic purchase of the live stock |
| `Reservations.NewHoldLasts` | api/src/inventory/inventory.ts:14-15 | a new hold can be confirmed exactly until 90 seconds after its making and swept exactly from then on |
| `Inventory.Store.Reserve` | api/src/inventory/inventory.ts:95-127 | a hold with a deadline 90 seconds away for the units taken, or no change at all, even when the document does not land |
| `Inventory.Store.ConfirmReservation` | api/src/inventory/inventory.ts:137-159 | confirms exactly the holds that are held and unexpired, and moves no stock |
| `Inventory.Store.ReleaseReservation` | api/src/inventory/inventory.ts:168-193 | releases exactly the held holds and returns exactly their units |
| `Inventory.Store.SweepExpiredReservations` | api/src/inventory/inventory.ts:198-215 | flips exactly min(100, n) of n overdue holds, raises each counter by their units and leaves the rest alone; throws exactly if the faulty call is reached, with what was done by then kept |
| `Inventory.BacklogIsWorstWindow` | worker/src/sweeper.ts:37-38 | the backlog is the worst excess, over all windows of sweeps, of holds fallen due over 100 a sweep |
| `Inventory.SweepsDrain` | worker/src/sweeper.ts:37-38 | undisturbed sweeps, each with its own clock reading, leave exactly the backlog, and none if and only if no window of sweeps had more fall due than it can take |
| `Inventory.FixedBacklogDrains` | worker/src/sweeper.ts:37-38 | ceil(n / 100) sweeps drain n holds that were overdue from the start, and no fewer do |
| `Inventory.Sweeper.Tick` | worker/src/sweeper.ts:44-74 | a tick sweeps unless stopped or overlapping, when it does nothing; an exception is caught and leaves the guard free for the next tick |
| `Inventory.Sweeper.Run` | worker/src/sweeper.ts:76-83 | the timer's ticks up to the stop leave exactly the backlog and conserve every product's units |
| `TokenBucket.RateKey.RateCheck` | api/src/rateLimit/tokenBucket.ts:15-50 | the script's reassignments compute the bucket, decision, remaining count and retry time of the specification |
| `TokenBucket.GainIsProduct` | api/src/rateLimit/tokenBucket.ts:31-33 | the script's refill product is an even trickle, millisecond by millisecond |
| `TokenBucket.Exactness` | api/src/rateLimit/tokenBucket.ts:22-45 | the tokens a request finds are the minimum over all windows ending at it of burst plus refill less admitted cost |
| `TokenBucket.AdmittedExactly` | api/src/rateLimit/tokenBucket.ts:35-43 | admitted if and only if no window ending at the request would exceed burst plus refill |
| `TokenBucket.SkewedClocks` | api/src/rateLimit/tokenBucket.ts:31-33 | for any timestamps tokens stay in 0 .. capacity and admissions within burst plus refill over forward clock moves, which are elapsed time plus backward drift |
| `TokenBucket.EvictedIsFull` | api/src/rateLimit/tokenBucket.ts:46-47 | a key old enough to be dropped holds a full bucket |
| `TokenBucket.KeyLifetime` | api/src/rateLimit/tokenBucket.ts:46-47 | a key lives twice the time to fill its bucket, rounded up to whole seconds |
| `TokenBucket.EvictionUnobservable` | api/src/rateLimit/tokenBucket.ts:26-29 | dropping idle keys changes no decision, remaining count or retry time of any sequence |
| `TokenBucket.RefusalsAreFree` | api/src/rateLimit/tokenBucket.ts:40-45 | any number of refused probes leaves later requests the same tokens |
| `TokenBucket.RetryExact` | api/src/rateLimit/tokenBucket.ts:40-43 | a refused request is admitted later if and only if its cost fits the bucket and `retryAfterMs` have passed |
| `TokenBucket.HeaderSuffices` | api/src/rateLimit/middleware.ts:47-49 | Retry-After is the fewest whole seconds that cover the retry time, and a client that waits it out is admitted, refused probes in between or not |
| `Idempotency.ExclusiveStep` | api/src/idempotency/idempotency.ts:40-54 | one busy caller at most, owning the marker, unless a claim meets an outlived lock |
| `Idempotency.SecondExecutionExactly` | api/src/idempotency/idempotency.ts:16 | a second execution starts beside a running one exactly when the first is 30 seconds old |
| `Idempotency.PromptRunsAreInTime` | api/src/idempotency/idempotency.ts:16 | winners that finish within their lock never let a second execution start |
| `Idempotency.OneExecutionAtATime` | api/src/idempotency/idempotency.ts:32-54 | over whole runs at most one caller is inside `fn`, whatever throws or crashes |
| `Idempotency.LoserNeverRuns` | api/src/idempotency/idempotency.ts:56-67 | a caller that lost SET NX only ever replays, times out or dies |
| `Idempotency.StoredAnswerSticks` | api/src/idempotency/idempotency.ts:15 | until the stored answer's expiry nothing runs, no stock moves and every value returned is that answer |
| `IdempotencyTiming.AnswerKeptForADay` | api/src/idempotency/idempotency.ts:15-47 | for 86400000 ms after a store, every run keeps the answer, runs nothing, creates nothing and lets no claim win |
| `IdempotencyTiming.RetryReplays` | api/src/idempotency/idempotency.ts:57-62 | a retry at the end of any such run is answered with the stored value |
| `IdempotencyTiming.AnswerExpiresExactly` | api/src/idempotency/idempotency.ts:15 | the next claim wins if and only if a day has passed |
| `IdempotencyTiming.WinnerHoldsFor30Seconds` | api/src/idempotency/idempotency.ts:16-41 | for 30000 ms a busy winner is the only busy caller, and every claim loses |
| `IdempotencyTiming.LockHealsExactly` | api/src/idempotency/idempotency.ts:16 | after a winner's death the next claim wins if and only if 30000 ms have passed |
| `IdempotencyTiming.FailureFreesKey` | api/src/idempotency/idempotency.ts:49-53 | after a failed purchase and the DEL the next caller wins at once |
| `IdempotencyTiming.LoserExactly` | api/src/idempotency/idempotency.ts:57-67 | a loser gives up from 5000 ms on, before that returns the answer exactly if one is visible, and polls on otherwise |
| `IdempotencyTiming.OneOriginal` | api/src/idempotency/idempotency.ts:45-48 | in a sound run exactly one caller is told its answer is not a replay, once there is an answer |
| `Idempotency.IdempotentBuy` | api/src/routes/products.ts:87-141 | if every event is sound, all answers for a key carry one order id, exactly one order exists, and units deducted are quantity times one plus executions that died after the decrement |
| `Idempotency.OneOrderExactly` | api/src/idempotency/idempotency.ts:40-54 | one event keeps the invariant of one order if and only if it is sound |
| `Idempotency.UnsoundBuysTwice` | api/src/idempotency/idempotency.ts:40-54 | after any single unsound event, callers that behave perfectly can create a second order |
| `Idempotency.PromiseExactly` | api/src/idempotency/idempotency.ts:32 | at every moment of a run no fault-free continuation makes two orders, if and only if all events of the run are sound |
| `Idempotency.SlowWinnerBuysTwice` | api/src/idempotency/idempotency.ts:16 | a run in which a slow winner leads to two executions at once and two orders |
| `Idempotency.FailedStoreBuysTwice` | api/src/idempotency/idempotency.ts:45-53 | a run in which a result that cannot be stored leads to two orders |
| `Idempotency.CrashedWinnerBuysTwice` | api/src/idempotency/idempotency.ts:16 | a run in which a winner that dies before storing leads to two orders |
| `Idempotency.ExpiredAnswerBuysAgain` | api/src/idempotency/idempotency.ts:15 | a run in which the key buys again after a day |
| `IdempotencyStore.KeyedBuy.TryClaim` | api/src/idempotency/idempotency.ts:41 | SET NX in place is the machine's claim: it wins an absent or expired key only |
| `IdempotencyStore.KeyedBuy.Execute` | api/src/idempotency/idempotency.ts:43-54 | the winner's try and catch, in place, is a run of the machine; it answers exactly if every call landed, then keeps the answer 86400000 ms, and keeps the promise exactly if a completed purchase was stored |
| `IdempotencyStore.WinnerKeepsPromise` | api/src/idempotency/idempotency.ts:45-53 | of all ways a winner can end, only a completed purchase whose store throws breaks the promise, whether or not the key is deleted |
| `IdempotencyStore.KeyedBuy.PollTurn` | api/src/idempotency/idempotency.ts:58-63 | one turn of a loser's loop, in place, is the machine's step |
| `IdempotencyStore.PollForResult` | api/src/idempotency/idempotency.ts:57-67 | returns the first answer seen before the deadline, and times out if and only if there is none |
| `IdempotencyKeys.KeysDoNotCollide` | api/src/routes/products.ts:84-87 | requests share a key only if operation, user, product and raw key agree, when user ids have no colon |
| `IdempotencyKeys.AcceptedRequestsDoNotCollide` | api/src/routes/products.ts:74-87 | requests that pass the product id and key checks never share a key unless they agree in everything, whatever their user ids |
| `Sessions.AcceptedIsNewest` | api/src/routes/auth.ts:123-142 | an accepted refresh presents the newest token of its family and issues the next one |
| `Sessions.StepKeepsStore` | api/src/auth/refreshStore.ts:19-35 | every request keeps each family's chain, distinct ids, and a store entry that names the newest token and outlives it |
| `Sessions.SingleChain` | api/src/routes/auth.ts:96-149 | over whole runs the accepted tokens of a family form one chain and none is accepted twice |
| `Sessions.AcceptedExactly` | api/src/routes/auth.ts:116-137 | a refresh is accepted if and only if it is the newest token, in the store, unexpired, of an active user |
| `Sessions.ReplayKillsFamily` | api/src/routes/auth.ts:126-131 | after a stale replay no token of the family is ever accepted again |
| `Sessions.LogoutKillsFamily` | api/src/routes/auth.ts:152-167 | after a logout no token of the family is ever accepted again |
| `Sessions.LeavesStoreExactly` | api/src/routes/auth.ts:126-159 | a family leaves the store exactly on a logout, a replay or a refresh by a deactivated user |
| `Sessions.NewestUntilExpiry` | api/src/routes/auth.ts:139-142 | the newest token of a family that nobody ended is accepted until it expires, while its user is active |
| `Sessions.AnswersExactly` | api/src/routes/auth.ts:89-142 | what login, refresh and logout can answer; a login is refused exactly for an inactive user; tokens carry user, family, fresh id and lifetime |
| `Sessions.LoginExactly` | api/src/routes/auth.ts:89-100 | at any moment of any run a login is refused if and only if its user was deactivated last; otherwise its token, left alone, is accepted at exactly the times within its lifetime at which the user is active |
| `Sessions.RefreshedTokenLasts` | api/src/routes/auth.ts:139-142 | the token a refresh issues is accepted at exactly the times within its lifetime, until it is used or its family ends |
| `SessionStore.Auth.Login` | api/src/routes/auth.ts:89-100 | the handler, in place, refuses exactly inactive users and starts a fresh family for the user otherwise |
| `SessionStore.Auth.Refresh` | api/src/routes/auth.ts:110-149 | the handler, in place, with its four refusals and the rotation, is the specified step |
| `SessionStore.Auth.Logout` | api/src/routes/auth.ts:152-167 | the handler, in place, deletes the family of a token that verifies and answers the same otherwise |

## Left out

- Interleaved functions as method bodies: a Dafny method runs without interruption, so the racing
  functions are program counters on values; the classes run single atomic calls, or whole
  functions undisturbed.
- The price lookup of `doPurchase` is one call with the creation of the order: it reads nothing
  that is modelled, and its exception has the same effect.
- The clock read and the GET of one poll turn are one step, as nothing happens between them here.
- Calls after a compensation's INCRBY and after a sweep's INCRBY are best-effort events and have no step.
- Side effects before a compare-and-set (charge, warehouse, e-mail) can repeat under duplicate
  delivery while the order stands at their stage; how often is not claimed, only that none is missing
  (`PipelineWork.NoStatusWithoutWork`) and none comes late (`PipelineWork.LateDeliveriesDoNothing`).
- Ambiguous failures, where a write lands but reports an error: every call lands or does not.
- `Idempotency.IdempotentBuy`: covers buys; the reserve route uses the same protocol around a
  function that gives its stock back.
- `Idempotency.IdempotentBuy`: speaks of one key's own deductions, not of the shared counter of `Ledger`.
- The product record is constant during a run: price, stock and active flag are not edited.
- Queue internals: only delivery, redelivery within a finite budget, an attempts counter per job
  and a failed event per failed attempt.
- A job for an order that does not exist: jobs are added only after the order is created.
- Floating-point rounding in the Lua scripts: tokens are reals.
- `Sessions.SingleChain`: requests run one after another; two overlapping refreshes of one family are not modelled.
- Malformed ids and quantities outside 1 to 10: refused before any store call; quantities are any natural number here.
- `IdempotencyKeys.AcceptedRequestsDoNotCollide`: takes both forms a product id can have, 24 hexadecimal
  digits or 12 characters; a driver that refuses the second form accepts fewer requests.
- `Arbitration.SweepsReport`: counts holds; a sweep reports a number, so which sweep counted which hold is not recorded.
- Password checks, signatures, identifier generation: tokens are unforgeable records, ids fresh numbers.
- `ttlToSeconds`, access tokens, the limiter's bypass and fail-open paths, role and ownership checks,
  request validation, the product list overlay, order reads: single-branch facts.
- Sockets, pub/sub delivery, the web client, logging, health checks, shutdown, deployment.
- Data loss in Redis, reseeding and manual key deletion.
