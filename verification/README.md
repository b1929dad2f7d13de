# Payment dispatch core of rinha-backend-go, in Dafny

The service takes payment requests over HTTP and validates them. It queues
them in a bounded in-memory queue. Worker goroutines drain that queue in
batches and send each payment to an upstream "default" payment processor,
or to a "fallback" processor when the default is unhealthy or fails. A
per-processor circuit breaker (a health flag plus a consecutive-failure
count) decides which processors are tried. A periodic health check pings
tripped processors to close their breakers again. Four counters record
every routing decision.

The model covers three Go files:

- `payments.dfy` (module `Payments`): `PaymentRequest` and `Validate` from
  `types/payment.go`. Validate is a pure function whose three checks run in
  a fixed order.
- `breaker.dfy` (module `Breaker`): the behaviour of `queue/processor.go`
  as values. It holds the breaker transitions (`MarkedHealthy`,
  `MarkedUnhealthy`), the classification of one send (`Classify`, `Send`),
  the routing of one payment (`Process`) and sequential runs of it (`Run`),
  the counters (`Summary`), and the health probe (`Probe`). Over whole runs
  the lemmas prove:
  - the breaker invariant (healthy exactly when fewer than 3 failures are
    counted);
  - the counter balance (total = default + fallback + errors);
  - that the breaker trips on the third processor-level fault;
  - that a successful probe restores the default route.
- `processor.dfy` (module `Processor`): the classes `ProcessorStatus` and
  `PaymentProcessor`, whose methods update fields in place as the Go code
  does. Each method is proved against the `Breaker` functions. For
  example, `ProcessPayment` ensures `State() == Process(old(State()),
  answers).router`.
- `workers.dfy` (module `Workers`): `WorkerPool` from `queue/worker.go`.
  - The buffered channel is a ring buffer over an `array`, with a ghost
    `Queue` for its contents.
  - `Submit` is the non-blocking send and `GetQueueSize` reports the
    queue's length.
  - `ProcessBatch` calls `ProcessPayment` once per payment, in a loop.
  - The worker's `for`/`select` loop runs over an explicit schedule of
    events. `Deliver` is the receive case, `Tick` is the 50 ms ticker, and
    `Shutdown` stands for a cancelled context or a closed channel. The
    loop is proved against the pure `WorkerStep`/`WorkerRun` functions,
    whose lemmas prove three things:
    - nothing dequeued is lost or reordered;
    - batches stay within ten;
    - a worker that returns holds nothing.

The network is an input. Whatever one POST to a processor came to is an
`Exchange`:
- the payload could not be encoded;
- the request could not be built;
- the client failed;
- or a response came back with a status code.

A health ping is a `PingAnswer`. Each payment a worker dispatches comes
with a `Dispatch`, which says what the default and the fallback would
answer if it were sent to them. The k-th payment a worker dispatches uses
the k-th `Dispatch`. The CPU count (`runtime.NumCPU`) is a parameter of the
`WorkerPool` constructor.

## Model

| member | source | states |
|---|---|---|
| Payments.Validate | types/payment.go:38-49 | Returns no error exactly when the amount is positive, the type is non-empty and the description has at most 255 bytes. Otherwise it returns an error whose check fails, and every earlier check (order: amount, type, description) passes, so the first failing check is the one reported. |
| Payments.AmountCheckedFirst | types/payment.go:39-41 | A non-positive amount yields "amount must be positive" whatever the other fields hold. |
| Payments.DescriptionLimitIsInclusive | types/payment.go:45-47 | With amount and type valid, a 255-byte description is accepted and a 256-byte one yields DescriptionTooLong. |
| Breaker.MarkedHealthy | queue/processor.go:155-159 | The result is healthy with 0 failures, whatever the prior state. |
| Breaker.MarkedUnhealthy | queue/processor.go:162-168 | The failure count goes up by exactly one. The result is healthy exactly when it was healthy and the new count is below 3. |
| Breaker.TransitionsKeepConsistent | queue/processor.go:155-168 | Both transitions keep "failures >= 0, and healthy exactly when failures < 3". Only markHealthy can turn an unhealthy processor healthy. |
| Breaker.Classify | queue/processor.go:134-145 | Accepted exactly on a 2xx response. A processor fault exactly on an encode, request-build or transport error, a 429, or any status >= 500. Anything else rejects the payment. |
| Breaker.Send | queue/processor.go:92-152 | Success exactly on 2xx, and the error is absent exactly on success. The result names the processor tried. 2xx applies markHealthy, a processor fault applies markUnhealthy, and any other status leaves the health unchanged. |
| Breaker.Fresh | queue/processor.go:39-57 | Both processors are healthy with 0 failures, all four counters are 0, and the router invariant holds. |
| Breaker.Process | queue/processor.go:61-89 | ProcessPayment on a router state, returning the new state, the result and the processors sent to; its contract is carried by ProcessRoutes, ProcessHealth, ProcessCounts and ProcessKeepsValid. |
| Breaker.ProcessRoutes | queue/processor.go:64-88 | The default is tried exactly when healthy, and first. The fallback is tried exactly when it is healthy and the default was skipped or failed in any way, a plain 4xx included. The result names the processor that succeeded, or is ("none", "all processors unavailable"). Both unhealthy: nothing is sent and the result is a failure. |
| Breaker.ProcessHealth | queue/processor.go:64-80 | A processor that is sent to goes through sendToProcessor's transition; one that is not keeps its health. |
| Breaker.ProcessCounts | queue/processor.go:62-88 | totalPayments goes up by one, and exactly one of defaultSuccess, fallbackSuccess and totalErrors goes up by one, as the result says. |
| Breaker.ProcessKeepsValid | queue/processor.go:61-89 | One ProcessPayment keeps both breaker invariants, the counter balance and non-negative counters. |
| Breaker.Run | queue/worker.go:117-131 | Sequential ProcessPayment calls, one per answer; ProcessBatch and Worker are proved against it, and RunAppend, RunKeepsValid, AllDefaultSuccesses, DefaultDownFallbackUp and DefaultFaultsCount state its properties. |
| Breaker.RunKeepsValid | queue/processor.go:62-88 | Over any sequential run, the invariants and total == defaultSuccess + fallbackSuccess + totalErrors hold, and total grows by the number of payments. |
| Breaker.AllDefaultSuccesses | queue/processor.go:65-70 | If the default is healthy and answers 2xx every time, every payment is a default success and no other counter moves. |
| Breaker.DefaultDownFallbackUp | queue/processor.go:64-79 | If the default always faults and the fallback always answers 2xx, every payment is a fallback success. The default's failures grow by one per attempt, and a default that starts healthy is attempted at most until its count reaches 3. |
| Breaker.DefaultFaultsCount | queue/processor.go:162-166 | Over a run of processor faults at the default, its failure count rises by one per payment while it is healthy and stops once the breaker has tripped. |
| Breaker.ThirdFaultTripsDefault | queue/processor.go:164-166 | From a reset default, three processor faults trip its breaker, and the next payment is not sent to the default. |
| Breaker.PingSucceeded | queue/processor.go:225-241 | The ping succeeds exactly on a status of 200; other 2xx statuses and errors do not count. |
| Breaker.Probed | queue/processor.go:203-207 | A healthy processor is left alone. An unhealthy one is marked healthy exactly when its ping succeeds, and otherwise left as it was. |
| Breaker.Probe | queue/processor.go:196-222 | Each processor is probed independently, and the counters do not change. |
| Breaker.ProbeKeepsValid | queue/processor.go:196-222 | The health check keeps the breaker invariants. |
| Breaker.ProbeRestoresDefault | queue/processor.go:203-207 | A probe that finds the tripped default answering 200 closes its breaker, and the next payment is sent to the default first. |
| Processor.ProcessorStatus.constructor | queue/processor.go:51-56 | A new status is healthy with 0 failures. |
| Processor.PaymentProcessor.constructor | queue/processor.go:39-57 | The new processor keeps both URLs, owns two distinct new statuses, and its state is Fresh(). |
| Processor.PaymentProcessor.MarkHealthy | queue/processor.go:155-159 | The status becomes healthy with 0 failures. |
| Processor.PaymentProcessor.MarkUnhealthy | queue/processor.go:162-168 | The failure count rises by exactly one. The flag drops once the count reaches 3 and is unchanged below that. |
| Processor.PaymentProcessor.SendToProcessor | queue/processor.go:92-152 | The status and the result are those of Send on the exchange. |
| Processor.PaymentProcessor.ProcessPayment | queue/processor.go:61-89 | The new state and the result are those of Process on the old state, and the invariant is kept. |
| Processor.PaymentProcessor.GetSummary | queue/processor.go:171-178 | Returns the four counters as they are, which add up, and changes nothing. |
| Processor.PaymentProcessor.CheckProcessorHealth | queue/processor.go:196-222 | The new state is Probe of the old one with the two ping answers, and the invariant is kept. |
| Workers.WorkerCount | queue/worker.go:27-30 | Returns min(4·cpus, 100), which is between 1 and 100 when there is at least one CPU. |
| Workers.WorkerStep | queue/worker.go:75-104 | After the worker returns, nothing changes. A delivery on an empty queue changes nothing; otherwise the queue's head leaves the queue and joins the batch, and a batch that reaches 10 is flushed whole and emptied. A tick flushes and empties a non-empty batch and leaves an empty one alone. Shutdown flushes a non-empty batch, empties it and returns, leaving the queue as it is. |
| Workers.StepKeepsInvariants | queue/worker.go:76-103 | Every event of the select loop keeps conservation (flushed batches, then the held batch, then the queue, stay equal to the starting queue) and the batch bounds (held batch below 10, flushed batches of 1 to 10, nothing held after return). |
| Workers.WorkerRun | queue/worker.go:75-104 | The worker after the first n events of a schedule, one WorkerStep per event; Worker is proved against it, and RunKeepsInvariants and ExitIsFinal state its properties. |
| Workers.RunKeepsInvariants | queue/worker.go:67-105 | Over any schedule, from any state that has lost nothing: flushed batches, then the held batch, then the queue, stay exactly the payments it started with, in FIFO order. The held batch stays below 10, every flushed batch has 1 to 10 payments, and a returned worker holds nothing. |
| Workers.ResumedRunKeepsInvariants | queue/worker.go:67-105 | A worker resumed with a held batch of fewer than 10 ends with its flushed batches, held batch and queue equal to the held batch followed by the queue it started from, within the batch bounds. |
| Workers.DeliverThenTick | queue/worker.go:82-102 | A payment received while a batch is held joins it, and the next tick flushes the held payments and the new one as a single batch. |
| Workers.ExitIsFinal | queue/worker.go:77-87 | Once the worker has returned, the rest of the schedule changes nothing. |
| Workers.WorkerPool.constructor | queue/worker.go:23-39 | An empty queue whose capacity is queueSize, and WorkerCount(cpus) workers. |
| Workers.WorkerPool.Submit | queue/worker.go:57-64 | Returns true exactly when the queue is below capacity, and then appends the payment at the tail. A full queue returns false and is unchanged. |
| Workers.WorkerPool.Take | queue/worker.go:82 | The receive yields the oldest queued payment and removes it (FIFO). |
| Workers.WorkerPool.GetQueueSize | queue/worker.go:135-137 | Returns the queue's length, which never exceeds its capacity. |
| Workers.WorkerPool.ProcessBatch | queue/worker.go:108-132 | ProcessPayment runs once per payment, in order, so the processor's state is Run over the batch's answers. totalPayments grows by the batch size, and an empty batch changes nothing. |
| Workers.WorkerPool.Worker | queue/worker.go:67-105 | Starting from the batch `held` (empty for a new worker, or the batch a previous run returned, so runs can be interleaved with Submit), the worker ends in WorkerRun's state. What it flushed, then what it holds, then the queue, are `held` followed by the queue it started from. It holds fewer than 10 payments, and none once it has returned. The processor's state is Run over one answer per dispatched payment. |
| Workers.WorkerPool.Select | queue/worker.go:76-103 | One pass of the select loop does what WorkerStep says for its event, and dispatches each flushed payment on the next unused answer. |
| Workers.WorkerPool.OnDeliver | queue/worker.go:82-95 | The receive case, as WorkerStep's Deliver. |
| Workers.WorkerPool.OnTick | queue/worker.go:97-102 | The ticker case, as WorkerStep's Tick. |
| Workers.WorkerPool.OnShutdown | queue/worker.go:77-87 | The cancel and closed-channel cases flush the held batch and return, as WorkerStep's Shutdown. |
| Workers.WorkerPool.Flush | queue/worker.go:93-94 | processBatch on the held batch records it as flushed and advances the processor's state by Run over that batch's answers. |

## Left out

- HTTP and JSON: the client setup, timeouts, request building, `client.Do`, `pingProcessor`'s GET and `ToJSON` are not modelled. Their outcomes enter as `Exchange` and `PingAnswer` inputs, and an encoding failure is the `EncodeFailed` exchange.
- Concurrency is not modelled: goroutines, the WaitGroups, the 5-slot semaphore in `processBatch`, the two parallel pings and the atomic operations. Everything runs sequentially, one `ProcessPayment` after another and one worker at a time. The counter balance and the breaker invariant are proved for sequential runs only. With interleaved atomics, `GetSummary` can read counters that are momentarily out of balance.
- Time is not modelled: the 10-second `HealthChecker` loop, the 50 ms ticker (an explicit `Tick` event instead), `LastCheckTime` and `ResponseTimeMs`. They come from the wall clock and no decision reads them.
- `Start` and `Stop` are not modelled. Neither is sending on the closed channel, which panics in Go after `Stop`.
- Processor.PaymentProcessor.ProcessPayment: `IsHealthy` is an `int64` that only ever holds 0 or 1, so it is a `bool`. The counters and failure counts are unbounded integers, so 64-bit wrap-around is not modelled.
- Workers.WorkerPool.Worker: the Go loop runs until shutdown, but the model runs a finite schedule of events. Submit calls fall between runs rather than between the events of one run; a run resumed with the batch the previous run returned (`held`) covers payments arriving while a batch is held. Payments still in the queue when a worker returns are left there: a cancelled worker flushes only its own batch, and nothing in the code reports them.
- Workers.WorkerPool.constructor: `queueSize` is a `nat`, because `make` panics on a negative capacity.
- Workers.WorkerPool.Submit: a channel of capacity 0 hands a payment over directly to a waiting receiver. The model has no waiting receivers, so `Submit` on a zero-capacity queue always returns false.
- `handlers/payments.go` and `main.go` (HTTP handlers, server setup, signals, environment) are not part of this model.
