/**
  The worker pool (queue/worker.go): a bounded, non-blocking ingestion
  queue, and workers that drain it into batches of at most ten payments,
  flushed when full, when the ticker fires, and when the worker shuts down.

  The model is sequential: one worker at a time runs a schedule of events
  (a payment delivered, a timer tick, shutdown) against the shared queue,
  and a batch is dispatched one payment after another.
*/
module Workers {

  import opened Payments
  import opened Breaker
  import Processor

  /** Size at which a batch is flushed. */
  const BatchSize := 10

  /** Workers started per CPU, and the ceiling on their number. */
  const WorkersPerCpu := 4
  const MaxWorkers := 100

  /** NewWorkerPool's worker count: four per CPU, at most 100. */
  function WorkerCount(cpus: int): (n: int)
    ensures n == WorkersPerCpu * cpus || n == MaxWorkers
    ensures n <= WorkersPerCpu * cpus && n <= MaxWorkers
    ensures cpus >= 1 ==> 1 <= n
  {
    var n := cpus * WorkersPerCpu;
    if n > MaxWorkers then MaxWorkers else n
  }

  /** What a worker's select picks up next. */
  datatype Event =
    | Deliver   // the receive case: the head of the queue, if there is one
    | Tick      // the 50 ms flush ticker
    | Shutdown  // the context is cancelled, or the queue is closed and drained

  /**
    A worker and the queue it drains: the queued payments, the batch it
    holds, the batches handed to processBatch so far, and whether it has
    returned.
  */
  datatype WorkerState = WorkerState(
    queue: seq<PaymentRequest>,
    batch: seq<PaymentRequest>,
    flushed: seq<seq<PaymentRequest>>,
    exited: bool)

  /** The worker loop's response to one event; a worker that has returned does nothing more. */
  function WorkerStep(s: WorkerState, e: Event): (r: WorkerState)
    ensures s.exited ==> r == s
    ensures !s.exited && e == Tick ==>
      r == if s.batch == [] then s else s.(batch := [], flushed := s.flushed + [s.batch])
    ensures !s.exited && e == Shutdown ==>
      r == WorkerState(s.queue, [], if s.batch == [] then s.flushed else s.flushed + [s.batch], true)
    ensures !s.exited && e == Deliver && s.queue == [] ==> r == s
    ensures !s.exited && e == Deliver && s.queue != [] && |s.batch| + 1 < BatchSize ==>
      r == s.(queue := s.queue[1..], batch := s.batch + [s.queue[0]])
    ensures !s.exited && e == Deliver && s.queue != [] && |s.batch| + 1 >= BatchSize ==>
      r == WorkerState(s.queue[1..], [], s.flushed + [s.batch + [s.queue[0]]], false)
  {
    if s.exited then s
    else
      match e
      case Deliver =>
        if s.queue == [] then s
        else
          var batch := s.batch + [s.queue[0]];
          if |batch| >= BatchSize then WorkerState(s.queue[1..], [], s.flushed + [batch], false)
          else s.(queue := s.queue[1..], batch := batch)
      case Tick =>
        if |s.batch| > 0 then s.(batch := [], flushed := s.flushed + [s.batch]) else s
      case Shutdown =>
        // processBatch of an empty batch does nothing, so only a non-empty one is recorded
        WorkerState(s.queue, [], if s.batch == [] then s.flushed else s.flushed + [s.batch], true)
  }

  /** The worker after the first `n` events of a schedule. */
  function WorkerRun(s: WorkerState, es: seq<Event>, n: nat): WorkerState
    requires n <= |es|
    decreases n
  {
    if n == 0 then s else WorkerStep(WorkerRun(s, es, n - 1), es[n - 1])
  }

  /** The payments of a sequence of batches, in order. */
  function Flatten(bs: seq<seq<PaymentRequest>>): seq<PaymentRequest>
    decreases |bs|
  {
    if bs == [] then [] else Flatten(bs[..|bs| - 1]) + bs[|bs| - 1]
  }

  /**
    The worker has lost nothing and reordered nothing: the dispatched
    payments, then the held batch, then the queue, are the queue it
    started from.
  */
  predicate Conserves(s: WorkerState, start: seq<PaymentRequest>) {
    Flatten(s.flushed) + s.batch + s.queue == start
  }

  /**
    The held batch stays below the flush size, every dispatched batch has
    between one and ten payments, and a worker that has returned holds none.
  */
  predicate BatchesBounded(s: WorkerState) {
    |s.batch| < BatchSize &&
    (forall i :: 0 <= i < |s.flushed| ==> 0 < |s.flushed[i]| <= BatchSize) &&
    (s.exited ==> s.batch == [])
  }

  lemma FlattenAppend(bs: seq<seq<PaymentRequest>>, b: seq<PaymentRequest>)
    ensures Flatten(bs + [b]) == Flatten(bs) + b
  {
  }

  /**
    Every event keeps both properties: taking the head of the queue into the
    batch, flushing it at ten, and handing the held batch to processBatch
    on a tick or at shutdown lose nothing and reorder nothing.
  */
  lemma StepKeepsInvariants(s: WorkerState, e: Event, start: seq<PaymentRequest>)
    requires Conserves(s, start) && BatchesBounded(s)
    ensures Conserves(WorkerStep(s, e), start) && BatchesBounded(WorkerStep(s, e))
  {
  }

  /**
    Over any schedule, a worker that starts from a state that has lost
    nothing (its batch and the queue, say) dispatches payments in queue
    (FIFO) order, drops none it has taken, holds fewer than ten, flushes
    batches of one to ten, and holds nothing once it has returned: every
    payment it dequeued has been dispatched.
  */
  lemma {:induction false} RunKeepsInvariants(s: WorkerState, origin: seq<PaymentRequest>, es: seq<Event>, n: nat)
    requires n <= |es|
    requires Conserves(s, origin) && BatchesBounded(s)
    ensures Conserves(WorkerRun(s, es, n), origin)
    ensures BatchesBounded(WorkerRun(s, es, n))
    decreases n
  {
    if n > 0 {
      RunKeepsInvariants(s, origin, es, n - 1);
      StepKeepsInvariants(WorkerRun(s, es, n - 1), es[n - 1], origin);
    }
  }

  /** A worker resumed with a held batch of fewer than ten loses nothing of that batch or of the queue. */
  lemma ResumedRunKeepsInvariants(queue: seq<PaymentRequest>, held: seq<PaymentRequest>, es: seq<Event>)
    requires |held| < BatchSize
    ensures Conserves(WorkerRun(WorkerState(queue, held, [], false), es, |es|), held + queue)
    ensures BatchesBounded(WorkerRun(WorkerState(queue, held, [], false), es, |es|))
  {
    RunKeepsInvariants(WorkerState(queue, held, [], false), held + queue, es, |es|);
  }

  /**
    A payment that arrives while the worker holds a batch joins that batch:
    one delivery and a tick flush the held payments and the new one together.
  */
  lemma DeliverThenTick(queue: seq<PaymentRequest>, held: seq<PaymentRequest>)
    requires queue != [] && |held| + 1 < BatchSize
    ensures WorkerRun(WorkerState(queue, held, [], false), [Deliver, Tick], 2) ==
      WorkerState(queue[1..], [], [held + [queue[0]]], false)
  {
  }

  /** Once the worker has returned, the rest of the schedule changes nothing. */
  lemma {:induction false} ExitIsFinal(s: WorkerState, es: seq<Event>, k: nat, n: nat)
    requires k <= n <= |es| && WorkerRun(s, es, k).exited
    ensures WorkerRun(s, es, n) == WorkerRun(s, es, k)
    decreases n
  {
    if n > k {
      ExitIsFinal(s, es, k, n - 1);
    }
  }

  class WorkerPool {
    const processor: Processor.PaymentProcessor
    const workerCount: int
    /** The buffered channel's storage; its length is the queue's capacity. */
    const buffer: array<PaymentRequest>
    var head: nat
    var count: nat
    /** The queued payments, oldest first. */
    ghost var Queue: seq<PaymentRequest>

    /** The ring buffer holds exactly the queued payments, oldest at `head`. */
    ghost predicate QueueValid()
      reads this, buffer
    {
      count <= buffer.Length && |Queue| == count &&
      (buffer.Length == 0 ==> head == 0) &&
      (buffer.Length > 0 ==> head < buffer.Length) &&
      Queue == if head + count <= buffer.Length then buffer[head..head + count]
               else buffer[head..] + buffer[..head + count - buffer.Length]
    }

    ghost predicate Valid()
      reads this, buffer, processor, processor.defaultStatus, processor.fallbackStatus
    {
      QueueValid() && processor.Valid()
    }

    /** NewWorkerPool: an empty queue of capacity `queueSize`, and WorkerCount(cpus) workers. */
    constructor (processor: Processor.PaymentProcessor, queueSize: nat, cpus: int)
      requires processor.Valid()
      ensures Valid() && fresh(buffer)
      ensures this.processor == processor && buffer.Length == queueSize && Queue == []
      ensures workerCount == WorkerCount(cpus)
    {
      this.processor := processor;
      workerCount := WorkerCount(cpus);
      buffer := new PaymentRequest[queueSize];
      head, count := 0, 0;
      Queue := [];
    }

    /**
      Submit: a non-blocking send. Below capacity the payment joins the
      tail and the answer is true; a full queue answers false and is left
      as it was.
    */
    method Submit(payment: PaymentRequest) returns (accepted: bool)
      requires Valid()
      modifies this, buffer
      ensures Valid()
      ensures accepted <==> |old(Queue)| < buffer.Length
      ensures Queue == if accepted then old(Queue) + [payment] else old(Queue)
    {
      if count == buffer.Length {
        return false;
      }
      var tail := if head + count < buffer.Length then head + count else head + count - buffer.Length;
      buffer[tail] := payment;
      count := count + 1;
      Queue := Queue + [payment];
      accepted := true;
    }

    /** The receive case of a worker's select: the oldest queued payment leaves the queue. */
    method Take() returns (payment: PaymentRequest)
      requires Valid() && Queue != []
      modifies this
      ensures Valid()
      ensures payment == old(Queue)[0] && Queue == old(Queue)[1..]
    {
      payment := buffer[head];
      head := if head + 1 == buffer.Length then 0 else head + 1;
      count := count - 1;
      Queue := Queue[1..];
    }

    /** GetQueueSize: the number of queued payments, which never exceeds the capacity. */
    method GetQueueSize() returns (size: int)
      requires Valid()
      ensures size == |Queue| && size <= buffer.Length
    {
      size := count;
    }

    /**
      processBatch: ProcessPayment once per payment of the batch, in order,
      the i-th meeting the upstream answers answers[i]; an empty batch
      changes nothing.
    */
    method ProcessBatch(batch: seq<PaymentRequest>, answers: seq<Dispatch>)
      requires processor.Valid() && |answers| == |batch|
      modifies processor, processor.defaultStatus, processor.fallbackStatus
      ensures processor.Valid()
      ensures processor.State() == Run(old(processor.State()), answers)
      ensures processor.State().counters.totalPayments == old(processor.State()).counters.totalPayments + |batch|
    {
      ghost var before := processor.State();
      RunKeepsValid(before, answers);
      if |batch| == 0 {
        return;
      }
      var i := 0;
      while i < |batch|
        invariant 0 <= i <= |batch|
        invariant processor.Valid()
        invariant processor.State() == Run(before, answers[..i])
      {
        var _ := processor.ProcessPayment(batch[i], answers[i]);
        assert answers[..i + 1][..i] == answers[..i];
        i := i + 1;
      }
      assert answers[..i] == answers;
    }

    /**
      worker: runs the select loop over a schedule of events until it
      returns. A delivered payment joins the batch, and a batch of ten is
      flushed; a tick flushes a non-empty batch; shutdown flushes what is
      held and returns. The worker starts holding `held`, so a run can be
      resumed with the batch a previous run returned after more payments
      have been submitted. The k-th payment the worker dispatches meets the
      upstream answers answers[k].
    */
    method Worker(events: seq<Event>, answers: seq<Dispatch>, held: seq<PaymentRequest>)
      returns (flushed: seq<seq<PaymentRequest>>, batch: seq<PaymentRequest>, exited: bool)
      requires Valid() && |held| < BatchSize && |answers| >= |held| + |events|
      modifies this, processor, processor.defaultStatus, processor.fallbackStatus
      ensures Valid()
      ensures WorkerState(Queue, batch, flushed, exited) ==
        WorkerRun(WorkerState(old(Queue), held, [], false), events, |events|)
      ensures Flatten(flushed) + batch + Queue == held + old(Queue)
      ensures |batch| < BatchSize && (exited ==> batch == [])
      ensures |Flatten(flushed)| + |batch| <= |held| + |events|
      ensures processor.State() == Run(old(processor.State()), answers[..|Flatten(flushed)|])
    {
      ghost var start := WorkerState(Queue, held, [], false);
      ghost var before := processor.State();
      flushed, batch, exited := [], held, false;
      var done := 0;
      var i := 0;
      ghost var ws := start;
      while i < |events| && !exited
        invariant 0 <= i <= |events|
        invariant Valid()
        invariant ws == WorkerRun(start, events, i)
        invariant ws == WorkerState(Queue, batch, flushed, exited)
        invariant done == |Flatten(flushed)| && done + |batch| <= |held| + i
        invariant processor.State() == Run(before, answers[..done])
        decreases |events| - i
      {
        flushed, batch, exited, done := Select(events[i], flushed, batch, answers, done, before);
        ws := WorkerStep(ws, events[i]);
        i := i + 1;
      }
      if exited {
        ExitIsFinal(start, events, i, |events|);
      }
      assert ws == WorkerRun(start, events, |events|);
      ResumedRunKeepsInvariants(start.queue, held, events);
    }

    /** One pass of the worker's select loop, as WorkerStep describes it. */
    method Select(e: Event, flushed: seq<seq<PaymentRequest>>, batch: seq<PaymentRequest>,
                  answers: seq<Dispatch>, done: nat, ghost before: Router)
      returns (flushed': seq<seq<PaymentRequest>>, batch': seq<PaymentRequest>, exited: bool, done': nat)
      requires Valid()
      requires done == |Flatten(flushed)| && done + |batch| < |answers|
      requires processor.State() == Run(before, answers[..done])
      modifies this, processor, processor.defaultStatus, processor.fallbackStatus
      ensures Valid()
      ensures WorkerState(Queue, batch', flushed', exited) ==
        WorkerStep(WorkerState(old(Queue), batch, flushed, false), e)
      ensures done' == |Flatten(flushed')| && done' + |batch'| <= done + |batch| + 1
      ensures processor.State() == Run(before, answers[..done'])
    {
      match e {
        case Deliver => flushed', batch', exited, done' := OnDeliver(flushed, batch, answers, done, before);
        case Tick => flushed', batch', exited, done' := OnTick(flushed, batch, answers, done, before);
        case Shutdown => flushed', batch', exited, done' := OnShutdown(flushed, batch, answers, done, before);
      }
    }

    /**
      The receive case of the select loop: the head of the queue, if any,
      joins the batch, and a batch that reaches ten is dispatched on the
      answers after the `done` already used.
    */
    method OnDeliver(flushed: seq<seq<PaymentRequest>>, batch: seq<PaymentRequest>,
                     answers: seq<Dispatch>, done: nat, ghost before: Router)
      returns (flushed': seq<seq<PaymentRequest>>, batch': seq<PaymentRequest>, exited: bool, done': nat)
      requires Valid()
      requires done == |Flatten(flushed)| && done + |batch| < |answers|
      requires processor.State() == Run(before, answers[..done])
      modifies this, processor, processor.defaultStatus, processor.fallbackStatus
      ensures Valid()
      ensures WorkerState(Queue, batch', flushed', exited) ==
        WorkerStep(WorkerState(old(Queue), batch, flushed, false), Deliver)
      ensures done' == |Flatten(flushed')| && done' + |batch'| <= done + |batch| + 1
      ensures processor.State() == Run(before, answers[..done'])
    {
      flushed', batch', exited, done' := flushed, batch, false, done;
      if count > 0 {
        var payment := Take();
        batch' := batch + [payment];
        if |batch'| >= BatchSize {
          flushed', done' := Flush(batch', flushed, answers, done, before);
          batch' := [];
        }
      }
    }

    /** The ticker case of the select loop: a non-empty batch is dispatched. */
    method OnTick(flushed: seq<seq<PaymentRequest>>, batch: seq<PaymentRequest>,
                     answers: seq<Dispatch>, done: nat, ghost before: Router)
      returns (flushed': seq<seq<PaymentRequest>>, batch': seq<PaymentRequest>, exited: bool, done': nat)
      requires Valid()
      requires done == |Flatten(flushed)| && done + |batch| < |answers|
      requires processor.State() == Run(before, answers[..done])
      modifies this, processor, processor.defaultStatus, processor.fallbackStatus
      ensures Valid()
      ensures WorkerState(Queue, batch', flushed', exited) ==
        WorkerStep(WorkerState(old(Queue), batch, flushed, false), Tick)
      ensures done' == |Flatten(flushed')| && done' + |batch'| <= done + |batch| + 1
      ensures processor.State() == Run(before, answers[..done'])
    {
      flushed', batch', exited, done' := flushed, batch, false, done;
      if |batch| > 0 {
        flushed', done' := Flush(batch, flushed, answers, done, before);
        batch' := [];
      }
    }

    /**
      The shutdown cases of the select loop (context cancelled, queue
      closed): the held batch is dispatched and the worker returns.
    */
    method OnShutdown(flushed: seq<seq<PaymentRequest>>, batch: seq<PaymentRequest>,
                     answers: seq<Dispatch>, done: nat, ghost before: Router)
      returns (flushed': seq<seq<PaymentRequest>>, batch': seq<PaymentRequest>, exited: bool, done': nat)
      requires Valid()
      requires done == |Flatten(flushed)| && done + |batch| < |answers|
      requires processor.State() == Run(before, answers[..done])
      modifies this, processor, processor.defaultStatus, processor.fallbackStatus
      ensures Valid()
      ensures WorkerState(Queue, batch', flushed', exited) ==
        WorkerStep(WorkerState(old(Queue), batch, flushed, false), Shutdown)
      ensures done' == |Flatten(flushed')| && done' + |batch'| <= done + |batch| + 1
      ensures processor.State() == Run(before, answers[..done'])
    {
      flushed', done' := flushed, done;
      // processBatch of an empty batch returns at once
      if batch != [] {
        flushed', done' := Flush(batch, flushed, answers, done, before);
      }
      batch', exited := [], true;
    }

    /** processBatch on the next |batch| answers, after the first `done` have been used. */
    method Flush(batch: seq<PaymentRequest>, flushed: seq<seq<PaymentRequest>>,
                 answers: seq<Dispatch>, done: nat, ghost before: Router)
      returns (flushed': seq<seq<PaymentRequest>>, done': nat)
      requires processor.Valid() && done + |batch| <= |answers|
      requires done == |Flatten(flushed)|
      requires processor.State() == Run(before, answers[..done])
      modifies processor, processor.defaultStatus, processor.fallbackStatus
      ensures processor.Valid()
      ensures flushed' == flushed + [batch] && done' == done + |batch| && done' == |Flatten(flushed')|
      ensures processor.State() == Run(before, answers[..done'])
    {
      ProcessBatch(batch, answers[done..done + |batch|]);
      RunAppend(before, answers[..done], answers[done..done + |batch|]);
      assert answers[..done] + answers[done..done + |batch|] == answers[..done + |batch|];
      FlattenAppend(flushed, batch);
      flushed', done' := flushed + [batch], done + |batch|;
    }
  }
}
