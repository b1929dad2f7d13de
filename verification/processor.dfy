/**
  PaymentProcessor and ProcessorStatus (queue/processor.go) as objects
  whose fields the methods update in place. Every method is specified by
  the functions of module Breaker: the new state is a function of the old
  state and of what the upstream processors answered.
*/
module Processor {

  import opened Options
  import opened Payments
  import opened Breaker

  /** The mutable health record of one upstream processor. */
  class ProcessorStatus {
    var isHealthy: bool
    var failureCount: int

    /** A status as NewPaymentProcessor creates it: healthy, no failures. */
    constructor ()
      ensures isHealthy && failureCount == 0
    {
      isHealthy := true;
      failureCount := 0;
    }

    function Snapshot(): Health
      reads this
    {
      Health(isHealthy, failureCount)
    }
  }

  class PaymentProcessor {
    const defaultURL: string
    const fallbackURL: string
    const defaultStatus: ProcessorStatus
    const fallbackStatus: ProcessorStatus

    var totalPayments: int
    var defaultSuccess: int
    var fallbackSuccess: int
    var totalErrors: int

    function State(): Router
      reads this, defaultStatus, fallbackStatus
    {
      Router(defaultStatus.Snapshot(), fallbackStatus.Snapshot(),
             Summary(totalPayments, defaultSuccess, fallbackSuccess, totalErrors))
    }

    /** Two distinct status records, both breakers consistent, counters balanced. */
    ghost predicate Valid()
      reads this, defaultStatus, fallbackStatus
    {
      defaultStatus != fallbackStatus && Breaker.Valid(State())
    }

    /** NewPaymentProcessor: both processors healthy with no failures, all four counters zero. */
    constructor (defaultURL: string, fallbackURL: string)
      ensures this.defaultURL == defaultURL && this.fallbackURL == fallbackURL
      ensures fresh(defaultStatus) && fresh(fallbackStatus)
      ensures Valid() && State() == Fresh()
    {
      this.defaultURL := defaultURL;
      this.fallbackURL := fallbackURL;
      defaultStatus := new ProcessorStatus();
      fallbackStatus := new ProcessorStatus();
      totalPayments, defaultSuccess, fallbackSuccess, totalErrors := 0, 0, 0, 0;
    }

    /** markHealthy: the status is healthy with a failure count of 0, whatever it was. */
    method MarkHealthy(status: ProcessorStatus)
      modifies status
      ensures status.isHealthy && status.failureCount == 0
      ensures status.Snapshot() == MarkedHealthy(old(status.Snapshot()))
    {
      status.isHealthy := true;
      status.failureCount := 0;
    }

    /**
      markUnhealthy: the failure count goes up by exactly one; the status
      becomes unhealthy when the new count reaches 3 and keeps its flag below.
    */
    method MarkUnhealthy(status: ProcessorStatus)
      modifies status
      ensures status.failureCount == old(status.failureCount) + 1
      ensures status.failureCount >= FailureThreshold ==> !status.isHealthy
      ensures status.failureCount < FailureThreshold ==> status.isHealthy == old(status.isHealthy)
      ensures status.Snapshot() == MarkedUnhealthy(old(status.Snapshot()))
    {
      status.failureCount := status.failureCount + 1;
      var failures := status.failureCount;
      if failures >= FailureThreshold {
        status.isHealthy := false;
      }
    }

    /**
      sendToProcessor: one attempt against one processor, whose answer is
      `exchange`. Success exactly on 2xx, which marks the processor healthy;
      an encode, request or transport error, 429 or 5xx marks it unhealthy;
      any other status leaves its status alone.
    */
    method SendToProcessor(id: ProcessorId, status: ProcessorStatus, payment: PaymentRequest, exchange: Exchange)
      returns (result: ProcessorResult)
      modifies status
      ensures status.Snapshot() == Send(old(status.Snapshot()), id, exchange).health
      ensures result == Send(old(status.Snapshot()), id, exchange).result
    {
      if !exchange.Response? {
        // the payload could not be encoded, the request not built, or the client failed
        MarkUnhealthy(status);
        return ProcessorResult(false, id, Some(SendError(exchange)));
      }
      var code := exchange.status;
      if 200 <= code < 300 {
        MarkHealthy(status);
        return ProcessorResult(true, id, None);
      }
      if code == 429 || code >= 500 {
        MarkUnhealthy(status);
      }
      return ProcessorResult(false, id, Some(HttpStatus(code)));
    }

    /**
      ProcessPayment: routes one payment, default first and then fallback,
      skipping an unhealthy processor; `answers` says what each processor
      answers if the payment is sent to it. The new state and the result are
      those of Breaker.Process, so the breaker invariants and the counter
      balance survive the call.
    */
    method ProcessPayment(payment: PaymentRequest, answers: Dispatch) returns (result: ProcessorResult)
      requires Valid()
      modifies this, defaultStatus, fallbackStatus
      ensures Valid()
      ensures State() == Process(old(State()), answers).router
      ensures result == Process(old(State()), answers).result
    {
      ghost var before := State();
      totalPayments := totalPayments + 1;
      if defaultStatus.isHealthy {
        result := SendToProcessor(DefaultProcessor, defaultStatus, payment, answers.toDefault);
        if result.success {
          defaultSuccess := defaultSuccess + 1;
          ProcessKeepsValid(before, answers);
          return;
        }
      }
      if fallbackStatus.isHealthy {
        result := SendToProcessor(FallbackProcessor, fallbackStatus, payment, answers.toFallback);
        if result.success {
          fallbackSuccess := fallbackSuccess + 1;
          ProcessKeepsValid(before, answers);
          return;
        }
      }
      totalErrors := totalErrors + 1;
      result := ProcessorResult(false, NoProcessor, Some(AllUnavailable));
      ProcessKeepsValid(before, answers);
    }

    /** GetSummary: the four counters as they are, which always add up; nothing changes. */
    method GetSummary() returns (summary: Summary)
      requires Valid()
      ensures summary == State().counters
      ensures summary.totalPayments == summary.defaultSuccess + summary.fallbackSuccess + summary.totalErrors
    {
      summary := Summary(totalPayments, defaultSuccess, fallbackSuccess, totalErrors);
    }

    /**
      checkProcessorHealth: each processor whose flag is down is pinged and,
      if the ping answers exactly 200, marked healthy; a healthy processor,
      or one whose ping fails, is left as it was.
    */
    method CheckProcessorHealth(defaultPing: PingAnswer, fallbackPing: PingAnswer)
      requires Valid()
      modifies defaultStatus, fallbackStatus
      ensures Valid()
      ensures State() == Probe(old(State()), defaultPing, fallbackPing)
    {
      if !defaultStatus.isHealthy {
        if PingSucceeded(defaultPing) {
          MarkHealthy(defaultStatus);
        }
      }
      if !fallbackStatus.isHealthy {
        if PingSucceeded(fallbackPing) {
          MarkHealthy(fallbackStatus);
        }
      }
    }
  }
}
