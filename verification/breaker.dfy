/**
  The behaviour of PaymentProcessor (queue/processor.go) as values: the
  health of each upstream processor (the circuit breaker), how the outcome
  of one send is classified, how ProcessPayment routes a payment between
  the default and the fallback processor, the four counters, and the
  health probe. The class in module Processor is specified by these
  functions; the lemmas here state what they promise over whole runs.

  A send's HTTP exchange is an input (Exchange); so is a health ping's
  (PingAnswer). Counters and failure counts are unbounded integers.
*/
module Breaker {

  import opened Options

  /** Consecutive processor-level failures after which a processor is skipped. */
  const FailureThreshold := 3

  /** The IsHealthy flag and the FailureCount of one ProcessorStatus. */
  datatype Health = Health(healthy: bool, failures: int)

  /**
    The breaker invariant that every transition keeps: the count is never
    negative, and a processor is unhealthy exactly when its count has
    reached the threshold.
  */
  predicate Consistent(h: Health) {
    h.failures >= 0 && (h.healthy <==> h.failures < FailureThreshold)
  }

  /** markHealthy: healthy, with no failures counted, whatever the prior state. */
  function MarkedHealthy(h: Health): (r: Health)
    ensures r.healthy && r.failures == 0
  {
    Health(true, 0)
  }

  /**
    markUnhealthy: one more failure; the breaker trips once the new count
    reaches the threshold, and below it the flag is left as it was.
  */
  function MarkedUnhealthy(h: Health): (r: Health)
    ensures r.failures == h.failures + 1
    ensures r.healthy <==> h.healthy && r.failures < FailureThreshold
  {
    var failures := h.failures + 1;
    if failures >= FailureThreshold then Health(false, failures) else h.(failures := failures)
  }

  /** Both transitions keep the breaker invariant, and only markHealthy makes a processor healthy. */
  lemma TransitionsKeepConsistent(h: Health)
    requires Consistent(h)
    ensures Consistent(MarkedHealthy(h)) && Consistent(MarkedUnhealthy(h))
    ensures MarkedUnhealthy(h).healthy ==> h.healthy
  {
  }

  /** The three identities a result can name: "default", "fallback" and "none". */
  datatype ProcessorId = DefaultProcessor | FallbackProcessor | NoProcessor
  {
    function Name(): string {
      match this
      case DefaultProcessor => "default"
      case FallbackProcessor => "fallback"
      case NoProcessor => "none"
    }
  }

  /**
    What one POST to a processor came to: the payload could not be encoded,
    the request could not be built, the client reported an error (timeout,
    connection failure), or a response with a status code arrived.
  */
  datatype Exchange = EncodeFailed | RequestFailed | TransportFailed | Response(status: int)

  /** The error a ProcessorResult carries. */
  datatype Failure =
    | SendError(cause: Exchange)  // the error from encoding, building or sending
    | HttpStatus(code: int)       // "HTTP <code>"
    | AllUnavailable              // "all processors unavailable"

  /** types.ProcessorResult. */
  datatype ProcessorResult = ProcessorResult(success: bool, processorId: ProcessorId, error: Option<Failure>)

  /** How sendToProcessor treats an exchange. */
  datatype Verdict =
    | Accepted        // 2xx: success, breaker reset
    | ProcessorFault  // no response, 429 or 5xx: failure counted against the processor
    | PaymentRejected // any other status: failure, breaker untouched

  function Classify(e: Exchange): (v: Verdict)
    ensures v == Accepted <==> e.Response? && 200 <= e.status < 300
    ensures v == ProcessorFault <==> !e.Response? || e.status == 429 || e.status >= 500
  {
    match e
    case Response(code) =>
      if 200 <= code < 300 then Accepted
      else if code == 429 || code >= 500 then ProcessorFault
      else PaymentRejected
    case _ => ProcessorFault
  }

  /** The processor's health after one send, and the result the send reports. */
  datatype Attempt = Attempt(health: Health, result: ProcessorResult)

  /**
    sendToProcessor: success exactly on 2xx, which resets the breaker;
    a processor-level fault counts a failure; any other status leaves the
    breaker as it was. The result names the processor that was tried.
  */
  function Send(h: Health, id: ProcessorId, e: Exchange): (a: Attempt)
    ensures a.result.success <==> Classify(e) == Accepted
    ensures a.result.processorId == id
    ensures a.result.success <==> a.result.error.None?
    ensures Classify(e) == Accepted ==> a.health == MarkedHealthy(h)
    ensures Classify(e) == ProcessorFault ==> a.health == MarkedUnhealthy(h)
    ensures Classify(e) == PaymentRejected ==> a.health == h
  {
    match e
    case Response(code) =>
      if 200 <= code < 300 then
        Attempt(MarkedHealthy(h), ProcessorResult(true, id, None))
      else
        var health := if code == 429 || code >= 500 then MarkedUnhealthy(h) else h;
        Attempt(health, ProcessorResult(false, id, Some(HttpStatus(code))))
    case _ =>
      Attempt(MarkedUnhealthy(h), ProcessorResult(false, id, Some(SendError(e))))
  }

  /** types.PaymentSummary, which is also how PaymentProcessor keeps its four counters. */
  datatype Summary = Summary(totalPayments: int, defaultSuccess: int, fallbackSuccess: int, totalErrors: int)

  /** Every payment processed ended in exactly one of the three outcomes. */
  predicate Balanced(c: Summary) {
    c.totalPayments == c.defaultSuccess + c.fallbackSuccess + c.totalErrors
  }

  predicate NonNegative(c: Summary) {
    c.defaultSuccess >= 0 && c.fallbackSuccess >= 0 && c.totalErrors >= 0
  }

  /** The state of a PaymentProcessor: both breakers and the counters. */
  datatype Router = Router(defaultHealth: Health, fallbackHealth: Health, counters: Summary)

  predicate Valid(r: Router) {
    Consistent(r.defaultHealth) && Consistent(r.fallbackHealth) &&
    Balanced(r.counters) && NonNegative(r.counters)
  }

  /** NewPaymentProcessor: both processors healthy with no failures, all counters zero. */
  function Fresh(): (r: Router)
    ensures Valid(r)
    ensures r.defaultHealth.healthy && r.defaultHealth.failures == 0
    ensures r.fallbackHealth.healthy && r.fallbackHealth.failures == 0
    ensures r.counters == Summary(0, 0, 0, 0)
  {
    Router(Health(true, 0), Health(true, 0), Summary(0, 0, 0, 0))
  }

  /** What the default and the fallback processor would answer to one payment, were it sent to them. */
  datatype Dispatch = Dispatch(toDefault: Exchange, toFallback: Exchange)

  /**
    One ProcessPayment call: the new state, the result it returns, and
    the processors the payment was sent to, in order.
  */
  datatype Step = Step(router: Router, result: ProcessorResult, sentTo: seq<ProcessorId>)

  /** The default processor takes the payment: it is healthy and answers 2xx. */
  predicate DefaultWins(r: Router, d: Dispatch) {
    r.defaultHealth.healthy && Classify(d.toDefault) == Accepted
  }

  /** ProcessPayment on a router state; its properties are the three lemmas that follow. */
  function Process(r: Router, d: Dispatch): (s: Step)
  {
    var c := r.counters.(totalPayments := r.counters.totalPayments + 1);
    var first := Send(r.defaultHealth, DefaultProcessor, d.toDefault);
    if r.defaultHealth.healthy && first.result.success then
      Step(Router(first.health, r.fallbackHealth, c.(defaultSuccess := c.defaultSuccess + 1)),
           first.result, [DefaultProcessor])
    else
      var defaultHealth := if r.defaultHealth.healthy then first.health else r.defaultHealth;
      var tried := if r.defaultHealth.healthy then [DefaultProcessor] else [];
      var second := Send(r.fallbackHealth, FallbackProcessor, d.toFallback);
      if r.fallbackHealth.healthy && second.result.success then
        Step(Router(defaultHealth, second.health, c.(fallbackSuccess := c.fallbackSuccess + 1)),
             second.result, tried + [FallbackProcessor])
      else
        var fallbackHealth := if r.fallbackHealth.healthy then second.health else r.fallbackHealth;
        Step(Router(defaultHealth, fallbackHealth, c.(totalErrors := c.totalErrors + 1)),
             ProcessorResult(false, NoProcessor, Some(AllUnavailable)),
             tried + if r.fallbackHealth.healthy then [FallbackProcessor] else [])
  }

  /**
    Routing: the default is tried, first, exactly when it is healthy; the
    fallback exactly when it is healthy and the default was skipped or
    failed in any way (a plain 4xx included). The result names the
    processor that succeeded, or is "none" with "all processors
    unavailable", which is always the case when both are unhealthy.
  */
  lemma ProcessRoutes(r: Router, d: Dispatch)
    ensures var s := Process(r, d);
      (DefaultProcessor in s.sentTo <==> r.defaultHealth.healthy) &&
      (FallbackProcessor in s.sentTo <==> r.fallbackHealth.healthy && !DefaultWins(r, d)) &&
      (r.defaultHealth.healthy ==> s.sentTo[0] == DefaultProcessor) &&
      |s.sentTo| <= 2 && NoProcessor !in s.sentTo
    ensures var s := Process(r, d);
      (s.result.success <==> s.result.processorId != NoProcessor) &&
      (s.result.processorId == DefaultProcessor <==> DefaultWins(r, d)) &&
      (s.result.processorId == FallbackProcessor <==>
        r.fallbackHealth.healthy && !DefaultWins(r, d) && Classify(d.toFallback) == Accepted) &&
      (!s.result.success ==> s.result == ProcessorResult(false, NoProcessor, Some(AllUnavailable)))
    ensures !r.defaultHealth.healthy && !r.fallbackHealth.healthy ==>
      Process(r, d).sentTo == [] && !Process(r, d).result.success
  {
  }

  /** Each processor that is sent to goes through sendToProcessor's transition; one that is not keeps its health. */
  lemma ProcessHealth(r: Router, d: Dispatch)
    ensures Process(r, d).router.defaultHealth ==
      if r.defaultHealth.healthy then Send(r.defaultHealth, DefaultProcessor, d.toDefault).health
      else r.defaultHealth
    ensures Process(r, d).router.fallbackHealth ==
      if r.fallbackHealth.healthy && !DefaultWins(r, d) then
        Send(r.fallbackHealth, FallbackProcessor, d.toFallback).health
      else r.fallbackHealth
  {
  }

  /** `totalPayments` and exactly one of the three outcome counters go up by one. */
  lemma ProcessCounts(r: Router, d: Dispatch)
    ensures var s := Process(r, d); var c := s.router.counters;
      c.totalPayments == r.counters.totalPayments + 1 &&
      c.defaultSuccess == r.counters.defaultSuccess + (if s.result.processorId == DefaultProcessor then 1 else 0) &&
      c.fallbackSuccess == r.counters.fallbackSuccess + (if s.result.processorId == FallbackProcessor then 1 else 0) &&
      c.totalErrors == r.counters.totalErrors + (if s.result.success then 0 else 1)
  {
  }

  /** One ProcessPayment call keeps the breaker invariants and the counter balance. */
  lemma ProcessKeepsValid(r: Router, d: Dispatch)
    requires Valid(r)
    ensures Valid(Process(r, d).router)
  {
  }

  /** A sequential run of ProcessPayment calls, the i-th payment meeting the answers ds[i]. */
  function Run(r: Router, ds: seq<Dispatch>): Router
    decreases |ds|
  {
    if ds == [] then r else Process(Run(r, ds[..|ds| - 1]), ds[|ds| - 1]).router
  }

  /** A run over `a` then `b` is the run over `a + b`. */
  lemma {:induction false} RunAppend(r: Router, a: seq<Dispatch>, b: seq<Dispatch>)
    ensures Run(Run(r, a), b) == Run(r, a + b)
    decreases |b|
  {
    if b == [] {
      assert a + b == a;
    } else {
      var b' := b[..|b| - 1];
      RunAppend(r, a, b');
      assert (a + b)[..|a + b| - 1] == a + b';
      assert (a + b)[|a + b| - 1] == b[|b| - 1];
    }
  }

  /**
    Over a sequential run `totalPayments` grows by one per payment, the
    breaker invariants hold throughout, and total == defaultSuccess +
    fallbackSuccess + totalErrors stays true.
  */
  lemma {:induction false} RunKeepsValid(r: Router, ds: seq<Dispatch>)
    requires Valid(r)
    ensures Valid(Run(r, ds))
    ensures Run(r, ds).counters.totalPayments == r.counters.totalPayments + |ds|
    decreases |ds|
  {
    if ds != [] {
      RunKeepsValid(r, ds[..|ds| - 1]);
      ProcessKeepsValid(Run(r, ds[..|ds| - 1]), ds[|ds| - 1]);
    }
  }

  /**
    When the default processor is healthy and answers 2xx to every payment,
    every payment is a default success and nothing else is counted.
  */
  lemma {:induction false} AllDefaultSuccesses(r: Router, ds: seq<Dispatch>)
    requires r.defaultHealth.healthy
    requires forall i :: 0 <= i < |ds| ==> Classify(ds[i].toDefault) == Accepted
    ensures Run(r, ds).defaultHealth == (if ds == [] then r.defaultHealth else Health(true, 0))
    ensures Run(r, ds).fallbackHealth == r.fallbackHealth
    ensures Run(r, ds).counters == r.counters.(
      totalPayments := r.counters.totalPayments + |ds|,
      defaultSuccess := r.counters.defaultSuccess + |ds|)
    decreases |ds|
  {
    if ds != [] {
      AllDefaultSuccesses(r, ds[..|ds| - 1]);
    }
  }

  /** How many payments of a run were sent to the default processor. */
  function DefaultAttempts(r: Router, ds: seq<Dispatch>): nat
    decreases |ds|
  {
    if ds == [] then 0
    else
      var before := Run(r, ds[..|ds| - 1]);
      DefaultAttempts(r, ds[..|ds| - 1]) + if before.defaultHealth.healthy then 1 else 0
  }

  /**
    When the default processor fails at the processor level on every
    payment and the fallback answers 2xx, every payment is a fallback
    success; the failures of the default add up one per attempt, so once
    the breaker trips the default is no longer tried, and the default sees
    at most FailureThreshold attempts over the whole run.
  */
  lemma {:induction false} DefaultDownFallbackUp(r: Router, ds: seq<Dispatch>)
    requires Valid(r) && r.fallbackHealth.healthy
    requires forall i :: 0 <= i < |ds| ==>
      Classify(ds[i].toDefault) == ProcessorFault && Classify(ds[i].toFallback) == Accepted
    ensures Run(r, ds).defaultHealth.failures == r.defaultHealth.failures + DefaultAttempts(r, ds)
    ensures Run(r, ds).fallbackHealth.healthy
    ensures Run(r, ds).counters == r.counters.(
      totalPayments := r.counters.totalPayments + |ds|,
      fallbackSuccess := r.counters.fallbackSuccess + |ds|)
    ensures r.defaultHealth.failures + DefaultAttempts(r, ds) <=
      if r.defaultHealth.healthy then FailureThreshold else r.defaultHealth.failures
    decreases |ds|
  {
    if ds != [] {
      var prefix := ds[..|ds| - 1];
      DefaultDownFallbackUp(r, prefix);
      RunKeepsValid(r, prefix);
    }
  }

  /**
    Processor-level faults of the default processor count one failure per
    payment while it is healthy, and none once its breaker has tripped.
  */
  lemma {:induction false} DefaultFaultsCount(r: Router, ds: seq<Dispatch>)
    requires Valid(r)
    requires forall i :: 0 <= i < |ds| ==> Classify(ds[i].toDefault) == ProcessorFault
    ensures Run(r, ds).defaultHealth.failures == r.defaultHealth.failures +
      if !r.defaultHealth.healthy then 0
      else if |ds| < FailureThreshold - r.defaultHealth.failures then |ds|
      else FailureThreshold - r.defaultHealth.failures
    decreases |ds|
  {
    if ds != [] {
      var prefix := ds[..|ds| - 1];
      DefaultFaultsCount(r, prefix);
      RunKeepsValid(r, prefix);
    }
  }

  /**
    Once the default processor has been reset (a fresh processor, or one
    just marked healthy), three payments that it answers with a
    processor-level failure trip its breaker, and the next payment is not
    sent to the default at all.
  */
  lemma ThirdFaultTripsDefault(r: Router, ds: seq<Dispatch>, next: Dispatch)
    requires Valid(r) && r.defaultHealth == Health(true, 0)
    requires |ds| >= FailureThreshold
    requires forall i :: 0 <= i < |ds| ==> Classify(ds[i].toDefault) == ProcessorFault
    ensures !Run(r, ds).defaultHealth.healthy
    ensures DefaultProcessor !in Process(Run(r, ds), next).sentTo
  {
    DefaultFaultsCount(r, ds);
    RunKeepsValid(r, ds);
  }

  /** What a health ping came to: an error, or a response with a status code. */
  datatype PingAnswer = PingFailed | PingStatus(code: int)

  /** pingProcessor: alive only on a response of exactly 200. */
  function PingSucceeded(a: PingAnswer): (ok: bool)
    ensures ok <==> a == PingStatus(200)
  {
    match a
    case PingFailed => false
    case PingStatus(code) => code == 200
  }

  /** The health check of one processor: only an unhealthy one is pinged, and a successful ping closes it. */
  function Probed(h: Health, a: PingAnswer): (r: Health)
    ensures h.healthy ==> r == h
    ensures !h.healthy ==> r == if PingSucceeded(a) then MarkedHealthy(h) else h
  {
    if !h.healthy && PingSucceeded(a) then MarkedHealthy(h) else h
  }

  /** checkProcessorHealth: probes both processors; counters are untouched. */
  function Probe(r: Router, toDefault: PingAnswer, toFallback: PingAnswer): (r': Router)
    ensures r'.defaultHealth == Probed(r.defaultHealth, toDefault)
    ensures r'.fallbackHealth == Probed(r.fallbackHealth, toFallback)
    ensures r'.counters == r.counters
  {
    Router(Probed(r.defaultHealth, toDefault), Probed(r.fallbackHealth, toFallback), r.counters)
  }

  /** A probe keeps the breaker invariants. */
  lemma ProbeKeepsValid(r: Router, toDefault: PingAnswer, toFallback: PingAnswer)
    requires Valid(r)
    ensures Valid(Probe(r, toDefault, toFallback))
  {
  }

  /**
    A probe that finds the tripped default processor answering 200 closes
    its breaker: the next payment is sent to the default first again.
  */
  lemma ProbeRestoresDefault(r: Router, toFallback: PingAnswer, next: Dispatch)
    requires !r.defaultHealth.healthy
    ensures Process(Probe(r, PingStatus(200), toFallback), next).sentTo[0] == DefaultProcessor
  {
  }
}
