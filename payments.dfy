/**
  PaymentService: the payment-status polling loop and the status classification of
  processPayment. Remote calls are given as oracles: the answer of each status check
  and the time it takes. The clock is logical: it starts at 0, a status check advances
  it by that check's duration and a sleep advances it by the polling interval.
*/
module Payments {
  import opened Wrappers
  import LockKeys

  /** ASCII case folding, as equalsIgnoreCase does for the statuses used here. */
  function Upper(c: char): char {
    if 'a' <= c <= 'z' then (c as int - 32) as char else c
  }

  predicate EqualsIgnoreCase(a: string, b: string) {
    |a| == |b| && forall i :: 0 <= i < |a| ==> Upper(a[i]) == Upper(b[i])
  }

  /** The fields of the payment service's response that the core reads. */
  datatype PaymentResponse = PaymentResponse(paymentStatus: string, transactionId: Option<string>, message: Option<string>)

  predicate IsCompleted(status: string) {
    EqualsIgnoreCase("COMPLETED", status)
  }

  predicate IsTerminal(status: string) {
    IsCompleted(status) || EqualsIgnoreCase("FAILED", status)
  }

  /** booking.payment.polling.*; the interval is a non-negative sleep. */
  datatype PollingConfig = PollingConfig(maxAttempts: int, intervalMs: nat, timeoutMs: int)

  /** One call of verifyCheckoutSession: an answer, or an exception (a transport error or an empty body). */
  datatype StatusCall = Answered(response: PaymentResponse) | CallFailed

  /** What the k-th status check returns and how long it takes. */
  datatype PollStep = PollStep(call: StatusCall, durationMs: nat)

  datatype PollError = Timeout | FailedAfter(attempts: nat) | MaxAttemptsReached {
    function Message(): string {
      match this
      case Timeout => "Payment verification timeout exceeded"
      case FailedAfter(n) => "Payment verification failed after " + LockKeys.Decimal(n) + " attempts"
      case MaxAttemptsReached => "Payment verification timeout: max polling attempts reached"
    }
  }

  /** Outcome of a poll, with the number of status checks made and the time spent. */
  datatype PollRun = PollRun(result: Result<PaymentResponse, PollError>, calls: nat, elapsedMs: int)

  /** The poll from the point where `attempts` checks have been made and `elapsed` ms have passed. */
  function PollFrom(cfg: PollingConfig, steps: seq<PollStep>, attempts: nat, elapsed: int): PollRun
    requires cfg.maxAttempts <= |steps|
    decreases cfg.maxAttempts - attempts
  {
    if attempts >= cfg.maxAttempts then
      PollRun(Failure(MaxAttemptsReached), attempts, elapsed)
    else if elapsed > cfg.timeoutMs then
      PollRun(Failure(Timeout), attempts, elapsed)
    else
      var made := attempts + 1;
      var now := elapsed + steps[attempts].durationMs;
      match steps[attempts].call
      case Answered(r) =>
        if IsTerminal(r.paymentStatus) then PollRun(Success(r), made, now)
        else PollFrom(cfg, steps, made, now + cfg.intervalMs)
      case CallFailed =>
        if made >= cfg.maxAttempts then PollRun(Failure(FailedAfter(made)), made, now)
        else PollFrom(cfg, steps, made, now + cfg.intervalMs)
  }

  function Poll(cfg: PollingConfig, steps: seq<PollStep>): PollRun
    requires cfg.maxAttempts <= |steps|
  {
    PollFrom(cfg, steps, 0, 0)
  }

  /** pollPaymentStatus. */
  method PollPaymentStatus(cfg: PollingConfig, steps: seq<PollStep>)
    returns (r: Result<PaymentResponse, PollError>, calls: nat, elapsedMs: int)
    requires cfg.maxAttempts <= |steps|
    ensures PollRun(r, calls, elapsedMs) == Poll(cfg, steps)
  {
    var attempts := 0;
    var now := 0;
    while attempts < cfg.maxAttempts
      invariant 0 <= attempts <= |steps|
      invariant PollFrom(cfg, steps, attempts, now) == Poll(cfg, steps)
      decreases cfg.maxAttempts - attempts
    {
      attempts := attempts + 1;
      if now > cfg.timeoutMs {
        return Failure(Timeout), attempts - 1, now;
      }
      var step := steps[attempts - 1];
      now := now + step.durationMs;
      match step.call {
        case Answered(response) =>
          if IsCompleted(response.paymentStatus) {
            return Success(response), attempts, now;
          }
          if EqualsIgnoreCase("FAILED", response.paymentStatus) {
            return Success(response), attempts, now;
          }
          now := now + cfg.intervalMs;
        case CallFailed =>
          if attempts >= cfg.maxAttempts {
            return Failure(FailedAfter(attempts)), attempts, now;
          }
          now := now + cfg.intervalMs;
      }
    }
    return Failure(MaxAttemptsReached), attempts, now;
  }

  /** The poll makes at most maxAttempts status checks, and none at all when maxAttempts <= 0. */
  lemma {:induction false} PollCallsBounded(cfg: PollingConfig, steps: seq<PollStep>, attempts: nat, elapsed: int)
    requires cfg.maxAttempts <= |steps|
    ensures var run := PollFrom(cfg, steps, attempts, elapsed);
      attempts <= run.calls && (attempts <= cfg.maxAttempts ==> run.calls <= cfg.maxAttempts)
    decreases cfg.maxAttempts - attempts
  {
    if attempts < cfg.maxAttempts && elapsed <= cfg.timeoutMs {
      var now := elapsed + steps[attempts].durationMs;
      PollCallsBounded(cfg, steps, attempts + 1, now + cfg.intervalMs);
    }
  }

  /** The only responses the poll returns carry a terminal status (COMPLETED or FAILED, ignoring case). */
  lemma {:induction false} PollReturnsTerminal(cfg: PollingConfig, steps: seq<PollStep>, attempts: nat, elapsed: int)
    requires cfg.maxAttempts <= |steps|
    ensures var run := PollFrom(cfg, steps, attempts, elapsed);
      run.result.Success? ==> IsTerminal(run.result.value.paymentStatus)
    decreases cfg.maxAttempts - attempts
  {
    if attempts < cfg.maxAttempts && elapsed <= cfg.timeoutMs {
      var now := elapsed + steps[attempts].durationMs;
      PollReturnsTerminal(cfg, steps, attempts + 1, now + cfg.intervalMs);
    }
  }

  /**
    A failed status check ends the poll only on the last attempt: "failed after N attempts"
    is raised with N = maxAttempts, by a check that failed.
  */
  lemma {:induction false} PollCallErrorOnlyLast(cfg: PollingConfig, steps: seq<PollStep>, attempts: nat, elapsed: int)
    requires cfg.maxAttempts <= |steps|
    ensures var run := PollFrom(cfg, steps, attempts, elapsed);
      run.result.Failure? && run.result.error.FailedAfter? ==>
        run.result.error.attempts == cfg.maxAttempts == run.calls
        && steps[cfg.maxAttempts - 1].call.CallFailed?
    decreases cfg.maxAttempts - attempts
  {
    if attempts < cfg.maxAttempts && elapsed <= cfg.timeoutMs {
      var now := elapsed + steps[attempts].durationMs;
      PollCallErrorOnlyLast(cfg, steps, attempts + 1, now + cfg.intervalMs);
    }
  }

  /** When every check answers a non-terminal status, the poll ends by timeout or by "max polling attempts reached". */
  lemma {:induction false} PollNonTerminalExhausts(cfg: PollingConfig, steps: seq<PollStep>, attempts: nat, elapsed: int)
    requires cfg.maxAttempts <= |steps|
    requires forall k :: 0 <= k < cfg.maxAttempts ==>
      steps[k].call.Answered? && !IsTerminal(steps[k].call.response.paymentStatus)
    ensures var run := PollFrom(cfg, steps, attempts, elapsed);
      run.result == Failure(MaxAttemptsReached) || run.result == Failure(Timeout)
    decreases cfg.maxAttempts - attempts
  {
    if attempts < cfg.maxAttempts && elapsed <= cfg.timeoutMs {
      var now := elapsed + steps[attempts].durationMs;
      PollNonTerminalExhausts(cfg, steps, attempts + 1, now + cfg.intervalMs);
    }
  }

  /**
    The poll never runs past the timeout by more than one status check and one interval,
    whatever maxAttempts is: every check starts at or before timeoutMs.
  */
  lemma {:induction false} PollTimeBounded(cfg: PollingConfig, steps: seq<PollStep>, attempts: nat, elapsed: int, longest: nat)
    requires cfg.maxAttempts <= |steps|
    requires forall k :: 0 <= k < |steps| ==> steps[k].durationMs <= longest
    requires elapsed <= (if cfg.timeoutMs < 0 then 0 else cfg.timeoutMs) + longest + cfg.intervalMs
    ensures PollFrom(cfg, steps, attempts, elapsed).elapsedMs
      <= (if cfg.timeoutMs < 0 then 0 else cfg.timeoutMs) + longest + cfg.intervalMs
    decreases cfg.maxAttempts - attempts
  {
    if attempts < cfg.maxAttempts && elapsed <= cfg.timeoutMs {
      var now := elapsed + steps[attempts].durationMs;
      PollTimeBounded(cfg, steps, attempts + 1, now + cfg.intervalMs, longest);
    }
  }

  /** With maxAttempts <= 0 the poll makes no call and fails with "max polling attempts reached". */
  lemma NoAttemptsConfigured(cfg: PollingConfig, steps: seq<PollStep>)
    requires cfg.maxAttempts <= 0
    ensures Poll(cfg, steps) == PollRun(Failure(MaxAttemptsReached), 0, 0)
  {
  }

  /** A timeout already passed before an attempt fails the poll without calling the payment service. */
  lemma TimeoutBeforeCall(cfg: PollingConfig, steps: seq<PollStep>, attempts: nat, elapsed: int)
    requires cfg.maxAttempts <= |steps|
    requires attempts < cfg.maxAttempts && elapsed > cfg.timeoutMs
    ensures PollFrom(cfg, steps, attempts, elapsed) == PollRun(Failure(Timeout), attempts, elapsed)
  {
  }

  /** How the call of processPayment ended before its status check. */
  datatype ProcessCall =
    | ClientError(statusText: string)   // HTTP 4xx
    | ServerError                       // HTTP 5xx
    | CallError(message: string)        // any other exception
    | Body(response: Option<PaymentResponse>)

  /** PaymentFailedException(message, paymentStatus, transactionId). */
  datatype PaymentFailure = PaymentFailure(message: string, paymentStatus: string, transactionId: Option<string>)

  /** processPayment: returns the response only for a SUCCESS status (ignoring case); every other outcome fails. */
  function ProcessPayment(call: ProcessCall): (r: Result<PaymentResponse, PaymentFailure>)
    ensures r.Success? <==> call.Body? && call.response.Some? && EqualsIgnoreCase("SUCCESS", call.response.value.paymentStatus)
    ensures r.Success? ==> r.value == call.response.value
    ensures call == Body(None) ==> r.Failure? && r.error.paymentStatus == "FAILED"
    ensures call.Body? && call.response.Some? && r.Failure? ==>
      r.error == PaymentFailure(call.response.value.message.GetOr("Payment failed"),
                                call.response.value.paymentStatus, call.response.value.transactionId)
  {
    match call
    case ClientError(text) => Failure(PaymentFailure("Payment failed due to client error: " + text, "FAILED", None))
    case ServerError => Failure(PaymentFailure("Payment service unavailable. Please try again later.", "FAILED", None))
    case CallError(m) => Failure(PaymentFailure("Failed to process payment due to system error: " + m, "FAILED", None))
    case Body(None) => Failure(PaymentFailure("Payment service returned invalid response", "FAILED", None))
    case Body(Some(resp)) =>
      if EqualsIgnoreCase("SUCCESS", resp.paymentStatus) then Success(resp)
      else Failure(PaymentFailure(resp.message.GetOr("Payment failed"), resp.paymentStatus, resp.transactionId))
  }
}
