/** `internal/dispatcher/client.go`: what one HTTP exchange means for a delivery. */
module Delivery {
  import opened Domain
  import opened Retry

  datatype HttpResult = HttpResult(statusCode: int, networkError: bool)

  predicate Succeeded(h: HttpResult) {
    !h.networkError && 200 <= h.statusCode < 300
  }

  function Classify(h: HttpResult, attemptNum: int, maxRetries: int): DeliveryStatus {
    if Succeeded(h) then Success
    else if IsRetryable(h.statusCode, h.networkError) && attemptNum < maxRetries then Retrying
    else Exhausted
  }

  /** The event status that a final attempt writes. */
  function Verdict(d: DeliveryStatus): EventStatus {
    if d == Success then Delivered else DLQ
  }

  function AttemptFor(id: nat, e: EventId, endpoint: string, n: int, h: HttpResult, maxRetries: int): Attempt {
    Attempt(id, e, endpoint, n, h.statusCode, h.networkError, Classify(h, n, maxRetries))
  }
}
