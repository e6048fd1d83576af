/** Entities shared by every component of the delivery pipeline. Timestamps are left out of
    the records: no decision modelled here reads them. */
module Domain {
  type EventId = string

  newtype Byte = x: int | 0 <= x < 256

  datatype Option<+T> = None | Some(value: T)

  datatype Error = Cancelled | NotFound | DuplicateKey | InvalidParameters | EmptyStream | EmptyGroup

  datatype Outcome<+T> = Ok(value: T) | Err(error: Error)

  datatype EventStatus = Pending | Delivered | Failed | DLQ

  datatype OutboxStatus = OutboxPending | OutboxPublished | OutboxFailed

  datatype DeliveryStatus = Success | Retrying | Exhausted

  datatype Event = Event(
    id: EventId, tenantId: string, eventType: string, idempotencyKey: string,
    payload: seq<Byte>, status: EventStatus)

  datatype OutboxRecord = OutboxRecord(id: nat, eventId: EventId, status: OutboxStatus)

  /** `urlParses` says whether an HTTP request can be built for the URL. */
  datatype Endpoint = Endpoint(id: string, tenantId: string, url: string, secret: string, isActive: bool, urlParses: bool)

  datatype Attempt = Attempt(
    id: nat, eventId: EventId, endpointId: string, number: int,
    responseStatus: int, networkError: bool, status: DeliveryStatus)

  /** A request context: cancellation is permanent and may arrive between any two checks. */
  class Context {
    var cancelled: bool

    constructor ()
      ensures !cancelled
    {
      cancelled := false;
    }

    /** `ctx.Err() != nil`: any check may be the first one to see the cancellation. */
    method Err() returns (e: bool)
      modifies this
      ensures old(cancelled) ==> cancelled
      ensures e == cancelled
    {
      if * {
        cancelled := true;
      }
      e := cancelled;
    }
  }

  /** `time.Now()` in nanoseconds: time passes between any two readings. */
  class Clock {
    var time: int

    constructor (now: int)
      ensures time == now
    {
      time := now;
    }

    method Now() returns (now: int)
      modifies this
      ensures old(time) < now == time
    {
      var later: int := *;
      time := if later > time then later else time + 1;
      return time;
    }

    /** A timer fires at its deadline or later. */
    method Await(deadline: int)
      modifies this
      ensures deadline <= time && old(time) < time
    {
      var now := Now();
      if time < deadline {
        time := deadline;
      }
    }
  }

  /** `uuid.New()`: every identifier is handed out at most once. */
  class UuidSource {
    var next: nat

    constructor ()
      ensures next == 0
    {
      next := 0;
    }

    method New() returns (id: nat)
      modifies this
      ensures id == old(next) && next == old(next) + 1
    {
      id := next;
      next := next + 1;
    }
  }
}
