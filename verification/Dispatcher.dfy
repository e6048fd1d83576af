/** `internal/dispatcher/client.go` and the retry loop of `internal/worker/pool.go`: delivering
    one event to one endpoint, and to all of a tenant's endpoints. */
module Dispatchers {
  import opened Domain
  import opened Storage
  import opened Retry
  import opened Delivery
  import opened MemoryRepositories
  import opened Text
  import opened Signatures

  // ---------------------------------------------------------------------------------------
  // What a sequence of attempts does to the repository
  // ---------------------------------------------------------------------------------------

  /** The attempt is recorded; a final one also sets the event's status. */
  function AfterAttempt(r: Repo, a: Attempt): Repo {
    var (r1, res) := RecordDeliveryAttempt(r, a);
    if res.Err? || a.status == Retrying then r1 else UpdateEventStatus(r1, a.eventId, Verdict(a.status)).0
  }

  function AfterAttempts(r: Repo, trace: seq<Attempt>): Repo {
    if trace == [] then r
    else AfterAttempt(AfterAttempts(r, trace[..|trace| - 1]), trace[|trace| - 1])
  }

  /** Attempt IDs come from one ascending source. */
  ghost predicate AscendingFrom(trace: seq<Attempt>, lo: nat, hi: nat) {
    && lo <= hi
    && (forall i | 0 <= i < |trace| :: lo <= trace[i].id < hi)
    && (forall i, j | 0 <= i < j < |trace| :: trace[i].id < trace[j].id)
  }

  ghost predicate IdsBelow(r: Repo, next: nat) {
    forall i <- r.attempts :: i < next
  }

  /** The status that the last final attempt writes, if there is one. */
  function LastVerdict(trace: seq<Attempt>): Option<EventStatus> {
    if trace == [] then None
    else
      var a := trace[|trace| - 1];
      if a.status != Retrying then Some(Verdict(a.status)) else LastVerdict(trace[..|trace| - 1])
  }

  function Concluded(events: map<EventId, Event>, e: EventId, verdict: Option<EventStatus>): map<EventId, Event> {
    if verdict.None? || e !in events then events else events[e := events[e].(status := verdict.value)]
  }

  /** Exactly the attempts of `trace` were added. */
  ghost predicate Added(before: map<nat, Attempt>, after: map<nat, Attempt>, trace: seq<Attempt>) {
    && (forall i <- before :: i in after && after[i] == before[i])
    && (forall a <- trace :: a.id in after && after[a.id] == a)
    && (forall i <- after :: i in before || after[i] in trace)
  }

  lemma OneMoreAdded(before: map<nat, Attempt>, after: map<nat, Attempt>, trace: seq<Attempt>, a: Attempt)
    requires Added(before, after, trace) && a.id !in after
    ensures Added(before, after[a.id := a], trace + [a])
  {
  }

  /** Every attempt is on record, the last final one decides the event's status, and nothing
      else has changed. */
  ghost predicate RecordedAll(r: Repo, r': Repo, trace: seq<Attempt>, e: EventId) {
    && r' == r.(events := Concluded(r.events, e, LastVerdict(trace)), attempts := r'.attempts)
    && Added(r.attempts, r'.attempts, trace)
  }

  function NextId(trace: seq<Attempt>, lo: nat): nat {
    if trace == [] then lo else trace[|trace| - 1].id + 1
  }

  lemma {:induction false} AttemptsAreRecorded(r: Repo, trace: seq<Attempt>, lo: nat, hi: nat, e: EventId)
    requires IdsBelow(r, lo) && AscendingFrom(trace, lo, hi) && forall a <- trace :: a.eventId == e
    ensures RecordedAll(r, AfterAttempts(r, trace), trace, e) && IdsBelow(AfterAttempts(r, trace), NextId(trace, lo))
  {
    if trace == [] {
      assert Concluded(r.events, e, None) == r.events;
    } else {
      var n := |trace| - 1;
      assert trace == trace[..n] + [trace[n]] && trace[n].eventId == e && NextId(trace[..n], lo) <= trace[n].id;
      AttemptsAreRecorded(r, trace[..n], lo, hi, e);
      hide RecordedAll, IdsBelow, AscendingFrom, AfterAttempt;
      OneMoreRecorded(r, AfterAttempts(r, trace[..n]), trace[..n], trace[n], e, NextId(trace[..n], lo));
    }
  }

  lemma OneMoreRecorded(r: Repo, r1: Repo, trace: seq<Attempt>, a: Attempt, e: EventId, next: nat)
    requires RecordedAll(r, r1, trace, e) && IdsBelow(r1, next) && next <= a.id && a.eventId == e
    ensures RecordedAll(r, AfterAttempt(r1, a), trace + [a], e) && IdsBelow(AfterAttempt(r1, a), a.id + 1)
  {
    hide AfterAttempt, Concluded, Added, IdsBelow;
    IdsBelowLater(r1, next, a.id);
    AttemptIsRecorded(r, r1, a, e, LastVerdict(trace));
    OneMoreAdded(r.attempts, r1.attempts, trace, a);
    IdsBelowMore(r1, AfterAttempt(r1, a), a);
    assert (trace + [a])[..|trace|] == trace;
  }

  lemma IdsBelowLater(r: Repo, lo: nat, hi: nat)
    requires IdsBelow(r, lo) && lo <= hi
    ensures IdsBelow(r, hi)
  {
  }

  lemma IdsBelowMore(r: Repo, r': Repo, a: Attempt)
    requires IdsBelow(r, a.id) && r'.attempts == r.attempts[a.id := a]
    ensures IdsBelow(r', a.id + 1)
  {
  }

  lemma AttemptIsRecorded(r: Repo, r1: Repo, a: Attempt, e: EventId, verdict: Option<EventStatus>)
    requires IdsBelow(r1, a.id) && a.eventId == e
    requires r1 == r.(events := Concluded(r.events, e, verdict), attempts := r1.attempts)
    ensures var r' := AfterAttempt(r1, a);
            && r' == r.(events := Concluded(r.events, e, if a.status != Retrying then Some(Verdict(a.status)) else verdict), attempts := r'.attempts)
            && a.id !in r1.attempts && r'.attempts == r1.attempts[a.id := a]
  {
    assert Concluded(Concluded(r.events, e, verdict), e, Some(Verdict(a.status))) == Concluded(r.events, e, Some(Verdict(a.status)));
  }

  lemma {:induction false} AfterAttemptsConcat(r: Repo, a: seq<Attempt>, b: seq<Attempt>)
    ensures AfterAttempts(r, a + b) == AfterAttempts(AfterAttempts(r, a), b)
    decreases |b|
  {
    if b == [] {
      assert a + b == a;
    } else {
      assert (a + b)[..|a + b| - 1] == a + b[..|b| - 1];
      AfterAttemptsConcat(r, a, b[..|b| - 1]);
    }
  }

  lemma {:induction false} LastVerdictConcat(a: seq<Attempt>, b: seq<Attempt>)
    ensures LastVerdict(a + b) == if LastVerdict(b).Some? then LastVerdict(b) else LastVerdict(a)
    decreases |b|
  {
    if b == [] {
      assert a + b == a;
    } else {
      assert (a + b)[..|a + b| - 1] == a + b[..|b| - 1];
      LastVerdictConcat(a, b[..|b| - 1]);
    }
  }

  // ---------------------------------------------------------------------------------------
  // One endpoint
  // ---------------------------------------------------------------------------------------

  function ResultOf(a: Attempt): HttpResult {
    HttpResult(a.responseStatus, a.networkError)
  }

  /** The attempts made for one endpoint when nothing is cancelled: numbered from 1, at most
      MaxRetries of them (one, if that is not positive); all but the last met a retryable
      failure; the last succeeded exactly when its response was an error-free 2xx, and gave up
      only on a failure that is not retryable or at MaxRetries. */
  ghost predicate RetryTrace(trace: seq<Attempt>, maxRetries: int, e: EventId, endpointId: string) {
    && 1 <= |trace| && (|trace| == 1 || |trace| <= maxRetries)
    && (forall i | 0 <= i < |trace| :: trace[i].eventId == e && trace[i].endpointId == endpointId && trace[i].number == i + 1)
    && (forall i | 0 <= i < |trace| - 1 ::
          trace[i].status == Retrying && !Succeeded(ResultOf(trace[i])) && IsRetryable(trace[i].responseStatus, trace[i].networkError))
    && var last := trace[|trace| - 1];
    match last.status
    case Success => Succeeded(ResultOf(last))
    case Exhausted => !Succeeded(ResultOf(last)) && (!IsRetryable(last.responseStatus, last.networkError) || |trace| >= maxRetries)
    case Retrying => false
  }

  lemma RetryTraceConcludes(trace: seq<Attempt>, maxRetries: int, e: EventId, endpointId: string)
    requires RetryTrace(trace, maxRetries, e, endpointId)
    ensures LastVerdict(trace) == Some(if Succeeded(ResultOf(trace[|trace| - 1])) then Delivered else DLQ)
  {
  }

  /** A final attempt was recorded, but its verdict not written any more. */
  ghost predicate OnlyRecorded(r: Repo, r': Repo, a: Attempt) {
    a.id !in r.attempts && a.status != Retrying && r' == RecordDeliveryAttempt(r, a).0
  }

  function Listed(last: Option<Attempt>): seq<Attempt> {
    if last.Some? then [last.value] else []
  }

  /** Where a cancellation left the delivery to one endpoint: after some retried attempts, and
      perhaps a final one, `last`, that was recorded without its verdict. */
  ghost predicate CutOff(r: Repo, r': Repo, trace: seq<Attempt>, last: Option<Attempt>, maxRetries: int, e: EventId, endpoint: Endpoint) {
    && Retried(trace, e, endpoint.id) && (trace == [] || |trace| < maxRetries)
    && (trace != [] || last.Some? ==> endpoint.urlParses)
    && if last.None? then r' == AfterAttempts(r, trace)
       else
         && last.value == AttemptFor(last.value.id, e, endpoint.id, |trace| + 1, ResultOf(last.value), maxRetries)
         && OnlyRecorded(AfterAttempts(r, trace), r', last.value)
  }

  /** The POST with the headers that the dispatcher sets. */
  datatype Request = Request(
    url: string, contentType: string, userAgent: string, webhookId: string,
    timestamp: string, signature: string, body: seq<Byte>)

  /** The request goes to the endpoint's URL as JSON and carries the event under its ID, its
      timestamp header is a 64-bit time, and the signature is that of this time and body under
      the endpoint's secret. */
  predicate Signed(mac: Mac, request: Request, endpoint: Endpoint, e: EventId, payload: seq<Byte>) {
    && request.url == endpoint.url && request.webhookId == e && request.body == payload
    && request.contentType == "application/json" && request.userAgent == "WebhookEngine-Dispatcher/1.0"
    && ParseInt64(request.timestamp).Some?
    && request.signature == SignPayload(mac, endpoint.secret, ParseInt64(request.timestamp).value, request.body)
  }

  /** Whoever holds the endpoint's secret accepts the request, as long as the time in its header
      is within the tolerance (but for distances near 2^64, where the check wraps around). */
  lemma SignedRequestsVerify(mac: Mac, request: Request, endpoint: Endpoint, e: EventId, payload: seq<Byte>, tolerance: int, now: int)
    requires Signed(mac, request, endpoint, e, payload) && IsInt64(tolerance) && IsInt64(now)
    ensures EngineAccepts(mac, endpoint.secret, request.signature, request.body, tolerance, now) <==>
            var d := Abs(now - ParseInt64(request.timestamp).value);
            tolerance <= 0 || d <= tolerance || d >= 0x1_0000_0000_0000_0000 - tolerance
  {
    hide EngineAccepts, SignPayload, Abs;
    SignatureRoundTrip(mac, endpoint.secret, ParseInt64(request.timestamp).value, request.body, tolerance, now);
  }

  datatype Exchange = Exchange(request: Request, answer: HttpResult)

  /** `http.Client`, with a log of what was sent and answered. */
  class HttpClient {
    ghost var exchanges: seq<Exchange>

    constructor ()
      ensures exchanges == []
    {
      exchanges := [];
    }

    /** Any answer, and the context may be cancelled meanwhile. */
    method Do(ctx: Context, request: Request) returns (h: HttpResult)
      modifies this, ctx
      ensures old(ctx.cancelled) ==> ctx.cancelled
      ensures exchanges == old(exchanges) + [Exchange(request, h)]
    {
      if * {
        ctx.cancelled := true;
      }
      var statusCode: int := *;
      var networkError: bool := *;
      h := HttpResult(statusCode, networkError);
      exchanges := exchanges + [Exchange(request, h)];
    }
  }

  datatype Draw = Draw(bound: int, value: int)

  /** `rand.Int64N`, with a log of the bounds it was given and the values it drew. */
  class Random {
    ghost var draws: seq<Draw>

    constructor ()
      ensures draws == []
    {
      draws := [];
    }

    method Int64N(n: int) returns (value: int)
      requires n > 0
      modifies this
      ensures 0 <= value < n && draws == old(draws) + [Draw(n, value)]
    {
      value :| 0 <= value < n;
      draws := draws + [Draw(n, value)];
    }
  }

  /** The sleeps before the second attempt and later ones, each drawn from [0, cap] of its attempt. */
  function DrawsFor(p: BackoffPolicy, slept: seq<int>): seq<Draw> {
    if slept == [] then []
    else
      var n := |slept| - 1;
      DrawsFor(p, slept[..n]) + [Draw(Cap(n + 2, p) + 1, slept[n])]
  }

  function Total(slept: seq<int>): int {
    if slept == [] then 0 else Total(slept[..|slept| - 1]) + slept[|slept| - 1]
  }

  lemma NoSleeps(p: BackoffPolicy)
    ensures DrawsFor(p, []) == [] && Total([]) == 0
  {
  }

  lemma OneMoreSleep(p: BackoffPolicy, slept: seq<int>, d: int)
    ensures DrawsFor(p, slept + [d]) == DrawsFor(p, slept) + [Draw(Cap(|slept| + 2, p) + 1, d)] && Total(slept + [d]) == Total(slept) + d
  {
    hide Cap;
    assert (slept + [d])[..|slept|] == slept;
  }

  /** One signed request was sent to the endpoint for each attempt, in order, and each attempt has
      the answer to its request on record. If the delivery was `cut` short by a cancellation, one
      more request may have been sent whose attempt is not on record. */
  ghost predicate SentTo(mac: Mac, sent: seq<Exchange>, attempts: seq<Attempt>, endpoint: Endpoint, e: EventId, payload: seq<Byte>, cut: bool) {
    && (|sent| == |attempts| || (cut && |sent| == |attempts| + 1))
    && (forall i | 0 <= i < |sent| :: Signed(mac, sent[i].request, endpoint, e, payload))
    && (forall i | 0 <= i < |attempts| ::
          && attempts[i].endpointId == endpoint.id && attempts[i].eventId == e
          && attempts[i].responseStatus == sent[i].answer.statusCode && attempts[i].networkError == sent[i].answer.networkError)
  }

  lemma NothingSentTo(mac: Mac, endpoint: Endpoint, e: EventId, payload: seq<Byte>, cut: bool)
    ensures SentTo(mac, [], [], endpoint, e, payload, cut)
  {
  }

  lemma OneMoreSentTo(mac: Mac, sent: seq<Exchange>, attempts: seq<Attempt>, endpoint: Endpoint, e: EventId, payload: seq<Byte>, x: Exchange, a: Attempt)
    requires SentTo(mac, sent, attempts, endpoint, e, payload, false) && Signed(mac, x.request, endpoint, e, payload)
    requires a.endpointId == endpoint.id && a.eventId == e && a.responseStatus == x.answer.statusCode && a.networkError == x.answer.networkError
    ensures SentTo(mac, sent + [x], attempts + [a], endpoint, e, payload, false) && SentTo(mac, sent + [x], attempts + [a], endpoint, e, payload, true)
    ensures SentTo(mac, sent + [x], attempts, endpoint, e, payload, true) && SentTo(mac, sent, attempts, endpoint, e, payload, true)
  {
    hide Signed;
  }

  class Dispatcher {
    const mac: Mac
    const repo: MemoryRepository
    const uuids: UuidSource
    const policy: BackoffPolicy
    const client: HttpClient
    const random: Random

    constructor (mac: Mac, repo: MemoryRepository, uuids: UuidSource, policy: BackoffPolicy)
      ensures this.mac == mac && this.repo == repo && this.uuids == uuids
      ensures fresh(client) && client.exchanges == [] && fresh(random) && random.draws == []
      ensures this.policy == if policy.maxRetries == 0 then BackoffPolicy(5 * SECOND, 3600 * SECOND, 2.0, 5) else policy
    {
      this.mac, this.repo, this.uuids := mac, repo, uuids;
      client := new HttpClient();
      random := new Random();
      this.policy := if policy.maxRetries == 0 then DEFAULT else policy;
    }

    ghost predicate FreshIds()
      reads repo, uuids
    {
      IdsBelow(repo.View(), uuids.next)
    }

    /** The request for an event at the time `ts`. */
    method NewRequest(endpoint: Endpoint, event: Event, ts: int) returns (request: Request)
      requires IsInt64(ts)
      ensures Signed(mac, request, endpoint, event.id, event.payload) && ParseInt64(request.timestamp) == Some(ts)
      ensures request == Request(endpoint.url, "application/json", "WebhookEngine-Dispatcher/1.0", event.id, Dec(ts),
                                 "t=" + Dec(ts) + ",v1=" + Hex(mac(endpoint.secret, ToSign(ts, event.payload))), event.payload)
    {
      hide Dec, ParseInt64, Hex, ToSign;
      DecRoundTrip(ts);
      var sigHeader := SignPayload(mac, endpoint.secret, ts, event.payload);
      request := Request(endpoint.url, "application/json", "WebhookEngine-Dispatcher/1.0", event.id, Dec(ts), sigHeader, event.payload);
    }

    /** One delivery: one exchange, if a request can be built at all, whose answer makes the attempt.
        Uncancelled, it is recorded and a final outcome becomes the event's status; cancelled, it
        leaves every event as it was. */
    method Dispatch(ctx: Context, endpoint: Endpoint, event: Event, attemptNum: int)
      returns (attempt: Option<Attempt>, res: Outcome<()>, ghost sent: seq<Exchange>)
      requires FreshIds()
      modifies repo`attempts, repo`events, uuids, client, ctx
      ensures FreshIds() && old(uuids.next) <= uuids.next && (old(ctx.cancelled) ==> ctx.cancelled)
      ensures attempt.Some? <==> endpoint.urlParses
      ensures client.exchanges == old(client.exchanges) + sent && |sent| == if endpoint.urlParses then 1 else 0
      ensures attempt.Some? ==>
                var Exchange(request, answer) := sent[0];
                var succeeded := !answer.networkError && 200 <= answer.statusCode < 300;
                var again := answer.networkError || answer.statusCode in {408, 429} || 500 <= answer.statusCode < 600;
                var n := if attemptNum <= 0 then 1 else attemptNum;
                && Signed(mac, request, endpoint, event.id, event.payload)
                && request.url == endpoint.url && request.webhookId == event.id && request.body == event.payload
                && attempt.value == Attempt(attempt.value.id, event.id, endpoint.id, n, answer.statusCode, answer.networkError,
                                            if succeeded then Success else if again && n < policy.maxRetries then Retrying else Exhausted)
      ensures attempt.None? ==> res.Err? && repo.View() == old(repo.View())
      ensures attempt.Some? ==>
                && attempt.value.id == old(uuids.next) < uuids.next
                && var n := if attemptNum <= 0 then 1 else attemptNum;
                attempt.value == AttemptFor(attempt.value.id, event.id, endpoint.id, n, ResultOf(attempt.value), policy.maxRetries)
      ensures attempt.Some? && !ctx.cancelled ==> res.Ok? && repo.View() == AfterAttempt(old(repo.View()), attempt.value)
      ensures attempt.Some? && ctx.cancelled ==> repo.View() == old(repo.View()) || OnlyRecorded(old(repo.View()), repo.View(), attempt.value)
      ensures ctx.cancelled ==> repo.events == old(repo.events)
    {
      var n := if attemptNum <= 0 then 1 else attemptNum;
      hide Signed, SignPayload, ParseInt64;
      sent := [];
      if !endpoint.urlParses {
        return None, Err(InvalidParameters), [];
      }
      var ts: int :| IsInt64(ts);
      var request := NewRequest(endpoint, event, ts);
      var h := client.Do(ctx, request);
      sent := [Exchange(request, h)];
      var status;
      if !h.networkError && h.statusCode >= 200 && h.statusCode < 300 {
        status := Success;
      } else if IsRetryable(h.statusCode, h.networkError) && n < policy.maxRetries {
        status := Retrying;
      } else {
        status := Exhausted;
      }
      var id := uuids.New();
      var a := Attempt(id, event.id, endpoint.id, n, h.statusCode, h.networkError, status);
      attempt := Some(a);
      var recorded := repo.RecordDeliveryAttempt(ctx, a);
      if recorded.Err? {
        return attempt, Err(recorded.error), sent;
      }
      if status == Success {
        var updated := repo.UpdateEventStatus(ctx, event.id, Delivered);
      } else if status == Exhausted {
        var updated := repo.UpdateEventStatus(ctx, event.id, DLQ);
      }
      return attempt, Ok(()), sent;
    }

    /** The backoff delay before an attempt, one draw from [0, cap]. */
    method Backoff(attemptNum: int) returns (d: int)
      modifies random
      ensures 0 <= d <= Cap(attemptNum, policy)
      ensures random.draws == old(random.draws) + [Draw(Cap(attemptNum, policy) + 1, d)]
    {
      CapBounds(attemptNum, policy);
      hide Cap;
      var draw := random.Int64N(Cap(attemptNum, policy) + 1);
      d := CalculateBackoff(attemptNum, policy, _ => draw);
    }

    /** The attempts for one endpoint, with a backoff before each but the first: those that
        were recorded, and whether the verdict of the last one was lost to a cancellation. */
    method DeliverTo(ctx: Context, endpoint: Endpoint, event: Event)
      returns (ghost trace: seq<Attempt>, ghost last: Option<Attempt>, ghost slept: seq<int>, ghost sent: seq<Exchange>)
      requires FreshIds() && !ctx.cancelled
      modifies repo`attempts, repo`events, uuids, client, random, ctx
      ensures FreshIds() && AscendingFrom(trace + Listed(last), old(uuids.next), uuids.next)
      ensures !ctx.cancelled ==>
                && repo.View() == AfterAttempts(old(repo.View()), trace) && last.None?
                && (if endpoint.urlParses then RetryTrace(trace, policy.maxRetries, event.id, endpoint.id) else trace == [])
      ensures 0 <= Total(slept) <= SumOfCaps(policy, 2, policy.maxRetries)
      ensures random.draws == old(random.draws) + DrawsFor(policy, slept)
      ensures !ctx.cancelled ==> |slept| == if trace == [] then 0 else |trace| - 1
      ensures client.exchanges == old(client.exchanges) + sent
      ensures SentTo(mac, sent, trace + Listed(last), endpoint, event.id, event.payload, ctx.cancelled)
      ensures ctx.cancelled ==>
                && repo.events == old(repo.events)
                && CutOff(old(repo.View()), repo.View(), trace, last, policy.maxRetries, event.id, endpoint)
    {
      trace, last, slept, sent := [], None, [], [];
      var attemptNum := 1;
      hide AfterAttempt, IdsBelow, Cap, SumOfCaps, RetryTrace, Retried, AttemptFor, OnlyRecorded, AscendingFrom,
        CutOff, Signed, AfterAttempts, SentTo, DrawsFor, Total;
      NoSleeps(policy);
      NothingSentTo(mac, endpoint, event.id, event.payload, false);
      NothingSentTo(mac, endpoint, event.id, event.payload, true);
      NoAttempts(repo.View());
      NothingRetried(event.id, endpoint.id, uuids.next);
      while true
        invariant FreshIds() && AscendingFrom(trace, old(uuids.next), uuids.next) && last == None
        invariant repo.View() == AfterAttempts(old(repo.View()), trace) && repo.events == old(repo.events)
        invariant !ctx.cancelled && attemptNum == |trace| + 1 && (trace == [] || (attemptNum <= policy.maxRetries && endpoint.urlParses))
        invariant 0 <= Total(slept) <= SumOfCaps(policy, 2, attemptNum)
        invariant Retried(trace, event.id, endpoint.id)
        invariant client.exchanges == old(client.exchanges) + sent
        invariant |slept| == attemptNum - 1 && random.draws == old(random.draws) + DrawsFor(policy, slept)
        invariant SentTo(mac, sent, trace, endpoint, event.id, event.payload, false)
        invariant SentTo(mac, sent, trace, endpoint, event.id, event.payload, true)
        decreases policy.maxRetries - attemptNum
      {
        SleptEnough(policy, attemptNum);
        CutOffBetween(old(repo.View()), trace, policy.maxRetries, event.id, endpoint);
        assert trace + Listed(None) == trace;
        var stop := ctx.Err();
        if stop {
          return;
        }
        ghost var r, n, sofar := repo.View(), uuids.next, trace;
        var attempt, res; ghost var exchanged;
        attempt, res, exchanged := Dispatch(ctx, endpoint, event, attemptNum);
        AscendsLater(trace, old(uuids.next), n, uuids.next);
        if attempt.None? {
          return;
        }
        OneMoreSentTo(mac, sent, trace, endpoint, event.id, event.payload, exchanged[0], attempt.value);
        sent := sent + [exchanged[0]];
        AscendsByOne(trace, attempt.value, old(uuids.next), n, uuids.next);
        if ctx.cancelled {
          CutOffAfter(old(repo.View()), r, repo.View(), trace, attempt.value, policy.maxRetries, event.id, endpoint);
          if repo.View() != r {
            last := attempt;
          }
        } else {
          trace := trace + [attempt.value];
          OneMoreAttempt(old(repo.View()), sofar, attempt.value);
          assert trace + Listed(None) == trace;
        }
        TraceGrows(sofar, attempt.value, event.id, endpoint.id, ResultOf(attempt.value), policy.maxRetries);
        if attempt.value.status != Retrying {
          return;
        }
        RetryingWrites(r, attempt.value);
        attemptNum := attemptNum + 1;
        if attemptNum > policy.maxRetries {
          assert false;
        }
        var backoff := Backoff(attemptNum);
        OneMoreSleep(policy, slept, backoff);
        slept := slept + [backoff];
        SleptMore(policy, attemptNum);
        SleptEnough(policy, attemptNum);
        if !ctx.cancelled {
          CutOffBetween(old(repo.View()), trace, policy.maxRetries, event.id, endpoint);
        }
        stop := ctx.Err();
        if stop {
          return;
        }
      }
    }
  }

  lemma NoAttempts(r: Repo)
    ensures AfterAttempts(r, []) == r
  {
  }

  lemma OneMoreAttempt(r: Repo, trace: seq<Attempt>, a: Attempt)
    ensures AfterAttempts(r, trace + [a]) == AfterAttempt(AfterAttempts(r, trace), a)
  {
    assert (trace + [a])[..|trace|] == trace;
  }

  lemma CutOffBetween(r: Repo, trace: seq<Attempt>, maxRetries: int, e: EventId, endpoint: Endpoint)
    requires Retried(trace, e, endpoint.id) && (trace == [] || (|trace| < maxRetries && endpoint.urlParses))
    ensures CutOff(r, AfterAttempts(r, trace), trace, None, maxRetries, e, endpoint)
  {
  }

  /** A cancellation during an attempt leaves it unrecorded, or recorded without its verdict. */
  lemma CutOffAfter(r: Repo, r1: Repo, r2: Repo, trace: seq<Attempt>, a: Attempt, maxRetries: int, e: EventId, endpoint: Endpoint)
    requires CutOff(r, r1, trace, None, maxRetries, e, endpoint) && endpoint.urlParses
    requires a == AttemptFor(a.id, e, endpoint.id, |trace| + 1, ResultOf(a), maxRetries)
    requires r2 == r1 || OnlyRecorded(r1, r2, a)
    ensures r2 != r1 ==> CutOff(r, r2, trace, Some(a), maxRetries, e, endpoint) && a.status != Retrying
  {
    hide Retried, AttemptFor;
  }

  lemma AscendsLater(trace: seq<Attempt>, lo: nat, mid: nat, hi: nat)
    requires AscendingFrom(trace, lo, mid) && mid <= hi
    ensures AscendingFrom(trace, lo, hi)
  {
  }

  lemma AscendsByOne(trace: seq<Attempt>, a: Attempt, lo: nat, mid: nat, hi: nat)
    requires AscendingFrom(trace, lo, mid) && a.id == mid < hi
    ensures AscendingFrom(trace + [a], lo, hi)
  {
  }

  /** Attempts so far, each of which met a retryable failure. */
  ghost predicate Retried(trace: seq<Attempt>, e: EventId, endpointId: string) {
    forall i | 0 <= i < |trace| ::
      && trace[i].eventId == e && trace[i].endpointId == endpointId && trace[i].number == i + 1
      && trace[i].status == Retrying && !Succeeded(ResultOf(trace[i])) && IsRetryable(trace[i].responseStatus, trace[i].networkError)
  }

  lemma SleptEnough(p: BackoffPolicy, n: int)
    ensures n <= p.maxRetries || n <= 1 ==> SumOfCaps(p, 2, n) <= SumOfCaps(p, 2, p.maxRetries)
  {
    if n <= p.maxRetries {
      SumOfCapsGrows(p, 2, n, p.maxRetries);
    }
  }

  lemma SleptMore(p: BackoffPolicy, n: int)
    requires n >= 2
    ensures SumOfCaps(p, 2, n) == SumOfCaps(p, 2, n - 1) + Cap(n, p)
  {
  }

  lemma NothingRetried(e: EventId, endpointId: string, next: nat)
    ensures Retried([], e, endpointId) && AscendingFrom([], next, next)
  {
  }

  lemma TraceGrows(trace: seq<Attempt>, a: Attempt, e: EventId, endpointId: string, h: HttpResult, maxRetries: int)
    requires Retried(trace, e, endpointId) && (trace == [] || |trace| + 1 <= maxRetries)
    requires a == AttemptFor(a.id, e, endpointId, |trace| + 1, h, maxRetries)
    ensures if a.status == Retrying then Retried(trace + [a], e, endpointId) && |trace| + 1 < maxRetries
            else RetryTrace(trace + [a], maxRetries, e, endpointId)
  {
    forall i | 0 <= i < |trace|
      ensures (trace + [a])[i] == trace[i]
    {
    }
    hide IsRetryable;
  }

  lemma RetryingWrites(r: Repo, a: Attempt)
    requires a.status == Retrying
    ensures AfterAttempt(r, a).events == r.events
  {
  }
}
