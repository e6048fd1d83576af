/** `internal/idempotency/guard.go`, `MemoryGuard`: an expiring lock and response cache per key. */
module Guard {
  import opened Domain
  import opened Storage

  /** The cached 202 body is represented by the event ID it carries. */
  datatype CachedResponse = CachedResponse(statusCode: int, eventId: EventId)

  datatype Entry = Entry(inFlight: bool, cached: Option<CachedResponse>, expiresAt: int)

  type Entries = map<string, Entry>

  datatype Acquisition = Acquired | Replay(response: CachedResponse) | Busy

  function AcquireLock(es: Entries, k: string, now: int, ttl: int): (Entries, Acquisition) {
    if k in es && now < es[k].expiresAt && es[k].cached.Some? then (es, Replay(es[k].cached.value))
    else if k in es && now < es[k].expiresAt && es[k].inFlight then (es, Busy)
    else (es[k := Entry(true, None, now + ttl)], Acquired)
  }

  /** The lock is granted exactly if the key has no entry, its entry has expired, or it is neither in
      flight nor answered; a cached response is replayed, and a lock refuses, exactly until expiry. */
  lemma AcquiredIff(es: Entries, k: string, now: int, ttl: int)
    ensures var (es', got) := AcquireLock(es, k, now, ttl);
            && (got.Acquired? <==> k !in es || now >= es[k].expiresAt || (!es[k].inFlight && es[k].cached.None?))
            && (got.Replay? <==> k in es && now < es[k].expiresAt && es[k].cached.Some?)
            && (got.Replay? ==> got.response == es[k].cached.value)
            && es' == if got.Acquired? then es[k := Entry(true, None, now + ttl)] else es
  {
  }

  function SetResponse(es: Entries, k: string, resp: CachedResponse, now: int, ttl: int): Entries {
    es[k := Entry(false, Some(resp), now + ttl)]
  }

  function ReleaseLock(es: Entries, k: string): Entries {
    if k in es && es[k].inFlight then es - {k} else es
  }

  // ---------------------------------------------------------------------------------------
  // Runs of calls by any number of holders
  // ---------------------------------------------------------------------------------------

  datatype Call =
    | Acquire(key: string, now: int, ttl: int)
    | Complete(key: string, response: CachedResponse, now: int, ttl: int)
    | Release(key: string)

  function Apply(es: Entries, c: Call): Entries {
    match c
    case Acquire(k, now, ttl) => AcquireLock(es, k, now, ttl).0
    case Complete(k, resp, now, ttl) => SetResponse(es, k, resp, now, ttl)
    case Release(k) => ReleaseLock(es, k)
  }

  function Run(es: Entries, calls: seq<Call>): Entries {
    if calls == [] then es else Apply(Run(es, calls[..|calls| - 1]), calls[|calls| - 1])
  }

  /** Every acquire of `k` in the run happens before time `t`. */
  ghost predicate AcquiresBefore(calls: seq<Call>, k: string, t: int) {
    forall c <- calls :: c.Acquire? && c.key == k ==> c.now < t
  }

  /** Once a response is cached for a key, nothing but another completion of that key changes
      its entry before it expires, so every acquire until then replays that response: late
      releases and failed duplicates of expired holders have no effect. */
  lemma {:induction false} CachedResponseIsStable(es: Entries, k: string, calls: seq<Call>, now: int, ttl: int)
    requires k in es && es[k].cached.Some? && !es[k].inFlight
    requires AcquiresBefore(calls, k, es[k].expiresAt) && now < es[k].expiresAt
    requires forall c <- calls :: c.Complete? ==> c.key != k
    ensures var es' := Run(es, calls);
            k in es' && es'[k] == es[k] && AcquireLock(es', k, now, ttl) == (es', Replay(es[k].cached.value))
  {
    if calls != [] {
      var init, c := calls[..|calls| - 1], calls[|calls| - 1];
      assert c in calls && forall x <- init :: x in calls;
      CachedResponseIsStable(es, k, init, now, ttl);
    }
  }

  /** A key is held: in flight and not expired at `t`. */
  predicate Held(es: Entries, k: string, t: int) {
    k in es && es[k].inFlight && es[k].cached.None? && t < es[k].expiresAt
  }

  /** The one call that lets a second holder in before expiry is a release of the key, by
      whichever request makes it: the guard does not check who holds the lock. */
  lemma OnlyReleaseFreesLock(es: Entries, k: string, c: Call, now: int, ttl: int)
    requires Held(es, k, now)
    requires c.Acquire? && c.key == k ==> c.now < es[k].expiresAt
    requires c.Complete? && c.key == k ==> now < c.now + c.ttl
    ensures AcquireLock(Apply(es, c), k, now, ttl).1.Acquired? <==> c == Release(k)
  {
  }

  /** Between a successful acquire and the next release or completion of the key, and before
      expiry, no second acquire succeeds. */
  lemma {:induction false} LockIsExclusive(es: Entries, k: string, calls: seq<Call>, now: int, ttl: int)
    requires Held(es, k, now) && AcquiresBefore(calls, k, es[k].expiresAt)
    requires forall c <- calls :: c.Complete? || c.Release? ==> c.key != k
    ensures var es' := Run(es, calls); k in es' && es'[k] == es[k] && AcquireLock(es', k, now, ttl) == (es', Busy)
  {
    if calls != [] {
      var init, c := calls[..|calls| - 1], calls[|calls| - 1];
      assert c in calls && forall x <- init :: x in calls;
      LockIsExclusive(es, k, init, now, ttl);
    }
  }
}
