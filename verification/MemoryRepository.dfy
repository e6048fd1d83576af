/** The mutex-protected repository object. Every method is one critical section, so its
    contract gives the whole new state as a function of the old one. */
module MemoryRepositories {
  import opened Domain
  import opened Storage

  ghost predicate AscendingIds(batch: seq<OutboxRecord>) {
    forall i, j | 0 <= i < j < |batch| :: batch[i].id < batch[j].id
  }

  lemma AscendingConcat(a: seq<OutboxRecord>, b: seq<OutboxRecord>)
    requires AscendingIds(a) && AscendingIds(b)
    requires forall x, y | x in a && y in b :: x.id < y.id
    ensures AscendingIds(a + b)
  {
    forall i, j | 0 <= i < j < |a + b|
      ensures (a + b)[i].id < (a + b)[j].id
    {
      if i < |a| <= j {
        assert a[i] in a && b[j - |a|] in b;
      }
    }
  }

  lemma InsertionAscends(sorted: seq<OutboxRecord>, k: nat, ob: OutboxRecord)
    requires AscendingIds(sorted) && k <= |sorted| && forall x <- sorted :: x.id != ob.id
    requires forall i | 0 <= i < k :: sorted[i].id < ob.id
    requires k < |sorted| ==> ob.id < sorted[k].id
    ensures var res := sorted[..k] + [ob] + sorted[k..];
            AscendingIds(res) && forall x :: x in res <==> x == ob || x in sorted
  {
    assert sorted == sorted[..k] + sorted[k..];
    var res := sorted[..k] + [ob] + sorted[k..];
    forall i, j | 0 <= i < j < |res|
      ensures res[i].id < res[j].id
    {
      assert k < j ==> ob.id < res[j].id;
    }
  }

  lemma NoRecordsAscend()
    ensures AscendingIds([])
  {
  }

  lemma PrefixAscends(batch: seq<OutboxRecord>, n: nat)
    requires n <= |batch| && AscendingIds(batch)
    ensures AscendingIds(batch[..n])
    ensures forall x <- batch :: x in batch[..n] || forall y <- batch[..n] :: y.id < x.id
  {
  }

  /** The oldest PENDING records in ascending order, at most `limit` of them when `limit` is positive. */
  ghost predicate IsOldestPending(r: Repo, limit: int, batch: seq<OutboxRecord>) {
    && AscendingIds(batch)
    && (forall ob <- batch :: ob.id in PendingIds(r) && ob == r.outbox[ob.id])
    && (limit > 0 ==> |batch| <= limit)
    && (forall o <- PendingIds(r) ::
          r.outbox[o] in batch || (|batch| == limit && forall ob <- batch :: ob.id < o))
  }

  /** The endpoint is listed once for each of its registrations visited so far. */
  ghost predicate CountedOnce(endpoints: map<string, Endpoint>, rest: set<string>, tenantId: string, result: seq<Endpoint>, ep: Endpoint) {
    multiset(result)[ep] == if ep.tenantId == tenantId then |Registrations(endpoints, ep) - rest| else 0
  }

  ghost predicate AllCounted(endpoints: map<string, Endpoint>, rest: set<string>, tenantId: string, result: seq<Endpoint>) {
    forall ep: Endpoint :: CountedOnce(endpoints, rest, tenantId, result, ep)
  }

  lemma NothingCounted(endpoints: map<string, Endpoint>, tenantId: string)
    ensures AllCounted(endpoints, endpoints.Keys, tenantId, [])
  {
    forall ep: Endpoint
      ensures CountedOnce(endpoints, endpoints.Keys, tenantId, [], ep)
    {
      assert Registrations(endpoints, ep) - endpoints.Keys == {};
    }
  }

  lemma CountOneMore(endpoints: map<string, Endpoint>, rest: set<string>, tenantId: string, result: seq<Endpoint>, i: string, result': seq<Endpoint>)
    requires rest <= endpoints.Keys && i in rest && AllCounted(endpoints, rest, tenantId, result)
    requires result' == if endpoints[i].tenantId == tenantId then result + [endpoints[i]] else result
    ensures AllCounted(endpoints, rest - {i}, tenantId, result')
  {
    forall ep: Endpoint
      ensures CountedOnce(endpoints, rest - {i}, tenantId, result', ep)
    {
      assert CountedOnce(endpoints, rest, tenantId, result, ep);
      var visited := Registrations(endpoints, ep) - rest;
      if endpoints[i] == ep {
        assert Registrations(endpoints, ep) - (rest - {i}) == visited + {i} && i !in visited;
      } else {
        assert Registrations(endpoints, ep) - (rest - {i}) == visited;
      }
    }
  }

  lemma CountedAreListed(endpoints: map<string, Endpoint>, tenantId: string, result: seq<Endpoint>)
    requires AllCounted(endpoints, {}, tenantId, result)
    ensures forall ep <- result :: multiset(result)[ep] == |Registrations(endpoints, ep)|
  {
    forall ep <- result
      ensures multiset(result)[ep] == |Registrations(endpoints, ep)|
    {
      assert CountedOnce(endpoints, {}, tenantId, result, ep);
      assert multiset(result)[ep] > 0;
      assert Registrations(endpoints, ep) - {} == Registrations(endpoints, ep);
    }
  }

  class MemoryRepository {
    var endpoints: map<string, Endpoint>
    var events: map<EventId, Event>
    var outboxEvents: map<nat, OutboxRecord>
    var attempts: map<nat, Attempt>
    var idempotencyIndex: map<string, EventId>
    var nextOutboxID: nat

    function View(): Repo
      reads this
    {
      Repo(endpoints, events, outboxEvents, attempts, idempotencyIndex, nextOutboxID)
    }

    constructor ()
      ensures View() == EMPTY
    {
      endpoints, events, outboxEvents, attempts, idempotencyIndex := map[], map[], map[], map[], map[];
      nextOutboxID := 0;
    }

    method GetEndpointsByTenant(ctx: Context, tenantId: string) returns (res: Outcome<seq<Endpoint>>)
      modifies ctx
      ensures old(ctx.cancelled) ==> ctx.cancelled
      ensures res.Err? <==> ctx.cancelled
      ensures res.Ok? ==> forall ep :: ep in res.value <==> exists i <- endpoints :: endpoints[i] == ep && ep.tenantId == tenantId
      ensures res.Ok? ==> forall ep <- res.value :: multiset(res.value)[ep] == |Registrations(endpoints, ep)|
    {
      var stop := ctx.Err();
      if stop {
        return Err(Cancelled);
      }
      hide AllCounted, Registrations;
      NothingCounted(endpoints, tenantId);
      var result := [];
      var rest := endpoints.Keys;
      while rest != {}
        invariant rest <= endpoints.Keys && !ctx.cancelled
        invariant forall ep :: ep in result <==>
                               exists i <- endpoints :: i !in rest && endpoints[i] == ep && ep.tenantId == tenantId
        invariant AllCounted(endpoints, rest, tenantId, result)
        decreases |rest|
      {
        var i :| i in rest;
        ghost var before := result;
        if endpoints[i].tenantId == tenantId {
          result := result + [endpoints[i]];
        }
        CountOneMore(endpoints, rest, tenantId, before, i, result);
        rest := rest - {i};
      }
      CountedAreListed(endpoints, tenantId, result);
      return Ok(result);
    }

    method CreateEventWithOutbox(ctx: Context, e: Event, ob: OutboxRecord) returns (res: Outcome<nat>)
      modifies this, ctx
      ensures old(ctx.cancelled) ==> ctx.cancelled
      ensures ctx.cancelled ==> res == Err(Cancelled) && View() == old(View())
      ensures !ctx.cancelled ==> (View(), res) == Storage.CreateEventWithOutbox(old(View()), e, ob)
    {
      var stop := ctx.Err();
      if stop {
        return Err(Cancelled);
      }
      if e.idempotencyKey != "" {
        var idempKey := e.tenantId + ":" + e.idempotencyKey;
        if idempKey in idempotencyIndex {
          return Err(DuplicateKey);
        }
        idempotencyIndex := idempotencyIndex[idempKey := e.id];
      }
      if e.id in events {
        return Err(DuplicateKey);
      }
      nextOutboxID := nextOutboxID + 1;
      events := events[e.id := e];
      outboxEvents := outboxEvents[nextOutboxID := ob.(id := nextOutboxID)];
      return Ok(nextOutboxID);
    }

    /** Collects the PENDING records in the map's arbitrary order, each into its place by ID. */
    method FetchAndLockPendingOutbox(ctx: Context, limit: int) returns (res: Outcome<seq<OutboxRecord>>)
      requires WellFormed(View())
      modifies ctx
      ensures old(ctx.cancelled) ==> ctx.cancelled
      ensures res.Err? <==> ctx.cancelled
      ensures res.Ok? ==> IsOldestPending(View(), limit, res.value)
    {
      var stop := ctx.Err();
      if stop {
        return Err(Cancelled);
      }
      hide AscendingIds;
      var pending: seq<OutboxRecord> := [];
      assert AscendingIds(pending) by { NoRecordsAscend(); }
      var rest := outboxEvents.Keys;
      while rest != {}
        invariant rest <= outboxEvents.Keys
        invariant !ctx.cancelled && AscendingIds(pending)
        invariant forall ob <- pending :: ob.id in PendingIds(View()) - rest && ob == outboxEvents[ob.id]
        invariant forall o <- PendingIds(View()) - rest :: outboxEvents[o] in pending
        decreases |rest|
      {
        var o :| o in rest;
        if outboxEvents[o].status == OutboxPending {
          pending := InsertById(pending, outboxEvents[o]);
        }
        rest := rest - {o};
      }
      if limit > 0 && |pending| > limit {
        PrefixAscends(pending, limit);
        pending := pending[..limit];
      }
      return Ok(pending);
    }

    static method InsertById(sorted: seq<OutboxRecord>, ob: OutboxRecord) returns (res: seq<OutboxRecord>)
      requires AscendingIds(sorted) && forall x <- sorted :: x.id != ob.id
      ensures AscendingIds(res)
      ensures forall x :: x in res <==> x == ob || x in sorted
    {
      hide AscendingIds;
      var k := 0;
      while k < |sorted| && sorted[k].id < ob.id
        invariant 0 <= k <= |sorted|
        invariant forall i | 0 <= i < k :: sorted[i].id < ob.id
      {
        k := k + 1;
      }
      InsertionAscends(sorted, k, ob);
      res := sorted[..k] + [ob] + sorted[k..];
    }

    method MarkOutboxPublished(ctx: Context, outboxID: nat) returns (res: Outcome<()>)
      modifies this`outboxEvents, ctx
      ensures old(ctx.cancelled) ==> ctx.cancelled
      ensures ctx.cancelled ==> res == Err(Cancelled) && View() == old(View())
      ensures !ctx.cancelled ==> (View(), res) == Storage.MarkOutboxPublished(old(View()), outboxID)
    {
      var stop := ctx.Err();
      if stop {
        return Err(Cancelled);
      }
      if outboxID !in outboxEvents {
        return Err(NotFound);
      }
      outboxEvents := outboxEvents[outboxID := outboxEvents[outboxID].(status := OutboxPublished)];
      return Ok(());
    }

    method RecordDeliveryAttempt(ctx: Context, a: Attempt) returns (res: Outcome<()>)
      modifies this`attempts, ctx
      ensures old(ctx.cancelled) ==> ctx.cancelled
      ensures ctx.cancelled ==> res == Err(Cancelled) && View() == old(View())
      ensures !ctx.cancelled ==> (View(), res) == Storage.RecordDeliveryAttempt(old(View()), a)
    {
      var stop := ctx.Err();
      if stop {
        return Err(Cancelled);
      }
      if a.id in attempts {
        return Err(DuplicateKey);
      }
      attempts := attempts[a.id := a];
      return Ok(());
    }

    method UpdateEventStatus(ctx: Context, e: EventId, s: EventStatus) returns (res: Outcome<()>)
      modifies this`events, ctx
      ensures old(ctx.cancelled) ==> ctx.cancelled
      ensures ctx.cancelled ==> res == Err(Cancelled) && View() == old(View())
      ensures !ctx.cancelled ==> (View(), res) == Storage.UpdateEventStatus(old(View()), e, s)
    {
      var stop := ctx.Err();
      if stop {
        return Err(Cancelled);
      }
      if e !in events {
        return Err(NotFound);
      }
      events := events[e := events[e].(status := s)];
      return Ok(());
    }

    method GetEvent(ctx: Context, e: EventId) returns (res: Outcome<Event>)
      modifies ctx
      ensures old(ctx.cancelled) ==> ctx.cancelled
      ensures res == if ctx.cancelled then Err(Cancelled) else if e in events then Ok(events[e]) else Err(NotFound)
    {
      var stop := ctx.Err();
      if stop {
        return Err(Cancelled);
      }
      if e !in events {
        return Err(NotFound);
      }
      return Ok(events[e]);
    }

    method ReplayDLQEvents(ctx: Context, tenantId: string, ids: seq<EventId>) returns (res: Outcome<nat>)
      modifies this, ctx
      ensures old(ctx.cancelled) ==> ctx.cancelled
      ensures ctx.cancelled ==> res == Err(Cancelled) && View() == old(View())
      ensures !ctx.cancelled ==> res.Ok? && (View(), res.value) == Storage.ReplayDLQEvents(old(View()), tenantId, ids)
    {
      var stop := ctx.Err();
      if stop {
        return Err(Cancelled);
      }
      var replayedCount := 0;
      for i := 0 to |ids|
        invariant (View(), replayedCount) == Storage.ReplayDLQEvents(old(View()), tenantId, ids[..i])
        invariant !ctx.cancelled
      {
        var id := ids[i];
        assert ids[..i + 1][..i] == ids[..i];
        if id !in events || events[id].tenantId != tenantId || events[id].status != DLQ {
          continue;
        }
        var evt := events[id];
        events := events[id := evt.(status := Pending)];
        nextOutboxID := nextOutboxID + 1;
        outboxEvents := outboxEvents[nextOutboxID := OutboxRecord(nextOutboxID, evt.id, OutboxPending)];
        replayedCount := replayedCount + 1;
      }
      assert ids[..|ids|] == ids;
      return Ok(replayedCount);
    }
  }
}
