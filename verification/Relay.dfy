/** `internal/outbox/relay.go`: publishing PENDING outbox records to the stream. */
module Relays {
  import opened Domain
  import opened Storage
  import opened Queue
  import opened MemoryRepositories
  import opened MemoryStreamQueues

  /** Exactly the records in `ids` were marked. */
  function WithPublished(r: Repo, ids: set<nat>): Repo {
    r.(outbox := map o <- r.outbox :: if o in ids then r.outbox[o].(status := OutboxPublished) else r.outbox[o])
  }

  function RecordIds(batch: seq<OutboxRecord>): set<nat> {
    set ob <- batch :: ob.id
  }

  /** `added` are messages for the events of `batch`, one each and in order. */
  ghost predicate Carries(r: Repo, batch: seq<OutboxRecord>, added: seq<Message>) {
    && |added| == |batch|
    && (forall i | 0 <= i < |batch| :: batch[i].eventId in r.events && added[i] == MessageFor(added[i].id, r.events[batch[i].eventId]))
  }

  /** Stream `sn` grew by `added`, which took the next serials; nothing else in the queue changed
      but the wakeup channel. */
  ghost predicate Grew(q: Streams, q': Streams, sn: string, added: seq<Message>) {
    && q'.serial == q.serial + |added| && (forall i | 0 <= i < |added| :: added[i].id.serial == q.serial + i + 1)
    && StreamOf(q', sn).messages == StreamOf(q, sn).messages + added
    && StreamOf(q', sn).groups == StreamOf(q, sn).groups
    && (forall s | s != sn :: StreamOf(q', s) == StreamOf(q, s))
  }

  lemma GrewTransitive(q0: Streams, q1: Streams, q2: Streams, sn: string, a: seq<Message>, b: seq<Message>)
    requires Grew(q0, q1, sn, a) && Grew(q1, q2, sn, b)
    ensures Grew(q0, q2, sn, a + b)
  {
    SerialsFollow(q0.serial, a, b);
    hide StreamOf;
    assert StreamOf(q0, sn).messages + (a + b) == (StreamOf(q0, sn).messages + a) + b;
  }

  lemma SerialsFollow(serial: nat, a: seq<Message>, b: seq<Message>)
    requires forall i | 0 <= i < |a| :: a[i].id.serial == serial + i + 1
    requires forall i | 0 <= i < |b| :: b[i].id.serial == serial + |a| + i + 1
    ensures forall i | 0 <= i < |a + b| :: (a + b)[i].id.serial == serial + i + 1
  {
  }

  /** The state of a batch after `marked` records: the published ones are marked, and their
      messages are in the stream. */
  ghost predicate Progress(r0: Repo, q0: Streams, r: Repo, q: Streams, sn: string, batch: seq<OutboxRecord>, marked: nat, added: seq<Message>) {
    && marked <= |added| <= |batch|
    && r == WithPublished(r0, RecordIds(batch[..marked]))
    && Carries(r0, batch[..|added|], added)
    && Grew(q0, q, sn, added)
  }

  lemma ProgressBegins(r0: Repo, q0: Streams, sn: string, batch: seq<OutboxRecord>)
    ensures Progress(r0, q0, r0, q0, sn, batch, 0, [])
  {
    assert WithPublished(r0, RecordIds(batch[..0])).outbox == r0.outbox;
  }

  lemma ProgressIs(r0: Repo, q0: Streams, r: Repo, q: Streams, sn: string, batch: seq<OutboxRecord>, marked: nat, added: seq<Message>)
    requires Progress(r0, q0, r, q, sn, batch, marked, added)
    ensures r.events == r0.events && r.outbox.Keys == r0.outbox.Keys
  {
  }

  lemma ProgressUnpublished(r0: Repo, q0: Streams, r: Repo, q: Streams, q': Streams, sn: string, batch: seq<OutboxRecord>, added: seq<Message>)
    requires Progress(r0, q0, r, q, sn, batch, |added|, added)
    ensures added + [] == added && (Grew(q, q', sn, []) ==> Progress(r0, q0, r, q', sn, batch, |added|, added))
  {
    if Grew(q, q', sn, []) {
      GrewTransitive(q0, q, q', sn, added, []);
      assert added + [] == added;
    }
  }

  lemma ProgressPublished(r0: Repo, q0: Streams, r: Repo, q: Streams, q': Streams, sn: string, batch: seq<OutboxRecord>, added: seq<Message>, m: Message)
    requires |added| < |batch| && Progress(r0, q0, r, q, sn, batch, |added|, added)
    requires batch[|added|].eventId in r0.events && m == MessageFor(m.id, r0.events[batch[|added|].eventId])
    requires Grew(q, q', sn, [m])
    ensures Progress(r0, q0, r, q', sn, batch, |added|, added + [m])
  {
    GrewTransitive(q0, q, q', sn, added, [m]);
    assert batch[..|added| + 1] == batch[..|added|] + [batch[|added|]];
  }

  lemma ProgressMarked(r0: Repo, q0: Streams, r: Repo, q: Streams, sn: string, batch: seq<OutboxRecord>, marked: nat, added: seq<Message>)
    requires marked < |added| && Progress(r0, q0, r, q, sn, batch, marked, added)
    ensures Progress(r0, q0, WithPublished(r, {batch[marked].id}), q, sn, batch, marked + 1, added)
  {
    assert batch[..marked + 1] == batch[..marked] + [batch[marked]];
    assert RecordIds(batch[..marked + 1]) == RecordIds(batch[..marked]) + {batch[marked].id};
    assert WithPublished(r, {batch[marked].id}).outbox == WithPublished(r0, RecordIds(batch[..marked + 1])).outbox;
  }

  /** `drained` lists, in ascending order, exactly the records of `r0` that were PENDING and
      no longer are in `r`; they are the oldest ones. */
  ghost predicate DrainedSoFar(r0: Repo, r: Repo, drained: seq<OutboxRecord>) {
    && AscendingIds(drained)
    && (forall ob <- drained :: ob.id in PendingIds(r0) && r0.outbox[ob.id] == ob)
    && (forall o <- PendingIds(r) :: forall ob <- drained :: ob.id < o)
    && PendingIds(r) == PendingIds(r0) - RecordIds(drained)
  }

  lemma MarkedTwice(r: Repo, a: set<nat>, b: set<nat>)
    ensures WithPublished(WithPublished(r, a), b) == WithPublished(r, a + b)
    ensures PendingIds(WithPublished(r, a)) == PendingIds(r) - a
  {
    assert WithPublished(WithPublished(r, a), b).outbox == WithPublished(r, a + b).outbox;
  }

  lemma MarkingKeepsWellFormed(r: Repo, ids: set<nat>)
    requires WellFormed(r)
    ensures WellFormed(WithPublished(r, ids))
  {
  }

  lemma RecordIdsConcat(a: seq<OutboxRecord>, b: seq<OutboxRecord>)
    ensures RecordIds(a + b) == RecordIds(a) + RecordIds(b)
  {
  }

  lemma DrainStep(r0: Repo, r: Repo, r': Repo, drained: seq<OutboxRecord>, size: nat, batch: seq<OutboxRecord>)
    requires WellFormed(r0) && r == WithPublished(r0, RecordIds(drained)) && r' == WithPublished(r, RecordIds(batch))
    requires DrainedSoFar(r0, r, drained) && IsOldestPending(r, size, batch)
    ensures DrainedSoFar(r0, r', drained + batch) && r' == WithPublished(r0, RecordIds(drained + batch))
  {
    AscendingConcat(drained, batch);
    RecordIdsConcat(drained, batch);
    MarkedTwice(r0, RecordIds(drained), RecordIds(batch));
    MarkedTwice(r, RecordIds(batch), {});
    hide AscendingIds;
  }

  /** A short batch was the last one, and every other batch leaves fewer PENDING records. */
  lemma BatchShrinksPending(r: Repo, size: nat, batch: seq<OutboxRecord>)
    requires WellFormed(r) && IsOldestPending(r, size, batch)
    ensures var r' := WithPublished(r, RecordIds(batch));
            && (|batch| < size ==> PendingIds(r') == {})
            && (batch != [] ==> PendingIds(r') < PendingIds(r))
  {
    MarkedTwice(r, RecordIds(batch), {});
    if batch != [] {
      assert batch[0].id in RecordIds(batch) && batch[0].id in PendingIds(r);
    }
  }

  lemma ProgressExtends(r0: Repo, q0: Streams, r: Repo, q: Streams, r': Repo, q': Streams, sn: string,
                        drained: seq<OutboxRecord>, added: seq<Message>, batch: seq<OutboxRecord>, marked: nat, more: seq<Message>)
    requires Progress(r0, q0, r, q, sn, drained, |drained|, added) && |added| == |drained|
    requires Progress(r, q, r', q', sn, batch, marked, more)
    ensures Carries(r0, (drained + batch)[..|added + more|], added + more)
    ensures Grew(q0, q', sn, added + more)
  {
    GrewTransitive(q0, q, q', sn, added, more);
    assert drained[..|drained|] == drained;
    assert (drained + batch)[..|added + more|] == drained + batch[..|more|];
  }

  /** What the drain loop keeps: full records of what it has drained and put in the stream. */
  ghost predicate DrainInv(r0: Repo, q0: Streams, r: Repo, q: Streams, sn: string, drained: seq<OutboxRecord>, added: seq<Message>) {
    && WellFormed(r) && DrainedSoFar(r0, r, drained)
    && |added| == |drained|
    && Progress(r0, q0, r, q, sn, drained, |drained|, added)
  }

  lemma DrainInvBegins(r0: Repo, q0: Streams, sn: string)
    requires WellFormed(r0)
    ensures DrainInv(r0, q0, r0, q0, sn, [], [])
  {
    ProgressBegins(r0, q0, sn, []);
  }

  lemma DrainInvStep(r0: Repo, q0: Streams, r: Repo, q: Streams, r': Repo, q': Streams, sn: string,
                     drained: seq<OutboxRecord>, added: seq<Message>, size: nat, batch: seq<OutboxRecord>, more: seq<Message>)
    requires WellFormed(r0) && DrainInv(r0, q0, r, q, sn, drained, added)
    requires IsOldestPending(r, size, batch) && |more| == |batch|
    requires Progress(r, q, r', q', sn, batch, |batch|, more)
    ensures DrainInv(r0, q0, r', q', sn, drained + batch, added + more)
    ensures |batch| < size ==> PendingIds(r') == {}
    ensures batch != [] ==> PendingIds(r') < PendingIds(r)
  {
    assert drained[..|drained|] == drained && batch[..|batch|] == batch;
    assert (drained + batch)[..|drained + batch|] == drained + batch;
    hide DrainedSoFar, IsOldestPending, Grew, WellFormed;
    ProgressExtends(r0, q0, r, q, r', q', sn, drained, added, batch, |batch|, more);
    DrainStep(r0, r, r', drained, size, batch);
    BatchShrinksPending(r, size, batch);
    MarkingKeepsWellFormed(r, RecordIds(batch));
  }

  /** The stream grew by one message for each record that was PENDING, in ascending order, and
      exactly those records are now PUBLISHED. */
  ghost predicate FullyDrained(r0: Repo, q0: Streams, r: Repo, q: Streams, sn: string, drained: seq<OutboxRecord>, added: seq<Message>) {
    && AscendingIds(drained) && RecordIds(drained) == PendingIds(r0)
    && (forall ob <- drained :: ob.id in r0.outbox && r0.outbox[ob.id] == ob)
    && r == WithPublished(r0, RecordIds(drained)) && PendingIds(r) == {}
    && Carries(r0, drained, added)
    && Grew(q0, q, sn, added)
  }

  lemma DrainInvDone(r0: Repo, q0: Streams, r: Repo, q: Streams, sn: string, drained: seq<OutboxRecord>, added: seq<Message>)
    requires DrainInv(r0, q0, r, q, sn, drained, added) && PendingIds(r) == {}
    ensures FullyDrained(r0, q0, r, q, sn, drained, added)
  {
    forall o <- PendingIds(r0)
      ensures o in RecordIds(drained)
    {
      assert o !in PendingIds(r);
    }
    assert drained[..|drained|] == drained;
  }

  class Relay {
    const repo: MemoryRepository
    const queue: MemoryStreamQueue
    const streamName: string

    constructor (repo: MemoryRepository, queue: MemoryStreamQueue, streamName: string)
      ensures this.repo == repo && this.queue == queue
      ensures this.streamName == if streamName != "" then streamName else "stream:events:pending"
    {
      this.repo, this.queue := repo, queue;
      this.streamName := if streamName != "" then streamName else "stream:events:pending";
    }

    /** One record of the loop: publish its event, then mark it. A cancellation may stop the
        step before, between or after the two. */
    method PublishOne(ctx: Context, ob: OutboxRecord) returns (res: Outcome<()>, ghost added: seq<Message>)
      requires ob.id in repo.outboxEvents && ob.eventId in repo.events && queue.Valid() && streamName != ""
      modifies repo`outboxEvents, queue, ctx
      ensures queue.Valid() && (old(ctx.cancelled) ==> ctx.cancelled)
      ensures added == [] || exists id :: added == [MessageFor(id, repo.events[ob.eventId])]
      ensures Grew(old(queue.View()), queue.View(), streamName, added)
      ensures res.Ok? ==> !ctx.cancelled && added != [] && repo.View() == WithPublished(old(repo.View()), {ob.id})
      ensures res.Err? ==> ctx.cancelled && repo.View() == old(repo.View())
    {
      added := [];
      var stop := ctx.Err();
      if stop {
        return Err(Cancelled), added;
      }
      var evt := repo.GetEvent(ctx, ob.eventId);
      if evt.Err? {
        // The record's event is stored, so only a cancellation gets here.
        return Err(evt.error), added;
      }
      var millis: nat := *;
      var pub := queue.PublishEvent(ctx, streamName, evt.value, millis);
      if pub.Err? {
        return Err(pub.error), added;
      }
      added := [MessageFor(pub.value, evt.value)];
      ghost var r := repo.View();
      var mark := repo.MarkOutboxPublished(ctx, ob.id);
      if mark.Err? {
        return Err(mark.error), added;
      }
      assert repo.View().outbox == WithPublished(r, {ob.id}).outbox;
      return Ok(()), added;
    }

    /** `PublishOne` as progress through a batch. */
    method PublishNext(ctx: Context, ob: OutboxRecord, ghost r0: Repo, ghost q0: Streams, ghost batch: seq<OutboxRecord>, ghost before: seq<Message>)
      returns (res: Outcome<()>, ghost added: seq<Message>)
      requires |before| < |batch| && batch[|before|] == ob && ob.id in r0.outbox && ob.eventId in r0.events
      requires Progress(r0, q0, repo.View(), queue.View(), streamName, batch, |before|, before)
      requires queue.Valid() && streamName != ""
      modifies repo`outboxEvents, queue, ctx
      ensures queue.Valid() && (old(ctx.cancelled) ==> ctx.cancelled)
      ensures res.Ok? ==> |added| == |before| + 1 && !ctx.cancelled
      ensures res.Err? ==> ctx.cancelled && |added| <= |before| + 1
      ensures Progress(r0, q0, repo.View(), queue.View(), streamName, batch, if res.Ok? then |added| else |before|, added)
    {
      hide Progress, Grew, Carries;
      ProgressIs(r0, q0, repo.View(), queue.View(), streamName, batch, |before|, before);
      ghost var r1, q1 := repo.View(), queue.View();
      var one, more := PublishOne(ctx, ob);
      if more != [] {
        ProgressPublished(r0, q0, r1, q1, queue.View(), streamName, batch, before, more[0]);
      }
      if one.Ok? {
        ProgressMarked(r0, q0, r1, queue.View(), streamName, batch, |before|, before + more);
      }
      ProgressUnpublished(r0, q0, r1, q1, queue.View(), streamName, batch, before);
      return one, before + more;
    }

    /** Publishes and marks the oldest PENDING records one by one, until a cancellation. */
    method ProcessNextBatch(ctx: Context, batchSize: int)
      returns (res: Outcome<nat>, ghost batch: seq<OutboxRecord>, ghost marked: nat, ghost added: seq<Message>)
      requires WellFormed(repo.View()) && queue.Valid() && streamName != ""
      modifies repo`outboxEvents, queue, ctx
      ensures queue.Valid() && (old(ctx.cancelled) ==> ctx.cancelled)
      ensures IsOldestPending(old(repo.View()), if batchSize <= 0 then 100 else batchSize, batch) || (batch == [] && ctx.cancelled)
      ensures |added| <= marked + 1
      ensures Progress(old(repo.View()), old(queue.View()), repo.View(), queue.View(), streamName, batch, marked, added)
      ensures !ctx.cancelled ==> res == Ok(|batch|) && marked == |batch|
    {
      batch, marked, added := [], 0, [];
      ProgressBegins(repo.View(), queue.View(), streamName, batch);
      var stop := ctx.Err();
      if stop {
        return Err(Cancelled), batch, marked, added;
      }
      var size := if batchSize <= 0 then 100 else batchSize;
      var fetched := repo.FetchAndLockPendingOutbox(ctx, size);
      if fetched.Err? {
        return Err(fetched.error), batch, marked, added;
      }
      var outboxEvents := fetched.value;
      batch := outboxEvents;
      ghost var r0, q0 := repo.View(), queue.View();
      ProgressBegins(r0, q0, streamName, batch);
      var processedCount := 0;
      for i := 0 to |outboxEvents|
        invariant queue.Valid() && !ctx.cancelled
        invariant processedCount == marked == |added| == i
        invariant Progress(r0, q0, repo.View(), queue.View(), streamName, batch, marked, added)
      {
        var ob := outboxEvents[i];
        assert ob in batch && ob == r0.outbox[ob.id];
        var one;
        one, added := PublishNext(ctx, ob, r0, q0, batch, added);
        if one.Err? {
          return Err(one.error), batch, marked, added;
        }
        marked := marked + 1;
        processedCount := processedCount + 1;
      }
      return Ok(processedCount), batch, marked, added;
    }

    /** `ProcessNextBatch` as one turn of the drain loop. */
    method DrainBatch(ctx: Context, size: nat, ghost r0: Repo, ghost q0: Streams, ghost drained: seq<OutboxRecord>, ghost added: seq<Message>)
      returns (res: Outcome<nat>, ghost drained': seq<OutboxRecord>, ghost added': seq<Message>)
      requires WellFormed(r0) && DrainInv(r0, q0, repo.View(), queue.View(), streamName, drained, added)
      requires queue.Valid() && streamName != "" && size > 0
      modifies repo`outboxEvents, queue, ctx
      ensures queue.Valid() && (old(ctx.cancelled) ==> ctx.cancelled)
      ensures !ctx.cancelled ==>
                && res.Ok?
                && DrainInv(r0, q0, repo.View(), queue.View(), streamName, drained', added')
                && (res.value < size ==> PendingIds(repo.View()) == {})
                && (res.value > 0 ==> PendingIds(repo.View()) < PendingIds(old(repo.View())))
    {
      ghost var r, q := repo.View(), queue.View();
      ghost var batch, marked, more;
      res, batch, marked, more := ProcessNextBatch(ctx, size);
      drained', added' := drained + batch, added + more;
      if !ctx.cancelled {
        DrainInvStep(r0, q0, r, q, repo.View(), queue.View(), streamName, drained, added, size, batch, more);
      }
    }

    /** The inner loop of `Start`: batches until one comes back short. Uncancelled, it turns
        the PENDING records, oldest first and once each, into messages, and leaves none. */
    method Drain(ctx: Context, batchSize: int)
      returns (failed: bool, ghost drained: seq<OutboxRecord>, ghost added: seq<Message>)
      requires WellFormed(repo.View()) && queue.Valid() && streamName != ""
      modifies repo`outboxEvents, queue, ctx
      ensures queue.Valid() && (old(ctx.cancelled) ==> ctx.cancelled)
      ensures !ctx.cancelled ==>
                !failed && FullyDrained(old(repo.View()), old(queue.View()), repo.View(), queue.View(), streamName, drained, added)
    {
      hide DrainInv, FullyDrained, WellFormed;
      ghost var r0, q0 := repo.View(), queue.View();
      drained, added := [], [];
      DrainInvBegins(r0, q0, streamName);
      var size := if batchSize <= 0 then 100 else batchSize;
      var stop := ctx.Err();
      while !stop
        invariant queue.Valid() && (old(ctx.cancelled) ==> ctx.cancelled) && stop == ctx.cancelled
        invariant !stop ==> DrainInv(r0, q0, repo.View(), queue.View(), streamName, drained, added)
        decreases !stop, PendingIds(repo.View())
      {
        var count;
        count, drained, added := DrainBatch(ctx, size, r0, q0, drained, added);
        if count.Err? {
          return true, drained, added;
        }
        if count.value < size {
          if !ctx.cancelled {
            DrainInvDone(r0, q0, repo.View(), queue.View(), streamName, drained, added);
          }
          return false, drained, added;
        }
        stop := ctx.Err();
      }
      return true, drained, added;
    }
  }
}
