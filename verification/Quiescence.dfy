/** Drain to quiescence: with no further input, relaying, then working through the stream, then
    reclaiming what earlier crashes left pending, brings every event to a final status. */
module Quiescence {
  import opened Domain
  import opened Storage
  import opened Queue
  import opened Delivery
  import opened MemoryRepositories
  import opened MemoryStreamQueues
  import opened Relays
  import opened Dispatchers
  import opened WorkerPools
  import opened Pipeline
  import opened PipelineInv
  import opened PipelineSteps
  import opened NoLoss

  /** Every message in the stream carries a stored event under its tenant. */
  ghost predicate StreamTraced(r: Repo, messages: seq<Message>) {
    forall m <- messages :: m.eventId in r.events && m.tenantId == r.events[m.eventId].tenantId && m.tenantId != ""
  }

  ghost predicate TenantsNamed(r: Repo) {
    forall e <- r.events :: r.events[e].tenantId != ""
  }

  /** What the sequential phases rely on and keep. */
  ghost predicate Ready(r: Repo, messages: seq<Message>, g: Group) {
    && TenantsNamed(r) && AllServiceable(r)
    && StreamTraced(r, messages)
    && NothingLost(r, messages, g)
  }

  /** Every state that the pipeline can reach while each tenant can be delivered to is ready. */
  lemma ReachableIsReady(actions: seq<Action>)
    requires Served(actions) && AllServiceable(Run(INITIAL, actions).repo)
    ensures var s := Run(INITIAL, actions);
            WellFormed(s.repo) && Ready(s.repo, s.log, s.group) && GroupOk(s.log, s.group)
  {
    NoPendingEventIsLost(actions);
    ReachableInv(actions);
    hide Run, Served, NothingLost, AllServiceable;
    InvIsReady(Run(INITIAL, actions));
  }

  lemma InvIsReady(s: System)
    requires Inv(s)
    ensures WellFormed(s.repo) && TenantsNamed(s.repo) && StreamTraced(s.repo, s.log) && GroupOk(s.log, s.group)
  {
    hide ConsumersOk, RelaysOk, Covered, GenOk, PublishedOk;
    forall m <- s.log
      ensures m.eventId in s.repo.events && m.tenantId == s.repo.events[m.eventId].tenantId && m.tenantId != ""
    {
      var i :| 0 <= i < |s.log| && s.log[i] == m;
    }
  }

  // ---------------------------------------------------------------------------------------
  // Relaying
  // ---------------------------------------------------------------------------------------

  lemma DrainKeepsReady(r0: Repo, q0: Streams, r: Repo, q: Streams, sn: string, gn: string, drained: seq<OutboxRecord>, added: seq<Message>)
    requires WellFormed(r0) && CursorOk(StreamOf(q0, sn).messages, GroupOf(StreamOf(q0, sn), gn))
    requires Ready(r0, StreamOf(q0, sn).messages, GroupOf(StreamOf(q0, sn), gn)) && FullyDrained(r0, q0, r, q, sn, drained, added)
    ensures Ready(r, StreamOf(q, sn).messages, GroupOf(StreamOf(q, sn), gn)) && WellFormed(r) && PendingIds(r) == {}
  {
    var messages0, messages, g := StreamOf(q0, sn).messages, StreamOf(q, sn).messages, GroupOf(StreamOf(q, sn), gn);
    assert messages == messages0 + added && g == GroupOf(StreamOf(q0, sn), gn);
    assert r == WithPublished(r0, RecordIds(drained)) && Carries(r0, drained, added) && RecordIds(drained) == PendingIds(r0) && PendingIds(r) == {};
    assert forall ob <- drained :: ob.id in r0.outbox && r0.outbox[ob.id] == ob;
    hide FullyDrained, Grew, PendingIds;
    MarkingKeepsWellFormed(r0, RecordIds(drained));
    DrainKeepsTraced(r0, messages0, drained, added);
    hide WithPublished, WellFormed, Carries;
    assert r.events == r0.events && r.endpoints == r0.endpoints by { SameButOutbox(r0, RecordIds(drained)); }
    hide Carried;
    forall e <- r.events
      ensures r.events[e].status == Pending ==> Carried(r, messages, g, e)
    {
      if r.events[e].status == Pending {
        DrainKeepsCarried(r0, r, messages0, added, g, drained, e);
      }
    }
  }

  lemma SameButOutbox(r: Repo, ids: set<nat>)
    ensures WithPublished(r, ids) == r.(outbox := WithPublished(r, ids).outbox)
  {
  }

  lemma DrainKeepsTraced(r: Repo, messages: seq<Message>, drained: seq<OutboxRecord>, added: seq<Message>)
    requires WellFormed(r) && TenantsNamed(r) && StreamTraced(r, messages) && Carries(r, drained, added)
    ensures StreamTraced(r, messages + added)
  {
    forall m <- messages + added
      ensures m.eventId in r.events && m.tenantId == r.events[m.eventId].tenantId && m.tenantId != ""
    {
      if m !in messages {
        var i :| 0 <= i < |added| && added[i] == m;
        assert r.events[drained[i].eventId].id == drained[i].eventId;
      }
    }
  }

  /** An event that a PENDING record carried is carried by that record's new message. */
  lemma DrainKeepsCarried(r0: Repo, r: Repo, messages: seq<Message>, added: seq<Message>, g: Group, drained: seq<OutboxRecord>, e: EventId)
    requires WellFormed(r0) && Carries(r0, drained, added) && RecordIds(drained) == PendingIds(r0) && CursorOk(messages, g)
    requires Carried(r0, messages, g, e) && forall ob <- drained :: ob.id in r0.outbox && r0.outbox[ob.id] == ob
    ensures Carried(r, messages + added, g, e)
  {
    if ByRecord(r0, e) {
      var o :| o in r0.outbox && r0.outbox[o].status == OutboxPending && r0.outbox[o].eventId == e;
      assert o in RecordIds(drained);
      var k :| 0 <= k < |drained| && drained[k].id == o;
      assert drained[k] in drained && (messages + added)[|messages| + k] == added[k] && added[k].eventId == e;
      assert ByMessage(messages + added, g.lastDelivered, e);
    } else if ByMessage(messages, g.lastDelivered, e) {
      var i :| g.lastDelivered < i < |messages| && 0 <= i && messages[i].eventId == e;
      assert (messages + added)[i] == messages[i];
      assert ByMessage(messages + added, g.lastDelivered, e);
    } else {
      assert ByEntry(g, e);
    }
  }

  // ---------------------------------------------------------------------------------------
  // Reading, processing, acknowledging
  // ---------------------------------------------------------------------------------------

  lemma HandledKeepsReady(r: Repo, r': Repo, messages: seq<Message>, g: Group, touched: seq<Message>, done: seq<Message>)
    requires Ready(r, messages, g) && Handled(r, r', touched, done)
    ensures Ready(r', messages, g) && PendingIds(r') == PendingIds(r)
  {
    SameEndpoints(r, r');
    hide ActiveEndpoints, Serviceable;
  }

  lemma SameEndpoints(r: Repo, r': Repo)
    requires r'.endpoints == r.endpoints
    ensures forall tenantId :: ActiveEndpoints(r', tenantId) == ActiveEndpoints(r, tenantId)
  {
  }

  /** A message of the stream that was processed to the end has nothing left to deliver. */
  lemma DoneIsFinal(r: Repo, r': Repo, messages: seq<Message>, g: Group, touched: seq<Message>, done: seq<Message>)
    requires Ready(r, messages, g) && Handled(r, r', touched, done) && forall m <- done :: m in messages
    ensures forall m <- done :: m.eventId in r'.events && r'.events[m.eventId].status != Pending
  {
    hide ActiveEndpoints, Serviceable, NothingLost;
  }

  lemma SameIdSameMessage(messages: seq<Message>, serial: nat, a: Message, b: Message)
    requires LogOk(messages, serial) && a in messages && b in messages && a.id == b.id
    ensures a == b
  {
    var i :| 0 <= i < |messages| && messages[i] == a;
    var j :| 0 <= j < |messages| && messages[j] == b;
    assert !(i < j) && !(j < i);
  }

  /** Once delivered, a message is pending under its ID, and what was pending stays so. */
  lemma DeliveredIsPending(messages: seq<Message>, serial: nat, g: Group, consumer: string, count: int, now: int, m: Message)
    requires LogOk(messages, serial) && GroupOk(messages, g)
    requires m in NextBatch(messages, g, count) || (m.id in g.pending && g.pending[m.id].msg == m)
    ensures var g' := Deliver(messages, g, consumer, count, now); m.id in g'.pending && g'.pending[m.id].msg == m
  {
    var batch, g' := NextBatch(messages, g, count), Deliver(messages, g, consumer, count, now);
    EnrollAdds(g.pending, batch, consumer, now);
    hide Enroll, LogOk;
    assert m in messages;
    assert m.id in g'.pending;
    if m.id in Ids(batch) {
      assert g'.pending[m.id].msg in batch;
      SameIdSameMessage(messages, serial, g'.pending[m.id].msg, m);
    }
  }

  lemma NextMessageIsInBatch(messages: seq<Message>, g: Group, count: int, i: nat)
    requires CursorOk(messages, g) && g.lastDelivered < i < |messages| && i <= g.lastDelivered + |NextBatch(messages, g, count)|
    ensures messages[i] in NextBatch(messages, g, count)
  {
    assert NextBatch(messages, g, count)[i - g.lastDelivered - 1] == messages[i];
  }

  lemma DeliverMoves(messages: seq<Message>, g: Group, consumer: string, count: int, now: int)
    requires CursorOk(messages, g)
    ensures Deliver(messages, g, consumer, count, now).lastDelivered == g.lastDelivered + |NextBatch(messages, g, count)|
  {
  }

  lemma DeliverKeepsCarried(r: Repo, messages: seq<Message>, serial: nat, g: Group, consumer: string, count: int, now: int, e: EventId)
    requires LogOk(messages, serial) && GroupOk(messages, g) && Carried(r, messages, g, e)
    ensures Carried(r, messages, Deliver(messages, g, consumer, count, now), e)
  {
    assert CursorOk(messages, g);
    hide Deliver, NextBatch, LogOk, GroupOk, CursorOk, ByRecord;
    DeliverMoves(messages, g, consumer, count, now);
    var g' := Deliver(messages, g, consumer, count, now);
    if ByMessage(messages, g.lastDelivered, e) {
      var i :| g.lastDelivered < i < |messages| && 0 <= i && messages[i].eventId == e;
      if i <= g'.lastDelivered {
        NextMessageIsInBatch(messages, g, count, i);
        DeliveredIsPending(messages, serial, g, consumer, count, now, messages[i]);
        assert ByEntry(g', e);
      } else {
        assert ByMessage(messages, g'.lastDelivered, e);
      }
    } else if ByEntry(g, e) {
      PendingIsKeyed(messages, g);
      var id :| id in g.pending && g.pending[id].msg.eventId == e;
      DeliveredIsPending(messages, serial, g, consumer, count, now, g.pending[id].msg);
      assert ByEntry(g', e);
    }
  }

  lemma PendingIsKeyed(messages: seq<Message>, g: Group)
    requires GroupOk(messages, g)
    ensures forall id <- g.pending :: g.pending[id].msg.id == id
  {
  }

  lemma DeliverKeepsReady(r: Repo, messages: seq<Message>, serial: nat, g: Group, consumer: string, count: int, now: int)
    requires Ready(r, messages, g) && LogOk(messages, serial) && GroupOk(messages, g)
    ensures Ready(r, messages, Deliver(messages, g, consumer, count, now))
  {
    assert CursorOk(messages, g);
    hide StreamTraced, TenantsNamed, AllServiceable, Deliver, LogOk, GroupOk, CursorOk, Carried;
    forall e <- r.events
      ensures r.events[e].status == Pending ==> Carried(r, messages, Deliver(messages, g, consumer, count, now), e)
    {
      if r.events[e].status == Pending {
        DeliverKeepsCarried(r, messages, serial, g, consumer, count, now, e);
      }
    }
  }

  /** Forgetting entries whose events are past PENDING loses nothing. */
  lemma ForgetKeepsCarried(r: Repo, messages: seq<Message>, g: Group, ids: seq<MessageId>, e: EventId)
    requires Carried(r, messages, g, e)
    requires forall id <- ids :: id in g.pending ==> g.pending[id].msg.eventId != e
    ensures Carried(r, messages, Forget(g, ids), e)
  {
    if ByEntry(g, e) {
      var id :| id in g.pending && g.pending[id].msg.eventId == e;
      assert id in Forget(g, ids).pending;
    }
  }

  lemma ForgetKeepsReady(r: Repo, messages: seq<Message>, g: Group, ids: seq<MessageId>)
    requires Ready(r, messages, g)
    requires forall id <- ids :: id in g.pending ==> g.pending[id].msg.eventId in r.events && r.events[g.pending[id].msg.eventId].status != Pending
    ensures Ready(r, messages, Forget(g, ids))
  {
    hide StreamTraced, TenantsNamed, AllServiceable, Carried, Forget;
    forall e <- r.events
      ensures r.events[e].status == Pending ==> Carried(r, messages, Forget(g, ids), e)
    {
      if r.events[e].status == Pending {
        ForgetKeepsCarried(r, messages, g, ids, e);
      }
    }
  }

  lemma ClaimKeepsCarried(r: Repo, messages: seq<Message>, g: Group, ids: seq<MessageId>, consumer: string, now: int, e: EventId)
    requires Carried(r, messages, g, e)
    ensures Carried(r, messages, Queue.Claim(g, ids, consumer, now), e)
  {
    if ByEntry(g, e) {
      var id :| id in g.pending && g.pending[id].msg.eventId == e;
      assert Queue.Claim(g, ids, consumer, now).pending[id].msg.eventId == e;
    }
  }

  lemma ClaimKeepsReady(r: Repo, messages: seq<Message>, g: Group, ids: seq<MessageId>, consumer: string, now: int)
    requires Ready(r, messages, g)
    ensures Ready(r, messages, Queue.Claim(g, ids, consumer, now))
  {
    hide StreamTraced, TenantsNamed, AllServiceable, Carried, Queue.Claim;
    forall e <- r.events
      ensures r.events[e].status == Pending ==> Carried(r, messages, Queue.Claim(g, ids, consumer, now), e)
    {
      if r.events[e].status == Pending {
        ClaimKeepsCarried(r, messages, g, ids, consumer, now, e);
      }
    }
  }

  lemma IdListed(ms: seq<Message>)
    ensures forall id <- IdList(ms) :: exists m <- ms :: m.id == id
    ensures forall m <- ms :: m.id in IdList(ms)
  {
    forall m <- ms
      ensures m.id in IdList(ms)
    {
      var i :| 0 <= i < |ms| && ms[i] == m;
      assert IdList(ms)[i] == m.id;
    }
  }

  // ---------------------------------------------------------------------------------------
  // The queue's side of a turn
  // ---------------------------------------------------------------------------------------

  function GroupIn(q: Streams, sn: string, gn: string): Group {
    GroupOf(StreamOf(q, sn), gn)
  }

  function MessagesIn(q: Streams, sn: string): seq<Message> {
    StreamOf(q, sn).messages
  }

  lemma ReadThenAck(q: Streams, sn: string, gn: string, consumer: string, count: int, now: int, ids: seq<MessageId>)
    requires CursorOk(MessagesIn(q, sn), GroupIn(q, sn, gn))
    ensures var q' := Queue.AckEvent(Queue.ReadEvents(q, sn, gn, consumer, count, now).0, sn, gn, ids);
            MessagesIn(q', sn) == MessagesIn(q, sn) && GroupIn(q', sn, gn) == Forget(Deliver(MessagesIn(q, sn), GroupIn(q, sn, gn), consumer, count, now), ids)
  {
    hide Deliver, NextBatch, Forget;
  }

  lemma ClaimThenAck(q: Streams, sn: string, gn: string, claimed: seq<Message>, acked: seq<Message>, now: int)
    ensures var q' := AfterRecovery(q, sn, gn, claimed, acked, now);
            MessagesIn(q', sn) == MessagesIn(q, sn)
            && GroupIn(q', sn, gn) == Forget(Queue.Claim(GroupIn(q, sn, gn), IdList(claimed), "pel-auto-reclaimer", now), IdList(acked))
  {
    assert Forget(Queue.Claim(NEW_GROUP, IdList(claimed), "pel-auto-reclaimer", now), IdList(acked)) == NEW_GROUP;
    hide Queue.Claim, Forget;
  }

  // ---------------------------------------------------------------------------------------
  // Working to the end of the stream
  // ---------------------------------------------------------------------------------------

  /** Entries only disappear. */
  ghost predicate Shrunk(g: Group, g': Group) {
    forall id <- g'.pending :: id in g.pending && g'.pending[id] == g.pending[id]
  }

  lemma TurnKeepsReady(r: Repo, r': Repo, messages: seq<Message>, serial: nat, g: Group, consumer: string, count: int, now: int)
    requires Ready(r, messages, g) && LogOk(messages, serial) && GroupOk(messages, g)
    requires var batch := NextBatch(messages, g, count); Handled(r, r', batch, batch)
    ensures var batch := NextBatch(messages, g, count);
            var g' := Forget(Deliver(messages, g, consumer, count, now), IdList(batch));
            && Ready(r', messages, g') && Shrunk(g, g') && PendingIds(r') == PendingIds(r)
            && g'.lastDelivered == g.lastDelivered + |batch|
  {
    var batch := NextBatch(messages, g, count);
    var g1 := Deliver(messages, g, consumer, count, now);
    EnrollAdds(g.pending, batch, consumer, now);
    IdListed(batch);
    hide Ready, Handled, Enroll, IdList, PendingIds, LogOk;
    DeliverKeepsReady(r, messages, serial, g, consumer, count, now);
    HandledKeepsReady(r, r', messages, g1, batch, batch);
    DoneIsFinal(r, r', messages, g1, batch, batch);
    ForgetKeepsReady(r', messages, g1, IdList(batch));
  }

  lemma TickKeepsReady(r: Repo, r': Repo, messages: seq<Message>, g: Group, minIdle: int, count: int, claimed: seq<Message>, now: int)
    requires Ready(r, messages, g) && GroupOk(messages, g) && IsClaim(g, minIdle, count, now, claimed) && Handled(r, r', claimed, claimed)
    ensures var g' := Forget(Queue.Claim(g, IdList(claimed), "pel-auto-reclaimer", now), IdList(claimed));
            && Ready(r', messages, g') && Shrunk(g, g') && PendingIds(r') == PendingIds(r)
            && g'.lastDelivered == g.lastDelivered && g'.pending.Keys == g.pending.Keys - (set id <- IdList(claimed))
  {
    var g1 := Queue.Claim(g, IdList(claimed), "pel-auto-reclaimer", now);
    IdListed(claimed);
    hide Ready, Handled, IdList, PendingIds, ClaimChoice;
    ClaimKeepsReady(r, messages, g, IdList(claimed), "pel-auto-reclaimer", now);
    HandledKeepsReady(r, r', messages, g1, claimed, claimed);
    forall m <- claimed
      ensures m in messages
    {
      assert g.pending[m.id].msg == m;
    }
    DoneIsFinal(r, r', messages, g1, claimed, claimed);
    ForgetKeepsReady(r', messages, g1, IdList(claimed));
  }

  // ---------------------------------------------------------------------------------------
  // The three phases
  // ---------------------------------------------------------------------------------------

  /** The state of a pool between two turns, seen from its group. */
  ghost predicate Draining(r: Repo, q: Streams, sn: string, gn: string, messages: seq<Message>, g0: Group) {
    && PendingIds(r) == {}
    && MessagesIn(q, sn) == messages && Ready(r, messages, GroupIn(q, sn, gn))
    && Shrunk(g0, GroupIn(q, sn, gn))
  }

  lemma StreamsOkIn(q: Streams, sn: string, gn: string)
    requires StreamsOk(q)
    ensures LogOk(MessagesIn(q, sn), q.serial) && GroupOk(MessagesIn(q, sn), GroupIn(q, sn, gn))
  {
    StreamOfOk(q, sn);
  }

  lemma TurnKeepsDraining(r: Repo, q: Streams, r': Repo, q': Streams, sn: string, gn: string,
                          messages: seq<Message>, g0: Group, consumer: string, count: nat, now: int)
    requires StreamsOk(q) && Draining(r, q, sn, gn, messages, g0) && CursorOk(messages, GroupIn(q, sn, gn)) && count > 0
    requires var (q1, batch) := Queue.ReadEvents(q, sn, gn, consumer, count, now);
             q' == Queue.AckEvent(q1, sn, gn, IdList(batch)) && Handled(r, r', batch, batch)
    ensures Draining(r', q', sn, gn, messages, g0)
    ensures var (g, g') := (GroupIn(q, sn, gn), GroupIn(q', sn, gn));
            var n, left := |Queue.ReadEvents(q, sn, gn, consumer, count, now).1|, |messages| - 1 - g.lastDelivered;
            n == (if count < left then count else left) && g'.lastDelivered == g.lastDelivered + n < |messages|
  {
    hide *;
    DrainingIs(r, q, sn, gn, messages, g0);
    StreamsOkIn(q, sn, gn);
    var g := GroupIn(q, sn, gn);
    ReadIs(q, sn, gn, consumer, count, now);
    var batch := NextBatch(messages, g, count);
    NextBatchEnds(messages, g, count);
    BatchIs(messages, g, count);
    ReadThenAck(q, sn, gn, consumer, count, now, IdList(batch));
    TurnKeepsReady(r, r', messages, q.serial, g, consumer, count, now);
    ShrunkTwice(g0, g, GroupIn(q', sn, gn));
    DrainingIs(r', q', sn, gn, messages, g0);
  }

  lemma ReadIs(q: Streams, sn: string, gn: string, consumer: string, count: int, now: int)
    requires CursorOk(MessagesIn(q, sn), GroupIn(q, sn, gn))
    ensures CursorOk(StreamOf(q, sn).messages, GroupOf(StreamOf(q, sn), gn))
    ensures Queue.ReadEvents(q, sn, gn, consumer, count, now).1 == NextBatch(MessagesIn(q, sn), GroupIn(q, sn, gn), count)
  {
  }

  lemma NextBatchEnds(messages: seq<Message>, g: Group, count: int)
    requires CursorOk(messages, g)
    ensures var batch := NextBatch(messages, g, count);
            g.lastDelivered + |batch| < |messages| && (batch == [] ==> g.lastDelivered == |messages| - 1)
  {
  }

  lemma DrainingIs(r: Repo, q: Streams, sn: string, gn: string, messages: seq<Message>, g0: Group)
    ensures Draining(r, q, sn, gn, messages, g0) <==>
            PendingIds(r) == {} && MessagesIn(q, sn) == messages && Ready(r, messages, GroupIn(q, sn, gn)) && Shrunk(g0, GroupIn(q, sn, gn))
  {
  }

  lemma ShrunkTwice(a: Group, b: Group, c: Group)
    requires Shrunk(a, b) && Shrunk(b, c)
    ensures Shrunk(a, c)
  {
  }

  lemma {:induction false} DistinctSize(ids: seq<MessageId>)
    requires Distinct(ids)
    ensures |(set id <- ids)| == |ids|
  {
    if ids == [] {
      assert (set id <- ids) == {};
    } else {
      var init := ids[..|ids| - 1];
      DistinctSize(init);
      assert (set id <- ids) == (set id <- init) + {ids[|ids| - 1]};
    }
  }

  /** A tick over idle entries takes a full batch of them, or all that are left. */
  lemma TickTakesBatch(g: Group, g': Group, minIdle: int, count: nat, now: int, ids: seq<MessageId>)
    requires ClaimChoice(g, minIdle, count, now, ids) && count > 0
    requires forall id <- g.pending :: Idle(g, id, minIdle, now)
    requires g'.pending.Keys == g.pending.Keys - (set id <- ids)
    ensures |ids| == Min(count, |g.pending.Keys|) && |g'.pending.Keys| == |g.pending.Keys| - |ids|
  {
    DistinctSize(ids);
    var taken := set id <- ids;
    assert taken <= g.pending.Keys;
    assert |g.pending.Keys| == |taken| + |g.pending.Keys - taken| by { SplitSize(g.pending.Keys, taken); }
    if |ids| < count {
      assert g.pending.Keys == taken;
    }
  }

  lemma SplitSize(all: set<MessageId>, part: set<MessageId>)
    requires part <= all
    ensures |all| == |part| + |all - part|
  {
    assert all == part + (all - part);
  }

  lemma TickKeepsDraining(r: Repo, q: Streams, r': Repo, q': Streams, sn: string, gn: string,
                          messages: seq<Message>, g0: Group, minIdle: int, count: nat, claimed: seq<Message>, now: int)
    requires StreamsOk(q) && Draining(r, q, sn, gn, messages, g0) && count > 0
    requires IsClaim(GroupIn(q, sn, gn), minIdle, count, now, claimed) && forall id <- GroupIn(q, sn, gn).pending :: Idle(GroupIn(q, sn, gn), id, minIdle, now)
    requires q' == AfterRecovery(q, sn, gn, claimed, claimed, now) && Handled(r, r', claimed, claimed)
    ensures var (g, g') := (GroupIn(q, sn, gn), GroupIn(q', sn, gn));
            && Draining(r', q', sn, gn, messages, g0)
            && g'.lastDelivered == g.lastDelivered && Shrunk(g, g')
            && |claimed| == Min(count, |g.pending.Keys|) && |g'.pending.Keys| == |g.pending.Keys| - |claimed|
  {
    hide *;
    DrainingIs(r, q, sn, gn, messages, g0);
    StreamsOkIn(q, sn, gn);
    var g := GroupIn(q, sn, gn);
    ClaimThenAck(q, sn, gn, claimed, claimed, now);
    TickKeepsReady(r, r', messages, g, minIdle, count, claimed, now);
    ShrunkTwice(g0, g, GroupIn(q', sn, gn));
    DrainingIs(r', q', sn, gn, messages, g0);
    ClaimIs(g, minIdle, count, now, claimed);
    TickTakesBatch(g, GroupIn(q', sn, gn), minIdle, count, now, IdList(claimed));
  }

  lemma ClaimIs(g: Group, minIdle: int, count: int, now: int, claimed: seq<Message>)
    requires IsClaim(g, minIdle, count, now, claimed)
    ensures ClaimChoice(g, minIdle, count, now, IdList(claimed)) && |IdList(claimed)| == |claimed|
  {
  }

  lemma MessagesAre(q: Streams, sn: string, gn: string)
    ensures MessagesIn(q, sn) == StreamOf(q, sn).messages && GroupIn(q, sn, gn) == GroupOf(StreamOf(q, sn), gn)
  {
  }

  /** `ticks` is `n` divided by `count`, rounded up. */
  predicate IsCeiling(ticks: nat, n: nat, count: nat) {
    n <= ticks * count && (ticks > 0 ==> (ticks - 1) * count < n)
  }

  /** After `ticks` batches of `count`, all full but the last, `left` of `n` entries are left. */
  predicate TickedDown(n: nat, ticks: nat, count: nat, left: nat) {
    && (if ticks * count >= n then left == 0 else left == n - ticks * count)
    && (ticks > 0 ==> (ticks - 1) * count < n)
  }

  lemma OneMoreTick(n: nat, ticks: nat, count: nat, left: nat)
    requires TickedDown(n, ticks, count, left)
    ensures left > 0 && count > 0 ==> TickedDown(n, ticks + 1, count, left - Min(count, left))
    ensures left == 0 ==> IsCeiling(ticks, n, count)
  {
    assert (ticks + 1) * count == ticks * count + count;
  }

  lemma StillIdle(g: Group, g': Group, minIdle: int, since: int, now: int)
    requires Shrunk(g, g') && since <= now && forall id <- g.pending :: Idle(g, id, minIdle, since)
    ensures forall id <- g'.pending :: Idle(g', id, minIdle, now)
  {
  }

  /** One turn of a worker. */
  method Turn(ctx: Context, clock: Clock, pool: WorkerPool, ghost messages: seq<Message>, ghost g0: Group) returns (read: nat)
    requires pool.Valid() && !pool.flaky
    requires Draining(pool.repo.View(), pool.queue.View(), pool.streamName, pool.groupName, messages, g0)
    modifies pool.repo`attempts, pool.repo`events, pool.dispatcher.uuids, pool.dispatcher.client, pool.dispatcher.random, pool.queue, ctx, clock
    ensures pool.Valid() && (old(ctx.cancelled) ==> ctx.cancelled)
    ensures !ctx.cancelled ==>
              var g, g' := old(GroupIn(pool.queue.View(), pool.streamName, pool.groupName)), GroupIn(pool.queue.View(), pool.streamName, pool.groupName);
              && Draining(pool.repo.View(), pool.queue.View(), pool.streamName, pool.groupName, messages, g0)
              && g.lastDelivered < |messages| && read == Min(pool.batchSize, UnreadIn(messages, g)) && g'.lastDelivered == g.lastDelivered + read
  {
    hide Draining, Ready, CeilingKept, IdsBelow, StreamsOk, WellFormed, Handled, PendingIds, Queue.ReadEvents, Queue.AckEvent, GroupIn, MessagesIn, CursorOk, Shrunk;
    ghost var sn, gn, r, q := pool.streamName, pool.groupName, pool.repo.View(), pool.queue.View();
    var stop, batch; ghost var done, acked, works, seen, at;
    stop, batch, done, acked, works, seen, at := pool.WorkBatch(ctx, clock, "worker-0", false);
    if !ctx.cancelled {
      DrainingIs(r, q, sn, gn, messages, g0);
      MessagesAre(q, sn, gn);
      TurnKeepsDraining(r, q, pool.repo.View(), pool.queue.View(), sn, gn, messages, g0, "worker-0", pool.batchSize, at);
    }
    return |batch|;
  }

  /** One worker's turns until a read comes back empty: n unread messages take n/batch turns,
      rounded up, before that. */
  method WorkToEnd(ctx: Context, clock: Clock, pool: WorkerPool) returns (turns: nat)
    requires pool.Valid() && !pool.flaky && PendingIds(pool.repo.View()) == {}
    requires Ready(pool.repo.View(), MessagesIn(pool.queue.View(), pool.streamName), GroupIn(pool.queue.View(), pool.streamName, pool.groupName))
    modifies pool.repo`attempts, pool.repo`events, pool.dispatcher.uuids, pool.dispatcher.client, pool.dispatcher.random, pool.queue, ctx, clock
    ensures pool.Valid() && (old(ctx.cancelled) ==> ctx.cancelled)
    ensures !ctx.cancelled ==>
              && Draining(pool.repo.View(), pool.queue.View(), pool.streamName, pool.groupName,
                          old(MessagesIn(pool.queue.View(), pool.streamName)), old(GroupIn(pool.queue.View(), pool.streamName, pool.groupName)))
              && GroupIn(pool.queue.View(), pool.streamName, pool.groupName).lastDelivered == |old(MessagesIn(pool.queue.View(), pool.streamName))| - 1
              && IsCeiling(turns, UnreadIn(old(MessagesIn(pool.queue.View(), pool.streamName)),
                                           old(GroupIn(pool.queue.View(), pool.streamName, pool.groupName))), pool.batchSize)
  {
    hide *;
    PoolHasBatch(pool);
    ghost var sn, gn, count := pool.streamName, pool.groupName, pool.batchSize;
    ghost var messages, g0 := MessagesIn(pool.queue.View(), sn), GroupIn(pool.queue.View(), sn, gn);
    ShrunkNot(g0);
    DrainingIs(pool.repo.View(), pool.queue.View(), sn, gn, messages, g0);
    ghost var n := UnreadIn(messages, g0);
    turns := 0;
    NoTickYet(n, count);
    var stop := ctx.Err();
    var atEnd := false;
    while !stop && !atEnd
      invariant pool.Valid() && stop == ctx.cancelled && (old(ctx.cancelled) ==> ctx.cancelled)
      invariant !stop ==>
                  && Draining(pool.repo.View(), pool.queue.View(), sn, gn, messages, g0)
                  && TickedDown(n, turns, count, UnreadIn(messages, GroupIn(pool.queue.View(), sn, gn)))
      invariant !stop && atEnd ==> GroupIn(pool.queue.View(), sn, gn).lastDelivered == |messages| - 1
      decreases !stop, !atEnd, |messages| - GroupIn(pool.queue.View(), sn, gn).lastDelivered
    {
      ghost var g := GroupIn(pool.queue.View(), sn, gn);
      OneMoreTick(n, turns, count, UnreadIn(messages, g));
      UnreadIs(messages, g);
      MinIs(count, UnreadIn(messages, g));
      var read := Turn(ctx, clock, pool, messages, g0);
      UnreadIs(messages, GroupIn(pool.queue.View(), sn, gn));
      atEnd := read == 0;
      if !atEnd {
        turns := turns + 1;
      }
      stop := ctx.Err();
    }
    if !stop {
      UnreadIs(messages, GroupIn(pool.queue.View(), sn, gn));
      OneMoreTick(n, turns, count, 0);
    }
  }

  /** The messages past the group's cursor. */
  function UnreadIn(messages: seq<Message>, g: Group): nat {
    if g.lastDelivered < |messages| then |messages| - 1 - g.lastDelivered else 0
  }

  lemma UnreadIs(messages: seq<Message>, g: Group)
    ensures g.lastDelivered < |messages| ==> UnreadIn(messages, g) == |messages| - 1 - g.lastDelivered
  {
  }

  /** One tick of the reclaimer at a time when all entries are idle. */
  method Tick(ctx: Context, pool: WorkerPool, later: int, ghost messages: seq<Message>, ghost g0: Group) returns (claimed: nat)
    requires pool.Valid() && !pool.flaky
    requires Draining(pool.repo.View(), pool.queue.View(), pool.streamName, pool.groupName, messages, g0)
    requires forall id <- g0.pending :: Idle(g0, id, pool.minIdle, later)
    modifies pool, pool.repo`attempts, pool.repo`events, pool.dispatcher.uuids, pool.dispatcher.client, pool.dispatcher.random, pool.queue, ctx
    ensures pool.Valid() && (old(ctx.cancelled) ==> ctx.cancelled)
    ensures !ctx.cancelled ==>
              var g, g' := old(GroupIn(pool.queue.View(), pool.streamName, pool.groupName)), GroupIn(pool.queue.View(), pool.streamName, pool.groupName);
              && Draining(pool.repo.View(), pool.queue.View(), pool.streamName, pool.groupName, messages, g0)
              && g'.lastDelivered == g.lastDelivered
              && claimed == Min(pool.batchSize, |g.pending.Keys|) && |g'.pending.Keys| == |g.pending.Keys| - claimed
  {
    hide Draining, Ready, CeilingKept, IdsBelow, StreamsOk, WellFormed, Handled, PendingIds, AfterRecovery,
      GroupIn, MessagesIn, Shrunk, IsClaim, Idle, ClaimedOnceMore;
    ghost var sn, gn, r, q := pool.streamName, pool.groupName, pool.repo.View(), pool.queue.View();
    var now: int := *;
    if now < later {
      now := later;
    }
    DrainingIs(r, q, sn, gn, messages, g0);
    StillIdle(g0, GroupIn(q, sn, gn), pool.minIdle, later, now);
    MessagesAre(q, sn, gn);
    var stop, batch; ghost var done, acked, works;
    stop, batch, done, acked, works := pool.RecoverPass(ctx, now);
    if !ctx.cancelled {
      TickKeepsDraining(r, q, pool.repo.View(), pool.queue.View(), sn, gn, messages, g0, pool.minIdle, pool.batchSize, batch, now);
    }
    return |batch|;
  }

  /** The reclaimer's ticks until one finds nothing to claim, at any times after all entries
      have become idle: n entries take n/batch ticks, rounded up. */
  method ReclaimAll(ctx: Context, pool: WorkerPool, later: int) returns (ticks: nat)
    requires pool.Valid() && !pool.flaky && PendingIds(pool.repo.View()) == {}
    requires Ready(pool.repo.View(), MessagesIn(pool.queue.View(), pool.streamName), GroupIn(pool.queue.View(), pool.streamName, pool.groupName))
    requires var g := GroupIn(pool.queue.View(), pool.streamName, pool.groupName);
             forall id <- g.pending :: Idle(g, id, pool.minIdle, later)
    modifies pool, pool.repo`attempts, pool.repo`events, pool.dispatcher.uuids, pool.dispatcher.client, pool.dispatcher.random, pool.queue, ctx
    ensures pool.Valid() && (old(ctx.cancelled) ==> ctx.cancelled)
    ensures !ctx.cancelled ==>
              var g0 := old(GroupIn(pool.queue.View(), pool.streamName, pool.groupName));
              var g := GroupIn(pool.queue.View(), pool.streamName, pool.groupName);
              && Draining(pool.repo.View(), pool.queue.View(), pool.streamName, pool.groupName, old(MessagesIn(pool.queue.View(), pool.streamName)), g0)
              && g.lastDelivered == g0.lastDelivered && g.pending.Keys == {}
              && IsCeiling(ticks, |g0.pending.Keys|, pool.batchSize)
  {
    hide *;
    PoolHasBatch(pool);
    ghost var sn, gn, count := pool.streamName, pool.groupName, pool.batchSize;
    ghost var messages, g0 := MessagesIn(pool.queue.View(), sn), GroupIn(pool.queue.View(), sn, gn);
    ShrunkNot(g0);
    DrainingIs(pool.repo.View(), pool.queue.View(), sn, gn, messages, g0);
    ghost var n := |g0.pending.Keys|;
    ticks := 0;
    NoTickYet(n, count);
    var stop := ctx.Err();
    var empty := false;
    while !stop && !empty
      invariant pool.Valid() && stop == ctx.cancelled && (old(ctx.cancelled) ==> ctx.cancelled)
      invariant !stop ==>
                  && Draining(pool.repo.View(), pool.queue.View(), sn, gn, messages, g0)
                  && GroupIn(pool.queue.View(), sn, gn).lastDelivered == g0.lastDelivered
                  && TickedDown(n, ticks, count, |GroupIn(pool.queue.View(), sn, gn).pending.Keys|)
      invariant !stop && empty ==> |GroupIn(pool.queue.View(), sn, gn).pending.Keys| == 0
      decreases !stop, !empty, |GroupIn(pool.queue.View(), sn, gn).pending.Keys|
    {
      ghost var left := |GroupIn(pool.queue.View(), sn, gn).pending.Keys|;
      OneMoreTick(n, ticks, count, left);
      MinIs(count, left);
      var claimed := Tick(ctx, pool, later, messages, g0);
      empty := claimed == 0;
      if !empty {
        ticks := ticks + 1;
      }
      stop := ctx.Err();
    }
    if !stop {
      OneMoreTick(n, ticks, count, 0);
    }
  }

  lemma PoolHasBatch(pool: WorkerPool)
    requires pool.Valid()
    ensures pool.batchSize > 0
  {
  }

  lemma ShrunkNot(g: Group)
    ensures Shrunk(g, g)
  {
  }

  lemma NoTickYet(n: nat, count: nat)
    ensures TickedDown(n, 0, count, n)
  {
  }

  lemma MinIs(a: nat, b: nat)
    ensures Min(a, b) <= b && (Min(a, b) == 0 <==> a == 0 || b == 0)
  {
  }

  /** Nothing is in flight and every event has been delivered or given up. */
  ghost predicate Quiet(r: Repo, messages: seq<Message>, g: Group) {
    && PendingIds(r) == {}
    && g.lastDelivered == |messages| - 1 && g.pending.Keys == {}
    && forall e <- r.events :: r.events[e].status == Delivered || r.events[e].status == DLQ
  }

  lemma NothingLeftIsQuiet(r: Repo, messages: seq<Message>, g: Group)
    requires WellFormed(r) && Ready(r, messages, g) && PendingIds(r) == {} && g.lastDelivered == |messages| - 1 && g.pending.Keys == {}
    ensures Quiet(r, messages, g)
  {
    hide StreamTraced, TenantsNamed, AllServiceable;
    hide Carried, PendingIds;
    forall e <- r.events
      ensures r.events[e].status == Delivered || r.events[e].status == DLQ
    {
      NothingCarries(r, messages, g, e);
    }
  }

  lemma NothingCarries(r: Repo, messages: seq<Message>, g: Group, e: EventId)
    requires PendingIds(r) == {} && g.lastDelivered == |messages| - 1 && g.pending.Keys == {}
    ensures !Carried(r, messages, g, e)
  {
    assert forall o <- r.outbox :: o !in PendingIds(r);
  }

  lemma SameAttemptsBelow(r: Repo, r': Repo, next: nat)
    requires IdsBelow(r, next) && r'.attempts == r.attempts
    ensures IdsBelow(r', next)
  {
  }

  /** From every ready state, so by `ReachableIsReady` from every state the pipeline can reach:
      unless it is cancelled, a relay's drain, a worker's turns and the reclaimer's ticks end
      with no PENDING record, a fully read stream, no pending entry, and every event DELIVERED
      or in the DLQ, whatever the endpoints answer. */
  method Quiesce(ctx: Context, clock: Clock, relay: Relays.Relay, pool: WorkerPool, relayBatch: int, later: int)
    returns (ticks: nat, ghost drained: seq<OutboxRecord>, ghost added: seq<Message>)
    requires relay.repo == pool.repo && relay.queue == pool.queue && relay.streamName == pool.streamName
    requires pool.Valid() && !pool.flaky
    requires Ready(pool.repo.View(), MessagesIn(pool.queue.View(), pool.streamName), GroupIn(pool.queue.View(), pool.streamName, pool.groupName))
    requires var g := GroupIn(pool.queue.View(), pool.streamName, pool.groupName);
             forall id <- g.pending :: Idle(g, id, pool.minIdle, later)
    modifies pool, pool.repo`outboxEvents, pool.repo`attempts, pool.repo`events, pool.queue, ctx, clock
    modifies pool.dispatcher.uuids, pool.dispatcher.client, pool.dispatcher.random
    ensures !ctx.cancelled ==>
              && pool.Valid()
              && Quiet(pool.repo.View(), MessagesIn(pool.queue.View(), pool.streamName), GroupIn(pool.queue.View(), pool.streamName, pool.groupName))
              && MessagesIn(pool.queue.View(), pool.streamName) == old(MessagesIn(pool.queue.View(), pool.streamName)) + added
              && RecordIds(drained) == old(PendingIds(pool.repo.View())) && |added| == |drained|
  {
    hide Draining, Ready, CeilingKept, IdsBelow, StreamsOk, WellFormed, PendingIds, GroupIn, MessagesIn, Shrunk, Idle, FullyDrained, Quiet;
    ghost var sn, gn, r0, q0 := pool.streamName, pool.groupName, pool.repo.View(), pool.queue.View();
    StreamsOkIn(q0, sn, gn);
    ticks := 0;
    var failed;
    failed, drained, added := relay.Drain(ctx, relayBatch);
    if ctx.cancelled {
      return;
    }
    RelayedIsReady(r0, q0, pool.repo.View(), pool.queue.View(), sn, gn, drained, added);
    SameAttemptsBelow(r0, pool.repo.View(), pool.dispatcher.uuids.next);
    ghost var q1 := pool.queue.View();
    var turns := WorkToEnd(ctx, clock, pool);
    if ctx.cancelled {
      return;
    }
    ghost var q2 := pool.queue.View();
    DrainingIs(pool.repo.View(), q2, sn, gn, MessagesIn(q1, sn), GroupIn(q1, sn, gn));
    StillIdle(GroupIn(q1, sn, gn), GroupIn(q2, sn, gn), pool.minIdle, later, later);
    ticks := ReclaimAll(ctx, pool, later);
    if ctx.cancelled {
      return;
    }
    DrainingIs(pool.repo.View(), pool.queue.View(), sn, gn, MessagesIn(q2, sn), GroupIn(q2, sn, gn));
    NothingLeftIsQuiet(pool.repo.View(), MessagesIn(q2, sn), GroupIn(pool.queue.View(), sn, gn));
  }

  lemma RelayedIsReady(r0: Repo, q0: Streams, r: Repo, q: Streams, sn: string, gn: string, drained: seq<OutboxRecord>, added: seq<Message>)
    requires WellFormed(r0) && GroupOk(MessagesIn(q0, sn), GroupIn(q0, sn, gn))
    requires Ready(r0, MessagesIn(q0, sn), GroupIn(q0, sn, gn)) && FullyDrained(r0, q0, r, q, sn, drained, added)
    ensures WellFormed(r) && Ready(r, MessagesIn(q, sn), GroupIn(q, sn, gn)) && PendingIds(r) == {}
    ensures MessagesIn(q, sn) == MessagesIn(q0, sn) + added && GroupIn(q, sn, gn) == GroupIn(q0, sn, gn)
    ensures RecordIds(drained) == PendingIds(r0) && |added| == |drained|
  {
    assert Grew(q0, q, sn, added) && Carries(r0, drained, added);
    hide Ready, WellFormed, PendingIds;
    DrainKeepsReady(r0, q0, r, q, sn, gn, drained, added);
  }
}
