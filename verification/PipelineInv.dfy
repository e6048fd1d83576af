/** What every step of the pipeline keeps. */
module PipelineInv {
  import opened Domain
  import opened Storage
  import opened Queue
  import opened Delivery
  import opened Pipeline

  ghost predicate RepoOk(r: Repo) {
    && WellFormed(r)
    && (forall e <- r.events :: r.events[e].tenantId != "")
    && (forall o <- r.outbox :: r.outbox[o].status != OutboxFailed)
  }

  /** An event's generation is its latest outbox record. */
  ghost predicate GenOk(r: Repo, gen: map<EventId, nat>) {
    && gen.Keys == r.events.Keys
    && (forall e <- gen :: gen[e] in r.outbox && r.outbox[gen[e]].eventId == e)
    && (forall o <- r.outbox :: r.outbox[o].eventId in gen && o <= gen[r.outbox[o].eventId])
  }

  /** Message i+1 was published from record `origins[i]` and carries that record's event. */
  ghost predicate LogTraced(r: Repo, log: seq<Message>, origins: seq<nat>) {
    && |origins| == |log|
    && (forall i | 0 <= i < |log| ::
          && log[i].id.serial == i + 1
          && log[i].eventId in r.events && log[i].tenantId == r.events[log[i].eventId].tenantId
          && origins[i] in r.outbox && r.outbox[origins[i]].eventId == log[i].eventId)
  }

  predicate HandedOut(log: seq<Message>, last: int, m: Message) {
    var i := m.id.serial - 1;
    0 <= i <= last && i < |log| && log[i] == m
  }

  ghost predicate PelOk(log: seq<Message>, g: Group) {
    && CursorOk(log, g)
    && (forall id <- g.pending :: g.pending[id].msg.id == id && HandedOut(log, g.lastDelivered, g.pending[id].msg))
  }

  /** At every crash point, a PUBLISHED record has a message in the stream. */
  ghost predicate PublishedOk(r: Repo, origins: seq<nat>) {
    forall o <- r.outbox :: r.outbox[o].status == OutboxPending || o in origins
  }

  ghost predicate RelayOk(r: Repo, origins: seq<nat>, relay: Relay) {
    && (forall ob <- relay.todo :: ob.id in r.outbox && r.outbox[ob.id].eventId == ob.eventId)
    && (relay.Marking? && relay.todo != [] ==> relay.todo[0].id in origins)
  }

  ghost predicate RelaysOk(r: Repo, origins: seq<nat>, relays: map<nat, Relay>) {
    forall x <- relays :: RelayOk(r, origins, relays[x])
  }

  /** The message has nothing left to deliver: its event is past PENDING, or was made PENDING
      again by a later record than the one the message came from. */
  predicate Settled(r: Repo, gen: map<EventId, nat>, origins: seq<nat>, m: Message) {
    && m.eventId in r.events && m.eventId in gen && 1 <= m.id.serial <= |origins|
    && (r.events[m.eventId].status != Pending || gen[m.eventId] > origins[m.id.serial - 1])
  }

  predicate Wrote(stage: Stage) {
    match stage
    case Calling(_, _, wrote) => wrote
    case Answered(_, _, wrote, _) => wrote
    case Writing(_, wrote, _) => wrote
    case Finishing(wrote) => wrote
    case _ => false
  }

  ghost predicate ConsumerOk(r: Repo, gen: map<EventId, nat>, log: seq<Message>, origins: seq<nat>, last: int, con: Consumer) {
    && (forall m <- con.todo :: HandedOut(log, last, m))
    && (con.todo != [] && Wrote(con.stage) ==> Settled(r, gen, origins, con.todo[0]))
    && (con.stage.Writing? ==> con.stage.verdict == Delivered || con.stage.verdict == DLQ)
  }

  ghost predicate ConsumersOk(r: Repo, gen: map<EventId, nat>, log: seq<Message>, origins: seq<nat>, last: int, consumers: map<nat, Consumer>) {
    forall c <- consumers :: ConsumerOk(r, gen, log, origins, last, consumers[c])
  }

  /** A delivered message that is no longer pending was settled, or abandoned without a write. */
  ghost predicate Covered(r: Repo, gen: map<EventId, nat>, log: seq<Message>, origins: seq<nat>, g: Group, abandoned: set<MessageId>) {
    forall i | 0 <= i <= g.lastDelivered && i < |log| ::
      log[i].id in g.pending || log[i].id in abandoned || Settled(r, gen, origins, log[i])
  }

  ghost predicate Inv(s: System) {
    && RepoOk(s.repo) && GenOk(s.repo, s.gen)
    && LogTraced(s.repo, s.log, s.origins) && PelOk(s.log, s.group)
    && PublishedOk(s.repo, s.origins) && RelaysOk(s.repo, s.origins, s.relays)
    && ConsumersOk(s.repo, s.gen, s.log, s.origins, s.group.lastDelivered, s.consumers)
    && Covered(s.repo, s.gen, s.log, s.origins, s.group, s.abandoned)
  }

  // ---------------------------------------------------------------------------------------
  // Repository steps
  // ---------------------------------------------------------------------------------------

  /** Nothing disappears, generations grow, and only a fresh record makes an event PENDING. */
  ghost predicate Advance(r: Repo, gen: map<EventId, nat>, r': Repo, gen': map<EventId, nat>) {
    && (forall e <- r.events :: e in gen && e in r'.events && e in gen' && r'.events[e].tenantId == r.events[e].tenantId && gen'[e] >= gen[e])
    && (forall e <- r.events :: r'.events[e].status == Pending ==> r.events[e].status == Pending || gen'[e] > r.nextOutboxID)
    && (forall o <- r.outbox :: o in r'.outbox && r'.outbox[o].eventId == r.outbox[o].eventId)
  }

  lemma SettledStays(r: Repo, gen: map<EventId, nat>, r': Repo, gen': map<EventId, nat>, log: seq<Message>, origins: seq<nat>, m: Message)
    requires Advance(r, gen, r', gen') && RepoOk(r) && LogTraced(r, log, origins)
    requires Settled(r, gen, origins, m)
    ensures Settled(r', gen', origins, m)
  {
    assert origins[m.id.serial - 1] in r.outbox;
  }

  lemma AdvanceKeepsTraces(s: System, r': Repo, gen': map<EventId, nat>)
    requires Inv(s) && Advance(s.repo, s.gen, r', gen')
    ensures LogTraced(r', s.log, s.origins) && RelaysOk(r', s.origins, s.relays)
  {
    hide Covered, ConsumersOk, PelOk, PublishedOk, RepoOk, GenOk;
    assert forall x <- s.relays :: RelayOk(s.repo, s.origins, s.relays[x]);
  }

  lemma AdvanceKeepsConsumers(s: System, r': Repo, gen': map<EventId, nat>)
    requires Inv(s) && Advance(s.repo, s.gen, r', gen')
    ensures ConsumersOk(r', gen', s.log, s.origins, s.group.lastDelivered, s.consumers)
  {
    hide Covered, PelOk, PublishedOk, RepoOk, GenOk, RelaysOk, Advance, LogTraced, Settled, HandedOut, Wrote;
    forall c <- s.consumers
      ensures ConsumerOk(r', gen', s.log, s.origins, s.group.lastDelivered, s.consumers[c])
    {
      var con := s.consumers[c];
      assert ConsumerOk(s.repo, s.gen, s.log, s.origins, s.group.lastDelivered, con);
      if con.todo != [] && Wrote(con.stage) {
        SettledStays(s.repo, s.gen, r', gen', s.log, s.origins, con.todo[0]);
      }
    }
  }

  lemma AdvanceKeepsCovered(s: System, r': Repo, gen': map<EventId, nat>)
    requires Inv(s) && Advance(s.repo, s.gen, r', gen')
    ensures Covered(r', gen', s.log, s.origins, s.group, s.abandoned)
  {
    hide PelOk, PublishedOk, RepoOk, GenOk, RelaysOk, Advance, LogTraced, Settled, ConsumersOk;
    forall i | 0 <= i <= s.group.lastDelivered && i < |s.log|
      ensures s.log[i].id in s.group.pending || s.log[i].id in s.abandoned || Settled(r', gen', s.origins, s.log[i])
    {
      if Settled(s.repo, s.gen, s.origins, s.log[i]) {
        SettledStays(s.repo, s.gen, r', gen', s.log, s.origins, s.log[i]);
      }
    }
  }

  /** A repository step that advances keeps the invariant. */
  lemma AdvanceKeepsInv(s: System, r': Repo, gen': map<EventId, nat>)
    requires Inv(s) && GoodStep(s.repo, s.gen, r', gen', s.origins)
    ensures Inv(s.(repo := r', gen := gen'))
  {
    AdvanceKeepsTraces(s, r', gen');
    AdvanceKeepsConsumers(s, r', gen');
    AdvanceKeepsCovered(s, r', gen');
    hide PelOk, PublishedOk, RepoOk, GenOk, RelaysOk, Advance, LogTraced, ConsumersOk, Covered;
  }

  /** Which repositories a step may lead to, given that the messages so far came from `origins`. */
  ghost predicate GoodStep(r: Repo, gen: map<EventId, nat>, r': Repo, gen': map<EventId, nat>, origins: seq<nat>) {
    Advance(r, gen, r', gen') && RepoOk(r') && GenOk(r', gen') && PublishedOk(r', origins)
  }

  ghost predicate Good(r: Repo, gen: map<EventId, nat>, origins: seq<nat>) {
    RepoOk(r) && GenOk(r, gen) && PublishedOk(r, origins)
  }

  // Creation

  lemma CreatedAdvances(r: Repo, gen: map<EventId, nat>, r': Repo, e: Event, o: nat)
    requires RepoOk(r) && GenOk(r, gen) && Created(r, r', e, o)
    ensures Advance(r, gen, r', gen[e.id := o])
  {
    assert gen.Keys == r.events.Keys;
    FreshOutboxId(r);
    hide RepoOk, GenOk;
    assert forall x <- r.events :: x in r'.events && r'.events[x] == r.events[x];
    assert forall p <- r.outbox :: p in r'.outbox && r'.outbox[p] == r.outbox[p];
    hide Created;
  }

  lemma FreshOutboxId(r: Repo)
    requires RepoOk(r)
    ensures r.nextOutboxID + 1 !in r.outbox
  {
  }

  lemma CreatedGen(r: Repo, gen: map<EventId, nat>, r': Repo, e: Event, o: nat)
    requires RepoOk(r) && GenOk(r, gen) && Created(r, r', e, o)
    ensures GenOk(r', gen[e.id := o])
  {
    FreshOutboxId(r);
    hide RepoOk;
  }

  lemma CreatedPublished(r: Repo, origins: seq<nat>, r': Repo, e: Event, o: nat)
    requires PublishedOk(r, origins) && Created(r, r', e, o)
    ensures PublishedOk(r', origins)
  {
  }

  lemma CreatedRepo(r: Repo, r': Repo, e: Event, o: nat)
    requires RepoOk(r) && Created(r, r', e, o) && e.tenantId != "" && WellFormed(r')
    ensures RepoOk(r')
  {
    hide WellFormed;
  }

  lemma CreateAdvances(r: Repo, gen: map<EventId, nat>, origins: seq<nat>, e: Event)
    requires Good(r, gen, origins) && e.tenantId != "" && e.status == Pending
    ensures var (r', res) := CreateEventWithOutbox(r, e, OutboxRecord(0, e.id, OutboxPending));
            GoodStep(r, gen, r', if res.Ok? then gen[e.id := res.value] else gen, origins)
  {
    var (r', res) := CreateEventWithOutbox(r, e, OutboxRecord(0, e.id, OutboxPending));
    if res.Ok? {
      CreateIsAllOrNothing(r, e, OutboxRecord(0, e.id, OutboxPending));
      hide CreateEventWithOutbox, RepoOk, GenOk, Advance, PublishedOk, Created;
      CreatedAdvances(r, gen, r', e, res.value);
      CreatedGen(r, gen, r', e, res.value);
      CreatedPublished(r, origins, r', e, res.value);
      CreatedRepo(r, r', e, res.value);
    } else {
      assert r'.events == r.events && r'.outbox == r.outbox && r'.nextOutboxID == r.nextOutboxID;
      hide CreateEventWithOutbox, RepoOk, GenOk, Advance, PublishedOk;
      SameEventsAdvance(r, gen, origins, r');
    }
  }

  // Replay

  lemma {:induction false} NewGenAssigns(r: Repo, gen: map<EventId, nat>, hits: seq<EventId>)
    requires Distinct(hits)
    ensures var gen' := NewGen(r, gen, hits);
            && gen'.Keys == gen.Keys + (set e <- hits)
            && (forall i | 0 <= i < |hits| :: gen'[hits[i]] == r.nextOutboxID + 1 + i)
            && (forall e <- gen :: e !in hits ==> gen'[e] == gen[e])
  {
    if hits != [] {
      NewGenAssigns(r, gen, hits[..|hits| - 1]);
    }
  }

  /** The new generation of an event, told by cases. */
  lemma NewGenOf(r: Repo, gen: map<EventId, nat>, hits: seq<EventId>, e: EventId)
    requires Distinct(hits) && RepoOk(r) && GenOk(r, gen) && e in gen
    ensures e in NewGen(r, gen, hits) && NewGen(r, gen, hits)[e] >= gen[e]
    ensures if e in hits then exists i | 0 <= i < |hits| :: hits[i] == e && NewGen(r, gen, hits)[e] == r.nextOutboxID + 1 + i
            else NewGen(r, gen, hits)[e] == gen[e]
  {
    NewGenAssigns(r, gen, hits);
    OutboxIdsBelowNext(r, gen[e]);
    hide NewGen, RepoOk;
    if e in hits {
      var i :| 0 <= i < |hits| && hits[i] == e;
      assert NewGen(r, gen, hits)[hits[i]] == r.nextOutboxID + 1 + i;
    }
  }

  lemma OutboxIdsBelowNext(r: Repo, o: nat)
    requires RepoOk(r) && o in r.outbox
    ensures o <= r.nextOutboxID
  {
  }

  lemma ReplayedEventAdvances(r: Repo, gen: map<EventId, nat>, r': Repo, hits: seq<EventId>, e: EventId)
    requires RepoOk(r) && GenOk(r, gen) && EventsReplayed(r, r', hits) && Distinct(hits) && e in r.events && e in gen
    ensures var gen' := NewGen(r, gen, hits);
            && e in r'.events && e in gen' && r'.events[e].tenantId == r.events[e].tenantId && gen'[e] >= gen[e]
            && (r'.events[e].status == Pending ==> r.events[e].status == Pending || gen'[e] > r.nextOutboxID)
  {
    hide NewGen, RepoOk, GenOk;
    NewGenOf(r, gen, hits, e);
  }

  lemma ReplayedAdvances(r: Repo, gen: map<EventId, nat>, r': Repo, hits: seq<EventId>)
    requires RepoOk(r) && GenOk(r, gen) && Replayed(r, r', hits) && Distinct(hits)
    ensures Advance(r, gen, r', NewGen(r, gen, hits))
  {
    assert gen.Keys == r.events.Keys && EventsReplayed(r, r', hits);
    assert forall o <- r.outbox :: o in r'.outbox && r'.outbox[o].eventId == r.outbox[o].eventId;
    hide NewGen, RepoOk, GenOk, Replayed, EventsReplayed;
    forall e <- r.events
      ensures e in r'.events && e in NewGen(r, gen, hits) && r'.events[e].tenantId == r.events[e].tenantId && NewGen(r, gen, hits)[e] >= gen[e]
      ensures r'.events[e].status == Pending ==> r.events[e].status == Pending || NewGen(r, gen, hits)[e] > r.nextOutboxID
    {
      hide Advance;
      ReplayedEventAdvances(r, gen, r', hits, e);
    }
  }

  lemma ReplayedRepo(r: Repo, r': Repo, hits: seq<EventId>)
    requires RepoOk(r) && Replayed(r, r', hits) && WellFormed(r')
    ensures RepoOk(r')
  {
    hide WellFormed;
  }

  lemma ReplayedPublished(r: Repo, origins: seq<nat>, r': Repo, hits: seq<EventId>)
    requires PublishedOk(r, origins) && Replayed(r, r', hits)
    ensures PublishedOk(r', origins)
  {
  }

  lemma ReplayedGenOf(r: Repo, gen: map<EventId, nat>, r': Repo, hits: seq<EventId>, e: EventId)
    requires RepoOk(r) && GenOk(r, gen) && RecordsFiled(r, r', hits) && Distinct(hits) && e in gen
    ensures var gen' := NewGen(r, gen, hits);
            e in gen' && gen'[e] in r'.outbox && r'.outbox[gen'[e]].eventId == e
  {
    assert gen[e] in r.outbox && r.outbox[gen[e]].eventId == e;
    hide NewGen, RepoOk, GenOk;
    NewGenOf(r, gen, hits, e);
    var gen' := NewGen(r, gen, hits);
    assert e !in hits ==> r'.outbox[gen[e]] == r.outbox[gen[e]];
    if e in hits {
      var i :| 0 <= i < |hits| && hits[i] == e && gen'[e] == r.nextOutboxID + 1 + i;
      assert r'.outbox[r.nextOutboxID + 1 + i].eventId == hits[i];
    }
  }

  lemma ReplayedRecordOf(r: Repo, gen: map<EventId, nat>, r': Repo, hits: seq<EventId>, o: nat)
    requires RepoOk(r) && GenOk(r, gen) && RecordsFiled(r, r', hits) && Distinct(hits) && o in r'.outbox
    requires forall e <- hits :: e in gen
    ensures var gen' := NewGen(r, gen, hits);
            r'.outbox[o].eventId in gen' && o <= gen'[r'.outbox[o].eventId]
  {
    if o in r.outbox {
      assert r'.outbox[o] == r.outbox[o] && r.outbox[o].eventId in gen && o <= gen[r.outbox[o].eventId];
      hide NewGen, RepoOk, GenOk, RecordsFiled;
      NewGenOf(r, gen, hits, r.outbox[o].eventId);
    } else {
      var i := o - r.nextOutboxID - 1;
      assert r'.outbox[o].eventId == hits[i];
      hide NewGen, RepoOk, GenOk, RecordsFiled;
      NewGenAssigns(r, gen, hits);
      assert NewGen(r, gen, hits)[hits[i]] == o;
    }
  }

  lemma NewGenKeepsKeys(r: Repo, gen: map<EventId, nat>, hits: seq<EventId>)
    requires Distinct(hits) && forall e <- hits :: e in gen
    ensures NewGen(r, gen, hits).Keys == gen.Keys
  {
    NewGenAssigns(r, gen, hits);
    hide NewGen;
    assert (set e <- hits) <= gen.Keys;
  }

  lemma ReplayedGen(r: Repo, gen: map<EventId, nat>, r': Repo, hits: seq<EventId>)
    requires RepoOk(r) && GenOk(r, gen) && Replayed(r, r', hits)
    requires Distinct(hits) && forall e <- hits :: e in r.events
    ensures GenOk(r', NewGen(r, gen, hits))
  {
    var gen' := NewGen(r, gen, hits);
    assert gen.Keys == r.events.Keys == r'.events.Keys && RecordsFiled(r, r', hits);
    hide *;
    NewGenKeepsKeys(r, gen, hits);
    forall e <- gen'
      ensures gen'[e] in r'.outbox && r'.outbox[gen'[e]].eventId == e
    {
      ReplayedGenOf(r, gen, r', hits, e);
    }
    forall o <- r'.outbox
      ensures r'.outbox[o].eventId in gen' && o <= gen'[r'.outbox[o].eventId]
    {
      ReplayedRecordOf(r, gen, r', hits, o);
    }
    GenOkFrom(r', gen');
  }

  lemma GenOkFrom(r: Repo, gen: map<EventId, nat>)
    requires gen.Keys == r.events.Keys
    requires forall e <- gen :: gen[e] in r.outbox && r.outbox[gen[e]].eventId == e
    requires forall o <- r.outbox :: r.outbox[o].eventId in gen && o <= gen[r.outbox[o].eventId]
    ensures GenOk(r, gen)
  {
  }

  lemma ReplayAdvances(r: Repo, gen: map<EventId, nat>, origins: seq<nat>, tenantId: string, ids: seq<EventId>)
    requires Good(r, gen, origins)
    ensures GoodStep(r, gen, ReplayDLQEvents(r, tenantId, ids).0, NewGen(r, gen, Hits(r, tenantId, ids)), origins)
  {
    ReplayConserves(r, tenantId, ids);
    var hits := Hits(r, tenantId, ids);
    var r' := ReplayDLQEvents(r, tenantId, ids).0;
    assert forall e <- hits :: Replayable(r, tenantId, e);
    hide ReplayDLQEvents, Hits, NewGen, GenOk, RepoOk, Advance, PublishedOk, Replayed;
    ReplayedAdvances(r, gen, r', hits);
    ReplayedRepo(r, r', hits);
    ReplayedGen(r, gen, r', hits);
    ReplayedPublished(r, origins, r', hits);
  }

  // Status changes

  /** Only statuses of outbox records changed. */
  ghost predicate RecordStatusOnly(r: Repo, r': Repo) {
    && r' == r.(outbox := r'.outbox) && r'.outbox.Keys == r.outbox.Keys
    && (forall o <- r.outbox :: r'.outbox[o].id == r.outbox[o].id && r'.outbox[o].eventId == r.outbox[o].eventId && r'.outbox[o].status != OutboxFailed)
  }

  lemma RecordStatusAdvances(r: Repo, gen: map<EventId, nat>, r': Repo)
    requires RepoOk(r) && GenOk(r, gen) && RecordStatusOnly(r, r')
    ensures Advance(r, gen, r', gen) && GenOk(r', gen)
  {
    hide RepoOk;
  }

  lemma RecordStatusRepo(r: Repo, r': Repo)
    requires RepoOk(r) && RecordStatusOnly(r, r')
    ensures RepoOk(r')
  {
  }

  lemma MarkAdvances(r: Repo, gen: map<EventId, nat>, origins: seq<nat>, o: nat)
    requires Good(r, gen, origins) && o in origins
    ensures GoodStep(r, gen, MarkOutboxPublished(r, o).0, gen, origins)
  {
    var r' := MarkOutboxPublished(r, o).0;
    assert RecordStatusOnly(r, r') && PublishedOk(r', origins);
    hide MarkOutboxPublished, RepoOk, GenOk, Advance, PublishedOk, RecordStatusOnly;
    RecordStatusAdvances(r, gen, r');
    RecordStatusRepo(r, r');
  }

  /** Only one event's status changed, and not to PENDING. */
  ghost predicate EventStatusOnly(r: Repo, r': Repo) {
    && r' == r.(events := r'.events) && r'.events.Keys == r.events.Keys
    && (forall e <- r.events ::
          && r'.events[e] == r.events[e].(status := r'.events[e].status)
          && (r'.events[e].status == r.events[e].status || r'.events[e].status == Delivered || r'.events[e].status == DLQ))
  }

  lemma EventStatusAdvances(r: Repo, gen: map<EventId, nat>, r': Repo)
    requires RepoOk(r) && GenOk(r, gen) && EventStatusOnly(r, r')
    ensures Advance(r, gen, r', gen) && GenOk(r', gen)
  {
    hide RepoOk;
  }

  lemma EventStatusRepo(r: Repo, r': Repo)
    requires RepoOk(r) && EventStatusOnly(r, r')
    ensures RepoOk(r')
  {
  }

  lemma UpdateAdvances(r: Repo, gen: map<EventId, nat>, origins: seq<nat>, e: EventId, status: EventStatus)
    requires Good(r, gen, origins) && (status == Delivered || status == DLQ)
    ensures GoodStep(r, gen, UpdateEventStatus(r, e, status).0, gen, origins)
  {
    var r' := UpdateEventStatus(r, e, status).0;
    assert EventStatusOnly(r, r') && PublishedOk(r', origins);
    hide UpdateEventStatus, RepoOk, GenOk, Advance, PublishedOk, EventStatusOnly;
    EventStatusAdvances(r, gen, r');
    EventStatusRepo(r, r');
  }

  lemma SameEventsAdvance(r: Repo, gen: map<EventId, nat>, origins: seq<nat>, r': Repo)
    requires Good(r, gen, origins)
    requires r'.events == r.events && r'.outbox == r.outbox && r'.nextOutboxID == r.nextOutboxID
    ensures GoodStep(r, gen, r', gen, origins)
  {
  }
}
