/** Consumer groups over whole runs: whatever calls are made on whatever streams and groups,
    one chosen group of one chosen stream loses nothing and hands nothing out twice. */
module QueueRuns {
  import opened Domain
  import opened Queue

  datatype Call =
    | Publish(stream: string, event: Event, millis: nat)
    | Create(stream: string, group: string, startID: string)
    | Read(stream: string, group: string, consumer: string, count: int, now: int)
    | Ack(stream: string, group: string, ids: seq<MessageId>)
    | Reclaim(stream: string, group: string, consumer: string, minIdle: int, count: int, now: int, ids: seq<MessageId>)

  datatype Handout = Handout(id: MessageId, time: int)

  /** What was seen of the chosen group: where it began, every message that reads returned,
      in order, the IDs that acks removed from the pending list, and every hand-out. */
  datatype History = History(start: int, got: seq<Message>, acked: set<MessageId>, handouts: seq<Handout>)

  const NOTHING := History(-1, [], {}, [])

  /** A claim takes effect only with a choice of entries that the code could make. */
  predicate Possible(st: Stream, c: Call) {
    match c
    case Read(_, gn, _, _, _) => CursorOk(st.messages, GroupOf(st, gn))
    case Reclaim(_, gn, _, minIdle, count, now, ids) => ClaimChoice(GroupOf(st, gn), minIdle, count, now, ids)
    case _ => true
  }

  function Apply(q: Streams, c: Call): Streams {
    if !Possible(StreamOf(q, c.stream), c) then q
    else match c
         case Publish(sn, e, millis) => PublishEvent(q, sn, e, millis).0
         case Create(sn, gn, startID) => CreateConsumerGroup(q, sn, gn, startID)
         case Read(sn, gn, consumer, count, now) => ReadEvents(q, sn, gn, consumer, count, now).0
         case Ack(sn, gn, ids) => AckEvent(q, sn, gn, ids)
         case Reclaim(sn, gn, consumer, _, _, now, ids) => AutoClaim(q, sn, gn, ids, consumer, now)
  }

  function Handed(ids: seq<MessageId>, now: int): seq<Handout> {
    seq(|ids|, i requires 0 <= i < |ids| => Handout(ids[i], now))
  }

  /** What a call on the stream itself shows of group `gn`. */
  function Observe(gn: string, st: Stream, h: History, c: Call): History {
    if c.Publish? || c.group != gn || !Possible(st, c) then h
    else match c
         case Create(_, _, startID) =>
           if gn in st.groups then h else h.(start := AddGroup(st, gn, startID).groups[gn].lastDelivered)
         case Read(_, _, _, count, now) =>
           var batch := NextBatch(st.messages, GroupOf(st, gn), count);
           h.(got := h.got + batch, handouts := h.handouts + Handed(IdList(batch), now))
         case Ack(_, _, ids) => h.(acked := h.acked + set id <- ids | id in GroupOf(st, gn).pending)
         case Reclaim(_, _, _, _, _, now, ids) =>
           if gn in st.groups then h.(handouts := h.handouts + Handed(ids, now)) else h
  }

  function Run(sn: string, gn: string, calls: seq<Call>): (Streams, History) {
    if calls == [] then (Streams(map[], 0), NOTHING)
    else
      var (q, h) := Run(sn, gn, calls[..|calls| - 1]);
      var c := calls[|calls| - 1];
      (Apply(q, c), if c.stream == sn then Observe(gn, StreamOf(q, sn), h, c) else h)
  }

  /** A call as its own stream sees it; other streams do not see it at all. */
  function Local(st: Stream, serial: nat, c: Call): Stream {
    if !Possible(st, c) then st
    else match c
         case Publish(_, e, millis) => Append(st, MessageFor(MessageId(millis, serial + 1), e))
         case Create(_, gn, startID) => AddGroup(st, gn, startID)
         case Read(_, gn, consumer, count, now) => ReadIn(st, gn, consumer, count, now)
         case Ack(_, gn, ids) => AckIn(st, gn, ids)
         case Reclaim(_, gn, consumer, _, _, now, ids) => ClaimIn(st, gn, ids, consumer, now)
  }

  lemma CallsAreLocal(sn: string, q: Streams, c: Call)
    ensures StreamOf(Apply(q, c), sn) == if c.stream == sn then Local(StreamOf(q, sn), q.serial, c) else StreamOf(q, sn)
    ensures Apply(q, c).serial == if c.Publish? then q.serial + 1 else q.serial
  {
  }

  // ---------------------------------------------------------------------------------------
  // Conservation
  // ---------------------------------------------------------------------------------------

  /** The log after the start position is the messages read, in order, then the undelivered
      ones; the IDs read split into pending and acked ones. */
  ghost predicate Conserved(messages: seq<Message>, g: Group, h: History) {
    && GroupOk(messages, g)
    && -1 <= h.start <= g.lastDelivered
    && messages[h.start + 1..g.lastDelivered + 1] == h.got
    && Ids(h.got) == g.pending.Keys + h.acked
    && g.pending.Keys !! h.acked
  }

  ghost predicate Tracked(gn: string, st: Stream, serial: nat, h: History) {
    && LogOk(st.messages, serial)
    && (if gn in st.groups then Conserved(st.messages, st.groups[gn], h) else h == NOTHING)
  }

  lemma AppendConserves(messages: seq<Message>, m: Message, g: Group, h: History)
    requires Conserved(messages, g, h)
    ensures Conserved(messages + [m], g, h)
  {
    assert (messages + [m])[..g.lastDelivered + 1] == messages[..g.lastDelivered + 1];
    assert (messages + [m])[h.start + 1..g.lastDelivered + 1] == messages[h.start + 1..g.lastDelivered + 1];
  }

  /** The next batch holds distinct IDs that were never read before. */
  lemma NextBatchIsNew(messages: seq<Message>, serial: nat, g: Group, h: History, count: int)
    requires LogOk(messages, serial) && Conserved(messages, g, h)
    ensures var batch := NextBatch(messages, g, count);
            && Ids(batch) !! Ids(h.got)
            && Distinct(IdList(batch))
            && Ids(h.got + batch) == Ids(h.got) + Ids(batch)
  {
    var batch := NextBatch(messages, g, count);
    assert forall i | 0 <= i < |h.got| :: h.got[i] == messages[h.start + 1 + i];
    assert forall j | 0 <= j < |batch| :: batch[j] == messages[g.lastDelivered + 1 + j];
  }

  lemma DeliverConserves(messages: seq<Message>, serial: nat, g: Group, h: History, consumer: string, count: int, now: int)
    requires LogOk(messages, serial) && Conserved(messages, g, h)
    ensures Conserved(messages, Deliver(messages, g, consumer, count, now), h.(got := h.got + NextBatch(messages, g, count)))
  {
    NextBatchIsNew(messages, serial, g, h, count);
    EnrollAdds(g.pending, NextBatch(messages, g, count), consumer, now);
    DeliverKeepsGroup(messages, g, consumer, count, now);
  }

  lemma ForgetConserves(messages: seq<Message>, g: Group, h: History, ids: seq<MessageId>)
    requires Conserved(messages, g, h)
    ensures Conserved(messages, Forget(g, ids), h.(acked := h.acked + set id <- ids | id in g.pending))
  {
  }

  lemma ClaimConserves(messages: seq<Message>, g: Group, h: History, ids: seq<MessageId>, consumer: string, now: int)
    requires Conserved(messages, g, h)
    ensures Conserved(messages, Claim(g, ids, consumer, now), h)
  {
  }

  lemma PublishTracks(gn: string, st: Stream, serial: nat, h: History, c: Call)
    requires Tracked(gn, st, serial, h) && c.Publish?
    ensures Tracked(gn, Local(st, serial, c), serial + 1, Observe(gn, st, h, c))
  {
    hide Conserved;
    if gn in st.groups {
      AppendConserves(st.messages, MessageFor(MessageId(c.millis, serial + 1), c.event), st.groups[gn], h);
    }
  }

  lemma CreateTracks(gn: string, st: Stream, serial: nat, h: History, c: Call)
    requires Tracked(gn, st, serial, h) && c.Create? && c.group == gn
    ensures Tracked(gn, Local(st, serial, c), serial, Observe(gn, st, h, c))
  {
    if gn !in st.groups {
      assert Conserved(st.messages, AddGroup(st, gn, c.startID).groups[gn], Observe(gn, st, h, c));
    }
  }

  lemma ReadTracks(gn: string, st: Stream, serial: nat, h: History, c: Call)
    requires Tracked(gn, st, serial, h) && c.Read? && c.group == gn && Possible(st, c)
    ensures Tracked(gn, Local(st, serial, c), serial, Observe(gn, st, h, c))
  {
    if gn !in st.groups {
      assert Conserved(st.messages, NEW_GROUP, NOTHING);
    }
    hide Conserved;
    DeliverConserves(st.messages, serial, GroupOf(st, gn), h, c.consumer, c.count, c.now);
  }

  lemma AckTracks(gn: string, st: Stream, serial: nat, h: History, c: Call)
    requires Tracked(gn, st, serial, h) && c.Ack? && c.group == gn
    ensures Tracked(gn, Local(st, serial, c), serial, Observe(gn, st, h, c))
  {
    hide Conserved;
    if gn in st.groups {
      ForgetConserves(st.messages, st.groups[gn], h, c.ids);
      assert Observe(gn, st, h, c).acked == h.acked + set id <- c.ids | id in st.groups[gn].pending;
    } else {
      assert (set id <- c.ids | id in GroupOf(st, gn).pending) == {};
    }
  }

  lemma ReclaimTracks(gn: string, st: Stream, serial: nat, h: History, c: Call)
    requires Tracked(gn, st, serial, h) && c.Reclaim? && c.group == gn
    ensures Tracked(gn, Local(st, serial, c), serial, Observe(gn, st, h, c))
  {
    if gn in st.groups {
      ClaimConserves(st.messages, st.groups[gn], h, c.ids, c.consumer, c.now);
    }
  }

  lemma OtherGroupTracks(gn: string, st: Stream, serial: nat, h: History, c: Call)
    requires Tracked(gn, st, serial, h) && !c.Publish? && (c.group != gn || !Possible(st, c))
    ensures Tracked(gn, Local(st, serial, c), serial, Observe(gn, st, h, c))
  {
    hide Conserved;
  }

  lemma LocalTracks(gn: string, st: Stream, serial: nat, h: History, c: Call)
    requires Tracked(gn, st, serial, h)
    ensures Tracked(gn, Local(st, serial, c), if c.Publish? then serial + 1 else serial, Observe(gn, st, h, c))
  {
    hide *;
    if c.Publish? {
      PublishTracks(gn, st, serial, h, c);
    } else if c.group != gn || !Possible(st, c) {
      OtherGroupTracks(gn, st, serial, h, c);
    } else {
      match c
      case Create(_, _, _) => CreateTracks(gn, st, serial, h, c);
      case Read(_, _, _, _, _) => ReadTracks(gn, st, serial, h, c);
      case Ack(_, _, _) => AckTracks(gn, st, serial, h, c);
      case Reclaim(_, _, _, _, _, _, _) => ReclaimTracks(gn, st, serial, h, c);
    }
  }

  /** The invariant of every run, for whichever stream and group were chosen. */
  lemma {:induction false} RunTracks(sn: string, gn: string, calls: seq<Call>)
    ensures var (q, h) := Run(sn, gn, calls); Tracked(gn, StreamOf(q, sn), q.serial, h)
  {
    if calls != [] {
      var init, c := calls[..|calls| - 1], calls[|calls| - 1];
      RunTracks(sn, gn, init);
      var (q, h) := Run(sn, gn, init);
      CallsAreLocal(sn, q, c);
      hide Apply, Local, Observe, Tracked;
      if c.stream == sn {
        LocalTracks(gn, StreamOf(q, sn), q.serial, h, c);
      }
    }
  }

  /** The pending list and the acked IDs partition what was read; what was read is exactly the
      delivered segment of the log, in order; and all IDs in the log differ, so each message
      was read once, by one consumer. */
  lemma GroupConservation(sn: string, gn: string, calls: seq<Call>)
    ensures var (q, h) := Run(sn, gn, calls);
            var st := StreamOf(q, sn);
            && (gn in st.groups ==>
                  var g := st.groups[gn];
                  && -1 <= h.start <= g.lastDelivered < |st.messages|
                  && st.messages[h.start + 1..] == h.got + st.messages[g.lastDelivered + 1..]
                  && Ids(h.got) == g.pending.Keys + h.acked && g.pending.Keys !! h.acked)
            && Distinct(IdList(st.messages))
            && Distinct(IdList(h.got))
  {
    RunTracks(sn, gn, calls);
    var (q, h) := Run(sn, gn, calls);
    hide Run;
    var messages := StreamOf(q, sn).messages;
    assert forall i, j | 0 <= i < j < |messages| :: messages[i].id.serial < messages[j].id.serial;
    forall i, j | 0 <= i < j < |h.got|
      ensures h.got[i].id != h.got[j].id
    {
      assert h.got == messages[h.start + 1..h.start + 1 + |h.got|];
      assert h.got[i] == messages[h.start + 1 + i] && h.got[j] == messages[h.start + 1 + j];
    }
  }

  // ---------------------------------------------------------------------------------------
  // Lease spacing
  // ---------------------------------------------------------------------------------------

  /** Every claim on the chosen group asks for at least `lease` of idle time. */
  predicate Leased(sn: string, gn: string, calls: seq<Call>, lease: int) {
    forall c <- calls :: c.Reclaim? && c.stream == sn && c.group == gn ==> c.minIdle >= lease
  }

  ghost predicate Spaced(handouts: seq<Handout>, lease: int) {
    forall i, j | 0 <= i < j < |handouts| && handouts[i].id == handouts[j].id ::
      handouts[j].time - handouts[i].time >= lease
  }

  /** Every hand-out is of a message already read, and a pending entry carries the time of its latest one. */
  ghost predicate Stamped(g: Group, h: History) {
    && (forall i | 0 <= i < |h.handouts| :: h.handouts[i].id in Ids(h.got))
    && (forall i | 0 <= i < |h.handouts| && h.handouts[i].id in g.pending ::
          g.pending[h.handouts[i].id].deliveryTime >= h.handouts[i].time)
  }

  /** Handing out `ids` at time `now`, none of them handed out less than `lease` ago. */
  lemma HandingOutKeepsLease(g: Group, g': Group, h: History, got: seq<Message>, ids: seq<MessageId>, now: int, lease: int)
    requires 0 <= lease && Spaced(h.handouts, lease) && Stamped(g, h) && Distinct(ids)
    requires forall i | 0 <= i < |h.handouts| && h.handouts[i].id in ids :: now - h.handouts[i].time >= lease
    requires Ids(h.got) <= Ids(got) && forall id <- ids :: id in Ids(got)
    requires forall id <- g'.pending :: if id in ids then g'.pending[id].deliveryTime == now else id in g.pending && g'.pending[id] == g.pending[id]
    ensures var h' := h.(got := got, handouts := h.handouts + Handed(ids, now));
            Spaced(h'.handouts, lease) && Stamped(g', h')
  {
    assert forall k | 0 <= k < |ids| :: Handed(ids, now)[k].id == ids[k] && ids[k] in ids;
  }

  lemma DeliverKeepsLease(messages: seq<Message>, serial: nat, g: Group, h: History, consumer: string, count: int, now: int, lease: int)
    requires 0 <= lease && LogOk(messages, serial) && Conserved(messages, g, h) && Spaced(h.handouts, lease) && Stamped(g, h)
    ensures var batch := NextBatch(messages, g, count);
            var h' := h.(got := h.got + batch, handouts := h.handouts + Handed(IdList(batch), now));
            Spaced(h'.handouts, lease) && Stamped(Deliver(messages, g, consumer, count, now), h')
  {
    var batch := NextBatch(messages, g, count);
    EnrollAdds(g.pending, batch, consumer, now);
    NextBatchIsNew(messages, serial, g, h, count);
    var ids := IdList(batch);
    forall id
      ensures id in ids <==> id in Ids(batch)
    {
      if id in Ids(batch) {
        var k :| 0 <= k < |batch| && batch[k].id == id;
        assert ids[k] == id;
      }
    }
    HandingOutKeepsLease(g, Deliver(messages, g, consumer, count, now), h, h.got + batch, ids, now, lease);
  }

  lemma ClaimKeepsLease(g: Group, h: History, ids: seq<MessageId>, consumer: string, minIdle: int, count: int, now: int, lease: int)
    requires 0 <= lease <= minIdle && ClaimChoice(g, minIdle, count, now, ids)
    requires g.pending.Keys <= Ids(h.got) && Spaced(h.handouts, lease) && Stamped(g, h)
    ensures var h' := h.(handouts := h.handouts + Handed(ids, now));
            Spaced(h'.handouts, lease) && Stamped(Claim(g, ids, consumer, now), h')
  {
    HandingOutKeepsLease(g, Claim(g, ids, consumer, now), h, h.got, ids, now, lease);
  }

  lemma LocalKeepsLease(gn: string, st: Stream, serial: nat, h: History, c: Call, lease: int)
    requires Tracked(gn, st, serial, h) && 0 <= lease
    requires Spaced(h.handouts, lease) && Stamped(GroupOf(st, gn), h)
    requires c.Reclaim? && c.group == gn ==> c.minIdle >= lease
    ensures Spaced(Observe(gn, st, h, c).handouts, lease) && Stamped(GroupOf(Local(st, serial, c), gn), Observe(gn, st, h, c))
  {
    hide Spaced;
    if !c.Publish? && c.group == gn && Possible(st, c) {
      if c.Read? {
        if gn !in st.groups {
          assert Conserved(st.messages, NEW_GROUP, NOTHING);
        }
        DeliverKeepsLease(st.messages, serial, GroupOf(st, gn), h, c.consumer, c.count, c.now, lease);
      } else if c.Reclaim? && gn in st.groups {
        ClaimKeepsLease(st.groups[gn], h, c.ids, c.consumer, c.minIdle, c.count, c.now, lease);
      }
    }
  }

  /** Any two hand-outs of one message to the consumers of a group are at least the claims'
      minimum idle time apart, on every run and for any clock readings. */
  lemma {:induction false} LeaseSpacing(sn: string, gn: string, calls: seq<Call>, lease: int)
    requires 0 <= lease && Leased(sn, gn, calls, lease)
    ensures var (q, h) := Run(sn, gn, calls);
            Spaced(h.handouts, lease) && Stamped(GroupOf(StreamOf(q, sn), gn), h)
  {
    if calls != [] {
      var init, c := calls[..|calls| - 1], calls[|calls| - 1];
      assert c in calls && forall x <- init :: x in calls;
      LeaseSpacing(sn, gn, init, lease);
      RunTracks(sn, gn, init);
      var (q, h) := Run(sn, gn, init);
      CallsAreLocal(sn, q, c);
      hide Apply, Local, Observe, Tracked, Stamped, Spaced;
      if c.stream == sn {
        LocalKeepsLease(gn, StreamOf(q, sn), q.serial, h, c, lease);
      }
    }
  }

  /** A claim never changes which messages are pending. */
  lemma ClaimKeepsPendingSet(g: Group, ids: seq<MessageId>, consumer: string, now: int)
    ensures Claim(g, ids, consumer, now).pending.Keys == g.pending.Keys
    ensures forall id <- g.pending :: Claim(g, ids, consumer, now).pending[id].msg == g.pending[id].msg
  {
  }
}
