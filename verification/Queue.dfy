/** `internal/queue/stream.go`, `MemoryStreamQueue`: what each call does to the streams, their
    consumer groups and pending-entries lists, as functions of a snapshot. */
module Queue {
  import opened Domain

  /** The printed ID is `<millis>-<serial>`; the serial alone tells two messages apart. */
  datatype MessageId = MessageId(millis: nat, serial: nat)

  datatype Message = Message(id: MessageId, eventId: EventId, tenantId: string, eventType: string, payload: seq<Byte>)

  datatype PendingEntry = PendingEntry(msg: Message, deliveryTime: int, consumer: string)

  datatype Group = Group(lastDelivered: int, pending: map<MessageId, PendingEntry>)

  /** `notify` is the channel that readers wait on now, `closed` the channels it replaced. */
  datatype Stream = Stream(messages: seq<Message>, groups: map<string, Group>, notify: nat, closed: set<nat>)

  datatype Streams = Streams(streams: map<string, Stream>, serial: nat)

  const NEW_STREAM := Stream([], map[], 0, {})
  const NEW_GROUP := Group(-1, map[])

  function StreamOf(q: Streams, sn: string): Stream {
    if sn in q.streams then q.streams[sn] else NEW_STREAM
  }

  function GroupOf(st: Stream, gn: string): Group {
    if gn in st.groups then st.groups[gn] else NEW_GROUP
  }

  function WithStream(q: Streams, sn: string, st: Stream): Streams {
    q.(streams := q.streams[sn := st])
  }

  function WithGroup(st: Stream, gn: string, g: Group): Stream {
    st.(groups := st.groups[gn := g])
  }

  predicate Distinct<T(==)>(s: seq<T>) {
    forall i, j | 0 <= i < j < |s| :: s[i] != s[j]
  }

  // ---------------------------------------------------------------------------------------
  // One group
  // ---------------------------------------------------------------------------------------

  function Enroll(pending: map<MessageId, PendingEntry>, batch: seq<Message>, consumer: string, now: int): map<MessageId, PendingEntry> {
    if batch == [] then pending
    else
      var m := batch[|batch| - 1];
      Enroll(pending, batch[..|batch| - 1], consumer, now)[m.id := PendingEntry(m, now, consumer)]
  }

  predicate CursorOk(messages: seq<Message>, g: Group) {
    -1 <= g.lastDelivered < |messages|
  }

  function BatchSize(count: int): nat {
    if count <= 0 then 10 else count
  }

  /** The next messages past the cursor, up to the batch size. */
  function NextBatch(messages: seq<Message>, g: Group, count: int): seq<Message>
    requires CursorOk(messages, g)
  {
    var start := g.lastDelivered + 1;
    var end := start + BatchSize(count);
    messages[start..if end > |messages| then |messages| else end]
  }

  function Deliver(messages: seq<Message>, g: Group, consumer: string, count: int, now: int): Group
    requires CursorOk(messages, g)
  {
    var batch := NextBatch(messages, g, count);
    Group(g.lastDelivered + |batch|, Enroll(g.pending, batch, consumer, now))
  }

  function Forget(g: Group, ids: seq<MessageId>): Group {
    g.(pending := map id <- g.pending | id !in ids :: g.pending[id])
  }

  predicate Idle(g: Group, id: MessageId, minIdle: int, now: int) {
    id in g.pending && now - g.pending[id].deliveryTime >= minIdle
  }

  /** What a claim may pick, as the pending map is visited in an arbitrary order: distinct idle
      entries, at most a batch of them, and all of them when there are fewer. */
  predicate ClaimChoice(g: Group, minIdle: int, count: int, now: int, ids: seq<MessageId>) {
    && Distinct(ids)
    && (forall id <- ids :: Idle(g, id, minIdle, now))
    && |ids| <= BatchSize(count)
    && (|ids| < BatchSize(count) ==> forall id <- g.pending :: Idle(g, id, minIdle, now) ==> id in ids)
  }

  function Claim(g: Group, ids: seq<MessageId>, consumer: string, now: int): Group {
    g.(pending := map id <- g.pending ::
      if id in ids then g.pending[id].(deliveryTime := now, consumer := consumer) else g.pending[id])
  }

  // ---------------------------------------------------------------------------------------
  // One stream
  // ---------------------------------------------------------------------------------------

  function MessageFor(id: MessageId, e: Event): Message {
    Message(id, e.id, e.tenantId, e.eventType, e.payload)
  }

  /** Readers waiting on the current channel are woken by closing it and opening a new one. */
  function Append(st: Stream, m: Message): Stream {
    st.(messages := st.messages + [m], notify := st.notify + 1, closed := st.closed + {st.notify})
  }

  function AddGroup(st: Stream, gn: string, startID: string): Stream {
    if gn in st.groups then st
    else WithGroup(st, gn, Group(if startID == "$" || startID == "" then |st.messages| - 1 else -1, map[]))
  }

  function ReadIn(st: Stream, gn: string, consumer: string, count: int, now: int): Stream
    requires CursorOk(st.messages, GroupOf(st, gn))
  {
    WithGroup(st, gn, Deliver(st.messages, GroupOf(st, gn), consumer, count, now))
  }

  function AckIn(st: Stream, gn: string, ids: seq<MessageId>): Stream {
    if gn in st.groups then WithGroup(st, gn, Forget(st.groups[gn], ids)) else st
  }

  function ClaimIn(st: Stream, gn: string, ids: seq<MessageId>, consumer: string, now: int): Stream {
    if gn in st.groups then WithGroup(st, gn, Claim(st.groups[gn], ids, consumer, now)) else st
  }

  // ---------------------------------------------------------------------------------------
  // The queue
  // ---------------------------------------------------------------------------------------

  function PublishEvent(q: Streams, sn: string, e: Event, millis: nat): (Streams, MessageId) {
    var id := MessageId(millis, q.serial + 1);
    (WithStream(q, sn, Append(StreamOf(q, sn), MessageFor(id, e))).(serial := q.serial + 1), id)
  }

  function CreateConsumerGroup(q: Streams, sn: string, gn: string, startID: string): Streams {
    WithStream(q, sn, AddGroup(StreamOf(q, sn), gn, startID))
  }

  function ReadEvents(q: Streams, sn: string, gn: string, consumer: string, count: int, now: int): (Streams, seq<Message>)
    requires CursorOk(StreamOf(q, sn).messages, GroupOf(StreamOf(q, sn), gn))
  {
    var st := StreamOf(q, sn);
    (WithStream(q, sn, ReadIn(st, gn, consumer, count, now)), NextBatch(st.messages, GroupOf(st, gn), count))
  }

  function AckEvent(q: Streams, sn: string, gn: string, ids: seq<MessageId>): Streams {
    if sn in q.streams then WithStream(q, sn, AckIn(q.streams[sn], gn, ids)) else q
  }

  function AutoClaim(q: Streams, sn: string, gn: string, ids: seq<MessageId>, consumer: string, now: int): Streams {
    if sn in q.streams then WithStream(q, sn, ClaimIn(q.streams[sn], gn, ids, consumer, now)) else q
  }

  // ---------------------------------------------------------------------------------------
  // What every call keeps
  // ---------------------------------------------------------------------------------------

  function IdList(ms: seq<Message>): seq<MessageId> {
    seq(|ms|, i requires 0 <= i < |ms| => ms[i].id)
  }

  function Ids(ms: seq<Message>): set<MessageId> {
    set m <- ms :: m.id
  }

  ghost predicate LogOk(messages: seq<Message>, serial: nat) {
    && (forall i | 0 <= i < |messages| :: messages[i].id.serial <= serial)
    && (forall i, j | 0 <= i < j < |messages| :: messages[i].id.serial < messages[j].id.serial)
  }

  ghost predicate GroupOk(messages: seq<Message>, g: Group) {
    && CursorOk(messages, g)
    && (forall id <- g.pending :: g.pending[id].msg.id == id && g.pending[id].msg in messages[..g.lastDelivered + 1])
  }

  ghost predicate StreamOk(st: Stream, serial: nat) {
    && LogOk(st.messages, serial)
    && (forall gn <- st.groups :: GroupOk(st.messages, st.groups[gn]))
  }

  ghost predicate StreamsOk(q: Streams) {
    forall sn <- q.streams :: StreamOk(q.streams[sn], q.serial)
  }

  lemma {:induction false} EnrollAdds(pending: map<MessageId, PendingEntry>, batch: seq<Message>, consumer: string, now: int)
    ensures var p := Enroll(pending, batch, consumer, now);
            && p.Keys == pending.Keys + Ids(batch)
            && (forall id <- p :: if id in Ids(batch) then p[id].msg in batch && p[id].msg.id == id && p[id].deliveryTime == now && p[id].consumer == consumer
                                  else id in pending && p[id] == pending[id])
  {
    if batch != [] {
      var init, m := batch[..|batch| - 1], batch[|batch| - 1];
      EnrollAdds(pending, init, consumer, now);
      assert batch == init + [m];
      assert Ids(batch) == Ids(init) + {m.id};
    }
  }

  /** The size of a batch and the place of each of its messages: as many as asked for, ten by
      default, or all that are left past the cursor. */
  lemma BatchIs(messages: seq<Message>, g: Group, count: int)
    requires CursorOk(messages, g)
    ensures var batch, size, left := NextBatch(messages, g, count), (if count <= 0 then 10 else count), |messages| - 1 - g.lastDelivered;
            && |batch| == (if size < left then size else left)
            && forall i | 0 <= i < |batch| :: batch[i] == messages[g.lastDelivered + 1 + i]
  {
  }

  /** A group that is created at "$" or without a start reads what is published afterwards, any
      other one everything in the stream; an existing group stays as it is. */
  lemma NewGroupReads(st: Stream, gn: string, startID: string, more: seq<Message>, count: int)
    requires gn !in st.groups
    ensures var st' := AddGroup(st, gn, startID);
            && st'.messages == st.messages && gn in st'.groups && st'.groups[gn].pending == map[] && CursorOk(st.messages + more, st'.groups[gn])
            && var unread := if startID in {"", "$"} then more else st.messages + more;
            var size := if count <= 0 then 10 else count;
            NextBatch(st.messages + more, st'.groups[gn], count) == if size < |unread| then unread[..size] else unread
  {
  }

  /** What a claim takes: idle entries only, each once, and as many as asked for, ten by default,
      or all idle ones. */
  lemma ClaimTakes(g: Group, minIdle: int, count: int, now: int, ids: seq<MessageId>)
    requires ClaimChoice(g, minIdle, count, now, ids)
    ensures var idle := set id <- g.pending | now - g.pending[id].deliveryTime >= minIdle;
            var size := if count <= 0 then 10 else count;
            Distinct(ids) && (forall id <- ids :: id in idle) && |ids| == if size < |idle| then size else |idle|
  {
    var idle := set id <- g.pending | now - g.pending[id].deliveryTime >= minIdle;
    var taken := set id <- ids;
    DistinctCount(ids);
    SubsetSize(taken, idle);
    if |ids| < BatchSize(count) {
      assert taken == idle;
    }
  }

  lemma {:induction false} DistinctCount(ids: seq<MessageId>)
    requires Distinct(ids)
    ensures var taken := set id <- ids; |taken| == |ids|
  {
    if ids != [] {
      var n := |ids| - 1;
      DistinctCount(ids[..n]);
      assert (set id <- ids) == (set id <- ids[..n]) + {ids[n]} && ids[n] !in ids[..n];
    }
  }

  lemma {:induction false} SubsetSize(a: set<MessageId>, b: set<MessageId>)
    requires a <= b
    ensures |a| <= |b|
  {
    if a != {} {
      var x :| x in a;
      SubsetSize(a - {x}, b - {x});
    }
  }

  lemma DeliverKeepsGroup(messages: seq<Message>, g: Group, consumer: string, count: int, now: int)
    requires GroupOk(messages, g)
    ensures GroupOk(messages, Deliver(messages, g, consumer, count, now))
  {
    var batch := NextBatch(messages, g, count);
    EnrollAdds(g.pending, batch, consumer, now);
    var g' := Deliver(messages, g, consumer, count, now);
    assert messages[..g'.lastDelivered + 1] == messages[..g.lastDelivered + 1] + batch;
  }

  lemma WithGroupKeepsStream(st: Stream, serial: nat, gn: string, g: Group)
    requires StreamOk(st, serial) && GroupOk(st.messages, g)
    ensures StreamOk(WithGroup(st, gn, g), serial)
  {
  }

  lemma WithStreamKeepsStreams(q: Streams, sn: string, st: Stream)
    requires StreamsOk(q) && StreamOk(st, q.serial)
    ensures StreamsOk(WithStream(q, sn, st))
  {
  }

  lemma StreamOfOk(q: Streams, sn: string)
    requires StreamsOk(q)
    ensures StreamOk(StreamOf(q, sn), q.serial)
  {
  }

  lemma AppendKeepsGroup(messages: seq<Message>, m: Message, g: Group)
    requires GroupOk(messages, g)
    ensures GroupOk(messages + [m], g)
  {
    assert (messages + [m])[..g.lastDelivered + 1] == messages[..g.lastDelivered + 1];
  }

  lemma AppendKeepsStream(st: Stream, m: Message, serial: nat)
    requires StreamOk(st, serial) && m.id.serial == serial + 1
    ensures StreamOk(Append(st, m), serial + 1)
  {
    hide GroupOk;
    forall gn <- st.groups
      ensures GroupOk(Append(st, m).messages, st.groups[gn])
    {
      AppendKeepsGroup(st.messages, m, st.groups[gn]);
    }
  }

  lemma SerialGrows(st: Stream, serial: nat)
    requires StreamOk(st, serial)
    ensures StreamOk(st, serial + 1)
  {
    hide GroupOk;
  }

  lemma PublishKeepsStreams(q: Streams, sn: string, e: Event, millis: nat)
    requires StreamsOk(q)
    ensures StreamsOk(PublishEvent(q, sn, e, millis).0)
  {
    hide StreamOk;
    StreamOfOk(q, sn);
    AppendKeepsStream(StreamOf(q, sn), MessageFor(MessageId(millis, q.serial + 1), e), q.serial);
    forall s <- q.streams
      ensures StreamOk(q.streams[s], q.serial + 1)
    {
      SerialGrows(q.streams[s], q.serial);
    }
  }

  lemma CreateKeepsStreams(q: Streams, sn: string, gn: string, startID: string)
    requires StreamsOk(q)
    ensures StreamsOk(CreateConsumerGroup(q, sn, gn, startID))
  {
    StreamOfOk(q, sn);
    hide StreamsOk, StreamOk;
    var st := StreamOf(q, sn);
    if gn !in st.groups {
      WithGroupKeepsStream(st, q.serial, gn, AddGroup(st, gn, startID).groups[gn]);
    }
    WithStreamKeepsStreams(q, sn, AddGroup(st, gn, startID));
  }

  lemma ReadKeepsStreams(q: Streams, sn: string, gn: string, consumer: string, count: int, now: int)
    requires StreamsOk(q)
    ensures CursorOk(StreamOf(q, sn).messages, GroupOf(StreamOf(q, sn), gn))
    ensures StreamsOk(ReadEvents(q, sn, gn, consumer, count, now).0)
  {
    StreamOfOk(q, sn);
    var st := StreamOf(q, sn);
    assert GroupOk(st.messages, GroupOf(st, gn));
    hide StreamsOk, StreamOk;
    DeliverKeepsGroup(st.messages, GroupOf(st, gn), consumer, count, now);
    WithGroupKeepsStream(st, q.serial, gn, Deliver(st.messages, GroupOf(st, gn), consumer, count, now));
    WithStreamKeepsStreams(q, sn, ReadIn(st, gn, consumer, count, now));
  }

  lemma AckKeepsStreams(q: Streams, sn: string, gn: string, ids: seq<MessageId>)
    requires StreamsOk(q)
    ensures StreamsOk(AckEvent(q, sn, gn, ids))
  {
    if sn in q.streams && gn in q.streams[sn].groups {
      var st := q.streams[sn];
      assert StreamOk(st, q.serial) && GroupOk(st.messages, Forget(st.groups[gn], ids));
      hide StreamsOk, StreamOk, GroupOk;
      WithGroupKeepsStream(st, q.serial, gn, Forget(st.groups[gn], ids));
      WithStreamKeepsStreams(q, sn, AckIn(st, gn, ids));
    }
  }

  lemma ClaimKeepsStreams(q: Streams, sn: string, gn: string, ids: seq<MessageId>, consumer: string, now: int)
    requires StreamsOk(q)
    ensures StreamsOk(AutoClaim(q, sn, gn, ids, consumer, now))
  {
    if sn in q.streams && gn in q.streams[sn].groups {
      var st := q.streams[sn];
      assert StreamOk(st, q.serial) && GroupOk(st.messages, Claim(st.groups[gn], ids, consumer, now));
      hide StreamsOk, StreamOk, GroupOk;
      WithGroupKeepsStream(st, q.serial, gn, Claim(st.groups[gn], ids, consumer, now));
      WithStreamKeepsStreams(q, sn, ClaimIn(st, gn, ids, consumer, now));
    }
  }
}
