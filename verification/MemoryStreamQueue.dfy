/** The mutex-protected queue object. Each method is one critical section, but for `ReadEvents`,
    which makes one pass after another and waits in between; `ReaderWait` proves that no waiting
    reader misses a publication. */
module MemoryStreamQueues {
  import opened Domain
  import opened Queue

  /** What others can do to the queue: streams and serials only grow. */
  ghost predicate Moved(q: Streams, q': Streams) {
    && StreamsOk(q') && q.serial <= q'.serial
    && forall sn :: StreamOf(q, sn).messages <= StreamOf(q', sn).messages
  }

  lemma NotMoved(q: Streams)
    requires StreamsOk(q)
    ensures Moved(q, q)
  {
  }

  lemma MovedOn(q0: Streams, q1: Streams, q2: Streams)
    requires Moved(q0, q1) && Moved(q1, q2)
    ensures Moved(q0, q2)
  {
    hide StreamsOk;
  }

  lemma PublishMoves(q: Streams, sn: string, e: Event, millis: nat)
    requires StreamsOk(q)
    ensures Moved(q, Queue.PublishEvent(q, sn, e, millis).0)
  {
    PublishKeepsStreams(q, sn, e, millis);
    hide StreamsOk;
  }

  lemma CreateMoves(q: Streams, sn: string, gn: string, startID: string)
    requires StreamsOk(q)
    ensures Moved(q, Queue.CreateConsumerGroup(q, sn, gn, startID))
  {
    CreateKeepsStreams(q, sn, gn, startID);
    hide StreamsOk;
  }

  lemma ReadKeepsMessages(q: Streams, sn: string, gn: string, consumer: string, count: int, now: int)
    requires CursorOk(StreamOf(q, sn).messages, GroupOf(StreamOf(q, sn), gn))
    ensures var q' := Queue.ReadEvents(q, sn, gn, consumer, count, now).0;
            q'.serial == q.serial && forall name :: StreamOf(q', name).messages == StreamOf(q, name).messages
  {
    hide Deliver, NextBatch;
  }

  lemma SameMessagesMoved(q: Streams, q': Streams)
    requires StreamsOk(q') && q'.serial == q.serial && forall name :: StreamOf(q', name).messages == StreamOf(q, name).messages
    ensures Moved(q, q')
  {
    hide StreamsOk;
  }

  lemma ReadIs(q: Streams, sn: string, gn: string, consumer: string, count: int, now: int)
    requires CursorOk(StreamOf(q, sn).messages, GroupOf(StreamOf(q, sn), gn))
    ensures var messages, last, batch := StreamOf(q, sn).messages, GroupOf(StreamOf(q, sn), gn).lastDelivered, Queue.ReadEvents(q, sn, gn, consumer, count, now).1;
            var size, left := if count <= 0 then 10 else count, |messages| - 1 - last;
            && |batch| == (if size < left then size else left)
            && 0 <= last + 1 <= last + 1 + |batch| <= |messages| && batch == messages[last + 1..last + 1 + |batch|]
  {
    BatchIs(StreamOf(q, sn).messages, GroupOf(StreamOf(q, sn), gn), count);
    hide Deliver, NextBatch;
  }

  lemma ReadMoves(q: Streams, sn: string, gn: string, consumer: string, count: int, now: int)
    requires StreamsOk(q) && CursorOk(StreamOf(q, sn).messages, GroupOf(StreamOf(q, sn), gn))
    ensures Moved(q, Queue.ReadEvents(q, sn, gn, consumer, count, now).0)
  {
    hide *;
    ReadKeepsStreams(q, sn, gn, consumer, count, now);
    ReadKeepsMessages(q, sn, gn, consumer, count, now);
    SameMessagesMoved(q, Queue.ReadEvents(q, sn, gn, consumer, count, now).0);
  }

  lemma NothingDelivered(messages: seq<Message>, g: Group, consumer: string, count: int, now: int)
    requires CursorOk(messages, g) && NextBatch(messages, g, count) == []
    ensures Deliver(messages, g, consumer, count, now) == g
  {
  }

  lemma WrittenAgain(q: Streams, sn: string, st: Stream, gn: string, g: Group)
    ensures WithGroup(WithGroup(st, gn, g), gn, g) == WithGroup(st, gn, g)
    ensures WithStream(WithStream(q, sn, st), sn, st) == WithStream(q, sn, st)
  {
    assert WithGroup(st, gn, g).groups[gn := g] == WithGroup(st, gn, g).groups;
    assert q.streams[sn := st][sn := st] == q.streams[sn := st];
  }

  /** A pass that finds nothing leaves only the stream and the group behind, as it saw them. */
  lemma EmptyRead(q: Streams, sn: string, gn: string, consumer: string, count: int, now: int)
    requires CursorOk(StreamOf(q, sn).messages, GroupOf(StreamOf(q, sn), gn))
    requires NextBatch(StreamOf(q, sn).messages, GroupOf(StreamOf(q, sn), gn), count) == []
    ensures Queue.ReadEvents(q, sn, gn, consumer, count, now) ==
            (WithStream(q, sn, WithGroup(StreamOf(q, sn), gn, GroupOf(StreamOf(q, sn), gn))), [])
  {
    NothingDelivered(StreamOf(q, sn).messages, GroupOf(StreamOf(q, sn), gn), consumer, count, now);
    hide Deliver, NextBatch, CursorOk;
  }

  lemma Written(q: Streams, sn: string, st: Stream, gn: string, g: Group)
    ensures StreamOf(WithStream(q, sn, st), sn) == st && GroupOf(WithGroup(st, gn, g), gn) == g && WithGroup(st, gn, g).messages == st.messages
  {
  }

  /** Nor does the next pass see any difference. */
  lemma EmptyReadAgain(q: Streams, sn: string, gn: string, consumer: string, count: int, now: int, later: int)
    requires CursorOk(StreamOf(q, sn).messages, GroupOf(StreamOf(q, sn), gn)) && Queue.ReadEvents(q, sn, gn, consumer, count, now).1 == []
    ensures var q1 := Queue.ReadEvents(q, sn, gn, consumer, count, now).0;
            && CursorOk(StreamOf(q1, sn).messages, GroupOf(StreamOf(q1, sn), gn))
            && Queue.ReadEvents(q1, sn, gn, consumer, count, later) == (q1, [])
            && Queue.ReadEvents(q, sn, gn, consumer, count, later) == (q1, [])
  {
    var st, g := StreamOf(q, sn), GroupOf(StreamOf(q, sn), gn);
    assert NextBatch(st.messages, g, count) == [] by { hide Deliver, NextBatch; }
    hide Queue.ReadEvents, NextBatch, CursorOk, StreamOf, GroupOf, WithStream, WithGroup;
    var st1 := WithGroup(st, gn, g);
    Written(q, sn, st1, gn, g);
    Written(q, sn, st, gn, g);
    WrittenAgain(q, sn, st1, gn, g);
    WrittenAgain(q, sn, st, gn, g);
    EmptyRead(q, sn, gn, consumer, count, now);
    EmptyRead(q, sn, gn, consumer, count, later);
    EmptyRead(WithStream(q, sn, st1), sn, gn, consumer, count, later);
  }

  /** The queue is as it was, or as a pass that found nothing left it. */
  ghost predicate AsFound(q0: Streams, q: Streams, sn: string, gn: string, consumer: string, count: int) {
    q == q0 ||
    (CursorOk(StreamOf(q0, sn).messages, GroupOf(StreamOf(q0, sn), gn)) &&
     exists now :: Queue.ReadEvents(q0, sn, gn, consumer, count, now) == (q, []))
  }

  lemma StillAsFound(q0: Streams, q: Streams, sn: string, gn: string, consumer: string, count: int, now: int)
    requires AsFound(q0, q, sn, gn, consumer, count) && CursorOk(StreamOf(q0, sn).messages, GroupOf(StreamOf(q0, sn), gn))
    ensures CursorOk(StreamOf(q, sn).messages, GroupOf(StreamOf(q, sn), gn))
    ensures Queue.ReadEvents(q, sn, gn, consumer, count, now) == Queue.ReadEvents(q0, sn, gn, consumer, count, now)
    ensures var (q1, batch) := Queue.ReadEvents(q0, sn, gn, consumer, count, now); batch == [] ==> AsFound(q0, q1, sn, gn, consumer, count)
  {
    hide Queue.ReadEvents, CursorOk;
    if q != q0 {
      var before :| Queue.ReadEvents(q0, sn, gn, consumer, count, before) == (q, []);
      EmptyReadAgain(q0, sn, gn, consumer, count, before, now);
    }
  }

  lemma AckMoves(q: Streams, sn: string, gn: string, ids: seq<MessageId>)
    requires StreamsOk(q)
    ensures Moved(q, Queue.AckEvent(q, sn, gn, ids))
  {
    AckKeepsStreams(q, sn, gn, ids);
    hide StreamsOk, Forget;
  }

  lemma ClaimMoves(q: Streams, sn: string, gn: string, ids: seq<MessageId>, consumer: string, now: int)
    requires StreamsOk(q)
    ensures Moved(q, Queue.AutoClaim(q, sn, gn, ids, consumer, now))
  {
    ClaimKeepsStreams(q, sn, gn, ids, consumer, now);
    hide StreamsOk, Claim;
  }

  lemma ForgetNone(g: Group)
    ensures Forget(g, []) == g
  {
    assert Forget(g, []).pending == g.pending;
  }

  lemma ForgetOneMore(g: Group, ids: seq<MessageId>, i: nat)
    requires i < |ids|
    ensures Forget(g, ids[..i + 1]) == Forget(g, ids[..i]).(pending := Forget(g, ids[..i]).pending - {ids[i]})
  {
    assert ids[..i + 1] == ids[..i] + [ids[i]];
    assert Forget(g, ids[..i + 1]).pending == Forget(g, ids[..i]).pending - {ids[i]};
  }

  /** `ids` are the idle ones of the entries visited so far. */
  ghost predicate Picked(g: Group, rest: set<MessageId>, ids: seq<MessageId>, minIdle: int, now: int) {
    && Distinct(ids)
    && (forall id <- ids :: Idle(g, id, minIdle, now) && id !in rest)
    && (forall id <- g.pending.Keys - rest :: Idle(g, id, minIdle, now) ==> id in ids)
  }

  lemma NothingPicked(g: Group, consumer: string, minIdle: int, now: int)
    ensures Picked(g, g.pending.Keys, [], minIdle, now) && Claim(g, [], consumer, now) == g
  {
    assert Claim(g, [], consumer, now).pending == g.pending;
  }

  lemma PickNext(g: Group, rest: set<MessageId>, ids: seq<MessageId>, consumer: string, minIdle: int, now: int, id: MessageId)
    requires Picked(g, rest, ids, minIdle, now) && id in rest && id in g.pending
    ensures if Idle(g, id, minIdle, now)
            then
              && Picked(g, rest - {id}, ids + [id], minIdle, now)
              && Claim(g, ids + [id], consumer, now) ==
                 g.(pending := Claim(g, ids, consumer, now).pending[id := PendingEntry(g.pending[id].msg, now, consumer)])
            else Picked(g, rest - {id}, ids, minIdle, now)
  {
    if Idle(g, id, minIdle, now) {
      ClaimOneMore(g, ids, consumer, now, id);
    }
  }

  lemma ClaimOneMore(g: Group, ids: seq<MessageId>, consumer: string, now: int, id: MessageId)
    requires id in g.pending
    ensures Claim(g, ids + [id], consumer, now) ==
            g.(pending := Claim(g, ids, consumer, now).pending[id := PendingEntry(g.pending[id].msg, now, consumer)])
  {
    assert Claim(g, ids + [id], consumer, now).pending ==
           Claim(g, ids, consumer, now).pending[id := PendingEntry(g.pending[id].msg, now, consumer)];
  }

  lemma PickedIsChoice(g: Group, rest: set<MessageId>, ids: seq<MessageId>, minIdle: int, count: int, now: int)
    requires Picked(g, rest, ids, minIdle, now) && |ids| <= BatchSize(count) && (rest == {} || |ids| == BatchSize(count))
    ensures ClaimChoice(g, minIdle, count, now, ids)
  {
  }

  lemma ClaimedIs(g: Group, minIdle: int, count: int, now: int, claimed: seq<Message>)
    requires ClaimChoice(g, minIdle, count, now, IdList(claimed))
    ensures var idle := set id <- g.pending | now - g.pending[id].deliveryTime >= minIdle;
            var size := if count <= 0 then 10 else count;
            && |claimed| == (if size < |idle| then size else |idle|)
            && (forall k | 0 <= k < |claimed| :: claimed[k].id in idle)
            && (forall i, j | 0 <= i < j < |claimed| :: claimed[i].id != claimed[j].id)
  {
    var ids := IdList(claimed);
    ClaimTakes(g, minIdle, count, now, ids);
    assert forall i | 0 <= i < |ids| :: ids[i] == claimed[i].id;
    hide ClaimChoice, IdList;
  }

  class MemoryStreamQueue {
    var streams: map<string, Stream>
    var serial: nat

    function View(): Streams
      reads this
    {
      Streams(streams, serial)
    }

    ghost predicate Valid()
      reads this
    {
      StreamsOk(View())
    }

    constructor ()
      ensures Valid() && View() == Streams(map[], 0)
    {
      streams, serial := map[], 0;
    }

    method GetOrCreateStream(sn: string) returns (st: Stream)
      modifies this`streams
      ensures st == StreamOf(old(View()), sn) && streams == old(streams)[sn := st]
    {
      if sn !in streams {
        streams := streams[sn := NEW_STREAM];
      }
      st := streams[sn];
      assert old(streams)[sn := st] == streams;
    }

    method PublishEvent(ctx: Context, sn: string, e: Event, millis: nat) returns (res: Outcome<MessageId>)
      requires Valid()
      modifies this, ctx
      ensures Valid() && (old(ctx.cancelled) ==> ctx.cancelled)
      ensures res.Err? <==> sn == "" || ctx.cancelled
      ensures res.Err? ==> View() == old(View())
      ensures res.Ok? ==> (View(), res.value) == Queue.PublishEvent(old(View()), sn, e, millis)
      ensures res.Ok? ==>
                && res.value == MessageId(millis, old(serial) + 1) && sn in streams
                && streams[sn].messages == StreamOf(old(View()), sn).messages + [Message(res.value, e.id, e.tenantId, e.eventType, e.payload)]
    {
      if sn == "" {
        return Err(EmptyStream);
      }
      var stop := ctx.Err();
      if stop {
        return Err(Cancelled);
      }
      hide StreamsOk, Append, MessageFor;
      ghost var before := View();
      PublishKeepsStreams(before, sn, e, millis);
      var msgID := MessageId(millis, serial + 1);
      var st := GetOrCreateStream(sn);
      serial, streams := serial + 1, streams[sn := Append(st, MessageFor(msgID, e))];
      assert streams == before.streams[sn := Append(st, MessageFor(msgID, e))];
      assert View() == Queue.PublishEvent(before, sn, e, millis).0;
      return Ok(msgID);
    }

    method CreateConsumerGroup(ctx: Context, sn: string, gn: string, startID: string) returns (res: Outcome<()>)
      requires Valid()
      modifies this, ctx
      ensures Valid() && (old(ctx.cancelled) ==> ctx.cancelled)
      ensures res.Err? <==> sn == "" || gn == "" || ctx.cancelled
      ensures res.Err? ==> View() == old(View())
      ensures res.Ok? ==> View() == Queue.CreateConsumerGroup(old(View()), sn, gn, startID)
      ensures res.Ok? ==>
                var st := StreamOf(old(View()), sn);
                && sn in streams && streams[sn].messages == st.messages && gn in streams[sn].groups
                && streams[sn].groups[gn] == if gn in st.groups then st.groups[gn] else Group(if startID in {"", "$"} then |st.messages| - 1 else -1, map[])
    {
      if sn == "" {
        return Err(EmptyStream);
      }
      if gn == "" {
        return Err(EmptyGroup);
      }
      var stop := ctx.Err();
      if stop {
        return Err(Cancelled);
      }
      hide StreamsOk;
      ghost var before := View();
      CreateKeepsStreams(before, sn, gn, startID);
      var st := GetOrCreateStream(sn);
      if gn in st.groups {
        return Ok(());
      }
      var lastIdx := -1;
      if startID == "$" || startID == "" {
        lastIdx := |st.messages| - 1;
      }
      streams := streams[sn := WithGroup(st, gn, Group(lastIdx, map[]))];
      assert streams == before.streams[sn := WithGroup(st, gn, Group(lastIdx, map[]))];
      return Ok(());
    }

    /** Delivers what is available past the cursor, message by message. */
    static method DeliverNext(messages: seq<Message>, grp: Group, consumer: string, count: int, now: int)
      returns (grp': Group, result: seq<Message>)
      requires CursorOk(messages, grp)
      ensures grp' == Deliver(messages, grp, consumer, count, now)
      ensures result == NextBatch(messages, grp, count)
    {
      var size := if count <= 0 then 10 else count;
      var start := grp.lastDelivered + 1;
      var end := if start + size > |messages| then |messages| else start + size;
      var pending := grp.pending;
      result := [];
      for i := start to end
        invariant result == messages[start..i]
        invariant pending == Enroll(grp.pending, result, consumer, now)
      {
        var msg := messages[i];
        pending := pending[msg.id := PendingEntry(msg, now, consumer)];
        assert (result + [msg])[..|result|] == result;
        result := result + [msg];
      }
      grp' := Group(end - 1, pending);
    }

    /** One pass of the read loop; `now` is the clock reading inside the critical section. */
    method ReadPass(ctx: Context, sn: string, gn: string, consumer: string, count: int, now: int)
      returns (res: Outcome<seq<Message>>)
      requires Valid()
      modifies this, ctx
      ensures Valid() && (old(ctx.cancelled) ==> ctx.cancelled)
      ensures res.Err? <==> ctx.cancelled
      ensures res.Err? ==> View() == old(View())
      ensures CursorOk(StreamOf(old(View()), sn).messages, GroupOf(StreamOf(old(View()), sn), gn))
      ensures res.Ok? ==> (View(), res.value) == Queue.ReadEvents(old(View()), sn, gn, consumer, count, now)
    {
      hide StreamsOk, Deliver, NextBatch, CursorOk;
      ghost var before := View();
      ReadKeepsStreams(before, sn, gn, consumer, count, now);
      var stop := ctx.Err();
      if stop {
        return Err(Cancelled);
      }
      var st := GetOrCreateStream(sn);
      var grp := if gn in st.groups then st.groups[gn] else NEW_GROUP;
      var grp', result := DeliverNext(st.messages, grp, consumer, count, now);
      streams := streams[sn := WithGroup(st, gn, grp')];
      assert streams == before.streams[sn := WithGroup(st, gn, grp')];
      return Ok(result);
    }

    /** Passes until one finds a message, with a wait in between that ends at the deadline, by a
        cancellation, or when the notification channel is closed; the clock brings the loop to
        its deadline. If the queue is `shared`, others use it during the waits. `seen` is the
        queue as the last pass found it, `at` the time of that pass. */
    method ReadEvents(ctx: Context, clock: Clock, sn: string, gn: string, consumer: string, count: int, block: int, shared: bool)
      returns (res: Outcome<seq<Message>>, ghost seen: Streams, ghost at: int)
      requires Valid()
      modifies this, ctx, clock
      ensures Valid() && (old(ctx.cancelled) ==> ctx.cancelled)
      ensures (sn == "" || gn == "" ==> res.Err?) && (res.Err? ==> sn == "" || gn == "" || ctx.cancelled)
      ensures Moved(old(View()), seen) && Moved(old(View()), View())
      ensures CursorOk(StreamOf(seen, sn).messages, GroupOf(StreamOf(seen, sn), gn))
      ensures res.Ok? ==>
                var (q, batch) := Queue.ReadEvents(seen, sn, gn, consumer, count, at);
                res.value == batch && Moved(q, View()) && (batch != [] || block <= 0 || !shared ==> View() == q)
      ensures block <= 0 || !shared ==> seen == old(View())
      ensures res.Ok? ==>
                var messages, last := StreamOf(seen, sn).messages, GroupOf(StreamOf(seen, sn), gn).lastDelivered;
                var size, left := if count <= 0 then 10 else count, |messages| - 1 - last;
                && |res.value| == (if size < left then size else left)
                && 0 <= last + 1 <= last + 1 + |res.value| <= |messages| && res.value == messages[last + 1..last + 1 + |res.value|]
      ensures res == Ok([]) && block > 0 ==> clock.time > old(clock.time) + block
    {
      hide StreamsOk, Moved, Queue.ReadEvents, CursorOk;
      ghost var q0 := View();
      seen, at := q0, 0;
      NotMoved(q0);
      ReadKeepsStreams(q0, sn, gn, consumer, count, at);
      if sn == "" {
        return Err(EmptyStream), seen, at;
      }
      if gn == "" {
        return Err(EmptyGroup), seen, at;
      }
      var deadline := clock.time;
      if block > 0 {
        var started := clock.Now();
        deadline := started + block;
      }
      while true
        invariant Valid() && (old(ctx.cancelled) ==> ctx.cancelled) && Moved(q0, View())
        invariant block <= 0 ==> View() == q0
        invariant block > 0 ==> old(clock.time) + block < deadline && clock.time < deadline
        invariant !shared ==> AsFound(q0, View(), sn, gn, consumer, count)
        decreases deadline - clock.time
      {
        var now := clock.Now();
        seen, at := View(), now;
        ReadKeepsStreams(seen, sn, gn, consumer, count, at);
        ReadMoves(seen, sn, gn, consumer, count, at);
        MovedOn(q0, seen, Queue.ReadEvents(seen, sn, gn, consumer, count, at).0);
        NotMoved(Queue.ReadEvents(seen, sn, gn, consumer, count, at).0);
        res := ReadPass(ctx, sn, gn, consumer, count, now);
        ghost var q := View();
        if !shared {
          ReadKeepsStreams(q0, sn, gn, consumer, count, at);
          StillAsFound(q0, seen, sn, gn, consumer, count, at);
          seen := q0;
        }
        ReadIs(seen, sn, gn, consumer, count, at);
        if res.Err? || |res.value| > 0 || block <= 0 {
          return;
        }
        var checked := clock.Now();
        if deadline - checked <= 0 {
          return Ok([]), seen, at;
        }
        if shared {
          Interleave();
          MovedOn(q0, q, View());
        }
        var done := ctx.Err();
        if done {
          if * {
            return Err(Cancelled), seen, at;
          }
        }
        if * {
          clock.Await(deadline);
          return Ok([]), seen, at;
        }
      }
    }

    /** Any calls of others on the queue, under contexts of their own. */
    method Interleave()
      requires Valid()
      modifies this
      ensures Valid() && Moved(old(View()), View())
    {
      hide StreamsOk, Moved, Queue.ReadEvents, Queue.PublishEvent, Queue.CreateConsumerGroup, Queue.AckEvent, Queue.AutoClaim, CursorOk, ClaimChoice;
      NotMoved(View());
      var calls: int := *;
      while calls > 0
        invariant Valid() && Moved(old(View()), View())
        decreases calls
      {
        calls := calls - 1;
        ghost var q := View();
        OtherCall();
        MovedOn(old(View()), q, View());
      }
    }

    method OtherCall()
      requires Valid()
      modifies this
      ensures Valid() && Moved(old(View()), View())
    {
      hide StreamsOk, Moved, Queue.ReadEvents, Queue.PublishEvent, Queue.CreateConsumerGroup, Queue.AckEvent, Queue.AutoClaim, CursorOk, ClaimChoice;
      ghost var q := View();
      NotMoved(q);
      var other := new Context();
      var sn: string, gn: string, name: string := *, *, *;
      var count: int, now: int, idle: int := *, *, *;
      if * {
        var event: Event := *;
        var millis: nat := *;
        PublishMoves(q, sn, event, millis);
        var published := PublishEvent(other, sn, event, millis);
      } else if * {
        CreateMoves(q, sn, gn, name);
        var created := CreateConsumerGroup(other, sn, gn, name);
      } else if * {
        ReadKeepsStreams(q, sn, gn, name, count, now);
        ReadMoves(q, sn, gn, name, count, now);
        var read := ReadPass(other, sn, gn, name, count, now);
      } else if * {
        var ids: seq<MessageId> := *;
        AckMoves(q, sn, gn, ids);
        var acked := AckEvent(other, sn, gn, ids);
      } else {
        var claimed := AutoClaim(other, sn, gn, name, idle, count, now);
        if claimed.Ok? {
          ClaimMoves(q, sn, gn, IdList(claimed.value), name, now);
        }
      }
    }

    method AckEvent(ctx: Context, sn: string, gn: string, ids: seq<MessageId>) returns (res: Outcome<()>)
      requires Valid()
      modifies this, ctx
      ensures Valid() && (old(ctx.cancelled) ==> ctx.cancelled)
      ensures ids != [] ==> (res.Err? <==> sn == "" || gn == "" || ctx.cancelled)
      ensures res.Err? || ids == [] ==> View() == old(View())
      ensures res.Ok? && ids != [] ==> View() == Queue.AckEvent(old(View()), sn, gn, ids)
    {
      hide StreamsOk, Forget;
      AckKeepsStreams(View(), sn, gn, ids);
      if ids == [] {
        return Ok(());
      }
      if sn == "" {
        return Err(EmptyStream);
      }
      if gn == "" {
        return Err(EmptyGroup);
      }
      var stop := ctx.Err();
      if stop {
        return Err(Cancelled);
      }
      if sn !in streams || gn !in streams[sn].groups {
        return Ok(());
      }
      var grp := DeleteEntries(streams[sn].groups[gn], ids);
      streams := streams[sn := WithGroup(streams[sn], gn, grp)];
      return Ok(());
    }

    static method DeleteEntries(grp: Group, ids: seq<MessageId>) returns (grp': Group)
      ensures grp' == Forget(grp, ids)
    {
      hide Forget;
      grp' := grp;
      ForgetNone(grp);
      for i := 0 to |ids|
        invariant grp' == Forget(grp, ids[..i])
      {
        ForgetOneMore(grp, ids, i);
        grp' := grp'.(pending := grp'.pending - {ids[i]});
      }
      assert ids[..|ids|] == ids;
    }

    /** Visits the pending entries in an arbitrary order and re-leases idle ones up to a batch. */
    static method ClaimIdle(grp: Group, consumer: string, minIdle: int, count: int, now: int)
      returns (grp': Group, claimed: seq<Message>, ghost ids: seq<MessageId>)
      ensures ClaimChoice(grp, minIdle, count, now, ids)
      ensures grp' == Claim(grp, ids, consumer, now)
      ensures |claimed| == |ids| && forall k | 0 <= k < |ids| :: ids[k] in grp.pending && grp.pending[ids[k]].msg == claimed[k]
    {
      hide Claim, Picked, ClaimChoice;
      var size := if count <= 0 then 10 else count;
      var pending := grp.pending;
      claimed, ids := [], [];
      NothingPicked(grp, consumer, minIdle, now);
      var rest := grp.pending.Keys;
      while rest != {} && |claimed| < size
        invariant rest <= grp.pending.Keys && |ids| == |claimed| <= size
        invariant forall k | 0 <= k < |ids| :: ids[k] in grp.pending && grp.pending[ids[k]].msg == claimed[k]
        invariant Picked(grp, rest, ids, minIdle, now)
        invariant grp.(pending := pending) == Claim(grp, ids, consumer, now)
        decreases |rest|
      {
        var id :| id in rest;
        var entry := grp.pending[id];
        PickNext(grp, rest, ids, consumer, minIdle, now, id);
        if now - entry.deliveryTime >= minIdle {
          claimed := claimed + [entry.msg];
          pending := pending[id := PendingEntry(entry.msg, now, consumer)];
          ids := ids + [id];
        }
        rest := rest - {id};
      }
      PickedIsChoice(grp, rest, ids, minIdle, count, now);
      grp' := grp.(pending := pending);
    }

    method AutoClaim(ctx: Context, sn: string, gn: string, consumer: string, minIdle: int, count: int, now: int)
      returns (res: Outcome<seq<Message>>)
      requires Valid()
      modifies this, ctx
      ensures Valid() && (old(ctx.cancelled) ==> ctx.cancelled)
      ensures res.Err? <==> sn == "" || gn == "" || ctx.cancelled
      ensures res.Err? ==> View() == old(View())
      ensures var g := GroupOf(StreamOf(old(View()), sn), gn);
              res.Ok? ==>
                && ClaimChoice(g, minIdle, count, now, IdList(res.value))
                && (forall k | 0 <= k < |res.value| :: res.value[k].id in g.pending && g.pending[res.value[k].id].msg == res.value[k])
                && View() == Queue.AutoClaim(old(View()), sn, gn, IdList(res.value), consumer, now)
      ensures var p := GroupOf(StreamOf(old(View()), sn), gn).pending;
              var idle := set id <- p | now - p[id].deliveryTime >= minIdle;
              var size := if count <= 0 then 10 else count;
              res.Ok? ==>
                && |res.value| == (if size < |idle| then size else |idle|)
                && (forall k | 0 <= k < |res.value| :: res.value[k].id in idle)
                && (forall i, j | 0 <= i < j < |res.value| :: res.value[i].id != res.value[j].id)
    {
      if sn == "" {
        return Err(EmptyStream);
      }
      if gn == "" {
        return Err(EmptyGroup);
      }
      var stop := ctx.Err();
      if stop {
        return Err(Cancelled);
      }
      if sn !in streams || gn !in streams[sn].groups {
        ClaimedIs(GroupOf(StreamOf(View(), sn), gn), minIdle, count, now, []);
        return Ok([]);
      }
      ghost var before := View();
      var grp := streams[sn].groups[gn];
      assert GroupOk(before.streams[sn].messages, grp);
      hide StreamsOk, ClaimChoice;
      var grp', claimed, ids := ClaimIdle(grp, consumer, minIdle, count, now);
      streams := streams[sn := WithGroup(streams[sn], gn, grp')];
      ClaimKeepsStreams(before, sn, gn, ids, consumer, now);
      assert IdList(claimed) == ids;
      ClaimedIs(grp, minIdle, count, now, claimed);
      return Ok(claimed);
    }
  }
}
