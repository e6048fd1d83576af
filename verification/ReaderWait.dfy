/** The blocking side of `ReadEvents`: readers check under the lock, and otherwise wait on the
    channel they saw there. Publishers and readers interleave between critical sections. */
module ReaderWait {
  import opened Domain
  import opened Queue

  datatype Reader = Returned | Waiting(group: string, channel: nat)

  datatype System = System(stream: Stream, readers: map<nat, Reader>)

  datatype Action =
    | Publish(msg: Message)
    | Create(group: string, startID: string)
    | Enter(reader: nat, group: string, consumer: string, count: int, now: int, block: bool)
    | Wake(reader: nat, consumer: string, count: int, now: int)
    | GiveUp(reader: nat)
    | Ack(group: string, ids: seq<MessageId>)
    | Reclaim(group: string, ids: seq<MessageId>, consumer: string, now: int)

  const INITIAL := System(NEW_STREAM, map[])

  ghost predicate CursorsOk(st: Stream) {
    forall gn <- st.groups :: CursorOk(st.messages, st.groups[gn])
  }

  /** The critical section of the read loop: deliver, or wait on the current channel. */
  function Check(s: System, r: nat, gn: string, consumer: string, count: int, now: int, block: bool): System
    requires CursorsOk(s.stream)
  {
    var g := GroupOf(s.stream, gn);
    if g.lastDelivered + 1 < |s.stream.messages| then
      System(ReadIn(s.stream, gn, consumer, count, now), s.readers[r := Returned])
    else
      System(WithGroup(s.stream, gn, g), s.readers[r := if block then Waiting(gn, s.stream.notify) else Returned])
  }

  function Next(s: System, a: Action): System
    requires CursorsOk(s.stream)
  {
    match a
    case Publish(m) => s.(stream := Append(s.stream, m))
    case Create(gn, startID) => s.(stream := AddGroup(s.stream, gn, startID))
    case Enter(r, gn, consumer, count, now, block) =>
      if r in s.readers && s.readers[r].Waiting? then s else Check(s, r, gn, consumer, count, now, block)
    case Wake(r, consumer, count, now) =>
      if r in s.readers && s.readers[r].Waiting? && s.readers[r].channel in s.stream.closed
      then Check(s, r, s.readers[r].group, consumer, count, now, true) else s
    case GiveUp(r) => s.(readers := s.readers[r := Returned])
    case Ack(gn, ids) => s.(stream := AckIn(s.stream, gn, ids))
    case Reclaim(gn, ids, consumer, now) => s.(stream := ClaimIn(s.stream, gn, ids, consumer, now))
  }

  ghost predicate Available(st: Stream, gn: string) {
    GroupOf(st, gn).lastDelivered + 1 < |st.messages|
  }

  /** Replaced channels are exactly the closed ones, and waiting on the current one means the
      group had caught up. */
  ghost predicate Inv(s: System) {
    && CursorsOk(s.stream)
    && (forall c: nat :: c in s.stream.closed <==> c < s.stream.notify)
    && (forall r <- s.readers | s.readers[r].Waiting? ::
          && s.readers[r].group in s.stream.groups
          && s.readers[r].channel <= s.stream.notify
          && (s.readers[r].channel == s.stream.notify ==> !Available(s.stream, s.readers[r].group)))
  }

  /** One group changed, and its cursor did not move back. */
  lemma GroupKeepsInv(s: System, gn: string, g: Group)
    requires Inv(s) && CursorOk(s.stream.messages, g) && g.lastDelivered >= GroupOf(s.stream, gn).lastDelivered
    ensures Inv(s.(stream := WithGroup(s.stream, gn, g)))
  {
  }

  lemma ReaderKeepsInv(s: System, r: nat, reader: Reader)
    requires Inv(s)
    requires reader.Waiting? ==> reader.group in s.stream.groups && reader.channel == s.stream.notify && !Available(s.stream, reader.group)
    ensures Inv(s.(readers := s.readers[r := reader]))
  {
  }

  lemma DeliverMovesOn(messages: seq<Message>, g: Group, consumer: string, count: int, now: int)
    requires CursorOk(messages, g)
    ensures CursorOk(messages, Deliver(messages, g, consumer, count, now)) && Deliver(messages, g, consumer, count, now).lastDelivered >= g.lastDelivered
  {
  }

  lemma CheckKeepsInv(s: System, r: nat, gn: string, consumer: string, count: int, now: int, block: bool)
    requires Inv(s)
    ensures Inv(Check(s, r, gn, consumer, count, now, block))
  {
    var g := GroupOf(s.stream, gn);
    assert CursorOk(s.stream.messages, g);
    DeliverMovesOn(s.stream.messages, g, consumer, count, now);
    hide Inv, Deliver, CursorOk;
    if g.lastDelivered + 1 < |s.stream.messages| {
      var g' := Deliver(s.stream.messages, g, consumer, count, now);
      GroupKeepsInv(s, gn, g');
      ReaderKeepsInv(s.(stream := WithGroup(s.stream, gn, g')), r, Returned);
    } else {
      GroupKeepsInv(s, gn, g);
      ReaderKeepsInv(s.(stream := WithGroup(s.stream, gn, g)), r, if block then Waiting(gn, s.stream.notify) else Returned);
    }
  }

  lemma PublishKeepsInv(s: System, m: Message)
    requires Inv(s)
    ensures Inv(Next(s, Publish(m)))
  {
  }

  lemma OtherStepsKeepInv(s: System, a: Action)
    requires Inv(s) && (a.Create? || a.GiveUp? || a.Ack? || a.Reclaim?)
    ensures Inv(Next(s, a))
  {
  }

  lemma NextKeepsInv(s: System, a: Action)
    requires Inv(s)
    ensures Inv(Next(s, a))
  {
    assert CursorsOk(s.stream);
    hide Inv, Check;
    match a
    case Publish(m) => PublishKeepsInv(s, m);
    case Enter(r, gn, consumer, count, now, block) => CheckKeepsInv(s, r, gn, consumer, count, now, block);
    case Wake(r, consumer, count, now) =>
      if r in s.readers && s.readers[r].Waiting? {
        CheckKeepsInv(s, r, s.readers[r].group, consumer, count, now, true);
      }
    case _ => OtherStepsKeepInv(s, a);
  }

  /** Any interleaving of publishers, readers, acks and claims. */
  ghost function Run(actions: seq<Action>): (s: System)
    ensures Inv(s)
  {
    if actions == [] then INITIAL
    else
      var s := Run(actions[..|actions| - 1]);
      NextKeepsInv(s, actions[|actions| - 1]);
      Next(s, actions[|actions| - 1])
  }

  /** No lost wakeup: a reader whose channel is still open has nothing to read, and the next
      publication closes the channel of every waiting reader. */
  lemma NoLostWakeup(actions: seq<Action>, m: Message)
    ensures var s := Run(actions);
            && (forall r <- s.readers | s.readers[r].Waiting? && s.readers[r].channel !in s.stream.closed ::
                  !Available(s.stream, s.readers[r].group))
            && (forall r <- s.readers | s.readers[r].Waiting? :: s.readers[r].channel in Next(s, Publish(m)).stream.closed)
  {
  }
}
