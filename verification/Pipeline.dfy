/** The delivery pipeline as one state machine: ingestion, any number of relays, any number of
    workers and reclaimers, and DLQ replay interleave at each repository and queue call;
    relays and consumers crash, calls fail and cancellations arrive between any two steps. */
module Pipeline {
  import opened Domain
  import opened Storage
  import opened Queue
  import opened Delivery

  /** `Publishing`: about to publish the first record; `Marking`: about to mark it. */
  datatype Relay = Publishing(todo: seq<OutboxRecord>) | Marking(todo: seq<OutboxRecord>)

  /** Where a consumer stands with the first message of its batch. `wrote` says that a status
      was written for the event, or that the fence found one. */
  datatype Stage =
    | Boundary
    | Fencing
    | Resolving
    | Calling(k: nat, n: nat, wrote: bool)
    | Answered(k: nat, n: nat, wrote: bool, h: HttpResult)
    | Writing(k: nat, wrote: bool, verdict: EventStatus)
    | AtCeiling
    | Finishing(wrote: bool)

  /** `era` is the generation of the event that the consumer saw at the fence. */
  datatype Consumer = Consumer(todo: seq<Message>, stage: Stage, eps: seq<Endpoint>, cancelled: bool, era: nat)

  datatype Round = Round(eventId: EventId, era: nat)

  /** `gen` gives the outbox record that last made an event PENDING, `origins[i]` the record
      from which the i-th message was published; `abandoned` holds the messages acked without
      any status having been written, `rounds` the completed dispatch rounds. These and
      `replays` record history: no step reads them. */
  datatype System = System(
    repo: Repo, log: seq<Message>, group: Group,
    relays: map<nat, Relay>, consumers: map<nat, Consumer>,
    gen: map<EventId, nat>, origins: seq<nat>, abandoned: set<MessageId>,
    rounds: seq<Round>, replays: map<EventId, nat>)

  const INITIAL := System(EMPTY, [], NEW_GROUP, map[], map[], map[], [], {}, [], map[])

  datatype Action =
    | Ingest(event: Event)
    | Replay(tenantId: string, eventIds: seq<EventId>)
    | SetEndpoints(endpoints: map<string, Endpoint>)
    | Fetch(r: nat, batch: seq<OutboxRecord>)
    | Publish(r: nat, millis: nat)
    | Mark(r: nat)
    | CrashRelay(r: nat)
    | Read(c: nat, consumer: string, count: int, now: int)
    | Claim(c: nat, consumer: string, minIdle: int, count: int, now: int, ids: seq<MessageId>)
    | Begin(c: nat, overCeiling: bool)
    | Fence(c: nat)
    | Resolve(c: nat, eps: seq<Endpoint>)
    | Call(c: nat, h: HttpResult)
    | Record(c: nat, attemptId: nat, maxRetries: int)
    | Write(c: nat)
    | WriteCeiling(c: nat)
    | Ack(c: nat, failed: bool)
    | Cancel(c: nat)
    | Crash(c: nat)

  function ConsumerOf(s: System, c: nat): Consumer {
    if c in s.consumers then s.consumers[c] else Consumer([], Boundary, [], false, 0)
  }

  /** The stage of a consumer that has a message in hand. */
  function StageOf(s: System, c: nat): Option<Stage> {
    if ConsumerOf(s, c).todo != [] then Some(ConsumerOf(s, c).stage) else None
  }

  function Head(s: System, c: nat): Message
    requires StageOf(s, c).Some?
  {
    ConsumerOf(s, c).todo[0]
  }

  function SetConsumer(s: System, c: nat, con: Consumer): System {
    s.(consumers := s.consumers[c := con])
  }

  function To(s: System, c: nat, stage: Stage): System {
    SetConsumer(s, c, ConsumerOf(s, c).(stage := stage))
  }

  function SetRelay(s: System, r: nat, relay: Relay): System {
    s.(relays := s.relays[r := relay])
  }

  function RelayOf(s: System, r: nat): Relay {
    if r in s.relays then s.relays[r] else Publishing([])
  }

  function DoIngest(s: System, e: Event): System {
    var (repo, res) := CreateEventWithOutbox(s.repo, e.(status := Pending), OutboxRecord(0, e.id, OutboxPending));
    if res.Ok? then s.(repo := repo, gen := s.gen[e.id := res.value], replays := s.replays[e.id := 0]) else s.(repo := repo)
  }

  /** The generation of a replayed event is its new record. */
  function NewGen(r: Repo, gen: map<EventId, nat>, hits: seq<EventId>): map<EventId, nat> {
    if hits == [] then gen
    else NewGen(r, gen, hits[..|hits| - 1])[hits[|hits| - 1] := r.nextOutboxID + |hits|]
  }

  function CountUp(counts: map<EventId, nat>, hits: seq<EventId>): map<EventId, nat> {
    map e <- counts :: if e in hits then counts[e] + 1 else counts[e]
  }

  function DoReplay(s: System, tenantId: string, ids: seq<EventId>): System {
    var hits := Hits(s.repo, tenantId, ids);
    s.(repo := ReplayDLQEvents(s.repo, tenantId, ids).0, gen := NewGen(s.repo, s.gen, hits), replays := CountUp(s.replays, hits))
  }

  function DoPublish(s: System, r: nat, millis: nat): System {
    var todo := RelayOf(s, r).todo;
    if !RelayOf(s, r).Publishing? || todo == [] then s
    else if todo[0].eventId !in s.repo.events then SetRelay(s, r, Publishing(todo[1..]))
    else
      var m := MessageFor(MessageId(millis, |s.log| + 1), s.repo.events[todo[0].eventId]);
      SetRelay(s, r, Marking(todo)).(log := s.log + [m], origins := s.origins + [todo[0].id])
  }

  function DoMark(s: System, r: nat): System {
    var todo := RelayOf(s, r).todo;
    if !RelayOf(s, r).Marking? || todo == [] then s
    else SetRelay(s, r, Publishing(todo[1..])).(repo := MarkOutboxPublished(s.repo, todo[0].id).0)
  }

  function DoRead(s: System, c: nat, consumer: string, count: int, now: int): System {
    var con := ConsumerOf(s, c);
    if con.todo != [] || con.cancelled || !CursorOk(s.log, s.group) then s
    else SetConsumer(s, c, con.(todo := NextBatch(s.log, s.group, count), stage := Boundary)).(group := Deliver(s.log, s.group, consumer, count, now))
  }

  function Entries(g: Group, ids: seq<MessageId>): seq<Message>
    requires forall id <- ids :: id in g.pending
  {
    seq(|ids|, i requires 0 <= i < |ids| => assert ids[i] in ids; g.pending[ids[i]].msg)
  }

  function DoClaim(s: System, c: nat, consumer: string, minIdle: int, count: int, now: int, ids: seq<MessageId>): System {
    var con := ConsumerOf(s, c);
    if con.todo != [] || con.cancelled || !ClaimChoice(s.group, minIdle, count, now, ids) then s
    else SetConsumer(s, c, con.(todo := Entries(s.group, ids), stage := Boundary)).(group := Queue.Claim(s.group, ids, consumer, now))
  }

  /** A cancelled consumer drops the rest of its batch at the next message. */
  function DoBegin(s: System, c: nat, overCeiling: bool): System {
    if StageOf(s, c) != Some(Boundary) then s
    else if ConsumerOf(s, c).cancelled then SetConsumer(s, c, ConsumerOf(s, c).(todo := []))
    else if overCeiling then To(s, c, AtCeiling)
    else if Head(s, c).tenantId == "" then To(s, c, Finishing(false))
    else To(s, c, Fencing)
  }

  function DoFence(s: System, c: nat): System {
    if StageOf(s, c) != Some(Fencing) then s
    else
      var e := Head(s, c).eventId;
      if !ConsumerOf(s, c).cancelled && e in s.repo.events && (s.repo.events[e].status == Delivered || s.repo.events[e].status == DLQ)
      then To(s, c, Finishing(true))
      else SetConsumer(s, c, ConsumerOf(s, c).(stage := Resolving, era := if e in s.gen then s.gen[e] else 0))
  }

  function DoResolve(s: System, c: nat, eps: seq<Endpoint>): System {
    if StageOf(s, c) != Some(Resolving) then s
    else if ConsumerOf(s, c).cancelled then To(s, c, Finishing(false))
    else if !Lists(s.repo, Head(s, c).tenantId, eps) then s
    else if eps == [] then To(s, c, Finishing(false))
    else SetConsumer(s, c, ConsumerOf(s, c).(stage := Calling(0, 1, false), eps := eps))
  }

  /** One HTTP exchange; past the last endpoint the round is complete. */
  function DoCall(s: System, c: nat, h: HttpResult): System {
    var con := ConsumerOf(s, c);
    if con.todo == [] || !con.stage.Calling? then s
    else
      var Calling(k, n, wrote) := con.stage;
      if k >= |con.eps| then
        To(s, c, Finishing(wrote)).(rounds := if wrote then s.rounds + [Round(con.todo[0].eventId, con.era)] else s.rounds)
      else if con.cancelled then To(s, c, Finishing(wrote))
      else if !con.eps[k].urlParses then To(s, c, Calling(k + 1, 1, wrote))
      else To(s, c, Answered(k, n, wrote, h))
  }

  /** The attempt is recorded; a failed recording skips the status write. */
  function DoRecord(s: System, c: nat, attemptId: nat, maxRetries: int): System {
    var con := ConsumerOf(s, c);
    if con.todo == [] || !con.stage.Answered? || con.stage.k >= |con.eps| then s
    else
      var Answered(k, n, wrote, h) := con.stage;
      var status := Classify(h, n, maxRetries);
      var onward := if status == Retrying then Calling(k, n + 1, wrote) else Calling(k + 1, 1, wrote);
      if con.cancelled then To(s, c, onward)
      else
        var (repo, res) := RecordDeliveryAttempt(s.repo, AttemptFor(attemptId, con.todo[0].eventId, con.eps[k].id, n, h, maxRetries));
        if res.Err? || status == Retrying then To(s, c, onward).(repo := repo)
        else To(s, c, Writing(k, wrote, Verdict(status))).(repo := repo)
  }

  function DoWrite(s: System, c: nat): System {
    var con := ConsumerOf(s, c);
    if con.todo == [] || !con.stage.Writing? then s
    else
      var Writing(k, wrote, verdict) := con.stage;
      if con.cancelled then To(s, c, Calling(k + 1, 1, wrote))
      else
        var (repo, res) := UpdateEventStatus(s.repo, con.todo[0].eventId, verdict);
        To(s, c, Calling(k + 1, 1, wrote || res.Ok?)).(repo := repo)
  }

  function DoWriteCeiling(s: System, c: nat): System {
    if StageOf(s, c) != Some(AtCeiling) then s
    else if ConsumerOf(s, c).cancelled then To(s, c, Finishing(false))
    else
      var (repo, res) := UpdateEventStatus(s.repo, Head(s, c).eventId, DLQ);
      To(s, c, Finishing(res.Ok?)).(repo := repo)
  }

  function DoAck(s: System, c: nat, failed: bool): System {
    var con := ConsumerOf(s, c);
    if con.todo == [] || !con.stage.Finishing? then s
    else
      var s' := SetConsumer(s, c, con.(todo := con.todo[1..], stage := Boundary));
      if failed || con.cancelled then s'
      else s'.(group := Forget(s.group, [con.todo[0].id]),
           abandoned := if con.stage.wrote then s.abandoned else s.abandoned + {con.todo[0].id})
  }

  function Next(s: System, a: Action): System {
    match a
    case Ingest(e) => if e.tenantId == "" then s else DoIngest(s, e)
    case Replay(tenantId, ids) => DoReplay(s, tenantId, ids)
    case SetEndpoints(endpoints) => s.(repo := s.repo.(endpoints := endpoints))
    case Fetch(r, batch) =>
      if RelayOf(s, r) == Publishing([]) && forall ob <- batch :: ob.id in PendingIds(s.repo) && s.repo.outbox[ob.id] == ob
      then SetRelay(s, r, Publishing(batch)) else s
    case Publish(r, millis) => DoPublish(s, r, millis)
    case Mark(r) => DoMark(s, r)
    case CrashRelay(r) => SetRelay(s, r, Publishing([]))
    case Read(c, consumer, count, now) => DoRead(s, c, consumer, count, now)
    case Claim(c, consumer, minIdle, count, now, ids) => DoClaim(s, c, consumer, minIdle, count, now, ids)
    case Begin(c, overCeiling) => DoBegin(s, c, overCeiling)
    case Fence(c) => DoFence(s, c)
    case Resolve(c, eps) => DoResolve(s, c, eps)
    case Call(c, h) => DoCall(s, c, h)
    case Record(c, attemptId, maxRetries) => DoRecord(s, c, attemptId, maxRetries)
    case Write(c) => DoWrite(s, c)
    case WriteCeiling(c) => DoWriteCeiling(s, c)
    case Ack(c, failed) => DoAck(s, c, failed)
    case Cancel(c) => SetConsumer(s, c, ConsumerOf(s, c).(cancelled := true))
    case Crash(c) => SetConsumer(s, c, Consumer([], Boundary, [], false, 0))
  }

  function Run(s: System, actions: seq<Action>): System {
    if actions == [] then s else Next(Run(s, actions[..|actions| - 1]), actions[|actions| - 1])
  }

  /** The action is a step of consumer `c`, and not its crash. */
  predicate ConsumerAction(a: Action, c: nat) {
    match a
    case Read(x, _, _, _) => x == c
    case Claim(x, _, _, _, _, _) => x == c
    case Begin(x, _) => x == c
    case Fence(x) => x == c
    case Resolve(x, _) => x == c
    case Call(x, _) => x == c
    case Record(x, _, _) => x == c
    case Write(x) => x == c
    case WriteCeiling(x) => x == c
    case Ack(x, _) => x == c
    case Cancel(x) => x == c
    case _ => false
  }
}
