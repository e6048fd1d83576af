/** `internal/storage/memory.go`: what each repository call does to the stored maps, as
    functions of a snapshot, and what those functions guarantee. */
module Storage {
  import opened Domain

  datatype Repo = Repo(
    endpoints: map<string, Endpoint>,
    events: map<EventId, Event>,
    outbox: map<nat, OutboxRecord>,
    attempts: map<nat, Attempt>,
    index: map<string, EventId>,
    nextOutboxID: nat)

  const EMPTY := Repo(map[], map[], map[], map[], map[], 0)

  function CompositeKey(tenantId: string, key: string): string {
    tenantId + ":" + key
  }

  /** Outbox records are filed under their own ID, IDs are never reused, and every record
      belongs to a stored event. */
  ghost predicate WellFormed(r: Repo) {
    && (forall e <- r.events :: r.events[e].id == e && r.events[e].status != Failed)
    && (forall o <- r.outbox :: r.outbox[o].id == o && 0 < o <= r.nextOutboxID && r.outbox[o].eventId in r.events)
  }

  function PendingIds(r: Repo): set<nat> {
    set o <- r.outbox | r.outbox[o].status == OutboxPending
  }

  function OutboxOf(r: Repo, e: EventId): set<nat> {
    set o <- r.outbox | r.outbox[o].eventId == e
  }

  function ActiveEndpoints(r: Repo, tenantId: string): set<Endpoint> {
    set i <- r.endpoints | r.endpoints[i].tenantId == tenantId && r.endpoints[i].isActive :: r.endpoints[i]
  }

  /** The IDs under which an endpoint is registered: one, unless two registrations are alike. */
  function Registrations(endpoints: map<string, Endpoint>, ep: Endpoint): set<string> {
    set i <- endpoints | endpoints[i] == ep
  }

  /** The active endpoints of a tenant, in the map's arbitrary order, each registration once. */
  predicate Lists(repo: Repo, tenantId: string, eps: seq<Endpoint>) {
    && (forall ep <- eps :: ep in ActiveEndpoints(repo, tenantId) && multiset(eps)[ep] == |Registrations(repo.endpoints, ep)|)
    && (forall ep <- ActiveEndpoints(repo, tenantId) :: ep in eps)
  }

  /** An endpoint that a delivery can actually be attempted on. */
  predicate Serviceable(eps: set<Endpoint>) {
    exists ep <- eps :: ep.urlParses
  }

  function CreateEventWithOutbox(r: Repo, e: Event, ob: OutboxRecord): (res: (Repo, Outcome<nat>)) {
    var key := CompositeKey(e.tenantId, e.idempotencyKey);
    if e.idempotencyKey != "" && key in r.index then (r, Err(DuplicateKey))
    else
      var r1 := if e.idempotencyKey != "" then r.(index := r.index[key := e.id]) else r;
      if e.id in r1.events then (r1, Err(DuplicateKey))
      else
        var o := r.nextOutboxID + 1;
        (r1.(nextOutboxID := o, events := r.events[e.id := e], outbox := r.outbox[o := ob.(id := o)]), Ok(o))
  }

  function MarkOutboxPublished(r: Repo, o: nat): (Repo, Outcome<()>) {
    if o !in r.outbox then (r, Err(NotFound))
    else (r.(outbox := r.outbox[o := r.outbox[o].(status := OutboxPublished)]), Ok(()))
  }

  function RecordDeliveryAttempt(r: Repo, a: Attempt): (Repo, Outcome<()>) {
    if a.id in r.attempts then (r, Err(DuplicateKey))
    else (r.(attempts := r.attempts[a.id := a]), Ok(()))
  }

  function UpdateEventStatus(r: Repo, e: EventId, s: EventStatus): (Repo, Outcome<()>) {
    if e !in r.events then (r, Err(NotFound))
    else (r.(events := r.events[e := r.events[e].(status := s)]), Ok(()))
  }

  predicate Replayable(r: Repo, tenantId: string, e: EventId) {
    e in r.events && r.events[e].tenantId == tenantId && r.events[e].status == DLQ
  }

  function ReplayOne(r: Repo, tenantId: string, e: EventId): Repo {
    if !Replayable(r, tenantId, e) then r
    else
      var o := r.nextOutboxID + 1;
      r.(events := r.events[e := r.events[e].(status := Pending)],
      nextOutboxID := o,
      outbox := r.outbox[o := OutboxRecord(o, r.events[e].id, OutboxPending)])
  }

  function ReplayDLQEvents(r: Repo, tenantId: string, ids: seq<EventId>): (Repo, nat) {
    if ids == [] then (r, 0)
    else
      var (r1, n) := ReplayDLQEvents(r, tenantId, ids[..|ids| - 1]);
      var e := ids[|ids| - 1];
      (ReplayOne(r1, tenantId, e), if Replayable(r1, tenantId, e) then n + 1 else n)
  }

  // ---------------------------------------------------------------------------------------
  // Event creation
  // ---------------------------------------------------------------------------------------

  /** What a successful creation adds: one event, and one PENDING record under a fresh ID. */
  ghost predicate Created(r: Repo, r': Repo, e: Event, o: nat) {
    && e.id !in r.events && r'.events == r.events[e.id := e]
    && o == r.nextOutboxID + 1 == r'.nextOutboxID
    && r'.outbox == r.outbox[o := OutboxRecord(o, e.id, OutboxPending)]
    && (forall k <- r.index :: k in r'.index && r'.index[k] == r.index[k])
    && r'.endpoints == r.endpoints && r'.attempts == r.attempts
  }

  /** Creation with a fresh event ID is all or nothing: either the event, its PENDING record
      and its claim on the key all appear, or the repository is untouched. */
  lemma CreateIsAllOrNothing(r: Repo, e: Event, ob: OutboxRecord)
    requires WellFormed(r) && e.id !in r.events
    requires ob.eventId == e.id && ob.status == OutboxPending && e.status == Pending
    ensures var (r', res) := CreateEventWithOutbox(r, e, ob);
            var key := CompositeKey(e.tenantId, e.idempotencyKey);
            && WellFormed(r')
            && (res.Ok? <==> e.idempotencyKey == "" || key !in r.index)
            && (res.Err? ==> r' == r)
            && (res.Ok? ==> Created(r, r', e, res.value))
            && (res.Ok? ==> r'.index == if e.idempotencyKey == "" then r.index else r.index[key := e.id])
  {
  }

  /** A failing creation leaves the repository as it was exactly when it did not claim the
      idempotency key for an event ID that is already taken: the index is written before
      the duplicate-ID check. */
  lemma FailedCreateRollsBackIff(r: Repo, e: Event, ob: OutboxRecord)
    requires CreateEventWithOutbox(r, e, ob).1.Err?
    ensures CreateEventWithOutbox(r, e, ob).0 == r <==>
            e.idempotencyKey == "" || CompositeKey(e.tenantId, e.idempotencyKey) in r.index
  {
    var key := CompositeKey(e.tenantId, e.idempotencyKey);
    if e.idempotencyKey != "" && key !in r.index {
      assert key in CreateEventWithOutbox(r, e, ob).0.index;
    }
  }

  /** It does happen: whoever files two events under one ID, the second with a key of its own,
      has that key taken by an event that was never filed under it. */
  lemma DuplicateIdClaimsKey(e1: Event, e2: Event, ob1: OutboxRecord, ob2: OutboxRecord)
    requires e1.id == e2.id && e2.idempotencyKey != ""
    requires e1.idempotencyKey == "" || CompositeKey(e1.tenantId, e1.idempotencyKey) != CompositeKey(e2.tenantId, e2.idempotencyKey)
    ensures var r1 := CreateEventWithOutbox(EMPTY, e1, ob1).0;
            var (r2, res) := CreateEventWithOutbox(r1, e2, ob2);
            var key := CompositeKey(e2.tenantId, e2.idempotencyKey);
            res == Err(DuplicateKey) && r2.events == map[e1.id := e1] && key in r2.index && r2.index[key] == e1.id && r2 != r1
  {
    var r1 := CreateEventWithOutbox(EMPTY, e1, ob1).0;
    FailedCreateRollsBackIff(r1, e2, ob2);
  }

  lemma KeyPrefix(t1: string, k1: string, t2: string, k2: string)
    requires CompositeKey(t1, k1) == CompositeKey(t2, k2) && |t1| <= |t2|
    ensures t1 + ":" <= t2 + ":"
  {
    var c := CompositeKey(t1, k1);
    assert c[..|t1| + 1] == t1 + ":";
    assert c[..|t2| + 1] == t2 + ":";
  }

  lemma PrefixSharesKey(t1: string, t2: string)
    requires t1 + ":" <= t2 + ":"
    ensures exists k1, k2 :: k1 != "" && k2 != "" && CompositeKey(t1, k1) == CompositeKey(t2, k2)
  {
    var k2 := "k";
    var k1 := (t2 + ":")[|t1| + 1..] + k2;
    assert t1 + ":" + (t2 + ":")[|t1| + 1..] == t2 + ":";
    assert CompositeKey(t1, k1) == CompositeKey(t2, k2) && k1 != "" && k2 != "";
  }

  /** Two tenants can claim the same composite key exactly if one ID, ended by the colon, is a
      prefix of the other. */
  lemma TenantsShareKeyIff(t1: string, t2: string)
    ensures (exists k1, k2 :: k1 != "" && k2 != "" && CompositeKey(t1, k1) == CompositeKey(t2, k2))
       <==> t1 + ":" <= t2 + ":" || t2 + ":" <= t1 + ":"
  {
    if k1, k2 :| k1 != "" && k2 != "" && CompositeKey(t1, k1) == CompositeKey(t2, k2) {
      if |t1| <= |t2| {
        KeyPrefix(t1, k1, t2, k2);
      } else {
        KeyPrefix(t2, k2, t1, k1);
      }
    }
    if t1 + ":" <= t2 + ":" {
      PrefixSharesKey(t1, t2);
    } else if t2 + ":" <= t1 + ":" {
      PrefixSharesKey(t2, t1);
    }
  }

  lemma ColonFreeExtension(t1: string, t2: string)
    requires t1 + ":" <= t2 + ":" && ':' !in t2
    ensures t1 == t2
  {
    assert (t2 + ":")[|t1|] == (t1 + ":")[|t1|] == ':';
    assert forall i | 0 <= i < |t2| :: (t2 + ":")[i] == t2[i] != ':';
    assert (t1 + ":")[..|t1|] == t1 && (t2 + ":")[..|t2|] == t2;
  }

  /** So tenants without a colon in their IDs never share keys, whatever the keys are ... */
  lemma CompositeKeyInjective(t1: string, k1: string, t2: string, k2: string)
    requires ':' !in t1 && ':' !in t2
    requires CompositeKey(t1, k1) == CompositeKey(t2, k2)
    ensures t1 == t2 && k1 == k2
  {
    if |t1| <= |t2| {
      KeyPrefix(t1, k1, t2, k2);
      ColonFreeExtension(t1, t2);
    } else {
      KeyPrefix(t2, k2, t1, k1);
      ColonFreeExtension(t2, t1);
    }
    assert CompositeKey(t1, k1)[|t1| + 1..] == k1 && CompositeKey(t2, k2)[|t2| + 1..] == k2;
  }

  /** ... and a tenant ID with a colon after its first character always has another tenant to
      share keys with. */
  lemma CompositeKeyCollision(t: string, i: nat)
    requires 0 < i < |t| && t[i] == ':'
    ensures t[..i] != t && t[..i] != ""
    ensures exists k1, k2 :: k1 != "" && k2 != "" && CompositeKey(t[..i], k1) == CompositeKey(t, k2)
  {
    assert t == t[..i] + ":" + t[i + 1..];
    PrefixSharesKey(t[..i], t);
  }

  // ---------------------------------------------------------------------------------------
  // DLQ replay
  // ---------------------------------------------------------------------------------------

  /** The listed events that a replay puts back, in the order in which it meets them. */
  function Hits(r: Repo, tenantId: string, ids: seq<EventId>): (hits: seq<EventId>)
    ensures forall e :: e in hits <==> e in ids && Replayable(r, tenantId, e)
    ensures forall i, j | 0 <= i < j < |hits| :: hits[i] != hits[j]
  {
    if ids == [] then []
    else
      var e := ids[|ids| - 1];
      var hits := Hits(r, tenantId, ids[..|ids| - 1]);
      if e !in hits && Replayable(r, tenantId, e) then hits + [e] else hits
  }

  /** Exactly the events of `hits` went back to PENDING. */
  ghost predicate EventsReplayed(r: Repo, r': Repo, hits: seq<EventId>) {
    && r'.events.Keys == r.events.Keys
    && (forall e <- r.events :: r'.events[e] == if e in hits then r.events[e].(status := Pending) else r.events[e])
  }

  /** The i-th event of `hits` got the i-th fresh record, numbered above all earlier ones. */
  ghost predicate RecordsFiled(r: Repo, r': Repo, hits: seq<EventId>) {
    && r'.nextOutboxID == r.nextOutboxID + |hits|
    && (forall o: nat :: o in r'.outbox <==> o in r.outbox || r.nextOutboxID < o <= r'.nextOutboxID)
    && (forall o <- r.outbox :: r'.outbox[o] == r.outbox[o])
    && (forall o: nat {:trigger r'.outbox[o]} | r.nextOutboxID < o <= r'.nextOutboxID ::
          r'.outbox[o] == OutboxRecord(o, hits[o - r.nextOutboxID - 1], OutboxPending))
  }

  /** What one replay call does, in terms of the events it put back. */
  ghost predicate Replayed(r: Repo, r': Repo, hits: seq<EventId>) {
    && EventsReplayed(r, r', hits)
    && RecordsFiled(r, r', hits)
    && r' == r.(events := r'.events, outbox := r'.outbox, nextOutboxID := r'.nextOutboxID)
  }

  lemma ReplayOneKeepsWellFormed(r: Repo, tenantId: string, e: EventId)
    requires WellFormed(r)
    ensures WellFormed(ReplayOne(r, tenantId, e))
  {
  }

  lemma ReplayOneReplaysEvent(r: Repo, r1: Repo, tenantId: string, e: EventId, hits: seq<EventId>)
    requires EventsReplayed(r, r1, hits) && Replayable(r1, tenantId, e)
    ensures EventsReplayed(r, ReplayOne(r1, tenantId, e), hits + [e])
  {
  }

  lemma ReplayOneFilesRecord(r: Repo, r1: Repo, tenantId: string, e: EventId, hits: seq<EventId>)
    requires WellFormed(r1) && RecordsFiled(r, r1, hits) && Replayable(r1, tenantId, e)
    ensures RecordsFiled(r, ReplayOne(r1, tenantId, e), hits + [e])
  {
  }

  /** For any ID list, with repeats, foreign or missing IDs: exactly the listed events of the
      tenant that were in the DLQ become PENDING, the count is their number, each of them gets
      exactly one fresh PENDING record, and nothing else changes. */
  lemma {:induction false} ReplayConserves(r: Repo, tenantId: string, ids: seq<EventId>)
    requires WellFormed(r)
    ensures var (r', n) := ReplayDLQEvents(r, tenantId, ids);
            var hits := Hits(r, tenantId, ids);
            n == |hits| && Replayed(r, r', hits) && WellFormed(r')
  {
    if ids != [] {
      var init, e := ids[..|ids| - 1], ids[|ids| - 1];
      ReplayConserves(r, tenantId, init);
      var r1 := ReplayDLQEvents(r, tenantId, init).0;
      var hits := Hits(r, tenantId, init);
      ReplayOneKeepsWellFormed(r1, tenantId, e);
      assert Replayable(r1, tenantId, e) <==> Replayable(r, tenantId, e) && e !in hits;
      if Replayable(r1, tenantId, e) {
        ReplayOneReplaysEvent(r, r1, tenantId, e, hits);
        ReplayOneFilesRecord(r, r1, tenantId, e, hits);
      }
    }
  }
}
