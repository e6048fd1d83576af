/** `internal/api/handler.go`, `HandleIngestEvent`, as a protocol over the guard and the
    repository: any number of requests interleave at each guard or repository call, locks
    expire at any time, calls fail, and the rest of the pipeline works on the repository. */
module Ingest {
  import opened Domain
  import opened Storage
  import opened Guard

  datatype Stage =
    | Acquiring
    | Ready
    | Failing
    | Created(id: EventId)
    | Answering(id: EventId)
    | Done

  datatype Request = Request(tenantId: string, key: string, locked: bool, stage: Stage)

  /** A 202 that was sent for a request with an idempotency key. */
  datatype Answer = Answer(key: string, eventId: EventId)

  /** `owner` remembers which request created an event. */
  datatype System = System(
    repo: Repo, guard: Entries, requests: map<nat, Request>, answers: seq<Answer>, owner: map<EventId, nat>)

  const INITIAL := System(EMPTY, map[], map[], [], map[])

  datatype Background =
    | Replay(tenantId: string, ids: seq<EventId>)
    | Mark(o: nat)
    | Record(attempt: Attempt)
    | Update(e: EventId, status: EventStatus)
    | Register(endpoints: map<string, Endpoint>)

  datatype Action =
    | Arrive(r: nat, tenantId: string, key: string, guarded: bool)
    | TakeLock(r: nat, now: int, ttl: int, failed: bool)
    | Reject(r: nat)
    | Create(r: nat, id: EventId, eventType: string, payload: seq<Byte>, failed: bool)
    | Fail(r: nat, releaseFailed: bool)
    | Cache(r: nat, now: int, ttl: int, failed: bool)
    | Accept(r: nat)
    | Drop(r: nat)
    | Elsewhere(work: Background)

  function KeyOf(req: Request): string {
    CompositeKey(req.tenantId, req.key)
  }

  function At(s: System, r: nat): Stage {
    if r in s.requests then s.requests[r].stage else Done
  }

  function Move(s: System, r: nat, stage: Stage): System
    requires r in s.requests
  {
    s.(requests := s.requests[r := s.requests[r].(stage := stage)])
  }

  function Work(repo: Repo, w: Background): Repo {
    match w
    case Replay(tenantId, ids) => ReplayDLQEvents(repo, tenantId, ids).0
    case Mark(o) => MarkOutboxPublished(repo, o).0
    case Record(attempt) => RecordDeliveryAttempt(repo, attempt).0
    case Update(e, status) => UpdateEventStatus(repo, e, status).0
    case Register(endpoints) => repo.(endpoints := endpoints)
  }

  function TakeLockStep(s: System, r: nat, now: int, ttl: int, failed: bool): System
    requires r in s.requests
  {
    if failed then Move(s, r, Done)
    else
      var (guard, got) := AcquireLock(s.guard, KeyOf(s.requests[r]), now, ttl);
      match got
      case Acquired => s.(guard := guard, requests := s.requests[r := s.requests[r].(locked := true, stage := Ready)])
      case Busy => Move(s, r, Done)
      case Replay(response) =>
        Move(s, r, Done).(answers := if response.statusCode == 202 then s.answers + [Answer(KeyOf(s.requests[r]), response.eventId)] else s.answers)
  }

  function CreateStep(s: System, r: nat, e: Event, failed: bool): System
    requires r in s.requests
  {
    if failed then Move(s, r, Failing)
    else
      var (repo, res) := CreateEventWithOutbox(s.repo, e, OutboxRecord(0, e.id, OutboxPending));
      if res.Ok? then Move(s, r, Created(e.id)).(repo := repo, owner := s.owner[e.id := r])
      else Move(s, r, Failing).(repo := repo)
  }

  /** One guard or repository call of one request, or a step of the rest of the system. An
      action that its request is not ready for does nothing; `uuid.New` gives unused IDs. */
  function Next(s: System, a: Action): System {
    match a
    case Arrive(r, tenantId, key, guarded) =>
      if r in s.requests || tenantId == "" then s
      else s.(requests := s.requests[r := Request(tenantId, key, false, if key != "" && guarded then Acquiring else Ready)])
    case TakeLock(r, now, ttl, failed) =>
      if At(s, r).Acquiring? then TakeLockStep(s, r, now, ttl, failed) else s
    case Reject(r) =>
      if At(s, r).Ready? then Move(s, r, Failing) else s
    case Create(r, id, eventType, payload, failed) =>
      if At(s, r).Ready? && id !in s.repo.events then
        CreateStep(s, r, Event(id, s.requests[r].tenantId, eventType, s.requests[r].key, payload, Pending), failed)
      else s
    case Fail(r, releaseFailed) =>
      if At(s, r).Failing? then
        Move(s, r, Done).(guard := if s.requests[r].locked && !releaseFailed then ReleaseLock(s.guard, KeyOf(s.requests[r])) else s.guard)
      else s
    case Cache(r, now, ttl, failed) =>
      if At(s, r).Created? then
        var id := s.requests[r].stage.id;
        Move(s, r, Answering(id)).(guard :=
        if s.requests[r].locked && !failed then SetResponse(s.guard, KeyOf(s.requests[r]), CachedResponse(202, id), now, ttl) else s.guard)
      else s
    case Accept(r) =>
      if At(s, r).Answering? then
        Move(s, r, Done).(answers :=
        if s.requests[r].key != "" then s.answers + [Answer(KeyOf(s.requests[r]), s.requests[r].stage.id)] else s.answers)
      else s
    case Drop(r) =>
      if r in s.requests then Move(s, r, Done) else s
    case Elsewhere(w) => s.(repo := Work(s.repo, w))
  }

  function Run(s: System, actions: seq<Action>): System {
    if actions == [] then s else Next(Run(s, actions[..|actions| - 1]), actions[|actions| - 1])
  }

  // ---------------------------------------------------------------------------------------
  // Invariant
  // ---------------------------------------------------------------------------------------

  function EventKey(e: Event): string {
    CompositeKey(e.tenantId, e.idempotencyKey)
  }

  type Index = map<string, EventId>

  /** The index agrees with a scan of the events. */
  ghost predicate IndexOk(index: Index, events: map<EventId, Event>) {
    && (forall k <- index :: index[k] in events && events[index[k]].idempotencyKey != "" && EventKey(events[index[k]]) == k)
    && (forall e <- events :: events[e].idempotencyKey != "" ==> Indexed(index, EventKey(events[e]), e))
  }

  predicate Indexed(index: Index, k: string, e: EventId) {
    k in index && index[k] == e
  }

  ghost predicate GuardOk(guard: Entries, index: Index) {
    forall k <- guard | guard[k].cached.Some? ::
      !guard[k].inFlight && guard[k].cached.value.statusCode == 202 && Indexed(index, k, guard[k].cached.value.eventId)
  }

  /** A request that has created its event owns it, and the index names it under the key. */
  ghost predicate RequestOk(r: nat, req: Request, index: Index, owner: map<EventId, nat>) {
    && (req.locked || req.stage.Acquiring? ==> req.key != "")
    && (req.stage.Created? ==> req.stage.id in owner && owner[req.stage.id] == r)
    && (req.key != "" && (req.stage.Created? || req.stage.Answering?) ==> Indexed(index, KeyOf(req), req.stage.id))
  }

  ghost predicate RequestsOk(requests: map<nat, Request>, index: Index, owner: map<EventId, nat>) {
    forall r <- requests :: RequestOk(r, requests[r], index, owner)
  }

  ghost predicate AnswersOk(answers: seq<Answer>, index: Index) {
    forall a <- answers :: Indexed(index, a.key, a.eventId)
  }

  predicate PastCaching(stage: Stage) {
    stage.Answering? || stage.Done? || stage.Failing?
  }

  /** The request whose event a cached response names has nothing left to cache. */
  ghost predicate OwnersOk(guard: Entries, requests: map<nat, Request>, owner: map<EventId, nat>) {
    forall k <- guard | guard[k].cached.Some? ::
      var e := guard[k].cached.value.eventId;
      e in owner && owner[e] in requests && PastCaching(requests[owner[e]].stage)
  }

  ghost predicate OwnedEventsExist(owner: map<EventId, nat>, events: set<EventId>) {
    forall e <- owner :: e in events
  }

  ghost predicate Inv(s: System) {
    && IndexOk(s.repo.index, s.repo.events)
    && GuardOk(s.guard, s.repo.index)
    && RequestsOk(s.requests, s.repo.index, s.owner)
    && AnswersOk(s.answers, s.repo.index)
    && OwnersOk(s.guard, s.requests, s.owner)
    && OwnedEventsExist(s.owner, s.repo.events.Keys)
  }

  /** Identities never change, and neither does the index. */
  ghost predicate KeepsIdentities(r: Repo, r': Repo) {
    && r.events.Keys == r'.events.Keys && r'.index == r.index
    && (forall e <- r.events :: r'.events[e].tenantId == r.events[e].tenantId && r'.events[e].idempotencyKey == r.events[e].idempotencyKey)
  }

  lemma {:induction false} ReplayKeepsIdentities(r: Repo, tenantId: string, ids: seq<EventId>)
    ensures KeepsIdentities(r, ReplayDLQEvents(r, tenantId, ids).0)
  {
    if ids != [] {
      ReplayKeepsIdentities(r, tenantId, ids[..|ids| - 1]);
    }
  }

  lemma WorkKeepsIdentities(r: Repo, w: Background)
    ensures KeepsIdentities(r, Work(r, w))
  {
    if w.Replay? {
      ReplayKeepsIdentities(r, w.tenantId, w.ids);
    }
  }

  lemma IdentitiesKeepIndex(r: Repo, r': Repo)
    requires IndexOk(r.index, r.events) && KeepsIdentities(r, r')
    ensures IndexOk(r'.index, r'.events)
  {
  }

  lemma WorkKeepsInv(s: System, w: Background)
    requires Inv(s)
    ensures Inv(Next(s, Elsewhere(w)))
  {
    WorkKeepsIdentities(s.repo, w);
    IdentitiesKeepIndex(s.repo, Work(s.repo, w));
    hide Work, IndexOk, GuardOk, RequestsOk, AnswersOk, OwnersOk;
  }

  /** Updating one request is fine if the new one is, and if it does not go back to caching. */
  lemma MoveKeepsRequests(guard: Entries, requests: map<nat, Request>, index: Index, owner: map<EventId, nat>, r: nat, req: Request)
    requires RequestsOk(requests, index, owner) && OwnersOk(guard, requests, owner)
    requires RequestOk(r, req, index, owner)
    requires r in requests && PastCaching(requests[r].stage) ==> PastCaching(req.stage)
    ensures RequestsOk(requests[r := req], index, owner) && OwnersOk(guard, requests[r := req], owner)
  {
    hide RequestOk;
  }

  lemma AcquireKeepsGuard(guard: Entries, requests: map<nat, Request>, index: Index, owner: map<EventId, nat>, k: string, now: int, ttl: int)
    requires GuardOk(guard, index) && OwnersOk(guard, requests, owner)
    ensures var (guard', got) := AcquireLock(guard, k, now, ttl);
            && GuardOk(guard', index) && OwnersOk(guard', requests, owner)
            && (got.Replay? ==> Indexed(index, k, got.response.eventId))
  {
  }

  lemma LockKeepsInv(s: System, r: nat, now: int, ttl: int, failed: bool)
    requires Inv(s) && At(s, r).Acquiring?
    ensures Inv(TakeLockStep(s, r, now, ttl, failed))
  {
    var req := s.requests[r];
    AcquireKeepsGuard(s.guard, s.requests, s.repo.index, s.owner, KeyOf(req), now, ttl);
    var (guard, got) := AcquireLock(s.guard, KeyOf(req), now, ttl);
    assert RequestOk(r, req, s.repo.index, s.owner);
    MoveKeepsRequests(s.guard, s.requests, s.repo.index, s.owner, r, req.(stage := Done));
    MoveKeepsRequests(guard, s.requests, s.repo.index, s.owner, r, req.(locked := true, stage := Ready));
    hide IndexOk, GuardOk, RequestsOk, OwnersOk, AcquireLock;
  }

  /** The actions that only move a request on. */
  lemma MoveKeepsInv(s: System, a: Action)
    requires Inv(s) && (a.Arrive? || a.Reject? || a.Accept? || a.Drop?)
    ensures Inv(Next(s, a))
  {
    if a.r in s.requests {
      var req := s.requests[a.r];
      assert RequestOk(a.r, req, s.repo.index, s.owner);
      MoveKeepsRequests(s.guard, s.requests, s.repo.index, s.owner, a.r, req.(stage := Done));
      MoveKeepsRequests(s.guard, s.requests, s.repo.index, s.owner, a.r, req.(stage := Failing));
    } else if a.Arrive? {
      MoveKeepsRequests(s.guard, s.requests, s.repo.index, s.owner, a.r,
                        Request(a.tenantId, a.key, false, if a.key != "" && a.guarded then Acquiring else Ready));
    }
    hide IndexOk, GuardOk, RequestsOk, OwnersOk;
  }

  ghost predicate Extends(index: Index, index': Index) {
    forall k <- index :: Indexed(index', k, index[k])
  }

  lemma GrowthKeeps(s: System, index: Index, owner: map<EventId, nat>)
    requires Inv(s) && Extends(s.repo.index, index)
    requires forall e <- s.owner :: e in owner && owner[e] == s.owner[e]
    ensures GuardOk(s.guard, index) && RequestsOk(s.requests, index, owner) && AnswersOk(s.answers, index) && OwnersOk(s.guard, s.requests, owner)
  {
    hide IndexOk;
  }

  lemma ClaimKeepsIndex(index: Index, events: map<EventId, Event>, e: Event)
    requires IndexOk(index, events) && e.id !in events && EventKey(e) !in index
    ensures e.idempotencyKey != "" ==> IndexOk(index[EventKey(e) := e.id], events[e.id := e]) && Extends(index, index[EventKey(e) := e.id])
  {
    hide EventKey;
  }

  lemma UnkeyedKeepsIndex(index: Index, events: map<EventId, Event>, e: Event)
    requires IndexOk(index, events) && e.id !in events && e.idempotencyKey == ""
    ensures IndexOk(index, events[e.id := e]) && Extends(index, index)
  {
    hide EventKey;
  }

  lemma CreateKeepsIndex(r: Repo, e: Event, ob: OutboxRecord)
    requires IndexOk(r.index, r.events) && e.id !in r.events
    ensures var (r', res) := CreateEventWithOutbox(r, e, ob);
            && (res.Err? ==> r' == r)
            && IndexOk(r'.index, r'.events) && Extends(r.index, r'.index)
            && (res.Ok? ==> r'.events == r.events[e.id := e])
            && (res.Ok? && e.idempotencyKey != "" ==> Indexed(r'.index, EventKey(e), e.id))
  {
    assert Extends(r.index, r.index);
    hide IndexOk, Extends, CompositeKey;
    if e.idempotencyKey == "" {
      UnkeyedKeepsIndex(r.index, r.events, e);
    } else if EventKey(e) !in r.index {
      ClaimKeepsIndex(r.index, r.events, e);
    }
  }

  lemma CreatedKeepsInv(s: System, r: nat, e: Event, repo: Repo)
    requires Inv(s) && At(s, r).Ready? && e.id !in s.repo.events
    requires e.tenantId == s.requests[r].tenantId && e.idempotencyKey == s.requests[r].key
    requires IndexOk(repo.index, repo.events) && Extends(s.repo.index, repo.index) && repo.events == s.repo.events[e.id := e]
    requires e.idempotencyKey != "" ==> Indexed(repo.index, EventKey(e), e.id)
    ensures Inv(Move(s, r, Created(e.id)).(repo := repo, owner := s.owner[e.id := r]))
  {
    var req := s.requests[r];
    assert RequestOk(r, req, s.repo.index, s.owner);
    assert e.id !in s.owner;
    var owner := s.owner[e.id := r];
    GrowthKeeps(s, repo.index, owner);
    MoveKeepsRequests(s.guard, s.requests, repo.index, owner, r, req.(stage := Created(e.id)));
    hide IndexOk, GuardOk, RequestsOk, OwnersOk, AnswersOk, RequestOk, Extends, EventKey;
  }

  lemma CreateKeepsInv(s: System, r: nat, e: Event, failed: bool)
    requires Inv(s) && At(s, r).Ready? && e.id !in s.repo.events
    requires e.tenantId == s.requests[r].tenantId && e.idempotencyKey == s.requests[r].key
    ensures Inv(CreateStep(s, r, e, failed))
  {
    CreateKeepsIndex(s.repo, e, OutboxRecord(0, e.id, OutboxPending));
    var (repo, res) := CreateEventWithOutbox(s.repo, e, OutboxRecord(0, e.id, OutboxPending));
    if !failed && res.Ok? {
      hide Inv, CreateEventWithOutbox, IndexOk, Extends, EventKey;
      CreatedKeepsInv(s, r, e, repo);
    } else {
      MoveKeepsInv(s, Reject(r));
      hide Inv, CreateEventWithOutbox, IndexOk, Extends, EventKey;
      assert s.(repo := s.repo) == s;
    }
  }

  lemma CacheKeepsInv(s: System, r: nat, now: int, ttl: int, failed: bool)
    requires Inv(s) && At(s, r).Created?
    ensures Inv(Next(s, Cache(r, now, ttl, failed)))
  {
    var req := s.requests[r];
    var id := req.stage.id;
    assert RequestOk(r, req, s.repo.index, s.owner);
    MoveKeepsRequests(s.guard, s.requests, s.repo.index, s.owner, r, req.(stage := Answering(id)));
    hide IndexOk, AnswersOk, RequestsOk;
  }

  lemma FailKeepsInv(s: System, r: nat, releaseFailed: bool)
    requires Inv(s) && At(s, r).Failing?
    ensures Inv(Next(s, Fail(r, releaseFailed)))
  {
    var req := s.requests[r];
    assert RequestOk(r, req, s.repo.index, s.owner);
    MoveKeepsRequests(s.guard, s.requests, s.repo.index, s.owner, r, req.(stage := Done));
    hide IndexOk, AnswersOk, RequestsOk;
  }

  lemma NextKeepsInv(s: System, a: Action)
    requires Inv(s)
    ensures Inv(Next(s, a))
  {
    hide Inv, TakeLockStep, CreateStep;
    match a
    case TakeLock(r, now, ttl, failed) =>
      if At(s, r).Acquiring? {
        LockKeepsInv(s, r, now, ttl, failed);
      }
    case Create(r, id, eventType, payload, failed) =>
      if At(s, r).Ready? && id !in s.repo.events {
        CreateKeepsInv(s, r, Event(id, s.requests[r].tenantId, eventType, s.requests[r].key, payload, Pending), failed);
      }
    case Fail(r, releaseFailed) =>
      if At(s, r).Failing? {
        FailKeepsInv(s, r, releaseFailed);
      }
    case Cache(r, now, ttl, failed) =>
      if At(s, r).Created? {
        CacheKeepsInv(s, r, now, ttl, failed);
      }
    case Elsewhere(w) => WorkKeepsInv(s, w);
    case _ => MoveKeepsInv(s, a);
  }

  lemma {:induction false} RunKeepsInv(s: System, actions: seq<Action>)
    requires Inv(s)
    ensures Inv(Run(s, actions))
  {
    if actions != [] {
      RunKeepsInv(s, actions[..|actions| - 1]);
      hide Inv, Next;
      NextKeepsInv(Run(s, actions[..|actions| - 1]), actions[|actions| - 1]);
    }
  }

  // ---------------------------------------------------------------------------------------
  // Idempotent ingest
  // ---------------------------------------------------------------------------------------

  /** On every run: at most one event exists per composite key, the index agrees with a scan of
      the events, and every 202 ever sent for a key, fresh or replayed, names that one event. */
  lemma IdempotentIngest(actions: seq<Action>)
    ensures var s := Run(INITIAL, actions);
            && IndexOk(s.repo.index, s.repo.events)
            && (forall e, f | e in s.repo.events && f in s.repo.events && s.repo.events[e].idempotencyKey != "" &&
                              s.repo.events[f].idempotencyKey != "" && EventKey(s.repo.events[e]) == EventKey(s.repo.events[f]) :: e == f)
            && (forall a <- s.answers :: a.eventId in s.repo.events && EventKey(s.repo.events[a.eventId]) == a.key)
            && (forall a, b | a in s.answers && b in s.answers && a.key == b.key :: a.eventId == b.eventId)
  {
    assert Inv(INITIAL);
    RunKeepsInv(INITIAL, actions);
    var s := Run(INITIAL, actions);
    assert forall a <- s.answers :: Indexed(s.repo.index, a.key, a.eventId);
  }

  /** Every lock attempt for `k` in the run happens before time `t`. */
  ghost predicate LocksBefore(s: System, actions: seq<Action>, k: string, t: int) {
    forall i | 0 <= i < |actions| && actions[i].TakeLock? ::
      var p := Run(s, actions[..i]);
      actions[i].r in p.requests && KeyOf(p.requests[actions[i].r]) == k ==> actions[i].now < t
  }

  lemma StepKeepsCached(s: System, a: Action, k: string)
    requires Inv(s) && k in s.guard && s.guard[k].cached.Some?
    requires a.TakeLock? && a.r in s.requests && KeyOf(s.requests[a.r]) == k ==> a.now < s.guard[k].expiresAt
    ensures k in Next(s, a).guard && Next(s, a).guard[k] == s.guard[k]
  {
    if a.Cache? && At(s, a.r).Created? {
      assert RequestOk(a.r, s.requests[a.r], s.repo.index, s.owner);
    }
    hide IndexOk, AnswersOk, RequestsOk;
  }

  /** In the protocol a key is completed at most once before its response expires: whatever the
      requests do, a cached response stays exactly as it is, and every lock attempt until then
      is answered with it. */
  lemma {:induction false} CachedAnswerIsStable(before: seq<Action>, actions: seq<Action>, k: string, now: int, ttl: int)
    requires var s := Run(INITIAL, before); k in s.guard && s.guard[k].cached.Some? && LocksBefore(s, actions, k, s.guard[k].expiresAt)
    requires now < Run(INITIAL, before).guard[k].expiresAt
    ensures var s := Run(INITIAL, before);
            var s' := Run(s, actions);
            && k in s'.guard && s'.guard[k] == s.guard[k]
            && AcquireLock(s'.guard, k, now, ttl).1 == Acquisition.Replay(s.guard[k].cached.value)
  {
    var s := Run(INITIAL, before);
    if actions != [] {
      var init, a := actions[..|actions| - 1], actions[|actions| - 1];
      assert forall i | 0 <= i <= |init| :: init[..i] == actions[..i];
      CachedAnswerIsStable(before, init, k, now, ttl);
      assert Inv(INITIAL);
      RunKeepsInv(INITIAL, before);
      RunKeepsInv(s, init);
      hide Inv, Next;
      StepKeepsCached(Run(s, init), a, k);
    }
  }

  // ---------------------------------------------------------------------------------------
  // One holder of a lock
  // ---------------------------------------------------------------------------------------

  /** Request `r` holds the lock on the key with this entry, and no other unfinished request has
      ever locked the key. */
  ghost predicate SoleHolder(s: System, k: string, r: nat, entry: Entry) {
    && k in s.guard && s.guard[k] == entry && entry.inFlight && entry.cached.None?
    && r in s.requests && HasLocked(s.requests[r], k)
    && forall x <- s.requests :: x != r && HasLocked(s.requests[x], k) ==> s.requests[x].stage.Done?
  }

  predicate HasLocked(req: Request, k: string) {
    req.locked && !req.stage.Acquiring? && KeyOf(req) == k
  }

  /** Whoever takes a lock is its sole holder if no other unfinished request has locked the key. */
  lemma TakingLockHolds(s: System, r: nat, now: int, ttl: int)
    requires At(s, r).Acquiring? && AcquireLock(s.guard, KeyOf(s.requests[r]), now, ttl).1.Acquired?
    requires forall x <- s.requests :: HasLocked(s.requests[x], KeyOf(s.requests[r])) ==> s.requests[x].stage.Done?
    ensures SoleHolder(Next(s, TakeLock(r, now, ttl, false)), KeyOf(s.requests[r]), r, Entry(true, None, now + ttl))
  {
    hide CompositeKey;
  }

  /** The holder's own release on failure, or its own completion. */
  predicate GivesUpLock(s: System, a: Action, r: nat) {
    || (a.Fail? && a.r == r && !a.releaseFailed && At(s, r).Failing?)
    || (a.Cache? && a.r == r && !a.failed && At(s, r).Created?)
  }

  /** A request locks the key when the holder's lock has expired. */
  predicate TakesExpired(s: System, a: Action, k: string, entry: Entry) {
    a.TakeLock? && !a.failed && At(s, a.r).Acquiring? && KeyOf(s.requests[a.r]) == k && a.now >= entry.expiresAt
  }

  /** No step of the run is the holder's own release or completion, or comes after expiry. */
  ghost predicate LockKept(s: System, actions: seq<Action>, k: string, r: nat, entry: Entry) {
    actions != [] ==>
      var init, a := actions[..|actions| - 1], actions[|actions| - 1];
      LockKept(s, init, k, r, entry) && !GivesUpLock(Run(s, init), a, r) && !TakesExpired(Run(s, init), a, k, entry)
  }

  lemma TakeLockKeepsHolder(s: System, a: Action, k: string, r: nat, entry: Entry)
    requires SoleHolder(s, k, r, entry) && a.TakeLock?
    ensures SoleHolder(Next(s, a), k, r, entry) <==> !TakesExpired(s, a, k, entry)
  {
    hide CompositeKey;
    var s' := Next(s, a);
    if TakesExpired(s, a, k, entry) {
      assert HasLocked(s'.requests[a.r], k) && a.r != r;
    } else if At(s, a.r).Acquiring? {
      assert KeyOf(s.requests[a.r]) == k && !a.failed ==> AcquireLock(s.guard, k, a.now, a.ttl).1 == Busy;
    }
  }

  lemma GivingUpKeepsHolder(s: System, a: Action, k: string, r: nat, entry: Entry)
    requires SoleHolder(s, k, r, entry) && (a.Fail? || a.Cache?)
    ensures SoleHolder(Next(s, a), k, r, entry) <==> !GivesUpLock(s, a, r)
  {
    hide CompositeKey;
    if a.r in s.requests && a.r != r {
      assert HasLocked(s.requests[a.r], k) ==> s.requests[a.r].stage.Done?;
    }
  }

  lemma OtherStepsKeepHolder(s: System, a: Action, k: string, r: nat, entry: Entry)
    requires SoleHolder(s, k, r, entry) && !a.TakeLock? && !a.Fail? && !a.Cache?
    ensures SoleHolder(Next(s, a), k, r, entry)
  {
    hide CompositeKey, Work, CreateEventWithOutbox;
  }

  /** The sole holder stays the sole one in every step but its own release, its own completion,
      and an acquisition after its lock has expired. */
  lemma HolderStaysIff(s: System, a: Action, k: string, r: nat, entry: Entry)
    requires SoleHolder(s, k, r, entry)
    ensures SoleHolder(Next(s, a), k, r, entry) <==> !GivesUpLock(s, a, r) && !TakesExpired(s, a, k, entry)
  {
    hide SoleHolder, Next;
    if a.TakeLock? {
      TakeLockKeepsHolder(s, a, k, r, entry);
    } else if a.Fail? || a.Cache? {
      GivingUpKeepsHolder(s, a, k, r, entry);
    } else {
      OtherStepsKeepHolder(s, a, k, r, entry);
    }
  }

  /** Mutual exclusion: from a state with a sole holder, on every run until it releases the lock or
      completes, or the lock expires, whatever the other requests do, it stays the sole one, and
      any other request that asks for the key before expiry is refused. */
  lemma {:induction false} LockIsExclusive(s: System, actions: seq<Action>, k: string, r: nat, entry: Entry, now: int, ttl: int)
    requires SoleHolder(s, k, r, entry) && LockKept(s, actions, k, r, entry) && now < entry.expiresAt
    ensures var s' := Run(s, actions); SoleHolder(s', k, r, entry) && AcquireLock(s'.guard, k, now, ttl) == (s'.guard, Busy)
  {
    if actions != [] {
      var init, a := actions[..|actions| - 1], actions[|actions| - 1];
      LockIsExclusive(s, init, k, r, entry, now, ttl);
      hide Next, GivesUpLock, TakesExpired;
      HolderStaysIff(Run(s, init), a, k, r, entry);
    }
  }

  // ---------------------------------------------------------------------------------------
  // A lock released by a request that no longer holds it
  // ---------------------------------------------------------------------------------------

  lemma RunOneMore(s: System, actions: seq<Action>, a: Action)
    ensures Run(s, actions + [a]) == Next(Run(s, actions), a)
  {
    assert (actions + [a])[..|actions|] == actions;
  }

  lemma RunTwoMore(s: System, actions: seq<Action>, a: Action, b: Action)
    ensures Run(s, actions + [a, b]) == Next(Next(Run(s, actions), a), b)
  {
    hide Run, Next;
    RunOneMore(s, actions, a);
    RunOneMore(s, actions + [a], b);
    assert actions + [a, b] == (actions + [a]) + [b];
  }

  function Requesting(r: nat, tenantId: string, key: string, now: int, ttl: int): seq<Action> {
    [Arrive(r, tenantId, key, true), TakeLock(r, now, ttl, false)]
  }

  predicate Holds(s: System, r: nat) {
    r in s.requests && s.requests[r].locked && s.requests[r].stage.Ready?
  }

  /** A new request that finds the key free, or its lock expired, takes the lock. */
  lemma Locking(s: System, r: nat, tenantId: string, key: string, now: int, ttl: int)
    requires r !in s.requests && tenantId != "" && key != ""
    ensures var k, s' := CompositeKey(tenantId, key), Next(Next(s, Arrive(r, tenantId, key, true)), TakeLock(r, now, ttl, false));
            if k in s.guard && s.guard[k].cached.None? && s.guard[k].inFlight && now < s.guard[k].expiresAt
            then s'.guard == s.guard && s'.requests == s.requests[r := Request(tenantId, key, false, Done)]
            else (k in s.guard && s.guard[k].cached.Some?) ||
                 (s'.guard == s.guard[k := Entry(true, None, now + ttl)] && s'.requests == s.requests[r := Request(tenantId, key, true, Ready)])
  {
    var s1 := s.(requests := s.requests[r := Request(tenantId, key, false, Acquiring)]);
    assert Next(s, Arrive(r, tenantId, key, true)) == s1;
    assert s1.requests[r := Request(tenantId, key, false, Done)] == s.requests[r := Request(tenantId, key, false, Done)];
    assert s1.requests[r := Request(tenantId, key, true, Ready)] == s.requests[r := Request(tenantId, key, true, Ready)];
  }

  /** A rejected request that has taken a lock releases the key, whoever holds it by now. */
  lemma Rejecting(s: System, r: nat)
    requires Holds(s, r) && KeyOf(s.requests[r]) in s.guard && s.guard[KeyOf(s.requests[r])].inFlight
    ensures var s' := Next(Next(s, Reject(r)), Fail(r, false));
            s'.guard == s.guard - {KeyOf(s.requests[r])} && s'.requests == s.requests[r := s.requests[r].(stage := Done)]
  {
    var req := s.requests[r];
    var s1 := Move(s, r, Failing);
    assert Next(s, Reject(r)) == s1;
    assert s1.requests[r := s1.requests[r].(stage := Done)] == s.requests[r := req.(stage := Done)];
  }

  lemma TwoHolders(tenantId: string, key: string, t0: int, ttl0: int, t1: int, ttl1: int)
    requires tenantId != "" && key != "" && t0 + ttl0 <= t1
    ensures var s := Run(INITIAL, Requesting(0, tenantId, key, t0, ttl0) + Requesting(1, tenantId, key, t1, ttl1));
            && s.guard == map[CompositeKey(tenantId, key) := Entry(true, None, t1 + ttl1)]
            && s.requests == map[0 := Request(tenantId, key, true, Ready), 1 := Request(tenantId, key, true, Ready)]
  {
    var one := Requesting(0, tenantId, key, t0, ttl0);
    assert Run(INITIAL, []) == INITIAL && [] + one == one;
    hide Run, Next, CompositeKey;
    RunTwoMore(INITIAL, [], one[0], one[1]);
    Locking(INITIAL, 0, tenantId, key, t0, ttl0);
    RunTwoMore(INITIAL, one, Arrive(1, tenantId, key, true), TakeLock(1, t1, ttl1, false));
    Locking(Run(INITIAL, one), 1, tenantId, key, t1, ttl1);
  }

  /** The lock excludes nobody once an expired holder fails: for every key and all times such that
      the first lock has expired when the second is taken, and the second has not when the third
      request comes, the third is refused, but if the first request fails just before it comes,
      second and third hold the lock at once. */
  lemma StaleReleaseFreesLock(tenantId: string, key: string, t0: int, ttl0: int, t1: int, ttl1: int, t2: int, ttl2: int)
    requires tenantId != "" && key != "" && t0 + ttl0 <= t1 && t2 < t1 + ttl1
    ensures var two := Requesting(0, tenantId, key, t0, ttl0) + Requesting(1, tenantId, key, t1, ttl1);
            var three := Requesting(2, tenantId, key, t2, ttl2);
            && !Holds(Run(INITIAL, two + three), 2)
            && var s := Run(INITIAL, two + [Reject(0), Fail(0, false)] + three);
            Holds(s, 1) && Holds(s, 2) && KeyOf(s.requests[1]) == KeyOf(s.requests[2]) == CompositeKey(tenantId, key)
  {
    var two := Requesting(0, tenantId, key, t0, ttl0) + Requesting(1, tenantId, key, t1, ttl1);
    var three := Requesting(2, tenantId, key, t2, ttl2);
    hide Run, Next, CompositeKey;
    TwoHolders(tenantId, key, t0, ttl0, t1, ttl1);
    var s2 := Run(INITIAL, two);
    RunTwoMore(INITIAL, two, three[0], three[1]);
    Locking(s2, 2, tenantId, key, t2, ttl2);
    RunTwoMore(INITIAL, two, Reject(0), Fail(0, false));
    Rejecting(s2, 0);
    RunTwoMore(INITIAL, two + [Reject(0), Fail(0, false)], three[0], three[1]);
    Locking(Run(INITIAL, two + [Reject(0), Fail(0, false)]), 2, tenantId, key, t2, ttl2);
  }

  // ---------------------------------------------------------------------------------------
  // An answer that has expired
  // ---------------------------------------------------------------------------------------

  /** Request 0 takes the lock, creates the event, caches its answer at `t` and sends it. */
  function Answers(tenantId: string, key: string, t0: int, ttl0: int, id: EventId, eventType: string, payload: seq<Byte>, t: int, ttl: int): seq<Action> {
    Requesting(0, tenantId, key, t0, ttl0) + [Create(0, id, eventType, payload, false), Cache(0, t, ttl, false)]
  }

  lemma LockedFirst(tenantId: string, key: string, t0: int, ttl0: int)
    requires tenantId != "" && key != ""
    ensures var s := Run(INITIAL, Requesting(0, tenantId, key, t0, ttl0));
            && s.repo == EMPTY && s.guard == map[CompositeKey(tenantId, key) := Entry(true, None, t0 + ttl0)]
            && s.requests == map[0 := Request(tenantId, key, true, Ready)]
  {
    var one := Requesting(0, tenantId, key, t0, ttl0);
    assert Run(INITIAL, []) == INITIAL && [] + one == one;
    hide Run, CompositeKey;
    RunTwoMore(INITIAL, [], one[0], one[1]);
    Locking(INITIAL, 0, tenantId, key, t0, ttl0);
  }

  lemma Completing(s: System, tenantId: string, key: string, id: EventId, eventType: string, payload: seq<Byte>, t: int, ttl: int)
    requires s.repo == EMPTY && s.requests == map[0 := Request(tenantId, key, true, Ready)]
    requires CompositeKey(tenantId, key) in s.guard && s.guard.Keys == {CompositeKey(tenantId, key)}
    ensures var s' := Next(Next(s, Create(0, id, eventType, payload, false)), Cache(0, t, ttl, false));
            && s'.guard == map[CompositeKey(tenantId, key) := Entry(false, Some(CachedResponse(202, id)), t + ttl)]
            && s'.requests == map[0 := Request(tenantId, key, true, Answering(id))]
  {
    hide CompositeKey;
  }

  lemma Answered(tenantId: string, key: string, t0: int, ttl0: int, id: EventId, eventType: string, payload: seq<Byte>, t: int, ttl: int)
    requires tenantId != "" && key != ""
    ensures var s := Run(INITIAL, Answers(tenantId, key, t0, ttl0, id, eventType, payload, t, ttl));
            && s.guard == map[CompositeKey(tenantId, key) := Entry(false, Some(CachedResponse(202, id)), t + ttl)]
            && s.requests == map[0 := Request(tenantId, key, true, Answering(id))]
  {
    hide Run, Next, CompositeKey;
    var one := Requesting(0, tenantId, key, t0, ttl0);
    LockedFirst(tenantId, key, t0, ttl0);
    RunTwoMore(INITIAL, one, Create(0, id, eventType, payload, false), Cache(0, t, ttl, false));
    Completing(Run(INITIAL, one), tenantId, key, id, eventType, payload, t, ttl);
  }

  lemma LockingAnswered(s: System, r: nat, tenantId: string, key: string, now: int, ttl: int, response: CachedResponse, expiresAt: int)
    requires r !in s.requests && tenantId != "" && key != ""
    requires s.guard == map[CompositeKey(tenantId, key) := Entry(false, Some(response), expiresAt)] && response.statusCode == 202
    ensures var k, s' := CompositeKey(tenantId, key), Next(Next(s, Arrive(r, tenantId, key, true)), TakeLock(r, now, ttl, false));
            && (Holds(s', r) <==> now >= expiresAt)
            && (now >= expiresAt ==> s'.guard == map[k := Entry(true, None, now + ttl)] && s'.answers == s.answers)
            && (now < expiresAt ==> s'.guard == s.guard && s'.answers == s.answers + [Answer(k, response.eventId)])
  {
    hide CompositeKey;
  }

  /** A cached answer lasts until its expiry and no longer: for every key, event and times, the next
      request for the key is answered with it before, and takes the lock from then on. */
  lemma AnswerExpires(tenantId: string, key: string, t0: int, ttl0: int, id: EventId, eventType: string, payload: seq<Byte>,
                      t: int, ttl: int, now: int, ttl1: int)
    requires tenantId != "" && key != ""
    ensures var answered := Answers(tenantId, key, t0, ttl0, id, eventType, payload, t, ttl);
            var s, s' := Run(INITIAL, answered), Run(INITIAL, answered + Requesting(1, tenantId, key, now, ttl1));
            && (Holds(s', 1) <==> now >= t + ttl)
            && s'.answers == s.answers + if now >= t + ttl then [] else [Answer(CompositeKey(tenantId, key), id)]
  {
    Answered(tenantId, key, t0, ttl0, id, eventType, payload, t, ttl);
    hide Run, Next, CompositeKey, Answers;
    var answered, next := Answers(tenantId, key, t0, ttl0, id, eventType, payload, t, ttl), Requesting(1, tenantId, key, now, ttl1);
    RunTwoMore(INITIAL, answered, next[0], next[1]);
    LockingAnswered(Run(INITIAL, answered), 1, tenantId, key, now, ttl1, CachedResponse(202, id), t + ttl);
  }
}
