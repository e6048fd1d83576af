/** `internal/api/handler.go`: `HandleIngestEvent` as code, one request from the lock to the
    answer, and `HandleReplayDLQ`. */
module Handlers {
  import opened Domain
  import opened Storage
  import opened Guard
  import opened MemoryRepositories
  import opened MemoryGuards
  import Ingest

  const IDEMP_TTL := 24 * 3600 * 1_000_000_000

  lemma RunOneMore(s: Ingest.System, actions: seq<Ingest.Action>, a: Ingest.Action)
    ensures Ingest.Run(s, actions + [a]) == Ingest.Next(Ingest.Run(s, actions), a)
  {
    assert (actions + [a])[..|actions|] == actions;
  }

  /** The decoded body of a request. */
  datatype IngestEventRequest = IngestEventRequest(eventType: string, payload: seq<Byte>)

  /** `null` */
  const NULL_PAYLOAD: seq<Byte> := [110, 117, 108, 108]

  /** The action reports a failure of the guard or the repository. */
  predicate Fails(a: Ingest.Action) {
    (a.TakeLock? && a.failed) || (a.Create? && a.failed) || (a.Cache? && a.failed) || (a.Fail? && a.releaseFailed)
  }

  /** The repository after the event was filed with one PENDING record, and its key claimed. */
  ghost predicate Filed(r: Repo, r': Repo, event: Event) {
    var o := r.nextOutboxID + 1;
    && r'.events == r.events[event.id := event]
    && r'.outbox == r.outbox[o := OutboxRecord(o, event.id, OutboxPending)] && r'.nextOutboxID == o
    && r'.index == (if event.idempotencyKey == "" then r.index else r.index[event.tenantId + ":" + event.idempotencyKey := event.id])
    && r'.endpoints == r.endpoints && r'.attempts == r.attempts
  }

  lemma ReplacedThenRemoved(guard: Entries, k: string, entry: Entry, entry': Entry)
    ensures guard[k := entry] - {k} == guard - {k} && guard[k := entry][k := entry'] == guard[k := entry']
  {
  }

  /** The action is a step of request `r`. */
  predicate RequestAction(a: Ingest.Action, r: nat) {
    match a
    case Arrive(x, _, _, _) => x == r
    case TakeLock(x, _, _, _) => x == r
    case Reject(x) => x == r
    case Create(x, _, _, _, _) => x == r
    case Fail(x, _) => x == r
    case Cache(x, _, _, _) => x == r
    case Accept(x) => x == r
    case _ => false
  }

  /** All actions are request `r`'s own, and none reports a failure without a cancellation. */
  ghost predicate Own(actions: seq<Ingest.Action>, r: nat, cancelled: bool) {
    forall a <- actions :: RequestAction(a, r) && (Fails(a) ==> cancelled)
  }

  lemma ArriveIsOwn(r: nat, tenantID: string, idempKey: string, guarded: bool)
    ensures Own([Ingest.Arrive(r, tenantID, idempKey, guarded)], r, false)
  {
  }

  lemma RejectIsOwn(before: seq<Ingest.Action>, r: nat, cancelled: bool)
    ensures Own((before + [Ingest.Reject(r)])[|before|..], r, cancelled)
  {
  }

  lemma MoreSince(before: seq<Ingest.Action>, middle: seq<Ingest.Action>, actions: seq<Ingest.Action>, r: nat, cancelled: bool, cancelled': bool)
    requires before <= middle <= actions && Own(middle[|before|..], r, cancelled) && Own(actions[|middle|..], r, cancelled')
    requires cancelled ==> cancelled'
    ensures Own(actions[|before|..], r, cancelled')
  {
    assert actions[|before|..] == middle[|before|..] + actions[|middle|..];
  }

  lemma MoreOwn(before: seq<Ingest.Action>, actions: seq<Ingest.Action>, r: nat, cancelled: bool, cancelled': bool)
    requires Own(before, r, cancelled) && before <= actions && Own(actions[|before|..], r, cancelled') && (cancelled ==> cancelled')
    ensures Own(actions, r, cancelled')
  {
    assert actions == before + actions[|before|..];
  }

  /** The protocol state agrees with the objects. */
  ghost predicate Mirrors(s: Ingest.System, repo: Repo, guard: Entries) {
    s.repo == repo && s.guard == guard
  }

  /** After `actions`, request `r` is `req` and the protocol state agrees with the objects. */
  ghost predicate Stands(s0: Ingest.System, actions: seq<Ingest.Action>, repo: Repo, guard: Entries, r: nat, req: Ingest.Request) {
    var s := Ingest.Run(s0, actions);
    Mirrors(s, repo, guard) && r in s.requests && s.requests[r] == req
  }

  lemma ArriveStands(s0: Ingest.System, repo: Repo, guard: Entries, r: nat, tenantID: string, idempKey: string, guarded: bool)
    requires Mirrors(s0, repo, guard) && r !in s0.requests && tenantID != ""
    ensures var actions := [Ingest.Arrive(r, tenantID, idempKey, guarded)];
            && Stands(s0, actions, repo, guard, r, Ingest.Request(tenantID, idempKey, false, if idempKey != "" && guarded then Ingest.Acquiring else Ingest.Ready))
            && Ingest.Run(s0, actions).answers == s0.answers
  {
    RunOneMore(s0, [], Ingest.Arrive(r, tenantID, idempKey, guarded));
  }

  lemma RejectStands(s0: Ingest.System, actions: seq<Ingest.Action>, repo: Repo, guard: Entries, r: nat, req: Ingest.Request)
    requires Stands(s0, actions, repo, guard, r, req) && req.stage.Ready?
    ensures Stands(s0, actions + [Ingest.Reject(r)], repo, guard, r, req.(stage := Ingest.Failing))
    ensures Ingest.Run(s0, actions + [Ingest.Reject(r)]).answers == Ingest.Run(s0, actions).answers
  {
    RunOneMore(s0, actions, Ingest.Reject(r));
  }

  lemma CreationFiles(r: Repo, event: Event)
    requires event.id !in r.events && event.tenantId != ""
    ensures var (r', res) := Storage.CreateEventWithOutbox(r, event, OutboxRecord(0, event.id, OutboxPending));
            if event.idempotencyKey != "" && event.tenantId + ":" + event.idempotencyKey in r.index then res == Err(DuplicateKey) && r' == r
            else res.Ok? && Filed(r, r', event)
  {
  }

  lemma CreateStands(s0: Ingest.System, actions: seq<Ingest.Action>, repo: Repo, guard: Entries, r: nat, req: Ingest.Request,
                     event: Event, failed: bool)
    requires Stands(s0, actions, repo, guard, r, req) && req.stage.Ready? && event.id !in repo.events
    requires event == Event(event.id, req.tenantId, event.eventType, req.key, event.payload, Pending)
    ensures var actions' := actions + [Ingest.Create(r, event.id, event.eventType, event.payload, failed)];
            var (repo', res) := Storage.CreateEventWithOutbox(repo, event, OutboxRecord(0, event.id, OutboxPending));
            && Ingest.Run(s0, actions').answers == Ingest.Run(s0, actions).answers
            && if failed then Stands(s0, actions', repo, guard, r, req.(stage := Ingest.Failing))
               else Stands(s0, actions', repo', guard, r, req.(stage := if res.Ok? then Ingest.Created(event.id) else Ingest.Failing))
  {
    hide Storage.CreateEventWithOutbox, Ingest.Run;
    RunOneMore(s0, actions, Ingest.Create(r, event.id, event.eventType, event.payload, failed));
  }

  /** Completion and answer of a request that has created its event. */
  lemma AnswerStands(s0: Ingest.System, actions: seq<Ingest.Action>, repo: Repo, guard: Entries, r: nat, req: Ingest.Request, t1: int, failed: bool)
    requires Stands(s0, actions, repo, guard, r, req) && req.stage.Created?
    ensures var s := Ingest.Run(s0, actions + [Ingest.Cache(r, t1, IDEMP_TTL, failed), Ingest.Accept(r)]);
            var k := CompositeKey(req.tenantId, req.key);
            && Mirrors(s, repo, if req.locked && !failed then Guard.SetResponse(guard, k, CachedResponse(202, req.stage.id), t1, IDEMP_TTL) else guard)
            && Ingest.At(s, r).Done?
            && s.answers == Ingest.Run(s0, actions).answers + if req.key != "" then [Ingest.Answer(k, req.stage.id)] else []
  {
    hide Ingest.Run, CompositeKey, Guard.SetResponse;
    var a, b := Ingest.Cache(r, t1, IDEMP_TTL, failed), Ingest.Accept(r);
    RunOneMore(s0, actions, a);
    RunOneMore(s0, actions + [a], b);
    assert actions + [a, b] == actions + [a] + [b];
  }

  class Handler {
    const repo: MemoryRepository
    const guard: MemoryGuard

    constructor (repo: MemoryRepository, guard: MemoryGuard)
      ensures this.repo == repo && this.guard == guard
    {
      this.repo, this.guard := repo, guard;
    }

    /** `req` is the decoded body, if it decodes, `validJson` whether its payload is valid JSON,
        `guarded` whether a guard is configured, `id` is the new UUID, and `t0`, `t1` are the clock
        readings of the lock and of the completion. The request takes a run of protocol actions
        of its own, one per guard or repository call, and answers 202 exactly when that run adds
        the answer it sends. */
    method HandleIngestEvent(ctx: Context, tenantID: string, idempKey: string, guarded: bool,
                             req: Option<IngestEventRequest>, validJson: bool, id: EventId, t0: int, t1: int,
                             ghost s0: Ingest.System, ghost r: nat)
      returns (status: int, body: Option<EventId>, ghost actions: seq<Ingest.Action>)
      requires Mirrors(s0, repo.View(), guard.entries) && r !in s0.requests && id !in repo.events
      modifies repo, guard, ctx
      ensures old(ctx.cancelled) ==> ctx.cancelled
      ensures Own(actions, r, ctx.cancelled)
      ensures var s := Ingest.Run(s0, actions);
              && Mirrors(s, repo.View(), guard.entries)
              && Ingest.At(s, r).Done?
              && s.answers == if status == 202 && body.Some? && idempKey != "" then s0.answers + [Ingest.Answer(CompositeKey(tenantID, idempKey), body.value)]
                              else s0.answers
      ensures tenantID == "" ==> status == 400 && body == None && actions == [] && repo.View() == old(repo.View()) && guard.entries == old(guard.entries)
      ensures status == 202 ==> body.Some?
      ensures id in repo.events ==>
                && status == 202 && body == Some(id)
                && req.Some? && Filed(old(repo.View()), repo.View(), Event(id, tenantID, req.value.eventType, idempKey, req.value.payload, Pending))
      ensures id !in repo.events ==> repo.View() == old(repo.View())
      ensures tenantID != "" && !ctx.cancelled ==>
                var k, entries := tenantID + ":" + idempKey, old(guard.entries);
                var keyed := idempKey != "" && guarded;
                if keyed && k in entries && t0 < entries[k].expiresAt && entries[k].cached.Some? then
                  && status == entries[k].cached.value.statusCode && body == Some(entries[k].cached.value.eventId)
                  && id !in repo.events && guard.entries == entries
                else if keyed && k in entries && t0 < entries[k].expiresAt && entries[k].inFlight then
                  status == 409 && body == None && id !in repo.events && guard.entries == entries
                else if req.None? || req.value.eventType == "" || req.value.payload in {[], NULL_PAYLOAD} || !validJson then
                  status == 400 && body == None && id !in repo.events && guard.entries == if keyed then entries - {k} else entries
                else if idempKey != "" && k in old(repo.idempotencyIndex) then
                  status == 409 && body == None && id !in repo.events && guard.entries == if keyed then entries - {k} else entries
                else
                  && status == 202 && id in repo.events
                  && guard.entries == if keyed then entries[k := Entry(false, Some(CachedResponse(202, id)), t1 + 86_400_000_000_000)] else entries
    {
      if tenantID == "" {
        return 400, None, [];
      }
      hide Ingest.Run, Ingest.Next, Stands, CompositeKey, Filed, Own, RequestAction, Fails, Mirrors, Ingest.At;
      ghost var k, entries := tenantID + ":" + idempKey, guard.entries;
      actions := [Ingest.Arrive(r, tenantID, idempKey, guarded)];
      ArriveIsOwn(r, tenantID, idempKey, guarded);
      ArriveStands(s0, repo.View(), guard.entries, r, tenantID, idempKey, guarded);
      var lockAcquired := false;
      if idempKey != "" && guarded {
        var early;
        ghost var before := actions;
        early, body, actions := Lock(ctx, tenantID, idempKey, t0, s0, r, before);
        MoreOwn(before, actions, r, false, ctx.cancelled);
        if early.Some? {
          return early.value, body, actions;
        }
        lockAcquired := true;
        ReplacedThenRemoved(entries, k, Entry(true, None, t0 + IDEMP_TTL), Entry(false, Some(CachedResponse(202, id)), t1 + IDEMP_TTL));
      }
      ghost var before, cancelled := actions, ctx.cancelled;
      status, body, actions := Admit(ctx, tenantID, idempKey, lockAcquired, req, validJson, id, t1, s0, r, before);
      MoreOwn(before, actions, r, cancelled, ctx.cancelled);
    }

    /** Validation, then the write; either way the lock is given up. */
    method Admit(ctx: Context, tenantID: string, idempKey: string, lockAcquired: bool,
                 req: Option<IngestEventRequest>, validJson: bool, id: EventId, t1: int,
                 ghost s0: Ingest.System, ghost r: nat, ghost before: seq<Ingest.Action>)
      returns (status: int, body: Option<EventId>, ghost actions: seq<Ingest.Action>)
      requires tenantID != "" && (lockAcquired ==> idempKey != "") && id !in repo.events
      requires Stands(s0, before, repo.View(), guard.entries, r, Ingest.Request(tenantID, idempKey, lockAcquired, Ingest.Ready))
      modifies repo, guard, ctx
      ensures old(ctx.cancelled) ==> ctx.cancelled
      ensures before <= actions && Own(actions[|before|..], r, ctx.cancelled)
      ensures var s := Ingest.Run(s0, actions);
              && Mirrors(s, repo.View(), guard.entries)
              && Ingest.At(s, r).Done?
              && s.answers == Ingest.Run(s0, before).answers + if status == 202 && idempKey != "" then [Ingest.Answer(CompositeKey(tenantID, idempKey), id)] else []
      ensures id in repo.events ==>
                && status == 202 && body == Some(id)
                && req.Some? && Filed(old(repo.View()), repo.View(), Event(id, tenantID, req.value.eventType, idempKey, req.value.payload, Pending))
      ensures id !in repo.events ==> status != 202 && body == None && repo.View() == old(repo.View())
      ensures !lockAcquired ==> guard.entries == old(guard.entries)
      ensures !ctx.cancelled ==>
                var k, entries := tenantID + ":" + idempKey, old(guard.entries);
                if req.None? || req.value.eventType == "" || req.value.payload in {[], NULL_PAYLOAD} || !validJson then
                  status == 400 && id !in repo.events && (lockAcquired && k in entries && entries[k].inFlight ==> guard.entries == entries - {k})
                else if idempKey != "" && k in old(repo.idempotencyIndex) then
                  status == 409 && id !in repo.events && (lockAcquired && k in entries && entries[k].inFlight ==> guard.entries == entries - {k})
                else
                  status == 202 && id in repo.events && (lockAcquired ==> guard.entries == entries[k := Entry(false, Some(CachedResponse(202, id)), t1 + IDEMP_TTL)])
    {
      hide Ingest.Run, Ingest.Next, Stands, CompositeKey, Filed, Own, RequestAction, Fails;
      if req.None? || req.value.eventType == "" || |req.value.payload| == 0 || req.value.payload == NULL_PAYLOAD || !validJson {
        RejectStands(s0, before, repo.View(), guard.entries, r, Ingest.Request(tenantID, idempKey, lockAcquired, Ingest.Ready));
        ghost var rejected, cancelled := before + [Ingest.Reject(r)], ctx.cancelled;
        RejectIsOwn(before, r, cancelled);
        actions := Release(ctx, tenantID, idempKey, lockAcquired, s0, r, rejected);
        MoreSince(before, rejected, actions, r, cancelled, ctx.cancelled);
        return 400, None, actions;
      }
      status, actions := Persist(ctx, tenantID, idempKey, lockAcquired, req.value.eventType, req.value.payload, id, t1, s0, r, before);
      return status, if status == 202 then Some(id) else None, actions;
    }

    /** The guard's early answer, if it has one; otherwise the request goes on with the lock. */
    method Lock(ctx: Context, tenantID: string, idempKey: string, t0: int,
                ghost s0: Ingest.System, ghost r: nat, ghost before: seq<Ingest.Action>)
      returns (early: Option<int>, body: Option<EventId>, ghost actions: seq<Ingest.Action>)
      requires tenantID != "" && idempKey != ""
      requires Stands(s0, before, repo.View(), guard.entries, r, Ingest.Request(tenantID, idempKey, false, Ingest.Acquiring))
      modifies guard, ctx
      ensures old(ctx.cancelled) ==> ctx.cancelled
      ensures exists failed :: actions == before + [Ingest.TakeLock(r, t0, IDEMP_TTL, failed)] && (failed ==> ctx.cancelled)
      ensures before <= actions && Own(actions[|before|..], r, ctx.cancelled)
      ensures early.None? ==> body == None && guard.entries == old(guard.entries)[tenantID + ":" + idempKey := Entry(true, None, t0 + IDEMP_TTL)]
      ensures early.Some? ==> guard.entries == old(guard.entries)
      ensures !ctx.cancelled ==>
                var k, entries := tenantID + ":" + idempKey, old(guard.entries);
                if k in entries && t0 < entries[k].expiresAt && entries[k].cached.Some? then
                  early == Some(entries[k].cached.value.statusCode) && body == Some(entries[k].cached.value.eventId)
                else if k in entries && t0 < entries[k].expiresAt && entries[k].inFlight then early == Some(409) && body == None
                else early == None
      ensures early.None? ==>
                && Stands(s0, actions, repo.View(), guard.entries, r, Ingest.Request(tenantID, idempKey, true, Ingest.Ready))
                && Ingest.Run(s0, actions).answers == Ingest.Run(s0, before).answers
      ensures early.Some? ==> var s := Ingest.Run(s0, actions);
                              && Mirrors(s, repo.View(), guard.entries)
                              && Ingest.At(s, r).Done?
                              && s.answers == Ingest.Run(s0, before).answers +
                                              if early == Some(202) && body.Some? then [Ingest.Answer(CompositeKey(tenantID, idempKey), body.value)] else []
      ensures early == Some(202) ==> body.Some?
    {
      hide Ingest.Run;
      var got := guard.AcquireLock(ctx, tenantID, idempKey, IDEMP_TTL, t0);
      ghost var a := Ingest.TakeLock(r, t0, IDEMP_TTL, got.Err?);
      RunOneMore(s0, before, a);
      actions := before + [a];
      if got.Err? {
        return Some(500), None, actions;
      }
      match got.value
      case Replay(response) => return Some(response.statusCode), Some(response.eventId), actions;
      case Busy => return Some(409), None, actions;
      case Acquired => return None, None, actions;
    }

    /** Event and outbox record in one write, then the cached response, then the answer. */
    method Persist(ctx: Context, tenantID: string, idempKey: string, lockAcquired: bool,
                   eventType: string, payload: seq<Byte>, id: EventId, t1: int,
                   ghost s0: Ingest.System, ghost r: nat, ghost before: seq<Ingest.Action>)
      returns (status: int, ghost actions: seq<Ingest.Action>)
      requires tenantID != "" && (lockAcquired ==> idempKey != "") && id !in repo.events
      requires Stands(s0, before, repo.View(), guard.entries, r, Ingest.Request(tenantID, idempKey, lockAcquired, Ingest.Ready))
      modifies repo, guard, ctx
      ensures old(ctx.cancelled) ==> ctx.cancelled
      ensures before <= actions && Own(actions[|before|..], r, ctx.cancelled)
      ensures status == 202 <==> id in repo.events
      ensures status == 202 ==> Filed(old(repo.View()), repo.View(), Event(id, tenantID, eventType, idempKey, payload, Pending))
      ensures status != 202 ==>
                && repo.View() == old(repo.View())
                && if status == 409 then idempKey != "" && tenantID + ":" + idempKey in old(repo.idempotencyIndex) else status == 500 && ctx.cancelled
      ensures !lockAcquired ==> guard.entries == old(guard.entries)
      ensures !ctx.cancelled ==>
                var k, entries := tenantID + ":" + idempKey, old(guard.entries);
                if idempKey != "" && k in old(repo.idempotencyIndex) then
                  status == 409 && (lockAcquired && k in entries && entries[k].inFlight ==> guard.entries == entries - {k})
                else
                  status == 202 && (lockAcquired ==> guard.entries == entries[k := Entry(false, Some(CachedResponse(202, id)), t1 + IDEMP_TTL)])
      ensures var s := Ingest.Run(s0, actions);
              && Mirrors(s, repo.View(), guard.entries)
              && Ingest.At(s, r).Done?
              && s.answers == Ingest.Run(s0, before).answers + if status == 202 && idempKey != "" then [Ingest.Answer(CompositeKey(tenantID, idempKey), id)] else []
    {
      hide Ingest.Run, Ingest.Next, Stands, Storage.CreateEventWithOutbox, Filed;
      var event := Event(id, tenantID, eventType, idempKey, payload, Pending);
      ghost var req, r0, g0 := Ingest.Request(tenantID, idempKey, lockAcquired, Ingest.Ready), repo.View(), guard.entries;
      CreationFiles(r0, event);
      var created := repo.CreateEventWithOutbox(ctx, event, OutboxRecord(0, id, OutboxPending));
      CreateStands(s0, before, r0, g0, r, req, event, ctx.cancelled);
      actions := before + [Ingest.Create(r, id, eventType, payload, ctx.cancelled)];
      if created.Err? {
        actions := Release(ctx, tenantID, idempKey, lockAcquired, s0, r, actions);
        return if created.error == DuplicateKey then 409 else 500, actions;
      }
      ghost var req' := req.(stage := Ingest.Created(id));
      var cacheFailed := false;
      if lockAcquired {
        var cached := guard.SetResponse(ctx, tenantID, idempKey, CachedResponse(202, id), IDEMP_TTL, t1);
        cacheFailed := cached.Err?;
      }
      AnswerStands(s0, actions, repo.View(), g0, r, req', t1, cacheFailed);
      return 202, actions + [Ingest.Cache(r, t1, IDEMP_TTL, cacheFailed), Ingest.Accept(r)];
    }

    /** The release on every error path; its own failure is ignored. */
    method Release(ctx: Context, tenantID: string, idempKey: string, lockAcquired: bool,
                   ghost s0: Ingest.System, ghost r: nat, ghost before: seq<Ingest.Action>) returns (ghost actions: seq<Ingest.Action>)
      requires tenantID != "" && (lockAcquired ==> idempKey != "")
      requires Stands(s0, before, repo.View(), guard.entries, r, Ingest.Request(tenantID, idempKey, lockAcquired, Ingest.Failing))
      modifies guard, ctx
      ensures old(ctx.cancelled) ==> ctx.cancelled
      ensures exists failed :: actions == before + [Ingest.Fail(r, failed)] && (failed ==> ctx.cancelled)
      ensures before <= actions && Own(actions[|before|..], r, ctx.cancelled)
      ensures !lockAcquired ==> guard.entries == old(guard.entries)
      ensures var k := tenantID + ":" + idempKey;
              lockAcquired && !ctx.cancelled && k in old(guard.entries) && old(guard.entries)[k].inFlight ==> guard.entries == old(guard.entries) - {k}
      ensures var s, s' := Ingest.Run(s0, before), Ingest.Run(s0, actions);
              Mirrors(s', repo.View(), guard.entries) && Ingest.At(s', r).Done? && s'.answers == s.answers
    {
      var failed := false;
      if lockAcquired {
        var released := guard.ReleaseLock(ctx, tenantID, idempKey);
        failed := released.Err?;
      }
      RunOneMore(s0, before, Ingest.Fail(r, failed));
      actions := before + [Ingest.Fail(r, failed)];
    }

    /** 1 to 100 IDs, for a named tenant. */
    method HandleReplayDLQ(ctx: Context, tenantId: string, ids: seq<EventId>) returns (status: int, count: nat)
      modifies repo, ctx
      ensures old(ctx.cancelled) ==> ctx.cancelled
      ensures status == if tenantId == "" || |ids| == 0 || |ids| > 100 then 400 else if ctx.cancelled then 500 else 200
      ensures status == 200 ==> (repo.View(), count) == Storage.ReplayDLQEvents(old(repo.View()), tenantId, ids)
      ensures status != 200 ==> repo.View() == old(repo.View())
    {
      if tenantId == "" || |ids| == 0 || |ids| > 100 {
        return 400, 0;
      }
      var res := repo.ReplayDLQEvents(ctx, tenantId, ids);
      if res.Err? {
        return 500, 0;
      }
      return 200, res.value;
    }
  }
}
