/** Runs from the empty system that reach what the pipeline does not promise: one event, for
    every event and tenant, and the steps that lead there. */
module Departures {
  import opened Domain
  import opened Storage
  import opened Queue
  import opened Delivery
  import opened Dispatchers
  import opened WorkerPools
  import opened Pipeline
  import opened PipelineSteps
  import opened NoLoss
  import opened Duplication
  import opened Republication
  import opened Refinement

  // ---------------------------------------------------------------------------------------
  // One event on its way to a worker
  // ---------------------------------------------------------------------------------------

  function Stored(ev: Event): Event {
    ev.(status := Pending)
  }

  function RecordOf(ev: Event): OutboxRecord {
    OutboxRecord(1, ev.id, OutboxPending)
  }

  /** The system once the event has been taken in, with these endpoints registered. */
  function TakenIn(ev: Event, endpoints: map<string, Endpoint>): System {
    var index := if ev.idempotencyKey == "" then map[] else map[CompositeKey(ev.tenantId, ev.idempotencyKey) := ev.id];
    INITIAL.(repo := Repo(endpoints, map[ev.id := Stored(ev)], map[1 := RecordOf(ev)], map[], index, 1),
    gen := map[ev.id := 1], replays := map[ev.id := 0])
  }

  lemma TakingIn(ev: Event, endpoints: map<string, Endpoint>)
    requires ev.tenantId != ""
    ensures Run(INITIAL, [SetEndpoints(endpoints), Ingest(ev)]) == TakenIn(ev, endpoints)
  {
    hide Run, Next;
    var s1 := INITIAL.(repo := EMPTY.(endpoints := endpoints));
    RunTwo(INITIAL, SetEndpoints(endpoints), Ingest(ev));
    NextIs(INITIAL, SetEndpoints(endpoints));
    NextIs(s1, Ingest(ev));
    IngestFirst(ev, endpoints);
  }

  lemma IngestFirst(ev: Event, endpoints: map<string, Endpoint>)
    ensures DoIngest(INITIAL.(repo := EMPTY.(endpoints := endpoints)), ev) == TakenIn(ev, endpoints)
  {
    var r := EMPTY.(endpoints := endpoints);
    var (r', res) := CreateEventWithOutbox(r, Stored(ev), OutboxRecord(0, ev.id, OutboxPending));
    assert res == Ok(1) && r' == TakenIn(ev, endpoints).repo;
  }

  function FirstMessage(ev: Event): Message {
    MessageFor(MessageId(0, 1), Stored(ev))
  }

  /** Relay 0 has published the record and marked it. */
  function Relayed(ev: Event, endpoints: map<string, Endpoint>): System {
    var s := TakenIn(ev, endpoints);
    s.(repo := s.repo.(outbox := map[1 := RecordOf(ev).(status := OutboxPublished)]),
    log := [FirstMessage(ev)], origins := [1], relays := map[0 := Publishing([])])
  }

  lemma Relaying(ev: Event, endpoints: map<string, Endpoint>)
    ensures Run(TakenIn(ev, endpoints), [Fetch(0, [RecordOf(ev)]), Publish(0, 0)] + [Mark(0)]) == Relayed(ev, endpoints)
  {
    hide Run, Next;
    var s := TakenIn(ev, endpoints);
    var s1, s2 := SetRelay(s, 0, Publishing([RecordOf(ev)])), s.(log := [FirstMessage(ev)], origins := [1], relays := map[0 := Marking([RecordOf(ev)])]);
    FetchFirst(ev, endpoints);
    PublishFirst(ev, endpoints);
    MarkFirst(ev, endpoints);
    RunTwo(s, Fetch(0, [RecordOf(ev)]), Publish(0, 0));
    RunConcat(s, [Fetch(0, [RecordOf(ev)]), Publish(0, 0)], [Mark(0)]);
    RunOne(s2, Mark(0));
  }

  lemma FetchFirst(ev: Event, endpoints: map<string, Endpoint>)
    ensures var s := TakenIn(ev, endpoints); Next(s, Fetch(0, [RecordOf(ev)])) == SetRelay(s, 0, Publishing([RecordOf(ev)]))
  {
    hide DoIngest, DoReplay, DoPublish, DoMark, DoRead, DoClaim, DoBegin, DoFence, DoResolve, DoCall, DoRecord, DoWrite, DoWriteCeiling, DoAck;
  }

  lemma PublishFirst(ev: Event, endpoints: map<string, Endpoint>)
    ensures var s := TakenIn(ev, endpoints);
            Next(SetRelay(s, 0, Publishing([RecordOf(ev)])), Publish(0, 0)) ==
            s.(log := [FirstMessage(ev)], origins := [1], relays := map[0 := Marking([RecordOf(ev)])])
  {
    var s1 := SetRelay(TakenIn(ev, endpoints), 0, Publishing([RecordOf(ev)]));
    NextIs(s1, Publish(0, 0));
    hide Next;
    assert s1.relays[0 := Marking([RecordOf(ev)])] == map[0 := Marking([RecordOf(ev)])];
  }

  lemma MarkFirst(ev: Event, endpoints: map<string, Endpoint>)
    ensures Next(TakenIn(ev, endpoints).(log := [FirstMessage(ev)], origins := [1], relays := map[0 := Marking([RecordOf(ev)])]), Mark(0)) == Relayed(ev, endpoints)
  {
    var s2 := TakenIn(ev, endpoints).(log := [FirstMessage(ev)], origins := [1], relays := map[0 := Marking([RecordOf(ev)])]);
    NextIs(s2, Mark(0));
    hide Next;
    assert [RecordOf(ev)][1..] == [];
    assert s2.relays[0 := Publishing([])] == map[0 := Publishing([])];
    assert MarkOutboxPublished(s2.repo, 1).0.outbox == map[1 := RecordOf(ev).(status := OutboxPublished)];
  }

  /** Worker 0 has read the message. */
  function InHand(ev: Event, endpoints: map<string, Endpoint>): System {
    var m := FirstMessage(ev);
    Relayed(ev, endpoints).(group := Group(0, map[m.id := PendingEntry(m, 0, "worker-0")]), consumers := map[0 := Consumer([m], Boundary, [], false, 0)])
  }

  lemma Reading(ev: Event, endpoints: map<string, Endpoint>)
    ensures Run(Relayed(ev, endpoints), [Read(0, "worker-0", 1, 0)]) == InHand(ev, endpoints)
  {
    var s := Relayed(ev, endpoints);
    RunOne(s, Read(0, "worker-0", 1, 0));
    NextIs(s, Read(0, "worker-0", 1, 0));
    hide Run, Next;
    var batch := NextBatch(s.log, s.group, 1);
    assert batch == [FirstMessage(ev)];
    assert Enroll(map[], batch[..0], "worker-0", 0) == map[];
  }

  function FirstSteps(ev: Event, endpoints: map<string, Endpoint>): seq<Action> {
    [SetEndpoints(endpoints), Ingest(ev)] + ([Fetch(0, [RecordOf(ev)]), Publish(0, 0)] + [Mark(0)]) + [Read(0, "worker-0", 1, 0)]
  }

  lemma InHandIsReachable(ev: Event, endpoints: map<string, Endpoint>)
    requires ev.tenantId != ""
    ensures Run(INITIAL, FirstSteps(ev, endpoints)) == InHand(ev, endpoints)
  {
    hide Run, TakenIn, Relayed, InHand;
    TakingIn(ev, endpoints);
    Relaying(ev, endpoints);
    Reading(ev, endpoints);
    StepsConcat(INITIAL, [SetEndpoints(endpoints), Ingest(ev)], [Fetch(0, [RecordOf(ev)]), Publish(0, 0)] + [Mark(0)], [Read(0, "worker-0", 1, 0)]);
  }

  // ---------------------------------------------------------------------------------------
  // An event whose tenant cannot be delivered to
  // ---------------------------------------------------------------------------------------

  /** No attempt on any of `n` endpoints. */
  function NoAttemptsOn(n: nat): seq<seq<Attempt>> {
    seq(n, _ => [])
  }

  lemma {:induction false} NothingFlat(n: nat)
    ensures Flat(NoAttemptsOn(n)) == []
  {
    if n > 0 {
      NothingFlat(n - 1);
      assert NoAttemptsOn(n)[..n - 1] == NoAttemptsOn(n - 1);
    }
  }

  /** What a consumer does from the endpoint lookup to the acknowledgement if no endpoint takes a request. */
  function VainRound(c: nat, eps: seq<Endpoint>): seq<Action> {
    (if eps == [] then [Resolve(c, [])]
     else [Resolve(c, eps)] + (RoundSteps(c, eps, NoAttemptsOn(|eps|), 0) + [Call(c, NO_ANSWER)]))
    + AckSteps(c, true, false)
  }

  lemma VainWork(s: System, c: nat, eps: seq<Endpoint>)
    requires StageOf(s, c) == Some(Resolving) && !ConsumerOf(s, c).cancelled && Lists(s.repo, Head(s, c).tenantId, eps)
    requires eps != [] && forall ep <- eps :: !ep.urlParses
    ensures WorkedTo(s, Run(s, [Resolve(c, eps)] + (RoundSteps(c, eps, NoAttemptsOn(|eps|), 0) + [Call(c, NO_ANSWER)])), c, s.repo, false)
  {
    var traces, next := NoAttemptsOn(|eps|), FreshId(s.repo);
    var round := RoundSteps(c, eps, traces, 0) + [Call(c, NO_ANSWER)];
    NothingFlat(|eps|);
    assert Traced(eps, traces, 0, Head(s, c).eventId) && AscendingFrom(Flat(traces), next, next);
    hide Run, Next, Lists, Traced, AscendingFrom, IdsBelow, Shape, WorkedTo, ConsumerOf, RoundSteps, Flat;
    ResolveStep(s, c, eps);
    var con1 := ConsumerOf(s, c).(stage := Calling(0, 1, false), eps := eps);
    var t := Shape(s, c, con1, s.repo);
    ShapeTwice(s, c, con1, s.repo, con1, s.repo);
    RoundIsWork(t, c, eps, traces, 0, next, next);
    RunConcat(s, [Resolve(c, eps)], round);
    RunOne(s, Resolve(c, eps));
    WorkedAlso(s, t, Run(t, round), c, con1, s.repo, s.repo, false);
  }

  lemma {:induction false} BoundOf(ids: set<nat>) returns (next: nat)
    ensures forall i <- ids :: i < next
  {
    if ids == {} {
      next := 0;
    } else {
      var i :| i in ids;
      var rest := BoundOf(ids - {i});
      next := if rest > i then rest else i + 1;
      assert forall j <- ids :: j == i || j in ids - {i};
    }
  }

  lemma IdsBelowSome(r: Repo)
    ensures exists next: nat :: IdsBelow(r, next)
  {
    var next := BoundOf(r.attempts.Keys);
    assert IdsBelow(r, next);
  }

  ghost function FreshId(r: Repo): (next: nat)
    ensures IdsBelow(r, next)
  {
    IdsBelowSome(r);
    var next: nat :| IdsBelow(r, next);
    next
  }

  lemma VainResolve(s: System, c: nat)
    requires StageOf(s, c) == Some(Resolving) && !ConsumerOf(s, c).cancelled && Lists(s.repo, Head(s, c).tenantId, [])
    ensures WorkedTo(s, Run(s, [Resolve(c, [])]), c, s.repo, false)
  {
    hide Run, Next, Lists, WorkedTo;
    ResolveStep(s, c, []);
    RunOne(s, Resolve(c, []));
    FinishedIsWorked(s, c, ConsumerOf(s, c).(stage := Finishing(false)));
  }

  /** The assumption that every tenant can be delivered to is needed: whenever a live consumer
      looks up the endpoints of an event and no active one takes a request, its own next steps
      acknowledge the message, leave every event's status, so also PENDING, as it was, and leave
      the event carried only if something else than this entry carries it. */
  lemma UnserviceableEventsAreStranded(s: System, c: nat, eps: seq<Endpoint>)
    requires StageOf(s, c) == Some(Resolving) && !ConsumerOf(s, c).cancelled
    requires Lists(s.repo, Head(s, c).tenantId, eps) && !Serviceable(ActiveEndpoints(s.repo, Head(s, c).tenantId))
    ensures var s' := Run(s, VainRound(c, eps));
            var e := Head(s, c).eventId;
            && HandledTo(s, s', c, s.repo, true, false)
            && (Carried(s'.repo, s'.log, s'.group, e) <==>
                || ByRecord(s.repo, e) || ByMessage(s.log, s.group.lastDelivered, e)
                || exists id <- s.group.pending :: id != Head(s, c).id && s.group.pending[id].msg.eventId == e)
            && (e in s.repo.events && s.repo.events[e].status == Pending && !Carried(s'.repo, s'.log, s'.group, e) ==>
                  !NothingLost(s'.repo, s'.log, s'.group))
  {
    assert forall ep <- eps :: !ep.urlParses;
    hide Run, Next, ActiveEndpoints, Lists, Serviceable, WorkedTo, RoundSteps, AckSteps;
    var work := if eps == [] then [Resolve(c, [])] else [Resolve(c, eps)] + (RoundSteps(c, eps, NoAttemptsOn(|eps|), 0) + [Call(c, NO_ANSWER)]);
    if eps == [] {
      VainResolve(s, c);
    } else {
      VainWork(s, c, eps);
    }
    hide HandledTo;
    AckIsSteps(s, c, work, s.repo, true, false);
    HandledCarries(s, Run(s, VainRound(c, eps)), c);
  }

  lemma HandledCarries(s: System, t: System, c: nat)
    requires StageOf(s, c).Some? && HandledTo(s, t, c, s.repo, true, false)
    ensures var e := Head(s, c).eventId;
            && (Carried(t.repo, t.log, t.group, e) <==>
                || ByRecord(s.repo, e) || ByMessage(s.log, s.group.lastDelivered, e)
                || exists id <- s.group.pending :: id != Head(s, c).id && s.group.pending[id].msg.eventId == e)
            && (e in s.repo.events && s.repo.events[e].status == Pending && !Carried(t.repo, t.log, t.group, e) ==> !NothingLost(t.repo, t.log, t.group))
  {
    var e, id0 := Head(s, c).eventId, Head(s, c).id;
    hide ByRecord, ByMessage;
    if id :| id in s.group.pending && id != id0 && s.group.pending[id].msg.eventId == e {
      assert id in t.group.pending;
    }
  }

  /** And it does happen: for every event of a named tenant, and all endpoints among which the
      tenant has no active one that takes a request, this run from the empty system ends with
      the event PENDING and nothing to carry it. */
  lemma LossIsReachable(ev: Event, endpoints: map<string, Endpoint>, eps: seq<Endpoint>)
    requires ev.tenantId != "" && Lists(EMPTY.(endpoints := endpoints), ev.tenantId, eps)
    requires !Serviceable(ActiveEndpoints(EMPTY.(endpoints := endpoints), ev.tenantId))
    ensures var s := Run(INITIAL, FirstSteps(ev, endpoints) + ToFence(0, FirstMessage(ev)) + VainRound(0, eps));
            ev.id in s.repo.events && s.repo.events[ev.id].status == Pending && !NothingLost(s.repo, s.log, s.group)
  {
    InHandFacts(ev, endpoints, eps);
    hide Run, Lists, ActiveEndpoints, Serviceable, InHand, HandledTo, VainRound, ToFence, FirstSteps, NothingLost;
    InHandIsReachable(ev, endpoints);
    var s, m := InHand(ev, endpoints), FirstMessage(ev);
    FenceSteps(s, 0);
    var con1 := ConsumerOf(s, 0).(stage := Resolving, era := EraOf(s, ev.id));
    var t := Shape(s, 0, con1, s.repo);
    ShapeTwice(s, 0, con1, s.repo, con1, s.repo);
    StepsConcat(INITIAL, FirstSteps(ev, endpoints), ToFence(0, m), VainRound(0, eps));
    UnserviceableEventsAreStranded(t, 0, eps);
    HandledRepo(t, Run(t, VainRound(0, eps)), 0);
  }

  lemma HandledRepo(s: System, t: System, c: nat)
    requires StageOf(s, c).Some? && HandledTo(s, t, c, s.repo, true, false)
    ensures t.repo == s.repo
  {
  }

  lemma InHandFacts(ev: Event, endpoints: map<string, Endpoint>, eps: seq<Endpoint>)
    ensures var s, m := InHand(ev, endpoints), FirstMessage(ev);
            && ConsumerOf(s, 0) == Consumer([m], Boundary, [], false, 0) && m.eventId == ev.id && m.tenantId == ev.tenantId
            && ev.id in s.repo.events && s.repo.events[ev.id].status == Pending
            && !ByRecord(s.repo, ev.id) && !ByMessage(s.log, s.group.lastDelivered, ev.id) && s.group.pending.Keys == {m.id}
            && ActiveEndpoints(s.repo, ev.tenantId) == ActiveEndpoints(EMPTY.(endpoints := endpoints), ev.tenantId)
            && (Lists(EMPTY.(endpoints := endpoints), ev.tenantId, eps) ==> Lists(s.repo, ev.tenantId, eps))
  {
  }

  // ---------------------------------------------------------------------------------------
  // Two consumers past the fence with one event
  // ---------------------------------------------------------------------------------------

  /** Worker 0 holds the message, and consumer 1 has claimed it too. */
  function InTwoHands(ev: Event, endpoints: map<string, Endpoint>): System {
    var s, m := InHand(ev, endpoints), FirstMessage(ev);
    s.(group := Group(0, map[m.id := PendingEntry(m, 0, "pel-auto-reclaimer")]),
    consumers := s.consumers[1 := Consumer([m], Boundary, [], false, 0)])
  }

  lemma FirstClaim(ev: Event, endpoints: map<string, Endpoint>)
    ensures var g, m := InHand(ev, endpoints).group, FirstMessage(ev);
            && ClaimChoice(g, 0, 1, 0, [m.id]) && Entries(g, [m.id]) == [m]
            && Queue.Claim(g, [m.id], "pel-auto-reclaimer", 0) == InTwoHands(ev, endpoints).group
  {
    var g, m := InHand(ev, endpoints).group, FirstMessage(ev);
    assert Queue.Claim(g, [m.id], "pel-auto-reclaimer", 0).pending == InTwoHands(ev, endpoints).group.pending;
  }

  lemma ClaimingToo(ev: Event, endpoints: map<string, Endpoint>)
    ensures Run(InHand(ev, endpoints), [Claim(1, "pel-auto-reclaimer", 0, 1, 0, [FirstMessage(ev).id])]) == InTwoHands(ev, endpoints)
  {
    var s, m := InHand(ev, endpoints), FirstMessage(ev);
    FirstClaim(ev, endpoints);
    RunOne(s, Claim(1, "pel-auto-reclaimer", 0, 1, 0, [m.id]));
    NextIs(s, Claim(1, "pel-auto-reclaimer", 0, 1, 0, [m.id]));
    hide Run, Next, ClaimChoice, Entries, Queue.Claim;
  }

  /** A consumer's steps from its batch to its first endpoint. */
  function ToEndpoint(c: nat, m: Message, eps: seq<Endpoint>): seq<Action> {
    ToFence(c, m) + [Resolve(c, eps)]
  }

  /** The consumer before its first attempt on the first endpoint. */
  function Poised(m: Message, eps: seq<Endpoint>): Consumer {
    Consumer([m], Calling(0, 1, false), eps, false, 1)
  }

  function PoisedBoth(ev: Event, endpoints: map<string, Endpoint>, eps: seq<Endpoint>): System {
    var s := InTwoHands(ev, endpoints);
    s.(consumers := map[0 := Poised(FirstMessage(ev), eps), 1 := Poised(FirstMessage(ev), eps)])
  }

  lemma BothPassTheFence(ev: Event, endpoints: map<string, Endpoint>, eps: seq<Endpoint>)
    requires ev.tenantId != "" && eps != [] && Lists(EMPTY.(endpoints := endpoints), ev.tenantId, eps)
    ensures Run(InTwoHands(ev, endpoints), ToEndpoint(0, FirstMessage(ev), eps) + ToEndpoint(1, FirstMessage(ev), eps)) == PoisedBoth(ev, endpoints, eps)
  {
    var s, m := InTwoHands(ev, endpoints), FirstMessage(ev);
    InTwoHandsFacts(ev, endpoints, eps);
    hide Run, Lists, InTwoHands, PoisedBoth, ToFence;
    ToRound(s, 0, eps);
    var t := Shape(s, 0, Poised(m, eps), s.repo);
    OtherConsumer(s, 0, Poised(m, eps), s.repo, 1, m.eventId);
    ToRound(t, 1, eps);
    RunConcat(s, ToEndpoint(0, m, eps), ToEndpoint(1, m, eps));
  }

  lemma OtherConsumer(s: System, c: nat, con: Consumer, repo: Repo, d: nat, e: EventId)
    requires d != c
    ensures var t := Shape(s, c, con, repo);
            && ConsumerOf(t, d) == ConsumerOf(s, d) && StageOf(t, d) == StageOf(s, d) && t.repo == repo && EraOf(t, e) == EraOf(s, e)
            && (StageOf(s, d).Some? ==> Head(t, d) == Head(s, d))
  {
  }

  lemma InTwoHandsFacts(ev: Event, endpoints: map<string, Endpoint>, eps: seq<Endpoint>)
    ensures var s, m := InTwoHands(ev, endpoints), FirstMessage(ev);
            && ConsumerOf(s, 0) == ConsumerOf(s, 1) == Consumer([m], Boundary, [], false, 0)
            && StageOf(s, 0) == StageOf(s, 1) == Some(Boundary) && Head(s, 0) == Head(s, 1) == m && m.eventId == ev.id && m.tenantId == ev.tenantId
            && ev.id in s.repo.events && !Fenced(s.repo, ev.id) && EraOf(s, ev.id) == 1 && s.repo.attempts == map[]
            && (Lists(EMPTY.(endpoints := endpoints), ev.tenantId, eps) ==> Lists(s.repo, ev.tenantId, eps))
            && PoisedBoth(ev, endpoints, eps) == Shape(Shape(s, 0, Poised(m, eps), s.repo), 1, Poised(m, eps), s.repo)
  {
    var s, m := InTwoHands(ev, endpoints), FirstMessage(ev);
    assert s.consumers[0 := Poised(m, eps)][1 := Poised(m, eps)] == PoisedBoth(ev, endpoints, eps).consumers;
  }

  /** A first attempt that gets the given response. */
  function FinalAttempt(id: nat, ev: Event, ep: Endpoint, statusCode: int, maxRetries: int): Attempt {
    AttemptFor(id, ev.id, ep.id, 1, HttpResult(statusCode, false), maxRetries)
  }

  /** DELIVERED is not final: with any event of a tenant whose first endpoint takes a request, a
      worker whose request succeeds and a claimer whose request is rejected, both past the fence,
      lead from the empty system to DELIVERED and on to DLQ, whatever the retry limit. */
  lemma DeliveredTurnsDLQ(ev: Event, endpoints: map<string, Endpoint>, eps: seq<Endpoint>, maxRetries: int)
    requires ev.tenantId != "" && Lists(EMPTY.(endpoints := endpoints), ev.tenantId, eps) && eps != [] && eps[0].urlParses
    ensures var m := FirstMessage(ev);
            var before := FirstSteps(ev, endpoints) + [Claim(1, "pel-auto-reclaimer", 0, 1, 0, [m.id])] + (ToEndpoint(0, m, eps) + ToEndpoint(1, m, eps));
            var delivered := before + AttemptSteps(0, FinalAttempt(0, ev, eps[0], 200, maxRetries), maxRetries);
            var rejected := delivered + AttemptSteps(1, FinalAttempt(1, ev, eps[0], 400, maxRetries), maxRetries);
            var r1, r2 := Run(INITIAL, delivered).repo, Run(INITIAL, rejected).repo;
            ev.id in r1.events && r1.events[ev.id].status == Delivered && ev.id in r2.events && r2.events[ev.id].status == DLQ
  {
    var m := FirstMessage(ev);
    InTwoHandsFacts(ev, endpoints, eps);
    var repo := InTwoHands(ev, endpoints).repo;
    var a0, a1 := FinalAttempt(0, ev, eps[0], 200, maxRetries), FinalAttempt(1, ev, eps[0], 400, maxRetries);
    VerdictsDiffer(repo, ev, eps[0], maxRetries);
    hide Run, Lists, InHand, InTwoHands, PoisedBoth, ToEndpoint, FirstSteps, AttemptSteps, AfterAttempt, AttemptFor, Fenced;
    InHandIsReachable(ev, endpoints);
    ClaimingToo(ev, endpoints);
    BothPassTheFence(ev, endpoints, eps);
    StepsConcat(INITIAL, FirstSteps(ev, endpoints), [Claim(1, "pel-auto-reclaimer", 0, 1, 0, [m.id])], ToEndpoint(0, m, eps) + ToEndpoint(1, m, eps));
    var before := FirstSteps(ev, endpoints) + [Claim(1, "pel-auto-reclaimer", 0, 1, 0, [m.id])] + (ToEndpoint(0, m, eps) + ToEndpoint(1, m, eps));
    var s := PoisedBoth(ev, endpoints, eps);
    assert Run(INITIAL, before) == s;
    PoisedFacts(ev, endpoints, eps);
    AttemptIsSteps(s, 0, 0, 1, false, a0, maxRetries);
    RunConcat(INITIAL, before, AttemptSteps(0, a0, maxRetries));
    var con := Onward(ConsumerOf(s, 0), 0, 1, false, true, a0);
    var t := Shape(s, 0, con, AfterAttempt(repo, a0));
    OtherConsumer(s, 0, con, AfterAttempt(repo, a0), 1, ev.id);
    AttemptIsSteps(t, 1, 0, 1, false, a1, maxRetries);
    RunConcat(INITIAL, before + AttemptSteps(0, a0, maxRetries), AttemptSteps(1, a1, maxRetries));
  }

  lemma PoisedFacts(ev: Event, endpoints: map<string, Endpoint>, eps: seq<Endpoint>)
    ensures var s := PoisedBoth(ev, endpoints, eps);
            ConsumerOf(s, 0) == ConsumerOf(s, 1) == Poised(FirstMessage(ev), eps) && s.repo == InTwoHands(ev, endpoints).repo
  {
  }

  lemma VerdictsDiffer(repo: Repo, ev: Event, ep: Endpoint, maxRetries: int)
    requires ev.id in repo.events && repo.attempts == map[]
    ensures var a0, a1 := FinalAttempt(0, ev, ep, 200, maxRetries), FinalAttempt(1, ev, ep, 400, maxRetries);
            var r1 := AfterAttempt(repo, a0);
            && ev.id in r1.events && r1.events[ev.id].status == Delivered && 1 !in r1.attempts
            && var r2 := AfterAttempt(r1, a1); ev.id in r2.events && r2.events[ev.id].status == DLQ
  {
  }

  /** One final attempt on the only endpoint, and the end of the round. */
  function OneRound(c: nat, a: Attempt, maxRetries: int): seq<Action> {
    AttemptSteps(c, a, maxRetries) + [Call(c, NO_ANSWER)]
  }

  /** The system once consumer `c` has completed its round. */
  function RoundOver(s: System, c: nat, m: Message, ep: Endpoint, a: Attempt): System {
    Shape(s, c, Poised(m, [ep]).(stage := Finishing(true)), AfterAttempt(s.repo, a)).(rounds := s.rounds + [Round(m.eventId, 1)])
  }

  lemma OneRoundIsSteps(s: System, c: nat, m: Message, ep: Endpoint, a: Attempt, maxRetries: int)
    requires ConsumerOf(s, c) == Poised(m, [ep]) && m.eventId in s.repo.events
    requires IsAttempt(s, c, 0, 1, a, maxRetries) && a.status != Retrying
    ensures Run(s, OneRound(c, a, maxRetries)) == RoundOver(s, c, m, ep, a)
  {
    hide Run, AttemptSteps, AfterAttempt, AttemptFor, DoCall;
    AttemptIsSteps(s, c, 0, 1, false, a, maxRetries);
    var con := Onward(ConsumerOf(s, c), 0, 1, false, true, a);
    var t := Shape(s, c, con, AfterAttempt(s.repo, a));
    ShapeTwice(s, c, con, t.repo, con.(stage := Finishing(true)), t.repo);
    RunConcat(s, AttemptSteps(c, a, maxRetries), [Call(c, NO_ANSWER)]);
    RunOne(t, Call(c, NO_ANSWER));
    NextIs(t, Call(c, NO_ANSWER));
    CompletingCall(t, c, NO_ANSWER);
  }

  lemma SucceedTwice(s: System, ev: Event, ep: Endpoint, maxRetries: int)
    requires ev.id in s.repo.events && s.repo.attempts == map[]
    ensures var a0, a1 := FinalAttempt(0, ev, ep, 200, maxRetries), FinalAttempt(1, ev, ep, 200, maxRetries);
            var r1 := AfterAttempt(s.repo, a0);
            a0.status == a1.status == Success && a0.id !in s.repo.attempts && ev.id in r1.events && a1.id !in r1.attempts
  {
  }

  lemma AfterRound(s: System, c: nat, d: nat, m: Message, ep: Endpoint, a: Attempt)
    requires c != d
    ensures var t := RoundOver(s, c, m, ep, a);
            ConsumerOf(t, d) == ConsumerOf(s, d) && t.repo == AfterAttempt(s.repo, a) && t.replays == s.replays && t.rounds == s.rounds + [Round(m.eventId, 1)]
  {
    hide AfterAttempt;
  }

  /** Without the assumption that consumers do not overlap there is no such bound: with any event
      of a tenant whose one active endpoint takes a request, a worker and a claimer, both past the
      fence, complete two dispatch rounds for the event, which was never replayed. */
  lemma OverlapDuplicates(ev: Event, endpoints: map<string, Endpoint>, ep: Endpoint, maxRetries: int)
    requires ev.tenantId != "" && Lists(EMPTY.(endpoints := endpoints), ev.tenantId, [ep]) && ep.urlParses
    ensures var m := FirstMessage(ev);
            var before := FirstSteps(ev, endpoints) + [Claim(1, "pel-auto-reclaimer", 0, 1, 0, [m.id])] + (ToEndpoint(0, m, [ep]) + ToEndpoint(1, m, [ep]));
            var rounds := OneRound(0, FinalAttempt(0, ev, ep, 200, maxRetries), maxRetries) + OneRound(1, FinalAttempt(1, ev, ep, 200, maxRetries), maxRetries);
            var s := Run(INITIAL, before + rounds);
            s.rounds == [Round(ev.id, 1), Round(ev.id, 1)] && s.replays == map[ev.id := 0]
  {
    hide Run, Lists, PoisedBoth, ToEndpoint, FirstSteps, OneRound, FinalAttempt;
    var m, s := FirstMessage(ev), PoisedBoth(ev, endpoints, [ep]);
    var before := FirstSteps(ev, endpoints) + [Claim(1, "pel-auto-reclaimer", 0, 1, 0, [m.id])] + (ToEndpoint(0, m, [ep]) + ToEndpoint(1, m, [ep]));
    BothArePoised(ev, endpoints, ep);
    TwoRounds(s, ev, m, ep, maxRetries);
    RunConcat(INITIAL, before,
              OneRound(0, FinalAttempt(0, ev, ep, 200, maxRetries), maxRetries) + OneRound(1, FinalAttempt(1, ev, ep, 200, maxRetries), maxRetries));
  }

  lemma TwoRounds(s: System, ev: Event, m: Message, ep: Endpoint, maxRetries: int)
    requires ConsumerOf(s, 0) == ConsumerOf(s, 1) == Poised(m, [ep]) && ep.urlParses
    requires m.eventId == ev.id && ev.id in s.repo.events && s.repo.attempts == map[]
    ensures var rounds := OneRound(0, FinalAttempt(0, ev, ep, 200, maxRetries), maxRetries) + OneRound(1, FinalAttempt(1, ev, ep, 200, maxRetries), maxRetries);
            var t := Run(s, rounds);
            t.rounds == s.rounds + [Round(ev.id, 1)] + [Round(ev.id, 1)] && t.replays == s.replays
  {
    var a0, a1 := FinalAttempt(0, ev, ep, 200, maxRetries), FinalAttempt(1, ev, ep, 200, maxRetries);
    SucceedTwice(s, ev, ep, maxRetries);
    hide Run, AfterAttempt, AttemptFor, OneRound, RoundOver, ConsumerOf;
    var t := RoundOver(s, 0, m, ep, a0);
    AfterRound(s, 0, 1, m, ep, a0);
    OneRoundIsSteps(s, 0, m, ep, a0, maxRetries);
    OneRoundIsSteps(t, 1, m, ep, a1, maxRetries);
    AfterRound(t, 1, 0, m, ep, a1);
    RunConcat(s, OneRound(0, a0, maxRetries), OneRound(1, a1, maxRetries));
  }

  lemma BothArePoised(ev: Event, endpoints: map<string, Endpoint>, ep: Endpoint)
    requires ev.tenantId != "" && Lists(EMPTY.(endpoints := endpoints), ev.tenantId, [ep])
    ensures var m, s := FirstMessage(ev), PoisedBoth(ev, endpoints, [ep]);
            && Run(INITIAL, FirstSteps(ev, endpoints) + [Claim(1, "pel-auto-reclaimer", 0, 1, 0, [m.id])] + (ToEndpoint(0, m, [ep]) + ToEndpoint(1, m, [ep]))) == s
            && ConsumerOf(s, 0) == ConsumerOf(s, 1) == Poised(m, [ep]) && m.eventId == ev.id
            && ev.id in s.repo.events && s.repo.attempts == map[] && s.rounds == [] && s.replays == map[ev.id := 0]
  {
    var m := FirstMessage(ev);
    InTwoHandsFacts(ev, endpoints, [ep]);
    PoisedFacts(ev, endpoints, [ep]);
    hide Run, Lists, ToEndpoint, FirstSteps;
    InHandIsReachable(ev, endpoints);
    ClaimingToo(ev, endpoints);
    BothPassTheFence(ev, endpoints, [ep]);
    StepsConcat(INITIAL, FirstSteps(ev, endpoints), [Claim(1, "pel-auto-reclaimer", 0, 1, 0, [m.id])], ToEndpoint(0, m, [ep]) + ToEndpoint(1, m, [ep]));
  }

  // ---------------------------------------------------------------------------------------
  // One record, two messages
  // ---------------------------------------------------------------------------------------

  /** A record is not locked by being fetched: for every event, two relays publish its one record
      twice, and the event has two messages with different IDs in the stream. */
  lemma RecordPublishedTwice(ev: Event, endpoints: map<string, Endpoint>)
    requires ev.tenantId != ""
    ensures var s := Run(INITIAL, [SetEndpoints(endpoints), Ingest(ev)]
                         + [Fetch(0, [RecordOf(ev)]), Fetch(1, [RecordOf(ev)])] + [Publish(0, 0), Publish(1, 0)]);
            && s.origins == [1, 1] && s.repo.outbox.Keys == {1}
            && |s.log| == 2 && s.log[0].eventId == s.log[1].eventId == ev.id && s.log[0].id != s.log[1].id
  {
    var s, ob := TakenIn(ev, endpoints), RecordOf(ev);
    var s2 := s.(relays := map[0 := Publishing([ob]), 1 := Publishing([ob])]);
    FetchTwice(ev, endpoints);
    PublishTwice(ev, endpoints);
    hide Run;
    TakingIn(ev, endpoints);
    StepsConcat(INITIAL, [SetEndpoints(endpoints), Ingest(ev)], [Fetch(0, [ob]), Fetch(1, [ob])], [Publish(0, 0), Publish(1, 0)]);
  }

  lemma FetchTwice(ev: Event, endpoints: map<string, Endpoint>)
    ensures var s, ob := TakenIn(ev, endpoints), RecordOf(ev);
            Run(s, [Fetch(0, [ob]), Fetch(1, [ob])]) == s.(relays := map[0 := Publishing([ob]), 1 := Publishing([ob])])
  {
    var s, ob := TakenIn(ev, endpoints), RecordOf(ev);
    var s1 := SetRelay(s, 0, Publishing([ob]));
    RunTwo(s, Fetch(0, [ob]), Fetch(1, [ob]));
    FetchFirst(ev, endpoints);
    hide Run, DoIngest, DoReplay, DoPublish, DoMark, DoRead, DoClaim, DoBegin, DoFence, DoResolve, DoCall, DoRecord, DoWrite, DoWriteCeiling, DoAck;
    assert s1.relays[1 := Publishing([ob])] == map[0 := Publishing([ob]), 1 := Publishing([ob])];
  }

  lemma PublishTwice(ev: Event, endpoints: map<string, Endpoint>)
    ensures var s0, ob := TakenIn(ev, endpoints), RecordOf(ev);
            var s := Run(s0.(relays := map[0 := Publishing([ob]), 1 := Publishing([ob])]), [Publish(0, 0), Publish(1, 0)]);
            s.origins == [1, 1] && s.repo == s0.repo && s.log == [FirstMessage(ev), MessageFor(MessageId(0, 2), Stored(ev))]
  {
    var ob := RecordOf(ev);
    var s := TakenIn(ev, endpoints).(relays := map[0 := Publishing([ob]), 1 := Publishing([ob])]);
    RunTwo(s, Publish(0, 0), Publish(1, 0));
    NextIs(s, Publish(0, 0));
    NextIs(Next(s, Publish(0, 0)), Publish(1, 0));
    hide Run, Next;
  }

  /** The system after relay 0 has published the record and perished before marking it. */
  function Unmarked(ev: Event, endpoints: map<string, Endpoint>): System {
    TakenIn(ev, endpoints).(log := [FirstMessage(ev)], origins := [1], relays := map[0 := Publishing([])])
  }

  lemma PublishThenCrash(ev: Event, endpoints: map<string, Endpoint>)
    ensures Run(TakenIn(ev, endpoints), [Fetch(0, [RecordOf(ev)]), Publish(0, 0)] + [CrashRelay(0)]) == Unmarked(ev, endpoints)
  {
    var s, ob := TakenIn(ev, endpoints), RecordOf(ev);
    var s1, s2 := SetRelay(s, 0, Publishing([ob])), s.(log := [FirstMessage(ev)], origins := [1], relays := map[0 := Marking([ob])]);
    FetchFirst(ev, endpoints);
    PublishFirst(ev, endpoints);
    RunTwo(s, Fetch(0, [ob]), Publish(0, 0));
    RunConcat(s, [Fetch(0, [ob]), Publish(0, 0)], [CrashRelay(0)]);
    RunOne(s2, CrashRelay(0));
    hide Run, DoIngest, DoReplay, DoPublish, DoMark, DoRead, DoClaim, DoBegin, DoFence, DoResolve, DoCall, DoRecord, DoWrite, DoWriteCeiling, DoAck;
    assert s2.relays[0 := Publishing([])] == map[0 := Publishing([])];
  }

  lemma PublishAgain(ev: Event, endpoints: map<string, Endpoint>)
    ensures Run(Unmarked(ev, endpoints), [Fetch(0, [RecordOf(ev)]), Publish(0, 0)]).origins == [1, 1]
    ensures Run(Unmarked(ev, endpoints), [Fetch(0, [RecordOf(ev)]), Publish(0, 0)]).repo == TakenIn(ev, endpoints).repo
  {
    var s, ob := Unmarked(ev, endpoints), RecordOf(ev);
    RunTwo(s, Fetch(0, [ob]), Publish(0, 0));
    FetchAgain(ev, endpoints);
    NextIs(SetRelay(s, 0, Publishing([ob])), Publish(0, 0));
    hide Run, Next;
  }

  lemma FetchAgain(ev: Event, endpoints: map<string, Endpoint>)
    ensures var s := Unmarked(ev, endpoints); Next(s, Fetch(0, [RecordOf(ev)])) == SetRelay(s, 0, Publishing([RecordOf(ev)]))
  {
    hide DoIngest, DoReplay, DoPublish, DoMark, DoRead, DoClaim, DoBegin, DoFence, DoResolve, DoCall, DoRecord, DoWrite, DoWriteCeiling, DoAck;
  }

  /** Nor does one relay alone publish a record once: for every event, a relay that perishes
      between publishing the record and marking it finds it PENDING again and publishes it a
      second time, though nobody was marking it then. */
  lemma CrashedRelayPublishesTwice(ev: Event, endpoints: map<string, Endpoint>)
    requires ev.tenantId != ""
    ensures var before := [SetEndpoints(endpoints), Ingest(ev)] + ([Fetch(0, [RecordOf(ev)]), Publish(0, 0)] + [CrashRelay(0)]);
            var s, s' := Run(INITIAL, before), Run(INITIAL, before + [Fetch(0, [RecordOf(ev)]), Publish(0, 0)]);
            && s.repo.outbox.Keys == {1} && s.repo.outbox[1].status == OutboxPending && !BeingMarked(s, 1)
            && s.origins == [1] && s'.origins == [1, 1]
  {
    var start, lost := [SetEndpoints(endpoints), Ingest(ev)], [Fetch(0, [RecordOf(ev)]), Publish(0, 0)] + [CrashRelay(0)];
    hide Run;
    TakingIn(ev, endpoints);
    PublishThenCrash(ev, endpoints);
    PublishAgain(ev, endpoints);
    RunConcat(INITIAL, start, lost);
    StepsConcat(INITIAL, start, lost, [Fetch(0, [RecordOf(ev)]), Publish(0, 0)]);
    assert forall x: nat :: RelayOf(Unmarked(ev, endpoints), x).Publishing?;
  }
}
