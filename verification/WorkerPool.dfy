/** `internal/worker/pool.go`: processing messages, the worker loop's batches, and the
    reclaimer with its claim ceiling. */
module WorkerPools {
  import opened Domain
  import opened Storage
  import opened Queue
  import Retry
  import opened Delivery
  import opened MemoryRepositories
  import opened MemoryStreamQueues
  import opened Dispatchers
  import opened Signatures

  function Flat(traces: seq<seq<Attempt>>): seq<Attempt> {
    if traces == [] then [] else Flat(traces[..|traces| - 1]) + traces[|traces| - 1]
  }

  /** The status fence: nothing is left to do for the event. */
  predicate Fenced(r: Repo, e: EventId) {
    e in r.events && (r.events[e].status == Delivered || r.events[e].status == DLQ)
  }

  /** One retry trace for each endpoint that a request can be built for, in order. */
  ghost predicate Traced(active: seq<Endpoint>, traces: seq<seq<Attempt>>, maxRetries: int, e: EventId) {
    && |traces| == |active|
    && forall i | 0 <= i < |active| ::
         if active[i].urlParses then RetryTrace(traces[i], maxRetries, e, active[i].id) else traces[i] == []
  }

  /** What processing a message does when it is not cancelled. */
  ghost predicate Processed(r: Repo, r': Repo, msg: Message, maxRetries: int, active: seq<Endpoint>, traces: seq<seq<Attempt>>) {
    && r' == AfterAttempts(r, Flat(traces))
    && if msg.tenantId == "" || Fenced(r, msg.eventId) then traces == []
       else Lists(r, msg.tenantId, active) && Traced(active, traces, maxRetries, msg.eventId)
  }

  /** How far the work on a message got: the endpoints it was to be delivered to, the complete
      traces, and where a cancellation cut off the delivery to the next endpoint; `sent` and `cut`
      are the exchanges behind them. */
  datatype Trail = Trail(
    active: seq<Endpoint>, traces: seq<seq<Attempt>>, partial: seq<Attempt>, last: Option<Attempt>,
    sent: seq<seq<Exchange>>, cut: seq<Exchange>)

  const NO_TRAIL := Trail([], [], [], None, [], [])

  function AttemptsOf(trail: Trail): seq<Attempt> {
    Flat(trail.traces) + (trail.partial + Listed(trail.last))
  }

  predicate Whole(trail: Trail) {
    trail.partial == [] && trail.last == None && trail.cut == []
  }

  function Joined(sent: seq<seq<Exchange>>): seq<Exchange> {
    if sent == [] then [] else Joined(sent[..|sent| - 1]) + sent[|sent| - 1]
  }

  function ExchangesOf(trail: Trail): seq<Exchange> {
    Joined(trail.sent) + trail.cut
  }

  /** Each complete trace was made by requests with this event ID and payload, one for each of its
      attempts, signed for its endpoint; so was the one cut off. */
  ghost predicate Sending(mac: Mac, trail: Trail, e: EventId, payload: seq<Byte>) {
    var n := |trail.traces|;
    && |trail.sent| == n <= |trail.active|
    && (forall i | 0 <= i < n :: SentTo(mac, trail.sent[i], trail.traces[i], trail.active[i], e, payload, false))
    && if n < |trail.active| then SentTo(mac, trail.cut, trail.partial + Listed(trail.last), trail.active[n], e, payload, true)
       else trail.cut == []
  }

  lemma NothingSent(mac: Mac, active: seq<Endpoint>, e: EventId, payload: seq<Byte>)
    ensures var trail := NO_TRAIL.(active := active); Sending(mac, trail, e, payload) && ExchangesOf(trail) == []
  {
    if active != [] {
      NothingSentTo(mac, active[0], e, payload, true);
    }
    assert [] + Listed(None) == [];
  }

  /** The delivery to the next endpoint was cut off. */
  lemma SendingEnds(mac: Mac, trail: Trail, e: EventId, payload: seq<Byte>, trace: seq<Attempt>, last: Option<Attempt>, sent: seq<Exchange>)
    requires Sending(mac, trail, e, payload) && Whole(trail) && |trail.traces| < |trail.active|
    requires SentTo(mac, sent, trace + Listed(last), trail.active[|trail.traces|], e, payload, true)
    ensures var trail' := trail.(partial := trace, last := last, cut := sent);
            Sending(mac, trail', e, payload) && ExchangesOf(trail') == ExchangesOf(trail) + sent
  {
    hide SentTo, Listed, Joined;
    assert Joined(trail.sent) + [] == Joined(trail.sent);
  }

  lemma NothingListed()
    ensures [] + Listed(None) == []
  {
  }

  lemma JoinedGrows(sent: seq<seq<Exchange>>, more: seq<Exchange>)
    ensures Joined(sent + [more]) + [] == Joined(sent) + [] + more
  {
    assert (sent + [more])[..|sent|] == sent;
  }

  /** The delivery to the next endpoint was completed. */
  lemma SendingGrows(mac: Mac, trail: Trail, e: EventId, payload: seq<Byte>, trace: seq<Attempt>, sent: seq<Exchange>)
    requires Sending(mac, trail, e, payload) && Whole(trail) && |trail.traces| < |trail.active|
    requires SentTo(mac, sent, trace, trail.active[|trail.traces|], e, payload, false)
    ensures var trail' := trail.(traces := trail.traces + [trace], sent := trail.sent + [sent]);
            Sending(mac, trail', e, payload) && ExchangesOf(trail') == ExchangesOf(trail) + sent
  {
    hide SentTo, Listed, Joined;
    var n := |trail.traces|;
    if n + 1 < |trail.active| {
      NothingSentTo(mac, trail.active[n + 1], e, payload, true);
    }
    NothingListed();
    JoinedGrows(trail.sent, sent);
  }

  /** What processing does that a cancellation stops: nothing, if it stops before the endpoints
      are known, otherwise the deliveries to some endpoints and a part of the next one's. */
  ghost predicate Halted(r: Repo, r': Repo, msg: Message, maxRetries: int, trail: Trail) {
    && msg.tenantId != ""
    && if trail.active == [] then trail == NO_TRAIL && r' == r
       else
         && !Fenced(r, msg.eventId) && Lists(r, msg.tenantId, trail.active)
         && HaltedAmong(r, r', msg.eventId, maxRetries, trail)
  }

  ghost predicate HaltedAmong(r: Repo, r': Repo, e: EventId, maxRetries: int, trail: Trail) {
    var n := |trail.traces|;
    && n < |trail.active| && Traced(trail.active[..n], trail.traces, maxRetries, e)
    && CutOff(AfterAttempts(r, Flat(trail.traces)), r', trail.partial, trail.last, maxRetries, e, trail.active[n])
  }

  /** A message was processed to the end, or until a cancellation. */
  ghost predicate WorkedOn(r: Repo, r': Repo, msg: Message, maxRetries: int, trail: Trail, cancelled: bool) {
    || (Whole(trail) && Processed(r, r', msg, maxRetries, trail.active, trail.traces))
    || (cancelled && Halted(r, r', msg, maxRetries, trail))
  }

  /** What is left of processing that was cut short: no event but the message's own has changed,
      and that one only if an endpoint had finished before the cancellation. */
  ghost predicate CutShort(r: Repo, r': Repo, e: EventId) {
    && r' == r.(events := r'.events, attempts := r'.attempts)
    && exists verdict: Option<EventStatus> :: r'.events == Concluded(r.events, e, verdict) && verdict in {None, Some(Delivered), Some(DLQ)}
  }

  // ---------------------------------------------------------------------------------------
  // What processing means for the event
  // ---------------------------------------------------------------------------------------

  lemma {:induction false} FlatOf(active: seq<Endpoint>, traces: seq<seq<Attempt>>, maxRetries: int, e: EventId)
    requires Traced(active, traces, maxRetries, e)
    ensures forall a <- Flat(traces) :: a.eventId == e
    ensures LastVerdict(Flat(traces)) in {None, Some(Delivered), Some(DLQ)}
    ensures LastVerdict(Flat(traces)).Some? <==> exists ep <- active :: ep.urlParses
  {
    if traces != [] {
      var n := |traces| - 1;
      FlatOf(active[..n], traces[..n], maxRetries, e);
      assert active == active[..n] + [active[n]];
      LastVerdictConcat(Flat(traces[..n]), traces[n]);
      if active[n].urlParses {
        RetryTraceConcludes(traces[n], maxRetries, e, active[n].id);
      }
      hide RetryTrace, LastVerdict;
    }
  }

  /** The index of the last endpoint that a request can be built for. */
  predicate LastServed(active: seq<Endpoint>, k: nat) {
    k < |active| && active[k].urlParses && forall i | k < i < |active| :: !active[i].urlParses
  }

  /** With several endpoints, the last one's last attempt decides. */
  lemma {:induction false} LastEndpointDecides(active: seq<Endpoint>, traces: seq<seq<Attempt>>, maxRetries: int, e: EventId, k: nat)
    requires Traced(active, traces, maxRetries, e) && LastServed(active, k)
    ensures |traces[k]| > 0
    ensures LastVerdict(Flat(traces)) == Some(if Succeeded(ResultOf(traces[k][|traces[k]| - 1])) then Delivered else DLQ)
  {
    var n := |traces| - 1;
    LastVerdictConcat(Flat(traces[..n]), traces[n]);
    assert RetryTrace(traces[k], maxRetries, e, active[k].id);
    RetryTraceConcludes(traces[k], maxRetries, e, active[k].id);
    if k < n {
      LastEndpointDecides(active[..n], traces[..n], maxRetries, e, k);
    }
  }

  /** Exactly when a PENDING event stays PENDING although its message was processed to the end. */
  lemma ProcessingDecides(r: Repo, r': Repo, msg: Message, maxRetries: int, active: seq<Endpoint>, traces: seq<seq<Attempt>>, lo: nat, hi: nat)
    requires Processed(r, r', msg, maxRetries, active, traces)
    requires IdsBelow(r, lo) && AscendingFrom(Flat(traces), lo, hi)
    requires msg.eventId in r.events && r.events[msg.eventId].status == Pending
    ensures CutShort(r, r', msg.eventId) && msg.eventId in r'.events
    ensures r'.events[msg.eventId].status == Pending <==> msg.tenantId == "" || !Serviceable(ActiveEndpoints(r, msg.tenantId))
  {
    if traces == [] {
      NothingCutShort(r, msg.eventId);
    }
    if msg.tenantId != "" {
      FlatOf(active, traces, maxRetries, msg.eventId);
      hide Flat, Traced, AfterAttempts, ActiveEndpoints, LastVerdict, IdsBelow, AscendingFrom;
      AttemptsAreRecorded(r, Flat(traces), lo, hi, msg.eventId);
      assert Serviceable(ActiveEndpoints(r, msg.tenantId)) <==> exists ep <- active :: ep.urlParses;
    }
  }

  lemma NothingCutShort(r: Repo, e: EventId)
    ensures CutShort(r, r, e)
  {
    assert Concluded(r.events, e, None) == r.events;
  }

  lemma TracedIsCutShort(r: Repo, active: seq<Endpoint>, traces: seq<seq<Attempt>>, maxRetries: int, e: EventId, lo: nat, hi: nat)
    requires Traced(active, traces, maxRetries, e) && IdsBelow(r, lo) && AscendingFrom(Flat(traces), lo, hi)
    ensures CutShort(r, AfterAttempts(r, Flat(traces)), e)
  {
    FlatOf(active, traces, maxRetries, e);
    hide Flat, Traced, AfterAttempts, LastVerdict, IdsBelow, AscendingFrom;
    AttemptsAreRecorded(r, Flat(traces), lo, hi, e);
  }

  lemma CutShortKeepsWellFormed(r: Repo, r': Repo, e: EventId)
    requires CutShort(r, r', e) && WellFormed(r)
    ensures WellFormed(r')
  {
  }

  lemma StoredUnderItsId(r: Repo, e: EventId)
    requires WellFormed(r) && e in r.events
    ensures r.events[e].id == e
  {
  }

  lemma UpdateKeepsIdsBelow(r: Repo, e: EventId, status: EventStatus, next: nat)
    requires IdsBelow(r, next)
    ensures IdsBelow(UpdateEventStatus(r, e, status).0, next)
  {
  }

  lemma SameEventsCutShort(r: Repo, r1: Repo, r2: Repo, e: EventId)
    requires CutShort(r, r1, e) && r2 == r1.(attempts := r2.attempts)
    ensures CutShort(r, r2, e)
  {
  }

  /** One more endpoint has been delivered to. */
  lemma TracesGrow(r: Repo, r1: Repo, r2: Repo, active: seq<Endpoint>, traces: seq<seq<Attempt>>, trace: seq<Attempt>, maxRetries: int, e: EventId)
    requires |traces| < |active| && Traced(active[..|traces|], traces, maxRetries, e)
    requires r1 == AfterAttempts(r, Flat(traces)) && r2 == AfterAttempts(r1, trace)
    requires var ep := active[|traces|]; if ep.urlParses then RetryTrace(trace, maxRetries, e, ep.id) else trace == []
    ensures Traced(active[..|traces| + 1], traces + [trace], maxRetries, e)
    ensures r2 == AfterAttempts(r, Flat(traces + [trace]))
  {
    FlatGrows(traces, trace);
    AfterAttemptsConcat(r, Flat(traces), trace);
    hide AfterAttempts, Flat, RetryTrace;
    forall i | 0 <= i <= |traces|
      ensures (traces + [trace])[i] == (if i < |traces| then traces[i] else trace) && active[..|traces| + 1][i] == active[i]
      ensures i < |traces| ==> active[..|traces|][i] == active[i]
    {
    }
  }

  lemma WholeAttempts(trail: Trail)
    requires Whole(trail)
    ensures AttemptsOf(trail) == Flat(trail.traces)
  {
  }

  /** Nothing of the next endpoint's delivery has happened yet. */
  lemma HaltedBetween(r: Repo, trail: Trail, maxRetries: int, e: EventId)
    requires Whole(trail) && |trail.traces| < |trail.active| && Traced(trail.active[..|trail.traces|], trail.traces, maxRetries, e)
    ensures HaltedAmong(r, AfterAttempts(r, Flat(trail.traces)), e, maxRetries, trail)
  {
    var active, traces := trail.active, trail.traces;
    var r1 := AfterAttempts(r, Flat(traces));
    NothingRetried(e, active[|traces|].id, 0);
    CutOffBetween(r1, [], maxRetries, e, active[|traces|]);
    assert AfterAttempts(r1, []) == r1;
    hide Traced, CutOff, AfterAttempts;
  }

  /** The next endpoint's delivery was cut off. */
  lemma HaltedNow(r: Repo, r1: Repo, r2: Repo, e: EventId, maxRetries: int, trail: Trail, trace: seq<Attempt>, last: Option<Attempt>, sent: seq<Exchange>)
    requires |trail.traces| < |trail.active| && Traced(trail.active[..|trail.traces|], trail.traces, maxRetries, e)
    requires r1 == AfterAttempts(r, Flat(trail.traces)) && CutOff(r1, r2, trace, last, maxRetries, e, trail.active[|trail.traces|])
    ensures HaltedAmong(r, r2, e, maxRetries, trail.(partial := trace, last := last, cut := sent))
  {
    hide CutOff, Traced, AfterAttempts, Flat;
  }

  lemma NothingTraced(r: Repo, active: seq<Endpoint>, maxRetries: int, e: EventId, next: nat)
    ensures AscendingFrom(Flat([]), next, next) && Traced(active[..0], [], maxRetries, e)
    ensures AfterAttempts(r, Flat([])) == r && CutShort(r, r, e)
  {
    NothingCutShort(r, e);
  }

  lemma GivenUpIsCutShort(r: Repo, e: EventId)
    ensures CutShort(r, r, e) && CutShort(r, UpdateEventStatus(r, e, DLQ).0, e)
  {
    NothingCutShort(r, e);
    assert UpdateEventStatus(r, e, DLQ).0.events == Concluded(r.events, e, Some(DLQ));
  }

  lemma FlatGrows(traces: seq<seq<Attempt>>, trace: seq<Attempt>)
    ensures Flat(traces + [trace]) == Flat(traces) + trace
  {
    assert (traces + [trace])[..|traces|] == traces;
  }

  /** The next endpoint's attempts follow those of the trail so far. */
  lemma TrailAscends(trail: Trail, trace: seq<Attempt>, last: Option<Attempt>, sent: seq<Exchange>, lo: nat, mid: nat, hi: nat)
    requires Whole(trail) && AscendingFrom(AttemptsOf(trail), lo, mid) && AscendingFrom(trace + Listed(last), mid, hi)
    ensures AscendingFrom(AttemptsOf(trail.(partial := trace, last := last, cut := sent)), lo, hi)
    ensures last == None ==> AscendingFrom(AttemptsOf(trail.(traces := trail.traces + [trace], sent := trail.sent + [sent])), lo, hi)
  {
    WholeAttempts(trail);
    AscendsOn(Flat(trail.traces), trace + Listed(last), lo, mid, hi);
    if last == None {
      FlatGrows(trail.traces, trace);
      assert trace + Listed(last) == trace;
      WholeAttempts(trail.(traces := trail.traces + [trace], sent := trail.sent + [sent]));
    }
  }

  lemma AscendsOn(a: seq<Attempt>, b: seq<Attempt>, lo: nat, mid: nat, hi: nat)
    requires AscendingFrom(a, lo, mid) && AscendingFrom(b, mid, hi)
    ensures AscendingFrom(a + b, lo, hi)
  {
  }

  // ---------------------------------------------------------------------------------------
  // A batch of messages
  // ---------------------------------------------------------------------------------------

  /** Only events of `touched` have changed, and only to a final status; those of `done` whose
      tenant can be delivered to have one now. */
  ghost predicate Handled(r: Repo, r': Repo, touched: seq<Message>, done: seq<Message>) {
    && r' == r.(events := r'.events, attempts := r'.attempts) && r'.events.Keys == r.events.Keys
    && (forall e <- r.events :: r'.events[e] == r.events[e] ||
                                (r'.events[e] == r.events[e].(status := r'.events[e].status) && Fenced(r', e) && exists m <- touched :: m.eventId == e))
    && (forall m <- done :: m.tenantId != "" && m.eventId in r.events && Serviceable(ActiveEndpoints(r, m.tenantId)) ==> r'.events[m.eventId].status != Pending)
  }

  lemma NothingHandled(r: Repo)
    ensures Handled(r, r, [], [])
  {
  }

  lemma HandledWiden(r: Repo, r': Repo, a: seq<Message>, b: seq<Message>, done: seq<Message>)
    requires Handled(r, r', a, done) && forall m <- a :: m in b
    ensures Handled(r, r', b, done)
  {
    hide ActiveEndpoints;
  }

  lemma CutShortIsHandled(r: Repo, r': Repo, m: Message)
    requires CutShort(r, r', m.eventId)
    ensures Handled(r, r', [m], [])
  {
    assert m in [m];
  }

  lemma ProcessedIsHandled(r: Repo, r': Repo, m: Message, maxRetries: int, active: seq<Endpoint>, traces: seq<seq<Attempt>>, lo: nat, hi: nat)
    requires WellFormed(r) && IdsBelow(r, lo) && AscendingFrom(Flat(traces), lo, hi)
    requires Processed(r, r', m, maxRetries, active, traces) && CutShort(r, r', m.eventId)
    ensures Handled(r, r', [m], [m])
  {
    CutShortIsHandled(r, r', m);
    if m.tenantId != "" && m.eventId in r.events && r.events[m.eventId].status == Pending {
      hide Handled, CutShort, Flat, AscendingFrom, IdsBelow;
      ProcessingDecides(r, r', m, maxRetries, active, traces, lo, hi);
    }
    if m.eventId in r.events {
      StatusIsKnown(r, m.eventId);
    }
    hide Flat, AscendingFrom, IdsBelow, WellFormed, CutShort, ActiveEndpoints;
  }

  lemma StatusIsKnown(r: Repo, e: EventId)
    requires WellFormed(r) && e in r.events
    ensures r.events[e].status == Pending || Fenced(r, e)
  {
  }

  lemma GivenUpIsHandled(r: Repo, m: Message)
    ensures Handled(r, UpdateEventStatus(r, m.eventId, DLQ).0, [m], [m])
  {
    assert m in [m];
    hide ActiveEndpoints;
  }

  lemma HandledConcat(r: Repo, r1: Repo, r2: Repo, a: seq<Message>, b: seq<Message>, doneA: seq<Message>, doneB: seq<Message>)
    requires Handled(r, r1, a, doneA) && Handled(r1, r2, b, doneB)
    ensures Handled(r, r2, a + b, doneA + doneB)
  {
    assert forall tenantId :: ActiveEndpoints(r1, tenantId) == ActiveEndpoints(r, tenantId);
    hide ActiveEndpoints;
  }

  lemma AckNothing(q: Streams, sn: string, gn: string)
    ensures Queue.AckEvent(q, sn, gn, IdList([])) == q
  {
    assert IdList([]) == [];
    if sn in q.streams {
      var st := q.streams[sn];
      if gn in st.groups {
        assert Forget(st.groups[gn], []) == st.groups[gn];
      }
      assert AckIn(st, gn, []) == st;
    }
  }

  lemma AckConcat(q: Streams, sn: string, gn: string, a: seq<MessageId>, b: seq<MessageId>)
    ensures Queue.AckEvent(Queue.AckEvent(q, sn, gn, a), sn, gn, b) == Queue.AckEvent(q, sn, gn, a + b)
  {
    if sn in q.streams {
      var st := q.streams[sn];
      if gn in st.groups {
        assert Forget(Forget(st.groups[gn], a), b) == Forget(st.groups[gn], a + b);
      }
      assert AckIn(AckIn(st, gn, a), gn, b) == AckIn(st, gn, a + b);
    }
  }

  lemma AckOneMore(q: Streams, sn: string, gn: string, acked: seq<Message>, m: Message)
    ensures Queue.AckEvent(Queue.AckEvent(q, sn, gn, IdList(acked)), sn, gn, [m.id]) == Queue.AckEvent(q, sn, gn, IdList(acked + [m]))
  {
    AckConcat(q, sn, gn, IdList(acked), [m.id]);
    assert IdList(acked + [m]) == IdList(acked) + [m.id];
  }

  function ClaimsOf(claims: map<MessageId, nat>, id: MessageId): nat {
    if id in claims then claims[id] else 0
  }

  function Min(a: nat, b: nat): nat {
    if a <= b then a else b
  }

  /** The reclaimer has processed a message once for each of its first `max` claims, and never
      after that. */
  ghost predicate CeilingKept(claims: map<MessageId, nat>, runs: map<MessageId, nat>, max: nat) {
    forall id: MessageId :: Capped(claims, runs, max, id)
  }

  /** The first `n` messages of a batch were claimed once more, the others not yet. */
  ghost predicate ClaimedOnceMore(claims: map<MessageId, nat>, claims': map<MessageId, nat>, batch: seq<Message>, n: nat) {
    forall i | 0 <= i < |batch| :: ClaimsOf(claims', batch[i].id) == ClaimsOf(claims, batch[i].id) + if i < n then 1 else 0
  }

  lemma NothingClaimed(claims: map<MessageId, nat>, batch: seq<Message>)
    ensures ClaimedOnceMore(claims, claims, batch, 0)
  {
  }

  lemma OneMoreClaimed(claims: map<MessageId, nat>, claims1: map<MessageId, nat>, batch: seq<Message>, n: nat)
    requires n < |batch| && ClaimedOnceMore(claims, claims1, batch, n) && Distinct(IdList(batch))
    ensures ClaimedOnceMore(claims, claims1[batch[n].id := ClaimsOf(claims1, batch[n].id) + 1], batch, n + 1)
  {
    forall i, j | 0 <= i < j < |batch|
      ensures batch[i].id != batch[j].id
    {
      assert IdList(batch)[i] != IdList(batch)[j];
    }
  }

  lemma NotYetClaimed(claims: map<MessageId, nat>, claims1: map<MessageId, nat>, batch: seq<Message>, n: nat)
    requires n < |batch| && ClaimedOnceMore(claims, claims1, batch, n)
    ensures ClaimsOf(claims1, batch[n].id) == ClaimsOf(claims, batch[n].id)
  {
  }

  /** The claimed messages are distinct idle entries of the group, as many as fit the batch. */
  ghost predicate IsClaim(g: Group, minIdle: int, count: int, now: int, claimed: seq<Message>) {
    && ClaimChoice(g, minIdle, count, now, IdList(claimed))
    && (forall m <- claimed :: m.id in g.pending && g.pending[m.id].msg == m)
  }

  lemma ChosenIsClaim(g: Group, minIdle: int, count: int, now: int, claimed: seq<Message>)
    requires ClaimChoice(g, minIdle, count, now, IdList(claimed))
    requires forall k | 0 <= k < |claimed| :: claimed[k].id in g.pending && g.pending[claimed[k].id].msg == claimed[k]
    ensures IsClaim(g, minIdle, count, now, claimed) && Distinct(IdList(claimed))
  {
  }

  function AfterRecovery(q: Streams, sn: string, gn: string, claimed: seq<Message>, acked: seq<Message>, now: int): Streams {
    Queue.AckEvent(Queue.AutoClaim(q, sn, gn, IdList(claimed), "pel-auto-reclaimer", now), sn, gn, IdList(acked))
  }

  predicate Capped(claims: map<MessageId, nat>, runs: map<MessageId, nat>, max: nat, id: MessageId) {
    ClaimsOf(runs, id) == Min(ClaimsOf(claims, id), max)
  }

  lemma StillAtCeiling(claims: map<MessageId, nat>, runs: map<MessageId, nat>, max: nat, id: MessageId)
    requires CeilingKept(claims, runs, max) && ClaimsOf(claims, id) >= max
    ensures CeilingKept(claims[id := ClaimsOf(claims, id) + 1], runs, max)
  {
    var claims' := claims[id := ClaimsOf(claims, id) + 1];
    forall x: MessageId
      ensures Capped(claims', runs, max, x)
    {
      assert Capped(claims, runs, max, x);
    }
  }

  lemma RunOnceMore(claims: map<MessageId, nat>, runs: map<MessageId, nat>, max: nat, id: MessageId)
    requires CeilingKept(claims, runs, max) && ClaimsOf(claims, id) < max
    ensures CeilingKept(claims[id := ClaimsOf(claims, id) + 1], runs[id := ClaimsOf(runs, id) + 1], max)
  {
    var claims', runs' := claims[id := ClaimsOf(claims, id) + 1], runs[id := ClaimsOf(runs, id) + 1];
    forall x: MessageId
      ensures Capped(claims', runs', max, x)
    {
      assert Capped(claims, runs, max, x);
    }
  }

  /** What was sent for the message: the stored event, or what the message says if none is stored. */
  ghost predicate SentFor(mac: Mac, r: Repo, msg: Message, trail: Trail) {
    if msg.eventId in r.events then Sending(mac, trail, msg.eventId, r.events[msg.eventId].payload)
    else Sending(mac, trail, msg.eventId, msg.payload)
  }

  function ExchangesIn(works: seq<Work>): seq<Exchange> {
    if works == [] then [] else ExchangesIn(works[..|works| - 1]) + ExchangesOf(works[|works| - 1].trail)
  }

  /** What happened to one message of a batch: the work on it with its range of attempt IDs, or
      giving it up past the ceiling; the repository afterwards; and whether it was acknowledged
      and a cancellation had arrived by then. */
  datatype Work = Work(trail: Trail, lo: nat, hi: nat, after: Repo, givenUp: bool, acked: bool, cancelled: bool)

  function RepoAfter(r: Repo, works: seq<Work>): Repo {
    if works == [] then r else works[|works| - 1].after
  }

  ghost predicate IsWork(mac: Mac, r: Repo, msg: Message, w: Work, maxRetries: int) {
    && (w.acked ==> !w.cancelled) && SentFor(mac, r, msg, w.trail)
    && if w.givenUp then w.trail == NO_TRAIL && (w.after == UpdateEventStatus(r, msg.eventId, DLQ).0 || (w.cancelled && w.after == r))
       else
         && IdsBelow(r, w.lo) && AscendingFrom(AttemptsOf(w.trail), w.lo, w.hi)
         && WorkedOn(r, w.after, msg, maxRetries, w.trail, w.cancelled)
  }

  /** The first messages of the batch were worked on one after the other, until a cancellation. */
  ghost predicate WorkedThrough(mac: Mac, r: Repo, batch: seq<Message>, works: seq<Work>, maxRetries: int) {
    && |works| <= |batch|
    && (forall i | 0 <= i < |works| :: IsWork(mac, RepoAfter(r, works[..i]), batch[i], works[i], maxRetries))
    && (forall i | 0 <= i < |works| - 1 :: !works[i].cancelled)
  }

  predicate EndsCancelled(works: seq<Work>) {
    works != [] && works[|works| - 1].cancelled
  }

  /** The messages of the batch that were acknowledged. */
  function AckedOf(batch: seq<Message>, works: seq<Work>): seq<Message>
    requires |works| <= |batch|
    decreases |works|
  {
    if works == [] then []
    else
      var n := |works| - 1;
      AckedOf(batch, works[..n]) + if works[n].acked then [batch[n]] else []
  }

  lemma NothingWorked(mac: Mac, r: Repo, batch: seq<Message>, maxRetries: int)
    ensures WorkedThrough(mac, r, batch, [], maxRetries) && RepoAfter(r, []) == r && AckedOf(batch, []) == [] && !EndsCancelled([]) && ExchangesIn([]) == []
  {
  }

  lemma OneMoreWorked(mac: Mac, r: Repo, batch: seq<Message>, works: seq<Work>, w: Work, maxRetries: int)
    requires WorkedThrough(mac, r, batch, works, maxRetries) && |works| < |batch| && !EndsCancelled(works)
    requires IsWork(mac, RepoAfter(r, works), batch[|works|], w, maxRetries)
    ensures WorkedThrough(mac, r, batch, works + [w], maxRetries) && RepoAfter(r, works + [w]) == w.after
    ensures AckedOf(batch, works + [w]) == AckedOf(batch, works) + (if w.acked then [batch[|works|]] else [])
    ensures EndsCancelled(works + [w]) == w.cancelled
    ensures ExchangesIn(works + [w]) == ExchangesIn(works) + ExchangesOf(w.trail)
  {
    hide IsWork;
    var more := works + [w];
    assert forall i | 0 <= i <= |works| :: more[..i] == works[..i];
    assert works[..|works|] == works;
  }

  /** The state of a batch after its first `i` messages: which are `done` and `acked`, and the work
      on them, whose last step a cancellation may have cut short. */
  ghost predicate BatchAt(mac: Mac, r: Repo, r': Repo, batch: seq<Message>, i: nat, done: seq<Message>, acked: seq<Message>, works: seq<Work>,
                          cancelled: bool, flaky: bool, maxRetries: int) {
    && i == |works| <= |batch|
    && Handled(r, r', batch[..i], done) && (forall m <- acked :: m in done)
    && (!cancelled ==> done == batch[..i] && (flaky || acked == batch[..i]))
    && WorkedThrough(mac, r, batch, works, maxRetries) && r' == RepoAfter(r, works) && acked == AckedOf(batch, works)
    && (EndsCancelled(works) ==> cancelled)
  }

  lemma BatchBegins(mac: Mac, r: Repo, batch: seq<Message>, cancelled: bool, flaky: bool, maxRetries: int)
    ensures ExchangesIn([]) == []
    ensures BatchAt(mac, r, r, batch, 0, [], [], [], cancelled, flaky, maxRetries)
  {
    NothingHandled(r);
    NothingWorked(mac, r, batch, maxRetries);
  }

  lemma BatchGoesOn(mac: Mac, r: Repo, r1: Repo, batch: seq<Message>, i: nat, done: seq<Message>, acked: seq<Message>, works: seq<Work>,
                    w: Work, flaky: bool, maxRetries: int)
    requires BatchAt(mac, r, r1, batch, i, done, acked, works, false, flaky, maxRetries) && i < |batch|
    requires IsWork(mac, r1, batch[i], w, maxRetries) && (!w.cancelled && !flaky ==> w.acked)
    requires Handled(r1, w.after, [batch[i]], if w.cancelled then [] else [batch[i]])
    ensures BatchAt(mac, r, w.after, batch, i + 1, done + if w.cancelled then [] else [batch[i]], if w.acked then acked + [batch[i]] else acked,
                    works + [w], w.cancelled, flaky, maxRetries)
    ensures ExchangesIn(works + [w]) == ExchangesIn(works) + ExchangesOf(w.trail)
  {
    hide Handled, WorkedThrough, IsWork, WorkedOn;
    assert !EndsCancelled(works);
    OneMoreWorked(mac, r, batch, works, w, maxRetries);
    HandledConcat(r, r1, w.after, batch[..i], [batch[i]], done, if w.cancelled then [] else [batch[i]]);
    assert batch[..i + 1] == batch[..i] + [batch[i]];
    assert w.acked ==> !w.cancelled by { WorkIsAcked(mac, r1, batch[i], w, maxRetries); }
  }

  lemma WorkIsAcked(mac: Mac, r: Repo, msg: Message, w: Work, maxRetries: int)
    requires IsWork(mac, r, msg, w, maxRetries)
    ensures w.acked ==> !w.cancelled
  {
    hide WorkedOn, UpdateEventStatus;
  }

  lemma BatchStops(mac: Mac, r: Repo, r': Repo, batch: seq<Message>, i: nat, done: seq<Message>, acked: seq<Message>, works: seq<Work>,
                   flaky: bool, maxRetries: int)
    requires BatchAt(mac, r, r', batch, i, done, acked, works, false, flaky, maxRetries)
    ensures BatchAt(mac, r, r', batch, i, done, acked, works, true, flaky, maxRetries)
  {
  }

  /** What holds of a batch that was left here. */
  lemma BatchEnds(mac: Mac, r: Repo, r': Repo, batch: seq<Message>, i: nat, done: seq<Message>, acked: seq<Message>, works: seq<Work>,
                  cancelled: bool, flaky: bool, maxRetries: int)
    requires BatchAt(mac, r, r', batch, i, done, acked, works, cancelled, flaky, maxRetries)
    ensures i == |works| <= |batch| && Handled(r, r', batch, done) && (forall m <- acked :: m in done)
    ensures !cancelled && i == |batch| ==> done == batch && (flaky || acked == batch)
    ensures WorkedThrough(mac, r, batch, works, maxRetries) && r' == RepoAfter(r, works) && acked == AckedOf(batch, works)
    ensures EndsCancelled(works) ==> cancelled
  {
    hide WorkedThrough;
    HandledWiden(r, r', batch[..i], batch, done);
    assert batch[..|batch|] == batch;
  }

  const MILLISECOND := 1_000_000

  class WorkerPool {
    const queue: MemoryStreamQueue
    const repo: MemoryRepository
    const dispatcher: Dispatcher
    const streamName: string
    const groupName: string
    const numWorkers: nat
    const batchSize: nat
    const pollInterval: nat
    const claimInterval: nat
    const minIdle: int
    const maxClaimAttempts: nat
    /** Whether the broker may fail to take an acknowledgement. */
    const flaky: bool
    var claimAttempts: map<MessageId, nat>
    /** How often the reclaimer has processed each message. */
    ghost var runs: map<MessageId, nat>

    ghost predicate Valid()
      reads this, queue, repo, dispatcher, dispatcher.repo, dispatcher.uuids
    {
      && queue.Valid() && dispatcher.repo == repo && dispatcher.FreshIds()
      && streamName != "" && groupName != "" && batchSize > 0 && maxClaimAttempts > 0
      && WellFormed(repo.View()) && CeilingKept(claimAttempts, runs, maxClaimAttempts)
    }

    constructor (queue: MemoryStreamQueue, repo: MemoryRepository, dispatcher: Dispatcher,
                 numWorkers: int, streamName: string, groupName: string, batchSize: int,
                 pollInterval: int, minIdle: int, claimInterval: int, maxClaimAttempts: int, flaky: bool)
      requires queue.Valid() && dispatcher.repo == repo && dispatcher.FreshIds() && WellFormed(repo.View())
      ensures Valid() && fresh(this) && claimAttempts == map[]
      ensures this.queue == queue && this.repo == repo && this.dispatcher == dispatcher && this.flaky == flaky
      ensures this.streamName == if streamName == "" then "stream:events:pending" else streamName
      ensures this.groupName == if groupName == "" then "worker-group" else groupName
      ensures this.numWorkers == (if numWorkers <= 0 then 10 else numWorkers) && this.batchSize == if batchSize <= 0 then 10 else batchSize
      ensures this.pollInterval == if pollInterval <= 0 then 100_000_000 else pollInterval
      ensures this.claimInterval == if claimInterval <= 0 then 5_000_000_000 else claimInterval
      ensures this.maxClaimAttempts == if maxClaimAttempts <= 0 then 5 else maxClaimAttempts
      ensures this.minIdle == if minIdle <= 0 then 10_000_000_000 else minIdle
    {
      this.queue, this.repo, this.dispatcher, this.flaky := queue, repo, dispatcher, flaky;
      this.streamName := if streamName == "" then "stream:events:pending" else streamName;
      this.groupName := if groupName == "" then "worker-group" else groupName;
      this.numWorkers := if numWorkers <= 0 then 10 else numWorkers;
      this.batchSize := if batchSize <= 0 then 10 else batchSize;
      this.pollInterval := if pollInterval <= 0 then 100 * MILLISECOND else pollInterval;
      this.claimInterval := if claimInterval <= 0 then 5 * Retry.SECOND else claimInterval;
      this.minIdle := if minIdle <= 0 then 10 * Retry.SECOND else minIdle;
      this.maxClaimAttempts := if maxClaimAttempts <= 0 then 5 else maxClaimAttempts;
      claimAttempts, runs := map[], map[];
    }

    /** The tenant's active endpoints, in the order of the lookup. */
    method GetActiveEndpoints(ctx: Context, tenantId: string) returns (res: Outcome<seq<Endpoint>>)
      modifies ctx
      ensures (old(ctx.cancelled) ==> ctx.cancelled) && (res.Err? <==> ctx.cancelled)
      ensures res.Ok? ==> Lists(repo.View(), tenantId, res.value)
      ensures res.Ok? ==> forall ep :: ep in res.value <==> ep in repo.endpoints.Values && ep.tenantId == tenantId && ep.isActive
    {
      hide Registrations;
      var endpoints := repo.GetEndpointsByTenant(ctx, tenantId);
      if endpoints.Err? {
        return endpoints;
      }
      var activeEndpoints := [];
      for i := 0 to |endpoints.value|
        invariant forall ep :: ep in activeEndpoints <==> ep in endpoints.value[..i] && ep.isActive
        invariant forall ep <- activeEndpoints :: multiset(activeEndpoints)[ep] == multiset(endpoints.value[..i])[ep]
      {
        var ep := endpoints.value[i];
        assert endpoints.value[..i + 1] == endpoints.value[..i] + [ep];
        if ep.isActive {
          activeEndpoints := activeEndpoints + [ep];
        }
      }
      assert endpoints.value[..|endpoints.value|] == endpoints.value;
      return Ok(activeEndpoints);
    }

    /** Fence, endpoint lookup, then delivery of the stored event, or without one of what the
        message says, to each active endpoint in turn. */
    method ProcessMessage(ctx: Context, msg: Message) returns (ghost trail: Trail)
      requires Valid()
      modifies repo`attempts, repo`events, dispatcher.uuids, dispatcher.client, dispatcher.random, ctx
      ensures Valid() && (old(ctx.cancelled) ==> ctx.cancelled)
      ensures AscendingFrom(AttemptsOf(trail), old(dispatcher.uuids.next), dispatcher.uuids.next)
      ensures WorkedOn(old(repo.View()), repo.View(), msg, dispatcher.policy.maxRetries, trail, ctx.cancelled)
      ensures CutShort(old(repo.View()), repo.View(), msg.eventId)
      ensures dispatcher.client.exchanges == old(dispatcher.client.exchanges) + ExchangesOf(trail)
      ensures if msg.eventId in old(repo.events) then Sending(dispatcher.mac, trail, msg.eventId, old(repo.events)[msg.eventId].payload)
              else Sending(dispatcher.mac, trail, msg.eventId, msg.payload)
    {
      hide CutShort, AscendingFrom, Traced, StreamsOk, CeilingKept, IdsBelow, Lists, WellFormed, HaltedAmong, Sending, ExchangesOf;
      NothingSent(dispatcher.mac, [], msg.eventId, msg.payload);
      if msg.eventId in repo.events {
        NothingSent(dispatcher.mac, [], msg.eventId, repo.events[msg.eventId].payload);
      }
      trail := NO_TRAIL;
      ghost var r := repo.View();
      NothingTraced(r, [], dispatcher.policy.maxRetries, msg.eventId, dispatcher.uuids.next);
      WholeAttempts(NO_TRAIL);
      if msg.tenantId == "" {
        return;
      }
      var latest := repo.GetEvent(ctx, msg.eventId);
      if latest.Ok? && (latest.value.status == Delivered || latest.value.status == DLQ) {
        return;
      }
      var endpoints := GetActiveEndpoints(ctx, msg.tenantId);
      if endpoints.Err? {
        return;
      }
      if |endpoints.value| == 0 {
        assert endpoints.value[..0] == endpoints.value == [];
        return;
      }
      var found := repo.GetEvent(ctx, msg.eventId);
      // Only the ID and the payload of a rebuilt event are read.
      if found.Ok? {
        StoredUnderItsId(repo.View(), msg.eventId);
      }
      var event := if found.Ok? then found.value else Event(msg.eventId, msg.tenantId, msg.eventType, "", msg.payload, Pending);
      if msg.eventId in repo.events {
        NothingSent(dispatcher.mac, endpoints.value, msg.eventId, repo.events[msg.eventId].payload);
      }
      trail := DeliverToAll(ctx, endpoints.value, event);
    }

    /** The endpoint loop. */
    method DeliverToAll(ctx: Context, activeEndpoints: seq<Endpoint>, event: Event) returns (ghost trail: Trail)
      requires Valid() && activeEndpoints != []
      modifies repo`attempts, repo`events, dispatcher.uuids, dispatcher.client, dispatcher.random, ctx
      ensures Valid() && (old(ctx.cancelled) ==> ctx.cancelled) && trail.active == activeEndpoints
      ensures AscendingFrom(AttemptsOf(trail), old(dispatcher.uuids.next), dispatcher.uuids.next)
      ensures !ctx.cancelled ==>
                && Whole(trail) && Traced(activeEndpoints, trail.traces, dispatcher.policy.maxRetries, event.id)
                && repo.View() == AfterAttempts(old(repo.View()), Flat(trail.traces))
      ensures ctx.cancelled ==> HaltedAmong(old(repo.View()), repo.View(), event.id, dispatcher.policy.maxRetries, trail)
      ensures CutShort(old(repo.View()), repo.View(), event.id)
      ensures dispatcher.client.exchanges == old(dispatcher.client.exchanges) + ExchangesOf(trail)
      ensures Sending(dispatcher.mac, trail, event.id, event.payload)
      ensures old(ctx.cancelled) ==> trail == NO_TRAIL.(active := activeEndpoints)
    {
      hide Sending, ExchangesOf, SentTo, HaltedAmong, Total, DrawsFor;
      hide CutShort, Traced, Flat, AfterAttempts, IdsBelow, RetryTrace, Retry.SumOfCaps, AscendingFrom, CeilingKept, StreamsOk, WellFormed, CutOff, AttemptsOf;
      ghost var r, n0, maxRetries := repo.View(), dispatcher.uuids.next, dispatcher.policy.maxRetries;
      trail := NO_TRAIL.(active := activeEndpoints);
      NothingSent(dispatcher.mac, activeEndpoints, event.id, event.payload);
      NothingTraced(r, activeEndpoints, maxRetries, event.id, n0);
      WholeAttempts(trail);
      HaltedBetween(r, trail, maxRetries, event.id);
      for i := 0 to |activeEndpoints|
        invariant Valid() && trail.active == activeEndpoints && (old(ctx.cancelled) ==> ctx.cancelled)
        invariant AscendingFrom(AttemptsOf(trail), n0, dispatcher.uuids.next)
        invariant !ctx.cancelled ==>
            && Whole(trail) && |trail.traces| == i && Traced(activeEndpoints[..i], trail.traces, maxRetries, event.id)
            && repo.View() == AfterAttempts(r, Flat(trail.traces))
        invariant ctx.cancelled ==> HaltedAmong(r, repo.View(), event.id, maxRetries, trail)
        invariant dispatcher.client.exchanges == old(dispatcher.client.exchanges) + ExchangesOf(trail)
        invariant Sending(dispatcher.mac, trail, event.id, event.payload)
        invariant old(ctx.cancelled) ==> i == 0 && trail == NO_TRAIL.(active := activeEndpoints)
        invariant CutShort(r, repo.View(), event.id)
      {
        if !ctx.cancelled {
          HaltedBetween(r, trail, maxRetries, event.id);
        }
        var stop := ctx.Err();
        if stop {
          return;
        }
        ghost var r1, n1 := repo.View(), dispatcher.uuids.next;
        ghost var trace, last, slept, sent := dispatcher.DeliverTo(ctx, activeEndpoints[i], event);
        TrailAscends(trail, trace, last, sent, n0, n1, dispatcher.uuids.next);
        if ctx.cancelled {
          SameEventsCutShort(r, r1, repo.View(), event.id);
          HaltedNow(r, r1, repo.View(), event.id, maxRetries, trail, trace, last, sent);
          SendingEnds(dispatcher.mac, trail, event.id, event.payload, trace, last, sent);
          trail := trail.(partial := trace, last := last, cut := sent);
        } else {
          TracesGrow(r, r1, repo.View(), activeEndpoints, trail.traces, trace, maxRetries, event.id);
          assert trace + Listed(None) == trace;
          SendingGrows(dispatcher.mac, trail, event.id, event.payload, trace, sent);
          trail := trail.(traces := trail.traces + [trace], sent := trail.sent + [sent]);
          WholeAttempts(trail);
          TracedIsCutShort(r, activeEndpoints[..i + 1], trail.traces, maxRetries, event.id, n0, dispatcher.uuids.next);
        }
        CutShortKeepsWellFormed(r, repo.View(), event.id);
      }
      assert activeEndpoints[..|activeEndpoints|] == activeEndpoints;
    }

    /** `AckEvent`; a flaky broker may fail it. */
    method Ack(ctx: Context, id: MessageId) returns (acked: bool)
      requires Valid()
      modifies queue, ctx
      ensures Valid() && (old(ctx.cancelled) ==> ctx.cancelled)
      ensures queue.View() == if acked then Queue.AckEvent(old(queue.View()), streamName, groupName, [id]) else old(queue.View())
      ensures acked ==> !ctx.cancelled
      ensures !ctx.cancelled && !flaky ==> acked
    {
      if flaky {
        if * {
          return false;
        }
      }
      var res := queue.AckEvent(ctx, streamName, groupName, [id]);
      return res.Ok?;
    }

    /** The body of the worker's loop over a batch. */
    method WorkOne(ctx: Context, msg: Message) returns (acked: bool, ghost trail: Trail)
      requires Valid()
      modifies repo`attempts, repo`events, dispatcher.uuids, dispatcher.client, dispatcher.random, queue, ctx
      ensures Valid() && (old(ctx.cancelled) ==> ctx.cancelled)
      ensures queue.View() == if acked then Queue.AckEvent(old(queue.View()), streamName, groupName, [msg.id]) else old(queue.View())
      ensures acked ==> !ctx.cancelled
      ensures !ctx.cancelled && !flaky ==> acked
      ensures AscendingFrom(AttemptsOf(trail), old(dispatcher.uuids.next), dispatcher.uuids.next)
      ensures WorkedOn(old(repo.View()), repo.View(), msg, dispatcher.policy.maxRetries, trail, ctx.cancelled)
      ensures CutShort(old(repo.View()), repo.View(), msg.eventId)
      ensures Handled(old(repo.View()), repo.View(), [msg], if ctx.cancelled then [] else [msg])
      ensures dispatcher.client.exchanges == old(dispatcher.client.exchanges) + ExchangesOf(trail)
      ensures SentFor(dispatcher.mac, old(repo.View()), msg, trail)
    {
      hide Handled, Processed, Halted, CutShort, AscendingFrom, Flat, AttemptsOf, CeilingKept, IdsBelow, StreamsOk, WellFormed, Sending, ExchangesOf;
      ghost var r, n0 := repo.View(), dispatcher.uuids.next;
      trail := ProcessMessage(ctx, msg);
      CutShortIsHandled(r, repo.View(), msg);
      if !ctx.cancelled {
        WholeAttempts(trail);
        ProcessedIsHandled(r, repo.View(), msg, dispatcher.policy.maxRetries, trail.active, trail.traces, n0, dispatcher.uuids.next);
      }
      acked := Ack(ctx, msg.id);
    }

    /** The reclaimer's step for one claimed message: process it, or past the ceiling give its
        event up as a poison pill. */
    method RecoverOne(ctx: Context, msg: Message) returns (acked: bool, ghost work: Work)
      requires Valid()
      modifies this, repo`attempts, repo`events, dispatcher.uuids, dispatcher.client, dispatcher.random, queue, ctx
      ensures Valid() && (old(ctx.cancelled) ==> ctx.cancelled)
      ensures claimAttempts == old(claimAttempts)[msg.id := ClaimsOf(old(claimAttempts), msg.id) + 1]
      ensures queue.View() == if acked then Queue.AckEvent(old(queue.View()), streamName, groupName, [msg.id]) else old(queue.View())
      ensures acked ==> !ctx.cancelled
      ensures !ctx.cancelled && !flaky ==> acked
      ensures AscendingFrom(AttemptsOf(work.trail), old(dispatcher.uuids.next), dispatcher.uuids.next)
      ensures if claimAttempts[msg.id] > maxClaimAttempts
              then
                && work.trail == NO_TRAIL
                && (repo.View() == UpdateEventStatus(old(repo.View()), msg.eventId, DLQ).0 || (ctx.cancelled && repo.View() == old(repo.View())))
              else WorkedOn(old(repo.View()), repo.View(), msg, dispatcher.policy.maxRetries, work.trail, ctx.cancelled)
      ensures CutShort(old(repo.View()), repo.View(), msg.eventId)
      ensures IsWork(dispatcher.mac, old(repo.View()), msg, work, dispatcher.policy.maxRetries)
      ensures work.after == repo.View() && work.acked == acked && work.cancelled == ctx.cancelled
      ensures work.givenUp <==> claimAttempts[msg.id] > maxClaimAttempts
      ensures Handled(old(repo.View()), repo.View(), [msg], if ctx.cancelled then [] else [msg])
      ensures dispatcher.client.exchanges == old(dispatcher.client.exchanges) + ExchangesOf(work.trail)
      ensures SentFor(dispatcher.mac, old(repo.View()), msg, work.trail)
    {
      hide Handled, Processed, Halted, CutShort, AscendingFrom, Flat, AttemptsOf, IdsBelow, StreamsOk, CeilingKept,
        WellFormed, UpdateEventStatus, Sending, ExchangesOf;
      ghost var trail, lo := NO_TRAIL, dispatcher.uuids.next;
      NothingSent(dispatcher.mac, [], msg.eventId, if msg.eventId in repo.events then repo.events[msg.eventId].payload else msg.payload);
      WholeAttempts(trail);
      NothingTraced(repo.View(), [], dispatcher.policy.maxRetries, msg.eventId, dispatcher.uuids.next);
      ghost var claims, ran := claimAttempts, runs;
      claimAttempts := claimAttempts[msg.id := ClaimsOf(claimAttempts, msg.id) + 1];
      var count := claimAttempts[msg.id];
      if count > maxClaimAttempts {
        StillAtCeiling(claims, ran, maxClaimAttempts, msg.id);
        GivenUpIsCutShort(repo.View(), msg.eventId);
        GivenUpIsHandled(repo.View(), msg);
        CutShortIsHandled(repo.View(), repo.View(), msg);
        CutShortIsHandled(repo.View(), UpdateEventStatus(repo.View(), msg.eventId, DLQ).0, msg);
        CutShortKeepsWellFormed(repo.View(), UpdateEventStatus(repo.View(), msg.eventId, DLQ).0, msg.eventId);
        UpdateKeepsIdsBelow(repo.View(), msg.eventId, DLQ, dispatcher.uuids.next);
        var updated := repo.UpdateEventStatus(ctx, msg.eventId, DLQ);
        acked := Ack(ctx, msg.id);
        work := Work(NO_TRAIL, lo, lo, repo.View(), true, acked, ctx.cancelled);
        return;
      }
      runs := runs[msg.id := ClaimsOf(runs, msg.id) + 1];
      RunOnceMore(claims, ran, maxClaimAttempts, msg.id);
      acked, trail := WorkOne(ctx, msg);
      work := Work(trail, lo, dispatcher.uuids.next, repo.View(), false, acked, ctx.cancelled);
    }

    /** One turn of a worker: read a batch, waiting for it up to the poll interval, then process and
        acknowledge message by message. Only messages processed to the end without a
        cancellation are acknowledged. `seen` and `at` are the queue and the time of the read's
        last pass; if the queue is not `shared`, nobody else uses it during the wait. */
    method WorkBatch(ctx: Context, clock: Clock, consumer: string, shared: bool)
      returns (stop: bool, messages: seq<Message>, ghost done: seq<Message>, ghost acked: seq<Message>,
               ghost works: seq<Work>, ghost seen: Streams, ghost at: int)
      requires Valid()
      modifies repo`attempts, repo`events, dispatcher.uuids, dispatcher.client, dispatcher.random, queue, ctx, clock
      ensures Valid() && (old(ctx.cancelled) ==> ctx.cancelled) && (!ctx.cancelled ==> !stop)
      ensures Moved(old(queue.View()), seen) && (!shared ==> seen == old(queue.View()))
      ensures CursorOk(StreamOf(seen, streamName).messages, GroupOf(StreamOf(seen, streamName), groupName))
      ensures var (q1, batch) := Queue.ReadEvents(seen, streamName, groupName, consumer, batchSize, at);
              if messages == [] && stop then Moved(old(queue.View()), queue.View())
              else
                && messages == batch
                && if batch == [] && shared then Moved(q1, queue.View())
                   else queue.View() == Queue.AckEvent(q1, streamName, groupName, IdList(acked))
      ensures messages == [] && !stop && pollInterval > 0 ==> clock.time > old(clock.time) + pollInterval
      ensures Handled(old(repo.View()), repo.View(), messages, done)
      ensures forall m <- acked :: m in done
      ensures !ctx.cancelled ==> done == messages && (flaky || acked == messages)
      ensures WorkedThrough(dispatcher.mac, old(repo.View()), messages, works, dispatcher.policy.maxRetries)
      ensures repo.View() == RepoAfter(old(repo.View()), works) && acked == AckedOf(messages, works)
      ensures dispatcher.client.exchanges == old(dispatcher.client.exchanges) + ExchangesIn(works)
      ensures (forall w <- works :: !w.givenUp) && (EndsCancelled(works) ==> ctx.cancelled) && (!stop ==> |works| == |messages|)
    {
      hide Handled, Processed, Halted, CutShort, AscendingFrom, Flat, AttemptsOf, CeilingKept, IdsBelow, StreamsOk, Moved,
        WellFormed, Queue.ReadEvents, Queue.AckEvent, IdList, WorkedOn, WorkedThrough, AckedOf, RepoAfter, EndsCancelled, BatchAt, SentFor, ExchangesIn, ExchangesOf;
      ghost var r, maxRetries := repo.View(), dispatcher.policy.maxRetries;
      stop, messages, done, acked, works := false, [], [], [], [];
      BatchBegins(dispatcher.mac, r, [], ctx.cancelled, flaky, maxRetries);
      BatchEnds(dispatcher.mac, r, r, [], 0, [], [], [], ctx.cancelled, flaky, maxRetries);
      var read;
      read, seen, at := queue.ReadEvents(ctx, clock, streamName, groupName, consumer, batchSize, pollInterval, shared);
      if read.Err? {
        stop := true;
        return;
      }
      ghost var q1, readAt := queue.View(), clock.time;
      AckNothing(q1, streamName, groupName);
      messages := read.value;
      BatchBegins(dispatcher.mac, r, messages, ctx.cancelled, flaky, maxRetries);
      for i := 0 to |messages|
        invariant Valid() && (old(ctx.cancelled) ==> ctx.cancelled)
        invariant queue.View() == Queue.AckEvent(q1, streamName, groupName, IdList(acked))
        invariant clock.time == readAt
        invariant BatchAt(dispatcher.mac, r, repo.View(), messages, i, done, acked, works, ctx.cancelled, flaky, maxRetries)
        invariant forall w <- works :: !w.givenUp
        invariant dispatcher.client.exchanges == old(dispatcher.client.exchanges) + ExchangesIn(works)
      {
        if !ctx.cancelled {
          BatchStops(dispatcher.mac, r, repo.View(), messages, i, done, acked, works, flaky, maxRetries);
        }
        stop := ctx.Err();
        if stop {
          BatchEnds(dispatcher.mac, r, repo.View(), messages, i, done, acked, works, true, flaky, maxRetries);
          return;
        }
        ghost var r1, lo := repo.View(), dispatcher.uuids.next;
        var ok; ghost var trail;
        ok, trail := WorkOne(ctx, messages[i]);
        ghost var work := Work(trail, lo, dispatcher.uuids.next, repo.View(), false, ok, ctx.cancelled);
        BatchGoesOn(dispatcher.mac, r, r1, messages, i, done, acked, works, work, flaky, maxRetries);
        AckOneMore(q1, streamName, groupName, acked, messages[i]);
        works := works + [work];
        done := done + if ctx.cancelled then [] else [messages[i]];
        acked := if ok then acked + [messages[i]] else acked;
      }
      BatchEnds(dispatcher.mac, r, repo.View(), messages, |messages|, done, acked, works, ctx.cancelled, flaky, maxRetries);
    }

    /** One tick of the reclaimer: claim a batch of idle entries, then recover each. The queue's
        claim always starts over, so a tick claims once. */
    method RecoverPass(ctx: Context, now: int)
      returns (stop: bool, claimed: seq<Message>, ghost done: seq<Message>, ghost acked: seq<Message>, ghost works: seq<Work>)
      requires Valid()
      modifies this, repo`attempts, repo`events, dispatcher.uuids, dispatcher.client, dispatcher.random, queue, ctx
      ensures Valid() && (old(ctx.cancelled) ==> ctx.cancelled) && (!ctx.cancelled ==> !stop)
      ensures if stop && claimed == [] then queue.View() == old(queue.View()) else
              && IsClaim(GroupOf(StreamOf(old(queue.View()), streamName), groupName), minIdle, batchSize, now, claimed)
              && queue.View() == AfterRecovery(old(queue.View()), streamName, groupName, claimed, acked, now)
      ensures Handled(old(repo.View()), repo.View(), claimed, done)
      ensures forall m <- acked :: m in done
      ensures !ctx.cancelled ==> done == claimed && (flaky || acked == claimed)
      ensures !ctx.cancelled ==> ClaimedOnceMore(old(claimAttempts), claimAttempts, claimed, |claimed|)
      ensures WorkedThrough(dispatcher.mac, old(repo.View()), claimed, works, dispatcher.policy.maxRetries)
      ensures repo.View() == RepoAfter(old(repo.View()), works) && acked == AckedOf(claimed, works)
      ensures dispatcher.client.exchanges == old(dispatcher.client.exchanges) + ExchangesIn(works)
      ensures forall i | 0 <= i < |works| :: works[i].givenUp <==> ClaimsOf(old(claimAttempts), claimed[i].id) >= maxClaimAttempts
      ensures (EndsCancelled(works) ==> ctx.cancelled) && (!stop ==> |works| == |claimed|)
    {
      hide Handled, Processed, Halted, CutShort, AscendingFrom, Flat, AttemptsOf, CeilingKept, IdsBelow, StreamsOk,
        WellFormed, Queue.AutoClaim, Queue.AckEvent, IdList, ClaimedOnceMore, ClaimChoice, WorkedOn, AfterAttempts,
        WorkedThrough, AckedOf, RepoAfter, EndsCancelled, UpdateEventStatus, BatchAt, ClaimsOf, Distinct, IsClaim, SentFor, ExchangesIn, ExchangesOf, IsWork;
      ghost var r, claims, maxRetries := repo.View(), claimAttempts, dispatcher.policy.maxRetries;
      stop, claimed, done, acked, works := false, [], [], [], [];
      BatchBegins(dispatcher.mac, r, [], ctx.cancelled, flaky, maxRetries);
      BatchEnds(dispatcher.mac, r, r, [], 0, [], [], [], ctx.cancelled, flaky, maxRetries);
      var res := queue.AutoClaim(ctx, streamName, groupName, "pel-auto-reclaimer", minIdle, batchSize, now);
      if res.Err? {
        stop := true;
        return;
      }
      ghost var q1 := queue.View();
      AckNothing(q1, streamName, groupName);
      claimed := res.value;
      BatchBegins(dispatcher.mac, r, claimed, ctx.cancelled, flaky, maxRetries);
      ChosenIsClaim(GroupOf(StreamOf(old(queue.View()), streamName), groupName), minIdle, batchSize, now, claimed);
      NothingClaimed(claims, claimed);
      for i := 0 to |claimed|
        invariant Valid()
        invariant queue.View() == Queue.AckEvent(q1, streamName, groupName, IdList(acked))
        invariant BatchAt(dispatcher.mac, r, repo.View(), claimed, i, done, acked, works, ctx.cancelled, flaky, maxRetries)
        invariant ClaimedOnceMore(claims, claimAttempts, claimed, i) && |works| == i
        invariant dispatcher.client.exchanges == old(dispatcher.client.exchanges) + ExchangesIn(works)
        invariant forall j | 0 <= j < i :: works[j].givenUp <==> ClaimsOf(claims, claimed[j].id) >= maxClaimAttempts
      {
        if !ctx.cancelled {
          BatchStops(dispatcher.mac, r, repo.View(), claimed, i, done, acked, works, flaky, maxRetries);
        }
        stop := ctx.Err();
        if stop {
          BatchEnds(dispatcher.mac, r, repo.View(), claimed, i, done, acked, works, true, flaky, maxRetries);
          return;
        }
        ghost var r1 := repo.View();
        NotYetClaimed(claims, claimAttempts, claimed, i);
        OneMoreClaimed(claims, claimAttempts, claimed, i);
        var ok; ghost var work;
        ok, work := RecoverOne(ctx, claimed[i]);
        BatchGoesOn(dispatcher.mac, r, r1, claimed, i, done, acked, works, work, flaky, maxRetries);
        AckOneMore(q1, streamName, groupName, acked, claimed[i]);
        works := works + [work];
        done := done + if ctx.cancelled then [] else [claimed[i]];
        acked := if ok then acked + [claimed[i]] else acked;
      }
      BatchEnds(dispatcher.mac, r, repo.View(), claimed, |claimed|, done, acked, works, ctx.cancelled, flaky, maxRetries);
    }
  }
}
