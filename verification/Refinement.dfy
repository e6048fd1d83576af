/** The pool's methods and the pipeline's steps: what a worker does with a message, and the
    reclaimer past the ceiling, is a run of one consumer of the state machine. */
module Refinement {
  import opened Domain
  import opened Storage
  import opened Queue
  import opened Delivery
  import opened Dispatchers
  import opened WorkerPools
  import opened Pipeline
  import opened PipelineSteps

  /** The system with another consumer `c` and another repository. */
  function Shape(s: System, c: nat, con: Consumer, repo: Repo): System {
    SetConsumer(s, c, con).(repo := repo)
  }

  lemma ShapeTwice(s: System, c: nat, con: Consumer, repo: Repo, con': Consumer, repo': Repo)
    ensures Shape(Shape(s, c, con, repo), c, con', repo') == Shape(s, c, con', repo')
    ensures ConsumerOf(Shape(s, c, con, repo), c) == con && Shape(s, c, con, repo).repo == repo
  {
    assert s.consumers[c := con][c := con'] == s.consumers[c := con'];
  }

  lemma StepsConcat(s: System, a: seq<Action>, b: seq<Action>, c: seq<Action>)
    ensures Run(s, a + b + c) == Run(Run(Run(s, a), b), c)
  {
    hide Run;
    RunConcat(s, a + b, c);
    RunConcat(s, a, b);
  }

  // ---------------------------------------------------------------------------------------
  // One attempt
  // ---------------------------------------------------------------------------------------

  /** A live consumer at its `k`-th endpoint, before its `n`-th attempt. */
  predicate AtEndpoint(con: Consumer, k: nat, n: nat, wrote: bool) {
    con.todo != [] && !con.cancelled && k < |con.eps| && con.stage == Calling(k, n, wrote)
  }

  lemma CallStep(t: System, c: nat, k: nat, n: nat, wrote: bool, h: HttpResult)
    requires AtEndpoint(ConsumerOf(t, c), k, n, wrote)
    ensures var con := ConsumerOf(t, c);
            DoCall(t, c, h) == Shape(t, c, con.(stage := if con.eps[k].urlParses then Answered(k, n, wrote, h) else Calling(k + 1, 1, wrote)), t.repo)
  {
  }

  lemma RecordStep(t: System, c: nat, k: nat, n: nat, wrote: bool, a: Attempt, maxRetries: int)
    requires var con := ConsumerOf(t, c);
             con.todo != [] && !con.cancelled && k < |con.eps| && con.stage == Answered(k, n, wrote, ResultOf(a))
             && a == AttemptFor(a.id, con.todo[0].eventId, con.eps[k].id, n, ResultOf(a), maxRetries) && a.id !in t.repo.attempts
    ensures DoRecord(t, c, a.id, maxRetries) ==
            Shape(t, c, ConsumerOf(t, c).(stage := if a.status == Retrying then Calling(k, n + 1, wrote) else Writing(k, wrote, Verdict(a.status))),
                  RecordDeliveryAttempt(t.repo, a).0)
  {
    hide Classify;
  }

  lemma WriteStep(t: System, c: nat, k: nat, wrote: bool, verdict: EventStatus)
    requires var con := ConsumerOf(t, c);
             con.todo != [] && !con.cancelled && con.stage == Writing(k, wrote, verdict)
    ensures var con := ConsumerOf(t, c);
            DoWrite(t, c) == Shape(t, c, con.(stage := Calling(k + 1, 1, wrote || con.todo[0].eventId in t.repo.events)),
                                   UpdateEventStatus(t.repo, con.todo[0].eventId, verdict).0)
  {
  }

  /** The attempt `a` is the consumer's `n`-th on its `k`-th endpoint, and has an unused ID. */
  predicate IsAttempt(t: System, c: nat, k: nat, n: nat, a: Attempt, maxRetries: int) {
    var con := ConsumerOf(t, c);
    && con.todo != [] && k < |con.eps| && con.eps[k].urlParses && a.id !in t.repo.attempts
    && a == AttemptFor(a.id, con.todo[0].eventId, con.eps[k].id, n, ResultOf(a), maxRetries)
  }

  function Answering(c: nat, a: Attempt, maxRetries: int): seq<Action> {
    [Call(c, ResultOf(a)), Record(c, a.id, maxRetries)]
  }

  function Recorded(con: Consumer, k: nat, n: nat, wrote: bool, a: Attempt): Consumer {
    con.(stage := if a.status == Retrying then Calling(k, n + 1, wrote) else Writing(k, wrote, Verdict(a.status)))
  }

  lemma AnswerIsSteps(t: System, c: nat, k: nat, n: nat, wrote: bool, a: Attempt, maxRetries: int)
    requires AtEndpoint(ConsumerOf(t, c), k, n, wrote) && IsAttempt(t, c, k, n, a, maxRetries)
    ensures Run(t, Answering(c, a, maxRetries)) == Shape(t, c, Recorded(ConsumerOf(t, c), k, n, wrote, a), RecordDeliveryAttempt(t.repo, a).0)
  {
    hide Run, Next, Shape, ConsumerOf, Classify, DoCall, DoRecord;
    var con, h := ConsumerOf(t, c), ResultOf(a);
    CallStep(t, c, k, n, wrote, h);
    var con1 := con.(stage := Answered(k, n, wrote, h));
    var t1 := Shape(t, c, con1, t.repo);
    ShapeTwice(t, c, con1, t.repo, Recorded(con, k, n, wrote, a), RecordDeliveryAttempt(t.repo, a).0);
    RecordStep(t1, c, k, n, wrote, a, maxRetries);
    RunTwo(t, Call(c, h), Record(c, a.id, maxRetries));
    NextIs(t, Call(c, h));
    NextIs(t1, Record(c, a.id, maxRetries));
  }

  function AttemptSteps(c: nat, a: Attempt, maxRetries: int): seq<Action> {
    Answering(c, a, maxRetries) + if a.status == Retrying then [] else [Write(c)]
  }

  /** What the machine's consumer looks like after an attempt. */
  function Onward(con: Consumer, k: nat, n: nat, wrote: bool, stored: bool, a: Attempt): Consumer {
    con.(stage := if a.status == Retrying then Calling(k, n + 1, wrote) else Calling(k + 1, 1, wrote || stored))
  }

  lemma AttemptIsSteps(t: System, c: nat, k: nat, n: nat, wrote: bool, a: Attempt, maxRetries: int)
    requires AtEndpoint(ConsumerOf(t, c), k, n, wrote) && IsAttempt(t, c, k, n, a, maxRetries)
    ensures var con := ConsumerOf(t, c);
            Run(t, AttemptSteps(c, a, maxRetries)) == Shape(t, c, Onward(con, k, n, wrote, con.todo[0].eventId in t.repo.events, a), AfterAttempt(t.repo, a))
  {
    hide Run, Next, Shape, ConsumerOf, Classify, DoWrite, UpdateEventStatus, Answering;
    AnswerIsSteps(t, c, k, n, wrote, a, maxRetries);
    var con, con2, r2 := ConsumerOf(t, c), Recorded(ConsumerOf(t, c), k, n, wrote, a), RecordDeliveryAttempt(t.repo, a).0;
    var two := Answering(c, a, maxRetries);
    if a.status == Retrying {
      assert AttemptSteps(c, a, maxRetries) == two;
    } else {
      var t2, con3 := Shape(t, c, con2, r2), Onward(con, k, n, wrote, con.todo[0].eventId in t.repo.events, a);
      ShapeTwice(t, c, con2, r2, con3, AfterAttempt(t.repo, a));
      RunConcat(t, two, [Write(c)]);
      RunOne(t2, Write(c));
      NextIs(t2, Write(c));
      WriteStep(t2, c, k, wrote, Verdict(a.status));
    }
  }

  // ---------------------------------------------------------------------------------------
  // One endpoint
  // ---------------------------------------------------------------------------------------

  function TraceSteps(c: nat, trace: seq<Attempt>, maxRetries: int): seq<Action> {
    if trace == [] then []
    else TraceSteps(c, trace[..|trace| - 1], maxRetries) + AttemptSteps(c, trace[|trace| - 1], maxRetries)
  }

  /** Everything of a retried attempt but its ID follows from its place and its response. */
  lemma RetriedAt(trace: seq<Attempt>, i: nat, maxRetries: int, e: EventId, endpointId: string)
    requires i < |trace| < maxRetries && Retried(trace, e, endpointId)
    ensures trace[i] == AttemptFor(trace[i].id, e, endpointId, i + 1, ResultOf(trace[i]), maxRetries) && trace[i].status == Retrying
  {
  }

  /** A complete trace is some retried attempts and a final one. */
  lemma RetryTraceSplits(trace: seq<Attempt>, maxRetries: int, e: EventId, endpointId: string)
    requires RetryTrace(trace, maxRetries, e, endpointId)
    ensures var n := |trace| - 1;
            && Retried(trace[..n], e, endpointId) && (n == 0 || n < maxRetries) && trace == trace[..n] + [trace[n]]
            && trace[n].status != Retrying && trace[n] == AttemptFor(trace[n].id, e, endpointId, n + 1, ResultOf(trace[n]), maxRetries)
  {
  }

  /** Before the next attempt its ID is free, and the event is stored if it was. */
  lemma FreshAfter(repo: Repo, trace: seq<Attempt>, a: Attempt, lo: nat, hi: nat, e: EventId)
    requires IdsBelow(repo, lo) && AscendingFrom(trace + [a], lo, hi) && forall x <- trace :: x.eventId == e
    ensures var r := AfterAttempts(repo, trace); a.id !in r.attempts && (e in r.events <==> e in repo.events)
  {
    AscendingSplits(trace, [a], lo, hi);
    assert [a][0].id >= NextId(trace, lo);
    AttemptsAreRecorded(repo, trace, lo, hi, e);
    hide AfterAttempts, AscendingFrom;
  }

  lemma AscendingSplits(a: seq<Attempt>, b: seq<Attempt>, lo: nat, hi: nat)
    requires AscendingFrom(a + b, lo, hi)
    ensures AscendingFrom(a, lo, hi) && AscendingFrom(b, NextId(a, lo), hi)
  {
    assert forall i | 0 <= i < |a| :: (a + b)[i] == a[i];
    assert forall i | 0 <= i < |b| :: (a + b)[|a| + i] == b[i];
  }

  lemma NoStepsYet(t: System, c: nat)
    requires ConsumerOf(t, c).todo != []
    ensures Run(t, []) == Shape(t, c, ConsumerOf(t, c), t.repo)
  {
    assert t.consumers[c := t.consumers[c]] == t.consumers;
  }

  ghost predicate Retries(trace: seq<Attempt>, maxRetries: int, e: EventId, ep: Endpoint) {
    trace == [] || (ep.urlParses && |trace| < maxRetries && Retried(trace, e, ep.id))
  }

  lemma RetriesPrefix(trace: seq<Attempt>, maxRetries: int, e: EventId, ep: Endpoint)
    requires trace != [] && Retries(trace, maxRetries, e, ep)
    ensures var n := |trace| - 1;
            && trace == trace[..n] + [trace[n]] && Retries(trace[..n], maxRetries, e, ep) && ep.urlParses
            && (forall x <- trace[..n] :: x.eventId == e)
            && trace[n] == AttemptFor(trace[n].id, e, ep.id, n + 1, ResultOf(trace[n]), maxRetries) && trace[n].status == Retrying
  {
    RetriedAt(trace, |trace| - 1, maxRetries, e, ep.id);
  }

  lemma NoRetryYet(t: System, c: nat, k: nat, wrote: bool, maxRetries: int)
    requires AtEndpoint(ConsumerOf(t, c), k, 1, wrote)
    ensures Run(t, TraceSteps(c, [], maxRetries)) == Shape(t, c, ConsumerOf(t, c).(stage := Calling(k, 1, wrote)), AfterAttempts(t.repo, []))
  {
    NoStepsYet(t, c);
  }

  /** The retried attempts on an endpoint, as steps. */
  lemma {:induction false} RetriesAreSteps(t: System, c: nat, k: nat, wrote: bool, trace: seq<Attempt>, maxRetries: int, lo: nat, hi: nat)
    requires AtEndpoint(ConsumerOf(t, c), k, 1, wrote) && IdsBelow(t.repo, lo) && AscendingFrom(trace, lo, hi)
    requires Retries(trace, maxRetries, ConsumerOf(t, c).todo[0].eventId, ConsumerOf(t, c).eps[k])
    ensures Run(t, TraceSteps(c, trace, maxRetries)) == Shape(t, c, ConsumerOf(t, c).(stage := Calling(k, |trace| + 1, wrote)), AfterAttempts(t.repo, trace))
  {
    hide Run, Shape, ConsumerOf, Retries, AscendingFrom, IdsBelow, TraceSteps, AttemptFor, AfterAttempts;
    if trace == [] {
      NoRetryYet(t, c, k, wrote, maxRetries);
    } else {
      var n := |trace| - 1;
      RetriesPrefix(trace, maxRetries, ConsumerOf(t, c).todo[0].eventId, ConsumerOf(t, c).eps[k]);
      AscendingSplits(trace[..n], [trace[n]], lo, hi);
      RetriesAreSteps(t, c, k, wrote, trace[..n], maxRetries, lo, hi);
      LastRetryIsSteps(t, c, k, wrote, trace, maxRetries, lo, hi);
    }
  }

  lemma LastRetryIsSteps(t: System, c: nat, k: nat, wrote: bool, trace: seq<Attempt>, maxRetries: int, lo: nat, hi: nat)
    requires AtEndpoint(ConsumerOf(t, c), k, 1, wrote) && IdsBelow(t.repo, lo) && AscendingFrom(trace, lo, hi)
    requires trace != [] && Retries(trace, maxRetries, ConsumerOf(t, c).todo[0].eventId, ConsumerOf(t, c).eps[k])
    requires var n := |trace| - 1;
             Run(t, TraceSteps(c, trace[..n], maxRetries)) == Shape(t, c, ConsumerOf(t, c).(stage := Calling(k, n + 1, wrote)), AfterAttempts(t.repo, trace[..n]))
    ensures Run(t, TraceSteps(c, trace, maxRetries)) == Shape(t, c, ConsumerOf(t, c).(stage := Calling(k, |trace| + 1, wrote)), AfterAttempts(t.repo, trace))
  {
    hide Run, Shape, ConsumerOf, Retries, AscendingFrom, IdsBelow, TraceSteps, AttemptFor, AfterAttempts;
    var n, e := |trace| - 1, ConsumerOf(t, c).todo[0].eventId;
    RetriesPrefix(trace, maxRetries, e, ConsumerOf(t, c).eps[k]);
    FreshAfter(t.repo, trace[..n], trace[n], lo, hi, e);
    NextAttemptIsSteps(t, c, k, wrote, trace[..n], trace[n], maxRetries);
  }

  /** One more attempt after the steps for some retried ones. */
  lemma NextAttemptIsSteps(t: System, c: nat, k: nat, wrote: bool, trace: seq<Attempt>, a: Attempt, maxRetries: int)
    requires AtEndpoint(ConsumerOf(t, c), k, 1, wrote) && ConsumerOf(t, c).eps[k].urlParses
    requires Run(t, TraceSteps(c, trace, maxRetries)) == Shape(t, c, ConsumerOf(t, c).(stage := Calling(k, |trace| + 1, wrote)), AfterAttempts(t.repo, trace))
    requires var con, r1 := ConsumerOf(t, c), AfterAttempts(t.repo, trace);
             a.id !in r1.attempts && (con.todo[0].eventId in r1.events <==> con.todo[0].eventId in t.repo.events)
             && a == AttemptFor(a.id, con.todo[0].eventId, con.eps[k].id, |trace| + 1, ResultOf(a), maxRetries)
    ensures var con := ConsumerOf(t, c);
            Run(t, TraceSteps(c, trace + [a], maxRetries)) ==
            Shape(t, c, Onward(con, k, |trace| + 1, wrote, con.todo[0].eventId in t.repo.events, a), AfterAttempts(t.repo, trace + [a]))
  {
    hide Run, Shape, ConsumerOf, AttemptSteps, AfterAttempt, AfterAttempts, AttemptFor, TraceSteps;
    var con, n, r1 := ConsumerOf(t, c), |trace| + 1, AfterAttempts(t.repo, trace);
    var con1 := con.(stage := Calling(k, n, wrote));
    OneMoreAttempt(t.repo, trace, a);
    ShapeTwice(t, c, con1, r1, Onward(con1, k, n, wrote, con.todo[0].eventId in t.repo.events, a), AfterAttempt(r1, a));
    AttemptIsSteps(Shape(t, c, con1, r1), c, k, n, wrote, a, maxRetries);
    TraceStepsGrow(t, c, trace, a, maxRetries);
  }

  lemma TraceStepsGrow(t: System, c: nat, trace: seq<Attempt>, a: Attempt, maxRetries: int)
    ensures Run(t, TraceSteps(c, trace + [a], maxRetries)) == Run(Run(t, TraceSteps(c, trace, maxRetries)), AttemptSteps(c, a, maxRetries))
  {
    assert (trace + [a])[..|trace|] == trace;
    hide Run, AttemptSteps;
    RunConcat(t, TraceSteps(c, trace, maxRetries), AttemptSteps(c, a, maxRetries));
  }

  lemma CompleteTrace(trace: seq<Attempt>, maxRetries: int, e: EventId, ep: Endpoint)
    requires ep.urlParses && RetryTrace(trace, maxRetries, e, ep.id)
    ensures var n := |trace| - 1;
            && trace == trace[..n] + [trace[n]] && Retries(trace[..n], maxRetries, e, ep) && (forall x <- trace[..n] :: x.eventId == e)
            && trace[n].status != Retrying && trace[n] == AttemptFor(trace[n].id, e, ep.id, n + 1, ResultOf(trace[n]), maxRetries)
  {
    RetryTraceSplits(trace, maxRetries, e, ep.id);
    hide RetryTrace, AttemptFor;
  }

  /** A complete trace, as steps. */
  lemma TraceIsSteps(t: System, c: nat, k: nat, wrote: bool, trace: seq<Attempt>, maxRetries: int, lo: nat, hi: nat)
    requires var con := ConsumerOf(t, c);
             AtEndpoint(con, k, 1, wrote) && con.eps[k].urlParses && RetryTrace(trace, maxRetries, con.todo[0].eventId, con.eps[k].id)
    requires IdsBelow(t.repo, lo) && AscendingFrom(trace, lo, hi)
    ensures var con := ConsumerOf(t, c);
            Run(t, TraceSteps(c, trace, maxRetries)) ==
            Shape(t, c, con.(stage := Calling(k + 1, 1, wrote || con.todo[0].eventId in t.repo.events)), AfterAttempts(t.repo, trace))
  {
    hide Run, Shape, ConsumerOf, Retries, Retried, RetryTrace, AscendingFrom, IdsBelow, AttemptSteps, AttemptFor, AfterAttempt, AfterAttempts, TraceSteps;
    var con, n := ConsumerOf(t, c), |trace| - 1;
    CompleteTrace(trace, maxRetries, con.todo[0].eventId, con.eps[k]);
    AscendingSplits(trace[..n], [trace[n]], lo, hi);
    RetriesAreSteps(t, c, k, wrote, trace[..n], maxRetries, lo, hi);
    FreshAfter(t.repo, trace[..n], trace[n], lo, hi, con.todo[0].eventId);
    NextAttemptIsSteps(t, c, k, wrote, trace[..n], trace[n], maxRetries);
  }

  function EndpointSteps(c: nat, ep: Endpoint, trace: seq<Attempt>, maxRetries: int): seq<Action> {
    if ep.urlParses then TraceSteps(c, trace, maxRetries) else [Call(c, HttpResult(0, true))]
  }

  /** The trace fits the endpoint. */
  ghost predicate FitsEndpoint(ep: Endpoint, trace: seq<Attempt>, maxRetries: int, e: EventId) {
    if ep.urlParses then RetryTrace(trace, maxRetries, e, ep.id) else trace == []
  }

  lemma EndpointIsSteps(t: System, c: nat, k: nat, wrote: bool, trace: seq<Attempt>, maxRetries: int, lo: nat, hi: nat)
    requires var con := ConsumerOf(t, c);
             AtEndpoint(con, k, 1, wrote) && FitsEndpoint(con.eps[k], trace, maxRetries, con.todo[0].eventId)
    requires IdsBelow(t.repo, lo) && AscendingFrom(trace, lo, hi)
    ensures var con := ConsumerOf(t, c);
            Run(t, EndpointSteps(c, con.eps[k], trace, maxRetries)) ==
            Shape(t, c, con.(stage := Calling(k + 1, 1, wrote || (con.eps[k].urlParses && con.todo[0].eventId in t.repo.events))), AfterAttempts(t.repo, trace))
  {
    hide Run, Shape, ConsumerOf, RetryTrace, AscendingFrom, IdsBelow, Next, DoCall;
    var con := ConsumerOf(t, c);
    if con.eps[k].urlParses {
      TraceIsSteps(t, c, k, wrote, trace, maxRetries, lo, hi);
    } else {
      RunOne(t, Call(c, HttpResult(0, true)));
      NextIs(t, Call(c, HttpResult(0, true)));
      CallStep(t, c, k, 1, wrote, HttpResult(0, true));
    }
  }

  // ---------------------------------------------------------------------------------------
  // All endpoints
  // ---------------------------------------------------------------------------------------

  function RoundSteps(c: nat, active: seq<Endpoint>, traces: seq<seq<Attempt>>, maxRetries: int): seq<Action>
    requires |traces| <= |active|
    decreases |traces|
  {
    if traces == [] then []
    else
      var n := |traces| - 1;
      RoundSteps(c, active, traces[..n], maxRetries) + EndpointSteps(c, active[n], traces[n], maxRetries)
  }

  predicate AnyParses(eps: seq<Endpoint>) {
    exists ep <- eps :: ep.urlParses
  }

  lemma AnyParsesGrows(eps: seq<Endpoint>, n: nat)
    requires n < |eps|
    ensures AnyParses(eps[..n + 1]) <==> AnyParses(eps[..n]) || eps[n].urlParses
  {
    assert eps[..n + 1] == eps[..n] + [eps[n]];
  }

  /** What the attempts on the earlier endpoints leave for the next one. */
  lemma ReadyForNext(repo: Repo, active: seq<Endpoint>, traces: seq<seq<Attempt>>, next: seq<Attempt>, maxRetries: int, e: EventId, lo: nat, hi: nat)
    requires Traced(active, traces, maxRetries, e) && IdsBelow(repo, lo) && AscendingFrom(Flat(traces) + next, lo, hi)
    ensures var r1 := AfterAttempts(repo, Flat(traces));
            var mid := NextId(Flat(traces), lo);
            && (e in r1.events <==> e in repo.events)
            && IdsBelow(r1, mid) && AscendingFrom(next, mid, hi) && AscendingFrom(Flat(traces), lo, hi)
  {
    AscendingSplits(Flat(traces), next, lo, hi);
    FlatOf(active, traces, maxRetries, e);
    hide Flat, AfterAttempts, Traced, AscendingFrom, IdsBelow;
    AttemptsAreRecorded(repo, Flat(traces), lo, hi, e);
  }

  lemma TracedPrefix(active: seq<Endpoint>, traces: seq<seq<Attempt>>, maxRetries: int, e: EventId)
    requires traces != [] && |traces| <= |active| && Traced(active[..|traces|], traces, maxRetries, e)
    ensures var n := |traces| - 1;
            && Traced(active[..n], traces[..n], maxRetries, e) && FitsEndpoint(active[n], traces[n], maxRetries, e)
            && traces == traces[..n] + [traces[n]]
  {
    hide RetryTrace;
    var n := |traces| - 1;
    assert active[..|traces|][n] == active[n];
    assert active[..n] == active[..|traces|][..n];
  }

  /** A live consumer before the first of its endpoints. */
  predicate AtRound(con: Consumer, active: seq<Endpoint>) {
    con.todo != [] && !con.cancelled && con.eps == active && con.stage == Calling(0, 1, false)
  }

  /** The same consumer after `n` of them. */
  function AfterEndpoints(con: Consumer, n: nat, stored: bool): Consumer
    requires n <= |con.eps|
  {
    con.(stage := Calling(n, 1, AnyParses(con.eps[..n]) && stored))
  }

  lemma NoEndpointYet(t: System, c: nat, active: seq<Endpoint>, maxRetries: int)
    requires AtRound(ConsumerOf(t, c), active)
    ensures Run(t, RoundSteps(c, active, [], maxRetries)) ==
            Shape(t, c, AfterEndpoints(ConsumerOf(t, c), 0, ConsumerOf(t, c).todo[0].eventId in t.repo.events), AfterAttempts(t.repo, Flat([])))
  {
    NoStepsYet(t, c);
    assert active[..0] == [];
  }

  lemma RoundStepsGrow(t: System, c: nat, active: seq<Endpoint>, traces: seq<seq<Attempt>>, maxRetries: int)
    requires traces != [] && |traces| <= |active|
    ensures var n := |traces| - 1;
            Run(t, RoundSteps(c, active, traces, maxRetries)) ==
            Run(Run(t, RoundSteps(c, active, traces[..n], maxRetries)), EndpointSteps(c, active[n], traces[n], maxRetries))
  {
    var n := |traces| - 1;
    hide Run, EndpointSteps;
    RunConcat(t, RoundSteps(c, active, traces[..n], maxRetries), EndpointSteps(c, active[n], traces[n], maxRetries));
  }

  /** The deliveries to the first endpoints, as steps. */
  lemma {:induction false} RoundIsSteps(t: System, c: nat, active: seq<Endpoint>, traces: seq<seq<Attempt>>, maxRetries: int, lo: nat, hi: nat)
    requires AtRound(ConsumerOf(t, c), active) && |traces| <= |active|
    requires Traced(active[..|traces|], traces, maxRetries, ConsumerOf(t, c).todo[0].eventId)
    requires IdsBelow(t.repo, lo) && AscendingFrom(Flat(traces), lo, hi)
    ensures var con := ConsumerOf(t, c);
            Run(t, RoundSteps(c, active, traces, maxRetries)) ==
            Shape(t, c, AfterEndpoints(con, |traces|, con.todo[0].eventId in t.repo.events), AfterAttempts(t.repo, Flat(traces)))
    decreases |traces|
  {
    hide Run, Shape, ConsumerOf, Traced, AscendingFrom, IdsBelow, EndpointSteps, FitsEndpoint, AfterAttempts, Flat, AnyParses, RoundSteps;
    var e := ConsumerOf(t, c).todo[0].eventId;
    if traces == [] {
      NoEndpointYet(t, c, active, maxRetries);
    } else {
      var n := |traces| - 1;
      TracedPrefix(active, traces, maxRetries, e);
      FlatGrows(traces[..n], traces[n]);
      ReadyForNext(t.repo, active[..n], traces[..n], traces[n], maxRetries, e, lo, hi);
      RoundIsSteps(t, c, active, traces[..n], maxRetries, lo, hi);
      OneMoreEndpoint(t, c, active, traces[..n], traces[n], maxRetries, NextId(Flat(traces[..n]), lo), hi);
      RoundStepsGrow(t, c, active, traces, maxRetries);
    }
  }

  lemma OneMoreEndpoint(t: System, c: nat, active: seq<Endpoint>, traces: seq<seq<Attempt>>, trace: seq<Attempt>, maxRetries: int, mid: nat, hi: nat)
    requires AtRound(ConsumerOf(t, c), active) && |traces| < |active|
    requires FitsEndpoint(active[|traces|], trace, maxRetries, ConsumerOf(t, c).todo[0].eventId)
    requires var r1, e := AfterAttempts(t.repo, Flat(traces)), ConsumerOf(t, c).todo[0].eventId;
             (e in r1.events <==> e in t.repo.events) && IdsBelow(r1, mid) && AscendingFrom(trace, mid, hi)
    ensures var con, n, r1 := ConsumerOf(t, c), |traces|, AfterAttempts(t.repo, Flat(traces));
            var stored := con.todo[0].eventId in t.repo.events;
            Run(Shape(t, c, AfterEndpoints(con, n, stored), r1), EndpointSteps(c, active[n], trace, maxRetries))
            == Shape(t, c, AfterEndpoints(con, n + 1, stored), AfterAttempts(t.repo, Flat(traces + [trace])))
  {
    hide Run, Shape, ConsumerOf, AscendingFrom, IdsBelow, EndpointSteps, FitsEndpoint, AfterAttempts, Flat, AnyParses;
    var con, n, r1 := ConsumerOf(t, c), |traces|, AfterAttempts(t.repo, Flat(traces));
    var stored := con.todo[0].eventId in t.repo.events;
    AnyParsesGrows(active, n);
    FlatGrows(traces, trace);
    AfterAttemptsConcat(t.repo, Flat(traces), trace);
    var con1, con2 := AfterEndpoints(con, n, stored), AfterEndpoints(con, n + 1, stored);
    ShapeTwice(t, c, con1, r1, con2, AfterAttempts(r1, trace));
    EndpointIsSteps(Shape(t, c, con1, r1), c, n, con1.stage.wrote, trace, maxRetries, mid, hi);
  }

  // ---------------------------------------------------------------------------------------
  // A whole message
  // ---------------------------------------------------------------------------------------

  /** The consumer's work on its message is over, but for the acknowledgement. */
  predicate WorkedTo(s: System, t: System, c: nat, r: Repo, cancelled: bool) {
    && t.repo == r && t.log == s.log && t.group == s.group && t.relays == s.relays && t.gen == s.gen && t.origins == s.origins && t.replays == s.replays
    && c in t.consumers && t.consumers[c].todo == ConsumerOf(s, c).todo && t.consumers[c].stage.Finishing? && t.consumers[c].cancelled == cancelled
    && t.consumers.Keys == s.consumers.Keys + {c} && forall d <- s.consumers :: d == c || t.consumers[d] == s.consumers[d]
  }

  lemma WorkedAlso(s: System, t: System, u: System, c: nat, con: Consumer, r: Repo, r': Repo, cancelled: bool)
    requires t == Shape(s, c, con, r) && con.todo == ConsumerOf(s, c).todo && WorkedTo(t, u, c, r', cancelled)
    ensures WorkedTo(s, u, c, r', cancelled)
  {
  }

  lemma FinishedIsWorked(s: System, c: nat, con: Consumer)
    requires con.todo == ConsumerOf(s, c).todo && con.stage.Finishing?
    ensures WorkedTo(s, Shape(s, c, con, s.repo), c, s.repo, con.cancelled)
  {
  }

  const NO_ANSWER := HttpResult(0, true)

  /** A live consumer past its last endpoint, or a cancelled one anywhere, finishes. */
  lemma LastCallStep(t: System, c: nat, k: nat, n: nat, wrote: bool)
    requires var con := ConsumerOf(t, c); con.todo != [] && con.stage == Calling(k, n, wrote) && (con.cancelled || k >= |con.eps|)
    ensures WorkedTo(t, Next(t, Call(c, NO_ANSWER)), c, t.repo, ConsumerOf(t, c).cancelled)
  {
    NextIs(t, Call(c, NO_ANSWER));
    hide Next;
  }

  function ToFence(c: nat, msg: Message): seq<Action> {
    if msg.tenantId == "" then [Begin(c, false)] else [Begin(c, false), Fence(c)]
  }

  function EraOf(s: System, e: EventId): nat {
    if e in s.gen then s.gen[e] else 0
  }

  lemma FenceSteps(s: System, c: nat)
    requires StageOf(s, c) == Some(Boundary) && !ConsumerOf(s, c).cancelled
    ensures var msg, con := Head(s, c), ConsumerOf(s, c);
            var t := Run(s, ToFence(c, msg));
            if msg.tenantId == "" then t == Shape(s, c, con.(stage := Finishing(false)), s.repo)
            else if Fenced(s.repo, msg.eventId) then t == Shape(s, c, con.(stage := Finishing(true)), s.repo)
            else t == Shape(s, c, con.(stage := Resolving, era := EraOf(s, msg.eventId)), s.repo)
  {
    hide Run, Next;
    var msg, con := Head(s, c), ConsumerOf(s, c);
    NextIs(s, Begin(c, false));
    if msg.tenantId == "" {
      RunOne(s, Begin(c, false));
    } else {
      var t1 := Shape(s, c, con.(stage := Fencing), s.repo);
      RunTwo(s, Begin(c, false), Fence(c));
      NextIs(t1, Fence(c));
      FenceStep(s, c);
    }
  }

  lemma FenceStep(s: System, c: nat)
    requires StageOf(s, c).Some? && !ConsumerOf(s, c).cancelled
    ensures var msg, con := Head(s, c), ConsumerOf(s, c);
            DoFence(Shape(s, c, con.(stage := Fencing), s.repo), c) ==
            Shape(s, c, if Fenced(s.repo, msg.eventId) then con.(stage := Finishing(true)) else con.(stage := Resolving, era := EraOf(s, msg.eventId)), s.repo)
  {
    var msg, con := Head(s, c), ConsumerOf(s, c);
    var con1 := con.(stage := Fencing);
    var t1 := Shape(s, c, con1, s.repo);
    ShapeTwice(s, c, con1, s.repo, con.(stage := Finishing(true)), s.repo);
    ShapeTwice(s, c, con1, s.repo, con.(stage := Resolving, era := EraOf(s, msg.eventId)), s.repo);
    assert ConsumerOf(t1, c) == con1 && StageOf(t1, c) == Some(Fencing) && Head(t1, c) == msg;
  }

  lemma ResolveStep(t: System, c: nat, active: seq<Endpoint>)
    requires StageOf(t, c) == Some(Resolving) && !ConsumerOf(t, c).cancelled && Lists(t.repo, Head(t, c).tenantId, active)
    ensures var con := ConsumerOf(t, c);
            Next(t, Resolve(c, active)) ==
            Shape(t, c, if active == [] then con.(stage := Finishing(false)) else con.(stage := Calling(0, 1, false), eps := active), t.repo)
  {
    NextIs(t, Resolve(c, active));
    hide Next, Lists;
  }

  /** From the fence to the first endpoint. */
  lemma ToRound(s: System, c: nat, active: seq<Endpoint>)
    requires StageOf(s, c) == Some(Boundary) && !ConsumerOf(s, c).cancelled && active != []
    requires Head(s, c).tenantId != "" && !Fenced(s.repo, Head(s, c).eventId) && Lists(s.repo, Head(s, c).tenantId, active)
    ensures var con := ConsumerOf(s, c);
            Run(s, ToFence(c, Head(s, c)) + [Resolve(c, active)]) ==
            Shape(s, c, con.(stage := Calling(0, 1, false), eps := active, era := EraOf(s, Head(s, c).eventId)), s.repo)
  {
    hide Run, Next, Lists, Fenced, ToFence, ConsumerOf, Shape;
    FenceSteps(s, c);
    var con := ConsumerOf(s, c);
    var con1 := con.(stage := Resolving, era := EraOf(s, Head(s, c).eventId));
    var t := Shape(s, c, con1, s.repo);
    ShapeTwice(s, c, con1, s.repo, con1.(stage := Calling(0, 1, false), eps := active), s.repo);
    ResolveStep(t, c, active);
    RunConcat(s, ToFence(c, Head(s, c)), [Resolve(c, active)]);
    RunOne(t, Resolve(c, active));
  }

  /** A message that names no tenant, whose event is final, or whose tenant has no active endpoint. */
  lemma SkippingIsSteps(s: System, c: nat)
    requires StageOf(s, c) == Some(Boundary) && !ConsumerOf(s, c).cancelled
    ensures Head(s, c).tenantId == "" || Fenced(s.repo, Head(s, c).eventId) ==> WorkedTo(s, Run(s, ToFence(c, Head(s, c))), c, s.repo, false)
    ensures Head(s, c).tenantId != "" && !Fenced(s.repo, Head(s, c).eventId) && Lists(s.repo, Head(s, c).tenantId, []) ==>
              WorkedTo(s, Run(s, ToFence(c, Head(s, c)) + [Resolve(c, [])]), c, s.repo, false)
  {
    hide Run, Next, Shape, WorkedTo, ToFence, Fenced, Lists, ConsumerOf;
    var msg, con := Head(s, c), ConsumerOf(s, c);
    FenceSteps(s, c);
    if msg.tenantId == "" || Fenced(s.repo, msg.eventId) {
      FinishedIsWorked(s, c, con.(stage := Finishing(msg.tenantId != "")));
    } else if Lists(s.repo, msg.tenantId, []) {
      var con1 := con.(stage := Resolving, era := EraOf(s, msg.eventId));
      var con2 := con1.(stage := Finishing(false));
      var t := Shape(s, c, con1, s.repo);
      ShapeTwice(s, c, con1, s.repo, con2, s.repo);
      ResolveStep(t, c, []);
      RunConcat(s, ToFence(c, msg), [Resolve(c, [])]);
      RunOne(t, Resolve(c, []));
      FinishedIsWorked(s, c, con2);
    }
  }

  /** The consumer's steps for a message, up to the acknowledgement. */
  function WorkSteps(r: Repo, c: nat, msg: Message, active: seq<Endpoint>, traces: seq<seq<Attempt>>, maxRetries: int): seq<Action>
    requires |traces| <= |active|
  {
    if msg.tenantId == "" || Fenced(r, msg.eventId) then ToFence(c, msg)
    else if active == [] then ToFence(c, msg) + [Resolve(c, [])]
    else ToFence(c, msg) + [Resolve(c, active)] + (RoundSteps(c, active, traces, maxRetries) + [Call(c, NO_ANSWER)])
  }

  lemma RoundIsWork(t: System, c: nat, active: seq<Endpoint>, traces: seq<seq<Attempt>>, maxRetries: int, lo: nat, hi: nat)
    requires AtRound(ConsumerOf(t, c), active) && Traced(active, traces, maxRetries, ConsumerOf(t, c).todo[0].eventId)
    requires IdsBelow(t.repo, lo) && AscendingFrom(Flat(traces), lo, hi)
    ensures |traces| == |active|
    ensures WorkedTo(t, Run(t, RoundSteps(c, active, traces, maxRetries) + [Call(c, NO_ANSWER)]), c, AfterAttempts(t.repo, Flat(traces)), false)
  {
    var con, r' := ConsumerOf(t, c), AfterAttempts(t.repo, Flat(traces));
    var stored := con.todo[0].eventId in t.repo.events;
    SameLength(active, traces, maxRetries, con.todo[0].eventId);
    hide Run, Next, Traced, AscendingFrom, IdsBelow, Flat, AfterAttempts, Shape, WorkedTo, RoundSteps, ConsumerOf, AnyParses;
    assert active[..|traces|] == active;
    RoundIsSteps(t, c, active, traces, maxRetries, lo, hi);
    var con2 := AfterEndpoints(con, |active|, stored);
    var t2 := Shape(t, c, con2, r');
    ShapeTwice(t, c, con2, r', con2, r');
    RunConcat(t, RoundSteps(c, active, traces, maxRetries), [Call(c, NO_ANSWER)]);
    RunOne(t2, Call(c, NO_ANSWER));
    LastCallStep(t2, c, |active|, 1, con2.stage.wrote);
    WorkedAlso(t, t2, Next(t2, Call(c, NO_ANSWER)), c, con2, r', r', false);
  }

  lemma SameLength(active: seq<Endpoint>, traces: seq<seq<Attempt>>, maxRetries: int, e: EventId)
    requires Traced(active, traces, maxRetries, e)
    ensures |traces| == |active|
  {
  }

  lemma ProcessingIsSteps(s: System, c: nat, r': Repo, active: seq<Endpoint>, traces: seq<seq<Attempt>>, maxRetries: int, lo: nat, hi: nat)
    requires StageOf(s, c) == Some(Boundary) && !ConsumerOf(s, c).cancelled
    requires Processed(s.repo, r', Head(s, c), maxRetries, active, traces)
    requires IdsBelow(s.repo, lo) && AscendingFrom(Flat(traces), lo, hi)
    ensures |traces| <= |active|
    ensures WorkedTo(s, Run(s, WorkSteps(s.repo, c, Head(s, c), active, traces, maxRetries)), c, r', false)
  {
    var msg := Head(s, c);
    ProcessedCases(s.repo, r', msg, maxRetries, active, traces);
    SkippingIsSteps(s, c);
    hide Run, Next, Traced, Lists, AscendingFrom, IdsBelow, Flat, AfterAttempts, WorkedTo, ToFence, Fenced, Processed, ConsumerOf, Shape, RoundSteps;
    if msg.tenantId != "" && !Fenced(s.repo, msg.eventId) && active != [] {
      ToRound(s, c, active);
      var con1 := ConsumerOf(s, c).(stage := Calling(0, 1, false), eps := active, era := EraOf(s, msg.eventId));
      var t := Shape(s, c, con1, s.repo);
      ShapeTwice(s, c, con1, s.repo, con1, s.repo);
      RoundIsWork(t, c, active, traces, maxRetries, lo, hi);
      var round := RoundSteps(c, active, traces, maxRetries) + [Call(c, NO_ANSWER)];
      RunConcat(s, ToFence(c, msg) + [Resolve(c, active)], round);
      WorkedAlso(s, t, Run(t, round), c, con1, s.repo, r', false);
    }
  }

  lemma ProcessedCases(r: Repo, r': Repo, msg: Message, maxRetries: int, active: seq<Endpoint>, traces: seq<seq<Attempt>>)
    requires Processed(r, r', msg, maxRetries, active, traces)
    ensures |traces| <= |active| && r' == AfterAttempts(r, Flat(traces))
    ensures msg.tenantId == "" || Fenced(r, msg.eventId) || active == [] ==> r' == r
    ensures msg.tenantId != "" && !Fenced(r, msg.eventId) ==> Lists(r, msg.tenantId, active) && Traced(active, traces, maxRetries, msg.eventId)
  {
  }

  // ---------------------------------------------------------------------------------------
  // Processing that a cancellation stops
  // ---------------------------------------------------------------------------------------

  lemma CancelStep(t: System, c: nat)
    ensures Next(t, Cancel(c)) == Shape(t, c, ConsumerOf(t, c).(cancelled := true), t.repo)
  {
  }

  lemma LostWriteStep(t: System, c: nat, k: nat, wrote: bool, verdict: EventStatus)
    requires var con := ConsumerOf(t, c); con.todo != [] && con.cancelled && con.stage == Writing(k, wrote, verdict)
    ensures DoWrite(t, c) == Shape(t, c, ConsumerOf(t, c).(stage := Calling(k + 1, 1, wrote)), t.repo)
  {
  }

  function StopSteps(c: nat, last: Option<Attempt>, maxRetries: int): seq<Action> {
    if last.None? then [Cancel(c), Call(c, NO_ANSWER)]
    else Answering(c, last.value, maxRetries) + [Cancel(c), Write(c)] + [Call(c, NO_ANSWER)]
  }

  function CutOffSteps(c: nat, trace: seq<Attempt>, last: Option<Attempt>, maxRetries: int): seq<Action> {
    TraceSteps(c, trace, maxRetries) + StopSteps(c, last, maxRetries)
  }

  lemma StopBetween(t: System, c: nat, k: nat, n: nat, wrote: bool, maxRetries: int)
    requires AtEndpoint(ConsumerOf(t, c), k, n, wrote)
    ensures WorkedTo(t, Run(t, StopSteps(c, None, maxRetries)), c, t.repo, true)
  {
    hide Run, Next, Shape, ConsumerOf, WorkedTo;
    CancelStep(t, c);
    var con1 := ConsumerOf(t, c).(cancelled := true);
    var t1 := Shape(t, c, con1, t.repo);
    ShapeTwice(t, c, con1, t.repo, con1, t.repo);
    RunTwo(t, Cancel(c), Call(c, NO_ANSWER));
    LastCallStep(t1, c, k, n, wrote);
    WorkedAlso(t, t1, Next(t1, Call(c, NO_ANSWER)), c, con1, t.repo, t.repo, true);
  }

  lemma StopInAttempt(t: System, c: nat, k: nat, n: nat, wrote: bool, a: Attempt, maxRetries: int)
    requires AtEndpoint(ConsumerOf(t, c), k, n, wrote) && IsAttempt(t, c, k, n, a, maxRetries) && a.status != Retrying
    ensures WorkedTo(t, Run(t, StopSteps(c, Some(a), maxRetries)), c, RecordDeliveryAttempt(t.repo, a).0, true)
  {
    hide Run, Next, Shape, ConsumerOf, WorkedTo, IsAttempt, Answering, DoWrite;
    AnswerIsSteps(t, c, k, n, wrote, a, maxRetries);
    var r', con1 := RecordDeliveryAttempt(t.repo, a).0, Recorded(ConsumerOf(t, c), k, n, wrote, a);
    var con2 := con1.(cancelled := true);
    var con3 := con2.(stage := Calling(k + 1, 1, wrote));
    var t1, t2, t3 := Shape(t, c, con1, r'), Shape(t, c, con2, r'), Shape(t, c, con3, r');
    ShapeTwice(t, c, con1, r', con2, r');
    CancelStep(t1, c);
    ShapeTwice(t, c, con2, r', con3, r');
    NextIs(t2, Write(c));
    LostWriteStep(t2, c, k, wrote, Verdict(a.status));
    ShapeTwice(t, c, con3, r', con3, r');
    RunTwo(t1, Cancel(c), Write(c));
    StepsConcat(t, Answering(c, a, maxRetries), [Cancel(c), Write(c)], [Call(c, NO_ANSWER)]);
    RunOne(t3, Call(c, NO_ANSWER));
    LastCallStep(t3, c, k + 1, 1, wrote);
    WorkedAlso(t, t3, Next(t3, Call(c, NO_ANSWER)), c, con3, r', r', true);
  }

  /** What a cut-off delivery says about its attempts. */
  lemma CutOffCases(r: Repo, r': Repo, trace: seq<Attempt>, last: Option<Attempt>, maxRetries: int, e: EventId, endpoint: Endpoint)
    requires CutOff(r, r', trace, last, maxRetries, e, endpoint)
    ensures Retries(trace, maxRetries, e, endpoint)
    ensures forall x <- trace :: x.eventId == e
    ensures last.None? ==> r' == AfterAttempts(r, trace)
    ensures last.Some? ==>
              && endpoint.urlParses && last.value == AttemptFor(last.value.id, e, endpoint.id, |trace| + 1, ResultOf(last.value), maxRetries)
              && last.value.status != Retrying && last.value.id !in AfterAttempts(r, trace).attempts
              && r' == RecordDeliveryAttempt(AfterAttempts(r, trace), last.value).0
  {
    hide AttemptFor, AfterAttempts;
  }

  lemma CutOffIsSteps(t: System, c: nat, k: nat, wrote: bool, r': Repo, trace: seq<Attempt>, last: Option<Attempt>, maxRetries: int, lo: nat, hi: nat)
    requires AtEndpoint(ConsumerOf(t, c), k, 1, wrote)
    requires CutOff(t.repo, r', trace, last, maxRetries, ConsumerOf(t, c).todo[0].eventId, ConsumerOf(t, c).eps[k])
    requires IdsBelow(t.repo, lo) && AscendingFrom(trace + Listed(last), lo, hi)
    ensures WorkedTo(t, Run(t, CutOffSteps(c, trace, last, maxRetries)), c, r', true)
  {
    var con := ConsumerOf(t, c);
    CutOffCases(t.repo, r', trace, last, maxRetries, con.todo[0].eventId, con.eps[k]);
    hide Run, Shape, ConsumerOf, WorkedTo, CutOff, Retries, AttemptFor, AfterAttempts, AscendingFrom, IdsBelow, TraceSteps, StopSteps;
    AscendingSplits(trace, Listed(last), lo, hi);
    RetriesAreSteps(t, c, k, wrote, trace, maxRetries, lo, hi);
    var con1, r1 := con.(stage := Calling(k, |trace| + 1, wrote)), AfterAttempts(t.repo, trace);
    var t1 := Shape(t, c, con1, r1);
    ShapeTwice(t, c, con1, r1, con1, r1);
    RunConcat(t, TraceSteps(c, trace, maxRetries), StopSteps(c, last, maxRetries));
    if last.None? {
      StopBetween(t1, c, k, |trace| + 1, wrote, maxRetries);
    } else {
      StopInAttempt(t1, c, k, |trace| + 1, wrote, last.value, maxRetries);
    }
    WorkedAlso(t, t1, Run(t1, StopSteps(c, last, maxRetries)), c, con1, r1, r', true);
  }

  /** The consumer's steps for a message until the cancellation has made it finish. */
  function HaltSteps(c: nat, msg: Message, trail: Trail, maxRetries: int): seq<Action>
    requires |trail.traces| <= |trail.active|
  {
    if trail.active == [] then [Begin(c, false), Cancel(c)] + [Fence(c), Resolve(c, [])]
    else
      ToFence(c, msg) + [Resolve(c, trail.active)]
      + (RoundSteps(c, trail.active, trail.traces, maxRetries) + CutOffSteps(c, trail.partial, trail.last, maxRetries))
  }

  lemma LookupsCutShort(s: System, c: nat)
    requires StageOf(s, c) == Some(Boundary) && !ConsumerOf(s, c).cancelled && Head(s, c).tenantId != ""
    ensures WorkedTo(s, Run(s, [Begin(c, false), Cancel(c)] + [Fence(c), Resolve(c, [])]), c, s.repo, true)
  {
    var con, e := ConsumerOf(s, c), Head(s, c).eventId;
    var con1 := con.(stage := Fencing);
    var con2 := con1.(cancelled := true);
    var con3 := con2.(stage := Resolving, era := EraOf(s, e));
    var con4 := con3.(stage := Finishing(false));
    BeginStep(s, c);
    hide Run, Next, Shape, ConsumerOf, WorkedTo;
    var t1, t2, t3 := Shape(s, c, con1, s.repo), Shape(s, c, con2, s.repo), Shape(s, c, con3, s.repo);
    ShapeTwice(s, c, con1, s.repo, con2, s.repo);
    CancelStep(t1, c);
    ShapeTwice(s, c, con2, s.repo, con3, s.repo);
    FenceMissed(t2, c);
    ShapeTwice(s, c, con3, s.repo, con4, s.repo);
    ResolveMissed(t3, c);
    RunTwo(s, Begin(c, false), Cancel(c));
    RunTwo(t2, Fence(c), Resolve(c, []));
    RunConcat(s, [Begin(c, false), Cancel(c)], [Fence(c), Resolve(c, [])]);
    EraKept(s, c, con2, e);
    FinishedIsWorked(s, c, con4);
  }

  lemma EraKept(s: System, c: nat, con: Consumer, e: EventId)
    ensures EraOf(Shape(s, c, con, s.repo), e) == EraOf(s, e)
  {
  }

  lemma BeginStep(s: System, c: nat)
    requires StageOf(s, c) == Some(Boundary) && !ConsumerOf(s, c).cancelled && Head(s, c).tenantId != ""
    ensures Next(s, Begin(c, false)) == Shape(s, c, ConsumerOf(s, c).(stage := Fencing), s.repo)
  {
    NextIs(s, Begin(c, false));
    hide Next;
  }

  /** A cancelled consumer's event lookup fails, so the fence lets it pass. */
  lemma FenceMissed(t: System, c: nat)
    requires var con := ConsumerOf(t, c); con.todo != [] && con.stage == Fencing && con.cancelled
    ensures var con := ConsumerOf(t, c);
            Next(t, Fence(c)) == Shape(t, c, con.(stage := Resolving, era := EraOf(t, con.todo[0].eventId)), t.repo)
  {
    NextIs(t, Fence(c));
    hide Next;
  }

  lemma ResolveMissed(t: System, c: nat)
    requires var con := ConsumerOf(t, c); con.todo != [] && con.stage == Resolving && con.cancelled
    ensures Next(t, Resolve(c, [])) == Shape(t, c, ConsumerOf(t, c).(stage := Finishing(false)), t.repo)
  {
    NextIs(t, Resolve(c, []));
    hide Next, Lists;
  }

  lemma HaltedCases(r: Repo, r': Repo, msg: Message, maxRetries: int, trail: Trail)
    requires Halted(r, r', msg, maxRetries, trail)
    ensures msg.tenantId != "" && |trail.traces| <= |trail.active|
    ensures trail.active == [] ==> r' == r
    ensures trail.active != [] ==>
              && |trail.traces| < |trail.active| && !Fenced(r, msg.eventId) && Lists(r, msg.tenantId, trail.active)
              && Traced(trail.active[..|trail.traces|], trail.traces, maxRetries, msg.eventId)
              && CutOff(AfterAttempts(r, Flat(trail.traces)), r', trail.partial, trail.last, maxRetries, msg.eventId, trail.active[|trail.traces|])
  {
    hide CutOff, Traced, Lists;
  }

  lemma RoundIsHalted(t: System, c: nat, r': Repo, trail: Trail, maxRetries: int, lo: nat, hi: nat)
    requires AtRound(ConsumerOf(t, c), trail.active)
    requires HaltedAmong(t.repo, r', ConsumerOf(t, c).todo[0].eventId, maxRetries, trail)
    requires IdsBelow(t.repo, lo) && AscendingFrom(AttemptsOf(trail), lo, hi)
    ensures |trail.traces| <= |trail.active|
    ensures WorkedTo(t, Run(t, RoundSteps(c, trail.active, trail.traces, maxRetries) + CutOffSteps(c, trail.partial, trail.last, maxRetries)), c, r', true)
  {
    var con, n, e := ConsumerOf(t, c), |trail.traces|, ConsumerOf(t, c).todo[0].eventId;
    var r1, stored := AfterAttempts(t.repo, Flat(trail.traces)), e in t.repo.events;
    assert CutOff(r1, r', trail.partial, trail.last, maxRetries, e, trail.active[n]) && Traced(trail.active[..n], trail.traces, maxRetries, e);
    hide Run, Shape, ConsumerOf, WorkedTo, CutOff, Traced, AfterAttempts, AscendingFrom, IdsBelow, Flat, RoundSteps, CutOffSteps, AnyParses, HaltedAmong, Listed;
    ReadyForNext(t.repo, trail.active[..n], trail.traces, trail.partial + Listed(trail.last), maxRetries, e, lo, hi);
    RoundIsSteps(t, c, trail.active, trail.traces, maxRetries, lo, hi);
    var con1 := AfterEndpoints(con, n, stored);
    var t1 := Shape(t, c, con1, r1);
    ShapeTwice(t, c, con1, r1, con1, r1);
    CutOffIsSteps(t1, c, n, con1.stage.wrote, r', trail.partial, trail.last, maxRetries, NextId(Flat(trail.traces), lo), hi);
    RunConcat(t, RoundSteps(c, trail.active, trail.traces, maxRetries), CutOffSteps(c, trail.partial, trail.last, maxRetries));
    WorkedAlso(t, t1, Run(t1, CutOffSteps(c, trail.partial, trail.last, maxRetries)), c, con1, r1, r', true);
  }

  lemma HaltingIsSteps(s: System, c: nat, r': Repo, trail: Trail, maxRetries: int, lo: nat, hi: nat)
    requires StageOf(s, c) == Some(Boundary) && !ConsumerOf(s, c).cancelled
    requires Halted(s.repo, r', Head(s, c), maxRetries, trail)
    requires IdsBelow(s.repo, lo) && AscendingFrom(AttemptsOf(trail), lo, hi)
    ensures |trail.traces| <= |trail.active|
    ensures WorkedTo(s, Run(s, HaltSteps(c, Head(s, c), trail, maxRetries)), c, r', true)
  {
    var msg := Head(s, c);
    HaltedCases(s.repo, r', msg, maxRetries, trail);
    if trail.active == [] {
      LookupsCutShort(s, c);
    } else {
      assert HaltedAmong(s.repo, r', msg.eventId, maxRetries, trail);
      hide Run, Halted, HaltedAmong, Lists, AscendingFrom, IdsBelow, AttemptsOf, WorkedTo, ToFence,
        Fenced, ConsumerOf, Shape, RoundSteps, CutOffSteps, CutOff, Traced;
      ToRound(s, c, trail.active);
      var con1 := ConsumerOf(s, c).(stage := Calling(0, 1, false), eps := trail.active, era := EraOf(s, msg.eventId));
      var t := Shape(s, c, con1, s.repo);
      ShapeTwice(s, c, con1, s.repo, con1, s.repo);
      RoundIsHalted(t, c, r', trail, maxRetries, lo, hi);
      var round := RoundSteps(c, trail.active, trail.traces, maxRetries) + CutOffSteps(c, trail.partial, trail.last, maxRetries);
      RunConcat(s, ToFence(c, msg) + [Resolve(c, trail.active)], round);
      WorkedAlso(s, t, Run(t, round), c, con1, s.repo, r', true);
    }
  }

  // ---------------------------------------------------------------------------------------
  // Acknowledgement, and the pool's methods as runs
  // ---------------------------------------------------------------------------------------

  /** The consumer is done with its message; the entry is gone exactly if it was acknowledged. */
  predicate HandledTo(s: System, t: System, c: nat, r: Repo, acked: bool, cancelled: bool)
    requires StageOf(s, c).Some?
  {
    && t.repo == r && t.log == s.log && t.relays == s.relays && t.gen == s.gen && t.origins == s.origins && t.replays == s.replays
    && t.group == (if acked then Forget(s.group, [Head(s, c).id]) else s.group)
    && c in t.consumers && t.consumers[c].todo == ConsumerOf(s, c).todo[1..] && t.consumers[c].stage == Boundary && t.consumers[c].cancelled == cancelled
    && t.consumers.Keys == s.consumers.Keys + {c} && forall d <- s.consumers :: d == c || t.consumers[d] == s.consumers[d]
  }

  /** The acknowledgement arrives, is refused by the broker, or is stopped by a cancellation. */
  function AckSteps(c: nat, acked: bool, stopped: bool): seq<Action> {
    if stopped then [Cancel(c), Ack(c, false)] else [Ack(c, !acked)]
  }

  lemma AckStep(s: System, t: System, c: nat, r: Repo, acked: bool, cancelled: bool)
    requires StageOf(s, c).Some? && WorkedTo(s, t, c, r, cancelled) && (acked ==> !cancelled)
    ensures HandledTo(s, Next(t, Ack(c, !acked)), c, r, acked, cancelled)
    ensures cancelled ==> HandledTo(s, Next(t, Ack(c, false)), c, r, false, true)
  {
    NextIs(t, Ack(c, !acked));
    NextIs(t, Ack(c, false));
    hide Next, Forget;
  }

  lemma CancelledIsWorked(s: System, t: System, c: nat, r: Repo)
    requires WorkedTo(s, t, c, r, false)
    ensures WorkedTo(s, Next(t, Cancel(c)), c, r, true)
  {
  }

  /** Work that was not cancelled, and then its acknowledgement. */
  lemma AckIsSteps(s: System, c: nat, work: seq<Action>, r: Repo, acked: bool, cancelled: bool)
    requires StageOf(s, c).Some? && WorkedTo(s, Run(s, work), c, r, false) && (acked ==> !cancelled)
    ensures HandledTo(s, Run(s, work + AckSteps(c, acked, cancelled)), c, r, acked, cancelled)
  {
    hide Run, Next, WorkedTo, HandledTo;
    var t := Run(s, work);
    RunConcat(s, work, AckSteps(c, acked, cancelled));
    if cancelled {
      CancelledIsWorked(s, t, c, r);
      AckStep(s, Next(t, Cancel(c)), c, r, false, true);
      RunTwo(t, Cancel(c), Ack(c, false));
    } else {
      AckStep(s, t, c, r, acked, false);
      RunOne(t, Ack(c, !acked));
    }
  }

  ghost predicate OnlyBy(actions: seq<Action>, c: nat) {
    forall a <- actions :: ConsumerAction(a, c)
  }

  lemma {:induction false} TraceIsOnlyBy(c: nat, trace: seq<Attempt>, maxRetries: int)
    ensures OnlyBy(TraceSteps(c, trace, maxRetries), c)
  {
    if trace != [] {
      TraceIsOnlyBy(c, trace[..|trace| - 1], maxRetries);
    }
  }

  lemma {:induction false} RoundIsOnlyBy(c: nat, active: seq<Endpoint>, traces: seq<seq<Attempt>>, maxRetries: int)
    requires |traces| <= |active|
    ensures OnlyBy(RoundSteps(c, active, traces, maxRetries), c)
    decreases |traces|
  {
    if traces != [] {
      RoundIsOnlyBy(c, active, traces[..|traces| - 1], maxRetries);
      TraceIsOnlyBy(c, traces[|traces| - 1], maxRetries);
      hide TraceSteps;
    }
  }

  lemma WorkIsOnlyBy(r: Repo, c: nat, msg: Message, active: seq<Endpoint>, traces: seq<seq<Attempt>>, maxRetries: int)
    requires |traces| <= |active|
    ensures OnlyBy(WorkSteps(r, c, msg, active, traces, maxRetries), c)
  {
    hide RoundSteps, Fenced;
    RoundIsOnlyBy(c, active, traces, maxRetries);
  }

  lemma StopIsOnlyBy(c: nat, msg: Message, eps: seq<Endpoint>, last: Option<Attempt>, maxRetries: int)
    ensures OnlyBy(StopSteps(c, last, maxRetries), c) && OnlyBy(ToFence(c, msg), c) && OnlyBy([Resolve(c, eps)], c)
    ensures OnlyBy([Begin(c, false), Cancel(c)] + [Fence(c), Resolve(c, [])], c)
  {
  }

  lemma HaltIsOnlyBy(c: nat, msg: Message, trail: Trail, maxRetries: int)
    requires |trail.traces| <= |trail.active|
    ensures OnlyBy(HaltSteps(c, msg, trail, maxRetries), c)
  {
    hide RoundSteps, TraceSteps, StopSteps, ToFence, OnlyBy;
    RoundIsOnlyBy(c, trail.active, trail.traces, maxRetries);
    TraceIsOnlyBy(c, trail.partial, maxRetries);
    StopIsOnlyBy(c, msg, trail.active, trail.last, maxRetries);
    var round, cut := RoundSteps(c, trail.active, trail.traces, maxRetries), CutOffSteps(c, trail.partial, trail.last, maxRetries);
    OnlyByConcat(ToFence(c, msg), [Resolve(c, trail.active)], c);
    OnlyByConcat(TraceSteps(c, trail.partial, maxRetries), StopSteps(c, trail.last, maxRetries), c);
    OnlyByConcat(round, cut, c);
    OnlyByConcat(ToFence(c, msg) + [Resolve(c, trail.active)], round + cut, c);
  }

  lemma OnlyByConcat(a: seq<Action>, b: seq<Action>, c: nat)
    requires OnlyBy(a, c) && OnlyBy(b, c)
    ensures OnlyBy(a + b, c)
  {
  }

  lemma ProcessingIsARun(s: System, c: nat, r': Repo, trail: Trail, maxRetries: int, acked: bool, cancelled: bool, lo: nat, hi: nat)
    requires StageOf(s, c) == Some(Boundary) && !ConsumerOf(s, c).cancelled && (acked ==> !cancelled)
    requires Whole(trail) && Processed(s.repo, r', Head(s, c), maxRetries, trail.active, trail.traces)
    requires IdsBelow(s.repo, lo) && AscendingFrom(AttemptsOf(trail), lo, hi)
    ensures exists actions :: OnlyBy(actions, c) && HandledTo(s, Run(s, actions), c, r', acked, cancelled)
  {
    var msg := Head(s, c);
    WholeAttempts(trail);
    hide Run, Next, WorkedTo, HandledTo, Processed, IdsBelow, AscendingFrom, AttemptsOf, WorkSteps, AckSteps, ConsumerOf, Whole, OnlyBy;
    ProcessingIsSteps(s, c, r', trail.active, trail.traces, maxRetries, lo, hi);
    var work := WorkSteps(s.repo, c, msg, trail.active, trail.traces, maxRetries);
    WorkIsOnlyBy(s.repo, c, msg, trail.active, trail.traces, maxRetries);
    AckIsOnlyBy(c, acked, cancelled);
    AckIsSteps(s, c, work, r', acked, cancelled);
    OnlyByConcat(work, AckSteps(c, acked, cancelled), c);
  }

  lemma HaltingIsARun(s: System, c: nat, r': Repo, trail: Trail, maxRetries: int, lo: nat, hi: nat)
    requires StageOf(s, c) == Some(Boundary) && !ConsumerOf(s, c).cancelled
    requires Halted(s.repo, r', Head(s, c), maxRetries, trail)
    requires IdsBelow(s.repo, lo) && AscendingFrom(AttemptsOf(trail), lo, hi)
    ensures exists actions :: OnlyBy(actions, c) && HandledTo(s, Run(s, actions), c, r', false, true)
  {
    hide Run, Next, WorkedTo, HandledTo, Halted, IdsBelow, AscendingFrom, AttemptsOf, HaltSteps, ConsumerOf, OnlyBy;
    HaltingIsSteps(s, c, r', trail, maxRetries, lo, hi);
    var halt := HaltSteps(c, Head(s, c), trail, maxRetries);
    HaltIsOnlyBy(c, Head(s, c), trail, maxRetries);
    AckIsOnlyBy(c, false, true);
    AckStep(s, Run(s, halt), c, r', false, true);
    RunConcat(s, halt, [Ack(c, false)]);
    RunOne(Run(s, halt), Ack(c, false));
    OnlyByConcat(halt, [Ack(c, false)], c);
  }

  /** Refinement: whatever the pool does with a message, cancelled at any point or not, with any
      answers from endpoints and broker, is a run of that consumer's steps alone in the state
      machine, which ends with the same repository and pending entries. */
  lemma WorkingIsARun(s: System, c: nat, r': Repo, trail: Trail, maxRetries: int, acked: bool, cancelled: bool, lo: nat, hi: nat)
    requires StageOf(s, c) == Some(Boundary) && !ConsumerOf(s, c).cancelled
    requires WorkedOn(s.repo, r', Head(s, c), maxRetries, trail, cancelled) && (acked ==> !cancelled)
    requires IdsBelow(s.repo, lo) && AscendingFrom(AttemptsOf(trail), lo, hi)
    ensures exists actions :: OnlyBy(actions, c) && HandledTo(s, Run(s, actions), c, r', acked, cancelled)
  {
    hide Run, HandledTo, Processed, Halted, IdsBelow, AscendingFrom, AttemptsOf, ConsumerOf, Whole, OnlyBy;
    if Whole(trail) && Processed(s.repo, r', Head(s, c), maxRetries, trail.active, trail.traces) {
      ProcessingIsARun(s, c, r', trail, maxRetries, acked, cancelled, lo, hi);
    } else {
      HaltingIsARun(s, c, r', trail, maxRetries, lo, hi);
    }
  }

  lemma AckIsOnlyBy(c: nat, acked: bool, stopped: bool)
    ensures OnlyBy(AckSteps(c, acked, stopped), c) && OnlyBy([Ack(c, false)], c)
  {
  }

  lemma CeilingStep(s: System, c: nat)
    requires StageOf(s, c).Some? && !ConsumerOf(s, c).cancelled
    ensures WorkedTo(s, DoWriteCeiling(To(s, c, AtCeiling), c), c, UpdateEventStatus(s.repo, Head(s, c).eventId, DLQ).0, false)
  {
    hide UpdateEventStatus;
  }

  lemma CeilingLost(s: System, c: nat)
    requires StageOf(s, c).Some? && !ConsumerOf(s, c).cancelled
    ensures WorkedTo(s, DoWriteCeiling(Shape(s, c, ConsumerOf(s, c).(stage := AtCeiling, cancelled := true), s.repo), c), c, s.repo, true)
  {
  }

  /** The same for the reclaimer's step past the ceiling. */
  lemma GivingUpIsARun(s: System, c: nat, r': Repo, acked: bool, cancelled: bool)
    requires StageOf(s, c) == Some(Boundary) && !ConsumerOf(s, c).cancelled && (acked ==> !cancelled)
    requires r' == UpdateEventStatus(s.repo, Head(s, c).eventId, DLQ).0 || (cancelled && r' == s.repo)
    ensures exists actions :: OnlyBy(actions, c) && HandledTo(s, Run(s, actions), c, r', acked, cancelled)
  {
    hide Run, Next, UpdateEventStatus, WorkedTo, HandledTo, OnlyBy, DoWriteCeiling, AckSteps;
    NextIs(s, Begin(c, true));
    AckIsOnlyBy(c, acked, cancelled);
    CeilingIsOnlyBy(c);
    if r' == UpdateEventStatus(s.repo, Head(s, c).eventId, DLQ).0 {
      var work := [Begin(c, true), WriteCeiling(c)];
      RunTwo(s, Begin(c, true), WriteCeiling(c));
      NextIs(To(s, c, AtCeiling), WriteCeiling(c));
      CeilingStep(s, c);
      AckIsSteps(s, c, work, r', acked, cancelled);
      OnlyByConcat(work, AckSteps(c, acked, cancelled), c);
    } else {
      GivingUpStopped(s, c);
      OnlyByConcat([Begin(c, true), Cancel(c)], [WriteCeiling(c), Ack(c, false)], c);
    }
  }

  lemma CeilingIsOnlyBy(c: nat)
    ensures OnlyBy([Begin(c, true), WriteCeiling(c)], c) && OnlyBy([Begin(c, true), Cancel(c)], c) && OnlyBy([WriteCeiling(c), Ack(c, false)], c)
  {
  }

  lemma GivingUpStopped(s: System, c: nat)
    requires StageOf(s, c) == Some(Boundary) && !ConsumerOf(s, c).cancelled
    ensures HandledTo(s, Run(s, [Begin(c, true), Cancel(c)] + [WriteCeiling(c), Ack(c, false)]), c, s.repo, false, true)
  {
    hide Run, Next, WorkedTo, HandledTo, DoWriteCeiling;
    NextIs(s, Begin(c, true));
    var con := ConsumerOf(s, c).(stage := AtCeiling);
    var t1, t2 := Shape(s, c, con, s.repo), Shape(s, c, con.(cancelled := true), s.repo);
    ShapeTwice(s, c, con, s.repo, con.(cancelled := true), s.repo);
    CancelStep(t1, c);
    NextIs(t2, WriteCeiling(c));
    CeilingLost(s, c);
    RunTwo(s, Begin(c, true), Cancel(c));
    RunTwo(t2, WriteCeiling(c), Ack(c, false));
    AckStep(s, Next(t2, WriteCeiling(c)), c, s.repo, false, true);
    RunConcat(s, [Begin(c, true), Cancel(c)], [WriteCeiling(c), Ack(c, false)]);
  }
}
