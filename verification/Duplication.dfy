/** Bounded duplication: however many duplicate messages crashing relays publish, an event that
    is not delivered by two consumers at once gets one dispatch round per generation. */
module Duplication {
  import opened Domain
  import opened Storage
  import opened Queue
  import opened Delivery
  import opened Pipeline
  import opened PipelineInv
  import opened PipelineSteps

  /** Between the status fence and the end of the endpoint loop; a cancelled consumer that has
      not resolved its endpoints never gets to call one. */
  predicate Delivering(con: Consumer, e: EventId) {
    con.todo != [] && con.todo[0].eventId == e &&
    match con.stage
    case Resolving => !con.cancelled
    case Calling(_, _, _) => true
    case Answered(_, _, _, _) => true
    case Writing(_, _, _) => true
    case _ => false
  }

  ghost predicate Solo(s: System, e: EventId) {
    forall c, d | c in s.consumers && d in s.consumers ::
      Delivering(s.consumers[c], e) && Delivering(s.consumers[d], e) ==> c == d
  }

  /** Before no step of the run do two consumers deliver the event. */
  ghost predicate SoloRun(actions: seq<Action>, e: EventId) {
    actions != [] ==>
      var init := actions[..|actions| - 1];
      SoloRun(init, e) && Solo(Run(INITIAL, init), e)
  }

  /** Generation `era` of the event needs no more delivery. */
  predicate Over(r: Repo, gen: map<EventId, nat>, e: EventId, era: nat) {
    && era in r.outbox && r.outbox[era].eventId == e
    && e in r.events && e in gen && (r.events[e].status != Pending || gen[e] > era)
  }

  /** A consumer delivers a generation that no completed round has delivered. */
  ghost predicate FreshEra(r: Repo, gen: map<EventId, nat>, rounds: seq<Round>, e: EventId, con: Consumer) {
    Delivering(con, e) ==>
      && con.era in r.outbox && r.outbox[con.era].eventId == e
      && Round(e, con.era) !in rounds
      && (Wrote(con.stage) ==> Over(r, gen, e, con.era))
  }

  ghost predicate FreshEras(r: Repo, gen: map<EventId, nat>, rounds: seq<Round>, e: EventId, consumers: map<nat, Consumer>) {
    forall c <- consumers :: FreshEra(r, gen, rounds, e, consumers[c])
  }

  ghost predicate RoundsOver(r: Repo, gen: map<EventId, nat>, rounds: seq<Round>, e: EventId) {
    && (forall i | 0 <= i < |rounds| :: rounds[i].eventId == e ==> Over(r, gen, e, rounds[i].era))
    && (forall i, j | 0 <= i < j < |rounds| :: rounds[i].eventId == e ==> rounds[i] != rounds[j])
  }

  ghost predicate OncePerEra(s: System, e: EventId) {
    RoundsOver(s.repo, s.gen, s.rounds, e) && FreshEras(s.repo, s.gen, s.rounds, e, s.consumers)
  }

  // ---------------------------------------------------------------------------------------
  // Repository steps
  // ---------------------------------------------------------------------------------------

  lemma OverStays(r: Repo, gen: map<EventId, nat>, r': Repo, gen': map<EventId, nat>, e: EventId, era: nat)
    requires Advance(r, gen, r', gen') && RepoOk(r) && Over(r, gen, e, era)
    ensures Over(r', gen', e, era)
  {
  }

  lemma FreshEraStays(r: Repo, gen: map<EventId, nat>, r': Repo, gen': map<EventId, nat>, rounds: seq<Round>, e: EventId, con: Consumer)
    requires Advance(r, gen, r', gen') && RepoOk(r) && FreshEra(r, gen, rounds, e, con)
    ensures FreshEra(r', gen', rounds, e, con)
  {
    if Delivering(con, e) && Wrote(con.stage) {
      OverStays(r, gen, r', gen', e, con.era);
    }
    hide RepoOk, Wrote, Delivering;
  }

  lemma AdvanceKeepsOncePerEra(s: System, r': Repo, gen': map<EventId, nat>, e: EventId)
    requires Advance(s.repo, s.gen, r', gen') && RepoOk(s.repo) && OncePerEra(s, e)
    ensures RoundsOver(r', gen', s.rounds, e) && FreshEras(r', gen', s.rounds, e, s.consumers)
  {
    hide Advance, RepoOk, Over, FreshEra;
    forall i | 0 <= i < |s.rounds|
      ensures s.rounds[i].eventId == e ==> Over(r', gen', e, s.rounds[i].era)
    {
      if s.rounds[i].eventId == e {
        OverStays(s.repo, s.gen, r', gen', e, s.rounds[i].era);
      }
    }
    forall c <- s.consumers
      ensures FreshEra(r', gen', s.rounds, e, s.consumers[c])
    {
      FreshEraStays(s.repo, s.gen, r', gen', s.rounds, e, s.consumers[c]);
    }
  }

  lemma SameRepoAdvances(r: Repo, gen: map<EventId, nat>)
    requires GenOk(r, gen)
    ensures Advance(r, gen, r, gen)
  {
  }

  /** Every action advances the repository. */
  lemma NextAdvances(s: System, a: Action)
    requires Inv(s)
    ensures Advance(s.repo, s.gen, Next(s, a).repo, Next(s, a).gen)
  {
    hide Inv, Advance, CreateEventWithOutbox, ReplayDLQEvents, Hits, NewGen, UpdateEventStatus, RecordDeliveryAttempt,
      MarkOutboxPublished, Good, Classify, Wrote, HandedOut, Settled;
    InvIsGood(s);
    SameRepoAdvances(s.repo, s.gen);
    match a
    case Ingest(e) => if e.tenantId != "" { CreateAdvances(s.repo, s.gen, s.origins, e.(status := Pending)); }
    case Replay(tenantId, ids) => ReplayAdvances(s.repo, s.gen, s.origins, tenantId, ids);
    case SetEndpoints(endpoints) => SameEventsAdvance(s.repo, s.gen, s.origins, s.repo.(endpoints := endpoints));
    case Mark(r) => MarkStepAdvances(s, r);
    case Record(c, attemptId, maxRetries) => RecordStepAdvances(s, c, attemptId, maxRetries);
    case Write(c) => WriteStepAdvances(s, c);
    case WriteCeiling(c) =>
      if StageOf(s, c) == Some(AtCeiling) {
        UpdateAdvances(s.repo, s.gen, s.origins, Head(s, c).eventId, DLQ);
      }
    case _ => NoRepoStep(s, a);
  }

  predicate LeavesRepo(a: Action) {
    a.Fetch? || a.Publish? || a.CrashRelay? || a.Read? || a.Claim? || a.Begin? || a.Fence? || a.Resolve? || a.Call? || a.Ack? || a.Cancel? || a.Crash?
  }

  lemma RelayLeavesRepo(s: System, a: Action)
    requires a.Fetch? || a.Publish? || a.CrashRelay? || a.Cancel? || a.Crash?
    ensures Next(s, a).repo == s.repo && Next(s, a).gen == s.gen && Next(s, a).replays == s.replays
  {
    NextIs(s, a);
    hide PendingIds, MessageFor;
  }

  lemma BatchLeavesRepo(s: System, a: Action)
    requires a.Read? || a.Claim? || a.Ack?
    ensures Next(s, a).repo == s.repo && Next(s, a).gen == s.gen && Next(s, a).replays == s.replays
  {
    NextIs(s, a);
    hide Next, CursorOk, NextBatch, Deliver, ClaimChoice, Forget, Entries, Queue.Claim;
  }

  lemma BeginLeavesRepo(s: System, a: Action)
    requires a.Begin?
    ensures Next(s, a).repo == s.repo && Next(s, a).gen == s.gen && Next(s, a).replays == s.replays
  {
    NextIs(s, a);
    hide Next;
  }

  lemma FenceLeavesRepo(s: System, a: Action)
    requires a.Fence?
    ensures Next(s, a).repo == s.repo && Next(s, a).gen == s.gen && Next(s, a).replays == s.replays
  {
    NextIs(s, a);
    hide Next;
  }

  lemma ResolveLeavesRepo(s: System, a: Action)
    requires a.Resolve?
    ensures Next(s, a).repo == s.repo && Next(s, a).gen == s.gen && Next(s, a).replays == s.replays
  {
    NextIs(s, a);
    hide Next, Lists;
  }

  lemma CallLeavesRepo(s: System, a: Action)
    requires a.Call?
    ensures Next(s, a).repo == s.repo && Next(s, a).gen == s.gen && Next(s, a).replays == s.replays
  {
    NextIs(s, a);
    hide Next;
  }

  lemma NoRepoStep(s: System, a: Action)
    requires LeavesRepo(a)
    ensures Next(s, a).repo == s.repo && Next(s, a).gen == s.gen && Next(s, a).replays == s.replays
  {
    hide Next;
    if a.Read? || a.Claim? || a.Ack? {
      BatchLeavesRepo(s, a);
    } else if a.Begin? {
      BeginLeavesRepo(s, a);
    } else if a.Fence? {
      FenceLeavesRepo(s, a);
    } else if a.Resolve? {
      ResolveLeavesRepo(s, a);
    } else if a.Call? {
      CallLeavesRepo(s, a);
    } else {
      RelayLeavesRepo(s, a);
    }
  }

  lemma InvIsGood(s: System)
    requires Inv(s)
    ensures Good(s.repo, s.gen, s.origins) && RepoOk(s.repo) && GenOk(s.repo, s.gen)
  {
    hide RepoOk, GenOk, LogTraced, PelOk, PublishedOk, ConsumersOk, Covered, RelaysOk;
  }

  lemma MarkStepAdvances(s: System, r: nat)
    requires Inv(s)
    ensures Advance(s.repo, s.gen, DoMark(s, r).repo, DoMark(s, r).gen)
  {
    InvIsGood(s);
    RelayOfOk(s, r);
    hide Inv, Advance, MarkOutboxPublished, Good;
    SameRepoAdvances(s.repo, s.gen);
    if RelayOf(s, r).Marking? && RelayOf(s, r).todo != [] {
      MarkAdvances(s.repo, s.gen, s.origins, RelayOf(s, r).todo[0].id);
    }
  }

  lemma RecordStepAdvances(s: System, c: nat, attemptId: nat, maxRetries: int)
    requires Inv(s)
    ensures Advance(s.repo, s.gen, DoRecord(s, c, attemptId, maxRetries).repo, DoRecord(s, c, attemptId, maxRetries).gen)
  {
    hide Inv, Advance, DoRecord, Good;
    InvIsGood(s);
    SameRepoAdvances(s.repo, s.gen);
    RecordCases(s, c, attemptId, maxRetries);
    var con := ConsumerOf(s, c);
    if con.todo != [] && con.stage.Answered? && con.stage.k < |con.eps| && !con.cancelled {
      var stage, a :| DoRecord(s, c, attemptId, maxRetries) == To(s, c, stage).(repo := RecordDeliveryAttempt(s.repo, a).0);
      SameEventsAdvance(s.repo, s.gen, s.origins, RecordDeliveryAttempt(s.repo, a).0);
    }
  }

  lemma WriteStepAdvances(s: System, c: nat)
    requires Inv(s)
    ensures Advance(s.repo, s.gen, DoWrite(s, c).repo, DoWrite(s, c).gen)
  {
    hide Inv, Advance, DoWrite, UpdateEventStatus, Good;
    InvIsGood(s);
    SameRepoAdvances(s.repo, s.gen);
    WriteCases(s, c);
    var con := ConsumerOf(s, c);
    if con.todo != [] && con.stage.Writing? && !con.cancelled {
      UpdateAdvances(s.repo, s.gen, s.origins, con.todo[0].eventId, con.stage.verdict);
    }
  }

  // ---------------------------------------------------------------------------------------
  // Consumers
  // ---------------------------------------------------------------------------------------

  /** The consumer has stopped delivering the event, or goes on with the same generation and
      has written nothing new. */
  predicate Continues(con: Consumer, con': Consumer, e: EventId) {
    Delivering(con', e) ==> Delivering(con, e) && con'.era == con.era && (Wrote(con'.stage) ==> Wrote(con.stage))
  }

  predicate OneContinues(s: System, s': System, e: EventId) {
    && s'.rounds == s.rounds
    && (forall c <- s'.consumers :: Continues(ConsumerOf(s, c), s'.consumers[c], e))
  }

  lemma ContinuesIsReflexive(s: System, e: EventId)
    ensures OneContinues(s, s, e)
  {
  }

  lemma BatchStepsContinue(s: System, a: Action, e: EventId)
    requires a.Read? || a.Claim? || a.Cancel? || a.Crash?
    ensures OneContinues(s, Next(s, a), e)
  {
    hide CursorOk, NextBatch, Deliver, ClaimChoice, Entries, Wrote, Queue.Claim;
  }

  lemma BeginContinues(s: System, a: Action, e: EventId)
    requires a.Begin?
    ensures OneContinues(s, Next(s, a), e)
  {
    NextIs(s, a);
    hide Next, Wrote;
  }

  lemma CeilingContinues(s: System, a: Action, e: EventId)
    requires a.WriteCeiling?
    ensures OneContinues(s, Next(s, a), e)
  {
    NextIs(s, a);
    hide Next, UpdateEventStatus, Wrote;
  }

  lemma AckContinues(s: System, a: Action, e: EventId)
    requires a.Ack?
    ensures OneContinues(s, Next(s, a), e)
  {
    hide Forget, Wrote;
  }

  lemma OtherStepsContinue(s: System, a: Action, e: EventId)
    requires a.Ingest? || a.Replay? || a.SetEndpoints? || a.Fetch? || a.Publish? || a.Mark? || a.CrashRelay?
    ensures OneContinues(s, Next(s, a), e)
  {
    hide CreateEventWithOutbox, ReplayDLQEvents, Hits, NewGen, CountUp, MarkOutboxPublished, PendingIds, Wrote, Delivering;
  }

  lemma ResolveContinues(s: System, a: Action, e: EventId)
    requires a.Resolve?
    ensures OneContinues(s, Next(s, a), e)
  {
    hide Lists;
  }

  lemma CallContinues(s: System, c: nat, h: HttpResult, e: EventId)
    requires !Completes(s, c)
    ensures OneContinues(s, DoCall(s, c, h), e)
  {
  }

  lemma RecordContinues(s: System, c: nat, attemptId: nat, maxRetries: int, e: EventId)
    ensures OneContinues(s, DoRecord(s, c, attemptId, maxRetries), e)
  {
    RecordCases(s, c, attemptId, maxRetries);
    hide DoRecord, RecordDeliveryAttempt;
    ContinuesIsReflexive(s, e);
  }

  predicate Completes(s: System, c: nat) {
    var con := ConsumerOf(s, c);
    con.todo != [] && con.stage.Calling? && con.stage.k >= |con.eps| && con.stage.wrote
  }

  lemma ContinuingKeepsOncePerEra(s: System, a: Action, e: EventId)
    requires Inv(s) && OncePerEra(s, e) && OneContinues(s, Next(s, a), e)
    ensures OncePerEra(Next(s, a), e)
  {
    hide Inv, Next, Advance, RepoOk, GenOk, Delivering, Wrote, Over;
    var s' := Next(s, a);
    NextAdvances(s, a);
    InvIsGood(s);
    AdvanceKeepsOncePerEra(s, s'.repo, s'.gen, e);
    forall c <- s'.consumers
      ensures FreshEra(s'.repo, s'.gen, s'.rounds, e, s'.consumers[c])
    {
      if Delivering(s'.consumers[c], e) {
        NotDeliveringYet(s, c, e);
        assert FreshEra(s'.repo, s'.gen, s'.rounds, e, s.consumers[c]);
      }
    }
  }

  lemma NotDeliveringYet(s: System, c: nat, e: EventId)
    ensures c !in s.consumers ==> !Delivering(ConsumerOf(s, c), e)
  {
  }

  /** One consumer moved on; rounds and all other consumers stayed. */
  lemma MovedKeepsOncePerEra(s: System, s': System, c: nat, e: EventId)
    requires RepoOk(s.repo) && OncePerEra(s, e) && Advance(s.repo, s.gen, s'.repo, s'.gen)
    requires s'.rounds == s.rounds && c in s'.consumers && s'.consumers == s.consumers[c := s'.consumers[c]]
    requires FreshEra(s'.repo, s'.gen, s'.rounds, e, s'.consumers[c])
    ensures OncePerEra(s', e)
  {
    hide Advance, RepoOk, FreshEra, Over;
    AdvanceKeepsOncePerEra(s, s'.repo, s'.gen, e);
  }

  /** A generation found PENDING at the fence has no completed round yet. */
  lemma FenceKeepsOncePerEra(s: System, c: nat, e: EventId)
    requires Inv(s) && OncePerEra(s, e)
    ensures OncePerEra(DoFence(s, c), e)
  {
    hide DoFence, FreshEras, Advance, HandedOut, Inv, RoundsOver, GenOk;
    if StageOf(s, c) == Some(Fencing) {
      InvIsGood(s);
      HeadIsTraced(s, c);
      FenceCases(s, c, e);
      var s' := DoFence(s, c);
      if Delivering(s'.consumers[c], e) {
        PendingEraIsFresh(s.repo, s.gen, s.rounds, e);
      }
      SameRepoAdvances(s.repo, s.gen);
      MovedKeepsOncePerEra(s, s', c, e);
    } else {
      assert DoFence(s, c) == s by { FenceElsewhere(s, c); }
    }
  }

  lemma FenceElsewhere(s: System, c: nat)
    requires StageOf(s, c) != Some(Fencing)
    ensures DoFence(s, c) == s
  {
  }

  lemma PendingEraIsFresh(r: Repo, gen: map<EventId, nat>, rounds: seq<Round>, e: EventId)
    requires GenOk(r, gen) && RoundsOver(r, gen, rounds, e) && e in r.events && r.events[e].status == Pending
    ensures e in gen && gen[e] in r.outbox && r.outbox[gen[e]].eventId == e && Round(e, gen[e]) !in rounds
  {
  }

  lemma FenceCases(s: System, c: nat, e: EventId)
    requires RepoOk(s.repo) && StageOf(s, c) == Some(Fencing) && Head(s, c).eventId in s.repo.events && Head(s, c).eventId in s.gen
    ensures var s' := DoFence(s, c);
            && s'.rounds == s.rounds && s'.repo == s.repo && s'.gen == s.gen
            && c in s'.consumers && s'.consumers == s.consumers[c := s'.consumers[c]]
            && (Delivering(s'.consumers[c], e) ==>
                  s.repo.events[e].status == Pending && s'.consumers[c].era == s.gen[e] && !Wrote(s'.consumers[c].stage) && e == Head(s, c).eventId)
  {
    assert s.repo.events[Head(s, c).eventId].status != Failed;
    hide RepoOk;
  }

  lemma StatusWritten(r: Repo, gen: map<EventId, nat>, e: EventId, status: EventStatus, era: nat)
    requires era in r.outbox && r.outbox[era].eventId == e && e in r.events && e in gen && status != Pending
    ensures Over(UpdateEventStatus(r, e, status).0, gen, e, era)
  {
  }

  lemma WriteKeepsOncePerEra(s: System, c: nat, e: EventId)
    requires Inv(s) && OncePerEra(s, e)
    ensures OncePerEra(DoWrite(s, c), e)
  {
    hide Inv, DoWrite, UpdateEventStatus, RepoOk, GenOk, Good, Over, Advance, HandedOut;
    InvIsGood(s);
    WriteCases(s, c);
    WriteStepAdvances(s, c);
    var con := ConsumerOf(s, c);
    if con.todo != [] && con.stage.Writing? {
      HeadIsTraced(s, c);
      var s' := DoWrite(s, c);
      if con.cancelled {
        assert OneContinues(s, s', e);
        ContinuingKeepsOncePerEra(s, Write(c), e);
      } else {
        if con.todo[0].eventId == e {
          StatusWritten(s.repo, s.gen, e, con.stage.verdict, con.era);
        }
        MovedKeepsOncePerEra(s, s', c, e);
      }
    }
  }

  /** What completing a round does. */
  lemma CompletingCall(s: System, c: nat, h: HttpResult)
    requires Completes(s, c)
    ensures var con := ConsumerOf(s, c);
            DoCall(s, c, h) == To(s, c, Finishing(true)).(rounds := s.rounds + [Round(con.todo[0].eventId, con.era)])
  {
  }

  lemma RoundsGrow(r: Repo, gen: map<EventId, nat>, rounds: seq<Round>, e: EventId, rd: Round)
    requires RoundsOver(r, gen, rounds, e) && (rd.eventId == e ==> Over(r, gen, e, rd.era) && rd !in rounds)
    ensures RoundsOver(r, gen, rounds + [rd], e)
  {
    hide Over;
    forall i | 0 <= i < |rounds + [rd]|
      ensures (rounds + [rd])[i].eventId == e ==> Over(r, gen, e, (rounds + [rd])[i].era)
    {
      assert (rounds + [rd])[i] == if i < |rounds| then rounds[i] else rd;
    }
  }

  lemma CompleteKeepsOncePerEra(s: System, c: nat, h: HttpResult, e: EventId)
    requires OncePerEra(s, e) && Solo(s, e) && Completes(s, c)
    ensures OncePerEra(DoCall(s, c, h), e)
  {
    var con := ConsumerOf(s, c);
    assert c in s.consumers && Delivering(con, con.todo[0].eventId) && Wrote(con.stage);
    CompletingCall(s, c, h);
    hide DoCall, Over;
    var rd := Round(con.todo[0].eventId, con.era);
    RoundsGrow(s.repo, s.gen, s.rounds, e, rd);
    var s' := DoCall(s, c, h);
    forall d <- s'.consumers
      ensures FreshEra(s'.repo, s'.gen, s'.rounds, e, s'.consumers[d])
    {
      hide RoundsOver;
      if d != c {
        assert FreshEra(s.repo, s.gen, s.rounds, e, s.consumers[d]);
      }
    }
  }

  /** The fence, a status write and the end of a round aside, no action takes up the event. */
  lemma NextContinues(s: System, a: Action, e: EventId)
    requires !a.Fence? && !a.Write? && !(a.Call? && Completes(s, a.c))
    ensures OneContinues(s, Next(s, a), e)
  {
    hide *;
    if a.Record? {
      NextIs(s, a);
      RecordContinues(s, a.c, a.attemptId, a.maxRetries, e);
    } else if a.Call? {
      NextIs(s, a);
      CallContinues(s, a.c, a.h, e);
    } else if a.Resolve? {
      ResolveContinues(s, a, e);
    } else if a.Begin? {
      BeginContinues(s, a, e);
    } else if a.WriteCeiling? {
      CeilingContinues(s, a, e);
    } else if a.Ack? {
      AckContinues(s, a, e);
    } else if a.Ingest? || a.Replay? || a.SetEndpoints? || a.Fetch? || a.Publish? || a.Mark? || a.CrashRelay? {
      OtherStepsContinue(s, a, e);
    } else {
      BatchStepsContinue(s, a, e);
    }
  }

  lemma NextKeepsOncePerEra(s: System, a: Action, e: EventId)
    requires Inv(s) && OncePerEra(s, e) && Solo(s, e)
    ensures OncePerEra(Next(s, a), e)
  {
    hide *;
    if a.Fence? {
      NextIs(s, a);
      FenceKeepsOncePerEra(s, a.c, e);
    } else if a.Write? {
      NextIs(s, a);
      WriteKeepsOncePerEra(s, a.c, e);
    } else if a.Call? && Completes(s, a.c) {
      NextIs(s, a);
      CompleteKeepsOncePerEra(s, a.c, a.h, e);
    } else {
      NextContinues(s, a, e);
      ContinuingKeepsOncePerEra(s, a, e);
    }
  }

  lemma {:induction false} SoloRunIsOncePerEra(actions: seq<Action>, e: EventId)
    requires SoloRun(actions, e)
    ensures OncePerEra(Run(INITIAL, actions), e)
  {
    if actions != [] {
      var init, a := actions[..|actions| - 1], actions[|actions| - 1];
      SoloRunIsOncePerEra(init, e);
      hide Inv, Next, OncePerEra, Solo;
      ReachableInv(init);
      NextKeepsOncePerEra(Run(INITIAL, init), a, e);
    }
  }

  // ---------------------------------------------------------------------------------------
  // Generations and replays
  // ---------------------------------------------------------------------------------------

  /** An event has the record it was created with, and one more for each replay. */
  ghost predicate RecordsCounted(r: Repo, replays: map<EventId, nat>) {
    replays.Keys == r.events.Keys && forall e <- replays :: |OutboxOf(r, e)| == 1 + replays[e]
  }

  lemma CreatedIsCounted(r: Repo, r': Repo, replays: map<EventId, nat>, e: Event, o: nat)
    requires WellFormed(r) && RecordsCounted(r, replays) && Created(r, r', e, o)
    ensures RecordsCounted(r', replays[e.id := 0])
  {
    assert OutboxOf(r', e.id) == {o};
    assert forall x <- replays :: OutboxOf(r', x) == OutboxOf(r, x);
  }

  lemma HitGetsOneRecord(r: Repo, r': Repo, hits: seq<EventId>, i: nat)
    requires WellFormed(r) && RecordsFiled(r, r', hits) && Distinct(hits) && i < |hits|
    ensures |OutboxOf(r', hits[i])| == |OutboxOf(r, hits[i])| + 1
  {
    var o := r.nextOutboxID + 1 + i;
    assert r'.outbox[o].eventId == hits[i];
    forall p <- OutboxOf(r', hits[i])
      ensures p == o || p in OutboxOf(r, hits[i])
    {
      if p !in r.outbox {
        assert r'.outbox[p].eventId == hits[p - r.nextOutboxID - 1];
      }
    }
    assert OutboxOf(r', hits[i]) == OutboxOf(r, hits[i]) + {o};
  }

  lemma OtherEventGetsNone(r: Repo, r': Repo, hits: seq<EventId>, e: EventId)
    requires RecordsFiled(r, r', hits) && e !in hits
    ensures OutboxOf(r', e) == OutboxOf(r, e)
  {
    forall p: nat | r.nextOutboxID < p <= r'.nextOutboxID
      ensures r'.outbox[p].eventId in hits
    {
      assert r'.outbox[p].eventId == hits[p - r.nextOutboxID - 1];
    }
    assert OutboxOf(r', e) == OutboxOf(r, e);
  }

  lemma ReplayedIsCounted(r: Repo, r': Repo, replays: map<EventId, nat>, hits: seq<EventId>)
    requires WellFormed(r) && RecordsCounted(r, replays) && Replayed(r, r', hits) && Distinct(hits)
    ensures RecordsCounted(r', CountUp(replays, hits))
  {
    hide WellFormed, OutboxOf, RecordsFiled;
    forall e <- replays
      ensures |OutboxOf(r', e)| == 1 + CountUp(replays, hits)[e]
    {
      if e in hits {
        var i :| 0 <= i < |hits| && hits[i] == e;
        HitGetsOneRecord(r, r', hits, i);
      } else {
        OtherEventGetsNone(r, r', hits, e);
      }
    }
  }

  /** The other calls file no record and store no event. */
  ghost predicate SameRecords(r: Repo, r': Repo) {
    && r'.events.Keys == r.events.Keys && r'.outbox.Keys == r.outbox.Keys
    && forall o <- r.outbox :: r'.outbox[o].eventId == r.outbox[o].eventId
  }

  lemma SameRecordsCounted(r: Repo, r': Repo, replays: map<EventId, nat>)
    requires RecordsCounted(r, replays) && SameRecords(r, r')
    ensures RecordsCounted(r', replays)
  {
    assert forall e <- replays :: OutboxOf(r', e) == OutboxOf(r, e);
  }

  lemma OtherStepsFileNothing(s: System, a: Action)
    requires !a.Ingest? && !a.Replay?
    ensures SameRecords(s.repo, Next(s, a).repo) && Next(s, a).replays == s.replays
  {
    hide Next;
    if LeavesRepo(a) {
      NoRepoStep(s, a);
    } else if a.Record? {
      RecordFilesNothing(s, a);
    } else if a.Write? {
      WriteFilesNothing(s, a);
    } else {
      OtherWritesFileNothing(s, a);
    }
  }

  lemma RecordFilesNothing(s: System, a: Action)
    requires a.Record?
    ensures SameRecords(s.repo, Next(s, a).repo) && Next(s, a).replays == s.replays
  {
    NextIs(s, a);
    RecordCases(s, a.c, a.attemptId, a.maxRetries);
    hide Next, DoRecord;
  }

  lemma WriteFilesNothing(s: System, a: Action)
    requires a.Write?
    ensures SameRecords(s.repo, Next(s, a).repo) && Next(s, a).replays == s.replays
  {
  }

  lemma OtherWritesFileNothing(s: System, a: Action)
    requires a.Mark? || a.WriteCeiling? || a.SetEndpoints?
    ensures SameRecords(s.repo, Next(s, a).repo) && Next(s, a).replays == s.replays
  {
    NextIs(s, a);
    hide Next;
  }

  lemma IngestIsCounted(s: System, e: Event)
    requires WellFormed(s.repo) && RecordsCounted(s.repo, s.replays)
    ensures RecordsCounted(DoIngest(s, e).repo, DoIngest(s, e).replays)
  {
    var e0, ob := e.(status := Pending), OutboxRecord(0, e.id, OutboxPending);
    var (r', res) := CreateEventWithOutbox(s.repo, e0, ob);
    if res.Ok? {
      CreateIsAllOrNothing(s.repo, e0, ob);
      hide CreateEventWithOutbox, WellFormed, RecordsCounted, Created;
      CreatedIsCounted(s.repo, r', s.replays, e0, res.value);
    } else {
      assert SameRecords(s.repo, r');
      SameRecordsCounted(s.repo, r', s.replays);
    }
  }

  lemma ReplayIsCounted(s: System, tenantId: string, ids: seq<EventId>)
    requires WellFormed(s.repo) && RecordsCounted(s.repo, s.replays)
    ensures RecordsCounted(DoReplay(s, tenantId, ids).repo, DoReplay(s, tenantId, ids).replays)
  {
    ReplayConserves(s.repo, tenantId, ids);
    hide WellFormed, RecordsCounted, Replayed, ReplayDLQEvents, CountUp, NewGen;
    ReplayedIsCounted(s.repo, ReplayDLQEvents(s.repo, tenantId, ids).0, s.replays, Hits(s.repo, tenantId, ids));
  }

  lemma {:induction false} RunIsCounted(actions: seq<Action>)
    ensures var s := Run(INITIAL, actions); RecordsCounted(s.repo, s.replays)
  {
    if actions != [] {
      var init, a := actions[..|actions| - 1], actions[|actions| - 1];
      RunIsCounted(init);
      var s := Run(INITIAL, init);
      ReachableInv(init);
      assert WellFormed(s.repo) by { InvIsGood(s); }
      hide RecordsCounted, Inv, WellFormed, DoIngest, DoReplay, Run;
      assert Run(INITIAL, actions) == Next(s, a) by { RunSteps(init, a); assert actions == init + [a]; }
      match a
      case Ingest(e) => if e.tenantId != "" { IngestIsCounted(s, e); }
      case Replay(tenantId, ids) => ReplayIsCounted(s, tenantId, ids);
      case _ =>
        hide Next;
        OtherStepsFileNothing(s, a);
        SameRecordsCounted(s.repo, Next(s, a).repo, s.replays);
    }
  }

  lemma RunSteps(init: seq<Action>, a: Action)
    ensures Run(INITIAL, init + [a]) == Next(Run(INITIAL, init), a)
  {
    assert (init + [a])[..|init + [a]| - 1] == init;
  }

  // ---------------------------------------------------------------------------------------
  // The bound
  // ---------------------------------------------------------------------------------------

  /** The generations for which a dispatch round of the event was completed, in order. */
  function Eras(rounds: seq<Round>, e: EventId): (eras: seq<nat>)
    ensures forall g <- eras :: Round(e, g) in rounds
  {
    if rounds == [] then []
    else
      var rd := rounds[|rounds| - 1];
      Eras(rounds[..|rounds| - 1], e) + if rd.eventId == e then [rd.era] else []
  }

  lemma {:induction false} ErasAreDistinct(rounds: seq<Round>, e: EventId)
    requires forall i, j | 0 <= i < j < |rounds| :: rounds[i].eventId == e ==> rounds[i] != rounds[j]
    ensures Distinct(Eras(rounds, e))
  {
    if rounds != [] {
      ErasAreDistinct(rounds[..|rounds| - 1], e);
    }
  }

  lemma {:induction false} DistinctFitsIn(s: seq<nat>, bound: set<nat>)
    requires Distinct(s) && forall x <- s :: x in bound
    ensures |s| <= |bound|
  {
    if s != [] {
      var x := s[|s| - 1];
      DistinctFitsIn(s[..|s| - 1], bound - {x});
    }
  }

  /** On every run on which the event is never delivered by two consumers at once, whatever
      crashed and however many duplicates were published, at most one dispatch round was
      completed for its creation and one for each of its replays. */
  lemma BoundedDuplication(actions: seq<Action>, e: EventId)
    requires SoloRun(actions, e)
    ensures var s := Run(INITIAL, actions);
            e in s.repo.events ==> e in s.replays && |Eras(s.rounds, e)| <= 1 + s.replays[e]
    ensures var s := Run(INITIAL, actions); Eras(s.rounds, e) != [] ==> e in s.repo.events
  {
    SoloRunIsOncePerEra(actions, e);
    RunIsCounted(actions);
    hide *;
    ErasFitGenerations(Run(INITIAL, actions), e);
  }

  lemma ErasFitGenerations(s: System, e: EventId)
    requires OncePerEra(s, e) && RecordsCounted(s.repo, s.replays)
    ensures e in s.repo.events ==> e in s.replays && |Eras(s.rounds, e)| <= 1 + s.replays[e]
    ensures Eras(s.rounds, e) != [] ==> e in s.repo.events
  {
    hide FreshEras;
    ErasAreDistinct(s.rounds, e);
    forall g <- Eras(s.rounds, e)
      ensures g in OutboxOf(s.repo, e) && e in s.repo.events
    {
      assert Round(e, g) in s.rounds;
    }
    hide RoundsOver, Eras;
    DistinctFitsIn(Eras(s.rounds, e), OutboxOf(s.repo, e));
    assert Eras(s.rounds, e) != [] ==> Eras(s.rounds, e)[0] in Eras(s.rounds, e);
  }
}
