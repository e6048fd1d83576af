/** Zombie fencing: once an event is final and nobody is past the fence with it, no stale
    redelivery dispatches it again or changes its status. */
module Fencing {
  import opened Domain
  import opened Storage
  import opened Queue
  import opened Delivery
  import opened Pipeline
  import opened PipelineInv
  import opened PipelineSteps
  import opened Duplication

  predicate GivingUp(con: Consumer, e: EventId) {
    con.todo != [] && con.todo[0].eventId == e && con.stage.AtCeiling?
  }

  /** The event is final, and no consumer is between the fence and the end of its endpoints with
      it, or about to give it up. */
  ghost predicate FencedOff(s: System, e: EventId, status: EventStatus) {
    && (status == Delivered || status == DLQ) && e in s.repo.events && s.repo.events[e].status == status
    && forall c <- s.consumers :: !Delivering(s.consumers[c], e) && !GivingUp(s.consumers[c], e)
  }

  /** The steps that can undo a final status of the event on purpose: a live consumer that takes
      its message for one past the claim ceiling, and a replay by its tenant that lists it when
      it is a DLQ event. */
  predicate Overrides(s: System, a: Action, e: EventId, status: EventStatus) {
    match a
    case Begin(c, overCeiling) =>
      overCeiling && StageOf(s, c) == Some(Boundary) && Head(s, c).eventId == e && !ConsumerOf(s, c).cancelled
    case Replay(tenantId, ids) => status == DLQ && e in ids && e in s.repo.events && s.repo.events[e].tenantId == tenantId
    case _ => false
  }

  /** No step of the run undoes the event's status on purpose. */
  ghost predicate Spared(s: System, actions: seq<Action>, e: EventId, status: EventStatus) {
    actions != [] ==>
      var init := actions[..|actions| - 1];
      Spared(s, init, e, status) && !Overrides(Run(s, init), actions[|actions| - 1], e, status)
  }

  // ---------------------------------------------------------------------------------------
  // The event
  // ---------------------------------------------------------------------------------------

  predicate StatusIs(r: Repo, e: EventId, status: EventStatus) {
    e in r.events && r.events[e].status == status
  }

  lemma IngestKeepsStatus(s: System, ev: Event, e: EventId, status: EventStatus)
    requires StatusIs(s.repo, e, status)
    ensures StatusIs(DoIngest(s, ev).repo, e, status)
  {
  }

  lemma OtherStepsKeepStatus(s: System, a: Action, e: EventId, status: EventStatus)
    requires StatusIs(s.repo, e, status) && (a.SetEndpoints? || a.Mark? || a.Record? || LeavesRepo(a))
    ensures StatusIs(Next(s, a).repo, e, status)
  {
    hide Next;
    if LeavesRepo(a) {
      NoRepoStep(s, a);
    } else if a.Record? {
      NextIs(s, a);
      RecordCases(s, a.c, a.attemptId, a.maxRetries);
      hide DoRecord;
    } else {
      NextIs(s, a);
    }
  }

  lemma OutsideConsumers(s: System, c: nat, e: EventId, status: EventStatus)
    requires FencedOff(s, e, status)
    ensures !Delivering(ConsumerOf(s, c), e) && !GivingUp(ConsumerOf(s, c), e)
  {
  }

  /** The step overwrites the status of event `e` with another one. */
  predicate Overwrites(s: System, a: Action, e: EventId, status: EventStatus) {
    match a
    case Write(c) =>
      var con := ConsumerOf(s, c);
      con.todo != [] && con.todo[0].eventId == e && !con.cancelled && con.stage.Writing? && con.stage.verdict != status
    case WriteCeiling(c) => GivingUp(ConsumerOf(s, c), e) && !ConsumerOf(s, c).cancelled && status != DLQ
    case Replay(tenantId, ids) => status == DLQ && e in ids && e in s.repo.events && s.repo.events[e].tenantId == tenantId
    case _ => false
  }

  lemma WriteChangesIff(s: System, a: Action, e: EventId, status: EventStatus)
    requires StatusIs(s.repo, e, status) && (a.Write? || a.WriteCeiling?)
    ensures e in Next(s, a).repo.events && (!StatusIs(Next(s, a).repo, e, status) <==> Overwrites(s, a, e, status))
  {
    NextIs(s, a);
    hide Next;
  }

  lemma ReplayChangesIff(s: System, a: Action, e: EventId, status: EventStatus)
    requires WellFormed(s.repo) && StatusIs(s.repo, e, status) && (status == Delivered || status == DLQ) && a.Replay?
    ensures e in Next(s, a).repo.events && (!StatusIs(Next(s, a).repo, e, status) <==> Overwrites(s, a, e, status))
  {
    hide Hits, NewGen, CountUp, ReplayDLQEvents, WellFormed, RecordsFiled;
    ReplayConserves(s.repo, a.tenantId, a.eventIds);
    assert EventsReplayed(s.repo, Next(s, a).repo, Hits(s.repo, a.tenantId, a.eventIds));
  }

  /** A final status is not absorbing, and this is exactly when it changes: another consumer
      that was past the fence writes its own verdict, a claim past the ceiling gives the event
      up, or the event's tenant replays it from the DLQ. */
  lemma FinalStatusChangesIff(s: System, a: Action, e: EventId, status: EventStatus)
    requires WellFormed(s.repo) && StatusIs(s.repo, e, status) && (status == Delivered || status == DLQ)
    ensures e in Next(s, a).repo.events
    ensures Next(s, a).repo.events[e].status != status <==> Overwrites(s, a, e, status)
  {
    if a.Write? || a.WriteCeiling? {
      hide Next, Overwrites;
      WriteChangesIff(s, a, e, status);
    } else if a.Replay? {
      hide Next, Overwrites;
      ReplayChangesIff(s, a, e, status);
    } else if a.Ingest? {
      hide DoIngest;
      if a.event.tenantId != "" { IngestKeepsStatus(s, a.event, e, status); }
    } else {
      hide Next;
      OtherStepsKeepStatus(s, a, e, status);
    }
  }

  // ---------------------------------------------------------------------------------------
  // Consumers and rounds
  // ---------------------------------------------------------------------------------------

  ghost predicate NobodyDelivers(s: System, e: EventId) {
    forall c <- s.consumers :: !Delivering(s.consumers[c], e)
  }

  ghost predicate NobodyGivesUp(s: System, e: EventId) {
    forall c <- s.consumers :: !GivingUp(s.consumers[c], e)
  }

  lemma ContinuingKeepsNobody(s: System, s': System, e: EventId)
    requires NobodyDelivers(s, e) && OneContinues(s, s', e)
    ensures NobodyDelivers(s', e) && s'.rounds == s.rounds
  {
    hide Delivering;
    forall c <- s'.consumers
      ensures !Delivering(s'.consumers[c], e)
    {
      NotDeliveringYet(s, c, e);
    }
  }

  /** A live consumer that meets a final event at the fence skips it. */
  lemma FenceStopsFinal(s: System, c: nat, e: EventId, status: EventStatus)
    requires NobodyDelivers(s, e) && StatusIs(s.repo, e, status) && (status == Delivered || status == DLQ)
    ensures NobodyDelivers(DoFence(s, c), e) && DoFence(s, c).rounds == s.rounds
  {
  }

  lemma WriteKeepsNobody(s: System, c: nat, e: EventId)
    requires NobodyDelivers(s, e)
    ensures NobodyDelivers(DoWrite(s, c), e) && DoWrite(s, c).rounds == s.rounds
  {
    hide UpdateEventStatus;
  }

  lemma CompleteKeepsNobody(s: System, c: nat, h: HttpResult, e: EventId)
    requires NobodyDelivers(s, e) && Completes(s, c)
    ensures NobodyDelivers(DoCall(s, c, h), e) && Eras(DoCall(s, c, h).rounds, e) == Eras(s.rounds, e)
  {
    CompletingCall(s, c, h);
    var rd := Round(ConsumerOf(s, c).todo[0].eventId, ConsumerOf(s, c).era);
    assert (s.rounds + [rd])[..|s.rounds|] == s.rounds;
  }

  lemma NextKeepsNobody(s: System, a: Action, e: EventId, status: EventStatus)
    requires NobodyDelivers(s, e) && StatusIs(s.repo, e, status) && (status == Delivered || status == DLQ)
    ensures NobodyDelivers(Next(s, a), e) && Eras(Next(s, a).rounds, e) == Eras(s.rounds, e)
  {
    hide *;
    if a.Fence? {
      NextIs(s, a);
      FenceStopsFinal(s, a.c, e, status);
    } else if a.Write? {
      NextIs(s, a);
      WriteKeepsNobody(s, a.c, e);
    } else if a.Call? && Completes(s, a.c) {
      NextIs(s, a);
      CompleteKeepsNobody(s, a.c, a.h, e);
    } else {
      NextContinues(s, a, e);
      ContinuingKeepsNobody(s, Next(s, a), e);
    }
  }

  /** No consumer newly reaches the ceiling with the event. */
  predicate NoneGivesUpAnew(s: System, s': System, e: EventId) {
    forall c <- s'.consumers :: GivingUp(s'.consumers[c], e) ==> GivingUp(ConsumerOf(s, c), e)
  }

  lemma BatchStepsGiveNothingUp(s: System, a: Action, e: EventId)
    requires a.Read? || a.Claim? || a.Cancel? || a.Crash?
    ensures NoneGivesUpAnew(s, Next(s, a), e)
  {
    hide CursorOk, NextBatch, Deliver, ClaimChoice, Entries, Queue.Claim;
  }

  lemma BeginGivesNothingUp(s: System, a: Action, e: EventId, status: EventStatus)
    requires a.Begin? && !Overrides(s, a, e, status)
    ensures NoneGivesUpAnew(s, Next(s, a), e)
  {
    NextIs(s, a);
    hide Next;
  }

  lemma FenceGivesNothingUp(s: System, a: Action, e: EventId)
    requires a.Fence?
    ensures NoneGivesUpAnew(s, Next(s, a), e)
  {
    NextIs(s, a);
    hide Next;
  }

  lemma AckGivesNothingUp(s: System, a: Action, e: EventId)
    requires a.Ack?
    ensures NoneGivesUpAnew(s, Next(s, a), e)
  {
    NextIs(s, a);
    hide Next, Forget;
  }

  lemma CeilingGivesNothingUp(s: System, a: Action, e: EventId)
    requires a.WriteCeiling?
    ensures NoneGivesUpAnew(s, Next(s, a), e)
  {
    NextIs(s, a);
    hide Next, UpdateEventStatus;
  }

  lemma ResolveGivesNothingUp(s: System, a: Action, e: EventId)
    requires a.Resolve?
    ensures NoneGivesUpAnew(s, Next(s, a), e)
  {
    NextIs(s, a);
    hide Next, Lists;
  }

  lemma CallGivesNothingUp(s: System, a: Action, e: EventId)
    requires a.Call?
    ensures NoneGivesUpAnew(s, Next(s, a), e)
  {
    NextIs(s, a);
    hide Next;
  }

  lemma WriteGivesNothingUp(s: System, a: Action, e: EventId)
    requires a.Write?
    ensures NoneGivesUpAnew(s, Next(s, a), e)
  {
    NextIs(s, a);
    hide Next, UpdateEventStatus;
  }

  lemma RecordGivesNothingUp(s: System, a: Action, e: EventId)
    requires a.Record?
    ensures NoneGivesUpAnew(s, Next(s, a), e)
  {
    NextIs(s, a);
    hide Next, RecordDeliveryAttempt, AttemptFor, Classify;
  }

  lemma OtherStepsGiveNothingUp(s: System, a: Action, e: EventId)
    requires a.Ingest? || a.Replay? || a.SetEndpoints? || a.Fetch? || a.Publish? || a.Mark? || a.CrashRelay?
    ensures NoneGivesUpAnew(s, Next(s, a), e)
  {
    hide CreateEventWithOutbox, ReplayDLQEvents, Hits, NewGen, CountUp, MarkOutboxPublished, PendingIds, GivingUp;
  }

  lemma NextKeepsNobodyGivingUp(s: System, a: Action, e: EventId, status: EventStatus)
    requires NobodyGivesUp(s, e) && !Overrides(s, a, e, status)
    ensures NobodyGivesUp(Next(s, a), e)
  {
    hide Next;
    if a.Read? || a.Claim? || a.Cancel? || a.Crash? {
      BatchStepsGiveNothingUp(s, a, e);
    } else if a.Begin? {
      BeginGivesNothingUp(s, a, e, status);
    } else if a.Fence? {
      FenceGivesNothingUp(s, a, e);
    } else if a.Ack? {
      AckGivesNothingUp(s, a, e);
    } else if a.WriteCeiling? {
      CeilingGivesNothingUp(s, a, e);
    } else if a.Resolve? {
      ResolveGivesNothingUp(s, a, e);
    } else if a.Call? {
      CallGivesNothingUp(s, a, e);
    } else if a.Write? {
      WriteGivesNothingUp(s, a, e);
    } else if a.Record? {
      RecordGivesNothingUp(s, a, e);
    } else {
      OtherStepsGiveNothingUp(s, a, e);
    }
  }

  /** Nobody in a position to overwrite the status does, unless the step was meant to. */
  lemma FencedOffIsSpared(s: System, a: Action, e: EventId, status: EventStatus)
    requires FencedOff(s, e, status) && !Overrides(s, a, e, status)
    ensures !Overwrites(s, a, e, status)
  {
    if a.Write? || a.WriteCeiling? {
      OutsideConsumers(s, a.c, e, status);
    }
  }

  lemma NextStaysFenced(s: System, a: Action, e: EventId, status: EventStatus)
    requires Inv(s) && FencedOff(s, e, status) && !Overrides(s, a, e, status)
    ensures FencedOff(Next(s, a), e, status) && Eras(Next(s, a).rounds, e) == Eras(s.rounds, e)
  {
    assert NobodyDelivers(s, e) && NobodyGivesUp(s, e) && StatusIs(s.repo, e, status);
    assert WellFormed(s.repo) by { InvIsGood(s); }
    hide Inv, Next, Delivering, GivingUp, Eras, Overrides, Overwrites, WellFormed;
    FencedOffIsSpared(s, a, e, status);
    FinalStatusChangesIff(s, a, e, status);
    NextKeepsNobody(s, a, e, status);
    NextKeepsNobodyGivingUp(s, a, e, status);
  }

  lemma OverridingUnfences(s: System, a: Action, e: EventId, status: EventStatus)
    requires Inv(s) && FencedOff(s, e, status) && Overrides(s, a, e, status)
    ensures !FencedOff(Next(s, a), e, status)
  {
    if a.Begin? {
      hide Inv;
      NextIs(s, a);
      assert GivingUp(Next(s, a).consumers[a.c], e);
    } else {
      assert WellFormed(s.repo) by { InvIsGood(s); }
      hide Inv, Next, WellFormed;
      ReplayChangesIff(s, a, e, status);
    }
  }

  /** A final event that nobody is past the fence with stays so exactly unless a step undoes its
      status on purpose. */
  lemma StaysFencedIff(s: System, a: Action, e: EventId, status: EventStatus)
    requires Inv(s) && FencedOff(s, e, status)
    ensures FencedOff(Next(s, a), e, status) <==> !Overrides(s, a, e, status)
  {
    hide *;
    if Overrides(s, a, e, status) {
      OverridingUnfences(s, a, e, status);
    } else {
      NextStaysFenced(s, a, e, status);
    }
  }

  /** From every reachable state in which the event is final and fenced off, on every run without
      a claim of its own past the ceiling (and, for a DLQ event, without a replay of it), however
      many of its messages are still read, claimed and processed and whatever happens to other
      events: its status stays, no consumer gets past the fence with it, and no further dispatch
      round of it completes. */
  lemma {:induction false} FinalEventsStayFenced(s: System, actions: seq<Action>, e: EventId, status: EventStatus)
    requires Inv(s) && FencedOff(s, e, status) && Spared(s, actions, e, status)
    ensures var s' := Run(s, actions); FencedOff(s', e, status) && Eras(s'.rounds, e) == Eras(s.rounds, e)
  {
    if actions != [] {
      var init, a := actions[..|actions| - 1], actions[|actions| - 1];
      FinalEventsStayFenced(s, init, e, status);
      hide Inv, Next, FencedOff, Overrides, Eras;
      RunKeepsInv(s, init);
      NextStaysFenced(Run(s, init), a, e, status);
    }
  }

  ghost predicate FencedThroughout(s: System, actions: seq<Action>, e: EventId, status: EventStatus) {
    forall n | 0 <= n <= |actions| :: FencedOff(Run(s, actions[..n]), e, status)
  }

  lemma FencedOneMore(s: System, actions: seq<Action>, e: EventId, status: EventStatus)
    requires actions != []
    ensures FencedThroughout(s, actions, e, status) <==>
            FencedThroughout(s, actions[..|actions| - 1], e, status) && FencedOff(Run(s, actions), e, status)
  {
    hide Run, FencedOff, FencedThroughout;
    var init := actions[..|actions| - 1];
    assert actions[..|actions|] == actions;
    assert forall n | 0 <= n <= |init| :: init[..n] == actions[..n];
    FencedThroughoutIs(s, actions, e, status);
    FencedThroughoutIs(s, init, e, status);
    if FencedThroughout(s, init, e, status) && FencedOff(Run(s, actions), e, status) {
      forall n | 0 <= n <= |actions|
        ensures FencedOff(Run(s, actions[..n]), e, status)
      {
        assert n <= |init| ==> FencedOff(Run(s, init[..n]), e, status);
      }
    }
  }

  lemma FencedThroughoutIs(s: System, actions: seq<Action>, e: EventId, status: EventStatus)
    ensures FencedThroughout(s, actions, e, status) <==> forall n | 0 <= n <= |actions| :: FencedOff(Run(s, actions[..n]), e, status)
  {
  }

  /** No weaker assumption will do: such a run keeps the event fenced off throughout exactly if
      none of its steps undoes the status on purpose. */
  lemma {:induction false} FencedThroughoutIff(s: System, actions: seq<Action>, e: EventId, status: EventStatus)
    requires Inv(s) && FencedOff(s, e, status)
    ensures FencedThroughout(s, actions, e, status) <==> Spared(s, actions, e, status)
  {
    if actions != [] {
      var init, a := actions[..|actions| - 1], actions[|actions| - 1];
      FencedThroughoutIff(s, init, e, status);
      FencedOneMore(s, actions, e, status);
      hide Inv, Next, FencedOff, Overrides, Eras, FencedThroughout;
      if Spared(s, init, e, status) {
        FinalEventsStayFenced(s, init, e, status);
        RunKeepsInv(s, init);
        StaysFencedIff(Run(s, init), a, e, status);
      }
    }
  }
}
