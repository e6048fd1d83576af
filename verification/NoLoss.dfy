/** What the pipeline's invariant means for delivery: no PENDING event is without a carrier,
    unless its own tenant cannot be delivered to. */
module NoLoss {
  import opened Domain
  import opened Storage
  import opened Queue
  import opened Delivery
  import opened Pipeline
  import opened PipelineInv
  import opened PipelineSteps

  ghost predicate ByRecord(r: Repo, e: EventId) {
    exists o <- r.outbox :: r.outbox[o].status == OutboxPending && r.outbox[o].eventId == e
  }

  ghost predicate ByMessage(messages: seq<Message>, last: int, e: EventId) {
    exists i :: last < i < |messages| && 0 <= i && messages[i].eventId == e
  }

  ghost predicate ByEntry(g: Group, e: EventId) {
    exists id <- g.pending :: g.pending[id].msg.eventId == e
  }

  /** Something will still bring the event to a consumer: a PENDING outbox record, a message
      past the group cursor, or a pending entry. */
  ghost predicate Carried(r: Repo, messages: seq<Message>, g: Group, e: EventId) {
    ByRecord(r, e) || ByMessage(messages, g.lastDelivered, e) || ByEntry(g, e)
  }

  ghost predicate NothingLost(r: Repo, messages: seq<Message>, g: Group) {
    forall e <- r.events :: r.events[e].status == Pending ==> Carried(r, messages, g, e)
  }

  /** On every run, a PENDING event without a carrier had a message of its current generation
      acknowledged by a consumer that wrote no status. */
  lemma LostOnlyIfAbandoned(actions: seq<Action>, e: EventId)
    requires var s := Run(INITIAL, actions);
             e in s.repo.events && s.repo.events[e].status == Pending && !Carried(s.repo, s.log, s.group, e)
    ensures var s := Run(INITIAL, actions);
            exists i | 0 <= i < |s.log| :: s.log[i].eventId == e && i < |s.origins| && e in s.gen && s.origins[i] == s.gen[e] && s.log[i].id in s.abandoned
  {
    hide Run;
    ReachableInv(actions);
    var s := Run(INITIAL, actions);
    UncarriedIsAbandoned(s, e);
  }

  lemma UncarriedIsAbandoned(s: System, e: EventId)
    requires Inv(s) && e in s.repo.events && s.repo.events[e].status == Pending && !Carried(s.repo, s.log, s.group, e)
    ensures exists i | 0 <= i < |s.log| :: s.log[i].eventId == e && i < |s.origins| && e in s.gen && s.origins[i] == s.gen[e] && s.log[i].id in s.abandoned
  {
    hide ConsumersOk, RelaysOk;
    var g := s.gen[e];
    assert g in s.repo.outbox && s.repo.outbox[g].eventId == e;
    assert g in s.origins;
    var i :| 0 <= i < |s.origins| && s.origins[i] == g;
    assert s.log[i].eventId == e;
    assert !Settled(s.repo, s.gen, s.origins, s.log[i]);
    hide Settled, GenOk, RepoOk, PublishedOk, LogTraced;
    if s.log[i].id in s.group.pending {
      PendingMessageIsLogged(s, i);
    }
  }

  lemma PendingMessageIsLogged(s: System, i: nat)
    requires Inv(s) && i < |s.log| && s.log[i].id in s.group.pending
    ensures s.group.pending[s.log[i].id].msg == s.log[i]
  {
    hide ConsumersOk, RelaysOk, Covered, GenOk, RepoOk, PublishedOk;
    assert s.log[i].id.serial == i + 1;
  }

  /** At every crash point, each PUBLISHED record was itself published: the stream has a message
      for its event that came from this record. */
  lemma PublishedHasMessage(actions: seq<Action>, o: nat)
    requires o in Run(INITIAL, actions).repo.outbox && Run(INITIAL, actions).repo.outbox[o].status != OutboxPending
    ensures var s := Run(INITIAL, actions);
            |s.origins| == |s.log| && exists i | 0 <= i < |s.log| :: s.origins[i] == o && s.log[i].eventId == s.repo.outbox[o].eventId
  {
    hide Run, ConsumersOk, RelaysOk, Covered, GenOk, RepoOk, PelOk;
    ReachableInv(actions);
    var s := Run(INITIAL, actions);
    assert o in s.origins;
    var i :| 0 <= i < |s.origins| && s.origins[i] == o;
    assert s.log[i].eventId == s.repo.outbox[o].eventId;
  }

  // ---------------------------------------------------------------------------------------
  // Runs in which a tenant can be delivered to
  // ---------------------------------------------------------------------------------------

  /** If the tenant has events, it has an active endpoint that a request can be built for. */
  predicate ServiceableFor(r: Repo, tenantId: string) {
    forall e <- r.events :: r.events[e].tenantId == tenantId ==> Serviceable(ActiveEndpoints(r, tenantId))
  }

  /** A consumer with one of the tenant's messages in hand. */
  predicate WorksFor(con: Consumer, tenantId: string) {
    con.todo != [] && con.todo[0].tenantId == tenantId
  }

  ghost predicate ServedStepFor(s: System, a: Action, tenantId: string) {
    && ServiceableFor(s.repo, tenantId)
    && (a.Record? && WorksFor(ConsumerOf(s, a.c), tenantId) ==> a.attemptId !in s.repo.attempts)
  }

  /** At every step of the run the tenant can be delivered to. */
  ghost predicate ServedFor(actions: seq<Action>, tenantId: string) {
    actions != [] ==>
      var init := actions[..|actions| - 1];
      ServedFor(init, tenantId) && ServedStepFor(Run(INITIAL, init), actions[|actions| - 1], tenantId)
  }

  /** A live consumer that gets to the end of its endpoints will have written a status. */
  predicate WillWrite(con: Consumer) {
    match con.stage
    case Calling(k, _, wrote) => wrote || exists j | k <= j < |con.eps| :: con.eps[j].urlParses
    case Answered(k, _, _, _) => k < |con.eps| && con.eps[k].urlParses
    case Finishing(wrote) => wrote
    case _ => true
  }

  predicate DiligentConsumer(con: Consumer, tenantId: string) {
    WorksFor(con, tenantId) && !con.cancelled ==> WillWrite(con)
  }

  /** The messages acknowledged without a status write are other tenants'. */
  predicate OthersAbandoned(log: seq<Message>, abandoned: set<MessageId>, tenantId: string) {
    forall id <- abandoned :: 1 <= id.serial <= |log| && log[id.serial - 1].tenantId != tenantId
  }

  ghost predicate Diligent(s: System, tenantId: string) {
    && OthersAbandoned(s.log, s.abandoned, tenantId)
    && (forall c <- s.consumers :: DiligentConsumer(s.consumers[c], tenantId))
  }

  lemma ServiceableListed(r: Repo, tenantId: string, eps: seq<Endpoint>)
    requires Lists(r, tenantId, eps) && Serviceable(ActiveEndpoints(r, tenantId))
    ensures exists j | 0 <= j < |eps| :: eps[j].urlParses
  {
    hide ActiveEndpoints;
    var ep :| ep in ActiveEndpoints(r, tenantId) && ep.urlParses;
    assert ep in eps;
  }

  /** Steps that leave consumers' work on messages alone. */
  lemma OtherStepsStayDiligent(s: System, a: Action, tenantId: string)
    requires Diligent(s, tenantId)
    requires a.Ingest? || a.Replay? || a.SetEndpoints? || a.Fetch? || a.Publish? || a.Mark? || a.CrashRelay?
    ensures Diligent(Next(s, a), tenantId)
  {
    hide DiligentConsumer, CreateEventWithOutbox, ReplayDLQEvents, Hits, NewGen, CountUp;
  }

  lemma BatchStepsStayDiligent(s: System, a: Action, tenantId: string)
    requires Inv(s) && Diligent(s, tenantId) && (a.Read? || a.Claim? || a.Begin? || a.Cancel? || a.Crash?)
    ensures Diligent(Next(s, a), tenantId)
  {
    hide Inv, Deliver, NextBatch, Entries, Queue.Claim, OthersAbandoned;
    if a.Begin? && ConsumerOf(s, a.c).todo != [] {
      HeadIsTraced(s, a.c);
    }
  }

  lemma FenceStaysDiligent(s: System, a: Action, tenantId: string)
    requires Inv(s) && Diligent(s, tenantId) && ServedStepFor(s, a, tenantId) && (a.Fence? || a.Resolve?)
    ensures Diligent(Next(s, a), tenantId)
  {
    hide Inv, Lists, ActiveEndpoints, HandedOut, OthersAbandoned;
    if ConsumerOf(s, a.c).todo != [] {
      HeadIsTraced(s, a.c);
      var m := Head(s, a.c);
      TenantOfHead(s, a.c);
      if a.Resolve? && m.tenantId == tenantId && Lists(s.repo, tenantId, a.eps) {
        assert Serviceable(ActiveEndpoints(s.repo, tenantId));
        ServiceableListed(s.repo, tenantId, a.eps);
      }
    }
  }

  lemma TenantOfHead(s: System, c: nat)
    requires Inv(s) && ConsumerOf(s, c).todo != []
    ensures var m := ConsumerOf(s, c).todo[0]; m.eventId in s.repo.events && s.repo.events[m.eventId].tenantId == m.tenantId
  {
    hide ConsumersOk, RelaysOk, Covered, GenOk, RepoOk, PublishedOk, PelOk;
    HeadIsTraced(s, c);
  }

  lemma CallStaysDiligent(s: System, a: Action, tenantId: string)
    requires Diligent(s, tenantId) && a.Call?
    ensures Diligent(Next(s, a), tenantId)
  {
    NextIs(s, a);
    hide Next, OthersAbandoned;
    var con := ConsumerOf(s, a.c);
    if con.todo != [] && con.stage.Calling? {
      assert a.c in s.consumers;
    }
  }

  lemma RecordStaysDiligent(s: System, a: Action, tenantId: string)
    requires Diligent(s, tenantId) && ServedStepFor(s, a, tenantId) && a.Record?
    ensures Diligent(Next(s, a), tenantId)
  {
    NextIs(s, a);
    hide Next, Classify, ServiceableFor, OthersAbandoned;
    var con := ConsumerOf(s, a.c);
    if con.todo != [] && con.stage.Answered? {
      assert a.c in s.consumers;
    }
  }

  lemma WriteStaysDiligent(s: System, a: Action, tenantId: string)
    requires Inv(s) && Diligent(s, tenantId) && (a.Write? || a.WriteCeiling?)
    ensures Diligent(Next(s, a), tenantId)
  {
    hide Inv, HandedOut, OthersAbandoned;
    if ConsumerOf(s, a.c).todo != [] {
      assert a.c in s.consumers;
      HeadIsTraced(s, a.c);
    }
  }

  /** The message in hand is in the log under its serial. */
  lemma HeadIsLogged(s: System, c: nat)
    requires Inv(s) && ConsumerOf(s, c).todo != []
    ensures var m := ConsumerOf(s, c).todo[0]; 1 <= m.id.serial <= |s.log| && s.log[m.id.serial - 1] == m
  {
    HeadIsTraced(s, c);
    hide Inv;
  }

  lemma AckAbandonsOthers(s: System, a: Action, tenantId: string)
    requires Inv(s) && Diligent(s, tenantId) && a.Ack?
    ensures OthersAbandoned(Next(s, a).log, Next(s, a).abandoned, tenantId)
  {
    NextIs(s, a);
    hide Inv, Next, Forget;
    if ConsumerOf(s, a.c).todo != [] {
      HeadIsLogged(s, a.c);
      assert a.c in s.consumers && DiligentConsumer(s.consumers[a.c], tenantId);
    }
  }

  lemma AckStaysDiligent(s: System, a: Action, tenantId: string)
    requires Inv(s) && Diligent(s, tenantId) && a.Ack?
    ensures Diligent(Next(s, a), tenantId)
  {
    AckAbandonsOthers(s, a, tenantId);
    NextIs(s, a);
    hide Inv, Next, Forget, OthersAbandoned;
  }

  lemma StepStaysDiligent(s: System, a: Action, tenantId: string)
    requires Inv(s) && Diligent(s, tenantId) && ServedStepFor(s, a, tenantId)
    ensures Diligent(Next(s, a), tenantId)
  {
    hide Inv, Diligent, ServedStepFor, Next;
    match a
    case Read(_, _, _, _) => BatchStepsStayDiligent(s, a, tenantId);
    case Claim(_, _, _, _, _, _) => BatchStepsStayDiligent(s, a, tenantId);
    case Begin(_, _) => BatchStepsStayDiligent(s, a, tenantId);
    case Fence(_) => FenceStaysDiligent(s, a, tenantId);
    case Resolve(_, _) => FenceStaysDiligent(s, a, tenantId);
    case Call(_, _) => CallStaysDiligent(s, a, tenantId);
    case Record(_, _, _) => RecordStaysDiligent(s, a, tenantId);
    case Write(_) => WriteStaysDiligent(s, a, tenantId);
    case WriteCeiling(_) => WriteStaysDiligent(s, a, tenantId);
    case Ack(_, _) => AckStaysDiligent(s, a, tenantId);
    case Cancel(_) => BatchStepsStayDiligent(s, a, tenantId);
    case Crash(_) => BatchStepsStayDiligent(s, a, tenantId);
    case _ => OtherStepsStayDiligent(s, a, tenantId);
  }

  lemma {:induction false} ServedRunIsDiligent(actions: seq<Action>, tenantId: string)
    requires ServedFor(actions, tenantId)
    ensures Diligent(Run(INITIAL, actions), tenantId)
  {
    if actions != [] {
      var init, a := actions[..|actions| - 1], actions[|actions| - 1];
      ServedRunIsDiligent(init, tenantId);
      hide Inv, Next, Diligent, ServedStepFor;
      ReachableInv(init);
      StepStaysDiligent(Run(INITIAL, init), a, tenantId);
    }
  }

  /** No loss, tenant by tenant: in every state of every run in which the tenant has a deliverable
      endpoint and its messages get fresh attempt IDs, whatever interleaves, crashes, is cancelled
      or fails to ack, and whatever other tenants lack, every PENDING event of the tenant still
      has a carrier. */
  lemma NoEventOfTenantIsLost(actions: seq<Action>, tenantId: string, e: EventId)
    requires ServedFor(actions, tenantId)
    requires var r := Run(INITIAL, actions).repo; e in r.events && r.events[e].status == Pending && r.events[e].tenantId == tenantId
    ensures var s := Run(INITIAL, actions); Carried(s.repo, s.log, s.group, e)
  {
    ServedRunIsDiligent(actions, tenantId);
    hide Run, Carried, ServedFor;
    var s := Run(INITIAL, actions);
    if !Carried(s.repo, s.log, s.group, e) {
      LostOnlyIfAbandoned(actions, e);
      ReachableInv(actions);
      NotAbandoned(s, tenantId, e);
      assert false;
    }
  }

  lemma NotAbandoned(s: System, tenantId: string, e: EventId)
    requires Inv(s) && OthersAbandoned(s.log, s.abandoned, tenantId) && e in s.repo.events && s.repo.events[e].tenantId == tenantId
    ensures forall i | 0 <= i < |s.log| :: s.log[i].eventId == e ==> s.log[i].id !in s.abandoned
  {
    hide ConsumersOk, RelaysOk, Covered, GenOk, RepoOk, PublishedOk, PelOk;
  }

  // All tenants

  /** Every tenant with an event has an active endpoint that a request can be built for. */
  ghost predicate AllServiceable(r: Repo) {
    forall e <- r.events :: Serviceable(ActiveEndpoints(r, r.events[e].tenantId))
  }

  ghost predicate ServedStep(s: System, a: Action) {
    AllServiceable(s.repo) && (a.Record? ==> a.attemptId !in s.repo.attempts)
  }

  /** Every step of the run is a served one. */
  ghost predicate Served(actions: seq<Action>) {
    actions != [] ==>
      var init := actions[..|actions| - 1];
      Served(init) && ServedStep(Run(INITIAL, init), actions[|actions| - 1])
  }

  lemma {:induction false} ServedIsServedFor(actions: seq<Action>, tenantId: string)
    requires Served(actions)
    ensures ServedFor(actions, tenantId)
  {
    if actions != [] {
      hide Run, ActiveEndpoints;
      ServedIsServedFor(actions[..|actions| - 1], tenantId);
    }
  }

  /** So on runs that serve every tenant nothing at all is lost. */
  lemma NoPendingEventIsLost(actions: seq<Action>)
    requires Served(actions)
    ensures var s := Run(INITIAL, actions); NothingLost(s.repo, s.log, s.group)
  {
    hide Run, Carried, Served, ServedFor;
    var s := Run(INITIAL, actions);
    forall e <- s.repo.events
      ensures s.repo.events[e].status == Pending ==> Carried(s.repo, s.log, s.group, e)
    {
      ServedIsServedFor(actions, s.repo.events[e].tenantId);
      if s.repo.events[e].status == Pending {
        NoEventOfTenantIsLost(actions, s.repo.events[e].tenantId, e);
      }
    }
  }

  // ---------------------------------------------------------------------------------------
  // Cancellation
  // ---------------------------------------------------------------------------------------

  lemma CancelledBetweenMessages(s: System, a: Action, c: nat)
    requires ConsumerAction(a, c) && ConsumerOf(s, c).cancelled
    requires a.Read? || a.Claim? || a.Begin? || a.Fence? || a.Resolve? || a.Cancel?
    ensures var s' := Next(s, a); s'.repo == s.repo && s'.group == s.group && s'.log == s.log && ConsumerOf(s', c).cancelled
  {
    hide Deliver, NextBatch, Entries, Lists, CursorOk;
  }

  /** Once cancelled, a consumer changes neither an event nor the pending list, whatever it was
      doing and whatever its endpoint answers, and it stays cancelled. */
  lemma CancelledConsumerIsInert(s: System, a: Action, c: nat)
    requires ConsumerAction(a, c) && ConsumerOf(s, c).cancelled
    ensures var s' := Next(s, a); s'.repo == s.repo && s'.group == s.group && s'.log == s.log && ConsumerOf(s', c).cancelled
  {
    hide RecordDeliveryAttempt, UpdateEventStatus, Forget, DoRead, DoClaim, DoBegin, DoFence, DoResolve;
    if a.Read? || a.Claim? || a.Begin? || a.Fence? || a.Resolve? || a.Cancel? {
      CancelledBetweenMessages(s, a, c);
    }
  }

  lemma RoundStepsKeepGroup(s: System, a: Action)
    requires a.Begin? || a.Fence? || a.Resolve? || a.Call?
    ensures Next(s, a).group == s.group
  {
    NextIs(s, a);
    hide Next, Lists;
  }

  lemma WritesKeepGroup(s: System, a: Action)
    requires a.Record? || a.Write? || a.WriteCeiling?
    ensures Next(s, a).group == s.group
  {
    NextIs(s, a);
    hide Next, RecordDeliveryAttempt, UpdateEventStatus, AttemptFor, Classify;
  }

  lemma RelayStepsKeepGroup(s: System, a: Action)
    requires a.Ingest? || a.Replay? || a.SetEndpoints? || a.Fetch? || a.Publish? || a.Mark? || a.CrashRelay? || a.Cancel? || a.Crash?
    ensures Next(s, a).group == s.group
  {
    hide CreateEventWithOutbox, ReplayDLQEvents, Hits, NewGen, CountUp, MarkOutboxPublished, PendingIds;
  }

  lemma OtherStepsKeepGroup(s: System, a: Action)
    requires !a.Read? && !a.Claim? && !a.Ack?
    ensures Next(s, a).group == s.group
  {
    hide Next;
    if a.Begin? || a.Fence? || a.Resolve? || a.Call? {
      RoundStepsKeepGroup(s, a);
    } else if a.Record? || a.Write? || a.WriteCeiling? {
      WritesKeepGroup(s, a);
    } else {
      RelayStepsKeepGroup(s, a);
    }
  }

  /** A pending message leaves the list only when a consumer that was never cancelled finishes
      with it: processing cut short leaves it to be reclaimed. */
  lemma OnlyLiveConsumersAck(s: System, a: Action, id: MessageId)
    requires PelOk(s.log, s.group) && id in s.group.pending && id !in Next(s, a).group.pending
    ensures a.Ack? && !a.failed && !ConsumerOf(s, a.c).cancelled
            && ConsumerOf(s, a.c).todo != [] && ConsumerOf(s, a.c).todo[0].id == id && ConsumerOf(s, a.c).stage.Finishing?
  {
    hide HandedOut, Enroll;
    if a.Read? {
      EnrollAdds(s.group.pending, NextBatch(s.log, s.group, a.count), a.consumer, a.now);
    } else if !a.Claim? && !a.Ack? {
      hide *;
      OtherStepsKeepGroup(s, a);
    }
  }
}
