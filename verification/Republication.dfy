/** Duplicate messages: fetching does not lock a record, and a relay may die between publishing
    and marking it. Exactly when a relay publishes a record that already has a message. */
module Republication {
  import opened Domain
  import opened Storage
  import opened Queue
  import opened Delivery
  import opened Pipeline
  import opened PipelineInv
  import opened PipelineSteps
  import opened Duplication

  /** The record is in the outbox and no longer PENDING. */
  predicate PastPending(r: Repo, o: nat) {
    o in r.outbox && r.outbox[o].status != OutboxPending
  }

  /** Relay `x` has published the record and is about to mark it. */
  predicate Marks(s: System, x: nat, o: nat) {
    RelayOf(s, x).Marking? && RelayOf(s, x).todo != [] && RelayOf(s, x).todo[0].id == o
  }

  ghost predicate BeingMarked(s: System, o: nat) {
    exists x: nat :: Marks(s, x, o)
  }

  /** The step is the crash of a relay, or its call's failure, between publishing the record and
      marking it. */
  predicate LosesMark(s: System, a: Action, o: nat) {
    a.CrashRelay? && Marks(s, a.r, o)
  }

  ghost predicate MarkLost(actions: seq<Action>, o: nat) {
    actions != [] &&
    var init := actions[..|actions| - 1];
    MarkLost(init, o) || LosesMark(Run(INITIAL, init), actions[|actions| - 1], o)
  }

  // ---------------------------------------------------------------------------------------
  // Steps
  // ---------------------------------------------------------------------------------------

  /** Nothing about relays and published messages changes. */
  predicate SameRelays(s: System, s': System) {
    s'.relays == s.relays && s'.origins == s.origins
  }

  lemma WritesKeepRelays(s: System, a: Action)
    requires a.Ingest? || a.Replay? || a.SetEndpoints? || a.Write? || a.WriteCeiling? || a.Cancel? || a.Crash?
    ensures SameRelays(s, Next(s, a))
  {
    hide CreateEventWithOutbox, ReplayDLQEvents, Hits, NewGen, CountUp, UpdateEventStatus;
  }

  lemma BatchStepsKeepRelays(s: System, a: Action)
    requires a.Read? || a.Claim? || a.Begin? || a.Ack?
    ensures SameRelays(s, Next(s, a))
  {
    hide CursorOk, NextBatch, Deliver, ClaimChoice, Forget, Entries, Queue.Claim;
  }

  lemma RoundStepsKeepRelays(s: System, a: Action)
    requires a.Fence? || a.Resolve? || a.Call?
    ensures SameRelays(s, Next(s, a))
  {
    NextIs(s, a);
    hide Next, Lists;
  }

  lemma RecordKeepsRelays(s: System, a: Action)
    requires a.Record?
    ensures SameRelays(s, Next(s, a))
  {
    NextIs(s, a);
    RecordCases(s, a.c, a.attemptId, a.maxRetries);
    hide Next, DoRecord, RecordDeliveryAttempt;
  }

  predicate RelayStep(a: Action) {
    a.Fetch? || a.Publish? || a.Mark? || a.CrashRelay?
  }

  lemma OthersKeepRelays(s: System, a: Action)
    requires !RelayStep(a)
    ensures SameRelays(s, Next(s, a))
  {
    hide Next, SameRelays;
    if a.Read? || a.Claim? || a.Begin? || a.Ack? {
      BatchStepsKeepRelays(s, a);
    } else if a.Fence? || a.Resolve? || a.Call? {
      RoundStepsKeepRelays(s, a);
    } else if a.Record? {
      RecordKeepsRelays(s, a);
    } else {
      WritesKeepRelays(s, a);
    }
  }

  lemma CreationKeepsRecords(s: System, e: Event, o: nat)
    requires WellFormed(s.repo) && PastPending(s.repo, o)
    ensures PastPending(DoIngest(s, e).repo, o)
  {
  }

  lemma ReplayKeepsRecords(s: System, tenantId: string, ids: seq<EventId>, o: nat)
    requires WellFormed(s.repo) && PastPending(s.repo, o)
    ensures PastPending(DoReplay(s, tenantId, ids).repo, o)
  {
    ReplayConserves(s.repo, tenantId, ids);
    hide WellFormed, ReplayDLQEvents, EventsReplayed, Hits, CountUp, NewGen;
  }

  lemma FilingKeepsRecords(s: System, a: Action, o: nat)
    requires WellFormed(s.repo) && (a.Ingest? || a.Replay?) && PastPending(s.repo, o)
    ensures PastPending(Next(s, a).repo, o)
  {
    hide DoIngest, DoReplay, WellFormed, PastPending;
    if a.Replay? {
      ReplayKeepsRecords(s, a.tenantId, a.eventIds, o);
    } else if a.event.tenantId != "" {
      CreationKeepsRecords(s, a.event, o);
    }
  }

  lemma WritesKeepRecords(s: System, a: Action, o: nat)
    requires a.SetEndpoints? || a.Mark? || a.Record? || a.Write? || a.WriteCeiling?
    requires PastPending(s.repo, o)
    ensures PastPending(Next(s, a).repo, o)
  {
    NextIs(s, a);
    if a.Record? {
      RecordCases(s, a.c, a.attemptId, a.maxRetries);
    }
    hide Next, DoRecord;
  }

  /** A record never becomes PENDING again: a replay files a fresh one. */
  lemma StaysPastPending(s: System, a: Action, o: nat)
    requires Inv(s) && PastPending(s.repo, o)
    ensures PastPending(Next(s, a).repo, o)
  {
    assert WellFormed(s.repo) by { InvIsGood(s); }
    hide Inv, Next, WellFormed, PastPending;
    if a.Ingest? || a.Replay? {
      FilingKeepsRecords(s, a, o);
    } else if LeavesRepo(a) {
      NoRepoStep(s, a);
    } else {
      WritesKeepRecords(s, a, o);
    }
  }

  lemma MarkedIsPastPending(s: System, a: Action, o: nat)
    requires Inv(s) && a.Mark? && Marks(s, a.r, o)
    ensures PastPending(Next(s, a).repo, o)
  {
    hide Inv, Next;
    MarkedIsStored(s, a.r, o);
    NextIs(s, a);
    hide MarkOutboxPublished;
    MarkingIsPast(s.repo, o);
  }

  lemma MarkedIsStored(s: System, x: nat, o: nat)
    requires Inv(s) && Marks(s, x, o)
    ensures o in s.repo.outbox
  {
    RelayOfOk(s, x);
    hide Inv;
    assert RelayOf(s, x).todo[0] in RelayOf(s, x).todo;
  }

  lemma MarkingIsPast(r: Repo, o: nat)
    requires o in r.outbox
    ensures PastPending(MarkOutboxPublished(r, o).0, o)
  {
  }

  lemma PublishOrMarkIsByOne(s: System, a: Action, x: nat)
    requires a.Publish? || a.Mark?
    ensures a.r != x ==> RelayOf(Next(s, a), x) == RelayOf(s, x)
    ensures a.Publish? && a.r == x && RelayOf(s, x).Marking? ==> Next(s, a) == s
  {
    NextIs(s, a);
    hide Next, MessageFor, MarkOutboxPublished;
  }

  lemma FetchOrCrashIsByOne(s: System, a: Action, x: nat)
    requires a.Fetch? || a.CrashRelay?
    ensures a.r != x ==> RelayOf(Next(s, a), x) == RelayOf(s, x)
    ensures a.Fetch? && a.r == x && RelayOf(s, x).Marking? ==> Next(s, a) == s
  {
    hide DoIngest, DoReplay, DoPublish, DoMark, DoRead, DoClaim, DoBegin, DoFence, DoResolve, DoCall, DoRecord, DoWrite, DoWriteCeiling, DoAck, PendingIds;
  }

  /** What a relay's step does to the record that relay `x` is about to mark. */
  lemma RelayStepKeepsMark(s: System, a: Action, x: nat, o: nat)
    requires Inv(s) && RelayStep(a) && Marks(s, x, o) && !LosesMark(s, a, o)
    ensures Marks(Next(s, a), x, o) || PastPending(Next(s, a).repo, o)
  {
    hide Inv, Next, RelayOf, PastPending;
    if a.Mark? && a.r == x {
      MarkedIsPastPending(s, a, o);
    } else if a.Mark? || a.Publish? {
      PublishOrMarkIsByOne(s, a, x);
    } else {
      FetchOrCrashIsByOne(s, a, x);
    }
  }

  lemma OriginIsNew(s: System, a: Action, o: nat)
    requires o in Next(s, a).origins && o !in s.origins && RelayStep(a)
    ensures BeingMarked(Next(s, a), o)
  {
    NextIs(s, a);
    hide PendingIds, MessageFor;
    assert a.Publish?;
    assert Marks(Next(s, a), a.r, o);
  }

  lemma SameRelaysMark(s: System, s': System, x: nat, o: nat)
    requires SameRelays(s, s')
    ensures Marks(s', x, o) == Marks(s, x, o) && (o in s'.origins <==> o in s.origins)
  {
  }

  lemma NextAccounts(s: System, a: Action, o: nat)
    requires Inv(s) && (o in s.origins ==> PastPending(s.repo, o) || BeingMarked(s, o))
    ensures o in Next(s, a).origins ==> PastPending(Next(s, a).repo, o) || BeingMarked(Next(s, a), o) || LosesMark(s, a, o)
  {
    hide Inv, Next, PastPending, Marks;
    if PastPending(s.repo, o) {
      StaysPastPending(s, a, o);
    } else if o in s.origins {
      var x: nat :| Marks(s, x, o);
      if RelayStep(a) {
        if !LosesMark(s, a, o) {
          RelayStepKeepsMark(s, a, x, o);
        }
      } else {
        OthersKeepRelays(s, a);
        SameRelaysMark(s, Next(s, a), x, o);
      }
    } else if o in Next(s, a).origins {
      if RelayStep(a) {
        OriginIsNew(s, a, o);
      } else {
        OthersKeepRelays(s, a);
      }
    }
  }

  lemma OriginsGrow(s: System, a: Action, o: nat)
    requires o in s.origins
    ensures o in Next(s, a).origins
  {
    hide PastPending;
    if RelayStep(a) {
      NextIs(s, a);
      hide PendingIds, MessageFor, MarkOutboxPublished;
    } else {
      hide Next;
      OthersKeepRelays(s, a);
    }
  }

  // ---------------------------------------------------------------------------------------
  // Runs
  // ---------------------------------------------------------------------------------------

  lemma {:induction false} OriginsAreAccounted(actions: seq<Action>, o: nat)
    requires o in Run(INITIAL, actions).origins
    ensures var s := Run(INITIAL, actions); PastPending(s.repo, o) || BeingMarked(s, o) || MarkLost(actions, o)
  {
    if actions != [] {
      var init, a := actions[..|actions| - 1], actions[|actions| - 1];
      var s := Run(INITIAL, init);
      assert Run(INITIAL, actions) == Next(s, a);
      hide Inv, Next, PastPending, BeingMarked, LosesMark, Run;
      ReachableInv(init);
      if !MarkLost(init, o) {
        if o in s.origins {
          OriginsAreAccounted(init, o);
        }
        NextAccounts(s, a, o);
      }
    }
  }

  lemma MarkedWasPublished(s: System, x: nat, o: nat)
    requires Inv(s) && Marks(s, x, o)
    ensures o in s.origins
  {
    RelayOfOk(s, x);
  }

  lemma PastPendingWasPublished(s: System, o: nat)
    requires Inv(s) && PastPending(s.repo, o)
    ensures o in s.origins
  {
    hide RepoOk, GenOk, LogTraced, PelOk, ConsumersOk, Covered, RelaysOk;
  }

  lemma {:induction false} LostMarkWasPublished(actions: seq<Action>, o: nat)
    requires MarkLost(actions, o)
    ensures o in Run(INITIAL, actions).origins
  {
    var init, a := actions[..|actions| - 1], actions[|actions| - 1];
    var s := Run(INITIAL, init);
    if MarkLost(init, o) {
      LostMarkWasPublished(init, o);
    } else {
      hide Inv, Marks;
      ReachableInv(init);
      MarkedWasPublished(s, a.r, o);
    }
    hide Next;
    OriginsGrow(s, a, o);
  }

  /** On every run, the stream has a message from a record exactly if the record is past PENDING,
      or a relay is about to mark it, or one was and died. */
  lemma PublishedIff(actions: seq<Action>, o: nat)
    ensures var s := Run(INITIAL, actions);
            o in s.origins <==> PastPending(s.repo, o) || BeingMarked(s, o) || MarkLost(actions, o)
  {
    hide *;
    var s := Run(INITIAL, actions);
    ReachableInv(actions);
    if o in s.origins {
      OriginsAreAccounted(actions, o);
    }
    if PastPending(s.repo, o) {
      PastPendingWasPublished(s, o);
    }
    if MarkLost(actions, o) {
      LostMarkWasPublished(actions, o);
    }
    if BeingMarked(s, o) {
      SomeoneMarks(s, o);
      var x: nat :| Marks(s, x, o);
      MarkedWasPublished(s, x, o);
    }
  }

  lemma SomeoneMarks(s: System, o: nat)
    requires BeingMarked(s, o)
    ensures exists x: nat :: Marks(s, x, o)
  {
  }

  lemma PublishAdds(s: System, x: nat, millis: nat)
    requires Inv(s) && RelayOf(s, x).Publishing? && RelayOf(s, x).todo != []
    ensures var ob, s' := RelayOf(s, x).todo[0], Next(s, Publish(x, millis));
            && ob.id in s.repo.outbox && s'.origins == s.origins + [ob.id]
            && |s'.log| == |s.log| + 1 && s'.log[..|s.log|] == s.log && s'.log[|s.log|].eventId == ob.eventId
  {
    RelayOfOk(s, x);
    assert RelayOf(s, x).todo[0] in RelayOf(s, x).todo;
    NextIs(s, Publish(x, millis));
    hide Next, PelOk, PublishedOk, ConsumersOk, Covered, RelaysOk, LogTraced;
  }

  /** Exactly when a record is published again: on every run, a relay's next publication adds a
      message for its first record, and the stream already has one from that record if and only
      if the record is no longer PENDING, or some relay is about to mark it, or one was and died
      before it did. */
  lemma PublishesAgainIff(actions: seq<Action>, x: nat, millis: nat)
    requires var relay := RelayOf(Run(INITIAL, actions), x); relay.Publishing? && relay.todo != []
    ensures var s, s' := Run(INITIAL, actions), Run(INITIAL, actions + [Publish(x, millis)]);
            var ob := RelayOf(s, x).todo[0];
            && ob.id in s.repo.outbox && s'.origins == s.origins + [ob.id] && |s'.log| == |s.log| + 1 && s'.log[|s.log|].eventId == ob.eventId
            && (ob.id in s.origins <==> s.repo.outbox[ob.id].status != OutboxPending || BeingMarked(s, ob.id) || MarkLost(actions, ob.id))
  {
    hide Run, Inv, Next, BeingMarked, MarkLost;
    var s := Run(INITIAL, actions);
    ReachableInv(actions);
    PublishAdds(s, x, millis);
    PublishedIff(actions, s.relays[x].todo[0].id);
    RunConcat(INITIAL, actions, [Publish(x, millis)]);
    RunOne(s, Publish(x, millis));
  }

  /** So while no relay has died between publishing and marking the record, the state alone
      tells whether publishing it makes a duplicate. */
  lemma PublishesAgainWithoutCrashIff(actions: seq<Action>, x: nat)
    requires var relay := RelayOf(Run(INITIAL, actions), x); relay.Publishing? && relay.todo != [] && !MarkLost(actions, relay.todo[0].id)
    ensures var s := Run(INITIAL, actions);
            var o := RelayOf(s, x).todo[0].id;
            o in s.repo.outbox && (o in s.origins <==> s.repo.outbox[o].status != OutboxPending || BeingMarked(s, o))
  {
    hide *;
    PublishesAgainIff(actions, x, 0);
  }
}
