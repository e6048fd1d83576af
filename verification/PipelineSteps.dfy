/** Every action of the pipeline keeps the invariant, so it holds on every run; and how runs are
    put together from parts. */
module PipelineSteps {
  import opened Domain
  import opened Storage
  import opened Queue
  import opened Delivery
  import opened Pipeline
  import opened PipelineInv

  // ---------------------------------------------------------------------------------------
  // One component at a time
  // ---------------------------------------------------------------------------------------

  /** Which function takes each step. */
  lemma NextIs(s: System, a: Action)
    ensures a.Ingest? && a.event.tenantId != "" ==> Next(s, a) == DoIngest(s, a.event)
    ensures a.SetEndpoints? ==> Next(s, a) == s.(repo := s.repo.(endpoints := a.endpoints))
    ensures a.Publish? ==> Next(s, a) == DoPublish(s, a.r, a.millis)
    ensures a.Mark? ==> Next(s, a) == DoMark(s, a.r)
    ensures a.Begin? ==> Next(s, a) == DoBegin(s, a.c, a.overCeiling)
    ensures a.Fence? ==> Next(s, a) == DoFence(s, a.c)
    ensures a.Resolve? ==> Next(s, a) == DoResolve(s, a.c, a.eps)
    ensures a.Read? ==> Next(s, a) == DoRead(s, a.c, a.consumer, a.count, a.now)
    ensures a.Claim? ==> Next(s, a) == DoClaim(s, a.c, a.consumer, a.minIdle, a.count, a.now, a.ids)
    ensures a.Ack? ==> Next(s, a) == DoAck(s, a.c, a.failed)
    ensures a.WriteCeiling? ==> Next(s, a) == DoWriteCeiling(s, a.c)
    ensures a.Write? ==> Next(s, a) == DoWrite(s, a.c)
    ensures a.Call? ==> Next(s, a) == DoCall(s, a.c, a.h)
    ensures a.Record? ==> Next(s, a) == DoRecord(s, a.c, a.attemptId, a.maxRetries)
  {
    hide DoIngest, DoPublish, DoRead, DoClaim, DoAck, DoMark, DoBegin, DoFence, DoResolve, DoCall, DoRecord, DoWrite, DoWriteCeiling;
  }

  ghost predicate Fits(s: System, con: Consumer) {
    ConsumerOk(s.repo, s.gen, s.log, s.origins, s.group.lastDelivered, con)
  }

  lemma SetConsumerKeepsInv(s: System, c: nat, con: Consumer)
    requires Inv(s) && Fits(s, con)
    ensures Inv(SetConsumer(s, c, con))
  {
    hide RepoOk, GenOk, LogTraced, PelOk, PublishedOk, RelaysOk, Covered, ConsumerOk;
  }

  lemma ConsumerOfFits(s: System, c: nat)
    requires Inv(s)
    ensures Fits(s, ConsumerOf(s, c))
  {
    hide RepoOk, GenOk, LogTraced, PelOk, PublishedOk, RelaysOk, Covered, Settled;
  }

  /** Moving on without having written anything new. */
  lemma MoveKeepsInv(s: System, c: nat, con: Consumer)
    requires Inv(s) && ConsumerOf(s, c).todo != [] && con.todo == ConsumerOf(s, c).todo
    requires Wrote(con.stage) ==> Wrote(ConsumerOf(s, c).stage)
    requires con.stage.Writing? ==> con.stage.verdict == Delivered || con.stage.verdict == DLQ
    ensures Inv(SetConsumer(s, c, con))
  {
    ConsumerOfFits(s, c);
    assert Fits(s, con) by { hide Settled, HandedOut, Wrote; }
    hide Inv, ConsumerOk, Wrote;
    SetConsumerKeepsInv(s, c, con);
  }

  lemma SetRelayKeepsInv(s: System, r: nat, relay: Relay)
    requires Inv(s) && RelayOk(s.repo, s.origins, relay)
    ensures Inv(SetRelay(s, r, relay))
  {
    hide RepoOk, GenOk, LogTraced, PelOk, PublishedOk, ConsumersOk, Covered, RelayOk;
  }

  lemma RelayOfOk(s: System, r: nat)
    requires Inv(s)
    ensures RelayOk(s.repo, s.origins, RelayOf(s, r))
  {
    hide RepoOk, GenOk, LogTraced, PelOk, PublishedOk, ConsumersOk, Covered;
  }

  lemma HistoryKeepsInv(s: System, rounds: seq<Round>, replays: map<EventId, nat>)
    requires Inv(s)
    ensures Inv(s.(rounds := rounds, replays := replays))
  {
    hide RepoOk, GenOk, LogTraced, PelOk, PublishedOk, ConsumersOk, Covered, RelaysOk;
  }

  // ---------------------------------------------------------------------------------------
  // The log grows
  // ---------------------------------------------------------------------------------------

  lemma GrownLogKeepsConsumer(r: Repo, gen: map<EventId, nat>, log: seq<Message>, origins: seq<nat>, last: int, con: Consumer, m: Message, o: nat)
    requires ConsumerOk(r, gen, log, origins, last, con)
    ensures ConsumerOk(r, gen, log + [m], origins + [o], last, con)
  {
    hide Wrote;
    if con.todo != [] {
      assert con.todo[0] in con.todo;
    }
  }

  lemma GrownLogKeepsConsumers(r: Repo, gen: map<EventId, nat>, log: seq<Message>, origins: seq<nat>, last: int, consumers: map<nat, Consumer>, m: Message, o: nat)
    requires ConsumersOk(r, gen, log, origins, last, consumers)
    ensures ConsumersOk(r, gen, log + [m], origins + [o], last, consumers)
  {
    hide ConsumerOk;
    forall c <- consumers
      ensures ConsumerOk(r, gen, log + [m], origins + [o], last, consumers[c])
    {
      GrownLogKeepsConsumer(r, gen, log, origins, last, consumers[c], m, o);
    }
  }

  lemma GrownLogKeepsPel(log: seq<Message>, g: Group, m: Message)
    requires PelOk(log, g)
    ensures PelOk(log + [m], g)
  {
  }

  lemma GrownLogKeepsCovered(r: Repo, gen: map<EventId, nat>, log: seq<Message>, origins: seq<nat>, g: Group, abandoned: set<MessageId>, m: Message, o: nat)
    requires Covered(r, gen, log, origins, g, abandoned) && CursorOk(log, g) && |origins| == |log|
    ensures Covered(r, gen, log + [m], origins + [o], g, abandoned)
  {
    forall i | 0 <= i <= g.lastDelivered && i < |log + [m]|
      ensures var x := (log + [m])[i]; x.id in g.pending || x.id in abandoned || Settled(r, gen, origins + [o], x)
    {
      assert (log + [m])[i] == log[i];
    }
  }

  lemma GrownLogKeepsRelays(r: Repo, origins: seq<nat>, relays: map<nat, Relay>, o: nat)
    requires RelaysOk(r, origins, relays)
    ensures RelaysOk(r, origins + [o], relays)
  {
  }

  lemma AppendKeepsInv(s: System, m: Message, o: nat)
    requires Inv(s) && o in s.repo.outbox && s.repo.outbox[o].eventId == m.eventId && m.eventId in s.repo.events
    requires m.id.serial == |s.log| + 1 && m.tenantId == s.repo.events[m.eventId].tenantId
    ensures Inv(s.(log := s.log + [m], origins := s.origins + [o]))
  {
    GrownLogKeepsConsumers(s.repo, s.gen, s.log, s.origins, s.group.lastDelivered, s.consumers, m, o);
    GrownLogKeepsPel(s.log, s.group, m);
    GrownLogKeepsCovered(s.repo, s.gen, s.log, s.origins, s.group, s.abandoned, m, o);
    GrownLogKeepsRelays(s.repo, s.origins, s.relays, o);
    assert LogTraced(s.repo, s.log + [m], s.origins + [o]);
    assert PublishedOk(s.repo, s.origins + [o]);
    hide RepoOk, GenOk, LogTraced, PelOk, PublishedOk, ConsumersOk, Covered, RelaysOk;
  }

  /** The record a relay is about to publish exists, belongs to a stored event, and can be marked
      afterwards. */
  lemma FirstRecordIsStored(s: System, r: nat)
    requires Inv(s) && RelayOf(s, r).todo != []
    ensures var todo := RelayOf(s, r).todo;
            && todo[0].id in s.repo.outbox && s.repo.outbox[todo[0].id].eventId == todo[0].eventId
            && todo[0].eventId in s.repo.events && s.repo.events[todo[0].eventId].id == todo[0].eventId
            && RelayOk(s.repo, s.origins + [todo[0].id], Marking(todo))
  {
    RelayOfOk(s, r);
    assert RelayOf(s, r).todo[0] in RelayOf(s, r).todo;
    hide LogTraced, PelOk, PublishedOk, ConsumersOk, Covered, RelaysOk;
  }

  lemma PublishKeepsInv(s: System, r: nat, millis: nat)
    requires Inv(s)
    ensures Inv(DoPublish(s, r, millis))
  {
    hide Inv, RelayOk;
    var todo := RelayOf(s, r).todo;
    if RelayOf(s, r).Publishing? && todo != [] {
      var ob := todo[0];
      FirstRecordIsStored(s, r);
      var m := MessageFor(MessageId(millis, |s.log| + 1), s.repo.events[ob.eventId]);
      AppendKeepsInv(s, m, ob.id);
      SetRelayKeepsInv(s.(log := s.log + [m], origins := s.origins + [ob.id]), r, Marking(todo));
    }
  }

  // ---------------------------------------------------------------------------------------
  // The relay's other steps
  // ---------------------------------------------------------------------------------------

  lemma MarkKeepsInv(s: System, r: nat)
    requires Inv(s)
    ensures Inv(DoMark(s, r))
  {
    RelayOfOk(s, r);
    var todo := RelayOf(s, r).todo;
    if RelayOf(s, r).Marking? && todo != [] {
      assert RelayOk(s.repo, s.origins, Publishing(todo[1..]));
      var s1 := SetRelay(s, r, Publishing(todo[1..]));
      hide RelayOk, MarkOutboxPublished;
      SetRelayKeepsInv(s, r, Publishing(todo[1..]));
      MarkAdvances(s.repo, s.gen, s.origins, todo[0].id);
      hide Inv, GoodStep;
      AdvanceKeepsInv(s1, MarkOutboxPublished(s.repo, todo[0].id).0, s.gen);
    }
  }

  lemma FetchKeepsInv(s: System, r: nat, batch: seq<OutboxRecord>)
    requires Inv(s) && forall ob <- batch :: ob.id in PendingIds(s.repo) && s.repo.outbox[ob.id] == ob
    ensures Inv(SetRelay(s, r, Publishing(batch)))
  {
    assert RelayOk(s.repo, s.origins, Publishing(batch));
    hide Inv, RelayOk;
    SetRelayKeepsInv(s, r, Publishing(batch));
  }

  // ---------------------------------------------------------------------------------------
  // Reading, claiming, acknowledging
  // ---------------------------------------------------------------------------------------

  lemma DeliveredLater(r: Repo, gen: map<EventId, nat>, log: seq<Message>, origins: seq<nat>, last: int, last': int, consumers: map<nat, Consumer>)
    requires ConsumersOk(r, gen, log, origins, last, consumers) && last <= last'
    ensures ConsumersOk(r, gen, log, origins, last', consumers)
  {
    hide Settled, Wrote;
    forall c <- consumers
      ensures ConsumerOk(r, gen, log, origins, last', consumers[c])
    {
      assert ConsumerOk(r, gen, log, origins, last, consumers[c]);
    }
  }

  lemma NextBatchHandedOut(r: Repo, log: seq<Message>, origins: seq<nat>, g: Group, count: int)
    requires LogTraced(r, log, origins) && CursorOk(log, g)
    ensures forall m <- NextBatch(log, g, count) :: HandedOut(log, g.lastDelivered + |NextBatch(log, g, count)|, m)
  {
    var batch := NextBatch(log, g, count);
    forall m <- batch
      ensures HandedOut(log, g.lastDelivered + |batch|, m)
    {
      var j :| 0 <= j < |batch| && batch[j] == m;
      assert log[g.lastDelivered + 1 + j] == m;
    }
  }

  lemma EnrolledHandedOut(log: seq<Message>, last: int, pending: map<MessageId, PendingEntry>, batch: seq<Message>, consumer: string, now: int)
    requires forall m <- batch :: HandedOut(log, last, m)
    requires forall id <- pending :: pending[id].msg.id == id && HandedOut(log, last, pending[id].msg)
    ensures var p := Enroll(pending, batch, consumer, now); forall id <- p :: p[id].msg.id == id && HandedOut(log, last, p[id].msg)
  {
    EnrollAdds(pending, batch, consumer, now);
    hide HandedOut, Enroll;
  }

  lemma StaysHandedOut(log: seq<Message>, g: Group, last: int)
    requires PelOk(log, g) && g.lastDelivered <= last
    ensures forall id <- g.pending :: g.pending[id].msg.id == id && HandedOut(log, last, g.pending[id].msg)
  {
  }

  lemma DeliverMovesCursor(log: seq<Message>, g: Group, consumer: string, count: int, now: int)
    requires CursorOk(log, g)
    ensures var batch, g' := NextBatch(log, g, count), Deliver(log, g, consumer, count, now);
            CursorOk(log, g') && g'.lastDelivered == g.lastDelivered + |batch| && g'.pending == Enroll(g.pending, batch, consumer, now)
  {
    hide Enroll;
  }

  lemma DeliverKeepsPel(r: Repo, log: seq<Message>, origins: seq<nat>, g: Group, consumer: string, count: int, now: int)
    requires LogTraced(r, log, origins) && PelOk(log, g)
    ensures PelOk(log, Deliver(log, g, consumer, count, now))
  {
    hide LogTraced, Enroll, NextBatch, HandedOut, Deliver, CursorOk;
    var batch := NextBatch(log, g, count);
    DeliverMovesCursor(log, g, consumer, count, now);
    NextBatchHandedOut(r, log, origins, g, count);
    StaysHandedOut(log, g, g.lastDelivered + |batch|);
    EnrolledHandedOut(log, g.lastDelivered + |batch|, g.pending, batch, consumer, now);
  }

  lemma DeliverKeepsCovered(r: Repo, gen: map<EventId, nat>, log: seq<Message>, origins: seq<nat>, g: Group, abandoned: set<MessageId>,
                            consumer: string, count: int, now: int)
    requires CursorOk(log, g) && Covered(r, gen, log, origins, g, abandoned)
    ensures Covered(r, gen, log, origins, Deliver(log, g, consumer, count, now), abandoned)
  {
    var batch := NextBatch(log, g, count);
    EnrollAdds(g.pending, batch, consumer, now);
    hide Enroll, Settled;
    forall i | g.lastDelivered < i <= g.lastDelivered + |batch|
      ensures log[i].id in Ids(batch)
    {
      assert batch[i - g.lastDelivered - 1] == log[i];
    }
  }

  lemma ReadKeepsInv(s: System, c: nat, consumer: string, count: int, now: int)
    requires Inv(s)
    ensures Inv(DoRead(s, c, consumer, count, now))
  {
    var con := ConsumerOf(s, c);
    if con.todo == [] && !con.cancelled && CursorOk(s.log, s.group) {
      var g := Deliver(s.log, s.group, consumer, count, now);
      NextBatchHandedOut(s.repo, s.log, s.origins, s.group, count);
      DeliverKeepsPel(s.repo, s.log, s.origins, s.group, consumer, count, now);
      DeliverKeepsCovered(s.repo, s.gen, s.log, s.origins, s.group, s.abandoned, consumer, count, now);
      assert g.lastDelivered == s.group.lastDelivered + |NextBatch(s.log, s.group, count)|;
      hide Deliver, NextBatch;
      DeliveredLater(s.repo, s.gen, s.log, s.origins, s.group.lastDelivered, g.lastDelivered, s.consumers);
      hide RepoOk, GenOk, LogTraced, PelOk, PublishedOk, ConsumersOk, Covered, RelaysOk, HandedOut, Settled;
      var s1 := s.(group := g);
      var con' := con.(todo := NextBatch(s.log, s.group, count), stage := Boundary);
      assert Inv(s1);
      hide Inv;
      assert Fits(s1, con');
      hide Fits;
      SetConsumerKeepsInv(s1, c, con');
    }
  }

  lemma ClaimKeepsPel(log: seq<Message>, g: Group, ids: seq<MessageId>, consumer: string, now: int)
    requires PelOk(log, g)
    ensures PelOk(log, Queue.Claim(g, ids, consumer, now))
  {
    hide HandedOut;
  }

  lemma ClaimKeepsInv(s: System, c: nat, consumer: string, minIdle: int, count: int, now: int, ids: seq<MessageId>)
    requires Inv(s)
    ensures Inv(DoClaim(s, c, consumer, minIdle, count, now, ids))
  {
    var con := ConsumerOf(s, c);
    if con.todo == [] && !con.cancelled && ClaimChoice(s.group, minIdle, count, now, ids) {
      var g := Queue.Claim(s.group, ids, consumer, now);
      ClaimKeepsPel(s.log, s.group, ids, consumer, now);
      assert Covered(s.repo, s.gen, s.log, s.origins, g, s.abandoned) by { hide Settled; }
      var s1 := s.(group := g);
      var con' := con.(todo := Entries(s.group, ids), stage := Boundary);
      assert Fits(s1, con') by {
        hide Settled;
        forall m <- con'.todo
          ensures HandedOut(s.log, s.group.lastDelivered, m)
        {
          var j :| 0 <= j < |ids| && con'.todo[j] == m;
          assert ids[j] in ids;
        }
      }
      assert Inv(s1) by { hide RepoOk, GenOk, LogTraced, PelOk, PublishedOk, ConsumersOk, Covered, RelaysOk; }
      hide Inv, Fits;
      SetConsumerKeepsInv(s1, c, con');
    }
  }

  lemma ForgetKeepsPel(log: seq<Message>, g: Group, ids: seq<MessageId>)
    requires PelOk(log, g)
    ensures PelOk(log, Forget(g, ids))
  {
    hide HandedOut;
  }

  /** Dropping a message's pending entry is covered if it is settled or noted as abandoned. */
  lemma ForgetKeepsCovered(r: Repo, gen: map<EventId, nat>, log: seq<Message>, origins: seq<nat>, g: Group, abandoned: set<MessageId>, m: Message, wrote: bool)
    requires LogTraced(r, log, origins) && Covered(r, gen, log, origins, g, abandoned) && HandedOut(log, g.lastDelivered, m)
    requires wrote ==> Settled(r, gen, origins, m)
    ensures Covered(r, gen, log, origins, Forget(g, [m.id]), if wrote then abandoned else abandoned + {m.id})
  {
    hide Settled;
    forall i | 0 <= i < |log| && log[i].id == m.id
      ensures log[i] == m
    {
      assert log[i].id.serial == i + 1;
    }
  }

  lemma AckKeepsInv(s: System, c: nat, failed: bool)
    requires Inv(s)
    ensures Inv(DoAck(s, c, failed))
  {
    ConsumerOfFits(s, c);
    var con := ConsumerOf(s, c);
    if con.todo != [] && con.stage.Finishing? {
      var m := con.todo[0];
      var con' := con.(todo := con.todo[1..], stage := Boundary);
      assert m in con.todo && Fits(s, con');
      SetConsumerKeepsInv(s, c, con');
      if !failed && !con.cancelled {
        var abandoned := if con.stage.wrote then s.abandoned else s.abandoned + {m.id};
        ForgetKeepsPel(s.log, s.group, [m.id]);
        ForgetKeepsCovered(s.repo, s.gen, s.log, s.origins, s.group, s.abandoned, m, con.stage.wrote);
        hide RepoOk, GenOk, LogTraced, PelOk, PublishedOk, ConsumersOk, Covered, RelaysOk, ConsumerOk, Fits;
      }
    }
  }

  // ---------------------------------------------------------------------------------------
  // Processing a message
  // ---------------------------------------------------------------------------------------

  /** The message in hand is one of the log's, and its event is stored. */
  lemma HeadIsTraced(s: System, c: nat)
    requires Inv(s) && ConsumerOf(s, c).todo != []
    ensures var m := ConsumerOf(s, c).todo[0];
            && HandedOut(s.log, s.group.lastDelivered, m)
            && m.eventId in s.repo.events && m.eventId in s.gen && m.tenantId != "" && 1 <= m.id.serial <= |s.origins|
  {
    ConsumerOfFits(s, c);
    assert ConsumerOf(s, c).todo[0] in ConsumerOf(s, c).todo;
    hide PelOk, PublishedOk, ConsumersOk, Covered, RelaysOk;
  }

  lemma BeginKeepsInv(s: System, c: nat, overCeiling: bool)
    requires Inv(s)
    ensures Inv(DoBegin(s, c, overCeiling))
  {
    var con := ConsumerOf(s, c);
    if StageOf(s, c) == Some(Boundary) {
      assert Fits(s, con.(todo := [])) by { hide Inv; }
      hide Inv, Fits;
      SetConsumerKeepsInv(s, c, con.(todo := []));
      MoveKeepsInv(s, c, con.(stage := AtCeiling));
      MoveKeepsInv(s, c, con.(stage := Finishing(false)));
      MoveKeepsInv(s, c, con.(stage := Fencing));
    }
  }

  /** A message whose event is past PENDING has been settled by somebody. */
  lemma SkippingFits(s: System, c: nat)
    requires Inv(s) && StageOf(s, c) == Some(Fencing)
    requires Head(s, c).eventId in s.repo.events && s.repo.events[Head(s, c).eventId].status != Pending
    ensures Fits(s, ConsumerOf(s, c).(stage := Finishing(true)))
  {
    HeadIsTraced(s, c);
    ConsumerOfFits(s, c);
    hide Inv, HandedOut;
  }

  lemma FenceKeepsInv(s: System, c: nat)
    requires Inv(s)
    ensures Inv(DoFence(s, c))
  {
    hide Inv, Fits, HandedOut;
    var con := ConsumerOf(s, c);
    if StageOf(s, c) == Some(Fencing) {
      HeadIsTraced(s, c);
      var e := con.todo[0].eventId;
      if s.repo.events[e].status != Pending {
        SkippingFits(s, c);
        SetConsumerKeepsInv(s, c, con.(stage := Finishing(true)));
      }
      MoveKeepsInv(s, c, con.(stage := Resolving, era := s.gen[e]));
    }
  }

  lemma ResolveKeepsInv(s: System, c: nat, eps: seq<Endpoint>)
    requires Inv(s)
    ensures Inv(DoResolve(s, c, eps))
  {
    if StageOf(s, c) == Some(Resolving) {
      hide Inv;
      MoveKeepsInv(s, c, ConsumerOf(s, c).(stage := Finishing(false)));
      MoveKeepsInv(s, c, ConsumerOf(s, c).(stage := Calling(0, 1, false), eps := eps));
    }
  }

  lemma CompleteKeepsInv(s: System, c: nat, wrote: bool, rounds: seq<Round>)
    requires Inv(s) && ConsumerOf(s, c).todo != [] && wrote == Wrote(ConsumerOf(s, c).stage)
    ensures Inv(To(s, c, Finishing(wrote)).(rounds := rounds))
  {
    hide Inv;
    MoveKeepsInv(s, c, ConsumerOf(s, c).(stage := Finishing(wrote)));
    var s1 := To(s, c, Finishing(wrote));
    HistoryKeepsInv(s1, rounds, s1.replays);
    assert s1.(rounds := rounds, replays := s1.replays) == s1.(rounds := rounds);
  }

  lemma CallKeepsInv(s: System, c: nat, h: HttpResult)
    requires Inv(s)
    ensures Inv(DoCall(s, c, h))
  {
    var con := ConsumerOf(s, c);
    if con.todo != [] && con.stage.Calling? {
      hide Inv;
      var Calling(k, n, wrote) := con.stage;
      if k >= |con.eps| {
        CompleteKeepsInv(s, c, wrote, if wrote then s.rounds + [Round(con.todo[0].eventId, con.era)] else s.rounds);
      } else if con.cancelled {
        MoveKeepsInv(s, c, con.(stage := Finishing(wrote)));
      } else if !con.eps[k].urlParses {
        MoveKeepsInv(s, c, con.(stage := Calling(k + 1, 1, wrote)));
      } else {
        MoveKeepsInv(s, c, con.(stage := Answered(k, n, wrote, h)));
      }
    }
  }

  lemma RecordAttemptKeepsInv(s: System, a: Attempt)
    requires Inv(s)
    ensures Inv(s.(repo := RecordDeliveryAttempt(s.repo, a).0))
  {
    var repo := RecordDeliveryAttempt(s.repo, a).0;
    SameEventsAdvance(s.repo, s.gen, s.origins, repo);
    hide Inv, GoodStep, RecordDeliveryAttempt;
    AdvanceKeepsInv(s, repo, s.gen);
    assert s.(repo := repo, gen := s.gen) == s.(repo := repo);
  }

  lemma RecordedMoves(s: System, c: nat, repo: Repo, stage: Stage)
    requires Inv(s.(repo := repo)) && ConsumerOf(s, c).todo != []
    requires Wrote(stage) ==> Wrote(ConsumerOf(s, c).stage)
    requires stage.Writing? ==> stage.verdict == Delivered || stage.verdict == DLQ
    ensures Inv(To(s, c, stage).(repo := repo))
  {
    hide Inv, Wrote;
    var s1 := s.(repo := repo);
    MoveKeepsInv(s1, c, ConsumerOf(s1, c).(stage := stage));
  }

  /** What recording an attempt does to the system, told by cases. */
  lemma RecordCases(s: System, c: nat, attemptId: nat, maxRetries: int)
    ensures var con := ConsumerOf(s, c);
            if con.todo == [] || !con.stage.Answered? || con.stage.k >= |con.eps| then DoRecord(s, c, attemptId, maxRetries) == s
            else
              exists stage :: Wrote(stage) == con.stage.wrote && (stage.Writing? ==> stage.verdict == Delivered || stage.verdict == DLQ) &&
                              if con.cancelled then DoRecord(s, c, attemptId, maxRetries) == To(s, c, stage)
                              else exists a :: DoRecord(s, c, attemptId, maxRetries) == To(s, c, stage).(repo := RecordDeliveryAttempt(s.repo, a).0)
  {
    hide RecordDeliveryAttempt, AttemptFor, Classify, To;
    var con := ConsumerOf(s, c);
    if con.todo != [] && con.stage.Answered? && con.stage.k < |con.eps| {
      var Answered(k, n, wrote, h) := con.stage;
      var a := AttemptFor(attemptId, con.todo[0].eventId, con.eps[k].id, n, h, maxRetries);
      var status := Classify(h, n, maxRetries);
      var onward := if status == Retrying then Calling(k, n + 1, wrote) else Calling(k + 1, 1, wrote);
      var stage := if con.cancelled || RecordDeliveryAttempt(s.repo, a).1.Err? || status == Retrying then onward
      else Writing(k, wrote, Verdict(status));
      assert Wrote(stage) == wrote;
      if con.cancelled {
        assert DoRecord(s, c, attemptId, maxRetries) == To(s, c, stage);
      } else {
        assert DoRecord(s, c, attemptId, maxRetries) == To(s, c, stage).(repo := RecordDeliveryAttempt(s.repo, a).0);
      }
    }
  }

  lemma RecordKeepsInv(s: System, c: nat, attemptId: nat, maxRetries: int)
    requires Inv(s)
    ensures Inv(DoRecord(s, c, attemptId, maxRetries))
  {
    RecordCases(s, c, attemptId, maxRetries);
    hide Inv, DoRecord, RecordDeliveryAttempt;
    var con := ConsumerOf(s, c);
    if con.todo != [] && con.stage.Answered? && con.stage.k < |con.eps| {
      var stage :| Wrote(stage) == con.stage.wrote && (stage.Writing? ==> stage.verdict == Delivered || stage.verdict == DLQ) &&
                   if con.cancelled then DoRecord(s, c, attemptId, maxRetries) == To(s, c, stage)
                   else exists a :: DoRecord(s, c, attemptId, maxRetries) == To(s, c, stage).(repo := RecordDeliveryAttempt(s.repo, a).0);
      if con.cancelled {
        MoveKeepsInv(s, c, con.(stage := stage));
      } else {
        var a :| DoRecord(s, c, attemptId, maxRetries) == To(s, c, stage).(repo := RecordDeliveryAttempt(s.repo, a).0);
        RecordAttemptKeepsInv(s, a);
        RecordedMoves(s, c, RecordDeliveryAttempt(s.repo, a).0, stage);
      }
    }
  }

  /** A status write settles the message in hand. */
  lemma WriteSettles(s: System, c: nat, status: EventStatus, stage: Stage)
    requires Inv(s) && ConsumerOf(s, c).todo != [] && (status == Delivered || status == DLQ) && !stage.Writing?
    ensures var e := ConsumerOf(s, c).todo[0].eventId;
            e in s.repo.events && Inv(To(s, c, stage).(repo := UpdateEventStatus(s.repo, e, status).0))
  {
    HeadIsTraced(s, c);
    var con := ConsumerOf(s, c);
    var e := con.todo[0].eventId;
    var repo := UpdateEventStatus(s.repo, e, status).0;
    assert repo.events[e].status == status && e in repo.events;
    UpdateAdvances(s.repo, s.gen, s.origins, e, status);
    hide UpdateEventStatus;
    var s1 := s.(repo := repo);
    assert s.(repo := repo, gen := s.gen) == s1;
    AdvanceKeepsInv(s, repo, s.gen);
    ConsumerOfFits(s1, c);
    assert Settled(repo, s.gen, s.origins, con.todo[0]);
    assert Fits(s1, con.(stage := stage)) by { hide Settled, HandedOut, Inv, GoodStep; }
    hide Inv, Fits, GoodStep, HandedOut, Settled;
    SetConsumerKeepsInv(s1, c, con.(stage := stage));
  }

  /** What a status write does to the system, told by cases. */
  lemma WriteCases(s: System, c: nat)
    requires Inv(s)
    ensures var con := ConsumerOf(s, c);
            if con.todo == [] || !con.stage.Writing? then DoWrite(s, c) == s
            else if con.cancelled then DoWrite(s, c) == SetConsumer(s, c, con.(stage := Calling(con.stage.k + 1, 1, con.stage.wrote)))
            else
              && (con.stage.verdict == Delivered || con.stage.verdict == DLQ)
              && DoWrite(s, c) == To(s, c, Calling(con.stage.k + 1, 1, true)).(repo := UpdateEventStatus(s.repo, con.todo[0].eventId, con.stage.verdict).0)
  {
    hide Inv, Settled, HandedOut, Wrote;
    ConsumerOfFits(s, c);
    if ConsumerOf(s, c).todo != [] {
      HeadIsTraced(s, c);
    }
  }

  lemma WriteKeepsInv(s: System, c: nat)
    requires Inv(s)
    ensures Inv(DoWrite(s, c))
  {
    hide Inv, DoWrite, To, UpdateEventStatus;
    WriteCases(s, c);
    var con := ConsumerOf(s, c);
    if con.todo != [] && con.stage.Writing? {
      if con.cancelled {
        MoveKeepsInv(s, c, con.(stage := Calling(con.stage.k + 1, 1, con.stage.wrote)));
      } else {
        WriteSettles(s, c, con.stage.verdict, Calling(con.stage.k + 1, 1, true));
      }
    }
  }

  lemma WriteCeilingKeepsInv(s: System, c: nat)
    requires Inv(s)
    ensures Inv(DoWriteCeiling(s, c))
  {
    if StageOf(s, c) == Some(AtCeiling) {
      hide Inv;
      if ConsumerOf(s, c).cancelled {
        MoveKeepsInv(s, c, ConsumerOf(s, c).(stage := Finishing(false)));
      } else {
        WriteSettles(s, c, DLQ, Finishing(true));
      }
    }
  }

  lemma CancelKeepsInv(s: System, c: nat)
    requires Inv(s)
    ensures Inv(Next(s, Cancel(c)))
  {
    ConsumerOfFits(s, c);
    hide Inv, Settled, HandedOut, Wrote;
    var con := ConsumerOf(s, c).(cancelled := true);
    assert Fits(s, con);
    hide Fits, ConsumerOk;
    SetConsumerKeepsInv(s, c, con);
  }

  lemma CrashKeepsInv(s: System, c: nat)
    requires Inv(s)
    ensures Inv(Next(s, Crash(c)))
  {
    hide Inv;
    assert Fits(s, Consumer([], Boundary, [], false, 0));
    hide Fits;
    SetConsumerKeepsInv(s, c, Consumer([], Boundary, [], false, 0));
  }

  // ---------------------------------------------------------------------------------------
  // Every action, every run
  // ---------------------------------------------------------------------------------------

  lemma IngestKeepsInv(s: System, e: Event)
    requires Inv(s) && e.tenantId != ""
    ensures Inv(DoIngest(s, e))
  {
    CreateAdvances(s.repo, s.gen, s.origins, e.(status := Pending));
    var (repo, res) := CreateEventWithOutbox(s.repo, e.(status := Pending), OutboxRecord(0, e.id, OutboxPending));
    hide Inv, CreateEventWithOutbox, GoodStep;
    if res.Ok? {
      AdvanceKeepsInv(s, repo, s.gen[e.id := res.value]);
      HistoryKeepsInv(s.(repo := repo, gen := s.gen[e.id := res.value]), s.rounds, s.replays[e.id := 0]);
    } else {
      AdvanceKeepsInv(s, repo, s.gen);
      assert s.(repo := repo, gen := s.gen) == s.(repo := repo);
    }
  }

  lemma ReplayKeepsInv(s: System, tenantId: string, ids: seq<EventId>)
    requires Inv(s)
    ensures Inv(DoReplay(s, tenantId, ids))
  {
    ReplayAdvances(s.repo, s.gen, s.origins, tenantId, ids);
    var hits := Hits(s.repo, tenantId, ids);
    var repo := ReplayDLQEvents(s.repo, tenantId, ids).0;
    hide Inv, ReplayDLQEvents, Hits, NewGen, GoodStep, CountUp;
    AdvanceKeepsInv(s, repo, NewGen(s.repo, s.gen, hits));
    HistoryKeepsInv(s.(repo := repo, gen := NewGen(s.repo, s.gen, hits)), s.rounds, CountUp(s.replays, hits));
  }

  lemma EndpointsKeepInv(s: System, endpoints: map<string, Endpoint>)
    requires Inv(s)
    ensures Inv(s.(repo := s.repo.(endpoints := endpoints)))
  {
    SameEventsAdvance(s.repo, s.gen, s.origins, s.repo.(endpoints := endpoints));
    hide Inv, GoodStep;
    AdvanceKeepsInv(s, s.repo.(endpoints := endpoints), s.gen);
    assert s.(repo := s.repo.(endpoints := endpoints), gen := s.gen) == s.(repo := s.repo.(endpoints := endpoints));
  }

  lemma CrashRelayKeepsInv(s: System, r: nat)
    requires Inv(s)
    ensures Inv(SetRelay(s, r, Publishing([])))
  {
    assert RelayOk(s.repo, s.origins, Publishing([]));
    hide Inv, RelayOk;
    SetRelayKeepsInv(s, r, Publishing([]));
  }

  lemma NextKeepsInv(s: System, a: Action)
    requires Inv(s)
    ensures Inv(Next(s, a))
  {
    hide Inv, DoIngest, DoReplay, DoPublish, DoMark, DoRead, DoClaim, DoBegin, DoFence, DoResolve, DoCall, DoRecord, DoWrite, DoWriteCeiling, DoAck;
    match a
    case Ingest(e) => if e.tenantId != "" { IngestKeepsInv(s, e); }
    case Replay(tenantId, ids) => ReplayKeepsInv(s, tenantId, ids);
    case SetEndpoints(endpoints) => EndpointsKeepInv(s, endpoints);
    case Fetch(r, batch) =>
      if RelayOf(s, r) == Publishing([]) && forall ob <- batch :: ob.id in PendingIds(s.repo) && s.repo.outbox[ob.id] == ob {
        FetchKeepsInv(s, r, batch);
      }
    case Publish(r, millis) => PublishKeepsInv(s, r, millis);
    case Mark(r) => MarkKeepsInv(s, r);
    case CrashRelay(r) => CrashRelayKeepsInv(s, r);
    case Read(c, consumer, count, now) => ReadKeepsInv(s, c, consumer, count, now);
    case Claim(c, consumer, minIdle, count, now, ids) => ClaimKeepsInv(s, c, consumer, minIdle, count, now, ids);
    case Begin(c, overCeiling) => BeginKeepsInv(s, c, overCeiling);
    case Fence(c) => FenceKeepsInv(s, c);
    case Resolve(c, eps) => ResolveKeepsInv(s, c, eps);
    case Call(c, h) => CallKeepsInv(s, c, h);
    case Record(c, attemptId, maxRetries) => RecordKeepsInv(s, c, attemptId, maxRetries);
    case Write(c) => WriteKeepsInv(s, c);
    case WriteCeiling(c) => WriteCeilingKeepsInv(s, c);
    case Ack(c, failed) => AckKeepsInv(s, c, failed);
    case Cancel(c) => CancelKeepsInv(s, c);
    case Crash(c) => CrashKeepsInv(s, c);
  }

  lemma {:induction false} RunKeepsInv(s: System, actions: seq<Action>)
    requires Inv(s)
    ensures Inv(Run(s, actions))
  {
    if actions != [] {
      RunKeepsInv(s, actions[..|actions| - 1]);
      hide Inv, Next;
      NextKeepsInv(Run(s, actions[..|actions| - 1]), actions[|actions| - 1]);
    }
  }

  lemma ReachableInv(actions: seq<Action>)
    ensures Inv(Run(INITIAL, actions))
  {
    assert Inv(INITIAL);
    hide Inv, Run;
    RunKeepsInv(INITIAL, actions);
  }

  // ---------------------------------------------------------------------------------------
  // Runs in parts
  // ---------------------------------------------------------------------------------------

  lemma RunConcat(s: System, a: seq<Action>, b: seq<Action>)
    ensures Run(s, a + b) == Run(Run(s, a), b)
    decreases |b|
  {
    hide Next;
    if b == [] {
      assert a + b == a;
    } else {
      assert (a + b)[..|a + b| - 1] == a + b[..|b| - 1];
      RunConcat(s, a, b[..|b| - 1]);
    }
  }

  lemma RunOne(s: System, a: Action)
    ensures Run(s, [a]) == Next(s, a)
  {
    assert [a][..0] == [];
  }

  lemma RunTwo(s: System, a: Action, b: Action)
    ensures Run(s, [a, b]) == Next(Next(s, a), b)
  {
    assert [a, b] == [a] + [b];
    RunConcat(s, [a], [b]);
    RunOne(s, a);
    RunOne(Next(s, a), b);
  }
}
