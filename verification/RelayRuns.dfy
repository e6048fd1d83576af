/** The relay's `ProcessNextBatch` and the pipeline's steps: a batch, stopped at any point or not,
    is a run of one relay of the state machine. */
module RelayRuns {
  import opened Domain
  import opened Storage
  import opened Queue
  import opened MemoryRepositories
  import opened Relays
  import opened Pipeline
  import opened PipelineSteps

  predicate RelayAction(a: Action, x: nat) {
    match a
    case Fetch(r, _) => r == x
    case Publish(r, _) => r == x
    case Mark(r) => r == x
    case CrashRelay(r) => r == x
    case _ => false
  }

  ghost predicate OnlyBy(actions: seq<Action>, x: nat) {
    forall a <- actions :: RelayAction(a, x)
  }

  /** The system with relay `x`, the repository and the log as given. */
  function Relayed(s: System, x: nat, relay: Pipeline.Relay, repo: Repo, added: seq<Message>, ids: seq<nat>): System {
    SetRelay(s, x, relay).(repo := repo, log := s.log + added, origins := s.origins + ids)
  }

  lemma RelayedIs(s: System, x: nat, relay: Pipeline.Relay, repo: Repo, added: seq<Message>, ids: seq<nat>, relay': Pipeline.Relay)
    ensures var t := Relayed(s, x, relay, repo, added, ids);
            RelayOf(t, x) == relay && t.relays[x := relay'] == s.relays[x := relay']
  {
    assert s.relays[x := relay][x := relay'] == s.relays[x := relay'];
  }

  lemma PublishStep(s: System, x: nat, todo: seq<OutboxRecord>, repo: Repo, added: seq<Message>, ids: seq<nat>, m: Message)
    requires todo != [] && todo[0].eventId in repo.events && m == MessageFor(m.id, repo.events[todo[0].eventId]) && m.id.serial == |s.log| + |added| + 1
    ensures Next(Relayed(s, x, Publishing(todo), repo, added, ids), Publish(x, m.id.millis)) ==
            Relayed(s, x, Marking(todo), repo, added + [m], ids + [todo[0].id])
  {
    var t := Relayed(s, x, Publishing(todo), repo, added, ids);
    RelayedIs(s, x, Publishing(todo), repo, added, ids, Marking(todo));
    NextIs(t, Publish(x, m.id.millis));
    hide Next;
    assert s.log + added + [m] == s.log + (added + [m]) && s.origins + ids + [todo[0].id] == s.origins + (ids + [todo[0].id]);
  }

  lemma MarkIsPublished(r: Repo, o: nat)
    requires o in r.outbox
    ensures MarkOutboxPublished(r, o).0 == WithPublished(r, {o})
  {
    assert MarkOutboxPublished(r, o).0.outbox == WithPublished(r, {o}).outbox;
  }

  lemma MarkStep(s: System, x: nat, todo: seq<OutboxRecord>, repo: Repo, added: seq<Message>, ids: seq<nat>)
    requires todo != [] && todo[0].id in repo.outbox
    ensures Next(Relayed(s, x, Marking(todo), repo, added, ids), Mark(x)) ==
            Relayed(s, x, Publishing(todo[1..]), WithPublished(repo, {todo[0].id}), added, ids)
  {
    var t := Relayed(s, x, Marking(todo), repo, added, ids);
    RelayedIs(s, x, Marking(todo), repo, added, ids, Publishing(todo[1..]));
    NextIs(t, Mark(x));
    MarkIsPublished(repo, todo[0].id);
    hide Next, MarkOutboxPublished, WithPublished;
  }

  lemma FetchStep(s: System, x: nat, batch: seq<OutboxRecord>)
    requires RelayOf(s, x) == Publishing([]) && forall ob <- batch :: ob.id in PendingIds(s.repo) && s.repo.outbox[ob.id] == ob
    ensures Next(s, Fetch(x, batch)) == Relayed(s, x, Publishing(batch), s.repo, [], [])
  {
  }

  lemma CrashStep(s: System, x: nat, relay: Pipeline.Relay, repo: Repo, added: seq<Message>, ids: seq<nat>)
    ensures Next(Relayed(s, x, relay, repo, added, ids), CrashRelay(x)) == Relayed(s, x, Publishing([]), repo, added, ids)
  {
    RelayedIs(s, x, relay, repo, added, ids, Publishing([]));
  }

  // ---------------------------------------------------------------------------------------
  // A batch
  // ---------------------------------------------------------------------------------------

  function IdsOf(batch: seq<OutboxRecord>): seq<nat> {
    seq(|batch|, i requires 0 <= i < |batch| => batch[i].id)
  }

  /** Fetching the batch, then publishing and marking one record after the other. */
  function BatchSteps(x: nat, batch: seq<OutboxRecord>, added: seq<Message>): seq<Action>
    decreases |added|
  {
    if added == [] then [Fetch(x, batch)]
    else BatchSteps(x, batch, added[..|added| - 1]) + [Publish(x, added[|added| - 1].id.millis), Mark(x)]
  }

  /** The batch was fetched from this repository, and its messages take the next serials. */
  ghost predicate Fetched(s: System, x: nat, batch: seq<OutboxRecord>, added: seq<Message>) {
    && WellFormed(s.repo) && RelayOf(s, x) == Publishing([])
    && (forall ob <- batch :: ob.id in PendingIds(s.repo) && s.repo.outbox[ob.id] == ob)
    && |added| <= |batch|
    && (forall i | 0 <= i < |added| ::
          && added[i].id.serial == |s.log| + i + 1
          && batch[i].eventId in s.repo.events && added[i] == MessageFor(added[i].id, s.repo.events[batch[i].eventId]))
  }

  lemma {:induction false} BatchIsSteps(s: System, x: nat, batch: seq<OutboxRecord>, added: seq<Message>)
    requires Fetched(s, x, batch, added)
    ensures var n := |added|;
            Run(s, BatchSteps(x, batch, added)) ==
            Relayed(s, x, Publishing(batch[n..]), WithPublished(s.repo, RecordIds(batch[..n])), added, IdsOf(batch[..n]))
    decreases |added|
  {
    if added == [] {
      RunOne(s, Fetch(x, batch));
      FetchStep(s, x, batch);
      NothingPublished(s.repo);
      assert batch[0..] == batch && IdsOf(batch[..0]) == [] && batch[..0] == [];
    } else {
      var n, m := |added| - 1, added[|added| - 1];
      var ob, init := batch[n], added[..n];
      assert ob in batch && added == init + [m] && batch[n..][1..] == batch[n + 1..] && batch[n..][0] == ob;
      assert Fetched(s, x, batch, init) && ob.id in s.repo.outbox;
      BatchIsSteps(s, x, batch, init);
      hide Run, Next, Relayed, WithPublished, RecordIds, PendingIds, Fetched;
      var r1, ids := WithPublished(s.repo, RecordIds(batch[..n])), IdsOf(batch[..n]);
      PublishedSoFar(s.repo, batch, n);
      PublishStep(s, x, batch[n..], r1, init, ids, m);
      MarkStep(s, x, batch[n..], r1, init + [m], ids + [ob.id]);
      RunConcat(s, BatchSteps(x, batch, init), [Publish(x, m.id.millis), Mark(x)]);
      RunTwo(Run(s, BatchSteps(x, batch, init)), Publish(x, m.id.millis), Mark(x));
    }
  }

  lemma NothingPublished(r: Repo)
    ensures WithPublished(r, RecordIds([])) == r
  {
    assert WithPublished(r, RecordIds([])).outbox == r.outbox;
  }

  lemma PublishedSoFar(r: Repo, batch: seq<OutboxRecord>, n: nat)
    requires n < |batch|
    ensures var r1 := WithPublished(r, RecordIds(batch[..n]));
            && r1.events == r.events && r1.outbox.Keys == r.outbox.Keys
            && WithPublished(r1, {batch[n].id}) == WithPublished(r, RecordIds(batch[..n + 1]))
            && IdsOf(batch[..n + 1]) == IdsOf(batch[..n]) + [batch[n].id]
  {
    assert batch[..n + 1] == batch[..n] + [batch[n]];
    RecordIdsConcat(batch[..n], [batch[n]]);
    assert RecordIds([batch[n]]) == {batch[n].id};
    MarkedTwice(r, RecordIds(batch[..n]), {batch[n].id});
  }

  lemma {:induction false} BatchIsOnlyBy(x: nat, batch: seq<OutboxRecord>, added: seq<Message>)
    ensures OnlyBy(BatchSteps(x, batch, added), x)
    decreases |added|
  {
    if added != [] {
      BatchIsOnlyBy(x, batch, added[..|added| - 1]);
    }
  }

  /** How a batch ends: with a message for the first unmarked record, perhaps, and a stop. */
  function StopSteps(x: nat, batch: seq<OutboxRecord>, marked: nat, added: seq<Message>): seq<Action> {
    (if |added| > marked then [Publish(x, added[marked].id.millis)] else [])
    + if marked < |batch| then [CrashRelay(x)] else []
  }

  /** The relay is idle again; repository and log are as given, and nothing else has changed
      but the history. */
  ghost predicate RelayedTo(s: System, t: System, x: nat, repo: Repo, log: seq<Message>) {
    && t.repo == repo && t.log == log && t == s.(repo := repo, log := log, origins := t.origins, relays := t.relays)
    && RelayOf(t, x) == Publishing([]) && t.relays.Keys == s.relays.Keys + {x} && forall y <- s.relays :: y == x || t.relays[y] == s.relays[y]
  }

  /** Refinement: whatever a call of `ProcessNextBatch` does, complete or cut short between any two
      of its steps, is a run of that relay's steps alone in the state machine, which ends with
      the same repository and stream, and with the relay idle. */
  lemma RelayingIsARun(s: System, x: nat, q0: Streams, r': Repo, q': Streams, sn: string, batch: seq<OutboxRecord>, marked: nat, added: seq<Message>, limit: int)
    requires WellFormed(s.repo) && RelayOf(s, x) == Publishing([]) && StreamOf(q0, sn).messages == s.log && q0.serial == |s.log|
    requires batch == [] || IsOldestPending(s.repo, limit, batch)
    requires Progress(s.repo, q0, r', q', sn, batch, marked, added) && |added| <= marked + 1
    ensures exists actions :: OnlyBy(actions, x) && RelayedTo(s, Run(s, actions), x, r', StreamOf(q', sn).messages)
  {
    hide *;
    ProgressIsFetched(s, x, q0, r', q', sn, batch, marked, added, limit);
    BatchIsSteps(s, x, batch, added[..marked]);
    BatchIsOnlyBy(x, batch, added[..marked]);
    StopIsOnlyBy(x, batch, marked, added);
    var begin, stop := BatchSteps(x, batch, added[..marked]), StopSteps(x, batch, marked, added);
    var t1 := Relayed(s, x, Publishing(batch[marked..]), r', added[..marked], IdsOf(batch[..marked]));
    StopIsSteps(s, x, r', batch, marked, added, IdsOf(batch[..marked]));
    RunConcat(s, begin, stop);
    OnlyByConcat(begin, stop, x);
    var ids' :| Run(t1, stop) == Relayed(s, x, Publishing([]), r', added, ids');
    RelayedEnds(s, x, r', added, ids');
    assert OnlyBy(begin + stop, x) && RelayedTo(s, Run(s, begin + stop), x, r', StreamOf(q', sn).messages);
  }

  lemma OnlyByConcat(a: seq<Action>, b: seq<Action>, x: nat)
    requires OnlyBy(a, x) && OnlyBy(b, x)
    ensures OnlyBy(a + b, x)
  {
  }

  lemma RelayedEnds(s: System, x: nat, repo: Repo, added: seq<Message>, ids: seq<nat>)
    ensures RelayedTo(s, Relayed(s, x, Publishing([]), repo, added, ids), x, repo, s.log + added)
  {
  }

  lemma ProgressIsFetched(s: System, x: nat, q0: Streams, r': Repo, q': Streams, sn: string, batch: seq<OutboxRecord>, marked: nat, added: seq<Message>, limit: int)
    requires WellFormed(s.repo) && RelayOf(s, x) == Publishing([]) && StreamOf(q0, sn).messages == s.log && q0.serial == |s.log|
    requires batch == [] || IsOldestPending(s.repo, limit, batch)
    requires Progress(s.repo, q0, r', q', sn, batch, marked, added)
    ensures marked <= |added| <= |batch| && Fetched(s, x, batch, added) && Fetched(s, x, batch, added[..marked])
    ensures r' == WithPublished(s.repo, RecordIds(batch[..marked])) && StreamOf(q', sn).messages == s.log + added && r'.events == s.repo.events
  {
    hide PendingIds;
    assert forall i | 0 <= i < |added| :: batch[..|added|][i] == batch[i];
  }

  lemma StopIsSteps(s: System, x: nat, r': Repo, batch: seq<OutboxRecord>, marked: nat, added: seq<Message>, ids: seq<nat>)
    requires marked <= |added| <= |batch| && |added| <= marked + 1 && Fetched(s, x, batch, added) && r'.events == s.repo.events
    ensures exists ids' ::
              Run(Relayed(s, x, Publishing(batch[marked..]), r', added[..marked], ids), StopSteps(x, batch, marked, added))
              == Relayed(s, x, Publishing([]), r', added, ids')
  {
    assert |added| > marked ==> batch[marked].eventId in r'.events && added[marked] == MessageFor(added[marked].id, r'.events[batch[marked].eventId])
                                && added[marked].id.serial == |s.log| + marked + 1;
    hide Run, Next, Relayed, Fetched;
    var t := Relayed(s, x, Publishing(batch[marked..]), r', added[..marked], ids);
    var stop := StopSteps(x, batch, marked, added);
    if |added| > marked {
      assert added == added[..marked] + [added[marked]] && stop == [Publish(x, added[marked].id.millis), CrashRelay(x)];
      PublishStep(s, x, batch[marked..], r', added[..marked], ids, added[marked]);
      CrashStep(s, x, Marking(batch[marked..]), r', added, ids + [batch[marked].id]);
      RunTwo(t, Publish(x, added[marked].id.millis), CrashRelay(x));
    } else if marked < |batch| {
      assert added == added[..marked] && stop == [CrashRelay(x)];
      CrashStep(s, x, Publishing(batch[marked..]), r', added, ids);
      RunOne(t, CrashRelay(x));
    } else {
      assert added == added[..marked] && stop == [] && batch[marked..] == [];
      RunNone(t);
    }
  }

  lemma RunNone(s: System)
    ensures Run(s, []) == s
  {
  }

  lemma StopIsOnlyBy(x: nat, batch: seq<OutboxRecord>, marked: nat, added: seq<Message>)
    ensures OnlyBy(StopSteps(x, batch, marked, added), x)
  {
  }
}
