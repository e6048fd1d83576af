/** The worker's turn and the reclaimer's tick as runs: reading or claiming a batch, working
    through it message by message, and dropping the rest after a cancellation are the steps of
    one consumer of the state machine. */
module BatchRuns {
  import opened Domain
  import opened Storage
  import opened Queue
  import opened Dispatchers
  import opened Signatures
  import opened WorkerPools
  import opened Pipeline
  import opened PipelineSteps
  import opened Refinement

  /** The system with this repository, group and consumer `c`, which stands before `todo`; nothing
      else has changed but the history. */
  predicate BatchTo(s: System, t: System, c: nat, r: Repo, g: Group, todo: seq<Message>, cancelled: bool) {
    && t.repo == r && t.log == s.log && t.group == g && t.relays == s.relays && t.gen == s.gen && t.origins == s.origins && t.replays == s.replays
    && c in t.consumers && t.consumers[c].todo == todo && t.consumers[c].stage == Boundary && t.consumers[c].cancelled == cancelled
    && t.consumers.Keys == s.consumers.Keys + {c} && forall d <- s.consumers :: d == c || t.consumers[d] == s.consumers[d]
  }

  lemma BatchToTwice(s: System, t: System, u: System, c: nat, r: Repo, g: Group, todo: seq<Message>, cancelled: bool,
                     r': Repo, g': Group, todo': seq<Message>, cancelled': bool)
    requires BatchTo(s, t, c, r, g, todo, cancelled) && BatchTo(t, u, c, r', g', todo', cancelled')
    ensures BatchTo(s, u, c, r', g', todo', cancelled')
  {
  }

  lemma BatchToHead(s: System, t: System, c: nat, r: Repo, g: Group, todo: seq<Message>, cancelled: bool)
    requires BatchTo(s, t, c, r, g, todo, cancelled)
    ensures ConsumerOf(t, c).cancelled == cancelled && t.repo == r && t.group == g
    ensures todo != [] ==> StageOf(t, c) == Some(Boundary) && Head(t, c) == todo[0]
  {
  }

  lemma HandledIsBatchTo(s: System, t: System, c: nat, r: Repo, acked: bool, cancelled: bool)
    requires StageOf(s, c).Some? && HandledTo(s, t, c, r, acked, cancelled)
    ensures BatchTo(s, t, c, r, if acked then Forget(s.group, [Head(s, c).id]) else s.group, ConsumerOf(s, c).todo[1..], cancelled)
  {
    hide Forget;
  }

  // ---------------------------------------------------------------------------------------
  // Message by message
  // ---------------------------------------------------------------------------------------

  lemma OneWorkIsARun(mac: Mac, s: System, c: nat, w: Work, maxRetries: int)
    requires StageOf(s, c) == Some(Boundary) && !ConsumerOf(s, c).cancelled && IsWork(mac, s.repo, Head(s, c), w, maxRetries)
    ensures exists actions :: OnlyBy(actions, c) && HandledTo(s, Run(s, actions), c, w.after, w.acked, w.cancelled)
  {
    hide Run, OnlyBy, HandledTo, WorkedOn, UpdateEventStatus, IdsBelow, AscendingFrom, AttemptsOf, ConsumerOf;
    if w.givenUp {
      GivingUpIsARun(s, c, w.after, w.acked, w.cancelled);
    } else {
      WorkingIsARun(s, c, w.after, w.trail, maxRetries, w.acked, w.cancelled, w.lo, w.hi);
    }
  }

  lemma WorksSplit(mac: Mac, r: Repo, batch: seq<Message>, works: seq<Work>, maxRetries: int)
    requires works != [] && WorkedThrough(mac, r, batch, works, maxRetries)
    ensures var n := |works| - 1;
            && n < |batch| && WorkedThrough(mac, r, batch, works[..n], maxRetries) && !EndsCancelled(works[..n])
            && IsWork(mac, RepoAfter(r, works[..n]), batch[n], works[n], maxRetries)
  {
    hide IsWork;
    assert forall i | 0 <= i < |works| :: works[..|works| - 1][..i] == works[..i] || i == |works|;
  }

  function AckedIds(batch: seq<Message>, works: seq<Work>): seq<MessageId>
    requires |works| <= |batch|
  {
    IdList(AckedOf(batch, works))
  }

  lemma ForgetTwice(g: Group, ids: seq<MessageId>, more: seq<MessageId>)
    ensures Forget(Forget(g, ids), more) == Forget(g, ids + more)
  {
    assert Forget(Forget(g, ids), more).pending == Forget(g, ids + more).pending;
  }

  lemma ForgetNone(g: Group)
    ensures Forget(g, []) == g
  {
    assert Forget(g, []).pending == g.pending;
  }

  lemma AckedGrows(g: Group, batch: seq<Message>, works: seq<Work>)
    requires works != [] && |works| <= |batch|
    ensures var n := |works| - 1;
            var g1 := Forget(g, AckedIds(batch, works[..n]));
            Forget(g, AckedIds(batch, works)) == if works[n].acked then Forget(g1, [batch[n].id]) else g1
  {
    var n := |works| - 1;
    var before, id := AckedOf(batch, works[..n]), batch[n].id;
    ForgetTwice(g, IdList(before), [id]);
    assert IdList(before + [batch[n]]) == IdList(before) + [id] && before + [] == before;
    hide Forget;
  }

  /** The state after the consumer has worked through the first messages of its batch. */
  predicate WorkedInto(s: System, t: System, c: nat, batch: seq<Message>, works: seq<Work>)
    requires |works| <= |batch|
  {
    BatchTo(s, t, c, RepoAfter(s.repo, works), Forget(s.group, AckedIds(batch, works)), batch[|works|..], EndsCancelled(works))
  }

  lemma NoWorkYet(s: System, c: nat, batch: seq<Message>)
    requires BatchTo(s, s, c, s.repo, s.group, batch, false)
    ensures WorkedInto(s, s, c, batch, [])
  {
    ForgetNone(s.group);
    assert IdList([]) == [] && batch[0..] == batch;
    hide Forget;
  }

  lemma OneMoreWork(s: System, t: System, u: System, c: nat, batch: seq<Message>, works: seq<Work>)
    requires works != [] && |works| <= |batch| && !EndsCancelled(works[..|works| - 1])
    requires WorkedInto(s, t, c, batch, works[..|works| - 1])
    requires StageOf(t, c).Some? && HandledTo(t, u, c, works[|works| - 1].after, works[|works| - 1].acked, works[|works| - 1].cancelled)
    ensures WorkedInto(s, u, c, batch, works)
  {
    hide Forget, HandledTo, AckedIds, BatchTo;
    var n := |works| - 1;
    var r1, g1 := RepoAfter(s.repo, works[..n]), Forget(s.group, AckedIds(batch, works[..n]));
    var w := works[n];
    HandledIsBatchTo(t, u, c, w.after, w.acked, w.cancelled);
    BatchToHead(s, t, c, r1, g1, batch[n..], false);
    BatchToTodo(s, t, c, r1, g1, batch[n..], false);
    AckedGrows(s.group, batch, works);
    var g2 := if w.acked then Forget(g1, [batch[n].id]) else g1;
    assert batch[n..][1..] == batch[n + 1..];
    BatchToTwice(s, t, u, c, r1, g1, batch[n..], false, w.after, g2, batch[n + 1..], w.cancelled);
  }

  lemma BatchToTodo(s: System, t: System, c: nat, r: Repo, g: Group, todo: seq<Message>, cancelled: bool)
    requires BatchTo(s, t, c, r, g, todo, cancelled)
    ensures ConsumerOf(t, c).todo == todo
  {
  }

  /** Working through the first messages of a batch in hand. */
  lemma {:induction false} WorkingThroughIsARun(mac: Mac, s: System, c: nat, batch: seq<Message>, works: seq<Work>, maxRetries: int)
    requires BatchTo(s, s, c, s.repo, s.group, batch, false) && WorkedThrough(mac, s.repo, batch, works, maxRetries)
    ensures exists actions :: OnlyBy(actions, c) && WorkedInto(s, Run(s, actions), c, batch, works)
    decreases |works|
  {
    hide Run, OnlyBy, WorkedThrough, WorkedInto, HandledTo, IsWork, BatchTo, EndsCancelled, RepoAfter, StageOf;
    if works == [] {
      NoWorkYet(s, c, batch);
      NoActions(s, c);
    } else {
      var n := |works| - 1;
      WorksSplit(mac, s.repo, batch, works, maxRetries);
      WorkingThroughIsARun(mac, s, c, batch, works[..n], maxRetries);
      var before :| OnlyBy(before, c) && WorkedInto(s, Run(s, before), c, batch, works[..n]);
      var t := Run(s, before);
      AtNextMessage(s, t, c, batch, works[..n]);
      OneWorkIsARun(mac, t, c, works[n], maxRetries);
      var actions :| OnlyBy(actions, c) && HandledTo(t, Run(t, actions), c, works[n].after, works[n].acked, works[n].cancelled);
      OneMoreWork(s, t, Run(t, actions), c, batch, works);
      RunConcat(s, before, actions);
      OnlyByConcat(before, actions, c);
      assert WorkedInto(s, Run(s, before + actions), c, batch, works);
    }
  }

  lemma NoActions(s: System, c: nat)
    ensures OnlyBy([], c) && Run(s, []) == s
  {
  }

  lemma AtNextMessage(s: System, t: System, c: nat, batch: seq<Message>, works: seq<Work>)
    requires |works| < |batch| && WorkedInto(s, t, c, batch, works) && !EndsCancelled(works)
    ensures StageOf(t, c) == Some(Boundary) && !ConsumerOf(t, c).cancelled
    ensures Head(t, c) == batch[|works|] && t.repo == RepoAfter(s.repo, works)
  {
  }

  // ---------------------------------------------------------------------------------------
  // The rest of the batch
  // ---------------------------------------------------------------------------------------

  /** The rest is dropped after a cancellation that has arrived, or arrives now. */
  function DropSteps(c: nat): seq<Action> {
    [Cancel(c), Begin(c, false)]
  }

  lemma DroppingIsSteps(s: System, t: System, c: nat, r: Repo, g: Group, todo: seq<Message>, cancelled: bool)
    requires BatchTo(s, t, c, r, g, todo, cancelled)
    ensures OnlyBy(DropSteps(c), c) && BatchTo(s, Run(t, DropSteps(c)), c, r, g, [], true)
  {
    RunTwo(t, Cancel(c), Begin(c, false));
    var t1 := Next(t, Cancel(c));
    CancelDrops(s, t, c, r, g, todo, cancelled);
    NextIs(t1, Begin(c, false));
    hide Run, Next;
  }

  lemma CancelDrops(s: System, t: System, c: nat, r: Repo, g: Group, todo: seq<Message>, cancelled: bool)
    requires BatchTo(s, t, c, r, g, todo, cancelled)
    ensures BatchTo(s, Next(t, Cancel(c)), c, r, g, todo, true)
  {
  }

  /** The batch was left before its end, or at its end with the last message's work cut short. */
  predicate Stopped(batch: seq<Message>, works: seq<Work>) {
    |works| < |batch| || EndsCancelled(works)
  }

  /** Some steps of the consumer alone lead to this repository and group, and leave it idle. */
  ghost predicate TurnRuns(s: System, c: nat, r: Repo, g: Group, cancelled: bool) {
    exists actions :: OnlyBy(actions, c) && BatchTo(s, Run(s, actions), c, r, g, [], cancelled)
  }

  /** A whole turn on a batch in hand: after it the consumer has none of it left. */
  lemma TurnIsARun(mac: Mac, s: System, c: nat, batch: seq<Message>, works: seq<Work>, maxRetries: int)
    requires BatchTo(s, s, c, s.repo, s.group, batch, false) && WorkedThrough(mac, s.repo, batch, works, maxRetries)
    ensures |works| <= |batch| && TurnRuns(s, c, RepoAfter(s.repo, works), Forget(s.group, AckedIds(batch, works)), Stopped(batch, works))
  {
    assert |works| <= |batch|;
    hide Run, OnlyBy, WorkedThrough, BatchTo, EndsCancelled, RepoAfter, AckedIds, Forget, DropSteps;
    WorkingThroughIsARun(mac, s, c, batch, works, maxRetries);
    var work :| OnlyBy(work, c) && WorkedInto(s, Run(s, work), c, batch, works);
    if |works| < |batch| {
      DroppingIsSteps(s, Run(s, work), c, RepoAfter(s.repo, works), Forget(s.group, AckedIds(batch, works)), batch[|works|..], EndsCancelled(works));
      RunConcat(s, work, DropSteps(c));
      OnlyByConcat(work, DropSteps(c), c);
    } else {
      assert batch[|works|..] == [];
    }
  }

  // ---------------------------------------------------------------------------------------
  // Reading and claiming
  // ---------------------------------------------------------------------------------------

  /** An idle, live consumer. */
  predicate Free(s: System, c: nat) {
    ConsumerOf(s, c).todo == [] && !ConsumerOf(s, c).cancelled
  }

  lemma ReadIsStep(s: System, c: nat, consumer: string, count: int, now: int)
    requires Free(s, c) && CursorOk(s.log, s.group)
    ensures var t := Next(s, Read(c, consumer, count, now));
            var batch, g := NextBatch(s.log, s.group, count), Deliver(s.log, s.group, consumer, count, now);
            BatchTo(s, t, c, s.repo, g, batch, false) && BatchTo(t, t, c, t.repo, t.group, batch, false) && t.repo == s.repo && t.group == g
  {
    NextIs(s, Read(c, consumer, count, now));
    hide Next, NextBatch, Deliver, CursorOk;
  }

  lemma ClaimIsStep(s: System, c: nat, consumer: string, minIdle: int, count: int, now: int, claimed: seq<Message>)
    requires Free(s, c) && IsClaim(s.group, minIdle, count, now, claimed)
    ensures var t := Next(s, Claim(c, consumer, minIdle, count, now, IdList(claimed)));
            var g := Queue.Claim(s.group, IdList(claimed), consumer, now);
            BatchTo(s, t, c, s.repo, g, claimed, false) && BatchTo(t, t, c, t.repo, t.group, claimed, false) && t.repo == s.repo && t.group == g
  {
    var ids := IdList(claimed);
    assert forall i | 0 <= i < |ids| :: ids[i] == claimed[i].id;
    assert Entries(s.group, ids) == claimed;
    NextIs(s, Claim(c, consumer, minIdle, count, now, ids));
    hide Next, Queue.Claim, ClaimChoice, Entries, IdList;
  }

  lemma OneActionBy(a: Action, c: nat)
    requires ConsumerAction(a, c)
    ensures OnlyBy([a], c)
  {
  }

  lemma FirstStepThenTurn(s: System, t: System, first: Action, c: nat, g: Group, batch: seq<Message>, r': Repo, g': Group, cancelled: bool)
    requires ConsumerAction(first, c) && t == Next(s, first) && BatchTo(s, t, c, s.repo, g, batch, false) && TurnRuns(t, c, r', g', cancelled)
    ensures TurnRuns(s, c, r', g', cancelled)
  {
    hide Run, Next, OnlyBy, BatchTo, ConsumerAction;
    OneActionBy(first, c);
    var turn :| OnlyBy(turn, c) && BatchTo(t, Run(t, turn), c, r', g', [], cancelled);
    RunOne(s, first);
    RunConcat(s, [first], turn);
    OnlyByConcat([first], turn, c);
    BatchToTwice(s, t, Run(t, turn), c, s.repo, g, batch, false, r', g', [], cancelled);
    assert BatchTo(s, Run(s, [first] + turn), c, r', g', [], cancelled);
  }

  lemma ReadGroup(q: Streams, sn: string, gn: string, consumer: string, count: int, now: int, ids: seq<MessageId>)
    requires CursorOk(StreamOf(q, sn).messages, GroupOf(StreamOf(q, sn), gn))
    ensures var (q1, batch) := Queue.ReadEvents(q, sn, gn, consumer, count, now);
            var st, st' := StreamOf(q, sn), StreamOf(Queue.AckEvent(q1, sn, gn, ids), sn);
            && batch == NextBatch(st.messages, GroupOf(st, gn), count) && st'.messages == st.messages
            && GroupOf(st', gn) == Forget(Deliver(st.messages, GroupOf(st, gn), consumer, count, now), ids)
  {
    hide Deliver, NextBatch, Forget, CursorOk;
  }

  /** Refinement, batch by batch: a worker's turn, as `WorkBatch` describes it, from reading its
      batch to the last acknowledgement or to dropping what a cancellation leaves of it, is a run
      of that consumer's steps alone, and ends with the same repository and the same group in the
      queue. */
  lemma WorkBatchIsARun(mac: Mac, s: System, c: nat, seen: Streams, sn: string, gn: string, consumer: string, count: int, at: int,
                        works: seq<Work>, maxRetries: int)
    requires Free(s, c) && StreamOf(seen, sn).messages == s.log && GroupOf(StreamOf(seen, sn), gn) == s.group && CursorOk(s.log, s.group)
    requires WorkedThrough(mac, s.repo, Queue.ReadEvents(seen, sn, gn, consumer, count, at).1, works, maxRetries)
    ensures var (q1, batch) := Queue.ReadEvents(seen, sn, gn, consumer, count, at);
            && |works| <= |batch|
            && var g' := GroupOf(StreamOf(Queue.AckEvent(q1, sn, gn, AckedIds(batch, works)), sn), gn);
            TurnRuns(s, c, RepoAfter(s.repo, works), g', Stopped(batch, works))
  {
    var batch := Queue.ReadEvents(seen, sn, gn, consumer, count, at).1;
    assert |works| <= |batch| && ConsumerAction(Read(c, consumer, count, at), c);
    hide *;
    ReadGroup(seen, sn, gn, consumer, count, at, AckedIds(batch, works));
    ReadIsStep(s, c, consumer, count, at);
    var t, g := Next(s, Read(c, consumer, count, at)), Deliver(s.log, s.group, consumer, count, at);
    TurnIsARun(mac, t, c, batch, works, maxRetries);
    FirstStepThenTurn(s, t, Read(c, consumer, count, at), c, g, batch, RepoAfter(s.repo, works), Forget(g, AckedIds(batch, works)), Stopped(batch, works));
  }

  lemma RecoveredGroup(q: Streams, sn: string, gn: string, claimed: seq<Message>, acked: seq<Message>, now: int)
    ensures GroupOf(StreamOf(AfterRecovery(q, sn, gn, claimed, acked, now), sn), gn) ==
            Forget(Queue.Claim(GroupOf(StreamOf(q, sn), gn), IdList(claimed), "pel-auto-reclaimer", now), IdList(acked))
  {
    assert Forget(Queue.Claim(NEW_GROUP, IdList(claimed), "pel-auto-reclaimer", now), IdList(acked)) == NEW_GROUP;
    hide Queue.Claim, Forget, IdList;
  }

  /** The same for the reclaimer's tick, as `RecoverPass` describes it. */
  lemma RecoverPassIsARun(mac: Mac, s: System, c: nat, q: Streams, sn: string, gn: string, minIdle: int, count: int, now: int,
                          claimed: seq<Message>, works: seq<Work>, maxRetries: int)
    requires Free(s, c) && GroupOf(StreamOf(q, sn), gn) == s.group
    requires IsClaim(s.group, minIdle, count, now, claimed) && WorkedThrough(mac, s.repo, claimed, works, maxRetries)
    ensures |works| <= |claimed|
    ensures var g' := GroupOf(StreamOf(AfterRecovery(q, sn, gn, claimed, AckedOf(claimed, works), now), sn), gn);
            TurnRuns(s, c, RepoAfter(s.repo, works), g', Stopped(claimed, works))
  {
    var first := Claim(c, "pel-auto-reclaimer", minIdle, count, now, IdList(claimed));
    assert |works| <= |claimed| && ConsumerAction(first, c);
    assert AckedIds(claimed, works) == IdList(AckedOf(claimed, works)) && GroupOf(StreamOf(q, sn), gn) == s.group;
    hide *;
    RecoveredGroup(q, sn, gn, claimed, AckedOf(claimed, works), now);
    ClaimIsStep(s, c, "pel-auto-reclaimer", minIdle, count, now, claimed);
    var t, g := Next(s, first), Queue.Claim(s.group, IdList(claimed), "pel-auto-reclaimer", now);
    TurnIsARun(mac, t, c, claimed, works, maxRetries);
    FirstStepThenTurn(s, t, first, c, g, claimed, RepoAfter(s.repo, works), Forget(g, AckedIds(claimed, works)), Stopped(claimed, works));
  }
}
