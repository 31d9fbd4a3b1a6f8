/**
 * One relay, no replays, creation times strictly increasing: events first appear on the topic in creation
 * order, with no gap, whatever crashes, rollbacks and unacknowledged writes happen in between.
 */
module Order {
  import opened Wrappers
  import opened Domain
  import opened Database
  import opened Messages
  import opened ShipmentApi
  import opened Protocol
  import opened OwnEvents
  import opened Ledger
  import T = DispatchTxns

  predicate OrderedStep(s: State, step: Step) {
    && !step.Foreign? && !step.Replay?
    && (step.Claim? ==> s.polls == map[])
    && (step.Create? ==> forall e :: e in s.Db().outbox ==> s.Db().outbox[e].createdAt < step.call.now)
  }

  predicate IsOrderedRun(s: State, steps: seq<Step>)
    decreases |steps|
  {
    steps == [] ||
    (Enabled(s, steps[0]) && OrderedStep(s, steps[0]) && IsOrderedRun(Apply(s, steps[0]), steps[1..]))
  }

  predicate DistinctAges(outbox: map<EventId, OutboxRow>) {
    forall e, f :: e in outbox && f in outbox && e != f ==> outbox[e].createdAt != outbox[f].createdAt
  }

  predicate Older(outbox: map<EventId, OutboxRow>, e: EventId, f: EventId) {
    e in outbox && f in outbox && outbox[e].createdAt < outbox[f].createdAt
  }

  /** No record of an event comes before the first record of any older event. */
  ghost predicate GapFree(outbox: map<EventId, OutboxRow>, log: seq<Record>) {
    forall j, e :: 0 <= j < |log| && EventIn(log[j]).Some? && Older(outbox, e, EventIn(log[j]).value) ==>
      Logged(log[..j], e)
  }

  ghost predicate OnlyOwn(outbox: map<EventId, OutboxRow>, log: seq<Record>) {
    forall j :: 0 <= j < |log| ==> EventIn(log[j]).Some? && EventIn(log[j]).value in outbox
  }

  /** The batch leaves out no pending row older than one of its members, and is in age order. */
  ghost predicate OldestPending(outbox: map<EventId, OutboxRow>, p: Poll) {
    forall k, e :: 0 <= k < |p.batch| && e in Pending(outbox) && Older(outbox, e, p.batch[k]) ==> e in p.batch[..k]
  }

  ghost predicate InOrder(outbox: map<EventId, OutboxRow>, log: seq<Record>, polls: map<RelayId, Poll>) {
    && DistinctAges(outbox)
    && OnlyOwn(outbox, log)
    && GapFree(outbox, log)
    && (forall r, q :: r in polls && q in polls ==> r == q)
    && (forall e :: e in outbox && outbox[e].publishedAt.Some? ==> Logged(log, e))
    && (forall r :: r in polls ==> OldestPending(outbox, polls[r]))
    && (forall r, e :: r in polls && e in AckedPart(polls[r]) ==> Logged(log, e))
  }

  ghost predicate Ordered(s: State) {
    Balanced(s) && InOrder(s.Db().outbox, s.log, s.polls)
  }

  // ----- Steps -----

  lemma CreateInOrder(outbox: map<EventId, OutboxRow>, outbox': map<EventId, OutboxRow>, log: seq<Record>,
                      polls: map<RelayId, Poll>, e: EventId)
    requires InOrder(outbox, log, polls) && PollsOk(outbox, polls)
    requires e !in outbox && e in outbox' && outbox'.Keys == outbox.Keys + {e} && outbox'[e].publishedAt.None?
    requires forall f :: f in outbox ==> outbox'[f] == outbox[f] && outbox[f].createdAt < outbox'[e].createdAt
    ensures InOrder(outbox', log, polls)
  {
    hide EventIn, Logged, AckedPart, Distinct;
    assert forall f, g :: g in outbox && Older(outbox', f, g) ==> Older(outbox, f, g);
    forall r | r in polls
      ensures OldestPending(outbox', polls[r])
    {
      assert OldestPending(outbox, polls[r]) && PollOk(outbox, polls[r]);
      forall k, f | 0 <= k < |polls[r].batch| && f in Pending(outbox') && Older(outbox', f, polls[r].batch[k])
        ensures f in polls[r].batch[..k]
      {
        assert polls[r].batch[k] in Pending(outbox);
        assert Older(outbox, f, polls[r].batch[k]) && f in Pending(outbox);
      }
    }
  }

  lemma OrderedCreate(s: State, call: CreateCall, durable: bool)
    requires Ordered(s) && Prepare(call).Ok? && FreshCall(s.Db(), call)
    requires forall e :: e in s.Db().outbox ==> s.Db().outbox[e].createdAt < call.now
    ensures Ordered(ApplyCreate(s, call, durable))
  {
    hide Prepare, AfterCreate, OutboxOk, Accounted, Booked, InOrder, PollsOk;
    BalancedCreate(s, call, durable);
    if durable {
      CreateKeeps(s.Db(), call);
      CreateInOrder(s.Db().outbox, AfterCreate(s.Db(), call).outbox, s.log, s.polls, call.eventId);
    }
  }

  lemma ClaimIsOldest(outbox: map<EventId, OutboxRow>, limit: nat, batch: seq<EventId>)
    requires DistinctAges(outbox) && IsClaim(outbox, {}, limit, batch)
    ensures OldestPending(outbox, Poll(batch, 0, None))
  {
    forall k, e | 0 <= k < |batch| && e in Pending(outbox) && Older(outbox, e, batch[k])
      ensures e in batch[..k]
    {
      assert e in batch;
      var m :| 0 <= m < |batch| && batch[m] == e;
      assert m < k;
    }
  }

  lemma OrderedClaim(s: State, r: RelayId, limit: nat, batch: seq<EventId>)
    requires Ordered(s) && CanClaim(s, r, limit, batch) && s.polls == map[]
    ensures Ordered(s.(polls := s.polls[r := Poll(batch, 0, None)]))
  {
    hide Balanced, GapFree, EventIn, Logged, OnlyOwn, IsClaim, DistinctAges, OldestPending;
    BalancedClaim(s, r, limit, batch);
    assert Locked(s.polls) == {};
    ClaimIsOldest(s.Db().outbox, limit, batch);
  }

  /** Appending an event all of whose elders are on the topic leaves no gap. */
  lemma AppendKeepsOrder(outbox: map<EventId, OutboxRow>, log: seq<Record>, r: Record, e: EventId)
    requires OnlyOwn(outbox, log) && GapFree(outbox, log) && EventIn(r) == Some(e) && e in outbox
    requires forall f :: Older(outbox, f, e) ==> Logged(log, f)
    ensures OnlyOwn(outbox, log + [r]) && GapFree(outbox, log + [r]) && Logged(log + [r], e)
  {
    hide EventIn, Logged, Older;
    var log' := log + [r];
    forall j, f | 0 <= j < |log'| && EventIn(log'[j]).Some? && Older(outbox, f, EventIn(log'[j]).value)
      ensures Logged(log'[..j], f)
    {
      if j < |log| {
        assert log'[..j] == log[..j];
      } else {
        assert log'[..j] == log;
      }
    }
    LastIsLogged(log, r, e);
  }

  lemma LastIsLogged(log: seq<Record>, r: Record, e: EventId)
    requires EventIn(r) == Some(e)
    ensures Logged(log + [r], e)
  {
    hide EventIn;
    assert (log + [r])[|log|] == r;
  }

  /** Everything older than the row being published is already on the topic. */
  lemma EldersAreLogged(outbox: map<EventId, OutboxRow>, log: seq<Record>, polls: map<RelayId, Poll>, r: RelayId, f: EventId)
    requires InOrder(outbox, log, polls) && r in polls && polls[r].acked < |polls[r].batch|
    requires Older(outbox, f, polls[r].batch[polls[r].acked])
    ensures Logged(log, f)
  {
    hide GapFree, OnlyOwn, Logged, EventIn, DistinctAges;
    if outbox[f].publishedAt.None? {
      assert f in Pending(outbox);
      assert OldestPending(outbox, polls[r]);
    }
  }

  /** The record of the next row of the batch arrives on the topic. */
  lemma WriteInOrder(outbox: map<EventId, OutboxRow>, log: seq<Record>, polls: map<RelayId, Poll>, r: RelayId,
                     rec: Record, poll': Poll)
    requires InOrder(outbox, log, polls) && r in polls && polls[r].acked < |polls[r].batch|
    requires var e := polls[r].batch[polls[r].acked]; EventIn(rec) == Some(e) && e in outbox
    requires poll'.batch == polls[r].batch && polls[r].acked <= poll'.acked <= polls[r].acked + 1
    ensures InOrder(outbox, log + [rec], polls[r := poll'])
  {
    hide GapFree, OnlyOwn, Logged, EventIn, Older, DistinctAges;
    var e := polls[r].batch[polls[r].acked];
    forall f | Older(outbox, f, e)
      ensures Logged(log, f)
    {
      EldersAreLogged(outbox, log, polls, r, f);
    }
    AppendKeepsOrder(outbox, log, rec, e);
    forall f | Logged(log, f)
      ensures Logged(log + [rec], f)
    {
      LoggedStays(log, log + [rec], f);
    }
    forall f | f in AckedPart(poll')
      ensures f in AckedPart(polls[r]) || f == e
    {
    }
  }

  lemma OrderedPublish(s: State, r: RelayId, outcome: PublishOutcome, p: Partition, error: string)
    requires Ordered(s) && CanPublish(s, r, p)
    ensures Ordered(ApplyPublish(s, r, outcome, p, error))
  {
    hide OutboxOk, PollsOk, Accounted, Booked, GapFree, OnlyOwn, Logged, EventIn, RequestIn, OldestPending, DistinctAges,
         RecordFor, MessageFor;
    var poll := s.polls[r];
    var e := poll.batch[poll.acked];
    BalancedPublish(s, r, outcome, p, error);
    RecordOfRow(s.Db(), e, p);
    if outcome.NotWritten? {
      FailInOrder(s.Db().outbox, s.log, s.polls, r, error);
    } else {
      WriteInOrder(s.Db().outbox, s.log, s.polls, r, RecordFor(s.Db().outbox[e], p),
                   ApplyPublish(s, r, outcome, p, error).polls[r]);
    }
  }

  lemma FailInOrder(outbox: map<EventId, OutboxRow>, log: seq<Record>, polls: map<RelayId, Poll>, r: RelayId, error: string)
    requires InOrder(outbox, log, polls) && r in polls
    ensures InOrder(outbox, log, polls[r := polls[r].(failed := Some(error))])
  {
    hide GapFree, OnlyOwn, Logged, EventIn, DistinctAges;
    assert AckedPart(polls[r].(failed := Some(error))) == AckedPart(polls[r]);
  }

  /** Marking publishes only acknowledged rows, so whatever is marked is on the topic. */
  lemma FinishInOrder(db: Tables, log: seq<Record>, polls: map<RelayId, Poll>, r: RelayId, now: int)
    requires InOrder(db.outbox, log, polls) && r in polls && PollOk(db.outbox, polls[r]) && "" !in db.outbox
    ensures InOrder(MarkBatch(db, ResultOf(polls[r]), now).outbox, log, polls - {r})
  {
    hide Logged, EventIn, MarkBatch, ResultOf;
    var outbox' := MarkBatch(db, ResultOf(polls[r]), now).outbox;
    MarkKeeps(db, ResultOf(polls[r]), now);
    forall e | e in outbox' && outbox'[e].publishedAt.Some?
      ensures Logged(log, e)
    {
      MarkedRow(db, polls[r], now, e);
      assert AckedPart(polls[r]) == polls[r].batch[..polls[r].acked];
    }
    assert forall e, f :: Older(outbox', e, f) ==> Older(db.outbox, e, f);
  }

  lemma OrderedFinish(s: State, r: RelayId, now: int)
    requires Ordered(s) && r in s.polls
    ensures Ordered(ApplyFinish(s, r, now))
  {
    hide OutboxOk, Accounted, Booked, InOrder, MarkBatch, ResultOf, PollOk;
    BalancedFinish(s, r, now);
    NoEmptyId(s.Db());
    FinishInOrder(s.Db(), s.log, s.polls, r, now);
  }

  lemma OrderedRollback(s: State, r: RelayId)
    requires Ordered(s) && r in s.polls
    ensures Ordered(ApplyRollback(s, r))
  {
    hide Balanced, GapFree, OnlyOwn, Logged, OldestPending, AckedPart, DistinctAges;
    BalancedRollback(s, r);
  }

  /** Steps of everybody else touch neither outbox, log nor open relay transactions. */
  lemma OrderedElsewhere(s: State, s': State)
    requires Ordered(s) && Balanced(s')
    requires s'.Db().outbox == s.Db().outbox && s'.log == s.log && s'.polls == s.polls
    ensures Ordered(s')
  {
    hide Balanced, InOrder;
  }

  lemma OrderedStatement(s: State, t: T.Step)
    requires Ordered(s) && CanStep(s, t)
    ensures Ordered(ApplyStatement(s, t))
  {
    hide OutboxOk, PollsOk, Accounted, Booked, InOrder, CanStep, T.Apply;
    OutboxStatement(s, t);
    BalancedStatement(s, t);
    OrderedElsewhere(s, ApplyStatement(s, t));
  }

  lemma OrderedIsBalanced(s: State)
    requires Ordered(s)
    ensures Balanced(s)
  {
  }

  lemma OrderedInvStep(s: State, step: Step)
    requires Ordered(s) && Enabled(s, step) && OrderedStep(s, step)
    ensures Ordered(Apply(s, step))
  {
    hide Ordered, Balanced, ApplyCreate, ApplyPublish, ApplyFinish, ApplyStatement, ApplyRollback, Prepare, FreshCall,
         CanStep, IsClaim, RequestIn, RecordFor, IdsIn, MessageFor;
    OrderedIsBalanced(s);
    if step.Create? {
      OrderedCreate(s, step.call, step.durable);
    } else if step.Claim? {
      OrderedClaim(s, step.r, step.limit, step.batch);
    } else if step.Publish? {
      OrderedPublish(s, step.r, step.outcome, step.partition, step.error);
    } else if step.Finish? {
      OrderedFinish(s, step.r, step.now);
    } else if step.Rollback? {
      OrderedRollback(s, step.r);
    } else if step.Statement? {
      OrderedStatement(s, step.step);
    } else {
      BalancedStep(s, step);
      OrderedElsewhere(s, Apply(s, step));
    }
  }

  lemma {:induction false} OrderedRun(s: State, steps: seq<Step>)
    requires Ordered(s) && IsOrderedRun(s, steps)
    ensures IsRun(s, steps) && Ordered(Final(s, steps))
    decreases |steps|
  {
    hide Ordered, Enabled, Apply, OrderedStep;
    if steps != [] {
      OrderedInvStep(s, steps[0]);
      OrderedRun(Apply(s, steps[0]), steps[1..]);
    }
  }

  // ----- First occurrences -----

  /** The events of the topic, each at its first occurrence. */
  function Firsts(log: seq<Record>): seq<EventId> {
    if log == [] then []
    else
      var before := Firsts(log[..|log| - 1]);
      var e := EventIn(log[|log| - 1]);
      if e.Some? && e.value !in before then before + [e.value] else before
  }

  /** events is the beginning of the outbox in creation order. */
  ghost predicate OldestFirst(outbox: map<EventId, OutboxRow>, events: seq<EventId>) {
    && Distinct(events)
    && (forall e :: e in events ==> e in outbox)
    && (forall j, e :: 0 <= j < |events| && Older(outbox, e, events[j]) ==> e in events[..j])
  }

  lemma {:induction false} FirstsAreLogged(log: seq<Record>, e: EventId)
    ensures e in Firsts(log) <==> Logged(log, e)
    decreases |log|
  {
    hide EventIn;
    if log != [] {
      var n := |log| - 1;
      FirstsAreLogged(log[..n], e);
      if Logged(log, e) {
        var i :| 0 <= i < |log| && EventIn(log[i]) == Some(e);
        if i < n {
          assert log[..n][i] == log[i];
        }
      }
      if Logged(log[..n], e) {
        LoggedStays(log[..n], log, e);
      }
      if EventIn(log[n]) == Some(e) {
        assert Logged(log, e);
      }
    }
  }

  lemma {:induction false} FirstsAreOldestFirst(outbox: map<EventId, OutboxRow>, log: seq<Record>)
    requires OnlyOwn(outbox, log) && GapFree(outbox, log)
    ensures OldestFirst(outbox, Firsts(log))
    decreases |log|
  {
    hide EventIn, Logged, Older;
    if log != [] {
      var n := |log| - 1;
      var before := Firsts(log[..n]);
      assert GapFree(outbox, log[..n]) by {
        forall j, e | 0 <= j < n && EventIn(log[j]).Some? && Older(outbox, e, EventIn(log[j]).value)
          ensures Logged(log[..n][..j], e)
        {
          assert log[..n][..j] == log[..j];
        }
      }
      FirstsAreOldestFirst(outbox, log[..n]);
      var last := EventIn(log[n]).value;
      if last !in before {
        assert Firsts(log) == before + [last];
        forall j, e | 0 <= j < |Firsts(log)| && Older(outbox, e, Firsts(log)[j])
          ensures e in Firsts(log)[..j]
        {
          assert Firsts(log)[..j] == before[..j];
          if j == |before| {
            FirstsAreLogged(log[..n], e);
            assert before[..j] == before;
          }
        }
      }
    }
  }

  /**
   * In every such run the first occurrences on the topic are, in order, the oldest events of the outbox:
   * publishing never overtakes and never skips.
   */
  lemma FirstOccurrencesFollowCreation(steps: seq<Step>)
    requires IsOrderedRun(INIT, steps)
    ensures IsRun(INIT, steps)
    ensures var s := Final(INIT, steps); OldestFirst(s.Db().outbox, Firsts(s.log))
  {
    hide Enabled, Apply, OrderedStep, Balanced, EventIn, Logged, OldestPending;
    OrderedInit();
    OrderedRun(INIT, steps);
    FirstsAreOldestFirst(Final(INIT, steps).Db().outbox, Final(INIT, steps).log);
  }

  lemma OrderedInit()
    ensures Ordered(INIT)
  {
    hide EventIn, IdsIn;
    EmptyPolls();
  }
}
