/**
 * Bookkeeping over every run, with any number of relays and whatever else is written to the topic: where
 * each copy of an event came from, and what the attempts counter and last error of a row mean.
 */
module Ledger {
  import opened Wrappers
  import opened Domain
  import opened Database
  import opened Messages
  import opened ShipmentApi
  import opened Protocol
  import opened OwnEvents
  import T = DispatchTxns

  /** How often each event occurs on the topic. */
  function Copies(log: seq<Record>): multiset<EventId> {
    if log == [] then multiset{} else Copies(log[..|log| - 1]) + IdsIn(log[|log| - 1])
  }

  lemma CopiesAppend(log: seq<Record>, r: Record)
    ensures Copies(log + [r]) == Copies(log) + IdsIn(r)
  {
    assert (log + [r])[..|log|] == log;
  }

  /** e was acknowledged in a transaction that is still open. */
  ghost predicate OpenAck(polls: map<RelayId, Poll>, e: EventId) {
    exists r :: r in polls && e in AckedPart(polls[r])
  }

  function One(b: bool): nat {
    if b then 1 else 0
  }

  ghost predicate PollOk(outbox: map<EventId, OutboxRow>, p: Poll) {
    && p.acked <= |p.batch| && (p.failed.Some? ==> p.acked < |p.batch|)
    && Distinct(p.batch)
    && forall e :: e in p.batch ==> e in Pending(outbox)
  }

  /** Open transactions hold distinct pending rows, and no two hold the same one. */
  ghost predicate PollsOk(outbox: map<EventId, OutboxRow>, polls: map<RelayId, Poll>) {
    && (forall r :: r in polls ==> PollOk(outbox, polls[r]))
    && (forall r, q, e :: r in polls && q in polls && r != q && e in polls[r].batch ==> e !in polls[q].batch)
  }

  /** Every copy of e is accounted for, and e was marked published at most once. */
  ghost predicate Accounted(s: State, e: EventId) {
    && Copies(s.log)[e] ==
       s.tally.marks[e] + s.tally.lostAcks[e] + s.tally.unacked[e] + s.tally.replays[e] + s.tally.foreign[e]
       + One(OpenAck(s.polls, e))
    && s.tally.marks[e] == One(e in s.Db().outbox && s.Db().outbox[e].publishedAt.Some?)
  }

  /** attempts counts the committed polls that tried the row. */
  ghost predicate RowBooked(row: OutboxRow, tries: nat) {
    && row.attempts == tries
    && (row.publishedAt.Some? ==> row.attempts >= 1 && row.lastError.None?)
    && (row.publishedAt.None? ==> (row.lastError.Some? <==> row.attempts > 0))
  }

  ghost predicate Booked(outbox: map<EventId, OutboxRow>, tries: multiset<EventId>) {
    && (forall e :: e in outbox ==> RowBooked(outbox[e], tries[e]))
    && (forall e :: e in tries ==> e in outbox)
  }

  ghost predicate Balanced(s: State) {
    && OutboxOk(s.Db())
    && PollsOk(s.Db().outbox, s.polls)
    && (forall e :: Accounted(s, e))
    && Booked(s.Db().outbox, s.tally.tries)
  }

  // ----- Small facts -----

  lemma {:induction false} DistinctOnce(s: seq<EventId>, e: EventId)
    requires Distinct(s)
    ensures multiset(s)[e] == One(e in s)
    decreases |s|
  {
    if s != [] {
      var n := |s| - 1;
      assert s == s[..n] + [s[n]];
      DistinctOnce(s[..n], e);
    }
  }

  lemma AckedOnce(outbox: map<EventId, OutboxRow>, p: Poll, e: EventId)
    requires PollOk(outbox, p)
    ensures multiset(AckedPart(p))[e] == One(e in AckedPart(p))
    ensures Distinct(AckedPart(p))
    ensures e in AckedPart(p) ==> e in p.batch
  {
    DistinctOnce(AckedPart(p), e);
  }

  /** What a finished poll does to one row. */
  lemma MarkedRow(db: Tables, p: Poll, now: int, e: EventId)
    requires PollOk(db.outbox, p) && e in db.outbox && "" !in db.outbox
    ensures var row, row' := db.outbox[e], MarkBatch(db, ResultOf(p), now).outbox[e];
            && (e in p.batch[..p.acked] ==>
                  row' == row.(publishedAt := Some(now), attempts := row.attempts + 1, lastError := None))
            && (p.failed.Some? && e == p.batch[p.acked] ==>
                  row' == row.(attempts := row.attempts + 1, lastError := Some(p.failed.value)))
            && (e !in p.batch[..p.acked] && !(p.failed.Some? && e == p.batch[p.acked]) ==> row' == row)
  {
    assert p.failed.Some? ==> p.batch[p.acked] in p.batch && p.batch[p.acked] !in p.batch[..p.acked];
  }

  /** The rows of the batch after the one that failed stay exactly as they were. */
  lemma RowsAfterTheFailureAreUnchanged(db: Tables, p: Poll, now: int, j: nat)
    requires PollOk(db.outbox, p) && "" !in db.outbox && p.failed.Some? && p.acked < j < |p.batch|
    ensures p.batch[j] in db.outbox
    ensures MarkBatch(db, ResultOf(p), now).outbox[p.batch[j]] == db.outbox[p.batch[j]]
  {
    hide MarkBatch, ResultOf;
    assert p.batch[j] in Pending(db.outbox);
    MarkedRow(db, p, now, p.batch[j]);
  }

  lemma NoEmptyId(db: Tables)
    requires OutboxOk(db)
    ensures "" !in db.outbox
  {
    hide Says;
  }

  // ----- Rows stay publishable whatever else is on the topic -----

  lemma OutboxDepends(db: Tables, db': Tables)
    requires OutboxOk(db) && db'.outbox == db.outbox && db'.shipments == db.shipments
    ensures OutboxOk(db')
  {
    hide Says;
    forall e | e in db'.outbox
      ensures RowOk(db', e)
    {
      assert RowOk(db, e);
    }
  }

  lemma OutboxStatement(s: State, t: T.Step)
    requires OutboxOk(s.Db()) && CanStep(s, t)
    ensures OutboxOk(ApplyStatement(s, t).Db())
    ensures ApplyStatement(s, t).Db().outbox == s.Db().outbox
  {
    hide OutboxOk;
    OutboxDepends(s.Db(), ApplyStatement(s, t).Db());
  }

  // ----- Steps -----

  lemma BalancedCreate(s: State, call: CreateCall, durable: bool)
    requires Balanced(s) && Prepare(call).Ok? && FreshCall(s.Db(), call)
    ensures Balanced(ApplyCreate(s, call, durable))
  {
    hide Prepare, AfterCreate, OutboxOk, Copies, IdsIn, OpenAck;
    if durable {
      CreateKeeps(s.Db(), call);
      CreateKeepsOutboxOk(s.Db(), call);
      var s' := ApplyCreate(s, call, durable);
      forall e
        ensures Accounted(s', e)
      {
        assert Accounted(s, e);
      }
      forall r | r in s'.polls
        ensures PollOk(s'.Db().outbox, s'.polls[r])
      {
        assert PollOk(s.Db().outbox, s.polls[r]);
      }
    }
  }

  lemma OpenAckAfterClaim(polls: map<RelayId, Poll>, r: RelayId, batch: seq<EventId>, e: EventId)
    requires r !in polls
    ensures OpenAck(polls[r := Poll(batch, 0, None)], e) == OpenAck(polls, e)
  {
    var polls' := polls[r := Poll(batch, 0, None)];
    assert AckedPart(polls'[r]) == [];
    if OpenAck(polls, e) {
      var q :| q in polls && e in AckedPart(polls[q]);
      assert q in polls' && polls'[q] == polls[q];
    }
  }

  lemma PollsOkAfterClaim(outbox: map<EventId, OutboxRow>, polls: map<RelayId, Poll>, r: RelayId, batch: seq<EventId>)
    requires PollsOk(outbox, polls) && r !in polls && Distinct(batch)
    requires forall e :: e in batch ==> e in Pending(outbox) && e !in Locked(polls)
    ensures PollsOk(outbox, polls[r := Poll(batch, 0, None)])
  {
    hide Pending, Distinct;
    forall q, e | q in polls && e in polls[q].batch
      ensures e !in batch
    {
      assert e in Locked(polls);
    }
  }

  lemma BalancedClaim(s: State, r: RelayId, limit: nat, batch: seq<EventId>)
    requires Balanced(s) && CanClaim(s, r, limit, batch)
    ensures Balanced(s.(polls := s.polls[r := Poll(batch, 0, None)]))
  {
    hide OutboxOk, Copies, IdsIn, Booked, SortedByAge, Pending, Distinct, PollsOk, OpenAck, Locked;
    var s' := s.(polls := s.polls[r := Poll(batch, 0, None)]);
    PollsOkAfterClaim(s.Db().outbox, s.polls, r, batch);
    forall e
      ensures Accounted(s', e)
    {
      assert Accounted(s, e);
      OpenAckAfterClaim(s.polls, r, batch, e);
    }
  }

  lemma OpenAckAfterAck(polls: map<RelayId, Poll>, outbox: map<EventId, OutboxRow>, r: RelayId, f: EventId)
    requires PollsOk(outbox, polls) && r in polls && polls[r].acked < |polls[r].batch| && polls[r].failed.None?
    ensures var polls' := polls[r := polls[r].(acked := polls[r].acked + 1)];
            OpenAck(polls', f) == (OpenAck(polls, f) || f == polls[r].batch[polls[r].acked])
  {
    hide PollsOk;
    var p := polls[r];
    var p' := p.(acked := p.acked + 1);
    var polls' := polls[r := p'];
    assert AckedPart(p') == AckedPart(p) + [p.batch[p.acked]];
    if OpenAck(polls, f) {
      var q :| q in polls && f in AckedPart(polls[q]);
      assert q in polls' && f in AckedPart(polls'[q]);
    }
    if f == p.batch[p.acked] {
      assert r in polls' && f in AckedPart(polls'[r]);
    }
    if OpenAck(polls', f) {
      var q :| q in polls' && f in AckedPart(polls'[q]);
      assert q != r ==> q in polls && f in AckedPart(polls[q]);
    }
  }

  /** The event being published is in no acknowledged prefix yet. */
  lemma NotYetAcked(polls: map<RelayId, Poll>, outbox: map<EventId, OutboxRow>, r: RelayId)
    requires PollsOk(outbox, polls) && r in polls && polls[r].acked < |polls[r].batch| && polls[r].failed.None?
    ensures !OpenAck(polls, polls[r].batch[polls[r].acked])
    ensures PollsOk(outbox, polls[r := polls[r].(acked := polls[r].acked + 1)])
  {
    hide Pending;
    var p := polls[r];
    assert p.batch[p.acked] in p.batch && p.batch[p.acked] !in AckedPart(p);
    assert PollOk(outbox, p.(acked := p.acked + 1));
  }

  /** Failing changes no acknowledged prefix. */
  lemma OpenAckAfterFailure(polls: map<RelayId, Poll>, outbox: map<EventId, OutboxRow>, r: RelayId, error: string, f: EventId)
    requires PollsOk(outbox, polls) && r in polls && polls[r].acked < |polls[r].batch|
    ensures var polls' := polls[r := polls[r].(failed := Some(error))];
            PollsOk(outbox, polls') && OpenAck(polls', f) == OpenAck(polls, f)
  {
    var polls' := polls[r := polls[r].(failed := Some(error))];
    assert AckedPart(polls'[r]) == AckedPart(polls[r]);
    assert forall q :: q in polls' ==> q in polls && AckedPart(polls'[q]) == AckedPart(polls[q]);
    assert forall q :: q in polls ==> q in polls' && AckedPart(polls'[q]) == AckedPart(polls[q]);
  }

  lemma BalancedPublish(s: State, r: RelayId, outcome: PublishOutcome, p: Partition, error: string)
    requires Balanced(s) && CanPublish(s, r, p)
    ensures Balanced(ApplyPublish(s, r, outcome, p, error))
  {
    hide Says, RequestIn, RecordFor, MessageFor, OpenAck, Booked, PollsOk, Copies;
    var s' := ApplyPublish(s, r, outcome, p, error);
    var e := s.polls[r].batch[s.polls[r].acked];
    RecordOfRow(s.Db(), e, p);
    CopiesAppend(s.log, RecordFor(s.Db().outbox[e], p));
    NotYetAcked(s.polls, s.Db().outbox, r);
    OpenAckAfterFailure(s.polls, s.Db().outbox, r, error, e);
    forall f
      ensures Accounted(s', f)
    {
      assert Accounted(s, f);
      OpenAckAfterAck(s.polls, s.Db().outbox, r, f);
      OpenAckAfterFailure(s.polls, s.Db().outbox, r, error, f);
    }
  }

  lemma OpenAckAfterEnd(polls: map<RelayId, Poll>, outbox: map<EventId, OutboxRow>, r: RelayId, e: EventId)
    requires PollsOk(outbox, polls) && r in polls
    ensures One(OpenAck(polls, e)) == One(OpenAck(polls - {r}, e)) + One(e in AckedPart(polls[r]))
  {
    if OpenAck(polls, e) {
      var q :| q in polls && e in AckedPart(polls[q]);
      if q != r {
        assert q in polls - {r} && e in AckedPart((polls - {r})[q]);
        assert e in polls[q].batch;
        assert e !in polls[r].batch;
      }
    }
    if OpenAck(polls - {r}, e) {
      var q :| q in polls - {r} && e in AckedPart((polls - {r})[q]);
      assert q in polls && e in AckedPart(polls[q]);
      assert e in polls[q].batch;
    }
  }

  lemma BalancedRollback(s: State, r: RelayId)
    requires Balanced(s) && r in s.polls
    ensures Balanced(ApplyRollback(s, r))
  {
    hide OutboxOk, Copies, IdsIn, OpenAck, Booked;
    var s' := ApplyRollback(s, r);
    forall e
      ensures Accounted(s', e)
    {
      assert Accounted(s, e);
      OpenAckAfterEnd(s.polls, s.Db().outbox, r, e);
      AckedOnce(s.Db().outbox, s.polls[r], e);
    }
  }

  lemma FinishPolls(s: State, r: RelayId, now: int)
    requires Balanced(s) && r in s.polls
    ensures PollsOk(ApplyFinish(s, r, now).Db().outbox, ApplyFinish(s, r, now).polls)
  {
    hide Says, Copies, IdsIn, OpenAck, Booked, Accounted, MarkBatch, ResultOf;
    var s' := ApplyFinish(s, r, now);
    NoEmptyId(s.Db());
    MarkKeeps(s.Db(), ResultOf(s.polls[r]), now);
    forall q, e | q in s'.polls && e in s'.polls[q].batch
      ensures e in Pending(s'.Db().outbox)
    {
      assert e in Pending(s.Db().outbox);
      MarkedRow(s.Db(), s.polls[r], now, e);
      assert e !in s.polls[r].batch;
    }
  }

  lemma FinishAccounts(s: State, r: RelayId, now: int, e: EventId)
    requires Balanced(s) && r in s.polls
    ensures Accounted(ApplyFinish(s, r, now), e)
  {
    hide OutboxOk, Copies, IdsIn, OpenAck, Booked, MarkBatch;
    var p := s.polls[r];
    assert Accounted(s, e);
    NoEmptyId(s.Db());
    MarkKeeps(s.Db(), ResultOf(p), now);
    OpenAckAfterEnd(s.polls, s.Db().outbox, r, e);
    AckedOnce(s.Db().outbox, p, e);
    assert e in AckedPart(p) ==> e in Pending(s.Db().outbox);
    if e in s.Db().outbox {
      MarkedRow(s.Db(), p, now, e);
    }
  }

  lemma TriedOnce(outbox: map<EventId, OutboxRow>, p: Poll, e: EventId)
    requires PollOk(outbox, p) && "" !in outbox
    ensures Tried(ResultOf(p))[e] == One(e in p.batch[..p.acked]) + One(p.failed.Some? && e == p.batch[p.acked])
  {
    AckedOnce(outbox, p, e);
    assert p.failed.Some? ==> p.batch[p.acked] in p.batch && p.batch[p.acked] in outbox;
  }

  lemma FinishBooksRow(db: Tables, p: Poll, now: int, e: EventId, tries: nat)
    requires PollOk(db.outbox, p) && "" !in db.outbox && e in db.outbox && RowBooked(db.outbox[e], tries)
    ensures RowBooked(MarkBatch(db, ResultOf(p), now).outbox[e], tries + Tried(ResultOf(p))[e])
  {
    hide MarkBatch, ResultOf, Tried;
    TriedOnce(db.outbox, p, e);
    MarkedRow(db, p, now, e);
    assert e in p.batch[..p.acked] ==> e in p.batch;
    assert p.failed.Some? ==> p.batch[p.acked] in p.batch && p.batch[p.acked] !in p.batch[..p.acked];
  }

  lemma TriedAreInBatch(outbox: map<EventId, OutboxRow>, p: Poll, e: EventId)
    requires PollOk(outbox, p) && "" !in outbox && e in Tried(ResultOf(p))
    ensures e in outbox
  {
    hide ResultOf, Tried;
    TriedOnce(outbox, p, e);
    assert e in p.batch[..p.acked] ==> e in p.batch;
    assert p.failed.Some? ==> p.batch[p.acked] in p.batch;
  }

  lemma FinishBooks(db: Tables, p: Poll, now: int, tries: multiset<EventId>)
    requires PollOk(db.outbox, p) && "" !in db.outbox && Booked(db.outbox, tries)
    ensures Booked(MarkBatch(db, ResultOf(p), now).outbox, tries + Tried(ResultOf(p)))
  {
    hide MarkBatch, ResultOf, Tried, PollOk, RowBooked;
    MarkKeeps(db, ResultOf(p), now);
    forall e | e in db.outbox
      ensures RowBooked(MarkBatch(db, ResultOf(p), now).outbox[e], (tries + Tried(ResultOf(p)))[e])
    {
      FinishBooksRow(db, p, now, e, tries[e]);
    }
    forall e | e in Tried(ResultOf(p))
      ensures e in db.outbox
    {
      TriedAreInBatch(db.outbox, p, e);
    }
  }

  lemma BalancedFinish(s: State, r: RelayId, now: int)
    requires Balanced(s) && r in s.polls
    ensures Balanced(ApplyFinish(s, r, now))
  {
    hide OutboxOk, PollOk, Accounted, Booked, MarkBatch, ResultOf, Tried;
    MarkKeepsOutboxOk(s.Db(), ResultOf(s.polls[r]), now);
    MarkKeeps(s.Db(), ResultOf(s.polls[r]), now);
    FinishPolls(s, r, now);
    NoEmptyId(s.Db());
    FinishBooks(s.Db(), s.polls[r], now, s.tally.tries);
    forall e
      ensures Accounted(ApplyFinish(s, r, now), e)
    {
      FinishAccounts(s, r, now, e);
    }
  }

  /** A record from the replay tool or a stranger. */
  lemma BalancedAppend(s: State, s': State, r: Record)
    requires Balanced(s) && s'.txns == s.txns && s'.polls == s.polls && s'.log == s.log + [r]
    requires s'.tally == s.tally.(replays := s.tally.replays + IdsIn(r))
             || s'.tally == s.tally.(foreign := s.tally.foreign + IdsIn(r))
    ensures Balanced(s')
  {
    hide OutboxOk, PollsOk, Booked, Copies, IdsIn, OpenAck;
    CopiesAppend(s.log, r);
    forall e
      ensures Accounted(s', e)
    {
      assert Accounted(s, e);
    }
  }

  /** Steps that touch neither outbox, open polls, log nor tally. */
  lemma BalancedElsewhere(s: State, s': State)
    requires Balanced(s) && OutboxOk(s'.Db()) && s'.Db().outbox == s.Db().outbox
    requires s'.polls == s.polls && s'.log == s.log && s'.tally == s.tally
    ensures Balanced(s')
  {
    hide OutboxOk, PollsOk, Booked, Copies, IdsIn, OpenAck;
    forall e
      ensures Accounted(s', e)
    {
      assert Accounted(s, e);
    }
  }

  lemma BalancedHasOutbox(s: State)
    requires Balanced(s)
    ensures OutboxOk(s.Db())
  {
  }

  lemma BalancedStep(s: State, step: Step)
    requires Balanced(s) && Enabled(s, step)
    ensures Balanced(Apply(s, step))
  {
    hide Balanced, OutboxOk, ApplyCreate, ApplyPublish, ApplyFinish, ApplyRollback, ApplyStatement, Prepare, FreshCall, CanStep,
         IsClaim, RequestIn, RecordFor, IdsIn, MessageFor;
    BalancedHasOutbox(s);
    if step.Create? {
      BalancedCreate(s, step.call, step.durable);
    } else if step.Claim? {
      BalancedClaim(s, step.r, step.limit, step.batch);
    } else if step.Publish? {
      BalancedPublish(s, step.r, step.outcome, step.partition, step.error);
    } else if step.Finish? {
      BalancedFinish(s, step.r, step.now);
    } else if step.Rollback? {
      BalancedRollback(s, step.r);
    } else if step.Replay? {
      if step.written {
        BalancedAppend(s, Apply(s, step), RecordFor(s.Db().outbox[step.e], step.partition));
      }
    } else if step.Foreign? {
      BalancedAppend(s, Apply(s, step), step.record);
    } else if step.Statement? {
      BalancedStatement(s, step.step);
    } else {
      BalancedElsewhere(s, Apply(s, step));
    }
  }

  lemma BalancedStatement(s: State, t: T.Step)
    requires Balanced(s) && CanStep(s, t)
    ensures Balanced(ApplyStatement(s, t))
  {
    hide OutboxOk, PollsOk, Accounted, Booked, CanStep, T.Apply;
    OutboxStatement(s, t);
    BalancedElsewhere(s, ApplyStatement(s, t));
  }

  lemma {:induction false} BalancedRun(s: State, steps: seq<Step>)
    requires Balanced(s) && IsRun(s, steps)
    ensures Balanced(Final(s, steps))
    decreases |steps|
  {
    hide Balanced, Enabled, Apply;
    if steps != [] {
      BalancedStep(s, steps[0]);
      BalancedRun(Apply(s, steps[0]), steps[1..]);
    }
  }

  /**
   * Conservation: the copies of e on the topic are the mark, the acknowledged publishes whose transaction
   * rolled back, the failed publishes that were written, the replays, foreign copies, and at most one
   * acknowledgment in a transaction still open; and a row is marked at most once.
   */
  lemma CopiesAreConserved(steps: seq<Step>, e: EventId)
    requires IsRun(INIT, steps)
    ensures Accounted(Final(INIT, steps), e) && Final(INIT, steps).tally.marks[e] <= 1
  {
    hide Enabled, Apply;
    BalancedRun(INIT, steps);
    assert Accounted(Final(INIT, steps), e);
  }

  /** Two relays never hold the same row, and every row they hold is pending. */
  lemma ClaimsAreDisjoint(steps: seq<Step>)
    requires IsRun(INIT, steps)
    ensures PollsOk(Final(INIT, steps).Db().outbox, Final(INIT, steps).polls)
  {
    hide Enabled, Apply, PollsOk;
    assert PollsOk(INIT.Db().outbox, INIT.polls) by { EmptyPolls(); }
    BalancedRun(INIT, steps);
  }

  lemma EmptyPolls()
    ensures PollsOk(INIT.Db().outbox, INIT.polls)
  {
  }

  /** What attempts and last_error of every row mean, in every run. */
  lemma RowsAreBooked(steps: seq<Step>, e: EventId)
    requires IsRun(INIT, steps) && e in Final(INIT, steps).Db().outbox
    ensures RowBooked(Final(INIT, steps).Db().outbox[e], Final(INIT, steps).tally.tries[e])
  {
    hide Enabled, Apply;
    BalancedRun(INIT, steps);
  }
}
