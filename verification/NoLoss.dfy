/**
 * What every run keeps, whatever else is written to the topic: each committed offset has only dispatched
 * records below it, and processed events and dispatches correspond one to one.
 */
module NoLoss {
  import opened Wrappers
  import opened Domain
  import opened Database
  import opened ShipmentApi
  import opened Protocol
  import T = DispatchTxns

  /** Processed events and dispatch rows are in bijection by event. */
  ghost predicate Bijective(db: Tables) {
    && (forall e :: e in db.processed ==> exists s :: s in db.dispatches && db.dispatches[s].eventId == e)
    && (forall s :: s in db.dispatches ==> db.dispatches[s].eventId in db.processed)
    && (forall s, u :: s in db.dispatches && u in db.dispatches && s != u ==>
          db.dispatches[s].eventId != db.dispatches[u].eventId)
  }

  /** The record decoded, its event is processed and a dispatch row names it. */
  ghost predicate Dispatched(db: Tables, r: Record) {
    && EventIn(r).Some? && EventIn(r).value in db.processed
    && exists s :: s in db.dispatches && db.dispatches[s].eventId == EventIn(r).value
  }

  predicate Effective(r: DispatchResult) {
    r.Created? || r.Duplicate?
  }

  // ----- The database side -----

  ghost predicate OutcomesOk(t: T.State) {
    forall x :: x in t.outcomes ==>
      && x < t.begun && x !in t.open
      && (Effective(t.outcomes[x].result) ==> t.outcomes[x].req.eventId in t.db.processed)
  }

  ghost predicate TxnInv(t: T.State) {
    T.LockInv(t) && Bijective(t.db) && OutcomesOk(t)
  }

  /** Transactions keep their requests, and processed events stay processed. */
  ghost predicate TxnsGrow(t: T.State, u: T.State) {
    && t.begun <= u.begun
    && t.db.processed <= u.db.processed
    && (forall x :: x < t.begun && x in u.open ==> x in t.open && u.open[x].req == t.open[x].req)
    && (forall x :: x < t.begun && x in u.outcomes ==>
          || (x in t.outcomes && u.outcomes[x] == t.outcomes[x])
          || (x in t.open && u.outcomes[x].req == t.open[x].req))
  }

  lemma CommitKeepsBijection(t: T.State, x: T.TxnId)
    requires TxnInv(t) && T.Enabled(t, T.Commit(x))
    ensures Bijective(T.Apply(t, T.Commit(x)).db)
  {
    var u := T.Apply(t, T.Commit(x));
    var txn := t.open[x];
    assert T.PhaseOk(t.db, txn);
    if txn.phase.HoldsBoth? {
      forall e | e in u.db.processed
        ensures exists s :: s in u.db.dispatches && u.db.dispatches[s].eventId == e
      {
        if e == txn.req.eventId {
          assert u.db.dispatches[txn.req.shipmentId].eventId == e;
        } else {
          var s :| s in t.db.dispatches && t.db.dispatches[s].eventId == e;
          assert u.db.dispatches[s].eventId == e;
        }
      }
    }
  }

  lemma TxnStep(t: T.State, step: T.Step)
    requires TxnInv(t) && T.Enabled(t, step)
    ensures TxnInv(T.Apply(t, step)) && TxnsGrow(t, T.Apply(t, step))
  {
    T.LockInvStep(t, step);
    if step.Commit? {
      CommitKeepsBijection(t, step.x);
      assert T.PhaseOk(t.db, t.open[step.x]);
    }
  }

  // ----- The consumer side -----

  predicate Recorded(processed: set<EventId>, r: Record) {
    EventIn(r).Some? && EventIn(r).value in processed
  }

  ghost predicate CallOk(t: T.State, req: DispatchRequest, x: T.TxnId) {
    && x < t.begun
    && (x in t.open ==> t.open[x].req == req)
    && (x in t.outcomes ==> t.outcomes[x].req == req)
  }

  /** The consumer is at offset, which is the last record it fetched from that partition. */
  ghost predicate At(log: seq<Record>, positions: map<Partition, nat>, offset: nat) {
    offset < |log| && log[offset].partition in positions && positions[log[offset].partition] == offset + 1
  }

  ghost predicate WorkOk(t: T.State, log: seq<Record>, c: Consumer) {
    match c.work
    case Idle => true
    case Handling(offset, req, call) =>
      && At(log, c.positions, offset)
      && RequestIn(log[offset]) == Some(req)
      && (call.Some? ==> CallOk(t, req, call.value))
    case Handled(offset) =>
      At(log, c.positions, offset) && Recorded(t.db.processed, log[offset])
  }

  /** Every record of these partitions below the positions is recorded, except the one at hand. */
  ghost predicate BehindOk(processed: set<EventId>, log: seq<Record>, positions: map<Partition, nat>, atHand: Option<nat>) {
    && (forall p :: p in positions ==> positions[p] <= |log|)
    && (forall i :: 0 <= i < |log| && log[i].partition in positions && i < positions[log[i].partition] ==>
          Recorded(processed, log[i]) || atHand == Some(i))
  }

  function AtHand(w: Work): Option<nat> {
    if w.Handling? then Some(w.offset) else None
  }

  ghost predicate ConsumerOk(t: T.State, log: seq<Record>, c: Consumer) {
    WorkOk(t, log, c) && BehindOk(t.db.processed, log, c.positions, AtHand(c.work))
  }

  ghost predicate ConsumersOk(t: T.State, log: seq<Record>, consumers: map<ConsumerId, Consumer>) {
    forall c :: c in consumers ==> ConsumerOk(t, log, consumers[c])
  }

  /** Committed offsets are positions from which a consumer may start. */
  ghost predicate Safe(s: State) {
    && TxnInv(s.txns)
    && BehindOk(s.Db().processed, s.log, s.committed, None)
    && ConsumersOk(s.txns, s.log, s.consumers)
  }

  lemma BehindStays(processed: set<EventId>, log: seq<Record>, processed': set<EventId>, log': seq<Record>,
                    positions: map<Partition, nat>, atHand: Option<nat>)
    requires BehindOk(processed, log, positions, atHand) && processed <= processed' && log <= log'
    ensures BehindOk(processed', log', positions, atHand)
  {
  }

  lemma ConsumerStays(t: T.State, log: seq<Record>, t': T.State, log': seq<Record>, c: Consumer)
    requires ConsumerOk(t, log, c) && TxnsGrow(t, t') && log <= log'
    ensures ConsumerOk(t', log', c)
  {
    BehindStays(t.db.processed, log, t'.db.processed, log', c.positions, AtHand(c.work));
  }

  /** A step that touches neither consumers nor committed offsets. */
  lemma OthersStay(s: State, s': State)
    requires Safe(s) && TxnInv(s'.txns) && TxnsGrow(s.txns, s'.txns) && s.log <= s'.log
    requires s'.committed == s.committed && s'.consumers == s.consumers
    ensures Safe(s')
  {
    BehindStays(s.Db().processed, s.log, s'.Db().processed, s'.log, s.committed, None);
    forall c | c in s'.consumers
      ensures ConsumerOk(s'.txns, s'.log, s'.consumers[c])
    {
      ConsumerStays(s.txns, s.log, s'.txns, s'.log, s.consumers[c]);
    }
  }

  lemma SafeCreate(s: State, call: CreateCall, durable: bool)
    requires Safe(s) && Prepare(call).Ok? && FreshCall(s.Db(), call)
    ensures Safe(ApplyCreate(s, call, durable))
  {
    if durable {
      var db := AfterCreate(s.Db(), call);
      TxnStep(s.txns, T.External(db.shipments, db.outbox));
    }
    OthersStay(s, ApplyCreate(s, call, durable));
  }

  lemma SafeFinish(s: State, r: RelayId, now: int)
    requires Safe(s) && r in s.polls
    ensures Safe(ApplyFinish(s, r, now))
  {
    var db := MarkBatch(s.Db(), ResultOf(s.polls[r]), now);
    TxnStep(s.txns, T.External(db.shipments, db.outbox));
    OthersStay(s, ApplyFinish(s, r, now));
  }

  lemma SafePublish(s: State, r: RelayId, outcome: PublishOutcome, p: Partition, error: string)
    requires Safe(s) && CanPublish(s, r, p)
    ensures Safe(ApplyPublish(s, r, outcome, p, error))
  {
    OthersStay(s, ApplyPublish(s, r, outcome, p, error));
  }

  lemma SafeStatement(s: State, t: T.Step)
    requires Safe(s) && CanStep(s, t)
    ensures Safe(ApplyStatement(s, t))
  {
    hide T.LockInv, Bijective, OutcomesOk, T.Apply, T.Enabled, BehindOk, ConsumersOk;
    TxnStep(s.txns, t);
    OthersStay(s, ApplyStatement(s, t));
  }

  /** Steps that leave the transactions alone and at most append to the log. */
  lemma SafeElsewhere(s: State, s': State)
    requires Safe(s) && s'.txns == s.txns && s.log <= s'.log
    requires s'.committed == s.committed && s'.consumers == s.consumers
    ensures Safe(s')
  {
    OthersStay(s, s');
  }

  /** A consumer starts from the committed offset. */
  lemma SafeAssign(s: State, c: ConsumerId, p: Partition)
    requires Safe(s) && CanAssign(s, c, p)
    ensures Safe(ApplyAssign(s, c, p))
  {
    var consumer := ApplyAssign(s, c, p).consumers[c];
    assert BehindOk(s.Db().processed, s.log, consumer.positions, None) by {
      if c in s.consumers {
        assert ConsumerOk(s.txns, s.log, s.consumers[c]);
      }
    }
  }

  lemma SafeRevoke(s: State, c: ConsumerId, p: Partition)
    requires Safe(s) && c in s.consumers && s.consumers[c].work.Idle?
    ensures Safe(ApplyRevoke(s, c, p))
  {
    assert ConsumerOk(s.txns, s.log, s.consumers[c]);
  }

  lemma SafePollRecord(s: State, c: ConsumerId, offset: nat)
    requires Safe(s) && CanPoll(s, c, offset)
    ensures Safe(ApplyPollRecord(s, c, offset))
  {
    hide TxnInv, RequestIn, EventIn;
    assert ConsumerOk(s.txns, s.log, s.consumers[c]);
    var before := s.consumers[c].positions;
    var p := s.log[offset].partition;
    var after := before[p := offset + 1];
    assert BehindOk(s.Db().processed, s.log, after, Some(offset)) by {
      forall i | 0 <= i < |s.log| && s.log[i].partition in after && i < after[s.log[i].partition] && i != offset
        ensures Recorded(s.Db().processed, s.log[i])
      {
        assert s.log[i].partition == p ==> i < before[p];
      }
    }
  }

  lemma SafeCallStore(s: State, c: ConsumerId)
    requires Safe(s) && c in s.consumers && s.consumers[c].work.Handling?
    ensures Safe(ApplyCallStore(s, c))
  {
    hide T.LockInv, Bijective, RequestIn, EventIn, Recorded;
    var s' := ApplyCallStore(s, c);
    TxnStep(s.txns, T.Begin(s.consumers[c].work.req));
    OthersStay(s, s'.(consumers := s.consumers));
    assert ConsumerOk(s'.txns, s'.log, s.consumers[c]);
  }

  /** A call that returned no error has its event processed. */
  lemma SafeCallSucceeded(s: State, c: ConsumerId)
    requires Safe(s) && CanSucceed(s, c)
    ensures Safe(ApplyCallSucceeded(s, c))
  {
    hide T.LockInv, Bijective, RequestIn;
    assert ConsumerOk(s.txns, s.log, s.consumers[c]);
    assert CallOk(s.txns, s.consumers[c].work.req, s.consumers[c].work.call.value);
  }

  lemma SafeCallFailed(s: State, c: ConsumerId)
    requires Safe(s) && InCall(s, c)
    ensures Safe(ApplyCallFailed(s, c))
  {
    assert ConsumerOk(s.txns, s.log, s.consumers[c]);
  }

  /** Only what the consumer has handled gets below the committed offset. */
  lemma SafeCommitOffset(s: State, c: ConsumerId, durable: bool, reported: bool)
    requires Safe(s) && CanCommitOffset(s, c)
    ensures Safe(ApplyCommitOffset(s, c, durable, reported))
  {
    hide TxnInv, RequestIn, EventIn, Recorded;
    assert ConsumerOk(s.txns, s.log, s.consumers[c]);
  }

  lemma SafeStop(s: State, c: ConsumerId)
    requires Safe(s)
    ensures Safe(ApplyStop(s, c))
  {
  }

  lemma SafeStep(s: State, step: Step)
    requires Safe(s) && Enabled(s, step)
    ensures Safe(Apply(s, step))
  {
    hide Safe, Prepare, FreshCall, T.Enabled, T.Apply, ApplyPublish, ApplyFinish, ApplyCreate, ApplyPollRecord,
         ApplyCommitOffset, ApplyStatement, IsClaim;
    match step
    case Create(call, durable) => SafeCreate(s, call, durable);
    case Publish(r, outcome, p, error) => SafePublish(s, r, outcome, p, error);
    case Finish(r, now) => SafeFinish(s, r, now);
    case Assign(c, p) => SafeAssign(s, c, p);
    case Revoke(c, p) => SafeRevoke(s, c, p);
    case PollRecord(c, offset) => SafePollRecord(s, c, offset);
    case CallStore(c) => SafeCallStore(s, c);
    case Statement(t) => SafeStatement(s, t);
    case CallSucceeded(c) => SafeCallSucceeded(s, c);
    case CallFailed(c) => SafeCallFailed(s, c);
    case CommitOffset(c, durable, reported) => SafeCommitOffset(s, c, durable, reported);
    case Stop(c) => SafeStop(s, c);
    case Claim(r, limit, batch) => SafeElsewhere(s, Apply(s, step));
    case Rollback(r) => SafeElsewhere(s, Apply(s, step));
    case Replay(e, p, written) => SafeElsewhere(s, Apply(s, step));
    case Foreign(record) => SafeElsewhere(s, Apply(s, step));
  }

  lemma {:induction false} SafeRun(s: State, steps: seq<Step>)
    requires Safe(s) && IsRun(s, steps)
    ensures Safe(Final(s, steps))
    decreases |steps|
  {
    if steps != [] {
      SafeStep(s, steps[0]);
      SafeRun(Apply(s, steps[0]), steps[1..]);
    }
  }

  /**
   * No loss, in every run with any number of consumers, crashes, hand-overs, ambiguous commits and foreign
   * records: every record below its partition's committed offset decoded and was dispatched, so nothing the
   * handler rejected was ever skipped.
   */
  lemma NothingCommittedIsLost(steps: seq<Step>, i: nat)
    requires IsRun(INIT, steps)
    requires var s := Final(INIT, steps); i < |s.log| && i < CommittedOffset(s.committed, s.log[i].partition)
    ensures var s := Final(INIT, steps); Dispatched(s.Db(), s.log[i])
  {
    SafeRun(INIT, steps);
    var s := Final(INIT, steps);
    assert Recorded(s.Db().processed, s.log[i]);
  }

  /** One dispatch row per processed event and one processed event per dispatch row, in every run. */
  lemma ProcessedAndDispatchesCorrespond(steps: seq<Step>)
    requires IsRun(INIT, steps)
    ensures Bijective(Final(INIT, steps).Db())
  {
    SafeRun(INIT, steps);
  }
}
