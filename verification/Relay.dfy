/** internal/relay/relay.go: publishing a claimed batch, one poll, and the poll loop with its backoff. */
module Relay {
  import opened Wrappers
  import opened Domain
  import opened Json
  import opened Database
  import opened Messages
  import opened Storage
  import opened Retry
  import opened Kafka
  import P = Protocol

  // ----- One batch -----

  predicate Rows(outbox: map<EventId, OutboxRow>, batch: seq<EventId>) {
    forall e :: e in batch ==> e in outbox
  }

  /** The broker acknowledges message i. */
  predicate Accepted(outbox: map<EventId, OutboxRow>, batch: seq<EventId>, env: nat -> Sending, i: nat)
    requires i < |batch| && Rows(outbox, batch)
  {
    MessageFor(outbox[batch[i]]).Ok? && env(i).outcome.Acked?
  }

  /** Publishing stops after k acknowledgements: at the first failure, or at the end. */
  predicate Stops(outbox: map<EventId, OutboxRow>, batch: seq<EventId>, env: nat -> Sending, k: nat)
    requires Rows(outbox, batch)
  {
    && k <= |batch|
    && (forall i :: 0 <= i < k ==> Accepted(outbox, batch, env, i))
    && (k < |batch| ==> !Accepted(outbox, batch, env, k))
  }

  /** Message i as the broker keeps it: the row's own key and payload. */
  function Sent(outbox: map<EventId, OutboxRow>, batch: seq<EventId>, env: nat -> Sending, i: nat): P.Record
    requires i < |batch| && Rows(outbox, batch)
  {
    P.Record(env(i).partition, outbox[batch[i]].shipmentId, IsJson(outbox[batch[i]].payload))
  }

  /** The message that failed was written nevertheless. */
  predicate Stray(outbox: map<EventId, OutboxRow>, batch: seq<EventId>, env: nat -> Sending, k: nat)
    requires Rows(outbox, batch)
  {
    k < |batch| && MessageFor(outbox[batch[k]]).Ok? && env(k).outcome.WrittenUnacked?
  }

  /** The topic gained the first k messages of the batch in order, and perhaps the one that failed. */
  predicate Appended(before: seq<P.Record>, after: seq<P.Record>,
                     outbox: map<EventId, OutboxRow>, batch: seq<EventId>, env: nat -> Sending, k: nat)
    requires k <= |batch| && Rows(outbox, batch)
  {
    && before <= after
    && |after| == |before| + k + (if Stray(outbox, batch, env, k) then 1 else 0)
    && forall i :: 0 <= i < |after| - |before| ==> after[|before| + i] == Sent(outbox, batch, env, i)
  }

  /** The open transaction of a relay that has stopped after k acknowledgements. */
  function PollAt(batch: seq<EventId>, env: nat -> Sending, k: nat): P.Poll {
    P.Poll(batch, k, if k < |batch| then Some(env(k).error) else None)
  }

  /** Publish in order and stop at the first failure; acked counts the acknowledgements. */
  method PublishBatch(broker: Broker, outbox: map<EventId, OutboxRow>, batch: seq<EventId>, env: nat -> Sending)
    returns (result: PublishResult, ghost acked: nat)
    requires Rows(outbox, batch)
    modifies broker`log
    ensures Stops(outbox, batch, env, acked)
    ensures Appended(old(broker.log), broker.log, outbox, batch, env, acked)
    ensures result == P.ResultOf(PollAt(batch, env, acked))
  {
    var published := [];
    for i := 0 to |batch|
      invariant published == batch[..i]
      invariant forall j :: 0 <= j < i ==> Accepted(outbox, batch, env, j)
      invariant old(broker.log) <= broker.log && |broker.log| == |old(broker.log)| + i
      invariant forall j :: 0 <= j < i ==> broker.log[|old(broker.log)| + j] == Sent(outbox, batch, env, j)
    {
      acked := i;
      match MessageFor(outbox[batch[i]])
      case Err(_) =>
        assert !Stray(outbox, batch, env, acked);
        return PublishResult(published, batch[i], env(i).error), acked;
      case Ok(m) =>
        assert P.Record(env(i).partition, m.key, m.value) == Sent(outbox, batch, env, i);
        var ok := broker.Publish(m, env(i));
        if !ok {
          assert Stray(outbox, batch, env, acked) == env(i).outcome.WrittenUnacked?;
          return PublishResult(published, batch[i], env(i).error), acked;
        }
        published := published + [batch[i]];
    }
    acked := |batch|;
    assert !Stray(outbox, batch, env, acked);
    assert batch[..|batch|] == batch;
    return PublishResult(published, "", ""), acked;
  }

  // ----- One poll -----

  /** Whatever becomes published was written to the topic first, under its own key and with its own payload. */
  ghost predicate AckedFirst(before: Tables, after: Tables, logBefore: seq<P.Record>, logAfter: seq<P.Record>) {
    && logBefore <= logAfter
    && after == before.(outbox := after.outbox)
    && after.outbox.Keys == before.outbox.Keys
    && forall e :: e in before.outbox ==> RowMoves(before.outbox[e], after.outbox[e], logAfter[|logBefore|..])
  }

  ghost predicate RowMoves(row: OutboxRow, row': OutboxRow, written: seq<P.Record>) {
    && row'.shipmentId == row.shipmentId && row'.eventType == row.eventType
    && row'.payload == row.payload && row'.createdAt == row.createdAt
    && (row.publishedAt.Some? ==> row' == row)
    && (row.publishedAt.None? && row'.publishedAt.Some? ==> HasRecord(written, row))
  }

  ghost predicate HasRecord(log: seq<P.Record>, row: OutboxRow) {
    exists i :: 0 <= i < |log| && log[i].key == row.shipmentId && log[i].value == IsJson(row.payload)
  }

  lemma AckedFirstTransitive(a: Tables, b: Tables, c: Tables, la: seq<P.Record>, lb: seq<P.Record>, lc: seq<P.Record>)
    requires AckedFirst(a, b, la, lb) && AckedFirst(b, c, lb, lc)
    ensures AckedFirst(a, c, la, lc)
  {
    assert lc[|la|..] == lb[|la|..] + lc[|lb|..];
    forall e | e in a.outbox
      ensures RowMoves(a.outbox[e], c.outbox[e], lc[|la|..])
    {
      assert RowMoves(a.outbox[e], b.outbox[e], lb[|la|..]) && RowMoves(b.outbox[e], c.outbox[e], lc[|lb|..]);
      if HasRecord(lb[|la|..], a.outbox[e]) {
        var i :| 0 <= i < |lb[|la|..]| && lb[|la|..][i].key == a.outbox[e].shipmentId
                 && lb[|la|..][i].value == IsJson(a.outbox[e].payload);
        assert lc[|la|..][i] == lb[|la|..][i];
      } else if HasRecord(lc[|lb|..], b.outbox[e]) {
        var i :| 0 <= i < |lc[|lb|..]| && lc[|lb|..][i].key == b.outbox[e].shipmentId
                 && lc[|lb|..][i].value == IsJson(b.outbox[e].payload);
        assert lc[|la|..][|lb[|la|..]| + i] == lc[|lb|..][i];
      }
    }
  }

  lemma AckedFirstReflexive(db: Tables, log: seq<P.Record>, log': seq<P.Record>)
    requires log <= log'
    ensures AckedFirst(db, db, log, log')
  {
  }

  lemma MarkingIsAckedFirst(db: Tables, log: seq<P.Record>, log': seq<P.Record>, limit: nat, batch: seq<EventId>,
                            env: nat -> Sending, k: nat, now: int)
    requires IsClaim(db.outbox, {}, limit, batch) && Rows(db.outbox, batch) && k <= |batch|
    requires Appended(log, log', db.outbox, batch, env, k)
    ensures AckedFirst(db, MarkBatch(db, P.ResultOf(PollAt(batch, env, k)), now), log, log')
  {
    var db' := MarkBatch(db, P.ResultOf(PollAt(batch, env, k)), now);
    var written := log'[|log|..];
    forall e | e in db.outbox
      ensures RowMoves(db.outbox[e], db'.outbox[e], written)
    {
      if e in batch[..k] {
        var i :| 0 <= i < k && batch[..k][i] == e;
        assert written[i] == Sent(db.outbox, batch, env, i);
        assert e in batch;
      }
      assert k < |batch| ==> batch[k] in batch;
    }
  }

  /** What goes on around one poll. */
  datatype Turn = Turn(
    claimFails: bool, env: nat -> Sending, now: int, fault: Fault, contextEnded: bool, sleepInterrupted: bool)

  /** Tables and topic at one moment. */
  datatype Snapshot = Snapshot(db: Tables, log: seq<P.Record>)

  /**
   * One poll took a to b: it claimed batch, got acked acknowledgements, and reported result or a failure. A
   * failure is about the tables: messages may be on the topic all the same.
   */
  ghost predicate Polled(a: Snapshot, b: Snapshot, limit: nat, turn: Turn, batch: seq<EventId>, acked: nat,
                         result: PublishResult, failed: bool) {
    && (turn.claimFails ==> b == a)
    && (!turn.claimFails ==>
          && IsClaim(a.db.outbox, {}, limit, batch)
          && Rows(a.db.outbox, batch)
          && Stops(a.db.outbox, batch, turn.env, acked)
          && Appended(a.log, b.log, a.db.outbox, batch, turn.env, acked)
          && b.db == if TakesEffect(turn.fault)
                     then MarkBatch(a.db, P.ResultOf(PollAt(batch, turn.env, acked)), turn.now) else a.db)
    && (failed <==> turn.claimFails || !turn.fault.NoFault?)
    && result == if failed then PublishResult([], "", "") else P.ResultOf(PollAt(batch, turn.env, acked))
  }

  /**
   * A poll that reports a failure has left the outbox as it was exactly when claiming failed, the transaction had
   * no effect, or there was nothing to claim: a commit that took effect unnoticed has marked its rows.
   */
  lemma FailedPollLeavesOutbox(a: Snapshot, b: Snapshot, limit: nat, turn: Turn, batch: seq<EventId>, acked: nat,
                               result: PublishResult)
    requires Polled(a, b, limit, turn, batch, acked, result, true) && "" !in a.db.outbox
    ensures b.db.outbox == a.db.outbox <==> turn.claimFails || turn.fault.Fails? || batch == []
  {
    if !turn.claimFails && !turn.fault.Fails? {
      if batch == [] {
        MarkingNothing(a.db, turn, acked);
      } else {
        FirstRowMoves(a.db, limit, batch, turn.env, acked, turn.now);
      }
    }
  }

  lemma MarkingNothing(db: Tables, turn: Turn, acked: nat)
    requires acked == 0
    ensures MarkBatch(db, P.ResultOf(PollAt([], turn.env, acked)), turn.now).outbox == db.outbox
  {
  }

  /** The oldest row of a batch was acknowledged or failed; either way its attempts counter moves. */
  lemma FirstRowMoves(db: Tables, limit: nat, batch: seq<EventId>, env: nat -> Sending, k: nat, now: int)
    requires IsClaim(db.outbox, {}, limit, batch) && batch != [] && k <= |batch| && "" !in db.outbox
    ensures var db' := MarkBatch(db, P.ResultOf(PollAt(batch, env, k)), now);
            && batch[0] in db.outbox && batch[0] in db'.outbox
            && db'.outbox[batch[0]].attempts == db.outbox[batch[0]].attempts + 1
  {
    hide SortedByAge;
    assert batch[0] in batch;
    if k < |batch| {
      assert batch[k] in batch;
      assert batch[0] in batch[..k] <==> k > 0;
      assert batch[k] !in batch[..k];
    } else {
      assert batch[0] in batch[..k];
    }
  }

  /** Claim, publish and record in one transaction. */
  method ProcessPending(store: Store, broker: Broker, limit: nat, turn: Turn)
    returns (result: PublishResult, failed: bool, ghost batch: seq<EventId>, ghost acked: nat)
    modifies store, broker`log
    ensures Polled(Snapshot(old(store.Contents()), old(broker.log)), Snapshot(store.Contents(), broker.log),
                   limit, turn, batch, acked, result, failed)
    ensures AckedFirst(old(store.Contents()), store.Contents(), old(broker.log), broker.log)
  {
    hide Stops, Appended, AckedFirst, P.ResultOf, PollAt, MarkBatch;
    result, failed, batch, acked := PublishResult([], "", ""), true, [], 0;
    ghost var db, log := store.Contents(), broker.log;
    if turn.claimFails {
      AckedFirstReflexive(db, log, log);
      return;
    }
    var claimed := store.ClaimPending(limit);
    batch := claimed;
    if claimed == [] {
      NothingClaimed(db, log, turn);
      failed := !turn.fault.NoFault?;
      return;
    }
    result, acked := PublishBatch(broker, store.outbox, claimed, turn.env);
    StopsInRange(db.outbox, batch, turn.env, acked);
    MarkingIsAckedFirst(db, log, broker.log, limit, batch, turn.env, acked, turn.now);
    AppendedGrows(log, broker.log, db.outbox, batch, turn.env, acked);
    AckedFirstReflexive(db, log, broker.log);
    var ok := store.RecordPublished(result, turn.now, turn.fault);
    failed := !ok;
    if failed {
      result := PublishResult([], "", "");
    }
  }

  lemma NothingClaimed(db: Tables, log: seq<P.Record>, turn: Turn)
    ensures Stops(db.outbox, [], turn.env, 0) && Appended(log, log, db.outbox, [], turn.env, 0)
    ensures P.ResultOf(PollAt([], turn.env, 0)) == PublishResult([], "", "")
    ensures MarkBatch(db, PublishResult([], "", ""), turn.now) == db
    ensures AckedFirst(db, db, log, log)
  {
  }

  lemma StopsInRange(outbox: map<EventId, OutboxRow>, batch: seq<EventId>, env: nat -> Sending, k: nat)
    requires Rows(outbox, batch) && Stops(outbox, batch, env, k)
    ensures k <= |batch|
  {
  }

  lemma AppendedGrows(before: seq<P.Record>, after: seq<P.Record>,
                      outbox: map<EventId, OutboxRow>, batch: seq<EventId>, env: nat -> Sending, k: nat)
    requires k <= |batch| && Rows(outbox, batch) && Appended(before, after, outbox, batch, env, k)
    ensures before <= after
  {
  }

  // ----- A poll is a run of the protocol -----

  /** What is left to do of a poll that has i acknowledgements and will stop at k. */
  function StepsFrom(r: P.RelayId, batch: seq<EventId>, env: nat -> Sending, i: nat, k: nat, end: P.Step): seq<P.Step>
    requires i <= k
    decreases k - i
  {
    if i < k then [P.Publish(r, P.Acked, env(i).partition, "")] + StepsFrom(r, batch, env, i + 1, k, end)
    else if k < |batch| then [P.Publish(r, env(k).outcome, env(k).partition, env(k).error), end]
    else [end]
  }

  ghost predicate Ends(end: P.Step, r: P.RelayId, now: int) {
    end == P.Finish(r, now) || end == P.Rollback(r)
  }

  function After(db: Tables, end: P.Step, result: PublishResult): Tables {
    if end.Finish? then MarkBatch(db, result, end.now) else db
  }

  lemma {:induction false} StepsFromAreARun(s: P.State, r: P.RelayId, batch: seq<EventId>, env: nat -> Sending,
                                            i: nat, k: nat, end: P.Step, now: int)
    requires r in s.polls && s.polls[r] == P.Poll(batch, i, None) && i <= k
    requires Rows(s.Db().outbox, batch) && Stops(s.Db().outbox, batch, env, k)
    requires Ends(end, r, now) && (forall j :: env(j).partition < P.PARTITIONS)
    ensures P.IsRun(s, StepsFrom(r, batch, env, i, k, end))
    ensures var s' := P.Final(s, StepsFrom(r, batch, env, i, k, end));
            && s.log <= s'.log && |s'.log| == |s.log| + k - i + (if Stray(s.Db().outbox, batch, env, k) then 1 else 0)
            && (forall j :: |s.log| <= j < |s'.log| ==> s'.log[j] == Sent(s.Db().outbox, batch, env, i + j - |s.log|))
            && s'.Db() == After(s.Db(), end, P.ResultOf(PollAt(batch, env, k)))
            && RestOf(s, s', r)
    decreases k - i
  {
    hide MarkBatch, MessageFor, P.Enabled, P.Apply, Sent, After;
    var steps := StepsFrom(r, batch, env, i, k, end);
    if i < k {
      AckStep(s, r, batch, env, i);
      var s1 := P.Apply(s, steps[0]);
      StepsFromAreARun(s1, r, batch, env, i + 1, k, end, now);
      P.Prepend(s, steps[0], StepsFrom(r, batch, env, i + 1, k, end));
    } else if k < |batch| {
      LastSend(s, r, batch, env, k, end, now);
    } else {
      EndStep(s, r, batch, env, end, now);
    }
  }

  /** Nothing but relay r's transaction is different. */
  ghost predicate RestOf(s: P.State, s': P.State, r: P.RelayId) {
    s'.polls == s.polls - {r} && s'.consumers == s.consumers && s'.committed == s.committed
  }

  lemma AckStep(s: P.State, r: P.RelayId, batch: seq<EventId>, env: nat -> Sending, i: nat)
    requires r in s.polls && s.polls[r] == P.Poll(batch, i, None) && i < |batch| && env(i).partition < P.PARTITIONS
    requires Rows(s.Db().outbox, batch) && Accepted(s.Db().outbox, batch, env, i)
    ensures P.Enabled(s, P.Publish(r, P.Acked, env(i).partition, ""))
    ensures P.Apply(s, P.Publish(r, P.Acked, env(i).partition, "")) ==
            s.(log := s.log + [Sent(s.Db().outbox, batch, env, i)], polls := s.polls[r := P.Poll(batch, i + 1, None)])
  {
    hide MessageFor;
    assert batch[i] in batch;
    RecordIsSent(s.Db().outbox, batch, env, i);
  }

  lemma EndStep(s: P.State, r: P.RelayId, batch: seq<EventId>, env: nat -> Sending, end: P.Step, now: int)
    requires r in s.polls && s.polls[r] == PollAt(batch, env, s.polls[r].acked) && P.Published(s.polls[r])
    requires Ends(end, r, now)
    ensures P.IsRun(s, [end])
    ensures var s' := P.Final(s, [end]);
            && s'.log == s.log && s'.Db() == After(s.Db(), end, P.ResultOf(s.polls[r])) && RestOf(s, s', r)
  {
    hide MessageFor, P.ResultOf;
    P.Prepend(s, end, []);
    assert [end] + [] == [end];
  }

  lemma RecordIsSent(outbox: map<EventId, OutboxRow>, batch: seq<EventId>, env: nat -> Sending, i: nat)
    requires i < |batch| && Rows(outbox, batch) && MessageFor(outbox[batch[i]]).Ok?
    ensures P.RecordFor(outbox[batch[i]], env(i).partition) == Sent(outbox, batch, env, i)
  {
  }

  lemma LastSend(s: P.State, r: P.RelayId, batch: seq<EventId>, env: nat -> Sending, k: nat, end: P.Step, now: int)
    requires r in s.polls && s.polls[r] == P.Poll(batch, k, None) && k < |batch|
    requires Rows(s.Db().outbox, batch) && !Accepted(s.Db().outbox, batch, env, k)
    requires Ends(end, r, now) && env(k).partition < P.PARTITIONS
    ensures var steps := [P.Publish(r, env(k).outcome, env(k).partition, env(k).error), end];
            && P.IsRun(s, steps)
            && var s' := P.Final(s, steps);
            && s'.log == s.log + (if Stray(s.Db().outbox, batch, env, k) then [Sent(s.Db().outbox, batch, env, k)] else [])
            && s'.Db() == After(s.Db(), end, P.ResultOf(PollAt(batch, env, k)))
            && RestOf(s, s', r)
  {
    hide MarkBatch, MessageFor, P.ResultOf, P.Apply, P.Enabled;
    var step := P.Publish(r, env(k).outcome, env(k).partition, env(k).error);
    FailStep(s, r, batch, env, k);
    var s1 := P.Apply(s, step);
    EndStep(s1, r, batch, env, end, now);
    P.Prepend(s, step, [end]);
    assert [step] + [end] == [step, end];
    assert s1.polls - {r} == s.polls - {r};
  }

  lemma FailStep(s: P.State, r: P.RelayId, batch: seq<EventId>, env: nat -> Sending, k: nat)
    requires r in s.polls && s.polls[r] == P.Poll(batch, k, None) && k < |batch|
    requires Rows(s.Db().outbox, batch) && !Accepted(s.Db().outbox, batch, env, k) && env(k).partition < P.PARTITIONS
    ensures var step := P.Publish(r, env(k).outcome, env(k).partition, env(k).error);
            && P.Enabled(s, step)
            && var s' := P.Apply(s, step);
            && s'.log == s.log + (if Stray(s.Db().outbox, batch, env, k) then [Sent(s.Db().outbox, batch, env, k)] else [])
            && s'.txns == s.txns && s'.polls == s.polls[r := PollAt(batch, env, k)]
            && s'.consumers == s.consumers && s'.committed == s.committed
  {
    hide MessageFor;
    assert batch[k] in batch;
    if MessageFor(s.Db().outbox[batch[k]]).Ok? {
      RecordIsSent(s.Db().outbox, batch, env, k);
    }
  }

  /**
   * A poll of the relay, carried out alone, is a run of the protocol with the same effect on topic and
   * tables: everything proved of all runs holds of it.
   */
  lemma PollIsARun(s: P.State, r: P.RelayId, limit: nat, batch: seq<EventId>, env: nat -> Sending, k: nat,
                   now: int, effective: bool)
    requires P.CanClaim(s, r, limit, batch) && Rows(s.Db().outbox, batch) && Stops(s.Db().outbox, batch, env, k)
    requires (forall j :: env(j).partition < P.PARTITIONS)
    ensures var end := if effective then P.Finish(r, now) else P.Rollback(r);
            var steps := [P.Claim(r, limit, batch)] + StepsFrom(r, batch, env, 0, k, end);
            && P.IsRun(s, steps)
            && var s' := P.Final(s, steps);
            && Appended(s.log, s'.log, s.Db().outbox, batch, env, k)
            && s'.Db() == (if effective then MarkBatch(s.Db(), P.ResultOf(PollAt(batch, env, k)), now) else s.Db())
            && s'.polls == s.polls && s'.consumers == s.consumers && s'.committed == s.committed
  {
    hide MarkBatch, MessageFor, Stray, Stops, Sent, IsClaim;
    var end := if effective then P.Finish(r, now) else P.Rollback(r);
    var rest := StepsFrom(r, batch, env, 0, k, end);
    var steps := [P.Claim(r, limit, batch)] + rest;
    StopsInRange(s.Db().outbox, batch, env, k);
    var s1 := P.Apply(s, steps[0]);
    StepsFromAreARun(s1, r, batch, env, 0, k, end, now);
    P.Prepend(s, steps[0], rest);
    assert s1.polls - {r} == s.polls;
  }

  // ----- Replay -----

  datatype ReplayError = NoSuchEvent | NotPublishable | NotAcknowledged

  /** Publish the event of any row again, whether it has been published or not (cmd/replay/main.go). */
  method Replay(store: Store, broker: Broker, e: EventId, s: Sending) returns (r: Result<(), ReplayError>)
    modifies broker`log
    ensures r == Err(NoSuchEvent) <==> e !in store.outbox
    ensures r == Err(NotPublishable) <==> e in store.outbox && MessageFor(store.outbox[e]).Err?
    ensures r.Ok? ==> s.outcome.Acked?
    ensures broker.log == old(broker.log) +
              if e in store.outbox && MessageFor(store.outbox[e]).Ok? && !s.outcome.NotWritten?
              then [P.RecordFor(store.outbox[e], s.partition)] else []
    ensures e in store.outbox && MessageFor(store.outbox[e]).Ok? ==> (r.Ok? <==> s.outcome.Acked?)
  {
    hide MessageFor;
    if e !in store.outbox {
      return Err(NoSuchEvent);
    }
    var m := MessageFor(store.outbox[e]);
    if m.Err? {
      return Err(NotPublishable);
    }
    var acked := broker.Publish(m.value, s);
    return if acked then Ok(()) else Err(NotAcknowledged);
  }

  /** A replay is a step of the protocol. */
  lemma ReplayIsAStep(s: P.State, e: EventId, sending: Sending)
    requires e in s.Db().outbox && MessageFor(s.Db().outbox[e]).Ok? && sending.partition < P.PARTITIONS
    ensures var step := P.Replay(e, sending.partition, !sending.outcome.NotWritten?);
            && P.Enabled(s, step)
            && P.Apply(s, step).log == s.log + (if sending.outcome.NotWritten? then []
                                                else [P.RecordFor(s.Db().outbox[e], sending.partition)])
            && P.Apply(s, step).txns == s.txns && P.Apply(s, step).polls == s.polls
            && P.Apply(s, step).consumers == s.consumers && P.Apply(s, step).committed == s.committed
  {
    hide MessageFor;
  }

  // ----- Backoff -----

  function MinInt(a: int, b: int): int {
    if a <= b then a else b
  }

  function MinInt64(a: int64, b: int64): int64 {
    if a <= b then a else b
  }

  function Pow2(n: nat): nat {
    if n == 0 then 1 else 2 * Pow2(n - 1)
  }

  /** The loop's backoff after n failing polls in a row, as its 64-bit arithmetic has it. */
  function Backoff(interval: int64, n: nat): int64 {
    if n == 0 then interval else MinInt64(Wrap64(2 * Backoff(interval, n - 1)), Wrap64(10 * interval))
  }

  /** The interval doubled n times, capped at ten intervals. */
  function Capped(interval: int, n: nat): int {
    MinInt(interval * Pow2(n), 10 * interval)
  }

  lemma Pow2Grows(n: nat)
    ensures Pow2(n + 1) == 2 * Pow2(n) && Pow2(n) >= 1
    ensures n >= 4 ==> Pow2(n) >= 16
  {
    if n > 4 {
      Pow2Grows(n - 1);
    } else {
      assert Pow2(1) == 2 && Pow2(2) == 4 && Pow2(3) == 8 && Pow2(4) == 16;
    }
  }

  /** Doubling a capped value and capping it again. */
  lemma CappedDoubles(interval: int, n: nat)
    requires interval > 0
    ensures Capped(interval, n + 1) == MinInt(2 * Capped(interval, n), 10 * interval)
    ensures interval <= Capped(interval, n) <= 10 * interval
  {
    Pow2Grows(n);
    assert interval * Pow2(n + 1) == 2 * (interval * Pow2(n));
    assert interval * Pow2(n) >= interval * 1;
  }

  lemma {:induction false} FittingBackoffIsCapped(interval: int64, n: nat)
    requires 0 < interval && 20 * interval < INT64_LIMIT
    ensures Backoff(interval, n) == Capped(interval, n)
  {
    if n == 0 {
      assert Pow2(0) == 1;
    } else {
      FittingBackoffIsCapped(interval, n - 1);
      CappedDoubles(interval, n - 1);
      WrapIsIdentity(2 * Backoff(interval, n - 1));
      WrapIsIdentity(10 * interval);
    }
  }

  lemma OverflowingBackoffIsNot(interval: int64)
    requires 0 < interval && 20 * interval >= INT64_LIMIT
    ensures exists n :: Backoff(interval, n) != Capped(interval, n)
  {
    Pow2Grows(4);
    Pow2Grows(5);
    assert Pow2(1) == 2 && Pow2(2) == 4 && Pow2(3) == 8 && Pow2(4) == 16 && Pow2(5) == 32;
    assert Capped(interval, 4) == Capped(interval, 5) == 10 * interval;
    if 10 * interval < INT64_LIMIT && Backoff(interval, 4) == Capped(interval, 4) {
      WrapFromAbove(20 * interval);
      assert Backoff(interval, 5) == MinInt64(Wrap64(20 * interval), Wrap64(10 * interval));
      assert Backoff(interval, 5) != Capped(interval, 5);
    } else {
      assert Backoff(interval, 4) != Capped(interval, 4);
    }
  }

  /** The backoff is the capped doubling for every number of failures exactly when twenty intervals fit 64 bits. */
  lemma BackoffIsCapped(interval: int64)
    requires 0 < interval
    ensures (forall n :: Backoff(interval, n) == Capped(interval, n)) <==> 20 * interval < INT64_LIMIT
  {
    if 20 * interval < INT64_LIMIT {
      forall n
        ensures Backoff(interval, n) == Capped(interval, n)
      {
        FittingBackoffIsCapped(interval, n);
      }
    } else {
      OverflowingBackoffIsNot(interval);
    }
  }

  /** The cap itself has not wrapped below the interval, and doubling it does not overflow. */
  predicate CapHolds(interval: int64) {
    interval <= Wrap64(10 * interval) && 2 * Wrap64(10 * interval) < INT64_LIMIT
  }

  lemma {:induction false} StaysWithinCap(interval: int64, n: nat)
    requires 0 < interval && CapHolds(interval)
    ensures interval <= Backoff(interval, n) <= Wrap64(10 * interval)
  {
    hide Wrap64;
    if n > 0 {
      StaysWithinCap(interval, n - 1);
      WrapIsIdentity(2 * Backoff(interval, n - 1));
    }
  }

  lemma WrapIsBelow(x: int)
    requires 0 <= x
    ensures Wrap64(x) <= x
  {
  }

  /** While it grows below a cap whose double overflows, the backoff ends up negative. */
  lemma {:induction false} LeavesTheBounds(interval: int64, n: nat)
    requires 0 < interval <= Backoff(interval, n) && interval <= Wrap64(10 * interval) && !CapHolds(interval)
    ensures exists k :: Backoff(interval, k) < interval
    decreases INT64_LIMIT - Backoff(interval, n)
  {
    hide Wrap64;
    var b := Backoff(interval, n);
    if 2 * b >= INT64_LIMIT {
      WrapFromAbove(2 * b);
      assert Backoff(interval, n + 1) < interval;
    } else {
      WrapIsIdentity(2 * b);
      LeavesTheBounds(interval, n + 1);
    }
  }

  /**
   * The backoff stays between one interval and ten for every number of failures exactly when the cap, as it is
   * computed, is at least the interval and can be doubled; the capped doubling is one such case.
   */
  lemma BackoffBounds(interval: int64)
    requires 0 < interval
    ensures (forall n :: interval <= Backoff(interval, n) <= 10 * interval) <==> CapHolds(interval)
    ensures 20 * interval < INT64_LIMIT ==> CapHolds(interval)
  {
    hide Wrap64;
    WrapIsBelow(10 * interval);
    if CapHolds(interval) {
      forall n
        ensures interval <= Backoff(interval, n) <= 10 * interval
      {
        StaysWithinCap(interval, n);
      }
    } else if interval <= Wrap64(10 * interval) {
      LeavesTheBounds(interval, 0);
    } else {
      assert Backoff(interval, 1) < interval;
    }
    if 20 * interval < INT64_LIMIT {
      WrapIsIdentity(10 * interval);
    }
  }

  // ----- The poll loop -----

  datatype PollResult = StorageFailure | BrokerFailure | Progress | Nothing

  /** A batch that was published in part is a broker failure. */
  function Classify(result: PublishResult, failed: bool): PollResult {
    if failed then StorageFailure
    else if result.failed != "" then BrokerFailure
    else if |result.published| > 0 then Progress
    else Nothing
  }

  predicate Failing(r: PollResult) {
    r.StorageFailure? || r.BrokerFailure?
  }

  /** How many polls in a row failed at the end of the history. */
  function Streak(history: seq<PollResult>): nat {
    if history == [] || !Failing(history[|history| - 1]) then 0 else 1 + Streak(history[..|history| - 1])
  }

  /** The wait after the last poll of a history. */
  function WaitFor(interval: int64, history: seq<PollResult>): int
    requires history != []
  {
    match history[|history| - 1]
    case Progress => 0
    case Nothing => interval
    case _ => Backoff(interval, Streak(history) - 1)
  }

  datatype Config = Config(pollInterval: int64, batchSize: nat)

  predicate ValidConfig(c: Config) {
    c.pollInterval > 0 && c.batchSize > 0
  }

  /**
   * wait is what the poll that ends this history asks for; while nothing overflows a failing poll's is the
   * capped doubling.
   */
  ghost predicate WaitOk(interval: int64, history: seq<PollResult>, wait: int64)
    requires history != []
  {
    && wait == WaitFor(interval, history)
    && (Failing(history[|history| - 1]) && 20 * interval < INT64_LIMIT ==>
          Streak(history) > 0 && wait == Capped(interval, Streak(history) - 1))
  }

  ghost predicate WaitsOk(interval: int64, history: seq<PollResult>, waits: seq<int64>) {
    |waits| <= |history| && forall i :: 0 <= i < |waits| ==> WaitOk(interval, history[..i + 1], waits[i])
  }

  lemma WaitsExtend(interval: int64, history: seq<PollResult>, waits: seq<int64>, kind: PollResult)
    requires interval > 0 && WaitsOk(interval, history, waits)
    ensures WaitsOk(interval, history + [kind], waits)
    ensures |waits| == |history| ==>
              WaitsOk(interval, history + [kind], waits + [NextWait(interval, Backoff(interval, Streak(history)), kind)])
  {
    hide WaitOk;
    var history' := history + [kind];
    assert forall m :: 0 <= m <= |history| ==> history'[..m] == history[..m];
    assert history'[..|history| + 1] == history';
    NextWaitOk(interval, history, kind);
  }

  lemma NextWaitOk(interval: int64, history: seq<PollResult>, kind: PollResult)
    requires interval > 0
    ensures WaitOk(interval, history + [kind], NextWait(interval, Backoff(interval, Streak(history)), kind))
  {
    hide Wrap64, Capped, Backoff;
    StreakStep(interval, history, kind);
    if Failing(kind) && 20 * interval < INT64_LIMIT {
      FittingBackoffIsCapped(interval, Streak(history));
    }
  }

  function NextWait(interval: int64, backoff: int64, kind: PollResult): int64 {
    match kind
    case Progress => 0
    case Nothing => interval
    case _ => backoff
  }

  /** One more poll: how the backoff after it follows from the backoff before it. */
  lemma StreakStep(interval: int64, history: seq<PollResult>, kind: PollResult)
    ensures Failing(kind) ==>
              && Streak(history + [kind]) == Streak(history) + 1
              && Backoff(interval, Streak(history + [kind])) ==
                 MinInt64(Wrap64(2 * Backoff(interval, Streak(history))), Wrap64(10 * interval))
    ensures !Failing(kind) ==>
              Streak(history + [kind]) == 0 && Backoff(interval, Streak(history + [kind])) == interval
  {
    hide Wrap64;
    assert (history + [kind])[..|history|] == history;
  }

  /** What one poll claimed, and how many acknowledgements it got. */
  datatype Work = Work(batch: seq<EventId>, acked: nat)

  /** Poll i of a run, with what it gave. */
  ghost predicate PollGave(a: Snapshot, b: Snapshot, limit: nat, turn: Turn, work: Work, kind: PollResult) {
    exists result, failed ::
      Polled(a, b, limit, turn, work.batch, work.acked, result, failed) && kind == Classify(result, failed)
  }

  /** The polls of a run one after another, each with what it gave. */
  ghost predicate PollsGave(trace: seq<Snapshot>, limit: nat, turns: seq<Turn>, works: seq<Work>, history: seq<PollResult>) {
    && |trace| == |history| + 1 && |works| == |history| && |history| <= |turns|
    && forall i :: 0 <= i < |history| ==> PollGave(trace[i], trace[i + 1], limit, turns[i], works[i], history[i])
  }

  // ----- When to wait, from what happened in the polls -----

  /** Claiming failed, the transaction was not reported as done, or a message of the batch was not acknowledged. */
  predicate Trouble(turn: Turn, work: Work) {
    turn.claimFails || !turn.fault.NoFault? || work.acked < |work.batch|
  }

  /** How many of the first n polls, counted back from the last, were in trouble in a row. */
  function Troubles(turns: seq<Turn>, works: seq<Work>, n: nat): nat
    requires n <= |turns| && n <= |works|
  {
    if n == 0 || !Trouble(turns[n - 1], works[n - 1]) then 0 else 1 + Troubles(turns, works, n - 1)
  }

  /**
   * The wait after poll i: while nothing overflows the interval doubled k - 1 times, and at most ten intervals,
   * after the k-th poll in trouble in a row; otherwise none after a batch, and one interval after nothing.
   */
  ghost predicate Paced(interval: int64, turns: seq<Turn>, works: seq<Work>, i: nat, wait: int64)
    requires i < |turns| && i < |works|
  {
    if Trouble(turns[i], works[i]) then
      var k := Troubles(turns, works, i + 1);
      k > 0 && (20 * interval < INT64_LIMIT ==>
                  wait > 0
                  && wait == if interval * Pow2(k - 1) <= 10 * interval then interval * Pow2(k - 1) else 10 * interval)
    else if works[i].batch != [] then wait == 0
    else wait == interval
  }

  lemma ClassifyMeans(a: Snapshot, b: Snapshot, limit: nat, turn: Turn, work: Work, kind: PollResult)
    requires PollGave(a, b, limit, turn, work, kind) && "" !in a.db.outbox
    ensures Failing(kind) <==> Trouble(turn, work)
    ensures kind.Progress? <==> !Trouble(turn, work) && work.batch != []
    ensures "" !in b.db.outbox
  {
    hide IsClaim, Appended, MarkBatch;
    var result, failed :| Polled(a, b, limit, turn, work.batch, work.acked, result, failed) && kind == Classify(result, failed);
    PolledKeepsNames(a, b, limit, turn, work.batch, work.acked, result, failed);
    if !turn.claimFails && work.acked < |work.batch| {
      assert work.batch[work.acked] in work.batch;
    }
  }

  lemma PolledKeepsNames(a: Snapshot, b: Snapshot, limit: nat, turn: Turn, batch: seq<EventId>, acked: nat,
                         result: PublishResult, failed: bool)
    requires Polled(a, b, limit, turn, batch, acked, result, failed)
    ensures b.db.outbox.Keys == a.db.outbox.Keys
    ensures !turn.claimFails ==> acked <= |batch|
  {
    hide IsClaim, Appended;
  }

  lemma {:induction false} StreakIsTroubles(trace: seq<Snapshot>, limit: nat, turns: seq<Turn>, works: seq<Work>,
                                            history: seq<PollResult>, n: nat)
    requires PollsGave(trace, limit, turns, works, history) && n <= |history| && "" !in trace[0].db.outbox
    ensures Streak(history[..n]) == Troubles(turns, works, n)
    ensures "" !in trace[n].db.outbox
  {
    hide PollGave, Trouble, Failing;
    if n > 0 {
      StreakIsTroubles(trace, limit, turns, works, history, n - 1);
      ClassifyMeans(trace[n - 1], trace[n], limit, turns[n - 1], works[n - 1], history[n - 1]);
      assert history[..n][..n - 1] == history[..n - 1];
    }
  }

  lemma WaitIsPaced(interval: int64, trace: seq<Snapshot>, limit: nat, turns: seq<Turn>, works: seq<Work>,
                    history: seq<PollResult>, i: nat, wait: int64)
    requires interval > 0 && PollsGave(trace, limit, turns, works, history) && "" !in trace[0].db.outbox
    requires i < |history| && WaitOk(interval, history[..i + 1], wait)
    ensures Paced(interval, turns, works, i, wait)
  {
    hide PollGave, Trouble, Backoff, Pow2;
    StreakIsTroubles(trace, limit, turns, works, history, i);
    StreakIsTroubles(trace, limit, turns, works, history, i + 1);
    ClassifyMeans(trace[i], trace[i + 1], limit, turns[i], works[i], history[i]);
    var h := history[..i + 1];
    assert h[|h| - 1] == history[i];
    if Failing(history[i]) {
      CappedDoubles(interval, Streak(h) - 1);
    }
  }

  ghost predicate AllPaced(interval: int64, turns: seq<Turn>, works: seq<Work>, waits: seq<int64>) {
    |waits| <= |turns| && |waits| <= |works| && forall i :: 0 <= i < |waits| ==> Paced(interval, turns, works, i, waits[i])
  }

  lemma RunIsPaced(interval: int64, trace: seq<Snapshot>, limit: nat, turns: seq<Turn>, works: seq<Work>,
                   history: seq<PollResult>, waits: seq<int64>)
    requires interval > 0 && PollsGave(trace, limit, turns, works, history) && WaitsOk(interval, history, waits)
    ensures "" !in trace[0].db.outbox ==> AllPaced(interval, turns, works, waits)
  {
    hide PollGave, Paced, WaitOk;
    if "" !in trace[0].db.outbox {
      forall i | 0 <= i < |waits|
        ensures Paced(interval, turns, works, i, waits[i])
      {
        WaitIsPaced(interval, trace, limit, turns, works, history, i, waits[i]);
      }
    }
  }

  /**
   * Polls until the context ends or the turns are used up. The wait after each poll follows from what happened in
   * the polls so far and nothing else: a batch that was published in part is trouble like any other, and any poll
   * without trouble starts the count again.
   */
  method Run(store: Store, broker: Broker, cfg: Config, turns: seq<Turn>)
    returns (waits: seq<int64>, history: seq<PollResult>, ghost trace: seq<Snapshot>, ghost works: seq<Work>)
    requires ValidConfig(cfg)
    modifies store, broker`log
    ensures PollsGave(trace, cfg.batchSize, turns, works, history)
    ensures trace[0] == Snapshot(old(store.Contents()), old(broker.log))
    ensures trace[|history|] == Snapshot(store.Contents(), broker.log)
    ensures |history| - 1 <= |waits| <= |history|
    ensures |history| < |turns| || |waits| < |history| ==>
              |history| > 0 && var last := turns[|history| - 1]; last.contextEnded || last.sleepInterrupted
    ensures forall i :: 0 <= i < |history| - 1 ==> !turns[i].contextEnded && !turns[i].sleepInterrupted
    ensures |waits| < |history| <==> history != [] && turns[|history| - 1].contextEnded
    ensures WaitsOk(cfg.pollInterval, history, waits)
    ensures "" !in old(store.outbox) ==> AllPaced(cfg.pollInterval, turns, works, waits)
    ensures AckedFirst(old(store.Contents()), store.Contents(), old(broker.log), broker.log)
  {
    hide AckedFirst, Wrap64, Backoff, Polled, WaitsOk, AllPaced;
    var backoff := cfg.pollInterval;
    var maxBackoff := Wrap64(10 * cfg.pollInterval);
    waits, history, trace, works := [], [], [Snapshot(store.Contents(), broker.log)], [];
    RunStarts(cfg.pollInterval, store.Contents(), broker.log);
    for i := 0 to |turns|
      invariant |history| == i && |waits| == i
      invariant forall j :: 0 <= j < i ==> !turns[j].contextEnded && !turns[j].sleepInterrupted
      invariant PollsGave(trace, cfg.batchSize, turns, works, history)
      invariant trace[0] == Snapshot(old(store.Contents()), old(broker.log))
      invariant trace[i] == Snapshot(store.Contents(), broker.log)
      invariant backoff == Backoff(cfg.pollInterval, Streak(history))
      invariant WaitsOk(cfg.pollInterval, history, waits)
      invariant AckedFirst(old(store.Contents()), store.Contents(), old(broker.log), broker.log)
    {
      ghost var db, log := store.Contents(), broker.log;
      var result, failed, batch, acked := ProcessPending(store, broker, cfg.batchSize, turns[i]);
      AckedFirstTransitive(old(store.Contents()), db, store.Contents(), old(broker.log), log, broker.log);
      var kind := Classify(result, failed);
      ghost var now := Snapshot(store.Contents(), broker.log);
      assert PollGave(trace[i], now, cfg.batchSize, turns[i], Work(batch, acked), kind);
      trace, works := trace + [now], works + [Work(batch, acked)];
      WaitsExtend(cfg.pollInterval, history, waits, kind);
      StreakStep(cfg.pollInterval, history, kind);
      history := history + [kind];
      if turns[i].contextEnded {
        RunIsPaced(cfg.pollInterval, trace, cfg.batchSize, turns, works, history, waits);
        return;
      }
      var wait: int64;
      match kind {
        case StorageFailure => wait, backoff := backoff, MinInt64(Wrap64(2 * backoff), maxBackoff);
        case BrokerFailure => wait, backoff := backoff, MinInt64(Wrap64(2 * backoff), maxBackoff);
        case Progress => wait, backoff := 0, cfg.pollInterval;
        case Nothing => wait, backoff := cfg.pollInterval, cfg.pollInterval;
      }
      waits := waits + [wait];
      if turns[i].sleepInterrupted {
        RunIsPaced(cfg.pollInterval, trace, cfg.batchSize, turns, works, history, waits);
        return;
      }
    }
    RunIsPaced(cfg.pollInterval, trace, cfg.batchSize, turns, works, history, waits);
  }

  lemma RunStarts(interval: int64, db: Tables, log: seq<P.Record>)
    ensures Backoff(interval, Streak([])) == interval && WaitsOk(interval, [], []) && AckedFirst(db, db, log, log)
  {
  }
}
