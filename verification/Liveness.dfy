/**
 * The fault-free schedule: one relay with a fixed batch size, one consumer with every partition, nothing
 * fails and no new shipments arrive. From any reachable state, once its processes have stopped, every such
 * schedule ends, after exactly as many non-empty polls as the backlog has batches, with everything published
 * and dispatched.
 */
module Liveness {
  import opened Wrappers
  import opened Domain
  import opened Database
  import opened Messages
  import opened ShipmentApi
  import opened Protocol
  import opened NoLoss
  import opened OwnEvents
  import opened Ledger
  import Refinement
  import T = DispatchTxns

  const RELAY: RelayId := 0
  const CONSUMER: ConsumerId := 0

  predicate FaultFree(step: Step, batchSize: nat) {
    match step
    case Claim(r, limit, _) => r == RELAY && limit == batchSize
    case Publish(r, outcome, _, _) => r == RELAY && outcome.Acked?
    case Finish(r, _) => r == RELAY
    case PollRecord(c, _) => c == CONSUMER
    case CallStore(c) => c == CONSUMER
    case Statement(t) => !t.Abort?
    case CallSucceeded(c) => c == CONSUMER
    case CommitOffset(c, durable, reported) => c == CONSUMER && durable && reported
    case _ => false
  }

  // ----- The states of a fault-free schedule -----

  ghost predicate RelaySide(polls: map<RelayId, Poll>) {
    forall r :: r in polls ==> r == RELAY && polls[r].failed.None?
  }

  /** Only the consumer's current call can be open; once it is over it succeeded. */
  ghost predicate CallSide(t: T.State, w: Work) {
    && (forall x :: x in t.open ==> w.Handling? && w.call == Some(x))
    && (w.Handling? && w.call.Some? ==> w.call.value in t.open || w.call.value in t.outcomes)
  }

  ghost predicate Assigned(c: Consumer) {
    forall p :: 0 <= p < PARTITIONS ==> p in c.positions
  }

  predicate InTopic(log: seq<Record>) {
    forall i :: 0 <= i < |log| ==> log[i].partition < PARTITIONS
  }

  ghost predicate Live(s: State) {
    && Owned(s) && Balanced(s) && InTopic(s.log)
    && RelaySide(s.polls)
    && s.consumers.Keys == {CONSUMER}
    && Assigned(s.consumers[CONSUMER])
    && CallSide(s.txns, s.consumers[CONSUMER].work)
  }

  function Unclaimed(s: State): set<EventId> {
    Pending(s.Db().outbox) - Locked(s.polls)
  }

  function Unread(log: seq<Record>, positions: map<Partition, nat>): set<nat> {
    set i: nat | i < |log| && log[i].partition in positions && positions[log[i].partition] <= i
  }

  ghost predicate AllDone(s: State)
    requires Live(s)
  {
    && s.polls == map[] && Pending(s.Db().outbox) == {}
    && s.consumers[CONSUMER].work.Idle? && Unread(s.log, s.consumers[CONSUMER].positions) == {}
  }

  // ----- Termination measure -----

  function Unacked(polls: map<RelayId, Poll>): nat {
    if RELAY in polls && polls[RELAY].acked <= |polls[RELAY].batch|
    then |polls[RELAY].batch| - polls[RELAY].acked else 0
  }

  function WorkLeft(t: T.State, w: Work): nat {
    match w
    case Idle => 0
    case Handled(_) => 1
    case Handling(_, _, None) => 6
    case Handling(_, _, Some(x)) =>
      if x !in t.open then 2
      else match t.open[x].phase
        case Begun => 5
        case HoldsEvent => 4
        case _ => 3
  }

  function ConsumerOf(s: State): Consumer {
    if CONSUMER in s.consumers then s.consumers[CONSUMER] else Consumer(map[], Idle)
  }

  ghost predicate Less(s': State, s: State) {
    var u, u' := |Unclaimed(s)|, |Unclaimed(s')|;
    var a, a' := Unacked(s.polls), Unacked(s'.polls);
    var p, p' := |s.polls|, |s'.polls|;
    var n, n' := |Unread(s.log, ConsumerOf(s).positions)|, |Unread(s'.log, ConsumerOf(s').positions)|;
    var w, w' := WorkLeft(s.txns, ConsumerOf(s).work), WorkLeft(s'.txns, ConsumerOf(s').work);
    || u' < u
    || (u' == u && (a' < a || (a' == a && (p' < p || (p' == p && (n' < n || (n' == n && w' < w)))))))
  }

  /** How many batches of at most d rows n rows make: n / d, rounded up. */
  function CeilDiv(n: nat, d: nat): (k: nat)
    requires d > 0
    ensures (k - 1) * d < n <= k * d
  {
    if n == 0 then 0 else 1 + CeilDiv(n - Min(d, n), d)
  }

  // ----- The relay's steps -----

  lemma LockedIsBatch(polls: map<RelayId, Poll>)
    requires RelaySide(polls)
    ensures RELAY !in polls ==> Locked(polls) == {} && polls == map[]
    ensures RELAY in polls ==>
              Locked(polls) == (set e | e in polls[RELAY].batch) && polls == map[RELAY := polls[RELAY]] && |polls| == 1
  {
    if RELAY in polls {
      assert polls.Keys == {RELAY};
      assert |polls| == |polls.Keys|;
    } else {
      assert polls.Keys == {};
    }
  }

  lemma ClaimShrinks(outbox: map<EventId, OutboxRow>, limit: nat, batch: seq<EventId>)
    requires IsClaim(outbox, {}, limit, batch) && limit > 0
    ensures var u, u' := |Pending(outbox)|, |Pending(outbox) - (set e | e in batch)|;
            u' == u - Min(limit, u) && (batch != [] ==> CeilDiv(u, limit) == 1 + CeilDiv(u', limit))
  {
    hide SortedByAge;
    DistinctSize(batch);
    var held := set e | e in batch;
    var rest := Pending(outbox) - held;
    assert Pending(outbox) == rest + held;
    assert Pending(outbox) - {} == Pending(outbox);
  }

  lemma LiveClaim(s: State, limit: nat, batch: seq<EventId>)
    requires Live(s) && limit > 0 && CanClaim(s, RELAY, limit, batch)
    ensures var s' := s.(polls := s.polls[RELAY := Poll(batch, 0, None)]);
            && Live(s')
            && |Unclaimed(s')| < |Unclaimed(s)|
            && CeilDiv(|Unclaimed(s)|, limit) == 1 + CeilDiv(|Unclaimed(s')|, limit)
  {
    hide OutboxOk, DispatchesOk, LogOk, TxnsOk, Safe, Accounted, Booked, PollsOk, Pending, IsClaim, CallSide, Balanced;
    var s' := s.(polls := s.polls[RELAY := Poll(batch, 0, None)]);
    LockedIsBatch(s.polls);
    LockedIsBatch(s'.polls);
    SafeElsewhere(s, s');
    OwnedElsewhere(s, s');
    BalancedClaim(s, RELAY, limit, batch);
    ClaimShrinks(s.Db().outbox, limit, batch);
    assert Unclaimed(s) == Pending(s.Db().outbox);
    assert Unclaimed(s') == Pending(s.Db().outbox) - (set e | e in batch);
  }

  lemma LivePublish(s: State, p: Partition, error: string)
    requires Live(s) && CanPublish(s, RELAY, p)
    ensures var s' := ApplyPublish(s, RELAY, Acked, p, error);
            && Live(s') && Unclaimed(s') == Unclaimed(s) && Unacked(s'.polls) < Unacked(s.polls)
  {
    hide DispatchesOk, LogOk, TxnsOk, Safe, Accounted, Booked, PollsOk, Pending, CallSide, Says, RequestIn, MessageFor,
         Balanced;
    var s' := ApplyPublish(s, RELAY, Acked, p, error);
    OwnedPublish(s, RELAY, Acked, p, error);
    BalancedPublish(s, RELAY, Acked, p, error);
    RecordOfRow(s.Db(), s.polls[RELAY].batch[s.polls[RELAY].acked], p);
    LockedIsBatch(s.polls);
    LockedIsBatch(s'.polls);
  }

  /** When everything was acknowledged, exactly the batch stops being pending. */
  lemma PendingAfterFinish(db: Tables, p: Poll, now: int)
    requires PollOk(db.outbox, p) && "" !in db.outbox && p.failed.None? && p.acked == |p.batch|
    ensures Pending(MarkBatch(db, ResultOf(p), now).outbox) == Pending(db.outbox) - (set e | e in p.batch)
  {
    hide MarkBatch, ResultOf;
    MarkKeeps(db, ResultOf(p), now);
    assert p.batch[..p.acked] == p.batch;
    forall e | e in db.outbox
      ensures e in Pending(MarkBatch(db, ResultOf(p), now).outbox) <==> e in Pending(db.outbox) && e !in p.batch
    {
      MarkedRow(db, p, now, e);
    }
  }

  lemma LiveFinish(s: State, now: int)
    requires Live(s) && RELAY in s.polls && Published(s.polls[RELAY])
    ensures var s' := ApplyFinish(s, RELAY, now);
            && Live(s') && Unclaimed(s') == Unclaimed(s) && Unacked(s'.polls) == Unacked(s.polls) && |s'.polls| < |s.polls|
  {
    hide DispatchesOk, LogOk, TxnsOk, Safe, Accounted, Booked, Says, RequestIn, MarkBatch, ResultOf, CallOk,
         OutboxOk, Pending, PollOk;
    var s' := ApplyFinish(s, RELAY, now);
    OwnedFinish(s, RELAY, now);
    BalancedFinish(s, RELAY, now);
    NoEmptyId(s.Db());
    LockedIsBatch(s.polls);
    LockedIsBatch(s'.polls);
    PendingAfterFinish(s.Db(), s.polls[RELAY], now);
    assert s'.txns.open == s.txns.open && s'.txns.outcomes == s.txns.outcomes;
  }

  // ----- The consumer's steps -----

  /** A consumer step leaves the relay alone. */
  ghost predicate RelayAlone(s: State, s': State) {
    s'.polls == s.polls && s'.log == s.log && s'.tally == s.tally && s'.Db().outbox == s.Db().outbox
  }

  lemma LivePollRecord(s: State, offset: nat)
    requires Live(s) && CanPoll(s, CONSUMER, offset)
    ensures var s' := ApplyPollRecord(s, CONSUMER, offset);
            && Live(s') && RelayAlone(s, s')
            && |Unread(s'.log, ConsumerOf(s').positions)| < |Unread(s.log, ConsumerOf(s).positions)|
  {
    hide OutboxOk, DispatchesOk, TxnsOk, Safe, Accounted, Booked, PollsOk, RequestIn, Balanced;
    var s' := ApplyPollRecord(s, CONSUMER, offset);
    SafePollRecord(s, CONSUMER, offset);
    OwnedElsewhere(s, s');
    BalancedElsewhere(s, s');
    assert s'.consumers.Keys == {CONSUMER};
    var before, after := s.consumers[CONSUMER].positions, s'.consumers[CONSUMER].positions;
    assert offset in Unread(s.log, before) && offset !in Unread(s.log, after);
    assert Unread(s.log, after) <= Unread(s.log, before) - {offset};
    SubsetSize(Unread(s.log, after), Unread(s.log, before) - {offset});
  }

  lemma {:induction false} SubsetSize<X>(a: set<X>, b: set<X>)
    requires a <= b
    ensures |a| <= |b|
    decreases |a|
  {
    if a != {} {
      var x :| x in a;
      SubsetSize(a - {x}, b - {x});
    }
  }

  lemma LiveCallStore(s: State)
    requires Live(s) && s.consumers[CONSUMER].work.Handling? && s.consumers[CONSUMER].work.call.None?
    ensures var s' := ApplyCallStore(s, CONSUMER);
            && Live(s') && RelayAlone(s, s') && ConsumerOf(s').positions == ConsumerOf(s).positions
            && WorkLeft(s'.txns, ConsumerOf(s').work) < WorkLeft(s.txns, ConsumerOf(s).work)
  {
    hide OutboxOk, DispatchesOk, LogOk, TxnsOk, Safe, Accounted, Booked, PollsOk, RequestIn, Balanced;
    var s' := ApplyCallStore(s, CONSUMER);
    OwnedCallStore(s, CONSUMER);
    BalancedElsewhere(s, s');
    assert s'.consumers.Keys == {CONSUMER};
  }

  lemma LiveCallSucceeded(s: State)
    requires Live(s) && CanSucceed(s, CONSUMER)
    ensures var s' := ApplyCallSucceeded(s, CONSUMER);
            && Live(s') && RelayAlone(s, s') && ConsumerOf(s').positions == ConsumerOf(s).positions
            && WorkLeft(s'.txns, ConsumerOf(s').work) < WorkLeft(s.txns, ConsumerOf(s).work)
  {
    hide OutboxOk, DispatchesOk, LogOk, TxnsOk, Accounted, Booked, PollsOk, RequestIn, Balanced, BehindOk, Bijective, T.LockInv;
    var s' := ApplyCallSucceeded(s, CONSUMER);
    SafeCallSucceeded(s, CONSUMER);
    OwnedElsewhere(s, s');
    BalancedElsewhere(s, s');
    assert s'.consumers.Keys == {CONSUMER};
    assert s.consumers[CONSUMER].work.call.value !in s.txns.open;
  }

  lemma LiveCommitOffset(s: State)
    requires Live(s) && CanCommitOffset(s, CONSUMER)
    ensures var s' := ApplyCommitOffset(s, CONSUMER, true, true);
            && Live(s') && RelayAlone(s, s') && ConsumerOf(s').positions == ConsumerOf(s).positions
            && WorkLeft(s'.txns, ConsumerOf(s').work) < WorkLeft(s.txns, ConsumerOf(s).work)
  {
    hide OutboxOk, DispatchesOk, LogOk, TxnsOk, Safe, Accounted, Booked, PollsOk, RequestIn, Balanced;
    var s' := ApplyCommitOffset(s, CONSUMER, true, true);
    SafeCommitOffset(s, CONSUMER, true, true);
    OwnedElsewhere(s, s');
    BalancedElsewhere(s, s');
    assert s'.consumers.Keys == {CONSUMER};
  }

  /** The open transaction moves on; its insert never fails. */
  lemma StatementMoves(s: State, t: T.Step)
    requires Owned(s) && CanStep(s, t) && !t.Abort?
    ensures var u := ApplyStatement(s, t).txns;
            && t.x in s.txns.open
            && (t.x in u.open ==> u.open == s.txns.open[t.x := u.open[t.x]]
                                  && T.Rank(u.open[t.x].phase) < T.Rank(s.txns.open[t.x].phase))
            && (t.x !in u.open ==> u.open == s.txns.open - {t.x} && t.x in u.outcomes)
            && (forall y :: y in s.txns.outcomes ==> y in u.outcomes)
  {
    hide OutboxOk, DispatchesOk, LogOk, TxnsOk, Safe, RequestIn, DispatchIds;
    if t.InsertDispatch? {
      InsertStaysOpen(s, t.x, t.id, t.now);
    }
  }

  lemma InsertStaysOpen(s: State, x: T.TxnId, id: DispatchId, now: int)
    requires Owned(s) && CanStep(s, T.InsertDispatch(x, id, now))
    ensures x in ApplyStatement(s, T.InsertDispatch(x, id, now)).txns.open
    ensures ApplyStatement(s, T.InsertDispatch(x, id, now)).txns.open[x].phase.HoldsBoth?
  {
    hide OutboxOk, DispatchesOk, LogOk, RequestIn, Logged, ReqOk, ConsumersOk, BehindOk, Bijective, OutcomesOk;
    assert T.PhaseOk(s.Db(), s.txns.open[x]);
    DispatchInsertSucceeds(s.Db(), s.txns.open[x].req);
  }

  lemma LiveStatement(s: State, t: T.Step)
    requires Live(s) && CanStep(s, t) && !t.Abort?
    ensures var s' := ApplyStatement(s, t);
            && Live(s') && RelayAlone(s, s') && ConsumerOf(s').positions == ConsumerOf(s).positions
            && WorkLeft(s'.txns, ConsumerOf(s').work) < WorkLeft(s.txns, ConsumerOf(s).work)
  {
    hide Owned, OutboxOk, Balanced, CanStep, T.Apply;
    StatementMoves(s, t);
    OwnedStatement(s, t);
    OutboxOkOf(s);
    OutboxStatement(s, t);
    BalancedStatement(s, t);
  }

  lemma OutboxOkOf(s: State)
    requires Owned(s)
    ensures OutboxOk(s.Db())
  {
  }

  lemma SameUnclaimed(s: State, s': State)
    requires RelayAlone(s, s')
    ensures Unclaimed(s') == Unclaimed(s) && Unacked(s'.polls) == Unacked(s.polls) && |s'.polls| == |s.polls|
  {
  }

  /** Every fault-free step decreases the measure, and exactly the claims consume the backlog. */
  lemma LiveStep(s: State, step: Step, batchSize: nat)
    requires Live(s) && batchSize > 0 && Enabled(s, step) && FaultFree(step, batchSize)
    ensures var s' := Apply(s, step);
            && Live(s') && Less(s', s)
            && CeilDiv(|Unclaimed(s)|, batchSize) ==
               (if step.Claim? then 1 else 0) + CeilDiv(|Unclaimed(s')|, batchSize)
  {
    hide Unclaimed, Unacked, Unread, WorkLeft, ApplyPublish, ApplyFinish, ApplyStatement, ApplyPollRecord, ApplyCommitOffset,
         ApplyCallStore, ApplyCallSucceeded, Prepare, FreshCall, CanStep, IsClaim, Owned, Balanced, InTopic, CeilDiv,
         CanPoll, CallSide, Assigned;
    var s' := Apply(s, step);
    match step
    case Claim(r, limit, batch) => LiveClaim(s, limit, batch);
    case Publish(r, _, p, error) => LivePublish(s, p, error);
    case Finish(r, now) => LiveFinish(s, now);
    case PollRecord(c, offset) =>
      LivePollRecord(s, offset);
      SameUnclaimed(s, s');
    case CallStore(c) =>
      LiveCallStore(s);
      SameUnclaimed(s, s');
    case Statement(t) =>
      LiveStatement(s, t);
      SameUnclaimed(s, s');
    case CallSucceeded(c) =>
      LiveCallSucceeded(s);
      SameUnclaimed(s, s');
    case CommitOffset(c, _, _) =>
      LiveCommitOffset(s);
      SameUnclaimed(s, s');
  }

  // ----- Progress -----

  predicate ShorterThan(used: set<DispatchId>, n: nat) {
    forall id :: id in used ==> |id| < n
  }

  /** Some identifier is not in use. */
  lemma {:induction false} FreshIdExists(used: set<DispatchId>)
    ensures exists n: nat :: ShorterThan(used, n)
    decreases |used|
  {
    if used == {} {
      assert ShorterThan(used, 0);
    } else {
      var x :| x in used;
      FreshIdExists(used - {x});
      var n: nat :| ShorterThan(used - {x}, n);
      assert forall id :: id in used ==> id == x || id in used - {x};
      assert ShorterThan(used, n + |x| + 1);
    }
  }

  function Name(n: nat): (s: string)
    ensures |s| == n
  {
    seq(n, i => 'x')
  }

  lemma {:induction false} NextExists(log: seq<Record>, p: Partition, from: nat, i: nat)
    requires from <= i < |log| && log[i].partition == p
    ensures exists o :: IsNext(log, p, from, o)
    decreases i
  {
    if j :| from <= j < i && log[j].partition == p {
      NextExists(log, p, from, j);
    } else {
      assert IsNext(log, p, from, i);
    }
  }

  lemma RelayCanMove(s: State, batchSize: nat)
    requires Live(s) && batchSize > 0 && (s.polls != map[] || Pending(s.Db().outbox) != {})
    ensures exists step :: FaultFree(step, batchSize) && Enabled(s, step)
  {
    hide Owned, OutboxOk, Accounted, Booked, IsClaim, CallSide;
    LockedIsBatch(s.polls);
    if RELAY in s.polls {
      var p := s.polls[RELAY];
      assert PollOk(s.Db().outbox, p);
      if p.acked < |p.batch| {
        assert p.batch[p.acked] in Pending(s.Db().outbox);
        assert Enabled(s, Publish(RELAY, Acked, 0, ""));
      } else {
        assert Enabled(s, Finish(RELAY, 0));
      }
    } else {
      ClaimExists(s.Db().outbox, {}, batchSize);
      var batch :| IsClaim(s.Db().outbox, {}, batchSize, batch);
      ClaimSize(s.Db().outbox, {}, batchSize, batch);
      assert Pending(s.Db().outbox) - {} == Pending(s.Db().outbox);
      assert Enabled(s, Claim(RELAY, batchSize, batch));
    }
  }

  lemma OpenCallCanMove(s: State, x: T.TxnId)
    requires Live(s) && s.consumers[CONSUMER].work.Handling? && s.consumers[CONSUMER].work.call == Some(x)
    requires x in s.txns.open
    ensures exists t: T.Step :: !t.Abort? && CanStep(s, t)
  {
    hide Owned, Balanced, DispatchIds;
    assert s.txns.open.Keys == {x};
    match s.txns.open[x].phase
    case Begun => assert CanStep(s, T.InsertEvent(x));
    case HoldsEvent =>
      FreshIdExists(DispatchIds(s.Db()));
      var n: nat :| ShorterThan(DispatchIds(s.Db()), n);
      assert CanStep(s, T.InsertDispatch(x, Name(n), 0));
    case _ => assert CanStep(s, T.Commit(x));
  }

  lemma IdleConsumerCanPoll(s: State)
    requires Live(s) && s.consumers[CONSUMER].work.Idle? && Unread(s.log, s.consumers[CONSUMER].positions) != {}
    ensures exists o :: CanPoll(s, CONSUMER, o)
  {
    hide Owned, Balanced, IsNext;
    var c := s.consumers[CONSUMER];
    var i :| i in Unread(s.log, c.positions);
    var p := s.log[i].partition;
    NextExists(s.log, p, c.positions[p], i);
    var o :| IsNext(s.log, p, c.positions[p], o);
    NextIs(s.log, p, c.positions[p], o);
    assert CanPoll(s, CONSUMER, o);
  }

  lemma WorkAtHand(s: State)
    requires Live(s)
    ensures s.consumers[CONSUMER].work.Handled? ==> CanCommitOffset(s, CONSUMER)
    ensures InCall(s, CONSUMER) && s.consumers[CONSUMER].work.call.value !in s.txns.open ==> CanSucceed(s, CONSUMER)
  {
    hide OutboxOk, DispatchesOk, LogOk, Balanced, BehindOk, TxnInv, RequestIn;
    assert ConsumerOk(s.txns, s.log, s.consumers[CONSUMER]);
  }

  lemma ConsumerCanMove(s: State, batchSize: nat)
    requires Live(s)
    requires !s.consumers[CONSUMER].work.Idle? || Unread(s.log, s.consumers[CONSUMER].positions) != {}
    ensures exists step :: FaultFree(step, batchSize) && Enabled(s, step)
  {
    hide Owned, Balanced, CanPoll, CanStep, CanSucceed, CanCommitOffset, Unread;
    WorkAtHand(s);
    match s.consumers[CONSUMER].work
    case Idle =>
      IdleConsumerCanPoll(s);
      var o :| CanPoll(s, CONSUMER, o);
      assert Enabled(s, PollRecord(CONSUMER, o));
    case Handled(_) =>
      assert Enabled(s, CommitOffset(CONSUMER, true, true));
    case Handling(_, _, None) =>
      assert Enabled(s, CallStore(CONSUMER));
    case Handling(_, _, Some(x)) =>
      if x in s.txns.open {
        OpenCallCanMove(s, x);
        var t: T.Step :| !t.Abort? && CanStep(s, t);
        assert Enabled(s, Statement(t));
      } else {
        assert Enabled(s, CallSucceeded(CONSUMER));
      }
  }

  lemma NextIs(log: seq<Record>, p: Partition, from: nat, o: nat)
    requires IsNext(log, p, from, o)
    ensures o < |log| && log[o].partition == p
  {
  }

  /** Until everything is done some fault-free step is possible. */
  lemma NeverStuck(s: State, batchSize: nat)
    requires Live(s) && batchSize > 0 && !AllDone(s)
    ensures exists step :: FaultFree(step, batchSize) && Enabled(s, step)
  {
    hide Owned, Balanced, FaultFree, Enabled, Pending, Unread, CallSide, Assigned;
    if s.polls != map[] || Pending(s.Db().outbox) != {} {
      RelayCanMove(s, batchSize);
    } else {
      ConsumerCanMove(s, batchSize);
    }
  }

  // ----- Schedules -----

  predicate FaultFreeSteps(steps: seq<Step>, batchSize: nat) {
    forall i :: 0 <= i < |steps| ==> FaultFree(steps[i], batchSize)
  }

  function Claims(steps: seq<Step>): nat {
    if steps == [] then 0 else (if steps[0].Claim? then 1 else 0) + Claims(steps[1..])
  }

  lemma NothingUnclaimed(s: State, batchSize: nat)
    requires Live(s) && AllDone(s) && batchSize > 0
    ensures CeilDiv(|Unclaimed(s)|, batchSize) == 0
  {
    assert Unclaimed(s) == {};
  }

  /**
   * However the steps are picked, with or without memory: along every fault-free run the claims made and the
   * batches still unclaimed add up, and a run that cannot go on has done everything.
   */
  lemma {:induction false} EveryScheduleDrains(s: State, steps: seq<Step>, batchSize: nat)
    requires Live(s) && batchSize > 0 && IsRun(s, steps) && FaultFreeSteps(steps, batchSize)
    ensures var end := Final(s, steps);
            && Live(end)
            && CeilDiv(|Unclaimed(s)|, batchSize) == Claims(steps) + CeilDiv(|Unclaimed(end)|, batchSize)
            && (AllDone(end) || exists step :: FaultFree(step, batchSize) && Enabled(end, step))
            && (AllDone(end) ==> Claims(steps) == CeilDiv(|Unclaimed(s)|, batchSize))
    decreases |steps|
  {
    hide Live, AllDone, FaultFree, Enabled, Apply, CeilDiv, Unclaimed;
    if steps == [] {
      if AllDone(s) {
        NothingUnclaimed(s, batchSize);
      } else {
        NeverStuck(s, batchSize);
      }
    } else {
      LiveStep(s, steps[0], batchSize);
      EveryScheduleDrains(Apply(s, steps[0]), steps[1..], batchSize);
    }
  }

  /** No fault-free schedule goes on for ever. */
  lemma {:induction false} NoEndlessSchedule(states: nat -> State, picks: nat -> Step, batchSize: nat, i: nat)
    requires batchSize > 0 && Live(states(i))
    requires forall j: nat :: FaultFree(picks(j), batchSize) && Enabled(states(j), picks(j))
    requires forall j: nat :: states(j + 1) == Apply(states(j), picks(j))
    ensures false
    decreases |Unclaimed(states(i))|, Unacked(states(i).polls), |states(i).polls|,
              |Unread(states(i).log, ConsumerOf(states(i)).positions)|, WorkLeft(states(i).txns, ConsumerOf(states(i)).work)
  {
    hide Live, FaultFree, Enabled, Apply, CeilDiv, Unclaimed, Unacked, Unread, WorkLeft, ConsumerOf;
    LiveStep(states(i), picks(i), batchSize);
    NoEndlessSchedule(states, picks, batchSize, i + 1);
  }

  /** Some fault-free schedule reaches the end. */
  lemma {:induction false} SomeScheduleEnds(s: State, batchSize: nat)
    requires Live(s) && batchSize > 0
    ensures exists steps :: IsRun(s, steps) && FaultFreeSteps(steps, batchSize) && Live(Final(s, steps)) && AllDone(Final(s, steps))
    decreases |Unclaimed(s)|, Unacked(s.polls), |s.polls|, |Unread(s.log, ConsumerOf(s).positions)|,
              WorkLeft(s.txns, ConsumerOf(s).work)
  {
    hide Live, AllDone, FaultFree, Enabled, Apply, CeilDiv, Unclaimed, Unacked, Unread, WorkLeft, ConsumerOf;
    if AllDone(s) {
      assert IsRun(s, []) && FaultFreeSteps([], batchSize) && Final(s, []) == s;
    } else {
      NeverStuck(s, batchSize);
      var step :| FaultFree(step, batchSize) && Enabled(s, step);
      LiveStep(s, step, batchSize);
      SomeScheduleEnds(Apply(s, step), batchSize);
      var rest :| IsRun(Apply(s, step), rest) && FaultFreeSteps(rest, batchSize)
                  && Live(Final(Apply(s, step), rest)) && AllDone(Final(Apply(s, step), rest));
      Prepend(s, step, rest);
      assert FaultFreeSteps([step] + rest, batchSize);
    }
  }

  // ----- What "done" means -----

  lemma {:induction false} CopiedIsLogged(log: seq<Record>, e: EventId)
    requires Copies(log)[e] > 0
    ensures Logged(log, e)
    decreases |log|
  {
    hide RequestIn;
    var n := |log| - 1;
    if EventIn(log[n]) != Some(e) {
      CopiedIsLogged(log[..n], e);
      LoggedStays(log[..n], log, e);
    }
  }

  /** Nothing pending and nothing unread: every shipment is published and dispatched. */
  lemma DoneMeansDispatched(s: State, id: ShipmentId)
    requires Live(s) && AllDone(s) && id in s.Db().shipments
    ensures id in s.Db().dispatches
    ensures forall e :: e in s.Db().outbox ==> s.Db().outbox[e].publishedAt.Some?
  {
    hide Copies, RequestIn, Says, LogOk, TxnsOk, PollsOk, Booked, OutcomesOk, T.LockInv, IdsIn, OpenAck;
    var e := Refinement.EventOfShipment(s.Db(), id);
    assert forall f :: f in s.Db().outbox ==> f !in Pending(s.Db().outbox);
    assert Accounted(s, e);
    CopiedIsLogged(s.log, e);
    var i :| 0 <= i < |s.log| && EventIn(s.log[i]) == Some(e);
    var c := s.consumers[CONSUMER];
    assert ConsumerOk(s.txns, s.log, c);
    assert i !in Unread(s.log, c.positions);
    assert Recorded(s.Db().processed, s.log[i]);
    var d :| d in s.Db().dispatches && s.Db().dispatches[d].eventId == e;
    assert s.Db().outbox[e].shipmentId == d;
  }

  lemma {:induction false} TopicRun(s: State, steps: seq<Step>)
    requires IsRun(s, steps) && InTopic(s.log)
    ensures InTopic(Final(s, steps).log)
    decreases |steps|
  {
    hide Enabled, Apply;
    if steps != [] {
      TopicStep(s, steps[0]);
      TopicRun(Apply(s, steps[0]), steps[1..]);
    }
  }

  lemma TopicStep(s: State, step: Step)
    requires InTopic(s.log) && Enabled(s, step)
    ensures InTopic(Apply(s, step).log)
  {
    hide IsClaim, Prepare, FreshCall, AfterCreate, CanStep, CanPoll, MessageFor, RequestIn, IdsIn, T.Apply, MarkBatch,
         ResultOf;
  }

  // ----- Coming to rest, and starting again -----

  /** At rest: no open transaction and no running consumer. */
  predicate AtRest(s: State) {
    s.polls == map[] && s.txns.open == map[] && s.consumers == map[]
  }

  /** A process stops, or an open transaction goes with its connection. */
  predicate Settling(step: Step) {
    step.Stop? || step.Rollback? || (step.Statement? && step.step.Abort?)
  }

  predicate AllSettling(steps: seq<Step>) {
    forall i :: 0 <= i < |steps| ==> Settling(steps[i])
  }

  function Running(s: State): nat {
    |s.polls| + |s.txns.open| + |s.consumers|
  }

  lemma StopSettles(s: State, c: ConsumerId)
    requires c in s.consumers
    ensures Settling(Stop(c)) && Enabled(s, Stop(c)) && Running(Apply(s, Stop(c))) < Running(s)
  {
    MapShrinks(s.consumers, c);
  }

  lemma RollbackSettles(s: State, r: RelayId)
    requires r in s.polls
    ensures Settling(Rollback(r)) && Enabled(s, Rollback(r)) && Running(Apply(s, Rollback(r))) < Running(s)
  {
    MapShrinks(s.polls, r);
  }

  lemma AbortSettles(s: State, x: T.TxnId)
    requires x in s.txns.open
    ensures var step := Statement(T.Abort(x));
            Settling(step) && Enabled(s, step) && Running(Apply(s, step)) < Running(s)
  {
    MapShrinks(s.txns.open, x);
  }

  lemma SomethingSettles(s: State)
    requires !AtRest(s)
    ensures exists step :: Settling(step) && Enabled(s, step) && Running(Apply(s, step)) < Running(s)
  {
    hide Settling, Enabled, Apply, Running;
    if s.polls != map[] {
      var r :| r in s.polls;
      RollbackSettles(s, r);
    } else if s.txns.open != map[] {
      var x :| x in s.txns.open;
      AbortSettles(s, x);
    } else {
      var c :| c in s.consumers;
      StopSettles(s, c);
    }
  }

  lemma MapShrinks<K, V>(m: map<K, V>, k: K)
    requires k in m
    ensures |m - {k}| < |m|
  {
    assert (m - {k}).Keys == m.Keys - {k};
    assert |m - {k}| == |(m - {k}).Keys| && |m| == |m.Keys|;
  }

  /** Every state comes to rest when its processes stop. */
  lemma {:induction false} SettlingEnds(s: State)
    ensures exists steps :: IsRun(s, steps) && AllSettling(steps) && AtRest(Final(s, steps))
    decreases Running(s)
  {
    hide Enabled, Apply, Settling, Running, AtRest;
    if AtRest(s) {
      assert IsRun(s, []) && AllSettling([]) && Final(s, []) == s;
    } else {
      SomethingSettles(s);
      var step :| Settling(step) && Enabled(s, step) && Running(Apply(s, step)) < Running(s);
      SettlingEnds(Apply(s, step));
      var rest :| IsRun(Apply(s, step), rest) && AllSettling(rest) && AtRest(Final(Apply(s, step), rest));
      Prepend(s, step, rest);
      assert AllSettling([step] + rest);
    }
  }

  /** Coming to rest touches neither tables nor topic. */
  lemma {:induction false} SettlingKeeps(s: State, steps: seq<Step>)
    requires IsRun(s, steps) && AllSettling(steps)
    ensures Final(s, steps).Db() == s.Db() && Final(s, steps).log == s.log
    ensures OwnProducers(steps)
    decreases |steps|
  {
    hide Enabled, Apply, Settling;
    if steps != [] {
      SettlingStepKeeps(s, steps[0]);
      SettlingKeeps(Apply(s, steps[0]), steps[1..]);
      assert forall i :: 1 <= i < |steps| ==> steps[i] == steps[1..][i - 1];
    }
  }

  lemma SettlingStepKeeps(s: State, step: Step)
    requires Enabled(s, step) && Settling(step)
    ensures Apply(s, step).Db() == s.Db() && Apply(s, step).log == s.log && !step.Foreign?
  {
  }

  /** The consumer joins: it starts each of the first n partitions at the committed offset. */
  function Join(n: nat): seq<Step> {
    if n == 0 then [] else Join(n - 1) + [Assign(CONSUMER, n - 1)]
  }

  lemma AssignOne(s: State, p: Partition)
    requires p < PARTITIONS && (CONSUMER in s.consumers ==> s.consumers[CONSUMER].work.Idle?)
    ensures Enabled(s, Assign(CONSUMER, p))
    ensures var s' := Apply(s, Assign(CONSUMER, p));
            && s'.txns == s.txns && s'.polls == s.polls && s'.log == s.log && s'.tally == s.tally
            && s'.consumers.Keys == s.consumers.Keys + {CONSUMER} && s'.consumers[CONSUMER].work.Idle?
            && p in s'.consumers[CONSUMER].positions
            && (CONSUMER in s.consumers ==> s.consumers[CONSUMER].positions.Keys <= s'.consumers[CONSUMER].positions.Keys)
  {
  }

  lemma {:induction false} Joining(s: State, n: nat)
    requires AtRest(s) && n <= PARTITIONS
    ensures IsRun(s, Join(n)) && OwnProducers(Join(n))
    ensures var s' := Final(s, Join(n));
            && s'.txns == s.txns && s'.polls == s.polls && s'.log == s.log && s'.tally == s.tally
            && (n > 0 ==>
                  && s'.consumers.Keys == {CONSUMER} && s'.consumers[CONSUMER].work.Idle?
                  && forall p :: 0 <= p < n ==> p in s'.consumers[CONSUMER].positions)
            && (n == 0 ==> s' == s)
  {
    hide Enabled, Apply;
    if n > 0 {
      Joining(s, n - 1);
      var s1 := Final(s, Join(n - 1));
      var step := Assign(CONSUMER, n - 1);
      AssignOne(s1, n - 1);
      Prepend(s1, step, []);
      assert [step] + [] == [step];
      Concatenate(s, Join(n - 1), [step]);
    }
  }

  lemma JoinedIsLive(past: seq<Step>)
    requires IsRun(INIT, past) && OwnProducers(past) && AtRest(Final(INIT, past))
    ensures IsRun(Final(INIT, past), Join(PARTITIONS))
    ensures Live(Final(Final(INIT, past), Join(PARTITIONS)))
  {
    hide Owned, Balanced, Enabled, Apply, Join;
    var s := Final(INIT, past);
    OwnedInit();
    OwnedRun(INIT, past);
    BalancedInit();
    BalancedRun(INIT, past);
    TopicRun(INIT, past);
    Joining(s, PARTITIONS);
    OwnedRun(s, Join(PARTITIONS));
    BalancedRun(s, Join(PARTITIONS));
  }

  lemma BalancedInit()
    ensures Balanced(INIT)
  {
    hide IdsIn;
    EmptyPolls();
  }

  /** The schedule has come to an end: nothing fault-free can happen any more. */
  ghost predicate Ended(s: State, batchSize: nat) {
    forall step :: FaultFree(step, batchSize) ==> !Enabled(s, step)
  }

  /** A way for the system to come to rest from s. */
  ghost predicate Restarts(s: State, settling: seq<Step>) {
    IsRun(s, settling) && AllSettling(settling) && AtRest(Final(s, settling))
  }

  /** The state in which the fault-free schedule starts. */
  function Restarted(s: State, settling: seq<Step>): State
    requires Restarts(s, settling)
  {
    Joining(Final(s, settling), PARTITIONS);
    Final(Final(s, settling), Join(PARTITIONS))
  }

  lemma RestartedIsLive(past: seq<Step>, settling: seq<Step>)
    requires IsRun(INIT, past) && OwnProducers(past) && Restarts(Final(INIT, past), settling)
    ensures Live(Restarted(Final(INIT, past), settling))
    ensures Restarted(Final(INIT, past), settling).Db() == Final(INIT, past).Db()
    ensures Restarted(Final(INIT, past), settling).polls == map[]
  {
    hide Live, Enabled, Apply, Join;
    var s := Final(INIT, past);
    SettlingKeeps(s, settling);
    Concatenate(INIT, past, settling);
    JoinedIsLive(past + settling);
    Joining(Final(s, settling), PARTITIONS);
  }

  /**
   * From every reachable state, with n rows pending: stop what is running in any order and start one relay and
   * one consumer. Every fault-free schedule that has ended then made exactly ceil(n / batchSize) non-empty
   * polls, and every shipment is PUBLISHED and DISPATCHED.
   */
  lemma FaultFreeRunsDrain(past: seq<Step>, settling: seq<Step>, steps: seq<Step>, batchSize: nat)
    requires IsRun(INIT, past) && OwnProducers(past) && batchSize > 0
    requires Restarts(Final(INIT, past), settling) && IsRun(Restarted(Final(INIT, past), settling), steps)
    requires FaultFreeSteps(steps, batchSize) && Ended(Final(Restarted(Final(INIT, past), settling), steps), batchSize)
    ensures var s := Final(INIT, past);
            var end := Final(Restarted(s, settling), steps);
            && Claims(steps) == CeilDiv(|Pending(s.Db().outbox)|, batchSize)
            && s.Db().shipments.Keys <= end.Db().shipments.Keys
            && (forall e :: e in end.Db().outbox ==> end.Db().outbox[e].publishedAt.Some?)
            && (forall id :: id in end.Db().shipments ==> id in end.Db().dispatches)
            && (forall id :: id in end.Db().shipments ==> exists v :: Observes(end.Db(), id, v))
            && (forall id, v :: Observes(end.Db(), id, v) ==> v.outbox == OutboxPublished && v.dispatch.Dispatched?)
  {
    hide Live, AllDone, FaultFree, Enabled, Apply, CeilDiv, Restarts, Restarted, Observes;
    var s := Final(INIT, past);
    RestartedIsLive(past, settling);
    var started := Restarted(s, settling);
    EveryScheduleDrains(started, steps, batchSize);
    FaultFreeKeeps(started, steps, batchSize);
    var end := Final(started, steps);
    assert Unclaimed(started) == Pending(s.Db().outbox);
    forall id | id in end.Db().shipments
      ensures id in end.Db().dispatches
    {
      DoneMeansDispatched(end, id);
    }
    DonePublished(end);
    LiveIsOwned(end);
    DoneIsShown(end);
  }

  lemma LiveIsOwned(s: State)
    requires Live(s)
    ensures Owned(s)
  {
  }

  /** When everything is published and dispatched, that is what GetShipment shows. */
  lemma DoneIsShown(s: State)
    requires Owned(s)
    requires forall e :: e in s.Db().outbox ==> s.Db().outbox[e].publishedAt.Some?
    requires forall id :: id in s.Db().shipments ==> id in s.Db().dispatches
    ensures forall id :: id in s.Db().shipments ==> exists v :: Observes(s.Db(), id, v)
    ensures forall id, v :: Observes(s.Db(), id, v) ==> v.outbox == OutboxPublished && v.dispatch.Dispatched?
  {
    hide Safe, DispatchesOk, LogOk, TxnsOk, Says, Observes;
    forall id | id in s.Db().shipments
      ensures exists v :: Observes(s.Db(), id, v)
    {
      Refinement.JoinHasOneRow(s, id);
    }
    forall id, v | Observes(s.Db(), id, v)
      ensures v.outbox == OutboxPublished && v.dispatch.Dispatched?
    {
      Refinement.ObservedExactly(s, id, v);
      var e := Refinement.EventOfShipment(s.Db(), id);
      assert RowOk(s.Db(), e);
    }
  }

  lemma FaultFreeKeeps(s: State, steps: seq<Step>, batchSize: nat)
    requires Live(s) && IsRun(s, steps) && FaultFreeSteps(steps, batchSize)
    ensures s.Db().shipments.Keys <= Final(s, steps).Db().shipments.Keys
  {
    hide Safe, OutboxOk, DispatchesOk, LogOk, TxnsOk, Balanced, Enabled, Apply;
    OwnedRun(s, steps);
  }

  /** From every reachable state there is such a way to rest and on to the end. */
  lemma EveryReachableStateDrains(past: seq<Step>, batchSize: nat)
    requires IsRun(INIT, past) && OwnProducers(past) && batchSize > 0
    ensures exists settling :: Restarts(Final(INIT, past), settling)
              && exists steps :: IsRun(Restarted(Final(INIT, past), settling), steps) && FaultFreeSteps(steps, batchSize)
                                 && Ended(Final(Restarted(Final(INIT, past), settling), steps), batchSize)
  {
    hide Live, AllDone, FaultFree, Enabled, Apply, Restarted;
    SettlingEnds(Final(INIT, past));
    var settling :| IsRun(Final(INIT, past), settling) && AllSettling(settling)
                    && AtRest(Final(Final(INIT, past), settling));
    assert Restarts(Final(INIT, past), settling);
    RestartedIsLive(past, settling);
    var started := Restarted(Final(INIT, past), settling);
    SomeScheduleEnds(started, batchSize);
    var steps :| IsRun(started, steps) && FaultFreeSteps(steps, batchSize) && Live(Final(started, steps))
                 && AllDone(Final(started, steps));
    DoneMeansEnded(Final(started, steps), batchSize);
  }

  /** When everything is done nothing fault-free is left to do. */
  lemma DoneMeansEnded(s: State, batchSize: nat)
    requires Live(s) && AllDone(s)
    ensures Ended(s, batchSize)
  {
    hide Owned, Balanced, InTopic, Assigned;
    forall step | FaultFree(step, batchSize)
      ensures !Enabled(s, step)
    {
      NothingToDo(s, step, batchSize);
    }
  }

  lemma NothingToDo(s: State, step: Step, batchSize: nat)
    requires Live(s) && AllDone(s) && FaultFree(step, batchSize)
    ensures !Enabled(s, step)
  {
    hide Owned, Balanced, InTopic, Assigned, CanClaim, CanPoll;
    match step
    case Claim(r, limit, batch) => ClaimedIsPending(s, r, limit, batch);
    case PollRecord(c, offset) => PolledIsUnread(s, offset);
    case _ =>
  }

  lemma ClaimedIsPending(s: State, r: RelayId, limit: nat, batch: seq<EventId>)
    ensures CanClaim(s, r, limit, batch) ==> batch != [] && batch[0] in Pending(s.Db().outbox)
  {
    hide SortedByAge, Locked;
    assert batch != [] ==> batch[0] in batch;
  }

  lemma PolledIsUnread(s: State, offset: nat)
    ensures CanPoll(s, CONSUMER, offset) ==>
              CONSUMER in s.consumers && offset in Unread(s.log, s.consumers[CONSUMER].positions)
  {
  }

  lemma DonePublished(s: State)
    requires Live(s) && AllDone(s)
    ensures forall e :: e in s.Db().outbox ==> s.Db().outbox[e].publishedAt.Some?
  {
    assert forall e :: e in s.Db().outbox ==> e !in Pending(s.Db().outbox);
  }
}
