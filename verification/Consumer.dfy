/** internal/consumer/consumer.go: one record at a time, its offset committed only once it is handled. */
module Consumer {
  import opened Wrappers
  import opened Domain
  import opened Events
  import opened Json
  import opened Database
  import opened Storage
  import opened Retry
  import opened Kafka
  import opened Handler
  import opened NoLoss
  import P = Protocol

  /** Offsets from which a consumer may start: everything below them is processed. */
  ghost predicate SafeOffsets(db: Tables, log: seq<P.Record>, offsets: map<P.Partition, nat>) {
    BehindOk(db.processed, log, offsets, None)
  }

  /** Processing goes on and never undoes anything. */
  ghost predicate Advances(before: Tables, after: Tables) {
    && before.processed <= after.processed
    && after.shipments == before.shipments && after.outbox == before.outbox
    && (forall s :: s in before.dispatches ==> s in after.dispatches && after.dispatches[s] == before.dispatches[s])
    && (Bijective(before) ==> Bijective(after))
  }

  lemma RecordTxAdvances(db: Tables, req: DispatchRequest, id: DispatchId, now: int)
    ensures Advances(db, RecordTx(db, req, id, now).0)
  {
    var db' := RecordTx(db, req, id, now).0;
    if Bijective(db) && db' != db {
      forall e | e in db'.processed
        ensures exists s :: s in db'.dispatches && db'.dispatches[s].eventId == e
      {
        if e == req.eventId {
          assert db'.dispatches[req.shipmentId].eventId == e;
        } else {
          var s :| s in db.dispatches && db.dispatches[s].eventId == e;
          assert db'.dispatches[s].eventId == e;
        }
      }
    }
  }

  lemma AdvancesTransitive(a: Tables, b: Tables, c: Tables)
    requires Advances(a, b) && Advances(b, c)
    ensures Advances(a, c)
  {
  }

  lemma AdvancesReflexive(db: Tables)
    ensures Advances(db, db)
  {
  }

  /** A safe offset never passes a record that does not decode. */
  lemma UnreadableIsNeverPassed(db: Tables, log: seq<P.Record>, offsets: map<P.Partition, nat>, i: nat)
    requires SafeOffsets(db, log, offsets) && i < |log| && Decode(log[i].value).Err?
    ensures log[i].partition in offsets ==> offsets[log[i].partition] <= i
  {
  }

  datatype Failure = Stopped(offset: nat, outcome: Outcome) | CommitFailed(offset: nat)

  /** A record that was fetched. */
  datatype Visit = Visit(partition: P.Partition, offset: nat)

  lemma HandlingAdvances(db: Tables, payload: Text, policy: RetryPolicy, env: nat -> Attempt, r: Report, db': Tables)
    requires HandlesPayload(db, payload, policy, env, r, db')
    ensures Advances(db, db')
    ensures !r.error ==> Decode(payload).Ok? && RequestOf(Decode(payload).value).eventId in db'.processed
  {
    hide Decode, RecordTx, Advances, WaitAfter, After, Succeeds, Conflicts, LastAttempt;
    AdvancesReflexive(db);
    if Decode(payload).Ok? {
      var req := RequestOf(Decode(payload).value);
      AfterStays(db, payload, policy, env, r, db');
      var recorder := OneEffect(db, req, env, r.calls);
      if recorder > 0 {
        RecordTxAdvances(db, req, env(recorder).id, env(recorder).now);
      }
      if !r.error {
        SucceededIsProcessed(db, req, env, r.calls);
      }
    }
  }

  lemma AfterStays(db: Tables, payload: Text, policy: RetryPolicy, env: nat -> Attempt, r: Report, db': Tables)
    requires HandlesPayload(db, payload, policy, env, r, db') && Decode(payload).Ok?
    ensures r.calls > 0 && db' == After(db, RequestOf(Decode(payload).value), env, r.calls)
  {
    hide Decode, RecordTx;
  }

  /** Handle, then commit the offset; any error leaves the rest to a restart. */
  method ProcessRecord(store: Store, broker: Broker, policy: RetryPolicy, offset: nat, env: nat -> Attempt, commit: Fault)
    returns (failure: Option<Failure>, ghost report: Report)
    requires offset < |broker.log|
    modifies store, broker`committed
    ensures HandlesPayload(old(store.Contents()), broker.log[offset].value, policy, env, report, store.Contents())
    ensures failure.None? <==> !report.error && commit.NoFault?
    ensures failure.Some? ==>
              failure.value == if report.error then Stopped(offset, report.outcome) else CommitFailed(offset)
    ensures broker.committed ==
            if !report.error && !commit.Fails? then old(broker.committed)[broker.log[offset].partition := offset + 1]
            else old(broker.committed)
    ensures Advances(old(store.Contents()), store.Contents())
    ensures !report.error ==> Recorded(store.Contents().processed, broker.log[offset])
  {
    hide HandlesPayload, Decode, RecordTx, Advances, MaxWait, Slept, Fits, ValidPolicy;
    ghost var db := store.Contents();
    var handled, recorder := Handle(store, policy, broker.log[offset].value, env);
    report := handled;
    HandlingAdvances(db, broker.log[offset].value, policy, env, report, store.Contents());
    if handled.error {
      return Some(Stopped(offset, handled.outcome)), report;
    }
    var ok := broker.CommitRecord(offset, commit);
    return if ok then None else Some(CommitFailed(offset)), report;
  }

  /** What goes on around one poll: what others write, the assignment, the record fetched, and the faults. */
  datatype Turn = Turn(
    arrived: seq<P.Record>, assignment: set<P.Partition>, fetched: Option<nat>, closed: bool,
    env: nat -> Attempt, commit: Fault, contextEnded: bool)

  datatype Exit = BadConfig | Finished | Failed(failure: Failure)

  /** Partitions kept stay where they are; a partition that comes in starts at its committed offset. */
  function Reassign(positions: map<P.Partition, nat>, committed: map<P.Partition, nat>, assignment: set<P.Partition>)
    : map<P.Partition, nat>
  {
    map p | p in assignment :: if p in positions then positions[p] else if p in committed then committed[p] else 0
  }

  /** offset is the next record of an assigned partition. */
  predicate Fetchable(log: seq<P.Record>, positions: map<P.Partition, nat>, offset: nat) {
    && offset < |log| && log[offset].partition in positions
    && P.IsNext(log, log[offset].partition, positions[log[offset].partition], offset)
  }

  lemma ReassignIsSafe(db: Tables, log: seq<P.Record>, positions: map<P.Partition, nat>, committed: map<P.Partition, nat>,
                       assignment: set<P.Partition>, log': seq<P.Record>)
    requires SafeOffsets(db, log, positions) && SafeOffsets(db, log, committed) && log <= log'
    ensures SafeOffsets(db, log', Reassign(positions, committed, assignment)) && SafeOffsets(db, log', committed)
  {
    hide P.EventIn;
    BehindStays(db.processed, log, db.processed, log', positions, None);
    BehindStays(db.processed, log, db.processed, log', committed, None);
  }

  lemma SafeStays(db: Tables, db': Tables, log: seq<P.Record>, offsets: map<P.Partition, nat>)
    requires SafeOffsets(db, log, offsets) && Advances(db, db')
    ensures SafeOffsets(db', log, offsets)
  {
    BehindStays(db.processed, log, db'.processed, log, offsets, None);
  }

  /** Moving past the next record of a partition once it is processed. */
  lemma PassRecorded(db: Tables, log: seq<P.Record>, positions: map<P.Partition, nat>, offsets: map<P.Partition, nat>,
                     offset: nat)
    requires SafeOffsets(db, log, positions) && SafeOffsets(db, log, offsets)
    requires Fetchable(log, positions, offset) && Recorded(db.processed, log[offset])
    ensures SafeOffsets(db, log, offsets[log[offset].partition := offset + 1])
  {
    hide P.EventIn, Recorded;
    var p := log[offset].partition;
    var offsets' := offsets[p := offset + 1];
    forall i | 0 <= i < |log| && log[i].partition in offsets' && i < offsets'[log[i].partition]
      ensures Recorded(db.processed, log[i])
    {
      assert log[i].partition == p && i < offset ==> i < positions[p];
    }
  }

  // ----- One turn -----

  /** Tables, topic, committed offsets and the consumer's positions at one moment. */
  datatype Snapshot = Snapshot(
    db: Tables, log: seq<P.Record>, committed: map<P.Partition, nat>, positions: map<P.Partition, nat>)

  /** Where a partition goes on: a kept one where it is, one that comes in at its committed offset. */
  function ResumeAt(a: Snapshot, p: P.Partition): nat {
    if p in a.positions then a.positions[p] else P.CommittedOffset(a.committed, p)
  }

  /** v is what the client hands over in this turn. */
  predicate HandedOut(a: Snapshot, log: seq<P.Record>, turn: Turn, v: Visit) {
    && !turn.closed && turn.fetched == Some(v.offset) && v.partition in turn.assignment
    && P.IsNext(log, v.partition, ResumeAt(a, v.partition), v.offset)
  }

  /** What came of a turn: the record handled, the handler's report on it, and the failure if any. */
  datatype Step = Step(visit: Option<Visit>, report: Report, failure: Option<Failure>)

  /** What processing the record v comes to. */
  ghost predicate Processed(a: Snapshot, b: Snapshot, policy: RetryPolicy, turn: Turn, v: Visit, step: Step) {
    && v.offset < |b.log|
    && HandlesPayload(a.db, b.log[v.offset].value, policy, turn.env, step.report, b.db)
    && (!step.report.error ==> Recorded(b.db.processed, b.log[v.offset]))
    && (step.failure.None? <==> !step.report.error && turn.commit.NoFault?)
    && (step.failure.Some? ==>
          step.failure.value == if step.report.error then Stopped(v.offset, step.report.outcome) else CommitFailed(v.offset))
    && b.committed == if !step.report.error && !turn.commit.Fails? then a.committed[v.partition := v.offset + 1]
                      else a.committed
  }

  /**
   * A turn took a to b: it handed out the next record of an assigned partition, and only that, which was processed;
   * or there was none to hand out, and nothing happened.
   */
  ghost predicate TurnGave(a: Snapshot, b: Snapshot, policy: RetryPolicy, turn: Turn, step: Step) {
    && b.log == a.log + turn.arrived
    && (step.visit.Some? ==> HandedOut(a, b.log, turn, step.visit.value) && Processed(a, b, policy, turn, step.visit.value, step))
    && (step.visit.None? ==>
          (forall v :: !HandedOut(a, b.log, turn, v)) && step.failure.None? && b.db == a.db && b.committed == a.committed)
    && (step.failure.None? ==>
          && b.positions.Keys == turn.assignment
          && forall p :: p in turn.assignment ==>
               b.positions[p] == if step.visit.Some? && step.visit.value.partition == p then step.visit.value.offset + 1
                                 else ResumeAt(a, p))
  }

  /** No position lies before the committed offset of its partition. */
  ghost predicate Ahead(committed: map<P.Partition, nat>, positions: map<P.Partition, nat>) {
    forall p :: p in positions ==> P.CommittedOffset(committed, p) <= positions[p]
  }

  /** Committed offsets only go up. */
  ghost predicate GoesUp(before: map<P.Partition, nat>, after: map<P.Partition, nat>) {
    forall p :: p in before ==> p in after && before[p] <= after[p]
  }

  lemma TurnGoesUp(a: Snapshot, b: Snapshot, policy: RetryPolicy, turn: Turn, step: Step)
    requires TurnGave(a, b, policy, turn, step) && Ahead(a.committed, a.positions)
    ensures GoesUp(a.committed, b.committed) && (step.failure.None? ==> Ahead(b.committed, b.positions))
  {
    hide HandlesPayload, Recorded;
  }

  lemma FetchedIsHandedOut(a: Snapshot, log: seq<P.Record>, turn: Turn, offset: nat)
    ensures var positions := Reassign(a.positions, a.committed, turn.assignment);
            && (Fetchable(log, positions, offset) && !turn.closed && turn.fetched == Some(offset) ==>
                  offset < |log| && HandedOut(a, log, turn, Visit(log[offset].partition, offset)))
            && (!(Fetchable(log, positions, offset) && !turn.closed && turn.fetched == Some(offset)) ==>
                  forall p :: !HandedOut(a, log, turn, Visit(p, offset)))
            && positions.Keys == turn.assignment
            && forall p :: p in turn.assignment ==> positions[p] == ResumeAt(a, p)
  {
  }

  /** Fetch at most one record of the partitions assigned, and process it. */
  method TakeTurn(store: Store, broker: Broker, policy: RetryPolicy, before: map<P.Partition, nat>, turn: Turn)
    returns (positions: map<P.Partition, nat>, failure: Option<Failure>, ghost step: Step)
    requires SafeOffsets(store.Contents(), broker.log, broker.committed)
    requires SafeOffsets(store.Contents(), broker.log, before)
    modifies store, broker
    ensures SafeOffsets(store.Contents(), broker.log, broker.committed)
    ensures SafeOffsets(store.Contents(), broker.log, positions)
    ensures Advances(old(store.Contents()), store.Contents())
    ensures failure == step.failure
    ensures TurnGave(Snapshot(old(store.Contents()), old(broker.log), old(broker.committed), before),
                     Snapshot(store.Contents(), broker.log, broker.committed, positions), policy, turn, step)
  {
    hide SafeOffsets, Advances, Fetchable, Recorded, Reassign, HandlesPayload, P.CommittedOffset, ResumeAt, HandedOut;
    ghost var a := Snapshot(store.Contents(), broker.log, broker.committed, before);
    AdvancesReflexive(a.db);
    broker.log := broker.log + turn.arrived;
    ReassignIsSafe(a.db, a.log, before, a.committed, turn.assignment, broker.log);
    positions, failure, step := Reassign(before, broker.committed, turn.assignment), None, Step(None, NO_REPORT, None);
    NothingFetched(a, broker.log, turn);
    if turn.closed || turn.fetched.None? || !Fetchable(broker.log, positions, turn.fetched.value) {
      return;
    }
    var offset := turn.fetched.value;
    InRange(broker.log, positions, offset);
    FetchedIsHandedOut(a, broker.log, turn, offset);
    ghost var v := Visit(broker.log[offset].partition, offset);
    ghost var report;
    failure, report := ProcessRecord(store, broker, policy, offset, turn.env, turn.commit);
    step := Step(Some(v), report, failure);
    SafeStays(a.db, store.Contents(), broker.log, positions);
    SafeStays(a.db, store.Contents(), broker.log, a.committed);
    if !report.error {
      PassRecorded(store.Contents(), broker.log, positions, a.committed, offset);
      PassRecorded(store.Contents(), broker.log, positions, positions, offset);
    }
    if failure.None? {
      positions := positions[broker.log[offset].partition := offset + 1];
    }
  }

  /** Stands where no record was handled. */
  const NO_REPORT := Report(OutcomeMalformed, true, 0, [])

  lemma NothingFetched(a: Snapshot, log: seq<P.Record>, turn: Turn)
    ensures var positions := Reassign(a.positions, a.committed, turn.assignment);
            && positions.Keys == turn.assignment
            && (forall p :: p in turn.assignment ==> positions[p] == ResumeAt(a, p))
            && (turn.closed || turn.fetched.None? || !Fetchable(log, positions, turn.fetched.value) ==>
                  forall v :: !HandedOut(a, log, turn, v))
  {
    if turn.fetched.Some? {
      FetchedIsHandedOut(a, log, turn, turn.fetched.value);
    }
    hide Fetchable, P.IsNext, Reassign;
    forall v | turn.closed || turn.fetched.None? || !Fetchable(log, Reassign(a.positions, a.committed, turn.assignment), turn.fetched.value)
      ensures !HandedOut(a, log, turn, v)
    {
      assert v == Visit(v.partition, v.offset);
    }
  }

  // ----- All turns -----

  /** The turns one after another, each with what came of it. */
  ghost predicate TurnsGave(trace: seq<Snapshot>, policy: RetryPolicy, turns: seq<Turn>, steps: seq<Step>) {
    && |trace| == |steps| + 1 && |steps| <= |turns|
    && forall i :: 0 <= i < |steps| ==> TurnGave(trace[i], trace[i + 1], policy, turns[i], steps[i])
  }

  /** The consumer does not go on after this turn. */
  predicate LastTurn(turn: Turn, step: Step) {
    turn.closed || turn.contextEnded || step.failure.Some?
  }

  /**
   * Consumes until the context ends, the client closes, a record cannot be handled, or the turns are used up. Turn
   * by turn the next record of an assigned partition is handled and its offset committed; the first that the handler
   * rejects or whose commit fails stops the consumer. However attempts and commits fail and partitions come and go,
   * committed offsets only go up and have only processed records below them, so starting again from there loses
   * nothing.
   */
  method Run(store: Store, broker: Broker, cfg: Config, turns: seq<Turn>)
    returns (exit: Exit, ghost trace: seq<Snapshot>, ghost steps: seq<Step>)
    requires SafeOffsets(store.Contents(), broker.log, broker.committed)
    modifies store, broker
    ensures SafeOffsets(store.Contents(), broker.log, broker.committed)
    ensures old(broker.log) <= broker.log
    ensures Advances(old(store.Contents()), store.Contents())
    ensures GoesUp(old(broker.committed), broker.committed)
    ensures exit.BadConfig? <==> !ValidConfig(cfg)
    ensures exit.BadConfig? ==> steps == []
    ensures TurnsGave(trace, cfg.retry, turns, steps)
    ensures trace[0] == Snapshot(old(store.Contents()), old(broker.log), old(broker.committed), map[])
    ensures var end := trace[|steps|];
            end.db == store.Contents() && end.log == broker.log && end.committed == broker.committed
    ensures forall i :: 0 <= i < |steps| - 1 ==> !LastTurn(turns[i], steps[i])
    ensures !exit.BadConfig? && |steps| < |turns| ==> steps != [] && LastTurn(turns[|steps| - 1], steps[|steps| - 1])
    ensures forall failure :: exit == Failed(failure) <==>
              steps != [] && steps[|steps| - 1].failure == Some(failure) && !turns[|steps| - 1].contextEnded
    ensures exit.Failed? ==>
              var o := exit.failure.offset;
              && o < |broker.log|
              && (Recorded(store.Contents().processed, broker.log[o])
                  || P.CommittedOffset(broker.committed, broker.log[o].partition) <= o)
  {
    hide SafeOffsets, Advances, Recorded, Decode, ValidConfig, P.CommittedOffset, TurnGave, Ahead, GoesUp;
    var positions: map<P.Partition, nat> := map[];
    trace, steps := [Snapshot(store.Contents(), broker.log, broker.committed, positions)], [];
    NothingDone(trace[0]);
    if !ValidConfig(cfg) {
      return BadConfig, trace, steps;
    }
    for i := 0 to |turns|
      invariant SafeOffsets(store.Contents(), broker.log, broker.committed)
      invariant SafeOffsets(store.Contents(), broker.log, positions)
      invariant old(broker.log) <= broker.log
      invariant Advances(old(store.Contents()), store.Contents())
      invariant GoesUp(old(broker.committed), broker.committed) && Ahead(broker.committed, positions)
      invariant |steps| == i && TurnsGave(trace, cfg.retry, turns, steps)
      invariant trace[0] == Snapshot(old(store.Contents()), old(broker.log), old(broker.committed), map[])
      invariant trace[i] == Snapshot(store.Contents(), broker.log, broker.committed, positions)
      invariant forall j :: 0 <= j < i ==> !LastTurn(turns[j], steps[j])
    {
      ghost var a := trace[i];
      var failure;
      ghost var step;
      positions, failure, step := TakeTurn(store, broker, cfg.retry, positions, turns[i]);
      ghost var b := Snapshot(store.Contents(), broker.log, broker.committed, positions);
      AdvancesTransitive(trace[0].db, a.db, b.db);
      TurnGoesUp(a, b, cfg.retry, turns[i], step);
      GoesUpTransitive(trace[0].committed, a.committed, b.committed);
      AfterTurn(a, b, cfg.retry, turns[i], step);
      trace, steps := trace + [b], steps + [step];
      if failure.Some? {
        NotPassed(store.Contents(), broker.log, broker.committed, failure.value.offset);
        return if turns[i].contextEnded then Finished else Failed(failure.value), trace, steps;
      }
      if turns[i].closed || turns[i].contextEnded {
        return Finished, trace, steps;
      }
    }
    return Finished, trace, steps;
  }

  lemma NothingDone(a: Snapshot)
    requires a.positions == map[]
    ensures Advances(a.db, a.db) && GoesUp(a.committed, a.committed) && Ahead(a.committed, a.positions)
    ensures SafeOffsets(a.db, a.log, a.positions)
  {
  }

  lemma GoesUpTransitive(a: map<P.Partition, nat>, b: map<P.Partition, nat>, c: map<P.Partition, nat>)
    requires GoesUp(a, b) && GoesUp(b, c)
    ensures GoesUp(a, c)
  {
  }

  lemma AfterTurn(a: Snapshot, b: Snapshot, policy: RetryPolicy, turn: Turn, step: Step)
    requires TurnGave(a, b, policy, turn, step)
    ensures a.log <= b.log
    ensures step.failure.Some? ==> step.visit.Some? && step.failure.value.offset == step.visit.value.offset < |b.log|
  {
    hide HandlesPayload, Recorded, HandedOut;
  }

  lemma NotPassed(db: Tables, log: seq<P.Record>, offsets: map<P.Partition, nat>, i: nat)
    requires SafeOffsets(db, log, offsets) && i < |log|
    ensures Recorded(db.processed, log[i]) || P.CommittedOffset(offsets, log[i].partition) <= i
  {
  }

  lemma InRange(log: seq<P.Record>, positions: map<P.Partition, nat>, offset: nat)
    requires Fetchable(log, positions, offset)
    ensures offset < |log| && log[offset].partition in positions
  {
  }
}
