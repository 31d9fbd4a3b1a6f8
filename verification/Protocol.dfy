/**
 * The whole system as a transition system: shipment service, any number of relays and consumers, the
 * replay tool, the database and the topic. Any process may stop between any two steps.
 *
 * The topic is one sequence in global append order. A record's offset is its index there, which orders the
 * records of each partition exactly as Kafka's per-partition offsets do.
 */
module Protocol {
  import opened Wrappers
  import opened Domain
  import opened Json
  import opened Events
  import opened Database
  import opened Messages
  import opened ShipmentApi
  import T = DispatchTxns

  type RelayId = nat
  type ConsumerId = nat
  type Partition = nat

  type PartitionCount = n: nat | n > 0 witness 1

  /** Partitions of the topic. The number is left open: whatever is proved holds for every one. */
  const PARTITIONS: PartitionCount

  datatype Record = Record(partition: Partition, key: ShipmentId, value: Text)

  /**
   * An open ProcessPending transaction: the rows it holds locked, how many of them the broker has
   * acknowledged, and the error at which publishing stopped.
   */
  datatype Poll = Poll(batch: seq<EventId>, acked: nat, failed: Option<string>)

  datatype Work =
    | Idle
    | Handling(offset: nat, req: DispatchRequest, call: Option<T.TxnId>)
    | Handled(offset: nat)

  /** positions says, for each assigned partition, from where the next record is fetched. */
  datatype Consumer = Consumer(positions: map<Partition, nat>, work: Work)

  /** What happened so far, event by event; no step depends on it. */
  datatype Tally = Tally(
    marks: multiset<EventId>,     // times a commit marked the row published
    tries: multiset<EventId>,     // committed polls that tried the row
    lostAcks: multiset<EventId>,  // acknowledged publishes whose transaction rolled back
    unacked: multiset<EventId>,   // publishes that failed although the broker wrote the record
    replays: multiset<EventId>,
    foreign: multiset<EventId>)

  datatype State = State(
    txns: T.State,                       // committed tables and open RecordDispatch transactions
    polls: map<RelayId, Poll>,
    log: seq<Record>,
    committed: map<Partition, nat>,
    consumers: map<ConsumerId, Consumer>,
    tally: Tally)
  {
    function Db(): Tables {
      txns.db
    }
  }

  const INIT := State(
    T.State(EMPTY, map[], 0, map[], []), map[], [], map[], map[],
    Tally(multiset{}, multiset{}, multiset{}, multiset{}, multiset{}, multiset{}))

  datatype PublishOutcome = Acked | NotWritten | WrittenUnacked

  /** committed/durable say whether a commit took effect; the caller may be told otherwise. */
  datatype Step =
    | Create(call: CreateCall, durable: bool)
    | Claim(r: RelayId, limit: nat, batch: seq<EventId>)
    | Publish(r: RelayId, outcome: PublishOutcome, partition: Partition, error: string)
    | Finish(r: RelayId, now: int)
    | Rollback(r: RelayId)
    | Replay(e: EventId, partition: Partition, written: bool)
    | Foreign(record: Record)
    | Assign(c: ConsumerId, partition: Partition)
    | Revoke(c: ConsumerId, partition: Partition)
    | PollRecord(c: ConsumerId, offset: nat)
    | CallStore(c: ConsumerId)
    | Statement(step: T.Step)
    | CallSucceeded(c: ConsumerId)
    | CallFailed(c: ConsumerId)
    | CommitOffset(c: ConsumerId, durable: bool, reported: bool)
    | Stop(c: ConsumerId)

  // ----- Helpers -----

  function Locked(polls: map<RelayId, Poll>): set<EventId> {
    set r, e | r in polls && e in polls[r].batch :: e
  }

  function AckedPart(p: Poll): seq<EventId> {
    if p.acked <= |p.batch| then p.batch[..p.acked] else p.batch
  }

  /** Publishing the batch is over: everything was acknowledged, or something failed. */
  predicate Published(p: Poll) {
    p.failed.Some? || p.acked == |p.batch|
  }

  /** The result publishBatch returned. */
  function ResultOf(p: Poll): PublishResult {
    PublishResult(AckedPart(p),
                  if p.failed.Some? && p.acked < |p.batch| then p.batch[p.acked] else "",
                  if p.failed.Some? then p.failed.value else "")
  }

  function CommittedOffset(committed: map<Partition, nat>, p: Partition): nat {
    if p in committed then committed[p] else 0
  }

  /** offset is the first record of partition p at or after from. */
  predicate IsNext(log: seq<Record>, p: Partition, from: nat, offset: nat) {
    && from <= offset < |log| && log[offset].partition == p
    && forall i :: from <= i < offset ==> log[i].partition != p
  }

  /** What a record asks for, if it carries an event. */
  function RequestIn(r: Record): Option<DispatchRequest> {
    match Decode(r.value)
    case Ok(e) => Some(RequestOf(e))
    case Err(_) => None
  }

  function EventIn(r: Record): Option<EventId> {
    if RequestIn(r).Some? then Some(RequestIn(r).value.eventId) else None
  }

  function IdsIn(r: Record): multiset<EventId> {
    if EventIn(r).Some? then multiset{EventIn(r).value} else multiset{}
  }

  function RecordFor(row: OutboxRow, p: Partition): Record
    requires MessageFor(row).Ok?
  {
    var m := MessageFor(row).value;
    Record(p, m.key, m.value)
  }

  function WithDb(s: State, db: Tables): State
    requires T.Enabled(s.txns, T.External(db.shipments, db.outbox))
  {
    s.(txns := T.Apply(s.txns, T.External(db.shipments, db.outbox)))
  }

  // ----- Steps -----

  /** Identifiers are fresh and not empty. */
  predicate FreshCall(db: Tables, c: CreateCall) {
    && c.shipmentId != "" && c.shipmentId !in db.shipments
    && c.eventId != "" && c.eventId !in db.outbox
  }

  function AfterCreate(db: Tables, c: CreateCall): (r: Tables)
    requires Prepare(c).Ok? && FreshCall(db, c)
    ensures CreateTx(db, Prepare(c).value.shipment, Prepare(c).value.event) == Ok(r)
    ensures T.Grows(db.shipments, r.shipments)
  {
    PreparedIsValid(c);
    CreateTx(db, Prepare(c).value.shipment, Prepare(c).value.event).value
  }

  predicate CanClaim(s: State, r: RelayId, limit: nat, batch: seq<EventId>) {
    r !in s.polls && batch != [] && IsClaim(s.Db().outbox, Locked(s.polls), limit, batch)
  }

  predicate CanPublish(s: State, r: RelayId, p: Partition) {
    && r in s.polls && p < PARTITIONS && s.polls[r].failed.None? && s.polls[r].acked < |s.polls[r].batch|
    && s.polls[r].batch[s.polls[r].acked] in s.Db().outbox
  }

  predicate CanReplay(s: State, e: EventId, p: Partition) {
    e in s.Db().outbox && MessageFor(s.Db().outbox[e]).Ok? && p < PARTITIONS
  }

  predicate CanAssign(s: State, c: ConsumerId, p: Partition) {
    p < PARTITIONS && (c in s.consumers ==> s.consumers[c].work.Idle?)
  }

  /** Records are fetched one at a time, and only when the last one is done with. */
  predicate CanPoll(s: State, c: ConsumerId, offset: nat) {
    && c in s.consumers && s.consumers[c].work.Idle? && offset < |s.log|
    && var p := s.log[offset].partition;
    && p in s.consumers[c].positions && IsNext(s.log, p, s.consumers[c].positions[p], offset)
  }

  predicate InCall(s: State, c: ConsumerId) {
    c in s.consumers && s.consumers[c].work.Handling? && s.consumers[c].work.call.Some?
  }

  predicate CanSucceed(s: State, c: ConsumerId) {
    && InCall(s, c)
    && var x := s.consumers[c].work.call.value;
    && x in s.txns.outcomes && (s.txns.outcomes[x].result.Created? || s.txns.outcomes[x].result.Duplicate?)
  }

  predicate CanCommitOffset(s: State, c: ConsumerId) {
    c in s.consumers && s.consumers[c].work.Handled? && s.consumers[c].work.offset < |s.log|
  }

  predicate Enabled(s: State, step: Step) {
    match step
    case Create(call, _) => Prepare(call).Ok? && FreshCall(s.Db(), call)
    case Claim(r, limit, batch) => CanClaim(s, r, limit, batch)
    case Publish(r, _, p, _) => CanPublish(s, r, p)
    case Finish(r, _) => r in s.polls && Published(s.polls[r])
    case Rollback(r) => r in s.polls
    case Replay(e, p, _) => CanReplay(s, e, p)
    case Foreign(record) => record.partition < PARTITIONS
    case Assign(c, p) => CanAssign(s, c, p)
    case Revoke(c, p) => c in s.consumers && s.consumers[c].work.Idle?
    case PollRecord(c, offset) => CanPoll(s, c, offset)
    case CallStore(c) => c in s.consumers && s.consumers[c].work.Handling? && s.consumers[c].work.call.None?
    case Statement(t) => CanStep(s, t)
    case CallSucceeded(c) => CanSucceed(s, c)
    case CallFailed(c) => InCall(s, c)
    case CommitOffset(c, _, _) => CanCommitOffset(s, c)
    case Stop(c) => c in s.consumers
  }

  function ApplyCreate(s: State, call: CreateCall, durable: bool): State
    requires Prepare(call).Ok? && FreshCall(s.Db(), call)
  {
    if durable then WithDb(s, AfterCreate(s.Db(), call)) else s
  }

  function ApplyPublish(s: State, r: RelayId, outcome: PublishOutcome, p: Partition, error: string): State
    requires CanPublish(s, r, p)
  {
    var poll := s.polls[r];
    var e := poll.batch[poll.acked];
    var row := s.Db().outbox[e];
    if MessageFor(row).Err? then s.(polls := s.polls[r := poll.(failed := Some(error))])
    else match outcome
      case Acked =>
        s.(log := s.log + [RecordFor(row, p)], polls := s.polls[r := poll.(acked := poll.acked + 1)])
      case NotWritten =>
        s.(polls := s.polls[r := poll.(failed := Some(error))])
      case WrittenUnacked =>
        s.(log := s.log + [RecordFor(row, p)], polls := s.polls[r := poll.(failed := Some(error))],
           tally := s.tally.(unacked := s.tally.unacked + multiset{e}))
  }

  /** The events a finished poll tried: those acknowledged and the one that failed. */
  function Tried(result: PublishResult): multiset<EventId> {
    multiset(result.published) + if result.failed != "" then multiset{result.failed} else multiset{}
  }

  function ApplyFinish(s: State, r: RelayId, now: int): State
    requires r in s.polls
  {
    var result := ResultOf(s.polls[r]);
    WithDb(s, MarkBatch(s.Db(), result, now)).(
      polls := s.polls - {r},
      tally := s.tally.(marks := s.tally.marks + multiset(result.published),
                        tries := s.tally.tries + Tried(result)))
  }

  function ApplyRollback(s: State, r: RelayId): State
    requires r in s.polls
  {
    s.(polls := s.polls - {r},
       tally := s.tally.(lostAcks := s.tally.lostAcks + multiset(AckedPart(s.polls[r]))))
  }

  function ApplyReplay(s: State, e: EventId, p: Partition, written: bool): State
    requires CanReplay(s, e, p)
  {
    var r := RecordFor(s.Db().outbox[e], p);
    if written then s.(log := s.log + [r], tally := s.tally.(replays := s.tally.replays + IdsIn(r))) else s
  }

  function ApplyForeign(s: State, r: Record): State {
    s.(log := s.log + [r], tally := s.tally.(foreign := s.tally.foreign + IdsIn(r)))
  }

  function WithConsumer(s: State, c: ConsumerId, consumer: Consumer): State {
    s.(consumers := s.consumers[c := consumer])
  }

  function ApplyAssign(s: State, c: ConsumerId, p: Partition): State {
    var positions := if c in s.consumers then s.consumers[c].positions else map[];
    WithConsumer(s, c, Consumer(positions[p := CommittedOffset(s.committed, p)], Idle))
  }

  function ApplyRevoke(s: State, c: ConsumerId, p: Partition): State
    requires c in s.consumers
  {
    WithConsumer(s, c, s.consumers[c].(positions := s.consumers[c].positions - {p}))
  }

  /** A record that does not decode stops the process; one that does is handled. */
  function ApplyPollRecord(s: State, c: ConsumerId, offset: nat): State
    requires CanPoll(s, c, offset)
  {
    match RequestIn(s.log[offset])
    case None => ApplyStop(s, c)
    case Some(req) =>
      WithConsumer(s, c, Consumer(s.consumers[c].positions[s.log[offset].partition := offset + 1],
                                  Handling(offset, req, None)))
  }

  function ApplyCallStore(s: State, c: ConsumerId): State
    requires c in s.consumers && s.consumers[c].work.Handling?
  {
    var work := s.consumers[c].work;
    WithConsumer(s, c, s.consumers[c].(work := work.(call := Some(s.txns.begun)))).(
      txns := T.Apply(s.txns, T.Begin(work.req)))
  }

  /** Step t of the open RecordDispatch transactions. */
  predicate CanStep(s: State, t: T.Step) {
    !t.Begin? && !t.External? && T.Enabled(s.txns, t) && (t.InsertDispatch? ==> t.id !in DispatchIds(s.Db()))
  }

  function ApplyStatement(s: State, t: T.Step): State
    requires CanStep(s, t)
  {
    s.(txns := T.Apply(s.txns, t))
  }

  function ApplyCallSucceeded(s: State, c: ConsumerId): State
    requires InCall(s, c)
  {
    WithConsumer(s, c, s.consumers[c].(work := Handled(s.consumers[c].work.offset)))
  }

  /** The consumer saw an error: it will try again, or Stop. */
  function ApplyCallFailed(s: State, c: ConsumerId): State
    requires InCall(s, c)
  {
    WithConsumer(s, c, s.consumers[c].(work := s.consumers[c].work.(call := None)))
  }

  /** An offset commit that is not reported as done stops the process. */
  function ApplyCommitOffset(s: State, c: ConsumerId, durable: bool, reported: bool): State
    requires CanCommitOffset(s, c)
  {
    var offset := s.consumers[c].work.offset;
    var moved := if durable && reported then WithConsumer(s, c, s.consumers[c].(work := Idle)) else ApplyStop(s, c);
    if durable then moved.(committed := s.committed[s.log[offset].partition := offset + 1]) else moved
  }

  function ApplyStop(s: State, c: ConsumerId): State {
    s.(consumers := s.consumers - {c})
  }

  function Apply(s: State, step: Step): State
    requires Enabled(s, step)
  {
    match step
    case Create(call, durable) => ApplyCreate(s, call, durable)
    case Claim(r, _, batch) => s.(polls := s.polls[r := Poll(batch, 0, None)])
    case Publish(r, outcome, p, error) => ApplyPublish(s, r, outcome, p, error)
    case Finish(r, now) => ApplyFinish(s, r, now)
    case Rollback(r) => ApplyRollback(s, r)
    case Replay(e, p, written) => ApplyReplay(s, e, p, written)
    case Foreign(record) => ApplyForeign(s, record)
    case Assign(c, p) => ApplyAssign(s, c, p)
    case Revoke(c, p) => ApplyRevoke(s, c, p)
    case PollRecord(c, offset) => ApplyPollRecord(s, c, offset)
    case CallStore(c) => ApplyCallStore(s, c)
    case Statement(t) => ApplyStatement(s, t)
    case CallSucceeded(c) => ApplyCallSucceeded(s, c)
    case CallFailed(c) => ApplyCallFailed(s, c)
    case CommitOffset(c, durable, reported) => ApplyCommitOffset(s, c, durable, reported)
    case Stop(c) => ApplyStop(s, c)
  }

  // ----- Runs -----

  predicate IsRun(s: State, steps: seq<Step>)
    decreases |steps|
  {
    steps == [] || (Enabled(s, steps[0]) && IsRun(Apply(s, steps[0]), steps[1..]))
  }

  function Final(s: State, steps: seq<Step>): State
    requires IsRun(s, steps)
    decreases |steps|
  {
    if steps == [] then s else Final(Apply(s, steps[0]), steps[1..])
  }

  lemma Prepend(s: State, step: Step, rest: seq<Step>)
    requires Enabled(s, step) && IsRun(Apply(s, step), rest)
    ensures IsRun(s, [step] + rest) && Final(s, [step] + rest) == Final(Apply(s, step), rest)
  {
    hide Enabled, Apply;
    assert ([step] + rest)[1..] == rest;
  }

  lemma {:induction false} Concatenate(s: State, a: seq<Step>, b: seq<Step>)
    requires IsRun(s, a) && IsRun(Final(s, a), b)
    ensures IsRun(s, a + b) && Final(s, a + b) == Final(Final(s, a), b)
    decreases |a|
  {
    hide Enabled, Apply;
    if a == [] {
      assert a + b == b;
    } else {
      assert a + b == [a[0]] + (a[1..] + b);
      Concatenate(Apply(s, a[0]), a[1..], b);
      Prepend(s, a[0], a[1..] + b);
    }
  }

  /** Nobody but the relays and the replay tool writes to the topic. */
  predicate OwnProducers(steps: seq<Step>) {
    forall i :: 0 <= i < |steps| ==> !steps[i].Foreign?
  }
}
