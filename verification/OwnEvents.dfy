/**
 * Runs in which only the relays and the replay tool write to the topic: what the rows, the records and the
 * dispatches say about each other.
 */
module OwnEvents {
  import opened Wrappers
  import opened Domain
  import opened Json
  import opened Events
  import opened Database
  import opened Messages
  import opened ShipmentApi
  import opened Protocol
  import opened NoLoss
  import T = DispatchTxns

  /** The dispatch an outbox row stands for. */
  function Due(db: Tables, e: EventId): DispatchRequest
    requires e in db.outbox && db.outbox[e].shipmentId in db.shipments
  {
    DispatchRequest(e, db.outbox[e].shipmentId, db.shipments[db.outbox[e].shipmentId].price)
  }

  predicate Says(payload: Value, req: DispatchRequest) {
    Decode(IsJson(payload)).Ok? && RequestOf(Decode(IsJson(payload)).value) == req
  }

  ghost predicate RowOk(db: Tables, e: EventId)
    requires e in db.outbox
  {
    && e != "" && db.outbox[e].eventType == TYPE_SHIPMENT_CREATED
    && db.outbox[e].shipmentId in db.shipments
    && ValidMoney(db.shipments[db.outbox[e].shipmentId].price)
    && Says(db.outbox[e].payload, Due(db, e))
  }

  /** Every row is publishable, and shipments and outbox rows correspond one to one. */
  ghost predicate OutboxOk(db: Tables) {
    && (forall e :: e in db.outbox ==> RowOk(db, e))
    && (forall e, f :: e in db.outbox && f in db.outbox && e != f ==> db.outbox[e].shipmentId != db.outbox[f].shipmentId)
    && (forall s :: s in db.shipments ==> exists e :: e in db.outbox && db.outbox[e].shipmentId == s)
  }

  ghost predicate ReqOk(db: Tables, req: DispatchRequest) {
    && req.eventId in db.outbox
    && db.outbox[req.eventId].shipmentId in db.shipments
    && req == Due(db, req.eventId)
  }

  ghost predicate LogOk(db: Tables, log: seq<Record>) {
    forall i :: 0 <= i < |log| ==> RequestIn(log[i]).Some? && ReqOk(db, RequestIn(log[i]).value)
  }

  /** Each dispatch is of the shipment's own event, at the stored price. */
  ghost predicate DispatchesOk(db: Tables) {
    forall s :: s in db.dispatches ==>
      && s in db.shipments
      && db.dispatches[s].eventId in db.outbox
      && db.outbox[db.dispatches[s].eventId].shipmentId == s
      && db.dispatches[s].money == db.shipments[s].price
  }

  ghost predicate Logged(log: seq<Record>, e: EventId) {
    exists i :: 0 <= i < |log| && EventIn(log[i]) == Some(e)
  }

  ghost predicate TxnsOk(t: T.State, log: seq<Record>) {
    && (forall x :: x in t.open ==> ReqOk(t.db, t.open[x].req) && Logged(log, t.open[x].req.eventId))
    && (forall e :: e in t.db.processed ==> Logged(log, e))
    && (forall x :: x in t.outcomes ==> Effective(t.outcomes[x].result))
  }

  ghost predicate Owned(s: State) {
    && Safe(s)
    && OutboxOk(s.Db())
    && DispatchesOk(s.Db())
    && LogOk(s.Db(), s.log)
    && TxnsOk(s.txns, s.log)
  }

  /** Rows are never removed, and what identifies them never changes. */
  ghost predicate Keeps(db: Tables, db': Tables) {
    && T.Grows(db.shipments, db'.shipments)
    && (forall e :: e in db.outbox ==>
          && e in db'.outbox
          && db'.outbox[e].shipmentId == db.outbox[e].shipmentId
          && db'.outbox[e].eventType == db.outbox[e].eventType
          && db'.outbox[e].payload == db.outbox[e].payload
          && db'.outbox[e].createdAt == db.outbox[e].createdAt
          && (db.outbox[e].publishedAt.Some? ==> db'.outbox[e].publishedAt.Some?))
    && db.processed <= db'.processed
    && (forall s :: s in db.dispatches ==> s in db'.dispatches && db'.dispatches[s] == db.dispatches[s])
  }

  lemma ReqStays(db: Tables, db': Tables, req: DispatchRequest)
    requires Keeps(db, db') && ReqOk(db, req)
    ensures ReqOk(db', req)
  {
  }

  lemma LogStays(db: Tables, db': Tables, log: seq<Record>)
    requires Keeps(db, db') && LogOk(db, log)
    ensures LogOk(db', log)
  {
    hide RequestIn;
    forall i | 0 <= i < |log|
      ensures RequestIn(log[i]).Some? && ReqOk(db', RequestIn(log[i]).value)
    {
      ReqStays(db, db', RequestIn(log[i]).value);
    }
  }

  lemma LoggedStays(log: seq<Record>, log': seq<Record>, e: EventId)
    requires Logged(log, e) && log <= log'
    ensures Logged(log', e)
  {
    hide EventIn;
    var i :| 0 <= i < |log| && EventIn(log[i]) == Some(e);
    assert log'[i] == log[i];
  }

  // ----- Creating shipments -----

  lemma CreateKeeps(db: Tables, call: CreateCall)
    requires Prepare(call).Ok? && FreshCall(db, call)
    ensures var db' := AfterCreate(db, call);
            && Keeps(db, db')
            && db'.shipments == db.shipments[call.shipmentId :=
                 ShipmentRow(call.weightGrams, Prepare(call).value.shipment.price, call.now)]
            && ValidMoney(Prepare(call).value.shipment.price)
            && db'.outbox.Keys == db.outbox.Keys + {call.eventId}
            && db'.outbox[call.eventId].shipmentId == call.shipmentId
            && db'.outbox[call.eventId].eventType == TYPE_SHIPMENT_CREATED
            && db'.outbox[call.eventId].createdAt == call.now
            && db'.outbox[call.eventId].publishedAt.None?
            && db'.outbox[call.eventId].attempts == 0 && db'.outbox[call.eventId].lastError.None?
            && IsJson(db'.outbox[call.eventId].payload) == Prepare(call).value.event.payload
            && db'.processed == db.processed && db'.dispatches == db.dispatches
            && (forall e :: e in db.outbox ==> db'.outbox[e] == db.outbox[e])
  {
    hide Prepare;
    PreparedIsValid(call);
  }

  lemma CreatedRowOk(db: Tables, call: CreateCall)
    requires Prepare(call).Ok? && FreshCall(db, call)
    ensures call.eventId in AfterCreate(db, call).outbox && RowOk(AfterCreate(db, call), call.eventId)
  {
    hide Prepare, Decode, AfterCreate;
    CreateKeeps(db, call);
    StoredPayloadDecodes(call);
  }

  lemma RowStays(db: Tables, db': Tables, e: EventId)
    requires e in db.outbox && RowOk(db, e) && T.Grows(db.shipments, db'.shipments) && e in db'.outbox
    requires db'.outbox[e].shipmentId == db.outbox[e].shipmentId && db'.outbox[e].eventType == db.outbox[e].eventType
    requires db'.outbox[e].payload == db.outbox[e].payload
    ensures RowOk(db', e) && db.outbox[e].shipmentId in db.shipments
  {
    hide Says, ValidMoney;
  }

  lemma CreateKeepsOutboxOk(db: Tables, call: CreateCall)
    requires Prepare(call).Ok? && FreshCall(db, call) && OutboxOk(db)
    ensures OutboxOk(AfterCreate(db, call))
  {
    hide Prepare, RowOk, AfterCreate, ValidMoney;
    CreateKeeps(db, call);
    CreatedRowOk(db, call);
    var db' := AfterCreate(db, call);
    forall e | e in db'.outbox
      ensures RowOk(db', e) && (e != call.eventId ==> db.outbox[e].shipmentId in db.shipments)
    {
      if e != call.eventId {
        RowStays(db, db', e);
      }
    }
    forall s | s in db'.shipments
      ensures exists e :: e in db'.outbox && db'.outbox[e].shipmentId == s
    {
      if s == call.shipmentId {
        assert db'.outbox[call.eventId].shipmentId == s;
      } else {
        var e :| e in db.outbox && db.outbox[e].shipmentId == s;
        assert db'.outbox[e].shipmentId == s;
      }
    }
  }

  // ----- Marking -----

  lemma MarkKeeps(db: Tables, result: PublishResult, now: int)
    ensures var db' := MarkBatch(db, result, now);
            Keeps(db, db') && db'.outbox.Keys == db.outbox.Keys && db'.shipments == db.shipments
            && db'.processed == db.processed && db'.dispatches == db.dispatches
  {
  }

  lemma MarkKeepsOutboxOk(db: Tables, result: PublishResult, now: int)
    requires OutboxOk(db)
    ensures OutboxOk(MarkBatch(db, result, now))
  {
    hide RowOk, MarkBatch;
    var db' := MarkBatch(db, result, now);
    MarkKeeps(db, result, now);
    forall e | e in db'.outbox
      ensures RowOk(db', e)
    {
      RowStays(db, db', e);
    }
    forall s | s in db'.shipments
      ensures exists e :: e in db'.outbox && db'.outbox[e].shipmentId == s
    {
      var e :| e in db.outbox && db.outbox[e].shipmentId == s;
      assert db'.outbox[e].shipmentId == s;
    }
  }

  /** A change of shipments and outbox rows that keeps what is there. */
  lemma OwnedAfterExternal(s: State, db': Tables, s': State)
    requires Owned(s) && Safe(s')
    requires Keeps(s.Db(), db') && OutboxOk(db')
    requires db'.processed == s.Db().processed && db'.dispatches == s.Db().dispatches
    requires s'.txns == T.Apply(s.txns, T.External(db'.shipments, db'.outbox))
    requires s'.log == s.log
    ensures Owned(s')
  {
    hide RequestIn, EventIn, Safe, OutboxOk;
    assert s'.Db() == db';
    LogStays(s.Db(), db', s.log);
    forall x | x in s'.txns.open
      ensures ReqOk(db', s'.txns.open[x].req)
    {
      ReqStays(s.Db(), db', s.txns.open[x].req);
    }
  }

  lemma OwnedCreate(s: State, call: CreateCall, durable: bool)
    requires Owned(s) && Prepare(call).Ok? && FreshCall(s.Db(), call)
    ensures Owned(ApplyCreate(s, call, durable))
    ensures Keeps(s.Db(), ApplyCreate(s, call, durable).Db())
  {
    hide Prepare, RequestIn, EventIn, Safe, OutboxOk, DispatchesOk, LogOk, TxnsOk, AfterCreate, FreshCall;
    SafeCreate(s, call, durable);
    if durable {
      CreateKeeps(s.Db(), call);
      CreateKeepsOutboxOk(s.Db(), call);
      OwnedAfterExternal(s, AfterCreate(s.Db(), call), ApplyCreate(s, call, durable));
    }
  }

  lemma OwnedFinish(s: State, r: RelayId, now: int)
    requires Owned(s) && r in s.polls
    ensures Owned(ApplyFinish(s, r, now))
    ensures Keeps(s.Db(), ApplyFinish(s, r, now).Db())
  {
    hide RequestIn, EventIn, Safe, OutboxOk, DispatchesOk, LogOk, TxnsOk, MarkBatch, ResultOf;
    SafeFinish(s, r, now);
    var result := ResultOf(s.polls[r]);
    MarkKeeps(s.Db(), result, now);
    MarkKeepsOutboxOk(s.Db(), result, now);
    OwnedAfterExternal(s, MarkBatch(s.Db(), result, now), ApplyFinish(s, r, now));
  }

  // ----- Writing to the topic -----

  /** A row's record carries the row's own event, shipment and price. */
  lemma RecordOfRow(db: Tables, e: EventId, p: Partition)
    requires OutboxOk(db) && e in db.outbox
    ensures MessageFor(db.outbox[e]).Ok?
    ensures RequestIn(RecordFor(db.outbox[e], p)) == Some(Due(db, e))
    ensures ReqOk(db, Due(db, e))
    ensures EventIn(RecordFor(db.outbox[e], p)) == Some(e)
  {
    hide Decode;
    assert RowOk(db, e);
  }

  lemma OwnedAfterAppend(s: State, e: EventId, p: Partition, s': State)
    requires Owned(s) && Safe(s') && e in s.Db().outbox && MessageFor(s.Db().outbox[e]).Ok?
    requires s'.txns == s.txns && s'.log == s.log + [RecordFor(s.Db().outbox[e], p)]
    ensures Owned(s') && Logged(s'.log, e)
  {
    hide RequestIn, EventIn, Safe, OutboxOk, RecordFor, MessageFor;
    RecordOfRow(s.Db(), e, p);
    assert s'.log[|s.log|] == RecordFor(s.Db().outbox[e], p);
    forall f | Logged(s.log, f)
      ensures Logged(s'.log, f)
    {
      LoggedStays(s.log, s'.log, f);
    }
  }

  /** Steps that leave transactions and log alone. */
  lemma OwnedElsewhere(s: State, s': State)
    requires Owned(s) && Safe(s') && s'.txns == s.txns && s'.log == s.log
    ensures Owned(s')
  {
  }

  lemma OwnedPublish(s: State, r: RelayId, outcome: PublishOutcome, p: Partition, error: string)
    requires Owned(s) && CanPublish(s, r, p)
    ensures Owned(ApplyPublish(s, r, outcome, p, error))
  {
    hide RequestIn, EventIn, Safe, OutboxOk, DispatchesOk, LogOk, TxnsOk, RecordFor, MessageFor;
    SafePublish(s, r, outcome, p, error);
    var s' := ApplyPublish(s, r, outcome, p, error);
    var e := s.polls[r].batch[s.polls[r].acked];
    RecordOfRow(s.Db(), e, p);
    if outcome.NotWritten? {
      OwnedElsewhere(s, s');
    } else {
      OwnedAfterAppend(s, e, p, s');
    }
  }

  lemma OwnedReplay(s: State, e: EventId, p: Partition, written: bool)
    requires Owned(s) && CanReplay(s, e, p)
    ensures Owned(ApplyReplay(s, e, p, written))
  {
    hide RequestIn, EventIn, Safe, OutboxOk, DispatchesOk, LogOk, TxnsOk, RecordFor, MessageFor, IdsIn;
    SafeElsewhere(s, ApplyReplay(s, e, p, written));
    if written {
      OwnedAfterAppend(s, e, p, ApplyReplay(s, e, p, written));
    }
  }

  // ----- Calling the store -----

  lemma OwnedCallStore(s: State, c: ConsumerId)
    requires Owned(s) && c in s.consumers && s.consumers[c].work.Handling?
    ensures Owned(ApplyCallStore(s, c)) && ApplyCallStore(s, c).Db() == s.Db()
  {
    hide RequestIn, OutboxOk, TxnInv, BehindOk, DispatchesOk;
    SafeCallStore(s, c);
    assert ConsumerOk(s.txns, s.log, s.consumers[c]);
    var offset := s.consumers[c].work.offset;
    var req := s.consumers[c].work.req;
    assert RequestIn(s.log[offset]) == Some(req);
    assert EventIn(s.log[offset]) == Some(req.eventId);
  }

  /** The dispatch insert never finds the shipment taken or missing. */
  lemma DispatchInsertSucceeds(db: Tables, req: DispatchRequest)
    requires OutboxOk(db) && DispatchesOk(db) && Bijective(db) && ReqOk(db, req) && req.eventId !in db.processed
    ensures MoneyFits(req.money) && req.shipmentId !in db.dispatches && req.shipmentId in db.shipments
  {
    hide Says;
    assert RowOk(db, req.eventId);
  }

  /** A new dispatch of an event that is due. */
  lemma DispatchKeeps(db: Tables, req: DispatchRequest, id: DispatchId, now: int)
    requires OutboxOk(db) && DispatchesOk(db) && ReqOk(db, req) && req.shipmentId !in db.dispatches
    ensures MoneyFits(req.money)
    ensures var db' := db.(processed := db.processed + {req.eventId},
                           dispatches := db.dispatches[req.shipmentId := NewDispatchRow(req, id, now)]);
            DispatchesOk(db') && Keeps(db, db') && OutboxOk(db')
  {
    hide RowOk, NewDispatchRow;
    DueFits(db, req, id, now);
    var db' := db.(processed := db.processed + {req.eventId},
                   dispatches := db.dispatches[req.shipmentId := NewDispatchRow(req, id, now)]);
    forall e | e in db'.outbox
      ensures RowOk(db', e)
    {
      RowStays(db, db', e);
    }
  }

  /** What is due is stored as it is. */
  lemma DueFits(db: Tables, req: DispatchRequest, id: DispatchId, now: int)
    requires OutboxOk(db) && ReqOk(db, req)
    ensures MoneyFits(req.money) && NewDispatchRow(req, id, now) == DispatchRow(id, req.eventId, req.money, now)
  {
    hide Says;
    assert RowOk(db, req.eventId);
  }

  lemma OwnedInsertDispatch(s: State, x: T.TxnId, id: DispatchId, now: int)
    requires Owned(s) && CanStep(s, T.InsertDispatch(x, id, now))
    ensures var u := ApplyStatement(s, T.InsertDispatch(x, id, now)).txns;
            u.db == s.Db() && TxnsOk(u, s.log)
  {
    hide RequestIn, EventIn, LogOk, Logged, OutboxOk, DispatchesOk, ReqOk, Bijective, BehindOk, ConsumersOk, OutcomesOk;
    var req := s.txns.open[x].req;
    assert T.PhaseOk(s.Db(), s.txns.open[x]);
    DispatchInsertSucceeds(s.Db(), req);
  }

  lemma OwnedCommit(s: State, x: T.TxnId)
    requires Owned(s) && CanStep(s, T.Commit(x))
    ensures var u := ApplyStatement(s, T.Commit(x)).txns;
            && TxnsOk(u, s.log) && DispatchesOk(u.db) && OutboxOk(u.db) && Keeps(s.Db(), u.db)
  {
    hide RequestIn, EventIn, LogOk, Logged, OutboxOk, DispatchesOk, Keeps, Bijective, BehindOk, ConsumersOk, OutcomesOk;
    var t := s.txns.open[x];
    var u := ApplyStatement(s, T.Commit(x)).txns;
    assert T.PhaseOk(s.Db(), t);
    if t.phase.HoldsBoth? {
      DispatchKeeps(s.Db(), t.req, t.phase.row.dispatchId, t.phase.row.dispatchedAt);
    } else {
      KeepsItself(s.Db());
    }
    forall y | y in u.open
      ensures ReqOk(u.db, u.open[y].req)
    {
      ReqStays(s.Db(), u.db, s.txns.open[y].req);
    }
  }

  lemma KeepsItself(db: Tables)
    ensures Keeps(db, db)
  {
  }

  lemma OwnedStatement(s: State, t: T.Step)
    requires Owned(s) && CanStep(s, t)
    ensures Owned(ApplyStatement(s, t)) && Keeps(s.Db(), ApplyStatement(s, t).Db())
  {
    hide RequestIn, EventIn, Safe, DispatchesOk, OutboxOk, Keeps, LogOk, Logged, ReqOk;
    SafeStatement(s, t);
    KeepsItself(s.Db());
    match t
    case InsertDispatch(x, id, now) => OwnedInsertDispatch(s, x, id, now);
    case Commit(x) =>
      OwnedCommit(s, x);
      LogStays(s.Db(), ApplyStatement(s, t).Db(), s.log);
    case InsertEvent(x) =>
    case Abort(x) =>
  }

  // ----- Every step, every run -----

  lemma OwnedStep(s: State, step: Step)
    requires Owned(s) && Enabled(s, step) && !step.Foreign?
    ensures Owned(Apply(s, step)) && Keeps(s.Db(), Apply(s, step).Db())
  {
    hide Safe, OutboxOk, DispatchesOk, LogOk, TxnsOk, Keeps, ApplyFinish, ApplyCreate, ApplyStatement, Prepare,
         FreshCall, IsClaim, T.Enabled, MessageFor, RequestIn;
    SafeStep(s, step);
    KeepsItself(s.Db());
    if step.Create? {
      OwnedCreate(s, step.call, step.durable);
    } else if step.Publish? {
      OwnedPublish(s, step.r, step.outcome, step.partition, step.error);
    } else if step.Finish? {
      OwnedFinish(s, step.r, step.now);
    } else if step.Replay? {
      OwnedReplay(s, step.e, step.partition, step.written);
    } else if step.CallStore? {
      OwnedCallStore(s, step.c);
    } else if step.Statement? {
      OwnedStatement(s, step.step);
    } else {
      OwnedElsewhere(s, Apply(s, step));
    }
  }

  lemma KeepsTransitive(a: Tables, b: Tables, c: Tables)
    requires Keeps(a, b) && Keeps(b, c)
    ensures Keeps(a, c)
  {
  }

  lemma {:induction false} OwnedRun(s: State, steps: seq<Step>)
    requires Owned(s) && IsRun(s, steps) && OwnProducers(steps)
    ensures Owned(Final(s, steps)) && Keeps(s.Db(), Final(s, steps).Db())
    decreases |steps|
  {
    hide Owned, Enabled, Apply;
    if steps == [] {
    } else {
      OwnedStep(s, steps[0]);
      OwnedRun(Apply(s, steps[0]), steps[1..]);
      KeepsTransitive(s.Db(), Apply(s, steps[0]).Db(), Final(s, steps).Db());
    }
  }

  lemma OwnedInit()
    ensures Owned(INIT)
  {
  }

  /** A state of the system as it is deployed. */
  ghost predicate Reachable(s: State) {
    exists steps :: IsRun(INIT, steps) && OwnProducers(steps) && Final(INIT, steps) == s
  }

  lemma ReachableIsOwned(s: State)
    requires Reachable(s)
    ensures Owned(s)
  {
    var steps :| IsRun(INIT, steps) && OwnProducers(steps) && Final(INIT, steps) == s;
    OwnedInit();
    OwnedRun(INIT, steps);
  }

  // ----- Consequences -----

  /** Calls that finish create the dispatch or find it there: no conflict, no missing shipment, no bad amount. */
  lemma ConflictIsUnreachable(s: State, x: T.TxnId)
    requires Reachable(s) && x in s.txns.outcomes
    ensures s.txns.outcomes[x].result.Created? || s.txns.outcomes[x].result.Duplicate?
  {
    ReachableIsOwned(s);
    assert Effective(s.txns.outcomes[x].result);
  }

  /** Every record on the topic names a committed shipment that has exactly that one outbox event. */
  lemma RecordsNameTheirShipment(s: State, i: nat)
    requires Reachable(s) && i < |s.log|
    ensures RequestIn(s.log[i]).Some?
    ensures var req := RequestIn(s.log[i]).value;
            && req.shipmentId in s.Db().shipments
            && req.money == s.Db().shipments[req.shipmentId].price
            && forall e :: e in s.Db().outbox ==> (s.Db().outbox[e].shipmentId == req.shipmentId <==> e == req.eventId)
  {
    ReachableIsOwned(s);
    hide RequestIn;
    assert ReqOk(s.Db(), RequestIn(s.log[i]).value);
  }

  /** What is dispatched is the shipment's own event at the price stored when it was created. */
  lemma DispatchCarriesStoredPrice(s: State, id: ShipmentId)
    requires Reachable(s) && id in s.Db().dispatches
    ensures id in s.Db().shipments
    ensures var row := s.Db().dispatches[id];
            && row.eventId in s.Db().outbox && s.Db().outbox[row.eventId].shipmentId == id
            && row.money == s.Db().shipments[id].price
            && Logged(s.log, row.eventId)
  {
    ReachableIsOwned(s);
  }
}
