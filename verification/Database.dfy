/**
 * The schema of db/migrations/0001_init.sql and, for each transaction of internal/storage/store.go,
 * what it does to the tables when nothing else runs.
 */
module Database {
  import opened Wrappers
  import opened Domain
  import opened Json
  import opened Events

  datatype ShipmentRow = ShipmentRow(weightGrams: int32, price: Money, createdAt: int)

  datatype OutboxRow = OutboxRow(
    shipmentId: ShipmentId, eventType: string, payload: Value, createdAt: int,
    publishedAt: Option<int>, attempts: nat, lastError: Option<string>)

  /** dispatches is indexed by its UNIQUE column shipment_id; the primary key is dispatchId. */
  datatype DispatchRow = DispatchRow(dispatchId: DispatchId, eventId: EventId, money: Money, dispatchedAt: int)

  datatype Tables = Tables(
    shipments: map<ShipmentId, ShipmentRow>,
    outbox: map<EventId, OutboxRow>,
    processed: set<EventId>,
    dispatches: map<ShipmentId, DispatchRow>)

  const EMPTY := Tables(map[], map[], {}, map[])

  datatype DbError = UniqueViolation | CheckViolation | ForeignKeyViolation | InvalidText

  // ----- CHAR(3) -----

  /** A CHAR(3) column refuses longer text and pads shorter text with spaces. */
  function Char3(s: string): (r: string)
    requires |s| <= 3
    ensures |r| == 3 && s <= r
  {
    if |s| == 3 then s else if |s| == 2 then s + " " else if |s| == 1 then s + "  " else "   "
  }

  predicate MoneyFits(m: Money) {
    0 <= m.amountCents && |m.currency| <= 3
  }

  function StoredMoney(m: Money): Money
    requires MoneyFits(m)
  {
    Money(m.amountCents, Char3(m.currency))
  }

  // ----- CreateShipment -----

  /** What the service hands to the store besides the shipment; payload is bytes. */
  datatype OutboxEvent = OutboxEvent(eventId: EventId, shipmentId: ShipmentId, eventType: string, payload: Text)

  function InsertShipment(db: Tables, s: Shipment): Result<Tables, DbError> {
    if !ValidWeight(s.weightGrams) || !MoneyFits(s.price) then Err(CheckViolation)
    else if s.id in db.shipments then Err(UniqueViolation)
    else Ok(db.(shipments := db.shipments[s.id := ShipmentRow(s.weightGrams, StoredMoney(s.price), s.createdAt)]))
  }

  function InsertOutbox(db: Tables, e: OutboxEvent, createdAt: int): Result<Tables, DbError> {
    if e.payload.NotJson? then Err(InvalidText)
    else if e.eventId in db.outbox then Err(UniqueViolation)
    else if e.shipmentId !in db.shipments then Err(ForeignKeyViolation)
    else Ok(db.(outbox := db.outbox[e.eventId :=
      OutboxRow(e.shipmentId, e.eventType, e.payload.value, createdAt, None, 0, None)]))
  }

  /** Both inserts or neither. */
  function CreateTx(db: Tables, s: Shipment, e: OutboxEvent): Result<Tables, DbError> {
    match InsertShipment(db, s)
    case Err(err) => Err(err)
    case Ok(db1) => InsertOutbox(db1, e, s.createdAt)
  }

  /** Which pairs of rows the schema takes, what they become, and what it says of every other pair. */
  lemma CreateTxExactly(db: Tables, s: Shipment, e: OutboxEvent)
    ensures var checked := 1 <= s.weightGrams <= 30000 && s.price.amountCents >= 0 && |s.price.currency| <= 3;
            var r := CreateTx(db, s, e);
            && (r.Ok? <==>
                  && checked && s.id !in db.shipments && e.payload.IsJson?
                  && e.eventId !in db.outbox && (e.shipmentId == s.id || e.shipmentId in db.shipments))
            && (r.Ok? ==>
                  && r.value.shipments.Keys == db.shipments.Keys + {s.id}
                  && r.value.outbox.Keys == db.outbox.Keys + {e.eventId}
                  && (forall x :: x in db.shipments ==> r.value.shipments[x] == db.shipments[x])
                  && (forall x :: x in db.outbox ==> r.value.outbox[x] == db.outbox[x])
                  && r.value.processed == db.processed && r.value.dispatches == db.dispatches
                  && r.value.shipments[s.id].weightGrams == s.weightGrams && r.value.shipments[s.id].createdAt == s.createdAt
                  && r.value.shipments[s.id].price.amountCents == s.price.amountCents
                  && (|s.price.currency| == 3 ==> r.value.shipments[s.id].price == s.price)
                  && r.value.outbox[e.eventId] ==
                     OutboxRow(e.shipmentId, e.eventType, e.payload.value, s.createdAt, None, 0, None))
            && (r == Err(CheckViolation) <==> !checked)
            && (r == Err(UniqueViolation) <==>
                  && checked
                  && (|| s.id in db.shipments
                      || (e.payload.IsJson? && e.eventId in db.outbox)))
            && (r == Err(InvalidText) <==> checked && s.id !in db.shipments && e.payload.NotJson?)
  {
  }

  // ----- ProcessPending -----

  function Pending(outbox: map<EventId, OutboxRow>): set<EventId> {
    set e | e in outbox && outbox[e].publishedAt.None?
  }

  function Min(a: nat, b: nat): nat {
    if a <= b then a else b
  }

  predicate SortedByAge(outbox: map<EventId, OutboxRow>, batch: seq<EventId>)
    requires forall e :: e in batch ==> e in outbox
  {
    forall i, j :: 0 <= i < j < |batch| ==> outbox[batch[i]].createdAt <= outbox[batch[j]].createdAt
  }

  predicate Distinct<T(==)>(s: seq<T>) {
    forall i, j :: 0 <= i < j < |s| ==> s[i] != s[j]
  }

  /**
   * SELECT ... WHERE published_at IS NULL ORDER BY created_at LIMIT limit FOR UPDATE SKIP LOCKED:
   * the oldest pending rows nobody has locked, ties in any order.
   */
  predicate IsClaim(outbox: map<EventId, OutboxRow>, locked: set<EventId>, limit: nat, batch: seq<EventId>) {
    && Distinct(batch)
    && (forall e :: e in batch ==> e in Pending(outbox) && e !in locked)
    && |batch| == Min(limit, |Pending(outbox) - locked|)
    && SortedByAge(outbox, batch)
    && (forall e, i :: e in Pending(outbox) - locked && e !in batch && 0 <= i < |batch| ==>
          outbox[batch[i]].createdAt <= outbox[e].createdAt)
  }

  /** Some row of a non-empty set is at least as old as every other. */
  lemma {:induction false} OldestExists(outbox: map<EventId, OutboxRow>, rows: set<EventId>)
    requires rows != {} && rows <= outbox.Keys
    ensures exists e :: e in rows && forall f :: f in rows ==> outbox[e].createdAt <= outbox[f].createdAt
    decreases |rows|
  {
    var e :| e in rows;
    var rest := rows - {e};
    if rest == {} {
      assert rows == {e};
    } else {
      OldestExists(outbox, rest);
      var g :| g in rest && forall f :: f in rest ==> outbox[g].createdAt <= outbox[f].createdAt;
      assert forall f :: f in rows ==> f == e || f in rest;
    }
  }

  /** Extending a claim by the oldest row it leaves out. */
  lemma ClaimExtends(outbox: map<EventId, OutboxRow>, locked: set<EventId>, limit: nat, batch: seq<EventId>, e: EventId)
    requires IsClaim(outbox, locked, limit, batch)
    requires e in Pending(outbox) - locked && e !in batch && |batch| == limit
    requires forall f :: f in Pending(outbox) - locked && f !in batch ==> outbox[e].createdAt <= outbox[f].createdAt
    ensures IsClaim(outbox, locked, limit + 1, batch + [e])
  {
    var free := Pending(outbox) - locked;
    DistinctLength(batch + [e], free);
  }

  lemma {:induction false} DistinctLength(s: seq<EventId>, all: set<EventId>)
    requires Distinct(s) && forall e :: e in s ==> e in all
    ensures |s| <= |all|
    decreases |s|
  {
    if s != [] {
      var n := |s| - 1;
      forall e | e in s[..n]
        ensures e in all - {s[n]}
      {
        assert e in s;
      }
      DistinctLength(s[..n], all - {s[n]});
    }
  }

  lemma EmptyClaim(outbox: map<EventId, OutboxRow>, locked: set<EventId>)
    ensures IsClaim(outbox, locked, 0, [])
  {
  }

  lemma ClaimSize(outbox: map<EventId, OutboxRow>, locked: set<EventId>, limit: nat, batch: seq<EventId>)
    requires IsClaim(outbox, locked, limit, batch)
    ensures |batch| == Min(limit, |Pending(outbox) - locked|)
  {
  }

  /** There always is something to claim from, up to the limit. */
  lemma {:induction false} ClaimExists(outbox: map<EventId, OutboxRow>, locked: set<EventId>, limit: nat)
    ensures exists batch :: IsClaim(outbox, locked, limit, batch)
    decreases limit
  {
    hide IsClaim;
    var free := Pending(outbox) - locked;
    if limit == 0 {
      EmptyClaim(outbox, locked);
    } else {
      ClaimExists(outbox, locked, limit - 1);
      var batch :| IsClaim(outbox, locked, limit - 1, batch);
      var rest := free - (set e | e in batch);
      ClaimSize(outbox, locked, limit - 1, batch);
      if rest == {} || |batch| < limit - 1 {
        ClaimStays(outbox, locked, limit - 1, batch);
        assert IsClaim(outbox, locked, limit, batch);
      } else {
        OldestExists(outbox, rest);
        var e :| e in rest && forall f :: f in rest ==> outbox[e].createdAt <= outbox[f].createdAt;
        assert |batch| == limit - 1;
        ClaimExtends(outbox, locked, limit - 1, batch, e);
      }
    }
  }

  lemma {:induction false} DistinctSize(s: seq<EventId>)
    requires Distinct(s)
    ensures |set e | e in s| == |s|
    decreases |s|
  {
    if s != [] {
      var n := |s| - 1;
      DistinctSize(s[..n]);
      assert (set e | e in s) == (set e | e in s[..n]) + {s[n]};
    }
  }

  /** A claim with nothing left over, or one shorter than its limit, holds every free row. */
  lemma ClaimIsAll(outbox: map<EventId, OutboxRow>, locked: set<EventId>, limit: nat, batch: seq<EventId>)
    requires IsClaim(outbox, locked, limit, batch)
    requires (Pending(outbox) - locked) - (set e | e in batch) == {} || |batch| < limit
    ensures |batch| == |Pending(outbox) - locked|
    ensures (set e | e in batch) == Pending(outbox) - locked
  {
    var free := Pending(outbox) - locked;
    var held := set e | e in batch;
    DistinctSize(batch);
    assert held <= free;
    assert free == held + (free - held) && |free| == |held| + |free - held|;
    assert free - held == {};
  }

  lemma ClaimStays(outbox: map<EventId, OutboxRow>, locked: set<EventId>, limit: nat, batch: seq<EventId>)
    requires IsClaim(outbox, locked, limit, batch)
    requires (Pending(outbox) - locked) - (set e | e in batch) == {} || |batch| < limit
    ensures IsClaim(outbox, locked, limit + 1, batch)
  {
    ClaimIsAll(outbox, locked, limit, batch);
  }

  /** What publishing a claimed batch reports; the empty identifier in failed means no failure. */
  datatype PublishResult = PublishResult(published: seq<EventId>, failed: EventId, error: string)

  function MarkPublished(outbox: map<EventId, OutboxRow>, ids: seq<EventId>, now: int): map<EventId, OutboxRow> {
    map e | e in outbox ::
      if e in ids
      then outbox[e].(publishedAt := Some(now), attempts := outbox[e].attempts + 1, lastError := None)
      else outbox[e]
  }

  function RecordFailure(outbox: map<EventId, OutboxRow>, id: EventId, error: string): map<EventId, OutboxRow> {
    map e | e in outbox ::
      if e == id
      then outbox[e].(attempts := outbox[e].attempts + 1, lastError := Some(error))
      else outbox[e]
  }

  /** Both UPDATE statements of ProcessPending. */
  function MarkBatch(db: Tables, r: PublishResult, now: int): Tables {
    var marked := if |r.published| > 0 then MarkPublished(db.outbox, r.published, now) else db.outbox;
    db.(outbox := if r.failed != "" then RecordFailure(marked, r.failed, r.error) else marked)
  }

  // ----- RecordDispatch -----

  datatype DispatchRequest = DispatchRequest(eventId: EventId, shipmentId: ShipmentId, money: Money)

  datatype DispatchResult = Created(row: DispatchRow) | Duplicate | Conflict | Refused(error: DbError)

  function DispatchIds(db: Tables): set<DispatchId> {
    set s | s in db.dispatches :: db.dispatches[s].dispatchId
  }

  function NewDispatchRow(req: DispatchRequest, id: DispatchId, now: int): DispatchRow
    requires MoneyFits(req.money)
  {
    DispatchRow(id, req.eventId, StoredMoney(req.money), now)
  }

  /** RecordDispatch alone: dedupe and dispatch in one transaction. */
  function RecordTx(db: Tables, req: DispatchRequest, id: DispatchId, now: int): (Tables, DispatchResult) {
    if req.eventId in db.processed then (db, Duplicate)
    else if !MoneyFits(req.money) then (db, Refused(CheckViolation))
    else if req.shipmentId in db.dispatches || id in DispatchIds(db) then (db, Conflict)
    else if req.shipmentId !in db.shipments then (db, Refused(ForeignKeyViolation))
    else
      var row := NewDispatchRow(req, id, now);
      (db.(processed := db.processed + {req.eventId}, dispatches := db.dispatches[req.shipmentId := row]),
       Created(row))
  }

  /**
   * Which requests create a dispatch and what its row says; which are duplicates; which conflict; and what the
   * schema says of the others.
   */
  lemma RecordTxExactly(db: Tables, req: DispatchRequest, id: DispatchId, now: int)
    ensures var (db', result) := RecordTx(db, req, id, now);
            var fits := req.money.amountCents >= 0 && |req.money.currency| <= 3;
            var taken := req.shipmentId in db.dispatches || exists s :: s in db.dispatches && db.dispatches[s].dispatchId == id;
            && (result.Duplicate? <==> req.eventId in db.processed)
            && (result == Refused(CheckViolation) <==> req.eventId !in db.processed && !fits)
            && (result.Conflict? <==> req.eventId !in db.processed && fits && taken)
            && (result == Refused(ForeignKeyViolation) <==>
                  req.eventId !in db.processed && fits && !taken && req.shipmentId !in db.shipments)
            && (result.Created? <==> req.eventId !in db.processed && fits && !taken && req.shipmentId in db.shipments)
            && (!result.Created? ==> db' == db)
            && (result.Created? ==>
                  && db'.shipments == db.shipments && db'.outbox == db.outbox
                  && db'.processed == db.processed + {req.eventId}
                  && db'.dispatches == db.dispatches[req.shipmentId := result.row]
                  && result.row.dispatchId == id && result.row.eventId == req.eventId && result.row.dispatchedAt == now
                  && result.row.money.amountCents == req.money.amountCents
                  && (|req.money.currency| == 3 ==> result.row.money == req.money))
  {
    if s :| s in db.dispatches && db.dispatches[s].dispatchId == id {
      assert id in DispatchIds(db);
    }
  }

  /** The request a consumer builds from a decoded event. */
  function RequestOf(e: ShipmentCreated): DispatchRequest {
    DispatchRequest(e.eventId, e.shipmentId, Money(e.data.amountCents, e.data.currency))
  }

  // ----- GetShipment -----

  /** The row of outbox_events a joined result row carries, if any. */
  predicate JoinsOutbox(db: Tables, id: ShipmentId, match_: Option<EventId>) {
    match match_
    case Some(e) => e in db.outbox && db.outbox[e].shipmentId == id && db.outbox[e].eventType == TYPE_SHIPMENT_CREATED
    case None => forall e :: e in db.outbox ==>
                   !(db.outbox[e].shipmentId == id && db.outbox[e].eventType == TYPE_SHIPMENT_CREATED)
  }

  function View(db: Tables, id: ShipmentId, match_: Option<EventId>): ShipmentView
    requires id in db.shipments && JoinsOutbox(db, id, match_)
  {
    var row := db.shipments[id];
    ShipmentView(
      Shipment(id, row.weightGrams, row.price, row.createdAt),
      if match_.Some? && db.outbox[match_.value].publishedAt.Some? then OutboxPublished else OutboxPending,
      if id in db.dispatches
      then Dispatched(db.dispatches[id].dispatchId, db.dispatches[id].eventId, db.dispatches[id].dispatchedAt)
      else DispatchPending)
  }

  /** v is a row GetShipment can return; no row means not found. */
  ghost predicate Observes(db: Tables, id: ShipmentId, v: ShipmentView) {
    id in db.shipments && exists m :: JoinsOutbox(db, id, m) && v == View(db, id, m)
  }
}
