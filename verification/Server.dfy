/** The two calls of internal/shipmentapi/server.go, on the store. */
module Server {
  import opened Wrappers
  import opened Domain
  import opened Database
  import opened ShipmentApi
  import opened Storage
  import P = Protocol

  datatype ServerError = Rejected(api: ApiError) | StoreFailed(store: StoreError) | IdMissing

  /** The foreign keys of the schema. */
  ghost predicate References(db: Tables) {
    && (forall e :: e in db.outbox ==> db.outbox[e].shipmentId in db.shipments)
    && (forall s :: s in db.dispatches ==> s in db.shipments && db.dispatches[s].eventId in db.processed)
  }

  lemma CreatedIsObserved(db: Tables, c: CreateCall)
    requires References(db) && Prepare(c).Ok?
    requires CreateTx(db, Prepare(c).value.shipment, Prepare(c).value.event).Ok?
    ensures var p := Prepare(c).value;
            var db' := CreateTx(db, p.shipment, p.event).value;
            && References(db')
            && Observes(db', c.shipmentId, ShipmentView(p.shipment, OutboxPending, DispatchPending))
            && (forall v :: Observes(db', c.shipmentId, v) ==> v == ShipmentView(p.shipment, OutboxPending, DispatchPending))
  {
    PreparedIsValid(c);
    hide Prepare;
    var p := Prepare(c).value;
    var db' := CreateTx(db, p.shipment, p.event).value;
    assert JoinsOutbox(db', c.shipmentId, Some(c.eventId));
    assert View(db', c.shipmentId, Some(c.eventId)) == ShipmentView(p.shipment, OutboxPending, DispatchPending);
  }

  lemma PreparedIsStored(db: Tables, c: CreateCall)
    requires Prepare(c).Ok?
    ensures CreateTx(db, Prepare(c).value.shipment, Prepare(c).value.event).Ok? <==>
            c.shipmentId !in db.shipments && c.eventId !in db.outbox
  {
    PreparedIsValid(c);
    hide Prepare;
    CreateTxExactly(db, Prepare(c).value.shipment, Prepare(c).value.event);
  }

  /**
   * A shipment that is returned is stored with its event, and is shown like that by GetShipment. An error
   * leaves the tables alone, unless the commit took effect unnoticed; then both rows are there.
   */
  method CreateShipment(store: Store, c: CreateCall, fault: Fault) returns (r: Result<ShipmentView, ServerError>)
    requires References(store.Contents())
    modifies store
    ensures References(store.Contents())
    ensures r.Ok? ==>
              && Prepare(c).Ok? && r.value == ShipmentView(Prepare(c).value.shipment, OutboxPending, DispatchPending)
              && (forall v :: Observes(store.Contents(), c.shipmentId, v) <==> v == r.value)
    ensures r.Ok? <==>
              fault.NoFault? && Acceptable(c) && c.shipmentId !in old(store.shipments) && c.eventId !in old(store.outbox)
    ensures Prepare(c).Ok? && CreateTx(old(store.Contents()), Prepare(c).value.shipment, Prepare(c).value.event).Ok?
            && TakesEffect(fault) ==>
              Ok(store.Contents()) == CreateTx(old(store.Contents()), Prepare(c).value.shipment, Prepare(c).value.event)
    ensures r.Err? && !fault.CommitUnacked? ==> store.Contents() == old(store.Contents())
    ensures r.Err? && r.error.Rejected? <==> Prepare(c).Err?
  {
    hide Prepare, CreateTx, Observes, References, Acceptable;
    AcceptedExactly(c);
    var prepared := Prepare(c);
    if prepared.Err? {
      return Err(Rejected(prepared.error));
    }
    PreparedIsStored(store.Contents(), c);
    if CreateTx(store.Contents(), prepared.value.shipment, prepared.value.event).Ok? {
      CreatedIsObserved(store.Contents(), c);
    }
    var stored := store.CreateShipment(prepared.value.shipment, prepared.value.event, fault);
    if stored.Err? {
      return Err(StoreFailed(stored.error));
    }
    return Ok(ShipmentView(prepared.value.shipment, OutboxPending, DispatchPending));
  }

  /** Any accepted call with new identifiers is a step of the protocol, with the same effect on the tables. */
  lemma CreateIsAStep(s: P.State, c: CreateCall, fault: Fault)
    requires Acceptable(c) && c.shipmentId != "" && c.eventId != ""
    requires c.shipmentId !in s.Db().shipments && c.eventId !in s.Db().outbox
    ensures Prepare(c).Ok?
    ensures var step := P.Create(c, TakesEffect(fault));
            var stored := CreateTx(s.Db(), Prepare(c).value.shipment, Prepare(c).value.event);
            && P.Enabled(s, step) && stored.Ok?
            && P.Apply(s, step).Db() == (if TakesEffect(fault) then stored.value else s.Db())
            && P.Apply(s, step).log == s.log && P.Apply(s, step).polls == s.polls
            && P.Apply(s, step).consumers == s.consumers && P.Apply(s, step).committed == s.committed
  {
    AcceptedExactly(c);
    PreparedIsStored(s.Db(), c);
    PreparedIsValid(c);
    CreateTxExactly(s.Db(), Prepare(c).value.shipment, Prepare(c).value.event);
    hide Prepare, Acceptable, CreateTx;
  }

  method GetShipment(store: Store, id: ShipmentId) returns (r: Result<ShipmentView, ServerError>)
    ensures id == "" <==> r == Err(IdMissing)
    ensures r.Ok? ==> id != "" && Observes(store.Contents(), id, r.value)
    ensures r.Err? && id != "" ==> r == Err(StoreFailed(NotFound)) && id !in store.shipments
  {
    if id == "" {
      return Err(IdMissing);
    }
    var found := store.GetShipment(id);
    if found.Err? {
      return Err(StoreFailed(found.error));
    }
    return Ok(found.value);
  }
}
