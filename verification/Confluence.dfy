/**
 * Consuming in any order, any number of times: the dispatches depend only on which events were consumed.
 */
module Confluence {
  import opened Domain
  import opened Database
  import opened Protocol
  import opened NoLoss
  import opened OwnEvents
  import opened Refinement

  /** One record handed to the handler, with the identifier and time its dispatch gets if it creates one. */
  datatype Delivery = Delivery(record: Record, id: DispatchId, now: int)

  /** Handling one record; a record that does not decode leaves the tables alone. */
  function Handle(db: Tables, d: Delivery): Tables {
    match RequestIn(d.record)
    case None => db
    case Some(req) => RecordTx(db, req, d.id, d.now).0
  }

  function Consume(db: Tables, ds: seq<Delivery>): Tables {
    if ds == [] then db else Handle(Consume(db, ds[..|ds| - 1]), ds[|ds| - 1])
  }

  /** The records are those of outbox rows, and new identifiers are new. */
  ghost predicate Drawn(db: Tables, ds: seq<Delivery>) {
    && (forall i :: 0 <= i < |ds| ==>
          && RequestIn(ds[i].record).Some? && ReqOk(db, RequestIn(ds[i].record).value)
          && ds[i].id !in DispatchIds(db))
    && (forall i, j :: 0 <= i < j < |ds| ==> ds[i].id != ds[j].id)
  }

  function Events(ds: seq<Delivery>): set<EventId> {
    set d | d in ds && EventIn(d.record).Some? :: EventIn(d.record).value
  }

  /** The tables agree with each other, as in every reachable state. */
  ghost predicate Consistent(db: Tables) {
    OutboxOk(db) && DispatchesOk(db) && Bijective(db)
  }

  /** Each shipment's event and price, for the shipments whose event is among those given. */
  ghost function DispatchesFor(db: Tables, events: set<EventId>): map<ShipmentId, Promise>
    requires OutboxOk(db)
  {
    map s | s in db.shipments && EventOfShipment(db, s) in events ::
      Promise(EventOfShipment(db, s), db.shipments[s].price)
  }

  /** The dispatches, identifiers and timestamps aside. */
  function Core(db: Tables): map<ShipmentId, Promise> {
    map s | s in db.dispatches :: Promise(db.dispatches[s].eventId, db.dispatches[s].money)
  }

  /** Which shipments are dispatched, with what, is a function of the processed events. */
  lemma ProcessedDetermineDispatches(db: Tables)
    requires Consistent(db)
    ensures Core(db) == DispatchesFor(db, db.processed)
  {
    hide RowOk;
    forall s | s in db.dispatches
      ensures s in DispatchesFor(db, db.processed) && Core(db)[s] == DispatchesFor(db, db.processed)[s]
    {
      EventIsUnique(db, s, db.dispatches[s].eventId);
    }
    forall s | s in DispatchesFor(db, db.processed)
      ensures s in db.dispatches
    {
      var e := EventOfShipment(db, s);
      var d :| d in db.dispatches && db.dispatches[d].eventId == e;
    }
  }

  /** Handling one more record of an outbox row processes its event, and never conflicts. */
  lemma HandleOne(db: Tables, req: DispatchRequest, id: DispatchId, now: int)
    requires Consistent(db) && ReqOk(db, req) && id !in DispatchIds(db)
    ensures var (db', result) := RecordTx(db, req, id, now);
            && Effective(result) && Consistent(db')
            && db'.processed == db.processed + {req.eventId}
            && db'.shipments == db.shipments && db'.outbox == db.outbox
            && DispatchIds(db') <= DispatchIds(db) + {id}
  {
    hide OutboxOk, DispatchesOk, Says, ReqOk;
    if req.eventId !in db.processed {
      DispatchInsertSucceeds(db, req);
      DispatchKeeps(db, req, id, now);
      BijectionGrows(db, req, id, now);
    }
  }

  lemma BijectionGrows(db: Tables, req: DispatchRequest, id: DispatchId, now: int)
    requires Bijective(db) && req.eventId !in db.processed && MoneyFits(req.money) && req.shipmentId !in db.dispatches
    ensures Bijective(db.(processed := db.processed + {req.eventId},
                          dispatches := db.dispatches[req.shipmentId := NewDispatchRow(req, id, now)]))
  {
    var db' := db.(processed := db.processed + {req.eventId},
                   dispatches := db.dispatches[req.shipmentId := NewDispatchRow(req, id, now)]);
    forall e | e in db'.processed
      ensures exists s :: s in db'.dispatches && db'.dispatches[s].eventId == e
    {
      if e == req.eventId {
        assert db'.dispatches[req.shipmentId].eventId == e;
      } else {
        var s :| s in db.dispatches && db.dispatches[s].eventId == e;
        assert db'.dispatches[s].eventId == e;
      }
    }
  }

  lemma {:induction false} ConsumeAll(db: Tables, ds: seq<Delivery>)
    requires Consistent(db) && Drawn(db, ds)
    ensures var db' := Consume(db, ds);
            && Consistent(db')
            && db'.processed == db.processed + Events(ds)
            && db'.shipments == db.shipments && db'.outbox == db.outbox
            && DispatchIds(db') <= DispatchIds(db) + (set d | d in ds :: d.id)
    decreases |ds|
  {
    hide Consistent, RequestIn, RecordTx, DispatchIds;
    if ds != [] {
      var n := |ds| - 1;
      var rest := ds[..n];
      ConsumeAll(db, rest);
      var db1 := Consume(db, rest);
      var req := RequestIn(ds[n].record).value;
      assert ds == rest + [ds[n]];
      assert ReqOk(db1, req);
      HandleOne(db1, req, ds[n].id, ds[n].now);
      assert Events(ds) == Events(rest) + {req.eventId};
    }
  }

  /**
   * For any records drawn from the outbox, in any order and with any repetitions, the dispatches are those
   * of the set of distinct events consumed so far.
   */
  lemma ConsumingIsConfluent(db: Tables, ds: seq<Delivery>)
    requires Consistent(db) && Drawn(db, ds)
    ensures Core(Consume(db, ds)) == DispatchesFor(db, db.processed + Events(ds))
  {
    hide Consistent, RequestIn, RecordTx;
    ConsumeAll(db, ds);
    ProcessedDetermineDispatches(Consume(db, ds));
    SameRowsSameDispatches(db, Consume(db, ds), db.processed + Events(ds));
    ConsistentOutbox(db);
  }

  lemma ConsistentOutbox(db: Tables)
    requires Consistent(db)
    ensures OutboxOk(db)
  {
  }

  lemma SameRowsSameDispatches(db: Tables, db': Tables, events: set<EventId>)
    requires Consistent(db) && Consistent(db') && db'.shipments == db.shipments && db'.outbox == db.outbox
    ensures DispatchesFor(db', events) == DispatchesFor(db, events)
  {
    hide RowOk, Bijective, DispatchesOk;
    forall s | s in db.shipments
      ensures EventOfShipment(db', s) == EventOfShipment(db, s)
    {
      EventIsUnique(db, s, EventOfShipment(db', s));
    }
  }

  /** Going back to an earlier offset and reading records again changes nothing. */
  lemma ReadingAgainChangesNothing(db: Tables, ds: seq<Delivery>, again: seq<Delivery>)
    requires Consistent(db) && Drawn(db, ds + again)
    requires forall d :: d in again ==> exists e :: e in ds && e.record == d.record
    ensures Core(Consume(db, ds + again)) == Core(Consume(db, ds))
  {
    hide Consistent, RequestIn, ReqOk, Consume, Core, DispatchIds;
    assert Drawn(db, ds) by {
      assert forall i :: 0 <= i < |ds| ==> (ds + again)[i] == ds[i];
    }
    ConsumingIsConfluent(db, ds + again);
    ConsumingIsConfluent(db, ds);
    assert Events(ds + again) == Events(ds);
  }

  /** The same holds of the concurrent protocol: in every reachable state. */
  lemma ReachableDispatchesFollowProcessed(s: State)
    requires Reachable(s)
    ensures OutboxOk(s.Db()) && Core(s.Db()) == DispatchesFor(s.Db(), s.Db().processed)
  {
    ReachableIsOwned(s);
    ProcessedDetermineDispatches(s.Db());
  }
}
