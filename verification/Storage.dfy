/**
 * internal/storage/store.go as the code runs it: statement by statement on the tables, rolling back when
 * something fails, one caller at a time.
 */
module Storage {
  import opened Wrappers
  import opened Domain
  import opened Events
  import opened Database

  /**
   * What goes wrong with a transaction: nothing, a failure that leaves no trace and is seen instead of whatever
   * the statements would have said, or a commit that took effect although the caller is told it failed.
   */
  datatype Fault = NoFault | Fails | CommitUnacked

  datatype StoreError = Constraint(error: DbError) | DispatchConflict | Transient | NotFound

  predicate TakesEffect(f: Fault) {
    !f.Fails?
  }

  /** A claim that took everything is the claim for any higher limit. */
  lemma RaiseLimit(outbox: map<EventId, OutboxRow>, limit: nat, higher: nat, batch: seq<EventId>)
    requires IsClaim(outbox, {}, limit, batch) && Pending(outbox) - (set e | e in batch) == {} && limit <= higher
    ensures IsClaim(outbox, {}, higher, batch)
  {
    ClaimIsAll(outbox, {}, limit, batch);
  }

  class Store {
    var shipments: map<ShipmentId, ShipmentRow>
    var outbox: map<EventId, OutboxRow>
    var processed: set<EventId>
    var dispatches: map<ShipmentId, DispatchRow>

    function Contents(): Tables
      reads this
    {
      Tables(shipments, outbox, processed, dispatches)
    }

    constructor ()
      ensures Contents() == EMPTY
    {
      shipments, outbox, processed, dispatches := map[], map[], {}, map[];
    }

    /** Either both rows exist afterwards or neither was added; without a fault a nil error means both. */
    method CreateShipment(s: Shipment, e: OutboxEvent, fault: Fault) returns (r: Result<(), StoreError>)
      modifies this
      ensures Contents() == if CreateTx(old(Contents()), s, e).Ok? && TakesEffect(fault)
                            then CreateTx(old(Contents()), s, e).value else old(Contents())
      ensures r.Ok? <==> CreateTx(old(Contents()), s, e).Ok? && fault.NoFault?
      ensures CreateTx(old(Contents()), s, e).Err? ==>
                r == Err(if fault.Fails? then Transient else Constraint(CreateTx(old(Contents()), s, e).error))
      ensures CreateTx(old(Contents()), s, e).Ok? && !fault.NoFault? ==> r == Err(Transient)
    {
      var shipmentsBefore := shipments;
      if !ValidWeight(s.weightGrams) || !MoneyFits(s.price) {
        return Err(if fault.Fails? then Transient else Constraint(CheckViolation));
      }
      if s.id in shipments {
        return Err(if fault.Fails? then Transient else Constraint(UniqueViolation));
      }
      shipments := shipments[s.id := ShipmentRow(s.weightGrams, StoredMoney(s.price), s.createdAt)];

      var error: Option<DbError> := None;
      if e.payload.NotJson? {
        error := Some(InvalidText);
      } else if e.eventId in outbox {
        error := Some(UniqueViolation);
      } else if e.shipmentId !in shipments {
        error := Some(ForeignKeyViolation);
      }
      if error.Some? {
        shipments := shipmentsBefore;
        return Err(if fault.Fails? then Transient else Constraint(error.value));
      }
      var outboxBefore := outbox;
      outbox := outbox[e.eventId := OutboxRow(e.shipmentId, e.eventType, e.payload.value, s.createdAt, None, 0, None)];

      match fault
      case NoFault => return Ok(());
      case CommitUnacked => return Err(Transient);
      case Fails =>
        shipments, outbox := shipmentsBefore, outboxBefore;
        return Err(Transient);
    }

    /**
     * Marks the event processed and creates its dispatch, or does nothing. A duplicate comes back with the
     * zero Dispatch, not with status pending.
     */
    method RecordDispatch(req: DispatchRequest, id: DispatchId, now: int, fault: Fault)
      returns (dispatch: Dispatch, duplicate: bool, err: Option<StoreError>)
      modifies this
      ensures Contents() == if TakesEffect(fault) then RecordTx(old(Contents()), req, id, now).0 else old(Contents())
      ensures match RecordTx(old(Contents()), req, id, now).1
              case Created(row) =>
                && (fault.NoFault? ==> dispatch == Dispatched(id, req.eventId, now) && !duplicate && err.None?)
                && (!fault.NoFault? ==> err == Some(Transient))
              case Duplicate =>
                && (fault.NoFault? ==> dispatch == DispatchUnset && duplicate && err.None?)
                && (!fault.NoFault? ==> err == Some(Transient))
              case Conflict => err == Some(if fault.Fails? then Transient else DispatchConflict)
              case Refused(e) => err == Some(if fault.Fails? then Transient else Constraint(e))
      ensures err.Some? ==> dispatch == DispatchUnset && !duplicate
    {
      dispatch, duplicate, err := DispatchUnset, false, None;
      var processedBefore, dispatchesBefore := processed, dispatches;
      var isNew := req.eventId !in processed;
      processed := processed + {req.eventId};
      if !isNew {
        duplicate := true;
      } else if !MoneyFits(req.money) {
        err := Some(Constraint(CheckViolation));
      } else if req.shipmentId in dispatches || exists s :: s in dispatches && dispatches[s].dispatchId == id {
        err := Some(DispatchConflict);
      } else if req.shipmentId !in shipments {
        err := Some(Constraint(ForeignKeyViolation));
      } else {
        dispatch := Dispatched(id, req.eventId, now);
        dispatches := dispatches[req.shipmentId := NewDispatchRow(req, id, now)];
      }

      if err.None? {
        assert duplicate ==> processed == processedBefore;
        if !fault.NoFault? {
          dispatch, duplicate, err := DispatchUnset, false, Some(Transient);
        }
      } else if fault.Fails? {
        err := Some(Transient);
      }
      if fault.Fails? || (err.Some? && err != Some(Transient)) {
        processed, dispatches := processedBefore, dispatchesBefore;
      }
    }

    /** The oldest pending rows, oldest first, up to the limit. */
    method ClaimPending(limit: nat) returns (batch: seq<EventId>)
      ensures IsClaim(outbox, {}, limit, batch)
    {
      hide IsClaim;
      batch := [];
      EmptyClaim(outbox, {});
      var left := Pending(outbox);
      while |batch| < limit && left != {}
        invariant left == Pending(outbox) - (set e | e in batch)
        invariant |batch| <= limit && IsClaim(outbox, {}, |batch|, batch)
        decreases left
      {
        OldestExists(outbox, left);
        var e :| e in left && forall f :: f in left ==> outbox[e].createdAt <= outbox[f].createdAt;
        ClaimExtends(outbox, {}, |batch|, batch, e);
        left, batch := left - {e}, batch + [e];
      }
      if |batch| < limit {
        RaiseLimit(outbox, |batch|, limit, batch);
      }
    }

    /** The two UPDATE statements after publishing. */
    method RecordPublished(result: PublishResult, now: int, fault: Fault) returns (ok: bool)
      modifies this`outbox
      ensures Contents() == if TakesEffect(fault) then MarkBatch(old(Contents()), result, now) else old(Contents())
      ensures ok <==> fault.NoFault?
    {
      var before := outbox;
      if |result.published| > 0 {
        outbox := MarkPublished(outbox, result.published, now);
      }
      if result.failed != "" {
        outbox := RecordFailure(outbox, result.failed, result.error);
      }
      if fault.Fails? {
        outbox := before;
      }
      return fault.NoFault?;
    }

    /** Left join of the shipment with its outbox event and its dispatch; no row is not found. */
    method GetShipment(id: ShipmentId) returns (r: Result<ShipmentView, StoreError>)
      ensures r.Ok? ==> Observes(Contents(), id, r.value)
      ensures r.Err? <==> id !in shipments
      ensures r.Err? ==> r == Err(NotFound)
    {
      if id !in shipments {
        return Err(NotFound);
      }
      var matches := set e | e in outbox && outbox[e].shipmentId == id && outbox[e].eventType == TYPE_SHIPMENT_CREATED;
      var joined: Option<EventId> := None;
      if matches != {} {
        var e :| e in matches;
        joined := Some(e);
      } else {
        assert forall e :: e in outbox ==> e !in matches;
      }
      r := Ok(View(Contents(), id, joined));
    }
  }
}
